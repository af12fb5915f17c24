/** Native memory as a byte store, and the byte images of stored values. */
module NativeMemory {
  import opened CErrors
  import opened IntKinds
  import opened CTypes
  import opened Handles
  import opened Convert
  import opened Enums
  import opened Pointers

  /** Bytes of native memory by address (a byte is a `char` below 256). */
  type Memory = map<int, char>

  /** The `n` bytes from `addr` on are all mapped. */
  predicate Mapped(mem: Memory, addr: int, n: nat)
  {
    forall a :: addr <= a < addr + n ==> a in mem
  }

  /** The `n` bytes from `addr` on. */
  function Window(mem: Memory, addr: int, n: nat): (w: seq<char>)
    requires Mapped(mem, addr, n)
    ensures |w| == n && forall i :: 0 <= i < n ==> w[i] == mem[addr + i]
  {
    seq(n, i requires 0 <= i < n => mem[addr + i])
  }

  /** Memory with `bytes` copied to `addr`, one byte after the other: `memmove(addr, bytes, len(bytes))`. */
  function Overwrite(mem: Memory, addr: int, bytes: seq<char>): (m: Memory)
    requires Mapped(mem, addr, |bytes|)
    ensures m.Keys == mem.Keys
    ensures forall a :: a in mem && !(addr <= a < addr + |bytes|) ==> m[a] == mem[a]
    ensures forall i :: 0 <= i < |bytes| ==> m[addr + i] == bytes[i]
    decreases |bytes|
  {
    if |bytes| == 0 then mem
    else
      var n := |bytes| - 1;
      Overwrite(mem, addr, bytes[..n])[addr + n := bytes[n]]
  }

  /** The unsigned kind a pointer is stored as. */
  function AddressKind(plat: Platform): IntKind
  {
    IntKind(8 * plat.pointerSize, false)
  }

  /** Types whose values are stored by value (not views): integers, `char`, enums, pointers. */
  predicate ByValue(t: CType)
  {
    t.Primitive? || t.Enum? || t.Pointer? || t.Function?
  }

  function ByValueSize(plat: Platform, t: CType): (n: nat)
    requires ByValue(t)
    ensures SizeOf(plat, t) == Some(n)
  {
    SizeOf(plat, t).value
  }

  /** The native bytes of a stored value (little-endian integers). */
  function EncodeScalar(plat: Platform, t: CType, s: Scalar): (bs: seq<char>)
    requires ByValue(t) && Fits(plat, t, s)
    ensures |bs| == ByValueSize(plat, t)
  {
    match t
    case Primitive(n) => if n == Char then [s.c] else Encode(PrimKind(plat, n), PrimSize(plat, n), s.i)
    case Enum(_, _, _) => Encode(PrimKind(plat, Int), plat.intSize, s.i)
    case Pointer(_, _) => Encode(AddressKind(plat), plat.pointerSize, s.a)
    case Function(_, _, _) => Encode(AddressKind(plat), plat.pointerSize, s.a)
  }

  /** The stored value a type reads from its native bytes. */
  function DecodeScalar(plat: Platform, t: CType, bs: seq<char>): Scalar
    requires ByValue(t) && |bs| == ByValueSize(plat, t)
  {
    match t
    case Primitive(n) => if n == Char then CharS(bs[0]) else IntS(Decode(PrimKind(plat, n), bs))
    case Enum(_, _, _) => IntS(Decode(PrimKind(plat, Int), bs))
    case Pointer(_, _) => AddrS(Decode(AddressKind(plat), bs))
    case Function(_, _, _) => AddrS(Decode(AddressKind(plat), bs))
  }

  /** Reading the bytes of any stored value gives it back, addresses included when they fit the pointer width. */
  lemma EncodeDecodeScalar(plat: Platform, t: CType, s: Scalar)
    requires ByValue(t) && Fits(plat, t, s)
    requires s.AddrS? ==> InRange(AddressKind(plat), s.a)
    ensures DecodeScalar(plat, t, EncodeScalar(plat, t, s)) == s
  {
    match t
    case Primitive(n) => if n != Char { EncodeDecode(PrimKind(plat, n), PrimSize(plat, n), s.i); }
    case Enum(_, _, _) => EncodeDecode(PrimKind(plat, Int), plat.intSize, s.i);
    case Pointer(_, _) => EncodeDecode(AddressKind(plat), plat.pointerSize, s.a);
    case Function(_, _, _) => EncodeDecode(AddressKind(plat), plat.pointerSize, s.a);
  }

  /**
   * Reading a value of type `t` at `addr`: a by-value type decodes its bytes; an array or struct
   * gives a view of the memory there; `void` and unsized types cannot be read.
   */
  function Load(plat: Platform, t: CType, mem: Memory, addr: int): Result<Value>
    requires ByValue(t) ==> Mapped(mem, addr, ByValueSize(plat, t))
  {
    if ByValue(t) then FromCtypes(plat, t, DecodeScalar(plat, t, Window(mem, addr, ByValueSize(plat, t))))
    else if t.Array? || t.StructOrUnion? then FromCtypes(plat, t, AggS(addr))
    else Err(TypeError(""))
  }

  /**
   * `r` is what the bytes at `addr` mean as type `t`: for an integer type, the in-range integer
   * they encode; for `char`, the byte as a one-character string; for an enum, the enumerator at
   * the encoded position (or the error of that lookup); for a pointer or function, None for a zero
   * address and otherwise a handle at it; for an array or struct, a view of the memory at `addr`.
   */
  predicate ReadsAs(plat: Platform, t: CType, mem: Memory, addr: int, r: Result<Value>)
    requires ByValue(t) ==> Mapped(mem, addr, ByValueSize(plat, t))
  {
    match t
    case Void => false
    case Primitive(n) =>
      if n == Char then r == Ok(StrV([mem[addr]]))
      else
        var x := Decode(PrimKind(plat, n), Window(mem, addr, PrimSize(plat, n)));
        r == Ok(IntV(x)) && InRange(PrimKind(plat, n), x)
    case Enum(_, enumerators, _) => r == EnumFromCtypes(enumerators, Decode(PrimKind(plat, Int), Window(mem, addr, plat.intSize)))
    case Pointer(_, _) => r == Ok(PtrFromCtypes(t, Decode(AddressKind(plat), Window(mem, addr, plat.pointerSize))))
    case Function(_, _, _) => r == Ok(PtrFromCtypes(t, Decode(AddressKind(plat), Window(mem, addr, plat.pointerSize))))
    case Array(_, _) => r == Ok(CDataV(AggH(t, addr)))
    case StructOrUnion(_, _, _, _) => r == Ok(CDataV(AggH(t, addr)))
  }

  /** Every type with a `_ctype` loads what its bytes mean (decoded integers are always in range). */
  lemma LoadReadsAs(plat: Platform, t: CType, mem: Memory, addr: int)
    requires HasCtype(t) && (ByValue(t) ==> Mapped(mem, addr, ByValueSize(plat, t)))
    ensures ReadsAs(plat, t, mem, addr, Load(plat, t, mem, addr))
  {
  }

  /** Indexing or dereferencing a NULL ctypes pointer is refused by ctypes. */
  const NullPointerAccess: Error := ValueError("NULL pointer access")

  /** Writing a host value as type `t` at `addr`: convert first (nothing is written on error), then copy its bytes. */
  function Store(plat: Platform, t: CType, mem: Memory, addr: int, v: Value): (r: Result<Memory>)
    requires ByValue(t) ==> Mapped(mem, addr, ByValueSize(plat, t))
    ensures r.Ok? <==> ToCtypes(plat, t, v).Ok?
    ensures r.Ok? ==> r.value.Keys == mem.Keys
  {
    var s :- ToCtypes(plat, t, v);
    Ok(Overwrite(mem, addr, EncodeScalar(plat, t, s)))
  }

  /** Storing a representable integer and loading it back gives the integer. */
  lemma StoreLoadInteger(plat: Platform, n: PrimName, mem: Memory, addr: int, x: int)
    requires n != Char && Mapped(mem, addr, PrimSize(plat, n)) && InRange(PrimKind(plat, n), x)
    ensures Store(plat, Primitive(n), mem, addr, IntV(x)).Ok?
    ensures Load(plat, Primitive(n), Store(plat, Primitive(n), mem, addr, IntV(x)).value, addr) == Ok(IntV(x))
  {
    var t := Primitive(n);
    IntegerRoundTrip(plat, n, x);
    var bs := EncodeScalar(plat, t, IntS(x));
    var m := Overwrite(mem, addr, bs);
    assert Store(plat, t, mem, addr, IntV(x)) == Ok(m);
    WindowOfOverwrite(mem, addr, bs);
    EncodeDecodeScalar(plat, t, IntS(x));
    assert DecodeScalar(plat, t, Window(m, addr, ByValueSize(plat, t))) == IntS(x);
  }

  /** A store touches exactly the type's `sizeof` bytes at the address: every other byte keeps its value. */
  lemma StoreTouchesOnlyItsBytes(plat: Platform, t: CType, mem: Memory, addr: int, v: Value, a: int)
    requires ByValue(t) && Mapped(mem, addr, ByValueSize(plat, t))
    requires Store(plat, t, mem, addr, v).Ok? && a in mem && !(addr <= a < addr + ByValueSize(plat, t))
    ensures a in Store(plat, t, mem, addr, v).value && Store(plat, t, mem, addr, v).value[a] == mem[a]
  {
  }

  /** A successful store leaves the stored range mapped. */
  lemma StoreKeepsMapped(plat: Platform, t: CType, mem: Memory, addr: int, v: Value)
    requires ByValue(t) && Mapped(mem, addr, ByValueSize(plat, t)) && Store(plat, t, mem, addr, v).Ok?
    ensures Mapped(Store(plat, t, mem, addr, v).value, addr, ByValueSize(plat, t))
  {
    SameKeysMapped(mem, Store(plat, t, mem, addr, v).value, addr, ByValueSize(plat, t));
  }

  /** Memory with the same addresses mapped keeps every range mapped. */
  lemma SameKeysMapped(mem: Memory, m: Memory, addr: int, n: nat)
    requires m.Keys == mem.Keys && Mapped(mem, addr, n)
    ensures Mapped(m, addr, n)
  {
    forall a | addr <= a < addr + n
      ensures a in m
    {
      assert a in mem.Keys;
    }
  }

  /** Reading back the bytes just copied gives them. */
  lemma WindowOfOverwrite(mem: Memory, addr: int, bytes: seq<char>)
    requires Mapped(mem, addr, |bytes|)
    ensures Mapped(Overwrite(mem, addr, bytes), addr, |bytes|)
    ensures Window(Overwrite(mem, addr, bytes), addr, |bytes|) == bytes
  {
  }
}
