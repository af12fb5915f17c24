/** Reading and writing through pointers, and reading C strings (`str(p)`, `ffi.string`). */
module PointerAccess {
  import opened CErrors
  import opened CText
  import opened CTypes
  import opened Handles
  import opened Convert
  import opened Pointers
  import opened NativeMemory

  /** The address of item `index` of a pointer: `index` items of its item size away. */
  function ItemAddress(plat: Platform, p: CData, index: int): int
    requires p.PtrH? && p.t.Pointer?
  {
    match ItemSize(plat, p.t)
    case None => p.address
    case Some(size) => p.address + index * size
  }

  /** Whether `p[index]` reaches memory: a `const char *` first checks the index itself. */
  predicate ReadsMemory(p: CData, index: int)
    requires p.PtrH? && p.t.Pointer?
  {
    !(p.t.kind == ConstCharP && (index < 0 || (p.keepalive.Some? && index > |p.keepalive.value|)))
  }

  /**
   * The memory `p[index]` reads is mapped when the pointer is not NULL (dereferencing unmapped
   * memory is outside the model).
   */
  predicate Readable(plat: Platform, p: CData, mem: Memory, index: int)
    requires p.PtrH? && p.t.Pointer?
  {
    ReadsMemory(p, index) && p.address != 0 && ByValue(p.t.item) ==> Mapped(mem, ItemAddress(plat, p, index), ByValueSize(plat, p.t.item))
  }

  /**
   * `p[index]` of a pointer whose item has no `_ctype` (`void *`, a pointer to an unbounded array):
   * its ctypes pointer is a `c_void_p`, which cannot be indexed.
   */
  const NotIndexable: Error := TypeError("'c_void_p' object does not support indexing")

  /**
   * `p[index]`: the item at the scaled address, read as the item type. A `const char *` refuses a
   * negative index and, when it keeps a string alive, an index past that string's terminating NUL;
   * a pointer to an item without `_ctype` cannot be indexed at all; ctypes refuses to index a NULL
   * pointer.
   */
  function GetItem(plat: Platform, p: CData, mem: Memory, index: int): (r: Result<Value>)
    requires p.PtrH? && p.t.Pointer? && Readable(plat, p, mem, index)
    ensures !ReadsMemory(p, index) ==> r == Err(IndexError)
    ensures ReadsMemory(p, index) && !HasCtype(p.t.item) ==> r == Err(NotIndexable)
    ensures ReadsMemory(p, index) && HasCtype(p.t.item) && p.address == 0 ==> r == Err(NullPointerAccess)
    ensures ReadsMemory(p, index) && HasCtype(p.t.item) && p.address != 0 ==>
      ReadsAs(plat, p.t.item, mem, ItemAddress(plat, p, index), r)
  {
    if !ReadsMemory(p, index) then Err(IndexError)
    else if !HasCtype(p.t.item) then Err(NotIndexable)
    else if p.address == 0 then Err(NullPointerAccess)
    else
      LoadReadsAs(plat, p.t.item, mem, ItemAddress(plat, p, index));
      Load(plat, p.t.item, mem, ItemAddress(plat, p, index))
  }

  /**
   * `p[index] = value`: `const char *` is read-only; otherwise the value is converted to the item
   * type first, then ctypes refuses a NULL pointer, then the converted value's bytes are copied to
   * the scaled address and nothing else changes.
   */
  function SetItem(plat: Platform, p: CData, mem: Memory, index: int, value: Value): (r: Result<Memory>)
    requires p.PtrH? && p.t.Pointer?
    requires p.address != 0 && ByValue(p.t.item) ==> Mapped(mem, ItemAddress(plat, p, index), ByValueSize(plat, p.t.item))
    ensures p.t.kind == ConstCharP ==> r.Err? && r.error.TypeError?
    ensures p.t.kind != ConstCharP ==> (r.Ok? <==> ToCtypes(plat, p.t.item, value).Ok? && p.address != 0)
    ensures p.t.kind != ConstCharP && ToCtypes(plat, p.t.item, value).Err? ==> r == Err(ToCtypes(plat, p.t.item, value).error)
    ensures p.t.kind != ConstCharP && ToCtypes(plat, p.t.item, value).Ok? && p.address == 0 ==> r == Err(NullPointerAccess)
    ensures r.Ok? ==>
      ByValue(p.t.item) && r.value == Overwrite(mem, ItemAddress(plat, p, index), EncodeScalar(plat, p.t.item, ToCtypes(plat, p.t.item, value).value))
  {
    if p.t.kind == ConstCharP then Err(TypeError(Quote(ClassName(p.t)) + " object does not support item assignment"))
    else
      var s :- ToCtypes(plat, p.t.item, value);
      if p.address == 0 then Err(NullPointerAccess)
      else Store(plat, p.t.item, mem, ItemAddress(plat, p, index), value)
  }

  /** Through a NULL pointer every in-bounds read and every write of a convertible value raises ctypes' `ValueError`. */
  lemma NullPointerIsRefused(plat: Platform, p: CData, mem: Memory, index: int, value: Value)
    requires p.PtrH? && p.t.Pointer? && p.address == 0 && HasCtype(p.t.item) && ReadsMemory(p, index)
    requires p.t.kind != ConstCharP && ToCtypes(plat, p.t.item, value).Ok?
    ensures Readable(plat, p, mem, index) && GetItem(plat, p, mem, index) == Err(NullPointerAccess)
    ensures SetItem(plat, p, mem, index, value) == Err(NullPointerAccess)
  {
  }

  /**
   * Through a pointer to an integer type, writing a representable integer at any index and reading
   * the same index gives it back.
   */
  lemma SetThenGet(plat: Platform, p: CData, mem: Memory, index: int, x: int)
    requires p.PtrH? && p.t.Pointer? && p.t.kind != ConstCharP && p.t.item.Primitive? && p.t.item != CharType
    requires p.address != 0
    requires Mapped(mem, ItemAddress(plat, p, index), PrimSize(plat, p.t.item.prim))
    requires IntKinds.InRange(PrimKind(plat, p.t.item.prim), x)
    ensures SetItem(plat, p, mem, index, IntV(x)).Ok?
    ensures Readable(plat, p, SetItem(plat, p, mem, index, IntV(x)).value, index)
    ensures GetItem(plat, p, SetItem(plat, p, mem, index, IntV(x)).value, index) == Ok(IntV(x))
  {
    StoreLoadInteger(plat, p.t.item.prim, mem, ItemAddress(plat, p, index), x);
  }

  /** The `len` bytes at `a` are not NUL and the byte after them is: a C string of length `len`. */
  predicate NulTerminatedAt(mem: Memory, a: int, len: nat)
  {
    Mapped(mem, a, len + 1) && mem[a + len] == '\0' && forall b :: a <= b < a + len ==> mem[b] != '\0'
  }

  /**
   * `str(p)` of a `char *` or `const char *`: count the bytes up to the first NUL, then gather them.
   * The result is the C string at the pointer; a NULL pointer raises ctypes' `ValueError` at its
   * first byte.
   */
  method PointerToString(plat: Platform, p: CData, mem: Memory, ghost len: nat) returns (r: Result<string>)
    requires p.PtrH? && p.t.Pointer? && (p.t.kind == CharP || p.t.kind == ConstCharP)
    requires p.address != 0 ==> NulTerminatedAt(mem, p.address, len)
    ensures p.address == 0 ==> r == Err(NullPointerAccess)
    ensures p.address != 0 ==> r.Ok? && r.value == Window(mem, p.address, len)
    ensures r.Ok? ==> '\0' !in r.value
  {
    if p.address == 0 {
      return Err(NullPointerAccess);
    }
    var n := 0;
    while mem[p.address + n] != '\0'
      invariant 0 <= n <= len
      decreases len - n
    {
      n := n + 1;
    }
    r := Ok(seq(n, i requires 0 <= i < n => mem[p.address + i]));
  }

  /** The string a `const char *` keeps alive sits at its address, followed by the terminating NUL. */
  predicate HoldsString(mem: Memory, a: int, s: string)
  {
    Mapped(mem, a, |s| + 1) && Window(mem, a, |s| + 1) == s + "\0"
  }

  /**
   * Indexing a `const char *` built from a string: indices 0 to `len(s)` read the string and its
   * terminating NUL as one-character strings, every other index raises `IndexError`.
   */
  lemma ConstCharIndexing(plat: Platform, p: CData, mem: Memory, s: string, index: int)
    requires p.PtrH? && p.t == ConstCharPointerType && p.keepalive == Some(s) && p.address != 0 && HoldsString(mem, p.address, s)
    ensures Readable(plat, p, mem, index)
    ensures 0 <= index <= |s| ==> GetItem(plat, p, mem, index) == Ok(StrV([(s + "\0")[index]]))
    ensures !(0 <= index <= |s|) ==> GetItem(plat, p, mem, index) == Err(IndexError)
  {
    if 0 <= index <= |s| {
      assert mem[p.address + index] == Window(mem, p.address, |s| + 1)[index];
      assert Window(mem, p.address + index, 1) == [mem[p.address + index]];
    }
  }

  /** `str()` of a pointer to a stored NUL-free string reads exactly that string back. */
  lemma KeptStringIsCString(mem: Memory, a: int, s: string)
    requires HoldsString(mem, a, s) && '\0' !in s
    ensures NulTerminatedAt(mem, a, |s|)
    ensures Window(mem, a, |s|) == s
  {
    var w := Window(mem, a, |s| + 1);
    forall b | a <= b < a + |s|
      ensures mem[b] != '\0'
    {
      assert mem[b] == w[b - a] == s[b - a];
    }
    assert mem[a + |s|] == w[|s|];
    assert Window(mem, a, |s|) == w[..|s|];
    assert w[..|s|] == s;
  }

  /**
   * `ffi.string(bptr, length)`: only a `void *` or `char *` is accepted; it reads exactly `length`
   * bytes from the address, NUL bytes included (no bytes for a negative length). Reading any byte
   * through a NULL pointer raises ctypes' `ValueError`.
   */
  function String(bptr: Value, mem: Memory, length: int): (r: Result<string>)
    requires bptr.CDataV? && bptr.d.PtrH? && AutomaticCasts(bptr.d.t) && bptr.d.address != 0 ==>
      Mapped(mem, bptr.d.address, if length < 0 then 0 else length)
    ensures r.Ok? <==> bptr.CDataV? && bptr.d.PtrH? && AutomaticCasts(bptr.d.t) && (bptr.d.address != 0 || length <= 0)
    ensures bptr.CDataV? && bptr.d.PtrH? && AutomaticCasts(bptr.d.t) && bptr.d.address == 0 && length > 0 ==>
      r == Err(NullPointerAccess)
    ensures r.Ok? ==> |r.value| == (if length < 0 then 0 else length)
    ensures r.Ok? ==> forall i :: 0 <= i < |r.value| ==> r.value[i] == mem[bptr.d.address + i]
  {
    if bptr.CDataV? && bptr.d.PtrH? && AutomaticCasts(bptr.d.t) then
      if length <= 0 then Ok("")
      else if bptr.d.address == 0 then Err(NullPointerAccess)
      else Ok(Window(mem, bptr.d.address, length))
    else Err(TypeError("'void *' argument expected, got " + Quote(TypeName(bptr))))
  }

  /** Reading a stored string with its own length gives it back (a `char *` handle works like a `void *` one). */
  lemma StringOfStoredString(mem: Memory, a: int, s: string, keep: Option<string>)
    requires a != 0 && HoldsString(mem, a, s)
    ensures String(CDataV(PtrH(PointerTypeOf(CharType), a, keep)), mem, |s|) == Ok(s)
    ensures String(CDataV(PtrH(PointerTypeOf(Void), a, keep)), mem, |s|) == Ok(s)
  {
    var w := Window(mem, a, |s| + 1);
    assert Window(mem, a, |s|) == w[..|s|];
    assert w[..|s|] == s;
  }
}
