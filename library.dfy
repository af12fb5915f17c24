/** A loaded shared library: its functions and the global variables it exports. */
module Library {
  import opened CErrors
  import opened CText
  import opened CTypes
  import opened Handles
  import opened Convert
  import opened IntKinds
  import opened NativeMemory
  import opened Functions
  import opened Enums
  import opened Pointers

  /**
   * `in_dll` of a name the library does not export. The text is the dynamic loader's and depends on
   * the platform; it is given here as ELF loaders word it (without the library's file name, as
   * for `LoadFunction`).
   */
  function MissingSymbol(name: string): Error
  {
    ValueError("undefined symbol: " + name)
  }

  /**
   * What `read_variable` as written returns: a host value, or, for an integer or `char` type, the
   * ctypes object `in_dll` created (a `c_int`, `c_char`, ... holding the scalar), passed on as is.
   */
  datatype Read = Host(v: Value) | CtypesObject(ctype: CType, s: Scalar)

  /** Indexing the enumerator list with a `c_int` object. */
  const EnumIndexError: Error := TypeError("list indices must be integers, not c_int")

  /**
   * A library opened by the backend. `symbols` is what the dynamic loader resolves each exported
   * name to; `mem` is the process memory the library's variables live in.
   */
  class CLibrary {
    const plat: Platform
    const symbols: map<string, int>
    var mem: Memory

    constructor(plat: Platform, symbols: map<string, int>, mem: Memory)
      ensures this.plat == plat && this.symbols == symbols && this.mem == mem
    {
      this.plat := plat;
      this.symbols := symbols;
      this.mem := mem;
    }

    /**
     * `load_function`: look the symbol up, wrap its address as a handle of the function type and
     * record its name. A missing symbol raises `AttributeError`; a symbol at address 0 wraps to
     * None, whose `_name` cannot be set.
     */
    function LoadFunction(t: CType, name: string): (r: Result<CData>)
      requires t.Function?
      ensures r.Ok? <==> name in symbols && symbols[name] != 0
      ensures r.Ok? ==> TypeOf(r.value) == t && r.value.FuncH? && r.value.name == Some(name)
      ensures r.Ok? ==> ConvertToAddress(r.value, Some(t)) == Ok(symbols[name])
      ensures name !in symbols ==> r == Err(AttributeError("undefined symbol: " + name))
    {
      if name !in symbols then Err(AttributeError("undefined symbol: " + name))
      else
        match FromCtypes(plat, t, AddrS(symbols[name]))
        case Ok(CDataV(FuncH(ft, address, _))) => Ok(FuncH(ft, address, Some(name)))
        case _ => Err(AttributeError("'NoneType' object has no attribute '_name'"))
    }

    /**
     * `read_variable` as intended: the type must have a `_ctype`, the name must be exported, and the
     * variable's storage (which C requires to be as large as the declared type) is read as a host
     * value: an integer variable as the in-range integer its bytes encode, a `char` as a
     * one-character string, an enum as the enumerator at that position, a pointer as None or a
     * handle at the stored address, an array or struct as a view of the variable itself.
     */
    function ReadVariable(t: CType, name: string): (r: Result<Value>)
      reads this
      requires name in symbols && ByValue(t) ==> Mapped(mem, symbols[name], ByValueSize(plat, t))
      ensures !HasCtype(t) ==> r == Err(NoCtype(t))
      ensures HasCtype(t) && name !in symbols ==> r == Err(MissingSymbol(name))
      ensures name in symbols && t.Primitive? && t != CharType ==>
        r.Ok? && r.value.IntV? && InRange(PrimKind(plat, t.prim), r.value.i) &&
        r.value.i == Decode(PrimKind(plat, t.prim), Window(mem, symbols[name], ByValueSize(plat, t)))
      ensures name in symbols && t == CharType ==> r == Ok(StrV([mem[symbols[name]]]))
      ensures name in symbols && t.Enum? ==>
        r == EnumFromCtypes(t.enumerators, Decode(PrimKind(plat, Int), Window(mem, symbols[name], ByValueSize(plat, t))))
      ensures name in symbols && (t.Pointer? || t.Function?) ==>
        var a := Decode(AddressKind(plat), Window(mem, symbols[name], ByValueSize(plat, t)));
        (a == 0 ==> r == Ok(NoneV)) && (a != 0 ==> r == Ok(CDataV(NewAt(t, a))))
      ensures name in symbols && HasCtype(t) && (t.Array? || t.StructOrUnion?) ==> r == Ok(CDataV(AggH(t, symbols[name])))
    {
      if !HasCtype(t) then Err(NoCtype(t))
      else if name !in symbols then Err(MissingSymbol(name))
      else Load(plat, t, mem, symbols[name])
    }

    /**
     * `write_variable` as intended: convert the value first, then find the symbol, then copy the
     * converted value's `sizeof(T)` bytes over the variable one byte at a time. On any error
     * nothing is written; on success exactly those bytes change, and reading the variable back
     * gives what the conversion produced. (The code as written only gets this far for pointer and
     * function types: see `WriteVariableAsWritten`.)
     */
    method WriteVariable(t: CType, name: string, value: Value) returns (o: Outcome)
      modifies this
      requires name in symbols && ByValue(t) ==> Mapped(mem, symbols[name], ByValueSize(plat, t))
      ensures o.Pass? <==> ToCtypes(plat, t, value).Ok? && name in symbols
      ensures ToCtypes(plat, t, value).Err? ==> o == Fail(ToCtypes(plat, t, value).error)
      ensures ToCtypes(plat, t, value).Ok? && name !in symbols ==> o == Fail(MissingSymbol(name))
      ensures o.Fail? ==> mem == old(mem)
      ensures o.Pass? ==>
        ByValue(t) && mem == Overwrite(old(mem), symbols[name], EncodeScalar(plat, t, ToCtypes(plat, t, value).value))
      ensures mem.Keys == old(mem.Keys)
      ensures o.Pass? ==> forall a :: a in mem && !(symbols[name] <= a < symbols[name] + ByValueSize(plat, t)) ==>
        mem[a] == old(mem[a])
      ensures o.Pass? && !ToCtypes(plat, t, value).value.AddrS? ==>
        Mapped(mem, symbols[name], ByValueSize(plat, t)) &&
        ReadVariable(t, name) == FromCtypes(plat, t, ToCtypes(plat, t, value).value)
    {
      var converted := ToCtypes(plat, t, value);
      if converted.Err? {
        return Fail(converted.error);
      }
      if name !in symbols {
        return Fail(MissingSymbol(name));
      }
      assert ByValue(t);
      var address := symbols[name];
      var bytes := EncodeScalar(plat, t, converted.value);
      Memmove(address, bytes);
      o := Pass;
      if !converted.value.AddrS? {
        WrittenReadsBack(old(mem), t, address, converted.value);
      }
    }

    /**
     * `read_variable` as written: `_from_ctypes` is applied to the object `in_dll` returned. For
     * integer and `char` types that conversion is the identity, so the ctypes object itself comes
     * back; for an enum type it indexes the enumerator list with that object and raises
     * `TypeError`. Pointers, functions, arrays and structs read as intended.
     */
    function ReadVariableAsWritten(t: CType, name: string): (r: Result<Read>)
      reads this
      requires name in symbols && ByValue(t) ==> Mapped(mem, symbols[name], ByValueSize(plat, t))
      ensures r.Ok? && r.value.CtypesObject? <==> t.Primitive? && name in symbols
      ensures t.Enum? && name in symbols ==> r == Err(EnumIndexError)
      ensures !t.Primitive? && !t.Enum? ==>
        (r.Ok? <==> ReadVariable(t, name).Ok?) && (r.Ok? ==> r.value == Host(ReadVariable(t, name).value))
    {
      if !HasCtype(t) then Err(NoCtype(t))
      else if name !in symbols then Err(MissingSymbol(name))
      else if t.Primitive? then Ok(CtypesObject(t, DecodeScalar(plat, t, Window(mem, symbols[name], ByValueSize(plat, t)))))
      else if t.Enum? then Err(EnumIndexError)
      else
        var v :- Load(plat, t, mem, symbols[name]);
        Ok(Host(v))
    }

    /**
     * The discrepancy for integers: reading an exported integer variable gives the integer its
     * bytes encode, yet the code as written hands back the `c_int`-like object holding it.
     */
    lemma IntegerReadIsRaw(n: PrimName, name: string)
      requires n != Char && name in symbols && Mapped(mem, symbols[name], PrimSize(plat, n))
      ensures ReadVariable(Primitive(n), name).Ok? && ReadVariable(Primitive(n), name).value.IntV?
      ensures ReadVariableAsWritten(Primitive(n), name) ==
        Ok(CtypesObject(Primitive(n), IntS(ReadVariable(Primitive(n), name).value.i)))
    {
    }

    /**
     * The discrepancy for enums: a variable holding the index of an enumerator reads as that
     * enumerator, yet the code as written raises `TypeError`.
     */
    lemma EnumReadRaises(t: CType, name: string)
      requires t.Enum? && name in symbols && Mapped(mem, symbols[name], ByValueSize(plat, t))
      requires 0 <= Decode(PrimKind(plat, Int), Window(mem, symbols[name], ByValueSize(plat, t))) < |t.enumerators|
      ensures ReadVariable(t, name) ==
        Ok(StrV(t.enumerators[Decode(PrimKind(plat, Int), Window(mem, symbols[name], ByValueSize(plat, t)))]))
      ensures ReadVariableAsWritten(t, name) == Err(EnumIndexError)
    {
    }

    /** `ctypes.memmove(address, bytes, len(bytes))`: copy the bytes one after the other. */
    method Memmove(address: int, bytes: seq<char>)
      modifies this
      requires Mapped(mem, address, |bytes|)
      ensures mem == Overwrite(old(mem), address, bytes)
    {
      var i := 0;
      while i < |bytes|
        invariant 0 <= i <= |bytes|
        invariant mem == Overwrite(old(mem), address, bytes[..i])
      {
        assert bytes[..i + 1][..i] == bytes[..i];
        mem := mem[address + i := bytes[i]];
        i := i + 1;
      }
      assert bytes[..i] == bytes;
    }

    /**
     * `write_variable` as written: `ctypes.addressof` is applied to what `_to_ctypes` returned,
     * which is a ctypes instance only for pointer and function types; for integer, `char` and
     * enum types it is a host int or str, and `addressof` raises `TypeError`.
     */
    function WriteVariableAsWritten(t: CType, name: string, value: Value): (r: Result<Memory>)
      reads this
      requires name in symbols && ByValue(t) ==> Mapped(mem, symbols[name], ByValueSize(plat, t))
      ensures r.Ok? <==> ToCtypes(plat, t, value).Ok? && name in symbols && (t.Pointer? || t.Function?)
      ensures r.Ok? ==> r.value == Overwrite(mem, symbols[name], EncodeScalar(plat, t, ToCtypes(plat, t, value).value))
    {
      var s :- ToCtypes(plat, t, value);
      if name !in symbols then Err(MissingSymbol(name))
      else if !(t.Pointer? || t.Function?) then Err(TypeError("invalid type"))
      else Ok(Overwrite(mem, symbols[name], EncodeScalar(plat, t, s)))
    }

    /**
     * The discrepancy: writing a representable integer to an exported integer variable converts
     * fine, yet the code as written raises `TypeError` instead of storing it.
     */
    lemma IntegerWriteRaises(n: PrimName, name: string, x: int)
      requires n != Char && name in symbols && InRange(PrimKind(plat, n), x)
      requires Mapped(mem, symbols[name], PrimSize(plat, n))
      ensures ToCtypes(plat, Primitive(n), IntV(x)) == Ok(IntS(x))
      ensures WriteVariableAsWritten(Primitive(n), name, IntV(x)) == Err(TypeError("invalid type"))
    {
      IntegerRoundTrip(plat, n, x);
    }

    /** The bytes of a stored non-address value, once copied to `address`, decode to it again. */
    lemma WrittenReadsBack(before: Memory, t: CType, address: int, s: Scalar)
      requires ByValue(t) && Fits(plat, t, s) && !s.AddrS?
      requires Mapped(before, address, ByValueSize(plat, t))
      ensures Mapped(Overwrite(before, address, EncodeScalar(plat, t, s)), address, ByValueSize(plat, t))
      ensures Load(plat, t, Overwrite(before, address, EncodeScalar(plat, t, s)), address) == FromCtypes(plat, t, s)
    {
      var bytes := EncodeScalar(plat, t, s);
      WindowOfOverwrite(before, address, bytes);
      EncodeDecodeScalar(plat, t, s);
    }
  }
}
