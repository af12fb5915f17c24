/** The per-type `_to_ctypes` / `_from_ctypes` pair: host value to stored representation and back. */
module Convert {
  import opened CErrors
  import opened IntKinds
  import opened CTypes
  import opened Handles
  import opened Primitive
  import opened Enums
  import opened Pointers

  /** The stored representation is one a type of this kind can hold. */
  predicate Fits(plat: Platform, t: CType, s: Scalar)
  {
    match t
    case Void => false
    case Primitive(n) => if n == Char then s.CharS? else s.IntS? && InRange(PrimKind(plat, n), s.i)
    case Enum(_, _, _) => s.IntS? && InRange(PrimKind(plat, Int), s.i)
    case Pointer(_, _) => s.AddrS?
    case Function(_, _, _) => s.AddrS?
    case Array(_, _) => s.AggS?
    case StructOrUnion(_, _, _, _) => s.AggS?
  }

  /**
   * `BType._to_ctypes(value)`. Void, arrays, structs and unions keep `CTypesData`'s, which raises
   * `TypeError`: an aggregate is never stored by value.
   */
  function ToCtypes(plat: Platform, t: CType, v: Value): (r: Result<Scalar>)
    ensures r.Ok? ==> Fits(plat, t, r.value)
    ensures (t.Void? || t.Array? || t.StructOrUnion?) ==> r.Err? && r.error.TypeError?
  {
    match t
    case Void => Err(TypeError(""))
    case Primitive(n) =>
      if n == Char then
        var c :- CharToCtypes(v); Ok(CharS(c))
      else
        var i :- IntToCtypes(PrimKind(plat, n), PrimText(n), v);
        WrapFixesExactlyInRange(PrimKind(plat, n), i);
        Ok(IntS(i))
    case Enum(_, _, _) =>
      var i :- EnumToCtypes(plat, t, v);
      assert InRange(PrimKind(plat, Int), i) by { EnumToCtypesInRange(plat, t, v); }
      Ok(IntS(i))
    case Pointer(_, _) => var a :- PtrToCtypes(t, v); Ok(AddrS(a))
    case Function(_, _, _) => var a :- PtrToCtypes(t, v); Ok(AddrS(a))
    case Array(_, _) => Err(TypeError(""))
    case StructOrUnion(_, _, _, _) => Err(TypeError(""))
  }

  lemma EnumToCtypesInRange(plat: Platform, t: CType, v: Value)
    requires t.Enum? && EnumToCtypes(plat, t, v).Ok?
    ensures InRange(PrimKind(plat, Int), EnumToCtypes(plat, t, v).value)
  {
    var k := PrimKind(plat, Int);
    var i := EnumToCtypes(plat, t, v).value;
    WrapFixesExactlyInRange(k, i);
  }

  /** `BType._from_ctypes(stored)`: the host value a read returns. */
  function FromCtypes(plat: Platform, t: CType, s: Scalar): Result<Value>
  {
    match t
    case Void => Ok(NoneV)
    case Primitive(n) =>
      if n == Char then (if s.CharS? then Ok(StrV([s.c])) else Err(TypeError("")))
      else if s.IntS? then Ok(IntV(s.i)) else Err(TypeError(""))
    case Enum(_, enumerators, _) => if s.IntS? then EnumFromCtypes(enumerators, s.i) else Err(TypeError(""))
    case Pointer(_, _) => if s.AddrS? then Ok(PtrFromCtypes(t, s.a)) else Err(TypeError(""))
    case Function(_, _, _) => if s.AddrS? then Ok(PtrFromCtypes(t, s.a)) else Err(TypeError(""))
    case Array(_, _) => if s.AggS? then Ok(CDataV(AggH(t, s.a))) else Err(TypeError(""))
    case StructOrUnion(_, _, _, _) => if s.AggS? then Ok(CDataV(AggH(t, s.a))) else Err(TypeError(""))
  }

  /**
   * For every integer type, a host integer survives conversion and read-back exactly when it is in
   * range; outside the range the conversion raises `OverflowError`.
   */
  lemma IntegerRoundTrip(plat: Platform, n: PrimName, x: int)
    requires n != Char
    ensures InRange(PrimKind(plat, n), x) ==>
      ToCtypes(plat, Primitive(n), IntV(x)) == Ok(IntS(x)) && FromCtypes(plat, Primitive(n), IntS(x)) == Ok(IntV(x))
    ensures !InRange(PrimKind(plat, n), x) ==>
      ToCtypes(plat, Primitive(n), IntV(x)).Err? && ToCtypes(plat, Primitive(n), IntV(x)).error.OverflowError?
  {
    IntConversionIsRangeCheck(PrimKind(plat, n), PrimText(n), x);
    if !InRange(PrimKind(plat, n), x) {
      var r := IntToCtypes(PrimKind(plat, n), PrimText(n), IntV(x));
      assert r.Err? && r.error.OverflowError?;
    }
  }

  /** A one-character string survives `char` conversion and read-back; longer or empty strings are refused. */
  lemma CharRoundTrip(plat: Platform, s: string)
    ensures |s| == 1 ==> ToCtypes(plat, CharType, StrV(s)) == Ok(CharS(s[0])) && FromCtypes(plat, CharType, CharS(s[0])) == Ok(StrV(s))
    ensures |s| != 1 ==> ToCtypes(plat, CharType, StrV(s)).Err?
  {
    if |s| == 1 {
      assert [s[0]] == s;
    }
  }

  /** The zero-initialised storage of a fresh element or field; an aggregate one is a view at its address. */
  function DefaultScalar(t: CType, address: int): Scalar
  {
    match t
    case Primitive(n) => if n == Char then CharS('\0') else IntS(0)
    case Enum(_, _, _) => IntS(0)
    case Pointer(_, _) => AddrS(0)
    case Function(_, _, _) => AddrS(0)
    case _ => AggS(address)
  }

  /**
   * `__init__` of primitive and enum types: None gives the default (0 or NUL); anything else goes
   * through the type's own conversion.
   */
  function NewPrimitive(plat: Platform, t: CType, init: Value): (r: Result<CData>)
    requires t.Primitive? || t.Enum?
    ensures init.NoneV? ==> r.Ok? && (if t == CharType then r.value == CharH('\0') else r.value == IntH(t, 0))
    ensures !init.NoneV? ==> (r.Ok? <==> ToCtypes(plat, t, init).Ok?)
    ensures r.Ok? ==> TypeOf(r.value) == t
  {
    if init.NoneV? then Ok(if t == CharType then CharH('\0') else IntH(t, 0))
    else
      var s :- ToCtypes(plat, t, init);
      if t == CharType then Ok(CharH(s.c)) else Ok(IntH(t, s.i))
  }
}
