/** The integer and `char` primitive types: range-checked conversion and wrapping casts. */
module Primitive {
  import opened CErrors
  import opened CText
  import opened IntKinds
  import opened CTypes
  import opened Handles

  /**
   * `_to_ctypes` of an integer type named `name`: the host integer (or `int()` of a handle) is
   * accepted unchanged when the ctypes object built from it reads the same value back.
   */
  function IntToCtypes(k: IntKind, name: string, x: Value): Result<int>
  {
    var n :- (match x
      case IntV(i) => Ok(i)
      case CDataV(d) => IntOf(d)
      case _ => Err(TypeError("integer expected, got " + TypeName(x))));
    if Wrap(k, n) != n then
      if !(Wrap(k, -1) == -1) && n < 0 then Err(OverflowError(name + ": negative integer"))
      else Err(OverflowError(name + ": integer out of bounds"))
    else Ok(n)
  }

  /**
   * A host integer is returned unchanged exactly when it is representable; otherwise the overflow
   * says "negative integer" exactly when the type is unsigned and the integer negative.
   */
  lemma IntConversionIsRangeCheck(k: IntKind, name: string, x: int)
    ensures IntToCtypes(k, name, IntV(x)) == Ok(x) <==> InRange(k, x)
    ensures IntToCtypes(k, name, IntV(x)) == Err(OverflowError(name + ": negative integer")) <==> !k.signed && x < 0
    ensures IntToCtypes(k, name, IntV(x)) == Err(OverflowError(name + ": integer out of bounds")) <==>
      !InRange(k, x) && (k.signed || 0 <= x)
  {
    WrapFixesExactlyInRange(k, x);
    SignedByProbe(k);
    assert !k.signed && x < 0 ==> !InRange(k, x);
    assert name + ": negative integer" != name + ": integer out of bounds" by {
      assert (name + ": negative integer")[|name| + 2] == 'n';
      assert (name + ": integer out of bounds")[|name| + 2] == 'i';
    }
  }

  /** `_to_ctypes` of `char`: a one-character string, or the value of another `char` handle. */
  function CharToCtypes(x: Value): (r: Result<char>)
    ensures r.Ok? <==> (x.StrV? && |x.s| == 1) || (x.CDataV? && x.d.CharH?)
    ensures r.Ok? && x.StrV? ==> [r.value] == x.s
  {
    match x
    case StrV(s) => if |s| == 1 then Ok(s[0]) else Err(TypeError("character expected, got str"))
    case CDataV(CharH(c)) => Ok(c)
    case _ => Err(TypeError("character expected, got " + TypeName(x)))
  }

  /** The class `_cast_from` builds its result with: enums inherit the `int` primitive's. */
  function CastResultType(t: CType): CType
  {
    if t.Enum? then IntType else t
  }

  /** The integer kind an integer primitive or an enum (backed by `int`) uses. */
  function KindOf(plat: Platform, t: CType): IntKind
    requires t.Primitive? || t.Enum?
  {
    if t.Enum? then PrimKind(plat, Int) else PrimKind(plat, t.prim)
  }

  /**
   * `_cast_from` of a primitive type (an explicit `cast`): read an integer from the source and
   * build a new handle holding it reduced into the target width. A `char` target takes a byte.
   */
  function PrimCastFrom(plat: Platform, t: CType, source: Value): Result<CData>
    requires t.Primitive? || t.Enum?
  {
    var n :- (match source
      case IntV(i) => Ok(i)
      case CDataV(d) => CastToInteger(d)
      case StrV(s) =>
        if |s| == 1 then Ok(s[0] as int)
        else Err(TypeError("ord() expected a character, but string of length " + Dec(|s|) + " found"))
      case _ => Err(TypeError("bad type for cast to " + ClassRepr(CastResultType(t)) + ": " + Quote(TypeName(source)))));
    if t == CharType then
      if 0 <= n < 256 then Ok(CharH(n as char)) else Err(TypeError("one character string expected"))
    else
      Ok(IntH(CastResultType(t), Wrap(KindOf(plat, t), n)))
  }

  /** The integer a cast reads from its source, when it can read one. */
  function CastSource(source: Value): Option<int>
  {
    match source
    case IntV(i) => Some(i)
    case CDataV(d) => if CastToInteger(d).Ok? then Some(CastToInteger(d).value) else None
    case StrV(s) => if |s| == 1 then Some(s[0] as int) else None
    case _ => None
  }

  /**
   * A cast to an integer type never range-fails: whenever it can read an integer from an int, a
   * handle or a one-character string, it yields that integer wrapped into the target width, a
   * value the target's own conversion then accepts unchanged.
   */
  lemma CastWrapsNeverOverflows(plat: Platform, t: CType, source: Value)
    requires t.Enum? || (t.Primitive? && t != CharType)
    ensures CastSource(source).Some? ==>
      PrimCastFrom(plat, t, source) == Ok(IntH(CastResultType(t), Wrap(KindOf(plat, t), CastSource(source).value)))
    ensures CastSource(source).None? ==> PrimCastFrom(plat, t, source).Err? && !PrimCastFrom(plat, t, source).error.OverflowError?
    ensures PrimCastFrom(plat, t, source).Ok? ==>
      IntToCtypes(KindOf(plat, t), "", IntV(PrimCastFrom(plat, t, source).value.i)) == Ok(PrimCastFrom(plat, t, source).value.i)
  {
    if PrimCastFrom(plat, t, source).Ok? {
      var r := PrimCastFrom(plat, t, source).value;
      WrapFixesExactlyInRange(KindOf(plat, t), r.i);
    }
  }
}
