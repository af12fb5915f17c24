/** Enum types: an `int`-backed primitive with a table of enumerator names. */
module Enums {
  import opened CErrors
  import opened CText
  import opened IntKinds
  import opened CTypes
  import opened Handles
  import opened Primitive

  /** The number of (name, value) pairs `zip(enumerators, enumvalues)` yields. */
  function Pairs(enumerators: seq<string>, values: seq<int>): nat
  {
    if |enumerators| <= |values| then |enumerators| else |values|
  }

  /** `dict(zip(enumerators, enumvalues)).get(name)`, looking only at the first `n` pairs. */
  function LookupIn(enumerators: seq<string>, values: seq<int>, n: nat, name: string): Option<int>
    requires n <= Pairs(enumerators, values)
  {
    if n == 0 then None
    else if enumerators[n - 1] == name then Some(values[n - 1])
    else LookupIn(enumerators, values, n - 1, name)
  }

  /** The name-to-value mapping of the enum. */
  function Lookup(enumerators: seq<string>, values: seq<int>, name: string): Option<int>
  {
    LookupIn(enumerators, values, Pairs(enumerators, values), name)
  }

  /**
   * A name maps to the value paired with its LAST occurrence (a later duplicate overwrites the
   * dictionary entry), and a name outside the paired enumerators maps to nothing.
   */
  lemma {:induction false} LookupFindsLastPair(enumerators: seq<string>, values: seq<int>, n: nat, name: string)
    requires n <= Pairs(enumerators, values)
    ensures LookupIn(enumerators, values, n, name).None? <==> name !in enumerators[..n]
    ensures LookupIn(enumerators, values, n, name).Some? ==>
      exists i :: 0 <= i < n && enumerators[i] == name && values[i] == LookupIn(enumerators, values, n, name).value &&
        forall j :: i < j < n ==> enumerators[j] != name
  {
    if n > 0 {
      LookupFindsLastPair(enumerators, values, n - 1, name);
      assert enumerators[..n] == enumerators[..n - 1] + [enumerators[n - 1]];
    }
  }

  const EnumIntKindName: string := "int"

  /**
   * `_to_ctypes` of an enum: a name is looked up (an unknown one is a `ValueError`); the value,
   * or any other argument, then goes through the `int` conversion.
   */
  function EnumToCtypes(plat: Platform, t: CType, x: Value): Result<int>
    requires t.Enum?
  {
    var k := PrimKind(plat, Int);
    match x
    case StrV(s) =>
      (match Lookup(t.enumerators, t.values, s)
       case None => Err(ValueError(Quote(s) + " is not an enumerator for " + ClassRepr(t)))
       case Some(v) => IntToCtypes(k, EnumIntKindName, IntV(v)))
    case _ => IntToCtypes(k, EnumIntKindName, x)
  }

  /** An unknown name is rejected; a representable integer is accepted verbatim, declared or not. */
  lemma EnumConversionRule(plat: Platform, t: CType, name: string, x: int)
    requires t.Enum? && |t.enumerators| == |t.values|
    ensures name !in t.enumerators ==> EnumToCtypes(plat, t, StrV(name)).Err? && EnumToCtypes(plat, t, StrV(name)).error.ValueError?
    ensures InRange(PrimKind(plat, Int), x) ==> EnumToCtypes(plat, t, IntV(x)) == Ok(x)
  {
    LookupFindsLastPair(t.enumerators, t.values, |t.enumerators|, name);
    assert t.enumerators[..|t.enumerators|] == t.enumerators;
    IntConversionIsRangeCheck(PrimKind(plat, Int), EnumIntKindName, x);
  }

  /**
   * `_from_ctypes` of an enum: `enumerators[value]`, Python list indexing of the declaration list
   * by the stored value (a negative value counts from the end).
   */
  function EnumFromCtypes(enumerators: seq<string>, value: int): (r: Result<Value>)
    ensures r.Ok? <==> -|enumerators| <= value < |enumerators|
    ensures r.Ok? && 0 <= value ==> r.value == StrV(enumerators[value])
  {
    if 0 <= value < |enumerators| then Ok(StrV(enumerators[value]))
    else if -|enumerators| <= value < 0 then Ok(StrV(enumerators[|enumerators| + value]))
    else Err(IndexError)
  }

  /**
   * With C's default numbering (the i-th enumerator has value i) and distinct names, decoding the
   * value a name encodes to gives the name back.
   */
  lemma EnumRoundTripWithDefaultNumbering(plat: Platform, t: CType, i: nat)
    requires t.Enum? && |t.enumerators| == |t.values| && i < |t.values|
    requires forall j :: 0 <= j < |t.values| ==> t.values[j] == j
    requires forall j, l :: 0 <= j < l < |t.enumerators| ==> t.enumerators[j] != t.enumerators[l]
    requires InRange(PrimKind(plat, Int), |t.values|)
    ensures EnumToCtypes(plat, t, StrV(t.enumerators[i])) == Ok(i)
    ensures EnumFromCtypes(t.enumerators, i) == Ok(StrV(t.enumerators[i]))
  {
    var e := t.enumerators;
    var n := |e|;
    LookupFindsLastPair(e, t.values, n, e[i]);
    assert e[..n] == e;
    assert e[i] in e;
    var v := Lookup(e, t.values, e[i]).value;
    var j :| 0 <= j < n && e[j] == e[i] && t.values[j] == v && forall l :: j < l < n ==> e[l] != e[i];
    assert j == i;
    var k := PrimKind(plat, Int);
    assert InRange(k, i) by {
      assert InRange(k, n);
      assert InRange(k, 0) by { WrapFixesExactlyInRange(k, 0); }
    }
    IntConversionIsRangeCheck(k, EnumIntKindName, i);
  }

  /**
   * Decoding indexes by position, not by value: with values 10 and 20, the value that `"A"` encodes
   * to does not decode at all.
   */
  lemma EnumDecodeIsPositional()
    ensures EnumFromCtypes(["A", "B"], 10) == Err(IndexError)
    ensures Lookup(["A", "B"], [10, 20], "A") == Some(10)
  {
  }
}
