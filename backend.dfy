/** `nonstandard_integer_types`: the table of `<stdint.h>`-style names the backend derives from native sizes. */
module Backend {
  import opened CErrors
  import opened CText
  import opened CTypes

  /** The order the standard integer names are visited in: largest declared type first. */
  const Order: seq<PrimName> := [LongLong, Long, Int, Short, Char]

  type Table = map<string, string>

  function IntKey(size: nat): string
  {
    "int" + Dec(8 * size) + "_t"
  }

  function UIntKey(size: nat): string
  {
    "uint" + Dec(8 * size) + "_t"
  }

  /** The names a type bound to the pointer, `size_t` or `wchar_t` size defines. */
  const FixedKeys: set<string> := {"intptr_t", "uintptr_t", "ptrdiff_t", "size_t", "ssize_t", "wchar_t"}

  /** What visiting the standard type `n` writes for `key`, if anything. */
  function Entry(plat: Platform, n: PrimName, key: string): Option<string>
  {
    var size := PrimSize(plat, n);
    var signed := "signed " + PrimText(n);
    var unsigned := "unsigned " + PrimText(n);
    if key == IntKey(size) then Some(signed)
    else if key == UIntKey(size) then Some(unsigned)
    else if (key == "intptr_t" || key == "ptrdiff_t") && size == plat.pointerSize then Some(signed)
    else if key == "uintptr_t" && size == plat.pointerSize then Some(unsigned)
    else if key == "size_t" && size == plat.sizeTSize then Some(unsigned)
    else if key == "ssize_t" && size == plat.sizeTSize then Some(signed)
    else if key == "wchar_t" && size == plat.wcharSize then Some(unsigned)
    else None
  }

  /** The entry of the last visited type that writes `key`: later writes overwrite earlier ones. */
  function LastEntry(plat: Platform, names: seq<PrimName>, key: string): Option<string>
    decreases |names|
  {
    if names == [] then None
    else
      var n := |names| - 1;
      if Entry(plat, names[n], key).Some? then Entry(plat, names[n], key) else LastEntry(plat, names[..n], key)
  }

  /** The keys built from one size never coincide with each other or with the fixed names. */
  lemma KeysOfOneSize(size: nat)
    ensures IntKey(size) != UIntKey(size)
    ensures IntKey(size) !in FixedKeys && UIntKey(size) !in FixedKeys
  {
    var d := Dec(8 * size);
    assert IntKey(size)[0] == 'i' && UIntKey(size)[0] == 'u';
    assert IntKey(size)[3] == d[0] && UIntKey(size)[4] == d[0];
    assert "intptr_t"[3] == 'p' && "uintptr_t"[4] == 'p';
    assert "ptrdiff_t"[0] == 'p' && "size_t"[0] == 's' && "ssize_t"[0] == 's' && "wchar_t"[0] == 'w';
  }

  /** Keys built from different sizes differ (the decimal rendering is injective). */
  lemma KeysOfTwoSizes(a: nat, b: nat)
    ensures IntKey(a) == IntKey(b) ==> a == b
    ensures UIntKey(a) == UIntKey(b) ==> a == b
    ensures IntKey(a) != UIntKey(b)
  {
    assert IntKey(a)[0] == 'i' && UIntKey(b)[0] == 'u';
    if IntKey(a) == IntKey(b) {
      var da, db := Dec(8 * a), Dec(8 * b);
      assert |da| == |db|;
      assert da == IntKey(a)[3..3 + |da|] == IntKey(b)[3..3 + |db|] == db;
      DecInjective(8 * a, 8 * b);
    }
    if UIntKey(a) == UIntKey(b) {
      var da, db := Dec(8 * a), Dec(8 * b);
      assert |da| == |db|;
      assert da == UIntKey(a)[4..4 + |da|] == UIntKey(b)[4..4 + |db|] == db;
      DecInjective(8 * a, 8 * b);
    }
  }

  /** One iteration of the loop: the writes for standard type `n`, in the order they happen. */
  function Step(plat: Platform, m: Table, n: PrimName): Table
  {
    var size := PrimSize(plat, n);
    var signed := "signed " + PrimText(n);
    var unsigned := "unsigned " + PrimText(n);
    var m1 := m[IntKey(size) := signed][UIntKey(size) := unsigned];
    var m2 := if size == plat.pointerSize then m1["intptr_t" := signed]["uintptr_t" := unsigned]["ptrdiff_t" := signed] else m1;
    var m3 := if size == plat.sizeTSize then m2["size_t" := unsigned]["ssize_t" := signed] else m2;
    if size == plat.wcharSize then m3["wchar_t" := unsigned] else m3
  }

  /** A step writes exactly the keys `Entry` names, with `Entry`'s value, and keeps every other key. */
  lemma StepEntry(plat: Platform, m: Table, n: PrimName, key: string)
    ensures key in Step(plat, m, n) <==> key in m || Entry(plat, n, key).Some?
    ensures key in Step(plat, m, n) ==>
      Step(plat, m, n)[key] == if Entry(plat, n, key).Some? then Entry(plat, n, key).value else m[key]
  {
    StepKeys(plat, m, n, key);
    if key in Step(plat, m, n) {
      StepValues(plat, m, n, key);
    }
  }

  lemma StepKeys(plat: Platform, m: Table, n: PrimName, key: string)
    ensures key in Step(plat, m, n) <==> key in m || Entry(plat, n, key).Some?
  {
    KeysOfOneSize(PrimSize(plat, n));
  }

  lemma StepValues(plat: Platform, m: Table, n: PrimName, key: string)
    requires key in Step(plat, m, n)
    ensures Step(plat, m, n)[key] == if Entry(plat, n, key).Some? then Entry(plat, n, key).value else m[key]
  {
    StepKeys(plat, m, n, key);
    KeysOfOneSize(PrimSize(plat, n));
  }

  /** The table after visiting `names` in order. */
  function TableOf(plat: Platform, names: seq<PrimName>): Table
    decreases |names|
  {
    if names == [] then map[] else Step(plat, TableOf(plat, names[..|names| - 1]), names[|names| - 1])
  }

  /**
   * `nonstandard_integer_types`: for each standard type, from `long long` down to `char`, record
   * `int<bits>_t` and `uint<bits>_t`, and the pointer-, `size_t`- and `wchar_t`-sized names when
   * its size matches.
   */
  method NonstandardIntegerTypes(plat: Platform) returns (result: Table)
    ensures result == TableOf(plat, Order)
  {
    result := map[];
    var i := 0;
    while i < |Order|
      invariant 0 <= i <= |Order|
      invariant result == TableOf(plat, Order[..i])
    {
      var name := Order[i];
      var size := PrimSize(plat, name);
      var text := PrimText(name);
      assert Order[..i + 1][..i] == Order[..i];
      result := result[IntKey(size) := "signed " + text];
      result := result[UIntKey(size) := "unsigned " + text];
      if size == plat.pointerSize {
        result := result["intptr_t" := "signed " + text];
        result := result["uintptr_t" := "unsigned " + text];
        result := result["ptrdiff_t" := result["intptr_t"]];
      }
      if size == plat.sizeTSize {
        result := result["size_t" := "unsigned " + text];
        result := result["ssize_t" := "signed " + text];
      }
      if size == plat.wcharSize {
        result := result["wchar_t" := "unsigned " + text];
      }
      i := i + 1;
    }
    assert Order[..i] == Order;
  }

  /** Every key of the table holds what the last type writing it wrote. */
  lemma {:induction false} TableIsLastEntry(plat: Platform, names: seq<PrimName>, key: string)
    ensures key in TableOf(plat, names) <==> LastEntry(plat, names, key).Some?
    ensures key in TableOf(plat, names) ==> TableOf(plat, names)[key] == LastEntry(plat, names, key).value
    decreases |names|
  {
    if names != [] {
      TableIsLastEntry(plat, names[..|names| - 1], key);
      StepEntry(plat, TableOf(plat, names[..|names| - 1]), names[|names| - 1], key);
    }
  }

  /** The last of `names` whose size is `size`. */
  function LastOfSize(plat: Platform, names: seq<PrimName>, size: nat): (r: Option<PrimName>)
    ensures r.Some? ==> r.value in names && PrimSize(plat, r.value) == size
    ensures r.None? <==> forall i :: 0 <= i < |names| ==> PrimSize(plat, names[i]) != size
    decreases |names|
  {
    if names == [] then None
    else if PrimSize(plat, names[|names| - 1]) == size then Some(names[|names| - 1])
    else
      var r := LastOfSize(plat, names[..|names| - 1], size);
      assert forall i :: 0 <= i < |names| - 1 ==> names[i] == names[..|names| - 1][i];
      r
  }

  /**
   * `int<8*size>_t` is present exactly when some visited type has that size, and names the last
   * such type (so `long` wins over `long long`, `int` over `long`, when their sizes agree).
   */
  lemma {:induction false} IntKeyIsLastOfSize(plat: Platform, names: seq<PrimName>, size: nat)
    ensures LastEntry(plat, names, IntKey(size)).Some? <==> LastOfSize(plat, names, size).Some?
    ensures LastOfSize(plat, names, size).Some? ==>
      LastEntry(plat, names, IntKey(size)) == Some("signed " + PrimText(LastOfSize(plat, names, size).value)) &&
      LastEntry(plat, names, UIntKey(size)) == Some("unsigned " + PrimText(LastOfSize(plat, names, size).value))
    decreases |names|
  {
    if names != [] {
      var n := names[|names| - 1];
      KeysOfTwoSizes(PrimSize(plat, n), size);
      KeysOfTwoSizes(size, PrimSize(plat, n));
      KeysOfOneSize(size);
      IntKeyIsLastOfSize(plat, names[..|names| - 1], size);
    }
  }

  /**
   * `intptr_t`, `uintptr_t` and `ptrdiff_t` are present exactly when some visited type has the
   * pointer's size, name the last such type, and `ptrdiff_t` always equals `intptr_t`.
   */
  lemma {:induction false} PointerKeysAreLastOfSize(plat: Platform, names: seq<PrimName>)
    ensures LastEntry(plat, names, "intptr_t").Some? <==> LastOfSize(plat, names, plat.pointerSize).Some?
    ensures LastEntry(plat, names, "ptrdiff_t") == LastEntry(plat, names, "intptr_t")
    ensures LastOfSize(plat, names, plat.pointerSize).Some? ==>
      LastEntry(plat, names, "intptr_t") == Some("signed " + PrimText(LastOfSize(plat, names, plat.pointerSize).value)) &&
      LastEntry(plat, names, "uintptr_t") == Some("unsigned " + PrimText(LastOfSize(plat, names, plat.pointerSize).value))
    decreases |names|
  {
    if names != [] {
      KeysOfOneSize(PrimSize(plat, names[|names| - 1]));
      PointerKeysAreLastOfSize(plat, names[..|names| - 1]);
    }
  }

  /** `size_t` and `ssize_t` name the last visited type of `size_t`'s size; `wchar_t` that of `wchar_t`'s. */
  lemma {:induction false} SizeKeysAreLastOfSize(plat: Platform, names: seq<PrimName>)
    ensures LastEntry(plat, names, "size_t").Some? <==> LastOfSize(plat, names, plat.sizeTSize).Some?
    ensures LastOfSize(plat, names, plat.sizeTSize).Some? ==>
      LastEntry(plat, names, "size_t") == Some("unsigned " + PrimText(LastOfSize(plat, names, plat.sizeTSize).value)) &&
      LastEntry(plat, names, "ssize_t") == Some("signed " + PrimText(LastOfSize(plat, names, plat.sizeTSize).value))
    ensures LastEntry(plat, names, "wchar_t").Some? <==> LastOfSize(plat, names, plat.wcharSize).Some?
    ensures LastOfSize(plat, names, plat.wcharSize).Some? ==>
      LastEntry(plat, names, "wchar_t") == Some("unsigned " + PrimText(LastOfSize(plat, names, plat.wcharSize).value))
    decreases |names|
  {
    if names != [] {
      KeysOfOneSize(PrimSize(plat, names[|names| - 1]));
      SizeKeysAreLastOfSize(plat, names[..|names| - 1]);
    }
  }

  const LP64: Platform := Platform(2, 4, 8, 8, 8, 8, 4)

  /**
   * Which standard type is the last of each size on LP64 (`long` and pointers of 8 bytes, a 4-byte
   * `wchar_t`): `long` for 8 bytes, shadowing `long long`, so by `TableIntKeys`, `TablePointerKeys`
   * and `TableSizeKeys` the table maps `int64_t`, `intptr_t` and `ssize_t` to "signed long".
   */
  lemma LP64LastOfSize()
    ensures LastOfSize(LP64, Order, 8) == Some(Long)
    ensures LastOfSize(LP64, Order, 4) == Some(Int)
    ensures LastOfSize(LP64, Order, 2) == Some(Short)
    ensures LastOfSize(LP64, Order, 1) == Some(Char)
  {
    var s2, s3, s4 := [LongLong, Long], [LongLong, Long, Int], [LongLong, Long, Int, Short];
    assert Order[..4] == s4 && s4[..3] == s3 && s3[..2] == s2;
    assert LastOfSize(LP64, s2, 8) == Some(Long);
    assert LastOfSize(LP64, s3, 8) == Some(Long);
    assert LastOfSize(LP64, s4, 8) == Some(Long);
    assert LastOfSize(LP64, s3, 4) == Some(Int);
    assert LastOfSize(LP64, s4, 4) == Some(Int);
  }

  /** The table maps `int<8*size>_t`/`uint<8*size>_t` to the last visited type of that size, when there is one. */
  lemma TableIntKeys(plat: Platform, names: seq<PrimName>, size: nat)
    ensures IntKey(size) in TableOf(plat, names) <==> LastOfSize(plat, names, size).Some?
    ensures LastOfSize(plat, names, size).Some? ==>
      && Maps(TableOf(plat, names), IntKey(size), "signed " + PrimText(LastOfSize(plat, names, size).value))
      && Maps(TableOf(plat, names), UIntKey(size), "unsigned " + PrimText(LastOfSize(plat, names, size).value))
  {
    IntKeyIsLastOfSize(plat, names, size);
    TableIsLastEntry(plat, names, IntKey(size));
    TableIsLastEntry(plat, names, UIntKey(size));
  }

  /** The table's pointer-sized names follow the last visited type of the pointer's size. */
  lemma TablePointerKeys(plat: Platform, names: seq<PrimName>)
    ensures "intptr_t" in TableOf(plat, names) <==> LastOfSize(plat, names, plat.pointerSize).Some?
    ensures LastOfSize(plat, names, plat.pointerSize).Some? ==>
      var text := PrimText(LastOfSize(plat, names, plat.pointerSize).value);
      && Maps(TableOf(plat, names), "intptr_t", "signed " + text)
      && Maps(TableOf(plat, names), "uintptr_t", "unsigned " + text)
      && Maps(TableOf(plat, names), "ptrdiff_t", "signed " + text)
  {
    PointerKeysAreLastOfSize(plat, names);
    TableIsLastEntry(plat, names, "intptr_t");
    TableIsLastEntry(plat, names, "uintptr_t");
    TableIsLastEntry(plat, names, "ptrdiff_t");
  }

  /** The table's `size_t`, `ssize_t` and `wchar_t` follow the last visited type of their sizes. */
  lemma TableSizeKeys(plat: Platform, names: seq<PrimName>)
    ensures "size_t" in TableOf(plat, names) <==> LastOfSize(plat, names, plat.sizeTSize).Some?
    ensures LastOfSize(plat, names, plat.sizeTSize).Some? ==>
      var text := PrimText(LastOfSize(plat, names, plat.sizeTSize).value);
      Maps(TableOf(plat, names), "size_t", "unsigned " + text) && Maps(TableOf(plat, names), "ssize_t", "signed " + text)
    ensures "wchar_t" in TableOf(plat, names) <==> LastOfSize(plat, names, plat.wcharSize).Some?
    ensures LastOfSize(plat, names, plat.wcharSize).Some? ==>
      Maps(TableOf(plat, names), "wchar_t", "unsigned " + PrimText(LastOfSize(plat, names, plat.wcharSize).value))
  {
    SizeKeysAreLastOfSize(plat, names);
    TableIsLastEntry(plat, names, "size_t");
    TableIsLastEntry(plat, names, "ssize_t");
    TableIsLastEntry(plat, names, "wchar_t");
  }

  /** `table[key] == v`, with `key` present. */
  predicate Maps(table: Table, key: string, v: string)
  {
    key in table && table[key] == v
  }
}
