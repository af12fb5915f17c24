/** Array types: the length of a new array, its element-by-element fill, indexing, `str()` and decay to a pointer. */
module Arrays {
  import opened CErrors
  import opened CText
  import opened IntKinds
  import opened CTypes
  import opened Handles
  import opened Convert
  import opened Pointers
  import opened Enums

  /** Iterating a host value: a string gives its characters, a tuple its items; other values are not iterable. */
  function Items(v: Value): Option<seq<Value>>
  {
    match v
    case StrV(s) => Some(seq(|s|, i requires 0 <= i < |s| => StrV([s[i]])))
    case SeqV(items) => Some(items)
    case _ => None
  }

  function NotIterable(v: Value): Error
  {
    TypeError(Quote(TypeName(v)) + " object is not iterable")
  }

  /**
   * The first part of `CTypesArray.__init__`: the number of elements and the values to fill in
   * (None: no fill). An unbounded array takes its length from an integer, or from the number of
   * values, with one more slot (the terminating NUL) for a `char` array built from a string.
   * Forming the ctypes array class then reads the item's `_ctype` (an `AttributeError` when it
   * has none, before the length is looked at); a negative length is refused by ctypes with
   * `ValueError`.
   */
  function NewArrayShape(t: CType, init: Value): (r: Result<(nat, Option<seq<Value>>)>)
    requires t.Array?
    ensures r.Ok? && t.length.None? ==> HasCtype(t.elem)
  {
    if t.length.Some? then
      if init.NoneV? then Ok((t.length.value, None))
      else if Items(init).None? then Err(NotIterable(init))
      else Ok((t.length.value, Items(init)))
    else if init.IntV? then
      if !HasCtype(t.elem) then Err(NoCtype(t.elem))
      else if init.i < 0 then Err(ValueError("Array length must be >= 0, not -" + Dec(-init.i)))
      else Ok((init.i, None))
    else if Items(init).None? then Err(NotIterable(init))
    else if !HasCtype(t.elem) then Err(NoCtype(t.elem))
    else
      var vs := Items(init).value;
      Ok((|vs| + (if t.elem == CharType && init.StrV? then 1 else 0), Some(vs)))
  }

  /**
   * The length rule of unbounded arrays: an integer `n >= 0` gives `n` zeroed elements; a string
   * gives one element per character, plus one exactly when the element type is `char`; a tuple
   * gives one element per item. An item without `_ctype` (`void[]`, `int[][]`) fails for every
   * integer or iterable with `AttributeError`.
   */
  lemma UnboundedLength(t: CType, init: Value)
    requires t.Array? && t.length.None?
    ensures HasCtype(t.elem) && init.IntV? && init.i >= 0 ==> NewArrayShape(t, init) == Ok((init.i as nat, None))
    ensures HasCtype(t.elem) && init.IntV? && init.i < 0 ==> NewArrayShape(t, init).Err? && NewArrayShape(t, init).error.ValueError?
    ensures HasCtype(t.elem) && init.StrV? ==>
      NewArrayShape(t, init).Ok? && NewArrayShape(t, init).value.0 == |init.s| + (if t.elem == CharType then 1 else 0)
    ensures HasCtype(t.elem) && init.SeqV? ==> NewArrayShape(t, init) == Ok((|init.items|, Some(init.items)))
    ensures !HasCtype(t.elem) && (init.IntV? || init.StrV? || init.SeqV?) ==> NewArrayShape(t, init) == Err(NoCtype(t.elem))
    ensures (init.NoneV? || init.CDataV? || init.OtherV?) ==> NewArrayShape(t, init).Err?
  {
  }

  /** A fixed-length array keeps its declared length whatever the initializer. */
  lemma FixedLength(t: CType, init: Value)
    requires t.Array? && t.length.Some?
    ensures NewArrayShape(t, init).Ok? ==> NewArrayShape(t, init).value.0 == t.length.value
    ensures NewArrayShape(t, init).Ok? <==> init.NoneV? || init.StrV? || init.SeqV?
  {
  }

  /**
   * How far a left-to-right fill of `len` slots gets: the first index that is past the end or
   * whose value does not convert, or `|values|` when every value goes in.
   */
  function FillStop(plat: Platform, item: CType, values: seq<Value>, len: nat, from: nat): (k: nat)
    requires from <= |values|
    ensures from <= k <= |values|
    ensures from < k ==> k <= len
    ensures forall j :: from <= j < k ==> ToCtypes(plat, item, values[j]).Ok?
    ensures k < |values| ==> len <= k || ToCtypes(plat, item, values[k]).Err?
    decreases |values| - from
  {
    if from == |values| || len <= from || ToCtypes(plat, item, values[from]).Err? then from
    else FillStop(plat, item, values, len, from + 1)
  }

  /** The outcome of a fill that stopped at `k`: past the end raises `IndexError`, a bad value its conversion error. */
  function FillOutcome(plat: Platform, item: CType, values: seq<Value>, len: nat, k: nat): Outcome
    requires k <= |values|
  {
    if k == |values| then Pass
    else if len <= k then Fail(IndexError)
    else match ToCtypes(plat, item, values[k])
      case Err(e) => Fail(e)
      case Ok(_) => Pass
  }

  /** A fill succeeds exactly when there are no more values than slots and every value converts. */
  lemma FillSucceeds(plat: Platform, item: CType, values: seq<Value>, len: nat)
    ensures FillOutcome(plat, item, values, len, FillStop(plat, item, values, len, 0)).Pass? <==>
      |values| <= len && forall j :: 0 <= j < |values| ==> ToCtypes(plat, item, values[j]).Ok?
  {
    var k := FillStop(plat, item, values, len, 0);
    if k < |values| {
      assert len <= k || ToCtypes(plat, item, values[k]).Err?;
      assert FillOutcome(plat, item, values, len, k).Fail?;
    } else if 0 < |values| {
      var j := |values| - 1;
      assert ToCtypes(plat, item, values[j]).Ok?;
      assert j < len;
    }
  }

  /** The zeroed element `i` of a new array at `address` (an aggregate element is a view at its offset). */
  function Zeroed(plat: Platform, item: CType, address: int, i: nat): Scalar
    requires SizeOf(plat, item).Some?
  {
    DefaultScalar(item, address + i * SizeOf(plat, item).value)
  }

  lemma ZeroedFits(plat: Platform, item: CType, address: int, i: nat)
    requires SizeOf(plat, item).Some?
    ensures Fits(plat, item, Zeroed(plat, item, address, i))
  {
    if item.Primitive? && item != CharType {
      assert Half(PrimKind(plat, item.prim)) >= 1;
    }
    if item.Enum? {
      assert Half(PrimKind(plat, Int)) >= 1;
    }
  }

  /** The characters of a `char` array up to its first NUL, or all of them: `str()` of a `char` array. */
  function BeforeNul(chars: seq<char>): (s: string)
    ensures '\0' !in s
    ensures s <= chars
    ensures |s| < |chars| ==> chars[|s|] == '\0'
  {
    var i := IndexOf(chars, "\0");
    if i < 0 then
      assert forall j :: 0 <= j < |chars| ==> !OccursAt(chars, "\0", j);
      assert forall j :: 0 <= j < |chars| ==> chars[j] != '\0' by {
        forall j | 0 <= j < |chars| ensures chars[j] != '\0' {
          assert !OccursAt(chars, "\0", j);
          assert chars[j..j + 1] == [chars[j]];
        }
      }
      chars
    else
      assert chars[i..i + 1] == "\0";
      assert forall j :: 0 <= j < i ==> chars[j] != '\0' by {
        forall j | 0 <= j < i ensures chars[j] != '\0' {
          assert !OccursAt(chars, "\0", j);
          assert chars[j..j + 1] == [chars[j]];
        }
      }
      chars[..i]
  }

  /** A `char` array's characters. */
  function CharsOf(elements: seq<Scalar>): (cs: seq<char>)
    requires forall i :: 0 <= i < |elements| ==> elements[i].CharS?
    ensures |cs| == |elements| && forall i :: 0 <= i < |cs| ==> cs[i] == elements[i].c
  {
    seq(|elements|, i requires 0 <= i < |elements| => elements[i].c)
  }

  /** An array handle that owns its elements (`_blob`), at a given native address. */
  class CArray {
    const plat: Platform
    const t: CType
    const address: int
    const blob: array<Scalar>

    ghost predicate Valid()
      reads this, blob
    {
      t.Array? && SizeOf(plat, t.elem).Some? &&
      (t.length.Some? ==> blob.Length == t.length.value) &&
      (forall i :: 0 <= i < blob.Length ==> Fits(plat, t.elem, blob[i])) &&
      // an aggregate element is never assigned by value: it stays the view at its own offset
      (t.elem.Array? || t.elem.StructOrUnion? ==> forall i :: 0 <= i < blob.Length ==> blob[i] == Zeroed(plat, t.elem, address, i))
    }

    /** A zeroed array of `len` elements, as ctypes allocates it. */
    constructor (plat: Platform, t: CType, address: int, len: nat)
      requires t.Array? && SizeOf(plat, t.elem).Some? && (t.length.Some? ==> len == t.length.value)
      ensures Valid() && fresh(blob)
      ensures this.plat == plat && this.t == t && this.address == address
      ensures blob[..] == seq(len, i requires 0 <= i < len => Zeroed(plat, t.elem, address, i))
    {
      this.plat := plat;
      this.t := t;
      this.address := address;
      forall i | 0 <= i < len {
        ZeroedFits(plat, t.elem, address, i);
      }
      blob := new Scalar[len](i requires 0 <= i < len => Zeroed(plat, t.elem, address, i));
    }

    /** `len(a)`. */
    function Length(): nat
      reads this
    {
      blob.Length
    }

    /**
     * `a[index]`: in-range indices read the element as a host value (an integer, a one-character
     * string, the enumerator at that position, None or a pointer handle, or a view of an aggregate
     * element at its offset); others raise `IndexError`.
     */
    function GetItem(index: int): (r: Result<Value>)
      requires Valid()
      reads this, blob
      ensures !(0 <= index < blob.Length) ==> r == Err(IndexError)
      ensures 0 <= index < blob.Length && !t.elem.Enum? ==> r.Ok?
      ensures 0 <= index < blob.Length && t.elem == CharType ==> r == Ok(StrV([blob[index].c]))
      ensures 0 <= index < blob.Length && t.elem.Primitive? && t.elem != CharType ==>
        r == Ok(IntV(blob[index].i)) && InRange(PrimKind(plat, t.elem.prim), blob[index].i)
      ensures 0 <= index < blob.Length && t.elem.Enum? ==> r == EnumFromCtypes(t.elem.enumerators, blob[index].i)
      ensures 0 <= index < blob.Length && (t.elem.Pointer? || t.elem.Function?) ==> r == Ok(PtrFromCtypes(t.elem, blob[index].a))
      ensures 0 <= index < blob.Length && (t.elem.Array? || t.elem.StructOrUnion?) ==>
        r == Ok(CDataV(AggH(t.elem, address + index * SizeOf(plat, t.elem).value)))
    {
      if !(0 <= index < blob.Length) then Err(IndexError)
      else
        assert Fits(plat, t.elem, blob[index]);
        FromCtypes(plat, t.elem, blob[index])
    }

    /**
     * `a[index] = value`: the index is checked first, then the value converted to the element
     * type; on either error nothing changes.
     */
    method SetItem(index: int, value: Value) returns (o: Outcome)
      requires Valid()
      modifies blob
      ensures Valid()
      ensures !(0 <= index < blob.Length) ==> o == Fail(IndexError) && blob[..] == old(blob[..])
      ensures 0 <= index < blob.Length && ToCtypes(plat, t.elem, value).Err? ==>
        o == Fail(ToCtypes(plat, t.elem, value).error) && blob[..] == old(blob[..])
      ensures 0 <= index < blob.Length && ToCtypes(plat, t.elem, value).Ok? ==>
        o == Pass && blob[..] == old(blob[..])[index := ToCtypes(plat, t.elem, value).value]
    {
      if !(0 <= index < blob.Length) {
        return Fail(IndexError);
      }
      var s := ToCtypes(plat, t.elem, value);
      if s.Err? {
        return Fail(s.error);
      }
      blob[index] := s.value;
      o := Pass;
    }

    /**
     * The fill loop of `__init__`: `a[i] = values[i]` from left to right, stopping at the first
     * error. The elements before the stop hold the converted values, the rest are untouched.
     */
    method Fill(values: seq<Value>) returns (o: Outcome)
      requires Valid()
      modifies blob
      ensures Valid()
      ensures var k := FillStop(plat, t.elem, values, blob.Length, 0);
        o == FillOutcome(plat, t.elem, values, blob.Length, k) &&
        forall j :: 0 <= j < blob.Length ==>
          blob[j] == if j < k then ToCtypes(plat, t.elem, values[j]).value else old(blob[j])
    {
      ghost var k := FillStop(plat, t.elem, values, blob.Length, 0);
      var i := 0;
      while i < |values|
        invariant Valid()
        invariant 0 <= i <= k
        invariant forall j :: 0 <= j < blob.Length ==>
          blob[j] == if j < i then ToCtypes(plat, t.elem, values[j]).value else old(blob[j])
      {
        o := SetItem(i, values[i]);
        if o.Fail? {
          return;
        }
        i := i + 1;
      }
      o := Pass;
    }

    /** `str(a)` of a `char` array: its characters up to the first NUL. */
    function Str(): string
      requires Valid() && t.elem == CharType
      reads this, blob
    {
      BeforeNul(CharsOf(blob[..]))
    }

    /** `a + n`: decay to a pointer of the element's pointer type, `n` elements past the array's address. */
    function Plus(other: Value): (r: Result<CData>)
      requires Valid()
      reads this, blob
      ensures other.IntV? <==> r.Ok?
      ensures r.Ok? ==>
        r.value.PtrH? && r.value.t == PointerTypeOf(t.elem) && r.value.address == address + other.i * SizeOf(plat, t.elem).value
    {
      if other.IntV? then Ok(NewAt(PointerTypeOf(t.elem), address + other.i * SizeOf(plat, t.elem).value))
      else Err(TypeError("unsupported operand type(s) for +"))
    }
  }

  /**
   * `CTypesArray(init)`: shape the array, allocate it zeroed, then fill it; any error is raised
   * and no array results.
   */
  method NewArray(plat: Platform, t: CType, address: int, init: Value) returns (r: Result<CArray>)
    requires t.Array? && (t.length.Some? ==> HasCtype(t.elem))
    ensures NewArrayShape(t, init).Err? ==> r == Err(NewArrayShape(t, init).error)
    ensures t.length.None? && !HasCtype(t.elem) && (init.IntV? || Items(init).Some?) ==> r == Err(NoCtype(t.elem))
    ensures r.Ok? ==> fresh(r.value) && fresh(r.value.blob) && r.value.Valid()
    ensures r.Ok? ==> r.value.t == t && r.value.plat == plat && r.value.address == address
    ensures NewArrayShape(t, init).Ok? ==>
      var (len, values) := NewArrayShape(t, init).value;
      (values.None? ==> r.Ok? && r.value.blob[..] == seq(len, i requires 0 <= i < len => Zeroed(plat, t.elem, address, i))) &&
      (values.Some? ==>
        (r.Ok? <==> |values.value| <= len && forall j :: 0 <= j < |values.value| ==> ToCtypes(plat, t.elem, values.value[j]).Ok?) &&
        (r.Err? ==> Fail(r.error) == FillOutcome(plat, t.elem, values.value, len, FillStop(plat, t.elem, values.value, len, 0))) &&
        (r.Ok? ==> r.value.Length() == len && forall j :: 0 <= j < len ==>
          r.value.blob[j] == if j < |values.value| then ToCtypes(plat, t.elem, values.value[j]).value else Zeroed(plat, t.elem, address, j)))
  {
    var shape := NewArrayShape(t, init);
    if shape.Err? {
      return Err(shape.error);
    }
    var (len, values) := shape.value;
    var a := new CArray(plat, t, address, len);
    if values.Some? {
      var o := a.Fill(values.value);
      FillSucceeds(plat, t.elem, values.value, len);
      if o.Fail? {
        return Err(o.error);
      }
    }
    r := Ok(a);
  }

  /** `str()` of a `char` array stops at the first NUL and contains none; without a NUL it is every character. */
  lemma CharArrayString(chars: seq<char>)
    ensures '\0' in chars ==> exists i :: 0 <= i < |chars| && chars[i] == '\0' && BeforeNul(chars) == chars[..i]
    ensures '\0' !in chars ==> BeforeNul(chars) == chars
  {
    var s := BeforeNul(chars);
    if |s| < |chars| {
      assert chars[..|s|] == s;
    } else {
      assert s == chars;
    }
  }

  /**
   * Decay agrees with pointer arithmetic: `a + n` is the pointer `a + 0` moved by `n` items, and
   * the array itself converts to that pointer type at its own address.
   */
  lemma DecayIsPointerArithmetic(a: CArray, n: int)
    requires a.Valid()
    ensures a.Plus(IntV(0)).Ok? && a.Plus(IntV(0)).value.address == a.address
    ensures Add(a.plat, a.Plus(IntV(0)).value, IntV(n)) == a.Plus(IntV(n))
    ensures ConvertToAddress(AggH(a.t, a.address), Some(PointerTypeOf(a.t.elem))) == Ok(a.address)
  {
  }
}
