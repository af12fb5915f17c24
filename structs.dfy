/** Struct and union instances: field storage, the initializers, the field setters and bitfields. */
module Structs {
  import opened CErrors
  import opened IntKinds
  import opened CTypes
  import opened Handles
  import opened Primitive
  import opened Convert
  import opened Arrays
  import opened NativeMemory
  import opened Enums
  import opened Pointers

  /** A non-opaque struct or union whose fields ctypes accepts. */
  predicate Complete(plat: Platform, t: CType)
  {
    t.StructOrUnion? && t.fields.Some? && forall i :: 0 <= i < |t.fields.value| ==> FieldOk(plat, t.fields.value[i])
  }

  /** The integer kind of a bitfield: its width, with the signedness of its declared type. */
  function BitKind(plat: Platform, f: Field): IntKind
    requires FieldOk(plat, f) && f.bitsize.Some?
  {
    IntKind(f.bitsize.value, KindOf(plat, f.ftype).signed)
  }

  /** What a field holds after `setattr(blob, name, s)`: a bitfield keeps only its low bits, as C does. */
  function Stored(plat: Platform, f: Field, s: Scalar): Scalar
    requires FieldOk(plat, f)
  {
    if f.bitsize.Some? && s.IntS? then IntS(Wrap(BitKind(plat, f), s.i)) else s
  }

  /** Storing keeps a field's value within its type. */
  lemma StoredFits(plat: Platform, f: Field, s: Scalar)
    requires FieldOk(plat, f) && Fits(plat, f.ftype, s)
    ensures Fits(plat, f.ftype, Stored(plat, f, s))
  {
    if f.bitsize.Some? && s.IntS? {
      var k := BitKind(plat, f);
      assert KindOf(plat, f.ftype) == (if f.ftype.Enum? then PrimKind(plat, Int) else PrimKind(plat, f.ftype.prim));
      NarrowerFits(k, KindOf(plat, f.ftype), Wrap(k, s.i));
    }
  }

  /** A bitfield keeps a value unchanged exactly when the value fits in its width. */
  lemma BitfieldKeepsExactlyInRange(plat: Platform, f: Field, x: int)
    requires FieldOk(plat, f) && f.bitsize.Some?
    ensures Stored(plat, f, IntS(x)) == IntS(x) <==> InRange(BitKind(plat, f), x)
  {
    WrapFixesExactlyInRange(BitKind(plat, f), x);
  }

  /**
   * How far the struct initializer gets: the first value whose conversion to its field's type
   * fails, or `|values|`.
   */
  function InitStop(plat: Platform, fields: seq<Field>, values: seq<Value>, from: nat): (k: nat)
    requires |values| <= |fields| && from <= |values|
    ensures from <= k <= |values|
    ensures forall j :: from <= j < k ==> ToCtypes(plat, fields[j].ftype, values[j]).Ok?
    ensures k < |values| ==> ToCtypes(plat, fields[k].ftype, values[k]).Err?
    decreases |values| - from
  {
    if from == |values| || ToCtypes(plat, fields[from].ftype, values[from]).Err? then from
    else InitStop(plat, fields, values, from + 1)
  }

  /** The struct initializer succeeds exactly when every value converts to its field's type. */
  lemma InitStopsAtFirstBadValue(plat: Platform, fields: seq<Field>, values: seq<Value>)
    requires |values| <= |fields|
    ensures InitStop(plat, fields, values, 0) == |values| <==>
      forall j :: 0 <= j < |values| ==> ToCtypes(plat, fields[j].ftype, values[j]).Ok?
  {
  }

  /** Field `j` after the first `n` values were assigned in order to storage that held `before`. */
  function AssignedSlot(plat: Platform, fields: seq<Field>, values: seq<Value>, before: seq<Scalar>, n: nat, j: nat): Scalar
    requires |values| <= |fields| == |before| && n <= InitStop(plat, fields, values, 0) && j < |before|
    requires forall i :: 0 <= i < |fields| ==> FieldOk(plat, fields[i])
  {
    if j < n then Stored(plat, fields[j], ToCtypes(plat, fields[j].ftype, values[j]).value) else before[j]
  }

  /** All the fields after the first `n` values were assigned. */
  function AssignedSlots(plat: Platform, fields: seq<Field>, values: seq<Value>, before: seq<Scalar>, n: nat): (r: seq<Scalar>)
    requires |values| <= |fields| == |before| && n <= InitStop(plat, fields, values, 0)
    requires forall i :: 0 <= i < |fields| ==> FieldOk(plat, fields[i])
    ensures |r| == |before| && forall j :: 0 <= j < |before| ==> r[j] == AssignedSlot(plat, fields, values, before, n, j)
  {
    seq(|before|, j requires 0 <= j < |before| => AssignedSlot(plat, fields, values, before, n, j))
  }

  /** Assigning value `n` changes field `n` alone. */
  lemma AssignedSlotsStep(plat: Platform, fields: seq<Field>, values: seq<Value>, before: seq<Scalar>, n: nat)
    requires |values| <= |fields| == |before| && n < InitStop(plat, fields, values, 0)
    requires forall i :: 0 <= i < |fields| ==> FieldOk(plat, fields[i])
    ensures AssignedSlots(plat, fields, values, before, n + 1) ==
      AssignedSlots(plat, fields, values, before, n)[n := Stored(plat, fields[n], ToCtypes(plat, fields[n].ftype, values[n]).value)]
  {
  }

  /** The outcome of the struct initializer's loop: the error of the first value that does not convert. */
  function AssignOutcome(plat: Platform, fields: seq<Field>, values: seq<Value>): Outcome
    requires |values| <= |fields|
  {
    var k := InitStop(plat, fields, values, 0);
    if k == |values| then Pass else Fail(ToCtypes(plat, fields[k].ftype, values[k]).error)
  }

  function TooManyValues(tag: string): Error
  {
    ValueError("too many values for struct " + tag + " initializer")
  }

  const BitfieldOverflow: Error := OverflowError("value too large for bitfield")

  /** `s` is what a string getter reads from `bytes`: the bytes before the first NUL, or all of them. */
  predicate IsCStringOf(s: string, bytes: seq<char>)
  {
    s <= bytes && '\0' !in s && (|s| < |bytes| ==> bytes[|s|] == '\0')
  }

  /** The zeroed slot of field `f` in an instance at `address`: `N` NULs for a `char[N]` field. */
  function ZeroedField(f: Field, address: int): Scalar
  {
    if CharArrayType(f.ftype) then BytesS(seq(f.ftype.length.value, _ => '\0'))
    else DefaultScalar(f.ftype, address + f.offset)
  }

  /** The slots of a freshly allocated instance at `address`: every field zeroed (other aggregates as views at their offsets). */
  function ZeroedSlots(t: CType, address: int): (z: seq<Scalar>)
    requires t.StructOrUnion? && t.fields.Some?
    ensures |z| == |t.fields.value|
  {
    seq(|t.fields.value|, i requires 0 <= i < |t.fields.value| => ZeroedField(t.fields.value[i], address))
  }

  /** A struct or union instance that owns its storage, one slot per field, at a given native address. */
  class CStruct {
    const plat: Platform
    const t: CType
    const fields: seq<Field>
    const address: int
    const slots: array<Scalar>

    ghost predicate Valid()
      reads this, slots
    {
      Complete(plat, t) && t.fields == Some(fields) && slots.Length == |fields| &&
      (forall i :: 0 <= i < slots.Length && !CharArrayType(fields[i].ftype) ==> Fits(plat, fields[i].ftype, slots[i])) &&
      // a `char[N]` field keeps its `N` bytes
      (forall i :: 0 <= i < slots.Length && CharArrayType(fields[i].ftype) ==>
        slots[i].BytesS? && |slots[i].b| == fields[i].ftype.length.value) &&
      // any other aggregate field is never assigned by value: it stays the view at its own offset
      forall i :: 0 <= i < slots.Length && (fields[i].ftype.Array? || fields[i].ftype.StructOrUnion?) && !CharArrayType(fields[i].ftype) ==>
        slots[i] == AggS(address + fields[i].offset)
    }

    /** A zeroed instance, as ctypes allocates it. */
    constructor (plat: Platform, t: CType, address: int)
      requires Complete(plat, t)
      ensures Valid() && fresh(slots)
      ensures this.plat == plat && this.t == t && this.address == address
      ensures slots[..] == ZeroedSlots(t, address)
    {
      this.plat := plat;
      this.t := t;
      this.address := address;
      var fs := t.fields.value;
      this.fields := fs;
      forall i | 0 <= i < |fs| && !CharArrayType(fs[i].ftype)
        ensures Fits(plat, fs[i].ftype, ZeroedField(fs[i], address))
      {
        var f := fs[i];
        assert FieldOk(plat, f);
        if f.ftype.Primitive? && f.ftype != CharType {
          assert Half(PrimKind(plat, f.ftype.prim)) >= 1;
        }
        if f.ftype.Enum? {
          assert Half(PrimKind(plat, Int)) >= 1;
        }
      }
      slots := new Scalar[|fs|](i requires 0 <= i < |fs| => ZeroedField(fs[i], address));
    }

    /**
     * Reading field `i`: its stored value as a host value (an integer, a one-character string, the
     * enumerator at that position, None or a pointer handle, or a view of an aggregate field at its
     * offset). A `char[N]` field goes through ctypes' string getter instead: the result wraps a
     * detached copy of its bytes before the first NUL.
     */
    function GetField(i: nat): (r: Result<Value>)
      requires Valid() && i < |fields|
      reads this, slots
      ensures !fields[i].ftype.Enum? ==> r.Ok?
      ensures fields[i].ftype.Primitive? && fields[i].ftype != CharType ==>
        r == Ok(IntV(slots[i].i)) && InRange(PrimKind(plat, fields[i].ftype.prim), slots[i].i)
      ensures fields[i].ftype == CharType ==> r == Ok(StrV([slots[i].c]))
      ensures fields[i].ftype.Enum? ==> r == EnumFromCtypes(fields[i].ftype.enumerators, slots[i].i)
      ensures fields[i].ftype.Pointer? || fields[i].ftype.Function? ==> r == Ok(PtrFromCtypes(fields[i].ftype, slots[i].a))
      ensures (fields[i].ftype.Array? || fields[i].ftype.StructOrUnion?) && !CharArrayType(fields[i].ftype) ==>
        r == Ok(CDataV(AggH(fields[i].ftype, address + fields[i].offset)))
      ensures CharArrayType(fields[i].ftype) ==>
        (r.Ok? && r.value.CDataV? && r.value.d.TextH? && r.value.d.t == fields[i].ftype && IsCStringOf(r.value.d.s, slots[i].b))
    {
      if CharArrayType(fields[i].ftype) then Ok(CDataV(TextH(fields[i].ftype, BeforeNul(slots[i].b))))
      else
        assert Fits(plat, fields[i].ftype, slots[i]);
        FromCtypes(plat, fields[i].ftype, slots[i])
    }

    /**
     * Writing field `i`. A plain field stores the converted value. A bitfield stores it, reads it
     * back, and when the read-back differs restores the old value and raises `OverflowError`: the
     * field ends up holding the new value or its old one.
     */
    method SetField(i: nat, value: Value) returns (o: Outcome)
      requires Valid() && i < |fields|
      modifies slots
      ensures Valid()
      ensures o.Pass? <==>
        ToCtypes(plat, fields[i].ftype, value).Ok? &&
        Stored(plat, fields[i], ToCtypes(plat, fields[i].ftype, value).value) == ToCtypes(plat, fields[i].ftype, value).value
      ensures o.Pass? ==> slots[..] == old(slots[..])[i := ToCtypes(plat, fields[i].ftype, value).value]
      ensures o.Fail? ==> slots[..] == old(slots[..])
      ensures o.Fail? && ToCtypes(plat, fields[i].ftype, value).Ok? ==> o.error == BitfieldOverflow
      ensures o.Fail? && ToCtypes(plat, fields[i].ftype, value).Err? ==> o.error == ToCtypes(plat, fields[i].ftype, value).error
    {
      var f := fields[i];
      assert FieldOk(plat, f);
      var s := ToCtypes(plat, f.ftype, value);
      if s.Err? {
        return Fail(s.error);
      }
      if f.bitsize.None? {
        slots[i] := s.value;
        return Pass;
      }
      var oldValue := slots[i];
      StoredFits(plat, f, s.value);
      slots[i] := Stored(plat, f, s.value);
      if s.value != slots[i] {
        slots[i] := oldValue;
        assert slots[..] == old(slots[..]);
        return Fail(BitfieldOverflow);
      }
      o := Pass;
    }

    /**
     * The struct initializer: the values of `tuple(init)` go to the fields in declaration order;
     * more values than fields raise `ValueError` before anything is written.
     */
    method InitStruct(init: Value) returns (o: Outcome)
      requires Valid() && !t.isUnion
      modifies slots
      ensures Valid()
      ensures Items(init).None? ==> o == Fail(NotIterable(init)) && slots[..] == old(slots[..])
      ensures Items(init).Some? && |Items(init).value| > |fields| ==> o == Fail(TooManyValues(t.tag)) && slots[..] == old(slots[..])
      ensures Items(init).Some? && |Items(init).value| <= |fields| ==> o == AssignOutcome(plat, fields, Items(init).value)
      ensures Items(init).Some? && |Items(init).value| <= |fields| ==> forall j :: 0 <= j < slots.Length ==>
        slots[j] == AssignedSlot(plat, fields, Items(init).value, old(slots[..]), InitStop(plat, fields, Items(init).value, 0), j)
    {
      var items := Items(init);
      if items.None? {
        return Fail(NotIterable(init));
      }
      var values := items.value;
      if |values| > |fields| {
        return Fail(TooManyValues(t.tag));
      }
      o := AssignFields(values);
    }

    /**
     * The assignment loop of the struct initializer: field `j` takes value `j`, stopping at the
     * first value that does not convert; fields past the values keep their contents. It writes
     * through the storage directly, so a bitfield silently keeps only its low bits here.
     */
    method AssignFields(values: seq<Value>) returns (o: Outcome)
      requires Valid() && |values| <= |fields|
      modifies slots
      ensures Valid()
      ensures o == AssignOutcome(plat, fields, values)
      ensures forall j :: 0 <= j < slots.Length ==>
        slots[j] == AssignedSlot(plat, fields, values, old(slots[..]), InitStop(plat, fields, values, 0), j)
    {
      ghost var k := InitStop(plat, fields, values, 0);
      ghost var before := slots[..];
      var i := 0;
      while i < |values|
        invariant Valid()
        invariant 0 <= i <= k
        invariant slots[..] == AssignedSlots(plat, fields, values, before, i)
      {
        var s := ToCtypes(plat, fields[i].ftype, values[i]);
        if s.Err? {
          return Fail(s.error);
        }
        assert FieldOk(plat, fields[i]);
        StoredFits(plat, fields[i], s.value);
        AssignedSlotsStep(plat, fields, values, before, i);
        slots[i] := Stored(plat, fields[i], s.value);
        i := i + 1;
      }
      o := Pass;
    }

    /**
     * The union initializer: the whole initializer goes to the first field; a union without
     * fields raises `IndexError`.
     */
    method InitUnion(init: Value) returns (o: Outcome)
      requires Valid() && t.isUnion
      modifies slots
      ensures Valid()
      ensures |fields| == 0 ==> o == Fail(IndexError) && slots[..] == old(slots[..])
      ensures |fields| > 0 && ToCtypes(plat, fields[0].ftype, init).Err? ==>
        o == Fail(ToCtypes(plat, fields[0].ftype, init).error) && slots[..] == old(slots[..])
      ensures |fields| > 0 && ToCtypes(plat, fields[0].ftype, init).Ok? ==>
        o == Pass && slots[..] == old(slots[..])[0 := Stored(plat, fields[0], ToCtypes(plat, fields[0].ftype, init).value)]
    {
      if |fields| == 0 {
        return Fail(IndexError);
      }
      var s := ToCtypes(plat, fields[0].ftype, init);
      if s.Err? {
        return Fail(s.error);
      }
      assert FieldOk(plat, fields[0]);
      StoredFits(plat, fields[0], s.value);
      slots[0] := Stored(plat, fields[0], s.value);
      o := Pass;
    }
  }

  function OpaqueError(t: CType): Error
  {
    TypeError("cannot instantiate opaque type " + ClassRepr(t))
  }

  /**
   * `CTypesStructOrUnion(init)`: an opaque type cannot be instantiated; otherwise a zeroed
   * instance, then the initializer when `init` is not None.
   */
  method NewStructOrUnion(plat: Platform, t: CType, address: int, init: Value) returns (r: Result<CStruct>)
    requires t.StructOrUnion? && (t.fields.Some? ==> Complete(plat, t))
    ensures t.fields.None? ==> r == Err(OpaqueError(t))
    ensures r.Ok? ==> fresh(r.value) && fresh(r.value.slots) && r.value.Valid()
    ensures r.Ok? ==> r.value.t == t && r.value.plat == plat && r.value.address == address
    ensures t.fields.Some? && init.NoneV? ==> r.Ok? && r.value.slots[..] == ZeroedSlots(t, address)
    ensures t.fields.Some? && !init.NoneV? && !t.isUnion && Items(init).None? ==> r == Err(NotIterable(init))
    ensures t.fields.Some? && !init.NoneV? && !t.isUnion && Items(init).Some? && |Items(init).value| > |t.fields.value| ==>
      r == Err(TooManyValues(t.tag))
    ensures t.fields.Some? && !init.NoneV? && !t.isUnion && Items(init).Some? && |Items(init).value| <= |t.fields.value| ==>
      (r.Ok? <==> AssignOutcome(plat, t.fields.value, Items(init).value).Pass?) &&
      (r.Err? ==> r.error == AssignOutcome(plat, t.fields.value, Items(init).value).error) &&
      (r.Ok? ==> forall j :: 0 <= j < |t.fields.value| ==>
        r.value.slots[j] == AssignedSlot(plat, t.fields.value, Items(init).value, ZeroedSlots(t, address), |Items(init).value|, j))
    ensures t.fields.Some? && !init.NoneV? && t.isUnion && |t.fields.value| == 0 ==> r == Err(IndexError)
    ensures t.fields.Some? && !init.NoneV? && t.isUnion && |t.fields.value| > 0 ==>
      (r.Ok? <==> ToCtypes(plat, t.fields.value[0].ftype, init).Ok?) &&
      (r.Err? ==> r.error == ToCtypes(plat, t.fields.value[0].ftype, init).error) &&
      (r.Ok? ==>
        r.value.slots[..] == ZeroedSlots(t, address)[0 := Stored(plat, t.fields.value[0], ToCtypes(plat, t.fields.value[0].ftype, init).value)])
  {
    if t.fields.None? {
      return Err(OpaqueError(t));
    }
    var s := new CStruct(plat, t, address);
    if !init.NoneV? {
      var o;
      if t.isUnion {
        o := s.InitUnion(init);
      } else {
        o := s.InitStruct(init);
      }
      if o.Fail? {
        return Err(o.error);
      }
    }
    r := Ok(s);
  }

  /**
   * `p.name` for a pointer to a struct: the field of the struct `p[0]` views, read from memory at
   * the field's offset (plain fields; bitfields through pointers are not modelled). Taking `p[0]`
   * of a NULL pointer raises ctypes' `ValueError`. A `char[N]` field goes through ctypes' string
   * getter: the result wraps a detached copy of the bytes before the first NUL.
   */
  function PtrGetField(plat: Platform, p: CData, mem: Memory, i: nat): (r: Result<Value>)
    requires p.PtrH? && p.t.Pointer? && Complete(plat, p.t.item) && i < |p.t.item.fields.value|
    requires p.address != 0 && ByValue(p.t.item.fields.value[i].ftype) ==>
      Mapped(mem, p.address + p.t.item.fields.value[i].offset, ByValueSize(plat, p.t.item.fields.value[i].ftype))
    requires p.address != 0 && CharArrayType(p.t.item.fields.value[i].ftype) ==>
      Mapped(mem, p.address + p.t.item.fields.value[i].offset, p.t.item.fields.value[i].ftype.length.value)
    ensures p.address == 0 ==> r == Err(NullPointerAccess)
    ensures p.address != 0 && !CharArrayType(p.t.item.fields.value[i].ftype) ==>
      ReadsAs(plat, p.t.item.fields.value[i].ftype, mem, p.address + p.t.item.fields.value[i].offset, r)
    ensures p.address != 0 && CharArrayType(p.t.item.fields.value[i].ftype) ==>
      var f := p.t.item.fields.value[i];
      r.Ok? && r.value.CDataV? && r.value.d.TextH? && r.value.d.t == f.ftype &&
      IsCStringOf(r.value.d.s, Window(mem, p.address + f.offset, f.ftype.length.value))
  {
    var f := p.t.item.fields.value[i];
    assert FieldOk(plat, f);
    if p.address == 0 then Err(NullPointerAccess)
    else if CharArrayType(f.ftype) then
      Ok(CDataV(TextH(f.ftype, BeforeNul(Window(mem, p.address + f.offset, f.ftype.length.value)))))
    else
      LoadReadsAs(plat, f.ftype, mem, p.address + f.offset);
      Load(plat, f.ftype, mem, p.address + f.offset)
  }

  /**
   * `p.name = value` for a pointer to a struct: `p[0]` is taken first, so a NULL pointer raises
   * ctypes' `ValueError` before any conversion; otherwise the converted value's bytes are copied
   * to the field's offset and nothing else changes.
   */
  function PtrSetField(plat: Platform, p: CData, mem: Memory, i: nat, value: Value): (r: Result<Memory>)
    requires p.PtrH? && p.t.Pointer? && Complete(plat, p.t.item) && i < |p.t.item.fields.value|
    requires p.address != 0 && ByValue(p.t.item.fields.value[i].ftype) ==>
      Mapped(mem, p.address + p.t.item.fields.value[i].offset, ByValueSize(plat, p.t.item.fields.value[i].ftype))
    ensures p.address == 0 ==> r == Err(NullPointerAccess)
    ensures p.address != 0 ==> (r.Ok? <==> ToCtypes(plat, p.t.item.fields.value[i].ftype, value).Ok?)
    ensures p.address != 0 && r.Err? ==> r.error == ToCtypes(plat, p.t.item.fields.value[i].ftype, value).error
    ensures r.Ok? ==>
      var f := p.t.item.fields.value[i];
      ByValue(f.ftype) && r.value == Overwrite(mem, p.address + f.offset, EncodeScalar(plat, f.ftype, ToCtypes(plat, f.ftype, value).value))
  {
    var f := p.t.item.fields.value[i];
    if p.address == 0 then Err(NullPointerAccess)
    else Store(plat, f.ftype, mem, p.address + f.offset, value)
  }

  /** Through a non-NULL struct pointer, an integer field written with a representable value reads it back. */
  lemma PtrFieldRoundTrip(plat: Platform, p: CData, mem: Memory, i: nat, n: PrimName, x: int)
    requires p.PtrH? && p.t.Pointer? && Complete(plat, p.t.item) && i < |p.t.item.fields.value|
    requires p.address != 0
    requires p.t.item.fields.value[i].ftype == Primitive(n) && n != Char
    requires Mapped(mem, p.address + p.t.item.fields.value[i].offset, PrimSize(plat, n))
    requires InRange(PrimKind(plat, n), x)
    ensures PtrSetField(plat, p, mem, i, IntV(x)).Ok?
    ensures Mapped(PtrSetField(plat, p, mem, i, IntV(x)).value, p.address + p.t.item.fields.value[i].offset, PrimSize(plat, n))
    ensures PtrGetField(plat, p, PtrSetField(plat, p, mem, i, IntV(x)).value, i) == Ok(IntV(x))
  {
    var a := p.address + p.t.item.fields.value[i].offset;
    assert ByValueSize(plat, Primitive(n)) == PrimSize(plat, n);
    var m := Store(plat, Primitive(n), mem, a, IntV(x));
    assert m.Ok? && Load(plat, Primitive(n), m.value, a) == Ok(IntV(x)) by {
      StoreLoadInteger(plat, n, mem, a, x);
    }
    assert Mapped(m.value, a, PrimSize(plat, n)) by {
      StoreKeepsMapped(plat, Primitive(n), mem, a, IntV(x));
    }
    assert PtrSetField(plat, p, mem, i, IntV(x)) == m;
    assert PtrGetField(plat, p, m.value, i) == Load(plat, Primitive(n), m.value, a);
  }
}
