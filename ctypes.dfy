/**
 * The type descriptors the backend builds classes from: one variant per C type kind, the
 * platform's native sizes, the textual name templates and the construction-time rules.
 */
module CTypes {
  import opened CErrors
  import opened CText
  import opened IntKinds

  /** The sizes in bytes that ctypes reports for the platform's native kinds. */
  datatype Platform = Platform(
    shortSize: PosNat, intSize: PosNat, longSize: PosNat, longLongSize: PosNat,
    pointerSize: PosNat, sizeTSize: PosNat, wcharSize: PosNat)

  /** The primitive names the backend accepts (the floating-point ones are not modelled). */
  datatype PrimName =
    | Char | Short | Int | Long | LongLong | SignedChar
    | UnsignedChar | UnsignedShort | UnsignedInt | UnsignedLong | UnsignedLongLong

  datatype PtrKind = Generic | CharP | ConstCharP

  /** A field of a struct or union: its name, type, optional bit width and its (given) offset. */
  datatype Field = Field(name: string, ftype: CType, bitsize: Option<nat>, offset: nat)

  /**
   * An abstract C type. Two structurally equal descriptors stand for the same class: the
   * registry outside the backend builds at most one class per descriptor.
   */
  datatype CType =
    | Void
    | Primitive(prim: PrimName)
    | Pointer(item: CType, kind: PtrKind)
    | Array(elem: CType, length: Option<nat>)
    | StructOrUnion(isUnion: bool, tag: string, fields: Option<seq<Field>>, size: nat)
    | Function(args: seq<CType>, result: CType, varargs: bool)
    | Enum(tag: string, enumerators: seq<string>, values: seq<int>)

  const CharType: CType := Primitive(Char)
  const IntType: CType := Primitive(Int)

  function PrimText(n: PrimName): string
  {
    match n
    case Char => "char"
    case Short => "short"
    case Int => "int"
    case Long => "long"
    case LongLong => "long long"
    case SignedChar => "signed char"
    case UnsignedChar => "unsigned char"
    case UnsignedShort => "unsigned short"
    case UnsignedInt => "unsigned int"
    case UnsignedLong => "unsigned long"
    case UnsignedLongLong => "unsigned long long"
  }

  /** `ctypes.sizeof` of the primitive's ctypes class. */
  function PrimSize(plat: Platform, n: PrimName): PosNat
  {
    match n
    case Char => 1
    case SignedChar => 1
    case UnsignedChar => 1
    case Short => plat.shortSize
    case UnsignedShort => plat.shortSize
    case Int => plat.intSize
    case UnsignedInt => plat.intSize
    case Long => plat.longSize
    case UnsignedLong => plat.longSize
    case LongLong => plat.longLongSize
    case UnsignedLongLong => plat.longLongSize
  }

  /** The integer representation of an integer primitive (every name but `char`). */
  function PrimKind(plat: Platform, n: PrimName): IntKind
  {
    IntKind(8 * PrimSize(plat, n), !(n.UnsignedChar? || n.UnsignedShort? || n.UnsignedInt? || n.UnsignedLong? || n.UnsignedLongLong?))
  }

  /**
   * Whether the type's class has a `_ctype`: void and unbounded arrays have none, and neither has a
   * fixed-length array of them (`BItem._ctype * length` cannot be formed).
   */
  predicate HasCtype(t: CType)
  {
    match t
    case Void => false
    case Array(item, length) => length.Some? && HasCtype(item)
    case _ => true
  }

  /** `ctypes.sizeof(T._ctype)`, or None when the class has no `_ctype`. Struct sizes are given. */
  function SizeOf(plat: Platform, t: CType): (r: Option<nat>)
    ensures r.Some? <==> HasCtype(t)
  {
    match t
    case Void => None
    case Primitive(n) => Some(PrimSize(plat, n))
    case Pointer(_, _) => Some(plat.pointerSize)
    case Array(item, len) =>
      if len.None? then None
      else (match SizeOf(plat, item) case Some(s) => Some(s * len.value) case None => None)
    case StructOrUnion(_, _, _, size) => Some(size)
    case Function(_, _, _) => Some(plat.pointerSize)
    case Enum(_, _, _) => Some(plat.intSize)
  }

  // ---- names ----

  /** The `[]` / `[%d]` suffix of an array type's name template. */
  function Brackets(length: Option<nat>): string
  {
    Amp + BracketsTail(length)
  }

  function BracketsTail(length: Option<nat>): string
  {
    if length.None? then "[]" else "[" + Dec(length.value) + "]"
  }

  lemma BracketsTailAmpFree(length: Option<nat>)
    ensures AmpFree(BracketsTail(length))
  {
    if length.Some? {
      var d := Dec(length.value);
      var s := "[" + d + "]";
      forall i | 0 <= i < |s| ensures s[i] != '&' {
        if 1 <= i <= |d| { assert s[i] == d[i - 1]; }
      }
    }
  }

  /** The `_reftypename` template of the class: the C name with ` &` where a declarator goes. */
  function RefName(t: CType): string
    decreases t, 1
  {
    match t
    case Void => "void" + Amp
    case Primitive(n) => PrimText(n) + Amp
    case Pointer(item, kind) =>
      if kind == ConstCharP then "const char *" + Amp else ReplaceAmp(RefName(item), " *" + Amp)
    case Array(item, len) => ReplaceAmp(RefName(item), Brackets(len))
    case StructOrUnion(isUnion, tag, _, _) => (if isUnion then "union " else "struct ") + tag + Amp
    case Function(args, res, va) => CName(res) + "(*" + Amp + ")(" + Join(ArgNames(t), ", ") + ")"
    case Enum(tag, _, _) => "enum " + tag + Amp
  }

  /** The names of a function type's parameters, then `...` when it is variadic. */
  function ArgNames(t: CType): seq<string>
    requires t.Function?
    decreases t, 0
  {
    seq(|t.args|, i requires 0 <= i < |t.args| => CName(t.args[i])) + (if t.varargs then ["..."] else [])
  }

  /** `_get_c_name()`: the template with the placeholder dropped. */
  function CName(t: CType): string
    decreases t, 2
  {
    ReplaceAmp(RefName(t), "")
  }

  /** `_get_c_name(replace_with)`. */
  function GetCName(t: CType, rep: string): string
  {
    ReplaceAmp(RefName(t), rep)
  }

  /** Every struct, union and enum tag inside the type is free of `&`. */
  predicate TagsAmpFree(t: CType)
  {
    match t
    case Void => true
    case Primitive(_) => true
    case Pointer(item, _) => TagsAmpFree(item)
    case Array(item, _) => TagsAmpFree(item)
    case StructOrUnion(_, tag, _, _) => AmpFree(tag)
    case Function(args, res, _) => TagsAmpFree(res) && forall a :: a in args ==> TagsAmpFree(a)
    case Enum(tag, _, _) => AmpFree(tag)
  }

  /** The part of the name before the declarator position. */
  function NameHead(t: CType): string
    decreases t
  {
    match t
    case Void => "void"
    case Primitive(n) => PrimText(n)
    case Pointer(item, kind) => if kind == ConstCharP then "const char *" else NameHead(item) + " *"
    case Array(item, _) => NameHead(item)
    case StructOrUnion(isUnion, tag, _, _) => (if isUnion then "union " else "struct ") + tag
    case Function(args, res, _) => CName(res) + "(*"
    case Enum(tag, _, _) => "enum " + tag
  }

  /** The part of the name after the declarator position. */
  function NameTail(t: CType): string
    decreases t
  {
    match t
    case Pointer(item, kind) => if kind == ConstCharP then "" else NameTail(item)
    case Array(item, len) => BracketsTail(len) + NameTail(item)
    case Function(args, res, _) => ")(" + Join(ArgNames(t), ", ") + ")"
    case _ => ""
  }

  /**
   * Every template has exactly one placeholder, between the head and the tail of the name, so
   * `_get_c_name(rep)` puts `rep` at the declarator position.
   */
  lemma {:induction false} RefNameShape(t: CType)
    requires TagsAmpFree(t)
    ensures Shaped(t)
    decreases t
  {
    match t
    case Pointer(item, kind) =>
      if kind != ConstCharP {
        RefNameShape(item);
        PointerShaped(item, kind);
      } else {
        LeafShaped(t);
      }
    case Array(item, len) =>
      RefNameShape(item);
      ArrayShaped(item, len);
    case Function(args, res, va) =>
      RefNameShape(res);
      forall a | a in args ensures Shaped(a) {
        RefNameShape(a);
      }
      FunctionShaped(args, res, va);
    case _ =>
      LeafShaped(t);
  }

  /** A type whose name has nothing after the declarator position: the template ends with the placeholder. */
  lemma LeafShaped(t: CType)
    requires TagsAmpFree(t)
    requires t.Void? || t.Primitive? || t.StructOrUnion? || t.Enum? || (t.Pointer? && t.kind == ConstCharP)
    ensures Shaped(t)
  {
    if t.Primitive? {
      PrimTextAmpFree(t.prim);
    }
    assert NameTail(t) == "";
    assert RefName(t) == NameHead(t) + Amp + "";
  }

  lemma PrimTextAmpFree(n: PrimName)
    ensures AmpFree(PrimText(n))
  {
    match n
    case Char =>
    case Short =>
    case Int =>
    case Long =>
    case LongLong =>
    case SignedChar =>
    case UnsignedChar =>
    case UnsignedShort =>
    case UnsignedInt =>
    case UnsignedLong =>
    case UnsignedLongLong =>
  }

  /** The template of `t` is its head, the placeholder and its tail, with no other `&`. */
  predicate Shaped(t: CType)
  {
    AmpFree(NameHead(t)) && AmpFree(NameTail(t)) && RefName(t) == NameHead(t) + Amp + NameTail(t)
  }

  lemma PointerShaped(item: CType, kind: PtrKind)
    requires Shaped(item) && kind != ConstCharP
    ensures Shaped(Pointer(item, kind))
  {
    InsertBeforeAmp(NameHead(item), NameTail(item), " *");
  }

  lemma ArrayShaped(item: CType, len: Option<nat>)
    requires Shaped(item)
    ensures Shaped(Array(item, len))
  {
    BracketsTailAmpFree(len);
    InsertAfterAmp(NameHead(item), NameTail(item), BracketsTail(len));
  }

  lemma FunctionShaped(args: seq<CType>, res: CType, va: bool)
    requires Shaped(res) && forall a :: a in args ==> Shaped(a)
    ensures Shaped(Function(args, res, va))
  {
    var t := Function(args, res, va);
    CNameAmpFree(res);
    ArgNamesAmpFree(t);
    JoinAmpFree(ArgNames(t), ", ");
    SplitFunctionTemplate(CName(res), Join(ArgNames(t), ", "));
  }

  lemma ArgNamesAmpFree(t: CType)
    requires t.Function? && forall a :: a in t.args ==> Shaped(a)
    ensures forall i :: 0 <= i < |ArgNames(t)| ==> AmpFree(ArgNames(t)[i])
  {
    var names := ArgNames(t);
    forall i | 0 <= i < |names|
      ensures AmpFree(names[i])
    {
      if i < |t.args| {
        assert t.args[i] in t.args;
        CNameAmpFree(t.args[i]);
        assert names[i] == CName(t.args[i]);
      } else {
        assert names[i] == "...";
      }
    }
  }

  lemma CNameAmpFree(t: CType)
    requires Shaped(t)
    ensures CName(t) == NameHead(t) + NameTail(t) && AmpFree(CName(t))
  {
    RemoveSingleAmp(NameHead(t), NameTail(t));
  }

  /** `_get_c_name(rep)` is the head, then `rep`, then the tail. */
  lemma GetCNameInserts(t: CType, rep: string)
    requires TagsAmpFree(t)
    ensures GetCName(t, rep) == NameHead(t) + rep + NameTail(t)
    ensures CName(t) == NameHead(t) + NameTail(t)
  {
    var h, tl := NameHead(t), NameTail(t);
    RefNameShape(t);
    ReplaceSingleAmp(h, tl, rep);
    RemoveSingleAmp(h, tl);
  }

  /** A pointer type's name puts ` *` at the item's declarator position (`int` gives `int *`). */
  lemma PointerNameInsertsStar(item: CType)
    requires TagsAmpFree(item)
    ensures CName(PointerTypeOf(item)) == NameHead(item) + " *" + NameTail(item)
  {
    var p := PointerTypeOf(item);
    RefNameShape(p);
    CNameAmpFree(p);
  }

  /** An array type's name puts its brackets at the item's declarator position (`int` gives `int[5]`). */
  lemma ArrayNameInsertsBrackets(item: CType, length: Option<nat>)
    requires TagsAmpFree(item)
    ensures CName(Array(item, length)) == NameHead(item) + BracketsTail(length) + NameTail(item)
  {
    var a := Array(item, length);
    RefNameShape(a);
    CNameAmpFree(a);
  }

  // ---- automatic casts and class attributes ----

  /** `_automatic_casts`: set only on pointer types whose item is `void` or `char`. */
  predicate AutomaticCasts(t: CType)
  {
    t.Pointer? && (t.item == Void || t.item == CharType)
  }

  /** The pointer descriptor `new_pointer_type` builds: `char *` gets the string-capable kind. */
  function PointerTypeOf(item: CType): (p: CType)
    ensures p.Pointer? && p.item == item
    ensures AutomaticCasts(p) <==> item == Void || item == CharType
  {
    Pointer(item, if item == CharType then CharP else Generic)
  }

  /** The class attributes `CTypesData` defines. */
  const DataAttrs: set<string> := {
    "_to_ctypes", "_arg_to_ctypes", "_from_ctypes", "_get_c_name", "_fix_class", "_get_own_repr",
    "__repr__", "_convert_to_address", "_get_size", "_get_size_of_instance", "_cast_from",
    "_cast_to_integer", "_alignment"}

  /** The class attributes of a pointer class, before any field accessor is added. */
  function PtrAttrs(item: CType, kind: PtrKind): set<string>
  {
    DataAttrs
    + {"_automatic_casts", "_new_pointer_at", "__nonzero__", "__eq__", "__ne__", "__hash__"}
    + {"_BItem", "_ctype", "_reftypename", "__init__", "__add__", "__sub__", "__getitem__"}
    + (if HasCtype(item) then {"_bitem_size"} else {})
    + (if kind == ConstCharP then {"_keepalive_string"} else {"__setitem__"})
    + (if kind == Generic then {} else {"__str__"})
  }

  /** The class attributes of a struct or union class when its field accessors are added. */
  const StructAttrs: set<string> := DataAttrs + {"_ctype", "_reftypename", "_own", "__init__", "_offsetof", "_fieldnames"}

  /**
   * Adding one accessor per field name: a name the class already has (an attribute of its own,
   * one Python gives every class, or an earlier field) is rejected.
   */
  function CheckFieldNames(names: seq<string>, taken: set<string>): Outcome
    decreases |names|
  {
    if names == [] then Pass
    else if names[0] in taken then
      Fail(ValueError("the field name " + Quote(names[0]) + " conflicts in the ctypes backend"))
    else CheckFieldNames(names[1..], taken + {names[0]})
  }

  predicate Distinct(names: seq<string>)
  {
    forall i, j :: 0 <= i < j < |names| ==> names[i] != names[j]
  }

  /** The field names are accepted exactly when they are pairwise distinct and none is already taken. */
  lemma {:induction false} CheckFieldNamesAccepts(names: seq<string>, taken: set<string>)
    ensures CheckFieldNames(names, taken) == Pass <==> Distinct(names) && forall n :: n in names ==> n !in taken
    decreases |names|
  {
    if names != [] {
      var rest := names[1..];
      CheckFieldNamesAccepts(rest, taken + {names[0]});
      if Distinct(names) && forall n :: n in names ==> n !in taken {
        assert Distinct(rest) by {
          forall i, j | 0 <= i < j < |rest| ensures rest[i] != rest[j] { assert rest[i] == names[i + 1] && rest[j] == names[j + 1]; }
        }
        forall n | n in rest ensures n !in taken + {names[0]} {
          var i :| 0 <= i < |rest| && rest[i] == n;
          assert names[i + 1] == n;
        }
      }
      if names[0] !in taken && Distinct(rest) && forall n :: n in rest ==> n !in taken + {names[0]} {
        forall i, j | 0 <= i < j < |names| ensures names[i] != names[j] {
          assert names[j] == rest[j - 1] && names[j] in rest;
          if i > 0 { assert names[i] == rest[i - 1]; }
        }
        forall n | n in names ensures n !in taken {
          var i :| 0 <= i < |names| && names[i] == n;
          if i > 0 { assert rest[i - 1] == n; }
        }
      }
    }
  }

  function FieldNames(fields: seq<Field>): (names: seq<string>)
    ensures |names| == |fields|
    ensures forall i :: 0 <= i < |fields| ==> names[i] == fields[i].name
  {
    seq(|fields|, i requires 0 <= i < |fields| => fields[i].name)
  }

  /** The `__name__` the backend gives a class. */
  function ClassName(t: CType): string
  {
    "CData<" + CName(t) + ">"
  }

  /** Reading `_ctype` of a class that has none raises `AttributeError`. */
  function NoCtype(t: CType): Error
  {
    AttributeError("type object " + Quote(ClassName(t)) + " has no attribute '_ctype'")
  }

  /** The error of the first type (left to right) whose class has no `_ctype`, if any. */
  function FirstWithoutCtype(types: seq<CType>): (r: Option<Error>)
    ensures r.None? <==> forall i :: 0 <= i < |types| ==> HasCtype(types[i])
    ensures r.Some? ==>
      exists i :: 0 <= i < |types| && !HasCtype(types[i]) && r.value == NoCtype(types[i]) &&
        forall j :: 0 <= j < i ==> HasCtype(types[j])
  {
    if types == [] then None
    else if !HasCtype(types[0]) then Some(NoCtype(types[0]))
    else
      var r := FirstWithoutCtype(types[1..]);
      assert forall i :: 1 <= i < |types| ==> types[i] == types[1..][i - 1];
      if r.Some? then
        var i :| 0 <= i < |types[1..]| && !HasCtype(types[1..][i]) && r.value == NoCtype(types[1..][i]) &&
          forall j :: 0 <= j < i ==> HasCtype(types[1..][j]);
        assert forall j :: 0 <= j < i + 1 ==> HasCtype(types[j]) by {
          forall j | 0 <= j < i + 1 ensures HasCtype(types[j]) {
            if j > 0 { assert types[j] == types[1..][j - 1]; }
          }
        }
        r
      else r
  }

  function FieldTypes(fields: seq<Field>): (types: seq<CType>)
    ensures |types| == |fields|
    ensures forall i :: 0 <= i < |fields| ==> types[i] == fields[i].ftype
  {
    seq(|fields|, i requires 0 <= i < |fields| => fields[i].ftype)
  }

  /** The `__name__` ctypes gives the class of an integer primitive: `c_int` is `c_long` when the two sizes agree, and so is `c_longlong`. */
  function PrimCtypesName(plat: Platform, n: PrimName): string
  {
    match n
    case Char => "c_char"
    case SignedChar => "c_byte"
    case UnsignedChar => "c_ubyte"
    case Short => "c_short"
    case UnsignedShort => "c_ushort"
    case Int => if plat.intSize == plat.longSize then "c_long" else "c_int"
    case UnsignedInt => if plat.intSize == plat.longSize then "c_ulong" else "c_uint"
    case Long => "c_long"
    case UnsignedLong => "c_ulong"
    case LongLong => if plat.longLongSize == plat.longSize then "c_long" else "c_longlong"
    case UnsignedLongLong => if plat.longLongSize == plat.longSize then "c_ulong" else "c_ulonglong"
  }

  /**
   * The `__name__` of a type's ctypes class (`T._ctype`): `LP_` before the item's for a pointer,
   * `c_void_p` for a pointer to a type without one, `_Array_<n>` after the item's for an array,
   * `struct_<tag>` / `union_<tag>` for an aggregate, `CFunctionType` for a function pointer.
   */
  function CtypesName(plat: Platform, t: CType): string
    requires HasCtype(t)
  {
    match t
    case Void => assert false; ""
    case Primitive(n) => PrimCtypesName(plat, n)
    case Enum(_, _, _) => PrimCtypesName(plat, Int)
    case Pointer(item, _) => if HasCtype(item) then "LP_" + CtypesName(plat, item) else "c_void_p"
    case Array(elem, length) => CtypesName(plat, elem) + "_Array_" + Dec(length.value)
    case StructOrUnion(isUnion, tag, _, _) => (if isUnion then "union_" else "struct_") + tag
    case Function(_, _, _) => "CFunctionType"
  }

  /**
   * A fixed-length `char` array: as a struct field ctypes reads it through its string getter,
   * which copies the bytes before the first NUL into a host string.
   */
  predicate CharArrayType(t: CType)
  {
    t.Array? && t.elem == CharType && t.length.Some?
  }

  /** ctypes' refusal of a bit width on the class named `name`. */
  function BitfieldNotAllowed(name: string): Error
  {
    TypeError("bit fields not allowed for type " + name)
  }

  /** ctypes allows a bit width only on an integer class other than `c_char`: an integer primitive or an enum (a `c_int`). */
  predicate BitfieldCapable(t: CType)
  {
    t.Enum? || (t.Primitive? && t != CharType)
  }

  /**
   * A field ctypes accepts in `_fields_`: its type has a `_ctype`, and a bitfield is on an
   * integer class with a width from 1 to the class's width in bits.
   */
  predicate FieldOk(plat: Platform, f: Field)
  {
    HasCtype(f.ftype) &&
    (f.bitsize.Some? ==> BitfieldCapable(f.ftype) && 1 <= f.bitsize.value <= 8 * SizeOf(plat, f.ftype).value)
  }

  /**
   * What ctypes raises for one entry of `_fields_` whose type has a `_ctype`: a bit width on a
   * class that is not an integer class is a `TypeError` naming that class; then a width of zero
   * or wider than the class is a `ValueError`.
   */
  function FieldError(plat: Platform, f: Field): (r: Option<Error>)
    requires HasCtype(f.ftype)
    ensures r.None? <==> FieldOk(plat, f)
    ensures r.Some? && !BitfieldCapable(f.ftype) ==> r.value == BitfieldNotAllowed(CtypesName(plat, f.ftype))
    ensures r.Some? && BitfieldCapable(f.ftype) ==> r.value == ValueError("number of bits invalid for bit field")
  {
    if f.bitsize.None? then None
    else if !BitfieldCapable(f.ftype) then Some(BitfieldNotAllowed(CtypesName(plat, f.ftype)))
    else if f.bitsize.value == 0 || f.bitsize.value > 8 * SizeOf(plat, f.ftype).value then Some(ValueError("number of bits invalid for bit field"))
    else None
  }

  /** ctypes lays `_fields_` out in order: the error of the first entry it refuses, if any. */
  function FirstFieldError(plat: Platform, fields: seq<Field>): (r: Option<Error>)
    requires forall i :: 0 <= i < |fields| ==> HasCtype(fields[i].ftype)
    ensures r.None? <==> forall i :: 0 <= i < |fields| ==> FieldOk(plat, fields[i])
    ensures r.Some? ==>
      exists i :: 0 <= i < |fields| && !FieldOk(plat, fields[i]) && r == FieldError(plat, fields[i]) &&
        forall j :: 0 <= j < i ==> FieldOk(plat, fields[j])
  {
    if fields == [] then None
    else if FieldError(plat, fields[0]).Some? then FieldError(plat, fields[0])
    else
      var r := FirstFieldError(plat, fields[1..]);
      assert forall i :: 1 <= i < |fields| ==> fields[i] == fields[1..][i - 1];
      if r.Some? then
        var i :| 0 <= i < |fields[1..]| && !FieldOk(plat, fields[1..][i]) && r == FieldError(plat, fields[1..][i]) &&
          forall j :: 0 <= j < i ==> FieldOk(plat, fields[1..][j]);
        assert forall j :: 0 <= j < i + 1 ==> FieldOk(plat, fields[j]) by {
          forall j | 0 <= j < i + 1 ensures FieldOk(plat, fields[j]) {
            if j > 0 { assert fields[j] == fields[1..][j - 1]; }
          }
        }
        r
      else r
  }

  // ---- type construction ----

  /**
   * `new_pointer_type`: the descriptor for `item *`; for a non-opaque struct or union item the
   * field shorthand accessors must not collide with the pointer class's own attributes.
   * `hostAttrs` are the attributes Python itself gives every class.
   */
  function NewPointerType(item: CType, hostAttrs: set<string>): (r: Result<CType>)
    ensures r.Ok? ==> r.value == PointerTypeOf(item)
    ensures !(item.StructOrUnion? && item.fields.Some?) ==> r.Ok?
  {
    var p := PointerTypeOf(item);
    if item == Void || item == CharType || !item.StructOrUnion? || item.fields.None? then Ok(p)
    else
      match CheckFieldNames(FieldNames(item.fields.value), hostAttrs + PtrAttrs(item, p.kind))
      case Pass => Ok(p)
      case Fail(e) => Err(e)
  }

  /** `new_constcharp_type`. */
  const ConstCharPointerType: CType := Pointer(CharType, ConstCharP)

  /**
   * `new_struct_type` / `new_union_type`: an opaque aggregate (no field list) is always built.
   * Otherwise building the ctypes structure reads `_ctype` of every field type first, which raises
   * `AttributeError` for `void` or an unbounded array; then ctypes lays the fields out, refusing
   * a bit width on a non-integer class or one that does not fit its class; then each field name
   * must be new to the class.
   */
  function NewStructOrUnionType(plat: Platform, isUnion: bool, tag: string, fields: Option<seq<Field>>, size: nat, hostAttrs: set<string>): (r: Result<CType>)
    ensures r.Ok? <==> (fields.None? ||
      ((forall i :: 0 <= i < |fields.value| ==> FieldOk(plat, fields.value[i])) &&
       Distinct(FieldNames(fields.value)) && forall n :: n in FieldNames(fields.value) ==> n !in hostAttrs + StructAttrs))
    ensures fields.Some? && FirstWithoutCtype(FieldTypes(fields.value)).Some? ==>
      r == Err(FirstWithoutCtype(FieldTypes(fields.value)).value)
    ensures fields.Some? && FirstWithoutCtype(FieldTypes(fields.value)).None? && FirstFieldError(plat, fields.value).Some? ==>
      r == Err(FirstFieldError(plat, fields.value).value)
    ensures r.Ok? ==> r.value == StructOrUnion(isUnion, tag, fields, size)
  {
    if fields.None? then Ok(StructOrUnion(isUnion, tag, fields, size))
    else
      match FirstWithoutCtype(FieldTypes(fields.value))
      case Some(e) => Err(e)
      case None =>
        match FirstFieldError(plat, fields.value)
        case Some(e) => Err(e)
        case None =>
          CheckFieldNamesAccepts(FieldNames(fields.value), hostAttrs + StructAttrs);
          match CheckFieldNames(FieldNames(fields.value), hostAttrs + StructAttrs)
          case Pass => Ok(StructOrUnion(isUnion, tag, fields, size))
          case Fail(e) => Err(e)
  }

  /**
   * A field whose type has no `_ctype` (`void`, or a flexible array member such as `int d[]`)
   * makes the aggregate type unbuildable, with `AttributeError`, whatever the field names are.
   */
  lemma FieldWithoutCtypeRejected(plat: Platform, isUnion: bool, tag: string, fields: seq<Field>, size: nat, hostAttrs: set<string>, i: nat)
    requires i < |fields| && !HasCtype(fields[i].ftype)
    ensures NewStructOrUnionType(plat, isUnion, tag, Some(fields), size, hostAttrs).Err?
    ensures NewStructOrUnionType(plat, isUnion, tag, Some(fields), size, hostAttrs).error.AttributeError?
  {
    assert FieldTypes(fields)[i] == fields[i].ftype;
  }

  /**
   * When every field type has a `_ctype`, the first bitfield ctypes refuses decides: a `char`
   * (or pointer, array, aggregate) bitfield raises `TypeError` naming its ctypes class, a zero
   * width or one wider than the type raises `ValueError`; earlier fields are all accepted.
   */
  lemma BadBitfieldRejected(plat: Platform, isUnion: bool, tag: string, fields: seq<Field>, size: nat, hostAttrs: set<string>, i: nat)
    requires forall j :: 0 <= j < |fields| ==> HasCtype(fields[j].ftype)
    requires i < |fields| && !FieldOk(plat, fields[i]) && forall j :: 0 <= j < i ==> FieldOk(plat, fields[j])
    ensures NewStructOrUnionType(plat, isUnion, tag, Some(fields), size, hostAttrs) == Err(FieldError(plat, fields[i]).value)
    ensures fields[i].ftype == CharType ==>
      NewStructOrUnionType(plat, isUnion, tag, Some(fields), size, hostAttrs) == Err(BitfieldNotAllowed("c_char"))
    ensures BitfieldCapable(fields[i].ftype) ==>
      NewStructOrUnionType(plat, isUnion, tag, Some(fields), size, hostAttrs) == Err(ValueError("number of bits invalid for bit field"))
  {
    assert FirstWithoutCtype(FieldTypes(fields)).None?;
    FirstFieldErrorAt(plat, fields, i);
  }

  /** The first refused field decides `FirstFieldError`. */
  lemma {:induction false} FirstFieldErrorAt(plat: Platform, fields: seq<Field>, i: nat)
    requires forall j :: 0 <= j < |fields| ==> HasCtype(fields[j].ftype)
    requires i < |fields| && !FieldOk(plat, fields[i]) && forall j :: 0 <= j < i ==> FieldOk(plat, fields[j])
    ensures FirstFieldError(plat, fields) == FieldError(plat, fields[i])
  {
    if i > 0 {
      assert FieldOk(plat, fields[0]);
      FirstFieldErrorAt(plat, fields[1..], i - 1);
    }
  }

  /** A field named like one of the aggregate class's own attributes is always rejected. */
  lemma ReservedFieldNameRejected(plat: Platform, isUnion: bool, tag: string, fields: seq<Field>, size: nat, hostAttrs: set<string>, i: nat)
    requires i < |fields| && fields[i].name in StructAttrs
    ensures NewStructOrUnionType(plat, isUnion, tag, Some(fields), size, hostAttrs).Err?
  {
    assert FieldNames(fields)[i] in FieldNames(fields);
  }
}
