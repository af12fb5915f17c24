/** Typed memory handles (the instances of the backend's classes) and the host values they meet. */
module Handles {
  import opened CErrors
  import opened CText
  import opened CTypes

  /**
   * What a ctypes object stores for one element or field: an aggregate element is a view at an
   * address, except that a struct's `char[N]` field keeps its `N` bytes.
   */
  datatype Scalar = IntS(i: int) | CharS(c: char) | AddrS(a: int) | AggS(a: int) | BytesS(b: seq<char>)

  /** A typed memory handle. */
  datatype CData =
    | IntH(t: CType, i: int)                                      // an integer primitive or an enum
    | CharH(c: char)                                              // the `char` primitive
    | PtrH(t: CType, address: int, keepalive: Option<string>)    // a pointer, with the string it keeps alive
    | FuncH(t: CType, address: int, name: Option<string>)        // a function pointer, with its symbol name
    | AggH(t: CType, address: int)                                // an array, struct or union: a view of its block
    | TextH(t: CType, s: string)                                  // a `char[N]` array whose `_blob` is a detached host string

  /** A host (Python) value handed to or returned by the backend. */
  datatype Value =
    | NoneV
    | IntV(i: int)
    | StrV(s: string)
    | SeqV(items: seq<Value>)
    | CDataV(d: CData)
    | OtherV(typeName: string)

  /** The type (class) of a handle. */
  function TypeOf(d: CData): CType
  {
    match d
    case CharH(_) => CharType
    case IntH(t, _) => t
    case PtrH(t, _, _) => t
    case FuncH(t, _, _) => t
    case AggH(t, _) => t
    case TextH(t, _) => t
  }

  /** `%r` of a class. */
  function ClassRepr(t: CType): string
  {
    "<class 'ffi." + ClassName(t) + "'>"
  }

  /** `type(v).__name__`. */
  function TypeName(v: Value): string
  {
    match v
    case NoneV => "NoneType"
    case IntV(_) => "int"
    case StrV(_) => "str"
    case SeqV(_) => "tuple"
    case CDataV(d) => ClassName(TypeOf(d))
    case OtherV(n) => n
  }

  /** The error `CTypesData._convert_to_address` raises. */
  function CannotConvert(t: CType, target: Option<CType>): Error
  {
    if target.None? then TypeError("cannot convert " + Quote(CName(t)) + " to an address")
    else TypeError("cannot convert " + Quote(CName(t)) + " to " + Quote(CName(target.value)))
  }

  /** The pointer rule: a pointer's own type, None, or an automatic-cast target. */
  predicate PointerAccepts(own: CType, target: Option<CType>)
  {
    target.None? || target.value == own || AutomaticCasts(target.value)
  }

  /**
   * `h._convert_to_address(BClass)`: the address `h` stands for when it is used where `target`
   * (None for Python's None) is expected. The target is always a pointer or function type.
   */
  function ConvertToAddress(d: CData, target: Option<CType>): Result<int>
  {
    match d
    case PtrH(t, a, _) => if PointerAccepts(t, target) then Ok(a) else Err(CannotConvert(t, target))
    case FuncH(t, a, _) => if PointerAccepts(t, target) then Ok(a) else Err(CannotConvert(t, target))
    case AggH(t, a) =>
      if t.Array? then
        if PointerAccepts(PointerTypeOf(t.elem), target) then Ok(a) else Err(CannotConvert(t, target))
      else if target.Some? && target.value.Pointer? && target.value.item == t then Ok(a)
      else Err(CannotConvert(t, target))
    // the array rule reaches `ctypes.addressof` of the host string, which refuses it
    case TextH(t, _) =>
      if t.Array? && PointerAccepts(PointerTypeOf(t.elem), target) then Err(TypeError("invalid type"))
      else Err(CannotConvert(t, target))
    case _ => Err(CannotConvert(TypeOf(d), target))
  }

  /** `_cast_to_integer()`: the integer an explicit cast reads from a handle. */
  function CastToInteger(d: CData): Result<int>
  {
    match d
    case IntH(_, i) => Ok(i)
    case CharH(c) => Ok(c as int)
    case PtrH(_, a, _) => Ok(a)
    case FuncH(_, a, _) => Ok(a)
    case AggH(_, _) => ConvertToAddress(d, None)
    case TextH(_, _) => ConvertToAddress(d, None)
  }

  /** Python's `int(h)`: only primitive handles define `__int__`. */
  function IntOf(d: CData): Result<int>
  {
    match d
    case IntH(_, i) => Ok(i)
    case CharH(c) => Ok(c as int)
    case _ => Err(TypeError("int() argument must be a string or a number, not " + Quote(ClassName(TypeOf(d)))))
  }

  /**
   * Pointer and function handles convert to a target exactly when it is their own type, None or
   * an automatic-cast type; otherwise the error names both C types.
   */
  lemma PointerConversionRule(d: CData, target: CType)
    requires d.PtrH? || d.FuncH?
    ensures ConvertToAddress(d, Some(target)) == Ok(d.address) <==> target == d.t || AutomaticCasts(target)
    ensures ConvertToAddress(d, Some(target)).Err? <==> target != d.t && !AutomaticCasts(target)
    ensures ConvertToAddress(d, Some(target)).Err? ==>
      ConvertToAddress(d, Some(target)).error == TypeError("cannot convert " + Quote(CName(d.t)) + " to " + Quote(CName(target)))
  {
  }

  /**
   * The rule looks only at the target: any pointer converts to `void *`, but a `void *` handle
   * does not convert to `int *` (an explicit cast through an address is needed).
   */
  lemma AutomaticCastIsOneWay(a: int, k: PtrKind)
    ensures ConvertToAddress(PtrH(Pointer(Primitive(Int), k), a, None), Some(PointerTypeOf(Void))) == Ok(a)
    ensures ConvertToAddress(PtrH(PointerTypeOf(Void), a, None), Some(PointerTypeOf(IntType))).Err?
  {
  }

  /** A struct or union converts only to a pointer to its own type; an array also to None and automatic casts. */
  lemma AggregateConversionRule(d: CData, target: Option<CType>)
    requires d.AggH? && d.t.StructOrUnion?
    ensures ConvertToAddress(d, target).Ok? <==> target.Some? && target.value.Pointer? && target.value.item == d.t
  {
  }

  // ---- equality and hashing ----

  /** What `__hash__` hashes: the primitive class with the value, or a pointer's address. */
  datatype HashKey = ValueKey(cls: CType, v: Scalar) | AddressKey(a: int)

  function Hash(d: CData): HashKey
    requires !d.AggH? && !d.TextH?
  {
    match d
    case IntH(t, i) => ValueKey(if t.Enum? then IntType else t, IntS(i))
    case CharH(c) => ValueKey(CharType, CharS(c))
    case PtrH(_, a, _) => AddressKey(a)
    case FuncH(_, a, _) => AddressKey(a)
  }

  /** `__eq__` of primitive and pointer handles: the same class and the same value or address. */
  predicate Equals(a: CData, b: CData)
    requires !a.AggH? && !a.TextH?
  {
    match a
    case IntH(t, i) => b.IntH? && b.t == t && b.i == i
    case CharH(c) => b.CharH? && b.c == c
    case PtrH(t, x, _) => b.PtrH? && b.t == t && b.address == x
    case FuncH(t, x, _) => b.FuncH? && b.t == t && b.address == x
  }

  /**
   * Equality is (type, value): handles of different types are never equal; a pointer's kept-alive
   * string does not take part. Equal handles hash alike, as `__hash__` must.
   */
  lemma EqualsIsTypeAndValue(a: CData, b: CData)
    requires !a.AggH? && !a.TextH? && !b.AggH? && !b.TextH?
    ensures Equals(a, b) ==> TypeOf(a) == TypeOf(b)
    ensures Equals(a, b) ==> Hash(a) == Hash(b)
    ensures Equals(a, b) <==> Equals(b, a)
    ensures (a.IntH? || a.CharH?) ==> (Equals(a, b) <==> a == b)
    ensures a.PtrH? ==> (Equals(a, b) <==> b.PtrH? && a.t == b.t && a.address == b.address)
  {
  }
}
