/** Pointer types: construction, casts, conversion to an address, arithmetic and equality. */
module Pointers {
  import opened CErrors
  import opened CText
  import opened IntKinds
  import opened CTypes
  import opened Handles

  /** `_new_pointer_at(address)`: a new handle of the class at the address, keeping nothing alive. */
  function NewAt(t: CType, address: int): (d: CData)
    requires t.Pointer? || t.Function?
    ensures TypeOf(d) == t && (d.PtrH? || d.FuncH?) && d.address == address
  {
    if t.Function? then FuncH(t, address, None) else PtrH(t, address, None)
  }

  /**
   * `CTypesPtr.__init__`: None is the null pointer; a handle gives the address it converts to for
   * this type; a `const char *` accepts a string without NUL, placed by ctypes at `stringAddress`
   * and kept alive by the pointer.
   */
  function NewPointer(t: CType, init: Value, stringAddress: int): (r: Result<CData>)
    requires t.Pointer?
    ensures r.Ok? ==> r.value.PtrH? && r.value.t == t
    ensures init.NoneV? ==> r == Ok(PtrH(t, 0, None))
    ensures init.CDataV? ==> (r.Ok? <==> ConvertToAddress(init.d, Some(t)).Ok?)
    ensures init.CDataV? && r.Ok? ==> r.value.address == ConvertToAddress(init.d, Some(t)).value && r.value.keepalive.None?
    ensures !init.NoneV? && !init.CDataV? && !(init.StrV? && t.kind == ConstCharP) ==>
      r == Err(TypeError(Quote(CName(t)) + " expected, got " + Quote(TypeName(init))))
  {
    match init
    case NoneV => Ok(PtrH(t, 0, None))
    case CDataV(d) =>
      var a :- ConvertToAddress(d, Some(t));
      Ok(PtrH(t, a, None))
    case StrV(s) =>
      if t.kind != ConstCharP then Err(TypeError(Quote(CName(t)) + " expected, got " + Quote(TypeName(init))))
      else if '\0' in s then Err(ValueError("string contains \\x00 characters"))
      else Ok(PtrH(t, stringAddress, Some(s)))
    case _ => Err(TypeError(Quote(CName(t)) + " expected, got " + Quote(TypeName(init))))
  }

  /**
   * A `const char *` built from a string keeps exactly that string alive, and is refused for a
   * string holding a NUL (C strings cannot represent one); other pointer kinds refuse strings.
   */
  lemma ConstCharFromString(t: CType, s: string, at: int)
    requires t.Pointer?
    ensures t.kind == ConstCharP && '\0' !in s ==> NewPointer(t, StrV(s), at) == Ok(PtrH(t, at, Some(s)))
    ensures t.kind == ConstCharP && '\0' in s ==> NewPointer(t, StrV(s), at) == Err(ValueError("string contains \\x00 characters"))
    ensures t.kind != ConstCharP ==> NewPointer(t, StrV(s), at).Err? && NewPointer(t, StrV(s), at).error.TypeError?
  {
  }

  /** Building a pointer from a handle succeeds exactly when the handle converts to this pointer type. */
  lemma NewPointerFromHandle(t: CType, d: CData, at: int)
    requires t.Pointer?
    ensures NewPointer(t, CDataV(d), at).Ok? <==> ConvertToAddress(d, Some(t)).Ok?
    ensures NewPointer(t, CDataV(d), at).Ok? ==> NewPointer(t, CDataV(d), at).value.address == ConvertToAddress(d, Some(t)).value
  {
  }

  /** `_cast_from` of pointer and function types: None, a handle's integer or a host integer, as an address. */
  function PtrCastFrom(t: CType, source: Value): (r: Result<CData>)
    requires t.Pointer? || t.Function?
    ensures r.Ok? ==> TypeOf(r.value) == t
  {
    var a :- (match source
      case NoneV => Ok(0)
      case CDataV(d) => CastToInteger(d)
      case IntV(i) => Ok(i)
      case _ => Err(TypeError("bad type for cast to " + ClassRepr(t) + ": " + Quote(TypeName(source)))));
    Ok(NewAt(t, a))
  }

  /** An explicit cast of a host integer gives a pointer at exactly that address, whatever the type. */
  lemma CastIsUnchecked(t: CType, address: int, p: CData)
    requires t.Pointer? && (p.PtrH? || p.FuncH?)
    ensures PtrCastFrom(t, IntV(address)) == Ok(NewAt(t, address))
    ensures PtrCastFrom(t, CDataV(p)) == Ok(NewAt(t, p.address))
  {
  }

  /** `_to_ctypes` of pointer and function types: None is address 0; otherwise the value's address for this type. */
  function PtrToCtypes(t: CType, value: Value): Result<int>
  {
    match value
    case NoneV => Ok(0)
    case CDataV(d) => ConvertToAddress(d, Some(t))
    case _ => Err(AttributeError(Quote(TypeName(value)) + " object has no attribute '_convert_to_address'"))
  }

  /** `_from_ctypes` of pointer and function types: the null pointer reads as None. */
  function PtrFromCtypes(t: CType, address: int): (v: Value)
    requires t.Pointer? || t.Function?
    ensures v.NoneV? <==> address == 0
  {
    if address == 0 then NoneV else CDataV(NewAt(t, address))
  }

  /** A pointer of type `t` passes through its type's conversion and back as an equal handle. */
  lemma PointerRoundTrip(p: CData)
    requires p.PtrH? && p.t.Pointer? && p.address != 0
    ensures PtrToCtypes(p.t, CDataV(p)) == Ok(p.address)
    ensures PtrFromCtypes(p.t, p.address).CDataV? && Equals(PtrFromCtypes(p.t, p.address).d, p)
  {
  }

  /** `_bitem_size`: the size of the item, absent when the item's class has no `_ctype` (void). */
  function ItemSize(plat: Platform, t: CType): Option<nat>
    requires t.Pointer?
  {
    SizeOf(plat, t.item)
  }

  function NoItemSize(t: CType): Error
  {
    AttributeError(Quote(ClassName(t)) + " object has no attribute '_bitem_size'")
  }

  /** `p + other`: an integer moves the address by that many items. */
  function Add(plat: Platform, p: CData, other: Value): Result<CData>
    requires p.PtrH? && p.t.Pointer?
  {
    match other
    case IntV(n) =>
      (match ItemSize(plat, p.t)
       case None => Err(NoItemSize(p.t))
       case Some(size) => Ok(NewAt(p.t, p.address + n * size)))
    case _ => Err(TypeError("unsupported operand type(s) for +"))
  }

  /** `p - other`: an integer moves back by that many items; a pointer of the same type gives the item distance. */
  function Sub(plat: Platform, p: CData, other: Value): Result<Value>
    requires p.PtrH? && p.t.Pointer?
  {
    match other
    case IntV(n) =>
      (match ItemSize(plat, p.t)
       case None => Err(NoItemSize(p.t))
       case Some(size) => Ok(CDataV(NewAt(p.t, p.address - n * size))))
    case CDataV(q) =>
      if TypeOf(q) == p.t && q.PtrH? then
        (match ItemSize(plat, p.t)
         case None => Err(NoItemSize(p.t))
         case Some(size) => if size == 0 then Err(ZeroDivisionError) else Ok(IntV(FloorDiv(p.address - q.address, size))))
      else Err(TypeError("unsupported operand type(s) for -"))
    case _ => Err(TypeError("unsupported operand type(s) for -"))
  }

  /** Python's `//`, which rounds toward minus infinity. */
  function FloorDiv(a: int, b: int): int
    requires b != 0
  {
    if 0 < b then a / b
    else if a % b == 0 then a / b else a / b - 1
  }

  lemma FloorDivExact(n: int, size: int)
    requires 0 < size
    ensures FloorDiv(n * size, size) == n
  {
    ModUnique(n * size, size, n, 0);
  }

  /**
   * Pointer arithmetic is scaled by the item size: `(p + n) - p == n` and `(p + n) - n` is equal to
   * `p` (same type, same address), for items of non-zero size.
   */
  lemma PointerArithmetic(plat: Platform, p: CData, n: int)
    requires p.PtrH? && p.t.Pointer? && ItemSize(plat, p.t).Some?
    ensures Add(plat, p, IntV(n)).Ok?
    ensures Add(plat, p, IntV(n)).value.address == p.address + n * ItemSize(plat, p.t).value
    ensures Sub(plat, p, IntV(n)).Ok? && Sub(plat, p, IntV(n)).value.CDataV?
    ensures Sub(plat, p, IntV(n)).value.d.address == p.address - n * ItemSize(plat, p.t).value
    ensures ItemSize(plat, p.t).value > 0 ==> Sub(plat, Add(plat, p, IntV(n)).value, CDataV(p)) == Ok(IntV(n))
    ensures Sub(plat, Add(plat, p, IntV(n)).value, IntV(n)).Ok?
    ensures Equals(Sub(plat, Add(plat, p, IntV(n)).value, IntV(n)).value.d, p)
  {
    var size := ItemSize(plat, p.t).value;
    var q := Add(plat, p, IntV(n)).value;
    assert q.address - p.address == n * size;
    if size > 0 {
      FloorDivExact(n, size);
    }
  }

  /** Arithmetic on a pointer to an item without a size (a `void *`) raises `AttributeError`. */
  lemma VoidPointerHasNoArithmetic(plat: Platform, a: int, n: int)
    ensures Add(plat, PtrH(PointerTypeOf(Void), a, None), IntV(n)).Err?
  {
  }
}
