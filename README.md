# ctypes backend of cffi, modelled in Dafny

This project models the C-emulation layer of cffi's ctypes backend (`ffi/backend_ctypes.py`).
The backend turns abstract C type descriptions into handle classes: primitives, pointers, arrays,
structs, unions, function pointers and enums. The model covers:

- how each kind of handle converts host values (`_to_ctypes`, `_from_ctypes`) and checks ranges;
- how handles cast (`_cast_from`) and convert to addresses (`_convert_to_address`, including the
  automatic-cast rule of `void *` and `char *`);
- how type names are built from `_reftypename` templates;
- how arrays and structs are built, filled and indexed;
- how pointers index, scale arithmetic and read C strings;
- how a function call marshals its arguments;
- the `<stdint.h>` name table (`nonstandard_integer_types`);
- how a loaded library reads and writes its variables.

Modelling choices:

- A C type is the value `CTypes.CType`. Two equal descriptors stand for the same class. The type
  registry outside the backend is assumed to build one class per descriptor.
- Native sizes are the parameter `CTypes.Platform`, because `ctypes.sizeof` depends on the platform.
- Integers keep C's silent wrap-around explicitly (`IntKinds.Wrap`). They are stored little-endian
  in `NativeMemory.Memory`, a map from addresses to bytes.
- Array and struct instances that own their storage are classes (`Arrays.CArray`,
  `Structs.CStruct`) whose element or field slots live in an `array`. Their setters update it in
  place.
- The `CLibrary` class holds the process memory its variables live in. `write_variable` copies
  bytes into it with a loop.
- Host Python 2 values are `Handles.Value`. `str` is `string`, and a byte is a `char` below 256.
- Every error the code raises is a `CErrors.Error` inside a `Result` or `Outcome`, with the
  message the code builds where it builds one.

Behaviours of the code that the model keeps as they are:

- Automatic casts are one-way. `_convert_to_address` looks only at the target type's
  `_automatic_casts`, so any pointer converts to `void *`, but a `void *` handle does not convert
  to `int *` (`Handles.AutomaticCastIsOneWay`).
- Enum decoding is positional. `_to_ctypes` maps names to values through `dict(zip(...))`, while
  `_from_ctypes` indexes the enumerator list by the stored value, so decoding inverts encoding
  only under C's default numbering (`Enums.EnumDecodeIsPositional`,
  `Enums.EnumRoundTripWithDefaultNumbering`).
- The bitfield overflow check is partial. Only the field setter checks the stored value and rolls
  back. The struct and union initializers write through the storage directly, so a bitfield there
  keeps only its low bits (`Structs.CStruct.AssignFields`).
- A cast to an enum type builds a plain `int` handle, because `_cast_from` is inherited from the
  `int` primitive (`Primitive.CastResultType`).
- A function type whose result is `void` cannot be built: `void` has no `_ctype`
  (`Functions.VoidResultIsRefused`). Likewise a struct or union with a `void` field or a flexible
  array member (`int d[]`) cannot be built, because `_regroup_fields` reads every field type's
  `_ctype` (`CTypes.FieldWithoutCtypeRejected`).
- A `char[N]` struct field reads as a copy, not a view. ctypes reads it through its string getter,
  so `s.name` and `p.name` wrap a detached host string holding the bytes before the first NUL
  (`Handles.TextH`; `Structs.CStruct.GetField`, `Structs.PtrGetField`). Array elements and pointer
  items of type `char[N]` stay views.
- The following come from ctypes, not from this file, and are modelled as ctypes behaves:
  - `c_char` accepts integers from 0 to 255 in casts;
  - when `_fields_` is set, ctypes refuses a bit width on a class that is not an integer class
    (`c_char`, pointers, arrays, aggregates) with `TypeError("bit fields not allowed for type
    <class>")`, then a width of zero or wider than the class with `ValueError("number of bits
    invalid for bit field")`;
  - a negative length for an unbounded array raises `ValueError`;
  - `in_dll` raises `ValueError` for a missing symbol, and returns a ctypes object (a `c_int`
    for an `int` variable), not a host value;
  - `addressof` raises `TypeError` for a value that is not a ctypes instance;
  - indexing a NULL ctypes pointer raises `ValueError("NULL pointer access")`, which reaches
    `p[i]`, `p[i] = v`, `str(p)`, `ffi.string` and the struct-pointer field shorthands.

## Model

| member | source | states |
|---|---|---|
| CText.ReplaceSingleAmp | ffi/backend_ctypes.py:22-24 | replacing the single ` &` placeholder of a template puts the replacement exactly where the placeholder was |
| CText.ReplaceAmpFree | ffi/backend_ctypes.py:22-24 | a string without `&` is unchanged by the placeholder replacement |
| CText.ReplaceOnlyOccurrence | ffi/backend_ctypes.py:628-631 | when the slot text occurs once, `index` finds it and `replace` swaps exactly that occurrence |
| CText.DecInjective | ffi/backend_ctypes.py:172-173 | different sizes print as different decimal strings, so `int%d_t` keys never collide |
| IntKinds.WrapFixesExactlyInRange | ffi/backend_ctypes.py:287 | `ctype(x).value == x` exactly when `x` is representable in the type's width and signedness |
| IntKinds.SignedByProbe | ffi/backend_ctypes.py:219 | the probe `ctype(-1).value == -1` is true exactly for signed kinds |
| IntKinds.WrapIdempotent | ffi/backend_ctypes.py:243 | the in-range reduction of a cast gives a value that a second reduction leaves alone |
| IntKinds.WrapCongruent | ffi/backend_ctypes.py:243 | the reduction of a cast differs from its source by a multiple of 2^bits |
| IntKinds.EncodeDecode | ffi/backend_ctypes.py:719-721 | the native byte image of a representable integer reads back as that integer |
| CTypes.SizeOf | ffi/backend_ctypes.py:50-52 | a class has a size exactly when it has a `_ctype`: void, unbounded arrays and fixed-length arrays of either have none |
| CTypes.RefNameShape | ffi/backend_ctypes.py:597-607 | every `_reftypename` template is a head, one placeholder and a tail, with no other `&` |
| CTypes.GetCNameInserts | ffi/backend_ctypes.py:22-24 | `_get_c_name(rep)` puts `rep` at the declarator position, and `_get_c_name()` is head plus tail |
| CTypes.PointerNameInsertsStar | ffi/backend_ctypes.py:340-341 | a pointer type's name puts ` *` at the item's declarator position |
| CTypes.ArrayNameInsertsBrackets | ffi/backend_ctypes.py:433-446 | an array type's name puts `[]` or `[n]` at the item's declarator position |
| CTypes.PointerTypeOf | ffi/backend_ctypes.py:320-325 | `new_pointer_type` gives a pointer to the item, with automatic casts exactly for `void` and `char` items |
| CTypes.CheckFieldNamesAccepts | ffi/backend_ctypes.py:553-556 | field accessors are added exactly when the names are pairwise distinct and none is already an attribute |
| CTypes.NewPointerType | ffi/backend_ctypes.py:415-428 | a pointer type is built for every item; only a struct item's field shorthands can be rejected |
| CTypes.NewStructOrUnionType | ffi/backend_ctypes.py:515-556 | an aggregate type is built exactly when it is opaque, or every field type has a `_ctype`, every bitfield is on an integer class with a width from 1 to its bits, and the field names are distinct and unreserved; the first field type without `_ctype` raises `AttributeError` first, then the first bitfield ctypes refuses raises its error, and only then are names checked |
| CTypes.FirstFieldError | ffi/backend_ctypes.py:528-530 | an error is found exactly when some field is refused by ctypes' layout, and it is the first such field's |
| CTypes.FieldError | ffi/backend_ctypes.py:528-530 | a field is refused exactly when it is a bitfield on a non-integer class (`TypeError` naming the ctypes class) or of a width outside 1 to its bits (`ValueError`) |
| CTypes.BadBitfieldRejected | ffi/backend_ctypes.py:528-530 | a `char` bitfield makes the type unbuildable with `TypeError` naming `c_char`, and a zero or too-wide integer bitfield with `ValueError`, when earlier fields are accepted |
| CTypes.FieldWithoutCtypeRejected | ffi/backend_ctypes.py:515-530 | a `void` field or a flexible array member such as `int d[]` makes the aggregate type unbuildable, with `AttributeError` |
| CTypes.ReservedFieldNameRejected | ffi/backend_ctypes.py:554-556 | a field named like an attribute of the class raises `ValueError` |
| Handles.PointerConversionRule | ffi/backend_ctypes.py:123-127 | a pointer converts to its own type, None or an automatic-cast type; otherwise the error names both C types |
| Handles.AutomaticCastIsOneWay | ffi/backend_ctypes.py:123-127 | `int *` converts to `void *`, but `void *` does not convert to `int *` |
| Handles.AggregateConversionRule | ffi/backend_ctypes.py:137-141 | a struct or union converts only to a pointer to its own type |
| Handles.EqualsIsTypeAndValue | ffi/backend_ctypes.py:268-276 | equality is same type and same value; it is symmetric; equal handles hash alike |
| Primitive.IntConversionIsRangeCheck | ffi/backend_ctypes.py:280-293 | an int converts exactly when it is in range; the overflow says "negative" exactly for a negative value with an unsigned type |
| Primitive.CharToCtypes | ffi/backend_ctypes.py:297-303 | `char` accepts exactly a one-character string or a `char` handle |
| Primitive.CastWrapsNeverOverflows | ffi/backend_ctypes.py:233-244 | a cast to an integer type reduces its source into range instead of failing, and the result converts unchanged |
| Enums.LookupFindsLastPair | ffi/backend_ctypes.py:663 | the name mapping gives the value paired with the last occurrence of a name, and nothing for other names |
| Enums.EnumConversionRule | ffi/backend_ctypes.py:670-677 | an unknown name raises `ValueError`; a representable integer is accepted verbatim |
| Enums.EnumFromCtypes | ffi/backend_ctypes.py:680-681 | decoding succeeds exactly for Python list indices of the enumerator list |
| Enums.EnumRoundTripWithDefaultNumbering | ffi/backend_ctypes.py:669-681 | with values 0..n-1 and distinct names, decoding the value a name encodes to gives the name back |
| Enums.EnumDecodeIsPositional | ffi/backend_ctypes.py:680-681 | with values 10 and 20, the value "A" encodes to does not decode |
| Pointers.NewAt | ffi/backend_ctypes.py:85-90 | `_new_pointer_at` builds a handle of the class at exactly that address |
| Pointers.NewPointer | ffi/backend_ctypes.py:346-361 | None gives the null pointer; a handle gives a pointer exactly when it converts to this pointer type, at the converted address; any other value (a string, except for `const char *`) raises `TypeError` naming the pointer type and the value's type; every result has the pointer's own type |
| Pointers.ConstCharFromString | ffi/backend_ctypes.py:351-359 | a `const char *` keeps a NUL-free string alive and refuses one with NUL; other pointers refuse strings |
| Pointers.NewPointerFromHandle | ffi/backend_ctypes.py:349-350 | a pointer is built from a handle exactly when the handle converts to the pointer type, at that address |
| Pointers.PtrCastFrom | ffi/backend_ctypes.py:73-83 | an explicit cast gives a handle of the target type |
| Pointers.CastIsUnchecked | ffi/backend_ctypes.py:73-83 | a cast of an integer or a pointer handle is never refused and keeps the address |
| Pointers.PtrFromCtypes | ffi/backend_ctypes.py:117-121 | a pointer read is None exactly for the null address |
| Pointers.PointerRoundTrip | ffi/backend_ctypes.py:109-121 | a non-null pointer survives conversion and read-back as an equal handle |
| Pointers.PointerArithmetic | ffi/backend_ctypes.py:363-377 | `p + n` and `p - n` move by n item sizes; `(p + n) - p == n`; `(p + n) - n` equals `p` |
| Pointers.VoidPointerHasNoArithmetic | ffi/backend_ctypes.py:335-339 | adding to a `void *` fails, because it has no item size |
| Convert.ToCtypes | ffi/backend_ctypes.py:7-9 | an accepted value fits the type; void, arrays, structs and unions are never converted by value |
| Convert.IntegerRoundTrip | ffi/backend_ctypes.py:280-315 | for every integer type, a value survives conversion and read-back exactly when it is in range; otherwise `OverflowError` |
| Convert.CharRoundTrip | ffi/backend_ctypes.py:297-315 | a one-character string survives `char` conversion and read-back; other lengths are refused |
| Convert.NewPrimitive | ffi/backend_ctypes.py:225-230 | None gives 0 or NUL; other values construct exactly when they convert |
| NativeMemory.Overwrite | ffi/backend_ctypes.py:719-721 | a `memmove` changes exactly the copied bytes, to the copied values, and maps no new address |
| NativeMemory.Store | ffi/backend_ctypes.py:383-384 | a store succeeds exactly when the value converts, and keeps the mapped addresses |
| NativeMemory.StoreLoadInteger | ffi/backend_ctypes.py:380-384 | a stored representable integer loads back |
| NativeMemory.StoreTouchesOnlyItsBytes | ffi/backend_ctypes.py:383-384 | a store changes no byte outside the item's `sizeof` bytes |
| NativeMemory.EncodeDecodeScalar | ffi/backend_ctypes.py:380-384 | every by-value item reads back from its stored bytes |
| PointerAccess.GetItem | ffi/backend_ctypes.py:380-393 | a `const char *` raises `IndexError` for a negative index or one past its kept string's NUL; a pointer whose item has no `_ctype` (its ctypes pointer is a `c_void_p`) raises `TypeError`; a NULL pointer raises `ValueError`; otherwise the item reads as what its bytes at the scaled address mean (`NativeMemory.ReadsAs`): an in-range integer, the byte, the enumerator, None or a pointer, or a view |
| PointerAccess.NullPointerIsRefused | ffi/backend_ctypes.py:380-384 | through a NULL pointer, reads and writes of convertible values raise ctypes' `ValueError` |
| NativeMemory.LoadReadsAs | ffi/backend_ctypes.py:380-381 | reading a type with a `_ctype` gives what its bytes mean, per kind of type |
| PointerAccess.SetItem | ffi/backend_ctypes.py:379-385 | a `const char *` refuses item assignment; otherwise the conversion error comes first, then a NULL pointer raises `ValueError`, and on success exactly the item's bytes take the converted value |
| PointerAccess.SetThenGet | ffi/backend_ctypes.py:380-384 | through a non-NULL integer pointer, a written representable integer reads back at the same index |
| PointerAccess.PointerToString | ffi/backend_ctypes.py:396-400 | `str(p)` of a `char *` returns the bytes before the first NUL, and a NULL pointer raises `ValueError` |
| PointerAccess.ConstCharIndexing | ffi/backend_ctypes.py:386-393 | indexing a `const char *` built from s reads s and its NUL at 0..len(s) and raises `IndexError` elsewhere |
| PointerAccess.KeptStringIsCString | ffi/backend_ctypes.py:396-400 | the kept string is NUL-terminated in memory, so `str(p)` gives it back |
| PointerAccess.String | ffi/backend_ctypes.py:692-697 | `ffi.string` accepts exactly `void *`/`char *` handles and reads exactly `length` bytes, NULs included; a positive length through a NULL pointer raises `ValueError` |
| PointerAccess.StringOfStoredString | ffi/backend_ctypes.py:692-697 | reading a string stored at a non-NULL address with its own length gives it back |
| Arrays.UnboundedLength | ffi/backend_ctypes.py:449-458 | an unbounded array's length comes from the integer, the characters (+1 for NUL for `char` only) or the items; an item without `_ctype` raises `AttributeError` for any integer or iterable, before the negative-length check |
| Arrays.FixedLength | ffi/backend_ctypes.py:449-463 | a fixed-length array keeps its declared length and accepts None, a string or a tuple |
| Arrays.FillStop | ffi/backend_ctypes.py:461-463 | the fill writes values in order up to the first index out of range or value that does not convert |
| Arrays.FillSucceeds | ffi/backend_ctypes.py:461-463 | a fill succeeds exactly when there are no more values than slots and every value converts |
| Arrays.ZeroedFits | ffi/backend_ctypes.py:459 | a freshly allocated element holds a valid zero value |
| Arrays.BeforeNul | ffi/backend_ctypes.py:479-485 | `str()` of a `char` array is a prefix with no NUL, followed by a NUL when shorter |
| Arrays.CharArrayString | ffi/backend_ctypes.py:479-485 | `str()` stops at the first NUL, or returns all characters when there is none |
| Arrays.CArray.constructor | ffi/backend_ctypes.py:459-460 | a new array is zeroed, with its declared type and address |
| Arrays.CArray.GetItem | ffi/backend_ctypes.py:468-471 | out-of-range indices raise `IndexError`; in range, an element reads as an in-range integer, its character, the enumerator at its position, None or a pointer at its address, or a view of an aggregate element at its offset |
| Arrays.CArray.SetItem | ffi/backend_ctypes.py:473-476 | index check, then conversion; on error nothing changes; on success exactly that element changes |
| Arrays.CArray.Fill | ffi/backend_ctypes.py:461-463 | elements before the stop hold the converted values and the rest are untouched; the outcome is the stop's error |
| Arrays.CArray.Plus | ffi/backend_ctypes.py:504-510 | `a + n` is a pointer to the element type, n elements past the array |
| Arrays.NewArray | ffi/backend_ctypes.py:449-463 | a new array has the shaped length and holds the converted initializer followed by zeros; otherwise the shaping error (including `AttributeError` for `void[]` or `int[][]`), or the fill's first error (`IndexError` for an excess value, the conversion error of a bad one) is raised |
| Arrays.DecayIsPointerArithmetic | ffi/backend_ctypes.py:492-510 | `a + n` equals `(a + 0) + n` as pointer arithmetic, and the array converts to that pointer type |
| Structs.StoredFits | ffi/backend_ctypes.py:567 | storing into a field keeps it within its type, bitfields included |
| Structs.BitfieldKeepsExactlyInRange | ffi/backend_ctypes.py:563-570 | a bitfield keeps a value unchanged exactly when it fits the field's width |
| Structs.InitStop | ffi/backend_ctypes.py:582-583 | the initializer converts values in order up to the first that does not convert |
| Structs.InitStopsAtFirstBadValue | ffi/backend_ctypes.py:582-583 | the initializer gets through exactly when every value converts |
| Structs.CStruct.constructor | ffi/backend_ctypes.py:542-543 | a new instance is zeroed: a `char[N]` field holds `N` NULs, and every other aggregate field is a view at its offset |
| Structs.CStruct.GetField | ffi/backend_ctypes.py:557-558 | a field reads as an in-range integer, its character, the enumerator at its position, None or a pointer at its address, or a view of an aggregate field at its offset; a `char[N]` field reads as a detached copy of its bytes before the first NUL |
| Structs.CStruct.SetField | ffi/backend_ctypes.py:559-570 | a write succeeds exactly when the value converts and fits; a failed bitfield write restores the old value and raises `OverflowError` |
| Structs.CStruct.InitStruct | ffi/backend_ctypes.py:577-583 | too many values raise `ValueError` before any write; otherwise fields take the values in order, truncated for bitfields |
| Structs.CStruct.AssignFields | ffi/backend_ctypes.py:582-583 | each field up to the first bad value holds its converted value, truncated for bitfields without any check |
| Structs.CStruct.InitUnion | ffi/backend_ctypes.py:589-592 | a union initializer writes the first field; a union without fields raises `IndexError` |
| Structs.NewStructOrUnion | ffi/backend_ctypes.py:538-546 | an opaque type raises `TypeError`; without initializer the instance is zeroed; a struct initializer that is not iterable or has more values than fields fails, otherwise the instance is built exactly when every value converts and its slots are the zeroed ones with the values stored in order; a union initializer goes to the first field (`IndexError` without fields) and succeeds exactly when it converts |
| Structs.PtrSetField | ffi/backend_ctypes.py:426-427 | `p.name = v` raises `ValueError` for a NULL pointer before converting; otherwise it succeeds exactly when v converts, and then exactly the field's bytes change |
| Structs.PtrFieldRoundTrip | ffi/backend_ctypes.py:424-427 | through a non-NULL struct pointer, an integer field written with a representable value reads it back |
| Structs.PtrGetField | ffi/backend_ctypes.py:424-425 | `p.name` raises `ValueError` for a NULL pointer; otherwise it reads what the bytes at the struct's address plus the field offset mean as the field type, except that a `char[N]` field reads as a detached copy of those bytes before the first NUL |
| CTypes.FirstWithoutCtype | ffi/backend_ctypes.py:604-606 | an error is found exactly when some type has no `_ctype`, and it names the first such type |
| Functions.NewFunctionType | ffi/backend_ctypes.py:604-606 | a function type is built exactly when the result and all argument types have a `_ctype`; the result is checked first |
| Functions.VoidResultIsRefused | ffi/backend_ctypes.py:604 | a `void` result raises `AttributeError` |
| Functions.InsertNameShape | ffi/backend_ctypes.py:625-632 | the symbol name replaces the `(* &)` slot, after a space unless the text before it ends in a space, `)` or `*` |
| Functions.ReprInsertsName | ffi/backend_ctypes.py:625-632 | a named function shows as result name, name, then parameter list |
| Functions.ArgToCtypes | ffi/backend_ctypes.py:404-408 | a `const char *` parameter passes a host string as is; otherwise an argument converts exactly when the type's conversion does |
| Functions.MarshalDeclared | ffi/backend_ctypes.py:646-648 | declared arguments convert exactly when each converts, position by position |
| Functions.MarshalExtras | ffi/backend_ctypes.py:649-654 | variadic extras convert exactly when each is a handle whose own type converts it, and extra `j` becomes its own type's `_arg_to_ctypes` of it |
| Functions.Marshal | ffi/backend_ctypes.py:639-654 | a wrong argument count raises `AssertionError`; marshalling succeeds exactly when the count is right, every declared argument converts through its parameter type and every extra one is a handle its own type converts; the result holds one native argument per argument, each that conversion |
| Functions.ArityRule | ffi/backend_ctypes.py:640-645 | a wrong argument count fails the arity assertion before anything converts |
| Functions.ExtrasFirstErrorWins | ffi/backend_ctypes.py:650-654 | the first failing extra argument decides the error |
| Functions.VariadicExtraMustBeCData | ffi/backend_ctypes.py:650-653 | the first non-handle extra raises `TypeError` numbered `1 + len(BArgs) + i` |
| Functions.MarshalCall | ffi/backend_ctypes.py:639-654 | the call's conversion loops compute exactly the marshalled arguments |
| Functions.ConvertDeclared | ffi/backend_ctypes.py:646-648 | the loop over declared arguments computes their marshalling |
| Functions.ConvertExtras | ffi/backend_ctypes.py:649-654 | the loop over extras computes their marshalling |
| Functions.ExtendDeclaredError | ffi/backend_ctypes.py:646-648 | once a prefix of declared arguments fails, the whole list fails with the same error |
| Backend.KeysOfOneSize | ffi/backend_ctypes.py:172-182 | the `int%d_t` and `uint%d_t` keys of a size differ from each other and from the fixed names |
| Backend.KeysOfTwoSizes | ffi/backend_ctypes.py:172-173 | keys from different sizes differ |
| Backend.StepEntry | ffi/backend_ctypes.py:171-182 | one iteration writes exactly the keys its size selects, with signed/unsigned values, and keeps the rest |
| Backend.NonstandardIntegerTypes | ffi/backend_ctypes.py:168-183 | the loop over `long long` down to `char` computes the table |
| Backend.TableIsLastEntry | ffi/backend_ctypes.py:168-183 | every key holds what the last type writing it wrote |
| Backend.LastOfSize | ffi/backend_ctypes.py:170-171 | the last visited type of a size has that size, and there is none exactly when no type has it |
| Backend.IntKeyIsLastOfSize | ffi/backend_ctypes.py:170-173 | `int%d_t`/`uint%d_t` exist exactly for sizes some type has, and name the last such type |
| Backend.PointerKeysAreLastOfSize | ffi/backend_ctypes.py:174-177 | `intptr_t`/`uintptr_t` name the last pointer-sized type, and `ptrdiff_t` equals `intptr_t` |
| Backend.SizeKeysAreLastOfSize | ffi/backend_ctypes.py:178-182 | `size_t`/`ssize_t` and `wchar_t` name the last type of their sizes |
| Backend.TableIntKeys | ffi/backend_ctypes.py:172-173 | the table maps `int%d_t` and `uint%d_t` to the last type of that size |
| Backend.TablePointerKeys | ffi/backend_ctypes.py:174-177 | the table maps the pointer-sized names to the last pointer-sized type |
| Backend.TableSizeKeys | ffi/backend_ctypes.py:178-182 | the table maps `size_t`, `ssize_t` and `wchar_t` to the last type of their sizes |
| Backend.LP64LastOfSize | ffi/backend_ctypes.py:170-171 | on LP64, `long` shadows `long long` for 8 bytes, and `int`, `short` and `char` own 4, 2 and 1 |
| Library.CLibrary.constructor | ffi/backend_ctypes.py:702-704 | a library binds its symbol table and memory |
| Library.CLibrary.LoadFunction | ffi/backend_ctypes.py:706-710 | a function loads exactly for an exported non-null symbol, as a handle at its address named after it |
| Library.CLibrary.ReadVariable | ffi/backend_ctypes.py:712-714 | as intended: a type without `_ctype` raises `AttributeError`, a missing symbol `ValueError`; an integer variable reads as the in-range integer its bytes encode, a `char` as its byte, an enum as the enumerator at that position, a pointer as None for address 0 and otherwise a handle at the stored address, an array or struct as a view of the variable |
| Library.CLibrary.ReadVariableAsWritten | ffi/backend_ctypes.py:712-714 | as written, integer and `char` variables come back as the ctypes object itself and enum variables raise `TypeError`; other types read as intended |
| Library.CLibrary.IntegerReadIsRaw | ffi/backend_ctypes.py:712-714 | as written, an integer variable comes back as the ctypes object holding the integer the intended read returns |
| Library.CLibrary.EnumReadRaises | ffi/backend_ctypes.py:712-714 | as written, an enum variable holding an enumerator's index raises `TypeError` where the intended read returns that enumerator |
| Library.CLibrary.WriteVariable | ffi/backend_ctypes.py:716-721 | conversion, then lookup; on error nothing changes; on success exactly the variable's bytes change and read back as the converted value |
| Library.CLibrary.Memmove | ffi/backend_ctypes.py:719-721 | the byte-copy loop yields the overwritten memory |
| Library.CLibrary.WriteVariableAsWritten | ffi/backend_ctypes.py:716-721 | as written, a write succeeds only for pointer and function types |
| Library.CLibrary.IntegerWriteRaises | ffi/backend_ctypes.py:716-721 | as written, writing a representable integer to an integer variable raises `TypeError` |
| Library.CLibrary.WrittenReadsBack | ffi/backend_ctypes.py:716-721 | copied bytes of a non-address value load back as that value |

## Findings

| source | as written | input that shows it | evidently intended | confidence | as-written member | corrected member |
|---|---|---|---|---|---|---|
| ffi/backend_ctypes.py:716-721 | `write_variable` applies `ctypes.addressof` to the result of `_to_ctypes`, which for integer, `char` and enum types is a host int or str | `write_variable(<int type>, "x", 5)` on a library exporting `x`: the value converts, then `addressof(5)` raises `TypeError` | the converted value's `sizeof(T)` bytes are copied over the variable | high (not executed) | Library.CLibrary.IntegerWriteRaises | Library.CLibrary.WriteVariable |
| ffi/backend_ctypes.py:712-714 | `read_variable` passes the object `in_dll` returns to `_from_ctypes`, which for integer and `char` types returns its argument unchanged (313-315) and for enum types indexes the enumerator list with it (680-681) | `read_variable(<int type>, "x")` on a library exporting `x`: the result is a `c_int` object, not an int; for an enum type, `enumerators[c_int(0)]` raises `TypeError` | the variable's value as a host value, as field and item reads give it (ctypes returns host values from those) | high (not executed) | Library.CLibrary.IntegerReadIsRaw | Library.CLibrary.ReadVariable |

## Left out

- Floating-point primitives (`float`, `double`; lines 213-215, 260-264, 305-311): no floating-point model.
- `load_library` and `find_library` (lines 185-195): file-system and dynamic-loader I/O. A library is built directly from its symbol table.
- The foreign call itself and `BResult._from_ctypes` of its result (lines 655-656): native code. Marshalling up to the call is modelled.
- Function handles built from host callables, and their callbacks (lines 611-623, 634-637): host closures and their keepalive.
- `get_errno` and `set_errno` (lines 686-690): process-global state.
- `_alignment`, `_get_size_of_instance` and `_offsetof` (lines 54-55, 64-66, 547-549): struct layout is computed by ctypes, so field offsets and struct sizes are inputs.
- `_fix_class`, `__repr__` and `_get_own_repr` strings (lines 26-40, 132-135, 409-413, 487-490): text only, except the function-name insertion of lines 625-632, which is modelled.
- `__nonzero__`, `__int__` and `__str__` of primitives (lines 246-266): `int()` of a handle is modelled only as `Handles.IntOf`.
- `new_void_type` (lines 197-206): void is the descriptor `CType.Void`.
- Union storage aliasing: a union's slots are kept separately, so writing one member does not change the bytes another member reads.
- Aliasing between class-based instances and `NativeMemory.Memory`: an owned array or struct keeps its elements in its own slots, not in the shared byte map.
- Big-endian platforms: memory images are little-endian.
- Python's own class attributes (`__dict__`, `__module__`, ...) are the parameter `hostAttrs` of the type constructors.
- Bitfields read or written through a struct pointer: pointer field access covers plain fields only.
- Iterating a cdata array as an initializer: initializers are host strings and tuples.
- Attribute access by field name is field access by index.
- Operations on the detached `char[N]` handle a struct field read returns (`Handles.TextH`): `len()`, indexing and `str()` act on its host string and are not modelled; only its conversion to an address (refused by `addressof`) is.
- Library.CLibrary.ReadVariable: assumes the symbol's storage is at least as large as the declared type, as C does.
- Library.CLibrary.WriteVariable: states the read-back only for non-address values, because an address beyond the pointer width is not reduced by the model.
- Pointer addresses are not reduced to the pointer width when a host integer is cast to a pointer.
