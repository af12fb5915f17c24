/** Function pointer types: construction, the `repr` name insertion and the marshalling of call arguments. */
module Functions {
  import opened CErrors
  import opened CText
  import opened CTypes
  import opened Handles
  import opened Convert

  /**
   * `new_function_type`: building the ctypes prototype reads `_ctype` of the result type, then of
   * each argument type; `void` and unbounded arrays have none and raise `AttributeError`.
   */
  function NewFunctionType(args: seq<CType>, result: CType, varargs: bool): (r: Result<CType>)
    ensures r.Ok? <==> HasCtype(result) && forall i :: 0 <= i < |args| ==> HasCtype(args[i])
    ensures r.Ok? ==> r.value == Function(args, result, varargs)
    ensures !HasCtype(result) ==> r == Err(NoCtype(result))
  {
    if !HasCtype(result) then Err(NoCtype(result))
    else match FirstWithoutCtype(args)
      case Some(e) => Err(e)
      case None => Ok(Function(args, result, varargs))
  }

  /** A function returning `void` cannot be described: its type construction raises `AttributeError`. */
  lemma VoidResultIsRefused(args: seq<CType>, varargs: bool)
    ensures NewFunctionType(args, Void, varargs) == Err(NoCtype(Void))
  {
  }

  const Slot: string := "(* &)"

  /**
   * The name `repr` shows for a function handle: with a symbol name, the name goes in place of
   * `(* &)` in the template; without one, the plain C name.
   */
  function ReprName(t: CType, name: Option<string>): string
    requires t.Function?
  {
    if name.Some? && name.value != "" then InsertName(RefName(t), name.value) else CName(t)
  }

  /**
   * The name in place of the slot, after a space unless the character before the slot is a space,
   * `)` or `*` (Python's index -1 wraps to the last character when the slot comes first).
   */
  function InsertName(ref: string, name: string): string
  {
    var i := IndexOf(ref, Slot);
    var before := if 0 < i <= |ref| then ref[i - 1] else if ref != "" then ref[|ref| - 1] else ' ';
    ReplaceAll(ref, Slot, if before in " )*" then name else " " + name)
  }

  /** In a template `a + (* &) + tail` whose other parts hold no `&`, the name replaces the slot. */
  lemma InsertNameShape(a: string, tail: string, name: string)
    requires AmpFree(a) && AmpFree(tail) && tail != "" && tail[|tail| - 1] == ')'
    ensures InsertName(a + Slot + tail, name) == a + (if a == "" || a[|a| - 1] in " )*" then "" else " ") + name + tail
  {
    var ref := a + Slot + tail;
    var sp := if a == "" || a[|a| - 1] in " )*" then "" else " ";
    var shown := if sp == "" then name else " " + name;
    assert shown == sp + name;
    SlotHasOneAmp();
    ReplaceOnlyOccurrence(a, Slot, tail, shown, 3);
    if a != "" {
      assert ref[|a| - 1] == a[|a| - 1];
    } else {
      assert ref[|ref| - 1] == tail[|tail| - 1];
    }
    assert InsertName(ref, name) == a + shown + tail;
    ConcatRegroup(a, sp, name, tail);
  }

  lemma ConcatRegroup(a: string, b: string, c: string, d: string)
    ensures a + (b + c) + d == a + b + c + d
  {
  }

  /** The slot's only `&` is its character at index 3. */
  lemma SlotHasOneAmp()
    ensures |Slot| == 5 && Slot[3] == '&'
    ensures forall j :: 0 <= j < |Slot| && j != 3 ==> Slot[j] != Slot[3]
  {
  }

  /**
   * A named function handle shows as its result type's name, the symbol name (after a space when
   * the result name does not end in a space, `)` or `*`), then the parameter list.
   */
  lemma ReprInsertsName(args: seq<CType>, result: CType, varargs: bool, name: string)
    requires name != "" && TagsAmpFree(Function(args, result, varargs))
    ensures var r := CName(result);
      ReprName(Function(args, result, varargs), Some(name)) ==
      r + (if r == "" || r[|r| - 1] in " )*" then "" else " ") + name + "(" + Join(ArgNames(Function(args, result, varargs)), ", ") + ")"
  {
    var t := Function(args, result, varargs);
    var r := CName(result);
    var params := Join(ArgNames(t), ", ");
    var sp := if r == "" || r[|r| - 1] in " )*" then "" else " ";
    FunctionRefName(t);
    FunctionNamesAmpFree(args, result, varargs);
    InsertNameShape(r, "(" + params + ")", name);
    ConcatRegroup(r + sp + name, "(", params, ")");
  }

  /** A function type's template: its result name, the slot, then the parameter list. */
  lemma FunctionRefName(t: CType)
    requires t.Function?
    ensures RefName(t) == CName(t.result) + Slot + ("(" + Join(ArgNames(t), ", ") + ")")
  {
    FunctionTemplate(CName(t.result), Join(ArgNames(t), ", "));
  }

  /** A function type's template is its result name, the slot, then the parameter list. */
  lemma FunctionTemplate(r: string, params: string)
    ensures r + "(*" + Amp + ")(" + params + ")" == r + Slot + ("(" + params + ")")
  {
    assert "(*" + Amp + ")(" == Slot + "(";
  }

  lemma FunctionNamesAmpFree(args: seq<CType>, result: CType, varargs: bool)
    requires TagsAmpFree(Function(args, result, varargs))
    ensures AmpFree(CName(result))
    ensures AmpFree("(" + Join(ArgNames(Function(args, result, varargs)), ", ") + ")")
  {
    var t := Function(args, result, varargs);
    RefNameShape(t);
    var r := CName(result);
    var h := NameHead(t);
    assert h == r + "(*";
    forall k | 0 <= k < |r| ensures r[k] != '&' {
      assert h[k] == r[k];
    }
    var tl := NameTail(t);
    var tail := "(" + Join(ArgNames(t), ", ") + ")";
    assert tl == ")" + tail;
    forall k | 0 <= k < |tail| ensures tail[k] != '&' {
      assert tl[k + 1] == tail[k];
    }
  }

  /** What a call passes to the foreign function for one argument. */
  datatype NativeArg = Native(s: Scalar) | CString(chars: string)

  /**
   * `_arg_to_ctypes` of a type: its conversion, except that a `const char *` parameter takes a
   * host string as it is (ctypes passes a pointer to its characters).
   */
  function ArgToCtypes(plat: Platform, t: CType, v: Value): (r: Result<NativeArg>)
    ensures t == ConstCharPointerType && v.StrV? ==> r == Ok(CString(v.s))
    ensures !(t == ConstCharPointerType && v.StrV?) ==> (r.Ok? <==> ToCtypes(plat, t, v).Ok?)
  {
    if t == ConstCharPointerType && v.StrV? then Ok(CString(v.s))
    else
      var s :- ToCtypes(plat, t, v);
      Ok(Native(s))
  }

  /** The declared arguments, each through its parameter type, left to right; the first error wins. */
  function MarshalDeclared(plat: Platform, types: seq<CType>, args: seq<Value>): (r: Result<seq<NativeArg>>)
    requires |types| == |args|
    ensures r.Ok? <==> forall j :: 0 <= j < |args| ==> ArgToCtypes(plat, types[j], args[j]).Ok?
    ensures r.Ok? ==> |r.value| == |args| && forall j :: 0 <= j < |args| ==> r.value[j] == ArgToCtypes(plat, types[j], args[j]).value
    decreases |args|
  {
    if args == [] then Ok([])
    else
      var n := |args| - 1;
      var prev :- MarshalDeclared(plat, types[..n], args[..n]);
      var x :- ArgToCtypes(plat, types[n], args[n]);
      Ok(prev + [x])
  }

  function NotCData(position: nat): Error
  {
    TypeError("argument " + Dec(position) + " needs to be a cdata")
  }

  /** The extra arguments of a variadic call: each must be a handle, passed through its own type. */
  function MarshalExtras(plat: Platform, declared: nat, extras: seq<Value>): (r: Result<seq<NativeArg>>)
    ensures r.Ok? <==> forall j :: 0 <= j < |extras| ==>
      extras[j].CDataV? && ArgToCtypes(plat, TypeOf(extras[j].d), extras[j]).Ok?
    ensures r.Ok? ==> |r.value| == |extras| && forall j :: 0 <= j < |extras| ==>
      extras[j].CDataV? && r.value[j] == ArgToCtypes(plat, TypeOf(extras[j].d), extras[j]).value
    decreases |extras|
  {
    if extras == [] then Ok([])
    else
      var n := |extras| - 1;
      var prev :- MarshalExtras(plat, declared, extras[..n]);
      var x :- (if extras[n].CDataV? then ArgToCtypes(plat, TypeOf(extras[n].d), extras[n]) else Err(NotCData(1 + declared + n)));
      Ok(prev + [x])
  }

  /** The arity assertion of `__call__`: exactly the declared count, or at least it for a variadic function. */
  predicate ArityOk(ft: CType, count: nat)
    requires ft.Function?
  {
    if ft.varargs then |ft.args| <= count else |ft.args| == count
  }

  /**
   * The arguments `__call__` hands to the foreign function: exactly the declared number for a
   * non-variadic function and at least that many for a variadic one (else the `assert` fails);
   * the declared ones are converted first, then the extra ones.
   */
  function Marshal(plat: Platform, ft: CType, args: seq<Value>): (r: Result<seq<NativeArg>>)
    requires ft.Function?
    ensures !ArityOk(ft, |args|) ==> r == Err(AssertionError)
    ensures r.Ok? <==> (
      ArityOk(ft, |args|) &&
      (forall j :: 0 <= j < |ft.args| ==> ArgToCtypes(plat, ft.args[j], args[j]).Ok?) &&
      (forall j :: |ft.args| <= j < |args| ==> args[j].CDataV? && ArgToCtypes(plat, TypeOf(args[j].d), args[j]).Ok?))
    ensures r.Ok? ==> |r.value| == |args|
    ensures r.Ok? ==> forall j :: 0 <= j < |ft.args| ==> r.value[j] == ArgToCtypes(plat, ft.args[j], args[j]).value
    ensures r.Ok? ==> forall j :: |ft.args| <= j < |args| ==>
      args[j].CDataV? && r.value[j] == ArgToCtypes(plat, TypeOf(args[j].d), args[j]).value
  {
    var n := |ft.args|;
    if ft.varargs then
      if |args| < n then Err(AssertionError)
      else
        var fixed :- MarshalDeclared(plat, ft.args, args[..n]);
        var extra :- MarshalExtras(plat, n, args[n..]);
        Ok(fixed + extra)
    else if |args| != n then Err(AssertionError)
    else MarshalDeclared(plat, ft.args, args)
  }

  /** A call with the wrong number of arguments fails its arity assertion before anything is converted. */
  lemma ArityRule(plat: Platform, ft: CType, args: seq<Value>)
    requires ft.Function?
    ensures !ft.varargs && |args| != |ft.args| ==> Marshal(plat, ft, args) == Err(AssertionError)
    ensures ft.varargs && |args| < |ft.args| ==> Marshal(plat, ft, args) == Err(AssertionError)
    ensures Marshal(plat, ft, args).Ok? ==> (if ft.varargs then |ft.args| <= |args| else |ft.args| == |args|)
  {
  }

  /** Once a prefix of the extra arguments fails, the whole list fails with the same error. */
  lemma {:induction false} ExtrasFirstErrorWins(plat: Platform, declared: nat, extras: seq<Value>, k: nat)
    requires k <= |extras| && MarshalExtras(plat, declared, extras[..k]).Err?
    ensures MarshalExtras(plat, declared, extras) == MarshalExtras(plat, declared, extras[..k])
    decreases |extras|
  {
    if k < |extras| {
      var n := |extras| - 1;
      PrefixOfPrefix(extras, n, k);
      ExtrasFirstErrorWins(plat, declared, extras[..n], k);
      ExtrasErrorPropagates(plat, declared, extras);
    } else {
      PrefixOfPrefix(extras, k, k);
    }
  }

  /** An error in all but the last extra is the error of the whole list. */
  lemma ExtrasErrorPropagates(plat: Platform, declared: nat, extras: seq<Value>)
    requires extras != [] && MarshalExtras(plat, declared, extras[..|extras| - 1]).Err?
    ensures MarshalExtras(plat, declared, extras) == MarshalExtras(plat, declared, extras[..|extras| - 1])
  {
  }

  /**
   * In a variadic call whose declared arguments convert, the first extra argument that is not a
   * handle, at index `i` of the extras, raises `TypeError` numbering it `1 + len(BArgs) + i`.
   */
  lemma VariadicExtraMustBeCData(plat: Platform, ft: CType, args: seq<Value>, i: nat)
    requires ft.Function? && ft.varargs && |ft.args| + i < |args|
    requires MarshalDeclared(plat, ft.args, args[..|ft.args|]).Ok?
    requires forall j :: |ft.args| <= j < |ft.args| + i ==> args[j].CDataV? && ArgToCtypes(plat, TypeOf(args[j].d), args[j]).Ok?
    requires !args[|ft.args| + i].CDataV?
    ensures Marshal(plat, ft, args) == Err(NotCData(1 + |ft.args| + i))
  {
    var n := |ft.args|;
    var extras := args[n..];
    ExtrasPrefixOk(plat, ft, args, i);
    ExtrasStep(plat, n, extras, i, MarshalExtras(plat, n, extras[..i]).value);
    assert extras[i] == args[n + i];
    VariadicExtrasError(plat, ft, args);
  }

  /** The extras before index `i` are handles that convert, so their conversion succeeds. */
  lemma ExtrasPrefixOk(plat: Platform, ft: CType, args: seq<Value>, i: nat)
    requires ft.Function? && |ft.args| + i <= |args|
    requires forall j :: |ft.args| <= j < |ft.args| + i ==> args[j].CDataV? && ArgToCtypes(plat, TypeOf(args[j].d), args[j]).Ok?
    ensures MarshalExtras(plat, |ft.args|, args[|ft.args|..][..i]).Ok?
  {
    var n := |ft.args|;
    var e := args[n..][..i];
    forall j | 0 <= j < i
      ensures e[j].CDataV? && ArgToCtypes(plat, TypeOf(e[j].d), e[j]).Ok?
    {
      assert e[j] == args[n + j];
    }
  }

  /** In a variadic call whose declared arguments convert, a failing extra is the call's error. */
  lemma VariadicExtrasError(plat: Platform, ft: CType, args: seq<Value>)
    requires ft.Function? && ft.varargs && |ft.args| <= |args|
    requires MarshalDeclared(plat, ft.args, args[..|ft.args|]).Ok?
    requires MarshalExtras(plat, |ft.args|, args[|ft.args|..]).Err?
    ensures Marshal(plat, ft, args) == MarshalExtras(plat, |ft.args|, args[|ft.args|..])
  {
  }

  /**
   * `__call__` up to the foreign call: check the arity, then convert the declared arguments and
   * the extra ones of a variadic call.
   */
  method MarshalCall(plat: Platform, ft: CType, args: seq<Value>) returns (r: Result<seq<NativeArg>>)
    requires ft.Function?
    ensures r == Marshal(plat, ft, args)
  {
    var n := |ft.args|;
    if ft.varargs {
      if |args| < n {
        return Err(AssertionError);
      }
    } else if |args| != n {
      return Err(AssertionError);
    }
    var fixed := ConvertDeclared(plat, ft.args, args[..n]);
    if fixed.Err? || !ft.varargs {
      assert !ft.varargs ==> args[..n] == args;
      return fixed;
    }
    var extra := ConvertExtras(plat, n, args[n..]);
    if extra.Err? {
      return Err(extra.error);
    }
    r := Ok(fixed.value + extra.value);
  }

  /** The loop over the declared arguments: each converted through its parameter type, in order. */
  method ConvertDeclared(plat: Platform, types: seq<CType>, args: seq<Value>) returns (r: Result<seq<NativeArg>>)
    requires |types| == |args|
    ensures r == MarshalDeclared(plat, types, args)
  {
    var converted: seq<NativeArg> := [];
    var i := 0;
    while i < |args|
      invariant 0 <= i <= |args|
      invariant MarshalDeclared(plat, types[..i], args[..i]) == Ok(converted)
    {
      DeclaredStep(plat, types, args, i, converted);
      var x := ArgToCtypes(plat, types[i], args[i]);
      if x.Err? {
        return Err(x.error);
      }
      converted := converted + [x.value];
      i := i + 1;
    }
    PrefixOfPrefix(types, i, i);
    PrefixOfPrefix(args, i, i);
    r := Ok(converted);
  }

  /** One step of the declared-arguments loop, once the first `i` converted to `converted`. */
  lemma DeclaredStep(plat: Platform, types: seq<CType>, args: seq<Value>, i: nat, converted: seq<NativeArg>)
    requires |types| == |args| && i < |args|
    requires MarshalDeclared(plat, types[..i], args[..i]) == Ok(converted)
    ensures ArgToCtypes(plat, types[i], args[i]).Err? ==>
      MarshalDeclared(plat, types, args) == Err(ArgToCtypes(plat, types[i], args[i]).error)
    ensures ArgToCtypes(plat, types[i], args[i]).Ok? ==>
      MarshalDeclared(plat, types[..i + 1], args[..i + 1]) == Ok(converted + [ArgToCtypes(plat, types[i], args[i]).value])
  {
    PrefixOfPrefix(types, i + 1, i);
    PrefixOfPrefix(args, i + 1, i);
    if ArgToCtypes(plat, types[i], args[i]).Err? {
      ExtendDeclaredError(plat, types, args, i + 1);
    }
  }

  /** The loop over the extra arguments of a variadic call: each must be a handle. */
  method ConvertExtras(plat: Platform, declared: nat, extras: seq<Value>) returns (r: Result<seq<NativeArg>>)
    ensures r == MarshalExtras(plat, declared, extras)
  {
    var converted: seq<NativeArg> := [];
    var j := 0;
    while j < |extras|
      invariant 0 <= j <= |extras|
      invariant MarshalExtras(plat, declared, extras[..j]) == Ok(converted)
    {
      ExtrasStep(plat, declared, extras, j, converted);
      if !extras[j].CDataV? {
        return Err(NotCData(1 + declared + j));
      }
      var x := ArgToCtypes(plat, TypeOf(extras[j].d), extras[j]);
      if x.Err? {
        return Err(x.error);
      }
      converted := converted + [x.value];
      j := j + 1;
    }
    PrefixOfPrefix(extras, j, j);
    r := Ok(converted);
  }

  /** One step of the extras loop, once the first `j` extras converted to `converted`. */
  lemma ExtrasStep(plat: Platform, declared: nat, extras: seq<Value>, j: nat, converted: seq<NativeArg>)
    requires j < |extras| && MarshalExtras(plat, declared, extras[..j]) == Ok(converted)
    ensures !extras[j].CDataV? ==> MarshalExtras(plat, declared, extras) == Err(NotCData(1 + declared + j))
    ensures extras[j].CDataV? && ArgToCtypes(plat, TypeOf(extras[j].d), extras[j]).Err? ==>
      MarshalExtras(plat, declared, extras) == Err(ArgToCtypes(plat, TypeOf(extras[j].d), extras[j]).error)
    ensures extras[j].CDataV? && ArgToCtypes(plat, TypeOf(extras[j].d), extras[j]).Ok? ==>
      MarshalExtras(plat, declared, extras[..j + 1]) == Ok(converted + [ArgToCtypes(plat, TypeOf(extras[j].d), extras[j]).value])
  {
    PrefixOfPrefix(extras, j + 1, j);
    if !(extras[j].CDataV? && ArgToCtypes(plat, TypeOf(extras[j].d), extras[j]).Ok?) {
      ExtrasFirstErrorWins(plat, declared, extras, j + 1);
    }
  }

  /** Once a prefix of the declared arguments fails, the whole list fails with the same error. */
  lemma {:induction false} ExtendDeclaredError(plat: Platform, types: seq<CType>, args: seq<Value>, k: nat)
    requires |types| == |args| && k <= |args|
    requires MarshalDeclared(plat, types[..k], args[..k]).Err?
    ensures MarshalDeclared(plat, types, args) == MarshalDeclared(plat, types[..k], args[..k])
    decreases |args|
  {
    if k < |args| {
      var n := |args| - 1;
      PrefixOfPrefix(types, n, k);
      PrefixOfPrefix(args, n, k);
      ExtendDeclaredError(plat, types[..n], args[..n], k);
      DeclaredErrorPropagates(plat, types, args);
    } else {
      PrefixOfPrefix(types, k, k);
      PrefixOfPrefix(args, k, k);
    }
  }

  /** A prefix of a prefix is a prefix; the full-length prefix is the sequence itself. */
  lemma PrefixOfPrefix<T>(s: seq<T>, n: nat, k: nat)
    requires k <= n <= |s|
    ensures s[..n][..k] == s[..k]
    ensures n == |s| ==> s[..n] == s
  {
  }

  /** An error in all but the last declared argument is the error of the whole list. */
  lemma DeclaredErrorPropagates(plat: Platform, types: seq<CType>, args: seq<Value>)
    requires |types| == |args| && args != []
    requires MarshalDeclared(plat, types[..|args| - 1], args[..|args| - 1]).Err?
    ensures MarshalDeclared(plat, types, args) == MarshalDeclared(plat, types[..|args| - 1], args[..|args| - 1])
  {
  }
}
