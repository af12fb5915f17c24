/** The string helpers the backend builds its C type names with. */
module CText {

  /** The placeholder that marks where a declarator goes in a type-name template. */
  const Amp: string := " &"

  /** Python's `s.replace(' &', rep)`: every non-overlapping occurrence, scanning left to right. */
  function ReplaceAmp(s: string, rep: string): string
    decreases |s|
  {
    if |s| < 2 then s
    else if s[..2] == Amp then rep + ReplaceAmp(s[2..], rep)
    else [s[0]] + ReplaceAmp(s[1..], rep)
  }

  predicate AmpFree(s: string)
  {
    '&' !in s
  }

  /** A string without any `&` has no placeholder, so replacing it changes nothing. */
  lemma {:induction false} ReplaceAmpFree(s: string, rep: string)
    requires AmpFree(s)
    ensures ReplaceAmp(s, rep) == s
    decreases |s|
  {
    if |s| >= 2 {
      assert s[1] == s[..2][1];
      assert s[..2] != Amp;
      assert AmpFree(s[1..]);
      ReplaceAmpFree(s[1..], rep);
      assert [s[0]] + s[1..] == s;
    }
  }

  /** A template with exactly one placeholder and no other `&` gets `rep` in place of the placeholder. */
  lemma {:induction false} ReplaceSingleAmp(a: string, b: string, rep: string)
    requires AmpFree(a) && AmpFree(b)
    ensures ReplaceAmp(a + Amp + b, rep) == a + rep + b
    decreases |a|
  {
    if a == [] {
      assert a + Amp + b == Amp + b;
      ReplaceLeadingAmp(b, rep);
    } else {
      var s := a + Amp + b;
      NoAmpAtStart(a, b);
      assert s[1..] == a[1..] + Amp + b;
      AmpFreeTail(a);
      ReplaceSingleAmp(a[1..], b, rep);
      assert [a[0]] + (a[1..] + rep + b) == a + rep + b;
    }
  }

  /** Removing the only placeholder joins the two sides, which stay free of `&`. */
  lemma RemoveSingleAmp(a: string, b: string)
    requires AmpFree(a) && AmpFree(b)
    ensures ReplaceAmp(a + Amp + b, "") == a + b && AmpFree(a + b)
  {
    ReplaceSingleAmp(a, b, "");
    assert a + "" + b == a + b;
  }

  /** Replacing the only placeholder by `x` followed by a placeholder moves `x` into the tail. */
  lemma InsertAfterAmp(a: string, b: string, x: string)
    requires AmpFree(a) && AmpFree(b) && AmpFree(x)
    ensures ReplaceAmp(a + Amp + b, Amp + x) == a + Amp + (x + b) && AmpFree(x + b)
  {
    ReplaceSingleAmp(a, b, Amp + x);
    assert a + (Amp + x) + b == a + Amp + (x + b);
  }

  /** Replacing the only placeholder by a placeholder preceded by `x` moves `x` into the head. */
  lemma InsertBeforeAmp(a: string, b: string, x: string)
    requires AmpFree(a) && AmpFree(b) && AmpFree(x)
    ensures ReplaceAmp(a + Amp + b, x + Amp) == (a + x) + Amp + b && AmpFree(a + x)
  {
    ReplaceSingleAmp(a, b, x + Amp);
    assert a + (x + Amp) + b == (a + x) + Amp + b;
  }

  /** The function-pointer template `r(* &)(params)` splits into head, placeholder and tail. */
  lemma SplitFunctionTemplate(r: string, params: string)
    requires AmpFree(r) && AmpFree(params)
    ensures r + "(*" + Amp + ")(" + params + ")" == (r + "(*") + Amp + (")(" + params + ")")
    ensures AmpFree(r + "(*") && AmpFree(")(" + params + ")")
  {
  }

  /** A template that starts with its only placeholder. */
  lemma ReplaceLeadingAmp(b: string, rep: string)
    requires AmpFree(b)
    ensures ReplaceAmp(Amp + b, rep) == rep + b
  {
    var s := Amp + b;
    assert s[..2] == Amp;
    assert s[2..] == b;
    ReplaceAmpFree(b, rep);
  }

  lemma AmpFreeTail(a: string)
    requires AmpFree(a) && a != []
    ensures AmpFree(a[1..])
  {
    forall i | 0 <= i < |a| - 1 ensures a[1..][i] != '&' { assert a[1..][i] == a[i + 1]; }
  }

  /** The placeholder of `a + Amp + b` cannot start at index 0 when `a` is non-empty and `&`-free. */
  lemma NoAmpAtStart(a: string, b: string)
    requires AmpFree(a) && a != []
    ensures |a + Amp + b| >= 2 && (a + Amp + b)[..2] != Amp
  {
    var s := a + Amp + b;
    if |a| >= 2 {
      assert s[1] == a[1];
    } else {
      assert s[1] == ' ';
    }
    assert s[..2][1] == s[1];
  }

  /** The decimal digit for `d`. */
  function Digit(d: nat): (c: char)
    requires d < 10
    ensures '0' <= c <= '9'
  {
    ('0' as int + d) as char
  }

  /** Python's `'%d' % n` for a non-negative `n`. */
  function Dec(n: nat): (r: string)
    ensures 1 <= |r|
    ensures forall i :: 0 <= i < |r| ==> '0' <= r[i] <= '9'
    ensures n < 10 <==> |r| == 1
  {
    if n < 10 then [Digit(n)] else Dec(n / 10) + [Digit(n % 10)]
  }

  /** Distinct numbers print differently, so keys built from sizes never collide. */
  lemma {:induction false} DecInjective(a: nat, b: nat)
    requires Dec(a) == Dec(b)
    ensures a == b
    decreases a
  {
    if a < 10 && b < 10 {
      assert Digit(a) == Dec(a)[0] == Dec(b)[0] == Digit(b);
    } else if 10 <= a && 10 <= b {
      var da, db := Dec(a), Dec(b);
      assert Digit(a % 10) == da[|da| - 1] == db[|db| - 1] == Digit(b % 10);
      assert Dec(a / 10) == da[..|da| - 1] == db[..|db| - 1] == Dec(b / 10);
      DecInjective(a / 10, b / 10);
    }
  }

  /** Python's `sep.join(parts)`. */
  function Join(parts: seq<string>, sep: string): string
  {
    if parts == [] then ""
    else if |parts| == 1 then parts[0]
    else parts[0] + sep + Join(parts[1..], sep)
  }

  /** Joining `&`-free parts with an `&`-free separator gives an `&`-free string. */
  lemma {:induction false} JoinAmpFree(parts: seq<string>, sep: string)
    requires forall i :: 0 <= i < |parts| ==> AmpFree(parts[i])
    requires AmpFree(sep)
    ensures AmpFree(Join(parts, sep))
  {
    if |parts| > 1 {
      JoinAmpFree(parts[1..], sep);
    }
  }

  /** Python's `%r` of a string: the string between single quotes. */
  function Quote(s: string): string
  {
    "'" + s + "'"
  }

  /** `pat` occurs in `s` starting at index `j`. */
  predicate OccursAt(s: string, pat: string, j: nat)
  {
    j + |pat| <= |s| && s[j..j + |pat|] == pat
  }

  /** The index of the first occurrence of `pat` in `s` at or after `from`, or -1 when there is none. */
  function IndexFrom(s: string, pat: string, from: nat): (i: int)
    ensures i == -1 || (from <= i && OccursAt(s, pat, i))
    ensures forall j: nat :: from <= j && (i < 0 || j < i) ==> !OccursAt(s, pat, j)
    decreases |s| + 1 - from
  {
    if |s| < from + |pat| then -1
    else if OccursAt(s, pat, from) then from
    else IndexFrom(s, pat, from + 1)
  }

  /** Python's `s.index(pat)` as an index, or -1 where Python raises `ValueError`. */
  function IndexOf(s: string, pat: string): int
  {
    IndexFrom(s, pat, 0)
  }

  /** Python's `s.replace(pat, rep)` for a non-empty `pat`: the leftmost occurrence, then the rest. */
  function ReplaceAll(s: string, pat: string, rep: string): string
    requires |pat| > 0
    decreases |s|
  {
    var i := IndexOf(s, pat);
    if i < 0 then s else s[..i] + rep + ReplaceAll(s[i + |pat|..], pat, rep)
  }

  /** A string without the character `pat[q]` contains no occurrence of `pat`. */
  lemma AbsentWithoutItsCharacter(s: string, pat: string, q: nat)
    requires q < |pat| && pat[q] !in s
    ensures IndexOf(s, pat) < 0
  {
    forall j: nat | j + |pat| <= |s|
      ensures !OccursAt(s, pat, j)
    {
      assert s[j..j + |pat|][q] == s[j + q];
    }
  }

  /**
   * When `pat[q]` occurs once in `pat` and nowhere in `a` or `b`, the only occurrence of `pat` in
   * `a + pat + b` is the middle one, and replacing gives `a + rep + b`.
   */
  lemma ReplaceOnlyOccurrence(a: string, pat: string, b: string, rep: string, q: nat)
    requires q < |pat| && pat[q] !in a && pat[q] !in b
    requires forall j :: 0 <= j < |pat| && j != q ==> pat[j] != pat[q]
    ensures IndexOf(a + pat + b, pat) == |a|
    ensures ReplaceAll(a + pat + b, pat, rep) == a + rep + b
  {
    var s := a + pat + b;
    assert s[|a|..|a| + |pat|] == pat;
    assert OccursAt(s, pat, |a|);
    forall j: nat | j < |a|
      ensures !OccursAt(s, pat, j)
    {
      if j + |pat| <= |s| {
        assert s[j..j + |pat|][q] == s[j + q];
        if j + q < |a| {
          assert s[j + q] == a[j + q];
        } else {
          assert s[j + q] == pat[j + q - |a|];
        }
      }
    }
    var i := IndexOf(s, pat);
    assert i == |a|;
    assert s[..i] == a;
    assert s[i + |pat|..] == b;
    AbsentWithoutItsCharacter(b, pat, q);
  }
}
