/** String building blocks shared by the renderers: concatenation of parts
    (what repeated `strings.Builder.WriteString` calls produce) and joining
    with a separator. */
module Text {

  /** The parts written one after another. */
  function Concat(parts: seq<string>): string
  {
    if parts == [] then "" else Concat(parts[..|parts| - 1]) + parts[|parts| - 1]
  }

  /** The parts with `sep` between neighbours and nowhere else. */
  function Join(parts: seq<string>, sep: string): string
  {
    if |parts| == 0 then ""
    else if |parts| == 1 then parts[0]
    else Join(parts[..|parts| - 1], sep) + sep + parts[|parts| - 1]
  }

  /** Each part preceded by `sep`. */
  function Prefixed(sep: string, parts: seq<string>): (r: seq<string>)
    ensures |r| == |parts|
  {
    seq(|parts|, i requires 0 <= i < |parts| => sep + parts[i])
  }

  /** As many opening as closing parentheses. */
  predicate Balanced(s: string)
  {
    multiset(s)['('] == multiset(s)[')']
  }

  lemma {:induction false} ConcatAppend(a: seq<string>, b: seq<string>)
    ensures Concat(a + b) == Concat(a) + Concat(b)
    decreases |b|
  {
    if b == [] {
      assert a + b == a;
    } else {
      var b' := b[..|b| - 1];
      assert (a + b)[..|a + b| - 1] == a + b';
      ConcatAppend(a, b');
    }
  }

  lemma {:induction false} JoinAppend(a: seq<string>, b: seq<string>, sep: string)
    requires |a| > 0 && |b| > 0
    ensures Join(a + b, sep) == Join(a, sep) + sep + Join(b, sep)
    decreases |b|
  {
    if |b| == 1 {
      assert (a + b)[..|a + b| - 1] == a;
    } else {
      var b' := b[..|b| - 1];
      assert (a + b)[..|a + b| - 1] == a + b';
      JoinAppend(a, b', sep);
    }
  }

  /** Joining is writing the first part, then every other part preceded by
      the separator. */
  lemma {:induction false} JoinAsPrefixed(parts: seq<string>, sep: string)
    requires |parts| >= 1
    ensures Join(parts, sep) == parts[0] + Concat(Prefixed(sep, parts[1..]))
    decreases |parts|
  {
    if |parts| == 1 {
      assert Prefixed(sep, parts[1..]) == [];
    } else {
      var init := parts[..|parts| - 1];
      JoinAsPrefixed(init, sep);
      assert Prefixed(sep, parts[1..]) == Prefixed(sep, init[1..]) + [sep + parts[|parts| - 1]];
      ConcatAppend(Prefixed(sep, init[1..]), [sep + parts[|parts| - 1]]);
    }
  }

  predicate StartsWith(s: string, prefix: string)
  {
    |s| >= |prefix| && s[..|prefix|] == prefix
  }

  predicate EndsWith(s: string, suffix: string)
  {
    |s| >= |suffix| && s[|s| - |suffix|..] == suffix
  }

  lemma ConcatEnds(s: string, t: string)
    ensures StartsWith(s + t, s) && EndsWith(s + t, t)
  {
    assert (s + t)[..|s|] == s;
    assert (s + t)[|s + t| - |t|..] == t;
  }

  lemma StartsWithTrans(s: string, t: string, u: string)
    requires StartsWith(s, t) && StartsWith(t, u)
    ensures StartsWith(s, u)
  {
    assert s[..|u|] == s[..|t|][..|u|];
  }

  lemma EndsWithTrans(s: string, t: string, u: string)
    requires EndsWith(s, t) && EndsWith(t, u)
    ensures EndsWith(s, u)
  {
    assert s[|s| - |u|..] == s[|s| - |t|..][|t| - |u|..];
  }

  lemma EndsWithExtend(s: string, t: string, x: string)
    requires EndsWith(s, t)
    ensures EndsWith(s + x, t + x)
  {
    assert (s + x)[|s + x| - |t + x|..] == s[|s| - |t|..] + x;
  }

  /** A non-empty join begins with the first part and ends with the last. */
  lemma {:induction false} JoinEnds(parts: seq<string>, sep: string)
    requires |parts| >= 1
    ensures StartsWith(Join(parts, sep), parts[0])
    ensures EndsWith(Join(parts, sep), parts[|parts| - 1])
    decreases |parts|
  {
    if |parts| > 1 {
      var init := parts[..|parts| - 1];
      JoinEnds(init, sep);
      assert init[0] == parts[0];
      var j := Join(init, sep);
      assert Join(parts, sep) == (j + sep) + parts[|parts| - 1];
      ConcatEnds(j + sep, parts[|parts| - 1]);
      ConcatEnds(j, sep);
      StartsWithTrans(j + sep, j, parts[0]);
      StartsWithTrans(Join(parts, sep), j + sep, parts[0]);
    }
  }

  /** Wrapping balanced text in parentheses, or placing balanced texts side
      by side, keeps it balanced. */
  lemma BalancedAppend(a: string, b: string)
    requires Balanced(a) && Balanced(b)
    ensures Balanced(a + b)
    ensures Balanced("(" + a + ")")
  {
    assert multiset(a + b) == multiset(a) + multiset(b);
    assert multiset("(" + a + ")") == multiset("(") + multiset(a) + multiset(")");
  }

  lemma {:induction false} JoinBalanced(parts: seq<string>, sep: string)
    requires Balanced(sep)
    requires forall i :: 0 <= i < |parts| ==> Balanced(parts[i])
    ensures Balanced(Join(parts, sep))
    decreases |parts|
  {
    if |parts| > 1 {
      JoinBalanced(parts[..|parts| - 1], sep);
      var j := Join(parts[..|parts| - 1], sep);
      BalancedAppend(j, sep);
      BalancedAppend(j + sep, parts[|parts| - 1]);
    }
  }

  // ---------------------------------------------------------------------
  // Nesting of parentheses

  /** Opening minus closing parentheses. */
  function Depth(s: string): int
  {
    multiset(s)['('] as int - multiset(s)[')'] as int
  }

  /** No parenthesis at all. */
  predicate ParenFree(s: string)
  {
    '(' !in s && ')' !in s
  }

  /** Properly nested: no prefix closes more parentheses than it opened, and
      the whole text closes all it opens. */
  predicate Nested(s: string)
  {
    Depth(s) == 0 && forall k :: 0 <= k <= |s| ==> Depth(s[..k]) >= 0
  }

  /** The text is one pair of parentheses around the rest: it opens with '('
      and that parenthesis is closed by the final ')' and by nothing before. */
  predicate Enclosed(s: string)
  {
    |s| >= 2 && s[0] == '(' && s[|s| - 1] == ')' &&
    forall k :: 1 <= k < |s| ==> Depth(s[..k]) > 0
  }

  lemma DepthAppend(a: string, b: string)
    ensures Depth(a + b) == Depth(a) + Depth(b)
  {
    assert multiset(a + b) == multiset(a) + multiset(b);
  }

  lemma ParenFreeNested(s: string)
    requires ParenFree(s)
    ensures Nested(s)
  {
    forall k | 0 <= k <= |s|
      ensures Depth(s[..k]) == 0
    {
      assert forall c :: c in s[..k] ==> c in s;
    }
    assert s[..|s|] == s;
  }

  lemma NestedAppend(a: string, b: string)
    requires Nested(a) && Nested(b)
    ensures Nested(a + b)
  {
    DepthAppend(a, b);
    forall k | 0 <= k <= |a + b|
      ensures Depth((a + b)[..k]) >= 0
    {
      if k <= |a| {
        assert (a + b)[..k] == a[..k];
      } else {
        assert (a + b)[..k] == a + b[..k - |a|];
        assert a[..|a|] == a;
        DepthAppend(a, b[..k - |a|]);
      }
    }
  }

  /** Parenthesising nested text gives an enclosed, nested text. */
  lemma NestedWrap(a: string)
    requires Nested(a)
    ensures Nested("(" + a + ")") && Enclosed("(" + a + ")")
  {
    var s := "(" + a + ")";
    assert a[..|a|] == a;
    forall k | 1 <= k < |s|
      ensures Depth(s[..k]) > 0
    {
      assert s[..k] == "(" + a[..k - 1];
      DepthAppend("(", a[..k - 1]);
    }
    DepthAppend("(" + a, ")");
    DepthAppend("(", a);
    assert s[..|s|] == s;
    assert s[..0] == "";
  }

  lemma {:induction false} JoinNested(parts: seq<string>, sep: string)
    requires Nested(sep)
    requires forall i :: 0 <= i < |parts| ==> Nested(parts[i])
    ensures Nested(Join(parts, sep))
    decreases |parts|
  {
    if |parts| == 0 {
      assert Join(parts, sep) == "";
      ParenFreeNested("");
    } else if |parts| > 1 {
      JoinNested(parts[..|parts| - 1], sep);
      var j := Join(parts[..|parts| - 1], sep);
      NestedAppend(j, sep);
      NestedAppend(j + sep, parts[|parts| - 1]);
    }
  }
}
