/** Bracket depth of rendered text. Both renderers decide where to put
    parentheses; what that decision buys is stated here: a rendered piece is
    `Balanced` (brackets close what they open and never dip below zero), and a
    `Unit` is a balanced, one-line, non-empty piece whose every space lies
    inside some bracket, so that it can stand as one argument of a juxtaposition
    (`f a b`, `borrowed t`, `let p = a in b`) without being misread. Round
    brackets and braces are counted alike. */
module Brackets {
  import opened Text

  predicate Opener(c: char) { c == '(' || c == '{' }

  predicate Closer(c: char) { c == ')' || c == '}' }

  function Step(c: char): int
  {
    if Opener(c) then 1 else if Closer(c) then -1 else 0
  }

  /** Openers minus closers. */
  function Depth(s: string): int
  {
    if s == [] then 0 else Depth(s[..|s| - 1]) + Step(s[|s| - 1])
  }

  ghost predicate Balanced(s: string)
  {
    Depth(s) == 0 && forall k :: 0 <= k <= |s| ==> Depth(s[..k]) >= 0
  }

  ghost predicate Unit(s: string)
  {
    && s != []
    && Balanced(s)
    && '\n' !in s
    && forall k :: 0 <= k < |s| && s[k] == ' ' ==> Depth(s[..k]) > 0
  }

  /** No bracket at all (spaces and newlines allowed). */
  predicate Bracketless(s: string)
  {
    forall i :: 0 <= i < |s| ==> !Opener(s[i]) && !Closer(s[i])
  }

  /** A name-like piece: no bracket, no space, no newline. */
  predicate Flat(s: string)
  {
    Bracketless(s) && ' ' !in s && '\n' !in s
  }

  predicate Plain(s: string)
  {
    s != [] && Flat(s)
  }

  lemma {:induction false} DepthAppend(a: string, b: string)
    ensures Depth(a + b) == Depth(a) + Depth(b)
  {
    if b == [] {
      assert a + b == a;
    } else {
      assert (a + b)[..|a + b| - 1] == a + b[..|b| - 1];
      DepthAppend(a, b[..|b| - 1]);
    }
  }

  lemma PrefixOfAppend(a: string, b: string, k: nat)
    requires k <= |a + b|
    ensures k <= |a| ==> (a + b)[..k] == a[..k]
    ensures k > |a| ==> (a + b)[..k] == a + b[..k - |a|]
  {
  }

  lemma {:induction false} BracketlessDepth(s: string)
    requires Bracketless(s)
    ensures Depth(s) == 0
  {
    if s != [] {
      BracketlessDepth(s[..|s| - 1]);
    }
  }

  lemma BracketlessBalanced(s: string)
    requires Bracketless(s)
    ensures Balanced(s)
  {
    BracketlessDepth(s);
    forall k | 0 <= k <= |s| ensures Depth(s[..k]) >= 0 {
      BracketlessDepth(s[..k]);
    }
  }

  lemma PlainUnit(s: string)
    requires Plain(s)
    ensures Unit(s)
  {
    BracketlessBalanced(s);
  }

  lemma BalancedAppend(a: string, b: string)
    requires Balanced(a) && Balanced(b)
    ensures Balanced(a + b)
  {
    DepthAppend(a, b);
    forall k | 0 <= k <= |a + b| ensures Depth((a + b)[..k]) >= 0 {
      PrefixOfAppend(a, b, k);
      if k > |a| {
        DepthAppend(a, b[..k - |a|]);
      }
    }
  }

  lemma UnitAppend(a: string, b: string)
    requires Unit(a) && Unit(b)
    ensures Unit(a + b)
  {
    BalancedAppend(a, b);
    forall k | 0 <= k < |a + b| && (a + b)[k] == ' ' ensures Depth((a + b)[..k]) > 0 {
      PrefixOfAppend(a, b, k);
      if k >= |a| {
        assert b[k - |a|] == ' ';
        DepthAppend(a, b[..k - |a|]);
      }
    }
  }

  /** A space right after a balanced text lies at depth zero, so the whole
      is not a unit: it reads as two arguments. */
  lemma SpaceAtTop(a: string, b: string)
    requires Balanced(a)
    ensures !Unit(a + " " + b)
  {
    var s := a + " " + b;
    assert s[|a|] == ' ';
    assert s[..|a|] == a;
  }

  /** Between an opener and a closer, a balanced text stays balanced, and
      every position inside is at positive depth. */
  lemma Enclose(open: char, s: string, close: char)
    requires Opener(open) && Closer(close) && Balanced(s)
    ensures Balanced([open] + s + [close])
    ensures '\n' !in s ==> Unit([open] + s + [close])
  {
    var w := [open] + s + [close];
    assert w == ([open] + s) + [close];
    DepthAppend([open], s);
    DepthAppend([open] + s, [close]);
    assert Depth([open]) == 1 by { assert [open][..0] == []; }
    assert Depth([close]) == -1 by { assert [close][..0] == []; }
    forall k | 0 <= k <= |w| ensures Depth(w[..k]) >= 0 {
      if 1 <= k <= |s| + 1 {
        assert w[..k] == [open] + s[..k - 1];
        DepthAppend([open], s[..k - 1]);
      } else if k == 0 {
        assert w[..k] == [];
      } else {
        assert w[..k] == w;
      }
    }
    forall k | 0 <= k < |w| && w[k] == ' ' ensures Depth(w[..k]) > 0 {
      assert 1 <= k <= |s|;
      assert w[..k] == [open] + s[..k - 1];
      DepthAppend([open], s[..k - 1]);
    }
  }

  lemma Parenthesised(s: string)
    requires Balanced(s)
    ensures Balanced("(" + s + ")")
    ensures '\n' !in s ==> Unit("(" + s + ")")
  {
    Enclose('(', s, ')');
  }

  lemma BracketlessAppend(a: string, b: string)
    requires Bracketless(a) && Bracketless(b)
    ensures Bracketless(a + b)
  {
    forall i | 0 <= i < |a + b| ensures !Opener((a + b)[i]) && !Closer((a + b)[i]) {
      if i >= |a| { assert (a + b)[i] == b[i - |a|]; }
    }
  }

  /** A bracketless text before a balanced one keeps it balanced. */
  lemma Prefixed(pre: string, s: string)
    requires Bracketless(pre) && Balanced(s)
    ensures Balanced(pre + s)
  {
    BracketlessBalanced(pre);
    BalancedAppend(pre, s);
  }

  /** A bracketless text after a balanced one keeps it balanced. */
  lemma Suffixed(s: string, post: string)
    requires Balanced(s) && Bracketless(post)
    ensures Balanced(s + post)
  {
    BracketlessBalanced(post);
    BalancedAppend(s, post);
  }

  /** Two balanced texts around a bracketless one make a balanced text. */
  lemma Infixed(a: string, mid: string, b: string)
    requires Balanced(a) && Bracketless(mid) && Balanced(b)
    ensures Balanced(a + mid + b)
  {
    Suffixed(a, mid);
    BalancedAppend(a + mid, b);
  }

  lemma {:induction false} JoinBalanced(parts: seq<string>, sep: string)
    requires forall i :: 0 <= i < |parts| ==> Balanced(parts[i])
    requires Bracketless(sep)
    ensures Balanced(Join(parts, sep))
  {
    if |parts| == 0 {
      BracketlessBalanced("");
    } else if |parts| > 1 {
      JoinBalanced(parts[1..], sep);
      BracketlessBalanced(sep);
      BalancedAppend(parts[0], sep);
      BalancedAppend(parts[0] + sep, Join(parts[1..], sep));
    }
  }

  lemma OneLineJoin(parts: seq<string>, sep: string)
    requires forall i :: 0 <= i < |parts| ==> '\n' !in parts[i]
    requires '\n' !in sep
    ensures '\n' !in Join(parts, sep)
  {
    if '\n' in Join(parts, sep) {
      JoinChars(parts, sep, '\n');
    }
  }

  lemma FlatJoin(parts: seq<string>, sep: string)
    requires forall i :: 0 <= i < |parts| ==> Flat(parts[i])
    requires Flat(sep)
    ensures Flat(Join(parts, sep))
  {
    var j := Join(parts, sep);
    forall i | 0 <= i < |j| ensures !Opener(j[i]) && !Closer(j[i]) {
      JoinChars(parts, sep, j[i]);
    }
    if ' ' in j { JoinChars(parts, sep, ' '); }
    if '\n' in j { JoinChars(parts, sep, '\n'); }
  }

  /** A join of plain parts with a flat separator is plain. */
  lemma {:induction false} PlainJoin(parts: seq<string>, sep: string)
    requires |parts| > 0
    requires forall i :: 0 <= i < |parts| ==> Plain(parts[i])
    requires Flat(sep)
    ensures Plain(Join(parts, sep))
  {
    FlatJoin(parts, sep);
    assert |Join(parts, sep)| >= |parts[0]| by {
      if |parts| > 1 { assert Join(parts, sep) == parts[0] + sep + Join(parts[1..], sep); }
    }
  }

}
