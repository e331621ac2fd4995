/** The textual shapes both renderers build around already rendered
    pieces (an application `c(args)`, `borrowed t`, a type application,
    `let p = a in b`, a record update), and what each keeps of the pieces'
    bracket structure. */
module Shapes {
  import opened Brackets

  /** A name applied to a parenthesised list is one unit that starts with
      the name and an opening parenthesis and ends with the closing one. */
  lemma ApplicationUnit(c: string, j: string)
    requires Plain(c) && Balanced(j) && '\n' !in j
    ensures Unit(c + "(" + j + ")")
    ensures |c + "(" + j + ")"| >= |c| + 2 && (c + "(" + j + ")")[..|c| + 1] == c + "("
    ensures (c + "(" + j + ")")[|c + "(" + j + ")"| - 1] == ')'
  {
    PlainUnit(c);
    Parenthesised(j);
    UnitAppend(c, "(" + j + ")");
    assert c + "(" + j + ")" == c + ("(" + j + ")");
  }

  lemma BorrowedUnit(s: string)
    requires Unit(s)
    ensures Unit("(" + ("borrowed " + s) + ")")
  {
    BracketlessBalanced("borrowed ");
    BalancedAppend("borrowed ", s);
    assert '\n' !in "borrowed " + s by {
      forall k | 0 <= k < |"borrowed " + s| ensures ("borrowed " + s)[k] != '\n' {
        if k >= 9 { assert ("borrowed " + s)[k] == s[k - 9]; }
      }
    }
    Parenthesised("borrowed " + s);
  }

  lemma AppliedUnit(f: string, j: string)
    requires Unit(f) && Balanced(j) && '\n' !in j
    ensures Unit("(" + (f + " " + j) + ")")
  {
    BracketlessBalanced(" ");
    BalancedAppend(f, " ");
    BalancedAppend(f + " ", j);
    assert '\n' !in f + " " + j by {
      forall k | 0 <= k < |f + " " + j| ensures (f + " " + j)[k] != '\n' {
        if k < |f| { assert (f + " " + j)[k] == f[k]; }
        else if k > |f| { assert (f + " " + j)[k] == j[k - |f| - 1]; }
      }
    }
    Parenthesised(f + " " + j);
  }

  lemma ApplyText(q: string, j: string)
    requires Balanced(q) && Balanced(j)
    ensures Balanced(q + "(" + j + ")")
  {
    Parenthesised(j);
    BalancedAppend(q, "(" + j + ")");
    assert q + "(" + j + ")" == q + ("(" + j + ")");
  }

  lemma LetText(p: string, a: string, b: string)
    requires Balanced(p) && Balanced(a) && Balanced(b)
    ensures Balanced("let " + p + " = " + a + " in " + b)
  {
    Prefixed("let ", p);
    Infixed("let " + p, " = ", a);
    Infixed("let " + p + " = " + a, " in ", b);
  }

  lemma RecUpText(r: string, l: string, v: string)
    requires Balanced(r) && Balanced(l) && Balanced(v)
    ensures Balanced("{ " + r + " with " + l + " = " + v + " }")
  {
    var body := r + " with " + l + " = " + v;
    Infixed(r, " with ", l);
    Infixed(r + " with " + l, " = ", v);
    PaddedBraces(body);
    assert "{ " + r + " with " + l + " = " + v + " }" == "{ " + body + " }";
  }

  lemma PaddedBraces(s: string)
    requires Balanced(s)
    ensures Balanced("{ " + s + " }")
  {
    Prefixed(" ", s);
    Suffixed(" " + s, " ");
    Enclose('{', " " + s + " ", '}');
    assert "{ " + s + " }" == ['{'] + (" " + s + " ") + ['}'];
  }
}
