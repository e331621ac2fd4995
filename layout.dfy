/** Line structure of the block-level output. Every block-level printer of
    creusot/src/mlcfg/printer.rs writes whole lines: `indent_line` (the
    environment's indentation in spaces), some text, then a newline. A `Line`
    records those two parts; `Render` is the text a sequence of them makes. */
module Layout {
  import opened Text

  datatype Line = Line(indent: nat, content: string)

  /** One line as `indent_line` followed by its text writes it, without the newline. */
  function LineText(l: Line): (r: string)
    ensures |r| == l.indent + |l.content|
    ensures r[..l.indent] == Spaces(l.indent) && r[l.indent..] == l.content
  {
    Spaces(l.indent) + l.content
  }

  /** The lines in order, each followed by a newline. */
  function Render(ls: seq<Line>): string
  {
    if ls == [] then "" else Render(ls[..|ls| - 1]) + LineText(ls[|ls| - 1]) + "\n"
  }

  lemma RenderSnoc(ls: seq<Line>, l: Line)
    ensures Render(ls + [l]) == Render(ls) + LineText(l) + "\n"
  {
    assert (ls + [l])[..|ls|] == ls;
  }

  /** A single line renders as its indentation, its content and a newline. */
  lemma RenderOne(l: Line)
    ensures Render([l]) == Spaces(l.indent) + l.content + "\n"
  {
    assert [l][..0] == [];
  }

  /** Writing more lines after some rendered lines renders them all. */
  lemma AppendLines(t: string, ls: seq<Line>, more: seq<Line>)
    ensures t + Render(ls) + Render(more) == t + Render(ls + more)
  {
    RenderConcat(ls, more);
  }

  /** A line written as its indentation followed by its content and a newline. */
  lemma WrittenLine(t: string, l: Line)
    ensures t + Spaces(l.indent) + (l.content + "\n") == t + Render([l])
  {
    RenderOne(l);
    Assoc(t, Spaces(l.indent), l.content + "\n");
    Assoc(Spaces(l.indent), l.content, "\n");
  }

  /** Rendering distributes over concatenation of line sequences. */
  lemma {:induction false} RenderConcat(a: seq<Line>, b: seq<Line>)
    ensures Render(a + b) == Render(a) + Render(b)
  {
    if b == [] {
      assert a + b == a;
    } else {
      var b' := b[..|b| - 1];
      assert a + b == (a + b') + [b[|b| - 1]];
      assert b == b' + [b[|b| - 1]];
      RenderConcat(a, b');
      RenderSnoc(a + b', b[|b| - 1]);
      RenderSnoc(b', b[|b| - 1]);
    }
  }

  /** Every line is indented by at least `n` columns. */
  predicate IndentedBy(ls: seq<Line>, n: nat)
  {
    forall i :: 0 <= i < |ls| ==> ls[i].indent >= n
  }

  /** The contents of the lines indented by exactly `n` columns, in order:
      the skeleton of the output at one nesting level. */
  function AtIndent(ls: seq<Line>, n: nat): seq<string>
  {
    if ls == [] then []
    else AtIndent(ls[..|ls| - 1], n) + (if ls[|ls| - 1].indent == n then [ls[|ls| - 1].content] else [])
  }

  lemma {:induction false} AtIndentConcat(a: seq<Line>, b: seq<Line>, n: nat)
    ensures AtIndent(a + b, n) == AtIndent(a, n) + AtIndent(b, n)
  {
    if b == [] {
      assert a + b == a;
    } else {
      var b' := b[..|b| - 1];
      assert (a + b)[..|a + b| - 1] == a + b';
      AtIndentConcat(a, b', n);
    }
  }

  /** Lines all deeper than `n` contribute nothing at level `n`. */
  lemma {:induction false} AtIndentDeeper(ls: seq<Line>, n: nat)
    requires IndentedBy(ls, n + 1)
    ensures AtIndent(ls, n) == []
  {
    if ls != [] {
      AtIndentDeeper(ls[..|ls| - 1], n);
    }
  }

  /** Lines all at level `n` are their own skeleton. */
  lemma {:induction false} AtIndentFlat(ls: seq<Line>, n: nat)
    requires forall i :: 0 <= i < |ls| ==> ls[i].indent == n
    ensures AtIndent(ls, n) == seq(|ls|, i requires 0 <= i < |ls| => ls[i].content)
  {
    if ls != [] {
      AtIndentFlat(ls[..|ls| - 1], n);
    }
  }

  lemma AtIndentSame(l: Line)
    ensures AtIndent([l], l.indent) == [l.content]
  {
    assert [l][..0] == [];
  }

  lemma AtIndentOther(l: Line, n: nat)
    requires l.indent != n
    ensures AtIndent([l], n) == []
  {
    assert [l][..0] == [];
  }

  /** Lines all at level `n` contribute nothing at another level. */
  lemma {:induction false} AtIndentElsewhere(ls: seq<Line>, n: nat, m: nat)
    requires forall i :: 0 <= i < |ls| ==> ls[i].indent == n
    requires m != n
    ensures AtIndent(ls, m) == []
  {
    if ls != [] {
      AtIndentElsewhere(ls[..|ls| - 1], n, m);
    }
  }

  lemma Levels3(a: seq<Line>, b: seq<Line>, c: seq<Line>, n: nat, sa: seq<string>, sb: seq<string>, sc: seq<string>)
    requires AtIndent(a, n) == sa && AtIndent(b, n) == sb && AtIndent(c, n) == sc
    ensures AtIndent(a + b + c, n) == sa + sb + sc
  {
    AtIndentConcat(a, b, n);
    AtIndentConcat(a + b, c, n);
  }

  lemma Levels4(a: seq<Line>, b: seq<Line>, c: seq<Line>, e: seq<Line>, n: nat,
                sa: seq<string>, sb: seq<string>, sc: seq<string>, se: seq<string>)
    requires AtIndent(a, n) == sa && AtIndent(b, n) == sb && AtIndent(c, n) == sc && AtIndent(e, n) == se
    ensures AtIndent(a + b + c + e, n) == sa + sb + sc + se
  {
    Levels3(a, b, c, n, sa, sb, sc);
    AtIndentConcat(a + b + c, e, n);
  }

  /** The common shapes of a level: only the first line of three parts. */
  lemma OnlyFirst3(a: seq<Line>, b: seq<Line>, c: seq<Line>, n: nat, x: string)
    requires AtIndent(a, n) == [x] && AtIndent(b, n) == [] && AtIndent(c, n) == []
    ensures AtIndent(a + b + c, n) == [x]
  {
    Levels3(a, b, c, n, [x], [], []);
  }

  /** The middle part and the last line of three parts. */
  lemma Tail3(a: seq<Line>, b: seq<Line>, c: seq<Line>, n: nat, sb: seq<string>, y: string)
    requires AtIndent(a, n) == [] && AtIndent(b, n) == sb && AtIndent(c, n) == [y]
    ensures AtIndent(a + b + c, n) == sb + [y]
  {
    Levels3(a, b, c, n, [], sb, [y]);
  }

  /** The opening and closing lines of four parts. */
  lemma Ends4(a: seq<Line>, b: seq<Line>, c: seq<Line>, e: seq<Line>, n: nat, x: string, y: string)
    requires AtIndent(a, n) == [x] && AtIndent(b, n) == [] && AtIndent(c, n) == [] && AtIndent(e, n) == [y]
    ensures AtIndent(a + b + c + e, n) == [x, y]
  {
    Levels4(a, b, c, e, n, [x], [], [], [y]);
  }

  /** The two middle parts of four. */
  lemma Middle4(a: seq<Line>, b: seq<Line>, c: seq<Line>, e: seq<Line>, n: nat, sb: seq<string>, sc: seq<string>)
    requires AtIndent(a, n) == [] && AtIndent(b, n) == sb && AtIndent(c, n) == sc && AtIndent(e, n) == []
    ensures AtIndent(a + b + c + e, n) == sb + sc
  {
    Levels4(a, b, c, e, n, [], sb, sc, []);
  }

  lemma Indented3(a: seq<Line>, b: seq<Line>, c: seq<Line>, n: nat)
    requires IndentedBy(a, n) && IndentedBy(b, n) && IndentedBy(c, n)
    ensures IndentedBy(a + b + c, n)
  {
    IndentedByConcat(a, b, n);
    IndentedByConcat(a + b, c, n);
  }

  lemma Indented4(a: seq<Line>, b: seq<Line>, c: seq<Line>, e: seq<Line>, n: nat)
    requires IndentedBy(a, n) && IndentedBy(b, n) && IndentedBy(c, n) && IndentedBy(e, n)
    ensures IndentedBy(a + b + c + e, n)
  {
    Indented3(a, b, c, n);
    IndentedByConcat(a + b + c, e, n);
  }

  lemma IndentedByConcat(a: seq<Line>, b: seq<Line>, n: nat)
    requires IndentedBy(a, n) && IndentedBy(b, n)
    ensures IndentedBy(a + b, n)
  {
    forall i | 0 <= i < |a + b| ensures (a + b)[i].indent >= n {
      if i >= |a| { assert (a + b)[i] == b[i - |a|]; }
    }
  }

  /** A run that opens with one line and closes with another starts and
      ends with exactly those lines. */
  lemma Framed(first: Line, b: seq<Line>, c: seq<Line>, last: Line)
    ensures ([first] + b + c + [last])[0] == first
    ensures ([first] + b + c + [last])[|[first] + b + c + [last]| - 1] == last
  {
  }
}
