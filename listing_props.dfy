/** What the layout of creusot/src/mlcfg/printer.rs guarantees: every line
    of a node is indented at least as far as the node's environment; at the
    base indentation a block shows only its label and closing brace, a
    function only its header, declarations, prologue braces and block
    skeletons; one step deeper sit the statements and exactly one terminator
    line, the contract and the prologue, each in input order. */
module ListingProps {
  import opened Text
  import opened Ir
  import opened Printer
  import opened Layout
  import opened Listing

  // ----- Terminators -----

  function ArmTexts(arms: seq<(Pattern, BlockId)>): seq<string>
  {
    seq(|arms|, i requires 0 <= i < |arms| => ArmText(arms[i]))
  }

  lemma ArmLevel(fe: FormatEnv, arms: seq<(Pattern, BlockId)>)
    ensures IndentedBy(ArmLines(fe, arms), fe.indent)
    ensures AtIndent(ArmLines(fe, arms), fe.indent) == ArmTexts(arms)
  {
    AtIndentFlat(ArmLines(fe, arms), fe.indent);
  }

  /** A terminator is its head line at the environment's indentation, first;
      a switch adds its arms, in the given order, and `end` last, one step
      deeper. */
  lemma TerminatorShape(d: Defs, fe: FormatEnv, t: Terminator)
    requires TerminatorRenderable(t)
    ensures IndentedBy(TerminatorLines(d, fe, t), fe.indent)
    ensures AtIndent(TerminatorLines(d, fe, t), fe.indent) == [TerminatorHead(d, fe, t)]
    ensures !t.Switch? ==> |TerminatorLines(d, fe, t)| == 1
    ensures t.Switch? ==> |TerminatorLines(d, fe, t)| == |t.arms| + 2
    ensures t.Switch? ==> AtIndent(TerminatorLines(d, fe, t), fe.indent + 2) == ArmTexts(t.arms) + ["end"]
    ensures TerminatorLines(d, fe, t)[0] == Line(fe.indent, TerminatorHead(d, fe, t))
    ensures t.Switch? ==> TerminatorLines(d, fe, t)[|t.arms| + 1] == Line(fe.indent + 2, "end")
  {
    if t.Switch? {
      SwitchLines(d, fe, t);
      ArmLevel(fe.Indent(2), t.arms);
      SwitchFrame(fe.indent, TerminatorHead(d, fe, t), ArmLines(fe.Indent(2), t.arms), ArmTexts(t.arms));
    } else {
      AtIndentSame(Line(fe.indent, TerminatorHead(d, fe, t)));
    }
  }

  /** The frame of a switch: its head line, lines one step deeper, then `end`. */
  lemma SwitchFrame(n: nat, head: string, arms: seq<Line>, texts: seq<string>)
    requires IndentedBy(arms, n + 2) && AtIndent(arms, n + 2) == texts
    ensures IndentedBy([Line(n, head)] + arms + [Line(n + 2, "end")], n)
    ensures AtIndent([Line(n, head)] + arms + [Line(n + 2, "end")], n) == [head]
    ensures AtIndent([Line(n, head)] + arms + [Line(n + 2, "end")], n + 2) == texts + ["end"]
  {
    var h, e := [Line(n, head)], [Line(n + 2, "end")];
    AtIndentSame(h[0]);
    AtIndentSame(e[0]);
    AtIndentOther(h[0], n + 2);
    AtIndentOther(e[0], n);
    AtIndentDeeper(arms, n);
    OnlyFirst3(h, arms, e, n, head);
    Tail3(h, arms, e, n + 2, texts, "end");
    assert IndentedBy(arms, n);
    Indented3(h, arms, e, n);
  }

  // ----- Blocks -----

  function StatementTexts(d: Defs, fe: FormatEnv, ss: seq<Statement>): seq<string>
    requires forall i :: 0 <= i < |ss| ==> StatementRenderable(ss[i])
  {
    seq(|ss|, i requires 0 <= i < |ss| => ShowStatement(d, fe, ss[i]) + ";")
  }

  lemma StatementLevel(d: Defs, fe: FormatEnv, ss: seq<Statement>)
    requires forall i :: 0 <= i < |ss| ==> StatementRenderable(ss[i])
    ensures IndentedBy(StatementLines(d, fe, ss), fe.indent)
    ensures AtIndent(StatementLines(d, fe, ss), fe.indent) == StatementTexts(d, fe, ss)
  {
    AtIndentFlat(StatementLines(d, fe, ss), fe.indent);
  }

  /** A block shows only its label and closing brace at its own indentation;
      one step deeper come its statements, each ending in `;`, then exactly one
      terminator line; the arms of a switch go deeper still. */
  lemma BlockShape(d: Defs, fe: FormatEnv, b: Block)
    requires BlockRenderable(b)
    ensures IndentedBy(BlockLines(d, fe, b), fe.indent)
    ensures AtIndent(BlockLines(d, fe, b), fe.indent) == [LabelText(b.id), "}"]
    ensures AtIndent(BlockLines(d, fe, b), fe.indent + 2)
         == StatementTexts(d, fe.Indent(2), b.statements) + [TerminatorHead(d, fe.Indent(2), b.terminator)]
    ensures BlockLines(d, fe, b)[0] == Line(fe.indent, LabelText(b.id))
    ensures BlockLines(d, fe, b)[|BlockLines(d, fe, b)| - 1] == Line(fe.indent, "}")
  {
    var inner := fe.Indent(2);
    var head, close := [Line(fe.indent, LabelText(b.id))], [Line(fe.indent, "}")];
    var body, term := StatementLines(d, inner, b.statements), TerminatorLines(d, inner, b.terminator);
    StatementLevel(d, inner, b.statements);
    TerminatorShape(d, inner, b.terminator);
    AtIndentDeeper(body, fe.indent);
    AtIndentDeeper(term, fe.indent);
    AtIndentSame(head[0]);
    AtIndentSame(close[0]);
    AtIndentOther(head[0], inner.indent);
    AtIndentOther(close[0], inner.indent);
    Ends4(head, body, term, close, fe.indent, LabelText(b.id), "}");
    Middle4(head, body, term, close, inner.indent, StatementTexts(d, inner, b.statements), [TerminatorHead(d, inner, b.terminator)]);
    Indented4(head, body, term, close, fe.indent);
    Framed(head[0], body, term, close[0]);
  }

  /** The base-level skeleton of a run of blocks: label line and closing brace
      of each, in order. */
  function Skeleton(bs: seq<Block>): (r: seq<string>)
    ensures |r| == 2 * |bs|
  {
    if bs == [] then [] else Skeleton(bs[..|bs| - 1]) + [LabelText(bs[|bs| - 1].id), "}"]
  }

  /** The skeleton lists the blocks' labels in input order. */
  lemma {:induction false} SkeletonOrder(bs: seq<Block>)
    ensures forall i :: 0 <= i < |bs| ==> Skeleton(bs)[2 * i] == LabelText(bs[i].id) && Skeleton(bs)[2 * i + 1] == "}"
  {
    if bs != [] {
      SkeletonOrder(bs[..|bs| - 1]);
    }
  }

  /** The blocks of a function appear at the base indentation as their label
      and brace lines, in input order, and nothing of them is shallower. */
  lemma {:induction false} BlocksShape(d: Defs, fe: FormatEnv, bs: seq<Block>)
    requires forall i :: 0 <= i < |bs| ==> BlockRenderable(bs[i])
    ensures IndentedBy(BlocksLines(d, fe, bs), fe.indent)
    ensures AtIndent(BlocksLines(d, fe, bs), fe.indent) == Skeleton(bs)
  {
    if bs != [] {
      var init := bs[..|bs| - 1];
      BlocksShape(d, fe, init);
      BlockShape(d, fe, bs[|bs| - 1]);
      AtIndentConcat(BlocksLines(d, fe, init), BlockLines(d, fe, bs[|bs| - 1]), fe.indent);
      IndentedByConcat(BlocksLines(d, fe, init), BlockLines(d, fe, bs[|bs| - 1]), fe.indent);
    }
  }

  /** Distinct block ids give distinct label lines. */
  lemma LabelInjective(a: BlockId, b: BlockId)
    requires LabelText(a) == LabelText(b)
    ensures a == b
  {
    var ta, tb := NatText(a), NatText(b);
    assert LabelText(a) == "BB" + ta + " {";
    assert ta == LabelText(a)[2..|LabelText(a)| - 2];
    assert tb == LabelText(b)[2..|LabelText(b)| - 2];
    NatTextInjective(a, b);
  }

  // ----- Functions -----

  function ParamGroupTexts(fe: FormatEnv, args: seq<(string, Type)>): seq<string>
  {
    seq(|args|, i requires 0 <= i < |args| => ParamGroup(fe, args[i]))
  }

  /** The parameter groups follow each other with no separator. */
  lemma {:induction false} ParamGroupsJoin(fe: FormatEnv, args: seq<(string, Type)>)
    ensures ParamGroups(fe, args) == Join(ParamGroupTexts(fe, args), "")
  {
    if args != [] {
      var init := args[..|args| - 1];
      ParamGroupsJoin(fe, init);
      assert ParamGroupTexts(fe, args) == ParamGroupTexts(fe, init) + [ParamGroup(fe, args[|args| - 1])];
      JoinSnoc(ParamGroupTexts(fe, init), ParamGroup(fe, args[|args| - 1]), "");
    }
  }

  /** The header: `()` exactly when there are no arguments, otherwise one
      `(o_x : T)` group per argument in order. */
  lemma HeaderShape(fe: FormatEnv, fn: Function)
    ensures fn.args == [] ==> HeaderText(fe, fn) == "let cfg " + ShowQName(fe, fn.name) + " () : " + ShowType(fe, fn.retty)
    ensures fn.args != [] ==>
      HeaderText(fe, fn) == "let cfg " + ShowQName(fe, fn.name) + " " + Join(ParamGroupTexts(fe, fn.args), "") + " : " + ShowType(fe, fn.retty)
  {
    ParamGroupsJoin(fe, fn.args);
  }

  function VarTexts(fe: FormatEnv, vs: seq<(string, Type)>): seq<string>
  {
    seq(|vs|, i requires 0 <= i < |vs| => VarLine(fe, vs[i]).content)
  }

  function ClauseTexts(keyword: string, clauses: seq<string>): seq<string>
  {
    seq(|clauses|, i requires 0 <= i < |clauses| => keyword + " { " + clauses[i] + " }")
  }

  function MoveTexts(args: seq<(string, Type)>): seq<string>
  {
    seq(|args|, i requires 0 <= i < |args| => MoveText(args[i]))
  }

  /** Everything of a function before its blocks. */
  function Preamble(fe: FormatEnv, fn: Function): seq<Line>
  {
    [Line(fe.indent, HeaderText(fe, fn))] + ContractLines(fe.Indent(2), fn) + DeclLines(fe, fn) + PrologueLines(fe, fn)
  }

  lemma ContractShape(fe: FormatEnv, fn: Function)
    ensures IndentedBy(ContractLines(fe, fn), fe.indent)
    ensures AtIndent(ContractLines(fe, fn), fe.indent)
         == ClauseTexts("requires", fn.preconds) + ClauseTexts("ensures", fn.postconds) + ["="]
    ensures forall i :: 0 <= i < |ContractLines(fe, fn)| ==> ContractLines(fe, fn)[i].indent == fe.indent
  {
    var pre, post, eq := ClauseLines(fe, "requires", fn.preconds), ClauseLines(fe, "ensures", fn.postconds), [Line(fe.indent, "=")];
    AtIndentFlat(pre, fe.indent);
    AtIndentFlat(post, fe.indent);
    AtIndentSame(eq[0]);
    Levels3(pre, post, eq, fe.indent, ClauseTexts("requires", fn.preconds), ClauseTexts("ensures", fn.postconds), ["="]);
  }

  lemma VarLevel(fe: FormatEnv, vs: seq<(string, Type)>)
    ensures AtIndent(VarLines(fe, vs), fe.indent) == VarTexts(fe, vs)
    ensures AtIndent(VarLines(fe, vs), fe.indent + 2) == []
  {
    AtIndentFlat(VarLines(fe, vs), fe.indent);
    AtIndentElsewhere(VarLines(fe, vs), fe.indent, fe.indent + 2);
  }

  lemma DeclShape(fe: FormatEnv, fn: Function)
    ensures IndentedBy(DeclLines(fe, fn), fe.indent)
    ensures AtIndent(DeclLines(fe, fn), fe.indent)
         == ["var _0 : " + ShowType(fe, fn.retty) + ";"] + VarTexts(fe, fn.args) + VarTexts(fe, fn.vars)
    ensures AtIndent(DeclLines(fe, fn), fe.indent + 2) == []
  {
    var ret, a, v := [Line(fe.indent, "var _0 : " + ShowType(fe, fn.retty) + ";")], VarLines(fe, fn.args), VarLines(fe, fn.vars);
    VarLevel(fe, fn.args);
    VarLevel(fe, fn.vars);
    AtIndentSame(ret[0]);
    AtIndentOther(ret[0], fe.indent + 2);
    Levels3(ret, a, v, fe.indent, [ret[0].content], VarTexts(fe, fn.args), VarTexts(fe, fn.vars));
    Levels3(ret, a, v, fe.indent + 2, [], [], []);
    Indented3(ret, a, v, fe.indent);
  }

  lemma PrologueShape(fe: FormatEnv, fn: Function)
    ensures IndentedBy(PrologueLines(fe, fn), fe.indent)
    ensures AtIndent(PrologueLines(fe, fn), fe.indent) == ["{", "}"]
    ensures AtIndent(PrologueLines(fe, fn), fe.indent + 2) == MoveTexts(fn.args) + ["goto BB0;"]
    ensures PrologueLines(fe, fn)[0] == Line(fe.indent, "{")
    ensures PrologueLines(fe, fn)[|PrologueLines(fe, fn)| - 1] == Line(fe.indent, "}")
  {
    var inner := fe.Indent(2);
    var open, moves, jump, close := [Line(fe.indent, "{")], MoveLines(inner, fn.args), [Line(inner.indent, "goto BB0;")], [Line(fe.indent, "}")];
    AtIndentFlat(moves, inner.indent);
    AtIndentElsewhere(moves, inner.indent, fe.indent);
    AtIndentSame(open[0]);
    AtIndentSame(close[0]);
    AtIndentSame(jump[0]);
    AtIndentOther(jump[0], fe.indent);
    AtIndentOther(open[0], inner.indent);
    AtIndentOther(close[0], inner.indent);
    Ends4(open, moves, jump, close, fe.indent, "{", "}");
    Middle4(open, moves, jump, close, inner.indent, MoveTexts(fn.args), ["goto BB0;"]);
    Indented4(open, moves, jump, close, fe.indent);
    Framed(open[0], moves, jump, close[0]);
  }

  /** The base level of a function: the header, `var _0`, the arguments' and
      then the locals' declarations, the prologue braces, then the skeleton of
      every block in order. Nothing of it is shallower than the environment. */
  lemma FunctionShape(d: Defs, fe: FormatEnv, fn: Function)
    requires FunctionRenderable(fn)
    ensures IndentedBy(FunctionLines(d, fe, fn), fe.indent)
    ensures AtIndent(FunctionLines(d, fe, fn), fe.indent)
         == [HeaderText(fe, fn), "var _0 : " + ShowType(fe, fn.retty) + ";"]
            + VarTexts(fe, fn.args) + VarTexts(fe, fn.vars) + ["{", "}"] + Skeleton(fn.blocks)
  {
    var h, c, dl, p, b := [Line(fe.indent, HeaderText(fe, fn))], ContractLines(fe.Indent(2), fn), DeclLines(fe, fn), PrologueLines(fe, fn), BlocksLines(d, fe, fn.blocks);
    ContractShape(fe.Indent(2), fn);
    AtIndentDeeper(c, fe.indent);
    DeclShape(fe, fn);
    PrologueShape(fe, fn);
    BlocksShape(d, fe, fn.blocks);
    AtIndentSame(h[0]);
    FunctionLevels(h, c, dl, p, b, fe.indent, HeaderText(fe, fn), "var _0 : " + ShowType(fe, fn.retty) + ";",
                   VarTexts(fe, fn.args), VarTexts(fe, fn.vars), Skeleton(fn.blocks));
    Indented4(h, c, dl, p, fe.indent);
    IndentedByConcat(h + c + dl + p, b, fe.indent);
  }

  /** One step deeper, before the blocks: the `requires` lines, the `ensures`
      lines, `=`, then one `x <- o_x;` per argument in order and `goto BB0;`. */
  lemma PreambleInner(fe: FormatEnv, fn: Function)
    ensures AtIndent(Preamble(fe, fn), fe.indent + 2)
         == ClauseTexts("requires", fn.preconds) + ClauseTexts("ensures", fn.postconds) + ["="]
            + MoveTexts(fn.args) + ["goto BB0;"]
  {
    var n := fe.indent + 2;
    var h, c, dl, p := [Line(fe.indent, HeaderText(fe, fn))], ContractLines(fe.Indent(2), fn), DeclLines(fe, fn), PrologueLines(fe, fn);
    ContractShape(fe.Indent(2), fn);
    DeclShape(fe, fn);
    PrologueShape(fe, fn);
    AtIndentOther(h[0], n);
    PreambleLevels(h, c, dl, p, n, ClauseTexts("requires", fn.preconds), ClauseTexts("ensures", fn.postconds), MoveTexts(fn.args));
  }

  lemma FunctionLevels(h: seq<Line>, c: seq<Line>, dl: seq<Line>, p: seq<Line>, b: seq<Line>, n: nat,
                       header: string, ret: string, args: seq<string>, vars: seq<string>, skeleton: seq<string>)
    requires AtIndent(h, n) == [header] && AtIndent(c, n) == [] && AtIndent(dl, n) == [ret] + args + vars
    requires AtIndent(p, n) == ["{", "}"] && AtIndent(b, n) == skeleton
    ensures AtIndent(h + c + dl + p + b, n) == [header, ret] + args + vars + ["{", "}"] + skeleton
  {
    Levels4(h, c, dl, p, n, [header], [], [ret] + args + vars, ["{", "}"]);
    AtIndentConcat(h + c + dl + p, b, n);
  }

  lemma PreambleLevels(h: seq<Line>, c: seq<Line>, dl: seq<Line>, p: seq<Line>, n: nat,
                       pre: seq<string>, post: seq<string>, moves: seq<string>)
    requires AtIndent(h, n) == [] && AtIndent(c, n) == pre + post + ["="] && AtIndent(dl, n) == []
    requires AtIndent(p, n) == moves + ["goto BB0;"]
    ensures AtIndent(h + c + dl + p, n) == pre + post + ["="] + moves + ["goto BB0;"]
  {
    Levels4(h, c, dl, p, n, [], pre + post + ["="], [], moves + ["goto BB0;"]);
  }

  // ----- Type declarations -----

  function ConstructorTexts(fe: FormatEnv, cs: seq<(string, seq<Type>)>): seq<string>
  {
    seq(|cs|, i requires 0 <= i < |cs| => ConstructorText(fe, cs[i]))
  }

  /** A type declaration is its header line and then exactly one line per
      constructor, in order, one step deeper. */
  lemma TyDeclShape(fe: FormatEnv, td: TyDecl)
    ensures |TyDeclLines(fe, td)| == 1 + |td.tyConstructors|
    ensures IndentedBy(TyDeclLines(fe, td), fe.indent)
    ensures AtIndent(TyDeclLines(fe, td), fe.indent) == ["type " + ShowQName(fe, td.tyName) + " " + Join(td.tyParams, " ") + " ="]
    ensures AtIndent(TyDeclLines(fe, td), fe.indent + 2) == ConstructorTexts(fe.Indent(2), td.tyConstructors)
    ensures TyDeclLines(fe, td)[0] == Line(fe.indent, "type " + ShowQName(fe, td.tyName) + " " + Join(td.tyParams, " ") + " =")
    ensures forall i :: 0 <= i < |td.tyConstructors| ==>
              TyDeclLines(fe, td)[i + 1] == Line(fe.indent + 2, ConstructorText(fe.Indent(2), td.tyConstructors[i]))
  {
    var inner := fe.Indent(2);
    var head := [Line(fe.indent, "type " + ShowQName(fe, td.tyName) + " " + Join(td.tyParams, " ") + " =")];
    var cs := ConstructorLines(inner, td.tyConstructors);
    AtIndentFlat(cs, inner.indent);
    AtIndentElsewhere(cs, inner.indent, fe.indent);
    AtIndentSame(head[0]);
    AtIndentOther(head[0], inner.indent);
    AtIndentConcat(head, cs, fe.indent);
    AtIndentConcat(head, cs, inner.indent);
    IndentedByConcat(head, cs, fe.indent);
  }

  /** Each constructor line starts with the bar and the constructor's name;
      fields, if any, follow in parentheses. */
  lemma ConstructorShape(fe: FormatEnv, c: (string, seq<Type>))
    ensures ConstructorText(fe, c)[..4 + |c.0|] == "  | " + c.0
    ensures c.1 == [] <==> ConstructorText(fe, c) == "  | " + c.0
  {
    if c.1 != [] {
      assert ConstructorText(fe, c) == ("  | " + c.0) + ("(" + Join(ShowTypes(fe, c.1), ", ") + ")");
    }
  }
}
