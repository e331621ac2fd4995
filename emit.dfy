/** The block-level `fmt` methods of creusot/src/mlcfg/printer.rs as they run:
    each appends to a formatter, line after line, in the loops of the source.
    Each is proved to append exactly the rendering of the `Listing` line
    sequence of its node. */
module Emit {
  import opened Text
  import opened Ir
  import opened Printer
  import opened Layout
  import opened Listing

  /** The `fmt::Formatter` sink: everything written so far. Writing cannot fail here. */
  class Formatter {
    var text: string

    constructor ()
      ensures text == ""
    {
      text := "";
    }

    method Write(s: string)
      modifies this
      ensures text == old(text) + s
    {
      text := text + s;
    }

    /** `FormatEnv::indent_line`: `{:indent$}` of the empty string, that is
        exactly `fe.indent` spaces and no newline. */
    method IndentLine(fe: FormatEnv)
      modifies this
      ensures text == old(text) + Spaces(fe.indent)
    {
      Write(Spaces(fe.indent));
    }

    /** `indent_line` followed by a `writeln!` of `content`: one whole line. */
    method WriteLine(fe: FormatEnv, content: string)
      modifies this
      ensures text == old(text) + Render([Line(fe.indent, content)])
    {
      IndentLine(fe);
      Write(content + "\n");
      RenderSnoc([], Line(fe.indent, content));
      assert [] + [Line(fe.indent, content)] == [Line(fe.indent, content)];
    }
  }

  /** `Statement::fmt`: the indentation and the statement, without the `;`
      and newline its block adds. */
  method FmtStatement(d: Defs, fe: FormatEnv, s: Statement, f: Formatter)
    requires StatementRenderable(s)
    modifies f
    ensures f.text == old(f.text) + Spaces(fe.indent) + ShowStatement(d, fe, s)
  {
    f.IndentLine(fe);
    match s
    case Assign(lhs, rhs) =>
      f.Write(lhs + " <- " + ShowExp(d, fe, rhs));
    case Freeze(loc) =>
      f.Write("assume { ^ " + loc + " = * " + loc + " }");
    case Invariant(nm, e) =>
      f.Write("invariant " + nm + " { " + ShowExp(d, fe, e) + " }");
  }

  /** The loop of a switch over its arms. */
  method FmtArms(fe: FormatEnv, arms: seq<(Pattern, BlockId)>, f: Formatter)
    modifies f
    ensures f.text == old(f.text) + Render(ArmLines(fe, arms))
  {
    ghost var t0 := f.text;
    var i := 0;
    while i < |arms|
      invariant 0 <= i <= |arms|
      invariant f.text == t0 + Render(ArmLines(fe, arms[..i]))
    {
      var (pat, tgt) := arms[i];
      f.WriteLine(fe, "| " + ShowPattern(pat) + " -> goto " + ShowBlockId(tgt));
      AppendLines(t0, ArmLines(fe, arms[..i]), [ArmLine(fe, arms[i])]);
      assert ArmLines(fe, arms[..i + 1]) == ArmLines(fe, arms[..i]) + [ArmLine(fe, arms[i])];
      i := i + 1;
    }
    assert arms[..i] == arms;
  }

  /** `Terminator::fmt`; a switch writes its arms one step deeper. */
  method FmtTerminator(d: Defs, fe: FormatEnv, t: Terminator, f: Formatter)
    requires TerminatorRenderable(t)
    modifies f
    ensures f.text == old(f.text) + Render(TerminatorLines(d, fe, t))
  {
    match t
    case Goto(b) =>
      f.WriteLine(fe, "goto " + ShowBlockId(b));
    case Absurd =>
      f.WriteLine(fe, "absurd");
    case Return =>
      f.WriteLine(fe, "_0");
    case Switch(x, arms) =>
      ghost var t0 := f.text;
      var head := [Line(fe.indent, "switch (" + ShowExp(d, fe, x) + ")")];
      f.WriteLine(fe, "switch (" + ShowExp(d, fe, x) + ")");
      var inner := fe.Indent(2);
      FmtArms(inner, arms, f);
      AppendLines(t0, head, ArmLines(inner, arms));
      f.WriteLine(inner, "end");
      AppendLines(t0, head + ArmLines(inner, arms), [Line(inner.indent, "end")]);
      SwitchLines(d, fe, t);
  }

  /** One statement of a block: `writeln!` of the statement and `;`. */
  method FmtStatementLine(d: Defs, fe: FormatEnv, s: Statement, f: Formatter)
    requires StatementRenderable(s)
    modifies f
    ensures f.text == old(f.text) + Render([StatementLine(d, fe, s)])
  {
    ghost var t0 := f.text;
    FmtStatement(d, fe, s, f);
    f.Write(";\n");
    ghost var text := ShowStatement(d, fe, s);
    assert ";\n" == ";" + "\n";
    Assoc(t0 + Spaces(fe.indent), text, ";\n");
    Assoc(text, ";", "\n");
    WrittenLine(t0, StatementLine(d, fe, s));
  }

  /** The loop of a block over its statements. */
  method FmtStatements(d: Defs, fe: FormatEnv, ss: seq<Statement>, f: Formatter)
    requires forall i :: 0 <= i < |ss| ==> StatementRenderable(ss[i])
    modifies f
    ensures f.text == old(f.text) + Render(StatementLines(d, fe, ss))
  {
    ghost var t0 := f.text;
    var i := 0;
    while i < |ss|
      invariant 0 <= i <= |ss|
      invariant f.text == t0 + Render(StatementLines(d, fe, ss[..i]))
    {
      FmtStatementLine(d, fe, ss[i], f);
      AppendLines(t0, StatementLines(d, fe, ss[..i]), [StatementLine(d, fe, ss[i])]);
      StatementLinesSnoc(d, fe, ss, i);
      i := i + 1;
    }
    assert ss[..i] == ss;
  }

  /** `Block::fmt`: the label line, the statements and the terminator one
      step deeper, then the closing brace. */
  method FmtBlock(d: Defs, fe: FormatEnv, b: Block, f: Formatter)
    requires BlockRenderable(b)
    modifies f
    ensures f.text == old(f.text) + Render(BlockLines(d, fe, b))
  {
    ghost var t0 := f.text;
    var head := [Line(fe.indent, LabelText(b.id))];
    f.WriteLine(fe, ShowBlockId(b.id) + " {");
    var inner := fe.Indent(2);
    FmtStatements(d, inner, b.statements, f);
    var body := StatementLines(d, inner, b.statements);
    AppendLines(t0, head, body);
    FmtTerminator(d, inner, b.terminator, f);
    var term := TerminatorLines(d, inner, b.terminator);
    AppendLines(t0, head + body, term);
    f.WriteLine(fe, "}");
    AppendLines(t0, head + body + term, [Line(fe.indent, "}")]);
  }

  /** The loop of a function over its blocks, in order. */
  method FmtBlocks(d: Defs, fe: FormatEnv, bs: seq<Block>, f: Formatter)
    requires forall i :: 0 <= i < |bs| ==> BlockRenderable(bs[i])
    modifies f
    ensures f.text == old(f.text) + Render(BlocksLines(d, fe, bs))
  {
    ghost var t0 := f.text;
    var i := 0;
    while i < |bs|
      invariant 0 <= i <= |bs|
      invariant f.text == t0 + Render(BlocksLines(d, fe, bs[..i]))
    {
      FmtBlock(d, fe, bs[i], f);
      AppendLines(t0, BlocksLines(d, fe, bs[..i]), BlockLines(d, fe, bs[i]));
      assert bs[..i + 1][..i] == bs[..i];
      i := i + 1;
    }
    assert bs[..i] == bs;
  }

  /** The header line of `Function::fmt`, with its loop over the arguments. */
  method FmtHeader(fe: FormatEnv, fn: Function, f: Formatter)
    modifies f
    ensures f.text == old(f.text) + Render([Line(fe.indent, HeaderText(fe, fn))])
  {
    ghost var t0 := f.text;
    f.IndentLine(fe);
    var name := "let cfg " + ShowQName(fe, fn.name) + " ";
    f.Write(name);
    if fn.args == [] {
      f.Write("()");
      Assoc(t0 + Spaces(fe.indent), name, "()");
    }
    ghost var t1 := t0 + Spaces(fe.indent) + HeaderStart(fe, fn);
    assert f.text == t1;
    var i := 0;
    while i < |fn.args|
      invariant 0 <= i <= |fn.args|
      invariant f.text == t1 + ParamGroups(fe, fn.args[..i])
    {
      var (nm, ty) := fn.args[i];
      f.Write("(o_" + nm + " : " + ShowType(fe, ty) + ")");
      Assoc(t1, ParamGroups(fe, fn.args[..i]), ParamGroup(fe, fn.args[i]));
      assert fn.args[..i + 1][..i] == fn.args[..i];
      i := i + 1;
    }
    assert fn.args[..i] == fn.args;
    var tail := " : " + ShowType(fe, fn.retty);
    f.Write(tail + "\n");
    ghost var groups := ParamGroups(fe, fn.args);
    ghost var start := HeaderStart(fe, fn);
    Assoc(t0 + Spaces(fe.indent), start, groups);
    Assoc(start + groups, " : ", ShowType(fe, fn.retty));
    Assoc(start + groups, tail, "\n");
    Assoc(t0 + Spaces(fe.indent), start + groups, tail + "\n");
    WrittenLine(t0, Line(fe.indent, HeaderText(fe, fn)));
  }

  /** One loop over the contract clauses of one kind. */
  method FmtClauses(fe: FormatEnv, keyword: string, clauses: seq<string>, f: Formatter)
    modifies f
    ensures f.text == old(f.text) + Render(ClauseLines(fe, keyword, clauses))
  {
    ghost var t0 := f.text;
    var i := 0;
    while i < |clauses|
      invariant 0 <= i <= |clauses|
      invariant f.text == t0 + Render(ClauseLines(fe, keyword, clauses[..i]))
    {
      f.WriteLine(fe, keyword + " { " + clauses[i] + " }");
      AppendLines(t0, ClauseLines(fe, keyword, clauses[..i]), [ClauseLine(fe, keyword, clauses[i])]);
      assert ClauseLines(fe, keyword, clauses[..i + 1]) == ClauseLines(fe, keyword, clauses[..i]) + [ClauseLine(fe, keyword, clauses[i])];
      i := i + 1;
    }
    assert clauses[..i] == clauses;
  }

  /** One loop of forward declarations. */
  method FmtVars(fe: FormatEnv, vs: seq<(string, Type)>, f: Formatter)
    modifies f
    ensures f.text == old(f.text) + Render(VarLines(fe, vs))
  {
    ghost var t0 := f.text;
    var i := 0;
    while i < |vs|
      invariant 0 <= i <= |vs|
      invariant f.text == t0 + Render(VarLines(fe, vs[..i]))
    {
      var (nm, ty) := vs[i];
      f.WriteLine(fe, "var " + nm + " : " + ShowType(fe, ty) + ";");
      AppendLines(t0, VarLines(fe, vs[..i]), [VarLine(fe, vs[i])]);
      assert VarLines(fe, vs[..i + 1]) == VarLines(fe, vs[..i]) + [VarLine(fe, vs[i])];
      i := i + 1;
    }
    assert vs[..i] == vs;
  }

  /** The loop of the prologue copying each argument into its slot. */
  method FmtMoves(fe: FormatEnv, args: seq<(string, Type)>, f: Formatter)
    modifies f
    ensures f.text == old(f.text) + Render(MoveLines(fe, args))
  {
    ghost var t0 := f.text;
    var i := 0;
    while i < |args|
      invariant 0 <= i <= |args|
      invariant f.text == t0 + Render(MoveLines(fe, args[..i]))
    {
      var arg := args[i].0;
      f.WriteLine(fe, arg + " <- o_" + arg + ";");
      AppendLines(t0, MoveLines(fe, args[..i]), [MoveLine(fe, args[i])]);
      assert MoveLines(fe, args[..i + 1]) == MoveLines(fe, args[..i]) + [MoveLine(fe, args[i])];
      i := i + 1;
    }
    assert args[..i] == args;
  }

  /** The contract part of `Function::fmt`, under the deeper environment. */
  method FmtContract(fe: FormatEnv, fn: Function, f: Formatter)
    modifies f
    ensures f.text == old(f.text) + Render(ContractLines(fe, fn))
  {
    ghost var t0 := f.text;
    FmtClauses(fe, "requires", fn.preconds, f);
    var pre := ClauseLines(fe, "requires", fn.preconds);
    FmtClauses(fe, "ensures", fn.postconds, f);
    var post := ClauseLines(fe, "ensures", fn.postconds);
    AppendLines(t0, pre, post);
    f.WriteLine(fe, "=");
    AppendLines(t0, pre + post, [Line(fe.indent, "=")]);
  }

  /** The forward declarations of `Function::fmt`. */
  method FmtDecls(fe: FormatEnv, fn: Function, f: Formatter)
    modifies f
    ensures f.text == old(f.text) + Render(DeclLines(fe, fn))
  {
    ghost var t0 := f.text;
    var ret := [Line(fe.indent, "var _0 : " + ShowType(fe, fn.retty) + ";")];
    f.WriteLine(fe, "var _0 : " + ShowType(fe, fn.retty) + ";");
    FmtVars(fe, fn.args, f);
    AppendLines(t0, ret, VarLines(fe, fn.args));
    FmtVars(fe, fn.vars, f);
    AppendLines(t0, ret + VarLines(fe, fn.args), VarLines(fe, fn.vars));
  }

  /** The prologue block of `Function::fmt`. */
  method FmtPrologue(fe: FormatEnv, fn: Function, f: Formatter)
    modifies f
    ensures f.text == old(f.text) + Render(PrologueLines(fe, fn))
  {
    ghost var t0 := f.text;
    var inner := fe.Indent(2);
    var open := [Line(fe.indent, "{")];
    f.WriteLine(fe, "{");
    FmtMoves(inner, fn.args, f);
    var moves := MoveLines(inner, fn.args);
    AppendLines(t0, open, moves);
    f.WriteLine(inner, "goto BB0;");
    AppendLines(t0, open + moves, [Line(inner.indent, "goto BB0;")]);
    f.WriteLine(fe, "}");
    AppendLines(t0, open + moves + [Line(inner.indent, "goto BB0;")], [Line(fe.indent, "}")]);
  }

  /** `Function::fmt`: header, contract one step deeper, declarations,
      prologue, blocks. */
  method FmtFunction(d: Defs, fe: FormatEnv, fn: Function, f: Formatter)
    requires FunctionRenderable(fn)
    modifies f
    ensures f.text == old(f.text) + Render(FunctionLines(d, fe, fn))
  {
    ghost var t0 := f.text;
    var header := [Line(fe.indent, HeaderText(fe, fn))];
    FmtHeader(fe, fn, f);
    FmtContract(fe.Indent(2), fn, f);
    var contract := ContractLines(fe.Indent(2), fn);
    AppendLines(t0, header, contract);
    FmtDecls(fe, fn, f);
    var decls := DeclLines(fe, fn);
    AppendLines(t0, header + contract, decls);
    FmtPrologue(fe, fn, f);
    var prologue := PrologueLines(fe, fn);
    AppendLines(t0, header + contract + decls, prologue);
    FmtBlocks(d, fe, fn.blocks, f);
    AppendLines(t0, header + contract + decls + prologue, BlocksLines(d, fe, fn.blocks));
  }

  /** One constructor line of a type declaration. */
  method FmtConstructor(fe: FormatEnv, c: (string, seq<Type>), f: Formatter)
    modifies f
    ensures f.text == old(f.text) + Render([ConstructorLine(fe, c)])
  {
    ghost var t0 := f.text;
    var (cons, args) := c;
    f.IndentLine(fe);
    if args == [] {
      f.Write("  | " + cons + "\n");
    } else {
      f.Write("  | " + cons + "(" + Join(ShowTypes(fe, args), ", ") + ")\n");
    }
    WrittenLine(t0, ConstructorLine(fe, c));
  }

  /** `TyDecl::fmt`: the header line, then a loop writing one line per
      constructor, one step deeper. */
  method FmtTyDecl(fe: FormatEnv, td: TyDecl, f: Formatter)
    modifies f
    ensures f.text == old(f.text) + Render(TyDeclLines(fe, td))
  {
    ghost var t0 := f.text;
    var title := "type " + ShowQName(fe, td.tyName) + " " + Join(td.tyParams, " ") + " =";
    ghost var head := [Line(fe.indent, title)];
    f.WriteLine(fe, title);
    var inner := fe.Indent(2);
    var cs := td.tyConstructors;
    var i := 0;
    while i < |cs|
      invariant 0 <= i <= |cs|
      invariant f.text == t0 + Render(head) + Render(ConstructorLines(inner, cs[..i]))
    {
      FmtConstructor(inner, cs[i], f);
      AppendLines(t0 + Render(head), ConstructorLines(inner, cs[..i]), [ConstructorLine(inner, cs[i])]);
      ConstructorLinesSnoc(inner, cs, i);
      i := i + 1;
    }
    assert cs[..i] == cs;
    AppendLines(t0, head, ConstructorLines(inner, cs));
  }
}
