/** Concrete renderings by creusot/src/mlcfg/printer.rs, worked out from the
    model: a two-armed switch and a whole small function. Both are computed
    under a top-level environment (no indentation) whose open scope is the
    function's own module, so names print bare. */
module Scenarios {
  import opened Text
  import opened Ir
  import opened Printer
  import opened Layout
  import opened Listing

  lemma BlockIdText(n: nat)
    requires n < 10
    ensures ShowBlockId(n) == "BB" + [DigitChar(n)]
  {
  }

  lemma TwoSpaces()
    ensures Spaces(2) == "  "
  {
  }

  const FlagArms: seq<(Pattern, BlockId)> := [(ConsP("True", []), 1), (ConsP("False", []), 2)]

  lemma ArmTexts()
    ensures ArmText(FlagArms[0]) == "| True -> goto BB1"
    ensures ArmText(FlagArms[1]) == "| False -> goto BB2"
  {
    BlockIdText(1);
    BlockIdText(2);
  }

  lemma FlagSwitchLines(d: Defs, scope: seq<string>)
    ensures TerminatorLines(d, FormatEnv(scope, 0), Switch(Var("flag"), FlagArms))
         == [Line(0, "switch (flag)"), Line(2, "| True -> goto BB1"), Line(2, "| False -> goto BB2"), Line(2, "end")]
  {
    var fe := FormatEnv(scope, 0);
    var t := Switch(Var("flag"), FlagArms);
    assert TerminatorHead(d, fe, t) == "switch (flag)";
    ArmTexts();
    SwitchLines(d, fe, t);
    assert ArmLines(fe.Indent(2), FlagArms) == [Line(2, "| True -> goto BB1"), Line(2, "| False -> goto BB2")];
  }

  /** `switch (flag)` with arms `True` and `False`: the head, one line per arm
      two columns deeper in the given order, then `end` at the same depth, the
      last line also ending with a newline. */
  lemma SwitchScenario(d: Defs, scope: seq<string>)
    ensures Render(TerminatorLines(d, FormatEnv(scope, 0), Switch(Var("flag"), FlagArms)))
         == "switch (flag)\n" + "  | True -> goto BB1\n" + "  | False -> goto BB2\n" + "  end\n"
  {
    FlagSwitchLines(d, scope);
    SwitchRendered();
  }

  lemma SwitchRendered()
    ensures Render([Line(0, "switch (flag)"), Line(2, "| True -> goto BB1"), Line(2, "| False -> goto BB2"), Line(2, "end")])
         == "switch (flag)\n" + "  | True -> goto BB1\n" + "  | False -> goto BB2\n" + "  end\n"
  {
    RenderFour(Line(0, "switch (flag)"), Line(2, "| True -> goto BB1"), Line(2, "| False -> goto BB2"), Line(2, "end"));
    SwitchLineTexts();
  }

  lemma SwitchLineTexts()
    ensures LineText(Line(0, "switch (flag)")) + "\n" == "switch (flag)\n"
    ensures LineText(Line(2, "| True -> goto BB1")) + "\n" == "  | True -> goto BB1\n"
    ensures LineText(Line(2, "| False -> goto BB2")) + "\n" == "  | False -> goto BB2\n"
    ensures LineText(Line(2, "end")) + "\n" == "  end\n"
  {
    Unindented("switch (flag)");
    assert "switch (flag)" + "\n" == "switch (flag)\n";
    Indented2("| True -> goto BB1", "  | True -> goto BB1\n");
    Indented2("| False -> goto BB2", "  | False -> goto BB2\n");
    Indented2("end", "  end\n");
  }

  lemma Unindented(content: string)
    ensures LineText(Line(0, content)) == content
  {
  }

  lemma Indented2(content: string, written: string)
    requires written == "  " + content + "\n"
    ensures LineText(Line(2, content)) + "\n" == written
  {
    TwoSpaces();
  }

  /** Four lines render as four newline-terminated texts. */
  lemma RenderFour(a: Line, b: Line, c: Line, e: Line)
    ensures Render([a, b, c, e]) == (LineText(a) + "\n") + (LineText(b) + "\n") + (LineText(c) + "\n") + (LineText(e) + "\n")
  {
    assert [a] == [] + [a];
    RenderSnoc([], a);
    RenderSnoc([a], b);
    assert [a] + [b] == [a, b];
    RenderSnoc([a, b], c);
    assert [a, b] + [c] == [a, b, c];
    RenderSnoc([a, b, c], e);
    assert [a, b, c] + [e] == [a, b, c, e];
  }

  // ----- A whole function -----

  const UInt32: Type := Uint(U32)

  /** `fn add(x: u32, y: u32) -> u32 { let z = x + y; z }` after translation,
      in module `m`: one local `z`, one block assigning `x + y` to it and
      returning. */
  const AddFn: Function := Function(
    QName(["m"], ["add"]), UInt32,
    [("x", UInt32), ("y", UInt32)], [("z", UInt32)],
    [Block(0, [Assign("z", BinaryOp(Other(Add), Var("x"), Var("y")))], Return)],
    [], [])

  /** The environment of a top-level item printed inside module `m`. */
  const AddEnv: FormatEnv := FormatEnv(["m"], 0)

  lemma UInt32Text(fe: FormatEnv)
    ensures ShowType(fe, UInt32) == "uint32"
  {
  }

  lemma AddName()
    ensures ShowQName(AddEnv, AddFn.name) == "add"
  {
    assert Zip(AddEnv.scope, AddFn.name.path) == [("m", "m")];
    assert SkipWhileEqual([("m", "m")]) == [];
  }

  lemma GroupX()
    ensures ParamGroup(AddEnv, ("x", UInt32)) == "(o_x : uint32)"
  {
    UInt32Text(AddEnv);
  }

  lemma GroupY()
    ensures ParamGroup(AddEnv, ("y", UInt32)) == "(o_y : uint32)"
  {
    UInt32Text(AddEnv);
  }

  lemma AddGroups()
    ensures ParamGroups(AddEnv, AddFn.args) == "(o_x : uint32)(o_y : uint32)"
  {
    var args := AddFn.args;
    assert args[..1] == [("x", UInt32)];
    assert args[..1][..0] == [];
    GroupX();
    GroupY();
    assert ParamGroups(AddEnv, args[..1]) == "(o_x : uint32)";
    assert "(o_x : uint32)" + "(o_y : uint32)" == "(o_x : uint32)(o_y : uint32)";
  }

  lemma AddStart()
    ensures HeaderStart(AddEnv, AddFn) == "let cfg add "
  {
    AddName();
    assert "let cfg " + "add" + " " + "" == "let cfg add ";
  }

  /** The header: the parameter groups follow one another with no space
      between them. */
  lemma AddHeader()
    ensures HeaderText(AddEnv, AddFn) == "let cfg add (o_x : uint32)(o_y : uint32) : uint32"
  {
    AddStart();
    AddGroups();
    UInt32Text(AddEnv);
    HeaderPieces();
  }

  lemma HeaderPieces()
    ensures "let cfg add " + "(o_x : uint32)(o_y : uint32)" + " : " + "uint32"
         == "let cfg add (o_x : uint32)(o_y : uint32) : uint32"
  {
    assert " : " + "uint32" == " : uint32";
    assert "let cfg add " + "(o_x : uint32)(o_y : uint32)" + " : uint32"
        == "let cfg add (o_x : uint32)(o_y : uint32) : uint32";
  }

  lemma VarX()
    ensures VarLine(AddEnv, ("x", UInt32)) == Line(0, "var x : uint32;")
  {
    UInt32Text(AddEnv);
  }

  lemma VarY()
    ensures VarLine(AddEnv, ("y", UInt32)) == Line(0, "var y : uint32;")
  {
    UInt32Text(AddEnv);
  }

  lemma VarZ()
    ensures VarLine(AddEnv, ("z", UInt32)) == Line(0, "var z : uint32;")
  {
    UInt32Text(AddEnv);
  }

  lemma VarResult()
    ensures "var _0 : " + ShowType(AddEnv, AddFn.retty) + ";" == "var _0 : uint32;"
  {
    UInt32Text(AddEnv);
  }

  /** The return slot, the arguments, then the local. */
  lemma AddDecls()
    ensures DeclLines(AddEnv, AddFn)
         == [Line(0, "var _0 : uint32;"), Line(0, "var x : uint32;"), Line(0, "var y : uint32;"), Line(0, "var z : uint32;")]
  {
    VarResult();
    VarX();
    VarY();
    VarZ();
    assert VarLines(AddEnv, AddFn.args) == [Line(0, "var x : uint32;"), Line(0, "var y : uint32;")];
    assert VarLines(AddEnv, AddFn.vars) == [Line(0, "var z : uint32;")];
  }

  /** Each argument moved into its slot, in order, then the jump to the entry block. */
  lemma AddPrologue()
    ensures PrologueLines(AddEnv, AddFn)
         == [Line(0, "{"), Line(2, "x <- o_x;"), Line(2, "y <- o_y;"), Line(2, "goto BB0;"), Line(0, "}")]
  {
    assert MoveText(("x", UInt32)) == "x <- o_x;";
    assert MoveText(("y", UInt32)) == "y <- o_y;";
    assert MoveLines(AddEnv.Indent(2), AddFn.args) == [Line(2, "x <- o_x;"), Line(2, "y <- o_y;")];
  }

  lemma AddStatement(d: Defs)
    requires d.rank(VarH) >= d.rank(BinaryOpH(Other(Add)))
    ensures StatementLine(d, AddEnv.Indent(2), AddFn.blocks[0].statements[0]) == Line(2, "z <- x + y;")
  {
    var sum := BinaryOp(Other(Add), Var("x"), Var("y"));
    assert Parens(d, AddEnv.Indent(2), sum, Var("x")) == "x";
    assert Parens(d, AddEnv.Indent(2), sum, Var("y")) == "y";
    assert ShowExp(d, AddEnv.Indent(2), sum) == "x + y";
    assert "z" + " <- " + "x + y" + ";" == "z <- x + y;";
  }

  /** With `+` binding no tighter than a variable, the sum prints bare. */
  lemma AddBlock(d: Defs)
    requires d.rank(VarH) >= d.rank(BinaryOpH(Other(Add)))
    ensures BlocksLines(d, AddEnv, AddFn.blocks)
         == [Line(0, "BB0 {"), Line(2, "z <- x + y;"), Line(2, "_0"), Line(0, "}")]
  {
    var b := AddFn.blocks[0];
    AddStatement(d);
    assert StatementLines(d, AddEnv.Indent(2), b.statements) == [Line(2, "z <- x + y;")];
    assert LabelText(0) == "BB0 {" by {
      BlockIdText(0);
    }
    assert TerminatorLines(d, AddEnv.Indent(2), Return) == [Line(2, "_0")];
    assert AddFn.blocks[..0] == [];
  }

  /** The whole of `add` as `Function::fmt` lays it out: the header, the
      lone `=` of an empty contract two columns in, the declarations, the
      prologue, then the block. */
  lemma AddScenario(d: Defs)
    requires d.rank(VarH) >= d.rank(BinaryOpH(Other(Add)))
    ensures FunctionLines(d, AddEnv, AddFn)
         == [Line(0, "let cfg add (o_x : uint32)(o_y : uint32) : uint32"), Line(2, "=")]
          + [Line(0, "var _0 : uint32;"), Line(0, "var x : uint32;"), Line(0, "var y : uint32;"), Line(0, "var z : uint32;")]
          + [Line(0, "{"), Line(2, "x <- o_x;"), Line(2, "y <- o_y;"), Line(2, "goto BB0;"), Line(0, "}")]
          + [Line(0, "BB0 {"), Line(2, "z <- x + y;"), Line(2, "_0"), Line(0, "}")]
  {
    AddHeader();
    AddDecls();
    AddPrologue();
    AddBlock(d);
    assert ContractLines(AddEnv.Indent(2), AddFn) == [Line(2, "=")];
  }
}
