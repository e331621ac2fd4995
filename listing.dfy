/** The lines the block-level printers of creusot/src/mlcfg/printer.rs write:
    `Terminator::fmt`, `Block::fmt`, `Function::fmt` and `TyDecl::fmt`. Each is
    given as the `Line` sequence it produces under an environment; the methods
    of the `Emit` module are proved to append exactly the rendering of these. */
module Listing {
  import opened Text
  import opened Ir
  import opened Printer
  import opened Layout

  // ----- Statements and terminators -----

  /** A statement as `Block::fmt` writes it: on its own line, followed by `;`. */
  function StatementLine(d: Defs, fe: FormatEnv, s: Statement): Line
    requires StatementRenderable(s)
  {
    Line(fe.indent, ShowStatement(d, fe, s) + ";")
  }

  function StatementLines(d: Defs, fe: FormatEnv, ss: seq<Statement>): seq<Line>
    requires forall i :: 0 <= i < |ss| ==> StatementRenderable(ss[i])
  {
    seq(|ss|, i requires 0 <= i < |ss| => StatementLine(d, fe, ss[i]))
  }

  /** One more statement adds its line at the end. */
  lemma StatementLinesSnoc(d: Defs, fe: FormatEnv, ss: seq<Statement>, i: nat)
    requires i < |ss|
    requires forall k :: 0 <= k < |ss| ==> StatementRenderable(ss[k])
    ensures StatementLines(d, fe, ss[..i + 1]) == StatementLines(d, fe, ss[..i]) + [StatementLine(d, fe, ss[i])]
  {
    var a, b := StatementLines(d, fe, ss[..i + 1]), StatementLines(d, fe, ss[..i]) + [StatementLine(d, fe, ss[i])];
    assert |a| == |b|;
    forall k | 0 <= k < |a| ensures a[k] == b[k] {
      assert ss[..i + 1][k] == ss[k];
    }
  }

  /** One arm of a switch: `| pat -> goto BBn`. */
  function ArmText(arm: (Pattern, BlockId)): string
  {
    "| " + ShowPattern(arm.0) + " -> goto " + ShowBlockId(arm.1)
  }

  function ArmLine(fe: FormatEnv, arm: (Pattern, BlockId)): Line
  {
    Line(fe.indent, ArmText(arm))
  }

  function ArmLines(fe: FormatEnv, arms: seq<(Pattern, BlockId)>): seq<Line>
  {
    seq(|arms|, i requires 0 <= i < |arms| => ArmLine(fe, arms[i]))
  }

  predicate TerminatorRenderable(t: Terminator)
  {
    t.Switch? ==> Renderable(t.discr)
  }

  /** The first line of a terminator: the whole of it unless it is a switch. */
  function TerminatorHead(d: Defs, fe: FormatEnv, t: Terminator): string
    requires TerminatorRenderable(t)
  {
    match t
    case Goto(b) => "goto " + ShowBlockId(b)
    case Absurd => "absurd"
    case Return => "_0"
    case Switch(x, _) => "switch (" + ShowExp(d, fe, x) + ")"
  }

  /** `Terminator::fmt`: one line, except a switch, whose arms and closing
      `end` go one step deeper. */
  function TerminatorLines(d: Defs, fe: FormatEnv, t: Terminator): seq<Line>
    requires TerminatorRenderable(t)
  {
    [Line(fe.indent, TerminatorHead(d, fe, t))]
    + if t.Switch? then ArmLines(fe.Indent(2), t.arms) + [Line(fe.Indent(2).indent, "end")] else []
  }

  lemma SwitchLines(d: Defs, fe: FormatEnv, t: Terminator)
    requires t.Switch? && TerminatorRenderable(t)
    ensures TerminatorLines(d, fe, t)
         == [Line(fe.indent, TerminatorHead(d, fe, t))] + ArmLines(fe.Indent(2), t.arms) + [Line(fe.indent + 2, "end")]
  {
  }

  // ----- Blocks -----

  predicate BlockRenderable(b: Block)
  {
    && (forall i :: 0 <= i < |b.statements| ==> StatementRenderable(b.statements[i]))
    && TerminatorRenderable(b.terminator)
  }

  /** The label line of a block: `BBn {`. */
  function LabelText(b: BlockId): string
  {
    ShowBlockId(b) + " {"
  }

  /** `Block::fmt`: the label line, the statements and the terminator one step
      deeper, then the closing brace. */
  function BlockLines(d: Defs, fe: FormatEnv, b: Block): seq<Line>
    requires BlockRenderable(b)
  {
    [Line(fe.indent, LabelText(b.id))]
    + StatementLines(d, fe.Indent(2), b.statements)
    + TerminatorLines(d, fe.Indent(2), b.terminator)
    + [Line(fe.indent, "}")]
  }

  /** The blocks in order. */
  function BlocksLines(d: Defs, fe: FormatEnv, bs: seq<Block>): seq<Line>
    requires forall i :: 0 <= i < |bs| ==> BlockRenderable(bs[i])
  {
    if bs == [] then [] else BlocksLines(d, fe, bs[..|bs| - 1]) + BlockLines(d, fe, bs[|bs| - 1])
  }

  // ----- Functions -----

  predicate FunctionRenderable(fn: Function)
  {
    forall i :: 0 <= i < |fn.blocks| ==> BlockRenderable(fn.blocks[i])
  }

  function ParamGroup(fe: FormatEnv, arg: (string, Type)): string
  {
    "(o_" + arg.0 + " : " + ShowType(fe, arg.1) + ")"
  }

  /** The parameter groups of the header, with nothing between them. */
  function ParamGroups(fe: FormatEnv, args: seq<(string, Type)>): string
  {
    if args == [] then "" else ParamGroups(fe, args[..|args| - 1]) + ParamGroup(fe, args[|args| - 1])
  }

  function HeaderStart(fe: FormatEnv, fn: Function): string
  {
    "let cfg " + ShowQName(fe, fn.name) + " " + (if fn.args == [] then "()" else "")
  }

  /** `let cfg <name> ` then `()` for no arguments or the parameter groups,
      then ` : <return type>`. */
  function HeaderText(fe: FormatEnv, fn: Function): string
  {
    HeaderStart(fe, fn) + ParamGroups(fe, fn.args) + " : " + ShowType(fe, fn.retty)
  }

  function ClauseLine(fe: FormatEnv, keyword: string, clause: string): Line
  {
    Line(fe.indent, keyword + " { " + clause + " }")
  }

  function ClauseLines(fe: FormatEnv, keyword: string, clauses: seq<string>): seq<Line>
  {
    seq(|clauses|, i requires 0 <= i < |clauses| => ClauseLine(fe, keyword, clauses[i]))
  }

  /** The contract, under the environment already one step deeper: the
      `requires` lines, the `ensures` lines, then `=`. */
  function ContractLines(fe: FormatEnv, fn: Function): seq<Line>
  {
    ClauseLines(fe, "requires", fn.preconds) + ClauseLines(fe, "ensures", fn.postconds) + [Line(fe.indent, "=")]
  }

  function VarLine(fe: FormatEnv, v: (string, Type)): Line
  {
    Line(fe.indent, "var " + v.0 + " : " + ShowType(fe, v.1) + ";")
  }

  function VarLines(fe: FormatEnv, vs: seq<(string, Type)>): seq<Line>
  {
    seq(|vs|, i requires 0 <= i < |vs| => VarLine(fe, vs[i]))
  }

  /** The forward declarations: the return slot, the arguments, the locals. */
  function DeclLines(fe: FormatEnv, fn: Function): seq<Line>
  {
    [Line(fe.indent, "var _0 : " + ShowType(fe, fn.retty) + ";")] + VarLines(fe, fn.args) + VarLines(fe, fn.vars)
  }

  function MoveText(arg: (string, Type)): string
  {
    arg.0 + " <- o_" + arg.0 + ";"
  }

  function MoveLine(fe: FormatEnv, arg: (string, Type)): Line
  {
    Line(fe.indent, MoveText(arg))
  }

  function MoveLines(fe: FormatEnv, args: seq<(string, Type)>): seq<Line>
  {
    seq(|args|, i requires 0 <= i < |args| => MoveLine(fe, args[i]))
  }

  /** The prologue block: the arguments copied into their slots, then a jump
      to the entry block, between braces at the base indentation. */
  function PrologueLines(fe: FormatEnv, fn: Function): seq<Line>
  {
    [Line(fe.indent, "{")] + MoveLines(fe.Indent(2), fn.args) + [Line(fe.Indent(2).indent, "goto BB0;")] + [Line(fe.indent, "}")]
  }

  /** `Function::fmt`. */
  function FunctionLines(d: Defs, fe: FormatEnv, fn: Function): seq<Line>
    requires FunctionRenderable(fn)
  {
    [Line(fe.indent, HeaderText(fe, fn))]
    + ContractLines(fe.Indent(2), fn)
    + DeclLines(fe, fn)
    + PrologueLines(fe, fn)
    + BlocksLines(d, fe, fn.blocks)
  }

  // ----- Type declarations -----

  /** A constructor line's text; the line itself is also indented one step,
      so the bar sits four columns in. */
  function ConstructorText(fe: FormatEnv, c: (string, seq<Type>)): string
  {
    if c.1 == [] then "  | " + c.0 else "  | " + c.0 + "(" + Join(ShowTypes(fe, c.1), ", ") + ")"
  }

  function ConstructorLine(fe: FormatEnv, c: (string, seq<Type>)): Line
  {
    Line(fe.indent, ConstructorText(fe, c))
  }

  function ConstructorLines(fe: FormatEnv, cs: seq<(string, seq<Type>)>): seq<Line>
  {
    seq(|cs|, i requires 0 <= i < |cs| => ConstructorLine(fe, cs[i]))
  }

  lemma ConstructorLinesSnoc(fe: FormatEnv, cs: seq<(string, seq<Type>)>, i: nat)
    requires i < |cs|
    ensures ConstructorLines(fe, cs[..i + 1]) == ConstructorLines(fe, cs[..i]) + [ConstructorLine(fe, cs[i])]
  {
  }

  /** `TyDecl::fmt`: the header `type <name> <params> =`, then one line per constructor. */
  function TyDeclLines(fe: FormatEnv, td: TyDecl): seq<Line>
  {
    [Line(fe.indent, "type " + ShowQName(fe, td.tyName) + " " + Join(td.tyParams, " ") + " =")]
    + ConstructorLines(fe.Indent(2), td.tyConstructors)
  }
}
