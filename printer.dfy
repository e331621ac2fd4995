/** The expression-level renderers of creusot/src/mlcfg/printer.rs: qualified
    names, types, patterns, expressions, statements, block labels and binary
    operators, each a function from the node (and the environment, where the
    source takes one) to the text it writes. The sink is infallible here, so
    `fmt::Result` and `?` disappear. */
module Printer {
  import opened Text
  import opened Ir

  // ----- Qualified names -----

  function Min(a: nat, b: nat): nat { if a <= b then a else b }

  /** `Iterator::zip`: pairs up to the shorter length. */
  function Zip<A, B>(xs: seq<A>, ys: seq<B>): (r: seq<(A, B)>)
    ensures |r| == Min(|xs|, |ys|)
    ensures forall i :: 0 <= i < |r| ==> r[i] == (xs[i], ys[i])
  {
    if xs == [] || ys == [] then [] else [(xs[0], ys[0])] + Zip(xs[1..], ys[1..])
  }

  /** `skip_while(|(p, m)| p == m)`: drops the leading pairs of equal segments. */
  function SkipWhileEqual(ps: seq<(string, string)>): seq<(string, string)>
  {
    if ps != [] && ps[0].0 == ps[0].1 then SkipWhileEqual(ps[1..]) else ps
  }

  function Seconds(ps: seq<(string, string)>): (r: seq<string>)
  {
    seq(|ps|, i requires 0 <= i < |ps| => ps[i].1)
  }

  /** The module segments `QName::fmt` keeps: the name's segments paired with
      the open scopes, after the leading equal pairs. */
  function ModuleSegments(scope: seq<string>, path: seq<string>): seq<string>
  {
    Seconds(SkipWhileEqual(Zip(scope, path)))
  }

  /** `QName::fmt`: kept module segments joined with `.`, identifier segments
      joined with `_`, the two separated by `.` unless the module part is the
      empty string. */
  function ShowQName(fe: FormatEnv, q: QName): string
  {
    var modulePath := Join(ModuleSegments(fe.scope, q.path), ".");
    var ident := Join(q.name, "_");
    if modulePath == "" then ident else modulePath + "." + ident
  }

  // ----- Types -----

  function IntTyText(w: IntTy): string
  {
    match w
    case I8 => "int8"
    case I16 => "int16"
    case I32 => "int32"
    case I64 => "int64"
    case I128 => "int128"
    case Isize => "isize"
  }

  function UintTyText(w: UintTy): string
  {
    match w
    case U8 => "uint8"
    case U16 => "uint16"
    case U32 => "uint32"
    case U64 => "uint64"
    case U128 => "uint128"
    case Usize => "usize"
  }

  function FloatTyText(w: FloatTy): string
  {
    match w
    case F32 => "single"
    case F64 => "double"
  }

  /** What `Type::fmt` writes between the parentheses a complex type gets. */
  function TypeBody(fe: FormatEnv, t: Type): string
    decreases t, 0
  {
    match t
    case Bool => "bool"
    case Char => "char"
    case Int(w) => IntTyText(w)
    case Uint(w) => UintTyText(w)
    case Float(w) => FloatTyText(w)
    case MutableBorrow(u) => "borrowed " + ShowType(fe, u)
    case TVar(v) => v
    case TConstructor(q) => ShowQName(fe, q)
    case TApp(f, args) => ShowType(fe, f) + " " + Join(ShowTypes(fe, args), " ")
    case Tuple(ts) => "(" + Join(ShowTypes(fe, ts), " ") + ")"
  }

  /** `Type::fmt`. */
  function ShowType(fe: FormatEnv, t: Type): string
    decreases t, 1
  {
    if Complex(t) then "(" + TypeBody(fe, t) + ")" else TypeBody(fe, t)
  }

  function ShowTypes(fe: FormatEnv, ts: seq<Type>): (r: seq<string>)
    decreases ts
    ensures |r| == |ts|
    ensures forall i :: 0 <= i < |ts| ==> r[i] == ShowType(fe, ts[i])
  {
    if ts == [] then [] else [ShowType(fe, ts[0])] + ShowTypes(fe, ts[1..])
  }

  // ----- Patterns -----

  /** `Pattern::fmt`. */
  function ShowPattern(p: Pattern): string
    decreases p
  {
    match p
    case Wildcard => "_"
    case VarP(v) => v
    case TupleP(ps) => "(" + Join(ShowPatterns(ps), ", ") + ")"
    case ConsP(c, ps) => if ps == [] then c else c + "(" + Join(ShowPatterns(ps), ", ") + ")"
    case LitP(lit) => lit.text
  }

  /** The current renderer's pattern list; `OldMlcfg.ShowPatterns` is the
      older renderer's own, over its own pattern type. */
  function ShowPatterns(ps: seq<Pattern>): (r: seq<string>)
    decreases ps
    ensures |r| == |ps|
    ensures forall i :: 0 <= i < |ps| ==> r[i] == ShowPattern(ps[i])
  {
    if ps == [] then [] else [ShowPattern(ps[0])] + ShowPatterns(ps[1..])
  }

  // ----- Operators -----

  /** The operators `bin_op_to_string` has a symbol for. */
  predicate Infix(op: FullBinOp)
  {
    op.And? || op.Or? || (op.Other? && op.op in {Add, Sub, Mul, Eq, Ne, Gt, Ge, Lt, Le})
  }

  /** The operators `Exp::fmt` can print: division (prefix `div`) and the infix ones. */
  predicate Printable(op: FullBinOp)
  {
    op == Other(Div) || Infix(op)
  }

  /** `bin_op_to_string`; every other operator is unreachable there. */
  function BinOpText(op: FullBinOp): string
    requires Infix(op)
  {
    match op
    case And => "&&"
    case Or => "||"
    case Other(Add) => "+"
    case Other(Sub) => "-"
    case Other(Mul) => "*"
    case Other(Eq) => "="
    case Other(Ne) => "<>"
    case Other(Gt) => ">"
    case Other(Ge) => ">="
    case Other(Lt) => "<"
    case Other(Le) => "<="
  }

  // ----- Expressions -----

  /** Every binary operation in `e` is one `Exp::fmt` can print. */
  predicate Renderable(e: Exp)
    decreases e
  {
    match e
    case Current(x) => Renderable(x)
    case Final(x) => Renderable(x)
    case Let(_, a, b) => Renderable(a) && Renderable(b)
    case Var(_) => true
    case RecUp(r, _, v) => Renderable(r) && Renderable(v)
    case Tuple(es) => forall i :: 0 <= i < |es| ==> Renderable(es[i])
    case Constructor(_, es) => forall i :: 0 <= i < |es| ==> Renderable(es[i])
    case BorrowMut(x) => Renderable(x)
    case Const(_) => true
    case BinaryOp(op, l, r) => Printable(op) && Renderable(l) && Renderable(r)
    case Call(_, es) => forall i :: 0 <= i < |es| ==> Renderable(es[i])
    case Verbatim(_) => true
    case Forall(_, x) => Renderable(x)
    case Exists(_, x) => Renderable(x)
    case Impl(h, x) => Renderable(h) && Renderable(x)
  }

  /** `(l : T) ` for each binder of a quantifier. */
  function BindersText(fe: FormatEnv, bs: seq<(string, Type)>): string
  {
    Join(seq(|bs|, i requires 0 <= i < |bs| => "(" + bs[i].0 + " : " + ShowType(fe, bs[i].1) + ") "), "")
  }

  /** The `parens!` rule: the child, wrapped in parentheses exactly when its
      precedence is below its parent's. */
  function Parens(d: Defs, fe: FormatEnv, parent: Exp, child: Exp): string
    requires Renderable(child)
    decreases child, 1
  {
    if Precedence(d, child) < Precedence(d, parent)
    then "(" + ShowExp(d, fe, child) + ")"
    else ShowExp(d, fe, child)
  }

  /** `Exp::fmt`. */
  function ShowExp(d: Defs, fe: FormatEnv, e: Exp): string
    requires Renderable(e)
    decreases e, 0
  {
    match e
    case Current(x) => " * " + ShowExp(d, fe, x)
    case Final(x) => " ^ " + ShowExp(d, fe, x)
    case Let(p, a, b) => "let " + ShowPattern(p) + " = " + Parens(d, fe, e, a) + " in " + Parens(d, fe, e, b)
    case Var(v) => v
    case RecUp(r, l, v) => "{ " + Parens(d, fe, e, r) + " with " + l + " = " + Parens(d, fe, e, v) + " }"
    case Tuple(es) => "(" + Join(ShowExps(d, fe, es), ", ") + ")"
    case Constructor(c, es) =>
      if es == [] then ShowQName(fe, c) else d.qnameText(c) + "(" + Join(ShowExps(d, fe, es), ", ") + ")"
    case BorrowMut(x) => "borrow_mut " + Parens(d, fe, e, x)
    case Const(c) => c.text
    case BinaryOp(op, l, r) =>
      if op == Other(Div) then "div " + Parens(d, fe, e, l) + " " + Parens(d, fe, e, r)
      else Parens(d, fe, e, l) + " " + BinOpText(op) + " " + Parens(d, fe, e, r)
    case Call(f, es) => f + " " + Join(ParensAll(d, fe, e, es), " ")
    case Verbatim(v) => v
    case Forall(bs, x) => "forall " + BindersText(fe, bs) + ". " + ShowExp(d, fe, x)
    case Exists(bs, x) => "exists " + BindersText(fe, bs) + ". " + ShowExp(d, fe, x)
    case Impl(h, x) => Parens(d, fe, e, h) + " -> " + Parens(d, fe, e, x)
  }

  function ShowExps(d: Defs, fe: FormatEnv, es: seq<Exp>): (r: seq<string>)
    requires forall i :: 0 <= i < |es| ==> Renderable(es[i])
    decreases es
    ensures |r| == |es|
    ensures forall i :: 0 <= i < |es| ==> r[i] == ShowExp(d, fe, es[i])
  {
    if es == [] then [] else [ShowExp(d, fe, es[0])] + ShowExps(d, fe, es[1..])
  }

  /** The arguments of a call, each under the `parens!` rule. */
  function ParensAll(d: Defs, fe: FormatEnv, parent: Exp, es: seq<Exp>): (r: seq<string>)
    requires forall i :: 0 <= i < |es| ==> Renderable(es[i])
    decreases es
    ensures |r| == |es|
    ensures forall i :: 0 <= i < |es| ==> r[i] == Parens(d, fe, parent, es[i])
  {
    if es == [] then [] else [Parens(d, fe, parent, es[0])] + ParensAll(d, fe, parent, es[1..])
  }

  // ----- Statements and labels -----

  predicate StatementRenderable(s: Statement)
  {
    match s
    case Assign(_, rhs) => Renderable(rhs)
    case Freeze(_) => true
    case Invariant(_, e) => Renderable(e)
  }

  /** `Statement::fmt`, without the indentation it writes first. */
  function ShowStatement(d: Defs, fe: FormatEnv, s: Statement): string
    requires StatementRenderable(s)
  {
    match s
    case Assign(lhs, rhs) => lhs + " <- " + ShowExp(d, fe, rhs)
    case Freeze(loc) => "assume { ^ " + loc + " = * " + loc + " }"
    case Invariant(nm, e) => "invariant " + nm + " { " + ShowExp(d, fe, e) + " }"
  }

  /** `BlockId::fmt`. */
  function ShowBlockId(b: BlockId): string
  {
    "BB" + NatText(b)
  }
}
