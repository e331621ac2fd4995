/** The older, context-free renderer of src/mlcfg.rs: plain `Display` impls
    for types, patterns, expressions, statements and type declarations. A
    boolean `complex()` test, not a precedence rank, decides parentheses. */
module OldMlcfg {
  import opened Text
  import Ir

  // ----- Types -----

  datatype MlType =
    | Bool
    | Char
    | Int(iw: Ir.IntTy)
    | Uint(uw: Ir.UintTy)
    | MutableBorrow(inner: MlType)
    | TVar(v: string)
    | TConstructor(tc: string)
    | TApp(f: MlType, args: seq<MlType>)
    | Tuple(ts: seq<MlType>)

  /** `MlCfgType::complex`. */
  predicate TypeComplex(t: MlType)
  {
    match t
    case Bool | Char | Int(_) | Uint(_) | TVar(_) | Tuple(_) | TConstructor(_) => false
    case _ => true
  }

  /** What `MlCfgType::fmt` writes between the parentheses a complex type gets.
      The machine widths are not printed. */
  function TypeBody(t: MlType): string
    decreases t, 0
  {
    match t
    case Bool => "bool"
    case Char => "char"
    case Int(_) => "int"
    case Uint(_) => "uint"
    case MutableBorrow(u) => "borrowed " + ShowType(u)
    case TVar(v) => v
    case TConstructor(c) => c
    case TApp(f, args) => ShowType(f) + " " + Join(ShowTypes(args), " ")
    case Tuple(ts) => "(" + Join(ShowTypes(ts), ", ") + ")"
  }

  /** `MlCfgType::fmt`. */
  function ShowType(t: MlType): string
    decreases t, 1
  {
    if TypeComplex(t) then "(" + TypeBody(t) + ")" else TypeBody(t)
  }

  function ShowTypes(ts: seq<MlType>): (r: seq<string>)
    decreases ts
    ensures |r| == |ts|
    ensures forall i :: 0 <= i < |ts| ==> r[i] == ShowType(ts[i])
  {
    if ts == [] then [] else [ShowType(ts[0])] + ShowTypes(ts[1..])
  }

  // ----- Patterns -----

  datatype MlPattern =
    | Wildcard
    | VarP(v: string)
    | TupleP(ps: seq<MlPattern>)
    | ConsP(c: string, args: seq<MlPattern>)
    | RecP(l: string, n: string)

  /** `MlCfgPattern::fmt`: a constructor pattern always gets its parentheses. */
  function ShowPattern(p: MlPattern): string
    decreases p
  {
    match p
    case Wildcard => "_"
    case VarP(v) => v
    case TupleP(ps) => "(" + Join(ShowPatterns(ps), ", ") + ")"
    case ConsP(c, ps) => c + "(" + Join(ShowPatterns(ps), ", ") + ")"
    case RecP(l, n) => "{ " + l + " = " + n + " }"
  }

  /** The older renderer's pattern list, kept apart from
      `Printer.ShowPatterns` because the two files have their own pattern types. */
  function ShowPatterns(ps: seq<MlPattern>): (r: seq<string>)
    decreases ps
    ensures |r| == |ps|
    ensures forall i :: 0 <= i < |ps| ==> r[i] == ShowPattern(ps[i])
  {
    if ps == [] then [] else [ShowPattern(ps[0])] + ShowPatterns(ps[1..])
  }

  // ----- Expressions -----

  /** `Local` is a MIR local, printed through its `Debug` form: here the text
      that form produces. */
  datatype MlExp =
    | Current(x: MlExp)
    | Final(x: MlExp)
    | Local(local: string)
    | Let(pattern: MlPattern, arg: MlExp, body: MlExp)
    | Var(v: string)
    | RecUp(record: MlExp, recLabel: string, val: MlExp)
    | Tuple(es: seq<MlExp>)
    | Constructor(ctor: string, args: seq<MlExp>)
    | BorrowMut(x: MlExp)
    | RecField(rec: MlExp, field: string)

  /** `MlCfgExp::complex`. */
  predicate ExpComplex(e: MlExp)
  {
    match e
    case Local(_) | Var(_) | Tuple(_) | Constructor(_, _) => false
    case _ => true
  }

  /** The `parens!` macro of this file: parentheses exactly around complex expressions. */
  function Parens(e: MlExp): string
    decreases e, 1
  {
    if ExpComplex(e) then "(" + ShowExp(e) + ")" else ShowExp(e)
  }

  /** `MlCfgExp::fmt`. */
  function ShowExp(e: MlExp): string
    decreases e, 0
  {
    match e
    case Current(x) => " * " + ShowExp(x)
    case Final(x) => " ^ " + ShowExp(x)
    case Local(l) => l
    case Let(p, a, b) => "let " + ShowPattern(p) + " = " + Parens(a) + " in " + Parens(b)
    case Var(v) => v
    case RecUp(r, l, v) => "{ " + Parens(r) + " with " + l + " = " + Parens(v) + " }"
    case Tuple(es) => "(" + Join(ShowExps(es), ", ") + ")"
    case Constructor(c, es) => c + "(" + Join(ShowExps(es), ", ") + ")"
    case BorrowMut(x) => "borrow_mut " + Parens(x)
    case RecField(r, f) => Parens(r) + "." + f
  }

  function ShowExps(es: seq<MlExp>): (r: seq<string>)
    decreases es
    ensures |r| == |es|
    ensures forall i :: 0 <= i < |es| ==> r[i] == ShowExp(es[i])
  {
    if es == [] then [] else [ShowExp(es[0])] + ShowExps(es[1..])
  }

  // ----- Statements -----

  datatype MlStatement = Assign(lhs: string, rhs: MlExp)

  /** `MlCfgStatement::fmt`; the left-hand side is a local in its `Debug` form. */
  function ShowStatement(s: MlStatement): string
  {
    s.lhs + " <- " + ShowExp(s.rhs)
  }

  // ----- Type declarations -----

  datatype MlTyDecl = MlTyDecl(tyName: string, tyParams: seq<string>, tyConstructors: seq<(string, seq<MlType>)>)

  /** `type <name> <params> =`: the parameters joined by spaces, after one
      space even when there are none. */
  function TyDeclHeader(td: MlTyDecl): string
  {
    "type " + td.tyName + " " + Join(td.tyParams, " ") + " ="
  }

  /** One constructor line without its newline: `| C`, or `| C(args) ` with
      the trailing space the code writes. */
  function ConstructorText(c: (string, seq<MlType>)): string
  {
    if c.1 == [] then "| " + c.0 else "| " + c.0 + "(" + Join(ShowTypes(c.1), ", ") + ") "
  }

  /** The loop of `MlTyDecl::fmt`: each constructor's line and a newline, in order. */
  function ConstructorsText(cs: seq<(string, seq<MlType>)>): string
  {
    if cs == [] then "" else ConstructorsText(cs[..|cs| - 1]) + ConstructorText(cs[|cs| - 1]) + "\n"
  }

  /** `MlTyDecl::fmt`. */
  function ShowTyDecl(td: MlTyDecl): string
  {
    TyDeclHeader(td) + "\n" + ConstructorsText(td.tyConstructors)
  }
}

/** What the older renderer guarantees: which nodes are complex and so
    wrapped, that machine widths never reach the output, that every rendered
    node has matching brackets, and that a type declaration is one header line
    and one line per constructor. */
module OldMlcfgProps {
  import opened Text
  import opened Brackets
  import opened Shapes
  import opened Layout
  import opened OldMlcfg

  // ----- Types -----

  /** `complex()` picks out exactly the types whose text, left unwrapped,
      would have a space outside every bracket: borrows and applications.
      Every other plain type is already a unit and is written bare. */
  lemma TypeWrapping(t: MlType)
    requires PlainType(t)
    ensures TypeComplex(t) <==> !Unit(TypeBody(t))
  {
    match t
    case MutableBorrow(u) =>
      BracketlessBalanced("borrowed");
      SpaceAtTop("borrowed", ShowType(u));
      assert TypeBody(t) == "borrowed" + " " + ShowType(u);
    case TApp(f, args) =>
      TypeUnit(f);
      SpaceAtTop(ShowType(f), Join(ShowTypes(args), " "));
    case _ =>
      TypeUnit(t);
      assert ShowType(t) == TypeBody(t);
  }

  /** Tuple types separate their elements with a comma and a space. */
  lemma TupleTypeSeparator(s: MlType, t: MlType)
    ensures ShowType(MlType.Tuple([s, t])) == "(" + ShowType(s) + ", " + ShowType(t) + ")"
  {
    assert ShowTypes([s, t]) == [ShowType(s), ShowType(t)];
    JoinPair(ShowType(s), ShowType(t), ", ");
  }

  /** The type with every machine width replaced by the narrowest one. */
  function EraseWidths(t: MlType): MlType
    decreases t, 1
  {
    match t
    case Int(_) => Int(Ir.I8)
    case Uint(_) => Uint(Ir.U8)
    case MutableBorrow(u) => MutableBorrow(EraseWidths(u))
    case TApp(f, args) => TApp(EraseWidths(f), EraseAll(args))
    case Tuple(ts) => MlType.Tuple(EraseAll(ts))
    case _ => t
  }

  function EraseAll(ts: seq<MlType>): (r: seq<MlType>)
    decreases ts, 0
    ensures |r| == |ts|
    ensures forall i :: 0 <= i < |ts| ==> r[i] == EraseWidths(ts[i])
  {
    if ts == [] then [] else [EraseWidths(ts[0])] + EraseAll(ts[1..])
  }

  /** Machine widths never reach the output: a type prints the same as its
      width-erased form, so types that differ only in widths print alike. */
  lemma {:induction false} WidthsErased(t: MlType)
    ensures ShowType(EraseWidths(t)) == ShowType(t)
    decreases t, 1
  {
    match t
    case MutableBorrow(u) =>
      WidthsErased(u);
    case TApp(f, args) =>
      WidthsErased(f);
      AllErased(args);
    case Tuple(ts) =>
      AllErased(ts);
    case _ =>
  }

  lemma {:induction false} AllErased(ts: seq<MlType>)
    ensures ShowTypes(EraseAll(ts)) == ShowTypes(ts)
    decreases ts, 0
  {
    forall i | 0 <= i < |ts| ensures ShowTypes(EraseAll(ts))[i] == ShowTypes(ts)[i] {
      WidthsErased(ts[i]);
    }
  }

  /** Type variables and constructor names that are plain words. */
  predicate PlainType(t: MlType)
    decreases t
  {
    match t
    case MutableBorrow(u) => PlainType(u)
    case TVar(v) => Plain(v)
    case TConstructor(c) => Plain(c)
    case TApp(f, args) => PlainType(f) && forall i :: 0 <= i < |args| ==> PlainType(args[i])
    case Tuple(ts) => forall i :: 0 <= i < |ts| ==> PlainType(ts[i])
    case _ => true
  }

  /** Every rendered type is one unit (no space outside brackets), so the
      space-separated arguments of an application can be told apart. */
  lemma {:induction false} TypeUnit(t: MlType)
    requires PlainType(t)
    ensures Unit(ShowType(t))
    decreases t
  {
    match t
    case Bool => PlainUnit("bool");
    case Char => PlainUnit("char");
    case Int(_) => PlainUnit("int");
    case Uint(_) => PlainUnit("uint");
    case MutableBorrow(u) =>
      TypeUnit(u);
      BorrowedUnit(ShowType(u));
      assert ShowType(t) == "(" + ("borrowed " + ShowType(u)) + ")";
    case TVar(v) => PlainUnit(v);
    case TConstructor(c) => PlainUnit(c);
    case TApp(f, args) =>
      TypeUnit(f);
      TypesJoin(args, " ");
      AppliedUnit(ShowType(f), Join(ShowTypes(args), " "));
      assert ShowType(t) == "(" + (ShowType(f) + " " + Join(ShowTypes(args), " ")) + ")";
    case Tuple(ts) =>
      TypesJoin(ts, ", ");
      Parenthesised(Join(ShowTypes(ts), ", "));
      assert ShowType(t) == "(" + Join(ShowTypes(ts), ", ") + ")";
  }

  lemma {:induction false} TypesJoin(ts: seq<MlType>, sep: string)
    requires forall i :: 0 <= i < |ts| ==> PlainType(ts[i])
    requires Bracketless(sep) && '\n' !in sep
    ensures Balanced(Join(ShowTypes(ts), sep)) && '\n' !in Join(ShowTypes(ts), sep)
    decreases ts
  {
    var parts := ShowTypes(ts);
    forall i | 0 <= i < |ts| ensures Unit(parts[i]) {
      TypeUnit(ts[i]);
    }
    JoinBalanced(parts, sep);
    OneLineJoin(parts, sep);
  }

  // ----- Patterns -----

  predicate PlainPattern(p: MlPattern)
    decreases p
  {
    match p
    case Wildcard => true
    case VarP(v) => Plain(v)
    case TupleP(ps) => forall i :: 0 <= i < |ps| ==> PlainPattern(ps[i])
    case ConsP(c, ps) => Plain(c) && forall i :: 0 <= i < |ps| ==> PlainPattern(ps[i])
    case RecP(l, n) => Plain(l) && Plain(n)
  }

  /** Every rendered pattern is one unit, and a constructor pattern is its
      name followed by a parenthesised list even when that list is empty. */
  lemma {:induction false} PatternUnit(p: MlPattern)
    requires PlainPattern(p)
    ensures Unit(ShowPattern(p))
    ensures p.ConsP? ==> |ShowPattern(p)| >= |p.c| + 2 && ShowPattern(p)[..|p.c| + 1] == p.c + "("
                         && ShowPattern(p)[|ShowPattern(p)| - 1] == ')'
    decreases p
  {
    match p
    case Wildcard => PlainUnit("_");
    case VarP(v) => PlainUnit(v);
    case TupleP(ps) =>
      PatternsJoin(ps);
      Parenthesised(Join(ShowPatterns(ps), ", "));
    case ConsP(c, ps) =>
      PatternsJoin(ps);
      ApplicationUnit(c, Join(ShowPatterns(ps), ", "));
    case RecP(l, n) =>
      PlainUnit(l);
      PlainUnit(n);
      RecordPatternUnit(l, n);
  }

  lemma RecordPatternUnit(l: string, n: string)
    requires Plain(l) && Plain(n)
    ensures Unit("{ " + l + " = " + n + " }")
  {
    var inner := " " + l + " = " + n + " ";
    BracketlessAppend(" ", l);
    BracketlessAppend(" " + l, " = ");
    BracketlessAppend(" " + l + " = ", n);
    BracketlessAppend(" " + l + " = " + n, " ");
    BracketlessBalanced(inner);
    OneLineAppend(" ", l);
    OneLineAppend(" " + l, " = ");
    OneLineAppend(" " + l + " = ", n);
    OneLineAppend(" " + l + " = " + n, " ");
    Enclose('{', inner, '}');
    assert "{ " + l + " = " + n + " }" == ['{'] + inner + ['}'];
  }

  lemma OneLineAppend(a: string, b: string)
    requires '\n' !in a && '\n' !in b
    ensures '\n' !in a + b
  {
  }

  /** The counterpart of `PrinterProps.PatternsJoin` for this renderer's patterns. */
  lemma {:induction false} PatternsJoin(ps: seq<MlPattern>)
    requires forall i :: 0 <= i < |ps| ==> PlainPattern(ps[i])
    ensures Balanced(Join(ShowPatterns(ps), ", ")) && '\n' !in Join(ShowPatterns(ps), ", ")
    decreases ps
  {
    var parts := ShowPatterns(ps);
    forall i | 0 <= i < |ps| ensures Unit(parts[i]) {
      PatternUnit(ps[i]);
    }
    JoinBalanced(parts, ", ");
    OneLineJoin(parts, ", ");
  }

  // ----- Expressions -----

  /** The two outcomes of `Parens`, as a proof step for
      `ProjectionsUnwrapped`: wrapped exactly when the child is complex, and
      only locals, variables, tuples and constructor applications are not. */
  lemma ParensRule(e: MlExp)
    ensures !ExpComplex(e) <==> e.Local? || e.Var? || e.Tuple? || e.Constructor?
    ensures (Parens(e) == "(" + ShowExp(e) + ")") <==> ExpComplex(e)
    ensures (Parens(e) == ShowExp(e)) <==> !ExpComplex(e)
  {
    assert |"(" + ShowExp(e) + ")"| != |ShowExp(e)|;
  }

  /** The borrow projections write their child bare after ` * ` or ` ^ `,
      even a complex one that `parens!` would have wrapped. */
  lemma ProjectionsUnwrapped(x: MlExp)
    ensures ShowExp(Current(x))[..3] == " * " && ShowExp(Current(x))[3..] == ShowExp(x)
    ensures ShowExp(Final(x))[..3] == " ^ " && ShowExp(Final(x))[3..] == ShowExp(x)
    ensures ExpComplex(x) ==> ShowExp(Current(x))[3..] != Parens(x) && ShowExp(Final(x))[3..] != Parens(x)
  {
    ParensRule(x);
  }

  /** The leaves of an expression (locals, names, labels, fields) are
      balanced, and its patterns plain. */
  ghost predicate AtomsBalanced(e: MlExp)
    decreases e
  {
    match e
    case Current(x) => AtomsBalanced(x)
    case Final(x) => AtomsBalanced(x)
    case Local(l) => Balanced(l)
    case Let(p, a, b) => PlainPattern(p) && AtomsBalanced(a) && AtomsBalanced(b)
    case Var(v) => Balanced(v)
    case RecUp(r, l, v) => Balanced(l) && AtomsBalanced(r) && AtomsBalanced(v)
    case Tuple(es) => forall i :: 0 <= i < |es| ==> AtomsBalanced(es[i])
    case Constructor(c, es) => Balanced(c) && forall i :: 0 <= i < |es| ==> AtomsBalanced(es[i])
    case BorrowMut(x) => AtomsBalanced(x)
    case RecField(r, f) => Balanced(f) && AtomsBalanced(r)
  }

  /** Every rendered expression has balanced brackets: the parentheses the
      `complex()` rule adds always surround complete sub-expressions. */
  lemma {:induction false} ExpBalanced(e: MlExp)
    requires AtomsBalanced(e)
    ensures Balanced(ShowExp(e))
    decreases e, 2
  {
    match e
    case Current(x) =>
      ExpBalanced(x);
      Prefixed(" * ", ShowExp(x));
    case Final(x) =>
      ExpBalanced(x);
      Prefixed(" ^ ", ShowExp(x));
    case Local(_) =>
    case Var(_) =>
    case Tuple(es) =>
      ElementsBalanced(es);
      Parenthesised(Join(ShowExps(es), ", "));
    case Constructor(c, es) =>
      ElementsBalanced(es);
      ApplyText(c, Join(ShowExps(es), ", "));
    case _ =>
      WrappedBalanced(e);
  }

  /** The expressions whose children go through `parens!`. */
  lemma {:induction false} WrappedBalanced(e: MlExp)
    requires e.Let? || e.RecUp? || e.BorrowMut? || e.RecField?
    requires AtomsBalanced(e)
    ensures Balanced(ShowExp(e))
    decreases e, 1
  {
    match e
    case Let(p, a, b) =>
      PatternUnit(p);
      ParensBalanced(a);
      ParensBalanced(b);
      LetText(ShowPattern(p), Parens(a), Parens(b));
    case RecUp(r, l, v) =>
      ParensBalanced(r);
      ParensBalanced(v);
      RecUpText(Parens(r), l, Parens(v));
    case BorrowMut(x) =>
      ParensBalanced(x);
      Prefixed("borrow_mut ", Parens(x));
    case RecField(r, f) =>
      ParensBalanced(r);
      Infixed(Parens(r), ".", f);
  }

  lemma {:induction false} ElementsBalanced(es: seq<MlExp>)
    requires forall i :: 0 <= i < |es| ==> AtomsBalanced(es[i])
    ensures Balanced(Join(ShowExps(es), ", "))
    decreases es
  {
    var parts := ShowExps(es);
    forall i | 0 <= i < |es| ensures Balanced(parts[i]) {
      ExpBalanced(es[i]);
    }
    JoinBalanced(parts, ", ");
  }

  lemma {:induction false} ParensBalanced(e: MlExp)
    requires AtomsBalanced(e)
    ensures Balanced(Parens(e))
    decreases e, 3
  {
    ExpBalanced(e);
    Parenthesised(ShowExp(e));
  }

  /** An assignment statement is balanced whenever its right-hand side is. */
  lemma StatementBalanced(s: MlStatement)
    requires Balanced(s.lhs) && AtomsBalanced(s.rhs)
    ensures Balanced(ShowStatement(s))
  {
    ExpBalanced(s.rhs);
    Infixed(s.lhs, " <- ", ShowExp(s.rhs));
  }

  /** The borrow projections are complex, so under `borrow_mut` they are
      wrapped, and the projection's own leading space stays inside. */
  lemma BorrowOfProjection()
    ensures ShowExp(BorrowMut(Current(Var("x")))) == "borrow_mut ( * x)"
  {
    assert ShowExp(Current(Var("x"))) == " * x";
  }

  // ----- Type declarations -----

  /** The lines of a type declaration, all at column zero: the header, then
      one line per constructor in order. */
  function TyDeclLines(td: MlTyDecl): seq<Line>
  {
    [Line(0, TyDeclHeader(td))] + ConstructorLines(td.tyConstructors)
  }

  function ConstructorLines(cs: seq<(string, seq<MlType>)>): seq<Line>
  {
    seq(|cs|, i requires 0 <= i < |cs| => Line(0, ConstructorText(cs[i])))
  }

  /** The text of the constructor loop is the rendering of one line per constructor. */
  lemma {:induction false} ConstructorsRendered(cs: seq<(string, seq<MlType>)>)
    ensures ConstructorsText(cs) == Render(ConstructorLines(cs))
  {
    if cs != [] {
      var init := cs[..|cs| - 1];
      var last := Line(0, ConstructorText(cs[|cs| - 1]));
      ConstructorsRendered(init);
      ConstructorLinesSnoc(cs);
      RenderSnoc(ConstructorLines(init), last);
      assert LineText(last) == ConstructorText(cs[|cs| - 1]);
    }
  }

  lemma ConstructorLinesSnoc(cs: seq<(string, seq<MlType>)>)
    requires cs != []
    ensures ConstructorLines(cs) == ConstructorLines(cs[..|cs| - 1]) + [Line(0, ConstructorText(cs[|cs| - 1]))]
  {
    var a, b := ConstructorLines(cs), ConstructorLines(cs[..|cs| - 1]) + [Line(0, ConstructorText(cs[|cs| - 1]))];
    assert |a| == |b|;
    forall k | 0 <= k < |a| ensures a[k] == b[k] {
      if k < |cs| - 1 { assert cs[..|cs| - 1][k] == cs[k]; }
    }
  }

  /** `MlTyDecl::fmt` writes exactly the header line and one line per
      constructor, in order. */
  lemma TyDeclRendered(td: MlTyDecl)
    ensures ShowTyDecl(td) == Render(TyDeclLines(td))
  {
    ConstructorsRendered(td.tyConstructors);
    RenderOne(Line(0, TyDeclHeader(td)));
    RenderConcat([Line(0, TyDeclHeader(td))], ConstructorLines(td.tyConstructors));
    assert Spaces(0) == "";
  }

  /** With no newline inside the names, a rendered sequence of lines holds
      exactly one newline per line. */
  lemma {:induction false} NewlinesPerLine(ls: seq<Line>)
    requires forall i :: 0 <= i < |ls| ==> '\n' !in ls[i].content
    ensures multiset(Render(ls))['\n'] == |ls|
  {
    if ls != [] {
      var l := ls[|ls| - 1];
      NewlinesPerLine(ls[..|ls| - 1]);
      assert '\n' !in Spaces(l.indent);
      assert multiset(LineText(l))['\n'] == 0;
      assert multiset(Render(ls)) == multiset(Render(ls[..|ls| - 1])) + multiset(LineText(l)) + multiset("\n");
    }
  }

  /** A type declaration whose names and parameters hold no newline is
      exactly `1 + |constructors|` lines. */
  lemma TyDeclLineCount(td: MlTyDecl)
    requires '\n' !in td.tyName && (forall i :: 0 <= i < |td.tyParams| ==> '\n' !in td.tyParams[i])
    requires forall i :: 0 <= i < |td.tyConstructors| ==> '\n' !in td.tyConstructors[i].0
    requires forall i, j :: 0 <= i < |td.tyConstructors| && 0 <= j < |td.tyConstructors[i].1|
               ==> PlainType(td.tyConstructors[i].1[j])
    ensures multiset(ShowTyDecl(td))['\n'] == |td.tyConstructors| + 1
  {
    TyDeclRendered(td);
    HeaderOneLine(td);
    ConstructorsOneLine(td.tyConstructors);
    OneLineCons(Line(0, TyDeclHeader(td)), ConstructorLines(td.tyConstructors));
    NewlinesPerLine(TyDeclLines(td));
  }

  lemma ConstructorsOneLine(cs: seq<(string, seq<MlType>)>)
    requires forall i :: 0 <= i < |cs| ==> '\n' !in cs[i].0
    requires forall i, j :: 0 <= i < |cs| && 0 <= j < |cs[i].1| ==> PlainType(cs[i].1[j])
    ensures forall i :: 0 <= i < |cs| ==> '\n' !in ConstructorLines(cs)[i].content
  {
    forall i | 0 <= i < |cs| ensures '\n' !in ConstructorLines(cs)[i].content {
      ConstructorOneLine(cs[i]);
    }
  }

  lemma OneLineCons(h: Line, rest: seq<Line>)
    requires '\n' !in h.content
    requires forall i :: 0 <= i < |rest| ==> '\n' !in rest[i].content
    ensures forall i :: 0 <= i < |[h] + rest| ==> '\n' !in ([h] + rest)[i].content
  {
  }

  lemma HeaderOneLine(td: MlTyDecl)
    requires '\n' !in td.tyName && (forall i :: 0 <= i < |td.tyParams| ==> '\n' !in td.tyParams[i])
    ensures '\n' !in TyDeclHeader(td)
  {
    var j := Join(td.tyParams, " ");
    OneLineJoin(td.tyParams, " ");
    var a := "type " + td.tyName + " ";
    var h := TyDeclHeader(td);
    assert h == a + j + " =";
    forall k | 0 <= k < |h| ensures h[k] != '\n' {
      if k < 5 {
      } else if k < 5 + |td.tyName| {
        assert h[k] == td.tyName[k - 5];
      } else if k < |a| {
      } else if k < |a| + |j| {
        assert h[k] == j[k - |a|];
      }
    }
  }

  lemma ConstructorOneLine(c: (string, seq<MlType>))
    requires '\n' !in c.0
    requires forall j :: 0 <= j < |c.1| ==> PlainType(c.1[j])
    ensures '\n' !in ConstructorText(c)
  {
    if c.1 != [] {
      TypesJoin(c.1, ", ");
    }
  }
}
