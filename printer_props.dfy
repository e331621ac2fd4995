/** Properties of the expression-level renderers of
    creusot/src/mlcfg/printer.rs: the `parens!` rule and what it does not see,
    the operator table, the `complex()` wrapping of types, and the bracket
    structure of everything rendered. */
module PrinterProps {
  import opened Text
  import opened Brackets
  import opened Shapes
  import opened Ir
  import opened Printer
  import opened QNameProps

  // ----- The parens! rule -----

  /** The two outcomes of `Parens`, as a proof step for the lemmas below:
      wrapped when the child's precedence is strictly below its parent's,
      bare otherwise. */
  lemma ParensRule(d: Defs, fe: FormatEnv, parent: Exp, child: Exp)
    requires Renderable(child)
    ensures (Parens(d, fe, parent, child) == "(" + ShowExp(d, fe, child) + ")")
            <==> Precedence(d, child) < Precedence(d, parent)
    ensures (Parens(d, fe, parent, child) == ShowExp(d, fe, child))
            <==> !(Precedence(d, child) < Precedence(d, parent))
  {
    var s := ShowExp(d, fe, child);
    assert |"(" + s + ")"| != |s|;
  }

  /** The infix branch of `ShowExp`, unfolded as a proof step for
      `AssociativityIgnored`. */
  lemma InfixShape(d: Defs, fe: FormatEnv, op: FullBinOp, l: Exp, r: Exp)
    requires Infix(op) && Renderable(l) && Renderable(r)
    ensures ShowExp(d, fe, BinaryOp(op, l, r))
            == Parens(d, fe, BinaryOp(op, l, r), l) + " " + BinOpText(op) + " " + Parens(d, fe, BinaryOp(op, l, r), r)
  {
    assert op != Other(Div);
  }

  /** Wrapping depends on the parent only through its precedence. */
  lemma ParensOnlyRank(d: Defs, fe: FormatEnv, p1: Exp, p2: Exp, child: Exp)
    requires Renderable(child) && Precedence(d, p1) == Precedence(d, p2)
    ensures Parens(d, fe, p1, child) == Parens(d, fe, p2, child)
  {
  }

  /** The rule sees only the two precedences, never which operand the child
      is: `(x op y) op z` and `x op (y op z)` print the same for every infix
      operator. This is the associativity the printer does not take into account. */
  lemma AssociativityIgnored(d: Defs, fe: FormatEnv, op: FullBinOp, x: Exp, y: Exp, z: Exp)
    requires Infix(op) && Renderable(x) && Renderable(y) && Renderable(z)
    ensures BinaryOp(op, BinaryOp(op, x, y), z) != BinaryOp(op, x, BinaryOp(op, y, z))
    ensures ShowExp(d, fe, BinaryOp(op, BinaryOp(op, x, y), z))
            == ShowExp(d, fe, BinaryOp(op, x, BinaryOp(op, y, z)))
  {
    var left, right := BinaryOp(op, x, y), BinaryOp(op, y, z);
    var outerL, outerR := BinaryOp(op, left, z), BinaryOp(op, x, right);
    assert left != outerL;
    var o := BinOpText(op);
    var sx, sy, sz := Parens(d, fe, left, x), Parens(d, fe, left, y), Parens(d, fe, right, z);
    InfixShape(d, fe, op, x, y);
    InfixShape(d, fe, op, y, z);
    InfixShape(d, fe, op, left, z);
    InfixShape(d, fe, op, x, right);
    ParensOnlyRank(d, fe, left, outerR, x);
    ParensOnlyRank(d, fe, left, right, y);
    ParensOnlyRank(d, fe, right, outerL, z);
    ParensRule(d, fe, outerL, left);
    ParensRule(d, fe, outerR, right);
    assert ShowExp(d, fe, outerL) == (sx + " " + o + " " + sy) + " " + o + " " + sz;
    assert ShowExp(d, fe, outerR) == sx + " " + o + " " + (sy + " " + o + " " + sz);
    Regrouped(sx, sy, sz, o);
  }

  /** Regrouping a chain of two infix operations leaves the text unchanged. */
  lemma Regrouped(a: string, b: string, c: string, o: string)
    ensures (a + " " + o + " " + b) + " " + o + " " + c == a + " " + o + " " + (b + " " + o + " " + c)
  {
  }

  /** Division prints in prefix form and every other operand rule is the
      same: with division as binding as subtraction and atoms binding tighter,
      `5 - (a / b)` prints as `5 - div a b`. */
  lemma DivisionIsPrefix(d: Defs, fe: FormatEnv)
    requires d.rank(BinaryOpH(Other(Sub))) == d.rank(BinaryOpH(Other(Div)))
    requires d.rank(ConstH) >= d.rank(BinaryOpH(Other(Sub)))
    requires d.rank(VarH) >= d.rank(BinaryOpH(Other(Div)))
    ensures ShowExp(d, fe, BinaryOp(Other(Sub), Const(Constant("5")),
                                    BinaryOp(Other(Div), Var("a"), Var("b")))) == "5 - div a b"
  {
    var q := BinaryOp(Other(Div), Var("a"), Var("b"));
    var e := BinaryOp(Other(Sub), Const(Constant("5")), q);
    assert ShowExp(d, fe, q) == "div a b";
    assert Parens(d, fe, e, q) == "div a b";
    assert Parens(d, fe, e, Const(Constant("5"))) == "5";
  }

  /** `Current` and `Final` write a leading space and then their operand
      bare, even one that binds more loosely than they do and that `parens!`
      would have wrapped. */
  lemma ProjectionsUnwrapped(d: Defs, fe: FormatEnv, x: Exp)
    requires Renderable(x)
    ensures ShowExp(d, fe, Current(x))[..3] == " * " && ShowExp(d, fe, Current(x))[3..] == ShowExp(d, fe, x)
    ensures ShowExp(d, fe, Final(x))[..3] == " ^ " && ShowExp(d, fe, Final(x))[3..] == ShowExp(d, fe, x)
    ensures Precedence(d, x) < Precedence(d, Current(x)) ==> ShowExp(d, fe, Current(x))[3..] != Parens(d, fe, Current(x), x)
    ensures Precedence(d, x) < Precedence(d, Final(x)) ==> ShowExp(d, fe, Final(x))[3..] != Parens(d, fe, Final(x), x)
  {
    ParensRule(d, fe, Current(x), x);
    ParensRule(d, fe, Final(x), x);
  }

  /** Tuple types separate their elements with a space. */
  lemma TupleTypeSeparator(fe: FormatEnv, s: Type, t: Type)
    ensures ShowType(fe, Type.Tuple([s, t])) == "(" + ShowType(fe, s) + " " + ShowType(fe, t) + ")"
  {
    assert ShowTypes(fe, [s, t]) == [ShowType(fe, s), ShowType(fe, t)];
    JoinPair(ShowType(fe, s), ShowType(fe, t), " ");
  }

  /** Tuple expressions separate their elements with a comma. */
  lemma TupleExpSeparator(d: Defs, fe: FormatEnv, x: Exp, y: Exp)
    requires Renderable(x) && Renderable(y)
    ensures ShowExp(d, fe, Exp.Tuple([x, y])) == "(" + ShowExp(d, fe, x) + ", " + ShowExp(d, fe, y) + ")"
  {
    assert ShowExps(d, fe, [x, y]) == [ShowExp(d, fe, x), ShowExp(d, fe, y)];
    JoinPair(ShowExp(d, fe, x), ShowExp(d, fe, y), ", ");
  }

  // ----- Operators and labels -----

  /** Every operator of the table is one token, the eleven tokens are
      pairwise distinct, and none of them is the prefix `div`. */
  lemma BinOpTokens(a: FullBinOp, b: FullBinOp)
    requires Infix(a) && Infix(b)
    ensures Plain(BinOpText(a)) && BinOpText(a) != "div"
    ensures BinOpText(a) == BinOpText(b) ==> a == b
  {
  }

  /** Distinct block ids get distinct labels. */
  lemma BlockIdInjective(a: BlockId, b: BlockId)
    requires ShowBlockId(a) == ShowBlockId(b)
    ensures a == b
  {
    assert ShowBlockId(a)[2..] == NatText(a);
    assert ShowBlockId(b)[2..] == NatText(b);
    NatTextInjective(a, b);
  }

  // ----- Types -----

  /** `complex()` picks out exactly the types whose text, left unwrapped,
      would have a space outside every bracket and so read as more than one
      argument: borrows and applications. Every other plain type is already
      a unit and is written bare. */
  lemma TypeWrapping(fe: FormatEnv, t: Type)
    requires PlainType(t)
    ensures Complex(t) <==> !Unit(TypeBody(fe, t))
  {
    match t
    case MutableBorrow(u) =>
      BracketlessBalanced("borrowed");
      SpaceAtTop("borrowed", ShowType(fe, u));
      assert TypeBody(fe, t) == "borrowed" + " " + ShowType(fe, u);
    case TApp(f, args) =>
      TypeUnit(fe, f);
      SpaceAtTop(ShowType(fe, f), Join(ShowTypes(fe, args), " "));
    case _ =>
      TypeUnit(fe, t);
      assert ShowType(fe, t) == TypeBody(fe, t);
  }

  /** Type variables and names made of plain segments. */
  predicate PlainType(t: Type)
    decreases t
  {
    match t
    case MutableBorrow(u) => PlainType(u)
    case TVar(v) => Plain(v)
    case TConstructor(q) => PlainQName(q)
    case TApp(f, args) => PlainType(f) && forall i :: 0 <= i < |args| ==> PlainType(args[i])
    case Tuple(ts) => forall i :: 0 <= i < |ts| ==> PlainType(ts[i])
    case _ => true
  }

  /** Every rendered type is one unit: the `complex()` wrapping leaves no
      space outside brackets, so the space-separated arguments of a type
      application can be told apart. */
  lemma {:induction false} TypeUnit(fe: FormatEnv, t: Type)
    requires PlainType(t)
    ensures Unit(ShowType(fe, t))
    decreases t
  {
    match t
    case Bool => ScalarUnit(fe, t);
    case Char => ScalarUnit(fe, t);
    case Int(_) => ScalarUnit(fe, t);
    case Uint(_) => ScalarUnit(fe, t);
    case Float(_) => ScalarUnit(fe, t);
    case MutableBorrow(u) =>
      TypeUnit(fe, u);
      BorrowedUnit(ShowType(fe, u));
      assert ShowType(fe, t) == "(" + ("borrowed " + ShowType(fe, u)) + ")";
    case TVar(v) => PlainUnit(v);
    case TConstructor(q) =>
      QNamePlain(fe, q);
      PlainUnit(ShowQName(fe, q));
    case TApp(f, args) =>
      TypeUnit(fe, f);
      TypesJoin(fe, args);
      AppliedUnit(ShowType(fe, f), Join(ShowTypes(fe, args), " "));
      assert ShowType(fe, t) == "(" + (ShowType(fe, f) + " " + Join(ShowTypes(fe, args), " ")) + ")";
    case Tuple(ts) =>
      TypesJoin(fe, ts);
      Parenthesised(Join(ShowTypes(fe, ts), " "));
      assert ShowType(fe, t) == "(" + Join(ShowTypes(fe, ts), " ") + ")";
  }

  /** The primitive types print as a bare keyword. */
  lemma ScalarUnit(fe: FormatEnv, t: Type)
    requires t.Bool? || t.Char? || t.Int? || t.Uint? || t.Float?
    ensures Unit(ShowType(fe, t))
  {
    assert ShowType(fe, t) == TypeBody(fe, t);
    match t
    case Bool => PlainUnit("bool");
    case Char => PlainUnit("char");
    case Int(w) => IntTyPlain(w); PlainUnit(IntTyText(w));
    case Uint(w) => UintTyPlain(w); PlainUnit(UintTyText(w));
    case Float(w) => PlainUnit(FloatTyText(w));
  }

  lemma IntTyPlain(w: IntTy)
    ensures Plain(IntTyText(w))
  {
    match w
    case I8 => assert Plain("int8");
    case I16 => assert Plain("int16");
    case I32 => assert Plain("int32");
    case I64 => assert Plain("int64");
    case I128 => assert Plain("int128");
    case Isize => assert Plain("isize");
  }

  lemma UintTyPlain(w: UintTy)
    ensures Plain(UintTyText(w))
  {
    match w
    case U8 => assert Plain("uint8");
    case U16 => assert Plain("uint16");
    case U32 => assert Plain("uint32");
    case U64 => assert Plain("uint64");
    case U128 => assert Plain("uint128");
    case Usize => assert Plain("usize");
  }

  /** The space-separated join of units is balanced and on one line. */
  lemma {:induction false} TypesJoin(fe: FormatEnv, ts: seq<Type>)
    requires forall i :: 0 <= i < |ts| ==> PlainType(ts[i])
    ensures Balanced(Join(ShowTypes(fe, ts), " ")) && '\n' !in Join(ShowTypes(fe, ts), " ")
    decreases ts
  {
    var parts := ShowTypes(fe, ts);
    forall i | 0 <= i < |ts| ensures Unit(parts[i]) {
      TypeUnit(fe, ts[i]);
    }
    JoinBalanced(parts, " ");
    OneLineJoin(parts, " ");
  }

  // ----- Patterns -----

  predicate PlainPattern(p: Pattern)
    decreases p
  {
    match p
    case Wildcard => true
    case VarP(v) => Plain(v)
    case TupleP(ps) => forall i :: 0 <= i < |ps| ==> PlainPattern(ps[i])
    case ConsP(c, ps) => Plain(c) && forall i :: 0 <= i < |ps| ==> PlainPattern(ps[i])
    case LitP(lit) => Plain(lit.text)
  }

  /** Every rendered pattern is one unit, so `let p = ...` and `| p -> goto`
      need no parentheses around it. A constructor without arguments is its
      bare name. */
  lemma {:induction false} PatternUnit(p: Pattern)
    requires PlainPattern(p)
    ensures Unit(ShowPattern(p))
    ensures p.ConsP? && p.args == [] ==> ShowPattern(p) == p.ctor
    decreases p
  {
    match p
    case Wildcard => PlainUnit("_");
    case VarP(v) => PlainUnit(v);
    case TupleP(ps) =>
      var j := Join(ShowPatterns(ps), ", ");
      PatternsJoin(ps);
      Parenthesised(j);
    case ConsP(c, ps) =>
      PlainUnit(c);
      if ps != [] {
        PatternsJoin(ps);
        ApplicationUnit(c, Join(ShowPatterns(ps), ", "));
      }
    case LitP(lit) => PlainUnit(lit.text);
  }

  /** The comma-joined sub-patterns are balanced and on one line.
      `OldMlcfgProps.PatternsJoin` is the older renderer's counterpart. */
  lemma {:induction false} PatternsJoin(ps: seq<Pattern>)
    requires forall i :: 0 <= i < |ps| ==> PlainPattern(ps[i])
    ensures Balanced(Join(ShowPatterns(ps), ", ")) && '\n' !in Join(ShowPatterns(ps), ", ")
    decreases ps
  {
    var parts := ShowPatterns(ps);
    forall i | 0 <= i < |ps| ensures Unit(parts[i]) {
      PatternUnit(ps[i]);
    }
    JoinBalanced(parts, ", ");
    OneLineJoin(parts, ", ");
  }
}

module ExpProps {
  import opened Text
  import opened Brackets
  import opened Shapes
  import opened Ir
  import opened Printer
  import opened QNameProps
  import opened PrinterProps

  ghost predicate BindersPlain(bs: seq<(string, Type)>)
  {
    forall i :: 0 <= i < |bs| ==> Balanced(bs[i].0) && PlainType(bs[i].1)
  }

  /** The leaves of an expression (names, literals, verbatim text) are
      balanced, its patterns and types plain. */
  ghost predicate AtomsBalanced(d: Defs, e: Exp)
    decreases e
  {
    match e
    case Current(x) => AtomsBalanced(d, x)
    case Final(x) => AtomsBalanced(d, x)
    case Let(p, a, b) => PlainPattern(p) && AtomsBalanced(d, a) && AtomsBalanced(d, b)
    case Var(v) => Balanced(v)
    case RecUp(r, l, v) => Balanced(l) && AtomsBalanced(d, r) && AtomsBalanced(d, v)
    case Tuple(es) => forall i :: 0 <= i < |es| ==> AtomsBalanced(d, es[i])
    case Constructor(c, es) =>
      && PlainQName(c) && Balanced(d.qnameText(c))
      && forall i :: 0 <= i < |es| ==> AtomsBalanced(d, es[i])
    case BorrowMut(x) => AtomsBalanced(d, x)
    case Const(c) => Balanced(c.text)
    case BinaryOp(_, l, r) => AtomsBalanced(d, l) && AtomsBalanced(d, r)
    case Call(f, es) => Balanced(f) && forall i :: 0 <= i < |es| ==> AtomsBalanced(d, es[i])
    case Verbatim(v) => Balanced(v)
    case Forall(bs, x) => BindersPlain(bs) && AtomsBalanced(d, x)
    case Exists(bs, x) => BindersPlain(bs) && AtomsBalanced(d, x)
    case Impl(h, x) => AtomsBalanced(d, h) && AtomsBalanced(d, x)
  }

  lemma BindersBalanced(fe: FormatEnv, bs: seq<(string, Type)>)
    requires BindersPlain(bs)
    ensures Balanced(BindersText(fe, bs))
  {
    var parts := seq(|bs|, i requires 0 <= i < |bs| => "(" + bs[i].0 + " : " + ShowType(fe, bs[i].1) + ") ");
    forall i | 0 <= i < |bs| ensures Balanced(parts[i]) {
      var inner := bs[i].0 + " : " + ShowType(fe, bs[i].1);
      TypeUnit(fe, bs[i].1);
      Suffixed(bs[i].0, " : ");
      BalancedAppend(bs[i].0 + " : ", ShowType(fe, bs[i].1));
      Parenthesised(inner);
      Suffixed("(" + inner + ")", " ");
      assert parts[i] == "(" + inner + ")" + " ";
    }
    JoinBalanced(parts, "");
  }

  lemma InfixText(l: string, sym: string, r: string)
    requires Balanced(l) && Plain(sym) && Balanced(r)
    ensures Balanced(l + " " + sym + " " + r)
  {
    BracketlessAppend(" ", sym);
    BracketlessAppend(" " + sym, " ");
    Infixed(l, " " + sym + " ", r);
    assert l + " " + sym + " " + r == l + (" " + sym + " ") + r;
  }

  lemma PrefixText(kw: string, a: string, sep: string, b: string)
    requires Bracketless(kw) && Balanced(a) && Bracketless(sep) && Balanced(b)
    ensures Balanced(kw + a + sep + b)
  {
    Prefixed(kw, a);
    Infixed(kw + a, sep, b);
  }

  /** Every rendered expression has balanced brackets: whatever the
      precedences, the parentheses the printer adds always come in matching
      pairs around complete sub-expressions. */
  lemma {:induction false} ExpBalanced(d: Defs, fe: FormatEnv, e: Exp)
    requires Renderable(e) && AtomsBalanced(d, e)
    ensures Balanced(ShowExp(d, fe, e))
    decreases e, 2
  {
    match e
    case Current(x) =>
      ExpBalanced(d, fe, x);
      Prefixed(" * ", ShowExp(d, fe, x));
    case Final(x) =>
      ExpBalanced(d, fe, x);
      Prefixed(" ^ ", ShowExp(d, fe, x));
    case Var(_) =>
    case Tuple(es) =>
      ElementsBalanced(d, fe, e, es);
      Parenthesised(Join(ShowExps(d, fe, es), ", "));
    case Constructor(c, es) =>
      if es == [] {
        QNamePlain(fe, c);
        BracketlessBalanced(ShowQName(fe, c));
      } else {
        ElementsBalanced(d, fe, e, es);
        ApplyText(d.qnameText(c), Join(ShowExps(d, fe, es), ", "));
      }
    case Const(_) =>
    case Call(f, es) =>
      ArgumentsBalanced(d, fe, e, es);
      Infixed(f, " ", Join(ParensAll(d, fe, e, es), " "));
    case Verbatim(_) =>
    case Forall(_, _) =>
      QuantifierBalanced(d, fe, e);
    case Exists(_, _) =>
      QuantifierBalanced(d, fe, e);
    case _ =>
      OperandsBalanced(d, fe, e);
  }

  /** Quantifiers: the keyword, the binders, then the body. */
  lemma {:induction false} QuantifierBalanced(d: Defs, fe: FormatEnv, e: Exp)
    requires e.Forall? || e.Exists?
    requires Renderable(e) && AtomsBalanced(d, e)
    ensures Balanced(ShowExp(d, fe, e))
    decreases e, 1
  {
    ExpBalanced(d, fe, e.e);
    BindersBalanced(fe, e.binders);
    if e.Forall? {
      PrefixText("forall ", BindersText(fe, e.binders), ". ", ShowExp(d, fe, e.e));
    } else {
      PrefixText("exists ", BindersText(fe, e.binders), ". ", ShowExp(d, fe, e.e));
    }
  }

  /** The expressions whose children go through the `parens!` rule. */
  lemma {:induction false} OperandsBalanced(d: Defs, fe: FormatEnv, e: Exp)
    requires e.Let? || e.RecUp? || e.BorrowMut? || e.BinaryOp? || e.Impl?
    requires Renderable(e) && AtomsBalanced(d, e)
    ensures Balanced(ShowExp(d, fe, e))
    decreases e, 1
  {
    match e
    case Let(p, a, b) =>
      PatternUnit(p);
      ParensBalanced(d, fe, e, a);
      ParensBalanced(d, fe, e, b);
      LetText(ShowPattern(p), Parens(d, fe, e, a), Parens(d, fe, e, b));
    case RecUp(r, l, v) =>
      ParensBalanced(d, fe, e, r);
      ParensBalanced(d, fe, e, v);
      RecUpText(Parens(d, fe, e, r), l, Parens(d, fe, e, v));
    case BorrowMut(x) =>
      ParensBalanced(d, fe, e, x);
      Prefixed("borrow_mut ", Parens(d, fe, e, x));
    case BinaryOp(_, _, _) =>
      BinaryBalanced(d, fe, e);
    case Impl(h, x) =>
      ParensBalanced(d, fe, e, h);
      ParensBalanced(d, fe, e, x);
      Infixed(Parens(d, fe, e, h), " -> ", Parens(d, fe, e, x));
  }

  /** Binary operations: `div` in prefix form, every other operator infix. */
  lemma {:induction false} BinaryBalanced(d: Defs, fe: FormatEnv, e: Exp)
    requires e.BinaryOp? && Renderable(e) && AtomsBalanced(d, e)
    ensures Balanced(ShowExp(d, fe, e))
    decreases e, 0
  {
    var op, l, r := e.op, e.l, e.r;
    ParensBalanced(d, fe, e, l);
    ParensBalanced(d, fe, e, r);
    if op == Other(Div) {
      PrefixText("div ", Parens(d, fe, e, l), " ", Parens(d, fe, e, r));
    } else {
      BinOpTokens(op, op);
      InfixText(Parens(d, fe, e, l), BinOpText(op), Parens(d, fe, e, r));
    }
  }

  lemma {:induction false} ArgumentsBalanced(d: Defs, fe: FormatEnv, parent: Exp, es: seq<Exp>)
    requires forall i :: 0 <= i < |es| ==> Renderable(es[i]) && AtomsBalanced(d, es[i])
    ensures Balanced(Join(ParensAll(d, fe, parent, es), " "))
    decreases es
  {
    var parts := ParensAll(d, fe, parent, es);
    forall i | 0 <= i < |es| ensures Balanced(parts[i]) {
      ParensBalanced(d, fe, parent, es[i]);
    }
    JoinBalanced(parts, " ");
  }

  lemma {:induction false} ElementsBalanced(d: Defs, fe: FormatEnv, parent: Exp, es: seq<Exp>)
    requires forall i :: 0 <= i < |es| ==> Renderable(es[i]) && AtomsBalanced(d, es[i])
    ensures Balanced(Join(ShowExps(d, fe, es), ", "))
    decreases es
  {
    var parts := ShowExps(d, fe, es);
    forall i | 0 <= i < |es| ensures Balanced(parts[i]) {
      ExpBalanced(d, fe, es[i]);
    }
    JoinBalanced(parts, ", ");
  }

  /** Under the `parens!` rule a balanced child stays balanced. */
  lemma {:induction false} ParensBalanced(d: Defs, fe: FormatEnv, parent: Exp, child: Exp)
    requires Renderable(child) && AtomsBalanced(d, child)
    ensures Balanced(Parens(d, fe, parent, child))
    decreases child, 3
  {
    ExpBalanced(d, fe, child);
    Parenthesised(ShowExp(d, fe, child));
  }

  /** The text of a freeze is balanced when the place it names is. */
  lemma FreezeTextBalanced(loc: string)
    requires Balanced(loc)
    ensures Balanced("assume { ^ " + loc + " = * " + loc + " }")
  {
    var body := "^ " + loc + " = * " + loc;
    var braced := "{ " + body + " }";
    Prefixed("^ ", loc);
    Infixed("^ " + loc, " = * ", loc);
    PaddedBraces(body);
    Prefixed("assume ", braced);
    assert "assume { ^ " + loc == "assume " + "{ " + ("^ " + loc);
    assert "assume { ^ " + loc + " = * " + loc + " }" == "assume " + braced;
  }

  /** The text of an invariant is balanced when its name and its
      expression's text are. */
  lemma InvariantTextBalanced(nm: string, x: string)
    requires Balanced(nm) && Balanced(x)
    ensures Balanced("invariant " + nm + " { " + x + " }")
  {
    Prefixed("invariant ", nm);
    Suffixed("invariant " + nm, " ");
    PaddedBraces(x);
    BalancedAppend("invariant " + nm + " ", "{ " + x + " }");
    assert "invariant " + nm + " { " + x + " }" == ("invariant " + nm + " ") + ("{ " + x + " }");
  }

  /** A statement prints balanced when the names it writes are balanced
      and so are the leaves of its expression: the braces of `assume` and
      `invariant` close what they open. */
  lemma StatementBalanced(d: Defs, fe: FormatEnv, s: Statement)
    requires StatementRenderable(s)
    requires s.Assign? ==> Balanced(s.lhs) && AtomsBalanced(d, s.rhs)
    requires s.Freeze? ==> Balanced(s.place)
    requires s.Invariant? ==> Balanced(s.iname) && AtomsBalanced(d, s.inv)
    ensures Balanced(ShowStatement(d, fe, s))
  {
    match s
    case Assign(lhs, rhs) =>
      ExpBalanced(d, fe, rhs);
      Infixed(lhs, " <- ", ShowExp(d, fe, rhs));
    case Freeze(loc) =>
      FreezeTextBalanced(loc);
    case Invariant(nm, e) =>
      ExpBalanced(d, fe, e);
      InvariantTextBalanced(nm, ShowExp(d, fe, e));
  }
}
