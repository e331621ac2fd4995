/** The intermediate language that creusot/src/mlcfg/printer.rs renders: the
    entities of the MLCFG tree, the `FormatEnv` every `EnvDisplay` impl receives,
    and the two things the printer asks of its parent module, which is not part
    of this model: each expression's precedence and the plain `Display` of a
    qualified name. */
module Ir {

  /** A fully resolved name: its module path and its identifier segments. */
  datatype QName = QName(path: seq<string>, name: seq<string>)

  datatype IntTy = I8 | I16 | I32 | I64 | I128 | Isize

  datatype UintTy = U8 | U16 | U32 | U64 | U128 | Usize

  datatype FloatTy = F32 | F64

  datatype Type =
    | Bool
    | Char
    | Int(ity: IntTy)
    | Uint(uty: UintTy)
    | Float(fty: FloatTy)
    | MutableBorrow(inner: Type)
    | TVar(tvar: string)
    | TConstructor(cname: QName)
    | TApp(head: Type, targs: seq<Type>)
    | Tuple(elems: seq<Type>)

  /** Whether a type is printed inside a pair of parentheses. The rule of the
      parent module is not shown; this is the rule src/mlcfg.rs states for the
      same variants, with floats as atomic as integers. */
  predicate Complex(t: Type)
  {
    match t
    case Bool | Char | Int(_) | Uint(_) | Float(_) | TVar(_) | Tuple(_) | TConstructor(_) => false
    case _ => true
  }

  /** The MIR binary operators. */
  datatype BinOp =
    | Add | Sub | Mul | Div | Rem | BitXor | BitAnd | BitOr | Shl | Shr
    | Eq | Lt | Le | Ne | Ge | Gt | Offset

  datatype FullBinOp = And | Or | Other(op: BinOp)

  /** A literal token, already formatted. */
  datatype Constant = Constant(text: string)

  /** Constructor names and variable names are kept as the text they print as. */
  datatype Pattern =
    | Wildcard
    | VarP(v: string)
    | TupleP(pats: seq<Pattern>)
    | ConsP(ctor: string, args: seq<Pattern>)
    | LitP(lit: Constant)

  datatype Exp =
    | Current(e: Exp)
    | Final(e: Exp)
    | Let(pattern: Pattern, arg: Exp, body: Exp)
    | Var(v: string)
    | RecUp(record: Exp, fieldLabel: string, val: Exp)
    | Tuple(elems: seq<Exp>)
    | Constructor(ctor: QName, args: seq<Exp>)
    | BorrowMut(e: Exp)
    | Const(c: Constant)
    | BinaryOp(op: FullBinOp, l: Exp, r: Exp)
    | Call(fun: string, args: seq<Exp>)
    | Verbatim(text: string)
    | Forall(binders: seq<(string, Type)>, e: Exp)
    | Exists(binders: seq<(string, Type)>, e: Exp)
    | Impl(hyp: Exp, e: Exp)

  /** The head of an expression: its variant, and for a binary operation its
      operator. Precedence is a function of the head alone. */
  datatype ExpHead =
    | CurrentH | FinalH | LetH | VarH | RecUpH | TupleH | ConstructorH | BorrowMutH
    | ConstH | BinaryOpH(op: FullBinOp) | CallH | VerbatimH | ForallH | ExistsH | ImplH

  function Head(e: Exp): ExpHead
  {
    match e
    case Current(_) => CurrentH
    case Final(_) => FinalH
    case Let(_, _, _) => LetH
    case Var(_) => VarH
    case RecUp(_, _, _) => RecUpH
    case Tuple(_) => TupleH
    case Constructor(_, _) => ConstructorH
    case BorrowMut(_) => BorrowMutH
    case Const(_) => ConstH
    case BinaryOp(op, _, _) => BinaryOpH(op)
    case Call(_, _) => CallH
    case Verbatim(_) => VerbatimH
    case Forall(_, _) => ForallH
    case Exists(_, _) => ExistsH
    case Impl(_, _) => ImplH
  }

  /** What the printer takes from its parent module: the precedence rank of
      each expression head, and the plain `Display` of a qualified name (used
      where the printer writes a name with `{}` instead of through the
      environment). */
  datatype Defs = Defs(rank: ExpHead -> int, qnameText: QName -> string)

  function Precedence(d: Defs, e: Exp): int
  {
    d.rank(Head(e))
  }

  datatype Statement =
    | Assign(lhs: string, rhs: Exp)
    | Freeze(place: string)
    | Invariant(iname: string, inv: Exp)

  type BlockId = nat

  datatype Terminator =
    | Goto(target: BlockId)
    | Absurd
    | Return
    | Switch(discr: Exp, arms: seq<(Pattern, BlockId)>)

  datatype Block = Block(id: BlockId, statements: seq<Statement>, terminator: Terminator)

  /** Contract clauses are written with plain `Display`, so they are kept as
      the text they print as. */
  datatype Function = Function(
    name: QName,
    retty: Type,
    args: seq<(string, Type)>,
    vars: seq<(string, Type)>,
    blocks: seq<Block>,
    preconds: seq<string>,
    postconds: seq<string>)

  datatype TyDecl = TyDecl(tyName: QName, tyParams: seq<string>, tyConstructors: seq<(string, seq<Type>)>)

  /** The side information of a render: the open scopes and the current indentation. */
  datatype FormatEnv = FormatEnv(scope: seq<string>, indent: nat)
  {
    /** The environment `FormatEnv::indent` hands to its closure: a copy with
        `i` more columns of indentation and the same scopes. */
    function Indent(i: nat): (inner: FormatEnv)
      ensures inner.scope == scope
      ensures inner.indent - indent == i
    {
      this.(indent := indent + i)
    }
  }
}
