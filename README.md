# MLCFG renderer, modelled in Dafny

This project models the text renderer of Creusot's MLCFG intermediate language. Creusot translates Rust
functions into MLCFG, the control-flow-graph language of the Why3 verification platform, and this
renderer writes that language out as text. There are two renderers:

- `creusot/src/mlcfg/printer.rs` is the current renderer. Every node kind is printed under a
  `FormatEnv`, which holds the open module scopes and the current indentation. Qualified names are
  shortened against the open scopes. The `parens!` rule compares precedences. Functions, blocks,
  terminators and type declarations are written line by line into a formatter.
- `src/mlcfg.rs` is the older renderer. It has plain `Display` impls, wraps children by a fixed
  `complex()` rule and prints integer types without their width.

## Modules

- `Text`: joining, runs of spaces, and the decimal text of a number.
- `Brackets`: bracket depth of a text. A *balanced* text closes every bracket it opens and never
  dips below depth zero. A *unit* is a one-line, non-empty balanced text with no space at depth
  zero, so it can stand as one argument of a juxtaposition such as `borrowed t` or `f a b`.
- `Shapes`: string-shape lemmas shared by both renderers (a text wrapped in padded braces, an
  application of units, and the like).
- `Ir`: the tree being printed (types, patterns, expressions, statements, terminators, blocks,
  functions, type declarations) and `FormatEnv`. It also holds `Defs`, which supplies what the
  printer takes from its parent module: the precedence of each expression head and the plain
  `Display` of a qualified name.
- `Printer`: the expression-level renderers of `printer.rs` as functions: qualified names, types,
  patterns, expressions, `parens!`, operators, statements and block ids.
- `Layout`: text as a sequence of `Line(indent, content)`. `Render` writes each line as that many
  spaces, the content and a newline. `AtIndent` picks out the lines at one depth.
- `Listing`: the block-level output of `printer.rs` as line sequences: terminators, blocks, the
  function header, contract, declarations, prologue and blocks, and type declarations.
- `Emit`: the block-level `fmt` methods as methods on a `Formatter` class. Its `text` field is the
  output written so far. Each method is proved to append exactly `Render` of the matching
  `Listing` lines. The closure given to `FormatEnv::indent` becomes a call with `fe.Indent(2)`.
- `QNameProps`, `PrinterProps`, `ExpProps`, `ListingProps`: the properties of those renderers.
- `OldMlcfg`, `OldMlcfgProps`: the renderer of `src/mlcfg.rs` and its properties.
- `Scenarios`: three concrete renderings computed from the model:
  - a two-armed `switch`;
  - a whole small function `add`;
  - `5 - div a b`, which is `PrinterProps.DivisionIsPrefix`.

Details of the output as the code writes them:

- A qualified name's module path is compared with the open scope position by position, through
  a `zip`. Only the zipped positions left after the common prefix are printed. So with an empty
  scope only the identifier is printed, not the full path. Path segments beyond the scope's
  length are dropped as well (`QNameProps.ShowQNameSpec`).
- Function parameters are written as `(o_x : T)` groups with no space between groups
  (`Scenarios.AddHeader`).
- The borrow projections are written ` * e` and ` ^ e`, with spaces on both sides of the operator
  (`PrinterProps.ProjectionsUnwrapped`).
- The `end` that closes a `switch` ends with a newline, like every other line
  (`Scenarios.SwitchScenario`).
- In `src/mlcfg.rs`, a type declaration with no parameters has two spaces before `=`. A
  constructor with arguments has a trailing space before its newline.

## Model

| member | source | states |
|---|---|---|
| Ir.FormatEnv.Indent | creusot/src/mlcfg/printer.rs:37-42 | the nested environment keeps the scopes and is exactly `i` columns deeper |
| Text.Spaces | creusot/src/mlcfg/printer.rs:44-47 | the indentation prefix is exactly `indent` characters, all of them spaces |
| Layout.LineText | creusot/src/mlcfg/printer.rs:44-47 | a line's text is its indentation in spaces followed by its content, and nothing else |
| Text.NatText | creusot/src/mlcfg/printer.rs:360-364 | the number in a block label is non-empty, all digits, and starts with `0` only for block 0 |
| Text.NatTextInjective | creusot/src/mlcfg/printer.rs:360-364 | distinct numbers have distinct decimal texts |
| PrinterProps.BlockIdInjective | creusot/src/mlcfg/printer.rs:360-364 | distinct block ids get distinct `BB<n>` labels |
| ListingProps.LabelInjective | creusot/src/mlcfg/printer.rs:366-369 | distinct blocks open with distinct `BB<n> {` lines |
| QNameProps.ShowQNameSpec | creusot/src/mlcfg/printer.rs:432-450 | when no module segment is empty, the rendered name is the zipped module segments after the first mismatch with the scope, joined by `.` and followed by `.`, then the identifier segments joined by `_`; with no segment left, only the identifier |
| QNameProps.QNameUnderScope | creusot/src/mlcfg/printer.rs:432-450 | a name whose module path starts with the whole open scope prints as its bare identifier |
| QNameProps.QNameOutsideScope | creusot/src/mlcfg/printer.rs:432-450 | when no module segment is empty, a name whose first segment differs from the scope's, and whose module path is no longer than the scope, prints its full module path, `.`, then the identifier |
| QNameProps.QNamePlain | creusot/src/mlcfg/printer.rs:432-450 | a name made of plain segments prints as one plain token |
| QNameProps.EmptySegmentDropped | creusot/src/mlcfg/printer.rs:435-449 | an example of the test being on the joined module path rather than on the segments: outside scope `a`, the path `[""]` keeps one empty segment, which joins to the empty string, so the name prints as the bare identifier, with no `.` |
| PrinterProps.ParensOnlyRank | creusot/src/mlcfg/printer.rs:56-65 | wrapping depends on the parent only through its precedence |
| PrinterProps.AssociativityIgnored | creusot/src/mlcfg/printer.rs:56-65 | `(x op y) op z` and `x op (y op z)` are different trees that print identically, for every infix operator: the rule ignores associativity |
| PrinterProps.DivisionIsPrefix | creusot/src/mlcfg/printer.rs:243-248 | with subtraction and division at the same rank and atoms binding tighter, `5 - (a / b)` prints as `5 - div a b` |
| PrinterProps.ProjectionsUnwrapped | creusot/src/mlcfg/printer.rs:209-214 | `Current` and `Final` write ` * ` or ` ^ ` and then the operand bare; an operand that binds more loosely is not wrapped as `parens!` would wrap it |
| PrinterProps.TupleTypeSeparator | creusot/src/mlcfg/printer.rs:193-197 | the two elements of a pair type are separated by a space |
| PrinterProps.TupleExpSeparator | creusot/src/mlcfg/printer.rs:227-229 | the two elements of a pair expression are separated by a comma and a space |
| PrinterProps.BinOpTokens | creusot/src/mlcfg/printer.rs:386-402 | every supported operator prints as one plain token other than `div`, and distinct operators print distinct tokens |
| PrinterProps.TypeWrapping | creusot/src/mlcfg/printer.rs:136-204 | for a type with plain names, `complex()` holds exactly when the text written without the outer parentheses is not a unit, i.e. has a space outside every bracket: `complex()` wraps just the types that would otherwise read as several arguments |
| PrinterProps.TypeUnit | creusot/src/mlcfg/printer.rs:136-204 | a type whose names are plain prints as a unit, so it never needs outer parentheses as an argument |
| PrinterProps.ScalarUnit | creusot/src/mlcfg/printer.rs:144-178 | the scalar types print as units |
| PrinterProps.IntTyPlain | creusot/src/mlcfg/printer.rs:150-160 | every signed integer width prints as one plain token |
| PrinterProps.UintTyPlain | creusot/src/mlcfg/printer.rs:161-171 | every unsigned integer width prints as one plain token |
| PrinterProps.TypesJoin | creusot/src/mlcfg/printer.rs:188-197 | the space-separated argument list of an application or tuple type is balanced and on one line |
| PrinterProps.PatternUnit | creusot/src/mlcfg/printer.rs:331-356 | a pattern made of plain names prints as a unit, and a constructor with no arguments prints as its bare name |
| PrinterProps.PatternsJoin | creusot/src/mlcfg/printer.rs:340-348 | a comma-separated list of sub-patterns is balanced and on one line |
| Printer.ShowExps | creusot/src/mlcfg/printer.rs:227-236 | the comma-separated elements are the rendering of each element expression, in order |
| Printer.ParensAll | creusot/src/mlcfg/printer.rs:249-251 | the arguments of a call are each argument under `parens!` with the call as parent, in order |
| ExpProps.BindersBalanced | creusot/src/mlcfg/printer.rs:255-263 | the binder groups of a quantifier are balanced |
| ExpProps.ExpBalanced | creusot/src/mlcfg/printer.rs:206-279 | every expression whose leaves are balanced prints as a balanced text |
| ExpProps.QuantifierBalanced | creusot/src/mlcfg/printer.rs:255-272 | `forall` and `exists` expressions print balanced |
| ExpProps.OperandsBalanced | creusot/src/mlcfg/printer.rs:215-226 | `let`, record updates, `borrow_mut`, binary operations and implications print balanced |
| ExpProps.BinaryBalanced | creusot/src/mlcfg/printer.rs:243-248 | binary operations, prefix `div` included, print balanced |
| ExpProps.ArgumentsBalanced | creusot/src/mlcfg/printer.rs:249-251 | the space-separated arguments of a call are balanced |
| ExpProps.ElementsBalanced | creusot/src/mlcfg/printer.rs:227-235 | the comma-separated elements of a tuple or constructor are balanced |
| ExpProps.ParensBalanced | creusot/src/mlcfg/printer.rs:56-65 | a child under `parens!` is balanced whether wrapped or not |
| ExpProps.StatementBalanced | creusot/src/mlcfg/printer.rs:281-297 | an assignment, a freeze and an invariant print balanced when the names and expression leaves they write are |
| ListingProps.ArmLevel | creusot/src/mlcfg/printer.rs:316-320 | the arm lines sit at the given depth and give each arm's pattern and target block, one line per arm, in the order given |
| ListingProps.TerminatorShape | creusot/src/mlcfg/printer.rs:299-328 | a terminator's first line, and its only line at its own depth, is its head. `goto`, `absurd` and `_0` are one line. A switch is its head, then one line per arm and a closing `end` as its last line, all two columns deeper |
| ListingProps.StatementLevel | creusot/src/mlcfg/printer.rs:371-375 | the statement lines of a block are at the given depth, one per statement, in order, each ending with `;` |
| ListingProps.BlockShape | creusot/src/mlcfg/printer.rs:366-384 | a block is its `BB<n> {` line and `}` at its own depth, with its statements and then its terminator two columns deeper; its first line is the `BB<n> {` line and its last is `}` |
| ListingProps.SkeletonOrder | creusot/src/mlcfg/printer.rs:128-130 | the blocks' label and closing lines appear in input order |
| ListingProps.BlocksShape | creusot/src/mlcfg/printer.rs:128-130 | the blocks of a function are printed one after another, each label followed by its closing brace, with nothing else at the base depth |
| ListingProps.HeaderShape | creusot/src/mlcfg/printer.rs:69-80 | the header is `let cfg <name> `, then `()` when there are no arguments or else the parameter groups with no separator, then ` : ` and the return type |
| ListingProps.ParamGroupsJoin | creusot/src/mlcfg/printer.rs:76-78 | the parameter groups are the `(o_<x> : <type>)` of each argument, in order, concatenated |
| ListingProps.ContractShape | creusot/src/mlcfg/printer.rs:82-96 | the contract is one `requires { .. }` line per precondition, one `ensures { .. }` per postcondition and a final `=`, all at one depth |
| ListingProps.VarLevel | creusot/src/mlcfg/printer.rs:102-111 | one `var <x> : <type>;` line per variable, in order, at the base depth |
| ListingProps.DeclShape | creusot/src/mlcfg/printer.rs:98-111 | the declarations are `var _0 : <return type>;`, then the arguments, then the locals, all at the base depth |
| ListingProps.PrologueShape | creusot/src/mlcfg/printer.rs:113-126 | the prologue is `{` and `}` at the base depth around one `<x> <- o_<x>;` per argument and `goto BB0;` two columns deeper; its first line is `{` and its last is `}` |
| ListingProps.PreambleInner | creusot/src/mlcfg/printer.rs:82-123 | the only deeper lines before the blocks are the contract followed by the argument moves and `goto BB0;` |
| ListingProps.FunctionShape | creusot/src/mlcfg/printer.rs:67-134 | at the base depth a function is its header, its declarations, the prologue braces and the block skeleton, in that order, and no line is shallower |
| ListingProps.TyDeclShape | creusot/src/mlcfg/printer.rs:411-430 | a type declaration's first line is its `type <name> <params> =` line, and line `i + 1` is constructor `i`, two columns deeper: one line per constructor, in order |
| ListingProps.ConstructorShape | creusot/src/mlcfg/printer.rs:417-424 | a constructor line starts with two spaces, a bar, a space and the constructor's name, and is exactly that if and only if the constructor has no arguments |
| Emit.Formatter.IndentLine | creusot/src/mlcfg/printer.rs:44-47 | appends the indentation and nothing else |
| Emit.Formatter.WriteLine | creusot/src/mlcfg/printer.rs:44-47 | appends one rendered line at the environment's depth |
| Emit.FmtStatement | creusot/src/mlcfg/printer.rs:281-297 | appends the indentation and the statement text |
| Emit.FmtArms | creusot/src/mlcfg/printer.rs:317-320 | appends exactly the arm lines, in order |
| Emit.FmtTerminator | creusot/src/mlcfg/printer.rs:299-328 | appends exactly the terminator's lines |
| Emit.FmtStatementLine | creusot/src/mlcfg/printer.rs:372-374 | appends one statement line ending with `;` |
| Emit.FmtStatements | creusot/src/mlcfg/printer.rs:372-374 | appends exactly the statement lines, in order |
| Emit.FmtBlock | creusot/src/mlcfg/printer.rs:366-384 | appends exactly the block's lines |
| Emit.FmtBlocks | creusot/src/mlcfg/printer.rs:128-130 | appends exactly the lines of the blocks, in order |
| Emit.FmtHeader | creusot/src/mlcfg/printer.rs:69-80 | appends exactly the header line |
| Emit.FmtClauses | creusot/src/mlcfg/printer.rs:83-91 | appends exactly one clause line per contract clause, in order |
| Emit.FmtContract | creusot/src/mlcfg/printer.rs:82-96 | appends exactly the contract lines |
| Emit.FmtVars | creusot/src/mlcfg/printer.rs:102-111 | appends exactly one declaration line per variable, in order |
| Emit.FmtDecls | creusot/src/mlcfg/printer.rs:98-111 | appends exactly the declaration lines |
| Emit.FmtMoves | creusot/src/mlcfg/printer.rs:116-119 | appends exactly one move line per argument, in order |
| Emit.FmtPrologue | creusot/src/mlcfg/printer.rs:113-126 | appends exactly the prologue lines |
| Emit.FmtFunction | creusot/src/mlcfg/printer.rs:67-134 | appends exactly the function's lines |
| Emit.FmtConstructor | creusot/src/mlcfg/printer.rs:417-424 | appends exactly the constructor's line |
| Emit.FmtTyDecl | creusot/src/mlcfg/printer.rs:411-430 | appends exactly the type declaration's lines |
| Scenarios.BlockIdText | creusot/src/mlcfg/printer.rs:360-364 | a one-digit block id prints as `BB` and that digit |
| Scenarios.FlagSwitchLines | creusot/src/mlcfg/printer.rs:314-324 | `switch (flag)` over `True` and `False` is the head line and then the two arms and `end`, all two columns deeper |
| Scenarios.SwitchScenario | creusot/src/mlcfg/printer.rs:314-324 | the same switch renders as four newline-terminated lines: `switch (flag)`, then the `True -> goto BB1` arm, the `False -> goto BB2` arm and `end`, each indented by two spaces |
| Scenarios.UInt32Text | creusot/src/mlcfg/printer.rs:161-171 | `u32` prints as `uint32` |
| Scenarios.AddName | creusot/src/mlcfg/printer.rs:432-450 | `m::add` printed inside module `m` is `add` |
| Scenarios.AddHeader | creusot/src/mlcfg/printer.rs:69-80 | the header of `add` is `let cfg add (o_x : uint32)(o_y : uint32) : uint32` |
| Scenarios.AddDecls | creusot/src/mlcfg/printer.rs:98-111 | `add` declares `_0`, `x`, `y` and `z`, all `uint32`, in that order |
| Scenarios.AddPrologue | creusot/src/mlcfg/printer.rs:113-126 | `add`'s prologue moves `o_x` and `o_y` into `x` and `y` and jumps to `BB0` |
| Scenarios.AddStatement | creusot/src/mlcfg/printer.rs:285-287 | `z <- x + y` prints with its operands bare |
| Scenarios.AddBlock | creusot/src/mlcfg/printer.rs:366-384 | `add`'s one block is `BB0 {`, `z <- x + y;`, `_0`, `}` |
| Scenarios.AddScenario | creusot/src/mlcfg/printer.rs:67-134 | `add` renders as its header, `=`, four declarations, the prologue and its block, each line at its stated depth |
| OldMlcfgProps.TypeWrapping | src/mlcfg.rs:154-173 | for a type with plain names, `complex()` holds exactly when the text written without the outer parentheses is not a unit: borrows and applications are wrapped, every other type is already a unit |
| OldMlcfgProps.TupleTypeSeparator | src/mlcfg.rs:168 | the two elements of a pair type are separated by a comma and a space, unlike in the current renderer |
| OldMlcfgProps.WidthsErased | src/mlcfg.rs:162-163 | a type prints the same as the type with every integer width erased: `int` and `uint` carry no width |
| OldMlcfgProps.AllErased | src/mlcfg.rs:167-168 | the same holds for a list of types |
| OldMlcfgProps.TypeUnit | src/mlcfg.rs:154-173 | a type whose names are plain prints as a unit |
| OldMlcfgProps.TypesJoin | src/mlcfg.rs:167-168 | a list of plain types joined by a bracketless separator is balanced and on one line |
| OldMlcfgProps.PatternUnit | src/mlcfg.rs:86-97 | a pattern of plain names prints as a unit, and a constructor pattern always prints `C(` … `)`, even with no arguments |
| OldMlcfgProps.PatternsJoin | src/mlcfg.rs:91-92 | comma-separated sub-patterns are balanced and on one line |
| OldMlcfgProps.ProjectionsUnwrapped | src/mlcfg.rs:110-115 | `Current` and `Final` write ` * ` or ` ^ ` and then the child bare, even a complex child that `parens!` would wrap |
| OldMlcfgProps.BorrowOfProjection | src/mlcfg.rs:132-134 | `borrow_mut` of `* x` prints as `borrow_mut ( * x)` |
| OldMlcfgProps.ExpBalanced | src/mlcfg.rs:107-141 | every expression with balanced leaves prints as a balanced text |
| OldMlcfgProps.WrappedBalanced | src/mlcfg.rs:119-137 | `let`, record updates, `borrow_mut` and field accesses print balanced |
| OldMlcfgProps.ElementsBalanced | src/mlcfg.rs:126-131 | comma-separated elements are balanced |
| OldMlcfgProps.ParensBalanced | src/mlcfg.rs:101-105 | a child under `parens!` is balanced whether wrapped or not |
| OldMlcfgProps.StatementBalanced | src/mlcfg.rs:143-152 | an assignment prints balanced |
| OldMlcfgProps.ConstructorsRendered | src/mlcfg.rs:180-186 | the constructor list is the rendering of one unindented line per constructor, in order |
| OldMlcfgProps.TyDeclRendered | src/mlcfg.rs:176-190 | a type declaration is the rendering of its header line followed by one line per constructor |
| OldMlcfgProps.HeaderOneLine | src/mlcfg.rs:178 | the header holds no newline when its name and parameters hold none |
| OldMlcfgProps.ConstructorOneLine | src/mlcfg.rs:181-185 | a constructor line holds no newline when its name holds none and its argument types are plain |
| OldMlcfgProps.TyDeclLineCount | src/mlcfg.rs:176-190 | a type declaration holds exactly one newline more than it has constructors |

## Definitions

The functions that render, with the members that state their properties.

| function | source | renders | properties |
|---|---|---|---|
| Printer.ShowQName | creusot/src/mlcfg/printer.rs:432-450 | `QName::fmt` | QNameProps.ShowQNameSpec, QNameUnderScope, QNameOutsideScope, QNamePlain, EmptySegmentDropped |
| Ir.Complex | creusot/src/mlcfg/printer.rs:140 | `Type::complex()` of the parent module, asked at lines 140 and 199 | PrinterProps.TypeWrapping |
| Printer.TypeBody, Printer.ShowType | creusot/src/mlcfg/printer.rs:136-204 | `Type::fmt`, without and with the `complex()` parentheses | PrinterProps.TypeWrapping, TypeUnit, ScalarUnit, TupleTypeSeparator |
| Printer.ShowPattern | creusot/src/mlcfg/printer.rs:331-356 | `Pattern::fmt` | PrinterProps.PatternUnit, PatternsJoin |
| Printer.Parens | creusot/src/mlcfg/printer.rs:57-65 | the `parens!` macro | PrinterProps.ParensOnlyRank, AssociativityIgnored, ExpProps.ParensBalanced |
| Printer.ShowExp | creusot/src/mlcfg/printer.rs:206-279 | `Exp::fmt` | ExpProps.ExpBalanced, PrinterProps.AssociativityIgnored, DivisionIsPrefix, ProjectionsUnwrapped, TupleExpSeparator |
| Printer.BinOpText | creusot/src/mlcfg/printer.rs:386-403 | `bin_op_to_string` | PrinterProps.BinOpTokens |
| Printer.ShowStatement | creusot/src/mlcfg/printer.rs:281-297 | `Statement::fmt`, after the indentation | ExpProps.StatementBalanced, Emit.FmtStatement |
| Printer.ShowBlockId | creusot/src/mlcfg/printer.rs:360-364 | `BlockId::fmt` | PrinterProps.BlockIdInjective |
| Listing.TerminatorLines | creusot/src/mlcfg/printer.rs:299-328 | `Terminator::fmt` | ListingProps.TerminatorShape, ArmLevel, Emit.FmtTerminator |
| Listing.BlockLines | creusot/src/mlcfg/printer.rs:366-384 | `Block::fmt` | ListingProps.BlockShape, LabelInjective, Emit.FmtBlock |
| Listing.BlocksLines | creusot/src/mlcfg/printer.rs:128-130 | the loop over a function's blocks | ListingProps.BlocksShape, SkeletonOrder, Emit.FmtBlocks |
| Listing.HeaderText | creusot/src/mlcfg/printer.rs:69-80 | the `let cfg` header line | ListingProps.HeaderShape, ParamGroupsJoin, Emit.FmtHeader |
| Listing.ContractLines | creusot/src/mlcfg/printer.rs:82-96 | the `requires`, `ensures` and `=` lines | ListingProps.ContractShape, Emit.FmtContract |
| Listing.DeclLines | creusot/src/mlcfg/printer.rs:98-111 | the `var` declarations | ListingProps.DeclShape, VarLevel, Emit.FmtDecls |
| Listing.PrologueLines | creusot/src/mlcfg/printer.rs:113-126 | the argument moves and `goto BB0;` | ListingProps.PrologueShape, Emit.FmtPrologue |
| Listing.FunctionLines | creusot/src/mlcfg/printer.rs:67-134 | `Function::fmt` | ListingProps.FunctionShape, PreambleInner, Emit.FmtFunction |
| Listing.ConstructorText | creusot/src/mlcfg/printer.rs:417-424 | one constructor of a type declaration | ListingProps.ConstructorShape, Emit.FmtConstructor |
| Listing.TyDeclLines | creusot/src/mlcfg/printer.rs:411-430 | `TyDecl::fmt` | ListingProps.TyDeclShape, Emit.FmtTyDecl |
| OldMlcfg.TypeComplex | src/mlcfg.rs:37-45 | `MlCfgType::complex` | OldMlcfgProps.TypeWrapping |
| OldMlcfg.TypeBody, OldMlcfg.ShowType | src/mlcfg.rs:154-173 | `MlCfgType::fmt`, without and with the `complex()` parentheses | OldMlcfgProps.TypeWrapping, TypeUnit, WidthsErased, TupleTypeSeparator |
| OldMlcfg.ShowPattern | src/mlcfg.rs:86-97 | `MlCfgPattern::fmt` | OldMlcfgProps.PatternUnit, PatternsJoin |
| OldMlcfg.ExpComplex | src/mlcfg.rs:68-76 | `MlCfgExp::complex` | OldMlcfgProps.ProjectionsUnwrapped, ParensBalanced |
| OldMlcfg.Parens | src/mlcfg.rs:101-105 | the `parens!` macro of this file | OldMlcfgProps.ParensBalanced, ProjectionsUnwrapped |
| OldMlcfg.ShowExp | src/mlcfg.rs:107-141 | `MlCfgExp::fmt` | OldMlcfgProps.ExpBalanced, WrappedBalanced, ProjectionsUnwrapped, BorrowOfProjection |
| OldMlcfg.ShowStatement | src/mlcfg.rs:143-152 | `MlCfgStatement::fmt` | OldMlcfgProps.StatementBalanced |
| OldMlcfg.ShowTyDecl | src/mlcfg.rs:176-190 | `MlTyDecl::fmt` | OldMlcfgProps.TyDeclRendered, TyDeclLineCount, HeaderOneLine, ConstructorOneLine |

## Left out

- Output sink failures. Every `write!` in the source can fail and `?` then aborts the render,
  leaving partial output. The `Formatter` here never fails.
- The `EnvDisplay` trait and the `Print` adapter (`FormatEnv::to` and its `Display` impl,
  creusot/src/mlcfg/printer.rs:16-35 and 50-54) are dispatch plumbing. Each impl is modelled as its
  own function or method, called directly.
- `precedence()`, `Type::complex()` and the plain `Display` of a qualified name are defined in the
  parent module, which is not part of this model. Precedence and the plain name display are
  parameters (`Defs`). Precedence is modelled as a function of the expression's variant alone,
  and of the operator for a binary operation (`Ir.Head`): its operands never change it. `Ir.Complex` uses the rule that src/mlcfg.rs states for the same variants,
  with floating-point types atomic like the integer types. That is an assumption about the parent
  module.
- `bin_op_to_string` reaches `unreachable!` on division, remainder, bit operations, shifts and
  `Offset`. Division is printed by its own branch. The remaining operators are excluded by the
  `Printable` and `Renderable` preconditions, which is what the panic demands of callers.
- Preconditions and postconditions are printed with plain `Display`, so they are kept as the text
  they print as.
- `Local`'s `Debug` output in src/mlcfg.rs is rustc's and is not part of this model. A local is
  kept as the text it prints as.
- `MlCfgBlock`, `Block` and `MlCfgTerminator` in src/mlcfg.rs have no `Display` impl. Nothing of
  them is rendered, so they are not modelled.
- The layout lemmas (`ListingProps.ContractShape`, `ListingProps.ArmLevel` and the other line-count
  statements) count `Line` values. A clause, pattern or verbatim text that itself holds a newline
  prints as more physical lines, as it does in the source.
- Integer widths of the renderer itself (`usize` indentation and block numbers) are modelled as
  unbounded naturals. Overflow is not modelled.
- `Text.ParseNat` is only a proof device for the injectivity of block labels. The renderer does
  not parse its output back, and the model claims no such round trip.
- The scenarios fix the precedence table only as far as they need it, by their `requires`
  clauses. The parent module's actual ranks are not part of this model.
