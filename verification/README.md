# A verified model of the lcc front-end core

This project models three parts of a small C compiler front end (lcc) in Dafny and proves
properties of them:

- The recursive-descent parser of `src/Parser.cc`. It turns the lexer's token stream into a
  program: functions and global declarations, statements, and the stub expression grammar.
- The declarator resolvers `getDeclaratorName` and `getFuncDeclarator` of `src/Utilities.cc`.
- The variable scopes of the code generator's context in `src/CodeGenContext.h`:
  - a stack of local tables and one global table;
  - `AddLocal`, `AddGlobal`, the auto-vivifying `FindVar`, `PushScope`, `PopScope` and
    `ClearScope`.

## How the model is built

- **Parser state.** The parser's one piece of state is a cursor into the token vector. Every
  parse routine is a pure function from `(toks, pos)` to a `Result`. That result is either
  `Ok(value, next)`, with the parsed node and the cursor after it, or `Fail(error)`.
- **Failures.** Every `assert` of the source is taken as enabled and fatal, and becomes a
  `Fail`. Three other conditions also become `Fail`:
  - reading the token under a cursor that has reached the end of the vector (`EndOfInput`);
  - a `std::get` on the wrong alternative of a token value (`WrongValue`);
  - exhausting the stack (`StackExhausted`).
- **Fuel.** The stack bound is a `fuel` parameter. It is threaded through the statement
  parsers. Only the assignment-expression parser, which recurses without consuming a token,
  spends it.
- **Tokens.** A token is a kind plus a value: nothing, a 32-bit integer, a double carried as its
  bit pattern, or a string. The kinds are distinct integer codes. Codes the parser never names
  collapse into `Other`.
- **Round trips.** The parser is checked against a spelling function (`Spelling`). Spelling
  maps syntax trees to their tokens. The round-trip lemmas show that
  the parser reads those tokens back into the same tree, stepping over exactly the spelling.
  A tree that `Spelling` spells is called *spellable*; those are exactly the trees the parser
  can produce at the top level.
- **Declarators.** A declarator is a tree of direct-declarator shapes. `None` stands for the
  null pointer that `getFuncDeclarator` returns.
- **Scopes.** The stored value (an LLVM value and its signedness flag) is a type parameter
  `V`. `FindVar` reads a missing global through `operator[]`, which inserts a value-initialised
  entry. That entry is passed in as `dflt`.

Modules: `Options`, `Tokens`, `Ast`, `Parser`, `Spelling`, `ParserFacts` (types, the
top-level parser, round trips), `ParserYields` (what the top-level parser can produce),
`StatementFacts` (statements and expressions), `ParserLimits` (where the parser departs from
C), `Declarators` and `Scopes`.

## Model

| member | source | states |
|---|---|---|
| Parser.Peek | src/Parser.cc:408-410 | Succeeds exactly when a token is under the cursor. It reports whether that token has the given kind and never moves the cursor. |
| Parser.Match | src/Parser.cc:384-390 | On a token of the given kind, steps over it and answers true. On any other token, stays put and answers false. |
| Parser.Expect | src/Parser.cc:392-397 | Succeeds exactly on a token of the given kind and does not move the cursor. Any other token is a fatal failure. |
| Parser.Consume | src/Parser.cc:399-407 | Succeeds exactly on a token of the given kind, advancing by one. Any other token is a fatal failure. |
| Parser.IsTypeName | src/Parser.cc:375-382 | Answers whether the current token is one of the nine type keywords, without moving the cursor. |
| Parser.TokenTypeToTypeKind | src/Parser.cc:16-39 | Yields a type specifier exactly for the nine type keywords, and nothing for any other kind. |
| ParserFacts.TypeKeywordsBijective | src/Parser.cc:16-39 | The keyword-to-specifier map is a bijection between the nine type keywords and the nine specifiers. |
| Parser.ParseTypeKinds | src/Parser.cc:134-137 | On success the specifier loop stops at a token that is not a type keyword, inside the input, and yields one specifier per token it stepped over. |
| ParserFacts.ParseTypeKindsSpec | src/Parser.cc:134-140 | The specifier loop succeeds exactly when the maximal run of type keywords ends before the input does. It stops at the run's end and yields one specifier per keyword, in order. |
| Parser.ParsePointers | src/Parser.cc:143-149 | On success the pointer loop stops at a token other than `*`, inside the input, and the result is the base wrapped in one pointer type per `*` stepped over. |
| ParserFacts.ParsePointersSpec | src/Parser.cc:143-149 | The pointer loop succeeds exactly when the maximal run of `*` ends before the input does, and then stops at the end of that run. |
| Parser.ParseType | src/Parser.cc:132-149 | Consumes at least one token. If the first token is not a type keyword, fails on it. |
| ParserFacts.ParseTypeOnRun | src/Parser.cc:132-149 | On k type keywords followed by n stars, yields the k specifiers in order wrapped in exactly n pointer levels, with the cursor after the last star. |
| ParserFacts.ParseTypeRoundTrip | src/Parser.cc:132-149 | Every well-formed type is read back from its spelling, and the cursor lands just after it. |
| Parser.SkipTypeNames | src/Parser.cc:362-364 | On success the look-ahead's loop stops at a token that is not a type keyword, inside the input. |
| Parser.IsFunction | src/Parser.cc:358-373 | On success the look-ahead started on a type keyword, and the cursor is back where it started. |
| ParserFacts.IsFunctionSpec | src/Parser.cc:358-373 | The look-ahead succeeds exactly on a type-keyword run followed by an identifier and one more token. Its answer is whether that token is `(`. |
| ParserFacts.IsFunctionOnUnit | src/Parser.cc:358-373 | On the spelling of a function or a global declaration, the look-ahead answers "function" exactly for the function. |
| ParserLimits.PointerAtTopLevelFails | src/Parser.cc:358-367 | A `*` after the type keywords of a top-level item fails the whole item at that `*`. |
| ParserLimits.AnonymousParam | src/Parser.cc:62-66 | A parameter type followed by `,` gives an unnamed parameter, and the `,` is stepped over. |
| ParserLimits.NamedParam | src/Parser.cc:67-72 | A parameter type followed by an identifier gives a parameter of that name. Nothing after the name is read. |
| ParserLimits.NamedParamThenCommaFails | src/Parser.cc:62-73 | A named parameter followed by `,` makes the parameter list fail at that `,`. |
| ParserLimits.UnnamedLastParamFails | src/Parser.cc:62-70 | A parameter type directly followed by `)` fails at the `)`: without its `,` the parameter must be named. |
| ParserLimits.OneUnnamedParamFails | src/Parser.cc:42-83 | The prototype `int f(int);` is rejected at its `)` (token 4). |
| ParserLimits.UnseparatedParamsParse | src/Parser.cc:42-83 | `int f(int a int b);` parses to a single function declaration `f` with parameters `a` and `b`, and no globals. |
| ParserLimits.TwoNamedParamsListFails | src/Parser.cc:62-73 | The parameter list `int a, int b` fails at the `,` after `a`. |
| ParserLimits.TwoNamedParamsFail | src/Parser.cc:42-83 | The prototype `int foo(int a, int b);` fails at the `,` after `a` (token 5). |
| Parser.ParseParams | src/Parser.cc:62-73 | On success the parameter loop stops in front of a `)`, which it leaves for the caller. |
| ParserFacts.ParseParamsRoundTrip | src/Parser.cc:62-73 | A list of well-formed parameters in the parser's own separator convention is read back, up to the `)`. |
| ParserFacts.ParseFunctionHeaderRoundTrip | src/Parser.cc:54-74 | The return type, name and parameter list of a spelled function are read back, ending after the `)`. |
| Parser.ParseFunctionBody | src/Parser.cc:75-82 | On success, the body is absent exactly when the token after the header is `;`, and then only that `;` is consumed. Otherwise the body is a block ending in `}`. |
| ParserLimits.FunctionBodyChoice | src/Parser.cc:75-82 | After a header: the end of input fails, and `;` gives a function without a body. Anything else gives the block parser's result as the body, succeeding exactly when it does. |
| ParserFacts.ParseFunctionBodyRoundTrip | src/Parser.cc:75-82 | Both `;` and a spelled block body are read back as written. |
| Parser.ParseFunction | src/Parser.cc:54-83 | A parsed function ends in `;` or `}`. It has no body exactly when it ends in `;`. |
| ParserFacts.ParseFunctionRoundTrip | src/Parser.cc:54-83 | A spellable function, declaration or definition, is read back and its spelling is consumed exactly. |
| Parser.ParseGlobalDecl | src/Parser.cc:84-99 | A parsed global declaration ends in `;` and never carries an initializer. |
| ParserLimits.GlobalDeclShape | src/Parser.cc:84-99 | The only global declaration that parses is `type name = ;`. The type is read first, then the identifier, `=` and `;`, and there is no initializer. |
| ParserFacts.ParseGlobalRoundTrip | src/Parser.cc:84-99 | A declaration spelled `type name = ;` is read back and its spelling is consumed exactly. |
| Parser.ParseConstantExpr | src/Parser.cc:101-130 | Succeeds exactly on a character constant with an integer value, a string literal with a string value, or any numeric constant. The cursor never moves. |
| ParserLimits.ConstantRoundTrip | src/Parser.cc:101-125 | A constant token is read back as the constant it holds. |
| ParserLimits.CharConstantIsInt | src/Parser.cc:103-107 | A character constant yields its 32-bit integer value. |
| ParserLimits.ValuelessNumberIsEmptyString | src/Parser.cc:113-124 | A numeric constant without a value yields the empty string. |
| ParserFacts.ParseTopLevelRoundTrip | src/Parser.cc:45-50 | One turn of the top-level loop reads a spellable function or global declaration back, with the correct look-ahead choice. |
| Parser.Parse | src/Parser.cc:42-53 | A successful parse consumes every token, and no global it collects has an initializer. |
| ParserFacts.CollectAppends | src/Parser.cc:42-53 | Collecting items one by one yields the functions and the globals, each in source order. |
| ParserFacts.ParseUnitsOfSpelled | src/Parser.cc:44-52 | The top-level loop reads every unit of a spelled suffix back, to the end of the input. |
| ParserFacts.ParseRoundTrip | src/Parser.cc:42-53 | Parsing the spelling of any sequence of spellable items yields their functions and their globals, each in order, and consumes every token. |
| ParserYields.TypeYields | src/Parser.cc:132-149 | A parsed type has a non-empty specifier run. It is a primary type exactly when no `*` follows the type keywords. |
| ParserYields.ParamsYield | src/Parser.cc:62-73 | Every parameter the parser yields has a well-formed type. |
| ParserYields.HeaderYields | src/Parser.cc:54-74 | A parsed header's return type is the type read at its start, and its parameters are well formed. |
| ParserYields.BodyYields | src/Parser.cc:75-82 | A parsed function body is absent or a block made only of `break`, `continue`, blocks and `for ( ; ; )` loops. |
| ParserYields.TopLevelYields | src/Parser.cc:45-50 | Every unit one turn of the top-level loop yields is spellable: a function with a primary return type and a spellable body, or a global `type name = ;`. |
| ParserYields.UnitsYield | src/Parser.cc:44-52 | The top-level loop appends the functions and globals of some sequence of spellable units to what it had already collected. |
| ParserYields.ParseYields | src/Parser.cc:42-53 | Every program `Parse` yields holds the functions and the globals, each in order, of some sequence of spellable units. This is the converse of ParseRoundTrip. |
| Parser.ParseAssignExpr | src/Parser.cc:330-352 | Models the operator switch and the recursion at the same token. The contract describes the node the switch would build: the operator under the cursor and a right-hand side. No call ever builds one, and every call fails (AssignExprNeverYields). |
| StatementFacts.AssignExprNeverYields | src/Parser.cc:330-356 | The assignment-expression parser always fails. On an assignment operator it recurses at the same token until the stack is exhausted. On any other token it fails there. |
| StatementFacts.ExprNeverYields | src/Parser.cc:320-328 | The expression parser always fails. |
| StatementFacts.OptionalExprIsAbsent | src/Parser.cc:234-246 | An optional clause of `for` succeeds exactly on its terminator and is then absent, with the cursor unmoved. |
| StatementFacts.DeclStmtNeverYields | src/Parser.cc:274-288 | A declaration statement never succeeds. |
| StatementFacts.ForDeclNeverYields | src/Parser.cc:254-272 | A `for` whose first clause is a declaration never succeeds. |
| StatementFacts.ConditionalStmtsNeverYield | src/Parser.cc:197-217 | `if` and `while` never succeed, because their condition is an expression. |
| StatementFacts.DoWhileNeverYields | src/Parser.cc:219-228 | `do ... while` never succeeds. |
| StatementFacts.ReturnStmtSpec | src/Parser.cc:300-309 | `return` succeeds exactly when `;` follows. It yields a return without a value and leaves the `;` unconsumed. |
| StatementFacts.ExprStmtSpec | src/Parser.cc:311-318 | An expression statement succeeds exactly on `;`. It yields the empty statement without consuming the `;`. |
| Parser.ParseBreakStmt | src/Parser.cc:290-293 | Succeeds exactly on `break`, consuming only that keyword. |
| Parser.ParseContinueStmt | src/Parser.cc:295-298 | Succeeds exactly on `continue`, consuming only that keyword. |
| Parser.ParseStmt | src/Parser.cc:151-185 | A parsed statement consumes at least one token. Its first token decides its form: a block exactly on `{`, `break`, `continue` and `return` exactly on their keywords, and a `for` loop exactly on `for`. The contract also ties an expression statement to a leading identifier, but no statement starting with an identifier ever parses (IdentifierStmtFails). |
| Parser.ParseBlockStmt | src/Parser.cc:187-195 | A parsed block starts at a `{` and ends with the `}` after its statements. |
| StatementFacts.StmtAtSemicolonFails | src/Parser.cc:151-185 | A statement cannot start with `;`: the fallback branch insists on an identifier. |
| StatementFacts.IdentifierStmtFails | src/Parser.cc:181-182 | A statement starting with an identifier always fails at that identifier, because the expression it asks for is never read. With no depth left the error is stack exhaustion. |
| StatementFacts.JumpThenSemicolonFails | src/Parser.cc:187-195 | `break;`, `continue;` or `return;` inside a block: the keyword parses, then the block fails on the `;`. |
| StatementFacts.ForDispatch | src/Parser.cc:159-169 | `for` is dispatched by the token after `for` and an optional `(`. A type keyword there selects the declaration form, anything else the expression form, and both restart at `for`. |
| StatementFacts.StmtYields | src/Parser.cc:151-185 | Every statement the parser yields is `break`, `continue`, a block of those, or `for ( ; ; )` around one. The one exception is a (possibly `for`-wrapped) `return` that stopped in front of a `;`. |
| StatementFacts.BlockYields | src/Parser.cc:187-195 | Every block the parser yields holds only `break`, `continue`, blocks and `for ( ; ; )` loops of those. |
| StatementFacts.ForYields | src/Parser.cc:230-252 | A parsed `for` of the expression form has no clauses, and its body is as in StmtYields. |
| StatementFacts.StmtRoundTrip | src/Parser.cc:151-185 | Every statement of that shape is read back from its spelling, consuming exactly the spelling. |
| StatementFacts.BlockRoundTrip | src/Parser.cc:187-195 | A spelled block of such statements is read back. |
| StatementFacts.ItemsRoundTrip | src/Parser.cc:189-193 | The block loop reads the spelled statements back, in order, up to the `}`. |
| StatementFacts.ForRoundTrip | src/Parser.cc:230-252 | `for ( ; ; )` with a spelled body is read back. |
| Declarators.Child | src/Utilities.cc:33-46 | Each non-identifier shape descends into exactly one strictly smaller direct declarator, so the visitor terminates. |
| Declarators.DeclaratorName | src/Utilities.cc:28-48 | The name `getDeclaratorName` returns is the identifier at the end of the path the visitor walks. |
| Declarators.PathShape | src/Utilities.cc:28-48 | The visited path starts at the declarator, descends one child per step, and ends at the unique identifier. That identifier is the name `getDeclaratorName` returns. |
| Declarators.IdentName | src/Utilities.cc:30-32 | A bare identifier names itself. |
| Declarators.WrappersTransparent | src/Utilities.cc:33-46 | Parentheses, a parameter list and an array bound do not change the name. |
| Declarators.FuncWalkSpec | src/Utilities.cc:52-73 | The walk keeps what it was given when no parameter-list node is on the path. Otherwise it returns the last one on the path. |
| Declarators.GetFuncDeclarator | src/Utilities.cc:50-74 | `getFuncDeclarator` is null exactly when no parameter-list node lies on the path to the identifier. Otherwise it is the innermost such node. |
| Declarators.PathKeepsName | src/Utilities.cc:33-46 | Every direct declarator on the visited path declares the same name as the declarator it starts from. |
| Declarators.FuncDeclaratorOnNamePath | src/Utilities.cc:50-74 | Both resolvers walk the same path. The node `getFuncDeclarator` returns is a parameter-list node on the path to the identifier, and it declares the name `getDeclaratorName` returns. |
| Declarators.InnermostParamListWins | src/Utilities.cc:62-66 | For `int (*f(int))(double)` the result is the list `(int)` of `f`, and the name is `f`. |
| Scopes.LookupLocal | src/CodeGenContext.h:46-50 | Finds nothing exactly when no local table binds the name. Otherwise it finds the value in the innermost table that binds it. |
| Scopes.AddLocal | src/CodeGenContext.h:37-39 | Binds the name in the top table, adding exactly that key. Every other table, every other binding and the globals are unchanged. |
| Scopes.AddGlobal | src/CodeGenContext.h:41-43 | Binds the name globally, replacing any earlier binding. All other globals and the locals are unchanged. |
| Scopes.FindVar | src/CodeGenContext.h:45-52 | A local binding wins: the innermost one, with no state change. Next comes the global binding, with no state change. A name bound nowhere is inserted into the globals with the default value, which is returned. |
| Scopes.PushScope | src/CodeGenContext.h:54-56 | Adds one empty table on top and keeps everything else. |
| Scopes.PopScope | src/CodeGenContext.h:58-60 | Removes the top table and keeps everything else. |
| Scopes.ClearScope | src/CodeGenContext.h:62-65 | Leaves exactly one empty local table and keeps the globals. |
| Scopes.PushPopRestores | src/CodeGenContext.h:54-60 | A pop undoes a push. |
| Scopes.FindAfterAddLocal | src/CodeGenContext.h:37-50 | A name just added locally is found with that value, and the lookup changes nothing. |
| Scopes.AddLocalFrame | src/CodeGenContext.h:37-52 | Adding one name locally does not change what any other name finds. |
| Scopes.FindAfterAddGlobal | src/CodeGenContext.h:41-52 | A name added globally is found unless a local binding shadows it, and the lookup changes nothing. |
| Scopes.PushScopeFrame | src/CodeGenContext.h:45-56 | Opening a scope does not change what any name finds. |
| Scopes.FindAfterClear | src/CodeGenContext.h:45-65 | After `ClearScope` a name finds its global binding or the default. |
| Scopes.FindVarIdempotent | src/CodeGenContext.h:45-52 | A second lookup of the same name finds the same value and changes nothing more. |
| Scopes.Shadowing | src/CodeGenContext.h:37-60 | An inner binding shadows an outer one of the same name, and after one pop the outer one is found again. |

## Behaviour of the source the model keeps

The model keeps the parser as written. Several of its routines do not do what the C grammar
they follow would suggest, and the lemmas above state each such behaviour as proved fact:

- **Parameter lists.** The separator convention is inverted: a parameter type followed by `,`
  is an unnamed parameter, and a named parameter is not followed by anything.
  - After a named parameter the parser does not step over a `,`, so the next parameter fails on
    it (NamedParamThenCommaFails). The ordinary prototype `int foo(int a, int b);` is therefore
    rejected at the `,` after `a` (TwoNamedParamsFail).
  - Named parameters need no separator: `int f(int a int b);` declares `f` with parameters `a`
    and `b` (UnseparatedParamsParse).
  - An unnamed parameter needs its `,`. A type directly followed by `)` makes the parser insist
    on a name, so `int f(int);` is rejected at the `)` (UnnamedLastParamFails,
    OneUnnamedParamFails).
- **Global declarations.** The test for `=` is inverted: `=` produces a declaration without an
  initializer. A constant is read without advancing, so the `;` test then fails on the constant
  itself. Only `type name = ;` parses (GlobalDeclShape).
- **Expressions.** The conditional-expression parser returns nothing. The assignment parser
  recurses at the same token without consuming it, so no expression is ever produced
  (AssignExprNeverYields). As a result:
  - every expression statement (`x = 1;`, `f;`) fails at its first token (IdentifierStmtFails);
  - `if`, `while`, `do`, `for` with clauses, `return` with a value, and every declaration
    statement fail;
  - a declaration statement also never steps over its identifier.
- **Jump statements.** `break`, `continue` and `return` do not consume their `;`. The `;` is
  then read as the start of the next statement and fails (JumpThenSemicolonFails).
- **Empty statements.** A statement starting with `;` fails at dispatch, because the fallback
  insists on an identifier. The expression-statement parser treats `;` as empty but leaves it
  unconsumed.
- **Pointers at the top level.** The function look-ahead expects the name right after the type
  keywords, so a top-level item whose type has a `*` fails (PointerAtTopLevelFails).
- **Innermost parameter list.** `getFuncDeclarator` overwrites its result at every
  parameter-list node it passes on the way down, so it returns the innermost one
  (GetFuncDeclarator). For `int (*f(int))(double)` that is the list that declares `f`'s own
  parameters (InnermostParamListWins).

## Left out

- The lexer is not part of this model. The parser starts from a finished token sequence, and
  the kinds it never names are collapsed into `Other`.
- Token positions, `LOGE` diagnostics and the abort behind `assert` are left out. A failed
  check is a fatal `Fail`. A failed `assert` or a value of the wrong alternative carries the
  position of the offending token. Reading past the end (`EndOfInput`) and running out of
  stack (`StackExhausted`) carry no position.
- Ownership (`std::unique_ptr`), node allocation and pointer identity are left out. Trees are
  values, and `getFuncDeclarator` returns the node, not its address.
- The LLVM value and signedness flag stored in a scope are left abstract as `V`. The
  value-initialised entry that `FindVar` inserts is the parameter `dflt`.
- The jump-target stacks `mBreaks` and `mContinues` and the current function `mCurrentFunc` of
  the code generator's context are left out. No scope operation touches them.
- AddLocal and PopScope on an empty local stack are undefined behaviour in the source. The model
  requires a non-empty stack instead.
- Builds with `NDEBUG` are not modelled: with asserts compiled out, the parser would run on past
  a failed check. Asserts are always taken as enabled.
- Stack depth is modelled by `fuel`. The only unbounded recursion, the assignment parser
  re-entering itself at the same token, ends with `StackExhausted` where the program would
  overflow its stack.
- Floating-point literal values are left out. They are carried as opaque bit patterns and never
  computed with.
- The parameter list and array bound of a declarator are carried but not interpreted. Neither
  resolver looks at them.
- StatementFacts.StmtRoundTrip covers `break`, `continue`, blocks and `for ( ; ; )` loops of
  those. It leaves out one more statement `ParseStmt` yields: `return`, alone or as the body
  of `for ( ; ; )`, followed by a `;` the parser does not consume (ReturnStmtSpec, StmtYields).
  No statement parser ever consumes that `;`, so such a statement never ends a block, a
  function body or a program (JumpThenSemicolonFails).
- ParserFacts.ParseRoundTrip reads back exactly the programs the parser can produce.
  ParserYields.ParseYields shows that every program `Parse` yields is made of spellable units.
