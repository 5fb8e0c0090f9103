/**
 * The recursive-descent parser of src/Parser.cc, as functions from a token sequence and a cursor
 * to a result. Every `assert` of the parser is a fatal failure, and so is reading the token under a
 * cursor that has reached the end of the sequence. Asserts are taken to be enabled.
 *
 * A failure is passed on with `:-`. Where the failure case cannot arise, because an earlier test
 * already decided the outcome, a `match` is used instead, so that the dead case holds nothing the
 * verifier has to check.
 */
module Parser {
  import opened Options
  import opened Tokens
  import opened Ast

  /** Why a parse stopped. Every failure is fatal: there is no recovery. */
  datatype Error =
    | EndOfInput                // the token under the cursor was read at the end of the sequence
    | UnexpectedToken(at: nat)  // an assertion about the token at `at` failed
    | WrongValue(at: nat)       // the value of the token at `at` is not of the alternative asked for
    | StackExhausted            // the expression parser recursed deeper than the stack allows

  /** A parsed value together with the cursor after it, or the failure that ended the parse. */
  datatype Result<+T> = Ok(value: T, next: nat) | Fail(error: Error)
  {
    predicate IsFailure() {
      Fail?
    }

    /** Ends the enclosing parse with the same error. */
    function PropagateFailure<U>(): Result<U>
      requires Fail?
    {
      Fail(error)
    }

    /** On success `:-` binds the whole result, so that both the value and the cursor are at hand. */
    function Extract(): Result<T>
      requires Ok?
    {
      this
    }
  }

  // ---------------------------------------------------------------------------------------------
  // Token primitives
  // ---------------------------------------------------------------------------------------------

  /** Tests the kind of the current token without moving the cursor. */
  function Peek(toks: seq<Token>, pos: nat, k: TokenKind): (r: Result<bool>)
    ensures r.Ok? <==> pos < |toks|
    ensures r.Ok? ==> r.next == pos && (r.value <==> toks[pos].kind == k)
  {
    if pos < |toks| then Ok(toks[pos].kind == k, pos) else Fail(EndOfInput)
  }

  /** Steps over the current token exactly when it has kind `k`. */
  function Match(toks: seq<Token>, pos: nat, k: TokenKind): (r: Result<bool>)
    ensures r.Ok? <==> pos < |toks|
    ensures r.Ok? ==> (r.value <==> toks[pos].kind == k)
    ensures r.Ok? && r.value ==> r.next == pos + 1
    ensures r.Ok? && !r.value ==> r.next == pos
  {
    if pos >= |toks| then Fail(EndOfInput)
    else if toks[pos].kind == k then Ok(true, pos + 1)
    else Ok(false, pos)
  }

  /** Insists that the current token has kind `k`, without moving the cursor. */
  function Expect(toks: seq<Token>, pos: nat, k: TokenKind): (r: Result<bool>)
    ensures r.Ok? <==> pos < |toks| && toks[pos].kind == k
    ensures r.Ok? ==> r.next == pos && r.value
  {
    if pos >= |toks| then Fail(EndOfInput)
    else if toks[pos].kind == k then Ok(true, pos)
    else Fail(UnexpectedToken(pos))
  }

  /** Steps over the current token, which must have kind `k`. `assert(Match(k))` behaves the same. */
  function Consume(toks: seq<Token>, pos: nat, k: TokenKind): (r: Result<()>)
    ensures r.Ok? <==> pos < |toks| && toks[pos].kind == k
    ensures r.Ok? ==> r.next == pos + 1
  {
    if pos >= |toks| then Fail(EndOfInput)
    else if toks[pos].kind == k then Ok((), pos + 1)
    else Fail(UnexpectedToken(pos))
  }

  /** Whether the current token is one of the nine type keywords; the cursor does not move. */
  function IsTypeName(toks: seq<Token>, pos: nat): (r: Result<bool>)
    ensures r.Ok? <==> pos < |toks|
    ensures r.Ok? ==> r.next == pos && (r.value <==> IsTypeKeyword(toks[pos].kind))
  {
    if pos < |toks| then Ok(IsTypeKeyword(toks[pos].kind), pos) else Fail(EndOfInput)
  }

  /** The type specifier a type keyword stands for; any other kind has none. */
  function TokenTypeToTypeKind(k: TokenKind): (r: Option<TypeKind>)
    ensures r.Some? <==> IsTypeKeyword(k)
  {
    if k == KwAuto then Some(Auto)
    else if k == KwChar then Some(Char)
    else if k == KwShort then Some(Short)
    else if k == KwInt then Some(Int)
    else if k == KwLong then Some(Long)
    else if k == KwFloat then Some(Float)
    else if k == KwDouble then Some(Double)
    else if k == KwSigned then Some(Signed)
    else if k == KwUnsigned then Some(UnSigned)
    else None
  }

  /** The string held by the identifier under the cursor; the cursor does not move. */
  function IdentifierText(toks: seq<Token>, pos: nat): (r: Result<string>)
    ensures r.Ok? <==> pos < |toks| && toks[pos].kind == Identifier && toks[pos].value.StringValue?
    ensures r.Ok? ==> r.next == pos && r.value == toks[pos].value.s
  {
    var r1 :- Expect(toks, pos, Identifier);
    if toks[pos].value.StringValue? then Ok(toks[pos].value.s, pos)
    else Fail(WrongValue(pos))
  }

  /** Reads the identifier under the cursor and steps over it. */
  function ParseIdentifier(toks: seq<Token>, pos: nat): (r: Result<string>)
    ensures r.Ok? <==> pos < |toks| && toks[pos].kind == Identifier && toks[pos].value.StringValue?
    ensures r.Ok? ==> r.next == pos + 1 && r.value == toks[pos].value.s
  {
    var r1 :- IdentifierText(toks, pos);
    match Consume(toks, pos, Identifier)
    case Fail(e) => Fail(e)
    case Ok(_, p) => Ok(r1.value, p)
  }

  // ---------------------------------------------------------------------------------------------
  // Types
  // ---------------------------------------------------------------------------------------------

  /** The loop of `ParseType`: the specifiers of the maximal run of type keywords at `pos`. */
  function ParseTypeKinds(toks: seq<Token>, pos: nat): (r: Result<seq<TypeKind>>)
    ensures r.Ok? ==> pos <= r.next < |toks| && |r.value| == r.next - pos
    ensures r.Ok? ==> !IsTypeKeyword(toks[r.next].kind)
    decreases |toks| - pos
  {
    var r1 :- IsTypeName(toks, pos);
    if !r1.value then Ok([], pos)
    else
      var kind := TokenTypeToTypeKind(toks[pos].kind);
      if kind.None? then Fail(UnexpectedToken(pos))
      else
        var r2 :- ParseTypeKinds(toks, pos + 1);
        Ok([kind.value] + r2.value, r2.next)
  }

  /** The second `ParseType`: wraps `base` in one pointer type per `*` under the cursor. */
  function ParsePointers(toks: seq<Token>, pos: nat, base: Type): (r: Result<Type>)
    ensures r.Ok? ==> pos <= r.next < |toks| && toks[r.next].kind != Star
    ensures r.Ok? ==> r.value == Pointers(r.next - pos, base)
    decreases |toks| - pos
  {
    var r1 :- Match(toks, pos, Star);
    if !r1.value then Ok(base, r1.next)
    else
      var r2 :- ParsePointers(toks, r1.next, base);
      Ok(PointerType(r2.value), r2.next)
  }

  /** A non-empty run of type keywords, then any number of `*`. */
  function ParseType(toks: seq<Token>, pos: nat): (r: Result<Type>)
    ensures r.Ok? ==> pos < r.next < |toks|
    ensures pos < |toks| && !IsTypeKeyword(toks[pos].kind) ==> r == Fail(UnexpectedToken(pos))
  {
    var r1 :- ParseTypeKinds(toks, pos);
    if r1.value == [] then Fail(UnexpectedToken(pos))
    else ParsePointers(toks, r1.next, PrimaryType(r1.value))
  }

  // ---------------------------------------------------------------------------------------------
  // Top level
  // ---------------------------------------------------------------------------------------------

  /** The loop of `IsFunction`: steps over the run of type keywords. */
  function SkipTypeNames(toks: seq<Token>, pos: nat): (r: Result<()>)
    ensures r.Ok? ==> pos <= r.next < |toks| && !IsTypeKeyword(toks[r.next].kind)
    decreases |toks| - pos
  {
    var r1 :- IsTypeName(toks, pos);
    if r1.value then SkipTypeNames(toks, pos + 1)
    else Ok((), pos)
  }

  /**
   * Lookahead: whether the type run and identifier at `pos` are followed by `(`. The cursor is
   * restored before returning.
   */
  function IsFunction(toks: seq<Token>, pos: nat): (r: Result<bool>)
    ensures r.Ok? ==> r.next == pos < |toks| && IsTypeKeyword(toks[pos].kind)
  {
    var r1 :- IsTypeName(toks, pos);
    if !r1.value then Fail(UnexpectedToken(pos))
    else
      var r2 :- SkipTypeNames(toks, pos);
      var r3 :- Consume(toks, r2.next, Identifier);
      var r4 :- Match(toks, r3.next, LParen);
      Ok(r4.value, pos)
  }

  /**
   * One parameter: a type, then either `,` (the parameter has no name) or a name. A named
   * parameter is not followed by a separator.
   */
  function ParseParam(toks: seq<Token>, pos: nat): (r: Result<Param>)
    ensures r.Ok? ==> pos < r.next <= |toks|
  {
    var r1 :- ParseType(toks, pos);
    match Match(toks, r1.next, Comma)
    case Fail(e) => Fail(e)
    case Ok(anonymous, p2) =>
      if anonymous then Ok(Param(r1.value, ""), p2)
      else
        var r3 :- ParseIdentifier(toks, p2);
        Ok(Param(r1.value, r3.value), r3.next)
  }

  /** The parameters up to (not including) the closing `)`. */
  function ParseParams(toks: seq<Token>, pos: nat): (r: Result<seq<Param>>)
    ensures r.Ok? ==> pos <= r.next < |toks| && toks[r.next].kind == RParen
    decreases |toks| - pos
  {
    var r1 :- Peek(toks, pos, RParen);
    if r1.value then Ok([], pos)
    else
      var r2 :- ParseParam(toks, pos);
      var r3 :- ParseParams(toks, r2.next);
      Ok([r2.value] + r3.value, r3.next)
  }

  /** The part of a function before its body: return type, name and parameter list. */
  datatype FunctionHeader = FunctionHeader(returnType: Type, name: string, params: seq<Param>)

  /** `type identifier ( parameters )`. */
  function ParseFunctionHeader(toks: seq<Token>, pos: nat): (r: Result<FunctionHeader>)
    ensures r.Ok? ==> pos < r.next <= |toks| && toks[r.next - 1].kind == RParen
  {
    var r1 :- IsTypeName(toks, pos);
    if !r1.value then Fail(UnexpectedToken(pos))
    else
      var r2 :- ParseType(toks, pos);
      ParseSignature(toks, r2.next, r2.value)
  }

  /** The part of a function header after its return type: `identifier ( parameters )`. */
  function ParseSignature(toks: seq<Token>, pos: nat, returnType: Type): (r: Result<FunctionHeader>)
    ensures r.Ok? ==> pos < r.next <= |toks| && toks[r.next - 1].kind == RParen
  {
    var r1 :- ParseIdentifier(toks, pos);
    var r2 :- ParseParamList(toks, r1.next);
    Ok(FunctionHeader(returnType, r1.value, r2.value), r2.next)
  }

  /** `( parameters )`. */
  function ParseParamList(toks: seq<Token>, pos: nat): (r: Result<seq<Param>>)
    ensures r.Ok? ==> pos < r.next <= |toks| && toks[r.next - 1].kind == RParen
  {
    var r1 :- Consume(toks, pos, LParen);
    var r2 :- ParseParams(toks, r1.next);
    match Consume(toks, r2.next, RParen)
    case Fail(e) => Fail(e)
    case Ok(_, p3) => Ok(r2.value, p3)
  }

  /** What follows a function header: `;` (no body, a declaration) or a block (a definition). */
  function ParseFunctionBody(toks: seq<Token>, pos: nat, fuel: nat): (r: Result<Option<BlockStmt>>)
    ensures r.Ok? ==> pos < r.next <= |toks|
    ensures r.Ok? ==> (r.value.None? <==> toks[pos].kind == Semi)
    ensures r.Ok? && r.value.None? ==> r.next == pos + 1
    ensures r.Ok? && r.value.Some? ==> toks[r.next - 1].kind == RBrace
  {
    var r1 :- Peek(toks, pos, Semi);
    if r1.value then
      match Consume(toks, pos, Semi)
      case Fail(e) => Fail(e)
      case Ok(_, p) => Ok(None, p)
    else
      var r2 :- ParseBlockStmt(toks, pos, fuel);
      Ok(Some(r2.value), r2.next)
  }

  /** A function: its header, then either `;` (a declaration) or a block (a definition). */
  function ParseFunction(toks: seq<Token>, pos: nat, fuel: nat): (r: Result<Function>)
    ensures r.Ok? ==> pos < r.next <= |toks|
    ensures r.Ok? ==> toks[r.next - 1].kind == Semi || toks[r.next - 1].kind == RBrace
    ensures r.Ok? ==> (r.value.body.None? <==> toks[r.next - 1].kind == Semi)
  {
    var header :- ParseFunctionHeader(toks, pos);
    FunctionWithBody(toks, header.value, ParseFunctionBody(toks, header.next, fuel))
  }

  /** The function a parsed header and the result of parsing its body make together. */
  function FunctionWithBody(toks: seq<Token>, h: FunctionHeader, body: Result<Option<BlockStmt>>)
    : Result<Function>
  {
    if body.Fail? then Fail(body.error)
    else Ok(Function(h.returnType, h.name, h.params, body.value), body.next)
  }

  /**
   * A global declaration. The test for `=` is inverted: on `=` the declaration gets no
   * initializer, and without it a constant is read (without moving the cursor).
   */
  function ParseGlobalDecl(toks: seq<Token>, pos: nat): (r: Result<GlobalDecl>)
    ensures r.Ok? ==> pos < r.next <= |toks| && toks[r.next - 1].kind == Semi
    ensures r.Ok? ==> r.value.init.None?
  {
    var r1 :- IsTypeName(toks, pos);
    if !r1.value then Fail(UnexpectedToken(pos))
    else
      var r2 :- ParseType(toks, pos);
      ParseGlobalTail(toks, r2.next, r2.value)
  }

  /** The part of a global declaration after its type: an identifier, then `= ;` or a constant and `;`. */
  function ParseGlobalTail(toks: seq<Token>, pos: nat, ty: Type): (r: Result<GlobalDecl>)
    ensures r.Ok? ==> pos < r.next <= |toks| && toks[r.next - 1].kind == Semi
    ensures r.Ok? ==> r.value.init.None?
  {
    var r1 :- ParseIdentifier(toks, pos);
    var name := r1.value;
    var r2 :- Match(toks, r1.next, Equal);
    if r2.value then
      var r3 :- Consume(toks, r2.next, Semi);
      Ok(GlobalDecl(ty, name, None), r3.next)
    else
      var r3 :- ParseConstantExpr(toks, r2.next);
      var init := r3.value;
      match Consume(toks, r3.next, Semi)
      case Fail(e) => Fail(e)
      case Ok(_, p4) => Ok(GlobalDecl(ty, name, Some(init)), p4)
  }

  /** What a numeric constant holds: its own value, or the empty string when it holds none. */
  function NumericValue(v: TokenValue): ConstantValue {
    match v
    case NoValue => StringConst("")
    case IntValue(i) => IntConst(i)
    case DoubleValue(d) => DoubleConst(d)
    case StringValue(s) => StringConst(s)
  }

  /** The literal under the cursor as a constant. The cursor is never advanced. */
  function ParseConstantExpr(toks: seq<Token>, pos: nat): (r: Result<ConstantExpr>)
    ensures r.Ok? ==> r.next == pos
    ensures r.Ok? <==>
      && pos < |toks|
      && (|| (toks[pos].kind == CharConstant && toks[pos].value.IntValue?)
          || (toks[pos].kind == StringLiteral && toks[pos].value.StringValue?)
          || toks[pos].kind == NumericConstant)
  {
    if pos >= |toks| then Fail(EndOfInput)
    else
      var tok := toks[pos];
      if tok.kind == CharConstant then
        (match tok.value
         case IntValue(i) => Ok(ConstantExpr(IntConst(i)), pos)
         case _ => Fail(WrongValue(pos)))
      else if tok.kind == StringLiteral then
        (match tok.value
         case StringValue(s) => Ok(ConstantExpr(StringConst(s)), pos)
         case _ => Fail(WrongValue(pos)))
      else if tok.kind == NumericConstant then Ok(ConstantExpr(NumericValue(tok.value)), pos)
      else Fail(UnexpectedToken(pos))
  }

  /** One turn of the top-level loop: the look-ahead decides between a function and a global. */
  function ParseTopLevel(toks: seq<Token>, pos: nat, fuel: nat): (r: Result<TopLevel>)
    ensures r.Ok? ==> pos < r.next <= |toks|
    ensures r.Ok? && r.value.GlobalUnit? ==> r.value.d.init.None?
  {
    var r1 :- IsFunction(toks, pos);
    if r1.value then
      var r2 :- ParseFunction(toks, pos, fuel);
      Ok(FunctionUnit(r2.value), r2.next)
    else
      var r2 :- ParseGlobalDecl(toks, pos);
      Ok(GlobalUnit(r2.value), r2.next)
  }

  /** Collects the functions and global declarations from `pos` until the end of the tokens. */
  function ParseUnits(toks: seq<Token>, pos: nat, funcs: seq<Function>, decls: seq<GlobalDecl>, fuel: nat)
    : (r: Result<Program>)
    ensures r.Ok? ==> r.next == |toks|
    ensures r.Ok? && (forall d :: d in decls ==> d.init.None?) ==> forall d :: d in r.value.decls ==> d.init.None?
    decreases |toks| - pos, 1
  {
    if pos == |toks| then Ok(Program(funcs, decls), pos)
    else ParseNextUnit(toks, pos, funcs, decls, fuel)
  }

  /** The body of the top-level loop: one turn, whose unit is appended to its list, then the rest. */
  function ParseNextUnit(toks: seq<Token>, pos: nat, funcs: seq<Function>, decls: seq<GlobalDecl>, fuel: nat)
    : (r: Result<Program>)
    ensures r.Ok? ==> r.next == |toks|
    ensures r.Ok? && (forall d :: d in decls ==> d.init.None?) ==> forall d :: d in r.value.decls ==> d.init.None?
    decreases |toks| - pos, 0
  {
    var r1 :- ParseTopLevel(toks, pos, fuel);
    ParseUnits(toks, r1.next, funcs + FunctionOf(r1.value), decls + DeclOf(r1.value), fuel)
  }

  function Parse(toks: seq<Token>, fuel: nat): (r: Result<Program>)
    ensures r.Ok? ==> r.next == |toks|
    ensures r.Ok? ==> forall d :: d in r.value.decls ==> d.init.None?
  {
    ParseUnits(toks, 0, [], [], fuel)
  }

  // ---------------------------------------------------------------------------------------------
  // Statements
  // ---------------------------------------------------------------------------------------------

  /** Dispatches on the current token to one of the statement parsers. */
  function ParseStmt(toks: seq<Token>, pos: nat, fuel: nat): (r: Result<Stmt>)
    ensures r.Ok? ==> pos < r.next <= |toks|
    ensures r.Ok? ==> (r.value.Block? <==> toks[pos].kind == LBrace)
    ensures r.Ok? ==> (r.value.Break? <==> toks[pos].kind == KwBreak)
    ensures r.Ok? ==> (r.value.Continue? <==> toks[pos].kind == KwContinue)
    ensures r.Ok? ==> (r.value.Return? <==> toks[pos].kind == KwReturn)
    ensures r.Ok? ==> (r.value.For? || r.value.ForDecl? <==> toks[pos].kind == KwFor)
    ensures r.Ok? ==> (r.value.ExprStmt? <==> toks[pos].kind == Identifier)
    decreases |toks| - pos, 3
  {
    if pos >= |toks| then Fail(EndOfInput)
    else
      var k := toks[pos].kind;
      if k == KwIf then ParseIfStmt(toks, pos, fuel)
      else if k == KwDo then ParseDoWhileStmt(toks, pos, fuel)
      else if k == KwWhile then ParseWhileStmt(toks, pos, fuel)
      else if k == KwFor then
        // Look past `for (` for a type name, then rewind to the `for` before committing.
        match Consume(toks, pos, KwFor)
        case Fail(e) => Fail(e)
        case Ok(_, p1) =>
          var r2 :- Match(toks, p1, LParen);
          var r3 :- IsTypeName(toks, r2.next);
          if r3.value then ParseForDeclStmt(toks, pos, fuel) else ParseForStmt(toks, pos, fuel)
      else if IsTypeKeyword(k) then
        var r1 :- ParseDeclStmt(toks, pos, fuel);
        Ok(Decl(r1.value), r1.next)
      else if k == KwBreak then ParseBreakStmt(toks, pos)
      else if k == KwContinue then ParseContinueStmt(toks, pos)
      else if k == KwReturn then ParseReturnStmt(toks, pos, fuel)
      else if k == LBrace then
        var r1 :- ParseBlockStmt(toks, pos, fuel);
        Ok(Block(r1.value), r1.next)
      else
        var _ :- Expect(toks, pos, Identifier);
        ParseExprStmt(toks, pos, fuel)
  }

  /** `{`, statements up to the matching `}`, `}`. */
  function ParseBlockStmt(toks: seq<Token>, pos: nat, fuel: nat): (r: Result<BlockStmt>)
    ensures r.Ok? ==> pos < r.next <= |toks| && toks[pos].kind == LBrace && toks[r.next - 1].kind == RBrace
    decreases |toks| - pos, 2
  {
    var r1 :- Consume(toks, pos, LBrace);
    var r2 :- ParseBlockItems(toks, r1.next, fuel);
    match Consume(toks, r2.next, RBrace)
    case Fail(e) => Fail(e)
    case Ok(_, p3) => Ok(BlockStmt(r2.value), p3)
  }

  /** The loop of `ParseBlockStmt`: statements until the current token is `}`. */
  function ParseBlockItems(toks: seq<Token>, pos: nat, fuel: nat): (r: Result<seq<Stmt>>)
    ensures r.Ok? ==> pos <= r.next < |toks| && toks[r.next].kind == RBrace
    decreases |toks| - pos, 4
  {
    var r1 :- Peek(toks, pos, RBrace);
    if r1.value then Ok([], pos)
    else
      var r2 :- ParseStmt(toks, pos, fuel);
      var r3 :- ParseBlockItems(toks, r2.next, fuel);
      Ok([r2.value] + r3.value, r3.next)
  }

  function ParseIfStmt(toks: seq<Token>, pos: nat, fuel: nat): (r: Result<Stmt>)
    ensures r.Ok? ==> pos < r.next <= |toks|
    decreases |toks| - pos, 2
  {
    var r1 :- Consume(toks, pos, KwIf);
    var r2 :- Consume(toks, r1.next, LParen);
    var r3 :- ParseExpr(toks, r2.next, fuel);
    var r4 :- Consume(toks, r3.next, RParen);
    var r5 :- ParseStmt(toks, r4.next, fuel);
    var r6 :- Match(toks, r5.next, KwElse);
    if !r6.value then Ok(If(r3.value, r5.value, None), r6.next)
    else
      var r7 :- ParseStmt(toks, r6.next, fuel);
      Ok(If(r3.value, r5.value, Some(r7.value)), r7.next)
  }

  function ParseWhileStmt(toks: seq<Token>, pos: nat, fuel: nat): (r: Result<Stmt>)
    ensures r.Ok? ==> pos < r.next <= |toks|
    decreases |toks| - pos, 2
  {
    var r1 :- Consume(toks, pos, KwWhile);
    var r2 :- Consume(toks, r1.next, LParen);
    var r3 :- ParseExpr(toks, r2.next, fuel);
    var r4 :- Consume(toks, r3.next, RParen);
    var r5 :- ParseStmt(toks, r4.next, fuel);
    Ok(While(r3.value, r5.value), r5.next)
  }

  function ParseDoWhileStmt(toks: seq<Token>, pos: nat, fuel: nat): (r: Result<Stmt>)
    ensures r.Ok? ==> pos < r.next <= |toks|
    decreases |toks| - pos, 2
  {
    var r1 :- Consume(toks, pos, KwDo);
    var r2 :- ParseStmt(toks, r1.next, fuel);
    var r3 :- Consume(toks, r2.next, KwWhile);
    var r4 :- Consume(toks, r3.next, LParen);
    var r5 :- ParseExpr(toks, r4.next, fuel);
    var r6 :- Consume(toks, r5.next, RParen);
    var r7 :- Consume(toks, r6.next, Semi);
    Ok(DoWhile(r2.value, r5.value), r7.next)
  }

  /** An expression unless the current token is `stop`, which is left in place either way. */
  function ParseOptionalExpr(toks: seq<Token>, pos: nat, stop: TokenKind, fuel: nat): (r: Result<Option<Expr>>)
    ensures r.Ok? ==> pos <= r.next <= |toks|
    ensures r.Ok? && r.value.None? ==> r.next == pos < |toks| && toks[pos].kind == stop
  {
    var r1 :- Peek(toks, pos, stop);
    if r1.value then Ok(None, pos)
    else
      var r2 :- ParseExpr(toks, pos, fuel);
      Ok(Some(r2.value), r2.next)
  }

  function ParseForStmt(toks: seq<Token>, pos: nat, fuel: nat): (r: Result<Stmt>)
    ensures r.Ok? ==> pos < r.next <= |toks| && r.value.For?
    decreases |toks| - pos, 2
  {
    var r1 :- Consume(toks, pos, KwFor);
    var r2 :- Consume(toks, r1.next, LParen);
    var r3 :- ParseOptionalExpr(toks, r2.next, Semi, fuel);
    var r4 :- Consume(toks, r3.next, Semi);
    var r5 :- ParseOptionalExpr(toks, r4.next, Semi, fuel);
    var r6 :- Consume(toks, r5.next, Semi);
    var r7 :- ParseOptionalExpr(toks, r6.next, RParen, fuel);
    var r8 :- Consume(toks, r7.next, RParen);
    var r9 :- ParseStmt(toks, r8.next, fuel);
    Ok(For(r3.value, r5.value, r7.value, r9.value), r9.next)
  }

  /** The part of a declaration `for` before its body: `for ( declaration [control] ; [post] )`. */
  datatype ForDeclHeader = ForDeclHeader(initDecl: Declaration, control: Option<Expr>, post: Option<Expr>)

  function ParseForDeclHeader(toks: seq<Token>, pos: nat, fuel: nat): (r: Result<ForDeclHeader>)
    ensures r.Ok? ==> pos < r.next <= |toks|
  {
    var r1 :- Consume(toks, pos, KwFor);
    var r2 :- Consume(toks, r1.next, LParen);
    var r3 :- IsTypeName(toks, r2.next);
    if !r3.value then Fail(UnexpectedToken(r2.next))
    else
      var r4 :- ParseDeclStmt(toks, r2.next, fuel);
      ParseForDeclControl(toks, r4.next, r4.value, fuel)
  }

  /** The rest of a declaration `for` header after its declaration: `[control] ; [post] )`. */
  function ParseForDeclControl(toks: seq<Token>, pos: nat, initDecl: Declaration, fuel: nat): (r: Result<ForDeclHeader>)
    ensures r.Ok? ==> pos < r.next <= |toks|
  {
    var r1 :- ParseOptionalExpr(toks, pos, Semi, fuel);
    var r2 :- Consume(toks, r1.next, Semi);
    var r3 :- ParseOptionalExpr(toks, r2.next, RParen, fuel);
    var r4 :- Consume(toks, r3.next, RParen);
    Ok(ForDeclHeader(initDecl, r1.value, r3.value), r4.next)
  }

  function ParseForDeclStmt(toks: seq<Token>, pos: nat, fuel: nat): (r: Result<Stmt>)
    ensures r.Ok? ==> pos < r.next <= |toks| && r.value.ForDecl?
    decreases |toks| - pos, 2
  {
    ParseForDeclBody(toks, pos, ParseForDeclHeader(toks, pos, fuel), fuel)
  }

  /** The body statement after a parsed declaration `for` header. */
  function ParseForDeclBody(toks: seq<Token>, pos: nat, header: Result<ForDeclHeader>, fuel: nat): (r: Result<Stmt>)
    requires header.Ok? ==> pos < header.next <= |toks|
    ensures r.Ok? ==> pos < r.next <= |toks| && r.value.ForDecl?
    decreases |toks| - pos, 1
  {
    var h :- header;
    var body :- ParseStmt(toks, h.next, fuel);
    Ok(ForDecl(h.value.initDecl, h.value.control, h.value.post, body.value), body.next)
  }

  /**
   * A declaration. The identifier is read but never stepped over, so the test for `=` and the
   * final `;` both look at the identifier itself.
   */
  function ParseDeclStmt(toks: seq<Token>, pos: nat, fuel: nat): (r: Result<Declaration>)
    ensures r.Ok? ==> pos < r.next <= |toks|
  {
    var r1 :- IsTypeName(toks, pos);
    if !r1.value then Fail(UnexpectedToken(pos))
    else
      var r2 :- ParseType(toks, pos);
      var r3 :- IdentifierText(toks, r2.next);
      var ty, p1, name := r2.value, r2.next, r3.value;
      match Peek(toks, p1, Equal)
      case Fail(e) => Fail(e)
      case Ok(hasInit, _) =>
        if hasInit then
          match Consume(toks, p1, Equal)
          case Fail(e) => Fail(e)
          case Ok(_, p2) =>
            match ParseExpr(toks, p2, fuel)
            case Fail(e) => Fail(e)
            case Ok(init, p3) =>
              match Consume(toks, p3, Semi)
              case Fail(e) => Fail(e)
              case Ok(_, p4) => Ok(Declaration(ty, name, Some(init)), p4)
        else
          match Consume(toks, p1, Semi)
          case Fail(e) => Fail(e)
          case Ok(_, p2) => Ok(Declaration(ty, name, None), p2)
  }

  /** `break`; a following `;` is not consumed. */
  function ParseBreakStmt(toks: seq<Token>, pos: nat): (r: Result<Stmt>)
    ensures r.Ok? <==> pos < |toks| && toks[pos].kind == KwBreak
    ensures r.Ok? ==> r == Ok(Break, pos + 1)
  {
    var r1 :- Consume(toks, pos, KwBreak);
    Ok(Break, r1.next)
  }

  /** `continue`; a following `;` is not consumed. */
  function ParseContinueStmt(toks: seq<Token>, pos: nat): (r: Result<Stmt>)
    ensures r.Ok? <==> pos < |toks| && toks[pos].kind == KwContinue
    ensures r.Ok? ==> r == Ok(Continue, pos + 1)
  {
    var r1 :- Consume(toks, pos, KwContinue);
    Ok(Continue, r1.next)
  }

  /** `return` and an optional expression; a `;` right after `return` is not consumed. */
  function ParseReturnStmt(toks: seq<Token>, pos: nat, fuel: nat): (r: Result<Stmt>)
    ensures r.Ok? ==> pos < r.next <= |toks|
  {
    var r1 :- Consume(toks, pos, KwReturn);
    var r2 :- Peek(toks, r1.next, Semi);
    if r2.value then Ok(Return(None), r1.next)
    else
      var r3 :- ParseExpr(toks, r1.next, fuel);
      var r4 :- Consume(toks, r3.next, Semi);
      Ok(Return(Some(r3.value)), r4.next)
  }

  /** An expression and `;`, or, on a `;`, an empty statement that leaves the `;` in place. */
  function ParseExprStmt(toks: seq<Token>, pos: nat, fuel: nat): (r: Result<Stmt>)
    ensures r.Ok? ==> pos <= r.next <= |toks|
    ensures r.Ok? && pos < |toks| && toks[pos].kind != Semi ==> pos < r.next
  {
    var r1 :- Peek(toks, pos, Semi);
    if r1.value then Ok(ExprStmt(None), pos)
    else
      var r2 :- ParseExpr(toks, pos, fuel);
      var r3 :- Consume(toks, r2.next, Semi);
      Ok(ExprStmt(Some(r2.value)), r3.next)
  }

  // ---------------------------------------------------------------------------------------------
  // Expressions
  // ---------------------------------------------------------------------------------------------

  /** One or more assignment expressions separated by `,`. */
  function ParseExpr(toks: seq<Token>, pos: nat, fuel: nat): (r: Result<Expr>)
    ensures r.Ok? ==> pos <= r.next <= |toks|
  {
    var r1 :- ParseAssignExpr(toks, pos, fuel);
    var r2 :- ParseExprTail(toks, r1.next, fuel);
    Ok(Expr(r1.value, r2.value), r2.next)
  }

  /** The loop of `ParseExpr`: `, assignment-expression` while the current token is `,`. */
  function ParseExprTail(toks: seq<Token>, pos: nat, fuel: nat): (r: Result<seq<AssignExpr>>)
    ensures r.Ok? ==> pos <= r.next <= |toks|
    decreases |toks| - pos
  {
    var r1 :- Peek(toks, pos, Comma);
    if !r1.value then Ok([], pos)
    else
      match Consume(toks, pos, Comma)
      case Fail(e) => Fail(e)
      case Ok(_, p1) =>
        var r2 :- ParseAssignExpr(toks, p1, fuel);
        var r3 :- ParseExprTail(toks, r2.next, fuel);
        Ok([r2.value] + r3.value, r3.next)
  }

  /**
   * A conditional expression, then an assignment operator, then (right-recursively) an assignment
   * expression. The operator is recorded but never stepped over, so the recursion starts on the
   * same token; `fuel` is the stack the recursion may use.
   */
  function ParseAssignExpr(toks: seq<Token>, pos: nat, fuel: nat): (r: Result<AssignExpr>)
    ensures r.Ok? ==> pos <= r.next <= |toks|
    ensures r.Ok? ==> pos < |toks| && r.value.op == toks[pos].kind && IsAssignOperator(r.value.op) && r.value.rhs.Some?
    decreases fuel
  {
    if fuel == 0 then Fail(StackExhausted)
    else
      match ParseConditionalExpr(toks, pos)
      case Fail(e) => Fail(e)
      case Ok(cond, p1) =>
        if p1 >= |toks| then Fail(EndOfInput)
        else if !IsAssignOperator(toks[p1].kind) then Fail(UnexpectedToken(p1))
        else
          var r2 :- ParseAssignExpr(toks, p1, fuel - 1);
          Ok(AssignExpr(cond, toks[p1].kind, Some(r2.value)), r2.next)
  }

  /** The conditional-expression grammar is a stub: no node, and the cursor stays where it is. */
  function ParseConditionalExpr(toks: seq<Token>, pos: nat): Result<Option<ConditionalExpr>> {
    Ok(None, pos)
  }
}
