/**
 * Properties of the statement and expression parsers of src/Parser.cc. The expression grammar
 * is a stub whose recursion never consumes a token, so no expression is ever produced; the
 * declaration parser never steps over its identifier, so no declaration is either. What is left
 * are `break`, `continue`, `return` and blocks and `for ( ; ; )` loops of those, and the parser
 * reads exactly their spellings back.
 */
module StatementFacts {
  import opened Options
  import opened Tokens
  import opened Ast
  import opened Parser
  import opened Spelling

  // ---------------------------------------------------------------------------------------------
  // Expressions
  // ---------------------------------------------------------------------------------------------

  /**
   * An assignment expression never yields a node. On an assignment operator it recurses on the
   * same token until the stack is exhausted; on anything else it stops at that token.
   */
  lemma {:induction false} AssignExprNeverYields(toks: seq<Token>, pos: nat, fuel: nat)
    ensures ParseAssignExpr(toks, pos, fuel).Fail?
    ensures ParseAssignExpr(toks, pos, fuel).error ==
      if fuel == 0 then StackExhausted
      else if pos >= |toks| then EndOfInput
      else if IsAssignOperator(toks[pos].kind) then StackExhausted
      else UnexpectedToken(pos)
    decreases fuel
  {
    if fuel > 0 && pos < |toks| && IsAssignOperator(toks[pos].kind) {
      AssignExprNeverYields(toks, pos, fuel - 1);
    }
  }

  /** Hence no expression is ever parsed. */
  lemma ExprNeverYields(toks: seq<Token>, pos: nat, fuel: nat)
    ensures ParseExpr(toks, pos, fuel).Fail?
  {
    AssignExprNeverYields(toks, pos, fuel);
  }

  /** An optional expression is always the absent one: it is read only where the stop token is. */
  lemma OptionalExprIsAbsent(toks: seq<Token>, pos: nat, stop: TokenKind, fuel: nat)
    ensures ParseOptionalExpr(toks, pos, stop, fuel).Ok? <==> pos < |toks| && toks[pos].kind == stop
    ensures ParseOptionalExpr(toks, pos, stop, fuel).Ok? ==> ParseOptionalExpr(toks, pos, stop, fuel) == Ok(None, pos)
  {
    ExprNeverYields(toks, pos, fuel);
  }

  // ---------------------------------------------------------------------------------------------
  // Statements that never succeed, and the `;` that is left behind
  // ---------------------------------------------------------------------------------------------

  /** A declaration statement never succeeds: its `=` test and its final `;` both see the identifier. */
  lemma DeclStmtNeverYields(toks: seq<Token>, pos: nat, fuel: nat)
    ensures ParseDeclStmt(toks, pos, fuel).Fail?
  {
    match ParseType(toks, pos)
    case Fail(_) =>
    case Ok(_, p1) =>
      if IdentifierText(toks, p1).Ok? {
        assert Consume(toks, p1, Semi).Fail?;
      }
  }

  /** Nor does a `for` whose first clause is a declaration. */
  lemma ForDeclNeverYields(toks: seq<Token>, pos: nat, fuel: nat)
    ensures ParseForDeclStmt(toks, pos, fuel).Fail?
  {
    DeclStmtNeverYields(toks, pos + 2, fuel);
  }

  /** `if` and `while` need a condition, so they never succeed. */
  lemma ConditionalStmtsNeverYield(toks: seq<Token>, pos: nat, fuel: nat)
    ensures ParseIfStmt(toks, pos, fuel).Fail?
    ensures ParseWhileStmt(toks, pos, fuel).Fail?
  {
    ExprNeverYields(toks, pos + 2, fuel);
  }

  /** Nor does `do ... while ( condition ) ;`. */
  lemma DoWhileNeverYields(toks: seq<Token>, pos: nat, fuel: nat)
    ensures ParseDoWhileStmt(toks, pos, fuel).Fail?
  {
    var body := ParseStmt(toks, pos + 1, fuel);
    if body.Ok? {
      ExprNeverYields(toks, body.next + 2, fuel);
    }
  }

  /** `return` succeeds exactly when a `;` follows it, and then leaves that `;` in place. */
  lemma ReturnStmtSpec(toks: seq<Token>, pos: nat, fuel: nat)
    ensures ParseReturnStmt(toks, pos, fuel).Ok? <==>
      pos + 1 < |toks| && toks[pos].kind == KwReturn && toks[pos + 1].kind == Semi
    ensures ParseReturnStmt(toks, pos, fuel).Ok? ==> ParseReturnStmt(toks, pos, fuel) == Ok(Return(None), pos + 1)
  {
    ExprNeverYields(toks, pos + 1, fuel);
  }

  /** An expression statement succeeds exactly on a `;`, as an empty statement that does not consume it. */
  lemma ExprStmtSpec(toks: seq<Token>, pos: nat, fuel: nat)
    ensures ParseExprStmt(toks, pos, fuel).Ok? <==> pos < |toks| && toks[pos].kind == Semi
    ensures ParseExprStmt(toks, pos, fuel).Ok? ==> ParseExprStmt(toks, pos, fuel) == Ok(ExprStmt(None), pos)
  {
    ExprNeverYields(toks, pos, fuel);
  }

  /** A statement cannot start with `;`: the dispatch insists on an identifier there. */
  lemma StmtAtSemicolonFails(toks: seq<Token>, pos: nat, fuel: nat)
    requires pos < |toks| && toks[pos].kind == Semi
    ensures ParseStmt(toks, pos, fuel) == Fail(UnexpectedToken(pos))
  {
  }

  /**
   * Nor can a statement start with an identifier: no `;` is there, so an expression is asked for,
   * and none is ever read. Every expression statement, `x = 1;` or `f;`, fails at its first token.
   */
  lemma IdentifierStmtFails(toks: seq<Token>, pos: nat, fuel: nat)
    requires pos < |toks| && toks[pos].kind == Identifier
    ensures ParseStmt(toks, pos, fuel) == Fail(if fuel == 0 then StackExhausted else UnexpectedToken(pos))
  {
    AssignExprNeverYields(toks, pos, fuel);
  }

  /**
   * `break;`, `continue;` and `return;` inside a block: the keyword is read as a statement, but
   * the `;` after it is then read as the start of the next one, and the block fails there.
   */
  lemma JumpThenSemicolonFails(toks: seq<Token>, pos: nat, fuel: nat)
    requires pos + 1 < |toks| && toks[pos + 1].kind == Semi
    requires toks[pos].kind == KwBreak || toks[pos].kind == KwContinue || toks[pos].kind == KwReturn
    ensures ParseStmt(toks, pos, fuel).Ok? && ParseStmt(toks, pos, fuel).next == pos + 1
    ensures ParseBlockItems(toks, pos, fuel) == Fail(UnexpectedToken(pos + 1))
  {
    ReturnStmtSpec(toks, pos, fuel);
    StmtAtSemicolonFails(toks, pos + 1, fuel);
  }

  /**
   * The `for` dispatch looks past `for` and an optional `(` for a type keyword, then restarts from
   * the `for` token itself with the declaration form or the expression form.
   */
  lemma ForDispatch(toks: seq<Token>, pos: nat, fuel: nat)
    requires pos < |toks| && toks[pos].kind == KwFor
    ensures var look := if pos + 1 < |toks| && toks[pos + 1].kind == LParen then pos + 2 else pos + 1;
      ParseStmt(toks, pos, fuel) ==
        if look >= |toks| then Fail(EndOfInput)
        else if IsTypeKeyword(toks[look].kind) then ParseForDeclStmt(toks, pos, fuel)
        else ParseForStmt(toks, pos, fuel)
  {
  }

  // ---------------------------------------------------------------------------------------------
  // What the statement parser can produce
  // ---------------------------------------------------------------------------------------------

  /** `return`, possibly as the body of `for ( ; ; )` loops: a statement that leaves a `;` behind. */
  predicate ReturnTail(s: Stmt) {
    match s
    case Return(v) => v.None?
    case For(init, control, post, body) => init.None? && control.None? && post.None? && ReturnTail(body)
    case _ => false
  }

  /**
   * Every statement the parser yields is one `SpellableStmt` describes, or a `return` tail that
   * stopped in front of a `;`; every block it yields holds only the former.
   */
  lemma {:induction false} StmtYields(toks: seq<Token>, pos: nat, fuel: nat)
    ensures ParseStmt(toks, pos, fuel).Ok? ==>
      var r := ParseStmt(toks, pos, fuel);
      SpellableStmt(r.value) || (ReturnTail(r.value) && r.next < |toks| && toks[r.next].kind == Semi)
    decreases |toks| - pos, 3
  {
    if pos < |toks| {
      var k := toks[pos].kind;
      if k == KwIf || k == KwWhile {
        ConditionalStmtsNeverYield(toks, pos, fuel);
      } else if k == KwDo {
        DoWhileNeverYields(toks, pos, fuel);
      } else if k == KwFor {
        ForDeclNeverYields(toks, pos, fuel);
        ForYields(toks, pos, fuel);
      } else if IsTypeKeyword(k) {
        DeclStmtNeverYields(toks, pos, fuel);
      } else if k == KwReturn {
        ReturnStmtSpec(toks, pos, fuel);
      } else if k == LBrace {
        BlockYields(toks, pos, fuel);
      } else {
        ExprStmtSpec(toks, pos, fuel);
      }
    }
  }

  lemma {:induction false} BlockYields(toks: seq<Token>, pos: nat, fuel: nat)
    ensures ParseBlockStmt(toks, pos, fuel).Ok? ==> SpellableStmt(Block(ParseBlockStmt(toks, pos, fuel).value))
    decreases |toks| - pos, 2
  {
    if pos < |toks| && toks[pos].kind == LBrace {
      ItemsYield(toks, pos + 1, fuel);
    }
  }

  lemma {:induction false} ItemsYield(toks: seq<Token>, pos: nat, fuel: nat)
    ensures ParseBlockItems(toks, pos, fuel).Ok? ==>
      forall i :: 0 <= i < |ParseBlockItems(toks, pos, fuel).value| ==> SpellableStmt(ParseBlockItems(toks, pos, fuel).value[i])
    decreases |toks| - pos, 4
  {
    if pos < |toks| && toks[pos].kind != RBrace {
      var r2 := ParseStmt(toks, pos, fuel);
      StmtYields(toks, pos, fuel);
      if r2.Ok? {
        ItemsYield(toks, r2.next, fuel);
        if SpellableStmt(r2.value) {
        } else {
          StmtAtSemicolonFails(toks, r2.next, fuel);
        }
      }
    }
  }

  lemma {:induction false} ForYields(toks: seq<Token>, pos: nat, fuel: nat)
    ensures ParseForStmt(toks, pos, fuel).Ok? ==>
      var r := ParseForStmt(toks, pos, fuel);
      r.value.For? && r.value.init.None? && r.value.control.None? && r.value.post.None? &&
      (SpellableStmt(r.value.body) || (ReturnTail(r.value.body) && r.next < |toks| && toks[r.next].kind == Semi))
    decreases |toks| - pos, 2
  {
    OptionalExprIsAbsent(toks, pos + 2, Semi, fuel);
    OptionalExprIsAbsent(toks, pos + 3, Semi, fuel);
    OptionalExprIsAbsent(toks, pos + 4, RParen, fuel);
    if ParseForStmt(toks, pos, fuel).Ok? {
      StmtYields(toks, pos + 5, fuel);
    }
  }

  // ---------------------------------------------------------------------------------------------
  // Reading spellings back
  // ---------------------------------------------------------------------------------------------

  /** A spellable statement starts with `break`, `continue`, `{` or `for`. */
  lemma SpellableStmtStart(s: Stmt)
    requires SpellableStmt(s)
    ensures |StmtTokens(s)| > 0
    ensures var k := StmtTokens(s)[0].kind; k == KwBreak || k == KwContinue || k == LBrace || k == KwFor
  {
  }

  /** Where a block is spelled, its `{` comes first and its statements and `}` follow. */
  lemma BlockTokensAt(toks: seq<Token>, pos: nat, ss: seq<Stmt>)
    requires At(toks, pos, [Tok(LBrace)] + StmtsTokens(ss) + [Tok(RBrace)])
    ensures pos < |toks| && toks[pos] == Tok(LBrace) && At(toks, pos + 1, StmtsTokens(ss) + [Tok(RBrace)])
  {
    SeqAssoc([Tok(LBrace)], StmtsTokens(ss), [Tok(RBrace)]);
    AtParts(toks, pos, [Tok(LBrace)] + (StmtsTokens(ss) + [Tok(RBrace)]), [Tok(LBrace)], StmtsTokens(ss) + [Tok(RBrace)]);
    AtIndex(toks, pos, [Tok(LBrace)], 0);
  }

  /** Where a non-empty statement list and `}` are spelled, the first statement comes first. */
  lemma StmtsTokensAt(toks: seq<Token>, pos: nat, ss: seq<Stmt>)
    requires ss != [] && At(toks, pos, StmtsTokens(ss) + [Tok(RBrace)])
    ensures At(toks, pos, StmtTokens(ss[0]))
    ensures At(toks, pos + |StmtTokens(ss[0])|, StmtsTokens(ss[1..]) + [Tok(RBrace)])
    ensures |StmtsTokens(ss)| == |StmtTokens(ss[0])| + |StmtsTokens(ss[1..])|
  {
    SeqAssoc(StmtTokens(ss[0]), StmtsTokens(ss[1..]), [Tok(RBrace)]);
    AtParts(toks, pos, StmtTokens(ss[0]) + (StmtsTokens(ss[1..]) + [Tok(RBrace)]), StmtTokens(ss[0]), StmtsTokens(ss[1..]) + [Tok(RBrace)]);
  }

  /** Where `for ( ; ; )` and a body are spelled, the five header tokens come first. */
  lemma ForTokensAt(toks: seq<Token>, pos: nat, body: Stmt)
    requires At(toks, pos, [Tok(KwFor), Tok(LParen), Tok(Semi), Tok(Semi), Tok(RParen)] + StmtTokens(body))
    ensures pos + 5 <= |toks|
    ensures toks[pos].kind == KwFor && toks[pos + 1].kind == LParen && toks[pos + 2].kind == Semi
    ensures toks[pos + 3].kind == Semi && toks[pos + 4].kind == RParen
    ensures At(toks, pos + 5, StmtTokens(body))
  {
    var head := [Tok(KwFor), Tok(LParen), Tok(Semi), Tok(Semi), Tok(RParen)];
    AtParts(toks, pos, head + StmtTokens(body), head, StmtTokens(body));
    AtIndex(toks, pos, head, 0);
    AtIndex(toks, pos, head, 1);
    AtIndex(toks, pos, head, 2);
    AtIndex(toks, pos, head, 3);
    AtIndex(toks, pos, head, 4);
  }

  /** The parser reads a spelled statement back, and steps over exactly its spelling. */
  lemma {:induction false} StmtRoundTrip(toks: seq<Token>, pos: nat, s: Stmt, fuel: nat)
    requires SpellableStmt(s) && At(toks, pos, StmtTokens(s))
    ensures ParseStmt(toks, pos, fuel) == Ok(s, pos + |StmtTokens(s)|)
    decreases |StmtTokens(s)|, 1
  {
    match s
    case Break =>
      AtIndex(toks, pos, StmtTokens(s), 0);
    case Continue =>
      AtIndex(toks, pos, StmtTokens(s), 0);
    case Block(b) =>
      BlockRoundTrip(toks, pos, b, fuel);
    case For(_, _, _, body) =>
      ForTokensAt(toks, pos, body);
      ForRoundTrip(toks, pos, s, fuel);
  }

  lemma {:induction false} BlockRoundTrip(toks: seq<Token>, pos: nat, b: BlockStmt, fuel: nat)
    requires SpellableStmt(Block(b)) && At(toks, pos, StmtTokens(Block(b)))
    ensures ParseBlockStmt(toks, pos, fuel) == Ok(b, pos + |StmtTokens(Block(b))|)
    decreases |StmtTokens(Block(b))|, 0
  {
    BlockTokensAt(toks, pos, b.stmts);
    ItemsRoundTrip(toks, pos + 1, b.stmts, fuel);
    var n := pos + 1 + |StmtsTokens(b.stmts)|;
    AtIndex(toks, pos + 1, StmtsTokens(b.stmts) + [Tok(RBrace)], |StmtsTokens(b.stmts)|);
    BlockOfParts(toks, pos, fuel, b.stmts, n);
  }

  /** A `{`, block items ending at `n`, and the `}` there make a block. */
  lemma BlockOfParts(toks: seq<Token>, pos: nat, fuel: nat, ss: seq<Stmt>, n: nat)
    requires pos < |toks| && toks[pos].kind == LBrace
    requires ParseBlockItems(toks, pos + 1, fuel) == Ok(ss, n) && toks[n].kind == RBrace
    ensures ParseBlockStmt(toks, pos, fuel) == Ok(BlockStmt(ss), n + 1)
  {
    assert Consume(toks, pos, LBrace) == Ok((), pos + 1);
    assert Consume(toks, n, RBrace) == Ok((), n + 1);
  }

  lemma {:induction false} ItemsRoundTrip(toks: seq<Token>, pos: nat, ss: seq<Stmt>, fuel: nat)
    requires forall i :: 0 <= i < |ss| ==> SpellableStmt(ss[i])
    requires At(toks, pos, StmtsTokens(ss) + [Tok(RBrace)])
    ensures ParseBlockItems(toks, pos, fuel) == Ok(ss, pos + |StmtsTokens(ss)|)
    decreases |StmtsTokens(ss)|, 3
  {
    if ss == [] {
      AtIndex(toks, pos, StmtsTokens(ss) + [Tok(RBrace)], 0);
      ItemsEnd(toks, pos, fuel);
    } else {
      var p1 := pos + |StmtTokens(ss[0])|;
      ItemsHeadRoundTrip(toks, pos, ss, fuel);
      ItemsRoundTrip(toks, p1, ss[1..], fuel);
      ItemsStep(toks, pos, fuel, ss[0], p1, ss[1..], pos + |StmtsTokens(ss)|);
      assert [ss[0]] + ss[1..] == ss;
    }
  }

  /** The first statement of a spelled list is read back, and the rest of the list follows it. */
  lemma {:induction false} ItemsHeadRoundTrip(toks: seq<Token>, pos: nat, ss: seq<Stmt>, fuel: nat)
    requires ss != [] && SpellableStmt(ss[0])
    requires At(toks, pos, StmtsTokens(ss) + [Tok(RBrace)])
    ensures pos < |toks| && toks[pos].kind != RBrace && 0 < |StmtTokens(ss[0])|
    ensures ParseStmt(toks, pos, fuel) == Ok(ss[0], pos + |StmtTokens(ss[0])|)
    ensures At(toks, pos + |StmtTokens(ss[0])|, StmtsTokens(ss[1..]) + [Tok(RBrace)])
    ensures |StmtsTokens(ss)| == |StmtTokens(ss[0])| + |StmtsTokens(ss[1..])|
    decreases |StmtsTokens(ss)|, 2
  {
    StmtsTokensAt(toks, pos, ss);
    SpellableStmtStart(ss[0]);
    AtIndex(toks, pos, StmtTokens(ss[0]), 0);
    StmtRoundTrip(toks, pos, ss[0], fuel);
  }

  /** The statement list ends at a `}`. */
  lemma ItemsEnd(toks: seq<Token>, pos: nat, fuel: nat)
    requires pos < |toks| && toks[pos].kind == RBrace
    ensures ParseBlockItems(toks, pos, fuel) == Ok([], pos)
  {
  }

  /** One turn of the statement-list loop. */
  lemma ItemsStep(toks: seq<Token>, pos: nat, fuel: nat, s: Stmt, p1: nat, rest: seq<Stmt>, n: nat)
    requires pos < |toks| && toks[pos].kind != RBrace
    requires ParseStmt(toks, pos, fuel) == Ok(s, p1) && ParseBlockItems(toks, p1, fuel) == Ok(rest, n)
    ensures ParseBlockItems(toks, pos, fuel) == Ok([s] + rest, n)
  {
    assert Peek(toks, pos, RBrace) == Ok(false, pos);
  }

  lemma {:induction false} ForRoundTrip(toks: seq<Token>, pos: nat, s: Stmt, fuel: nat)
    requires s.For? && SpellableStmt(s) && At(toks, pos, StmtTokens(s))
    ensures ParseStmt(toks, pos, fuel) == Ok(s, pos + |StmtTokens(s)|)
    decreases |StmtTokens(s)|, 0
  {
    ForTokensAt(toks, pos, s.body);
    OptionalExprIsAbsent(toks, pos + 2, Semi, fuel);
    OptionalExprIsAbsent(toks, pos + 3, Semi, fuel);
    OptionalExprIsAbsent(toks, pos + 4, RParen, fuel);
    StmtRoundTrip(toks, pos + 5, s.body, fuel);
    assert ParseForStmt(toks, pos, fuel) == Ok(s, pos + |StmtTokens(s)|);
  }
}
