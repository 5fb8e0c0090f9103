/**
 * Where the top level of the parser of src/Parser.cc departs from the C grammar it follows: a
 * named parameter is never followed by a separator, a global declaration is read only in the form
 * `type name = ;`, and a pointer type at the top level defeats the function look-ahead.
 */
module ParserLimits {
  import opened Options
  import opened Tokens
  import opened Ast
  import opened Parser
  import opened Spelling
  import opened ParserFacts

  // ---------------------------------------------------------------------------------------------
  // Parameters
  // ---------------------------------------------------------------------------------------------

  /** A parameter whose type is followed by `,` has the empty name, and the `,` is stepped over. */
  lemma AnonymousParam(toks: seq<Token>, pos: nat, ty: Type, q: nat)
    requires ParseType(toks, pos) == Ok(ty, q) && toks[q].kind == Comma
    ensures ParseParam(toks, pos) == Ok(Param(ty, ""), q + 1)
  {
  }

  /** A parameter whose type is followed by an identifier takes its name, and nothing after it is read. */
  lemma NamedParam(toks: seq<Token>, pos: nat, ty: Type, q: nat)
    requires ParseType(toks, pos) == Ok(ty, q) && toks[q].kind == Identifier && toks[q].value.StringValue?
    ensures ParseParam(toks, pos) == Ok(Param(ty, toks[q].value.s), q + 1)
  {
  }

  /**
   * A named parameter followed by `,`: the `,` is left for the next parameter, whose type it
   * cannot start, so the parameter list fails there.
   */
  lemma NamedParamThenCommaFails(toks: seq<Token>, pos: nat, p: Param)
    requires WellFormedType(p.ty) && p.name != ""
    requires At(toks, pos, ParamTokens(p) + [Tok(Comma)])
    ensures ParseParams(toks, pos) == Fail(UnexpectedToken(pos + |ParamTokens(p)|))
  {
    var q := pos + |ParamTokens(p)|;
    AtParts(toks, pos, ParamTokens(p) + [Tok(Comma)], ParamTokens(p), [Tok(Comma)]);
    AtIndex(toks, q, [Tok(Comma)], 0);
    ParseParamRoundTrip(toks, pos, p);
    assert ParseParam(toks, q) == Fail(UnexpectedToken(q));
    assert ParseParams(toks, q) == Fail(UnexpectedToken(q));
  }

  /**
   * A parameter type followed directly by `)`: an unnamed parameter needs its `,`, so without one
   * the name is insisted on and the `)` fails.
   */
  lemma UnnamedLastParamFails(toks: seq<Token>, pos: nat, ty: Type, q: nat)
    requires ParseType(toks, pos) == Ok(ty, q) && toks[q].kind == RParen
    ensures ParseParam(toks, pos) == Fail(UnexpectedToken(q))
  {
  }

  /** The tokens of `int f(int);`. */
  function OneUnnamedParam(): seq<Token> {
    [Tok(KwInt), IdentTok("f"), Tok(LParen), Tok(KwInt), Tok(RParen), Tok(Semi)]
  }

  /** So the prototype `int f(int);` is rejected at its `)`. */
  lemma OneUnnamedParamFails(fuel: nat)
    ensures Parse(OneUnnamedParam(), fuel) == Fail(UnexpectedToken(4))
  {
    var toks := OneUnnamedParam();
    ParseTypeOnRun(toks, 0, 1, 0);
    ParseTypeOnRun(toks, 3, 1, 0);
    assert KindsOf(toks[0..1]) == [Int] && KindsOf(toks[3..4]) == [Int];
    UnnamedLastParamFails(toks, 3, PrimaryType([Int]), 4);
    assert IsFunction(toks, 0) == Ok(true, 0);
    assert ParseFunction(toks, 0, fuel) == Fail(UnexpectedToken(4));
  }

  /** The tokens of `int f(int a int b);`. */
  function UnseparatedParams(): seq<Token> {
    [Tok(KwInt), IdentTok("f"), Tok(LParen), Tok(KwInt), IdentTok("a"), Tok(KwInt), IdentTok("b"),
     Tok(RParen), Tok(Semi)]
  }

  /** Named parameters need no separator: `int f(int a int b);` declares `f` with parameters `a` and `b`. */
  lemma UnseparatedParamsParse(fuel: nat)
    ensures var i32 := PrimaryType([Int]);
      Parse(UnseparatedParams(), fuel) ==
        Ok(Program([Function(i32, "f", [Param(i32, "a"), Param(i32, "b")], None)], []), 9)
  {
    var i32 := PrimaryType([Int]);
    var f := Function(i32, "f", [Param(i32, "a"), Param(i32, "b")], None);
    var us := [FunctionUnit(f)];
    var a, b := Param(i32, "a"), Param(i32, "b");
    assert TypeTokens(i32) == [Tok(KwInt)] by {
      assert KindTokens([Int]) == [Tok(KwInt)];
    }
    assert ParamListTokens([b]) == [Tok(KwInt), IdentTok("b")];
    assert ParamListTokens(f.params) == [Tok(KwInt), IdentTok("a"), Tok(KwInt), IdentTok("b")] by {
      assert f.params[1..] == [b];
    }
    assert ParamsWellFormed(f.params) by {
      assert f.params[1..] == [b] && ParamsWellFormed([b]) by {
        assert [b][1..] == [];
      }
    }
    assert AllSpellable(us) by {
      assert us[1..] == [];
    }
    assert UnitsTokens(us) == UnseparatedParams() by {
      assert us[1..] == [];
    }
    assert FunctionsOf(us) == [f] && DeclsOf(us) == [] by {
      assert us[1..] == [];
    }
    ParseRoundTrip(us, fuel);
  }

  /** The tokens of `int foo(int a, int b);`. */
  function TwoNamedParams(): seq<Token> {
    [Tok(KwInt), IdentTok("foo"), Tok(LParen), Tok(KwInt), IdentTok("a"), Tok(Comma),
     Tok(KwInt), IdentTok("b"), Tok(RParen), Tok(Semi)]
  }

  /** Its parameter list `int a, int b` fails at the `,`. */
  lemma TwoNamedParamsListFails()
    ensures ParseParams(TwoNamedParams(), 3) == Fail(UnexpectedToken(5))
  {
    var toks := TwoNamedParams();
    ParseTypeOnRun(toks, 3, 1, 0);
    assert KindsOf(toks[3..4]) == [Int];
    NamedParam(toks, 3, PrimaryType([Int]), 4);
    assert ParseParam(toks, 5) == Fail(UnexpectedToken(5));
  }

  /** So the ordinary prototype `int foo(int a, int b);` is rejected at the `,` after `a`. */
  lemma TwoNamedParamsFail(fuel: nat)
    ensures Parse(TwoNamedParams(), fuel) == Fail(UnexpectedToken(5))
  {
    var toks := TwoNamedParams();
    TwoNamedParamsListFails();
    ParseTypeOnRun(toks, 0, 1, 0);
    assert KindsOf(toks[0..1]) == [Int];
    assert IsFunction(toks, 0) == Ok(true, 0);
    assert ParseParamList(toks, 2) == Fail(UnexpectedToken(5));
    assert ParseFunctionHeader(toks, 0) == Fail(UnexpectedToken(5));
  }

  // ---------------------------------------------------------------------------------------------
  // Global declarations and constants
  // ---------------------------------------------------------------------------------------------

  /**
   * A constant is read without moving the cursor, so the `;` after it is never found: the only
   * global declaration that parses is `type name = ;`, and it has no initializer.
   */
  lemma GlobalDeclShape(toks: seq<Token>, pos: nat)
    ensures ParseGlobalDecl(toks, pos).Ok? ==>
      var r := ParseGlobalDecl(toks, pos);
      && pos + 3 < r.next
      && ParseType(toks, pos) == Ok(r.value.ty, r.next - 3)
      && toks[r.next - 3] == IdentTok(r.value.name)
      && toks[r.next - 2].kind == Equal && toks[r.next - 1].kind == Semi
      && r.value.init.None?
  {
    var r2 := ParseType(toks, pos);
    if pos < |toks| && IsTypeKeyword(toks[pos].kind) && r2.Ok? {
      var r1 := ParseIdentifier(toks, r2.next);
      if r1.Ok? && r1.next < |toks| && toks[r1.next].kind != Equal {
        var c := ParseConstantExpr(toks, r1.next);
        assert c.Ok? ==> Consume(toks, c.next, Semi).Fail?;
      }
    }
  }

  /** A constant token is read back as the constant it holds. */
  lemma ConstantRoundTrip(toks: seq<Token>, pos: nat, c: ConstantValue)
    requires pos < |toks| && toks[pos] == ConstantToken(c)
    ensures ParseConstantExpr(toks, pos) == Ok(ConstantExpr(c), pos)
  {
  }

  /** A character constant holds its code as an integer. */
  lemma CharConstantIsInt(toks: seq<Token>, pos: nat)
    requires pos < |toks| && toks[pos].kind == CharConstant && toks[pos].value.IntValue?
    ensures ParseConstantExpr(toks, pos) == Ok(ConstantExpr(IntConst(toks[pos].value.i)), pos)
  {
  }

  /** A numeric constant that carries no value reads as the empty string. */
  lemma ValuelessNumberIsEmptyString(toks: seq<Token>, pos: nat)
    requires pos < |toks| && toks[pos] == Token(NumericConstant, NoValue)
    ensures ParseConstantExpr(toks, pos) == Ok(ConstantExpr(StringConst("")), pos)
  {
  }

  // ---------------------------------------------------------------------------------------------
  // Functions and the top-level look-ahead
  // ---------------------------------------------------------------------------------------------

  /**
   * A type with a `*` at the top level: the look-ahead expects the name right after the type
   * keywords and fails on the `*`, for a function and a global alike.
   */
  lemma PointerAtTopLevelFails(toks: seq<Token>, pos: nat, fuel: nat)
    requires pos < |toks| && IsTypeKeyword(toks[pos].kind)
    requires TypeRunEnd(toks, pos) < |toks| && toks[TypeRunEnd(toks, pos)].kind == Star
    ensures ParseTopLevel(toks, pos, fuel) == Fail(UnexpectedToken(TypeRunEnd(toks, pos)))
  {
    SkipTypeNamesSpec(toks, pos);
  }

  /**
   * After the header of a function, a `;` makes a declaration without a body; anything else must
   * be a block, which becomes the body.
   */
  lemma FunctionBodyChoice(toks: seq<Token>, pos: nat, fuel: nat)
    requires ParseFunctionHeader(toks, pos).Ok?
    ensures var h := ParseFunctionHeader(toks, pos);
      var q := h.next;
      var f := ParseFunction(toks, pos, fuel);
      && (q >= |toks| ==> f == Fail(EndOfInput))
      && (q < |toks| && toks[q].kind == Semi ==>
            f == Ok(Function(h.value.returnType, h.value.name, h.value.params, None), q + 1))
      && (q < |toks| && toks[q].kind != Semi ==>
            var b := ParseBlockStmt(toks, q, fuel);
            && (f.Ok? <==> b.Ok?)
            && (f.Ok? ==> f.value.body == Some(b.value) && f.next == b.next))
  {
  }
}
