/** Properties of the parser, stated against the token spellings and the run ends of the token sequence. */
module ParserFacts {
  import opened Options
  import opened Tokens
  import opened Ast
  import opened Parser
  import opened Spelling
  import opened StatementFacts

  // ---------------------------------------------------------------------------------------------
  // Type keywords and types
  // ---------------------------------------------------------------------------------------------

  /** The nine type keywords and the nine specifiers correspond one to one. */
  lemma TypeKeywordsBijective(k: TokenKind, tk: TypeKind)
    ensures TokenTypeToTypeKind(KeywordOf(tk)) == Some(tk)
    ensures IsTypeKeyword(k) ==> KeywordOf(TokenTypeToTypeKind(k).value) == k
  {
  }

  /** The run of type keywords ends where `TypeRunEnd` says, and its specifiers are read in order. */
  lemma {:induction false} ParseTypeKindsSpec(toks: seq<Token>, pos: nat)
    ensures ParseTypeKinds(toks, pos).Ok? <==> TypeRunEnd(toks, pos) < |toks|
    ensures ParseTypeKinds(toks, pos).Ok? ==>
      && ParseTypeKinds(toks, pos).next == TypeRunEnd(toks, pos)
      && ParseTypeKinds(toks, pos).value == KindsOf(toks[pos..TypeRunEnd(toks, pos)])
    decreases |toks| - pos
  {
    if pos < |toks| && IsTypeKeyword(toks[pos].kind) {
      ParseTypeKindsSpec(toks, pos + 1);
      var e := TypeRunEnd(toks, pos);
      if e < |toks| {
        var r := ParseTypeKinds(toks, pos + 1);
        assert KindsOf(toks[pos..e]) == [TokenTypeToTypeKind(toks[pos].kind).value] + KindsOf(toks[pos + 1..e]);
      }
    }
  }

  /** The run of `*` ends where `StarRunEnd` says. */
  lemma {:induction false} ParsePointersSpec(toks: seq<Token>, pos: nat, base: Type)
    ensures ParsePointers(toks, pos, base).Ok? <==> StarRunEnd(toks, pos) < |toks|
    ensures ParsePointers(toks, pos, base).Ok? ==> ParsePointers(toks, pos, base).next == StarRunEnd(toks, pos)
    decreases |toks| - pos
  {
    if pos < |toks| && toks[pos].kind == Star {
      ParsePointersSpec(toks, pos + 1, base);
    }
  }

  /**
   * On a run of `k` type keywords followed by exactly `n` stars, `ParseType` yields `n` pointer
   * types around the primary type of that run, and steps over all `k + n` tokens.
   */
  lemma ParseTypeOnRun(toks: seq<Token>, pos: nat, k: nat, n: nat)
    requires 0 < k && pos + k + n < |toks|
    requires forall i :: pos <= i < pos + k ==> IsTypeKeyword(toks[i].kind)
    requires forall i :: pos + k <= i < pos + k + n ==> toks[i].kind == Star
    requires !IsTypeKeyword(toks[pos + k].kind) && toks[pos + k + n].kind != Star
    ensures ParseType(toks, pos) == Ok(Pointers(n, PrimaryType(KindsOf(toks[pos..pos + k]))), pos + k + n)
  {
    TypeRunEndAt(toks, pos, pos + k);
    StarRunEndAt(toks, pos + k, pos + k + n);
    ParseTypeKindsSpec(toks, pos);
    ParsePointersSpec(toks, pos + k, PrimaryType(KindsOf(toks[pos..pos + k])));
  }

  /** A run of type keywords that stops at `e` ends at `e`. */
  lemma {:induction false} TypeRunEndAt(toks: seq<Token>, pos: nat, e: nat)
    requires pos <= e <= |toks|
    requires forall i :: pos <= i < e ==> IsTypeKeyword(toks[i].kind)
    requires e < |toks| ==> !IsTypeKeyword(toks[e].kind)
    ensures TypeRunEnd(toks, pos) == e
    decreases e - pos
  {
    if pos < e {
      TypeRunEndAt(toks, pos + 1, e);
    }
  }

  /** A run of `*` that stops at `e` ends at `e`. */
  lemma {:induction false} StarRunEndAt(toks: seq<Token>, pos: nat, e: nat)
    requires pos <= e <= |toks|
    requires forall i :: pos <= i < e ==> toks[i].kind == Star
    requires e < |toks| ==> toks[e].kind != Star
    ensures StarRunEnd(toks, pos) == e
    decreases e - pos
  {
    if pos < e {
      StarRunEndAt(toks, pos + 1, e);
    }
  }

  /** Where the spelling of a type is placed, its keywords come first and its stars after them. */
  lemma TypeTokensAt(toks: seq<Token>, pos: nat, t: Type)
    requires At(toks, pos, TypeTokens(t))
    ensures forall i :: pos <= i < pos + |BaseType(t).kinds| ==>
      toks[i] == Tok(KeywordOf(BaseType(t).kinds[i - pos]))
    ensures forall i :: pos + |BaseType(t).kinds| <= i < pos + |TypeTokens(t)| ==> toks[i].kind == Star
  {
    var kinds := BaseType(t).kinds;
    var k, n := |kinds|, PointerDepth(t);
    AtParts(toks, pos, TypeTokens(t), KindTokens(kinds), StarTokens(n));
    forall i | pos <= i < pos + k
      ensures toks[i] == Tok(KeywordOf(kinds[i - pos]))
    {
      AtIndex(toks, pos, KindTokens(kinds), i - pos);
    }
    forall i | pos + k <= i < pos + k + n
      ensures toks[i].kind == Star
    {
      AtIndex(toks, pos + k, StarTokens(n), i - pos - k);
    }
  }

  /** Spelling a well-formed type and parsing it back yields the same type. */
  lemma ParseTypeRoundTrip(toks: seq<Token>, pos: nat, t: Type)
    requires WellFormedType(t) && At(toks, pos, TypeTokens(t))
    requires pos + |TypeTokens(t)| < |toks|
    requires !IsTypeKeyword(toks[pos + |TypeTokens(t)|].kind) && toks[pos + |TypeTokens(t)|].kind != Star
    ensures ParseType(toks, pos) == Ok(t, pos + |TypeTokens(t)|)
    ensures IsTypeKeyword(toks[pos].kind)
  {
    var kinds := BaseType(t).kinds;
    var k, n := |kinds|, PointerDepth(t);
    TypeTokensAt(toks, pos, t);
    ParseTypeOnRun(toks, pos, k, n);
    assert KindsOf(toks[pos..pos + k]) == kinds by {
      forall i | 0 <= i < k
        ensures KindsOf(toks[pos..pos + k])[i] == kinds[i]
      {
        assert toks[pos..pos + k][i] == toks[pos + i];
        TypeKeywordsBijective(KwAuto, kinds[i]);
      }
    }
    PointersOfBase(t);
  }

  /** `IsFunction` succeeds exactly on a type run and an identifier, and tests for the `(` after them. */
  lemma IsFunctionSpec(toks: seq<Token>, pos: nat)
    ensures IsFunction(toks, pos).Ok? <==>
      && pos < |toks| && IsTypeKeyword(toks[pos].kind)
      && TypeRunEnd(toks, pos) + 1 < |toks| && toks[TypeRunEnd(toks, pos)].kind == Identifier
    ensures IsFunction(toks, pos).Ok? ==>
      (IsFunction(toks, pos).value <==> toks[TypeRunEnd(toks, pos) + 1].kind == LParen)
  {
    SkipTypeNamesSpec(toks, pos);
  }

  /** The loop of `IsFunction` stops at the end of the type run. */
  lemma {:induction false} SkipTypeNamesSpec(toks: seq<Token>, pos: nat)
    ensures SkipTypeNames(toks, pos).Ok? <==> TypeRunEnd(toks, pos) < |toks|
    ensures SkipTypeNames(toks, pos).Ok? ==> SkipTypeNames(toks, pos).next == TypeRunEnd(toks, pos)
    decreases |toks| - pos
  {
    if pos < |toks| && IsTypeKeyword(toks[pos].kind) {
      SkipTypeNamesSpec(toks, pos + 1);
    }
  }

  // ---------------------------------------------------------------------------------------------
  // Top level: parameters, functions, globals, programs
  // ---------------------------------------------------------------------------------------------

  /** A spelled parameter is read back. */
  lemma ParseParamRoundTrip(toks: seq<Token>, pos: nat, p: Param)
    requires WellFormedType(p.ty) && At(toks, pos, ParamTokens(p))
    ensures ParseParam(toks, pos) == Ok(p, pos + |ParamTokens(p)|)
    ensures pos < |toks| && IsTypeKeyword(toks[pos].kind)
  {
    var tt := TypeTokens(p.ty);
    var last := [if p.name == "" then Tok(Comma) else IdentTok(p.name)];
    AtParts(toks, pos, ParamTokens(p), tt, last);
    AtIndex(toks, pos + |tt|, last, 0);
    ParseTypeRoundTrip(toks, pos, p.ty);
    if p.name == "" {
      assert Match(toks, pos + |tt|, Comma) == Ok(true, pos + |tt| + 1);
    } else {
      assert Match(toks, pos + |tt|, Comma) == Ok(false, pos + |tt|);
      assert ParseIdentifier(toks, pos + |tt|) == Ok(p.name, pos + |tt| + 1);
    }
  }

  /** One turn of the parameter loop: a parameter, then the rest of the list. */
  lemma ParseParamsStep(toks: seq<Token>, pos: nat, p: Param, p1: nat, rest: seq<Param>, n: nat)
    requires pos < |toks| && toks[pos].kind != RParen
    requires ParseParam(toks, pos) == Ok(p, p1) && ParseParams(toks, p1) == Ok(rest, n)
    ensures ParseParams(toks, pos) == Ok([p] + rest, n)
  {
    assert Peek(toks, pos, RParen) == Ok(false, pos);
  }

  /** The spelling of a non-empty parameter list and its `)`, split after the first parameter. */
  lemma ParamListTokensAt(toks: seq<Token>, pos: nat, ps: seq<Param>)
    requires ps != [] && At(toks, pos, ParamListTokens(ps) + [Tok(RParen)])
    ensures At(toks, pos, ParamTokens(ps[0]))
    ensures At(toks, pos + |ParamTokens(ps[0])|, ParamListTokens(ps[1..]) + [Tok(RParen)])
    ensures |ParamListTokens(ps)| == |ParamTokens(ps[0])| + |ParamListTokens(ps[1..])|
  {
    SeqAssoc(ParamTokens(ps[0]), ParamListTokens(ps[1..]), [Tok(RParen)]);
    AtParts(toks, pos, ParamListTokens(ps) + [Tok(RParen)], ParamTokens(ps[0]), ParamListTokens(ps[1..]) + [Tok(RParen)]);
  }

  /**
   * A parameter list spelled as the parser reads it, up to and including the closing `)`, is read
   * back in full. Named parameters are not followed by a separator; unnamed ones are followed by `,`.
   */
  lemma {:induction false} ParseParamsRoundTrip(toks: seq<Token>, pos: nat, ps: seq<Param>)
    requires ParamsWellFormed(ps)
    requires At(toks, pos, ParamListTokens(ps) + [Tok(RParen)])
    ensures ParseParams(toks, pos) == Ok(ps, pos + |ParamListTokens(ps)|)
    decreases |ps|
  {
    if ps == [] {
      AtIndex(toks, pos, [Tok(RParen)], 0);
    } else {
      var q := pos + |ParamTokens(ps[0])|;
      ParamListTokensAt(toks, pos, ps);
      ParseParamsRoundTrip(toks, q, ps[1..]);
      ParseParamsCons(toks, pos, ps, pos + |ParamListTokens(ps)|);
    }
  }

  /** A spelled parameter in front of a list that is read back makes a list that is read back. */
  lemma ParseParamsCons(toks: seq<Token>, pos: nat, ps: seq<Param>, n: nat)
    requires ps != [] && WellFormedType(ps[0].ty) && At(toks, pos, ParamTokens(ps[0]))
    requires ParseParams(toks, pos + |ParamTokens(ps[0])|) == Ok(ps[1..], n)
    ensures ParseParams(toks, pos) == Ok(ps, n)
  {
    ParseParamRoundTrip(toks, pos, ps[0]);
    ParseParamsStep(toks, pos, ps[0], pos + |ParamTokens(ps[0])|, ps[1..], n);
    SeqCons(ps);
  }

  /** The spelling of a top-level construct, split at its type. */
  lemma UnitTokensAt(toks: seq<Token>, pos: nat, u: TopLevel)
    requires Spellable(u) && At(toks, pos, UnitTokens(u))
    ensures var t := if u.FunctionUnit? then u.f.returnType else u.d.ty;
      && At(toks, pos, TypeTokens(t))
      && |TypeTokens(t)| == |t.kinds|
      && pos + |t.kinds| + 1 < |toks|
      && toks[pos + |t.kinds|] == IdentTok(if u.FunctionUnit? then u.f.name else u.d.name)
      && toks[pos + |t.kinds| + 1] == Tok(if u.FunctionUnit? then LParen else Equal)
  {
    match u
    case FunctionUnit(f) =>
      FunctionTokensAt(toks, pos, f);
      SignatureTokensAt(toks, pos + |TypeTokens(f.returnType)|, f);
    case GlobalUnit(d) =>
      var tt := TypeTokens(d.ty);
      var rest := [IdentTok(d.name), Tok(Equal), Tok(Semi)];
      AtParts(toks, pos, GlobalTokens(d), tt, rest);
      AtIndex(toks, pos + |tt|, rest, 0);
      AtIndex(toks, pos + |tt|, rest, 1);
  }

  /** The look-ahead tells a spelled function from a spelled global declaration. */
  lemma IsFunctionOnUnit(toks: seq<Token>, pos: nat, u: TopLevel)
    requires Spellable(u) && At(toks, pos, UnitTokens(u))
    ensures IsFunction(toks, pos) == Ok(u.FunctionUnit?, pos)
  {
    UnitTokensAt(toks, pos, u);
    var t := if u.FunctionUnit? then u.f.returnType else u.d.ty;
    TypeTokensAt(toks, pos, t);
    TypeRunEndAt(toks, pos, pos + |t.kinds|);
    IsFunctionSpec(toks, pos);
  }

  /** The spelling of a function, split at its name and at its body. */
  lemma FunctionTokensAt(toks: seq<Token>, pos: nat, f: Function)
    requires At(toks, pos, FunctionTokens(f))
    ensures var k := |TypeTokens(f.returnType)|;
      && At(toks, pos, TypeTokens(f.returnType))
      && At(toks, pos + k, SignatureTokens(f))
      && At(toks, pos + k + |SignatureTokens(f)|, BodyTokens(f.body))
      && |FunctionTokens(f)| == k + |SignatureTokens(f)| + |BodyTokens(f.body)|
  {
    var a := TypeTokens(f.returnType);
    var b := a + SignatureTokens(f);
    AtParts(toks, pos, FunctionTokens(f), b, BodyTokens(f.body));
    AtParts(toks, pos, b, a, SignatureTokens(f));
  }

  /** The spelling of a signature, split after `name (`. */
  lemma SignatureTokensAt(toks: seq<Token>, pos: nat, f: Function)
    requires At(toks, pos, SignatureTokens(f))
    ensures pos + 1 < |toks| && toks[pos] == IdentTok(f.name) && toks[pos + 1] == Tok(LParen)
    ensures At(toks, pos + 2, ParamListTokens(f.params) + [Tok(RParen)])
    ensures |SignatureTokens(f)| == 2 + |ParamListTokens(f.params)| + 1
  {
    var a := [IdentTok(f.name), Tok(LParen)];
    var pl := ParamListTokens(f.params);
    SeqAssoc(a, pl, [Tok(RParen)]);
    AtParts(toks, pos, SignatureTokens(f), a, pl + [Tok(RParen)]);
    AtIndex(toks, pos, a, 0);
    AtIndex(toks, pos, a, 1);
  }

  /** A spelled parameter list, from its `(` to its `)`, is read back. */
  lemma ParseParamListRoundTrip(toks: seq<Token>, pos: nat, ps: seq<Param>)
    requires ParamsWellFormed(ps)
    requires pos < |toks| && toks[pos] == Tok(LParen) && At(toks, pos + 1, ParamListTokens(ps) + [Tok(RParen)])
    ensures ParseParamList(toks, pos) == Ok(ps, pos + 1 + |ParamListTokens(ps)| + 1)
  {
    ParseParamsRoundTrip(toks, pos + 1, ps);
  }

  /** The name and parameter list of a spelled function are read back after its return type. */
  lemma ParseSignatureRoundTrip(toks: seq<Token>, pos: nat, f: Function)
    requires ParamsWellFormed(f.params) && At(toks, pos, SignatureTokens(f))
    ensures ParseSignature(toks, pos, f.returnType)
      == Ok(FunctionHeader(f.returnType, f.name, f.params), pos + |SignatureTokens(f)|)
  {
    SignatureTokensAt(toks, pos, f);
    ParseParamListRoundTrip(toks, pos + 1, f.params);
    assert ParseIdentifier(toks, pos) == Ok(f.name, pos + 1);
  }

  /** The header of a spelled function is read back up to its `)`. */
  lemma ParseFunctionHeaderRoundTrip(toks: seq<Token>, pos: nat, f: Function)
    requires WellFormedType(f.returnType) && ParamsWellFormed(f.params) && At(toks, pos, FunctionTokens(f))
    ensures ParseFunctionHeader(toks, pos) == Ok(FunctionHeader(f.returnType, f.name, f.params),
      pos + |TypeTokens(f.returnType)| + |SignatureTokens(f)|)
  {
    var p1 := pos + |TypeTokens(f.returnType)|;
    FunctionTokensAt(toks, pos, f);
    ParseTypeRoundTrip(toks, pos, f.returnType);
    ParseSignatureRoundTrip(toks, p1, f);
    ParseFunctionHeaderOfParts(toks, pos, f.returnType, p1, FunctionHeader(f.returnType, f.name, f.params),
      p1 + |SignatureTokens(f)|);
  }

  /** A header is a type keyword run read as a type, then a signature. */
  lemma ParseFunctionHeaderOfParts(toks: seq<Token>, pos: nat, ty: Type, p1: nat, h: FunctionHeader, n: nat)
    requires pos < |toks| && IsTypeKeyword(toks[pos].kind)
    requires ParseType(toks, pos) == Ok(ty, p1) && ParseSignature(toks, p1, ty) == Ok(h, n)
    ensures ParseFunctionHeader(toks, pos) == Ok(h, n)
  {
    assert IsTypeName(toks, pos) == Ok(true, pos);
  }

  /** A spelled body, `;` or a block, is read back. */
  lemma ParseFunctionBodyRoundTrip(toks: seq<Token>, pos: nat, body: Option<BlockStmt>, fuel: nat)
    requires body.None? || SpellableStmt(Block(body.value))
    requires At(toks, pos, BodyTokens(body))
    ensures ParseFunctionBody(toks, pos, fuel) == Ok(body, pos + |BodyTokens(body)|)
  {
    if body.Some? {
      BlockTokensAt(toks, pos, body.value.stmts);
      BlockRoundTrip(toks, pos, body.value, fuel);
    } else {
      AtIndex(toks, pos, BodyTokens(body), 0);
    }
  }

  /** A spelled function is read back whole. */
  lemma ParseFunctionRoundTrip(toks: seq<Token>, pos: nat, f: Function, fuel: nat)
    requires Spellable(FunctionUnit(f)) && At(toks, pos, FunctionTokens(f))
    ensures ParseFunction(toks, pos, fuel) == Ok(f, pos + |FunctionTokens(f)|)
  {
    FunctionTokensAt(toks, pos, f);
    ParseFunctionHeaderRoundTrip(toks, pos, f);
    var q := pos + |TypeTokens(f.returnType)| + |SignatureTokens(f)|;
    ParseFunctionBodyRoundTrip(toks, q, f.body, fuel);
    ParseFunctionOfParts(toks, pos, fuel, FunctionHeader(f.returnType, f.name, f.params), q, f.body,
                         q + |BodyTokens(f.body)|);
  }

  /** A function is its header followed by its body. */
  lemma ParseFunctionOfParts(toks: seq<Token>, pos: nat, fuel: nat, h: FunctionHeader, q: nat,
                             body: Option<BlockStmt>, n: nat)
    requires ParseFunctionHeader(toks, pos) == Ok(h, q) && ParseFunctionBody(toks, q, fuel) == Ok(body, n)
    ensures ParseFunction(toks, pos, fuel) == Ok(Function(h.returnType, h.name, h.params, body), n)
  {
  }

  /** The part of a spelled global declaration after its type, `name = ;`, is read back. */
  lemma ParseGlobalTailRoundTrip(toks: seq<Token>, pos: nat, d: GlobalDecl)
    requires d.init.None?
    requires At(toks, pos, [IdentTok(d.name), Tok(Equal), Tok(Semi)])
    ensures ParseGlobalTail(toks, pos, d.ty) == Ok(d, pos + 3)
  {
    AtIndex(toks, pos, [IdentTok(d.name), Tok(Equal), Tok(Semi)], 0);
    AtIndex(toks, pos, [IdentTok(d.name), Tok(Equal), Tok(Semi)], 1);
    AtIndex(toks, pos, [IdentTok(d.name), Tok(Equal), Tok(Semi)], 2);
    assert ParseIdentifier(toks, pos) == Ok(d.name, pos + 1);
  }

  /** A global declaration spelled `type name = ;` is read back whole. */
  lemma ParseGlobalRoundTrip(toks: seq<Token>, pos: nat, d: GlobalDecl)
    requires Spellable(GlobalUnit(d)) && At(toks, pos, GlobalTokens(d))
    ensures ParseGlobalDecl(toks, pos) == Ok(d, pos + |GlobalTokens(d)|)
  {
    var tt := TypeTokens(d.ty);
    AtParts(toks, pos, GlobalTokens(d), tt, [IdentTok(d.name), Tok(Equal), Tok(Semi)]);
    AtIndex(toks, pos + |tt|, [IdentTok(d.name), Tok(Equal), Tok(Semi)], 0);
    ParseTypeRoundTrip(toks, pos, d.ty);
    ParseGlobalTailRoundTrip(toks, pos + |tt|, d);
  }

  /** The spelling of a non-empty sequence of units, split after its first unit. */
  lemma UnitsTokensAt(toks: seq<Token>, pos: nat, us: seq<TopLevel>)
    requires us != [] && At(toks, pos, UnitsTokens(us))
    ensures At(toks, pos, UnitTokens(us[0])) && At(toks, pos + |UnitTokens(us[0])|, UnitsTokens(us[1..]))
    ensures |UnitsTokens(us)| == |UnitTokens(us[0])| + |UnitsTokens(us[1..])|
  {
    AtParts(toks, pos, UnitsTokens(us), UnitTokens(us[0]), UnitsTokens(us[1..]));
  }

  /** A spelled unit is recognised for what it is and read back whole. */
  lemma ParseTopLevelRoundTrip(toks: seq<Token>, pos: nat, u: TopLevel, fuel: nat)
    requires Spellable(u) && At(toks, pos, UnitTokens(u))
    ensures ParseTopLevel(toks, pos, fuel) == Ok(u, pos + |UnitTokens(u)|)
  {
    IsFunctionOnUnit(toks, pos, u);
    AtIndex(toks, pos, UnitTokens(u), 0);
    if u.FunctionUnit? {
      ParseFunctionRoundTrip(toks, pos, u.f, fuel);
    } else {
      ParseGlobalRoundTrip(toks, pos, u.d);
    }
  }

  /** Collecting the first unit, then the rest, collects them all. */
  lemma CollectCons(us: seq<TopLevel>, funcs: seq<Function>, decls: seq<GlobalDecl>)
    requires us != []
    ensures funcs + FunctionOf(us[0]) + FunctionsOf(us[1..]) == funcs + FunctionsOf(us)
    ensures decls + DeclOf(us[0]) + DeclsOf(us[1..]) == decls + DeclsOf(us)
  {
    SeqAssoc(funcs, FunctionOf(us[0]), FunctionsOf(us[1..]));
    SeqAssoc(decls, DeclOf(us[0]), DeclsOf(us[1..]));
  }

  /** What the loop has collected after reading `us` on top of `funcs` and `decls`, unit by unit. */
  ghost function Collect(us: seq<TopLevel>, funcs: seq<Function>, decls: seq<GlobalDecl>): Program
    decreases |us|
  {
    if us == [] then Program(funcs, decls) else Collect(us[1..], funcs + FunctionOf(us[0]), decls + DeclOf(us[0]))
  }

  /** Collecting unit by unit appends the units' functions and globals, each in order. */
  lemma {:induction false} CollectAppends(us: seq<TopLevel>, funcs: seq<Function>, decls: seq<GlobalDecl>)
    ensures Collect(us, funcs, decls) == Program(funcs + FunctionsOf(us), decls + DeclsOf(us))
    decreases |us|
  {
    if us == [] {
      assert funcs + FunctionsOf(us) == funcs && decls + DeclsOf(us) == decls;
    } else {
      CollectAppends(us[1..], funcs + FunctionOf(us[0]), decls + DeclOf(us[0]));
      CollectCons(us, funcs, decls);
    }
  }

  /**
   * From `pos` on, `toks` holds `spell` of each of `xs`, one after the other, up to its end. The
   * spelling is a parameter, so that the layout can be reasoned about without unfolding it.
   */
  ghost predicate LaidOut<X>(toks: seq<Token>, pos: nat, xs: seq<X>, spell: X -> seq<Token>)
    decreases |xs|
  {
    if xs == [] then pos == |toks|
    else At(toks, pos, spell(xs[0])) && LaidOut(toks, pos + |spell(xs[0])|, xs[1..], spell)
  }

  /** The spellings of `xs`, one after the other. */
  ghost function Joined<X>(xs: seq<X>, spell: X -> seq<Token>): seq<Token> {
    if xs == [] then [] else spell(xs[0]) + Joined(xs[1..], spell)
  }

  /** A joined spelling that ends the input is laid out one spelling after the other. */
  lemma {:induction false} LaidOutOfJoined<X>(toks: seq<Token>, pos: nat, xs: seq<X>, spell: X -> seq<Token>)
    requires At(toks, pos, Joined(xs, spell)) && pos + |Joined(xs, spell)| == |toks|
    ensures LaidOut(toks, pos, xs, spell)
    decreases |xs|
  {
    if xs != [] {
      AtParts(toks, pos, Joined(xs, spell), spell(xs[0]), Joined(xs[1..], spell));
      LaidOutOfJoined(toks, pos + |spell(xs[0])|, xs[1..], spell);
    }
  }

  /** The spelling of units is their spellings joined. */
  lemma {:induction false} UnitsTokensJoined(us: seq<TopLevel>)
    ensures UnitsTokens(us) == Joined(us, UnitTokens)
    decreases |us|
  {
    if us != [] {
      UnitsTokensJoined(us[1..]);
    }
  }

  /** From `pos` on, `toks` holds the spellings of the units `us`, one after the other, up to its end. */
  ghost predicate SpelledFrom(toks: seq<Token>, pos: nat, us: seq<TopLevel>) {
    LaidOut(toks, pos, us, UnitTokens)
  }

  /** The first of spelled units is spelled at `pos`, and the rest right after it. */
  lemma SpelledFirst(toks: seq<Token>, pos: nat, us: seq<TopLevel>) returns (next: nat)
    requires us != [] && SpelledFrom(toks, pos, us)
    ensures At(toks, pos, UnitTokens(us[0])) && next == pos + |UnitTokens(us[0])|
    ensures SpelledFrom(toks, next, us[1..])
  {
    next := pos + |UnitTokens(us[0])|;
  }

  /** One turn of the loop reads the first of the spelled units and leaves the cursor on the spelling of the rest. */
  lemma ReadsFirstSpelled(toks: seq<Token>, pos: nat, us: seq<TopLevel>, fuel: nat) returns (next: nat)
    requires us != [] && Spellable(us[0]) && SpelledFrom(toks, pos, us)
    ensures ParseTopLevel(toks, pos, fuel) == Ok(us[0], next)
    ensures SpelledFrom(toks, next, us[1..])
  {
    next := SpelledFirst(toks, pos, us);
    ParseTopLevelRoundTrip(toks, pos, us[0], fuel);
  }

  /** On spelled spellable units, the top-level loop collects them all and ends the input. */
  lemma {:induction false} ParseUnitsOfSpelled(toks: seq<Token>, pos: nat, us: seq<TopLevel>,
                                               funcs: seq<Function>, decls: seq<GlobalDecl>, fuel: nat)
    requires AllSpellable(us) && SpelledFrom(toks, pos, us)
    ensures ParseUnits(toks, pos, funcs, decls, fuel) == Ok(Collect(us, funcs, decls), |toks|)
    decreases |us|
  {
    if us != [] {
      var next := ReadsFirstSpelled(toks, pos, us, fuel);
      ParseUnitsOfSpelled(toks, next, us[1..], funcs + FunctionOf(us[0]), decls + DeclOf(us[0]), fuel);
    }
  }

  /** The spelling of units, on its own, is laid out unit by unit. */
  lemma SpelledWhole(us: seq<TopLevel>)
    ensures SpelledFrom(UnitsTokens(us), 0, us)
  {
    var toks := UnitsTokens(us);
    AtSelf(toks, 0);
    assert toks[0..] == toks;
    UnitsTokensJoined(us);
    LaidOutOfJoined(toks, 0, us, UnitTokens);
  }

  /** Parsing the spelling of a sequence of units yields its functions and its globals, each in order. */
  lemma ParseRoundTrip(us: seq<TopLevel>, fuel: nat)
    requires AllSpellable(us)
    ensures Parse(UnitsTokens(us), fuel) == Ok(Program(FunctionsOf(us), DeclsOf(us)), |UnitsTokens(us)|)
  {
    SpelledWhole(us);
    ParseUnitsOfSpelled(UnitsTokens(us), 0, us, [], [], fuel);
    CollectAppends(us, [], []);
    assert [] + FunctionsOf(us) == FunctionsOf(us) && [] + DeclsOf(us) == DeclsOf(us);
  }
}
