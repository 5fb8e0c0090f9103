/**
 * What the top level of the parser of src/Parser.cc can produce: every program it yields is the
 * functions and global declarations of a sequence of units that `Spelling` spells. With
 * `ParserFacts.ParseRoundTrip`, which reads every such sequence back, this characterises the
 * outputs of `Parse` exactly.
 */
module ParserYields {
  import opened Tokens
  import opened Ast
  import opened Parser
  import opened Spelling
  import opened StatementFacts
  import opened ParserFacts

  /** Pointer wrappers keep the primary type they wrap. */
  lemma {:induction false} BaseOfPointers(n: nat, t: Type)
    ensures BaseType(Pointers(n, t)) == BaseType(t)
    decreases n
  {
    if n > 0 {
      BaseOfPointers(n - 1, t);
    }
  }

  /**
   * A parsed type has a non-empty specifier run; it is a primary type exactly when no `*`
   * follows the run of type keywords.
   */
  lemma TypeYields(toks: seq<Token>, pos: nat)
    ensures ParseType(toks, pos).Ok? ==>
      && WellFormedType(ParseType(toks, pos).value)
      && TypeRunEnd(toks, pos) < |toks|
      && (ParseType(toks, pos).value.PrimaryType? <==> toks[TypeRunEnd(toks, pos)].kind != Star)
  {
    var r1 := ParseTypeKinds(toks, pos);
    ParseTypeKindsSpec(toks, pos);
    if r1.Ok? && r1.value != [] {
      var base := PrimaryType(r1.value);
      var r2 := ParsePointers(toks, r1.next, base);
      ParsePointersSpec(toks, r1.next, base);
      if r2.Ok? {
        BaseOfPointers(r2.next - r1.next, base);
      }
    }
  }

  /** Every parameter list the parser yields has well-formed types. */
  lemma {:induction false} ParamsYield(toks: seq<Token>, pos: nat)
    ensures ParseParams(toks, pos).Ok? ==> ParamsWellFormed(ParseParams(toks, pos).value)
    decreases |toks| - pos
  {
    if pos < |toks| && toks[pos].kind != RParen {
      var r2 := ParseParam(toks, pos);
      TypeYields(toks, pos);
      if r2.Ok? {
        ParamsYield(toks, r2.next);
        var r3 := ParseParams(toks, r2.next);
        if r3.Ok? {
          assert ([r2.value] + r3.value)[1..] == r3.value;
        }
      }
    }
  }

  /** A parsed header has a well-formed return type and well-formed parameters. */
  lemma HeaderYields(toks: seq<Token>, pos: nat)
    ensures ParseFunctionHeader(toks, pos).Ok? ==>
      var h := ParseFunctionHeader(toks, pos).value;
      && ParseType(toks, pos).Ok? && h.returnType == ParseType(toks, pos).value
      && ParamsWellFormed(h.params)
  {
    var r2 := ParseType(toks, pos);
    if r2.Ok? {
      var r1 := ParseIdentifier(toks, r2.next);
      if r1.Ok? {
        ParamsYield(toks, r1.next + 1);
      }
    }
  }

  /** A parsed body is absent or a block of statements `Spelling` spells. */
  lemma BodyYields(toks: seq<Token>, pos: nat, fuel: nat)
    ensures ParseFunctionBody(toks, pos, fuel).Ok? && ParseFunctionBody(toks, pos, fuel).value.Some? ==>
      SpellableStmt(Block(ParseFunctionBody(toks, pos, fuel).value.value))
  {
    BlockYields(toks, pos, fuel);
  }

  /**
   * Every unit the top-level loop yields is one `Spelling` spells: a function with a primary
   * return type, or a global declaration `type name = ;`.
   */
  lemma TopLevelYields(toks: seq<Token>, pos: nat, fuel: nat)
    ensures ParseTopLevel(toks, pos, fuel).Ok? ==> Spellable(ParseTopLevel(toks, pos, fuel).value)
  {
    var r1 := IsFunction(toks, pos);
    IsFunctionSpec(toks, pos);
    TypeYields(toks, pos);
    if r1.Ok? {
      if r1.value {
        var h := ParseFunctionHeader(toks, pos);
        HeaderYields(toks, pos);
        if h.Ok? {
          BodyYields(toks, h.next, fuel);
        }
      }
    }
  }

  /**
   * The top-level loop collects the functions and globals of a sequence of spellable units on
   * top of what it had already collected.
   */
  lemma {:induction false} UnitsYield(toks: seq<Token>, pos: nat, funcs: seq<Function>, decls: seq<GlobalDecl>,
                                      fuel: nat) returns (us: seq<TopLevel>)
    ensures ParseUnits(toks, pos, funcs, decls, fuel).Ok? ==>
      AllSpellable(us) && ParseUnits(toks, pos, funcs, decls, fuel).value == Collect(us, funcs, decls)
    decreases |toks| - pos
  {
    us := [];
    if pos != |toks| {
      var r1 := ParseTopLevel(toks, pos, fuel);
      assert ParseUnits(toks, pos, funcs, decls, fuel) == ParseNextUnit(toks, pos, funcs, decls, fuel);
      if r1.Ok? {
        TopLevelYields(toks, pos, fuel);
        var rest := UnitsYield(toks, r1.next, funcs + FunctionOf(r1.value), decls + DeclOf(r1.value), fuel);
        us := [r1.value] + rest;
        assert us[0] == r1.value && us[1..] == rest;
      }
    }
  }

  /**
   * Every program the parser yields is the functions and the globals, each in order, of some
   * sequence of units `Spelling` spells. `ParseRoundTrip` is the converse.
   */
  lemma ParseYields(toks: seq<Token>, fuel: nat)
    ensures Parse(toks, fuel).Ok? ==>
      exists us :: AllSpellable(us) && Parse(toks, fuel).value == Program(FunctionsOf(us), DeclsOf(us))
  {
    var us := UnitsYield(toks, 0, [], [], fuel);
    CollectAppends(us, [], []);
    assert [] + FunctionsOf(us) == FunctionsOf(us) && [] + DeclsOf(us) == DeclsOf(us);
  }
}
