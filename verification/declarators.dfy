/**
 * Declarator resolution of src/Utilities.cc: the name a declarator declares, and the parameter
 * list that makes it a function declarator. The direct-declarator forms are those of section
 * 6.7.6 of ISO/IEC 9899:2011 that the syntax tree distinguishes.
 */
module Declarators {
  import opened Options

  /** A declarator: its pointer prefix, then a direct declarator. */
  datatype Declarator = Declarator(pointers: nat, direct: DirectDeclarator)

  /**
   * The direct-declarator shapes. The parameter list and the array bound are carried as written;
   * neither function looks at them.
   */
  datatype DirectDeclarator =
    | Ident(name: string)                                           // identifier
    | Parent(inner: Declarator)                                      // ( declarator )
    | ParentParamTypeList(base: DirectDeclarator, params: seq<string>) // direct-declarator ( parameter-type-list )
    | AssignExpr(base: DirectDeclarator, bound: Option<int>)         // direct-declarator [ assignment-expression ]

  /**
   * The direct declarator the visitor descends into from `dd`: the one inside the parentheses,
   * or the one the parameter list or array bound is attached to.
   */
  function Child(dd: DirectDeclarator): (c: DirectDeclarator)
    requires !dd.Ident?
    ensures c < dd
  {
    match dd
    case Parent(inner) => inner.direct
    case ParentParamTypeList(base, _) => base
    case AssignExpr(base, _) => base
  }

  /** The direct declarators the visitor passes through, from `dd` down to the identifier. */
  function Path(dd: DirectDeclarator): seq<DirectDeclarator>
    decreases dd
  {
    if dd.Ident? then [dd] else [dd] + Path(Child(dd))
  }

  /** `getDeclaratorName` on a direct declarator: the identifier at its core. */
  function DirectName(dd: DirectDeclarator): string
    decreases dd
  {
    match dd
    case Ident(name) => name
    case Parent(inner) => DirectName(inner.direct)
    case ParentParamTypeList(base, _) => DirectName(base)
    case AssignExpr(base, _) => DirectName(base)
  }

  /** `getDeclaratorName`: the identifier a declarator declares, the one its path ends at. */
  function DeclaratorName(d: Declarator): (r: string)
    ensures var p := Path(d.direct); |p| > 0 && p[|p| - 1] == Ident(r)
  {
    PathShape(d.direct);
    DirectName(d.direct)
  }

  /**
   * The visitor of `getFuncDeclarator` with the variable it writes: every parameter-list node it
   * passes replaces `found`, which is handed back once the identifier is reached.
   */
  function FuncWalk(dd: DirectDeclarator, found: Option<DirectDeclarator>): Option<DirectDeclarator>
    decreases dd
  {
    match dd
    case Ident(_) => found
    case Parent(inner) => FuncWalk(inner.direct, found)
    case ParentParamTypeList(base, _) => FuncWalk(base, Some(dd))
    case AssignExpr(base, _) => FuncWalk(base, found)
  }

  /**
   * `getFuncDeclarator`: the parameter-list node of a declarator, `None` standing for null. It is
   * null exactly when no parameter-list node lies on the path to the identifier, and otherwise
   * the innermost one.
   */
  function GetFuncDeclarator(d: Declarator): (r: Option<DirectDeclarator>)
    ensures r.None? <==> NoParamList(Path(d.direct))
    ensures r.Some? ==> LastParamList(Path(d.direct), r.value)
  {
    FuncWalkSpec(d.direct, None);
    FuncWalk(d.direct, None)
  }

  // ---------------------------------------------------------------------------------------------
  // Properties
  // ---------------------------------------------------------------------------------------------

  /**
   * The path starts at the declarator itself, descends one child at a step and ends at the
   * identifier, which is the name `getDeclaratorName` returns.
   */
  lemma {:induction false} PathShape(dd: DirectDeclarator)
    ensures var p := Path(dd);
      && |p| > 0 && p[0] == dd
      && p[|p| - 1].Ident? && p[|p| - 1].name == DirectName(dd)
      && (forall i :: 0 <= i < |p| - 1 ==> !p[i].Ident? && p[i + 1] == Child(p[i]))
    decreases dd
  {
    if !dd.Ident? {
      PathShape(Child(dd));
      var p := Path(dd);
      assert p[1..] == Path(Child(dd));
      forall i | 0 <= i < |p| - 1
        ensures !p[i].Ident? && p[i + 1] == Child(p[i])
      {
        if i > 0 {
          assert p[i] == p[1..][i - 1] && p[i + 1] == p[1..][i];
        }
      }
    }
  }

  /** A bare identifier is its own name. */
  lemma IdentName(pointers: nat, name: string)
    ensures DeclaratorName(Declarator(pointers, Ident(name))) == name
  {
  }

  /** Parentheses, a parameter list and an array bound do not change the name. */
  lemma WrappersTransparent(d: Declarator, dd: DirectDeclarator, params: seq<string>, bound: Option<int>)
    ensures DirectName(Parent(d)) == DeclaratorName(d)
    ensures DirectName(ParentParamTypeList(dd, params)) == DirectName(dd)
    ensures DirectName(AssignExpr(dd, bound)) == DirectName(dd)
  {
  }

  /** No node of the path `p` is a parameter-list node. */
  predicate NoParamList(p: seq<DirectDeclarator>) {
    forall i :: 0 <= i < |p| ==> !p[i].ParentParamTypeList?
  }

  /** `n` is the last parameter-list node of `p`. */
  predicate LastParamList(p: seq<DirectDeclarator>, n: DirectDeclarator) {
    exists i :: 0 <= i < |p| && p[i] == n && n.ParentParamTypeList? && NoParamList(p[i + 1..])
  }

  /**
   * The walk keeps `found` when its path holds no parameter-list node, and otherwise returns the
   * last one it passes.
   */
  lemma {:induction false} FuncWalkSpec(dd: DirectDeclarator, found: Option<DirectDeclarator>)
    ensures NoParamList(Path(dd)) ==> FuncWalk(dd, found) == found
    ensures !NoParamList(Path(dd)) ==> FuncWalk(dd, found).Some? && LastParamList(Path(dd), FuncWalk(dd, found).value)
    decreases dd
  {
    var p := Path(dd);
    if !dd.Ident? {
      var c := Child(dd);
      var next := if dd.ParentParamTypeList? then Some(dd) else found;
      FuncWalkSpec(c, next);
      assert p == [dd] + Path(c);
      assert FuncWalk(dd, found) == FuncWalk(c, next);
      if NoParamList(Path(c)) {
        if dd.ParentParamTypeList? {
          assert p[0 + 1..] == Path(c);
          assert p[0] == dd && NoParamList(p[0 + 1..]);
        } else {
          forall i | 0 <= i < |p|
            ensures !p[i].ParentParamTypeList?
          {
            if i > 0 {
              assert p[i] == Path(c)[i - 1];
            }
          }
        }
      } else {
        var r := FuncWalk(c, next).value;
        var i :| 0 <= i < |Path(c)| && Path(c)[i] == r && r.ParentParamTypeList? && NoParamList(Path(c)[i + 1..]);
        assert p[i + 1] == r && p[i + 2..] == Path(c)[i + 1..];
        assert LastParamList(p, r);
      }
    }
  }

  /** Every direct declarator on the path declares the same name as the one the path starts at. */
  lemma {:induction false} PathKeepsName(dd: DirectDeclarator)
    ensures forall i :: 0 <= i < |Path(dd)| ==> DirectName(Path(dd)[i]) == DirectName(dd)
    decreases dd
  {
    if !dd.Ident? {
      var c := Child(dd);
      PathKeepsName(c);
      var p := Path(dd);
      assert p == [dd] + Path(c);
      forall i | 0 <= i < |p|
        ensures DirectName(p[i]) == DirectName(dd)
      {
        if i > 0 {
          assert p[i] == Path(c)[i - 1];
        }
      }
    }
  }

  /**
   * Both resolvers walk the same path: the parameter-list node `getFuncDeclarator` returns lies on
   * the path to the identifier and declares the name `getDeclaratorName` returns.
   */
  lemma FuncDeclaratorOnNamePath(d: Declarator)
    ensures GetFuncDeclarator(d).Some? ==>
      var n := GetFuncDeclarator(d).value;
      n in Path(d.direct) && n.ParentParamTypeList? && DirectName(n) == DeclaratorName(d)
  {
    PathKeepsName(d.direct);
  }

  /**
   * `int (*f(int))(double)`: `f` is a function taking `int` and returning a pointer to a function
   * taking `double`. The inner list `(int)` is the one returned.
   */
  lemma InnermostParamListWins()
    ensures var inner := ParentParamTypeList(Ident("f"), ["int"]);
      var outer := ParentParamTypeList(Parent(Declarator(1, inner)), ["double"]);
      GetFuncDeclarator(Declarator(0, outer)) == Some(inner) && DeclaratorName(Declarator(0, outer)) == "f"
  {
  }
}
