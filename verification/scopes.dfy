/**
 * The variable scopes of the code generator, src/CodeGenContext.h: a stack of local tables, the
 * innermost last, and one global table. The bound value is left abstract as `V`; where the source
 * value-initialises a missing entry, the default is passed in as `dflt`.
 */
module Scopes {
  import opened Options

  datatype Scopes<V> = Scopes(locals: seq<map<string, V>>, globals: map<string, V>)

  /** A binding found by `FindVar`, with the state the lookup leaves behind. */
  datatype Found<V> = Found(value: V, state: Scopes<V>)

  /** `name` is bound in the local table at `i`, and in none nearer the top of the stack. */
  predicate InnermostAt<V>(locals: seq<map<string, V>>, name: string, i: int) {
    0 <= i < |locals| && name in locals[i] && forall j :: i < j < |locals| ==> name !in locals[j]
  }

  /** `name` is bound in some local table. */
  predicate BoundLocally<V>(locals: seq<map<string, V>>, name: string) {
    exists i :: 0 <= i < |locals| && name in locals[i]
  }

  /** The search of `FindVar` through the local tables, from the top of the stack down. */
  function LookupLocal<V>(locals: seq<map<string, V>>, name: string): (r: Option<V>)
    ensures r.None? <==> !BoundLocally(locals, name)
    ensures r.Some? ==> exists i :: InnermostAt(locals, name, i) && r.value == locals[i][name]
    decreases |locals|
  {
    if locals == [] then None
    else
      var top := |locals| - 1;
      if name in locals[top] then
        assert InnermostAt(locals, name, top);
        Some(locals[top][name])
      else
        var r := LookupLocal(locals[..top], name);
        assert forall i :: 0 <= i < top ==> locals[..top][i] == locals[i];
        assert r.Some? ==> exists i :: InnermostAt(locals, name, i) && r.value == locals[i][name] by {
          if r.Some? {
            var i :| InnermostAt(locals[..top], name, i) && r.value == locals[..top][i][name];
            assert InnermostAt(locals, name, i);
          }
        }
        r
  }

  /** `AddLocal`: binds `name` in the top table; the stack must not be empty. */
  function AddLocal<V>(s: Scopes<V>, name: string, v: V): (r: Scopes<V>)
    requires |s.locals| > 0
    ensures |r.locals| == |s.locals| && r.globals == s.globals
    ensures forall i :: 0 <= i < |s.locals| - 1 ==> r.locals[i] == s.locals[i]
    ensures var top := |s.locals| - 1;
      && r.locals[top].Keys == s.locals[top].Keys + {name} && r.locals[top][name] == v
      && forall n :: n in s.locals[top] && n != name ==> r.locals[top][n] == s.locals[top][n]
  {
    var top := |s.locals| - 1;
    s.(locals := s.locals[top := s.locals[top][name := v]])
  }

  /** `AddGlobal`: binds `name` in the global table, replacing any earlier binding. */
  function AddGlobal<V>(s: Scopes<V>, name: string, v: V): (r: Scopes<V>)
    ensures r.locals == s.locals
    ensures name in r.globals && r.globals[name] == v
    ensures forall n :: n != name ==> (n in r.globals <==> n in s.globals)
    ensures forall n :: n != name && n in s.globals ==> r.globals[n] == s.globals[n]
  {
    s.(globals := s.globals[name := v])
  }

  /**
   * `FindVar`: the binding in the innermost local table that has `name`; failing that, the global
   * one. Reading a missing global inserts the default value, which is then returned.
   */
  function FindVar<V>(s: Scopes<V>, name: string, dflt: V): (r: Found<V>)
    ensures BoundLocally(s.locals, name) ==>
      r.state == s && exists i :: InnermostAt(s.locals, name, i) && r.value == s.locals[i][name]
    ensures !BoundLocally(s.locals, name) && name in s.globals ==> r == Found(s.globals[name], s)
    ensures !BoundLocally(s.locals, name) && name !in s.globals ==>
      r.value == dflt && r.state.locals == s.locals &&
      r.state.globals.Keys == s.globals.Keys + {name} &&
      r.state.globals[name] == dflt && forall n :: n in s.globals ==> r.state.globals[n] == s.globals[n]
  {
    match LookupLocal(s.locals, name)
    case Some(v) => Found(v, s)
    case None =>
      if name in s.globals then Found(s.globals[name], s)
      else Found(dflt, s.(globals := s.globals[name := dflt]))
  }

  /** `PushScope`: one more, empty, local table on top. */
  function PushScope<V>(s: Scopes<V>): (r: Scopes<V>)
    ensures |r.locals| == |s.locals| + 1 && r.locals[..|s.locals|] == s.locals
    ensures r.locals[|s.locals|] == map[] && r.globals == s.globals
  {
    s.(locals := s.locals + [map[]])
  }

  /** `PopScope`: drops the top local table; the stack must not be empty. */
  function PopScope<V>(s: Scopes<V>): (r: Scopes<V>)
    requires |s.locals| > 0
    ensures |r.locals| == |s.locals| - 1 && r.globals == s.globals
    ensures forall i :: 0 <= i < |r.locals| ==> r.locals[i] == s.locals[i]
  {
    s.(locals := s.locals[..|s.locals| - 1])
  }

  /** `ClearScope`: every local table is dropped and one empty table is pushed. */
  function ClearScope<V>(s: Scopes<V>): (r: Scopes<V>)
    ensures r.locals == [map[]] && r.globals == s.globals
  {
    PushScope(s.(locals := []))
  }

  // ---------------------------------------------------------------------------------------------
  // Properties
  // ---------------------------------------------------------------------------------------------

  /** A pop undoes a push. */
  lemma PushPopRestores<V>(s: Scopes<V>)
    ensures PopScope(PushScope(s)) == s
  {
    assert PopScope(PushScope(s)).locals == s.locals;
  }

  /** A name just added to the top table is found there, and the lookup changes nothing. */
  lemma FindAfterAddLocal<V>(s: Scopes<V>, name: string, v: V, dflt: V)
    requires |s.locals| > 0
    ensures FindVar(AddLocal(s, name, v), name, dflt) == Found(v, AddLocal(s, name, v))
  {
    var r := AddLocal(s, name, v);
    assert InnermostAt(r.locals, name, |r.locals| - 1);
  }

  /** Adding `name` to the top table does not change what any other name finds. */
  lemma AddLocalFrame<V>(s: Scopes<V>, name: string, v: V, other: string, dflt: V)
    requires |s.locals| > 0 && other != name
    ensures FindVar(AddLocal(s, name, v), other, dflt).value == FindVar(s, other, dflt).value
  {
    var r := AddLocal(s, name, v);
    forall i | 0 <= i < |s.locals|
      ensures other in r.locals[i] <==> other in s.locals[i]
      ensures other in s.locals[i] ==> r.locals[i][other] == s.locals[i][other]
    {
    }
    assert BoundLocally(r.locals, other) <==> BoundLocally(s.locals, other);
    if BoundLocally(s.locals, other) {
      var f, g := FindVar(s, other, dflt), FindVar(r, other, dflt);
      var i :| InnermostAt(s.locals, other, i) && f.value == s.locals[i][other];
      var k :| InnermostAt(r.locals, other, k) && g.value == r.locals[k][other];
      assert InnermostAt(s.locals, other, k);
      InnermostUnique(s.locals, other, i, k);
    }
  }

  /**
   * A name added to the global table is found there unless a local table shadows it; either way
   * the lookup changes nothing.
   */
  lemma FindAfterAddGlobal<V>(s: Scopes<V>, name: string, v: V, dflt: V)
    ensures var r := FindVar(AddGlobal(s, name, v), name, dflt);
      r.state == AddGlobal(s, name, v) &&
      r.value == if BoundLocally(s.locals, name) then FindVar(s, name, dflt).value else v
  {
    if BoundLocally(s.locals, name) {
      var f, g := FindVar(s, name, dflt), FindVar(AddGlobal(s, name, v), name, dflt);
      var i :| InnermostAt(s.locals, name, i) && f.value == s.locals[i][name];
      var k :| InnermostAt(s.locals, name, k) && g.value == s.locals[k][name];
      InnermostUnique(s.locals, name, i, k);
    }
  }

  /** The table that binds a name innermost is unique. */
  lemma InnermostUnique<V>(locals: seq<map<string, V>>, name: string, i: int, k: int)
    requires InnermostAt(locals, name, i) && InnermostAt(locals, name, k)
    ensures i == k
  {
  }

  /** A fresh scope hides nothing: every name finds what it found before. */
  lemma PushScopeFrame<V>(s: Scopes<V>, name: string, dflt: V)
    ensures FindVar(PushScope(s), name, dflt).value == FindVar(s, name, dflt).value
  {
    var r := PushScope(s);
    assert forall i :: 0 <= i < |s.locals| ==> r.locals[i] == s.locals[i];
    assert BoundLocally(r.locals, name) <==> BoundLocally(s.locals, name);
    if BoundLocally(s.locals, name) {
      var f, g := FindVar(s, name, dflt), FindVar(r, name, dflt);
      var i :| InnermostAt(s.locals, name, i) && f.value == s.locals[i][name];
      var k :| InnermostAt(r.locals, name, k) && g.value == r.locals[k][name];
      assert InnermostAt(r.locals, name, i);
      InnermostUnique(r.locals, name, i, k);
    }
  }

  /** After `ClearScope` only the global table is searched. */
  lemma FindAfterClear<V>(s: Scopes<V>, name: string, dflt: V)
    ensures FindVar(ClearScope(s), name, dflt).value == if name in s.globals then s.globals[name] else dflt
  {
    assert !BoundLocally(ClearScope(s).locals, name);
  }

  /** A second lookup of the same name finds the same value and changes nothing more. */
  lemma FindVarIdempotent<V>(s: Scopes<V>, name: string, dflt: V)
    ensures var r := FindVar(s, name, dflt);
      FindVar(r.state, name, dflt) == r
  {
    var r := FindVar(s, name, dflt);
    if BoundLocally(s.locals, name) {
      var i :| InnermostAt(s.locals, name, i) && r.value == s.locals[i][name];
      var k :| InnermostAt(s.locals, name, k) && FindVar(r.state, name, dflt).value == s.locals[k][name];
      InnermostUnique(s.locals, name, i, k);
    }
  }

  /**
   * Shadowing: `push; add x a; push; add x b` makes `x` find `b`, and after one pop it finds `a`
   * again.
   */
  lemma Shadowing<V>(s: Scopes<V>, x: string, a: V, b: V, dflt: V)
    ensures var s1 := AddLocal(PushScope(s), x, a);
      var s2 := AddLocal(PushScope(s1), x, b);
      FindVar(s2, x, dflt).value == b && FindVar(PopScope(s2), x, dflt).value == a
  {
    var s1 := AddLocal(PushScope(s), x, a);
    var s2 := AddLocal(PushScope(s1), x, b);
    FindAfterAddLocal(PushScope(s1), x, b, dflt);
    FindAfterAddLocal(PushScope(s), x, a, dflt);
    assert PopScope(s2) == s1;
  }
}
