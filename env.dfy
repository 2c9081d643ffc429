/**
 * The variable environment: a chain of scopes, kept here as a stack whose
 * last element is the innermost scope. A block pushes a fresh child scope
 * and pops it when its statements end; `define` writes the innermost
 * scope only; lookup walks from the innermost scope outwards.
 */
module Environment {
  import opened Wrappers
  import opened Values

  type Scope = map<string, Value>

  /** Scope `i` binds `name` and no scope inside it does. */
  predicate InnermostBinding(scopes: seq<Scope>, name: string, i: int) {
    0 <= i < |scopes| && name in scopes[i] && forall j :: i < j < |scopes| ==> name !in scopes[j]
  }

  /** Lookup, innermost scope first; `None` when no scope binds `name`. */
  function LookupIn(scopes: seq<Scope>, name: string): (r: Option<Value>)
    ensures r.None? <==> forall i :: 0 <= i < |scopes| ==> name !in scopes[i]
    ensures forall i :: InnermostBinding(scopes, name, i) ==> r == Some(scopes[i][name])
  {
    if scopes == [] then None
    else if name in scopes[|scopes| - 1] then Some(scopes[|scopes| - 1][name])
    else LookupIn(scopes[..|scopes| - 1], name)
  }

  /** `define`: insert or overwrite `name` in the innermost scope. */
  function DefineIn(scopes: seq<Scope>, name: string, v: Value): (r: seq<Scope>)
    requires |scopes| > 0
    ensures |r| == |scopes|
    ensures r[..|r| - 1] == scopes[..|scopes| - 1]
  {
    scopes[..|scopes| - 1] + [scopes[|scopes| - 1][name := v]]
  }

  /** After `define`, the name is bound to the new value and every other name is untouched. */
  lemma LookupAfterDefine(scopes: seq<Scope>, name: string, v: Value, other: string)
    requires |scopes| > 0
    ensures LookupIn(DefineIn(scopes, name, v), name) == Some(v)
    ensures other != name ==> LookupIn(DefineIn(scopes, name, v), other) == LookupIn(scopes, other)
  {
    var r := DefineIn(scopes, name, v);
    assert r[..|r| - 1] == scopes[..|scopes| - 1];
  }

  /** A binding in an inner scope hides the same name in outer scopes. */
  lemma LookupShadows(scopes: seq<Scope>, inner: Scope, name: string)
    ensures LookupIn(scopes + [inner], name) ==
      if name in inner then Some(inner[name]) else LookupIn(scopes, name)
  {
    assert (scopes + [inner])[..|scopes|] == scopes;
  }

  /** An environment holding the scope stack, updated in place. */
  class Env {
    var scopes: seq<Scope>

    /** There is always a current scope. */
    ghost predicate Valid()
      reads this
    {
      |scopes| > 0
    }

    /** `Env::new`: a root scope with no bindings. */
    constructor ()
      ensures Valid() && scopes == [map[]]
    {
      scopes := [map[]];
    }

    /** `Env::define`. */
    method Define(name: string, v: Value)
      requires Valid()
      modifies this
      ensures Valid()
      ensures scopes == DefineIn(old(scopes), name, v)
    {
      scopes := DefineIn(scopes, name, v);
    }

    /** `Env::child`: a fresh innermost scope. */
    method PushChild()
      requires Valid()
      modifies this
      ensures Valid()
      ensures scopes == old(scopes) + [map[]]
    {
      scopes := scopes + [map[]];
    }

    /** The end of a child's lifetime: its scope and bindings are dropped. */
    method PopChild()
      requires |scopes| > 1
      modifies this
      ensures Valid()
      ensures scopes == old(scopes)[..|old(scopes)| - 1]
    {
      scopes := scopes[..|scopes| - 1];
    }
  }
}
