/** The chain of scopes that expressions are evaluated and declarations executed
    against. Each C++ Environment holds one map of bindings and a pointer to its parent;
    here the chain is a non-empty sequence of scopes, the root first and the innermost
    scope last. A block pushes one scope at the end and pops it when it is done. */
module Environment {
  import opened Results
  import opened Values

  type Scope = map<string, Literal>

  /** A chain of scopes: never empty, since the root scope lives for the whole run. */
  type Env = e: seq<Scope> | |e| > 0 witness [map[]]

  /** The root environment a program starts from. */
  const Root: Env := [map[]]

  /** The value of `name` in the innermost scope that binds it, searching outward. */
  function Lookup(env: seq<Scope>, name: string): (r: Option<Literal>)
    ensures r.Some? <==> exists i :: 0 <= i < |env| && name in env[i]
    ensures r.Some? ==>
      exists i :: 0 <= i < |env| && name in env[i] && r.value == env[i][name]
        && forall j :: i < j < |env| ==> name !in env[j]
    decreases |env|
  {
    if |env| == 0 then None
    else if name in env[|env| - 1] then Some(env[|env| - 1][name])
    else Lookup(env[..|env| - 1], name)
  }

  /** All visible bindings as one map: an inner binding hides an outer one. */
  function Flatten(env: seq<Scope>): map<string, Literal>
    decreases |env|
  {
    if |env| == 0 then map[] else Flatten(env[..|env| - 1]) + env[|env| - 1]
  }

  /** Searching the chain scope by scope finds what the flattened view shows. */
  lemma {:induction false} LookupFlatten(env: seq<Scope>, name: string)
    ensures Lookup(env, name) == if name in Flatten(env) then Some(Flatten(env)[name]) else None
    decreases |env|
  {
    if |env| > 0 {
      LookupFlatten(env[..|env| - 1], name);
    }
  }

  /** Bind `name` in the innermost scope, replacing a binding of the same name there. */
  function Define(env: Env, name: string, v: Literal): (r: Env)
    ensures |r| == |env| && r[..|r| - 1] == env[..|env| - 1]
    ensures r[|r| - 1].Keys == env[|env| - 1].Keys + {name}
    ensures Lookup(r, name) == Some(v)
    ensures forall other :: other != name ==> Lookup(r, other) == Lookup(env, other)
  {
    env[..|env| - 1] + [env[|env| - 1][name := v]]
  }

  /** Scope `i` of the chain is the innermost one that binds `name`. */
  predicate InnermostBinder(env: seq<Scope>, name: string, i: int) {
    0 <= i < |env| && name in env[i] && forall j :: i < j < |env| ==> name !in env[j]
  }

  /** Rebind `name` in the innermost scope that binds it; None when no scope does. The
      scopes outside and inside that one, and its other bindings, stay as they were. */
  function Assign(env: Env, name: string, v: Literal): (r: Option<Env>)
    ensures r.Some? <==> Lookup(env, name).Some?
    ensures r.Some? ==> SameKeys(env, r.value)
    ensures r.Some? ==> exists i :: InnermostBinder(env, name, i) && r.value == env[i := env[i][name := v]]
    decreases |env|
  {
    var top := env[|env| - 1];
    if name in top then
      assert InnermostBinder(env, name, |env| - 1);
      assert env[..|env| - 1] + [top[name := v]] == env[|env| - 1 := top[name := v]];
      Some(env[..|env| - 1] + [top[name := v]])
    else if |env| == 1 then None
    else
      var outer := Assign(env[..|env| - 1], name, v);
      if outer.None? then None
      else
        AssignOuter(env, env[..|env| - 1], top, name, v, outer.value);
        Some(outer.value + [top])
  }

  /** When the innermost scope `top` does not bind `name`, rebinding it in the outer
      chain and keeping `top` rebinds it in the whole chain. */
  lemma AssignOuter(env: Env, prefix: Env, top: Scope, name: string, v: Literal, outer: Env)
    requires env == prefix + [top] && name !in top
    requires exists i :: InnermostBinder(prefix, name, i) && outer == prefix[i := prefix[i][name := v]]
    ensures exists i :: InnermostBinder(env, name, i) && outer + [top] == env[i := env[i][name := v]]
  {
    var i :| InnermostBinder(prefix, name, i) && outer == prefix[i := prefix[i][name := v]];
    assert InnermostBinder(env, name, i);
    assert outer + [top] == env[i := env[i][name := v]];
  }

  /** After a successful assignment `name` reads `v` and every other name reads as before. */
  lemma AssignLookup(env: Env, name: string, v: Literal, other: string)
    requires Assign(env, name, v).Some?
    ensures Lookup(Assign(env, name, v).value, name) == Some(v)
    ensures other != name ==> Lookup(Assign(env, name, v).value, other) == Lookup(env, other)
  {
    AssignReadsNew(env, name, v);
    if other != name {
      AssignKeepsOthers(env, name, v, other);
    }
  }

  /** The assigned name reads the new value. */
  lemma {:induction false} AssignReadsNew(env: Env, name: string, v: Literal)
    requires Assign(env, name, v).Some?
    ensures Lookup(Assign(env, name, v).value, name) == Some(v)
    decreases |env|
  {
    var top := env[|env| - 1];
    var r := Assign(env, name, v).value;
    if name in top {
      assert r[|r| - 1] == top[name := v];
    } else {
      var outer := Assign(env[..|env| - 1], name, v).value;
      AssignReadsNew(env[..|env| - 1], name, v);
      assert r == outer + [top];
      assert r[..|r| - 1] == outer;
    }
  }

  /** Every other name reads as before the assignment. */
  lemma {:induction false} AssignKeepsOthers(env: Env, name: string, v: Literal, other: string)
    requires Assign(env, name, v).Some? && other != name
    ensures Lookup(Assign(env, name, v).value, other) == Lookup(env, other)
    decreases |env|
  {
    var top := env[|env| - 1];
    var r := Assign(env, name, v).value;
    if name in top {
      assert r[..|r| - 1] == env[..|env| - 1];
    } else {
      var outer := Assign(env[..|env| - 1], name, v).value;
      AssignKeepsOthers(env[..|env| - 1], name, v, other);
      assert r == outer + [top];
      assert r[..|r| - 1] == outer;
    }
  }

  /** Two chains of the same depth whose scopes bind the same names, whatever the values. */
  predicate SameKeys(a: seq<Scope>, b: seq<Scope>) {
    |a| == |b| && forall i :: 0 <= i < |a| ==> a[i].Keys == b[i].Keys
  }

  /** Chains with the same names bound see the same names. */
  lemma {:induction false} SameKeysLookup(a: seq<Scope>, b: seq<Scope>, name: string)
    requires SameKeys(a, b)
    ensures Lookup(a, name).Some? <==> Lookup(b, name).Some?
  {
    if Lookup(a, name).Some? {
      var i :| 0 <= i < |a| && name in a[i];
      assert name in b[i];
    }
    if Lookup(b, name).Some? {
      var i :| 0 <= i < |b| && name in b[i];
      assert name in a[i];
    }
  }

  /** The fresh child scope of a block. */
  function PushScope(env: Env): (r: Env)
    ensures |r| == |env| + 1 && r[..|env|] == env && r[|env|] == map[]
  {
    env + [map[]]
  }

  /** Discard the innermost scope when its block is done. */
  function PopScope(env: Env): (r: Env)
    requires |env| > 1
    ensures |r| == |env| - 1 && forall i :: 0 <= i < |r| ==> r[i] == env[i]
  {
    env[..|env| - 1]
  }

  /** Popping a freshly pushed scope gives back the chain, and the empty child scope
      hides nothing. */
  lemma PushPop(env: Env, name: string)
    ensures PopScope(PushScope(env)) == env
    ensures Lookup(PushScope(env), name) == Lookup(env, name)
  {
    assert PushScope(env)[..|env|] == env;
  }
}
