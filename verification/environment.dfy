/**
  Lexical scopes (src/environment.rs). The source links scopes with
  `Rc<RefCell<Env>>` parent links, and closures keep a reference to the
  scope they were made in. Here every scope ever created is a frame in one
  sequence, a parent is a smaller index, and an environment is the sequence
  with the index of its innermost frame; a closure keeps a frame index.

  The chain of frames from the innermost to the outermost is the scope stack
  `Scopes(env)`, and the operations are related to reference definitions on
  that stack (`LookupScopes`, `PutScopes`).
*/
module Environment {
  import opened Wrappers
  import opened Values
  import Ast

  datatype Frame = Frame(variables: map<string, Value>, parent: Option<nat>)

  datatype Env = Env(frames: seq<Frame>, current: nat)

  predicate ParentsBelow(frames: seq<Frame>) {
    forall i :: 0 <= i < |frames| && frames[i].parent.Some? ==> frames[i].parent.value < i
  }

  /**
    `b` binds the same names as `a` to the same values, except for bindings
    to `value`: the effect of assigning or declaring `value`.
  */
  predicate OnlyBinds(a: seq<Frame>, b: seq<Frame>, value: Value) {
    |a| == |b| &&
    forall j, k :: 0 <= j < |b| && k in b[j].variables ==>
      b[j].variables[k] == value || (k in a[j].variables && b[j].variables[k] == a[j].variables[k])
  }

  predicate Valid(env: Env) {
    ParentsBelow(env.frames) && env.current < |env.frames|
  }

  // ---- The scope-stack view and its reference operations ----

  /** The variables of frame `id` and of its ancestors, innermost first. */
  function ScopesOf(frames: seq<Frame>, id: nat): (s: seq<map<string, Value>>)
    requires ParentsBelow(frames) && id < |frames|
    ensures |s| > 0 && s[0] == frames[id].variables
    decreases id
  {
    var f := frames[id];
    [f.variables] + if f.parent.Some? then ScopesOf(frames, f.parent.value) else []
  }

  function Scopes(env: Env): seq<map<string, Value>>
    requires Valid(env)
  {
    ScopesOf(env.frames, env.current)
  }

  /** Reference lookup: the value in the first scope that defines `key`. */
  function LookupScopes(scopes: seq<map<string, Value>>, key: string): (r: Option<Value>)
    ensures r.Some? <==> exists i :: 0 <= i < |scopes| && key in scopes[i]
  {
    if |scopes| == 0 then None
    else if key in scopes[0] then Some(scopes[0][key])
    else
      var r := LookupScopes(scopes[1..], key);
      assert forall i :: 1 <= i < |scopes| ==> scopes[i] == scopes[1..][i - 1];
      r
  }

  /** Position of the first scope that defines `key`, or `|scopes|` when none does. */
  function FirstDefining(scopes: seq<map<string, Value>>, key: string): (i: nat)
    ensures i <= |scopes|
    ensures forall j :: 0 <= j < i ==> key !in scopes[j]
    ensures i < |scopes| ==> key in scopes[i]
  {
    if |scopes| == 0 || key in scopes[0] then 0 else 1 + FirstDefining(scopes[1..], key)
  }

  /** Reference assignment: overwrite `key` in the first scope that defines it. */
  function PutScopes(scopes: seq<map<string, Value>>, key: string, value: Value): (r: Option<seq<map<string, Value>>>)
    ensures r.Some? <==> LookupScopes(scopes, key).Some?
    ensures var i := FirstDefining(scopes, key);
      r.Some? ==> i < |scopes| && r.value == scopes[i := scopes[i][key := value]]
  {
    if |scopes| == 0 then None
    else if key in scopes[0] then
      var r := [scopes[0][key := value]] + scopes[1..];
      assert r == scopes[0 := scopes[0][key := value]];
      Some(r)
    else
      match PutScopes(scopes[1..], key, value)
      case None => None
      case Some(rest) =>
        var r := [scopes[0]] + rest;
        ghost var i := FirstDefining(scopes[1..], key);
        assert r == scopes[i + 1 := scopes[i + 1][key := value]];
        Some(r)
  }

  // ---- The operations of src/environment.rs ----

  /** `Environment::new`: one empty root frame. */
  function New(): (env: Env)
    ensures Valid(env) && Scopes(env) == [map[]]
  {
    Env([Frame(map[], None)], 0)
  }

  /** `Env::get`, walking from frame `id` towards the root. */
  function Lookup(frames: seq<Frame>, id: nat, key: string): (r: Option<Value>)
    requires ParentsBelow(frames) && id < |frames|
    ensures r.Some? ==> exists j :: 0 <= j < |frames| && key in frames[j].variables && r.value == frames[j].variables[key]
    decreases id
  {
    var f := frames[id];
    if key in f.variables then Some(f.variables[key])
    else if f.parent.Some? then Lookup(frames, f.parent.value, key)
    else None
  }

  /** `Environment::get`: the value in the nearest scope that defines `key`. */
  function Get(env: Env, key: string): (r: Option<Value>)
    requires Valid(env)
    ensures r == LookupScopes(Scopes(env), key)
    ensures r.Some? ==> exists j :: 0 <= j < |env.frames| && key in env.frames[j].variables && r.value == env.frames[j].variables[key]
  {
    LookupMatchesScopes(env.frames, env.current, key);
    Lookup(env.frames, env.current, key)
  }

  /** `Env::put`, from frame `id`: overwrite the binding in the nearest frame defining `key`. */
  function Update(frames: seq<Frame>, id: nat, key: string, value: Value): (r: Option<seq<Frame>>)
    requires ParentsBelow(frames) && id < |frames|
    ensures r.Some? <==> Lookup(frames, id, key).Some?
    ensures r.Some? ==> |r.value| == |frames| && ParentsBelow(r.value)
    ensures r.Some? ==> forall j :: 0 <= j < |frames| ==> r.value[j].parent == frames[j].parent
    ensures r.Some? ==> forall j :: id < j < |frames| ==> r.value[j] == frames[j]
    ensures r.Some? ==> OnlyBinds(frames, r.value, value)
    decreases id
  {
    var f := frames[id];
    if key in f.variables then Some(frames[id := f.(variables := f.variables[key := value])])
    else if f.parent.Some? then Update(frames, f.parent.value, key, value)
    else None
  }

  /**
    `Environment::put`: assign an existing variable. `None` where the source
    panics because no scope defines the name.
  */
  function Put(env: Env, key: string, value: Value): (r: Option<Env>)
    requires Valid(env)
    ensures r.Some? <==> LookupScopes(Scopes(env), key).Some?
    ensures r.Some? ==> Valid(r.value) && r.value.current == env.current && |r.value.frames| == |env.frames|
    ensures r.Some? ==> forall j :: 0 <= j < |env.frames| ==> r.value.frames[j].parent == env.frames[j].parent
    ensures r.Some? ==> Scopes(r.value) == PutScopes(Scopes(env), key, value).value
    ensures r.Some? ==> OnlyBinds(env.frames, r.value.frames, value)
  {
    LookupMatchesScopes(env.frames, env.current, key);
    match Update(env.frames, env.current, key, value)
    case None => None
    case Some(frames) =>
      UpdateMatchesScopes(env.frames, env.current, key, value);
      Some(Env(frames, env.current))
  }

  /** `Environment::put_new`: bind `key` in the innermost scope, shadowing outer bindings. */
  function PutNew(env: Env, key: string, value: Value): (r: Env)
    requires Valid(env)
    ensures Valid(r) && r.current == env.current && |r.frames| == |env.frames|
    ensures forall j :: 0 <= j < |env.frames| ==> r.frames[j].parent == env.frames[j].parent
    ensures Scopes(r) == [Scopes(env)[0][key := value]] + Scopes(env)[1..]
    ensures OnlyBinds(env.frames, r.frames, value)
  {
    var f := env.frames[env.current];
    var frames := env.frames[env.current := f.(variables := f.variables[key := value])];
    SameAncestors(env.frames, frames, env.current);
    Env(frames, env.current)
  }

  /** `Environment::enter`: a new empty innermost scope whose parent is the current one. */
  function Enter(env: Env): (r: Env)
    requires Valid(env)
    ensures Valid(r) && r.current == |env.frames|
    ensures |r.frames| == |env.frames| + 1 && r.frames[..|env.frames|] == env.frames
    ensures r.frames[r.current].parent == Some(env.current)
    ensures Scopes(r) == [map[]] + Scopes(env)
  {
    var frames := env.frames + [Frame(map[], Some(env.current))];
    ScopesAgree(env.frames, frames, env.current);
    Env(frames, |env.frames|)
  }

  /**
    `Environment::exit`: make the parent scope current. `None` where the
    source panics because the current scope is the outermost one.
  */
  function Exit(env: Env): (r: Option<Env>)
    requires Valid(env)
    ensures r.Some? <==> |Scopes(env)| > 1
    ensures r.Some? ==> Valid(r.value) && r.value.frames == env.frames && Scopes(r.value) == Scopes(env)[1..]
    ensures r.Some? ==> Some(r.value.current) == env.frames[env.current].parent
  {
    match env.frames[env.current].parent
    case None => None
    case Some(p) => Some(Env(env.frames, p))
  }

  /**
    `Environment::create_internal_function`: bind `name` in the current scope
    to a native function whose closure is the current scope.
  */
  function CreateInternalFunction(env: Env, name: string, params: seq<string>, b: Ast.Builtin): (r: Env)
    requires Valid(env)
    ensures Valid(r) && |r.frames| == |env.frames|
    ensures Get(r, name) == Some(Function(params, Ast.Internal(b), env.current))
    ensures Scopes(r) == [Scopes(env)[0][name := Function(params, Ast.Internal(b), env.current)]] + Scopes(env)[1..]
  {
    PutNew(env, name, Function(params, Ast.Internal(b), env.current))
  }

  // ---- Lemmas ----

  lemma {:induction false} LookupMatchesScopes(frames: seq<Frame>, id: nat, key: string)
    requires ParentsBelow(frames) && id < |frames|
    ensures Lookup(frames, id, key) == LookupScopes(ScopesOf(frames, id), key)
    decreases id
  {
    var f := frames[id];
    var s := ScopesOf(frames, id);
    if key !in f.variables && f.parent.Some? {
      LookupMatchesScopes(frames, f.parent.value, key);
      assert s[1..] == ScopesOf(frames, f.parent.value);
    }
  }

  /**
    Two frame sequences that agree below `id` and on the parent of `id` give
    frame `id` the same outer scopes.
  */
  lemma {:induction false} SameAncestors(a: seq<Frame>, b: seq<Frame>, id: nat)
    requires ParentsBelow(a) && ParentsBelow(b) && id < |a| && id < |b|
    requires a[id].parent == b[id].parent
    requires forall j :: 0 <= j < id ==> a[j] == b[j]
    ensures ScopesOf(b, id) == [b[id].variables] + ScopesOf(a, id)[1..]
  {
    if a[id].parent.Some? {
      ScopesAgree(a, b, a[id].parent.value);
    }
  }

  /** Two frame sequences that agree up to `id` give frame `id` the same scopes. */
  lemma {:induction false} ScopesAgree(a: seq<Frame>, b: seq<Frame>, id: nat)
    requires ParentsBelow(a) && ParentsBelow(b) && id < |a| && id < |b|
    requires forall j :: 0 <= j <= id ==> a[j] == b[j]
    ensures ScopesOf(a, id) == ScopesOf(b, id)
    decreases id
  {
    if a[id].parent.Some? {
      ScopesAgree(a, b, a[id].parent.value);
    }
  }

  lemma {:induction false} UpdateMatchesScopes(frames: seq<Frame>, id: nat, key: string, value: Value)
    requires ParentsBelow(frames) && id < |frames|
    requires Update(frames, id, key, value).Some?
    ensures PutScopes(ScopesOf(frames, id), key, value).Some?
    ensures ScopesOf(Update(frames, id, key, value).value, id) == PutScopes(ScopesOf(frames, id), key, value).value
    decreases id
  {
    var f := frames[id];
    var r := Update(frames, id, key, value).value;
    var s := ScopesOf(frames, id);
    LookupMatchesScopes(frames, id, key);
    if key in f.variables {
      if f.parent.Some? {
        ScopesAgree(frames, r, f.parent.value);
      }
    } else {
      var p := f.parent.value;
      UpdateMatchesScopes(frames, p, key, value);
      assert s[1..] == ScopesOf(frames, p);
      assert ScopesOf(r, id) == [f.variables] + ScopesOf(r, p);
    }
  }

  /** A `get` after `put_new` of the same name sees the new value. */
  lemma {:induction false} GetAfterPutNew(env: Env, key: string, value: Value)
    requires Valid(env)
    ensures Get(PutNew(env, key, value), key) == Some(value)
  {
  }

  /** `put_new` of one name leaves every other name's value as it was. */
  lemma {:induction false} PutNewKeepsOthers(env: Env, key: string, value: Value, other: string)
    requires Valid(env) && other != key
    ensures Get(PutNew(env, key, value), other) == Get(env, other)
  {
    var s := Scopes(env);
    var t := Scopes(PutNew(env, key, value));
    assert t[1..] == s[1..];
  }

  /** A `get` after a successful `put` of the same name sees the new value. */
  lemma {:induction false} GetAfterPut(env: Env, key: string, value: Value)
    requires Valid(env) && Put(env, key, value).Some?
    ensures Get(Put(env, key, value).value, key) == Some(value)
  {
    var s := Scopes(env);
    var t := Scopes(Put(env, key, value).value);
    var i := FirstDefining(s, key);
    FirstDefiningScope(t, key, i);
  }

  /** When scope `i` is the first to define `key`, the lookup reads scope `i`. */
  lemma {:induction false} FirstDefiningScope(s: seq<map<string, Value>>, key: string, i: nat)
    requires i < |s| && key in s[i] && forall j :: 0 <= j < i ==> key !in s[j]
    ensures LookupScopes(s, key) == Some(s[i][key])
  {
    if i > 0 {
      FirstDefiningScope(s[1..], key, i - 1);
    }
  }

  /** `put` on a name no scope defines fails, as the source panics. */
  lemma {:induction false} PutUndefinedFails(env: Env, key: string, value: Value)
    requires Valid(env) && Get(env, key).None?
    ensures Put(env, key, value).None?
  {
  }

  /** `enter` changes no `get` result. */
  lemma {:induction false} EnterKeepsGets(env: Env, key: string)
    requires Valid(env)
    ensures Get(Enter(env), key) == Get(env, key)
  {
    var s := Scopes(env);
    assert ([map[]] + s)[1..] == s;
  }

  /** `exit` after `enter` makes the same scope current again with the same scopes. */
  lemma {:induction false} ExitAfterEnter(env: Env)
    requires Valid(env)
    ensures Exit(Enter(env)).Some?
    ensures Exit(Enter(env)).value.current == env.current
    ensures Scopes(Exit(Enter(env)).value) == Scopes(env)
  {
    assert ([map[]] + Scopes(env))[1..] == Scopes(env);
  }

  /** `exit` of the outermost scope fails, as the source panics. */
  lemma {:induction false} ExitOfRootFails(env: Env)
    requires Valid(env) && env.frames[env.current].parent.None?
    ensures Exit(env).None?
  {
  }
}
