/**
  The evaluator (src/interpreter/mod.rs, src/function.rs, the `assign`
  methods of src/expression.rs and the builtins of src/builtin.rs).

  The interpreter's mutable world is a `State`: the frames of every scope
  (see `Environment`), the heap of objects and the heap of lists. Objects,
  lists and closures are shared by reference, as through `Rc` in the source.
  Evaluation either succeeds with a value and the next state or stops with a
  `Fault`: a script error the source returns as `Err`, a source panic, or the
  model's own fuel bound. `while` loops and calls each use one unit of fuel,
  which makes every function here total.
*/
module Interpreter {
  import opened Wrappers
  import opened Values
  import opened Ast
  import Tokens
  import Objects
  import Environment
  import opened InterpreterErrors

  datatype State = State(env: Environment.Env, objects: seq<Objects.Fields>, lists: seq<seq<Value>>)

  /** `StatementValue`: how a statement finished. */
  datatype Completion = Normal(value: Value) | Returned(value: Value)

  datatype Fault =
    | Raised(error: InterpreterError)   // an `Err` of the source
    | Halted(reason: Halt)              // a panic of the source, or a non-integer number
    | OutOfFuel                         // the model's bound on loop iterations and calls

  /** An argument of a call: an expression of the caller, or a value `map` passes directly. */
  datatype Arg = Expression(expr: Expr) | Given(value: Value)

  // ---- Well-formed states ----

  /** Every reference in `v` names something that exists in `st`. */
  predicate InBounds(v: Value, st: State) {
    match v
    case Function(_, _, frame) => frame < |st.env.frames|
    case Object(id) => id < |st.objects|
    case List(id) => id < |st.lists|
    case _ => true
  }

  predicate StateOk(st: State) {
    && Environment.Valid(st.env)
    && (forall i, k :: 0 <= i < |st.env.frames| && k in st.env.frames[i].variables ==>
          InBounds(st.env.frames[i].variables[k], st))
    && (forall i, k :: 0 <= i < |st.objects| && k in st.objects[i] ==> InBounds(st.objects[i][k], st))
    && (forall i, j :: 0 <= i < |st.lists| && 0 <= j < |st.lists[i]| ==> InBounds(st.lists[i][j], st))
  }

  /** `b` is `a` after more allocation: nothing disappears and no scope changes its parent. */
  predicate Grows(a: State, b: State) {
    && |a.env.frames| <= |b.env.frames| && |a.objects| <= |b.objects| && |a.lists| <= |b.lists|
    && forall i :: 0 <= i < |a.env.frames| ==> b.env.frames[i].parent == a.env.frames[i].parent
  }

  /** What every successful step guarantees: a well-formed, grown state with the same current scope. */
  predicate Successor(a: State, b: State) {
    StateOk(b) && Grows(a, b) && b.env.current == a.env.current
  }

  predicate ArgsOk(args: seq<Arg>, st: State) {
    forall i :: 0 <= i < |args| && args[i].Given? ==> InBounds(args[i].value, st)
  }

  lemma {:induction false} StillInBoundsAll(vs: seq<Value>, a: State, b: State)
    requires Grows(a, b) && forall i :: 0 <= i < |vs| ==> InBounds(vs[i], a)
    ensures forall i :: 0 <= i < |vs| ==> InBounds(vs[i], b)
  {
    forall i | 0 <= i < |vs|
      ensures InBounds(vs[i], b)
    {
      StillInBounds(vs[i], a, b);
    }
  }

  // ---- Sizes for termination ----

  function ArgsSize(args: seq<Arg>): (n: nat)
    ensures |args| > 0 ==> n >= ArgsSize(args[1..]) + (if args[0].Expression? then ExprSize(args[0].expr) else 1)
  {
    if |args| == 0 then 0
    else (if args[0].Expression? then ExprSize(args[0].expr) else 1) + ArgsSize(args[1..])
  }

  /** The arguments of a call expression, each to be evaluated by the caller. */
  function Wrap(es: seq<Expr>): (args: seq<Arg>)
    ensures |args| == |es| && ArgsSize(args) == ExprsSize(es)
    ensures forall i :: 0 <= i < |es| ==> args[i] == Expression(es[i])
  {
    if |es| == 0 then [] else [Expression(es[0])] + Wrap(es[1..])
  }

  // ---- State updates ----

  function Lift(r: Result<Value, Halt>): (f: Result<Value, Fault>)
    ensures r.Success? <==> f.Success?
    ensures r.Success? ==> f.value == r.value
    ensures r.Failure? ==> f.error == Halted(r.error)
  {
    match r
    case Success(v) => Success(v)
    case Failure(h) => Failure(Halted(h))
  }

  /** `put_new` in the current scope. */
  function Declare(st: State, name: string, v: Value): (r: State)
    requires StateOk(st) && InBounds(v, st)
    ensures Successor(st, r) && r.objects == st.objects && r.lists == st.lists
    ensures r.env == Environment.PutNew(st.env, name, v)
  {
    st.(env := Environment.PutNew(st.env, name, v))
  }

  /** `put_new` of every name, one after the other, all bound to `v`. */
  function DeclareAll(st: State, names: seq<string>, v: Value): (r: State)
    requires StateOk(st) && InBounds(v, st)
    ensures Successor(st, r) && r.objects == st.objects && r.lists == st.lists
    decreases |names|
  {
    if |names| == 0 then st else DeclareAll(Declare(st, names[0], v), names[1..], v)
  }

  /** A reference stays valid as the state grows. */
  lemma {:induction false} StillInBounds(v: Value, a: State, b: State)
    requires InBounds(v, a) && Grows(a, b)
    ensures InBounds(v, b)
  {
  }

  /** `put_new` in frame `frame`, which need not be the current one. */
  function BindIn(st: State, frame: nat, name: string, v: Value): (r: State)
    requires StateOk(st) && frame < |st.env.frames| && InBounds(v, st)
    ensures Successor(st, r) && r.objects == st.objects && r.lists == st.lists
    ensures var g := st.env.frames[frame];
      r.env.frames == st.env.frames[frame := g.(variables := g.variables[name := v])]
  {
    var there := Environment.PutNew(Environment.Env(st.env.frames, frame), name, v);
    st.(env := Environment.Env(there.frames, st.env.current))
  }

  /** `Environment::enter` on the state. */
  function EnterScope(st: State): (r: State)
    requires StateOk(st)
    ensures StateOk(r) && Grows(st, r) && r.objects == st.objects && r.lists == st.lists
    ensures r.env == Environment.Enter(st.env)
  {
    st.(env := Environment.Enter(st.env))
  }

  /**
    `Environment::exit` of the scope `EnterScope(outer)` made current. It
    cannot fail: that scope has a parent, the scope current in `outer`.
  */
  function LeaveScope(st: State, outer: State): (r: State)
    requires StateOk(st) && StateOk(outer) && Grows(EnterScope(outer), st)
    requires st.env.current == EnterScope(outer).env.current
    ensures Successor(outer, r) && Grows(st, r)
    ensures Some(r.env) == Environment.Exit(st.env)
  {
    st.(env := Environment.Exit(st.env).value)
  }

  function AllocObject(st: State): (r: (Value, State))
    requires StateOk(st)
    ensures Successor(st, r.1) && InBounds(r.0, r.1)
    ensures r.0.Object? && r.0.id == |st.objects| && r.1.objects == st.objects + [Objects.New()]
    ensures r.1.env == st.env && r.1.lists == st.lists
  {
    (Object(|st.objects|), st.(objects := st.objects + [Objects.New()]))
  }

  function AllocList(st: State, elems: seq<Value>): (r: (Value, State))
    requires StateOk(st) && forall i :: 0 <= i < |elems| ==> InBounds(elems[i], st)
    ensures Successor(st, r.1) && InBounds(r.0, r.1)
    ensures r.0.List? && r.0.id == |st.lists| && r.1.lists == st.lists + [elems]
    ensures r.1.env == st.env && r.1.objects == st.objects
  {
    var r := st.(lists := st.lists + [elems]);
    forall i, j | 0 <= i < |r.lists| && 0 <= j < |r.lists[i]|
      ensures InBounds(r.lists[i][j], r)
    {
      StillInBounds(r.lists[i][j], st, r);
    }
    (List(|st.lists|), r)
  }

  /**
    `Object::set` on the object `id` of the heap. The source's field
    assignment calls `Object::set_ref`, whose definition is not part of this
    model; it is taken to be `set` on the borrowed object.
  */
  function SetField(st: State, id: nat, field: string, v: Value): (r: State)
    requires StateOk(st) && id < |st.objects| && InBounds(v, st)
    ensures Successor(st, r) && r.env == st.env && r.lists == st.lists
    ensures |r.objects| == |st.objects| && r.objects[id] == Objects.Set(st.objects[id], field, v)
    ensures forall i :: 0 <= i < |st.objects| && i != id ==> r.objects[i] == st.objects[i]
  {
    st.(objects := st.objects[id := Objects.Set(st.objects[id], field, v)])
  }

  /** `list[k] = v` on the list `id` of the heap. */
  function SetElement(st: State, id: nat, k: nat, v: Value): (r: State)
    requires StateOk(st) && id < |st.lists| && k < |st.lists[id]| && InBounds(v, st)
    ensures Successor(st, r) && r.env == st.env && r.objects == st.objects
    ensures |r.lists| == |st.lists| && r.lists[id] == st.lists[id][k := v]
    ensures forall i :: 0 <= i < |st.lists| && i != id ==> r.lists[i] == st.lists[i]
  {
    st.(lists := st.lists[id := st.lists[id][k := v]])
  }

  // ---- Expressions ----

  function LiteralValue(lit: Literal): (v: Value)
    ensures !v.Function? && !v.Object? && !v.List? && !v.Unit?
  {
    match lit
    case NumberLit(n) => Number(n)
    case StringLit(s) => String(s)
    case BooleanLit(b) => Boolean(b)
    case NullLit => Null
  }

  /** The expression visitor: the value of `e` in `st`. */
  function Eval(e: Expr, st: State, fuel: nat): (r: Result<(Value, State), Fault>)
    requires StateOk(st)
    ensures r.Success? ==> Successor(st, r.value.1) && InBounds(r.value.0, r.value.1)
    decreases fuel, ExprSize(e), 2, 0
  {
    match e
    case Value(lit) => Success((LiteralValue(lit), st))
    case Variable(x) =>
      (match Environment.Get(st.env, x)
       case Some(v) => Success((v, st))
       case None => Failure(Raised(New(Null, UndefinedVariable(x)))))
    case Condition(_, _, _) => EvalBinary(e, st, fuel)
    case Addition(_, _, _) => EvalBinary(e, st, fuel)
    case Multiplication(_, _, _) => EvalBinary(e, st, fuel)
    case Call(_, _) => EvalCall(e, st, fuel)
    case Access(_, _) => EvalAccess(e, st, fuel)
    case Index(_, _) => EvalIndex(e, st, fuel)
  }

  /** Both operands, left first, then `boolean` (comparisons) or `numeric` (the rest). */
  function EvalBinary(e: Expr, st: State, fuel: nat): (r: Result<(Value, State), Fault>)
    requires StateOk(st) && (e.Condition? || e.Addition? || e.Multiplication?)
    ensures r.Success? ==> Successor(st, r.value.1) && InBounds(r.value.0, r.value.1)
    decreases fuel, ExprSize(e), 1, 0
  {
    var a :- Eval(e.left, st, fuel);
    var b :- Eval(e.right, a.1, fuel);
    var v :- Lift(if e.Condition? then Compare(a.0, e.operator, b.0) else Numeric(a.0, e.operator, b.0));
    Success((v, b.1))
  }

  /**
    `visit_function`: the callee, then a new scope for the call, then
    `Function::call`, then `exit`.
  */
  function EvalCall(e: Expr, st: State, fuel: nat): (r: Result<(Value, State), Fault>)
    requires StateOk(st) && e.Call?
    ensures r.Success? ==> Successor(st, r.value.1) && InBounds(r.value.0, r.value.1)
    decreases fuel, ExprSize(e), 1, 0
  {
    var t :- Eval(e.callee, st, fuel);
    var entered := EnterScope(t.1);
    if t.0.Function? then
      var c :- CallFunction(t.0, Wrap(e.args), entered, fuel);
      Success((c.0, LeaveScope(c.1, t.1)))
    else
      Failure(Raised(New(t.0, NotCallable)))
  }

  /** `visit_access`: a field of an object. */
  function EvalAccess(e: Expr, st: State, fuel: nat): (r: Result<(Value, State), Fault>)
    requires StateOk(st) && e.Access?
    ensures r.Success? ==> Successor(st, r.value.1) && InBounds(r.value.0, r.value.1)
    decreases fuel, ExprSize(e), 1, 0
  {
    var t :- Eval(e.target, st, fuel);
    match t.0
    case Object(id) =>
      (match Objects.Get(t.1.objects[id], e.field)
       case Some(v) => Success((v, t.1))
       case None => Failure(Raised(New(t.0, PropertyNotFound))))
    case _ => Failure(Raised(New(t.0, NotObject)))
  }

  /** `visit_index`: an element of a list; the index is evaluated after the list. */
  function EvalIndex(e: Expr, st: State, fuel: nat): (r: Result<(Value, State), Fault>)
    requires StateOk(st) && e.Index?
    ensures r.Success? ==> Successor(st, r.value.1) && InBounds(r.value.0, r.value.1)
    decreases fuel, ExprSize(e), 1, 0
  {
    var t :- Eval(e.target, st, fuel);
    if t.0.List? then
      var i :- Eval(e.index, t.1, fuel);
      if i.0.Number? then
        var elems := i.1.lists[t.0.id];
        var k := ToIndex(i.0.n);
        if k < |elems| then Success((elems[k], i.1)) else Failure(Halted(IndexOutOfBounds))
      else Failure(Raised(New(t.0, InvalidIndex)))
    else Failure(Raised(New(t.0, NotIndexable)))
  }

  // ---- Calls ----

  /**
    `Function::call`: a new scope whose parent is the closure's scope, the
    parameters bound there to the arguments (evaluated by the caller, left
    to right), then the body. `Normal` and `Return` results both give the
    call's value. Dropping the callee's handle to its scope is its `exit`;
    the caller's current scope is unchanged.
  */
  function CallFunction(f: Value, args: seq<Arg>, st: State, fuel: nat): (r: Result<(Value, State), Fault>)
    requires StateOk(st) && f.Function? && InBounds(f, st) && ArgsOk(args, st)
    ensures r.Success? ==> Successor(st, r.value.1) && InBounds(r.value.0, r.value.1)
    decreases fuel, ArgsSize(args), 6, 0
  {
    if fuel == 0 then Failure(OutOfFuel)
    else
      var st1 := CallScope(f, st);
      StillArgsOk(args, st, st1);
      var st2 :- BindParams(f.params, args, |st.env.frames|, st1, fuel);
      var c :- ExecStmt(f.body, SwitchTo(st2, |st.env.frames|), fuel - 1);
      Success((c.0.value, SwitchTo(c.1, st.env.current)))
  }

  /**
    The call's scope: `enter` on the closure's environment. The caller's
    scope stays current while the arguments are evaluated.
  */
  function CallScope(f: Value, st: State): (r: State)
    requires StateOk(st) && f.Function? && InBounds(f, st)
    ensures Successor(st, r) && |r.env.frames| == |st.env.frames| + 1
    ensures r.env.frames == Environment.Enter(Environment.Env(st.env.frames, f.env)).frames
  {
    var callee := Environment.Enter(Environment.Env(st.env.frames, f.env));
    st.(env := Environment.Env(callee.frames, st.env.current))
  }

  /** Make frame `frame` the current scope. */
  function SwitchTo(st: State, frame: nat): (r: State)
    requires StateOk(st) && frame < |st.env.frames|
    ensures StateOk(r) && Grows(st, r) && Grows(r, st) && r.env.current == frame
  {
    st.(env := st.env.(current := frame))
  }

  lemma {:induction false} StillArgsOk(args: seq<Arg>, a: State, b: State)
    requires ArgsOk(args, a) && Grows(a, b)
    ensures ArgsOk(args, b)
  {
    forall i | 0 <= i < |args| && args[i].Given?
      ensures InBounds(args[i].value, b)
    {
      StillInBounds(args[i].value, a, b);
    }
  }

  /**
    The binding loop of `Function::call`: for each parameter, the argument
    at its position is evaluated in the caller's scope, left to right, and
    the parameter is bound to it in frame `frame` (which the caller cannot
    see, so binding after all the evaluations changes nothing). Extra
    arguments are never evaluated; a missing one is the source's
    out-of-bounds panic, reached once the arguments before it are evaluated.
  */
  function BindParams(params: seq<string>, args: seq<Arg>, frame: nat, st: State, fuel: nat): (r: Result<State, Fault>)
    requires StateOk(st) && frame < |st.env.frames| && ArgsOk(args, st)
    ensures r.Success? ==> Successor(st, r.value)
    ensures |params| > |args| ==> r.Failure?
    decreases fuel, ArgsSize(args), 5, 0
  {
    var k := if |params| <= |args| then |params| else |args|;
    PrefixSmaller(args, k, st);
    var p :- EvalArgs(args[..k], st, fuel);
    if |params| > |args| then Failure(Halted(MissingArgument))
    else Success(BindAll(p.1, frame, params, p.0))
  }

  /** The values of the arguments, left to right, each in the caller's scope. */
  function EvalArgs(args: seq<Arg>, st: State, fuel: nat): (r: Result<(seq<Value>, State), Fault>)
    requires StateOk(st) && ArgsOk(args, st)
    ensures r.Success? ==> Successor(st, r.value.1) && |r.value.0| == |args|
    ensures r.Success? ==> forall i :: 0 <= i < |args| ==> InBounds(r.value.0[i], r.value.1)
    decreases fuel, ArgsSize(args), 4, |args|
  {
    if |args| == 0 then Success(([], st))
    else
      var a :- EvalArg(args[0], st, fuel);
      StillArgsOk(args[1..], st, a.1);
      var rest :- EvalArgs(args[1..], a.1, fuel);
      StillInBounds(a.0, a.1, rest.1);
      Success(([a.0] + rest.0, rest.1))
  }

  /** The value of one argument: an expression is evaluated in the caller's scope. */
  function EvalArg(a: Arg, st: State, fuel: nat): (r: Result<(Value, State), Fault>)
    requires StateOk(st) && (a.Given? ==> InBounds(a.value, st))
    ensures r.Success? ==> Successor(st, r.value.1) && InBounds(r.value.0, r.value.1)
    ensures a.Given? ==> r == Success((a.value, st))
    ensures a.Expression? ==> r == Eval(a.expr, st, fuel)
    decreases fuel, if a.Expression? then ExprSize(a.expr) else 0, 3, 0
  {
    match a
    case Expression(x) => Eval(x, st, fuel)
    case Given(v) => Success((v, st))
  }

  lemma {:induction false} PrefixSmaller(args: seq<Arg>, k: nat, st: State)
    requires k <= |args| && ArgsOk(args, st)
    ensures ArgsSize(args[..k]) <= ArgsSize(args) && ArgsOk(args[..k], st)
    decreases k
  {
    assert forall i :: 0 <= i < k ==> args[..k][i] == args[i];
    if k > 0 {
      assert args[..k][1..] == args[1..][..k - 1];
      assert forall i :: 0 <= i < |args| - 1 ==> args[1..][i] == args[i + 1];
      PrefixSmaller(args[1..], k - 1, st);
    }
  }

  /**
    The bindings of parameters to values, made one after the other: when a
    name repeats, the later parameter wins. Extra values are ignored.
  */
  function Bindings(params: seq<string>, vs: seq<Value>): (m: map<string, Value>)
    requires |params| <= |vs|
    ensures forall k :: k in m <==> k in params
    ensures forall k :: k in m ==> m[k] in vs
    decreases |params|
  {
    if |params| == 0 then map[]
    else
      var rest := Bindings(params[1..], vs[1..]);
      assert forall k :: k in params <==> k == params[0] || k in params[1..] by {
        forall k ensures k in params <==> k == params[0] || k in params[1..] {
          if k in params {
            var i :| 0 <= i < |params| && params[i] == k;
            if i > 0 { assert params[1..][i - 1] == k; }
          }
        }
      }
      assert forall k :: k in rest ==> rest[k] in vs by {
        forall k | k in rest ensures rest[k] in vs {
          var j :| 0 <= j < |vs[1..]| && vs[1..][j] == rest[k];
          assert vs[j + 1] == rest[k];
        }
      }
      map[params[0] := vs[0]] + rest
  }

  /** `put_new` of parameter i to value i, for every parameter, in frame `frame`. */
  function BindAll(st: State, frame: nat, params: seq<string>, vs: seq<Value>): (r: State)
    requires StateOk(st) && frame < |st.env.frames| && |params| <= |vs|
    requires forall i :: 0 <= i < |vs| ==> InBounds(vs[i], st)
    ensures Successor(st, r) && r.objects == st.objects && r.lists == st.lists
    ensures var g := st.env.frames[frame];
      r.env.frames == st.env.frames[frame := g.(variables := g.variables + Bindings(params, vs))]
    decreases |params|
  {
    var g := st.env.frames[frame];
    if |params| == 0 then
      assert g.variables + Bindings(params, vs) == g.variables;
      assert st.env.frames[frame := g] == st.env.frames;
      st
    else
      var next := BindIn(st, frame, params[0], vs[0]);
      StillInBoundsAll(vs[1..], st, next);
      BindStep(st.env.frames, frame, params[0], vs[0], Bindings(params[1..], vs[1..]));
      BindAll(next, frame, params[1..], vs[1..])
  }

  /** Binding `k` and then `rest` in a frame is binding `map[k := v] + rest` there. */
  lemma {:induction false} BindStep(frames: seq<Environment.Frame>, frame: nat, k: string, v: Value, rest: map<string, Value>)
    requires frame < |frames|
    ensures var g := frames[frame];
      var h := g.(variables := g.variables[k := v]);
      frames[frame := h][frame := h.(variables := h.variables + rest)]
        == frames[frame := g.(variables := g.variables + (map[k := v] + rest))]
  {
    var g := frames[frame];
    assert g.variables[k := v] + rest == g.variables + (map[k := v] + rest);
  }

  // ---- Assignment ----

  /** The `assign` methods: variables, object fields and list elements can be assigned. */
  function Assign(target: Expr, v: Value, st: State, fuel: nat): (r: Result<State, Fault>)
    requires StateOk(st) && InBounds(v, st)
    ensures r.Success? ==> Successor(st, r.value)
    ensures !(target.Variable? || target.Access? || target.Index?) ==> r == Failure(Halted(CannotAssign))
    decreases fuel, ExprSize(target), 3, 0
  {
    match target
    case Variable(x) =>
      (match Environment.Put(st.env, x, v)
       case Some(env) => Success(st.(env := env))
       case None => Failure(Halted(UndefinedAssignment)))
    case Access(_, _) => AssignField(target, v, st, fuel)
    case Index(_, _) => AssignElement(target, v, st, fuel)
    case _ => Failure(Halted(CannotAssign))
  }

  /** `AccessExpr::assign`: set a field of the object the target evaluates to. */
  function AssignField(target: Expr, v: Value, st: State, fuel: nat): (r: Result<State, Fault>)
    requires StateOk(st) && InBounds(v, st) && target.Access?
    ensures r.Success? ==> Successor(st, r.value)
    decreases fuel, ExprSize(target), 2, 0
  {
    var p :- Eval(target.target, st, fuel);
    if p.0.Object? then Success(SetField(p.1, p.0.id, target.field, v))
    else Failure(Halted(NotAnObject))
  }

  /** `IndexExpr::assign`: the list, then the index, then the write. */
  function AssignElement(target: Expr, v: Value, st: State, fuel: nat): (r: Result<State, Fault>)
    requires StateOk(st) && InBounds(v, st) && target.Index?
    ensures r.Success? ==> Successor(st, r.value)
    decreases fuel, ExprSize(target), 2, 0
  {
    var p :- Eval(target.target, st, fuel);
    if p.0.List? then
      var q :- Eval(target.index, p.1, fuel);
      if q.0.Number? then
        var k := ToIndex(q.0.n);
        if k < |q.1.lists[p.0.id]| then Success(SetElement(q.1, p.0.id, k, v))
        else Failure(Halted(IndexOutOfBounds))
      else Failure(Halted(NotAnIndex))
    else Failure(Halted(NotAnObject))
  }

  // ---- Statements ----

  /** The statement visitor. */
  function ExecStmt(s: Stmt, st: State, fuel: nat): (r: Result<(Completion, State), Fault>)
    requires StateOk(st)
    ensures r.Success? ==> Successor(st, r.value.1) && InBounds(r.value.0.value, r.value.1)
    decreases fuel, StmtSize(s), 2, 0
  {
    match s
    case Declaration(_, _) => ExecDeclaration(s, st, fuel)
    case Assignment(_, _) => ExecAssignment(s, st, fuel)
    case If(_, _, _) => ExecIf(s, st, fuel)
    case While(c, body) => ExecWhile(c, body, st, fuel)
    case FunctionDecl(_, _, _) => Success((Normal(Unit), ExecFunctionDecl(s, st)))
    case Return(e) =>
      var p :- Eval(e, st, fuel);
      Success((Returned(p.0), p.1))
    case ExprStmt(e) =>
      var p :- Eval(e, st, fuel);
      Success((Normal(p.0), p.1))
    case Block(_) => ExecBlock(s, st, fuel)
    case Internal(b) => RunBuiltin(b, st, fuel)
  }

  /** `visit_declaration`: the initializer (or `null`), then `put_new` of every name. */
  function ExecDeclaration(s: Stmt, st: State, fuel: nat): (r: Result<(Completion, State), Fault>)
    requires StateOk(st) && s.Declaration?
    ensures r.Success? ==> Successor(st, r.value.1) && r.value.0 == Normal(Unit)
    decreases fuel, StmtSize(s), 1, 0
  {
    var p :- if s.initializer.Some? then Eval(s.initializer.value, st, fuel) else Success((Null, st));
    Success((Normal(Unit), DeclareAll(p.1, s.variables, p.0)))
  }

  /** `visit_assignment`: the value first, then the target's `assign`. */
  function ExecAssignment(s: Stmt, st: State, fuel: nat): (r: Result<(Completion, State), Fault>)
    requires StateOk(st) && s.Assignment?
    ensures r.Success? ==> Successor(st, r.value.1) && r.value.0 == Normal(Unit)
    decreases fuel, StmtSize(s), 1, 0
  {
    var p :- Eval(s.value, st, fuel);
    var next :- Assign(s.assignee, p.0, p.1, fuel);
    Success((Normal(Unit), next))
  }

  /**
    `visit_function`: a closure over a scope entered for the declaration
    and left again, bound in the current scope.
  */
  function ExecFunctionDecl(s: Stmt, st: State): (r: State)
    requires StateOk(st) && s.FunctionDecl?
    ensures Successor(st, r)
    ensures Environment.Get(r.env, s.name) == Some(Function(s.params, s.body, |st.env.frames|))
  {
    var entered := EnterScope(st);
    var f := Function(s.params, s.body, entered.env.current);
    var exited := LeaveScope(entered, st);
    Environment.GetAfterPutNew(exited.env, s.name, f);
    Declare(exited, s.name, f)
  }

  /** `visit_block`: the body in a new scope, which is left again however the body completes. */
  function ExecBlock(s: Stmt, st: State, fuel: nat): (r: Result<(Completion, State), Fault>)
    requires StateOk(st) && s.Block?
    ensures r.Success? ==> Successor(st, r.value.1) && InBounds(r.value.0.value, r.value.1)
    decreases fuel, StmtSize(s), 1, 0
  {
    var entered := EnterScope(st);
    var p :- ExecBody(s.statements, entered, fuel);
    Success((p.0, LeaveScope(p.1, st)))
  }

  /** `visit_if`: the then-branch only for `true`; anything else takes the else-branch. */
  function ExecIf(s: Stmt, st: State, fuel: nat): (r: Result<(Completion, State), Fault>)
    requires StateOk(st) && s.If?
    ensures r.Success? ==> Successor(st, r.value.1) && InBounds(r.value.0.value, r.value.1)
    decreases fuel, StmtSize(s), 1, 0
  {
    var p :- Eval(s.condition, st, fuel);
    if p.0 == Boolean(true) then ExecStmt(s.thenBody, p.1, fuel)
    else if s.elseBody.Some? then ExecStmt(s.elseBody.value, p.1, fuel)
    else Success((Normal(Unit), p.1))
  }

  /** `visit_while`: the body runs while the condition is `true`; a `Return` ends the loop. */
  function ExecWhile(c: Expr, body: Stmt, st: State, fuel: nat): (r: Result<(Completion, State), Fault>)
    requires StateOk(st)
    ensures r.Success? ==> Successor(st, r.value.1) && InBounds(r.value.0.value, r.value.1)
    decreases fuel, StmtSize(Stmt.While(c, body)), 1, 0
  {
    var p :- Eval(c, st, fuel);
    if p.0 != Boolean(true) then Success((Normal(Unit), p.1))
    else
      var q :- ExecStmt(body, p.1, fuel);
      if q.0.Returned? then Success(q)
      else if fuel == 0 then Failure(OutOfFuel)
      else ExecWhile(c, body, q.1, fuel - 1)
  }

  /** The statements of a block, up to the first that does not complete normally. */
  function ExecBody(ss: seq<Stmt>, st: State, fuel: nat): (r: Result<(Completion, State), Fault>)
    requires StateOk(st)
    ensures r.Success? ==> Successor(st, r.value.1) && InBounds(r.value.0.value, r.value.1)
    decreases fuel, StmtsSize(ss), 3, 0
  {
    if |ss| == 0 then Success((Normal(Unit), st))
    else
      var p :- ExecStmt(ss[0], st, fuel);
      if p.0.Normal? then ExecBody(ss[1..], p.1, fuel) else Success(p)
  }

  // ---- Builtins ----

  /** The native functions of src/builtin.rs; their arguments are bound in the current scope. */
  function RunBuiltin(b: Builtin, st: State, fuel: nat): (r: Result<(Completion, State), Fault>)
    requires StateOk(st)
    ensures r.Success? ==> Successor(st, r.value.1) && InBounds(r.value.0.value, r.value.1)
    decreases fuel, 1, 1, 0
  {
    match b
    case NewObject =>
      var p := AllocObject(st);
      Success((Normal(p.0), p.1))
    case NewList =>
      var size :- (match Environment.Get(st.env, "size")
                   case Some(Number(n)) => Success(ToIndex(n))
                   case Some(other) => Failure(Raised(OtherError(other, "Not a size")))
                   case None => Success(0));
      var p := AllocList(st, seq(size, _ => Null));
      Success((Normal(p.0), p.1))
    case MapList => RunMap(st, fuel)
  }

  /** `map(func, list)`: a new list of `func` applied to each element of `list`. */
  function RunMap(st: State, fuel: nat): (r: Result<(Completion, State), Fault>)
    requires StateOk(st)
    ensures r.Success? ==> Successor(st, r.value.1) && InBounds(r.value.0.value, r.value.1)
    ensures r.Success? ==> r.value.0.value.List? && r.value.0.value.id == |r.value.1.lists| - 1
    decreases fuel, 1, 0, 0
  {
    match Environment.Get(st.env, "func")
    case None => Failure(Halted(MissingArgument))
    case Some(f) =>
      if !f.Function? then Failure(Halted(NotAFunction))
      else
        match Environment.Get(st.env, "list")
        case None => Failure(Halted(MissingArgument))
        case Some(l) =>
          if !l.List? then Failure(Halted(NotAList))
          else
            var m :- MapElems(f, st.lists[l.id], st, fuel);
            var p := AllocList(m.1, m.0);
            Success((Normal(p.0), p.1))
  }

  /** `f` applied to each element in order; the first failure ends the mapping. */
  function MapElems(f: Value, elems: seq<Value>, st: State, fuel: nat): (r: Result<(seq<Value>, State), Fault>)
    requires StateOk(st) && f.Function? && InBounds(f, st)
    requires forall i :: 0 <= i < |elems| ==> InBounds(elems[i], st)
    ensures r.Success? ==> Successor(st, r.value.1) && |r.value.0| == |elems|
    ensures r.Success? ==> forall i :: 0 <= i < |elems| ==> InBounds(r.value.0[i], r.value.1)
    decreases fuel, 0, 0, |elems|
  {
    if |elems| == 0 then Success(([], st))
    else if fuel == 0 then Failure(OutOfFuel)
    else
      var p :- CallFunction(f, [Given(elems[0])], st, fuel - 1);
      StillInBoundsAll(elems[1..], st, p.1);
      var q :- MapElems(f, elems[1..], p.1, fuel);
      Success(([p.0] + q.0, q.1))
  }

  // ---- Programs ----

  /** `Interpreter::exec`: the statements in order; a top-level `return` value is dropped. */
  function Exec(program: seq<Stmt>, st: State, fuel: nat): (r: Result<State, Fault>)
    requires StateOk(st)
    ensures r.Success? ==> Successor(st, r.value)
  {
    if |program| == 0 then Success(st)
    else
      var p :- ExecStmt(program[0], st, fuel);
      Exec(program[1..], p.1, fuel)
  }

  /** `create_internal_function` on the state. */
  function DeclareBuiltin(st: State, name: string, params: seq<string>, b: Builtin): (r: State)
    requires StateOk(st)
    ensures Successor(st, r) && |r.env.frames| == |st.env.frames| && r.objects == st.objects && r.lists == st.lists
    ensures r.env == Environment.CreateInternalFunction(st.env, name, params, b)
  {
    Declare(st, name, Function(params, Internal(b), st.env.current))
  }

  /** The state `main` starts from: one scope holding the builtins `Object`, `List` and `map`. */
  function Initial(): (st: State)
    ensures StateOk(st) && |st.env.frames| == 1 && st.objects == [] && st.lists == []
    ensures Environment.Get(st.env, "Object") == Some(Function([], Internal(NewObject), 0))
    ensures Environment.Get(st.env, "List") == Some(Function(["size"], Internal(NewList), 0))
    ensures Environment.Get(st.env, "map") == Some(Function(["func", "list"], Internal(MapList), 0))
  {
    var st0 := State(Environment.New(), [], []);
    var st1 := DeclareBuiltin(st0, "Object", [], NewObject);
    var st2 := DeclareBuiltin(st1, "List", ["size"], NewList);
    var mapFn := Function(["func", "list"], Internal(MapList), 0);
    Environment.PutNewKeepsOthers(st1.env, "List", Function(["size"], Internal(NewList), 0), "Object");
    Environment.PutNewKeepsOthers(st2.env, "map", mapFn, "Object");
    Environment.PutNewKeepsOthers(st2.env, "map", mapFn, "List");
    DeclareBuiltin(st2, "map", ["func", "list"], MapList)
  }

  function Run(program: seq<Stmt>, fuel: nat): Result<State, Fault> {
    Exec(program, Initial(), fuel)
  }
}
