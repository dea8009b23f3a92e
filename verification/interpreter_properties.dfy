/**
  What the evaluator guarantees about control flow, scopes, errors, calls
  and builtins, stated over the functions of `Interpreter`.
*/
module InterpreterProperties {
  import opened Wrappers
  import opened Values
  import opened Ast
  import Objects
  import Environment
  import opened InterpreterErrors
  import opened Interpreter

  // ---- Sequence facts, proved apart from the interpreter's definitions ----

  lemma {:induction false} ConsTail<T>(a: seq<T>, b: seq<T>)
    requires |a| > 0
    ensures (a + b)[0] == a[0] && (a + b)[1..] == a[1..] + b
  {
  }

  lemma {:induction false} Associate<T>(a: seq<T>, b: seq<T>, c: seq<T>)
    ensures a + b + c == a + (b + c)
  {
  }

  lemma {:induction false} SplitAt<T>(s: seq<T>, i: nat)
    requires i < |s|
    ensures s == s[..i] + s[i..] && s[i..][0] == s[i]
  {
  }

  // ---- Programs ----

  /** Running two programs one after the other is running their concatenation. */
  lemma {:induction false} ExecAppend(p1: seq<Stmt>, p2: seq<Stmt>, st: State, fuel: nat)
    requires StateOk(st)
    ensures Exec(p1 + p2, st, fuel) ==
      match Exec(p1, st, fuel)
      case Failure(f) => Failure(f)
      case Success(st1) => Exec(p2, st1, fuel)
    decreases |p1|
  {
    if |p1| == 0 {
      assert p1 + p2 == p2;
    } else {
      assert (p1 + p2)[0] == p1[0];
      assert (p1 + p2)[1..] == p1[1..] + p2;
      match ExecStmt(p1[0], st, fuel)
      case Failure(_) =>
      case Success(p) => ExecAppend(p1[1..], p2, p.1, fuel);
    }
  }

  /** `exec` stops at the first statement that fails, with that statement's fault. */
  lemma {:induction false} ExecStopsAtFirstError(program: seq<Stmt>, i: nat, st: State, fuel: nat, sti: State, f: Fault)
    requires StateOk(st) && i < |program|
    requires Exec(program[..i], st, fuel) == Success(sti)
    requires ExecStmt(program[i], sti, fuel) == Failure(f)
    ensures Exec(program, st, fuel) == Failure(f)
  {
    ExecAppend(program[..i], program[i..], st, fuel);
    assert program[..i] + program[i..] == program;
    assert program[i..][0] == program[i];
  }

  /** A `return` at the top level does not stop the program: its value is dropped. */
  lemma {:induction false} TopLevelReturnIgnored(s: Stmt, rest: seq<Stmt>, st: State, fuel: nat, v: Value, st1: State)
    requires StateOk(st) && ExecStmt(s, st, fuel) == Success((Returned(v), st1))
    ensures Exec([s] + rest, st, fuel) == Exec(rest, st1, fuel)
  {
    assert ([s] + rest)[0] == s;
    assert ([s] + rest)[1..] == rest;
  }

  // ---- Blocks ----

  /** A block body splits at any point: the second part runs only if the first completed normally. */
  lemma {:induction false} BodyAppend(ss1: seq<Stmt>, ss2: seq<Stmt>, st: State, fuel: nat)
    requires StateOk(st)
    ensures ExecBody(ss1 + ss2, st, fuel) ==
      match ExecBody(ss1, st, fuel)
      case Failure(f) => Failure(f)
      case Success((Normal(_), st1)) => ExecBody(ss2, st1, fuel)
      case Success(p) => Success(p)
    decreases |ss1|
  {
    if |ss1| == 0 {
      assert ss1 + ss2 == ss2;
    } else {
      assert (ss1 + ss2)[0] == ss1[0];
      assert (ss1 + ss2)[1..] == ss1[1..] + ss2;
      match ExecStmt(ss1[0], st, fuel)
      case Failure(_) =>
      case Success(p) =>
        if p.0.Normal? {
          BodyAppend(ss1[1..], ss2, p.1, fuel);
        }
    }
  }

  /** A body whose statements all complete normally completes with `Normal(Unit)`. */
  lemma {:induction false} BodyNormalIsUnit(ss: seq<Stmt>, st: State, fuel: nat)
    requires StateOk(st) && ExecBody(ss, st, fuel).Success?
    requires ExecBody(ss, st, fuel).value.0.Normal?
    ensures ExecBody(ss, st, fuel).value.0 == Normal(Unit)
    decreases |ss|
  {
    if |ss| > 0 {
      var p := ExecStmt(ss[0], st, fuel).value;
      BodyNormalIsUnit(ss[1..], p.1, fuel);
    }
  }

  /**
    A block stops at the first statement that does not complete normally,
    returns that result, and still leaves its scope.
  */
  lemma {:induction false} BlockStopsAtReturn(ss1: seq<Stmt>, s: Stmt, ss2: seq<Stmt>, st: State, fuel: nat,
                                              st1: State, v: Value, st2: State)
    requires StateOk(st)
    requires ExecBody(ss1, EnterScope(st), fuel) == Success((Normal(Unit), st1))
    requires ExecStmt(s, st1, fuel) == Success((Returned(v), st2))
    ensures ExecStmt(Block(ss1 + [s] + ss2), st, fuel).Success?
    ensures ExecStmt(Block(ss1 + [s] + ss2), st, fuel).value.0 == Returned(v)
    ensures ExecStmt(Block(ss1 + [s] + ss2), st, fuel).value.1.env.current == st.env.current
  {
    var entered := EnterScope(st);
    BodyAppend(ss1, [s] + ss2, entered, fuel);
    Associate(ss1, [s], ss2);
    BodyStartingWithReturn(s, ss2, st1, fuel, v, st2);
    assert ExecBody(ss1 + [s] + ss2, entered, fuel) == Success((Returned(v), st2));
    ExecCases(Block(ss1 + [s] + ss2), st, fuel);
  }

  lemma {:induction false} BodyStartingWithReturn(s: Stmt, ss: seq<Stmt>, st: State, fuel: nat, v: Value, st1: State)
    requires StateOk(st) && ExecStmt(s, st, fuel) == Success((Returned(v), st1))
    ensures ExecBody([s] + ss, st, fuel) == Success((Returned(v), st1))
  {
    ConsTail([s], ss);
  }

  // ---- Conditionals and loops ----

  /** `if` runs its then-branch when the condition is `true`. */
  lemma {:induction false} IfTrue(c: Expr, t: Stmt, e: Option<Stmt>, st: State, fuel: nat, st1: State)
    requires StateOk(st) && Eval(c, st, fuel) == Success((Boolean(true), st1))
    ensures ExecStmt(If(c, t, e), st, fuel) == ExecStmt(t, st1, fuel)
  {
    ExecCases(If(c, t, e), st, fuel);
  }

  /**
    Any other condition value, a number or a string included, takes the
    else-branch, or completes normally with `Unit` when there is none.
  */
  lemma {:induction false} IfOtherwise(c: Expr, t: Stmt, e: Option<Stmt>, st: State, fuel: nat, v: Value, st1: State)
    requires StateOk(st) && Eval(c, st, fuel) == Success((v, st1)) && v != Boolean(true)
    ensures ExecStmt(If(c, t, e), st, fuel) ==
      if e.Some? then ExecStmt(e.value, st1, fuel) else Success((Normal(Unit), st1))
  {
    ExecCases(If(c, t, e), st, fuel);
  }

  /** A loop whose condition is not `true` does not run its body. */
  lemma {:induction false} WhileStops(c: Expr, body: Stmt, st: State, fuel: nat, v: Value, st1: State)
    requires StateOk(st) && Eval(c, st, fuel) == Success((v, st1)) && v != Boolean(true)
    ensures ExecStmt(While(c, body), st, fuel) == Success((Normal(Unit), st1))
  {
    ExecCases(While(c, body), st, fuel);
  }

  /** A `return` in the body ends the loop and is passed on. */
  lemma {:induction false} WhilePassesReturn(c: Expr, body: Stmt, st: State, fuel: nat, st1: State, v: Value, st2: State)
    requires StateOk(st) && Eval(c, st, fuel) == Success((Boolean(true), st1))
    requires ExecStmt(body, st1, fuel) == Success((Returned(v), st2))
    ensures ExecStmt(While(c, body), st, fuel) == Success((Returned(v), st2))
  {
    ExecCases(While(c, body), st, fuel);
  }

  /** After a body that completes normally, the loop starts over from the new state. */
  lemma {:induction false} WhileRepeats(c: Expr, body: Stmt, st: State, fuel: nat, st1: State, v: Value, st2: State)
    requires StateOk(st) && fuel > 0 && Eval(c, st, fuel) == Success((Boolean(true), st1))
    requires ExecStmt(body, st1, fuel) == Success((Normal(v), st2))
    ensures ExecStmt(While(c, body), st, fuel) == ExecStmt(While(c, body), st2, fuel - 1)
  {
    assert StateOk(st2);
    ExecCases(While(c, body), st, fuel);
    ExecCases(While(c, body), st2, fuel - 1);
    assert ExecWhile(c, body, st, fuel) == ExecWhile(c, body, st2, fuel - 1);
  }

  /** The statement visitor's dispatch to the helpers for loops, conditionals and blocks. */
  lemma {:induction false} ExecCases(s: Stmt, st: State, fuel: nat)
    requires StateOk(st)
    ensures s.While? ==> ExecStmt(s, st, fuel) == ExecWhile(s.condition, s.body, st, fuel)
    ensures s.If? ==> ExecStmt(s, st, fuel) == ExecIf(s, st, fuel)
    ensures s.Block? ==> ExecStmt(s, st, fuel) == ExecBlock(s, st, fuel)
  {
  }

  // ---- Declarations and variables ----

  /** The bindings a declaration of `names`, all to `v`, adds to the innermost scope. */
  function Declared(names: seq<string>, v: Value): (m: map<string, Value>)
    ensures forall k :: k in m <==> k in names
    ensures forall k :: k in m ==> m[k] == v
  {
    map k | k in names :: v
  }

  /** `DeclareAll` adds its names to the innermost scope and changes no other scope. */
  lemma {:induction false} DeclareAllScopes(st: State, names: seq<string>, v: Value)
    requires StateOk(st) && InBounds(v, st)
    ensures Environment.Scopes(DeclareAll(st, names, v).env) ==
      [Environment.Scopes(st.env)[0] + Declared(names, v)] + Environment.Scopes(st.env)[1..]
    decreases |names|
  {
    var s := Environment.Scopes(st.env);
    if |names| == 0 {
      assert s[0] + Declared(names, v) == s[0];
      assert [s[0]] + s[1..] == s;
    } else {
      var st1 := Declare(st, names[0], v);
      DeclareAllScopes(st1, names[1..], v);
      var s1 := Environment.Scopes(st1.env);
      assert s1[0] == s[0][names[0] := v];
      assert s1[1..] == s[1..];
      DeclaredStep(s[0], names, v);
    }
  }

  lemma {:induction false} DeclaredStep(m: map<string, Value>, names: seq<string>, v: Value)
    requires |names| > 0
    ensures m[names[0] := v] + Declared(names[1..], v) == m + Declared(names, v)
  {
    var a := m[names[0] := v] + Declared(names[1..], v);
    var b := m + Declared(names, v);
    assert forall k :: k in names <==> k == names[0] || k in names[1..] by {
      forall k ensures k in names <==> k == names[0] || k in names[1..] {
        if k in names {
          var i :| 0 <= i < |names| && names[i] == k;
          if i > 0 { assert names[1..][i - 1] == k; }
        }
      }
    }
    assert a.Keys == b.Keys;
  }

  /**
    `var a, b = e` binds every name to the one value of `e` in the innermost
    scope; without an initializer the value is `null`.
  */
  lemma {:induction false} DeclarationBindsAll(names: seq<string>, init: Option<Expr>, st: State, fuel: nat,
                                               v: Value, st1: State)
    requires StateOk(st)
    requires if init.Some? then Eval(init.value, st, fuel) == Success((v, st1)) else v == Null && st1 == st
    ensures ExecStmt(Declaration(names, init), st, fuel).Success?
    ensures var r := ExecStmt(Declaration(names, init), st, fuel).value;
      && r.0 == Normal(Unit)
      && Environment.Scopes(r.1.env) ==
           [Environment.Scopes(st1.env)[0] + Declared(names, v)] + Environment.Scopes(st1.env)[1..]
      && forall i :: 0 <= i < |names| ==> Environment.Get(r.1.env, names[i]) == Some(v)
  {
    assert ExecStmt(Declaration(names, init), st, fuel) == ExecDeclaration(Declaration(names, init), st, fuel);
    var r := ExecStmt(Declaration(names, init), st, fuel).value;
    DeclareAllScopes(st1, names, v);
    forall i | 0 <= i < |names|
      ensures Environment.Get(r.1.env, names[i]) == Some(v)
    {
      Environment.FirstDefiningScope(Environment.Scopes(r.1.env), names[i], 0);
    }
  }

  /** A variable reads the first scope, innermost first, that defines it. */
  lemma {:induction false} VariableReadsNearestScope(x: string, st: State, fuel: nat, i: nat)
    requires StateOk(st)
    requires var s := Environment.Scopes(st.env);
      i < |s| && x in s[i] && forall j :: 0 <= j < i ==> x !in s[j]
    ensures Eval(Variable(x), st, fuel) == Success((Environment.Scopes(st.env)[i][x], st))
  {
    Environment.FirstDefiningScope(Environment.Scopes(st.env), x, i);
  }

  /** A variable no scope defines is an `UndefinedVariable` error naming it, with target `null`. */
  lemma {:induction false} UndefinedVariableFails(x: string, st: State, fuel: nat)
    requires StateOk(st)
    requires var s := Environment.Scopes(st.env); forall j :: 0 <= j < |s| ==> x !in s[j]
    ensures Eval(Variable(x), st, fuel) == Failure(Raised(New(Null, UndefinedVariable(x))))
  {
  }

  // ---- Error cases of calls, field access and indexing ----

  /** Calling something that is not a function is `NotCallable`; no argument is evaluated. */
  lemma {:induction false} CallingNonFunctionFails(callee: Expr, args: seq<Expr>, st: State, fuel: nat, v: Value, st1: State)
    requires StateOk(st) && Eval(callee, st, fuel) == Success((v, st1)) && !v.Function?
    ensures Eval(Call(callee, args), st, fuel) == Failure(Raised(New(v, NotCallable)))
  {
    EvalCases(Call(callee, args), st, fuel);
  }

  /** A field of something that is not an object is `NotObject`. */
  lemma {:induction false} AccessOfNonObjectFails(target: Expr, field: string, st: State, fuel: nat, v: Value, st1: State)
    requires StateOk(st) && Eval(target, st, fuel) == Success((v, st1)) && !v.Object?
    ensures Eval(Access(target, field), st, fuel) == Failure(Raised(New(v, NotObject)))
  {
    var e := Access(target, field);
    AccessSteps(e, st, fuel, v, st1);
    EvalCases(e, st, fuel);
  }

  /** A field reads the object's current value for it, or is `PropertyNotFound` on the object. */
  lemma {:induction false} AccessReadsField(target: Expr, field: string, st: State, fuel: nat, id: nat, st1: State)
    requires StateOk(st) && Eval(target, st, fuel) == Success((Object(id), st1))
    ensures Eval(Access(target, field), st, fuel) ==
      if field in st1.objects[id] then Success((st1.objects[id][field], st1))
      else Failure(Raised(New(Object(id), PropertyNotFound)))
  {
    var e := Access(target, field);
    AccessSteps(e, st, fuel, Object(id), st1);
    EvalCases(e, st, fuel);
  }

  /** The expression visitor's dispatch to the helpers for calls, field accesses and indexing. */
  lemma {:induction false} EvalCases(e: Expr, st: State, fuel: nat)
    requires StateOk(st)
    ensures e.Call? ==> Eval(e, st, fuel) == EvalCall(e, st, fuel)
    ensures e.Access? ==> Eval(e, st, fuel) == EvalAccess(e, st, fuel)
    ensures e.Index? ==> Eval(e, st, fuel) == EvalIndex(e, st, fuel)
  {
  }

  /**
    A comparison, addition or multiplication evaluates its left operand,
    then its right one in the state the left one left, then compares
    (`Compare`) or combines (`Numeric`) the two values.
  */
  lemma {:induction false} BinaryOperands(e: Expr, st: State, fuel: nat)
    requires StateOk(st) && (e.Condition? || e.Addition? || e.Multiplication?)
    ensures Eval(e, st, fuel) ==
      match Eval(e.left, st, fuel)
      case Failure(x) => Failure(x)
      case Success((a, st1)) =>
        match Eval(e.right, st1, fuel)
        case Failure(x) => Failure(x)
        case Success((b, st2)) =>
          match (if e.Condition? then Compare(a, e.operator, b) else Numeric(a, e.operator, b))
          case Failure(h) => Failure(Halted(h))
          case Success(v) => Success((v, st2))
  {
    assert Eval(e, st, fuel) == EvalBinary(e, st, fuel);
  }

  /** `EvalAccess` once the target has been evaluated. */
  lemma {:induction false} AccessSteps(e: Expr, st: State, fuel: nat, v: Value, st1: State)
    requires StateOk(st) && e.Access? && Eval(e.target, st, fuel) == Success((v, st1))
    ensures StateOk(st1) && (v.Object? ==> v.id < |st1.objects|)
    ensures EvalAccess(e, st, fuel) ==
      if !v.Object? then Failure(Raised(New(v, NotObject)))
      else if e.field in st1.objects[v.id] then Success((st1.objects[v.id][e.field], st1))
      else Failure(Raised(New(v, PropertyNotFound)))
  {
  }

  /** Indexing something that is not a list is `NotIndexable`; the index is not evaluated. */
  lemma {:induction false} IndexOfNonListFails(target: Expr, index: Expr, st: State, fuel: nat, v: Value, st1: State)
    requires StateOk(st) && Eval(target, st, fuel) == Success((v, st1)) && !v.List?
    ensures Eval(Expr.Index(target, index), st, fuel) == Failure(Raised(New(v, NotIndexable)))
  {
    EvalCases(Expr.Index(target, index), st, fuel);
  }

  /** A list index that is not a number is `InvalidIndex` on the list. */
  lemma {:induction false} NonNumberIndexFails(target: Expr, index: Expr, st: State, fuel: nat,
                                               id: nat, st1: State, k: Value, st2: State)
    requires StateOk(st) && Eval(target, st, fuel) == Success((List(id), st1))
    requires Eval(index, st1, fuel) == Success((k, st2)) && !k.Number?
    ensures Eval(Expr.Index(target, index), st, fuel) == Failure(Raised(New(List(id), InvalidIndex)))
  {
    var e := Expr.Index(target, index);
    IndexSteps(e, st, fuel, id, st1, k, st2);
    EvalCases(e, st, fuel);
  }

  /**
    A number index reads that position, a negative one reads position 0 as
    the float-to-`usize` cast saturates, and one past the end stops.
  */
  lemma {:induction false} IndexReadsElement(target: Expr, index: Expr, st: State, fuel: nat,
                                             id: nat, st1: State, n: int, st2: State)
    requires StateOk(st) && Eval(target, st, fuel) == Success((List(id), st1))
    requires Eval(index, st1, fuel) == Success((Number(n), st2))
    ensures var k := ToIndex(n);
      Eval(Expr.Index(target, index), st, fuel) ==
        if k < |st2.lists[id]| then Success((st2.lists[id][k], st2)) else Failure(Halted(IndexOutOfBounds))
  {
    var e := Expr.Index(target, index);
    IndexSteps(e, st, fuel, id, st1, Number(n), st2);
    EvalCases(e, st, fuel);
  }

  /** `EvalIndex` once both operands have been evaluated, the target to a list. */
  lemma {:induction false} IndexSteps(e: Expr, st: State, fuel: nat, id: nat, st1: State, k: Value, st2: State)
    requires StateOk(st) && e.Index? && Eval(e.target, st, fuel) == Success((List(id), st1))
    requires Eval(e.index, st1, fuel) == Success((k, st2))
    ensures StateOk(st2) && id < |st2.lists|
    ensures EvalIndex(e, st, fuel) ==
      if !k.Number? then Failure(Raised(New(List(id), InvalidIndex)))
      else if ToIndex(k.n) < |st2.lists[id]| then Success((st2.lists[id][ToIndex(k.n)], st2))
      else Failure(Halted(IndexOutOfBounds))
  {
  }

  // ---- Assignment ----

  /**
    Assigning a variable overwrites it in the nearest scope that defines it
    (the reference `PutScopes`), and reads back; no other binding changes.
  */
  lemma {:induction false} AssignVariable(x: string, v: Value, st: State, fuel: nat)
    requires StateOk(st) && InBounds(v, st) && Environment.Get(st.env, x).Some?
    ensures Assign(Variable(x), v, st, fuel).Success?
    ensures var r := Assign(Variable(x), v, st, fuel).value;
      && Environment.Scopes(r.env) == Environment.PutScopes(Environment.Scopes(st.env), x, v).value
      && Environment.Get(r.env, x) == Some(v)
      && r.objects == st.objects && r.lists == st.lists
  {
    Environment.GetAfterPut(st.env, x, v);
  }

  /** Assigning a variable no scope defines stops, as the source panics. */
  lemma {:induction false} AssignUndefinedFails(x: string, v: Value, st: State, fuel: nat)
    requires StateOk(st) && InBounds(v, st) && Environment.Get(st.env, x).None?
    ensures Assign(Variable(x), v, st, fuel) == Failure(Halted(UndefinedAssignment))
  {
  }

  /** `o.f = v` sets field `f` of the object `o` evaluates to and nothing else. */
  lemma {:induction false} AssignFieldSets(target: Expr, field: string, v: Value, st: State, fuel: nat, id: nat, st1: State)
    requires StateOk(st) && InBounds(v, st) && Eval(target, st, fuel) == Success((Object(id), st1))
    ensures Assign(Access(target, field), v, st, fuel).Success?
    ensures var r := Assign(Access(target, field), v, st, fuel).value;
      && id < |r.objects| && Objects.Get(r.objects[id], field) == Some(v)
      && (forall k :: k != field ==> Objects.Get(r.objects[id], k) == Objects.Get(st1.objects[id], k))
      && |r.objects| == |st1.objects|
      && (forall j :: 0 <= j < |r.objects| && j != id ==> r.objects[j] == st1.objects[j])
      && r.env == st1.env && r.lists == st1.lists
  {
    var e := Access(target, field);
    StillInBounds(v, st, st1);
    assert AssignField(e, v, st, fuel) == Success(SetField(st1, id, field, v));
    assert Assign(e, v, st, fuel) == AssignField(e, v, st, fuel);
  }

  /** `l[i] = v` writes position `i` of the list and nothing else. */
  lemma {:induction false} AssignElementWrites(target: Expr, index: Expr, v: Value, st: State, fuel: nat,
                                         id: nat, st1: State, n: nat, st2: State)
    requires StateOk(st) && InBounds(v, st) && Eval(target, st, fuel) == Success((List(id), st1))
    requires Eval(index, st1, fuel) == Success((Number(n), st2)) && n < |st2.lists[id]|
    ensures Assign(Expr.Index(target, index), v, st, fuel).Success?
    ensures var r := Assign(Expr.Index(target, index), v, st, fuel).value;
      && id < |r.lists| && |r.lists[id]| == |st2.lists[id]| && r.lists[id][n] == v
      && (forall j :: 0 <= j < |st2.lists[id]| && j != n ==> r.lists[id][j] == st2.lists[id][j])
      && |r.lists| == |st2.lists|
      && (forall j :: 0 <= j < |r.lists| && j != id ==> r.lists[j] == st2.lists[j])
      && r.env == st2.env && r.objects == st2.objects
  {
    var e := Expr.Index(target, index);
    AssignElementSteps(e, v, st, fuel, id, st1, n, st2);
    assert Assign(e, v, st, fuel) == AssignElement(e, v, st, fuel);
  }

  /** `AssignElement` once both operands have been evaluated to a list and a position in it. */
  lemma {:induction false} AssignElementSteps(e: Expr, v: Value, st: State, fuel: nat,
                                              id: nat, st1: State, n: nat, st2: State)
    requires StateOk(st) && InBounds(v, st) && e.Index? && Eval(e.target, st, fuel) == Success((List(id), st1))
    requires Eval(e.index, st1, fuel) == Success((Number(n), st2)) && n < |st2.lists[id]|
    ensures StateOk(st2) && id < |st2.lists| && InBounds(v, st2)
    ensures AssignElement(e, v, st, fuel) == Success(SetElement(st2, id, n, v))
  {
    StillInBounds(v, st, st1);
    StillInBounds(v, st1, st2);
  }

  /** Assigning a field of something that is not an object stops, as the source panics. */
  lemma {:induction false} AssignFieldOfNonObjectFails(target: Expr, field: string, v: Value, st: State, fuel: nat,
                                                       u: Value, st1: State)
    requires StateOk(st) && InBounds(v, st) && Eval(target, st, fuel) == Success((u, st1)) && !u.Object?
    ensures Assign(Access(target, field), v, st, fuel) == Failure(Halted(NotAnObject))
  {
    var e := Access(target, field);
    assert Assign(e, v, st, fuel) == AssignField(e, v, st, fuel);
  }

  /**
    An element assignment stops when the target is not a list (the index is
    then not evaluated), when the index is not a number, and when the
    position is past the end; a failure of the index stops it too.
  */
  lemma {:induction false} AssignElementFails(target: Expr, index: Expr, v: Value, st: State, fuel: nat,
                                              u: Value, st1: State)
    requires StateOk(st) && InBounds(v, st) && Eval(target, st, fuel) == Success((u, st1))
    ensures StateOk(st1) && (u.List? ==> u.id < |st1.lists|)
    ensures !u.List? ==> Assign(Expr.Index(target, index), v, st, fuel) == Failure(Halted(NotAnObject))
    ensures u.List? ==>
      match Eval(index, st1, fuel)
      case Failure(x) => Assign(Expr.Index(target, index), v, st, fuel) == Failure(x)
      case Success((k, st2)) =>
        && (!k.Number? ==> Assign(Expr.Index(target, index), v, st, fuel) == Failure(Halted(NotAnIndex)))
        && (k.Number? && ToIndex(k.n) >= |st2.lists[u.id]| ==>
              Assign(Expr.Index(target, index), v, st, fuel) == Failure(Halted(IndexOutOfBounds)))
  {
    var e := Expr.Index(target, index);
    assert Assign(e, v, st, fuel) == AssignElement(e, v, st, fuel);
  }

  /** A failure of the target stops an assignment to one of its fields or elements. */
  lemma {:induction false} AssignTargetFails(target: Expr, field: string, index: Expr, v: Value, st: State, fuel: nat,
                                             x: Fault)
    requires StateOk(st) && InBounds(v, st) && Eval(target, st, fuel) == Failure(x)
    ensures Assign(Access(target, field), v, st, fuel) == Failure(x)
    ensures Assign(Expr.Index(target, index), v, st, fuel) == Failure(x)
  {
    assert Assign(Access(target, field), v, st, fuel) == AssignField(Access(target, field), v, st, fuel);
    assert Assign(Expr.Index(target, index), v, st, fuel) == AssignElement(Expr.Index(target, index), v, st, fuel);
  }

  /** The value is evaluated before the target, and only then is it assigned. */
  lemma {:induction false} AssignmentEvaluatesValueFirst(target: Expr, value: Expr, st: State, fuel: nat, v: Value, st1: State)
    requires StateOk(st) && Eval(value, st, fuel) == Success((v, st1))
    ensures ExecStmt(Assignment(target, value), st, fuel) ==
      match Assign(target, v, st1, fuel)
      case Failure(f) => Failure(f)
      case Success(st2) => Success((Normal(Unit), st2))
  {
  }

  // ---- Calls ----

  /** Arguments that are already values, as `map` passes them. */
  function Givens(vs: seq<Value>): (args: seq<Arg>)
    ensures |args| == |vs| && forall i :: 0 <= i < |vs| ==> args[i] == Given(vs[i])
  {
    seq(|vs|, i requires 0 <= i < |vs| => Given(vs[i]))
  }

  /** With distinct parameter names, parameter `i` is bound to value `i`. */
  lemma {:induction false} BindingsLookup(params: seq<string>, vs: seq<Value>, i: nat)
    requires |params| <= |vs| && i < |params|
    requires forall a, b :: 0 <= a < b < |params| ==> params[a] != params[b]
    ensures params[i] in Bindings(params, vs) && Bindings(params, vs)[params[i]] == vs[i]
    decreases |params|
  {
    if i == 0 {
      assert params[0] !in params[1..];
    } else {
      BindingsLookup(params[1..], vs[1..], i - 1);
    }
  }

  /**
    The state a function body runs in: a new scope, whose parent is the
    scope the closure captured, binding the parameters to the argument
    values.
  */
  function CallFrame(f: Value, vs: seq<Value>, st: State): (r: State)
    requires StateOk(st) && f.Function? && InBounds(f, st) && |f.params| <= |vs|
    requires forall i :: 0 <= i < |vs| ==> InBounds(vs[i], st)
    ensures StateOk(r) && Grows(st, r) && r.env.current == |st.env.frames|
    ensures r.objects == st.objects && r.lists == st.lists
    ensures Environment.Scopes(r.env) == [Bindings(f.params, vs)] + Environment.ScopesOf(st.env.frames, f.env)
  {
    var frames := st.env.frames + [Environment.Frame(Bindings(f.params, vs), Some(f.env))];
    var r := st.(env := Environment.Env(frames, |st.env.frames|));
    CallFrameOk(st, r, Bindings(f.params, vs), vs);
    Environment.ScopesAgree(st.env.frames, frames, f.env);
    r
  }

  lemma {:induction false} CallFrameOk(st: State, r: State, m: map<string, Value>, vs: seq<Value>)
    requires StateOk(st) && Environment.ParentsBelow(r.env.frames) && r.env.current < |r.env.frames|
    requires r.objects == st.objects && r.lists == st.lists
    requires |r.env.frames| == |st.env.frames| + 1 && r.env.frames[..|st.env.frames|] == st.env.frames
    requires r.env.frames[|st.env.frames|].variables == m
    requires forall k :: k in m ==> m[k] in vs
    requires forall i :: 0 <= i < |vs| ==> InBounds(vs[i], st)
    ensures StateOk(r) && Grows(st, r)
  {
    var n := |st.env.frames|;
    assert forall i :: 0 <= i < n ==> r.env.frames[i] == st.env.frames[i];
    assert Grows(st, r);
    forall i, k | 0 <= i < |r.env.frames| && k in r.env.frames[i].variables
      ensures InBounds(r.env.frames[i].variables[k], r)
    {
      var v := r.env.frames[i].variables[k];
      if i < n {
        StillInBounds(v, st, r);
      } else {
        var j :| 0 <= j < |vs| && vs[j] == v;
        StillInBounds(v, st, r);
      }
    }
    forall i, k | 0 <= i < |r.objects| && k in r.objects[i]
      ensures InBounds(r.objects[i][k], r)
    {
      StillInBounds(r.objects[i][k], st, r);
    }
    forall i, j | 0 <= i < |r.lists| && 0 <= j < |r.lists[i]|
      ensures InBounds(r.lists[i][j], r)
    {
      StillInBounds(r.lists[i][j], st, r);
    }
  }

  /** Value arguments evaluate to themselves and leave the state as it is. */
  lemma {:induction false} EvalGivens(vs: seq<Value>, st: State, fuel: nat)
    requires StateOk(st) && forall i :: 0 <= i < |vs| ==> InBounds(vs[i], st)
    ensures ArgsOk(Givens(vs), st)
    ensures EvalArgs(Givens(vs), st, fuel) == Success((vs, st))
    decreases |vs|
  {
    if |vs| > 0 {
      assert Givens(vs)[1..] == Givens(vs[1..]);
      EvalGivens(vs[1..], st, fuel);
      assert [vs[0]] + vs[1..] == vs;
    }
  }

  /** Only the values that have a parameter take part in the bindings. */
  lemma {:induction false} BindingsPrefix(params: seq<string>, vs: seq<Value>)
    requires |params| <= |vs|
    ensures Bindings(params, vs[..|params|]) == Bindings(params, vs)
    decreases |params|
  {
    if |params| > 0 {
      assert vs[..|params|][1..] == vs[1..][..|params| - 1];
      BindingsPrefix(params[1..], vs[1..]);
    }
  }

  /** Binding value arguments puts each parameter into frame `frame` and changes nothing else. */
  lemma {:induction false} BindValues(params: seq<string>, vs: seq<Value>, frame: nat, st: State, fuel: nat)
    requires StateOk(st) && frame < |st.env.frames| && |params| <= |vs|
    requires forall i :: 0 <= i < |vs| ==> InBounds(vs[i], st)
    ensures ArgsOk(Givens(vs), st)
    ensures BindParams(params, Givens(vs), frame, st, fuel) ==
      var f := st.env.frames[frame];
      Success(st.(env := st.env.(frames := st.env.frames[frame := f.(variables := f.variables + Bindings(params, vs))])))
  {
    var k := |params|;
    assert Givens(vs)[..k] == Givens(vs[..k]);
    EvalGivens(vs[..k], st, fuel);
    BindingsPrefix(params, vs);
    var r := BindAll(st, frame, params, vs[..k]);
    assert BindParams(params, Givens(vs), frame, st, fuel) == Success(r);
  }

  /**
    A call on value arguments runs the body in `CallFrame`, returns the
    value of its completion whether it returned or finished normally, and
    leaves the caller's scope current.
  */
  lemma {:induction false} CallOnValues(f: Value, vs: seq<Value>, st: State, fuel: nat)
    requires StateOk(st) && f.Function? && InBounds(f, st) && |f.params| <= |vs| && fuel > 0
    requires forall i :: 0 <= i < |vs| ==> InBounds(vs[i], st)
    ensures ArgsOk(Givens(vs), st)
    ensures CallFunction(f, Givens(vs), st, fuel) ==
      match ExecStmt(f.body, CallFrame(f, vs, st), fuel - 1)
      case Failure(e) => Failure(e)
      case Success((c, st3)) => Success((c.value, SwitchTo(st3, st.env.current)))
  {
    CallBodyState(f, vs, st, fuel);
  }

  /** Binding value arguments in the call's scope gives `CallFrame`. */
  lemma {:induction false} CallBodyState(f: Value, vs: seq<Value>, st: State, fuel: nat)
    requires StateOk(st) && f.Function? && InBounds(f, st) && |f.params| <= |vs|
    requires forall i :: 0 <= i < |vs| ==> InBounds(vs[i], st)
    ensures ArgsOk(Givens(vs), st) && ArgsOk(Givens(vs), CallScope(f, st))
    ensures BindParams(f.params, Givens(vs), |st.env.frames|, CallScope(f, st), fuel).Success?
    ensures SwitchTo(BindParams(f.params, Givens(vs), |st.env.frames|, CallScope(f, st), fuel).value, |st.env.frames|)
            == CallFrame(f, vs, st)
  {
    var n := |st.env.frames|;
    var st1 := CallScope(f, st);
    StillInBoundsAll(vs, st, st1);
    BindValues(f.params, vs, n, st1, fuel);
    var b := Bindings(f.params, vs);
    var g := Environment.Frame(map[], Some(f.env));
    assert st1.env.frames == st.env.frames + [g];
    FillLastFrame(st.env.frames, g, b);
    var st2 := BindParams(f.params, Givens(vs), n, st1, fuel).value;
    assert st2.env.frames == st.env.frames + [g.(variables := b)];
  }

  lemma {:induction false} FillLastFrame(frames: seq<Environment.Frame>, g: Environment.Frame, b: map<string, Value>)
    requires g.variables == map[]
    ensures (frames + [g])[|frames| := g.(variables := (frames + [g])[|frames|].variables + b)]
            == frames + [g.(variables := b)]
  {
    assert map[] + b == b;
  }

  /** Parameters missing an argument stop the call, as the source's out-of-bounds panic. */
  lemma {:induction false} MissingArgumentFails(params: seq<string>, vs: seq<Value>, frame: nat, st: State, fuel: nat)
    requires StateOk(st) && frame < |st.env.frames| && |params| > |vs|
    requires forall i :: 0 <= i < |vs| ==> InBounds(vs[i], st)
    ensures ArgsOk(Givens(vs), st)
    ensures BindParams(params, Givens(vs), frame, st, fuel) == Failure(Halted(MissingArgument))
  {
    assert Givens(vs)[..|vs|] == Givens(vs);
    EvalGivens(vs, st, fuel);
  }

  /** Arguments beyond the parameters are never evaluated: dropping them changes nothing. */
  lemma {:induction false} ExtraArgumentsIgnored(params: seq<string>, args: seq<Arg>, frame: nat, st: State, fuel: nat)
    requires StateOk(st) && frame < |st.env.frames| && ArgsOk(args, st) && |params| <= |args|
    ensures ArgsOk(args[..|params|], st)
    ensures BindParams(params, args, frame, st, fuel) == BindParams(params, args[..|params|], frame, st, fuel)
  {
    PrefixSmaller(args, |params|, st);
    assert args[..|params|][..|params|] == args[..|params|];
  }

  /** `EvalArgs` once the first argument has been evaluated. */
  lemma {:induction false} EvalArgsStep(args: seq<Arg>, st: State, fuel: nat, p: (Value, State))
    requires StateOk(st) && ArgsOk(args, st) && |args| > 0 && EvalArg(args[0], st, fuel) == Success(p)
    ensures StateOk(p.1) && ArgsOk(args[1..], p.1)
    ensures EvalArgs(args, st, fuel) == Prepend([p.0], EvalArgs(args[1..], p.1, fuel))
  {
    StillArgsOk(args[1..], st, p.1);
  }

  /** Evaluating `a1 + a2` evaluates `a1`, then `a2` in the state `a1` left behind. */
  lemma {:induction false} EvalArgsAppend(a1: seq<Arg>, a2: seq<Arg>, st: State, fuel: nat, vs1: seq<Value>, st1: State)
    requires StateOk(st) && ArgsOk(a1, st) && ArgsOk(a2, st) && ArgsOk(a1 + a2, st)
    requires EvalArgs(a1, st, fuel) == Success((vs1, st1))
    ensures StateOk(st1) && ArgsOk(a2, st1)
    ensures EvalArgs(a1 + a2, st, fuel) == Prepend(vs1, EvalArgs(a2, st1, fuel))
    decreases |a1|
  {
    StillArgsOk(a2, st, st1);
    if |a1| == 0 {
      assert a1 + a2 == a2;
      var r := EvalArgs(a2, st1, fuel);
      if r.Success? {
        assert vs1 + r.value.0 == r.value.0;
      }
    } else {
      var p := EvalArg(a1[0], st, fuel).value;
      EvalArgsStep(a1, st, fuel, p);
      var q := EvalArgs(a1[1..], p.1, fuel).value;
      StillArgsOk(a2, st, p.1);
      ConsTail(a1, a2);
      assert ArgsOk(a1[1..] + a2, p.1) by {
        assert forall i :: 0 <= i < |a1[1..] + a2| ==> (a1[1..] + a2)[i] == (a1 + a2)[i + 1];
        StillArgsOk(a1 + a2, st, p.1);
      }
      EvalArgsAppend(a1[1..], a2, p.1, fuel, q.0, st1);
      EvalArgsStep(a1 + a2, st, fuel, p);
      PrependTwice([p.0], q.0, EvalArgs(a2, st1, fuel));
    }
  }

  /**
    Arguments are evaluated left to right: once those before position `i`
    have given `vs`, argument `i` is evaluated in the state they left, and
    if it fails the whole evaluation fails with its failure.
  */
  lemma {:induction false} ArgumentsLeftToRight(args: seq<Arg>, i: nat, st: State, fuel: nat, vs: seq<Value>, sti: State)
    requires StateOk(st) && ArgsOk(args, st) && i < |args|
    requires EvalArgs(args[..i], st, fuel) == Success((vs, sti))
    ensures StateOk(sti) && ArgsOk(args[i..], sti)
    ensures EvalArgs(args, st, fuel) ==
      match EvalArg(args[i], sti, fuel)
      case Failure(x) => Failure(x)
      case Success((v, st1)) => Prepend(vs + [v], EvalArgs(args[i + 1..], st1, fuel))
  {
    SplitAt(args, i);
    EvalArgsAppend(args[..i], args[i..], st, fuel, vs, sti);
    assert args[i..][1..] == args[i + 1..];
    match EvalArg(args[i], sti, fuel)
    case Failure(_) =>
    case Success(p) =>
      EvalArgsStep(args[i..], sti, fuel, p);
      PrependTwice(vs, [p.0], EvalArgs(args[i + 1..], p.1, fuel));
  }

  /**
    Binding the expressions of a call: the arguments that have a parameter
    are evaluated left to right in `st`, then each parameter is bound in
    frame `frame` to its value; an argument's failure, or a missing
    argument, stops the binding.
  */
  lemma {:induction false} BindExpressions(params: seq<string>, es: seq<Expr>, frame: nat, st: State, fuel: nat)
    requires StateOk(st) && frame < |st.env.frames|
    ensures ArgsOk(Wrap(es), st)
    ensures var k := if |params| <= |es| then |params| else |es|;
      && ArgsOk(Wrap(es[..k]), st)
      && BindParams(params, Wrap(es), frame, st, fuel) ==
        match EvalArgs(Wrap(es[..k]), st, fuel)
        case Failure(x) => Failure(x)
        case Success((vs, st2)) =>
          if |params| > |es| then Failure(Halted(MissingArgument))
          else
            var g := st2.env.frames[frame];
            Success(st2.(env := st2.env.(frames := st2.env.frames[frame := g.(variables := g.variables + Bindings(params, vs))])))
  {
    var k := if |params| <= |es| then |params| else |es|;
    WrapPrefix(es, k);
    BindParamsSteps(params, Wrap(es), frame, st, fuel);
  }

  lemma {:induction false} WrapPrefix(es: seq<Expr>, k: nat)
    requires k <= |es|
    ensures Wrap(es)[..k] == Wrap(es[..k])
  {
    assert forall i :: 0 <= i < k ==> Wrap(es)[..k][i] == Expression(es[i]) == Wrap(es[..k])[i];
  }

  /** `BindParams` spelled out: evaluate the arguments that have a parameter, then bind them all. */
  lemma {:induction false} BindParamsSteps(params: seq<string>, args: seq<Arg>, frame: nat, st: State, fuel: nat)
    requires StateOk(st) && frame < |st.env.frames| && ArgsOk(args, st)
    ensures var k := if |params| <= |args| then |params| else |args|;
      && ArgsOk(args[..k], st)
      && BindParams(params, args, frame, st, fuel) ==
        match EvalArgs(args[..k], st, fuel)
        case Failure(x) => Failure(x)
        case Success((vs, st2)) =>
          if |params| > |args| then Failure(Halted(MissingArgument))
          else
            var g := st2.env.frames[frame];
            Success(st2.(env := st2.env.(frames := st2.env.frames[frame := g.(variables := g.variables + Bindings(params, vs))])))
  {
    var k := if |params| <= |args| then |params| else |args|;
    PrefixSmaller(args, k, st);
    match EvalArgs(args[..k], st, fuel)
    case Failure(_) =>
    case Success((vs, st2)) =>
      if |params| <= |args| {
        var r := BindAll(st2, frame, params, vs);
        assert r.env == r.env.(frames := r.env.frames);
      }
  }

  /**
    A call `callee(es)` whose callee is a function: `CallFunction` in a
    scope entered for the call, after which the caller's scope is current
    again.
  */
  lemma {:induction false} CallSteps(callee: Expr, es: seq<Expr>, st: State, fuel: nat, f: Value, st1: State)
    requires StateOk(st) && Eval(callee, st, fuel) == Success((f, st1)) && f.Function?
    ensures StateOk(st1) && InBounds(f, EnterScope(st1)) && ArgsOk(Wrap(es), EnterScope(st1))
    ensures Eval(Call(callee, es), st, fuel) ==
      match CallFunction(f, Wrap(es), EnterScope(st1), fuel)
      case Failure(x) => Failure(x)
      case Success((v, out)) => Success((v, out.(env := out.env.(current := st1.env.current))))
  {
    EvalCallSteps(callee, es, st, fuel, f, st1);
    match CallFunction(f, Wrap(es), EnterScope(st1), fuel)
    case Failure(_) =>
    case Success((v, out)) =>
      LeaveAfterCall(st1, out);
  }

  /** `EvalCall` once the callee has been evaluated to a function. */
  lemma {:induction false} EvalCallSteps(callee: Expr, es: seq<Expr>, st: State, fuel: nat, f: Value, st1: State)
    requires StateOk(st) && Eval(callee, st, fuel) == Success((f, st1)) && f.Function?
    ensures StateOk(st1) && InBounds(f, EnterScope(st1)) && ArgsOk(Wrap(es), EnterScope(st1))
    ensures Eval(Call(callee, es), st, fuel) ==
      match CallFunction(f, Wrap(es), EnterScope(st1), fuel)
      case Failure(x) => Failure(x)
      case Success((v, out)) => Success((v, LeaveScope(out, st1)))
  {
    EvalCases(Call(callee, es), st, fuel);
  }

  /** `CallFunction` with fuel left: bind, run the body in the call's scope, then switch back. */
  lemma {:induction false} CallFunctionSteps(f: Value, args: seq<Arg>, st: State, fuel: nat)
    requires StateOk(st) && f.Function? && InBounds(f, st) && ArgsOk(args, st) && fuel > 0
    ensures ArgsOk(args, CallScope(f, st))
    ensures var n := |st.env.frames|;
      CallFunction(f, args, st, fuel) ==
        match BindParams(f.params, args, n, CallScope(f, st), fuel)
        case Failure(x) => Failure(x)
        case Success(st2) =>
          match ExecStmt(f.body, SwitchTo(st2, n), fuel - 1)
          case Failure(x) => Failure(x)
          case Success((c, st3)) => Success((c.value, SwitchTo(st3, st.env.current)))
  {
    StillArgsOk(args, st, CallScope(f, st));
  }

  /** Leaving the scope entered for a call makes the caller's scope current again. */
  lemma {:induction false} LeaveAfterCall(st1: State, out: State)
    requires StateOk(st1) && StateOk(out) && Grows(EnterScope(st1), out)
    requires out.env.current == EnterScope(st1).env.current
    ensures LeaveScope(out, st1) == out.(env := out.env.(current := st1.env.current))
  {
    var entered := EnterScope(st1);
    assert out.env.frames[entered.env.current].parent == Some(st1.env.current);
  }

  /**
    A call `callee(es)` on a function whose arguments, those that have a
    parameter, evaluate left to right in the caller's scope to `vs`: the
    body runs in the call's scope, frame `n`, with each parameter bound to
    its value; the call's value is the body's, returned or not, and the
    caller's scope is current again afterwards.
  */
  lemma {:induction false} CallEvaluatesArguments(callee: Expr, es: seq<Expr>, st: State, fuel: nat, f: Value, st1: State,
                                                  vs: seq<Value>, st2: State)
    requires StateOk(st) && fuel > 0 && Eval(callee, st, fuel) == Success((f, st1)) && f.Function? && |f.params| <= |es|
    requires EvalArgs(Wrap(es[..|f.params|]), CallScope(f, EnterScope(st1)), fuel) == Success((vs, st2))
    ensures var n := |st1.env.frames| + 1;
      && n < |st2.env.frames| && StateOk(st2) && |vs| == |f.params|
      && (forall i :: 0 <= i < |vs| ==> InBounds(vs[i], st2))
      && Eval(Call(callee, es), st, fuel) ==
        match ExecStmt(f.body, SwitchTo(BindAll(st2, n, f.params, vs), n), fuel - 1)
        case Failure(x) => Failure(x)
        case Success((c, st3)) => Success((c.value, st3.(env := st3.env.(current := st1.env.current))))
  {
    var n := |st1.env.frames| + 1;
    var entered := EnterScope(st1);
    var caller := CallScope(f, entered);
    CallSteps(callee, es, st, fuel, f, st1);
    CallFunctionSteps(f, Wrap(es), entered, fuel);
    BindExpressions(f.params, es, n, caller, fuel);
    var g := st2.env.frames[n];
    var bound := st2.(env := st2.env.(frames := st2.env.frames[n := g.(variables := g.variables + Bindings(f.params, vs))]));
    assert BindParams(f.params, Wrap(es), n, caller, fuel) == Success(bound);
    assert BindAll(st2, n, f.params, vs) == bound;
  }

  /**
    A call `callee(es)` on a function stops with the first failure among
    the arguments that have a parameter, and when they all succeed but
    there are fewer arguments than parameters, as the source's
    out-of-bounds panic.
  */
  lemma {:induction false} CallArgumentsFail(callee: Expr, es: seq<Expr>, st: State, fuel: nat, f: Value, st1: State)
    requires StateOk(st) && fuel > 0 && Eval(callee, st, fuel) == Success((f, st1)) && f.Function?
    ensures StateOk(st1) && InBounds(f, EnterScope(st1))
    ensures var k := if |f.params| <= |es| then |f.params| else |es|;
      && ArgsOk(Wrap(es[..k]), CallScope(f, EnterScope(st1)))
      && match EvalArgs(Wrap(es[..k]), CallScope(f, EnterScope(st1)), fuel)
         case Failure(x) => Eval(Call(callee, es), st, fuel) == Failure(x)
         case Success(_) => |f.params| > |es| ==> Eval(Call(callee, es), st, fuel) == Failure(Halted(MissingArgument))
  {
    var n := |st1.env.frames| + 1;
    var caller := CallScope(f, EnterScope(st1));
    CallSteps(callee, es, st, fuel, f, st1);
    BindExpressions(f.params, es, n, caller, fuel);
  }

  /** `fn f() { return e }` and `fn f() { e }` give every call the same result. */
  lemma {:induction false} ReturnAndLastValueAgree(params: seq<string>, e: Expr, closure: nat, args: seq<Arg>, st: State, fuel: nat)
    requires StateOk(st) && closure < |st.env.frames| && ArgsOk(args, st)
    ensures CallFunction(Function(params, Return(e), closure), args, st, fuel) ==
            CallFunction(Function(params, ExprStmt(e), closure), args, st, fuel)
  {
    var f1 := Function(params, Return(e), closure);
    var f2 := Function(params, ExprStmt(e), closure);
    if fuel > 0 {
      forall s | StateOk(s)
        ensures BodiesAgree(ExecStmt(f1.body, s, fuel - 1), ExecStmt(f2.body, s, fuel - 1))
      {
        ReturnOrExpression(e, s, fuel - 1);
      }
      CallsAgree(f1, f2, args, st, fuel, fuel - 1);
    }
  }

  /** Body runs that agree on the outcome, the value and the final state, whatever the completion. */
  predicate BodiesAgree(x1: Result<(Completion, State), Fault>, x2: Result<(Completion, State), Fault>) {
    && x1.Success? == x2.Success?
    && (x1.Failure? ==> x1.error == x2.error)
    && (x1.Success? ==> x1.value.0.value == x2.value.0.value && x1.value.1 == x2.value.1)
  }

  /** Two closures over the same scope and parameters give the same call when their bodies agree. */
  lemma {:induction false} CallsAgree(f1: Value, f2: Value, args: seq<Arg>, st: State, fuel: nat, bodyFuel: nat)
    requires StateOk(st) && f1.Function? && f2.Function? && InBounds(f1, st) && ArgsOk(args, st) && fuel == bodyFuel + 1
    requires f1.params == f2.params && f1.env == f2.env
    requires forall s :: StateOk(s) ==> BodiesAgree(ExecStmt(f1.body, s, bodyFuel), ExecStmt(f2.body, s, bodyFuel))
    ensures CallFunction(f1, args, st, fuel) == CallFunction(f2, args, st, fuel)
  {
    assert CallScope(f1, st) == CallScope(f2, st);
    CallFunctionSteps(f1, args, st, fuel);
    CallFunctionSteps(f2, args, st, fuel);
  }

  /** `return e` and the expression statement `e` evaluate `e` alike and differ only in the completion. */
  lemma {:induction false} ReturnOrExpression(e: Expr, st: State, fuel: nat)
    requires StateOk(st)
    ensures BodiesAgree(ExecStmt(Return(e), st, fuel), ExecStmt(ExprStmt(e), st, fuel))
  {
  }

  // ---- Builtins ----

  /** `Object()` makes a new object without fields. */
  lemma {:induction false} ObjectBuiltin(closure: nat, st: State, fuel: nat)
    requires StateOk(st) && closure < |st.env.frames| && fuel > 0
    ensures var r := CallFunction(Function([], Internal(NewObject), closure), [], st, fuel);
      && r.Success? && r.value.0 == Object(|st.objects|)
      && r.value.1.objects == st.objects + [Objects.New()] && r.value.1.lists == st.lists
  {
    var f := Function([], Internal(NewObject), closure);
    CallOnValues(f, [], st, fuel);
    assert Givens([]) == [];
  }

  /** The scope a builtin's body runs in binds its one parameter to the one argument. */
  lemma {:induction false} OneParameter(f: Value, v: Value, st: State)
    requires StateOk(st) && f.Function? && InBounds(f, st) && |f.params| == 1 && InBounds(v, st)
    ensures Environment.Get(CallFrame(f, [v], st).env, f.params[0]) == Some(v)
  {
    var cf := CallFrame(f, [v], st);
    assert Bindings(f.params, [v]) == map[f.params[0] := v];
    Environment.FirstDefiningScope(Environment.Scopes(cf.env), f.params[0], 0);
  }

  /** The `List` builtin on a number `n`: a new list of `max(n, 0)` nulls. */
  lemma {:induction false} NewListOfSize(st: State, fuel: nat, n: int)
    requires StateOk(st) && Environment.Get(st.env, "size") == Some(Number(n))
    ensures RunBuiltin(NewList, st, fuel) ==
      Success((Normal(List(|st.lists|)), st.(lists := st.lists + [seq(if n < 0 then 0 else n, _ => Null)])))
  {
  }

  /** The `List` builtin with no `size` bound: a new empty list. */
  lemma {:induction false} NewListWithoutSize(st: State, fuel: nat)
    requires StateOk(st) && Environment.Get(st.env, "size").None?
    ensures RunBuiltin(NewList, st, fuel) == Success((Normal(List(|st.lists|)), st.(lists := st.lists + [[]])))
  {
    assert seq(0, _ => Null) == [];
  }

  /** A call on values whose body completes with `c` returns `c`'s value. */
  lemma {:induction false} CallResult(f: Value, vs: seq<Value>, st: State, fuel: nat, c: Completion, st3: State)
    requires StateOk(st) && f.Function? && InBounds(f, st) && |f.params| <= |vs| && fuel > 0
    requires forall i :: 0 <= i < |vs| ==> InBounds(vs[i], st)
    requires ExecStmt(f.body, CallFrame(f, vs, st), fuel - 1) == Success((c, st3))
    ensures ArgsOk(Givens(vs), st)
    ensures CallFunction(f, Givens(vs), st, fuel) == Success((c.value, SwitchTo(st3, st.env.current)))
  {
    CallOnValues(f, vs, st, fuel);
  }

  /** The `List` builtin on anything but a number is the error "Not a size" on it. */
  lemma {:induction false} NewListOfNonNumberFails(st: State, fuel: nat, v: Value)
    requires StateOk(st) && Environment.Get(st.env, "size") == Some(v) && !v.Number?
    ensures RunBuiltin(NewList, st, fuel) == Failure(Raised(OtherError(v, "Not a size")))
  {
  }

  /** The `Object` builtin makes a new object without fields and changes nothing else. */
  lemma {:induction false} NewObjectIsEmpty(st: State, fuel: nat)
    requires StateOk(st)
    ensures RunBuiltin(NewObject, st, fuel) ==
      Success((Normal(Object(|st.objects|)), st.(objects := st.objects + [Objects.New()])))
  {
  }

  lemma {:induction false} InternalRunsBuiltin(b: Builtin, st: State, fuel: nat)
    requires StateOk(st)
    ensures ExecStmt(Internal(b), st, fuel) == RunBuiltin(b, st, fuel)
  {
  }

  /** `map` of something that is not a function stops. */
  lemma {:induction false} MapOfNonFunctionFails(st: State, fuel: nat, g: Value)
    requires StateOk(st) && Environment.Get(st.env, "func") == Some(g) && !g.Function?
    ensures RunBuiltin(MapList, st, fuel) == Failure(Halted(NotAFunction))
  {
    assert RunBuiltin(MapList, st, fuel) == RunMap(st, fuel);
  }

  /** `map` over something that is not a list stops. */
  lemma {:induction false} MapOverNonListFails(st: State, fuel: nat, g: Value, l: Value)
    requires StateOk(st) && Environment.Get(st.env, "func") == Some(g) && g.Function?
    requires Environment.Get(st.env, "list") == Some(l) && !l.List?
    ensures RunBuiltin(MapList, st, fuel) == Failure(Halted(NotAList))
  {
    assert RunBuiltin(MapList, st, fuel) == RunMap(st, fuel);
  }

  /**
    `map` calls the function on the list's elements and returns a new list
    of the results. The new list goes after every list the calls left, so it
    is never the argument list, and `map` itself writes no other list; what
    the callbacks write is theirs.
  */
  lemma {:induction false} MapBuiltin(st: State, fuel: nat, g: Value, id: nat, vs: seq<Value>, st1: State)
    requires StateOk(st) && Environment.Get(st.env, "func") == Some(g) && g.Function?
    requires Environment.Get(st.env, "list") == Some(List(id)) && id < |st.lists|
    requires MapElems(g, st.lists[id], st, fuel) == Success((vs, st1))
    ensures RunBuiltin(MapList, st, fuel) == Success((Normal(List(|st1.lists|)), st1.(lists := st1.lists + [vs])))
    ensures |vs| == |st.lists[id]|
    ensures id < |st1.lists|
  {
    assert RunBuiltin(MapList, st, fuel) == RunMap(st, fuel);
  }

  /** The results `vs` in front of a mapping's results; a failure stays a failure. */
  function Prepend(vs: seq<Value>, r: Result<(seq<Value>, State), Fault>): Result<(seq<Value>, State), Fault> {
    match r
    case Failure(x) => Failure(x)
    case Success(q) => Success((vs + q.0, q.1))
  }

  lemma {:induction false} PrependTwice(a: seq<Value>, b: seq<Value>, r: Result<(seq<Value>, State), Fault>)
    ensures Prepend(a, Prepend(b, r)) == Prepend(a + b, r)
  {
    if r.Success? {
      assert a + (b + r.value.0) == (a + b) + r.value.0;
    }
  }

  /** One step of `MapElems` after a successful first call. */
  lemma {:induction false} MapElemsStep(f: Value, elems: seq<Value>, st: State, fuel: nat, p: (Value, State))
    requires StateOk(st) && f.Function? && InBounds(f, st) && |elems| > 0 && fuel > 0
    requires forall i :: 0 <= i < |elems| ==> InBounds(elems[i], st)
    requires CallFunction(f, [Given(elems[0])], st, fuel - 1) == Success(p)
    ensures StateOk(p.1) && InBounds(f, p.1) && forall i :: 0 <= i < |elems[1..]| ==> InBounds(elems[1..][i], p.1)
    ensures MapElems(f, elems, st, fuel) == Prepend([p.0], MapElems(f, elems[1..], p.1, fuel))
  {
    StillInBoundsAll(elems[1..], st, p.1);
  }

  /** Mapping over two lists joined is mapping over the first, then over the second. */
  lemma {:induction false} MapAppend(f: Value, e1: seq<Value>, e2: seq<Value>, st: State, fuel: nat,
                                     vs1: seq<Value>, st1: State)
    requires StateOk(st) && f.Function? && InBounds(f, st)
    requires forall i :: 0 <= i < |e1| ==> InBounds(e1[i], st)
    requires forall i :: 0 <= i < |e2| ==> InBounds(e2[i], st)
    requires forall i :: 0 <= i < |e1 + e2| ==> InBounds((e1 + e2)[i], st)
    requires MapElems(f, e1, st, fuel) == Success((vs1, st1))
    ensures InBounds(f, st1) && forall i :: 0 <= i < |e2| ==> InBounds(e2[i], st1)
    ensures MapElems(f, e1 + e2, st, fuel) == Prepend(vs1, MapElems(f, e2, st1, fuel))
    decreases |e1|, 1
  {
    StillInBoundsAll(e2, st, st1);
    if |e1| == 0 {
      assert e1 + e2 == e2;
      var r := MapElems(f, e2, st1, fuel);
      if r.Success? {
        assert vs1 + r.value.0 == r.value.0;
      }
    } else {
      var p := CallFunction(f, [Given(e1[0])], st, fuel - 1).value;
      MapAppendCons(f, e1, e2, st, fuel, vs1, st1, p);
    }
  }

  lemma {:induction false} MapAppendCons(f: Value, e1: seq<Value>, e2: seq<Value>, st: State, fuel: nat,
                                         vs1: seq<Value>, st1: State, p: (Value, State))
    requires StateOk(st) && f.Function? && InBounds(f, st) && |e1| > 0 && fuel > 0
    requires forall i :: 0 <= i < |e1| ==> InBounds(e1[i], st)
    requires forall i :: 0 <= i < |e2| ==> InBounds(e2[i], st)
    requires forall i :: 0 <= i < |e1 + e2| ==> InBounds((e1 + e2)[i], st)
    requires MapElems(f, e1, st, fuel) == Success((vs1, st1))
    requires CallFunction(f, [Given(e1[0])], st, fuel - 1) == Success(p)
    requires StateOk(st1) && InBounds(f, st1) && forall i :: 0 <= i < |e2| ==> InBounds(e2[i], st1)
    ensures MapElems(f, e1 + e2, st, fuel) == Prepend(vs1, MapElems(f, e2, st1, fuel))
    decreases |e1|, 0
  {
    MapElemsStep(f, e1, st, fuel, p);
    var q := MapElems(f, e1[1..], p.1, fuel).value;
    var e := e1 + e2;
    ConsTail(e1, e2);
    StillInBoundsAll(e2, st, p.1);
    StillInBoundsAll(e[1..], st, p.1);
    MapAppend(f, e1[1..], e2, p.1, fuel, q.0, q.1);
    MapElemsStep(f, e, st, fuel, p);
    PrependTwice([p.0], q.0, MapElems(f, e2, st1, fuel));
  }

  /** A failure while mapping a prefix is the failure of the whole `map`. */
  lemma {:induction false} MapAppendFails(f: Value, e1: seq<Value>, e2: seq<Value>, st: State, fuel: nat, x: Fault)
    requires StateOk(st) && f.Function? && InBounds(f, st)
    requires forall i :: 0 <= i < |e1| ==> InBounds(e1[i], st)
    requires forall i :: 0 <= i < |e2| ==> InBounds(e2[i], st)
    requires MapElems(f, e1, st, fuel) == Failure(x)
    ensures forall i :: 0 <= i < |e1 + e2| ==> InBounds((e1 + e2)[i], st)
    ensures MapElems(f, e1 + e2, st, fuel) == Failure(x)
    decreases |e1|
  {
    assert |e1| > 0;
    ConsTail(e1, e2);
    if fuel > 0 {
      match CallFunction(f, [Given(e1[0])], st, fuel - 1)
      case Failure(_) =>
      case Success(p) =>
        StillInBoundsAll(e1[1..], st, p.1);
        StillInBoundsAll(e2, st, p.1);
        MapAppendFails(f, e1[1..], e2, p.1, fuel, x);
    }
  }

  /**
    Element `i` of the result is the function applied to element `i`, in the
    state the first `i` calls left.
  */
  lemma {:induction false} MapElement(f: Value, elems: seq<Value>, i: nat, st: State, fuel: nat,
                                      vs: seq<Value>, sti: State)
    requires StateOk(st) && f.Function? && InBounds(f, st) && i < |elems|
    requires forall j :: 0 <= j < |elems| ==> InBounds(elems[j], st)
    requires MapElems(f, elems, st, fuel).Success?
    requires MapElems(f, elems[..i], st, fuel) == Success((vs, sti))
    ensures fuel > 0 && InBounds(f, sti) && InBounds(elems[i], sti)
    ensures CallFunction(f, [Given(elems[i])], sti, fuel - 1).Success?
    ensures MapElems(f, elems, st, fuel).value.0[i] == CallFunction(f, [Given(elems[i])], sti, fuel - 1).value.0
  {
    SplitAt(elems, i);
    MapAppend(f, elems[..i], elems[i..], st, fuel, vs, sti);
  }

  /** The first call that fails ends `map` with its fault. */
  lemma {:induction false} MapStopsAtFirstError(f: Value, elems: seq<Value>, i: nat, st: State, fuel: nat,
                                                vs: seq<Value>, sti: State, x: Fault)
    requires StateOk(st) && f.Function? && InBounds(f, st) && i < |elems| && fuel > 0
    requires forall j :: 0 <= j < |elems| ==> InBounds(elems[j], st)
    requires MapElems(f, elems[..i], st, fuel) == Success((vs, sti))
    requires InBounds(f, sti) && InBounds(elems[i], sti)
    requires CallFunction(f, [Given(elems[i])], sti, fuel - 1) == Failure(x)
    ensures MapElems(f, elems, st, fuel) == Failure(x)
  {
    var rest := elems[i..];
    SplitAt(elems, i);
    MapAppend(f, elems[..i], rest, st, fuel, vs, sti);
    assert MapElems(f, rest, sti, fuel) == Failure(x);
  }
}
