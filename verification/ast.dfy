/**
  The syntax tree the parser builds and the interpreter walks
  (the statement and expression structs of src/statement.rs and
  src/expression.rs, in the newer shape src/parser/mod.rs constructs).
*/
module Ast {
  import opened Wrappers
  import opened Tokens

  /** A literal in the program text; the source stores these as ready-made script values. */
  datatype Literal = NumberLit(n: int) | StringLit(s: string) | BooleanLit(b: bool) | NullLit

  datatype Expr =
    | Value(literal: Literal)
    | Variable(name: string)
    | Condition(left: Expr, operator: TokenType, right: Expr)
    | Addition(left: Expr, operator: TokenType, right: Expr)
    | Multiplication(left: Expr, operator: TokenType, right: Expr)
    | Call(callee: Expr, args: seq<Expr>)
    | Access(target: Expr, field: string)
    | Index(target: Expr, index: Expr)

  /** The functions the interpreter provides natively (`print` is not part of this model). */
  datatype Builtin = NewObject | NewList | MapList

  datatype Stmt =
    | Declaration(variables: seq<string>, initializer: Option<Expr>)
    | Assignment(assignee: Expr, value: Expr)
    | If(condition: Expr, thenBody: Stmt, elseBody: Option<Stmt>)
    | While(condition: Expr, body: Stmt)
    | FunctionDecl(name: string, params: seq<string>, body: Stmt)
    | Return(expr: Expr)
    | ExprStmt(expr: Expr)
    | Block(statements: seq<Stmt>)
    | Internal(builtin: Builtin)

  /** Number of nodes of an expression; the interpreter's termination measure. */
  function ExprSize(e: Expr): (n: nat)
    ensures n >= 1
  {
    match e
    case Value(_) => 1
    case Variable(_) => 1
    case Condition(l, _, r) => 1 + ExprSize(l) + ExprSize(r)
    case Addition(l, _, r) => 1 + ExprSize(l) + ExprSize(r)
    case Multiplication(l, _, r) => 1 + ExprSize(l) + ExprSize(r)
    case Call(c, args) => 1 + ExprSize(c) + ExprsSize(args)
    case Access(t, _) => 1 + ExprSize(t)
    case Index(t, i) => 1 + ExprSize(t) + ExprSize(i)
  }

  function ExprsSize(es: seq<Expr>): (n: nat)
    ensures |es| > 0 ==> n >= ExprSize(es[0]) + ExprsSize(es[1..])
  {
    if |es| == 0 then 0 else ExprSize(es[0]) + ExprsSize(es[1..])
  }

  function StmtSize(s: Stmt): (n: nat)
    ensures n >= 1
  {
    match s
    case Declaration(_, init) => 1 + (if init.Some? then ExprSize(init.value) else 0)
    case Assignment(a, v) => 1 + ExprSize(a) + ExprSize(v)
    case If(c, t, e) => 1 + ExprSize(c) + StmtSize(t) + (if e.Some? then StmtSize(e.value) else 0)
    case While(c, b) => 1 + ExprSize(c) + StmtSize(b)
    case FunctionDecl(_, _, b) => 1 + StmtSize(b)
    case Return(e) => 1 + ExprSize(e)
    case ExprStmt(e) => 1 + ExprSize(e)
    case Block(body) => 1 + StmtsSize(body)
    case Internal(_) => 1
  }

  function StmtsSize(ss: seq<Stmt>): (n: nat)
    ensures |ss| > 0 ==> n >= StmtSize(ss[0]) + StmtsSize(ss[1..])
  {
    if |ss| == 0 then 0 else StmtSize(ss[0]) + StmtsSize(ss[1..])
  }
}
