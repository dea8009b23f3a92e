/**
  The recursive-descent parser (src/parser/mod.rs). Each function takes the
  tokens not yet consumed and returns what it parsed with the tokens left
  after it.

  The token-stream helpers the parser calls (`current`, `consume`, `advance`,
  `should_be`, `unwrap_type`) are not part of this model; their behaviour is
  taken from how the parser uses them:
  - `current` is the first remaining token, if any;
  - `consume` returns the current token and moves past it;
  - `advance` moves past the current token and returns the new current one;
  - both are no-ops at the end of the input;
  - `should_be(ty)` of a token of type `ty` succeeds, of another token fails
    with `unexpected_token`, and of no token fails with `eof`.
*/
module Parser {
  import opened Wrappers
  import opened Tokens
  import opened ParserErrors
  import opened Ast

  /** `current`: the first remaining token. */
  function Current(ts: seq<Token>): (t: Option<Token>)
    ensures t.Some? <==> |ts| > 0
    ensures t.Some? ==> t.value == ts[0]
  {
    if |ts| == 0 then None else Some(ts[0])
  }

  /** `current().unwrap_type()`: the type of the first remaining token. */
  function CurrentType(ts: seq<Token>): (t: Option<TokenType>)
    ensures t.Some? <==> |ts| > 0
    ensures t.Some? ==> t.value == ts[0].tokenType
  {
    if |ts| == 0 then None else Some(ts[0].tokenType)
  }

  /** The stream after `consume` or `advance`: one token shorter, unchanged when empty. */
  function Rest(ts: seq<Token>): (rest: seq<Token>)
    ensures |ts| > 0 ==> rest == ts[1..]
    ensures |ts| == 0 ==> rest == []
  {
    if |ts| == 0 then [] else ts[1..]
  }

  /** `should_be`: the token must be present and of type `ty`. */
  function ShouldBe(t: Option<Token>, ty: TokenType): (r: Result<Token, ParserError>)
    ensures r.Success? <==> t.Some? && t.value.tokenType == ty
    ensures r.Success? ==> r.value == t.value
    ensures t.None? ==> r == Failure(Eof())
    ensures t.Some? && t.value.tokenType != ty ==> r == Failure(UnexpectedToken(t.value, ty))
  {
    match t
    case None => Failure(Eof())
    case Some(token) => if token.tokenType == ty then Success(token) else Failure(UnexpectedToken(token, ty))
  }

  /** `parse`: statements until the tokens run out; there is always at least one. */
  function Parse(ts: seq<Token>): (r: Result<seq<Stmt>, ParserError>)
    ensures |ts| == 0 ==> r == Failure(Eof())
    ensures r.Success? ==> |r.value| > 0
    decreases |ts|
  {
    var s :- Statement(ts);
    if |s.1| == 0 then Success([s.0])
    else
      var more :- Parse(s.1);
      Success([s.0] + more)
  }

  /** `statement`: one statement, chosen by its first token. */
  function Statement(ts: seq<Token>): (r: Result<(Stmt, seq<Token>), ParserError>)
    ensures |ts| == 0 ==> r == Failure(Eof())
    ensures r.Success? ==> |r.value.1| < |ts|
    decreases |ts|, 7, 1
  {
    if |ts| == 0 then Failure(Eof())
    else
      match ts[0].tokenType
      case Var => DeclarationStatement(ts)
      case Identifier(_) => IdentifierStatement(ts)
      case If => IfStatement(ts)
      case While => WhileStatement(ts)
      case Func => FunctionStatement(ts)
      case Return => ReturnStatement(ts)
      case LeftBracket => BlockStatement(ts)
      case _ => ExpressionStatement(ts)
  }

  /** `var name = initializer`. */
  function DeclarationStatement(ts: seq<Token>): (r: Result<(Stmt, seq<Token>), ParserError>)
    requires |ts| > 0
    ensures r.Success? ==> |r.value.1| < |ts|
    decreases |ts|, 7, 0
  {
    var ts1 := ts[1..];
    if |ts1| == 0 then Failure(Eof())
    else if ts1[0].tokenType.Identifier? then
      var _ :- ShouldBe(Current(ts1[1..]), Assign);
      var init :- Expression(ts1[2..]);
      Success((Declaration([ts1[0].tokenType.name], Some(init.0)), init.1))
    else Failure(ParserErrors.Unexpected(ts[0], "identifier"))
  }

  /** An expression starting with a name: an assignment when `=` follows it. */
  function IdentifierStatement(ts: seq<Token>): (r: Result<(Stmt, seq<Token>), ParserError>)
    requires |ts| > 0
    ensures r.Success? ==> |r.value.1| < |ts|
    decreases |ts|, 7, 0
  {
    var target :- Expression(ts);
    if CurrentType(target.1) == Some(Assign) then
      var value :- Expression(target.1[1..]);
      Success((Assignment(target.0, value.0), value.1))
    else Success((ExprStmt(target.0), target.1))
  }

  /** `if condition body`, with `else body` when `else` follows. */
  function IfStatement(ts: seq<Token>): (r: Result<(Stmt, seq<Token>), ParserError>)
    requires |ts| > 0
    ensures r.Success? ==> |r.value.1| < |ts|
    decreases |ts|, 7, 0
  {
    var cond :- Expression(ts[1..]);
    var body :- Statement(cond.1);
    if CurrentType(body.1) == Some(Else) then
      var elseBody :- Statement(body.1[1..]);
      Success((Stmt.If(cond.0, body.0, Some(elseBody.0)), elseBody.1))
    else Success((Stmt.If(cond.0, body.0, None), body.1))
  }

  /** `while condition body`. */
  function WhileStatement(ts: seq<Token>): (r: Result<(Stmt, seq<Token>), ParserError>)
    requires |ts| > 0
    ensures r.Success? ==> |r.value.1| < |ts|
    decreases |ts|, 7, 0
  {
    var cond :- Expression(ts[1..]);
    var body :- Statement(cond.1);
    Success((Stmt.While(cond.0, body.0), body.1))
  }

  /** `fn name(params) body`. */
  function FunctionStatement(ts: seq<Token>): (r: Result<(Stmt, seq<Token>), ParserError>)
    requires |ts| > 0
    ensures r.Success? ==> |r.value.1| < |ts|
    decreases |ts|, 7, 0
  {
    var ts1 := ts[1..];
    if |ts1| > 0 && ts1[0].tokenType.Identifier? then
      var _ :- ShouldBe(Current(ts1[1..]), LeftParen);
      var params := ParamList(ts1[2..]);
      var _ :- ShouldBe(Current(params.1), RightParen);
      var body :- Statement(params.1[1..]);
      Success((FunctionDecl(ts1[0].tokenType.name, params.0, body.0), body.1))
    else Failure(ParserErrors.Unexpected(ts[0], "identifier"))
  }

  /** `return expression`. */
  function ReturnStatement(ts: seq<Token>): (r: Result<(Stmt, seq<Token>), ParserError>)
    requires |ts| > 0
    ensures r.Success? ==> |r.value.1| < |ts|
    decreases |ts|, 7, 0
  {
    var e :- Expression(ts[1..]);
    Success((Stmt.Return(e.0), e.1))
  }

  /** `{ statements }`. */
  function BlockStatement(ts: seq<Token>): (r: Result<(Stmt, seq<Token>), ParserError>)
    requires |ts| > 0
    ensures r.Success? ==> |r.value.1| < |ts|
    decreases |ts|, 7, 0
  {
    var body :- BlockBody(ts[1..]);
    Success((Block(body.0), body.1))
  }

  /** Any other statement is an expression on its own. */
  function ExpressionStatement(ts: seq<Token>): (r: Result<(Stmt, seq<Token>), ParserError>)
    requires |ts| > 0
    ensures r.Success? ==> |r.value.1| < |ts|
    decreases |ts|, 7, 0
  {
    var e :- Expression(ts);
    Success((ExprStmt(e.0), e.1))
  }

  /**
    The statements of a block: up to and including the closing `}`, or up to
    the end of the input, which is not an error.
  */
  function BlockBody(ts: seq<Token>): (r: Result<(seq<Stmt>, seq<Token>), ParserError>)
    ensures r.Success? ==> |r.value.1| <= |ts|
    decreases |ts|, 8
  {
    if |ts| == 0 then Success(([], ts))
    else if ts[0].tokenType == RightBracket then Success(([], ts[1..]))
    else
      var s :- Statement(ts);
      var more :- BlockBody(s.1);
      Success(([s.0] + more.0, more.1))
  }

  /**
    The parameter names of a `fn`: identifiers separated by commas. It stops
    at the first token that is not an identifier, and after an identifier not
    followed by a comma.
  */
  function ParamList(ts: seq<Token>): (r: (seq<string>, seq<Token>))
    ensures |r.1| <= |ts|
    decreases |ts|
  {
    if |ts| > 0 && ts[0].tokenType.Identifier? then
      var name := ts[0].tokenType.name;
      if |ts| > 1 && ts[1].tokenType == Comma then
        var more := ParamList(ts[2..]);
        ([name] + more.0, more.1)
      else ([name], ts[1..])
    else ([], ts)
  }

  /** `expression`: the loosest-binding level. */
  function Expression(ts: seq<Token>): (r: Result<(Expr, seq<Token>), ParserError>)
    ensures r.Success? ==> |r.value.1| < |ts|
    decreases |ts|, 6
  {
    Condition(ts)
  }

  /** `condition`: an addition, optionally followed by a comparison and another condition. */
  function Condition(ts: seq<Token>): (r: Result<(Expr, seq<Token>), ParserError>)
    ensures r.Success? ==> |r.value.1| < |ts|
    decreases |ts|, 5
  {
    var left :- Addition(ts);
    if |left.1| > 0 && IsComparison(left.1[0].tokenType) then
      var right :- Condition(left.1[1..]);
      Success((Expr.Condition(left.0, left.1[0].tokenType, right.0), right.1))
    else Success(left)
  }

  /** `addition`: a multiplication, optionally followed by `+`/`-` and another addition. */
  function Addition(ts: seq<Token>): (r: Result<(Expr, seq<Token>), ParserError>)
    ensures r.Success? ==> |r.value.1| < |ts|
    decreases |ts|, 4
  {
    var left :- Multiplication(ts);
    if |left.1| > 0 && IsAdditive(left.1[0].tokenType) then
      var right :- Addition(left.1[1..]);
      Success((Expr.Addition(left.0, left.1[0].tokenType, right.0), right.1))
    else Success(left)
  }

  /** `multiplication`: a factor, optionally followed by `*`/`/` and another multiplication. */
  function Multiplication(ts: seq<Token>): (r: Result<(Expr, seq<Token>), ParserError>)
    ensures r.Success? ==> |r.value.1| < |ts|
    decreases |ts|, 3
  {
    var left :- Factor(ts);
    if |left.1| > 0 && IsMultiplicative(left.1[0].tokenType) then
      var right :- Multiplication(left.1[1..]);
      Success((Expr.Multiplication(left.0, left.1[0].tokenType, right.0), right.1))
    else Success(left)
  }

  /** `factor`: a literal, a variable or a parenthesised expression, then its postfixes. */
  function Factor(ts: seq<Token>): (r: Result<(Expr, seq<Token>), ParserError>)
    ensures |ts| == 0 ==> r == Failure(Eof())
    ensures r.Success? ==> |r.value.1| < |ts|
    decreases |ts|, 2
  {
    if |ts| == 0 then Failure(Eof())
    else
      var next := ts[0];
      match next.tokenType
      case Number(v) => CallAndAccess(Value(NumberLit(v)), ts[1..])
      case String(s) => CallAndAccess(Value(StringLit(s)), ts[1..])
      case Boolean(b) => CallAndAccess(Value(BooleanLit(b)), ts[1..])
      case Null => CallAndAccess(Value(NullLit), ts[1..])
      case Identifier(x) => CallAndAccess(Variable(x), ts[1..])
      case LeftParen =>
        var inner :- Expression(ts[1..]);
        var _ :- ShouldBe(Current(inner.1), RightParen);
        CallAndAccess(inner.0, inner.1[1..])
      case _ => Failure(ParserErrors.Unexpected(next, "factor"))
  }

  /**
    `call_and_access`: any number of call, index and field-access postfixes
    after `base`, applied left to right. What is left never starts with one.
  */
  function CallAndAccess(base: Expr, ts: seq<Token>): (r: Result<(Expr, seq<Token>), ParserError>)
    ensures r.Success? ==> |r.value.1| <= |ts|
    ensures r.Success? ==> !(|r.value.1| > 0 && IsPostfixOpener(r.value.1[0].tokenType))
    decreases |ts|, 1
  {
    var call :- CallPart(base, ts);
    var index :- IndexPart(call.0, call.1);
    AccessPart(index.0, index.1)
  }

  /** A call postfix `( args )`, when the next token opens one. */
  function CallPart(base: Expr, ts: seq<Token>): (r: Result<(Expr, seq<Token>), ParserError>)
    ensures r.Success? ==> |r.value.1| <= |ts|
    ensures r.Success? && |r.value.1| < |ts| ==> !(|r.value.1| > 0 && IsPostfixOpener(r.value.1[0].tokenType))
    ensures r.Success? && |r.value.1| == |ts| ==> r.value == (base, ts) && CurrentType(ts) != Some(LeftParen)
    decreases |ts|, 0
  {
    if CurrentType(ts) == Some(LeftParen) then
      var args :- ArgList(ts[1..]);
      var _ :- ShouldBe(Current(args.1), RightParen);
      CallAndAccess(Call(base, args.0), args.1[1..])
    else Success((base, ts))
  }

  /** An index postfix `[ expr ]`, when the next token opens one. */
  function IndexPart(base: Expr, ts: seq<Token>): (r: Result<(Expr, seq<Token>), ParserError>)
    ensures r.Success? ==> |r.value.1| <= |ts|
    ensures r.Success? && |r.value.1| < |ts| ==> !(|r.value.1| > 0 && IsPostfixOpener(r.value.1[0].tokenType))
    ensures r.Success? && |r.value.1| == |ts| ==> r.value == (base, ts) && CurrentType(ts) != Some(LeftBrace)
    decreases |ts|, 0
  {
    if CurrentType(ts) == Some(LeftBrace) then
      var index :- Expression(ts[1..]);
      var _ :- ShouldBe(Current(index.1), RightBrace);
      CallAndAccess(Index(base, index.0), index.1[1..])
    else Success((base, ts))
  }

  /** A field access `. name`, when the next token is a dot. */
  function AccessPart(base: Expr, ts: seq<Token>): (r: Result<(Expr, seq<Token>), ParserError>)
    ensures r.Success? ==> |r.value.1| <= |ts|
    ensures r.Success? && |r.value.1| < |ts| ==> !(|r.value.1| > 0 && IsPostfixOpener(r.value.1[0].tokenType))
    ensures r.Success? && |r.value.1| == |ts| ==> r.value == (base, ts) && CurrentType(ts) != Some(Dot)
    decreases |ts|, 0
  {
    if CurrentType(ts) == Some(Dot) then
      var ts1 := ts[1..];
      if |ts1| == 0 then Failure(Eof())
      else if ts1[0].tokenType.Identifier? then CallAndAccess(Access(base, ts1[0].tokenType.name), ts1[1..])
      else Failure(ParserErrors.Unexpected(ts1[0], "object"))
    else Success((base, ts))
  }

  /**
    The arguments of a call: expressions separated by commas, up to (not
    including) a `)` or the first expression not followed by a comma.
  */
  function ArgList(ts: seq<Token>): (r: Result<(seq<Expr>, seq<Token>), ParserError>)
    ensures r.Success? ==> |r.value.1| <= |ts|
    decreases |ts|, 7
  {
    if |ts| == 0 || ts[0].tokenType == RightParen then Success(([], ts))
    else
      var e :- Expression(ts);
      if CurrentType(e.1) == Some(Comma) then
        var more :- ArgList(e.1[1..]);
        Success(([e.0] + more.0, more.1))
      else Success(([e.0], e.1))
  }
}
