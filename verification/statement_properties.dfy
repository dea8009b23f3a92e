/**
  Statements and programs: a printer the parser inverts. Printing is
  faithful for the statement shapes the parser produces; the well-formedness
  conditions rule out exactly the token sequences the grammar reads
  differently (a dangling `else`, an expression statement that starts with
  `(` and would be read as a call of the statement before it).
*/
module StatementProperties {
  import opened Wrappers
  import opened Tokens
  import opened ParserErrors
  import opened Ast
  import opened Parser
  import opened ParserProperties

  /** The statement does not end in an `if` without `else` that a following `else` would join. */
  predicate ClosedEnd(s: Stmt) {
    match s
    case If(_, _, els) => els.Some? && ClosedEnd(els.value)
    case While(_, body) => ClosedEnd(body)
    case FunctionDecl(_, _, body) => ClosedEnd(body)
    case _ => true
  }

  /** The binary nodes, which print in parentheses. */
  predicate IsBinary(e: Expr) {
    e.Condition? || e.Addition? || e.Multiplication?
  }

  /**
    The statements the parser can produce, in a form that prints
    unambiguously. The lemmas below require it as `WellFormedStmt(s) == true`,
    which the verifier checks at each call as one fact instead of case by case.
  */
  predicate WellFormedStmt(s: Stmt) {
    match s
    case Declaration(vars, init) => |vars| == 1 && init.Some? && WellFormed(init.value)
    case Assignment(target, value) => WellFormed(target) && WellFormed(value) && Head(target).Variable?
    case If(c, body, els) =>
      WellFormed(c) && WellFormedStmt(body) && (els.Some? ==> ClosedEnd(body) && WellFormedStmt(els.value))
    case While(c, body) => WellFormed(c) && WellFormedStmt(body)
    case FunctionDecl(_, _, body) => WellFormedStmt(body)
    case Return(e) => WellFormed(e)
    case ExprStmt(e) => WellFormed(e) && !IsBinary(Head(e))
    case Block(ss) => forall i :: 0 <= i < |ss| ==> WellFormedStmt(ss[i])
    case Internal(_) => false
  }

  function PrintParams(ps: seq<string>): seq<Token> {
    if |ps| == 0 then []
    else if |ps| == 1 then [Tok(Identifier(ps[0]))]
    else [Tok(Identifier(ps[0])), Tok(Comma)] + PrintParams(ps[1..])
  }

  /** Tokens of a statement. */
  function PrintStmt(s: Stmt): seq<Token>
    decreases StmtSize(s), 1
  {
    match s
    case Declaration(vars, init) =>
      [Tok(Var)] + (if |vars| > 0 then [Tok(Identifier(vars[0]))] else [])
        + [Tok(Assign)] + (if init.Some? then Print(init.value) else [])
    case Assignment(target, value) => Print(target) + [Tok(Assign)] + Print(value)
    case If(c, body, els) =>
      [Tok(TokenType.If)] + Print(c) + PrintStmt(body)
        + (if els.Some? then [Tok(Else)] + PrintStmt(els.value) else [])
    case While(c, body) => [Tok(TokenType.While)] + Print(c) + PrintStmt(body)
    case FunctionDecl(name, ps, body) =>
      [Tok(Func), Tok(Identifier(name)), Tok(LeftParen)] + PrintParams(ps) + [Tok(RightParen)] + PrintStmt(body)
    case Return(e) => [Tok(TokenType.Return)] + Print(e)
    case ExprStmt(e) => Print(e)
    case Block(ss) => [Tok(LeftBracket)] + PrintStmts(ss) + [Tok(RightBracket)]
    case Internal(_) => []
  }

  /** Tokens of a statement sequence: the statements one after another. */
  function PrintStmts(ss: seq<Stmt>): seq<Token>
    decreases StmtsSize(ss), 2
  {
    if |ss| == 0 then [] else PrintStmt(ss[0]) + PrintStmts(ss[1..])
  }

  /** The tokens a well-formed statement can start with. */
  predicate StartsStatement(t: TokenType) {
    t.Var? || t.Identifier? || t.Number? || t.String? || t.Boolean? || t.Null?
      || t.If? || t.While? || t.Func? || t.Return? || t.LeftBracket?
  }

  /**
    What may follow a statement: nothing that would extend its last
    expression, no `=`, and no `else` unless the statement is closed.
  */
  predicate Follows(rest: seq<Token>, closed: bool) {
    |rest| == 0 ||
      (!IsPostfixOpener(rest[0].tokenType) && !IsBinaryOperator(rest[0].tokenType)
       && rest[0].tokenType != Assign && (closed || rest[0].tokenType != Else))
  }

  lemma {:induction false} PrintHead(e: Expr)
    ensures |Print(e)| > 0 && |Print(Head(e))| > 0 && Print(e)[0] == Print(Head(e))[0]
  {
    PrintStart(e);
    PrintStart(Head(e));
    match e
    case Call(c, _) => PrintHead(c);
    case Access(t, _) => PrintHead(t);
    case Index(t, _) => PrintHead(t);
    case _ =>
  }

  /** A printed well-formed statement starts with a statement-starting token. */
  lemma {:induction false} StmtStart(s: Stmt)
    requires WellFormedStmt(s) == true
    ensures |PrintStmt(s)| > 0 && StartsStatement(PrintStmt(s)[0].tokenType)
  {
    match s
    case Assignment(target, _) =>
      PrintHead(target);
    case ExprStmt(e) =>
      PrintHead(e);
    case _ =>
  }

  /** Statement sequences are followed by what follows their first statement. */
  lemma {:induction false} StmtsFollow(ss: seq<Stmt>, tail: seq<Token>, closed: bool)
    requires forall i :: 0 <= i < |ss| ==> WellFormedStmt(ss[i])
    requires Follows(tail, closed)
    ensures |ss| > 0 ==> Follows(PrintStmts(ss) + tail, closed)
  {
    if |ss| > 0 {
      StmtStart(ss[0]);
    }
  }

  // Each branch of `statement`, with what the branch reads given as its parts.

  lemma {:induction false} DeclarationStep(ts: seq<Token>, name: string, init: Expr, rest: seq<Token>)
    requires |ts| > 3 && ts[0].tokenType == Var && ts[1].tokenType == Identifier(name) && ts[2].tokenType == Assign
    requires Expression(ts[3..]) == Success((init, rest))
    ensures Statement(ts) == Success((Declaration([name], Some(init)), rest))
  {
    assert ts[1..][1..] == ts[2..];
    assert ts[1..][2..] == ts[3..];
  }

  lemma {:induction false} IdentifierStep(ts: seq<Token>, target: Expr, mid: seq<Token>)
    requires |ts| > 0 && ts[0].tokenType.Identifier?
    requires Expression(ts) == Success((target, mid))
    ensures CurrentType(mid) != Some(Assign) ==> Statement(ts) == Success((ExprStmt(target), mid))
    ensures forall value, rest ::
      (CurrentType(mid) == Some(Assign) && Expression(mid[1..]) == Success((value, rest)))
        ==> Statement(ts) == Success((Assignment(target, value), rest))
  {
  }

  lemma {:induction false} OtherStep(ts: seq<Token>, e: Expr, rest: seq<Token>)
    requires |ts| > 0 && (ts[0].tokenType.Number? || ts[0].tokenType.String? || ts[0].tokenType.Boolean? || ts[0].tokenType.Null?)
    requires Expression(ts) == Success((e, rest))
    ensures Statement(ts) == Success((ExprStmt(e), rest))
  {
  }

  lemma {:induction false} IfStep(ts: seq<Token>, c: Expr, mid: seq<Token>, body: Stmt, after: seq<Token>)
    requires |ts| > 0 && ts[0].tokenType == TokenType.If
    requires Expression(ts[1..]) == Success((c, mid))
    requires Statement(mid) == Success((body, after))
    ensures CurrentType(after) != Some(Else) ==> Statement(ts) == Success((Stmt.If(c, body, None), after))
    ensures forall els, rest ::
      (CurrentType(after) == Some(Else) && Statement(after[1..]) == Success((els, rest)))
        ==> Statement(ts) == Success((Stmt.If(c, body, Some(els)), rest))
  {
  }

  lemma {:induction false} WhileStep(ts: seq<Token>, c: Expr, mid: seq<Token>, body: Stmt, rest: seq<Token>)
    requires |ts| > 0 && ts[0].tokenType == TokenType.While
    requires Expression(ts[1..]) == Success((c, mid))
    requires Statement(mid) == Success((body, rest))
    ensures Statement(ts) == Success((Stmt.While(c, body), rest))
  {
  }

  lemma {:induction false} FunctionStep(ts: seq<Token>, name: string, ps: seq<string>, mid: seq<Token>, body: Stmt, rest: seq<Token>)
    requires |ts| > 3 && ts[0].tokenType == Func && ts[1].tokenType == Identifier(name) && ts[2].tokenType == LeftParen
    requires ParamList(ts[3..]) == (ps, mid)
    requires |mid| > 0 && mid[0].tokenType == RightParen
    requires Statement(mid[1..]) == Success((body, rest))
    ensures Statement(ts) == Success((FunctionDecl(name, ps, body), rest))
  {
    assert ts[1..][1..] == ts[2..];
    assert ts[1..][2..] == ts[3..];
  }

  lemma {:induction false} ReturnStep(ts: seq<Token>, e: Expr, rest: seq<Token>)
    requires |ts| > 0 && ts[0].tokenType == TokenType.Return
    requires Expression(ts[1..]) == Success((e, rest))
    ensures Statement(ts) == Success((Stmt.Return(e), rest))
  {
  }

  lemma {:induction false} BlockStep(ts: seq<Token>, ss: seq<Stmt>, rest: seq<Token>)
    requires |ts| > 0 && ts[0].tokenType == LeftBracket
    requires BlockBody(ts[1..]) == Success((ss, rest))
    ensures Statement(ts) == Success((Block(ss), rest))
  {
  }

  /** The parameter list of a `fn` reads back up to its `)`. */
  lemma {:induction false} ParamsRoundTrip(ps: seq<string>, rest: seq<Token>)
    ensures ParamList(PrintParams(ps) + [Tok(RightParen)] + rest) == (ps, [Tok(RightParen)] + rest)
  {
    var close := [Tok(RightParen)] + rest;
    if |ps| == 0 {
      assert PrintParams(ps) + [Tok(RightParen)] + rest == close;
    } else if |ps| == 1 {
      var ts := PrintParams(ps) + [Tok(RightParen)] + rest;
      assert ts == [Tok(Identifier(ps[0]))] + close;
      assert ts[1..] == close;
      assert [ps[0]] == ps;
    } else {
      var ts := PrintParams(ps) + [Tok(RightParen)] + rest;
      assert ts == [Tok(Identifier(ps[0])), Tok(Comma)] + (PrintParams(ps[1..]) + [Tok(RightParen)] + rest);
      assert ts[2..] == PrintParams(ps[1..]) + [Tok(RightParen)] + rest;
      ParamsRoundTrip(ps[1..], rest);
      assert [ps[0]] + ps[1..] == ps;
    }
  }

  /** Every well-formed statement printed as tokens parses back to itself. */
  lemma {:induction false} StatementRoundTrip(s: Stmt, rest: seq<Token>)
    requires WellFormedStmt(s) == true && Follows(rest, ClosedEnd(s))
    ensures Statement(PrintStmt(s) + rest) == Success((s, rest))
    decreases StmtSize(s), 2
  {
    match s
    case Declaration(vars, init) => DeclarationRoundTrip(s, rest);
    case Assignment(target, value) => AssignmentRoundTrip(s, rest);
    case If(c, body, els) => IfRoundTrip(s, rest);
    case While(c, body) => WhileRoundTrip(s, rest);
    case FunctionDecl(name, ps, body) => FunctionRoundTrip(s, rest);
    case Return(e) => ReturnRoundTrip(s, rest);
    case ExprStmt(e) => ExprStmtRoundTrip(s, rest);
    case Block(ss) => BlockStmtRoundTrip(s, rest);
  }

  lemma {:induction false} DeclarationRoundTrip(s: Stmt, rest: seq<Token>)
    requires s.Declaration? && WellFormedStmt(s) == true && Follows(rest, true)
    ensures Statement(PrintStmt(s) + rest) == Success((s, rest))
  {
    var name, init := s.variables[0], s.initializer.value;
    DeclarationLayout(s, rest);
    ExpressionReadsBack(init, rest);
    DeclarationStep(PrintStmt(s) + rest, name, init, rest);
  }

  lemma {:induction false} DeclarationLayout(s: Stmt, rest: seq<Token>)
    requires s.Declaration? && WellFormedStmt(s) == true
    ensures s == Declaration([s.variables[0]], Some(s.initializer.value))
    ensures |PrintStmt(s) + rest| > 3
    ensures (PrintStmt(s) + rest)[0].tokenType == Var
    ensures (PrintStmt(s) + rest)[1].tokenType == Identifier(s.variables[0])
    ensures (PrintStmt(s) + rest)[2].tokenType == Assign
    ensures (PrintStmt(s) + rest)[3..] == Print(s.initializer.value) + rest
  {
    var ts := PrintStmt(s) + rest;
    assert ts == [Tok(Var), Tok(Identifier(s.variables[0])), Tok(Assign)] + (Print(s.initializer.value) + rest);
    PrintStart(s.initializer.value);
    assert [s.variables[0]] == s.variables;
  }

  lemma {:induction false} AssignmentRoundTrip(s: Stmt, rest: seq<Token>)
    requires s.Assignment? && WellFormedStmt(s) == true && Follows(rest, true)
    ensures Statement(PrintStmt(s) + rest) == Success((s, rest))
  {
    var ts := PrintStmt(s) + rest;
    var mid := [Tok(Assign)] + (Print(s.value) + rest);
    assert ts == Print(s.assignee) + mid;
    PrintHead(s.assignee);
    ExpressionReadsBack(s.assignee, mid);
    assert mid[1..] == Print(s.value) + rest;
    ExpressionReadsBack(s.value, rest);
    IdentifierStep(ts, s.assignee, mid);
  }

  lemma {:induction false} IfRoundTrip(s: Stmt, rest: seq<Token>)
    requires s.If? && WellFormedStmt(s) == true && Follows(rest, ClosedEnd(s))
    ensures Statement(PrintStmt(s) + rest) == Success((s, rest))
    decreases StmtSize(s), 1
  {
    var c, body, els := s.condition, s.thenBody, s.elseBody;
    var after := if els.Some? then [Tok(Else)] + (PrintStmt(els.value) + rest) else rest;
    IfLayout(s, rest, after);
    StmtStart(body);
    ExpressionReadsBack(c, PrintStmt(body) + after);
    if els.Some? {
      IfElseParts(s, rest, after);
    } else {
      StatementRoundTrip(body, after);
      assert CurrentType(after) != Some(Else);
    }
    IfStep(PrintStmt(s) + rest, c, PrintStmt(body) + after, body, after);
  }

  /** Both branches of an `if` with `else` read back. */
  lemma {:induction false} IfElseParts(s: Stmt, rest: seq<Token>, after: seq<Token>)
    requires s.If? && s.elseBody.Some? && WellFormedStmt(s) == true && Follows(rest, ClosedEnd(s))
    requires |after| > 0 && after[0].tokenType == Else && after[1..] == PrintStmt(s.elseBody.value) + rest
    ensures Statement(PrintStmt(s.thenBody) + after) == Success((s.thenBody, after))
    ensures CurrentType(after) == Some(Else)
    ensures Statement(after[1..]) == Success((s.elseBody.value, rest))
    decreases StmtSize(s), 0
  {
    StatementRoundTrip(s.thenBody, after);
    StatementRoundTrip(s.elseBody.value, rest);
  }

  lemma {:induction false} IfLayout(s: Stmt, rest: seq<Token>, after: seq<Token>)
    requires s.If?
    requires after == if s.elseBody.Some? then [Tok(Else)] + (PrintStmt(s.elseBody.value) + rest) else rest
    ensures |PrintStmt(s) + rest| > 0 && (PrintStmt(s) + rest)[0].tokenType == TokenType.If
    ensures (PrintStmt(s) + rest)[1..] == Print(s.condition) + (PrintStmt(s.thenBody) + after)
    ensures s.elseBody.Some? ==> |after| > 0 && after[0].tokenType == Else && after[1..] == PrintStmt(s.elseBody.value) + rest
  {
    assert PrintStmt(s) + rest == [Tok(TokenType.If)] + (Print(s.condition) + (PrintStmt(s.thenBody) + after));
  }

  lemma {:induction false} WhileRoundTrip(s: Stmt, rest: seq<Token>)
    requires s.While? && WellFormedStmt(s) == true && Follows(rest, ClosedEnd(s))
    ensures Statement(PrintStmt(s) + rest) == Success((s, rest))
    decreases StmtSize(s), 1
  {
    var c, body := s.condition, s.body;
    WhileLayout(s, rest);
    StmtStart(body);
    ExpressionReadsBack(c, PrintStmt(body) + rest);
    StatementRoundTrip(body, rest);
    WhileStep(PrintStmt(s) + rest, c, PrintStmt(body) + rest, body, rest);
  }

  lemma {:induction false} WhileLayout(s: Stmt, rest: seq<Token>)
    requires s.While?
    ensures |PrintStmt(s) + rest| > 0 && (PrintStmt(s) + rest)[0].tokenType == TokenType.While
    ensures (PrintStmt(s) + rest)[1..] == Print(s.condition) + (PrintStmt(s.body) + rest)
  {
    assert PrintStmt(s) + rest == [Tok(TokenType.While)] + (Print(s.condition) + (PrintStmt(s.body) + rest));
  }

  lemma {:induction false} FunctionRoundTrip(s: Stmt, rest: seq<Token>)
    requires s.FunctionDecl? && WellFormedStmt(s) == true && Follows(rest, ClosedEnd(s))
    ensures Statement(PrintStmt(s) + rest) == Success((s, rest))
    decreases StmtSize(s), 1
  {
    var close := [Tok(RightParen)] + (PrintStmt(s.body) + rest);
    FunctionLayout(s, rest, close);
    ParamsRoundTrip(s.params, PrintStmt(s.body) + rest);
    StatementRoundTrip(s.body, rest);
    FunctionStep(PrintStmt(s) + rest, s.name, s.params, close, s.body, rest);
  }

  lemma {:induction false} FunctionLayout(s: Stmt, rest: seq<Token>, close: seq<Token>)
    requires s.FunctionDecl? && close == [Tok(RightParen)] + (PrintStmt(s.body) + rest)
    ensures |PrintStmt(s) + rest| > 3
    ensures (PrintStmt(s) + rest)[0].tokenType == Func
    ensures (PrintStmt(s) + rest)[1].tokenType == Identifier(s.name)
    ensures (PrintStmt(s) + rest)[2].tokenType == LeftParen
    ensures (PrintStmt(s) + rest)[3..] == PrintParams(s.params) + [Tok(RightParen)] + (PrintStmt(s.body) + rest)
    ensures |close| > 0 && close[0].tokenType == RightParen && close[1..] == PrintStmt(s.body) + rest
  {
    var ts := PrintStmt(s) + rest;
    assert ts == [Tok(Func), Tok(Identifier(s.name)), Tok(LeftParen)] + (PrintParams(s.params) + close);
  }

  lemma {:induction false} ReturnRoundTrip(s: Stmt, rest: seq<Token>)
    requires s.Return? && WellFormedStmt(s) == true && Follows(rest, true)
    ensures Statement(PrintStmt(s) + rest) == Success((s, rest))
  {
    var ts := PrintStmt(s) + rest;
    assert ts == [Tok(TokenType.Return)] + (Print(s.expr) + rest);
    ExpressionReadsBack(s.expr, rest);
    ReturnStep(ts, s.expr, rest);
  }

  lemma {:induction false} ExprStmtRoundTrip(s: Stmt, rest: seq<Token>)
    requires s.ExprStmt? && WellFormedStmt(s) == true && Follows(rest, true)
    ensures Statement(PrintStmt(s) + rest) == Success((s, rest))
  {
    var ts := PrintStmt(s) + rest;
    var e := s.expr;
    assert ts == Print(e) + rest;
    PrintHead(e);
    ExpressionReadsBack(e, rest);
    if Head(e).Variable? {
      IdentifierStep(ts, e, rest);
    } else {
      OtherStep(ts, e, rest);
    }
  }

  lemma {:induction false} BlockStmtRoundTrip(s: Stmt, rest: seq<Token>)
    requires s.Block? && WellFormedStmt(s) == true && Follows(rest, true)
    ensures Statement(PrintStmt(s) + rest) == Success((s, rest))
    decreases StmtSize(s), 1
  {
    var ts := PrintStmt(s) + rest;
    var ss := s.statements;
    assert ts == [Tok(LeftBracket)] + (PrintStmts(ss) + ([Tok(RightBracket)] + rest));
    BlockRoundTrip(ss, [Tok(RightBracket)] + rest);
    assert ([Tok(RightBracket)] + rest)[1..] == rest;
    BlockStep(ts, ss, rest);
  }

  /** One statement, then the rest of a block body. */
  lemma {:induction false} BlockBodyStep(ts: seq<Token>, first: Stmt, more: seq<Token>, others: seq<Stmt>, rest: seq<Token>)
    requires |ts| > 0 && ts[0].tokenType != RightBracket
    requires Statement(ts) == Success((first, more))
    requires BlockBody(more) == Success((others, rest))
    ensures BlockBody(ts) == Success(([first] + others, rest))
  {
  }

  /**
    The body of a block reads back up to its `}`, or up to the end of the
    input when the `}` is missing.
  */
  lemma {:induction false} BlockRoundTrip(ss: seq<Stmt>, tail: seq<Token>)
    requires forall i :: 0 <= i < |ss| ==> WellFormedStmt(ss[i])
    requires tail == [] || tail[0].tokenType == RightBracket
    ensures BlockBody(PrintStmts(ss) + tail) == Success((ss, if tail == [] then [] else tail[1..]))
    decreases StmtsSize(ss), 3, 2
  {
    if |ss| == 0 {
      assert PrintStmts(ss) + tail == tail;
    } else {
      BlockRoundTrip(ss[1..], tail);
      BlockBodyCons(ss, tail, if tail == [] then [] else tail[1..]);
    }
  }

  /** A block body reads back when the body without its first statement does. */
  lemma {:induction false} BlockBodyCons(ss: seq<Stmt>, tail: seq<Token>, out: seq<Token>)
    requires |ss| > 0 && forall i :: 0 <= i < |ss| ==> WellFormedStmt(ss[i])
    requires tail == [] || tail[0].tokenType == RightBracket
    requires BlockBody(PrintStmts(ss[1..]) + tail) == Success((ss[1..], out))
    ensures BlockBody(PrintStmts(ss) + tail) == Success((ss, out))
    decreases StmtsSize(ss), 3, 1
  {
    var more := PrintStmts(ss[1..]) + tail;
    StmtsLayout(ss, tail);
    StmtsFollow(ss[1..], tail, ClosedEnd(ss[0]));
    BlockCons(ss[0], more, ss[1..], out);
    assert [ss[0]] + ss[1..] == ss;
  }

  /** A statement in front of a block body that reads back is read as its first statement. */
  lemma {:induction false} BlockCons(s: Stmt, more: seq<Token>, others: seq<Stmt>, out: seq<Token>)
    requires WellFormedStmt(s) == true && Follows(more, ClosedEnd(s))
    requires BlockBody(more) == Success((others, out))
    ensures BlockBody(PrintStmt(s) + more) == Success(([s] + others, out))
    decreases StmtSize(s), 3, 0
  {
    StmtStart(s);
    StatementRoundTrip(s, more);
    BlockBodyStep(PrintStmt(s) + more, s, more, others, out);
  }

  lemma {:induction false} StmtsLayout(ss: seq<Stmt>, tail: seq<Token>)
    requires |ss| > 0
    ensures PrintStmts(ss) + tail == PrintStmt(ss[0]) + (PrintStmts(ss[1..]) + tail)
  {
    assert PrintStmts(ss) == PrintStmt(ss[0]) + PrintStmts(ss[1..]);
  }

  /** A block whose `}` is missing ends with the input and is not an error. */
  lemma {:induction false} UnclosedBlock(ss: seq<Stmt>)
    requires forall i :: 0 <= i < |ss| ==> WellFormedStmt(ss[i])
    ensures Statement([Tok(LeftBracket)] + PrintStmts(ss)) == Success((Block(ss), []))
  {
    BlockRoundTrip(ss, []);
    assert PrintStmts(ss) + [] == PrintStmts(ss);
    BlockStep([Tok(LeftBracket)] + PrintStmts(ss), ss, []);
  }

  /** A non-empty program of well-formed statements printed as tokens parses back to itself. */
  lemma {:induction false} ParseRoundTrip(ss: seq<Stmt>)
    requires |ss| > 0
    requires forall i :: 0 <= i < |ss| ==> WellFormedStmt(ss[i])
    ensures Parse(PrintStmts(ss)) == Success(ss)
  {
    var rest := PrintStmts(ss[1..]);
    assert PrintStmts(ss) == PrintStmt(ss[0]) + rest;
    StmtsFollow(ss[1..], [], ClosedEnd(ss[0]));
    assert rest + [] == rest;
    StatementRoundTrip(ss[0], rest);
    if |ss| == 1 {
      assert [ss[0]] == ss;
    } else {
      StmtStart(ss[1]);
      ParseRoundTrip(ss[1..]);
      assert [ss[0]] + ss[1..] == ss;
    }
  }
}
