/**
  What the parser guarantees, stated against a printer: every well-formed
  expression and program printed as tokens parses back to itself, binary
  levels nest by precedence and associate to the right, and the error cases
  report the token the source reports.
*/
module ParserProperties {
  import opened Wrappers
  import opened Tokens
  import opened ParserErrors
  import opened Ast
  import opened Parser

  /** The printer writes every token on the first line; the parser ignores lines. */
  function Tok(t: TokenType): Token {
    Token(t, 1)
  }

  /** An expression whose operators belong to the level its node stands for. */
  predicate WellFormed(e: Expr) {
    match e
    case Value(_) => true
    case Variable(_) => true
    case Condition(l, op, r) => IsComparison(op) && WellFormed(l) && WellFormed(r)
    case Addition(l, op, r) => IsAdditive(op) && WellFormed(l) && WellFormed(r)
    case Multiplication(l, op, r) => IsMultiplicative(op) && WellFormed(l) && WellFormed(r)
    case Call(c, args) => WellFormed(c) && forall i :: 0 <= i < |args| ==> WellFormed(args[i])
    case Access(t, _) => WellFormed(t)
    case Index(t, i) => WellFormed(t) && WellFormed(i)
  }

  function LiteralToken(lit: Literal): TokenType {
    match lit
    case NumberLit(n) => Number(n)
    case StringLit(s) => String(s)
    case BooleanLit(b) => Boolean(b)
    case NullLit => Null
  }

  /**
    Tokens of an expression: a binary node in parentheses, a postfix after
    its target.
  */
  function Print(e: Expr): seq<Token>
    decreases ExprSize(e), 1
  {
    match e
    case Value(lit) => [Tok(LiteralToken(lit))]
    case Variable(x) => [Tok(Identifier(x))]
    case Condition(l, op, r) => Binary(l, op, r)
    case Addition(l, op, r) => Binary(l, op, r)
    case Multiplication(l, op, r) => Binary(l, op, r)
    case Call(c, args) => Print(c) + [Tok(LeftParen)] + PrintArgs(args) + [Tok(RightParen)]
    case Access(t, f) => Print(t) + [Tok(Dot), Tok(Identifier(f))]
    case Index(t, i) => Print(t) + [Tok(LeftBrace)] + Print(i) + [Tok(RightBrace)]
  }

  function Binary(l: Expr, op: TokenType, r: Expr): seq<Token>
    decreases ExprSize(l) + ExprSize(r) + 1, 0
  {
    [Tok(LeftParen)] + Print(l) + [Tok(op)] + Print(r) + [Tok(RightParen)]
  }

  /** Arguments separated by commas. */
  function PrintArgs(args: seq<Expr>): seq<Token>
    decreases ExprsSize(args), 2
  {
    if |args| == 0 then []
    else if |args| == 1 then Print(args[0])
    else Print(args[0]) + [Tok(Comma)] + PrintArgs(args[1..])
  }

  /** A token after which an expression ends: not a postfix opener, not a binary operator. */
  predicate EndsExpression(ts: seq<Token>) {
    |ts| == 0 || (!IsPostfixOpener(ts[0].tokenType) && !IsBinaryOperator(ts[0].tokenType))
  }

  /** The tokens an expression can start with: a literal, an identifier or `(`. */
  predicate StartsExpression(t: TokenType) {
    t.Number? || t.String? || t.Boolean? || t.Null? || t.Identifier? || t.LeftParen?
  }

  /** A printed expression is never empty and starts where an expression can start. */
  lemma {:induction false} PrintStart(e: Expr)
    ensures |Print(e)| > 0 && StartsExpression(Print(e)[0].tokenType)
  {
    match e
    case Call(c, _) => PrintStart(c);
    case Access(t, _) => PrintStart(t);
    case Index(t, _) => PrintStart(t);
    case _ =>
  }

  /** The expression whose tokens come first in `Print(e)`. */
  function Head(e: Expr): (h: Expr)
    ensures !h.Call? && !h.Access? && !h.Index?
  {
    match e
    case Call(c, _) => Head(c)
    case Access(t, _) => Head(t)
    case Index(t, _) => Head(t)
    case _ => e
  }

  /** With no postfix opener next, `call_and_access` returns its base unchanged. */
  lemma {:induction false} NoPostfix(base: Expr, ts: seq<Token>)
    requires !(|ts| > 0 && IsPostfixOpener(ts[0].tokenType))
    ensures CallAndAccess(base, ts) == Success((base, ts))
  {
  }

  /** A call postfix is absorbed into the base and the chain continues after it. */
  lemma {:induction false} CallPostfix(base: Expr, args: seq<Expr>, rest: seq<Token>)
    requires forall i :: 0 <= i < |args| ==> WellFormed(args[i])
    ensures CallAndAccess(base, [Tok(LeftParen)] + PrintArgs(args) + [Tok(RightParen)] + rest)
         == CallAndAccess(Call(base, args), rest)
    decreases ExprsSize(args), 5
  {
    var ts := [Tok(LeftParen)] + PrintArgs(args) + [Tok(RightParen)] + rest;
    assert ts[1..] == PrintArgs(args) + [Tok(RightParen)] + rest;
    ArgsRoundTrip(args, rest);
    var after := [Tok(RightParen)] + rest;
    assert after[1..] == rest;
    var r := CallAndAccess(Call(base, args), rest);
    assert CallPart(base, ts) == r;
    if r.Success? {
      NoPostfixParts(r.value.0, r.value.1);
    }
  }

  lemma {:induction false} NoPostfixParts(e: Expr, ts: seq<Token>)
    requires !(|ts| > 0 && IsPostfixOpener(ts[0].tokenType))
    ensures IndexPart(e, ts) == Success((e, ts))
    ensures AccessPart(e, ts) == Success((e, ts))
  {
  }

  /** An index postfix is absorbed into the base and the chain continues after it. */
  lemma {:induction false} IndexPostfix(base: Expr, index: Expr, rest: seq<Token>)
    requires WellFormed(index)
    ensures CallAndAccess(base, [Tok(LeftBrace)] + Print(index) + [Tok(RightBrace)] + rest)
         == CallAndAccess(Index(base, index), rest)
    decreases ExprSize(index), 3
  {
    var ts := [Tok(LeftBrace)] + Print(index) + [Tok(RightBrace)] + rest;
    assert ts[1..] == Print(index) + ([Tok(RightBrace)] + rest);
    ExpressionReadsBack(index, [Tok(RightBrace)] + rest);
    var after := [Tok(RightBrace)] + rest;
    assert after[1..] == rest;
    var r := CallAndAccess(Index(base, index), rest);
    assert IndexPart(base, ts) == r;
    if r.Success? {
      NoPostfixParts(r.value.0, r.value.1);
    }
  }

  /** A field access is absorbed into the base and the chain continues after it. */
  lemma {:induction false} AccessPostfix(base: Expr, field: string, rest: seq<Token>)
    ensures CallAndAccess(base, [Tok(Dot), Tok(Identifier(field))] + rest)
         == CallAndAccess(Access(base, field), rest)
  {
    var ts := [Tok(Dot), Tok(Identifier(field))] + rest;
    assert ts[1..][1..] == rest;
    var r := CallAndAccess(Access(base, field), rest);
    assert AccessPart(base, ts) == r;
  }

  /** `factor` reads a printed expression back and hands it to `call_and_access`. */
  lemma {:induction false} FactorRoundTrip(e: Expr, rest: seq<Token>)
    requires WellFormed(e)
    ensures Factor(Print(e) + rest) == CallAndAccess(e, rest)
    decreases ExprSize(e), 1
  {
    match e
    case Value(lit) =>
      assert (Print(e) + rest)[1..] == rest;
    case Variable(x) =>
      assert (Print(e) + rest)[1..] == rest;
    case Condition(l, op, r) => BinaryRoundTrip(e, l, op, r, rest);
    case Addition(l, op, r) => BinaryRoundTrip(e, l, op, r, rest);
    case Multiplication(l, op, r) => BinaryRoundTrip(e, l, op, r, rest);
    case Call(c, args) =>
      var post := [Tok(LeftParen)] + PrintArgs(args) + [Tok(RightParen)] + rest;
      assert Print(e) + rest == Print(c) + post;
      FactorRoundTrip(c, post);
      CallPostfix(c, args, rest);
    case Access(t, f) =>
      var post := [Tok(Dot), Tok(Identifier(f))] + rest;
      assert Print(e) + rest == Print(t) + post;
      FactorRoundTrip(t, post);
      AccessPostfix(t, f, rest);
    case Index(t, i) =>
      var post := [Tok(LeftBrace)] + Print(i) + [Tok(RightBrace)] + rest;
      assert Print(e) + rest == Print(t) + post;
      FactorRoundTrip(t, post);
      IndexPostfix(t, i, rest);
  }

  /** A parenthesised binary node: the inner expression parses to the node itself. */
  lemma {:induction false} BinaryRoundTrip(e: Expr, l: Expr, op: TokenType, r: Expr, rest: seq<Token>)
    requires e == Expr.Condition(l, op, r) || e == Expr.Addition(l, op, r) || e == Expr.Multiplication(l, op, r)
    requires WellFormed(e)
    ensures Factor(Print(e) + rest) == CallAndAccess(e, rest)
    decreases ExprSize(e), 0
  {
    var close := [Tok(RightParen)] + rest;
    var opRest := [Tok(op)] + (Print(r) + close);
    var inner := Print(l) + opRest;
    BinaryLayout(e, l, op, r, rest);
    FactorRoundTrip(l, opRest);
    NoPostfix(l, opRest);
    ExpressionRoundTrip(r, close);
    if IsMultiplicative(op) {
      MultiplicationContinues(inner, l, opRest, r, close);
      AdditionStops(inner, e, close);
      ConditionStops(inner, e, close);
    } else if IsAdditive(op) {
      MultiplicationStops(inner, l, opRest);
      AdditionContinues(inner, l, opRest, r, close);
      ConditionStops(inner, e, close);
    } else {
      MultiplicationStops(inner, l, opRest);
      AdditionStops(inner, l, opRest);
      ConditionContinues(inner, l, opRest, r, close);
    }
    ParenthesisedFactor(Print(e) + rest, e, close);
  }

  /** Where the tokens of a parenthesised binary node sit. */
  lemma {:induction false} BinaryLayout(e: Expr, l: Expr, op: TokenType, r: Expr, rest: seq<Token>)
    requires e == Expr.Condition(l, op, r) || e == Expr.Addition(l, op, r) || e == Expr.Multiplication(l, op, r)
    ensures var close := [Tok(RightParen)] + rest;
            var opRest := [Tok(op)] + (Print(r) + close);
            && |Print(e) + rest| > 0 && (Print(e) + rest)[0].tokenType == LeftParen
            && (Print(e) + rest)[1..] == Print(l) + opRest
            && opRest[1..] == Print(r) + close
            && close[1..] == rest
  {
    var close := [Tok(RightParen)] + rest;
    var opRest := [Tok(op)] + (Print(r) + close);
    assert Print(e) + rest == [Tok(LeftParen)] + (Print(l) + opRest);
  }

  /** `factor` on `(`: an expression, then `)`, then the postfixes. */
  lemma {:induction false} ParenthesisedFactor(ts: seq<Token>, e: Expr, close: seq<Token>)
    requires |ts| > 0 && ts[0].tokenType == LeftParen
    requires Expression(ts[1..]) == Success((e, close))
    requires |close| > 0 && close[0].tokenType == RightParen
    ensures Factor(ts) == CallAndAccess(e, close[1..])
  {
  }

  /**
    Every level reads a printed well-formed expression back when what follows
    cannot continue it.
  */
  lemma {:induction false} ExpressionRoundTrip(e: Expr, rest: seq<Token>)
    requires WellFormed(e) && EndsExpression(rest)
    ensures Parser.Multiplication(Print(e) + rest) == Success((e, rest))
    ensures Parser.Addition(Print(e) + rest) == Success((e, rest))
    ensures Parser.Condition(Print(e) + rest) == Success((e, rest))
    ensures Expression(Print(e) + rest) == Success((e, rest))
    decreases ExprSize(e), 2, 0
  {
    FactorRoundTrip(e, rest);
    NoPostfix(e, rest);
  }

  /** The top level alone of `ExpressionRoundTrip`. */
  lemma {:induction false} ExpressionReadsBack(e: Expr, rest: seq<Token>)
    requires WellFormed(e) && EndsExpression(rest)
    ensures Expression(Print(e) + rest) == Success((e, rest))
    decreases ExprSize(e), 2, 1
  {
    ExpressionRoundTrip(e, rest);
  }

  /** The argument list of a call reads back up to its closing parenthesis. */
  lemma {:induction false} ArgsRoundTrip(args: seq<Expr>, rest: seq<Token>)
    requires forall i :: 0 <= i < |args| ==> WellFormed(args[i])
    ensures ArgList(PrintArgs(args) + [Tok(RightParen)] + rest) == Success((args, [Tok(RightParen)] + rest))
    decreases ExprsSize(args), 4
  {
    if |args| == 0 {
      assert PrintArgs(args) + [Tok(RightParen)] + rest == [Tok(RightParen)] + rest;
      assert args == [];
    } else if |args| == 1 {
      OneArgRoundTrip(args, rest);
    } else {
      MoreArgsRoundTrip(args, rest);
    }
  }

  lemma {:induction false} OneArgRoundTrip(args: seq<Expr>, rest: seq<Token>)
    requires |args| == 1 && WellFormed(args[0])
    ensures ArgList(PrintArgs(args) + [Tok(RightParen)] + rest) == Success((args, [Tok(RightParen)] + rest))
    decreases ExprsSize(args), 3
  {
    var close := [Tok(RightParen)] + rest;
    var ts := Print(args[0]) + close;
    assert PrintArgs(args) + [Tok(RightParen)] + rest == ts;
    PrintStart(args[0]);
    ExpressionRoundTrip(args[0], close);
    LastArgument(ts, args[0], close);
    assert [args[0]] == args;
  }

  lemma {:induction false} MoreArgsRoundTrip(args: seq<Expr>, rest: seq<Token>)
    requires |args| > 1
    requires forall i :: 0 <= i < |args| ==> WellFormed(args[i])
    ensures ArgList(PrintArgs(args) + [Tok(RightParen)] + rest) == Success((args, [Tok(RightParen)] + rest))
    decreases ExprsSize(args), 3
  {
    var after := [Tok(Comma)] + (PrintArgs(args[1..]) + ([Tok(RightParen)] + rest));
    assert PrintArgs(args) == Print(args[0]) + [Tok(Comma)] + PrintArgs(args[1..]);
    Separated(Print(args[0]), Tok(Comma), PrintArgs(args[1..]), Tok(RightParen), rest);
    ArgsRoundTrip(args[1..], rest);
    FirstThenMore(args[0], after, args[1..], [Tok(RightParen)] + rest);
    assert [args[0]] + args[1..] == args;
  }

  /** An argument, a comma, and further arguments that read back, read back together. */
  lemma {:induction false} FirstThenMore(e: Expr, after: seq<Token>, more: seq<Expr>, tail: seq<Token>)
    requires WellFormed(e) && |after| > 0 && after[0] == Tok(Comma)
    requires ArgList(after[1..]) == Success((more, tail))
    ensures ArgList(Print(e) + after) == Success(([e] + more, tail))
    decreases ExprSize(e), 4
  {
    PrintStart(e);
    ExpressionReadsBack(e, after);
    NextArgument(Print(e) + after, e, after, more, tail);
  }

  /** Regrouping `a, x, c, y, r` around the separator `x`. */
  lemma {:induction false} Separated<T>(a: seq<T>, x: T, c: seq<T>, y: T, r: seq<T>)
    ensures a + [x] + c + [y] + r == a + ([x] + (c + ([y] + r)))
    ensures ([x] + (c + ([y] + r)))[1..] == c + [y] + r
  {
    assert a + [x] + c + [y] + r == a + ([x] + (c + ([y] + r)));
  }

  lemma {:induction false} LastArgument(ts: seq<Token>, e: Expr, after: seq<Token>)
    requires |ts| > 0 && StartsExpression(ts[0].tokenType)
    requires Expression(ts) == Success((e, after))
    requires CurrentType(after) != Some(Comma)
    ensures ArgList(ts) == Success(([e], after))
  {
  }

  lemma {:induction false} NextArgument(ts: seq<Token>, e: Expr, after: seq<Token>, more: seq<Expr>, rest: seq<Token>)
    requires |ts| > 0 && StartsExpression(ts[0].tokenType)
    requires Expression(ts) == Success((e, after))
    requires CurrentType(after) == Some(Comma)
    requires ArgList(after[1..]) == Success((more, rest))
    ensures ArgList(ts) == Success(([e] + more, rest))
  {
  }

  /** A factor followed by anything but a postfix opener is read on its own. */
  lemma {:induction false} FactorThen(e: Expr, rest: seq<Token>)
    requires WellFormed(e)
    requires !(|rest| > 0 && IsPostfixOpener(rest[0].tokenType))
    ensures Factor(Print(e) + rest) == Success((e, rest))
  {
    FactorRoundTrip(e, rest);
    NoPostfix(e, rest);
  }

  /** One step of `multiplication`: stop, or read an operator and the rest of the level. */
  lemma {:induction false} MultiplicationStops(ts: seq<Token>, x: Expr, rest: seq<Token>)
    requires Factor(ts) == Success((x, rest))
    requires !(|rest| > 0 && IsMultiplicative(rest[0].tokenType))
    ensures Parser.Multiplication(ts) == Success((x, rest))
  {
  }

  lemma {:induction false} MultiplicationContinues(ts: seq<Token>, x: Expr, mid: seq<Token>, y: Expr, rest: seq<Token>)
    requires Factor(ts) == Success((x, mid))
    requires |mid| > 0 && IsMultiplicative(mid[0].tokenType)
    requires Parser.Multiplication(mid[1..]) == Success((y, rest))
    ensures Parser.Multiplication(ts) == Success((Expr.Multiplication(x, mid[0].tokenType, y), rest))
  {
  }

  /** One step of `addition`. */
  lemma {:induction false} AdditionStops(ts: seq<Token>, x: Expr, rest: seq<Token>)
    requires Parser.Multiplication(ts) == Success((x, rest))
    requires !(|rest| > 0 && IsAdditive(rest[0].tokenType))
    ensures Parser.Addition(ts) == Success((x, rest))
  {
  }

  lemma {:induction false} AdditionContinues(ts: seq<Token>, x: Expr, mid: seq<Token>, y: Expr, rest: seq<Token>)
    requires Parser.Multiplication(ts) == Success((x, mid))
    requires |mid| > 0 && IsAdditive(mid[0].tokenType)
    requires Parser.Addition(mid[1..]) == Success((y, rest))
    ensures Parser.Addition(ts) == Success((Expr.Addition(x, mid[0].tokenType, y), rest))
  {
  }

  /** One step of `condition`. */
  lemma {:induction false} ConditionStops(ts: seq<Token>, x: Expr, rest: seq<Token>)
    requires Parser.Addition(ts) == Success((x, rest))
    requires !(|rest| > 0 && IsComparison(rest[0].tokenType))
    ensures Expression(ts) == Success((x, rest))
  {
  }

  lemma {:induction false} ConditionContinues(ts: seq<Token>, x: Expr, mid: seq<Token>, y: Expr, rest: seq<Token>)
    requires Parser.Addition(ts) == Success((x, mid))
    requires |mid| > 0 && IsComparison(mid[0].tokenType)
    requires Parser.Condition(mid[1..]) == Success((y, rest))
    ensures Expression(ts) == Success((Expr.Condition(x, mid[0].tokenType, y), rest))
  {
  }

  /** The tokens `a op1 b op2 c` followed by `rest`, split where the operators sit. */
  lemma {:induction false} ThreeOperands(a: Expr, op1: TokenType, b: Expr, op2: TokenType, c: Expr, rest: seq<Token>)
    requires WellFormed(a) && WellFormed(b) && WellFormed(c)
    requires IsBinaryOperator(op1) && IsBinaryOperator(op2) && EndsExpression(rest)
    ensures var r2 := [Tok(op2)] + (Print(c) + rest);
            var r1 := [Tok(op1)] + (Print(b) + r2);
            && Print(a) + [Tok(op1)] + Print(b) + [Tok(op2)] + Print(c) + rest == Print(a) + r1
            && Factor(Print(a) + r1) == Success((a, r1))
            && r1[1..] == Print(b) + r2
            && Factor(Print(b) + r2) == Success((b, r2))
            && r2[1..] == Print(c) + rest
  {
    var r2 := [Tok(op2)] + (Print(c) + rest);
    var r1 := [Tok(op1)] + (Print(b) + r2);
    Regroup(Print(a), Tok(op1), Print(b), Tok(op2), Print(c), rest);
    FactorThen(a, r1);
    FactorThen(b, r2);
  }

  /** Concatenation of five pieces and two operator tokens, regrouped to the right. */
  lemma {:induction false} Regroup(pa: seq<Token>, t1: Token, pb: seq<Token>, t2: Token, pc: seq<Token>, rest: seq<Token>)
    ensures var r2 := [t2] + (pc + rest);
            var r1 := [t1] + (pb + r2);
            && pa + [t1] + pb + [t2] + pc + rest == pa + r1
            && r1[1..] == pb + r2
            && r2[1..] == pc + rest
  {
    var r2 := [t2] + (pc + rest);
    var r1 := [t1] + (pb + r2);
    assert pa + [t1] + pb + [t2] + pc + rest == pa + r1;
    assert r1[1..] == pb + r2;
  }

  /** `a - b - c` is `a - (b - c)`: the additive level associates to the right. */
  lemma {:induction false} AdditionGroupsRight(a: Expr, op1: TokenType, b: Expr, op2: TokenType, c: Expr, rest: seq<Token>)
    requires WellFormed(a) && WellFormed(b) && WellFormed(c)
    requires IsAdditive(op1) && IsAdditive(op2) && EndsExpression(rest)
    ensures Expression(Print(a) + [Tok(op1)] + Print(b) + [Tok(op2)] + Print(c) + rest)
         == Success((Expr.Addition(a, op1, Expr.Addition(b, op2, c)), rest))
  {
    var r2 := [Tok(op2)] + (Print(c) + rest);
    var r1 := [Tok(op1)] + (Print(b) + r2);
    ThreeOperands(a, op1, b, op2, c, rest);
    ExpressionRoundTrip(c, rest);
    MultiplicationStops(Print(b) + r2, b, r2);
    AdditionContinues(Print(b) + r2, b, r2, c, rest);
    MultiplicationStops(Print(a) + r1, a, r1);
    AdditionContinues(Print(a) + r1, a, r1, Expr.Addition(b, op2, c), rest);
    ConditionStops(Print(a) + r1, Expr.Addition(a, op1, Expr.Addition(b, op2, c)), rest);
  }

  /** `a * b * c` is `a * (b * c)`. */
  lemma {:induction false} MultiplicationGroupsRight(a: Expr, op1: TokenType, b: Expr, op2: TokenType, c: Expr, rest: seq<Token>)
    requires WellFormed(a) && WellFormed(b) && WellFormed(c)
    requires IsMultiplicative(op1) && IsMultiplicative(op2) && EndsExpression(rest)
    ensures Expression(Print(a) + [Tok(op1)] + Print(b) + [Tok(op2)] + Print(c) + rest)
         == Success((Expr.Multiplication(a, op1, Expr.Multiplication(b, op2, c)), rest))
  {
    var r2 := [Tok(op2)] + (Print(c) + rest);
    var r1 := [Tok(op1)] + (Print(b) + r2);
    var e := Expr.Multiplication(a, op1, Expr.Multiplication(b, op2, c));
    ThreeOperands(a, op1, b, op2, c, rest);
    ExpressionRoundTrip(c, rest);
    MultiplicationContinues(Print(b) + r2, b, r2, c, rest);
    MultiplicationContinues(Print(a) + r1, a, r1, Expr.Multiplication(b, op2, c), rest);
    AdditionStops(Print(a) + r1, e, rest);
    ConditionStops(Print(a) + r1, e, rest);
  }

  /** `a < b < c` is `a < (b < c)`. */
  lemma {:induction false} ConditionGroupsRight(a: Expr, op1: TokenType, b: Expr, op2: TokenType, c: Expr, rest: seq<Token>)
    requires WellFormed(a) && WellFormed(b) && WellFormed(c)
    requires IsComparison(op1) && IsComparison(op2) && EndsExpression(rest)
    ensures Expression(Print(a) + [Tok(op1)] + Print(b) + [Tok(op2)] + Print(c) + rest)
         == Success((Expr.Condition(a, op1, Expr.Condition(b, op2, c)), rest))
  {
    var r2 := [Tok(op2)] + (Print(c) + rest);
    var r1 := [Tok(op1)] + (Print(b) + r2);
    ThreeOperands(a, op1, b, op2, c, rest);
    ExpressionRoundTrip(c, rest);
    MultiplicationStops(Print(b) + r2, b, r2);
    AdditionStops(Print(b) + r2, b, r2);
    ConditionContinues(Print(b) + r2, b, r2, c, rest);
    MultiplicationStops(Print(a) + r1, a, r1);
    AdditionStops(Print(a) + r1, a, r1);
    ConditionContinues(Print(a) + r1, a, r1, Expr.Condition(b, op2, c), rest);
  }

  /** `a + b * c` is `a + (b * c)`: the multiplicative level binds tighter. */
  lemma {:induction false} MultiplicationBindsTighterRight(a: Expr, op1: TokenType, b: Expr, op2: TokenType, c: Expr, rest: seq<Token>)
    requires WellFormed(a) && WellFormed(b) && WellFormed(c)
    requires IsAdditive(op1) && IsMultiplicative(op2) && EndsExpression(rest)
    ensures Expression(Print(a) + [Tok(op1)] + Print(b) + [Tok(op2)] + Print(c) + rest)
         == Success((Expr.Addition(a, op1, Expr.Multiplication(b, op2, c)), rest))
  {
    var r2 := [Tok(op2)] + (Print(c) + rest);
    var r1 := [Tok(op1)] + (Print(b) + r2);
    var e := Expr.Addition(a, op1, Expr.Multiplication(b, op2, c));
    ThreeOperands(a, op1, b, op2, c, rest);
    ExpressionRoundTrip(c, rest);
    MultiplicationContinues(Print(b) + r2, b, r2, c, rest);
    AdditionStops(Print(b) + r2, Expr.Multiplication(b, op2, c), rest);
    MultiplicationStops(Print(a) + r1, a, r1);
    AdditionContinues(Print(a) + r1, a, r1, Expr.Multiplication(b, op2, c), rest);
    ConditionStops(Print(a) + r1, e, rest);
  }

  /** `a * b + c` is `(a * b) + c`. */
  lemma {:induction false} MultiplicationBindsTighterLeft(a: Expr, op1: TokenType, b: Expr, op2: TokenType, c: Expr, rest: seq<Token>)
    requires WellFormed(a) && WellFormed(b) && WellFormed(c)
    requires IsMultiplicative(op1) && IsAdditive(op2) && EndsExpression(rest)
    ensures Expression(Print(a) + [Tok(op1)] + Print(b) + [Tok(op2)] + Print(c) + rest)
         == Success((Expr.Addition(Expr.Multiplication(a, op1, b), op2, c), rest))
  {
    var r2 := [Tok(op2)] + (Print(c) + rest);
    var r1 := [Tok(op1)] + (Print(b) + r2);
    var ab := Expr.Multiplication(a, op1, b);
    ThreeOperands(a, op1, b, op2, c, rest);
    ExpressionRoundTrip(c, rest);
    MultiplicationStops(Print(b) + r2, b, r2);
    MultiplicationContinues(Print(a) + r1, a, r1, b, r2);
    AdditionContinues(Print(a) + r1, ab, r2, c, rest);
    ConditionStops(Print(a) + r1, Expr.Addition(ab, op2, c), rest);
  }

  /** `a + b < c` is `(a + b) < c`: comparisons bind loosest. */
  lemma {:induction false} ComparisonBindsLoosest(a: Expr, op1: TokenType, b: Expr, op2: TokenType, c: Expr, rest: seq<Token>)
    requires WellFormed(a) && WellFormed(b) && WellFormed(c)
    requires IsAdditive(op1) && IsComparison(op2) && EndsExpression(rest)
    ensures Expression(Print(a) + [Tok(op1)] + Print(b) + [Tok(op2)] + Print(c) + rest)
         == Success((Expr.Condition(Expr.Addition(a, op1, b), op2, c), rest))
  {
    var r2 := [Tok(op2)] + (Print(c) + rest);
    var r1 := [Tok(op1)] + (Print(b) + r2);
    var ab := Expr.Addition(a, op1, b);
    ThreeOperands(a, op1, b, op2, c, rest);
    ExpressionRoundTrip(c, rest);
    MultiplicationStops(Print(b) + r2, b, r2);
    AdditionStops(Print(b) + r2, b, r2);
    MultiplicationStops(Print(a) + r1, a, r1);
    AdditionContinues(Print(a) + r1, a, r1, b, r2);
    ConditionContinues(Print(a) + r1, ab, r2, c, rest);
  }

  /** A token that cannot start a factor is reported as found where a factor was expected. */
  lemma {:induction false} FactorRejects(t: Token, rest: seq<Token>)
    requires !StartsExpression(t.tokenType)
    ensures Factor([t] + rest) == Failure(ParserErrors.Unexpected(t, "factor"))
  {
  }

  /** A parenthesised expression must be closed by `)`. */
  lemma {:induction false} ParenthesisMustClose(e: Expr, rest: seq<Token>)
    requires WellFormed(e) && EndsExpression(rest)
    requires !(|rest| > 0 && rest[0].tokenType == RightParen)
    ensures Factor([Tok(LeftParen)] + Print(e) + rest)
         == Failure(if |rest| == 0 then Eof() else UnexpectedToken(rest[0], RightParen))
  {
    var ts := [Tok(LeftParen)] + Print(e) + rest;
    assert ts[1..] == Print(e) + rest;
    ExpressionRoundTrip(e, rest);
  }

  /** After `.`, the end of the input is an EOF error and a non-identifier is unexpected. */
  lemma {:induction false} AccessNeedsName(base: Expr, dot: Token, rest: seq<Token>)
    requires dot.tokenType == Dot
    ensures CallAndAccess(base, [dot]) == Failure(Eof())
    ensures |rest| > 0 && !rest[0].tokenType.Identifier? ==>
      CallAndAccess(base, [dot] + rest) == Failure(ParserErrors.Unexpected(rest[0], "object"))
  {
    assert [dot][1..] == [];
    assert ([dot] + rest)[1..] == rest;
  }

  /** `var` must be followed by an identifier; the error names the `var` token. */
  lemma {:induction false} DeclarationNeedsName(v: Token, rest: seq<Token>)
    requires v.tokenType == Var
    ensures |rest| == 0 ==> Statement([v] + rest) == Failure(Eof())
    ensures |rest| > 0 && !rest[0].tokenType.Identifier? ==>
      Statement([v] + rest) == Failure(ParserErrors.Unexpected(v, "identifier"))
  {
    assert ([v] + rest)[1..] == rest;
  }

  /** `fn` must be followed by an identifier; the error names the `fn` token. */
  lemma {:induction false} FunctionNeedsName(f: Token, rest: seq<Token>)
    requires f.tokenType == Func
    requires !(|rest| > 0 && rest[0].tokenType.Identifier?)
    ensures Statement([f] + rest) == Failure(ParserErrors.Unexpected(f, "identifier"))
  {
    assert ([f] + rest)[1..] == rest;
  }
}
