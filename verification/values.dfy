/**
  Script values (`ScriptValue` of src/expression.rs) and the operations on
  them that need no interpreter state: arithmetic, comparison and display.

  Numbers are integers here; the source's `f64` arithmetic is modelled only
  where its result is an integer, and the two operations whose float result
  is not one (division by zero, a division that leaves a remainder) stop with
  a `Halt` instead. Objects, lists and closures live in the interpreter's
  heap and are referred to by index, as the source refers to them through
  `Rc`.
*/
module Values {
  import opened Wrappers
  import opened Text
  import Tokens
  import Ast

  datatype Value =
    | Number(n: int)
    | String(s: string)
    | Boolean(b: bool)
    | Function(params: seq<string>, body: Ast.Stmt, env: nat)   // env: the frame the closure captured
    | Object(id: nat)
    | List(id: nat)
    | Null
    | Unit

  /**
    Ways evaluation stops without a script error: the source's panics, and
    the float results the integer model cannot represent.
  */
  datatype Halt =
    | ImpossibleOperation       // an operator the operand kinds do not support
    | CannotCombine             // `numeric` on operands that are not both numbers
    | CannotCompare             // `boolean` on operands of different or unsupported kinds
    | NonFinite                 // division by zero: infinity or NaN in the source
    | Fractional                // a division with a remainder: a non-integer in the source
    | CannotAssign              // assignment to an expression without an `assign`
    | UndefinedAssignment       // `put` of a name no scope defines
    | NotAnObject               // field or index assignment on the wrong kind of value
    | NotAnIndex                // index assignment with a non-number index
    | IndexOutOfBounds          // a list position past the end
    | NotAFunction              // `map` given something other than a function
    | NotAList                  // `map` given something other than a list
    | MissingArgument           // fewer arguments than parameters
    | ExitAtRoot                // `exit` of the outermost scope

  /** Rust's `n as usize` of a float holding the integer `n`: negative values saturate to 0. */
  function ToIndex(n: int): (k: nat)
    ensures n >= 0 ==> k == n
    ensures n < 0 ==> k == 0
  {
    if n < 0 then 0 else n
  }

  predicate IsArithmetic(op: Tokens.TokenType) {
    op.Plus? || op.Minus? || op.Star? || op.Slash?
  }

  /**
    `ScriptValue::numeric`: `+ - * /` on two numbers. The operand kinds are
    checked before the operator.
  */
  function Numeric(left: Value, op: Tokens.TokenType, right: Value): (r: Result<Value, Halt>)
    ensures r.Success? <==>
      left.Number? && right.Number? && IsArithmetic(op)
      && (op.Slash? ==> right.n != 0 && left.n % right.n == 0)
    ensures r.Success? ==> r.value.Number?
    ensures !(left.Number? && right.Number?) ==> r == Failure(CannotCombine)
    ensures left.Number? && right.Number? && !IsArithmetic(op) ==> r == Failure(ImpossibleOperation)
  {
    match (left, right)
    case (Number(a), Number(b)) =>
      (match op
       case Plus => Success(Number(a + b))
       case Minus => Success(Number(a - b))
       case Star => Success(Number(a * b))
       case Slash =>
         if b == 0 then Failure(NonFinite)
         else if a % b != 0 then Failure(Fractional)
         else Success(Number(a / b))
       case _ => Failure(ImpossibleOperation))
    case _ => Failure(CannotCombine)
  }

  predicate IsEquality(op: Tokens.TokenType) {
    op.Equals? || op.NotEquals?
  }

  /**
    `ScriptValue::boolean`: two numbers support the six comparisons, two
    booleans only `==` and `!=`; every other pair of operands is an error.
  */
  function Compare(left: Value, op: Tokens.TokenType, right: Value): (r: Result<Value, Halt>)
    ensures r.Success? <==>
      (left.Number? && right.Number? && Tokens.IsComparison(op))
      || (left.Boolean? && right.Boolean? && IsEquality(op))
    ensures r.Success? ==> r.value.Boolean?
    ensures !(left.Number? && right.Number?) && !(left.Boolean? && right.Boolean?) ==> r == Failure(CannotCompare)
    ensures op.Equals? && r.Success? ==> r.value.b == (left == right)
    ensures op.NotEquals? && r.Success? ==> r.value.b == (left != right)
  {
    match (left, right)
    case (Number(a), Number(b)) =>
      (match op
       case Equals => Success(Boolean(a == b))
       case NotEquals => Success(Boolean(a != b))
       case Lesser => Success(Boolean(a < b))
       case Greater => Success(Boolean(a > b))
       case EqLesser => Success(Boolean(a <= b))
       case EqGreater => Success(Boolean(a >= b))
       case _ => Failure(ImpossibleOperation))
    case (Boolean(a), Boolean(b)) =>
      (match op
       case Equals => Success(Boolean(a == b))
       case NotEquals => Success(Boolean(a != b))
       case _ => Failure(ImpossibleOperation))
    case _ => Failure(CannotCompare)
  }

  /**
    `Display` of a value. Objects and lists print through formatting code
    that is not part of this model, so they have no message here.
  */
  function Display(v: Value): (r: Option<string>)
    ensures r.None? <==> v.Object? || v.List?
    ensures v.Null? ==> r == Some("null")
    ensures v.Unit? ==> r == Some("()")
    ensures v.Function? ==> r == Some("Func")
    ensures v.Boolean? ==> r == Some(if v.b then "true" else "false")
    ensures v.String? ==> r == Some(v.s)
  {
    match v
    case Number(n) => Some(IntToString(n))
    case Boolean(b) => Some(if b then "true" else "false")
    case Function(_, _, _) => Some("Func")
    case Object(_) => None
    case String(s) => Some(s)
    case List(_) => None
    case Null => Some("null")
    case Unit => Some("()")
  }

  /** Subtraction undoes addition. */
  lemma {:induction false} SubtractionUndoesAddition(a: int, b: int)
    ensures Numeric(Number(a), Tokens.Plus, Number(b)).Success?
    ensures Numeric(Numeric(Number(a), Tokens.Plus, Number(b)).value, Tokens.Minus, Number(b)) == Success(Number(a))
  {
  }

  /**
    Division undoes multiplication by a non-zero number, on the model's
    integers. The source's `f64` agrees only while the product is exact and
    finite: past 2^53 it rounds, and past the largest double it is infinite.
  */
  lemma {:induction false} DivisionUndoesMultiplication(a: int, b: int)
    requires b != 0
    ensures Numeric(Number(a), Tokens.Star, Number(b)).Success?
    ensures Numeric(Numeric(Number(a), Tokens.Star, Number(b)).value, Tokens.Slash, Number(b)) == Success(Number(a))
  {
    var p := a * b;
    assert p % b == 0 && p / b == a by {
      LemmaMulDiv(a, b);
    }
  }

  /** Exact division of a product: the remainder is zero and the quotient is the other factor. */
  lemma {:induction false} LemmaMulDiv(a: int, b: int)
    requires b != 0
    ensures (a * b) % b == 0 && (a * b) / b == a
  {
    var q, r := (a * b) / b, (a * b) % b;
    assert (a - q) * b == r;
    if a - q != 0 {
      MulNonZeroMagnitude(a - q, b);
      assert false;
    }
  }

  /** A non-zero multiple of `b` is at least as large as `b` in magnitude. */
  lemma {:induction false} MulNonZeroMagnitude(x: int, b: int)
    requires x != 0 && b != 0
    ensures x * b >= (if b > 0 then b else -b) || x * b <= -(if b > 0 then b else -b)
  {
    if x > 0 && b > 0 { LemmaMulAtLeast(x, b); }
    else if x > 0 { LemmaMulAtMost(x, b); }
    else if b > 0 { assert x * b == -((-x) * b); LemmaMulAtLeast(-x, b); }
    else { assert x * b == (-x) * (-b); LemmaMulAtLeast(-x, -b); }
  }

  lemma {:induction false} LemmaMulAtLeast(x: int, b: int)
    requires x >= 1 && b > 0
    ensures x * b >= b
  {
  }

  lemma {:induction false} LemmaMulAtMost(x: int, b: int)
    requires x >= 1 && b < 0
    ensures x * b <= b
  {
  }

  /** `==` and `!=` succeed on the same operands and give opposite answers. */
  lemma {:induction false} NotEqualsNegatesEquals(left: Value, right: Value)
    ensures Compare(left, Tokens.Equals, right).Success? <==> Compare(left, Tokens.NotEquals, right).Success?
    ensures Compare(left, Tokens.Equals, right).Success? ==>
      Compare(left, Tokens.NotEquals, right).value.b == !Compare(left, Tokens.Equals, right).value.b
  {
  }

  /** On numbers, `<` and `>=` are complementary, as are `>` and `<=`. */
  lemma {:induction false} OrderingsComplement(a: int, b: int)
    ensures Compare(Number(a), Tokens.Lesser, Number(b)).value.b == !Compare(Number(a), Tokens.EqGreater, Number(b)).value.b
    ensures Compare(Number(a), Tokens.Greater, Number(b)).value.b == !Compare(Number(a), Tokens.EqLesser, Number(b)).value.b
    ensures Compare(Number(a), Tokens.Lesser, Number(b)).value.b == Compare(Number(b), Tokens.Greater, Number(a)).value.b
  {
  }

  /** A number displays as its decimal digits, which read back to the number. */
  lemma {:induction false} NumberDisplayReadsBack(n: int)
    ensures Display(Number(n)).Some?
    ensures var s := Display(Number(n)).value;
      if n >= 0 then AllDigits(s) && DigitsValue(s) == n
      else |s| > 1 && s[0] == '-' && AllDigits(s[1..]) && DigitsValue(s[1..]) == -n
  {
    var s := IntToString(n);
    if n < 0 {
      assert |s[1..]| > 0;
    }
  }
}
