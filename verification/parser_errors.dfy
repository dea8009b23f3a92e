/**
  Parse errors (src/parser/errors.rs): an optional offending token and either
  "end of input" or the name of what was expected, with their messages.
*/
module ParserErrors {
  import opened Wrappers
  import opened Text
  import opened Tokens

  datatype ParserErrorType = EOF | UnexpectedInput(expected: string)

  datatype ParserError = ParserError(token: Option<Token>, errType: ParserErrorType)

  /** `ParserError::unexpected`: the token found and a description of what should have been there. */
  function Unexpected(t: Token, shouldBe: string): (e: ParserError)
    ensures e.token == Some(t) && e.errType == ParserErrorType.UnexpectedInput(shouldBe)
  {
    ParserError(Some(t), ParserErrorType.UnexpectedInput(shouldBe))
  }

  /** `ParserError::unexpected_token`: like `Unexpected`, naming the expected token type. */
  function UnexpectedToken(t: Token, shouldBe: TokenType): (e: ParserError)
    ensures e.token == Some(t)
    ensures e.errType.UnexpectedInput? && e.errType.expected == Debug(shouldBe)
  {
    Unexpected(t, Debug(shouldBe))
  }

  /** `ParserError::eof`: no token, end of input. */
  function Eof(): (e: ParserError)
    ensures e.token.None? && e.errType.EOF?
  {
    ParserError(None, EOF)
  }

  /** The `Display` message of a parse error. */
  function Display(e: ParserError): (s: string)
    ensures e.errType.EOF? ==> s == "Reached end of line while parsing"
    ensures e.errType.UnexpectedInput? && e.token.None? ==>
      s == "Expected " + e.errType.expected + ", reached EOF"
  {
    match e.errType
    case EOF => "Reached end of line while parsing"
    case UnexpectedInput(expected) =>
      match e.token
      case Some(t) => "Line " + NatToString(t.line) + ": expected " + expected + ", found " + Debug(t.tokenType)
      case None => "Expected " + expected + ", reached EOF"
  }

  /**
    The message of an unexpected-token error starts with "Line ", then the
    decimal line number (readable back from the text), then what was expected
    and the token found.
  */
  lemma {:induction false} DisplayShowsLine(e: ParserError)
    requires e.errType.UnexpectedInput? && e.token.Some?
    ensures exists digits: string ::
      && |digits| > 0 && AllDigits(digits) && DigitsValue(digits) == e.token.value.line
      && Display(e) == "Line " + digits + ": expected " + e.errType.expected + ", found " + Debug(e.token.value.tokenType)
  {
    var digits := NatToString(e.token.value.line);
    assert Display(e) == "Line " + digits + ": expected " + e.errType.expected + ", found " + Debug(e.token.value.tokenType);
  }

  /** The three message shapes are told apart by their first character. */
  lemma {:induction false} DisplayFirstCharacter(e: ParserError)
    ensures |Display(e)| > 0
    ensures Display(e)[0] == 'R' <==> e.errType.EOF?
    ensures Display(e)[0] == 'L' <==> e.errType.UnexpectedInput? && e.token.Some?
    ensures Display(e)[0] == 'E' <==> e.errType.UnexpectedInput? && e.token.None?
  {
  }
}
