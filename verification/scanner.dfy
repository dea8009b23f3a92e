/**
  The lexer (src/scanner.rs): turns the characters of a script into token
  types. Words and numbers are maximal runs, the two-character operators use
  one character of lookahead, and words found in the keyword table become
  keyword tokens.
*/
module Scanner {
  import opened Wrappers
  import opened Text
  import opened Tokens

  /** What makes the source's scanner panic: `unwrap` on an empty input and an unknown character. */
  datatype ScanError = EmptyInput | UnexpectedCharacter(c: char)

  predicate IsWordStart(c: char) {
    IsLetter(c) || c == '_'
  }

  predicate IsWordChar(c: char) {
    IsLetter(c) || IsDigit(c) || c == '_'
  }

  predicate AllWordChars(s: seq<char>) {
    forall i :: 0 <= i < |s| ==> IsWordChar(s[i])
  }

  predicate IsWhitespace(c: char) {
    c == ' ' || c == '\r' || c == '\n'
  }

  /** The keyword table built by `Scanner::new`. */
  const Keywords: map<string, TokenType> := map[
    "var" := Var,
    "if" := If,
    "else" := Else,
    "fn" := Func,
    "while" := While,
    "true" := Boolean(true),
    "false" := Boolean(false),
    "null" := Null,
    "return" := Return
  ]

  /**
    The keyword table holds exactly the nine keywords, each a word the
    scanner reads whole, and none of them becomes an identifier.
  */
  lemma {:induction false} KeywordTable()
    ensures Keywords.Keys == {"var", "if", "else", "fn", "while", "true", "false", "null", "return"}
    ensures forall w :: w in Keywords ==> |w| > 0 && IsWordStart(w[0]) && AllWordChars(w) && !Keywords[w].Identifier?
  {
    assert Keywords.Keys == {"var", "if", "else", "fn", "while", "true", "false", "null", "return"};
  }

  /** Length of the longest prefix of `s` made of word characters. */
  function WordLength(s: seq<char>): (n: nat)
    ensures n <= |s|
    ensures forall i :: 0 <= i < n ==> IsWordChar(s[i])
    ensures n < |s| ==> !IsWordChar(s[n])
  {
    if |s| == 0 || !IsWordChar(s[0]) then 0 else 1 + WordLength(s[1..])
  }

  /** Length of the longest prefix of `s` made of decimal digits. */
  function DigitRunLength(s: seq<char>): (n: nat)
    ensures n <= |s|
    ensures forall i :: 0 <= i < n ==> IsDigit(s[i])
    ensures n < |s| ==> !IsDigit(s[n])
  {
    if |s| == 0 || !IsDigit(s[0]) then 0 else 1 + DigitRunLength(s[1..])
  }

  /** Position of the first '"' in `s`, or `|s|` when there is none. */
  function QuoteIndex(s: seq<char>): (n: nat)
    ensures n <= |s|
    ensures forall i :: 0 <= i < n ==> s[i] != '"'
    ensures n < |s| ==> s[n] == '"'
  {
    if |s| == 0 || s[0] == '"' then 0 else 1 + QuoteIndex(s[1..])
  }

  /**
    `match_or`: when the next character is `should`, consume it and produce
    `result`; otherwise leave the input alone and produce `default`.
  */
  function MatchOr(rest: seq<char>, should: char, result: TokenType, default: TokenType): (r: (TokenType, seq<char>))
    ensures |rest| - 1 <= |r.1| <= |rest| && r.1 == rest[|rest| - |r.1|..]
    ensures |r.1| < |rest| <==> |rest| > 0 && rest[0] == should
    ensures r.0 == (if |r.1| < |rest| then result else default)
  {
    if |rest| > 0 && rest[0] == should then (result, rest[1..]) else (default, rest)
  }

  /** `word`: `first` and every word character after it; a keyword when the table has it. */
  function Word(first: char, rest: seq<char>): (r: (TokenType, seq<char>))
    ensures |r.1| <= |rest| && r.1 == rest[|rest| - |r.1|..]
    ensures AllWordChars(rest[..|rest| - |r.1|])
    ensures |r.1| > 0 ==> !IsWordChar(r.1[0])
    ensures var w := [first] + rest[..|rest| - |r.1|];
      r.0 == (if w in Keywords then Keywords[w] else Identifier(w))
  {
    var n := WordLength(rest);
    var w := [first] + rest[..n];
    (if w in Keywords then Keywords[w] else Identifier(w), rest[n..])
  }

  /** `number`: `first` and every digit after it, read as a decimal number. */
  function NumberToken(first: char, rest: seq<char>): (r: (TokenType, seq<char>))
    ensures |r.1| <= |rest| && r.1 == rest[|rest| - |r.1|..]
    ensures AllDigits(rest[..|rest| - |r.1|])
    ensures |r.1| > 0 ==> !IsDigit(r.1[0])
    ensures r.0 == Number(DigitsValue([first] + rest[..|rest| - |r.1|]))
  {
    var n := DigitRunLength(rest);
    var digits := [first] + rest[..n];
    (Number(DigitsValue(digits)), rest[n..])
  }

  /**
    `string`: everything up to the next '"', which is consumed; an
    unterminated string takes the rest of the input.
  */
  function StringToken(rest: seq<char>): (r: (TokenType, seq<char>))
    ensures r.0.String? && |r.0.text| <= |rest| && r.0.text == rest[..|r.0.text|]
    ensures '"' !in r.0.text
    ensures |r.0.text| < |rest| ==> rest[|r.0.text|] == '"' && r.1 == rest[|r.0.text| + 1..]
    ensures |r.0.text| == |rest| ==> r.1 == []
  {
    var n := QuoteIndex(rest);
    (String(rest[..n]), if n < |rest| then rest[n + 1..] else [])
  }

  function Some2(p: (TokenType, seq<char>)): (Option<TokenType>, seq<char>) {
    (Some(p.0), p.1)
  }

  /**
    `next_token`: the token the first character starts (None for whitespace)
    and the input left after it.
  */
  function NextToken(input: seq<char>): (r: Result<(Option<TokenType>, seq<char>), ScanError>)
    ensures r.Success? ==> |r.value.1| < |input|
    ensures |input| == 0 ==> r == Failure(EmptyInput)
  {
    if |input| == 0 then Failure(EmptyInput)
    else
      var c, rest := input[0], input[1..];
      match c
      case '+' => Success((Some(Plus), rest))
      case '-' => Success((Some(Minus), rest))
      case '*' => Success((Some(Star), rest))
      case '/' => Success((Some(Slash), rest))
      case '(' => Success((Some(LeftParen), rest))
      case ')' => Success((Some(RightParen), rest))
      case '{' => Success((Some(LeftBracket), rest))
      case '}' => Success((Some(RightBracket), rest))
      case '[' => Success((Some(LeftBrace), rest))
      case ']' => Success((Some(RightBrace), rest))
      case ',' => Success((Some(Comma), rest))
      case '.' => Success((Some(Dot), rest))
      case '=' => Success(Some2(MatchOr(rest, '=', Equals, Assign)))
      case '<' => Success(Some2(MatchOr(rest, '=', EqLesser, Lesser)))
      case '>' => Success(Some2(MatchOr(rest, '=', EqGreater, Greater)))
      case '!' => Success(Some2(MatchOr(rest, '=', NotEquals, Not)))
      case '&' => Success(Some2(MatchOr(rest, '&', And, BitAnd)))
      case '|' => Success(Some2(MatchOr(rest, '|', Or, BitOr)))
      case '"' => Success(Some2(StringToken(rest)))
      case _ =>
        if IsWordStart(c) then Success(Some2(Word(c, rest)))
        else if IsDigit(c) then Success(Some2(NumberToken(c, rest)))
        else if IsWhitespace(c) then Success((None, rest))
        else Failure(UnexpectedCharacter(c))
  }

  /**
    `scan`: take one token (or whitespace) at a time until the input is
    exhausted. Like the source, it takes a character before it looks for the
    end, so an empty input is an error.
  */
  function Scan(input: seq<char>): (r: Result<seq<TokenType>, ScanError>)
    ensures |input| == 0 ==> r == Failure(EmptyInput)
    ensures r.Success? ==> |r.value| <= |input|
    decreases |input|
  {
    match NextToken(input)
    case Failure(e) => Failure(e)
    case Success((token, rest)) =>
      var here := if token.Some? then [token.value] else [];
      if |rest| == 0 then Success(here)
      else
        match Scan(rest)
        case Failure(e) => Failure(e)
        case Success(more) => Success(here + more)
  }
}
