/**
  Properties of the lexer: one lemma per kind of token that `next_token`
  recognises, and a round trip through a reference printer showing that
  scanning the printed form of any printable token sequence gives the
  sequence back.
*/
module ScannerProperties {
  import opened Wrappers
  import opened Text
  import opened Tokens
  import opened Scanner

  /** The characters `next_token` knows how to start a token with (or skip). */
  predicate Recognised(c: char) {
    c in "+-*/(){}[],.=<>!&|\"" || IsWordStart(c) || IsDigit(c) || IsWhitespace(c)
  }

  /** The operators that look one character ahead, and the character they look for. */
  predicate HasLookahead(c: char) {
    c in "=<>!&|"
  }

  function SecondChar(c: char): char
    requires HasLookahead(c)
  {
    if c == '&' then '&' else if c == '|' then '|' else '='
  }

  /** The token produced when the lookahead matches. */
  function Doubled(c: char): TokenType
    requires HasLookahead(c)
  {
    match c
    case '=' => Equals
    case '<' => EqLesser
    case '>' => EqGreater
    case '!' => NotEquals
    case '&' => And
    case _ => Or
  }

  /** The token produced when it does not. */
  function Single(c: char): TokenType
    requires HasLookahead(c)
  {
    match c
    case '=' => Assign
    case '<' => Lesser
    case '>' => Greater
    case '!' => Not
    case '&' => BitAnd
    case _ => BitOr
  }

  /**
    `=`, `<`, `>`, `!` followed by `=` (and `&&`, `||`) give the two-character
    token and consume both characters; otherwise the one-character token is
    produced and the next character stays in the input.
  */
  lemma {:induction false} LookaheadOperators(c: char, rest: seq<char>)
    requires HasLookahead(c)
    ensures |rest| > 0 && rest[0] == SecondChar(c) ==>
              NextToken([c] + rest) == Success((Some(Doubled(c)), rest[1..]))
    ensures !(|rest| > 0 && rest[0] == SecondChar(c)) ==>
              NextToken([c] + rest) == Success((Some(Single(c)), rest))
  {
    assert ([c] + rest)[1..] == rest;
  }

  /** Space, carriage return and newline produce no token and are consumed. */
  lemma {:induction false} WhitespaceIsSkipped(c: char, rest: seq<char>)
    requires IsWhitespace(c)
    ensures NextToken([c] + rest) == Success((None, rest))
  {
    assert ([c] + rest)[1..] == rest;
  }

  /** Scanning ignores a whitespace character in front of a non-empty input. */
  lemma {:induction false} ScanSkipsWhitespace(c: char, s: seq<char>)
    requires IsWhitespace(c) && |s| > 0
    ensures Scan([c] + s) == Scan(s)
  {
    WhitespaceIsSkipped(c, s);
    match Scan(s)
    case Failure(e) =>
    case Success(more) => assert [] + more == more;
  }

  /**
    A word is the maximal run of letters, digits and `_` that starts with a
    letter or `_`; it becomes the keyword's token when the table has it and
    an identifier otherwise.
  */
  lemma {:induction false} WordIsMaximalRun(input: seq<char>)
    requires |input| > 0 && IsWordStart(input[0])
    ensures var n := 1 + WordLength(input[1..]);
            && n <= |input|
            && (forall i :: 0 <= i < n ==> IsWordChar(input[i]))
            && (n < |input| ==> !IsWordChar(input[n]))
            && var w := input[..n];
               NextToken(input) == Success((Some(if w in Keywords then Keywords[w] else Identifier(w)), input[n..]))
  {
    var n := 1 + WordLength(input[1..]);
    WordStartsWord(input);
    assert [input[0]] + input[1..][..n - 1] == input[..n];
    assert input[1..][n - 1..] == input[n..];
  }

  lemma {:induction false} WordStartsWord(input: seq<char>)
    requires |input| > 0 && IsWordStart(input[0])
    ensures NextToken(input) == Success(Some2(Word(input[0], input[1..])))
  {
  }

  /** A number is the maximal run of decimal digits, and the token carries its value. */
  lemma {:induction false} NumberIsMaximalRun(input: seq<char>)
    requires |input| > 0 && IsDigit(input[0])
    ensures var n := 1 + DigitRunLength(input[1..]);
            && n <= |input|
            && AllDigits(input[..n])
            && (n < |input| ==> !IsDigit(input[n]))
            && NextToken(input) == Success((Some(Number(DigitsValue(input[..n]))), input[n..]))
  {
    var n := 1 + DigitRunLength(input[1..]);
    DigitStartsNumber(input);
    assert [input[0]] + input[1..][..n - 1] == input[..n];
    assert input[1..][n - 1..] == input[n..];
  }

  /**
    A string token holds the characters after the opening quote up to, not
    including, the next quote, which is consumed; without a closing quote it
    takes the rest of the input.
  */
  lemma {:induction false} StringRunsToQuote(body: seq<char>, rest: seq<char>)
    requires '"' !in body
    ensures NextToken(['"'] + body + ['"'] + rest) == Success((Some(String(body)), rest))
    ensures NextToken(['"'] + body) == Success((Some(String(body)), []))
  {
    var s := body + ['"'] + rest;
    assert (['"'] + body + ['"'] + rest)[1..] == s;
    assert forall i :: 0 <= i < |body| ==> s[i] == body[i];
    assert s[|body|] == '"';
    assert QuoteIndex(s) == |body|;
    assert s[..|body|] == body;
    assert s[|body| + 1..] == rest;
    assert (['"'] + body)[1..] == body;
    assert QuoteIndex(body) == |body|;
    assert body[..|body|] == body;
  }

  /** Any character outside the recognised set is an error. */
  lemma {:induction false} UnknownCharacterIsError(input: seq<char>)
    ensures NextToken(input).Failure? <==> |input| == 0 || !Recognised(input[0])
    ensures |input| > 0 && !Recognised(input[0]) ==>
              NextToken(input) == Failure(UnexpectedCharacter(input[0]))
  {
  }

  // ---------------------------------------------------------------------
  // Round trip through a reference printer
  // ---------------------------------------------------------------------

  predicate IsIdentifierText(name: string) {
    && |name| > 0
    && IsWordStart(name[0])
    && (forall i :: 0 <= i < |name| ==> IsWordChar(name[i]))
    && name !in Keywords
  }

  /** Token types that have a source text the scanner reads back as the same token. */
  predicate Printable(t: TokenType) {
    match t
    case Identifier(name) => IsIdentifierText(name)
    case Number(v) => v >= 0
    case String(text) => '"' !in text
    case _ => true
  }

  /** The source text of a printable token type. */
  function Lexeme(t: TokenType): string
    requires Printable(t)
  {
    match t
    case Identifier(name) => name
    case Number(v) => NatToString(v)
    case String(text) => "\"" + text + "\""
    case Boolean(b) => if b then "true" else "false"
    case Null => "null"
    case Plus => "+"
    case Minus => "-"
    case Star => "*"
    case Slash => "/"
    case LeftParen => "("
    case RightParen => ")"
    case LeftBracket => "{"
    case RightBracket => "}"
    case LeftBrace => "["
    case RightBrace => "]"
    case Comma => ","
    case Dot => "."
    case Assign => "="
    case Equals => "=="
    case NotEquals => "!="
    case Not => "!"
    case Lesser => "<"
    case EqLesser => "<="
    case Greater => ">"
    case EqGreater => ">="
    case And => "&&"
    case BitAnd => "&"
    case Or => "||"
    case BitOr => "|"
    case Var => "var"
    case If => "if"
    case Else => "else"
    case Func => "fn"
    case While => "while"
    case Return => "return"
  }

  /** Prints every token followed by one space. */
  function Render(ts: seq<TokenType>): string
    requires forall i :: 0 <= i < |ts| ==> Printable(ts[i])
  {
    if |ts| == 0 then "" else Lexeme(ts[0]) + " " + Render(ts[1..])
  }

  /** A word followed by a space: the run stops exactly at the space. */
  lemma {:induction false} WordBeforeSpace(w: seq<char>, rest: seq<char>)
    requires forall i :: 0 <= i < |w| ==> IsWordChar(w[i])
    ensures WordLength(w + " " + rest) == |w|
  {
    var s := w + " " + rest;
    assert forall i :: 0 <= i < |w| ==> s[i] == w[i];
    assert s[|w|] == ' ';
  }

  lemma {:induction false} DigitsBeforeSpace(w: seq<char>, rest: seq<char>)
    requires AllDigits(w)
    ensures DigitRunLength(w + " " + rest) == |w|
  {
    var s := w + " " + rest;
    assert forall i :: 0 <= i < |w| ==> s[i] == w[i];
    assert s[|w|] == ' ';
  }

  predicate IsWordText(w: string) {
    |w| > 0 && IsWordStart(w[0]) && forall i :: 0 <= i < |w| ==> IsWordChar(w[i])
  }

  /** A word followed by a space is read as one word token and the space is left. */
  lemma {:induction false} WordLexeme(w: string, rest: seq<char>)
    requires IsWordText(w)
    ensures NextToken(w + " " + rest) ==
            Success((Some(if w in Keywords then Keywords[w] else Identifier(w)), " " + rest))
  {
    var input := w + " " + rest;
    WordStartsWord(input);
    assert input[0] == w[0] && input[1..] == w[1..] + " " + rest;
    WordOfSpaced(w, rest);
  }

  /** `word` on a word's first character and the rest of it followed by a space. */
  lemma {:induction false} WordOfSpaced(w: string, rest: seq<char>)
    requires IsWordText(w)
    ensures Word(w[0], w[1..] + " " + rest) == (if w in Keywords then Keywords[w] else Identifier(w), " " + rest)
  {
    var tail := w[1..] + " " + rest;
    WordBeforeSpace(w[1..], rest);
    assert tail[..|w| - 1] == w[1..];
    assert [w[0]] + w[1..] == w;
    assert tail[|w| - 1..] == " " + rest;
  }

  /** The digits of a number followed by a space are read up to the space. */
  lemma {:induction false} NumberBeforeSpace(first: char, tail: string, rest: seq<char>)
    requires AllDigits(tail)
    ensures NumberToken(first, tail + " " + rest) == (Number(DigitsValue([first] + tail)), " " + rest)
  {
    var s := tail + " " + rest;
    DigitsBeforeSpace(tail, rest);
    assert s[..|tail|] == tail;
    assert s[|tail|..] == " " + rest;
  }

  lemma {:induction false} DigitStartsNumber(input: seq<char>)
    requires |input| > 0 && IsDigit(input[0])
    ensures NextToken(input) == Success(Some2(NumberToken(input[0], input[1..])))
  {
    assert !IsWordStart(input[0]);
  }

  /** A digit string followed by a space is read as one number token. */
  lemma {:induction false} DigitsLexeme(w: string, rest: seq<char>)
    requires |w| > 0 && AllDigits(w)
    ensures NextToken(w + " " + rest) == Success((Some(Number(DigitsValue(w))), " " + rest))
  {
    NumberBeforeSpace(w[0], w[1..], rest);
    assert [w[0]] + w[1..] == w;
    DigitStartsToken(w, rest, Number(DigitsValue(w)));
  }

  lemma {:induction false} DigitStartsToken(w: string, rest: seq<char>, t: TokenType)
    requires |w| > 0 && IsDigit(w[0])
    requires NumberToken(w[0], w[1..] + " " + rest) == (t, " " + rest)
    ensures NextToken(w + " " + rest) == Success((Some(t), " " + rest))
  {
    var input := w + " " + rest;
    DigitStartsNumber(input);
    assert input[0] == w[0];
    assert input[1..] == w[1..] + " " + rest;
  }

  lemma {:induction false} NumberLexeme(v: nat, rest: seq<char>)
    ensures NextToken(NatToString(v) + " " + rest) == Success((Some(Number(v)), " " + rest))
  {
    DigitsLexeme(NatToString(v), rest);
  }

  /** One-character tokens without lookahead. */
  lemma {:induction false} PlainLexeme(c: char, t: TokenType, rest: seq<char>)
    requires c in "+-*/(){}[],." && NextToken([c]) == Success((Some(t), []))
    ensures NextToken([c] + " " + rest) == Success((Some(t), " " + rest))
  {
    assert ([c] + " " + rest)[1..] == " " + rest;
  }

  /** Lookahead operators written with one character. */
  lemma {:induction false} SingleLexeme(c: char, rest: seq<char>)
    requires HasLookahead(c)
    ensures NextToken([c] + " " + rest) == Success((Some(Single(c)), " " + rest))
  {
    LookaheadOperators(c, " " + rest);
    assert [c] + " " + rest == [c] + (" " + rest);
  }

  /** Lookahead operators written with two characters. */
  lemma {:induction false} DoubledLexeme(c: char, rest: seq<char>)
    requires HasLookahead(c)
    ensures NextToken([c, SecondChar(c)] + " " + rest) == Success((Some(Doubled(c)), " " + rest))
  {
    LookaheadOperators(c, [SecondChar(c)] + " " + rest);
    assert [c, SecondChar(c)] + " " + rest == [c] + ([SecondChar(c)] + " " + rest);
    assert ([SecondChar(c)] + " " + rest)[1..] == " " + rest;
  }

  /** A keyword followed by a space is read through the keyword table. */
  lemma {:induction false} KeywordLexeme(w: string, t: TokenType, rest: seq<char>)
    requires IsWordText(w) && w in Keywords && Keywords[w] == t
    ensures NextToken(w + " " + rest) == Success((Some(t), " " + rest))
  {
    WordLexeme(w, rest);
  }

  lemma {:induction false} LiteralKeywordScansBack(t: TokenType, rest: seq<char>)
    requires t.Boolean? || t.Null?
    ensures NextToken(Lexeme(t) + " " + rest) == Success((Some(t), " " + rest))
  {
    if t == Boolean(true) { KeywordLexeme("true", t, rest); }
    else if t == Boolean(false) { KeywordLexeme("false", t, rest); }
    else { KeywordLexeme("null", t, rest); }
  }

  lemma {:induction false} StatementKeywordScansBack(t: TokenType, rest: seq<char>)
    requires t.Var? || t.If? || t.Else?
    ensures NextToken(Lexeme(t) + " " + rest) == Success((Some(t), " " + rest))
  {
    if t == Var { KeywordLexeme("var", t, rest); }
    else if t == If { KeywordLexeme("if", t, rest); }
    else { KeywordLexeme("else", t, rest); }
  }

  lemma {:induction false} OtherKeywordScansBack(t: TokenType, rest: seq<char>)
    requires t.Func? || t.While? || t.Return?
    ensures NextToken(Lexeme(t) + " " + rest) == Success((Some(t), " " + rest))
  {
    if t == Func { KeywordLexeme("fn", t, rest); }
    else if t == While { KeywordLexeme("while", t, rest); }
    else { KeywordLexeme("return", t, rest); }
  }

  lemma {:induction false} PlainScansBack(t: TokenType, rest: seq<char>)
    requires t.Plus? || t.Minus? || t.Star? || t.Slash? || t.LeftParen? || t.RightParen?
          || t.LeftBracket? || t.RightBracket? || t.LeftBrace? || t.RightBrace? || t.Comma? || t.Dot?
    ensures NextToken(Lexeme(t) + " " + rest) == Success((Some(t), " " + rest))
  {
    match t
    case Plus => PlainLexeme('+', t, rest);
    case Minus => PlainLexeme('-', t, rest);
    case Star => PlainLexeme('*', t, rest);
    case Slash => PlainLexeme('/', t, rest);
    case LeftParen => PlainLexeme('(', t, rest);
    case RightParen => PlainLexeme(')', t, rest);
    case LeftBracket => PlainLexeme('{', t, rest);
    case RightBracket => PlainLexeme('}', t, rest);
    case LeftBrace => PlainLexeme('[', t, rest);
    case RightBrace => PlainLexeme(']', t, rest);
    case Comma => PlainLexeme(',', t, rest);
    case Dot => PlainLexeme('.', t, rest);
  }

  lemma {:induction false} LookaheadScansBack(t: TokenType, rest: seq<char>)
    requires t.Assign? || t.Lesser? || t.Greater? || t.Not? || t.BitAnd? || t.BitOr?
          || t.Equals? || t.EqLesser? || t.EqGreater? || t.NotEquals? || t.And? || t.Or?
    ensures NextToken(Lexeme(t) + " " + rest) == Success((Some(t), " " + rest))
  {
    if t.Assign? || t.Lesser? || t.Greater? || t.Not? || t.BitAnd? || t.BitOr? {
      SingleScansBack(t, rest);
    } else {
      DoubledScansBack(t, rest);
    }
  }

  lemma {:induction false} SingleScansBack(t: TokenType, rest: seq<char>)
    requires t.Assign? || t.Lesser? || t.Greater? || t.Not? || t.BitAnd? || t.BitOr?
    ensures NextToken(Lexeme(t) + " " + rest) == Success((Some(t), " " + rest))
  {
    match t
    case Assign => SingleLexeme('=', rest);
    case Lesser => SingleLexeme('<', rest);
    case Greater => SingleLexeme('>', rest);
    case Not => SingleLexeme('!', rest);
    case BitAnd => SingleLexeme('&', rest);
    case BitOr => SingleLexeme('|', rest);
  }

  lemma {:induction false} DoubledScansBack(t: TokenType, rest: seq<char>)
    requires t.Equals? || t.EqLesser? || t.EqGreater? || t.NotEquals? || t.And? || t.Or?
    ensures NextToken(Lexeme(t) + " " + rest) == Success((Some(t), " " + rest))
  {
    match t
    case Equals => DoubledLexeme('=', rest);
    case EqLesser => DoubledLexeme('<', rest);
    case EqGreater => DoubledLexeme('>', rest);
    case NotEquals => DoubledLexeme('!', rest);
    case And => DoubledLexeme('&', rest);
    case Or => DoubledLexeme('|', rest);
  }

  /** The printed text of a token, followed by a space, scans back to that token. */
  lemma {:induction false} LexemeScansBack(t: TokenType, rest: seq<char>)
    requires Printable(t)
    ensures NextToken(Lexeme(t) + " " + rest) == Success((Some(t), " " + rest))
  {
    if t.Identifier? {
      WordLexeme(t.name, rest);
    } else if t.Number? {
      NumberLexeme(t.value, rest);
    } else if t.String? {
      StringRunsToQuote(t.text, " " + rest);
      assert Lexeme(t) + " " + rest == ['"'] + t.text + ['"'] + (" " + rest);
    } else if t.Boolean? || t.Null? || t.Var? || t.If? || t.Else? || t.Func? || t.While? || t.Return? {
      if t.Boolean? || t.Null? {
        LiteralKeywordScansBack(t, rest);
      } else if t.Var? || t.If? || t.Else? {
        StatementKeywordScansBack(t, rest);
      } else {
        OtherKeywordScansBack(t, rest);
      }
    } else if t.Plus? || t.Minus? || t.Star? || t.Slash? || t.LeftParen? || t.RightParen?
           || t.LeftBracket? || t.RightBracket? || t.LeftBrace? || t.RightBrace? || t.Comma? || t.Dot? {
      PlainScansBack(t, rest);
    } else {
      LookaheadScansBack(t, rest);
    }
  }

  /**
    Round trip: scanning the printed form of a non-empty sequence of
    printable tokens gives the sequence back.
  */
  lemma {:induction false} ScanRender(ts: seq<TokenType>)
    requires |ts| > 0
    requires forall i :: 0 <= i < |ts| ==> Printable(ts[i])
    ensures Scan(Render(ts)) == Success(ts)
    decreases |ts|
  {
    var tail := Render(ts[1..]);
    var spaced := " " + tail;
    assert Render(ts) == Lexeme(ts[0]) + " " + tail;
    LexemeScansBack(ts[0], tail);
    assert spaced == [' '] + tail;
    WhitespaceIsSkipped(' ', tail);
    if |ts| == 1 {
      assert tail == "";
      ScanLast(spaced, None);
      ScanStep(Render(ts), Some(ts[0]), spaced, []);
      assert [ts[0]] + [] == ts;
    } else {
      ScanRender(ts[1..]);
      ScanStep(spaced, None, tail, ts[1..]);
      assert [] + ts[1..] == ts[1..];
      ScanStep(Render(ts), Some(ts[0]), spaced, ts[1..]);
      assert [ts[0]] + ts[1..] == ts;
    }
  }

  /** `scan` after a token or whitespace that leaves input behind. */
  lemma {:induction false} ScanStep(input: seq<char>, token: Option<TokenType>, rest: seq<char>, more: seq<TokenType>)
    requires NextToken(input) == Success((token, rest)) && |rest| > 0 && Scan(rest) == Success(more)
    ensures Scan(input) == Success((if token.Some? then [token.value] else []) + more)
  {
  }

  /** `scan` after a token or whitespace that ends the input. */
  lemma {:induction false} ScanLast(input: seq<char>, token: Option<TokenType>)
    requires NextToken(input) == Success((token, []))
    ensures Scan(input) == Success(if token.Some? then [token.value] else [])
  {
  }
}
