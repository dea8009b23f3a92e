/**
  Tokens of the scripting language: every variant the scanner produces and the
  parser matches on. The source's `Token::None` (the keyword `null`) is called
  `Null` here so that it cannot be confused with `Option.None`.
*/
module Tokens {
  import Text
  import opened Wrappers

  datatype TokenType =
    | Identifier(name: string)
    | Number(value: int)
    | String(text: string)
    | Boolean(truth: bool)
    | Null
    | Plus | Minus | Star | Slash
    | LeftParen | RightParen          // ( )
    | LeftBracket | RightBracket      // { }
    | LeftBrace | RightBrace          // [ ]
    | Comma | Dot
    | Assign | Equals | NotEquals | Not
    | Lesser | EqLesser | Greater | EqGreater
    | And | BitAnd | Or | BitOr
    | Var | If | Else | Func | While | Return

  /** A token as the parser sees it: its type and the line it came from. */
  datatype Token = Token(tokenType: TokenType, line: nat)

  /** The operators `condition` accepts between two additions. */
  predicate IsComparison(t: TokenType) {
    t.Equals? || t.NotEquals? || t.Greater? || t.Lesser? || t.EqGreater? || t.EqLesser?
  }

  /** The operators `addition` accepts between two multiplications. */
  predicate IsAdditive(t: TokenType) {
    t.Plus? || t.Minus?
  }

  /** The operators `multiplication` accepts between two factors. */
  predicate IsMultiplicative(t: TokenType) {
    t.Star? || t.Slash?
  }

  /** The tokens that continue a call, index or field-access chain. */
  predicate IsPostfixOpener(t: TokenType) {
    t.LeftParen? || t.LeftBrace? || t.Dot?
  }

  predicate IsBinaryOperator(t: TokenType) {
    IsComparison(t) || IsAdditive(t) || IsMultiplicative(t)
  }

  /** Rust's derived `Debug` rendering of a token type (`{:?}`). */
  function Debug(t: TokenType): (s: string)
    ensures |s| > 0
  {
    match t
    case Identifier(name) => "Identifier(\"" + EscapeDebug(name) + "\")"
    case Number(v) => "Number(" + Text.IntToString(v) + ".0)"
    case String(text) => "String(\"" + EscapeDebug(text) + "\")"
    case Boolean(b) => if b then "Boolean(true)" else "Boolean(false)"
    case Null => "None"
    case Plus => "Plus"
    case Minus => "Minus"
    case Star => "Star"
    case Slash => "Slash"
    case LeftParen => "LeftParen"
    case RightParen => "RightParen"
    case LeftBracket => "LeftBracket"
    case RightBracket => "RightBracket"
    case LeftBrace => "LeftBrace"
    case RightBrace => "RightBrace"
    case Comma => "Comma"
    case Dot => "Dot"
    case Assign => "Assign"
    case Equals => "Equals"
    case NotEquals => "NotEquals"
    case Not => "Not"
    case Lesser => "Lesser"
    case EqLesser => "EqLesser"
    case Greater => "Greater"
    case EqGreater => "EqGreater"
    case And => "And"
    case BitAnd => "BitAnd"
    case Or => "Or"
    case BitOr => "BitOr"
    case Var => "Var"
    case If => "If"
    case Else => "Else"
    case Func => "Func"
    case While => "While"
    case Return => "Return"
  }

  // ---- The escaping of `{:?}` on a string ----

  function HexDigit(d: nat): (c: char)
    requires d < 16
  {
    "0123456789abcdef"[d]
  }

  predicate IsHexDigit(c: char) {
    ('0' <= c <= '9') || ('a' <= c <= 'f')
  }

  /** The value of a lower-case hexadecimal digit. */
  function HexValue(c: char): (d: nat)
    requires IsHexDigit(c)
    ensures d < 16
  {
    if c <= '9' then (c as int) - ('0' as int) else (c as int) - ('a' as int) + 10
  }

  /** The characters `escape_debug` writes as a backslash and a letter, and those letters. */
  function ShortEscape(c: char): (r: Option<char>)
  {
    if c == '\0' then Some('0')
    else if c == '\t' then Some('t')
    else if c == '\r' then Some('r')
    else if c == '\n' then Some('n')
    else if c == '\\' then Some('\\')
    else if c == '"' then Some('"')
    else None
  }

  /** The inverse of `ShortEscape`: the character a backslash and `letter` stand for. */
  function ShortUnescape(letter: char): (r: Option<char>)
  {
    if letter == '0' then Some('\0')
    else if letter == 't' then Some('\t')
    else if letter == 'r' then Some('\r')
    else if letter == 'n' then Some('\n')
    else if letter == '\\' then Some('\\')
    else if letter == '"' then Some('"')
    else None
  }

  /** An ASCII control character other than those with a short escape: written as `\u{..}`. */
  predicate IsControl(c: char) {
    (c as int) < 0x20 || (c as int) == 0x7f
  }

  /**
    `char::escape_debug` as `{:?}` of a `str` applies it: a short escape, a
    `\u{..}` escape in lower-case hexadecimal for the other ASCII control
    characters, and every other character as it is. The single quote is
    not escaped inside a string.
  */
  function EscapeChar(c: char): (s: string)
    ensures |s| > 0 && (s[0] == '\\' <==> ShortEscape(c).Some? || IsControl(c))
  {
    match ShortEscape(c)
    case Some(letter) => ['\\', letter]
    case None =>
      if IsControl(c) then
        var n := c as int;
        "\\u{" + (if n < 16 then [HexDigit(n)] else [HexDigit(n / 16), HexDigit(n % 16)]) + "}"
      else [c]
  }

  /** The text `{:?}` writes between the quotes of a string. */
  function EscapeDebug(s: string): (r: string)
    ensures |r| >= |s|
    ensures (forall i :: 0 <= i < |s| ==> ShortEscape(s[i]).None? && !IsControl(s[i])) ==> r == s
  {
    if |s| == 0 then "" else EscapeChar(s[0]) + EscapeDebug(s[1..])
  }

  /** Reads escaped text back: the partner of `EscapeDebug`. A stray backslash is kept as it is. */
  function Unescape(s: string): (r: string)
    decreases |s|
  {
    if |s| == 0 then ""
    else if s[0] != '\\' || |s| < 2 then [s[0]] + Unescape(s[1..])
    else if ShortUnescape(s[1]).Some? then [ShortUnescape(s[1]).value] + Unescape(s[2..])
    else if |s| >= 5 && s[1] == 'u' && s[2] == '{' && IsHexDigit(s[3]) && s[4] == '}' then
      [HexValue(s[3]) as char] + Unescape(s[5..])
    else if |s| >= 6 && s[1] == 'u' && s[2] == '{' && IsHexDigit(s[3]) && IsHexDigit(s[4]) && s[5] == '}' then
      [(16 * HexValue(s[3]) + HexValue(s[4])) as char] + Unescape(s[6..])
    else [s[0]] + Unescape(s[1..])
  }

  lemma {:induction false} HexRoundTrip(d: nat)
    requires d < 16
    ensures IsHexDigit(HexDigit(d)) && HexValue(HexDigit(d)) == d
  {
  }

  lemma {:induction false} UnescapeChar(c: char, rest: string)
    ensures Unescape(EscapeChar(c) + rest) == [c] + Unescape(rest)
  {
    var s := EscapeChar(c) + rest;
    match ShortEscape(c)
    case Some(letter) =>
      assert s[0] == '\\' && s[1] == letter && s[2..] == rest;
    case None =>
      if IsControl(c) {
        var n := c as int;
        if n < 16 {
          HexRoundTrip(n);
          assert s[..5] == "\\u{" + [HexDigit(n)] + "}" && s[5..] == rest;
          assert (HexValue(s[3]) as char) == c;
        } else {
          HexRoundTrip(n / 16);
          HexRoundTrip(n % 16);
          assert s[..6] == "\\u{" + [HexDigit(n / 16), HexDigit(n % 16)] + "}" && s[6..] == rest;
          assert ((16 * HexValue(s[3]) + HexValue(s[4])) as char) == c;
        }
      } else {
        assert s[0] == c && s[1..] == rest;
      }
  }

  /** Escaping loses nothing: the escaped text reads back as the original. */
  lemma {:induction false} EscapeRoundTrip(s: string)
    ensures Unescape(EscapeDebug(s)) == s
    decreases |s|
  {
    if |s| > 0 {
      EscapeRoundTrip(s[1..]);
      UnescapeChar(s[0], EscapeDebug(s[1..]));
      assert [s[0]] + s[1..] == s;
    }
  }

  /**
    The payload of an identifier, string or number token reads back from its
    `Debug` text: the quoted part unescapes to the name or text, and the part
    before `.0` holds the number's decimal digits.
  */
  lemma {:induction false} DebugReadsBack(t: TokenType)
    ensures t.Identifier? ==> var s := Debug(t);
      |s| >= 14 && s[..12] == "Identifier(\"" && s[|s| - 2..] == "\")" && Unescape(s[12..|s| - 2]) == t.name
    ensures t.String? ==> var s := Debug(t);
      |s| >= 10 && s[..8] == "String(\"" && s[|s| - 2..] == "\")" && Unescape(s[8..|s| - 2]) == t.text
    ensures t.Number? ==> var s := Debug(t);
      && |s| > 10 && s[..7] == "Number(" && s[|s| - 3..] == ".0)"
      && var d := s[7..|s| - 3];
         if t.value >= 0 then Text.AllDigits(d) && Text.DigitsValue(d) == t.value
         else d[0] == '-' && Text.AllDigits(d[1..]) && Text.DigitsValue(d[1..]) == -t.value
  {
    match t
    case Identifier(name) =>
      var s := Debug(t);
      assert s[12..|s| - 2] == EscapeDebug(name);
      EscapeRoundTrip(name);
    case String(text) =>
      var s := Debug(t);
      assert s[8..|s| - 2] == EscapeDebug(text);
      EscapeRoundTrip(text);
    case Number(v) =>
      var s := Debug(t);
      assert s[7..|s| - 3] == Text.IntToString(v);
    case _ =>
  }
}
