/**
 * The hand-written lexer: a cursor over the source text and six
 * sub-scanners tried in a fixed order.
 *
 * The first half of the module states, as pure functions of the text and a
 * cursor position, what each sub-scanner does: its outcome and where it
 * leaves the cursor. The class `Lexer` at the end does the same work step by
 * step, with a mutable cursor and loops, and each of its methods is proved
 * equal to the corresponding function.
 *
 * Reading a character past the end of the text (`.unwrap()` on `None`) is a
 * panic in the source; it is the outcome `Panic` here, distinct from a
 * scanner that merely does not match.
 */
module Lexing {
  import opened Options
  import opened Tokens

  // ---------------------------------------------------------------------
  // Character classes (the ASCII meaning of the standard-library tests)
  // ---------------------------------------------------------------------

  /** The model is restricted to ASCII text, where byte length and character index agree. */
  predicate IsAscii(t: string) {
    forall k :: 0 <= k < |t| ==> (t[k] as int) < 128
  }

  /** ASCII white space: tab, line feed, vertical tab, form feed, carriage return, space. */
  predicate IsWhiteSpace(c: char) {
    c == ' ' || ('\t' <= c <= '\r')
  }

  predicate IsDigit(c: char) {
    '0' <= c <= '9'
  }

  predicate IsAlphabetic(c: char) {
    ('a' <= c <= 'z') || ('A' <= c <= 'Z')
  }

  predicate IsAlphanumeric(c: char) {
    IsAlphabetic(c) || IsDigit(c)
  }

  predicate IsNotQuote(c: char) {
    c != '"'
  }

  /**
   * The first position at or after `k` whose character fails `p`, or the
   * length of the text if there is none: the end of the longest run of
   * `p`-characters starting at `k`.
   */
  function SpanEnd(t: string, k: nat, p: char -> bool): (r: nat)
    requires k <= |t|
    ensures k <= r <= |t|
    ensures forall j :: k <= j < r ==> p(t[j])
    ensures r < |t| ==> !p(t[r])
    decreases |t| - k
  {
    if k == |t| || !p(t[k]) then k else SpanEnd(t, k + 1, p)
  }

  // ---------------------------------------------------------------------
  // Outcomes
  // ---------------------------------------------------------------------

  /** What one sub-scanner yields: a token, no match (`None` in the source), or a panic. */
  datatype Scan = Found(token: Token) | NoMatch | Panic

  /** A sub-scanner's outcome together with the cursor it leaves behind. */
  datatype Step = Step(scan: Scan, cursor: nat)

  /** What `lex` yields: a token, the error message, or a panic. */
  datatype LexResult = Ok(token: Token) | Err(message: string) | Panicked

  /** `lex`'s outcome together with the cursor it leaves behind. */
  datatype Lexed = Lexed(result: LexResult, cursor: nat)

  const UnknownToken: string := "Unknown token."

  /**
   * The end-of-input token. The source's `Token::End` carries no content; the
   * model gives it the cursor position and empty text.
   */
  function EndToken(i: nat): (t: Token)
    ensures t.kind == End && t.text == []
  {
    Token(i, [], End)
  }

  /** A scanner result that is a token spanning exactly `t[i..cursor]`, starting at `i`. */
  predicate IsSliceToken(t: string, i: nat, r: Step) {
    r.scan.Found? ==>
      && r.scan.token.index == i < r.cursor <= |t|
      && r.scan.token.text == t[i..r.cursor]
  }

  // ---------------------------------------------------------------------
  // The sub-scanners, as functions of the text and the cursor
  // ---------------------------------------------------------------------

  /**
   * White space: skip it; reaching the end of the text yields the End token
   * with the cursor at the end, otherwise no token with the cursor on the
   * first non-white-space character.
   */
  function WhiteSpaceSpec(t: string, i: nat): (r: Step)
    requires i <= |t|
    ensures i <= r.cursor <= |t|
    ensures !r.scan.Panic?
    ensures r.scan.Found? <==> r.cursor == |t|
    ensures r.scan.Found? ==> r.scan.token == EndToken(|t|)
    ensures forall k :: i <= k < r.cursor ==> IsWhiteSpace(t[k])
    ensures r.cursor < |t| ==> !IsWhiteSpace(t[r.cursor])
  {
    var w := SpanEnd(t, i, IsWhiteSpace);
    if w == |t| then Step(Found(EndToken(w)), w) else Step(NoMatch, w)
  }

  /**
   * Number literal: a digit, then digits with at most one '.'. Reaching a
   * second '.' is no match, with the cursor left on that '.'. A first digit
   * that is the last character of the text panics (the scanner reads the
   * character after it unconditionally).
   */
  function NumberSpec(t: string, i: nat): (r: Step)
    requires i <= |t|
    ensures i <= r.cursor <= |t|
    ensures IsSliceToken(t, i, r)
    ensures r.scan.Found? ==> r.scan.token.kind in {IntegerLiteral, FloatingPointLiteral}
    ensures r.scan.NoMatch? && r.cursor != i ==> r.cursor < |t| && t[r.cursor] == '.'
    ensures r.scan.Panic? <==> i == |t| || (IsDigit(t[i]) && i + 1 == |t|)
    ensures r.scan.NoMatch? && r.cursor == i <==> i < |t| && !IsDigit(t[i])
  {
    if i == |t| then Step(Panic, i)
    else if !IsDigit(t[i]) then Step(NoMatch, i)
    else if i + 1 == |t| then Step(Panic, i + 1)
    else
      var d1 := SpanEnd(t, i + 1, IsDigit);
      if d1 == |t| || t[d1] != '.' then
        Step(Found(Token(i, t[i..d1], IntegerLiteral)), d1)
      else
        var d2 := SpanEnd(t, d1 + 1, IsDigit);
        if d2 < |t| && t[d2] == '.' then Step(NoMatch, d2)
        else Step(Found(Token(i, t[i..d2], FloatingPointLiteral)), d2)
  }

  /**
   * String literal: '"', then everything up to and including the next '"'.
   * Without a closing quote it is no match with the cursor at the end of the
   * text; an opening quote that is the last character panics.
   */
  function StringSpec(t: string, i: nat): (r: Step)
    requires i <= |t|
    ensures i <= r.cursor <= |t|
    ensures IsSliceToken(t, i, r)
    ensures r.scan.Found? ==> r.scan.token.kind == StringLiteral
    ensures r.scan.NoMatch? && r.cursor != i ==> r.cursor == |t|
    ensures r.scan.Panic? <==> i == |t| || (t[i] == '"' && i + 1 == |t|)
    ensures r.scan.NoMatch? && r.cursor == i <==> i < |t| && t[i] != '"'
    ensures forall q :: i < q < |t| && t[i] == '"' && t[q] == '"' ==> r.scan.Found?
  {
    if i == |t| then Step(Panic, i)
    else if t[i] != '"' then Step(NoMatch, i)
    else if i + 1 == |t| then Step(Panic, i + 1)
    else
      var q := SpanEnd(t, i + 1, IsNotQuote);
      if q == |t| then Step(NoMatch, q)
      else Step(Found(Token(i, t[i..q + 1], StringLiteral)), q + 1)
  }

  /**
   * Character literal: exactly a quote, any character, a quote. The
   * character two places ahead is read unconditionally once the first is a
   * quote, so a quote within two characters of the end panics.
   */
  function CharacterSpec(t: string, i: nat): (r: Step)
    requires i <= |t|
    ensures i <= r.cursor <= |t|
    ensures IsSliceToken(t, i, r)
    ensures r.scan.Found? ==> r.scan.token.kind == CharacterLiteral
    ensures r.scan.NoMatch? ==> r.cursor == i
  {
    if i == |t| then Step(Panic, i)
    else if t[i] != '\'' then Step(NoMatch, i)
    else if |t| <= i + 2 then Step(Panic, i)
    else if t[i + 2] != '\'' then Step(NoMatch, i)
    else Step(Found(Token(i, t[i..i + 3], CharacterLiteral)), i + 3)
  }

  /**
   * Identifier: a letter, then letters and digits. A first letter that is the
   * last character of the text panics. The scanner never yields `Keyword`.
   */
  function IdentifierSpec(t: string, i: nat): (r: Step)
    requires i <= |t|
    ensures i <= r.cursor <= |t|
    ensures IsSliceToken(t, i, r)
    ensures r.scan.Found? ==> r.scan.token.kind == Identifier
    ensures r.scan.NoMatch? ==> r.cursor == i
    ensures r.scan.Panic? <==> i == |t| || (IsAlphabetic(t[i]) && i + 1 == |t|)
    ensures r.scan.NoMatch? <==> i < |t| && !IsAlphabetic(t[i])
    ensures r.scan.Found? <==> i + 1 < |t| && IsAlphabetic(t[i])
  {
    if i == |t| then Step(Panic, i)
    else if !IsAlphabetic(t[i]) then Step(NoMatch, i)
    else if i + 1 == |t| then Step(Panic, i + 1)
    else
      var e := SpanEnd(t, i + 1, IsAlphanumeric);
      Step(Found(Token(i, t[i..e], Identifier)), e)
  }

  /** A token made of the next `n` characters. */
  function Consume(t: string, i: nat, n: nat, kind: TokenKind): (r: Step)
    requires 0 < n && i + n <= |t|
    ensures IsSliceToken(t, i, r) && r.scan.Found? && r.cursor == i + n
  {
    Step(Found(Token(i, t[i..i + n], kind)), i + n)
  }

  /**
   * An operator that needs one character of lookahead: followed by `next`
   * it is the two-character `pair`; otherwise the one-character `single`,
   * or no match when there is no one-character form. Being the last
   * character of the text panics.
   */
  function Lookahead(t: string, i: nat, next: char, pair: TokenKind, single: Option<TokenKind>): (r: Step)
    requires i < |t|
    ensures i <= r.cursor <= |t|
    ensures IsSliceToken(t, i, r)
    ensures r.scan.Found? && r.cursor == i + 2 ==> t[i + 1] == next && r.scan.token.kind == pair
    ensures r.scan.Found? && r.cursor != i + 2 ==> i + 1 < |t| && t[i + 1] != next && single == Some(r.scan.token.kind)
    ensures r.scan.NoMatch? ==> r.cursor == i && single.None?
    ensures r.scan.Panic? <==> i + 1 == |t|
    ensures i + 1 < |t| && t[i + 1] == next ==> r.scan.Found? && r.cursor == i + 2
    ensures r.scan.Found? && r.cursor != i + 2 ==> r.cursor == i + 1
    ensures i + 1 < |t| && t[i + 1] != next && single.Some? ==> r.scan.Found? && r.cursor == i + 1
  {
    if i + 1 == |t| then Step(Panic, i)
    else if t[i + 1] == next then Consume(t, i, 2, pair)
    else if single.Some? then Consume(t, i, 1, single.value)
    else Step(NoMatch, i)
  }

  /** Operators and separators. */
  function OperatorSpec(t: string, i: nat): (r: Step)
    requires i <= |t|
    ensures i <= r.cursor <= |t|
    ensures IsSliceToken(t, i, r)
    ensures r.scan.NoMatch? ==> r.cursor == i
  {
    if i == |t| then Step(Panic, i)
    else
      match t[i]
      case '+' => Consume(t, i, 1, PlusOperator)
      case '-' => Consume(t, i, 1, MinusOperator)
      case '*' => Consume(t, i, 1, StarOperator)
      case '/' => Consume(t, i, 1, SlashOperator)
      case '%' => Consume(t, i, 1, PercentageOperator)
      case '(' => Consume(t, i, 1, OpenParenthesis)
      case ')' => Consume(t, i, 1, CloseParenthesis)
      case '!' => Lookahead(t, i, '=', NotEqualityOperator, Some(LogicalNotOperator))
      case '|' => Lookahead(t, i, '|', LogicalOrOperator, None)
      case '&' => Lookahead(t, i, '&', LogicalAndOperator, None)
      case '<' => Lookahead(t, i, '=', LessThanEqualToOperator, Some(LessThanOperator))
      case '>' => Lookahead(t, i, '=', GreaterThanEqualToOperator, Some(GreaterThanOperator))
      case '=' => Lookahead(t, i, '=', EqualityOperator, Some(AssignmentOperator))
      case _ => Step(NoMatch, i)
  }

  // ---------------------------------------------------------------------
  // lex: the sub-scanners in their fixed order
  // ---------------------------------------------------------------------

  datatype Scanner = NumberScanner | StringScanner | CharacterScanner | IdentifierScanner | OperatorScanner

  /** The order in which `lex` tries the sub-scanners after skipping white space. */
  const ScannerOrder: seq<Scanner> :=
    [NumberScanner, StringScanner, CharacterScanner, IdentifierScanner, OperatorScanner]

  function ScanWith(s: Scanner, t: string, i: nat): (r: Step)
    requires i <= |t|
    ensures i <= r.cursor <= |t|
    ensures IsSliceToken(t, i, r)
    ensures r.scan.Found? ==> r.scan.token.kind != End
  {
    match s
    case NumberScanner => NumberSpec(t, i)
    case StringScanner => StringSpec(t, i)
    case CharacterScanner => CharacterSpec(t, i)
    case IdentifierScanner => IdentifierSpec(t, i)
    case OperatorScanner => OperatorSpec(t, i)
  }

  /**
   * Try `scanners` in order from cursor `i`: the first token wins, a panic
   * ends everything, and a scanner that does not match hands its cursor
   * (moved or not) to the next. No match at all is the "Unknown token."
   * error.
   */
  function TryInOrder(scanners: seq<Scanner>, t: string, i: nat): (r: Lexed)
    requires i <= |t|
    ensures i <= r.cursor <= |t|
    ensures r.result.Ok? ==> r.result.token.kind != End
    ensures r.result.Ok? ==> i <= r.result.token.index < r.cursor
    ensures r.result.Ok? ==> r.result.token.text == t[r.result.token.index..r.cursor]
    decreases scanners
  {
    if scanners == [] then Lexed(Err(UnknownToken), i)
    else
      var s := ScanWith(scanners[0], t, i);
      match s.scan
      case Found(token) => Lexed(Ok(token), s.cursor)
      case Panic => Lexed(Panicked, s.cursor)
      case NoMatch => TryInOrder(scanners[1..], t, s.cursor)
  }

  /** What trying the scanners from the `k`-th on gives, once the `k`-th scanner has run and returned `s`. */
  function AfterScanner(k: nat, t: string, s: Step): (r: Lexed)
    requires k < |ScannerOrder| && s.cursor <= |t|
    ensures s.scan.Found? ==> r == Lexed(Ok(s.scan.token), s.cursor)
    ensures s.scan.Panic? ==> r == Lexed(Panicked, s.cursor)
  {
    match s.scan
    case Found(token) => Lexed(Ok(token), s.cursor)
    case Panic => Lexed(Panicked, s.cursor)
    case NoMatch => TryInOrder(ScannerOrder[k + 1..], t, s.cursor)
  }

  /** Trying the scanners from the `k`-th on is running the `k`-th and then deciding by its outcome. */
  lemma TryInOrderStep(k: nat, scanner: Scanner, t: string, j: nat)
    requires k < |ScannerOrder| && ScannerOrder[k] == scanner && j <= |t|
    ensures TryInOrder(ScannerOrder[k..], t, j) == AfterScanner(k, t, ScanWith(scanner, t, j))
  {
    assert ScannerOrder[k..][1..] == ScannerOrder[k + 1..];
  }

  /** One call of `lex` from cursor `i`. */
  function LexSpec(t: string, i: nat): (r: Lexed)
    requires i <= |t|
    ensures i <= r.cursor <= |t|
  {
    var w := WhiteSpaceSpec(t, i);
    if w.scan.Found? then Lexed(Ok(w.scan.token), w.cursor)
    else TryInOrder(ScannerOrder, t, w.cursor)
  }

  // ---------------------------------------------------------------------
  // The lexer object
  // ---------------------------------------------------------------------

  /** A lexer: the source text and a cursor into it that each call advances. */
  class Lexer {
    const text: string
    var index: nat

    ghost predicate Valid()
      reads this
    {
      IsAscii(text) && index <= |text|
    }

    constructor (text: string)
      requires IsAscii(text)
      ensures Valid()
      ensures this.text == text && index == 0
    {
      this.text := text;
      index := 0;
    }

    method IncrementIndex()
      modifies this
      ensures index == old(index) + 1
    {
      index := index + 1;
    }

    method IncrementIndexBy(amount: nat)
      modifies this
      ensures index == old(index) + amount
    {
      index := index + amount;
    }

    /** The next token: End at the end of the input, or the first token any sub-scanner produces. */
    method Lex() returns (r: LexResult)
      requires Valid()
      modifies this
      ensures Valid()
      ensures Lexed(r, index) == LexSpec(text, old(index))
    {
      var s := LexWhiteSpace();
      if s.Found? {
        return Ok(s.token);
      }
      ghost var j := index;
      assert LexSpec(text, old(index)) == TryInOrder(ScannerOrder[0..], text, j);

      TryInOrderStep(0, NumberScanner, text, j);
      s := LexNumberLiteral();
      if s.Found? {
        return Ok(s.token);
      } else if s.Panic? {
        return Panicked;
      }
      assert LexSpec(text, old(index)) == TryInOrder(ScannerOrder[1..], text, index);

      j := index;
      TryInOrderStep(1, StringScanner, text, j);
      s := LexStringLiteral();
      if s.Found? {
        return Ok(s.token);
      } else if s.Panic? {
        return Panicked;
      }
      assert LexSpec(text, old(index)) == TryInOrder(ScannerOrder[2..], text, index);

      j := index;
      TryInOrderStep(2, CharacterScanner, text, j);
      s := LexCharacterLiteral();
      if s.Found? {
        return Ok(s.token);
      } else if s.Panic? {
        return Panicked;
      }
      assert LexSpec(text, old(index)) == TryInOrder(ScannerOrder[3..], text, index);

      j := index;
      TryInOrderStep(3, IdentifierScanner, text, j);
      s := LexKeywordAndIdentifier();
      if s.Found? {
        return Ok(s.token);
      } else if s.Panic? {
        return Panicked;
      }
      assert LexSpec(text, old(index)) == TryInOrder(ScannerOrder[4..], text, index);

      j := index;
      TryInOrderStep(4, OperatorScanner, text, j);
      s := LexOperator();
      if s.Found? {
        return Ok(s.token);
      } else if s.Panic? {
        return Panicked;
      }

      return Err(UnknownToken);
    }

    method LexWhiteSpace() returns (r: Scan)
      requires Valid()
      modifies this
      ensures Valid()
      ensures Step(r, index) == WhiteSpaceSpec(text, old(index))
    {
      while true
        invariant old(index) <= index <= |text|
        invariant SpanEnd(text, index, IsWhiteSpace) == SpanEnd(text, old(index), IsWhiteSpace)
        decreases |text| - index
      {
        if index < |text| {
          if IsWhiteSpace(text[index]) {
            IncrementIndex();
          } else {
            return NoMatch;
          }
        } else {
          return Found(EndToken(index));
        }
      }
    }

    method LexOperator() returns (r: Scan)
      requires Valid()
      modifies this
      ensures Valid()
      ensures Step(r, index) == OperatorSpec(text, old(index))
    {
      if index >= |text| {
        return Panic;
      }
      var start := index;
      var c := text[index];
      var kind: TokenKind;
      match c {
        case '+' => IncrementIndex(); kind := PlusOperator;
        case '-' => IncrementIndex(); kind := MinusOperator;
        case '*' => IncrementIndex(); kind := StarOperator;
        case '/' => IncrementIndex(); kind := SlashOperator;
        case '%' => IncrementIndex(); kind := PercentageOperator;
        case '(' => IncrementIndex(); kind := OpenParenthesis;
        case ')' => IncrementIndex(); kind := CloseParenthesis;
        case '!' =>
          if index + 1 >= |text| { return Panic; }
          if text[index + 1] == '=' { IncrementIndexBy(2); kind := NotEqualityOperator; }
          else { IncrementIndex(); kind := LogicalNotOperator; }
        case '|' =>
          if index + 1 >= |text| { return Panic; }
          if text[index + 1] == '|' { IncrementIndexBy(2); kind := LogicalOrOperator; }
          else { return NoMatch; }
        case '&' =>
          if index + 1 >= |text| { return Panic; }
          if text[index + 1] == '&' { IncrementIndexBy(2); kind := LogicalAndOperator; }
          else { return NoMatch; }
        case '<' =>
          if index + 1 >= |text| { return Panic; }
          if text[index + 1] == '=' { IncrementIndexBy(2); kind := LessThanEqualToOperator; }
          else { IncrementIndex(); kind := LessThanOperator; }
        case '>' =>
          if index + 1 >= |text| { return Panic; }
          if text[index + 1] == '=' { IncrementIndexBy(2); kind := GreaterThanEqualToOperator; }
          else { IncrementIndex(); kind := GreaterThanOperator; }
        case '=' =>
          if index + 1 >= |text| { return Panic; }
          if text[index + 1] == '=' { IncrementIndexBy(2); kind := EqualityOperator; }
          else { IncrementIndex(); kind := AssignmentOperator; }
        case _ =>
          return NoMatch;
      }
      r := Found(Token(start, text[start..index], kind));
    }

    method LexNumberLiteral() returns (r: Scan)
      requires Valid()
      modifies this
      ensures Valid()
      ensures Step(r, index) == NumberSpec(text, old(index))
    {
      if index >= |text| {
        return Panic;
      }
      if !IsDigit(text[index]) {
        return NoMatch;
      }
      var start := index;
      IncrementIndex();
      var isIntegerLiteral := true;
      ghost var d1 := SpanEnd(text, start + 1, IsDigit);
      ghost var d2 := if d1 < |text| then SpanEnd(text, d1 + 1, IsDigit) else d1;

      while true
        invariant start < index <= |text|
        invariant index == |text| ==> index == start + 1 && isIntegerLiteral
        invariant isIntegerLiteral ==> index <= d1
        invariant !isIntegerLiteral ==> d1 < |text| && text[d1] == '.' && d1 < index <= d2
        decreases |text| - index
      {
        if index >= |text| {
          return Panic;
        }
        var c := text[index];
        if c == '.' {
          if !isIntegerLiteral {
            return NoMatch;
          } else {
            isIntegerLiteral := false;
          }
        } else if !IsDigit(c) {
          break;
        }
        IncrementIndex();
        if |text| <= index {
          break;
        }
      }
      assert index == if isIntegerLiteral then d1 else d2;
      r := Found(Token(start, text[start..index], if isIntegerLiteral then IntegerLiteral else FloatingPointLiteral));
    }

    method LexStringLiteral() returns (r: Scan)
      requires Valid()
      modifies this
      ensures Valid()
      ensures Step(r, index) == StringSpec(text, old(index))
    {
      if index >= |text| {
        return Panic;
      }
      if text[index] != '"' {
        return NoMatch;
      }
      var start := index;
      IncrementIndex();
      ghost var q := SpanEnd(text, start + 1, IsNotQuote);

      while true
        invariant start < index <= q
        invariant index == |text| ==> index == start + 1
        decreases |text| - index
      {
        if index >= |text| {
          return Panic;
        }
        if text[index] == '"' {
          break;
        }
        IncrementIndex();
        if |text| <= index {
          return NoMatch;
        }
      }
      IncrementIndex();
      r := Found(Token(start, text[start..index], StringLiteral));
    }

    method LexCharacterLiteral() returns (r: Scan)
      requires Valid()
      modifies this
      ensures Valid()
      ensures Step(r, index) == CharacterSpec(text, old(index))
    {
      if index >= |text| {
        return Panic;
      }
      if text[index] != '\'' {
        return NoMatch;
      }
      if index + 2 >= |text| {
        return Panic;
      }
      if text[index + 2] != '\'' {
        return NoMatch;
      }
      var start := index;
      IncrementIndexBy(3);
      r := Found(Token(start, text[start..index], CharacterLiteral));
    }

    method LexKeywordAndIdentifier() returns (r: Scan)
      requires Valid()
      modifies this
      ensures Valid()
      ensures Step(r, index) == IdentifierSpec(text, old(index))
    {
      if index >= |text| {
        return Panic;
      }
      if !IsAlphabetic(text[index]) {
        return NoMatch;
      }
      var start := index;
      IncrementIndex();
      ghost var e := SpanEnd(text, start + 1, IsAlphanumeric);

      while true
        invariant start < index <= e
        invariant index == |text| ==> index == start + 1
        decreases |text| - index
      {
        if index >= |text| {
          return Panic;
        }
        if !IsAlphanumeric(text[index]) {
          break;
        }
        IncrementIndex();
        if |text| <= index {
          break;
        }
      }
      r := Found(Token(start, text[start..index], Identifier));
    }
  }
}
