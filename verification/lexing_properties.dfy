/**
 * What the lexer promises, proved about the functions that specify it
 * (and so, through the methods' postconditions, about `Lexer.Lex`).
 */
module LexingProperties {
  import opened Options
  import opened Tokens
  import opened Lexing

  // ---------------------------------------------------------------------
  // How `lex` hands the cursor from one sub-scanner to the next
  // ---------------------------------------------------------------------

  /** On a '.', every sub-scanner other than the number scanner fails without moving. */
  lemma {:induction false} NothingMatchesDot(scanners: seq<Scanner>, t: string, j: nat)
    requires j < |t| && t[j] == '.'
    requires NumberScanner !in scanners
    ensures TryInOrder(scanners, t, j) == Lexed(Err(UnknownToken), j)
    decreases scanners
  {
    if scanners != [] {
      NothingMatchesDot(scanners[1..], t, j);
    }
  }

  /** At the end of the text every sub-scanner panics, since each first reads the current character. */
  lemma AtEndEveryScannerPanics(scanners: seq<Scanner>, t: string)
    requires scanners != []
    ensures TryInOrder(scanners, t, |t|) == Lexed(Panicked, |t|)
  {
  }

  // ---------------------------------------------------------------------
  // End of input
  // ---------------------------------------------------------------------

  /**
   * `lex` yields End exactly when nothing but white space remains, and then
   * it leaves the cursor at the end of the text.
   */
  lemma LexEndExactlyAtTrailingWhiteSpace(t: string, i: nat)
    requires i <= |t|
    ensures var r := LexSpec(t, i);
      (r.result.Ok? && r.result.token.kind == End) <==> (forall k :: i <= k < |t| ==> IsWhiteSpace(t[k]))
    ensures var r := LexSpec(t, i);
      r.result.Ok? && r.result.token.kind == End ==> r == Lexed(Ok(EndToken(|t|)), |t|)
  {
  }

  /** Once `lex` has yielded End, calling it again yields the same End token and leaves the cursor where it is. */
  lemma LexAfterEndIsEnd(t: string, i: nat)
    requires i <= |t|
    requires LexSpec(t, i).result.Ok? && LexSpec(t, i).result.token.kind == End
    ensures LexSpec(t, LexSpec(t, i).cursor) == LexSpec(t, i)
  {
    LexEndExactlyAtTrailingWhiteSpace(t, i);
    LexEndExactlyAtTrailingWhiteSpace(t, |t|);
  }

  // ---------------------------------------------------------------------
  // Every token is a slice of the source
  // ---------------------------------------------------------------------

  /**
   * A token other than End starts where white-space skipping stopped, its
   * text is exactly the source between that start and the new cursor, and
   * the cursor has moved strictly forward.
   */
  lemma LexTokenIsSourceSlice(t: string, i: nat)
    requires i <= |t|
    ensures var r := LexSpec(t, i);
      r.result.Ok? && r.result.token.kind != End ==>
        && r.result.token.index == WhiteSpaceSpec(t, i).cursor
        && i <= r.result.token.index < r.cursor <= |t|
        && r.result.token.text == t[r.result.token.index..r.cursor]
  {
    var w := WhiteSpaceSpec(t, i);
    if !w.scan.Found? {
      var n := NumberSpec(t, w.cursor);
      if n.scan.NoMatch? {
        if n.cursor != w.cursor {
          NothingMatchesDot(ScannerOrder[1..], t, n.cursor);
        } else {
          var s := StringSpec(t, w.cursor);
          if s.scan.NoMatch? && s.cursor != w.cursor {
            AtEndEveryScannerPanics(ScannerOrder[2..], t);
          }
        }
      }
    }
  }

  /** The sub-scanners' leading-character classes are disjoint, so a token's kind shows in its first character. */
  predicate KindShowsInFirstCharacter(token: Token) {
    |token.text| > 0 &&
    var c := token.text[0];
    && (IsDigit(c) <==> token.kind in {IntegerLiteral, FloatingPointLiteral})
    && (c == '"' <==> token.kind == StringLiteral)
    && (c == '\'' <==> token.kind == CharacterLiteral)
    && (IsAlphabetic(c) <==> token.kind == Identifier)
    && token.kind != Keyword
  }

  lemma ScanKindByFirstCharacter(s: Scanner, t: string, i: nat)
    requires i <= |t|
    ensures ScanWith(s, t, i).scan.Found? ==> KindShowsInFirstCharacter(ScanWith(s, t, i).scan.token)
  {
    var r := ScanWith(s, t, i);
    if r.scan.Found? {
      assert r.scan.token.text[0] == t[i];
      if s == OperatorScanner {
        OperatorTokenSpellsItsKind(t, i);
      }
    }
  }

  lemma {:induction false} TryInOrderKindByFirstCharacter(scanners: seq<Scanner>, t: string, i: nat)
    requires i <= |t|
    ensures TryInOrder(scanners, t, i).result.Ok? ==> KindShowsInFirstCharacter(TryInOrder(scanners, t, i).result.token)
    decreases scanners
  {
    if scanners != [] {
      ScanKindByFirstCharacter(scanners[0], t, i);
      var r := ScanWith(scanners[0], t, i);
      if r.scan.NoMatch? {
        TryInOrderKindByFirstCharacter(scanners[1..], t, r.cursor);
      }
    }
  }

  /**
   * The kind of a token other than End is decided by its first character
   * alone: the sub-scanners' leading-character classes are disjoint.
   */
  lemma LexKindByFirstCharacter(t: string, i: nat)
    requires i <= |t|
    ensures var r := LexSpec(t, i);
      r.result.Ok? && r.result.token.kind != End ==> KindShowsInFirstCharacter(r.result.token)
  {
    TryInOrderKindByFirstCharacter(ScannerOrder, t, WhiteSpaceSpec(t, i).cursor);
  }

  // ---------------------------------------------------------------------
  // Number literals
  // ---------------------------------------------------------------------

  /**
   * A number token starts with a digit and holds only digits and at most one
   * '.'; it is an integer literal exactly when it holds no '.'. It is
   * maximal: the next character is neither a digit nor a '.'.
   */
  lemma NumberTokenShape(t: string, i: nat)
    requires i <= |t|
    ensures var r := NumberSpec(t, i);
      r.scan.Found? ==>
        var s := r.scan.token.text;
        && |s| > 0 && IsDigit(s[0])
        && (forall k :: 0 <= k < |s| ==> IsDigit(s[k]) || s[k] == '.')
        && (forall a, b :: 0 <= a < b < |s| && s[a] == '.' ==> s[b] != '.')
        && (r.scan.token.kind == IntegerLiteral <==> '.' !in s)
        && (r.scan.token.kind == FloatingPointLiteral <==> '.' in s)
        && (r.cursor == |t| || (!IsDigit(t[r.cursor]) && t[r.cursor] != '.'))
  {
    var r := NumberSpec(t, i);
    if r.scan.Found? {
      var s := r.scan.token.text;
      var d1 := SpanEnd(t, i + 1, IsDigit);
      assert forall k :: 0 <= k < |s| ==> s[k] == t[i + k];
      if r.scan.token.kind == IntegerLiteral {
        assert forall k :: 0 <= k < |s| ==> IsDigit(s[k]);
      } else {
        assert s[d1 - i] == '.';
      }
    }
  }

  /** A second '.' makes the number scanner fail with the cursor left on that '.'. */
  lemma NumberSecondDotFails(t: string, i: nat, d1: nat, d2: nat)
    requires i < d1 < d2 < |t|
    requires forall k :: i <= k < d1 ==> IsDigit(t[k])
    requires forall k :: d1 < k < d2 ==> IsDigit(t[k])
    requires t[d1] == '.' && t[d2] == '.'
    ensures NumberSpec(t, i) == Step(NoMatch, d2)
  {
    assert SpanEnd(t, i + 1, IsDigit) == d1 by { SpanEndStopsAt(t, i + 1, d1, IsDigit); }
    assert SpanEnd(t, d1 + 1, IsDigit) == d2 by { SpanEndStopsAt(t, d1 + 1, d2, IsDigit); }
  }

  /** `SpanEnd` is the first failing position: a run of `p` ending at a failure determines it. */
  lemma SpanEndStopsAt(t: string, k: nat, e: nat, p: char -> bool)
    requires k <= e <= |t|
    requires forall j :: k <= j < e ==> p(t[j])
    requires e < |t| ==> !p(t[e])
    ensures SpanEnd(t, k, p) == e
  {
  }

  /**
   * When the number scanner fails on a second '.', no later sub-scanner
   * accepts that '.', so `lex` reports "Unknown token.".
   */
  lemma LexRejectsSecondDot(t: string, i: nat)
    requires i <= |t|
    requires WhiteSpaceSpec(t, i).cursor < |t|
    requires var w := WhiteSpaceSpec(t, i).cursor;
      NumberSpec(t, w).scan.NoMatch? && NumberSpec(t, w).cursor != w
    ensures LexSpec(t, i) == Lexed(Err(UnknownToken), NumberSpec(t, WhiteSpaceSpec(t, i).cursor).cursor)
  {
    var w := WhiteSpaceSpec(t, i).cursor;
    NothingMatchesDot(ScannerOrder[1..], t, NumberSpec(t, w).cursor);
  }

  /** "1.2.3" is rejected, not cut short to "1.2". */
  lemma LexRejectsOnePointTwoPointThree()
    ensures LexSpec("1.2.3", 0) == Lexed(Err(UnknownToken), 3)
  {
    NumberSecondDotFails("1.2.3", 0, 1, 3);
    LexRejectsSecondDot("1.2.3", 0);
  }

  /**
   * A digit with a character after it starts a number: `lex` yields the
   * number scanner's token, or "Unknown token." exactly when that scanner
   * fails on a second '.'.
   */
  lemma LexNumberAtDigit(t: string, i: nat)
    requires i <= |t|
    requires var w := WhiteSpaceSpec(t, i).cursor; w + 1 < |t| && IsDigit(t[w])
    ensures var n := NumberSpec(t, WhiteSpaceSpec(t, i).cursor);
      && (n.scan.Found? ==> LexSpec(t, i) == Lexed(Ok(n.scan.token), n.cursor))
      && (!n.scan.Found? ==> LexSpec(t, i) == Lexed(Err(UnknownToken), n.cursor))
  {
    var w := WhiteSpaceSpec(t, i).cursor;
    var n := NumberSpec(t, w);
    if !n.scan.Found? {
      NothingMatchesDot(ScannerOrder[1..], t, n.cursor);
    }
  }

  // ---------------------------------------------------------------------
  // String and character literals
  // ---------------------------------------------------------------------

  /**
   * A string token begins and ends with '"' and holds no other '"': its
   * closing quote is the first one after the opening quote.
   */
  lemma StringTokenShape(t: string, i: nat)
    requires i <= |t|
    ensures var r := StringSpec(t, i);
      r.scan.Found? ==>
        var s := r.scan.token.text;
        && |s| >= 2 && s[0] == '"' && s[|s| - 1] == '"'
        && (forall k :: 0 < k < |s| - 1 ==> s[k] != '"')
  {
    var r := StringSpec(t, i);
    if r.scan.Found? {
      var s := r.scan.token.text;
      assert forall k :: 0 <= k < |s| ==> s[k] == t[i + k];
    }
  }

  /**
   * An opening '"' with no closing '"' after it makes `lex` panic: the string
   * scanner gives up with the cursor at the end of the text and the
   * character scanner then reads past it.
   */
  lemma LexUnterminatedStringPanics(t: string, i: nat)
    requires i <= |t|
    requires var w := WhiteSpaceSpec(t, i).cursor;
      w < |t| && t[w] == '"' && forall k :: w < k < |t| ==> t[k] != '"'
    ensures LexSpec(t, i).result == Panicked
  {
    var w := WhiteSpaceSpec(t, i).cursor;
    if w + 1 < |t| {
      SpanEndStopsAt(t, w + 1, |t|, IsNotQuote);
      AtEndEveryScannerPanics(ScannerOrder[2..], t);
    }
  }

  /** A '"' with a later '"' makes `lex` yield the string token up to and including the first such '"'. */
  lemma LexStringAtQuote(t: string, i: nat, q: nat)
    requires i <= |t|
    requires var w := WhiteSpaceSpec(t, i).cursor;
      w < q < |t| && t[w] == '"' && t[q] == '"' && forall k :: w < k < q ==> t[k] != '"'
    ensures var w := WhiteSpaceSpec(t, i).cursor;
      LexSpec(t, i) == Lexed(Ok(Token(w, t[w..q + 1], StringLiteral)), q + 1)
  {
    var w := WhiteSpaceSpec(t, i).cursor;
    SpanEndStopsAt(t, w + 1, q, IsNotQuote);
  }

  /**
   * A character literal is produced exactly when the characters at the
   * cursor and two after it are both quotes, and it is three characters long.
   */
  lemma CharacterLiteralExactly(t: string, i: nat)
    requires i + 2 < |t|
    ensures CharacterSpec(t, i).scan.Found? <==> t[i] == '\'' && t[i + 2] == '\''
    ensures CharacterSpec(t, i).scan.Found? ==> CharacterSpec(t, i).cursor == i + 3
  {
  }

  /** "'ab'" is not a character literal, and no other rule takes a quote: "Unknown token.". */
  lemma LexRejectsTwoCharacterQuote()
    ensures LexSpec("'ab'", 0) == Lexed(Err(UnknownToken), 0)
  {
    assert SpanEnd("'ab'", 0, IsWhiteSpace) == 0;
  }

  // ---------------------------------------------------------------------
  // Identifiers
  // ---------------------------------------------------------------------

  /**
   * An identifier token starts with a letter, holds only letters and
   * digits, and is maximal. Keywords are never produced.
   */
  lemma IdentifierTokenShape(t: string, i: nat)
    requires i <= |t|
    ensures var r := IdentifierSpec(t, i);
      r.scan.Found? ==>
        var s := r.scan.token.text;
        && |s| > 0 && IsAlphabetic(s[0])
        && (forall k :: 0 <= k < |s| ==> IsAlphanumeric(s[k]))
        && (r.cursor == |t| || !IsAlphanumeric(t[r.cursor]))
        && r.scan.token.kind == Identifier
  {
    var r := IdentifierSpec(t, i);
    if r.scan.Found? {
      var s := r.scan.token.text;
      assert forall k :: 0 <= k < |s| ==> s[k] == t[i + k];
    }
  }

  /**
   * A letter with a character after it makes `lex` yield the identifier
   * scanner's token: the longest run of letters and digits starting there
   * (see `IdentifierTokenShape`).
   */
  lemma LexIdentifierAtLetter(t: string, i: nat)
    requires i <= |t|
    requires var w := WhiteSpaceSpec(t, i).cursor; w + 1 < |t| && IsAlphabetic(t[w])
    ensures var n := IdentifierSpec(t, WhiteSpaceSpec(t, i).cursor);
      n.scan.Found? && LexSpec(t, i) == Lexed(Ok(n.scan.token), n.cursor)
  {
    TryInOrderAtLetter(t, WhiteSpaceSpec(t, i).cursor);
  }

  /** On a letter, the number, string and character scanners fail in place and the identifier scanner decides. */
  lemma TryInOrderAtLetter(t: string, w: nat)
    requires w + 1 < |t| && IsAlphabetic(t[w])
    ensures TryInOrder(ScannerOrder, t, w) == Lexed(Ok(IdentifierSpec(t, w).scan.token), IdentifierSpec(t, w).cursor)
  {
    assert ScannerOrder[3..][1..] == [OperatorScanner];
    assert TryInOrder(ScannerOrder[3..], t, w) == Lexed(Ok(IdentifierSpec(t, w).scan.token), IdentifierSpec(t, w).cursor);
  }

  // ---------------------------------------------------------------------
  // Operators
  // ---------------------------------------------------------------------

  /** The spelling of each operator and separator kind; empty for the other kinds. */
  function OperatorSymbol(kind: TokenKind): (s: string)
    ensures |s| <= 2
  {
    match kind
    case PlusOperator => "+"
    case MinusOperator => "-"
    case StarOperator => "*"
    case SlashOperator => "/"
    case PercentageOperator => "%"
    case OpenParenthesis => "("
    case CloseParenthesis => ")"
    case LogicalNotOperator => "!"
    case NotEqualityOperator => "!="
    case LogicalOrOperator => "||"
    case LogicalAndOperator => "&&"
    case LessThanOperator => "<"
    case LessThanEqualToOperator => "<="
    case GreaterThanOperator => ">"
    case GreaterThanEqualToOperator => ">="
    case AssignmentOperator => "="
    case EqualityOperator => "=="
    case _ => ""
  }

  /**
   * Every operator token is spelled as its kind says, and the one-character
   * forms of '!', '<', '>' and '=' are produced only when no '=' follows.
   */
  lemma OperatorTokenSpellsItsKind(t: string, i: nat)
    requires i <= |t|
    ensures var r := OperatorSpec(t, i);
      r.scan.Found? ==>
        && r.scan.token.text == OperatorSymbol(r.scan.token.kind)
  {
    if i < |t| {
      assert t[i..i + 1] == [t[i]];
      match t[i]
      case '+' =>
      case '-' =>
      case '*' =>
      case '/' =>
      case '%' =>
      case '(' =>
      case ')' =>
      case '!' => LookaheadSpellsItsKind(t, i, '=', NotEqualityOperator, Some(LogicalNotOperator));
      case '|' => LookaheadSpellsItsKind(t, i, '|', LogicalOrOperator, None);
      case '&' => LookaheadSpellsItsKind(t, i, '&', LogicalAndOperator, None);
      case '<' => LookaheadSpellsItsKind(t, i, '=', LessThanEqualToOperator, Some(LessThanOperator));
      case '>' => LookaheadSpellsItsKind(t, i, '=', GreaterThanEqualToOperator, Some(GreaterThanOperator));
      case '=' => LookaheadSpellsItsKind(t, i, '=', EqualityOperator, Some(AssignmentOperator));
      case _ =>
    }
  }

  /**
   * Lookahead is greedy: a one-character '!', '<', '>' or '=' is produced
   * only when the next character exists and is not '='.
   */
  lemma OperatorLookaheadIsGreedy(t: string, i: nat)
    requires i < |t| && t[i] in "!<>="
    ensures var r := OperatorSpec(t, i);
      r.scan.Found? && r.cursor == i + 1 ==> i + 1 < |t| && t[i + 1] != '='
    ensures var r := OperatorSpec(t, i);
      i + 1 < |t| && t[i + 1] == '=' ==> r.scan.Found? && r.cursor == i + 2
  {
    match t[i]
    case '!' =>
    case '<' =>
    case '>' =>
    case '=' =>
  }

  lemma LookaheadSpellsItsKind(t: string, i: nat, next: char, pair: TokenKind, single: Option<TokenKind>)
    requires i < |t|
    requires OperatorSymbol(pair) == [t[i], next]
    requires single.Some? ==> OperatorSymbol(single.value) == [t[i]]
    ensures var r := Lookahead(t, i, next, pair, single);
      r.scan.Found? ==> r.scan.token.text == OperatorSymbol(r.scan.token.kind)
  {
    var r := Lookahead(t, i, next, pair, single);
    if r.scan.Found? && r.cursor == i + 2 {
      assert t[i..i + 2] == [t[i], t[i + 1]];
    }
  }

  /**
   * Conversely, an operator spelled at the cursor is lexed whole, unless a
   * one-character '!', '<', '>' or '=' is followed by '=' (then the
   * two-character form wins) or is the last character (then the lookahead
   * panics).
   */
  lemma OperatorSpecComplete(t: string, i: nat, kind: TokenKind)
    requires var s := OperatorSymbol(kind); s != [] && i + |s| <= |t| && t[i..i + |s|] == s
    requires var s := OperatorSymbol(kind); |s| == 1 && s[0] in "!<>=" ==> i + 1 < |t| && t[i + 1] != '='
    ensures OperatorSpec(t, i) == Step(Found(Token(i, OperatorSymbol(kind), kind)), i + |OperatorSymbol(kind)|)
  {
    var s := OperatorSymbol(kind);
    assert t[i] == s[0];
    if |s| == 2 {
      assert t[i + 1] == s[1];
    }
  }

  /** A lone '|' or '&' (not doubled) is not an operator: "Unknown token.". */
  lemma LexRejectsLoneBarOrAmpersand(t: string, i: nat)
    requires i <= |t|
    requires var w := WhiteSpaceSpec(t, i).cursor;
      w + 1 < |t| && (t[w] == '|' || t[w] == '&') && t[w + 1] != t[w]
    ensures LexSpec(t, i) == Lexed(Err(UnknownToken), WhiteSpaceSpec(t, i).cursor)
  {
  }

  // ---------------------------------------------------------------------
  // Reads past the end
  // ---------------------------------------------------------------------

  /**
   * A token that would start on the last character panics when that
   * character is a digit, a letter, a quote of either kind, or one of
   * '!', '<', '>', '=', '|', '&': each of those scanners reads one or two
   * characters further without checking. So does a '\'' on the last but one
   * character, whose closing quote would lie past the end.
   */
  lemma LexPanicsOnLastCharacter(t: string, i: nat)
    requires i <= |t|
    requires var w := WhiteSpaceSpec(t, i).cursor;
      || (w + 1 == |t| && (IsDigit(t[w]) || IsAlphabetic(t[w]) || t[w] in "\"'!<>=|&"))
      || (w + 2 == |t| && t[w] == '\'')
    ensures LexSpec(t, i).result == Panicked
  {
  }

  /** The cases in which `lex` panics from cursor position `w`, the end of the skipped white space. */
  predicate PanicsAt(t: string, w: nat)
    requires w <= |t|
  {
    && w < |t|
    && (|| (w + 1 == |t| && (IsDigit(t[w]) || IsAlphabetic(t[w]) || t[w] in "\"'!<>=|&"))
        || (w + 2 == |t| && t[w] == '\'')
        || (t[w] == '"' && forall k :: w < k < |t| ==> t[k] != '"'))
  }

  /**
   * `lex` panics exactly in those cases: a scanner reading past the end on
   * the last character, a '\'' on the last but one, or a string literal that
   * is never closed. Everywhere else it yields a token or "Unknown token.".
   */
  lemma LexPanicsExactly(t: string, i: nat)
    requires i <= |t|
    ensures LexSpec(t, i).result == Panicked <==> PanicsAt(t, WhiteSpaceSpec(t, i).cursor)
  {
    var w := WhiteSpaceSpec(t, i).cursor;
    if w < |t| {
      var n := NumberSpec(t, w);
      if n.scan.NoMatch? && n.cursor != w {
        NothingMatchesDot(ScannerOrder[1..], t, n.cursor);
      } else if t[w] == '"' && w + 1 < |t| {
        var q := SpanEnd(t, w + 1, IsNotQuote);
        if q == |t| {
          AtEndEveryScannerPanics(ScannerOrder[2..], t);
        } else {
          assert !(forall k :: w < k < |t| ==> t[k] != '"') by { assert t[q] == '"'; }
        }
      }
    }
  }

  /** The one-character operators that need no lookahead are safe at the very end. */
  lemma LexSingleOperatorAtEnd(t: string, i: nat)
    requires i <= |t|
    requires var w := WhiteSpaceSpec(t, i).cursor;
      w + 1 == |t| && t[w] in "+-*/%()"
    ensures var w := WhiteSpaceSpec(t, i).cursor;
      LexSpec(t, i).result.Ok? && LexSpec(t, i).result.token.text == [t[w]] && LexSpec(t, i).cursor == |t|
  {
  }
}
