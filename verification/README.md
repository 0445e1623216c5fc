# kalf lexer and expression tree, modelled in Dafny

This project models the front end of kalf, a small arithmetic-expression
language written in Rust:

- the hand-written **lexer** (`src/lexing/lexer.rs`): an object holding the
  source text and a cursor, whose `lex` skips white space and then tries
  five sub-scanners in a fixed order (number, string, character,
  identifier, operator), returning the first token any of them produces or
  the error `"Unknown token."`;
- the **token** record (`src/lexing/token.rs`): start index, text and one
  of 24 kinds;
- the **expression tree** (`src/syntax/expression/*.rs`): binary, unary,
  literal and parenthesised nodes, the precedence of binary operators and
  the rank of tokens in an expression.

Files:

- `options.dfy`: module `Options`, the usual `Option` datatype.
- `tokens.dfy`: module `Tokens`, `TokenKind` and `Token`.
- `lexing.dfy`: module `Lexing`. First, one pure function per sub-scanner
  (`WhiteSpaceSpec`, `NumberSpec`, `StringSpec`, `CharacterSpec`,
  `IdentifierSpec`, `OperatorSpec`) and `LexSpec` for a whole `lex` call.
  Each says what the scanner yields and where it leaves the cursor. They are
  written declaratively, in terms of `SpanEnd` (the end of the longest run
  of characters of one class). Then the class `Lexer`: a `const text` and a
  mutable `index`, with one method per scanning function of the source
  (`lex`, its six sub-scanners, `increment_index` and `increment_index_by`),
  written step by step with the source's loops. `get_current_character` and
  `get_current_character_offset` (lexer.rs:56-62) have no method of their
  own: each read is written inline as a test of the position against the
  length of the text, which gives `Panic` when it is past the end, followed
  by `text[index]`. Each method is proved to yield exactly what its
  function says and to leave the cursor exactly where the function says.
- `lexing_properties.dfy`: module `LexingProperties`, the lexer's
  promises proved about those functions.
- `expressions.dfy`: module `Expressions`, the tree and the two rankings.

How the source's behaviour is represented:

- **Panics.** `get_current_character` and `get_current_character_offset`
  (lexer.rs:56-62) call `.unwrap()`, so reading past the end of the text
  panics. Every scanner has an explicit `Panic` outcome for this, and `lex`
  has a `Panicked` outcome; neither is the `Err("Unknown token.")` result.
  `LexPanicsExactly` gives the cases, in both directions: a digit, a letter,
  a quote or one of `! < > = | &` as the last character; a `'` as the last
  but one character; and a `"` with no later `"`. In the last case the
  string scanner gives up with the cursor at the end, and the character
  scanner then reads past it, so an unterminated string literal panics; it
  is not returned as an error.
- **Failing scanners keep their cursor.** The number scanner stops on a
  second `.` and leaves the cursor there (lexer.rs:177-179). The string
  scanner leaves the cursor at the end of the text (lexer.rs:212-213). The
  next scanner starts from that cursor, as in the source.
- **ASCII only.** `str::len` counts bytes but `chars().nth` counts
  characters. The two agree only on ASCII text, so `Lexer`'s constructor
  requires ASCII text. The character classes are the ASCII meanings of
  `is_whitespace` (tab, line feed, vertical tab, form feed, carriage return,
  space), `is_numeric`, `is_alphabetic` and `is_alphanumeric`.
- **Tokens.** `lexer.rs` builds enum-shaped tokens
  (`Token::PlusOperator(TokenContent::new(index, text))`), while `token.rs`
  declares a record. Both carry a start index, a text and a kind. The model
  is the record `Token(index, text, kind)`. `Token::End` carries no content
  in the lexer; the model gives it the cursor position (the length of the
  text) and empty text. The `Keyword` kind exists, but the identifier
  scanner never produces it.
- **Expression tree.** The Rust snapshots disagree: `expression.rs` makes
  `Expression` a trait, while the evaluator and the printer match on an enum
  with four variants. The model is that enum, as a datatype whose variants
  hold the four node records. The getters are the records' fields. Dafny
  datatypes are immutable values, so cloning a node (`#[derive(Clone)]`)
  yields an equal node.

## Model

| member | source | states |
|---|---|---|
| Tokens.NewToken | src/lexing/token.rs:49-63 | `Token::new` stores index, text and kind, and the getters `text()` and `kind()` return them unchanged |
| Tokens.TokenKindsClosed | src/lexing/token.rs:2-40 | `TokenKind` is a closed set of exactly 24 distinct kinds |
| Lexing.SpanEnd | src/lexing/lexer.rs:65-72 | the end of a maximal run: every character from the start up to the result is in the class, and the character at the result (if any) is not |
| Lexing.WhiteSpaceSpec | src/lexing/lexer.rs:64-79 | white-space skipping passes only white space and stops on the first other character; it yields End exactly when it reaches the end of the text, with the cursor there, and never panics |
| Lexing.NumberSpec | src/lexing/lexer.rs:168-202 | a number token is the source slice from its start to the new cursor, of kind integer or floating point; the scanner panics exactly at the end of the text or on a digit that is the last character, fails in place exactly on a non-digit, and a failure that moves the cursor leaves it on a '.' |
| Lexing.StringSpec | src/lexing/lexer.rs:204-223 | a string token is the source slice from its start to the new cursor; an opening '"' with a later '"' always yields a token; the scanner panics exactly at the end of the text or on a '"' that is the last character, fails in place exactly when not on a '"', and a failure that moves the cursor leaves it at the end of the text |
| Lexing.CharacterSpec | src/lexing/lexer.rs:225-234 | a character token is the source slice from its start to the new cursor; a failure leaves the cursor in place |
| Lexing.IdentifierSpec | src/lexing/lexer.rs:236-253 | an identifier token is the source slice from its start to the new cursor, of kind `Identifier`; a token is produced exactly when a letter is not the last character, the scanner panics exactly at the end of the text or on a letter that is the last character, and otherwise fails in place |
| Lexing.Lookahead | src/lexing/lexer.rs:112-163 | a lookahead operator is two characters, of the pair kind, exactly when the second is the expected one; otherwise it is one character, of the single kind, or no match with the cursor in place when there is no one-character form; it panics exactly on the last character |
| Lexing.OperatorSpec | src/lexing/lexer.rs:81-166 | an operator token is the source slice from its start to the new cursor; a failure leaves the cursor in place |
| Lexing.TryInOrder | src/lexing/lexer.rs:25-45 | trying scanners in order yields a token that is a source slice ending at the new cursor and never End, and the cursor never moves back |
| Lexing.LexSpec | src/lexing/lexer.rs:20-46 | one `lex` call moves the cursor forward and never past the end of the text |
| Lexing.Lexer.constructor | src/lexing/lexer.rs:13-18 | a new lexer holds the text with the cursor at 0 |
| Lexing.Lexer.IncrementIndex | src/lexing/lexer.rs:48-50 | the cursor advances by one |
| Lexing.Lexer.IncrementIndexBy | src/lexing/lexer.rs:52-54 | the cursor advances by the given amount |
| Lexing.Lexer.Lex | src/lexing/lexer.rs:20-46 | `lex` yields the result `LexSpec` gives from the old cursor, and leaves the cursor where `LexSpec` says |
| Lexing.Lexer.LexWhiteSpace | src/lexing/lexer.rs:64-79 | the white-space loop yields the outcome and cursor that `WhiteSpaceSpec` gives |
| Lexing.Lexer.LexOperator | src/lexing/lexer.rs:81-166 | the operator match yields the outcome and cursor that `OperatorSpec` gives |
| Lexing.Lexer.LexNumberLiteral | src/lexing/lexer.rs:168-202 | the number loop, with its integer/floating-point flag, yields the outcome and cursor that `NumberSpec` gives |
| Lexing.Lexer.LexStringLiteral | src/lexing/lexer.rs:204-223 | the string loop yields the outcome and cursor that `StringSpec` gives |
| Lexing.Lexer.LexCharacterLiteral | src/lexing/lexer.rs:225-234 | the character-literal check yields the outcome and cursor that `CharacterSpec` gives |
| Lexing.Lexer.LexKeywordAndIdentifier | src/lexing/lexer.rs:236-253 | the identifier loop yields the outcome and cursor that `IdentifierSpec` gives |
| LexingProperties.NothingMatchesDot | src/lexing/lexer.rs:29-45 | on a '.', the string, character, identifier and operator scanners all fail without moving, so the result is "Unknown token." |
| LexingProperties.AtEndEveryScannerPanics | src/lexing/lexer.rs:56-58 | with the cursor at the end of the text, every sub-scanner panics on its first read |
| LexingProperties.LexEndExactlyAtTrailingWhiteSpace | src/lexing/lexer.rs:21-23 | `lex` yields End exactly when only white space remains, and then the cursor is at the end of the text |
| LexingProperties.LexAfterEndIsEnd | src/lexing/lexer.rs:64-79 | after End, calling `lex` again yields End again and leaves the cursor unchanged |
| LexingProperties.LexTokenIsSourceSlice | src/lexing/lexer.rs:82-86 | every token other than End starts where white-space skipping stopped, its text is the source slice from that start to the new cursor, and the cursor strictly advances |
| LexingProperties.LexKindByFirstCharacter | src/lexing/lexer.rs:20-46 | a token's kind is decided by its first character: digits give the number kinds, '"' a string, a quote a character, a letter an identifier; `Keyword` is never produced |
| LexingProperties.NumberTokenShape | src/lexing/lexer.rs:168-198 | a number token starts with a digit, holds only digits and at most one '.', is an integer literal exactly when it has no '.', and is maximal: no digit or '.' follows it |
| LexingProperties.NumberSecondDotFails | src/lexing/lexer.rs:177-179 | digits, '.', digits, '.' make the number scanner fail with the cursor left on the second '.' |
| LexingProperties.LexNumberAtDigit | src/lexing/lexer.rs:25-45 | a digit that is not the last character makes `lex` yield the number scanner's token, or "Unknown token." exactly when that scanner fails on a second '.' |
| LexingProperties.LexRejectsSecondDot | src/lexing/lexer.rs:164 | when the number scanner fails on a second '.', `lex` returns "Unknown token." |
| LexingProperties.LexRejectsOnePointTwoPointThree | src/lexing/lexer.rs:45 | `1.2.3` is rejected with "Unknown token." (cursor left at 3), not cut short to `1.2` |
| LexingProperties.StringTokenShape | src/lexing/lexer.rs:204-219 | a string token begins and ends with '"' and holds no other '"', so its closing quote is the first after the opener |
| LexingProperties.LexStringAtQuote | src/lexing/lexer.rs:204-223 | a '"' with a later '"' makes `lex` yield the string token up to and including the first such '"' |
| LexingProperties.LexUnterminatedStringPanics | src/lexing/lexer.rs:209-214 | a '"' with no later '"' makes `lex` panic |
| LexingProperties.CharacterLiteralExactly | src/lexing/lexer.rs:225-230 | with two characters of room, a character literal is produced exactly when the characters at the cursor and two after it are quotes, and it consumes three characters |
| LexingProperties.LexRejectsTwoCharacterQuote | src/lexing/lexer.rs:225-234 | `'ab'` matches no rule and yields "Unknown token." |
| LexingProperties.IdentifierTokenShape | src/lexing/lexer.rs:236-249 | an identifier starts with a letter, holds only letters and digits, is maximal, and has kind `Identifier` |
| LexingProperties.LexIdentifierAtLetter | src/lexing/lexer.rs:236-253 | a letter that is not the last character makes `lex` yield the identifier scanner's token, which `IdentifierTokenShape` shows is the longest run of letters and digits starting there, of kind `Identifier` |
| LexingProperties.OperatorTokenSpellsItsKind | src/lexing/lexer.rs:84-163 | every operator token's text is the spelling of its kind (`+`, `!=`, `&&`, ...) |
| LexingProperties.OperatorLookaheadIsGreedy | src/lexing/lexer.rs:112-163 | `! < > =` followed by '=' always take two characters; their one-character form is produced only when no '=' follows |
| LexingProperties.OperatorSpecComplete | src/lexing/lexer.rs:84-163 | conversely, an operator spelled at the cursor is lexed whole, as its kind, unless a one-character `! < > =` is followed by '=' or is the last character |
| LexingProperties.LexRejectsLoneBarOrAmpersand | src/lexing/lexer.rs:121-136 | a single `|` or `&` not doubled yields "Unknown token." |
| LexingProperties.LexPanicsOnLastCharacter | src/lexing/lexer.rs:56-62 | a digit, letter, quote or one of `! < > = | &` as the last character, or a `'` as the last but one, makes `lex` panic |
| LexingProperties.LexPanicsExactly | src/lexing/lexer.rs:56-62 | `lex` panics if and only if one of those cases holds or a '"' has no later '"'; otherwise it yields a token or "Unknown token." |
| LexingProperties.LexSingleOperatorAtEnd | src/lexing/lexer.rs:84-111 | `+ - * / % ( )` as the last character are lexed as one-character tokens without panicking |
| Expressions.KindOf | src/syntax/expression/expression.rs:10-20 | each node is mapped to the tag of its own variant, never `Condition`; the source only declares `get_expression_kind` and no node type implements it, so this mapping is the model's choice |
| Expressions.Children | src/runtime/evaluation/expression.rs:13-18 | each child of a node is strictly smaller than the node, so trees have no cycles |
| Expressions.ChildCount | src/runtime/evaluation/expression.rs:13-18 | a binary node has two children, a unary or parenthesised node one, a literal node none |
| Expressions.BinaryNewThenGet | src/syntax/expression/binary_expression.rs:35-53 | `BinaryExpression::new(l, r, k)` then the getters give `l`, `r` and `k` |
| Expressions.UnaryNewThenGet | src/syntax/expression/unary_expression.rs:18-31 | `UnaryExpression::new(op, k)` then the getters give `op` and `k` |
| Expressions.LiteralNewThenGet | src/syntax/expression/literal_expression.rs:17-30 | `LiteralExpression::new(t, k)` then the getters give `t` and `k` |
| Expressions.ParenthesisedNewThenGet | src/syntax/expression/parenthesised_expression.rs:11-19 | `ParenthesisedExpression::new(c)` then `get_content()` gives `c` |
| Expressions.Precedence | src/syntax/expression/binary_expression.rs:15-24 | every binary operator's precedence is 1 or 2 |
| Expressions.MultiplicativeBindsTighter | src/syntax/expression/binary_expression.rs:17-22 | one operator ranks strictly above another exactly when it is multiplicative and the other additive; operators of the same class tie |
| Expressions.ExpressionPrecedence | src/syntax/expression/expression.rs:22-29 | a token's rank is 0, 8, 9 or 11 |
| Expressions.BinaryKindOf | src/diagnostic/printing.rs:67-71 | exactly the five arithmetic operator tokens spell a binary operator |
| Expressions.ExpressionPrecedenceClasses | src/syntax/expression/expression.rs:24-27 | only operator and parenthesis tokens rank above 0, and parentheses (11) outrank every operator |
| Expressions.ExpressionPrecedenceAgreesWithPrecedence | src/syntax/expression/expression.rs:24-25 | the token ranking orders operator tokens exactly as their binary operators' precedences do (rank = 7 + precedence) |

## Left out

- The parser is not modelled: `parse` and `parseExpression` are `todo!()` stubs (src/parser.rs:30-36).
- The evaluator (`src/runtime/evaluation/`) is not part of this model: it computes with 64-bit floating point and parses literal text with a library call.
- The printer (`src/diagnostic/printing*`) is left out because it is console output only. Its operator symbols ground `BinaryKindOf`.
- The driver (`src/main.rs`), which lexes a fixed string and prints the tokens, is left out.
- The unused type declarations (`src/types/`) and the re-export and trait files (`src/syntax/syntax.rs`, `src/syntax/mod.rs`, `src/syntax/expression/mod.rs`) are left out. They have no behaviour.
- Non-ASCII text is left out: the character classes are the ASCII ones, and the model does not capture the mismatch between byte length and character index on multi-byte text.
- The cost of `chars().nth` (a linear scan per read) is not modelled: the model reads `text[index]` directly.
- A panic aborts the Rust program; the model returns it as an outcome instead, and the cursor it reports then has no meaning.
