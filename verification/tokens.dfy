/**
 * Tokens produced by the lexer: a closed set of kinds and an immutable
 * (start index, text, kind) record.
 */
module Tokens {

  /** The 24 token kinds, in the order the source declares them. */
  datatype TokenKind =
    // literals
    | StringLiteral | CharacterLiteral | IntegerLiteral | FloatingPointLiteral
    // arithmetic
    | PlusOperator | MinusOperator | SlashOperator | StarOperator | PercentageOperator
    // assignment
    | AssignmentOperator
    // relational
    | EqualityOperator | NotEqualityOperator | LessThanOperator | GreaterThanOperator
    | LessThanEqualToOperator | GreaterThanEqualToOperator
    // logical
    | LogicalNotOperator | LogicalAndOperator | LogicalOrOperator
    // separators
    | OpenParenthesis | CloseParenthesis
    | Identifier | Keyword
    | End

  /** Every kind, once each, in declaration order. */
  const AllTokenKinds: seq<TokenKind> := [
    StringLiteral, CharacterLiteral, IntegerLiteral, FloatingPointLiteral,
    PlusOperator, MinusOperator, SlashOperator, StarOperator, PercentageOperator,
    AssignmentOperator,
    EqualityOperator, NotEqualityOperator, LessThanOperator, GreaterThanOperator,
    LessThanEqualToOperator, GreaterThanEqualToOperator,
    LogicalNotOperator, LogicalAndOperator, LogicalOrOperator,
    OpenParenthesis, CloseParenthesis,
    Identifier, Keyword,
    End
  ]

  /**
   * A token: the index of its first character in the source, its text (a
   * slice of the source) and its kind. A datatype value has no mutators, so a
   * token never changes after it is built; `index`, `text` and `kind` are the
   * getters.
   */
  datatype Token = Token(index: nat, text: string, kind: TokenKind)

  /** `Token::new` stores its three arguments, and the getters return them. */
  function NewToken(index: nat, text: string, kind: TokenKind): (t: Token)
    ensures t.index == index && t.text == text && t.kind == kind
  {
    Token(index, text, kind)
  }

  /** The kind set is closed: exactly 24 distinct kinds, and every kind is one of them. */
  lemma TokenKindsClosed(kind: TokenKind)
    ensures |AllTokenKinds| == 24
    ensures kind in AllTokenKinds
    ensures forall i, j :: 0 <= i < j < |AllTokenKinds| ==> AllTokenKinds[i] != AllTokenKinds[j]
  {
  }
}
