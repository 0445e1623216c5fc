/**
 * The expression tree: four node kinds, each a constructor plus getters over
 * immutable fields, and the two precedence rankings (of binary operators and
 * of tokens).
 */
module Expressions {
  import opened Options
  import opened Tokens

  // ---------------------------------------------------------------------
  // Node kinds
  // ---------------------------------------------------------------------

  datatype BinaryExpressionKind = Addition | Substraction | Multiplication | Division | Modulo

  datatype UnaryExpressionKind = Identity | Negation

  datatype LiteralExpressionKind = Integer | FloatingPoint | Character | String

  /** The tags `get_expression_kind` may report; `Condition` has no node type. */
  datatype ExpressionKind = Binary | Unary | Condition | Literal | Parenthesised

  predicate IsMultiplicative(kind: BinaryExpressionKind) {
    kind.Multiplication? || kind.Division? || kind.Modulo?
  }

  // ---------------------------------------------------------------------
  // The tree
  // ---------------------------------------------------------------------

  /** A node of the tree: exactly one of the four node records. */
  datatype Expression =
    | BinaryNode(binary: BinaryExpression)
    | UnaryNode(unary: UnaryExpression)
    | LiteralNode(literal: LiteralExpression)
    | ParenthesisedNode(parenthesised: ParenthesisedExpression)

  /** A binary node: two operands and an operator. */
  datatype BinaryExpression = BinaryExpression(leftOperand: Expression, rightOperand: Expression, kind: BinaryExpressionKind)

  /** A unary node: one operand and an operator. */
  datatype UnaryExpression = UnaryExpression(operand: Expression, kind: UnaryExpressionKind)

  /** A literal node: one token and the kind of literal it is; no children. */
  datatype LiteralExpression = LiteralExpression(token: Token, kind: LiteralExpressionKind)

  /** A parenthesised node: one child and nothing else, no operator and no kind. */
  datatype ParenthesisedExpression = ParenthesisedExpression(content: Expression)

  /**
   * The tag of a node's variant. The source declares `get_expression_kind`
   * but no node type implements it; mapping each node to its own variant's
   * tag is this model's reading of it.
   */
  function KindOf(e: Expression): (k: ExpressionKind)
    ensures k != Condition
  {
    match e
    case BinaryNode(_) => Binary
    case UnaryNode(_) => Unary
    case LiteralNode(_) => Literal
    case ParenthesisedNode(_) => Parenthesised
  }

  /**
   * The child expressions of a node, left to right. Each is strictly smaller
   * than the node, so the tree has no cycles.
   */
  function Children(e: Expression): (cs: seq<Expression>)
    ensures forall c :: c in cs ==> c < e
  {
    match e
    case BinaryNode(b) => [b.leftOperand, b.rightOperand]
    case UnaryNode(u) => [u.operand]
    case LiteralNode(_) => []
    case ParenthesisedNode(p) => [p.content]
  }

  /** Arity: a binary node has two children, a unary or parenthesised node one, a literal node none. */
  lemma ChildCount(e: Expression)
    ensures |Children(e)| == match KindOf(e)
      case Binary => 2
      case Literal => 0
      case _ => 1
  {
  }

  // ---------------------------------------------------------------------
  // Constructors and getters
  // ---------------------------------------------------------------------

  /** `BinaryExpression::new` followed by the getters gives back the operands and the kind. */
  lemma BinaryNewThenGet(l: Expression, r: Expression, k: BinaryExpressionKind)
    ensures var n := BinaryExpression(l, r, k); n.leftOperand == l && n.rightOperand == r && n.kind == k
  {
  }

  /** `UnaryExpression::new` followed by the getters gives back the operand and the kind. */
  lemma UnaryNewThenGet(operand: Expression, k: UnaryExpressionKind)
    ensures var n := UnaryExpression(operand, k); n.operand == operand && n.kind == k
  {
  }

  /** `LiteralExpression::new` followed by the getters gives back the token and the kind. */
  lemma LiteralNewThenGet(t: Token, k: LiteralExpressionKind)
    ensures var n := LiteralExpression(t, k); n.token == t && n.kind == k
  {
  }

  /** `ParenthesisedExpression::new` followed by the getter gives back the content. */
  lemma ParenthesisedNewThenGet(c: Expression)
    ensures ParenthesisedExpression(c).content == c
  {
  }

  // ---------------------------------------------------------------------
  // Precedence
  // ---------------------------------------------------------------------

  /** The precedence of a binary operator: additive 1, multiplicative 2 (higher binds tighter). */
  function Precedence(kind: BinaryExpressionKind): (p: nat)
    ensures p == 1 || p == 2
  {
    match kind
    case Addition | Substraction => 1
    case Multiplication | Division | Modulo => 2
  }

  /** Every multiplicative operator binds strictly tighter than every additive one, and equal classes tie. */
  lemma MultiplicativeBindsTighter(a: BinaryExpressionKind, b: BinaryExpressionKind)
    ensures Precedence(a) > Precedence(b) <==> IsMultiplicative(a) && !IsMultiplicative(b)
    ensures Precedence(a) == Precedence(b) <==> (IsMultiplicative(a) <==> IsMultiplicative(b))
  {
  }

  /** The rank of a token when it is met in an expression. */
  function ExpressionPrecedence(token: Token): (p: nat)
    ensures p in {0, 8, 9, 11}
  {
    match token.kind
    case PlusOperator | MinusOperator => 8
    case StarOperator | SlashOperator | PercentageOperator => 9
    case OpenParenthesis | CloseParenthesis => 11
    case _ => 0
  }

  /** The binary operator a token spells, if any. */
  function BinaryKindOf(kind: TokenKind): (b: Option<BinaryExpressionKind>)
    ensures b.Some? <==> kind in {PlusOperator, MinusOperator, StarOperator, SlashOperator, PercentageOperator}
  {
    match kind
    case PlusOperator => Some(Addition)
    case MinusOperator => Some(Substraction)
    case StarOperator => Some(Multiplication)
    case SlashOperator => Some(Division)
    case PercentageOperator => Some(Modulo)
    case _ => None
  }

  /**
   * Only operators and parentheses rank above 0; parentheses outrank every
   * operator.
   */
  lemma ExpressionPrecedenceClasses(token: Token)
    ensures ExpressionPrecedence(token) > 0 <==>
      BinaryKindOf(token.kind).Some? || token.kind in {OpenParenthesis, CloseParenthesis}
    ensures BinaryKindOf(token.kind).Some? ==> 0 < ExpressionPrecedence(token) < 11
    ensures token.kind in {OpenParenthesis, CloseParenthesis} ==> ExpressionPrecedence(token) == 11
  {
  }

  /**
   * The token ranking orders operator tokens exactly as the binary operators
   * they spell are ordered by precedence.
   */
  lemma ExpressionPrecedenceAgreesWithPrecedence(a: Token, b: Token)
    requires BinaryKindOf(a.kind).Some? && BinaryKindOf(b.kind).Some?
    ensures ExpressionPrecedence(a) < ExpressionPrecedence(b) <==>
      Precedence(BinaryKindOf(a.kind).value) < Precedence(BinaryKindOf(b.kind).value)
    ensures ExpressionPrecedence(a) == ExpressionPrecedence(b) <==>
      Precedence(BinaryKindOf(a.kind).value) == Precedence(BinaryKindOf(b.kind).value)
    ensures ExpressionPrecedence(a) == 7 + Precedence(BinaryKindOf(a.kind).value)
  {
  }
}
