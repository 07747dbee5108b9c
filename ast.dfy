/**
 * The syntax tree of ast.go: two closed families of nodes, statements and
 * expressions. A node owns its children; there is no sharing.
 */
module Ast {
  import opened Wrappers
  import opened Lexing

  datatype Expression =
    | NumberLiteral(value: int)
    | StringLiteral(text: string)
    | BooleanLiteral(truth: bool)
    | Identifier(name: string)
      // the operator is kept as the lexer's tag, as the source does
    | BinaryExpression(left: Expression, op: TokenKind, right: Expression)

  datatype Statement =
    | Assignment(target: string, value: Expression)
    | PrintStatement(expr: Expression)
      // the then-branch is always a block, the else-branch is an optional one
    | IfStatement(cond: Expression, thenBranch: Block, elseBranch: Option<Block>)
    | WhileStatement(cond: Expression, body: Block)
      // a block is itself a statement, so blocks nest
    | BlockStatement(block: Block)

  datatype Block = Block(statements: seq<Statement>)

  /** An ordered sequence of top-level statements. */
  datatype Program = Program(statements: seq<Statement>)

  /** The ten operator tags a binary expression may carry. */
  predicate IsOperator(k: TokenKind) {
    || k == Plus || k == Minus || k == Multiply || k == Divide
    || k == Eq || k == Neq || k == Lt || k == Gt || k == And || k == Or
  }

  /** Every binary expression in e carries one of the ten operator tags. */
  predicate WellFormedExpr(e: Expression) {
    match e
    case BinaryExpression(l, op, r) => IsOperator(op) && WellFormedExpr(l) && WellFormedExpr(r)
    case _ => true
  }

  predicate WellFormedStmt(s: Statement) {
    match s
    case Assignment(_, e) => WellFormedExpr(e)
    case PrintStatement(e) => WellFormedExpr(e)
    case IfStatement(c, t, el) =>
      WellFormedExpr(c) && WellFormedBlock(t) && (el.Some? ==> WellFormedBlock(el.value))
    case WhileStatement(c, b) => WellFormedExpr(c) && WellFormedBlock(b)
    case BlockStatement(b) => WellFormedBlock(b)
  }

  predicate WellFormedBlock(b: Block) {
    AllWellFormed(b.statements)
  }

  predicate AllWellFormed(ss: seq<Statement>) {
    forall i :: 0 <= i < |ss| ==> WellFormedStmt(ss[i])
  }
}
