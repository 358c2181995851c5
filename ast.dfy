/** The abstract syntax tree (the classes under Ast/): immutable values built once by the parser. */
module Ast {
  import opened Wrappers
  import opened Tokens

  /** C#'s `int`: the type of Integer.Value and IntegerObject.Value. */
  newtype int32 = x: int | -0x8000_0000 <= x < 0x8000_0000

  const Int32Max: int := 0x7FFF_FFFF

  /** Identifier.cs: a token whose literal is the name. */
  datatype Identifier = Identifier(token: Token) {
    function Value(): string { token.literal }
  }

  /**
   * The expression classes. A missing operand or argument (the parser's
   * `null`) is None.
   */
  datatype Expression =
    | Integer(token: Token, value: int32)
    | Bool(token: Token, truth: bool)
    | Ident(id: Identifier)
    | BinaryExpression(left: Expression, operation: TokenType, right: Option<Expression>)
    | FunctionCall(token: Token, callee: Identifier, parameters: seq<Option<Expression>>)

  /** Block.cs: statements in source order. */
  datatype Block = Block(statements: seq<Statement>)

  /** The statement classes; a missing expression is None. */
  datatype Statement =
    | Var(token: Token, identifier: Identifier, value: Option<Expression>)
    | Return(token: Token, value: Option<Expression>)
    | IfElse(token: Token, condition: Option<Expression>, consequence: Block, alternative: Option<Block>)
    | Function(token: Token, identifier: Identifier, parameters: seq<Identifier>, body: Block)
    | ExpressionStatement(token: Token, expression: Option<Expression>)

  /** InterpreterProgram.cs: the top-level statements in source order. */
  datatype InterpreterProgram = InterpreterProgram(statements: seq<Statement>)

  /**
   * The shape the precedence-free parser gives every expression: the left
   * operand of a binary expression is never itself a binary expression, so
   * operator chains nest to the right.
   */
  predicate RightNested(e: Expression) {
    match e
    case BinaryExpression(l, _, r) =>
      !l.BinaryExpression? && RightNested(l) && (r.Some? ==> RightNested(r.value))
    case FunctionCall(_, _, args) =>
      forall i :: 0 <= i < |args| ==> args[i].Some? ==> RightNested(args[i].value)
    case _ => true
  }

  /** Every argument present is right-nested. */
  predicate AllRightNested(args: seq<Option<Expression>>) {
    forall i :: 0 <= i < |args| ==> args[i].Some? ==> RightNested(args[i].value)
  }
}
