/**
 * The recursive-descent parser of Parser.cs, as functions from a lexer state
 * to what is parsed and the lexer state after it. class Parser (parser.dfy)
 * is the imperative parser and is proved to compute exactly these.
 */
module ParserSpec {
  import opened Wrappers
  import opened Tokens
  import opened Lexing
  import opened Ast

  /** A parsed value and the lexer state the production leaves behind. */
  datatype Parsed<+T> = Parsed(value: T, state: LexState)

  /** A lexer state the parser can work on: both tokens are loaded. */
  predicate Parsable(s: LexState) { Wf(s) && s.cur.Some? && s.peek.Some? }

  function CurToken(s: LexState): Token requires s.cur.Some? { s.cur.value }
  function PeekToken(s: LexState): Token requires s.peek.Some? { s.peek.value }
  function CurType(s: LexState): TokenType requires s.cur.Some? { s.cur.value.kind }
  function PeekType(s: LexState): TokenType requires s.peek.Some? { s.peek.value.kind }

  /** `t` is a parsable state reached from `s` without losing ground. */
  predicate Follows(s: LexState, t: LexState)
    requires Parsable(s)
  {
    Parsable(t) && t.input == s.input && Measure(t) <= Measure(s)
  }

  /** The operator set of Parser.cs:9-19. */
  const BinaryOperations: set<TokenType> :=
    {PLUS, MINUS, SLASH, ASTERISK, EQUALS, DOESNOTEQUAL, GREATERTHAN, LESSTHAN}

  /**
   * One `Lexer.NextToken()` issued by the parser. The step must lower the
   * measure; the only step that does not is a lexer frozen on `!`
   * (NextProgress), which is reported as Stalled.
   */
  function Advance(s: LexState): (r: Result<LexState, Error>)
    requires Parsable(s) && CurType(s) != ENDOFFILE
    ensures r.Ok? ==> Parsable(r.value) && r.value.input == s.input && Measure(r.value) < Measure(s)
    ensures r.Ok? ==> CurToken(r.value) == PeekToken(s)
  {
    var t :- Next(s);
    if Measure(t) < Measure(s) then Ok(t) else Err(Stalled(t.pos))
  }

  /** ExpectNextToken (Parser.cs:261-268): advance one token if the peek token has kind `t`, else fail. */
  function Expect(s: LexState, t: TokenType): (r: Result<LexState, Error>)
    requires Parsable(s) && t != ENDOFFILE
    ensures PeekType(s) != t ==> r == Err(UnexpectedToken(t, PeekType(s)))
    ensures r.Ok? ==> PeekType(s) == t && Parsable(r.value) && r.value.input == s.input
    ensures r.Ok? ==> Measure(r.value) < Measure(s) && CurToken(r.value) == PeekToken(s)
  {
    if PeekType(s) != t then Err(UnexpectedToken(t, PeekType(s))) else Advance(s)
  }

  /** The value of a decimal digit string. */
  function DecimalValue(w: string): nat
    requires AllDigits(w)
  {
    if w == [] then 0 else 10 * DecimalValue(w[..|w| - 1]) + (w[|w| - 1] - '0') as nat
  }

  /** int.Parse on a digit run: its value, or an overflow past 2^31 - 1. */
  function ParseInt32(w: string): (r: Result<int32, Error>)
    requires AllDigits(w)
    ensures r.Ok? <==> DecimalValue(w) <= Int32Max
    ensures r.Ok? ==> r.value as int == DecimalValue(w)
  {
    if DecimalValue(w) <= Int32Max then Ok(DecimalValue(w) as int32) else Err(IntegerOverflow(w))
  }

  /** The token kinds a primary expression starts with. */
  const PrimaryStarts: set<TokenType> := {IDENTIFIER, INTEGER, TRUE, FALSE}

  /**
   * ParseExpression (Parser.cs:209-247): a primary expression, then, if an
   * operator follows, the rest of the input as its right operand. Any other
   * start token yields no expression and consumes nothing.
   */
  function ExprAt(s: LexState): (r: Result<Parsed<Option<Expression>>, Error>)
    requires Parsable(s)
    ensures r.Ok? ==> Follows(s, r.value.state)
    ensures r.Ok? ==> (r.value.value.None? <==> CurType(s) !in PrimaryStarts)
    ensures r.Ok? && r.value.value.None? ==> r.value.state == s
    ensures r.Ok? && r.value.value.Some? ==> RightNested(r.value.value.value)
    decreases Measure(s), 2
  {
    var token := CurToken(s);
    match token.kind
    case IDENTIFIER =>
      if PeekType(s) == LEFTPAREN then
        var s1 :- Advance(s);
        var call :- CallAt(Identifier(token), s1);
        BinaryTailAt(call.value, call.state)
      else
        BinaryTailAt(Ident(Identifier(token)), s)
    case INTEGER =>
      var value :- ParseInt32(token.literal);
      BinaryTailAt(Integer(token, value), s)
    case TRUE => BinaryTailAt(Bool(token, token.kind == TRUE), s)
    case FALSE => BinaryTailAt(Bool(token, token.kind == TRUE), s)
    case _ => Ok(Parsed(None, s))
  }

  /** Parser.cs:241-246: after a primary, an operator in the peek position starts a binary expression. */
  function BinaryTailAt(left: Expression, s: LexState): (r: Result<Parsed<Option<Expression>>, Error>)
    requires Parsable(s) && RightNested(left) && !left.BinaryExpression?
    ensures r.Ok? ==> Follows(s, r.value.state) && r.value.value.Some? && RightNested(r.value.value.value)
    ensures r.Ok? ==> (r.value.value.value.BinaryExpression? <==> PeekType(s) in BinaryOperations)
    decreases Measure(s), 1
  {
    if PeekType(s) in BinaryOperations then
      var binary :- BinaryAt(left, s);
      Ok(Parsed(Some(binary.value), binary.state))
    else
      Ok(Parsed(Some(left), s))
  }

  /**
   * ParseBinaryExpression (Parser.cs:249-259): the operator is the peek
   * token, and the whole remaining expression becomes the right operand.
   */
  function BinaryAt(left: Expression, s: LexState): (r: Result<Parsed<Expression>, Error>)
    requires Parsable(s) && PeekType(s) in BinaryOperations
    requires RightNested(left) && !left.BinaryExpression?
    ensures r.Ok? ==> Follows(s, r.value.state) && RightNested(r.value.value)
    ensures r.Ok? ==> r.value.value.BinaryExpression? && r.value.value.left == left && r.value.value.operation == PeekType(s)
    decreases Measure(s), 0
  {
    var s1 :- Advance(s);
    var operation := CurToken(s1);
    var s2 :- Advance(s1);
    var right :- ExprAt(s2);
    Ok(Parsed(BinaryExpression(left, operation.kind, right.value), right.state))
  }

  /**
   * ParseFunctionCall (Parser.cs:154-158): the call keeps the `(` token,
   * the callee and the argument list.
   */
  function CallAt(callee: Identifier, s: LexState): (r: Result<Parsed<Expression>, Error>)
    requires Parsable(s) && CurType(s) == LEFTPAREN
    ensures r.Ok? ==> Follows(s, r.value.state) && CurType(r.value.state) == RIGHTPAREN
    ensures r.Ok? ==> r.value.value.FunctionCall? && r.value.value.callee == callee && RightNested(r.value.value)
    decreases Measure(s), 1
  {
    var token := CurToken(s);
    var args :- CallArgsAt(s);
    Ok(Parsed(FunctionCall(token, callee, args.value), args.state))
  }

  /** ParseFunctionCallParameters (Parser.cs:160-178): step past `(`, then the argument loop. */
  function CallArgsAt(s: LexState): (r: Result<Parsed<seq<Option<Expression>>>, Error>)
    requires Parsable(s) && CurType(s) == LEFTPAREN
    ensures r.Ok? ==> Follows(s, r.value.state) && CurType(r.value.state) == RIGHTPAREN
    ensures r.Ok? ==> AllRightNested(r.value.value)
    decreases Measure(s), 0
  {
    var s1 :- Advance(s);
    ArgsFrom(s1, [])
  }

  /**
   * The loop of ParseFunctionCallParameters: until the current token is `)`,
   * parse an argument, require a `,` unless `)` follows, and step on.
   */
  function ArgsFrom(s: LexState, acc: seq<Option<Expression>>): (r: Result<Parsed<seq<Option<Expression>>>, Error>)
    requires Parsable(s) && AllRightNested(acc)
    ensures r.Ok? ==> Follows(s, r.value.state) && CurType(r.value.state) == RIGHTPAREN
    ensures r.Ok? ==> AllRightNested(r.value.value)
    decreases Measure(s), 4
  {
    if CurType(s) == RIGHTPAREN then Ok(Parsed(acc, s))
    else
      var argument :- ArgumentAt(s);
      ArgsFrom(argument.state, acc + [argument.value])
  }

  /** One turn of the argument loop (Parser.cs:167-174): an argument, possibly none, then past its `,`. */
  function ArgumentAt(s: LexState): (r: Result<Parsed<Option<Expression>>, Error>)
    requires Parsable(s)
    ensures r.Ok? ==> Follows(s, r.value.state) && Measure(r.value.state) < Measure(s)
    ensures r.Ok? && r.value.value.Some? ==> RightNested(r.value.value.value)
    decreases Measure(s), 3
  {
    var argument :- ExprAt(s);
    var s1 :- PastArgument(argument.state);
    Ok(Parsed(argument.value, s1))
  }

  /**
   * The end of one turn of the argument loop (Parser.cs:170-174): expect a
   * `,` unless `)` follows, then step onto the next token.
   */
  function PastArgument(s: LexState): (r: Result<LexState, Error>)
    requires Parsable(s)
    ensures PeekType(s) != RIGHTPAREN && PeekType(s) != COMMA ==> r == Err(UnexpectedToken(COMMA, PeekType(s)))
    ensures r.Ok? ==> Parsable(r.value) && r.value.input == s.input && Measure(r.value) < Measure(s)
  {
    var s1 :- if PeekType(s) != RIGHTPAREN then Expect(s, COMMA) else Ok(s);
    Advance(s1)
  }

  /** `st` is what the production for kind `k` builds (the dispatch of Parser.cs:43-58). */
  predicate Introduces(k: TokenType, st: Statement) {
    match st
    case Var(_, _, _) => k == VAR
    case Return(_, _) => k == RETURN
    case IfElse(_, _, _, _) => k == IF
    case Function(_, _, _, _) => k == FUNCTION
    case ExpressionStatement(_, _) => k !in {VAR, RETURN, IF, FUNCTION}
  }

  /**
   * ParseStatement (Parser.cs:43-58): dispatch on the current token. Every
   * statement keeps its first token and ends with the current token on its
   * own last `;` or `}`.
   */
  function StatementAt(s: LexState): (r: Result<Parsed<Statement>, Error>)
    requires Parsable(s)
    ensures r.Ok? ==> Follows(s, r.value.state) && CurType(r.value.state) in {SEMICOLON, RIGHTBRACE}
    ensures r.Ok? ==> Introduces(CurType(s), r.value.value) && r.value.value.token == CurToken(s)
    decreases Measure(s), 4
  {
    var k := CurType(s);
    if k == VAR then VarAt(s)
    else if k == RETURN then ReturnAt(s)
    else if k == IF then IfElseAt(s)
    else if k == FUNCTION then FunctionAt(s)
    else ExpressionStatementAt(s)
  }

  /** ParseVarStatement (Parser.cs:60-74): `var` IDENTIFIER `=` expression `;`. */
  function VarAt(s: LexState): (r: Result<Parsed<Statement>, Error>)
    requires Parsable(s) && CurType(s) == VAR
    ensures r.Ok? ==> Follows(s, r.value.state) && CurType(r.value.state) == SEMICOLON
    ensures r.Ok? ==> r.value.value.Var? && r.value.value.token == CurToken(s)
    ensures r.Ok? ==> r.value.value.identifier.token == PeekToken(s) && PeekType(s) == IDENTIFIER
    decreases Measure(s), 3
  {
    var token := CurToken(s);
    var s1 :- Expect(s, IDENTIFIER);
    var identifier := Identifier(CurToken(s1));
    var s2 :- Expect(s1, ASSIGN);
    var s3 :- Advance(s2);
    var value :- ExprAt(s3);
    var s4 :- Expect(value.state, SEMICOLON);
    Ok(Parsed(Var(token, identifier, value.value), s4))
  }

  /** ParseReturnStatement (Parser.cs:76-85): `return` expression `;`. */
  function ReturnAt(s: LexState): (r: Result<Parsed<Statement>, Error>)
    requires Parsable(s) && CurType(s) == RETURN
    ensures r.Ok? ==> Follows(s, r.value.state) && CurType(r.value.state) == SEMICOLON
    ensures r.Ok? ==> r.value.value.Return? && r.value.value.token == CurToken(s)
    decreases Measure(s), 3
  {
    var token := CurToken(s);
    var s1 :- Advance(s);
    var value :- ExprAt(s1);
    var s2 :- Expect(value.state, SEMICOLON);
    Ok(Parsed(Return(token, value.value), s2))
  }

  /**
   * The part of ParseIfElseStatement before the else test (Parser.cs:89-100):
   * `if` `(` condition `)` and the consequence block.
   */
  function IfHeadAt(s: LexState): (r: Result<Parsed<(Option<Expression>, Block)>, Error>)
    requires Parsable(s) && CurType(s) == IF
    ensures r.Ok? ==> Follows(s, r.value.state) && CurType(r.value.state) == RIGHTBRACE
    ensures r.Ok? ==> Measure(r.value.state) < Measure(s)
    decreases Measure(s), 2
  {
    var s1 :- Expect(s, LEFTPAREN);
    var s2 :- Advance(s1);
    var condition :- ExprAt(s2);
    var s3 :- Expect(condition.state, RIGHTPAREN);
    var s4 :- Expect(s3, LEFTBRACE);
    var consequence :- BlockAt(s4);
    Ok(Parsed((condition.value, consequence.value), consequence.state))
  }

  /**
   * ParseIfElseStatement (Parser.cs:87-113): the head, then an else block
   * exactly when ELSE follows the consequence. No `;` is required.
   */
  function IfElseAt(s: LexState): (r: Result<Parsed<Statement>, Error>)
    requires Parsable(s) && CurType(s) == IF
    ensures r.Ok? ==> Follows(s, r.value.state) && CurType(r.value.state) == RIGHTBRACE
    ensures r.Ok? ==> r.value.value.IfElse? && r.value.value.token == CurToken(s)
    decreases Measure(s), 3
  {
    var token := CurToken(s);
    var head :- IfHeadAt(s);
    if PeekType(head.state) == ELSE then
      var s5 :- Advance(head.state);
      var s6 :- Expect(s5, LEFTBRACE);
      var alternative :- BlockAt(s6);
      Ok(Parsed(IfElse(token, head.value.0, head.value.1, Some(alternative.value)), alternative.state))
    else
      Ok(Parsed(IfElse(token, head.value.0, head.value.1, None), head.state))
  }

  /**
   * ParseFunctionStatement (Parser.cs:115-152): the token after `function` is
   * the name, whatever it is; then `(`, the parameters, a block, and an
   * optional `;`, consumed when present.
   */
  function FunctionAt(s: LexState): (r: Result<Parsed<Statement>, Error>)
    requires Parsable(s) && CurType(s) == FUNCTION
    ensures r.Ok? ==> Follows(s, r.value.state) && CurType(r.value.state) in {SEMICOLON, RIGHTBRACE}
    ensures r.Ok? ==> r.value.value.Function? && r.value.value.token == CurToken(s)
    ensures r.Ok? ==> r.value.value.identifier.token == PeekToken(s)
    ensures r.Ok? && CurType(r.value.state) == RIGHTBRACE ==> PeekType(r.value.state) != SEMICOLON
    decreases Measure(s), 3
  {
    var token := CurToken(s);
    var s1 :- Advance(s);
    var identifier := Identifier(CurToken(s1));
    var s2 :- Expect(s1, LEFTPAREN);
    var parameters :- ParamsFrom(s2, []);
    var s3 :- Expect(parameters.state, LEFTBRACE);
    var body :- BlockAt(s3);
    if PeekType(body.state) == SEMICOLON then
      var s4 :- Advance(body.state);
      Ok(Parsed(Function(token, identifier, parameters.value, body.value), s4))
    else
      Ok(Parsed(Function(token, identifier, parameters.value, body.value), body.state))
  }

  /** The kinds the parameter loop stands on: `(` first, `,` between parameters, `)` at the end. */
  predicate ParameterListKind(k: TokenType) {
    k == LEFTPAREN || k == COMMA || k == RIGHTPAREN
  }

  /**
   * The parameter loop of ParseFunctionStatement (Parser.cs:125-140): until
   * the current token is `)`, step on and record the current token as a
   * parameter; then require `,` unless `)` follows, in which case step onto it.
   */
  function ParamsFrom(s: LexState, acc: seq<Identifier>): (r: Result<Parsed<seq<Identifier>>, Error>)
    requires Parsable(s) && ParameterListKind(CurType(s))
    ensures r.Ok? ==> Follows(s, r.value.state) && CurType(r.value.state) == RIGHTPAREN
    decreases Measure(s)
  {
    if CurType(s) == RIGHTPAREN then Ok(Parsed(acc, s))
    else
      var parameter :- ParameterAt(s);
      ParamsFrom(parameter.state, acc + [parameter.value])
  }

  /**
   * One turn of the parameter loop (Parser.cs:128-139): the next token is
   * the parameter; then a `,` is expected unless `)` follows, which is
   * stepped onto instead.
   */
  function ParameterAt(s: LexState): (r: Result<Parsed<Identifier>, Error>)
    requires Parsable(s) && (CurType(s) == LEFTPAREN || CurType(s) == COMMA)
    ensures r.Ok? ==> r.value.value.token == PeekToken(s)
    ensures r.Ok? ==> Follows(s, r.value.state) && Measure(r.value.state) < Measure(s)
    ensures r.Ok? ==> (CurType(r.value.state) == COMMA || CurType(r.value.state) == RIGHTPAREN)
  {
    var s1 :- Advance(s);
    var s2 :- if PeekType(s1) != RIGHTPAREN then Expect(s1, COMMA) else Advance(s1);
    Ok(Parsed(Identifier(CurToken(s1)), s2))
  }

  /** ParseBlockStatement (Parser.cs:180-198): step past `{`, then statements until `}`. */
  function BlockAt(s: LexState): (r: Result<Parsed<Block>, Error>)
    requires Parsable(s) && CurType(s) == LEFTBRACE
    ensures r.Ok? ==> Follows(s, r.value.state) && CurType(r.value.state) == RIGHTBRACE
    decreases Measure(s), 0
  {
    var s1 :- Advance(s);
    var statements :- StatementsUntil(s1, RIGHTBRACE, []);
    Ok(Parsed(Block(statements.value), statements.state))
  }

  /**
   * The statement loop shared by ParseProgram and ParseBlockStatement: until
   * the current token has kind `stop`, parse a statement, keep it, step on.
   */
  function StatementsUntil(s: LexState, stop: TokenType, acc: seq<Statement>): (r: Result<Parsed<seq<Statement>>, Error>)
    requires Parsable(s)
    ensures r.Ok? ==> Follows(s, r.value.state) && CurType(r.value.state) == stop
    decreases Measure(s), 6
  {
    if CurType(s) == stop then Ok(Parsed(acc, s))
    else
      var statement :- StatementStep(s);
      StatementsUntil(statement.state, stop, acc + [statement.value])
  }

  /** One turn of a statement loop (Parser.cs:32-37, 188-194): a statement, then one token more. */
  function StatementStep(s: LexState): (r: Result<Parsed<Statement>, Error>)
    requires Parsable(s)
    ensures r.Ok? ==> Follows(s, r.value.state) && Measure(r.value.state) < Measure(s)
    decreases Measure(s), 5
  {
    var statement :- StatementAt(s);
    var s1 :- Advance(statement.state);
    Ok(Parsed(statement.value, s1))
  }

  /** ParseExpressionStatement (Parser.cs:200-207): an expression, possibly none, then `;`. */
  function ExpressionStatementAt(s: LexState): (r: Result<Parsed<Statement>, Error>)
    requires Parsable(s)
    ensures r.Ok? ==> Follows(s, r.value.state) && CurType(r.value.state) == SEMICOLON
    ensures r.Ok? ==> r.value.value.ExpressionStatement? && r.value.value.token == CurToken(s)
    decreases Measure(s), 3
  {
    var token := CurToken(s);
    var expression :- ExprAt(s);
    var s1 :- Expect(expression.state, SEMICOLON);
    Ok(Parsed(ExpressionStatement(token, expression.value), s1))
  }

  /** ParseProgram (Parser.cs:26-41): statements in source order until ENDOFFILE is current. */
  function ProgramAt(s: LexState): (r: Result<Parsed<InterpreterProgram>, Error>)
    requires Parsable(s)
    ensures r.Ok? ==> Follows(s, r.value.state) && CurType(r.value.state) == ENDOFFILE
  {
    var statements :- StatementsUntil(s, ENDOFFILE, []);
    Ok(Parsed(InterpreterProgram(statements.value), statements.state))
  }
}
