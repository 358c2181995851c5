/**
 * The Parser class of Parser.cs: a recursive-descent parser that pulls
 * tokens from a Lexer object. Each method is proved to return what the
 * matching function of ParserSpec returns from the lexer state it starts in,
 * and to leave the lexer in the state that function predicts. An exception
 * of the source is an Err result.
 */
module Parsing {
  import opened Wrappers
  import opened Tokens
  import opened Lexing
  import opened Ast
  import opened ParserSpec
  import opened ParserProperties

  /** The method's result `r` and lexer state `now` are what `spec` predicts. */
  ghost predicate Agrees<T>(r: Result<T, Error>, spec: Result<Parsed<T>, Error>, now: LexState) {
    match spec
    case Ok(p) => r == Ok(p.value) && now == p.state
    case Err(e) => r == Err(e)
  }

  /** The same for a step that produces no value. */
  ghost predicate AgreesStep(o: Outcome<Error>, spec: Result<LexState, Error>, now: LexState) {
    match spec
    case Ok(t) => o == Pass && now == t
    case Err(e) => o == Fail(e)
  }

  class Parser {
    const lexer: Lexer

    /** Parser(Lexer) (Parser.cs:21-24). */
    constructor (lexer: Lexer)
      ensures this.lexer == lexer
    {
      this.lexer := lexer;
    }

    /** The lexer holds two tokens and may be driven. */
    ghost predicate Ready()
      reads this, lexer
    {
      lexer.Valid() && Parsable(lexer.State())
    }

    /** The measure of the lexer's state, computed from its fields. */
    function Progress(): nat
      reads lexer
      requires lexer.position <= |lexer.input|
      ensures Progress() == Measure(lexer.State())
    {
      Measure(LexState(lexer.input, lexer.position, lexer.current, lexer.peek))
    }

    /** One `Lexer.NextToken()` call; a call that leaves the lexer frozen is reported as Stalled. */
    method NextToken() returns (o: Outcome<Error>)
      requires Ready() && CurType(lexer.State()) != ENDOFFILE
      modifies lexer
      ensures AgreesStep(o, Advance(old(lexer.State())), lexer.State())
    {
      var before := Progress();
      o := lexer.NextToken();
      if o.Pass? && before <= Progress() {
        o := Fail(Stalled(lexer.position));
      }
    }

    /** ExpectNextToken (Parser.cs:261-268). */
    method ExpectNextToken(t: TokenType) returns (o: Outcome<Error>)
      requires Ready() && t != ENDOFFILE
      modifies lexer
      ensures AgreesStep(o, Expect(old(lexer.State()), t), lexer.State())
    {
      if lexer.peek.value.kind != t {
        return Fail(UnexpectedToken(t, lexer.peek.value.kind));
      }
      o := NextToken();
    }

    /** ParseProgram (Parser.cs:26-41). */
    method ParseProgram() returns (r: Result<InterpreterProgram, Error>)
      requires Ready()
      modifies lexer
      ensures Agrees(r, ProgramAt(old(lexer.State())), lexer.State())
    {
      ghost var s0 := lexer.State();
      var statements: seq<Statement> := [];
      while lexer.current.value.kind != ENDOFFILE
        invariant Ready() && lexer.input == s0.input
        invariant StatementsUntil(lexer.State(), ENDOFFILE, statements) == StatementsUntil(s0, ENDOFFILE, [])
        decreases Measure(lexer.State())
      {
        StatementsStep(lexer.State(), ENDOFFILE, statements);
        var statement :- ParseStatementStep();
        statements := statements + [statement];
      }
      return Ok(InterpreterProgram(statements));
    }

    /** One turn of the statement loops (Parser.cs:32-37, 188-194): a statement, then `Lexer.NextToken()`. */
    method ParseStatementStep() returns (r: Result<Statement, Error>)
      requires Ready()
      modifies lexer
      ensures Agrees(r, StatementStep(old(lexer.State())), lexer.State())
      decreases Measure(lexer.State()), 5
    {
      var statement :- ParseStatement();
      var o := NextToken();
      if o.Fail? { return Err(o.error); }
      return Ok(statement);
    }

    /** ParseStatement (Parser.cs:43-58). */
    method ParseStatement() returns (r: Result<Statement, Error>)
      requires Ready()
      modifies lexer
      ensures Agrees(r, StatementAt(old(lexer.State())), lexer.State())
      decreases Measure(lexer.State()), 4
    {
      var k := lexer.current.value.kind;
      if k == VAR {
        r := ParseVarStatement();
      } else if k == RETURN {
        r := ParseReturnStatement();
      } else if k == IF {
        r := ParseIfElseStatement();
      } else if k == FUNCTION {
        r := ParseFunctionStatement();
      } else {
        r := ParseExpressionStatement();
      }
    }

    /** ParseVarStatement (Parser.cs:60-74). */
    method ParseVarStatement() returns (r: Result<Statement, Error>)
      requires Ready() && CurType(lexer.State()) == VAR
      modifies lexer
      ensures Agrees(r, VarAt(old(lexer.State())), lexer.State())
      decreases Measure(lexer.State()), 3
    {
      var token := lexer.current.value;
      var o := ExpectNextToken(IDENTIFIER);
      if o.Fail? { return Err(o.error); }
      var identifier := Identifier(lexer.current.value);
      o := ExpectNextToken(ASSIGN);
      if o.Fail? { return Err(o.error); }
      o := NextToken();
      if o.Fail? { return Err(o.error); }
      var value :- ParseExpression();
      o := ExpectNextToken(SEMICOLON);
      if o.Fail? { return Err(o.error); }
      return Ok(Var(token, identifier, value));
    }

    /** ParseReturnStatement (Parser.cs:76-85). */
    method ParseReturnStatement() returns (r: Result<Statement, Error>)
      requires Ready() && CurType(lexer.State()) == RETURN
      modifies lexer
      ensures Agrees(r, ReturnAt(old(lexer.State())), lexer.State())
      decreases Measure(lexer.State()), 3
    {
      var token := lexer.current.value;
      var o := NextToken();
      if o.Fail? { return Err(o.error); }
      var value :- ParseExpression();
      o := ExpectNextToken(SEMICOLON);
      if o.Fail? { return Err(o.error); }
      return Ok(Return(token, value));
    }

    /** ParseIfElseStatement (Parser.cs:87-113). */
    method ParseIfElseStatement() returns (r: Result<Statement, Error>)
      requires Ready() && CurType(lexer.State()) == IF
      modifies lexer
      ensures Agrees(r, IfElseAt(old(lexer.State())), lexer.State())
      decreases Measure(lexer.State()), 3
    {
      var token := lexer.current.value;
      var head :- ParseIfHead();
      if lexer.peek.value.kind == ELSE {
        var o := NextToken();
        if o.Fail? { return Err(o.error); }
        o := ExpectNextToken(LEFTBRACE);
        if o.Fail? { return Err(o.error); }
        var elseBlock :- ParseBlockStatement();
        return Ok(IfElse(token, head.0, head.1, Some(elseBlock)));
      }
      return Ok(IfElse(token, head.0, head.1, None));
    }

    /** The condition and the first block of ParseIfElseStatement (Parser.cs:89-100). */
    method ParseIfHead() returns (r: Result<(Option<Expression>, Block), Error>)
      requires Ready() && CurType(lexer.State()) == IF
      modifies lexer
      ensures Agrees(r, IfHeadAt(old(lexer.State())), lexer.State())
      decreases Measure(lexer.State()), 2
    {
      var o := ExpectNextToken(LEFTPAREN);
      if o.Fail? { return Err(o.error); }
      o := NextToken();
      if o.Fail? { return Err(o.error); }
      var condition :- ParseExpression();
      o := ExpectNextToken(RIGHTPAREN);
      if o.Fail? { return Err(o.error); }
      o := ExpectNextToken(LEFTBRACE);
      if o.Fail? { return Err(o.error); }
      var block :- ParseBlockStatement();
      return Ok((condition, block));
    }

    /** ParseFunctionStatement (Parser.cs:115-152), with the parameter loop of lines 125-140. */
    method ParseFunctionStatement() returns (r: Result<Statement, Error>)
      requires Ready() && CurType(lexer.State()) == FUNCTION
      modifies lexer
      ensures Agrees(r, FunctionAt(old(lexer.State())), lexer.State())
      decreases Measure(lexer.State()), 3
    {
      ghost var s0 := lexer.State();
      var token := lexer.current.value;
      var o := NextToken();
      if o.Fail? { return Err(o.error); }
      var functionIdentifier := Identifier(lexer.current.value);
      o := ExpectNextToken(LEFTPAREN);
      if o.Fail? { return Err(o.error); }
      ghost var s2 := lexer.State();
      var parameters: seq<Identifier> := [];
      while lexer.current.value.kind != RIGHTPAREN
        invariant Ready() && lexer.input == s0.input && Measure(lexer.State()) < Measure(s0)
        invariant ParameterListKind(CurType(lexer.State()))
        invariant ParamsFrom(lexer.State(), parameters) == ParamsFrom(s2, [])
        decreases Measure(lexer.State())
      {
        ParametersStep(lexer.State(), parameters);
        o := NextToken();
        if o.Fail? { return Err(o.error); }
        var parameter := Identifier(lexer.current.value);
        parameters := parameters + [parameter];
        if lexer.peek.value.kind != RIGHTPAREN {
          o := ExpectNextToken(COMMA);
        } else {
          o := NextToken();
        }
        if o.Fail? { return Err(o.error); }
      }
      o := ExpectNextToken(LEFTBRACE);
      if o.Fail? { return Err(o.error); }
      var block :- ParseBlockStatement();
      if lexer.peek.value.kind == SEMICOLON {
        o := NextToken();
        if o.Fail? { return Err(o.error); }
      }
      return Ok(Function(token, functionIdentifier, parameters, block));
    }

    /** ParseFunctionCall (Parser.cs:154-158). */
    method ParseFunctionCall(identifier: Identifier) returns (r: Result<Expression, Error>)
      requires Ready() && CurType(lexer.State()) == LEFTPAREN
      modifies lexer
      ensures Agrees(r, CallAt(identifier, old(lexer.State())), lexer.State())
      decreases Measure(lexer.State()), 1
    {
      var token := lexer.current.value;
      var parameters :- ParseFunctionCallParameters();
      return Ok(FunctionCall(token, identifier, parameters));
    }

    /** ParseFunctionCallParameters (Parser.cs:160-178). */
    method ParseFunctionCallParameters() returns (r: Result<seq<Option<Expression>>, Error>)
      requires Ready() && CurType(lexer.State()) == LEFTPAREN
      modifies lexer
      ensures Agrees(r, CallArgsAt(old(lexer.State())), lexer.State())
      decreases Measure(lexer.State()), 0
    {
      ghost var s0 := lexer.State();
      var parameters: seq<Option<Expression>> := [];
      var o := NextToken();
      if o.Fail? { return Err(o.error); }
      ghost var s1 := lexer.State();
      while lexer.current.value.kind != RIGHTPAREN
        invariant Ready() && lexer.input == s0.input && Measure(lexer.State()) < Measure(s0)
        invariant AllRightNested(parameters)
        invariant ArgsFrom(lexer.State(), parameters) == ArgsFrom(s1, [])
        decreases Measure(lexer.State())
      {
        ArgumentsStep(lexer.State(), parameters);
        var parameter :- ParseExpression();
        parameters := parameters + [parameter];
        o := SkipPastArgument();
        if o.Fail? { return Err(o.error); }
      }
      return Ok(parameters);
    }

    /** The `,` check and step that end one turn of the argument loop (Parser.cs:170-174). */
    method SkipPastArgument() returns (o: Outcome<Error>)
      requires Ready()
      modifies lexer
      ensures AgreesStep(o, PastArgument(old(lexer.State())), lexer.State())
    {
      if lexer.peek.value.kind != RIGHTPAREN {
        o := ExpectNextToken(COMMA);
        if o.Fail? { return; }
      }
      o := NextToken();
    }

    /** ParseBlockStatement (Parser.cs:180-198). */
    method ParseBlockStatement() returns (r: Result<Block, Error>)
      requires Ready() && CurType(lexer.State()) == LEFTBRACE
      modifies lexer
      ensures Agrees(r, BlockAt(old(lexer.State())), lexer.State())
      decreases Measure(lexer.State()), 0
    {
      ghost var s0 := lexer.State();
      var statements: seq<Statement> := [];
      var o := NextToken();
      if o.Fail? { return Err(o.error); }
      ghost var s1 := lexer.State();
      while lexer.current.value.kind != RIGHTBRACE
        invariant Ready() && lexer.input == s0.input && Measure(lexer.State()) < Measure(s0)
        invariant StatementsUntil(lexer.State(), RIGHTBRACE, statements) == StatementsUntil(s1, RIGHTBRACE, [])
        decreases Measure(lexer.State())
      {
        StatementsStep(lexer.State(), RIGHTBRACE, statements);
        var statement :- ParseStatementStep();
        statements := statements + [statement];
      }
      return Ok(Block(statements));
    }

    /** ParseExpressionStatement (Parser.cs:200-207). */
    method ParseExpressionStatement() returns (r: Result<Statement, Error>)
      requires Ready()
      modifies lexer
      ensures Agrees(r, ExpressionStatementAt(old(lexer.State())), lexer.State())
      decreases Measure(lexer.State()), 3
    {
      var token := lexer.current.value;
      var value :- ParseExpression();
      var o := ExpectNextToken(SEMICOLON);
      if o.Fail? { return Err(o.error); }
      return Ok(ExpressionStatement(token, value));
    }

    /** ParseExpression (Parser.cs:209-247). */
    method ParseExpression() returns (r: Result<Option<Expression>, Error>)
      requires Ready()
      modifies lexer
      ensures Agrees(r, ExprAt(old(lexer.State())), lexer.State())
      decreases Measure(lexer.State()), 2
    {
      var token := lexer.current.value;
      var leftExpression: Expression;
      match token.kind {
        case IDENTIFIER =>
          var identifier := Identifier(token);
          if lexer.peek.value.kind == LEFTPAREN {
            var o := NextToken();
            if o.Fail? { return Err(o.error); }
            leftExpression :- ParseFunctionCall(identifier);
          } else {
            leftExpression := Ident(identifier);
          }
        case INTEGER =>
          var value :- ParseInt32(token.literal);
          leftExpression := Integer(token, value);
        case TRUE =>
          leftExpression := Bool(token, token.kind == TRUE);
        case FALSE =>
          leftExpression := Bool(token, token.kind == TRUE);
        case _ =>
          return Ok(None);
      }
      if lexer.peek.value.kind in BinaryOperations {
        var binary :- ParseBinaryExpression(leftExpression);
        return Ok(Some(binary));
      }
      return Ok(Some(leftExpression));
    }

    /** ParseBinaryExpression (Parser.cs:249-259). */
    method ParseBinaryExpression(left: Expression) returns (r: Result<Expression, Error>)
      requires Ready() && PeekType(lexer.State()) in BinaryOperations
      requires RightNested(left) && !left.BinaryExpression?
      modifies lexer
      ensures Agrees(r, BinaryAt(left, old(lexer.State())), lexer.State())
      decreases Measure(lexer.State()), 0
    {
      var o := NextToken();
      if o.Fail? { return Err(o.error); }
      var operation := lexer.current.value;
      o := NextToken();
      if o.Fail? { return Err(o.error); }
      var right :- ParseExpression();
      return Ok(BinaryExpression(left, operation.kind, right));
    }
  }
}
