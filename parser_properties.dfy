/** What the parser functions of ParserSpec promise about the programs they accept and reject. */
module ParserProperties {
  import opened Wrappers
  import opened Tokens
  import opened Lexing
  import opened Ast
  import opened ParserSpec

  /** `r` with `acc` put in front of the list it parsed. */
  function Prefixed<T>(acc: seq<T>, r: Result<Parsed<seq<T>>, Error>): Result<Parsed<seq<T>>, Error> {
    match r
    case Ok(p) => Ok(Parsed(acc + p.value, p.state))
    case Err(e) => Err(e)
  }

  /** Nothing put in front of an empty list. */
  lemma PrefixedEmpty<T>(acc: seq<T>, s: LexState)
    ensures Prefixed(acc, Ok(Parsed([], s))) == Ok(Parsed(acc, s))
  {
    assert acc + [] == acc;
  }

  /** A parser step stalls only on a lexer frozen on `!`; any other step is Lexer.NextToken itself. */
  lemma AdvanceIsNextToken(s: LexState)
    requires Parsable(s) && CurType(s) != ENDOFFILE
    ensures Advance(s).Err? && Advance(s).error.Stalled? ==> FrozenAt(s.input, s.pos)
    ensures !FrozenAt(s.input, s.pos) ==> Advance(s) == Next(s)
  {
    if Next(s).Ok? {
      NextProgress(s);
    }
  }

  lemma PrefixedTwice<T>(a: seq<T>, b: seq<T>, r: Result<Parsed<seq<T>>, Error>)
    ensures Prefixed(a + b, r) == Prefixed(a, Prefixed(b, r))
  {
    if r.Ok? {
      assert a + b + r.value.value == a + (b + r.value.value);
    }
  }

  /** One more element at the end of the prefix, as the loops add it to an empty list. */
  lemma PrefixedTurn<T>(acc: seq<T>, x: T, r: Result<Parsed<seq<T>>, Error>)
    ensures Prefixed(acc + [x], r) == Prefixed(acc, Prefixed([] + [x], r))
  {
    assert [] + [x] == [x];
    PrefixedTwice(acc, [x], r);
  }

  /** One turn of the statement loop, or where it stops. */
  lemma StatementsStep(s: LexState, stop: TokenType, acc: seq<Statement>)
    requires Parsable(s)
    ensures CurType(s) == stop ==> StatementsUntil(s, stop, acc) == Ok(Parsed(acc, s))
    ensures CurType(s) != stop && StatementStep(s).Err? ==> StatementsUntil(s, stop, acc) == Err(StatementStep(s).error)
    ensures CurType(s) != stop && StatementStep(s).Ok? ==>
      StatementsUntil(s, stop, acc) == StatementsUntil(StatementStep(s).value.state, stop, acc + [StatementStep(s).value.value])
  {
  }

  /** ParseProgram fails with the error of a first statement that fails (Parser.cs:30-32). */
  lemma FirstStatementFails(s: LexState)
    requires Parsable(s) && CurType(s) != ENDOFFILE && StatementAt(s).Err?
    ensures ProgramAt(s) == Err(StatementAt(s).error)
  {
    StatementsStep(s, ENDOFFILE, []);
  }

  /** ParseStatement's dispatch on the current token (Parser.cs:45-57). */
  lemma StatementDispatch(s: LexState)
    requires Parsable(s)
    ensures CurType(s) == VAR ==> StatementAt(s) == VarAt(s)
    ensures CurType(s) == RETURN ==> StatementAt(s) == ReturnAt(s)
    ensures CurType(s) == IF ==> StatementAt(s) == IfElseAt(s)
    ensures CurType(s) == FUNCTION ==> StatementAt(s) == FunctionAt(s)
    ensures CurType(s) !in {VAR, RETURN, IF, FUNCTION} ==> StatementAt(s) == ExpressionStatementAt(s)
  {
  }

  /** A statement loop that meets `stop` right after its next statement ends with that statement. */
  lemma LastStatement(s: LexState, stop: TokenType, acc: seq<Statement>)
    requires Parsable(s) && CurType(s) != stop && StatementStep(s).Ok?
    requires CurType(StatementStep(s).value.state) == stop
    ensures StatementsUntil(s, stop, acc) == Ok(Parsed(acc + [StatementStep(s).value.value], StatementStep(s).value.state))
  {
    StatementsStep(s, stop, acc);
    StatementsStep(StatementStep(s).value.state, stop, acc + [StatementStep(s).value.value]);
  }

  /** A program whose first statement is followed by the end of input holds that statement alone. */
  lemma SingleStatementProgram(s: LexState, statement: Statement, t: LexState)
    requires Parsable(s) && CurType(s) != ENDOFFILE
    requires StatementStep(s) == Ok(Parsed(statement, t)) && t.cur == Some(EndOfFile)
    ensures ProgramAt(s) == Ok(Parsed(InterpreterProgram([statement]), t))
  {
    assert [] + [statement] == [statement];
    LastStatement(s, ENDOFFILE, []);
    assert StatementsUntil(s, ENDOFFILE, []) == Ok(Parsed([statement], t));
  }

  /**
   * ParseProgram and ParseBlockStatement keep the statements in source
   * order: the list so far is a prefix of the result, and the rest is what
   * parsing from the current state alone gives.
   */
  lemma {:induction false} StatementsInOrder(s: LexState, stop: TokenType, acc: seq<Statement>)
    requires Parsable(s)
    ensures StatementsUntil(s, stop, acc) == Prefixed(acc, StatementsUntil(s, stop, []))
    decreases Measure(s)
  {
    StatementsStep(s, stop, acc);
    StatementsStep(s, stop, []);
    if CurType(s) == stop {
      PrefixedEmpty(acc, s);
    } else if StatementStep(s).Ok? {
      var step := StatementStep(s).value;
      var x := step.value;
      StatementsInOrder(step.state, stop, acc + [x]);
      StatementsInOrder(step.state, stop, [] + [x]);
      PrefixedTurn(acc, x, StatementsUntil(step.state, stop, []));
    }
  }

  /** One turn of the argument loop, or where it stops. */
  lemma ArgumentsStep(s: LexState, acc: seq<Option<Expression>>)
    requires Parsable(s) && AllRightNested(acc)
    ensures CurType(s) == RIGHTPAREN ==> ArgsFrom(s, acc) == Ok(Parsed(acc, s))
    ensures CurType(s) != RIGHTPAREN && ArgumentAt(s).Err? ==> ArgsFrom(s, acc) == Err(ArgumentAt(s).error)
    ensures CurType(s) != RIGHTPAREN && ArgumentAt(s).Ok? ==>
      AllRightNested(acc + [ArgumentAt(s).value.value]) &&
      ArgsFrom(s, acc) == ArgsFrom(ArgumentAt(s).value.state, acc + [ArgumentAt(s).value.value])
  {
  }

  /** ParseFunctionCallParameters keeps the arguments in source order. */
  lemma {:induction false} ArgumentsInOrder(s: LexState, acc: seq<Option<Expression>>)
    requires Parsable(s) && AllRightNested(acc)
    ensures ArgsFrom(s, acc) == Prefixed(acc, ArgsFrom(s, []))
    decreases Measure(s)
  {
    ArgumentsStep(s, acc);
    ArgumentsStep(s, []);
    if CurType(s) == RIGHTPAREN {
      PrefixedEmpty(acc, s);
    } else if ArgumentAt(s).Ok? {
      var argument := ArgumentAt(s).value;
      var x := argument.value;
      ArgumentsInOrder(argument.state, acc + [x]);
      ArgumentsInOrder(argument.state, [] + [x]);
      PrefixedTurn(acc, x, ArgsFrom(argument.state, []));
    }
  }

  /** One turn of the parameter loop, or where it stops. */
  lemma ParametersStep(s: LexState, acc: seq<Identifier>)
    requires Parsable(s) && ParameterListKind(CurType(s))
    ensures CurType(s) == RIGHTPAREN ==> ParamsFrom(s, acc) == Ok(Parsed(acc, s))
    ensures CurType(s) != RIGHTPAREN && ParameterAt(s).Err? ==> ParamsFrom(s, acc) == Err(ParameterAt(s).error)
    ensures CurType(s) != RIGHTPAREN && ParameterAt(s).Ok? ==>
      ParamsFrom(s, acc) == ParamsFrom(ParameterAt(s).value.state, acc + [ParameterAt(s).value.value])
  {
  }

  /** The parameter loop of ParseFunctionStatement keeps the parameters in source order. */
  lemma {:induction false} ParametersInOrder(s: LexState, acc: seq<Identifier>)
    requires Parsable(s) && ParameterListKind(CurType(s))
    ensures ParamsFrom(s, acc) == Prefixed(acc, ParamsFrom(s, []))
    decreases Measure(s)
  {
    ParametersStep(s, acc);
    ParametersStep(s, []);
    if CurType(s) == RIGHTPAREN {
      PrefixedEmpty(acc, s);
    } else if ParameterAt(s).Ok? {
      var parameter := ParameterAt(s).value;
      var x := parameter.value;
      ParametersInOrder(parameter.state, acc + [x]);
      ParametersInOrder(parameter.state, [] + [x]);
      PrefixedTurn(acc, x, ParamsFrom(parameter.state, []));
    }
  }

  /**
   * Primary expressions (Parser.cs:216-236) not followed by an operator:
   * an integer literal becomes its 32-bit value, or fails when int.Parse
   * overflows; true and false become Bool; an identifier not followed by `(`
   * becomes an Identifier. None of them moves the lexer.
   */
  lemma PrimaryExpressions(s: LexState)
    requires Parsable(s) && PeekType(s) !in BinaryOperations
    ensures CurType(s) == INTEGER && DecimalValue(CurToken(s).literal) <= Int32Max ==>
      ExprAt(s) == Ok(Parsed(Some(Integer(CurToken(s), DecimalValue(CurToken(s).literal) as int32)), s))
    ensures CurType(s) in {TRUE, FALSE} ==>
      ExprAt(s) == Ok(Parsed(Some(Bool(CurToken(s), CurType(s) == TRUE)), s))
    ensures CurType(s) == IDENTIFIER && PeekType(s) != LEFTPAREN ==>
      ExprAt(s) == Ok(Parsed(Some(Ident(Identifier(CurToken(s)))), s))
  {
  }

  /** int.Parse throws on a literal beyond 2^31 - 1, whatever follows it. */
  lemma IntegerOverflowFails(s: LexState)
    requires Parsable(s) && CurType(s) == INTEGER
    ensures DecimalValue(CurToken(s).literal) > Int32Max ==> ExprAt(s) == Err(IntegerOverflow(CurToken(s).literal))
  {
  }

  /**
   * After a primary, an operator in the peek position makes a binary
   * expression whose left operand is that primary, whose operation is that
   * operator, and whose right operand is the expression two tokens on.
   */
  lemma OperatorTakesRestAsRightOperand(s: LexState)
    requires Parsable(s) && CurType(s) in {INTEGER, TRUE, FALSE, IDENTIFIER}
    requires PeekType(s) in BinaryOperations
    requires ExprAt(s).Ok?
    ensures var e := ExprAt(s).value.value;
      && e.Some? && e.value.BinaryExpression? && e.value.operation == PeekType(s)
      && Advance(s).Ok? && Advance(Advance(s).value).Ok?
      && ExprAt(Advance(Advance(s).value).value).Ok?
      && e.value.right == ExprAt(Advance(Advance(s).value).value).value.value
  {
    var t := CurToken(s);
    if t.kind == IDENTIFIER {
      IdentifierExpression(s);
      BinaryRightOperand(Ident(Identifier(t)), s);
    } else if t.kind == INTEGER {
      var value := ParseInt32(t.literal).value;
      assert ExprAt(s) == BinaryTailAt(Integer(t, value), s);
      BinaryRightOperand(Integer(t, value), s);
    } else {
      assert ExprAt(s) == BinaryTailAt(Bool(t, t.kind == TRUE), s);
      BinaryRightOperand(Bool(t, t.kind == TRUE), s);
    }
  }

  /** An integer literal within range starts the expression it heads (Parser.cs:230-232). */
  lemma IntegerExpression(s: LexState)
    requires Parsable(s) && CurType(s) == INTEGER && DecimalValue(CurToken(s).literal) <= Int32Max
    ensures ExprAt(s) == BinaryTailAt(Integer(CurToken(s), DecimalValue(CurToken(s).literal) as int32), s)
  {
  }

  /** An identifier not followed by `(` is a primary expression (Parser.cs:216-229). */
  lemma IdentifierExpression(s: LexState)
    requires Parsable(s) && CurType(s) == IDENTIFIER && PeekType(s) in BinaryOperations
    ensures ExprAt(s) == BinaryTailAt(Ident(Identifier(CurToken(s))), s)
  {
    NotAnOpeningParen(PeekType(s));
  }

  lemma NotAnOpeningParen(kind: TokenType)
    requires kind in BinaryOperations
    ensures kind != LEFTPAREN
  {
  }

  /**
   * An identifier followed by `(` is a call with that identifier as callee,
   * and the call is the left operand of whatever follows it (Parser.cs:216-223).
   */
  lemma CallExpression(s: LexState)
    requires Parsable(s) && CurType(s) == IDENTIFIER && PeekType(s) == LEFTPAREN
    ensures Advance(s).Err? ==> ExprAt(s) == Err(Advance(s).error)
    ensures Advance(s).Ok? && CallAt(Identifier(CurToken(s)), Advance(s).value).Err? ==>
      ExprAt(s) == Err(CallAt(Identifier(CurToken(s)), Advance(s).value).error)
    ensures Advance(s).Ok? && CallAt(Identifier(CurToken(s)), Advance(s).value).Ok? ==>
      var call := CallAt(Identifier(CurToken(s)), Advance(s).value).value;
      ExprAt(s) == BinaryTailAt(call.value, call.state)
  {
  }

  /** The right operand of ParseBinaryExpression is the expression two tokens on. */
  lemma BinaryRightOperand(left: Expression, s: LexState)
    requires Parsable(s) && PeekType(s) in BinaryOperations
    requires RightNested(left) && !left.BinaryExpression?
    requires BinaryAt(left, s).Ok?
    ensures Advance(s).Ok? && Advance(Advance(s).value).Ok? && ExprAt(Advance(Advance(s).value).value).Ok?
    ensures BinaryAt(left, s).value.value.right == ExprAt(Advance(Advance(s).value).value).value.value
  {
  }

  /** `f()` has zero arguments (Parser.cs:163-165). */
  lemma EmptyArgumentList(s: LexState)
    requires Parsable(s) && CurType(s) == LEFTPAREN && PeekType(s) == RIGHTPAREN
    ensures CallArgsAt(s).Ok? <==> Advance(s).Ok?
    ensures CallArgsAt(s).Ok? ==> CallArgsAt(s).value == Parsed([], Advance(s).value)
  {
  }

  /**
   * A function declaration with an empty parameter list (Parser.cs:126-135):
   * the loop steps onto `)` and records it as the first parameter; the
   * declaration then fails on the missing comma unless `,` or `)` follows.
   */
  lemma EmptyParameterList(s: LexState, acc: seq<Identifier>)
    requires Parsable(s) && CurType(s) == LEFTPAREN && PeekType(s) == RIGHTPAREN
    ensures ParamsFrom(s, acc).Ok? ==>
      |ParamsFrom(s, acc).value.value| > |acc| && ParamsFrom(s, acc).value.value[|acc|] == Identifier(PeekToken(s))
    ensures Advance(s).Ok? && PeekType(Advance(s).value) !in {COMMA, RIGHTPAREN} ==>
      ParamsFrom(s, acc) == Err(UnexpectedToken(COMMA, PeekType(Advance(s).value)))
  {
    ParametersStep(s, acc);
    var parameter := ParameterAt(s);
    if parameter.Ok? {
      ParametersInOrder(parameter.value.state, acc + [parameter.value.value]);
    }
  }

  /**
   * `function (x, y) {...}`: the token after `function` is taken as the
   * name, so `(` is the name and the declaration then fails expecting `(`
   * (Parser.cs:117-123).
   */
  lemma AnonymousFunctionRejected(s: LexState)
    requires Parsable(s) && CurType(s) == FUNCTION && PeekType(s) == LEFTPAREN
    ensures Advance(s).Ok? && PeekType(Advance(s).value) != LEFTPAREN ==>
      FunctionAt(s) == Err(UnexpectedToken(LEFTPAREN, PeekType(Advance(s).value)))
  {
  }

  /**
   * An expression statement (Parser.cs:200-207) is its expression and the
   * `;` right after it: without that `;` it fails naming the token found
   * there; with it, the statement ends on the `;`, unless that step stalls.
   */
  lemma ExpressionStatementNeedsSemicolon(s: LexState)
    requires Parsable(s) && CurType(s) !in {VAR, RETURN, IF, FUNCTION} && ExprAt(s).Ok?
    ensures var e := ExprAt(s).value;
      PeekType(e.state) != SEMICOLON ==> StatementAt(s) == Err(UnexpectedToken(SEMICOLON, PeekType(e.state)))
    ensures var e := ExprAt(s).value;
      PeekType(e.state) == SEMICOLON && Advance(e.state).Ok? ==>
        StatementAt(s) == Ok(Parsed(ExpressionStatement(CurToken(s), e.value), Advance(e.state).value))
    ensures var e := ExprAt(s).value;
      PeekType(e.state) == SEMICOLON && Advance(e.state).Err? ==> StatementAt(s) == Err(Advance(e.state).error)
  {
  }

  /** A return statement without its `;` fails the same way. */
  lemma ReturnNeedsSemicolon(s: LexState)
    requires Parsable(s) && CurType(s) == RETURN
    requires Advance(s).Ok? && ExprAt(Advance(s).value).Ok?
    requires PeekType(ExprAt(Advance(s).value).value.state) != SEMICOLON
    ensures StatementAt(s) == Err(UnexpectedToken(SEMICOLON, PeekType(ExprAt(Advance(s).value).value.state)))
  {
  }

  /** A var statement without its `;` fails the same way (Parser.cs:60-74). */
  lemma VarNeedsSemicolon(s: LexState, s2: LexState, value: Parsed<Option<Expression>>)
    requires Parsable(s) && CurType(s) == VAR
    requires Expect(s, IDENTIFIER).Ok? && Expect(Expect(s, IDENTIFIER).value, ASSIGN) == Ok(s2)
    requires Advance(s2).Ok? && ExprAt(Advance(s2).value) == Ok(value)
    requires PeekType(value.state) != SEMICOLON
    ensures StatementAt(s) == Err(UnexpectedToken(SEMICOLON, PeekType(value.state)))
  {
  }

  /** `if` must be followed by `(` (Parser.cs:91). */
  lemma IfNeedsOpeningParenthesis(s: LexState)
    requires Parsable(s) && CurType(s) == IF && PeekType(s) != LEFTPAREN
    ensures StatementAt(s) == Err(UnexpectedToken(LEFTPAREN, PeekType(s)))
  {
    assert IfHeadAt(s) == Err(UnexpectedToken(LEFTPAREN, PeekType(s)));
    assert IfElseAt(s) == Err(UnexpectedToken(LEFTPAREN, PeekType(s)));
    StatementDispatch(s);
  }

  /** The condition of an if statement must be followed by `)` and then `{` (Parser.cs:94-98). */
  lemma IfNeedsClosingParenthesis(s: LexState, s2: LexState, condition: Parsed<Option<Expression>>)
    requires Parsable(s) && CurType(s) == IF
    requires Expect(s, LEFTPAREN).Ok? && Advance(Expect(s, LEFTPAREN).value) == Ok(s2)
    requires ExprAt(s2) == Ok(condition)
    ensures PeekType(condition.state) != RIGHTPAREN ==>
      StatementAt(s) == Err(UnexpectedToken(RIGHTPAREN, PeekType(condition.state)))
    ensures Expect(condition.state, RIGHTPAREN).Ok? && PeekType(Expect(condition.state, RIGHTPAREN).value) != LEFTBRACE ==>
      StatementAt(s) == Err(UnexpectedToken(LEFTBRACE, PeekType(Expect(condition.state, RIGHTPAREN).value)))
  {
    StatementDispatch(s);
    var head := IfHeadAt(s);
    if PeekType(condition.state) != RIGHTPAREN {
      assert head == Err(UnexpectedToken(RIGHTPAREN, PeekType(condition.state)));
      assert IfElseAt(s) == Err(head.error);
    } else if Expect(condition.state, RIGHTPAREN).Ok? {
      var s3 := Expect(condition.state, RIGHTPAREN).value;
      if PeekType(s3) != LEFTBRACE {
        assert head == Err(UnexpectedToken(LEFTBRACE, PeekType(s3)));
        assert IfElseAt(s) == Err(head.error);
      }
    }
  }

  /**
   * An if statement has an else block exactly when ELSE follows the
   * consequence's `}`; without one it ends on that `}`.
   */
  lemma ElseExactlyWhenElseFollows(s: LexState)
    requires Parsable(s) && CurType(s) == IF && IfElseAt(s).Ok?
    ensures IfHeadAt(s).Ok?
    ensures IfElseAt(s).value.value.condition == IfHeadAt(s).value.value.0
    ensures IfElseAt(s).value.value.consequence == IfHeadAt(s).value.value.1
    ensures IfElseAt(s).value.value.alternative.Some? <==> PeekType(IfHeadAt(s).value.state) == ELSE
    ensures IfElseAt(s).value.value.alternative.None? ==> IfElseAt(s).value.state == IfHeadAt(s).value.state
  {
    var head := IfHeadAt(s);
    if head.Ok? {
      var h := head.value;
      if PeekType(h.state) != ELSE {
        assert IfElseAt(s) == Ok(Parsed(IfElse(CurToken(s), h.value.0, h.value.1, None), h.state));
      } else {
        var alternative := BlockAt(Expect(Advance(h.state).value, LEFTBRACE).value).value;
        assert IfElseAt(s) == Ok(Parsed(IfElse(CurToken(s), h.value.0, h.value.1, Some(alternative.value)), alternative.state));
      }
    }
  }

  /**
   * Once its parts have parsed, a function declaration is the keyword, the
   * name (the token after `function`), the parameters and the body; with no
   * `;` after the body, it ends on the body's `}`.
   */
  lemma FunctionEndsOnBody(s: LexState, s1: LexState, s2: LexState, parameters: Parsed<seq<Identifier>>, s3: LexState, body: Parsed<Block>)
    requires Parsable(s) && CurType(s) == FUNCTION
    requires Advance(s) == Ok(s1) && Expect(s1, LEFTPAREN) == Ok(s2)
    requires ParamsFrom(s2, []) == Ok(parameters) && Expect(parameters.state, LEFTBRACE) == Ok(s3)
    requires BlockAt(s3) == Ok(body) && PeekType(body.state) != SEMICOLON
    ensures FunctionAt(s) == Ok(Parsed(Function(CurToken(s), Identifier(PeekToken(s)), parameters.value, body.value), body.state))
  {
  }

  /**
   * The same declaration with a `;` after its body: the step onto that `;`
   * is taken, so the declaration ends on the `;` (never on a `}` with a `;`
   * after it), or fails with that step's error.
   */
  lemma FunctionConsumesSemicolon(s: LexState, s1: LexState, s2: LexState, parameters: Parsed<seq<Identifier>>, s3: LexState, body: Parsed<Block>)
    requires Parsable(s) && CurType(s) == FUNCTION
    requires Advance(s) == Ok(s1) && Expect(s1, LEFTPAREN) == Ok(s2)
    requires ParamsFrom(s2, []) == Ok(parameters) && Expect(parameters.state, LEFTBRACE) == Ok(s3)
    requires BlockAt(s3) == Ok(body) && PeekType(body.state) == SEMICOLON
    ensures Advance(body.state).Err? ==> FunctionAt(s) == Err(Advance(body.state).error)
    ensures Advance(body.state).Ok? ==>
      CurType(Advance(body.state).value) == SEMICOLON &&
      FunctionAt(s) == Ok(Parsed(Function(CurToken(s), Identifier(PeekToken(s)), parameters.value, body.value), Advance(body.state).value))
  {
  }
}
