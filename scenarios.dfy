/**
 * Whole source texts taken through lexing, parsing and evaluation: the
 * behaviour the repository's tests exercise, as this code computes it.
 * Each text is described character by character, taken one token at a
 * time, and its productions come from the general lemmas of
 * ParserProperties; the lemmas about the literal texts instantiate them.
 */
module Scenarios {
  import opened Wrappers
  import opened Tokens
  import opened Lexing
  import opened Ast
  import opened ParserSpec
  import opened ParserProperties
  import opened Evaluation
  import opened Interpreter

  const Five := Token(INTEGER, "5")
  const Three := Token(INTEGER, "3")
  const Semicolon := Token(SEMICOLON, ";")
  const Plus := Token(PLUS, "+")
  const FunctionKeyword := Token(FUNCTION, "function")
  const OpenParen := Token(LEFTPAREN, "(")

  // ----- "5;"

  /** The text "5;". */
  predicate FiveText(input: string) {
    FiveSemicolonText(input) && |input| == 2
  }

  /** The statement "5;" parses to. */
  function FiveStatementTree(): Statement {
    ExpressionStatement(Five, Some(Integer(Five, 5)))
  }

  /** The text starts "5;". */
  predicate FiveSemicolonText(input: string) {
    |input| >= 2 && input[0] == '5' && input[1] == ';'
  }

  /** The first NextToken over a text that starts "5;". */
  lemma LexFiveFirst(input: string)
    requires FiveSemicolonText(input)
    ensures Next(Initial(input)) == Ok(LexState(input, 1, None, Some(Five)))
  {
    RunEndUnique(input, 0, WhiteSpace, 0);
    RunEndUnique(input, 0, Digits, 1);
    assert input[0..1] == "5";
    assert ScanToken(input, 0) == Produced(Five, 1);
  }

  /** The second NextToken over it: `;`. */
  lemma LexFiveSecond(input: string)
    requires FiveSemicolonText(input)
    ensures Next(LexState(input, 1, None, Some(Five))) == Ok(LexState(input, 2, Some(Five), Some(Semicolon)))
  {
    RunEndUnique(input, 1, WhiteSpace, 1);
    assert ScanToken(input, 1) == Produced(Semicolon, 2);
  }

  /** The two tokens a Lexer over a text that starts "5;" starts with. */
  lemma LexFive(input: string)
    requires FiveSemicolonText(input)
    ensures Start(input) == Ok(LexState(input, 2, Some(Five), Some(Semicolon)))
  {
    LexFiveFirst(input);
    LexFiveSecond(input);
  }

  /** The parser's steps over "5;" past its last token. */
  lemma FiveSteps(input: string)
    requires FiveText(input)
    ensures Advance(LexState(input, 2, Some(Five), Some(Semicolon))) ==
      Ok(LexState(input, 2, Some(Semicolon), Some(EndOfFile)))
    ensures Advance(LexState(input, 2, Some(Semicolon), Some(EndOfFile))) ==
      Ok(LexState(input, 2, Some(EndOfFile), Some(EndOfFile)))
  {
    RunEndUnique(input, 2, WhiteSpace, 2);
    EndOfInput(LexState(input, 2, Some(Five), Some(Semicolon)));
  }

  /** The integer 5, followed by `;`. */
  lemma FiveValue(input: string)
    requires FiveText(input)
    ensures ExprAt(LexState(input, 2, Some(Five), Some(Semicolon))) ==
      Ok(Parsed(Some(Integer(Five, 5)), LexState(input, 2, Some(Five), Some(Semicolon))))
  {
    assert DecimalValue("5") == 5;
    PrimaryExpressions(LexState(input, 2, Some(Five), Some(Semicolon)));
  }

  /** The statement "5;", followed by the step onto the end of input. */
  lemma FiveStatement(input: string)
    requires FiveText(input)
    ensures StatementStep(LexState(input, 2, Some(Five), Some(Semicolon))) ==
      Ok(Parsed(FiveStatementTree(), LexState(input, 2, Some(EndOfFile), Some(EndOfFile))))
  {
    var s := LexState(input, 2, Some(Five), Some(Semicolon));
    assert Parsable(s);
    FiveSteps(input);
    FiveValue(input);
    StatementDispatch(s);
    assert ExpressionStatementAt(s) == Ok(Parsed(FiveStatementTree(), LexState(input, 2, Some(Semicolon), Some(EndOfFile))));
  }

  /** Any text "5;" parses to one expression statement holding the integer 5. */
  lemma FiveParses(input: string)
    requires FiveText(input)
    ensures ParseSource(input) == Ok(InterpreterProgram([FiveStatementTree()]))
  {
    var s := LexState(input, 2, Some(Five), Some(Semicolon));
    LexFive(input);
    assert Parsable(s);
    FiveStatement(input);
    SingleStatementProgram(s, FiveStatementTree(), LexState(input, 2, Some(EndOfFile), Some(EndOfFile)));
  }

  /** "5;" parses to one expression statement holding the integer 5. */
  lemma ParseFive()
    ensures ParseSource("5;") == Ok(InterpreterProgram([FiveStatementTree()]))
  {
    FiveParses("5;");
  }

  /** The statement of "5;" evaluates to the integer object 5. */
  lemma FiveEvaluates()
    ensures EvaluateAll([FiveStatementTree()]) == Ok(Some(IntegerObject(5)))
  {
    assert [FiveStatementTree()][..0] == [];
  }

  /** "5;" evaluates to the integer object 5 (EvaluatorTests.cs:8). */
  lemma IntegerStatementEvaluates()
    ensures Run("5;") == Ok(Some(IntegerObject(5)))
  {
    ParseFive();
    FiveEvaluates();
  }

  // ----- "var x = 5"

  /** The text "var x = 5". */
  predicate VarText(input: string) {
    && |input| == 9
    && input[0] == 'v' && input[1] == 'a' && input[2] == 'r' && input[3] == ' '
    && input[4] == 'x' && input[5] == ' ' && input[6] == '=' && input[7] == ' ' && input[8] == '5'
  }

  /** The first NextToken over "var x = 5". */
  lemma LexVarFirst(input: string)
    requires VarText(input)
    ensures Next(Initial(input)) == Ok(LexState(input, 3, None, Some(Token(VAR, "var"))))
  {
    RunEndUnique(input, 0, WhiteSpace, 0);
    RunEndUnique(input, 0, LettersOrDigits, 3);
    assert input[0..3] == "var";
    assert ScanToken(input, 0) == Produced(Token(VAR, "var"), 3);
  }

  /** The second NextToken over "var x = 5". */
  lemma LexVarSecond(input: string)
    requires VarText(input)
    ensures Next(LexState(input, 3, None, Some(Token(VAR, "var")))) ==
      Ok(LexState(input, 5, Some(Token(VAR, "var")), Some(Token(IDENTIFIER, "x"))))
  {
    RunEndUnique(input, 3, WhiteSpace, 4);
    RunEndUnique(input, 4, LettersOrDigits, 5);
    assert input[4..5] == "x";
    assert ScanToken(input, 4) == Produced(Token(IDENTIFIER, "x"), 5);
  }

  /** The NextToken that brings in `=`. */
  lemma LexVarAssign(input: string)
    requires VarText(input)
    ensures Next(LexState(input, 5, Some(Token(VAR, "var")), Some(Token(IDENTIFIER, "x")))) ==
      Ok(LexState(input, 7, Some(Token(IDENTIFIER, "x")), Some(Token(ASSIGN, "="))))
  {
    RunEndUnique(input, 5, WhiteSpace, 6);
    assert ScanToken(input, 6) == Produced(Token(ASSIGN, "="), 7);
  }

  /** The NextToken that brings in `5`. */
  lemma LexVarValue(input: string)
    requires VarText(input)
    ensures Next(LexState(input, 7, Some(Token(IDENTIFIER, "x")), Some(Token(ASSIGN, "=")))) ==
      Ok(LexState(input, 9, Some(Token(ASSIGN, "=")), Some(Five)))
  {
    RunEndUnique(input, 7, WhiteSpace, 8);
    RunEndUnique(input, 8, Digits, 9);
    assert input[8..9] == "5";
    assert ScanToken(input, 8) == Produced(Five, 9);
  }

  /** The parser's three steps over "var x = 5": onto `x`, onto `=`, onto `5`. */
  lemma VarSteps(input: string)
    requires VarText(input)
    ensures Expect(LexState(input, 5, Some(Token(VAR, "var")), Some(Token(IDENTIFIER, "x"))), IDENTIFIER) ==
      Ok(LexState(input, 7, Some(Token(IDENTIFIER, "x")), Some(Token(ASSIGN, "="))))
    ensures Expect(LexState(input, 7, Some(Token(IDENTIFIER, "x")), Some(Token(ASSIGN, "="))), ASSIGN) ==
      Ok(LexState(input, 9, Some(Token(ASSIGN, "=")), Some(Five)))
    ensures Advance(LexState(input, 9, Some(Token(ASSIGN, "=")), Some(Five))) ==
      Ok(LexState(input, 9, Some(Five), Some(EndOfFile)))
  {
    LexVarAssign(input);
    LexVarValue(input);
    RunEndUnique(input, 9, WhiteSpace, 9);
    EndOfInput(LexState(input, 9, Some(Token(ASSIGN, "=")), Some(Five)));
  }

  /** The value 5, followed by the end of input. */
  lemma VarValue(input: string)
    requires VarText(input)
    ensures ExprAt(LexState(input, 9, Some(Five), Some(EndOfFile))) ==
      Ok(Parsed(Some(Integer(Five, 5)), LexState(input, 9, Some(Five), Some(EndOfFile))))
  {
    assert DecimalValue("5") == 5;
    PrimaryExpressions(LexState(input, 9, Some(Five), Some(EndOfFile)));
  }

  /** The var statement reaches the end of input where its `;` should be. */
  lemma VarStatementFails(input: string)
    requires VarText(input)
    ensures VarAt(LexState(input, 5, Some(Token(VAR, "var")), Some(Token(IDENTIFIER, "x")))) ==
      Err(UnexpectedToken(SEMICOLON, ENDOFFILE))
  {
    var v9e := LexState(input, 9, Some(Five), Some(EndOfFile));
    VarSteps(input);
    VarValue(input);
    assert Expect(v9e, SEMICOLON) == Err(UnexpectedToken(SEMICOLON, ENDOFFILE));
  }

  /** The program loop stops on that error. */
  lemma VarProgramFails(input: string)
    requires VarText(input)
    ensures ProgramAt(LexState(input, 5, Some(Token(VAR, "var")), Some(Token(IDENTIFIER, "x")))) ==
      Err(UnexpectedToken(SEMICOLON, ENDOFFILE))
  {
    var v5 := LexState(input, 5, Some(Token(VAR, "var")), Some(Token(IDENTIFIER, "x")));
    assert Parsable(v5);
    StatementDispatch(v5);
    VarStatementFails(input);
    FirstStatementFails(v5);
  }

  /** Any text "var x = 5" has no closing `;`, so parsing fails on the end of input. */
  lemma VarFails(input: string)
    requires VarText(input)
    ensures ParseSource(input) == Err(UnexpectedToken(SEMICOLON, ENDOFFILE))
  {
    LexVarFirst(input);
    LexVarSecond(input);
    VarProgramFails(input);
  }

  /** "var x = 5" has no closing `;`, so parsing fails on the end of input (ParserTests.cs:8). */
  lemma VarWithoutSemicolonFails()
    ensures ParseSource("var x = 5") == Err(UnexpectedToken(SEMICOLON, ENDOFFILE))
  {
    VarFails("var x = 5");
  }

  // ----- "5 + 3;"

  /** The text "5 + 3;". */
  predicate AdditionText(input: string) {
    && |input| == 6
    && input[0] == '5' && input[1] == ' ' && input[2] == '+' && input[3] == ' ' && input[4] == '3' && input[5] == ';'
  }

  /** The expression 5 PLUS 3. */
  function AdditionTree(): Expression {
    BinaryExpression(Integer(Five, 5), PLUS, Some(Integer(Three, 3)))
  }

  /** The statement "5 + 3;" parses to. */
  function AdditionStatementTree(): Statement {
    ExpressionStatement(Five, Some(AdditionTree()))
  }

  /** The first NextToken over "5 + 3;". */
  lemma LexAdditionFirst(input: string)
    requires AdditionText(input)
    ensures Next(Initial(input)) == Ok(LexState(input, 1, None, Some(Five)))
  {
    RunEndUnique(input, 0, WhiteSpace, 0);
    RunEndUnique(input, 0, Digits, 1);
    assert input[0..1] == "5";
    assert ScanToken(input, 0) == Produced(Five, 1);
  }

  /** The second NextToken over "5 + 3;": `+`. */
  lemma LexAdditionSecond(input: string)
    requires AdditionText(input)
    ensures Next(LexState(input, 1, None, Some(Five))) == Ok(LexState(input, 3, Some(Five), Some(Plus)))
  {
    RunEndUnique(input, 1, WhiteSpace, 2);
    assert ScanToken(input, 2) == Produced(Plus, 3);
  }

  /** The NextToken that brings in `3`. */
  lemma LexAdditionThird(input: string)
    requires AdditionText(input)
    ensures Next(LexState(input, 3, Some(Five), Some(Plus))) == Ok(LexState(input, 5, Some(Plus), Some(Three)))
  {
    RunEndUnique(input, 3, WhiteSpace, 4);
    RunEndUnique(input, 4, Digits, 5);
    assert input[4..5] == "3";
    assert ScanToken(input, 4) == Produced(Three, 5);
  }

  /** The NextToken that brings in `;`. */
  lemma LexAdditionFourth(input: string)
    requires AdditionText(input)
    ensures Next(LexState(input, 5, Some(Plus), Some(Three))) == Ok(LexState(input, 6, Some(Three), Some(Semicolon)))
  {
    RunEndUnique(input, 5, WhiteSpace, 5);
    assert ScanToken(input, 5) == Produced(Semicolon, 6);
  }

  /** The parser's steps over "5 + 3;": onto `+`, onto `3`, onto `;`, onto the end of input. */
  lemma AdditionSteps(input: string)
    requires AdditionText(input)
    ensures Advance(LexState(input, 3, Some(Five), Some(Plus))) == Ok(LexState(input, 5, Some(Plus), Some(Three)))
    ensures Advance(LexState(input, 5, Some(Plus), Some(Three))) == Ok(LexState(input, 6, Some(Three), Some(Semicolon)))
    ensures Advance(LexState(input, 6, Some(Three), Some(Semicolon))) ==
      Ok(LexState(input, 6, Some(Semicolon), Some(EndOfFile)))
    ensures Advance(LexState(input, 6, Some(Semicolon), Some(EndOfFile))) ==
      Ok(LexState(input, 6, Some(EndOfFile), Some(EndOfFile)))
  {
    LexAdditionThird(input);
    LexAdditionFourth(input);
    RunEndUnique(input, 6, WhiteSpace, 6);
    EndOfInput(LexState(input, 6, Some(Three), Some(Semicolon)));
  }

  /** The right operand 3, followed by `;`. */
  lemma AdditionRightOperand(input: string)
    requires AdditionText(input)
    ensures ExprAt(LexState(input, 6, Some(Three), Some(Semicolon))) ==
      Ok(Parsed(Some(Integer(Three, 3)), LexState(input, 6, Some(Three), Some(Semicolon))))
  {
    assert DecimalValue("3") == 3;
    PrimaryExpressions(LexState(input, 6, Some(Three), Some(Semicolon)));
  }

  /** The operator `+` and the operand after it. */
  lemma AdditionBinary(input: string)
    requires AdditionText(input)
    ensures BinaryAt(Integer(Five, 5), LexState(input, 3, Some(Five), Some(Plus))) ==
      Ok(Parsed(AdditionTree(), LexState(input, 6, Some(Three), Some(Semicolon))))
  {
    AdditionSteps(input);
    AdditionRightOperand(input);
  }

  /** The integer 5 is followed by an operator, so a binary expression follows it. */
  lemma AdditionTail(input: string)
    requires AdditionText(input)
    ensures BinaryTailAt(Integer(Five, 5), LexState(input, 3, Some(Five), Some(Plus))) ==
      Ok(Parsed(Some(AdditionTree()), LexState(input, 6, Some(Three), Some(Semicolon))))
  {
    AdditionBinary(input);
  }

  /** "5 + 3" parses to the binary expression 5 PLUS 3, ending on `3`. */
  lemma AdditionExpression(input: string)
    requires AdditionText(input)
    ensures ExprAt(LexState(input, 3, Some(Five), Some(Plus))) ==
      Ok(Parsed(Some(AdditionTree()), LexState(input, 6, Some(Three), Some(Semicolon))))
  {
    assert DecimalValue("5") == 5;
    IntegerExpression(LexState(input, 3, Some(Five), Some(Plus)));
    AdditionTail(input);
  }

  /** The statement "5 + 3;", followed by the step onto the end of input. */
  lemma AdditionStatement(input: string)
    requires AdditionText(input)
    ensures StatementStep(LexState(input, 3, Some(Five), Some(Plus))) ==
      Ok(Parsed(AdditionStatementTree(), LexState(input, 6, Some(EndOfFile), Some(EndOfFile))))
  {
    var s := LexState(input, 3, Some(Five), Some(Plus));
    assert Parsable(s);
    AdditionSteps(input);
    AdditionExpression(input);
    StatementDispatch(s);
    assert ExpressionStatementAt(s) ==
      Ok(Parsed(AdditionStatementTree(), LexState(input, 6, Some(Semicolon), Some(EndOfFile))));
  }

  /** Any text "5 + 3;" parses to one statement: 5 PLUS 3. */
  lemma AdditionParses(input: string)
    requires AdditionText(input)
    ensures ParseSource(input) == Ok(InterpreterProgram([AdditionStatementTree()]))
  {
    var s := LexState(input, 3, Some(Five), Some(Plus));
    LexAdditionFirst(input);
    LexAdditionSecond(input);
    assert Start(input) == Ok(s);
    assert Parsable(s);
    AdditionStatement(input);
    SingleStatementProgram(s, AdditionStatementTree(), LexState(input, 6, Some(EndOfFile), Some(EndOfFile)));
  }

  /** "5 + 3;" parses to one statement: 5 PLUS 3, the program of EvaluatorTests.cs:44. */
  lemma ParseAddition()
    ensures ParseSource("5 + 3;") == Ok(InterpreterProgram([AdditionStatementTree()]))
  {
    AdditionParses("5 + 3;");
  }

  /** The statement of "5 + 3;" evaluates to the integer object 8. */
  lemma AdditionStatementEvaluates()
    ensures EvaluateAll([AdditionStatementTree()]) == Ok(Some(IntegerObject(8)))
  {
    assert [AdditionStatementTree()][..0] == [];
  }

  /** "5 + 3;" evaluates to the integer object 8 (EvaluatorTests.cs:44). */
  lemma AdditionEvaluates()
    ensures Run("5 + 3;") == Ok(Some(IntegerObject(8)))
  {
    ParseAddition();
    AdditionStatementEvaluates();
  }

  // ----- texts that start "function f() {"

  /** The text starts "function f() {". */
  predicate DeclarationText(input: string) {
    && |input| >= 14
    && input[0] == 'f' && input[1] == 'u' && input[2] == 'n' && input[3] == 'c'
    && input[4] == 't' && input[5] == 'i' && input[6] == 'o' && input[7] == 'n'
    && input[8] == ' ' && input[9] == 'f' && input[10] == '(' && input[11] == ')'
    && input[12] == ' ' && input[13] == '{'
  }

  /** The first NextToken over a text that starts `function f() {`. */
  lemma LexDeclarationFirst(input: string)
    requires DeclarationText(input)
    ensures Next(Initial(input)) == Ok(LexState(input, 8, None, Some(FunctionKeyword)))
  {
    RunEndUnique(input, 0, WhiteSpace, 0);
    RunEndUnique(input, 0, LettersOrDigits, 8);
    assert input[0..8] == "function";
    assert ScanToken(input, 0) == Produced(FunctionKeyword, 8);
  }

  /** The second NextToken over it: the name `f`. */
  lemma LexDeclarationSecond(input: string)
    requires DeclarationText(input)
    ensures Next(LexState(input, 8, None, Some(FunctionKeyword))) ==
      Ok(LexState(input, 10, Some(FunctionKeyword), Some(Token(IDENTIFIER, "f"))))
  {
    RunEndUnique(input, 8, WhiteSpace, 9);
    RunEndUnique(input, 9, LettersOrDigits, 10);
    assert input[9..10] == "f";
    assert ScanToken(input, 9) == Produced(Token(IDENTIFIER, "f"), 10);
  }

  /** The parser's step onto `f`, which brings in `(`. */
  lemma DeclarationName(input: string)
    requires DeclarationText(input)
    ensures Advance(LexState(input, 10, Some(FunctionKeyword), Some(Token(IDENTIFIER, "f")))) ==
      Ok(LexState(input, 11, Some(Token(IDENTIFIER, "f")), Some(OpenParen)))
  {
    RunEndUnique(input, 10, WhiteSpace, 10);
    assert ScanToken(input, 10) == Produced(OpenParen, 11);
  }

  /** The parser's step onto `(`, which brings in `)`. */
  lemma DeclarationParen(input: string)
    requires DeclarationText(input)
    ensures Advance(LexState(input, 11, Some(Token(IDENTIFIER, "f")), Some(OpenParen))) ==
      Ok(LexState(input, 12, Some(OpenParen), Some(Token(RIGHTPAREN, ")"))))
  {
    RunEndUnique(input, 11, WhiteSpace, 11);
    assert ScanToken(input, 11) == Produced(Token(RIGHTPAREN, ")"), 12);
  }

  /** The parser's step onto `)`, which brings in `{`. */
  lemma DeclarationClose(input: string)
    requires DeclarationText(input)
    ensures Advance(LexState(input, 12, Some(OpenParen), Some(Token(RIGHTPAREN, ")")))) ==
      Ok(LexState(input, 14, Some(Token(RIGHTPAREN, ")")), Some(Token(LEFTBRACE, "{"))))
  {
    RunEndUnique(input, 12, WhiteSpace, 13);
    assert ScanToken(input, 13) == Produced(Token(LEFTBRACE, "{"), 14);
  }

  /** The declaration fails in its parameter loop, expecting a comma where `{` stands. */
  lemma DeclarationHeaderFails(input: string)
    requires DeclarationText(input)
    ensures FunctionAt(LexState(input, 10, Some(FunctionKeyword), Some(Token(IDENTIFIER, "f")))) ==
      Err(UnexpectedToken(COMMA, LEFTBRACE))
  {
    var d12 := LexState(input, 12, Some(OpenParen), Some(Token(RIGHTPAREN, ")")));
    DeclarationName(input);
    DeclarationParen(input);
    DeclarationClose(input);
    EmptyParameterList(d12, []);
    assert ParamsFrom(d12, []) == Err(UnexpectedToken(COMMA, LEFTBRACE));
  }

  /** The program loop stops on that error. */
  lemma DeclarationProgramFails(input: string)
    requires DeclarationText(input)
    ensures ProgramAt(LexState(input, 10, Some(FunctionKeyword), Some(Token(IDENTIFIER, "f")))) ==
      Err(UnexpectedToken(COMMA, LEFTBRACE))
  {
    var s := LexState(input, 10, Some(FunctionKeyword), Some(Token(IDENTIFIER, "f")));
    assert Parsable(s);
    DeclarationHeaderFails(input);
    StatementDispatch(s);
    FirstStatementFails(s);
  }

  /**
   * "function f() {}", and any text that starts "function f() {", is
   * rejected: `)` is taken as a parameter and a comma is then expected where
   * `{` stands (Parser.cs:126-135).
   */
  lemma EmptyParameterListRejected(input: string)
    requires DeclarationText(input)
    ensures ParseSource(input) == Err(UnexpectedToken(COMMA, LEFTBRACE))
  {
    LexDeclarationFirst(input);
    LexDeclarationSecond(input);
    DeclarationProgramFails(input);
  }

  /** "function f() {}" is rejected. */
  lemma EmptyFunctionRejected()
    ensures ParseSource("function f() {}") == Err(UnexpectedToken(COMMA, LEFTBRACE))
  {
    EmptyParameterListRejected("function f() {}");
  }

  // ----- texts that start "function(x," after whitespace

  /** The text is `lead` whitespace characters, then "function(x,". */
  predicate AnonymousText(input: string, lead: nat) {
    && lead + 11 <= |input|
    && (forall k :: 0 <= k < lead ==> IsWhiteSpace(input[k]))
    && input[lead] == 'f' && input[lead + 1] == 'u' && input[lead + 2] == 'n' && input[lead + 3] == 'c'
    && input[lead + 4] == 't' && input[lead + 5] == 'i' && input[lead + 6] == 'o' && input[lead + 7] == 'n'
    && input[lead + 8] == '(' && input[lead + 9] == 'x' && input[lead + 10] == ','
  }

  /** The first NextToken over it skips the whitespace and reads `function`. */
  lemma LexAnonymousFirst(input: string, lead: nat)
    requires AnonymousText(input, lead)
    ensures Next(Initial(input)) == Ok(LexState(input, lead + 8, None, Some(FunctionKeyword)))
  {
    RunEndUnique(input, 0, WhiteSpace, lead);
    RunEndUnique(input, lead, LettersOrDigits, lead + 8);
    assert input[lead..lead + 8] == "function";
    assert ScanToken(input, lead) == Produced(FunctionKeyword, lead + 8);
  }

  /** The second NextToken over it: `(`. */
  lemma LexAnonymousSecond(input: string, lead: nat)
    requires AnonymousText(input, lead)
    ensures Next(LexState(input, lead + 8, None, Some(FunctionKeyword))) ==
      Ok(LexState(input, lead + 9, Some(FunctionKeyword), Some(OpenParen)))
  {
    RunEndUnique(input, lead + 8, WhiteSpace, lead + 8);
    assert ScanToken(input, lead + 8) == Produced(OpenParen, lead + 9);
  }

  /** The parser's step onto `(`, which brings in `x`. */
  lemma AnonymousStep(input: string, lead: nat)
    requires AnonymousText(input, lead)
    ensures Advance(LexState(input, lead + 9, Some(FunctionKeyword), Some(OpenParen))) ==
      Ok(LexState(input, lead + 10, Some(OpenParen), Some(Token(IDENTIFIER, "x"))))
  {
    RunEndUnique(input, lead + 9, WhiteSpace, lead + 9);
    RunEndUnique(input, lead + 9, LettersOrDigits, lead + 10);
    assert input[lead + 9..lead + 10] == "x";
    assert ScanToken(input, lead + 9) == Produced(Token(IDENTIFIER, "x"), lead + 10);
  }

  /** The declaration takes `(` as its name and then expects `(` where `x` stands. */
  lemma AnonymousHeaderFails(input: string, lead: nat)
    requires AnonymousText(input, lead)
    ensures FunctionAt(LexState(input, lead + 9, Some(FunctionKeyword), Some(OpenParen))) ==
      Err(UnexpectedToken(LEFTPAREN, IDENTIFIER))
  {
    AnonymousStep(input, lead);
    AnonymousFunctionRejected(LexState(input, lead + 9, Some(FunctionKeyword), Some(OpenParen)));
  }

  /** The program loop stops on that error. */
  lemma AnonymousProgramFails(input: string, lead: nat)
    requires AnonymousText(input, lead)
    ensures ProgramAt(LexState(input, lead + 9, Some(FunctionKeyword), Some(OpenParen))) ==
      Err(UnexpectedToken(LEFTPAREN, IDENTIFIER))
  {
    var s := LexState(input, lead + 9, Some(FunctionKeyword), Some(OpenParen));
    assert Parsable(s);
    AnonymousHeaderFails(input, lead);
    StatementDispatch(s);
    FirstStatementFails(s);
  }

  /**
   * The anonymous function of ParserTests.cs:238-243, and any text that
   * starts, after whitespace, with "function(x,", is rejected: `(` is taken
   * as the function's name and `(` is then expected where `x` stands.
   */
  lemma AnonymousFunctionFails(input: string, lead: nat)
    requires AnonymousText(input, lead)
    ensures ParseSource(input) == Err(UnexpectedToken(LEFTPAREN, IDENTIFIER))
  {
    LexAnonymousFirst(input, lead);
    LexAnonymousSecond(input, lead);
    AnonymousProgramFails(input, lead);
  }

  // ----- "5;!x" and "!"

  /** The text starts "5;!" and the `!` is not followed by `=`. */
  predicate FrozenText(input: string) {
    FiveSemicolonText(input) && |input| >= 4 && input[2] == '!' && input[3] != '='
  }

  /** Past `;` the lexer is frozen on `!`: the step onto `;` makes no progress. */
  lemma BangStalls(input: string)
    requires FrozenText(input)
    ensures FrozenAt(input, 2)
    ensures Advance(LexState(input, 2, Some(Five), Some(Semicolon))) == Err(Stalled(2))
  {
    RunEndUnique(input, 2, WhiteSpace, 2);
    FrozenStep(LexState(input, 2, Some(Five), Some(Semicolon)));
  }

  /** The statement "5;" therefore fails on the step that would take `;` as current. */
  lemma FrozenStatement(input: string)
    requires FrozenText(input)
    ensures ExpressionStatementAt(LexState(input, 2, Some(Five), Some(Semicolon))) == Err(Stalled(2))
  {
    var s := LexState(input, 2, Some(Five), Some(Semicolon));
    BangStalls(input);
    assert DecimalValue("5") == 5;
    PrimaryExpressions(s);
  }

  /**
   * A text that starts "5;!" with no `=` after the `!`: after `;` the lexer
   * is frozen on `!`, where the source's NextToken makes no progress for
   * ever; the model reports Stalled.
   */
  lemma FrozenFails(input: string)
    requires FrozenText(input)
    ensures FrozenAt(input, 2)
    ensures ParseSource(input) == Err(Stalled(2))
  {
    var s := LexState(input, 2, Some(Five), Some(Semicolon));
    LexFive(input);
    assert Parsable(s);
    BangStalls(input);
    FrozenStatement(input);
    StatementDispatch(s);
    FirstStatementFails(s);
  }

  /** "5;!x" stalls on its `!`. */
  lemma FrozenLexerStalls()
    ensures FrozenAt("5;!x", 2)
    ensures ParseSource("5;!x") == Err(Stalled(2))
  {
    FrozenFails("5;!x");
  }

  /** A `!` at the very end is read past: `Input[Position + 1]` is out of range (Lexer.cs:77). */
  lemma TrailingBangFails()
    ensures ParseSource("!") == Err(IndexOutOfRange(1))
  {
    assert RunEnd("!", 0, WhiteSpace) == 0;
    assert ScanToken("!", 0) == ScanFailed(IndexOutOfRange(1));
  }
}
