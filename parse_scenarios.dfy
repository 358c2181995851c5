/**
 * Texts that parse: a call with arguments, an if statement with both
 * blocks, and a declaration with parameters, each taken one token at a
 * time to the tree the parser builds. These are the shapes that the
 * positive parser tests check; each text is described character by
 * character, so each lemma holds for every text of that shape.
 */
module ParseScenarios {
  import opened Wrappers
  import opened Tokens
  import opened Lexing
  import opened Ast
  import opened ParserSpec
  import opened ParserProperties
  import opened Interpreter

  const FName := Token(IDENTIFIER, "f")
  const XName := Token(IDENTIFIER, "x")
  const YName := Token(IDENTIFIER, "y")
  const Two := Token(INTEGER, "2")
  const OpenParen := Token(LEFTPAREN, "(")
  const CloseParen := Token(RIGHTPAREN, ")")
  const OpenBrace := Token(LEFTBRACE, "{")
  const CloseBrace := Token(RIGHTBRACE, "}")
  const Comma := Token(COMMA, ",")
  const Semicolon := Token(SEMICOLON, ";")
  const IfKeyword := Token(IF, "if")
  const ElseKeyword := Token(ELSE, "else")
  const FunctionKeyword := Token(FUNCTION, "function")

  // ----- one token at a time

  /** A NextToken that skips the blanks before `p` and scans `t` at `p`, ending at `q`. */
  lemma LexStep(s: LexState, p: nat, t: Token, q: nat)
    requires Wf(s) && s.pos <= p < |s.input|
    requires forall k :: s.pos <= k < p ==> IsWhiteSpace(s.input[k])
    requires !IsWhiteSpace(s.input[p]) && ScanToken(s.input, p) == Produced(t, q)
    ensures Next(s) == Ok(LexState(s.input, q, s.peek, Some(t)))
  {
    NextPeekToken(s, p);
  }

  /** The same step issued by the parser: it moves past a token, so it does not stall. */
  lemma AdvanceStep(s: LexState, p: nat, t: Token, q: nat)
    requires Parsable(s) && CurType(s) != ENDOFFILE && s.pos <= p < |s.input|
    requires forall k :: s.pos <= k < p ==> IsWhiteSpace(s.input[k])
    requires !IsWhiteSpace(s.input[p]) && ScanToken(s.input, p) == Produced(t, q)
    ensures Advance(s) == Ok(LexState(s.input, q, s.peek, Some(t)))
  {
    LexStep(s, p, t, q);
  }

  /** The parser's step past the last token, onto the end of input. */
  lemma AdvanceToEnd(s: LexState)
    requires Parsable(s) && CurType(s) != ENDOFFILE && !IsEof(s.peek)
    requires forall k :: s.pos <= k < |s.input| ==> IsWhiteSpace(s.input[k])
    ensures Advance(s) == Ok(LexState(s.input, |s.input|, s.peek, Some(EndOfFile)))
  {
    RunEndUnique(s.input, s.pos, WhiteSpace, |s.input|);
    EndOfInput(s);
  }

  /** A word of letters and digits that starts with a letter at `p` and ends at `e`. */
  lemma WordAt(input: string, p: nat, e: nat)
    requires p < e <= |input| && IsLetter(input[p])
    requires forall k :: p <= k < e ==> IsLetterOrDigit(input[k])
    requires e == |input| || !IsLetterOrDigit(input[e])
    ensures ScanToken(input, p) == Produced(Token(WordKind(input[p..e]), input[p..e]), e)
  {
    RunEndUnique(input, p, LettersOrDigits, e);
  }

  /** A one-letter identifier at `p`. */
  lemma LetterAt(input: string, p: nat, c: char)
    requires p < |input| && input[p] == c && IsLetter(c)
    requires p + 1 == |input| || !IsLetterOrDigit(input[p + 1])
    ensures ScanToken(input, p) == Produced(Token(IDENTIFIER, [c]), p + 1)
  {
    WordAt(input, p, p + 1);
    assert input[p..p + 1] == [c];
  }

  /** The punctuation that ends an expression is not a binary operator. */
  lemma NotOperators()
    ensures COMMA !in BinaryOperations && RIGHTPAREN !in BinaryOperations && SEMICOLON !in BinaryOperations
  {
  }

  /** The literal 2 is a well-formed integer token. */
  lemma TwoWellFormed()
    ensures WellFormed(Two)
  {
    assert Two.literal[0] == '2';
  }

  /** A one-element argument list of a right-nested expression is right-nested. */
  lemma OneArgument(a: Option<Expression>)
    requires a.Some? ==> RightNested(a.value)
    ensures AllRightNested([a])
  {
  }

  /** Appending to a list of none or one element gives the list one longer. */
  lemma Append<T>(a: T, b: T)
    ensures [] + [a] == [a] && [a] + [b] == [a, b]
  {
  }

  /** An argument that PastArgument can step past: the loop goes on from there. */
  lemma NextArgument(s: LexState, acc: seq<Option<Expression>>, e: Option<Expression>, t: LexState)
    requires Parsable(s) && AllRightNested(acc) && CurType(s) != RIGHTPAREN
    requires ExprAt(s) == Ok(Parsed(e, s)) && PastArgument(s) == Ok(t)
    ensures Parsable(t) && AllRightNested(acc + [e])
    ensures ArgsFrom(s, acc) == ArgsFrom(t, acc + [e])
  {
    ArgumentsStep(s, acc);
  }

  /** The last argument: PastArgument lands on `)`, which ends the loop. */
  lemma FinalArgument(s: LexState, acc: seq<Option<Expression>>, e: Option<Expression>, t: LexState)
    requires Parsable(s) && AllRightNested(acc) && CurType(s) != RIGHTPAREN
    requires ExprAt(s) == Ok(Parsed(e, s)) && PastArgument(s) == Ok(t) && CurType(t) == RIGHTPAREN
    ensures ArgsFrom(s, acc) == Ok(Parsed(acc + [e], t))
  {
    NextArgument(s, acc, e, t);
  }

  /** A block that closes right after it opens holds no statements. */
  lemma EmptyBlock(s: LexState, t: LexState)
    requires Parsable(s) && CurType(s) == LEFTBRACE && Advance(s) == Ok(t) && CurType(t) == RIGHTBRACE
    ensures BlockAt(s) == Ok(Parsed(Block([]), t))
  {
    StatementsStep(t, RIGHTBRACE, []);
  }

  /** A parameter that ParameterAt reads: the loop goes on from where it stops. */
  lemma NextParameter(s: LexState, acc: seq<Identifier>, parameter: Identifier, t: LexState)
    requires Parsable(s) && (CurType(s) == LEFTPAREN || CurType(s) == COMMA) && ParameterAt(s) == Ok(Parsed(parameter, t))
    ensures Parsable(t) && ParameterListKind(CurType(t))
    ensures ParamsFrom(s, acc) == ParamsFrom(t, acc + [parameter])
  {
    ParametersStep(s, acc);
  }

  /** A call with nothing after its `)` that continues the expression. */
  lemma CallThen(s: LexState, s1: LexState, args: seq<Option<Expression>>, t: LexState)
    requires Parsable(s) && CurType(s) == IDENTIFIER && PeekType(s) == LEFTPAREN
    requires Advance(s) == Ok(s1) && CallArgsAt(s1) == Ok(Parsed(args, t)) && PeekType(t) !in BinaryOperations
    ensures ExprAt(s) == Ok(Parsed(Some(FunctionCall(CurToken(s1), Identifier(CurToken(s)), args)), t))
  {
    CallExpression(s);
  }

  // ----- "f(x, 2);"

  /** The text "f(x, 2);". */
  predicate CallText(input: string) {
    && |input| == 8
    && input[0] == 'f' && input[1] == '(' && input[2] == 'x' && input[3] == ','
    && input[4] == ' ' && input[5] == '2' && input[6] == ')' && input[7] == ';'
  }

  /** The call f(x, 2); it keeps the `(` token, as ParseFunctionCall does. */
  function CallTree(): Expression {
    FunctionCall(OpenParen, Identifier(FName), [Some(Ident(Identifier(XName))), Some(Integer(Two, 2))])
  }

  /** The statement "f(x, 2);" parses to. */
  function CallStatementTree(): Statement {
    ExpressionStatement(FName, Some(CallTree()))
  }

  /** The first token a Lexer over "f(x, 2);" reads. */
  lemma LexCallFirst(input: string)
    requires CallText(input)
    ensures Next(Initial(input)) == Ok(LexState(input, 1, None, Some(FName)))
  {
    LetterAt(input, 0, 'f');
    LexStep(Initial(input), 0, FName, 1);
  }

  /** The second token, which fills the peek. */
  lemma LexCallSecond(input: string)
    requires CallText(input)
    ensures Next(LexState(input, 1, None, Some(FName))) == Ok(LexState(input, 2, Some(FName), Some(OpenParen)))
  {
    assert ScanToken(input, 1) == Produced(OpenParen, 2);
    LexStep(LexState(input, 1, None, Some(FName)), 1, OpenParen, 2);
  }

  /** The two tokens a Lexer over "f(x, 2);" starts with. */
  lemma LexCall(input: string)
    requires CallText(input)
    ensures Start(input) == Ok(LexState(input, 2, Some(FName), Some(OpenParen)))
  {
    LexCallFirst(input);
    LexCallSecond(input);
  }

  /** The parser's step onto `(`. */
  lemma CallOntoParen(input: string)
    requires CallText(input)
    ensures Advance(LexState(input, 2, Some(FName), Some(OpenParen))) == Ok(LexState(input, 3, Some(OpenParen), Some(XName)))
  {
    LetterAt(input, 2, 'x');
    AdvanceStep(LexState(input, 2, Some(FName), Some(OpenParen)), 2, XName, 3);
  }

  /** The parser's step onto `x`. */
  lemma CallOntoX(input: string)
    requires CallText(input)
    ensures Advance(LexState(input, 3, Some(OpenParen), Some(XName))) == Ok(LexState(input, 4, Some(XName), Some(Comma)))
  {
    assert ScanToken(input, 3) == Produced(Comma, 4);
    AdvanceStep(LexState(input, 3, Some(OpenParen), Some(XName)), 3, Comma, 4);
  }

  /** The parser's step onto `,`, which skips the blank after it when it scans `2`. */
  lemma CallOntoComma(input: string)
    requires CallText(input)
    ensures Advance(LexState(input, 4, Some(XName), Some(Comma))) == Ok(LexState(input, 6, Some(Comma), Some(Two)))
  {
    RunEndUnique(input, 5, Digits, 6);
    assert input[5..6] == "2";
    assert ScanToken(input, 5) == Produced(Two, 6);
    AdvanceStep(LexState(input, 4, Some(XName), Some(Comma)), 5, Two, 6);
  }

  /** The parser's step onto `2`. */
  lemma CallOntoTwo(input: string)
    requires CallText(input)
    ensures Advance(LexState(input, 6, Some(Comma), Some(Two))) == Ok(LexState(input, 7, Some(Two), Some(CloseParen)))
  {
    assert ScanToken(input, 6) == Produced(CloseParen, 7);
    AdvanceStep(LexState(input, 6, Some(Comma), Some(Two)), 6, CloseParen, 7);
  }

  /** The parser's step onto `)`. */
  lemma CallOntoClose(input: string)
    requires CallText(input)
    ensures Advance(LexState(input, 7, Some(Two), Some(CloseParen))) == Ok(LexState(input, 8, Some(CloseParen), Some(Semicolon)))
  {
    assert ScanToken(input, 7) == Produced(Semicolon, 8);
    AdvanceStep(LexState(input, 7, Some(Two), Some(CloseParen)), 7, Semicolon, 8);
  }

  /** The parser's step onto `;`, past which only the end of input remains. */
  lemma CallOntoSemicolon(input: string)
    requires CallText(input)
    ensures Advance(LexState(input, 8, Some(CloseParen), Some(Semicolon))) == Ok(LexState(input, 8, Some(Semicolon), Some(EndOfFile)))
  {
    AdvanceToEnd(LexState(input, 8, Some(CloseParen), Some(Semicolon)));
  }

  /** The parser's step onto the end of input. */
  lemma CallOntoEnd(input: string)
    requires CallText(input)
    ensures Advance(LexState(input, 8, Some(Semicolon), Some(EndOfFile))) == Ok(LexState(input, 8, Some(EndOfFile), Some(EndOfFile)))
  {
    CallOntoSemicolon(input);
    EndOfInput(LexState(input, 8, Some(CloseParen), Some(Semicolon)));
  }

  /** The `,` after `x`: PastArgument steps over it onto `2`. */
  lemma CallPastComma(input: string)
    requires CallText(input)
    ensures PastArgument(LexState(input, 4, Some(XName), Some(Comma))) == Ok(LexState(input, 7, Some(Two), Some(CloseParen)))
  {
    CallOntoComma(input);
    CallOntoTwo(input);
  }

  /** The `)` after `2`: PastArgument steps onto it. */
  lemma CallPastTwo(input: string)
    requires CallText(input)
    ensures PastArgument(LexState(input, 7, Some(Two), Some(CloseParen))) == Ok(LexState(input, 8, Some(CloseParen), Some(Semicolon)))
  {
    CallOntoClose(input);
  }

  /** The parser's state on `2`. */
  lemma CallAtTwo(input: string)
    requires |input| == 8
    ensures Parsable(LexState(input, 7, Some(Two), Some(CloseParen)))
  {
    TwoWellFormed();
  }

  /** The argument `2`, which `)` ends. */
  lemma CallSecondArgument(input: string)
    requires |input| == 8
    ensures Parsable(LexState(input, 7, Some(Two), Some(CloseParen)))
    ensures ExprAt(LexState(input, 7, Some(Two), Some(CloseParen))) ==
      Ok(Parsed(Some(Integer(Two, 2)), LexState(input, 7, Some(Two), Some(CloseParen))))
  {
    CallAtTwo(input);
    assert DecimalValue("2") == 2;
    NotOperators();
    PrimaryExpressions(LexState(input, 7, Some(Two), Some(CloseParen)));
  }

  /** The arguments from `2` on: the list ends at `)`. */
  lemma CallArgumentsFromTwo(input: string)
    requires CallText(input)
    ensures ArgsFrom(LexState(input, 7, Some(Two), Some(CloseParen)), [Some(Ident(Identifier(XName)))]) ==
      Ok(Parsed(CallTree().parameters, LexState(input, 8, Some(CloseParen), Some(Semicolon))))
  {
    var x := Some(Ident(Identifier(XName)));
    var s := LexState(input, 7, Some(Two), Some(CloseParen));
    CallSecondArgument(input);
    CallPastTwo(input);
    OneArgument(x);
    FinalArgument(s, [x], Some(Integer(Two, 2)), LexState(input, 8, Some(CloseParen), Some(Semicolon)));
    Append(x, Some(Integer(Two, 2)));
  }

  /** The first argument `x` and its `,`: the loop goes on from `2`. */
  lemma CallFirstArgument(input: string)
    requires CallText(input)
    ensures ArgsFrom(LexState(input, 4, Some(XName), Some(Comma)), []) ==
      ArgsFrom(LexState(input, 7, Some(Two), Some(CloseParen)), [Some(Ident(Identifier(XName)))])
  {
    var x := Some(Ident(Identifier(XName)));
    var s := LexState(input, 4, Some(XName), Some(Comma));
    CallPastComma(input);
    NotOperators();
    PrimaryExpressions(s);
    NextArgument(s, [], x, LexState(input, 7, Some(Two), Some(CloseParen)));
    Append(x, x);
  }

  /** The argument list `(x, 2)`, in source order, ending on `)`. */
  lemma CallArguments(input: string)
    requires CallText(input)
    ensures CallArgsAt(LexState(input, 3, Some(OpenParen), Some(XName))) ==
      Ok(Parsed(CallTree().parameters, LexState(input, 8, Some(CloseParen), Some(Semicolon))))
  {
    CallOntoX(input);
    CallFirstArgument(input);
    CallArgumentsFromTwo(input);
  }

  /** The expression "f(x, 2)", ending on `)`. */
  lemma CallParsesExpression(input: string)
    requires CallText(input)
    ensures ExprAt(LexState(input, 2, Some(FName), Some(OpenParen))) ==
      Ok(Parsed(Some(CallTree()), LexState(input, 8, Some(CloseParen), Some(Semicolon))))
  {
    var s := LexState(input, 2, Some(FName), Some(OpenParen));
    var s5 := LexState(input, 8, Some(CloseParen), Some(Semicolon));
    CallOntoParen(input);
    CallArguments(input);
    NotOperators();
    CallThen(s, LexState(input, 3, Some(OpenParen), Some(XName)), CallTree().parameters, s5);
  }

  /** The expression statement "f(x, 2);", ending on its `;`. */
  lemma CallExpressionStatement(input: string)
    requires CallText(input)
    ensures ExpressionStatementAt(LexState(input, 2, Some(FName), Some(OpenParen))) ==
      Ok(Parsed(CallStatementTree(), LexState(input, 8, Some(Semicolon), Some(EndOfFile))))
  {
    CallParsesExpression(input);
    CallOntoSemicolon(input);
  }

  /** The statement "f(x, 2);", followed by the step onto the end of input. */
  lemma CallStatement(input: string)
    requires CallText(input)
    ensures StatementStep(LexState(input, 2, Some(FName), Some(OpenParen))) ==
      Ok(Parsed(CallStatementTree(), LexState(input, 8, Some(EndOfFile), Some(EndOfFile))))
  {
    StatementDispatch(LexState(input, 2, Some(FName), Some(OpenParen)));
    CallExpressionStatement(input);
    CallOntoEnd(input);
  }

  /** Any text "f(x, 2);" parses to one statement: the call of f on x and 2, in that order. */
  lemma CallParses(input: string)
    requires CallText(input)
    ensures ParseSource(input) == Ok(InterpreterProgram([CallStatementTree()]))
  {
    var s := LexState(input, 2, Some(FName), Some(OpenParen));
    LexCall(input);
    assert Parsable(s);
    CallStatement(input);
    SingleStatementProgram(s, CallStatementTree(), LexState(input, 8, Some(EndOfFile), Some(EndOfFile)));
  }

  /** "f(x, 2);" parses to a call with two arguments, the shape ParserTests.cs:270-313 checks. */
  lemma ParseCall()
    ensures ParseSource("f(x, 2);") == Ok(InterpreterProgram([CallStatementTree()]))
  {
    CallLiteral();
    CallParses("f(x, 2);");
  }

  /** The literal has the shape CallText describes. */
  lemma CallLiteral()
    ensures CallText("f(x, 2);")
  {
  }

  // ----- "if (x) {} else {}"

  /** The text "if (x) {} else {}". */
  predicate IfText(input: string) {
    && |input| == 17
    && input[0] == 'i' && input[1] == 'f' && input[2] == ' ' && input[3] == '(' && input[4] == 'x'
    && input[5] == ')' && input[6] == ' ' && input[7] == '{' && input[8] == '}' && input[9] == ' '
    && input[10] == 'e' && input[11] == 'l' && input[12] == 's' && input[13] == 'e' && input[14] == ' '
    && input[15] == '{' && input[16] == '}'
  }

  /** The statement "if (x) {} else {}" parses to: both blocks empty, the else block present. */
  function IfTree(): Statement {
    IfElse(IfKeyword, Some(Ident(Identifier(XName))), Block([]), Some(Block([])))
  }

  /** The first token a Lexer over "if (x) {} else {}" reads: the keyword. */
  lemma LexIfFirst(input: string)
    requires IfText(input)
    ensures Next(Initial(input)) == Ok(LexState(input, 2, None, Some(IfKeyword)))
  {
    WordAt(input, 0, 2);
    assert input[0..2] == "if";
    LexStep(Initial(input), 0, IfKeyword, 2);
  }

  /** The second token, after the blank. */
  lemma LexIfSecond(input: string)
    requires IfText(input)
    ensures Next(LexState(input, 2, None, Some(IfKeyword))) == Ok(LexState(input, 4, Some(IfKeyword), Some(OpenParen)))
  {
    assert ScanToken(input, 3) == Produced(OpenParen, 4);
    LexStep(LexState(input, 2, None, Some(IfKeyword)), 3, OpenParen, 4);
  }

  /** The two tokens a Lexer over "if (x) {} else {}" starts with. */
  lemma LexIf(input: string)
    requires IfText(input)
    ensures Start(input) == Ok(LexState(input, 4, Some(IfKeyword), Some(OpenParen)))
  {
    LexIfFirst(input);
    LexIfSecond(input);
  }

  /** The parser's step onto `(`. */
  lemma IfOntoParen(input: string)
    requires IfText(input)
    ensures Advance(LexState(input, 4, Some(IfKeyword), Some(OpenParen))) == Ok(LexState(input, 5, Some(OpenParen), Some(XName)))
  {
    LetterAt(input, 4, 'x');
    AdvanceStep(LexState(input, 4, Some(IfKeyword), Some(OpenParen)), 4, XName, 5);
  }

  /** The parser's step onto `x`. */
  lemma IfOntoX(input: string)
    requires IfText(input)
    ensures Advance(LexState(input, 5, Some(OpenParen), Some(XName))) == Ok(LexState(input, 6, Some(XName), Some(CloseParen)))
  {
    assert ScanToken(input, 5) == Produced(CloseParen, 6);
    AdvanceStep(LexState(input, 5, Some(OpenParen), Some(XName)), 5, CloseParen, 6);
  }

  /** The parser's step onto `)`. */
  lemma IfOntoClose(input: string)
    requires IfText(input)
    ensures Advance(LexState(input, 6, Some(XName), Some(CloseParen))) == Ok(LexState(input, 8, Some(CloseParen), Some(OpenBrace)))
  {
    assert ScanToken(input, 7) == Produced(OpenBrace, 8);
    AdvanceStep(LexState(input, 6, Some(XName), Some(CloseParen)), 7, OpenBrace, 8);
  }

  /** The parser's step onto the first `{`. */
  lemma IfOntoBrace(input: string)
    requires IfText(input)
    ensures Advance(LexState(input, 8, Some(CloseParen), Some(OpenBrace))) == Ok(LexState(input, 9, Some(OpenBrace), Some(CloseBrace)))
  {
    assert ScanToken(input, 8) == Produced(CloseBrace, 9);
    AdvanceStep(LexState(input, 8, Some(CloseParen), Some(OpenBrace)), 8, CloseBrace, 9);
  }

  /** The word at 10 is the keyword `else`. */
  lemma ElseWord(input: string)
    requires IfText(input)
    ensures ScanToken(input, 10) == Produced(ElseKeyword, 14)
  {
    WordAt(input, 10, 14);
    assert input[10..14] == "else";
  }

  /** The parser's step onto the first `}`, which scans the keyword `else`. */
  lemma IfOntoCloseBrace(input: string)
    requires IfText(input)
    ensures Advance(LexState(input, 9, Some(OpenBrace), Some(CloseBrace))) == Ok(LexState(input, 14, Some(CloseBrace), Some(ElseKeyword)))
  {
    ElseWord(input);
    AdvanceStep(LexState(input, 9, Some(OpenBrace), Some(CloseBrace)), 10, ElseKeyword, 14);
  }

  /** The parser's step onto `else`. */
  lemma IfOntoElse(input: string)
    requires IfText(input)
    ensures Advance(LexState(input, 14, Some(CloseBrace), Some(ElseKeyword))) == Ok(LexState(input, 16, Some(ElseKeyword), Some(OpenBrace)))
  {
    assert ScanToken(input, 15) == Produced(OpenBrace, 16);
    AdvanceStep(LexState(input, 14, Some(CloseBrace), Some(ElseKeyword)), 15, OpenBrace, 16);
  }

  /** The parser's step onto the second `{`. */
  lemma IfOntoSecondBrace(input: string)
    requires IfText(input)
    ensures Advance(LexState(input, 16, Some(ElseKeyword), Some(OpenBrace))) == Ok(LexState(input, 17, Some(OpenBrace), Some(CloseBrace)))
  {
    assert ScanToken(input, 16) == Produced(CloseBrace, 17);
    AdvanceStep(LexState(input, 16, Some(ElseKeyword), Some(OpenBrace)), 16, CloseBrace, 17);
  }

  /** The parser's step onto the second `}`, past which only the end of input remains. */
  lemma IfOntoLastBrace(input: string)
    requires IfText(input)
    ensures Advance(LexState(input, 17, Some(OpenBrace), Some(CloseBrace))) == Ok(LexState(input, 17, Some(CloseBrace), Some(EndOfFile)))
  {
    AdvanceToEnd(LexState(input, 17, Some(OpenBrace), Some(CloseBrace)));
  }

  /** The parser's step onto the end of input. */
  lemma IfOntoEnd(input: string)
    requires IfText(input)
    ensures Advance(LexState(input, 17, Some(CloseBrace), Some(EndOfFile))) == Ok(LexState(input, 17, Some(EndOfFile), Some(EndOfFile)))
  {
    IfOntoLastBrace(input);
    EndOfInput(LexState(input, 17, Some(OpenBrace), Some(CloseBrace)));
  }

  /** The condition `x`, which `)` ends. */
  lemma IfCondition(input: string)
    requires IfText(input)
    ensures ExprAt(LexState(input, 6, Some(XName), Some(CloseParen))) ==
      Ok(Parsed(Some(Ident(Identifier(XName))), LexState(input, 6, Some(XName), Some(CloseParen))))
  {
    NotOperators();
    PrimaryExpressions(LexState(input, 6, Some(XName), Some(CloseParen)));
  }

  /** The consequence `{}`, ending on its `}`. */
  lemma IfConsequence(input: string)
    requires IfText(input)
    ensures BlockAt(LexState(input, 9, Some(OpenBrace), Some(CloseBrace))) ==
      Ok(Parsed(Block([]), LexState(input, 14, Some(CloseBrace), Some(ElseKeyword))))
  {
    IfOntoCloseBrace(input);
    EmptyBlock(LexState(input, 9, Some(OpenBrace), Some(CloseBrace)), LexState(input, 14, Some(CloseBrace), Some(ElseKeyword)));
  }

  /** The alternative `{}`, ending on its `}`. */
  lemma IfAlternative(input: string)
    requires IfText(input)
    ensures BlockAt(LexState(input, 17, Some(OpenBrace), Some(CloseBrace))) ==
      Ok(Parsed(Block([]), LexState(input, 17, Some(CloseBrace), Some(EndOfFile))))
  {
    IfOntoLastBrace(input);
    EmptyBlock(LexState(input, 17, Some(OpenBrace), Some(CloseBrace)), LexState(input, 17, Some(CloseBrace), Some(EndOfFile)));
  }

  /** "if (x) {}": the condition and the consequence, ending on the first `}`. */
  lemma IfHead(input: string)
    requires IfText(input)
    ensures IfHeadAt(LexState(input, 4, Some(IfKeyword), Some(OpenParen))) ==
      Ok(Parsed((Some(Ident(Identifier(XName))), Block([])), LexState(input, 14, Some(CloseBrace), Some(ElseKeyword))))
  {
    IfOntoParen(input);
    IfOntoX(input);
    IfCondition(input);
    IfOntoClose(input);
    IfOntoBrace(input);
    IfConsequence(input);
  }

  /** "if (x) {} else {}": ELSE follows the consequence, so the alternative is parsed too. */
  lemma IfStatement(input: string)
    requires IfText(input)
    ensures IfElseAt(LexState(input, 4, Some(IfKeyword), Some(OpenParen))) ==
      Ok(Parsed(IfTree(), LexState(input, 17, Some(CloseBrace), Some(EndOfFile))))
  {
    IfHead(input);
    IfOntoElse(input);
    IfOntoSecondBrace(input);
    IfAlternative(input);
  }

  /** The statement, followed by the step onto the end of input; no `;` is needed. */
  lemma IfStep(input: string)
    requires IfText(input)
    ensures StatementStep(LexState(input, 4, Some(IfKeyword), Some(OpenParen))) ==
      Ok(Parsed(IfTree(), LexState(input, 17, Some(EndOfFile), Some(EndOfFile))))
  {
    StatementDispatch(LexState(input, 4, Some(IfKeyword), Some(OpenParen)));
    IfStatement(input);
    IfOntoEnd(input);
  }

  /** Any text "if (x) {} else {}" parses to one if statement with an else block. */
  lemma IfParses(input: string)
    requires IfText(input)
    ensures ParseSource(input) == Ok(InterpreterProgram([IfTree()]))
  {
    var s := LexState(input, 4, Some(IfKeyword), Some(OpenParen));
    LexIf(input);
    assert Parsable(s);
    IfStep(input);
    SingleStatementProgram(s, IfTree(), LexState(input, 17, Some(EndOfFile), Some(EndOfFile)));
  }

  /** "if (x) {} else {}" parses to an if statement with both blocks, the shape ParserTests.cs:170-233 checks. */
  lemma ParseIf()
    ensures ParseSource("if (x) {} else {}") == Ok(InterpreterProgram([IfTree()]))
  {
    IfLiteral();
    IfParses("if (x) {} else {}");
  }

  /** The literal has the shape IfText describes. */
  lemma IfLiteral()
    ensures IfText("if (x) {} else {}")
  {
  }

  // ----- "function f(x, y) {}"

  /** The text "function f(x, y) {}". */
  predicate DeclarationText(input: string) {
    && |input| == 19
    && input[0] == 'f' && input[1] == 'u' && input[2] == 'n' && input[3] == 'c' && input[4] == 't'
    && input[5] == 'i' && input[6] == 'o' && input[7] == 'n' && input[8] == ' ' && input[9] == 'f'
    && input[10] == '(' && input[11] == 'x' && input[12] == ',' && input[13] == ' ' && input[14] == 'y'
    && input[15] == ')' && input[16] == ' ' && input[17] == '{' && input[18] == '}'
  }

  /** The statement "function f(x, y) {}" parses to: f with parameters x and y, in order, and an empty body. */
  function DeclarationTree(): Statement {
    Function(FunctionKeyword, Identifier(FName), [Identifier(XName), Identifier(YName)], Block([]))
  }

  /** The first token a Lexer over "function f(x, y) {}" reads: the keyword. */
  lemma LexDeclarationFirst(input: string)
    requires DeclarationText(input)
    ensures Next(Initial(input)) == Ok(LexState(input, 8, None, Some(FunctionKeyword)))
  {
    WordAt(input, 0, 8);
    assert input[0..8] == "function";
    LexStep(Initial(input), 0, FunctionKeyword, 8);
  }

  /** The second token, the name after the blank. */
  lemma LexDeclarationSecond(input: string)
    requires DeclarationText(input)
    ensures Next(LexState(input, 8, None, Some(FunctionKeyword))) == Ok(LexState(input, 10, Some(FunctionKeyword), Some(FName)))
  {
    LetterAt(input, 9, 'f');
    LexStep(LexState(input, 8, None, Some(FunctionKeyword)), 9, FName, 10);
  }

  /** The two tokens a Lexer over "function f(x, y) {}" starts with. */
  lemma LexDeclaration(input: string)
    requires DeclarationText(input)
    ensures Start(input) == Ok(LexState(input, 10, Some(FunctionKeyword), Some(FName)))
  {
    LexDeclarationFirst(input);
    LexDeclarationSecond(input);
  }

  /** The parser's step onto the name `f`. */
  lemma DeclarationOntoName(input: string)
    requires DeclarationText(input)
    ensures Advance(LexState(input, 10, Some(FunctionKeyword), Some(FName))) == Ok(LexState(input, 11, Some(FName), Some(OpenParen)))
  {
    assert ScanToken(input, 10) == Produced(OpenParen, 11);
    AdvanceStep(LexState(input, 10, Some(FunctionKeyword), Some(FName)), 10, OpenParen, 11);
  }

  /** The parser's step onto `(`. */
  lemma DeclarationOntoParen(input: string)
    requires DeclarationText(input)
    ensures Advance(LexState(input, 11, Some(FName), Some(OpenParen))) == Ok(LexState(input, 12, Some(OpenParen), Some(XName)))
  {
    LetterAt(input, 11, 'x');
    AdvanceStep(LexState(input, 11, Some(FName), Some(OpenParen)), 11, XName, 12);
  }

  /** The parser's step onto `x`. */
  lemma DeclarationOntoX(input: string)
    requires DeclarationText(input)
    ensures Advance(LexState(input, 12, Some(OpenParen), Some(XName))) == Ok(LexState(input, 13, Some(XName), Some(Comma)))
  {
    assert ScanToken(input, 12) == Produced(Comma, 13);
    AdvanceStep(LexState(input, 12, Some(OpenParen), Some(XName)), 12, Comma, 13);
  }

  /** The parser's step onto `,`. */
  lemma DeclarationOntoComma(input: string)
    requires DeclarationText(input)
    ensures Advance(LexState(input, 13, Some(XName), Some(Comma))) == Ok(LexState(input, 15, Some(Comma), Some(YName)))
  {
    LetterAt(input, 14, 'y');
    AdvanceStep(LexState(input, 13, Some(XName), Some(Comma)), 14, YName, 15);
  }

  /** The parser's step onto `y`. */
  lemma DeclarationOntoY(input: string)
    requires DeclarationText(input)
    ensures Advance(LexState(input, 15, Some(Comma), Some(YName))) == Ok(LexState(input, 16, Some(YName), Some(CloseParen)))
  {
    assert ScanToken(input, 15) == Produced(CloseParen, 16);
    AdvanceStep(LexState(input, 15, Some(Comma), Some(YName)), 15, CloseParen, 16);
  }

  /** The parser's step onto `)`. */
  lemma DeclarationOntoClose(input: string)
    requires DeclarationText(input)
    ensures Advance(LexState(input, 16, Some(YName), Some(CloseParen))) == Ok(LexState(input, 18, Some(CloseParen), Some(OpenBrace)))
  {
    assert ScanToken(input, 17) == Produced(OpenBrace, 18);
    AdvanceStep(LexState(input, 16, Some(YName), Some(CloseParen)), 17, OpenBrace, 18);
  }

  /** The parser's step onto `{`. */
  lemma DeclarationOntoBrace(input: string)
    requires DeclarationText(input)
    ensures Advance(LexState(input, 18, Some(CloseParen), Some(OpenBrace))) == Ok(LexState(input, 19, Some(OpenBrace), Some(CloseBrace)))
  {
    assert ScanToken(input, 18) == Produced(CloseBrace, 19);
    AdvanceStep(LexState(input, 18, Some(CloseParen), Some(OpenBrace)), 18, CloseBrace, 19);
  }

  /** The parser's step onto `}`, past which only the end of input remains. */
  lemma DeclarationOntoCloseBrace(input: string)
    requires DeclarationText(input)
    ensures Advance(LexState(input, 19, Some(OpenBrace), Some(CloseBrace))) == Ok(LexState(input, 19, Some(CloseBrace), Some(EndOfFile)))
  {
    AdvanceToEnd(LexState(input, 19, Some(OpenBrace), Some(CloseBrace)));
  }

  /** The parser's step onto the end of input. */
  lemma DeclarationOntoEnd(input: string)
    requires DeclarationText(input)
    ensures Advance(LexState(input, 19, Some(CloseBrace), Some(EndOfFile))) == Ok(LexState(input, 19, Some(EndOfFile), Some(EndOfFile)))
  {
    DeclarationOntoCloseBrace(input);
    EndOfInput(LexState(input, 19, Some(OpenBrace), Some(CloseBrace)));
  }

  /** The parameter `x`: a `,` follows it, which the loop expects and steps onto. */
  lemma DeclarationFirstParameter(input: string)
    requires DeclarationText(input)
    ensures ParameterAt(LexState(input, 12, Some(OpenParen), Some(XName))) ==
      Ok(Parsed(Identifier(XName), LexState(input, 15, Some(Comma), Some(YName))))
  {
    DeclarationOntoX(input);
    DeclarationOntoComma(input);
  }

  /** The parameter `y`: `)` follows it, which the loop steps onto. */
  lemma DeclarationSecondParameter(input: string)
    requires DeclarationText(input)
    ensures ParameterAt(LexState(input, 15, Some(Comma), Some(YName))) ==
      Ok(Parsed(Identifier(YName), LexState(input, 18, Some(CloseParen), Some(OpenBrace))))
  {
    DeclarationOntoY(input);
    DeclarationOntoClose(input);
  }

  /** The parameters from `y` on: the list ends at `)`. */
  lemma DeclarationParametersFromY(input: string)
    requires DeclarationText(input)
    ensures ParamsFrom(LexState(input, 15, Some(Comma), Some(YName)), [Identifier(XName)]) ==
      Ok(Parsed([Identifier(XName), Identifier(YName)], LexState(input, 18, Some(CloseParen), Some(OpenBrace))))
  {
    var t := LexState(input, 18, Some(CloseParen), Some(OpenBrace));
    DeclarationSecondParameter(input);
    NextParameter(LexState(input, 15, Some(Comma), Some(YName)), [Identifier(XName)], Identifier(YName), t);
    Append(Identifier(XName), Identifier(YName));
    ParametersStep(t, [Identifier(XName), Identifier(YName)]);
  }

  /** The parameter list `(x, y)`, in source order, ending on `)`. */
  lemma DeclarationParameters(input: string)
    requires DeclarationText(input)
    ensures ParamsFrom(LexState(input, 12, Some(OpenParen), Some(XName)), []) ==
      Ok(Parsed([Identifier(XName), Identifier(YName)], LexState(input, 18, Some(CloseParen), Some(OpenBrace))))
  {
    DeclarationFirstParameter(input);
    NextParameter(LexState(input, 12, Some(OpenParen), Some(XName)), [], Identifier(XName), LexState(input, 15, Some(Comma), Some(YName)));
    Append(Identifier(XName), Identifier(XName));
    DeclarationParametersFromY(input);
  }

  /** The body `{}`, ending on its `}`. */
  lemma DeclarationBody(input: string)
    requires DeclarationText(input)
    ensures BlockAt(LexState(input, 19, Some(OpenBrace), Some(CloseBrace))) ==
      Ok(Parsed(Block([]), LexState(input, 19, Some(CloseBrace), Some(EndOfFile))))
  {
    DeclarationOntoCloseBrace(input);
    EmptyBlock(LexState(input, 19, Some(OpenBrace), Some(CloseBrace)), LexState(input, 19, Some(CloseBrace), Some(EndOfFile)));
  }

  /** `function f(`: the name, then the `(` that ParseFunctionStatement expects. */
  lemma DeclarationHead(input: string)
    requires DeclarationText(input)
    ensures Advance(LexState(input, 10, Some(FunctionKeyword), Some(FName))) == Ok(LexState(input, 11, Some(FName), Some(OpenParen)))
    ensures Expect(LexState(input, 11, Some(FName), Some(OpenParen)), LEFTPAREN) == Ok(LexState(input, 12, Some(OpenParen), Some(XName)))
  {
    DeclarationOntoName(input);
    DeclarationOntoParen(input);
  }

  /** `) {}`: the `{` that ParseFunctionStatement expects, then the empty body. */
  lemma DeclarationTail(input: string)
    requires DeclarationText(input)
    ensures Expect(LexState(input, 18, Some(CloseParen), Some(OpenBrace)), LEFTBRACE) == Ok(LexState(input, 19, Some(OpenBrace), Some(CloseBrace)))
    ensures BlockAt(LexState(input, 19, Some(OpenBrace), Some(CloseBrace))) ==
      Ok(Parsed(Block([]), LexState(input, 19, Some(CloseBrace), Some(EndOfFile))))
  {
    DeclarationOntoBrace(input);
    DeclarationBody(input);
  }

  /** The parser's state on `function`, before the declaration is parsed. */
  lemma DeclarationStart(input: string)
    requires |input| == 19
    ensures Parsable(LexState(input, 10, Some(FunctionKeyword), Some(FName)))
  {
  }

  /** "function f(x, y) {}": no `;` follows the body, so the statement ends on its `}`. */
  lemma DeclarationStatement(input: string)
    requires DeclarationText(input)
    ensures FunctionAt(LexState(input, 10, Some(FunctionKeyword), Some(FName))) ==
      Ok(Parsed(DeclarationTree(), LexState(input, 19, Some(CloseBrace), Some(EndOfFile))))
  {
    DeclarationHead(input);
    DeclarationParameters(input);
    DeclarationTail(input);
    DeclarationStart(input);
    FunctionEndsOnBody(LexState(input, 10, Some(FunctionKeyword), Some(FName)), LexState(input, 11, Some(FName), Some(OpenParen)),
      LexState(input, 12, Some(OpenParen), Some(XName)),
      Parsed([Identifier(XName), Identifier(YName)], LexState(input, 18, Some(CloseParen), Some(OpenBrace))),
      LexState(input, 19, Some(OpenBrace), Some(CloseBrace)),
      Parsed(Block([]), LexState(input, 19, Some(CloseBrace), Some(EndOfFile))));
  }

  /** The statement, followed by the step onto the end of input. */
  lemma DeclarationStep(input: string)
    requires DeclarationText(input)
    ensures StatementStep(LexState(input, 10, Some(FunctionKeyword), Some(FName))) ==
      Ok(Parsed(DeclarationTree(), LexState(input, 19, Some(EndOfFile), Some(EndOfFile))))
  {
    StatementDispatch(LexState(input, 10, Some(FunctionKeyword), Some(FName)));
    DeclarationStatement(input);
    DeclarationOntoEnd(input);
  }

  /** Any text "function f(x, y) {}" parses to one declaration of f with parameters x and y. */
  lemma DeclarationParses(input: string)
    requires DeclarationText(input)
    ensures ParseSource(input) == Ok(InterpreterProgram([DeclarationTree()]))
  {
    var s := LexState(input, 10, Some(FunctionKeyword), Some(FName));
    LexDeclaration(input);
    assert Parsable(s);
    DeclarationStep(input);
    SingleStatementProgram(s, DeclarationTree(), LexState(input, 19, Some(EndOfFile), Some(EndOfFile)));
  }

  /** "function f(x, y) {}" parses to a declaration with two parameters in source order (Parser.cs:115-152). */
  lemma ParseDeclaration()
    ensures ParseSource("function f(x, y) {}") == Ok(InterpreterProgram([DeclarationTree()]))
  {
    DeclarationLiteral();
    DeclarationParses("function f(x, y) {}");
  }

  /** The literal has the shape DeclarationText describes. */
  lemma DeclarationLiteral()
    ensures DeclarationText("function f(x, y) {}")
  {
  }
}
