# interpreter_from_scratch front end, in Dafny

This project models the front end of a small hand-written interpreter:

- the lexer (`Lexer.cs`), a cursor over the source text with a two-token
  window of CurrentToken and PeekToken;
- the recursive-descent parser (`Parser.cs`), which drives that lexer and
  builds the syntax tree;
- the parts of the evaluator (`Evaluator.cs`) that have code.

It also proves what these components promise.

Modules, one per part of the program:

- `Wrappers`: Option, Result, and an Outcome for steps that only succeed or fail.
- `Tokens`: TokenType, Token, and one Error constructor per throw site of the C# code.
- `Ast`: the syntax tree classes as datatypes. A `null` expression is `None`.
  C# `int` is the newtype `int32`.
- `Lexing`:
  - specification functions for one NextToken step on a `LexState` (input, Position, CurrentToken, PeekToken);
  - lemmas about that step;
  - `class Lexer`, whose methods update `position`, `current` and `peek` in place, with loops for the whitespace, digit and word runs.
- `ParserSpec`: every production of the parser as a function from a lexer
  state to the parsed value and the state after it.
- `Parsing`: `class Parser`. Each method drives a `Lexer` object and is proved
  to return exactly what its `ParserSpec` function returns, and to leave the
  lexer in the state that function predicts. The `while` loops carry
  invariants over the `ParserSpec` loop functions.
- `ParserProperties`: what the productions guarantee. This covers the dispatch,
  statements and arguments kept in source order, right-nested operator
  chains, the `;` rules, `else`, and the two declaration forms this code rejects.
- `Evaluation`:
  - the written arms of the evaluator as functions;
  - the program loop as a method with a loop invariant;
  - lemmas about the result of a program and about the integer-only guard.
- `Interpreter`: the pipeline of Program.cs, from text to program to result.
- `Scenarios`: whole texts from the repository's tests taken through lexing,
  parsing and evaluation. Each text is described character by character, so
  each lemma holds for every text of that shape.
- `ParseScenarios`: texts that parse, taken one token at a time to the tree
  the parser builds: a call with two arguments, an if statement with an else
  block, and a declaration with two parameters.

Behaviour of the code that the model keeps as written:

- A `!` not followed by `=` produces no token and does not move Position.
  The next NextToken only copies PeekToken into CurrentToken. From then on
  the lexer is frozen.
  - The C# parser then never returns a program: it loops forever or throws later.
  - The model reports the first parser step that makes no progress as `Stalled`.
  - Every other parser step is exactly one NextToken (`AdvanceIsNextToken`).
    So the model returns a program exactly when the C# code does, and it is the same program.
- A trailing `!` reads one character past the end (`IndexOutOfRange`).
- `ParseFunctionStatement` takes the token after `function` as the name.
  The anonymous form `function(x, y) {...}` of ParserTests.cs:238-243 is
  therefore rejected: `(` is the name, and `(` is then expected where `x` stands.
  The test expects this form to parse. The model follows the code.
- An empty parameter list `f()` records `)` as a parameter, then fails when
  `{` stands where a comma is expected.
- Operators have no precedence: `a op b op c` parses as `a op (b op c)`.
- The evaluator's guard (Evaluator.cs:58-61) looks at node kinds, not values.
  Chains nest to the right, so `2 * 5 + 1` is `2 * (5 + 1)`. Its right operand
  is a binary node, and the guard rejects it (`ChainsNeverEvaluate`).
- `ParseProgram` and `ParseBlockStatement` skip `null` statements, but no
  production returns `null`, so every parsed statement is kept.

## Model

| member | source | states |
|---|---|---|
| Lexing.RunEnd | Lexer.cs:155-161 | the end of the maximal run of a character class: every character before it is in the class, the one at it is not (or the input ends) |
| Lexing.RunEndUnique | Lexer.cs:119-123 | a position with those two properties is the run's end, so a run is determined by where it stops |
| Lexing.ScanToken | Lexer.cs:45-147 | a produced token's literal is exactly the input it spans and is non-empty; its kind is `Classify` of that literal, a classification stated independently of the scanner; integer literals are digit strings; no token only for `!` not followed by `=` |
| Lexing.ScanRun | Lexer.cs:115-146 | the default arm either fails or produces a token that spans exactly its literal, with the kind `Classify` gives that literal; it never yields "no token" |
| Lexing.Next | Lexer.cs:33-153 | one NextToken: the lexer invariant is kept, Position never decreases and stays within the input, the old PeekToken becomes CurrentToken |
| Lexing.NextProgress | Lexer.cs:76-82 | unless CurrentToken is already ENDOFFILE, a NextToken strictly lowers the measure (remaining input, tokens not yet ENDOFFILE), except on a frozen `!`, where it changes only CurrentToken to PeekToken |
| Lexing.SymbolToken | Lexer.cs:60-114 | each of `+ - * / > < ( ) { } , ;` yields its own kind with the character as literal and advances by one |
| Lexing.EqualsOrAssign | Lexer.cs:48-59 | `==` is one EQUALS token and advances two; a lone `=` is ASSIGN and advances one |
| Lexing.Bang | Lexer.cs:76-82 | `!=` is DOESNOTEQUAL and advances two; `!` before another character yields nothing; a trailing `!` fails reading past the end |
| Lexing.IntegerToken | Lexer.cs:116-125 | a digit starts an INTEGER whose literal is the maximal digit run from there |
| Lexing.WordToken | Lexer.cs:127-143 | a letter starts the maximal letter-or-digit word; its kind is the keyword table's entry when listed, IDENTIFIER otherwise |
| Lexing.UnknownCharacter | Lexer.cs:146 | any other character fails, naming the character and its position |
| Lexing.NoWhitespaceInLiteral | Lexer.cs:35-143 | no token literal contains whitespace |
| Lexing.Rescan | Lexer.cs:45-147 | scanning a token's literal on its own gives back the same token and consumes all of it |
| Lexing.NextPeekToken | Lexer.cs:33-153 | given the first non-blank position at or after Position, one NextToken loads as PeekToken ENDOFFILE at the end of input, otherwise the token scanned there with Position just past it; a `!` without `=` keeps the old PeekToken, and an unknown character fails with the scanner's error |
| Lexing.EndOfInput | Lexer.cs:39-43 | once only whitespace is left, PeekToken becomes ENDOFFILE with an empty literal, the next call makes both tokens ENDOFFILE, and further calls change nothing |
| Lexing.FrozenStep | Lexer.cs:149-152 | on a `!` not followed by `=`, Position stays after the whitespace and PeekToken stays the same |
| Lexing.Lexer.Init | Lexer.cs:25-26 | the object starts at Position 0 with no tokens loaded |
| Lexing.Lexer.Create | Lexer.cs:23-31 | the constructor fails exactly when two NextToken steps from the start fail; otherwise the object's state is those two steps' result: CurrentToken is the first token, PeekToken the second |
| Lexing.Lexer.SkipWhitespace | Lexer.cs:155-161 | Position ends at the end of the whitespace run |
| Lexing.Lexer.ReadRun | Lexer.cs:118-123 | the text read is exactly the run's characters, and Position ends at the run's end |
| Lexing.Lexer.ScanNext | Lexer.cs:45-147 | the switch produces the token `ScanToken` predicts and moves Position to its end, or leaves Position alone on no token or failure |
| Lexing.Lexer.NextToken | Lexer.cs:33-153 | succeeds exactly when `Next` does and then holds its state; on failure the whitespace is skipped and PeekToken has already been shifted into CurrentToken |
| ParserSpec.Advance | Parser.cs:267 | a parser step succeeds with a parsable state of lower measure whose current token is the old peek token |
| ParserSpec.Expect | Parser.cs:261-268 | ExpectNextToken fails naming the expected and the actual kind when the peek token differs; otherwise it steps exactly one token |
| ParserSpec.ParseInt32 | Parser.cs:231 | int.Parse succeeds exactly when the decimal value fits in 2^31 - 1, and then returns that value |
| ParserSpec.ExprAt | Parser.cs:209-247 | an expression is present exactly when the current token starts a primary; without one nothing is consumed; every expression is right-nested |
| ParserSpec.BinaryTailAt | Parser.cs:241-246 | the result is a binary expression exactly when the peek token is one of the eight operators |
| ParserSpec.BinaryAt | Parser.cs:249-259 | the result keeps the given left operand and the peek token's kind as its operation, and stays right-nested |
| ParserSpec.CallAt | Parser.cs:154-158 | a function call with the given callee, ending on `)` |
| ParserSpec.CallArgsAt | Parser.cs:160-178 | the argument list ends on `)`, every argument right-nested |
| ParserSpec.ArgsFrom | Parser.cs:165-175 | the argument loop ends with `)` current |
| ParserSpec.ArgumentAt | Parser.cs:167-174 | one argument and the step past it strictly lower the measure |
| ParserSpec.PastArgument | Parser.cs:170-174 | unless `)` follows, a missing `,` fails naming the token found |
| ParserSpec.StatementAt | Parser.cs:43-58 | a statement is of the kind its first token selects, keeps that token, and ends on its own `;` or `}` |
| ParserSpec.VarAt | Parser.cs:60-74 | a var statement names the identifier after `var` and ends on `;` |
| ParserSpec.ReturnAt | Parser.cs:76-85 | a return statement keeps `return` and ends on `;` |
| ParserSpec.IfHeadAt | Parser.cs:89-100 | the condition and the first block end on `}` |
| ParserSpec.IfElseAt | Parser.cs:87-113 | an if statement keeps `if` and ends on a `}` |
| ParserSpec.FunctionAt | Parser.cs:115-152 | a declaration's name is the token after `function`; it ends on `}` or on a following `;`, and it never ends on `}` with `;` still next |
| ParserSpec.ParamsFrom | Parser.cs:125-140 | the parameter loop ends with `)` current |
| ParserSpec.ParameterAt | Parser.cs:128-139 | the parameter is the token after the current one, and the turn ends on `,` or `)` |
| ParserSpec.BlockAt | Parser.cs:180-198 | a block ends on `}` |
| ParserSpec.StatementsUntil | Parser.cs:186-195 | the statement loop ends with the stop token current |
| ParserSpec.StatementStep | Parser.cs:32-37 | a statement and the step after it strictly lower the measure |
| ParserSpec.ExpressionStatementAt | Parser.cs:200-207 | an expression statement keeps its first token and ends on `;` |
| ParserSpec.ProgramAt | Parser.cs:26-41 | a program ends with ENDOFFILE current |
| Parsing.Parser.constructor | Parser.cs:21-24 | the parser works on the given lexer |
| Parsing.Parser.NextToken | Lexer.cs:33-153 | the lexer object moves exactly as `Advance` predicts, or the call fails as it predicts |
| Parsing.Parser.ExpectNextToken | Parser.cs:261-268 | the lexer object moves exactly as `Expect` predicts |
| Parsing.Parser.ParseProgram | Parser.cs:26-41 | returns the program `ProgramAt` gives from the starting state and leaves the lexer where it predicts |
| Parsing.Parser.ParseStatementStep | Parser.cs:32-37 | agrees with `StatementStep` |
| Parsing.Parser.ParseStatement | Parser.cs:43-58 | agrees with `StatementAt` |
| Parsing.Parser.ParseVarStatement | Parser.cs:60-74 | agrees with `VarAt` |
| Parsing.Parser.ParseReturnStatement | Parser.cs:76-85 | agrees with `ReturnAt` |
| Parsing.Parser.ParseIfElseStatement | Parser.cs:87-113 | agrees with `IfElseAt` |
| Parsing.Parser.ParseIfHead | Parser.cs:89-100 | agrees with `IfHeadAt` |
| Parsing.Parser.ParseFunctionStatement | Parser.cs:115-152 | agrees with `FunctionAt` |
| Parsing.Parser.ParseFunctionCall | Parser.cs:154-158 | agrees with `CallAt` |
| Parsing.Parser.ParseFunctionCallParameters | Parser.cs:160-178 | agrees with `CallArgsAt` |
| Parsing.Parser.SkipPastArgument | Parser.cs:170-174 | agrees with `PastArgument` |
| Parsing.Parser.ParseBlockStatement | Parser.cs:180-198 | agrees with `BlockAt` |
| Parsing.Parser.ParseExpressionStatement | Parser.cs:200-207 | agrees with `ExpressionStatementAt` |
| Parsing.Parser.ParseExpression | Parser.cs:209-247 | agrees with `ExprAt` |
| Parsing.Parser.ParseBinaryExpression | Parser.cs:249-259 | agrees with `BinaryAt` |
| ParserProperties.AdvanceIsNextToken | Lexer.cs:149-152 | a parser step stalls only on a frozen `!`; everywhere else it is exactly Lexer.NextToken |
| ParserProperties.StatementsStep | Parser.cs:30-38 | one turn of the statement loop: stop on the stop token, fail with the statement's error, or continue with the statement appended |
| ParserProperties.FirstStatementFails | Parser.cs:30-32 | ParseProgram fails with the error of a first statement that fails |
| ParserProperties.StatementDispatch | Parser.cs:43-58 | VAR, RETURN, IF and FUNCTION select their productions; every other token selects the expression statement |
| ParserProperties.LastStatement | Parser.cs:186-195 | a loop that meets its stop token right after a statement ends with that statement appended |
| ParserProperties.SingleStatementProgram | Parser.cs:26-41 | a statement followed by the end of input is a program of that statement alone |
| ParserProperties.StatementsInOrder | Parser.cs:26-41 | statements are kept in source order: the list so far is a prefix of the result, and the rest is what parsing from the current state alone gives |
| ParserProperties.ArgumentsStep | Parser.cs:165-175 | one turn of the argument loop, or where it stops |
| ParserProperties.ArgumentsInOrder | Parser.cs:160-178 | call arguments are kept in source order |
| ParserProperties.ParametersStep | Parser.cs:126-140 | one turn of the parameter loop, or where it stops |
| ParserProperties.ParametersInOrder | Parser.cs:125-140 | declaration parameters are kept in source order |
| ParserProperties.PrimaryExpressions | Parser.cs:209-239 | with no operator next, INTEGER becomes its 32-bit value, TRUE/FALSE become Bool of `kind == TRUE`, an identifier not followed by `(` becomes an Identifier, and none consumes a token |
| ParserProperties.IntegerOverflowFails | Parser.cs:231 | a literal beyond 2^31 - 1 fails, whatever follows it |
| ParserProperties.IntegerExpression | Parser.cs:230-232 | an in-range integer literal is the left operand of whatever follows |
| ParserProperties.IdentifierExpression | Parser.cs:216-229 | an identifier followed by an operator is the left operand of what follows |
| ParserProperties.CallExpression | Parser.cs:216-223 | an identifier followed by `(` is a call with that identifier as callee, and the call is the left operand of what follows; a failing call or step fails the expression |
| ParserProperties.OperatorTakesRestAsRightOperand | Parser.cs:241-259 | after a primary, an operator in peek position gives a binary expression with that operation whose right operand is the expression two tokens on, so chains nest to the right |
| ParserProperties.BinaryRightOperand | Parser.cs:249-259 | the right operand of ParseBinaryExpression is the expression two tokens on |
| ParserProperties.EmptyArgumentList | Parser.cs:160-178 | `f()` has zero arguments |
| ParserProperties.EmptyParameterList | Parser.cs:126-135 | with `()`, the parameter loop records `)` as a parameter and fails on a missing comma unless `,` or `)` follows |
| ParserProperties.AnonymousFunctionRejected | Parser.cs:117-123 | `function (` takes `(` as the name and fails expecting `(` where the next token stands |
| ParserProperties.ExpressionStatementNeedsSemicolon | Parser.cs:200-207 | without `;` after its expression, an expression statement fails naming the token found; with it, the statement ends on that `;` |
| ParserProperties.ReturnNeedsSemicolon | Parser.cs:76-85 | a return statement without `;` fails naming the token found |
| ParserProperties.VarNeedsSemicolon | Parser.cs:60-74 | a var statement without `;` after its value fails naming the token found |
| ParserProperties.IfNeedsOpeningParenthesis | Parser.cs:91 | `if` not followed by `(` fails naming the token found |
| ParserProperties.IfNeedsClosingParenthesis | Parser.cs:94-98 | a condition not followed by `)`, or a `)` not followed by `{`, fails naming the token found |
| ParserProperties.ElseExactlyWhenElseFollows | Parser.cs:102-112 | the else block is present exactly when ELSE follows the consequence's `}`; without it the statement ends on that `}` |
| ParserProperties.FunctionEndsOnBody | Parser.cs:115-152 | once the name, `(`, parameters, `{` and body have parsed and no `;` follows, the declaration is the `function` token, the name (the token after `function`), the parameters and the body, and it ends on the body's `}` |
| ParserProperties.FunctionConsumesSemicolon | Parser.cs:145-151 | with a `;` after the body, the declaration ends on that `;` (never on a `}` with a `;` after it) and holds the same parts, or fails with the error of the step onto the `;` |
| Evaluation.Wrap32 | Evaluator.cs:68 | C# unchecked `int` addition: congruent to the exact value modulo 2^32, and equal to it when it fits |
| Evaluation.EvaluateExpression | Evaluator.cs:38-54 | only a present expression that is not an identifier or a call can evaluate |
| Evaluation.EvaluateBinaryExpression | Evaluator.cs:56-75 | a binary expression evaluates only to an integer object |
| Evaluation.EvaluateStatement | Evaluator.cs:29-36 | only an expression statement evaluates |
| Evaluation.StatementValue | Evaluator.cs:31-35 | a statement evaluates exactly when it is an expression statement whose expression evaluates, and then to that expression's object |
| Evaluation.Evaluate | Evaluator.cs:17-27 | the loop's result is `EvaluateAll` of the statements |
| Evaluation.FailureStops | Evaluator.cs:21-24 | once a prefix of the program fails, the whole program fails with that exception |
| Evaluation.LastResult | Evaluator.cs:17-27 | a program succeeds exactly when every statement does, and yields the last statement's value, or null for no statements |
| Evaluation.FirstError | Evaluator.cs:21-24 | a failing program fails with the exception of its first failing statement |
| Evaluation.EvaluatesExactly | Evaluator.cs:38-54 | evaluation succeeds exactly on integer and boolean literals and `+` between two integer literals |
| Evaluation.LiteralValues | Evaluator.cs:42-45 | an Integer evaluates to an IntegerObject of its value, a Bool to a BoolObject of its value |
| Evaluation.GuardRejectsNonLiterals | Evaluator.cs:58-61 | for `* + - / > <`, an operand node that is not an Integer literal fails, an identifier included |
| Evaluation.PlusOnLiterals | Evaluator.cs:65-68 | `+` on two Integer literals is their 32-bit sum, and their exact sum when it fits |
| Evaluation.ChainsNeverEvaluate | Evaluator.cs:58-61 | a chain of integer-only operators has a binary right operand and so always fails |
| Interpreter.ParseSource | Program.cs:11-15 | a lexer failure in the constructor is the result; a first token that cannot be read leaves CurrentToken null and ParseProgram fails on it |
| Interpreter.Parse | Program.cs:11-15 | building the objects and calling ParseProgram gives `ParseSource` |
| Interpreter.Interpret | Program.cs:11-16 | parsing then evaluating gives `Run` |
| ParseScenarios.CallArguments | Parser.cs:160-178 | in every text "f(x, 2);" the arguments after `(` are `x` then `2`, in that order, and the loop stops on `)` |
| ParseScenarios.CallParsesExpression | Parser.cs:209-227 | in every text "f(x, 2);" the expression at `f` is a call of f that keeps the `(` token and holds the arguments `x` and `2`, ending on `)` |
| ParseScenarios.CallParses | test/interpreter_from_scratch_test/ParserTests.cs:270-313 | every text "f(x, 2);" parses to one expression statement holding the call of f on `x` and `2` |
| ParseScenarios.ParseCall | test/interpreter_from_scratch_test/ParserTests.cs:270-313 | "f(x, 2);" parses to a call with two arguments in source order |
| ParseScenarios.IfStatement | Parser.cs:87-113 | in every text "if (x) {} else {}" the if statement has condition `x`, an empty consequence and an empty alternative, and ends on the last `}` |
| ParseScenarios.IfParses | test/interpreter_from_scratch_test/ParserTests.cs:170-233 | every text "if (x) {} else {}" parses to one if statement with an else block, with no `;` after it |
| ParseScenarios.ParseIf | test/interpreter_from_scratch_test/ParserTests.cs:170-233 | "if (x) {} else {}" parses to an if statement with both blocks |
| ParseScenarios.DeclarationParameters | Parser.cs:125-140 | in every text "function f(x, y) {}" the parameters are `x` then `y`, in that order, and the loop stops on `)` |
| ParseScenarios.DeclarationStatement | Parser.cs:115-152 | in every text "function f(x, y) {}" the declaration names f, has parameters `x` and `y` and an empty body, and ends on `}` since no `;` follows |
| ParseScenarios.DeclarationParses | Parser.cs:26-58 | every text "function f(x, y) {}" parses to one declaration of f with parameters `x` and `y` |
| ParseScenarios.ParseDeclaration | Parser.cs:115-152 | "function f(x, y) {}" parses to a declaration with two parameters in source order |
| Scenarios.FiveParses | test/interpreter_from_scratch_test/EvaluatorTests.cs:8 | a text "5;" parses to one expression statement holding the integer 5 |
| Scenarios.IntegerStatementEvaluates | test/interpreter_from_scratch_test/EvaluatorTests.cs:8 | "5;" runs to the integer object 5 |
| Scenarios.VarFails | test/interpreter_from_scratch_test/ParserTests.cs:8 | a text "var x = 5" fails, expecting `;` at the end of input |
| Scenarios.VarWithoutSemicolonFails | test/interpreter_from_scratch_test/ParserTests.cs:8 | "var x = 5" fails to parse |
| Scenarios.AdditionParses | test/interpreter_from_scratch_test/EvaluatorTests.cs:44 | a text "5 + 3;" parses to one statement holding 5 PLUS 3 |
| Scenarios.AdditionEvaluates | test/interpreter_from_scratch_test/EvaluatorTests.cs:44 | "5 + 3;" runs to the integer object 8 |
| Scenarios.EmptyParameterListRejected | Parser.cs:126-135 | every text that starts "function f() {" fails, expecting a comma where `{` stands |
| Scenarios.EmptyFunctionRejected | Parser.cs:126-135 | "function f() {}" fails to parse |
| Scenarios.AnonymousFunctionFails | test/interpreter_from_scratch_test/ParserTests.cs:238-243 | every text that is whitespace followed by "function(x," fails, expecting `(` where `x` stands |
| Scenarios.BangStalls | Lexer.cs:149-152 | after "5;" a `!` not followed by `=` makes the step onto `;` stall |
| Scenarios.FrozenFails | Lexer.cs:76-82 | every text that starts "5;!" with no `=` after the `!` stalls at position 2 |
| Scenarios.FrozenLexerStalls | Lexer.cs:76-82 | "5;!x" stalls at position 2 |
| Scenarios.TrailingBangFails | Lexer.cs:77 | "!" fails, reading index 1 |

## Left out

- Program.cs: reading the file, the REPL loop and printing are I/O. `Interpret` takes the text as a parameter.
- Program.cs:16 calls an `Evaluate(program, environment)` overload that Evaluator.cs does not define. `Interpret` uses `Evaluate(InterpreterProgram)`.
- Evaluator features the code does not contain fail with `Unsupported`. These are identifiers, function calls, var/return/if/function statements, and the operators `-`, `*`, `/`, `>`, `<`, `==` and `!=`.
- Environments, closures and return objects (EnvironmentVariables.cs, FunctionObject.cs, ReturnObject.cs) have no operations and are not part of this model.
- Evaluation.EvaluateExpression: the BinaryExpression arm at Evaluator.cs:46 is empty and does not compile. It is routed to `EvaluateBinaryExpression`, the only reading that gives the arm an effect.
- Character classes: `char.IsNumber`, `char.IsLetter` and `char.IsWhiteSpace` are ASCII predicates. Unicode categories are not modelled.
- Exception text: each exception is a tagged `Error` value, not a message.
- ParserSpec.Advance: a step that makes no progress on a frozen `!` is reported as `Stalled`. After that step the C# parser loops forever or throws some later exception. Which one is not modelled; in both cases no program is returned.
- Lexing.Lexer.NextToken: the fields are models of C# properties with setters. Writes from outside the class are not modelled.
- Test expectations the code does not meet are proved as the code behaves. The tests themselves are not modelled. Two examples:
  - ParserTests.cs:238-243 expects the anonymous function to parse.
  - EvaluatorTests.cs:19, like Program.cs:16, calls an `Evaluate(program, environment)` overload that Evaluator.cs does not define. The scenarios use `Evaluate(InterpreterProgram)`.
