/**
 * The pipeline of Program.cs:11-16: build a Lexer over the text, parse the
 * program with a Parser on it, and evaluate the program.
 */
module Interpreter {
  import opened Wrappers
  import opened Tokens
  import opened Lexing
  import opened Ast
  import opened ParserSpec
  import opened Parsing
  import opened Evaluation

  /**
   * `new Parser(new Lexer(text)).ParseProgram()`. A text whose first token
   * cannot be scanned leaves CurrentToken null, and ParseProgram's first
   * look at it throws.
   */
  function ParseSource(input: string): (r: Result<InterpreterProgram, Error>)
    ensures Start(input).Err? ==> r == Err(Start(input).error)
    ensures Start(input).Ok? && Start(input).value.cur.None? ==> r == Err(NullReference)
  {
    var s :- Start(input);
    if s.cur.None? then Err(NullReference)
    else
      var p :- ProgramAt(s);
      Ok(p.value)
  }

  /** The constructor calls and ParseProgram, on objects. */
  method Parse(input: string) returns (r: Result<InterpreterProgram, Error>)
    ensures r == ParseSource(input)
  {
    var created := Lexer.Create(input);
    if created.Err? {
      return Err(created.error);
    }
    var lexer := created.value;
    if lexer.current.None? {
      return Err(NullReference);
    }
    var parser := new Parser(lexer);
    r := parser.ParseProgram();
  }

  /** What running a source text gives: the last statement's value, if any, or the first exception. */
  function Run(input: string): Result<Option<InterpreterObject>, Error> {
    var program :- ParseSource(input);
    EvaluateAll(program.statements)
  }

  /** Program.cs:11-16 without the file read and the printing. */
  method Interpret(input: string) returns (r: Result<Option<InterpreterObject>, Error>)
    ensures r == Run(input)
  {
    var program :- Parse(input);
    r := Evaluate(program);
  }
}
