/**
 * The written parts of Evaluator.cs: the program loop, literal evaluation,
 * the integer-only operator guard and `+`. Every construct the evaluator
 * has no code for fails with Unsupported.
 */
module Evaluation {
  import opened Wrappers
  import opened Tokens
  import opened Ast

  /** IntegerObject and BoolObject (Evaluation/IntegerObject.cs, BoolObject.cs). */
  datatype InterpreterObject = IntegerObject(value: int32) | BoolObject(truth: bool)

  /** The operators that accept only integer operands (Evaluator.cs:8-15). */
  const IntegerOnlyOperators: set<TokenType> := {ASTERISK, PLUS, MINUS, SLASH, GREATERTHAN, LESSTHAN}

  const TwoTo32: int := 0x1_0000_0000

  /** C#'s unchecked `int` arithmetic: `x` reduced into the 32-bit range. */
  function Wrap32(x: int): (r: int32)
    ensures (r as int - x) % TwoTo32 == 0
    ensures -0x8000_0000 <= x < 0x8000_0000 ==> r as int == x
  {
    var m := x % TwoTo32;
    if m < 0x8000_0000 then m as int32 else (m - TwoTo32) as int32
  }

  /** Evaluate(Expression) (Evaluator.cs:38-54); a missing expression is Unsupported too. */
  function EvaluateExpression(e: Option<Expression>): (r: Result<InterpreterObject, Error>)
    ensures r.Ok? ==> e.Some? && !e.value.Ident? && !e.value.FunctionCall?
  {
    match e
    case None => Err(Unsupported("null expression"))
    case Some(Integer(_, value)) => Ok(IntegerObject(value))
    case Some(Bool(_, truth)) => Ok(BoolObject(truth))
    case Some(BinaryExpression(_, _, _)) => EvaluateBinaryExpression(e.value)
    case Some(Ident(_)) => Err(Unsupported("identifier"))
    case Some(FunctionCall(_, _, _)) => Err(Unsupported("function call"))
  }

  /**
   * EvaluateBinaryExpression (Evaluator.cs:56-75). The guard inspects the
   * operand nodes, not their values. When it fires on a missing right
   * operand, building the exception message dereferences null first.
   */
  function EvaluateBinaryExpression(e: Expression): (r: Result<InterpreterObject, Error>)
    requires e.BinaryExpression?
    ensures r.Ok? ==> r.value.IntegerObject?
  {
    var right := e.right;
    if e.operation in IntegerOnlyOperators && (!e.left.Integer? || right.None? || !right.value.Integer?) then
      if right.None? then Err(NullReference) else Err(OnlyIntegers(e.operation))
    else if e.operation == PLUS then
      Ok(IntegerObject(Wrap32(e.left.value as int + right.value.value as int)))
    else
      Err(Unsupported("operator"))
  }

  /** Evaluate(Statement) (Evaluator.cs:29-36): only an expression statement has code. */
  function EvaluateStatement(st: Statement): (r: Result<InterpreterObject, Error>)
    ensures r.Ok? ==> st.ExpressionStatement?
  {
    match st
    case ExpressionStatement(_, expression) => EvaluateExpression(expression)
    case _ => Err(Unsupported("statement"))
  }

  /**
   * What Evaluate(program) returns for `stmts`: the result of the last
   * statement, None for no statements, or the first statement's exception.
   */
  function EvaluateAll(stmts: seq<Statement>): Result<Option<InterpreterObject>, Error> {
    if stmts == [] then Ok(None)
    else
      var _ :- EvaluateAll(stmts[..|stmts| - 1]);
      var v :- EvaluateStatement(stmts[|stmts| - 1]);
      Ok(Some(v))
  }

  /** Evaluate(InterpreterProgram) (Evaluator.cs:17-27). */
  method Evaluate(program: InterpreterProgram) returns (r: Result<Option<InterpreterObject>, Error>)
    ensures r == EvaluateAll(program.statements)
  {
    var stmts := program.statements;
    var result: Option<InterpreterObject> := None;
    for i := 0 to |stmts|
      invariant EvaluateAll(stmts[..i]) == Ok(result)
    {
      assert stmts[..i + 1][..i] == stmts[..i];
      var v := EvaluateStatement(stmts[i]);
      if v.Err? {
        FailureStops(stmts, i + 1);
        return Err(v.error);
      }
      result := Some(v.value);
    }
    assert stmts[..|stmts|] == stmts;
    return Ok(result);
  }

  /** Once a prefix of the program fails, the whole program fails with that exception. */
  lemma {:induction false} FailureStops(stmts: seq<Statement>, n: nat)
    requires n <= |stmts| && EvaluateAll(stmts[..n]).Err?
    ensures EvaluateAll(stmts) == EvaluateAll(stmts[..n])
    decreases |stmts| - n
  {
    if n == |stmts| {
      assert stmts[..n] == stmts;
    } else {
      assert stmts[..n + 1][..n] == stmts[..n];
      FailureStops(stmts, n + 1);
    }
  }

  /**
   * The program succeeds exactly when every statement does, and then yields
   * the last statement's value, or None for an empty program.
   */
  lemma {:induction false} LastResult(stmts: seq<Statement>)
    ensures EvaluateAll(stmts).Ok? <==> forall i :: 0 <= i < |stmts| ==> EvaluateStatement(stmts[i]).Ok?
    ensures EvaluateAll(stmts).Ok? && stmts == [] ==> EvaluateAll(stmts).value == None
    ensures EvaluateAll(stmts).Ok? && stmts != [] ==>
      EvaluateAll(stmts).value == Some(EvaluateStatement(stmts[|stmts| - 1]).value)
    decreases |stmts|
  {
    if stmts != [] {
      var init := stmts[..|stmts| - 1];
      LastResult(init);
      assert forall i :: 0 <= i < |init| ==> init[i] == stmts[i];
    }
  }

  /** A failing program fails with the exception of its first failing statement. */
  lemma {:induction false} FirstError(stmts: seq<Statement>)
    requires EvaluateAll(stmts).Err?
    ensures exists i ::
      && 0 <= i < |stmts|
      && EvaluateStatement(stmts[i]) == Err(EvaluateAll(stmts).error)
      && (forall j :: 0 <= j < i ==> EvaluateStatement(stmts[j]).Ok?)
    decreases |stmts|
  {
    var init := stmts[..|stmts| - 1];
    assert forall j :: 0 <= j < |init| ==> init[j] == stmts[j];
    if EvaluateAll(init).Err? {
      FirstError(init);
      var i :|
        && 0 <= i < |init|
        && EvaluateStatement(init[i]) == Err(EvaluateAll(init).error)
        && (forall j :: 0 <= j < i ==> EvaluateStatement(init[j]).Ok?);
      assert EvaluateStatement(stmts[i]) == Err(EvaluateAll(stmts).error);
    } else {
      LastResult(init);
      var i := |stmts| - 1;
      assert EvaluateStatement(stmts[i]) == Err(EvaluateAll(stmts).error);
    }
  }

  /**
   * Evaluation succeeds on exactly three kinds of expression: integer and
   * boolean literals, and `+` between two integer literals.
   */
  lemma EvaluatesExactly(e: Option<Expression>)
    ensures EvaluateExpression(e).Ok? <==>
      e.Some? && (e.value.Integer? || e.value.Bool? ||
        (e.value.BinaryExpression? && e.value.operation == PLUS && e.value.left.Integer? &&
         e.value.right.Some? && e.value.right.value.Integer?))
  {
  }

  /**
   * A statement evaluates exactly when it is an expression statement whose
   * expression evaluates, and then to that expression's object (Evaluator.cs:31-35).
   */
  lemma StatementValue(st: Statement)
    ensures EvaluateStatement(st).Ok? <==> st.ExpressionStatement? && EvaluateExpression(st.expression).Ok?
    ensures EvaluateStatement(st).Ok? ==> EvaluateStatement(st).value == EvaluateExpression(st.expression).value
  {
  }

  /** Literals evaluate to objects holding the literal's value (Evaluator.cs:42-45). */
  lemma LiteralValues(e: Expression)
    ensures e.Integer? ==> EvaluateExpression(Some(e)) == Ok(IntegerObject(e.value))
    ensures e.Bool? ==> EvaluateExpression(Some(e)) == Ok(BoolObject(e.truth))
  {
  }

  /**
   * The guard of Evaluator.cs:58-61 rejects every operand that is not an
   * integer literal node, an identifier or a nested expression included.
   */
  lemma GuardRejectsNonLiterals(left: Expression, op: TokenType, right: Expression)
    requires op in IntegerOnlyOperators && (!left.Integer? || !right.Integer?)
    ensures EvaluateBinaryExpression(BinaryExpression(left, op, Some(right))) == Err(OnlyIntegers(op))
  {
  }

  /** `+` on two integer literals is their 32-bit sum, and their exact sum when that fits. */
  lemma PlusOnLiterals(a: Expression, b: Expression)
    requires a.Integer? && b.Integer?
    ensures EvaluateExpression(Some(BinaryExpression(a, PLUS, Some(b)))) == Ok(IntegerObject(Wrap32(a.value as int + b.value as int)))
    ensures -0x8000_0000 <= a.value as int + b.value as int < 0x8000_0000 ==>
      EvaluateExpression(Some(BinaryExpression(a, PLUS, Some(b)))).value.value as int == a.value as int + b.value as int
  {
  }

  /**
   * Because the parser nests chains to the right, `a op b op c` has a binary
   * right operand, so for the integer-only operators it never evaluates.
   */
  lemma ChainsNeverEvaluate(e: Expression)
    requires e.BinaryExpression? && e.operation in IntegerOnlyOperators
    requires e.right.Some? && e.right.value.BinaryExpression?
    ensures EvaluateExpression(Some(e)) == Err(OnlyIntegers(e.operation))
  {
  }
}
