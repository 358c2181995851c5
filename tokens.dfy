/** Token kinds, tokens and the error kinds of the front end (TokenType.cs, Token.cs). */
module Tokens {

  /** The kinds of lexical unit, named as in TokenType.cs. */
  datatype TokenType =
    | IDENTIFIER | INTEGER | TRUE | FALSE
    | FUNCTION | VAR | IF | ELSE | RETURN
    | ASSIGN | EQUALS | DOESNOTEQUAL | GREATERTHAN | LESSTHAN
    | PLUS | MINUS | SLASH | ASTERISK
    | LEFTPAREN | RIGHTPAREN | LEFTBRACE | RIGHTBRACE | COMMA
    | SEMICOLON | ENDOFFILE

  /** An immutable token: its kind and the text it was read from. */
  datatype Token = Token(kind: TokenType, literal: string)

  /** The token the lexer hands out once the input is exhausted. */
  const EndOfFile: Token := Token(ENDOFFILE, "")

  /**
   * Every way the front end can fail. The C# code throws untyped
   * exceptions; each constructor names the throw site it stands for.
   */
  datatype Error =
      /** A character no rule accepts (the `throw` in Lexer.NextToken). */
    | UnknownToken(character: char, position: nat)
      /** A `!` as the last character: the lexer reads one past the end. */
    | IndexOutOfRange(index: nat)
      /** A `!` not followed by `=` froze the lexer; the C# parser then never completes successfully. */
    | Stalled(position: nat)
      /** ExpectNextToken saw another kind of token than the one it needed. */
    | UnexpectedToken(expected: TokenType, actual: TokenType)
      /** int.Parse rejected a digit run that does not fit in 32 bits. */
    | IntegerOverflow(literal: string)
      /** A null reference was dereferenced. */
    | NullReference
      /** An integer-only operator was applied to a node that is not an integer literal. */
    | OnlyIntegers(operation: TokenType)
      /** A case the evaluator's source leaves unwritten. */
    | Unsupported(construct: string)
}
