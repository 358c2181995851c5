/**
 * The lexer of Lexer.cs: a cursor over the input with a two-token window.
 * The functions below specify one NextToken step on an abstract state;
 * class Lexer is the imperative object, proved to follow them.
 */
module Lexing {
  import opened Wrappers
  import opened Tokens

  // ----- character classes (ASCII stand-ins for char.IsWhiteSpace, IsNumber/IsDigit, IsLetter)

  predicate IsWhiteSpace(c: char) { c == ' ' || '\t' <= c <= '\r' }
  predicate IsDigit(c: char) { '0' <= c <= '9' }
  predicate IsLetter(c: char) { 'A' <= c <= 'Z' || 'a' <= c <= 'z' }
  predicate IsLetterOrDigit(c: char) { IsLetter(c) || IsDigit(c) }

  /** The classes of character the lexer reads runs of: whitespace, a number, a word. */
  datatype CharClass = WhiteSpace | Digits | LettersOrDigits

  predicate InClass(c: char, cls: CharClass) {
    match cls
    case WhiteSpace => IsWhiteSpace(c)
    case Digits => IsDigit(c)
    case LettersOrDigits => IsLetterOrDigit(c)
  }

  /** The keyword table of Lexer.cs. */
  const Keywords: map<string, TokenType> := map[
    "var" := VAR, "true" := TRUE, "false" := FALSE, "if" := IF,
    "else" := ELSE, "function" := FUNCTION, "return" := RETURN]

  /** The kind of a scanned word: its keyword entry, or IDENTIFIER. */
  function WordKind(w: string): TokenType {
    if w in Keywords then Keywords[w] else IDENTIFIER
  }

  /** The one-character tokens, as a table (the switch in NextToken spells them out case by case). */
  const Symbols: map<char, TokenType> := map[
    '=' := ASSIGN, '+' := PLUS, '-' := MINUS, '*' := ASTERISK, '/' := SLASH,
    '>' := GREATERTHAN, '<' := LESSTHAN, '(' := LEFTPAREN, ')' := RIGHTPAREN,
    '{' := LEFTBRACE, '}' := RIGHTBRACE, ',' := COMMA, ';' := SEMICOLON]

  /**
   * The kind that a complete token text denotes, stated independently of
   * the scanner: the two-character operators, the symbol table, digit runs
   * and words.
   */
  function Classify(w: string): TokenType {
    if w == "==" then EQUALS
    else if w == "!=" then DOESNOTEQUAL
    else if |w| == 1 && w[0] in Symbols then Symbols[w[0]]
    else if |w| > 0 && IsDigit(w[0]) then INTEGER
    else WordKind(w)
  }

  predicate AllDigits(w: string) { forall i :: 0 <= i < |w| ==> IsDigit(w[i]) }

  /** What the parser may assume of a token handed out by the lexer. */
  predicate WellFormed(t: Token) {
    t.kind == INTEGER ==> |t.literal| > 0 && AllDigits(t.literal)
  }

  /**
   * The end of the maximal run of characters of class `cls` that starts
   * at `pos` (the while loops of SkipWhitespace and of the digit and word
   * scanners).
   */
  function RunEnd(input: string, pos: nat, cls: CharClass): (e: nat)
    requires pos <= |input|
    ensures pos <= e <= |input|
    ensures forall k :: pos <= k < e ==> InClass(input[k], cls)
    ensures e == |input| || !InClass(input[e], cls)
    decreases |input| - pos
  {
    if pos < |input| && InClass(input[pos], cls) then RunEnd(input, pos + 1, cls) else pos
  }

  /** What scanning one token at a non-blank position does. */
  datatype Scan =
    | Produced(token: Token, next: nat)
      /** `!` not followed by `=`: no token, the position does not move. */
    | NoToken
    | ScanFailed(error: Error)

  /**
   * The switch of NextToken (Lexer.cs:45-147) at position `pos`. A produced
   * token is read from exactly the text it spans, and its kind is the one
   * that text denotes.
   */
  function ScanToken(input: string, pos: nat): (r: Scan)
    requires pos < |input|
    ensures r.Produced? ==> pos < r.next <= |input| && r.token.literal == input[pos..r.next]
    ensures r.Produced? ==> r.token.kind == Classify(r.token.literal) && WellFormed(r.token)
    ensures r.NoToken? ==> input[pos] == '!' && pos + 1 < |input| && input[pos + 1] != '='
  {
    var c := input[pos];
    SingleCharacter(input, pos);
    match c
    case '=' =>
      if pos < |input| - 1 && input[pos + 1] == '=' then Produced(Token(EQUALS, "=="), pos + 2)
      else Produced(Token(ASSIGN, "="), pos + 1)
    case '+' => Produced(Token(PLUS, "+"), pos + 1)
    case '-' => Produced(Token(MINUS, "-"), pos + 1)
    case '*' => Produced(Token(ASTERISK, "*"), pos + 1)
    case '/' => Produced(Token(SLASH, "/"), pos + 1)
    case '!' =>
      if pos + 1 >= |input| then ScanFailed(IndexOutOfRange(pos + 1))
      else if input[pos + 1] == '=' then Produced(Token(DOESNOTEQUAL, "!="), pos + 2)
      else NoToken
    case '>' => Produced(Token(GREATERTHAN, ">"), pos + 1)
    case '<' => Produced(Token(LESSTHAN, "<"), pos + 1)
    case '(' => Produced(Token(LEFTPAREN, "("), pos + 1)
    case ')' => Produced(Token(RIGHTPAREN, ")"), pos + 1)
    case '{' => Produced(Token(LEFTBRACE, "{"), pos + 1)
    case '}' => Produced(Token(RIGHTBRACE, "}"), pos + 1)
    case ',' => Produced(Token(COMMA, ","), pos + 1)
    case ';' => Produced(Token(SEMICOLON, ";"), pos + 1)
    case _ => ScanRun(input, pos)
  }

  /** The default arm of the switch (Lexer.cs:116-143): a number, a word, or an unknown character. */
  function ScanRun(input: string, pos: nat): (r: Scan)
    requires pos < |input|
    ensures r.Produced? ==> pos < r.next <= |input| && r.token.literal == input[pos..r.next]
    ensures r.Produced? ==> r.token.kind == Classify(r.token.literal) && WellFormed(r.token)
    ensures !r.NoToken?
  {
    var c := input[pos];
    if IsDigit(c) then
      var e := RunEnd(input, pos, Digits);
      Produced(Token(INTEGER, input[pos..e]), e)
    else if IsLetter(c) then
      var e := RunEnd(input, pos, LettersOrDigits);
      Produced(Token(WordKind(input[pos..e]), input[pos..e]), e)
    else ScanFailed(UnknownToken(c, pos))
  }

  /** The one-character text at `pos`. */
  lemma SingleCharacter(input: string, pos: nat)
    requires pos < |input|
    ensures input[pos..pos + 1] == [input[pos]]
    ensures input[pos] in Symbols ==> Classify([input[pos]]) == Symbols[input[pos]]
  {
  }

  /**
   * The lexer's state: the input, Position, CurrentToken and PeekToken.
   * The tokens are absent (null) until the constructor has loaded them.
   */
  datatype LexState = LexState(input: string, pos: nat, cur: Option<Token>, peek: Option<Token>)

  predicate IsEof(t: Option<Token>) { t.Some? && t.value.kind == ENDOFFILE }

  predicate TokenOk(t: Option<Token>) { t.Some? ==> WellFormed(t.value) }

  /** The invariant every reachable lexer state keeps. */
  predicate Wf(s: LexState) {
    && s.pos <= |s.input|
    && (IsEof(s.peek) ==> s.pos == |s.input|)
    && (IsEof(s.cur) ==> IsEof(s.peek))
    && TokenOk(s.cur) && TokenOk(s.peek)
  }

  /** The state right after `Position = 0`, before any token is loaded. */
  function Initial(input: string): LexState {
    LexState(input, 0, None, None)
  }

  /**
   * One NextToken call (Lexer.cs:33-153): skip whitespace, shift the peek
   * token into the current one, then scan a new peek token. Position only
   * moves forward and stays within the input.
   */
  function Next(s: LexState): (r: Result<LexState, Error>)
    requires Wf(s)
    ensures r.Ok? ==> Wf(r.value) && r.value.input == s.input
    ensures r.Ok? ==> s.pos <= r.value.pos && r.value.cur == s.peek
    ensures r.Ok? && s.peek.Some? ==> r.value.peek.Some?
  {
    var p := RunEnd(s.input, s.pos, WhiteSpace);
    if p >= |s.input| then Ok(LexState(s.input, p, s.peek, Some(EndOfFile)))
    else
      match ScanToken(s.input, p)
      case Produced(t, q) => Ok(LexState(s.input, q, s.peek, Some(t)))
      case NoToken => Ok(LexState(s.input, p, s.peek, s.peek))
      case ScanFailed(e) => Err(e)
  }

  /** The constructor: two NextToken calls from the initial state (Lexer.cs:23-31). */
  function Start(input: string): Result<LexState, Error> {
    var s1 :- Next(Initial(input));
    Next(s1)
  }

  // ----- progress

  function EofRank(t: Option<Token>): nat { if IsEof(t) then 0 else 1 }

  /** Decreases with every NextToken call that makes progress. */
  function Measure(s: LexState): nat
    requires s.pos <= |s.input|
  {
    3 * (|s.input| - s.pos) + EofRank(s.cur) + EofRank(s.peek)
  }

  /** The lexer is frozen: the next character is a `!` that no `=` follows. */
  predicate FrozenAt(input: string, p: nat) {
    p + 1 < |input| && input[p] == '!' && input[p + 1] != '='
  }

  /**
   * Unless the current token is already ENDOFFILE, a successful NextToken
   * lowers the measure, except when it stands on a `!` not followed by `=`:
   * then it moves nothing and leaves the current token equal to the peek token.
   */
  lemma {:induction false} NextProgress(s: LexState)
    requires Wf(s) && !IsEof(s.cur) && Next(s).Ok?
    ensures Measure(Next(s).value) < Measure(s) || (FrozenAt(s.input, s.pos) && Next(s).value == LexState(s.input, s.pos, s.peek, s.peek))
  {
    var p := RunEnd(s.input, s.pos, WhiteSpace);
    if p < |s.input| {
      match ScanToken(s.input, p)
      case Produced(t, q) =>
        assert !IsEof(Some(t));
      case NoToken =>
        if p == s.pos {
          assert FrozenAt(s.input, s.pos);
        }
      case ScanFailed(_) =>
    }
  }

  // ----- properties of one step

  /** Each one-character symbol yields its own kind with the character as literal and advances by one. */
  lemma SymbolToken(input: string, pos: nat)
    requires pos < |input| && input[pos] in Symbols && input[pos] != '='
    ensures ScanToken(input, pos) == Produced(Token(Symbols[input[pos]], [input[pos]]), pos + 1)
  {
  }

  /** `==` is one EQUALS token and advances by two; a lone `=` is ASSIGN and advances by one. */
  lemma EqualsOrAssign(input: string, pos: nat)
    requires pos < |input| && input[pos] == '='
    ensures pos + 1 < |input| && input[pos + 1] == '=' ==> ScanToken(input, pos) == Produced(Token(EQUALS, "=="), pos + 2)
    ensures !(pos + 1 < |input| && input[pos + 1] == '=') ==> ScanToken(input, pos) == Produced(Token(ASSIGN, "="), pos + 1)
  {
  }

  /**
   * `!=` is DOESNOTEQUAL and advances by two; a `!` followed by anything else
   * yields nothing; a trailing `!` reads past the end of the input.
   */
  lemma Bang(input: string, pos: nat)
    requires pos < |input| && input[pos] == '!'
    ensures pos + 1 == |input| ==> ScanToken(input, pos) == ScanFailed(IndexOutOfRange(pos + 1))
    ensures pos + 1 < |input| && input[pos + 1] == '=' ==> ScanToken(input, pos) == Produced(Token(DOESNOTEQUAL, "!="), pos + 2)
    ensures pos + 1 < |input| && input[pos + 1] != '=' ==> ScanToken(input, pos) == NoToken
  {
  }

  /** A digit starts an INTEGER token whose literal is the maximal digit run from there. */
  lemma IntegerToken(input: string, pos: nat)
    requires pos < |input| && IsDigit(input[pos])
    ensures var r := ScanToken(input, pos);
      && r.Produced? && r.token.kind == INTEGER && r.token.literal == input[pos..r.next]
      && AllDigits(r.token.literal) && (r.next == |input| || !IsDigit(input[r.next]))
  {
  }

  /**
   * A letter starts a word of letters and digits, the maximal such run; it is
   * a keyword exactly when the table lists it, otherwise an IDENTIFIER.
   */
  lemma WordToken(input: string, pos: nat)
    requires pos < |input| && IsLetter(input[pos])
    ensures var r := ScanToken(input, pos);
      && r.Produced? && r.token.literal == input[pos..r.next]
      && (forall k :: pos <= k < r.next ==> IsLetterOrDigit(input[k]))
      && (r.next == |input| || !IsLetterOrDigit(input[r.next]))
      && (r.token.literal in Keywords ==> r.token.kind == Keywords[r.token.literal])
      && (r.token.literal !in Keywords ==> r.token.kind == IDENTIFIER)
  {
  }

  /** Any other character fails, naming the character and its position. */
  lemma UnknownCharacter(input: string, pos: nat)
    requires pos < |input|
    requires input[pos] !in Symbols && input[pos] != '!' && !IsDigit(input[pos]) && !IsLetter(input[pos])
    ensures ScanToken(input, pos) == ScanFailed(UnknownToken(input[pos], pos))
  {
  }

  /** Whitespace never ends up inside a token: every literal is free of it. */
  lemma {:induction false} NoWhitespaceInLiteral(input: string, pos: nat)
    requires pos < |input| && ScanToken(input, pos).Produced?
    ensures forall k :: 0 <= k < |ScanToken(input, pos).token.literal| ==> !IsWhiteSpace(ScanToken(input, pos).token.literal[k])
  {
    var r := ScanToken(input, pos);
    var w := r.token.literal;
    var c := input[pos];
    if IsDigit(c) && c !in Symbols {
      assert AllDigits(w);
    } else if IsLetter(c) {
      assert forall k :: pos <= k < r.next ==> IsLetterOrDigit(input[k]);
      assert forall k :: 0 <= k < |w| ==> w[k] == input[pos + k];
    }
  }

  /**
   * Scanning a token's own literal on its own gives back the same token,
   * consuming all of it: the literal is a complete, self-delimiting token.
   */
  lemma {:induction false} Rescan(input: string, pos: nat)
    requires pos < |input| && ScanToken(input, pos).Produced?
    ensures var t := ScanToken(input, pos).token; ScanToken(t.literal, 0) == Produced(t, |t.literal|)
  {
    var r := ScanToken(input, pos);
    var w := r.token.literal;
    var c := input[pos];
    if c in Symbols || c == '!' {
      RescanOperator(input, pos);
    } else {
      assert forall k :: 0 <= k < |w| ==> w[k] == input[pos + k];
      if IsDigit(c) {
        RunEndCovers(w, 0, Digits);
        assert ScanToken(w, 0) == Produced(Token(INTEGER, w[0..|w|]), |w|);
      } else {
        RunEndCovers(w, 0, LettersOrDigits);
        assert ScanToken(w, 0) == Produced(Token(WordKind(w[0..|w|]), w[0..|w|]), |w|);
      }
      assert w[0..|w|] == w;
    }
  }

  /** Rescan for the symbol and two-character operator tokens. */
  lemma RescanOperator(input: string, pos: nat)
    requires pos < |input| && ScanToken(input, pos).Produced?
    requires input[pos] in Symbols || input[pos] == '!'
    ensures var t := ScanToken(input, pos).token; ScanToken(t.literal, 0) == Produced(t, |t.literal|)
  {
    var t := ScanToken(input, pos).token;
    assert t.literal in {"==", "!=", "=", "+", "-", "*", "/", ">", "<", "(", ")", "{", "}", ",", ";"};
  }

  /** A run over text every character of which qualifies reaches the end. */
  lemma {:induction false} RunEndCovers(w: string, pos: nat, cls: CharClass)
    requires pos <= |w| && forall k :: pos <= k < |w| ==> InClass(w[k], cls)
    ensures RunEnd(w, pos, cls) == |w|
    decreases |w| - pos
  {
    if pos < |w| {
      RunEndCovers(w, pos + 1, cls);
    }
  }

  /** The maximal run ends at the only place where the run stops: every character before it is in the run, the one at it is not. */
  lemma RunEndUnique(input: string, pos: nat, cls: CharClass, e: nat)
    requires pos <= e <= |input|
    requires forall k :: pos <= k < e ==> InClass(input[k], cls)
    requires e == |input| || !InClass(input[e], cls)
    ensures RunEnd(input, pos, cls) == e
  {
  }

  /**
   * Once only whitespace is left, NextToken makes PeekToken ENDOFFILE with an
   * empty literal; a second call makes both tokens ENDOFFILE, and from then on
   * NextToken changes nothing.
   */
  lemma EndOfInput(s: LexState)
    requires Wf(s) && RunEnd(s.input, s.pos, WhiteSpace) == |s.input|
    ensures Next(s) == Ok(LexState(s.input, |s.input|, s.peek, Some(EndOfFile)))
    ensures Next(Next(s).value) == Ok(LexState(s.input, |s.input|, Some(EndOfFile), Some(EndOfFile)))
    ensures var t := Next(Next(s).value).value; Next(t) == Ok(t)
  {
  }

  /**
   * What one NextToken call leaves behind, given the first non-blank
   * position `p` at or after Position: the old peek token becomes the
   * current token, and the new peek token is ENDOFFILE at the end of input,
   * otherwise the token scanned at `p`, with Position just past it. A `!`
   * that no `=` follows keeps the old peek; a character no rule accepts
   * makes the call fail with the scanner's error.
   */
  lemma NextPeekToken(s: LexState, p: nat)
    requires Wf(s) && s.pos <= p <= |s.input|
    requires forall k :: s.pos <= k < p ==> IsWhiteSpace(s.input[k])
    requires p == |s.input| || !IsWhiteSpace(s.input[p])
    ensures p == |s.input| ==> Next(s) == Ok(LexState(s.input, p, s.peek, Some(EndOfFile)))
    ensures p < |s.input| && ScanToken(s.input, p).Produced? ==>
      Next(s) == Ok(LexState(s.input, ScanToken(s.input, p).next, s.peek, Some(ScanToken(s.input, p).token)))
    ensures p < |s.input| && ScanToken(s.input, p).NoToken? ==> Next(s) == Ok(LexState(s.input, p, s.peek, s.peek))
    ensures p < |s.input| && ScanToken(s.input, p).ScanFailed? ==> Next(s) == Err(ScanToken(s.input, p).error)
  {
    RunEndUnique(s.input, s.pos, WhiteSpace, p);
  }

  /** A `!` not followed by `=` leaves Position and PeekToken as they were (after the whitespace skip). */
  lemma FrozenStep(s: LexState)
    requires Wf(s) && FrozenAt(s.input, RunEnd(s.input, s.pos, WhiteSpace))
    ensures Next(s) == Ok(LexState(s.input, RunEnd(s.input, s.pos, WhiteSpace), s.peek, s.peek))
  {
    assert ScanToken(s.input, RunEnd(s.input, s.pos, WhiteSpace)) == NoToken;
  }

  /**
   * The lexer object of Lexer.cs. Its state is exactly a LexState; the
   * methods are proved to follow the functions above.
   */
  class Lexer {
    const input: string
    var position: nat
    var current: Option<Token>
    var peek: Option<Token>

    ghost function State(): LexState
      reads this
    {
      LexState(input, position, current, peek)
    }

    ghost predicate Valid()
      reads this
    {
      Wf(State())
    }

    /** Sets Input and Position (Lexer.cs:25-26); the tokens are loaded by Create. */
    constructor Init(input: string)
      ensures State() == Initial(input)
    {
      this.input := input;
      position := 0;
      current := None;
      peek := None;
    }

    /**
     * The constructor Lexer(string): set up, then NextToken twice, so that
     * CurrentToken is the first token and PeekToken the second.
     */
    static method Create(input: string) returns (r: Result<Lexer, Error>)
      ensures r.Err? <==> Start(input).Err?
      ensures r.Err? ==> r.error == Start(input).error
      ensures r.Ok? ==> fresh(r.value) && r.value.Valid() && r.value.State() == Start(input).value
    {
      var lexer := new Lexer.Init(input);
      var o := lexer.NextToken();
      if o.Fail? {
        return Err(o.error);
      }
      o := lexer.NextToken();
      if o.Fail? {
        return Err(o.error);
      }
      return Ok(lexer);
    }

    /** SkipWhitespace (Lexer.cs:155-161). */
    method SkipWhitespace()
      requires Valid()
      modifies this`position
      ensures position == RunEnd(input, old(position), WhiteSpace)
    {
      while position < |input| && IsWhiteSpace(input[position])
        invariant old(position) <= position <= |input|
        invariant RunEnd(input, position, WhiteSpace) == RunEnd(input, old(position), WhiteSpace)
        decreases |input| - position
      {
        position := position + 1;
      }
    }

    /**
     * The digit and word loops of NextToken (Lexer.cs:118-123, 129-134):
     * append characters while they belong to the run, advancing Position.
     */
    method ReadRun(cls: CharClass) returns (text: string)
      requires position <= |input|
      modifies this`position
      ensures position == RunEnd(input, old(position), cls)
      ensures text == input[old(position)..position]
    {
      text := "";
      while position < |input| && InClass(input[position], cls)
        invariant old(position) <= position <= |input|
        invariant text == input[old(position)..position]
        invariant RunEnd(input, position, cls) == RunEnd(input, old(position), cls)
        decreases |input| - position
      {
        text := text + [input[position]];
        position := position + 1;
      }
    }

    /**
     * The switch of NextToken (Lexer.cs:45-147): scan one token at Position,
     * which is not blank, and advance past it.
     */
    method ScanNext() returns (token: Option<Token>, o: Outcome<Error>)
      requires position < |input|
      modifies this`position
      ensures match ScanToken(input, old(position))
        case Produced(t, q) => o == Pass && token == Some(t) && position == q
        case NoToken => o == Pass && token == None && position == old(position)
        case ScanFailed(e) => o == Fail(e) && position == old(position)
    {
      token, o := None, Pass;
      var c := input[position];
      match c {
        case '=' =>
          if position < |input| - 1 && input[position + 1] == '=' {
            token := Some(Token(EQUALS, "=="));
            position := position + 2;
          } else {
            token := Some(Token(ASSIGN, "="));
            position := position + 1;
          }
        case '+' => token := Some(Token(PLUS, "+")); position := position + 1;
        case '-' => token := Some(Token(MINUS, "-")); position := position + 1;
        case '*' => token := Some(Token(ASTERISK, "*")); position := position + 1;
        case '/' => token := Some(Token(SLASH, "/")); position := position + 1;
        case '!' =>
          if position + 1 >= |input| {
            o := Fail(IndexOutOfRange(position + 1));
            return;
          }
          if input[position + 1] == '=' {
            token := Some(Token(DOESNOTEQUAL, "!="));
            position := position + 2;
          }
        case '>' => token := Some(Token(GREATERTHAN, ">")); position := position + 1;
        case '<' => token := Some(Token(LESSTHAN, "<")); position := position + 1;
        case '(' => token := Some(Token(LEFTPAREN, "(")); position := position + 1;
        case ')' => token := Some(Token(RIGHTPAREN, ")")); position := position + 1;
        case '{' => token := Some(Token(LEFTBRACE, "{")); position := position + 1;
        case '}' => token := Some(Token(RIGHTBRACE, "}")); position := position + 1;
        case ',' => token := Some(Token(COMMA, ",")); position := position + 1;
        case ';' => token := Some(Token(SEMICOLON, ";")); position := position + 1;
        case _ =>
          if IsDigit(c) {
            var number := ReadRun(Digits);
            token := Some(Token(INTEGER, number));
          } else if IsLetter(c) {
            var identifier := ReadRun(LettersOrDigits);
            token := Some(Token(WordKind(identifier), identifier));
          } else {
            o := Fail(UnknownToken(c, position));
            return;
          }
      }
    }

    /**
     * NextToken (Lexer.cs:33-153). On success the new state is Next of the
     * old one; when it throws, whitespace has been skipped and the peek token
     * has already been shifted into the current one.
     */
    method NextToken() returns (o: Outcome<Error>)
      requires Valid()
      modifies this
      ensures o.Pass? <==> Next(old(State())).Ok?
      ensures o.Pass? ==> Valid() && State() == Next(old(State())).value
      ensures o.Fail? ==> o.error == Next(old(State())).error
      ensures o.Fail? ==> position == RunEnd(input, old(position), WhiteSpace) && current == old(peek) && peek == old(peek)
    {
      SkipWhitespace();
      var token: Option<Token> := None;
      current := peek;

      if position >= |input| {
        peek := Some(EndOfFile);
        return Pass;
      }

      var scanned;
      token, scanned := ScanNext();
      if scanned.Fail? {
        return scanned;
      }

      if token.Some? {
        peek := token;
      }
      return Pass;
    }
  }
}
