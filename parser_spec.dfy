/** The statement parser of parser/parser.go and parser/util.go as functions
    of the token stream and the position of the current token. The Parser
    class runs the same steps on its token window and is proved to agree. */
module ParserSpec {
  import opened Wrappers
  import opened Tokens
  import opened Ast
  import opened Lexing
  import opened Text

  /** The message of `badTokenTypeError`. */
  function BadTokenTypeMessage(expected: TokenType, got: TokenType): string
  {
    "error - expected: " + Name(expected) + " - got: " + Name(got)
  }

  /** The message starts with "error - expected: " and ends with the name of
      the kind that was found. */
  lemma BadTokenTypeMessageShape(expected: TokenType, got: TokenType)
    ensures StartsWith(BadTokenTypeMessage(expected, got), "error - expected: ")
    ensures EndsWith(BadTokenTypeMessage(expected, got), Name(got))
  {
    var e, g := Name(expected), Name(got);
    var lead := "error - expected: " + e;
    var head := lead + " - got: ";
    assert BadTokenTypeMessage(expected, got) == head + g;
    ConcatEnds(head, g);
    ConcatEnds(lead, " - got: ");
    ConcatEnds("error - expected: ", e);
    StartsWithTrans(head, lead, "error - expected: ");
    StartsWithTrans(head + g, head, "error - expected: ");
  }

  /** The message for a token that cannot start the expected expression. */
  function ExpectedExpressionMessage(got: TokenType): string
  {
    "error - expected: expression - got: " + Name(got)
  }

  predicate IsStop(t: Token)
  {
    t.kind == SEMICOLON || t.kind == EOF
  }

  /** Where `skipToSemicolon` leaves the current token when it starts at `i`:
      the first SEMICOLON or EOF at or after `i`. */
  function SkipTo(tokens: seq<Token>, i: nat): (j: nat)
    ensures i <= j && IsStop(At(tokens, j))
    ensures forall k :: i <= k < j ==> !IsStop(At(tokens, k))
    decreases |tokens| - i
  {
    if IsStop(At(tokens, i)) then i else SkipTo(tokens, i + 1)
  }

  /** What a parse function returns, and where it leaves the current token. */
  datatype Parsed = Parsed(result: Result<Statement>, last: nat)

  /** `parseLetStatement` with the current token at `i`. */
  function ParseLet(tokens: seq<Token>, i: nat): (p: Parsed)
    ensures i < p.last <= i + 4
  {
    var letToken := At(tokens, i);
    if At(tokens, i + 1).kind != IDENTIFIER then
      Parsed(Err(BadTokenTypeMessage(IDENTIFIER, At(tokens, i + 1).kind)), i + 1)
    else if At(tokens, i + 2).kind != EQUAL then
      Parsed(Err(BadTokenTypeMessage(EQUAL, At(tokens, i + 2).kind)), i + 2)
    else if At(tokens, i + 3).kind != INT then
      Parsed(Err(ExpectedExpressionMessage(At(tokens, i + 3).kind)), i + 3)
    else if At(tokens, i + 4).kind != SEMICOLON then
      Parsed(Err(BadTokenTypeMessage(SEMICOLON, At(tokens, i + 4).kind)), i + 4)
    else
      Parsed(Ok(LetStatement(letToken, At(tokens, i + 1), IntExpression(At(tokens, i + 3)))), i + 4)
  }

  /** `parseReturnStatement` with the current token at `i`. */
  function ParseReturn(tokens: seq<Token>, i: nat): (p: Parsed)
    ensures i < p.last <= i + 2
  {
    var returnToken := At(tokens, i);
    var value := At(tokens, i + 1);
    if value.kind != IDENTIFIER && value.kind != INT then
      Parsed(Err(ExpectedExpressionMessage(value.kind)), i + 1)
    else if At(tokens, i + 2).kind != SEMICOLON then
      Parsed(Err(BadTokenTypeMessage(SEMICOLON, At(tokens, i + 2).kind)), i + 2)
    else
      var e := if value.kind == IDENTIFIER then IdentifierExpression(value) else IntExpression(value);
      Parsed(Ok(ReturnStatement(returnToken, Some(e))), i + 2)
  }

  /** One statement of `ParseProgram`: `let`, `return`, or (for any other
      token) the nil statement, which consumes nothing. */
  function ParseStatement(tokens: seq<Token>, i: nat): (p: Parsed)
    ensures i <= p.last
    ensures At(tokens, i).kind != LET && At(tokens, i).kind != RETURN ==> p == Parsed(Ok(Nil), i)
  {
    var k := At(tokens, i).kind;
    if k == LET then ParseLet(tokens, i)
    else if k == RETURN then ParseReturn(tokens, i)
    else Parsed(Ok(Nil), i)
  }

  /** Where the next statement starts after one parsed from `i`: a failed
      statement first skips to the next SEMICOLON or EOF. */
  function NextStart(tokens: seq<Token>, i: nat): (n: nat)
    ensures i < n
  {
    var p := ParseStatement(tokens, i);
    (if p.result.Err? then SkipTo(tokens, p.last) else p.last) + 1
  }

  datatype Outcome = Outcome(statements: seq<Statement>, errors: seq<string>)

  /** An outcome with one more parse result in front. */
  function Prepend(r: Result<Statement>, o: Outcome): Outcome
  {
    match r
    case Ok(s) => Outcome([s] + o.statements, o.errors)
    case Err(m) => Outcome(o.statements, [m] + o.errors)
  }

  /** An outcome with one more parse result at the end. */
  function Append(o: Outcome, r: Result<Statement>): Outcome
  {
    match r
    case Ok(s) => Outcome(o.statements + [s], o.errors)
    case Err(m) => Outcome(o.statements, o.errors + [m])
  }

  /** Everything parsed so far followed by everything still to parse. */
  function Then(done: Outcome, rest: Outcome): Outcome
  {
    Outcome(done.statements + rest.statements, done.errors + rest.errors)
  }

  /** One round of the parsing loop: recording the result of the statement
      at `i` and continuing from the next start parses the same program. */
  lemma ParseStep(tokens: seq<Token>, i: nat, done: Outcome)
    requires At(tokens, i).kind != EOF
    ensures Then(Append(done, ParseStatement(tokens, i).result), ParseFrom(tokens, NextStart(tokens, i)))
            == Then(done, ParseFrom(tokens, i))
  {
    AppendThenPrepend(done, ParseStatement(tokens, i).result, ParseFrom(tokens, NextStart(tokens, i)));
  }

  /** At EOF nothing is left to parse. */
  lemma ParseEnd(tokens: seq<Token>, i: nat, done: Outcome)
    requires At(tokens, i).kind == EOF
    ensures Then(done, ParseFrom(tokens, i)) == done
  {
    assert done.statements + [] == done.statements;
    assert done.errors + [] == done.errors;
  }

  lemma AppendThenPrepend(done: Outcome, r: Result<Statement>, rest: Outcome)
    ensures Then(Append(done, r), rest) == Then(done, Prepend(r, rest))
  {
    match r
    case Ok(s) =>
      assert done.statements + [s] + rest.statements == done.statements + ([s] + rest.statements);
    case Err(m) =>
      assert done.errors + [m] + rest.errors == done.errors + ([m] + rest.errors);
  }

  /** `ParseProgram` from the current token at `i`: one statement or one
      error per statement start, up to the first EOF in the current position. */
  function ParseFrom(tokens: seq<Token>, i: nat): Outcome
    decreases |tokens| - i
  {
    if At(tokens, i).kind == EOF then Outcome([], [])
    else
      Prepend(ParseStatement(tokens, i).result, ParseFrom(tokens, NextStart(tokens, i)))
  }
}
