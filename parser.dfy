/** The parser object of parser/parser.go and its helpers in parser/util.go:
    a current/peek token window over a lexer, advanced in place. */
module Parser {
  import opened Wrappers
  import opened Tokens
  import opened Ast
  import opened Lexing
  import opened ParserSpec

  // Operator precedence levels (declared in the source; no expression
  // parser uses them yet). The first `iota` value, 0, is left unnamed.
  const LOWEST: nat := 1
  const EQUALS: nat := 2
  const LESSGREATER: nat := 3
  const SUM: nat := 4
  const PRODUCT: nat := 5
  const PREFIX: nat := 6
  const CALL: nat := 7

  /** The levels strictly increase from LOWEST to CALL. */
  lemma PrecedencesIncrease()
    ensures LOWEST == 1 && CALL == 7
    ensures LOWEST < EQUALS < LESSGREATER < SUM < PRODUCT < PREFIX < CALL
  {
  }

  class Parser {
    const l: Lexer
    var currToken: Token
    var peekToken: Token

    /** The window shows the last two tokens the lexer handed out. */
    ghost predicate Valid()
      reads this, l
    {
      l.pos >= 2 && currToken == At(l.tokens, l.pos - 2) && peekToken == At(l.tokens, l.pos - 1)
    }

    /** The stream position of the current token. */
    function Position(): nat
      reads this, l
      requires Valid()
    {
      l.pos - 2
    }

    /** CreateParser: fill the window with the lexer's next two tokens. */
    constructor (l: Lexer)
      modifies l
      ensures this.l == l && Valid()
      ensures Position() == old(l.pos)
      ensures currToken == At(l.tokens, old(l.pos)) && peekToken == At(l.tokens, old(l.pos) + 1)
    {
      this.l := l;
      // Go's zero-valued tokens, overwritten by the two calls below.
      currToken := Token(ILLEGAL, "");
      peekToken := Token(ILLEGAL, "");
      new;
      NextToken();
      NextToken();
    }

    /** Shift the peek token into the current one and pull exactly one token. */
    method NextToken()
      modifies this, l
      ensures currToken == old(peekToken)
      ensures peekToken == At(l.tokens, old(l.pos)) && l.pos == old(l.pos) + 1
      ensures old(Valid()) ==> Valid() && Position() == old(Position()) + 1
    {
      currToken := peekToken;
      peekToken := l.GetNextToken();
    }

    function CurrTokenIs(t: TokenType): bool
      reads this
    {
      currToken.kind == t
    }

    /** The error for an unexpected current token; it does not advance. */
    function BadTokenTypeError(expected: TokenType): string
      reads this
    {
      BadTokenTypeMessage(expected, currToken.kind)
    }

    /** Move the current token forward to the first SEMICOLON or EOF at or
        after it. */
    method SkipToSemicolon()
      requires Valid()
      modifies this, l
      ensures Valid() && Position() == SkipTo(l.tokens, old(Position()))
    {
      while !CurrTokenIs(SEMICOLON) && !CurrTokenIs(EOF)
        invariant Valid() && old(Position()) <= Position()
        invariant SkipTo(l.tokens, Position()) == SkipTo(l.tokens, old(Position()))
        decreases |l.tokens| - Position()
      {
        NextToken();
      }
    }

    /** Wrap the current INT token; never fails, does not advance. */
    method ParseMathExpression() returns (e: Expression, err: Option<string>)
      ensures e == IntExpression(currToken) && err == None
    {
      e := IntExpression(currToken);
      err := None;
    }

    /** Parse `let IDENTIFIER = INT ;` from the current LET token. */
    method ParseLetStatement() returns (r: Result<Statement>)
      requires Valid()
      modifies this, l
      ensures Valid() && Parsed(r, Position()) == ParseLet(l.tokens, old(Position()))
    {
      ghost var i := Position();
      var letToken := currToken;

      NextToken();
      if !CurrTokenIs(IDENTIFIER) {
        return Err(BadTokenTypeError(IDENTIFIER));
      }
      var identifier := currToken;

      NextToken();
      if !CurrTokenIs(EQUAL) {
        return Err(BadTokenTypeError(EQUAL));
      }

      NextToken();
      var value: Expression;
      if CurrTokenIs(INT) {
        var ignored;
        value, ignored := ParseMathExpression();
      } else {
        return Err(ExpectedExpressionMessage(currToken.kind));
      }

      NextToken();
      if !CurrTokenIs(SEMICOLON) {
        return Err(BadTokenTypeError(SEMICOLON));
      }
      return Ok(LetStatement(letToken, identifier, value));
    }

    /** Parse `return (IDENTIFIER | INT) ;` from the current RETURN token. */
    method ParseReturnStatement() returns (r: Result<Statement>)
      requires Valid()
      modifies this, l
      ensures Valid() && Parsed(r, Position()) == ParseReturn(l.tokens, old(Position()))
    {
      ghost var i := Position();
      var returnToken := currToken;

      NextToken();
      ghost var value := currToken;
      assert value == At(l.tokens, i + 1);
      var e: Expression;
      if CurrTokenIs(IDENTIFIER) {
        e := IdentifierExpression(currToken);
      } else if CurrTokenIs(INT) {
        var ignored;
        e, ignored := ParseMathExpression();
      } else {
        r := Err(ExpectedExpressionMessage(currToken.kind));
        assert Parsed(r, i + 1) == ParseReturn(l.tokens, i);
        return;
      }

      assert e == if value.kind == IDENTIFIER then IdentifierExpression(value) else IntExpression(value);
      NextToken();
      assert currToken == At(l.tokens, i + 2);
      if !CurrTokenIs(SEMICOLON) {
        r := Err(BadTokenTypeError(SEMICOLON));
        assert Parsed(r, i + 2) == ParseReturn(l.tokens, i);
        return;
      }
      r := Ok(ReturnStatement(returnToken, Some(e)));
      assert Parsed(r, i + 2) == ParseReturn(l.tokens, i);
    }

    /** One round of ParseProgram's loop: parse a LET or RETURN statement
        (any other token yields the nil statement), record the statement or
        the error, resynchronise after an error and step past the last token
        used. */
    method ParseRound(statements: seq<Statement>, errors: seq<string>)
      returns (statements': seq<Statement>, errors': seq<string>)
      requires Valid()
      modifies this, l
      ensures Valid() && Position() == NextStart(l.tokens, old(Position()))
      ensures Outcome(statements', errors')
              == Append(Outcome(statements, errors), ParseStatement(l.tokens, old(Position())).result)
    {
      ghost var i := Position();
      var r: Result<Statement> := Ok(Nil);
      if CurrTokenIs(LET) {
        r := ParseLetStatement();
      } else if CurrTokenIs(RETURN) {
        r := ParseReturnStatement();
      }
      assert Parsed(r, Position()) == ParseStatement(l.tokens, i);

      statements', errors' := statements, errors;
      if r.Err? {
        errors' := errors + [r.message];
        SkipToSemicolon();
      } else {
        statements' := statements + [r.value];
      }
      NextToken();
    }

    /** Parse statements until the current token is EOF, collecting one
        statement or one error per iteration and resynchronising after an
        error. `iterations` counts the loop's rounds. */
    method ParseProgram() returns (prog: Program, errors: seq<string>, ghost iterations: nat)
      requires Valid()
      modifies this, l
      ensures Valid() && currToken.kind == EOF
      ensures Outcome(prog.statements, errors) == ParseFrom(l.tokens, old(Position()))
      ensures |prog.statements| + |errors| == iterations
    {
      ghost var start := Position();
      prog := Program([]);
      errors := [];
      iterations := 0;
      while !CurrTokenIs(EOF)
        invariant Valid()
        invariant Then(Outcome(prog.statements, errors), ParseFrom(l.tokens, Position()))
                  == ParseFrom(l.tokens, start)
        invariant |prog.statements| + |errors| == iterations
        decreases |l.tokens| - Position()
      {
        ghost var i := Position();
        ghost var done := Outcome(prog.statements, errors);
        var statements;
        statements, errors := ParseRound(prog.statements, errors);
        prog := Program(statements);
        iterations := iterations + 1;
        ParseStep(l.tokens, i, done);
      }
      ParseEnd(l.tokens, Position(), Outcome(prog.statements, errors));
    }
  }
}
