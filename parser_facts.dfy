/** Properties of the statement parser, stated on ParserSpec (which the
    Parser class is proved to follow). */
module ParserFacts {
  import opened Wrappers
  import opened Tokens
  import opened Ast
  import opened Lexing
  import opened ParserSpec

  // ---------------------------------------------------------------------
  // Recovery

  /** Skipping from a SEMICOLON or EOF does nothing, and skipping twice is
      skipping once. */
  lemma SkipToIdempotent(tokens: seq<Token>, i: nat)
    ensures IsStop(At(tokens, i)) ==> SkipTo(tokens, i) == i
    ensures SkipTo(tokens, SkipTo(tokens, i)) == SkipTo(tokens, i)
  {
  }

  /** Skipping stops at the first SEMICOLON or EOF: never after any of them. */
  lemma SkipToStopsAtFirst(tokens: seq<Token>, i: nat, j: nat)
    requires i <= j && IsStop(At(tokens, j))
    ensures SkipTo(tokens, i) <= j
  {
  }

  // ---------------------------------------------------------------------
  // The two statement forms

  /** The kinds a `let` statement expects after its LET token. */
  const LetShape: seq<TokenType> := [IDENTIFIER, EQUAL, INT, SEMICOLON]

  /** The `n` tokens after position `i` have the kinds `shape` begins with. */
  predicate Matches(tokens: seq<Token>, i: nat, shape: seq<TokenType>, n: nat)
    requires n <= |shape|
  {
    forall k :: 0 <= k < n ==> At(tokens, i + 1 + k).kind == shape[k]
  }

  /** `let` succeeds exactly on LET IDENTIFIER EQUAL INT SEMICOLON; the
      statement holds the LET token, the identifier token and an integer
      expression of the INT token, and the current token is left on the
      SEMICOLON. */
  lemma ParseLetAccepts(tokens: seq<Token>, i: nat)
    ensures ParseLet(tokens, i).result.Ok? <==> Matches(tokens, i, LetShape, 4)
    ensures ParseLet(tokens, i).result.Ok? ==>
      ParseLet(tokens, i).last == i + 4 && At(tokens, i + 4).kind == SEMICOLON &&
      ParseLet(tokens, i).result.value
        == LetStatement(At(tokens, i), At(tokens, i + 1), IntExpression(At(tokens, i + 3)))
  {
    assert LetShape[0] == IDENTIFIER && LetShape[1] == EQUAL && LetShape[2] == INT && LetShape[3] == SEMICOLON;
    if Matches(tokens, i, LetShape, 4) {
      assert At(tokens, i + 1 + 0).kind == IDENTIFIER;
      assert At(tokens, i + 1 + 1).kind == EQUAL;
      assert At(tokens, i + 1 + 2).kind == INT;
      assert At(tokens, i + 1 + 3).kind == SEMICOLON;
    } else {
      var k :| 0 <= k < 4 && At(tokens, i + 1 + k).kind != LetShape[k];
      assert k == 0 || k == 1 || k == 2 || k == 3;
    }
  }

  /** The message of a failed `let` whose `m`-th expected kind was not met. */
  function LetMismatchMessage(m: nat, got: TokenType): string
    requires m < 4
  {
    if LetShape[m] == INT then ExpectedExpressionMessage(got) else BadTokenTypeMessage(LetShape[m], got)
  }

  lemma LetMismatchPosition(tokens: seq<Token>, i: nat)
    requires ParseLet(tokens, i).result.Err?
    ensures var p := ParseLet(tokens, i); var m := p.last - i - 1;
      0 <= m < 4 && Matches(tokens, i, LetShape, m) && At(tokens, p.last).kind != LetShape[m]
  {
    assert LetShape[0] == IDENTIFIER && LetShape[1] == EQUAL && LetShape[2] == INT && LetShape[3] == SEMICOLON;
    if At(tokens, i + 1).kind == IDENTIFIER {
      assert At(tokens, i + 1 + 0).kind == LetShape[0];
      if At(tokens, i + 2).kind == EQUAL {
        assert At(tokens, i + 1 + 1).kind == LetShape[1];
        if At(tokens, i + 3).kind == INT {
          assert At(tokens, i + 1 + 2).kind == LetShape[2];
        }
      }
    }
  }

  lemma LetMismatchReported(tokens: seq<Token>, i: nat)
    requires ParseLet(tokens, i).result.Err?
    ensures var p := ParseLet(tokens, i);
      i < p.last <= i + 4 && p.result.message == LetMismatchMessage(p.last - i - 1, At(tokens, p.last).kind)
  {
    var p := ParseLet(tokens, i);
    var got := At(tokens, p.last).kind;
    if At(tokens, i + 1).kind != IDENTIFIER {
      assert p.last == i + 1 && LetShape[0] == IDENTIFIER;
      assert p.result.message == BadTokenTypeMessage(IDENTIFIER, got) == LetMismatchMessage(0, got);
    } else if At(tokens, i + 2).kind != EQUAL {
      assert p.last == i + 2 && LetShape[1] == EQUAL;
      assert p.result.message == BadTokenTypeMessage(EQUAL, got) == LetMismatchMessage(1, got);
    } else if At(tokens, i + 3).kind != INT {
      assert p.last == i + 3 && LetShape[2] == INT;
      assert p.result.message == ExpectedExpressionMessage(got) == LetMismatchMessage(2, got);
    } else {
      assert p.last == i + 4 && LetShape[3] == SEMICOLON;
      assert p.result.message == BadTokenTypeMessage(SEMICOLON, got) == LetMismatchMessage(3, got);
    }
  }

  /** A failed `let` reports its first mismatch: the current token is left on
      the first token whose kind differs from the expected one, everything
      before it matched, and the message names what was expected (an
      "expression" in place of INT) and the kind that was found. */
  lemma ParseLetReportsFirstMismatch(tokens: seq<Token>, i: nat)
    requires ParseLet(tokens, i).result.Err?
    ensures var p := ParseLet(tokens, i); var m := p.last - i - 1; var got := At(tokens, p.last).kind;
      0 <= m < 4 && Matches(tokens, i, LetShape, m) && got != LetShape[m] &&
      p.result.message == if LetShape[m] == INT then ExpectedExpressionMessage(got)
                          else BadTokenTypeMessage(LetShape[m], got)
  {
    LetMismatchPosition(tokens, i);
    LetMismatchReported(tokens, i);
  }

  /** `return` succeeds exactly on RETURN followed by an IDENTIFIER or INT
      and a SEMICOLON, and holds the matching expression. */
  lemma ParseReturnAccepts(tokens: seq<Token>, i: nat)
    ensures var v := At(tokens, i + 1).kind;
      ParseReturn(tokens, i).result.Ok? <==> (v == IDENTIFIER || v == INT) && At(tokens, i + 2).kind == SEMICOLON
    ensures var p := ParseReturn(tokens, i); var v := At(tokens, i + 1);
      p.result.Ok? ==>
        p.last == i + 2 &&
        p.result.value == ReturnStatement(At(tokens, i),
          Some(if v.kind == IDENTIFIER then IdentifierExpression(v) else IntExpression(v)))
  {
  }

  /** A failed `return` stops on the first bad token with the matching message. */
  lemma ParseReturnReportsFirstMismatch(tokens: seq<Token>, i: nat)
    requires ParseReturn(tokens, i).result.Err?
    ensures var p := ParseReturn(tokens, i); var v := At(tokens, i + 1).kind; var got := At(tokens, p.last).kind;
      if v != IDENTIFIER && v != INT then
        p.last == i + 1 && p.result.message == ExpectedExpressionMessage(v)
      else
        p.last == i + 2 && got != SEMICOLON && p.result.message == BadTokenTypeMessage(SEMICOLON, got)
  {
  }

  /** A parsed `let` renders back as the literals of the tokens it was
      parsed from: "<let> <name> = <value>;". */
  lemma ParseLetRenders(tokens: seq<Token>, i: nat)
    requires ParseLet(tokens, i).result.Ok?
    ensures WellFormed(ParseLet(tokens, i).result.value)
    ensures StatementString(ParseLet(tokens, i).result.value)
            == At(tokens, i).literal + " " + At(tokens, i + 1).literal + " = " + At(tokens, i + 3).literal + ";"
  {
  }

  /** A parsed `return` renders back as the literals of the tokens it was
      parsed from: "<return> <value>;". */
  lemma ParseReturnRenders(tokens: seq<Token>, i: nat)
    requires ParseReturn(tokens, i).result.Ok?
    ensures WellFormed(ParseReturn(tokens, i).result.value)
    ensures StatementString(ParseReturn(tokens, i).result.value)
            == At(tokens, i).literal + " " + At(tokens, i + 1).literal + ";"
  {
  }

  // ---------------------------------------------------------------------
  // Whole programs

  /** Each statement start yields one entry and consumes at least one token,
      so a program starting at `i` has at most as many entries as there are
      tokens from `i` on. */
  lemma {:induction false} EntriesBounded(tokens: seq<Token>, i: nat)
    requires i <= |tokens|
    ensures |ParseFrom(tokens, i).statements| + |ParseFrom(tokens, i).errors| <= |tokens| - i
    decreases |tokens| - i
  {
    if At(tokens, i).kind != EOF {
      var n := NextStart(tokens, i);
      if n <= |tokens| {
        EntriesBounded(tokens, n);
      } else {
        assert At(tokens, n).kind == EOF;
      }
    }
  }

  /** The statements the parser can produce: the nil statement, a `let` of
      an integer, or a `return` of an identifier or integer. */
  predicate ParsedForm(s: Statement)
  {
    s == Nil ||
    (s.LetStatement? && s.value.IntExpression?) ||
    (s.ReturnStatement? && s.returned.Some? &&
     (s.returned.value.IdentifierExpression? || s.returned.value.IntExpression?))
  }

  /** Every parsed statement has one of the parsed forms, and all but the nil
      statement can be rendered. */
  lemma {:induction false} ParsedStatementsForm(tokens: seq<Token>, i: nat)
    ensures forall k :: 0 <= k < |ParseFrom(tokens, i).statements| ==>
      var s := ParseFrom(tokens, i).statements[k];
      ParsedForm(s) && (s != Nil ==> WellFormed(s))
    decreases |tokens| - i
  {
    if At(tokens, i).kind != EOF {
      ParsedStatementsForm(tokens, NextStart(tokens, i));
      var p := ParseStatement(tokens, i);
      if p.result.Ok? {
        assert ParsedForm(p.result.value);
      }
    }
  }

  /** A token that starts neither `let` nor `return` yields the nil
      statement: a stream without LET, RETURN and EOF parses to one nil
      statement per token and no errors. */
  lemma {:induction false} NilPerToken(tokens: seq<Token>, i: nat)
    requires i <= |tokens|
    requires forall k :: i <= k < |tokens| ==> tokens[k].kind !in {LET, RETURN, EOF}
    ensures ParseFrom(tokens, i) == Outcome(seq(|tokens| - i, _ => Nil), [])
    decreases |tokens| - i
  {
    if i < |tokens| {
      assert At(tokens, i) == tokens[i];
      assert NextStart(tokens, i) == i + 1;
      NilPerToken(tokens, i + 1);
      assert [Nil] + seq(|tokens| - (i + 1), _ => Nil) == seq(|tokens| - i, _ => Nil);
    }
  }

  /** `let x = 5; return ;` parses to the `let` statement and one error. */
  lemma Example()
    ensures var tokens := [Token(LET, "let"), Token(IDENTIFIER, "x"), Token(EQUAL, "="),
                           Token(INT, "5"), Token(SEMICOLON, ";"),
                           Token(RETURN, "return"), Token(SEMICOLON, ";")];
      ParseFrom(tokens, 0) ==
        Outcome([LetStatement(Token(LET, "let"), Token(IDENTIFIER, "x"), IntExpression(Token(INT, "5")))],
                ["error - expected: expression - got: ;"])
  {
    var tokens := [Token(LET, "let"), Token(IDENTIFIER, "x"), Token(EQUAL, "="),
                   Token(INT, "5"), Token(SEMICOLON, ";"),
                   Token(RETURN, "return"), Token(SEMICOLON, ";")];
    var letStatement := LetStatement(Token(LET, "let"), Token(IDENTIFIER, "x"), IntExpression(Token(INT, "5")));
    var message := "error - expected: expression - got: ;";
    assert ParseStatement(tokens, 0) == Parsed(Ok(letStatement), 4);
    assert NextStart(tokens, 0) == 5;
    assert Name(SEMICOLON) == ";";
    assert ExpectedExpressionMessage(SEMICOLON) == "error - expected: expression - got: " + ";" == message;
    assert ParseStatement(tokens, 5) == Parsed(Err(message), 6);
    assert SkipTo(tokens, 6) == 6;
    assert NextStart(tokens, 5) == 7;
    assert ParseFrom(tokens, 7) == Outcome([], []);
    assert ParseFrom(tokens, 5) == Outcome([], [message]);
  }
}
