/** Structural facts about the rendering of Ast, and the call rendering as
    ast/ast.go writes it. */
module AstFacts {
  import opened Wrappers
  import opened Tokens
  import opened Text
  import opened Ast

  // ---------------------------------------------------------------------
  // Expressions: fully parenthesised output

  /** Every token literal in the rendered part of the tree is balanced. */
  predicate LiteralsBalanced(e: Expression)
    decreases e
  {
    Balanced(e.token.literal) &&
    match e
    case PrefixExpression(_, operand) => LiteralsBalanced(operand)
    case InfixExpression(_, l, r) => LiteralsBalanced(l) && LiteralsBalanced(r)
    case CallExpression(_, _, args) => forall i :: 0 <= i < |args| ==> LiteralsBalanced(args[i])
    case _ => true
  }

  lemma PrefixBalanced(op: string, operand: string)
    requires Balanced(op) && Balanced(operand)
    ensures Balanced("(" + op + operand + ")")
  {
    BalancedAppend(op, operand);
    assert "(" + op + operand + ")" == "(" + (op + operand) + ")";
  }

  lemma InfixBalanced(left: string, op: string, right: string)
    requires Balanced(left) && Balanced(op) && Balanced(right)
    ensures Balanced("(" + left + " " + op + " " + right + ")")
  {
    var inner := left + " " + op + " " + right;
    assert multiset(inner) == multiset(left) + multiset(" ") + multiset(op) + multiset(" ") + multiset(right);
    BalancedAppend(inner, "");
    assert "(" + left + " " + op + " " + right + ")" == "(" + inner + ")";
  }

  lemma SeparatorBalanced()
    ensures Balanced(", ")
  {
    assert ", " == [',', ' '];
  }

  lemma {:induction false} CallBalanced(callee: string, parts: seq<string>)
    requires Balanced(callee)
    requires forall i :: 0 <= i < |parts| ==> Balanced(parts[i])
    ensures Balanced(callee + "(" + Join(parts, ", ") + ")")
  {
    SeparatorBalanced();
    JoinBalanced(parts, ", ");
    var j := Join(parts, ", ");
    BalancedAppend(j, "");
    BalancedAppend(callee, "(" + j + ")");
    assert callee + "(" + j + ")" == callee + ("(" + j + ")");
  }

  /** The rendering of a tree whose literals are balanced is balanced: every
      parenthesis the renderer adds is matched. */
  lemma {:induction false} ExpressionStringBalanced(e: Expression)
    requires LiteralsBalanced(e)
    ensures Balanced(ExpressionString(e))
    decreases e
  {
    match e
    case IdentifierExpression(_) =>
    case BooleanExpression(_) =>
    case IntExpression(_) =>
    case PrefixExpression(t, operand) =>
      ExpressionStringBalanced(operand);
      PrefixBalanced(t.literal, ExpressionString(operand));
    case InfixExpression(t, l, r) =>
      ExpressionStringBalanced(l);
      ExpressionStringBalanced(r);
      InfixBalanced(ExpressionString(l), t.literal, ExpressionString(r));
    case CallExpression(t, _, args) =>
      var parts := ExpressionStrings(args);
      forall i | 0 <= i < |parts|
        ensures Balanced(parts[i])
      {
        ExpressionStringBalanced(args[i]);
      }
      CallBalanced(t.literal, parts);
  }

  /** No token literal in the rendered part of the tree holds a parenthesis. */
  predicate LiteralsParenFree(e: Expression)
    decreases e
  {
    ParenFree(e.token.literal) &&
    match e
    case PrefixExpression(_, operand) => LiteralsParenFree(operand)
    case InfixExpression(_, l, r) => LiteralsParenFree(l) && LiteralsParenFree(r)
    case CallExpression(_, _, args) => forall i :: 0 <= i < |args| ==> LiteralsParenFree(args[i])
    case _ => true
  }

  lemma InfixNested(left: string, op: string, right: string)
    requires Nested(left) && ParenFree(op) && Nested(right)
    ensures Nested("(" + left + " " + op + " " + right + ")")
    ensures Enclosed("(" + left + " " + op + " " + right + ")")
  {
    ParenFreeNested(" ");
    ParenFreeNested(op);
    NestedAppend(left, " ");
    NestedAppend(left + " ", op);
    NestedAppend(left + " " + op, " ");
    NestedAppend(left + " " + op + " ", right);
    NestedWrap(left + " " + op + " " + right);
    assert "(" + left + " " + op + " " + right + ")" == "(" + (left + " " + op + " " + right) + ")";
  }

  lemma PrefixNested(op: string, operand: string)
    requires ParenFree(op) && Nested(operand)
    ensures Nested("(" + op + operand + ")") && Enclosed("(" + op + operand + ")")
  {
    ParenFreeNested(op);
    NestedAppend(op, operand);
    NestedWrap(op + operand);
    assert "(" + op + operand + ")" == "(" + (op + operand) + ")";
  }

  lemma {:induction false} CallNested(callee: string, parts: seq<string>)
    requires ParenFree(callee)
    requires forall i :: 0 <= i < |parts| ==> Nested(parts[i])
    ensures Nested(callee + "(" + Join(parts, ", ") + ")")
  {
    ParenFreeNested(", ");
    JoinNested(parts, ", ");
    var j := Join(parts, ", ");
    NestedWrap(j);
    ParenFreeNested(callee);
    NestedAppend(callee, "(" + j + ")");
    assert callee + "(" + j + ")" == callee + ("(" + j + ")");
  }

  /** When no literal holds a parenthesis, every parenthesis of the rendering
      is one the renderer wrote, and they nest properly. */
  lemma {:induction false} ExpressionStringNested(e: Expression)
    requires LiteralsParenFree(e)
    ensures Nested(ExpressionString(e))
    decreases e
  {
    match e
    case IdentifierExpression(t) =>
      ParenFreeNested(t.literal);
    case BooleanExpression(t) =>
      ParenFreeNested(t.literal);
    case IntExpression(t) =>
      ParenFreeNested(t.literal);
    case PrefixExpression(t, operand) =>
      ExpressionStringNested(operand);
      PrefixNested(t.literal, ExpressionString(operand));
    case InfixExpression(t, l, r) =>
      ExpressionStringNested(l);
      ExpressionStringNested(r);
      InfixNested(ExpressionString(l), t.literal, ExpressionString(r));
    case CallExpression(t, _, args) =>
      var parts := ExpressionStrings(args);
      forall i | 0 <= i < |parts|
        ensures Nested(parts[i])
      {
        ExpressionStringNested(args[i]);
      }
      CallNested(t.literal, parts);
  }

  /** Prefix and infix expressions render starting with '(' and ending with
      ')'. When no literal holds a parenthesis, those two form one pair: the
      opening one is closed by the last character and by nothing before it,
      and the parentheses inside nest properly. */
  lemma OperatorsParenthesised(e: Expression)
    requires e.PrefixExpression? || e.InfixExpression?
    ensures var s := ExpressionString(e); |s| >= 2 && s[0] == '(' && s[|s| - 1] == ')'
    ensures LiteralsParenFree(e) ==> Enclosed(ExpressionString(e)) && Nested(ExpressionString(e))
  {
    if LiteralsParenFree(e) {
      match e
      case PrefixExpression(t, operand) =>
        ExpressionStringNested(operand);
        PrefixNested(t.literal, ExpressionString(operand));
      case InfixExpression(t, l, r) =>
        ExpressionStringNested(l);
        ExpressionStringNested(r);
        InfixNested(ExpressionString(l), t.literal, ExpressionString(r));
    }
  }

  /** Without the condition on literals the outer pair can break: an
      identifier spelled ")(" makes the first "(" close at the second
      character. */
  lemma ParenthesisedLiteralBreaksPairing()
    ensures var e := InfixExpression(Token(PLUS, "+"), IdentifierExpression(Token(IDENT, ")(")),
                                     IdentifierExpression(Token(IDENT, "r")));
      LiteralsBalanced(e) && ExpressionString(e) == "()( + r)" && !Enclosed(ExpressionString(e))
  {
    var s := "()( + r)";
    assert s[..2] == "()";
    assert multiset(s[..2])['('] == 1 && multiset(s[..2])[')'] == 1;
    assert Depth(s[..2]) == 0;
    assert multiset(")(")['('] == 1 && multiset(")(")[')'] == 1;
  }

  // ---------------------------------------------------------------------
  // Statements and programs

  /** The literal of a program is where its rendering starts when the first
      statement is a `let` or a `return`; an empty program has literal and
      rendering "". */
  lemma ProgramLiteralOpensRendering(p: Program)
    requires AllWellFormed(p.statements)
    ensures |p.statements| == 0 ==> ProgramLiteral(p) == "" == ProgramString(p)
    ensures |p.statements| > 0 && (p.statements[0].LetStatement? || p.statements[0].ReturnStatement?) ==>
      StartsWith(ProgramString(p), ProgramLiteral(p))
  {
    var ss := p.statements;
    if |ss| > 0 && (ss[0].LetStatement? || ss[0].ReturnStatement?) {
      var parts := StatementStrings(ss);
      JoinEnds(parts, "\n");
      var first := ss[0];
      var lit := first.token.literal;
      assert ProgramLiteral(p) == lit;
      assert parts[0] == StatementString(first);
      if first.LetStatement? {
        assert parts[0] == lit + (" " + first.name.literal + " = " + first.value.token.literal + ";");
        ConcatEnds(lit, " " + first.name.literal + " = " + first.value.token.literal + ";");
      } else {
        assert parts[0] == lit + (" " + ExpressionString(first.returned.value) + ";");
        ConcatEnds(lit, " " + ExpressionString(first.returned.value) + ";");
      }
      StartsWithTrans(ProgramString(p), parts[0], lit);
    }
  }

  /** A rendered statement is never empty and ends with ';' or, for a block, '}'. */
  lemma StatementStringEnds(s: Statement)
    requires WellFormed(s)
    ensures |StatementString(s)| > 0
    ensures StatementString(s)[|StatementString(s)| - 1] == (if s.Block? then '}' else ';')
  {
  }

  /** An empty program renders as ""; any other program renders without a
      trailing newline: it ends with its last statement's ';' or '}'. */
  lemma {:induction false} ProgramStringEnds(p: Program)
    requires AllWellFormed(p.statements)
    ensures |p.statements| == 0 <==> ProgramString(p) == ""
    ensures |p.statements| > 0 ==>
      var r := ProgramString(p); |r| > 0 && r[|r| - 1] in {';', '}'}
  {
    var ss := p.statements;
    if |ss| > 0 {
      var parts := StatementStrings(ss);
      JoinEnds(parts, "\n");
      StatementStringEnds(ss[|ss| - 1]);
      var r := ProgramString(p);
      var l := parts[|parts| - 1];
      assert r[|r| - |l|..] == l;
      assert r[|r| - 1] == r[|r| - |l|..][|l| - 1];
    }
  }

  lemma {:induction false} StatementStringsAppend(a: seq<Statement>, b: seq<Statement>)
    requires AllWellFormed(a) && AllWellFormed(b)
    ensures AllWellFormed(a + b)
    ensures StatementStrings(a + b) == StatementStrings(a) + StatementStrings(b)
  {
    assert forall i :: 0 <= i < |a + b| ==> (a + b)[i] == if i < |a| then a[i] else b[i - |a|];
  }

  /** Rendering two non-empty programs one after the other is the rendering
      of each, separated by one newline. */
  lemma {:induction false} ProgramStringAppend(a: seq<Statement>, b: seq<Statement>)
    requires |a| > 0 && |b| > 0
    requires AllWellFormed(a) && AllWellFormed(b)
    ensures AllWellFormed(a + b)
    ensures ProgramString(Program(a + b)) == ProgramString(Program(a)) + "\n" + ProgramString(Program(b))
  {
    StatementStringsAppend(a, b);
    JoinAppend(StatementStrings(a), StatementStrings(b), "\n");
  }

  lemma IndentedAppend(parts: seq<string>, p: string)
    ensures Indented(parts + [p]) == Indented(parts) + ["\t" + p + "\n"]
  {
  }

  /** Adding a line to a braced list of lines inserts it before the "}". */
  lemma {:induction false} BracedAppend(lines: seq<string>, line: string)
    ensures var before := "{\n" + Concat(lines) + "}";
      "{\n" + Concat(lines + [line]) + "}" == before[..|before| - 1] + line + "}"
  {
    ConcatAppend(lines, [line]);
    assert Concat([line]) == line;
    var before := "{\n" + Concat(lines) + "}";
    assert before[..|before| - 1] == "{\n" + Concat(lines);
  }

  /** A block with no statements renders as "{\n}"; appending a statement to
      a block inserts one tab-indented line before the closing brace. */
  lemma {:induction false} BlockStringAppend(t: Token, ss: seq<Statement>, s: Statement)
    requires AllWellFormed(ss) && WellFormed(s)
    ensures BlockString(BlockStatement(t, [])) == "{\n}"
    ensures AllWellFormed(ss + [s])
    ensures var before := BlockString(BlockStatement(t, ss));
      BlockString(BlockStatement(t, ss + [s])) == before[..|before| - 1] + "\t" + StatementString(s) + "\n}"
  {
    assert Indented(StatementStrings([])) == [];
    StatementStringsAppend(ss, [s]);
    var line := "\t" + StatementString(s) + "\n";
    var lines := Indented(StatementStrings(ss));
    assert StatementStrings(ss + [s]) == StatementStrings(ss) + [StatementString(s)];
    IndentedAppend(StatementStrings(ss), StatementString(s));
    BracedAppend(lines, line);
    var before := BlockString(BlockStatement(t, ss));
    assert before[..|before| - 1] + line + "}" == before[..|before| - 1] + "\t" + StatementString(s) + "\n}";
  }

  /** A rendered `if` with at least one condition opens with "if ". */
  lemma IfStringOpens(s: Statement)
    requires s.IfExpression? && WellFormed(s) && |s.conditions| > 0
    ensures StartsWith(StatementString(s), "if ")
  {
    var clauses := IfClauses(s);
    var j := Join(clauses, " else ");
    JoinEnds(clauses, " else ");
    ConcatEnds("if ", ExpressionString(s.conditions[0]) + " " + BlockString(s.blocks[0]));
    assert clauses[0] == "if " + (ExpressionString(s.conditions[0]) + " " + BlockString(s.blocks[0]));
    StartsWithTrans(j, clauses[0], "if ");
    var rest := (if |s.conditions| < |s.blocks| then " else " + BlockString(s.blocks[|s.conditions|]) else "") + ";";
    assert StatementString(s) == j + rest;
    ConcatEnds(j, rest);
    StartsWithTrans(StatementString(s), j, "if ");
  }

  /** A rendered `if` ends with " else <block>;" when there are more blocks
      than conditions; the extra block is the one after the conditions'. */
  lemma IfStringElseTail(s: Statement)
    requires s.IfExpression? && WellFormed(s) && |s.conditions| < |s.blocks|
    ensures EndsWith(StatementString(s), " else " + BlockString(s.blocks[|s.conditions|]) + ";")
  {
    var j := Join(IfClauses(s), " else ");
    var tail := " else " + BlockString(s.blocks[|s.conditions|]) + ";";
    assert StatementString(s) == j + tail;
    ConcatEnds(j, tail);
  }

  /** Without an extra block, a rendered `if` with conditions ends with the
      block of its last condition and ";"; with neither, it is just ";". */
  lemma IfStringLastClauseTail(s: Statement)
    requires s.IfExpression? && WellFormed(s) && |s.conditions| == |s.blocks|
    ensures |s.conditions| > 0 ==> EndsWith(StatementString(s), BlockString(s.blocks[|s.conditions| - 1]) + ";")
    ensures |s.conditions| == 0 ==> StatementString(s) == ";"
  {
    var n := |s.conditions|;
    var clauses := IfClauses(s);
    var j := Join(clauses, " else ");
    assert StatementString(s) == j + ";";
    if n > 0 {
      JoinEnds(clauses, " else ");
      var b := BlockString(s.blocks[n - 1]);
      assert clauses[n - 1] == ("if " + ExpressionString(s.conditions[n - 1]) + " ") + b;
      ConcatEnds("if " + ExpressionString(s.conditions[n - 1]) + " ", b);
      EndsWithTrans(j, clauses[n - 1], b);
      EndsWithExtend(j, b, ";");
    } else {
      assert clauses == [];
    }
  }

  // ---------------------------------------------------------------------
  // CallExpression.String as written

  /** The source writes the literal, "(" and the first argument before it
      checks the argument count, so a call without arguments panics (None
      here); every further argument is written preceded by ", ". */
  function CallStringAsWritten(e: Expression): (r: Option<string>)
    requires e.CallExpression?
    ensures r.None? <==> |e.args| == 0
  {
    if |e.args| == 0 then None
    else
      var parts := ExpressionStrings(e.args);
      Some(e.token.literal + "(" + parts[0] + Concat(Prefixed(", ", parts[1..])) + ")")
  }

  /** Where the source's rendering does not panic it agrees with ExpressionString. */
  lemma CallStringAsWrittenAgrees(e: Expression)
    requires e.CallExpression? && |e.args| > 0
    ensures CallStringAsWritten(e) == Some(ExpressionString(e))
  {
    var parts := ExpressionStrings(e.args);
    JoinAsPrefixed(parts, ", ");
    assert CallStringAsWritten(e).value == e.token.literal + "(" + (parts[0] + Concat(Prefixed(", ", parts[1..]))) + ")";
  }

  /** The input that shows the difference: a call with no arguments panics
      as written, and renders as "<literal>()" in ExpressionString. */
  lemma CallWithoutArguments(t: Token, callee: Token)
    ensures CallStringAsWritten(CallExpression(t, callee, [])) == None
    ensures ExpressionString(CallExpression(t, callee, [])) == t.literal + "()"
  {
    assert ExpressionStrings([]) == [];
  }
}
