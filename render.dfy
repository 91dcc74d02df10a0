/** The `String` methods of ast/ast.go that build their output in a loop over
    a `strings.Builder`, each proved to produce the rendering of Ast. */
module Render {
  import opened Tokens
  import opened Text
  import opened Ast

  /** Program.String: each statement, with a newline after every one but the last. */
  method BuildProgramString(p: Program) returns (out: string)
    requires AllWellFormed(p.statements)
    ensures out == ProgramString(p)
  {
    var ss := p.statements;
    ghost var parts := StatementStrings(ss);
    out := "";
    var i := 0;
    while i < |ss|
      invariant 0 <= i <= |ss|
      invariant out == Join(parts[..i], "\n") + (if 0 < i < |ss| then "\n" else "")
    {
      out := out + StatementString(ss[i]);
      if i < |ss| - 1 {
        out := out + "\n";
      }
      assert parts[..i + 1][..i] == parts[..i];
      i := i + 1;
    }
    assert parts[..|ss|] == parts;
  }

  /** BlockStatement.String: an opening brace line, one tab-indented line per
      statement, a closing brace. */
  method BuildBlockString(b: BlockStatement) returns (out: string)
    requires BlockWellFormed(b)
    ensures out == BlockString(b)
  {
    var ss := b.statements;
    ghost var lines := Indented(StatementStrings(ss));
    out := "{\n";
    var i := 0;
    while i < |ss|
      invariant 0 <= i <= |ss|
      invariant out == "{\n" + Concat(lines[..i])
    {
      out := out + ("\t" + StatementString(ss[i]) + "\n");
      assert lines[..i + 1][..i] == lines[..i];
      i := i + 1;
    }
    assert lines[..|ss|] == lines;
    out := out + "}";
  }

  /** IfExpression.String: the clauses separated by " else ", the trailing
      block when there are more blocks than conditions, then ";". */
  method BuildIfString(s: Statement) returns (out: string)
    requires s.IfExpression? && WellFormed(s)
    ensures out == StatementString(s)
  {
    var conds, blocks := s.conditions, s.blocks;
    ghost var clauses := IfClauses(s);
    out := "";
    var i := 0;
    while i < |conds|
      invariant 0 <= i <= |conds|
      invariant out == Join(clauses[..i], " else ")
    {
      if i != 0 {
        out := out + " else ";
      }
      out := out + ("if " + ExpressionString(conds[i]) + " " + BlockString(blocks[i]));
      assert clauses[..i + 1][..i] == clauses[..i];
      i := i + 1;
    }
    assert clauses[..|conds|] == clauses;
    if |conds| < |blocks| {
      out := out + (" else " + BlockString(blocks[i]));
    }
    out := out + ";";
  }

  /** CallExpression.String, with the first argument read only when there is
      one (see CallStringAsWritten for the source's unguarded read). */
  method BuildCallString(e: Expression) returns (out: string)
    requires e.CallExpression?
    ensures out == ExpressionString(e)
  {
    var args := e.args;
    ghost var parts := ExpressionStrings(args);
    out := e.token.literal + "(";
    if |args| != 0 {
      out := out + ExpressionString(args[0]);
      var i := 1;
      while i < |args|
        invariant 1 <= i <= |args|
        invariant out == e.token.literal + "(" + Join(parts[..i], ", ")
      {
        out := out + (", " + ExpressionString(args[i]));
        assert parts[..i + 1][..i] == parts[..i];
        i := i + 1;
      }
      assert parts[..|args|] == parts;
    }
    out := out + ")";
  }
}
