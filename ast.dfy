/** The syntax tree of ast/ast.go and its text rendering (the `TokenLiteral`
    and `String` methods of every node). */
module Ast {
  import opened Wrappers
  import opened Tokens
  import opened Text

  /** Expression nodes. Every variant carries the token it was built from. */
  datatype Expression =
    | IdentifierExpression(token: Token)
    | BooleanExpression(token: Token)
    | IntExpression(token: Token)
    | PrefixExpression(token: Token, operand: Expression)
    | InfixExpression(token: Token, left: Expression, right: Expression)
      /** `callee` is the token of the called identifier; the rendering uses
          `token` instead. */
    | CallExpression(token: Token, callee: Token, args: seq<Expression>)

  /** Statement nodes. `Nil` is Go's nil statement, which the parser stores
      for a statement it did not recognise. `IfExpression` is a statement
      node in the source. */
  datatype Statement =
    | Block(block: BlockStatement)
    | LetStatement(token: Token, name: Token, value: Expression)
      /** `returned == None` is a return with a nil expression. */
    | ReturnStatement(token: Token, returned: Option<Expression>)
    | IfExpression(token: Token, conditions: seq<Expression>, blocks: seq<BlockStatement>)
    | ExpressionStatement(token: Token, expression: Expression)
    | Nil

  datatype BlockStatement = BlockStatement(token: Token, statements: seq<Statement>)

  datatype Program = Program(statements: seq<Statement>)

  // ---------------------------------------------------------------------
  // Token literals

  function ExpressionLiteral(e: Expression): string
  {
    e.token.literal
  }

  /** A nil statement has no literal (Go panics on the method call). */
  function StatementLiteral(s: Statement): string
    requires s != Nil
  {
    if s.Block? then s.block.token.literal else s.token.literal
  }

  /** The literal of a program is that of its first statement. */
  function ProgramLiteral(p: Program): string
    requires |p.statements| > 0 ==> p.statements[0] != Nil
  {
    if |p.statements| > 0 then StatementLiteral(p.statements[0]) else ""
  }

  // ---------------------------------------------------------------------
  // Which trees can be rendered

  /** A statement can be rendered when it contains no nil statement, no
      return with a nil expression, and every `if` has a block for each of
      its conditions (and the block after them, when there is one, renders too). */
  predicate WellFormed(s: Statement)
    decreases s, 1
  {
    match s
    case Block(b) => BlockWellFormed(b)
    case LetStatement(_, _, _) => true
    case ReturnStatement(_, r) => r.Some?
    case IfExpression(_, conds, blocks) =>
      |conds| <= |blocks| &&
      forall i :: 0 <= i <= |conds| && i < |blocks| ==> BlockWellFormed(blocks[i])
    case ExpressionStatement(_, _) => true
    case Nil => false
  }

  predicate BlockWellFormed(b: BlockStatement)
    decreases b, 0
  {
    AllWellFormed(b.statements)
  }

  predicate AllWellFormed(ss: seq<Statement>)
    decreases ss, 2
  {
    forall i :: 0 <= i < |ss| ==> WellFormed(ss[i])
  }

  // ---------------------------------------------------------------------
  // Rendering

  function ExpressionString(e: Expression): string
    decreases e, 1
  {
    match e
    case IdentifierExpression(t) => t.literal
    case BooleanExpression(t) => t.literal
    case IntExpression(t) => t.literal
    case PrefixExpression(t, operand) => "(" + t.literal + ExpressionString(operand) + ")"
    case InfixExpression(t, l, r) => "(" + ExpressionString(l) + " " + t.literal + " " + ExpressionString(r) + ")"
    case CallExpression(t, _, args) => t.literal + "(" + Join(ExpressionStrings(args), ", ") + ")"
  }

  function ExpressionStrings(es: seq<Expression>): (r: seq<string>)
    ensures |r| == |es|
    decreases es, 0
  {
    seq(|es|, i requires 0 <= i < |es| => ExpressionString(es[i]))
  }

  function StatementString(s: Statement): string
    requires WellFormed(s)
    decreases s, 1
  {
    match s
    case Block(b) => BlockString(b)
    case LetStatement(t, name, v) => t.literal + " " + name.literal + " = " + v.token.literal + ";"
    case ReturnStatement(t, r) => t.literal + " " + ExpressionString(r.value) + ";"
    case IfExpression(_, conds, blocks) =>
      Join(IfClauses(s), " else ")
      + (if |conds| < |blocks| then " else " + BlockString(blocks[|conds|]) else "")
      + ";"
    case ExpressionStatement(_, e) => ExpressionString(e) + ";"
  }

  /** One "if <condition> <block>" per condition of an `if` statement. */
  function IfClauses(s: Statement): (r: seq<string>)
    requires s.IfExpression? && WellFormed(s)
    ensures |r| == |s.conditions|
    decreases s, 0
  {
    seq(|s.conditions|, i requires 0 <= i < |s.conditions| =>
      "if " + ExpressionString(s.conditions[i]) + " " + BlockString(s.blocks[i]))
  }

  function StatementStrings(ss: seq<Statement>): (r: seq<string>)
    requires AllWellFormed(ss)
    ensures |r| == |ss|
    decreases ss, 0
  {
    seq(|ss|, i requires 0 <= i < |ss| => StatementString(ss[i]))
  }

  /** A tab before and a newline after each statement. */
  function Indented(parts: seq<string>): (r: seq<string>)
    ensures |r| == |parts|
  {
    seq(|parts|, i requires 0 <= i < |parts| => "\t" + parts[i] + "\n")
  }

  function BlockString(b: BlockStatement): string
    requires BlockWellFormed(b)
    decreases b, 1
  {
    "{\n" + Concat(Indented(StatementStrings(b.statements))) + "}"
  }

  function ProgramString(p: Program): string
    requires AllWellFormed(p.statements)
  {
    Join(StatementStrings(p.statements), "\n")
  }
}
