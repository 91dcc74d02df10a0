# Interpreter front half: tokens, syntax tree, statement parser, statement evaluator

This project models the front half of a small tree-walking interpreter written in Go:

- **Tokens** (`token.dfy`, module `Tokens`). The closed set of token kinds, tokens (a kind and its literal text) and the two-entry keyword table behind `MapSourceToToken`.
- **Syntax tree** (`ast.dfy`, `render.dfy`, `ast_facts.dfy`; modules `Ast`, `Render`, `AstFacts`).
  - The tree has these node variants: program, block, `let`, `return`, `if`, expression statement, identifier, boolean, integer, prefix, infix and call.
  - Each node has a `TokenLiteral` and a `String` rendering, written as recursive functions.
  - The renderers that loop over a `strings.Builder` (program, block, `if`, call) are also written as methods with loops. Each loop method is proved equal to its function.
  - `AstFacts` proves shape facts about the output: balanced expressions, fully parenthesised ones when no literal holds a parenthesis; no trailing newline; how `else` chains end.
- **Statement parser** (`lexer.dfy`, `parser_spec.dfy`, `parser.dfy`, `parser_facts.dfy`; modules `Lexing`, `ParserSpec`, `Parser`, `ParserFacts`).
  - The `Parser` class keeps a current/peek token window over a lexer and advances it in place.
  - `ParseProgram` loops to EOF. It recognises `let IDENTIFIER = INT ;` and `return (IDENTIFIER | INT) ;` and stores a nil statement for any other token. It records one error per failed statement and recovers by skipping to the next `;` or EOF.
  - Every parser method is proved to follow a pure function of the token stream and the current position (`ParserSpec`). `ParserFacts` proves properties of those functions.
  - The lexer is a finite token sequence that returns EOF forever once exhausted.
- **Statement evaluation** (`evaluator.dfy`, module `Evaluator`).
  - Dispatch over the statement kinds, with blocks run in the current scope.
  - The single-binding `let`: it fails if the name is bound; otherwise it evaluates the initializer, binds the value and yields Null.
  - `return` with a missing expression yields Null.
  - The environment is a class holding one map of bindings, with `Get` and `Create`. Expression evaluation and program evaluation are function parameters.

`wrappers.dfy` holds `Option` and `Result`. `text.dfy` holds string concatenation, joining and parenthesis balance, with their lemmas.

Go panics are modelled as `Err` results carrying the panic message, or as violated preconditions (rendering a tree that contains a nil node). Go `error` values are message strings.

## Model

| member | source | states |
|---|---|---|
| Tokens.NameRoundTrip | token/token.go:3-31 | every token kind is recovered from its string constant |
| Tokens.NamesDistinct | token/token.go:3-31 | two kinds have equal strings exactly when they are the same kind, so comparing kinds by string is comparing kinds |
| Tokens.KeywordTableShape | token/token.go:40-43 | the keyword table has exactly two entries, for "let" and "fn" |
| Tokens.MapSourceToToken | token/token.go:40-48 | lookup succeeds exactly for "let" and "fn". It gives LET/"let" and FUNCTION/"fn", and a found token's literal is the looked-up string |
| AstFacts.ProgramLiteralOpensRendering | ast/ast.go:25-44 | an empty program has literal and rendering ""; when the first statement is a `let` or `return`, the rendering starts with the program's literal |
| Render.BuildProgramString | ast/ast.go:34-44 | the loop writes the statement renderings in order, joined by "\n" with none after the last |
| Render.BuildBlockString | ast/ast.go:53-63 | the loop writes "{\n", then "\t"+statement+"\n" for each statement in order, then "}" |
| Render.BuildIfString | ast/ast.go:115-135 | the loop writes one "if c b" clause per condition, separated by " else ". It adds " else "+block only when there are more blocks than conditions, and ends with ";" |
| Render.BuildCallString | ast/ast.go:225-237 | the loop writes literal + "(" + the arguments separated by ", " + ")", and a call without arguments renders as "literal()" |
| AstFacts.ExpressionStringBalanced | ast/ast.go:182-237 | if every token literal is balanced, the rendering of an expression has as many "(" as ")" |
| AstFacts.OperatorsParenthesised | ast/ast.go:182-214 | prefix and infix expressions render starting with "(" and ending with ")"; when no token literal holds a parenthesis, the opening "(" is closed by the final ")" and by nothing earlier, and everything inside nests properly |
| AstFacts.ParenthesisedLiteralBreaksPairing | ast/ast.go:200-214 | an infix expression whose identifier literal is ")(" has balanced literals yet renders as "()( + r)", whose outer parentheses do not form one pair |
| AstFacts.ExpressionStringNested | ast/ast.go:182-237 | when no token literal holds a parenthesis, the rendering of any expression is properly nested: no prefix closes more parentheses than it opened, and all are closed |
| AstFacts.StatementStringEnds | ast/ast.go:53-145 | a rendered statement is non-empty and ends with "}" for a block and ";" otherwise |
| AstFacts.ProgramStringEnds | ast/ast.go:34-44 | an empty program renders as "" (and only an empty one), and any other program ends with ';' or '}', never a newline |
| AstFacts.ProgramStringAppend | ast/ast.go:34-44 | rendering two non-empty statement lists together is the two renderings separated by exactly one "\n" |
| AstFacts.BlockStringAppend | ast/ast.go:53-63 | an empty block renders as "{\n}", and appending a statement inserts one tab-indented line before the closing brace |
| AstFacts.IfStringOpens | ast/ast.go:118-127 | an `if` with at least one condition renders starting with "if " |
| AstFacts.IfStringElseTail | ast/ast.go:128-132 | with more blocks than conditions, the rendering ends with " else " + the block after the conditions' blocks + ";" |
| AstFacts.IfStringLastClauseTail | ast/ast.go:118-132 | with as many blocks as conditions, the rendering ends with the last condition's block + ";", or is just ";" when there are none |
| AstFacts.CallStringAsWritten | ast/ast.go:225-237 | the source's call rendering panics exactly when there are no arguments |
| AstFacts.CallStringAsWrittenAgrees | ast/ast.go:228-233 | when there is an argument, the source's call rendering equals the model's rendering |
| AstFacts.CallWithoutArguments | ast/ast.go:228-229 | a call without arguments panics as written, and renders "literal()" in the model |
| Parser.PrecedencesIncrease | parser/util.go:9-18 | the precedence levels run from LOWEST = 1 to CALL = 7 and strictly increase |
| ParserSpec.BadTokenTypeMessageShape | parser/util.go:20-22 | the message starts with "error - expected: " and ends with the name of the kind that was found |
| ParserSpec.SkipTo | parser/util.go:35-39 | skipping from position i stops at a SEMICOLON or EOF at or after i, and nothing between is a SEMICOLON or EOF |
| Parser.Parser.SkipToSemicolon | parser/util.go:35-39 | the loop advances the current token to exactly that first SEMICOLON or EOF |
| ParserFacts.SkipToIdempotent | parser/util.go:35-39 | skipping from a SEMICOLON or EOF is a no-op, and skipping twice is skipping once |
| ParserFacts.SkipToStopsAtFirst | parser/util.go:36-38 | skipping never passes a SEMICOLON or EOF |
| Parser.Parser.constructor | parser/parser.go:25-32 | after creation the current token is the lexer's next token and the peek token the one after it |
| Parser.Parser.NextToken | parser/parser.go:34-37 | the peek token moves into the current token and exactly one fresh token is pulled from the lexer |
| ParserSpec.ParseLet | parser/parser.go:67-100 | parsing a `let` consumes between one and four tokens after the LET token |
| Parser.Parser.ParseLetStatement | parser/parser.go:67-100 | the method's result and final position are those of ParseLet |
| ParserFacts.ParseLetAccepts | parser/parser.go:67-100 | `let` succeeds exactly on LET IDENTIFIER EQUAL INT SEMICOLON. The statement holds the LET token, the identifier token and an integer expression of the INT token, and the parser is left on the SEMICOLON |
| ParserFacts.ParseLetReportsFirstMismatch | parser/parser.go:71-92 | a failed `let` stops on the first token of the wrong kind, after all earlier ones matched. The message names the expected kind ("expression" in place of INT) and the kind found |
| ParserSpec.ParseReturn | parser/parser.go:102-125 | parsing a `return` consumes one or two tokens after the RETURN token |
| Parser.Parser.ParseReturnStatement | parser/parser.go:102-125 | the method's result and final position are those of ParseReturn |
| ParserFacts.ParseReturnAccepts | parser/parser.go:102-125 | `return` succeeds exactly on RETURN (IDENTIFIER or INT) SEMICOLON, and holds the matching identifier or integer expression |
| ParserFacts.ParseLetRenders | parser/parser.go:67-100 | a `let` the parser accepts renders back (ast/ast.go:74-85) as the literals of its tokens: "<let> <name> = <value>;" |
| ParserFacts.ParseReturnRenders | parser/parser.go:102-125 | a `return` the parser accepts renders back (ast/ast.go:95-105) as the literals of its tokens: "<return> <value>;" |
| ParserFacts.ParseReturnReportsFirstMismatch | parser/parser.go:105-118 | a failed `return` stops on the bad token, with the "expected: expression" or the SEMICOLON message |
| ParserSpec.ParseStatement | parser/parser.go:44-50 | a statement start never moves the parser backwards; a token that is neither LET nor RETURN yields the nil statement |
| ParserSpec.NextStart | parser/parser.go:52-59 | each iteration advances at least one token, after skipping to SEMICOLON or EOF when the statement failed |
| ParserSpec.ParseStep | parser/parser.go:43-60 | recording the statement at a non-EOF position and continuing from NextStart gives the same outcome as parsing from that position |
| Parser.Parser.ParseRound | parser/parser.go:44-59 | one loop iteration appends the statement's result (statement or error) and leaves the current token at NextStart |
| Parser.Parser.ParseProgram | parser/parser.go:39-63 | the loop ends on EOF with the statements and errors of ParseFrom, and statements plus errors equal the number of iterations |
| ParserFacts.EntriesBounded | parser/parser.go:43-60 | a program has at most as many statements plus errors as there are tokens left in the stream |
| ParserFacts.ParsedStatementsForm | parser/parser.go:43-60 | every parsed statement is nil, a `let` of an integer, or a `return` of an identifier or integer, and all but nil can be rendered |
| ParserFacts.NilPerToken | parser/parser.go:43-60 | a stream without LET, RETURN and EOF yields one nil statement per token and no errors |
| ParserFacts.Example | parser/parser.go:39-63 | `let x = 5; return ;` parses to the `let` statement and the error "error - expected: expression - got: ;" |
| Evaluator.EvalStatement | evaluator/eval_statement.go:8-21 | blocks, expression statements, `let` and `return` are dispatched. An expression statement yields its expression's value (or failure) in the same bindings. A `return` yields Null without an expression and otherwise its expression's value (evaluator/eval_statement.go:40-46), and changes nothing. Any other kind fails with "unknown statement type" and changes nothing |
| Evaluator.EvalBlockStatement | evaluator/eval_statement.go:23-26 | a block runs its statements as a program on the same bindings, with no new scope |
| Evaluator.EvalLetStatement | evaluator/eval_statement.go:28-38 | a bound name fails with "variable: <name> already exists" and binds nothing. For an unbound name the initializer is evaluated before the name exists: a failure propagates and binds nothing, otherwise the name gets the value and the result is Null. No earlier binding changes |
| Evaluator.LetRedeclarationFails | evaluator/eval_statement.go:28-38 | running the same `let` again on the bindings a successful run left fails with "already exists" and changes nothing |
| Evaluator.Environment.Create | evaluator/eval_statement.go:36 | creating binds the name to the value and changes nothing else |

## Findings

| source | as written | input that shows it | evidently intended | confidence | as-written member | corrected member |
|---|---|---|---|---|---|---|
| ast/ast.go:228-233 | `CallExpression.String` reads `Args[0]` and only then checks `len(Args) != 0` | a call expression with no arguments: reading `Args[0]` panics with index out of range | the guard protects the first argument; a call without arguments renders as "f()" | medium, not executed | AstFacts.CallStringAsWritten | Render.BuildCallString |

`AstFacts.CallWithoutArguments` shows the discrepancy on the empty argument list. `AstFacts.CallStringAsWrittenAgrees` shows that the two renderings agree whenever there is an argument. `Ast.ExpressionString` and `Render.BuildCallString` use the corrected rendering.

## Left out

- The lexer's scanning rules are left out; the lexer is not part of this model. The token stream is a finite sequence followed by EOF tokens with literal "". That literal is an assumption.
- `token.IDENTIFIER` and `token.RETURN` are used by the parser but not declared in token/token.go. They are modelled as two more kinds, named "IDENTIFIER" and "RETURN" and distinct from every other kind. Those two names appear only in error messages.
- `MapSourceToToken` returns `Option<Token>` instead of Go's pair of a token and a flag. On a miss Go returns the zero token, which this model does not represent.
- `currTokenIsLegalPrefix` and `ast.IsLegalPrefixOperator` are left out: the operator table is not part of this model, and nothing in the modelled code calls them.
- The `prefixParseFns`/`infixParseFns` tables and precedence-climbing expression parsing are left out. The source declares them but never fills or uses them; only the precedence constants are modelled.
- `Parser.CurrTokenIs` is a reads-only function of the current token. The source promises nothing more of it, so it has no row.
- The environment is a single map. Whether `Get` also searches enclosing scopes, and whether `Create` checks for redeclaration itself, is decided by code that is not part of this model. The code checks `Get` before `let`, and the model follows that code. Scopes nested inside one another, where an inner binding could shadow an outer one, are not modelled.
- `Eval` (programs, including any `return` short-circuit) and `EvalExpression` are function parameters. Expression evaluation is assumed not to change the bindings. A panic inside `EvalExpression` is an `Err` result: it propagates out of the statement, and a `let` whose initializer panics binds nothing.
- Evaluator.EvalStatement: dispatches a block to `EvalBlockStatement`, as the switch evidently intends. As written, the case `ast.BlockStatement` (evaluator/eval_statement.go:10) names the value type, whose `statementNode`, `TokenLiteral` and `String` methods have pointer receivers (ast/ast.go:51-53). That value type therefore does not implement `ast.Statement`, so Go rejects the case as impossible, and a `*ast.BlockStatement` would fall to `default` and panic. The model follows the intent.
- Runtime values other than Null are opaque (`Opaque(id)`): the object model is not part of this model.
- AstFacts.OperatorsParenthesised: the pairing of the outer parentheses is promised only when no token literal holds a parenthesis. A literal such as ")(" breaks it: the infix `)( + r` renders as "()( + r)", whose first "(" closes at the second character (`AstFacts.ParenthesisedLiteralBreaksPairing`). The first and last characters are "(" and ")" in every case.
- Rendering requires a well-formed tree: no nil statement, no `return` with a nil expression, and no `if` with fewer blocks than conditions. On such trees the source panics.
- A `let` with a nil initializer (Go's zero `LetStatement`) cannot be represented. The parser never builds one.
- The `if` statement is not handled by `EvalStatement`'s switch, so it fails like any unknown kind, as in the source.
- In two places the code does less than its comments and declarations suggest; the model follows the code:
  - `ParseProgram` stores a nil statement for tokens other than `let`/`return`; it does not parse an expression statement.
  - An `if` needs only at least as many blocks as conditions, not exactly as many or one more.
- The command-line driver and REPL (main.go) are left out, and so is everything they print.
