/** Statement evaluation of evaluator/eval_statement.go. Expression
    evaluation and program evaluation live elsewhere in the source; they are
    parameters here. The environment is a single scope of bindings. */
module Evaluator {
  import opened Wrappers
  import opened Tokens
  import opened Ast

  /** Runtime values. The statement evaluator only ever builds Null; every
      other value comes from expression evaluation and is opaque here. */
  datatype Object = NullObj | Opaque(id: nat)

  /** The bindings visible to a statement. */
  class Environment {
    var store: map<string, Object>

    constructor ()
      ensures store == map[]
    {
      store := map[];
    }

    /** The binding of `name`, or None (Go's nil) when there is none. A name
        bound to Null is still bound. */
    function Get(name: string): Option<Object>
      reads this
    {
      if name in store then Some(store[name]) else None
    }

    method Create(name: string, value: Object)
      modifies this
      ensures store == old(store)[name := value]
    {
      store := store[name := value];
    }
  }

  /** `EvalExpression`: the value of an expression under the given bindings,
      or the failure it panics with. */
  type ExpressionEvaluator = (Expression, map<string, Object>) -> Result<Object>

  /** `Eval` of a program: its result (or the failure it panics with) and
      the bindings it leaves behind. */
  type ProgramEvaluator = (Program, map<string, Object>) -> (Result<Object>, map<string, Object>)

  /** The panic of the dispatch for a statement kind it does not handle. */
  const UnknownStatement: string := "unknown statement type"

  /** The panic of a `let` whose name is already bound. */
  function AlreadyExists(name: string): string
  {
    "variable: " + name + " already exists"
  }

  /** Evaluate one statement: blocks, expression statements, `let` and
      `return` are handled; any other kind (an `if`, the nil statement) is a
      fatal failure that changes nothing. */
  method EvalStatement(s: Statement, env: Environment, evalExpression: ExpressionEvaluator, eval: ProgramEvaluator)
    returns (r: Result<Object>)
    modifies env
    ensures s.Block? ==> (r, env.store) == eval(Program(s.block.statements), old(env.store))
    ensures s.ExpressionStatement? ==>
      r == evalExpression(s.expression, old(env.store)) && env.store == old(env.store)
    ensures s.LetStatement? ==> LetEffect(s, old(env.store), evalExpression, r, env.store)
    ensures s.ReturnStatement? ==>
      r == (if s.returned.None? then Ok(NullObj) else evalExpression(s.returned.value, old(env.store))) &&
      env.store == old(env.store)
    ensures s.IfExpression? || s == Nil ==> r == Err(UnknownStatement) && env.store == old(env.store)
  {
    match s
    case Block(b) =>
      r := EvalBlockStatement(b, env, eval);
    case ExpressionStatement(_, e) =>
      r := evalExpression(e, env.store);
    case LetStatement(_, _, _) =>
      r := EvalLetStatement(s, env, evalExpression);
    case ReturnStatement(_, _) =>
      r := EvalReturnStatement(s, env, evalExpression);
    case _ =>
      r := Err(UnknownStatement);
  }

  /** A block runs its statements as a program in the same environment: no
      new scope is created, and the bindings it leaves are the program's. */
  method EvalBlockStatement(b: BlockStatement, env: Environment, eval: ProgramEvaluator) returns (r: Result<Object>)
    modifies env
    ensures (r, env.store) == eval(Program(b.statements), old(env.store))
  {
    var result := eval(Program(b.statements), env.store);
    r := result.0;
    env.store := result.1;
  }

  /** What a `let` does to the bindings `before`, as result `r` and bindings
      `after`: a bound name fails and binds nothing. For an unbound name the
      initializer is evaluated before the name exists: if that fails, the
      failure propagates and nothing is bound; otherwise the name gets its
      value and the statement yields Null. Either way no earlier binding
      changes. */
  ghost predicate LetEffect(s: Statement, before: map<string, Object>, evalExpression: ExpressionEvaluator,
                            r: Result<Object>, after: map<string, Object>)
    requires s.LetStatement?
  {
    var name := s.name.literal;
    (name in before ==> r == Err(AlreadyExists(name)) && after == before) &&
    (name !in before && evalExpression(s.value, before).Err? ==>
      r == evalExpression(s.value, before) && after == before) &&
    (name !in before && evalExpression(s.value, before).Ok? ==>
      r == Ok(NullObj) && after == before[name := evalExpression(s.value, before).value]) &&
    (forall x :: x in before ==> x in after && after[x] == before[x])
  }

  method EvalLetStatement(s: Statement, env: Environment, evalExpression: ExpressionEvaluator) returns (r: Result<Object>)
    requires s.LetStatement?
    modifies env
    ensures LetEffect(s, old(env.store), evalExpression, r, env.store)
    ensures r.Ok? ==> s.name.literal in env.store
  {
    var name := s.name.literal;
    var existing := env.Get(name);
    if existing.Some? {
      return Err(AlreadyExists(name));
    }
    var value := evalExpression(s.value, env.store);
    if value.Err? {
      return value;
    }
    env.Create(name, value.value);
    r := Ok(NullObj);
  }

  /** The value of a `return`: Null without an expression, otherwise the
      expression's value. */
  method EvalReturnStatement(s: Statement, env: Environment, evalExpression: ExpressionEvaluator) returns (r: Result<Object>)
    requires s.ReturnStatement?
    ensures s.returned.None? ==> r == Ok(NullObj)
    ensures s.returned.Some? ==> r == evalExpression(s.returned.value, env.store)
  {
    if s.returned.None? {
      return Ok(NullObj);
    }
    r := evalExpression(s.returned.value, env.store);
  }

  /** Running the same `let` a second time on the bindings the first run
      left behind fails with "already exists" and changes nothing; a `let`
      runs at most once per name. */
  lemma LetRedeclarationFails(s: Statement, before: map<string, Object>, evalExpression: ExpressionEvaluator,
                              r1: Result<Object>, middle: map<string, Object>,
                              r2: Result<Object>, after: map<string, Object>)
    requires s.LetStatement?
    requires LetEffect(s, before, evalExpression, r1, middle) && r1.Ok?
    requires LetEffect(s, middle, evalExpression, r2, after)
    ensures s.name.literal in middle
    ensures r2 == Err(AlreadyExists(s.name.literal)) && after == middle
  {
  }
}
