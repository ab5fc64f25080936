/** A static type for expressions, computed from the typing table alone, and its
    agreement with evaluation: an expression whose type is known evaluates to a value
    of that type unless it divides by zero, and an expression that evaluates has the
    type of its value. The C++ checks operand types only when an operator runs. */
module TypeSoundness {
  import opened Results
  import opened Values
  import opened Tokens
  import opened Ast
  import opened Environment
  import opened Typing
  import opened Evaluator

  type TypeEnv = map<string, Ty>

  /** The types of the bindings visible in `env`. */
  function TypesOf(env: seq<Scope>): (tenv: TypeEnv)
    ensures tenv.Keys == Flatten(env).Keys
  {
    map name | name in Flatten(env) :: TypeOf(Flatten(env)[name])
  }

  /** The type of `e` when every identifier has a type in `tenv` and every operator
      accepts its operands' types. */
  function ExprType(e: Expr, tenv: TypeEnv): Option<Ty> {
    match e
    case LiteralExpr(v) => Some(TypeOf(v))
    case IdentifierExpr(name) => if name in tenv then Some(tenv[name]) else None
    case GroupingExpr(inner) => ExprType(inner, tenv)
    case UnaryExpr(op, operand) =>
      var t := ExprType(operand, tenv);
      if t.None? then None else UnaryType(op.kind, t.value)
    case BinaryExpr(left, op, right) =>
      var l := ExprType(left, tenv);
      var r := ExprType(right, tenv);
      if l.None? || r.None? then None else BinaryType(op.kind, l.value, r.value)
  }

  /** A variable's value has the type the type environment gives it. */
  lemma LookupTyped(env: seq<Scope>, name: string)
    ensures Lookup(env, name).Some? <==> name in TypesOf(env)
    ensures Lookup(env, name).Some? ==> TypeOf(Lookup(env, name).value) == TypesOf(env)[name]
  {
    LookupFlatten(env, name);
  }

  /** Soundness: a well-typed expression evaluates to a value of its type, or fails
      only by dividing by zero. */
  lemma {:induction false} EvalSound(e: Expr, env: seq<Scope>)
    requires ExprType(e, TypesOf(env)).Some?
    ensures Eval(e, env).Ok? ==> TypeOf(Eval(e, env).value) == ExprType(e, TypesOf(env)).value
    ensures Eval(e, env).Err? ==> Eval(e, env).error == DivisionByZero
  {
    match e
    case LiteralExpr(_) =>
    case IdentifierExpr(name) => LookupTyped(env, name);
    case GroupingExpr(inner) => EvalSound(inner, env);
    case UnaryExpr(_, operand) => EvalSound(operand, env);
    case BinaryExpr(left, _, right) =>
      EvalSound(left, env);
      EvalSound(right, env);
  }

  /** Completeness: an expression that evaluates has the type of its value. */
  lemma {:induction false} EvalTyped(e: Expr, env: seq<Scope>)
    requires Eval(e, env).Ok?
    ensures ExprType(e, TypesOf(env)) == Some(TypeOf(Eval(e, env).value))
  {
    match e
    case LiteralExpr(_) =>
    case IdentifierExpr(name) => LookupTyped(env, name);
    case GroupingExpr(inner) => EvalTyped(inner, env);
    case UnaryExpr(_, operand) => EvalTyped(operand, env);
    case BinaryExpr(left, _, right) =>
      EvalTyped(left, env);
      EvalTyped(right, env);
  }
}
