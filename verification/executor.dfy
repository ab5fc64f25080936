/** The `execute` methods of the declarations in declaration.cpp, and the statements
    they wrap, as functions from a state to the next state.

    The state is the scope chain plus everything printed so far. A `while` loop need not
    terminate, so execution takes a fuel bound: each iteration of a loop body costs one
    unit, and running out of fuel is reported as OutOfFuel rather than as a result. */
module Executor {
  import opened Results
  import opened Values
  import opened Tokens
  import opened Ast
  import opened Environment
  import opened Evaluator

  datatype ExecError = Runtime(error: EvalError) | OutOfFuel

  /** The scope chain and the values printed so far, oldest first. */
  datatype State = State(env: Env, out: seq<Literal>)

  /** The condition rule of `if` and `while`: a value that is not a boolean counts as
      true, a boolean as itself. */
  predicate Truthy(v: Literal) {
    !v.Bool? || v.b
  }

  /** What a declaration may do to the scope chain: keep its depth, leave every outer
      scope's names as they are, and only add names to the innermost scope. Values may
      change anywhere through assignment. */
  predicate Grows(before: Env, after: Env) {
    && |after| == |before|
    && (forall i :: 0 <= i < |before| - 1 ==> after[i].Keys == before[i].Keys)
    && before[|before| - 1].Keys <= after[|before| - 1].Keys
  }

  /** What a run may do to a state: the chain grows as above and output is only appended. */
  predicate Step(before: State, after: State) {
    Grows(before.env, after.env) && before.out <= after.out
  }

  /** `print(e)` appends the value of `e` to the output; `x = e` rebinds `x` in the
      innermost scope that binds it and fails when none does; an expression statement
      is evaluated for its errors only. Nothing but those effects happens. */
  function ExecStmt(s: Stmt, st: State): (r: Result<State, ExecError>)
    ensures r.Ok? ==> SameKeys(st.env, r.value.env)
    ensures r.Ok? && !s.PrintStmt? ==> r.value.out == st.out
    ensures r.Ok? && s.PrintStmt? ==> |r.value.out| == |st.out| + 1 && r.value.out[..|st.out|] == st.out
    ensures r.Ok? && !s.AssignStmt? ==> r.value.env == st.env
    ensures r.Ok? <==> Eval(s.expr, st.env).Ok? && (s.AssignStmt? ==> Lookup(st.env, s.name).Some?)
  {
    var v := Eval(s.expr, st.env);
    if v.Err? then Err(Runtime(v.error))
    else
      match s
      case PrintStmt(_) => Ok(State(st.env, st.out + [v.value]))
      case AssignStmt(name, _) =>
        var env := Assign(st.env, name, v.value);
        if env.None? then Err(Runtime(UndefinedVariable(name))) else Ok(State(env.value, st.out))
      case ExprStmt(_) => Ok(st)
  }

  /** A declaration run with `fuel` iterations to spend. The chain keeps its depth;
      what else a run may do is stated in ExecInvariants. */
  function ExecDecl(d: Decl, st: State, fuel: nat): (r: Result<State, ExecError>)
    ensures r.Ok? ==> |r.value.env| == |st.env|
    decreases fuel, d, 2
  {
    match d
    case VarDecl(name, init) =>
      var v := Eval(init, st.env);
      if v.Err? then Err(Runtime(v.error)) else Ok(State(Define(st.env, name, v.value), st.out))
    case BlockDecl(body) => ExecBlock(body, st, fuel)
    case IfDecl(cond, thenBody, elseBranch) =>
      var c := Eval(cond, st.env);
      if c.Err? then Err(Runtime(c.error))
      else if Truthy(c.value) then ExecBlock(thenBody, st, fuel)
      else if elseBranch.ElseBlock? then ExecBlock(elseBranch.body, st, fuel)
      else Ok(st)
    case WhileBlock(cond, body) => ExecWhile(cond, body, st, fuel)
    case StatementDecl(s) => ExecStmt(s, st)
  }

  /** A block runs its declarations in one fresh child scope, which is dropped
      afterwards. */
  function ExecBlock(body: seq<Decl>, st: State, fuel: nat): (r: Result<State, ExecError>)
    ensures r.Ok? ==> |r.value.env| == |st.env|
    decreases fuel, body, 1
  {
    var inner := ExecDecls(body, State(PushScope(st.env), st.out), fuel);
    if inner.Err? then inner
    else Ok(State(PopScope(inner.value.env), inner.value.out))
  }

  /** Declarations in order, each starting from the state the previous one left. */
  function ExecDecls(ds: seq<Decl>, st: State, fuel: nat): (r: Result<State, ExecError>)
    ensures r.Ok? ==> |r.value.env| == |st.env|
    decreases fuel, ds, 0
  {
    if |ds| == 0 then Ok(st)
    else
      var first := ExecDecl(ds[0], st, fuel);
      if first.Err? then first else ExecDecls(ds[1..], first.value, fuel)
  }

  /** `while (cond) body`: the condition is evaluated before every iteration, the first
      included, and the loop ends only when it evaluates to exactly `false`. */
  function ExecWhile(cond: Expr, body: seq<Decl>, st: State, fuel: nat): (r: Result<State, ExecError>)
    ensures r.Ok? ==> |r.value.env| == |st.env|
    decreases fuel, body, 3
  {
    var c := Eval(cond, st.env);
    if c.Err? then Err(Runtime(c.error))
    else if !Truthy(c.value) then Ok(st)
    else if fuel == 0 then Err(OutOfFuel)
    else
      var next := ExecBlock(body, st, fuel - 1);
      if next.Err? then next else ExecWhile(cond, body, next.value, fuel - 1)
  }

  /** A program runs from the root environment with nothing printed; its result is
      everything it printed. */
  function Run(program: seq<Decl>, fuel: nat): Result<seq<Literal>, ExecError> {
    var final := ExecDecls(program, State(Root, []), fuel);
    if final.Err? then Err(final.error) else Ok(final.value.out)
  }
}
