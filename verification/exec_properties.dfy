/** Properties of declaration execution that relate several runs. */
module ExecProperties {
  import opened Results
  import opened Values
  import opened Tokens
  import opened Ast
  import opened Environment
  import opened Evaluator
  import opened EvalProperties
  import opened Executor
  import opened ExecInvariants

  /** `var name = init` binds the initializer's value to `name` in the innermost scope,
      hiding any outer binding, and touches no other name; when the initializer fails
      its error is the result and nothing is bound. */
  lemma VarDeclBinds(name: string, init: Expr, st: State, fuel: nat, other: string)
    ensures Eval(init, st.env).Err? ==> ExecDecl(VarDecl(name, init), st, fuel) == Err(Runtime(Eval(init, st.env).error))
    ensures Eval(init, st.env).Ok? ==>
      var r := ExecDecl(VarDecl(name, init), st, fuel);
      && r.Ok? && r.value.out == st.out
      && Lookup(r.value.env, name) == Some(Eval(init, st.env).value)
      && (other != name ==> Lookup(r.value.env, other) == Lookup(st.env, other))
      && r.value.env[..|st.env| - 1] == st.env[..|st.env| - 1]
  {
  }

  /** A statement declaration has exactly the effect of its statement: an evaluation
      error is the result; otherwise `print` appends the value and changes no binding,
      an assignment rebinds its name to the value and leaves every other name and the
      output alone, or fails naming an unbound target, and an expression statement
      changes nothing. */
  lemma StatementEffect(s: Stmt, st: State, fuel: nat, other: string)
    ensures Eval(s.expr, st.env).Err? ==>
      ExecDecl(StatementDecl(s), st, fuel) == Err(Runtime(Eval(s.expr, st.env).error))
    ensures Eval(s.expr, st.env).Ok? && s.PrintStmt? ==>
      ExecDecl(StatementDecl(s), st, fuel) == Ok(State(st.env, st.out + [Eval(s.expr, st.env).value]))
    ensures Eval(s.expr, st.env).Ok? && s.ExprStmt? ==> ExecDecl(StatementDecl(s), st, fuel) == Ok(st)
    ensures Eval(s.expr, st.env).Ok? && s.AssignStmt? && Lookup(st.env, s.name).None? ==>
      ExecDecl(StatementDecl(s), st, fuel) == Err(Runtime(UndefinedVariable(s.name)))
    ensures Eval(s.expr, st.env).Ok? && s.AssignStmt? && Lookup(st.env, s.name).Some? ==>
      var r := ExecDecl(StatementDecl(s), st, fuel);
      && r.Ok? && r.value.out == st.out
      && Lookup(r.value.env, s.name) == Some(Eval(s.expr, st.env).value)
      && (other != s.name ==> Lookup(r.value.env, other) == Lookup(st.env, other))
  {
    if Eval(s.expr, st.env).Ok? && s.AssignStmt? && Lookup(st.env, s.name).Some? {
      AssignLookup(st.env, s.name, Eval(s.expr, st.env).value, other);
    }
  }

  /** A list of declarations runs in order: running `a + b` is running `a`, then `b`
      from where `a` left off. */
  lemma {:induction false} ExecDeclsAppend(a: seq<Decl>, b: seq<Decl>, st: State, fuel: nat)
    ensures ExecDecls(a + b, st, fuel)
         == match ExecDecls(a, st, fuel)
            case Err(e) => Err(e)
            case Ok(mid) => ExecDecls(b, mid, fuel)
    decreases |a|
  {
    if |a| == 0 {
      assert a + b == b;
    } else {
      assert (a + b)[0] == a[0];
      assert (a + b)[1..] == a[1..] + b;
      var first := ExecDecl(a[0], st, fuel);
      if first.Ok? {
        ExecDeclsAppend(a[1..], b, first.value, fuel);
      }
    }
  }

  /** Running a program extends running any prefix of it: if `a + b` runs, then `a`
      runs and everything `a` prints is printed first by `a + b`. */
  lemma RunAppend(a: seq<Decl>, b: seq<Decl>, fuel: nat)
    requires Run(a + b, fuel).Ok?
    ensures Run(a, fuel).Ok? && Run(a, fuel).value <= Run(a + b, fuel).value
  {
    ExecDeclsAppend(a, b, State(Root, []), fuel);
    var mid := ExecDecls(a, State(Root, []), fuel);
    DeclsStep(b, mid.value, fuel);
  }

  /** Names declared inside a block are not visible after it, and names visible before
      it still are. */
  lemma BlockDoesNotLeak(body: seq<Decl>, st: State, fuel: nat, name: string)
    requires ExecDecl(BlockDecl(body), st, fuel).Ok?
    ensures Lookup(ExecDecl(BlockDecl(body), st, fuel).value.env, name).Some? <==> Lookup(st.env, name).Some?
  {
    BlockKeeps(body, st, fuel);
    SameKeysLookup(st.env, ExecDecl(BlockDecl(body), st, fuel).value.env, name);
  }

  /** `if` behaves as the block it selects: the then-block when the condition holds,
      the else-block when it does not, and a missing `else` as an empty one. For a
      boolean condition, negating it and swapping the blocks changes nothing. A
      condition that fails makes every one of these forms fail alike. */
  lemma IfSelectsBlock(cond: Expr, bang: Token, thenBody: seq<Decl>, elseBranch: ElseBranch,
                       elseBody: seq<Decl>, st: State, fuel: nat)
    requires bang.kind == Bang
    ensures Eval(cond, st.env).Ok? && Truthy(Eval(cond, st.env).value) ==>
      ExecDecl(IfDecl(cond, thenBody, elseBranch), st, fuel) == ExecDecl(BlockDecl(thenBody), st, fuel)
    ensures Eval(cond, st.env).Ok? && !Truthy(Eval(cond, st.env).value) ==>
      ExecDecl(IfDecl(cond, thenBody, ElseBlock(elseBody)), st, fuel) == ExecDecl(BlockDecl(elseBody), st, fuel)
    ensures ExecDecl(IfDecl(cond, thenBody, NoElse), st, fuel)
         == ExecDecl(IfDecl(cond, thenBody, ElseBlock([])), st, fuel)
    ensures Eval(cond, st.env).Err? || Eval(cond, st.env).value.Bool? ==>
      ExecDecl(IfDecl(UnaryExpr(bang, cond), elseBody, ElseBlock(thenBody)), st, fuel)
        == ExecDecl(IfDecl(cond, thenBody, ElseBlock(elseBody)), st, fuel)
  {
    PushPop(st.env, "");
    assert ExecBlock([], st, fuel) == Ok(st);
  }

  /** A loop whose condition reads no variable and is not a boolean never finishes: it
      runs out of fuel, or its body fails, whatever the fuel. */
  lemma WhileNonBoolNeverExits(cond: Expr, body: seq<Decl>, st: State, fuel: nat)
    requires Names(cond) == {}
    requires Eval(cond, st.env).Ok? && !Eval(cond, st.env).value.Bool?
    ensures ExecWhile(cond, body, st, fuel).Err?
  {
    var r := ExecWhile(cond, body, st, fuel);
    if r.Ok? {
      WhileLoopStep(cond, body, st, fuel);
      EvalReadsOnlyNames(cond, st.env, r.value.env);
    }
  }

  /** More fuel never changes a run that did not run out of fuel. */
  lemma {:induction false} FuelDecl(d: Decl, st: State, fuel: nat, more: nat)
    requires fuel <= more
    ensures ExecDecl(d, st, fuel) != Err(OutOfFuel) ==> ExecDecl(d, st, more) == ExecDecl(d, st, fuel)
    decreases fuel, d, 2
  {
    match d
    case VarDecl(_, _) =>
    case BlockDecl(body) => FuelBlock(body, st, fuel, more);
    case IfDecl(cond, thenBody, elseBranch) =>
      var c := Eval(cond, st.env);
      if c.Ok? {
        if Truthy(c.value) {
          FuelBlock(thenBody, st, fuel, more);
        } else if elseBranch.ElseBlock? {
          FuelBlock(elseBranch.body, st, fuel, more);
        }
      }
    case WhileBlock(cond, body) => FuelWhile(cond, body, st, fuel, more);
    case StatementDecl(_) =>
  }

  lemma {:induction false} FuelBlock(body: seq<Decl>, st: State, fuel: nat, more: nat)
    requires fuel <= more
    ensures ExecBlock(body, st, fuel) != Err(OutOfFuel) ==> ExecBlock(body, st, more) == ExecBlock(body, st, fuel)
    decreases fuel, body, 1
  {
    FuelDecls(body, State(PushScope(st.env), st.out), fuel, more);
  }

  lemma {:induction false} FuelDecls(ds: seq<Decl>, st: State, fuel: nat, more: nat)
    requires fuel <= more
    ensures ExecDecls(ds, st, fuel) != Err(OutOfFuel) ==> ExecDecls(ds, st, more) == ExecDecls(ds, st, fuel)
    decreases fuel, ds, 0
  {
    if |ds| > 0 {
      FuelDecl(ds[0], st, fuel, more);
      var first := ExecDecl(ds[0], st, fuel);
      if first.Ok? {
        FuelDecls(ds[1..], first.value, fuel, more);
      }
    }
  }

  lemma {:induction false} FuelWhile(cond: Expr, body: seq<Decl>, st: State, fuel: nat, more: nat)
    requires fuel <= more
    ensures ExecWhile(cond, body, st, fuel) != Err(OutOfFuel) ==> ExecWhile(cond, body, st, more) == ExecWhile(cond, body, st, fuel)
    decreases fuel, body, 4
  {
    var c := Eval(cond, st.env);
    if c.Err? || !Truthy(c.value) {
      WhileStops(cond, body, st, fuel);
      WhileStops(cond, body, st, more);
    } else if fuel > 0 {
      FuelIteration(cond, body, st, fuel, more);
    }
  }

  /** The case of FuelWhile where the condition holds and the body runs once more. */
  lemma {:induction false} FuelIteration(cond: Expr, body: seq<Decl>, st: State, fuel: nat, more: nat)
    requires Eval(cond, st.env).Ok? && Truthy(Eval(cond, st.env).value)
    requires 0 < fuel <= more
    ensures ExecWhile(cond, body, st, fuel) != Err(OutOfFuel) ==> ExecWhile(cond, body, st, more) == ExecWhile(cond, body, st, fuel)
    decreases fuel, body, 3
  {
    FuelBlock(body, st, fuel - 1, more - 1);
    var next := ExecBlock(body, st, fuel - 1);
    if next.Ok? {
      FuelWhile(cond, body, next.value, fuel - 1, more - 1);
      ThenAgrees(next, ExecBlock(body, st, more - 1),
        ExecWhile(cond, body, next.value, fuel - 1), ExecWhile(cond, body, next.value, more - 1));
    }
    WhileUnfold(cond, body, st, fuel);
    WhileUnfold(cond, body, st, more);
  }

  /** Two runs of a body followed by the rest of a loop agree when the bodies agree
      and the rests agree. */
  lemma ThenAgrees(a: Result<State, ExecError>, b: Result<State, ExecError>,
                   restA: Result<State, ExecError>, restB: Result<State, ExecError>)
    requires a.Ok? && b == a
    requires restA != Err(OutOfFuel) ==> restB == restA
    ensures var whole := match a case Err(e) => Err(e) case Ok(_) => restA;
      whole != Err(OutOfFuel) ==> (match b case Err(e) => Err(e) case Ok(_) => restB) == whole
  {
  }

  /** A loop whose condition fails or does not hold runs no iteration. */
  lemma WhileStops(cond: Expr, body: seq<Decl>, st: State, fuel: nat)
    requires Eval(cond, st.env).Err? || !Truthy(Eval(cond, st.env).value)
    ensures ExecWhile(cond, body, st, fuel)
         == if Eval(cond, st.env).Err? then Err(Runtime(Eval(cond, st.env).error)) else Ok(st)
  {
  }

  /** One iteration of a loop whose condition holds: the body, then the loop again
      with one unit of fuel less. */
  lemma WhileUnfold(cond: Expr, body: seq<Decl>, st: State, fuel: nat)
    requires fuel > 0 && Eval(cond, st.env).Ok? && Truthy(Eval(cond, st.env).value)
    ensures ExecWhile(cond, body, st, fuel)
         == match ExecBlock(body, st, fuel - 1)
            case Err(e) => Err(e)
            case Ok(next) => ExecWhile(cond, body, next, fuel - 1)
  {
  }
}
