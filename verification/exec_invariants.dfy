/** What a run of declarations may do to a state, proved once for every kind of
    declaration: the scope chain keeps its depth and the names of its outer scopes, a
    block leaves every scope with exactly the names it had, output is only appended to,
    and a loop that finishes does so on a condition that is `false`. */
module ExecInvariants {
  import opened Results
  import opened Values
  import opened Ast
  import opened Environment
  import opened Evaluator
  import opened Executor

  /** Keeping every scope's names is a special case of growing. */
  lemma SameKeysGrows(a: seq<Scope>, b: seq<Scope>)
    requires |a| > 0 && SameKeys(a, b)
    ensures Grows(a, b)
  {
  }

  /** A declaration keeps the chain's depth and its outer scopes' names, may add names
      to the innermost scope, and only appends to the output. */
  lemma {:induction false} DeclStep(d: Decl, st: State, fuel: nat)
    requires ExecDecl(d, st, fuel).Ok?
    ensures Step(st, ExecDecl(d, st, fuel).value)
    decreases fuel, d, 2
  {
    match d
    case VarDecl(_, _) =>
    case BlockDecl(body) =>
      BlockKeeps(body, st, fuel);
      SameKeysGrows(st.env, ExecDecl(d, st, fuel).value.env);
    case IfDecl(cond, thenBody, elseBranch) =>
      var c := Eval(cond, st.env);
      if Truthy(c.value) {
        BlockKeeps(thenBody, st, fuel);
      } else if elseBranch.ElseBlock? {
        BlockKeeps(elseBranch.body, st, fuel);
      }
      SameKeysGrows(st.env, ExecDecl(d, st, fuel).value.env);
    case WhileBlock(cond, body) => WhileLoopStep(cond, body, st, fuel);
    case StatementDecl(s) => SameKeysGrows(st.env, ExecDecl(d, st, fuel).value.env);
  }

  /** A block drops the scope it opened: every scope of the chain ends with exactly the
      names it had, so nothing declared inside is visible afterwards. */
  lemma {:induction false} BlockKeeps(body: seq<Decl>, st: State, fuel: nat)
    requires ExecBlock(body, st, fuel).Ok?
    ensures SameKeys(st.env, ExecBlock(body, st, fuel).value.env)
    ensures st.out <= ExecBlock(body, st, fuel).value.out
    decreases fuel, body, 1
  {
    var pushed := State(PushScope(st.env), st.out);
    DeclsStep(body, pushed, fuel);
  }

  /** Declarations in sequence compose their steps. */
  lemma {:induction false} DeclsStep(ds: seq<Decl>, st: State, fuel: nat)
    requires ExecDecls(ds, st, fuel).Ok?
    ensures Step(st, ExecDecls(ds, st, fuel).value)
    decreases fuel, ds, 0
  {
    if |ds| > 0 {
      DeclStep(ds[0], st, fuel);
      var first := ExecDecl(ds[0], st, fuel);
      DeclsStep(ds[1..], first.value, fuel);
    }
  }

  /** A loop steps like its body, and when it finishes its condition is exactly `false`
      in the state it leaves. */
  lemma {:induction false} WhileLoopStep(cond: Expr, body: seq<Decl>, st: State, fuel: nat)
    requires ExecWhile(cond, body, st, fuel).Ok?
    ensures Step(st, ExecWhile(cond, body, st, fuel).value)
    ensures Eval(cond, ExecWhile(cond, body, st, fuel).value.env) == Ok(Bool(false))
    decreases fuel, body, 3
  {
    var c := Eval(cond, st.env);
    if Truthy(c.value) {
      BlockKeeps(body, st, fuel - 1);
      var next := ExecBlock(body, st, fuel - 1);
      SameKeysGrows(st.env, next.value.env);
      WhileLoopStep(cond, body, next.value, fuel - 1);
    }
  }
}
