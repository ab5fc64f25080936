/** Whole programs run from the root scope: shadowing in a block, assignment through
    a block, a counting loop, an unbound name, a loop that never ends, string joining,
    and one program taken from tokens through the parser to its output. */
module Scenarios {
  import opened Results
  import opened Values
  import opened Tokens
  import opened Ast
  import opened Grammar
  import opened Parser
  import opened ParserRoundTrip
  import opened Environment
  import opened Evaluator
  import opened Executor
  import opened ExecProperties

  function Lit(n: real): Expr {
    LiteralExpr(Num(n))
  }

  function Print(e: Expr): Decl {
    StatementDecl(PrintStmt(e))
  }

  const A := IdentifierExpr("a")

  /** A single declaration runs as itself. */
  lemma OneStep(d: Decl, st: State, fuel: nat)
    ensures ExecDecls([d], st, fuel) == ExecDecl(d, st, fuel)
  {
    assert [d][0] == d;
    assert [d][1..] == [];
  }

  /** After a first declaration that runs, a pair of declarations ends as the
      second one does, error or not. */
  lemma TwoSteps(d1: Decl, d2: Decl, st: State, s1: State, fuel: nat)
    requires ExecDecl(d1, st, fuel) == Ok(s1)
    ensures ExecDecls([d1, d2], st, fuel) == ExecDecl(d2, s1, fuel)
  {
    assert [d1, d2][0] == d1;
    assert [d1, d2][1..] == [d2];
    assert ExecDecls([d1, d2], st, fuel) == ExecDecls([d2], s1, fuel);
    OneStep(d2, s1, fuel);
  }

  /** `var x = e` binds `x` in the innermost scope to the value of `e`. */
  lemma VarStep(name: string, e: Expr, st: State, v: Literal, fuel: nat)
    requires Eval(e, st.env) == Ok(v)
    ensures ExecDecl(VarDecl(name, e), st, fuel) == Ok(State(Define(st.env, name, v), st.out))
  {
  }

  /** `x = e` rebinds `x` to the value of `e` when some scope binds `x`. */
  lemma AssignStep(name: string, e: Expr, st: State, v: Literal, fuel: nat)
    requires Eval(e, st.env) == Ok(v) && Lookup(st.env, name).Some?
    ensures Assign(st.env, name, v).Some?
    ensures ExecDecl(StatementDecl(AssignStmt(name, e)), st, fuel) == Ok(State(Assign(st.env, name, v).value, st.out))
  {
  }

  /** Assigning to a name of the enclosing scopes from inside a fresh scope, then
      dropping that scope, leaves the name bound to the new value. */
  lemma AssignThroughScope(env: Env, name: string, v: Literal)
    requires Lookup(env, name).Some?
    ensures Lookup(PushScope(env), name) == Lookup(env, name)
    ensures var r := Assign(PushScope(env), name, v);
      r.Some? && |r.value| == |env| + 1 && Lookup(PopScope(r.value), name) == Some(v)
  {
    PushPop(env, name);
    var r := Assign(PushScope(env), name, v);
    AssignLookup(PushScope(env), name, v, name);
    assert r.value[|env|] == map[] by {
      assert SameKeys(PushScope(env), r.value);
    }
    PopLookup(r.value, name);
  }

  /** `print(e)` appends the value of `e`. */
  lemma PrintStep(e: Expr, st: State, v: Literal, fuel: nat)
    requires Eval(e, st.env) == Ok(v)
    ensures ExecDecl(Print(e), st, fuel) == Ok(State(st.env, st.out + [v]))
  {
  }

  /** After two declarations that run, three declarations end as the third does. */
  lemma ThreeSteps(d1: Decl, d2: Decl, d3: Decl, st: State, s1: State, s2: State, fuel: nat)
    requires ExecDecl(d1, st, fuel) == Ok(s1) && ExecDecl(d2, s1, fuel) == Ok(s2)
    ensures ExecDecls([d1, d2, d3], st, fuel) == ExecDecl(d3, s2, fuel)
  {
    assert [d1, d2, d3][1..] == [d2, d3];
    TwoSteps(d2, d3, s1, s2, fuel);
  }

  /** `{ var a = 2; print(a); }` prints 2 and leaves the chain as it was. */
  lemma ShadowingBlock(env: Env, out: seq<Literal>)
    ensures ExecBlock([VarDecl("a", Lit(2.0)), Print(A)], State(env, out), 0) == Ok(State(env, out + [Num(2.0)]))
  {
    var inner := Define(PushScope(env), "a", Num(2.0));
    TwoSteps(VarDecl("a", Lit(2.0)), Print(A), State(PushScope(env), out), State(inner, out), 0);
    assert PopScope(inner) == env;
  }

  /** `var a = 1; { var a = 2; print(a); } print(a);` prints 2, then 1: the inner
      declaration hides the outer one only inside the block. */
  lemma ShadowingInBlock()
    ensures Run([VarDecl("a", Lit(1.0)), BlockDecl([VarDecl("a", Lit(2.0)), Print(A)]), Print(A)], 0)
         == Ok([Num(2.0), Num(1.0)])
  {
    var env := Define(Root, "a", Num(1.0));
    var body := [VarDecl("a", Lit(2.0)), Print(A)];
    ShadowingBlock(env, []);
    assert [] + [Num(2.0)] == [Num(2.0)];
    assert ExecDecl(BlockDecl(body), State(env, []), 0) == Ok(State(env, [Num(2.0)]));
    assert Eval(A, env) == Ok(Num(1.0));
    PrintStep(A, State(env, [Num(2.0)]), Num(1.0), 0);
    assert [Num(2.0)] + [Num(1.0)] == [Num(2.0), Num(1.0)];
    ThreeSteps(VarDecl("a", Lit(1.0)), BlockDecl(body), Print(A), State(Root, []), State(env, []), State(env, [Num(2.0)]), 0);
  }

  /** `{ var a = 2; a = 3; print(a); }` prints 3 and leaves the chain as it was: the
      assignment rebinds the block's own `a`, not one of the enclosing scopes. */
  lemma ShadowedAssignBlock(env: Env, out: seq<Literal>)
    ensures ExecBlock([VarDecl("a", Lit(2.0)), StatementDecl(AssignStmt("a", Lit(3.0))), Print(A)], State(env, out), 0)
         == Ok(State(env, out + [Num(3.0)]))
  {
    var s1 := Define(PushScope(env), "a", Num(2.0));
    AssignStep("a", Lit(3.0), State(s1, out), Num(3.0), 0);
    var s2 := Assign(s1, "a", Num(3.0)).value;
    AssignLookup(s1, "a", Num(3.0), "a");
    PrintStep(A, State(s2, out), Num(3.0), 0);
    ThreeSteps(VarDecl("a", Lit(2.0)), StatementDecl(AssignStmt("a", Lit(3.0))), Print(A),
      State(PushScope(env), out), State(s1, out), State(s2, out), 0);
    assert PopScope(s2) == env;
  }

  /** `var a = 1; { var a = 2; a = 3; print(a); } print(a);` prints 3, then 1: an
      assignment reaches only the innermost declaration of its name. */
  lemma ShadowedAssignment()
    ensures Run([VarDecl("a", Lit(1.0)),
                 BlockDecl([VarDecl("a", Lit(2.0)), StatementDecl(AssignStmt("a", Lit(3.0))), Print(A)]),
                 Print(A)], 0)
         == Ok([Num(3.0), Num(1.0)])
  {
    var env := Define(Root, "a", Num(1.0));
    var body := [VarDecl("a", Lit(2.0)), StatementDecl(AssignStmt("a", Lit(3.0))), Print(A)];
    ShadowedAssignBlock(env, []);
    assert [] + [Num(3.0)] == [Num(3.0)];
    assert ExecDecl(BlockDecl(body), State(env, []), 0) == Ok(State(env, [Num(3.0)]));
    assert Eval(A, env) == Ok(Num(1.0));
    PrintStep(A, State(env, [Num(3.0)]), Num(1.0), 0);
    assert [Num(3.0)] + [Num(1.0)] == [Num(3.0), Num(1.0)];
    ThreeSteps(VarDecl("a", Lit(1.0)), BlockDecl(body), Print(A), State(Root, []), State(env, []), State(env, [Num(3.0)]), 0);
  }

  /** `{ a = 2; }` rebinds an `a` of the enclosing scopes and prints nothing. */
  lemma AssigningBlock(env: Env)
    requires Lookup(env, "a").Some?
    ensures var r := ExecBlock([StatementDecl(AssignStmt("a", Lit(2.0)))], State(env, []), 0);
      r.Ok? && r.value.out == [] && Lookup(r.value.env, "a") == Some(Num(2.0))
  {
    AssignThroughScope(env, "a", Num(2.0));
    var pushed := State(PushScope(env), []);
    AssignStep("a", Lit(2.0), pushed, Num(2.0), 0);
    OneStep(StatementDecl(AssignStmt("a", Lit(2.0))), pushed, 0);
  }

  /** `var a = 1; { a = 2; } print(a);` prints 2: assignment inside a block rebinds
      the outer variable. */
  lemma AssignmentThroughBlock()
    ensures Run([VarDecl("a", Lit(1.0)), BlockDecl([StatementDecl(AssignStmt("a", Lit(2.0)))]), Print(A)], 0)
         == Ok([Num(2.0)])
  {
    var env := Define(Root, "a", Num(1.0));
    var block := [StatementDecl(AssignStmt("a", Lit(2.0)))];
    VarStep("a", Lit(1.0), State(Root, []), Num(1.0), 0);
    AssigningBlock(env);
    var after := ExecBlock(block, State(env, []), 0).value;
    assert ExecDecl(BlockDecl(block), State(env, []), 0) == Ok(after);
    assert Eval(A, after.env) == Ok(Num(2.0));
    PrintStep(A, after, Num(2.0), 0);
    assert after.out + [Num(2.0)] == [Num(2.0)];
    ThreeSteps(VarDecl("a", Lit(1.0)), BlockDecl(block), Print(A), State(Root, []), State(env, []), after, 0);
  }

  const I := IdentifierExpr("i")

  /** The loop `while (i < 3) { print(i); i = i + 1; }`. */
  function CountCondition(): Expr {
    BinaryExpr(I, Tok(Less, "<"), Lit(3.0))
  }

  function CountBody(): seq<Decl> {
    [Print(I), StatementDecl(AssignStmt("i", Increment()))]
  }

  /** The values the loop prints when it starts from `i == n`: n, n + 1, ..., 2. */
  function Counts(n: nat): (r: seq<Literal>)
    ensures |r| == if n < 3 then 3 - n else 0
    ensures forall k :: 0 <= k < |r| ==> r[k] == Num((n + k) as real)
    decreases 3 - n
  {
    if n >= 3 then [] else [Num(n as real)] + Counts(n + 1)
  }

  function Increment(): Expr {
    BinaryExpr(I, Tok(Plus, "+"), Lit(1.0))
  }

  /** `i + 1` is one more than `i`. */
  lemma IncrementValue(env: Env, n: nat)
    requires Lookup(env, "i") == Some(Num(n as real))
    ensures Eval(Increment(), env) == Ok(Num((n + 1) as real))
  {
    assert Eval(I, env) == Ok(Num(n as real));
  }

  /** One iteration prints the current `i` and leaves it one larger, in whichever
      scope binds it. */
  lemma CountingBody(env: Env, n: nat, out: seq<Literal>, fuel: nat)
    requires Lookup(env, "i") == Some(Num(n as real))
    ensures var r := ExecBlock(CountBody(), State(env, out), fuel);
      r.Ok? && r.value.out == out + [Num(n as real)] && Lookup(r.value.env, "i") == Some(Num((n + 1) as real))
  {
    AssignThroughScope(env, "i", Num((n + 1) as real));
    var pushed := PushScope(env);
    var printed := out + [Num(n as real)];
    assert Eval(I, pushed) == Ok(Num(n as real));
    PrintStep(I, State(pushed, out), Num(n as real), fuel);
    IncrementValue(pushed, n);
    AssignStep("i", Increment(), State(pushed, printed), Num((n + 1) as real), fuel);
    TwoSteps(Print(I), StatementDecl(AssignStmt("i", Increment())), State(pushed, out), State(pushed, printed), fuel);
    var counted := Assign(pushed, "i", Num((n + 1) as real)).value;
    assert ExecDecls(CountBody(), State(pushed, out), fuel) == Ok(State(counted, printed));
    assert ExecBlock(CountBody(), State(env, out), fuel) == Ok(State(PopScope(counted), printed));
  }

  /** The loop condition reads `i` and compares it with 3. */
  lemma CountCheck(env: Env, n: nat)
    requires Lookup(env, "i") == Some(Num(n as real))
    ensures Eval(CountCondition(), env) == Ok(Bool(n < 3))
  {
    assert Eval(I, env) == Ok(Num(n as real));
  }

  /** With `i == n < 3` and fuel left, the loop runs the body once and continues
      from the state the body leaves. */
  lemma CountStep(cond: Expr, body: seq<Decl>, st: State, n: nat, fuel: nat)
    requires cond == CountCondition() && body == CountBody()
    requires n < 3 && fuel > 0 && Lookup(st.env, "i") == Some(Num(n as real))
    ensures var next := ExecBlock(body, st, fuel - 1);
      && next.Ok? && next.value.out == st.out + [Num(n as real)]
      && Lookup(next.value.env, "i") == Some(Num((n + 1) as real))
      && ExecWhile(cond, body, st, fuel) == ExecWhile(cond, body, next.value, fuel - 1)
  {
    CountCheck(st.env, n);
    WhileUnfold(cond, body, st, fuel);
    CountingBody(st.env, n, st.out, fuel - 1);
  }

  /** Printing `n` and then the rest of the count is printing the count from `n`. */
  lemma CountsCons(out: seq<Literal>, n: nat)
    requires n < 3
    ensures out + Counts(n) == (out + [Num(n as real)]) + Counts(n + 1)
  {
  }

  /** What the loop gives from `i == n` with `fuel` to spend. */
  predicate CountsOut(r: Result<State, ExecError>, n: nat, out: seq<Literal>, fuel: nat) {
    if fuel >= 3 - n then r.Ok? && r.value.out == out + Counts(n) else r == Err(OutOfFuel)
  }

  /** One iteration that prints `n` followed by a loop that counts on from n + 1 is a
      loop that counts from `n`. */
  lemma CountCombine(r: Result<State, ExecError>, n: nat, out: seq<Literal>, next: State, fuel: nat)
    requires n < 3 && fuel > 0 && next.out == out + [Num(n as real)]
    requires CountsOut(r, n + 1, next.out, fuel - 1)
    ensures CountsOut(r, n, out, fuel)
  {
    CountsCons(out, n);
  }

  /** From `i == n` the loop needs 3 - n units of fuel: with them it prints
      n, ..., 2 and stops; with fewer it runs out. */
  lemma {:induction false} CountFrom(cond: Expr, body: seq<Decl>, st: State, n: nat, fuel: nat)
    requires cond == CountCondition() && body == CountBody()
    requires n <= 3 && Lookup(st.env, "i") == Some(Num(n as real))
    ensures CountsOut(ExecWhile(cond, body, st, fuel), n, st.out, fuel)
    decreases 3 - n, 1
  {
    CountCheck(st.env, n);
    if n == 3 {
      WhileStops(cond, body, st, fuel);
      assert st.out + Counts(n) == st.out;
    } else if fuel > 0 {
      CountMore(cond, body, st, n, fuel);
    }
  }

  /** The case of CountFrom where the loop iterates: one step, then the count from
      n + 1. */
  lemma {:induction false} CountMore(cond: Expr, body: seq<Decl>, st: State, n: nat, fuel: nat)
    requires cond == CountCondition() && body == CountBody()
    requires n < 3 && fuel > 0 && Lookup(st.env, "i") == Some(Num(n as real))
    ensures CountsOut(ExecWhile(cond, body, st, fuel), n, st.out, fuel)
    decreases 3 - n, 0
  {
    CountStep(cond, body, st, n, fuel);
    var next := ExecBlock(body, st, fuel - 1).value;
    CountFrom(cond, body, next, n + 1, fuel - 1);
    CountCombine(ExecWhile(cond, body, next, fuel - 1), n, st.out, next, fuel);
  }

  /** Counting from 0 prints 0, 1 and 2. */
  lemma CountsFromZero()
    ensures Counts(0) == [Num(0.0), Num(1.0), Num(2.0)]
  {
  }

  function CountingProgram(): seq<Decl> {
    [VarDecl("i", Lit(0.0)), WhileBlock(CountCondition(), CountBody())]
  }

  /** `var i = 0; while (i < 3) { print(i); i = i + 1; }` prints 0, 1, 2 given three
      units of fuel or more, and runs out of fuel with fewer. */
  lemma CountingLoop(fuel: nat)
    ensures Run(CountingProgram(), fuel) == if fuel >= 3 then Ok([Num(0.0), Num(1.0), Num(2.0)]) else Err(OutOfFuel)
  {
    var env := Define(Root, "i", Num(0.0));
    CountFrom(CountCondition(), CountBody(), State(env, []), 0, fuel);
    assert ExecDecl(VarDecl("i", Lit(0.0)), State(Root, []), fuel) == Ok(State(env, []));
    TwoSteps(VarDecl("i", Lit(0.0)), WhileBlock(CountCondition(), CountBody()), State(Root, []), State(env, []), fuel);
    if fuel >= 3 {
      CountsFromZero();
      assert [] + Counts(0) == Counts(0);
    }
  }

  /** Dropping an empty innermost scope changes no lookup. */
  lemma PopLookup(env: Env, name: string)
    requires |env| > 1 && env[|env| - 1] == map[]
    ensures Lookup(PopScope(env), name) == Lookup(env, name)
  {
    assert env == PushScope(PopScope(env));
    PushPop(PopScope(env), name);
  }

  /** `print(x)` with no `x` declared fails naming `x`. */
  lemma UnboundName()
    ensures Run([Print(IdentifierExpr("x"))], 0) == Err(Runtime(UndefinedVariable("x")))
  {
    assert Lookup(Root, "x") == None;
  }

  /** `while (true) { }` runs out of fuel whatever the fuel. */
  lemma {:induction false} EndlessLoop(st: State, fuel: nat)
    ensures ExecWhile(LiteralExpr(Bool(true)), [], st, fuel) == Err(OutOfFuel)
  {
    if fuel > 0 {
      PushPop(st.env, "");
      assert ExecDecls([], State(PushScope(st.env), st.out), fuel - 1) == Ok(State(PushScope(st.env), st.out));
      assert ExecBlock([], st, fuel - 1) == Ok(st);
      EndlessLoop(st, fuel - 1);
    }
  }

  /** `"a" + "b"` is `"ab"`, which is not `"b" + "a"`: joining is not commutative. */
  lemma JoinOrder()
    ensures Eval(BinaryExpr(LiteralExpr(Str("a")), Tok(Plus, "+"), LiteralExpr(Str("b"))), Root) == Ok(Str("ab"))
    ensures Eval(BinaryExpr(LiteralExpr(Str("b")), Tok(Plus, "+"), LiteralExpr(Str("a"))), Root) != Ok(Str("ab"))
  {
    assert "a" + "b" == "ab";
    assert ("b" + "a")[0] == 'b';
  }

  /** The tokens of `print(1 - 2 - 3)` parse to a print of 1 - (2 - 3), which prints 2. */
  lemma SubtractionFromTokens()
    ensures Parse(SubtractionTokens()) == Ok([Print(Subtraction())])
    ensures Run([Print(Subtraction())], 0) == Ok([Num(2.0)])
  {
    var ds := [Print(Subtraction())];
    assert WfDecls(ds) by {
      assert WfDecl(ds[0]);
    }
    assert DeclsTokens(ds) + [Tok(EndOfFile, "")] == SubtractionTokens() by {
      assert DeclsTokens(ds) == DeclTokens(ds[0]);
    }
    ParsePrintedProgram(ds);
    assert Eval(Subtraction(), Root) == Ok(Num(2.0));
  }

  function Subtraction(): Expr {
    BinaryExpr(Lit(1.0), Tok(Minus, "-"), BinaryExpr(Lit(2.0), Tok(Minus, "-"), Lit(3.0)))
  }

  function SubtractionTokens(): seq<Token> {
    [Tok(PrintKw, "print"), Tok(LeftParen, "("), Token(Number, "", Num(1.0)), Tok(Minus, "-"),
     Token(Number, "", Num(2.0)), Tok(Minus, "-"), Token(Number, "", Num(3.0)),
     Tok(RightParen, ")"), Tok(EndOfFile, "")]
  }
}
