/** Properties of expression evaluation that relate several evaluations. */
module EvalProperties {
  import opened Results
  import opened Values
  import opened Tokens
  import opened Ast
  import opened Environment
  import opened Typing
  import opened Evaluator

  /** An identifier reads the flattened view of the scope chain: the innermost binding
      of its name, or an UndefinedVariable error naming it. */
  lemma IdentifierReadsInnermost(env: seq<Scope>, name: string)
    ensures Eval(IdentifierExpr(name), env)
         == if name in Flatten(env) then Ok(Flatten(env)[name]) else Err(UndefinedVariable(name))
  {
    LookupFlatten(env, name);
  }

  /** Evaluation depends on nothing but the bindings of the names the expression reads:
      in particular a literal gives its stored value in every environment. */
  lemma {:induction false} EvalReadsOnlyNames(e: Expr, env1: seq<Scope>, env2: seq<Scope>)
    requires forall name | name in Names(e) :: Lookup(env1, name) == Lookup(env2, name)
    ensures Eval(e, env1) == Eval(e, env2)
  {
    match e
    case LiteralExpr(_) =>
    case IdentifierExpr(name) => assert name in Names(e);
    case GroupingExpr(inner) => EvalReadsOnlyNames(inner, env1, env2);
    case UnaryExpr(_, operand) => EvalReadsOnlyNames(operand, env1, env2);
    case BinaryExpr(left, _, right) =>
      EvalReadsOnlyNames(left, env1, env2);
      EvalReadsOnlyNames(right, env1, env2);
  }

  /** `e` with every grouping node removed. */
  function StripGroups(e: Expr): Expr {
    match e
    case BinaryExpr(left, op, right) => BinaryExpr(StripGroups(left), op, StripGroups(right))
    case UnaryExpr(op, operand) => UnaryExpr(op, StripGroups(operand))
    case LiteralExpr(_) => e
    case IdentifierExpr(_) => e
    case GroupingExpr(inner) => StripGroups(inner)
  }

  /** Parentheses never change a value: a grouping evaluates to its inner expression. */
  lemma {:induction false} GroupingTransparent(e: Expr, env: seq<Scope>)
    ensures Eval(StripGroups(e), env) == Eval(e, env)
  {
    match e
    case BinaryExpr(left, _, right) =>
      GroupingTransparent(left, env);
      GroupingTransparent(right, env);
    case UnaryExpr(_, operand) => GroupingTransparent(operand, env);
    case LiteralExpr(_) =>
    case IdentifierExpr(_) =>
    case GroupingExpr(inner) => GroupingTransparent(inner, env);
  }

  /** A binary operator on two number literals, in any environment: `+`, `-`, `*` and
      `/` compute the sum, difference, product and quotient, the last failing on a zero
      divisor; `==` and the orderings compare; `!=`, which takes only booleans, fails. */
  lemma NumberOperators(a: real, b: real, op: Token, env: seq<Scope>)
    ensures var r := Eval(BinaryExpr(LiteralExpr(Num(a)), op, LiteralExpr(Num(b))), env);
      && (op.kind == Plus ==> r == Ok(Num(a + b)))
      && (op.kind == Minus ==> r == Ok(Num(a - b)))
      && (op.kind == Star ==> r == Ok(Num(a * b)))
      && (op.kind == Slash ==> r == if b == 0.0 then Err(DivisionByZero) else Ok(Num(a / b)))
      && (op.kind == EqualEqual ==> r == Ok(Bool(a == b)))
      && (op.kind == BangEqual ==> r.Err? && r.error.TypeError?)
      && (op.kind == Less ==> r == Ok(Bool(a < b)))
      && (op.kind == LessEqual ==> r == Ok(Bool(a <= b)))
      && (op.kind == Greater ==> r == Ok(Bool(a > b)))
      && (op.kind == GreaterEqual ==> r == Ok(Bool(a >= b)))
  {
    if op.kind == Star {
      var r := Arithmetic(Star, Num(a), Num(b));
      assert r.Ok? && r.value.Num? && r.value.n == a * b;
      assert r == Ok(Num(a * b));
    }
  }

  /** Subtraction undoes addition, and division undoes multiplication by a number
      other than zero. */
  lemma ArithmeticUndoes(a: real, b: real)
    ensures ApplyBinary(Plus, Num(a), Num(b)).Ok? && ApplyBinary(Star, Num(a), Num(b)).Ok?
    ensures ApplyBinary(Minus, ApplyBinary(Plus, Num(a), Num(b)).value, Num(b)) == Ok(Num(a))
    ensures b != 0.0 ==> ApplyBinary(Slash, ApplyBinary(Star, Num(a), Num(b)).value, Num(b)) == Ok(Num(a))
  {
    var sum := Add(Num(a), Num(b));
    var difference := Arithmetic(Minus, sum.value, Num(b));
    assert difference.value.n + b == sum.value.n;
    if b != 0.0 {
      var product := Arithmetic(Star, Num(a), Num(b));
      var quotient := Arithmetic(Slash, product.value, Num(b));
      assert quotient.value.n * b == a * b;
    }
  }

  /** A comparison that yields `true`. */
  predicate Holds(r: Result<Literal, EvalError>) {
    r == Ok(Bool(true))
  }

  /** The orderings of two numbers are dual: `<` is `>` with the operands swapped, and
      `<=` is `>=` likewise; `<=` holds exactly when `>` does not, and `>=` exactly when
      `<` does not; and exactly one of `<`, `==` and `>` holds. */
  lemma OrderDuality(a: real, b: real)
    ensures Order(Less, Num(a), Num(b)) == Order(Greater, Num(b), Num(a))
    ensures Order(LessEqual, Num(a), Num(b)) == Order(GreaterEqual, Num(b), Num(a))
    ensures Order(LessEqual, Num(a), Num(b)).Ok? && Order(GreaterEqual, Num(a), Num(b)).Ok?
    ensures Holds(Order(LessEqual, Num(a), Num(b))) <==> !Holds(Order(Greater, Num(a), Num(b)))
    ensures Holds(Order(GreaterEqual, Num(a), Num(b))) <==> !Holds(Order(Less, Num(a), Num(b)))
    ensures Holds(Order(Less, Num(a), Num(b))) || Holds(Evaluator.Equal(Num(a), Num(b))) || Holds(Order(Greater, Num(a), Num(b)))
    ensures !(Holds(Order(Less, Num(a), Num(b))) && Holds(Evaluator.Equal(Num(a), Num(b))))
    ensures !(Holds(Order(Less, Num(a), Num(b))) && Holds(Order(Greater, Num(a), Num(b))))
    ensures !(Holds(Evaluator.Equal(Num(a), Num(b))) && Holds(Order(Greater, Num(a), Num(b))))
  {
  }

  /** Negating twice gives back a boolean operand, and fails on any other value. */
  lemma DoubleNegation(bang: Token, e: Expr, env: seq<Scope>)
    requires bang.kind == Bang
    ensures Eval(e, env).Ok? && Eval(e, env).value.Bool? ==>
      Eval(UnaryExpr(bang, UnaryExpr(bang, e)), env) == Eval(e, env)
    ensures Eval(e, env).Ok? && !Eval(e, env).value.Bool? ==>
      Eval(UnaryExpr(bang, UnaryExpr(bang, e)), env).Err?
  {
  }

  /** `+` on two strings joins them: the result's length is the sum of the lengths and
      the left string comes first. */
  lemma ConcatLayout(a: string, b: string)
    ensures ApplyBinary(Plus, Str(a), Str(b)).Ok?
    ensures var s := ApplyBinary(Plus, Str(a), Str(b)).value.s;
      |s| == |a| + |b| && s[..|a|] == a && s[|a|..] == b
  {
  }
}
