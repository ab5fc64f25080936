/** The `evaluate` methods of the expression nodes in expr.hpp, as one function of the
    tree and the scope chain. Evaluation reads the chain and never changes it.

    Where the C++ builds a `runtime_error` without throwing it and then falls off the end
    of `evaluate`, or where `any_cast` would throw, the model fails with a TypeError. */
module Evaluator {
  import opened Results
  import opened Values
  import opened Tokens
  import opened Ast
  import opened Environment
  import opened Typing

  datatype EvalError =
    | TypeError(message: string)
    | UndefinedVariable(name: string)
    | DivisionByZero

  /** `left op right` for already evaluated operands. The operator accepts exactly the
      operand types the typing table lists, and then yields a value of the listed type,
      except that a division by zero fails. */
  function ApplyBinary(op: TokenType, left: Literal, right: Literal): (r: Result<Literal, EvalError>)
    ensures r.Ok? <==> BinaryType(op, TypeOf(left), TypeOf(right)).Some? && !(op.Slash? && right == Num(0.0))
    ensures r.Ok? ==> Some(TypeOf(r.value)) == BinaryType(op, TypeOf(left), TypeOf(right))
    ensures r == Err(DivisionByZero) <==> op.Slash? && left.Num? && right == Num(0.0)
  {
    if op.Plus? then Add(left, right)
    else if op.Minus? || op.Star? || op.Slash? then Arithmetic(op, left, right)
    else if op.EqualEqual? then Equal(left, right)
    else if op.BangEqual? then NotEqual(left, right)
    else if op.Greater? || op.GreaterEqual? || op.Less? || op.LessEqual? then Order(op, left, right)
    else Err(TypeError("No matching operation defined"))
  }

  /** `+`: two strings are joined, two numbers added. The sum is the number from which
      subtracting the right operand gives back the left one; the joined string holds
      the left string and then the right one. */
  function Add(left: Literal, right: Literal): (r: Result<Literal, EvalError>)
    ensures r.Ok? <==> BinaryType(Plus, TypeOf(left), TypeOf(right)).Some?
    ensures r.Ok? ==> Some(TypeOf(r.value)) == BinaryType(Plus, TypeOf(left), TypeOf(right))
    ensures r.Ok? && left.Num? ==> r.value.Num? && r.value.n - right.n == left.n
    ensures r.Ok? && left.Str? ==>
      && r.value.Str? && |r.value.s| == |left.s| + |right.s|
      && r.value.s[..|left.s|] == left.s && r.value.s[|left.s|..] == right.s
    ensures r.Err? ==> r.error.TypeError?
  {
    if left.Str? && right.Str? then Ok(Str(left.s + right.s))
    else if left.Num? && right.Num? then Ok(Num(left.n + right.n))
    else Err(TypeError("both operands not same type"))
  }

  /** `-`, `*` and `/` on two numbers; dividing by zero is an error. A difference is
      what gives back the left operand when the right one is added to it, and a
      quotient what gives it back when multiplied by the right one. */
  function Arithmetic(op: TokenType, left: Literal, right: Literal): (r: Result<Literal, EvalError>)
    requires op.Minus? || op.Star? || op.Slash?
    ensures r.Ok? <==> BinaryType(op, TypeOf(left), TypeOf(right)).Some? && !(op.Slash? && right == Num(0.0))
    ensures r.Ok? ==> r.value.Num?
    ensures r.Ok? && op.Minus? ==> r.value.n + right.n == left.n
    ensures r.Ok? && op.Star? ==> r.value == Num(left.n * right.n)
    ensures r.Ok? && op.Slash? ==> r.value.n * right.n == left.n
    ensures r == Err(DivisionByZero) <==> op.Slash? && left.Num? && right == Num(0.0)
  {
    if !(left.Num? && right.Num?) then Err(TypeError("both operands not double"))
    else if op.Minus? then Ok(Num(left.n - right.n))
    else if op.Star? then Ok(Num(left.n * right.n))
    else if right.n == 0.0 then Err(DivisionByZero)
    else Ok(Num(left.n / right.n))
  }

  /** `==` on two booleans, two numbers or two strings. */
  function Equal(left: Literal, right: Literal): (r: Result<Literal, EvalError>)
    ensures r.Ok? <==> BinaryType(EqualEqual, TypeOf(left), TypeOf(right)).Some?
    ensures r.Ok? ==> r.value == Bool(left == right)
    ensures r.Err? ==> r.error.TypeError?
  {
    if left.Bool? && right.Bool? then Ok(Bool(left.b == right.b))
    else if left.Num? && right.Num? then Ok(Bool(left.n == right.n))
    else if left.Str? && right.Str? then Ok(Bool(left.s == right.s))
    else Err(TypeError("operands of == not of one comparable type"))
  }

  /** `!=` on two booleans only. */
  function NotEqual(left: Literal, right: Literal): (r: Result<Literal, EvalError>)
    ensures r.Ok? <==> BinaryType(BangEqual, TypeOf(left), TypeOf(right)).Some?
    ensures r.Ok? ==> r.value == Bool(left != right)
    ensures r.Err? ==> r.error.TypeError?
  {
    if left.Bool? && right.Bool? then Ok(Bool(left.b != right.b))
    else Err(TypeError("operands of != not booleans"))
  }

  /** `>`, `>=`, `<` and `<=` on two numbers, all four stated through `<`: `>` is `<`
      with the operands swapped, and `>=` and `<=` are the negations of `<` and `>`. */
  function Order(op: TokenType, left: Literal, right: Literal): (r: Result<Literal, EvalError>)
    requires op.Greater? || op.GreaterEqual? || op.Less? || op.LessEqual?
    ensures r.Ok? <==> BinaryType(op, TypeOf(left), TypeOf(right)).Some?
    ensures r.Ok? ==> r.value.Bool?
    ensures r.Ok? && op.Less? ==> (r.value.b <==> left.n < right.n)
    ensures r.Ok? && op.Greater? ==> (r.value.b <==> right.n < left.n)
    ensures r.Ok? && op.GreaterEqual? ==> (r.value.b <==> !(left.n < right.n))
    ensures r.Ok? && op.LessEqual? ==> (r.value.b <==> !(right.n < left.n))
    ensures r.Err? ==> r.error.TypeError?
  {
    if !(left.Num? && right.Num?) then Err(TypeError("operands of an ordering not numbers"))
    else if op.Greater? then Ok(Bool(left.n > right.n))
    else if op.GreaterEqual? then Ok(Bool(left.n >= right.n))
    else if op.Less? then Ok(Bool(left.n < right.n))
    else Ok(Bool(left.n <= right.n))
  }

  /** `op operand` for an already evaluated operand: `!` negates a boolean. */
  function ApplyUnary(op: TokenType, operand: Literal): (r: Result<Literal, EvalError>)
    ensures r.Ok? <==> UnaryType(op, TypeOf(operand)).Some?
    ensures r.Ok? ==> Some(TypeOf(r.value)) == UnaryType(op, TypeOf(operand))
    ensures r.Ok? ==> r.value.b == !operand.b
  {
    if op != Bang then Err(TypeError("No matching operation defined"))
    else if operand.Bool? then Ok(Bool(!operand.b))
    else Err(TypeError("operand of ! not a boolean"))
  }

  /** The identifiers an expression reads. */
  function Names(e: Expr): set<string> {
    match e
    case BinaryExpr(left, _, right) => Names(left) + Names(right)
    case UnaryExpr(_, operand) => Names(operand)
    case LiteralExpr(_) => {}
    case IdentifierExpr(name) => {name}
    case GroupingExpr(inner) => Names(inner)
  }

  /** The value of `e` in `env`. The left operand of a binary expression is evaluated
      before the right one, so its error is the one reported. An UndefinedVariable error
      names an identifier of `e` that no scope binds, and there is none when every
      identifier of `e` is bound. */
  function Eval(e: Expr, env: seq<Scope>): (r: Result<Literal, EvalError>)
    ensures r.Err? && r.error.UndefinedVariable? ==>
      r.error.name in Names(e) && Lookup(env, r.error.name).None?
    ensures (forall name | name in Names(e) :: Lookup(env, name).Some?) ==>
      !(r.Err? && r.error.UndefinedVariable?)
  {
    match e
    case LiteralExpr(v) => Ok(v)
    case IdentifierExpr(name) =>
      var found := Lookup(env, name);
      if found.None? then Err(UndefinedVariable(name)) else Ok(found.value)
    case GroupingExpr(inner) => Eval(inner, env)
    case UnaryExpr(op, operand) =>
      var v := Eval(operand, env);
      if v.Err? then v else ApplyUnary(op.kind, v.value)
    case BinaryExpr(left, op, right) =>
      var l := Eval(left, env);
      if l.Err? then l
      else
        var r := Eval(right, env);
        if r.Err? then r else ApplyBinary(op.kind, l.value, r.value)
  }
}
