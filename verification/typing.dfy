/** The run-time type tags of the interpreter's values and, operator by operator, the
    operand types each operator of the evaluator accepts and the type it then yields.
    The C++ inspects `value.type()` of a `std::any`; here the tag is explicit. */
module Typing {
  import opened Results
  import opened Values
  import opened Tokens

  datatype Ty = NilTy | BoolTy | NumTy | StrTy

  function TypeOf(v: Literal): Ty {
    match v
    case Nil => NilTy
    case Bool(_) => BoolTy
    case Num(_) => NumTy
    case Str(_) => StrTy
  }

  /** The type of `left op right`, or None when the operator rejects those operand
      types: `+` joins two strings or adds two numbers; `-`, `*` and `/` take numbers;
      `==` compares two booleans, two numbers or two strings; `!=` only two booleans;
      the orderings take numbers. */
  function BinaryType(op: TokenType, left: Ty, right: Ty): Option<Ty> {
    if op.Plus? then
      if left == StrTy && right == StrTy then Some(StrTy)
      else if left == NumTy && right == NumTy then Some(NumTy)
      else None
    else if op.Minus? || op.Star? || op.Slash? then
      if left == NumTy && right == NumTy then Some(NumTy) else None
    else if op.EqualEqual? then
      if left == right && left != NilTy then Some(BoolTy) else None
    else if op.BangEqual? then
      if left == BoolTy && right == BoolTy then Some(BoolTy) else None
    else if op.Greater? || op.GreaterEqual? || op.Less? || op.LessEqual? then
      if left == NumTy && right == NumTy then Some(BoolTy) else None
    else None
  }

  /** The type of a prefix operator applied to an operand: only `!` on a boolean. */
  function UnaryType(op: TokenType, operand: Ty): Option<Ty> {
    if op == Bang && operand == BoolTy then Some(BoolTy) else None
  }
}
