/** The abstract syntax tree built by the parser. Each C++ node class becomes one
    constructor; children are owned by value. */
module Ast {
  import opened Values
  import opened Tokens

  /** Expression nodes. Operators keep the whole token, as the C++ nodes do. */
  datatype Expr =
    | BinaryExpr(left: Expr, op: Token, right: Expr)
    | UnaryExpr(op: Token, operand: Expr)
    | LiteralExpr(value: Literal)
    | IdentifierExpr(name: string)
    | GroupingExpr(inner: Expr)

  /** The statement forms wrapped by a `Statement` declaration. */
  datatype Stmt =
    | PrintStmt(expr: Expr)
    | AssignStmt(name: string, expr: Expr)
    | ExprStmt(expr: Expr)

  /** Declarations. A block, and each branch of `if` and `while`, is the ordered list
      of declarations of a `BlockDecl`. */
  datatype Decl =
    | VarDecl(name: string, init: Expr)
    | BlockDecl(body: seq<Decl>)
    | IfDecl(cond: Expr, thenBody: seq<Decl>, elseBranch: ElseBranch)
    | WhileBlock(cond: Expr, body: seq<Decl>)
    | StatementDecl(stmt: Stmt)

  /** The optional else block of an `if`. */
  datatype ElseBranch = NoElse | ElseBlock(body: seq<Decl>)
}
