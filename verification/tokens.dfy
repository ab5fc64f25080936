/** Tokens as produced by the lexer (the lexer itself is not part of this model). */
module Tokens {
  import opened Values

  /** The lexical categories the parser distinguishes. */
  datatype TokenType =
    | LeftParen | RightParen | LeftBrace | RightBrace
    | Plus | Minus | Star | Slash
    | Bang | BangEqual | Equal | EqualEqual
    | Greater | GreaterEqual | Less | LessEqual
    | Identifier | String | Number
    | VarKw | FuncKw | IfKw | ElseKw | WhileKw | PrintKw
    | TrueKw | FalseKw | NilKw
    | EndOfFile

  /** A token: its category, its source text and the literal payload that the lexer
      attaches to NUMBER and STRING tokens (Nil for every other token). */
  datatype Token = Token(kind: TokenType, lexeme: string, literal: Literal)

  /** Operators recognised by each binary precedence tier. */
  const EqualityOps: set<TokenType> := {EqualEqual, BangEqual}
  const ComparisonOps: set<TokenType> := {Greater, GreaterEqual, Less, LessEqual}
  const TermOps: set<TokenType> := {Plus, Minus}
  const FactorOps: set<TokenType> := {Star, Slash}

  /** Every binary operator of the grammar. */
  const BinaryOps: set<TokenType> := EqualityOps + ComparisonOps + TermOps + FactorOps
}
