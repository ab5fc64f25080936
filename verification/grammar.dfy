/** The grammar's normal forms and a printer from trees back to tokens.

    Each precedence tier of the parser is numbered: primary 0, unary 1, factor 2,
    term 3, comparison 4, equality 5. Because every binary tier re-enters itself after
    its operator, the left operand of a tier-t operator comes from a tighter tier
    (rank below t) and the right operand from tier t itself (rank at most t).
    `InTier(e, t)` says the parser's tier t can build `e`. `ExprTokens` and `DeclTokens`
    print a tree as the tokens the parser reads back (see ParserRoundTrip). */
module Grammar {
  import opened Values
  import opened Tokens
  import opened Ast

  const PrimaryTier: nat := 0
  const UnaryTier: nat := 1
  const FactorTier: nat := 2
  const TermTier: nat := 3
  const ComparisonTier: nat := 4
  const EqualityTier: nat := 5

  /** The tier whose rule consumes operator `k`; 6 for a token that is no binary operator. */
  function OpTier(k: TokenType): (t: nat)
    ensures FactorTier <= t <= EqualityTier + 1
  {
    match k
    case EqualEqual | BangEqual => EqualityTier
    case Greater | GreaterEqual | Less | LessEqual => ComparisonTier
    case Plus | Minus => TermTier
    case Star | Slash => FactorTier
    case _ => EqualityTier + 1
  }

  /** `OpTier` sorts the operators exactly as the operator sets of each tier do. */
  lemma OpTierSets(k: TokenType)
    ensures OpTier(k) == EqualityTier <==> k in EqualityOps
    ensures OpTier(k) == ComparisonTier <==> k in ComparisonOps
    ensures OpTier(k) == TermTier <==> k in TermOps
    ensures OpTier(k) == FactorTier <==> k in FactorOps
    ensures OpTier(k) <= EqualityTier <==> k in BinaryOps
  {
  }

  /** The tightest tier that can produce the root of `e`. */
  function Rank(e: Expr): nat {
    match e
    case BinaryExpr(_, op, _) => OpTier(op.kind)
    case UnaryExpr(_, _) => UnaryTier
    case _ => PrimaryTier
  }

  /** Trees the parser can build: operators sit at their own tier, grouping resets the tier. */
  predicate Wf(e: Expr) {
    match e
    case BinaryExpr(left, op, right) =>
      && OpTier(op.kind) <= EqualityTier
      && Rank(left) < OpTier(op.kind) && Rank(right) <= OpTier(op.kind)
      && Wf(left) && Wf(right)
    case UnaryExpr(op, operand) => op.kind == Bang && Rank(operand) <= UnaryTier && Wf(operand)
    case LiteralExpr(_) => true
    case IdentifierExpr(_) => true
    case GroupingExpr(inner) => Wf(inner)
  }

  predicate InTier(e: Expr, t: nat) {
    Wf(e) && Rank(e) <= t
  }

  /** True when the leftmost token of `e` is an identifier: such an expression cannot
      stand alone as an expression statement, since the statement rule reads any
      leading identifier as the target of an assignment. */
  predicate LeadingIdentifier(e: Expr) {
    match e
    case IdentifierExpr(_) => true
    case BinaryExpr(left, _, _) => LeadingIdentifier(left)
    case _ => false
  }

  /** Declarations whose every expression is in normal form and whose expression
      statements do not begin with an identifier. */
  predicate WfDecl(d: Decl) {
    match d
    case VarDecl(_, init) => Wf(init)
    case BlockDecl(body) => WfDecls(body)
    case IfDecl(cond, thenBody, NoElse) => Wf(cond) && WfDecls(thenBody)
    case IfDecl(cond, thenBody, ElseBlock(elseBody)) => Wf(cond) && WfDecls(thenBody) && WfDecls(elseBody)
    case WhileBlock(cond, body) => Wf(cond) && WfDecls(body)
    case StatementDecl(s) => WfStmt(s)
  }

  predicate WfDecls(ds: seq<Decl>) {
    forall i :: 0 <= i < |ds| ==> WfDecl(ds[i])
  }

  predicate WfStmt(s: Stmt) {
    match s
    case PrintStmt(e) => Wf(e)
    case AssignStmt(_, e) => Wf(e)
    case ExprStmt(e) => Wf(e) && !LeadingIdentifier(e)
  }

  /** A token without literal payload. */
  function Tok(kind: TokenType, lexeme: string): Token {
    Token(kind, lexeme, Nil)
  }

  /** The token a literal value is written as. Number and string tokens carry the
      value as payload; their lexeme plays no part in parsing and is left empty. */
  function LiteralToken(v: Literal): Token {
    match v
    case Nil => Tok(NilKw, "nil")
    case Bool(b) => if b then Tok(TrueKw, "true") else Tok(FalseKw, "false")
    case Num(_) => Token(Number, "", v)
    case Str(_) => Token(String, "", v)
  }

  function ExprTokens(e: Expr): seq<Token> {
    match e
    case BinaryExpr(left, op, right) => ExprTokens(left) + [op] + ExprTokens(right)
    case UnaryExpr(op, operand) => [op] + ExprTokens(operand)
    case LiteralExpr(v) => [LiteralToken(v)]
    case IdentifierExpr(name) => [Tok(Identifier, name)]
    case GroupingExpr(inner) => [Tok(LeftParen, "(")] + ExprTokens(inner) + [Tok(RightParen, ")")]
  }

  function StmtTokens(s: Stmt): seq<Token> {
    match s
    case PrintStmt(e) => [Tok(PrintKw, "print"), Tok(LeftParen, "(")] + ExprTokens(e) + [Tok(RightParen, ")")]
    case AssignStmt(name, e) => [Tok(Identifier, name), Tok(Equal, "=")] + ExprTokens(e)
    case ExprStmt(e) => ExprTokens(e)
  }

  function BlockTokens(body: seq<Decl>): seq<Token>
    decreases body, 1
  {
    [Tok(LeftBrace, "{")] + DeclsTokens(body) + [Tok(RightBrace, "}")]
  }

  function VarTokens(name: string, init: Expr): seq<Token> {
    [Tok(VarKw, "var"), Tok(Identifier, name), Tok(Equal, "=")] + ExprTokens(init)
  }

  /** The tokens of `if (cond) {thenBody}`, before any else part. */
  function IfHeadTokens(cond: Expr, thenBody: seq<Decl>): seq<Token>
    decreases thenBody, 2
  {
    [Tok(IfKw, "if"), Tok(LeftParen, "(")] + ExprTokens(cond) + [Tok(RightParen, ")")] + BlockTokens(thenBody)
  }

  function IfElseTokens(cond: Expr, thenBody: seq<Decl>, elseBody: seq<Decl>): seq<Token>
    decreases IfDecl(cond, thenBody, ElseBlock(elseBody)), 2
  {
    IfHeadTokens(cond, thenBody) + [Tok(ElseKw, "else")] + BlockTokens(elseBody)
  }

  function WhileTokens(cond: Expr, body: seq<Decl>): seq<Token>
    decreases body, 2
  {
    [Tok(WhileKw, "while"), Tok(LeftParen, "(")] + ExprTokens(cond) + [Tok(RightParen, ")")] + BlockTokens(body)
  }

  function DeclTokens(d: Decl): seq<Token>
    decreases d, 3
  {
    match d
    case VarDecl(name, init) => VarTokens(name, init)
    case BlockDecl(body) => BlockTokens(body)
    case IfDecl(cond, thenBody, NoElse) => IfHeadTokens(cond, thenBody)
    case IfDecl(cond, thenBody, ElseBlock(elseBody)) => IfElseTokens(cond, thenBody, elseBody)
    case WhileBlock(cond, body) => WhileTokens(cond, body)
    case StatementDecl(s) => StmtTokens(s)
  }

  function DeclsTokens(ds: seq<Decl>): seq<Token>
    decreases ds, 0
  {
    if |ds| == 0 then [] else DeclTokens(ds[0]) + DeclsTokens(ds[1..])
  }

  /** `toks` appears in `ts` starting at index `pos`. */
  predicate Occurs(ts: seq<Token>, pos: nat, toks: seq<Token>)
    decreases toks
  {
    if |toks| == 0 then pos <= |ts|
    else pos < |ts| && ts[pos] == toks[0] && Occurs(ts, pos + 1, toks[1..])
  }

  /** The token at `end`, if any, is not an operator that tier `t` or a tighter tier
      would go on to consume. */
  predicate Follows(ts: seq<Token>, end: nat, t: nat) {
    end >= |ts| || OpTier(ts[end].kind) > t
  }

  /** What may come after a declaration: no binary operator, which would extend its
      trailing expression, and no `else`, which would attach to an `if` without else. */
  predicate FollowsDecl(ts: seq<Token>, end: nat) {
    Follows(ts, end, EqualityTier) && (end < |ts| ==> ts[end].kind != ElseKw)
  }

  /** The kinds an expression can start with. */
  predicate ExprStart(k: TokenType) {
    k.TrueKw? || k.FalseKw? || k.NilKw? || k.Number? || k.String? || k.Identifier? || k.LeftParen? || k.Bang?
  }

  lemma {:induction false} ExprTokensStart(e: Expr)
    requires Wf(e)
    ensures |ExprTokens(e)| > 0
    ensures ExprStart(ExprTokens(e)[0].kind)
    ensures ExprTokens(e)[0].kind == Identifier <==> LeadingIdentifier(e)
  {
    match e
    case BinaryExpr(left, op, right) =>
      ExprTokensStart(left);
    case UnaryExpr(op, operand) =>
    case LiteralExpr(v) =>
    case IdentifierExpr(name) =>
    case GroupingExpr(inner) =>
  }

  /** The kinds a declaration can start with. */
  predicate DeclStart(k: TokenType) {
    ExprStart(k) || k.VarKw? || k.IfKw? || k.WhileKw? || k.LeftBrace? || k.PrintKw?
  }

  /** The kinds that `declaration()` sends to a rule other than `statement()`. */
  predicate DeclKeyword(k: TokenType) {
    k.VarKw? || k.FuncKw? || k.IfKw? || k.WhileKw? || k.LeftBrace?
  }

  lemma {:induction false} DeclTokensStart(d: Decl)
    requires WfDecl(d)
    ensures |DeclTokens(d)| > 0
    ensures DeclStart(DeclTokens(d)[0].kind)
  {
    match d
    case VarDecl(_, _) =>
    case BlockDecl(_) =>
    case IfDecl(cond, thenBody, _) => assert IfHeadTokens(cond, thenBody)[0].kind == IfKw;
    case WhileBlock(_, _) =>
    case StatementDecl(s) =>
      match s
      case PrintStmt(_) =>
      case AssignStmt(_, _) =>
      case ExprStmt(e) => ExprTokensStart(e);
  }

  /** A declaration's first token cannot continue or close what precedes it. */
  lemma DeclStartFollows(ts: seq<Token>, end: nat)
    requires end < |ts| && DeclStart(ts[end].kind)
    ensures FollowsDecl(ts, end)
    ensures !ts[end].kind.RightBrace? && !ts[end].kind.EndOfFile?
  {
  }

  lemma {:induction false} OccursAt(ts: seq<Token>, pos: nat, toks: seq<Token>, i: nat)
    requires Occurs(ts, pos, toks) && i < |toks|
    ensures pos + i < |ts| && ts[pos + i] == toks[i]
    decreases i
  {
    if i > 0 {
      OccursAt(ts, pos + 1, toks[1..], i - 1);
    }
  }

  lemma {:induction false} OccursBound(ts: seq<Token>, pos: nat, toks: seq<Token>)
    requires Occurs(ts, pos, toks)
    ensures pos + |toks| <= |ts|
    decreases toks
  {
    if |toks| > 0 {
      OccursBound(ts, pos + 1, toks[1..]);
    }
  }

  lemma {:induction false} OccursSplit(ts: seq<Token>, pos: nat, a: seq<Token>, b: seq<Token>)
    requires Occurs(ts, pos, a + b)
    ensures Occurs(ts, pos, a) && Occurs(ts, pos + |a|, b)
    decreases a
  {
    if |a| > 0 {
      assert (a + b)[0] == a[0];
      assert (a + b)[1..] == a[1..] + b;
      OccursSplit(ts, pos + 1, a[1..], b);
    } else {
      assert a + b == b;
      OccursBound(ts, pos, b);
    }
  }

  lemma {:induction false} OccursWhole(ts: seq<Token>)
    ensures Occurs(ts, 0, ts)
  {
    OccursSuffix(ts, 0);
  }

  lemma {:induction false} OccursSuffix(ts: seq<Token>, pos: nat)
    requires pos <= |ts|
    ensures Occurs(ts, pos, ts[pos..])
    decreases |ts| - pos
  {
    if pos < |ts| {
      assert ts[pos..][1..] == ts[pos + 1..];
      OccursSuffix(ts, pos + 1);
    }
  }
}
