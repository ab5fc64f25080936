/** The parser reads back what Grammar's printer writes: for every tree in normal form,
    each parsing function applied to the printed tokens returns that tree and stops
    right after them, provided the next token does not continue the construct.
    Together with the parser's own postconditions (every tree it returns is in normal
    form) this pins down the shape of every parse: the right-recursive grouping of the
    binary tiers, the nesting of the tiers, declarations in source order.

    Each proof below takes the printed construct apart (PrintedLayout), reads its
    pieces back by induction, and puts the rule's result together (ParserSteps). */
module ParserRoundTrip {
  import opened Results
  import opened Values
  import opened Tokens
  import opened Ast
  import opened Grammar
  import opened Parser
  import opened ParserSteps
  import opened PrintedLayout

  /** Widening the tier keeps a follow condition's stop set. */
  lemma FollowsWeaken(ts: seq<Token>, end: nat, t: nat, u: nat)
    requires Follows(ts, end, t) && u <= t
    ensures Follows(ts, end, u)
  {
  }

  // Expressions

  lemma {:induction false} PrimaryRoundTrip(e: Expr, ts: seq<Token>, pos: nat)
    requires InTier(e, PrimaryTier)
    requires Occurs(ts, pos, ExprTokens(e))
    ensures Primary(ts, pos) == ExprOk(e, pos + |ExprTokens(e)|)
    decreases e, 0
  {
    match e
    case LiteralExpr(v) =>
      OccursAt(ts, pos, ExprTokens(e), 0);
      LiteralStep(ts, pos, v);
    case IdentifierExpr(name) =>
      OccursAt(ts, pos, ExprTokens(e), 0);
      IdentifierStep(ts, pos);
    case GroupingExpr(inner) =>
      GroupingSplit(inner, ts, pos);
      ExpressionRoundTrip(inner, ts, pos + 1);
      GroupingStep(ts, pos, inner, pos + 1 + |ExprTokens(inner)|);
  }

  lemma {:induction false} UnaryRoundTrip(e: Expr, ts: seq<Token>, pos: nat)
    requires InTier(e, UnaryTier)
    requires Occurs(ts, pos, ExprTokens(e))
    ensures Unary(ts, pos) == ExprOk(e, pos + |ExprTokens(e)|)
    decreases e, 2
  {
    if e.UnaryExpr? {
      UnarySplit(e, ts, pos);
      UnaryRoundTrip(e.operand, ts, pos + 1);
      UnaryStep(ts, pos, e.operand, pos + |ExprTokens(e)|);
    } else {
      OccursAt(ts, pos, ExprTokens(e), 0);
      PrimaryRoundTrip(e, ts, pos);
      UnaryStop(ts, pos, e, pos + |ExprTokens(e)|);
    }
  }

  lemma {:induction false} FactorRoundTrip(e: Expr, ts: seq<Token>, pos: nat)
    requires InTier(e, FactorTier)
    requires Occurs(ts, pos, ExprTokens(e))
    requires Follows(ts, pos + |ExprTokens(e)|, FactorTier)
    ensures Factor(ts, pos) == ExprOk(e, pos + |ExprTokens(e)|)
    decreases e, 4
  {
    if Rank(e) == FactorTier {
      FactorBinaryRoundTrip(e, ts, pos);
    } else {
      UnaryRoundTrip(e, ts, pos);
      FactorStop(ts, pos, e, pos + |ExprTokens(e)|);
    }
  }

  /** A factor operator: the left operand comes from the unary tier, the right one from the factor tier again. */
  lemma {:induction false} FactorBinaryRoundTrip(e: Expr, ts: seq<Token>, pos: nat)
    requires InTier(e, FactorTier) && Rank(e) == FactorTier
    requires Occurs(ts, pos, ExprTokens(e))
    requires Follows(ts, pos + |ExprTokens(e)|, FactorTier)
    ensures Factor(ts, pos) == ExprOk(e, pos + |ExprTokens(e)|)
    decreases e, 3
  {
    var mid := BinarySplit(e, ts, pos, FactorTier);
    UnaryRoundTrip(e.left, ts, pos);
    FactorRoundTrip(e.right, ts, mid + 1);
    FactorStep(ts, pos, e.left, mid, e.right, pos + |ExprTokens(e)|);
  }

  lemma {:induction false} TermRoundTrip(e: Expr, ts: seq<Token>, pos: nat)
    requires InTier(e, TermTier)
    requires Occurs(ts, pos, ExprTokens(e))
    requires Follows(ts, pos + |ExprTokens(e)|, TermTier)
    ensures Term(ts, pos) == ExprOk(e, pos + |ExprTokens(e)|)
    decreases e, 6
  {
    if Rank(e) == TermTier {
      TermBinaryRoundTrip(e, ts, pos);
    } else {
      FollowsWeaken(ts, pos + |ExprTokens(e)|, TermTier, FactorTier);
      FactorRoundTrip(e, ts, pos);
      TermStop(ts, pos, e, pos + |ExprTokens(e)|);
    }
  }

  /** A term operator: the left operand comes from the factor tier, the right one from the term tier again. */
  lemma {:induction false} TermBinaryRoundTrip(e: Expr, ts: seq<Token>, pos: nat)
    requires InTier(e, TermTier) && Rank(e) == TermTier
    requires Occurs(ts, pos, ExprTokens(e))
    requires Follows(ts, pos + |ExprTokens(e)|, TermTier)
    ensures Term(ts, pos) == ExprOk(e, pos + |ExprTokens(e)|)
    decreases e, 5
  {
    var mid := BinarySplit(e, ts, pos, TermTier);
    FactorRoundTrip(e.left, ts, pos);
    TermRoundTrip(e.right, ts, mid + 1);
    TermStep(ts, pos, e.left, mid, e.right, pos + |ExprTokens(e)|);
  }

  lemma {:induction false} ComparisonRoundTrip(e: Expr, ts: seq<Token>, pos: nat)
    requires InTier(e, ComparisonTier)
    requires Occurs(ts, pos, ExprTokens(e))
    requires Follows(ts, pos + |ExprTokens(e)|, ComparisonTier)
    ensures Comparison(ts, pos) == ExprOk(e, pos + |ExprTokens(e)|)
    decreases e, 8
  {
    if Rank(e) == ComparisonTier {
      ComparisonBinaryRoundTrip(e, ts, pos);
    } else {
      FollowsWeaken(ts, pos + |ExprTokens(e)|, ComparisonTier, TermTier);
      TermRoundTrip(e, ts, pos);
      ComparisonStop(ts, pos, e, pos + |ExprTokens(e)|);
    }
  }

  /** A comparison operator: the left operand comes from the term tier, the right one from the comparison tier again. */
  lemma {:induction false} ComparisonBinaryRoundTrip(e: Expr, ts: seq<Token>, pos: nat)
    requires InTier(e, ComparisonTier) && Rank(e) == ComparisonTier
    requires Occurs(ts, pos, ExprTokens(e))
    requires Follows(ts, pos + |ExprTokens(e)|, ComparisonTier)
    ensures Comparison(ts, pos) == ExprOk(e, pos + |ExprTokens(e)|)
    decreases e, 7
  {
    var mid := BinarySplit(e, ts, pos, ComparisonTier);
    TermRoundTrip(e.left, ts, pos);
    ComparisonRoundTrip(e.right, ts, mid + 1);
    ComparisonStep(ts, pos, e.left, mid, e.right, pos + |ExprTokens(e)|);
  }

  lemma {:induction false} EqualityRoundTrip(e: Expr, ts: seq<Token>, pos: nat)
    requires InTier(e, EqualityTier)
    requires Occurs(ts, pos, ExprTokens(e))
    requires Follows(ts, pos + |ExprTokens(e)|, EqualityTier)
    ensures Equality(ts, pos) == ExprOk(e, pos + |ExprTokens(e)|)
    decreases e, 10
  {
    if Rank(e) == EqualityTier {
      EqualityBinaryRoundTrip(e, ts, pos);
    } else {
      FollowsWeaken(ts, pos + |ExprTokens(e)|, EqualityTier, ComparisonTier);
      ComparisonRoundTrip(e, ts, pos);
      EqualityStop(ts, pos, e, pos + |ExprTokens(e)|);
    }
  }

  /** An equality operator: the left operand comes from the comparison tier, the right one from the equality tier again. */
  lemma {:induction false} EqualityBinaryRoundTrip(e: Expr, ts: seq<Token>, pos: nat)
    requires InTier(e, EqualityTier) && Rank(e) == EqualityTier
    requires Occurs(ts, pos, ExprTokens(e))
    requires Follows(ts, pos + |ExprTokens(e)|, EqualityTier)
    ensures Equality(ts, pos) == ExprOk(e, pos + |ExprTokens(e)|)
    decreases e, 9
  {
    var mid := BinarySplit(e, ts, pos, EqualityTier);
    ComparisonRoundTrip(e.left, ts, pos);
    EqualityRoundTrip(e.right, ts, mid + 1);
    EqualityStep(ts, pos, e.left, mid, e.right, pos + |ExprTokens(e)|);
  }

  /** Any normal-form expression, printed and followed by a token that is no binary
      operator, parses back to itself. */
  lemma {:induction false} ExpressionRoundTrip(e: Expr, ts: seq<Token>, pos: nat)
    requires Wf(e)
    requires Occurs(ts, pos, ExprTokens(e))
    requires Follows(ts, pos + |ExprTokens(e)|, EqualityTier)
    ensures Expression(ts, pos) == ExprOk(e, pos + |ExprTokens(e)|)
    decreases e, 12
  {
    EqualityRoundTrip(e, ts, pos);
  }

  // Statements

  lemma {:induction false} PrintRoundTrip(e: Expr, ts: seq<Token>, pos: nat)
    requires Wf(e)
    requires Occurs(ts, pos, StmtTokens(PrintStmt(e)))
    ensures pos < |ts| && ts[pos].kind == PrintKw
    ensures Statement(ts, pos) == Ok(Parsed(PrintStmt(e), pos + |StmtTokens(PrintStmt(e))|))
  {
    PrintSplit(e, ts, pos);
    ExpressionRoundTrip(e, ts, pos + 2);
    PrintStep(ts, pos, e, pos + 2 + |ExprTokens(e)|);
  }

  lemma {:induction false} AssignRoundTrip(name: string, e: Expr, ts: seq<Token>, pos: nat)
    requires Wf(e)
    requires Occurs(ts, pos, StmtTokens(AssignStmt(name, e)))
    requires Follows(ts, pos + |StmtTokens(AssignStmt(name, e))|, EqualityTier)
    ensures pos < |ts| && ts[pos].kind == Identifier
    ensures Statement(ts, pos) == Ok(Parsed(AssignStmt(name, e), pos + |StmtTokens(AssignStmt(name, e))|))
  {
    AssignSplit(name, e, ts, pos);
    ExpressionRoundTrip(e, ts, pos + 2);
    AssignStep(ts, pos, e, pos + 2 + |ExprTokens(e)|);
  }

  lemma {:induction false} ExprStmtRoundTrip(e: Expr, ts: seq<Token>, pos: nat)
    requires Wf(e) && !LeadingIdentifier(e)
    requires Occurs(ts, pos, ExprTokens(e))
    requires Follows(ts, pos + |ExprTokens(e)|, EqualityTier)
    ensures pos < |ts| && ExprStart(ts[pos].kind)
    ensures Statement(ts, pos) == Ok(Parsed(ExprStmt(e), pos + |ExprTokens(e)|))
  {
    ExprTokensStart(e);
    OccursAt(ts, pos, ExprTokens(e), 0);
    ExpressionRoundTrip(e, ts, pos);
    ExprStmtStep(ts, pos, e, pos + |ExprTokens(e)|);
  }

  /** A printed statement parses back to itself, and it starts with no declaration
      keyword, so the declaration rule hands it to the statement rule. */
  lemma {:induction false} StatementRoundTrip(s: Stmt, ts: seq<Token>, pos: nat)
    requires WfStmt(s)
    requires Occurs(ts, pos, StmtTokens(s))
    requires Follows(ts, pos + |StmtTokens(s)|, EqualityTier)
    ensures pos < |ts| && !DeclKeyword(ts[pos].kind)
    ensures Statement(ts, pos) == Ok(Parsed(s, pos + |StmtTokens(s)|))
  {
    match s
    case PrintStmt(e) => PrintRoundTrip(e, ts, pos);
    case AssignStmt(name, e) => AssignRoundTrip(name, e, ts, pos);
    case ExprStmt(e) => ExprStmtRoundTrip(e, ts, pos);
  }

  // Declarations

  lemma {:induction false} DeclarationRoundTrip(d: Decl, ts: seq<Token>, pos: nat)
    requires WfDecl(d)
    requires Occurs(ts, pos, DeclTokens(d))
    requires FollowsDecl(ts, pos + |DeclTokens(d)|)
    ensures Declaration(ts, pos) == Ok(Parsed(d, pos + |DeclTokens(d)|))
    decreases d, 3
  {
    match d
    case VarDecl(name, init) => VarRoundTrip(name, init, ts, pos);
    case BlockDecl(body) => BlockDeclRoundTrip(body, ts, pos);
    case IfDecl(_, _, _) => CompoundRoundTrip(d, ts, pos);
    case WhileBlock(_, _) => CompoundRoundTrip(d, ts, pos);
    case StatementDecl(s) => StatementDeclRoundTrip(s, ts, pos);
  }

  /** The declarations that open with a keyword and a parenthesised condition. */
  lemma {:induction false} CompoundRoundTrip(d: Decl, ts: seq<Token>, pos: nat)
    requires d.IfDecl? || d.WhileBlock?
    requires WfDecl(d)
    requires Occurs(ts, pos, DeclTokens(d))
    requires FollowsDecl(ts, pos + |DeclTokens(d)|)
    ensures Declaration(ts, pos) == Ok(Parsed(d, pos + |DeclTokens(d)|))
    decreases d, 2
  {
    match d
    case IfDecl(cond, thenBody, NoElse) => IfRoundTrip(cond, thenBody, ts, pos);
    case IfDecl(cond, thenBody, ElseBlock(elseBody)) => IfElseRoundTrip(cond, thenBody, elseBody, ts, pos);
    case WhileBlock(cond, body) => WhileRoundTrip(cond, body, ts, pos);
  }

  lemma {:induction false} StatementDeclRoundTrip(s: Stmt, ts: seq<Token>, pos: nat)
    requires WfStmt(s)
    requires Occurs(ts, pos, StmtTokens(s))
    requires Follows(ts, pos + |StmtTokens(s)|, EqualityTier)
    ensures Declaration(ts, pos) == Ok(Parsed(StatementDecl(s), pos + |StmtTokens(s)|))
  {
    StatementRoundTrip(s, ts, pos);
    StatementDeclStep(ts, pos, s, pos + |StmtTokens(s)|);
  }

  lemma {:induction false} VarRoundTrip(name: string, init: Expr, ts: seq<Token>, pos: nat)
    requires Wf(init)
    requires Occurs(ts, pos, VarTokens(name, init))
    requires Follows(ts, pos + |VarTokens(name, init)|, EqualityTier)
    ensures Declaration(ts, pos) == Ok(Parsed(VarDecl(name, init), pos + |VarTokens(name, init)|))
  {
    VarSplit(name, init, ts, pos);
    ExpressionRoundTrip(init, ts, pos + 3);
    VarStep(ts, pos, init, pos + 3 + |ExprTokens(init)|);
  }

  lemma {:induction false} BlockDeclRoundTrip(body: seq<Decl>, ts: seq<Token>, pos: nat)
    requires WfDecls(body)
    requires Occurs(ts, pos, BlockTokens(body))
    ensures Declaration(ts, pos) == Ok(Parsed(BlockDecl(body), pos + |BlockTokens(body)|))
    decreases body, 4
  {
    BlockRoundTrip(body, ts, pos);
    BlockDeclStep(ts, pos, body, pos + |BlockTokens(body)|);
  }

  lemma {:induction false} WhileRoundTrip(cond: Expr, body: seq<Decl>, ts: seq<Token>, pos: nat)
    requires Wf(cond) && WfDecls(body)
    requires Occurs(ts, pos, WhileTokens(cond, body))
    ensures Declaration(ts, pos) == Ok(Parsed(WhileBlock(cond, body), pos + |WhileTokens(cond, body)|))
    decreases body, 6
  {
    WhileSplit(cond, body, ts, pos);
    WhileFromParts(cond, body, ts, pos);
  }

  /** A `while` whose keyword, parenthesis, condition and block sit where the printer puts them. */
  lemma {:induction false} WhileFromParts(cond: Expr, body: seq<Decl>, ts: seq<Token>, pos: nat)
    requires Wf(cond) && WfDecls(body)
    requires pos + 1 < |ts| && ts[pos].kind == WhileKw && ts[pos + 1].kind == LeftParen
    requires Occurs(ts, pos + 2, ExprTokens(cond))
    requires pos + 2 + |ExprTokens(cond)| < |ts| && ts[pos + 2 + |ExprTokens(cond)|].kind == RightParen
    requires Follows(ts, pos + 2 + |ExprTokens(cond)|, EqualityTier)
    requires Occurs(ts, pos + 3 + |ExprTokens(cond)|, BlockTokens(body))
    ensures Declaration(ts, pos) == Ok(Parsed(WhileBlock(cond, body), pos + 3 + |ExprTokens(cond)| + |BlockTokens(body)|))
    decreases body, 5
  {
    var mid := pos + 2 + |ExprTokens(cond)|;
    CondBlockRoundTrip(cond, body, ts, pos + 2, mid);
    WhileDeclStep(ts, pos, cond, mid, body, mid + 1 + |BlockTokens(body)|);
  }

  /** A condition, its closing parenthesis and a block, as `if` and `while` print them,
      read back as that condition and that block. */
  lemma {:induction false} CondBlockRoundTrip(cond: Expr, body: seq<Decl>, ts: seq<Token>, start: nat, mid: nat)
    requires Wf(cond) && WfDecls(body)
    requires Occurs(ts, start, ExprTokens(cond)) && mid == start + |ExprTokens(cond)|
    requires Follows(ts, mid, EqualityTier)
    requires Occurs(ts, mid + 1, BlockTokens(body))
    ensures Expression(ts, start) == ExprOk(cond, mid)
    ensures GetBlock(ts, mid + 1) == Ok(Parsed(body, mid + 1 + |BlockTokens(body)|))
    decreases body, 4
  {
    ExpressionRoundTrip(cond, ts, start);
    BlockRoundTrip(body, ts, mid + 1);
  }

  lemma {:induction false} IfRoundTrip(cond: Expr, thenBody: seq<Decl>, ts: seq<Token>, pos: nat)
    requires Wf(cond) && WfDecls(thenBody)
    requires Occurs(ts, pos, IfHeadTokens(cond, thenBody))
    requires FollowsDecl(ts, pos + |IfHeadTokens(cond, thenBody)|)
    ensures Declaration(ts, pos) == Ok(Parsed(IfDecl(cond, thenBody, NoElse), pos + |IfHeadTokens(cond, thenBody)|))
    decreases thenBody, 7
  {
    IfHeadRoundTrip(cond, thenBody, ts, pos);
    IfDeclStep(ts, pos, cond, thenBody, pos + |IfHeadTokens(cond, thenBody)|);
  }

  lemma {:induction false} IfElseRoundTrip(cond: Expr, thenBody: seq<Decl>, elseBody: seq<Decl>, ts: seq<Token>, pos: nat)
    requires Wf(cond) && WfDecls(thenBody) && WfDecls(elseBody)
    requires Occurs(ts, pos, IfElseTokens(cond, thenBody, elseBody))
    ensures Declaration(ts, pos)
         == Ok(Parsed(IfDecl(cond, thenBody, ElseBlock(elseBody)), pos + |IfElseTokens(cond, thenBody, elseBody)|))
    decreases IfDecl(cond, thenBody, ElseBlock(elseBody)), 1
  {
    IfElseSplit(cond, thenBody, elseBody, ts, pos);
    IfElseTail(cond, thenBody, elseBody, ts, pos, pos + |IfHeadTokens(cond, thenBody)|);
  }

  /** A printed head, then `else` and a printed block, read back as the whole `if`. */
  lemma {:induction false} IfElseTail(cond: Expr, thenBody: seq<Decl>, elseBody: seq<Decl>, ts: seq<Token>, pos: nat, mid: nat)
    requires Wf(cond) && WfDecls(thenBody) && WfDecls(elseBody)
    requires Occurs(ts, pos, IfHeadTokens(cond, thenBody)) && mid == pos + |IfHeadTokens(cond, thenBody)|
    requires mid < |ts| && ts[mid].kind == ElseKw
    requires Occurs(ts, mid + 1, BlockTokens(elseBody))
    ensures Declaration(ts, pos) == Ok(Parsed(IfDecl(cond, thenBody, ElseBlock(elseBody)), mid + 1 + |BlockTokens(elseBody)|))
    decreases IfDecl(cond, thenBody, ElseBlock(elseBody)), 0
  {
    IfHeadRoundTrip(cond, thenBody, ts, pos);
    BlockRoundTrip(elseBody, ts, mid + 1);
    IfElseDeclStep(ts, pos, cond, thenBody, mid, elseBody, mid + 1 + |BlockTokens(elseBody)|);
  }

  /** `if ( cond ) { thenBody }` is read up to the end of the then block. */
  lemma {:induction false} IfHeadRoundTrip(cond: Expr, thenBody: seq<Decl>, ts: seq<Token>, pos: nat)
    requires Wf(cond) && WfDecls(thenBody)
    requires Occurs(ts, pos, IfHeadTokens(cond, thenBody))
    ensures IfHeadParses(ts, pos, cond, thenBody, pos + |IfHeadTokens(cond, thenBody)|)
    decreases thenBody, 6
  {
    IfHeadSplit(cond, thenBody, ts, pos);
    IfHeadFromParts(cond, thenBody, ts, pos);
  }

  /** An `if` head whose keyword, parenthesis, condition and block sit where the printer puts them. */
  lemma {:induction false} IfHeadFromParts(cond: Expr, thenBody: seq<Decl>, ts: seq<Token>, pos: nat)
    requires Wf(cond) && WfDecls(thenBody)
    requires pos + 1 < |ts| && ts[pos].kind == IfKw && ts[pos + 1].kind == LeftParen
    requires Occurs(ts, pos + 2, ExprTokens(cond))
    requires pos + 2 + |ExprTokens(cond)| < |ts| && ts[pos + 2 + |ExprTokens(cond)|].kind == RightParen
    requires Follows(ts, pos + 2 + |ExprTokens(cond)|, EqualityTier)
    requires Occurs(ts, pos + 3 + |ExprTokens(cond)|, BlockTokens(thenBody))
    ensures IfHeadParses(ts, pos, cond, thenBody, pos + 3 + |ExprTokens(cond)| + |BlockTokens(thenBody)|)
    decreases thenBody, 5
  {
    CondBlockRoundTrip(cond, thenBody, ts, pos + 2, pos + 2 + |ExprTokens(cond)|);
    IfHeadStep(ts, pos, cond, pos + 2 + |ExprTokens(cond)|, thenBody, pos + 3 + |ExprTokens(cond)| + |BlockTokens(thenBody)|);
  }

  // Blocks and declaration lists

  lemma {:induction false} BlockRoundTrip(body: seq<Decl>, ts: seq<Token>, pos: nat)
    requires WfDecls(body)
    requires Occurs(ts, pos, BlockTokens(body))
    ensures pos < |ts| && ts[pos].kind == LeftBrace
    ensures GetBlock(ts, pos) == Ok(Parsed(body, pos + |BlockTokens(body)|))
    decreases body, 3
  {
    BlockSplit(body, ts, pos);
    BlockItemsRoundTrip(body, ts, pos + 1);
    GetBlockStep(ts, pos, body, pos + 1 + |DeclsTokens(body)|);
  }

  lemma {:induction false} BlockItemsRoundTrip(ds: seq<Decl>, ts: seq<Token>, pos: nat)
    requires WfDecls(ds)
    requires Occurs(ts, pos, DeclsTokens(ds))
    requires pos + |DeclsTokens(ds)| < |ts| && ts[pos + |DeclsTokens(ds)|].kind == RightBrace
    ensures BlockItems(ts, pos) == Ok(Parsed(ds, pos + |DeclsTokens(ds)|))
    decreases ds, 2
  {
    if |ds| == 0 {
      BlockItemsStop(ts, pos);
    } else {
      BracesFollowDecl(ts, pos + |DeclsTokens(ds)|);
      var mid := DeclsHead(ds, ts, pos);
      BlockItemsTail(ds, ts, pos, mid);
    }
  }

  /** The block loop reads the first declaration and then the rest up to the `}`. */
  lemma {:induction false} BlockItemsTail(ds: seq<Decl>, ts: seq<Token>, pos: nat, mid: nat)
    requires |ds| > 0 && pos < |ts| && ts[pos].kind != RightBrace
    requires Declaration(ts, pos) == Ok(Parsed(ds[0], mid))
    requires WfDecls(ds[1..]) && Occurs(ts, mid, DeclsTokens(ds[1..]))
    requires mid + |DeclsTokens(ds[1..])| == pos + |DeclsTokens(ds)|
    requires pos + |DeclsTokens(ds)| < |ts| && ts[pos + |DeclsTokens(ds)|].kind == RightBrace
    ensures BlockItems(ts, pos) == Ok(Parsed(ds, pos + |DeclsTokens(ds)|))
    decreases ds, 1
  {
    BlockItemsRoundTrip(ds[1..], ts, mid);
    BlockItemsStep(ts, pos, ds, mid, pos + |DeclsTokens(ds)|);
  }

  /** The first declaration of a printed list reads back, and the rest of the list
      is printed right after it. */
  lemma {:induction false} DeclsHead(ds: seq<Decl>, ts: seq<Token>, pos: nat) returns (mid: nat)
    requires |ds| > 0 && WfDecls(ds)
    requires Occurs(ts, pos, DeclsTokens(ds))
    requires FollowsDecl(ts, pos + |DeclsTokens(ds)|)
    ensures pos < |ts| && ts[pos].kind != RightBrace && ts[pos].kind != EndOfFile
    ensures Declaration(ts, pos) == Ok(Parsed(ds[0], mid))
    ensures WfDecls(ds[1..]) && Occurs(ts, mid, DeclsTokens(ds[1..]))
    ensures mid + |DeclsTokens(ds[1..])| == pos + |DeclsTokens(ds)|
    decreases ds, 1
  {
    mid := DeclsLayout(ds, ts, pos);
    DeclarationRoundTrip(ds[0], ts, pos);
  }

  lemma {:induction false} ParseFromRoundTrip(ds: seq<Decl>, ts: seq<Token>, pos: nat)
    requires WfDecls(ds)
    requires Occurs(ts, pos, DeclsTokens(ds))
    requires IsAtEnd(ts, pos + |DeclsTokens(ds)|)
    ensures ParseFrom(ts, pos) == Ok(ds)
    decreases ds, 2
  {
    OccursBound(ts, pos, DeclsTokens(ds));
    if |ds| == 0 {
      ParseFromStop(ts, pos);
    } else {
      EndFollowsDecl(ts, pos + |DeclsTokens(ds)|);
      var mid := DeclsHead(ds, ts, pos);
      ParseFromRoundTrip(ds[1..], ts, mid);
      ParseFromStep(ts, pos, ds, mid);
      assert ParseFrom(ts, pos) == Ok(ds);
    }
  }

  /** A program printed as tokens, with or without the closing end-of-file token, parses
      back to the same declarations in the same order. */
  lemma {:induction false} ParsePrintedProgram(ds: seq<Decl>)
    requires WfDecls(ds)
    ensures Parse(DeclsTokens(ds)) == Ok(ds)
    ensures Parse(DeclsTokens(ds) + [Tok(EndOfFile, "")]) == Ok(ds)
  {
    var toks := DeclsTokens(ds);
    var eof := [Tok(EndOfFile, "")];
    OccursWhole(toks);
    ParseFromRoundTrip(ds, toks, 0);
    OccursWhole(toks + eof);
    OccursSplit(toks + eof, 0, toks, eof);
    ParseFromRoundTrip(ds, toks + eof, 0);
  }

  /** Everything the parser accepts prints to tokens it parses back to the same
      program: the printer is a right inverse of the parser on its whole range. */
  lemma {:induction false} ReparseParsedProgram(ts: seq<Token>)
    requires Parse(ts).Ok?
    ensures Parse(DeclsTokens(Parse(ts).value)) == Parse(ts)
  {
    ParsePrintedProgram(Parse(ts).value);
  }
}
