/** One step of each parsing rule, stated on the results of the rules it calls: if the
    sub-rules return these trees at these positions and the tokens in between are the
    ones the rule expects, the rule returns the tree it builds from them. The round-trip
    proof chains these steps, so that no single proof unfolds more than one rule. */
module ParserSteps {
  import opened Results
  import opened Values
  import opened Tokens
  import opened Ast
  import opened Grammar
  import opened Parser

  // Expression tiers

  lemma FactorStep(ts: seq<Token>, pos: nat, left: Expr, mid: nat, right: Expr, end: nat)
    requires pos <= |ts|
    requires Unary(ts, pos) == ExprOk(left, mid)
    requires mid < |ts| && OpTier(ts[mid].kind) == FactorTier
    requires Factor(ts, mid + 1) == ExprOk(right, end)
    ensures Factor(ts, pos) == ExprOk(BinaryExpr(left, ts[mid], right), end)
  {
  }

  lemma FactorStop(ts: seq<Token>, pos: nat, e: Expr, end: nat)
    requires pos <= |ts|
    requires Unary(ts, pos) == ExprOk(e, end)
    requires Follows(ts, end, FactorTier)
    ensures Factor(ts, pos) == ExprOk(e, end)
  {
  }

  lemma TermStep(ts: seq<Token>, pos: nat, left: Expr, mid: nat, right: Expr, end: nat)
    requires pos <= |ts|
    requires Factor(ts, pos) == ExprOk(left, mid)
    requires mid < |ts| && OpTier(ts[mid].kind) == TermTier
    requires Term(ts, mid + 1) == ExprOk(right, end)
    ensures Term(ts, pos) == ExprOk(BinaryExpr(left, ts[mid], right), end)
  {
  }

  lemma TermStop(ts: seq<Token>, pos: nat, e: Expr, end: nat)
    requires pos <= |ts|
    requires Factor(ts, pos) == ExprOk(e, end)
    requires Follows(ts, end, TermTier)
    ensures Term(ts, pos) == ExprOk(e, end)
  {
  }

  lemma ComparisonStep(ts: seq<Token>, pos: nat, left: Expr, mid: nat, right: Expr, end: nat)
    requires pos <= |ts|
    requires Term(ts, pos) == ExprOk(left, mid)
    requires mid < |ts| && OpTier(ts[mid].kind) == ComparisonTier
    requires Comparison(ts, mid + 1) == ExprOk(right, end)
    ensures Comparison(ts, pos) == ExprOk(BinaryExpr(left, ts[mid], right), end)
  {
  }

  lemma ComparisonStop(ts: seq<Token>, pos: nat, e: Expr, end: nat)
    requires pos <= |ts|
    requires Term(ts, pos) == ExprOk(e, end)
    requires Follows(ts, end, ComparisonTier)
    ensures Comparison(ts, pos) == ExprOk(e, end)
  {
  }

  lemma EqualityStep(ts: seq<Token>, pos: nat, left: Expr, mid: nat, right: Expr, end: nat)
    requires pos <= |ts|
    requires Comparison(ts, pos) == ExprOk(left, mid)
    requires mid < |ts| && OpTier(ts[mid].kind) == EqualityTier
    requires Equality(ts, mid + 1) == ExprOk(right, end)
    ensures Equality(ts, pos) == ExprOk(BinaryExpr(left, ts[mid], right), end)
  {
  }

  lemma EqualityStop(ts: seq<Token>, pos: nat, e: Expr, end: nat)
    requires pos <= |ts|
    requires Comparison(ts, pos) == ExprOk(e, end)
    requires Follows(ts, end, EqualityTier)
    ensures Equality(ts, pos) == ExprOk(e, end)
  {
  }

  lemma UnaryStep(ts: seq<Token>, pos: nat, operand: Expr, end: nat)
    requires pos < |ts| && ts[pos].kind == Bang
    requires Unary(ts, pos + 1) == ExprOk(operand, end)
    ensures Unary(ts, pos) == ExprOk(UnaryExpr(ts[pos], operand), end)
  {
  }

  lemma UnaryStop(ts: seq<Token>, pos: nat, e: Expr, end: nat)
    requires pos < |ts| && ts[pos].kind != Bang
    requires Primary(ts, pos) == ExprOk(e, end)
    ensures Unary(ts, pos) == ExprOk(e, end)
  {
  }

  lemma LiteralStep(ts: seq<Token>, pos: nat, v: Literal)
    requires pos < |ts| && ts[pos] == LiteralToken(v)
    ensures Primary(ts, pos) == ExprOk(LiteralExpr(v), pos + 1)
  {
  }

  lemma IdentifierStep(ts: seq<Token>, pos: nat)
    requires pos < |ts| && ts[pos].kind == Identifier
    ensures Primary(ts, pos) == ExprOk(IdentifierExpr(ts[pos].lexeme), pos + 1)
  {
  }

  lemma GroupingStep(ts: seq<Token>, pos: nat, inner: Expr, end: nat)
    requires pos < |ts| && ts[pos].kind == LeftParen
    requires Expression(ts, pos + 1) == ExprOk(inner, end)
    requires end < |ts| && ts[end].kind == RightParen
    ensures Primary(ts, pos) == ExprOk(GroupingExpr(inner), end + 1)
  {
  }

  // Statements

  lemma PrintStep(ts: seq<Token>, pos: nat, e: Expr, end: nat)
    requires pos + 1 < |ts| && ts[pos].kind == PrintKw && ts[pos + 1].kind == LeftParen
    requires Expression(ts, pos + 2) == ExprOk(e, end)
    requires end < |ts| && ts[end].kind == RightParen
    ensures Statement(ts, pos) == Ok(Parsed(PrintStmt(e), end + 1))
  {
  }

  lemma AssignStep(ts: seq<Token>, pos: nat, e: Expr, end: nat)
    requires pos + 1 < |ts| && ts[pos].kind == Identifier && ts[pos + 1].kind == Equal
    requires Expression(ts, pos + 2) == ExprOk(e, end)
    ensures Statement(ts, pos) == Ok(Parsed(AssignStmt(ts[pos].lexeme, e), end))
  {
  }

  lemma ExprStmtStep(ts: seq<Token>, pos: nat, e: Expr, end: nat)
    requires pos < |ts| && !ts[pos].kind.PrintKw? && !ts[pos].kind.Identifier?
    requires Expression(ts, pos) == ExprOk(e, end)
    ensures Statement(ts, pos) == Ok(Parsed(ExprStmt(e), end))
  {
  }

  // Declarations

  lemma StatementDeclStep(ts: seq<Token>, pos: nat, s: Stmt, end: nat)
    requires pos < |ts| && !DeclKeyword(ts[pos].kind)
    requires Statement(ts, pos) == Ok(Parsed(s, end))
    ensures Declaration(ts, pos) == Ok(Parsed(StatementDecl(s), end))
  {
  }

  lemma VarStep(ts: seq<Token>, pos: nat, init: Expr, end: nat)
    requires pos + 2 < |ts| && ts[pos].kind == VarKw && ts[pos + 2].kind == Equal
    requires Expression(ts, pos + 3) == ExprOk(init, end)
    ensures Declaration(ts, pos) == Ok(Parsed(VarDecl(ts[pos + 1].lexeme, init), end))
  {
  }

  lemma BlockDeclStep(ts: seq<Token>, pos: nat, body: seq<Decl>, end: nat)
    requires pos < |ts| && ts[pos].kind == LeftBrace
    requires GetBlock(ts, pos) == Ok(Parsed(body, end))
    ensures Declaration(ts, pos) == Ok(Parsed(BlockDecl(body), end))
  {
  }

  lemma WhileStep(ts: seq<Token>, pos: nat, cond: Expr, mid: nat, body: seq<Decl>, end: nat)
    requires pos + 1 < |ts| && ts[pos].kind == WhileKw && ts[pos + 1].kind == LeftParen
    requires Expression(ts, pos + 2) == ExprOk(cond, mid)
    requires mid < |ts| && ts[mid].kind == RightParen
    requires GetBlock(ts, mid + 1) == Ok(Parsed(body, end))
    ensures WhileDeclaration(ts, pos) == Ok(Parsed(WhileBlock(cond, body), end))
  {
  }

  /** The condition and then block of `if ( cond ) { thenBody }` at `pos`, with the
      position after the block; `None` when that head does not parse. */
  function IfHead(ts: seq<Token>, pos: nat): Option<(Expr, seq<Decl>, nat)> {
    if pos + 1 < |ts| && ts[pos].kind == IfKw && ts[pos + 1].kind == LeftParen then
      var c := Expression(ts, pos + 2);
      if c.ExprOk? && c.next < |ts| && ts[c.next].kind == RightParen then
        var b := GetBlock(ts, c.next + 1);
        if b.Ok? then Some((c.tree, b.value.tree, b.value.next)) else None
      else None
    else None
  }

  /** `if ( cond ) { thenBody }` read up to the end of the then block. */
  predicate IfHeadParses(ts: seq<Token>, pos: nat, cond: Expr, thenBody: seq<Decl>, end: nat) {
    IfHead(ts, pos) == Some((cond, thenBody, end))
  }

  lemma IfHeadStep(ts: seq<Token>, pos: nat, cond: Expr, mid: nat, thenBody: seq<Decl>, end: nat)
    requires pos + 1 < |ts| && ts[pos].kind == IfKw && ts[pos + 1].kind == LeftParen
    requires Expression(ts, pos + 2) == ExprOk(cond, mid)
    requires mid < |ts| && ts[mid].kind == RightParen
    requires GetBlock(ts, mid + 1) == Ok(Parsed(thenBody, end))
    ensures IfHeadParses(ts, pos, cond, thenBody, end)
  {
  }

  lemma IfStep(ts: seq<Token>, pos: nat, cond: Expr, thenBody: seq<Decl>, end: nat)
    requires IfHeadParses(ts, pos, cond, thenBody, end)
    requires !(end < |ts| && ts[end].kind == ElseKw)
    ensures IfDeclaration(ts, pos) == Ok(Parsed(IfDecl(cond, thenBody, NoElse), end))
  {
  }

  lemma IfElseStep(ts: seq<Token>, pos: nat, cond: Expr, thenBody: seq<Decl>, mid: nat, elseBody: seq<Decl>, end: nat)
    requires IfHeadParses(ts, pos, cond, thenBody, mid)
    requires mid < |ts| && ts[mid].kind == ElseKw
    requires GetBlock(ts, mid + 1) == Ok(Parsed(elseBody, end))
    ensures IfDeclaration(ts, pos) == Ok(Parsed(IfDecl(cond, thenBody, ElseBlock(elseBody)), end))
  {
  }

  /** `Declaration` hands `if` and `while` to their own rules. */
  lemma KeywordDispatch(ts: seq<Token>, pos: nat)
    requires pos < |ts|
    ensures ts[pos].kind == IfKw ==> Declaration(ts, pos) == IfDeclaration(ts, pos)
    ensures ts[pos].kind == WhileKw ==> Declaration(ts, pos) == WhileDeclaration(ts, pos)
  {
  }

  lemma WhileDeclStep(ts: seq<Token>, pos: nat, cond: Expr, mid: nat, body: seq<Decl>, end: nat)
    requires pos + 1 < |ts| && ts[pos].kind == WhileKw && ts[pos + 1].kind == LeftParen
    requires Expression(ts, pos + 2) == ExprOk(cond, mid)
    requires mid < |ts| && ts[mid].kind == RightParen
    requires GetBlock(ts, mid + 1) == Ok(Parsed(body, end))
    ensures Declaration(ts, pos) == Ok(Parsed(WhileBlock(cond, body), end))
  {
    WhileStep(ts, pos, cond, mid, body, end);
    KeywordDispatch(ts, pos);
  }

  lemma IfDeclStep(ts: seq<Token>, pos: nat, cond: Expr, thenBody: seq<Decl>, end: nat)
    requires IfHeadParses(ts, pos, cond, thenBody, end)
    requires !(end < |ts| && ts[end].kind == ElseKw)
    ensures Declaration(ts, pos) == Ok(Parsed(IfDecl(cond, thenBody, NoElse), end))
  {
    IfStep(ts, pos, cond, thenBody, end);
    KeywordDispatch(ts, pos);
  }

  lemma IfElseDeclStep(ts: seq<Token>, pos: nat, cond: Expr, thenBody: seq<Decl>, mid: nat, elseBody: seq<Decl>, end: nat)
    requires IfHeadParses(ts, pos, cond, thenBody, mid)
    requires mid < |ts| && ts[mid].kind == ElseKw
    requires GetBlock(ts, mid + 1) == Ok(Parsed(elseBody, end))
    ensures Declaration(ts, pos) == Ok(Parsed(IfDecl(cond, thenBody, ElseBlock(elseBody)), end))
  {
    IfElseStep(ts, pos, cond, thenBody, mid, elseBody, end);
    KeywordDispatch(ts, pos);
  }

  // Blocks and the declaration loops

  lemma GetBlockStep(ts: seq<Token>, pos: nat, body: seq<Decl>, end: nat)
    requires pos < |ts| && ts[pos].kind == LeftBrace
    requires BlockItems(ts, pos + 1) == Ok(Parsed(body, end))
    ensures GetBlock(ts, pos) == Ok(Parsed(body, end + 1))
  {
  }

  lemma BlockItemsStop(ts: seq<Token>, pos: nat)
    requires pos < |ts| && ts[pos].kind == RightBrace
    ensures BlockItems(ts, pos) == Ok(Parsed([], pos))
  {
  }

  lemma BlockItemsStep(ts: seq<Token>, pos: nat, ds: seq<Decl>, mid: nat, end: nat)
    requires pos < |ts| && ts[pos].kind != RightBrace && |ds| > 0
    requires Declaration(ts, pos) == Ok(Parsed(ds[0], mid))
    requires BlockItems(ts, mid) == Ok(Parsed(ds[1..], end))
    ensures BlockItems(ts, pos) == Ok(Parsed(ds, end))
  {
    assert [ds[0]] + ds[1..] == ds;
  }

  lemma ParseFromStop(ts: seq<Token>, pos: nat)
    requires pos <= |ts| && IsAtEnd(ts, pos)
    ensures ParseFrom(ts, pos) == Ok([])
  {
  }

  lemma ParseFromStep(ts: seq<Token>, pos: nat, ds: seq<Decl>, mid: nat)
    requires pos <= |ts| && !IsAtEnd(ts, pos) && |ds| > 0
    requires Declaration(ts, pos) == Ok(Parsed(ds[0], mid))
    requires ParseFrom(ts, mid) == Ok(ds[1..])
    ensures ParseFrom(ts, pos) == Ok(ds)
  {
    assert [ds[0]] + ds[1..] == ds;
  }
}
