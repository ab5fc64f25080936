/** Where the pieces of a printed construct sit in a token sequence that contains it.
    Each lemma takes `Occurs(ts, pos, <printed construct>)` apart into the positions
    and kinds of the tokens the corresponding parsing rule looks at, and the places
    where the printed sub-constructs occur. No parsing function appears here. */
module PrintedLayout {
  import opened Values
  import opened Tokens
  import opened Ast
  import opened Grammar

  /** A tier-`t` binary expression: the left operand from a tighter tier, the operator
      at `mid`, the right operand from tier `t` ending where `e` ends. */
  lemma BinarySplit(e: Expr, ts: seq<Token>, pos: nat, t: nat) returns (mid: nat)
    requires InTier(e, t) && Rank(e) == t && t >= FactorTier
    requires Occurs(ts, pos, ExprTokens(e))
    requires Follows(ts, pos + |ExprTokens(e)|, t)
    ensures e.BinaryExpr? && mid < |ts| && e == BinaryExpr(e.left, ts[mid], e.right)
    ensures OpTier(ts[mid].kind) == t
    ensures InTier(e.left, t - 1) && Occurs(ts, pos, ExprTokens(e.left)) && mid == pos + |ExprTokens(e.left)|
    ensures InTier(e.right, t) && Occurs(ts, mid + 1, ExprTokens(e.right))
    ensures mid + 1 + |ExprTokens(e.right)| == pos + |ExprTokens(e)|
    ensures Follows(ts, mid + 1 + |ExprTokens(e.right)|, t)
  {
    OccursSplit(ts, pos, ExprTokens(e.left) + [e.op], ExprTokens(e.right));
    OccursSplit(ts, pos, ExprTokens(e.left), [e.op]);
    mid := pos + |ExprTokens(e.left)|;
    OccursAt(ts, mid, [e.op], 0);
  }

  lemma UnarySplit(e: Expr, ts: seq<Token>, pos: nat)
    requires e.UnaryExpr? && Occurs(ts, pos, ExprTokens(e))
    ensures pos < |ts| && ts[pos] == e.op
    ensures Occurs(ts, pos + 1, ExprTokens(e.operand))
    ensures |ExprTokens(e)| == 1 + |ExprTokens(e.operand)|
  {
    OccursSplit(ts, pos, [e.op], ExprTokens(e.operand));
    OccursAt(ts, pos, [e.op], 0);
  }

  /** `( inner )`: the closing parenthesis stops every expression tier. */
  lemma GroupingSplit(inner: Expr, ts: seq<Token>, pos: nat)
    requires Occurs(ts, pos, ExprTokens(GroupingExpr(inner)))
    ensures pos < |ts| && ts[pos].kind == LeftParen
    ensures Occurs(ts, pos + 1, ExprTokens(inner))
    ensures pos + 1 + |ExprTokens(inner)| < |ts| && ts[pos + 1 + |ExprTokens(inner)|].kind == RightParen
    ensures Follows(ts, pos + 1 + |ExprTokens(inner)|, EqualityTier)
    ensures |ExprTokens(GroupingExpr(inner))| == |ExprTokens(inner)| + 2
  {
    var head := [Tok(LeftParen, "(")];
    WrappedSplit(ts, pos, head, ExprTokens(inner), Tok(RightParen, ")"));
    OccursAt(ts, pos, head, 0);
    CloserFollows(ts, pos + 1 + |ExprTokens(inner)|);
  }

  /** `print ( e )` */
  lemma PrintSplit(e: Expr, ts: seq<Token>, pos: nat)
    requires Occurs(ts, pos, StmtTokens(PrintStmt(e)))
    ensures pos + 1 < |ts| && ts[pos].kind == PrintKw && ts[pos + 1].kind == LeftParen
    ensures Occurs(ts, pos + 2, ExprTokens(e))
    ensures pos + 2 + |ExprTokens(e)| < |ts| && ts[pos + 2 + |ExprTokens(e)|].kind == RightParen
    ensures Follows(ts, pos + 2 + |ExprTokens(e)|, EqualityTier)
    ensures |StmtTokens(PrintStmt(e))| == |ExprTokens(e)| + 3
  {
    var head := [Tok(PrintKw, "print"), Tok(LeftParen, "(")];
    WrappedSplit(ts, pos, head, ExprTokens(e), Tok(RightParen, ")"));
    OccursAt(ts, pos, head, 0);
    OccursAt(ts, pos, head, 1);
    CloserFollows(ts, pos + 2 + |ExprTokens(e)|);
  }

  /** `name = e` */
  lemma AssignSplit(name: string, e: Expr, ts: seq<Token>, pos: nat)
    requires Occurs(ts, pos, StmtTokens(AssignStmt(name, e)))
    ensures pos + 1 < |ts| && ts[pos].kind == Identifier && ts[pos].lexeme == name
    ensures ts[pos + 1].kind == Equal
    ensures Occurs(ts, pos + 2, ExprTokens(e))
    ensures |StmtTokens(AssignStmt(name, e))| == |ExprTokens(e)| + 2
  {
    var head := [Tok(Identifier, name), Tok(Equal, "=")];
    OccursSplit(ts, pos, head, ExprTokens(e));
    OccursAt(ts, pos, head, 0);
    OccursAt(ts, pos, head, 1);
  }

  /** `var name = init` */
  lemma VarSplit(name: string, init: Expr, ts: seq<Token>, pos: nat)
    requires Occurs(ts, pos, VarTokens(name, init))
    ensures pos + 2 < |ts| && ts[pos].kind == VarKw && ts[pos + 1].lexeme == name
    ensures ts[pos + 2].kind == Equal
    ensures Occurs(ts, pos + 3, ExprTokens(init))
    ensures |VarTokens(name, init)| == |ExprTokens(init)| + 3
  {
    var head := [Tok(VarKw, "var"), Tok(Identifier, name), Tok(Equal, "=")];
    OccursSplit(ts, pos, head, ExprTokens(init));
    OccursAt(ts, pos, head, 0);
    OccursAt(ts, pos, head, 1);
    OccursAt(ts, pos, head, 2);
  }

  /** `{ body }` */
  lemma BlockSplit(body: seq<Decl>, ts: seq<Token>, pos: nat)
    requires Occurs(ts, pos, BlockTokens(body))
    ensures pos < |ts| && ts[pos].kind == LeftBrace
    ensures Occurs(ts, pos + 1, DeclsTokens(body))
    ensures pos + 1 + |DeclsTokens(body)| < |ts| && ts[pos + 1 + |DeclsTokens(body)|].kind == RightBrace
    ensures |BlockTokens(body)| == |DeclsTokens(body)| + 2
  {
    var head := [Tok(LeftBrace, "{")];
    WrappedSplit(ts, pos, head, DeclsTokens(body), Tok(RightBrace, "}"));
    OccursAt(ts, pos, head, 0);
  }

  /** `kw ( cond ) { body }`, the shape shared by `while` and the head of `if`. */
  lemma KeywordHeadSplit(kw: Token, cond: Expr, body: seq<Decl>, ts: seq<Token>, pos: nat)
    requires Occurs(ts, pos, [kw, Tok(LeftParen, "(")] + ExprTokens(cond) + [Tok(RightParen, ")")] + BlockTokens(body))
    ensures pos + 1 < |ts| && ts[pos] == kw && ts[pos + 1].kind == LeftParen
    ensures Occurs(ts, pos + 2, ExprTokens(cond))
    ensures pos + 2 + |ExprTokens(cond)| < |ts| && ts[pos + 2 + |ExprTokens(cond)|].kind == RightParen
    ensures Follows(ts, pos + 2 + |ExprTokens(cond)|, EqualityTier)
    ensures Occurs(ts, pos + 3 + |ExprTokens(cond)|, BlockTokens(body))
    ensures |[kw, Tok(LeftParen, "(")] + ExprTokens(cond) + [Tok(RightParen, ")")] + BlockTokens(body)|
         == |ExprTokens(cond)| + 3 + |BlockTokens(body)|
  {
    var head := [kw, Tok(LeftParen, "(")];
    var paren := head + ExprTokens(cond) + [Tok(RightParen, ")")];
    OccursSplit(ts, pos, paren, BlockTokens(body));
    WrappedSplit(ts, pos, head, ExprTokens(cond), Tok(RightParen, ")"));
    OccursAt(ts, pos, head, 0);
    OccursAt(ts, pos, head, 1);
    CloserFollows(ts, pos + 2 + |ExprTokens(cond)|);
  }

  /** `while ( cond ) { body }` */
  lemma WhileSplit(cond: Expr, body: seq<Decl>, ts: seq<Token>, pos: nat)
    requires Occurs(ts, pos, WhileTokens(cond, body))
    ensures pos + 1 < |ts| && ts[pos].kind == WhileKw && ts[pos + 1].kind == LeftParen
    ensures Occurs(ts, pos + 2, ExprTokens(cond))
    ensures pos + 2 + |ExprTokens(cond)| < |ts| && ts[pos + 2 + |ExprTokens(cond)|].kind == RightParen
    ensures Follows(ts, pos + 2 + |ExprTokens(cond)|, EqualityTier)
    ensures Occurs(ts, pos + 3 + |ExprTokens(cond)|, BlockTokens(body))
    ensures |WhileTokens(cond, body)| == |ExprTokens(cond)| + 3 + |BlockTokens(body)|
  {
    KeywordHeadSplit(Tok(WhileKw, "while"), cond, body, ts, pos);
  }

  /** `if ( cond ) { thenBody }` */
  lemma IfHeadSplit(cond: Expr, thenBody: seq<Decl>, ts: seq<Token>, pos: nat)
    requires Occurs(ts, pos, IfHeadTokens(cond, thenBody))
    ensures pos + 1 < |ts| && ts[pos].kind == IfKw && ts[pos + 1].kind == LeftParen
    ensures Occurs(ts, pos + 2, ExprTokens(cond))
    ensures pos + 2 + |ExprTokens(cond)| < |ts| && ts[pos + 2 + |ExprTokens(cond)|].kind == RightParen
    ensures Follows(ts, pos + 2 + |ExprTokens(cond)|, EqualityTier)
    ensures Occurs(ts, pos + 3 + |ExprTokens(cond)|, BlockTokens(thenBody))
    ensures |IfHeadTokens(cond, thenBody)| == |ExprTokens(cond)| + 3 + |BlockTokens(thenBody)|
  {
    KeywordHeadSplit(Tok(IfKw, "if"), cond, thenBody, ts, pos);
  }

  /** `if ( cond ) { thenBody } else { elseBody }` */
  lemma IfElseSplit(cond: Expr, thenBody: seq<Decl>, elseBody: seq<Decl>, ts: seq<Token>, pos: nat)
    requires Occurs(ts, pos, IfElseTokens(cond, thenBody, elseBody))
    ensures Occurs(ts, pos, IfHeadTokens(cond, thenBody))
    ensures pos + |IfHeadTokens(cond, thenBody)| < |ts|
    ensures ts[pos + |IfHeadTokens(cond, thenBody)|].kind == ElseKw
    ensures Occurs(ts, pos + |IfHeadTokens(cond, thenBody)| + 1, BlockTokens(elseBody))
    ensures |IfElseTokens(cond, thenBody, elseBody)| == |IfHeadTokens(cond, thenBody)| + 1 + |BlockTokens(elseBody)|
  {
    var head := IfHeadTokens(cond, thenBody);
    OccursSplit(ts, pos, head + [Tok(ElseKw, "else")], BlockTokens(elseBody));
    OccursSplit(ts, pos, head, [Tok(ElseKw, "else")]);
    OccursAt(ts, pos + |head|, [Tok(ElseKw, "else")], 0);
  }

  /** The first declaration of a printed list and the rest of the list after it. */
  lemma DeclsSplit(ds: seq<Decl>, ts: seq<Token>, pos: nat)
    requires |ds| > 0 && WfDecls(ds)
    requires Occurs(ts, pos, DeclsTokens(ds))
    requires FollowsDecl(ts, pos + |DeclsTokens(ds)|)
    ensures Occurs(ts, pos, DeclTokens(ds[0]))
    ensures Occurs(ts, pos + |DeclTokens(ds[0])|, DeclsTokens(ds[1..]))
    ensures |DeclsTokens(ds)| == |DeclTokens(ds[0])| + |DeclsTokens(ds[1..])|
    ensures FollowsDecl(ts, pos + |DeclTokens(ds[0])| + |DeclsTokens(ds[1..])|)
  {
    DeclsTokensCons(ds);
    OccursSplit(ts, pos, DeclTokens(ds[0]), DeclsTokens(ds[1..]));
  }

  lemma DeclsTokensCons(ds: seq<Decl>)
    requires |ds| > 0
    ensures DeclsTokens(ds) == DeclTokens(ds[0]) + DeclsTokens(ds[1..])
    ensures |DeclsTokens(ds)| == |DeclTokens(ds[0])| + |DeclsTokens(ds[1..])|
  {
  }

  /** Everything the declaration rule and the loops around it need to know about a
      printed list with a first element: where that element ends, that what follows
      it cannot extend it, and that the list does not start with a closing token. */
  lemma DeclsLayout(ds: seq<Decl>, ts: seq<Token>, pos: nat) returns (mid: nat)
    requires |ds| > 0 && WfDecls(ds)
    requires Occurs(ts, pos, DeclsTokens(ds))
    requires FollowsDecl(ts, pos + |DeclsTokens(ds)|)
    ensures mid == pos + |DeclTokens(ds[0])|
    ensures pos < |ts| && ts[pos].kind != RightBrace && ts[pos].kind != EndOfFile
    ensures WfDecl(ds[0]) && Occurs(ts, pos, DeclTokens(ds[0])) && FollowsDecl(ts, mid)
    ensures WfDecls(ds[1..]) && Occurs(ts, mid, DeclsTokens(ds[1..]))
    ensures mid + |DeclsTokens(ds[1..])| == pos + |DeclsTokens(ds)|
  {
    mid := pos + |DeclTokens(ds[0])|;
    DeclsSplit(ds, ts, pos);
    DeclsFollows(ds, ts, pos);
    DeclsFollows(ds[1..], ts, mid);
    DeclStartFollows(ts, pos);
  }

  /** What follows a printed declaration list cannot extend the declaration before it:
      the list's first token starts a declaration, and an empty list hands the
      condition on. */
  lemma DeclsFollows(ds: seq<Decl>, ts: seq<Token>, pos: nat)
    requires WfDecls(ds)
    requires Occurs(ts, pos, DeclsTokens(ds))
    requires FollowsDecl(ts, pos + |DeclsTokens(ds)|)
    ensures FollowsDecl(ts, pos)
    ensures |ds| > 0 ==> pos < |ts| && DeclStart(ts[pos].kind)
  {
    if |ds| > 0 {
      OccursSplit(ts, pos, DeclTokens(ds[0]), DeclsTokens(ds[1..]));
      DeclTokensStart(ds[0]);
      OccursAt(ts, pos, DeclTokens(ds[0]), 0);
      DeclStartFollows(ts, pos);
    }
  }

  /** `head`, then `middle`, then one closing token. */
  lemma WrappedSplit(ts: seq<Token>, pos: nat, head: seq<Token>, middle: seq<Token>, last: Token)
    requires Occurs(ts, pos, head + middle + [last])
    ensures Occurs(ts, pos, head) && Occurs(ts, pos + |head|, middle)
    ensures pos + |head| + |middle| < |ts| && ts[pos + |head| + |middle|] == last
  {
    OccursSplit(ts, pos, head + middle, [last]);
    OccursSplit(ts, pos, head, middle);
    OccursAt(ts, pos + |head| + |middle|, [last], 0);
  }

  /** A closing parenthesis is no operator: every expression tier stops before it. */
  lemma CloserFollows(ts: seq<Token>, end: nat)
    requires end < |ts| && ts[end].kind == RightParen
    ensures Follows(ts, end, EqualityTier)
  {
  }

  /** A closing brace ends a declaration. */
  lemma BracesFollowDecl(ts: seq<Token>, end: nat)
    requires end < |ts| && ts[end].kind == RightBrace
    ensures FollowsDecl(ts, end)
  {
  }

  /** The end of the input, or an end-of-file token, ends a declaration. */
  lemma EndFollowsDecl(ts: seq<Token>, end: nat)
    requires end >= |ts| || ts[end].kind == EndOfFile
    ensures FollowsDecl(ts, end)
  {
  }
}
