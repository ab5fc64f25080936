/** Two places where parser.cpp does not do what its grammar evidently intends, each
    modelled as written next to a counterexample, with the corrected rule of Parser
    shown to behave as intended.

    1. `if` tests the enumerator `ELSE` itself instead of matching the current token,
       so the branch that consumes `else` is always taken and an `if` without `else`
       cannot be parsed.
    2. `primary` matches `(` but does not step over it before parsing the inner
       expression, which therefore starts at the same `(` again and never returns.

    Both as-written rules read a failed `consume` as stopping the parse, as the rest of
    the model does. */
module Findings {
  import opened Results
  import opened Values
  import opened Tokens
  import opened Ast
  import opened Grammar
  import opened Parser
  import opened ParserRoundTrip

  /** The `if` rule as written: after the then-block an `else` is consumed
      unconditionally, with the message of a missing `)`. */
  function IfAsWritten(ts: seq<Token>, pos: nat): (r: Result<Parsed<Decl>, ParseError>)
    requires pos < |ts| && ts[pos].kind == IfKw
    ensures r.Ok? ==> r.value.tree.IfDecl? && r.value.tree.elseBranch.ElseBlock?
  {
    if !Match(ts, pos + 1, {LeftParen}) then Err(ParseError("Expected \"(\" "))
    else
      var cond := Expression(ts, pos + 2);
      if cond.ExprErr? then Err(cond.error)
      else if !Match(ts, cond.next, {RightParen}) then Err(ParseError("Expected \")\" "))
      else
        var thenBlock := GetBlock(ts, cond.next + 1);
        if thenBlock.Err? then Err(thenBlock.error)
        else if !Match(ts, thenBlock.value.next, {ElseKw}) then Err(ParseError("Expected \")\" "))
        else
          var elseBlock := GetBlock(ts, thenBlock.value.next + 1);
          if elseBlock.Err? then Err(elseBlock.error)
          else Ok(Parsed(IfDecl(cond.tree, thenBlock.value.tree, ElseBlock(elseBlock.value.tree)), elseBlock.value.next))
  }

  /** As written, the rule fails exactly when the corrected rule fails or finds no
      `else`, and agrees with it otherwise. */
  lemma IfAsWrittenVersusCorrected(ts: seq<Token>, pos: nat)
    requires pos < |ts| && ts[pos].kind == IfKw
    ensures IfAsWritten(ts, pos).Ok? <==>
      IfDeclaration(ts, pos).Ok? && IfDeclaration(ts, pos).value.tree.elseBranch.ElseBlock?
    ensures IfAsWritten(ts, pos).Ok? ==> IfAsWritten(ts, pos) == IfDeclaration(ts, pos)
  {
  }

  const IfNoElse: seq<Token> :=
    [Tok(IfKw, "if"), Tok(LeftParen, "("), Tok(TrueKw, "true"), Tok(RightParen, ")"),
     Tok(LeftBrace, "{"), Tok(RightBrace, "}"), Tok(EndOfFile, "")]

  /** `if (true) { }`: rejected as written with the message of a missing `)`, parsed
      by the corrected rule as an `if` without `else`. */
  lemma IfWithoutElse()
    ensures IfAsWritten(IfNoElse, 0) == Err(ParseError("Expected \")\" "))
    ensures IfDeclaration(IfNoElse, 0) == Ok(Parsed(IfDecl(LiteralExpr(Bool(true)), [], NoElse), 6))
  {
    assert Expression(IfNoElse, 2) == ExprOk(LiteralExpr(Bool(true)), 3) by {
      assert Occurs(IfNoElse, 2, ExprTokens(LiteralExpr(Bool(true))));
      ExpressionRoundTrip(LiteralExpr(Bool(true)), IfNoElse, 2);
    }
    assert GetBlock(IfNoElse, 4) == Ok(Parsed([], 6));
  }

  /** The operators that continue binary tier `tier`: 2 is factor, 3 term, 4
      comparison and 5 equality. */
  function TierOps(tier: nat): set<TokenType> {
    if tier == 2 then FactorOps
    else if tier == 3 then TermOps
    else if tier == 4 then ComparisonOps
    else EqualityOps
  }

  /** The expression rules as written, one tier at a time: 0 is primary, 1 unary, and
      2 to 5 the binary tiers up to equality. A parenthesis re-enters the equality
      tier at the parenthesis itself. The C++ recursion has no bound, so the model
      counts the nested re-entries of a rule in `fuel` and answers None when they
      exceed it: None means the parse had not returned after that many. */
  function TierAsWritten(ts: seq<Token>, pos: nat, tier: nat, fuel: nat): (r: Option<ExprResult>)
    requires pos <= |ts| && tier <= EqualityTier
    decreases fuel, |ts| - pos, tier
  {
    if tier == 0 then
      if Match(ts, pos, {FalseKw}) then Some(ExprOk(LiteralExpr(Bool(false)), pos + 1))
      else if Match(ts, pos, {TrueKw}) then Some(ExprOk(LiteralExpr(Bool(true)), pos + 1))
      else if Match(ts, pos, {NilKw}) then Some(ExprOk(LiteralExpr(Nil), pos + 1))
      else if Match(ts, pos, {Number, String}) then Some(ExprOk(LiteralExpr(ts[pos].literal), pos + 1))
      else if Match(ts, pos, {LeftParen}) then
        if fuel == 0 then None
        else
          var inner := TierAsWritten(ts, pos, EqualityTier, fuel - 1);
          if inner.None? || inner.value.ExprErr? then inner
          else if !Match(ts, inner.value.next, {RightParen}) then Some(ExprErr(ParseError("Expect ')' after expression.")))
          else Some(ExprOk(GroupingExpr(inner.value.tree), inner.value.next + 1))
      else if Match(ts, pos, {Identifier}) then Some(ExprOk(IdentifierExpr(ts[pos].lexeme), pos + 1))
      else Some(ExprErr(ParseError("Expect expression.")))
    else if tier == 1 then
      if Match(ts, pos, {Bang}) then
        var operand := TierAsWritten(ts, pos + 1, 1, fuel);
        if operand.None? || operand.value.ExprErr? then operand
        else Some(ExprOk(UnaryExpr(ts[pos], operand.value.tree), operand.value.next))
      else TierAsWritten(ts, pos, 0, fuel)
    else
      var left := TierAsWritten(ts, pos, tier - 1, fuel);
      if left.None? || left.value.ExprErr? || !Match(ts, left.value.next, TierOps(tier)) then left
      else if fuel == 0 then None
      else
        var right := TierAsWritten(ts, left.value.next + 1, tier, fuel - 1);
        if right.None? || right.value.ExprErr? then right
        else Some(ExprOk(BinaryExpr(left.value.tree, ts[left.value.next], right.value.tree), right.value.next))
  }

  /** The corrected rule of tier `tier`. */
  function CorrectTier(ts: seq<Token>, pos: nat, tier: nat): (r: ExprResult)
    requires pos <= |ts|
    ensures r.ExprOk? ==> pos < r.next <= |ts|
  {
    if tier == 0 then Primary(ts, pos)
    else if tier == 1 then Unary(ts, pos)
    else if tier == 2 then Factor(ts, pos)
    else if tier == 3 then Term(ts, pos)
    else if tier == 4 then Comparison(ts, pos)
    else Equality(ts, pos)
  }

  /** At a token other than `(`, primary as written is primary. */
  lemma PrimaryAgrees(ts: seq<Token>, pos: nat, fuel: nat)
    requires pos <= |ts| && (pos < |ts| ==> ts[pos].kind != LeftParen)
    ensures TierAsWritten(ts, pos, 0, fuel) == Some(Primary(ts, pos))
  {
  }

  /** A binary tier as written agrees with the corrected one once its left operand
      and, after an operator, its right operand do. */
  lemma BinaryAgrees(ts: seq<Token>, pos: nat, tier: nat, fuel: nat)
    requires pos <= |ts| && 2 <= tier <= EqualityTier
    requires TierAsWritten(ts, pos, tier - 1, fuel) == Some(CorrectTier(ts, pos, tier - 1))
    requires var left := CorrectTier(ts, pos, tier - 1);
      left.ExprOk? && Match(ts, left.next, TierOps(tier)) ==>
        fuel > 0 && TierAsWritten(ts, left.next + 1, tier, fuel - 1) == Some(CorrectTier(ts, left.next + 1, tier))
    ensures TierAsWritten(ts, pos, tier, fuel) == Some(CorrectTier(ts, pos, tier))
  {
  }

  /** On tokens without `(` the rules as written are the corrected rules: given one
      unit of bound per remaining token they return, and return the same result. */
  lemma {:induction false} AgreesWithoutParens(ts: seq<Token>, pos: nat, tier: nat, fuel: nat)
    requires pos <= |ts| && tier <= EqualityTier && fuel >= |ts| - pos
    requires forall i | pos <= i < |ts| :: ts[i].kind != LeftParen
    ensures TierAsWritten(ts, pos, tier, fuel) == Some(CorrectTier(ts, pos, tier))
    decreases fuel, |ts| - pos, tier, 1
  {
    if tier == 0 {
      PrimaryAgrees(ts, pos, fuel);
    } else if tier == 1 {
      UnaryTierAgrees(ts, pos, fuel);
    } else {
      BinaryTierAgrees(ts, pos, tier, fuel);
    }
  }

  /** The unary tier case of AgreesWithoutParens. */
  lemma {:induction false} UnaryTierAgrees(ts: seq<Token>, pos: nat, fuel: nat)
    requires pos <= |ts| && fuel >= |ts| - pos
    requires forall i | pos <= i < |ts| :: ts[i].kind != LeftParen
    ensures TierAsWritten(ts, pos, 1, fuel) == Some(Unary(ts, pos))
    decreases fuel, |ts| - pos, 1, 0
  {
    if Match(ts, pos, {Bang}) {
      AgreesWithoutParens(ts, pos + 1, 1, fuel);
    } else {
      AgreesWithoutParens(ts, pos, 0, fuel);
    }
  }

  /** The binary tier case of AgreesWithoutParens: the left operand agrees at the same
      position, the right one after the operator with one unit of bound less. */
  lemma {:induction false} BinaryTierAgrees(ts: seq<Token>, pos: nat, tier: nat, fuel: nat)
    requires pos <= |ts| && 2 <= tier <= EqualityTier && fuel >= |ts| - pos
    requires forall i | pos <= i < |ts| :: ts[i].kind != LeftParen
    ensures TierAsWritten(ts, pos, tier, fuel) == Some(CorrectTier(ts, pos, tier))
    decreases fuel, |ts| - pos, tier, 0
  {
    AgreesWithoutParens(ts, pos, tier - 1, fuel);
    var left := CorrectTier(ts, pos, tier - 1);
    if left.ExprOk? && Match(ts, left.next, TierOps(tier)) {
      AgreesWithoutParens(ts, left.next + 1, tier, fuel - 1);
    }
    BinaryAgrees(ts, pos, tier, fuel);
  }

  /** As written, an expression that starts with `(` never returns, at any tier and
      whatever the bound. */
  lemma {:induction false} GroupingNeverReturns(ts: seq<Token>, pos: nat, tier: nat, fuel: nat)
    requires pos < |ts| && ts[pos].kind == LeftParen && tier <= EqualityTier
    ensures TierAsWritten(ts, pos, tier, fuel) == None
    decreases fuel, tier
  {
    if tier == 0 {
      if fuel > 0 {
        GroupingNeverReturns(ts, pos, EqualityTier, fuel - 1);
      }
    } else {
      GroupingNeverReturns(ts, pos, tier - 1, fuel);
    }
  }

  const OneInParens: seq<Token> :=
    [Tok(LeftParen, "("), Token(Number, "", Num(1.0)), Tok(RightParen, ")"), Tok(EndOfFile, "")]

  /** `( 1 )`: never returns as written, and the corrected rules read a grouping of 1. */
  lemma ParenthesisedOne(fuel: nat)
    ensures TierAsWritten(OneInParens, 0, EqualityTier, fuel) == None
    ensures Expression(OneInParens, 0) == ExprOk(GroupingExpr(LiteralExpr(Num(1.0))), 3)
  {
    GroupingNeverReturns(OneInParens, 0, EqualityTier, fuel);
    var e := GroupingExpr(LiteralExpr(Num(1.0)));
    assert Wf(e);
    assert ExprTokens(e) + [Tok(EndOfFile, "")] == OneInParens;
    OccursWhole(OneInParens);
    OccursSplit(OneInParens, 0, ExprTokens(e), [Tok(EndOfFile, "")]);
    ExpressionRoundTrip(e, OneInParens, 0);
  }
}
