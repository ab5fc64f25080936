/** Facts about single parsing rules for every token sequence: what `match` looks at,
    which token each rule demands and the message it fails with when the token is
    missing, what `primary` builds from one token, and how a statement is classified
    by its first token. */
module ParserFacts {
  import opened Results
  import opened Values
  import opened Tokens
  import opened Ast
  import opened Parser

  /** `match` looks at the current token's kind and nothing else: two sequences that
      agree there, or both end before it, answer alike. */
  lemma MatchLooksAtCurrent(ts: seq<Token>, us: seq<Token>, pos: nat, kinds: set<TokenType>)
    requires pos < |ts| <==> pos < |us|
    requires pos < |ts| ==> ts[pos].kind == us[pos].kind
    ensures Match(ts, pos, kinds) == Match(us, pos, kinds)
  {
  }

  /** `var` must be followed by a name and then `=`. */
  lemma VarNeedsEqual(ts: seq<Token>, pos: nat)
    requires pos + 1 < |ts| && ts[pos].kind == VarKw
    requires Consume(ts, pos + 2, Equal, "Expected a \"=\" ").Err?
    ensures VarDeclaration(ts, pos) == Err(Consume(ts, pos + 2, Equal, "Expected a \"=\" ").error)
  {
  }

  /** `if` and `while` must be followed by `(`. */
  lemma KeywordNeedsParen(ts: seq<Token>, pos: nat)
    requires pos < |ts|
    ensures ts[pos].kind == IfKw && Consume(ts, pos + 1, LeftParen, "Expected \"(\" ").Err? ==>
      Declaration(ts, pos) == Err(Consume(ts, pos + 1, LeftParen, "Expected \"(\" ").error)
    ensures ts[pos].kind == WhileKw && Consume(ts, pos + 1, LeftParen, "Expected \"while\" ").Err? ==>
      Declaration(ts, pos) == Err(Consume(ts, pos + 1, LeftParen, "Expected \"while\" ").error)
  {
  }

  /** The condition of `if` and `while` must be closed by `)`. */
  lemma ConditionNeedsParen(ts: seq<Token>, pos: nat)
    requires pos + 1 < |ts| && ts[pos + 1].kind == LeftParen
    requires Expression(ts, pos + 2).ExprOk?
    ensures var close := Expression(ts, pos + 2).next;
      ts[pos].kind == IfKw && Consume(ts, close, RightParen, "Expected \")\" ").Err? ==>
        IfDeclaration(ts, pos) == Err(Consume(ts, close, RightParen, "Expected \")\" ").error)
    ensures var close := Expression(ts, pos + 2).next;
      ts[pos].kind == WhileKw && Consume(ts, close, RightParen, "Expected \"while\" ").Err? ==>
        WhileDeclaration(ts, pos) == Err(Consume(ts, close, RightParen, "Expected \"while\" ").error)
  {
  }

  /** A block opens with `{`, and a block that parses ends with `}`: the closing
      brace is the last token it consumed. */
  lemma BlockBraces(ts: seq<Token>, pos: nat)
    requires pos <= |ts|
    ensures Consume(ts, pos, LeftBrace, "Expected '{'").Err? ==>
      GetBlock(ts, pos) == Err(Consume(ts, pos, LeftBrace, "Expected '{'").error)
    ensures GetBlock(ts, pos).Ok? ==>
      ts[pos].kind == LeftBrace && ts[GetBlock(ts, pos).value.next - 1].kind == RightBrace
  {
  }

  /** A block whose tokens run out before a `}` is an error. */
  lemma BlockMustClose(ts: seq<Token>, pos: nat)
    requires pos <= |ts|
    requires forall i | pos <= i < |ts| :: ts[i].kind != RightBrace
    ensures GetBlock(ts, pos).Err?
  {
    if pos < |ts| {
      ItemsNeedBrace(ts, pos + 1);
    }
  }

  /** The loop of a block never stops before a `}`. */
  lemma {:induction false} ItemsNeedBrace(ts: seq<Token>, pos: nat)
    requires pos <= |ts|
    requires forall i | pos <= i < |ts| :: ts[i].kind != RightBrace
    ensures BlockItems(ts, pos).Err?
    decreases |ts| - pos
  {
    if pos < |ts| {
      var d := Declaration(ts, pos);
      if d.Ok? {
        ItemsNeedBrace(ts, d.value.next);
      }
    }
  }

  /** `print` must be followed by `(`, and its expression closed by `)`. */
  lemma PrintNeedsParens(ts: seq<Token>, pos: nat)
    requires pos < |ts| && ts[pos].kind == PrintKw
    ensures Consume(ts, pos + 1, LeftParen, "Expected '(' after print").Err? ==>
      Statement(ts, pos) == Err(Consume(ts, pos + 1, LeftParen, "Expected '(' after print").error)
    ensures pos + 1 < |ts| && ts[pos + 1].kind == LeftParen && Expression(ts, pos + 2).ExprOk? ==>
      var close := Expression(ts, pos + 2).next;
      Consume(ts, close, RightParen, "Expected ')' after print").Err? ==>
        Statement(ts, pos) == Err(Consume(ts, close, RightParen, "Expected ')' after print").error)
  {
  }

  /** A statement is classified by its first token alone: `print` makes a print
      statement, an identifier always an assignment to that name, which needs `=`
      next, and anything else an expression statement. */
  lemma StatementKinds(ts: seq<Token>, pos: nat)
    requires pos < |ts|
    ensures ts[pos].kind == Identifier && Consume(ts, pos + 1, Equal, "Expected '=' after print").Err? ==>
      Statement(ts, pos) == Err(Consume(ts, pos + 1, Equal, "Expected '=' after print").error)
    ensures Statement(ts, pos).Ok? ==>
      var s := Statement(ts, pos).value.tree;
      && (s.PrintStmt? <==> ts[pos].kind == PrintKw)
      && (s.AssignStmt? <==> ts[pos].kind == Identifier)
      && (s.AssignStmt? ==> s.name == ts[pos].lexeme)
  {
  }

  /** `primary` turns a literal keyword, a number, a string or an identifier into the
      matching leaf, consuming that one token. Any other token but `(` is an error. */
  lemma PrimaryLeaves(ts: seq<Token>, pos: nat)
    requires pos <= |ts|
    ensures pos < |ts| && ts[pos].kind == TrueKw ==> Primary(ts, pos) == ExprOk(LiteralExpr(Bool(true)), pos + 1)
    ensures pos < |ts| && ts[pos].kind == FalseKw ==> Primary(ts, pos) == ExprOk(LiteralExpr(Bool(false)), pos + 1)
    ensures pos < |ts| && ts[pos].kind == NilKw ==> Primary(ts, pos) == ExprOk(LiteralExpr(Nil), pos + 1)
    ensures pos < |ts| && (ts[pos].kind == Number || ts[pos].kind == String) ==>
      Primary(ts, pos) == ExprOk(LiteralExpr(ts[pos].literal), pos + 1)
    ensures pos < |ts| && ts[pos].kind == Identifier ==>
      Primary(ts, pos) == ExprOk(IdentifierExpr(ts[pos].lexeme), pos + 1)
    ensures Primary(ts, pos).ExprOk? ==>
      pos < |ts| && (ts[pos].kind == LeftParen <==> Primary(ts, pos).next > pos + 1)
    ensures pos == |ts| || !(ts[pos].kind.TrueKw? || ts[pos].kind.FalseKw? || ts[pos].kind.NilKw? || ts[pos].kind.Number?
                             || ts[pos].kind.String? || ts[pos].kind.Identifier? || ts[pos].kind.LeftParen?) ==>
      Primary(ts, pos) == ExprErr(ParseError("Expect expression."))
  {
  }

  /** A parenthesised expression becomes a grouping of the inner expression, and a
      missing `)` is an error. */
  lemma GroupingNeedsParen(ts: seq<Token>, pos: nat)
    requires pos < |ts| && ts[pos].kind == LeftParen
    requires Expression(ts, pos + 1).ExprOk?
    ensures var inner := Expression(ts, pos + 1);
      Consume(ts, inner.next, RightParen, "Expect ')' after expression.").Err? ==>
        Primary(ts, pos) == ExprErr(Consume(ts, inner.next, RightParen, "Expect ')' after expression.").error)
    ensures var inner := Expression(ts, pos + 1);
      Consume(ts, inner.next, RightParen, "Expect ')' after expression.").Ok? ==>
        Primary(ts, pos) == ExprOk(GroupingExpr(inner.tree), inner.next + 1)
  {
  }

  /** Parsing stops at the end of the tokens or at an end-of-file token. */
  lemma ParseStops(ts: seq<Token>, pos: nat)
    requires pos <= |ts|
    requires pos == |ts| || ts[pos].kind == EndOfFile
    ensures ParseFrom(ts, pos) == Ok([])
  {
  }
}
