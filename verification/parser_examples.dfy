/** The parser on small concrete inputs: the grouping of repeated operators, the
    nesting of the precedence tiers, and the error of each malformed form. */
module ParserExamples {
  import opened Results
  import opened Values
  import opened Tokens
  import opened Ast
  import opened Grammar
  import opened Parser
  import opened ParserRoundTrip
  import opened ParserFacts

  function NumTok(n: real): Token {
    Token(Number, "", Num(n))
  }

  function Lit(n: real): Expr {
    LiteralExpr(Num(n))
  }

  const MinusTok := Tok(Minus, "-")
  const PlusTok := Tok(Plus, "+")
  const StarTok := Tok(Star, "*")
  const BangTok := Tok(Bang, "!")
  const Eof := Tok(EndOfFile, "")

  /** An expression followed by end of file is read back as itself. */
  lemma ReadsBack(e: Expr)
    requires Wf(e)
    ensures Expression(ExprTokens(e) + [Eof], 0) == ExprOk(e, |ExprTokens(e)|)
  {
    var ts := ExprTokens(e) + [Eof];
    OccursWhole(ts);
    OccursSplit(ts, 0, ExprTokens(e), [Eof]);
    ExpressionRoundTrip(e, ts, 0);
  }

  /** `1 - 2 - 3` groups to the right, as every binary tier re-enters itself after its
      operator: the tree is 1 - (2 - 3), not (1 - 2) - 3. */
  lemma SubtractionGroupsRight()
    ensures Expression([NumTok(1.0), MinusTok, NumTok(2.0), MinusTok, NumTok(3.0), Eof], 0)
         == ExprOk(BinaryExpr(Lit(1.0), MinusTok, BinaryExpr(Lit(2.0), MinusTok, Lit(3.0))), 5)
  {
    var e := BinaryExpr(Lit(1.0), MinusTok, BinaryExpr(Lit(2.0), MinusTok, Lit(3.0)));
    assert Wf(e);
    assert ExprTokens(e) + [Eof] == [NumTok(1.0), MinusTok, NumTok(2.0), MinusTok, NumTok(3.0), Eof];
    ReadsBack(e);
  }

  /** `1 + 2 * 3`: the factor tier binds tighter than the term tier. */
  lemma ProductBindsTighter()
    ensures Expression([NumTok(1.0), PlusTok, NumTok(2.0), StarTok, NumTok(3.0), Eof], 0)
         == ExprOk(BinaryExpr(Lit(1.0), PlusTok, BinaryExpr(Lit(2.0), StarTok, Lit(3.0))), 5)
  {
    var e := BinaryExpr(Lit(1.0), PlusTok, BinaryExpr(Lit(2.0), StarTok, Lit(3.0)));
    assert Wf(e);
    assert ExprTokens(e) + [Eof] == [NumTok(1.0), PlusTok, NumTok(2.0), StarTok, NumTok(3.0), Eof];
    ReadsBack(e);
  }

  /** `!!true` nests two negations. */
  lemma NegationNests()
    ensures Expression([BangTok, BangTok, Tok(TrueKw, "true"), Eof], 0)
         == ExprOk(UnaryExpr(BangTok, UnaryExpr(BangTok, LiteralExpr(Bool(true)))), 3)
  {
    var e := UnaryExpr(BangTok, UnaryExpr(BangTok, LiteralExpr(Bool(true))));
    assert Wf(e);
    assert ExprTokens(e) + [Eof] == [BangTok, BangTok, Tok(TrueKw, "true"), Eof];
    ReadsBack(e);
  }

  /** An error of `primary` at a token other than `!` is the error of the whole
      expression. */
  lemma PrimaryErrorStops(ts: seq<Token>, pos: nat)
    requires pos < |ts| && !ts[pos].kind.Bang? && Primary(ts, pos).ExprErr?
    ensures Expression(ts, pos) == Primary(ts, pos)
  {
    assert Unary(ts, pos) == Primary(ts, pos);
    assert Factor(ts, pos) == Unary(ts, pos);
    assert Term(ts, pos) == Factor(ts, pos);
    assert Comparison(ts, pos) == Term(ts, pos);
    assert Equality(ts, pos) == Comparison(ts, pos);
  }

  /** `( 1` without its closing parenthesis. */
  lemma UnclosedGrouping()
    ensures Expression([Tok(LeftParen, "("), NumTok(1.0), Eof], 0)
         == ExprErr(ParseError("Expect ')' after expression."))
  {
    var ts := [Tok(LeftParen, "("), NumTok(1.0), Eof];
    assert Occurs(ts, 1, ExprTokens(Lit(1.0)));
    ExpressionRoundTrip(Lit(1.0), ts, 1);
    GroupingNeedsParen(ts, 0);
    PrimaryErrorStops(ts, 0);
  }

  /** `x + 1` as a statement: a leading identifier always starts an assignment. */
  lemma IdentifierStartsAssignment()
    ensures Statement([Tok(Identifier, "x"), PlusTok, NumTok(1.0), Eof], 0)
         == Err(ParseError("Expected '=' after print"))
  {
  }

  /** `if true { }` and `while true { }` lack the parenthesis. */
  lemma ConditionWithoutParens()
    ensures Parse([Tok(IfKw, "if"), Tok(TrueKw, "true"), Tok(LeftBrace, "{"), Tok(RightBrace, "}"), Eof])
         == Err(ParseError("Expected \"(\" "))
    ensures Parse([Tok(WhileKw, "while"), Tok(TrueKw, "true"), Tok(LeftBrace, "{"), Tok(RightBrace, "}"), Eof])
         == Err(ParseError("Expected \"while\" "))
  {
    KeywordNeedsParen([Tok(IfKw, "if"), Tok(TrueKw, "true"), Tok(LeftBrace, "{"), Tok(RightBrace, "}"), Eof], 0);
    KeywordNeedsParen([Tok(WhileKw, "while"), Tok(TrueKw, "true"), Tok(LeftBrace, "{"), Tok(RightBrace, "}"), Eof], 0);
  }

  /** `{ print(1)` never closes its block. */
  lemma UnclosedBlock()
    ensures Parse([Tok(LeftBrace, "{"), Tok(PrintKw, "print"), Tok(LeftParen, "("), NumTok(1.0), Tok(RightParen, ")"), Eof]).Err?
  {
    BlockMustClose([Tok(LeftBrace, "{"), Tok(PrintKw, "print"), Tok(LeftParen, "("), NumTok(1.0), Tok(RightParen, ")"), Eof], 0);
  }
}
