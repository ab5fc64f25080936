/** The recursive-descent parser of parser.cpp, as pure functions of the token
    sequence and a cursor. Each function returns the tree it built together with the
    cursor after it, or the ParseError that stopped it.

    Where the C++ reads `tokens[current]` past the end of the vector the model sees
    "no token": `Match` is false. A `consume(kind, message)` of the C++ appears as
    `if !Match(ts, p, {kind}) then Err(ParseError(message)) else ...` continuing at
    `p + 1`. Where the C++ builds a `runtime_error` without throwing it, or falls off
    the end of a function, the model fails with a ParseError. */
module Parser {
  import opened Results
  import opened Values
  import opened Tokens
  import opened Ast
  import opened Grammar

  datatype ParseError = ParseError(message: string)

  /** A tree together with the cursor just after its last token. */
  datatype Parsed<+T> = Parsed(tree: T, next: nat)

  /** The outcome of an expression rule: the expression and the cursor after it, or
      the error that stopped the rule. */
  datatype ExprResult = ExprOk(tree: Expr, next: nat) | ExprErr(error: ParseError)

  /** The current token is one of `kinds`; the cursor does not move. */
  function Match(ts: seq<Token>, pos: nat, kinds: set<TokenType>): (b: bool)
    ensures b <==> pos < |ts| && ts[pos].kind in kinds
  {
    pos < |ts| && ts[pos].kind in kinds
  }

  /** `consume(kind, message)`: steps over the current token when it has kind `kind`,
      and otherwise fails with `message`. The rules below spell it out in place; the
      lemmas of ParserFacts show each of them failing exactly as Consume does. */
  function Consume(ts: seq<Token>, pos: nat, kind: TokenType, message: string): (r: Result<nat, ParseError>)
    ensures r.Ok? <==> pos < |ts| && ts[pos].kind == kind
    ensures r.Ok? ==> r.value == pos + 1
    ensures r.Err? ==> r.error.message == message
  {
    if Match(ts, pos, {kind}) then Ok(pos + 1) else Err(ParseError(message))
  }

  function IsAtEnd(ts: seq<Token>, pos: nat): bool {
    pos >= |ts| || ts[pos].kind == EndOfFile
  }

  /** What every expression tier promises about a successful parse starting at `pos`:
      it consumed at least one token, it built a tree tier `t` can build, and the tree
      starts with an identifier only if the input did. */
  predicate ParsedExpr(ts: seq<Token>, pos: nat, r: ExprResult, t: nat) {
    r.ExprOk? ==>
      && pos < r.next <= |ts|
      && InTier(r.tree, t)
      && (LeadingIdentifier(r.tree) ==> ts[pos].kind == Identifier)
  }

  function Expression(ts: seq<Token>, pos: nat): (r: ExprResult)
    requires pos <= |ts|
    ensures ParsedExpr(ts, pos, r, EqualityTier)
    decreases |ts| - pos, 6
  {
    Equality(ts, pos)
  }

  /** `comparison ( ("!=" | "==") equality )?`: the right operand re-enters this rule. */
  function Equality(ts: seq<Token>, pos: nat): (r: ExprResult)
    requires pos <= |ts|
    ensures ParsedExpr(ts, pos, r, EqualityTier)
    decreases |ts| - pos, 5
  {
    var left := Comparison(ts, pos);
    if left.ExprErr? || !Match(ts, left.next, EqualityOps) then left
    else
      var right := Equality(ts, left.next + 1);
      if right.ExprErr? then right
      else ExprOk(BinaryExpr(left.tree, ts[left.next], right.tree), right.next)
  }

  /** `term ( (">" | ">=" | "<" | "<=") comparison )?` */
  function Comparison(ts: seq<Token>, pos: nat): (r: ExprResult)
    requires pos <= |ts|
    ensures ParsedExpr(ts, pos, r, ComparisonTier)
    decreases |ts| - pos, 4
  {
    var left := Term(ts, pos);
    if left.ExprErr? || !Match(ts, left.next, ComparisonOps) then left
    else
      var right := Comparison(ts, left.next + 1);
      if right.ExprErr? then right
      else ExprOk(BinaryExpr(left.tree, ts[left.next], right.tree), right.next)
  }

  /** `factor ( ("-" | "+") term )?` */
  function Term(ts: seq<Token>, pos: nat): (r: ExprResult)
    requires pos <= |ts|
    ensures ParsedExpr(ts, pos, r, TermTier)
    decreases |ts| - pos, 3
  {
    var left := Factor(ts, pos);
    if left.ExprErr? || !Match(ts, left.next, TermOps) then left
    else
      var right := Term(ts, left.next + 1);
      if right.ExprErr? then right
      else ExprOk(BinaryExpr(left.tree, ts[left.next], right.tree), right.next)
  }

  /** `unary ( ("/" | "*") factor )?` */
  function Factor(ts: seq<Token>, pos: nat): (r: ExprResult)
    requires pos <= |ts|
    ensures ParsedExpr(ts, pos, r, FactorTier)
    decreases |ts| - pos, 2
  {
    var left := Unary(ts, pos);
    if left.ExprErr? || !Match(ts, left.next, FactorOps) then left
    else
      var right := Factor(ts, left.next + 1);
      if right.ExprErr? then right
      else ExprOk(BinaryExpr(left.tree, ts[left.next], right.tree), right.next)
  }

  /** `"!" unary | primary` */
  function Unary(ts: seq<Token>, pos: nat): (r: ExprResult)
    requires pos <= |ts|
    ensures ParsedExpr(ts, pos, r, UnaryTier)
    decreases |ts| - pos, 1
  {
    if Match(ts, pos, {Bang}) then
      var operand := Unary(ts, pos + 1);
      if operand.ExprErr? then operand
      else ExprOk(UnaryExpr(ts[pos], operand.tree), operand.next)
    else
      Primary(ts, pos)
  }

  /** Literals, a parenthesised expression, or an identifier. The opening parenthesis
      is stepped over before the inner expression is parsed; the C++ leaves the cursor
      on it (see README). */
  function Primary(ts: seq<Token>, pos: nat): (r: ExprResult)
    requires pos <= |ts|
    ensures ParsedExpr(ts, pos, r, PrimaryTier)
    decreases |ts| - pos, 0
  {
    if Match(ts, pos, {FalseKw}) then
      ExprOk(LiteralExpr(Bool(false)), pos + 1)
    else if Match(ts, pos, {TrueKw}) then
      ExprOk(LiteralExpr(Bool(true)), pos + 1)
    else if Match(ts, pos, {NilKw}) then
      ExprOk(LiteralExpr(Nil), pos + 1)
    else if Match(ts, pos, {Number, String}) then
      ExprOk(LiteralExpr(ts[pos].literal), pos + 1)
    else if Match(ts, pos, {LeftParen}) then
      var inner := Expression(ts, pos + 1);
      if inner.ExprErr? then inner
      else if !Match(ts, inner.next, {RightParen}) then ExprErr(ParseError("Expect ')' after expression."))
      else ExprOk(GroupingExpr(inner.tree), inner.next + 1)
    else if Match(ts, pos, {Identifier}) then
      ExprOk(IdentifierExpr(ts[pos].lexeme), pos + 1)
    else
      ExprErr(ParseError("Expect expression."))
  }

  /** `print ( expr )`, `IDENT = expr`, or an expression statement. */
  function Statement(ts: seq<Token>, pos: nat): (r: Result<Parsed<Stmt>, ParseError>)
    requires pos <= |ts|
    ensures r.Ok? ==> pos < r.value.next <= |ts| && WfStmt(r.value.tree)
  {
    if Match(ts, pos, {PrintKw}) then
      if !Match(ts, pos + 1, {LeftParen}) then Err(ParseError("Expected '(' after print"))
      else
        var e := Expression(ts, pos + 2);
        if e.ExprErr? then Err(e.error)
        else if !Match(ts, e.next, {RightParen}) then Err(ParseError("Expected ')' after print"))
        else Ok(Parsed(PrintStmt(e.tree), e.next + 1))
    else if Match(ts, pos, {Identifier}) then
      // The identifier is consumed as the assignment target.
      if !Match(ts, pos + 1, {Equal}) then Err(ParseError("Expected '=' after print"))
      else
        var e := Expression(ts, pos + 2);
        if e.ExprErr? then Err(e.error)
        else Ok(Parsed(AssignStmt(ts[pos].lexeme, e.tree), e.next))
    else
      var e := Expression(ts, pos);
      if e.ExprErr? then Err(e.error)
      else Ok(Parsed(ExprStmt(e.tree), e.next))
  }

  function Declaration(ts: seq<Token>, pos: nat): (r: Result<Parsed<Decl>, ParseError>)
    requires pos <= |ts|
    ensures r.Ok? ==> pos < r.value.next <= |ts| && WfDecl(r.value.tree)
    decreases |ts| - pos, 2
  {
    if Match(ts, pos, {VarKw}) then
      VarDeclaration(ts, pos)
    else if Match(ts, pos, {FuncKw}) then
      Err(ParseError("function declarations are not supported"))
    else if Match(ts, pos, {IfKw}) then
      IfDeclaration(ts, pos)
    else if Match(ts, pos, {WhileKw}) then
      WhileDeclaration(ts, pos)
    else if Match(ts, pos, {LeftBrace}) then
      var block := GetBlock(ts, pos);
      if block.Err? then Err(block.error)
      else Ok(Parsed(BlockDecl(block.value.tree), block.value.next))
    else
      var s := Statement(ts, pos);
      if s.Err? then Err(s.error)
      else Ok(Parsed(StatementDecl(s.value.tree), s.value.next))
  }

  /** `var NAME = expr`. The token after `var` is taken as the name whatever its kind. */
  function VarDeclaration(ts: seq<Token>, pos: nat): (r: Result<Parsed<Decl>, ParseError>)
    requires pos < |ts| && ts[pos].kind == VarKw
    ensures r.Ok? ==> pos < r.value.next <= |ts| && WfDecl(r.value.tree)
    ensures r.Ok? ==> pos + 1 < |ts| && r.value.tree.VarDecl? && r.value.tree.name == ts[pos + 1].lexeme
  {
    if pos + 1 >= |ts| then Err(ParseError("Expected a variable name"))
    else if !Match(ts, pos + 2, {Equal}) then Err(ParseError("Expected a \"=\" "))
    else
      var init := Expression(ts, pos + 3);
      if init.ExprErr? then Err(init.error)
      else Ok(Parsed(VarDecl(ts[pos + 1].lexeme, init.tree), init.next))
  }

  /** `if ( expr ) block`, followed by `else block` exactly when the next token is `else`. */
  function IfDeclaration(ts: seq<Token>, pos: nat): (r: Result<Parsed<Decl>, ParseError>)
    requires pos < |ts| && ts[pos].kind == IfKw
    ensures r.Ok? ==> pos < r.value.next <= |ts| && WfDecl(r.value.tree)
    ensures r.Ok? ==> r.value.tree.IfDecl?
    decreases |ts| - pos, 1
  {
    if !Match(ts, pos + 1, {LeftParen}) then Err(ParseError("Expected \"(\" "))
    else
      var cond := Expression(ts, pos + 2);
      if cond.ExprErr? then Err(cond.error)
      else if !Match(ts, cond.next, {RightParen}) then Err(ParseError("Expected \")\" "))
      else
        var thenBlock := GetBlock(ts, cond.next + 1);
        if thenBlock.Err? then Err(thenBlock.error)
        else if !Match(ts, thenBlock.value.next, {ElseKw}) then
          Ok(Parsed(IfDecl(cond.tree, thenBlock.value.tree, NoElse), thenBlock.value.next))
        else
          var elseBlock := GetBlock(ts, thenBlock.value.next + 1);
          if elseBlock.Err? then Err(elseBlock.error)
          else Ok(Parsed(IfDecl(cond.tree, thenBlock.value.tree, ElseBlock(elseBlock.value.tree)), elseBlock.value.next))
  }

  /** `while ( expr ) block`. */
  function WhileDeclaration(ts: seq<Token>, pos: nat): (r: Result<Parsed<Decl>, ParseError>)
    requires pos < |ts| && ts[pos].kind == WhileKw
    ensures r.Ok? ==> pos < r.value.next <= |ts| && WfDecl(r.value.tree)
    ensures r.Ok? ==> r.value.tree.WhileBlock?
    decreases |ts| - pos, 1
  {
    if !Match(ts, pos + 1, {LeftParen}) then Err(ParseError("Expected \"while\" "))
    else
      var cond := Expression(ts, pos + 2);
      if cond.ExprErr? then Err(cond.error)
      else if !Match(ts, cond.next, {RightParen}) then Err(ParseError("Expected \"while\" "))
      else
        var body := GetBlock(ts, cond.next + 1);
        if body.Err? then Err(body.error)
        else Ok(Parsed(WhileBlock(cond.tree, body.value.tree), body.value.next))
  }

  /** `{ declaration* }`: the declarations of the block, in source order. */
  function GetBlock(ts: seq<Token>, pos: nat): (r: Result<Parsed<seq<Decl>>, ParseError>)
    requires pos <= |ts|
    ensures r.Ok? ==> pos < r.value.next <= |ts| && WfDecls(r.value.tree)
    decreases |ts| - pos, 0
  {
    if !Match(ts, pos, {LeftBrace}) then Err(ParseError("Expected '{'"))
    else
      var items := BlockItems(ts, pos + 1);
      // BlockItems stops only at a closing brace, which is consumed here.
      if items.Err? then Err(items.error)
      else Ok(Parsed(items.value.tree, items.value.next + 1))
  }

  /** The loop of getBlock: declarations up to the closing brace, which it leaves
      for the caller to consume. */
  function BlockItems(ts: seq<Token>, pos: nat): (r: Result<Parsed<seq<Decl>>, ParseError>)
    requires pos <= |ts|
    ensures r.Ok? ==> pos <= r.value.next < |ts| && ts[r.value.next].kind == RightBrace
    ensures r.Ok? ==> WfDecls(r.value.tree)
    decreases |ts| - pos, 3
  {
    if pos >= |ts| then Err(ParseError("Expected '}'"))
    else if ts[pos].kind == RightBrace then Ok(Parsed([], pos))
    else
      var d := Declaration(ts, pos);
      if d.Err? then Err(d.error)
      else
        var rest := BlockItems(ts, d.value.next);
        if rest.Err? then rest
        else Ok(Parsed([d.value.tree] + rest.value.tree, rest.value.next))
  }

  /** The loop of parse: declarations until the end of the input or an ENDOFFILE token. */
  function ParseFrom(ts: seq<Token>, pos: nat): (r: Result<seq<Decl>, ParseError>)
    requires pos <= |ts|
    ensures r.Ok? ==> WfDecls(r.value)
    decreases |ts| - pos
  {
    if IsAtEnd(ts, pos) then Ok([])
    else
      var d := Declaration(ts, pos);
      if d.Err? then Err(d.error)
      else
        var rest := ParseFrom(ts, d.value.next);
        if rest.Err? then rest
        else Ok([d.value.tree] + rest.value)
  }

  function Parse(ts: seq<Token>): (r: Result<seq<Decl>, ParseError>)
    ensures r.Ok? ==> WfDecls(r.value)
  {
    ParseFrom(ts, 0)
  }
}
