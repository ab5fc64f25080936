# A tree-walking interpreter's parser, evaluator and executor, in Dafny

This project models the core of a small tree-walking interpreter written in C++:

- the recursive-descent parser of `parser.cpp`, which turns a token sequence into a list of declarations;
- the `evaluate` methods of the expression nodes in `expr.hpp`, which turn an expression and a chain of scopes into one literal value;
- the `execute` methods of the declarations in `declaration.cpp`, which run declarations against that chain.

Every part is a pure function over immutable datatypes. The proofs connect each operation with a partner:

- **Parser and printer.** A printer (`Grammar.ExprTokens`, `Grammar.DeclTokens`) writes a tree back as tokens. The parser reads back exactly the printed tree for every tree in the grammar's normal form (module ParserRoundTrip).
- **Grammar normal form.** The parser's own postconditions say every tree it returns is in that normal form, so printing any parsed program and parsing it again gives the same program.
- **Evaluator and types.** A static typing table (modules Typing and TypeSoundness) is shown to agree with evaluation in both directions.
- **Scope chain.** Lookup through the chain agrees with a flattened map in which inner bindings hide outer ones (`Environment.LookupFlatten`).
- **Executor invariants.** Execution keeps the invariants stated in ExecInvariants: the depth of the chain, the names of outer scopes, and output that is only appended to.
- **Whole programs.** Module Scenarios runs whole programs: shadowing, assignment through a block, a counting loop, and one program taken from tokens to printed output.

## Modules

| file | module | contents |
|---|---|---|
| results.dfy | Results | `Option` and `Result`, the error channel that replaces the C++ exceptions |
| values.dfy | Values | `Literal = Nil \| Bool \| Num \| Str` |
| tokens.dfy | Tokens | `TokenType`, `Token`, the operator sets of the binary tiers |
| ast.dfy | Ast | `Expr`, `Stmt`, `Decl` and the optional `else` branch |
| grammar.dfy | Grammar | precedence tiers, normal-form predicates, the token printer |
| parser.dfy | Parser | the parsing functions, one per rule of `parser.cpp` |
| parser_steps.dfy, printed_layout.dfy | ParserSteps, PrintedLayout | proof helpers: one rule step each, and where the pieces of printed tokens sit |
| parser_roundtrip.dfy | ParserRoundTrip | parsing printed trees gives the trees back |
| parser_facts.dfy, parser_examples.dfy | ParserFacts, ParserExamples | per-rule error messages and token classification; concrete parses |
| environment.dfy | Environment | the scope chain: lookup, define, assign, push and pop |
| typing.dfy, type_soundness.dfy | Typing, TypeSoundness | the operand types each operator accepts; agreement with evaluation |
| evaluator.dfy, eval_properties.dfy | Evaluator, EvalProperties | expression evaluation and the facts relating several evaluations |
| executor.dfy, exec_invariants.dfy, exec_properties.dfy | Executor, ExecInvariants, ExecProperties | declaration execution, what it preserves, and how runs compose |
| scenarios.dfy | Scenarios | whole programs and their output |
| findings.dfy | Findings | two parser rules as written, beside the corrected rules |

## Modelling decisions

- **Tokens.** Tokens are an input `seq<Token>`; the cursor is a `nat` threaded through every rule. Each rule returns the tree with the cursor after it, or a `ParseError(message)`.
  - Where the C++ reads `tokens[current]` past the end, `Parser.Match` answers false.
  - `consume` is spelled out in place as "match, then step over one token, else fail with its message".
- **Errors.** The C++ constructs a `runtime_error` without throwing it (expr.hpp:61,70,79,91,170; parser.cpp:159). It also falls off the end of a value-returning function (expr.hpp:173,197; parser.cpp:136-137). The model turns each of these into a real error that stops the parse or the evaluation.
  - Where the C++ passes no message, the message is invented: `"Expect expression."` for a token `primary` cannot start with.
  - The operator messages are invented for `==`, `!=`, the orderings and `!`.
  - An unsupported operator gets `"No matching operation defined"`.
- **Associativity.** The binary tiers are right-recursive as written: `1 - 2 - 3` is `1 - (2 - 3)` and evaluates to 2.
- **Truthiness.** A condition that is not a boolean counts as true, as written (declaration.cpp:55-58, 73-74). So a loop whose condition evaluates to a non-boolean keeps iterating.
- **`!=`.** It compares two booleans only (expr.hpp:121-130). For any other operand types `evaluate` falls off the end of the `BANG_EQUAL` case, and the model reports a TypeError. So `1 != 2` fails although `1 == 2` evaluates.
- **`var` names.** `var` takes the next token's lexeme as the name, whatever the token's kind (parser.cpp:197-199 checks nothing before reading it).
- **Numbers.** Numbers are `real`. Division by zero fails with `DivisionByZero`.
- **Scopes and evaluation.** The scope chain is a non-empty `seq<map<string, Literal>>` with the innermost scope last. A block pushes one empty scope and pops it afterwards. Evaluation takes the chain as a value and returns only a result, so it cannot change any binding.
- **Assignment.** Assignment rebinds the name in the innermost scope that binds it, and fails with `UndefinedVariable` when no scope does. Its C++ source, stmt.hpp, is not part of this model: declaration.cpp:15 only hands the statement over. The model lets assignment pick the same binding that a read of the name finds (expr.hpp:219-225), so that after `x = v` the name reads `v`.
- **`print`.** `print` appends the evaluated literal to an output sequence.
- **Fuel.**
  - A `while` loop need not terminate, so execution takes fuel: one unit per loop iteration. Running out is the error `OutOfFuel`.
  - `ExecProperties.FuelDecl` shows that more fuel never changes a run that did not run out.
- **The two findings.** Two parser rules are corrected; see "## Findings":
  - the optional `else`, which the code reads as mandatory;
  - the opening parenthesis of a grouping, which the code never steps over.
- **`if` without `else`.** Once `else` is optional, a false condition with no `else` does nothing. As written, declaration.cpp:62 would call `execute` through the `elseBlock` pointer, which the two-argument constructor (declaration.cpp:48-51) leaves null; see "## Left out".

## Model

| member | source | states |
|---|---|---|
| Parser.Consume | parser.cpp:149-156 | succeeds exactly when the current token has the expected kind, and then advances by exactly one; otherwise fails with the given message |
| ParserFacts.MatchLooksAtCurrent | parser.cpp:139-147 | `match` looks at the current token's kind and nothing else: two token sequences that agree on it, or both lack a current token, get the same answer; it yields no cursor, so it cannot move one |
| Parser.Expression | parser.cpp:28 | a successful parse consumes at least one token, stays inside the input, builds an equality-tier tree, and starts with an identifier only if the input does |
| Parser.Equality | parser.cpp:30-42 | a success advances the cursor and yields a tree in equality-tier normal form: `==`/`!=` with a tighter left operand and a right operand that may repeat the tier |
| Parser.Comparison | parser.cpp:44-57 | a success advances the cursor and yields a comparison-tier tree whose right operand may repeat the tier |
| Parser.Term | parser.cpp:59-71 | a success advances the cursor and yields a term-tier tree whose right operand may repeat the tier |
| Parser.Factor | parser.cpp:73-85 | a success advances the cursor and yields a factor-tier tree whose right operand may repeat the tier |
| Parser.Unary | parser.cpp:87-97 | a success advances the cursor and yields a chain of `!` over a primary |
| Parser.Primary | parser.cpp:99-137 | a success advances the cursor and yields a literal, an identifier or a grouping |
| Parser.Statement | parser.cpp:166-193 | a success advances the cursor and yields a statement whose expression is in normal form |
| Parser.Declaration | parser.cpp:195-244 | a success advances the cursor and yields a declaration in normal form |
| Parser.VarDeclaration | parser.cpp:196-205 | a success advances the cursor and yields a `var` declaration named by the lexeme of the token after `var`, with a normal-form initializer |
| Parser.IfDeclaration | parser.cpp:208-224 | a success advances the cursor and yields an `if` declaration in normal form |
| Parser.WhileDeclaration | parser.cpp:226-234 | a success advances the cursor and yields a `while` declaration in normal form |
| Parser.GetBlock | parser.cpp:275-288 | a success advances the cursor and yields a list of normal-form declarations |
| Parser.BlockItems | parser.cpp:281-284 | the loop of a block stops only on a `}`, which it leaves unconsumed |
| Parser.ParseFrom | parser.cpp:18-22 | the declarations read until the end of input are in normal form |
| Parser.Parse | parser.cpp:16-26 | a successful parse of the whole input yields normal-form declarations |
| Grammar.OpTierSets | parser.cpp:30-85 | the tier of each binary operator is exactly the tier whose operator set contains it |
| ParserFacts.VarNeedsEqual | parser.cpp:196-205 | `var` with anything but `=` after the name fails with `Expected a "=" ` |
| ParserFacts.KeywordNeedsParen | parser.cpp:208-228 | `if` and `while` without `(` fail with their own `consume` messages |
| ParserFacts.ConditionNeedsParen | parser.cpp:212-231 | a condition of `if` or `while` not closed by `)` fails with that rule's message |
| ParserFacts.BlockBraces | parser.cpp:275-288 | a block must open with `{`, failing with `Expected '{'` otherwise, and a parsed block ends on a `}` |
| ParserFacts.BlockMustClose | parser.cpp:281-286 | a block whose tokens contain no `}` is an error |
| ParserFacts.ItemsNeedBrace | parser.cpp:281-284 | the loop of a block fails whenever no `}` lies ahead |
| ParserFacts.PrintNeedsParens | parser.cpp:167-175 | `print` needs `(` and a `)` after its expression, failing with the respective messages |
| ParserFacts.StatementKinds | parser.cpp:166-193 | a statement's kind is decided by its first token: `print` gives a print statement, an identifier an assignment to that name that needs `=`, anything else an expression statement |
| ParserFacts.PrimaryLeaves | parser.cpp:99-137 | `true`, `false`, `nil`, numbers, strings and identifiers become the matching leaf and consume one token; only `(` consumes more; any other token is an error |
| ParserFacts.GroupingNeedsParen | parser.cpp:118-121 | a parenthesised expression becomes a grouping of the inner expression, and a missing `)` fails with `Expect ')' after expression.` |
| ParserFacts.ParseStops | parser.cpp:247-253 | parsing yields no more declarations at the end of input or at an end-of-file token |
| ParserRoundTrip.PrimaryRoundTrip | parser.cpp:99-137 | `primary` reads back every printed primary-tier tree, stopping right after it |
| ParserRoundTrip.UnaryRoundTrip | parser.cpp:87-97 | `unary` reads back every printed chain of `!`, nested as printed |
| ParserRoundTrip.FactorRoundTrip | parser.cpp:73-85 | `factor` reads back every printed factor-tier tree, grouping to the right, when the next token does not continue the tier |
| ParserRoundTrip.TermRoundTrip | parser.cpp:59-71 | the same for `term` |
| ParserRoundTrip.ComparisonRoundTrip | parser.cpp:44-57 | the same for `comparison` |
| ParserRoundTrip.EqualityRoundTrip | parser.cpp:30-42 | the same for `equality` |
| ParserRoundTrip.ExpressionRoundTrip | parser.cpp:28 | `expression` reads back every printed normal-form expression followed by a token that is no binary operator |
| ParserRoundTrip.PrintRoundTrip | parser.cpp:167-175 | a printed `print ( e )` reads back as that print statement |
| ParserRoundTrip.AssignRoundTrip | parser.cpp:176-188 | a printed `x = e` reads back as that assignment |
| ParserRoundTrip.ExprStmtRoundTrip | parser.cpp:189-192 | a printed expression that does not start with an identifier reads back as an expression statement |
| ParserRoundTrip.StatementRoundTrip | parser.cpp:166-193 | every printed statement reads back as itself and starts with no declaration keyword |
| ParserRoundTrip.VarRoundTrip | parser.cpp:196-205 | a printed `var x = e` reads back as that declaration |
| ParserRoundTrip.IfRoundTrip | parser.cpp:208-224 | a printed `if` without `else`, not followed by `else`, reads back as itself |
| ParserRoundTrip.IfElseRoundTrip | parser.cpp:208-224 | a printed `if` with an `else` block reads back as itself |
| ParserRoundTrip.WhileRoundTrip | parser.cpp:226-234 | a printed `while` reads back as itself |
| ParserRoundTrip.BlockDeclRoundTrip | parser.cpp:236-237 | a printed block declaration reads back as itself |
| ParserRoundTrip.DeclarationRoundTrip | parser.cpp:195-244 | every printed normal-form declaration reads back as itself, stopping right after its tokens |
| ParserRoundTrip.BlockRoundTrip | parser.cpp:275-288 | a printed block reads back with its declarations in source order |
| ParserRoundTrip.BlockItemsRoundTrip | parser.cpp:281-284 | the block loop reads printed declarations in order up to the `}` |
| ParserRoundTrip.ParseFromRoundTrip | parser.cpp:18-22 | the parse loop reads printed declarations in order up to the end of input |
| ParserRoundTrip.ParsePrintedProgram | parser.cpp:16-26 | a printed program parses back to the same declarations in the same order, with or without a final end-of-file token |
| ParserRoundTrip.ReparseParsedProgram | parser.cpp:16-26 | whatever the parser accepts, printed and parsed again, gives the same program |
| ParserExamples.ReadsBack | parser.cpp:28-137 | a normal-form expression followed by end of file parses to itself |
| ParserExamples.SubtractionGroupsRight | parser.cpp:59-71 | `1 - 2 - 3` parses as `1 - (2 - 3)` |
| ParserExamples.ProductBindsTighter | parser.cpp:59-85 | `1 + 2 * 3` parses as `1 + (2 * 3)` |
| ParserExamples.NegationNests | parser.cpp:87-97 | `!!true` parses as two nested negations |
| ParserExamples.PrimaryErrorStops | parser.cpp:28-97 | an error of `primary` at a token other than `!` is the error of the whole expression |
| ParserExamples.UnclosedGrouping | parser.cpp:118-121 | `( 1` fails with `Expect ')' after expression.` |
| ParserExamples.IdentifierStartsAssignment | parser.cpp:176-179 | `x + 1` as a statement fails for want of `=` |
| ParserExamples.ConditionWithoutParens | parser.cpp:208-228 | `if true { }` and `while true { }` fail with their `(` messages |
| ParserExamples.UnclosedBlock | parser.cpp:275-288 | `{ print(1)` with no `}` is an error |
| Environment.Lookup | expr.hpp:219-225 | a name is found exactly when some scope binds it, and the value found is that of the innermost such scope |
| Environment.LookupFlatten | expr.hpp:219-225 | searching the chain scope by scope agrees with the flattened map in which inner bindings hide outer ones |
| Environment.Define | declaration.cpp:22-28 | binding a name in the innermost scope makes it read the new value, leaves every other name's value and every outer scope unchanged, and adds only that name |
| Environment.Assign | declaration.cpp:13-15 | an assignment succeeds exactly when some scope binds the name; it then rebinds the name in the innermost scope that binds it and changes nothing else: no other scope, no other binding, no scope's set of names |
| Environment.AssignLookup | declaration.cpp:13-15 | after an assignment the name reads the new value and every other name reads as before |
| Environment.PushScope | declaration.cpp:34-36 | a block's child scope is one empty scope inside the current chain |
| Environment.PopScope | declaration.cpp:34-40 | discarding the child scope leaves exactly the outer chain |
| Environment.PushPop | declaration.cpp:34-40 | popping a freshly pushed scope restores the chain, and the empty child scope hides nothing |
| Evaluator.ApplyBinary | expr.hpp:50-171 | an operator succeeds exactly on the operand types the typing table lists, except that `/` by zero fails with `DivisionByZero`, and yields a value of the listed type; the values are stated per operator by Add, Arithmetic, Equal, NotEqual and Order |
| Evaluator.Add | expr.hpp:52-64 | `+` succeeds exactly on two strings or two numbers, otherwise a TypeError; a sum gives back the left operand when the right one is subtracted, and a joined string is the left string followed by the right one |
| Evaluator.Arithmetic | expr.hpp:65-94 | `-`, `*` and `/` succeed exactly on two numbers, except division by zero; a difference plus the right operand is the left operand, a product is the product of the operands, and a quotient times the right operand is the left operand |
| Evaluator.Equal | expr.hpp:96-119 | `==` succeeds exactly on two booleans, two numbers or two strings and yields whether they are equal; mixed types or nil are a TypeError |
| Evaluator.NotEqual | expr.hpp:121-130 | `!=` succeeds exactly on two booleans and yields whether they differ; anything else is a TypeError |
| Evaluator.Order | expr.hpp:132-168 | `>`, `>=`, `<` and `<=` succeed exactly on two numbers, otherwise a TypeError; `<` yields whether the left is less, `>` whether the right is less, and `>=` and `<=` the negations of `<` and `>` |
| Evaluator.ApplyUnary | expr.hpp:186-197 | `!` succeeds exactly on a boolean and yields its negation |
| Evaluator.Eval | expr.hpp:219-225 | an UndefinedVariable error names an identifier of the expression that no scope binds, and cannot occur when every identifier is bound |
| EvalProperties.IdentifierReadsInnermost | expr.hpp:219-225 | an identifier evaluates to its innermost binding, or to an UndefinedVariable error naming it |
| EvalProperties.EvalReadsOnlyNames | expr.hpp:46-48 | two environments that agree on an expression's identifiers give it the same result |
| EvalProperties.GroupingTransparent | expr.hpp:234 | removing every grouping from an expression does not change its result |
| EvalProperties.DoubleNegation | expr.hpp:186-192 | `!!e` is `e` for a boolean `e`, and an error otherwise |
| EvalProperties.ConcatLayout | expr.hpp:52-55 | joining two strings gives the left one followed by the right one, with the sum of their lengths |
| EvalProperties.NumberOperators | expr.hpp:50-168 | on two number literals, in any environment, `+`, `-`, `*` and `/` give the sum, difference, product and quotient, `/` by zero fails, `==` and the orderings compare, and `!=` is a TypeError |
| EvalProperties.ArithmeticUndoes | expr.hpp:52-94 | subtracting what was added gives the number back, and so does dividing by a non-zero number what was multiplied by it |
| EvalProperties.OrderDuality | expr.hpp:96-168 | `<` is `>` with the operands swapped, and `<=` is `>=` likewise; `<=` holds exactly when `>` does not, and `>=` exactly when `<` does not; exactly one of `<`, `==` and `>` holds |
| TypeSoundness.LookupTyped | expr.hpp:219-225 | a name is bound exactly when the type environment types it, and its value has that type |
| TypeSoundness.EvalSound | expr.hpp:46-197 | an expression the typing table types evaluates to a value of that type, or fails only by dividing by zero |
| TypeSoundness.EvalTyped | expr.hpp:46-197 | an expression that evaluates has the type of its value |
| Executor.ExecStmt | declaration.cpp:13-15 | a statement succeeds exactly when its expression evaluates and an assignment's target is bound; only `print` touches the output, appending one value, and only an assignment changes the chain, keeping its names |
| Executor.ExecDecl | declaration.cpp:22-78 | a declaration that succeeds leaves the chain at the depth it found it |
| Executor.ExecBlock | declaration.cpp:34-40 | a block that succeeds leaves the chain at its depth |
| Executor.ExecDecls | declaration.cpp:37-39 | running declarations in sequence keeps the chain's depth |
| Executor.ExecWhile | declaration.cpp:71-78 | a loop that finishes leaves the chain at its depth |
| ExecInvariants.DeclStep | declaration.cpp:22-78 | a declaration keeps the chain's depth and its outer scopes' names, only adds names to the innermost scope, and only appends to the output |
| ExecInvariants.BlockKeeps | declaration.cpp:34-40 | a block leaves every scope with exactly the names it had and only appends to the output |
| ExecInvariants.DeclsStep | declaration.cpp:37-39 | declarations in sequence compose those guarantees |
| ExecInvariants.WhileLoopStep | declaration.cpp:71-78 | a loop keeps the same guarantees, and when it finishes its condition evaluates to exactly `false` |
| ExecProperties.VarDeclBinds | declaration.cpp:22-28 | `var` binds the initializer's value in the innermost scope, hiding outer bindings and leaving every other name, the outer scopes and the output alone; an initializer error is the result |
| ExecProperties.StatementEffect | declaration.cpp:13-15 | a statement declaration has exactly its statement's effect: print appends, assignment rebinds only its target or fails naming it, an expression statement changes nothing, and an evaluation error is the result |
| ExecProperties.ExecDeclsAppend | declaration.cpp:37-39 | running `a + b` is running `a` and then `b` from where `a` stopped |
| ExecProperties.RunAppend | declaration.cpp:37-39 | if a program runs, every prefix of it runs and prints a prefix of its output |
| ExecProperties.BlockDoesNotLeak | declaration.cpp:34-40 | after a block exactly the names visible before it are visible |
| ExecProperties.IfSelectsBlock | declaration.cpp:53-64 | `if` behaves as the block declaration of the then-block when its condition holds (a non-boolean counts as holding), and as that of the else-block otherwise; an `if` without `else` behaves as one with an empty `else`; and with a boolean condition, negating it and swapping the blocks changes nothing |
| ExecProperties.WhileNonBoolNeverExits | declaration.cpp:73-74 | a loop whose condition reads no variable and is not a boolean never finishes |
| ExecProperties.FuelDecl | declaration.cpp:71-78 | more fuel never changes the result of a run that did not run out of fuel |
| Scenarios.ShadowingInBlock | declaration.cpp:22-40 | `var a = 1; { var a = 2; print(a); } print(a);` prints 2 then 1 |
| Scenarios.AssignmentThroughBlock | declaration.cpp:34-40 | `var a = 1; { a = 2; } print(a);` prints 2 |
| Scenarios.ShadowedAssignment | declaration.cpp:13-40 | `var a = 1; { var a = 2; a = 3; print(a); } print(a);` prints 3 then 1: the assignment reaches only the block's own `a` |
| Scenarios.CountingLoop | declaration.cpp:71-78 | `var i = 0; while (i < 3) { print(i); i = i + 1; }` prints 0, 1, 2 given three units of fuel, and runs out with fewer |
| Scenarios.PopLookup | declaration.cpp:34-40 | dropping an empty innermost scope changes no lookup |
| Scenarios.UnboundName | expr.hpp:219-225 | `print(x)` with no `x` declared fails naming `x` |
| Scenarios.EndlessLoop | declaration.cpp:71-78 | `while (true) { }` runs out of fuel whatever the fuel |
| Scenarios.JoinOrder | expr.hpp:52-55 | `"a" + "b"` is `"ab"`, and `"b" + "a"` is not |
| Scenarios.SubtractionFromTokens | parser.cpp:59-71 | the tokens of `print(1 - 2 - 3)` parse to a print of `1 - (2 - 3)`, which prints 2 |
| Findings.IfAsWritten | parser.cpp:208-224 | the `if` rule as written succeeds only with an `else` block |
| Findings.IfAsWrittenVersusCorrected | parser.cpp:216-224 | as written, `if` succeeds exactly when the corrected rule finds an `else` block, and then agrees with it |
| Findings.IfWithoutElse | parser.cpp:217-218 | `if (true) { }` is rejected as written with the message of a missing `)`, and parsed by the corrected rule as an `if` without `else` |
| Findings.AgreesWithoutParens | parser.cpp:28-137 | on tokens without `(`, the expression rules as written agree with the corrected rules at every tier |
| Findings.GroupingNeverReturns | parser.cpp:118-119 | as written, an expression starting with `(` never returns, at any tier and any bound |
| Findings.ParenthesisedOne | parser.cpp:118-121 | `( 1 )` never returns as written, and the corrected rules read it as a grouping of 1 |

The modules ParserSteps and PrintedLayout hold proof helpers: single steps of one parsing rule, and where each piece of a printed construct lies. These helpers have no row. Neither do the step lemmas of Scenarios and Findings, nor ExecProperties.WhileStops, WhileUnfold and ThenAgrees, nor Environment.AssignOuter. Each of these restates one case of a definition or one step of a proof.

## Left out

- The lexer: its source is not part of this model, so tokens are an input sequence with a locally defined `TokenType`.
- main.cpp: file reading, echoing the source and listing the tokens are input and output around the core.
- Function declarations: `getFunctionDecl` (parser.cpp:255-273) is unfinished and returns nothing, and `FuncDecl` has no call semantics. A `func` token is the error `function declarations are not supported`.
- IEEE double arithmetic: numbers are exact reals, and division by zero is an error instead of an infinity or NaN.
- Memory management: the leaked child `Environment` and the `unique_ptr` ownership become value semantics.
- Output formatting: `print` appends the literal itself to the output.
- The declarations of `Environment`, `Token`, `Literal` and the statement classes (environment.hpp, token.hpp, stmt.hpp) are not part of this model. Their behaviour follows the uses visible in the core.
- Parser.VarDeclaration: the C++ consumes the `var` name without checking that a token is there. The model fails with the invented message `Expected a variable name` when the input ends after `var`.
- Executor.ExecWhile: a loop is bounded by fuel, one unit per iteration, so a non-terminating loop shows up as `OutOfFuel` rather than as divergence.
- Findings.TierAsWritten: the as-written expression rules are bounded by fuel, counting nested re-entries of a rule. `None` means "had not returned after that many re-entries", and GroupingNeverReturns shows it is `None` for every bound.
- ExecProperties.WhileNonBoolNeverExits: stated only for conditions that read no variable. The general fact, that a loop only finishes on a condition that is exactly `false`, is ExecInvariants.WhileLoopStep.
- Executor.ExecDecl: an `if` without `else` whose condition is false does nothing. As written, declaration.cpp:62 calls `elseBlock->execute(env)`, and the two-argument constructor (declaration.cpp:48-51) leaves `elseBlock` null, so the C++ dereferences a null pointer. The as-written parser never builds such an `if`, because it demands `else` (first row of "## Findings"). The corrected parser does build one, and the model gives it the evident meaning instead of modelling the crash.
- Executor.ExecDecl: its own contract states only that the chain keeps its depth. What a declaration does beyond that is stated by the lemmas of ExecInvariants and ExecProperties.
- Parser.Primary: its contract states the shape and the cursor advance, not the exact tree. The exact trees are stated by ParserFacts.PrimaryLeaves, ParserFacts.GroupingNeedsParen and the round-trip lemmas.

## Findings

| source | as written | input that shows it | evidently intended | confidence | as-written member | corrected member |
|---|---|---|---|---|---|---|
| parser.cpp:217-218 | `if (TokenType::ELSE)` tests a non-zero enumerator, so `else` is always consumed, with the message of a missing `)` | `if (true) { }` followed by end of file | `else block` is optional: consume it only when the current token is `else` | high; not executed | Findings.IfWithoutElse | Parser.IfDeclaration |
| parser.cpp:118-121 | `primary` matches `(` but does not step over it, so `expression()` starts again at the same `(` | `( 1 )` | step over `(`, parse the inner expression, then consume `)` | high; not executed | Findings.GroupingNeverReturns | Parser.Primary |

For the first row, ParserRoundTrip.IfRoundTrip proves that the corrected rule reads back every printed `if` without `else`. For the second row, ParserRoundTrip.PrimaryRoundTrip and Findings.ParenthesisedOne prove that it reads back every printed grouping.
