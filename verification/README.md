# Integer-arithmetic interpreter, modelled in Dafny

The system is a small interpreter. It lexes source text into tokens, parses the tokens into statements by precedence climbing, and evaluates those statements to one 64-bit signed result. It can also print an indented outline of the tree. The model covers the four files of `src/ast`:

- **Lexer** (`lexer.dfy`, for `src/ast/lexer.rs`) is a class with the source's cursor. `NextToken` is proved against the pure one-step function `Step`. `Tokens` is the whole token stream. The lemmas prove:
  - the stream ends in exactly one EOF;
  - spans are contiguous;
  - concatenating the literals gives back the input.
- **Syntax** (`syntax.dfy`, for `src/ast/mod.rs`) holds:
  - the tree datatypes;
  - the `Ast` class;
  - the call trace of the default visitor handlers, with proofs that `visit` hands each statement over once, in order, and that numbers are visited left to right.
- **Parser** (`parser.dfy`, for `src/ast/parser.rs`) is a class over a token vector and a cursor. Each parsing method is proved against a pure function of the tokens and the starting cursor (`PrimaryAt`, `BinaryAt`, `LoopAt`, `StatementAt`, `NextStatementAt`). The lemmas prove:
  - a parsed tree keeps the number literals it consumed, in order;
  - the tree has one group per parenthesis pair;
  - every operator carries its canonical precedence;
  - chains of equal-precedence operators group to the right.
- **Evaluator** (`evaluator.dfy`, for `src/ast/evaluator.rs`) is a class with the running `value`. Its visit methods are proved against the pure `Eval`. `Evaluate` is proved against `EvalStatements`. The lemmas prove:
  - evaluation fails exactly when a division meets a zero divisor;
  - parentheses never change a value;
  - division truncates toward zero.
- **Printer** (`printer.dfy`, for the `AstPrinter` in `src/ast/mod.rs`) is a class whose methods append lines (an indentation and a label) to an `output` sequence in place of standard output. Each method is proved against pure line functions. The lemmas cover the line count and the indentation discipline.
- **Examples** (`examples.dfy`) are whole runs on concrete inputs, as `src/main.rs` wires the parts together: lex, parse until no statement is left, then evaluate.

Two panics in the source are modelled as outcomes instead of aborts:
- the missing `)` becomes `Panicked` in the parser;
- the zero divisor becomes `Err(DivisionByZero)` / `ok == false` in the evaluator.

Rust's `Option` results are `Option` or the parser's `Outcome` (`Built`, `Absent`, `Panicked`).

### Behaviour as written

The model follows the code where it differs from the behaviour usually expected of such an interpreter:

- `parse_binary_expression` consumes the operator token *before* comparing its precedence with the minimum. An operator that ends a sub-expression is therefore lost. Together with `next_statement` skipping one extra token after each statement, `2*3+4` parses as the single statement `2 * 3` and evaluates to 6, not 10 (`Parser.OperatorBelowMinIsConsumed`, `Examples.DroppedOperatorExample`).
- The right operand is parsed at the operator's own precedence, so `1-2-3` is `1 - (2 - 3)` = 2 (`Parser.EqualPrecedenceGroupsRight`, `Examples.SubtractionChainExample`).
- `next_token` advances the cursor before building the EOF span, so EOF's span is `[len+1, len+1)`, one past the end of the input, not an empty range at the end.
- A token that cannot start an expression (anything but a number or `(`, such as the BAD token a space becomes) makes the primary expression `None`. That ends the expression, and at the start of a statement it ends the statement loop of `main.rs` without an error. So `1 + 2` is the single statement `1` and evaluates to 1 (`Parser.UnexpectedTokenEndsProgram`, `Examples.SpacedInputExample`).
- `evaluate` returns whatever `value` holds after the last statement. With no statements that is the evaluator's previous value (0 for a new one).

## Model

| member | source | states |
|---|---|---|
| Lexer.PunctuationKind | src/ast/lexer.rs:92-103 | a character is classified BAD exactly when it is none of `+ - * / ( )` |
| Lexer.DigitRunEnd | src/ast/lexer.rs:104-115 | the digit run read from a position is all digits and maximal: it stops at the end of input or at a non-digit |
| Lexer.Step | src/ast/lexer.rs:51-75 | one `next_token`: nothing once the cursor is past the end; EOF exactly when the cursor is at the end; otherwise a non-Identifier token whose span starts at the cursor, ends at the new cursor and whose literal is the text in between |
| Lexer.Tokens | src/main.rs:6-9 | the tokens collected from `next_token` until it returns `None`: none exactly when the cursor starts past the end of the input, and never an Identifier |
| Lexer.Span.Length | src/ast/lexer.rs:39-41 | the start plus the length is the end |
| Lexer.EmptyInputYieldsOnlyEof | src/ast/lexer.rs:53-62 | the empty input yields one EOF token and then nothing |
| Lexer.TokenKindFollowsFirstCharacter | src/ast/lexer.rs:63-70 | a token is a Number exactly when it starts at a digit, with the value of the whole maximal digit run, and otherwise the punctuation kind of its single character |
| Lexer.TokensEndWithSingleEof | src/ast/lexer.rs:51-62 | from any cursor within the input there are at most `len + 1 - cursor` tokens; the last is EOF with the empty span just past the end of the input, and EOF occurs nowhere else |
| Lexer.SpanLengths | src/ast/lexer.rs:39-41 | every token's span is ordered, non-empty except for EOF's, and as long as its literal |
| Lexer.TokensAreContiguous | src/ast/lexer.rs:64-73 | a first token other than EOF starts at the starting cursor, and each later token other than EOF starts where the previous one ended |
| Lexer.LiteralsReproduceInput | src/ast/lexer.rs:71-73 | the literals of the non-EOF tokens, concatenated, are the input from the starting cursor |
| Lexer.Lexer.constructor | src/ast/lexer.rs:48-50 | the lexer starts at cursor 0 on its input |
| Lexer.Lexer.Peek | src/ast/lexer.rs:76-78 | the character under the cursor, present exactly when the cursor is inside the input |
| Lexer.Lexer.IsNumberStart | src/ast/lexer.rs:79-84 | true exactly when there is a character under the cursor and it is a decimal digit |
| Lexer.Lexer.Consume | src/ast/lexer.rs:85-91 | returns the peeked character and advances the cursor only when there was one |
| Lexer.Lexer.ConsumePunctuation | src/ast/lexer.rs:92-103 | consumes one character and returns its punctuation kind |
| Lexer.Lexer.ConsumeNumber | src/ast/lexer.rs:104-115 | moves the cursor to the end of the maximal digit run and returns that run's decimal value |
| Lexer.Lexer.NextToken | src/ast/lexer.rs:51-75 | returns the token and leaves the cursor exactly where `Step` says, and never moves the cursor back |
| Syntax.EveryStatementVisitedOnceInOrder | src/ast/mod.rs:19-23 | `visit` passes the stored statements to `visit_statement` once each, in stored order |
| Syntax.NoStatementInExpression | src/ast/mod.rs:123-152 | the default expression handlers never call `visit_statement` |
| Syntax.DispatchMatchesVariant | src/ast/mod.rs:123-138 | `visit_expression` is followed by the handler of the expression's own variant, with that variant's fields |
| Syntax.NumbersVisitedLeftToRight | src/ast/mod.rs:123-152 | the default traversal calls `visit_number` on the tree's literals from left to right |
| Syntax.TwoEventsPerNode | src/ast/mod.rs:123-152 | the default traversal makes exactly two handler calls per tree node |
| Syntax.LastVisitIsRightmostNumber | src/ast/mod.rs:123-152 | the last handler call of an expression's default traversal is `visit_number` on its rightmost literal |
| Syntax.ExpressionEvents | src/ast/mod.rs:136-138 | the default `visit_expression` makes at least two handler calls, the first on the expression itself |
| Syntax.DispatchEvents | src/ast/mod.rs:123-135 | the default `do_visit_expression` reaches at least one handler |
| Syntax.StatementEvents | src/ast/mod.rs:113-122 | the default `visit_statement` makes at least three handler calls, the first on the statement itself |
| Syntax.ProgramEvents | src/ast/mod.rs:19-23 | `visit` with the default handlers makes at least three handler calls per statement |
| Syntax.Ast.constructor | src/ast/mod.rs:9-13 | a new program has no statements |
| Syntax.Ast.AddStatement | src/ast/mod.rs:15-17 | appends the statement and keeps the earlier ones unchanged |
| Syntax.Ast.Visit | src/ast/mod.rs:19-23 | the handler calls of `visit` with the default handlers; the statements visited are exactly the stored ones |
| Parser.TokenAt | src/ast/parser.rs:75-80 | the token at an index, present exactly when the index is inside the vector |
| Parser.OperatorAt | src/ast/parser.rs:53-62 | an operator exactly when there is a token at the cursor and it is `+ - * /`, carrying its kind's canonical precedence |
| Parser.OperatorFor | src/ast/parser.rs:53-62 | `+ - * /` and only those are operators; `+ -` have precedence 1, `* /` precedence 2, each mapped to its own kind |
| Parser.PrimaryAt | src/ast/parser.rs:38-52 | a Number token becomes a Number node with its value, one token further on; a missing token or any token other than a number or `(` gives no expression, one token further on; a built primary ends inside the vector |
| Parser.BinaryAt | src/ast/parser.rs:63-74 | a binary expression consumes at least one token, and a built one ends inside the vector |
| Parser.LoopAt | src/ast/parser.rs:64-73 | the operator loop never moves the cursor back, and a built result ends inside the vector |
| Parser.StatementAt | src/ast/parser.rs:25-33 | at EOF or past the tokens there is no statement and the cursor does not move; a built statement consumes at least one token and ends inside the vector |
| Parser.NextStatementAt | src/ast/parser.rs:18-24 | the outcome is `parse_statement`'s; after a built statement the cursor is exactly one further than where the statement ended, so one extra token is skipped |
| Parser.StatementsFrom | src/main.rs:14-16 | the loop over `next_statement` either collects statements or panics; it never ends in an unfinished state |
| Parser.ProgramIsWellFormed | src/ast/parser.rs:53-62 | every operator of every parsed statement carries the precedence of its kind |
| Parser.PrimaryIsFaithful | src/ast/parser.rs:38-52 | a built primary's literals are the Number tokens it consumed, in order, and its group count equals both the `(` and the `)` it consumed |
| Parser.GroupIsFaithful | src/ast/parser.rs:42-49 | a faithful tree between a `(` and its `)` gives a faithful group over both parentheses: one more group, one more of each parenthesis, the same literals |
| Parser.BinaryIsFaithful | src/ast/parser.rs:63-74 | the same for a built binary expression, over all tokens it consumed, dropped operators included |
| Parser.LoopIsFaithful | src/ast/parser.rs:64-73 | the loop extends its left operand by the literals and groups of the tokens it consumes |
| Parser.StatementIsFaithful | src/ast/parser.rs:25-33 | a built statement's expression is faithful to the tokens of the statement |
| Parser.EqualPrecedenceGroupsRight | src/ast/parser.rs:63-74 | a chain `v0 op v1 op … vn` of one precedence parses to `v0 op (v1 op (… vn))` and leaves the cursor on the token that follows the chain |
| Parser.OperatorBelowMinIsConsumed | src/ast/parser.rs:65-69 | an operator below the minimum precedence ends the loop with the left operand unchanged, after the cursor has moved past the operator |
| Parser.UnexpectedTokenEndsProgram | src/ast/parser.rs:39-50 | from a token other than a number, `(` or EOF, collecting statements ends at once with no statements and no panic |
| Parser.UnclosedGroupPanics | src/ast/parser.rs:42-47 | a `(` whose inner expression is built and followed by a token other than `)` panics |
| Parser.PrimaryPanicsOnlyAtParen | src/ast/parser.rs:38-52 | with no `(` from the cursor on, a primary expression does not panic |
| Parser.BinaryPanicsOnlyAtParen | src/ast/parser.rs:63-74 | with no `(` from the cursor on, a binary expression does not panic |
| Parser.LoopPanicsOnlyAtParen | src/ast/parser.rs:64-73 | with no `(` from the cursor on, the operator loop does not panic |
| Parser.StatementsPanicOnlyAtParen | src/main.rs:14-16 | with no `(` in the remaining tokens, collecting statements ends in a list of statements, never in a panic |
| Parser.Parser.FromTokens | src/ast/parser.rs:15-17 | the parser starts at cursor 0 on its tokens |
| Parser.Parser.Peek | src/ast/parser.rs:75-77 | the token `offset` places from the cursor, present exactly when that index is inside the vector |
| Parser.Parser.Current | src/ast/parser.rs:78-80 | the token under the cursor, present exactly when the cursor is inside the vector |
| Parser.Parser.Consume | src/ast/parser.rs:81-85 | advances the cursor by one, even past the end, and returns the token it stepped over, if any |
| Parser.Parser.ParseBinaryOperator | src/ast/parser.rs:53-62 | the operator under the cursor, without moving it, with its canonical precedence |
| Parser.Parser.ParsePrimaryExpression | src/ast/parser.rs:38-52 | outcome and final cursor are those of `PrimaryAt` |
| Parser.Parser.ParseExpression | src/ast/parser.rs:34-36 | outcome and final cursor are those of `BinaryAt` at minimum precedence 0 |
| Parser.Parser.ParseBinaryExpression | src/ast/parser.rs:63-74 | outcome and final cursor are those of `BinaryAt` at the given minimum precedence |
| Parser.Parser.ParseStatement | src/ast/parser.rs:25-33 | outcome and final cursor are those of `StatementAt` |
| Parser.Parser.NextStatement | src/ast/parser.rs:18-24 | outcome and final cursor are those of `NextStatementAt` |
| Evaluator.TruncDiv | src/ast/evaluator.rs:50 | Rust's integer `/`: the remainder is smaller than the divisor and has the dividend's sign (or is 0) |
| Evaluator.Apply | src/ast/evaluator.rs:46-51 | applying one operator to two values fails exactly for a division by zero |
| Evaluator.Eval | src/ast/evaluator.rs:21-58 | the value a visit leaves in `value`; an expression without a division always evaluates |
| Evaluator.EvalStatements | src/ast/evaluator.rs:12-15 | succeeds exactly when every statement evaluates; its value is the last statement's, or the starting value when there are none |
| Evaluator.FailsIffZeroDivisor | src/ast/evaluator.rs:41-52 | evaluation fails exactly when some division's right operand evaluates to 0 |
| Evaluator.GroupsAreTransparent | src/ast/evaluator.rs:53-58 | removing every parenthesized node changes neither the value nor the failure |
| Evaluator.TruncationExamples | src/ast/evaluator.rs:50 | `10/3` = 3, `-3/2` = -1, `-7/2` = -3, `7/-2` = -3, `-7/-2` = 3 |
| Evaluator.Evaluator.constructor | src/ast/evaluator.rs:9-11 | a new evaluator holds 0 |
| Evaluator.Evaluator.VisitNumber | src/ast/evaluator.rs:18-20 | `value` becomes the literal |
| Evaluator.Evaluator.VisitExpression | src/ast/evaluator.rs:21-40 | succeeds exactly when `Eval` does, and then leaves `Eval`'s value in `value` |
| Evaluator.Evaluator.VisitBinaryExpression | src/ast/evaluator.rs:41-52 | the same for a binary node: left, then right, then the operator, failing on a zero divisor |
| Evaluator.Evaluator.VisitParenthesizedExpression | src/ast/evaluator.rs:53-58 | the same for a parenthesized node: the inner expression's outcome |
| Evaluator.Evaluator.VisitStatement | src/ast/mod.rs:113-122 | the same for a statement: its expression's outcome |
| Evaluator.Evaluator.Evaluate | src/ast/evaluator.rs:12-15 | the result is `EvalStatements` of the program's statements from the evaluator's earlier value, and on success `value` holds it |
| Evaluator.EvaluateEmpty | src/ast/evaluator.rs:9-15 | a new evaluator returns 0 for a program with no statements |
| Printer.LabelText | src/ast/mod.rs:162-192 | every label's text is non-empty and does not start with a space |
| Printer.Render | src/ast/mod.rs:200-202 | the text is longer than the indentation, and the character right after the indentation is not a space (`Printer.RenderedIndentation` gives the whole text) |
| Printer.ExpressionLines | src/ast/mod.rs:168-173 | the printer's `visit_expression` writes at least two lines (the exact count is `Printer.ExpressionLineCount`) |
| Printer.HandlerLines | src/ast/mod.rs:175-196 | each variant's handler writes at least one line |
| Printer.StatementLines | src/ast/mod.rs:161-166 | the printer's `visit_statement` writes at least three lines |
| Printer.ProgramLines | src/ast/mod.rs:25-28 | `visualize` writes at least three lines per statement |
| Printer.ExpressionLineCount | src/ast/mod.rs:168-196 | an expression prints two lines per node plus one operator line per binary node |
| Printer.StatementLineCount | src/ast/mod.rs:161-166 | a statement prints one line more than its expression |
| Printer.ExpressionIndents | src/ast/mod.rs:158-196 | an expression's first line is at the starting indentation, and every line is at or deeper by a multiple of `LEVEL_INDENT` |
| Printer.RenderedIndentation | src/ast/mod.rs:200-202 | a printed line is exactly `indent` spaces followed by its label's text |
| Printer.AstPrinter.constructor | src/ast/mod.rs:26 | the printer starts at indentation 0 with nothing written |
| Printer.AstPrinter.PrintWithIndent | src/ast/mod.rs:200-202 | writes one line at the current indentation |
| Printer.AstPrinter.VisitStatement | src/ast/mod.rs:161-166 | writes the statement's lines and restores the indentation |
| Printer.AstPrinter.DoVisitStatement | src/ast/mod.rs:113-119 | writes the expression's lines at the current indentation |
| Printer.AstPrinter.VisitExpression | src/ast/mod.rs:168-173 | writes the expression's lines and restores the indentation |
| Printer.AstPrinter.DoVisitExpression | src/ast/mod.rs:123-135 | writes the lines of the variant's handler |
| Printer.AstPrinter.VisitNumber | src/ast/mod.rs:175-177 | writes one `Number:` line carrying the value |
| Printer.AstPrinter.VisitBinaryExpression | src/ast/mod.rs:179-186 | writes the binary node's line, then its operator and operands one level deeper, and restores the indentation |
| Printer.AstPrinter.VisitParenthesizedExpression | src/ast/mod.rs:188-196 | writes the group's line, then its inner expression one level deeper, and restores the indentation |
| Printer.Visualize | src/ast/mod.rs:25-28 | the lines written are those of every statement from indentation 0, in order, a function of the statements alone |
| Examples.SevenLexes | src/ast/lexer.rs:51-75 | `7` lexes to Number 7 and EOF |
| Examples.MainInputExample | src/main.rs:5-21 | `(1+2)+3` parses to one statement, a group plus 3, and evaluates to 6 |
| Examples.PrecedenceExample | src/ast/parser.rs:63-74 | `2+3*4` parses as `2 + (3 * 4)` and evaluates to 14 |
| Examples.GroupingExample | src/ast/parser.rs:38-52 | `(2+3)*4` parses as `(2 + 3) * 4` and evaluates to 20 |
| Examples.TruncationExample | src/ast/evaluator.rs:50 | `10/3` evaluates to 3 |
| Examples.ZeroDivisorExample | src/ast/evaluator.rs:50 | `1/0` parses but its evaluation panics |
| Examples.UnclosedExample | src/ast/parser.rs:44-46 | `(1+2` panics in the parser |
| Examples.SubtractionChainExample | src/ast/parser.rs:70 | `1-2-3` groups to the right and evaluates to 2 |
| Examples.DroppedOperatorExample | src/ast/parser.rs:66-69 | `2*3+4` parses as the single statement `2 * 3` and evaluates to 6 |
| Examples.SpacedInputExample | src/ast/parser.rs:50 | `1 + 2` lexes its spaces as BAD tokens, parses as the single statement `1` and evaluates to 1 |
| Examples.EmptyInputExample | src/ast/parser.rs:25-29 | the empty input has no statements and evaluates to 0 |
| Digits.NatText | src/ast/mod.rs:176 | a natural number's decimal text reads back as the number and has no leading zero |
| Digits.IntText | src/ast/mod.rs:176 | an integer's text is its magnitude's digits, after a minus sign when negative |

## Left out

- `src/main.rs` is modelled by `Lexer.Tokens` (its lexing loop), `Parser.StatementsFrom` (its statement loop) and their composition with evaluation, `Examples.Run`; its `println!` of the tree's `Debug` form and of the result is output only.
- Standard output: the printer's `println!` appends to `AstPrinter.output`, and `Render` gives the text of a line. The `Debug` spelling of operator kinds is the variant name.
- Evaluator.Evaluator.VisitBinaryExpression: does not model `i64` overflow (including `i64::MIN / -1`). Values are unbounded integers, so results are exact where Rust would panic in debug builds or wrap in release builds.
- Lexer.Lexer.ConsumeNumber: does not model `i64` overflow of the accumulated literal, for the same reason.
- Lexer: the source mixes byte offsets (`len`, slicing) with character positions (`chars().nth`). They agree only on ASCII input, and strings here are sequences of characters, so non-ASCII input is not modelled.
- The `Identifier` token kind exists but no code path produces it. It is kept in the datatype, and `Lexer.Step` proves it never appears.
- The `_ => panic!` arm of the evaluator's `visit_expression` cannot be reached, because the match is exhaustive. It is left out.
- `AstVisitor` is a trait with dynamic dispatch. No trait is modelled. `Ast::visit`'s loop appears once for each visitor: the default handlers (`Syntax.Ast.Visit`), the evaluator (`Evaluator.Evaluator.Evaluate`) and the printer (`Printer.Visualize`).
- `Parser::new` (an empty token vector) is not modelled because nothing calls it. `Parser::peek` and `Parser::current` are `Parser.Parser.Peek` and `Parser.Parser.Current`, both through `Parser.TokenAt`. A negative offset that wraps around in `usize` is never used: `consume` only peeks at offset -1 after an increment.
- `Span::length` subtracts `usize` values. `Lexer.Span.Length` therefore requires `start <= end`, which `Lexer.SpanLengths` proves for every token.
- The `clone()` calls and `Box` allocations of the source copy immutable trees and are values here.
