/**
 * Whole runs of the interpreter on concrete inputs: the token list the lexer
 * produces, the statements the parser builds from it, and what the evaluator
 * returns. Each example pins down one behaviour of the source, including the
 * right grouping of equal-precedence chains, the operator consumed at the end
 * of a sub-expression, and the two panics.
 */
module Examples {
  import opened Wrappers
  import opened Digits
  import opened Syntax
  import opened Lexer
  import opened Parser
  import opened Evaluator

  /** No two digits of `text` are adjacent from `pos` on: every number in it is one digit long. */
  ghost predicate SingleDigitNumbers(text: string, pos: nat) {
    forall i :: pos <= i < |text| - 1 ==> !(IsDigit(text[i]) && IsDigit(text[i + 1]))
  }

  /** The token the lexer makes of the single character at `i`. */
  function CharToken(text: string, i: nat): Token
    requires i < |text|
  {
    var kind := if IsDigit(text[i]) then TokenKind.Number(DigitValue(text[i])) else PunctuationKind(text[i]);
    Token(kind, Span(i, i + 1, [text[i]]))
  }

  /** One token per character from `pos` on, then EOF. */
  function CharTokens(text: string, pos: nat): seq<Token>
    requires pos <= |text|
    decreases |text| - pos
  {
    if pos == |text| then [Token(EOF, Span(|text| + 1, |text| + 1, "\0"))]
    else [CharToken(text, pos)] + CharTokens(text, pos + 1)
  }

  /** When every number is one digit long, the lexer turns each character into one token. */
  lemma {:induction false} SingleDigitLexing(text: string, pos: nat)
    requires pos <= |text| && SingleDigitNumbers(text, pos)
    ensures Tokens(text, pos) == CharTokens(text, pos)
    decreases |text| - pos
  {
    if pos == |text| {
      assert Tokens(text, pos + 1) == [];
    } else {
      var step := Step(text, pos);
      assert text[pos..pos + 1] == [text[pos]];
      if IsDigit(text[pos]) {
        assert pos + 1 == |text| || !IsDigit(text[pos + 1]);
        assert DigitRunEnd(text, pos + 1) == pos + 1;
        assert DigitRunEnd(text, pos) == pos + 1;
        assert DecimalValue([text[pos]]) == DigitValue(text[pos]) by {
          assert [text[pos]][..0] == [];
        }
      }
      assert step == Lexed(Some(CharToken(text, pos)), pos + 1);
      SingleDigitLexing(text, pos + 1);
    }
  }

  /** What the program of src/main.rs ends with: the evaluator's result, or the panic that ends the run. */
  datatype RunOutcome = Value(n: int) | ParsePanic | EvaluationPanic

  /** Lex `text`, parse statements until none is left, and evaluate them with a new evaluator. */
  function Run(text: string): RunOutcome {
    match StatementsFrom(Tokens(text, 0), 0)
    case Built(stmts) =>
      (match EvalStatements(stmts, 0)
       case Ok(v) => Value(v)
       case Err(_) => EvaluationPanic)
    case _ => ParsePanic
  }

  function Num(v: int): Expr { Expr.Number(v) }

  function Tok(kind: TokenKind, at: nat, text: string): Token { Token(kind, Span(at, at + |text|, text)) }

  /** A one-digit input lexes to its number and EOF, and then the lexer is exhausted. */
  lemma SevenLexes()
    ensures Tokens("7", 0) == [Tok(TokenKind.Number(7), 0, "7"), Token(EOF, Span(2, 2, "\0"))]
  {
    SingleDigitLexing("7", 0);
  }

  /** `10/3` lexes to a two-digit number, a slash and a one-digit number. */
  lemma LexTen()
    ensures Tokens("10/3", 0) == [Tok(TokenKind.Number(10), 0, "10"), Tok(Slash, 2, "/"), Tok(TokenKind.Number(3), 3, "3"), Token(EOF, Span(5, 5, "\0"))]
  {
    var text := "10/3";
    assert DigitRunEnd(text, 2) == 2;
    assert DigitRunEnd(text, 0) == 2;
    assert text[0..2] == "10" && "10"[..1] == "1" && "1"[..0] == "";
    assert DecimalValue("10") == 10;
    SingleDigitLexing(text, 2);
  }

  // ----- `(1+2)+3` -----
  function MainInputTokens(): seq<Token> {
    [Tok(LParen, 0, "("), Tok(TokenKind.Number(1), 1, "1"), Tok(Plus, 2, "+"), Tok(TokenKind.Number(2), 3, "2"), Tok(RParen, 4, ")"), Tok(Plus, 5, "+"), Tok(TokenKind.Number(3), 6, "3"), Token(EOF, Span(8, 8, "\0"))]
  }
  lemma LexMainInput()
    ensures Tokens("(1+2)+3", 0) == MainInputTokens()
  {
    MainInputSingleDigits();
    SingleDigitLexing("(1+2)+3", 0);
    MainInputCharTokens();
  }
  lemma MainInputSingleDigits()
    ensures SingleDigitNumbers("(1+2)+3", 0)
  {
  }
  lemma MainInputCharTokens()
    ensures CharTokens("(1+2)+3", 0) == MainInputTokens()
  {
  }
  lemma ParseMainInput()
    ensures StatementsFrom(MainInputTokens(), 0) == Built([ExpressionStmt(Binary(Parenthesized(Binary(Num(1), Num(2), BinOp(Add, 1))), Num(3), BinOp(Add, 1)))])
  {
    var ts := MainInputTokens();
    assert BinaryAt(ts, 3, 1) == Parse(Built(Num(2)), 4);
    assert BinaryAt(ts, 1, 0) == Parse(Built(Binary(Num(1), Num(2), BinOp(Add, 1))), 4);
    assert BinaryAt(ts, 6, 1) == Parse(Built(Num(3)), 7);
    assert BinaryAt(ts, 0, 0) == Parse(Built(Binary(Parenthesized(Binary(Num(1), Num(2), BinOp(Add, 1))), Num(3), BinOp(Add, 1))), 7);
    var stmt := ExpressionStmt(Binary(Parenthesized(Binary(Num(1), Num(2), BinOp(Add, 1))), Num(3), BinOp(Add, 1)));
    assert StatementAt(ts, 0) == Parse(Built(stmt), 7);
    assert StatementsFrom(ts, 8) == Built([]);
    assert [stmt] + [] == [stmt];
  }
  /** The input of src/main.rs: `(1+2)+3` is one statement whose value is 6. */
  lemma MainInputExample()
    ensures StatementsFrom(Tokens("(1+2)+3", 0), 0) == Built([ExpressionStmt(Binary(Parenthesized(Binary(Num(1), Num(2), BinOp(Add, 1))), Num(3), BinOp(Add, 1)))])
    ensures Run("(1+2)+3") == Value(6)
  {
    LexMainInput();
    ParseMainInput();
    EvalMainInput();
  }
  lemma EvalMainInput()
    ensures EvalStatements([ExpressionStmt(Binary(Parenthesized(Binary(Num(1), Num(2), BinOp(Add, 1))), Num(3), BinOp(Add, 1)))], 0) == Ok(6)
  {
  }

  // ----- `2+3*4` -----
  function PrecedenceTokens(): seq<Token> {
    [Tok(TokenKind.Number(2), 0, "2"), Tok(Plus, 1, "+"), Tok(TokenKind.Number(3), 2, "3"), Tok(Star, 3, "*"), Tok(TokenKind.Number(4), 4, "4"), Token(EOF, Span(6, 6, "\0"))]
  }
  lemma LexPrecedence()
    ensures Tokens("2+3*4", 0) == PrecedenceTokens()
  {
    PrecedenceSingleDigits();
    SingleDigitLexing("2+3*4", 0);
    PrecedenceCharTokens();
  }
  lemma PrecedenceSingleDigits()
    ensures SingleDigitNumbers("2+3*4", 0)
  {
  }
  lemma PrecedenceCharTokens()
    ensures CharTokens("2+3*4", 0) == PrecedenceTokens()
  {
  }
  lemma ParsePrecedence()
    ensures StatementsFrom(PrecedenceTokens(), 0) == Built([ExpressionStmt(Binary(Num(2), Binary(Num(3), Num(4), BinOp(Multiply, 2)), BinOp(Add, 1)))])
  {
    var ts := PrecedenceTokens();
    assert BinaryAt(ts, 4, 2) == Parse(Built(Num(4)), 5);
    assert BinaryAt(ts, 2, 1) == Parse(Built(Binary(Num(3), Num(4), BinOp(Multiply, 2))), 5);
    assert BinaryAt(ts, 0, 0) == Parse(Built(Binary(Num(2), Binary(Num(3), Num(4), BinOp(Multiply, 2)), BinOp(Add, 1))), 5);
    var stmt := ExpressionStmt(Binary(Num(2), Binary(Num(3), Num(4), BinOp(Multiply, 2)), BinOp(Add, 1)));
    assert StatementAt(ts, 0) == Parse(Built(stmt), 5);
    assert StatementsFrom(ts, 6) == Built([]);
    assert [stmt] + [] == [stmt];
  }
  /** A higher-precedence operator on the right nests under a lower one: `2+3*4` is `2 + (3 * 4)` = 14. */
  lemma PrecedenceExample()
    ensures StatementsFrom(Tokens("2+3*4", 0), 0) == Built([ExpressionStmt(Binary(Num(2), Binary(Num(3), Num(4), BinOp(Multiply, 2)), BinOp(Add, 1)))])
    ensures Run("2+3*4") == Value(14)
  {
    LexPrecedence();
    ParsePrecedence();
  }

  // ----- `(2+3)*4` -----
  function GroupingTokens(): seq<Token> {
    [Tok(LParen, 0, "("), Tok(TokenKind.Number(2), 1, "2"), Tok(Plus, 2, "+"), Tok(TokenKind.Number(3), 3, "3"), Tok(RParen, 4, ")"), Tok(Star, 5, "*"), Tok(TokenKind.Number(4), 6, "4"), Token(EOF, Span(8, 8, "\0"))]
  }
  lemma LexGrouping()
    ensures Tokens("(2+3)*4", 0) == GroupingTokens()
  {
    GroupingSingleDigits();
    SingleDigitLexing("(2+3)*4", 0);
    GroupingCharTokens();
  }
  lemma GroupingSingleDigits()
    ensures SingleDigitNumbers("(2+3)*4", 0)
  {
  }
  lemma GroupingCharTokens()
    ensures CharTokens("(2+3)*4", 0) == GroupingTokens()
  {
  }
  lemma ParseGrouping()
    ensures StatementsFrom(GroupingTokens(), 0) == Built([ExpressionStmt(Binary(Parenthesized(Binary(Num(2), Num(3), BinOp(Add, 1))), Num(4), BinOp(Multiply, 2)))])
  {
    var ts := GroupingTokens();
    assert BinaryAt(ts, 3, 1) == Parse(Built(Num(3)), 4);
    assert BinaryAt(ts, 1, 0) == Parse(Built(Binary(Num(2), Num(3), BinOp(Add, 1))), 4);
    assert BinaryAt(ts, 6, 2) == Parse(Built(Num(4)), 7);
    assert BinaryAt(ts, 0, 0) == Parse(Built(Binary(Parenthesized(Binary(Num(2), Num(3), BinOp(Add, 1))), Num(4), BinOp(Multiply, 2))), 7);
    var stmt := ExpressionStmt(Binary(Parenthesized(Binary(Num(2), Num(3), BinOp(Add, 1))), Num(4), BinOp(Multiply, 2)));
    assert StatementAt(ts, 0) == Parse(Built(stmt), 7);
    assert StatementsFrom(ts, 8) == Built([]);
    assert [stmt] + [] == [stmt];
  }
  /** Parentheses override precedence: `(2+3)*4` is `(2 + 3) * 4` = 20. */
  lemma GroupingExample()
    ensures StatementsFrom(Tokens("(2+3)*4", 0), 0) == Built([ExpressionStmt(Binary(Parenthesized(Binary(Num(2), Num(3), BinOp(Add, 1))), Num(4), BinOp(Multiply, 2)))])
    ensures Run("(2+3)*4") == Value(20)
  {
    LexGrouping();
    ParseGrouping();
    EvalGrouping();
  }
  lemma EvalGrouping()
    ensures EvalStatements([ExpressionStmt(Binary(Parenthesized(Binary(Num(2), Num(3), BinOp(Add, 1))), Num(4), BinOp(Multiply, 2)))], 0) == Ok(20)
  {
  }

  // ----- `10/3` -----
  function TruncationTokens(): seq<Token> {
    [Tok(TokenKind.Number(10), 0, "10"), Tok(Slash, 2, "/"), Tok(TokenKind.Number(3), 3, "3"), Token(EOF, Span(5, 5, "\0"))]
  }
  lemma LexTruncation()
    ensures Tokens("10/3", 0) == TruncationTokens()
  {
    LexTen();
  }
  lemma ParseTruncation()
    ensures StatementsFrom(TruncationTokens(), 0) == Built([ExpressionStmt(Binary(Num(10), Num(3), BinOp(Divide, 2)))])
  {
    var ts := TruncationTokens();
    assert BinaryAt(ts, 2, 2) == Parse(Built(Num(3)), 3);
    assert BinaryAt(ts, 0, 0) == Parse(Built(Binary(Num(10), Num(3), BinOp(Divide, 2))), 3);
    var stmt := ExpressionStmt(Binary(Num(10), Num(3), BinOp(Divide, 2)));
    assert StatementAt(ts, 0) == Parse(Built(stmt), 3);
    assert StatementsFrom(ts, 4) == Built([]);
    assert [stmt] + [] == [stmt];
  }
  /** Division truncates toward zero: `10/3` = 3. */
  lemma TruncationExample()
    ensures StatementsFrom(Tokens("10/3", 0), 0) == Built([ExpressionStmt(Binary(Num(10), Num(3), BinOp(Divide, 2)))])
    ensures Run("10/3") == Value(3)
  {
    LexTruncation();
    ParseTruncation();
  }

  // ----- `1/0` -----
  function ZeroDivisorTokens(): seq<Token> {
    [Tok(TokenKind.Number(1), 0, "1"), Tok(Slash, 1, "/"), Tok(TokenKind.Number(0), 2, "0"), Token(EOF, Span(4, 4, "\0"))]
  }
  lemma LexZeroDivisor()
    ensures Tokens("1/0", 0) == ZeroDivisorTokens()
  {
    ZeroDivisorSingleDigits();
    SingleDigitLexing("1/0", 0);
    ZeroDivisorCharTokens();
  }
  lemma ZeroDivisorSingleDigits()
    ensures SingleDigitNumbers("1/0", 0)
  {
  }
  lemma ZeroDivisorCharTokens()
    ensures CharTokens("1/0", 0) == ZeroDivisorTokens()
  {
  }
  lemma ParseZeroDivisor()
    ensures StatementsFrom(ZeroDivisorTokens(), 0) == Built([ExpressionStmt(Binary(Num(1), Num(0), BinOp(Divide, 2)))])
  {
    var ts := ZeroDivisorTokens();
    assert BinaryAt(ts, 2, 2) == Parse(Built(Num(0)), 3);
    assert BinaryAt(ts, 0, 0) == Parse(Built(Binary(Num(1), Num(0), BinOp(Divide, 2))), 3);
    var stmt := ExpressionStmt(Binary(Num(1), Num(0), BinOp(Divide, 2)));
    assert StatementAt(ts, 0) == Parse(Built(stmt), 3);
    assert StatementsFrom(ts, 4) == Built([]);
    assert [stmt] + [] == [stmt];
  }
  /** A zero divisor parses, then makes evaluation fail: `1/0` never yields a value. */
  lemma ZeroDivisorExample()
    ensures StatementsFrom(Tokens("1/0", 0), 0) == Built([ExpressionStmt(Binary(Num(1), Num(0), BinOp(Divide, 2)))])
    ensures Run("1/0") == EvaluationPanic
  {
    LexZeroDivisor();
    ParseZeroDivisor();
  }

  // ----- `(1+2` -----
  function UnclosedTokens(): seq<Token> {
    [Tok(LParen, 0, "("), Tok(TokenKind.Number(1), 1, "1"), Tok(Plus, 2, "+"), Tok(TokenKind.Number(2), 3, "2"), Token(EOF, Span(5, 5, "\0"))]
  }
  lemma LexUnclosed()
    ensures Tokens("(1+2", 0) == UnclosedTokens()
  {
    UnclosedSingleDigits();
    SingleDigitLexing("(1+2", 0);
    UnclosedCharTokens();
  }
  lemma UnclosedSingleDigits()
    ensures SingleDigitNumbers("(1+2", 0)
  {
  }
  lemma UnclosedCharTokens()
    ensures CharTokens("(1+2", 0) == UnclosedTokens()
  {
  }
  lemma ParseUnclosed()
    ensures StatementsFrom(UnclosedTokens(), 0) == Panicked
  {
    var ts := UnclosedTokens();
    assert BinaryAt(ts, 3, 1) == Parse(Built(Num(2)), 4);
    assert BinaryAt(ts, 1, 0) == Parse(Built(Binary(Num(1), Num(2), BinOp(Add, 1))), 4);
    assert BinaryAt(ts, 0, 0) == Parse(Panicked, 5);
    assert StatementAt(ts, 0) == Parse(Panicked, 5);
  }
  /** A `(` followed by EOF instead of `)` panics: `(1+2` never yields a tree. */
  lemma UnclosedExample()
    ensures StatementsFrom(Tokens("(1+2", 0), 0) == Panicked
    ensures Run("(1+2") == ParsePanic
  {
    LexUnclosed();
    ParseUnclosed();
  }

  // ----- `1-2-3` -----
  function SubtractionChainTokens(): seq<Token> {
    [Tok(TokenKind.Number(1), 0, "1"), Tok(Minus, 1, "-"), Tok(TokenKind.Number(2), 2, "2"), Tok(Minus, 3, "-"), Tok(TokenKind.Number(3), 4, "3"), Token(EOF, Span(6, 6, "\0"))]
  }
  lemma LexSubtractionChain()
    ensures Tokens("1-2-3", 0) == SubtractionChainTokens()
  {
    SubtractionChainSingleDigits();
    SingleDigitLexing("1-2-3", 0);
    SubtractionChainCharTokens();
  }
  lemma SubtractionChainSingleDigits()
    ensures SingleDigitNumbers("1-2-3", 0)
  {
  }
  lemma SubtractionChainCharTokens()
    ensures CharTokens("1-2-3", 0) == SubtractionChainTokens()
  {
  }
  lemma ParseSubtractionChain()
    ensures StatementsFrom(SubtractionChainTokens(), 0) == Built([ExpressionStmt(Binary(Num(1), Binary(Num(2), Num(3), BinOp(Subtract, 1)), BinOp(Subtract, 1)))])
  {
    var ts := SubtractionChainTokens();
    assert BinaryAt(ts, 4, 1) == Parse(Built(Num(3)), 5);
    assert BinaryAt(ts, 2, 1) == Parse(Built(Binary(Num(2), Num(3), BinOp(Subtract, 1))), 5);
    assert BinaryAt(ts, 0, 0) == Parse(Built(Binary(Num(1), Binary(Num(2), Num(3), BinOp(Subtract, 1)), BinOp(Subtract, 1))), 5);
    var stmt := ExpressionStmt(Binary(Num(1), Binary(Num(2), Num(3), BinOp(Subtract, 1)), BinOp(Subtract, 1)));
    assert StatementAt(ts, 0) == Parse(Built(stmt), 5);
    assert StatementsFrom(ts, 6) == Built([]);
    assert [stmt] + [] == [stmt];
  }
  /** Equal precedence groups to the right: `1-2-3` is `1 - (2 - 3)` = 2, not -4. */
  lemma SubtractionChainExample()
    ensures StatementsFrom(Tokens("1-2-3", 0), 0) == Built([ExpressionStmt(Binary(Num(1), Binary(Num(2), Num(3), BinOp(Subtract, 1)), BinOp(Subtract, 1)))])
    ensures Run("1-2-3") == Value(2)
  {
    LexSubtractionChain();
    ParseSubtractionChain();
  }

  // ----- `2*3+4` -----
  function DroppedOperatorTokens(): seq<Token> {
    [Tok(TokenKind.Number(2), 0, "2"), Tok(Star, 1, "*"), Tok(TokenKind.Number(3), 2, "3"), Tok(Plus, 3, "+"), Tok(TokenKind.Number(4), 4, "4"), Token(EOF, Span(6, 6, "\0"))]
  }
  lemma LexDroppedOperator()
    ensures Tokens("2*3+4", 0) == DroppedOperatorTokens()
  {
    DroppedOperatorSingleDigits();
    SingleDigitLexing("2*3+4", 0);
    DroppedOperatorCharTokens();
  }
  lemma DroppedOperatorSingleDigits()
    ensures SingleDigitNumbers("2*3+4", 0)
  {
  }
  lemma DroppedOperatorCharTokens()
    ensures CharTokens("2*3+4", 0) == DroppedOperatorTokens()
  {
  }
  lemma ParseDroppedOperator()
    ensures StatementsFrom(DroppedOperatorTokens(), 0) == Built([ExpressionStmt(Binary(Num(2), Num(3), BinOp(Multiply, 2)))])
  {
    var ts := DroppedOperatorTokens();
    assert BinaryAt(ts, 2, 2) == Parse(Built(Num(3)), 4);
    assert BinaryAt(ts, 0, 0) == Parse(Built(Binary(Num(2), Num(3), BinOp(Multiply, 2))), 4);
    var stmt := ExpressionStmt(Binary(Num(2), Num(3), BinOp(Multiply, 2)));
    assert StatementAt(ts, 0) == Parse(Built(stmt), 4);
    assert StatementsFrom(ts, 5) == Built([]);
    assert [stmt] + [] == [stmt];
  }
  /** The operator that ends a sub-expression is consumed and the token after the statement skipped: `2*3+4` is the single statement `2 * 3` = 6. */
  lemma DroppedOperatorExample()
    ensures StatementsFrom(Tokens("2*3+4", 0), 0) == Built([ExpressionStmt(Binary(Num(2), Num(3), BinOp(Multiply, 2)))])
    ensures Run("2*3+4") == Value(6)
  {
    LexDroppedOperator();
    ParseDroppedOperator();
  }

  // ----- `1 + 2` -----
  function SpacedInputTokens(): seq<Token> {
    [Tok(TokenKind.Number(1), 0, "1"), Tok(BAD, 1, " "), Tok(Plus, 2, "+"), Tok(BAD, 3, " "), Tok(TokenKind.Number(2), 4, "2"), Token(EOF, Span(6, 6, "\0"))]
  }
  lemma LexSpacedInput()
    ensures Tokens("1 + 2", 0) == SpacedInputTokens()
  {
    SpacedInputSingleDigits();
    SingleDigitLexing("1 + 2", 0);
    SpacedInputCharTokens();
  }
  lemma SpacedInputSingleDigits()
    ensures SingleDigitNumbers("1 + 2", 0)
  {
  }
  lemma SpacedInputCharTokens()
    ensures CharTokens("1 + 2", 0) == SpacedInputTokens()
  {
  }
  lemma ParseSpacedInput()
    ensures StatementsFrom(SpacedInputTokens(), 0) == Built([ExpressionStmt(Num(1))])
  {
    var ts := SpacedInputTokens();
    assert BinaryAt(ts, 0, 0) == Parse(Built(Num(1)), 1);
    var stmt := ExpressionStmt(Num(1));
    assert StatementAt(ts, 0) == Parse(Built(stmt), 1);
    UnexpectedTokenEndsProgram(ts, 2);
    assert [stmt] + [] == [stmt];
  }
  /** A space lexes as BAD, which ends the expression and, after the skipped token, the program: `1 + 2` is 1. */
  lemma SpacedInputExample()
    ensures StatementsFrom(Tokens("1 + 2", 0), 0) == Built([ExpressionStmt(Num(1))])
    ensures Run("1 + 2") == Value(1)
  {
    LexSpacedInput();
    ParseSpacedInput();
  }

  // ----- the empty input -----
  function EmptyInputTokens(): seq<Token> {
    [Token(EOF, Span(1, 1, "\0"))]
  }
  lemma LexEmptyInput()
    ensures Tokens("", 0) == EmptyInputTokens()
  {
    SingleDigitLexing("", 0);
  }
  lemma ParseEmptyInput()
    ensures StatementsFrom(EmptyInputTokens(), 0) == Built([])
  {
    var ts := EmptyInputTokens();
  }
  /** Empty input has no statements, so a new evaluator returns 0. */
  lemma EmptyInputExample()
    ensures StatementsFrom(Tokens("", 0), 0) == Built([])
    ensures Run("") == Value(0)
  {
    LexEmptyInput();
    ParseEmptyInput();
  }


}
