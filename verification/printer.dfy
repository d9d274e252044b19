/**
 * The diagnostic printer of src/ast/mod.rs (`AstPrinter` and `Ast::visualize`). Instead of writing to
 * standard output, the printer collects its lines, each an indentation and a label; `Render` gives
 * the text of a line.
 */
module Printer {
  import opened Syntax
  import opened Digits

  /** `LEVEL_INDENT`: the indentation added around each nested visit. */
  const LevelIndent: nat := 2

  datatype Label =
    | StatementLabel
    | ExpressionLabel
    | NumberLabel(value: int)
    | BinaryLabel
    | OperatorLabel(kind: BinOpKind)
    | ParenthesizedLabel

  datatype Line = Line(indent: nat, tag: Label)

  /** The `Debug` name of an operator kind. */
  function KindName(kind: BinOpKind): string {
    match kind
    case Add => "Add"
    case Subtract => "Subtract"
    case Multiply => "Multiply"
    case Divide => "Divide"
  }

  /** The text printed for a label. */
  function LabelText(tag: Label): (text: string)
    ensures |text| > 0 && text[0] != ' '
  {
    match tag
    case StatementLabel => "Statement:"
    case ExpressionLabel => "Expression:"
    case NumberLabel(v) => "Number: " + IntText(v)
    case BinaryLabel => "Binary Expression:"
    case OperatorLabel(kind) => "Operator: " + KindName(kind)
    case ParenthesizedLabel => "Parenthesized Expression:"
  }

  function Spaces(n: nat): (s: string)
    ensures |s| == n && forall i :: 0 <= i < n ==> s[i] == ' '
  {
    if n == 0 then "" else Spaces(n - 1) + " "
  }

  /** `print_with_indent`: the label after `indent` spaces. */
  function Render(line: Line): (text: string)
    ensures |text| > line.indent && text[line.indent] != ' '
  {
    Spaces(line.indent) + LabelText(line.tag)
  }

  /** The lines the printer's `visit_expression` writes for `e` at indentation `indent`. */
  function ExpressionLines(e: Expr, indent: nat): (r: seq<Line>)
    ensures |r| >= 2
    decreases e, 1
  {
    [Line(indent, ExpressionLabel)] + HandlerLines(e, indent + LevelIndent)
  }

  /** The lines the handler of `e`'s variant writes at indentation `indent`. */
  function HandlerLines(e: Expr, indent: nat): (r: seq<Line>)
    ensures |r| >= 1
    decreases e, 0
  {
    match e
    case Number(v) => [Line(indent, NumberLabel(v))]
    case Binary(l, r, op) =>
      [Line(indent, BinaryLabel), Line(indent + LevelIndent, OperatorLabel(op.kind))]
      + ExpressionLines(l, indent + LevelIndent) + ExpressionLines(r, indent + LevelIndent)
    case Parenthesized(inner) =>
      [Line(indent, ParenthesizedLabel)] + ExpressionLines(inner, indent + LevelIndent)
  }

  /** The lines the printer's `visit_statement` writes for `s` at indentation `indent`. */
  function StatementLines(s: Stmt, indent: nat): (r: seq<Line>)
    ensures |r| >= 3
  {
    [Line(indent, StatementLabel)] + ExpressionLines(s.expr, indent + LevelIndent)
  }

  /** The lines `visualize` writes: every statement from indentation 0, in order. */
  function ProgramLines(stmts: seq<Stmt>): (r: seq<Line>)
    ensures |r| >= 3 * |stmts|
  {
    if stmts == [] then [] else ProgramLines(stmts[..|stmts| - 1]) + StatementLines(stmts[|stmts| - 1], 0)
  }

  // ----- properties of the printed lines -----

  /**
   * Line counts: two lines per node (`Expression:` and the node's own line) plus an `Operator:`
   * line per binary node; so a number takes 2 lines, a binary expression 3 plus its operands',
   * a parenthesized expression 2 plus its inner expression's.
   */
  lemma {:induction false} ExpressionLineCount(e: Expr, indent: nat)
    ensures |ExpressionLines(e, indent)| == 2 * Size(e) + BinaryCount(e)
    decreases e
  {
    match e
    case Number(_) =>
    case Binary(l, r, _) =>
      ExpressionLineCount(l, indent + LevelIndent + LevelIndent);
      ExpressionLineCount(r, indent + LevelIndent + LevelIndent);
    case Parenthesized(inner) =>
      ExpressionLineCount(inner, indent + LevelIndent + LevelIndent);
  }

  /** A statement takes one line more than its expression. */
  lemma StatementLineCount(s: Stmt, indent: nat)
    ensures |StatementLines(s, indent)| == 1 + 2 * Size(s.expr) + BinaryCount(s.expr)
  {
    ExpressionLineCount(s.expr, indent + LevelIndent);
  }

  /** Every line is at `indent` or deeper, by a multiple of `LevelIndent`. */
  ghost predicate DeeperBy(lines: seq<Line>, indent: nat) {
    forall k :: 0 <= k < |lines| ==> lines[k].indent >= indent && (lines[k].indent - indent) % LevelIndent == 0
  }

  /**
   * Lines for `e` start at the visit's indentation and never go left of it; every indentation
   * is that one plus a multiple of `LevelIndent`.
   */
  lemma {:induction false} ExpressionIndents(e: Expr, indent: nat)
    ensures var lines := ExpressionLines(e, indent);
      lines[0].indent == indent && DeeperBy(lines, indent)
    decreases e
  {
    var deeper := indent + 2 * LevelIndent;
    match e
    case Number(v) =>
      assert ExpressionLines(e, indent) == [Line(indent, ExpressionLabel), Line(indent + LevelIndent, NumberLabel(v))];
    case Binary(l, r, op) =>
      ExpressionIndents(l, deeper);
      ExpressionIndents(r, deeper);
      var head := [Line(indent, ExpressionLabel), Line(indent + LevelIndent, BinaryLabel), Line(deeper, OperatorLabel(op.kind))];
      var ll, rl := ExpressionLines(l, deeper), ExpressionLines(r, deeper);
      BinaryLines(l, r, op, indent);
      DeeperByShift(ll, deeper, indent);
      DeeperByShift(rl, deeper, indent);
      DeeperByConcat(head, ll, indent);
      DeeperByConcat(head + ll, rl, indent);
    case Parenthesized(inner) =>
      ExpressionIndents(inner, deeper);
      var head := [Line(indent, ExpressionLabel), Line(indent + LevelIndent, ParenthesizedLabel)];
      var il := ExpressionLines(inner, deeper);
      ParenthesizedLines(inner, indent);
      DeeperByShift(il, deeper, indent);
      DeeperByConcat(head, il, indent);
  }

  lemma DeeperByConcat(a: seq<Line>, b: seq<Line>, indent: nat)
    requires DeeperBy(a, indent) && DeeperBy(b, indent)
    ensures DeeperBy(a + b, indent)
  {
    forall k | 0 <= k < |a + b|
      ensures (a + b)[k].indent >= indent && ((a + b)[k].indent - indent) % LevelIndent == 0
    {
      if k >= |a| {
        assert (a + b)[k] == b[k - |a|];
      }
    }
  }

  lemma DeeperByShift(lines: seq<Line>, deeper: nat, indent: nat)
    requires deeper == indent + 2 * LevelIndent && DeeperBy(lines, deeper)
    ensures DeeperBy(lines, indent)
  {
    forall k | 0 <= k < |lines|
      ensures lines[k].indent >= indent && (lines[k].indent - indent) % LevelIndent == 0
    {
      var d: int := lines[k].indent - deeper;
      assert d % LevelIndent == 0;
      assert lines[k].indent - indent == d + 2 * LevelIndent;
    }
  }

  /** The lines of a binary expression: its three own lines, then both operands two levels deeper. */
  lemma BinaryLines(l: Expr, r: Expr, op: BinOp, indent: nat)
    ensures ExpressionLines(Binary(l, r, op), indent)
      == [Line(indent, ExpressionLabel), Line(indent + LevelIndent, BinaryLabel), Line(indent + 2 * LevelIndent, OperatorLabel(op.kind))]
         + ExpressionLines(l, indent + 2 * LevelIndent) + ExpressionLines(r, indent + 2 * LevelIndent)
  {
    var first := [Line(indent, ExpressionLabel)];
    var own := [Line(indent + LevelIndent, BinaryLabel), Line(indent + 2 * LevelIndent, OperatorLabel(op.kind))];
    var ll, rl := ExpressionLines(l, indent + 2 * LevelIndent), ExpressionLines(r, indent + 2 * LevelIndent);
    assert ExpressionLines(Binary(l, r, op), indent) == first + (own + ll + rl);
    Reassociate(first, own, ll, rl);
    assert first + own == [Line(indent, ExpressionLabel), Line(indent + LevelIndent, BinaryLabel), Line(indent + 2 * LevelIndent, OperatorLabel(op.kind))];
  }

  lemma Reassociate(a: seq<Line>, b: seq<Line>, c: seq<Line>, d: seq<Line>)
    ensures a + (b + c + d) == a + b + c + d
  {
  }

  /** The lines of a parenthesized expression: its two own lines, then the inner expression two levels deeper. */
  lemma ParenthesizedLines(inner: Expr, indent: nat)
    ensures ExpressionLines(Parenthesized(inner), indent)
      == [Line(indent, ExpressionLabel), Line(indent + LevelIndent, ParenthesizedLabel)] + ExpressionLines(inner, indent + 2 * LevelIndent)
  {
    var first := [Line(indent, ExpressionLabel)];
    var own := [Line(indent + LevelIndent, ParenthesizedLabel)];
    var il := ExpressionLines(inner, indent + 2 * LevelIndent);
    assert ExpressionLines(Parenthesized(inner), indent) == first + (own + il);
    Reassociate(first, own, il, []);
    assert own + il + [] == own + il;
    assert first + own == [Line(indent, ExpressionLabel), Line(indent + LevelIndent, ParenthesizedLabel)];
  }

  /** A rendered line begins with exactly `indent` spaces, followed by its label's text. */
  lemma RenderedIndentation(line: Line)
    ensures var text := Render(line);
      |text| > line.indent &&
      (forall i :: 0 <= i < line.indent ==> text[i] == ' ') &&
      text[line.indent] != ' ' &&
      text[line.indent..] == LabelText(line.tag)
  {
  }

  // ----- the imperative printer -----

  class AstPrinter {
    var indent: nat
    /** The lines written so far, in place of standard output. */
    var output: seq<Line>

    /** The printer `visualize` creates: indentation 0, nothing written. */
    constructor ()
      ensures indent == 0 && output == []
    {
      indent := 0;
      output := [];
    }

    /** `print_with_indent`: writes one line at the current indentation. */
    method PrintWithIndent(tag: Label)
      modifies this
      ensures indent == old(indent)
      ensures output == old(output) + [Line(indent, tag)]
    {
      output := output + [Line(indent, tag)];
    }

    /** `visit_statement`: a `Statement:` line, then the expression one level deeper. */
    method VisitStatement(statement: Stmt)
      modifies this
      ensures indent == old(indent)
      ensures output == old(output) + StatementLines(statement, old(indent))
    {
      PrintWithIndent(StatementLabel);
      indent := indent + LevelIndent;
      DoVisitStatement(statement);
      indent := indent - LevelIndent;
    }

    /** The default `do_visit_statement`: the statement's expression through `visit_expression`. */
    method DoVisitStatement(statement: Stmt)
      modifies this
      ensures indent == old(indent)
      ensures output == old(output) + ExpressionLines(statement.expr, old(indent))
    {
      VisitExpression(statement.expr);
    }

    /** `visit_expression`: an `Expression:` line, then the variant's handler one level deeper. */
    method VisitExpression(expression: Expr)
      modifies this
      ensures indent == old(indent)
      ensures output == old(output) + ExpressionLines(expression, old(indent))
      decreases expression, 2
    {
      PrintWithIndent(ExpressionLabel);
      indent := indent + LevelIndent;
      DoVisitExpression(expression);
      indent := indent - LevelIndent;
    }

    /** The default `do_visit_expression`: calls the handler of the expression's variant. */
    method DoVisitExpression(expression: Expr)
      modifies this
      ensures indent == old(indent)
      ensures output == old(output) + HandlerLines(expression, old(indent))
      decreases expression, 1
    {
      match expression {
        case Number(v) => VisitNumber(v);
        case Binary(l, r, op) => VisitBinaryExpression(l, r, op);
        case Parenthesized(inner) => VisitParenthesizedExpression(inner);
      }
    }

    /** `visit_number`: one `Number:` line. */
    method VisitNumber(number: int)
      modifies this
      ensures indent == old(indent)
      ensures output == old(output) + [Line(indent, NumberLabel(number))]
    {
      PrintWithIndent(NumberLabel(number));
    }

    /** `visit_binary_expression`: its own line, then operator, left and right one level deeper. */
    method VisitBinaryExpression(left: Expr, right: Expr, operator: BinOp)
      modifies this
      ensures indent == old(indent)
      ensures output == old(output) + HandlerLines(Binary(left, right, operator), old(indent))
      decreases Binary(left, right, operator), 0
    {
      ghost var before, start := output, indent;
      PrintWithIndent(BinaryLabel);
      indent := indent + LevelIndent;
      PrintWithIndent(OperatorLabel(operator.kind));
      ghost var own := [Line(start, BinaryLabel), Line(start + LevelIndent, OperatorLabel(operator.kind))];
      assert output == before + own;
      VisitExpression(left);
      VisitExpression(right);
      indent := indent - LevelIndent;
      Reassociate(before, own, ExpressionLines(left, start + LevelIndent), ExpressionLines(right, start + LevelIndent));
    }

    /** `visit_parenthesized_expression`: its own line, then the inner expression one level deeper. */
    method VisitParenthesizedExpression(inner: Expr)
      modifies this
      ensures indent == old(indent)
      ensures output == old(output) + HandlerLines(Parenthesized(inner), old(indent))
      decreases Parenthesized(inner), 0
    {
      PrintWithIndent(ParenthesizedLabel);
      indent := indent + LevelIndent;
      VisitExpression(inner);
      indent := indent - LevelIndent;
    }
  }

  /**
   * `Ast::visualize`: a new printer at indentation 0 visits every statement. The lines depend on
   * the statements alone, so visualizing the same program twice writes the same lines.
   */
  method Visualize(ast: Ast) returns (lines: seq<Line>)
    ensures lines == ProgramLines(ast.statements)
  {
    var printer := new AstPrinter();
    var stmts := ast.statements;
    for i := 0 to |stmts|
      invariant printer.indent == 0
      invariant printer.output == ProgramLines(stmts[..i])
    {
      assert stmts[..i + 1][..i] == stmts[..i];
      printer.VisitStatement(stmts[i]);
    }
    assert stmts[..|stmts|] == stmts;
    lines := printer.output;
  }
}
