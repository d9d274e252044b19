/**
 * The syntax tree of src/ast/mod.rs: a program is a list of statements, a statement wraps one
 * expression, and an expression is a number, a binary operation or a parenthesized expression.
 * The Rust constructors `AstExpression::number/binary/parenthesized` and `AstStatement::new` are
 * the datatype constructors below.
 *
 * The generic traversal (the `AstVisitor` trait with its default methods) is modelled by the
 * sequence of handler invocations that a visitor overriding nothing but `visit_number` receives.
 */
module Syntax {

  datatype BinOpKind = Add | Subtract | Multiply | Divide

  /** An operator descriptor: its kind and the precedence the parser gave it. */
  datatype BinOp = BinOp(kind: BinOpKind, precedence: nat)

  datatype Expr =
    | Number(value: int)
    | Binary(left: Expr, right: Expr, operator: BinOp)
    | Parenthesized(inner: Expr)

  /** `AstStatementKind::Expression`, the only statement kind. */
  datatype Stmt = ExpressionStmt(expr: Expr)

  /** The precedence fixed per operator kind: additive 1, multiplicative 2. */
  function PrecedenceOf(kind: BinOpKind): nat {
    match kind
    case Add => 1
    case Subtract => 1
    case Multiply => 2
    case Divide => 2
  }

  /** Every operator in the tree carries the precedence of its kind. */
  predicate WellFormed(e: Expr) {
    match e
    case Number(_) => true
    case Binary(l, r, op) => op.precedence == PrecedenceOf(op.kind) && WellFormed(l) && WellFormed(r)
    case Parenthesized(inner) => WellFormed(inner)
  }

  /** The number of nodes of the tree. */
  function Size(e: Expr): nat {
    match e
    case Number(_) => 1
    case Binary(l, r, _) => 1 + Size(l) + Size(r)
    case Parenthesized(inner) => 1 + Size(inner)
  }

  /** The number of binary nodes of the tree. */
  function BinaryCount(e: Expr): nat {
    match e
    case Number(_) => 0
    case Binary(l, r, _) => 1 + BinaryCount(l) + BinaryCount(r)
    case Parenthesized(inner) => BinaryCount(inner)
  }

  /** The literal values of the tree, read left to right. */
  function Leaves(e: Expr): seq<int> {
    match e
    case Number(v) => [v]
    case Binary(l, r, _) => Leaves(l) + Leaves(r)
    case Parenthesized(inner) => Leaves(inner)
  }

  // ----- the default visitor -----

  /** One invocation of an overridable `AstVisitor` handler, with its argument. */
  datatype Event =
    | StatementEvent(statement: Stmt)
    | ExpressionEvent(expression: Expr)
    | NumberEvent(value: int)
    | BinaryEvent(left: Expr, right: Expr, operator: BinOp)
    | ParenthesizedEvent(inner: Expr)

  /** The handlers `visit_expression` reaches with the default methods, in call order. */
  function ExpressionEvents(e: Expr): (r: seq<Event>)
    ensures |r| >= 2 && r[0] == ExpressionEvent(e)
    decreases e, 1
  {
    [ExpressionEvent(e)] + DispatchEvents(e)
  }

  /** `do_visit_expression`: the variant's own handler, then what that handler visits. */
  function DispatchEvents(e: Expr): (r: seq<Event>)
    ensures |r| >= 1
    decreases e, 0
  {
    match e
    case Number(v) => [NumberEvent(v)]
    case Binary(l, r, op) => [BinaryEvent(l, r, op)] + ExpressionEvents(l) + ExpressionEvents(r)
    case Parenthesized(inner) => [ParenthesizedEvent(inner)] + ExpressionEvents(inner)
  }

  /** `visit_statement` followed by what `do_visit_statement` visits. */
  function StatementEvents(s: Stmt): (r: seq<Event>)
    ensures |r| >= 3 && r[0] == StatementEvent(s)
  {
    [StatementEvent(s)] + ExpressionEvents(s.expr)
  }

  /** `Ast::visit` with the default handlers: each statement's events, in stored order. */
  function ProgramEvents(stmts: seq<Stmt>): (r: seq<Event>)
    ensures |r| >= 3 * |stmts|
  {
    if stmts == [] then [] else ProgramEvents(stmts[..|stmts| - 1]) + StatementEvents(stmts[|stmts| - 1])
  }

  /** The statements passed to `visit_statement` in a sequence of events. */
  function VisitedStatements(events: seq<Event>): seq<Stmt> {
    if events == [] then []
    else (if events[0].StatementEvent? then [events[0].statement] else []) + VisitedStatements(events[1..])
  }

  /** The values passed to `visit_number` in a sequence of events. */
  function VisitedNumbers(events: seq<Event>): seq<int> {
    if events == [] then []
    else (if events[0].NumberEvent? then [events[0].value] else []) + VisitedNumbers(events[1..])
  }

  lemma {:induction false} VisitedStatementsAppend(a: seq<Event>, b: seq<Event>)
    ensures VisitedStatements(a + b) == VisitedStatements(a) + VisitedStatements(b)
  {
    if a != [] {
      assert (a + b)[1..] == a[1..] + b;
      VisitedStatementsAppend(a[1..], b);
    } else {
      assert a + b == b;
    }
  }

  lemma {:induction false} VisitedNumbersAppend(a: seq<Event>, b: seq<Event>)
    ensures VisitedNumbers(a + b) == VisitedNumbers(a) + VisitedNumbers(b)
  {
    if a != [] {
      assert (a + b)[1..] == a[1..] + b;
      VisitedNumbersAppend(a[1..], b);
    } else {
      assert a + b == b;
    }
  }

  /** The last handler call of an expression's traversal visits its rightmost number. */
  lemma {:induction false} LastVisitIsRightmostNumber(e: Expr)
    ensures var events, leaves := ExpressionEvents(e), Leaves(e);
      |leaves| > 0 && events[|events| - 1] == NumberEvent(leaves[|leaves| - 1])
    decreases e
  {
    match e
    case Number(v) =>
      assert ExpressionEvents(e) == [ExpressionEvent(e), NumberEvent(v)];
    case Binary(l, r, op) =>
      LastVisitIsRightmostNumber(r);
      var tail := ExpressionEvents(r);
      assert ExpressionEvents(e) == [ExpressionEvent(e), BinaryEvent(l, r, op)] + ExpressionEvents(l) + tail;
      assert Leaves(e) == Leaves(l) + Leaves(r);
    case Parenthesized(inner) =>
      LastVisitIsRightmostNumber(inner);
      assert ExpressionEvents(e) == [ExpressionEvent(e), ParenthesizedEvent(inner)] + ExpressionEvents(inner);
  }

  /** Expression handlers never call `visit_statement`. */
  lemma {:induction false} NoStatementInExpression(e: Expr)
    ensures VisitedStatements(ExpressionEvents(e)) == []
    decreases e
  {
    match e
    case Number(v) =>
      assert ExpressionEvents(e) == [ExpressionEvent(e)] + [NumberEvent(v)];
      VisitedStatementsAppend([ExpressionEvent(e)], [NumberEvent(v)]);
    case Binary(l, r, op) =>
      NoStatementInExpression(l);
      NoStatementInExpression(r);
      assert ExpressionEvents(e) == [ExpressionEvent(e), BinaryEvent(l, r, op)] + ExpressionEvents(l) + ExpressionEvents(r);
      VisitedStatementsAppend([ExpressionEvent(e), BinaryEvent(l, r, op)] + ExpressionEvents(l), ExpressionEvents(r));
      VisitedStatementsAppend([ExpressionEvent(e), BinaryEvent(l, r, op)], ExpressionEvents(l));
    case Parenthesized(inner) =>
      NoStatementInExpression(inner);
      assert ExpressionEvents(e) == [ExpressionEvent(e), ParenthesizedEvent(inner)] + ExpressionEvents(inner);
      VisitedStatementsAppend([ExpressionEvent(e), ParenthesizedEvent(inner)], ExpressionEvents(inner));
  }

  /** `Ast::visit` hands every statement to `visit_statement` exactly once, in stored order. */
  lemma {:induction false} EveryStatementVisitedOnceInOrder(stmts: seq<Stmt>)
    ensures VisitedStatements(ProgramEvents(stmts)) == stmts
  {
    if stmts != [] {
      var init, last := stmts[..|stmts| - 1], stmts[|stmts| - 1];
      EveryStatementVisitedOnceInOrder(init);
      NoStatementInExpression(last.expr);
      VisitedStatementsAppend([StatementEvent(last)], ExpressionEvents(last.expr));
      VisitedStatementsAppend(ProgramEvents(init), StatementEvents(last));
      assert stmts == init + [last];
    }
  }

  /**
   * Default dispatch calls exactly the handler of the node's variant, right after `visit_expression`:
   * `visit_number` with the node's value, `visit_binary_expression` with its operands and operator,
   * or `visit_parenthesized_expression` with its inner expression.
   */
  lemma DispatchMatchesVariant(e: Expr)
    ensures |ExpressionEvents(e)| >= 2 && ExpressionEvents(e)[0] == ExpressionEvent(e)
    ensures ExpressionEvents(e)[1].NumberEvent? <==> e.Number?
    ensures ExpressionEvents(e)[1].BinaryEvent? <==> e.Binary?
    ensures ExpressionEvents(e)[1].ParenthesizedEvent? <==> e.Parenthesized?
    ensures e.Number? ==> ExpressionEvents(e)[1].value == e.value
    ensures e.Binary? ==> ExpressionEvents(e)[1] == BinaryEvent(e.left, e.right, e.operator)
    ensures e.Parenthesized? ==> ExpressionEvents(e)[1] == ParenthesizedEvent(e.inner)
  {
  }

  /**
   * The default handlers reach `visit_number` for every literal in left-to-right order:
   * the binary handler visits its left operand before its right one, and the parenthesized
   * handler visits only its inner expression.
   */
  lemma {:induction false} NumbersVisitedLeftToRight(e: Expr)
    ensures VisitedNumbers(ExpressionEvents(e)) == Leaves(e)
    decreases e
  {
    match e
    case Number(v) =>
      NumbersOfNumber(v);
    case Binary(l, r, op) =>
      NumbersVisitedLeftToRight(l);
      NumbersVisitedLeftToRight(r);
      NumbersOfBinary(l, r, op);
    case Parenthesized(inner) =>
      NumbersVisitedLeftToRight(inner);
      NumbersOfParenthesized(inner);
  }

  lemma NumbersOfNumber(v: int)
    ensures VisitedNumbers(ExpressionEvents(Expr.Number(v))) == [v]
  {
    var events := [ExpressionEvent(Expr.Number(v)), NumberEvent(v)];
    assert ExpressionEvents(Expr.Number(v)) == events;
    assert events[1..][1..] == [];
    assert VisitedNumbers(events[1..]) == [v] + VisitedNumbers([]);
  }

  lemma NumbersOfBinary(l: Expr, r: Expr, op: BinOp)
    ensures VisitedNumbers(ExpressionEvents(Binary(l, r, op))) == VisitedNumbers(ExpressionEvents(l)) + VisitedNumbers(ExpressionEvents(r))
  {
    var e := Binary(l, r, op);
    assert ExpressionEvents(e) == [ExpressionEvent(e)] + DispatchEvents(e);
    assert DispatchEvents(e) == [BinaryEvent(l, r, op)] + ExpressionEvents(l) + ExpressionEvents(r);
    VisitedNumbersAppend([ExpressionEvent(e)], DispatchEvents(e));
    VisitedNumbersAppend([BinaryEvent(l, r, op)] + ExpressionEvents(l), ExpressionEvents(r));
    VisitedNumbersAppend([BinaryEvent(l, r, op)], ExpressionEvents(l));
    NoNumbers([ExpressionEvent(e)]);
    NoNumbers([BinaryEvent(l, r, op)]);
  }

  lemma NumbersOfParenthesized(inner: Expr)
    ensures VisitedNumbers(ExpressionEvents(Parenthesized(inner))) == VisitedNumbers(ExpressionEvents(inner))
  {
    var e := Parenthesized(inner);
    assert ExpressionEvents(e) == [ExpressionEvent(e)] + DispatchEvents(e);
    assert DispatchEvents(e) == [ParenthesizedEvent(inner)] + ExpressionEvents(inner);
    VisitedNumbersAppend([ExpressionEvent(e)], DispatchEvents(e));
    VisitedNumbersAppend([ParenthesizedEvent(inner)], ExpressionEvents(inner));
    NoNumbers([ExpressionEvent(e)]);
    NoNumbers([ParenthesizedEvent(inner)]);
  }

  /** Handler calls that are not `visit_number` contribute no numbers. */
  lemma {:induction false} NoNumbers(events: seq<Event>)
    requires forall i :: 0 <= i < |events| ==> !events[i].NumberEvent?
    ensures VisitedNumbers(events) == []
  {
    if events != [] {
      NoNumbers(events[1..]);
    }
  }

  /** Each node gets exactly two handler calls: `visit_expression` and its variant's handler. */
  lemma {:induction false} TwoEventsPerNode(e: Expr)
    ensures |ExpressionEvents(e)| == 2 * Size(e)
    decreases e
  {
    match e
    case Number(_) =>
    case Binary(l, r, _) =>
      TwoEventsPerNode(l);
      TwoEventsPerNode(r);
    case Parenthesized(inner) =>
      TwoEventsPerNode(inner);
  }

  /** `Ast`: the statements of a program, in insertion order. */
  class Ast {
    var statements: seq<Stmt>

    /** `Ast::new`: a program with no statements. */
    constructor ()
      ensures statements == []
    {
      statements := [];
    }

    /** `add_statement`: appends one statement, leaving the earlier ones as they were. */
    method AddStatement(statement: Stmt)
      modifies this
      ensures statements == old(statements) + [statement]
    {
      statements := statements + [statement];
    }

    /** `visit` with the default handlers: the handler invocations, statement after statement. */
    method Visit() returns (events: seq<Event>)
      ensures events == ProgramEvents(statements)
      ensures VisitedStatements(events) == statements
    {
      events := [];
      for i := 0 to |statements|
        invariant events == ProgramEvents(statements[..i])
      {
        assert statements[..i + 1][..i] == statements[..i];
        events := events + StatementEvents(statements[i]);
      }
      assert statements[..|statements|] == statements;
      EveryStatementVisitedOnceInOrder(statements);
    }
  }
}
