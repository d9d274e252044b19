/**
 * The evaluator of src/ast/evaluator.rs: a visitor that overwrites its `value` field bottom-up.
 * `Eval` is the value each visit leaves behind. Division truncates toward zero like Rust's `/`,
 * and a zero divisor, which panics in the source, is the error `DivisionByZero`.
 */
module Evaluator {
  import opened Wrappers
  import opened Syntax

  datatype EvalError = DivisionByZero

  function Abs(n: int): nat {
    if n < 0 then -n else n
  }

  /** Rust's `/` on integers: the quotient truncated toward zero. */
  function TruncDiv(a: int, b: int): (q: int)
    requires b != 0
    ensures var rem := a - q * b; Abs(rem) < Abs(b) && (rem == 0 || (rem < 0) == (a < 0))
  {
    var mag := Abs(a) / Abs(b);
    MagnitudeRemainder(a, b, mag);
    if (a < 0) == (b < 0) then mag else -mag
  }

  /** The remainder left by the truncated quotient has the dividend's sign and is smaller than the divisor. */
  lemma MagnitudeRemainder(a: int, b: int, mag: int)
    requires b != 0 && mag == Abs(a) / Abs(b)
    ensures var q := if (a < 0) == (b < 0) then mag else -mag;
      var rem := a - q * b; Abs(rem) < Abs(b) && (rem == 0 || (rem < 0) == (a < 0))
  {
    var A: int, B: int := Abs(a), Abs(b);
    var m: int := A % B;
    assert A == mag * B + m && 0 <= m < B;
    var q := if (a < 0) == (b < 0) then mag else -mag;
    NegatedFactor(mag, B);
    if b > 0 {
      assert q * b == if a >= 0 then mag * B else -(mag * B);
    } else {
      assert b == -B;
      assert q * b == if a < 0 then -(mag * B) else mag * B;
    }
    assert a - q * b == if a >= 0 then m else -m;
  }

  lemma NegatedFactor(x: int, y: int)
    ensures x * -y == -(x * y) && (-x) * y == -(x * y) && (-x) * -y == x * y
  {
  }

  /** The value one operator gives to two operand values. */
  function Apply(kind: BinOpKind, a: int, b: int): (r: Result<int, EvalError>)
    ensures r.Err? <==> kind == Divide && b == 0
  {
    match kind
    case Add => Ok(a + b)
    case Subtract => Ok(a - b)
    case Multiply => Ok(a * b)
    case Divide => if b == 0 then Err(DivisionByZero) else Ok(TruncDiv(a, b))
  }

  /** Whether `e` holds a division anywhere. */
  predicate HasDivision(e: Expr) {
    match e
    case Number(_) => false
    case Parenthesized(inner) => HasDivision(inner)
    case Binary(l, r, op) => op.kind == Divide || HasDivision(l) || HasDivision(r)
  }

  /** The value a visit of `e` leaves in `value`, or the panic it raises. */
  function Eval(e: Expr): (r: Result<int, EvalError>)
    ensures !HasDivision(e) ==> r.Ok?
  {
    match e
    case Number(v) => Ok(v)
    case Parenthesized(inner) => Eval(inner)
    case Binary(l, r, op) =>
      match Eval(l)
      case Err(err) => Err(err)
      case Ok(a) =>
        match Eval(r)
        case Err(err) => Err(err)
        case Ok(b) => Apply(op.kind, a, b)
  }

  /** What `evaluate` returns after visiting `stmts` in order, starting from `init` in `value`. */
  function EvalStatements(stmts: seq<Stmt>, init: int): (r: Result<int, EvalError>)
    ensures r.Ok? <==> forall i :: 0 <= i < |stmts| ==> Eval(stmts[i].expr).Ok?
    ensures r.Ok? ==> r.value == if stmts == [] then init else Eval(stmts[|stmts| - 1].expr).value
  {
    if stmts == [] then Ok(init)
    else
      match Eval(stmts[0].expr)
      case Err(err) => Err(err)
      case Ok(v) =>
        var rest := EvalStatements(stmts[1..], v);
        assert forall i :: 1 <= i < |stmts| ==> stmts[i] == stmts[1..][i - 1];
        rest
  }

  // ----- properties of evaluation -----

  /** Some division in `e` has a right operand that evaluates to 0. */
  ghost predicate HasZeroDivisor(e: Expr) {
    match e
    case Number(_) => false
    case Parenthesized(inner) => HasZeroDivisor(inner)
    case Binary(l, r, op) =>
      HasZeroDivisor(l) || HasZeroDivisor(r) || (op.kind == Divide && Eval(r) == Ok(0))
  }

  /** Evaluation fails exactly when some division meets a zero divisor; otherwise it yields a value. */
  lemma {:induction false} FailsIffZeroDivisor(e: Expr)
    ensures Eval(e).Err? <==> HasZeroDivisor(e)
  {
    match e
    case Number(_) =>
    case Parenthesized(inner) =>
      FailsIffZeroDivisor(inner);
    case Binary(l, r, op) =>
      FailsIffZeroDivisor(l);
      FailsIffZeroDivisor(r);
  }

  /** The tree with every parenthesized node replaced by its inner expression. */
  function StripGroups(e: Expr): Expr {
    match e
    case Number(_) => e
    case Parenthesized(inner) => StripGroups(inner)
    case Binary(l, r, op) => Binary(StripGroups(l), StripGroups(r), op)
  }

  /** Parenthesized nodes only record grouping: removing them changes no value and no failure. */
  lemma {:induction false} GroupsAreTransparent(e: Expr)
    ensures Eval(StripGroups(e)) == Eval(e)
  {
    match e
    case Number(_) =>
    case Parenthesized(inner) =>
      GroupsAreTransparent(inner);
    case Binary(l, r, op) =>
      GroupsAreTransparent(l);
      GroupsAreTransparent(r);
  }

  /** Division truncates toward zero, whatever the signs. */
  lemma TruncationExamples()
    ensures TruncDiv(10, 3) == 3 && TruncDiv(-3, 2) == -1
    ensures TruncDiv(-7, 2) == -3 && TruncDiv(7, -2) == -3 && TruncDiv(-7, -2) == 3
  {
  }

  // ----- the imperative evaluator -----

  class Evaluator {
    var value: int

    /** `Evaluator::new`: `value` starts at 0. */
    constructor ()
      ensures value == 0
    {
      value := 0;
    }

    /** `visit_number`: overwrites `value` with the literal. */
    method VisitNumber(number: int)
      modifies this
      ensures value == number
    {
      value := number;
    }

    /**
     * `visit_expression`: dispatches on the variant. On success `value` holds the expression's
     * value, whatever it held before; `ok` is false exactly when the source would panic.
     */
    method VisitExpression(e: Expr) returns (ok: bool)
      modifies this
      ensures ok <==> Eval(e).Ok?
      ensures ok ==> value == Eval(e).value
      decreases e, 1
    {
      match e {
        case Number(v) =>
          VisitNumber(v);
          ok := true;
        case Binary(l, r, op) =>
          ok := VisitBinaryExpression(l, r, op);
        case Parenthesized(inner) =>
          ok := VisitParenthesizedExpression(inner);
      }
    }

    /** `visit_binary_expression`: left operand first, then right, then the operator. */
    method VisitBinaryExpression(left: Expr, right: Expr, operator: BinOp) returns (ok: bool)
      modifies this
      ensures ok <==> Eval(Binary(left, right, operator)).Ok?
      ensures ok ==> value == Eval(Binary(left, right, operator)).value
      decreases Binary(left, right, operator), 0
    {
      ok := VisitExpression(left);
      if !ok {
        return;
      }
      var l := value;
      ok := VisitExpression(right);
      if !ok {
        return;
      }
      var r := value;
      match operator.kind {
        case Add => value := l + r;
        case Subtract => value := l - r;
        case Multiply => value := l * r;
        case Divide =>
          if r == 0 {
            return false;
          }
          value := TruncDiv(l, r);
      }
    }

    /** `visit_parenthesized_expression`: visits the inner expression only. */
    method VisitParenthesizedExpression(inner: Expr) returns (ok: bool)
      modifies this
      ensures ok <==> Eval(Parenthesized(inner)).Ok?
      ensures ok ==> value == Eval(Parenthesized(inner)).value
      decreases Parenthesized(inner), 0
    {
      ok := VisitExpression(inner);
    }

    /** The default `visit_statement`: visits the statement's expression. */
    method VisitStatement(statement: Stmt) returns (ok: bool)
      modifies this
      ensures ok <==> Eval(statement.expr).Ok?
      ensures ok ==> value == Eval(statement.expr).value
    {
      ok := VisitExpression(statement.expr);
    }

    /**
     * `evaluate`: visits every statement in order and returns `value`, so the value of the last
     * statement, or the value held before when there are no statements (0 for a new evaluator).
     */
    method Evaluate(ast: Ast) returns (r: Result<int, EvalError>)
      modifies this
      ensures r == EvalStatements(ast.statements, old(value))
      ensures r.Ok? ==> value == r.value
    {
      var stmts := ast.statements;
      for i := 0 to |stmts|
        invariant EvalStatements(stmts, old(value)) == EvalStatements(stmts[i..], value)
      {
        assert stmts[i..][1..] == stmts[i + 1..];
        ghost var before := value;
        var ok := VisitStatement(stmts[i]);
        if !ok {
          assert stmts[i..][0] == stmts[i];
          assert Eval(stmts[i].expr).error == DivisionByZero;
          assert EvalStatements(stmts[i..], before) == Err(DivisionByZero);
          return Err(DivisionByZero);
        }
      }
      assert stmts[|stmts|..] == [];
      return Ok(value);
    }
  }

  /** A new evaluator returns 0 for a program with no statements. */
  method EvaluateEmpty() returns (r: Result<int, EvalError>)
    ensures r == Ok(0)
  {
    var ast := new Ast();
    var evaluator := new Evaluator();
    r := evaluator.Evaluate(ast);
  }
}
