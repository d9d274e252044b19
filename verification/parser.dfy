/**
 * The parser of src/ast/parser.rs: recursive descent with a precedence-climbing loop over a
 * token vector and a `current` cursor. The model keeps the source's choices: the right operand is
 * parsed at the operator's own precedence (equal-precedence chains group to the right), the
 * operator token is consumed before the precedence test (so the operator that ends a
 * sub-expression is skipped), and `next_statement` skips one more token after each statement.
 * A missing `)` panics in the source; here it is the outcome `Panicked`.
 */
module Parser {
  import opened Wrappers
  import opened Syntax
  import opened Lexer

  /** What a parsing function returns: a tree, Rust's `None`, or a panic. */
  datatype Outcome<+T> = Built(tree: T) | Absent | Panicked

  /** An outcome together with the cursor position it leaves behind. */
  datatype Parse<+T> = Parse(outcome: Outcome<T>, next: nat)

  /** `Vec::get` on a signed index: `None` outside the vector. */
  function TokenAt(tokens: seq<Token>, i: int): (t: Option<Token>)
    ensures t.Some? <==> 0 <= i < |tokens|
    ensures t.Some? ==> t.value == tokens[i]
  {
    if 0 <= i < |tokens| then Some(tokens[i]) else None
  }

  /** The operator descriptor `parse_binary_operator` builds for a token kind. */
  function OperatorFor(kind: TokenKind): (op: Option<BinOp>)
    ensures op.Some? <==> kind.Plus? || kind.Minus? || kind.Star? || kind.Slash?
    ensures op.Some? ==> op.value.precedence == PrecedenceOf(op.value.kind)
    ensures op.Some? ==> (op.value.kind == Add <==> kind.Plus?) && (op.value.kind == Subtract <==> kind.Minus?)
                          && (op.value.kind == Multiply <==> kind.Star?) && (op.value.kind == Divide <==> kind.Slash?)
  {
    match kind
    case Plus => Some(BinOp(Add, 1))
    case Minus => Some(BinOp(Subtract, 1))
    case Star => Some(BinOp(Multiply, 2))
    case Slash => Some(BinOp(Divide, 2))
    case _ => None
  }

  /** `parse_binary_operator` with the cursor at `pos`. */
  function OperatorAt(tokens: seq<Token>, pos: nat): (op: Option<BinOp>)
    ensures op.Some? <==> pos < |tokens| && tokens[pos].kind in {Plus, Minus, Star, Slash}
    ensures op.Some? ==> op.value.precedence == PrecedenceOf(op.value.kind)
  {
    if pos < |tokens| then OperatorFor(tokens[pos].kind) else None
  }

  /** `parse_primary_expression` with the cursor at `pos`. */
  function PrimaryAt(tokens: seq<Token>, pos: nat): (r: Parse<Expr>)
    ensures pos < |tokens| && tokens[pos].kind.Number? ==> r == Parse(Built(Expr.Number(tokens[pos].kind.value)), pos + 1)
    ensures pos >= |tokens| || !(tokens[pos].kind.Number? || tokens[pos].kind.LParen?) ==> r == Parse(Absent, pos + 1)
    ensures r.next > pos
    ensures r.outcome.Built? ==> r.next <= |tokens|
    decreases |tokens| - pos, 0
  {
    if pos >= |tokens| then Parse(Absent, pos + 1)
    else match tokens[pos].kind
      case Number(v) => Parse(Built(Expr.Number(v)), pos + 1)
      case LParen =>
        var inner := BinaryAt(tokens, pos + 1, 0);
        if !inner.outcome.Built? then inner
        else if inner.next >= |tokens| then Parse(Absent, inner.next + 1)
        else if tokens[inner.next].kind != RParen then Parse(Panicked, inner.next + 1)
        else Parse(Built(Parenthesized(inner.outcome.tree)), inner.next + 1)
      case _ => Parse(Absent, pos + 1)
  }

  /** `parse_binary_expression(min)` with the cursor at `pos`. */
  function BinaryAt(tokens: seq<Token>, pos: nat, min: nat): (r: Parse<Expr>)
    ensures r.next > pos
    ensures r.outcome.Built? ==> r.next <= |tokens|
    decreases |tokens| - pos, 1
  {
    var first := PrimaryAt(tokens, pos);
    if !first.outcome.Built? then first
    else LoopAt(tokens, first.outcome.tree, first.next, min)
  }

  /** The `while let` loop of `parse_binary_expression(min)`, entered with `left` at cursor `pos`. */
  function LoopAt(tokens: seq<Token>, left: Expr, pos: nat, min: nat): (r: Parse<Expr>)
    requires pos <= |tokens|
    ensures r.next >= pos
    ensures r.outcome.Built? ==> r.next <= |tokens|
    decreases |tokens| - pos, 0
  {
    match OperatorAt(tokens, pos)
    case None => Parse(Built(left), pos)
    case Some(op) =>
      if op.precedence < min then Parse(Built(left), pos + 1)
      else
        var right := BinaryAt(tokens, pos + 1, op.precedence);
        if !right.outcome.Built? then right
        else LoopAt(tokens, Binary(left, right.outcome.tree, op), right.next, min)
  }

  /** `parse_statement` with the cursor at `pos`. */
  function StatementAt(tokens: seq<Token>, pos: nat): (r: Parse<Stmt>)
    ensures pos >= |tokens| || tokens[pos].kind.EOF? ==> r == Parse(Absent, pos)
    ensures r.outcome.Built? ==> pos < r.next <= |tokens|
  {
    if pos >= |tokens| || tokens[pos].kind.EOF? then Parse(Absent, pos)
    else
      var e := BinaryAt(tokens, pos, 0);
      match e.outcome
      case Built(tree) => Parse(Built(ExpressionStmt(tree)), e.next)
      case Absent => Parse(Absent, e.next)
      case Panicked => Parse(Panicked, e.next)
  }

  /** `next_statement` with the cursor at `pos`. */
  function NextStatementAt(tokens: seq<Token>, pos: nat): (r: Parse<Stmt>)
    ensures r.outcome == StatementAt(tokens, pos).outcome
    ensures r.outcome.Built? ==> r.next == StatementAt(tokens, pos).next + 1
    ensures r.outcome.Built? ==> pos + 1 < r.next <= |tokens| + 1
  {
    var s := StatementAt(tokens, pos);
    if s.outcome.Built? then Parse(s.outcome, s.next + 1) else s
  }

  /** The statements repeated `next_statement` calls yield from `pos` until one returns `None`. */
  function StatementsFrom(tokens: seq<Token>, pos: nat): (r: Outcome<seq<Stmt>>)
    ensures !r.Absent?
    decreases |tokens| + 1 - pos
  {
    var s := NextStatementAt(tokens, pos);
    match s.outcome
    case Absent => Built([])
    case Panicked => Panicked
    case Built(st) =>
      var rest := StatementsFrom(tokens, s.next);
      if rest.Built? then Built([st] + rest.tree) else Panicked
  }

  /** Every statement of a parsed program carries the canonical precedence on each of its operators. */
  lemma {:induction false} ProgramIsWellFormed(tokens: seq<Token>, pos: nat)
    ensures var r := StatementsFrom(tokens, pos);
      r.Built? ==> forall i :: 0 <= i < |r.tree| ==> WellFormed(r.tree[i].expr)
    decreases |tokens| + 1 - pos
  {
    var s := NextStatementAt(tokens, pos);
    var r := StatementsFrom(tokens, pos);
    if s.outcome.Built? && r.Built? {
      StatementIsFaithful(tokens, pos);
      ProgramIsWellFormed(tokens, s.next);
      var rest := StatementsFrom(tokens, s.next);
      assert r.tree == [s.outcome.tree] + rest.tree;
      forall i | 0 <= i < |r.tree|
        ensures WellFormed(r.tree[i].expr)
      {
        if i > 0 {
          assert r.tree[i] == rest.tree[i - 1];
        }
      }
    }
  }

  // ----- properties of the parse -----

  /** The values of the Number tokens of `ts`, in order. */
  function NumbersIn(ts: seq<Token>): seq<int> {
    if ts == [] then []
    else (if ts[0].kind.Number? then [ts[0].kind.value] else []) + NumbersIn(ts[1..])
  }

  /** How many tokens of `ts` have kind `k`. */
  function CountKind(ts: seq<Token>, k: TokenKind): nat {
    if ts == [] then 0 else (if ts[0].kind == k then 1 else 0) + CountKind(ts[1..], k)
  }

  /** The number of parenthesized nodes of the tree. */
  function Groups(e: Expr): nat {
    match e
    case Number(_) => 0
    case Binary(l, r, _) => Groups(l) + Groups(r)
    case Parenthesized(inner) => 1 + Groups(inner)
  }

  lemma {:induction false} CensusSplit(ts: seq<Token>, i: nat)
    requires i <= |ts|
    ensures NumbersIn(ts) == NumbersIn(ts[..i]) + NumbersIn(ts[i..])
    ensures CountKind(ts, LParen) == CountKind(ts[..i], LParen) + CountKind(ts[i..], LParen)
    ensures CountKind(ts, RParen) == CountKind(ts[..i], RParen) + CountKind(ts[i..], RParen)
  {
    if i > 0 {
      CensusSplit(ts[1..], i - 1);
      assert ts[1..][..i - 1] == ts[..i][1..];
      assert ts[1..][i - 1..] == ts[i..];
    } else {
      assert ts[..0] == [] && ts[0..] == ts;
    }
  }

  /** What the tokens of `tokens[from..to]` hold, split at `mid`. */
  lemma CensusOfRange(tokens: seq<Token>, from: nat, mid: nat, to: nat)
    requires from <= mid <= to <= |tokens|
    ensures NumbersIn(tokens[from..to]) == NumbersIn(tokens[from..mid]) + NumbersIn(tokens[mid..to])
    ensures CountKind(tokens[from..to], LParen) == CountKind(tokens[from..mid], LParen) + CountKind(tokens[mid..to], LParen)
    ensures CountKind(tokens[from..to], RParen) == CountKind(tokens[from..mid], RParen) + CountKind(tokens[mid..to], RParen)
  {
    CensusSplit(tokens[from..to], mid - from);
    assert tokens[from..to][..mid - from] == tokens[from..mid];
    assert tokens[from..to][mid - from..] == tokens[mid..to];
  }

  /** A one-token range holds that token's number, if any, and counts its kind once. */
  lemma CensusOfOne(tokens: seq<Token>, i: nat)
    requires i < |tokens|
    ensures NumbersIn(tokens[i..i + 1]) == if tokens[i].kind.Number? then [tokens[i].kind.value] else []
    ensures CountKind(tokens[i..i + 1], LParen) == if tokens[i].kind.LParen? then 1 else 0
    ensures CountKind(tokens[i..i + 1], RParen) == if tokens[i].kind.RParen? then 1 else 0
  {
    assert tokens[i..i + 1][1..] == [];
  }

  /** What a successful parse of `tokens[pos..next]` keeps of those tokens. */
  ghost predicate Faithful(tokens: seq<Token>, pos: nat, next: nat, tree: Expr)
    requires pos <= next <= |tokens|
  {
    && WellFormed(tree)
    && Leaves(tree) == NumbersIn(tokens[pos..next])
    && Groups(tree) == CountKind(tokens[pos..next], LParen) == CountKind(tokens[pos..next], RParen)
  }

  /**
   * A tree `parse_primary_expression` builds has the canonical precedence on every operator, its
   * literals are exactly the Number tokens it consumed, in order, and it has one group per `(`
   * and per `)` it consumed.
   */
  lemma {:induction false} PrimaryIsFaithful(tokens: seq<Token>, pos: nat)
    ensures var r := PrimaryAt(tokens, pos);
      r.outcome.Built? ==> Faithful(tokens, pos, r.next, r.outcome.tree)
    decreases |tokens| - pos, 0
  {
    var r := PrimaryAt(tokens, pos);
    if r.outcome.Built? {
      CensusOfOne(tokens, pos);
      if tokens[pos].kind.LParen? {
        var inner := BinaryAt(tokens, pos + 1, 0);
        BinaryIsFaithful(tokens, pos + 1, 0);
        GroupIsFaithful(tokens, pos, inner.next, inner.outcome.tree);
      }
    }
  }

  /** A faithful tree between a `(` and a `)` makes a faithful group over both parentheses. */
  lemma GroupIsFaithful(tokens: seq<Token>, open: nat, close: nat, tree: Expr)
    requires open < close < |tokens|
    requires tokens[open].kind.LParen? && tokens[close].kind.RParen?
    requires Faithful(tokens, open + 1, close, tree)
    ensures Faithful(tokens, open, close + 1, Parenthesized(tree))
  {
    GroupNumbers(tokens, open, close, Leaves(tree));
    GroupCounts(tokens, open, close, Groups(tree));
  }

  lemma GroupNumbers(tokens: seq<Token>, open: nat, close: nat, inner: seq<int>)
    requires open < close < |tokens|
    requires tokens[open].kind.LParen? && tokens[close].kind.RParen?
    requires inner == NumbersIn(tokens[open + 1..close])
    ensures inner == NumbersIn(tokens[open..close + 1])
  {
    var before := NumbersIn(tokens[open..open + 1]);
    var after := NumbersIn(tokens[close..close + 1]);
    var afterOpen := NumbersIn(tokens[open + 1..close + 1]);
    assert before == [] by { CensusOfOne(tokens, open); }
    assert after == [] by { CensusOfOne(tokens, close); }
    assert afterOpen == inner + after by { CensusOfRange(tokens, open + 1, close, close + 1); }
    assert NumbersIn(tokens[open..close + 1]) == before + afterOpen by { CensusOfRange(tokens, open, open + 1, close + 1); }
    ConcatAroundGroup(before, inner, after, afterOpen, NumbersIn(tokens[open..close + 1]));
  }


  lemma GroupCounts(tokens: seq<Token>, open: nat, close: nat, groups: nat)
    requires open < close < |tokens|
    requires tokens[open].kind.LParen? && tokens[close].kind.RParen?
    requires groups == CountKind(tokens[open + 1..close], LParen) == CountKind(tokens[open + 1..close], RParen)
    ensures 1 + groups == CountKind(tokens[open..close + 1], LParen) == CountKind(tokens[open..close + 1], RParen)
  {
    assert CountKind(tokens[open..open + 1], LParen) == 1 && CountKind(tokens[open..open + 1], RParen) == 0 by {
      CensusOfOne(tokens, open);
    }
    assert CountKind(tokens[close..close + 1], LParen) == 0 && CountKind(tokens[close..close + 1], RParen) == 1 by {
      CensusOfOne(tokens, close);
    }
    var whole, afterOpen := tokens[open..close + 1], tokens[open + 1..close + 1];
    assert CountKind(whole, LParen) == CountKind(tokens[open..open + 1], LParen) + CountKind(afterOpen, LParen)
        && CountKind(whole, RParen) == CountKind(tokens[open..open + 1], RParen) + CountKind(afterOpen, RParen) by {
      CensusOfRange(tokens, open, open + 1, close + 1);
    }
    assert CountKind(afterOpen, LParen) == groups + CountKind(tokens[close..close + 1], LParen)
        && CountKind(afterOpen, RParen) == groups + CountKind(tokens[close..close + 1], RParen) by {
      CensusOfRange(tokens, open + 1, close, close + 1);
    }
  }


  /** Sequence bookkeeping for a pair of parentheses, which hold no numbers of their own. */
  lemma ConcatAroundGroup(open: seq<int>, inner: seq<int>, close: seq<int>, afterOpen: seq<int>, all: seq<int>)
    requires open == [] && close == []
    requires all == open + afterOpen && afterOpen == inner + close
    ensures all == inner
  {
    assert afterOpen == inner;
  }

  /** `parse_binary_expression` builds trees as faithful as its primaries. */
  lemma {:induction false} BinaryIsFaithful(tokens: seq<Token>, pos: nat, min: nat)
    ensures var r := BinaryAt(tokens, pos, min);
      r.outcome.Built? ==> Faithful(tokens, pos, r.next, r.outcome.tree)
    decreases |tokens| - pos, 1
  {
    var first := PrimaryAt(tokens, pos);
    PrimaryIsFaithful(tokens, pos);
    if first.outcome.Built? {
      var r := LoopAt(tokens, first.outcome.tree, first.next, min);
      LoopIsFaithful(tokens, first.outcome.tree, first.next, min);
      if r.outcome.Built? {
        CensusOfRange(tokens, pos, first.next, r.next);
      }
    }
  }

  /** The loop extends a faithful left operand with the tokens it consumes, dropped operators included. */
  lemma {:induction false} LoopIsFaithful(tokens: seq<Token>, left: Expr, pos: nat, min: nat)
    requires pos <= |tokens|
    ensures var r := LoopAt(tokens, left, pos, min);
      r.outcome.Built? && WellFormed(left) ==> Extends(tokens, left, pos, r.next, r.outcome.tree)
    decreases |tokens| - pos, 0
  {
    var r := LoopAt(tokens, left, pos, min);
    match OperatorAt(tokens, pos)
    case None =>
      assert tokens[pos..pos] == [];
    case Some(op) =>
      CensusOfOne(tokens, pos);
      if op.precedence >= min {
        var right := BinaryAt(tokens, pos + 1, op.precedence);
        BinaryIsFaithful(tokens, pos + 1, op.precedence);
        if right.outcome.Built? {
          var combined := Binary(left, right.outcome.tree, op);
          LoopIsFaithful(tokens, combined, right.next, min);
          if r.outcome.Built? && WellFormed(left) {
            ExtendsThroughOperator(tokens, left, op, right.outcome.tree, pos, right.next, r.next, r.outcome.tree);
          }
        }
      }
  }

  /** `tree` is `left` extended by the tokens `tokens[pos..next]`. */
  ghost predicate Extends(tokens: seq<Token>, left: Expr, pos: nat, next: nat, tree: Expr)
    requires pos <= next <= |tokens|
  {
    && WellFormed(tree)
    && Leaves(tree) == Leaves(left) + NumbersIn(tokens[pos..next])
    && Groups(tree) == Groups(left) + CountKind(tokens[pos..next], LParen)
    && CountKind(tokens[pos..next], LParen) == CountKind(tokens[pos..next], RParen)
  }

  lemma ExtendsThroughOperator(tokens: seq<Token>, left: Expr, op: BinOp, right: Expr, pos: nat, mid: nat, next: nat, tree: Expr)
    requires pos < mid <= next <= |tokens|
    requires OperatorFor(tokens[pos].kind) == Some(op) && WellFormed(left)
    requires Faithful(tokens, pos + 1, mid, right)
    requires Extends(tokens, Binary(left, right, op), mid, next, tree)
    ensures Extends(tokens, left, pos, next, tree)
  {
    CensusOfOne(tokens, pos);
    CensusOfRange(tokens, pos, pos + 1, next);
    CensusOfRange(tokens, pos + 1, mid, next);
    ConcatThroughOperator(Leaves(left), NumbersIn(tokens[pos..pos + 1]), Leaves(right), NumbersIn(tokens[pos + 1..next]),
      NumbersIn(tokens[mid..next]), NumbersIn(tokens[pos..next]), Leaves(tree));
  }

  /** Sequence bookkeeping for an operator token, which holds no number of its own. */
  lemma ConcatThroughOperator(left: seq<int>, op: seq<int>, right: seq<int>, afterOp: seq<int>, rest: seq<int>, consumed: seq<int>, all: seq<int>)
    requires op == [] && consumed == op + afterOp && afterOp == right + rest
    requires all == left + right + rest
    ensures all == left + consumed
  {
    assert consumed == right + rest;
  }

  /** A statement `parse_statement` builds is faithful to the tokens it consumed. */
  lemma StatementIsFaithful(tokens: seq<Token>, pos: nat)
    ensures var r := StatementAt(tokens, pos);
      r.outcome.Built? ==> Faithful(tokens, pos, r.next, r.outcome.tree.expr)
  {
    if pos < |tokens| {
      BinaryIsFaithful(tokens, pos, 0);
    }
  }

  // ----- where the parser stops -----

  /**
   * An operator below the minimum precedence ends the loop only after it has been consumed, so
   * the cursor is left past it.
   */
  lemma OperatorBelowMinIsConsumed(tokens: seq<Token>, left: Expr, pos: nat, min: nat)
    requires pos <= |tokens|
    requires OperatorAt(tokens, pos).Some? && OperatorAt(tokens, pos).value.precedence < min
    ensures LoopAt(tokens, left, pos, min) == Parse(Built(left), pos + 1)
  {
  }

  /**
   * A statement that starts at a token other than a number, `(` or EOF is `None`, which ends the
   * statement loop quietly, with no statements from there on.
   */
  lemma UnexpectedTokenEndsProgram(tokens: seq<Token>, pos: nat)
    requires pos < |tokens|
    requires !(tokens[pos].kind.Number? || tokens[pos].kind.LParen? || tokens[pos].kind.EOF?)
    ensures StatementsFrom(tokens, pos) == Built([])
  {
    assert PrimaryAt(tokens, pos).outcome == Absent;
    assert BinaryAt(tokens, pos, 0).outcome == Absent;
    assert StatementAt(tokens, pos).outcome == Absent;
    assert NextStatementAt(tokens, pos).outcome == Absent;
  }

  // ----- where the parser panics -----

  /** A `(` whose inner expression is followed by a token other than `)` panics. */
  lemma UnclosedGroupPanics(tokens: seq<Token>, pos: nat)
    requires pos < |tokens| && tokens[pos].kind.LParen?
    requires var inner := BinaryAt(tokens, pos + 1, 0);
      inner.outcome.Built? && inner.next < |tokens| && !tokens[inner.next].kind.RParen?
    ensures PrimaryAt(tokens, pos).outcome == Panicked
  {
  }

  /** No token from `pos` on is `(`. */
  ghost predicate NoOpenParenFrom(tokens: seq<Token>, pos: nat) {
    forall i :: pos <= i < |tokens| ==> !tokens[i].kind.LParen?
  }

  /** Without a `(` ahead, a primary expression never panics. */
  lemma PrimaryPanicsOnlyAtParen(tokens: seq<Token>, pos: nat)
    requires NoOpenParenFrom(tokens, pos)
    ensures PrimaryAt(tokens, pos).outcome != Panicked
  {
    if pos < |tokens| {
      assert !tokens[pos].kind.LParen?;
    }
  }

  /** Without a `(` ahead, a binary expression never panics. */
  lemma {:induction false} BinaryPanicsOnlyAtParen(tokens: seq<Token>, pos: nat, min: nat)
    requires NoOpenParenFrom(tokens, pos)
    ensures BinaryAt(tokens, pos, min).outcome != Panicked
    decreases |tokens| - pos, 1
  {
    PrimaryPanicsOnlyAtParen(tokens, pos);
    var first := PrimaryAt(tokens, pos);
    if first.outcome.Built? {
      LoopPanicsOnlyAtParen(tokens, first.outcome.tree, first.next, min);
    }
  }

  /** Without a `(` ahead, the operator loop never panics. */
  lemma {:induction false} LoopPanicsOnlyAtParen(tokens: seq<Token>, left: Expr, pos: nat, min: nat)
    requires pos <= |tokens| && NoOpenParenFrom(tokens, pos)
    ensures LoopAt(tokens, left, pos, min).outcome != Panicked
    decreases |tokens| - pos, 0
  {
    match OperatorAt(tokens, pos)
    case None =>
    case Some(op) =>
      if op.precedence >= min {
        BinaryPanicsOnlyAtParen(tokens, pos + 1, op.precedence);
        var right := BinaryAt(tokens, pos + 1, op.precedence);
        if right.outcome.Built? {
          LoopPanicsOnlyAtParen(tokens, Binary(left, right.outcome.tree, op), right.next, min);
        }
      }
  }

  /** Without a `(` ahead, collecting statements never ends in a panic. */
  lemma {:induction false} StatementsPanicOnlyAtParen(tokens: seq<Token>, pos: nat)
    requires NoOpenParenFrom(tokens, pos)
    ensures StatementsFrom(tokens, pos) != Panicked
    decreases |tokens| + 1 - pos
  {
    if pos < |tokens| && !tokens[pos].kind.EOF? {
      BinaryPanicsOnlyAtParen(tokens, pos, 0);
    }
    var s := NextStatementAt(tokens, pos);
    if s.outcome.Built? {
      StatementsPanicOnlyAtParen(tokens, s.next);
    }
  }

  /** Right-grouped tree of a chain `values[0] ops[0] values[1] ... values[n]`. */
  function RightGrouped(values: seq<int>, ops: seq<BinOp>): Expr
    requires |values| == |ops| + 1
  {
    if ops == [] then Expr.Number(values[0])
    else Binary(Expr.Number(values[0]), RightGrouped(values[1..], ops[1..]), ops[0])
  }

  /** `tokens` holds, from `pos` on, numbers with the given values alternating with the given operators. */
  ghost predicate IsChain(tokens: seq<Token>, pos: nat, values: seq<int>, ops: seq<BinOp>)
  {
    && |values| == |ops| + 1
    && pos + 2 * |ops| < |tokens|
    && (forall i :: 0 <= i < |values| ==> tokens[pos + 2 * i].kind == TokenKind.Number(values[i]))
    && (forall i :: 0 <= i < |ops| ==> OperatorFor(tokens[pos + 2 * i + 1].kind) == Some(ops[i]))
  }

  /**
   * Operators of one precedence group to the right: the tokens of `1 - 2 - 3` parse as
   * `1 - (2 - 3)`, because the right operand is parsed at the operator's own precedence.
   */
  lemma {:induction false} EqualPrecedenceGroupsRight(tokens: seq<Token>, pos: nat, values: seq<int>, ops: seq<BinOp>, min: nat)
    requires IsChain(tokens, pos, values, ops)
    requires forall i :: 0 <= i < |ops| ==> min <= ops[i].precedence == ops[0].precedence
    requires OperatorAt(tokens, pos + 2 * |ops| + 1) == None
    ensures BinaryAt(tokens, pos, min) == Parse(Built(RightGrouped(values, ops)), pos + 2 * |ops| + 1)
    decreases |ops|
  {
    assert tokens[pos].kind == TokenKind.Number(values[0]);
    if ops != [] {
      assert IsChain(tokens, pos + 2, values[1..], ops[1..]) by {
        forall i | 0 <= i < |values| - 1 ensures tokens[pos + 2 + 2 * i].kind == TokenKind.Number(values[1..][i]) {
          assert tokens[pos + 2 * (i + 1)].kind == TokenKind.Number(values[i + 1]);
        }
        forall i | 0 <= i < |ops| - 1 ensures OperatorFor(tokens[pos + 2 + 2 * i + 1].kind) == Some(ops[1..][i]) {
          assert OperatorFor(tokens[pos + 2 * (i + 1) + 1].kind) == Some(ops[i + 1]);
        }
      }
      assert OperatorFor(tokens[pos + 1].kind) == Some(ops[0]);
      EqualPrecedenceGroupsRight(tokens, pos + 2, values[1..], ops[1..], ops[0].precedence);
      var end := pos + 2 * |ops| + 1;
      assert pos + 2 + 2 * |ops[1..]| + 1 == end;
      assert OperatorAt(tokens, pos + 1) == Some(ops[0]);
      var tree := Binary(Expr.Number(values[0]), RightGrouped(values[1..], ops[1..]), ops[0]);
      assert LoopAt(tokens, tree, end, min) == Parse(Built(tree), end);
      assert LoopAt(tokens, Expr.Number(values[0]), pos + 1, min) == Parse(Built(tree), end);
    }
  }

  // ----- the imperative parser -----

  class Parser {
    const tokens: seq<Token>
    var current: nat

    /** `Parser::from_tokens`: the cursor starts at the first token. */
    constructor FromTokens(tokens: seq<Token>)
      ensures this.tokens == tokens && current == 0
    {
      this.tokens := tokens;
      current := 0;
    }

    /** `peek(offset)`: the token `offset` places from the cursor, if there is one. */
    function Peek(offset: int): (t: Option<Token>)
      reads this
      ensures t.Some? <==> 0 <= current + offset < |tokens|
      ensures t.Some? ==> t.value == tokens[current + offset]
    {
      TokenAt(tokens, current + offset)
    }

    /** `current`: the token at the cursor. */
    function Current(): (t: Option<Token>)
      reads this
      ensures t.Some? <==> current < |tokens|
      ensures t.Some? ==> t.value == tokens[current]
    {
      Peek(0)
    }

    /** `consume`: always advances the cursor by one, returning the token passed over. */
    method Consume() returns (token: Option<Token>)
      modifies this
      ensures current == old(current) + 1
      ensures token == TokenAt(tokens, old(current))
    {
      current := current + 1;
      token := Peek(-1);
    }

    /** `parse_binary_operator`: reads the token at the cursor without moving it. */
    method ParseBinaryOperator() returns (op: Option<BinOp>)
      ensures op == OperatorAt(tokens, current)
      ensures op.Some? ==> current < |tokens| && op.value.precedence == PrecedenceOf(op.value.kind)
    {
      var token := Current();
      if token.None? {
        return None;
      }
      op := OperatorFor(token.value.kind);
    }

    /** `parse_primary_expression`. */
    method ParsePrimaryExpression() returns (r: Outcome<Expr>)
      modifies this
      ensures PrimaryAt(tokens, old(current)) == Parse(r, current)
      decreases |tokens| - current, 0
    {
      var token := Consume();
      if token.None? {
        return Absent;
      }
      match token.value.kind {
        case Number(v) =>
          return Built(Expr.Number(v));
        case LParen =>
          var inner := ParseExpression();
          if !inner.Built? {
            return inner;
          }
          var close := Consume();
          if close.None? {
            return Absent;
          }
          if close.value.kind != RParen {
            return Panicked;
          }
          return Built(Parenthesized(inner.tree));
        case _ =>
          return Absent;
      }
    }

    /** `parse_expression`: the binary-expression parser at minimum precedence 0. */
    method ParseExpression() returns (r: Outcome<Expr>)
      modifies this
      ensures BinaryAt(tokens, old(current), 0) == Parse(r, current)
      decreases |tokens| - current, 2
    {
      r := ParseBinaryExpression(0);
    }

    /** `parse_binary_expression(precedence)`: precedence climbing. */
    method ParseBinaryExpression(precedence: nat) returns (r: Outcome<Expr>)
      modifies this
      ensures BinaryAt(tokens, old(current), precedence) == Parse(r, current)
      decreases |tokens| - current, 1
    {
      ghost var start := current;
      var first := ParsePrimaryExpression();
      if !first.Built? {
        return first;
      }
      var left := first.tree;
      while true
        invariant start < current <= |tokens|
        invariant LoopAt(tokens, left, current, precedence) == BinaryAt(tokens, start, precedence)
        decreases |tokens| - current
      {
        var op := ParseBinaryOperator();
        if op.None? {
          break;
        }
        var _ := Consume();
        if op.value.precedence < precedence {
          break;
        }
        var right := ParseBinaryExpression(op.value.precedence);
        if !right.Built? {
          return right;
        }
        left := Binary(left, right.tree, op.value);
      }
      return Built(left);
    }

    /** `parse_statement`: nothing at EOF or past the tokens, otherwise one expression statement. */
    method ParseStatement() returns (r: Outcome<Stmt>)
      modifies this
      ensures StatementAt(tokens, old(current)) == Parse(r, current)
    {
      var token := Current();
      if token.None? || token.value.kind == EOF {
        return Absent;
      }
      var e := ParseExpression();
      match e {
        case Built(tree) => return Built(ExpressionStmt(tree));
        case Absent => return Absent;
        case Panicked => return Panicked;
      }
    }

    /** `next_statement`: a statement, after which the cursor skips one more token. */
    method NextStatement() returns (r: Outcome<Stmt>)
      modifies this
      ensures NextStatementAt(tokens, old(current)) == Parse(r, current)
    {
      r := ParseStatement();
      if r.Built? {
        current := current + 1;
      }
    }
  }
}
