/**
 * The lexer of src/ast/lexer.rs: a cursor over the input that yields one token per call — a maximal
 * run of decimal digits, one punctuation character, or BAD for any other character — then exactly
 * one EOF token, then nothing. The input is a string of ASCII characters, so a character index and
 * a byte offset coincide.
 */
module Lexer {
  import opened Wrappers
  import opened Digits

  datatype TokenKind =
    | Identifier(name: string)  // declared by the source, never produced
    | Number(value: int)
    | Plus
    | Minus
    | Star
    | Slash
    | LParen
    | RParen
    | EOF
    | BAD

  /** The offsets `[start, end)` of a token and the text between them. */
  datatype Span = Span(start: nat, end: nat, literal: string) {
    /** `Span::length`; the source's `usize` subtraction needs `start <= end`. */
    function Length(): (n: nat)
      requires start <= end
      ensures start + n == end
    {
      end - start
    }
  }

  datatype Token = Token(kind: TokenKind, span: Span)

  /** The kind `consume_ponctuation` gives to a single character. */
  function PunctuationKind(c: char): (k: TokenKind)
    ensures k.BAD? <==> c !in "+-*/()"
  {
    match c
    case '+' => Plus
    case '-' => Minus
    case '*' => Star
    case '/' => Slash
    case '(' => LParen
    case ')' => RParen
    case _ => BAD
  }

  /** The end of the maximal run of digits that starts at `i`. */
  function DigitRunEnd(input: string, i: nat): (end: nat)
    requires i <= |input|
    ensures i <= end <= |input|
    ensures AllDigits(input[i..end])
    ensures end == |input| || !IsDigit(input[end])
    decreases |input| - i
  {
    if i < |input| && IsDigit(input[i]) then DigitRunEnd(input, i + 1) else i
  }

  /** What one `next_token` call returns and where it leaves the cursor. */
  datatype Lexed = Lexed(token: Option<Token>, next: nat)

  /** One `next_token` call on `input` with the cursor at `pos`. */
  function Step(input: string, pos: nat): (r: Lexed)
    ensures r.token.None? <==> pos > |input|
    ensures r.token.None? ==> r.next == pos
    ensures r.token.Some? ==> pos < r.next <= |input| + 1
    ensures r.token.Some? ==> (r.token.value.kind.EOF? <==> pos == |input|)
    ensures r.token.Some? && !r.token.value.kind.EOF? ==>
              var span := r.token.value.span;
              span.start == pos < span.end == r.next <= |input| && span.literal == input[pos..r.next]
    ensures r.token.Some? ==> !r.token.value.kind.Identifier?
  {
    if pos == |input| then
      Lexed(Some(Token(EOF, Span(pos + 1, pos + 1, "\0"))), pos + 1)
    else if pos > |input| then
      Lexed(None, pos)
    else if IsDigit(input[pos]) then
      var end := DigitRunEnd(input, pos);
      Lexed(Some(Token(Number(DecimalValue(input[pos..end])), Span(pos, end, input[pos..end]))), end)
    else
      Lexed(Some(Token(PunctuationKind(input[pos]), Span(pos, pos + 1, input[pos..pos + 1]))), pos + 1)
  }

  /** Every token the lexer yields from cursor `pos` on, up to the first `None`. */
  function Tokens(input: string, pos: nat): (r: seq<Token>)
    ensures r == [] <==> pos > |input|
    ensures forall i :: 0 <= i < |r| ==> !r[i].kind.Identifier?
    decreases |input| + 1 - pos
  {
    var step := Step(input, pos);
    if step.token.None? then [] else [step.token.value] + Tokens(input, step.next)
  }

  /** The literals of the non-EOF tokens of `tokens`, concatenated. */
  function Literals(tokens: seq<Token>): string {
    if tokens == [] then []
    else (if tokens[0].kind.EOF? then [] else tokens[0].span.literal) + Literals(tokens[1..])
  }

  // ----- properties of the token sequence -----

  /** On empty input the lexer yields EOF and then nothing. */
  lemma EmptyInputYieldsOnlyEof()
    ensures Tokens("", 0) == [Token(EOF, Span(1, 1, "\0"))]
  {
    assert Step("", 0).next == 1;
    assert Tokens("", 1) == [];
  }

  /**
   * A digit at the cursor yields a Number token over the maximal digit run there, holding the
   * decimal value of that run; any other character yields a one-character token of its
   * punctuation kind.
   */
  lemma {:induction false} TokenKindFollowsFirstCharacter(input: string, pos: nat)
    requires pos < |input|
    ensures var r := Step(input, pos);
      && r.token.Some?
      && (IsDigit(input[pos]) ==>
            && r.token.value.kind.Number?
            && AllDigits(input[pos..r.next])
            && r.token.value.kind.value == DecimalValue(input[pos..r.next])
            && (r.next == |input| || !IsDigit(input[r.next])))
      && (!IsDigit(input[pos]) ==> r.next == pos + 1 && r.token.value.kind == PunctuationKind(input[pos]))
  {
  }

  /**
   * From a cursor within the input there are at most `|input| + 1 - pos` tokens, the last one
   * is the only EOF, and it spans the empty range just past the end of the input.
   */
  lemma {:induction false} TokensEndWithSingleEof(input: string, pos: nat)
    requires pos <= |input|
    ensures var ts := Tokens(input, pos);
      && 1 <= |ts| <= |input| + 1 - pos
      && ts[|ts| - 1] == Token(EOF, Span(|input| + 1, |input| + 1, "\0"))
      && forall i :: 0 <= i < |ts| - 1 ==> !ts[i].kind.EOF?
    decreases |input| - pos
  {
    var step := Step(input, pos);
    if pos == |input| {
      assert Tokens(input, step.next) == [];
    } else {
      TokensEndWithSingleEof(input, step.next);
    }
  }

  /** Every token's span is non-empty except EOF's, and its length is that of its literal. */
  lemma {:induction false} SpanLengths(input: string, pos: nat)
    ensures forall t :: t in Tokens(input, pos) ==>
      t.span.start <= t.span.end &&
      t.span.Length() == (if t.kind.EOF? then 0 else |t.span.literal|) &&
      (!t.kind.EOF? ==> t.span.Length() > 0)
    decreases |input| + 1 - pos
  {
    var step := Step(input, pos);
    if step.token.Some? {
      SpanLengths(input, step.next);
    }
  }

  /** Each token other than EOF starts where the previous token ended. */
  lemma {:induction false} TokensAreContiguous(input: string, pos: nat)
    ensures var ts := Tokens(input, pos);
      forall i :: 0 < i < |ts| && !ts[i].kind.EOF? ==> ts[i].span.start == ts[i - 1].span.end
    ensures var ts := Tokens(input, pos);
      |ts| > 0 && !ts[0].kind.EOF? ==> ts[0].span.start == pos
    decreases |input| + 1 - pos
  {
    var step := Step(input, pos);
    if step.token.Some? {
      TokensAreContiguous(input, step.next);
      var ts := Tokens(input, pos);
      var rest := Tokens(input, step.next);
      assert ts == [step.token.value] + rest;
      forall i | 0 < i < |ts| && !ts[i].kind.EOF?
        ensures ts[i].span.start == ts[i - 1].span.end
      {
        if i == 1 {
          assert ts[1] == rest[0];
          assert rest[0].span.start == step.next;
        } else {
          assert ts[i] == rest[i - 1] && ts[i - 1] == rest[i - 2];
        }
      }
    }
  }

  /** Concatenating the literals of all tokens other than EOF gives back the input from `pos`. */
  lemma {:induction false} LiteralsReproduceInput(input: string, pos: nat)
    requires pos <= |input|
    ensures Literals(Tokens(input, pos)) == input[pos..]
    decreases |input| - pos
  {
    var step := Step(input, pos);
    var ts := Tokens(input, pos);
    if pos == |input| {
      assert Tokens(input, step.next) == [];
      assert ts[1..] == [];
    } else {
      LiteralsReproduceInput(input, step.next);
      assert ts[1..] == Tokens(input, step.next);
      assert input[pos..] == input[pos..step.next] + input[step.next..];
    }
  }

  // ----- the imperative lexer -----

  class Lexer {
    const input: string
    var position: nat

    /** `Lexer::new`: the cursor starts at the beginning of the input. */
    constructor (input: string)
      ensures this.input == input && position == 0
    {
      this.input := input;
      position := 0;
    }

    /** `peek`: the character at the cursor, if any. */
    function Peek(): (c: Option<char>)
      reads this
      ensures c.Some? <==> position < |input|
      ensures c.Some? ==> c.value == input[position]
    {
      if position < |input| then Some(input[position]) else None
    }

    /** `is_number_start`: the cursor is at a decimal digit. */
    predicate IsNumberStart(): (b: bool)
      reads this
      ensures b <==> position < |input| && IsDigit(input[position])
    {
      match Peek()
      case Some(c) => IsDigit(c)
      case None => false
    }

    /** `consume`: returns the character at the cursor and steps past it, if there is one. */
    method Consume() returns (c: Option<char>)
      modifies this
      ensures c == old(Peek())
      ensures position == if c.Some? then old(position) + 1 else old(position)
    {
      c := Peek();
      if c.Some? {
        position := position + 1;
      }
    }

    /** `consume_ponctuation`: consumes one character and classifies it; the source unwraps it. */
    method ConsumePunctuation() returns (kind: TokenKind)
      requires position < |input|
      modifies this
      ensures position == old(position) + 1
      ensures kind == PunctuationKind(input[old(position)])
    {
      var c := Consume();
      kind := PunctuationKind(c.value);
    }

    /** `consume_number`: consumes the maximal digit run at the cursor and returns its decimal value. */
    method ConsumeNumber() returns (number: int)
      modifies this
      ensures old(position) <= |input| ==>
                position == DigitRunEnd(input, old(position)) &&
                number == DecimalValue(input[old(position)..position])
      ensures old(position) > |input| ==> position == old(position) && number == 0
    {
      number := 0;
      ghost var start := position;
      while true
        invariant start <= |input| ==>
                    start <= position <= |input| &&
                    DigitRunEnd(input, position) == DigitRunEnd(input, start) &&
                    AllDigits(input[start..position]) &&
                    number == DecimalValue(input[start..position])
        invariant start > |input| ==> position == start && number == 0
        decreases |input| - position
      {
        var c := Peek();
        if c.None? {
          break;
        }
        if IsDigit(c.value) {
          assert start <= position < |input|;
          assert input[start..position + 1][..position - start] == input[start..position];
          number := number * 10 + DigitValue(c.value);
          c := Consume();
        } else {
          break;
        }
      }
    }

    /** `next_token`: one step of the lexer, exactly as `Step` describes it. */
    method NextToken() returns (token: Option<Token>)
      modifies this
      ensures Step(input, old(position)) == Lexed(token, position)
      ensures position >= old(position)
    {
      if position == |input| {
        position := position + 1;
        return Some(Token(EOF, Span(position, position, "\0")));
      }
      if position > |input| {
        return None;
      }
      var kind: TokenKind;
      var start := position;
      if IsNumberStart() {
        var number := ConsumeNumber();
        kind := Number(number);
      } else {
        kind := ConsumePunctuation();
      }
      var end := position;
      var literal := input[start..end];
      return Some(Token(kind, Span(start, end, literal)));
    }
  }
}
