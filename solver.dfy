/** The postfix solver (solver.py): reduces a postfix queue with a stack of values. */
module Solver {
  import opened Errors
  import opened Operands
  import opened Lexer

  /** The string `_handle_operation` receives for a non-number queue entry. */
  function TokenText(t: Token): string
    requires !t.Number?
  {
    match t
    case Symbol(s) => s
    case LeftParen => "("
    case RightParen => ")"
  }

  /** How many values an operator takes off the stack. */
  function Needed(op: Operator): nat {
    if op.kind.Arity() == Binary then 2 else 1
  }

  /** `_handle_operation(symbol, stack)` on the stack's contents (top last): an unknown
      symbol and too few values are errors; a binary operator pops the right operand, then the
      left one, and pushes `calculate(left, right)`; a unary one replaces the top value. The
      errors `calculate` raises pass through. */
  function Operation(ops: map<string, Operator>, rt: Runtime, symbol: string, stack: seq<real>): (r: Result<seq<real>>)
    ensures symbol !in ops ==> r == Err(UnknownOperatorSymbol(symbol))
    ensures symbol in ops && |stack| < Needed(ops[symbol]) ==> r == Err(NotEnoughValues(symbol))
    ensures r.Err? ==> r.error == UnknownOperatorSymbol(symbol) || r.error == NotEnoughValues(symbol) ||
                       r.error.IsDomainError()
    ensures r.Ok? ==> symbol in ops && |stack| >= Needed(ops[symbol]) &&
                      |r.value| == |stack| - Needed(ops[symbol]) + 1 &&
                      r.value[..|r.value| - 1] == stack[..|stack| - Needed(ops[symbol])]
    ensures r.Ok? && ops[symbol].kind.Arity() == Binary ==>
              ApplyBinary(rt, ops[symbol].kind, stack[|stack| - 2], stack[|stack| - 1]) == Ok(r.value[|r.value| - 1])
    ensures r.Ok? && ops[symbol].kind.Arity() == Unary ==>
              ApplyUnary(rt, ops[symbol].kind, stack[|stack| - 1]) == Ok(r.value[|r.value| - 1])
  {
    if symbol !in ops then Err(UnknownOperatorSymbol(symbol))
    else
      var op := ops[symbol];
      if op.kind.Arity() == Binary then
        if |stack| < 2 then Err(NotEnoughValues(symbol))
        else
          var right := stack[|stack| - 1];
          var left := stack[|stack| - 2];
          match ApplyBinary(rt, op.kind, left, right)
          case Err(e) => Err(e)
          case Ok(v) => Ok(stack[..|stack| - 2] + [v])
      else
        if |stack| < 1 then Err(NotEnoughValues(symbol))
        else
          match ApplyUnary(rt, op.kind, stack[|stack| - 1])
          case Err(e) => Err(e)
          case Ok(v) => Ok(stack[..|stack| - 1] + [v])
  }

  /** The stack after working through `queue` from `stack`, or the first error, which is an
      unknown symbol, too few values, or an operator's own error. */
  function Run(ops: map<string, Operator>, rt: Runtime, queue: seq<Token>, stack: seq<real>): (r: Result<seq<real>>)
    ensures r.Err? ==> r.error.UnknownOperatorSymbol? || r.error.NotEnoughValues? || r.error.IsDomainError()
    decreases |queue|
  {
    if queue == [] then Ok(stack)
    else
      match queue[0]
      case Number(v) => Run(ops, rt, queue[1..], stack + [v])
      case _ =>
        match Operation(ops, rt, TokenText(queue[0]), stack)
        case Err(e) => Err(e)
        case Ok(next) => Run(ops, rt, queue[1..], next)
  }

  /** Working through `a + b` is working through `a`, then `b` from the stack `a` leaves. */
  lemma {:induction false} RunConcat(ops: map<string, Operator>, rt: Runtime, a: seq<Token>, b: seq<Token>,
                                     stack: seq<real>)
    ensures Run(ops, rt, a + b, stack) ==
              match Run(ops, rt, a, stack)
              case Err(e) => Err(e)
              case Ok(mid) => Run(ops, rt, b, mid)
    decreases |a|
  {
    if a == [] {
      assert a + b == b;
    } else {
      assert (a + b)[0] == a[0];
      assert (a + b)[1..] == a[1..] + b;
      match a[0]
      case Number(v) => RunConcat(ops, rt, a[1..], b, stack + [v]);
      case _ =>
        match Operation(ops, rt, TokenText(a[0]), stack)
        case Err(e) =>
        case Ok(next) => RunConcat(ops, rt, a[1..], b, next);
    }
  }

  /** `Solver.solve`: an empty queue is an error, as is a final stack that does not hold
      exactly one value; otherwise that value. */
  function ValueOf(ops: map<string, Operator>, rt: Runtime, queue: seq<Token>): (r: Result<real>)
    ensures r == Err(EmptyQueue) <==> queue == []
    ensures r.Ok? ==> Run(ops, rt, queue, []) == Ok([r.value])
    ensures r.Err? ==> r.error == EmptyQueue || r.error.WrongValueCount? || r.error.UnknownOperatorSymbol? ||
                       r.error.NotEnoughValues? || r.error.IsDomainError()
    ensures queue != [] && Run(ops, rt, queue, []).Err? ==> r == Err(Run(ops, rt, queue, []).error)
    ensures queue != [] && Run(ops, rt, queue, []).Ok? && |Run(ops, rt, queue, []).value| != 1 ==>
              r == Err(WrongValueCount(|Run(ops, rt, queue, []).value|))
  {
    if queue == [] then Err(EmptyQueue)
    else
      match Run(ops, rt, queue, [])
      case Err(e) => Err(e)
      case Ok(stack) =>
        if |stack| != 1 then Err(WrongValueCount(|stack|))
        else
          assert stack == [stack[0]];
          Ok(stack[0])
  }

  /** `_handle_operation`; the digit sum runs its own loop. */
  method HandleOperation(ops: map<string, Operator>, rt: Runtime, symbol: string, stack: seq<real>)
    returns (r: Result<seq<real>>)
    ensures r == Operation(ops, rt, symbol, stack)
  {
    if symbol !in ops {
      return Err(UnknownOperatorSymbol(symbol));
    }
    var op := ops[symbol];
    if op.kind.Arity() == Binary {
      if |stack| < 2 {
        return Err(NotEnoughValues(symbol));
      }
      var right := stack[|stack| - 1];
      var left := stack[|stack| - 2];
      var value := ApplyBinary(rt, op.kind, left, right);
      if value.Err? {
        return Err(value.error);
      }
      r := Ok(stack[..|stack| - 2] + [value.value]);
    } else {
      if |stack| < 1 {
        return Err(NotEnoughValues(symbol));
      }
      var operand := stack[|stack| - 1];
      var value: Result<real>;
      if op.kind == DigitSumOp {
        var total := DigitSum(rt, operand);
        value := Ok(total);
      } else {
        value := ApplyUnary(rt, op.kind, operand);
      }
      if value.Err? {
        return Err(value.error);
      }
      r := Ok(stack[..|stack| - 1] + [value.value]);
    }
  }

  /** `Solver.solve`: the loop over the queue with a local value stack. */
  method Solve(ops: map<string, Operator>, rt: Runtime, queue: seq<Token>) returns (r: Result<real>)
    ensures r == ValueOf(ops, rt, queue)
  {
    if |queue| == 0 {
      return Err(EmptyQueue);
    }
    var stack: seq<real> := [];
    for i := 0 to |queue|
      invariant Run(ops, rt, queue, []) == Run(ops, rt, queue[i..], stack)
    {
      assert queue[i..][1..] == queue[i + 1..];
      var token := queue[i];
      if token.Number? {
        stack := stack + [token.value];
      } else {
        var next := HandleOperation(ops, rt, TokenText(token), stack);
        if next.Err? {
          return Err(next.error);
        }
        stack := next.value;
      }
    }
    if |stack| != 1 {
      return Err(WrongValueCount(|stack|));
    }
    r := Ok(stack[|stack| - 1]);
  }

  // ---------------------------------------------------------------------------------------
  // Properties of the reduction

  /** The change in stack height a token causes: +1 for a number, -1 for a binary operator,
      0 for a unary one (and 0 for a symbol that fails the lookup). */
  function Effect(ops: map<string, Operator>, t: Token): int {
    if t.Number? then 1
    else if TokenText(t) in ops then 1 - Needed(ops[TokenText(t)]) as int
    else 0
  }

  function Net(ops: map<string, Operator>, queue: seq<Token>): int {
    if queue == [] then 0 else Effect(ops, queue[0]) + Net(ops, queue[1..])
  }

  /** On success the stack has grown by the queue's net effect. */
  lemma {:induction false} StackHeight(ops: map<string, Operator>, rt: Runtime, queue: seq<Token>, stack: seq<real>)
    requires Run(ops, rt, queue, stack).Ok?
    ensures |Run(ops, rt, queue, stack).value| == |stack| + Net(ops, queue)
    decreases |queue|
  {
    if queue != [] {
      match queue[0]
      case Number(v) => StackHeight(ops, rt, queue[1..], stack + [v]);
      case _ => StackHeight(ops, rt, queue[1..], Operation(ops, rt, TokenText(queue[0]), stack).value);
    }
  }

  /** A result means the queue's net effect is exactly one value. */
  lemma SingleValue(ops: map<string, Operator>, rt: Runtime, queue: seq<Token>)
    requires ValueOf(ops, rt, queue).Ok?
    ensures Net(ops, queue) == 1
  {
    StackHeight(ops, rt, queue, []);
  }

  /** A queue is well formed from height h when every symbol is registered, every operator
      finds enough values, and exactly one value is left at the end. */
  predicate Fits(ops: map<string, Operator>, queue: seq<Token>, h: nat)
    decreases |queue|
  {
    if queue == [] then h == 1
    else
      var t := queue[0];
      if t.Number? then Fits(ops, queue[1..], h + 1)
      else
        TokenText(t) in ops && h >= Needed(ops[TokenText(t)]) &&
        Fits(ops, queue[1..], h - Needed(ops[TokenText(t)]) + 1)
  }

  lemma {:induction false} FitsRuns(ops: map<string, Operator>, rt: Runtime, queue: seq<Token>, stack: seq<real>)
    requires Fits(ops, queue, |stack|)
    ensures Run(ops, rt, queue, stack).Ok? ==> |Run(ops, rt, queue, stack).value| == 1
    ensures Run(ops, rt, queue, stack).Err? ==> Run(ops, rt, queue, stack).error.IsDomainError()
    decreases |queue|
  {
    if queue != [] {
      match queue[0]
      case Number(v) => FitsRuns(ops, rt, queue[1..], stack + [v]);
      case _ =>
        var step := Operation(ops, rt, TokenText(queue[0]), stack);
        if step.Ok? {
          FitsRuns(ops, rt, queue[1..], step.value);
        }
    }
  }

  lemma {:induction false} RunsFit(ops: map<string, Operator>, rt: Runtime, queue: seq<Token>, stack: seq<real>)
    requires Run(ops, rt, queue, stack).Ok? && |Run(ops, rt, queue, stack).value| == 1
    ensures Fits(ops, queue, |stack|)
    decreases |queue|
  {
    if queue != [] {
      match queue[0]
      case Number(v) => RunsFit(ops, rt, queue[1..], stack + [v]);
      case _ => RunsFit(ops, rt, queue[1..], Operation(ops, rt, TokenText(queue[0]), stack).value);
    }
  }

  /** A well-formed queue yields a value unless an operator's own domain check fails; and a
      queue that yields a value is well formed. */
  lemma WellFormedQueue(ops: map<string, Operator>, rt: Runtime, queue: seq<Token>)
    ensures queue != [] && Fits(ops, queue, 0) ==>
              ValueOf(ops, rt, queue).Ok? || ValueOf(ops, rt, queue).error.IsDomainError()
    ensures ValueOf(ops, rt, queue).Ok? ==> Fits(ops, queue, 0)
  {
    if queue != [] && Fits(ops, queue, 0) {
      FitsRuns(ops, rt, queue, []);
    }
    if ValueOf(ops, rt, queue).Ok? {
      RunsFit(ops, rt, queue, []);
    }
  }

  /** The operand order of a binary operator: for `a b op`, `a` is the left operand. */
  lemma BinaryOperandOrder(ops: map<string, Operator>, rt: Runtime, a: real, b: real, symbol: string)
    requires symbol in ops && ops[symbol].kind.Arity() == Binary
    ensures var out := ApplyBinary(rt, ops[symbol].kind, a, b);
            ValueOf(ops, rt, [Number(a), Number(b), Symbol(symbol)]) == if out.Ok? then Ok(out.value) else Err(out.error)
  {
    var q := [Number(a), Number(b), Symbol(symbol)];
    var out := ApplyBinary(rt, ops[symbol].kind, a, b);
    assert q[1..] == [Number(b), Symbol(symbol)];
    assert q[1..][1..] == [Symbol(symbol)];
    assert [] + [a] == [a] && [a] + [b] == [a, b];
    assert Run(ops, rt, q, []) == Run(ops, rt, [Symbol(symbol)], [a, b]);
    assert Operation(ops, rt, symbol, [a, b]) == if out.Ok? then Ok([out.value]) else Err(out.error) by {
      assert [a, b][..0] == [];
      assert [a, b][1] == b && [a, b][0] == a;
    }
    assert [Symbol(symbol)][1..] == [];
    if out.Ok? {
      assert Run(ops, rt, [Symbol(symbol)], [a, b]) == Run(ops, rt, [], [out.value]);
      assert Run(ops, rt, q, []) == Ok([out.value]);
    } else {
      assert Run(ops, rt, q, []) == Err(out.error);
    }
  }
}
