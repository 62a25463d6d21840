/** The shunting-yard parser (parser.py): infix tokens in, postfix tokens out. */
module Parser {
  import opened Errors
  import opened Operands
  import opened Lexer

  /** `_should_pop_op(current_op, top_op)`: whether the operator on top of the stack leaves
      for the output before the incoming one is pushed. A higher-intensity top always goes, a
      lower one never does; at equal intensity it goes when the incoming operator is
      left-facing or placed right of its value. */
  function ShouldPop(current: Operator, top: Operator): (r: bool)
    ensures current.intensity < top.intensity ==> r
    ensures current.intensity > top.intensity ==> !r
    ensures current.intensity == top.intensity ==>
              (r <==> current.direction == Left || current.placement == RightOfValue)
  {
    if current.intensity < top.intensity then true
    else if current.direction == Left && current.intensity == top.intensity then true
    else if current.intensity > top.intensity then false
    // the two tests below compare the current operator's placement with itself
    else if current.placement == RightOfValue && current.placement == RightOfValue then true
    else if current.placement == LeftOfValue && current.placement == LeftOfValue then false
    // the last test of the source compares a direction with placement names: never true
    else false
  }

  /** An entry of the operator stack: a `(` or the symbol of an operator. */
  datatype StackEntry = OpenParen | Pending(symbol: string)

  /** The output queue and the operator stack, whose top is the last element. */
  datatype ParserState = ParserState(output: seq<Token>, stack: seq<StackEntry>)

  const Fresh := ParserState([], [])

  /** Every operator on the stack is registered (it was looked up before it was pushed). */
  ghost predicate StackRegistered(ops: map<string, Operator>, stack: seq<StackEntry>) {
    forall k | 0 <= k < |stack| && stack[k].Pending? :: stack[k].symbol in ops
  }

  ghost predicate NoOpenParen(entries: seq<StackEntry>) {
    forall k | 0 <= k < |entries| :: entries[k].Pending?
  }

  /** The output tokens for stack entries popped from the top down to the first of them. */
  function Emitted(entries: seq<StackEntry>): seq<Token>
    requires NoOpenParen(entries)
  {
    if entries == [] then [] else Emitted(entries[1..]) + [Symbol(entries[0].symbol)]
  }

  /** The position of the topmost `(`. */
  function LastParen(stack: seq<StackEntry>): (k: nat)
    requires OpenParen in stack
    ensures k < |stack| && stack[k] == OpenParen
    ensures NoOpenParen(stack[k + 1..])
  {
    if stack[|stack| - 1] == OpenParen then |stack| - 1
    else
      ParenInFront(stack);
      var k := LastParen(stack[..|stack| - 1]);
      NoParenAbove(stack, k);
      k
  }

  lemma ParenInFront(stack: seq<StackEntry>)
    requires OpenParen in stack && stack[|stack| - 1] != OpenParen
    ensures OpenParen in stack[..|stack| - 1]
  {
    var j :| 0 <= j < |stack| && stack[j] == OpenParen;
    assert stack[..|stack| - 1][j] == OpenParen;
  }

  lemma NoParenAbove(stack: seq<StackEntry>, k: nat)
    requires k + 1 < |stack| && stack[|stack| - 1].Pending?
    requires NoOpenParen(stack[..|stack| - 1][k + 1..])
    ensures NoOpenParen(stack[k + 1..])
  {
    forall j | k + 1 <= j < |stack| - 1
      ensures stack[j].Pending?
    {
      assert stack[j] == stack[..|stack| - 1][k + 1..][j - k - 1];
    }
  }

  /** `_handle_right_parentheses`: the operators above the topmost `(` go to the output and the
      `(` is dropped; without a `(` on the stack it is too many right parentheses. */
  function AfterRightParen(st: ParserState): (r: Result<ParserState>)
    ensures r.Err? <==> OpenParen !in st.stack
    ensures r.Err? ==> r.error == TooManyRightParentheses
  {
    if OpenParen !in st.stack then Err(TooManyRightParentheses)
    else
      var k := LastParen(st.stack);
      Ok(ParserState(st.output + Emitted(st.stack[k + 1..]), st.stack[..k]))
  }

  /** How many operators `_handle_operator` pops for an incoming `current`: it stops at the
      bottom of the stack, at a `(`, or at the first operator that must stay. */
  function PopCount(ops: map<string, Operator>, current: Operator, stack: seq<StackEntry>): (n: nat)
    requires StackRegistered(ops, stack)
    ensures n <= |stack|
    ensures forall k | |stack| - n <= k < |stack| ::
              stack[k].Pending? && ShouldPop(current, ops[stack[k].symbol])
    ensures n < |stack| ==>
              var below := stack[|stack| - n - 1];
              below == OpenParen || !ShouldPop(current, ops[below.symbol])
  {
    if stack == [] then 0
    else
      var top := stack[|stack| - 1];
      if top == OpenParen || !ShouldPop(current, ops[top.symbol]) then 0
      else
        var n := PopCount(ops, current, stack[..|stack| - 1]);
        n + 1
  }

  /** `_handle_operator`: an unregistered symbol fails the registry lookup; otherwise the
      operators that must go are popped to the output and the symbol is pushed. */
  function AfterOperator(ops: map<string, Operator>, st: ParserState, symbol: string): (r: Result<ParserState>)
    requires StackRegistered(ops, st.stack)
    ensures r.Err? <==> symbol !in ops
    ensures r.Err? ==> r.error == UnknownOperator(symbol)
    ensures r.Ok? ==> StackRegistered(ops, r.value.stack)
    ensures r.Ok? ==> |r.value.stack| > 0 && r.value.stack[|r.value.stack| - 1] == Pending(symbol)
  {
    if symbol !in ops then Err(UnknownOperator(symbol))
    else
      var m := |st.stack| - PopCount(ops, ops[symbol], st.stack);
      Ok(ParserState(st.output + Emitted(st.stack[m..]), st.stack[..m] + [Pending(symbol)]))
  }

  /** `_finalize`: the remaining operators go to the output from the top down; a `(` among
      them is too many left parentheses. */
  function Finalized(st: ParserState): (r: Result<seq<Token>>)
    ensures r.Err? <==> OpenParen in st.stack
    ensures r.Err? ==> r.error == TooManyLeftParentheses
  {
    if OpenParen in st.stack then Err(TooManyLeftParentheses) else Ok(st.output + Emitted(st.stack))
  }

  /** `_determine_token`: numbers go to the output, `(` onto the stack, `)` and operators to
      their handlers. */
  function Step(ops: map<string, Operator>, st: ParserState, t: Token): (r: Result<ParserState>)
    requires StackRegistered(ops, st.stack)
    ensures r.Ok? ==> StackRegistered(ops, r.value.stack)
  {
    match t
    case Number(_) => Ok(ParserState(st.output + [t], st.stack))
    case LeftParen => Ok(ParserState(st.output, st.stack + [OpenParen]))
    case RightParen => AfterRightParen(st)
    case Symbol(s) => AfterOperator(ops, st, s)
  }

  /** An error handling a token can raise: an unmatched `)` or an unregistered symbol. */
  predicate ParseError(ops: map<string, Operator>, err: Error) {
    err == TooManyRightParentheses || (err.UnknownOperator? && err.symbol !in ops)
  }

  /** Handling a token fails exactly on a `)` without a `(` to match and on an unregistered
      symbol. */
  lemma StepFails(ops: map<string, Operator>, st: ParserState, t: Token)
    requires StackRegistered(ops, st.stack)
    ensures Step(ops, st, t).Err? <==>
              (t == RightParen && OpenParen !in st.stack) || (t.Symbol? && t.symbol !in ops)
    ensures Step(ops, st, t).Err? ==> ParseError(ops, Step(ops, st, t).error)
  {
  }

  /** The state after feeding `tokens` one by one, or the first error. */
  function Process(ops: map<string, Operator>, st: ParserState, tokens: seq<Token>): (r: Result<ParserState>)
    requires StackRegistered(ops, st.stack)
    ensures r.Ok? ==> StackRegistered(ops, r.value.stack)
    decreases |tokens|
  {
    if tokens == [] then Ok(st)
    else
      match Step(ops, st, tokens[0])
      case Err(e) => Err(e)
      case Ok(next) => Process(ops, next, tokens[1..])
  }

  /** Feeding tokens can only fail with an error one of them raises. */
  lemma {:induction false} ProcessFails(ops: map<string, Operator>, st: ParserState, tokens: seq<Token>)
    requires StackRegistered(ops, st.stack)
    ensures Process(ops, st, tokens).Err? ==> ParseError(ops, Process(ops, st, tokens).error)
    decreases |tokens|
  {
    if tokens != [] {
      StepFails(ops, st, tokens[0]);
      var next := Step(ops, st, tokens[0]);
      if next.Ok? {
        ProcessFails(ops, next.value, tokens[1..]);
      }
    }
  }

  /** Feeding `a + b` is feeding `a`, then `b` from where `a` left off. */
  lemma {:induction false} ProcessConcat(ops: map<string, Operator>, st: ParserState, a: seq<Token>, b: seq<Token>)
    requires StackRegistered(ops, st.stack)
    ensures Process(ops, st, a + b) ==
              match Process(ops, st, a)
              case Err(e) => Err(e)
              case Ok(mid) => Process(ops, mid, b)
    decreases |a|
  {
    if a == [] {
      assert a + b == b;
    } else {
      assert (a + b)[0] == a[0];
      assert (a + b)[1..] == a[1..] + b;
      match Step(ops, st, a[0])
      case Err(e) =>
      case Ok(next) => ProcessConcat(ops, next, a[1..], b);
    }
  }

  /** `parse` over the lexer's generator: the tokens it yields are handled first, so an error
      they cause wins; then the lexer's own error, if it raised one; then `_finalize`. So a
      result exists only for an error-free stream, and a failure is a token's error, the
      lexer's error, or too many left parentheses. */
  function PostfixOf(ops: map<string, Operator>, stream: LexOutcome): (r: Result<seq<Token>>)
    ensures stream.error.Some? ==> r.Err?
    ensures r.Err? ==> ParseError(ops, r.error) || Some(r.error) == stream.error ||
                       (stream.error == None && r.error == TooManyLeftParentheses)
  {
    ProcessFails(ops, Fresh, stream.tokens);
    match Process(ops, Fresh, stream.tokens)
    case Err(e) => Err(e)
    case Ok(st) => if stream.error.Some? then Err(stream.error.value) else Finalized(st)
  }

  // ---------------------------------------------------------------------------------------
  // The Parser class

  lemma EmittedStep(entries: seq<StackEntry>, m: nat)
    requires 0 < m <= |entries| && NoOpenParen(entries[m - 1..])
    ensures NoOpenParen(entries[m..])
    ensures Emitted(entries[m - 1..]) == Emitted(entries[m..]) + [Symbol(entries[m - 1].symbol)]
  {
    assert entries[m - 1..][1..] == entries[m..];
  }

  /** The loop state of `_handle_operator` part-way through: the stack is a prefix of the
      original one, the entries popped from it are operators already in the output, and the
      number left to pop is what `PopCount` says. */
  ghost predicate PopLoop(ops: map<string, Operator>, current: Operator, stack0: seq<StackEntry>,
                          output0: seq<Token>, stack: seq<StackEntry>, output: seq<Token>)
  {
    StackRegistered(ops, stack0) &&
    |stack| <= |stack0| && stack == stack0[..|stack|] &&
    NoOpenParen(stack0[|stack|..]) &&
    output == output0 + Emitted(stack0[|stack|..]) &&
    StackRegistered(ops, stack) &&
    PopCount(ops, current, stack0) == |stack0| - |stack| + PopCount(ops, current, stack)
  }

  lemma PopLoopStep(ops: map<string, Operator>, current: Operator, stack0: seq<StackEntry>,
                    output0: seq<Token>, stack: seq<StackEntry>, output: seq<Token>)
    requires PopLoop(ops, current, stack0, output0, stack, output)
    requires stack != [] && stack[|stack| - 1].Pending?
    requires ShouldPop(current, ops[stack[|stack| - 1].symbol])
    ensures PopLoop(ops, current, stack0, output0, stack[..|stack| - 1],
                    output + [Symbol(stack[|stack| - 1].symbol)])
  {
    var m := |stack|;
    assert stack[..m - 1] == stack0[..m - 1];
    assert stack0[m - 1] == stack[m - 1];
    EmittedStep(stack0, m);
  }

  lemma PopLoopDone(ops: map<string, Operator>, symbol: string, stack0: seq<StackEntry>,
                    output0: seq<Token>, stack: seq<StackEntry>, output: seq<Token>)
    requires symbol in ops && PopLoop(ops, ops[symbol], stack0, output0, stack, output)
    requires stack == [] || stack[|stack| - 1] == OpenParen ||
             !ShouldPop(ops[symbol], ops[stack[|stack| - 1].symbol])
    ensures StackRegistered(ops, stack + [Pending(symbol)])
    ensures AfterOperator(ops, ParserState(output0, stack0), symbol)
         == Ok(ParserState(output, stack + [Pending(symbol)]))
  {
    assert PopCount(ops, ops[symbol], stack) == 0;
  }

  /** The loop of `_handle_right_parentheses` has stopped: at the bottom of the stack it is
      the error, at a `(` the `(` is dropped. */
  lemma ParenLoopDone(ops: map<string, Operator>, stack0: seq<StackEntry>, output0: seq<Token>,
                      stack: seq<StackEntry>, output: seq<Token>)
    requires StackRegistered(ops, stack0)
    requires |stack| <= |stack0| && stack == stack0[..|stack|]
    requires NoOpenParen(stack0[|stack|..])
    requires output == output0 + Emitted(stack0[|stack|..])
    requires stack == [] || stack[|stack| - 1] == OpenParen
    ensures stack == [] ==> AfterRightParen(ParserState(output0, stack0)) == Err(TooManyRightParentheses)
    ensures stack != [] ==> StackRegistered(ops, stack[..|stack| - 1])
    ensures stack != [] ==>
              AfterRightParen(ParserState(output0, stack0)) == Ok(ParserState(output, stack[..|stack| - 1]))
  {
    if stack == [] {
      assert stack0 == stack0[0..];
    } else {
      var m := |stack|;
      assert stack0[m - 1] == OpenParen;
      assert LastParen(stack0) == m - 1;
      assert stack[..m - 1] == stack0[..m - 1];
    }
  }

  /** `Parser`: the output queue and the operator stack are fields that the handlers update in
      place; `parse` starts both afresh. */
  class Parser {
    const operators: map<string, Operator>
    var outputQueue: seq<Token>
    var operatorStack: seq<StackEntry>

    function State(): ParserState
      reads this
    {
      ParserState(outputQueue, operatorStack)
    }

    ghost predicate Valid()
      reads this
    {
      StackRegistered(operators, operatorStack)
    }

    constructor (operators: map<string, Operator>)
      ensures this.operators == operators
      ensures outputQueue == [] && operatorStack == []
    {
      this.operators := operators;
      outputQueue := [];
      operatorStack := [];
    }

    /** `parse`: handles every yielded token, stops at the first error, then finalizes. On
        success the output queue holds the result and the stack is empty. */
    method Parse(stream: LexOutcome) returns (r: Result<seq<Token>>)
      modifies this
      ensures r == PostfixOf(operators, stream)
      ensures r.Ok? ==> outputQueue == r.value && operatorStack == []
    {
      outputQueue := [];
      operatorStack := [];
      var tokens := stream.tokens;
      for i := 0 to |tokens|
        invariant Valid()
        invariant Process(operators, Fresh, tokens) == Process(operators, State(), tokens[i..])
      {
        assert tokens[i..][1..] == tokens[i + 1..];
        var err := DetermineToken(tokens[i]);
        if err.Some? {
          return Err(err.value);
        }
      }
      if stream.error.Some? {
        return Err(stream.error.value);
      }
      var err := Finalize();
      if err.Some? {
        return Err(err.value);
      }
      r := Ok(outputQueue);
    }

    /** `_determine_token`: one step of the algorithm. */
    method DetermineToken(t: Token) returns (err: Option<Error>)
      requires Valid()
      modifies this
      ensures err.None? <==> Step(operators, old(State()), t).Ok?
      ensures err.Some? ==> err.value == Step(operators, old(State()), t).error
      ensures err.None? ==> Valid() && State() == Step(operators, old(State()), t).value
    {
      match t
      case Number(_) =>
        outputQueue := outputQueue + [t];
        err := None;
      case LeftParen =>
        operatorStack := operatorStack + [OpenParen];
        err := None;
      case RightParen =>
        err := HandleRightParentheses();
      case Symbol(s) =>
        err := HandleOperator(s);
    }

    /** `_handle_right_parentheses`: pops operators to the output until a `(`, which is
        dropped; running out of stack is too many right parentheses. */
    method HandleRightParentheses() returns (err: Option<Error>)
      requires Valid()
      modifies this
      ensures err.None? <==> AfterRightParen(old(State())).Ok?
      ensures err.Some? ==> err.value == AfterRightParen(old(State())).error
      ensures err.None? ==> Valid() && State() == AfterRightParen(old(State())).value
    {
      ghost var stack0 := operatorStack;
      ghost var output0 := outputQueue;
      while |operatorStack| > 0 && operatorStack[|operatorStack| - 1] != OpenParen
        invariant |operatorStack| <= |stack0| && operatorStack == stack0[..|operatorStack|]
        invariant NoOpenParen(stack0[|operatorStack|..])
        invariant outputQueue == output0 + Emitted(stack0[|operatorStack|..])
        decreases |operatorStack|
      {
        var m := |operatorStack|;
        EmittedStep(stack0, m);
        outputQueue := outputQueue + [Symbol(operatorStack[m - 1].symbol)];
        operatorStack := operatorStack[..m - 1];
      }
      ParenLoopDone(operators, stack0, output0, operatorStack, outputQueue);
      if |operatorStack| == 0 {
        return Some(TooManyRightParentheses);
      }
      operatorStack := operatorStack[..|operatorStack| - 1];
      return None;
    }

    /** `_handle_operator`: looks the symbol up, pops the operators that `_should_pop_op`
        sends to the output (never past a `(`), then pushes the symbol. */
    method HandleOperator(symbol: string) returns (err: Option<Error>)
      requires Valid()
      modifies this
      ensures err.None? <==> AfterOperator(operators, old(State()), symbol).Ok?
      ensures err.Some? ==> err.value == AfterOperator(operators, old(State()), symbol).error
      ensures err.None? ==> Valid() && State() == AfterOperator(operators, old(State()), symbol).value
    {
      if symbol !in operators {
        return Some(UnknownOperator(symbol));
      }
      ghost var stack0 := operatorStack;
      ghost var output0 := outputQueue;
      PopOutranked(operators[symbol]);
      PopLoopDone(operators, symbol, stack0, output0, operatorStack, outputQueue);
      operatorStack := operatorStack + [Pending(symbol)];
      err := None;
    }

    /** The loop of `_handle_operator`: pops the operators that go before `current`, from
        the top, until the stack is empty, a `(` is on top, or the top must stay. */
    method PopOutranked(current: Operator)
      requires Valid()
      modifies this
      ensures PopLoop(operators, current, old(operatorStack), old(outputQueue), operatorStack, outputQueue)
      ensures operatorStack == [] || operatorStack[|operatorStack| - 1] == OpenParen ||
              !ShouldPop(current, operators[operatorStack[|operatorStack| - 1].symbol])
    {
      ghost var stack0 := operatorStack;
      ghost var output0 := outputQueue;
      while |operatorStack| > 0
        invariant PopLoop(operators, current, stack0, output0, operatorStack, outputQueue)
        decreases |operatorStack|
      {
        var top := operatorStack[|operatorStack| - 1];
        if top == OpenParen {
          break;
        }
        var topOperator := operators[top.symbol];
        if ShouldPop(current, topOperator) {
          PopLoopStep(operators, current, stack0, output0, operatorStack, outputQueue);
          outputQueue := outputQueue + [Symbol(top.symbol)];
          operatorStack := operatorStack[..|operatorStack| - 1];
        } else {
          break;
        }
      }
    }

    /** `_finalize`: empties the stack into the output from the top; meeting a `(` is too
        many left parentheses. */
    method Finalize() returns (err: Option<Error>)
      requires Valid()
      modifies this
      ensures err.None? <==> Finalized(old(State())).Ok?
      ensures err.Some? ==> err.value == Finalized(old(State())).error
      ensures err.None? ==> outputQueue == Finalized(old(State())).value && operatorStack == []
    {
      ghost var stack0 := operatorStack;
      ghost var output0 := outputQueue;
      while |operatorStack| > 0
        invariant |operatorStack| <= |stack0| && operatorStack == stack0[..|operatorStack|]
        invariant NoOpenParen(stack0[|operatorStack|..])
        invariant outputQueue == output0 + Emitted(stack0[|operatorStack|..])
        decreases |operatorStack|
      {
        var m := |operatorStack|;
        if operatorStack[m - 1] == OpenParen {
          assert stack0[m - 1] == OpenParen;
          return Some(TooManyLeftParentheses);
        }
        EmittedStep(stack0, m);
        outputQueue := outputQueue + [Symbol(operatorStack[m - 1].symbol)];
        operatorStack := operatorStack[..m - 1];
      }
      assert stack0[0..] == stack0;
      err := None;
    }
  }

  // ---------------------------------------------------------------------------------------
  // What the output holds

  /** The values of the number tokens, in order. */
  function NumbersOf(ts: seq<Token>): seq<real> {
    if ts == [] then []
    else NumbersOf(ts[..|ts| - 1]) + (if ts[|ts| - 1].Number? then [ts[|ts| - 1].value] else [])
  }

  /** How many operator tokens with symbol x there are. */
  function SymbolCount(ts: seq<Token>, x: string): nat {
    if ts == [] then 0
    else SymbolCount(ts[..|ts| - 1], x) + (if ts[|ts| - 1] == Symbol(x) then 1 else 0)
  }

  /** How many stack entries hold the symbol x. */
  function PendingCount(entries: seq<StackEntry>, x: string): nat {
    if entries == [] then 0
    else PendingCount(entries[..|entries| - 1], x) + (if entries[|entries| - 1] == Pending(x) then 1 else 0)
  }

  predicate NoParenTokens(ts: seq<Token>) {
    forall k | 0 <= k < |ts| :: ts[k].Number? || ts[k].Symbol?
  }

  lemma {:induction false} NumbersConcat(a: seq<Token>, b: seq<Token>)
    ensures NumbersOf(a + b) == NumbersOf(a) + NumbersOf(b)
    decreases |b|
  {
    if b == [] {
      assert a + b == a;
    } else {
      assert (a + b)[..|a + b| - 1] == a + b[..|b| - 1];
      NumbersConcat(a, b[..|b| - 1]);
    }
  }

  lemma {:induction false} SymbolCountConcat(a: seq<Token>, b: seq<Token>, x: string)
    ensures SymbolCount(a + b, x) == SymbolCount(a, x) + SymbolCount(b, x)
    decreases |b|
  {
    if b == [] {
      assert a + b == a;
    } else {
      assert (a + b)[..|a + b| - 1] == a + b[..|b| - 1];
      SymbolCountConcat(a, b[..|b| - 1], x);
    }
  }

  lemma {:induction false} PendingCountConcat(a: seq<StackEntry>, b: seq<StackEntry>, x: string)
    ensures PendingCount(a + b, x) == PendingCount(a, x) + PendingCount(b, x)
    decreases |b|
  {
    if b == [] {
      assert a + b == a;
    } else {
      assert (a + b)[..|a + b| - 1] == a + b[..|b| - 1];
      PendingCountConcat(a, b[..|b| - 1], x);
    }
  }

  lemma TokenAppended(ts: seq<Token>, t: Token, x: string)
    ensures NumbersOf(ts + [t]) == NumbersOf(ts) + if t.Number? then [t.value] else []
    ensures SymbolCount(ts + [t], x) == SymbolCount(ts, x) + if t == Symbol(x) then 1 else 0
  {
    assert (ts + [t])[..|ts|] == ts;
  }

  lemma EntryAppended(entries: seq<StackEntry>, e: StackEntry, x: string)
    ensures PendingCount(entries + [e], x) == PendingCount(entries, x) + if e == Pending(x) then 1 else 0
  {
    assert (entries + [e])[..|entries|] == entries;
  }

  /** Popped entries become operator tokens only, one per operator popped. */
  lemma {:induction false} EmittedContents(entries: seq<StackEntry>, x: string)
    requires NoOpenParen(entries)
    ensures NoParenTokens(Emitted(entries))
    ensures NumbersOf(Emitted(entries)) == []
    ensures SymbolCount(Emitted(entries), x) == PendingCount(entries, x)
    decreases |entries|
  {
    if entries != [] {
      var rest := entries[1..];
      assert NoOpenParen(rest);
      EmittedContents(rest, x);
      TokenAppended(Emitted(rest), Symbol(entries[0].symbol), x);
      assert entries == [entries[0]] + rest;
      PendingCountConcat([entries[0]], rest, x);
      EntryAppended([], entries[0], x);
      assert [] + [entries[0]] == [entries[0]];
    }
  }

  /** The bookkeeping the algorithm keeps after consuming `consumed`, for the symbol x: no
      parenthesis in the output, the numbers in the output in input order, and every token
      with symbol x either in the output or on the stack. */
  ghost predicate Accounted(consumed: seq<Token>, st: ParserState, x: string) {
    NoParenTokens(st.output) &&
    NumbersOf(st.output) == NumbersOf(consumed) &&
    SymbolCount(st.output, x) + PendingCount(st.stack, x) == SymbolCount(consumed, x)
  }

  lemma NoParenConcat(a: seq<Token>, b: seq<Token>)
    requires NoParenTokens(a) && NoParenTokens(b)
    ensures NoParenTokens(a + b)
  {
    assert forall k | |a| <= k < |a + b| :: (a + b)[k] == b[k - |a|];
  }

  /** Splitting the stack into the part kept, a part dropped without output, and the part
      popped to the output. */
  lemma MoveCounts(stack: seq<StackEntry>, keep: nat, drop: nat, x: string)
    requires keep <= drop <= |stack|
    ensures PendingCount(stack, x)
            == PendingCount(stack[..keep], x) + PendingCount(stack[keep..drop], x) + PendingCount(stack[drop..], x)
  {
    var front := stack[..keep] + stack[keep..drop];
    assert stack == front + stack[drop..];
    PendingCountConcat(front, stack[drop..], x);
    PendingCountConcat(stack[..keep], stack[keep..drop], x);
  }

  /** Moving the entries above position `drop` to the output, discarding those between
      `keep` and `drop` and pushing `pushed` keeps the bookkeeping when the discarded entries
      hold no x and `pushed` accounts for the new token. */
  lemma MoveAccounted(consumed: seq<Token>, st: ParserState, t: Token, x: string,
                      keep: nat, drop: nat, pushed: seq<StackEntry>)
    requires Accounted(consumed, st, x)
    requires keep <= drop <= |st.stack| && NoOpenParen(st.stack[drop..])
    requires PendingCount(st.stack[keep..drop], x) == 0
    requires !t.Number?
    requires PendingCount(pushed, x) == (if t == Symbol(x) then 1 else 0)
    ensures Accounted(consumed + [t], ParserState(st.output + Emitted(st.stack[drop..]), st.stack[..keep] + pushed), x)
  {
    var popped := st.stack[drop..];
    var out := Emitted(popped);
    EmittedContents(popped, x);
    NoParenConcat(st.output, out);
    NumbersConcat(st.output, out);
    SymbolCountConcat(st.output, out, x);
    TokenAppended(consumed, t, x);
    MoveCounts(st.stack, keep, drop, x);
    PendingCountConcat(st.stack[..keep], pushed, x);
  }

  lemma StepAccounted(ops: map<string, Operator>, consumed: seq<Token>, st: ParserState, t: Token, x: string)
    requires StackRegistered(ops, st.stack) && Accounted(consumed, st, x)
    requires Step(ops, st, t).Ok?
    ensures Accounted(consumed + [t], Step(ops, st, t).value, x)
  {
    match t
    case Number(_) =>
      TokenAppended(consumed, t, x);
      TokenAppended(st.output, t, x);
      NoParenConcat(st.output, [t]);
    case LeftParen =>
      TokenAppended(consumed, t, x);
      EntryAppended(st.stack, OpenParen, x);
    case RightParen =>
      CloseAccounted(consumed, st, x);
    case Symbol(sym) =>
      OperatorAccounted(ops, consumed, st, sym, x);
  }

  lemma CloseAccounted(consumed: seq<Token>, st: ParserState, x: string)
    requires Accounted(consumed, st, x) && OpenParen in st.stack
    ensures Accounted(consumed + [RightParen], AfterRightParen(st).value, x)
  {
    var k := LastParen(st.stack);
    assert st.stack[k..k + 1] == [OpenParen];
    EntryAppended([], OpenParen, x);
    assert [] + [OpenParen] == [OpenParen];
    MoveAccounted(consumed, st, RightParen, x, k, k + 1, []);
    assert st.stack[..k] + [] == st.stack[..k];
  }

  lemma OperatorAccounted(ops: map<string, Operator>, consumed: seq<Token>, st: ParserState, sym: string,
                          x: string)
    requires StackRegistered(ops, st.stack) && Accounted(consumed, st, x) && sym in ops
    ensures Accounted(consumed + [Symbol(sym)], AfterOperator(ops, st, sym).value, x)
  {
    var m := |st.stack| - PopCount(ops, ops[sym], st.stack);
    assert st.stack[m..m] == [];
    EntryAppended([], Pending(sym), x);
    assert [] + [Pending(sym)] == [Pending(sym)];
    MoveAccounted(consumed, st, Symbol(sym), x, m, m, [Pending(sym)]);
  }

  lemma {:induction false} ProcessAccounted(ops: map<string, Operator>, consumed: seq<Token>,
                                            st: ParserState, ts: seq<Token>, x: string)
    requires StackRegistered(ops, st.stack) && Accounted(consumed, st, x)
    requires Process(ops, st, ts).Ok?
    ensures Accounted(consumed + ts, Process(ops, st, ts).value, x)
    decreases |ts|
  {
    if ts == [] {
      assert consumed + ts == consumed;
    } else {
      StepAccounted(ops, consumed, st, ts[0], x);
      var next := Step(ops, st, ts[0]).value;
      ProcessAccounted(ops, consumed + [ts[0]], next, ts[1..], x);
      assert consumed + [ts[0]] + ts[1..] == consumed + ts;
    }
  }

  lemma AllAccounted(ops: map<string, Operator>, ts: seq<Token>)
    requires Process(ops, Fresh, ts).Ok?
    ensures forall x :: Accounted(ts, Process(ops, Fresh, ts).value, x)
  {
    assert [] + ts == ts;
    forall x
      ensures Accounted(ts, Process(ops, Fresh, ts).value, x)
    {
      assert Accounted([], Fresh, x);
      ProcessAccounted(ops, [], Fresh, ts, x);
    }
  }

  /** On success the postfix output holds no parenthesis, the input's numbers in their input
      order, and each operator token of the input exactly as often as the input has it. */
  lemma PostfixContents(ops: map<string, Operator>, stream: LexOutcome)
    requires PostfixOf(ops, stream).Ok?
    ensures NoParenTokens(PostfixOf(ops, stream).value)
    ensures NumbersOf(PostfixOf(ops, stream).value) == NumbersOf(stream.tokens)
    ensures forall x :: SymbolCount(PostfixOf(ops, stream).value, x) == SymbolCount(stream.tokens, x)
  {
    var st := Process(ops, Fresh, stream.tokens).value;
    var out := PostfixOf(ops, stream).value;
    assert out == st.output + Emitted(st.stack);
    AllAccounted(ops, stream.tokens);
    assert Accounted(stream.tokens, st, "");
    EmittedContents(st.stack, "");
    NoParenConcat(st.output, Emitted(st.stack));
    NumbersConcat(st.output, Emitted(st.stack));
    forall x
      ensures SymbolCount(out, x) == SymbolCount(stream.tokens, x)
    {
      assert Accounted(stream.tokens, st, x);
      EmittedContents(st.stack, x);
      SymbolCountConcat(st.output, Emitted(st.stack), x);
    }
  }

  // ---------------------------------------------------------------------------------------
  // Parenthesis matching

  /** +1 for `(`, -1 for `)`, 0 otherwise. */
  function Delta(t: Token): int {
    match t
    case LeftParen => 1
    case RightParen => -1
    case _ => 0
  }

  /** How many more `(` than `)` the tokens hold. */
  function Depth(ts: seq<Token>): int {
    if ts == [] then 0 else Delta(ts[0]) + Depth(ts[1..])
  }

  /** How many `(` are on a stack. */
  function ParenCount(entries: seq<StackEntry>): nat {
    if entries == [] then 0
    else ParenCount(entries[..|entries| - 1]) + (if entries[|entries| - 1] == OpenParen then 1 else 0)
  }

  ghost predicate SymbolsRegistered(ops: map<string, Operator>, ts: seq<Token>) {
    forall k | 0 <= k < |ts| && ts[k].Symbol? :: ts[k].symbol in ops
  }

  lemma {:induction false} ParenCountConcat(a: seq<StackEntry>, b: seq<StackEntry>)
    ensures ParenCount(a + b) == ParenCount(a) + ParenCount(b)
    decreases |b|
  {
    if b == [] {
      assert a + b == a;
    } else {
      assert (a + b)[..|a + b| - 1] == a + b[..|b| - 1];
      ParenCountConcat(a, b[..|b| - 1]);
    }
  }

  lemma {:induction false} ParenCountZero(entries: seq<StackEntry>)
    ensures ParenCount(entries) == 0 <==> OpenParen !in entries
    decreases |entries|
  {
    if entries != [] {
      var init := entries[..|entries| - 1];
      ParenCountZero(init);
      assert entries == init + [entries[|entries| - 1]];
      assert OpenParen in entries <==> OpenParen in init || entries[|entries| - 1] == OpenParen;
    }
  }

  lemma ParenCountSingle(e: StackEntry)
    ensures ParenCount([e]) == if e == OpenParen then 1 else 0
  {
    assert [e][..0] == [];
  }

  /** A step fails only on a `)` with no `(` on the stack, and otherwise changes the number of
      `(` on the stack by the token's `Delta`. */
  lemma StepDepth(ops: map<string, Operator>, st: ParserState, t: Token)
    requires StackRegistered(ops, st.stack) && (t.Symbol? ==> t.symbol in ops)
    ensures Step(ops, st, t).Err? <==> t == RightParen && ParenCount(st.stack) == 0
    ensures Step(ops, st, t).Err? ==> Step(ops, st, t).error == TooManyRightParentheses
    ensures Step(ops, st, t).Ok? ==> ParenCount(Step(ops, st, t).value.stack) == ParenCount(st.stack) + Delta(t)
  {
    ParenCountZero(st.stack);
    match t
    case Number(_) =>
    case LeftParen =>
      ParenCountConcat(st.stack, [OpenParen]);
      ParenCountSingle(OpenParen);
    case RightParen =>
      if OpenParen in st.stack {
        CloseDepth(st);
      }
    case Symbol(sym) =>
      OperatorDepth(ops, st, sym);
  }

  lemma CloseDepth(st: ParserState)
    requires OpenParen in st.stack
    ensures ParenCount(AfterRightParen(st).value.stack) == ParenCount(st.stack) - 1
  {
    var k := LastParen(st.stack);
    var above := st.stack[k + 1..];
    ParenCountZero(above);
    assert st.stack == st.stack[..k] + [OpenParen] + above;
    ParenCountConcat(st.stack[..k] + [OpenParen], above);
    ParenCountConcat(st.stack[..k], [OpenParen]);
    ParenCountSingle(OpenParen);
  }

  lemma OperatorDepth(ops: map<string, Operator>, st: ParserState, sym: string)
    requires StackRegistered(ops, st.stack) && sym in ops
    ensures ParenCount(AfterOperator(ops, st, sym).value.stack) == ParenCount(st.stack)
  {
    var m := |st.stack| - PopCount(ops, ops[sym], st.stack);
    var popped := st.stack[m..];
    assert OpenParen !in popped by {
      assert forall j | 0 <= j < |popped| :: popped[j] == st.stack[m + j];
    }
    ParenCountZero(popped);
    assert st.stack == st.stack[..m] + popped;
    ParenCountConcat(st.stack[..m], popped);
    ParenCountConcat(st.stack[..m], [Pending(sym)]);
    ParenCountSingle(Pending(sym));
  }

  lemma {:induction false} ProcessDepth(ops: map<string, Operator>, st: ParserState, ts: seq<Token>)
    requires StackRegistered(ops, st.stack) && SymbolsRegistered(ops, ts)
    ensures Process(ops, st, ts).Err? <==>
              exists j | 0 < j <= |ts| :: ParenCount(st.stack) + Depth(ts[..j]) < 0
    ensures Process(ops, st, ts).Err? ==> Process(ops, st, ts).error == TooManyRightParentheses
    ensures Process(ops, st, ts).Ok? ==>
              ParenCount(Process(ops, st, ts).value.stack) == ParenCount(st.stack) + Depth(ts)
    decreases |ts|
  {
    if ts != [] {
      var t := ts[0];
      var rest := ts[1..];
      var d := ParenCount(st.stack);
      StepDepth(ops, st, t);
      assert ts[..1] == [t];
      assert Depth([t]) == Delta(t);
      if Step(ops, st, t).Ok? {
        var next := Step(ops, st, t).value;
        assert SymbolsRegistered(ops, rest) by {
          assert forall k | 0 <= k < |rest| :: rest[k] == ts[k + 1];
        }
        ProcessDepth(ops, next, rest);
        forall j | 0 < j <= |ts|
          ensures d + Depth(ts[..j]) == ParenCount(next.stack) + Depth(rest[..j - 1])
        {
          assert ts[..j][1..] == rest[..j - 1];
        }
        if exists j | 0 < j <= |ts| :: d + Depth(ts[..j]) < 0 {
          var j :| 0 < j <= |ts| && d + Depth(ts[..j]) < 0;
          assert 0 < j - 1 <= |rest| && ParenCount(next.stack) + Depth(rest[..j - 1]) < 0;
        }
        if exists j | 0 < j <= |rest| :: ParenCount(next.stack) + Depth(rest[..j]) < 0 {
          var j :| 0 < j <= |rest| && ParenCount(next.stack) + Depth(rest[..j]) < 0;
          assert d + Depth(ts[..j + 1]) < 0;
        }
      }
    }
  }

  /** A stream of registered tokens is accepted exactly when its parentheses match: a prefix
      with more `)` than `(` is too many right parentheses, and otherwise `(` left open at the
      end are too many left parentheses. */
  lemma ParenthesesMatched(ops: map<string, Operator>, ts: seq<Token>)
    requires SymbolsRegistered(ops, ts)
    ensures PostfixOf(ops, LexOutcome(ts, None)) == Err(TooManyRightParentheses) <==>
              exists j | 0 < j <= |ts| :: Depth(ts[..j]) < 0
    ensures PostfixOf(ops, LexOutcome(ts, None)) == Err(TooManyLeftParentheses) <==>
              (forall j | 0 < j <= |ts| :: Depth(ts[..j]) >= 0) && Depth(ts) > 0
    ensures PostfixOf(ops, LexOutcome(ts, None)).Ok? <==>
              (forall j | 0 < j <= |ts| :: Depth(ts[..j]) >= 0) && Depth(ts) == 0
  {
    ProcessDepth(ops, Fresh, ts);
    if ts != [] {
      assert ts[..|ts|] == ts;
    }
    var p := Process(ops, Fresh, ts);
    if p.Ok? {
      ParenCountZero(p.value.stack);
    }
  }
}
