/** Worked examples from the repository's tests, each proved stage by stage: the normalized
    text, the token stream, the postfix queue and the value. The stage lemmas see only the
    characters and tokens at the positions they step over, never a whole literal, and one
    composition lemma per example ties the stages to `Evaluate` on the table. */
module Examples {
  import opened Errors
  import opened Chars
  import opened Operands
  import opened Lexer
  import opened Parser
  import opened Solver
  import opened Calculator

  // ---------------------------------------------------------------------------------------
  // One character of `_normalize`

  lemma SkipBlankAt(s: string, i: nat, e: string, j: nat)
    requires i < |s| && IsBlank(s[i]) && j <= |e| && NonBlank(s[i + 1..]) == e[j..]
    ensures NonBlank(s[i..]) == e[j..]
  {
    assert s[i..][1..] == s[i + 1..];
  }

  lemma KeepCharAt(s: string, i: nat, e: string, j: nat)
    requires i < |s| && j < |e| && !IsBlank(s[i]) && s[i] == e[j] && NonBlank(s[i + 1..]) == e[j + 1..]
    ensures NonBlank(s[i..]) == e[j..]
  {
    assert s[i..][1..] == s[i + 1..];
    assert e[j..] == [e[j]] + e[j + 1..];
  }

  // ---------------------------------------------------------------------------------------
  // A few characters of `_normalize` at once

  lemma NonBlankKeptKeptKept(s: string, i: nat, e: string, j: nat)
    requires i + 3 <= |s| && j + 3 <= |e|
    requires !IsBlank(s[i]) && s[i] == e[j] && !IsBlank(s[i + 1]) && s[i + 1] == e[j + 1]
             && !IsBlank(s[i + 2]) && s[i + 2] == e[j + 2]
    requires NonBlank(s[i + 3..]) == e[j + 3..]
    ensures NonBlank(s[i..]) == e[j..]
  {
    KeepCharAt(s, i + 2, e, j + 2);
    KeepCharAt(s, i + 1, e, j + 1);
    KeepCharAt(s, i, e, j);
  }

  lemma NonBlankKeptKeptBlank(s: string, i: nat, e: string, j: nat)
    requires i + 3 <= |s| && j + 2 <= |e|
    requires !IsBlank(s[i]) && s[i] == e[j] && !IsBlank(s[i + 1]) && s[i + 1] == e[j + 1]
             && IsBlank(s[i + 2])
    requires NonBlank(s[i + 3..]) == e[j + 2..]
    ensures NonBlank(s[i..]) == e[j..]
  {
    SkipBlankAt(s, i + 2, e, j + 2);
    KeepCharAt(s, i + 1, e, j + 1);
    KeepCharAt(s, i, e, j);
  }

  lemma NonBlankKeptBlankKept(s: string, i: nat, e: string, j: nat)
    requires i + 3 <= |s| && j + 2 <= |e|
    requires !IsBlank(s[i]) && s[i] == e[j] && IsBlank(s[i + 1])
             && !IsBlank(s[i + 2]) && s[i + 2] == e[j + 1]
    requires NonBlank(s[i + 3..]) == e[j + 2..]
    ensures NonBlank(s[i..]) == e[j..]
  {
    KeepCharAt(s, i + 2, e, j + 1);
    SkipBlankAt(s, i + 1, e, j + 1);
    KeepCharAt(s, i, e, j);
  }

  lemma NonBlankBlankKeptBlank(s: string, i: nat, e: string, j: nat)
    requires i + 3 <= |s| && j + 1 <= |e|
    requires IsBlank(s[i]) && !IsBlank(s[i + 1]) && s[i + 1] == e[j] && IsBlank(s[i + 2])
    requires NonBlank(s[i + 3..]) == e[j + 1..]
    ensures NonBlank(s[i..]) == e[j..]
  {
    SkipBlankAt(s, i + 2, e, j + 1);
    KeepCharAt(s, i + 1, e, j);
    SkipBlankAt(s, i, e, j);
  }

  lemma NonBlankBlankBlankKept(s: string, i: nat, e: string, j: nat)
    requires i + 3 <= |s| && j + 1 <= |e|
    requires IsBlank(s[i]) && IsBlank(s[i + 1]) && !IsBlank(s[i + 2]) && s[i + 2] == e[j]
    requires NonBlank(s[i + 3..]) == e[j + 1..]
    ensures NonBlank(s[i..]) == e[j..]
  {
    KeepCharAt(s, i + 2, e, j);
    SkipBlankAt(s, i + 1, e, j);
    SkipBlankAt(s, i, e, j);
  }

  // ---------------------------------------------------------------------------------------
  // One step of the lexer

  /** A character other than a digit, scanned as the one-character token `toks[k]`. */
  lemma LexSymbolAt(ops: map<string, Operator>, e: string, i: nat, prev: Option<TokenClass>,
                    toks: seq<Token>, k: nat)
    requires i < |e| && k < |toks|
    requires ScanStep(ops, e, i, prev).Ok? && ScanStep(ops, e, i, prev).value.0 == toks[k]
    requires ScanStep(ops, e, i, prev).value.1 == i + 1
    requires TokensFrom(ops, e, i + 1, Some(ClassOf(toks[k]))) == LexOutcome(toks[k + 1..], None)
    ensures TokensFrom(ops, e, i, prev) == LexOutcome(toks[k..], None)
  {
    assert toks[k..] == [toks[k]] + toks[k + 1..];
  }

  /** A one-digit number. */
  lemma LexDigitAt(ops: map<string, Operator>, e: string, i: nat, d: char, prev: Option<TokenClass>,
                   toks: seq<Token>, k: nat)
    requires i < |e| && e[i] == d && IsDigit(d) && (i + 1 < |e| ==> !IsNumberChar(e[i + 1]))
    requires k < |toks| && toks[k] == Number(DigitValue(d) as real)
    requires TokensFrom(ops, e, i + 1, Some(NumberClass)) == LexOutcome(toks[k + 1..], None)
    ensures TokensFrom(ops, e, i, prev) == LexOutcome(toks[k..], None)
  {
    ScanInteger(e, i, i + 1);
    assert e[i..i + 1] == [d];
    LexNumberAt(ops, e, i, i + 1, prev, toks, k);
  }

  /** A two-digit number. */
  lemma LexDigitsAt(ops: map<string, Operator>, e: string, i: nat, d0: char, d1: char,
                    prev: Option<TokenClass>, toks: seq<Token>, k: nat)
    requires i + 1 < |e| && e[i] == d0 && e[i + 1] == d1 && IsDigit(d0) && IsDigit(d1)
    requires i + 2 < |e| ==> !IsNumberChar(e[i + 2])
    requires k < |toks| && toks[k] == Number((10 * DigitValue(d0) + DigitValue(d1)) as real)
    requires TokensFrom(ops, e, i + 2, Some(NumberClass)) == LexOutcome(toks[k + 1..], None)
    ensures TokensFrom(ops, e, i, prev) == LexOutcome(toks[k..], None)
  {
    ScanInteger(e, i, i + 2);
    assert e[i..i + 2] == [d0, d1];
    TwoDigits(d0, d1);
    LexNumberAt(ops, e, i, i + 2, prev, toks, k);
  }

  lemma TwoDigits(d0: char, d1: char)
    ensures IntegerValue([d0, d1]) == 10 * DigitValue(d0) + DigitValue(d1)
  {
    assert [d0, d1][..1] == [d0] && [d0][..0] == [];
    assert IntegerValue([d0]) == DigitValue(d0);
  }

  /** A number the scan reads from `i` to `j`. */
  lemma LexNumberAt(ops: map<string, Operator>, e: string, i: nat, j: nat, prev: Option<TokenClass>,
                    toks: seq<Token>, k: nat)
    requires i < j <= |e| && IsDigit(e[i]) && ScanNumber(e, i).Ok? && ScanNumber(e, i).value.1 == j
    requires k < |toks| && toks[k] == Number(ScanNumber(e, i).value.0)
    requires TokensFrom(ops, e, j, Some(NumberClass)) == LexOutcome(toks[k + 1..], None)
    ensures TokensFrom(ops, e, i, prev) == LexOutcome(toks[k..], None)
  {
    assert ScanStep(ops, e, i, prev) == Ok((toks[k], j));
    assert toks[k..] == [toks[k]] + toks[k + 1..];
  }

  // ---------------------------------------------------------------------------------------
  // One step of the parser

  lemma ParseNumberAt(ops: map<string, Operator>, toks: seq<Token>, k: nat, st: ParserState, next: ParserState)
    requires StackRegistered(ops, st.stack) && k < |toks| && toks[k].Number?
    requires next == ParserState(st.output + [toks[k]], st.stack)
    ensures StackRegistered(ops, next.stack)
    ensures Process(ops, st, toks[k..]) == Process(ops, next, toks[k + 1..])
  {
    assert toks[k..][1..] == toks[k + 1..];
  }

  lemma ParseOpenAt(ops: map<string, Operator>, toks: seq<Token>, k: nat, st: ParserState, next: ParserState)
    requires StackRegistered(ops, st.stack) && k < |toks| && toks[k] == LeftParen
    requires next == ParserState(st.output, st.stack + [OpenParen])
    ensures StackRegistered(ops, next.stack)
    ensures Process(ops, st, toks[k..]) == Process(ops, next, toks[k + 1..])
  {
    assert toks[k..][1..] == toks[k + 1..];
  }

  /** A `)` whose matching `(` has the entries `above` over it. */
  lemma ParseCloseAt(ops: map<string, Operator>, toks: seq<Token>, k: nat, st: ParserState,
                     keep: seq<StackEntry>, above: seq<StackEntry>, next: ParserState)
    requires StackRegistered(ops, st.stack) && k < |toks| && toks[k] == RightParen
    requires st.stack == keep + [OpenParen] + above && NoOpenParen(above)
    requires next == ParserState(st.output + Emitted(above), keep)
    ensures StackRegistered(ops, next.stack)
    ensures Process(ops, st, toks[k..]) == Process(ops, next, toks[k + 1..])
  {
    assert toks[k..][1..] == toks[k + 1..];
    var j: nat := |keep|;
    assert st.stack[j + 1..] == above && st.stack[..j] == keep;
    var top := LastParen(st.stack);
    ParenNotAbove(st.stack, top, j);
    assert top <= j;
    var r := Step(ops, st, RightParen);
    assert r.value.output == next.output;
    assert r.value.stack == next.stack;
  }

  /** A `(` at `j` is not above the topmost `(`. */
  lemma ParenNotAbove(stack: seq<StackEntry>, top: nat, j: nat)
    requires top < |stack| && j < |stack| && stack[j] == OpenParen && NoOpenParen(stack[top + 1..])
    ensures j <= top
  {
  }

  /** An operator that pops the entries `above`, then is pushed. */
  lemma ParseOperatorAt(ops: map<string, Operator>, toks: seq<Token>, k: nat, st: ParserState,
                        keep: seq<StackEntry>, above: seq<StackEntry>, next: ParserState)
    requires StackRegistered(ops, st.stack) && k < |toks| && toks[k].Symbol? && toks[k].symbol in ops
    requires st.stack == keep + above
    requires forall j | 0 <= j < |above| ::
               above[j].Pending? && above[j].symbol in ops && ShouldPop(ops[toks[k].symbol], ops[above[j].symbol])
    requires keep == [] || keep[|keep| - 1] == OpenParen ||
             (keep[|keep| - 1].symbol in ops && !ShouldPop(ops[toks[k].symbol], ops[keep[|keep| - 1].symbol]))
    requires next == ParserState(st.output + Emitted(above), keep + [Pending(toks[k].symbol)])
    ensures StackRegistered(ops, next.stack)
    ensures Process(ops, st, toks[k..]) == Process(ops, next, toks[k + 1..])
  {
    PopExactly(ops, ops[toks[k].symbol], keep, above);
    assert toks[k..][1..] == toks[k + 1..];
    var m := |keep|;
    assert st.stack[m..] == above && st.stack[..m] == keep;
    var r := Step(ops, st, toks[k]);
    assert r.value.output == next.output;
    assert r.value.stack == next.stack;
  }

  /** The operators of `above` all go before `current` and the top of `keep` stops the
      popping: exactly `above` is popped. */
  lemma {:induction false} PopExactly(ops: map<string, Operator>, current: Operator, keep: seq<StackEntry>,
                                      above: seq<StackEntry>)
    requires StackRegistered(ops, keep + above)
    requires forall j | 0 <= j < |above| ::
               above[j].Pending? && above[j].symbol in ops && ShouldPop(current, ops[above[j].symbol])
    requires keep == [] || keep[|keep| - 1] == OpenParen ||
             (keep[|keep| - 1].symbol in ops && !ShouldPop(current, ops[keep[|keep| - 1].symbol]))
    ensures NoOpenParen(above)
    ensures PopCount(ops, current, keep + above) == |above|
    decreases |above|
  {
    if above == [] {
      assert keep + above == keep;
    } else {
      var init := above[..|above| - 1];
      assert (keep + above)[..|keep + above| - 1] == keep + init;
      assert (keep + above)[|keep + above| - 1] == above[|above| - 1];
      PopExactly(ops, current, keep, init);
    }
  }

  lemma EmittedOne(a: string)
    ensures NoOpenParen([Pending(a)]) && Emitted([Pending(a)]) == [Symbol(a)]
  {
    assert [Pending(a)][1..] == [];
  }

  lemma EmittedTwo(a: string, b: string)
    ensures NoOpenParen([Pending(a), Pending(b)])
    ensures Emitted([Pending(a), Pending(b)]) == [Symbol(b), Symbol(a)]
  {
    assert [Pending(a), Pending(b)][1..] == [Pending(b)];
    EmittedOne(b);
  }

  lemma EmittedThree(a: string, b: string, c: string)
    ensures NoOpenParen([Pending(a), Pending(b), Pending(c)])
    ensures Emitted([Pending(a), Pending(b), Pending(c)]) == [Symbol(c), Symbol(b), Symbol(a)]
  {
    var entries := [Pending(a), Pending(b), Pending(c)];
    assert entries[1..] == [Pending(b), Pending(c)];
    assert entries[1..][1..] == [Pending(c)];
    EmittedOne(c);
  }

  // ---------------------------------------------------------------------------------------
  // One step of the solver

  lemma RunNumberAt(ops: map<string, Operator>, rt: Runtime, q: seq<Token>, k: nat, stack: seq<real>,
                    next: seq<real>)
    requires k < |q| && q[k].Number? && next == stack + [q[k].value]
    ensures Run(ops, rt, q[k..], stack) == Run(ops, rt, q[k + 1..], next)
  {
    assert q[k..][1..] == q[k + 1..];
  }

  /** A binary operator applied to the top two values. */
  lemma RunBinaryAt(ops: map<string, Operator>, rt: Runtime, q: seq<Token>, k: nat, stack: seq<real>,
                    v: real, next: seq<real>)
    requires k < |q| && q[k].Symbol? && q[k].symbol in ops && ops[q[k].symbol].kind.Arity() == Binary
    requires |stack| >= 2 && ApplyBinary(rt, ops[q[k].symbol].kind, stack[|stack| - 2], stack[|stack| - 1]) == Ok(v)
    requires next == stack[..|stack| - 2] + [v]
    ensures Run(ops, rt, q[k..], stack) == Run(ops, rt, q[k + 1..], next)
  {
    assert q[k..][1..] == q[k + 1..];
    var r := Operation(ops, rt, q[k].symbol, stack);
    assert r.value == next;
  }

  /** A unary operator applied to the top value. */
  lemma RunUnaryAt(ops: map<string, Operator>, rt: Runtime, q: seq<Token>, k: nat, stack: seq<real>,
                   v: real, next: seq<real>)
    requires k < |q| && q[k].Symbol? && q[k].symbol in ops && ops[q[k].symbol].kind.Arity() == Unary
    requires |stack| >= 1 && ApplyUnary(rt, ops[q[k].symbol].kind, stack[|stack| - 1]) == Ok(v)
    requires next == stack[..|stack| - 1] + [v]
    ensures Run(ops, rt, q[k..], stack) == Run(ops, rt, q[k + 1..], next)
  {
    assert q[k..][1..] == q[k + 1..];
    var r := Operation(ops, rt, q[k].symbol, stack);
    assert r.value == next;
  }

  /** An operator the stack cannot feed. */
  lemma RunFailsAt(ops: map<string, Operator>, rt: Runtime, q: seq<Token>, k: nat, stack: seq<real>)
    requires k < |q| && q[k].Symbol? && q[k].symbol in ops && |stack| < Needed(ops[q[k].symbol])
    ensures Run(ops, rt, q[k..], stack) == Err(NotEnoughValues(q[k].symbol))
  {
  }

  // ---------------------------------------------------------------------------------------
  // The table, entry by entry

  /** The entries of the table up to `^`, each with the operator registered under it. */
  lemma TableEntriesLow()
    ensures "+" in Table() && Table()["+"] == Infix("+", AddOp, 1)
    ensures BinaryMinus in Table() && Table()[BinaryMinus] == Infix(BinaryMinus, SubtractOp, 1)
    ensures "*" in Table() && Table()["*"] == Infix("*", MultiplyOp, 2)
    ensures "/" in Table() && Table()["/"] == Infix("/", DivideOp, 2)
    ensures UnaryMinus in Table() && Table()[UnaryMinus] == Affix(UnaryMinus, UnaryMinusOp, 3, RightOfValue)
    ensures "^" in Table() && Table()["^"] == Infix("^", PowerOp, 4)
  {
  }

  /** The entries of the table above `^`. */
  lemma TableEntriesHigh()
    ensures "%" in Table() && Table()["%"] == Infix("%", ModuloOp, 5)
    ensures "$" in Table() && Table()["$"] == Infix("$", MaximumOp, 6)
    ensures "&" in Table() && Table()["&"] == Infix("&", MinimumOp, 6)
    ensures "@" in Table() && Table()["@"] == Infix("@", AverageOp, 6)
    ensures "!" in Table() && Table()["!"] == Affix("!", FactorialOp, 7, RightOfValue)
    ensures "~" in Table() && Table()["~"] == Affix("~", NegateOp, 7, LeftOfValue)
    ensures "#" in Table() && Table()["#"] == Affix("#", DigitSumOp, 7, RightOfValue)
    ensures SignMinus in Table() && Table()[SignMinus] == Affix(SignMinus, UnaryMinusOp, 8, LeftOfValue)
  {
  }

  // ---------------------------------------------------------------------------------------
  // The stages together

  /** `calculate` on an input, from what each stage makes of it. */
  lemma Evaluated(ops: map<string, Operator>, rt: Runtime, input: string, e: string, toks: seq<Token>,
                  st: ParserState, queue: seq<Token>, v: real)
    requires NonBlank(input) == e && TokensFrom(ops, e, 0, None) == LexOutcome(toks, None)
    requires Process(ops, Fresh, toks) == Ok(st) && OpenParen !in st.stack
    requires queue == st.output + Emitted(st.stack) && queue != []
    requires Run(ops, rt, queue, []) == Ok([v])
    ensures Evaluate(ops, rt, input) == Ok(v)
  {
    NormalizeIsFilter(input);
  }

  /** `calculate` on an input whose postfix queue fails in the solver. */
  lemma EvaluatedErr(ops: map<string, Operator>, rt: Runtime, input: string, e: string, toks: seq<Token>,
                     st: ParserState, queue: seq<Token>, err: Error)
    requires NonBlank(input) == e && TokensFrom(ops, e, 0, None) == LexOutcome(toks, None)
    requires Process(ops, Fresh, toks) == Ok(st) && OpenParen !in st.stack
    requires queue == st.output + Emitted(st.stack) && queue != []
    requires Run(ops, rt, queue, []) == Err(err)
    ensures Evaluate(ops, rt, input) == Err(err)
  {
    NormalizeIsFilter(input);
  }

  // ---------------------------------------------------------------------------------------
  // `2 ^ 3 ^ 4`

  /** The characters of the normalized `2 ^ 3 ^ 4`. */
  predicate PowerChars(e: string) {
    |e| == 5 && e[0] == '2' && e[1] == '^' && e[2] == '3' && e[3] == '^' && e[4] == '4'
  }

  predicate PowerTokenList(t: seq<Token>) {
    |t| == 5 && t[0] == Number(2.0) && t[1] == Symbol("^") && t[2] == Number(3.0)
      && t[3] == Symbol("^") && t[4] == Number(4.0)
  }

  predicate PowerQueue(q: seq<Token>) {
    |q| == 5 && q[0] == Number(2.0) && q[1] == Number(3.0) && q[2] == Symbol("^")
      && q[3] == Number(4.0) && q[4] == Symbol("^")
  }

  predicate PowerInputChars(s: string) {
    |s| == 9 && s[0] == '2' && s[1] == ' ' && s[2] == '^' && s[3] == ' ' && s[4] == '3'
      && s[5] == ' ' && s[6] == '^' && s[7] == ' ' && s[8] == '4'
  }

  lemma PowerInput0(s: string)
    requires s == "2 ^ 3 ^ 4"
    ensures |s| == 9 && s[0] == '2' && s[1] == ' ' && s[2] == '^' && s[3] == ' ' && s[4] == '3'
            && s[5] == ' ' && s[6] == '^' && s[7] == ' '
  {
  }

  lemma PowerInput8(s: string)
    requires s == "2 ^ 3 ^ 4"
    ensures |s| == 9 && s[8] == '4'
  {
  }

  lemma PowerInput(s: string)
    requires s == "2 ^ 3 ^ 4"
    ensures PowerInputChars(s)
  {
    PowerInput0(s);
    PowerInput8(s);
  }

  lemma PowerText(s: string, e: string)
    requires PowerInputChars(s) && PowerChars(e)
    ensures NonBlank(s) == e
  {
    assert s[9..] == [] && e[5..] == [];
    NonBlankKeptBlankKept(s, 6, e, 3);
    NonBlankBlankKeptBlank(s, 3, e, 2);
    NonBlankKeptBlankKept(s, 0, e, 0);
    assert s[0..] == s && e[0..] == e;
  }

  lemma PowerSpelling(e: string)
    requires e == "2^3^4"
    ensures PowerChars(e)
  {
  }

  lemma PowerTokenFacts(t: seq<Token>)
    requires t == [Number(2.0), Symbol("^"), Number(3.0), Symbol("^"), Number(4.0)]
    ensures PowerTokenList(t)
  {
  }

  lemma PowerQueueFacts(q: seq<Token>)
    requires q == [Number(2.0), Number(3.0), Symbol("^"), Number(4.0), Symbol("^")]
    ensures PowerQueue(q)
  {
  }

  lemma PowerTokensFrom0(ops: map<string, Operator>, e: string, t: seq<Token>)
    requires "^" in ops
    requires |e| == 5 && e[0] == '2' && e[1] == '^' && e[2] == '3' && e[3] == '^'
    requires |t| == 5 && t[0] == Number(2.0) && t[1] == Symbol("^") && t[2] == Number(3.0)
    requires TokensFrom(ops, e, 3, Some(NumberClass)) == LexOutcome(t[3..], None)
    ensures TokensFrom(ops, e, 0, None) == LexOutcome(t[0..], None)
  {
    LexDigitAt(ops, e, 2, '3', Some(OperatorClass), t, 2);
    LexSymbolAt(ops, e, 1, Some(NumberClass), t, 1);
    LexDigitAt(ops, e, 0, '2', None, t, 0);
  }

  lemma PowerTokensFrom3(ops: map<string, Operator>, e: string, t: seq<Token>)
    requires "^" in ops
    requires |e| == 5 && e[3] == '^' && e[4] == '4'
    requires |t| == 5 && t[3] == Symbol("^") && t[4] == Number(4.0)
    ensures TokensFrom(ops, e, 3, Some(NumberClass)) == LexOutcome(t[3..], None)
  {
    assert TokensFrom(ops, e, 5, Some(NumberClass)) == LexOutcome(t[5..], None);
    LexDigitAt(ops, e, 4, '4', Some(OperatorClass), t, 4);
    LexSymbolAt(ops, e, 3, Some(NumberClass), t, 3);
  }

  lemma PowerLexed(ops: map<string, Operator>, e: string, t: seq<Token>)
    requires "^" in ops
    requires PowerChars(e) && PowerTokenList(t)
    ensures TokensFrom(ops, e, 0, None) == LexOutcome(t, None)
  {
    PowerTokensFrom3(ops, e, t);
    PowerTokensFrom0(ops, e, t);
    assert t[0..] == t;
  }

  lemma PowerParse0(ops: map<string, Operator>, t: seq<Token>)
    requires |t| == 5 && t[0] == Number(2.0)
    ensures Process(ops, ParserState([], []), t[0..])
         == Process(ops, ParserState([Number(2.0)], []), t[1..])
  {
    var s0 := ParserState([], []);
    var s1 := ParserState([Number(2.0)], []);
    ParseNumberAt(ops, t, 0, s0, s1);
  }

  lemma PowerParse1(ops: map<string, Operator>, t: seq<Token>)
    requires "^" in ops && ops["^"] == Infix("^", PowerOp, 4)
    requires |t| == 5 && t[1] == Symbol("^")
    ensures Process(ops, ParserState([Number(2.0)], []), t[1..])
         == Process(ops, ParserState([Number(2.0)], [Pending("^")]), t[2..])
  {
    var s1 := ParserState([Number(2.0)], []);
    var s2 := ParserState([Number(2.0)], [Pending("^")]);
    ParseOperatorAt(ops, t, 1, s1, [], [], s2);
  }

  lemma PowerParse2(ops: map<string, Operator>, t: seq<Token>)
    requires "^" in ops && ops["^"] == Infix("^", PowerOp, 4)
    requires |t| == 5 && t[2] == Number(3.0)
    ensures Process(ops, ParserState([Number(2.0)], [Pending("^")]), t[2..])
         == Process(ops, ParserState([Number(2.0), Number(3.0)], [Pending("^")]), t[3..])
  {
    var s2 := ParserState([Number(2.0)], [Pending("^")]);
    var s3 := ParserState([Number(2.0), Number(3.0)], [Pending("^")]);
    ParseNumberAt(ops, t, 2, s2, s3);
  }

  lemma PowerParse3(ops: map<string, Operator>, t: seq<Token>)
    requires "^" in ops && ops["^"] == Infix("^", PowerOp, 4)
    requires |t| == 5 && t[3] == Symbol("^")
    ensures Process(ops, ParserState([Number(2.0), Number(3.0)], [Pending("^")]), t[3..])
         == Process(ops, ParserState([Number(2.0), Number(3.0), Symbol("^")], [Pending("^")]), t[4..])
  {
    var s3 := ParserState([Number(2.0), Number(3.0)], [Pending("^")]);
    var s4 := ParserState([Number(2.0), Number(3.0), Symbol("^")], [Pending("^")]);
    EmittedOne("^");
    ParseOperatorAt(ops, t, 3, s3, [], [Pending("^")], s4);
  }

  lemma PowerParse4(ops: map<string, Operator>, t: seq<Token>)
    requires "^" in ops && ops["^"] == Infix("^", PowerOp, 4)
    requires |t| == 5 && t[4] == Number(4.0)
    ensures Process(ops, ParserState([Number(2.0), Number(3.0), Symbol("^")], [Pending("^")]), t[4..])
         == Process(ops, ParserState([Number(2.0), Number(3.0), Symbol("^"), Number(4.0)], [Pending("^")]), t[5..])
  {
    var s4 := ParserState([Number(2.0), Number(3.0), Symbol("^")], [Pending("^")]);
    var s5 := ParserState([Number(2.0), Number(3.0), Symbol("^"), Number(4.0)], [Pending("^")]);
    ParseNumberAt(ops, t, 4, s4, s5);
  }

  lemma PowerPostfix(ops: map<string, Operator>, t: seq<Token>)
    requires "^" in ops && ops["^"] == Infix("^", PowerOp, 4)
    requires PowerTokenList(t)
    ensures Process(ops, Fresh, t) == Ok(ParserState([Number(2.0), Number(3.0), Symbol("^"), Number(4.0)], [Pending("^")]))
  {
    PowerParse0(ops, t);
    PowerParse1(ops, t);
    PowerParse2(ops, t);
    PowerParse3(ops, t);
    PowerParse4(ops, t);
    assert t[0..] == t && t[5..] == [];
  }

  lemma PowerRun0(ops: map<string, Operator>, rt: Runtime, q: seq<Token>)
    requires |q| == 5 && q[0] == Number(2.0)
    ensures Run(ops, rt, q[0..], []) == Run(ops, rt, q[1..], [2.0])
  {
    RunNumberAt(ops, rt, q, 0, [], [2.0]);
  }

  lemma PowerRun1(ops: map<string, Operator>, rt: Runtime, q: seq<Token>)
    requires |q| == 5 && q[1] == Number(3.0)
    ensures Run(ops, rt, q[1..], [2.0]) == Run(ops, rt, q[2..], [2.0, 3.0])
  {
    RunNumberAt(ops, rt, q, 1, [2.0], [2.0, 3.0]);
  }

  lemma PowerRun2(ops: map<string, Operator>, rt: Runtime, q: seq<Token>)
    requires "^" in ops && ops["^"] == Infix("^", PowerOp, 4)
    requires rt.pow(2.0, 3.0) == Some(8.0)
    requires |q| == 5 && q[2] == Symbol("^")
    ensures Run(ops, rt, q[2..], [2.0, 3.0]) == Run(ops, rt, q[3..], [8.0])
  {
    RunBinaryAt(ops, rt, q, 2, [2.0, 3.0], 8.0, [8.0]);
  }

  lemma PowerRun3(ops: map<string, Operator>, rt: Runtime, q: seq<Token>)
    requires |q| == 5 && q[3] == Number(4.0)
    ensures Run(ops, rt, q[3..], [8.0]) == Run(ops, rt, q[4..], [8.0, 4.0])
  {
    RunNumberAt(ops, rt, q, 3, [8.0], [8.0, 4.0]);
  }

  lemma PowerRun4(ops: map<string, Operator>, rt: Runtime, q: seq<Token>)
    requires "^" in ops && ops["^"] == Infix("^", PowerOp, 4)
    requires rt.pow(8.0, 4.0) == Some(4096.0)
    requires |q| == 5 && q[4] == Symbol("^")
    ensures Run(ops, rt, q[4..], [8.0, 4.0]) == Run(ops, rt, q[5..], [4096.0])
  {
    RunBinaryAt(ops, rt, q, 4, [8.0, 4.0], 4096.0, [4096.0]);
  }

  lemma PowerValue(ops: map<string, Operator>, rt: Runtime, q: seq<Token>)
    requires "^" in ops && ops["^"] == Infix("^", PowerOp, 4)
    requires rt.pow(2.0, 3.0) == Some(8.0) && rt.pow(8.0, 4.0) == Some(4096.0) && PowerQueue(q)
    ensures Run(ops, rt, q, []) == Ok([4096.0])
  {
    PowerRun0(ops, rt, q);
    PowerRun1(ops, rt, q);
    PowerRun2(ops, rt, q);
    PowerRun3(ops, rt, q);
    PowerRun4(ops, rt, q);
    assert q[0..] == q && q[5..] == [];
  }

  lemma PowerLexStage(ops: map<string, Operator>) returns (e: string, t: seq<Token>)
    requires "^" in ops
    ensures PowerChars(e) && PowerTokenList(t) && TokensFrom(ops, e, 0, None) == LexOutcome(t, None)
  {
    e := "2^3^4";
    t := [Number(2.0), Symbol("^"), Number(3.0), Symbol("^"), Number(4.0)];
    PowerSpelling(e);
    PowerTokenFacts(t);
    PowerLexed(ops, e, t);
  }

  lemma PowerParseStage(ops: map<string, Operator>, t: seq<Token>) returns (st: ParserState, q: seq<Token>)
    requires "^" in ops && ops["^"] == Infix("^", PowerOp, 4)
    requires PowerTokenList(t)
    ensures Process(ops, Fresh, t) == Ok(st) && OpenParen !in st.stack
    ensures q == st.output + Emitted(st.stack) && PowerQueue(q)
  {
    st := ParserState([Number(2.0), Number(3.0), Symbol("^"), Number(4.0)], [Pending("^")]);
    q := [Number(2.0), Number(3.0), Symbol("^"), Number(4.0), Symbol("^")];
    PowerPostfix(ops, t);
    PowerQueueFacts(q);
    EmittedOne("^");
    assert st.output + Emitted(st.stack) == q;
  }

  lemma PowerStages(ops: map<string, Operator>, rt: Runtime)
    returns (e: string, t: seq<Token>, st: ParserState, q: seq<Token>)
    requires "^" in ops && ops["^"] == Infix("^", PowerOp, 4)
    requires rt.pow(2.0, 3.0) == Some(8.0) && rt.pow(8.0, 4.0) == Some(4096.0)
    ensures PowerChars(e) && TokensFrom(ops, e, 0, None) == LexOutcome(t, None)
    ensures Process(ops, Fresh, t) == Ok(st) && OpenParen !in st.stack
    ensures q == st.output + Emitted(st.stack) && q != []
    ensures Run(ops, rt, q, []) == Ok([4096.0])
  {
    e, t := PowerLexStage(ops);
    st, q := PowerParseStage(ops, t);
    PowerValue(ops, rt, q);
  }

  /** `calculate("2 ^ 3 ^ 4")` is (2 ^ 3) ^ 4 = 4096: the second `^` pops the first, as
      operators of equal intensity facing left do. */
  lemma PowerGroupsLeft(rt: Runtime, input: string)
    requires input == "2 ^ 3 ^ 4"
    requires rt.pow(2.0, 3.0) == Some(8.0) && rt.pow(8.0, 4.0) == Some(4096.0)
    ensures Evaluate(Table(), rt, input) == Ok(4096.0)
  {
    TableEntriesLow();
    TableEntriesHigh();
    var e, t, st, q := PowerStages(Table(), rt);
    PowerInput(input);
    PowerText(input, e);
    Evaluated(Table(), rt, input, e, t, st, q, 4096.0);
  }

  // ---------------------------------------------------------------------------------------
  // `-1 + 7`

  /** The characters of the normalized `-1 + 7`. */
  predicate LeadingChars(e: string) {
    |e| == 4 && e[0] == '-' && e[1] == '1' && e[2] == '+' && e[3] == '7'
  }

  predicate LeadingTokenList(t: seq<Token>) {
    |t| == 4 && t[0] == Symbol(UnaryMinus) && t[1] == Number(1.0) && t[2] == Symbol("+")
      && t[3] == Number(7.0)
  }

  predicate LeadingQueue(q: seq<Token>) {
    |q| == 4 && q[0] == Number(1.0) && q[1] == Symbol(UnaryMinus) && q[2] == Number(7.0)
      && q[3] == Symbol("+")
  }

  predicate LeadingInputChars(s: string) {
    |s| == 6 && s[0] == '-' && s[1] == '1' && s[2] == ' ' && s[3] == '+' && s[4] == ' '
      && s[5] == '7'
  }

  lemma LeadingInput(s: string)
    requires s == "-1 + 7"
    ensures LeadingInputChars(s)
  {
  }

  lemma LeadingText(s: string, e: string)
    requires LeadingInputChars(s) && LeadingChars(e)
    ensures NonBlank(s) == e
  {
    assert s[6..] == [] && e[4..] == [];
    NonBlankKeptBlankKept(s, 3, e, 2);
    NonBlankKeptKeptBlank(s, 0, e, 0);
    assert s[0..] == s && e[0..] == e;
  }

  lemma LeadingSpelling(e: string)
    requires e == "-1+7"
    ensures LeadingChars(e)
  {
  }

  lemma LeadingTokenFacts(t: seq<Token>)
    requires t == [Symbol(UnaryMinus), Number(1.0), Symbol("+"), Number(7.0)]
    ensures LeadingTokenList(t)
  {
  }

  lemma LeadingQueueFacts(q: seq<Token>)
    requires q == [Number(1.0), Symbol(UnaryMinus), Number(7.0), Symbol("+")]
    ensures LeadingQueue(q)
  {
  }

  lemma LeadingTokensFrom0(ops: map<string, Operator>, e: string, t: seq<Token>)
    requires "+" in ops
    requires |e| == 4 && e[0] == '-' && e[1] == '1' && e[2] == '+' && e[3] == '7'
    requires |t| == 4 && t[0] == Symbol(UnaryMinus) && t[1] == Number(1.0)
             && t[2] == Symbol("+")
    requires TokensFrom(ops, e, 3, Some(OperatorClass)) == LexOutcome(t[3..], None)
    ensures TokensFrom(ops, e, 0, None) == LexOutcome(t[0..], None)
  {
    LexSymbolAt(ops, e, 2, Some(NumberClass), t, 2);
    LexDigitAt(ops, e, 1, '1', Some(OperatorClass), t, 1);
    LexSymbolAt(ops, e, 0, None, t, 0);
  }

  lemma LeadingTokensFrom3(ops: map<string, Operator>, e: string, t: seq<Token>)
    requires |e| == 4 && e[3] == '7'
    requires |t| == 4 && t[3] == Number(7.0)
    ensures TokensFrom(ops, e, 3, Some(OperatorClass)) == LexOutcome(t[3..], None)
  {
    assert TokensFrom(ops, e, 4, Some(NumberClass)) == LexOutcome(t[4..], None);
    LexDigitAt(ops, e, 3, '7', Some(OperatorClass), t, 3);
  }

  lemma LeadingLexed(ops: map<string, Operator>, e: string, t: seq<Token>)
    requires "+" in ops
    requires LeadingChars(e) && LeadingTokenList(t)
    ensures TokensFrom(ops, e, 0, None) == LexOutcome(t, None)
  {
    LeadingTokensFrom3(ops, e, t);
    LeadingTokensFrom0(ops, e, t);
    assert t[0..] == t;
  }

  lemma LeadingParse0(ops: map<string, Operator>, t: seq<Token>)
    requires UnaryMinus in ops && ops[UnaryMinus] == Affix(UnaryMinus, UnaryMinusOp, 3, RightOfValue)
    requires |t| == 4 && t[0] == Symbol(UnaryMinus)
    ensures Process(ops, ParserState([], []), t[0..])
         == Process(ops, ParserState([], [Pending(UnaryMinus)]), t[1..])
  {
    var s0 := ParserState([], []);
    var s1 := ParserState([], [Pending(UnaryMinus)]);
    ParseOperatorAt(ops, t, 0, s0, [], [], s1);
  }

  lemma LeadingParse1(ops: map<string, Operator>, t: seq<Token>)
    requires UnaryMinus in ops && ops[UnaryMinus] == Affix(UnaryMinus, UnaryMinusOp, 3, RightOfValue)
    requires |t| == 4 && t[1] == Number(1.0)
    ensures Process(ops, ParserState([], [Pending(UnaryMinus)]), t[1..])
         == Process(ops, ParserState([Number(1.0)], [Pending(UnaryMinus)]), t[2..])
  {
    var s1 := ParserState([], [Pending(UnaryMinus)]);
    var s2 := ParserState([Number(1.0)], [Pending(UnaryMinus)]);
    ParseNumberAt(ops, t, 1, s1, s2);
  }

  lemma LeadingParse2(ops: map<string, Operator>, t: seq<Token>)
    requires "+" in ops && ops["+"] == Infix("+", AddOp, 1)
             && UnaryMinus in ops && ops[UnaryMinus] == Affix(UnaryMinus, UnaryMinusOp, 3, RightOfValue)
    requires |t| == 4 && t[2] == Symbol("+")
    ensures Process(ops, ParserState([Number(1.0)], [Pending(UnaryMinus)]), t[2..])
         == Process(ops, ParserState([Number(1.0), Symbol(UnaryMinus)], [Pending("+")]), t[3..])
  {
    var s2 := ParserState([Number(1.0)], [Pending(UnaryMinus)]);
    var s3 := ParserState([Number(1.0), Symbol(UnaryMinus)], [Pending("+")]);
    EmittedOne(UnaryMinus);
    ParseOperatorAt(ops, t, 2, s2, [], [Pending(UnaryMinus)], s3);
  }

  lemma LeadingParse3(ops: map<string, Operator>, t: seq<Token>)
    requires "+" in ops && ops["+"] == Infix("+", AddOp, 1)
    requires |t| == 4 && t[3] == Number(7.0)
    ensures Process(ops, ParserState([Number(1.0), Symbol(UnaryMinus)], [Pending("+")]), t[3..])
         == Process(ops, ParserState([Number(1.0), Symbol(UnaryMinus), Number(7.0)], [Pending("+")]), t[4..])
  {
    var s3 := ParserState([Number(1.0), Symbol(UnaryMinus)], [Pending("+")]);
    var s4 := ParserState([Number(1.0), Symbol(UnaryMinus), Number(7.0)], [Pending("+")]);
    ParseNumberAt(ops, t, 3, s3, s4);
  }

  lemma LeadingPostfix(ops: map<string, Operator>, t: seq<Token>)
    requires "+" in ops && ops["+"] == Infix("+", AddOp, 1)
             && UnaryMinus in ops && ops[UnaryMinus] == Affix(UnaryMinus, UnaryMinusOp, 3, RightOfValue)
    requires LeadingTokenList(t)
    ensures Process(ops, Fresh, t) == Ok(ParserState([Number(1.0), Symbol(UnaryMinus), Number(7.0)], [Pending("+")]))
  {
    LeadingParse0(ops, t);
    LeadingParse1(ops, t);
    LeadingParse2(ops, t);
    LeadingParse3(ops, t);
    assert t[0..] == t && t[4..] == [];
  }

  lemma LeadingRun0(ops: map<string, Operator>, rt: Runtime, q: seq<Token>)
    requires |q| == 4 && q[0] == Number(1.0)
    ensures Run(ops, rt, q[0..], []) == Run(ops, rt, q[1..], [1.0])
  {
    RunNumberAt(ops, rt, q, 0, [], [1.0]);
  }

  lemma LeadingRun1(ops: map<string, Operator>, rt: Runtime, q: seq<Token>)
    requires UnaryMinus in ops && ops[UnaryMinus] == Affix(UnaryMinus, UnaryMinusOp, 3, RightOfValue)
    requires |q| == 4 && q[1] == Symbol(UnaryMinus)
    ensures Run(ops, rt, q[1..], [1.0]) == Run(ops, rt, q[2..], [-1.0])
  {
    RunUnaryAt(ops, rt, q, 1, [1.0], -1.0, [-1.0]);
  }

  lemma LeadingRun2(ops: map<string, Operator>, rt: Runtime, q: seq<Token>)
    requires |q| == 4 && q[2] == Number(7.0)
    ensures Run(ops, rt, q[2..], [-1.0]) == Run(ops, rt, q[3..], [-1.0, 7.0])
  {
    RunNumberAt(ops, rt, q, 2, [-1.0], [-1.0, 7.0]);
  }

  lemma LeadingRun3(ops: map<string, Operator>, rt: Runtime, q: seq<Token>)
    requires "+" in ops && ops["+"] == Infix("+", AddOp, 1)
    requires |q| == 4 && q[3] == Symbol("+")
    ensures Run(ops, rt, q[3..], [-1.0, 7.0]) == Run(ops, rt, q[4..], [6.0])
  {
    RunBinaryAt(ops, rt, q, 3, [-1.0, 7.0], 6.0, [6.0]);
  }

  lemma LeadingValue(ops: map<string, Operator>, rt: Runtime, q: seq<Token>)
    requires "+" in ops && ops["+"] == Infix("+", AddOp, 1)
             && UnaryMinus in ops && ops[UnaryMinus] == Affix(UnaryMinus, UnaryMinusOp, 3, RightOfValue)
    requires LeadingQueue(q)
    ensures Run(ops, rt, q, []) == Ok([6.0])
  {
    LeadingRun0(ops, rt, q);
    LeadingRun1(ops, rt, q);
    LeadingRun2(ops, rt, q);
    LeadingRun3(ops, rt, q);
    assert q[0..] == q && q[4..] == [];
  }

  lemma LeadingLexStage(ops: map<string, Operator>) returns (e: string, t: seq<Token>)
    requires "+" in ops
    ensures LeadingChars(e) && LeadingTokenList(t) && TokensFrom(ops, e, 0, None) == LexOutcome(t, None)
  {
    e := "-1+7";
    t := [Symbol(UnaryMinus), Number(1.0), Symbol("+"), Number(7.0)];
    LeadingSpelling(e);
    LeadingTokenFacts(t);
    LeadingLexed(ops, e, t);
  }

  lemma LeadingParseStage(ops: map<string, Operator>, t: seq<Token>) returns (st: ParserState, q: seq<Token>)
    requires "+" in ops && ops["+"] == Infix("+", AddOp, 1)
             && UnaryMinus in ops && ops[UnaryMinus] == Affix(UnaryMinus, UnaryMinusOp, 3, RightOfValue)
    requires LeadingTokenList(t)
    ensures Process(ops, Fresh, t) == Ok(st) && OpenParen !in st.stack
    ensures q == st.output + Emitted(st.stack) && LeadingQueue(q)
  {
    st := ParserState([Number(1.0), Symbol(UnaryMinus), Number(7.0)], [Pending("+")]);
    q := [Number(1.0), Symbol(UnaryMinus), Number(7.0), Symbol("+")];
    LeadingPostfix(ops, t);
    LeadingQueueFacts(q);
    EmittedOne("+");
    assert st.output + Emitted(st.stack) == q;
  }

  lemma LeadingStages(ops: map<string, Operator>, rt: Runtime)
    returns (e: string, t: seq<Token>, st: ParserState, q: seq<Token>)
    requires "+" in ops && ops["+"] == Infix("+", AddOp, 1)
             && UnaryMinus in ops && ops[UnaryMinus] == Affix(UnaryMinus, UnaryMinusOp, 3, RightOfValue)
    ensures LeadingChars(e) && TokensFrom(ops, e, 0, None) == LexOutcome(t, None)
    ensures Process(ops, Fresh, t) == Ok(st) && OpenParen !in st.stack
    ensures q == st.output + Emitted(st.stack) && q != []
    ensures Run(ops, rt, q, []) == Ok([6.0])
  {
    e, t := LeadingLexStage(ops);
    st, q := LeadingParseStage(ops, t);
    LeadingValue(ops, rt, q);
  }

  /** `calculate("-1 + 7")` is 6: a leading minus is the unary minus, which binds tighter
      than `+`. */
  lemma LeadingMinus(rt: Runtime, input: string)
    requires input == "-1 + 7"
    ensures Evaluate(Table(), rt, input) == Ok(6.0)
  {
    TableEntriesLow();
    TableEntriesHigh();
    var e, t, st, q := LeadingStages(Table(), rt);
    LeadingInput(input);
    LeadingText(input, e);
    Evaluated(Table(), rt, input, e, t, st, q, 6.0);
  }

  // ---------------------------------------------------------------------------------------
  // `-2 ^ 4`

  /** The characters of the normalized `-2 ^ 4`. */
  predicate SignedChars(e: string) {
    |e| == 4 && e[0] == '-' && e[1] == '2' && e[2] == '^' && e[3] == '4'
  }

  predicate SignedTokenList(t: seq<Token>) {
    |t| == 4 && t[0] == Symbol(UnaryMinus) && t[1] == Number(2.0) && t[2] == Symbol("^")
      && t[3] == Number(4.0)
  }

  predicate SignedQueue(q: seq<Token>) {
    |q| == 4 && q[0] == Number(2.0) && q[1] == Number(4.0) && q[2] == Symbol("^")
      && q[3] == Symbol(UnaryMinus)
  }

  predicate SignedInputChars(s: string) {
    |s| == 6 && s[0] == '-' && s[1] == '2' && s[2] == ' ' && s[3] == '^' && s[4] == ' '
      && s[5] == '4'
  }

  lemma SignedInput(s: string)
    requires s == "-2 ^ 4"
    ensures SignedInputChars(s)
  {
  }

  lemma SignedText(s: string, e: string)
    requires SignedInputChars(s) && SignedChars(e)
    ensures NonBlank(s) == e
  {
    assert s[6..] == [] && e[4..] == [];
    NonBlankKeptBlankKept(s, 3, e, 2);
    NonBlankKeptKeptBlank(s, 0, e, 0);
    assert s[0..] == s && e[0..] == e;
  }

  lemma SignedSpelling(e: string)
    requires e == "-2^4"
    ensures SignedChars(e)
  {
  }

  lemma SignedTokenFacts(t: seq<Token>)
    requires t == [Symbol(UnaryMinus), Number(2.0), Symbol("^"), Number(4.0)]
    ensures SignedTokenList(t)
  {
  }

  lemma SignedQueueFacts(q: seq<Token>)
    requires q == [Number(2.0), Number(4.0), Symbol("^"), Symbol(UnaryMinus)]
    ensures SignedQueue(q)
  {
  }

  lemma SignedTokensFrom0(ops: map<string, Operator>, e: string, t: seq<Token>)
    requires "^" in ops
    requires |e| == 4 && e[0] == '-' && e[1] == '2' && e[2] == '^' && e[3] == '4'
    requires |t| == 4 && t[0] == Symbol(UnaryMinus) && t[1] == Number(2.0)
             && t[2] == Symbol("^")
    requires TokensFrom(ops, e, 3, Some(OperatorClass)) == LexOutcome(t[3..], None)
    ensures TokensFrom(ops, e, 0, None) == LexOutcome(t[0..], None)
  {
    LexSymbolAt(ops, e, 2, Some(NumberClass), t, 2);
    LexDigitAt(ops, e, 1, '2', Some(OperatorClass), t, 1);
    LexSymbolAt(ops, e, 0, None, t, 0);
  }

  lemma SignedTokensFrom3(ops: map<string, Operator>, e: string, t: seq<Token>)
    requires |e| == 4 && e[3] == '4'
    requires |t| == 4 && t[3] == Number(4.0)
    ensures TokensFrom(ops, e, 3, Some(OperatorClass)) == LexOutcome(t[3..], None)
  {
    assert TokensFrom(ops, e, 4, Some(NumberClass)) == LexOutcome(t[4..], None);
    LexDigitAt(ops, e, 3, '4', Some(OperatorClass), t, 3);
  }

  lemma SignedLexed(ops: map<string, Operator>, e: string, t: seq<Token>)
    requires "^" in ops
    requires SignedChars(e) && SignedTokenList(t)
    ensures TokensFrom(ops, e, 0, None) == LexOutcome(t, None)
  {
    SignedTokensFrom3(ops, e, t);
    SignedTokensFrom0(ops, e, t);
    assert t[0..] == t;
  }

  lemma SignedParse1(ops: map<string, Operator>, t: seq<Token>)
    requires UnaryMinus in ops && ops[UnaryMinus] == Affix(UnaryMinus, UnaryMinusOp, 3, RightOfValue)
    requires |t| == 4 && t[1] == Number(2.0)
    ensures Process(ops, ParserState([], [Pending(UnaryMinus)]), t[1..])
         == Process(ops, ParserState([Number(2.0)], [Pending(UnaryMinus)]), t[2..])
  {
    var s1 := ParserState([], [Pending(UnaryMinus)]);
    var s2 := ParserState([Number(2.0)], [Pending(UnaryMinus)]);
    ParseNumberAt(ops, t, 1, s1, s2);
  }

  lemma SignedParse2(ops: map<string, Operator>, t: seq<Token>)
    requires "^" in ops && ops["^"] == Infix("^", PowerOp, 4)
             && UnaryMinus in ops && ops[UnaryMinus] == Affix(UnaryMinus, UnaryMinusOp, 3, RightOfValue)
    requires |t| == 4 && t[2] == Symbol("^")
    ensures Process(ops, ParserState([Number(2.0)], [Pending(UnaryMinus)]), t[2..])
         == Process(ops, ParserState([Number(2.0)], [Pending(UnaryMinus), Pending("^")]), t[3..])
  {
    var s2 := ParserState([Number(2.0)], [Pending(UnaryMinus)]);
    var s3 := ParserState([Number(2.0)], [Pending(UnaryMinus), Pending("^")]);
    ParseOperatorAt(ops, t, 2, s2, [Pending(UnaryMinus)], [], s3);
  }

  lemma SignedParse3(ops: map<string, Operator>, t: seq<Token>)
    requires "^" in ops && ops["^"] == Infix("^", PowerOp, 4)
             && UnaryMinus in ops && ops[UnaryMinus] == Affix(UnaryMinus, UnaryMinusOp, 3, RightOfValue)
    requires |t| == 4 && t[3] == Number(4.0)
    ensures Process(ops, ParserState([Number(2.0)], [Pending(UnaryMinus), Pending("^")]), t[3..])
         == Process(ops, ParserState([Number(2.0), Number(4.0)], [Pending(UnaryMinus), Pending("^")]), t[4..])
  {
    var s3 := ParserState([Number(2.0)], [Pending(UnaryMinus), Pending("^")]);
    var s4 := ParserState([Number(2.0), Number(4.0)], [Pending(UnaryMinus), Pending("^")]);
    ParseNumberAt(ops, t, 3, s3, s4);
  }

  lemma SignedPostfix(ops: map<string, Operator>, t: seq<Token>)
    requires "^" in ops && ops["^"] == Infix("^", PowerOp, 4)
             && UnaryMinus in ops && ops[UnaryMinus] == Affix(UnaryMinus, UnaryMinusOp, 3, RightOfValue)
    requires SignedTokenList(t)
    ensures Process(ops, Fresh, t) == Ok(ParserState([Number(2.0), Number(4.0)], [Pending(UnaryMinus), Pending("^")]))
  {
    LeadingParse0(ops, t);
    SignedParse1(ops, t);
    SignedParse2(ops, t);
    SignedParse3(ops, t);
    assert t[0..] == t && t[4..] == [];
  }

  lemma SignedRun0(ops: map<string, Operator>, rt: Runtime, q: seq<Token>)
    requires |q| == 4 && q[0] == Number(2.0)
    ensures Run(ops, rt, q[0..], []) == Run(ops, rt, q[1..], [2.0])
  {
    RunNumberAt(ops, rt, q, 0, [], [2.0]);
  }

  lemma SignedRun1(ops: map<string, Operator>, rt: Runtime, q: seq<Token>)
    requires |q| == 4 && q[1] == Number(4.0)
    ensures Run(ops, rt, q[1..], [2.0]) == Run(ops, rt, q[2..], [2.0, 4.0])
  {
    RunNumberAt(ops, rt, q, 1, [2.0], [2.0, 4.0]);
  }

  lemma SignedRun2(ops: map<string, Operator>, rt: Runtime, q: seq<Token>)
    requires "^" in ops && ops["^"] == Infix("^", PowerOp, 4)
    requires rt.pow(2.0, 4.0) == Some(16.0)
    requires |q| == 4 && q[2] == Symbol("^")
    ensures Run(ops, rt, q[2..], [2.0, 4.0]) == Run(ops, rt, q[3..], [16.0])
  {
    RunBinaryAt(ops, rt, q, 2, [2.0, 4.0], 16.0, [16.0]);
  }

  lemma SignedRun3(ops: map<string, Operator>, rt: Runtime, q: seq<Token>)
    requires UnaryMinus in ops && ops[UnaryMinus] == Affix(UnaryMinus, UnaryMinusOp, 3, RightOfValue)
    requires |q| == 4 && q[3] == Symbol(UnaryMinus)
    ensures Run(ops, rt, q[3..], [16.0]) == Run(ops, rt, q[4..], [-16.0])
  {
    RunUnaryAt(ops, rt, q, 3, [16.0], -16.0, [-16.0]);
  }

  lemma SignedValue(ops: map<string, Operator>, rt: Runtime, q: seq<Token>)
    requires "^" in ops && ops["^"] == Infix("^", PowerOp, 4)
             && UnaryMinus in ops && ops[UnaryMinus] == Affix(UnaryMinus, UnaryMinusOp, 3, RightOfValue)
    requires rt.pow(2.0, 4.0) == Some(16.0) && SignedQueue(q)
    ensures Run(ops, rt, q, []) == Ok([-16.0])
  {
    SignedRun0(ops, rt, q);
    SignedRun1(ops, rt, q);
    SignedRun2(ops, rt, q);
    SignedRun3(ops, rt, q);
    assert q[0..] == q && q[4..] == [];
  }

  lemma SignedLexStage(ops: map<string, Operator>) returns (e: string, t: seq<Token>)
    requires "^" in ops
    ensures SignedChars(e) && SignedTokenList(t) && TokensFrom(ops, e, 0, None) == LexOutcome(t, None)
  {
    e := "-2^4";
    t := [Symbol(UnaryMinus), Number(2.0), Symbol("^"), Number(4.0)];
    SignedSpelling(e);
    SignedTokenFacts(t);
    SignedLexed(ops, e, t);
  }

  lemma SignedParseStage(ops: map<string, Operator>, t: seq<Token>) returns (st: ParserState, q: seq<Token>)
    requires "^" in ops && ops["^"] == Infix("^", PowerOp, 4)
             && UnaryMinus in ops && ops[UnaryMinus] == Affix(UnaryMinus, UnaryMinusOp, 3, RightOfValue)
    requires SignedTokenList(t)
    ensures Process(ops, Fresh, t) == Ok(st) && OpenParen !in st.stack
    ensures q == st.output + Emitted(st.stack) && SignedQueue(q)
  {
    st := ParserState([Number(2.0), Number(4.0)], [Pending(UnaryMinus), Pending("^")]);
    q := [Number(2.0), Number(4.0), Symbol("^"), Symbol(UnaryMinus)];
    SignedPostfix(ops, t);
    SignedQueueFacts(q);
    EmittedTwo(UnaryMinus, "^");
    assert st.output + Emitted(st.stack) == q;
  }

  lemma SignedStages(ops: map<string, Operator>, rt: Runtime)
    returns (e: string, t: seq<Token>, st: ParserState, q: seq<Token>)
    requires "^" in ops && ops["^"] == Infix("^", PowerOp, 4)
             && UnaryMinus in ops && ops[UnaryMinus] == Affix(UnaryMinus, UnaryMinusOp, 3, RightOfValue)
    requires rt.pow(2.0, 4.0) == Some(16.0)
    ensures SignedChars(e) && TokensFrom(ops, e, 0, None) == LexOutcome(t, None)
    ensures Process(ops, Fresh, t) == Ok(st) && OpenParen !in st.stack
    ensures q == st.output + Emitted(st.stack) && q != []
    ensures Run(ops, rt, q, []) == Ok([-16.0])
  {
    e, t := SignedLexStage(ops);
    st, q := SignedParseStage(ops, t);
    SignedValue(ops, rt, q);
  }

  /** `calculate("-2 ^ 4")` is -16: `^` binds tighter than the unary minus. */
  lemma MinusBelowPower(rt: Runtime, input: string)
    requires input == "-2 ^ 4"
    requires rt.pow(2.0, 4.0) == Some(16.0)
    ensures Evaluate(Table(), rt, input) == Ok(-16.0)
  {
    TableEntriesLow();
    TableEntriesHigh();
    var e, t, st, q := SignedStages(Table(), rt);
    SignedInput(input);
    SignedText(input, e);
    Evaluated(Table(), rt, input, e, t, st, q, -16.0);
  }

  // ---------------------------------------------------------------------------------------
  // `~~3`

  /** The characters of the normalized `~~3`. */
  predicate TwiceChars(e: string) {
    |e| == 3 && e[0] == '~' && e[1] == '~' && e[2] == '3'
  }

  predicate TwiceTokenList(t: seq<Token>) {
    |t| == 3 && t[0] == Symbol("~") && t[1] == Symbol("~") && t[2] == Number(3.0)
  }

  predicate TwiceQueue(q: seq<Token>) {
    |q| == 3 && q[0] == Symbol("~") && q[1] == Number(3.0) && q[2] == Symbol("~")
  }

  predicate TwiceInputChars(s: string) {
    |s| == 3 && s[0] == '~' && s[1] == '~' && s[2] == '3'
  }

  lemma TwiceInput(s: string)
    requires s == "~~3"
    ensures TwiceInputChars(s)
  {
  }

  lemma TwiceText(s: string, e: string)
    requires TwiceInputChars(s) && TwiceChars(e)
    ensures NonBlank(s) == e
  {
    assert s[3..] == [] && e[3..] == [];
    NonBlankKeptKeptKept(s, 0, e, 0);
    assert s[0..] == s && e[0..] == e;
  }

  lemma TwiceSpelling(e: string)
    requires e == "~~3"
    ensures TwiceChars(e)
  {
  }

  lemma TwiceTokenFacts(t: seq<Token>)
    requires t == [Symbol("~"), Symbol("~"), Number(3.0)]
    ensures TwiceTokenList(t)
  {
  }

  lemma TwiceQueueFacts(q: seq<Token>)
    requires q == [Symbol("~"), Number(3.0), Symbol("~")]
    ensures TwiceQueue(q)
  {
  }

  lemma TwiceTokensFrom0(ops: map<string, Operator>, e: string, t: seq<Token>)
    requires "~" in ops
    requires |e| == 3 && e[0] == '~' && e[1] == '~' && e[2] == '3'
    requires |t| == 3 && t[0] == Symbol("~") && t[1] == Symbol("~") && t[2] == Number(3.0)
    ensures TokensFrom(ops, e, 0, None) == LexOutcome(t[0..], None)
  {
    assert TokensFrom(ops, e, 3, Some(NumberClass)) == LexOutcome(t[3..], None);
    LexDigitAt(ops, e, 2, '3', Some(OperatorClass), t, 2);
    LexSymbolAt(ops, e, 1, Some(OperatorClass), t, 1);
    LexSymbolAt(ops, e, 0, None, t, 0);
  }

  lemma TwiceLexed(ops: map<string, Operator>, e: string, t: seq<Token>)
    requires "~" in ops
    requires TwiceChars(e) && TwiceTokenList(t)
    ensures TokensFrom(ops, e, 0, None) == LexOutcome(t, None)
  {
    TwiceTokensFrom0(ops, e, t);
    assert t[0..] == t;
  }

  lemma TwiceParse0(ops: map<string, Operator>, t: seq<Token>)
    requires "~" in ops && ops["~"] == Affix("~", NegateOp, 7, LeftOfValue)
    requires |t| == 3 && t[0] == Symbol("~")
    ensures Process(ops, ParserState([], []), t[0..])
         == Process(ops, ParserState([], [Pending("~")]), t[1..])
  {
    var s0 := ParserState([], []);
    var s1 := ParserState([], [Pending("~")]);
    ParseOperatorAt(ops, t, 0, s0, [], [], s1);
  }

  lemma TwiceParse1(ops: map<string, Operator>, t: seq<Token>)
    requires "~" in ops && ops["~"] == Affix("~", NegateOp, 7, LeftOfValue)
    requires |t| == 3 && t[1] == Symbol("~")
    ensures Process(ops, ParserState([], [Pending("~")]), t[1..])
         == Process(ops, ParserState([Symbol("~")], [Pending("~")]), t[2..])
  {
    var s1 := ParserState([], [Pending("~")]);
    var s2 := ParserState([Symbol("~")], [Pending("~")]);
    EmittedOne("~");
    ParseOperatorAt(ops, t, 1, s1, [], [Pending("~")], s2);
  }

  lemma TwiceParse2(ops: map<string, Operator>, t: seq<Token>)
    requires "~" in ops && ops["~"] == Affix("~", NegateOp, 7, LeftOfValue)
    requires |t| == 3 && t[2] == Number(3.0)
    ensures Process(ops, ParserState([Symbol("~")], [Pending("~")]), t[2..])
         == Process(ops, ParserState([Symbol("~"), Number(3.0)], [Pending("~")]), t[3..])
  {
    var s2 := ParserState([Symbol("~")], [Pending("~")]);
    var s3 := ParserState([Symbol("~"), Number(3.0)], [Pending("~")]);
    ParseNumberAt(ops, t, 2, s2, s3);
  }

  lemma TwicePostfix(ops: map<string, Operator>, t: seq<Token>)
    requires "~" in ops && ops["~"] == Affix("~", NegateOp, 7, LeftOfValue)
    requires TwiceTokenList(t)
    ensures Process(ops, Fresh, t) == Ok(ParserState([Symbol("~"), Number(3.0)], [Pending("~")]))
  {
    TwiceParse0(ops, t);
    TwiceParse1(ops, t);
    TwiceParse2(ops, t);
    assert t[0..] == t && t[3..] == [];
  }

  lemma TwiceRun0(ops: map<string, Operator>, rt: Runtime, q: seq<Token>)
    requires "~" in ops && ops["~"] == Affix("~", NegateOp, 7, LeftOfValue)
    requires |q| == 3 && q[0] == Symbol("~")
    ensures Run(ops, rt, q[0..], []) == Err(NotEnoughValues("~"))
  {
    RunFailsAt(ops, rt, q, 0, []);
  }

  lemma TwiceValue(ops: map<string, Operator>, rt: Runtime, q: seq<Token>)
    requires "~" in ops && ops["~"] == Affix("~", NegateOp, 7, LeftOfValue)
    requires TwiceQueue(q)
    ensures Run(ops, rt, q, []) == Err(NotEnoughValues("~"))
  {
    TwiceRun0(ops, rt, q);
    assert q[0..] == q;
  }

  lemma TwiceLexStage(ops: map<string, Operator>) returns (e: string, t: seq<Token>)
    requires "~" in ops
    ensures TwiceChars(e) && TwiceTokenList(t) && TokensFrom(ops, e, 0, None) == LexOutcome(t, None)
  {
    e := "~~3";
    t := [Symbol("~"), Symbol("~"), Number(3.0)];
    TwiceSpelling(e);
    TwiceTokenFacts(t);
    TwiceLexed(ops, e, t);
  }

  lemma TwiceParseStage(ops: map<string, Operator>, t: seq<Token>) returns (st: ParserState, q: seq<Token>)
    requires "~" in ops && ops["~"] == Affix("~", NegateOp, 7, LeftOfValue)
    requires TwiceTokenList(t)
    ensures Process(ops, Fresh, t) == Ok(st) && OpenParen !in st.stack
    ensures q == st.output + Emitted(st.stack) && TwiceQueue(q)
  {
    st := ParserState([Symbol("~"), Number(3.0)], [Pending("~")]);
    q := [Symbol("~"), Number(3.0), Symbol("~")];
    TwicePostfix(ops, t);
    TwiceQueueFacts(q);
    EmittedOne("~");
    assert st.output + Emitted(st.stack) == q;
  }

  lemma TwiceStages(ops: map<string, Operator>, rt: Runtime)
    returns (e: string, t: seq<Token>, st: ParserState, q: seq<Token>)
    requires "~" in ops && ops["~"] == Affix("~", NegateOp, 7, LeftOfValue)
    ensures TwiceChars(e) && TokensFrom(ops, e, 0, None) == LexOutcome(t, None)
    ensures Process(ops, Fresh, t) == Ok(st) && OpenParen !in st.stack
    ensures q == st.output + Emitted(st.stack) && q != []
    ensures Run(ops, rt, q, []) == Err(NotEnoughValues("~"))
  {
    e, t := TwiceLexStage(ops);
    st, q := TwiceParseStage(ops, t);
    TwiceValue(ops, rt, q);
  }

  /** `calculate("~~3")` fails: the second `~` pops the first before any value is queued, so
      the solver meets a `~` with an empty stack. */
  lemma DoubleNegateFails(rt: Runtime, input: string)
    requires input == "~~3"
    ensures Evaluate(Table(), rt, input) == Err(NotEnoughValues("~"))
  {
    TableEntriesLow();
    TableEntriesHigh();
    var e, t, st, q := TwiceStages(Table(), rt);
    TwiceInput(input);
    TwiceText(input, e);
    EvaluatedErr(Table(), rt, input, e, t, st, q, NotEnoughValues("~"));
  }

  // ---------------------------------------------------------------------------------------
  // `(3+5)*2-4/2^  2+((10-10)*5)`

  /** The characters of the normalized `(3+5)*2-4/2^  2+((10-10)*5)`. */
  predicate MixedChars(e: string) {
    |e| == 25 && e[0] == '(' && e[1] == '3' && e[2] == '+' && e[3] == '5' && e[4] == ')'
      && e[5] == '*' && e[6] == '2' && e[7] == '-' && e[8] == '4' && e[9] == '/' && e[10] == '2'
      && e[11] == '^' && e[12] == '2' && e[13] == '+' && e[14] == '(' && e[15] == '('
      && e[16] == '1' && e[17] == '0' && e[18] == '-' && e[19] == '1' && e[20] == '0'
      && e[21] == ')' && e[22] == '*' && e[23] == '5' && e[24] == ')'
  }

  predicate MixedTokenList(t: seq<Token>) {
    |t| == 23 && t[0] == LeftParen && t[1] == Number(3.0) && t[2] == Symbol("+")
      && t[3] == Number(5.0) && t[4] == RightParen && t[5] == Symbol("*") && t[6] == Number(2.0)
      && t[7] == Symbol(BinaryMinus) && t[8] == Number(4.0) && t[9] == Symbol("/")
      && t[10] == Number(2.0) && t[11] == Symbol("^") && t[12] == Number(2.0)
      && t[13] == Symbol("+") && t[14] == LeftParen && t[15] == LeftParen
      && t[16] == Number(10.0) && t[17] == Symbol(BinaryMinus) && t[18] == Number(10.0)
      && t[19] == RightParen && t[20] == Symbol("*") && t[21] == Number(5.0)
      && t[22] == RightParen
  }

  predicate MixedQueue(q: seq<Token>) {
    |q| == 17 && q[0] == Number(3.0) && q[1] == Number(5.0) && q[2] == Symbol("+")
      && q[3] == Number(2.0) && q[4] == Symbol("*") && q[5] == Number(4.0)
      && q[6] == Number(2.0) && q[7] == Number(2.0) && q[8] == Symbol("^")
      && q[9] == Symbol("/") && q[10] == Symbol(BinaryMinus) && q[11] == Number(10.0)
      && q[12] == Number(10.0) && q[13] == Symbol(BinaryMinus) && q[14] == Number(5.0)
      && q[15] == Symbol("*") && q[16] == Symbol("+")
  }

  predicate MixedInputChars(s: string) {
    |s| == 27 && s[0] == '(' && s[1] == '3' && s[2] == '+' && s[3] == '5' && s[4] == ')'
      && s[5] == '*' && s[6] == '2' && s[7] == '-' && s[8] == '4' && s[9] == '/' && s[10] == '2'
      && s[11] == '^' && s[12] == ' ' && s[13] == ' ' && s[14] == '2' && s[15] == '+'
      && s[16] == '(' && s[17] == '(' && s[18] == '1' && s[19] == '0' && s[20] == '-'
      && s[21] == '1' && s[22] == '0' && s[23] == ')' && s[24] == '*' && s[25] == '5'
      && s[26] == ')'
  }

  lemma MixedInput0(s: string)
    requires s == "(3+5)*2-4/2^  2+((10-10)*5)"
    ensures |s| == 27 && s[0] == '(' && s[1] == '3' && s[2] == '+' && s[3] == '5' && s[4] == ')'
            && s[5] == '*' && s[6] == '2' && s[7] == '-'
  {
  }

  lemma MixedInput8(s: string)
    requires s == "(3+5)*2-4/2^  2+((10-10)*5)"
    ensures |s| == 27 && s[8] == '4' && s[9] == '/' && s[10] == '2' && s[11] == '^'
            && s[12] == ' ' && s[13] == ' ' && s[14] == '2' && s[15] == '+'
  {
  }

  lemma MixedInput16(s: string)
    requires s == "(3+5)*2-4/2^  2+((10-10)*5)"
    ensures |s| == 27 && s[16] == '(' && s[17] == '(' && s[18] == '1' && s[19] == '0'
            && s[20] == '-' && s[21] == '1' && s[22] == '0' && s[23] == ')'
  {
  }

  lemma MixedInput24(s: string)
    requires s == "(3+5)*2-4/2^  2+((10-10)*5)"
    ensures |s| == 27 && s[24] == '*' && s[25] == '5' && s[26] == ')'
  {
  }

  lemma MixedInput(s: string)
    requires s == "(3+5)*2-4/2^  2+((10-10)*5)"
    ensures MixedInputChars(s)
  {
    MixedInput0(s);
    MixedInput8(s);
    MixedInput16(s);
    MixedInput24(s);
  }

  lemma MixedTextFrom0(s: string, e: string)
    requires MixedInputChars(s) && MixedChars(e)
    requires NonBlank(s[9..]) == e[9..]
    ensures NonBlank(s[0..]) == e[0..]
  {
    NonBlankKeptKeptKept(s, 6, e, 6);
    NonBlankKeptKeptKept(s, 3, e, 3);
    NonBlankKeptKeptKept(s, 0, e, 0);
  }

  lemma MixedTextFrom9(s: string, e: string)
    requires MixedInputChars(s) && MixedChars(e)
    requires NonBlank(s[18..]) == e[16..]
    ensures NonBlank(s[9..]) == e[9..]
  {
    NonBlankKeptKeptKept(s, 15, e, 13);
    NonBlankBlankBlankKept(s, 12, e, 12);
    NonBlankKeptKeptKept(s, 9, e, 9);
  }

  lemma MixedTextFrom18(s: string, e: string)
    requires MixedInputChars(s) && MixedChars(e)
    ensures NonBlank(s[18..]) == e[16..]
  {
    assert s[27..] == [] && e[25..] == [];
    NonBlankKeptKeptKept(s, 24, e, 22);
    NonBlankKeptKeptKept(s, 21, e, 19);
    NonBlankKeptKeptKept(s, 18, e, 16);
  }

  lemma MixedText(s: string, e: string)
    requires MixedInputChars(s) && MixedChars(e)
    ensures NonBlank(s) == e
  {
    MixedTextFrom18(s, e);
    MixedTextFrom9(s, e);
    MixedTextFrom0(s, e);
    assert s[0..] == s && e[0..] == e;
  }

  lemma MixedSpelling0(e: string)
    requires e == "(3+5)*2-4/2^2+((10-10)*5)"
    ensures |e| == 25 && e[0] == '(' && e[1] == '3' && e[2] == '+' && e[3] == '5' && e[4] == ')'
            && e[5] == '*' && e[6] == '2' && e[7] == '-'
  {
  }

  lemma MixedSpelling8(e: string)
    requires e == "(3+5)*2-4/2^2+((10-10)*5)"
    ensures |e| == 25 && e[8] == '4' && e[9] == '/' && e[10] == '2' && e[11] == '^'
            && e[12] == '2' && e[13] == '+' && e[14] == '(' && e[15] == '('
  {
  }

  lemma MixedSpelling16(e: string)
    requires e == "(3+5)*2-4/2^2+((10-10)*5)"
    ensures |e| == 25 && e[16] == '1' && e[17] == '0' && e[18] == '-' && e[19] == '1'
            && e[20] == '0' && e[21] == ')' && e[22] == '*' && e[23] == '5'
  {
  }

  lemma MixedSpelling24(e: string)
    requires e == "(3+5)*2-4/2^2+((10-10)*5)"
    ensures |e| == 25 && e[24] == ')'
  {
  }

  lemma MixedSpelling(e: string)
    requires e == "(3+5)*2-4/2^2+((10-10)*5)"
    ensures MixedChars(e)
  {
    MixedSpelling0(e);
    MixedSpelling8(e);
    MixedSpelling16(e);
    MixedSpelling24(e);
  }

  lemma MixedTokenFacts0(t: seq<Token>)
    requires t == [LeftParen, Number(3.0), Symbol("+"), Number(5.0), RightParen, Symbol("*"), Number(2.0), Symbol(BinaryMinus), Number(4.0), Symbol("/"), Number(2.0), Symbol("^"), Number(2.0), Symbol("+"), LeftParen, LeftParen, Number(10.0), Symbol(BinaryMinus), Number(10.0), RightParen, Symbol("*"), Number(5.0), RightParen]
    ensures |t| == 23 && t[0] == LeftParen && t[1] == Number(3.0) && t[2] == Symbol("+")
            && t[3] == Number(5.0) && t[4] == RightParen && t[5] == Symbol("*")
            && t[6] == Number(2.0) && t[7] == Symbol(BinaryMinus)
  {
  }

  lemma MixedTokenFacts8(t: seq<Token>)
    requires t == [LeftParen, Number(3.0), Symbol("+"), Number(5.0), RightParen, Symbol("*"), Number(2.0), Symbol(BinaryMinus), Number(4.0), Symbol("/"), Number(2.0), Symbol("^"), Number(2.0), Symbol("+"), LeftParen, LeftParen, Number(10.0), Symbol(BinaryMinus), Number(10.0), RightParen, Symbol("*"), Number(5.0), RightParen]
    ensures |t| == 23 && t[8] == Number(4.0) && t[9] == Symbol("/") && t[10] == Number(2.0)
            && t[11] == Symbol("^") && t[12] == Number(2.0) && t[13] == Symbol("+")
            && t[14] == LeftParen && t[15] == LeftParen
  {
  }

  lemma MixedTokenFacts16(t: seq<Token>)
    requires t == [LeftParen, Number(3.0), Symbol("+"), Number(5.0), RightParen, Symbol("*"), Number(2.0), Symbol(BinaryMinus), Number(4.0), Symbol("/"), Number(2.0), Symbol("^"), Number(2.0), Symbol("+"), LeftParen, LeftParen, Number(10.0), Symbol(BinaryMinus), Number(10.0), RightParen, Symbol("*"), Number(5.0), RightParen]
    ensures |t| == 23 && t[16] == Number(10.0) && t[17] == Symbol(BinaryMinus)
            && t[18] == Number(10.0) && t[19] == RightParen && t[20] == Symbol("*")
            && t[21] == Number(5.0) && t[22] == RightParen
  {
  }

  lemma MixedTokenFacts(t: seq<Token>)
    requires t == [LeftParen, Number(3.0), Symbol("+"), Number(5.0), RightParen, Symbol("*"), Number(2.0), Symbol(BinaryMinus), Number(4.0), Symbol("/"), Number(2.0), Symbol("^"), Number(2.0), Symbol("+"), LeftParen, LeftParen, Number(10.0), Symbol(BinaryMinus), Number(10.0), RightParen, Symbol("*"), Number(5.0), RightParen]
    ensures MixedTokenList(t)
  {
    MixedTokenFacts0(t);
    MixedTokenFacts8(t);
    MixedTokenFacts16(t);
  }

  lemma MixedQueueFacts0(q: seq<Token>)
    requires q == [Number(3.0), Number(5.0), Symbol("+"), Number(2.0), Symbol("*"), Number(4.0), Number(2.0), Number(2.0), Symbol("^"), Symbol("/"), Symbol(BinaryMinus), Number(10.0), Number(10.0), Symbol(BinaryMinus), Number(5.0), Symbol("*"), Symbol("+")]
    ensures |q| == 17 && q[0] == Number(3.0) && q[1] == Number(5.0) && q[2] == Symbol("+")
            && q[3] == Number(2.0) && q[4] == Symbol("*") && q[5] == Number(4.0)
            && q[6] == Number(2.0) && q[7] == Number(2.0)
  {
  }

  lemma MixedQueueFacts8(q: seq<Token>)
    requires q == [Number(3.0), Number(5.0), Symbol("+"), Number(2.0), Symbol("*"), Number(4.0), Number(2.0), Number(2.0), Symbol("^"), Symbol("/"), Symbol(BinaryMinus), Number(10.0), Number(10.0), Symbol(BinaryMinus), Number(5.0), Symbol("*"), Symbol("+")]
    ensures |q| == 17 && q[8] == Symbol("^") && q[9] == Symbol("/")
            && q[10] == Symbol(BinaryMinus) && q[11] == Number(10.0) && q[12] == Number(10.0)
            && q[13] == Symbol(BinaryMinus) && q[14] == Number(5.0) && q[15] == Symbol("*")
  {
  }

  lemma MixedQueueFacts16(q: seq<Token>)
    requires q == [Number(3.0), Number(5.0), Symbol("+"), Number(2.0), Symbol("*"), Number(4.0), Number(2.0), Number(2.0), Symbol("^"), Symbol("/"), Symbol(BinaryMinus), Number(10.0), Number(10.0), Symbol(BinaryMinus), Number(5.0), Symbol("*"), Symbol("+")]
    ensures |q| == 17 && q[16] == Symbol("+")
  {
  }

  lemma MixedQueueFacts(q: seq<Token>)
    requires q == [Number(3.0), Number(5.0), Symbol("+"), Number(2.0), Symbol("*"), Number(4.0), Number(2.0), Number(2.0), Symbol("^"), Symbol("/"), Symbol(BinaryMinus), Number(10.0), Number(10.0), Symbol(BinaryMinus), Number(5.0), Symbol("*"), Symbol("+")]
    ensures MixedQueue(q)
  {
    MixedQueueFacts0(q);
    MixedQueueFacts8(q);
    MixedQueueFacts16(q);
  }

  lemma MixedTokensFrom0(ops: map<string, Operator>, e: string, t: seq<Token>)
    requires "+" in ops
    requires |e| == 25 && e[0] == '(' && e[1] == '3' && e[2] == '+' && e[3] == '5'
    requires |t| == 23 && t[0] == LeftParen && t[1] == Number(3.0) && t[2] == Symbol("+")
    requires TokensFrom(ops, e, 3, Some(OperatorClass)) == LexOutcome(t[3..], None)
    ensures TokensFrom(ops, e, 0, None) == LexOutcome(t[0..], None)
  {
    LexSymbolAt(ops, e, 2, Some(NumberClass), t, 2);
    LexDigitAt(ops, e, 1, '3', Some(LParenClass), t, 1);
    LexSymbolAt(ops, e, 0, None, t, 0);
  }

  lemma MixedTokensFrom3(ops: map<string, Operator>, e: string, t: seq<Token>)
    requires "*" in ops
    requires |e| == 25 && e[3] == '5' && e[4] == ')' && e[5] == '*' && e[6] == '2'
    requires |t| == 23 && t[3] == Number(5.0) && t[4] == RightParen && t[5] == Symbol("*")
    requires TokensFrom(ops, e, 6, Some(OperatorClass)) == LexOutcome(t[6..], None)
    ensures TokensFrom(ops, e, 3, Some(OperatorClass)) == LexOutcome(t[3..], None)
  {
    LexSymbolAt(ops, e, 5, Some(RParenClass), t, 5);
    LexSymbolAt(ops, e, 4, Some(NumberClass), t, 4);
    LexDigitAt(ops, e, 3, '5', Some(OperatorClass), t, 3);
  }

  lemma MixedTokensFrom6(ops: map<string, Operator>, e: string, t: seq<Token>)
    requires |e| == 25 && e[6] == '2' && e[7] == '-' && e[8] == '4' && e[9] == '/'
    requires |t| == 23 && t[6] == Number(2.0) && t[7] == Symbol(BinaryMinus)
             && t[8] == Number(4.0)
    requires TokensFrom(ops, e, 9, Some(NumberClass)) == LexOutcome(t[9..], None)
    ensures TokensFrom(ops, e, 6, Some(OperatorClass)) == LexOutcome(t[6..], None)
  {
    LexDigitAt(ops, e, 8, '4', Some(OperatorClass), t, 8);
    LexSymbolAt(ops, e, 7, Some(NumberClass), t, 7);
    LexDigitAt(ops, e, 6, '2', Some(OperatorClass), t, 6);
  }

  lemma MixedTokensFrom9(ops: map<string, Operator>, e: string, t: seq<Token>)
    requires "/" in ops && "^" in ops
    requires |e| == 25 && e[9] == '/' && e[10] == '2' && e[11] == '^' && e[12] == '2'
    requires |t| == 23 && t[9] == Symbol("/") && t[10] == Number(2.0) && t[11] == Symbol("^")
    requires TokensFrom(ops, e, 12, Some(OperatorClass)) == LexOutcome(t[12..], None)
    ensures TokensFrom(ops, e, 9, Some(NumberClass)) == LexOutcome(t[9..], None)
  {
    LexSymbolAt(ops, e, 11, Some(NumberClass), t, 11);
    LexDigitAt(ops, e, 10, '2', Some(OperatorClass), t, 10);
    LexSymbolAt(ops, e, 9, Some(NumberClass), t, 9);
  }

  lemma MixedTokensFrom12(ops: map<string, Operator>, e: string, t: seq<Token>)
    requires "+" in ops
    requires |e| == 25 && e[12] == '2' && e[13] == '+' && e[14] == '(' && e[15] == '('
    requires |t| == 23 && t[12] == Number(2.0) && t[13] == Symbol("+") && t[14] == LeftParen
    requires TokensFrom(ops, e, 15, Some(LParenClass)) == LexOutcome(t[15..], None)
    ensures TokensFrom(ops, e, 12, Some(OperatorClass)) == LexOutcome(t[12..], None)
  {
    LexSymbolAt(ops, e, 14, Some(OperatorClass), t, 14);
    LexSymbolAt(ops, e, 13, Some(NumberClass), t, 13);
    LexDigitAt(ops, e, 12, '2', Some(OperatorClass), t, 12);
  }

  lemma MixedTokensFrom15(ops: map<string, Operator>, e: string, t: seq<Token>)
    requires |e| == 25 && e[15] == '(' && e[16] == '1' && e[17] == '0' && e[18] == '-'
             && e[19] == '1'
    requires |t| == 23 && t[15] == LeftParen && t[16] == Number(10.0)
             && t[17] == Symbol(BinaryMinus)
    requires TokensFrom(ops, e, 19, Some(OperatorClass)) == LexOutcome(t[18..], None)
    ensures TokensFrom(ops, e, 15, Some(LParenClass)) == LexOutcome(t[15..], None)
  {
    LexSymbolAt(ops, e, 18, Some(NumberClass), t, 17);
    LexDigitsAt(ops, e, 16, '1', '0', Some(LParenClass), t, 16);
    LexSymbolAt(ops, e, 15, Some(LParenClass), t, 15);
  }

  lemma MixedTokensFrom19(ops: map<string, Operator>, e: string, t: seq<Token>)
    requires "*" in ops
    requires |e| == 25 && e[19] == '1' && e[20] == '0' && e[21] == ')' && e[22] == '*'
             && e[23] == '5'
    requires |t| == 23 && t[18] == Number(10.0) && t[19] == RightParen && t[20] == Symbol("*")
    requires TokensFrom(ops, e, 23, Some(OperatorClass)) == LexOutcome(t[21..], None)
    ensures TokensFrom(ops, e, 19, Some(OperatorClass)) == LexOutcome(t[18..], None)
  {
    LexSymbolAt(ops, e, 22, Some(RParenClass), t, 20);
    LexSymbolAt(ops, e, 21, Some(NumberClass), t, 19);
    LexDigitsAt(ops, e, 19, '1', '0', Some(OperatorClass), t, 18);
  }

  lemma MixedTokensFrom23(ops: map<string, Operator>, e: string, t: seq<Token>)
    requires |e| == 25 && e[23] == '5' && e[24] == ')'
    requires |t| == 23 && t[21] == Number(5.0) && t[22] == RightParen
    ensures TokensFrom(ops, e, 23, Some(OperatorClass)) == LexOutcome(t[21..], None)
  {
    assert TokensFrom(ops, e, 25, Some(RParenClass)) == LexOutcome(t[23..], None);
    LexSymbolAt(ops, e, 24, Some(NumberClass), t, 22);
    LexDigitAt(ops, e, 23, '5', Some(OperatorClass), t, 21);
  }

  lemma MixedLexed(ops: map<string, Operator>, e: string, t: seq<Token>)
    requires "*" in ops && "+" in ops && "/" in ops && "^" in ops
    requires MixedChars(e) && MixedTokenList(t)
    ensures TokensFrom(ops, e, 0, None) == LexOutcome(t, None)
  {
    MixedTokensFrom23(ops, e, t);
    MixedTokensFrom19(ops, e, t);
    MixedTokensFrom15(ops, e, t);
    MixedTokensFrom12(ops, e, t);
    MixedTokensFrom9(ops, e, t);
    MixedTokensFrom6(ops, e, t);
    MixedTokensFrom3(ops, e, t);
    MixedTokensFrom0(ops, e, t);
    assert t[0..] == t;
  }

  lemma MixedParse0(ops: map<string, Operator>, t: seq<Token>)
    requires |t| == 23 && t[0] == LeftParen
    ensures Process(ops, ParserState([], []), t[0..])
         == Process(ops, ParserState([], [OpenParen]), t[1..])
  {
    var s0 := ParserState([], []);
    var s1 := ParserState([], [OpenParen]);
    ParseOpenAt(ops, t, 0, s0, s1);
  }

  lemma MixedParse1(ops: map<string, Operator>, t: seq<Token>)
    requires |t| == 23 && t[1] == Number(3.0)
    ensures Process(ops, ParserState([], [OpenParen]), t[1..])
         == Process(ops, ParserState([Number(3.0)], [OpenParen]), t[2..])
  {
    var s1 := ParserState([], [OpenParen]);
    var s2 := ParserState([Number(3.0)], [OpenParen]);
    ParseNumberAt(ops, t, 1, s1, s2);
  }

  lemma MixedParse2(ops: map<string, Operator>, t: seq<Token>)
    requires "+" in ops && ops["+"] == Infix("+", AddOp, 1)
    requires |t| == 23 && t[2] == Symbol("+")
    ensures Process(ops, ParserState([Number(3.0)], [OpenParen]), t[2..])
         == Process(ops, ParserState([Number(3.0)], [OpenParen, Pending("+")]), t[3..])
  {
    var s2 := ParserState([Number(3.0)], [OpenParen]);
    var s3 := ParserState([Number(3.0)], [OpenParen, Pending("+")]);
    ParseOperatorAt(ops, t, 2, s2, [OpenParen], [], s3);
  }

  lemma MixedParse3(ops: map<string, Operator>, t: seq<Token>)
    requires "+" in ops && ops["+"] == Infix("+", AddOp, 1)
    requires |t| == 23 && t[3] == Number(5.0)
    ensures Process(ops, ParserState([Number(3.0)], [OpenParen, Pending("+")]), t[3..])
         == Process(ops, ParserState([Number(3.0), Number(5.0)], [OpenParen, Pending("+")]), t[4..])
  {
    var s3 := ParserState([Number(3.0)], [OpenParen, Pending("+")]);
    var s4 := ParserState([Number(3.0), Number(5.0)], [OpenParen, Pending("+")]);
    ParseNumberAt(ops, t, 3, s3, s4);
  }

  lemma MixedParse4(ops: map<string, Operator>, t: seq<Token>)
    requires "+" in ops && ops["+"] == Infix("+", AddOp, 1)
    requires |t| == 23 && t[4] == RightParen
    ensures Process(ops, ParserState([Number(3.0), Number(5.0)], [OpenParen, Pending("+")]), t[4..])
         == Process(ops, ParserState([Number(3.0), Number(5.0), Symbol("+")], []), t[5..])
  {
    var s4 := ParserState([Number(3.0), Number(5.0)], [OpenParen, Pending("+")]);
    var s5 := ParserState([Number(3.0), Number(5.0), Symbol("+")], []);
    EmittedOne("+");
    ParseCloseAt(ops, t, 4, s4, [], [Pending("+")], s5);
  }

  lemma MixedParse5(ops: map<string, Operator>, t: seq<Token>)
    requires "*" in ops && ops["*"] == Infix("*", MultiplyOp, 2)
    requires |t| == 23 && t[5] == Symbol("*")
    ensures Process(ops, ParserState([Number(3.0), Number(5.0), Symbol("+")], []), t[5..])
         == Process(ops, ParserState([Number(3.0), Number(5.0), Symbol("+")], [Pending("*")]), t[6..])
  {
    var s5 := ParserState([Number(3.0), Number(5.0), Symbol("+")], []);
    var s6 := ParserState([Number(3.0), Number(5.0), Symbol("+")], [Pending("*")]);
    ParseOperatorAt(ops, t, 5, s5, [], [], s6);
  }

  lemma MixedParse6(ops: map<string, Operator>, t: seq<Token>)
    requires "*" in ops && ops["*"] == Infix("*", MultiplyOp, 2)
    requires |t| == 23 && t[6] == Number(2.0)
    ensures Process(ops, ParserState([Number(3.0), Number(5.0), Symbol("+")], [Pending("*")]), t[6..])
         == Process(ops, ParserState([Number(3.0), Number(5.0), Symbol("+"), Number(2.0)], [Pending("*")]), t[7..])
  {
    var s6 := ParserState([Number(3.0), Number(5.0), Symbol("+")], [Pending("*")]);
    var s7 := ParserState([Number(3.0), Number(5.0), Symbol("+"), Number(2.0)], [Pending("*")]);
    ParseNumberAt(ops, t, 6, s6, s7);
  }

  lemma MixedParse7(ops: map<string, Operator>, t: seq<Token>)
    requires "*" in ops && ops["*"] == Infix("*", MultiplyOp, 2)
             && BinaryMinus in ops && ops[BinaryMinus] == Infix(BinaryMinus, SubtractOp, 1)
    requires |t| == 23 && t[7] == Symbol(BinaryMinus)
    ensures Process(ops, ParserState([Number(3.0), Number(5.0), Symbol("+"), Number(2.0)], [Pending("*")]), t[7..])
         == Process(ops, ParserState([Number(3.0), Number(5.0), Symbol("+"), Number(2.0), Symbol("*")], [Pending(BinaryMinus)]), t[8..])
  {
    var s7 := ParserState([Number(3.0), Number(5.0), Symbol("+"), Number(2.0)], [Pending("*")]);
    var s8 := ParserState([Number(3.0), Number(5.0), Symbol("+"), Number(2.0), Symbol("*")], [Pending(BinaryMinus)]);
    EmittedOne("*");
    ParseOperatorAt(ops, t, 7, s7, [], [Pending("*")], s8);
  }

  lemma MixedParse8(ops: map<string, Operator>, t: seq<Token>)
    requires BinaryMinus in ops && ops[BinaryMinus] == Infix(BinaryMinus, SubtractOp, 1)
    requires |t| == 23 && t[8] == Number(4.0)
    ensures Process(ops, ParserState([Number(3.0), Number(5.0), Symbol("+"), Number(2.0), Symbol("*")], [Pending(BinaryMinus)]), t[8..])
         == Process(ops, ParserState([Number(3.0), Number(5.0), Symbol("+"), Number(2.0), Symbol("*"), Number(4.0)], [Pending(BinaryMinus)]), t[9..])
  {
    var s8 := ParserState([Number(3.0), Number(5.0), Symbol("+"), Number(2.0), Symbol("*")], [Pending(BinaryMinus)]);
    var s9 := ParserState([Number(3.0), Number(5.0), Symbol("+"), Number(2.0), Symbol("*"), Number(4.0)], [Pending(BinaryMinus)]);
    ParseNumberAt(ops, t, 8, s8, s9);
  }

  lemma MixedParse9(ops: map<string, Operator>, t: seq<Token>)
    requires "/" in ops && ops["/"] == Infix("/", DivideOp, 2)
             && BinaryMinus in ops && ops[BinaryMinus] == Infix(BinaryMinus, SubtractOp, 1)
    requires |t| == 23 && t[9] == Symbol("/")
    ensures Process(ops, ParserState([Number(3.0), Number(5.0), Symbol("+"), Number(2.0), Symbol("*"), Number(4.0)], [Pending(BinaryMinus)]), t[9..])
         == Process(ops, ParserState([Number(3.0), Number(5.0), Symbol("+"), Number(2.0), Symbol("*"), Number(4.0)], [Pending(BinaryMinus), Pending("/")]), t[10..])
  {
    var s9 := ParserState([Number(3.0), Number(5.0), Symbol("+"), Number(2.0), Symbol("*"), Number(4.0)], [Pending(BinaryMinus)]);
    var s10 := ParserState([Number(3.0), Number(5.0), Symbol("+"), Number(2.0), Symbol("*"), Number(4.0)], [Pending(BinaryMinus), Pending("/")]);
    ParseOperatorAt(ops, t, 9, s9, [Pending(BinaryMinus)], [], s10);
  }

  lemma MixedParse10(ops: map<string, Operator>, t: seq<Token>)
    requires "/" in ops && ops["/"] == Infix("/", DivideOp, 2)
             && BinaryMinus in ops && ops[BinaryMinus] == Infix(BinaryMinus, SubtractOp, 1)
    requires |t| == 23 && t[10] == Number(2.0)
    ensures Process(ops, ParserState([Number(3.0), Number(5.0), Symbol("+"), Number(2.0), Symbol("*"), Number(4.0)], [Pending(BinaryMinus), Pending("/")]), t[10..])
         == Process(ops, ParserState([Number(3.0), Number(5.0), Symbol("+"), Number(2.0), Symbol("*"), Number(4.0), Number(2.0)], [Pending(BinaryMinus), Pending("/")]), t[11..])
  {
    var s10 := ParserState([Number(3.0), Number(5.0), Symbol("+"), Number(2.0), Symbol("*"), Number(4.0)], [Pending(BinaryMinus), Pending("/")]);
    var s11 := ParserState([Number(3.0), Number(5.0), Symbol("+"), Number(2.0), Symbol("*"), Number(4.0), Number(2.0)], [Pending(BinaryMinus), Pending("/")]);
    ParseNumberAt(ops, t, 10, s10, s11);
  }

  lemma MixedParse11(ops: map<string, Operator>, t: seq<Token>)
    requires "/" in ops && ops["/"] == Infix("/", DivideOp, 2)
             && "^" in ops && ops["^"] == Infix("^", PowerOp, 4)
             && BinaryMinus in ops && ops[BinaryMinus] == Infix(BinaryMinus, SubtractOp, 1)
    requires |t| == 23 && t[11] == Symbol("^")
    ensures Process(ops, ParserState([Number(3.0), Number(5.0), Symbol("+"), Number(2.0), Symbol("*"), Number(4.0), Number(2.0)], [Pending(BinaryMinus), Pending("/")]), t[11..])
         == Process(ops, ParserState([Number(3.0), Number(5.0), Symbol("+"), Number(2.0), Symbol("*"), Number(4.0), Number(2.0)], [Pending(BinaryMinus), Pending("/"), Pending("^")]), t[12..])
  {
    var s11 := ParserState([Number(3.0), Number(5.0), Symbol("+"), Number(2.0), Symbol("*"), Number(4.0), Number(2.0)], [Pending(BinaryMinus), Pending("/")]);
    var s12 := ParserState([Number(3.0), Number(5.0), Symbol("+"), Number(2.0), Symbol("*"), Number(4.0), Number(2.0)], [Pending(BinaryMinus), Pending("/"), Pending("^")]);
    ParseOperatorAt(ops, t, 11, s11, [Pending(BinaryMinus), Pending("/")], [], s12);
  }

  lemma MixedParse12(ops: map<string, Operator>, t: seq<Token>)
    requires "/" in ops && ops["/"] == Infix("/", DivideOp, 2)
             && "^" in ops && ops["^"] == Infix("^", PowerOp, 4)
             && BinaryMinus in ops && ops[BinaryMinus] == Infix(BinaryMinus, SubtractOp, 1)
    requires |t| == 23 && t[12] == Number(2.0)
    ensures Process(ops, ParserState([Number(3.0), Number(5.0), Symbol("+"), Number(2.0), Symbol("*"), Number(4.0), Number(2.0)], [Pending(BinaryMinus), Pending("/"), Pending("^")]), t[12..])
         == Process(ops, ParserState([Number(3.0), Number(5.0), Symbol("+"), Number(2.0), Symbol("*"), Number(4.0), Number(2.0), Number(2.0)], [Pending(BinaryMinus), Pending("/"), Pending("^")]), t[13..])
  {
    var s12 := ParserState([Number(3.0), Number(5.0), Symbol("+"), Number(2.0), Symbol("*"), Number(4.0), Number(2.0)], [Pending(BinaryMinus), Pending("/"), Pending("^")]);
    var s13 := ParserState([Number(3.0), Number(5.0), Symbol("+"), Number(2.0), Symbol("*"), Number(4.0), Number(2.0), Number(2.0)], [Pending(BinaryMinus), Pending("/"), Pending("^")]);
    ParseNumberAt(ops, t, 12, s12, s13);
  }

  lemma MixedParse13(ops: map<string, Operator>, t: seq<Token>)
    requires "+" in ops && ops["+"] == Infix("+", AddOp, 1)
             && "/" in ops && ops["/"] == Infix("/", DivideOp, 2)
             && "^" in ops && ops["^"] == Infix("^", PowerOp, 4)
             && BinaryMinus in ops && ops[BinaryMinus] == Infix(BinaryMinus, SubtractOp, 1)
    requires |t| == 23 && t[13] == Symbol("+")
    ensures Process(ops, ParserState([Number(3.0), Number(5.0), Symbol("+"), Number(2.0), Symbol("*"), Number(4.0), Number(2.0), Number(2.0)], [Pending(BinaryMinus), Pending("/"), Pending("^")]), t[13..])
         == Process(ops, ParserState([Number(3.0), Number(5.0), Symbol("+"), Number(2.0), Symbol("*"), Number(4.0), Number(2.0), Number(2.0), Symbol("^"), Symbol("/"), Symbol(BinaryMinus)], [Pending("+")]), t[14..])
  {
    var s13 := ParserState([Number(3.0), Number(5.0), Symbol("+"), Number(2.0), Symbol("*"), Number(4.0), Number(2.0), Number(2.0)], [Pending(BinaryMinus), Pending("/"), Pending("^")]);
    var s14 := ParserState([Number(3.0), Number(5.0), Symbol("+"), Number(2.0), Symbol("*"), Number(4.0), Number(2.0), Number(2.0), Symbol("^"), Symbol("/"), Symbol(BinaryMinus)], [Pending("+")]);
    EmittedThree(BinaryMinus, "/", "^");
    ParseOperatorAt(ops, t, 13, s13, [], [Pending(BinaryMinus), Pending("/"), Pending("^")], s14);
  }

  lemma MixedParse14(ops: map<string, Operator>, t: seq<Token>)
    requires "+" in ops && ops["+"] == Infix("+", AddOp, 1)
    requires |t| == 23 && t[14] == LeftParen
    ensures Process(ops, ParserState([Number(3.0), Number(5.0), Symbol("+"), Number(2.0), Symbol("*"), Number(4.0), Number(2.0), Number(2.0), Symbol("^"), Symbol("/"), Symbol(BinaryMinus)], [Pending("+")]), t[14..])
         == Process(ops, ParserState([Number(3.0), Number(5.0), Symbol("+"), Number(2.0), Symbol("*"), Number(4.0), Number(2.0), Number(2.0), Symbol("^"), Symbol("/"), Symbol(BinaryMinus)], [Pending("+"), OpenParen]), t[15..])
  {
    var s14 := ParserState([Number(3.0), Number(5.0), Symbol("+"), Number(2.0), Symbol("*"), Number(4.0), Number(2.0), Number(2.0), Symbol("^"), Symbol("/"), Symbol(BinaryMinus)], [Pending("+")]);
    var s15 := ParserState([Number(3.0), Number(5.0), Symbol("+"), Number(2.0), Symbol("*"), Number(4.0), Number(2.0), Number(2.0), Symbol("^"), Symbol("/"), Symbol(BinaryMinus)], [Pending("+"), OpenParen]);
    ParseOpenAt(ops, t, 14, s14, s15);
  }

  lemma MixedParse15(ops: map<string, Operator>, t: seq<Token>)
    requires "+" in ops && ops["+"] == Infix("+", AddOp, 1)
    requires |t| == 23 && t[15] == LeftParen
    ensures Process(ops, ParserState([Number(3.0), Number(5.0), Symbol("+"), Number(2.0), Symbol("*"), Number(4.0), Number(2.0), Number(2.0), Symbol("^"), Symbol("/"), Symbol(BinaryMinus)], [Pending("+"), OpenParen]), t[15..])
         == Process(ops, ParserState([Number(3.0), Number(5.0), Symbol("+"), Number(2.0), Symbol("*"), Number(4.0), Number(2.0), Number(2.0), Symbol("^"), Symbol("/"), Symbol(BinaryMinus)], [Pending("+"), OpenParen, OpenParen]), t[16..])
  {
    var s15 := ParserState([Number(3.0), Number(5.0), Symbol("+"), Number(2.0), Symbol("*"), Number(4.0), Number(2.0), Number(2.0), Symbol("^"), Symbol("/"), Symbol(BinaryMinus)], [Pending("+"), OpenParen]);
    var s16 := ParserState([Number(3.0), Number(5.0), Symbol("+"), Number(2.0), Symbol("*"), Number(4.0), Number(2.0), Number(2.0), Symbol("^"), Symbol("/"), Symbol(BinaryMinus)], [Pending("+"), OpenParen, OpenParen]);
    ParseOpenAt(ops, t, 15, s15, s16);
  }

  lemma MixedParse16(ops: map<string, Operator>, t: seq<Token>)
    requires "+" in ops && ops["+"] == Infix("+", AddOp, 1)
    requires |t| == 23 && t[16] == Number(10.0)
    ensures Process(ops, ParserState([Number(3.0), Number(5.0), Symbol("+"), Number(2.0), Symbol("*"), Number(4.0), Number(2.0), Number(2.0), Symbol("^"), Symbol("/"), Symbol(BinaryMinus)], [Pending("+"), OpenParen, OpenParen]), t[16..])
         == Process(ops, ParserState([Number(3.0), Number(5.0), Symbol("+"), Number(2.0), Symbol("*"), Number(4.0), Number(2.0), Number(2.0), Symbol("^"), Symbol("/"), Symbol(BinaryMinus), Number(10.0)], [Pending("+"), OpenParen, OpenParen]), t[17..])
  {
    var s16 := ParserState([Number(3.0), Number(5.0), Symbol("+"), Number(2.0), Symbol("*"), Number(4.0), Number(2.0), Number(2.0), Symbol("^"), Symbol("/"), Symbol(BinaryMinus)], [Pending("+"), OpenParen, OpenParen]);
    var s17 := ParserState([Number(3.0), Number(5.0), Symbol("+"), Number(2.0), Symbol("*"), Number(4.0), Number(2.0), Number(2.0), Symbol("^"), Symbol("/"), Symbol(BinaryMinus), Number(10.0)], [Pending("+"), OpenParen, OpenParen]);
    ParseNumberAt(ops, t, 16, s16, s17);
  }

  lemma MixedParse17(ops: map<string, Operator>, t: seq<Token>)
    requires "+" in ops && ops["+"] == Infix("+", AddOp, 1)
             && BinaryMinus in ops && ops[BinaryMinus] == Infix(BinaryMinus, SubtractOp, 1)
    requires |t| == 23 && t[17] == Symbol(BinaryMinus)
    ensures Process(ops, ParserState([Number(3.0), Number(5.0), Symbol("+"), Number(2.0), Symbol("*"), Number(4.0), Number(2.0), Number(2.0), Symbol("^"), Symbol("/"), Symbol(BinaryMinus), Number(10.0)], [Pending("+"), OpenParen, OpenParen]), t[17..])
         == Process(ops, ParserState([Number(3.0), Number(5.0), Symbol("+"), Number(2.0), Symbol("*"), Number(4.0), Number(2.0), Number(2.0), Symbol("^"), Symbol("/"), Symbol(BinaryMinus), Number(10.0)], [Pending("+"), OpenParen, OpenParen, Pending(BinaryMinus)]), t[18..])
  {
    var s17 := ParserState([Number(3.0), Number(5.0), Symbol("+"), Number(2.0), Symbol("*"), Number(4.0), Number(2.0), Number(2.0), Symbol("^"), Symbol("/"), Symbol(BinaryMinus), Number(10.0)], [Pending("+"), OpenParen, OpenParen]);
    var s18 := ParserState([Number(3.0), Number(5.0), Symbol("+"), Number(2.0), Symbol("*"), Number(4.0), Number(2.0), Number(2.0), Symbol("^"), Symbol("/"), Symbol(BinaryMinus), Number(10.0)], [Pending("+"), OpenParen, OpenParen, Pending(BinaryMinus)]);
    ParseOperatorAt(ops, t, 17, s17, [Pending("+"), OpenParen, OpenParen], [], s18);
  }

  lemma MixedParse18(ops: map<string, Operator>, t: seq<Token>)
    requires "+" in ops && ops["+"] == Infix("+", AddOp, 1)
             && BinaryMinus in ops && ops[BinaryMinus] == Infix(BinaryMinus, SubtractOp, 1)
    requires |t| == 23 && t[18] == Number(10.0)
    ensures Process(ops, ParserState([Number(3.0), Number(5.0), Symbol("+"), Number(2.0), Symbol("*"), Number(4.0), Number(2.0), Number(2.0), Symbol("^"), Symbol("/"), Symbol(BinaryMinus), Number(10.0)], [Pending("+"), OpenParen, OpenParen, Pending(BinaryMinus)]), t[18..])
         == Process(ops, ParserState([Number(3.0), Number(5.0), Symbol("+"), Number(2.0), Symbol("*"), Number(4.0), Number(2.0), Number(2.0), Symbol("^"), Symbol("/"), Symbol(BinaryMinus), Number(10.0), Number(10.0)], [Pending("+"), OpenParen, OpenParen, Pending(BinaryMinus)]), t[19..])
  {
    var s18 := ParserState([Number(3.0), Number(5.0), Symbol("+"), Number(2.0), Symbol("*"), Number(4.0), Number(2.0), Number(2.0), Symbol("^"), Symbol("/"), Symbol(BinaryMinus), Number(10.0)], [Pending("+"), OpenParen, OpenParen, Pending(BinaryMinus)]);
    var s19 := ParserState([Number(3.0), Number(5.0), Symbol("+"), Number(2.0), Symbol("*"), Number(4.0), Number(2.0), Number(2.0), Symbol("^"), Symbol("/"), Symbol(BinaryMinus), Number(10.0), Number(10.0)], [Pending("+"), OpenParen, OpenParen, Pending(BinaryMinus)]);
    ParseNumberAt(ops, t, 18, s18, s19);
  }

  lemma MixedParse19(ops: map<string, Operator>, t: seq<Token>)
    requires "+" in ops && ops["+"] == Infix("+", AddOp, 1)
             && BinaryMinus in ops && ops[BinaryMinus] == Infix(BinaryMinus, SubtractOp, 1)
    requires |t| == 23 && t[19] == RightParen
    ensures Process(ops, ParserState([Number(3.0), Number(5.0), Symbol("+"), Number(2.0), Symbol("*"), Number(4.0), Number(2.0), Number(2.0), Symbol("^"), Symbol("/"), Symbol(BinaryMinus), Number(10.0), Number(10.0)], [Pending("+"), OpenParen, OpenParen, Pending(BinaryMinus)]), t[19..])
         == Process(ops, ParserState([Number(3.0), Number(5.0), Symbol("+"), Number(2.0), Symbol("*"), Number(4.0), Number(2.0), Number(2.0), Symbol("^"), Symbol("/"), Symbol(BinaryMinus), Number(10.0), Number(10.0), Symbol(BinaryMinus)], [Pending("+"), OpenParen]), t[20..])
  {
    var s19 := ParserState([Number(3.0), Number(5.0), Symbol("+"), Number(2.0), Symbol("*"), Number(4.0), Number(2.0), Number(2.0), Symbol("^"), Symbol("/"), Symbol(BinaryMinus), Number(10.0), Number(10.0)], [Pending("+"), OpenParen, OpenParen, Pending(BinaryMinus)]);
    var s20 := ParserState([Number(3.0), Number(5.0), Symbol("+"), Number(2.0), Symbol("*"), Number(4.0), Number(2.0), Number(2.0), Symbol("^"), Symbol("/"), Symbol(BinaryMinus), Number(10.0), Number(10.0), Symbol(BinaryMinus)], [Pending("+"), OpenParen]);
    EmittedOne(BinaryMinus);
    ParseCloseAt(ops, t, 19, s19, [Pending("+"), OpenParen], [Pending(BinaryMinus)], s20);
  }

  lemma MixedParse20(ops: map<string, Operator>, t: seq<Token>)
    requires "*" in ops && ops["*"] == Infix("*", MultiplyOp, 2)
             && "+" in ops && ops["+"] == Infix("+", AddOp, 1)
    requires |t| == 23 && t[20] == Symbol("*")
    ensures Process(ops, ParserState([Number(3.0), Number(5.0), Symbol("+"), Number(2.0), Symbol("*"), Number(4.0), Number(2.0), Number(2.0), Symbol("^"), Symbol("/"), Symbol(BinaryMinus), Number(10.0), Number(10.0), Symbol(BinaryMinus)], [Pending("+"), OpenParen]), t[20..])
         == Process(ops, ParserState([Number(3.0), Number(5.0), Symbol("+"), Number(2.0), Symbol("*"), Number(4.0), Number(2.0), Number(2.0), Symbol("^"), Symbol("/"), Symbol(BinaryMinus), Number(10.0), Number(10.0), Symbol(BinaryMinus)], [Pending("+"), OpenParen, Pending("*")]), t[21..])
  {
    var s20 := ParserState([Number(3.0), Number(5.0), Symbol("+"), Number(2.0), Symbol("*"), Number(4.0), Number(2.0), Number(2.0), Symbol("^"), Symbol("/"), Symbol(BinaryMinus), Number(10.0), Number(10.0), Symbol(BinaryMinus)], [Pending("+"), OpenParen]);
    var s21 := ParserState([Number(3.0), Number(5.0), Symbol("+"), Number(2.0), Symbol("*"), Number(4.0), Number(2.0), Number(2.0), Symbol("^"), Symbol("/"), Symbol(BinaryMinus), Number(10.0), Number(10.0), Symbol(BinaryMinus)], [Pending("+"), OpenParen, Pending("*")]);
    ParseOperatorAt(ops, t, 20, s20, [Pending("+"), OpenParen], [], s21);
  }

  lemma MixedParse21(ops: map<string, Operator>, t: seq<Token>)
    requires "*" in ops && ops["*"] == Infix("*", MultiplyOp, 2)
             && "+" in ops && ops["+"] == Infix("+", AddOp, 1)
    requires |t| == 23 && t[21] == Number(5.0)
    ensures Process(ops, ParserState([Number(3.0), Number(5.0), Symbol("+"), Number(2.0), Symbol("*"), Number(4.0), Number(2.0), Number(2.0), Symbol("^"), Symbol("/"), Symbol(BinaryMinus), Number(10.0), Number(10.0), Symbol(BinaryMinus)], [Pending("+"), OpenParen, Pending("*")]), t[21..])
         == Process(ops, ParserState([Number(3.0), Number(5.0), Symbol("+"), Number(2.0), Symbol("*"), Number(4.0), Number(2.0), Number(2.0), Symbol("^"), Symbol("/"), Symbol(BinaryMinus), Number(10.0), Number(10.0), Symbol(BinaryMinus), Number(5.0)], [Pending("+"), OpenParen, Pending("*")]), t[22..])
  {
    var s21 := ParserState([Number(3.0), Number(5.0), Symbol("+"), Number(2.0), Symbol("*"), Number(4.0), Number(2.0), Number(2.0), Symbol("^"), Symbol("/"), Symbol(BinaryMinus), Number(10.0), Number(10.0), Symbol(BinaryMinus)], [Pending("+"), OpenParen, Pending("*")]);
    var s22 := ParserState([Number(3.0), Number(5.0), Symbol("+"), Number(2.0), Symbol("*"), Number(4.0), Number(2.0), Number(2.0), Symbol("^"), Symbol("/"), Symbol(BinaryMinus), Number(10.0), Number(10.0), Symbol(BinaryMinus), Number(5.0)], [Pending("+"), OpenParen, Pending("*")]);
    ParseNumberAt(ops, t, 21, s21, s22);
  }

  lemma MixedParse22(ops: map<string, Operator>, t: seq<Token>)
    requires "*" in ops && ops["*"] == Infix("*", MultiplyOp, 2)
             && "+" in ops && ops["+"] == Infix("+", AddOp, 1)
    requires |t| == 23 && t[22] == RightParen
    ensures Process(ops, ParserState([Number(3.0), Number(5.0), Symbol("+"), Number(2.0), Symbol("*"), Number(4.0), Number(2.0), Number(2.0), Symbol("^"), Symbol("/"), Symbol(BinaryMinus), Number(10.0), Number(10.0), Symbol(BinaryMinus), Number(5.0)], [Pending("+"), OpenParen, Pending("*")]), t[22..])
         == Process(ops, ParserState([Number(3.0), Number(5.0), Symbol("+"), Number(2.0), Symbol("*"), Number(4.0), Number(2.0), Number(2.0), Symbol("^"), Symbol("/"), Symbol(BinaryMinus), Number(10.0), Number(10.0), Symbol(BinaryMinus), Number(5.0), Symbol("*")], [Pending("+")]), t[23..])
  {
    var s22 := ParserState([Number(3.0), Number(5.0), Symbol("+"), Number(2.0), Symbol("*"), Number(4.0), Number(2.0), Number(2.0), Symbol("^"), Symbol("/"), Symbol(BinaryMinus), Number(10.0), Number(10.0), Symbol(BinaryMinus), Number(5.0)], [Pending("+"), OpenParen, Pending("*")]);
    var s23 := ParserState([Number(3.0), Number(5.0), Symbol("+"), Number(2.0), Symbol("*"), Number(4.0), Number(2.0), Number(2.0), Symbol("^"), Symbol("/"), Symbol(BinaryMinus), Number(10.0), Number(10.0), Symbol(BinaryMinus), Number(5.0), Symbol("*")], [Pending("+")]);
    EmittedOne("*");
    ParseCloseAt(ops, t, 22, s22, [Pending("+")], [Pending("*")], s23);
  }

  lemma MixedPostfix(ops: map<string, Operator>, t: seq<Token>)
    requires "*" in ops && ops["*"] == Infix("*", MultiplyOp, 2)
             && "+" in ops && ops["+"] == Infix("+", AddOp, 1)
             && "/" in ops && ops["/"] == Infix("/", DivideOp, 2)
             && "^" in ops && ops["^"] == Infix("^", PowerOp, 4)
             && BinaryMinus in ops && ops[BinaryMinus] == Infix(BinaryMinus, SubtractOp, 1)
    requires MixedTokenList(t)
    ensures Process(ops, Fresh, t) == Ok(ParserState([Number(3.0), Number(5.0), Symbol("+"), Number(2.0), Symbol("*"), Number(4.0), Number(2.0), Number(2.0), Symbol("^"), Symbol("/"), Symbol(BinaryMinus), Number(10.0), Number(10.0), Symbol(BinaryMinus), Number(5.0), Symbol("*")], [Pending("+")]))
  {
    MixedParse0(ops, t);
    MixedParse1(ops, t);
    MixedParse2(ops, t);
    MixedParse3(ops, t);
    MixedParse4(ops, t);
    MixedParse5(ops, t);
    MixedParse6(ops, t);
    MixedParse7(ops, t);
    MixedParse8(ops, t);
    MixedParse9(ops, t);
    MixedParse10(ops, t);
    MixedParse11(ops, t);
    MixedParse12(ops, t);
    MixedParse13(ops, t);
    MixedParse14(ops, t);
    MixedParse15(ops, t);
    MixedParse16(ops, t);
    MixedParse17(ops, t);
    MixedParse18(ops, t);
    MixedParse19(ops, t);
    MixedParse20(ops, t);
    MixedParse21(ops, t);
    MixedParse22(ops, t);
    assert t[0..] == t && t[23..] == [];
  }

  lemma MixedRun0(ops: map<string, Operator>, rt: Runtime, q: seq<Token>)
    requires |q| == 17 && q[0] == Number(3.0)
    ensures Run(ops, rt, q[0..], []) == Run(ops, rt, q[1..], [3.0])
  {
    RunNumberAt(ops, rt, q, 0, [], [3.0]);
  }

  lemma MixedRun1(ops: map<string, Operator>, rt: Runtime, q: seq<Token>)
    requires |q| == 17 && q[1] == Number(5.0)
    ensures Run(ops, rt, q[1..], [3.0]) == Run(ops, rt, q[2..], [3.0, 5.0])
  {
    RunNumberAt(ops, rt, q, 1, [3.0], [3.0, 5.0]);
  }

  lemma MixedRun2(ops: map<string, Operator>, rt: Runtime, q: seq<Token>)
    requires "+" in ops && ops["+"] == Infix("+", AddOp, 1)
    requires |q| == 17 && q[2] == Symbol("+")
    ensures Run(ops, rt, q[2..], [3.0, 5.0]) == Run(ops, rt, q[3..], [8.0])
  {
    RunBinaryAt(ops, rt, q, 2, [3.0, 5.0], 8.0, [8.0]);
  }

  lemma MixedRun3(ops: map<string, Operator>, rt: Runtime, q: seq<Token>)
    requires |q| == 17 && q[3] == Number(2.0)
    ensures Run(ops, rt, q[3..], [8.0]) == Run(ops, rt, q[4..], [8.0, 2.0])
  {
    RunNumberAt(ops, rt, q, 3, [8.0], [8.0, 2.0]);
  }

  lemma MixedRun4(ops: map<string, Operator>, rt: Runtime, q: seq<Token>)
    requires "*" in ops && ops["*"] == Infix("*", MultiplyOp, 2)
    requires |q| == 17 && q[4] == Symbol("*")
    ensures Run(ops, rt, q[4..], [8.0, 2.0]) == Run(ops, rt, q[5..], [16.0])
  {
    RunBinaryAt(ops, rt, q, 4, [8.0, 2.0], 16.0, [16.0]);
  }

  lemma MixedRun5(ops: map<string, Operator>, rt: Runtime, q: seq<Token>)
    requires |q| == 17 && q[5] == Number(4.0)
    ensures Run(ops, rt, q[5..], [16.0]) == Run(ops, rt, q[6..], [16.0, 4.0])
  {
    RunNumberAt(ops, rt, q, 5, [16.0], [16.0, 4.0]);
  }

  lemma MixedRun6(ops: map<string, Operator>, rt: Runtime, q: seq<Token>)
    requires |q| == 17 && q[6] == Number(2.0)
    ensures Run(ops, rt, q[6..], [16.0, 4.0]) == Run(ops, rt, q[7..], [16.0, 4.0, 2.0])
  {
    RunNumberAt(ops, rt, q, 6, [16.0, 4.0], [16.0, 4.0, 2.0]);
  }

  lemma MixedRun7(ops: map<string, Operator>, rt: Runtime, q: seq<Token>)
    requires |q| == 17 && q[7] == Number(2.0)
    ensures Run(ops, rt, q[7..], [16.0, 4.0, 2.0]) == Run(ops, rt, q[8..], [16.0, 4.0, 2.0, 2.0])
  {
    RunNumberAt(ops, rt, q, 7, [16.0, 4.0, 2.0], [16.0, 4.0, 2.0, 2.0]);
  }

  lemma MixedRun8(ops: map<string, Operator>, rt: Runtime, q: seq<Token>)
    requires "^" in ops && ops["^"] == Infix("^", PowerOp, 4)
    requires rt.pow(2.0, 2.0) == Some(4.0)
    requires |q| == 17 && q[8] == Symbol("^")
    ensures Run(ops, rt, q[8..], [16.0, 4.0, 2.0, 2.0]) == Run(ops, rt, q[9..], [16.0, 4.0, 4.0])
  {
    RunBinaryAt(ops, rt, q, 8, [16.0, 4.0, 2.0, 2.0], 4.0, [16.0, 4.0, 4.0]);
  }

  lemma MixedRun9(ops: map<string, Operator>, rt: Runtime, q: seq<Token>)
    requires "/" in ops && ops["/"] == Infix("/", DivideOp, 2)
    requires |q| == 17 && q[9] == Symbol("/")
    ensures Run(ops, rt, q[9..], [16.0, 4.0, 4.0]) == Run(ops, rt, q[10..], [16.0, 1.0])
  {
    RunBinaryAt(ops, rt, q, 9, [16.0, 4.0, 4.0], 1.0, [16.0, 1.0]);
  }

  lemma MixedRun10(ops: map<string, Operator>, rt: Runtime, q: seq<Token>)
    requires BinaryMinus in ops && ops[BinaryMinus] == Infix(BinaryMinus, SubtractOp, 1)
    requires |q| == 17 && q[10] == Symbol(BinaryMinus)
    ensures Run(ops, rt, q[10..], [16.0, 1.0]) == Run(ops, rt, q[11..], [15.0])
  {
    RunBinaryAt(ops, rt, q, 10, [16.0, 1.0], 15.0, [15.0]);
  }

  lemma MixedRun11(ops: map<string, Operator>, rt: Runtime, q: seq<Token>)
    requires |q| == 17 && q[11] == Number(10.0)
    ensures Run(ops, rt, q[11..], [15.0]) == Run(ops, rt, q[12..], [15.0, 10.0])
  {
    RunNumberAt(ops, rt, q, 11, [15.0], [15.0, 10.0]);
  }

  lemma MixedRun12(ops: map<string, Operator>, rt: Runtime, q: seq<Token>)
    requires |q| == 17 && q[12] == Number(10.0)
    ensures Run(ops, rt, q[12..], [15.0, 10.0]) == Run(ops, rt, q[13..], [15.0, 10.0, 10.0])
  {
    RunNumberAt(ops, rt, q, 12, [15.0, 10.0], [15.0, 10.0, 10.0]);
  }

  lemma MixedRun13(ops: map<string, Operator>, rt: Runtime, q: seq<Token>)
    requires BinaryMinus in ops && ops[BinaryMinus] == Infix(BinaryMinus, SubtractOp, 1)
    requires |q| == 17 && q[13] == Symbol(BinaryMinus)
    ensures Run(ops, rt, q[13..], [15.0, 10.0, 10.0]) == Run(ops, rt, q[14..], [15.0, 0.0])
  {
    RunBinaryAt(ops, rt, q, 13, [15.0, 10.0, 10.0], 0.0, [15.0, 0.0]);
  }

  lemma MixedRun14(ops: map<string, Operator>, rt: Runtime, q: seq<Token>)
    requires |q| == 17 && q[14] == Number(5.0)
    ensures Run(ops, rt, q[14..], [15.0, 0.0]) == Run(ops, rt, q[15..], [15.0, 0.0, 5.0])
  {
    RunNumberAt(ops, rt, q, 14, [15.0, 0.0], [15.0, 0.0, 5.0]);
  }

  lemma MixedRun15(ops: map<string, Operator>, rt: Runtime, q: seq<Token>)
    requires "*" in ops && ops["*"] == Infix("*", MultiplyOp, 2)
    requires |q| == 17 && q[15] == Symbol("*")
    ensures Run(ops, rt, q[15..], [15.0, 0.0, 5.0]) == Run(ops, rt, q[16..], [15.0, 0.0])
  {
    RunBinaryAt(ops, rt, q, 15, [15.0, 0.0, 5.0], 0.0, [15.0, 0.0]);
  }

  lemma MixedRun16(ops: map<string, Operator>, rt: Runtime, q: seq<Token>)
    requires "+" in ops && ops["+"] == Infix("+", AddOp, 1)
    requires |q| == 17 && q[16] == Symbol("+")
    ensures Run(ops, rt, q[16..], [15.0, 0.0]) == Run(ops, rt, q[17..], [15.0])
  {
    RunBinaryAt(ops, rt, q, 16, [15.0, 0.0], 15.0, [15.0]);
  }

  lemma MixedValue(ops: map<string, Operator>, rt: Runtime, q: seq<Token>)
    requires "*" in ops && ops["*"] == Infix("*", MultiplyOp, 2)
             && "+" in ops && ops["+"] == Infix("+", AddOp, 1)
             && "/" in ops && ops["/"] == Infix("/", DivideOp, 2)
             && "^" in ops && ops["^"] == Infix("^", PowerOp, 4)
             && BinaryMinus in ops && ops[BinaryMinus] == Infix(BinaryMinus, SubtractOp, 1)
    requires rt.pow(2.0, 2.0) == Some(4.0) && MixedQueue(q)
    ensures Run(ops, rt, q, []) == Ok([15.0])
  {
    MixedRun0(ops, rt, q);
    MixedRun1(ops, rt, q);
    MixedRun2(ops, rt, q);
    MixedRun3(ops, rt, q);
    MixedRun4(ops, rt, q);
    MixedRun5(ops, rt, q);
    MixedRun6(ops, rt, q);
    MixedRun7(ops, rt, q);
    MixedRun8(ops, rt, q);
    MixedRun9(ops, rt, q);
    MixedRun10(ops, rt, q);
    MixedRun11(ops, rt, q);
    MixedRun12(ops, rt, q);
    MixedRun13(ops, rt, q);
    MixedRun14(ops, rt, q);
    MixedRun15(ops, rt, q);
    MixedRun16(ops, rt, q);
    assert q[0..] == q && q[17..] == [];
  }

  lemma MixedLexStage(ops: map<string, Operator>) returns (e: string, t: seq<Token>)
    requires "*" in ops && "+" in ops && "/" in ops && "^" in ops
    ensures MixedChars(e) && MixedTokenList(t) && TokensFrom(ops, e, 0, None) == LexOutcome(t, None)
  {
    e := "(3+5)*2-4/2^2+((10-10)*5)";
    t := [LeftParen, Number(3.0), Symbol("+"), Number(5.0), RightParen, Symbol("*"), Number(2.0), Symbol(BinaryMinus), Number(4.0), Symbol("/"), Number(2.0), Symbol("^"), Number(2.0), Symbol("+"), LeftParen, LeftParen, Number(10.0), Symbol(BinaryMinus), Number(10.0), RightParen, Symbol("*"), Number(5.0), RightParen];
    MixedSpelling(e);
    MixedTokenFacts(t);
    MixedLexed(ops, e, t);
  }

  lemma MixedParseStage(ops: map<string, Operator>, t: seq<Token>) returns (st: ParserState, q: seq<Token>)
    requires "*" in ops && ops["*"] == Infix("*", MultiplyOp, 2)
             && "+" in ops && ops["+"] == Infix("+", AddOp, 1)
             && "/" in ops && ops["/"] == Infix("/", DivideOp, 2)
             && "^" in ops && ops["^"] == Infix("^", PowerOp, 4)
             && BinaryMinus in ops && ops[BinaryMinus] == Infix(BinaryMinus, SubtractOp, 1)
    requires MixedTokenList(t)
    ensures Process(ops, Fresh, t) == Ok(st) && OpenParen !in st.stack
    ensures q == st.output + Emitted(st.stack) && MixedQueue(q)
  {
    st := ParserState([Number(3.0), Number(5.0), Symbol("+"), Number(2.0), Symbol("*"), Number(4.0), Number(2.0), Number(2.0), Symbol("^"), Symbol("/"), Symbol(BinaryMinus), Number(10.0), Number(10.0), Symbol(BinaryMinus), Number(5.0), Symbol("*")], [Pending("+")]);
    q := [Number(3.0), Number(5.0), Symbol("+"), Number(2.0), Symbol("*"), Number(4.0), Number(2.0), Number(2.0), Symbol("^"), Symbol("/"), Symbol(BinaryMinus), Number(10.0), Number(10.0), Symbol(BinaryMinus), Number(5.0), Symbol("*"), Symbol("+")];
    MixedPostfix(ops, t);
    MixedQueueFacts(q);
    EmittedOne("+");
    assert st.output + Emitted(st.stack) == q;
  }

  lemma MixedStages(ops: map<string, Operator>, rt: Runtime)
    returns (e: string, t: seq<Token>, st: ParserState, q: seq<Token>)
    requires "*" in ops && ops["*"] == Infix("*", MultiplyOp, 2)
             && "+" in ops && ops["+"] == Infix("+", AddOp, 1)
             && "/" in ops && ops["/"] == Infix("/", DivideOp, 2)
             && "^" in ops && ops["^"] == Infix("^", PowerOp, 4)
             && BinaryMinus in ops && ops[BinaryMinus] == Infix(BinaryMinus, SubtractOp, 1)
    requires rt.pow(2.0, 2.0) == Some(4.0)
    ensures MixedChars(e) && TokensFrom(ops, e, 0, None) == LexOutcome(t, None)
    ensures Process(ops, Fresh, t) == Ok(st) && OpenParen !in st.stack
    ensures q == st.output + Emitted(st.stack) && q != []
    ensures Run(ops, rt, q, []) == Ok([15.0])
  {
    e, t := MixedLexStage(ops);
    st, q := MixedParseStage(ops, t);
    MixedValue(ops, rt, q);
  }

  /** `calculate("(3+5)*2-4/2^  2+((10-10)*5)")` is 15. */
  lemma MixedExpression(rt: Runtime, input: string)
    requires input == "(3+5)*2-4/2^  2+((10-10)*5)"
    requires rt.pow(2.0, 2.0) == Some(4.0)
    ensures Evaluate(Table(), rt, input) == Ok(15.0)
  {
    TableEntriesLow();
    TableEntriesHigh();
    var e, t, st, q := MixedStages(Table(), rt);
    MixedInput(input);
    MixedText(input, e);
    Evaluated(Table(), rt, input, e, t, st, q, 15.0);
  }
}
