/** The lexer (lexer.py): blank removal, number scanning, the choice between binary and
    unary minus, and the scan that turns an expression into tokens. */
module Lexer {
  import opened Errors
  import opened Chars
  import Operands

  /** `LexerTypes.BINARY_MINUS` and `LexerTypes.UNARY_MINUS`: the symbols the lexer emits for
      a `-`, looked up in the registry like any other operator symbol. */
  const BinaryMinus: string := "b-"
  const UnaryMinus: string := "u-"

  /** What `tokenize` yields: a float, an operator symbol, or one of the two parentheses. */
  datatype Token = Number(value: real) | Symbol(symbol: string) | LeftParen | RightParen

  /** `LexerTypes.NUMBER` / `OPERATOR` / `L_PAREN` / `R_PAREN`: the class of the previous token. */
  datatype TokenClass = NumberClass | OperatorClass | LParenClass | RParenClass

  /** The tokens a run of the generator yields, and the error it raised after them, if any. */
  datatype LexOutcome = LexOutcome(tokens: seq<Token>, error: Option<Error>)

  function ClassOf(t: Token): TokenClass {
    match t
    case Number(_) => NumberClass
    case Symbol(_) => OperatorClass
    case LeftParen => LParenClass
    case RightParen => RParenClass
  }

  predicate IsBlank(c: char) {
    c == ' ' || c == '\t'
  }

  /** A character `_read_number` keeps scanning over. */
  predicate IsNumberChar(c: char) {
    IsDigit(c) || c == '.'
  }

  // ---------------------------------------------------------------------------------------
  // _normalize

  /** `s.replace(c, "")`. */
  function RemoveChar(s: string, c: char): (r: string)
    ensures c !in r
    ensures forall x | x in r :: x in s
    ensures forall x | x != c :: multiset(r)[x] == multiset(s)[x]
    ensures |r| <= |s|
  {
    if s == [] then []
    else
      assert s == [s[0]] + s[1..];
      (if s[0] == c then [] else [s[0]]) + RemoveChar(s[1..], c)
  }

  /** Deletes spaces, then tabs. */
  function Normalize(s: string): (r: string)
    ensures forall c | c in r :: !IsBlank(c)
    ensures forall x | !IsBlank(x) :: multiset(r)[x] == multiset(s)[x]
  {
    RemoveChar(RemoveChar(s, ' '), '\t')
  }

  /** Reference definition: the non-blank characters of `s`, in their original order. */
  function NonBlank(s: string): string {
    if s == [] then []
    else (if IsBlank(s[0]) then [] else [s[0]]) + NonBlank(s[1..])
  }

  lemma {:induction false} RemoveCharConcat(a: string, b: string, c: char)
    ensures RemoveChar(a + b, c) == RemoveChar(a, c) + RemoveChar(b, c)
    decreases |a|
  {
    if a == [] {
      assert a + b == b;
    } else {
      var head := if a[0] == c then [] else [a[0]];
      assert (a + b)[0] == a[0];
      assert (a + b)[1..] == a[1..] + b;
      assert RemoveChar(a + b, c) == head + RemoveChar(a[1..] + b, c);
      RemoveCharConcat(a[1..], b, c);
      assert head + (RemoveChar(a[1..], c) + RemoveChar(b, c))
          == (head + RemoveChar(a[1..], c)) + RemoveChar(b, c);
    }
  }

  /** Normalizing keeps exactly the non-blank characters, in order. */
  lemma {:induction false} NormalizeIsFilter(s: string)
    ensures Normalize(s) == NonBlank(s)
    decreases |s|
  {
    if s != [] {
      NormalizeIsFilter(s[1..]);
      var head := if s[0] == ' ' then [] else [s[0]];
      assert RemoveChar(s, ' ') == head + RemoveChar(s[1..], ' ');
      RemoveCharConcat(head, RemoveChar(s[1..], ' '), '\t');
    }
  }

  lemma {:induction false} NonBlankOfClean(s: string)
    requires forall c | c in s :: !IsBlank(c)
    ensures NonBlank(s) == s
    decreases |s|
  {
    if s != [] {
      assert s[0] in s;
      assert forall c | c in s[1..] :: c in s;
      NonBlankOfClean(s[1..]);
      assert [s[0]] + s[1..] == s;
    }
  }

  lemma {:induction false} NonBlankConcat(a: string, b: string)
    ensures NonBlank(a + b) == NonBlank(a) + NonBlank(b)
    decreases |a|
  {
    if a == [] {
      assert a + b == b;
    } else {
      assert (a + b)[0] == a[0];
      assert (a + b)[1..] == a[1..] + b;
      NonBlankConcat(a[1..], b);
    }
  }

  lemma {:induction false} NonBlankOfBlank(s: string)
    requires forall i | 0 <= i < |s| :: IsBlank(s[i])
    ensures NonBlank(s) == []
    decreases |s|
  {
    if s != [] {
      assert forall i | 0 <= i < |s[1..]| :: s[1..][i] == s[i + 1];
      NonBlankOfBlank(s[1..]);
    }
  }

  lemma NormalizeIdempotent(s: string)
    ensures Normalize(Normalize(s)) == Normalize(s)
  {
    NormalizeIsFilter(Normalize(s));
    NonBlankOfClean(Normalize(s));
  }

  // ---------------------------------------------------------------------------------------
  // _read_number

  /** The end of the longest run of digits and dots starting at `i`. */
  function RunEnd(e: string, i: nat): (end: nat)
    requires i <= |e|
    ensures i <= end <= |e|
    ensures forall k | i <= k < end :: IsNumberChar(e[k])
    ensures end < |e| ==> !IsNumberChar(e[end])
    decreases |e| - i
  {
    if i < |e| && IsNumberChar(e[i]) then RunEnd(e, i + 1) else i
  }

  function DotCount(s: string): nat {
    if s == [] then 0 else DotCount(s[..|s| - 1]) + (if s[|s| - 1] == '.' then 1 else 0)
  }

  lemma {:induction false} DotCountConcat(a: string, b: string)
    ensures DotCount(a + b) == DotCount(a) + DotCount(b)
    decreases |b|
  {
    if b == [] {
      assert a + b == a;
    } else {
      assert (a + b)[..|a + b| - 1] == a + b[..|b| - 1];
      DotCountConcat(a, b[..|b| - 1]);
    }
  }

  lemma DotCountSnoc(s: string, c: char)
    ensures DotCount(s + [c]) == DotCount(s) + if c == '.' then 1 else 0
  {
    assert (s + [c])[..|s|] == s;
  }

  /** Within one text, a prefix holds no more dots than the whole. */
  lemma DotCountPrefix(e: string, i: nat, j: nat, k: nat)
    requires i <= j <= k <= |e|
    ensures DotCount(e[i..j]) <= DotCount(e[i..k])
  {
    assert e[i..k] == e[i..j] + e[j..k];
    DotCountConcat(e[i..j], e[j..k]);
  }

  /** What Python's `float` accepts among the texts `_read_number` can hand it (digits and at
      most one dot): a text holding at least one digit. */
  predicate FloatLiteral(s: string) {
    (forall k | 0 <= k < |s| :: IsNumberChar(s[k])) && DotCount(s) <= 1 &&
    exists k | 0 <= k < |s| :: IsDigit(s[k])
  }

  /** The value of a string of decimal digits. */
  function IntegerValue(s: string): nat {
    if s == [] then 0 else 10 * IntegerValue(s[..|s| - 1]) + DigitValue(s[|s| - 1])
  }

  /** `v` divided by ten `n` times. */
  function ScaledDown(v: real, n: nat): (r: real)
    ensures v >= 0.0 ==> r >= 0.0
  {
    if n == 0 then v else ScaledDown(v, n - 1) / 10.0
  }

  /** The number of characters after the first dot; 0 without a dot. */
  function FractionLength(s: string): nat {
    if s == [] then 0 else if s[0] == '.' then |s| - 1 else FractionLength(s[1..])
  }

  /** The exact value of a decimal literal: its digits read as an integer, scaled down by the
      number of digits after the dot. This stands for `float(...)`, whose rounding to the
      nearest double is not modelled. */
  function DecimalValue(s: string): (r: real)
    ensures r >= 0.0
  {
    ScaledDown(IntegerValue(RemoveChar(s, '.')) as real, FractionLength(s))
  }

  /** `_read_number(expression, index)` as a declaration: the lexeme is the longest run of
      digits and dots at `index`; a second dot in it is an error, as is a lexeme `float`
      refuses; otherwise the value and the index where the run ends. Both errors carry `index`. */
  function ScanNumber(e: string, index: nat): (r: Result<(real, nat)>)
    requires index <= |e|
    ensures r.Ok? ==> index < r.value.1 <= |e| && r.value.0 >= 0.0
    ensures r.Err? ==> r.error.InvalidNumber? && r.error.index == index
  {
    var end := RunEnd(e, index);
    var lexeme := e[index..end];
    if DotCount(lexeme) >= 2 then Err(InvalidNumber(index, MultipleDots))
    else if !FloatLiteral(lexeme) then Err(InvalidNumber(index, BadFormat))
    else Ok((DecimalValue(lexeme), end))
  }

  /** Called at a digit, the scan fails exactly when the run holds a second dot; otherwise it
      ends after the start, past only digits and dots, at a character that is neither, and
      its value is the decimal value of the run. */
  lemma ScanNumberAtDigit(e: string, index: nat)
    requires index < |e| && IsDigit(e[index])
    ensures ScanNumber(e, index).Err? <==> DotCount(e[index..RunEnd(e, index)]) >= 2
    ensures ScanNumber(e, index).Err? ==> ScanNumber(e, index).error == InvalidNumber(index, MultipleDots)
    ensures ScanNumber(e, index).Ok? ==>
              var end := ScanNumber(e, index).value.1;
              index < end <= |e| &&
              (forall k | index <= k < end :: IsNumberChar(e[k])) &&
              (end < |e| ==> !IsNumberChar(e[end]))
    ensures ScanNumber(e, index).Ok? ==>
              ScanNumber(e, index).value.0 == DecimalValue(e[index..ScanNumber(e, index).value.1])
  {
    var lexeme := e[index..RunEnd(e, index)];
    assert lexeme[0] == e[index];
  }

  /** A run of digits alone reads as the integer those digits spell, and the scan ends
      after it. */
  lemma ScanInteger(e: string, i: nat, j: nat)
    requires i < j <= |e|
    requires forall k | i <= k < j :: IsDigit(e[k])
    requires j < |e| ==> !IsNumberChar(e[j])
    ensures ScanNumber(e, i) == Ok((IntegerValue(e[i..j]) as real, j))
  {
    var s := e[i..j];
    assert RunEnd(e, i) == j;
    assert forall k | 0 <= k < |s| :: IsDigit(s[k]);
    NoDotFacts(s);
    assert IsDigit(s[0]);
  }

  /** A run with one dot reads as its integer part plus its fraction digits scaled down by
      their number, and the scan ends after it. */
  lemma ScanDecimal(e: string, i: nat, p: nat, j: nat)
    requires i < p < j <= |e| && e[p] == '.'
    requires forall k | i <= k < j && k != p :: IsDigit(e[k])
    requires j < |e| ==> !IsNumberChar(e[j])
    ensures ScanNumber(e, i) ==
            Ok((IntegerValue(e[i..p]) as real + ScaledDown(IntegerValue(e[p + 1..j]) as real, j - p - 1), j))
  {
    var a, b := e[i..p], e[p + 1..j];
    DottedRun(e, i, p, j, a, b);
    DottedScan(e, i, j, a, b);
  }

  /** The run from `i` to `j` is the digits `a` before the dot at `p`, the dot, and the
      digits `b` after it. */
  lemma DottedRun(e: string, i: nat, p: nat, j: nat, a: string, b: string)
    requires i < p < j <= |e| && e[p] == '.' && a == e[i..p] && b == e[p + 1..j]
    requires forall k | i <= k < j && k != p :: IsDigit(e[k])
    ensures e[i..j] == a + "." + b
    ensures forall k | 0 <= k < |a| :: IsDigit(a[k])
    ensures forall k | 0 <= k < |b| :: IsDigit(b[k])
  {
    DigitSlice(e, i, p);
    DigitSlice(e, p + 1, j);
  }

  /** A run `a.b` of digits around one dot, with a digit in front, scans to its decimal value. */
  lemma DottedScan(e: string, i: nat, j: nat, a: string, b: string)
    requires i < j <= |e| && e[i..j] == a + "." + b && a != []
    requires forall k | 0 <= k < |a| :: IsDigit(a[k])
    requires forall k | 0 <= k < |b| :: IsDigit(b[k])
    requires j < |e| ==> !IsNumberChar(e[j])
    ensures ScanNumber(e, i) == Ok((IntegerValue(a) as real + ScaledDown(IntegerValue(b) as real, |b|), j))
  {
    DottedCount(a, b);
    DottedChars(a, b);
    assert IsDigit(e[i]) by { assert e[i] == e[i..j][0] == a[0]; }
    LexemeScan(e, i, j);
    DottedValue(a, b);
    var v := IntegerValue(a) as real + ScaledDown(IntegerValue(b) as real, |b|);
    assert DecimalValue(e[i..j]) == v;
    assert ScanNumber(e, i).value == (v, j);
  }

  /** A run of number characters from `i` that stops at `j` ends at `j`. */
  lemma RunEndAt(e: string, i: nat, j: nat)
    requires i <= j <= |e|
    requires forall k | i <= k < j :: IsNumberChar(e[k])
    requires j < |e| ==> !IsNumberChar(e[j])
    ensures RunEnd(e, i) == j
  {
  }

  /** A run that is a literal `float` reads, with at most one dot, scans to its decimal value. */
  lemma LexemeScan(e: string, i: nat, j: nat)
    requires i < j <= |e|
    requires forall k | 0 <= k < j - i :: IsNumberChar(e[i..j][k])
    requires j < |e| ==> !IsNumberChar(e[j])
    requires DotCount(e[i..j]) <= 1 && IsDigit(e[i])
    ensures ScanNumber(e, i) == Ok((DecimalValue(e[i..j]), j))
  {
    assert forall k | i <= k < j :: IsNumberChar(e[k]) by {
      forall k | i <= k < j ensures IsNumberChar(e[k]) { assert e[k] == e[i..j][k - i]; }
    }
    RunEndAt(e, i, j);
    assert IsDigit(e[i..j][0]);
  }

  lemma DigitSlice(e: string, lo: nat, hi: nat)
    requires lo <= hi <= |e|
    requires forall k | lo <= k < hi :: IsDigit(e[k])
    ensures forall k | 0 <= k < hi - lo :: IsDigit(e[lo..hi][k])
  {
  }

  /** `a.b` with digits on both sides has exactly one dot. */
  lemma DottedCount(a: string, b: string)
    requires forall k | 0 <= k < |a| :: IsDigit(a[k])
    requires forall k | 0 <= k < |b| :: IsDigit(b[k])
    ensures DotCount(a + "." + b) == 1
  {
    NoDotFacts(a);
    NoDotFacts(b);
    DotCountConcat(a + ".", b);
    DotCountConcat(a, ".");
    assert DotCount(".") == 1 by { assert "."[..0] == []; }
  }

  /** `a.b` with digits on both sides is made of number characters only. */
  lemma DottedChars(a: string, b: string)
    requires forall k | 0 <= k < |a| :: IsDigit(a[k])
    requires forall k | 0 <= k < |b| :: IsDigit(b[k])
    ensures forall k | 0 <= k < |a + "." + b| :: IsNumberChar((a + "." + b)[k])
  {
    var s := a + "." + b;
    forall k | 0 <= k < |s| ensures IsNumberChar(s[k]) {
      if k < |a| { assert s[k] == a[k]; } else if k > |a| { assert s[k] == b[k - |a| - 1]; }
    }
  }

  /** Ten to the power `n`. */
  function Pow10(n: nat): (p: nat)
    ensures p >= 1
  {
    if n == 0 then 1 else 10 * Pow10(n - 1)
  }

  /** Scaling down by `n` is dividing by ten to the `n`. */
  lemma {:induction false} ScaledDownIsDivision(v: real, n: nat)
    ensures ScaledDown(v, n) * (Pow10(n) as real) == v
  {
    if n > 0 {
      ScaledDownIsDivision(v, n - 1);
      var w, q := ScaledDown(v, n - 1), Pow10(n - 1) as real;
      assert ScaledDown(v, n) * (Pow10(n) as real) == (w / 10.0) * (10.0 * q);
      assert (w / 10.0) * (10.0 * q) == w * q;
    }
  }

  /** `x` multiplied by ten `n` times. */
  function ScaledUp(x: nat, n: nat): nat
    decreases n
  {
    if n == 0 then x else ScaledUp(10 * x, n - 1)
  }

  lemma {:induction false} ScaledUpTen(x: nat, n: nat)
    ensures 10 * ScaledUp(x, n) == ScaledUp(10 * x, n)
    decreases n
  {
    if n > 0 {
      ScaledUpTen(10 * x, n - 1);
    }
  }

  /** Scaling up by `n` and back down gives the number back, beside any other summand. */
  lemma {:induction false} ScaledDownShift(x: nat, y: real, n: nat)
    ensures ScaledDown(ScaledUp(x, n) as real + y, n) == x as real + ScaledDown(y, n)
    decreases n
  {
    if n > 0 {
      var v := ScaledUp(x, n) as real + y;
      ScaledDownShift(10 * x, y, n - 1);
      assert ScaledDown(v, n - 1) == (10 * x) as real + ScaledDown(y, n - 1);
      assert ScaledDown(v, n) == ScaledDown(v, n - 1) / 10.0;
    }
  }

  /** Reading digits `a` followed by digits `b` as one integer scales `a` up by the length of `b`. */
  lemma {:induction false} IntegerValueConcat(a: string, b: string)
    ensures IntegerValue(a + b) == ScaledUp(IntegerValue(a), |b|) + IntegerValue(b)
    decreases |b|
  {
    if b == [] {
      assert a + b == a;
    } else {
      var b' := b[..|b| - 1];
      var d := DigitValue(b[|b| - 1]);
      assert (a + b)[..|a + b| - 1] == a + b';
      assert (a + b)[|a + b| - 1] == b[|b| - 1];
      assert IntegerValue(a + b) == 10 * IntegerValue(a + b') + d;
      assert IntegerValue(b) == 10 * IntegerValue(b') + d;
      IntegerValueConcat(a, b');
      ScaledUpTen(IntegerValue(a), |b'|);
    }
  }

  /** Without a dot in front, the fraction length is decided by what follows. */
  lemma {:induction false} FractionAfterDigits(a: string, t: string)
    requires forall k | 0 <= k < |a| :: IsDigit(a[k])
    ensures FractionLength(a + t) == FractionLength(t)
    decreases |a|
  {
    if a != [] {
      assert (a + t)[0] == a[0] && a[0] != '.';
      assert (a + t)[1..] == a[1..] + t;
      assert forall k | 0 <= k < |a[1..]| :: a[1..][k] == a[k + 1];
      FractionAfterDigits(a[1..], t);
    } else {
      assert a + t == t;
    }
  }

  /** The value of a decimal literal `a.b`: the integer `a` plus the integer `b` scaled down by
      the number of digits of `b`. */
  lemma DottedValue(a: string, b: string)
    requires forall k | 0 <= k < |a| :: IsDigit(a[k])
    requires forall k | 0 <= k < |b| :: IsDigit(b[k])
    ensures DecimalValue(a + "." + b) == IntegerValue(a) as real + ScaledDown(IntegerValue(b) as real, |b|)
  {
    DottedDigits(a, b);
    DottedFraction(a, b);
    IntegerValueConcat(a, b);
    ScaledSum(IntegerValue(a + b), IntegerValue(a), IntegerValue(b), |b|);
  }

  lemma ScaledSum(v: nat, x: nat, y: nat, n: nat)
    requires v == ScaledUp(x, n) + y
    ensures ScaledDown(v as real, n) == x as real + ScaledDown(y as real, n)
  {
    assert v as real == ScaledUp(x, n) as real + y as real;
    ScaledDownShift(x, y as real, n);
  }

  /** Deleting the dot of `a.b` leaves the digits of `a`, then those of `b`. */
  lemma DottedDigits(a: string, b: string)
    requires forall k | 0 <= k < |a| :: IsDigit(a[k])
    requires forall k | 0 <= k < |b| :: IsDigit(b[k])
    ensures RemoveChar(a + "." + b, '.') == a + b
  {
    TrailingDot(a);
    NoDotFacts(b);
    RemoveCharConcat(a + ".", b, '.');
  }

  lemma TrailingDot(a: string)
    requires forall k | 0 <= k < |a| :: IsDigit(a[k])
    ensures RemoveChar(a + ".", '.') == a
  {
    NoDotFacts(a);
    RemoveCharConcat(a, ".", '.');
    assert "."[1..] == [];
  }

  /** After the digits of `a`, the fraction of `a.b` is `b`. */
  lemma DottedFraction(a: string, b: string)
    requires forall k | 0 <= k < |a| :: IsDigit(a[k])
    ensures FractionLength(a + "." + b) == |b|
  {
    assert a + "." + b == a + ("." + b);
    FractionAfterDigits(a, "." + b);
  }

  lemma {:induction false} NoDotFacts(s: string)
    requires forall k | 0 <= k < |s| :: IsDigit(s[k])
    ensures DotCount(s) == 0 && RemoveChar(s, '.') == s && FractionLength(s) == 0
    decreases |s|
  {
    if s != [] {
      NoDotFacts(s[1..]);
      NoDotFacts(s[..|s| - 1]);
      assert s[0] != '.' && s[|s| - 1] != '.';
      assert [s[0]] + s[1..] == s;
    }
  }

  /** The loop of `_read_number`: digits advance, the first dot sets `decimal`, a second dot
      raises, anything else stops the scan; then `float` of the scanned text. */
  method ReadNumber(e: string, index: nat) returns (r: Result<(real, nat)>)
    requires index <= |e|
    ensures r == ScanNumber(e, index)
  {
    var i := index;
    var decimal := false;
    while i < |e|
      invariant index <= i <= RunEnd(e, index)
      invariant RunEnd(e, i) == RunEnd(e, index)
      invariant DotCount(e[index..i]) == if decimal then 1 else 0
      decreases |e| - i
    {
      var c := e[i];
      assert e[index..i + 1] == e[index..i] + [c];
      DotCountSnoc(e[index..i], c);
      if IsDigit(c) {
        i := i + 1;
      } else if c == '.' {
        if decimal {
          DotCountPrefix(e, index, i + 1, RunEnd(e, index));
          assert DotCount(e[index..RunEnd(e, index)]) >= 2;
          return Err(InvalidNumber(index, MultipleDots));
        }
        decimal := true;
        i := i + 1;
      } else {
        break;
      }
    }
    assert i == RunEnd(e, index);
    var lexeme := e[index..i];
    assert DotCount(lexeme) <= 1;
    if FloatLiteral(lexeme) {
      r := Ok((DecimalValue(lexeme), i));
    } else {
      r := Err(InvalidNumber(index, BadFormat));
    }
  }

  // ---------------------------------------------------------------------------------------
  // _decide_minus_type and tokenize

  /** `_decide_minus_type`: a minus after a number or a `)` is binary, any other is unary. */
  function DecideMinusType(prev: TokenClass): (r: string)
    ensures r == BinaryMinus <==> prev == NumberClass || prev == RParenClass
    ensures r == UnaryMinus <==> prev == OperatorClass || prev == LParenClass
  {
    assert BinaryMinus != UnaryMinus by {
      assert BinaryMinus[0] == 'b' && UnaryMinus[0] == 'u';
    }
    match prev
    case NumberClass | RParenClass => BinaryMinus
    case OperatorClass | LParenClass => UnaryMinus
  }

  /** The symbol for a `-` seen after a token of class `prev` (None at the start). */
  function MinusFor(prev: Option<TokenClass>): (r: string)
    ensures r == BinaryMinus <==> prev == Some(NumberClass) || prev == Some(RParenClass)
    ensures r == BinaryMinus || r == UnaryMinus
  {
    if prev.None? then UnaryMinus else DecideMinusType(prev.value)
  }

  /** A character `tokenize` turns into a token (or starts a number at). */
  predicate Accepted(ops: map<string, Operands.Operator>, c: char) {
    c == '-' || IsDigit(c) || [c] in ops || c == '(' || c == ')'
  }

  function Prepend(t: Token, rest: LexOutcome): LexOutcome {
    LexOutcome([t] + rest.tokens, rest.error)
  }

  /** A token `tokenize` can produce: a non-negative number, a parenthesis, one of the two
      minus symbols, or a one-character symbol of the registry. */
  predicate TokenFromText(ops: map<string, Operands.Operator>, t: Token) {
    match t
    case Number(v) => v >= 0.0
    case Symbol(sym) => sym == BinaryMinus || sym == UnaryMinus || (|sym| == 1 && sym in ops)
    case LeftParen | RightParen => true
  }

  /** An error the scan of `e` from `i` can end in: a number error at a digit, or an illegal
      character that is not accepted, each at a position from `i` on. */
  predicate LexError(ops: map<string, Operands.Operator>, e: string, i: nat, err: Error) {
    match err
    case InvalidNumber(index, _) => i <= index < |e| && IsDigit(e[index])
    case IllegalCharacter(c, index) => i <= index < |e| && e[index] == c && !Accepted(ops, c)
    case _ => false
  }

  /** The number token of a scanned literal and the position after it, or the scan's error. */
  function NumberToken(scan: Result<(real, nat)>): Result<(Token, nat)> {
    if scan.Err? then Err(scan.error) else Ok((Number(scan.value.0), scan.value.1))
  }

  /** One pass of the loop of `tokenize` at position `i`, after a token of class `prev`: the
      token it yields and the position after it, or the error it raises. */
  function ScanStep(ops: map<string, Operands.Operator>, e: string, i: nat,
                    prev: Option<TokenClass>): (r: Result<(Token, nat)>)
    requires i < |e|
    ensures r.Ok? ==> i < r.value.1 <= |e|
    ensures r.Ok? ==> TokenFromText(ops, r.value.0)
    ensures r.Err? ==> (r.error == IllegalCharacter(e[i], i) && !Accepted(ops, e[i])) ||
                       (r.error.InvalidNumber? && r.error.index == i && IsDigit(e[i]))
  {
    var c := e[i];
    if c == '-' then Ok((Symbol(MinusFor(prev)), i + 1))
    else if IsDigit(c) then NumberToken(ScanNumber(e, i))
    else if c == '(' then Ok((LeftParen, i + 1))
    else if c == ')' then Ok((RightParen, i + 1))
    else if [c] in ops then Ok((Symbol([c]), i + 1))
    else Err(IllegalCharacter(c, i))
  }

  /** The tokens the scan yields from position `i` of the normalized text, the previous token
      having class `prev`: one pass of the loop per call. */
  function TokensFrom(ops: map<string, Operands.Operator>, e: string, i: nat,
                      prev: Option<TokenClass>): LexOutcome
    requires i <= |e|
    decreases |e| - i
  {
    if i == |e| then LexOutcome([], None)
    else
      match ScanStep(ops, e, i, prev)
      case Err(err) => LexOutcome([], Some(err))
      case Ok((t, next)) => Prepend(t, TokensFrom(ops, e, next, Some(ClassOf(t))))
  }

  /** Everything `tokenize(expression)` yields, with the error it ends in, if any; an
      illegal character it reports is never a space or a tab. */
  function TokenStream(ops: map<string, Operands.Operator>, expression: string): (r: LexOutcome)
    ensures |r.tokens| <= |expression|
    ensures forall k | 0 <= k < |r.tokens| :: TokenFromText(ops, r.tokens[k])
    ensures r.error.Some? ==> LexError(ops, Normalize(expression), 0, r.error.value)
    ensures r.error.Some? && r.error.value.IllegalCharacter? ==> !IsBlank(r.error.value.ch)
  {
    ScanOutcome(ops, Normalize(expression), 0, None);
    TokensFrom(ops, Normalize(expression), 0, None)
  }

  /** The scan from `i` yields at most as many tokens as characters are left, each one
      `tokenize` can produce, and it can only end in a number error at a digit or in an
      illegal-character error naming a character it does not accept, at a position it got
      to. */
  lemma {:induction false} ScanOutcome(ops: map<string, Operands.Operator>, e: string, i: nat,
                                       prev: Option<TokenClass>)
    requires i <= |e|
    ensures var r := TokensFrom(ops, e, i, prev);
            |r.tokens| <= |e| - i &&
            (forall k | 0 <= k < |r.tokens| :: TokenFromText(ops, r.tokens[k])) &&
            (r.error.Some? ==> LexError(ops, e, i, r.error.value))
    decreases |e| - i
  {
    if i < |e| {
      var step := ScanStep(ops, e, i, prev);
      if step.Ok? {
        var (t, next) := step.value;
        ScanOutcome(ops, e, next, Some(ClassOf(t)));
        var rest := TokensFrom(ops, e, next, Some(ClassOf(t)));
        assert TokensFrom(ops, e, i, prev).tokens == [t] + rest.tokens;
        assert forall k | 1 <= k < |rest.tokens| + 1 :: ([t] + rest.tokens)[k] == rest.tokens[k - 1];
      }
    }
  }

  /** The outcome of a scan that has emitted `tokens` and continues with `rest`. */
  function After(tokens: seq<Token>, rest: LexOutcome): LexOutcome {
    LexOutcome(tokens + rest.tokens, rest.error)
  }

  lemma AfterPrepend(tokens: seq<Token>, t: Token, rest: LexOutcome)
    ensures After(tokens, Prepend(t, rest)) == After(tokens + [t], rest)
  {
    assert tokens + ([t] + rest.tokens) == tokens + [t] + rest.tokens;
  }

  // ---------------------------------------------------------------------------------------
  // Scanning a concatenation

  /** The class of the last token of `toks`, or `prev` when there is none. */
  function EndClass(prev: Option<TokenClass>, toks: seq<Token>): Option<TokenClass> {
    if toks == [] then prev else Some(ClassOf(toks[|toks| - 1]))
  }

  /** `a` and `b` meet at a token boundary: a number at the end of `a` does not run on into `b`. */
  predicate Boundary(a: string, b: string) {
    a != [] && b != [] && IsNumberChar(a[|a| - 1]) ==> !IsNumberChar(b[0])
  }

  lemma {:induction false} RunEndConcat(a: string, b: string, i: nat)
    requires i <= |a| && Boundary(a, b)
    requires i == |a| ==> b == [] || !IsNumberChar(b[0])
    ensures RunEnd(a + b, i) == RunEnd(a, i)
    decreases |a| - i
  {
    if i < |a| {
      assert (a + b)[i] == a[i];
      if IsNumberChar(a[i]) {
        RunEndConcat(a, b, i + 1);
      }
    } else if b != [] {
      assert (a + b)[i] == b[0];
    }
  }

  lemma {:induction false} RunEndShift(a: string, b: string, k: nat)
    requires k <= |b|
    ensures RunEnd(a + b, |a| + k) == |a| + RunEnd(b, k)
    decreases |b| - k
  {
    if k < |b| {
      assert (a + b)[|a| + k] == b[k];
      if IsNumberChar(b[k]) {
        RunEndShift(a, b, k + 1);
      }
    }
  }

  lemma ScanNumberConcat(a: string, b: string, i: nat)
    requires i < |a| && Boundary(a, b)
    ensures ScanNumber(a + b, i) == ScanNumber(a, i)
  {
    RunEndConcat(a, b, i);
    var end := RunEnd(a, i);
    assert (a + b)[i..end] == a[i..end];
  }

  lemma ScanNumberShift(a: string, b: string, k: nat)
    requires k < |b| && ScanNumber(b, k).Ok?
    ensures ScanNumber(a + b, |a| + k).Ok?
    ensures ScanNumber(a + b, |a| + k).value == (ScanNumber(b, k).value.0, |a| + ScanNumber(b, k).value.1)
  {
    RunEndShift(a, b, k);
    var end := RunEnd(b, k);
    assert (a + b)[|a| + k..|a| + end] == b[k..end];
  }

  /** A step inside `a` is the same step in `a + b`. */
  lemma ScanStepConcat(ops: map<string, Operands.Operator>, a: string, b: string, i: nat,
                       prev: Option<TokenClass>)
    requires i < |a| && Boundary(a, b)
    ensures ScanStep(ops, a + b, i, prev) == ScanStep(ops, a, i, prev)
  {
    assert (a + b)[i] == a[i];
    if IsDigit(a[i]) {
      ScanNumberConcat(a, b, i);
    }
  }

  /** A successful step at `k` in `b` is the same step at `|a| + k` in `a + b`. */
  lemma ScanStepShift(ops: map<string, Operands.Operator>, a: string, b: string, k: nat,
                      prev: Option<TokenClass>)
    requires k < |b| && ScanStep(ops, b, k, prev).Ok?
    ensures ScanStep(ops, a + b, |a| + k, prev)
         == Ok((ScanStep(ops, b, k, prev).value.0, |a| + ScanStep(ops, b, k, prev).value.1))
  {
    if IsDigit(b[k]) {
      NumberStepShift(ops, a, b, k, prev);
    } else {
      CharStepShift(ops, a, b, k, prev);
    }
  }

  lemma CharStepShift(ops: map<string, Operands.Operator>, a: string, b: string, k: nat,
                      prev: Option<TokenClass>)
    requires k < |b| && !IsDigit(b[k]) && ScanStep(ops, b, k, prev).Ok?
    ensures ScanStep(ops, a + b, |a| + k, prev)
         == Ok((ScanStep(ops, b, k, prev).value.0, |a| + ScanStep(ops, b, k, prev).value.1))
  {
    assert (a + b)[|a| + k] == b[k];
  }

  lemma NumberStepShift(ops: map<string, Operands.Operator>, a: string, b: string, k: nat,
                        prev: Option<TokenClass>)
    requires k < |b| && IsDigit(b[k]) && ScanStep(ops, b, k, prev).Ok?
    ensures ScanStep(ops, a + b, |a| + k, prev)
         == Ok((ScanStep(ops, b, k, prev).value.0, |a| + ScanStep(ops, b, k, prev).value.1))
  {
    NumberScanShift(ops, a, b, k, prev);
    NumberTokenShift(ScanNumber(b, k), ScanNumber(a + b, |a| + k), |a|);
  }

  lemma NumberScanShift(ops: map<string, Operands.Operator>, a: string, b: string, k: nat,
                        prev: Option<TokenClass>)
    requires k < |b| && IsDigit(b[k]) && ScanStep(ops, b, k, prev).Ok?
    ensures ScanStep(ops, b, k, prev) == NumberToken(ScanNumber(b, k)) && ScanNumber(b, k).Ok?
    ensures ScanStep(ops, a + b, |a| + k, prev) == NumberToken(ScanNumber(a + b, |a| + k))
    ensures ScanNumber(a + b, |a| + k) == Ok((ScanNumber(b, k).value.0, |a| + ScanNumber(b, k).value.1))
  {
    assert (a + b)[|a| + k] == b[k];
    ScanNumberShift(a, b, k);
  }

  lemma NumberTokenShift(r: Result<(real, nat)>, s: Result<(real, nat)>, n: nat)
    requires r.Ok? && s == Ok((r.value.0, n + r.value.1))
    ensures NumberToken(s) == Ok((NumberToken(r).value.0, n + NumberToken(r).value.1))
  {
  }

  /** Scanning `a + b` from inside `a` yields what scanning `a` alone yields, then continues
      into `b` with the class of the last token, provided the scan of `a` succeeds and a number
      does not straddle the join. */
  lemma {:induction false} TokensConcat(ops: map<string, Operands.Operator>, a: string, b: string, i: nat,
                                        prev: Option<TokenClass>)
    requires i <= |a| && Boundary(a, b)
    requires TokensFrom(ops, a, i, prev).error == None
    ensures var left := TokensFrom(ops, a, i, prev).tokens;
            TokensFrom(ops, a + b, i, prev) == After(left, TokensFrom(ops, a + b, |a|, EndClass(prev, left)))
    decreases |a| - i
  {
    var left := TokensFrom(ops, a, i, prev).tokens;
    if i == |a| {
      assert left == [];
    } else {
      var t, next := TokensStepConcat(ops, a, b, i, prev);
      var cls := Some(ClassOf(t));
      var rest := TokensFrom(ops, a, next, cls);
      TokensConcat(ops, a, b, next, cls);
      var tail := TokensFrom(ops, a + b, |a|, EndClass(cls, rest.tokens));
      AfterCons(t, rest.tokens, tail);
    }
  }

  /** The first step of both scans, as a token and the position after it. */
  lemma TokensStepConcat(ops: map<string, Operands.Operator>, a: string, b: string, i: nat,
                         prev: Option<TokenClass>) returns (t: Token, next: nat)
    requires i < |a| && Boundary(a, b)
    requires TokensFrom(ops, a, i, prev).error == None
    ensures i < next <= |a|
    ensures TokensFrom(ops, a, i, prev) == Prepend(t, TokensFrom(ops, a, next, Some(ClassOf(t))))
    ensures TokensFrom(ops, a + b, i, prev) == Prepend(t, TokensFrom(ops, a + b, next, Some(ClassOf(t))))
  {
    ScanStepConcat(ops, a, b, i, prev);
    t, next := ScanStep(ops, a, i, prev).value.0, ScanStep(ops, a, i, prev).value.1;
  }

  lemma AfterCons(t: Token, rest: seq<Token>, tail: LexOutcome)
    ensures Prepend(t, After(rest, tail)) == After([t] + rest, tail)
    ensures EndClass(Some(ClassOf(t)), rest) == EndClass(None, [t] + rest)
  {
    assert [t] + (rest + tail.tokens) == ([t] + rest) + tail.tokens;
  }

  /** Scanning the `b` part of `a + b` is scanning `b`, as long as no error is raised. */
  lemma {:induction false} TokensShift(ops: map<string, Operands.Operator>, a: string, b: string, k: nat,
                                       prev: Option<TokenClass>)
    requires k <= |b|
    requires TokensFrom(ops, b, k, prev).error == None
    ensures TokensFrom(ops, a + b, |a| + k, prev) == TokensFrom(ops, b, k, prev)
    decreases |b| - k
  {
    if k < |b| {
      assert ScanStep(ops, b, k, prev).Ok?;
      ScanStepShift(ops, a, b, k, prev);
      var t, next := ScanStep(ops, b, k, prev).value.0, ScanStep(ops, b, k, prev).value.1;
      TokensShift(ops, a, b, next, Some(ClassOf(t)));
      assert TokensFrom(ops, a + b, |a| + k, prev) == Prepend(t, TokensFrom(ops, a + b, |a| + next, Some(ClassOf(t))));
    }
  }

  /** The tokens of a concatenation at a token boundary are the tokens of its parts. */
  lemma TokensOfConcat(ops: map<string, Operands.Operator>, a: string, b: string, prev: Option<TokenClass>)
    requires Boundary(a, b)
    requires TokensFrom(ops, a, 0, prev).error == None
    requires TokensFrom(ops, b, 0, EndClass(prev, TokensFrom(ops, a, 0, prev).tokens)).error == None
    ensures var left := TokensFrom(ops, a, 0, prev).tokens;
            TokensFrom(ops, a + b, 0, prev) == After(left, TokensFrom(ops, b, 0, EndClass(prev, left)))
  {
    var left := TokensFrom(ops, a, 0, prev).tokens;
    TokensConcat(ops, a, b, 0, prev);
    TokensShift(ops, a, b, 0, EndClass(prev, left));
  }

  /** `Lexer.tokenize`: the scan loop over the normalized text, emitting tokens one by one;
      it stops at the first error. */
  method Tokenize(ops: map<string, Operands.Operator>, expression: string) returns (out: LexOutcome)
    ensures out == TokenStream(ops, expression)
  {
    var e := Normalize(expression);
    var tokens: seq<Token> := [];
    var i := 0;
    var prev: Option<TokenClass> := None;
    assert After(tokens, TokensFrom(ops, e, i, prev)) == TokenStream(ops, expression);
    while i < |e|
      invariant i <= |e|
      invariant After(tokens, TokensFrom(ops, e, i, prev)) == TokenStream(ops, expression)
      decreases |e| - i
    {
      var c := e[i];
      ghost var rest := TokensFrom(ops, e, i, prev);
      if c == '-' {
        AfterPrepend(tokens, Symbol(MinusFor(prev)), TokensFrom(ops, e, i + 1, Some(OperatorClass)));
        tokens := tokens + [Symbol(MinusFor(prev))];
        prev := Some(OperatorClass);
        i := i + 1;
        continue;
      }
      if IsDigit(c) {
        var scanned := ReadNumber(e, i);
        if scanned.Err? {
          assert rest == LexOutcome([], Some(scanned.error));
          assert tokens + [] == tokens;
          return LexOutcome(tokens, Some(scanned.error));
        }
        AfterPrepend(tokens, Number(scanned.value.0), TokensFrom(ops, e, scanned.value.1, Some(NumberClass)));
        tokens := tokens + [Number(scanned.value.0)];
        prev := Some(NumberClass);
        i := scanned.value.1;
        continue;
      }
      if [c] in ops || c == '(' || c == ')' {
        if c == '(' {
          AfterPrepend(tokens, LeftParen, TokensFrom(ops, e, i + 1, Some(LParenClass)));
          tokens := tokens + [LeftParen];
          prev := Some(LParenClass);
        } else if c == ')' {
          AfterPrepend(tokens, RightParen, TokensFrom(ops, e, i + 1, Some(RParenClass)));
          tokens := tokens + [RightParen];
          prev := Some(RParenClass);
        } else {
          AfterPrepend(tokens, Symbol([c]), TokensFrom(ops, e, i + 1, Some(OperatorClass)));
          tokens := tokens + [Symbol([c])];
          prev := Some(OperatorClass);
        }
        i := i + 1;
        continue;
      }
      assert rest == LexOutcome([], Some(IllegalCharacter(c, i)));
      assert tokens + [] == tokens;
      return LexOutcome(tokens, Some(IllegalCharacter(c, i)));
    }
    assert tokens + [] == tokens;
    out := LexOutcome(tokens, None);
  }

  // ---------------------------------------------------------------------------------------
  // Properties of the token stream

  /** A token the lexer emits for a `-`. */
  predicate IsMinus(t: Token) {
    t == Symbol(BinaryMinus) || t == Symbol(UnaryMinus)
  }

  /** The class of the token before position k, `prev` for the first one. */
  function ClassBefore(prev: Option<TokenClass>, toks: seq<Token>, k: nat): Option<TokenClass>
    requires k <= |toks|
  {
    if k == 0 then prev else Some(ClassOf(toks[k - 1]))
  }

  /** Every minus token is the one `MinusFor` picks for the class of the token before it. */
  predicate MinusesFollowClass(prev: Option<TokenClass>, toks: seq<Token>) {
    forall k | 0 <= k < |toks| && IsMinus(toks[k]) :: toks[k] == Symbol(MinusFor(ClassBefore(prev, toks, k)))
  }

  lemma {:induction false} MinusFollowsClass(ops: map<string, Operands.Operator>, e: string, i: nat,
                                             prev: Option<TokenClass>)
    requires i <= |e|
    ensures MinusesFollowClass(prev, TokensFrom(ops, e, i, prev).tokens)
    decreases |e| - i
  {
    if i < |e| && ScanStep(ops, e, i, prev).Ok? {
      var (t, next) := ScanStep(ops, e, i, prev).value;
      var toks := TokensFrom(ops, e, i, prev).tokens;
      var rest := TokensFrom(ops, e, next, Some(ClassOf(t))).tokens;
      assert toks == [t] + rest;
      MinusFollowsClass(ops, e, next, Some(ClassOf(t)));
      MinusStep(ops, e, i, prev);
      forall k | 0 <= k < |toks| && IsMinus(toks[k])
        ensures toks[k] == Symbol(MinusFor(ClassBefore(prev, toks, k)))
      {
        if k > 0 {
          assert toks[k] == rest[k - 1];
          assert ClassBefore(Some(ClassOf(t)), rest, k - 1) == ClassBefore(prev, toks, k);
        }
      }
    }
  }

  /** A step yields a minus only at a `-`, and then the one the previous class calls for. */
  lemma MinusStep(ops: map<string, Operands.Operator>, e: string, i: nat, prev: Option<TokenClass>)
    requires i < |e| && ScanStep(ops, e, i, prev).Ok?
    ensures IsMinus(ScanStep(ops, e, i, prev).value.0) ==> ScanStep(ops, e, i, prev).value.0 == Symbol(MinusFor(prev))
  {
    var c := e[i];
    if c != '-' && !IsDigit(c) && c != '(' && c != ')' {
      assert |[c]| == 1;
    }
  }

  /** A `-` becomes the binary minus exactly when a number or a `)` comes right before it; at
      the start, after another minus, after an operator or after `(` it is the unary minus. */
  lemma MinusDisambiguation(ops: map<string, Operands.Operator>, s: string)
    ensures var toks := TokenStream(ops, s).tokens;
            forall k | 0 <= k < |toks| && IsMinus(toks[k]) ::
              (toks[k] == Symbol(BinaryMinus) <==> k > 0 && (toks[k - 1].Number? || toks[k - 1].RightParen?))
  {
    MinusFollowsClass(ops, Normalize(s), 0, None);
    var toks := TokenStream(ops, s).tokens;
    forall k | 0 <= k < |toks| && IsMinus(toks[k])
      ensures toks[k] == Symbol(BinaryMinus) <==> k > 0 && (toks[k - 1].Number? || toks[k - 1].RightParen?)
    {
      assert MinusesFollowClass(None, toks);
      assert toks[k] == Symbol(MinusFor(ClassBefore(None, toks, k)));
      assert BinaryMinus != UnaryMinus by {
        assert BinaryMinus[0] == 'b' && UnaryMinus[0] == 'u';
      }
    }
  }

  /** Cutting the text at or after a run of digits and dots leaves the run where it was. */
  lemma {:induction false} RunEndPrefix(e: string, i: nat, n: nat)
    requires i <= n <= |e| && RunEnd(e, i) <= n
    ensures RunEnd(e[..n], i) == RunEnd(e, i)
    decreases n - i
  {
    if i < n && IsNumberChar(e[i]) {
      RunEndPrefix(e, i + 1, n);
    }
  }

  /** An illegal character stops the scan: it is a character that is not `-`, a digit, a
      registered symbol or a parenthesis, and the tokens yielded before the error are exactly
      those of the text before it, which scans without error. */
  lemma {:induction false} IllegalCharacterPrefix(ops: map<string, Operands.Operator>, e: string, i: nat,
                                                  prev: Option<TokenClass>, c: char, j: nat)
    requires i <= |e|
    requires TokensFrom(ops, e, i, prev).error == Some(IllegalCharacter(c, j))
    ensures i <= j < |e| && e[j] == c && !Accepted(ops, c)
    ensures TokensFrom(ops, e[..j], i, prev) == LexOutcome(TokensFrom(ops, e, i, prev).tokens, None)
    decreases |e| - i
  {
    if i < |e| && ScanStep(ops, e, i, prev).Ok? {
      var (t, next) := ScanStep(ops, e, i, prev).value;
      IllegalCharacterPrefix(ops, e, next, Some(ClassOf(t)), c, j);
      ScanStepPrefix(ops, e, i, prev, j);
    }
  }

  /** A step that ends at or before `n` is the same step in `e[..n]`. */
  lemma ScanStepPrefix(ops: map<string, Operands.Operator>, e: string, i: nat, prev: Option<TokenClass>,
                       n: nat)
    requires i < n <= |e| && ScanStep(ops, e, i, prev).Ok? && ScanStep(ops, e, i, prev).value.1 <= n
    ensures ScanStep(ops, e[..n], i, prev) == ScanStep(ops, e, i, prev)
  {
    assert e[..n][i] == e[i];
    if IsDigit(e[i]) {
      assert ScanNumber(e, i).Ok?;
      NumberStepPrefix(ops, e, i, prev, n);
    }
  }

  lemma NumberStepPrefix(ops: map<string, Operands.Operator>, e: string, i: nat, prev: Option<TokenClass>,
                         n: nat)
    requires i < n <= |e| && IsDigit(e[i]) && ScanNumber(e, i).Ok? && ScanNumber(e, i).value.1 <= n
    ensures ScanStep(ops, e, i, prev) == NumberToken(ScanNumber(e, i))
    ensures ScanStep(ops, e[..n], i, prev) == NumberToken(ScanNumber(e[..n], i))
    ensures ScanNumber(e[..n], i) == ScanNumber(e, i)
  {
    assert e[..n][i] == e[i];
    RunEndPrefix(e, i, n);
    var end := RunEnd(e, i);
    assert e[..n][i..end] == e[i..end];
  }

  /** `tokenize` on a text with an illegal character: the error names the first character
      of the normalized text that no branch accepts, and the tokens before it are those of
      the text up to that character. */
  lemma IllegalCharacterReported(ops: map<string, Operands.Operator>, s: string, c: char, j: nat)
    requires TokenStream(ops, s).error == Some(IllegalCharacter(c, j))
    ensures j < |Normalize(s)| && Normalize(s)[j] == c && !Accepted(ops, c)
    ensures TokensFrom(ops, Normalize(s)[..j], 0, None) == LexOutcome(TokenStream(ops, s).tokens, None)
  {
    IllegalCharacterPrefix(ops, Normalize(s), 0, None, c, j);
  }

  /** The converse: once the text before position `j` scans without error, a character there
      that no branch accepts is reported, after exactly the tokens of that text. The one such
      character that can continue a number is `.`, and `Boundary` keeps it out of a digit run
      ending just before it (there it belongs to the number); any other `.` is reported. */
  lemma IllegalCharacterRaised(ops: map<string, Operands.Operator>, s: string, j: nat)
    requires j < |Normalize(s)| && !Accepted(ops, Normalize(s)[j])
    requires Boundary(Normalize(s)[..j], Normalize(s)[j..])
    requires TokensFrom(ops, Normalize(s)[..j], 0, None).error == None
    ensures TokenStream(ops, s).error == Some(IllegalCharacter(Normalize(s)[j], j))
    ensures TokenStream(ops, s).tokens == TokensFrom(ops, Normalize(s)[..j], 0, None).tokens
  {
    var e := Normalize(s);
    var a, b := e[..j], e[j..];
    assert a + b == e;
    assert b[0] == e[j];
    TokensConcat(ops, a, b, 0, None);
    var left := TokensFrom(ops, a, 0, None).tokens;
    assert ScanStep(ops, e, j, EndClass(None, left)) == Err(IllegalCharacter(e[j], j));
  }

  /** A `.` that opens the normalized text, as in `.5`, is reported at index 0 when no
      operator is spelled `.`. */
  lemma LeadingDotRaised(ops: map<string, Operands.Operator>, s: string)
    requires Normalize(s) != [] && Normalize(s)[0] == '.' && "." !in ops
    ensures TokenStream(ops, s).error == Some(IllegalCharacter('.', 0))
    ensures TokenStream(ops, s).tokens == []
  {
    var e := Normalize(s);
    assert e[..0] == [];
    IllegalCharacterRaised(ops, s, 0);
  }

  /** Positions from i on where a run of digits and dots begins. */
  function RunStarts(e: string, i: nat): nat
    requires i <= |e|
    decreases |e| - i
  {
    if i == |e| then 0
    else (if IsNumberChar(e[i]) && (i == 0 || !IsNumberChar(e[i - 1])) then 1 else 0) + RunStarts(e, i + 1)
  }

  /** Positions from i on that hold neither a digit nor a dot. */
  function OtherChars(e: string, i: nat): nat
    requires i <= |e|
    decreases |e| - i
  {
    if i == |e| then 0 else (if IsNumberChar(e[i]) then 0 else 1) + OtherChars(e, i + 1)
  }

  function NumberTokens(toks: seq<Token>): nat {
    if toks == [] then 0 else (if toks[0].Number? then 1 else 0) + NumberTokens(toks[1..])
  }

  /** Inside a run, the counts do not change until its end. */
  lemma {:induction false} InsideRun(e: string, k: nat, end: nat)
    requires 0 < k <= end <= |e|
    requires forall m | k - 1 <= m < end :: IsNumberChar(e[m])
    ensures RunStarts(e, k) == RunStarts(e, end)
    ensures OtherChars(e, k) == OtherChars(e, end)
    decreases end - k
  {
    if k < end {
      InsideRun(e, k + 1, end);
    }
  }

  lemma {:induction false} CountsFrom(ops: map<string, Operands.Operator>, e: string, i: nat,
                                      prev: Option<TokenClass>)
    requires "." !in ops
    requires i <= |e|
    requires i < |e| && IsNumberChar(e[i]) && i > 0 ==> !IsNumberChar(e[i - 1])
    requires TokensFrom(ops, e, i, prev).error == None
    ensures NumberTokens(TokensFrom(ops, e, i, prev).tokens) == RunStarts(e, i)
    ensures |TokensFrom(ops, e, i, prev).tokens| == RunStarts(e, i) + OtherChars(e, i)
    decreases |e| - i
  {
    if i < |e| {
      var (t, next) := ScanStep(ops, e, i, prev).value;
      CountStep(ops, e, i, prev);
      var toks := TokensFrom(ops, e, i, prev).tokens;
      var rest := TokensFrom(ops, e, next, Some(ClassOf(t))).tokens;
      assert toks == [t] + rest;
      assert toks[1..] == rest;
      CountsFrom(ops, e, next, Some(ClassOf(t)));
    }
  }

  /** One step consumes one run as one number token, or one other character as one token. */
  lemma CountStep(ops: map<string, Operands.Operator>, e: string, i: nat, prev: Option<TokenClass>)
    requires "." !in ops
    requires i < |e| && ScanStep(ops, e, i, prev).Ok?
    requires IsNumberChar(e[i]) && i > 0 ==> !IsNumberChar(e[i - 1])
    ensures var next := ScanStep(ops, e, i, prev).value.1;
            next < |e| && IsNumberChar(e[next]) ==> !IsNumberChar(e[next - 1])
    ensures var (t, next) := (ScanStep(ops, e, i, prev).value.0, ScanStep(ops, e, i, prev).value.1);
            RunStarts(e, i) == (if t.Number? then 1 else 0) + RunStarts(e, next) &&
            OtherChars(e, i) == (if t.Number? then 0 else 1) + OtherChars(e, next)
  {
    var c := e[i];
    if IsDigit(c) {
      assert ScanNumber(e, i).Ok?;
      var j := ScanNumber(e, i).value.1;
      InsideRun(e, i + 1, j);
    } else {
      assert [c] != "." ==> c != '.';
    }
  }

  /** A text the lexer accepts is consumed entirely: each run of digits and dots yields one
      number token, and every other character yields one token of its own. */
  lemma TokenCounts(ops: map<string, Operands.Operator>, s: string)
    requires "." !in ops
    requires TokenStream(ops, s).error == None
    ensures NumberTokens(TokenStream(ops, s).tokens) == RunStarts(Normalize(s), 0)
    ensures |TokenStream(ops, s).tokens| == RunStarts(Normalize(s), 0) + OtherChars(Normalize(s), 0)
  {
    CountsFrom(ops, Normalize(s), 0, None);
  }
}
