/** The operators of the calculator and the registry that maps symbols to them
    (operands.py, with the direction and placement fields that parser.py and calculator.py use). */
module Operands {
  import opened Errors
  import opened Chars

  /** Associativity, `"left"` / `"right"` in the source. */
  datatype Direction = Left | Right

  /** Placement rule, `"left_of_value"` / `"between_values"` / `"right_of_value"`. */
  datatype Placement = LeftOfValue | BetweenValues | RightOfValue

  datatype Arity = Unary | Binary

  /** Which `calculate` an operator runs: one constructor per operator class. */
  datatype Kind =
    | AddOp | SubtractOp | MultiplyOp | DivideOp | PowerOp | ModuloOp
    | MaximumOp | MinimumOp | AverageOp
    | NegateOp | FactorialOp | DigitSumOp | UnaryMinusOp
  {
    /** Whether the class derives from `OperatorBinary` or from `OperatorUnary`. */
    function Arity(): Arity {
      match this
      case NegateOp | FactorialOp | DigitSumOp | UnaryMinusOp => Unary
      case _ => Binary
    }
  }

  /** An operator descriptor: its symbol, its behaviour, its precedence ("intensity"),
      its direction and its placement rule. */
  datatype Operator = Operator(symbol: string, kind: Kind, intensity: int,
                               direction: Direction, placement: Placement)

  /** Facilities of the Python runtime that the model does not reimplement:
      `math.pow` (None when it raises) and `str` of a float. */
  datatype Runtime = Runtime(pow: (real, real) -> Option<real>, str: real -> string)

  predicate IsInteger(x: real) {
    x == x.Floor as real
  }

  // ---------------------------------------------------------------------------------------
  // The `calculate` methods of the binary operators

  function Add(a: real, b: real): (r: real)
    ensures r - b == a
  {
    a + b
  }

  function Subtract(a: real, b: real): (r: real)
    ensures Add(r, b) == a
  {
    a - b
  }

  function Multiply(a: real, b: real): (r: real)
    ensures b != 0.0 ==> r / b == a
  {
    a * b
  }

  /** Division refuses a zero divisor and is otherwise the exact quotient. */
  function Divide(a: real, b: real): (r: Result<real>)
    ensures r.Err? <==> b == 0.0
    ensures r.Err? ==> r.error == DivisionByZero
    ensures r.Ok? ==> r.value * b == a
  {
    if b == 0.0 then Err(DivisionByZero) else Ok(a / b)
  }

  /** `math.pow`, left to the runtime. */
  function Power(rt: Runtime, a: real, b: real): (r: Result<real>)
    ensures r.Ok? <==> rt.pow(a, b).Some?
    ensures r.Ok? ==> r.value == rt.pow(a, b).value
    ensures r.Err? ==> r.error == PowerFailure
  {
    match rt.pow(a, b)
    case None => Err(PowerFailure)
    case Some(v) => Ok(v)
  }

  /** Python's float `%`: the remainder of floored division, which takes the divisor's sign;
      a zero divisor raises ZeroDivisionError. The remainder differs from `a` by a whole
      multiple of `b`, and `r / b` lies in [0, 1): the remainder has the sign of `b` (or is
      zero) and is smaller than `b` in magnitude. */
  function Modulo(a: real, b: real): (r: Result<real>)
    ensures r.Err? <==> b == 0.0
    ensures r.Err? ==> r.error == ModuloByZero
    ensures r.Ok? ==> IsInteger((a - r.value) / b)
    ensures r.Ok? ==> 0.0 <= r.value / b < 1.0
  {
    if b == 0.0 then Err(ModuloByZero)
    else
      FlooredRemainder(a, b);
      Ok(a - b * (a / b).Floor as real)
  }

  /** The remainder a - b * floor(a / b): a minus it is floor(a / b) times b, and divided
      by b it is the fractional part of a / b. */
  lemma FlooredRemainder(a: real, b: real)
    requires b != 0.0
    ensures (a - (a - b * (a / b).Floor as real)) / b == (a / b).Floor as real
    ensures 0.0 <= (a - b * (a / b).Floor as real) / b < 1.0
  {
    var q := a / b;
    var k := q.Floor as real;
    assert k <= q < k + 1.0;
    var f := FractionOf(a, b, k);
    assert f == q - k;
    assert f == (a - b * (a / b).Floor as real) / b;
    assert 0.0 <= (a - b * (a / b).Floor as real) / b;
    assert (a - b * (a / b).Floor as real) / b < 1.0;
    assert a - (a - b * k) == b * k;
    CancelDivisor(b, k);
  }

  /** (a - b * k) / b, which is a / b - k. */
  lemma FractionOf(a: real, b: real, k: real) returns (f: real)
    requires b != 0.0
    ensures f == (a - b * k) / b
    ensures f == a / b - k
  {
    CancelDivisor(b, k);
    f := (a - b * k) / b;
    assert f == a / b - (b * k) / b;
  }

  lemma CancelDivisor(b: real, k: real)
    requires b != 0.0
    ensures (b * k) / b == k
  {
  }

  function Maximum(a: real, b: real): (r: real)
    ensures r == a || r == b
    ensures a <= r && b <= r
  {
    if b > a then b else a
  }

  function Minimum(a: real, b: real): (r: real)
    ensures r == a || r == b
    ensures r <= a && r <= b
  {
    if b < a then b else a
  }

  function Average(a: real, b: real): (r: real)
    ensures Minimum(a, b) <= r <= Maximum(a, b)
    ensures r - a == b - r
  {
    (a + b) / 2.0
  }

  // ---------------------------------------------------------------------------------------
  // The `calculate` methods of the unary operators

  function Negate(x: real): (r: real)
    ensures r + x == 0.0
  {
    -x
  }

  /** n! on naturals (`math.factorial`). */
  function Fact(n: nat): (r: nat)
    ensures r >= 1
  {
    if n == 0 then 1 else n * Fact(n - 1)
  }

  /** Factorial refuses a negative or fractional operand. */
  function Factorial(x: real): (r: Result<real>)
    ensures r.Err? <==> x < 0.0 || !IsInteger(x)
    ensures r.Err? ==> r.error == FactorialDomain
    ensures r.Ok? ==> r.value >= 1.0
    ensures x == 0.0 ==> r == Ok(1.0)
  {
    if x < 0.0 || !IsInteger(x) then Err(FactorialDomain)
    else Ok(Fact(x.Floor) as real)
  }

  /** Sum of the decimal digits of a text; every other character (the `.`) adds nothing. */
  function DigitTotal(s: string): (r: nat)
    ensures r <= 9 * |s|
  {
    if s == [] then 0 else DigitTotal(s[..|s| - 1]) + DigitValue(s[|s| - 1])
  }

  /** A text without digits (`"."`, `"-"`, `"e"`, ...) totals 0. */
  lemma {:induction false} NoDigitsTotalZero(s: string)
    requires forall k :: 0 <= k < |s| ==> !IsDigit(s[k])
    ensures DigitTotal(s) == 0
  {
    if s != [] {
      NoDigitsTotalZero(s[..|s| - 1]);
    }
  }

  /** `DigitSum.calculate`: the digits of `str(x)` added up in a loop. */
  method DigitSum(rt: Runtime, x: real) returns (r: real)
    ensures r == DigitTotal(rt.str(x)) as real
  {
    var text := rt.str(x);
    var total := 0;
    for i := 0 to |text|
      invariant total == DigitTotal(text[..i])
    {
      assert text[..i + 1][..i] == text[..i];
      if IsDigit(text[i]) {
        total := total + DigitValue(text[i]);
      }
    }
    assert text[..|text|] == text;
    r := total as real;
  }

  /** The `calculate` of a binary operator of the given kind on (left, right). */
  function ApplyBinary(rt: Runtime, kind: Kind, left: real, right: real): (r: Result<real>)
    requires kind.Arity() == Binary
    ensures r.Err? ==> r.error.IsDomainError()
    ensures r.Err? <==> (kind == DivideOp && right == 0.0) || (kind == ModuloOp && right == 0.0) ||
                        (kind == PowerOp && rt.pow(left, right).None?)
  {
    match kind
    case AddOp => Ok(Add(left, right))
    case SubtractOp => Ok(Subtract(left, right))
    case MultiplyOp => Ok(Multiply(left, right))
    case DivideOp => Divide(left, right)
    case PowerOp => Power(rt, left, right)
    case ModuloOp => Modulo(left, right)
    case MaximumOp => Ok(Maximum(left, right))
    case MinimumOp => Ok(Minimum(left, right))
    case AverageOp => Ok(Average(left, right))
  }

  /** The `calculate` of a unary operator of the given kind. The `UnaryMinus` class is
      taken to negate its operand, as `Negate` does. */
  function ApplyUnary(rt: Runtime, kind: Kind, x: real): (r: Result<real>)
    requires kind.Arity() == Unary
    ensures r.Err? ==> r.error.IsDomainError()
    ensures r.Err? <==> kind == FactorialOp && (x < 0.0 || !IsInteger(x))
  {
    match kind
    case NegateOp => Ok(Negate(x))
    case UnaryMinusOp => Ok(Negate(x))
    case FactorialOp => Factorial(x)
    case DigitSumOp => Ok(DigitTotal(rt.str(x)) as real)
  }

  // ---------------------------------------------------------------------------------------
  // Lemmas about the operators

  lemma NegateInvolution(x: real)
    ensures Negate(Negate(x)) == x
  {
  }

  /** The recurrence of n!: for a whole x >= 1, x! = x * (x - 1)!. */
  lemma FactorialStep(x: real)
    requires x >= 1.0 && IsInteger(x)
    ensures Factorial(x).Ok? && Factorial(x - 1.0).Ok?
    ensures Factorial(x).value == x * Factorial(x - 1.0).value
  {
    var n := x.Floor;
    assert x == n as real;
    assert x - 1.0 == (n - 1) as real;
    assert (x - 1.0).Floor == n - 1;
    assert Fact(n) == n * Fact(n - 1);
  }

  lemma {:induction false} DigitTotalConcat(a: string, b: string)
    ensures DigitTotal(a + b) == DigitTotal(a) + DigitTotal(b)
    decreases |b|
  {
    if b == [] {
      assert a + b == a;
    } else {
      var b' := b[..|b| - 1];
      assert (a + b)[..|a + b| - 1] == a + b';
      DigitTotalConcat(a, b');
    }
  }

  lemma DigitTotalExample()
    ensures DigitTotal("123.123") == 12
  {
    assert "123.123"[..6] == "123.12";
    assert "123.12"[..5] == "123.1";
    assert "123.1"[..4] == "123.";
    assert "123."[..3] == "123";
    assert "123"[..2] == "12";
    assert "12"[..1] == "1";
    assert "1"[..0] == "";
  }

  // ---------------------------------------------------------------------------------------
  // The registry

  /** `get_operator` on a registry's map: the operator stored under the symbol, or the
      ValueError for an absent symbol. */
  function Lookup(ops: map<string, Operator>, symbol: string): (r: Result<Operator>)
    ensures r.Ok? <==> symbol in ops
    ensures r.Ok? ==> r.value == ops[symbol]
    ensures r.Err? ==> r.error == UnknownOperator(symbol)
  {
    if symbol !in ops then Err(UnknownOperator(symbol)) else Ok(ops[symbol])
  }

  /** Every entry is stored under its own symbol. */
  ghost predicate KeyedBySymbol(ops: map<string, Operator>) {
    forall s | s in ops :: ops[s].symbol == s
  }

  /** The map after a sequence of `register` calls, in order. */
  function RegisterAll(ops: map<string, Operator>, regs: seq<Operator>): map<string, Operator>
    decreases |regs|
  {
    if regs == [] then ops
    else
      var last := regs[|regs| - 1];
      RegisterAll(ops, regs[..|regs| - 1])[last.symbol := last]
  }

  /** Last write wins: after a sequence of registrations a symbol is present iff it was
      present before or some registration used it, and it then maps to the most recent
      operator registered under it (or to its old entry when none was). */
  lemma {:induction false} LastWriteWins(ops: map<string, Operator>, regs: seq<Operator>, s: string)
    ensures s in RegisterAll(ops, regs) <==> s in ops || exists i | 0 <= i < |regs| :: regs[i].symbol == s
    ensures forall i | 0 <= i < |regs| && regs[i].symbol == s ::
              (forall j | i < j < |regs| :: regs[j].symbol != s) ==> RegisterAll(ops, regs)[s] == regs[i]
    ensures (forall i | 0 <= i < |regs| :: regs[i].symbol != s) && s in ops ==>
              RegisterAll(ops, regs)[s] == ops[s]
    decreases |regs|
  {
    if regs != [] {
      var n := |regs| - 1;
      var init := regs[..n];
      LastWriteWins(ops, init, s);
      assert forall i | 0 <= i < n :: init[i] == regs[i];
      if regs[n].symbol != s && s in RegisterAll(ops, init) {
        assert RegisterAll(ops, regs)[s] == RegisterAll(ops, init)[s];
      }
    }
  }

  lemma {:induction false} RegisterAllKeyed(ops: map<string, Operator>, regs: seq<Operator>)
    requires KeyedBySymbol(ops)
    ensures KeyedBySymbol(RegisterAll(ops, regs))
    decreases |regs|
  {
    if regs != [] {
      RegisterAllKeyed(ops, regs[..|regs| - 1]);
    }
  }

  /** `OperatorRegistry`: a dictionary from symbol to operator that `register` updates in place. */
  class OperatorRegistry {
    var operators: map<string, Operator>

    ghost predicate Valid()
      reads this
    {
      KeyedBySymbol(operators)
    }

    constructor ()
      ensures Valid() && operators == map[]
    {
      operators := map[];
    }

    /** Stores `op` under its symbol, replacing any earlier operator with that symbol. */
    method Register(op: Operator)
      requires Valid()
      modifies this
      ensures Valid()
      ensures operators == old(operators)[op.symbol := op]
    {
      operators := operators[op.symbol := op];
    }

    function GetOperator(symbol: string): (r: Result<Operator>)
      requires Valid()
      reads this
      ensures r.Ok? <==> symbol in operators
      ensures r.Ok? ==> r.value.symbol == symbol && r.value == operators[symbol]
      ensures r.Err? ==> r.error == UnknownOperator(symbol)
    {
      Lookup(operators, symbol)
    }
  }
}
