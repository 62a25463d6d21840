/** The calculator (calculator.py): the concrete operator table and the composition
    tokenize, parse, solve. */
module Calculator {
  import opened Errors
  import opened Operands
  import opened Lexer
  import Parser
  import Solver

  /** `SIGN_MINUS`: registered, though the lexer never emits it. */
  const SignMinus: string := "s-"

  /** A binary operator of the table: left-facing, placed between its values. */
  function Infix(symbol: string, kind: Kind, intensity: int): Operator {
    Operator(symbol, kind, intensity, Left, BetweenValues)
  }

  /** A unary operator of the table with its placement rule. */
  function Affix(symbol: string, kind: Kind, intensity: int, placement: Placement): Operator {
    Operator(symbol, kind, intensity, Left, placement)
  }

  /** The registry `setup_registry` builds, written out; every entry is stored under its own
      symbol. */
  function Table(): (r: map<string, Operator>)
    ensures KeyedBySymbol(r)
  {
    map[
      "+" := Infix("+", AddOp, 1),
      BinaryMinus := Infix(BinaryMinus, SubtractOp, 1),
      "*" := Infix("*", MultiplyOp, 2),
      "/" := Infix("/", DivideOp, 2),
      UnaryMinus := Affix(UnaryMinus, UnaryMinusOp, 3, RightOfValue),
      "^" := Infix("^", PowerOp, 4),
      "%" := Infix("%", ModuloOp, 5),
      "$" := Infix("$", MaximumOp, 6),
      "&" := Infix("&", MinimumOp, 6),
      "@" := Infix("@", AverageOp, 6),
      "!" := Affix("!", FactorialOp, 7, RightOfValue),
      "~" := Affix("~", NegateOp, 7, LeftOfValue),
      "#" := Affix("#", DigitSumOp, 7, RightOfValue),
      SignMinus := Affix(SignMinus, UnaryMinusOp, 8, LeftOfValue)
    ]
  }

  /** `setup_registry`: a fresh registry filled by one `register` call per operator. */
  method SetupRegistry() returns (registry: OperatorRegistry)
    ensures fresh(registry) && registry.Valid()
    ensures registry.operators == Table()
  {
    registry := new OperatorRegistry();
    registry.Register(Infix("+", AddOp, 1));
    registry.Register(Infix(BinaryMinus, SubtractOp, 1));
    registry.Register(Infix("*", MultiplyOp, 2));
    registry.Register(Infix("/", DivideOp, 2));
    registry.Register(Affix(UnaryMinus, UnaryMinusOp, 3, RightOfValue));
    registry.Register(Infix("^", PowerOp, 4));
    registry.Register(Infix("%", ModuloOp, 5));
    registry.Register(Infix("$", MaximumOp, 6));
    registry.Register(Infix("&", MinimumOp, 6));
    registry.Register(Infix("@", AverageOp, 6));
    registry.Register(Affix("!", FactorialOp, 7, RightOfValue));
    registry.Register(Affix("~", NegateOp, 7, LeftOfValue));
    registry.Register(Affix("#", DigitSumOp, 7, RightOfValue));
    registry.Register(Affix(SignMinus, UnaryMinusOp, 8, LeftOfValue));
  }

  /** `calculate(user_input)`: the postfix queue of the token stream, solved; the first error
      of any stage is the result, unchanged. A lexer failure always fails the calculation, and
      a number or character error in the result is exactly the one the lexer raised. */
  function Evaluate(ops: map<string, Operator>, rt: Runtime, input: string): (r: Result<real>)
    ensures TokenStream(ops, input).error.Some? ==> r.Err?
    ensures r.Err? && (r.error.InvalidNumber? || r.error.IllegalCharacter?) ==>
              TokenStream(ops, input).error == Some(r.error)
  {
    match Parser.PostfixOf(ops, TokenStream(ops, input))
    case Err(e) => Err(e)
    case Ok(queue) => Solver.ValueOf(ops, rt, queue)
  }

  /** `Calculator`: the registry, and the parser whose queue and stack `calculate` reuses. */
  class Calculator {
    const registry: OperatorRegistry
    const parser: Parser.Parser
    const rt: Runtime

    ghost predicate Valid()
      reads this, registry
    {
      registry.Valid() && parser.operators == registry.operators
    }

    constructor (rt: Runtime)
      ensures Valid() && registry.operators == Table() && this.rt == rt
      ensures fresh(registry) && fresh(parser)
    {
      var table := SetupRegistry();
      var p := new Parser.Parser(table.operators);
      registry := table;
      parser := p;
      this.rt := rt;
    }

    method Calculate(input: string) returns (r: Result<real>)
      requires Valid()
      modifies parser
      ensures Valid()
      ensures r == Evaluate(registry.operators, rt, input)
    {
      var tokens := Tokenize(registry.operators, input);
      var postfix := parser.Parse(tokens);
      if postfix.Err? {
        return Err(postfix.error);
      }
      r := Solver.Solve(registry.operators, rt, postfix.value);
    }
  }

  // ---------------------------------------------------------------------------------------
  // The table

  /** The three roles of the minus sign have three registry entries. */
  lemma MinusSymbolsDistinct()
    ensures BinaryMinus != UnaryMinus && UnaryMinus != SignMinus && BinaryMinus != SignMinus
    ensures Table()[BinaryMinus].kind == SubtractOp
    ensures Table()[UnaryMinus].kind == UnaryMinusOp && Table()[UnaryMinus].placement == RightOfValue
    ensures Table()[SignMinus].kind == UnaryMinusOp && Table()[SignMinus].placement == LeftOfValue
  {
    assert BinaryMinus[0] == 'b' && UnaryMinus[0] == 'u' && SignMinus[0] == 's';
  }

  /** Intensities rise from the additive operators to the sign minus. */
  lemma IntensityOrder()
    ensures Table()["+"].intensity == Table()[BinaryMinus].intensity == 1
    ensures Table()["*"].intensity == Table()["/"].intensity == 2
    ensures Table()[UnaryMinus].intensity == 3
    ensures Table()["^"].intensity == 4
    ensures Table()["%"].intensity == 5
    ensures Table()["$"].intensity == Table()["&"].intensity == Table()["@"].intensity == 6
    ensures Table()["!"].intensity == Table()["~"].intensity == Table()["#"].intensity == 7
    ensures Table()[SignMinus].intensity == 8
  {
  }

  /** No digit, dot or parenthesis is a key of the table, so the lexer's reading of those
      characters never clashes with an operator. */
  lemma NoOperatorClash(c: char)
    requires IsNumberChar(c) || c == '(' || c == ')'
    ensures [c] !in Table()
  {
  }

  // ---------------------------------------------------------------------------------------
  // The composition

  /** Input made only of spaces and tabs normalizes to nothing, yields no tokens, and so
      reaches the solver as an empty queue. */
  lemma BlankInput(ops: map<string, Operator>, rt: Runtime, input: string)
    requires forall i | 0 <= i < |input| :: IsBlank(input[i])
    ensures Normalize(input) == []
    ensures TokenStream(ops, input) == LexOutcome([], None)
    ensures Evaluate(ops, rt, input) == Err(EmptyQueue)
  {
    NormalizeIsFilter(input);
    NonBlankOfBlank(input);
    assert Parser.Process(ops, Parser.Fresh, []) == Ok(Parser.Fresh);
  }

  /** Normalizing first changes nothing: the composition already deletes blanks. */
  lemma EvaluateNormalized(ops: map<string, Operator>, rt: Runtime, input: string)
    ensures Evaluate(ops, rt, Normalize(input)) == Evaluate(ops, rt, input)
  {
    NormalizeIdempotent(input);
  }
}
