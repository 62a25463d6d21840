# OmegaCalculator in Dafny

A model of the OmegaCalculator expression pipeline, with proofs. A line of text is evaluated in three stages:

- The lexer deletes spaces and tabs and scans the rest into tokens. A token is a number, an operator symbol, `(` or `)`. Each `-` becomes the binary minus `b-` or the unary minus `u-`, depending on the token before it.
- A shunting-yard parser turns the infix tokens into a postfix queue. It uses an operator stack and the operators' intensity (precedence), direction (associativity) and placement rule.
- A stack machine solves the queue.

The stages share an operator registry, a map from symbol to operator. The calculator fills it with a fixed table of fourteen operators, including three minus symbols: `b-`, `u-` and `s-`.

Each stage of the Python code is modelled twice:

- a specification function on values: `ScanNumber`, `TokenStream`, `Step`/`Process`/`PostfixOf`, `Run`/`ValueOf`, `Evaluate`;
- the imperative form the code takes, proved equal to that function:
  - the `_read_number` and `tokenize` loops (`ReadNumber`, `Tokenize`);
  - the `Parser` class with its output queue and operator stack fields;
  - the solver's value-stack loop (`Solve`);
  - the registry class (`OperatorRegistry`);
  - the digit-sum loop;
  - `setup_registry`, as a sequence of `register` calls.

The properties of the pipeline are then proved about the specification functions.

Files and modules:

- `errors.dfy` (`Errors`): `Option`, `Result`, and one `Error` constructor per exception the code raises.
- `chars.dfy` (`Chars`): ASCII digits.
- `operands.dfy` (`Operands`):
  - the operator record `{symbol, kind, intensity, direction, placement}`;
  - the `calculate` of every operator class;
  - the registry.
- `lexer.dfy` (`Lexer`), `parser.dfy` (`Parser`), `solver.dfy` (`Solver`): the three stages.
- `calculator.dfy` (`Calculator`): the operator table, `setup_registry`, the `Calculator` class and the composition.
- `examples.dfy` (`Examples`): expressions from the repository's tests, evaluated stage by stage.

Errors are values:

- A raised exception is an `Err` result.
- Python's `tokenize` is a generator. It is modelled as the tokens yielded before it raised (`LexOutcome`), plus that error, if any.
- `parse` consumes those tokens first. So a parser error on an earlier token wins over the lexer's error, as it does in Python.

Two facilities of the Python runtime are parameters of the model, in the `Runtime` record:

- `math.pow`, as `pow`, which returns `None` where it raises;
- `str(float)`, as `str`.

## Model

| member | source | states |
|---|---|---|
| Chars.DigitValue | operands.py:92-93 | the value `int(c)` of a digit character, between 0 and 9; any other character (the `.`, `-` or `e` of a float's text) adds 0 |
| Lexer.Normalize | lexer.py:50-56 | the result holds no space or tab, and every other character occurs as often as in the input |
| Lexer.NormalizeIsFilter | lexer.py:50-56 | normalizing keeps exactly the non-space, non-tab characters, in their original order |
| Lexer.NormalizeIdempotent | lexer.py:50-56 | normalizing twice is normalizing once |
| Lexer.RunEnd | lexer.py:30-41 | the scan position stops at the first character that is neither a digit nor a dot; every character before it from the start is a digit or a dot |
| Lexer.ScanNumber | lexer.py:18-47 | a successful scan ends strictly after its start and within the text, with a value that is not negative; a failure is an InvalidNumberError at the start index |
| Lexer.DecimalValue | lexer.py:43-44 | the value of a number lexeme is never negative |
| Lexer.ScanNumberAtDigit | lexer.py:25-47 | at a digit, the scan fails exactly when the run of digits and dots holds a second dot, with InvalidNumberError at the start index; otherwise it returns the value of the run and the index where the run ends |
| Lexer.ScanInteger | lexer.py:30-45 | a run of digits alone reads as the integer it spells, and the scan ends at the run's end |
| Lexer.ScanDecimal | lexer.py:30-45 | a run of digits with one dot reads as its integer part plus the digits after the dot divided by ten once per such digit, and the scan ends at the run's end |
| Lexer.DottedValue | lexer.py:43-44 | the value of the literal `a.b` is the integer `a` plus the integer `b` scaled down by the number of digits of `b` |
| Lexer.ScaledDownIsDivision | lexer.py:43-44 | scaling a value down by `n` digits divides it by ten to the `n` |
| Lexer.ReadNumber | lexer.py:25-47 | the `_read_number` loop computes `ScanNumber`, its end index and its multiple-dots error |
| Lexer.DecideMinusType | lexer.py:59-67 | the binary minus iff the previous class is NUMBER or R_PAREN, the unary minus iff it is OPERATOR or L_PAREN |
| Lexer.MinusFor | lexer.py:93-99 | at the start a `-` is the unary minus; otherwise the choice of `_decide_minus_type` |
| Lexer.ScanStep | lexer.py:90-127 | each successful pass of the scan loop advances the position, stays within the text and yields a non-negative number, a parenthesis, a minus symbol or a registered one-character symbol; a pass fails only at a character the loop does not accept, with IllegalCharacterError naming it and its index, or at a digit whose number scan fails, with InvalidNumberError at that index |
| Lexer.ScanOutcome | lexer.py:78-127 | the scan from any position yields at most one token per character left, each of the kinds above, and ends only in a number error at a digit or an illegal-character error naming an unaccepted character of the text at its index |
| Lexer.TokenStream | lexer.py:78-127 | `tokenize` yields at most one token per input character, each of the kinds above; it ends only in a number error at a digit or an illegal-character error at an unaccepted character of the normalized text, never a space or a tab |
| Lexer.Tokenize | lexer.py:78-127 | the scan loop yields exactly `TokenStream`: the tokens emitted before an error, and that error |
| Lexer.MinusStep | lexer.py:93-102 | a step yields a minus token only for a `-`, and then the one that the previous token's class calls for |
| Lexer.MinusDisambiguation | lexer.py:93-122 | a minus token is the binary minus iff the token before it is a number or `)`; at the start, after another minus, after an operator or after `(` it is unary |
| Lexer.IllegalCharacterReported | lexer.py:90-127 | an IllegalCharacterError names a character of the normalized text at the reported index that is not `-`, a digit, a registered symbol or a parenthesis; the tokens yielded before it are exactly the tokens of the text before that index |
| Lexer.IllegalCharacterRaised | lexer.py:113-127 | conversely, when the text before an unaccepted character scans without error and that character does not continue a digit run (a `.` right after a digit does), the scan raises IllegalCharacterError for that character at that index, after exactly the tokens of the text before it |
| Lexer.LeadingDotRaised | lexer.py:113-127 | a `.` that opens the text (`.5`) raises IllegalCharacterError at index 0 before any token, when no operator is spelled `.` |
| Lexer.TokenCounts | lexer.py:90-125 | on success the whole normalized text is consumed: one number token per run of digits and dots, and one token per other character |
| Lexer.TokensOfConcat | lexer.py:90-125 | the tokens of two texts joined at a token boundary are the tokens of the first, then those of the second scanned after the first's last class |
| Parser.ShouldPop | parser.py:13-39 | a top of higher intensity pops, one of lower intensity does not; at equal intensity it pops iff the incoming operator is left-facing or placed right of its value |
| Parser.LastParen | parser.py:86-88 | the position of the topmost `(`, with only operators above it |
| Parser.AfterRightParen | parser.py:81-90 | fails with "too many right parentheses" exactly when no `(` is on the stack |
| Parser.PopCount | parser.py:102-113 | the operators popped for an incoming operator are a top segment of the stack, each of them registered and to be popped; the entry below them is a `(` or an operator that stays |
| Parser.AfterOperator | parser.py:92-115 | fails exactly for an unregistered symbol, with the registry's error; otherwise the new stack holds only registered operators, with the incoming symbol on top |
| Parser.Finalized | parser.py:117-124 | fails with "too many left parentheses" exactly when a `(` is still on the stack |
| Parser.Step | parser.py:64-79 | one token keeps every operator on the stack registered |
| Parser.StepFails | parser.py:64-115 | one token fails exactly when it is a `)` with no `(` on the stack or an unregistered symbol, with "too many right parentheses" or the registry's error |
| Parser.Process | parser.py:58-59 | feeding the tokens one by one keeps every operator on the stack registered |
| Parser.ProcessFails | parser.py:58-59 | feeding tokens fails only with "too many right parentheses" or an unregistered symbol's error |
| Parser.PostfixOf | parser.py:49-62 | a lexer error always fails the parse; a failure is a token's error, the lexer's own error, or "too many left parentheses" for an error-free stream |
| Parser.ProcessConcat | parser.py:58-59 | feeding `a + b` is feeding `a`, then `b` from the state `a` left, or the first error |
| Parser.Parser.constructor | parser.py:43-47 | the parser holds the registry's operators with an empty queue and stack |
| Parser.Parser.Parse | parser.py:49-62 | `parse` returns `PostfixOf` of the token stream; on success the queue is that output and the stack is empty |
| Parser.Parser.DetermineToken | parser.py:64-79 | one step of the fields is `Step` on the old state, and it fails when `Step` fails, with the same error |
| Parser.Parser.HandleRightParentheses | parser.py:81-90 | the pop loop and the final pop of the `(` give `AfterRightParen` of the old state, and fail when it does |
| Parser.Parser.HandleOperator | parser.py:92-115 | the lookup, the pop loop and the push give `AfterOperator` of the old state, and fail when it does |
| Parser.Parser.PopOutranked | parser.py:102-113 | the loop pops exactly the operators that `_should_pop_op` sends to the output, and stops at the bottom, at a `(` or at an operator that stays |
| Parser.Parser.Finalize | parser.py:117-124 | the final loop empties the stack into the queue from the top down, or fails at a `(` |
| Parser.EmittedContents | parser.py:111 | popped stack entries become operator tokens only, one per operator popped |
| Parser.PostfixContents | parser.py:69-70 | on success the postfix output has no parenthesis, the input's numbers in their input order, and every operator symbol as often as in the input |
| Parser.StepDepth | parser.py:64-90 | a step fails only on a `)` with no `(` on the stack, and otherwise changes the number of `(` on the stack by +1 for `(`, -1 for `)` and 0 otherwise |
| Parser.ProcessDepth | parser.py:58-59 | processing fails, with "too many right parentheses", exactly when some prefix closes more parentheses than are open |
| Parser.ParenthesesMatched | parser.py:81-90 | a registered token stream is too many right parentheses iff some prefix has more `)` than `(`, too many left iff none does and more `(` remain, and accepted iff the parentheses match |
| Solver.Operation | solver.py:37-62 | an unknown symbol and too few values are the two OperationExecutionErrors; otherwise the operands are replaced by the one value the operator's `calculate` returns for them, the second value from the top being the left operand, and the rest of the stack is unchanged |
| Solver.RunConcat | solver.py:22-27 | running `a + b` is running `a`, then `b` on the resulting stack |
| Solver.ValueOf | solver.py:10-35 | an empty queue is exactly the "nothing in operation queue" error; a value is the single one left on the stack; a run's error comes back unchanged; a run that ends with n ≠ 1 values gives the "incorrect amount of values" error for n; a failure is one of the solver's own errors or an operator's |
| Solver.Run | solver.py:22-27 | a run fails only with an unknown symbol, too few values, or an operator's own error |
| Solver.HandleOperation | solver.py:37-62 | `_handle_operation` on the stack computes `Operation` |
| Solver.Solve | solver.py:10-35 | the loop over the queue computes `ValueOf`, including every error |
| Solver.StackHeight | solver.py:22-27 | the height changes by +1 per number, -1 per binary operator and 0 per unary operator |
| Solver.SingleValue | solver.py:32-33 | a queue that yields a value has net height exactly 1 |
| Solver.WellFormedQueue | solver.py:22-35 | a non-empty queue whose height never drops below an operator's needs and ends at 1 yields a value or an operator's own error; and every queue that yields a value is one such |
| Solver.BinaryOperandOrder | solver.py:54-56 | for the queue `a b op`, `a` is the left operand and `b` the right one |
| Operands.Add | operands.py:21-23 | the sum, with `r - b == a` |
| Operands.Subtract | operands.py:26-28 | the difference, with `Add(r, b) == a` |
| Operands.Multiply | operands.py:38-40 | the product, undone by division when the right operand is not zero |
| Operands.Divide | operands.py:31-35 | fails exactly when the divisor is 0; otherwise the quotient, whose product with the divisor is the dividend |
| Operands.Power | operands.py:43-45 | the runtime's `math.pow`, failing exactly where it raises |
| Operands.Modulo | operands.py:48-50 | fails exactly when the divisor is 0; otherwise the remainder differs from the dividend by a whole multiple of the divisor and is zero or has the divisor's sign |
| Operands.Maximum | operands.py:53-55 | one of the operands, at least both |
| Operands.Minimum | operands.py:58-60 | one of the operands, at most both |
| Operands.Average | operands.py:63-65 | midway between the operands, so between their minimum and maximum |
| Operands.Negate | operands.py:74-76 | the additive inverse |
| Operands.NegateInvolution | operands.py:74-76 | negating twice gives the operand back |
| Operands.Factorial | operands.py:79-83 | fails exactly for a negative or non-integer operand; otherwise at least 1, and 1 for 0 |
| Operands.FactorialStep | operands.py:79-83 | for an integer at least 1, `n! == n * (n - 1)!` |
| Operands.DigitTotal | operands.py:90-93 | the digit total of a text is at most 9 per character |
| Operands.NoDigitsTotalZero | operands.py:90-93 | a text without digits totals 0 |
| Operands.DigitTotalConcat | operands.py:90-93 | the digit total of a concatenation is the sum of the parts' totals |
| Operands.DigitSum | operands.py:86-95 | the loop over `str(operand)` returns the digit total of that text |
| Operands.DigitTotalExample | tests.py:101 | the digits of `123.123` total 12; the dot is ignored |
| Operands.ApplyBinary | operands.py:21-65 | a binary `calculate` fails only by division or modulo by zero or a failing `math.pow` |
| Operands.ApplyUnary | operands.py:74-95 | a unary `calculate` fails only for a factorial outside its domain |
| Operands.Lookup | operands.py:105-108 | present symbols give their operator; absent ones give the unknown-operator error |
| Operands.LastWriteWins | operands.py:102-103 | after a sequence of registrations, a symbol is present iff it was present or registered, it maps to the last operator registered under it, and unregistered entries keep their operator |
| Operands.RegisterAllKeyed | operands.py:102-103 | registering keeps every entry stored under its own symbol |
| Operands.OperatorRegistry.constructor | operands.py:99-100 | a new registry is empty |
| Operands.OperatorRegistry.Register | operands.py:102-103 | the operator is stored under its symbol, overwriting an earlier one; no other entry changes |
| Operands.OperatorRegistry.GetOperator | operands.py:105-108 | the operator registered under a present symbol; an error for an absent one |
| Calculator.SetupRegistry | calculator.py:19-44 | a fresh registry whose contents are exactly the operator table |
| Calculator.Calculator.constructor | calculator.py:47-52 | the registry holds the operator table, and the parser shares its operators |
| Calculator.Calculator.Calculate | calculator.py:54-68 | `calculate` is `solve(parse(tokenize(input)))`: the first error of any stage is returned unchanged |
| Calculator.MinusSymbolsDistinct | calculator.py:14-16 | `b-`, `u-` and `s-` are distinct symbols: subtraction, the unary minus placed right of its value, and the sign minus placed left of it |
| Calculator.IntensityOrder | calculator.py:22-42 | the intensities, from `+` and `b-` at 1 up to `s-` at 8 |
| Calculator.Table | calculator.py:19-44 | every entry of the table is stored under its own symbol |
| Calculator.NoOperatorClash | calculator.py:19-44 | no digit, dot or parenthesis is a key of the table |
| Calculator.Evaluate | calculator.py:54-68 | a lexer error always fails the calculation, and a number or character error in the result is exactly the one the lexer raised |
| Calculator.BlankInput | solver.py:17-18 | input made only of spaces and tabs yields no tokens and ends in the empty-queue error |
| Calculator.EvaluateNormalized | lexer.py:84 | evaluating the normalized text is evaluating the text |
| Examples.PowerGroupsLeft | tests.py:103 | `2 ^ 3 ^ 4` groups as (2 ^ 3) ^ 4 and evaluates to 4096 |
| Examples.LeadingMinus | tests.py:44 | `-1 + 7` evaluates to 6 |
| Examples.MinusBelowPower | tests.py:46 | `-2 ^ 4` evaluates to -16 |
| Examples.DoubleNegateFails | tests.py:61-62 | `~~3` fails: the solver meets `~` with no value |
| Examples.MixedExpression | tests.py:109 | `(3+5)*2-4/2^  2+((10-10)*5)` evaluates to 15 |

## Left out

- main.py: the interactive read-evaluate-print loop and its banner (I/O only).
- Floating point. Values are exact `real`s.
  - A number literal's value is the exact decimal it spells (`DecimalValue`), not the nearest float.
  - Rounding, overflow to infinity and NaN are not modelled.
- Chars.IsDigit: digits are the ASCII digits `0`-`9` only. Python's `str.isdigit` also accepts other Unicode digits. Some of them `float` reads (`'٣'` reads as 3.0). Others it refuses (`'²'`), and then `_read_number` raises the invalid-format error of lexer.py:46-47. None of this is modelled.
- Lexer.ScanNumber: the invalid-format branch (lexer.py:46-47) is reachable in Python, through the Unicode digits above. In the model it is not: a run of ASCII digits and dots that starts with a digit and holds at most one dot is always a text `float` reads. `BadFormat` names that branch. The only number failure that can occur in the model is a second dot (lexer.py:36-37).
- Operands.Power: `math.pow` is the runtime parameter `pow`. Which arguments make it raise is not modelled.
- Operands.DigitSum: `str(float)` is the runtime parameter `str`, so the text whose digits are summed is given, not computed.
- Operands.Factorial: `math.factorial` returns a Python `int` (operands.py:83), but the model returns the same `real` as every other operator. Two behaviours that follow from the `int` are not modelled:
  - A `#` after `!` formats an `int`; everywhere else it formats a `float`. The model has one `str` parameter for both, and from 10^16 on the two texts differ. `19!#` sums the digits of `121645100408832000`, which is 45. `121645100408832000#` sums the digits of `1.21645100408832e+17`, which is 53. Both operands are the same `real`, so no choice of `str` is faithful to both.
  - A second `!` (`3!!`) calls `is_integer()` on that `int`. That method exists for `int` only from Python 3.12; on earlier versions the call raises. The model reads `3!!` as 720 on every version.
- Operands.ApplyUnary: the `UnaryMinus` class that calculator.py:28,42 registers is not part of this model. It is taken to negate its operand, as `Negate` does.
- Operator record: the shown `Operator` constructor (operands.py:6-8) takes no direction or placement.
  - Where calculator.py gives none, the table uses direction Left and placement between values.
  - The left default is the one under which tests.py:145 holds. Under either default, some tests do not hold; see the last item of this list.
- The module-level `registry` at operands.py:111-129 is left out. It registers `-` instead of `b-`/`u-` and lacks direction and placement. The table of calculator.py:19-44 is the one modelled.
- Registry errors pass through the parser unchanged (`UnknownOperator`).
  - `get_operator` raises `ValueError` (operands.py:107).
  - The parser catches `OperandNotFoundException` instead (parser.py:99), which does not match it.
  - The solver does catch `ValueError` and reports `UnknownOperatorSymbol` (solver.py:45-48).
- The solver's "unexpected token type" branch (solver.py:29-30) and its "unknown operator type" branch (solver.py:64-65) cannot be reached: every token is a number or a symbol, and every operator kind is unary or binary.
- The lexer's `get_all_operands` call (lexer.py:85) is read as the registry's set of symbols: a character is an operator when it is a registered symbol. Multi-character symbols therefore never match a single character.
- calculator.py:50 passes four arguments to a `Lexer` that takes one (lexer.py:75). The lexer is modelled as taking only the registry.
- Placement errors and the sign minus: the shown lexer never emits `s-` and raises no placement error.
  - So tests.py:10-23 and most of tests.py:50-65 describe another revision.
  - For example, the model's definitions give -6 for `3+~-3` (tests.py:48 expects 6) and 8 for `2 - - 3!` (tests.py:64-65 expect an error).
  - Six more tests get other results from the shown code, for two reasons.
  - First, parser.py:30 compares the current operator's placement with itself. So a right-placed `u-` pops an operator of equal intensity under either direction default. As a result:
    - `--3!` gives `NotEnoughValues("u-")`; tests.py:69 expects 6.
    - `2---3!` gives 4; tests.py:71 expects -4.
    - `2 +--3!` gives -8; tests.py:73 expects 8.
  - Second, after `!` (or any other registered symbol) the previous class is OPERATOR (lexer.py:122). A following `-` is then unary (lexer.py:97), so `3!-6` is `3!`, then `u-6`, and the stack ends with two values. Each of these gives `WrongValueCount(2)`:
    - `(10$20)& 5+(3!-6)*  10 0` (tests.py:119);
    - `1.5 @ 4.5+(3!-6)+(10-10)` (tests.py:135);
    - `100- (10$100)  +(5!-120)` (tests.py:141).
  - None of these results is proved as a lemma.
- The exception hierarchy of exceptions.py is one error datatype; exception messages are not modelled.
- calculator.py:67-68 re-raises whatever it catches; the model returns the stage's error unchanged.
