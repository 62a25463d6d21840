/** Failure values shared by every stage of the calculator.

    Each constructor of `Error` stands for one exception the Python code raises; the comment
    beside it names the exception class. Raising becomes returning `Err(...)`. */
module Errors {

  datatype Option<T> = None | Some(value: T)

  datatype Result<T> = Ok(value: T) | Err(error: Error)

  /** Why `float(...)` refused a number lexeme. */
  datatype NumberFault = MultipleDots | BadFormat

  datatype Error =
    // lexer (InvalidNumberError, IllegalCharacterError); indices are into the normalized text
    | InvalidNumber(index: nat, fault: NumberFault)
    | IllegalCharacter(ch: char, index: nat)
      // parser (ParenthesesError)
    | TooManyRightParentheses
    | TooManyLeftParentheses
      // registry lookup of an absent symbol (ValueError)
    | UnknownOperator(symbol: string)
      // solver (SolverException)
    | EmptyQueue
    | WrongValueCount(count: nat)
      // solver (OperationExecutionError)
    | UnknownOperatorSymbol(symbol: string)
    | NotEnoughValues(symbol: string)
      // raised by an operator's own `calculate`
    | DivisionByZero        // ValueError in Divide
    | ModuloByZero          // ZeroDivisionError of Python's float `%`
    | FactorialDomain       // ValueError in Factorial
    | PowerFailure          // math.pow raised (domain or range error)
  {
    /** The errors an operator's `calculate` raises, as opposed to the pipeline's own checks. */
    predicate IsDomainError() {
      DivisionByZero? || ModuloByZero? || FactorialDomain? || PowerFailure?
    }
  }
}
