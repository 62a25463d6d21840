/** Character classes used by the lexer and by the digit-sum operator (`str.isdigit` on ASCII). */
module Chars {

  predicate IsDigit(c: char) {
    '0' <= c <= '9'
  }

  /** `int(c)` for a digit character; 0 for anything else. */
  function DigitValue(c: char): (d: nat)
    ensures d <= 9
    ensures IsDigit(c) ==> d == c as int - '0' as int
    ensures !IsDigit(c) ==> d == 0
  {
    if IsDigit(c) then c as int - '0' as int else 0
  }
}
