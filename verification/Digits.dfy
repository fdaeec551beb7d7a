/** Decimal digits. */
module Digits {

  /** The last digit of a number. */
  function Digit(n: nat): char {
    '0' + (n % 10) as char
  }
}
