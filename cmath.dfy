/**
 * C++ integer division and remainder. Dafny's `/` and `%` are Euclidean;
 * C++ truncates the quotient toward zero, so the remainder takes the sign
 * of the dividend. The game uses both on values that may be negative
 * (`-rand() % 3` and a signed `char` code).
 */
module CMath {

  /** C++ `a % b` for a positive divisor. */
  function TruncMod(a: int, b: int): (r: int)
    requires b > 0
    ensures -b < r < b
    ensures a >= 0 ==> r >= 0
    ensures a <= 0 ==> r <= 0
  {
    if a >= 0 then a % b else -((-a) % b)
  }

  /** C++ `a / b` for a positive divisor: together with TruncMod it rebuilds `a`. */
  function TruncDiv(a: int, b: int): (q: int)
    requires b > 0
    ensures q * b + TruncMod(a, b) == a
    ensures a >= 0 ==> q >= 0
    ensures a <= 0 ==> q <= 0
  {
    if a >= 0 then a / b else -((-a) / b)
  }
}
