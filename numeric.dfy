/** Numeric helpers: powers and Python's `round(x, ndigits)`. */
module Numeric {

  function Pow2(n: nat): (r: nat)
    ensures r >= 1
  {
    if n == 0 then 1 else 2 * Pow2(n - 1)
  }

  lemma {:induction false} Pow2Monotone(a: nat, b: nat)
    requires a <= b
    ensures Pow2(a) <= Pow2(b)
    decreases b
  {
    if a < b {
      Pow2Monotone(a, b - 1);
    }
  }

  /** `base ** n` for a real base and a natural exponent. */
  function PowReal(base: real, n: nat): real {
    if n == 0 then 1.0 else base * PowReal(base, n - 1)
  }

  function Pow10(n: nat): (r: nat)
    ensures r >= 1
  {
    if n == 0 then 1 else 10 * Pow10(n - 1)
  }

  function Scale(digits: nat): (s: real)
    ensures s >= 1.0
  {
    Pow10(digits) as real
  }

  /** Python's `round(x, digits)`: to the nearest multiple of 10^-digits,
      ties to the even neighbour (on the exact real value). */
  function Round(x: real, digits: nat): (r: real)
  {
    var scale := Scale(digits);
    var scaled := x * scale;
    var lo := scaled.Floor;
    var frac := scaled - lo as real;
    var n := if frac > 0.5 then lo + 1
             else if frac < 0.5 then lo
             else if lo % 2 == 0 then lo else lo + 1;
    n as real / scale
  }

  /** Rounding never moves a value across zero. */
  lemma RoundKeepsSign(x: real, digits: nat)
    ensures x >= 0.0 ==> Round(x, digits) >= 0.0
    ensures x <= 0.0 ==> Round(x, digits) <= 0.0
  {
    var scale := Scale(digits);
    var scaled := x * scale;
    if x >= 0.0 {
      assert scaled >= 0.0;
    }
    if x <= 0.0 {
      assert scaled <= 0.0;
    }
  }
}
