/** Whole numbers as the client's runtime rounds them: doubles, with 53 significant bits. */
module Numbers {

  /** Below this every whole number is a double. */
  const EXACT: nat := 0x20_0000_0000_0000

  /** The distance between the doubles around `n`. */
  function Ulp(n: nat): (u: nat)
    ensures u >= 1
  {
    if n < EXACT then 1 else 2 * Ulp(n / 2)
  }

  predicate RoundsDown(n: nat) {
    var u := Ulp(n);
    2 * (n % u) < u || (2 * (n % u) == u && n / u % 2 == 0)
  }

  /** Number(n): the nearest double, on a tie the one whose last digit is even. */
  function ToNumber(n: nat): nat {
    var u := Ulp(n);
    if RoundsDown(n) then n / u * u else (n / u + 1) * u
  }

  /** Rounding down drops the remainder, rounding up fills it. */
  lemma Rounded(n: nat)
    ensures ToNumber(n) == if RoundsDown(n) then n - n % Ulp(n) else n - n % Ulp(n) + Ulp(n)
  {
    hide Ulp;
    Split(n, Ulp(n));
  }

  lemma Split(n: nat, u: nat)
    requires u >= 1
    ensures n / u * u == n - n % u && (n / u + 1) * u == n - n % u + u
  {}

  /** Small numbers are kept as they are, others are at most half a step off. */
  lemma Nearest(n: nat)
    ensures n < EXACT ==> ToNumber(n) == n
    ensures 2 * n - Ulp(n) <= 2 * ToNumber(n) <= 2 * n + Ulp(n)
  {
    Rounded(n);
  }
}
