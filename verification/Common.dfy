// Vocabulary shared by the other modules.

module Options {
  datatype Option<+T> = None | Some(value: T)
}

// The arithmetic that expressions and I/O records share, over exact reals.
module Arithmetic {

  function TwoTo(n: nat): (p: real)
    ensures p >= 1.0
  {
    if n == 0 then 1.0 else 2.0 * TwoTo(n - 1)
  }

  function TwoToMinus(n: nat): (p: real)
    ensures 0.0 < p <= 1.0
  {
    if n == 0 then 1.0 else TwoToMinus(n - 1) / 2.0
  }

  // The binary64 format of section 3.6 of IEEE 754.
  datatype Format = Format(precision: nat, maxExponent: nat)
  const DOUBLE := Format(53, 1024)

  // G_MAXDOUBLE, G_MINDOUBLE (the smallest positive normal double, also DBL_MIN) and DBL_EPSILON.
  const MAX_DOUBLE: real := TwoTo(DOUBLE.maxExponent) - TwoTo(DOUBLE.maxExponent - DOUBLE.precision)
  const MIN_DOUBLE: real := TwoToMinus(DOUBLE.maxExponent - 2)
  const EPSILON: real := 1.0 / 4503599627370496.0

  lemma {:induction false} TwoToMinusFalls(m: nat, n: nat)
    requires m <= n
    ensures TwoToMinus(n) <= TwoToMinus(m)
    decreases n
  {
    if m < n { TwoToMinusFalls(m, n - 1); }
  }

  lemma FourHalves(n: nat)
    ensures TwoToMinus(n + 4) == TwoToMinus(n) / 16.0
  {
    assert TwoToMinus(n + 4) == TwoToMinus(n + 3) / 2.0 && TwoToMinus(n + 2) == TwoToMinus(n + 1) / 2.0;
  }

  lemma MinDoubleIsTiny()
    ensures 0.0 < MIN_DOUBLE < 0.00000000001
  {
    TwoToMinusFalls(40, DOUBLE.maxExponent - 2);
    FourHalves(0);
    FourHalves(4);
    FourHalves(8);
    FourHalves(12);
    FourHalves(16);
    FourHalves(20);
    FourHalves(24);
    FourHalves(28);
    FourHalves(32);
    FourHalves(36);
  }

  function Abs(x: real): real {
    if x < 0.0 then -x else x
  }

  // C's round(): the nearest integer, halves away from zero.
  function Round(x: real): int {
    if x >= 0.0 then (x + 0.5).Floor else -(0.5 - x).Floor
  }

  lemma RoundIsNearest(x: real)
    ensures Abs(x - Round(x) as real) <= 0.5
    ensures Abs(x - Round(x) as real) == 0.5 ==> Abs(Round(x) as real) > Abs(x)
  {
  }

  // The two facts of RoundIsNearest determine the result.
  lemma RoundIsUnique(x: real, n: int)
    requires Abs(x - n as real) <= 0.5
    requires Abs(x - n as real) == 0.5 ==> Abs(n as real) > Abs(x)
    ensures Round(x) == n
  {
  }

  lemma RoundIsOdd(x: real)
    ensures Round(-x) == -Round(x)
  {
  }
}
