// round_to_step of lib/input.c and lib/output.c: snapping a value to the grid of
// the multiples of a step, in exact arithmetic.

module Snap {
  import opened Arithmetic

  // A step that the setters accept.
  predicate Usable(step: real) {
    Abs(step) > MIN_DOUBLE
  }

  function Times(n: int, s: real): real {
    n as real * s
  }

  function RoundToStep(x: real, step: real): real {
    if Abs(step) <= MIN_DOUBLE then x else Times(Round(x / step), step)
  }

  ghost predicate OnGrid(x: real, step: real) {
    exists k :: x == Times(k, step)
  }

  // ---------- products and quotients ----------

  lemma MulLe(a: real, b: real, c: real)
    requires a <= b && c >= 0.0
    ensures a * c <= b * c
  {
  }

  lemma MulLt(a: real, b: real, c: real)
    requires a < b && c > 0.0
    ensures a * c < b * c
  {
  }

  lemma TimesDistance(j: int, k: int, s: real)
    requires s > 0.0
    ensures Abs(Times(j, s) - Times(k, s)) == Abs(j as real - k as real) * s
  {
  }

  lemma Distance(x: real, s: real, q: real, n: int)
    requires s > 0.0 && x == q * s
    ensures Abs(x - Times(n, s)) == Abs(q - n as real) * s
  {
  }

  lemma SizeOf(s: real, q: real)
    requires s > 0.0
    ensures Abs(q * s) == Abs(q) * s
  {
  }

  lemma TimesSize(s: real, n: int)
    requires s > 0.0
    ensures Abs(Times(n, s)) == Abs(n as real) * s
  {
  }

  lemma Quotient(x: real, s: real) returns (q: real)
    requires s != 0.0
    ensures q == x / s && x == q * s
  {
    q := x / s;
  }

  // ---------- a positive step, given the quotient ----------

  lemma NearestByQuotient(x: real, s: real, q: real, k: int)
    requires s > 0.0 && x == q * s
    ensures Abs(x - Times(Round(q), s)) <= 0.5 * s
    ensures Abs(x - Times(Round(q), s)) <= Abs(x - Times(k, s))
    ensures Abs(x - Times(Round(q), s)) == 0.5 * s ==> Abs(Times(Round(q), s)) > Abs(x)
  {
    var n := Round(q);
    RoundIsNearest(q);
    CloserByQuotient(x, s, q, n, k);
    HalfByQuotient(x, s, q, n);
  }

  lemma NoCloserInteger(q: real, n: int, k: int)
    requires Abs(q - n as real) <= 0.5
    ensures Abs(q - n as real) <= Abs(q - k as real)
  {
    if k != n { assert Abs((n - k) as real) >= 1.0; }
  }

  lemma CloserByQuotient(x: real, s: real, q: real, n: int, k: int)
    requires s > 0.0 && x == q * s && Abs(q - n as real) <= 0.5
    ensures Abs(x - Times(n, s)) <= Abs(x - Times(k, s))
  {
    NoCloserInteger(q, n, k);
    hide Abs, Times;
    Distance(x, s, q, n);
    Distance(x, s, q, k);
    MulLe(Abs(q - n as real), Abs(q - k as real), s);
  }

  lemma HalfByQuotient(x: real, s: real, q: real, n: int)
    requires s > 0.0 && x == q * s && Abs(q - n as real) <= 0.5
    requires Abs(q - n as real) == 0.5 ==> Abs(n as real) > Abs(q)
    ensures Abs(x - Times(n, s)) <= 0.5 * s
    ensures Abs(x - Times(n, s)) == 0.5 * s ==> Abs(Times(n, s)) > Abs(x)
  {
    hide Abs, Times;
    Distance(x, s, q, n);
    if Abs(q - n as real) == 0.5 {
      TimesSize(s, n);
      SizeOf(s, q);
      MulLt(Abs(q), Abs(n as real), s);
    } else {
      MulLt(Abs(q - n as real), 0.5, s);
    }
  }

  lemma UniqueByQuotient(x: real, s: real, q: real, n: int)
    requires s > 0.0 && x == q * s
    requires Abs(x - Times(n, s)) <= 0.5 * s
    requires Abs(x - Times(n, s)) == 0.5 * s ==> Abs(Times(n, s)) > Abs(x)
    ensures Round(q) == n
  {
    hide Abs, Times;
    Distance(x, s, q, n);
    if Abs(q - n as real) > 0.5 { MulLt(0.5, Abs(q - n as real), s); }
    if Abs(q - n as real) == 0.5 && Abs(n as real) <= Abs(q) {
      TimesSize(s, n);
      SizeOf(s, q);
      MulLe(Abs(n as real), Abs(q), s);
    }
    assert Abs(q - n as real) <= 0.5;
    assert Abs(q - n as real) == 0.5 ==> Abs(n as real) > Abs(q);
    RoundIsUnique(q, n);
  }

  // ---------- what snapping is ----------

  lemma SnapIgnoresSign(x: real, s: real)
    ensures RoundToStep(x, -s) == RoundToStep(x, s)
  {
    if Usable(s) {
      assert x / (-s) == -(x / s);
      RoundIsOdd(x / s);
    }
  }

  lemma GridIgnoresSign(x: real, s: real)
    requires OnGrid(x, s)
    ensures OnGrid(x, -s)
  {
    var k :| x == Times(k, s);
    assert x == Times(-k, -s);
  }

  // Within half a step, at least as near as any other multiple, and away from
  // zero when two multiples are equally near.
  ghost predicate IsNearest(x: real, p: real, r: real, y: real) {
    Abs(x - r) <= 0.5 * p && Abs(x - r) <= Abs(x - y) && (Abs(x - r) == 0.5 * p ==> Abs(r) > Abs(x))
  }

  lemma NearestForPositive(x: real, s: real, y: real)
    requires Usable(s) && s > 0.0 && OnGrid(y, s)
    ensures IsNearest(x, s, RoundToStep(x, s), y)
  {
    hide Times;
    var k :| y == Times(k, s);
    var q := Quotient(x, s);
    NearestByQuotient(x, s, q, k);
  }

  lemma SnapIsNearest(x: real, s: real, y: real)
    requires Usable(s) && OnGrid(y, s)
    ensures IsNearest(x, Abs(s), RoundToStep(x, s), y)
  {
    hide RoundToStep, OnGrid;
    if s < 0.0 {
      SnapIgnoresSign(x, s);
      GridIgnoresSign(y, s);
    }
    NearestForPositive(x, Abs(s), y);
  }

  lemma UniqueForPositive(x: real, s: real, y: real)
    requires Usable(s) && s > 0.0 && OnGrid(y, s) && Abs(x - y) <= 0.5 * s
    requires Abs(x - y) == 0.5 * s ==> Abs(y) > Abs(x)
    ensures RoundToStep(x, s) == y
  {
    hide Times;
    var n :| y == Times(n, s);
    var q := Quotient(x, s);
    UniqueByQuotient(x, s, q, n);
  }

  // These facts determine it.
  lemma SnapIsUnique(x: real, s: real, y: real)
    requires Usable(s) && OnGrid(y, s) && Abs(x - y) <= 0.5 * Abs(s)
    requires Abs(x - y) == 0.5 * Abs(s) ==> Abs(y) > Abs(x)
    ensures RoundToStep(x, s) == y
  {
    hide RoundToStep, OnGrid;
    if s < 0.0 {
      SnapIgnoresSign(x, s);
      GridIgnoresSign(y, s);
    }
    UniqueForPositive(x, Abs(s), y);
  }

  lemma SnapKeepsGrid(x: real, s: real)
    requires Usable(s) && OnGrid(x, s)
    ensures RoundToStep(x, s) == x
  {
    SnapIsUnique(x, s, x);
  }

  lemma SnapIsOnGrid(x: real, s: real)
    requires Usable(s)
    ensures OnGrid(RoundToStep(x, s), s)
  {
  }

  lemma SnapIsIdempotent(x: real, s: real)
    ensures RoundToStep(RoundToStep(x, s), s) == RoundToStep(x, s)
  {
    if Usable(s) {
      SnapIsOnGrid(x, s);
      SnapKeepsGrid(RoundToStep(x, s), s);
    }
  }

  lemma GapForPositive(j: int, k: int, s: real)
    requires s > 0.0 && Times(j, s) != Times(k, s)
    ensures Abs(Times(j, s) - Times(k, s)) >= s
  {
    TimesDistance(j, k, s);
    assert j != k;
    assert Abs((j - k) as real) >= 1.0;
    MulLe(1.0, Abs(j as real - k as real), s);
  }

  // Two different multiples are at least a step apart.
  lemma GridGap(x: real, y: real, s: real)
    requires Usable(s) && OnGrid(x, s) && OnGrid(y, s) && x != y
    ensures Abs(x - y) >= Abs(s)
  {
    hide Times;
    if s < 0.0 {
      GridIgnoresSign(x, s);
      GridIgnoresSign(y, s);
    }
    var j :| x == Times(j, Abs(s));
    var k :| y == Times(k, Abs(s));
    GapForPositive(j, k, Abs(s));
  }

  lemma SnapIsMonotone(x: real, y: real, s: real)
    requires x <= y
    ensures RoundToStep(x, s) <= RoundToStep(y, s)
  {
    if Usable(s) && x < y {
      hide RoundToStep;
      var a, b := RoundToStep(x, s), RoundToStep(y, s);
      SnapIsOnGrid(x, s);
      SnapIsOnGrid(y, s);
      SnapIsNearest(x, s, b);
      SnapIsNearest(y, s, a);
      if a > b { GridGap(a, b, s); }
    }
  }

  // There and back: snapping to a new step, then to the old one, then to the new
  // one again, ends where the first snap led, for a value on the old grid.
  lemma SnapThereAndBack(x: real, s: real, s': real)
    requires Usable(s) && Usable(s') && OnGrid(x, s)
    ensures RoundToStep(RoundToStep(RoundToStep(x, s'), s), s') == RoundToStep(x, s')
  {
    hide RoundToStep, OnGrid;
    var x' := RoundToStep(x, s');
    var x'' := RoundToStep(x', s);
    SnapIsOnGrid(x, s');
    SnapIsNearest(x, s', x');
    SnapIsNearest(x', s, x);
    if Abs(x'' - x') == 0.5 * Abs(s') && x'' != x {
      SnapIsOnGrid(x', s);
      GridGap(x'', x, s);
      assert Abs(s') == Abs(s);
      if s != s' { GridIgnoresSign(x, s); }
      SnapKeepsGrid(x, s');
    }
    SnapIsUnique(x'', s', x');
  }
}
