/**
 * The rounding helpers of the bid calculator: `Math.round` and the three
 * money/quantity helpers built on it (toCents, centsMul, round).
 *
 * Numbers are exact reals. `Math.round` rounds to the nearest integer and
 * breaks a tie toward +infinity, which is `(x + 1/2).Floor`.
 */
module JsMath {

  /** `Math.round`: the unique integer n with n - 1/2 <= x < n + 1/2. */
  function JsRound(x: real): (n: int)
    ensures n as real - 0.5 <= x < n as real + 0.5
  {
    (x + 0.5).Floor
  }

  /** `toCents`: a dollar amount converted to a whole number of cents. */
  function ToCents(dollars: real): (c: int)
    ensures c as real - 0.5 <= dollars * 100.0 < c as real + 0.5
  {
    JsRound(dollars * 100.0)
  }

  /** `centsMul`: a cent amount scaled by a factor, rounded to a whole cent. */
  function CentsMul(cents: int, factor: real): (r: int)
    ensures r as real - 0.5 <= cents as real * factor < r as real + 0.5
  {
    JsRound(cents as real * factor)
  }

  /** `round`: a quantity rounded to two decimal places. */
  function Round2(v: real): (r: real)
    ensures v - 0.005 < r <= v + 0.005
    ensures (r * 100.0).Floor as real == r * 100.0
  {
    JsRound(v * 100.0) as real / 100.0
  }

  // ---- Math.round ----

  /** The bound in JsRound's contract determines its result: both directions. */
  lemma JsRoundCharacterized(x: real, n: int)
    ensures JsRound(x) == n <==> n as real - 0.5 <= x < n as real + 0.5
  {
    var m := JsRound(x);
    if n as real - 0.5 <= x < n as real + 0.5 {
      // two integers strictly less than 1 apart are equal
      assert -1.0 < (m - n) as real < 1.0;
    }
  }

  lemma JsRoundMonotone(x: real, y: real)
    requires x <= y
    ensures JsRound(x) <= JsRound(y)
  {
    assert JsRound(x) as real - 0.5 <= y;
  }

  /** An integer is left alone by rounding. */
  lemma JsRoundOfInt(k: int)
    ensures JsRound(k as real) == k
  {
    JsRoundCharacterized(k as real, k);
  }

  // ---- toCents ----

  lemma ToCentsMonotone(a: real, b: real)
    requires a <= b
    ensures ToCents(a) <= ToCents(b)
  {
    JsRoundMonotone(a * 100.0, b * 100.0);
  }

  /** A whole number of dollars converts to exactly 100 cents per dollar. */
  lemma ToCentsWhole(d: int)
    ensures ToCents(d as real) == 100 * d
  {
    JsRoundOfInt(100 * d);
  }

  lemma ToCentsNonnegative(v: real)
    requires v >= 0.0
    ensures ToCents(v) >= 0
  {
    ToCentsMonotone(0.0, v);
    JsRoundOfInt(0);
  }

  // ---- centsMul ----

  /** Scaling by a non-negative factor keeps the order of cent amounts. */
  lemma CentsMulMonotone(c1: int, c2: int, factor: real)
    requires c1 <= c2 && factor >= 0.0
    ensures CentsMul(c1, factor) <= CentsMul(c2, factor)
  {
    assert c1 as real * factor <= c2 as real * factor by {
      assert (c2 - c1) as real * factor >= 0.0;
    }
    JsRoundMonotone(c1 as real * factor, c2 as real * factor);
  }

  lemma CentsMulNonnegative(c: int, factor: real)
    requires c >= 0 && factor >= 0.0
    ensures CentsMul(c, factor) >= 0
  {
    CentsMulMonotone(0, c, factor);
    JsRoundOfInt(0);
  }

  /**
   * Scaling a sum and summing the scaled parts differ by at most one cent:
   * each of the three roundings moves its value by at most half a cent.
   */
  lemma CentsMulAdditive(a: int, b: int, factor: real)
    ensures -1 <= CentsMul(a + b, factor) - CentsMul(a, factor) - CentsMul(b, factor) <= 1
  {
    var s, x, y := CentsMul(a + b, factor), CentsMul(a, factor), CentsMul(b, factor);
    assert (a + b) as real * factor == a as real * factor + b as real * factor;
    assert -1.5 < (s - x - y) as real < 1.5;
  }

  // ---- round ----

  lemma Round2Monotone(a: real, b: real)
    requires a <= b
    ensures Round2(a) <= Round2(b)
  {
    JsRoundMonotone(a * 100.0, b * 100.0);
  }

  /** Rounding an already rounded quantity changes nothing. */
  lemma Round2Idempotent(v: real)
    ensures Round2(Round2(v)) == Round2(v)
  {
    var n := JsRound(v * 100.0);
    assert Round2(v) * 100.0 == n as real;
    JsRoundOfInt(n);
  }
}
