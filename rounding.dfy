/**
 * JavaScript's Math.round, and the per-mille tax both calculators compute
 * with it ("Math.round(valor * 4 / 1000)").
 */
module Rounding {

  /**
   * Math.round: the nearest integer, halves rounded up (towards +infinity,
   * also for negative values).
   */
  function Round(x: real): (n: int)
    ensures n as real - 0.5 <= x < n as real + 0.5
  {
    (x + 0.5).Floor
  }

  /** Rounding a real that is within half of n gives n. */
  lemma RoundIs(x: real, n: int)
    requires n as real - 0.5 <= x < n as real + 0.5
    ensures Round(x) == n
  {
  }

  /** The 4x1000 tax of an amount v, rounded as Math.round does. */
  function PerMille4(v: int): (t: int)
  {
    Round(v as real * 4.0 / 1000.0)
  }

  /**
   * The rounded tax equals the integer expression (4v + 500) / 1000 (division
   * rounding down), so the money arithmetic stays in integers.
   */
  lemma PerMille4Integer(v: int)
    ensures PerMille4(v) == (4 * v + 500) / 1000
  {
    var q := (4 * v + 500) / 1000;
    var r := (4 * v + 500) % 1000;
    assert 4 * v + 500 == 1000 * q + r && 0 <= r < 1000;
    assert v as real * 4.0 / 1000.0 == q as real - 0.5 + r as real / 1000.0;
    RoundIs(v as real * 4.0 / 1000.0, q);
  }

  /** For a non-negative amount the tax lies between 0 and the amount. */
  lemma PerMille4Bounds(v: int)
    requires v >= 0
    ensures 0 <= PerMille4(v) <= v
  {
    PerMille4Integer(v);
  }
}
