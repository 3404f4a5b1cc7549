/**
 * AbstractCoordinate.round: rounding to DELTA decimal places with RoundingMode.HALF_UP,
 * which sends ties away from zero. The model works on exact reals; see README for the
 * double conversions it leaves out.
 */
module Rounding {

  /** AbstractCoordinate.DELTA: the number of decimal places kept. */
  const DELTA: nat := 10

  /** 10^DELTA: the number of grid steps per unit. */
  const Scale: real := 10000000000.0

  /** Half a grid step, the largest distance rounding moves a value. */
  const HalfStep: real := 0.5 / Scale

  function Pow10(n: nat): nat
  {
    if n == 0 then 1 else 10 * Pow10(n - 1)
  }

  lemma ScaleIsTenToTheDelta()
    ensures Scale == Pow10(DELTA) as real
  {
  }

  /** A value with at most DELTA decimal places: an integer multiple of 10^-DELTA. */
  predicate OnGrid(v: real)
  {
    (v * Scale).Floor as real == v * Scale
  }

  /** The number of grid steps HALF_UP rounding gives to v. */
  function Steps(v: real): int
  {
    if v >= 0.0 then (v * Scale + 0.5).Floor else -((-v) * Scale + 0.5).Floor
  }

  /** AbstractCoordinate.round */
  function Round(v: real): (r: real)
    ensures OnGrid(r)
    ensures -HalfStep <= r - v <= HalfStep
  {
    Steps(v) as real / Scale
  }

  /** Every grid point is left where it is. */
  lemma RoundKeepsGridPoints(v: real)
    requires OnGrid(v)
    ensures Round(v) == v
  {
    var k := (v * Scale).Floor;
    assert v == k as real / Scale;
    if v >= 0.0 {
      assert (v * Scale + 0.5).Floor == k;
    } else {
      assert ((-v) * Scale + 0.5).Floor == -k;
    }
  }

  /** Rounding twice is rounding once. */
  lemma RoundIdempotent(v: real)
    ensures Round(Round(v)) == Round(v)
  {
    RoundKeepsGridPoints(Round(v));
  }

  /** HALF_UP: a value exactly half-way between two grid points goes to the one farther from zero. */
  lemma RoundTiesAwayFromZero(k: int)
    ensures Round((k as real + 0.5) / Scale) == (if k >= 0 then k + 1 else k) as real / Scale
  {
    var v := (k as real + 0.5) / Scale;
    assert v * Scale == k as real + 0.5;
    if k >= 0 {
      assert (v * Scale + 0.5).Floor == k + 1;
    } else {
      assert (-v) * Scale + 0.5 == -k as real;
      assert ((-v) * Scale + 0.5).Floor == -k;
    }
  }

  /** Rounding is symmetric about zero. */
  lemma RoundOdd(v: real)
    ensures Round(-v) == -Round(v)
  {
    if v > 0.0 {
      assert Steps(-v) == -Steps(v);
    } else if v < 0.0 {
      assert Steps(-v) == -Steps(v);
    }
  }

  /** Rounding never reverses the order of two values. */
  lemma RoundMonotone(v: real, w: real)
    requires v <= w
    ensures Round(v) <= Round(w)
  {
    if 0.0 <= v {
      assert (v * Scale + 0.5).Floor <= (w * Scale + 0.5).Floor;
    } else if w < 0.0 {
      assert ((-w) * Scale + 0.5).Floor <= ((-v) * Scale + 0.5).Floor;
    } else {
      assert Steps(v) <= 0 <= Steps(w);
    }
    assert Steps(v) <= Steps(w);
  }

  /** The values that round to at most the grid point k/Scale are exactly those below the
      half-way point above it. */
  lemma RoundAtMost(v: real, k: nat)
    ensures Round(v) <= k as real / Scale <==> v < (k as real + 0.5) / Scale
  {
    if v >= 0.0 {
      var s := (v * Scale + 0.5).Floor;
      assert Round(v) <= k as real / Scale <==> s <= k;
      assert s <= k <==> v * Scale + 0.5 < k as real + 1.0;
    } else {
      assert Steps(v) <= 0;
    }
  }

  /** Mirror image of RoundAtMost below zero. */
  lemma RoundAtLeast(v: real, k: nat)
    ensures Round(v) >= -(k as real / Scale) <==> v > -((k as real + 0.5) / Scale)
  {
    RoundOdd(v);
    RoundAtMost(-v, k);
  }
}
