/**
 * The floating-point library calls of the coordinate classes (java.lang.Math and
 * java.util.Objects.hash) are not modelled: they are given to every operation as a
 * Platform value, and the few laws a proof needs are collected in Lawful.
 */
module Numerics {
  import opened JavaLang

  /** Math.PI */
  const PI: real := 3.141592653589793

  datatype Platform = Platform(
    sqrt: real -> real,
    sin: real -> real,
    cos: real -> real,
    acos: real -> real,
    atan2: (real, real) -> real,
    objectsHash: seq<real> -> int32)

  /** The laws of the exact functions that the proofs rely on, and no more. */
  ghost predicate Lawful(p: Platform)
  {
    && (forall v :: v >= 0.0 ==> p.sqrt(v) >= 0.0 && p.sqrt(v) * p.sqrt(v) == v)
    && p.sqrt(0.0) == 0.0
    && p.sin(0.0) == 0.0
    && p.cos(0.0) == 1.0
    && (forall a :: p.sin(a) * p.sin(a) + p.cos(a) * p.cos(a) == 1.0)
    && (forall dy, dx :: dy >= 0.0 ==> 0.0 <= p.atan2(dy, dx) <= PI)
    && (forall dx :: dx > 0.0 ==> p.atan2(0.0, dx) == 0.0)
  }

  /** Math.toRadians */
  function ToRadians(degrees: real): real
  {
    degrees / 180.0 * PI
  }

  /** Math.toDegrees */
  function ToDegrees(radians: real): real
  {
    radians * 180.0 / PI
  }

  /** Math.pow(v, 2) */
  function Square(v: real): (r: real)
    ensures r >= 0.0
  {
    v * v
  }

  /** Math.abs */
  function Abs(v: real): (r: real)
    ensures r >= 0.0 && (r == v || r == -v)
  {
    if v < 0.0 then -v else v
  }

  /** A square is zero exactly when its base is. */
  lemma SquareZeroIff(v: real)
    ensures Square(v) == 0.0 <==> v == 0.0
  {
    if v > 0.0 {
      calc { Square(v); == v * v; > 0.0; }
    } else if v < 0.0 {
      calc { Square(v); == (-v) * (-v); > 0.0; }
    }
  }

  /** A square root is zero exactly when its argument is. */
  lemma SqrtZeroIff(p: Platform, v: real)
    requires Lawful(p) && v >= 0.0
    ensures p.sqrt(v) == 0.0 <==> v == 0.0
  {
    if p.sqrt(v) == 0.0 {
      assert v == p.sqrt(v) * p.sqrt(v);
    }
  }

  /** Squaring is strictly increasing on the non-negative reals. */
  lemma SquareIncreasing(a: real, b: real)
    requires 0.0 <= a < b
    ensures Square(a) < Square(b)
  {
    calc {
      Square(a);
      == a * a;
      <= a * b;
      < b * b;
      == Square(b);
    }
  }

  /** A value whose magnitude is below bound has a square below bound's square. */
  lemma SquareBelow(v: real, bound: real)
    requires Abs(v) < bound
    ensures Square(v) < Square(bound)
  {
    assert Square(v) == Square(Abs(v));
    SquareIncreasing(Abs(v), bound);
  }

  /** A value whose square is below the square of a non-negative bound has a magnitude below it. */
  lemma SquareAbove(v: real, bound: real)
    requires 0.0 <= bound && Square(v) < Square(bound)
    ensures Abs(v) < bound
  {
    assert Square(v) == Square(Abs(v));
    if bound < Abs(v) {
      SquareIncreasing(bound, Abs(v));
    }
  }

  /** The square root of the square of a non-negative value is that value. */
  lemma SqrtOfSquare(p: Platform, v: real)
    requires Lawful(p) && v >= 0.0
    ensures p.sqrt(Square(v)) == v
  {
    var s := p.sqrt(Square(v));
    assert s >= 0.0 && Square(s) == Square(v);
    if s < v {
      SquareIncreasing(s, v);
    } else if v < s {
      SquareIncreasing(v, s);
    }
  }
}
