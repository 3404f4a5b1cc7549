/**
 * The older class org.wahlzeit.model.Coordinate: a point in three dimensions with a
 * tolerant equality. Its fields are private and set only by the constructor, so it is a
 * value. Unlike the newer hierarchy it does not check getDistance's argument for null.
 */
module LegacyCoordinates {
  import opened JavaLang
  import opened Numerics

  /** Coordinate.EPSILON: the largest per-axis difference, exclusive, of two equal points. */
  const EPSILON: real := 0.0000001

  datatype Coordinate = Coordinate(x: real, y: real, z: real)
  {
    /** The sum of the squared per-axis differences. */
    function SquaredDistance(coord: Coordinate): (r: real)
      ensures r >= 0.0
    {
      Square(x - coord.x) + Square(y - coord.y) + Square(z - coord.z)
    }

    /** getDistance: the Euclidean distance. The argument is dereferenced without a check,
        so null ends in a NullPointerException. */
    function GetDistance(p: Platform, coord: Option<Coordinate>): (r: Outcome<real>)
      ensures coord.None? ==> r == Throw(NullPointerException)
      ensures coord.Some? ==> r.Return?
      ensures Lawful(p) && coord.Some? ==>
        r.value >= 0.0 && r.value * r.value == SquaredDistance(coord.value)
    {
      match coord
      case None => Throw(NullPointerException)
      case Some(c) => Return(p.sqrt(SquaredDistance(c)))
    }

    /** isEqual: null is never equal; otherwise each axis must differ by less than EPSILON. */
    function IsEqual(coord: Option<Coordinate>): (r: bool)
      ensures coord.None? ==> !r
    {
      coord.Some? &&
      Abs(x - coord.value.x) < EPSILON &&
      Abs(y - coord.value.y) < EPSILON &&
      Abs(z - coord.value.z) < EPSILON
    }

    /** equals: false unless the argument is a Coordinate, else isEqual. */
    function Equals(obj: Object<Coordinate>): (r: bool)
      ensures r <==> obj.Instance? && IsEqual(Some(obj.value))
    {
      match obj
      case Instance(c) => IsEqual(Some(c))
      case _ => false
    }

    /** hashCode: Objects.hash(x, y, z). */
    function HashCode(p: Platform): int32
    {
      p.objectsHash([x, y, z])
    }
  }

  /** isEqual is reflexive and symmetric. */
  lemma IsEqualReflexiveSymmetric(a: Coordinate, b: Coordinate)
    ensures a.IsEqual(Some(a))
    ensures a.IsEqual(Some(b)) <==> b.IsEqual(Some(a))
  {
    assert Abs(a.x - b.x) == Abs(b.x - a.x);
    assert Abs(a.y - b.y) == Abs(b.y - a.y);
    assert Abs(a.z - b.z) == Abs(b.z - a.z);
  }

  /** isEqual, and with it equals, is not transitive: tolerances add up along a chain. */
  lemma IsEqualNotTransitive()
    ensures
      var a, b, c := Coordinate(0.0, 0.0, 0.0), Coordinate(0.00000006, 0.0, 0.0), Coordinate(0.00000012, 0.0, 0.0);
      a.IsEqual(Some(b)) && b.IsEqual(Some(c)) && !a.IsEqual(Some(c))
  {
  }

  /** hashCode agrees with equals on every pair of points. */
  ghost predicate HashRespectsEquals(p: Platform)
  {
    forall a: Coordinate, b: Coordinate :: a.Equals(Instance(b)) ==> a.HashCode(p) == b.HashCode(p)
  }

  /** Half of EPSILON: the length of one link in a chain of equal points. */
  const STEP: real := 0.00000005

  /** Along a chain of points STEP apart, a hash that agrees with equals never changes. */
  lemma {:induction false} HashAlongChain(p: Platform, s: real, n: nat)
    requires HashRespectsEquals(p)
    ensures Coordinate(s, 0.0, 0.0).HashCode(p) == Coordinate(s + n as real * STEP, 0.0, 0.0).HashCode(p)
  {
    if n > 0 {
      HashAlongChain(p, s, n - 1);
      var a := Coordinate(s + (n - 1) as real * STEP, 0.0, 0.0);
      var b := Coordinate(s + n as real * STEP, 0.0, 0.0);
      assert a.Equals(Instance(b));
    }
  }

  /** isEqual is a tolerance, not an equivalence, so hashCode can agree with equals only by
      giving every point on the x axis the same code: a chain of points less than EPSILON
      apart joins any two of them, and each link forces equal hash codes. Objects.hash of
      the three doubles tells such points apart, so the class breaks the equals/hashCode
      contract. */
  lemma HashRespectingEqualsIsConstant(p: Platform, s: real, t: real)
    requires HashRespectsEquals(p)
    ensures Coordinate(s, 0.0, 0.0).HashCode(p) == Coordinate(t, 0.0, 0.0).HashCode(p)
  {
    var lo, hi := if s <= t then s else t, if s <= t then t else s;
    var n := ((hi - lo) / STEP).Floor;
    assert n as real * STEP <= hi - lo < n as real * STEP + STEP;
    HashAlongChain(p, lo, n);
    var a := Coordinate(lo + n as real * STEP, 0.0, 0.0);
    assert a.Equals(Instance(Coordinate(hi, 0.0, 0.0)));
  }

  /** Objects.hash over doubles hashes 0.0 and 5e-8 to different codes (their bit patterns
      differ), so hashCode does not agree with equals. */
  lemma ObjectsHashBreaksEquals(p: Platform)
    requires p.objectsHash([0.0, 0.0, 0.0]) != p.objectsHash([STEP, 0.0, 0.0])
    ensures !HashRespectsEquals(p)
  {
    if HashRespectsEquals(p) {
      HashRespectingEqualsIsConstant(p, 0.0, STEP);
    }
  }

  /** Points that are isEqual are less than sqrt(3) * EPSILON apart. */
  lemma IsEqualBoundsDistance(a: Coordinate, b: Coordinate)
    requires a.IsEqual(Some(b))
    ensures a.SquaredDistance(b) < 3.0 * Square(EPSILON)
  {
    SquareBelow(a.x - b.x, EPSILON);
    SquareBelow(a.y - b.y, EPSILON);
    SquareBelow(a.z - b.z, EPSILON);
  }

  /** Points less than EPSILON apart are isEqual. */
  lemma CloseIsEqual(a: Coordinate, b: Coordinate)
    requires a.SquaredDistance(b) < Square(EPSILON)
    ensures a.IsEqual(Some(b))
  {
    SquareAbove(a.x - b.x, EPSILON);
    SquareAbove(a.y - b.y, EPSILON);
    SquareAbove(a.z - b.z, EPSILON);
  }

  /** The distance is symmetric, is zero from a point to itself, and is zero only there. */
  lemma DistanceProperties(p: Platform, a: Coordinate, b: Coordinate)
    requires Lawful(p)
    ensures a.GetDistance(p, Some(b)) == b.GetDistance(p, Some(a))
    ensures a.GetDistance(p, Some(a)) == Return(0.0)
    ensures a.GetDistance(p, Some(b)) == Return(0.0) <==> a == b
  {
    assert a.SquaredDistance(a) == 0.0;
    assert a.SquaredDistance(b) == b.SquaredDistance(a);
    SqrtZeroIff(p, a.SquaredDistance(b));
    SquareZeroIff(a.x - b.x);
    SquareZeroIff(a.y - b.y);
    SquareZeroIff(a.z - b.z);
  }

  /** The distance test's first pair: (0, 1, 2) and (2, 3, 4) are sqrt(12) apart. */
  lemma DistanceExampleRootTwelve(p: Platform)
    requires Lawful(p)
    ensures var r := Coordinate(0.0, 1.0, 2.0).GetDistance(p, Some(Coordinate(2.0, 3.0, 4.0)));
      r.Return? && r.value > 0.0 && r.value * r.value == 12.0
  {
    assert Coordinate(0.0, 1.0, 2.0).SquaredDistance(Coordinate(2.0, 3.0, 4.0)) == 12.0;
    SqrtZeroIff(p, 12.0);
  }

  /** The distance test's last pair: (4, 1, -2) and (2, 3, -1) are exactly 3 apart. */
  lemma DistanceExampleThree(p: Platform)
    requires Lawful(p)
    ensures Coordinate(4.0, 1.0, -2.0).GetDistance(p, Some(Coordinate(2.0, 3.0, -1.0))) == Return(3.0)
  {
    assert Coordinate(4.0, 1.0, -2.0).SquaredDistance(Coordinate(2.0, 3.0, -1.0)) == Square(3.0);
    SqrtOfSquare(p, 3.0);
  }
}
