/**
 * The coordinate hierarchy: the interface Coordinate, its base class AbstractCoordinate and
 * the two value classes CartesianCoordinate and SphericCoordinate. Both classes are
 * immutable, so the hierarchy is one datatype with a variant per class; each member
 * function matches on the variant where a subclass overrides the base-class method.
 * A null argument is Option.None, an exception is Outcome.Throw.
 */
module Coordinates {
  import opened JavaLang
  import opened Asserts
  import opened Rounding
  import opened Numerics

  /** AbstractCoordinate.EARTH_RADIUS, in kilometres. */
  const EARTH_RADIUS: real := 6371.0

  const NULL_COORDINATE: Message := Text("Coordinate is null!")
  const INVALID_POSITION: Message := Text("Invalid position!")

  /** The range SphericCoordinate.assertClassInvariants accepts. */
  predicate InRange(latitude: real, longitude: real)
  {
    -90.0 <= latitude <= 90.0 && -180.0 <= longitude <= 180.0
  }

  /** Math.pow(a.x - b.x, 2) + Math.pow(a.y - b.y, 2) + Math.pow(a.z - b.z, 2) */
  function SquaredDistance(a: Coordinate, b: Coordinate): (r: real)
    requires a.Cartesian? && b.Cartesian?
    ensures r >= 0.0
  {
    Square(a.x - b.x) + Square(a.y - b.y) + Square(a.z - b.z)
  }

  /** The constructor SphericCoordinate(double, double): rounds both angles, then checks the
      class invariant and throws IllegalStateException when it fails. */
  function NewSpheric(latitude: real, longitude: real): (r: Outcome<Coordinate>)
    ensures r.Return? <==> InRange(Round(latitude), Round(longitude))
    ensures r.Return? ==> r.value == Spheric(Round(latitude), Round(longitude)) && r.value.Valid()
    ensures r.Throw? ==> r.exception == IllegalStateException(INVALID_POSITION)
  {
    var c := Spheric(Round(latitude), Round(longitude));
    if c.Valid() then Return(c) else Throw(IllegalStateException(INVALID_POSITION))
  }

  /** The central angle between two points, in the atan2 form that doGetSphericDistance
      uses, from the sines and cosines of both latitudes and of the longitude difference. */
  function CentralAngle(p: Platform, sinLat1: real, cosLat1: real, sinLat2: real, cosLat2: real,
                        sinDeltaLong: real, cosDeltaLong: real): (r: real)
    ensures Lawful(p) ==> 0.0 <= r <= PI
  {
    var numeratorA := Square(cosLat2 * sinDeltaLong);
    var numeratorB := Square(cosLat1 * sinLat2 - sinLat1 * cosLat2 * cosDeltaLong);
    var numerator := p.sqrt(numeratorA + numeratorB);
    var denominator := sinLat1 * sinLat2 + cosLat1 * cosLat2 * cosDeltaLong;
    p.atan2(numerator, denominator)
  }

  /** SphericCoordinate.doGetSphericDistance once both points are spheric: the Earth radius
      times the central angle, rounded. */
  function GreatCircle(p: Platform, latitude1: real, longitude1: real, latitude2: real, longitude2: real): (r: real)
    ensures OnGrid(r)
  {
    var radLat1 := ToRadians(latitude1);
    var radLat2 := ToRadians(latitude2);
    var deltaLong := Abs(ToRadians(longitude1) - ToRadians(longitude2));
    Round(EARTH_RADIUS * CentralAngle(p, p.sin(radLat1), p.cos(radLat1), p.sin(radLat2), p.cos(radLat2),
                                      p.sin(deltaLong), p.cos(deltaLong)))
  }

  datatype Coordinate =
    | Cartesian(x: real, y: real, z: real)
    | Spheric(latitude: real, longitude: real)
  {
    /** The class invariant. CartesianCoordinate has none: its constructor stores x, y and z
        as given, without rounding and without an on-sphere check. */
    predicate Valid()
    {
      Spheric? ==> InRange(latitude, longitude)
    }

    /** asCartesianCoordinate: a copy for a Cartesian coordinate, the spherical-to-Cartesian
        formula for a spheric one (whose result the Cartesian constructor stores unrounded). */
    function AsCartesianCoordinate(p: Platform): (r: Coordinate)
      ensures r.Cartesian?
      ensures Cartesian? ==> r == this
    {
      match this
      case Cartesian(_, _, _) => this
      case Spheric(lat, long) =>
        var radLat := ToRadians(lat);
        var radLong := ToRadians(long);
        var rMulSinLat := EARTH_RADIUS * p.sin(radLat);
        Cartesian(rMulSinLat * p.cos(radLong), rMulSinLat * p.sin(radLong), EARTH_RADIUS * p.cos(radLat))
    }

    /** asSphericCoordinate: a copy for a spheric coordinate; for a Cartesian one, the
        Cartesian-to-spherical formula fed to the checking constructor, which may throw.
        Off the sphere, where |z| exceeds the Earth radius, Math.acos returns NaN, and the
        constructor's rounding, new BigDecimal(NaN), throws NumberFormatException. */
    function AsSphericCoordinate(p: Platform): (r: Outcome<Coordinate>)
      ensures Spheric? ==> r == Return(this)
      ensures Cartesian? && Abs(z) > EARTH_RADIUS ==> r == Throw(NumberFormatException)
      ensures r.Return? ==> r.value.Spheric?
      ensures Valid() && r.Return? ==> r.value.Valid()
      ensures Cartesian? && Abs(z) <= EARTH_RADIUS && r.Throw? ==>
        r.exception == IllegalStateException(INVALID_POSITION)
    {
      match this
      case Spheric(_, _) => Return(this)
      case Cartesian(x, y, z) =>
        if Abs(z / EARTH_RADIUS) > 1.0 then Throw(NumberFormatException)
        else NewSpheric(ToDegrees(p.acos(z / EARTH_RADIUS)), ToDegrees(p.atan2(y, x)))
    }

    /** CartesianCoordinate.doGetCartesianDistance: the Euclidean distance. */
    function DoGetCartesianDistance(p: Platform, coord: Coordinate): (r: real)
      requires Cartesian?
      ensures Lawful(p) ==> r >= 0.0 && r * r == SquaredDistance(this, coord.AsCartesianCoordinate(p))
    {
      p.sqrt(SquaredDistance(this, coord.AsCartesianCoordinate(p)))
    }

    /** getCartesianDistance. CartesianCoordinate overrides it with a null check only;
        SphericCoordinate inherits AbstractCoordinate's, which also rejects a negative result. */
    function GetCartesianDistance(p: Platform, coord: Option<Coordinate>): (r: Outcome<real>)
      ensures coord.None? ==> r == Throw(IllegalArgumentException(NULL_COORDINATE))
      ensures Lawful(p) && coord.Some? ==> r.Return? && r.value >= 0.0
      ensures Lawful(p) && coord.Some? ==>
        r.value * r.value == SquaredDistance(AsCartesianCoordinate(p), coord.value.AsCartesianCoordinate(p))
    {
      match AssertNotNull(coord, NULL_COORDINATE)
      case Throw(e) => Throw(e)
      case Return(_) =>
        match this
        case Cartesian(_, _, _) => Return(DoGetCartesianDistance(p, coord.value))
        case Spheric(_, _) =>
          var distance := AsCartesianCoordinate(p).DoGetCartesianDistance(p, coord.value);
          match AssertPositiveZeroReal(distance, InvalidDistance(distance))
          case Throw(e) => Throw(e)
          case Return(_) => Return(distance)
    }

    /** AbstractCoordinate.getDistance: forwards to getCartesianDistance. */
    function GetDistance(p: Platform, coord: Option<Coordinate>): (r: Outcome<real>)
      ensures r == GetCartesianDistance(p, coord)
      ensures coord.None? ==> r.Throw?
      ensures Lawful(p) && coord.Some? ==> r.Return? && r.value >= 0.0
    {
      GetCartesianDistance(p, coord)
    }

    /** SphericCoordinate.doGetSphericDistance: converts the argument, which may throw, and
        applies the great-circle formula. */
    function DoGetSphericDistance(p: Platform, coord: Coordinate): (r: Outcome<real>)
      requires Spheric?
      ensures r.Throw? <==> coord.AsSphericCoordinate(p).Throw?
    {
      match coord.AsSphericCoordinate(p)
      case Throw(e) => Throw(e)
      case Return(tmp) => Return(GreatCircle(p, latitude, longitude, tmp.latitude, tmp.longitude))
    }

    /** AbstractCoordinate.getSphericDistance, which SphericCoordinate inherits: a null check,
        then doGetSphericDistance on this coordinate's spheric form, then a check that the
        result is not negative. */
    function AbstractGetSphericDistance(p: Platform, coord: Option<Coordinate>): (r: Outcome<real>)
      requires Spheric?
      ensures coord.None? ==> r == Throw(IllegalArgumentException(NULL_COORDINATE))
    {
      match AssertNotNull(coord, NULL_COORDINATE)
      case Throw(e) => Throw(e)
      case Return(_) =>
        match DoGetSphericDistance(p, coord.value)
        case Throw(e) => Throw(e)
        case Return(distance) =>
          match AssertPositiveZeroReal(distance, InvalidDistance(distance))
          case Throw(e) => Throw(e)
          case Return(_) => Return(distance)
    }

    /** getSphericDistance. CartesianCoordinate overrides the inherited version by converting
        itself first, which may throw before the argument is even looked at. */
    function GetSphericDistance(p: Platform, coord: Option<Coordinate>): (r: Outcome<real>)
      ensures Spheric? ==> r == AbstractGetSphericDistance(p, coord)
      ensures Cartesian? && AsSphericCoordinate(p).Throw? ==>
        r == Throw(AsSphericCoordinate(p).exception)
      ensures Cartesian? && AsSphericCoordinate(p).Return? ==>
        r == AsSphericCoordinate(p).value.AbstractGetSphericDistance(p, coord)
    {
      match this
      case Spheric(_, _) => AbstractGetSphericDistance(p, coord)
      case Cartesian(_, _, _) =>
        match AsSphericCoordinate(p)
        case Throw(e) => Throw(e)
        case Return(s) => s.AbstractGetSphericDistance(p, coord)
    }

    /** isEqual. CartesianCoordinate compares x, y and z with the argument's Cartesian form;
        SphericCoordinate compares latitude and longitude with its spheric form, whose
        conversion may throw. Null is never equal. */
    function IsEqual(p: Platform, coord: Option<Coordinate>): (r: Outcome<bool>)
      ensures coord.None? ==> r == Return(false)
      ensures Cartesian? ==> r.Return?
    {
      if coord.None? then Return(false)
      else
        match this
        case Cartesian(x, y, z) =>
          var tmp := coord.value.AsCartesianCoordinate(p);
          Return(x == tmp.x && y == tmp.y && z == tmp.z)
        case Spheric(lat, long) =>
          match coord.value.AsSphericCoordinate(p)
          case Throw(e) => Throw(e)
          case Return(tmp) => Return(lat == tmp.latitude && long == tmp.longitude)
    }

    /** AbstractCoordinate.isEqual, which both subclasses override: compares the Cartesian
        forms of both sides. */
    function AbstractIsEqual(p: Platform, coord: Option<Coordinate>): (r: bool)
      ensures coord.None? ==> !r
    {
      if coord.None? then false
      else
        var thisCart := AsCartesianCoordinate(p);
        var tmp := coord.value.AsCartesianCoordinate(p);
        thisCart.x == tmp.x && thisCart.y == tmp.y && thisCart.z == tmp.z
    }

    /** AbstractCoordinate.equals: false unless the argument is a Coordinate, else isEqual. */
    function Equals(p: Platform, obj: Object<Coordinate>): (r: Outcome<bool>)
      ensures !obj.Instance? ==> r == Return(false)
      ensures obj.Instance? ==> r == IsEqual(p, Some(obj.value))
    {
      match obj
      case Instance(c) => IsEqual(p, Some(c))
      case _ => Return(false)
    }

    /** hashCode: Objects.hash of x, y, z for CartesianCoordinate, of latitude and longitude
        for SphericCoordinate. */
    function HashCode(p: Platform): (r: int32)
      ensures Cartesian? ==> r == AbstractHashCode(p)
    {
      match this
      case Cartesian(x, y, z) => p.objectsHash([x, y, z])
      case Spheric(lat, long) => p.objectsHash([lat, long])
    }

    /** AbstractCoordinate.hashCode, which both subclasses override: Objects.hash of the
        Cartesian form. */
    function AbstractHashCode(p: Platform): int32
    {
      var thisCart := AsCartesianCoordinate(p);
      p.objectsHash([thisCart.x, thisCart.y, thisCart.z])
    }
  }

  /** The copy constructor CartesianCoordinate(Coordinate). */
  function CopyCartesian(p: Platform, coord: Option<Coordinate>): (r: Outcome<Coordinate>)
    ensures r.Throw? <==> coord.None?
    ensures coord.None? ==> r == Throw(IllegalArgumentException(NULL_COORDINATE))
    ensures r.Return? ==> r.value.Cartesian?
    ensures coord.Some? && coord.value.Cartesian? ==> r == Return(coord.value)
    ensures coord.Some? && coord.value.Spheric? ==> r == Return(coord.value.AsCartesianCoordinate(p))
  {
    match AssertNotNull(coord, NULL_COORDINATE)
    case Throw(e) => Throw(e)
    case Return(_) => Return(coord.value.AsCartesianCoordinate(p))
  }

  /** The copy constructor SphericCoordinate(Coordinate). It does not re-check the invariant;
      the copied object already satisfies it. */
  function CopySpheric(p: Platform, coord: Option<Coordinate>): (r: Outcome<Coordinate>)
    ensures coord.None? ==> r == Throw(IllegalArgumentException(NULL_COORDINATE))
    ensures r.Return? ==> r.value.Spheric?
    ensures coord.Some? && coord.value.Spheric? ==> r == Return(coord.value)
    ensures coord.Some? && coord.value.Valid() && r.Return? ==> r.value.Valid()
    ensures coord.Some? && coord.value.Cartesian? ==> r == coord.value.AsSphericCoordinate(p)
  {
    match AssertNotNull(coord, NULL_COORDINATE)
    case Throw(e) => Throw(e)
    case Return(_) => coord.value.AsSphericCoordinate(p)
  }

  // ---------------------------------------------------------------------------------------
  // Construction and the range invariant

  /** A spheric coordinate is built exactly when both raw angles lie less than half a grid
      step outside their ranges: rounding happens before the check, and a tie on the
      boundary rounds away from zero, out of range. */
  lemma NewSphericAcceptsExactly(latitude: real, longitude: real)
    ensures NewSpheric(latitude, longitude).Return? <==>
      && -90.0 - HalfStep < latitude < 90.0 + HalfStep
      && -180.0 - HalfStep < longitude < 180.0 + HalfStep
  {
    var lat90: nat := 900000000000;
    var long180: nat := 1800000000000;
    assert lat90 as real / Scale == 90.0 && (lat90 as real + 0.5) / Scale == 90.0 + HalfStep;
    assert long180 as real / Scale == 180.0 && (long180 as real + 0.5) / Scale == 180.0 + HalfStep;
    RoundAtMost(latitude, lat90);
    RoundAtLeast(latitude, lat90);
    RoundAtMost(longitude, long180);
    RoundAtLeast(longitude, long180);
  }

  /** Every angle pair inside the ranges is accepted and stored on the grid. */
  lemma NewSphericAcceptsRange(latitude: real, longitude: real)
    requires InRange(latitude, longitude)
    ensures NewSpheric(latitude, longitude).Return?
    ensures OnGrid(latitude) && OnGrid(longitude) ==>
      NewSpheric(latitude, longitude) == Return(Spheric(latitude, longitude))
  {
    NewSphericAcceptsExactly(latitude, longitude);
    if OnGrid(latitude) && OnGrid(longitude) {
      RoundKeepsGridPoints(latitude);
      RoundKeepsGridPoints(longitude);
    }
  }

  /** Constructing from the stored angles of a built coordinate rebuilds the same coordinate. */
  lemma NewSphericStable(latitude: real, longitude: real)
    requires NewSpheric(latitude, longitude).Return?
    ensures var c := NewSpheric(latitude, longitude).value;
      NewSpheric(c.latitude, c.longitude) == Return(c)
  {
    RoundIdempotent(latitude);
    RoundIdempotent(longitude);
  }

  // ---------------------------------------------------------------------------------------
  // Equality and hash codes

  /** Between two Cartesian coordinates isEqual is exact equality of x, y and z, hence
      reflexive, symmetric and transitive. */
  lemma CartesianIsEqualIsExact(p: Platform, a: Coordinate, b: Coordinate, c: Coordinate)
    requires a.Cartesian? && b.Cartesian? && c.Cartesian?
    ensures a.IsEqual(p, Some(b)) == Return(a == b)
    ensures a.IsEqual(p, Some(a)) == Return(true)
    ensures a.IsEqual(p, Some(b)) == b.IsEqual(p, Some(a))
    ensures a.IsEqual(p, Some(b)) == Return(true) && b.IsEqual(p, Some(c)) == Return(true) ==>
      a.IsEqual(p, Some(c)) == Return(true)
  {
  }

  /** Between two spheric coordinates isEqual is exact equality of latitude and longitude,
      hence reflexive, symmetric and transitive. */
  lemma SphericIsEqualIsExact(p: Platform, a: Coordinate, b: Coordinate, c: Coordinate)
    requires a.Spheric? && b.Spheric? && c.Spheric?
    ensures a.IsEqual(p, Some(b)) == Return(a == b)
    ensures a.IsEqual(p, Some(a)) == Return(true)
    ensures a.IsEqual(p, Some(b)) == b.IsEqual(p, Some(a))
    ensures a.IsEqual(p, Some(b)) == Return(true) && b.IsEqual(p, Some(c)) == Return(true) ==>
      a.IsEqual(p, Some(c)) == Return(true)
  {
  }

  /** CartesianCoordinate's overrides of isEqual and hashCode agree with the base class's. */
  lemma CartesianOverridesAgree(p: Platform, a: Coordinate, coord: Option<Coordinate>)
    requires a.Cartesian?
    ensures a.IsEqual(p, coord) == Return(a.AbstractIsEqual(p, coord))
    ensures a.HashCode(p) == a.AbstractHashCode(p)
  {
  }

  /** The base-class hash code depends only on the Cartesian form, so it agrees with the
      base-class isEqual for coordinates of either kind. */
  lemma AbstractHashConsistent(p: Platform, a: Coordinate, b: Coordinate)
    requires a.AbstractIsEqual(p, Some(b))
    ensures a.AbstractHashCode(p) == b.AbstractHashCode(p)
  {
    var ca, cb := a.AsCartesianCoordinate(p), b.AsCartesianCoordinate(p);
    assert [ca.x, ca.y, ca.z] == [cb.x, cb.y, cb.z];
  }

  /** Two coordinates of the same class that are isEqual have the same hashCode. */
  lemma HashConsistent(p: Platform, a: Coordinate, b: Coordinate)
    requires a.Cartesian? == b.Cartesian?
    requires a.IsEqual(p, Some(b)) == Return(true)
    ensures a.HashCode(p) == b.HashCode(p)
  {
    if a.Cartesian? {
      assert [a.x, a.y, a.z] == [b.x, b.y, b.z];
    } else {
      assert [a.latitude, a.longitude] == [b.latitude, b.longitude];
    }
  }

  // ---------------------------------------------------------------------------------------
  // Distances

  /** Cartesian distance is symmetric, for coordinates of either kind. */
  lemma CartesianDistanceSymmetric(p: Platform, a: Coordinate, b: Coordinate)
    requires Lawful(p)
    ensures a.GetCartesianDistance(p, Some(b)) == b.GetCartesianDistance(p, Some(a))
    ensures a.GetDistance(p, Some(b)) == b.GetDistance(p, Some(a))
  {
    var ca, cb := a.AsCartesianCoordinate(p), b.AsCartesianCoordinate(p);
    assert SquaredDistance(ca, cb) == SquaredDistance(cb, ca);
  }

  /** The distance from any coordinate to itself is zero. */
  lemma CartesianDistanceToSelf(p: Platform, a: Coordinate)
    requires Lawful(p)
    ensures a.GetCartesianDistance(p, Some(a)) == Return(0.0)
  {
    var ca := a.AsCartesianCoordinate(p);
    assert SquaredDistance(ca, ca) == 0.0;
  }

  /** From a Cartesian coordinate, the distance is zero exactly when isEqual holds. */
  lemma ZeroDistanceIffEqual(p: Platform, a: Coordinate, b: Coordinate)
    requires Lawful(p) && a.Cartesian?
    ensures a.GetCartesianDistance(p, Some(b)) == Return(0.0) <==> a.IsEqual(p, Some(b)) == Return(true)
  {
    var cb := b.AsCartesianCoordinate(p);
    var s := SquaredDistance(a, cb);
    SqrtZeroIff(p, s);
    SquareZeroIff(a.x - cb.x);
    SquareZeroIff(a.y - cb.y);
    SquareZeroIff(a.z - cb.z);
  }

  /** Points whose components differ by (1, -1, 0) are sqrt(2) apart: the distance is
      positive and its square is 2. */
  lemma UnitOffsetDistance(p: Platform, x: real, y: real, z: real)
    requires Lawful(p)
    ensures var r := Cartesian(x + 1.0, y - 1.0, z).GetDistance(p, Some(Cartesian(x, y, z)));
      r.Return? && r.value > 0.0 && r.value * r.value == 2.0
  {
    var a, b := Cartesian(x + 1.0, y - 1.0, z), Cartesian(x, y, z);
    assert SquaredDistance(a, b) == 2.0;
    SqrtZeroIff(p, 2.0);
  }

  /** The great-circle value is never negative and never more than half the Earth's
      circumference, rounded: the central angle lies in [0, PI], and rounding keeps order. */
  lemma GreatCircleBounds(p: Platform, latitude1: real, longitude1: real, latitude2: real, longitude2: real)
    requires Lawful(p)
    ensures 0.0 <= GreatCircle(p, latitude1, longitude1, latitude2, longitude2) <= Round(EARTH_RADIUS * PI)
  {
    var radLat1, radLat2 := ToRadians(latitude1), ToRadians(latitude2);
    var deltaLong := Abs(ToRadians(longitude1) - ToRadians(longitude2));
    var angle := CentralAngle(p, p.sin(radLat1), p.cos(radLat1), p.sin(radLat2), p.cos(radLat2),
                              p.sin(deltaLong), p.cos(deltaLong));
    RoundMonotone(0.0, EARTH_RADIUS * angle);
    RoundMonotone(EARTH_RADIUS * angle, EARTH_RADIUS * PI);
    RoundKeepsGridPoints(0.0);
  }

  /** The central angle from a point to itself is zero when its sine and cosine are those of
      one angle. */
  lemma CentralAngleToSelf(p: Platform, s: real, c: real)
    requires Lawful(p) && s * s + c * c == 1.0
    ensures CentralAngle(p, s, c, s, c, 0.0, 1.0) == 0.0
  {
    calc {
      CentralAngle(p, s, c, s, c, 0.0, 1.0);
      == p.atan2(p.sqrt(Square(c * 0.0) + Square(c * s - s * c * 1.0)), s * s + c * c * 1.0);
      == p.atan2(p.sqrt(Square(0.0) + Square(0.0)), 1.0);
      == 0.0;
    }
  }

  /** The great-circle value from a point to itself is zero, given sin^2 + cos^2 = 1. */
  lemma GreatCircleToSelf(p: Platform, latitude: real, longitude: real)
    requires Lawful(p)
    ensures GreatCircle(p, latitude, longitude, latitude, longitude) == 0.0
  {
    var radLat := ToRadians(latitude);
    var deltaLong := Abs(ToRadians(longitude) - ToRadians(longitude));
    assert deltaLong == 0.0;
    CentralAngleToSelf(p, p.sin(radLat), p.cos(radLat));
    RoundKeepsGridPoints(0.0);
  }

  /** From a spheric coordinate, a non-null argument whose spheric form exists yields a
      distance and never the negative-distance exception; a null argument is rejected. */
  lemma SphericDistanceNonNegative(p: Platform, a: Coordinate, coord: Option<Coordinate>)
    requires Lawful(p) && a.Spheric?
    ensures coord.None? ==> a.GetSphericDistance(p, coord) == Throw(IllegalArgumentException(NULL_COORDINATE))
    ensures coord.Some? && coord.value.AsSphericCoordinate(p).Return? ==>
      var r := a.GetSphericDistance(p, coord); r.Return? && r.value >= 0.0
  {
    if coord.Some? && coord.value.AsSphericCoordinate(p).Return? {
      var tmp := coord.value.AsSphericCoordinate(p).value;
      GreatCircleBounds(p, a.latitude, a.longitude, tmp.latitude, tmp.longitude);
    }
  }

  /** The great-circle distance from a spheric coordinate to itself is zero. */
  lemma SphericDistanceToSelf(p: Platform, a: Coordinate)
    requires Lawful(p) && a.Spheric?
    ensures a.GetSphericDistance(p, Some(a)) == Return(0.0)
  {
    GreatCircleToSelf(p, a.latitude, a.longitude);
  }
}
