# Wahlzeit coordinates and power plants, modelled in Dafny

This project models two parts of the Wahlzeit photo-sharing application's model layer.

- **Coordinates.** The coordinate hierarchy has the interface `Coordinate`, its base class
  `AbstractCoordinate`, and two immutable value classes:
  - `CartesianCoordinate`, with x, y and z;
  - `SphericCoordinate`, with latitude and longitude. Both are rounded to 10 decimal
    places with HALF_UP, and the constructor checks that they lie in [-90, 90] × [-180, 180].

  It also covers the older stand-alone class `Coordinate`, which has an EPSILON-tolerant
  equality.
- **Power plants.**
  - `PowerType` is a named kind of plant. Its instances are interned in a static table
    keyed by hash code.
  - `Power` is a plant whose setters check their inputs and keep the old values when a
    check fails.
  - `PowerManager` is a singleton that records every Power it creates.
  - `PowerPhoto` is a photo with plain attributes. Its capacity setter checks the year
    before it assigns anything.
  - The validators `IntegerAssert` and `ObjectAssert` are modelled too.

## Modules

- `JavaLang`: the parts of Java the model relies on.
  - `int` is a 32-bit newtype. `Wrap` performs Java's wrap-around.
  - A reference that may be null is an `Option`.
  - The argument of `equals(Object)` is an `Object`: `Null`, `Instance` or `OtherClass`.
  - The end of a call is an `Outcome`, which is `Return(v)` or `Throw(exception)`.
  - `String.hashCode`, which runs over the UTF-16 code units of the string, and
    `Objects.hash` over the hash codes of its arguments.
- `Asserts`: `IntegerAssert.assertPositive` and `assertPositiveZero`, and
  `ObjectAssert.assertNotNull`. Each is a function that returns normally or throws an
  `IllegalArgumentException` carrying the caller's message. It also holds the double
  check used by `AbstractCoordinate`.
- `Rounding`: `AbstractCoordinate.round` with `DELTA` = 10 over exact reals. HALF_UP is
  written out with `Floor`.
- `Numerics`: the library calls `Math.sqrt`, `sin`, `cos`, `acos`, `atan2` and
  `Objects.hash` over doubles.
  - They are the fields of a `Platform` value that every operation receives.
  - `Lawful(p)` lists the laws the proofs use:
    - the square root is non-negative and squares back;
    - sin(0) = 0 and cos(0) = 1;
    - sin² + cos² = 1;
    - atan2 of a non-negative first argument lies in [0, π];
    - atan2(0, x) = 0 for positive x.

  Nothing else about trigonometry is assumed.
- `Coordinates`: the hierarchy as one datatype with a `Cartesian` and a `Spheric` variant.
  - A member function matches on the variant wherever a subclass overrides the base class.
  - `AbstractIsEqual`, `AbstractHashCode` and `AbstractGetSphericDistance` are the
    base-class versions, kept so that the overrides can be compared with them.
- `LegacyCoordinates`: the older `Coordinate` class.
- `Powers`: `PowerType`, its interning table `PowerTypeTable` (the static `instances`
  Hashtable) and `Power`. These are classes whose methods update fields in place.
- `PowerManagement`: `PowerManager` and the singleton field that holds it.
- `PowerPhotos`: `PowerPhoto`.

Some behaviour follows from the code as written:
- Equality across kinds is one-sided. A Cartesian `isEqual` compares Cartesian forms, while
  a spheric one converts its argument to spheric form, and that conversion may throw.
- Equality and hash codes agree only within one class. A spheric `isEqual` can hold against
  a Cartesian argument, while `hashCode` hashes (latitude, longitude) on one side and
  (x, y, z) on the other. `Coordinates.HashConsistent` therefore asks for two coordinates
  of the same class.
- The `Coordinate` interface and the concrete class `Coordinate` share a name. In this
  project they are two modules.
- Interning `PowerType` by hash code makes two names with the same hash share one type.
  Once "Aa" is interned, `getPowerType("BB")` hands out the type named "Aa"
  (`Powers.CollidingNamesShareType`).
- `Power.setYearStartUp` does not check the start-up year against the capacity year
  already set, so the capacity year can end up before it (`Powers.StartUpAfterCapacityYear`).

## Model

| member | source | states |
|---|---|---|
| `Asserts.AssertPositive` | src/main/java/org/wahlzeit/utils/asserts/IntegerAssert.java:34-38 | throws exactly when the value is at most 0, and the exception is an IllegalArgumentException with the caller's message |
| `Asserts.AssertPositiveZero` | src/main/java/org/wahlzeit/utils/asserts/IntegerAssert.java:46-50 | throws exactly when the value is negative, with the caller's message |
| `Asserts.AssertPositiveZeroReal` | src/main/java/org/wahlzeit/model/AbstractCoordinate.java:76 | the double check used on distances throws exactly when the value is negative, with the given message |
| `Asserts.AssertNotNull` | src/main/java/org/wahlzeit/utils/asserts/ObjectAssert.java:33-37 | throws exactly for null, and the exception carries exactly the message passed in |
| `Asserts.IntegerAssertsDifferOnlyAtZero` | src/main/java/org/wahlzeit/utils/asserts/IntegerAssert.java:34-50 | whatever passes assertPositive passes assertPositiveZero, and 0 is the only value that fails the first and passes the second |
| `JavaLang.Wrap` | src/main/java/org/wahlzeit/model/PowerType.java:112 | the int result is congruent to the exact value modulo 2^32, and equals it when it fits in an int |
| `JavaLang.WrapCongruent` | src/main/java/org/wahlzeit/model/PowerType.java:112 | values that differ by a multiple of 2^32 wrap to the same int |
| `JavaLang.CodeUnits` | src/main/java/org/wahlzeit/model/PowerType.java:112 | a character below U+10000 is one code unit, itself; any other is a high and a low surrogate from which the character can be recovered |
| `JavaLang.Utf16` | src/main/java/org/wahlzeit/model/PowerType.java:112 | a string has between one and two code units per character, each below 2^16, and a string without supplementary characters has exactly its characters as code units |
| `JavaLang.StringHashAppend` | src/main/java/org/wahlzeit/model/PowerType.java:112 | appending a character below U+10000 multiplies the String hash code by 31 and adds the character, in int arithmetic |
| `JavaLang.SupplementaryCharacterHash` | src/main/java/org/wahlzeit/model/PowerType.java:112 | a supplementary character is hashed as its surrogate pair: the one-character string U+1F600 hashes to 1772899, not to 0x1F600 |
| `Rounding.ScaleIsTenToTheDelta` | src/main/java/org/wahlzeit/model/AbstractCoordinate.java:45 | the rounding grid is 10^DELTA steps per unit, with DELTA = 10 |
| `Rounding.Round` | src/main/java/org/wahlzeit/model/AbstractCoordinate.java:148-152 | the result is a multiple of 10^-10 and lies within half a grid step of the input |
| `Rounding.RoundKeepsGridPoints` | src/main/java/org/wahlzeit/model/AbstractCoordinate.java:148-152 | a value that already has at most 10 decimal places is returned unchanged |
| `Rounding.RoundIdempotent` | src/main/java/org/wahlzeit/model/AbstractCoordinate.java:148-152 | rounding a rounded value changes nothing |
| `Rounding.RoundTiesAwayFromZero` | src/main/java/org/wahlzeit/model/AbstractCoordinate.java:150 | HALF_UP: a value exactly half-way between two grid points goes to the one farther from zero, for either sign |
| `Rounding.RoundOdd` | src/main/java/org/wahlzeit/model/AbstractCoordinate.java:148-152 | rounding is symmetric about zero |
| `Rounding.RoundMonotone` | src/main/java/org/wahlzeit/model/AbstractCoordinate.java:148-152 | rounding never reverses the order of two values |
| `Rounding.RoundAtMost` | src/main/java/org/wahlzeit/model/AbstractCoordinate.java:148-152 | a value rounds to at most the grid point k/10^10 if and only if it lies below the half-way point above it |
| `Rounding.RoundAtLeast` | src/main/java/org/wahlzeit/model/AbstractCoordinate.java:148-152 | the mirror image of RoundAtMost below zero |
| `Numerics.Square` | src/main/java/org/wahlzeit/model/CartesianCoordinate.java:124-126 | Math.pow(v, 2) is never negative |
| `Numerics.SquareZeroIff` | src/main/java/org/wahlzeit/model/CartesianCoordinate.java:124-126 | a square is zero if and only if its base is |
| `Numerics.SqrtZeroIff` | src/main/java/org/wahlzeit/model/CartesianCoordinate.java:124 | under the square-root laws, the root of a non-negative value is zero if and only if the value is |
| `Numerics.SqrtOfSquare` | src/main/java/org/wahlzeit/model/Coordinate.java:60-62 | under the square-root laws, the root of the square of a non-negative value is that value |
| `Coordinates.SquaredDistance` | src/main/java/org/wahlzeit/model/CartesianCoordinate.java:124-126 | the sum of the squared component differences is never negative |
| `Coordinates.NewSpheric` | src/main/java/org/wahlzeit/model/SphericCoordinate.java:48-53 | construction succeeds if and only if the rounded angles are in range; it then stores the rounded angles and the result satisfies the invariant; otherwise it throws IllegalStateException("Invalid position!") |
| `Coordinates.Coordinate.AsCartesianCoordinate` | src/main/java/org/wahlzeit/model/CartesianCoordinate.java:88-90 | always yields a Cartesian coordinate, and for a Cartesian one a copy with identical x, y, z |
| `Coordinates.Coordinate.AsSphericCoordinate` | src/main/java/org/wahlzeit/model/CartesianCoordinate.java:98-102 | a Cartesian point off the sphere (\|z\| above the Earth radius) makes acos return NaN, and the rounding throws NumberFormatException; on the sphere a failure is the constructor's IllegalStateException; a spheric coordinate is returned as is (SphericCoordinate.java:80-82); any result is spheric and keeps the range invariant |
| `Coordinates.Coordinate.DoGetCartesianDistance` | src/main/java/org/wahlzeit/model/CartesianCoordinate.java:122-127 | under the square-root laws the result is non-negative and its square is the sum of the squared component differences |
| `Coordinates.Coordinate.GetCartesianDistance` | src/main/java/org/wahlzeit/model/AbstractCoordinate.java:73-78 | null is rejected with IllegalArgumentException("Coordinate is null!"); under the square-root laws every non-null argument yields a non-negative distance whose square is the squared Euclidean distance of the two Cartesian forms, and the negative-distance exception never fires |
| `Coordinates.Coordinate.GetDistance` | src/main/java/org/wahlzeit/model/AbstractCoordinate.java:61-63 | returns exactly what getCartesianDistance returns, so it too rejects null and is never negative |
| `Coordinates.Coordinate.DoGetSphericDistance` | src/main/java/org/wahlzeit/model/SphericCoordinate.java:109-133 | throws exactly when converting the argument to spheric form throws |
| `Coordinates.Coordinate.AbstractGetSphericDistance` | src/main/java/org/wahlzeit/model/AbstractCoordinate.java:88-93 | null is rejected with IllegalArgumentException("Coordinate is null!") before anything is computed |
| `Coordinates.Coordinate.GetSphericDistance` | src/main/java/org/wahlzeit/model/CartesianCoordinate.java:136-138 | a spheric coordinate uses the inherited method; a Cartesian one first converts itself, and that conversion's exception comes before any check of the argument |
| `Coordinates.Coordinate.IsEqual` | src/main/java/org/wahlzeit/model/CartesianCoordinate.java:148-157 | null is never equal, and a Cartesian receiver never throws |
| `Coordinates.Coordinate.AbstractIsEqual` | src/main/java/org/wahlzeit/model/AbstractCoordinate.java:118-128 | the base-class isEqual is false for null |
| `Coordinates.Coordinate.Equals` | src/main/java/org/wahlzeit/model/AbstractCoordinate.java:101-107 | false for null and for any non-Coordinate, otherwise exactly isEqual |
| `Coordinates.Coordinate.HashCode` | src/main/java/org/wahlzeit/model/CartesianCoordinate.java:164-166 | CartesianCoordinate's hashCode gives the same code as the base-class hashCode it overrides |
| `Coordinates.CentralAngle` | src/main/java/org/wahlzeit/model/SphericCoordinate.java:127-132 | under the laws of sqrt and atan2 the central angle lies in [0, π] |
| `Coordinates.GreatCircle` | src/main/java/org/wahlzeit/model/SphericCoordinate.java:109-133 | the spheric distance is rounded to at most 10 decimal places |
| `Coordinates.CopyCartesian` | src/main/java/org/wahlzeit/model/CartesianCoordinate.java:55-69 | throws exactly for null; otherwise the copy is Cartesian, a Cartesian argument is copied with identical x, y, z, and a spheric one is converted by `asCartesianCoordinate` |
| `Coordinates.CopySpheric` | src/main/java/org/wahlzeit/model/SphericCoordinate.java:60-73 | null is rejected; the copy is spheric, a spheric argument keeps its latitude and longitude, a Cartesian one gives exactly the outcome of `asSphericCoordinate` (its exception included), and the copy of a valid coordinate is valid |
| `Coordinates.NewSphericAcceptsExactly` | src/main/java/org/wahlzeit/model/SphericCoordinate.java:166-170 | the raw angles accepted are exactly those less than half a grid step outside [-90, 90] and [-180, 180], because rounding comes before the check and a tie on the boundary rounds out of range |
| `Coordinates.NewSphericAcceptsRange` | src/main/java/org/wahlzeit/model/SphericCoordinate.java:48-53 | every angle pair in range is accepted, and one already on the grid is stored unchanged |
| `Coordinates.NewSphericStable` | src/main/java/org/wahlzeit/model/SphericCoordinate.java:49-50 | building from the stored angles of a built coordinate rebuilds the same coordinate |
| `Coordinates.CartesianIsEqualIsExact` | src/main/java/org/wahlzeit/model/CartesianCoordinate.java:148-157 | between Cartesian coordinates isEqual is exact equality, hence reflexive, symmetric and transitive |
| `Coordinates.SphericIsEqualIsExact` | src/main/java/org/wahlzeit/model/SphericCoordinate.java:143-151 | between spheric coordinates isEqual is exact equality of latitude and longitude, hence reflexive, symmetric and transitive |
| `Coordinates.CartesianOverridesAgree` | src/main/java/org/wahlzeit/model/CartesianCoordinate.java:148-166 | CartesianCoordinate's isEqual and hashCode agree with AbstractCoordinate's |
| `Coordinates.AbstractHashConsistent` | src/main/java/org/wahlzeit/model/AbstractCoordinate.java:118-139 | coordinates equal under the base-class isEqual have equal base-class hash codes, whatever their kinds |
| `Coordinates.HashConsistent` | src/main/java/org/wahlzeit/model/SphericCoordinate.java:143-160 | two coordinates of the same class that are isEqual have the same hashCode |
| `Coordinates.CartesianDistanceSymmetric` | src/main/java/org/wahlzeit/model/CartesianCoordinate.java:122-127 | the Cartesian distance, and so getDistance, is symmetric for coordinates of either kind |
| `Coordinates.CartesianDistanceToSelf` | src/main/java/org/wahlzeit/model/CartesianCoordinate.java:122-127 | the distance from a coordinate to itself is 0 |
| `Coordinates.ZeroDistanceIffEqual` | src/main/java/org/wahlzeit/model/CartesianCoordinate.java:122-157 | from a Cartesian coordinate, the distance is 0 if and only if isEqual holds |
| `Coordinates.UnitOffsetDistance` | src/main/java/org/wahlzeit/model/CartesianCoordinate.java:124-126 | points whose components differ by (1, -1, 0) are a positive distance apart whose square is 2 |
| `Coordinates.GreatCircleBounds` | src/main/java/org/wahlzeit/model/SphericCoordinate.java:127-132 | the great-circle value is never negative and never more than half the Earth's circumference, rounded: the numerator is a square root, and atan2 with a non-negative first argument is in [0, π] |
| `Coordinates.CentralAngleToSelf` | src/main/java/org/wahlzeit/model/SphericCoordinate.java:125-132 | the central angle between a point and itself is 0 when sin² + cos² = 1 |
| `Coordinates.GreatCircleToSelf` | src/main/java/org/wahlzeit/model/SphericCoordinate.java:109-133 | the great-circle value from a point to itself is 0 |
| `Coordinates.SphericDistanceNonNegative` | src/main/java/org/wahlzeit/model/AbstractCoordinate.java:88-93 | from a spheric coordinate, null is rejected, and a non-null argument with a spheric form yields a non-negative distance, never the negative-distance exception |
| `Coordinates.SphericDistanceToSelf` | src/main/java/org/wahlzeit/model/SphericCoordinate.java:109-133 | the spheric distance from a spheric coordinate to itself is 0 |
| `LegacyCoordinates.Coordinate.SquaredDistance` | src/main/java/org/wahlzeit/model/Coordinate.java:60-62 | the sum of squared differences is never negative |
| `LegacyCoordinates.Coordinate.GetDistance` | src/main/java/org/wahlzeit/model/Coordinate.java:59-63 | null ends in a NullPointerException; otherwise the distance is non-negative and its square is the squared distance |
| `LegacyCoordinates.Coordinate.IsEqual` | src/main/java/org/wahlzeit/model/Coordinate.java:71-79 | null is never equal |
| `LegacyCoordinates.Coordinate.Equals` | src/main/java/org/wahlzeit/model/Coordinate.java:87-93 | true exactly for a Coordinate argument that is isEqual |
| `LegacyCoordinates.IsEqualReflexiveSymmetric` | src/main/java/org/wahlzeit/model/Coordinate.java:74-76 | the tolerant isEqual is reflexive and symmetric |
| `LegacyCoordinates.IsEqualNotTransitive` | src/main/java/org/wahlzeit/model/Coordinate.java:74-76 | it is not transitive: 0 ≈ 6e-8 and 6e-8 ≈ 1.2e-7, but 0 is not ≈ 1.2e-7 |
| `LegacyCoordinates.HashAlongChain` | src/main/java/org/wahlzeit/model/Coordinate.java:71-106 | a hashCode that agrees with equals gives the same code to every point of a chain of points 5e-8 apart |
| `LegacyCoordinates.HashRespectingEqualsIsConstant` | src/main/java/org/wahlzeit/model/Coordinate.java:71-106 | a hashCode that agrees with the tolerant equals must give all points on the x axis one code |
| `LegacyCoordinates.ObjectsHashBreaksEquals` | src/main/java/org/wahlzeit/model/Coordinate.java:71-106 | a hash that tells (0, 0, 0) from (5e-8, 0, 0) apart, as Objects.hash over doubles does, cannot agree with equals |
| `LegacyCoordinates.IsEqualBoundsDistance` | src/main/java/org/wahlzeit/model/Coordinate.java:71-79 | points that are isEqual have squared distance below 3·EPSILON² |
| `LegacyCoordinates.CloseIsEqual` | src/main/java/org/wahlzeit/model/Coordinate.java:71-79 | points whose squared distance is below EPSILON² are isEqual |
| `LegacyCoordinates.DistanceProperties` | src/main/java/org/wahlzeit/model/Coordinate.java:59-63 | the distance is symmetric, is 0 from a point to itself, and is 0 only between identical points |
| `LegacyCoordinates.DistanceExampleRootTwelve` | src/test/java/org/wahlzeit/model/CoordinateTest.java:69-71 | (0, 1, 2) and (2, 3, 4) are a positive distance apart whose square is 12 |
| `LegacyCoordinates.DistanceExampleThree` | src/test/java/org/wahlzeit/model/CoordinateTest.java:72 | (4, 1, -2) and (2, 3, -1) are exactly 3 apart |
| `Powers.FreshHash` | src/main/java/org/wahlzeit/model/PowerType.java:112 | the hash of a type without super type and sub types is 31^3 + 31^2 times the name's String hash code, in int arithmetic |
| `Powers.ObjectsHashOfNameAndNulls` | src/main/java/org/wahlzeit/model/PowerType.java:112 | Objects.hash of a hash code followed by two nulls unfolds to 31^3 + 31^2 times that hash code |
| `Powers.Times961Injective` | src/main/java/org/wahlzeit/model/PowerType.java:112 | multiplying by 961 and adding 31^3 is one-to-one on 32-bit ints, because 961 is odd |
| `Powers.SameKeyIffSameStringHash` | src/main/java/org/wahlzeit/model/PowerType.java:64-71 | two type names get the same table key exactly when their String hash codes are equal |
| `Powers.CollidingTypeNames` | src/main/java/org/wahlzeit/model/PowerType.java:64-71 | "Aa" and "BB" are different names whose new PowerTypes share one hash code, and so one table key |
| `Powers.PowerType.constructor` | src/main/java/org/wahlzeit/model/PowerType.java:40-49 | a new type has the given name, no super type and no sub types |
| `Powers.PowerType.HashCode` | src/main/java/org/wahlzeit/model/PowerType.java:110-113 | a type without super type and sub types hashes to its table key, which depends on the name only |
| `Powers.PowerType.CreatePower` | src/main/java/org/wahlzeit/model/PowerType.java:55-57 | the new Power is fresh, has this type and starts with year 0, capacity 0.0 and capacity year 0 |
| `Powers.PowerType.SetSuperType` | src/main/java/org/wahlzeit/model/PowerType.java:77-79 | sets the super type and leaves the sub types alone |
| `Powers.PowerType.AddSubType` | src/main/java/org/wahlzeit/model/PowerType.java:81-85 | null throws IllegalArgumentException("Power type is null!") and changes nothing; otherwise the child's super type becomes this type, the child is a subtype, it is added to subTypes, and nothing else changes |
| `Powers.PowerType.Equals` | src/main/java/org/wahlzeit/model/PowerType.java:87-108 | equality needs a PowerType argument with the same name and equal sub types; a type with a super type (isSubtype) never equals one without, in either order; two types without super types are equal exactly when names and sub types are; two types with super types are equal exactly when names, super types and sub types are |
| `Powers.HashCodeWithin` | src/main/java/org/wahlzeit/model/PowerType.java:110-113 | hashCode followed through the type graph for a bounded depth; a type without super type and sub types finishes at once with its table key |
| `Powers.SetHashCodeWithin` | src/main/java/org/wahlzeit/model/PowerType.java:112 | the hash of a HashSet of types, the sum of the element hashes: 0 for the empty set, and unfinished for a non-empty set when no depth is left, since each element's hash is a nested call |
| `Powers.SetHashNeedsEveryElement` | src/main/java/org/wahlzeit/model/PowerType.java:112 | the hash of a set of types does not finish when the hash of one element does not |
| `Powers.LinkedTypesNeverHash` | src/main/java/org/wahlzeit/model/PowerType.java:81-85 | once addSubType has linked a child to its parent, neither one's hashCode finishes at any depth of recursion; this covers a child that already has a sub type when it is added |
| `Powers.OwnSuperTypeNeverHashes` | src/main/java/org/wahlzeit/model/PowerType.java:81-85 | a type that is its own super type, as adding a type to itself leaves it, never finishes its hashCode |
| `Powers.SecondSubTypeNeverHashes` | src/main/java/org/wahlzeit/model/PowerType.java:81-85 | the child that a second addSubType on one parent hashes never finishes its hashCode |
| `Powers.SubTypeOfSubTypeNeverHashes` | src/main/java/org/wahlzeit/model/PowerType.java:81-85 | the child hashed by addSubType on a parent already linked to its own super type never finishes its hashCode |
| `Powers.PowerTypeTable.constructor` | src/main/java/org/wahlzeit/model/PowerType.java:38 | the table starts empty |
| `Powers.PowerTypeTable.GetPowerType` | src/main/java/org/wahlzeit/model/PowerType.java:59-62 | a null name throws IllegalArgumentException("Type name is null!") and leaves the table unchanged; otherwise the result is interned as doGetPowerType interns it |
| `Powers.PowerTypeTable.DoGetPowerType` | src/main/java/org/wahlzeit/model/PowerType.java:64-71 | the result is the entry at the name's key; when the key was taken, the table is unchanged and the earlier entry is returned (first stored wins); when it was free, exactly that one entry is added, and it is a new type with the name and no links |
| `Powers.InterningIsIdempotent` | src/main/java/org/wahlzeit/model/PowerType.java:64-71 | asking twice for the same name gives the same instance |
| `Powers.CollidingNamesShareType` | src/main/java/org/wahlzeit/model/PowerType.java:64-71 | on an empty table, asking for "Aa" and then "BB" gives the same type both times, and its name is "Aa" |
| `Powers.Power.constructor` | src/main/java/org/wahlzeit/model/Power.java:40-49 | a new Power has the given name and type, either of which may be null, start-up year 0, capacity 0.0 and capacity year 0 |
| `Powers.Power.SetPowerType` | src/main/java/org/wahlzeit/model/Power.java:60-69 | null keeps the old type; otherwise the type is replaced; no other field changes |
| `Powers.Power.SetYearStartUp` | src/main/java/org/wahlzeit/model/Power.java:108-121 | a negative year keeps the old value; otherwise only the start-up year changes |
| `Powers.Power.AssertValidYearCapacity` | src/main/java/org/wahlzeit/model/Power.java:168-173 | throws exactly when the capacity year is before the start-up year, with that message |
| `Powers.Power.CheckCapacity` | src/main/java/org/wahlzeit/model/Power.java:134-139 | the checks pass exactly for a non-negative capacity with a non-negative year that is not before the start-up year; a negative capacity is reported first, then a negative year |
| `Powers.Power.SetCapacitySinceStart` | src/main/java/org/wahlzeit/model/Power.java:134-145 | when the checks pass, capacity and year are set together; when any fails, neither changes and no exception escapes; type and start-up year never change |
| `Powers.Power.DoSetCapacitySinceStart` | src/main/java/org/wahlzeit/model/Power.java:147-166 | sets the capacity year and the capacity, and nothing else |
| `Powers.Power.Equals` | src/main/java/org/wahlzeit/model/Power.java:175-187 | false for a non-Power; once the three numbers match, a Power without a name throws NullPointerException, and so does one without a type whose name matches; otherwise true exactly when all five fields are equal and both have a type |
| `Powers.EqualPowersHashAlike` | src/main/java/org/wahlzeit/model/Power.java:175-193 | equal Powers have equal hash codes, provided their equal types hash alike |
| `Powers.CapacityScenario` | src/test/java/org/wahlzeit/model/PowerPhotoTest.java:104-111 | after 5.2 GWh by 2017 and 7.3 GWh by 2018, the attempt with 2.4 GWh by 2011 is refused and 7.3 and 2018 stay |
| `Powers.StartUpAfterCapacityYear` | src/main/java/org/wahlzeit/model/Power.java:108-121 | the capacity year can end up before the start-up year, so that ordering is not an invariant |
| `PowerManagement.PowerManager.constructor` | src/main/java/org/wahlzeit/model/PowerManager.java:32-36 | the registry of Powers starts empty |
| `PowerManagement.PowerManager.CreatePower` | src/main/java/org/wahlzeit/model/PowerManager.java:43-49 | a null type name throws IllegalArgumentException("Type name is null!") and changes neither registry; otherwise the new Power has the interned type of that name and default fields, and the registry maps the Power's hash code to it, replacing any earlier entry, with no other key changed |
| `PowerManagement.PowerManagerSingleton.constructor` | src/main/java/org/wahlzeit/model/PowerManager.java:30 | the singleton holds the one manager |
| `PowerManagement.PowerManagerSingleton.GetInstace` | src/main/java/org/wahlzeit/model/PowerManager.java:39-41 | every call returns the one instance |
| `PowerManagement.SingletonIsShared` | src/main/java/org/wahlzeit/model/PowerManager.java:30-41 | two calls of getInstace give the same object |
| `PowerManagement.SameTypeNameSharesType` | src/test/java/org/wahlzeit/model/PowerManagerTest.java:39-40 | two Powers created for one type name are distinct objects of one shared type |
| `PowerPhotos.PowerPhoto.constructor` | src/main/java/org/wahlzeit/model/PowerPhoto.java:33-45 | a new photo has name "", type "", start-up year 0, capacity 0.0 and capacity year 0 |
| `PowerPhotos.PowerPhoto.SetName` | src/main/java/org/wahlzeit/model/PowerPhoto.java:51-53 | assigns the name without a check and changes nothing else |
| `PowerPhotos.PowerPhoto.SetType` | src/main/java/org/wahlzeit/model/PowerPhoto.java:59-61 | assigns the type without a check and changes nothing else |
| `PowerPhotos.PowerPhoto.SetYearStartUp` | src/main/java/org/wahlzeit/model/PowerPhoto.java:67-69 | assigns the start-up year without a check and changes nothing else |
| `PowerPhotos.PowerPhoto.SetCapacitySinceStart` | src/main/java/org/wahlzeit/model/PowerPhoto.java:80-83 | throws IllegalArgumentException exactly when the year is before the start-up year, and then changes nothing; otherwise sets both year and capacity |
| `PowerPhotos.PowerPhoto.SetYearCapacity` | src/main/java/org/wahlzeit/model/PowerPhoto.java:102-108 | checks before it assigns: a year before the start-up year throws and keeps the old year, any other is stored |
| `PowerPhotos.NegativeCapacityAccepted` | src/main/java/org/wahlzeit/model/PowerPhoto.java:80-108 | there is no sign check: a negative capacity is accepted when the year is not before the start-up year |

## Left out

- Floating point. Doubles are exact reals, so IEEE rounding, overflow, NaN and the
  infinities are not modelled.
  - `Math.pow(v, 2)` is v·v.
  - `new BigDecimal(value).setScale(10, HALF_UP).doubleValue()` is exact HALF_UP rounding
    to 10 decimal places. The conversion back to the nearest double is left out.
- Trigonometry and square roots. `Math.sin`, `cos`, `acos`, `atan2` and `sqrt` are function
  values constrained only by the laws in `Lawful`.
  - Conversion round-trips and concrete great-circle distances are not modelled.
  - `Math.toRadians` and `toDegrees` use the double value of π as an exact rational.
- `Objects.hash` over doubles, because `Double.hashCode` works on the bit pattern. It is an
  abstract function of the field values.
  - For `Power.hashCode`, both `Objects.hash` of the fields and the hash of the PowerType
    are abstract functions.
  - `Objects.hash` over `String` and `int` hash codes, as used for PowerType, is modelled
    exactly. `String.hashCode` runs over the UTF-16 code units, so a supplementary
    character counts as its two surrogates.
- Coordinates.Coordinate.GetCartesianDistance: the non-negativity of the result is proved
  only under the square-root laws. For a platform whose square root can be negative, the
  spheric variant throws the negative-distance exception, and the contract states nothing
  about that case.
- Coordinates.HashConsistent holds over exact reals only. Java compares doubles with `==`,
  so 0.0 and -0.0 are isEqual, but `Double.hashCode` tells them apart. A coordinate with a
  -0.0 component therefore equals one with 0.0 while its hash code differs. NaN is never
  isEqual to anything, so it breaks nothing here.
- Coordinates.AbstractHashConsistent: the same signed-zero gap applies to the Cartesian
  forms that the base-class isEqual and hashCode compare. For example, the Cartesian form of
  latitude 0, longitude 180 has x = -0.0.
- Coordinates.Coordinate.AsSphericCoordinate decides "off the sphere" on exact reals
  (\|z\| > 6371). In doubles, `z / EARTH_RADIUS` near ±1 may round to the other side.
- Powers.PowerType.AddSubType returns normally in every case, but in Java the
  `HashSet.add` hashes the child after its super type has been set. That recursion never
  finishes, and Java throws StackOverflowError, whenever the child's hash, with the parent
  as its super type, reaches a parent and child that addSubType has linked or a type that is
  its own super type. Those are four cases:
  - a type added to itself (`OwnSuperTypeNeverHashes`);
  - a second child added to the same parent (`SecondSubTypeNeverHashes`);
  - a child added to a parent that addSubType has already linked to its own super type
    (`SubTypeOfSubTypeNeverHashes`);
  - a child that already has a sub type of its own (`LinkedTypesNeverHash` on the child and
    its sub type). So a hierarchy three levels deep cannot be built in either order.

  In each case the child's super type has already changed when the error is thrown. The
  method does not detect the cycle. The named lemmas prove, over a fuel-bounded model of
  `hashCode`, that the recursion does not finish.
- Powers.EqualPowersHashAlike holds over exact reals only. `Power.equals` compares the
  capacities with `==`, so 0.0 and -0.0 are equal. `Double.hashCode(-0.0)` is 0x80000000,
  not 0, so two equal Powers can have different hash codes. A capacity of -0.0 passes
  `setCapacitySinceStart`, because its check rejects only negative values.
- PowerManagement.PowerManager.CreatePower returns normally for every non-null type name.
  In Java it files the Power under `power.hashCode()`, which hashes the PowerType. Once
  `addSubType` has linked the interned type to a sub type or a super type, that hash never
  finishes (`Powers.LinkedTypesNeverHash`). Java then throws StackOverflowError and files
  nothing. The model leaves the type's hash abstract (`typeHash`), so it does not capture
  this.
- `DoubleAssert` is not part of this model. Its `assertPositiveZero` is taken to throw an
  IllegalArgumentException with the given message exactly when the value is negative.
  - The message of the distance check, "Invalid distance: <d> < 0", is kept as the
    distance it reports, not as text.
- `assertIsNotNull`, which the copy constructors and the Cartesian `getCartesianDistance`
  call, is not part of this model. It is taken to behave like `ObjectAssert.assertNotNull`
  with AbstractCoordinate's message "Coordinate is null!".
- PowerType's `equals` and `hashCode` recurse through `superType` and `subTypes`, and after
  `addSubType` the type graph is cyclic. The model does not follow that recursion:
  - `Powers.PowerType.Equals` takes the results of the nested comparisons as arguments.
  - `Powers.PowerType.HashCode` takes the nested hash codes as arguments.
  - `subTypes` is a set of references. HashSet membership through those recursive
    methods, and any later change of an element's hash, is not modelled.
- The constructor `Power(PowerType)` that `PowerType.createPower` calls does not exist in
  Power.java. The model uses the two-argument constructor, and the name is an argument of
  `CreatePower`.
- The private PowerType constructor's null check cannot fail, because its only caller
  checks first. The constructor takes a plain string.
- Concurrency: the synchronised Hashtable and the static initialisation of singletons. The
  static fields are fields of objects that the caller passes in.
- Logging in Power's setters, Objectify persistence annotations, the `Photo` base class of
  PowerPhoto, PowerPhotoFactory, PowerPhotoManager and Location.
- APIs that only the tests call, such as `Power.setName`, a two-argument `createPower`,
  `SphericCoordinate.getInstance` and `getLatitude`. They do not exist in the modelled
  sources.
