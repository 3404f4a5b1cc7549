/**
 * The power-plant domain objects: PowerType, the static table that interns PowerType
 * instances, and Power. Their setters update fields in place, so they are classes.
 * PowerType and Power refer to each other (PowerType.createPower builds a Power), so they
 * share a module.
 */
module Powers {
  import opened JavaLang
  import opened Asserts

  const TYPE_NAME_NULL: Message := Text("Type name is null!")
  const POWER_TYPE_NULL: Message := Text("Power type is null!")
  const YEAR_START_UP_NEGATIVE: Message := Text("Year start up is negative!")
  const CAPACITY_NEGATIVE: Message := Text("Capacity since start is negative!")
  const YEAR_CAPACITY_NEGATIVE: Message := Text("Year capacity is negative!")
  const YEAR_CAPACITY_BEFORE_START_UP: Message :=
    Text("year in which the capacity was measured can not be smaller than the plant start up year")

  /** The hash code a PowerType has while it has no super type (hash 0 for null) and no sub
      types (hash 0 for an empty set): Objects.hash(typeName, null, emptySet). This is the
      key under which the interning table files it. Unfolded, it is 31^3 + 31^2 * h, where h
      is the name's String hash code. */
  function FreshHash(typeName: string): (r: int32)
    ensures r == Wrap(29791 + 961 * StringHashCode(typeName) as int)
  {
    ObjectsHashOfNameAndNulls(StringHashCode(typeName));
    ObjectsHash([StringHashCode(typeName), 0, 0])
  }

  /** Objects.hash of one hash code h followed by two nulls is 31^3 + 31^2 * h, wrapped. */
  lemma ObjectsHashOfNameAndNulls(h: int32)
    ensures ObjectsHash([h, 0, 0]) == Wrap(29791 + 961 * h as int)
  {
    var w1 := Wrap(31 + h as int);
    assert ObjectsHash([h]) == w1 by {
      assert [h][..0] == [];
    }
    var w2 := Wrap(31 * w1 as int);
    assert ObjectsHash([h, 0]) == w2 by {
      assert [h, 0][..1] == [h];
    }
    assert ObjectsHash([h, 0, 0]) == Wrap(31 * w2 as int) by {
      assert [h, 0, 0][..2] == [h, 0];
    }
    WrapTimes31(31 + h as int);
    WrapTimes31(31 * (31 + h as int));
  }

  /** Wrapping commutes with multiplying by 31. */
  lemma WrapTimes31(v: int)
    ensures Wrap(31 * Wrap(v) as int) == Wrap(31 * v)
  {
    var q := (Wrap(v) as int - v) / 0x1_0000_0000;
    assert Wrap(v) as int - v == q * 0x1_0000_0000;
    assert 31 * Wrap(v) as int - 31 * v == (31 * q) * 0x1_0000_0000;
    WrapCongruent(31 * Wrap(v) as int, 31 * v);
  }

  /** Multiplying by 961 is one-to-one on 32-bit ints: 961 * 3427929153 == 1 + 767 * 2^32,
      so 961 has an inverse modulo 2^32. */
  lemma Times961Injective(x: int32, y: int32)
    requires Wrap(29791 + 961 * x as int) == Wrap(29791 + 961 * y as int)
    ensures x == y
  {
    var r := Wrap(29791 + 961 * x as int) as int;
    var d := y as int - x as int;
    var qx := (r - (29791 + 961 * x as int)) / 0x1_0000_0000;
    var qy := (r - (29791 + 961 * y as int)) / 0x1_0000_0000;
    assert r - (29791 + 961 * x as int) == qx * 0x1_0000_0000;
    assert r - (29791 + 961 * y as int) == qy * 0x1_0000_0000;
    assert 961 * d == (qx - qy) * 0x1_0000_0000;
    assert 3427929153 * 961 * d == 3427929153 * (qx - qy) * 0x1_0000_0000;
    assert d == (3427929153 * (qx - qy) - 767 * d) * 0x1_0000_0000;
  }

  /** Two names get the same table key exactly when their String hash codes are equal. */
  lemma SameKeyIffSameStringHash(a: string, b: string)
    ensures FreshHash(a) == FreshHash(b) <==> StringHashCode(a) == StringHashCode(b)
  {
    if FreshHash(a) == FreshHash(b) {
      Times961Injective(StringHashCode(a), StringHashCode(b));
    }
  }

  /** Two different type names with the same key: interning by hash code makes them share
      one PowerType. */
  lemma CollidingTypeNames()
    ensures "Aa" != "BB" && FreshHash("Aa") == FreshHash("BB")
  {
    var a, b, aa, bb := "A", "B", "Aa", "BB";
    assert a == [] + ['A'] && b == [] + ['B'];
    assert aa == a + ['a'] && bb == b + ['B'];
    StringHashAppend([], 'A');
    StringHashAppend([], 'B');
    StringHashAppend(a, 'a');
    StringHashAppend(b, 'B');
    SameKeyIffSameStringHash(aa, bb);
  }

  /** PowerType: a named kind of power plant with an optional super type and a set of sub
      types. The set holds references: HashSet membership through the recursive
      equals/hashCode is not modelled. */
  class PowerType {
    const typeName: string
    var superType: PowerType?
    var subTypes: set<PowerType>

    /** The private constructor. Its null check on typeName cannot fail here: its only
        caller, getPowerType, has checked already, so the name is a plain string. */
    constructor (typeName: string)
      ensures this.typeName == typeName && superType == null && subTypes == {}
    {
      this.typeName := typeName;
      superType := null;
      subTypes := {};
    }

    /** hashCode: Objects.hash(typeName, superType, subTypes), given the hash codes of the
        other two fields, which recurse through the type graph. */
    function HashCode(superTypeHash: int32, subTypesHash: int32): (r: int32)
      ensures superTypeHash == 0 && subTypesHash == 0 ==> r == FreshHash(typeName)
    {
      ObjectsHash([StringHashCode(typeName), superTypeHash, subTypesHash])
    }

    /** createPower. The constructor Power(PowerType) it calls does not exist in Power, so
        the new Power's name, which that constructor would choose, is an argument. */
    method CreatePower(name: Option<string>) returns (power: Power)
      ensures fresh(power)
      ensures power.powerType == this && power.name == name
      ensures power.yearStartUp == 0 && power.capacitySinceStart == 0.0 && power.yearCapacity == 0
    {
      power := new Power(name, this);
    }

    method SetSuperType(superType: PowerType?)
      modifies this
      ensures this.superType == superType && subTypes == old(subTypes)
    {
      this.superType := superType;
    }

    /** addSubType: rejects null before changing anything; otherwise makes this the child's
        super type and adds the child to subTypes. Adding to the HashSet hashes the child,
        which recurses through the type graph; where that recursion never finishes (see
        LinkedTypesNeverHash) Java throws StackOverflowError, which this method does not
        model. */
    method AddSubType(powerType: PowerType?) returns (r: Outcome<()>)
      modifies this, powerType
      ensures powerType == null <==> r.Throw?
      ensures powerType == null ==>
        r.exception == IllegalArgumentException(POWER_TYPE_NULL) &&
        superType == old(superType) && subTypes == old(subTypes)
      ensures powerType != null ==>
        && powerType.superType == this
        && powerType.IsSubtype()
        && subTypes == old(subTypes) + {powerType}
        && (powerType != this ==> superType == old(superType) && powerType.subTypes == old(powerType.subTypes))
    {
      r := AssertNotNull(if powerType == null then None else Some(powerType), POWER_TYPE_NULL);
      if r.Throw? {
        return;
      }
      powerType.SetSuperType(this);
      subTypes := subTypes + {powerType};
    }

    predicate IsSubtype()
      reads this
    {
      superType != null
    }

    /** equals. Two types are compared on their names and, when this one has a super type,
        on their super types, and always on their sub-type sets; a type with a super type
        never equals one without, in either order. The nested comparisons recurse through
        the type graph and are given as superTypesEqual and subTypesEqual; the super-type
        comparison is this same equals, which is false for a null argument. */
    function Equals(obj: Object<PowerType>, superTypesEqual: bool, subTypesEqual: bool): (r: bool)
      reads this, if obj.Instance? then {obj.value} else {}
      ensures r ==> obj.Instance? && typeName == obj.value.typeName && subTypesEqual
      ensures obj.Instance? && IsSubtype() != obj.value.IsSubtype() ==> !r
      ensures obj.Instance? && superType == null && obj.value.superType == null ==>
        (r <==> typeName == obj.value.typeName && subTypesEqual)
      ensures obj.Instance? && superType != null && obj.value.superType != null ==>
        (r <==> typeName == obj.value.typeName && superTypesEqual && subTypesEqual)
    {
      match obj
      case Instance(other) =>
        if superType != null then
          typeName == other.typeName && other.superType != null && superTypesEqual && subTypesEqual
        else if other.superType == null then
          typeName == other.typeName && subTypesEqual
        else
          false
      case _ => false
    }
  }

  /** Some element of a non-empty set of types. */
  ghost function Pick(s: set<PowerType>): (c: PowerType)
    requires s != {}
    ensures c in s
  {
    var c :| c in s; c
  }

  /** PowerType.hashCode followed through the type graph for at most fuel nested calls;
      None when the recursion has not finished by then. A null super type hashes to 0, and
      the sub-type set to the sum of its elements' hash codes in int arithmetic, as
      AbstractSet.hashCode computes it. */
  ghost function HashCodeWithin(t: PowerType, fuel: nat): (r: Option<int32>)
    reads *
    ensures fuel > 0 && t.superType == null && t.subTypes == {} ==> r == Some(FreshHash(t.typeName))
    decreases fuel, 0
  {
    if fuel == 0 then None
    else
      var superHash := if t.superType == null then Some(0 as int32) else HashCodeWithin(t.superType, fuel - 1);
      var subHash := SetHashCodeWithin(t.subTypes, fuel - 1);
      if superHash.None? || subHash.None? then None
      else Some(t.HashCode(superHash.value, subHash.value))
  }

  /** The hash code of a HashSet of types, within fuel nested calls. */
  ghost function SetHashCodeWithin(s: set<PowerType>, fuel: nat): (r: Option<int32>)
    reads *
    ensures s == {} ==> r == Some(0)
    ensures s != {} && fuel == 0 ==> r.None?
    decreases fuel, 1, s
  {
    if s == {} then Some(0)
    else
      var c := Pick(s);
      var h := HashCodeWithin(c, fuel);
      var rest := SetHashCodeWithin(s - {c}, fuel);
      if h.None? || rest.None? then None else Some(Wrap(h.value as int + rest.value as int))
  }

  /** A set's hash code is unfinished when one element's is. */
  lemma {:induction false} SetHashNeedsEveryElement(s: set<PowerType>, c: PowerType, fuel: nat)
    requires c in s && HashCodeWithin(c, fuel).None?
    ensures SetHashCodeWithin(s, fuel).None?
    decreases s
  {
    var d := Pick(s);
    if d != c {
      SetHashNeedsEveryElement(s - {d}, c, fuel);
    }
  }

  /** Once addSubType has linked a child to its parent, the hash code of each needs the
      other's, so neither finishes at any depth: in Java every later hashCode of either ends
      in StackOverflowError. */
  lemma {:induction false} LinkedTypesNeverHash(parent: PowerType, child: PowerType, fuel: nat)
    requires child.superType == parent && child in parent.subTypes
    ensures HashCodeWithin(parent, fuel).None? && HashCodeWithin(child, fuel).None?
  {
    if fuel > 0 {
      LinkedTypesNeverHash(parent, child, fuel - 1);
      SetHashNeedsEveryElement(parent.subTypes, child, fuel - 1);
    }
  }

  /** A type whose super type is itself, as t.addSubType(t) leaves it before the HashSet
      hashes t, never finishes its hash code. */
  lemma {:induction false} OwnSuperTypeNeverHashes(t: PowerType, fuel: nat)
    requires t.superType == t
    ensures HashCodeWithin(t, fuel).None?
  {
    if fuel > 0 {
      OwnSuperTypeNeverHashes(t, fuel - 1);
    }
  }

  /** addSubType hashes the child after making this its super type. When this already has
      a linked sub type, as a second addSubType on one parent finds it, that hash never
      finishes. */
  lemma SecondSubTypeNeverHashes(parent: PowerType, first: PowerType, child: PowerType, fuel: nat)
    requires child.superType == parent
    requires first.superType == parent && first in parent.subTypes
    ensures HashCodeWithin(child, fuel).None?
  {
    if fuel > 0 {
      LinkedTypesNeverHash(parent, first, fuel - 1);
      ChildOfUnfinishedNeverHashes(parent, child, fuel);
    }
  }

  /** Likewise when this is itself a sub type linked to its super type by addSubType. */
  lemma SubTypeOfSubTypeNeverHashes(grandparent: PowerType, parent: PowerType, child: PowerType, fuel: nat)
    requires child.superType == parent
    requires parent.superType == grandparent && parent in grandparent.subTypes
    ensures HashCodeWithin(child, fuel).None?
  {
    if fuel > 0 {
      LinkedTypesNeverHash(grandparent, parent, fuel - 1);
      ChildOfUnfinishedNeverHashes(parent, child, fuel);
    }
  }

  /** A child's hash code is unfinished when its super type's is, one level down. */
  lemma ChildOfUnfinishedNeverHashes(parent: PowerType, child: PowerType, fuel: nat)
    requires child.superType == parent && fuel > 0 && HashCodeWithin(parent, fuel - 1).None?
    ensures HashCodeWithin(child, fuel).None?
  {
  }

  /** The static Hashtable PowerType.instances: each PowerType handed out, filed under its
      hash code as built. */
  class PowerTypeTable {
    var instances: map<int32, PowerType>

    constructor ()
      ensures instances == map[]
    {
      instances := map[];
    }

    /** getPowerType: rejects a null name before touching the table, then interns. */
    method GetPowerType(typeName: Option<string>) returns (r: Outcome<PowerType>)
      modifies this
      ensures typeName.None? ==>
        r == Throw(IllegalArgumentException(TYPE_NAME_NULL)) && instances == old(instances)
      ensures typeName.Some? ==> r.Return? && Interned(typeName.value, r.value, old(instances), instances)
      ensures typeName.Some? ==> (r.value in old(instances).Values || fresh(r.value))
    {
      var check := AssertNotNull(typeName, TYPE_NAME_NULL);
      if check.Throw? {
        return Throw(check.exception);
      }
      var powerType := DoGetPowerType(typeName.value);
      return Return(powerType);
    }

    /** doGetPowerType: builds a fresh type, files it under its hash code unless that key is
        taken, and returns whatever is filed there; the first type stored under a key wins. */
    method DoGetPowerType(typeName: string) returns (r: PowerType)
      modifies this
      ensures Interned(typeName, r, old(instances), instances)
      ensures r in old(instances).Values || fresh(r)
    {
      var pt := new PowerType(typeName);
      var hashCode := pt.HashCode(0, 0);
      if hashCode !in instances {
        instances := instances[hashCode := pt];
      }
      r := instances[hashCode];
    }
  }

  /** The state change of interning typeName: the result is what the table holds under the
      name's key; an occupied key leaves the table as it was, a free one gains exactly one
      entry, a new type with that name and no links. */
  ghost predicate Interned(typeName: string, r: PowerType, before: map<int32, PowerType>, after: map<int32, PowerType>)
    reads r
  {
    var key := FreshHash(typeName);
    && key in after && after[key] == r
    && (key in before ==> after == before)
    && (key !in before ==> after == before[key := r] && r.typeName == typeName && r.superType == null && r.subTypes == {})
  }

  /** Interning the same name twice hands out the same type and leaves the table as the first
      call left it. */
  method InterningIsIdempotent(table: PowerTypeTable, typeName: string) returns (first: PowerType, second: PowerType)
    modifies table
    ensures first == second
    ensures first.typeName == typeName || FreshHash(typeName) in old(table.instances)
  {
    first := table.DoGetPowerType(typeName);
    var afterFirst := table.instances;
    second := table.DoGetPowerType(typeName);
    assert table.instances == afterFirst;
  }

  /** On an empty table, asking for "Aa" and then for "BB" hands out the type named "Aa" both
      times. */
  method CollidingNamesShareType(table: PowerTypeTable) returns (aa: Outcome<PowerType>, bb: Outcome<PowerType>)
    requires table.instances == map[]
    modifies table
    ensures aa.Return? && bb.Return? && aa.value == bb.value
    ensures bb.value.typeName == "Aa"
  {
    CollidingTypeNames();
    aa := table.GetPowerType(Some("Aa"));
    bb := table.GetPowerType(Some("BB"));
  }

  /** The fields of a Power, as Objects.hash sees them; the type is given by its hash code. */
  datatype PowerFields = PowerFields(
    yearStartUp: int32, yearCapacity: int32, capacitySinceStart: real, name: Option<string>, powerTypeHash: int32)

  /** Power: a plant with a fixed name, a type, a start-up year and the capacity gained up
      to a given year. Every setter checks its input and keeps the old values when the check
      fails. The constructor checks neither the name nor the type, so both may be null. */
  class Power {
    const name: Option<string>
    var powerType: PowerType?
    var yearStartUp: int32
    var capacitySinceStart: real
    var yearCapacity: int32

    constructor (name: Option<string>, powerType: PowerType?)
      ensures this.name == name && this.powerType == powerType
      ensures yearStartUp == 0 && capacitySinceStart == 0.0 && yearCapacity == 0
    {
      this.name := name;
      this.powerType := powerType;
      yearStartUp := 0;
      capacitySinceStart := 0.0;
      yearCapacity := 0;
    }

    /** setPowerType: null keeps the old type. */
    method SetPowerType(powerType: PowerType?)
      modifies this
      ensures this.powerType == (if powerType == null then old(this.powerType) else powerType)
      ensures yearStartUp == old(yearStartUp) && capacitySinceStart == old(capacitySinceStart)
      ensures yearCapacity == old(yearCapacity)
    {
      var check := AssertNotNull(if powerType == null then None else Some(powerType), POWER_TYPE_NULL);
      if check.Return? {
        this.powerType := powerType;
      }
    }

    /** setYearStartUp: a negative year keeps the old value. */
    method SetYearStartUp(yearStartUp: int32)
      modifies this
      ensures this.yearStartUp == (if yearStartUp < 0 then old(this.yearStartUp) else yearStartUp)
      ensures powerType == old(powerType) && capacitySinceStart == old(capacitySinceStart)
      ensures yearCapacity == old(yearCapacity)
    {
      var check := AssertPositiveZero(yearStartUp, YEAR_START_UP_NEGATIVE);
      if check.Return? {
        this.yearStartUp := yearStartUp;
      }
    }

    /** assertValidYearCapacity */
    function AssertValidYearCapacity(yearCapacity: int32): (r: Outcome<()>)
      reads this
      ensures r.Throw? <==> yearCapacity < yearStartUp
      ensures r.Throw? ==> r.exception == IllegalArgumentException(YEAR_CAPACITY_BEFORE_START_UP)
    {
      if yearCapacity < yearStartUp then Throw(IllegalArgumentException(YEAR_CAPACITY_BEFORE_START_UP))
      else Return(())
    }

    /** The checks of setCapacitySinceStart in their order: the capacity is not negative, the
        year is not negative, the year is not before the start-up year. The first that fails
        gives the exception. */
    function CheckCapacity(capacitySinceStart: real, yearCapacity: int32): (r: Outcome<()>)
      reads this
      ensures r.Return? <==> capacitySinceStart >= 0.0 && yearCapacity >= 0 && yearCapacity >= yearStartUp
      ensures r.Throw? ==> r.exception.IllegalArgumentException?
      ensures capacitySinceStart < 0.0 ==> r == Throw(IllegalArgumentException(CAPACITY_NEGATIVE))
      ensures capacitySinceStart >= 0.0 && yearCapacity < 0 ==>
        r == Throw(IllegalArgumentException(YEAR_CAPACITY_NEGATIVE))
    {
      match AssertPositiveZeroReal(capacitySinceStart, CAPACITY_NEGATIVE)
      case Throw(e) => Throw(e)
      case Return(_) =>
        match AssertPositiveZero(yearCapacity, YEAR_CAPACITY_NEGATIVE)
        case Throw(e) => Throw(e)
        case Return(_) => AssertValidYearCapacity(yearCapacity)
    }

    /** setCapacitySinceStart: the capacity and its year are set together, and only when
        every check passes; a failed check is caught and changes nothing. */
    method SetCapacitySinceStart(capacitySinceStart: real, yearCapacity: int32)
      modifies this
      ensures old(CheckCapacity(capacitySinceStart, yearCapacity)).Return? ==>
        this.capacitySinceStart == capacitySinceStart && this.yearCapacity == yearCapacity
      ensures old(CheckCapacity(capacitySinceStart, yearCapacity)).Throw? ==>
        this.capacitySinceStart == old(this.capacitySinceStart) && this.yearCapacity == old(this.yearCapacity)
      ensures powerType == old(powerType) && yearStartUp == old(yearStartUp)
    {
      var check := CheckCapacity(capacitySinceStart, yearCapacity);
      if check.Return? {
        DoSetCapacitySinceStart(capacitySinceStart, yearCapacity);
      }
    }

    /** The private doSetCapacitySinceStart(double, int): the year, then the capacity. */
    method DoSetCapacitySinceStart(capacitySinceStart: real, yearCapacity: int32)
      modifies this
      ensures this.capacitySinceStart == capacitySinceStart && this.yearCapacity == yearCapacity
      ensures powerType == old(powerType) && yearStartUp == old(yearStartUp)
    {
      this.yearCapacity := yearCapacity;
      this.capacitySinceStart := capacitySinceStart;
    }

    /** equals. The fields are compared in order, the name and the type through their own
        equals methods: String.equals is false for null, and so is the type's, given as
        typesEqual. When the numbers match, a Power without a name ends in a
        NullPointerException, and so does one without a type whose name also matches. */
    function Equals(obj: Object<Power>, typesEqual: bool): (r: Outcome<bool>)
      reads this, if obj.Instance? then {obj.value} else {}
      ensures !obj.Instance? ==> r == Return(false)
      ensures r.Throw? <==>
        obj.Instance? && SameNumbers(obj.value) && (name.None? || (name == obj.value.name && powerType == null))
      ensures r.Throw? ==> r.exception == NullPointerException
      ensures r == Return(true) <==>
        && obj.Instance? && SameNumbers(obj.value) && name.Some? && name == obj.value.name
        && powerType != null && obj.value.powerType != null && typesEqual
    {
      match obj
      case Instance(other) =>
        if yearStartUp == other.yearStartUp && yearCapacity == other.yearCapacity &&
           capacitySinceStart == other.capacitySinceStart
        then
          if name.None? then Throw(NullPointerException)
          else if name != other.name then Return(false)
          else if powerType == null then Throw(NullPointerException)
          else Return(other.powerType != null && typesEqual)
        else Return(false)
      case _ => Return(false)
    }

    /** The three numbers equals compares before the name and the type. */
    predicate SameNumbers(other: Power)
      reads this, other
    {
      yearStartUp == other.yearStartUp && yearCapacity == other.yearCapacity &&
      capacitySinceStart == other.capacitySinceStart
    }

    /** The arguments hashCode hands to Objects.hash, the type given by its hash code. */
    function Fields(powerTypeHash: int32): PowerFields
      reads this
    {
      PowerFields(yearStartUp, yearCapacity, capacitySinceStart, name, powerTypeHash)
    }

    /** hashCode: Objects.hash(yearStartUp, yearCapacity, capacitySinceStart, name, powerType).
        The hashes of a double and of a PowerType are left abstract: objectsHash stands for
        Objects.hash and typeHash for PowerType.hashCode. */
    function HashCode(objectsHash: PowerFields -> int32, typeHash: PowerType? -> int32): int32
      reads this
    {
      objectsHash(Fields(typeHash(powerType)))
    }
  }

  /** Equal Powers have equal hash codes, provided their types, being equal, hash alike. */
  lemma EqualPowersHashAlike(a: Power, b: Power, typesEqual: bool,
                             objectsHash: PowerFields -> int32, typeHash: PowerType? -> int32)
    requires a.Equals(Instance(b), typesEqual) == Return(true)
    requires typeHash(a.powerType) == typeHash(b.powerType)
    ensures a.HashCode(objectsHash, typeHash) == b.HashCode(objectsHash, typeHash)
  {
  }

  /** The exception-handling scenario: a plant started in 2012 with 5.2 GWh by 2017 takes
      7.3 GWh by 2018, then refuses 2.4 GWh by 2011 and keeps 7.3 and 2018. */
  method CapacityScenario(name: Option<string>, powerType: PowerType?) returns (power: Power)
    ensures power.yearStartUp == 2012
    ensures power.capacitySinceStart == 7.3 && power.yearCapacity == 2018
  {
    power := new Power(name, powerType);
    power.SetYearStartUp(2012);
    power.SetCapacitySinceStart(5.2, 2017);
    power.SetCapacitySinceStart(7.3, 2018);
    power.SetCapacitySinceStart(2.4, 2011);
  }

  /** yearCapacity >= yearStartUp is not an invariant: moving the start-up year later is
      not checked against the capacity year already set. */
  method StartUpAfterCapacityYear(name: Option<string>, powerType: PowerType?) returns (power: Power)
    ensures power.yearCapacity < power.yearStartUp
  {
    power := new Power(name, powerType);
    power.SetCapacitySinceStart(5.2, 2017);
    power.SetYearStartUp(2020);
  }
}
