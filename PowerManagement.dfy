/**
 * PowerManager: the singleton that builds Powers of a named type and records each one in
 * a registry keyed by the Power's hash code.
 */
module PowerManagement {
  import opened JavaLang
  import opened Asserts
  import opened Powers

  /** PowerManager. The static map powerInstances and the static PowerType table it interns
      through are fields here. Power.hashCode needs the hashes of a double and of a
      PowerType, which are left abstract as objectsHash and typeHash. */
  class PowerManager {
    var powerInstances: map<int32, Power>
    const types: PowerTypeTable
    const objectsHash: PowerFields -> int32
    const typeHash: PowerType? -> int32

    /** The private constructor, which does nothing; the registry starts empty. */
    constructor (types: PowerTypeTable, objectsHash: PowerFields -> int32, typeHash: PowerType? -> int32)
      ensures powerInstances == map[]
      ensures this.types == types && this.objectsHash == objectsHash && this.typeHash == typeHash
    {
      powerInstances := map[];
      this.types := types;
      this.objectsHash := objectsHash;
      this.typeHash := typeHash;
    }

    /** createPower: rejects a null type name before touching either registry; otherwise
        interns the type, has it create a Power (whose name the missing constructor
        Power(PowerType) would choose, given here as name) and files the Power under its hash
        code, replacing any Power already filed there. */
    method CreatePower(typeName: Option<string>, name: Option<string>) returns (r: Outcome<Power>)
      modifies this, types
      ensures typeName.None? ==> r == Throw(IllegalArgumentException(TYPE_NAME_NULL))
      ensures typeName.None? ==> powerInstances == old(powerInstances) && types.instances == old(types.instances)
      ensures typeName.Some? ==> r.Return? && fresh(r.value)
      ensures typeName.Some? ==>
        && r.value.powerType != null
        && Interned(typeName.value, r.value.powerType, old(types.instances), types.instances)
      ensures typeName.Some? ==>
        && r.value.name == name
        && r.value.yearStartUp == 0 && r.value.capacitySinceStart == 0.0 && r.value.yearCapacity == 0
        && powerInstances == old(powerInstances)[r.value.HashCode(objectsHash, typeHash) := r.value]
    {
      var check := AssertNotNull(typeName, TYPE_NAME_NULL);
      if check.Throw? {
        return Throw(check.exception);
      }
      var powerType := types.GetPowerType(typeName);
      var power := powerType.value.CreatePower(name);
      powerInstances := powerInstances[power.HashCode(objectsHash, typeHash) := power];
      return Return(power);
    }
  }

  /** The static final field PowerManager.instance and its accessor. */
  class PowerManagerSingleton {
    const instance: PowerManager

    constructor (instance: PowerManager)
      ensures this.instance == instance
    {
      this.instance := instance;
    }

    /** getInstace: every call returns the one instance. */
    method GetInstace() returns (manager: PowerManager)
      ensures manager == instance
    {
      manager := instance;
    }
  }

  /** Two managers obtained from the singleton are the same object, so they share one
      registry. */
  method SingletonIsShared(singleton: PowerManagerSingleton) returns (first: PowerManager, second: PowerManager)
    ensures first == second
  {
    first := singleton.GetInstace();
    second := singleton.GetInstace();
  }

  /** Creating Powers of the same type name twice gives two distinct Powers of one shared
      type. */
  method SameTypeNameSharesType(manager: PowerManager, typeName: string, name1: Option<string>, name2: Option<string>)
    returns (p1: Outcome<Power>, p2: Outcome<Power>)
    modifies manager, manager.types
    ensures p1.Return? && p2.Return?
    ensures p1.value != p2.value && p1.value.powerType == p2.value.powerType
  {
    p1 := manager.CreatePower(Some(typeName), name1);
    p2 := manager.CreatePower(Some(typeName), name2);
  }
}
