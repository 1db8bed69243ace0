/**
 * `ManagerContainer`: the registry that hands out one manager per manager
 * class, creating it the first time it is asked for and returning the
 * same instance afterwards.
 */
module Container {
  import M = Managers
  import P = Persistence

  /**
   * A manager object: the generic manager instantiated for one kind of
   * entity. Every manager's constructor connects to the one shared
   * database.
   */
  class Manager {
    const kind: M.Kind
    const db: P.Database

    constructor (k: M.Kind, d: P.Database)
      ensures kind == k && db == d
    {
      kind, db := k, d;
    }
  }

  class ManagerContainer {
    /** The database every manager constructed here works on. */
    const db: P.Database
    /** The stored managers, by class. */
    var managers: map<M.Kind, Manager>

    /** Each stored manager is of the class it is stored under. */
    ghost predicate Valid()
      reads this
    {
      forall k :: k in managers ==> managers[k].kind == k && managers[k].db == db
    }

    /** The private constructor, run once to create the static instance. */
    constructor (d: P.Database)
      ensures Valid() && db == d && managers == map[]
    {
      db := d;
      managers := map[];
    }

    /** `has(c)`: whether a manager of class `k` is stored. */
    predicate Has(k: M.Kind)
      reads this
    {
      k in managers
    }

    /**
     * `get(c)`: the stored manager of class `k`; when there is none, a new
     * one, stored under `k`. Reflective construction may fail, in which
     * case the exception is swallowed, nothing is stored and null is
     * returned.
     */
    method Get(k: M.Kind) returns (m: Manager?)
      requires Valid()
      modifies this`managers
      ensures Valid()
      ensures old(Has(k)) ==> m == old(managers[k]) && managers == old(managers)
      ensures !old(Has(k)) && m != null ==> fresh(m) && m.kind == k && m.db == db && managers == old(managers)[k := m]
      ensures !old(Has(k)) && m == null ==> managers == old(managers)
      ensures m != null ==> Has(k) && managers[k] == m
      ensures forall j :: j != k && j in old(managers) ==> j in managers && managers[j] == old(managers[j])
      ensures forall j :: j != k && j !in old(managers) ==> j !in managers
    {
      if Has(k) {
        return managers[k];
      }
      m := null;
      var constructed: bool := *;
      if constructed {
        m := new Manager(k, db);
        managers := managers[k := m];
      }
    }
  }

  /** The class `ManagerContainer` itself, with its static `instance` created at class initialisation. */
  class ContainerClass {
    const instance: ManagerContainer

    constructor (d: P.Database)
      ensures fresh(instance) && instance.Valid() && instance.db == d && instance.managers == map[]
    {
      instance := new ManagerContainer(d);
    }

    /** `getInstance()`: the one container, whatever the call. */
    method GetInstance() returns (c: ManagerContainer)
      ensures c == instance
    {
      c := instance;
    }
  }
}
