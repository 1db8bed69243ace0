/**
 * Identity of persisted entities: `Entity.equals` compares ids when the two
 * runtime classes are the same or one is the direct superclass of the other
 * (an entity and its lazy proxy), and `Entity.hashCode` mixes the runtime
 * class's hash with the id in 32-bit arithmetic.
 */
module Identity {
  import opened Wrappers

  /** The runtime classes of entities. */
  datatype EntityClass =
    | BuildingClass
    | FluidClass
    | SensorClass
    | SensorProxyClass
    | ValueClass
    | ValueProxyClass

  /**
   * The direct superclass of a runtime class, when it is itself an entity
   * class that objects can have (the abstract Entity class has no instances).
   */
  function Superclass(c: EntityClass): Option<EntityClass>
  {
    match c
    case SensorProxyClass => Some(SensorClass)
    case ValueProxyClass => Some(ValueClass)
    case _ => None
  }

  /** An entity object seen through `equals`: its runtime class and its id. */
  datatype EntityKey = EntityKey(cls: EntityClass, id: int)

  /** The argument of `equals(Object)`. */
  datatype Obj = Null | NonEntity | Ent(key: EntityKey)

  /** Same runtime class, or one the direct superclass of the other. */
  predicate Related(a: EntityClass, b: EntityClass)
  {
    a == b || Superclass(b) == Some(a) || Superclass(a) == Some(b)
  }

  /** `self.equals(obj)`. */
  function Equals(self: EntityKey, obj: Obj): bool
  {
    obj.Ent? && Related(self.cls, obj.key.cls) && self.id == obj.key.id
  }

  /** The class a runtime class shares its identity with: a proxy's is its entity class. */
  function BaseClass(c: EntityClass): (b: EntityClass)
    ensures Superclass(b) == None
    ensures Related(c, b)
  {
    match Superclass(c)
    case Some(s) => s
    case None => c
  }

  /** Two runtime classes are related exactly when they have the same base class. */
  lemma RelatedIffSameBase(a: EntityClass, b: EntityClass)
    ensures Related(a, b) <==> BaseClass(a) == BaseClass(b)
  {
  }

  /** An entity equals itself. */
  lemma EqualsReflexive(k: EntityKey)
    ensures Equals(k, Ent(k))
  {
  }

  /** Equality of entities is symmetric. */
  lemma EqualsSymmetric(a: EntityKey, b: EntityKey)
    ensures Equals(a, Ent(b)) <==> Equals(b, Ent(a))
  {
  }

  /** Equality of entities is transitive: an entity, its proxy and another proxy of it are all equal. */
  lemma EqualsTransitive(a: EntityKey, b: EntityKey, c: EntityKey)
    requires Equals(a, Ent(b)) && Equals(b, Ent(c))
    ensures Equals(a, Ent(c))
  {
    RelatedIffSameBase(a.cls, b.cls);
    RelatedIffSameBase(b.cls, c.cls);
    RelatedIffSameBase(a.cls, c.cls);
  }

  /** Two entities are equal exactly when they have the same base class and the same id. */
  lemma EqualsIff(a: EntityKey, obj: Obj)
    ensures Equals(a, obj) <==> obj.Ent? && BaseClass(a.cls) == BaseClass(obj.key.cls) && a.id == obj.key.id
  {
    if obj.Ent? {
      RelatedIffSameBase(a.cls, obj.key.cls);
    }
  }

  /** Nothing equals null or an object that is not an entity. */
  lemma NotEqualsNonEntity(a: EntityKey)
    ensures !Equals(a, Null) && !Equals(a, NonEntity)
  {
  }

  /** Entities of unrelated kinds with the same id are not equal: a building is never a fluid. */
  lemma UnrelatedKindsUnequal(a: EntityKey, b: EntityKey)
    requires BaseClass(a.cls) != BaseClass(b.cls)
    ensures !Equals(a, Ent(b)) && !Equals(b, Ent(a))
  {
    RelatedIffSameBase(a.cls, b.cls);
    RelatedIffSameBase(b.cls, a.cls);
  }

  const TwoTo32: int := 0x1_0000_0000

  /** Java `int` arithmetic: the value brought back into [-2^31, 2^31) modulo 2^32. */
  function Int32(x: int): (r: int)
    ensures -TwoTo32 / 2 <= r < TwoTo32 / 2
    ensures (r - x) % TwoTo32 == 0
  {
    var m := x % TwoTo32;
    if m >= TwoTo32 / 2 then m - TwoTo32 else m
  }

  /**
   * `hashCode()` as written: `(getClass().hashCode() + id) * 31` in 32-bit
   * arithmetic; `classHash` stands for the identity hash of each runtime
   * class object, which the program does not control.
   */
  function HashCode(k: EntityKey, classHash: EntityClass -> int): int
  {
    Int32((classHash(k.cls) + k.id) * 31)
  }

  /** Entities of the same runtime class and id hash alike. */
  lemma HashSameClass(a: EntityKey, b: EntityKey, classHash: EntityClass -> int)
    requires a == b
    ensures HashCode(a, classHash) == HashCode(b, classHash)
  {
  }

  /**
   * The hash as written breaks the equals/hashCode contract: a sensor and
   * the proxy of the same row are equal, yet with class hashes 1 and 2 and
   * id 0 they hash to 31 and 62.
   */
  lemma HashCodeBreaksContract()
    ensures Equals(EntityKey(SensorClass, 0), Ent(EntityKey(SensorProxyClass, 0)))
    ensures HashCode(EntityKey(SensorClass, 0), c => if c == SensorClass then 1 else 2) == 31
    ensures HashCode(EntityKey(SensorProxyClass, 0), c => if c == SensorClass then 1 else 2) == 62
  {
  }

  /** The hash the contract calls for: the base class's hash instead of the runtime class's. */
  function ConsistentHashCode(k: EntityKey, classHash: EntityClass -> int): int
  {
    Int32((classHash(BaseClass(k.cls)) + k.id) * 31)
  }

  /** With the base class's hash, equal entities always hash alike, whatever the class hashes. */
  lemma ConsistentHashCodeAgrees(a: EntityKey, b: EntityKey, classHash: EntityClass -> int)
    requires Equals(a, Ent(b))
    ensures ConsistentHashCode(a, classHash) == ConsistentHashCode(b, classHash)
  {
    RelatedIffSameBase(a.cls, b.cls);
  }
}
