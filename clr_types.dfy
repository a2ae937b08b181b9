/**
 * The CLR type information the hierarchy processor reads, without reflection:
 * a finite universe of class types, each with its base type, and the
 * universal root type `object` as a sentinel.
 */
module ClrTypes {

  /**
   * A type is identified by its position in a declaration order in which
   * every base class comes before the classes derived from it.
   */
  type TypeId = nat

  /** `typeof(object)`: the one type without a base type. */
  const Object: TypeId := 0

  /** The base-type function: `baseOf[t]` is `t.BaseType` for every class other than `object`. */
  datatype TypeUniverse = TypeUniverse(baseOf: map<TypeId, TypeId>)

  /**
   * `object` has no base, every base is itself a type of the universe, and
   * a base is declared before the type derived from it (so no type is its
   * own ancestor).
   */
  predicate WellFormed(u: TypeUniverse)
  {
    Object !in u.baseOf &&
    forall t :: t in u.baseOf ==> u.baseOf[t] < t && (u.baseOf[t] == Object || u.baseOf[t] in u.baseOf)
  }

  predicate Contains(u: TypeUniverse, t: TypeId)
  {
    t == Object || t in u.baseOf
  }

  /** `t.BaseType`, defined for every type of the universe except `object`. */
  function BaseType(u: TypeUniverse, t: TypeId): (b: TypeId)
    requires WellFormed(u) && Contains(u, t) && t != Object
    ensures Contains(u, b) && b < t
  {
    u.baseOf[t]
  }
}
