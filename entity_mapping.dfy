/**
 * The objects the hierarchy processor works on: the entity definition it is
 * handed, the driver's class map reduced to its root-class flag, and the
 * entity mapping registry reduced to the set of registered types.
 */
module EntityMappingState {
  import opened ClrTypes

  /** The definition being built for one entity type; the processor only reads its type. */
  class EntityDefinition {
    var entityType: TypeId

    constructor (t: TypeId)
      ensures entityType == t
    {
      entityType := t;
    }
  }

  /** A driver class map, of which only the "is root class" flag is modelled; it starts cleared. */
  class ClassMap {
    var isRootClass: bool

    constructor ()
      ensures !isRootClass
    {
      isRootClass := false;
    }

    method SetIsRootClass(isRootClass: bool)
      modifies this
      ensures this.isRootClass == isRootClass
    {
      this.isRootClass := isRootClass;
    }
  }

  /**
   * The entity mapping registry as an explicit context object. Only the set
   * of registered types is modelled: registering adds a type and removes
   * nothing, and a registration test is membership.
   */
  class EntityMapping {
    var registered: set<TypeId>

    constructor ()
      ensures registered == {}
    {
      registered := {};
    }

    method IsRegistered(t: TypeId) returns (r: bool)
      ensures r <==> t in registered
    {
      r := t in registered;
    }

    method RegisterType(t: TypeId)
      modifies this
      ensures registered == old(registered) + {t}
    {
      registered := registered + {t};
    }
  }
}
