/**
 * The hierarchy mapping processor: when an entity type is mapped, either its
 * base type is registered first, or the type's class map is marked as the
 * root class of its hierarchy.
 */
module HierarchyProcessor {
  import opened ClrTypes
  import opened EntityMappingState

  /** The one effect a call of the processor has. */
  datatype Effect = RegisterBase(baseType: TypeId) | MarkRoot

  /**
   * The processor's decision for entity type `t` given the registered types.
   * `t`'s base is looked at only once `t` is known not to be `object`.
   */
  function Decide(u: TypeUniverse, registered: set<TypeId>, t: TypeId): Effect
    requires WellFormed(u) && Contains(u, t)
  {
    if t != Object && BaseType(u, t) != Object && BaseType(u, t) !in registered then
      RegisterBase(BaseType(u, t))
    else
      MarkRoot
  }

  /**
   * The state the processor acts on, across all definitions: the registered
   * types, and the types whose class map carries the root-class flag.
   */
  datatype HierarchyState = HierarchyState(registered: set<TypeId>, roots: set<TypeId>)

  /** One call of the processor on the definition of `t`, as a state transformer. */
  function Step(u: TypeUniverse, s: HierarchyState, t: TypeId): (s': HierarchyState)
    requires WellFormed(u) && Contains(u, t)
    // exactly one of the two effects happens: a new registration and roots untouched ...
    ensures s'.registered != s.registered ==>
              t != Object && BaseType(u, t) != Object && BaseType(u, t) !in s.registered &&
              s'.registered == s.registered + {BaseType(u, t)} && s'.roots == s.roots
    // ... or no registration and `t` marked root
    ensures s'.registered == s.registered ==> s'.roots == s.roots + {t}
    // a registration happens exactly when the base is a class other than `object` not yet registered
    ensures s'.registered != s.registered <==>
              t != Object && BaseType(u, t) != Object && BaseType(u, t) !in s.registered
    // afterwards a base other than `object` is always registered, whichever branch was taken ...
    ensures t != Object && BaseType(u, t) != Object ==> BaseType(u, t) in s'.registered
    // ... and `object`, or a type derived directly from it, is always a root
    ensures t == Object || BaseType(u, t) == Object ==> t in s'.roots
  {
    match Decide(u, s.registered, t)
    case RegisterBase(b) => s.(registered := s.registered + {b})
    case MarkRoot => s.(roots := s.roots + {t})
  }

  /**
   * `IMappingProcessor.ApplyMapping` of the hierarchy processor. The registry,
   * a process-wide static in the source, is passed in explicitly; so is the
   * type universe that replaces reflection.
   */
  method ApplyMapping(u: TypeUniverse, registry: EntityMapping, definition: EntityDefinition, classMap: ClassMap)
    requires WellFormed(u) && Contains(u, definition.entityType)
    modifies registry, classMap
    ensures unchanged(definition)
    // the whole new state, in terms of the decision
    ensures var e := Decide(u, old(registry.registered), definition.entityType);
            registry.registered == (if e.RegisterBase? then old(registry.registered) + {e.baseType} else old(registry.registered)) &&
            classMap.isRootClass == (e.MarkRoot? || old(classMap.isRootClass))
    // the same, as the state transformer the run lemmas are about
    ensures var s' := Step(u, HierarchyState(old(registry.registered),
                                             if old(classMap.isRootClass) then {definition.entityType} else {}),
                           definition.entityType);
            registry.registered == s'.registered && (classMap.isRootClass <==> definition.entityType in s'.roots)
    // `object` itself, or a type derived directly from `object`: marked root, nothing registered
    ensures definition.entityType == Object || BaseType(u, definition.entityType) == Object ==>
              classMap.isRootClass && registry.registered == old(registry.registered)
    // a base other than `object` that is not registered: registered now, root flag left as it was
    ensures definition.entityType != Object && BaseType(u, definition.entityType) != Object &&
            BaseType(u, definition.entityType) !in old(registry.registered) ==>
              registry.registered == old(registry.registered) + {BaseType(u, definition.entityType)} &&
              classMap.isRootClass == old(classMap.isRootClass)
    // a base other than `object` that is already registered: marked root, nothing registered
    ensures definition.entityType != Object && BaseType(u, definition.entityType) in old(registry.registered) ==>
              classMap.isRootClass && registry.registered == old(registry.registered)
    // exactly one effect: a registration with the flag untouched, or the flag set with no registration
    ensures registry.registered != old(registry.registered) ==> classMap.isRootClass == old(classMap.isRootClass)
    ensures registry.registered == old(registry.registered) ==> classMap.isRootClass
    // the registry only grows, and only by the immediate base type; the flag is never cleared
    ensures old(registry.registered) <= registry.registered
    ensures definition.entityType != Object ==>
              registry.registered <= old(registry.registered) + {BaseType(u, definition.entityType)}
    ensures definition.entityType == Object ==> registry.registered == old(registry.registered)
    ensures old(classMap.isRootClass) ==> classMap.isRootClass
  {
    var entityType := definition.entityType;
    var registerBase := false;
    if entityType != Object {
      var baseType := BaseType(u, entityType);
      if baseType != Object {
        var isRegistered := registry.IsRegistered(baseType);
        registerBase := !isRegistered;
      }
    }
    if registerBase {
      registry.RegisterType(BaseType(u, entityType));
    } else {
      classMap.SetIsRootClass(true);
    }
  }
}
