# MongoFramework hierarchy mapping processor, modelled in Dafny

MongoFramework maps CLR entity types onto MongoDB documents. When a type is
registered with the entity mapping registry (`EntityMapping`), a chain of
mapping processors runs on the half-built entity definition and on the
driver's `BsonClassMap`. The hierarchy processor
(`HierarchyProcessor.ApplyMapping`) makes one decision:

- if the entity type is not `object`, its base type is not `object`, and that
  base type is not registered yet, it registers the base type first;
- otherwise it marks the class map as the root class of its hierarchy. This
  includes a subclass whose base is already registered.

Root marking therefore depends on the order in which types are registered,
and two classes of one hierarchy can both end up as root classes: a base
class processed and registered before its subclass is marked root, and so is
the subclass, because its base is already registered. Processed the other way
round, the subclass registers its base and only the base is marked root. The
model keeps this behaviour as written and proves it
(`RootMarkingDependsOnOrder`, `TwoRootsExample`).

The model has four parts:

- `clr_types.dfy` (`ClrTypes`): a finite type universe replacing reflection.
  It has an `Object` sentinel and a base-type function. Every base class is
  numbered before the classes derived from it, so there are no inheritance
  cycles.
- `entity_mapping.dfy` (`EntityMappingState`): the objects the processor
  works on, as classes with mutable fields. `EntityDefinition` holds the entity
  type. `ClassMap` is `BsonClassMap` reduced to its `isRootClass` flag.
  `EntityMapping` is the registry reduced to its set of registered types. The
  registry is an explicit object passed to the processor, not a static global.
- `hierarchy_processor.dfy` (`HierarchyProcessor`): the decision as a pure
  function (`Decide`) and as a state transformer (`Step`). Beside them is the
  imperative `ApplyMapping` method, which changes the registry and the class
  map in place. Its postconditions tie the new state to `Decide` and to `Step`,
  and spell out each case of the rule. The condition is evaluated in the source's
  short-circuit order: the base type of `object` is never looked at.
- `hierarchy_replay.dfy` (`HierarchyReplay`): what holds over a whole run.
  A run is any interleaving of registrations made elsewhere and processor
  calls. Over every run, nothing is removed from the registry and no root flag
  is cleared. The processor registers only immediate base types and marks only
  processed types as roots. Every processed class derived from another class
  ends up with that base registered, whether or not it was also marked root,
  and every processed type at the top of a hierarchy ends up a root (base
  first).

## Model

| member | source | states |
|---|---|---|
| `ClrTypes.BaseType` | src/MongoFramework/Infrastructure/Mapping/Processors/HierarchyProcessor.cs:11 | `entityType.BaseType` is defined for every type except `object`, lies in the universe, and precedes the derived type (no type is its own ancestor) |
| `EntityMappingState.EntityMapping.IsRegistered` | src/MongoFramework/Infrastructure/Mapping/Processors/HierarchyProcessor.cs:11 | `EntityMapping.IsRegistered(t)` is true exactly when `t` is in the registered set |
| `EntityMappingState.EntityMapping.RegisterType` | src/MongoFramework/Infrastructure/Mapping/Processors/HierarchyProcessor.cs:13 | `EntityMapping.RegisterType(t)` adds `t` to the registered set and removes nothing |
| `EntityMappingState.ClassMap.SetIsRootClass` | src/MongoFramework/Infrastructure/Mapping/Processors/HierarchyProcessor.cs:17 | `BsonClassMap.SetIsRootClass(v)` sets the root-class flag to `v` |
| `HierarchyProcessor.Step` | src/MongoFramework/Infrastructure/Mapping/Processors/HierarchyProcessor.cs:11-18 | exactly one effect per call: either the registry gains the immediate base (which was missing and is not `object`) and the roots are untouched, or the registry is unchanged and the type is marked root; afterwards a non-`object` base is registered whichever branch was taken, and `object` or a type derived directly from it is a root |
| `HierarchyProcessor.ApplyMapping` | src/MongoFramework/Infrastructure/Mapping/Processors/HierarchyProcessor.cs:8-19 | the new registry and root flag are those the decision gives, and those `Step` gives from the old registry and flag. `object` and types derived directly from `object` are marked root with nothing registered. A missing base is registered with the flag left as it was. A registered base leaves the registry unchanged and marks the type root. The registry only grows, and only by the immediate base. The flag is never cleared, and the definition is only read |
| `HierarchyReplay.ReplayMonotone` | src/MongoFramework/Infrastructure/Mapping/Processors/HierarchyProcessor.cs:13-17 | over any run, no registered type is removed and no root flag is cleared |
| `HierarchyReplay.ReplayRegistersOnlyBases` | src/MongoFramework/Infrastructure/Mapping/Processors/HierarchyProcessor.cs:11-13 | over any run, every newly registered type was registered from outside or is the immediate base, other than `object`, of a processed type; so the processor never registers `object` |
| `HierarchyReplay.ReplayRootsOnlyProcessed` | src/MongoFramework/Infrastructure/Mapping/Processors/HierarchyProcessor.cs:15-17 | over any run, only types the processor was applied to become root classes |
| `HierarchyReplay.ReplayBaseFirst` | src/MongoFramework/Infrastructure/Mapping/Processors/HierarchyProcessor.cs:11-18 | after any run, every processed class whose base is not `object` has that base registered, even if it was also marked root; every processed type that is `object` or derives directly from it is a root class |
| `HierarchyReplay.ProcessTwiceMarksRoot` | src/MongoFramework/Infrastructure/Mapping/Processors/HierarchyProcessor.cs:11-18 | a second call on the same type always marks it root, and a third call changes nothing |
| `HierarchyReplay.ProcessTwiceDiffers` | src/MongoFramework/Infrastructure/Mapping/Processors/HierarchyProcessor.cs:11-18 | the processor is not idempotent: when the first call registers a missing base and leaves the type unmarked, a second call changes the state again |
| `HierarchyReplay.RootMarkingDependsOnOrder` | src/MongoFramework/Infrastructure/Mapping/Processors/HierarchyProcessor.cs:11-17 | for a class `t` derived from `b`, itself derived from `object`: processing `b`, registering `b`, then processing `t` marks both `b` and `t` root; processing `t` then `b` marks only `b` |
| `HierarchyReplay.TwoRootsExample` | src/MongoFramework/Infrastructure/Mapping/Processors/HierarchyProcessor.cs:11-17 | the concrete hierarchy `2 : 1 : object` ends with both classes marked root after processing 1, registering 1 and processing 2 |

## Left out

- The internals of `EntityMapping.RegisterType` and `EntityMapping.IsRegistered`
  are not part of this model. That covers building the definition, the
  processor chain that `RegisterType` runs recursively, caching and locking.
  `RegisterType` only adds its argument to the registered set. The registry's
  own transitive registrations are covered only by the run lemmas, which hold
  for any interleaving of registrations and processor calls.
- `BsonClassMap` belongs to the MongoDB driver and is reduced to its root-class
  flag. The discriminator and other class-map settings are not modelled.
- Reflection over CLR types is replaced by an explicit, finite universe of
  classes. Interfaces and other types whose `BaseType` is `null` are outside
  the universe, so the model does not cover calling `IsRegistered(null)` on
  them.
- `EntityPropertyMap` (MongoFramework/Infrastructure/Mapping/EntityPropertyMap.cs)
  is a property bag with no behaviour and is not modelled.
- The queryable, the query provider, the entity collection and the writer
  pipeline that the LINQ queryable tests exercise are not part of this model.
  They are separate from the hierarchy processor and depend on a live MongoDB
  connection.
- Concurrent registration from several threads is not modelled.
