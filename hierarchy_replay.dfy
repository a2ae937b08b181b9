/**
 * What the hierarchy processor guarantees over the life of the registry.
 * The registry's own registration code is not part of this model, so a run
 * is any interleaving of registrations made elsewhere and processor calls;
 * every lemma below holds for all such interleavings, including the one the
 * registry performs when it registers a hierarchy base-first.
 */
module HierarchyReplay {
  import opened ClrTypes
  import opened HierarchyProcessor

  datatype Event =
    | Register(t: TypeId)  // the registry registers `t` (an `EntityMapping.RegisterType` outside the processor)
    | Process(t: TypeId)   // the hierarchy processor is applied to the definition of `t`

  predicate InUniverse(u: TypeUniverse, events: seq<Event>)
  {
    forall i :: 0 <= i < |events| ==> Contains(u, events[i].t)
  }

  function Apply(u: TypeUniverse, s: HierarchyState, e: Event): HierarchyState
    requires WellFormed(u) && Contains(u, e.t)
  {
    match e
    case Register(t) => s.(registered := s.registered + {t})
    case Process(t) => Step(u, s, t)
  }

  function Replay(u: TypeUniverse, s: HierarchyState, events: seq<Event>): HierarchyState
    requires WellFormed(u) && InUniverse(u, events)
    decreases |events|
  {
    if events == [] then s else Replay(u, Apply(u, s, events[0]), events[1..])
  }

  /** The types registered from outside the processor. */
  function Requested(events: seq<Event>): (r: set<TypeId>)
    ensures forall t :: t in r <==> exists i :: 0 <= i < |events| && events[i] == Register(t)
  {
    if events == [] then {}
    else (if events[0].Register? then {events[0].t} else {}) + Requested(events[1..])
  }

  /** The types the processor is applied to. */
  function Processed(events: seq<Event>): (r: set<TypeId>)
    ensures forall t :: t in r <==> exists i :: 0 <= i < |events| && events[i] == Process(t)
  {
    if events == [] then {}
    else (if events[0].Process? then {events[0].t} else {}) + Processed(events[1..])
  }

  /** The immediate base types of the processed types, leaving out `object`. */
  function ProcessedBases(u: TypeUniverse, events: seq<Event>): set<TypeId>
    requires WellFormed(u) && InUniverse(u, events)
  {
    if events == [] then {}
    else
      (if events[0].Process? && events[0].t != Object && BaseType(u, events[0].t) != Object
       then {BaseType(u, events[0].t)} else {})
      + ProcessedBases(u, events[1..])
  }

  /** Nothing is ever removed from the registry, and no root flag is ever cleared. */
  lemma {:induction false} ReplayMonotone(u: TypeUniverse, s: HierarchyState, events: seq<Event>)
    requires WellFormed(u) && InUniverse(u, events)
    ensures s.registered <= Replay(u, s, events).registered
    ensures s.roots <= Replay(u, s, events).roots
    decreases |events|
  {
    if events != [] {
      ReplayMonotone(u, Apply(u, s, events[0]), events[1..]);
    }
  }

  /**
   * The processor registers nothing but immediate base types, other than
   * `object`, of the types it processes.
   */
  lemma {:induction false} ReplayRegistersOnlyBases(u: TypeUniverse, s: HierarchyState, events: seq<Event>)
    requires WellFormed(u) && InUniverse(u, events)
    ensures Replay(u, s, events).registered <= s.registered + Requested(events) + ProcessedBases(u, events)
    decreases |events|
  {
    if events != [] {
      ReplayRegistersOnlyBases(u, Apply(u, s, events[0]), events[1..]);
    }
  }

  /** Only processed types are ever marked as root classes. */
  lemma {:induction false} ReplayRootsOnlyProcessed(u: TypeUniverse, s: HierarchyState, events: seq<Event>)
    requires WellFormed(u) && InUniverse(u, events)
    ensures Replay(u, s, events).roots <= s.roots + Processed(events)
    decreases |events|
  {
    if events != [] {
      ReplayRootsOnlyProcessed(u, Apply(u, s, events[0]), events[1..]);
    }
  }

  /**
   * Base first: once a class derived from another class has been processed,
   * its base is registered, and stays so, even when the class was also marked
   * root; a processed type at the top of a hierarchy (`object`, or derived
   * directly from it) is a root class.
   */
  lemma {:induction false} ReplayBaseFirst(u: TypeUniverse, s: HierarchyState, events: seq<Event>)
    requires WellFormed(u) && InUniverse(u, events)
    ensures forall t :: t in Processed(events) && t != Object && BaseType(u, t) != Object ==>
              BaseType(u, t) in Replay(u, s, events).registered
    ensures forall t :: t in Processed(events) && (t == Object || BaseType(u, t) == Object) ==>
              t in Replay(u, s, events).roots
    decreases |events|
  {
    if events != [] {
      var s1 := Apply(u, s, events[0]);
      ReplayBaseFirst(u, s1, events[1..]);
      ReplayMonotone(u, s1, events[1..]);
    }
  }

  /**
   * A second call on the same definition always marks it root, and a third
   * call changes nothing more.
   */
  lemma ProcessTwiceMarksRoot(u: TypeUniverse, s: HierarchyState, t: TypeId)
    requires WellFormed(u) && Contains(u, t)
    ensures t in Step(u, Step(u, s, t), t).roots
    ensures Step(u, Step(u, Step(u, s, t), t), t) == Step(u, Step(u, s, t), t)
  {
  }

  /**
   * The processor is not idempotent: when the first call registers the base,
   * the second call on the same definition has a further effect.
   */
  lemma ProcessTwiceDiffers(u: TypeUniverse, s: HierarchyState, t: TypeId)
    requires WellFormed(u) && Contains(u, t) && t != Object
    requires BaseType(u, t) != Object && BaseType(u, t) !in s.registered && t !in s.roots
    ensures t !in Step(u, s, t).roots
    ensures Step(u, Step(u, s, t), t) != Step(u, s, t)
  {
  }

  /**
   * Root marking depends on the order of registration, and one hierarchy can
   * end up with two root classes. Take `t` derived from `b`, itself derived
   * from `object`. If `b` is processed and registered before `t` is
   * processed, both are marked root; if `t` is processed first, it registers
   * `b` and only `b` becomes root.
   */
  lemma RootMarkingDependsOnOrder(u: TypeUniverse, t: TypeId)
    requires WellFormed(u) && Contains(u, t) && t != Object
    requires BaseType(u, t) != Object && BaseType(u, BaseType(u, t)) == Object
    ensures var b := BaseType(u, t);
            Replay(u, HierarchyState({}, {}), [Process(b), Register(b), Process(t)]).roots == {b, t}
    ensures var b := BaseType(u, t);
            Replay(u, HierarchyState({}, {}), [Process(t), Process(b)]).roots == {b}
  {
    var b := BaseType(u, t);
    var empty := HierarchyState({}, {});
    // b processed first: it derives from `object`, so it is marked root
    var s1 := Step(u, empty, b);
    assert s1 == HierarchyState({}, {b});
    var s2 := Apply(u, s1, Register(b));
    // then t finds its base registered and is marked root too
    var s3 := Step(u, s2, t);
    assert s3 == HierarchyState({b}, {b, t});
    assert Replay(u, s2, [Process(t)]) == Replay(u, s3, []);
    assert Replay(u, s1, [Register(b), Process(t)]) == Replay(u, s2, [Process(t)]);
    assert Replay(u, empty, [Process(b), Register(b), Process(t)]) == Replay(u, s1, [Register(b), Process(t)]);
    // t processed first: it registers b and stays unmarked; b is then marked root
    var r1 := Step(u, empty, t);
    assert r1 == HierarchyState({b}, {});
    var r2 := Step(u, r1, b);
    assert r2 == HierarchyState({b}, {b});
    assert Replay(u, r1, [Process(b)]) == Replay(u, r2, []);
    assert Replay(u, empty, [Process(t), Process(b)]) == Replay(u, r1, [Process(b)]);
  }

  /** The two-class hierarchy `2 : 1 : object` exhibits two roots. */
  lemma TwoRootsExample()
    ensures var u := TypeUniverse(map[1 := 0, 2 := 1]);
            WellFormed(u) &&
            Replay(u, HierarchyState({}, {}), [Process(1), Register(1), Process(2)]).roots == {1, 2}
  {
    RootMarkingDependsOnOrder(TypeUniverse(map[1 := 0, 2 := 1]), 2);
  }
}
