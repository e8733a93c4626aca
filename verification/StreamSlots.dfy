/** The ceilings on open check-in streams: one counter per actor and event, one per actor, and a slot pair on the
    context of every request that holds a stream. */
module StreamSlots {
  type ActorKey = string
  type ContextId = nat

  /** An actor's key for one event. */
  datatype EventKey = EventKey(actor: ActorKey, event: string)

  datatype Limits = Limits(perEvent: nat, perActor: nat)

  // ---------------------------------------------------------------------------------------------- as values

  function Get<K>(counts: map<K, nat>, key: K): nat {
    if key in counts then counts[key] else 0
  }

  /** `releaseSlot` on a counter map: the last holder's entry goes. */
  function Released<K>(counts: map<K, nat>, key: K): map<K, nat> {
    if Get(counts, key) <= 1 then counts - {key} else counts[key := counts[key] - 1]
  }

  /** The two maps, and which slot each context holds. */
  datatype State = State(byEvent: map<EventKey, nat>, byActor: map<ActorKey, nat>, held: map<ContextId, EventKey>)

  predicate Full(s: State, key: EventKey, limits: Limits) {
    Get(s.byEvent, key) >= limits.perEvent || Get(s.byActor, key.actor) >= limits.perActor
  }

  /** What a granted acquire does. */
  function Acquired(s: State, c: ContextId, key: EventKey): State {
    State(s.byEvent[key := Get(s.byEvent, key) + 1], s.byActor[key.actor := Get(s.byActor, key.actor) + 1],
          s.held[c := key])
  }

  function AfterAcquire(s: State, c: ContextId, key: EventKey, limits: Limits): State {
    if Full(s, key, limits) then s else Acquired(s, c, key)
  }

  function AfterRelease(s: State, c: ContextId): State {
    if c !in s.held then s
    else State(Released(s.byEvent, s.held[c]), Released(s.byActor, s.held[c].actor), s.held - {c})
  }

  predicate NoZeros<K>(counts: map<K, nat>) {
    forall k :: k in counts ==> counts[k] > 0
  }

  // ---------------------------------------------------------------------------------------------- as it runs

  /** A counter map of the module. */
  class Counters<K(==)> {
    var counts: map<K, nat>

    constructor ()
      ensures counts == map[]
    {
      counts := map[];
    }

    /** `tryAcquireSlot`. */
    method TryAcquire(key: K, max: nat) returns (ok: bool)
      modifies this
      ensures ok <==> Get(old(counts), key) < max
      ensures counts == if ok then old(counts)[key := Get(old(counts), key) + 1] else old(counts)
    {
      var active := Get(counts, key);
      if active >= max { return false; }
      counts := counts[key := active + 1];
      ok := true;
    }

    /** `releaseSlot`. */
    method Release(key: K)
      modifies this
      ensures counts == Released(old(counts), key)
    {
      var current := if key in counts then counts[key] else 1;
      if current <= 1 {
        counts := counts - {key};
      } else {
        counts := counts[key := current - 1];
      }
    }
  }

  class CheckinStreams {
    const byEvent: Counters<EventKey>
    const byActor: Counters<ActorKey>
    var held: map<ContextId, EventKey>

    constructor ()
      ensures Valid() && View() == State(map[], map[], map[]) && fresh(byEvent) && fresh(byActor)
    {
      byEvent := new Counters();
      byActor := new Counters();
      held := map[];
    }

    function View(): State
      reads this, byEvent, byActor
    {
      State(byEvent.counts, byActor.counts, held)
    }

    /** An entry is there only while it counts somebody. */
    ghost predicate Valid()
      reads this, byEvent, byActor
    {
      NoZeros(byEvent.counts) && NoZeros(byActor.counts)
    }

    /** `tryAcquireCheckinStreamSlot`: the event slot first; when the actor has no room it is given back. */
    method TryAcquire(c: ContextId, key: EventKey, limits: Limits) returns (granted: bool)
      requires Valid()
      modifies this`held, byEvent, byActor
      ensures Valid()
      ensures granted <==> !Full(old(View()), key, limits)
      ensures View() == AfterAcquire(old(View()), c, key, limits)
    {
      var event := byEvent.TryAcquire(key, limits.perEvent);
      if !event { return false; }
      var actor := byActor.TryAcquire(key.actor, limits.perActor);
      if !actor {
        byEvent.Release(key);
        assert byEvent.counts == old(byEvent.counts);
        return false;
      }
      held := held[c := key];
      granted := true;
    }

    /** `releaseCheckinStreamSlot`: the context's slot is cleared, so a second release does nothing. */
    method Release(c: ContextId)
      requires Valid()
      modifies this`held, byEvent, byActor
      ensures Valid()
      ensures View() == AfterRelease(old(View()), c)
    {
      if c !in held { return; }
      var slot := held[c];
      held := held - {c};
      byEvent.Release(slot);
      byActor.Release(slot.actor);
    }
  }

  // ---------------------------------------------------------------------------------------------- conservation

  function Holders(held: map<ContextId, EventKey>, key: EventKey): set<ContextId> {
    set c | c in held && held[c] == key
  }

  function ActorHolders(held: map<ContextId, EventKey>, actor: ActorKey): set<ContextId> {
    set c | c in held && held[c].actor == actor
  }

  /** Every counter is the number of its live holders, and an entry is there only while it has one. */
  ghost predicate Conserved(s: State) {
    && NoZeros(s.byEvent) && NoZeros(s.byActor)
    && (forall key :: Get(s.byEvent, key) == |Holders(s.held, key)|)
    && (forall actor :: Get(s.byActor, actor) == |ActorHolders(s.held, actor)|)
  }

  predicate Within(s: State, limits: Limits) {
    && (forall key :: key in s.byEvent ==> s.byEvent[key] <= limits.perEvent)
    && (forall actor :: actor in s.byActor ==> s.byActor[actor] <= limits.perActor)
  }

  lemma HoldersGrow(held: map<ContextId, EventKey>, c: ContextId, key: EventKey, k: EventKey)
    requires c !in held
    ensures |Holders(held[c := key], k)| == |Holders(held, k)| + (if k == key then 1 else 0)
  {
    assert Holders(held[c := key], k) == if k == key then Holders(held, k) + {c} else Holders(held, k);
  }

  lemma ActorHoldersGrow(held: map<ContextId, EventKey>, c: ContextId, key: EventKey, actor: ActorKey)
    requires c !in held
    ensures |ActorHolders(held[c := key], actor)| == |ActorHolders(held, actor)| + (if actor == key.actor then 1 else 0)
  {
    assert ActorHolders(held[c := key], actor)
           == if actor == key.actor then ActorHolders(held, actor) + {c} else ActorHolders(held, actor);
  }

  lemma AcquireConserves(s: State, c: ContextId, key: EventKey, limits: Limits)
    requires Conserved(s) && c !in s.held
    ensures Conserved(AfterAcquire(s, c, key, limits))
  {
    if !Full(s, key, limits) {
      hide Holders, ActorHolders;
      var s' := Acquired(s, c, key);
      forall k ensures Get(s'.byEvent, k) == |Holders(s'.held, k)| { HoldersGrow(s.held, c, key, k); }
      forall a ensures Get(s'.byActor, a) == |ActorHolders(s'.held, a)| { ActorHoldersGrow(s.held, c, key, a); }
    }
  }

  lemma StaysWithin(s: State, op: Op, limits: Limits)
    requires Within(s, limits)
    ensures Within(Do(s, op, limits), limits)
  {
  }

  lemma ReleaseConserves(s: State, c: ContextId)
    requires Conserved(s)
    ensures Conserved(AfterRelease(s, c))
  {
    if c in s.held {
      var s' := AfterRelease(s, c);
      var key := s.held[c];
      assert c in Holders(s.held, key) && c in ActorHolders(s.held, key.actor);
      forall k ensures Get(s'.byEvent, k) == |Holders(s'.held, k)| {
        assert Holders(s'.held, k) == if k == key then Holders(s.held, k) - {c} else Holders(s.held, k);
      }
      forall a ensures Get(s'.byActor, a) == |ActorHolders(s'.held, a)| {
        assert ActorHolders(s'.held, a)
               == if a == key.actor then ActorHolders(s.held, a) - {c} else ActorHolders(s.held, a);
      }
    }
  }

  /** A granted acquire keeps the count exactly when its context holds no slot yet: a second one would overwrite the
      slot the first one has to be released by. */
  lemma WhenAcquireConserves(s: State, c: ContextId, key: EventKey, limits: Limits)
    requires Conserved(s) && !Full(s, key, limits)
    ensures Conserved(AfterAcquire(s, c, key, limits)) <==> c !in s.held
  {
    if c in s.held {
      var s' := Acquired(s, c, key);
      assert ActorHolders(s'.held, key.actor) <= ActorHolders(s.held, key.actor) + {c};
      if s.held[c].actor == key.actor {
        assert ActorHolders(s'.held, key.actor) == ActorHolders(s.held, key.actor);
      } else {
        var other := s.held[c];
        assert c in Holders(s.held, other) && Holders(s'.held, other) == Holders(s.held, other) - {c};
      }
    } else {
      AcquireConserves(s, c, key, limits);
    }
  }

  // ---------------------------------------------------------------------------------------------- every sequence

  datatype Op = Acquire(c: ContextId, key: EventKey) | Release(c: ContextId)

  function Do(s: State, op: Op, limits: Limits): State {
    match op
    case Acquire(c, key) => AfterAcquire(s, c, key, limits)
    case Release(c) => AfterRelease(s, c)
  }

  function DoAll(s: State, ops: seq<Op>, limits: Limits): State
    decreases ops
  {
    if ops == [] then s else DoAll(Do(s, ops[0], limits), ops[1..], limits)
  }

  /** Each context acquires only while it holds no slot, as a context belongs to one request. */
  predicate OncePerContext(s: State, ops: seq<Op>, limits: Limits)
    decreases ops
  {
    ops == [] || ((ops[0].Acquire? ==> ops[0].c !in s.held) && OncePerContext(Do(s, ops[0], limits), ops[1..], limits))
  }

  lemma {:induction false} SlotsAreConserved(s: State, ops: seq<Op>, limits: Limits)
    requires Conserved(s) && Within(s, limits) && OncePerContext(s, ops, limits)
    ensures Conserved(DoAll(s, ops, limits)) && Within(DoAll(s, ops, limits), limits)
    decreases ops
  {
    if ops != [] {
      match ops[0] {
        case Acquire(c, key) => AcquireConserves(s, c, key, limits);
        case Release(c) => ReleaseConserves(s, c);
      }
      StaysWithin(s, ops[0], limits);
      hide Conserved, Within;
      SlotsAreConserved(Do(s, ops[0], limits), ops[1..], limits);
    }
  }

  /** A slot can be released once: releasing again changes nothing, and acquire followed by release is as if neither had
      happened. */
  lemma ReleaseUndoesAcquire(s: State, c: ContextId, key: EventKey, limits: Limits)
    requires Conserved(s) && c !in s.held
    ensures AfterRelease(AfterRelease(s, c), c) == AfterRelease(s, c)
    ensures AfterRelease(AfterAcquire(s, c, key, limits), c) == s
  {
    var s' := AfterRelease(Acquired(s, c, key), c);
    assert s'.byEvent == s.byEvent && s'.byActor == s.byActor && s'.held == s.held;
  }

  // ---------------------------------------------------------------------------------------------- the two levels agree

  /** The sum of an actor's event counters. */
  ghost function SumFor(byEvent: map<EventKey, nat>, actor: ActorKey): nat
    decreases byEvent.Keys
  {
    if byEvent == map[] then 0
    else
      var key :| key in byEvent;
      (if key.actor == actor then byEvent[key] else 0) + SumFor(byEvent - {key}, actor)
  }

  /** The holders of an actor among the contexts whose key is still in the map. */
  ghost function Among(held: map<ContextId, EventKey>, byEvent: map<EventKey, nat>, actor: ActorKey): set<ContextId> {
    set c | c in held && held[c].actor == actor && held[c] in byEvent
  }

  lemma AmongSplits(held: map<ContextId, EventKey>, byEvent: map<EventKey, nat>, actor: ActorKey, key: EventKey)
    requires key in byEvent
    ensures |Among(held, byEvent, actor)|
            == |Among(held, byEvent - {key}, actor)| + (if key.actor == actor then |Holders(held, key)| else 0)
  {
    var rest := Among(held, byEvent - {key}, actor);
    if key.actor == actor {
      assert Among(held, byEvent, actor) == rest + Holders(held, key) && rest !! Holders(held, key);
    } else {
      assert Among(held, byEvent, actor) == rest;
    }
  }

  lemma {:induction false} SumCountsHolders(held: map<ContextId, EventKey>, byEvent: map<EventKey, nat>,
                                            actor: ActorKey)
    requires forall key :: key in byEvent ==> byEvent[key] == |Holders(held, key)|
    ensures SumFor(byEvent, actor) == |Among(held, byEvent, actor)|
    decreases byEvent.Keys
  {
    if byEvent == map[] {
      assert Among(held, byEvent, actor) == {};
    } else {
      var key :| key in byEvent
                 && SumFor(byEvent, actor)
                    == (if key.actor == actor then byEvent[key] else 0) + SumFor(byEvent - {key}, actor);
      hide Among, Holders, SumFor;
      SumCountsHolders(held, byEvent - {key}, actor);
      AmongSplits(held, byEvent, actor, key);
    }
  }

  /** An actor's counter is the sum of its event counters. */
  lemma ActorCounterIsTheSum(s: State, actor: ActorKey)
    requires Conserved(s)
    ensures Get(s.byActor, actor) == SumFor(s.byEvent, actor)
  {
    SumCountsHolders(s.held, s.byEvent, actor);
    forall c | c in ActorHolders(s.held, actor) ensures s.held[c] in s.byEvent {
      assert c in Holders(s.held, s.held[c]);
      assert Get(s.byEvent, s.held[c]) == |Holders(s.held, s.held[c])|;
    }
    assert Among(s.held, s.byEvent, actor) == ActorHolders(s.held, actor);
  }

  // ---------------------------------------------------------------------------------------------- who is let in

  /** Told from the contexts that hold a stream: a further one is granted exactly when the actor has fewer than the
      limit open on that event and fewer than the limit in all. */
  lemma WhenItIsGranted(s: State, key: EventKey, limits: Limits)
    requires Conserved(s)
    ensures !Full(s, key, limits)
            <==> && |set c | c in s.held && s.held[c] == key| < limits.perEvent
                 && |set c | c in s.held && s.held[c].actor == key.actor| < limits.perActor
  {
    assert Holders(s.held, key) == set c | c in s.held && s.held[c] == key;
    assert ActorHolders(s.held, key.actor) == set c | c in s.held && s.held[c].actor == key.actor;
  }

  /** Each context acquires at most once, as it belongs to one request. */
  predicate OneAcquireEach(ops: seq<Op>) {
    forall i, j :: 0 <= i < j < |ops| && ops[i].Acquire? && ops[j].Acquire? ==> ops[i].c != ops[j].c
  }

  lemma {:induction false} OneEachIsOncePerContext(s: State, ops: seq<Op>, limits: Limits)
    requires OneAcquireEach(ops) && forall i :: 0 <= i < |ops| && ops[i].Acquire? ==> ops[i].c !in s.held
    ensures OncePerContext(s, ops, limits)
    decreases ops
  {
    if ops != [] {
      var s' := Do(s, ops[0], limits);
      assert s'.held.Keys <= s.held.Keys + (if ops[0].Acquire? then {ops[0].c} else {});
      OneEachIsOncePerContext(s', ops[1..], limits);
    }
  }

  /** From the start, whatever is acquired and released in whatever order: no actor ever has more streams open than the
      two limits allow, on one event and in all, and the counters say how many. */
  lemma {:induction false} NeverMoreThanTheLimits(ops: seq<Op>, limits: Limits, key: EventKey)
    requires OneAcquireEach(ops)
    ensures var s := DoAll(State(map[], map[], map[]), ops, limits);
            && |set c | c in s.held && s.held[c] == key| <= limits.perEvent
            && |set c | c in s.held && s.held[c].actor == key.actor| <= limits.perActor
            && Get(s.byEvent, key) == |set c | c in s.held && s.held[c] == key|
            && Get(s.byActor, key.actor) == |set c | c in s.held && s.held[c].actor == key.actor|
  {
    var s0 := State(map[], map[], map[]);
    assert Conserved(s0) by {
      forall k: EventKey ensures Holders(s0.held, k) == {} {}
      forall a: ActorKey ensures ActorHolders(s0.held, a) == {} {}
    }
    OneEachIsOncePerContext(s0, ops, limits);
    SlotsAreConserved(s0, ops, limits);
    var s := DoAll(s0, ops, limits);
    assert Holders(s.held, key) == set c | c in s.held && s.held[c] == key;
    assert ActorHolders(s.held, key.actor) == set c | c in s.held && s.held[c].actor == key.actor;
  }
}
