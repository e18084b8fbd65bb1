/** The per-character lock of the inventory service: a map from key to a
    reference-counted mutex whose entry is evicted by its last user.

    Goroutines are interleaved statement by statement. A `refMutex` is an
    allocated object with an identity (`Mid`), so that a key evicted and locked
    again is guarded by a different object, and a stale pointer would be
    visible. The map and the counters are written one statement at a time; the
    guard `k.mu` is a lock of its own with an owner. */
module KeyedMutex {
  import opened Common

  type Tid = nat
  type Key = int
  type Mid = nat

  datatype RefMutex = RefMutex(holder: Option<Tid>, refs: int)

  /** Where a goroutine stands in `lock` or in the closure it returned. */
  datatype Pc =
    | Idle
    | Entering(key: Key)              // holds k.mu, before the lookup
    | Counting(key: Key, m: Mid)      // holds k.mu, entry found or inserted
    | Waiting(key: Key, m: Mid)       // counted, k.mu released, before m.mu.Lock
    | Holding(key: Key, m: Mid)       // inside the critical section
    | Leaving(key: Key, m: Mid)       // m.mu released, before k.mu.Lock
    | Dropping(key: Key, m: Mid)      // holds k.mu, before refs--
    | Evicting(key: Key, m: Mid)      // holds k.mu, refs-- done

  datatype State = State(
    mu: Option<Tid>,
    locks: map<Key, Mid>,
    heap: seq<RefMutex>,
    pcs: map<Tid, Pc>)

  /** `Lock(t, key)` enters `lock(key)`; `Step(t)` runs t's next statement. */
  datatype Event = Lock(t: Tid, key: Key) | Step(t: Tid)

  predicate InGuard(pc: Pc) { pc.Entering? || pc.Counting? || pc.Dropping? || pc.Evicting? }

  predicate HasMutex(pc: Pc) { !pc.Idle? && !pc.Entering? }

  /** Counted in `refs`: registered and not yet deregistered. */
  predicate Registered(pc: Pc, m: Mid) {
    (pc.Waiting? || pc.Holding? || pc.Leaving? || pc.Dropping?) && pc.m == m
  }

  /** Both are inside the critical section of one key. */
  predicate BothHold(pc: Pc, other: Pc) { pc.Holding? && other.Holding? && pc.key == other.key }

  predicate Enabled(s: State, e: Event) {
    e.t in s.pcs &&
    var pc := s.pcs[e.t];
    (HasMutex(pc) ==> pc.m < |s.heap|) &&
    match e
    case Lock(_, _) => pc.Idle? && s.mu.None?
    case Step(_) =>
      match pc
      case Idle => false
      case Waiting(_, m) => s.heap[m].holder.None?
      case Leaving(_, _) => s.mu.None?
      case _ => true
  }

  function Apply(s: State, e: Event): State
    requires Enabled(s, e)
  {
    var t := e.t;
    match e
    case Lock(_, key) => s.(mu := Some(t), pcs := s.pcs[t := Entering(key)])
    case Step(_) =>
      match s.pcs[t]
      case Entering(key) =>
        if key in s.locks then
          s.(pcs := s.pcs[t := Counting(key, s.locks[key])])
        else
          s.(locks := s.locks[key := |s.heap|],
             heap := s.heap + [RefMutex(None, 0)],
             pcs := s.pcs[t := Counting(key, |s.heap|)])
      case Counting(key, m) =>
        s.(mu := None,
           heap := s.heap[m := s.heap[m].(refs := s.heap[m].refs + 1)],
           pcs := s.pcs[t := Waiting(key, m)])
      case Waiting(key, m) =>
        s.(heap := s.heap[m := s.heap[m].(holder := Some(t))], pcs := s.pcs[t := Holding(key, m)])
      case Holding(key, m) =>
        s.(heap := s.heap[m := s.heap[m].(holder := None)], pcs := s.pcs[t := Leaving(key, m)])
      case Leaving(key, m) =>
        s.(mu := Some(t), pcs := s.pcs[t := Dropping(key, m)])
      case Dropping(key, m) =>
        s.(heap := s.heap[m := s.heap[m].(refs := s.heap[m].refs - 1)], pcs := s.pcs[t := Evicting(key, m)])
      case Evicting(key, m) =>
        s.(mu := None,
           locks := if s.heap[m].refs == 0 then s.locks - {key} else s.locks,
           pcs := s.pcs[t := Idle])
  }

  /** A step moves only its own goroutine, and into the critical section only
      from the wait for its mutex. */
  lemma OwnPcOnly(s: State, e: Event)
    requires Enabled(s, e)
    ensures var pcs := Apply(s, e).pcs;
      && e.t in pcs && pcs == s.pcs[e.t := pcs[e.t]]
      && (pcs[e.t].Holding? <==> e.Step? && s.pcs[e.t].Waiting?)
  {
  }

  predicate Init(s: State) {
    s.mu.None? && s.locks == map[] && s.heap == [] && forall t :: t in s.pcs ==> s.pcs[t].Idle?
  }

  predicate ValidRun(s: State, es: seq<Event>)
    decreases |es|
  {
    |es| == 0 || (Enabled(s, es[0]) && ValidRun(Apply(s, es[0]), es[1..]))
  }

  function Run(s: State, es: seq<Event>): State
    requires ValidRun(s, es)
    decreases |es|
  {
    if |es| == 0 then s else Run(Apply(s, es[0]), es[1..])
  }

  // ------------------------------------------------------------- invariant

  ghost function Users(pcs: map<Tid, Pc>, m: Mid): set<Tid> {
    set t | t in pcs && Registered(pcs[t], m)
  }

  ghost predicate GuardInv(s: State) {
    && (forall t :: t in s.pcs && InGuard(s.pcs[t]) ==> s.mu == Some(t))
    && (s.mu.Some? ==> s.mu.value in s.pcs && InGuard(s.pcs[s.mu.value]))
  }

  /** Every pointer held by a goroutine is the map's current entry for its key. */
  ghost predicate LinkInv(s: State) {
    forall t :: t in s.pcs && HasMutex(s.pcs[t]) ==>
      s.pcs[t].key in s.locks && s.locks[s.pcs[t].key] == s.pcs[t].m
  }

  ghost predicate MapInv(s: State) {
    && (forall k :: k in s.locks ==> s.locks[k] < |s.heap|)
    && (forall k, l :: k in s.locks && l in s.locks && s.locks[k] == s.locks[l] ==> k == l)
  }

  ghost predicate RefsInv(s: State) {
    forall k :: k in s.locks ==> s.locks[k] < |s.heap| && s.heap[s.locks[k]].refs == |Users(s.pcs, s.locks[k])|
  }

  ghost predicate BetweenStatements(s: State, k: Key) {
    s.mu.Some? && s.mu.value in s.pcs &&
    var pc := s.pcs[s.mu.value];
    (pc.Counting? || pc.Evicting?) && pc.key == k
  }

  /** An entry without users exists only while its creator or its evictor is
      between two statements of its guarded section. */
  ghost predicate LiveInv(s: State) {
    forall k :: k in s.locks && s.locks[k] < |s.heap| && s.heap[s.locks[k]].refs == 0 ==> BetweenStatements(s, k)
  }

  ghost predicate HolderInv(s: State) {
    && (forall t :: t in s.pcs && s.pcs[t].Holding? ==>
          s.pcs[t].m < |s.heap| && s.heap[s.pcs[t].m].holder == Some(t))
    && (forall m :: 0 <= m < |s.heap| && s.heap[m].holder.Some? ==>
          var t := s.heap[m].holder.value; t in s.pcs && s.pcs[t].Holding? && s.pcs[t].m == m)
  }

  ghost predicate Inv(s: State) {
    GuardInv(s) && LinkInv(s) && MapInv(s) && RefsInv(s) && LiveInv(s) && HolderInv(s)
  }

  lemma UsersChange(pcs: map<Tid, Pc>, t: Tid, pc: Pc, m: Mid)
    requires t in pcs
    ensures |Users(pcs[t := pc], m)| ==
            |Users(pcs, m)| - (if Registered(pcs[t], m) then 1 else 0) + (if Registered(pc, m) then 1 else 0)
  {
    var rest := Users(pcs, m) - {t};
    assert Users(pcs, m) == if Registered(pcs[t], m) then rest + {t} else rest;
    assert Users(pcs[t := pc], m) == if Registered(pc, m) then rest + {t} else rest;
  }

  lemma FreshHasNoUsers(s: State)
    requires LinkInv(s) && MapInv(s)
    ensures Users(s.pcs, |s.heap|) == {}
  {
  }

  lemma RefsStep(s: State, e: Event)
    requires Inv(s) && Enabled(s, e)
    ensures RefsInv(Apply(s, e))
  {
    var s' := Apply(s, e);
    var t := e.t;
    FreshHasNoUsers(s);
    forall k | k in s'.locks
      ensures s'.locks[k] < |s'.heap| && s'.heap[s'.locks[k]].refs == |Users(s'.pcs, s'.locks[k])|
    {
      UsersChange(s.pcs, t, s'.pcs[t], s'.locks[k]);
    }
  }

  lemma EvictorIsAlone(s: State, t: Tid)
    requires Inv(s) && t in s.pcs && s.pcs[t].Evicting? && s.pcs[t].m < |s.heap|
    requires s.heap[s.pcs[t].m].refs == 0
    ensures forall u :: u in s.pcs && u != t && HasMutex(s.pcs[u]) ==> s.pcs[u].key != s.pcs[t].key
  {
    var m := s.pcs[t].m;
    assert Users(s.pcs, m) == {};
    forall u | u in s.pcs && u != t && HasMutex(s.pcs[u])
      ensures s.pcs[u].key != s.pcs[t].key
    {
      assert u !in Users(s.pcs, m);
    }
  }

  lemma LinkStep(s: State, e: Event)
    requires Inv(s) && Enabled(s, e)
    ensures LinkInv(Apply(s, e)) && MapInv(Apply(s, e))
  {
    if e.Step? && s.pcs[e.t].Evicting? && s.heap[s.pcs[e.t].m].refs == 0 {
      EvictorIsAlone(s, e.t);
    }
  }

  lemma GuardStep(s: State, e: Event)
    requires Inv(s) && Enabled(s, e)
    ensures GuardInv(Apply(s, e))
  {
  }

  /** A statement that touches no holder, by a goroutine outside the section. */
  lemma HolderFrame(s: State, s': State, t: Tid)
    requires HolderInv(s) && t in s.pcs && t in s'.pcs && s'.pcs == s.pcs[t := s'.pcs[t]]
    requires !s.pcs[t].Holding? && !s'.pcs[t].Holding? && |s.heap| <= |s'.heap|
    requires forall m :: 0 <= m < |s'.heap| ==> s'.heap[m].holder == if m < |s.heap| then s.heap[m].holder else None
    ensures HolderInv(s')
  {
  }

  lemma HolderTake(s: State, t: Tid)
    requires HolderInv(s) && Enabled(s, Step(t)) && s.pcs[t].Waiting?
    ensures HolderInv(Apply(s, Step(t)))
  {
  }

  lemma HolderFree(s: State, t: Tid)
    requires HolderInv(s) && Enabled(s, Step(t)) && s.pcs[t].Holding?
    ensures HolderInv(Apply(s, Step(t)))
  {
  }

  lemma HolderStep(s: State, e: Event)
    requires Inv(s) && Enabled(s, e)
    ensures HolderInv(Apply(s, e))
  {
    if e.Step? && s.pcs[e.t].Waiting? {
      HolderTake(s, e.t);
    } else if e.Step? && s.pcs[e.t].Holding? {
      HolderFree(s, e.t);
    } else {
      HolderFrame(s, Apply(s, e), e.t);
    }
  }

  lemma LiveStep(s: State, e: Event)
    requires Inv(s) && Enabled(s, e)
    ensures LiveInv(Apply(s, e))
  {
  }

  /** Every statement of every goroutine keeps the invariant. */
  lemma StepKeepsInv(s: State, e: Event)
    requires Inv(s) && Enabled(s, e)
    ensures Inv(Apply(s, e))
  {
    RefsStep(s, e);
    LinkStep(s, e);
    HolderStep(s, e);
    GuardStep(s, e);
    LiveStep(s, e);
  }

  lemma {:induction false} RunKeepsInv(s: State, es: seq<Event>)
    requires Inv(s) && ValidRun(s, es)
    ensures Inv(Run(s, es))
    decreases |es|
  {
    if |es| != 0 {
      StepKeepsInv(s, es[0]);
      RunKeepsInv(Apply(s, es[0]), es[1..]);
    }
  }

  // --------------------------------------------------------------- theorems

  lemma InitHasInv(s: State)
    requires Init(s)
    ensures Inv(s)
  {
  }

  lemma NoUsers(pcs: map<Tid, Pc>, m: Mid)
    requires forall t :: t in pcs ==> pcs[t].Idle?
    ensures Users(pcs, m) == {} && |Users(pcs, m)| == 0
  {
    assert Users(pcs, m) == {};
  }

  lemma IdleMeansEmpty(s: State)
    requires Inv(s) && forall t :: t in s.pcs ==> s.pcs[t].Idle?
    ensures s.locks == map[]
  {
    if s.locks.Keys != {} {
      var k := Member(s.locks.Keys);
      NoUsers(s.pcs, s.locks[k]);
      assert false;
    }
  }

  /** In every interleaving, from an empty map: at most one goroutine holds a
      key; the count of an entry is the number of goroutines registered on it
      and not yet released; nobody waits for or holds a mutex that is not the
      map's entry for that key; and no entry outlives its users. */
  lemma EveryRunIsExclusive(s0: State, es: seq<Event>)
    requires Init(s0) && ValidRun(s0, es)
    ensures var s := Run(s0, es);
      && (forall t, u :: t in s.pcs && u in s.pcs && BothHold(s.pcs[t], s.pcs[u]) ==> t == u)
      && (forall t :: t in s.pcs && HasMutex(s.pcs[t]) ==>
            s.pcs[t].key in s.locks && s.locks[s.pcs[t].key] == s.pcs[t].m)
      && (forall k :: k in s.locks ==>
            s.locks[k] < |s.heap| && s.heap[s.locks[k]].refs == |Users(s.pcs, s.locks[k])|)
      && ((forall t :: t in s.pcs ==> s.pcs[t].Idle?) ==> s.locks == map[])
  {
    InitHasInv(s0);
    RunKeepsInv(s0, es);
    if forall t :: t in Run(s0, es).pcs ==> Run(s0, es).pcs[t].Idle? { IdleMeansEmpty(Run(s0, es)); }
  }

  /** A statement that removes a key removes the entry of a key that nobody
      holds or awaits any more, and it is the evictor's own key. */
  lemma EvictionOnlyWhenUnused(s0: State, es: seq<Event>, e: Event, k: Key)
    requires Init(s0) && ValidRun(s0, es) && Enabled(Run(s0, es), e)
    requires k in Run(s0, es).locks && k !in Apply(Run(s0, es), e).locks
    ensures var s := Run(s0, es);
      && s.pcs[e.t] == Evicting(k, s.locks[k])
      && (forall u :: u in s.pcs && u != e.t && HasMutex(s.pcs[u]) ==> s.pcs[u].key != k)
  {
    InitHasInv(s0);
    RunKeepsInv(s0, es);
    EvictorIsAlone(Run(s0, es), e.t);
  }

  /** A counted waiter can always be served: its mutex is free, or it is held
      by a goroutine whose next statement releases it. */
  lemma WaiterIsServable(s0: State, es: seq<Event>, t: Tid)
    requires Init(s0) && ValidRun(s0, es)
    requires t in Run(s0, es).pcs && Run(s0, es).pcs[t].Waiting?
    ensures var s := Run(s0, es);
      || Enabled(s, Step(t))
      || (exists u :: u in s.pcs && s.pcs[u] == Holding(s.pcs[t].key, s.pcs[t].m) && Enabled(s, Step(u)))
  {
    InitHasInv(s0);
    RunKeepsInv(s0, es);
    var s := Run(s0, es);
    var key, m := s.pcs[t].key, s.pcs[t].m;
    if s.heap[m].holder.Some? {
      var u := s.heap[m].holder.value;
      assert s.pcs[u].m == m && s.locks[s.pcs[u].key] == m;
      assert s.pcs[u] == Holding(key, m) && Enabled(s, Step(u));
    }
  }

  // ------------------------------------------- the two guarded sections

  class RefCell {
    var refs: nat
    constructor () ensures refs == 0 { refs := 0; }
  }

  /** The map as the two sections guarded by `k.mu` update it in place. */
  class LockTable {
    var locks: map<Key, RefCell>

    ghost predicate Valid()
      reads this, locks.Values
    {
      && (forall k :: k in locks ==> locks[k].refs > 0)
      && (forall k, l :: k in locks && l in locks && locks[k] == locks[l] ==> k == l)
    }

    ghost function Counts(): map<Key, nat>
      reads this, locks.Values
    {
      map k | k in locks :: locks[k].refs
    }

    constructor ()
      ensures Valid() && Counts() == map[]
    {
      locks := map[];
    }

    method Register(key: Key) returns (m: RefCell)
      requires Valid()
      modifies this, locks.Values
      ensures Valid() && key in locks && locks[key] == m
      ensures Counts() == old(Counts())[key := if key in old(locks) then old(Counts()[key]) + 1 else 1]
      ensures key in old(locks) ==> m == old(locks[key])
      ensures key !in old(locks) ==> fresh(m)
    {
      if key in locks {
        m := locks[key];
      } else {
        m := new RefCell();
        locks := locks[key := m];
      }
      m.refs := m.refs + 1;
      assert forall k :: k in locks && k != key ==> k in old(locks) && locks[k] == old(locks[k]) && locks[k] != m;
      assert Counts().Keys == old(Counts()).Keys + {key};
    }

    method Deregister(key: Key, m: RefCell)
      requires Valid() && key in locks && locks[key] == m
      modifies this, m
      ensures Valid()
      ensures Counts() == if old(m.refs) == 1 then old(Counts()) - {key} else old(Counts())[key := old(m.refs) - 1]
    {
      m.refs := m.refs - 1;
      if m.refs == 0 {
        locks := locks - {key};
      }
      assert forall k :: k in locks && k != key ==> locks[k] == old(locks[k]) && locks[k] != m;
      assert Counts().Keys == locks.Keys;
    }
  }
}
