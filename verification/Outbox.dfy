/** The transactional outbox and its relay.

    A row becomes visible when its transaction commits. The relay fetches
    undispatched rows by id, publishes each one that decodes and then marks it;
    it may crash between any two statements, and a mark may fail with or without
    having been applied. A pruner deletes rows marked long enough ago. */
module Outbox {
  import opened Common

  type Id = nat

  datatype Act = Pub(id: Id) | Mark(id: Id) | LostMark(id: Id)

  datatype Fault = NoFault | NotApplied | AppliedButFailed

  /** `rows` maps a visible row to its published_at; `decodes` says for every
      row ever committed whether the registry rebuilds its event; `log` is what
      the relay did. */
  datatype State = State(
    rows: map<Id, Option<nat>>,
    decodes: map<Id, bool>,
    now: nat,
    batch: seq<Id>,
    pos: nat,
    sent: bool,
    log: seq<Act>)
  {
    predicate Busy() { pos < |batch| }
    predicate Dispatched(id: Id) { id in decodes && (id in rows ==> rows[id].Some?) }
    predicate Pruned(id: Id) { id in decodes && id !in rows }
  }

  datatype Event =
    | Commit(id: Id, decodes: bool)
    | Fetch(limit: nat)
    | Publish
    | MarkRow(fault: Fault)
    | Crash
    | Prune(retention: nat)
    | Tick(dt: nat)

  function Undispatched(rows: map<Id, Option<nat>>): set<int> {
    set id | id in rows && rows[id].None? :: id
  }

  function Take(s: seq<int>, n: nat): seq<int> { if n <= |s| then s[..n] else s }

  lemma TakeIsNat(rows: map<Id, Option<nat>>, n: nat)
    ensures forall x :: x in Take(Ascending(Undispatched(rows)), n) ==> x >= 0 && x in rows && rows[x].None?
  {
    var all := Ascending(Undispatched(rows));
    AscendingIsSorted(Undispatched(rows));
    assert forall k :: 0 <= k < |all| ==> all[k] in all;
  }

  /** SELECT ... WHERE published_at IS NULL ORDER BY id LIMIT n. */
  function Select(rows: map<Id, Option<nat>>, n: nat): (ids: seq<Id>)
    ensures forall x :: x in ids ==> x in rows && rows[x].None?
  {
    TakeIsNat(rows, n);
    var t := Take(Ascending(Undispatched(rows)), n);
    assert forall k :: 0 <= k < |t| ==> t[k] in t;
    seq(|t|, k requires 0 <= k < |t| => t[k])
  }

  /** DELETE ... WHERE published_at IS NOT NULL AND published_at < now - retention. */
  function Unpruned(rows: map<Id, Option<nat>>, retention: nat, now: nat): map<Id, Option<nat>> {
    map id | id in rows && !(rows[id].Some? && rows[id].value + retention < now) :: rows[id]
  }

  predicate Enabled(s: State, e: Event) {
    match e
    case Commit(id, _) => id !in s.decodes
    case Fetch(_) => !s.Busy()
    case Publish => s.Busy() && !s.sent && s.batch[s.pos] in s.decodes
    case MarkRow(_) => s.Busy() && s.sent && s.batch[s.pos] in s.rows
    case Crash => s.Busy()
    case Prune(_) => true
    case Tick(_) => true
  }

  function Apply(s: State, e: Event): State
    requires Enabled(s, e)
  {
    match e
    case Commit(id, decodes) => s.(rows := s.rows[id := None], decodes := s.decodes[id := decodes])
    case Fetch(limit) => s.(batch := Select(s.rows, limit), pos := 0, sent := false)
    case Publish =>
      var id := s.batch[s.pos];
      s.(sent := true, log := if s.decodes[id] then s.log + [Pub(id)] else s.log)
    case MarkRow(fault) =>
      var id := s.batch[s.pos];
      match fault {
        case NoFault => s.(rows := s.rows[id := Some(s.now)], pos := s.pos + 1, sent := false, log := s.log + [Mark(id)])
        case NotApplied => s.(batch := [], pos := 0, sent := false, log := s.log + [LostMark(id)])
        case AppliedButFailed =>
          s.(rows := s.rows[id := Some(s.now)], batch := [], pos := 0, sent := false, log := s.log + [Mark(id)])
      }
    case Crash =>
      s.(batch := [], pos := 0, sent := false, log := if s.sent then s.log + [LostMark(s.batch[s.pos])] else s.log)
    case Prune(retention) =>
      s.(rows := Unpruned(s.rows, retention, s.now))
    case Tick(dt) => s.(now := s.now + dt)
  }

  predicate Init(s: State) {
    s.rows == map[] && s.decodes == map[] && s.batch == [] && s.pos == 0 && !s.sent && s.log == []
  }

  predicate ValidRun(s: State, es: seq<Event>)
    decreases |es|
  {
    |es| == 0 || (Enabled(s, es[0]) && ValidRun(Apply(s, es[0]), es[1..]))
  }

  function Run(s: State, es: seq<Event>): State
    requires ValidRun(s, es)
    decreases |es|
  {
    if |es| == 0 then s else Run(Apply(s, es[0]), es[1..])
  }

  // ------------------------------------------------------------ invariant

  ghost predicate BatchInv(s: State) {
    && s.rows.Keys <= s.decodes.Keys
    && s.pos <= |s.batch| && StrictlyIncreasing(s.batch) && (s.sent ==> s.Busy())
    && (forall k :: s.pos <= k < |s.batch| ==> s.batch[k] in s.rows && s.rows[s.batch[k]].None?)
  }

  /** Each mark of a decodable row comes after a publish of it. */
  ghost predicate PubFirst(log: seq<Act>, decodes: map<Id, bool>) {
    forall j :: 0 <= j < |log| && log[j].Mark? ==>
      log[j].id in decodes && (decodes[log[j].id] ==> Pub(log[j].id) in log[..j])
  }

  ghost predicate LogInv(s: State) {
    && PubFirst(s.log, s.decodes)
    && (forall id :: id in s.decodes ==> (s.Dispatched(id) <==> Mark(id) in s.log))
    && (s.sent && s.Busy() && s.batch[s.pos] in s.decodes && s.decodes[s.batch[s.pos]] ==> Pub(s.batch[s.pos]) in s.log)
    && (forall id :: Pub(id) in s.log ==> id in s.decodes)
  }

  /** Deliveries a row may be ahead of its lost marks. */
  function Ahead(s: State, id: Id): nat {
    if s.Dispatched(id) || (s.sent && s.Busy() && s.batch[s.pos] == id) then 1 else 0
  }

  ghost predicate CountInv(s: State) {
    forall id :: Count(Pub(id), s.log) <= Count(LostMark(id), s.log) + Ahead(s, id)
  }

  ghost predicate Inv(s: State) { BatchInv(s) && LogInv(s) && CountInv(s) }

  lemma SelectIsSorted(rows: map<Id, Option<nat>>, n: nat)
    ensures StrictlyIncreasing(Select(rows, n))
    ensures |Select(rows, n)| == n || (|Select(rows, n)| < n && forall id :: id in rows && rows[id].None? ==> id in Select(rows, n))
    ensures forall id, x :: id in rows && rows[id].None? && id !in Select(rows, n) && x in Select(rows, n) ==> x < id
  {
    var all := Ascending(Undispatched(rows));
    AscendingIsSorted(Undispatched(rows));
    var ids := Select(rows, n);
    assert forall k :: 0 <= k < |ids| ==> ids[k] == all[k];
    if |ids| < n {
      forall id | id in rows && rows[id].None? ensures id in ids {
        assert id in all;
        var k :| 0 <= k < |all| && all[k] == id;
        assert ids[k] == id;
      }
    }
    forall id, x | id in rows && rows[id].None? && id !in ids && x in ids ensures x < id {
      assert id in all;
      var k :| 0 <= k < |all| && all[k] == id;
      assert forall j :: 0 <= j < |ids| ==> ids[j] in ids;
    }
  }

  lemma BatchStep(s: State, e: Event)
    requires BatchInv(s) && Enabled(s, e)
    ensures BatchInv(Apply(s, e))
  {
    if e.Fetch? { SelectIsSorted(s.rows, e.limit); }
  }

  lemma InLog(log: seq<Act>, a: Act, b: Act)
    ensures b in log + [a] <==> b in log || b == a
  {
  }

  lemma PubFirstAppend(log: seq<Act>, decodes: map<Id, bool>, a: Act)
    requires PubFirst(log, decodes)
    requires a.Mark? ==> a.id in decodes && (decodes[a.id] ==> Pub(a.id) in log)
    ensures PubFirst(log + [a], decodes)
  {
    forall j | 0 <= j < |log + [a]| && (log + [a])[j].Mark?
      ensures var id := (log + [a])[j].id; id in decodes && (decodes[id] ==> Pub(id) in (log + [a])[..j])
    {
      if j < |log| { assert (log + [a])[..j] == log[..j]; } else { assert (log + [a])[..j] == log; }
    }
  }

  lemma QuietLog(s: State, e: Event)
    requires Inv(s) && Enabled(s, e) && (e.Commit? || e.Fetch? || e.Prune? || e.Tick?)
    ensures LogInv(Apply(s, e))
  {
  }

  lemma PublishLog(s: State)
    requires Inv(s) && Enabled(s, Publish)
    ensures LogInv(Apply(s, Publish))
  {
    var id := s.batch[s.pos];
    if s.decodes[id] {
      PubFirstAppend(s.log, s.decodes, Pub(id));
      forall b ensures b in s.log + [Pub(id)] <==> b in s.log || b == Pub(id) { InLog(s.log, Pub(id), b); }
    }
  }

  lemma MarkLog(s: State, fault: Fault)
    requires Inv(s) && Enabled(s, MarkRow(fault))
    ensures LogInv(Apply(s, MarkRow(fault)))
  {
    var id := s.batch[s.pos];
    assert id in s.decodes;
    var a := if fault.NotApplied? then LostMark(id) else Mark(id);
    PubFirstAppend(s.log, s.decodes, a);
    forall b ensures b in s.log + [a] <==> b in s.log || b == a { InLog(s.log, a, b); }
  }

  lemma CrashLog(s: State)
    requires Inv(s) && Enabled(s, Crash)
    ensures LogInv(Apply(s, Crash))
  {
    if s.sent {
      var a := LostMark(s.batch[s.pos]);
      PubFirstAppend(s.log, s.decodes, a);
      forall b ensures b in s.log + [a] <==> b in s.log || b == a { InLog(s.log, a, b); }
    }
  }

  lemma LogStep(s: State, e: Event)
    requires Inv(s) && Enabled(s, e)
    ensures LogInv(Apply(s, e))
  {
    match e
    case Publish => PublishLog(s);
    case MarkRow(fault) => MarkLog(s, fault);
    case Crash => CrashLog(s);
    case _ => QuietLog(s, e);
  }

  lemma AppendCount(log: seq<Act>, a: Act, id: Id, k: nat, k': nat)
    requires Count(Pub(id), log) <= Count(LostMark(id), log) + k
    requires k + (if a == Pub(id) then 1 else 0) <= k' + (if a == LostMark(id) then 1 else 0)
    ensures Count(Pub(id), log + [a]) <= Count(LostMark(id), log + [a]) + k'
  {
    CountAppend(Pub(id), log, a);
    CountAppend(LostMark(id), log, a);
  }

  lemma AheadAppend(s: State, e: Event, a: Act, id: Id)
    requires BatchInv(s) && Enabled(s, e) && Apply(s, e).log == s.log + [a]
    ensures Ahead(s, id) + (if a == Pub(id) then 1 else 0) <= Ahead(Apply(s, e), id) + (if a == LostMark(id) then 1 else 0)
  {
    assert a == Apply(s, e).log[|s.log|];
    assert s.Busy() ==> s.batch[s.pos] in s.rows && s.batch[s.pos] in s.decodes;
  }

  lemma AheadQuiet(s: State, e: Event, id: Id)
    requires BatchInv(s) && Enabled(s, e) && Apply(s, e).log == s.log
    ensures Ahead(s, id) <= Ahead(Apply(s, e), id)
  {
  }

  lemma CountStep(s: State, e: Event)
    requires Inv(s) && Enabled(s, e)
    ensures CountInv(Apply(s, e))
  {
    var s' := Apply(s, e);
    forall id ensures Count(Pub(id), s'.log) <= Count(LostMark(id), s'.log) + Ahead(s', id) {
      if |s'.log| > |s.log| {
        var a := s'.log[|s.log|];
        AheadAppend(s, e, a, id);
        AppendCount(s.log, a, id, Ahead(s, id), Ahead(s', id));
      } else {
        AheadQuiet(s, e, id);
      }
    }
  }

  lemma {:induction false} RunKeepsInv(s: State, es: seq<Event>)
    requires Inv(s) && ValidRun(s, es)
    ensures Inv(Run(s, es))
    decreases |es|
  {
    if |es| != 0 {
      BatchStep(s, es[0]);
      LogStep(s, es[0]);
      CountStep(s, es[0]);
      RunKeepsInv(Apply(s, es[0]), es[1..]);
    }
  }

  // ------------------------------------------------------------- theorems

  /** Over every run, with crashes and failing marks anywhere: a decodable row
      was published before each mark of it; a row marked or pruned was
      published if it decodes; a row that is gone was marked; and a row was
      delivered at most once more than its marks were lost. */
  lemma EveryRunDeliversAtLeastOnce(s0: State, es: seq<Event>, id: Id)
    requires Init(s0) && ValidRun(s0, es)
    ensures var s := Run(s0, es);
      && PubFirst(s.log, s.decodes)
      && (s.Dispatched(id) && s.decodes[id] ==> Pub(id) in s.log)
      && (s.Pruned(id) ==> Mark(id) in s.log)
      && Count(Pub(id), s.log) <= 1 + Count(LostMark(id), s.log)
  {
    RunKeepsInv(s0, es);
    var s := Run(s0, es);
    if s.Dispatched(id) && s.decodes[id] {
      var j :| 0 <= j < |s.log| && s.log[j] == Mark(id);
      var i :| 0 <= i < |s.log[..j]| && s.log[..j][i] == Pub(id);
      assert s.log[i] == Pub(id);
    }
  }

  /** Without crashes and failing marks every row is delivered at most once. */
  lemma FaultFreeIsExactlyOnce(s0: State, es: seq<Event>, id: Id)
    requires Init(s0) && ValidRun(s0, es) && LostMark(id) !in Run(s0, es).log
    ensures Count(Pub(id), Run(s0, es).log) <= 1
    ensures Run(s0, es).Dispatched(id) && Run(s0, es).decodes[id] ==> Count(Pub(id), Run(s0, es).log) == 1
  {
    EveryRunDeliversAtLeastOnce(s0, es, id);
  }

  /** Rows become visible in id order. */
  predicate Ordered(s: State, es: seq<Event>)
    requires ValidRun(s, es)
    decreases |es|
  {
    |es| == 0 ||
    ((es[0].Commit? ==> forall i :: i in s.decodes ==> i < es[0].id) && Ordered(Apply(s, es[0]), es[1..]))
  }

  /** Whatever lies at or below the batch's last row is dispatched or still to
      come in the batch. */
  ghost predicate FrontInv(s: State) {
    s.Busy() ==> forall i :: i in s.decodes ==>
      s.Dispatched(i) || Remaining(s, i) || s.batch[|s.batch| - 1] < i
  }

  predicate Remaining(s: State, i: Id) { exists k :: s.pos <= k < |s.batch| && s.batch[k] == i }

  /** Every publish comes after a publish of each smaller decodable row. */
  ghost predicate GapFree(log: seq<Act>, decodes: map<Id, bool>) {
    forall p, i :: 0 <= p < |log| && log[p].Pub? && i in decodes && decodes[i] && i < log[p].id ==> Pub(i) in log[..p]
  }

  lemma FetchFront(s: State, limit: nat)
    requires BatchInv(s) && Enabled(s, Fetch(limit))
    ensures FrontInv(Apply(s, Fetch(limit)))
  {
    var s' := Apply(s, Fetch(limit));
    SelectIsSorted(s.rows, limit);
    assert forall i :: i in s'.batch ==> Remaining(s', i);
    assert s'.Busy() ==> s'.batch[|s'.batch| - 1] in s'.batch;
  }

  lemma MarkFront(s: State, fault: Fault)
    requires BatchInv(s) && FrontInv(s) && Enabled(s, MarkRow(fault))
    ensures FrontInv(Apply(s, MarkRow(fault)))
  {
    var s' := Apply(s, MarkRow(fault));
    if s'.Busy() {
      forall i | i in s'.decodes ensures s'.Dispatched(i) || Remaining(s', i) || s'.batch[|s'.batch| - 1] < i {
        if Remaining(s, i) && i != s.batch[s.pos] {
          var k :| s.pos <= k < |s.batch| && s.batch[k] == i;
          assert s'.batch[k] == i;
        }
      }
    }
  }

  lemma CommitFront(s: State, id: Id, decodes: bool)
    requires BatchInv(s) && FrontInv(s) && Enabled(s, Commit(id, decodes)) && forall i :: i in s.decodes ==> i < id
    ensures FrontInv(Apply(s, Commit(id, decodes)))
  {
    if s.Busy() { assert s.batch[|s.batch| - 1] in s.decodes; }
  }

  lemma QuietFront(s: State, e: Event)
    requires FrontInv(s) && Enabled(s, e) && (e.Publish? || e.Crash? || e.Prune? || e.Tick?)
    ensures FrontInv(Apply(s, e))
  {
  }

  lemma FrontStep(s: State, e: Event)
    requires Inv(s) && FrontInv(s) && Enabled(s, e) && (e.Commit? ==> forall i :: i in s.decodes ==> i < e.id)
    ensures FrontInv(Apply(s, e))
  {
    match e
    case Fetch(limit) => FetchFront(s, limit);
    case MarkRow(fault) => MarkFront(s, fault);
    case Commit(id, decodes) => CommitFront(s, id, decodes);
    case _ => QuietFront(s, e);
  }

  lemma PublishKeepsOrder(s: State)
    requires Inv(s) && FrontInv(s) && GapFree(s.log, s.decodes) && Enabled(s, Publish)
    ensures GapFree(Apply(s, Publish).log, s.decodes)
  {
    var id := s.batch[s.pos];
    if s.decodes[id] {
      var log := s.log + [Pub(id)];
      forall p, i | 0 <= p < |log| && log[p].Pub? && i in s.decodes && s.decodes[i] && i < log[p].id
        ensures Pub(i) in log[..p]
      {
        if p < |s.log| {
          assert log[..p] == s.log[..p];
        } else {
          assert log[..p] == s.log;
          SmallerIsDispatched(s, i);
          assert Mark(i) in s.log;
          MarkedWasPublished(s, i);
        }
      }
    }
  }

  lemma SmallerIsDispatched(s: State, i: Id)
    requires BatchInv(s) && FrontInv(s) && s.Busy() && i in s.decodes && i < s.batch[s.pos]
    ensures s.Dispatched(i)
  {
  }

  lemma MarkedWasPublished(s: State, i: Id)
    requires LogInv(s) && i in s.decodes && s.decodes[i] && Mark(i) in s.log
    ensures Pub(i) in s.log
  {
    var j :| 0 <= j < |s.log| && s.log[j] == Mark(i);
    var k :| 0 <= k < |s.log[..j]| && s.log[..j][k] == Pub(i);
    assert s.log[k] == Pub(i);
  }

  lemma AppendKeepsOrder(log: seq<Act>, decodes: map<Id, bool>, a: Act)
    requires GapFree(log, decodes) && !a.Pub?
    ensures GapFree(log + [a], decodes)
  {
    forall p, i | 0 <= p < |log + [a]| && (log + [a])[p].Pub? && i in decodes && decodes[i] && i < (log + [a])[p].id
      ensures Pub(i) in (log + [a])[..p]
    {
      assert (log + [a])[..p] == log[..p];
    }
  }

  lemma OrderStep(s: State, e: Event)
    requires Inv(s) && FrontInv(s) && GapFree(s.log, s.decodes) && Enabled(s, e)
    requires e.Commit? ==> forall i :: i in s.decodes ==> i < e.id
    ensures GapFree(Apply(s, e).log, Apply(s, e).decodes)
  {
    match e
    case Publish => PublishKeepsOrder(s);
    case MarkRow(fault) =>
      AppendKeepsOrder(s.log, s.decodes, if fault.NotApplied? then LostMark(s.batch[s.pos]) else Mark(s.batch[s.pos]));
    case Crash => if s.sent { AppendKeepsOrder(s.log, s.decodes, LostMark(s.batch[s.pos])); }
    case Commit(id, _) =>
      assert forall p :: 0 <= p < |s.log| && s.log[p].Pub? ==> Pub(s.log[p].id) in s.log;
    case _ =>
  }

  lemma {:induction false} OrderedRunKeeps(s: State, es: seq<Event>)
    requires Inv(s) && FrontInv(s) && GapFree(s.log, s.decodes) && ValidRun(s, es) && Ordered(s, es)
    ensures var s' := Run(s, es); GapFree(s'.log, s'.decodes)
    decreases |es|
  {
    if |es| != 0 {
      BatchStep(s, es[0]);
      LogStep(s, es[0]);
      CountStep(s, es[0]);
      FrontStep(s, es[0]);
      OrderStep(s, es[0]);
      OrderedRunKeeps(Apply(s, es[0]), es[1..]);
    }
  }

  /** If rows become visible in id order, then in every run, whatever fails,
      no row is published before every smaller decodable row was. */
  lemma FirstDeliveriesGapFree(s0: State, es: seq<Event>)
    requires Init(s0) && ValidRun(s0, es) && Ordered(s0, es)
    ensures var s := Run(s0, es); GapFree(s.log, s.decodes)
  {
    OrderedRunKeeps(s0, es);
  }

  // ----------------------------------------------------- the relay's loop

  function Decodable(ids: seq<Id>, decodes: map<Id, bool>): seq<Id> {
    if |ids| == 0 then []
    else
      var front, id := ids[..|ids| - 1], ids[|ids| - 1];
      Decodable(front, decodes) + if id in decodes && decodes[id] then [id] else []
  }

  function Marked(rows: map<Id, Option<nat>>, ids: seq<Id>, now: nat): map<Id, Option<nat>> {
    map id | id in rows :: if id in ids then Some(now) else rows[id]
  }

  lemma MarkedMore(rows: map<Id, Option<nat>>, ids: seq<Id>, k: nat, now: nat)
    requires k < |ids| && ids[k] in rows
    ensures Marked(rows, ids[..k], now)[ids[k] := Some(now)] == Marked(rows, ids[..k + 1], now)
  {
    assert ids[..k + 1] == ids[..k] + [ids[k]];
  }

  lemma DecodableMore(ids: seq<Id>, k: nat, decodes: map<Id, bool>)
    requires k < |ids| && ids[k] in decodes
    ensures Decodable(ids[..k + 1], decodes) == Decodable(ids[..k], decodes) + if decodes[ids[k]] then [ids[k]] else []
  {
    assert ids[..k + 1][..k] == ids[..k];
  }

  // -------------------------------------- a poll cycle as a run of the machine

  function Pubs(log: seq<Act>): seq<Id> {
    if |log| == 0 then []
    else Pubs(log[..|log| - 1]) + if log[|log| - 1].Pub? then [log[|log| - 1].id] else []
  }

  lemma PubsAppend(log: seq<Act>, a: Act)
    ensures Pubs(log + [a]) == Pubs(log) + if a.Pub? then [a.id] else []
  {
    assert (log + [a])[..|log|] == log;
  }

  function Cycle(n: nat): seq<Event> {
    if n == 0 then [] else [Publish, MarkRow(NoFault)] + Cycle(n - 1)
  }

  lemma {:induction false} DecodableFirst(ids: seq<Id>, decodes: map<Id, bool>)
    requires ids != [] && ids[0] in decodes
    ensures Decodable(ids, decodes) == (if decodes[ids[0]] then [ids[0]] else []) + Decodable(ids[1..], decodes)
    decreases |ids|
  {
    if |ids| > 1 {
      DecodableFirst(ids[..|ids| - 1], decodes);
      assert ids[..|ids| - 1][1..] == ids[1..][..|ids| - 2];
    }
  }

  lemma MarkedFirst(rows: map<Id, Option<nat>>, ids: seq<Id>, now: nat)
    requires ids != [] && ids[0] in rows
    ensures Marked(rows[ids[0] := Some(now)], ids[1..], now) == Marked(rows, ids, now)
  {
    assert ids == [ids[0]] + ids[1..];
  }

  /** The relay's state after publishing and marking one row. */
  function Handled(s: State): State
    requires s.Busy() && s.batch[s.pos] in s.decodes
  {
    var id := s.batch[s.pos];
    s.(rows := s.rows[id := Some(s.now)], pos := s.pos + 1,
       log := (if s.decodes[id] then s.log + [Pub(id)] else s.log) + [Mark(id)])
  }

  ghost predicate AtRow(s: State) { BatchInv(s) && s.Busy() && !s.sent && s.batch[s.pos] in s.decodes }

  lemma HandledKeeps(s: State)
    requires AtRow(s)
    ensures BatchInv(Handled(s))
  {
    BatchStep(s, Publish);
    BatchStep(Apply(s, Publish), MarkRow(NoFault));
  }

  lemma HandledIsRun(s: State, es: seq<Event>)
    requires AtRow(s) && ValidRun(Handled(s), es)
    ensures ValidRun(s, [Publish, MarkRow(NoFault)] + es) && Run(s, [Publish, MarkRow(NoFault)] + es) == Run(Handled(s), es)
  {
    var all := [Publish, MarkRow(NoFault)] + es;
    assert all[1..][1..] == es && all[1..][0] == MarkRow(NoFault);
    assert Apply(Apply(s, Publish), MarkRow(NoFault)) == Handled(s);
  }

  lemma HandledPublishes(s: State)
    requires AtRow(s)
    ensures Pubs(Handled(s).log) == Pubs(s.log) + if s.decodes[s.batch[s.pos]] then [s.batch[s.pos]] else []
  {
    var id := s.batch[s.pos];
    PubsAppend(s.log, Pub(id));
    PubsAppend(if s.decodes[id] then s.log + [Pub(id)] else s.log, Mark(id));
  }

  lemma {:induction false} CycleIsValid(s: State, n: nat)
    requires BatchInv(s) && !s.sent && s.pos + n == |s.batch|
    ensures ValidRun(s, Cycle(n))
    decreases n
  {
    if n != 0 {
      HandledKeeps(s);
      CycleIsValid(Handled(s), n - 1);
      HandledIsRun(s, Cycle(n - 1));
    }
  }

  lemma CycleStep(s: State, n: nat)
    requires BatchInv(s) && !s.sent && s.pos + n == |s.batch| && n != 0
    ensures BatchInv(Handled(s)) && ValidRun(s, Cycle(n)) && ValidRun(Handled(s), Cycle(n - 1))
    ensures Run(s, Cycle(n)) == Run(Handled(s), Cycle(n - 1))
  {
    HandledKeeps(s);
    CycleIsValid(Handled(s), n - 1);
    HandledIsRun(s, Cycle(n - 1));
  }

  /** The machine's steps for the rest of a batch mark what Dispatch's loop
      marks... */
  lemma {:induction false} CycleMarks(s: State, n: nat)
    requires BatchInv(s) && !s.sent && s.pos + n == |s.batch|
    ensures ValidRun(s, Cycle(n)) && Run(s, Cycle(n)).rows == Marked(s.rows, s.batch[s.pos..], s.now)
    decreases n
  {
    CycleIsValid(s, n);
    if n != 0 {
      CycleStep(s, n);
      CycleMarks(Handled(s), n - 1);
      RestMarked(s.rows, s.batch, s.pos, s.now);
    }
  }

  /** What is still to be published of the batch. */
  function Rest(s: State): seq<Id>
    requires s.pos <= |s.batch|
  {
    Decodable(s.batch[s.pos..], s.decodes)
  }

  /** ...and publish what it publishes, in the same order. */
  lemma {:induction false} CyclePublishes(s: State, n: nat)
    requires BatchInv(s) && !s.sent && s.pos + n == |s.batch| && ValidRun(s, Cycle(n))
    ensures Pubs(Run(s, Cycle(n)).log) == Pubs(s.log) + Rest(s)
    decreases n
  {
    if n == 0 {
      assert Rest(s) == [];
    } else {
      CycleStep(s, n);
      CyclePublishes(Handled(s), n - 1);
      PublishesMore(s);
    }
  }

  lemma PublishesMore(s: State)
    requires AtRow(s)
    ensures Pubs(Handled(s).log) + Rest(Handled(s)) == Pubs(s.log) + Rest(s)
  {
    HandledPublishes(s);
    RestDecodable(s.batch, s.pos, s.decodes);
    Associates(Pubs(s.log), if s.decodes[s.batch[s.pos]] then [s.batch[s.pos]] else [], Rest(Handled(s)));
  }

  lemma Associates(a: seq<Id>, b: seq<Id>, c: seq<Id>)
    ensures (a + b) + c == a + (b + c)
  {
  }

  lemma RestMarked(rows: map<Id, Option<nat>>, ids: seq<Id>, k: nat, now: nat)
    requires k < |ids| && ids[k] in rows
    ensures Marked(rows[ids[k] := Some(now)], ids[k + 1..], now) == Marked(rows, ids[k..], now)
  {
    assert ids[k..][1..] == ids[k + 1..];
    MarkedFirst(rows, ids[k..], now);
  }

  lemma RestDecodable(ids: seq<Id>, k: nat, decodes: map<Id, bool>)
    requires k < |ids| && ids[k] in decodes
    ensures Decodable(ids[k..], decodes) == (if decodes[ids[k]] then [ids[k]] else []) + Decodable(ids[k + 1..], decodes)
  {
    assert ids[k..][1..] == ids[k + 1..];
    DecodableFirst(ids[k..], decodes);
  }

  class Relay {
    var rows: map<Id, Option<nat>>
    var decodes: map<Id, bool>
    var published: seq<Id>

    /** One poll cycle whose query fails, or whose mark number `failAt` fails with
        or without having been applied: the rows before it are published if they
        decode and marked, the failing one is published and marked only if the
        mark was applied, the rest is untouched. */
    method Dispatch(limit: nat, now: nat, queryFails: bool, failAt: nat, fault: Fault) returns (dispatched: nat, failed: bool)
      requires rows.Keys <= decodes.Keys && !fault.NoFault?
      modifies this`rows, this`published
      ensures queryFails ==> failed && dispatched == 0 && rows == old(rows) && published == old(published)
      ensures !queryFails ==>
        var ids := Select(old(rows), limit);
        && (failed <==> failAt < |ids|)
        && dispatched == (if failed then failAt else |ids|)
        && rows == Marked(old(rows), ids[..if failed && fault.AppliedButFailed? then dispatched + 1 else dispatched], now)
        && published == old(published) + Decodable(ids[..if failed then dispatched + 1 else dispatched], decodes)
    {
      if queryFails { return 0, true; }
      var ids := Select(rows, limit);
      dispatched, failed := 0, false;
      while dispatched < |ids|
        invariant 0 <= dispatched <= |ids| && dispatched <= failAt
        invariant rows == Marked(old(rows), ids[..dispatched], now)
        invariant published == old(published) + Decodable(ids[..dispatched], decodes)
      {
        assert ids[dispatched] in ids;
        DecodableMore(ids, dispatched, decodes);
        MarkedMore(old(rows), ids, dispatched, now);
        DispatchRow(ids[dispatched], now, dispatched != failAt || fault.AppliedButFailed?);
        if dispatched == failAt { return dispatched, true; }
        dispatched := dispatched + 1;
      }
    }

    /** Publishes one row if it decodes, then marks it. */
    method DispatchRow(id: Id, now: nat, marked: bool)
      requires id in decodes
      modifies this`rows, this`published
      ensures published == old(published) + if decodes[id] then [id] else []
      ensures rows == if marked then old(rows)[id := Some(now)] else old(rows)
    {
      if decodes[id] { published := published + [id]; }
      if marked { rows := rows[id := Some(now)]; }
    }

    /** Deletes only rows marked longer than `retention` ago. */
    method Prune(retention: nat, now: nat) returns (deleted: nat)
      modifies this`rows
      ensures forall id :: id in old(rows) ==> (id !in rows <==> old(rows[id]).Some? && old(rows[id]).value + retention < now)
      ensures forall id :: id in rows ==> id in old(rows) && rows[id] == old(rows[id])
      ensures deleted == |old(rows)| - |rows|
      ensures rows == Unpruned(old(rows), retention, now)
    {
      var before := |rows|;
      var kept := map id | id in rows && !(rows[id].Some? && rows[id].value + retention < now) :: rows[id];
      KeptIsSmaller(rows, kept);
      rows := kept;
      deleted := before - |kept|;
    }
  }

  lemma KeptIsSmaller(rows: map<Id, Option<nat>>, kept: map<Id, Option<nat>>)
    requires kept.Keys <= rows.Keys
    ensures |kept| <= |rows|
  {
    assert rows.Keys == kept.Keys + (rows.Keys - kept.Keys);
    assert |rows.Keys| == |kept.Keys| + |rows.Keys - kept.Keys|;
  }
}
