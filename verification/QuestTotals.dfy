/** How much of the reported progress survives in the stored rows. A call writes
    what it computed from its snapshot, so overlapping calls of one character
    can overwrite each other; a history of what each write added shows how far
    the stored totals can fall behind. */
module QuestTotals {
  import opened Common
  import opened Quests

  /** A guarded write: the amount reported and what the step could take of it. */
  datatype Applied = Applied(key: Key, asked: int, took: int)

  datatype Tracked = Tracked(s: State, log: seq<Applied>)

  function Takes(steps: seq<Step>, seen: Row, amount: int): int {
    if 0 <= seen.step < |steps| && seen.step < |seen.progress|
    then Reached(steps[seen.step].count - seen.progress[seen.step], amount) else 0
  }

  /** What the next pass of a call writes, if its guarded update finds an active row. */
  function AppliedBy(s: State, e: Event): seq<Applied>
    requires Enabled(s, e)
  {
    if !e.Next? then []
    else
      var w := s.workers[e.t];
      var key, seen := Key(w.owner, w.todo[0].quest), w.todo[0].row;
      var x := Process(s.defs[key.quest], seen, s.rows[key], w.update);
      if x.Save? || x.Complete? then [Applied(key, w.update.amount, Takes(s.defs[key.quest], seen, w.update.amount))] else []
  }

  function Step(x: Tracked, e: Event): Tracked
    requires Enabled(x.s, e)
  {
    Tracked(Apply(x.s, e), x.log + AppliedBy(x.s, e))
  }

  function Run(x: Tracked, es: seq<Event>): Tracked
    requires ValidRun(x.s, es)
    decreases |es|
  {
    if |es| == 0 then x else Run(Step(x, es[0]), es[1..])
  }

  lemma {:induction false} SameRun(x: Tracked, es: seq<Event>)
    requires ValidRun(x.s, es)
    ensures Run(x, es).s == Quests.Run(x.s, es)
    decreases |es|
  {
    if |es| != 0 { SameRun(Step(x, es[0]), es[1..]); }
  }

  function Took(log: seq<Applied>, key: Key): int {
    if |log| == 0 then 0 else Took(log[..|log| - 1], key) + if log[|log| - 1].key == key then log[|log| - 1].took else 0
  }

  function Asked(log: seq<Applied>, key: Key): int {
    if |log| == 0 then 0 else Asked(log[..|log| - 1], key) + if log[|log| - 1].key == key then log[|log| - 1].asked else 0
  }

  lemma TookMore(log: seq<Applied>, a: Applied, key: Key)
    ensures Took(log + [a], key) == Took(log, key) + if a.key == key then a.took else 0
  {
    assert (log + [a])[..|log|] == log;
  }

  ghost predicate LogOk(log: seq<Applied>) { forall i :: 0 <= i < |log| ==> 0 <= log[i].took <= log[i].asked }

  lemma {:induction false} TookAtMostAsked(log: seq<Applied>, key: Key)
    requires LogOk(log)
    ensures 0 <= Took(log, key) <= Asked(log, key)
  {
    if |log| != 0 { TookAtMostAsked(log[..|log| - 1], key); }
  }

  // ------------------------------------------------------- one guarded write

  /** A matched write adds to the total it saw what the step takes. */
  lemma WriteAdds(steps: seq<Quests.Step>, seen: Row, u: Update)
    requires StepsOk(steps) && Shaped(steps, seen.step, seen.progress) && 0 <= u.amount <= INT32_MAX
    requires var a := Advance(steps, seen.step, seen.progress, u.kind, u.target, u.amount);
      a.matched && seen.progress[seen.step] + u.amount <= INT32_MAX
    ensures 0 <= Takes(steps, seen, u.amount) <= u.amount
    ensures Sum(Advance(steps, seen.step, seen.progress, u.kind, u.target, u.amount).progress) ==
            Sum(seen.progress) + Takes(steps, seen, u.amount)
  {
    AdvanceAdds(steps, seen.step, seen.progress, u.kind, u.target, u.amount);
  }

  /** What a pass does to the totals, in the terms of the rows it works on. */
  lemma ProcessAdds(defs: Defs, q: string, seen: Row, cur: Row, u: Update)
    requires DefsOk(defs) && RowOk(defs, q, seen) && Fits(defs, u.amount)
    ensures var x := Process(defs[q], seen, cur, u);
      && (x.Save? || x.Complete? ==> seen.active && cur.active && 0 <= Takes(defs[q], seen, u.amount) <= u.amount)
      && (x.Save? ==> x.row.active && Sum(x.row.progress) == Sum(seen.progress) + Takes(defs[q], seen, u.amount))
      && (x.Complete? ==> !x.row.active && x.row.progress == cur.progress)
  {
    var a := Advance(defs[q], seen.step, seen.progress, u.kind, u.target, u.amount);
    if a.matched { WriteAdds(defs[q], seen, u); }
  }

  lemma {:induction false} SumOfZeros(n: nat)
    ensures Sum(seq(n, _ => 0)) == 0
  {
    if n != 0 {
      assert seq(n, _ => 0)[..n - 1] == seq(n - 1, _ => 0);
      SumOfZeros(n - 1);
    }
  }

  // ----------------------------------------- totals never exceed the reports

  ghost predicate RowWithin(log: seq<Applied>, key: Key, row: Row) { Sum(row.progress) <= Took(log, key) }

  ghost predicate RowsWithin(x: Tracked) {
    forall k :: k in x.s.rows ==> RowWithin(x.log, k, x.s.rows[k])
  }

  ghost predicate SnapshotWithin(log: seq<Applied>, w: Worker) {
    w.Busy? ==> forall i :: 0 <= i < |w.todo| ==> RowWithin(log, Key(w.owner, w.todo[i].quest), w.todo[i].row)
  }

  ghost predicate Within(x: Tracked) {
    && ShapeInv(x.s) && LogOk(x.log) && RowsWithin(x)
    && forall t :: t in x.s.workers ==> SnapshotWithin(x.log, x.s.workers[t])
  }

  lemma LaterWithin(log: seq<Applied>, a: Applied, key: Key, row: Row)
    requires RowWithin(log, key, row) && a.took >= 0
    ensures RowWithin(log + [a], key, row)
  {
    TookMore(log, a, key);
  }

  lemma LaterSnapshot(log: seq<Applied>, a: Applied, w: Worker)
    requires SnapshotWithin(log, w) && a.took >= 0
    ensures SnapshotWithin(log + [a], w)
  {
    if w.Busy? {
      forall i | 0 <= i < |w.todo| ensures RowWithin(log + [a], Key(w.owner, w.todo[i].quest), w.todo[i].row) {
        LaterWithin(log, a, Key(w.owner, w.todo[i].quest), w.todo[i].row);
      }
    }
  }

  lemma RestWithin(log: seq<Applied>, w: Worker, owed: Option<Key>)
    requires SnapshotWithin(log, w) && w.Busy? && w.todo != []
    ensures SnapshotWithin(log, w.(todo := w.todo[1..])) && SnapshotWithin(log, w.(todo := w.todo[1..], owed := owed))
  {
    assert forall i :: 0 <= i < |w.todo[1..]| ==> w.todo[1..][i] == w.todo[i + 1];
  }

  /** What one pass leaves: the pass's effect, the row it concerns and the log. */
  lemma NextRows(x: Tracked, t: Tid)
    requires Within(x) && Enabled(x.s, Next(t))
    ensures LogOk(Step(x, Next(t)).log) && RowsWithin(Step(x, Next(t)))
  {
    var w := x.s.workers[t];
    var key, seen := Key(w.owner, w.todo[0].quest), w.todo[0].row;
    assert WorkerOk(x.s.defs, w) && SnapshotWithin(x.log, w);
    ProcessAdds(x.s.defs, key.quest, seen, x.s.rows[key], w.update);
    var y := Step(x, Next(t));
    assert x.log + [] == x.log;
    if |AppliedBy(x.s, Next(t))| == 1 {
      var a := AppliedBy(x.s, Next(t))[0];
      assert RowWithin(x.log, key, seen);
      forall k | k in y.s.rows ensures RowWithin(y.log, k, y.s.rows[k]) {
        TookMore(x.log, a, k);
        assert RowWithin(x.log, k, x.s.rows[k]);
      }
    }
  }

  lemma NextSnapshots(x: Tracked, t: Tid)
    requires Within(x) && Enabled(x.s, Next(t)) && LogOk(Step(x, Next(t)).log)
    ensures var y := Step(x, Next(t)); forall u :: u in y.s.workers ==> SnapshotWithin(y.log, y.s.workers[u])
  {
    var w, y, more := x.s.workers[t], Step(x, Next(t)), AppliedBy(x.s, Next(t));
    assert x.log + [] == x.log;
    forall u | u in y.s.workers ensures SnapshotWithin(y.log, y.s.workers[u]) {
      assert SnapshotWithin(x.log, x.s.workers[u]);
      if u == t { RestWithin(x.log, w, Some(Key(w.owner, w.todo[0].quest))); }
      assert SnapshotWithin(x.log, y.s.workers[u]);
      if |more| == 1 {
        assert y.log[|x.log|] == more[0];
        LaterSnapshot(x.log, more[0], y.s.workers[u]);
      }
    }
  }

  lemma OtherWithin(x: Tracked, e: Event)
    requires Within(x) && Enabled(x.s, e) && !e.Next? && !e.Begin? && !e.Accept?
    ensures RowsWithin(Step(x, e)) && forall u :: u in Step(x, e).s.workers ==> SnapshotWithin(Step(x, e).log, Step(x, e).s.workers[u])
  {
    assert x.log + [] == x.log;
    assert SnapshotWithin(x.log, x.s.workers[e.t]);
  }

  lemma BeginWithin(x: Tracked, t: Tid, owner: int, u: Update, snapshot: seq<Entry>)
    requires Within(x) && Enabled(x.s, Begin(t, owner, u, snapshot))
    ensures SnapshotWithin(x.log, Busy(owner, u, snapshot, None))
  {
    forall i | 0 <= i < |snapshot| ensures RowWithin(x.log, Key(owner, snapshot[i].quest), snapshot[i].row) {
      assert RowWithin(x.log, Key(owner, snapshot[i].quest), x.s.rows[Key(owner, snapshot[i].quest)]);
    }
  }

  lemma StepKeepsWithin(x: Tracked, e: Event)
    requires Within(x) && Enabled(x.s, e) && (e.Begin? ==> Fits(x.s.defs, e.update.amount))
    ensures Within(Step(x, e))
  {
    ShapeStep(x.s, e);
    assert x.log + [] == x.log;
    match e
    case Next(t) =>
      NextRows(x, t);
      NextSnapshots(x, t);
    case Begin(t, owner, u, snapshot) => BeginWithin(x, t, owner, u, snapshot);
    case Accept(key) =>
      SumOfZeros(|x.s.defs[key.quest]|);
      TookAtMostAsked(x.log, key);
    case _ => OtherWithin(x, e);
  }

  lemma {:induction false} RunKeepsWithin(x: Tracked, es: seq<Event>)
    requires Within(x) && ValidRun(x.s, es)
    requires forall k :: 0 <= k < |es| && es[k].Begin? ==> Fits(x.s.defs, es[k].update.amount)
    ensures Within(Run(x, es))
    decreases |es|
  {
    if |es| != 0 {
      StepKeepsWithin(x, es[0]);
      assert forall k :: 0 <= k < |es[1..]| ==> es[1..][k] == es[k + 1];
      RunKeepsWithin(Step(x, es[0]), es[1..]);
    }
  }

  /** The history of writes of a run. */
  function Writes(s0: State, es: seq<Event>): seq<Applied>
    requires ValidRun(s0, es)
  {
    Run(Tracked(s0, []), es).log
  }

  ghost predicate AllFit(defs: Defs, es: seq<Event>) {
    forall k :: 0 <= k < |es| && es[k].Begin? ==> Fits(defs, es[k].update.amount)
  }

  /** In every interleaving the stored total of a quest is at most what its
      writes took, and that at most what was reported to them. A call that meets
      a row no longer active returns early: what it would have reported to the
      quests behind it is in no write. */
  lemma StoredNeverExceeds(s0: State, es: seq<Event>, key: Key)
    requires Init(s0) && DefsOk(s0.defs) && ValidRun(s0, es) && AllFit(s0.defs, es)
    ensures var rows, log := Quests.Run(s0, es).rows, Writes(s0, es);
      && Took(log, key) <= Asked(log, key)
      && (key in rows ==> Sum(rows[key].progress) <= Took(log, key))
  {
    InitHasShape(s0);
    SameRun(Tracked(s0, []), es);
    RunKeepsWithin(Tracked(s0, []), es);
    var x := Run(Tracked(s0, []), es);
    TookAtMostAsked(x.log, key);
    if key in x.s.rows { assert RowWithin(x.log, key, x.s.rows[key]); }
  }

  // --------------------------------------------- exactly how much is lost

  /** What a write drops of a quest's stored total: what the row holds beyond the
      snapshot it was computed from. It is negative if the write brings back
      what an earlier one had dropped. */
  function DroppedBy(s: State, e: Event, key: Key): int
    requires Enabled(s, e)
  {
    if !e.Next? then 0
    else
      var w := s.workers[e.t];
      var own, seen := Key(w.owner, w.todo[0].quest), w.todo[0].row;
      if own == key && Process(s.defs[own.quest], seen, s.rows[own], w.update).Save?
      then Sum(s.rows[own].progress) - Sum(seen.progress) else 0
  }

  function Dropped(s: State, es: seq<Event>, key: Key): int
    requires ValidRun(s, es)
    decreases |es|
  {
    if |es| == 0 then 0 else DroppedBy(s, es[0], key) + Dropped(Apply(s, es[0]), es[1..], key)
  }

  /** An active row holds what was taken for it except what was dropped. */
  predicate HoldsBut(log: seq<Applied>, rows: map<Key, Row>, k: Key, dropped: int) {
    if k in rows then rows[k].active ==> Sum(rows[k].progress) == Took(log, k) - dropped
    else Took(log, k) == 0 && dropped == 0
  }

  /** A pass changes at most its own row and its own call, which stays with its
      character. */
  lemma NextFrame(s: State, t: Tid, k: Key, u: Tid)
    requires Enabled(s, Next(t))
    ensures var y, w := Apply(s, Next(t)), s.workers[t];
      && y.workers.Keys == s.workers.Keys && y.rows.Keys == s.rows.Keys
      && (u != t && u in s.workers ==> y.workers[u] == s.workers[u])
      && (k != Key(w.owner, w.todo[0].quest) && k in s.rows ==> y.rows[k] == s.rows[k])
      && (y.workers[t].Busy? ==> y.workers[t] == w.(todo := w.todo[1..], owed := y.workers[t].owed))
  {
  }

  lemma NextHolds(x: Tracked, t: Tid, k: Key, dropped: int)
    requires ShapeInv(x.s) && Enabled(x.s, Next(t)) && HoldsBut(x.log, x.s.rows, k, dropped)
    ensures var y := Step(x, Next(t)); HoldsBut(y.log, y.s.rows, k, dropped + DroppedBy(x.s, Next(t), k))
  {
    var w := x.s.workers[t];
    var key := Key(w.owner, w.todo[0].quest);
    assert WorkerOk(x.s.defs, w);
    ProcessAdds(x.s.defs, key.quest, w.todo[0].row, x.s.rows[key], w.update);
    NextFrame(x.s, t, k, t);
    assert x.log + [] == x.log;
    if |AppliedBy(x.s, Next(t))| == 1 { TookMore(x.log, AppliedBy(x.s, Next(t))[0], k); }
  }

  lemma StepHolds(x: Tracked, e: Event, k: Key, dropped: int)
    requires ShapeInv(x.s) && Enabled(x.s, e) && HoldsBut(x.log, x.s.rows, k, dropped)
    ensures HoldsBut(Step(x, e).log, Step(x, e).s.rows, k, dropped + DroppedBy(x.s, e, k))
  {
    assert x.log + [] == x.log;
    if e.Next? { NextHolds(x, e.t, k, dropped); }
    else if e.Accept? { SumOfZeros(|x.s.defs[e.key.quest]|); }
  }

  lemma RestFits(defs: Defs, es: seq<Event>)
    requires AllFit(defs, es) && es != []
    ensures (es[0].Begin? ==> Fits(defs, es[0].update.amount)) && AllFit(defs, es[1..])
  {
    assert forall i :: 0 <= i < |es[1..]| ==> es[1..][i] == es[i + 1];
  }

  lemma {:induction false} RunHolds(x: Tracked, es: seq<Event>, k: Key, dropped: int)
    requires ShapeInv(x.s) && ValidRun(x.s, es) && AllFit(x.s.defs, es) && HoldsBut(x.log, x.s.rows, k, dropped)
    ensures HoldsBut(Run(x, es).log, Run(x, es).s.rows, k, dropped + Dropped(x.s, es, k))
    decreases |es|
  {
    if |es| != 0 {
      RestFits(x.s.defs, es);
      StepHolds(x, es[0], k, dropped);
      ShapeStep(x.s, es[0]);
      RunHolds(Step(x, es[0]), es[1..], k, dropped + DroppedBy(x.s, es[0], k));
    }
  }

  /** In every interleaving an active quest's stored total is what its writes
      took less what they dropped; so nothing is lost exactly if what was
      dropped was brought back. */
  lemma StoredIsTakenLessDropped(s0: State, es: seq<Event>, key: Key)
    requires Init(s0) && DefsOk(s0.defs) && ValidRun(s0, es) && AllFit(s0.defs, es)
    ensures var rows, log := Quests.Run(s0, es).rows, Writes(s0, es);
      key in rows && rows[key].active ==>
        && Sum(rows[key].progress) == Took(log, key) - Dropped(s0, es, key)
        && (Sum(rows[key].progress) == Took(log, key) <==> Dropped(s0, es, key) == 0)
        && Dropped(s0, es, key) >= 0
  {
    InitHasShape(s0);
    SameRun(Tracked(s0, []), es);
    RunHolds(Tracked(s0, []), es, key, 0);
    StoredNeverExceeds(s0, es, key);
  }

  // ------------------------------------ nothing is lost without an overlap

  /** The calls of one character do not overlap; a snapshot has a row once. */
  ghost predicate Apart(s: State, e: Event) {
    e.Begin? ==>
      && (forall t :: t in s.workers && s.workers[t].Busy? ==> s.workers[t].owner != e.owner)
      && DistinctQuests(e.snapshot)
  }

  ghost predicate AllApart(s: State, es: seq<Event>)
    requires ValidRun(s, es)
    decreases |es|
  {
    |es| == 0 || (Apart(s, es[0]) && AllApart(Apply(s, es[0]), es[1..]))
  }

  /** What a call still has to look at is what is stored. */
  ghost predicate UpToDate(rows: map<Key, Row>, w: Worker) {
    w.Busy? ==>
      && DistinctQuests(w.todo)
      && forall i :: 0 <= i < |w.todo| ==> Key(w.owner, w.todo[i].quest) in rows && rows[Key(w.owner, w.todo[i].quest)] == w.todo[i].row
  }

  ghost predicate OwnersDiffer(workers: map<Tid, Worker>) {
    forall t, u :: t in workers && u in workers && t != u && workers[t].Busy? && workers[u].Busy? ==> workers[t].owner != workers[u].owner
  }

  ghost predicate Current(s: State) {
    OwnersDiffer(s.workers) && forall t :: t in s.workers ==> UpToDate(s.rows, s.workers[t])
  }

  lemma RestUpToDate(rows: map<Key, Row>, row: Row, w: Worker, owed: Option<Key>)
    requires UpToDate(rows, w) && w.Busy? && w.todo != []
    ensures var rows' := rows[Key(w.owner, w.todo[0].quest) := row];
      && UpToDate(rows', w.(todo := w.todo[1..])) && UpToDate(rows', w.(todo := w.todo[1..], owed := owed))
      && UpToDate(rows, w.(todo := w.todo[1..])) && UpToDate(rows, w.(todo := w.todo[1..], owed := owed))
  {
    assert forall i :: 0 <= i < |w.todo[1..]| ==> w.todo[1..][i] == w.todo[i + 1];
  }

  lemma OtherUpToDate(s: State, t: Tid, u: Tid)
    requires Enabled(s, Next(t)) && u in s.workers && u != t && UpToDate(s.rows, s.workers[u])
    requires s.workers[u].Busy? ==> s.workers[u].owner != s.workers[t].owner
    ensures UpToDate(Apply(s, Next(t)).rows, s.workers[u])
  {
    var w := s.workers[u];
    if w.Busy? {
      forall i | 0 <= i < |w.todo|
        ensures Key(w.owner, w.todo[i].quest) in Apply(s, Next(t)).rows && Apply(s, Next(t)).rows[Key(w.owner, w.todo[i].quest)] == w.todo[i].row
      {
        NextFrame(s, t, Key(w.owner, w.todo[i].quest), u);
      }
    }
  }

  lemma OwnUpToDate(s: State, t: Tid)
    requires Enabled(s, Next(t)) && UpToDate(s.rows, s.workers[t])
    ensures UpToDate(Apply(s, Next(t)).rows, Apply(s, Next(t)).workers[t])
  {
    var w, y := s.workers[t], Apply(s, Next(t));
    var key := Key(w.owner, w.todo[0].quest);
    NextFrame(s, t, key, t);
    RestUpToDate(s.rows, y.rows[key], w, y.workers[t].owed);
    assert y.rows == s.rows || y.rows == s.rows[key := y.rows[key]];
  }

  lemma NextKeepsCurrent(s: State, t: Tid)
    requires Current(s) && Enabled(s, Next(t))
    ensures Current(Apply(s, Next(t)))
  {
    var y := Apply(s, Next(t));
    forall u | u in y.workers ensures UpToDate(y.rows, y.workers[u]) && (y.workers[u].Busy? ==> s.workers[u].Busy? && y.workers[u].owner == s.workers[u].owner) {
      NextFrame(s, t, Key(0, ""), u);
      assert UpToDate(s.rows, s.workers[u]);
      if u == t { OwnUpToDate(s, t); } else { OtherUpToDate(s, t, u); }
    }
  }

  lemma StepKeepsCurrent(s: State, e: Event)
    requires Current(s) && Enabled(s, e) && Apart(s, e)
    ensures Current(Apply(s, e))
  {
    match e
    case Next(t) => NextKeepsCurrent(s, t);
    case Accept(_) =>
    case _ => assert UpToDate(s.rows, s.workers[e.t]);
  }

  lemma {:induction false} NothingDroppedApart(s: State, es: seq<Event>, key: Key)
    requires Current(s) && ValidRun(s, es) && AllApart(s, es)
    ensures Dropped(s, es, key) == 0
    decreases |es|
  {
    if |es| != 0 {
      if es[0].Next? { assert UpToDate(s.rows, s.workers[es[0].t]); }
      StepKeepsCurrent(s, es[0]);
      NothingDroppedApart(Apply(s, es[0]), es[1..], key);
    }
  }

  /** If the calls of one character do not overlap, nothing is dropped, so an
      active quest's stored total is exactly what its writes took. */
  lemma NothingLostApart(s0: State, es: seq<Event>, key: Key)
    requires Init(s0) && DefsOk(s0.defs) && ValidRun(s0, es) && AllFit(s0.defs, es) && AllApart(s0, es)
    ensures var rows, log := Quests.Run(s0, es).rows, Writes(s0, es);
      key in rows && rows[key].active ==> Sum(rows[key].progress) == Took(log, key)
  {
    NothingDroppedApart(s0, es, key);
    StoredIsTakenLessDropped(s0, es, key);
  }

  // ------------------------------------------------- progress that is lost

  lemma RunFirst(x: Tracked, e: Event, es: seq<Event>)
    requires Enabled(x.s, e) && ValidRun(Apply(x.s, e), es)
    ensures ValidRun(x.s, [e] + es) && Run(x, [e] + es) == Run(Step(x, e), es)
  {
    assert ([e] + es)[1..] == es;
  }

  function Kills(n: int): Update { Update("KILL", "wolf", n) }

  /** A quest of ten wolves, two idle calls, and the stored rows given. */
  function Hunt(q: string, rows: map<Key, Row>, first: Worker, second: Worker): Tracked {
    Tracked(State(map[q := [Quests.Step("KILL", "wolf", 10)]], rows, map[0 := first, 1 := second], [], [], false), [])
  }

  function Stored(q: string, n: int): map<Key, Row> { map[Key(1, q) := Row(true, 0, [n])] }

  /** A call that has read the row at 0 and reports `n`. */
  function Reading(q: string, n: int): Worker { Busy(1, Kills(n), [Entry(q, Row(true, 0, [0]))], None) }

  lemma Accepts(q: string)
    ensures var x := Hunt(q, map[], Idle, Idle);
      Enabled(x.s, Accept(Key(1, q))) && Step(x, Accept(Key(1, q))) == Hunt(q, Stored(q, 0), Idle, Idle)
  {
    assert seq(1, _ => 0) == [0];
  }

  lemma BeginsTwo(q: string)
    ensures var seen, x, y := [Entry(q, Row(true, 0, [0]))], Hunt(q, Stored(q, 0), Idle, Idle), Hunt(q, Stored(q, 0), Reading(q, 3), Idle);
      && Enabled(x.s, Begin(0, 1, Kills(3), seen)) && Step(x, Begin(0, 1, Kills(3), seen)) == y
      && Enabled(y.s, Begin(1, 1, Kills(4), seen)) && Step(y, Begin(1, 1, Kills(4), seen)) == Hunt(q, Stored(q, 0), Reading(q, 3), Reading(q, 4))
  {
  }

  /** A stale call writes its own sum over whatever is stored. */
  lemma Overwrites(x: Tracked, t: Tid, q: string, n: int, m: int)
    requires x.s.defs == map[q := [Quests.Step("KILL", "wolf", 10)]] && x.s.rows == Stored(q, m)
    requires t in x.s.workers && x.s.workers[t] == Reading(q, n) && 0 < n < 10
    ensures Enabled(x.s, Next(t))
    ensures var y := Step(x, Next(t));
      && y.s.rows == Stored(q, n) && y.log == x.log + [Applied(Key(1, q), n, n)]
      && y.s.defs == x.s.defs && y.s.workers == x.s.workers[t := Reading(q, n).(todo := [])]
  {
    assert [0][0 := n] == [n];
    NoWrap(n);
    assert Reading(q, n).todo[1..] == [];
  }

  /** Two calls that read the same row and report 3 and 4: the second write
      overwrites the first, and 4 of 7 is stored. */
  lemma OverlapLosesProgress(q: string)
    ensures var key, seen, x := Key(1, q), [Entry(q, Row(true, 0, [0]))], Hunt(q, map[], Idle, Idle);
      var es := [Accept(key), Begin(0, 1, Kills(3), seen), Begin(1, 1, Kills(4), seen), Next(0), Next(1)];
      && Init(x.s) && ValidRun(x.s, es)
      && Run(x, es).log == [Applied(key, 3, 3), Applied(key, 4, 4)] && Run(x, es).s.rows == Stored(q, 4)
  {
    var key, seen := Key(1, q), [Entry(q, Row(true, 0, [0]))];
    Accepts(q);
    BeginsTwo(q);
    BothWrite(q);
    RunFirst(Hunt(q, Stored(q, 0), Reading(q, 3), Idle), Begin(1, 1, Kills(4), seen), [Next(0), Next(1)]);
    RunFirst(Hunt(q, Stored(q, 0), Idle, Idle), Begin(0, 1, Kills(3), seen), [Begin(1, 1, Kills(4), seen), Next(0), Next(1)]);
    RunFirst(Hunt(q, map[], Idle, Idle), Accept(key), [Begin(0, 1, Kills(3), seen), Begin(1, 1, Kills(4), seen), Next(0), Next(1)]);
  }

  lemma BothWrite(q: string)
    ensures var x, key := Hunt(q, Stored(q, 0), Reading(q, 3), Reading(q, 4)), Key(1, q);
      && ValidRun(x.s, [Next(0), Next(1)])
      && Run(x, [Next(0), Next(1)]).log == [Applied(key, 3, 3), Applied(key, 4, 4)] && Run(x, [Next(0), Next(1)]).s.rows == Stored(q, 4)
  {
    var x3 := Hunt(q, Stored(q, 0), Reading(q, 3), Reading(q, 4));
    Overwrites(x3, 0, q, 3, 0);
    var x4 := Step(x3, Next(0));
    Overwrites(x4, 1, q, 4, 3);
    RunFirst(x4, Next(1), []);
    RunFirst(x3, Next(0), [Next(1)]);
  }
}
