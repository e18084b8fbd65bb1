/** The tick scheduler: which entities a tick visits, and what time each
    entity's ticks account for. Times are in nanoseconds. */
module Scheduler {
  import opened Common
  import W = World

  datatype Key = Key(system: string, entity: int)

  /** What the clock says and which of the three calls of one attempt fail. */
  datatype Attempt = Attempt(now: int, getFails: bool, tickFails: bool, setFails: bool) {
    predicate Ticks() { !getFails && !tickFails }
    predicate Fails() { getFails || tickFails || setFails }
  }

  /** A call of tickEntity for a system with the given interval. */
  datatype Call = Call(key: Key, attempt: Attempt)

  /** One Tick that returned without error. */
  datatype Ticked = Ticked(key: Key, now: int, elapsed: int, recorded: bool)

  datatype State = State(lastRun: map<Key, int>, log: seq<Ticked>)

  type Intervals = string -> int

  function Elapsed(iv: Intervals, lastRun: map<Key, int>, c: Call): int {
    if c.key in lastRun then c.attempt.now - lastRun[c.key] else iv(c.key.system)
  }

  function Entry(iv: Intervals, lastRun: map<Key, int>, c: Call): Ticked {
    Ticked(c.key, c.attempt.now, Elapsed(iv, lastRun, c), !c.attempt.setFails)
  }

  function Step(iv: Intervals, s: State, c: Call): State {
    if !c.attempt.Ticks() then s
    else State(if c.attempt.setFails then s.lastRun else s.lastRun[c.key := c.attempt.now],
               s.log + [Entry(iv, s.lastRun, c)])
  }

  function Run(iv: Intervals, s: State, calls: seq<Call>): State {
    if |calls| == 0 then s else Step(iv, Run(iv, s, calls[..|calls| - 1]), calls[|calls| - 1])
  }

  // ------------------------------------------------- reading the tick log

  /** Elapsed times of the key's ticks, in order; with `recorded` only of those
      whose last-run time was stored. */
  function Times(log: seq<Ticked>, key: Key, recorded: bool): seq<int> {
    if |log| == 0 then []
    else
      var e := log[|log| - 1];
      Times(log[..|log| - 1], key, recorded) + if e.key == key && (recorded ==> e.recorded) then [e.elapsed] else []
  }

  function Sum(s: seq<int>): int { if |s| == 0 then 0 else Sum(s[..|s| - 1]) + s[|s| - 1] }

  lemma SumAppend(s: seq<int>, x: int)
    ensures Sum(s + [x]) == Sum(s) + x
  {
    assert (s + [x])[..|s|] == s;
  }

  /** Elapsed time of ticks that ran but whose record was lost. */
  function LostRecords(log: seq<Ticked>, key: Key): int {
    if |log| == 0 then 0
    else
      var e := log[|log| - 1];
      LostRecords(log[..|log| - 1], key) + if e.key == key && !e.recorded then e.elapsed else 0
  }

  /** Clock readings of the key's first and last recorded ticks. */
  function First(log: seq<Ticked>, key: Key): Option<int> {
    if |log| == 0 then None
    else
      var e, f := log[|log| - 1], First(log[..|log| - 1], key);
      if f.Some? then f else if e.key == key && e.recorded then Some(e.now) else None
  }

  function Last(log: seq<Ticked>, key: Key): Option<int> {
    if |log| == 0 then None
    else
      var e := log[|log| - 1];
      if e.key == key && e.recorded then Some(e.now) else Last(log[..|log| - 1], key)
  }

  /** From where the key's time is counted: its earlier last run, else one
      interval before its first recorded tick. */
  function Origin(iv: Intervals, lastRun: map<Key, int>, key: Key, first: int): int {
    if key in lastRun then lastRun[key] else first - iv(key.system)
  }

  /** What a run has settled for a key: recorded time telescopes, and the stored
      last run is the last recorded tick. */
  ghost predicate Telescoped(iv: Intervals, start: map<Key, int>, s: State, key: Key) {
    && (First(s.log, key).Some? <==> Last(s.log, key).Some?)
    && (Last(s.log, key).None? ==> Sum(Times(s.log, key, true)) == 0 && (key in s.lastRun <==> key in start) && (key in start ==> s.lastRun[key] == start[key]))
    && (Last(s.log, key).Some? ==>
          && key in s.lastRun && s.lastRun[key] == Last(s.log, key).value
          && Sum(Times(s.log, key, true)) == Last(s.log, key).value - Origin(iv, start, key, First(s.log, key).value))
    && Sum(Times(s.log, key, false)) == Sum(Times(s.log, key, true)) + LostRecords(s.log, key)
  }

  lemma LogExtends(log: seq<Ticked>, e: Ticked, key: Key)
    ensures (log + [e])[..|log|] == log && (log + [e])[|log|] == e
    ensures Sum(Times(log + [e], key, false)) == Sum(Times(log, key, false)) + if e.key == key then e.elapsed else 0
    ensures Sum(Times(log + [e], key, true)) == Sum(Times(log, key, true)) + if e.key == key && e.recorded then e.elapsed else 0
  {
    assert (log + [e])[..|log|] == log;
    SumAppend(Times(log, key, false), e.elapsed);
    SumAppend(Times(log, key, true), e.elapsed);
    assert Times(log, key, true) + [] == Times(log, key, true);
    assert Times(log, key, false) + [] == Times(log, key, false);
  }

  lemma StepTelescopes(iv: Intervals, start: map<Key, int>, s: State, c: Call, key: Key)
    requires Telescoped(iv, start, s, key)
    ensures Telescoped(iv, start, Step(iv, s, c), key)
  {
    if c.attempt.Ticks() { LogExtends(s.log, Entry(iv, s.lastRun, c), key); }
  }

  /** Over every sequence of TickAll and Catchup attempts, failing anywhere, in
      any order of systems and entities and with any clock: the elapsed times of
      a key's recorded ticks sum to the span from its origin to its last
      recorded tick, so failed ticks lose no time; the time of ticks whose
      record was lost is what is counted again. */
  lemma {:induction false} EveryRunTelescopes(iv: Intervals, start: map<Key, int>, calls: seq<Call>, key: Key)
    ensures Telescoped(iv, start, Run(iv, State(start, []), calls), key)
  {
    if |calls| != 0 {
      EveryRunTelescopes(iv, start, calls[..|calls| - 1], key);
      StepTelescopes(iv, start, Run(iv, State(start, []), calls[..|calls| - 1]), calls[|calls| - 1], key);
    }
  }

  predicate NoLostRecords(calls: seq<Call>, key: Key) {
    forall i :: 0 <= i < |calls| && calls[i].key == key ==> !calls[i].attempt.setFails
  }

  lemma {:induction false} AllRecorded(iv: Intervals, start: map<Key, int>, calls: seq<Call>, key: Key)
    requires NoLostRecords(calls, key)
    ensures var log := Run(iv, State(start, []), calls).log;
      Times(log, key, true) == Times(log, key, false) && LostRecords(log, key) == 0
  {
    if |calls| != 0 {
      var front, c := calls[..|calls| - 1], calls[|calls| - 1];
      AllRecorded(iv, start, front, key);
      var s := Run(iv, State(start, []), front);
      if c.attempt.Ticks() { LogExtends(s.log, Entry(iv, s.lastRun, c), key); }
    }
  }

  /** A fresh key's successful ticks sum to Interval + (last now - first now). */
  lemma FreshKeyAccountsInterval(iv: Intervals, start: map<Key, int>, calls: seq<Call>, key: Key)
    requires key !in start && NoLostRecords(calls, key)
    ensures var log := Run(iv, State(start, []), calls).log;
      Sum(Times(log, key, false)) ==
      if Last(log, key).Some? && First(log, key).Some?
      then iv(key.system) + (Last(log, key).value - First(log, key).value) else 0
  {
    EveryRunTelescopes(iv, start, calls, key);
    AllRecorded(iv, start, calls, key);
  }

  /** The ticks of the example below, and what they account for. */
  lemma ThreeTicks(key: Key)
    ensures var log := [Ticked(key, 10, 5, true), Ticked(key, 20, 10, false), Ticked(key, 30, 20, true)];
      && Times(log, key, false) == [5, 10, 20] && LostRecords(log, key) == 10
      && First(log, key) == Some(10) && Last(log, key) == Some(30)
  {
    var t1, t2, t3 := Ticked(key, 10, 5, true), Ticked(key, 20, 10, false), Ticked(key, 30, 20, true);
    assert [t1, t2, t3][..2] == [t1, t2] && [t1, t2][..1] == [t1] && [t1][..0] == [];
    assert Times([t1], key, false) == [5] && Times([t1, t2], key, false) == [5, 10];
    assert LostRecords([t1], key) == 0 && LostRecords([t1, t2], key) == 10;
    assert First([t1], key) == Some(10) && First([t1, t2], key) == Some(10);
  }

  lemma RunOfThree(iv: Intervals, s: State, a: Call, b: Call, c: Call)
    ensures Run(iv, s, [a, b, c]) == Step(iv, Step(iv, Step(iv, s, a), b), c)
  {
    assert [a, b, c][..2] == [a, b] && [a, b][..1] == [a] && [a][..0] == [];
    assert Run(iv, s, [a]) == Step(iv, s, a);
    assert Run(iv, s, [a, b]) == Step(iv, Step(iv, s, a), b);
  }

  /** A tick at 20 whose record is lost is counted again by the one at 30: with
      an interval of 5, ticks at 10, 20 and 30 are handed 35 for a span of 25. */
  lemma LostRecordCountsTwice(iv: Intervals, key: Key)
    requires iv(key.system) == 5
    ensures var calls := [Call(key, Attempt(10, false, false, false)), Call(key, Attempt(20, false, false, true)),
                          Call(key, Attempt(30, false, false, false))];
      var log := Run(iv, State(map[], []), calls).log;
      && Times(log, key, false) == [5, 10, 20] && LostRecords(log, key) == 10
      && First(log, key) == Some(10) && Last(log, key) == Some(30)
  {
    var c1, c2, c3 := Call(key, Attempt(10, false, false, false)), Call(key, Attempt(20, false, false, true)), Call(key, Attempt(30, false, false, false));
    RunOfThree(iv, State(map[], []), c1, c2, c3);
    ThreeTicks(key);
    var s1 := Step(iv, State(map[], []), c1);
    var s2 := Step(iv, s1, c2);
    assert s1.log == [Ticked(key, 10, 5, true)];
    assert s2.log == [Ticked(key, 10, 5, true), Ticked(key, 20, 10, false)];
    assert Step(iv, s2, c3).log == [Ticked(key, 10, 5, true), Ticked(key, 20, 10, false), Ticked(key, 30, 20, true)];
  }

  ghost predicate Forward(start: map<Key, int>, calls: seq<Call>) {
    && (forall i, j :: 0 <= i < j < |calls| ==> calls[i].attempt.now <= calls[j].attempt.now)
    && forall k, i :: k in start && 0 <= i < |calls| ==> start[k] <= calls[i].attempt.now
  }

  /** Under a nondecreasing clock no tick is handed negative time. */
  lemma {:induction false} NoNegativeTime(iv: Intervals, start: map<Key, int>, calls: seq<Call>)
    requires Forward(start, calls) && forall n :: iv(n) >= 0
    ensures var r := Run(iv, State(start, []), calls);
      && (forall i :: 0 <= i < |r.log| ==> r.log[i].elapsed >= 0)
      && forall k :: k in r.lastRun && !(k in start && r.lastRun[k] == start[k]) ==>
           exists i :: 0 <= i < |calls| && calls[i].attempt.now == r.lastRun[k]
  {
    if |calls| != 0 {
      var front, c := calls[..|calls| - 1], calls[|calls| - 1];
      NoNegativeTime(iv, start, front);
      var s, r := Run(iv, State(start, []), front), Run(iv, State(start, []), calls);
      if c.key in s.lastRun && !(c.key in start && s.lastRun[c.key] == start[c.key]) {
        var i :| 0 <= i < |front| && front[i].attempt.now == s.lastRun[c.key];
        assert calls[i].attempt.now <= c.attempt.now;
      }
      assert Elapsed(iv, s.lastRun, c) >= 0;
      forall k | k in r.lastRun && !(k in start && r.lastRun[k] == start[k])
        ensures exists i :: 0 <= i < |calls| && calls[i].attempt.now == r.lastRun[k]
      {
        if k in s.lastRun && s.lastRun[k] == r.lastRun[k] {
          var i :| 0 <= i < |front| && front[i].attempt.now == s.lastRun[k];
          assert calls[i] == front[i];
        } else {
          assert calls[|calls| - 1].attempt.now == r.lastRun[k];
        }
      }
    }
  }

  // ---------------------------------------------------- the code's own form

  /** Calls made by one TickAll: one per entity, in order. */
  function Calls(system: string, ids: seq<int>, at: int -> Attempt): seq<Call> {
    if |ids| == 0 then []
    else Calls(system, ids[..|ids| - 1], at) + [Call(Key(system, ids[|ids| - 1]), at(ids[|ids| - 1]))]
  }

  datatype TickResult = Done | QueryFailed | EntityFailed(id: int)

  class Driver {
    const world: W.World
    const intervals: Intervals
    var lastRun: map<Key, int>
    var log: seq<Ticked>

    constructor (world: W.World, intervals: Intervals, lastRun: map<Key, int>)
      ensures this.world == world && this.intervals == intervals && Now() == State(lastRun, [])
    {
      this.world, this.intervals, this.lastRun, this.log := world, intervals, lastRun, [];
    }

    function Now(): State
      reads this
    {
      State(lastRun, log)
    }

    /** Also `Catchup`. */
    method TickEntity(system: string, id: int, a: Attempt) returns (ok: bool)
      modifies this`lastRun, this`log
      ensures Now() == Step(intervals, old(Now()), Call(Key(system, id), a))
      ensures ok <==> !a.Fails()
      ensures var key := Key(system, id);
        && lastRun == (if a.getFails || a.tickFails || a.setFails then old(lastRun) else old(lastRun)[key := a.now])
        && log == old(log) +
             if a.getFails || a.tickFails then []
             else [Ticked(key, a.now, if key in old(lastRun) then a.now - old(lastRun)[key] else intervals(system), !a.setFails)]
    {
      var key, elapsed := Key(system, id), intervals(system);
      if a.getFails { return false; }
      if key in lastRun { elapsed := a.now - lastRun[key]; }
      if a.tickFails { return false; }
      log := log + [Ticked(key, a.now, elapsed, !a.setFails)];
      if a.setFails { return false; }
      lastRun := lastRun[key := a.now];
      return true;
    }

    /** Visits the sorted intersection of the queried components, each entity
        once, up to the first failure. */
    method TickAll(system: string, query: seq<string>, broken: set<string>, at: int -> Attempt)
      returns (r: TickResult, visited: seq<int>, ghost ids: seq<int>)
      modifies this`lastRun, this`log
      ensures r.QueryFailed? ==> exists n :: n in query && (n !in world.indexes || n in broken)
      ensures (exists n :: n in query && n !in world.indexes) ==> r.QueryFailed?
      ensures query != [] && query[0] in broken ==> r.QueryFailed?
      ensures r.QueryFailed? ==> visited == []
      ensures !r.QueryFailed? ==>
          && StrictlyIncreasing(ids)
          && (query == [] ==> ids == [])
          && (query != [] ==> forall id :: id in ids <==> world.HasAll(id, query))
      ensures |visited| <= |ids| && visited == ids[..|visited|]
      ensures Now() == Run(intervals, old(Now()), Calls(system, visited, at))
      ensures forall i :: 0 <= i < |visited| - 1 ==> !at(visited[i]).Fails()
      ensures r.Done? ==> visited == ids && forall id :: id in ids ==> !at(id).Fails()
      ensures r.EntityFailed? ==> visited != [] && r.id == visited[|visited| - 1] && at(r.id).Fails()
    {
      var q := world.Query(query, broken);
      if !q.Found? { return QueryFailed, [], []; }
      ids := q.ids;
      var failed;
      visited, failed := TickEach(system, q.ids, at);
      r := if failed then EntityFailed(visited[|visited| - 1]) else Done;
    }

    /** TickAll's loop, with its early exit. */
    method TickEach(system: string, ids: seq<int>, at: int -> Attempt) returns (visited: seq<int>, failed: bool)
      modifies this`lastRun, this`log
      ensures |visited| <= |ids| && visited == ids[..|visited|]
      ensures Now() == Run(intervals, old(Now()), Calls(system, visited, at))
      ensures forall i :: 0 <= i < |visited| - 1 ==> !at(visited[i]).Fails()
      ensures if failed then visited != [] && at(visited[|visited| - 1]).Fails() else visited == ids && forall id :: id in ids ==> !at(id).Fails()
    {
      visited := [];
      for i := 0 to |ids|
        invariant visited == ids[..i]
        invariant Now() == Run(intervals, old(Now()), Calls(system, visited, at))
        invariant forall j :: 0 <= j < i ==> !at(ids[j]).Fails()
      {
        var id := ids[i];
        var ok := TickEntity(system, id, at(id));
        TickExtends(intervals, old(Now()), system, ids, i, at);
        visited := ids[..i + 1];
        if !ok { return visited, true; }
      }
      return visited, false;
    }
  }

  lemma TickExtends(iv: Intervals, s: State, system: string, ids: seq<int>, i: nat, at: int -> Attempt)
    requires i < |ids|
    ensures Run(iv, s, Calls(system, ids[..i + 1], at)) ==
            Step(iv, Run(iv, s, Calls(system, ids[..i], at)), Call(Key(system, ids[i]), at(ids[i])))
  {
    assert ids[..i + 1][..i] == ids[..i];
    RunAppend(iv, s, Calls(system, ids[..i], at), Call(Key(system, ids[i]), at(ids[i])));
  }

  lemma RunAppend(iv: Intervals, s: State, calls: seq<Call>, c: Call)
    ensures Run(iv, s, calls + [c]) == Step(iv, Run(iv, s, calls), c)
  {
    assert (calls + [c])[..|calls|] == calls;
  }
}
