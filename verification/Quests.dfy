/** Quest progress: the pure step transition, and concurrent progress updates
    over rows guarded by `status = 'ACTIVE'`. */
module Quests {
  import opened Common

  const INT32_MAX: int := 0x7fff_ffff

  /** Two's complement wrap-around of a 32-bit addition. */
  function Wrap32(x: int): int { (x + 0x8000_0000) % 0x1_0000_0000 - 0x8000_0000 }

  lemma NoWrap(x: int)
    requires 0 <= x <= INT32_MAX
    ensures Wrap32(x) == x
  {
  }

  datatype Step = Step(kind: string, target: string, count: int)

  datatype Advanced = Advanced(progress: seq<int>, step: int, stepDone: bool, questDone: bool, matched: bool)

  function Advance(steps: seq<Step>, cur: int, progress: seq<int>, kind: string, target: string, amount: int): Advanced {
    var same := Advanced(progress, cur, false, false, false);
    if cur < 0 || cur >= |steps| || cur >= |progress| then same
    else
      var step := steps[cur];
      if step.kind != kind || step.target != target then same
      else if progress[cur] >= step.count then same
      else
        var sum := Wrap32(progress[cur] + amount);
        var next := if sum > step.count then step.count else sum;
        var done, last := next >= step.count, cur == |steps| - 1;
        Advanced(progress[cur := next], if done && !last then cur + 1 else cur, done, done && last, true)
  }

  ghost predicate StepsOk(steps: seq<Step>) {
    forall i :: 0 <= i < |steps| ==> 0 < steps[i].count <= INT32_MAX
  }

  /** Earlier steps full, the current one short of its count, later ones at 0. */
  ghost predicate Shaped(steps: seq<Step>, cur: int, progress: seq<int>) {
    && |progress| == |steps| && 0 <= cur && (cur < |steps| || (cur == 0 && steps == []))
    && (forall i :: 0 <= i < cur ==> progress[i] == steps[i].count)
    && (cur < |steps| ==> 0 <= progress[cur] < steps[cur].count)
    && (forall i :: cur < i < |steps| ==> progress[i] == 0)
  }

  function Sum(s: seq<int>): int { if |s| == 0 then 0 else Sum(s[..|s| - 1]) + s[|s| - 1] }

  lemma {:induction false} SumUpdate(s: seq<int>, i: nat, v: int)
    requires i < |s|
    ensures Sum(s[i := v]) == Sum(s) - s[i] + v
  {
    var n := |s| - 1;
    if i == n { assert s[i := v][..n] == s[..n]; }
    else {
      assert s[i := v][..n] == s[..n][i := v];
      SumUpdate(s[..n], i, v);
    }
  }

  /** The event is what the current step asks for, and the step lacks something. */
  predicate Matches(steps: seq<Step>, cur: int, progress: seq<int>, kind: string, target: string) {
    && 0 <= cur < |steps| && cur < |progress|
    && kind == steps[cur].kind && target == steps[cur].target && progress[cur] < steps[cur].count
  }

  /** Exactly such events match; any other changes nothing. */
  lemma AdvanceMatchesIff(steps: seq<Step>, cur: int, progress: seq<int>, kind: string, target: string, amount: int)
    ensures Advance(steps, cur, progress, kind, target, amount).matched <==> Matches(steps, cur, progress, kind, target)
    ensures !Matches(steps, cur, progress, kind, target) ==>
            Advance(steps, cur, progress, kind, target, amount) == Advanced(progress, cur, false, false, false)
  {
  }

  /** On a well-shaped row a matching event keeps the shape, or completes the
      quest, exactly when the addition does not overflow 32 bits. */
  lemma AdvanceKeepsShapeIff(steps: seq<Step>, cur: int, progress: seq<int>, kind: string, target: string, amount: int)
    requires StepsOk(steps) && Shaped(steps, cur, progress) && 0 <= amount <= INT32_MAX
    requires Advance(steps, cur, progress, kind, target, amount).matched
    ensures var a := Advance(steps, cur, progress, kind, target, amount);
      a.questDone || Shaped(steps, a.step, a.progress) <==> progress[cur] + amount <= INT32_MAX
  {
  }

  /** A legal row and amount whose sum wraps around to a negative progress. */
  lemma OverflowBreaksShape()
    ensures var steps, progress := [Step("KILL", "wolf", INT32_MAX)], [1];
      var a := Advance(steps, 0, progress, "KILL", "wolf", INT32_MAX);
      && StepsOk(steps) && Shaped(steps, 0, progress) && a.matched && !a.questDone
      && a.progress[0] < 0 && !Shaped(steps, a.step, a.progress)
  {
    assert Wrap32(1 + INT32_MAX) == -0x8000_0000;
  }

  /** An event adds its amount, but never more than the current step lacks. */
  lemma AdvanceAdds(steps: seq<Step>, cur: int, progress: seq<int>, kind: string, target: string, amount: int)
    requires StepsOk(steps) && Shaped(steps, cur, progress) && 0 <= amount <= INT32_MAX
    requires Advance(steps, cur, progress, kind, target, amount).matched && progress[cur] + amount <= INT32_MAX
    ensures var lacks := steps[cur].count - progress[cur];
      Sum(Advance(steps, cur, progress, kind, target, amount).progress) ==
        Sum(progress) + (if amount < lacks then amount else lacks)
  {
    AdvanceWrites(steps, cur, progress, kind, target, amount);
    SumUpdate(progress, cur, Reached(steps[cur].count, progress[cur] + amount));
  }

  function Reached(count: int, sum: int): int { if sum > count then count else sum }

  lemma AdvanceWrites(steps: seq<Step>, cur: int, progress: seq<int>, kind: string, target: string, amount: int)
    requires StepsOk(steps) && Shaped(steps, cur, progress) && 0 <= amount
    requires Advance(steps, cur, progress, kind, target, amount).matched && progress[cur] + amount <= INT32_MAX
    ensures Advance(steps, cur, progress, kind, target, amount).progress ==
            progress[cur := Reached(steps[cur].count, progress[cur] + amount)]
  {
    NoWrap(progress[cur] + amount);
  }

  /** A matching event fills the current step up to its count, moves on if that is
      reached and there is a next step, and completes the quest if there is none. */
  lemma AdvanceMeans(steps: seq<Step>, cur: int, progress: seq<int>, kind: string, target: string, amount: int)
    requires StepsOk(steps) && Shaped(steps, cur, progress) && Matches(steps, cur, progress, kind, target)
    requires 0 <= amount && progress[cur] + amount <= INT32_MAX
    ensures var a, full := Advance(steps, cur, progress, kind, target, amount), progress[cur] + amount >= steps[cur].count;
      && a.progress == progress[cur := if full then steps[cur].count else progress[cur] + amount]
      && a.step == (if full && cur < |steps| - 1 then cur + 1 else cur)
      && a.stepDone == full && a.questDone == (full && cur == |steps| - 1)
  {
    NoWrap(progress[cur] + amount);
  }

  /** The quest completes exactly when every step has reached its count. */
  lemma AdvanceCompletesIff(steps: seq<Step>, cur: int, progress: seq<int>, kind: string, target: string, amount: int)
    requires StepsOk(steps) && Shaped(steps, cur, progress) && 0 <= amount <= INT32_MAX
    requires Advance(steps, cur, progress, kind, target, amount).matched && progress[cur] + amount <= INT32_MAX
    ensures var a := Advance(steps, cur, progress, kind, target, amount);
      a.questDone <==> |a.progress| == |steps| && forall i :: 0 <= i < |steps| ==> a.progress[i] == steps[i].count
  {
    var a := Advance(steps, cur, progress, kind, target, amount);
    if cur < |steps| - 1 { assert a.progress[|steps| - 1] == 0; } else { assert a.progress[cur] == a.progress[|steps| - 1]; }
  }

  /** A well-shaped row is determined by its total progress. */
  lemma {:induction false} ShapeIsTotal(steps: seq<Step>, c: int, p: seq<int>, d: int, q: seq<int>)
    requires StepsOk(steps) && Shaped(steps, c, p) && Shaped(steps, d, q) && Sum(p) == Sum(q)
    ensures c == d && p == q
  {
    if c == d {
      if steps != [] {
        SumUpdate(p, c, q[c]);
        assert p[c := q[c]] == q;
      }
    } else if c < d {
      SumBelow(steps, c, p, d, q);
    } else {
      SumBelow(steps, d, q, c, p);
    }
  }

  lemma {:induction false} SumMonotone(p: seq<int>, q: seq<int>)
    requires |p| == |q| && forall i :: 0 <= i < |p| ==> p[i] <= q[i]
    ensures Sum(p) <= Sum(q)
  {
    if |p| != 0 { SumMonotone(p[..|p| - 1], q[..|q| - 1]); }
  }

  lemma SumBelow(steps: seq<Step>, c: int, p: seq<int>, d: int, q: seq<int>)
    requires StepsOk(steps) && Shaped(steps, c, p) && Shaped(steps, d, q) && c < d
    ensures Sum(p) < Sum(q)
  {
    var full := p[c := steps[c].count];
    SumUpdate(p, c, steps[c].count);
    SumMonotone(full, q);
  }

  // ------------------------------------------------------ stored progress

  datatype Key = Key(owner: int, quest: string)

  datatype Row = Row(active: bool, step: int, progress: seq<int>)

  type Defs = map<string, seq<Step>>

  datatype Entry = Entry(quest: string, row: Row)

  datatype Update = Update(kind: string, target: string, amount: int)

  /** What one pass of the loop does to the stored row, given the row it read
      when the call began (`seen`) and the row stored now (`cur`). */
  datatype Effect = Skip | Save(row: Row) | Complete(row: Row) | Gone

  function Process(steps: seq<Step>, seen: Row, cur: Row, u: Update): Effect {
    if !seen.active then Skip
    else
      var a := Advance(steps, seen.step, seen.progress, u.kind, u.target, u.amount);
      if !a.matched then Skip
      else if !cur.active then Gone
      else if a.questDone then Complete(cur.(active := false))
      else Save(Row(true, a.step, a.progress))
  }

  type Tid = nat

  /** A call to UpdateQuestProgress: the rest of its snapshot, and the quest it
      has completed but not yet rewarded. */
  datatype Worker = Idle | Busy(owner: int, update: Update, todo: seq<Entry>, owed: Option<Key>)

  /** `grants` and `missed` log the rewards that arrived whole and those of which
      something failed; `died` records whether any call was cut off. */
  datatype State = State(
    defs: Defs,
    rows: map<Key, Row>,
    workers: map<Tid, Worker>,
    grants: seq<Key>,
    missed: seq<Key>,
    died: bool)

  datatype Event =
    | Accept(key: Key)
    | Begin(t: Tid, owner: int, update: Update, snapshot: seq<Entry>)
    | Next(t: Tid)        // the next pass of the loop, up to its guarded write
    | Grant(t: Tid, ok: bool)   // AddRewards and the reward items, whose errors are discarded
    | Finish(t: Tid)
    | Die(t: Tid)         // the call ends early

  predicate Enabled(s: State, e: Event) {
    match e
    case Accept(key) => key.quest in s.defs
    case Begin(t, c, _, snapshot) =>
      && t in s.workers && s.workers[t].Idle?
      && forall i :: 0 <= i < |snapshot| ==>
           snapshot[i].quest in s.defs && Key(c, snapshot[i].quest) in s.rows && s.rows[Key(c, snapshot[i].quest)] == snapshot[i].row
    case Next(t) =>
      && t in s.workers && s.workers[t].Busy? && s.workers[t].owed.None? && |s.workers[t].todo| > 0
      && s.workers[t].todo[0].quest in s.defs && Key(s.workers[t].owner, s.workers[t].todo[0].quest) in s.rows
    case Grant(t, _) => t in s.workers && s.workers[t].Busy? && s.workers[t].owed.Some?
    case Finish(t) => t in s.workers && s.workers[t].Busy? && s.workers[t].owed.None? && s.workers[t].todo == []
    case Die(t) => t in s.workers && s.workers[t].Busy?
  }

  function Apply(s: State, e: Event): State
    requires Enabled(s, e)
  {
    match e
    case Accept(key) =>
      if key in s.rows then s
      else s.(rows := s.rows[key := Row(true, 0, seq(|s.defs[key.quest]|, _ => 0))])
    case Begin(t, c, update, snapshot) => s.(workers := s.workers[t := Busy(c, update, snapshot, None)])
    case Next(t) =>
      var w := s.workers[t];
      var key := Key(w.owner, w.todo[0].quest);
      var rest := w.(todo := w.todo[1..]);
      match Process(s.defs[key.quest], w.todo[0].row, s.rows[key], w.update) {
        case Skip => s.(workers := s.workers[t := rest])
        case Save(row) => s.(rows := s.rows[key := row], workers := s.workers[t := rest])
        case Complete(row) => s.(rows := s.rows[key := row], workers := s.workers[t := rest.(owed := Some(key))])
        case Gone => s.(workers := s.workers[t := Idle])
      }
    case Grant(t, ok) =>
      var key := s.workers[t].owed.value;
      s.(grants := if ok then s.grants + [key] else s.grants,
         missed := if ok then s.missed else s.missed + [key],
         workers := s.workers[t := s.workers[t].(owed := None)])
    case Finish(t) => s.(workers := s.workers[t := Idle])
    case Die(t) => s.(workers := s.workers[t := Idle], died := true)
  }

  ghost predicate Init(s: State) {
    s.rows == map[] && s.grants == [] && s.missed == [] && !s.died && forall t :: t in s.workers ==> s.workers[t].Idle?
  }

  predicate ValidRun(s: State, es: seq<Event>)
    decreases |es|
  {
    |es| == 0 || (Enabled(s, es[0]) && ValidRun(Apply(s, es[0]), es[1..]))
  }

  function Run(s: State, es: seq<Event>): State
    requires ValidRun(s, es)
    decreases |es|
  {
    if |es| == 0 then s else Run(Apply(s, es[0]), es[1..])
  }

  // ------------------------------------------------- rewards at most once

  predicate Owes(s: State, t: Tid, key: Key) { t in s.workers && s.workers[t].Busy? && s.workers[t].owed == Some(key) }

  predicate Completed(s: State, key: Key) { key in s.rows && !s.rows[key].active }

  /** A reward pass has been made for the quest, whatever came of it. */
  predicate Settled(s: State, key: Key) { key in s.grants || key in s.missed }

  ghost predicate RewardInv(s: State) {
    && Distinct(s.grants) && Distinct(s.missed) && (forall k :: k in s.grants ==> k !in s.missed)
    && (forall k :: Settled(s, k) ==> Completed(s, k))
    && (forall t, k :: Owes(s, t, k) ==> Completed(s, k) && !Settled(s, k))
    && (forall t, u, k :: Owes(s, t, k) && Owes(s, u, k) ==> t == u)
    && (!s.died ==> forall k :: Completed(s, k) ==> Settled(s, k) || exists t :: Owes(s, t, k))
  }

  lemma NextKeeps(s: State, t: Tid)
    requires RewardInv(s) && Enabled(s, Next(t))
    ensures RewardInv(Apply(s, Next(t)))
  {
    var s', w := Apply(s, Next(t)), s.workers[t];
    var key := Key(w.owner, w.todo[0].quest);
    var effect := Process(s.defs[key.quest], w.todo[0].row, s.rows[key], w.update);
    assert forall u, k :: u != t ==> (Owes(s', u, k) <==> Owes(s, u, k));
    assert !Owes(s, t, key);
    assert forall k :: Settled(s', k) <==> Settled(s, k);
    if effect.Complete? {
      assert Owes(s', t, key);
      assert forall k :: Completed(s', k) <==> Completed(s, k) || k == key;
    } else {
      assert forall k :: !Owes(s', t, k);
      assert forall k :: Completed(s', k) <==> Completed(s, k);
    }
  }

  lemma GrantKeeps(s: State, t: Tid, ok: bool)
    requires RewardInv(s) && Enabled(s, Grant(t, ok))
    ensures RewardInv(Apply(s, Grant(t, ok)))
  {
    var s', key := Apply(s, Grant(t, ok)), s.workers[t].owed.value;
    assert Owes(s, t, key);
    assert forall u, k :: Owes(s', u, k) <==> Owes(s, u, k) && u != t;
    assert forall k :: Settled(s', k) <==> Settled(s, k) || k == key;
  }

  lemma OtherKeeps(s: State, e: Event)
    requires RewardInv(s) && Enabled(s, e) && !e.Next? && !e.Grant?
    ensures RewardInv(Apply(s, e))
  {
    var s' := Apply(s, e);
    assert forall k :: (Completed(s', k) <==> Completed(s, k)) && (Settled(s', k) <==> Settled(s, k));
    if e.Accept? {
      assert forall u, k :: Owes(s', u, k) <==> Owes(s, u, k);
    } else {
      assert forall u, k :: Owes(s', u, k) <==> Owes(s, u, k) && u != e.t;
    }
  }

  lemma {:induction false} RunKeepsRewards(s: State, es: seq<Event>)
    requires RewardInv(s) && ValidRun(s, es)
    ensures RewardInv(Run(s, es))
    decreases |es|
  {
    if |es| != 0 {
      match es[0] {
        case Next(t) => NextKeeps(s, t);
        case Grant(t, ok) => GrantKeeps(s, t, ok);
        case _ => OtherKeeps(s, es[0]);
      }
      RunKeepsRewards(Apply(s, es[0]), es[1..]);
    }
  }

  /** In every interleaving of progress calls, whatever the amounts: a quest is
      rewarded at most once per character and only when completed. If no call
      was cut off and none still owes it, a completed quest had exactly one
      reward pass, and was rewarded exactly if that pass did not fail. */
  lemma RewardedAtMostOnce(s0: State, es: seq<Event>, key: Key)
    requires Init(s0) && ValidRun(s0, es)
    ensures var s := Run(s0, es);
      && Count(key, s.grants) + Count(key, s.missed) <= 1
      && (Settled(s, key) ==> Completed(s, key))
      && (!s.died && (forall t :: !Owes(s, t, key)) && Completed(s, key) ==>
            && Count(key, s.grants) + Count(key, s.missed) == 1
            && (key in s.grants <==> key !in s.missed))
  {
    RunKeepsRewards(s0, es);
    CountDistinct(key, Run(s0, es).grants);
    CountDistinct(key, Run(s0, es).missed);
  }

  lemma {:induction false} MissedGrows(s: State, es: seq<Event>, key: Key)
    requires ValidRun(s, es) && key in s.missed
    ensures key in Run(s, es).missed
    decreases |es|
  {
    if |es| != 0 { MissedGrows(Apply(s, es[0]), es[1..], key); }
  }

  lemma {:induction false} RunJoins(s: State, es: seq<Event>, more: seq<Event>)
    requires ValidRun(s, es) && ValidRun(Run(s, es), more)
    ensures ValidRun(s, es + more) && Run(s, es + more) == Run(Run(s, es), more)
    decreases |es|
  {
    if |es| == 0 {
      assert es + more == more;
    } else {
      assert (es + more)[1..] == es[1..] + more;
      RunJoins(Apply(s, es[0]), es[1..], more);
    }
  }

  /** A reward of which something failed is never made up for: no later call,
      however many there are, rewards the quest again. */
  lemma MissedForGood(s0: State, es: seq<Event>, more: seq<Event>, key: Key)
    requires Init(s0) && ValidRun(s0, es) && key in Run(s0, es).missed && ValidRun(Run(s0, es), more)
    ensures Completed(Run(Run(s0, es), more), key) && key !in Run(Run(s0, es), more).grants
  {
    MissedGrows(Run(s0, es), more, key);
    RunJoins(s0, es, more);
    RunKeepsRewards(s0, es + more);
    assert Settled(Run(s0, es + more), key);
  }

  lemma RunFirst(s: State, e: Event, es: seq<Event>)
    requires Enabled(s, e) && ValidRun(Apply(s, e), es)
    ensures ValidRun(s, [e] + es) && Run(s, [e] + es) == Run(Apply(s, e), es)
  {
    assert ([e] + es)[1..] == es;
  }

  /** One wolf to kill; `row` is the stored row and `w` the only call. */
  function OneWolf(q: string, row: Option<Row>, w: Worker, missed: seq<Key>): State {
    State(map[q := [Step("KILL", "wolf", 1)]], if row.None? then map[] else map[Key(1, q) := row.value], map[0 := w], [], missed, false)
  }

  lemma KillCompletes(q: string)
    ensures var row := Row(true, 0, [0]);
      var s := OneWolf(q, Some(row), Busy(1, Update("KILL", "wolf", 1), [Entry(q, row)], None), []);
      && Enabled(s, Next(0))
      && Apply(s, Next(0)) == OneWolf(q, Some(Row(false, 0, [0])), Busy(1, Update("KILL", "wolf", 1), [], Some(Key(1, q))), [])
  {
    assert Wrap32(1) == 1 && [Entry(q, Row(true, 0, [0]))][1..] == [];
  }

  lemma AcceptsOne(q: string)
    ensures Enabled(OneWolf(q, None, Idle, []), Accept(Key(1, q)))
    ensures Apply(OneWolf(q, None, Idle, []), Accept(Key(1, q))) == OneWolf(q, Some(Row(true, 0, [0])), Idle, [])
  {
    assert seq(1, _ => 0) == [0];
  }

  lemma BeginsOne(q: string)
    ensures var row, u := Row(true, 0, [0]), Update("KILL", "wolf", 1);
      var s := OneWolf(q, Some(row), Idle, []);
      && Enabled(s, Begin(0, 1, u, [Entry(q, row)]))
      && Apply(s, Begin(0, 1, u, [Entry(q, row)])) == OneWolf(q, Some(row), Busy(1, u, [Entry(q, row)], None), [])
  {
  }

  lemma MissesReward(q: string)
    ensures var s := OneWolf(q, Some(Row(false, 0, [0])), Busy(1, Update("KILL", "wolf", 1), [], Some(Key(1, q))), []);
      && ValidRun(s, [Grant(0, false), Finish(0)])
      && Run(s, [Grant(0, false), Finish(0)]) == OneWolf(q, Some(Row(false, 0, [0])), Idle, [Key(1, q)])
  {
    var key, u, done := Key(1, q), Update("KILL", "wolf", 1), Some(Row(false, 0, [0]));
    RunFirst(OneWolf(q, done, Busy(1, u, [], None), [key]), Finish(0), []);
    RunFirst(OneWolf(q, done, Busy(1, u, [], Some(key)), []), Grant(0, false), [Finish(0)]);
  }

  /** A call completes the quest, its reward fails, and the call ends as usual:
      the quest is completed, nobody owes it anything, and it is not rewarded. */
  lemma RewardCanBeMissed(q: string)
    ensures var s0, key, row := OneWolf(q, None, Idle, []), Key(1, q), Row(true, 0, [0]);
      var es := [Accept(key), Begin(0, 1, Update("KILL", "wolf", 1), [Entry(q, row)]), Next(0), Grant(0, false), Finish(0)];
      && Init(s0) && ValidRun(s0, es)
      && Run(s0, es) == OneWolf(q, Some(Row(false, 0, [0])), Idle, [key])
  {
    var key, row, u := Key(1, q), Row(true, 0, [0]), Update("KILL", "wolf", 1);
    var begin := Begin(0, 1, u, [Entry(q, row)]);
    AcceptsOne(q);
    KillCompletes(q);
    MissesReward(q);
    BeginsOne(q);
    RunFirst(OneWolf(q, Some(row), Busy(1, u, [Entry(q, row)], None), []), Next(0), [Grant(0, false), Finish(0)]);
    RunFirst(OneWolf(q, Some(row), Idle, []), begin, [Next(0), Grant(0, false), Finish(0)]);
    RunFirst(OneWolf(q, None, Idle, []), Accept(key), [begin, Next(0), Grant(0, false), Finish(0)]);
  }

  /** A completed row never changes again. */
  lemma {:induction false} CompletedIsTerminal(s: State, es: seq<Event>, key: Key)
    requires ValidRun(s, es) && Completed(s, key)
    ensures key in Run(s, es).rows && Run(s, es).rows[key] == s.rows[key]
    decreases |es|
  {
    if |es| != 0 { CompletedIsTerminal(Apply(s, es[0]), es[1..], key); }
  }

  // ----------------------------------------------------- rows keep shape

  ghost predicate DefsOk(defs: Defs) { forall q :: q in defs ==> StepsOk(defs[q]) }

  /** No step of any quest can overflow with this amount. */
  ghost predicate Fits(defs: Defs, amount: int) {
    && 0 <= amount <= INT32_MAX
    && (forall q, i :: q in defs && 0 <= i < |defs[q]| ==> defs[q][i].count - 1 + amount <= INT32_MAX)
  }

  ghost predicate RowOk(defs: Defs, q: string, row: Row) { q in defs && Shaped(defs[q], row.step, row.progress) }

  ghost predicate WorkerOk(defs: Defs, w: Worker) {
    w.Busy? ==> Fits(defs, w.update.amount) && forall i :: 0 <= i < |w.todo| ==> RowOk(defs, w.todo[i].quest, w.todo[i].row)
  }

  ghost predicate ShapeInv(s: State) {
    && DefsOk(s.defs)
    && (forall k :: k in s.rows ==> RowOk(s.defs, k.quest, s.rows[k]))
    && (forall t :: t in s.workers ==> WorkerOk(s.defs, s.workers[t]))
  }

  lemma ProcessKeepsShape(defs: Defs, q: string, seen: Row, cur: Row, u: Update)
    requires DefsOk(defs) && RowOk(defs, q, seen) && RowOk(defs, q, cur) && Fits(defs, u.amount)
    ensures var x := Process(defs[q], seen, cur, u);
      (x.Save? || x.Complete? ==> RowOk(defs, q, x.row))
  {
    var a := Advance(defs[q], seen.step, seen.progress, u.kind, u.target, u.amount);
    if a.matched { AdvanceKeepsShapeIff(defs[q], seen.step, seen.progress, u.kind, u.target, u.amount); }
  }

  lemma RestKeepsOk(defs: Defs, w: Worker)
    requires WorkerOk(defs, w) && w.Busy? && w.todo != []
    ensures WorkerOk(defs, w.(todo := w.todo[1..])) && forall o :: WorkerOk(defs, w.(todo := w.todo[1..], owed := o))
  {
    assert forall i :: 0 <= i < |w.todo[1..]| ==> w.todo[1..][i] == w.todo[i + 1];
  }

  lemma NextShape(s: State, t: Tid)
    requires ShapeInv(s) && Enabled(s, Next(t))
    ensures ShapeInv(Apply(s, Next(t)))
  {
    var w := s.workers[t];
    var key := Key(w.owner, w.todo[0].quest);
    assert WorkerOk(s.defs, w);
    RestKeepsOk(s.defs, w);
    ProcessKeepsShape(s.defs, key.quest, w.todo[0].row, s.rows[key], w.update);
  }

  lemma BeginShape(s: State, t: Tid, owner: int, update: Update, snapshot: seq<Entry>)
    requires ShapeInv(s) && Enabled(s, Begin(t, owner, update, snapshot)) && Fits(s.defs, update.amount)
    ensures ShapeInv(Apply(s, Begin(t, owner, update, snapshot)))
  {
    forall i | 0 <= i < |snapshot| ensures RowOk(s.defs, snapshot[i].quest, snapshot[i].row) {
      assert Key(owner, snapshot[i].quest) in s.rows;
    }
  }

  lemma ShapeStep(s: State, e: Event)
    requires ShapeInv(s) && Enabled(s, e) && (e.Begin? ==> Fits(s.defs, e.update.amount))
    ensures ShapeInv(Apply(s, e))
  {
    match e
    case Next(t) => NextShape(s, t);
    case Begin(t, owner, update, snapshot) => BeginShape(s, t, owner, update, snapshot);
    case Grant(t, _) => assert WorkerOk(s.defs, s.workers[t]);
    case _ =>
  }

  /** In every interleaving with step counts above 0 and amounts that cannot
      overflow, every stored row keeps earlier steps at their count, the
      current step below it and later steps at 0, stale snapshots included. */
  lemma {:induction false} RowsKeepShape(s: State, es: seq<Event>)
    requires ShapeInv(s) && ValidRun(s, es)
    requires forall k :: 0 <= k < |es| && es[k].Begin? ==> Fits(s.defs, es[k].update.amount)
    ensures ShapeInv(Run(s, es))
    decreases |es|
  {
    if |es| != 0 {
      ShapeStep(s, es[0]);
      assert forall k :: 0 <= k < |es[1..]| ==> es[1..][k] == es[k + 1];
      RowsKeepShape(Apply(s, es[0]), es[1..]);
    }
  }

  lemma InitHasShape(s: State)
    requires Init(s) && DefsOk(s.defs)
    ensures ShapeInv(s)
  {
  }

  // ---------------------------------------------------- the code's own form

  /** The loop of UpdateQuestProgress over the quest log, without interference;
      the rewards of the quests in `fails` fail. */
  function ProcessAll(defs: Defs, rows: map<string, Row>, book: Book, log: seq<Entry>, u: Update, fails: set<string>)
    : (map<string, Row>, Book, bool)
    requires forall i :: 0 <= i < |log| ==> log[i].quest in defs && log[i].quest in rows
    decreases |log|
  {
    if |log| == 0 then (rows, book, true)
    else
      var q := log[0].quest;
      match Process(defs[q], log[0].row, rows[q], u)
      case Skip => ProcessAll(defs, rows, book, log[1..], u, fails)
      case Save(row) => ProcessAll(defs, rows[q := row], book, log[1..], u, fails)
      case Complete(row) => ProcessAll(defs, rows[q := row], book.Rewarded(q, q !in fails), log[1..], u, fails)
      case Gone => (rows, book, false)
  }

  /** Rewards that arrived and rewards that did not. */
  datatype Book = Book(grants: seq<string>, missed: seq<string>) {
    function Rewarded(q: string, ok: bool): Book {
      if ok then this.(grants := grants + [q]) else this.(missed := missed + [q])
    }
  }

  ghost predicate DistinctQuests(todo: seq<Entry>) {
    forall i, j :: 0 <= i < j < |todo| ==> todo[i].quest != todo[j].quest
  }

  /** The row is active and the event is for its current step. */
  predicate Hits(steps: seq<Step>, row: Row, u: Update) {
    row.active && Matches(steps, row.step, row.progress, u.kind, u.target)
  }

  /** The event fills the last step. */
  predicate Fills(steps: seq<Step>, row: Row, u: Update) {
    Hits(steps, row, u) && row.step == |steps| - 1 && row.progress[row.step] + u.amount >= steps[row.step].count
  }

  /** The row an undisturbed call leaves: untouched, completed as it is, or with
      its current step filled up. */
  function RowAfter(steps: seq<Step>, row: Row, u: Update): Row {
    if !Hits(steps, row, u) then row
    else if Fills(steps, row, u) then row.(active := false)
    else
      var sum := row.progress[row.step] + u.amount;
      if sum >= steps[row.step].count then Row(true, row.step + 1, row.progress[row.step := steps[row.step].count])
      else Row(true, row.step, row.progress[row.step := sum])
  }

  lemma {:induction false} OthersUntouched(defs: Defs, rows: map<string, Row>, book: Book, log: seq<Entry>, u: Update, fails: set<string>, q: string)
    requires forall i :: 0 <= i < |log| ==> log[i].quest in defs && log[i].quest in rows
    requires forall i :: 0 <= i < |log| && log[i].quest == q ==> !Hits(defs[q], log[i].row, u)
    ensures var (after, booked, ok) := ProcessAll(defs, rows, book, log, u, fails);
      && (q in after <==> q in rows) && (q in rows ==> after[q] == rows[q])
      && Count(q, booked.grants) == Count(q, book.grants) && Count(q, booked.missed) == Count(q, book.missed)
    decreases |log|
  {
    if |log| != 0 {
      var first := log[0].quest;
      var x := Process(defs[first], log[0].row, rows[first], u);
      AdvanceMatchesIff(defs[first], log[0].row.step, log[0].row.progress, u.kind, u.target, u.amount);
      assert forall i :: 0 <= i < |log[1..]| ==> log[1..][i] == log[i + 1];
      match x
      case Skip => OthersUntouched(defs, rows, book, log[1..], u, fails, q);
      case Save(row) => OthersUntouched(defs, rows[first := row], book, log[1..], u, fails, q);
      case Complete(row) =>
        BookOther(book, first, first !in fails, q);
        OthersUntouched(defs, rows[first := row], book.Rewarded(first, first !in fails), log[1..], u, fails, q);
      case Gone =>
    }
  }

  lemma BookOther(book: Book, first: string, ok: bool, q: string)
    ensures var b := book.Rewarded(first, ok);
      && Count(q, b.grants) == Count(q, book.grants) + (if ok && q == first then 1 else 0)
      && Count(q, b.missed) == Count(q, book.missed) + (if !ok && q == first then 1 else 0)
  {
    CountAppend(q, book.grants, first);
    CountAppend(q, book.missed, first);
  }

  /** The log is what is stored, each quest once, and the amount cannot overflow. */
  ghost predicate Undisturbed(defs: Defs, rows: map<string, Row>, log: seq<Entry>, u: Update) {
    && DistinctQuests(log) && Fits(defs, u.amount)
    && forall i :: 0 <= i < |log| ==>
         && log[i].quest in defs && StepsOk(defs[log[i].quest]) && RowOk(defs, log[i].quest, log[i].row)
         && log[i].quest in rows && rows[log[i].quest] == log[i].row
  }

  lemma ProcessMeans(defs: Defs, q: string, row: Row, u: Update)
    requires q in defs && StepsOk(defs[q]) && RowOk(defs, q, row) && Fits(defs, u.amount)
    ensures var x, next := Process(defs[q], row, row, u), RowAfter(defs[q], row, u);
      if !Hits(defs[q], row, u) then x.Skip? && next == row
      else if Fills(defs[q], row, u) then x == Complete(next) else x == Save(next)
  {
    AdvanceMatchesIff(defs[q], row.step, row.progress, u.kind, u.target, u.amount);
    if Hits(defs[q], row, u) { AdvanceMeans(defs[q], row.step, row.progress, u.kind, u.target, u.amount); }
  }

  /** A row that another call has completed meanwhile ends the call. */
  lemma GoneIff(steps: seq<Step>, seen: Row, cur: Row, u: Update)
    ensures Process(steps, seen, cur, u).Gone? <==> Hits(steps, seen, u) && !cur.active
    ensures Process(steps, seen, cur, u).Skip? <==> !Hits(steps, seen, u)
  {
    AdvanceMatchesIff(steps, seen.step, seen.progress, u.kind, u.target, u.amount);
  }

  lemma RestUndisturbed(defs: Defs, rows: map<string, Row>, log: seq<Entry>, u: Update, row: Row)
    requires Undisturbed(defs, rows, log, u) && log != []
    ensures Undisturbed(defs, rows, log[1..], u) && Undisturbed(defs, rows[log[0].quest := row], log[1..], u)
    ensures forall i :: 0 <= i < |log[1..]| ==> log[1..][i].quest != log[0].quest
  {
    assert forall i :: 0 <= i < |log[1..]| ==> log[1..][i] == log[i + 1];
  }

  /** What the first pass of an undisturbed call does. */
  lemma FirstPass(defs: Defs, rows: map<string, Row>, book: Book, log: seq<Entry>, u: Update, fails: set<string>)
    requires Undisturbed(defs, rows, log, u) && log != []
    ensures var q, row := log[0].quest, log[0].row;
      var next := rows[q := RowAfter(defs[q], row, u)];
      && Undisturbed(defs, next, log[1..], u)
      && ProcessAll(defs, rows, book, log, u, fails) ==
         ProcessAll(defs, next, if Fills(defs[q], row, u) then book.Rewarded(q, q !in fails) else book, log[1..], u, fails)
  {
    var q, row := log[0].quest, log[0].row;
    ProcessMeans(defs, q, row, u);
    RestUndisturbed(defs, rows, log, u, RowAfter(defs[q], row, u));
    assert rows[q := row] == rows;
  }

  /** An undisturbed call succeeds, leaves each of its rows as the event demands and
      books one reward pass for exactly the quests it completes. */
  lemma {:induction false} CallMeans(defs: Defs, rows: map<string, Row>, book: Book, log: seq<Entry>, u: Update, fails: set<string>, i: nat)
    requires Undisturbed(defs, rows, log, u) && i < |log|
    ensures var (after, booked, ok) := ProcessAll(defs, rows, book, log, u, fails);
      var q, done := log[i].quest, Fills(defs[log[i].quest], log[i].row, u);
      && ok && q in after && after[q] == RowAfter(defs[q], log[i].row, u)
      && Count(q, booked.grants) == Count(q, book.grants) + (if done && q !in fails then 1 else 0)
      && Count(q, booked.missed) == Count(q, book.missed) + (if done && q in fails then 1 else 0)
    decreases |log|
  {
    var first, row := log[0].quest, log[0].row;
    var next := rows[first := RowAfter(defs[first], row, u)];
    var book1 := if Fills(defs[first], row, u) then book.Rewarded(first, first !in fails) else book;
    FirstPass(defs, rows, book, log, u, fails);
    BookOther(book, first, first !in fails, log[i].quest);
    if i == 0 {
      RestUndisturbed(defs, rows, log, u, row);
      OthersUntouched(defs, next, book1, log[1..], u, fails, first);
      CallSucceeds(defs, next, book1, log[1..], u, fails);
    } else {
      assert log[1..][i - 1] == log[i];
      CallMeans(defs, next, book1, log[1..], u, fails, i - 1);
    }
  }

  /** A quest for none of whose log entries the event is: nothing changes for it. */
  ghost predicate Kept(defs: Defs, log: seq<Entry>, u: Update, q: string, rows: map<string, Row>, book: Book, after: map<string, Row>, booked: Book) {
    (forall i :: 0 <= i < |log| && log[i].quest == q ==> q in defs && !Hits(defs[q], log[i].row, u)) ==>
      && (q in after <==> q in rows) && (q in rows ==> after[q] == rows[q])
      && Count(q, booked.grants) == Count(q, book.grants) && Count(q, booked.missed) == Count(q, book.missed)
  }

  /** A log entry whose quest the call has dealt with. */
  predicate Made(defs: Defs, entry: Entry, u: Update, fails: set<string>, book: Book, after: map<string, Row>, booked: Book) {
    var q := entry.quest;
    && q in defs && q in after && after[q] == RowAfter(defs[q], entry.row, u)
    && Count(q, booked.grants) == Count(q, book.grants) + (if Fills(defs[q], entry.row, u) && q !in fails then 1 else 0)
    && Count(q, booked.missed) == Count(q, book.missed) + (if Fills(defs[q], entry.row, u) && q in fails then 1 else 0)
  }

  /** The first row the call would write is no longer active. */
  predicate GivesUp(defs: Defs, rows: map<string, Row>, log: seq<Entry>, u: Update) {
    log != [] && log[0].quest in defs && log[0].quest in rows && Hits(defs[log[0].quest], log[0].row, u) && !rows[log[0].quest].active
  }

  lemma CallKeeps(defs: Defs, rows: map<string, Row>, book: Book, log: seq<Entry>, u: Update, fails: set<string>)
    requires forall i :: 0 <= i < |log| ==> log[i].quest in defs && log[i].quest in rows
    ensures var (after, booked, ok) := ProcessAll(defs, rows, book, log, u, fails);
      forall q :: Kept(defs, log, u, q, rows, book, after, booked)
  {
    var (after, booked, ok) := ProcessAll(defs, rows, book, log, u, fails);
    forall q ensures Kept(defs, log, u, q, rows, book, after, booked) {
      if forall i :: 0 <= i < |log| && log[i].quest == q ==> q in defs && !Hits(defs[q], log[i].row, u) {
        OthersUntouched(defs, rows, book, log, u, fails, q);
      }
    }
  }

  lemma GivesUpAtOnce(defs: Defs, rows: map<string, Row>, book: Book, log: seq<Entry>, u: Update, fails: set<string>)
    requires forall i :: 0 <= i < |log| ==> log[i].quest in defs && log[i].quest in rows
    requires GivesUp(defs, rows, log, u)
    ensures ProcessAll(defs, rows, book, log, u, fails) == (rows, book, false)
  {
    GoneIff(defs[log[0].quest], log[0].row, rows[log[0].quest], u);
  }

  lemma CallMakes(defs: Defs, rows: map<string, Row>, book: Book, log: seq<Entry>, u: Update, fails: set<string>)
    requires Undisturbed(defs, rows, log, u)
    ensures var (after, booked, ok) := ProcessAll(defs, rows, book, log, u, fails);
      ok && forall i :: 0 <= i < |log| ==> Made(defs, log[i], u, fails, book, after, booked)
  {
    var (after, booked, ok) := ProcessAll(defs, rows, book, log, u, fails);
    CallSucceeds(defs, rows, book, log, u, fails);
    forall i | 0 <= i < |log| ensures Made(defs, log[i], u, fails, book, after, booked) {
      CallMeans(defs, rows, book, log, u, fails, i);
    }
  }

  lemma {:induction false} CallSucceeds(defs: Defs, rows: map<string, Row>, book: Book, log: seq<Entry>, u: Update, fails: set<string>)
    requires Undisturbed(defs, rows, log, u)
    ensures ProcessAll(defs, rows, book, log, u, fails).2
    decreases |log|
  {
    if |log| != 0 {
      var q, row := log[0].quest, log[0].row;
      FirstPass(defs, rows, book, log, u, fails);
      CallSucceeds(defs, rows[q := RowAfter(defs[q], row, u)],
                   if Fills(defs[q], row, u) then book.Rewarded(q, q !in fails) else book, log[1..], u, fails);
    }
  }

  datatype Acceptance = UnknownQuest | NoCharacter | LevelTooLow | Vetoed | AlreadyTaken | Accepted

  /** One character's quest rows behind the repository, and the service. */
  class QuestService {
    const defs: Defs
    var rows: map<string, Row>
    var book: Book

    /** `level` is the character's, if it is found, `minLevel` the definition's,
        `vetoed` the verdict of the accept hook. The first failing rule is
        reported, and nothing is stored then. */
    method AcceptQuest(quest: string, level: Option<int>, minLevel: int, vetoed: bool) returns (r: Acceptance)
      modifies this`rows
      ensures r == (if quest !in defs then UnknownQuest
                    else if level.None? then NoCharacter
                    else if level.value < minLevel then LevelTooLow
                    else if vetoed then Vetoed
                    else if quest in old(rows) then AlreadyTaken
                    else Accepted)
      ensures rows == if r.Accepted? then old(rows)[quest := Row(true, 0, seq(|defs[quest]|, _ => 0))] else old(rows)
      ensures r.Accepted? && StepsOk(defs[quest]) ==> Shaped(defs[quest], rows[quest].step, rows[quest].progress)
    {
      if quest !in defs { return UnknownQuest; }
      if level.None? { return NoCharacter; }
      if level.value < minLevel { return LevelTooLow; }
      if vetoed { return Vetoed; }
      if quest in rows { return AlreadyTaken; }
      rows := rows[quest := Row(true, 0, seq(|defs[quest]|, _ => 0))];
      return Accepted;
    }

    method CompleteQuest(quest: string) returns (ok: bool)
      modifies this`rows
      ensures ok <==> quest in old(rows) && old(rows)[quest].active
      ensures ok ==> rows == old(rows)[quest := old(rows)[quest].(active := false)]
      ensures !ok ==> rows == old(rows)
    {
      if quest !in rows || !rows[quest].active { return false; }
      rows := rows[quest := rows[quest].(active := false)];
      return true;
    }

    method UpdateProgress(quest: string, step: int, progress: seq<int>) returns (ok: bool)
      modifies this`rows
      ensures ok <==> quest in old(rows) && old(rows)[quest].active
      ensures ok ==> rows == old(rows)[quest := Row(true, step, progress)]
      ensures !ok ==> rows == old(rows)
    {
      if quest !in rows || !rows[quest].active { return false; }
      rows := rows[quest := Row(true, step, progress)];
      return true;
    }

    /** Quests whose rows the event is not for keep their rows and get no reward.
        A row completed by somebody else meanwhile ends the call. Undisturbed,
        every row becomes what the event demands, and exactly the quests it
        completes get a reward pass. */
    method UpdateQuestProgress(log: seq<Entry>, u: Update, fails: set<string>) returns (ok: bool)
      requires forall i :: 0 <= i < |log| ==> log[i].quest in defs && log[i].quest in rows
      modifies this`rows, this`book
      ensures forall q :: Kept(defs, log, u, q, old(rows), old(book), rows, book)
      ensures GivesUp(defs, old(rows), log, u) ==> !ok && rows == old(rows) && book == old(book)
      ensures Undisturbed(defs, old(rows), log, u) ==> ok && forall i :: 0 <= i < |log| ==> Made(defs, log[i], u, fails, old(book), rows, book)
    {
      CallKeeps(defs, rows, book, log, u, fails);
      if GivesUp(defs, rows, log, u) { GivesUpAtOnce(defs, rows, book, log, u, fails); }
      if Undisturbed(defs, rows, log, u) { CallMakes(defs, rows, book, log, u, fails); }
      ok := ProcessLog(log, u, fails);
    }

    /** The loop over the quest log. */
    method ProcessLog(log: seq<Entry>, u: Update, fails: set<string>) returns (ok: bool)
      requires forall i :: 0 <= i < |log| ==> log[i].quest in defs && log[i].quest in rows
      modifies this`rows, this`book
      ensures (rows, book, ok) == ProcessAll(defs, old(rows), old(book), log, u, fails)
    {
      ghost var expected := ProcessAll(defs, rows, book, log, u, fails);
      for i := 0 to |log|
        invariant forall k :: 0 <= k < |log| ==> log[k].quest in rows
        invariant ProcessAll(defs, rows, book, log[i..], u, fails) == expected
      {
        assert log[i..][1..] == log[i + 1..];
        var cq := log[i];
        if !cq.row.active { continue; }
        var a := Advance(defs[cq.quest], cq.row.step, cq.row.progress, u.kind, u.target, u.amount);
        if !a.matched { continue; }
        if a.questDone {
          var done := CompleteQuest(cq.quest);
          if !done { return false; }
          book := book.Rewarded(cq.quest, cq.quest !in fails);
        } else {
          var saved := UpdateProgress(cq.quest, a.step, a.progress);
          if !saved { return false; }
        }
      }
      return true;
    }
  }
}
