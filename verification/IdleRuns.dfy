/** Wallets carried through runs of the scheduler. An idle tick that fails may
    have credited some amounts before it failed; the scheduler then retries the
    same time. */
module IdleRuns {
  import opened Common
  import opened Idle
  import S = Scheduler

  const IDLE_SYSTEM := "idle"

  /** What an entity is doing, if it accrues; constant over a run. */
  type Activities = int -> Option<(Producer, Vars)>

  /** A call of tickEntity; `applied` are the amounts a failing tick credited. */
  datatype IdleCall = IdleCall(call: S.Call, applied: set<string>)

  datatype Config = Config(bounds: Bounds, intervals: S.Intervals, activities: Activities) {
    function RateOf(id: int, resource: string): real {
      if activities(id).None? then 0.0 else Rate(activities(id).value.0, activities(id).value.1, resource)
    }

    /** The unfiltered output of a tick over some elapsed time. */
    function Due(id: int, elapsed: real): Output {
      var w := Window(elapsed, bounds.min, bounds.cap);
      if w.None? || activities(id).None? then map[]
      else Produce(activities(id).value.0, w.value, activities(id).value.1)
    }
  }

  datatype State = State(sched: S.State, wallet: map<int, Output>)

  function Credited(wallet: map<int, Output>, id: int, out: Output, names: set<string>): map<int, Output> {
    var had: Output := if id in wallet then wallet[id] else map[];
    wallet[id := map n | n in had.Keys + out.Keys :: Amount(had, n) + if n in names then Amount(out, n) else 0]
  }

  /** The amounts an attempt credits: all if its tick succeeds. */
  function PaidOut(cfg: Config, lastRun: map<S.Key, int>, c: IdleCall): set<string> {
    if c.call.attempt.getFails then {}
    else if c.call.attempt.tickFails then c.applied
    else DueOf(cfg, lastRun, c).Keys
  }

  function DueOf(cfg: Config, lastRun: map<S.Key, int>, c: IdleCall): Output {
    cfg.Due(c.call.key.entity, Seconds(S.Elapsed(cfg.intervals, lastRun, c.call)))
  }

  function Step(cfg: Config, s: State, c: IdleCall): State {
    State(S.Step(cfg.intervals, s.sched, c.call),
          if c.call.key.system != IDLE_SYSTEM then s.wallet
          else Credited(s.wallet, c.call.key.entity, DueOf(cfg, s.sched.lastRun, c), PaidOut(cfg, s.sched.lastRun, c)))
  }

  function Run(cfg: Config, s: State, calls: seq<IdleCall>): State {
    if |calls| == 0 then s else Step(cfg, Run(cfg, s, calls[..|calls| - 1]), calls[|calls| - 1])
  }

  function Plain(calls: seq<IdleCall>): seq<S.Call> {
    if |calls| == 0 then [] else Plain(calls[..|calls| - 1]) + [calls[|calls| - 1].call]
  }

  /** What failing ticks of an entity credited of a resource. */
  function Overpaid(cfg: Config, s: State, calls: seq<IdleCall>, id: int, n: string): int {
    if |calls| == 0 then 0
    else
      var front, c := calls[..|calls| - 1], calls[|calls| - 1];
      var lastRun := Run(cfg, s, front).sched.lastRun;
      Overpaid(cfg, s, front, id, n) +
      if c.call.key == S.Key(IDLE_SYSTEM, id) && !c.call.attempt.getFails && c.call.attempt.tickFails && n in c.applied
      then Credit(cfg.bounds, cfg.RateOf(id, n), Seconds(S.Elapsed(cfg.intervals, lastRun, c.call))) else 0
  }

  lemma {:induction false} SchedulerRuns(cfg: Config, s: State, calls: seq<IdleCall>)
    ensures Run(cfg, s, calls).sched == S.Run(cfg.intervals, s.sched, Plain(calls)) && |Plain(calls)| == |calls|
    ensures forall i :: 0 <= i < |calls| ==> Plain(calls)[i] == calls[i].call
  {
    if |calls| != 0 {
      var front, c := calls[..|calls| - 1], calls[|calls| - 1];
      SchedulerRuns(cfg, s, front);
      S.RunAppend(cfg.intervals, s.sched, Plain(front), c.call);
    }
  }

  lemma DueIsCredit(cfg: Config, id: int, elapsed: real, n: string)
    ensures Amount(cfg.Due(id, elapsed), n) == Credit(cfg.bounds, cfg.RateOf(id, n), elapsed)
  {
    if elapsed >= cfg.bounds.min {
      var w := Window(elapsed, cfg.bounds.min, cfg.bounds.cap).value;
      CreditAt(cfg.bounds, cfg.RateOf(id, n), elapsed);
      if cfg.activities(id).None? { NoYield(w); } else { CreditIsProduced(cfg.activities(id).value.0, cfg.activities(id).value.1, cfg.bounds, elapsed); }
    }
  }

  lemma CreditedBalance(wallet: map<int, Output>, id: int, out: Output, names: set<string>, x: int, n: string)
    ensures BalanceOf(Credited(wallet, id, out, names), x, n) ==
            BalanceOf(wallet, x, n) + if x == id && n in names then Amount(out, n) else 0
  {}

  lemma {:induction false} EarnedMore(b: Bounds, rate: real, log: seq<S.Ticked>, e: S.Ticked, key: S.Key)
    ensures Earned(b, rate, log + [e], key) == Earned(b, rate, log, key) + if e.key == key then Credit(b, rate, Seconds(e.elapsed)) else 0
  {
    var ts := S.Times(log, key, false);
    assert (log + [e])[..|log|] == log;
    if e.key == key {
      assert (ts + [e.elapsed])[..|ts|] == ts;
      var es := InSeconds(ts);
      assert (es + [Seconds(e.elapsed)])[..|es|] == es;
    } else {
      assert ts + [] == ts;
    }
  }

  lemma StepPays(cfg: Config, s: State, c: IdleCall, id: int, n: string)
    ensures var elapsed := Seconds(S.Elapsed(cfg.intervals, s.sched.lastRun, c.call));
      var credit := Credit(cfg.bounds, cfg.RateOf(id, n), elapsed);
      var mine, a := c.call.key == S.Key(IDLE_SYSTEM, id), c.call.attempt;
      BalanceOf(Step(cfg, s, c).wallet, id, n) == BalanceOf(s.wallet, id, n) +
        if mine && (a.Ticks() || (!a.getFails && a.tickFails && n in c.applied)) then credit else 0
  {
    var out, names := DueOf(cfg, s.sched.lastRun, c), PaidOut(cfg, s.sched.lastRun, c);
    CreditedBalance(s.wallet, c.call.key.entity, out, names, id, n);
    DueIsCredit(cfg, id, Seconds(S.Elapsed(cfg.intervals, s.sched.lastRun, c.call)), n);
  }

  /** Over every run, failing anywhere and with any clock, an entity's balance
      grows by what its successful ticks are worth and, exactly, by what its
      failing ticks had credited when they failed. */
  lemma {:induction false} WalletIsEarned(cfg: Config, s: State, calls: seq<IdleCall>, id: int, n: string)
    requires s.sched.log == []
    ensures var t := Run(cfg, s, calls);
      BalanceOf(t.wallet, id, n) == BalanceOf(s.wallet, id, n)
        + Earned(cfg.bounds, cfg.RateOf(id, n), t.sched.log, S.Key(IDLE_SYSTEM, id)) + Overpaid(cfg, s, calls, id, n)
  {
    if |calls| != 0 {
      var front, c := calls[..|calls| - 1], calls[|calls| - 1];
      var u := Run(cfg, s, front);
      WalletIsEarned(cfg, s, front, id, n);
      StepPays(cfg, u, c, id, n);
      EarnedMore(cfg.bounds, cfg.RateOf(id, n), u.sched.log, S.Entry(cfg.intervals, u.sched.lastRun, c.call), S.Key(IDLE_SYSTEM, id));
    }
  }

  /** Failing ticks credit nothing. */
  ghost predicate AllOrNothing(calls: seq<IdleCall>, id: int) {
    forall i :: 0 <= i < |calls| && calls[i].call.key == S.Key(IDLE_SYSTEM, id) && calls[i].call.attempt.tickFails ==> calls[i].applied == {}
  }

  lemma {:induction false} NothingOverpaid(cfg: Config, s: State, calls: seq<IdleCall>, id: int, n: string)
    requires AllOrNothing(calls, id)
    ensures Overpaid(cfg, s, calls, id, n) == 0
  {
    if |calls| != 0 { NothingOverpaid(cfg, s, calls[..|calls| - 1], id, n); }
  }

  /** With an all-or-nothing apply, retries neither pay twice nor lose time: over
      every run with a nondecreasing clock a wallet receives what a single
      catch-up over the accounted span pays, less at most one unit per
      successful tick after the first. */
  lemma WalletEarnsTheSpan(cfg: Config, start: map<S.Key, int>, wallet: map<int, Output>, calls: seq<IdleCall>, id: int, n: string)
    requires cfg.RateOf(id, n) >= 0.0 && S.Forward(start, Plain(calls)) && (forall x :: cfg.intervals(x) >= 0) && AllOrNothing(calls, id)
    requires var log := Run(cfg, State(S.State(start, []), wallet), calls).sched.log;
      S.Last(log, S.Key(IDLE_SYSTEM, id)).Some? && Open(cfg.bounds, InSeconds(S.Times(log, S.Key(IDLE_SYSTEM, id), false)))
    ensures var t, key := Run(cfg, State(S.State(start, []), wallet), calls), S.Key(IDLE_SYSTEM, id);
      var got := BalanceOf(t.wallet, id, n) - BalanceOf(wallet, id, n);
      && S.First(t.sched.log, key).Some?
      && var whole := Credit(cfg.bounds, cfg.RateOf(id, n), Seconds(Span(cfg.intervals, start, t.sched.log, key)));
         got <= whole <= got + |S.Times(t.sched.log, key, false)| - 1
  {
    var s, key := State(S.State(start, []), wallet), S.Key(IDLE_SYSTEM, id);
    SchedulerRuns(cfg, s, calls);
    WalletIsEarned(cfg, s, calls, id, n);
    NothingOverpaid(cfg, s, calls, id, n);
    EveryRunEarnsTheSpan(cfg.bounds, cfg.RateOf(id, n), cfg.intervals, start, Plain(calls), key);
  }

  /** A tick that fails after crediting gold, and its retry, pay that gold twice. */
  lemma PartialApplyPaysTwice(cfg: Config, id: int)
    requires cfg.bounds == Bounds(0.0, 0.0) && cfg.intervals(IDLE_SYSTEM) == 60000000000
    requires cfg.activities(id) == Some((Training, map["level" := 1.0]))
    ensures var key := S.Key(IDLE_SYSTEM, id);
      var calls := [IdleCall(S.Call(key, S.Attempt(0, false, true, false)), {"gold"}), IdleCall(S.Call(key, S.Attempt(0, false, false, false)), {})];
      var t := Run(cfg, State(S.State(map[], []), map[]), calls);
      && S.Times(t.sched.log, key, false) == [60000000000]
      && BalanceOf(t.wallet, id, "gold") == 2 && BalanceOf(t.wallet, id, "exp") == 2
  {
    var key, s := S.Key(IDLE_SYSTEM, id), State(S.State(map[], []), map[]);
    var c, d := IdleCall(S.Call(key, S.Attempt(0, false, true, false)), {"gold"}), IdleCall(S.Call(key, S.Attempt(0, false, false, false)), {});
    var u := Step(cfg, s, c);
    assert u.sched == s.sched;
    RunOfTwo(cfg, s, c, d);
    MinuteOfTraining(cfg, id);
    StepPays(cfg, s, c, id, "gold");
    StepPays(cfg, s, c, id, "exp");
    StepPays(cfg, u, d, id, "gold");
    StepPays(cfg, u, d, id, "exp");
    assert "exp" !in {"gold"} by { assert "gold"[0] != "exp"[0]; }
    var e := S.Ticked(key, 0, 60000000000, true);
    assert Step(cfg, u, d).sched.log == [e];
    assert [e][..0] == [];
  }

  lemma RunOfTwo(cfg: Config, s: State, c: IdleCall, d: IdleCall)
    ensures Run(cfg, s, [c, d]) == Step(cfg, Step(cfg, s, c), d)
  {
    assert [c, d][..1] == [c] && [c][..0] == [];
    assert Run(cfg, s, [c]) == Step(cfg, s, c);
  }

  lemma MinuteOfTraining(cfg: Config, id: int)
    requires cfg.bounds == Bounds(0.0, 0.0) && cfg.activities(id) == Some((Training, map["level" := 1.0]))
    ensures Credit(cfg.bounds, cfg.RateOf(id, "gold"), Seconds(60000000000)) == 1
    ensures Credit(cfg.bounds, cfg.RateOf(id, "exp"), Seconds(60000000000)) == 2
  {
    assert "gold"[0] != "exp"[0] && "power"[0] != "level"[0];
    assert cfg.RateOf(id, "gold") == 1.0 && cfg.RateOf(id, "exp") == 2.0;
    assert Seconds(60000000000) == 60.0;
  }
}
