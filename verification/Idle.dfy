/** Idle accrual: elapsed time becomes whole units of output, rounded toward
    zero once per tick. float64 is modelled by `real`. */
module Idle {
  import opened Common
  import S = Scheduler

  // ------------------------------------------------------- rounding and rates

  /** Go's int64(x). */
  function Trunc(x: real): int { if x >= 0.0 then x.Floor else -((-x).Floor) }

  function Nat2(n: nat): nat { if n == 0 then 1 else 2 * Nat2(n - 1) }

  type Vars = map<string, real>

  function Get(s: Vars, name: string): real { if name in s then s[name] else 0.0 }

  type Output = map<string, int>

  function Amount(o: Output, name: string): int { if name in o then o[name] else 0 }

  function Add(o: Output, name: string, n: int): Output {
    if n == 0 then o else o[name := Amount(o, name) + n]
  }

  /** The activities that are registered: one per building, and the two of idlekit. */
  datatype Producer =
    | Building(id: string, resource: string, ratePerLevel: real)
    | Training
    | Gathering

  predicate Unlocked(p: Producer, s: Vars) { p.Building? ==> Get(s, p.id + "_level") > 0.0 }

  /** Whole units made in some minutes at a rate per minute. */
  function Yield(rate: real, min: real): int { Trunc(rate * min) }

  function Produce(p: Producer, min: real, s: Vars): Output {
    match p
    case Building(id, resource, rate) => Add(map[], resource, Yield(Get(s, id + "_level") * rate, min))
    case Training =>
      var power, level := Get(s, "power"), Get(s, "level");
      Add(Add(map[], "gold", Yield(power * 0.1 + level, min)), "exp", Yield(level * 2.0, min))
    case Gathering => Add(map[], "ore", Yield(1.0 + Get(s, "level") * 0.1, min))
  }

  /** Units of a resource per minute. */
  function Rate(p: Producer, s: Vars, resource: string): real {
    match p
    case Building(id, made, rate) => if resource == made then Get(s, id + "_level") * rate else 0.0
    case Training =>
      if resource == "gold" then Get(s, "power") * 0.1 + Get(s, "level")
      else if resource == "exp" then Get(s, "level") * 2.0
      else 0.0
    case Gathering => if resource == "ore" then 1.0 + Get(s, "level") * 0.1 else 0.0
  }

  lemma NoYield(min: real)
    ensures Yield(0.0, min) == 0
  {
    assert 0.0 * min == 0.0;
  }

  lemma OneAmount(made: string, rate: real, min: real, resource: string)
    ensures Amount(Add(map[], made, Yield(rate, min)), resource) == Yield(if resource == made then rate else 0.0, min)
  {
    NoYield(min);
  }

  lemma TwoAmounts(gold: real, exp: real, min: real, resource: string)
    ensures Amount(Add(Add(map[], "gold", Yield(gold, min)), "exp", Yield(exp, min)), resource) ==
      Yield(if resource == "gold" then gold else if resource == "exp" then exp else 0.0, min)
  {
    NoYield(min);
    assert "gold"[0] != "exp"[0];
  }

  /** Every producer yields its rate times the minutes, rounded toward zero. */
  lemma ProduceIsRate(p: Producer, min: real, s: Vars, resource: string)
    ensures Amount(Produce(p, min, s), resource) == Yield(Rate(p, s, resource), min)
  {
    match p
    case Building(id, made, perLevel) => OneAmount(made, Get(s, id + "_level") * perLevel, min, resource);
    case Training => TwoAmounts(Get(s, "power") * 0.1 + Get(s, "level"), Get(s, "level") * 2.0, min, resource);
    case Gathering => OneAmount("ore", 1.0 + Get(s, "level") * 0.1, min, resource);
  }

  // ------------------------------------------------------------ accrual windows

  function Window(elapsed: real, min: real, cap: real): Option<real> {
    if elapsed < min then None
    else Some((if cap > 0.0 && elapsed > cap then cap else elapsed) / 60.0)
  }

  /** Bounds of the tick system. */
  datatype Bounds = Bounds(min: real, cap: real)

  /** What one successful tick credits of a resource. */
  function Credit(b: Bounds, rate: real, elapsed: real): int {
    var w := Window(elapsed, b.min, b.cap);
    if w.None? then 0 else Yield(rate, w.value)
  }

  function Credits(b: Bounds, rate: real, es: seq<real>): int {
    if |es| == 0 then 0 else Credits(b, rate, es[..|es| - 1]) + Credit(b, rate, es[|es| - 1])
  }

  /** The part of an elapsed time that is paid for. */
  function Paid(b: Bounds, e: real): real {
    if e < b.min then 0.0 else if b.cap > 0.0 && e > b.cap then b.cap else e
  }

  function PaidSum(b: Bounds, es: seq<real>): real {
    if |es| == 0 then 0.0 else PaidSum(b, es[..|es| - 1]) + Paid(b, es[|es| - 1])
  }

  function Total(es: seq<real>): real { if |es| == 0 then 0.0 else Total(es[..|es| - 1]) + es[|es| - 1] }

  ghost predicate NonNegative(es: seq<real>) { forall i :: 0 <= i < |es| ==> es[i] >= 0.0 }

  /** What a window pays: nothing below the minimum, the cap's worth beyond it, and
      otherwise the elapsed minutes' worth. */
  lemma CreditMeans(b: Bounds, rate: real, elapsed: real)
    ensures elapsed < b.min ==> Credit(b, rate, elapsed) == 0
    ensures elapsed >= b.min && (b.cap <= 0.0 || elapsed <= b.cap) ==> Credit(b, rate, elapsed) == Trunc(rate * (elapsed / 60.0))
    ensures elapsed >= b.min && b.cap > 0.0 && elapsed >= b.cap ==> Credit(b, rate, elapsed) == Trunc(rate * (b.cap / 60.0))
  {
  }

  /** The shipped activities at work: a sawmill of level 3 for ten minutes, training
      with power 100 at level 5 and gathering at level 10 for ten minutes each. */
  lemma ShippedYields()
    ensures Amount(Produce(Building("sawmill", "wood", 2.0), 10.0, map["sawmill_level" := 3.0]), "wood") == 60
    ensures Amount(Produce(Training, 10.0, map["power" := 100.0, "level" := 5.0]), "gold") == 150
    ensures Amount(Produce(Training, 10.0, map["power" := 100.0, "level" := 5.0]), "exp") == 100
    ensures Amount(Produce(Gathering, 10.0, map["level" := 10.0]), "ore") == 20
    ensures Trunc(2.9) == 2 && Trunc(-2.9) == -2
  {
    SawmillYields();
    TrainingYields();
  }

  lemma SawmillYields()
    ensures Amount(Produce(Building("sawmill", "wood", 2.0), 10.0, map["sawmill_level" := 3.0]), "wood") == 60
  {
    assert "sawmill" + "_level" == "sawmill_level";
    assert Get(map["sawmill_level" := 3.0], "sawmill_level") == 3.0;
    assert Yield(3.0 * 2.0, 10.0) == 60;
  }

  lemma TrainingYields()
    ensures var o := Produce(Training, 10.0, map["power" := 100.0, "level" := 5.0]);
      Amount(o, "gold") == 150 && Amount(o, "exp") == 100
  {
    var s := map["power" := 100.0, "level" := 5.0];
    assert "power"[0] != "level"[0] && "gold"[0] != "exp"[0];
    assert Get(s, "power") == 100.0 && Get(s, "level") == 5.0;
    assert Yield(100.0 * 0.1 + 5.0, 10.0) == 150 && Yield(5.0 * 2.0, 10.0) == 100;
  }

  lemma TruncAdds(x: real, y: real)
    requires x >= 0.0 && y >= 0.0
    ensures Trunc(x) + Trunc(y) <= Trunc(x + y) <= Trunc(x) + Trunc(y) + 1
  {}

  lemma TruncMirrors(x: real)
    ensures Trunc(-x) == -Trunc(x)
  {}

  /** The unrounded worth of some seconds. */
  function Worth(rate: real, seconds: real): real { rate * (seconds / 60.0) }

  lemma CreditIsPaid(b: Bounds, rate: real, e: real)
    ensures Credit(b, rate, e) == Trunc(Worth(rate, Paid(b, e)))
  {
    assert rate * (0.0 / 60.0) == 0.0;
  }

  lemma WorthAdds(rate: real, x: real, y: real)
    ensures Worth(rate, x + y) == Worth(rate, x) + Worth(rate, y)
  {
    assert (x + y) / 60.0 == x / 60.0 + y / 60.0;
  }

  lemma WorthNonNegative(rate: real, x: real)
    requires rate >= 0.0 && x >= 0.0
    ensures Worth(rate, x) >= 0.0
  {
    assert x / 60.0 >= 0.0;
  }

  lemma WorthMirrors(rate: real, x: real)
    ensures Worth(-rate, x) == -Worth(rate, x)
    ensures Trunc(Worth(-rate, x)) == -Trunc(Worth(rate, x))
  {
    TruncMirrors(Worth(rate, x));
  }

  lemma {:induction false} PaidNonNegative(b: Bounds, es: seq<real>)
    requires NonNegative(es)
    ensures PaidSum(b, es) >= 0.0
  {
    if |es| != 0 { PaidNonNegative(b, es[..|es| - 1]); }
  }

  lemma SplitOnce(rate: real, x: real, y: real)
    requires rate >= 0.0 && x >= 0.0 && y >= 0.0
    ensures var split := Trunc(Worth(rate, x)) + Trunc(Worth(rate, y));
      split <= Trunc(Worth(rate, x + y)) <= split + 1
  {
    WorthAdds(rate, x, y);
    WorthNonNegative(rate, x);
    WorthNonNegative(rate, y);
    TruncAdds(Worth(rate, x), Worth(rate, y));
  }

  /** For any windows, forfeited and capped ones included, what n ticks credit is
      the paid time's worth rounded, less at most n-1. */
  lemma {:induction false} SplitCredits(b: Bounds, rate: real, es: seq<real>)
    requires rate >= 0.0 && NonNegative(es) && es != []
    ensures var whole := Trunc(Worth(rate, PaidSum(b, es)));
      Credits(b, rate, es) <= whole <= Credits(b, rate, es) + |es| - 1
  {
    var front, e := es[..|es| - 1], es[|es| - 1];
    CreditIsPaid(b, rate, e);
    if front == [] {
      assert PaidSum(b, es) == Paid(b, e);
    } else {
      SplitCredits(b, rate, front);
      PaidNonNegative(b, front);
      PaidSplit(b, es);
      SplitOnce(rate, PaidSum(b, front), Paid(b, e));
    }
  }

  lemma PaidSplit(b: Bounds, es: seq<real>)
    requires NonNegative(es) && es != []
    ensures PaidSum(b, es) == PaidSum(b, es[..|es| - 1]) + Paid(b, es[|es| - 1]) && Paid(b, es[|es| - 1]) >= 0.0
  {}

  lemma {:induction false} CreditsMirror(b: Bounds, rate: real, es: seq<real>)
    ensures Credits(b, -rate, es) == -Credits(b, rate, es)
  {
    if |es| != 0 {
      var e := es[|es| - 1];
      CreditsMirror(b, rate, es[..|es| - 1]);
      CreditIsPaid(b, rate, e);
      CreditIsPaid(b, -rate, e);
      WorthMirrors(rate, Paid(b, e));
    }
  }

  ghost predicate Open(b: Bounds, es: seq<real>) {
    && (forall i :: 0 <= i < |es| ==> es[i] >= b.min)
    && (b.cap > 0.0 ==> Total(es) <= b.cap)
  }

  lemma {:induction false} OpenIsPaid(b: Bounds, es: seq<real>)
    requires NonNegative(es) && Open(b, es)
    ensures PaidSum(b, es) == Total(es) && Total(es) >= 0.0
    ensures es != [] ==> Total(es) >= b.min
  {
    if |es| != 0 {
      var front := es[..|es| - 1];
      TotalNonNegative(front);
      OpenIsPaid(b, front);
    }
  }

  lemma {:induction false} TotalNonNegative(es: seq<real>)
    requires NonNegative(es)
    ensures Total(es) >= 0.0
  {
    if |es| != 0 { TotalNonNegative(es[..|es| - 1]); }
  }

  /** With every window at or above the minimum and the whole within the cap,
      n ticks credit at most what one catch-up over the whole would, and at most
      n-1 less; a negative rate mirrors this. */
  lemma SplitFallsShort(b: Bounds, rate: real, es: seq<real>)
    requires NonNegative(es) && Open(b, es) && es != []
    ensures var whole, split := Credit(b, rate, Total(es)), Credits(b, rate, es);
      && (rate >= 0.0 ==> split <= whole <= split + |es| - 1)
      && (rate < 0.0 ==> split - (|es| - 1) <= whole <= split)
  {
    OpenIsPaid(b, es);
    CreditIsPaid(b, rate, Total(es));
    if rate >= 0.0 {
      SplitCredits(b, rate, es);
    } else {
      SplitCredits(b, -rate, es);
      CreditsMirror(b, rate, es);
      WorthMirrors(rate, Total(es));
    }
  }

  function Halved(k: nat): (h: real)
    ensures 0.0 < h <= 1.0
  {
    if k == 0 then 1.0 else Halved(k - 1) / 2.0
  }

  /** Windows of 1/2, 3/4, 7/8, ... seconds. */
  function NearlyWhole(k: nat): seq<real> { if k == 0 then [] else NearlyWhole(k - 1) + [1.0 - Halved(k)] }

  lemma {:induction false} NearlyWholeTotal(k: nat)
    ensures var es := NearlyWhole(k);
      |es| == k && NonNegative(es) && Total(es) == (k - 1) as real + Halved(k)
  {
    if k != 0 {
      NearlyWholeTotal(k - 1);
      assert NearlyWhole(k)[..k - 1] == NearlyWhole(k - 1);
    }
  }

  lemma {:induction false} NearlyWholeCredits(k: nat)
    ensures Credits(Bounds(0.0, 0.0), 60.0, NearlyWhole(k)) == 0
  {
    if k != 0 {
      NearlyWholeCredits(k - 1);
      assert NearlyWhole(k)[..|NearlyWhole(k)| - 1] == NearlyWhole(k - 1);
      SecondIsUnit(1.0 - Halved(k));
    }
  }

  lemma SecondIsUnit(e: real)
    ensures Yield(60.0, e / 60.0) == Trunc(e)
  {}

  /** The shortfall of n-1 is attained, for every n. */
  lemma ShortfallIsTight(n: nat)
    requires n >= 1
    ensures var b, es := Bounds(0.0, 0.0), NearlyWhole(n);
      && |es| == n && NonNegative(es) && Open(b, es)
      && Credit(b, 60.0, Total(es)) == Credits(b, 60.0, es) + n - 1
  {
    NearlyWholeTotal(n);
    NearlyWholeCredits(n);
    SecondIsUnit(Total(NearlyWhole(n)));
    assert Halved(n) == Halved(n - 1) / 2.0;
  }

  /** Ticks below the minimum credit nothing, however many there are, although
      each is a success that moves the last run forward. */
  lemma {:induction false} TinyTicksForfeit(b: Bounds, rate: real, es: seq<real>)
    requires forall i :: 0 <= i < |es| ==> es[i] < b.min
    ensures Credits(b, rate, es) == 0
  {
    if |es| != 0 { TinyTicksForfeit(b, rate, es[..|es| - 1]); }
  }

  // ---------------------------------------------- accrual under the scheduler

  function Seconds(ns: int): real { ns as real / 1000000000.0 }

  function InSeconds(ts: seq<int>): seq<real> {
    if |ts| == 0 then [] else InSeconds(ts[..|ts| - 1]) + [Seconds(ts[|ts| - 1])]
  }

  lemma SecondsAdd(x: int, y: int)
    ensures Seconds(x + y) == Seconds(x) + Seconds(y)
  {
    assert (x + y) as real == x as real + y as real;
  }

  lemma {:induction false} InSecondsAt(ts: seq<int>)
    ensures |InSeconds(ts)| == |ts| && forall i :: 0 <= i < |ts| ==> InSeconds(ts)[i] == Seconds(ts[i])
    ensures Total(InSeconds(ts)) == Seconds(S.Sum(ts))
  {
    if |ts| != 0 {
      InSecondsAt(ts[..|ts| - 1]);
      SecondsAdd(S.Sum(ts[..|ts| - 1]), ts[|ts| - 1]);
      var es := InSeconds(ts);
      assert es[..|es| - 1] == InSeconds(ts[..|ts| - 1]) && es[|es| - 1] == Seconds(ts[|ts| - 1]);
    } else {
      assert Seconds(0) == 0.0;
    }
  }

  lemma {:induction false} TimesNonNegative(log: seq<S.Ticked>, key: S.Key)
    requires forall i :: 0 <= i < |log| ==> log[i].elapsed >= 0
    ensures forall i :: 0 <= i < |S.Times(log, key, false)| ==> S.Times(log, key, false)[i] >= 0
  {
    if |log| != 0 { TimesNonNegative(log[..|log| - 1], key); }
  }

  /** What a key's ticks credited over a run of the scheduler. */
  function Earned(b: Bounds, rate: real, log: seq<S.Ticked>, key: S.Key): int {
    Credits(b, rate, InSeconds(S.Times(log, key, false)))
  }

  /** The time a key's ticks account for: from its origin to its last recorded
      tick, and again the time of ticks whose record was lost. */
  function Span(iv: S.Intervals, start: map<S.Key, int>, log: seq<S.Ticked>, key: S.Key): int
    requires S.First(log, key).Some? && S.Last(log, key).Some?
  {
    S.Last(log, key).value - S.Origin(iv, start, key, S.First(log, key).value) + S.LostRecords(log, key)
  }

  /** Over every run of TickAll and Catchup with a nondecreasing clock and
      attempts failing anywhere, the successful ticks of an entity of constant
      rate, never below the minimum and within the cap together, are worth what
      a single catch-up over their span is, less at most one unit per tick
      after the first. */
  lemma EveryRunEarnsTheSpan(b: Bounds, rate: real, iv: S.Intervals, start: map<S.Key, int>, calls: seq<S.Call>, key: S.Key)
    requires rate >= 0.0 && S.Forward(start, calls) && (forall n :: iv(n) >= 0)
    requires var log := S.Run(iv, S.State(start, []), calls).log;
      S.Last(log, key).Some? && Open(b, InSeconds(S.Times(log, key, false)))
    ensures var log := S.Run(iv, S.State(start, []), calls).log;
      && S.First(log, key).Some?
      && var whole := Credit(b, rate, Seconds(Span(iv, start, log, key)));
         Earned(b, rate, log, key) <= whole <= Earned(b, rate, log, key) + |S.Times(log, key, false)| - 1
  {
    var log := S.Run(iv, S.State(start, []), calls).log;
    S.EveryRunTelescopes(iv, start, calls, key);
    S.NoNegativeTime(iv, start, calls);
    LastHasTime(log, key);
    TimesNonNegative(log, key);
    EarnedFromTimes(b, rate, S.Times(log, key, false));
  }

  lemma EarnedFromTimes(b: Bounds, rate: real, ts: seq<int>)
    requires rate >= 0.0 && ts != [] && (forall i :: 0 <= i < |ts| ==> ts[i] >= 0) && Open(b, InSeconds(ts))
    ensures var split := Credits(b, rate, InSeconds(ts));
      split <= Credit(b, rate, Seconds(S.Sum(ts))) <= split + |ts| - 1
  {
    InSecondsAt(ts);
    var es := InSeconds(ts);
    forall i | 0 <= i < |es| ensures es[i] >= 0.0 { assert es[i] == Seconds(ts[i]); }
    SplitFallsShort(b, rate, es);
  }

  lemma {:induction false} LastHasTime(log: seq<S.Ticked>, key: S.Key)
    requires S.Last(log, key).Some?
    ensures S.Times(log, key, false) != []
  {
    var e := log[|log| - 1];
    if !(e.key == key && e.recorded) { LastHasTime(log[..|log| - 1], key); }
  }

  // ---------------------------------------------------- the code's own form

  datatype Accrued = Nothing | Failed | Ran(out: Output)

  /** The idle engine over one wallet per entity. Reading the assignment or
      the state may fail; the output filter is any function. */
  class Engine {
    const registry: map<string, Producer>
    const stateFor: int -> Option<Vars>
    const filter: Output -> Output
    var assign: map<int, string>
    var wallet: map<int, Output>

    constructor (registry: map<string, Producer>, stateFor: int -> Option<Vars>, filter: Output -> Output)
      ensures this.registry == registry && this.stateFor == stateFor && this.filter == filter
      ensures assign == map[] && wallet == map[]
    {
      this.registry, this.stateFor, this.filter, assign, wallet := registry, stateFor, filter, map[], map[];
    }

    function Balance(id: int, resource: string): int
      reads this`wallet
    {
      BalanceOf(wallet, id, resource)
    }

    method Assign(id: int, activity: string, setFails: bool) returns (ok: bool)
      modifies this`assign
      ensures ok <==> activity in registry && !setFails
      ensures assign == if ok then old(assign)[id := activity] else old(assign)
    {
      if activity !in registry { return false; }
      if setFails { return false; }
      assign := assign[id := activity];
      return true;
    }

    predicate Assigned(id: int)
      reads this`assign
    {
      id in assign && assign[id] != "" && assign[id] in registry
    }

    /** An entity accrues exactly if it runs a registered, unlocked activity. */
    predicate Accrues(id: int)
      reads this`assign
    {
      Assigned(id) && stateFor(id).Some? && Unlocked(registry[assign[id]], stateFor(id).value)
    }

    /** What an entity that accrues is due for some minutes. */
    function Due(id: int, min: real): Output
      requires Accrues(id)
      reads this`assign
    {
      filter(Produce(registry[assign[id]], min, stateFor(id).value))
    }

    /** Fails exactly if the assignment or the state cannot be read, or if
        applying the output stops at amount number `failAt`; then the amounts in
        `paid` have been credited all the same. */
    method Accrue(id: int, min: real, readFails: bool, failAt: nat) returns (r: Accrued, paid: set<string>)
      modifies this`wallet
      ensures r.Ran? <==> !readFails && Accrues(id) && |Due(id, min).Keys| <= failAt
      ensures r.Failed? <==> readFails || (Assigned(id) && stateFor(id).None?) || (Accrues(id) && failAt < |Due(id, min).Keys|)
      ensures r.Ran? ==> r.out == Due(id, min) && paid == r.out.Keys
      ensures r.Failed? && !readFails && Accrues(id) ==> paid <= Due(id, min).Keys && |paid| == failAt
      ensures readFails || !Accrues(id) ==> paid == {}
      ensures !readFails && Assigned(id) && stateFor(id).Some? ==>
        var p, s := registry[assign[id]], stateFor(id).value;
        (r.Nothing? <==> p.Building? && Get(s, p.id + "_level") <= 0.0)
      ensures forall x, n :: Balance(x, n) == old(Balance(x, n)) + if x == id && n in paid && Accrues(id) then Amount(Due(id, min), n) else 0
    {
      paid := {};
      if readFails { return Failed, {}; }
      if id !in assign || assign[id] == "" || assign[id] !in registry { return Nothing, {}; }
      var p, st := registry[assign[id]], stateFor(id);
      if st.None? { return Failed, {}; }
      if !Unlocked(p, st.value) { return Nothing, {}; }
      var out := filter(Produce(p, min, st.value));
      var ok;
      ok, paid := Apply(id, out, failAt);
      r := if ok then Ran(out) else Failed;
    }

    /** Credits the amounts one by one, in any order, until number `failAt` fails. */
    method Apply(id: int, out: Output, failAt: nat) returns (ok: bool, paid: set<string>)
      modifies this`wallet
      ensures ok <==> |out.Keys| <= failAt
      ensures if ok then paid == out.Keys else paid <= out.Keys && |paid| == failAt
      ensures forall x, n :: Balance(x, n) == old(Balance(x, n)) + if x == id && n in paid then Amount(out, n) else 0
    {
      paid := {};
      while paid != out.Keys
        invariant paid <= out.Keys && |paid| <= failAt
        invariant forall x, n :: Balance(x, n) == old(Balance(x, n)) + if x == id && n in paid then Amount(out, n) else 0
        decreases out.Keys - paid
      {
        Smaller(paid, out.Keys);
        if |paid| == failAt { return false, paid; }
        var rest := out.Keys - paid;
        assert rest != {};
        var n :| n in rest;
        wallet := wallet[id := Add(if id in wallet then wallet[id] else map[], n, out[n])];
        paid := paid + {n};
      }
      return true, paid;
    }

    /** One tick of the idle system. A window below the minimum succeeds and
        credits nothing; an unfiltered tick that succeeds credits each resource
        by `Credit` at the activity's rate. */
    method Tick(id: int, b: Bounds, elapsed: real, readFails: bool, failAt: nat) returns (ok: bool, paid: set<string>)
      modifies this`wallet
      ensures elapsed < b.min ==> ok && paid == {}
      ensures elapsed >= b.min ==>
        var min := Window(elapsed, b.min, b.cap).value;
        && (ok <==> !readFails && !(Assigned(id) && stateFor(id).None?) && (Accrues(id) ==> |Due(id, min).Keys| <= failAt))
        && (paid != {} ==> Accrues(id) && paid <= Due(id, min).Keys)
        && (ok && Accrues(id) ==> paid == Due(id, min).Keys)
        && forall x, n :: Balance(x, n) == old(Balance(x, n)) + if x == id && n in paid && Accrues(id) then Amount(Due(id, min), n) else 0
      ensures paid == {} ==> forall x, n :: Balance(x, n) == old(Balance(x, n))
      ensures ok && Accrues(id) && (forall o :: filter(o) == o) ==>
        forall n :: Balance(id, n) == old(Balance(id, n)) + Credit(b, Rate(registry[assign[id]], stateFor(id).value, n), elapsed)
    {
      var w := Window(elapsed, b.min, b.cap);
      if w.None? { return true, {}; }
      var r;
      r, paid := Accrue(id, w.value, readFails, failAt);
      ok := !r.Failed?;
      if Accrues(id) { CreditIsProduced(registry[assign[id]], stateFor(id).value, b, elapsed); }
    }
  }

  function BalanceOf(wallet: map<int, Output>, id: int, resource: string): int {
    if id in wallet then Amount(wallet[id], resource) else 0
  }

  lemma Smaller(a: set<string>, b: set<string>)
    requires a < b
    ensures |a| < |b| && b - a != {}
  {
    assert b == a + (b - a);
  }

  lemma CreditIsProduced(p: Producer, st: Vars, b: Bounds, elapsed: real)
    requires elapsed >= b.min
    ensures forall n :: Amount(Produce(p, Window(elapsed, b.min, b.cap).value, st), n) == Credit(b, Rate(p, st, n), elapsed)
  {
    var w := Window(elapsed, b.min, b.cap).value;
    forall n ensures Amount(Produce(p, w, st), n) == Credit(b, Rate(p, st, n), elapsed) {
      ProduceIsRate(p, w, st, n);
      CreditAt(b, Rate(p, st, n), elapsed);
    }
  }

  lemma CreditAt(b: Bounds, rate: real, elapsed: real)
    requires elapsed >= b.min
    ensures Credit(b, rate, elapsed) == Yield(rate, Window(elapsed, b.min, b.cap).value)
  {
  }

  // ------------------------------------------------------------ building costs

  /** The doubling loop; a level below 1 costs the base. */
  method UpgradeCost(baseCost: int, level: int) returns (cost: int)
    ensures cost == baseCost * Nat2(if level < 0 then 0 else level)
  {
    cost := baseCost;
    var i := 0;
    while i < level
      invariant 0 <= i && (i <= level || i == 0)
      invariant cost == baseCost * Nat2(i)
    {
      cost := cost * 2;
      i := i + 1;
    }
  }

  function CostTo(baseCost: int, level: nat): int {
    if level == 0 then 0 else CostTo(baseCost, level - 1) + baseCost * Nat2(level - 1)
  }

  /** All levels up to n together cost one base less than the next upgrade. */
  lemma {:induction false} CostsTelescope(baseCost: int, level: nat)
    ensures CostTo(baseCost, level) == baseCost * Nat2(level) - baseCost
  {
    if level != 0 { CostsTelescope(baseCost, level - 1); }
  }
}
