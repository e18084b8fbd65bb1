/** The per-username login lockout and the part of Login that drives it.
    Times and durations are integers (nanoseconds); a zero `lockedUntil` is None. */
module LoginLimiter {
  import opened Common

  datatype Attempt = Attempt(failures: int, windowStart: int, lockedUntil: Option<int>)

  type Entry = Option<Attempt>

  type Table = map<string, Attempt>

  datatype Config = Config(max: int, lockout: int) {
    predicate Valid() { lockout > 0 }
    /** The failure that locks is never the first of its window. */
    function Limit(): int { if max < 2 then 2 else max }
  }

  // ----------------------------------------------- one key's transitions

  predicate IsLocked(e: Entry, now: int) {
    e.Some? && e.value.lockedUntil.Some? && now < e.value.lockedUntil.value
  }

  function Failed(cfg: Config, e: Entry, now: int): Entry {
    if e.None? || now - e.value.windowStart > cfg.lockout then Some(Attempt(1, now, None))
    else
      var n := e.value.failures + 1;
      Some(e.value.(failures := n, lockedUntil := if n >= cfg.max then Some(now + cfg.lockout) else e.value.lockedUntil))
  }

  /** What `sweep` evicts. */
  predicate Expired(cfg: Config, e: Attempt, now: int) {
    (e.lockedUntil.Some? ==> now > e.lockedUntil.value) && now - e.windowStart > cfg.lockout
  }

  // --------------------------------- every interleaving of limiter calls

  function At(t: Table, key: string): Entry { if key in t then Some(t[key]) else None }

  datatype Event =
    | Ask(key: string, at: int)
    | Fail(key: string, at: int)
    | Succeed(key: string, at: int)
    | Sweep(at: int)

  predicate Clocked(from: int, es: seq<Event>)
    decreases |es|
  {
    |es| == 0 || (from <= es[0].at && Clocked(es[0].at, es[1..]))
  }

  function Swept(cfg: Config, t: Table, now: int): Table {
    map k | k in t && !Expired(cfg, t[k], now) :: t[k]
  }

  function After(cfg: Config, evict: bool, t: Table, e: Event): Table {
    match e
    case Ask(_, _) => t
    case Fail(key, at) => t[key := Failed(cfg, At(t, key), at).value]
    case Succeed(key, _) => t - {key}
    case Sweep(at) => if evict then Swept(cfg, t, at) else t
  }

  function Answers(cfg: Config, evict: bool, t: Table, es: seq<Event>): seq<bool>
    decreases |es|
  {
    if |es| == 0 then []
    else
      var rest := Answers(cfg, evict, After(cfg, evict, t, es[0]), es[1..]);
      if es[0].Ask? then [IsLocked(At(t, es[0].key), es[0].at)] + rest else rest
  }

  /** The swept table lacks only expired entries. */
  ghost predicate Related(cfg: Config, swept: Table, kept: Table, now: int) {
    && (forall k :: k in swept ==> k in kept && kept[k] == swept[k])
    && (forall k :: k in kept && k !in swept ==> Expired(cfg, kept[k], now))
  }

  lemma StepKeepsRelated(cfg: Config, swept: Table, kept: Table, from: int, e: Event)
    requires Related(cfg, swept, kept, from) && from <= e.at
    ensures e.Ask? ==> IsLocked(At(swept, e.key), e.at) == IsLocked(At(kept, e.key), e.at)
    ensures Related(cfg, After(cfg, true, swept, e), After(cfg, false, kept, e), e.at)
  {
  }

  /** Sweeping at any moments changes no answer, for every interleaving of
      limiter calls by any number of concurrent logins on any keys. */
  lemma {:induction false} SweepInvisible(cfg: Config, swept: Table, kept: Table, from: int, es: seq<Event>)
    requires Related(cfg, swept, kept, from) && Clocked(from, es)
    ensures Answers(cfg, true, swept, es) == Answers(cfg, false, kept, es)
    decreases |es|
  {
    if |es| != 0 {
      StepKeepsRelated(cfg, swept, kept, from, es[0]);
      SweepInvisible(cfg, After(cfg, true, swept, es[0]), After(cfg, false, kept, es[0]), es[0].at, es[1..]);
    }
  }

  // ------------------------------------------ sequential logins on a key

  datatype Check = UnknownUser | WrongPassword | RightPassword | StoreError

  datatype Verdict = Blocked | Invalid | Accepted | Errored

  /** One Login: the lock is asked at `at`, the outcome recorded at `done`. */
  datatype Login = Login(at: int, done: int, check: Check)

  function LoginStep(cfg: Config, e: Entry, l: Login): (Entry, Verdict) {
    if IsLocked(e, l.at) then (e, Blocked)
    else
      match l.check
      case StoreError => (e, Errored)
      case RightPassword => (None, Accepted)
      case _ => (Failed(cfg, e, l.done), Invalid)
  }

  predicate Sequential(from: int, ls: seq<Login>)
    decreases |ls|
  {
    |ls| == 0 || (from <= ls[0].at <= ls[0].done && Sequential(ls[0].done, ls[1..]))
  }

  function Run(cfg: Config, e: Entry, ls: seq<Login>): Entry
    decreases |ls|
  {
    if |ls| == 0 then e else Run(cfg, LoginStep(cfg, e, ls[0]).0, ls[1..])
  }

  /** Guesses that reached the password check and failed. */
  function Guesses(cfg: Config, e: Entry, ls: seq<Login>): nat
    decreases |ls|
  {
    if |ls| == 0 then 0
    else (if LoginStep(cfg, e, ls[0]).1.Invalid? then 1 else 0) + Guesses(cfg, LoginStep(cfg, e, ls[0]).0, ls[1..])
  }

  ghost predicate EntryInv(cfg: Config, e: Entry, now: int) {
    e.Some? ==>
      var a := e.value;
      && a.failures >= 1 && a.windowStart <= now
      && (a.failures < cfg.Limit() ==> a.lockedUntil.None?)
      && (a.failures >= cfg.Limit() ==> a.lockedUntil.Some? && a.lockedUntil.value >= a.windowStart + cfg.lockout)
  }

  lemma StepKeepsEntry(cfg: Config, e: Entry, from: int, l: Login)
    requires cfg.Valid() && EntryInv(cfg, e, from) && from <= l.at <= l.done
    ensures EntryInv(cfg, LoginStep(cfg, e, l).0, l.done)
  {
  }

  lemma {:induction false} RunKeepsEntry(cfg: Config, e: Entry, from: int, ls: seq<Login>, to: int)
    requires cfg.Valid() && EntryInv(cfg, e, from) && Sequential(from, ls)
    requires from <= to && forall k :: 0 <= k < |ls| ==> ls[k].done <= to
    ensures EntryInv(cfg, Run(cfg, e, ls), to)
    decreases |ls|
  {
    if |ls| != 0 {
      StepKeepsEntry(cfg, e, from, ls[0]);
      RunKeepsEntry(cfg, LoginStep(cfg, e, ls[0]).0, ls[0].done, ls[1..], to);
    }
  }

  /** Guesses left in [a, a + lockout) from an entry. */
  function Left(cfg: Config, e: Entry, a: int): int {
    var m := cfg.Limit();
    if e.None? then m
    else
      var x := e.value;
      if x.failures >= m then
        if x.lockedUntil.Some? && x.lockedUntil.value >= a + cfg.lockout then 0 else m
      else if x.windowStart >= a then m - x.failures
      else 2 * m - 1 - x.failures
  }

  lemma StepUsesLeft(cfg: Config, e: Entry, from: int, l: Login, a: int)
    requires cfg.Valid() && EntryInv(cfg, e, from) && from <= l.at <= l.done && a <= l.done < a + cfg.lockout
    requires !l.check.RightPassword?
    ensures var (e', v) := LoginStep(cfg, e, l);
      Left(cfg, e', a) + (if v.Invalid? then 1 else 0) <= Left(cfg, e, a)
  {
  }

  lemma {:induction false} WindowBound(cfg: Config, e: Entry, from: int, ls: seq<Login>, a: int)
    requires cfg.Valid() && EntryInv(cfg, e, from) && Sequential(from, ls)
    requires forall k :: 0 <= k < |ls| ==> a <= ls[k].done < a + cfg.lockout && !ls[k].check.RightPassword?
    ensures Guesses(cfg, e, ls) <= Left(cfg, e, a)
    decreases |ls|
  {
    if |ls| != 0 {
      StepKeepsEntry(cfg, e, from, ls[0]);
      StepUsesLeft(cfg, e, from, ls[0], a);
      WindowBound(cfg, LoginStep(cfg, e, ls[0]).0, ls[0].done, ls[1..], a);
    }
  }

  /** After any history, any half-open interval of the lockout's length without
      a success lets at most 2 max - 2 failing guesses through (for max below
      2 the lock falls on the second failure, so the bound is that of 2). */
  lemma GuessBound(cfg: Config, pre: seq<Login>, ls: seq<Login>, a: int, from: int)
    requires cfg.Valid() && Sequential(0, pre) && 0 <= from && Sequential(from, ls)
    requires forall k :: 0 <= k < |pre| ==> pre[k].done <= from
    requires forall k :: 0 <= k < |ls| ==> a <= ls[k].done < a + cfg.lockout && !ls[k].check.RightPassword?
    ensures Guesses(cfg, Run(cfg, None, pre), ls) <= 2 * cfg.Limit() - 2
  {
    RunKeepsEntry(cfg, None, 0, pre, from);
    WindowBound(cfg, Run(cfg, None, pre), from, ls, a);
  }

  // --------------------------------------------------- the bound is tight

  function Repeat(l: Login, k: nat): seq<Login> { if k == 0 then [] else [l] + Repeat(l, k - 1) }

  /** `k` failing logins at one instant inside an open window that end short of
      the lock. */
  lemma {:induction false} RepeatCounts(cfg: Config, x: Attempt, at: int, k: nat, tail: seq<Login>)
    requires x.lockedUntil.None? && x.failures >= 1 && x.failures + k < cfg.Limit() && 0 <= at - x.windowStart <= cfg.lockout
    ensures Guesses(cfg, Some(x), Repeat(Login(at, at, WrongPassword), k) + tail) ==
            k + Guesses(cfg, Some(x.(failures := x.failures + k)), tail)
    decreases k
  {
    var l := Login(at, at, WrongPassword);
    if k == 0 {
      assert Repeat(l, 0) + tail == tail;
    } else {
      assert (Repeat(l, k) + tail)[1..] == Repeat(l, k - 1) + tail;
      RepeatCounts(cfg, x.(failures := x.failures + 1), at, k - 1, tail);
    }
  }

  lemma {:induction false} RepeatTimes(l: Login, k: nat, tail: seq<Login>, from: int)
    requires from <= l.at == l.done && Sequential(l.done, tail)
    ensures Sequential(from, Repeat(l, k) + tail)
    ensures forall j :: 0 <= j < |Repeat(l, k)| ==> Repeat(l, k)[j] == l
  {
    if k == 0 {
      assert Repeat(l, 0) + tail == tail;
    } else {
      RepeatTimes(l, k - 1, tail, l.done);
      assert (Repeat(l, k) + tail)[1..] == Repeat(l, k - 1) + tail;
    }
  }

  function SecondWindow(cfg: Config): seq<Login> {
    var last := Login(cfg.lockout + 1, cfg.lockout + 1, WrongPassword);
    [last] + (Repeat(last, cfg.Limit() - 2) + [last])
  }

  function TightRun(cfg: Config): seq<Login> {
    Repeat(Login(cfg.lockout, cfg.lockout, WrongPassword), cfg.Limit() - 2) + SecondWindow(cfg)
  }

  lemma TightTimes(cfg: Config)
    requires cfg.lockout > 1
    ensures Sequential(cfg.lockout, TightRun(cfg))
    ensures forall k :: 0 <= k < |TightRun(cfg)| ==>
      cfg.lockout <= TightRun(cfg)[k].done < 2 * cfg.lockout && TightRun(cfg)[k].check.WrongPassword?
  {
    var last := Login(cfg.lockout + 1, cfg.lockout + 1, WrongPassword);
    RepeatTimes(last, cfg.Limit() - 2, [last], cfg.lockout + 1);
    assert SecondWindow(cfg)[1..] == Repeat(last, cfg.Limit() - 2) + [last];
    RepeatTimes(Login(cfg.lockout, cfg.lockout, WrongPassword), cfg.Limit() - 2, SecondWindow(cfg), cfg.lockout);
  }

  lemma TightCount(cfg: Config)
    requires cfg.lockout > 1
    ensures Guesses(cfg, Some(Attempt(1, 0, None)), TightRun(cfg)) == 2 * cfg.Limit() - 2
  {
    var m := cfg.Limit();
    var last := Login(cfg.lockout + 1, cfg.lockout + 1, WrongPassword);
    RepeatCounts(cfg, Attempt(1, 0, None), cfg.lockout, m - 2, SecondWindow(cfg));
    assert SecondWindow(cfg)[1..] == Repeat(last, m - 2) + [last];
    RepeatCounts(cfg, Attempt(1, cfg.lockout + 1, None), cfg.lockout + 1, m - 2, [last]);
  }

  /** Guessing once, then max-2 times at the very end of that window, then max
      times right after it, uses the bound up. */
  lemma BoundIsTight(cfg: Config)
    requires cfg.lockout > 1
    ensures exists pre: seq<Login>, ls: seq<Login> ::
      && Sequential(0, pre) && Sequential(cfg.lockout, ls)
      && (forall k :: 0 <= k < |pre| ==> pre[k].done <= cfg.lockout)
      && (forall k :: 0 <= k < |ls| ==> cfg.lockout <= ls[k].done < 2 * cfg.lockout && ls[k].check.WrongPassword?)
      && Guesses(cfg, Run(cfg, None, pre), ls) == 2 * cfg.Limit() - 2
  {
    var pre := [Login(0, 0, WrongPassword)];
    assert pre[1..] == [];
    TightTimes(cfg);
    TightCount(cfg);
    assert Run(cfg, None, pre) == Some(Attempt(1, 0, None));
    assert Sequential(0, pre);
  }

  // -------------------------------------------------- the lock's duration

  /** From the failure that locked on, every sequential login before the end of
      the period is blocked, right password or not, and the lock stays. */
  lemma {:induction false} LockLasts(cfg: Config, e: Entry, from: int, ls: seq<Login>, until: int)
    requires e.Some? && e.value.lockedUntil == Some(until) && Sequential(from, ls)
    requires forall k :: 0 <= k < |ls| ==> ls[k].at < until
    ensures Run(cfg, e, ls) == e && Guesses(cfg, e, ls) == 0
    ensures forall k :: 0 <= k < |ls| ==> LoginStep(cfg, Run(cfg, e, ls[..k]), ls[k]).1 == Blocked
    decreases |ls|
  {
    if |ls| != 0 {
      LockLasts(cfg, e, ls[0].done, ls[1..], until);
      forall k | 0 <= k < |ls| ensures LoginStep(cfg, Run(cfg, e, ls[..k]), ls[k]).1 == Blocked {
        if k > 0 {
          assert ls[..k][1..] == ls[1..][..k - 1];
          assert ls[1..][k - 1] == ls[k];
        }
      }
    }
  }

  /** The limit-th failure of a window locks for the whole period. */
  lemma LimitLocks(cfg: Config, e: Attempt, now: int)
    requires cfg.Valid() && EntryInv(cfg, Some(e), now)
    ensures IsLocked(Failed(cfg, Some(e), now), now) <==>
            now - e.windowStart <= cfg.lockout && e.failures + 1 >= cfg.Limit()
    ensures IsLocked(Failed(cfg, Some(e), now), now) ==>
            Failed(cfg, Some(e), now).value.lockedUntil == Some(now + cfg.lockout)
  {
  }

  // ------------------------------------------------- what a success does

  function Verdicts(cfg: Config, e: Entry, ls: seq<Login>): seq<Verdict>
    decreases |ls|
  {
    if |ls| == 0 then [] else [LoginStep(cfg, e, ls[0]).1] + Verdicts(cfg, LoginStep(cfg, e, ls[0]).0, ls[1..])
  }

  lemma {:induction false} RunLast(cfg: Config, e: Entry, ls: seq<Login>, k: nat)
    requires k < |ls|
    ensures Run(cfg, e, ls[..k + 1]) == LoginStep(cfg, Run(cfg, e, ls[..k]), ls[k]).0
    decreases k
  {
    if k == 0 {
      assert ls[..1][1..] == [];
    } else {
      assert ls[..k + 1][1..] == ls[1..][..k] && ls[..k][1..] == ls[1..][..k - 1];
      RunLast(cfg, LoginStep(cfg, e, ls[0]).0, ls[1..], k - 1);
    }
  }

  /** After an accepted login the limiter answers as if nothing had happened. */
  lemma SuccessStartsOver(cfg: Config, e: Entry, ls: seq<Login>, k: nat)
    requires k < |ls| && LoginStep(cfg, Run(cfg, e, ls[..k]), ls[k]).1 == Accepted
    ensures Run(cfg, e, ls[..k + 1]) == None
    ensures Verdicts(cfg, Run(cfg, e, ls[..k + 1]), ls[k + 1..]) == Verdicts(cfg, None, ls[k + 1..])
  {
    RunLast(cfg, e, ls, k);
  }

  function Recorded(e: Entry): int { if e.None? then 0 else e.value.failures }

  lemma {:induction false} BlockedNeedsFailures(cfg: Config, e: Entry, from: int, ls: seq<Login>, k: nat)
    requires cfg.Valid() && EntryInv(cfg, e, from) && Sequential(from, ls) && k < |ls|
    requires LoginStep(cfg, Run(cfg, e, ls[..k]), ls[k]).1 == Blocked
    ensures Guesses(cfg, e, ls[..k]) + Recorded(e) >= cfg.Limit()
    decreases k
  {
    if k != 0 {
      StepKeepsEntry(cfg, e, from, ls[0]);
      assert ls[..k][1..] == ls[1..][..k - 1] && ls[1..][k - 1] == ls[k];
      BlockedNeedsFailures(cfg, LoginStep(cfg, e, ls[0]).0, ls[0].done, ls[1..], k - 1);
    }
  }

  /** After an accepted login at least max further failing guesses are needed
      before a login is blocked. */
  lemma BlockedAfterSuccess(cfg: Config, e: Entry, l: Login, ls: seq<Login>, k: nat)
    requires cfg.Valid() && LoginStep(cfg, e, l).1 == Accepted && Sequential(l.done, ls) && k < |ls|
    requires LoginStep(cfg, Run(cfg, LoginStep(cfg, e, l).0, ls[..k]), ls[k]).1 == Blocked
    ensures Guesses(cfg, LoginStep(cfg, e, l).0, ls[..k]) >= cfg.Limit()
  {
    SuccessStartsOver(cfg, e, [l], 0);
    assert [l][..1] == [l] && [l][1..] == [];
    BlockedNeedsFailures(cfg, None, l.done, ls, k);
  }

  /** Two failures, a success and a failure leave one failure, not a lock. */
  lemma SuccessExample()
    ensures var w, r := (at: int) => Login(at, at, WrongPassword), (at: int) => Login(at, at, RightPassword);
      Verdicts(Config(3, 100), None, [w(0), w(1), r(2), w(3), r(4)]) == [Invalid, Invalid, Accepted, Invalid, Accepted]
  {
    var cfg := Config(3, 100);
    var l0, l1, l2 := Login(0, 0, WrongPassword), Login(1, 1, WrongPassword), Login(2, 2, RightPassword);
    var l3, l4 := Login(3, 3, WrongPassword), Login(4, 4, RightPassword);
    assert [l4][1..] == [] && [l3, l4][1..] == [l4] && [l2, l3, l4][1..] == [l3, l4];
    assert [l1, l2, l3, l4][1..] == [l2, l3, l4] && [l0, l1, l2, l3, l4][1..] == [l1, l2, l3, l4];
    assert Verdicts(cfg, Some(Attempt(1, 3, None)), [l4]) == [Accepted];
    assert Verdicts(cfg, None, [l3, l4]) == [Invalid, Accepted];
    assert Verdicts(cfg, Some(Attempt(2, 0, None)), [l2, l3, l4]) == [Accepted, Invalid, Accepted];
    assert Verdicts(cfg, Some(Attempt(1, 0, None)), [l1, l2, l3, l4]) == [Invalid, Accepted, Invalid, Accepted];
  }

  /** Concurrent logins: a failure recorded while the key is locked keeps it
      locked exactly if the window that led to the lock has not elapsed; after
      that the entry is replaced by a fresh window without a lock. */
  lemma LateFailureUnlocksIff(cfg: Config, e: Attempt, now: int)
    requires cfg.Valid() && EntryInv(cfg, Some(e), now) && IsLocked(Some(e), now)
    ensures !IsLocked(Failed(cfg, Some(e), now), now) <==> now - e.windowStart > cfg.lockout
  {
  }

  /** A history that drops a lock: locked at 90 until 190, a login that asked
      before that fails at 150, and the key is open at 151. */
  lemma LateFailureExample(key: string)
    ensures var es := [Fail(key, 0), Fail(key, 90), Ask(key, 120), Fail(key, 150), Ask(key, 151)];
      Clocked(0, es) && Answers(Config(2, 100), true, map[], es) == [true, false]
  {
    var cfg := Config(2, 100);
    var e2, e3, e4 := [Ask(key, 120), Fail(key, 150), Ask(key, 151)], [Fail(key, 150), Ask(key, 151)], [Ask(key, 151)];
    var locked: Table := map[key := Attempt(2, 0, Some(190))];
    var open: Table := map[key := Attempt(1, 150, None)];
    var once: Table := map[key := Attempt(1, 0, None)];
    assert e2[1..] == e3 && e3[1..] == e4 && e4[1..] == [];
    assert Answers(cfg, true, open, e4) == [false];
    assert After(cfg, true, locked, Fail(key, 150)) == open;
    assert Answers(cfg, true, locked, e2) == [true] + Answers(cfg, true, locked, e3) == [true, false];
    assert After(cfg, true, once, Fail(key, 90)) == locked && After(cfg, true, map[], Fail(key, 0)) == once;
    assert ([Fail(key, 90)] + e2)[1..] == e2 && ([Fail(key, 0), Fail(key, 90)] + e2)[1..] == [Fail(key, 90)] + e2;
    assert Answers(cfg, true, once, [Fail(key, 90)] + e2) == [true, false];
    assert Clocked(150, e4) && Clocked(120, e3) && Clocked(90, e2) && Clocked(0, [Fail(key, 90)] + e2);
  }

  // ---------------------------------------------------- the code's own form

  class Limiter {
    const cfg: Config
    var entries: Table

    constructor (cfg: Config)
      ensures this.cfg == cfg && entries == map[]
    {
      this.cfg := cfg;
      entries := map[];
    }

    method Locked(key: string, now: int) returns (locked: bool)
      ensures locked <==> key in entries && entries[key].lockedUntil.Some? && now < entries[key].lockedUntil.value
    {
      if key !in entries { return false; }
      var e := entries[key];
      return e.lockedUntil.Some? && now < e.lockedUntil.value;
    }

    method RecordFailure(key: string, now: int)
      modifies this`entries
      ensures entries == After(cfg, true, old(entries), Fail(key, now))
      ensures key in entries && (forall k :: k != key ==> At(entries, k) == At(old(entries), k))
      ensures key !in old(entries) || now - old(entries)[key].windowStart > cfg.lockout ==> entries[key] == Attempt(1, now, None)
      ensures key in old(entries) && now - old(entries)[key].windowStart <= cfg.lockout ==>
        var was, e := old(entries)[key], entries[key];
        && e.failures == was.failures + 1 && e.windowStart == was.windowStart
        && e.lockedUntil == if e.failures >= cfg.max then Some(now + cfg.lockout) else was.lockedUntil
    {
      if key !in entries || now - entries[key].windowStart > cfg.lockout {
        entries := entries[key := Attempt(1, now, None)];
        return;
      }
      var e := entries[key];
      e := e.(failures := e.failures + 1);
      if e.failures >= cfg.max { e := e.(lockedUntil := Some(now + cfg.lockout)); }
      entries := entries[key := e];
    }

    method RecordSuccess(key: string)
      modifies this`entries
      ensures entries == old(entries) - {key}
    {
      entries := entries - {key};
    }

    method SweepOnce(now: int)
      modifies this`entries
      ensures entries == Swept(cfg, old(entries), now)
      ensures forall k :: k in entries ==> k in old(entries) && entries[k] == old(entries)[k]
      ensures forall k :: k in old(entries) ==>
        var e := old(entries)[k];
        (k !in entries <==> (e.lockedUntil.None? || now > e.lockedUntil.value) && now - e.windowStart > cfg.lockout)
    {
      var todo := entries.Keys;
      while todo != {}
        invariant todo <= old(entries).Keys
        invariant forall k :: k in entries ==> k in old(entries) && entries[k] == old(entries)[k]
        invariant forall k :: k in old(entries) && k in todo ==> k in entries
        invariant forall k :: k in old(entries) && k !in todo ==> (k in entries <==> !Expired(cfg, old(entries)[k], now))
        decreases todo
      {
        var k :| k in todo;
        if Expired(cfg, entries[k], now) { entries := entries - {k}; }
        todo := todo - {k};
      }
    }

    /** Login's protocol: the entry of this key steps, every other key's stays. A
        locked key is blocked whatever the password; a success forgets the key; an
        unknown user counts like a wrong password; a store error changes nothing. */
    method Login(key: string, l: Login) returns (v: Verdict)
      modifies this`entries
      ensures (At(entries, key), v) == LoginStep(cfg, At(old(entries), key), l)
      ensures forall k :: k != key ==> At(entries, k) == At(old(entries), k)
      ensures v.Blocked? <==> key in old(entries) && old(entries)[key].lockedUntil.Some? && l.at < old(entries)[key].lockedUntil.value
      ensures v.Accepted? <==> !v.Blocked? && l.check.RightPassword?
      ensures v.Invalid? <==> !v.Blocked? && (l.check.WrongPassword? || l.check.UnknownUser?)
      ensures v.Errored? <==> !v.Blocked? && l.check.StoreError?
      ensures v.Blocked? || v.Errored? ==> entries == old(entries)
      ensures v.Accepted? ==> key !in entries
      ensures v.Invalid? ==> key in entries && (entries[key] == Attempt(1, l.done, None) || (key in old(entries) && entries[key].failures == old(entries)[key].failures + 1))
    {
      var locked := Locked(key, l.at);
      if locked { return Blocked; }
      match l.check {
        case StoreError => return Errored;
        case RightPassword => RecordSuccess(key); return Accepted;
        case UnknownUser => RecordFailure(key, l.done); return Invalid;
        case WrongPassword => RecordFailure(key, l.done); return Invalid;
      }
    }
  }
}
