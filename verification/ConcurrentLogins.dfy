/** Logins on one key that overlap: each asks the limiter first and records its
    outcome later, and other logins may come in between. With at most `width`
    of them between asking and recording, the number of guesses is bounded
    exactly. */
module ConcurrentLogins {
  import opened Common
  import opened LoginLimiter

  /** A step of some login: it asks, or it records a failure or a success, or
      ends without recording because the store failed. */
  datatype Act = Asks(at: int) | Fails(at: int) | Succeeds(at: int) | GivesUp(at: int)

  /** The key's entry, and how many logins were let through and have not ended. */
  datatype Flight = Flight(entry: Entry, pending: nat)

  predicate Enabled(width: nat, s: Flight, a: Act) {
    if a.Asks? then IsLocked(s.entry, a.at) || s.pending < width else s.pending > 0
  }

  function Apply(cfg: Config, s: Flight, a: Act): Flight {
    match a
    case Asks(at) => if IsLocked(s.entry, at) then s else s.(pending := s.pending + 1)
    case Fails(at) => Flight(Failed(cfg, s.entry, at), Ended(s))
    case Succeeds(_) => Flight(None, Ended(s))
    case GivesUp(_) => s.(pending := Ended(s))
  }

  function Ended(s: Flight): nat { if s.pending == 0 then 0 else s.pending - 1 }

  predicate ValidRun(cfg: Config, width: nat, s: Flight, acts: seq<Act>)
    decreases |acts|
  {
    |acts| == 0 || (Enabled(width, s, acts[0]) && ValidRun(cfg, width, Apply(cfg, s, acts[0]), acts[1..]))
  }

  function Run(cfg: Config, s: Flight, acts: seq<Act>): Flight
    decreases |acts|
  {
    if |acts| == 0 then s else Run(cfg, Apply(cfg, s, acts[0]), acts[1..])
  }

  predicate Ordered(from: int, acts: seq<Act>)
    decreases |acts|
  {
    |acts| == 0 || (from <= acts[0].at && Ordered(acts[0].at, acts[1..]))
  }

  /** Guesses: logins let through whose password check failed. */
  function Guessed(acts: seq<Act>): nat
    decreases |acts|
  {
    if |acts| == 0 then 0 else (if acts[0].Fails? then 1 else 0) + Guessed(acts[1..])
  }

  /** A history `pre` from the empty limiter, and then a run without a success
      inside [a, a + lockout). */
  ghost predicate Legal(cfg: Config, width: nat, pre: seq<Act>, acts: seq<Act>, a: int) {
    var start := Flight(None, 0);
    && Ordered(0, pre) && ValidRun(cfg, width, start, pre) && (forall k :: 0 <= k < |pre| ==> pre[k].at <= a) && 0 <= a
    && Ordered(a, acts) && ValidRun(cfg, width, Run(cfg, start, pre), acts)
    && (forall k :: 0 <= k < |acts| ==> acts[k].at < a + cfg.lockout && !acts[k].Succeeds?)
  }

  function Bound(cfg: Config, width: nat): int { 2 * cfg.Limit() - 2 + 2 * (width - 1) }

  // -------------------------------------------------------- the upper bound

  ghost predicate FlightInv(cfg: Config, width: nat, s: Flight, now: int) { EntryInv(cfg, s.entry, now) && s.pending <= width }

  lemma StepKeepsFlight(cfg: Config, width: nat, s: Flight, from: int, x: Act)
    requires cfg.Valid() && FlightInv(cfg, width, s, from) && from <= x.at && Enabled(width, s, x)
    ensures FlightInv(cfg, width, Apply(cfg, s, x), x.at)
  {}

  lemma {:induction false} RunKeepsFlight(cfg: Config, width: nat, s: Flight, from: int, acts: seq<Act>, to: int)
    requires cfg.Valid() && FlightInv(cfg, width, s, from) && Ordered(from, acts) && ValidRun(cfg, width, s, acts)
    requires from <= to && forall k :: 0 <= k < |acts| ==> acts[k].at <= to
    ensures FlightInv(cfg, width, Run(cfg, s, acts), to)
    decreases |acts|
  {
    if |acts| != 0 {
      StepKeepsFlight(cfg, width, s, from, acts[0]);
      RunKeepsFlight(cfg, width, Apply(cfg, s, acts[0]), acts[0].at, acts[1..], to);
    }
  }

  /** Guesses still possible in [a, a + lockout). A window begun at or after `a`
      cannot elapse in it. An older one can, and then the failure that finds it
      elapsed starts a new count even on a locked key, so logins in flight when
      a lock falls can lift it. */
  function StillPossible(cfg: Config, width: int, s: Flight, a: int): int {
    var m := cfg.Limit();
    if s.entry.None? then m + width - 1
    else
      var x := s.entry.value;
      var locked := x.failures >= m && x.lockedUntil.Some? && x.lockedUntil.value >= a + cfg.lockout;
      if x.windowStart >= a then if x.failures < m then m - x.failures + width - 1 else s.pending
      else if x.failures < m then 2 * m - x.failures + 2 * width - 3
      else if !locked then m + 2 * width - 2
      else if s.pending == 0 then 0
      else m + width + s.pending - 2
  }

  lemma AskUses(cfg: Config, width: nat, s: Flight, from: int, x: Act, a: int)
    requires cfg.Valid() && width >= 1 && FlightInv(cfg, width, s, from) && from <= x.at && a <= x.at < a + cfg.lockout
    requires Enabled(width, s, x) && !x.Fails? && !x.Succeeds?
    ensures StillPossible(cfg, width, Apply(cfg, s, x), a) <= StillPossible(cfg, width, s, a)
  {}

  lemma FailUses(cfg: Config, width: nat, s: Flight, from: int, x: Act, a: int)
    requires cfg.Valid() && width >= 1 && FlightInv(cfg, width, s, from) && from <= x.at && a <= x.at < a + cfg.lockout
    requires Enabled(width, s, x) && x.Fails?
    ensures StillPossible(cfg, width, Apply(cfg, s, x), a) + 1 <= StillPossible(cfg, width, s, a)
  {}

  lemma {:induction false} WindowBound(cfg: Config, width: nat, s: Flight, from: int, acts: seq<Act>, a: int)
    requires cfg.Valid() && width >= 1 && FlightInv(cfg, width, s, from) && Ordered(from, acts) && ValidRun(cfg, width, s, acts)
    requires forall k :: 0 <= k < |acts| ==> a <= acts[k].at < a + cfg.lockout && !acts[k].Succeeds?
    ensures Guessed(acts) <= StillPossible(cfg, width, s, a)
    decreases |acts|
  {
    if |acts| != 0 {
      var t := Apply(cfg, s, acts[0]);
      StepKeepsFlight(cfg, width, s, from, acts[0]);
      if acts[0].Fails? { FailUses(cfg, width, s, from, acts[0], a); } else { AskUses(cfg, width, s, from, acts[0], a); }
      WindowBound(cfg, width, t, acts[0].at, acts[1..], a);
    }
  }

  lemma {:induction false} OrderedAfter(from: int, acts: seq<Act>)
    requires Ordered(from, acts)
    ensures forall k :: 0 <= k < |acts| ==> from <= acts[k].at
    decreases |acts|
  {
    if |acts| != 0 { OrderedAfter(acts[0].at, acts[1..]); }
  }

  /** After any history, an interval of the lockout's length without a success
      lets at most 2 max - 2 guesses through, and two more for every further
      login that may be in flight. */
  lemma ConcurrentGuessBound(cfg: Config, width: nat, pre: seq<Act>, acts: seq<Act>, a: int)
    requires cfg.Valid() && width >= 1 && Legal(cfg, width, pre, acts, a)
    ensures Guessed(acts) <= Bound(cfg, width)
  {
    RunKeepsFlight(cfg, width, Flight(None, 0), 0, pre, a);
    OrderedAfter(a, acts);
    WindowBound(cfg, width, Run(cfg, Flight(None, 0), pre), a, acts, a);
  }

  // ----------------------------------------------------- the bound is exact

  function Repeat(x: Act, k: nat): seq<Act> { if k == 0 then [] else [x] + Repeat(x, k - 1) }

  /** Logins one after the other at one instant. */
  function Rounds(at: int, k: nat): seq<Act> { if k == 0 then [] else [Asks(at), Fails(at)] + Rounds(at, k - 1) }

  /** A run that ends in a given state with a given number of guesses, all of it
      at one instant. */
  ghost predicate Reaches(cfg: Config, width: nat, s: Flight, acts: seq<Act>, t: Flight, guesses: nat, at: int) {
    && ValidRun(cfg, width, s, acts) && Run(cfg, s, acts) == t && Guessed(acts) == guesses
    && forall k :: 0 <= k < |acts| ==> acts[k].at == at && !acts[k].Succeeds?
  }

  lemma {:induction false} RoundsReach(cfg: Config, width: nat, x: Attempt, at: int, k: nat)
    requires width >= 1 && x.lockedUntil.None? && x.failures >= 1 && x.failures + k < cfg.Limit() && 0 <= at - x.windowStart <= cfg.lockout
    ensures Reaches(cfg, width, Flight(Some(x), 0), Rounds(at, k), Flight(Some(x.(failures := x.failures + k)), 0), k, at)
    decreases k
  {
    if k != 0 {
      var y, acts := x.(failures := x.failures + 1), Rounds(at, k);
      RoundsReach(cfg, width, y, at, k - 1);
      assert acts[1..][1..] == Rounds(at, k - 1) && acts[1..][0] == Fails(at);
      assert Apply(cfg, Apply(cfg, Flight(Some(x), 0), acts[0]), acts[1]) == Flight(Some(y), 0);
      assert forall j :: 2 <= j < |acts| ==> acts[j] == Rounds(at, k - 1)[j - 2];
    }
  }

  lemma {:induction false} AsksReach(cfg: Config, width: nat, x: Attempt, at: int, k: nat, p: nat)
    requires x.lockedUntil.None? && p + k <= width
    ensures Reaches(cfg, width, Flight(Some(x), p), Repeat(Asks(at), k), Flight(Some(x), p + k), 0, at)
    decreases k
  {
    if k != 0 {
      AsksReach(cfg, width, x, at, k - 1, p + 1);
      assert Repeat(Asks(at), k)[1..] == Repeat(Asks(at), k - 1);
    }
  }

  /** The entry after `k` failures in one window. */
  function Counted(cfg: Config, x: Attempt, at: int, k: nat): Attempt
    decreases k
  {
    if k == 0 then x
    else
      var n := x.failures + 1;
      Counted(cfg, x.(failures := n, lockedUntil := if n >= cfg.max then Some(at + cfg.lockout) else x.lockedUntil), at, k - 1)
  }

  lemma {:induction false} FailsReach(cfg: Config, width: nat, x: Attempt, at: int, k: nat, p: nat)
    requires k <= p && 0 <= at - x.windowStart <= cfg.lockout
    ensures Counted(cfg, x, at, k).windowStart == x.windowStart
    ensures Reaches(cfg, width, Flight(Some(x), p), Repeat(Fails(at), k), Flight(Some(Counted(cfg, x, at, k)), p - k), k, at)
    decreases k
  {
    if k != 0 {
      var y := Failed(cfg, Some(x), at).value;
      FailsReach(cfg, width, y, at, k - 1, p - 1);
      assert Repeat(Fails(at), k)[1..] == Repeat(Fails(at), k - 1);
    }
  }

  lemma {:induction false} Joins(cfg: Config, width: nat, s: Flight, xs: seq<Act>, ys: seq<Act>)
    requires ValidRun(cfg, width, s, xs) && ValidRun(cfg, width, Run(cfg, s, xs), ys)
    ensures ValidRun(cfg, width, s, xs + ys) && Run(cfg, s, xs + ys) == Run(cfg, Run(cfg, s, xs), ys)
    ensures Guessed(xs + ys) == Guessed(xs) + Guessed(ys)
    decreases |xs|
  {
    if |xs| == 0 {
      assert xs + ys == ys;
    } else {
      Joins(cfg, width, Apply(cfg, s, xs[0]), xs[1..], ys);
      assert (xs + ys)[1..] == xs[1..] + ys;
    }
  }

  lemma Reached(cfg: Config, width: nat, s: Flight, xs: seq<Act>, t: Flight, m: nat, ys: seq<Act>, u: Flight, n: nat, at: int)
    requires Reaches(cfg, width, s, xs, t, m, at) && Reaches(cfg, width, t, ys, u, n, at)
    ensures Reaches(cfg, width, s, xs + ys, u, m + n, at)
  {
    Joins(cfg, width, s, xs, ys);
  }

  /** Guesses up to the lock one by one, then `width` at once of which one is
      held back. */
  function Volley(cfg: Config, width: nat, at: int, held: nat): seq<Act>
    requires held <= width
  {
    Rounds(at, cfg.Limit() - 2) + Repeat(Asks(at), width) + Repeat(Fails(at), width - held)
  }

  /** The entry a volley leaves in a window that began with one failure. */
  function VolleyEnd(cfg: Config, width: nat, start: int, at: int, held: nat): Attempt
    requires held <= width
  {
    Counted(cfg, Attempt(cfg.Limit() - 1, start, None), at, width - held)
  }

  lemma VolleyReaches(cfg: Config, width: nat, start: int, at: int, held: nat)
    requires width >= 1 && held <= width && 0 <= at - start <= cfg.lockout
    ensures VolleyEnd(cfg, width, start, at, held).windowStart == start
    ensures Reaches(cfg, width, Flight(Some(Attempt(1, start, None)), 0), Volley(cfg, width, at, held),
                    Flight(Some(VolleyEnd(cfg, width, start, at, held)), held), cfg.Limit() - 2 + width - held, at)
  {
    var m := cfg.Limit() - 2;
    var x, y, z := Attempt(1, start, None), Attempt(1 + m, start, None), VolleyEnd(cfg, width, start, at, held);
    RoundsReach(cfg, width, x, at, m);
    AsksReach(cfg, width, y, at, width, 0);
    FailsReach(cfg, width, y, at, width - held, width);
    Reached(cfg, width, Flight(Some(x), 0), Rounds(at, m), Flight(Some(y), 0), m, Repeat(Asks(at), width), Flight(Some(y), width), 0, at);
    Reached(cfg, width, Flight(Some(x), 0), Rounds(at, m) + Repeat(Asks(at), width), Flight(Some(y), width), m,
            Repeat(Fails(at), width - held), Flight(Some(z), held), width - held, at);
  }

  /** One guess at 0; a volley when that window is about to elapse, of which one
      login is held back; it fails just after and lifts the lock; another volley. */
  function TightRun(cfg: Config, width: nat): seq<Act>
    requires width >= 1
  {
    Volley(cfg, width, cfg.lockout, 1) + ([Fails(cfg.lockout + 1)] + Volley(cfg, width, cfg.lockout + 1, 0))
  }

  lemma LateFails(cfg: Config, width: nat, y: Attempt, at: int)
    requires at - y.windowStart > cfg.lockout
    ensures Reaches(cfg, width, Flight(Some(y), 1), [Fails(at)], Flight(Some(Attempt(1, at, None)), 0), 1, at)
  {
    var s := Flight(Some(y), 1);
    assert [Fails(at)][1..] == [];
    assert Apply(cfg, s, Fails(at)) == Flight(Some(Attempt(1, at, None)), 0);
  }

  lemma HeldReaches(cfg: Config, width: nat, y: Attempt)
    requires cfg.lockout > 1 && width >= 1 && y.windowStart == 0
    ensures var at := cfg.lockout + 1;
      Reaches(cfg, width, Flight(Some(y), 1), [Fails(at)] + Volley(cfg, width, at, 0),
              Flight(Some(VolleyEnd(cfg, width, at, at, 0)), 0), cfg.Limit() - 1 + width, at)
  {
    var at := cfg.lockout + 1;
    LateFails(cfg, width, y, at);
    VolleyReaches(cfg, width, at, at, 0);
    Reached(cfg, width, Flight(Some(y), 1), [Fails(at)], Flight(Some(Attempt(1, at, None)), 0), 1,
            Volley(cfg, width, at, 0), Flight(Some(VolleyEnd(cfg, width, at, at, 0)), 0), cfg.Limit() - 2 + width, at);
  }

  lemma {:induction false} ConstantOrdered(from: int, xs: seq<Act>, at: int, ys: seq<Act>)
    requires from <= at && (forall k :: 0 <= k < |xs| ==> xs[k].at == at) && Ordered(at, ys)
    ensures Ordered(from, xs + ys)
    decreases |xs|
  {
    if |xs| == 0 {
      assert xs + ys == ys;
    } else {
      ConstantOrdered(at, xs[1..], at, ys);
      assert (xs + ys)[1..] == xs[1..] + ys;
    }
  }

  lemma OneGuess(cfg: Config, width: nat)
    requires width >= 1
    ensures var pre := [Asks(0), Fails(0)];
      && Ordered(0, pre) && ValidRun(cfg, width, Flight(None, 0), pre)
      && Run(cfg, Flight(None, 0), pre) == Flight(Some(Attempt(1, 0, None)), 0)
  {
    var pre := [Asks(0), Fails(0)];
    assert pre[1..] == [Fails(0)] && pre[1..][1..] == [];
  }

  lemma TightTimes(cfg: Config, xs: seq<Act>, ys: seq<Act>)
    requires cfg.lockout > 1
    requires forall k :: 0 <= k < |xs| ==> xs[k].at == cfg.lockout && !xs[k].Succeeds?
    requires forall k :: 0 <= k < |ys| ==> ys[k].at == cfg.lockout + 1 && !ys[k].Succeeds?
    ensures Ordered(cfg.lockout, xs + ys)
    ensures forall k :: 0 <= k < |xs + ys| ==> (xs + ys)[k].at < 2 * cfg.lockout && !(xs + ys)[k].Succeeds?
  {
    ConstantOrdered(cfg.lockout, ys, cfg.lockout + 1, []);
    assert ys + [] == ys;
    ConstantOrdered(cfg.lockout, xs, cfg.lockout, ys);
  }

  /** For every width the bound is reached. */
  lemma ConcurrentBoundIsTight(cfg: Config, width: nat)
    requires cfg.lockout > 1 && width >= 1
    ensures Legal(cfg, width, [Asks(0), Fails(0)], TightRun(cfg, width), cfg.lockout)
    ensures Guessed(TightRun(cfg, width)) == Bound(cfg, width)
  {
    var at := cfg.lockout;
    var first, rest := Volley(cfg, width, at, 1), [Fails(at + 1)] + Volley(cfg, width, at + 1, 0);
    OneGuess(cfg, width);
    VolleyReaches(cfg, width, 0, at, 1);
    HeldReaches(cfg, width, VolleyEnd(cfg, width, 0, at, 1));
    Joins(cfg, width, Flight(Some(Attempt(1, 0, None)), 0), first, rest);
    TightTimes(cfg, first, rest);
  }

  /** The sequential bound holds for every run exactly if logins on a key do not
      overlap. */
  lemma SequentialBoundIff(cfg: Config, width: nat)
    requires cfg.lockout > 1 && width >= 1
    ensures (forall pre, acts, a :: Legal(cfg, width, pre, acts, a) ==> Guessed(acts) <= 2 * cfg.Limit() - 2) <==> width == 1
  {
    ConcurrentBoundIsTight(cfg, width);
    forall pre, acts, a | width == 1 && Legal(cfg, width, pre, acts, a) ensures Guessed(acts) <= 2 * cfg.Limit() - 2 {
      ConcurrentGuessBound(cfg, width, pre, acts, a);
    }
  }
}
