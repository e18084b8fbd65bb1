/** The per-IP token bucket of the HTTP layer and its idle eviction.
    Times are seconds as reals; the clock is a parameter that never goes back. */
module RateLimiter {
  import opened Common

  const IDLE: real := 180.0

  datatype Visitor = Visitor(tokens: real, last: real)

  type Table = map<string, Visitor>

  /** `burst` is configured as an integer; a limiter exists only for rps > 0. */
  datatype Config = Config(rps: real, burst: int) {
    predicate Valid() { rps > 0.0 }
  }

  /** Tokens earned from `a` to `b`. */
  function Earned(cfg: Config, a: real, b: real): real { (b - a) * cfg.rps }

  function Min(a: real, b: real): real { if a > b then b else a }

  function Refilled(cfg: Config, v: Visitor, now: real): real {
    Min(v.tokens + Earned(cfg, v.last, now), cfg.burst as real)
  }

  /** `allow`, as a function of the table and the clock. */
  function Allow(cfg: Config, t: Table, ip: string, now: real): (Table, bool) {
    if ip !in t then (t[ip := Visitor(cfg.burst as real - 1.0, now)], true)
    else
      var r := Refilled(cfg, t[ip], now);
      if r < 1.0 then (t[ip := Visitor(r, now)], false) else (t[ip := Visitor(r - 1.0, now)], true)
  }

  /** One pass of `sweep`. */
  function Swept(t: Table, now: real): Table {
    map ip | ip in t && !(t[ip].last < now - IDLE) :: t[ip]
  }

  datatype Event = Request(ip: string, at: real) | Sweep(at: real)

  predicate Clocked(from: real, es: seq<Event>)
    decreases |es|
  {
    |es| == 0 || (from <= es[0].at && Clocked(es[0].at, es[1..]))
  }

  function After(cfg: Config, evict: bool, t: Table, e: Event): Table {
    match e
    case Request(ip, at) => Allow(cfg, t, ip, at).0
    case Sweep(at) => if evict then Swept(t, at) else t
  }

  /** The answers to the requests of a run, with or without eviction. */
  function Answers(cfg: Config, evict: bool, t: Table, es: seq<Event>): seq<bool>
    decreases |es|
  {
    if |es| == 0 then []
    else
      var rest := Answers(cfg, evict, After(cfg, evict, t, es[0]), es[1..]);
      match es[0]
      case Request(ip, at) => [Allow(cfg, t, ip, at).1] + rest
      case Sweep(_) => rest
  }

  /** How many requests of `ip` a run lets through. */
  function Allowed(cfg: Config, evict: bool, t: Table, es: seq<Event>, ip: string): nat
    decreases |es|
  {
    if |es| == 0 then 0
    else
      var rest := Allowed(cfg, evict, After(cfg, evict, t, es[0]), es[1..], ip);
      if LetsThrough(cfg, t, es[0], ip) then 1 + rest else rest
  }

  function Run(cfg: Config, evict: bool, t: Table, es: seq<Event>): Table
    decreases |es|
  {
    if |es| == 0 then t else Run(cfg, evict, After(cfg, evict, t, es[0]), es[1..])
  }

  // ----------------------------------------------------- tokens in range

  ghost predicate InRange(cfg: Config, t: Table, now: real) {
    forall ip :: ip in t ==> 0.0 <= t[ip].tokens <= cfg.burst as real && t[ip].last <= now
  }

  lemma EarnedGrows(cfg: Config, a: real, b: real)
    requires cfg.Valid() && a <= b
    ensures Earned(cfg, a, b) >= 0.0
  {
  }

  lemma EarnedAdds(cfg: Config, a: real, x: real, b: real)
    ensures Earned(cfg, a, b) == Earned(cfg, a, x) + Earned(cfg, x, b)
  {
  }

  lemma AllowKeepsRange(cfg: Config, t: Table, ip: string, from: real, now: real)
    requires cfg.Valid() && cfg.burst >= 1 && InRange(cfg, t, from) && from <= now
    ensures InRange(cfg, Allow(cfg, t, ip, now).0, now)
  {
    if ip in t { EarnedGrows(cfg, t[ip].last, now); }
  }

  lemma EventKeepsRange(cfg: Config, evict: bool, t: Table, from: real, e: Event)
    requires cfg.Valid() && cfg.burst >= 1 && InRange(cfg, t, from) && from <= e.at
    ensures InRange(cfg, After(cfg, evict, t, e), e.at)
  {
    if e.Request? { AllowKeepsRange(cfg, t, e.ip, from, e.at); }
  }

  // ------------------------------------------- eviction is unobservable

  predicate Full(cfg: Config, v: Visitor, now: real) {
    v.tokens + Earned(cfg, v.last, now) >= cfg.burst as real
  }

  /** The evicting table lacks only buckets that are full again. */
  ghost predicate Related(cfg: Config, swept: Table, kept: Table, now: real) {
    && (forall ip :: ip in swept ==> ip in kept && kept[ip] == swept[ip])
    && (forall ip :: ip in kept && ip !in swept ==> Full(cfg, kept[ip], now))
  }

  lemma FullStaysFull(cfg: Config, v: Visitor, from: real, now: real)
    requires cfg.Valid() && Full(cfg, v, from) && from <= now
    ensures Full(cfg, v, now)
  {
    EarnedAdds(cfg, v.last, from, now);
    EarnedGrows(cfg, from, now);
  }

  lemma RelatedLater(cfg: Config, swept: Table, kept: Table, from: real, now: real)
    requires cfg.Valid() && Related(cfg, swept, kept, from) && from <= now
    ensures Related(cfg, swept, kept, now)
  {
    forall ip | ip in kept && ip !in swept ensures Full(cfg, kept[ip], now) { FullStaysFull(cfg, kept[ip], from, now); }
  }

  lemma RequestKeepsRelated(cfg: Config, swept: Table, kept: Table, ip: string, now: real)
    requires cfg.Valid() && cfg.burst >= 1 && Related(cfg, swept, kept, now)
    ensures Allow(cfg, swept, ip, now).1 == Allow(cfg, kept, ip, now).1
    ensures Related(cfg, Allow(cfg, swept, ip, now).0, Allow(cfg, kept, ip, now).0, now)
  {
  }

  lemma SweepKeepsRelated(cfg: Config, swept: Table, kept: Table, now: real)
    requires cfg.Valid() && 1 <= cfg.burst && cfg.burst as real <= IDLE * cfg.rps
    requires Related(cfg, swept, kept, now) && InRange(cfg, kept, now)
    ensures Related(cfg, Swept(swept, now), kept, now)
  {
    forall ip | ip in kept && ip !in Swept(swept, now) ensures Full(cfg, kept[ip], now) {
      if ip in swept {
        EarnedAdds(cfg, kept[ip].last, now - IDLE, now);
        EarnedGrows(cfg, kept[ip].last, now - IDLE);
        assert Earned(cfg, now - IDLE, now) == IDLE * cfg.rps;
      }
    }
  }

  /** A simulation in both directions: from related tables the evicting and the
      never-evicting limiter answer every run alike, and stay related. */
  lemma {:induction false} SweepInvisible(cfg: Config, swept: Table, kept: Table, from: real, es: seq<Event>, ip: string)
    requires cfg.Valid() && 1 <= cfg.burst && cfg.burst as real <= IDLE * cfg.rps
    requires Related(cfg, swept, kept, from) && InRange(cfg, kept, from) && Clocked(from, es)
    ensures Answers(cfg, true, swept, es) == Answers(cfg, false, kept, es)
    ensures Allowed(cfg, true, swept, es, ip) == Allowed(cfg, false, kept, es, ip)
    decreases |es|
  {
    if |es| != 0 {
      var e := es[0];
      RelatedLater(cfg, swept, kept, from, e.at);
      EventKeepsRange(cfg, false, kept, from, e);
      if e.Request? { RequestKeepsRelated(cfg, swept, kept, e.ip, e.at); }
      else { SweepKeepsRelated(cfg, swept, kept, e.at); }
      SweepInvisible(cfg, After(cfg, true, swept, e), After(cfg, false, kept, e), e.at, es[1..], ip);
    }
  }

  // --------------------------------------------------- when it is visible

  /** `k` requests from one address at one instant. */
  function Volley(ip: string, at: real, k: nat): seq<Event> {
    if k == 0 then [] else [Request(ip, at)] + Volley(ip, at, k - 1)
  }

  lemma {:induction false} VolleyClocked(ip: string, at: real, k: nat, from: real, tail: seq<Event>)
    requires from <= at && Clocked(at, tail)
    ensures Clocked(from, Volley(ip, at, k) + tail)
  {
    if k == 0 {
      assert Volley(ip, at, k) + tail == tail;
      ClockedEarlier(from, at, tail);
    } else {
      VolleyClocked(ip, at, k - 1, at, tail);
      assert (Volley(ip, at, k) + tail)[1..] == Volley(ip, at, k - 1) + tail;
    }
  }

  lemma ClockedEarlier(from: real, at: real, es: seq<Event>)
    requires from <= at && Clocked(at, es)
    ensures Clocked(from, es)
  {
  }

  function LastAnswer(cfg: Config, evict: bool, t: Table, es: seq<Event>): bool {
    var a := Answers(cfg, evict, t, es);
    |a| > 0 && a[|a| - 1]
  }

  lemma {:induction false} AnswersAppend(cfg: Config, evict: bool, t: Table, es: seq<Event>, fs: seq<Event>)
    ensures Answers(cfg, evict, t, es + fs) == Answers(cfg, evict, t, es) + Answers(cfg, evict, Run(cfg, evict, t, es), fs)
    decreases |es|
  {
    if |es| == 0 { assert es + fs == fs; }
    else {
      assert (es + fs)[1..] == es[1..] + fs;
      AnswersAppend(cfg, evict, After(cfg, evict, t, es[0]), es[1..], fs);
    }
  }

  /** A second request at the same instant finds what the first left. */
  lemma NoRefillAtOnce(cfg: Config, t: Table, ip: string, at: real)
    requires ip in t
    ensures var r, t' := Refilled(cfg, t[ip], at), Allow(cfg, t, ip, at).0;
      ip in t' && Refilled(cfg, t'[ip], at) == if r < 1.0 then r else r - 1.0
  {
    assert Earned(cfg, at, at) == 0.0;
  }

  lemma VolleyFirst(cfg: Config, evict: bool, t: Table, ip: string, at: real, k: nat)
    requires k >= 1
    ensures var (t', ok) := Allow(cfg, t, ip, at);
      && Answers(cfg, evict, t, Volley(ip, at, k)) == [ok] + Answers(cfg, evict, t', Volley(ip, at, k - 1))
      && Run(cfg, evict, t, Volley(ip, at, k)) == Run(cfg, evict, t', Volley(ip, at, k - 1))
  {
    assert Volley(ip, at, k)[1..] == Volley(ip, at, k - 1);
  }

  /** A volley drains one token each while whole tokens last; its last request
      passes iff the bucket held at least `k`. */
  lemma {:induction false} VolleyAnswers(cfg: Config, evict: bool, t: Table, ip: string, at: real, k: nat)
    requires ip in t && k >= 1
    ensures LastAnswer(cfg, evict, t, Volley(ip, at, k)) == (Refilled(cfg, t[ip], at) >= k as real)
    ensures |Answers(cfg, evict, t, Volley(ip, at, k))| == k
  {
    VolleyFirst(cfg, evict, t, ip, at, k);
    if k > 1 {
      NoRefillAtOnce(cfg, t, ip, at);
      VolleyAnswers(cfg, evict, Allow(cfg, t, ip, at).0, ip, at, k - 1);
    }
  }

  lemma {:induction false} VolleyDrains(cfg: Config, evict: bool, t: Table, ip: string, at: real, k: nat)
    requires ip in t && k >= 1 && Refilled(cfg, t[ip], at) >= k as real
    ensures Run(cfg, evict, t, Volley(ip, at, k)) == t[ip := Visitor(Refilled(cfg, t[ip], at) - k as real, at)]
  {
    VolleyFirst(cfg, evict, t, ip, at, k);
    if k > 1 {
      NoRefillAtOnce(cfg, t, ip, at);
      VolleyDrains(cfg, evict, Allow(cfg, t, ip, at).0, ip, at, k - 1);
    }
  }

  /** From a fresh address, `burst` requests at once all pass and leave an empty
      bucket, whatever the clock says. */
  lemma FreshVolley(cfg: Config, evict: bool, t: Table, ip: string, at: real)
    requires ip !in t && cfg.burst >= 1
    ensures LastAnswer(cfg, evict, t, Volley(ip, at, cfg.burst))
    ensures |Answers(cfg, evict, t, Volley(ip, at, cfg.burst))| == cfg.burst
    ensures Run(cfg, evict, t, Volley(ip, at, cfg.burst)) == t[ip := Visitor(0.0, at)]
  {
    var k := cfg.burst;
    var t' := Allow(cfg, t, ip, at).0;
    VolleyFirst(cfg, evict, t, ip, at, k);
    if k > 1 {
      assert Refilled(cfg, t'[ip], at) == (k - 1) as real by { assert Earned(cfg, at, at) == 0.0; }
      VolleyAnswers(cfg, evict, t', ip, at, k - 1);
      VolleyDrains(cfg, evict, t', ip, at, k - 1);
    }
  }

  ghost predicate Transparent(cfg: Config) {
    forall es :: Clocked(0.0, es) ==> Answers(cfg, true, map[], es) == Answers(cfg, false, map[], es)
  }

  /** With a burst of zero or less the first request of an address passes and
      no other, until a sweep forgets the address. */
  lemma NoBurstIsVisible(cfg: Config)
    requires cfg.Valid() && cfg.burst < 1
    ensures !Transparent(cfg)
  {
    var es := [Request("x", 0.0), Sweep(181.0), Request("x", 181.0)];
    assert es[1..] == [Sweep(181.0), Request("x", 181.0)];
    assert es[1..][1..] == [Request("x", 181.0)];
    var t := Allow(cfg, map[], "x", 0.0).0;
    var none: Table := map[];
    assert Swept(t, 181.0) == none;
    calc {
      Answers(cfg, true, map[], es);
      [true] + Answers(cfg, true, t, es[1..]);
      [true] + Answers(cfg, true, none, [Request("x", 181.0)]);
      [true, true];
    }
    calc {
      Answers(cfg, false, map[], es);
      [true] + Answers(cfg, false, t, es[1..]);
      [true] + Answers(cfg, false, t, [Request("x", 181.0)]);
      [true, false];
    }
    assert Clocked(0.0, es);
  }

  lemma Middle(cfg: Config) returns (at: real)
    requires cfg.Valid() && cfg.burst as real > IDLE * cfg.rps
    ensures at > IDLE && Earned(cfg, 0.0, at) < cfg.burst as real
  {
    var full := cfg.burst as real / cfg.rps;
    assert Earned(cfg, 0.0, full) == cfg.burst as real;
    assert full > IDLE by { if full <= IDLE { EarnedAdds(cfg, 0.0, full, IDLE); EarnedGrows(cfg, full, IDLE); } }
    at := (IDLE + full) / 2.0;
    EarnedAdds(cfg, 0.0, at, full);
    assert (full - at) * cfg.rps > 0.0;
  }

  lemma SweepFirst(cfg: Config, evict: bool, t: Table, at: real, es: seq<Event>)
    ensures Answers(cfg, evict, t, [Sweep(at)] + es) == Answers(cfg, evict, if evict then Swept(t, at) else t, es)
  {
    assert ([Sweep(at)] + es)[1..] == es;
  }

  /** After a spent burst and a sweep, a second burst passes the evicting
      limiter whole, and the never-evicting one does not let its last through. */
  lemma SecondBurst(cfg: Config, at: real)
    requires cfg.Valid() && cfg.burst >= 1 && at > IDLE && Earned(cfg, 0.0, at) < cfg.burst as real
    ensures var spent: Table := map["x" := Visitor(0.0, 0.0)];
      var es := [Sweep(at)] + Volley("x", at, cfg.burst);
      && LastAnswer(cfg, true, spent, es) && !LastAnswer(cfg, false, spent, es)
      && |Answers(cfg, true, spent, es)| == |Answers(cfg, false, spent, es)| == cfg.burst
  {
    var spent: Table := map["x" := Visitor(0.0, 0.0)];
    var again := Volley("x", at, cfg.burst);
    SweepFirst(cfg, true, spent, at, again);
    SweepFirst(cfg, false, spent, at, again);
    var none: Table := map[];
    assert Swept(spent, at) == none;
    FreshVolley(cfg, true, none, "x", at);
    VolleyAnswers(cfg, false, spent, "x", at, cfg.burst);
  }

  lemma BurstsAreClocked(cfg: Config, at: real)
    requires cfg.burst >= 1 && 0.0 <= at
    ensures Clocked(0.0, Volley("x", 0.0, cfg.burst) + ([Sweep(at)] + Volley("x", at, cfg.burst)))
  {
    var again := Volley("x", at, cfg.burst);
    VolleyClocked("x", at, cfg.burst, at, []);
    assert again + [] == again;
    assert ([Sweep(at)] + again)[1..] == again;
    VolleyClocked("x", 0.0, cfg.burst, 0.0, [Sweep(at)] + again);
  }

  /** If the bucket needs longer than the idle time to refill, an address that
      spent its burst gets a whole new one by waiting for the sweep. */
  lemma SlowRefillIsVisible(cfg: Config)
    requires cfg.Valid() && cfg.burst >= 1 && cfg.burst as real > IDLE * cfg.rps
    ensures !Transparent(cfg)
  {
    var at := Middle(cfg);
    var none: Table := map[];
    var first, later := Volley("x", 0.0, cfg.burst), [Sweep(at)] + Volley("x", at, cfg.burst);
    BurstsAreClocked(cfg, at);
    FreshVolley(cfg, true, none, "x", 0.0);
    FreshVolley(cfg, false, none, "x", 0.0);
    AnswersAppend(cfg, true, none, first, later);
    AnswersAppend(cfg, false, none, first, later);
    SecondBurst(cfg, at);
    var spent: Table := map["x" := Visitor(0.0, 0.0)];
    assert Run(cfg, true, none, first) == spent && Run(cfg, false, none, first) == spent;
    var a, b := Answers(cfg, true, none, first + later), Answers(cfg, false, none, first + later);
    assert a[|a| - 1] != b[|b| - 1];
  }

  /** The comment on `sweep` promises that eviction is behaviourally
      transparent. It is so exactly when 1 <= burst <= 180 rps. */
  lemma TransparentIff(cfg: Config)
    requires cfg.Valid()
    ensures Transparent(cfg) <==> 1 <= cfg.burst && cfg.burst as real <= IDLE * cfg.rps
  {
    if cfg.burst < 1 { NoBurstIsVisible(cfg); }
    else if cfg.burst as real > IDLE * cfg.rps { SlowRefillIsVisible(cfg); }
    else {
      forall es | Clocked(0.0, es) ensures Answers(cfg, true, map[], es) == Answers(cfg, false, map[], es) {
        SweepInvisible(cfg, map[], map[], 0.0, es, "");
      }
    }
  }

  // ------------------------------------------------------- the rate bound

  function Available(cfg: Config, t: Table, ip: string, now: real): real {
    if ip in t then Refilled(cfg, t[ip], now) else cfg.burst as real
  }

  lemma AvailableLater(cfg: Config, t: Table, ip: string, a: real, x: real)
    requires cfg.Valid() && a <= x
    ensures Available(cfg, t, ip, x) <= Available(cfg, t, ip, a) + Earned(cfg, a, x)
  {
    EarnedGrows(cfg, a, x);
    if ip in t { EarnedAdds(cfg, t[ip].last, a, x); }
  }

  predicate LetsThrough(cfg: Config, t: Table, e: Event, ip: string) {
    e.Request? && e.ip == ip && Allow(cfg, t, ip, e.at).1
  }

  lemma AvailableStep(cfg: Config, t: Table, e: Event, ip: string, a: real)
    requires cfg.Valid() && cfg.burst >= 1 && a <= e.at
    ensures Available(cfg, After(cfg, false, t, e), ip, e.at) + (if LetsThrough(cfg, t, e, ip) then 1.0 else 0.0)
            <= Available(cfg, t, ip, a) + Earned(cfg, a, e.at)
  {
    AvailableLater(cfg, t, ip, a, e.at);
    assert Earned(cfg, e.at, e.at) == 0.0;
  }

  /** Between `a` and `b` an address gets at most what its bucket holds at `a`
      plus the refill until `b`. */
  lemma {:induction false} WindowBound(cfg: Config, t: Table, es: seq<Event>, ip: string, a: real, b: real)
    requires cfg.Valid() && cfg.burst >= 1 && InRange(cfg, t, a) && a <= b
    requires Clocked(a, es) && (forall k :: 0 <= k < |es| ==> es[k].at <= b)
    ensures Allowed(cfg, false, t, es, ip) as real <= Available(cfg, t, ip, a) + Earned(cfg, a, b)
    decreases |es|
  {
    if |es| == 0 {
      EarnedGrows(cfg, a, b);
      if ip in t { EarnedGrows(cfg, t[ip].last, a); }
    } else {
      EventKeepsRange(cfg, false, t, a, es[0]);
      WindowBound(cfg, After(cfg, false, t, es[0]), es[1..], ip, es[0].at, b);
      AvailableStep(cfg, t, es[0], ip, a);
      EarnedAdds(cfg, a, es[0].at, b);
    }
  }

  lemma {:induction false} RunKeepsRelated(cfg: Config, swept: Table, kept: Table, from: real, es: seq<Event>, to: real)
    requires cfg.Valid() && 1 <= cfg.burst && cfg.burst as real <= IDLE * cfg.rps
    requires Related(cfg, swept, kept, from) && InRange(cfg, kept, from) && Clocked(from, es)
    requires from <= to && forall k :: 0 <= k < |es| ==> es[k].at <= to
    ensures Related(cfg, Run(cfg, true, swept, es), Run(cfg, false, kept, es), to)
    ensures InRange(cfg, Run(cfg, false, kept, es), to)
    decreases |es|
  {
    if |es| == 0 { RelatedLater(cfg, swept, kept, from, to); }
    else {
      var e := es[0];
      RelatedLater(cfg, swept, kept, from, e.at);
      EventKeepsRange(cfg, false, kept, from, e);
      if e.Request? { RequestKeepsRelated(cfg, swept, kept, e.ip, e.at); }
      else { SweepKeepsRelated(cfg, swept, kept, e.at); }
      RunKeepsRelated(cfg, After(cfg, true, swept, e), After(cfg, false, kept, e), e.at, es[1..], to);
    }
  }

  lemma {:induction false} RunKeepsRange(cfg: Config, evict: bool, t: Table, from: real, es: seq<Event>, to: real)
    requires cfg.Valid() && cfg.burst >= 1 && InRange(cfg, t, from) && Clocked(from, es)
    requires from <= to && forall k :: 0 <= k < |es| ==> es[k].at <= to
    ensures InRange(cfg, Run(cfg, evict, t, es), to)
    decreases |es|
  {
    if |es| != 0 {
      EventKeepsRange(cfg, evict, t, from, es[0]);
      RunKeepsRange(cfg, evict, After(cfg, evict, t, es[0]), es[0].at, es[1..], to);
    }
  }

  /** Over every run of the limiter as it is, sweeps included: after any
      history `pre`, the requests of one address allowed between `a` and `b`
      number at most burst + rps (b - a). The never-evicting limiter obeys the
      bound for every burst >= 1. */
  lemma RateBound(cfg: Config, evict: bool, pre: seq<Event>, es: seq<Event>, ip: string, a: real, b: real)
    requires cfg.Valid() && 1 <= cfg.burst && (evict ==> cfg.burst as real <= IDLE * cfg.rps)
    requires 0.0 <= a <= b && Clocked(0.0, pre) && (forall k :: 0 <= k < |pre| ==> pre[k].at <= a)
    requires Clocked(a, es) && (forall k :: 0 <= k < |es| ==> es[k].at <= b)
    ensures Allowed(cfg, evict, Run(cfg, evict, map[], pre), es, ip) as real <= cfg.burst as real + Earned(cfg, a, b)
  {
    RunKeepsRange(cfg, false, map[], 0.0, pre, a);
    WindowBound(cfg, Run(cfg, false, map[], pre), es, ip, a, b);
    if evict {
      RunKeepsRelated(cfg, map[], map[], 0.0, pre, a);
      SweepInvisible(cfg, Run(cfg, true, map[], pre), Run(cfg, false, map[], pre), a, es, ip);
    }
  }

  // ---------------------------------------------------- the code's own form

  /** One request on a bucket: it refills by the time passed, up to the burst, and
      gives a token if it holds one. */
  predicate Takes(cfg: Config, v: Visitor, now: real, ok: bool, after: Visitor) {
    var filled := v.tokens + (now - v.last) * cfg.rps;
    var tokens := if filled > cfg.burst as real then cfg.burst as real else filled;
    (ok <==> tokens >= 1.0) && after == Visitor(if ok then tokens - 1.0 else tokens, now)
  }

  lemma AllowTakes(cfg: Config, t: Table, ip: string, now: real)
    requires ip in t
    ensures var (t', ok) := Allow(cfg, t, ip, now); ip in t' && Takes(cfg, t[ip], now, ok, t'[ip])
  {
    var v := t[ip];
    var (t', ok) := Allow(cfg, t, ip, now);
    var filled := v.tokens + (now - v.last) * cfg.rps;
    assert Earned(cfg, v.last, now) == (now - v.last) * cfg.rps;
    var tokens := if filled > cfg.burst as real then cfg.burst as real else filled;
    assert Refilled(cfg, v, now) == tokens;
    assert (ok <==> tokens >= 1.0) && t'[ip] == Visitor(if ok then tokens - 1.0 else tokens, now);
  }

  class Limiter {
    const cfg: Config
    var visitors: Table

    constructor (cfg: Config)
      ensures this.cfg == cfg && visitors == map[]
    {
      this.cfg := cfg;
      visitors := map[];
    }

    method AllowIp(ip: string, now: real) returns (ok: bool)
      modifies this`visitors
      ensures (visitors, ok) == Allow(cfg, old(visitors), ip, now)
      ensures ip !in old(visitors) ==> ok && visitors == old(visitors)[ip := Visitor(cfg.burst as real - 1.0, now)]
      ensures ip in old(visitors) ==> Takes(cfg, old(visitors)[ip], now, ok, if ip in visitors then visitors[ip] else old(visitors)[ip])
      ensures ip in visitors && visitors == old(visitors)[ip := visitors[ip]]
    {
      if ip in visitors { AllowTakes(cfg, visitors, ip, now); }
      if ip !in visitors {
        visitors := visitors[ip := Visitor(cfg.burst as real - 1.0, now)];
        return true;
      }
      var v := visitors[ip];
      var tokens := v.tokens + Earned(cfg, v.last, now);
      if tokens > cfg.burst as real { tokens := cfg.burst as real; }
      visitors := visitors[ip := Visitor(tokens, now)];
      if tokens < 1.0 { return false; }
      visitors := visitors[ip := Visitor(tokens - 1.0, now)];
      assert visitors == old(visitors)[ip := Visitor(tokens - 1.0, now)];
      return true;
    }

    method SweepOnce(now: real)
      modifies this`visitors
      ensures visitors == Swept(old(visitors), now)
      ensures forall ip :: ip in visitors ==> ip in old(visitors) && visitors[ip] == old(visitors)[ip]
      ensures forall ip :: ip in old(visitors) ==> (ip !in visitors <==> now - old(visitors)[ip].last > 180.0)
    {
      var cutoff := now - IDLE;
      var todo := visitors.Keys;
      while todo != {}
        invariant todo <= old(visitors).Keys
        invariant forall ip :: ip in visitors ==> ip in old(visitors) && visitors[ip] == old(visitors)[ip]
        invariant forall ip :: ip in old(visitors) && ip in todo ==> ip in visitors
        invariant forall ip :: ip in old(visitors) && ip !in todo ==>
          (ip in visitors <==> !(old(visitors)[ip].last < cutoff))
        decreases todo
      {
        var ip :| ip in todo;
        if visitors[ip].last < cutoff { visitors := visitors - {ip}; }
        todo := todo - {ip};
      }
    }
  }
}
