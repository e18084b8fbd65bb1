/** Levels and experience: the generic rule, and the character rows and event
    log that AddRewards and SpendGold keep. A curve is an integer function of
    the level; the RPG's is 100 n^2. */
module Progression {
  import opened Common

  type Curve = int -> int

  datatype Standing = Standing(level: int, xp: int)

  function XPForLevel(c: Curve, level: int): int { c(if level < 1 then 1 else level) }

  /** Levels up as long as the xp suffices. */
  function Settle(c: Curve, s: Standing): Standing
    decreases if s.xp < 0 then 0 else s.xp
  {
    var req := XPForLevel(c, s.level);
    if req > 0 && s.xp >= req then Settle(c, Standing(s.level + 1, s.xp - req)) else s
  }

  function Start(s: Standing): Standing { if s.level < 1 then s.(level := 1) else s }

  function Apply(c: Curve, s: Standing, gained: int): Standing {
    Settle(c, Start(s).(xp := s.xp + gained))
  }

  /** `Apply` as the loop it is. */
  method ApplyLoop(c: Curve, level: int, xp: int, gained: int) returns (newLevel: int, newXP: int, levelsGained: int)
    ensures Standing(newLevel, newXP) == Apply(c, Standing(level, xp), gained)
    ensures levelsGained == newLevel - Start(Standing(level, xp)).level && levelsGained >= 0
  {
    newLevel, newXP, levelsGained := level, xp + gained, 0;
    if newLevel < 1 { newLevel := 1; }
    while true
      invariant Settle(c, Standing(newLevel, newXP)) == Apply(c, Standing(level, xp), gained)
      invariant levelsGained == newLevel - Start(Standing(level, xp)).level && levelsGained >= 0
      decreases if newXP < 0 then 0 else newXP
    {
      var req := XPForLevel(c, newLevel);
      if req > 0 && newXP >= req {
        newXP := newXP - req;
        newLevel := newLevel + 1;
        levelsGained := levelsGained + 1;
      } else {
        break;
      }
    }
  }

  // --------------------------------------------------- conservation laws

  /** Experience needed to stand at the beginning of a level. */
  function Cum(c: Curve, level: int): int
    decreases if level < 1 then 0 else level
  {
    if level <= 1 then 0 else Cum(c, level - 1) + XPForLevel(c, level - 1)
  }

  function Total(c: Curve, s: Standing): int { Cum(c, s.level) + s.xp }

  predicate Settled(c: Curve, s: Standing) {
    XPForLevel(c, s.level) <= 0 || s.xp < XPForLevel(c, s.level)
  }

  lemma {:induction false} SettleConserves(c: Curve, s: Standing)
    requires s.level >= 1
    ensures var r := Settle(c, s);
      && r.level >= s.level && Total(c, r) == Total(c, s) && Settled(c, r)
      && (s.xp >= 0 ==> r.xp >= 0) && (s.xp < 0 ==> r == s)
    decreases if s.xp < 0 then 0 else s.xp
  {
    var req := XPForLevel(c, s.level);
    if req > 0 && s.xp >= req { SettleConserves(c, Standing(s.level + 1, s.xp - req)); }
  }

  /** No experience appears or vanishes, whatever the gain's sign, and the
      result cannot level up further. */
  lemma ApplyConserves(c: Curve, s: Standing, gained: int)
    ensures var r := Apply(c, s, gained);
      && Total(c, r) == Total(c, s) + gained && Settled(c, r) && r.level >= s.level && r.level >= 1
      && (s.xp + gained >= 0 ==> r.xp >= 0)
  {
    SettleConserves(c, Start(s).(xp := s.xp + gained));
  }

  lemma {:induction false} SettleAbsorbs(c: Curve, s: Standing, b: int)
    requires b >= 0 && s.level >= 1
    ensures Settle(c, s.(xp := s.xp + b)) == Settle(c, Settle(c, s).(xp := Settle(c, s).xp + b))
    decreases if s.xp < 0 then 0 else s.xp
  {
    var req := XPForLevel(c, s.level);
    if req > 0 && s.xp >= req { SettleAbsorbs(c, Standing(s.level + 1, s.xp - req), b); }
  }

  /** Two gains in a row are one gain of their sum, if the second is not a loss. */
  lemma ApplyAdds(c: Curve, s: Standing, a: int, b: int)
    requires b >= 0
    ensures Apply(c, Apply(c, s, a), b) == Apply(c, s, a + b)
  {
    var s1 := Start(s).(xp := s.xp + a);
    SettleConserves(c, s1);
    SettleAbsorbs(c, s1, b);
  }

  /** A loss after a gain is not taken back by the level. */
  lemma LossDoesNotAdd()
    ensures Apply(RpgCurve, Apply(RpgCurve, Standing(1, 0), 100), -100) != Apply(RpgCurve, Standing(1, 0), 0)
  {
    assert Apply(RpgCurve, Standing(1, 0), 100) == Standing(2, 0);
  }

  predicate Standard(s: Standing) { s.level >= 1 && s.xp >= 0 }

  ghost predicate Positive(c: Curve) { forall l :: l >= 1 ==> c(l) > 0 }

  lemma {:induction false} CumGrows(c: Curve, a: int, b: int)
    requires Positive(c) && 1 <= a < b
    ensures Cum(c, a) + XPForLevel(c, a) <= Cum(c, b)
    decreases b
  {
    if a + 1 < b { CumGrows(c, a, b - 1); }
  }

  /** For a positive curve the level is the only one whose cumulative range
      holds the total, and a settled standing is determined by its total. */
  lemma LevelIsUnique(c: Curve, s: Standing, t: Standing)
    requires Positive(c) && Standard(s) && Settled(c, s)
    ensures Cum(c, s.level) <= Total(c, s) < Cum(c, s.level + 1)
    ensures Standard(t) && Settled(c, t) && Total(c, t) == Total(c, s) ==> t == s
    ensures forall l :: l >= 1 && Cum(c, l) <= Total(c, s) < Cum(c, l + 1) ==> l == s.level
  {
    if Standard(t) && Settled(c, t) && t.level < s.level { CumGrows(c, t.level, s.level); }
    if t.level > s.level { CumGrows(c, s.level, t.level); }
    forall l | l >= 1 && Cum(c, l) <= Total(c, s) < Cum(c, l + 1) ensures l == s.level {
      if l < s.level { CumAtMost(c, l + 1, s.level); }
      if l > s.level { CumAtMost(c, s.level + 1, l); }
    }
  }

  lemma {:induction false} CumAtMost(c: Curve, a: int, b: int)
    requires Positive(c) && 1 <= a <= b
    ensures Cum(c, a) <= Cum(c, b)
    decreases b
  {
    if a < b { CumAtMost(c, a, b - 1); }
  }

  function RpgXP(level: int): int { 100 * (level * level) }

  const RpgCurve: Curve := RpgXP

  /** The RPG's curve in closed form: 100 times the sum of the first squares. */
  lemma {:induction false} RpgTotal(level: int)
    requires level >= 1
    ensures 6 * Cum(RpgCurve, level) == 100 * ((level - 1) * level * (2 * level - 1))
    decreases level
  {
    if level > 1 {
      RpgTotal(level - 1);
      assert XPForLevel(RpgCurve, level - 1) == 100 * ((level - 1) * (level - 1));
      SquarePyramid(level);
    }
  }

  lemma SquarePyramid(n: int)
    ensures (n - 2) * (n - 1) * (2 * n - 3) + 6 * ((n - 1) * (n - 1)) == (n - 1) * n * (2 * n - 1)
  {
    assert (n - 2) * (2 * n - 3) + 6 * (n - 1) == n * (2 * n - 1);
    assert (n - 1) * ((n - 2) * (2 * n - 3) + 6 * (n - 1)) == (n - 1) * (n * (2 * n - 1));
  }

  lemma RpgPositive()
    ensures Positive(RpgCurve)
  {
    forall l | l >= 1 ensures RpgXP(l) > 0 { assert l * l >= 1; }
  }

  // -------------------------------------------------------- character rows

  datatype Logged = RewardsGranted(gold: int, exp: int) | LeveledUp(level: int)

  /** A row of `characters` with its base stats and its event_log stream. */
  datatype Character = Character(standing: Standing, gold: int, stats: map<string, real>, log: seq<Logged>) {
    function Stat(name: string): real { StatOf(stats, name) }
  }

  /** A missing stat counts as zero. */
  function StatOf(stats: map<string, real>, name: string): real { if name in stats then stats[name] else 0.0 }

  const PRIMARY: seq<string> := ["STR", "INT", "DEX", "CON"]

  const STAT_GAIN: int := 2

  function Raised(stats: map<string, real>, names: seq<string>, gain: real): map<string, real>
    decreases |names|
  {
    if |names| == 0 then stats
    else
      var n := names[0];
      Raised(stats[n := StatOf(stats, n) + gain], names[1..], gain)
  }

  function AddRewards(ch: Character, gold: int, exp: int): Character {
    var next := Apply(RpgCurve, ch.standing, exp);
    var levels := next.level - ch.standing.level;
    var up := next.level > Start(ch.standing).level;
    Character(next, ch.gold + gold,
      if up && levels > 0 then Raised(ch.stats, PRIMARY, (levels * STAT_GAIN) as real) else ch.stats,
      ch.log + [RewardsGranted(gold, exp)] + if up then [LeveledUp(next.level)] else [])
  }

  function SpendGold(ch: Character, amount: int): (Character, bool) {
    if amount <= 0 then (ch, true)
    else if ch.gold < amount then (ch, false)
    else (ch.(gold := ch.gold - amount), true)
  }

  datatype Op = Reward(gold: int, exp: int) | Spend(amount: int)

  function Step(ch: Character, op: Op): Character {
    match op
    case Reward(gold, exp) => AddRewards(ch, gold, exp)
    case Spend(amount) => SpendGold(ch, amount).0
  }

  function Run(ch: Character, ops: seq<Op>): Character {
    if |ops| == 0 then ch else Step(Run(ch, ops[..|ops| - 1]), ops[|ops| - 1])
  }

  function ExpSum(ops: seq<Op>): int {
    if |ops| == 0 then 0
    else ExpSum(ops[..|ops| - 1]) + if ops[|ops| - 1].Reward? then ops[|ops| - 1].exp else 0
  }

  /** What the log alone says the standing is. */
  function Replay(start: Standing, log: seq<Logged>): Standing {
    if |log| == 0 then start
    else
      var before, e := Replay(start, log[..|log| - 1]), log[|log| - 1];
      if e.RewardsGranted? then Apply(RpgCurve, before, e.exp) else before
  }

  ghost predicate Created(ch: Character) {
    ch.standing == Standing(1, 0) && ch.log == []
  }

  /** No reward takes experience away. */
  ghost predicate Gains(ops: seq<Op>) {
    forall i :: 0 <= i < |ops| && ops[i].Reward? ==> ops[i].exp >= 0
  }

  /** No reward takes gold away. */
  ghost predicate Earns(ops: seq<Op>) {
    forall i :: 0 <= i < |ops| && ops[i].Reward? ==> ops[i].gold >= 0
  }

  lemma {:induction false} RaisedStat(stats: map<string, real>, names: seq<string>, gain: real, n: string)
    requires Distinct(names)
    ensures StatOf(Raised(stats, names, gain), n) == StatOf(stats, n) + if n in names then gain else 0.0
    decreases |names|
  {
    if |names| != 0 {
      RaisedStat(stats[names[0] := StatOf(stats, names[0]) + gain], names[1..], gain, n);
      assert names == [names[0]] + names[1..];
    }
  }

  lemma PrimaryDistinct()
    ensures Distinct(PRIMARY)
  {
    assert "STR"[0] == 'S' && "INT"[0] == 'I' && "DEX"[0] == 'D' && "CON"[0] == 'C';
  }

  lemma StatsRaised(stats: map<string, real>, gain: real, n: string)
    ensures StatOf(Raised(stats, PRIMARY, gain), n) == StatOf(stats, n) + if n in PRIMARY then gain else 0.0
  {
    PrimaryDistinct();
    RaisedStat(stats, PRIMARY, gain, n);
  }

  lemma RewardStats(ch: Character, gold: int, exp: int, n: string)
    requires ch.standing.level >= 1
    ensures var after := AddRewards(ch, gold, exp);
      after.Stat(n) == ch.Stat(n) +
        if n in PRIMARY then (STAT_GAIN * (after.standing.level - ch.standing.level)) as real else 0.0
  {
    ApplyConserves(RpgCurve, ch.standing, exp);
    var levels := Apply(RpgCurve, ch.standing, exp).level - ch.standing.level;
    if levels > 0 { StatsRaised(ch.stats, (levels * STAT_GAIN) as real, n); }
  }

  /** After any run of rewards and spending from creation: level and experience
      are one Apply of the summed experience from level 1, and what replaying
      the log yields; nothing of the experience is lost. */
  lemma {:induction false} RunIsOneApply(ch: Character, ops: seq<Op>)
    requires Created(ch) && Gains(ops)
    ensures var r := Run(ch, ops);
      && r.standing == Apply(RpgCurve, Standing(1, 0), ExpSum(ops))
      && r.standing == Replay(Standing(1, 0), r.log)
      && Standard(r.standing) && Settled(RpgCurve, r.standing) && Total(RpgCurve, r.standing) == ExpSum(ops)
      && ExpSum(ops) >= 0
  {
    if |ops| != 0 {
      var front, op := ops[..|ops| - 1], ops[|ops| - 1];
      RunIsOneApply(ch, front);
      if op.Reward? {
        ApplyAdds(RpgCurve, Standing(1, 0), ExpSum(front), op.exp);
        ApplyConserves(RpgCurve, Run(ch, front).standing, op.exp);
        LogReplays(Run(ch, front), op);
      }
    }
  }

  lemma LogReplays(ch: Character, op: Op)
    requires op.Reward? && ch.standing == Replay(Standing(1, 0), ch.log)
    ensures Replay(Standing(1, 0), AddRewards(ch, op.gold, op.exp).log) == AddRewards(ch, op.gold, op.exp).standing
  {
    var after := AddRewards(ch, op.gold, op.exp);
    var rewarded := ch.log + [RewardsGranted(op.gold, op.exp)];
    assert rewarded[..|ch.log|] == ch.log;
    if |after.log| > |rewarded| {
      assert after.log[..|rewarded|] == rewarded;
    } else {
      assert after.log == rewarded;
    }
  }

  /** Level is the unique L with cum(L) <= total < cum(L+1). */
  lemma RunLevel(ch: Character, ops: seq<Op>, l: int)
    requires Created(ch) && Gains(ops) && l >= 1
    ensures Cum(RpgCurve, l) <= ExpSum(ops) < Cum(RpgCurve, l + 1) <==> l == Run(ch, ops).standing.level
  {
    RpgPositive();
    RunIsOneApply(ch, ops);
    LevelIsUnique(RpgCurve, Run(ch, ops).standing, Standing(1, 0));
  }

  /** Each primary stat is its starting value plus 2 (level - 1); no other stat
      changes. */
  lemma {:induction false} RunStats(ch: Character, ops: seq<Op>, n: string)
    requires Created(ch) && Gains(ops)
    ensures Run(ch, ops).Stat(n) ==
            ch.Stat(n) + if n in PRIMARY then (STAT_GAIN * (Run(ch, ops).standing.level - 1)) as real else 0.0
  {
    if |ops| != 0 {
      var front, op := ops[..|ops| - 1], ops[|ops| - 1];
      RunStats(ch, front, n);
      RunIsOneApply(ch, front);
      if op.Reward? { RewardStats(Run(ch, front), op.gold, op.exp, n); }
    }
  }

  /** Gold earned minus gold spent, where refused spends cost nothing. */
  function Balance(ch: Character, ops: seq<Op>): int {
    if |ops| == 0 then ch.gold
    else
      var front, op := ops[..|ops| - 1], ops[|ops| - 1];
      var b := Balance(ch, front);
      match op
      case Reward(gold, _) => b + gold
      case Spend(amount) => if 0 < amount <= b then b - amount else b
  }

  lemma {:induction false} RunGold(ch: Character, ops: seq<Op>)
    ensures Run(ch, ops).gold == Balance(ch, ops)
    ensures ch.gold >= 0 && Earns(ops) ==> Run(ch, ops).gold >= 0
  {
    if |ops| != 0 { RunGold(ch, ops[..|ops| - 1]); }
  }

  // ---------------------------------------------------- the code's own form

  method ApplyLevelUpStatGains(base: map<string, real>, levelsGained: int) returns (stats: map<string, real>)
    ensures forall n ::
              StatOf(stats, n) == StatOf(base, n) + if levelsGained > 0 && n in PRIMARY then (levelsGained * STAT_GAIN) as real else 0.0
    ensures stats == if levelsGained > 0 then Raised(base, PRIMARY, (levelsGained * STAT_GAIN) as real) else base
  {
    stats := base;
    if levelsGained <= 0 { return; }
    var gain := (levelsGained * STAT_GAIN) as real;
    for i := 0 to |PRIMARY|
      invariant Raised(stats, PRIMARY[i..], gain) == Raised(base, PRIMARY, gain)
    {
      assert PRIMARY[i..][1..] == PRIMARY[i + 1..];
      var s := PRIMARY[i];
      stats := stats[s := StatOf(stats, s) + gain];
    }
    forall n ensures StatOf(stats, n) == StatOf(base, n) + if n in PRIMARY then gain else 0.0 {
      StatsRaised(base, gain, n);
    }
  }

  /** The body of AddRewards's transaction. */
  method Rewarded(ch: Character, gold: int, exp: int) returns (leveledUp: bool, after: Character)
    ensures after == AddRewards(ch, gold, exp)
    ensures leveledUp <==> after.standing.level > Start(ch.standing).level
    ensures after.gold == ch.gold + gold
    ensures after.log == ch.log + [RewardsGranted(gold, exp)] + if leveledUp then [LeveledUp(after.standing.level)] else []
    ensures forall n :: after.Stat(n) ==
              ch.Stat(n) + if leveledUp && n in ["STR", "INT", "DEX", "CON"] then (2 * (after.standing.level - ch.standing.level)) as real else 0.0
  {
    var level, xp, gained := ApplyLoop(RpgCurve, ch.standing.level, ch.standing.xp, exp);
    leveledUp := gained > 0;
    var stats, log := ch.stats, ch.log + [RewardsGranted(gold, exp)];
    if leveledUp {
      stats := ApplyLevelUpStatGains(ch.stats, level - ch.standing.level);
      log := log + [LeveledUp(level)];
    } else {
      assert log + [] == log;
    }
    after := Character(Standing(level, xp), ch.gold + gold, stats, log);
  }

  datatype RewardResult = Granted(leveledUp: bool, newLevel: int) | NoCharacter | NoStats | StoreError

  datatype PayResult = Paid | TooPoor | UnknownCharacter | PayFailed

  /** `statless` are characters whose row in character_stats is missing. */
  class CharacterRepository {
    var rows: map<int, Character>
    var statless: set<int>

    /** One transaction: an error, be it of any statement or of a level-up that
        finds no stats, leaves everything as it was. */
    method Reward(id: int, gold: int, exp: int, storeFails: bool) returns (r: RewardResult)
      modifies this`rows
      ensures r.NoCharacter? <==> id !in old(rows)
      ensures r.StoreError? <==> id in old(rows) && storeFails
      ensures id in old(rows) && !storeFails ==>
        var ch, after := old(rows)[id], AddRewards(old(rows)[id], gold, exp);
        var up := after.standing.level > Start(ch.standing).level;
        r == if up && id in statless then NoStats else Granted(up, after.standing.level)
      ensures rows == if r.Granted? then old(rows)[id := AddRewards(old(rows)[id], gold, exp)] else old(rows)
    {
      if id !in rows { return NoCharacter; }
      if storeFails { return StoreError; }
      var leveledUp, after := Rewarded(rows[id], gold, exp);
      if leveledUp && id in statless { return NoStats; }
      rows := rows[id := after];
      return Granted(leveledUp, after.standing.level);
    }

    /** A non-positive amount succeeds without looking at the character; a failing
        statement rolls back. */
    method Pay(id: int, amount: int, storeFails: bool) returns (r: PayResult)
      modifies this`rows
      ensures r == (if amount <= 0 then Paid
                    else if id !in old(rows) then UnknownCharacter
                    else if storeFails then PayFailed
                    else if old(rows)[id].gold < amount then TooPoor
                    else Paid)
      ensures rows == if r.Paid? && amount > 0 then old(rows)[id := SpendGold(old(rows)[id], amount).0] else old(rows)
    {
      if amount <= 0 { return Paid; }
      if id !in rows { return UnknownCharacter; }
      if storeFails { return PayFailed; }
      if rows[id].gold < amount { return TooPoor; }
      rows := rows[id := rows[id].(gold := rows[id].gold - amount)];
      return Paid;
    }
  }

  /** GrantXP's level-up announcements. */
  class ProgressionService {
    const curve: Curve
    var store: map<int, Standing>

    function Get(id: int): Standing
      reads this
    {
      if id in store then store[id] else Standing(1, 0)
    }

    constructor (curve: Curve, store: map<int, Standing>)
      ensures this.curve == curve && this.store == store
    {
      this.curve, this.store := curve, store;
    }

    /** Announces one level per level gained if there are hooks, and nothing if
        reading or storing fails; the last announcement names the level reached
        exactly if the stored level was at least 1. `filter` is the xp hook. */
    method GrantXP(id: int, amount: int, hooks: bool, filter: int -> int, getFails: bool, setFails: bool)
      returns (ok: bool, next: Standing, gained: int, fired: seq<int>)
      modifies this`store
      ensures ok <==> !getFails && !setFails
      ensures !ok ==> store == old(store) && fired == []
      ensures ok ==> next == Apply(curve, old(Get(id)), if hooks then filter(amount) else amount) && store == old(store)[id := next]
      ensures ok ==> gained == next.level - Start(old(Get(id))).level
      ensures !hooks ==> fired == []
      ensures ok && hooks ==> |fired| == gained && forall i :: 0 <= i < gained ==> fired[i] == old(Get(id)).level + i + 1
      ensures ok && hooks && gained > 0 ==> (fired[gained - 1] == next.level <==> old(Get(id)).level >= 1)
    {
      next, gained, fired := Standing(0, 0), 0, [];
      var xp := if hooks then filter(amount) else amount;
      if getFails { return false, next, gained, fired; }
      var cur := Get(id);
      var level, rest, levels := ApplyLoop(curve, cur.level, cur.xp, xp);
      if setFails { return false, next, gained, fired; }
      next, gained := Standing(level, rest), levels;
      store := store[id := next];
      if hooks {
        for i := 0 to gained
          invariant |fired| == i && forall k :: 0 <= k < i ==> fired[k] == cur.level + k + 1
        {
          fired := fired + [cur.level + i + 1];
        }
      }
      ok := true;
    }
  }

  /** From a stored level of 0, reaching level 2 announces level 1. */
  method LowLevelAnnounced() returns (next: Standing, fired: seq<int>)
    ensures next == Standing(2, 0) && fired == [1]
  {
    var svc := new ProgressionService(RpgCurve, map[7 := Standing(0, 0)]);
    assert Settle(RpgCurve, Standing(1, 100)) == Settle(RpgCurve, Standing(2, 0)) == Standing(2, 0);
    var ok, gained;
    ok, next, gained, fired := svc.GrantXP(7, 100, true, x => x, false, false);
  }
}
