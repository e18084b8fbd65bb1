/** Attacks as interleaved steps over the vitals registry: any number of
    attacks run at once, each registry call one step, with other sessions
    starting, ending, healing and reviving in between. */
module Combat {
  import opened Common
  import opened V = Vitals

  /** What resolving the request's skill yields; a cost of zero spends nothing. */
  datatype SkillUse = NoSkill | NoSuchSkill | OtherClassSkill | Skill(cost: real)

  /** A request with the outcome of its hook and lookups. A mob has the maxima it
      spawns with. */
  datatype Attack = Attack(
    attacker: int,
    defender: int,
    vetoed: bool,
    attackerKnown: bool,
    skill: SkillUse,
    defenderKnown: bool,
    mob: bool,
    maxHp: real,
    maxMp: real)

  datatype Failure =
    | Vetoed
    | AttackerNotFound
    | AttackerDead
    | UnknownSkill
    | SkillClassMismatch
    | NotEnoughMana
    | DefenderNotFound
    | DefenderDead
    | DamageFailed

  datatype Stage =
    | CheckAttacker
    | SpendMana
    | ReadDefender
    | StartMob
    | ReviveMob
    | RereadMob
    | Strike
    | RewardDue
    | Refused(why: Failure)
    | Resolved(killed: bool)

  /** Who is credited with a kill. */
  datatype Credit = Credit(call: nat, attacker: int, victim: int)

  datatype Entry = Killed(credit: Credit) | Raised(entity: int)

  /** What one step of a call does: the pools and stage it leaves, what it adds
      to the history of kills and revivals, and the rewards it pays. */
  datatype Effect = Effect(pools: Pools, stage: Stage, log: seq<Entry>, paid: seq<Credit>)

  /** The damage calculation's outcome; negative damage counts as zero. */
  datatype Roll = Roll(fails: bool, hit: bool, damage: int) {
    function Amount(): real { (if damage < 0 then 0 else damage) as real }
  }

  function CreditOf(c: nat, a: Attack): Credit { Credit(c, a.attacker, a.defender) }

  function AfterStrike(killed: bool, rewarder: bool): Stage {
    if killed && rewarder then RewardDue else Resolved(killed)
  }

  function Advance(m: Pools, c: nat, a: Attack, stage: Stage, roll: Roll, rewarder: bool): Effect {
    match stage
    case CheckAttacker =>
      Effect(m,
             if a.vetoed then Refused(Vetoed)
             else if !a.attackerKnown then Refused(AttackerNotFound)
             else if a.attacker in m && m[a.attacker].dead then Refused(AttackerDead)
             else SpendMana, [], [])
    case SpendMana =>
      if a.skill.NoSuchSkill? then Effect(m, Refused(UnknownSkill), [], [])
      else if a.skill.OtherClassSkill? then Effect(m, Refused(SkillClassMismatch), [], [])
      else if a.skill.NoSkill? || a.skill.cost <= 0.0 then Effect(m, ReadDefender, [], [])
      else Effect(Spent(m, a.attacker, a.skill.cost),
                  if CanSpend(m, a.attacker, a.skill.cost) then ReadDefender else Refused(NotEnoughMana), [], [])
    case ReadDefender =>
      Effect(m,
             if !a.defenderKnown then Refused(DefenderNotFound)
             else if a.defender !in m then if a.mob then StartMob else Refused(DefenderNotFound)
             else if m[a.defender].dead then if a.mob then ReviveMob else Refused(DefenderDead)
             else Strike, [], [])
    case StartMob => Effect(Started(m, a.defender, a.maxHp, a.maxMp), Strike, [Raised(a.defender)], [])
    case ReviveMob => Effect(Revived(m, a.defender), RereadMob, if a.defender in m then [Raised(a.defender)] else [], [])
    case RereadMob => Effect(m, Strike, [], [])
    case Strike =>
      if roll.fails then Effect(m, Refused(DamageFailed), [], [])
      else if !roll.hit then Effect(m, Resolved(false), [], [])
      else
        var killed := Kills(m, a.defender, roll.Amount());
        Effect(Deducted(m, a.defender, roll.Amount()), AfterStrike(killed, rewarder),
               if killed then [Killed(CreditOf(c, a))] else [], [])
    case RewardDue => Effect(m, Resolved(true), [], [CreditOf(c, a)])
    case _ => Effect(m, stage, [], [])
  }

  datatype Call = Call(attack: Attack, stage: Stage)

  datatype State = State(pools: Pools, calls: map<nat, Call>, log: seq<Entry>, rewards: seq<Credit>)

  datatype Event =
    | Begin(c: nat, attack: Attack)
    | StepOf(c: nat, roll: Roll)
    | Start(id: int, maxHp: real, maxMp: real)
    | End(id: int)
    | Heal(id: int, amount: real)
    | DeductHP(id: int, amount: real)
    | SpendMP(id: int, amount: real)
    | Revive(id: int)

  /** Amounts and maxima are nonnegative and call ids are not reused. */
  predicate Enabled(s: State, e: Event) {
    match e
    case Begin(c, a) => c !in s.calls && a.maxHp >= 0.0 && a.maxMp >= 0.0
    case StepOf(c, _) => c in s.calls
    case Start(_, maxHp, maxMp) => maxHp >= 0.0 && maxMp >= 0.0
    case Heal(_, amount) => amount >= 0.0
    case DeductHP(_, amount) => amount >= 0.0
    case SpendMP(_, amount) => amount >= 0.0
    case _ => true
  }

  /** A call's effect on the whole state. */
  function Moved(s: State, c: nat, f: Effect): State
    requires c in s.calls
  {
    State(f.pools, s.calls[c := s.calls[c].(stage := f.stage)], s.log + f.log, s.rewards + f.paid)
  }

  function Step(rewarder: bool, s: State, e: Event): State
    requires Enabled(s, e)
  {
    match e
    case Begin(c, a) => s.(calls := s.calls[c := Call(a, CheckAttacker)])
    case StepOf(c, roll) =>
      var call := s.calls[c];
      var f := Advance(s.pools, c, call.attack, call.stage, roll, rewarder);
      Moved(s, c, f)
    case Start(id, maxHp, maxMp) => s.(pools := Started(s.pools, id, maxHp, maxMp), log := s.log + [Raised(id)])
    case End(id) => s.(pools := s.pools - {id})
    case Heal(id, amount) => s.(pools := Healed(s.pools, id, amount))
    case DeductHP(id, amount) => s.(pools := Deducted(s.pools, id, amount))
    case SpendMP(id, amount) => s.(pools := Spent(s.pools, id, amount))
    case Revive(id) => s.(pools := Revived(s.pools, id), log := s.log + if id in s.pools then [Raised(id)] else [])
  }

  const Init: State := State(map[], map[], [], [])

  predicate ValidRun(rewarder: bool, s: State, es: seq<Event>)
    decreases |es|
  {
    |es| == 0 || (Enabled(s, es[0]) && ValidRun(rewarder, Step(rewarder, s, es[0]), es[1..]))
  }

  function Run(rewarder: bool, s: State, es: seq<Event>): State
    requires ValidRun(rewarder, s, es)
    decreases |es|
  {
    if |es| == 0 then s else Run(rewarder, Step(rewarder, s, es[0]), es[1..])
  }

  // ------------------------------------------------------------- invariants

  /** The entity was killed with credit and not raised since. */
  predicate Down(log: seq<Entry>, entity: int) {
    if |log| == 0 then false
    else
      match log[|log| - 1]
      case Killed(credit) => credit.victim == entity || Down(log[..|log| - 1], entity)
      case Raised(e) => e != entity && Down(log[..|log| - 1], entity)
  }

  /** No credited kill of an entity that is already down. */
  predicate Separated(log: seq<Entry>) {
    |log| == 0 ||
    (Separated(log[..|log| - 1]) && (log[|log| - 1].Killed? ==> !Down(log[..|log| - 1], log[|log| - 1].credit.victim)))
  }

  ghost predicate DownIsDead(m: Pools, log: seq<Entry>) {
    forall e :: Down(log, e) ==> !Alive(m, e)
  }

  lemma DownAppend(log: seq<Entry>, x: Entry, e: int)
    ensures Down(log + [x], e) == if x.Killed? && x.credit.victim == e then true else if x == Raised(e) then false else Down(log, e)
    ensures Separated(log + [x]) == (Separated(log) && (x.Killed? ==> !Down(log, x.credit.victim)))
  {
    assert (log + [x])[..|log|] == log;
  }

  /** Pools and history stay sound. */
  ghost predicate Sound(m: Pools, log: seq<Entry>) {
    AllOk(m) && Separated(log) && DownIsDead(m, log)
  }

  /** A step that raises nobody and credits nobody keeps soundness if it brings
      no one back. */
  lemma QuietKeepsSound(m: Pools, n: Pools, log: seq<Entry>)
    requires Sound(m, log) && AllOk(n) && forall e :: Alive(n, e) ==> Alive(m, e)
    ensures Sound(n, log)
  {}

  lemma RaiseKeepsSound(m: Pools, n: Pools, log: seq<Entry>, id: int)
    requires Sound(m, log) && AllOk(n) && forall e :: e != id && Alive(n, e) ==> Alive(m, e)
    ensures Sound(n, log + [Raised(id)])
  {
    DownAppend(log, Raised(id), id);
    forall e | Down(log + [Raised(id)], e) ensures !Alive(n, e) { DownAppend(log, Raised(id), e); }
  }

  lemma KillKeepsSound(m: Pools, log: seq<Entry>, credit: Credit, amount: real)
    requires Sound(m, log) && Kills(m, credit.victim, amount) && AllOk(Deducted(m, credit.victim, amount))
    ensures Sound(Deducted(m, credit.victim, amount), log + [Killed(credit)])
  {
    var n := Deducted(m, credit.victim, amount);
    DownAppend(log, Killed(credit), credit.victim);
    forall e | Down(log + [Killed(credit)], e) ensures !Alive(n, e) { DownAppend(log, Killed(credit), e); }
  }

  lemma StrikeKeepsSound(m: Pools, log: seq<Entry>, c: nat, a: Attack, roll: Roll, rewarder: bool)
    requires Sound(m, log)
    ensures var f := Advance(m, c, a, Strike, roll, rewarder); Sound(f.pools, log + f.log)
  {
    var x := roll.Amount();
    assert log + [] == log;
    if !roll.fails && roll.hit {
      DeductKeepsRangeIff(m, a.defender, x);
      if Kills(m, a.defender, x) {
        KillKeepsSound(m, log, CreditOf(c, a), x);
      } else {
        QuietKeepsSound(m, Deducted(m, a.defender, x), log);
      }
    }
  }

  lemma AdvanceKeepsSound(m: Pools, log: seq<Entry>, c: nat, a: Attack, stage: Stage, roll: Roll, rewarder: bool)
    requires Sound(m, log) && a.maxHp >= 0.0 && a.maxMp >= 0.0
    ensures var f := Advance(m, c, a, stage, roll, rewarder); Sound(f.pools, log + f.log)
  {
    assert log + [] == log;
    match stage
    case SpendMana =>
      if a.skill.Skill? && a.skill.cost > 0.0 {
        SpendKeepsRangeIff(m, a.attacker, a.skill.cost);
        QuietKeepsSound(m, Spent(m, a.attacker, a.skill.cost), log);
      }
    case StartMob =>
      StartKeepsRangeIff(m, a.defender, a.maxHp, a.maxMp);
      RaiseKeepsSound(m, Started(m, a.defender, a.maxHp, a.maxMp), log, a.defender);
    case ReviveMob =>
      ReviveKeepsRange(m, a.defender);
      if a.defender in m { RaiseKeepsSound(m, Revived(m, a.defender), log, a.defender); }
    case Strike => StrikeKeepsSound(m, log, c, a, roll, rewarder);
    case _ =>
  }

  ghost predicate CallsOk(calls: map<nat, Call>) {
    forall c :: c in calls ==> calls[c].attack.maxHp >= 0.0 && calls[c].attack.maxMp >= 0.0
  }

  lemma StepKeepsSound(rewarder: bool, s: State, e: Event)
    requires Enabled(s, e) && Sound(s.pools, s.log) && CallsOk(s.calls)
    ensures var t := Step(rewarder, s, e); Sound(t.pools, t.log) && CallsOk(t.calls)
  {
    var m := s.pools;
    assert s.log + [] == s.log;
    match e
    case Begin(c, a) =>
    case StepOf(c, roll) => AdvanceKeepsSound(m, s.log, c, s.calls[c].attack, s.calls[c].stage, roll, rewarder);
    case Start(id, maxHp, maxMp) =>
      StartKeepsRangeIff(m, id, maxHp, maxMp);
      RaiseKeepsSound(m, Started(m, id, maxHp, maxMp), s.log, id);
    case End(id) => QuietKeepsSound(m, m - {id}, s.log);
    case Heal(id, amount) =>
      HealKeepsRangeIff(m, id, amount);
      QuietKeepsSound(m, Healed(m, id, amount), s.log);
    case DeductHP(id, amount) =>
      DeductKeepsRangeIff(m, id, amount);
      QuietKeepsSound(m, Deducted(m, id, amount), s.log);
    case SpendMP(id, amount) =>
      SpendKeepsRangeIff(m, id, amount);
      QuietKeepsSound(m, Spent(m, id, amount), s.log);
    case Revive(id) =>
      ReviveKeepsRange(m, id);
      if id in m { RaiseKeepsSound(m, Revived(m, id), s.log, id); }
  }

  // ---------------------------------------------------------- kill accounting

  predicate Due(calls: map<nat, Call>, k: Credit) {
    k.call in calls && calls[k.call].stage.RewardDue? && CreditOf(k.call, calls[k.call].attack) == k
  }

  predicate Struck(calls: map<nat, Call>, k: Credit) {
    && k.call in calls && CreditOf(k.call, calls[k.call].attack) == k
    && (calls[k.call].stage.RewardDue? || calls[k.call].stage == Resolved(true))
  }

  /** A credit is recorded once exactly if its call has struck dead, and with a
      rewarder it is either paid or due. */
  ghost predicate Accounted(rewarder: bool, calls: map<nat, Call>, log: seq<Entry>, rewards: seq<Credit>) {
    forall k: Credit :: AccountedFor(rewarder, calls, log, rewards, k)
  }

  predicate AccountedFor(rewarder: bool, calls: map<nat, Call>, log: seq<Entry>, rewards: seq<Credit>, k: Credit) {
    && Count(Killed(k), log) == (if Struck(calls, k) then 1 else 0)
    && Count(k, rewards) + (if Due(calls, k) then 1 else 0) == (if rewarder then Count(Killed(k), log) else 0)
  }

  lemma CountNoKill(log: seq<Entry>, f: seq<Entry>, k: Credit)
    requires |f| <= 1 && (f != [] ==> f[0].Raised?)
    ensures Count(Killed(k), log + f) == Count(Killed(k), log)
  {
    if f != [] {
      assert f == [f[0]];
      CountAppend(Killed(k), log, f[0]);
    } else {
      assert log + f == log;
    }
  }

  /** An effect that neither credits nor pays, on a call that stays as struck as
      it was. */
  ghost predicate Quiet(before: Stage, f: Effect) {
    && f.paid == [] && |f.log| <= 1 && (f.log != [] ==> f.log[0].Raised?)
    && !f.stage.RewardDue? && (f.stage == Resolved(true) <==> before == Resolved(true))
  }

  lemma AdvanceIsQuiet(m: Pools, c: nat, a: Attack, stage: Stage, roll: Roll, rewarder: bool)
    requires (stage.Strike? ==> roll.fails) && !stage.RewardDue?
    ensures Quiet(stage, Advance(m, c, a, stage, roll, rewarder))
  {
  }

  lemma QuietMoveAccounts(rewarder: bool, s: State, c: nat, f: Effect)
    requires c in s.calls && Accounted(rewarder, s.calls, s.log, s.rewards) && !s.calls[c].stage.RewardDue? && Quiet(s.calls[c].stage, f)
    ensures Accounted(rewarder, Moved(s, c, f).calls, Moved(s, c, f).log, Moved(s, c, f).rewards)
  {
    var t := Moved(s, c, f);
    assert s.rewards + [] == s.rewards;
    forall k: Credit ensures AccountedFor(rewarder, t.calls, t.log, t.rewards, k) {
      assert AccountedFor(rewarder, s.calls, s.log, s.rewards, k);
      CountNoKill(s.log, f.log, k);
      assert Struck(t.calls, k) == Struck(s.calls, k) && Due(t.calls, k) == Due(s.calls, k);
    }
  }

  /** Steps before the strike, a strike that cannot be calculated and steps of
      finished calls neither credit nor pay. */
  lemma QuietAccounts(rewarder: bool, s: State, c: nat, roll: Roll)
    requires c in s.calls && Accounted(rewarder, s.calls, s.log, s.rewards)
    requires (s.calls[c].stage.Strike? ==> roll.fails) && !s.calls[c].stage.RewardDue?
    ensures var t := Step(rewarder, s, StepOf(c, roll)); Accounted(rewarder, t.calls, t.log, t.rewards)
  {
    var call := s.calls[c];
    AdvanceIsQuiet(s.pools, c, call.attack, call.stage, roll, rewarder);
    QuietMoveAccounts(rewarder, s, c, Advance(s.pools, c, call.attack, call.stage, roll, rewarder));
  }

  lemma StrikeAccounts(rewarder: bool, s: State, c: nat, roll: Roll)
    requires c in s.calls && Accounted(rewarder, s.calls, s.log, s.rewards)
    requires s.calls[c].stage.Strike? && !roll.fails
    ensures var t := Step(rewarder, s, StepOf(c, roll)); Accounted(rewarder, t.calls, t.log, t.rewards)
  {
    var own := CreditOf(c, s.calls[c].attack);
    var killed := roll.hit && Kills(s.pools, own.victim, roll.Amount());
    assert s.rewards + [] == s.rewards && s.log + [] == s.log;
    var calls := s.calls[c := s.calls[c].(stage := AfterStrike(killed, rewarder))];
    var log := if killed then s.log + [Killed(own)] else s.log;
    forall k: Credit ensures AccountedFor(rewarder, calls, log, s.rewards, k) {
      KillAccounts(rewarder, s.calls, s.log, s.rewards, c, killed, k);
    }
  }

  lemma KillAccounts(rewarder: bool, calls: map<nat, Call>, log: seq<Entry>, rewards: seq<Credit>, c: nat, killed: bool, k: Credit)
    requires c in calls && calls[c].stage.Strike? && AccountedFor(rewarder, calls, log, rewards, k)
    ensures AccountedFor(rewarder, calls[c := calls[c].(stage := AfterStrike(killed, rewarder))],
                         if killed then log + [Killed(CreditOf(c, calls[c].attack))] else log, rewards, k)
  {
    var own, after := CreditOf(c, calls[c].attack), calls[c := calls[c].(stage := AfterStrike(killed, rewarder))];
    CountAppend(Killed(k), log, Killed(own));
    assert k != own ==> Struck(after, k) == Struck(calls, k) && Due(after, k) == Due(calls, k);
  }

  lemma RewardAccounts(rewarder: bool, s: State, c: nat, roll: Roll)
    requires c in s.calls && Accounted(rewarder, s.calls, s.log, s.rewards)
    requires s.calls[c].stage.RewardDue?
    ensures var t := Step(rewarder, s, StepOf(c, roll)); Accounted(rewarder, t.calls, t.log, t.rewards)
  {
    var call := s.calls[c];
    var t := Step(rewarder, s, StepOf(c, roll));
    var own := CreditOf(c, call.attack);
    assert s.log + [] == s.log;
    forall k: Credit ensures AccountedFor(rewarder, t.calls, t.log, t.rewards, k) {
      assert AccountedFor(rewarder, s.calls, s.log, s.rewards, k);
      CountAppend(k, s.rewards, own);
      assert k != own ==> Struck(t.calls, k) == Struck(s.calls, k) && Due(t.calls, k) == Due(s.calls, k);
      assert Struck(s.calls, own) && Due(s.calls, own) && Struck(t.calls, own) && !Due(t.calls, own);
    }
  }

  lemma RaiseAccounts(rewarder: bool, s: State, f: seq<Entry>)
    requires Accounted(rewarder, s.calls, s.log, s.rewards) && |f| <= 1 && (f != [] ==> f[0].Raised?)
    ensures Accounted(rewarder, s.calls, s.log + f, s.rewards)
  {
    forall k: Credit ensures AccountedFor(rewarder, s.calls, s.log + f, s.rewards, k) {
      assert AccountedFor(rewarder, s.calls, s.log, s.rewards, k);
      CountNoKill(s.log, f, k);
    }
  }

  lemma BeginAccounts(rewarder: bool, s: State, c: nat, a: Attack)
    requires Accounted(rewarder, s.calls, s.log, s.rewards) && c !in s.calls
    ensures Accounted(rewarder, s.calls[c := Call(a, CheckAttacker)], s.log, s.rewards)
  {
    var calls := s.calls[c := Call(a, CheckAttacker)];
    forall k: Credit ensures AccountedFor(rewarder, calls, s.log, s.rewards, k) {
      assert AccountedFor(rewarder, s.calls, s.log, s.rewards, k);
      assert Struck(calls, k) == Struck(s.calls, k) && Due(calls, k) == Due(s.calls, k);
    }
  }

  lemma StepKeepsAccounts(rewarder: bool, s: State, e: Event)
    requires Enabled(s, e) && Accounted(rewarder, s.calls, s.log, s.rewards)
    ensures var t := Step(rewarder, s, e); Accounted(rewarder, t.calls, t.log, t.rewards)
  {
    match e
    case Begin(c, a) => BeginAccounts(rewarder, s, c, a);
    case StepOf(c, roll) =>
      if s.calls[c].stage.Strike? && !roll.fails { StrikeAccounts(rewarder, s, c, roll); }
      else if s.calls[c].stage.RewardDue? { RewardAccounts(rewarder, s, c, roll); }
      else { QuietAccounts(rewarder, s, c, roll); }
    case Start(id, _, _) => RaiseAccounts(rewarder, s, [Raised(id)]);
    case Revive(id) => RaiseAccounts(rewarder, s, if id in s.pools then [Raised(id)] else []);
    case _ =>
  }

  ghost predicate Inv(rewarder: bool, s: State) {
    Sound(s.pools, s.log) && CallsOk(s.calls) && Accounted(rewarder, s.calls, s.log, s.rewards)
  }

  lemma {:induction false} RunKeepsInv(rewarder: bool, s: State, es: seq<Event>)
    requires Inv(rewarder, s) && ValidRun(rewarder, s, es)
    ensures Inv(rewarder, Run(rewarder, s, es))
    decreases |es|
  {
    if |es| != 0 {
      StepKeepsSound(rewarder, s, es[0]);
      StepKeepsAccounts(rewarder, s, es[0]);
      RunKeepsInv(rewarder, Step(rewarder, s, es[0]), es[1..]);
    }
  }

  // --------------------------------------------------------------- theorems

  lemma {:induction false} DownUntilRaised(log: seq<Entry>, i: nat)
    requires i < |log| && log[i].Killed? && forall k :: i < k < |log| ==> log[k] != Raised(log[i].credit.victim)
    ensures Down(log, log[i].credit.victim)
    decreases |log|
  {
    if i < |log| - 1 { DownUntilRaised(log[..|log| - 1], i); }
  }

  lemma {:induction false} SeparatedAt(log: seq<Entry>, j: nat)
    requires Separated(log) && j < |log| && log[j].Killed?
    ensures !Down(log[..j], log[j].credit.victim)
    decreases |log|
  {
    if j < |log| - 1 {
      SeparatedAt(log[..|log| - 1], j);
      assert log[..|log| - 1][..j] == log[..j];
    }
  }

  /** In every interleaving, two credited kills of one entity have a Start or
      Revive of it in between, the automatic revival of mobs included. */
  lemma KillsAreSeparated(rewarder: bool, es: seq<Event>, i: nat, j: nat)
    requires ValidRun(rewarder, Init, es)
    requires var log := Run(rewarder, Init, es).log;
      i < j < |log| && log[i].Killed? && log[j].Killed? && log[i].credit.victim == log[j].credit.victim
    ensures var log := Run(rewarder, Init, es).log;
      exists k :: i < k < j && log[k] == Raised(log[j].credit.victim)
  {
    var log := Run(rewarder, Init, es).log;
    RunKeepsInv(rewarder, Init, es);
    SeparatedAt(log, j);
    if forall k :: i < k < j ==> log[k] != Raised(log[j].credit.victim) { DownUntilRaised(log[..j], i); }
  }

  /** RewardKill runs exactly once per credited kill once the attack is over,
      never otherwise, and names the killer and victim; without a rewarder it
      never runs. */
  lemma RewardedExactlyOnce(rewarder: bool, es: seq<Event>, k: Credit)
    requires ValidRun(rewarder, Init, es)
    ensures var t := Run(rewarder, Init, es);
      && Count(Killed(k), t.log) <= 1 && Count(k, t.rewards) <= Count(Killed(k), t.log)
      && (rewarder && !Due(t.calls, k) ==> Count(k, t.rewards) == Count(Killed(k), t.log))
      && (!rewarder ==> k !in t.rewards)
      && (k in t.rewards ==>
            k.call in t.calls && CreditOf(k.call, t.calls[k.call].attack) == k && t.calls[k.call].stage == Resolved(true))
  {
    RunKeepsInv(rewarder, Init, es);
    var t := Run(rewarder, Init, es);
    assert AccountedFor(rewarder, t.calls, t.log, t.rewards, k);
  }

  /** Health and mana stay in range and the dead have no health. */
  lemma PoolsStayInRange(rewarder: bool, es: seq<Event>, id: int)
    requires ValidRun(rewarder, Init, es)
    ensures var m := Run(rewarder, Init, es).pools;
      id in m ==> 0.0 <= m[id].hp <= m[id].maxHp && 0.0 <= m[id].mp <= m[id].maxMp && (m[id].dead ==> m[id].hp == 0.0)
  {
    RunKeepsInv(rewarder, Init, es);
  }

  // ------------------------------------------------------ the code's own form

  function Rank(stage: Stage): nat {
    match stage
    case CheckAttacker => 7
    case SpendMana => 6
    case ReadDefender => 5
    case StartMob => 4
    case ReviveMob => 4
    case RereadMob => 3
    case Strike => 2
    case RewardDue => 1
    case _ => 0
  }

  function Both(f: Effect, g: Effect): Effect { Effect(g.pools, g.stage, f.log + g.log, f.paid + g.paid) }

  /** A call's steps to its end with nothing in between. */
  function Solo(m: Pools, c: nat, a: Attack, stage: Stage, roll: Roll, rewarder: bool): Effect
    decreases Rank(stage)
  {
    if Rank(stage) == 0 then Effect(m, stage, [], [])
    else
      var f := Advance(m, c, a, stage, roll, rewarder);
      var g := Solo(f.pools, c, a, f.stage, roll, rewarder);
      Both(f, g)
  }

  function StepsOf(c: nat, roll: Roll, n: nat): seq<Event> {
    if n == 0 then [] else [StepOf(c, roll)] + StepsOf(c, roll, n - 1)
  }

  lemma MovedTwice(s: State, c: nat, f: Effect, g: Effect)
    requires c in s.calls
    ensures Moved(Moved(s, c, f), c, g) == Moved(s, c, Both(f, g))
  {
    assert (s.log + f.log) + g.log == s.log + (f.log + g.log);
    assert (s.rewards + f.paid) + g.paid == s.rewards + (f.paid + g.paid);
    assert s.calls[c := s.calls[c].(stage := f.stage)][c := s.calls[c].(stage := g.stage)] == s.calls[c := s.calls[c].(stage := g.stage)];
  }

  lemma MovedNowhere(s: State, c: nat)
    requires c in s.calls
    ensures Moved(s, c, Effect(s.pools, s.calls[c].stage, [], [])) == s
  {
    assert s.calls[c := s.calls[c]] == s.calls;
  }

  /** An attack running alone is one of the machine's runs. */
  lemma {:induction false} SoloIsRun(rewarder: bool, s: State, c: nat, roll: Roll, n: nat)
    requires c in s.calls && n >= Rank(s.calls[c].stage)
    ensures ValidRun(rewarder, s, StepsOf(c, roll, n))
    ensures Run(rewarder, s, StepsOf(c, roll, n)) == Moved(s, c, Solo(s.pools, c, s.calls[c].attack, s.calls[c].stage, roll, rewarder))
    decreases n
  {
    var call := s.calls[c];
    MovedNowhere(s, c);
    if n != 0 {
      var f := Advance(s.pools, c, call.attack, call.stage, roll, rewarder);
      AdvanceDescends(s.pools, c, call.attack, call.stage, roll, rewarder);
      var u := Moved(s, c, f);
      SoloIsRun(rewarder, u, c, roll, n - 1);
      assert StepsOf(c, roll, n)[1..] == StepsOf(c, roll, n - 1);
      MovedTwice(s, c, f, Solo(f.pools, c, call.attack, f.stage, roll, rewarder));
    }
  }

  lemma AdvanceDescends(m: Pools, c: nat, a: Attack, stage: Stage, roll: Roll, rewarder: bool)
    ensures var f := Advance(m, c, a, stage, roll, rewarder);
      if Rank(stage) == 0 then f == Effect(m, stage, [], []) else Rank(f.stage) < Rank(stage)
  {}

  // ----------------------------------- an attack in the terms of its request

  predicate Lives(m: Pools, id: int) { id in m && !m[id].dead }

  /** Nothing stands against the attacker itself. */
  predicate Acts(m: Pools, a: Attack) { !a.vetoed && a.attackerKnown && !(a.attacker in m && m[a.attacker].dead) }

  /** The mana an attack costs. */
  function Cost(a: Attack): real { if a.skill.Skill? && a.skill.cost > 0.0 then a.skill.cost else 0.0 }

  predicate Affords(m: Pools, a: Attack) { Cost(a) > 0.0 ==> a.attacker in m && m[a.attacker].mp >= Cost(a) }

  predicate Ready(m: Pools, a: Attack) { Acts(m, a) && (a.skill.NoSkill? || a.skill.Skill?) && Affords(m, a) }

  /** The defender can be struck: a mob always, a player who is there and lives. */
  predicate Goes(m: Pools, a: Attack) { Ready(m, a) && a.defenderKnown && (a.mob || Lives(m, a.defender)) }

  /** Which attacks are refused, and why. */
  predicate Verdict(m: Pools, a: Attack, roll: Roll, stage: Stage) {
    && (stage == Refused(Vetoed) <==> a.vetoed)
    && (stage == Refused(AttackerNotFound) <==> !a.vetoed && !a.attackerKnown)
    && (stage == Refused(AttackerDead) <==> !a.vetoed && a.attackerKnown && a.attacker in m && m[a.attacker].dead)
    && (stage == Refused(UnknownSkill) <==> Acts(m, a) && a.skill.NoSuchSkill?)
    && (stage == Refused(SkillClassMismatch) <==> Acts(m, a) && a.skill.OtherClassSkill?)
    && (stage == Refused(NotEnoughMana) <==> Acts(m, a) && a.skill.Skill? && !Affords(m, a))
    && (stage == Refused(DefenderNotFound) <==> Ready(m, a) && (!a.defenderKnown || (!a.mob && a.defender !in m)))
    && (stage == Refused(DefenderDead) <==> Ready(m, a) && a.defenderKnown && !a.mob && a.defender in m && m[a.defender].dead)
    && (stage == Refused(DamageFailed) <==> Goes(m, a) && roll.fails)
    && (stage.Resolved? <==> Goes(m, a) && !roll.fails)
    && (stage == Resolved(true) <==> Goes(m, a) && Fells(m, a, roll))
  }

  /** The defender's health when it is struck: full if it had to be raised. */
  function Standing(m: Pools, a: Attack): real {
    if a.defender !in m then a.maxHp else if m[a.defender].dead then m[a.defender].maxHp else m[a.defender].hp
  }

  /** The roll lands and takes all that is left. */
  predicate Fells(m: Pools, a: Attack, roll: Roll) {
    !roll.fails && roll.hit && Standing(m, a) <= (if roll.damage < 0 then 0 else roll.damage) as real
  }

  /** Only the mana is gone: the pools of an attack that did not reach anyone. */
  predicate Charged(m: Pools, a: Attack, p: Pools, id: int) {
    id in m ==> id in p && p[id] == m[id].(mp := m[id].mp - if id == a.attacker then Cost(a) else 0.0)
  }

  /** The defender of an attack that went through. */
  predicate DefenderAfter(m: Pools, a: Attack, roll: Roll, p: Pools) {
    a.defender in p &&
    var d, was := p[a.defender], if a.defender in m then m[a.defender] else Pool(a.maxHp, a.maxHp, a.maxMp, a.maxMp, false);
    && d.maxHp == was.maxHp && d.maxMp == was.maxMp
    && d.mp == was.mp - (if a.defender == a.attacker then Cost(a) else 0.0)
    && (d.dead <==> Fells(m, a, roll))
    && d.hp == (if roll.fails || !roll.hit then Standing(m, a)
                else if Fells(m, a, roll) then 0.0
                else Standing(m, a) - (if roll.damage < 0 then 0 else roll.damage) as real)
  }

  /** What an attack does to the pools. */
  ghost predicate Outcome(m: Pools, a: Attack, roll: Roll, p: Pools) {
    && (!Ready(m, a) ==> p == m)
    && (Ready(m, a) && !Goes(m, a) ==> p.Keys == m.Keys && forall id :: Charged(m, a, p, id))
    && (Goes(m, a) ==>
          && p.Keys == m.Keys + {a.defender} && DefenderAfter(m, a, roll, p)
          && forall id :: id != a.defender ==> Charged(m, a, p, id))
  }

  /** The pools after the mana is spent. */
  function Paid(m: Pools, a: Attack): Pools { if Cost(a) > 0.0 then Spent(m, a.attacker, Cost(a)) else m }

  lemma PaidMeans(m: Pools, a: Attack)
    requires Ready(m, a)
    ensures Paid(m, a).Keys == m.Keys && forall id :: Charged(m, a, Paid(m, a), id)
    ensures forall id :: Lives(Paid(m, a), id) <==> Lives(m, id)
    ensures Standing(Paid(m, a), a) == Standing(m, a)
  {
  }

  lemma AttackerMeans(m: Pools, c: nat, a: Attack, roll: Roll, rewarder: bool)
    ensures var f := Solo(m, c, a, CheckAttacker, roll, rewarder);
      if Ready(m, a) then f == Solo(Paid(m, a), c, a, ReadDefender, roll, rewarder)
      else
        && f.pools == m && f.log == [] && f.paid == []
        && f.stage == Refused(if a.vetoed then Vetoed else if !a.attackerKnown then AttackerNotFound
                              else if !Acts(m, a) then AttackerDead else if a.skill.NoSuchSkill? then UnknownSkill
                              else if a.skill.OtherClassSkill? then SkillClassMismatch else NotEnoughMana)
  {
    SoloQuiet(m, c, a, CheckAttacker, roll, rewarder);
    SoloQuiet(m, c, a, SpendMana, roll, rewarder);
  }

  /** The pools when the strike comes. */
  function Faced(m: Pools, a: Attack): Pools {
    if a.defender !in m then Started(m, a.defender, a.maxHp, a.maxMp)
    else if m[a.defender].dead then Revived(m, a.defender) else m
  }

  lemma DefenderMeans(m: Pools, c: nat, a: Attack, roll: Roll, rewarder: bool)
    ensures var f := Solo(m, c, a, ReadDefender, roll, rewarder);
      if a.defenderKnown && (a.mob || Lives(m, a.defender)) then
        var g := Solo(Faced(m, a), c, a, Strike, roll, rewarder);
        && f.pools == g.pools && f.stage == g.stage && f.paid == g.paid
        && f.log == (if Lives(m, a.defender) then [] else [Raised(a.defender)]) + g.log
      else
        && f.pools == m && f.log == [] && f.paid == []
        && f.stage == Refused(if !a.defenderKnown || a.defender !in m then DefenderNotFound else DefenderDead)
  {
    SoloQuiet(m, c, a, ReadDefender, roll, rewarder);
    var f := Solo(m, c, a, ReadDefender, roll, rewarder);
    assert [] + f.log == f.log;
    if a.mob && a.defenderKnown && !Lives(m, a.defender) {
      var g := Solo(Faced(m, a), c, a, Strike, roll, rewarder);
      SoloQuiet(Faced(m, a), c, a, RereadMob, roll, rewarder);
      assert [] + g.paid == g.paid;
    }
  }

  lemma StrikeMeans(m: Pools, c: nat, a: Attack, roll: Roll, rewarder: bool)
    requires Lives(m, a.defender)
    ensures var f := Solo(m, c, a, Strike, roll, rewarder);
      && f.stage == (if roll.fails then Refused(DamageFailed) else Resolved(Fells(m, a, roll)))
      && f.log == (if Fells(m, a, roll) then [Killed(Credit(c, a.attacker, a.defender))] else [])
      && f.paid == (if Fells(m, a, roll) && rewarder then [Credit(c, a.attacker, a.defender)] else [])
      && f.pools == (if roll.fails || !roll.hit then m else m[a.defender := Hurt(m[a.defender], roll.Amount())])
  {
  }

  /** The state when the strike comes, in the terms of the state before. */
  lemma FacedMeans(m: Pools, a: Attack)
    requires Goes(m, a)
    ensures var q := Faced(Paid(m, a), a);
      && q.Keys == m.Keys + {a.defender} && Lives(q, a.defender) && Standing(q, a) == Standing(m, a)
      && (forall id :: id != a.defender ==> Charged(m, a, q, id))
      && var d, was := q[a.defender], if a.defender in m then m[a.defender] else Pool(a.maxHp, a.maxHp, a.maxMp, a.maxMp, false);
         && d.maxHp == was.maxHp && d.maxMp == was.maxMp && d.hp == Standing(m, a)
         && d.mp == was.mp - (if a.defender == a.attacker then Cost(a) else 0.0)
  {
    PaidMeans(m, a);
    assert Charged(m, a, Paid(m, a), a.defender);
    assert Lives(Paid(m, a), a.defender) <==> Lives(m, a.defender);
    forall id | id != a.defender ensures Charged(m, a, Faced(Paid(m, a), a), id) {
      assert Charged(m, a, Paid(m, a), id);
    }
  }

  lemma AttackPools(m: Pools, c: nat, a: Attack, roll: Roll, rewarder: bool)
    requires Goes(m, a)
    ensures Outcome(m, a, roll, Solo(Faced(Paid(m, a), a), c, a, Strike, roll, rewarder).pools)
  {
    var q := Faced(Paid(m, a), a);
    var p := Solo(q, c, a, Strike, roll, rewarder).pools;
    FacedMeans(m, a);
    StrikeMeans(q, c, a, roll, rewarder);
    assert Fells(q, a, roll) == Fells(m, a, roll);
    assert p.Keys == q.Keys;
    forall id | id != a.defender ensures Charged(m, a, p, id) { assert Charged(m, a, q, id); }
  }

  /** A whole attack with nothing in between. */
  lemma AttackMeans(m: Pools, c: nat, a: Attack, roll: Roll, rewarder: bool)
    ensures var f := Solo(m, c, a, CheckAttacker, roll, rewarder);
      && Verdict(m, a, roll, f.stage) && Outcome(m, a, roll, f.pools)
      && f.log == (if Goes(m, a) && !Lives(m, a.defender) then [Raised(a.defender)] else []) +
                  (if f.stage == Resolved(true) then [Killed(Credit(c, a.attacker, a.defender))] else [])
      && f.paid == (if f.stage == Resolved(true) && rewarder then [Credit(c, a.attacker, a.defender)] else [])
  {
    AttackerMeans(m, c, a, roll, rewarder);
    if Ready(m, a) {
      PaidMeans(m, a);
      assert Lives(Paid(m, a), a.defender) <==> Lives(m, a.defender);
      DefenderMeans(Paid(m, a), c, a, roll, rewarder);
      if Goes(m, a) {
        FacedMeans(m, a);
        StrikeMeans(Faced(Paid(m, a), a), c, a, roll, rewarder);
        assert Fells(Faced(Paid(m, a), a), a, roll) == Fells(m, a, roll);
        AttackPools(m, c, a, roll, rewarder);
      }
    }
  }

  class CombatService {
    const registry: Registry
    const hasRewarder: bool
    var rewards: seq<Credit>

    constructor (registry: Registry, hasRewarder: bool)
      ensures this.registry == registry && this.hasRewarder == hasRewarder && rewards == []
    {
      this.registry, this.hasRewarder, rewards := registry, hasRewarder, [];
    }

    /** The hook's veto, the attacker and skill lookups and the mana spend. */
    method ResolveAttacker(c: nat, a: Attack, roll: Roll) returns (stage: Stage)
      modifies registry
      ensures stage == ReadDefender || stage.Refused?
      ensures stage == ReadDefender <==> Ready(old(registry.pools), a)
      ensures stage == Refused(AttackerDead) <==>
        !a.vetoed && a.attackerKnown && a.attacker in old(registry.pools) && old(registry.pools)[a.attacker].dead
      ensures registry.pools == if stage.Refused? then old(registry.pools) else Paid(old(registry.pools), a)
      ensures Solo(old(registry.pools), c, a, CheckAttacker, roll, hasRewarder) == Solo(registry.pools, c, a, stage, roll, hasRewarder)
    {
      ghost var m := registry.pools;
      SoloQuiet(m, c, a, CheckAttacker, roll, hasRewarder);
      SoloQuiet(m, c, a, SpendMana, roll, hasRewarder);
      if a.vetoed { return Refused(Vetoed); }
      if !a.attackerKnown { return Refused(AttackerNotFound); }
      var sess := registry.Get(a.attacker);
      if sess.Some? && sess.value.dead { return Refused(AttackerDead); }
      if a.skill.NoSuchSkill? { return Refused(UnknownSkill); }
      if a.skill.OtherClassSkill? { return Refused(SkillClassMismatch); }
      if a.skill.Skill? && a.skill.cost > 0.0 {
        var ok := registry.SpendMP(a.attacker, a.skill.cost);
        if !ok { return Refused(NotEnoughMana); }
      }
      return ReadDefender;
    }

    /** The session lookup, with a mob's start and automatic revival. */
    method ResolveDefender(c: nat, a: Attack, roll: Roll) returns (stage: Stage, raised: bool)
      modifies registry
      ensures stage.Strike? || stage.Refused?
      ensures var was, now := Solo(old(registry.pools), c, a, ReadDefender, roll, hasRewarder), Solo(registry.pools, c, a, stage, roll, hasRewarder);
        && was.pools == now.pools && was.stage == now.stage && was.paid == now.paid
        && was.log == (if raised then [Raised(a.defender)] else []) + now.log
    {
      ghost var m := registry.pools;
      SoloQuiet(m, c, a, ReadDefender, roll, hasRewarder);
      raised := false;
      if !a.defenderKnown { return Refused(DefenderNotFound), false; }
      var sess := registry.Get(a.defender);
      if a.mob {
        if sess.None? {
          var _ := registry.Start(a.defender, a.maxHp, a.maxMp);
          raised := true;
        } else if sess.value.dead {
          var _ := registry.Revive(a.defender);
          SoloQuiet(registry.pools, c, a, RereadMob, roll, hasRewarder);
          sess := registry.Get(a.defender);
          raised := true;
        }
        return Strike, raised;
      }
      if sess.None? { return Refused(DefenderNotFound), false; }
      if sess.value.dead { return Refused(DefenderDead), false; }
      return Strike, false;
    }

    /** The damage, the deduction and the reward it reserves. */
    method ApplyDamage(c: nat, a: Attack, roll: Roll) returns (stage: Stage)
      modifies registry, this`rewards
      ensures var f := Solo(old(registry.pools), c, a, Strike, roll, hasRewarder);
        && registry.pools == f.pools && f.stage == stage && rewards == old(rewards) + f.paid
        && f.log == (if stage == Resolved(true) then [Killed(CreditOf(c, a))] else [])
    {
      if roll.fails { return Refused(DamageFailed); }
      var killed := false;
      if roll.hit {
        var _, _, k := registry.DeductAndReserveKill(a.defender, roll.Amount());
        killed := k;
      }
      if killed && hasRewarder { rewards := rewards + [CreditOf(c, a)]; }
      return Resolved(killed);
    }

    /** An attack with nothing in between: who is refused and why, what it does to
        the pools, what is recorded and what is paid. */
    method ExecuteAttack(c: nat, a: Attack, roll: Roll) returns (stage: Stage, ghost log: seq<Entry>)
      modifies registry, this`rewards
      ensures Verdict(old(registry.pools), a, roll, stage)
      ensures Outcome(old(registry.pools), a, roll, registry.pools)
      ensures log == (if Goes(old(registry.pools), a) && !Lives(old(registry.pools), a.defender) then [Raised(a.defender)] else []) +
                     (if stage == Resolved(true) then [Killed(Credit(c, a.attacker, a.defender))] else [])
      ensures rewards == old(rewards) + if stage == Resolved(true) && hasRewarder then [Credit(c, a.attacker, a.defender)] else []
    {
      AttackMeans(registry.pools, c, a, roll, hasRewarder);
      stage, log := RunAttack(c, a, roll);
    }

    /** Its calls in order are the machine's solo run. */
    method RunAttack(c: nat, a: Attack, roll: Roll) returns (stage: Stage, ghost log: seq<Entry>)
      modifies registry, this`rewards
      ensures var f := Solo(old(registry.pools), c, a, CheckAttacker, roll, hasRewarder);
        registry.pools == f.pools && stage == f.stage && log == f.log && rewards == old(rewards) + f.paid
    {
      log := [];
      stage := ResolveAttacker(c, a, roll);
      if stage.Refused? { return; }
      var raised;
      stage, raised := ResolveDefender(c, a, roll);
      if raised { log := [Raised(a.defender)]; }
      if stage.Refused? { return; }
      stage := ApplyDamage(c, a, roll);
      if stage == Resolved(true) { log := log + [Killed(CreditOf(c, a))]; }
    }
  }

  lemma AdvanceQuietly(m: Pools, c: nat, a: Attack, stage: Stage, roll: Roll, rewarder: bool)
    requires stage.CheckAttacker? || stage.SpendMana? || stage.ReadDefender? || stage.RereadMob?
    ensures Advance(m, c, a, stage, roll, rewarder).log == [] && Advance(m, c, a, stage, roll, rewarder).paid == []
  {
  }

  lemma BothQuietly(f: Effect, g: Effect)
    requires f.log == [] && f.paid == []
    ensures Both(f, g) == g
  {
    assert [] + g.log == g.log && [] + g.paid == g.paid;
  }

  /** A step that records nothing does not show in the solo effect. */
  lemma SoloQuiet(m: Pools, c: nat, a: Attack, stage: Stage, roll: Roll, rewarder: bool)
    requires stage.CheckAttacker? || stage.SpendMana? || stage.ReadDefender? || stage.RereadMob?
    ensures var f := Advance(m, c, a, stage, roll, rewarder);
      Solo(m, c, a, stage, roll, rewarder) == Solo(f.pools, c, a, f.stage, roll, rewarder)
  {
    var f := Advance(m, c, a, stage, roll, rewarder);
    AdvanceQuietly(m, c, a, stage, roll, rewarder);
    BothQuietly(f, Solo(f.pools, c, a, f.stage, roll, rewarder));
  }
}
