/** AddItem and MoveItem as goroutines, interleaved statement by statement under
    the per-character lock. Each SQL statement is one step that any other
    goroutine's statement may precede or follow; any statement may fail, and a
    failing write may have been applied all the same; a failure inside Swap's
    transaction before its commit rolls that character's rows back. Levels
    may rise at any moment, also between the two equipment checks of one move.

    The result: every run is a sequential run of the calls, per character, in
    the order in which they released the lock. */
module InventoryRuns {
  import opened Common
  import opened Inventory
  import K = KeyedMutex

  type Char = int

  datatype Stage =
    | Pending                        // lock not yet held
    | AddList                        // before ListByCharacter
    | AddPick(occupied: set<int>)    // before the search
    | AddInsert(slot: int)           // before INSERT
    | MoveFetch                      // before the bounds check and GetBySlot(from)
    | MoveEquip                      // before the equipment rules for `to`
    | MoveDest                       // before GetBySlot(to)
    | MovePlain                      // before the single UPDATE
    | MoveBack                       // before the rules for the returning item
    | Swap1 | Swap2 | Swap3          // before each UPDATE of the transaction
    | Finished(outcome: Outcome, took: bool)   // what was reported, and whether the call had its effect

  /** A call in progress. `start` is the bag when the lock was taken. */
  datatype Task = Task(owner: Char, op: Op, stage: Stage, start: Bag, id: RowId, levelTo: int, levelBack: int)

  datatype Done = Done(call: Call, outcome: Outcome, took: bool)

  function CallOf(k: Task, cls: string): Call { Call(k.op, k.id, cls, k.levelTo, k.levelBack) }

  // ----------------------------------------------------- one call's steps

  function First(op: Op): Stage { if op.Add? then AddList else MoveFetch }

  /** The next statement of a call that holds its lock. */
  ghost function Statement(bag: Bag, k: Task, level: int, cls: string, next: RowId): (Bag, Task)
    requires !k.stage.Pending? && !k.stage.Finished?
    requires k.op.Add? <==> k.stage.AddList? || k.stage.AddPick? || k.stage.AddInsert?
  {
    match k.stage
    case AddList => (bag, k.(stage := AddPick(Slots(bag))))
    case AddPick(occupied) =>
      var slot := FirstFree(occupied);
      (bag, k.(stage := if slot == -1 then Finished(Some(SlotOutOfBounds), true) else AddInsert(slot)))
    case AddInsert(slot) => (bag[next := Row(slot, k.op.item)], k.(id := next, stage := Finished(None, true)))
    case MoveFetch =>
      (bag, k.(stage :=
        if !IsValidSlot(k.op.from) || !IsValidSlot(k.op.to) then Finished(Some(SlotOutOfBounds), true)
        else if !Occupied(bag, k.op.from) then Finished(Some(ItemNotFound), true)
        else MoveEquip))
    case MoveEquip =>
      var verdict := if IsEquipmentSlot(k.op.to) && Occupied(bag, k.op.from)
                     then Validate(ItemAt(bag, k.op.from), k.op.to, level, cls) else None;
      (bag, k.(levelTo := level, stage := if verdict.Some? then Finished(verdict, true) else MoveDest))
    case MoveDest =>
      (bag, k.(stage :=
        if !Occupied(bag, k.op.to) then MovePlain
        else if IsEquipmentSlot(k.op.from) && IsEquipmentSlot(k.op.to) then MoveBack
        else Swap1))
    case MovePlain =>
      (Relabel(bag, k.op.from, k.op.to),
       k.(stage := Finished(if Occupied(bag, k.op.from) then None else Some(ItemNotFound), true)))
    case MoveBack =>
      var verdict := if Occupied(bag, k.op.to)
                     then Validate(ItemAt(bag, k.op.to), k.op.from, level, cls) else None;
      (bag, k.(levelBack := level, stage := if verdict.Some? then Finished(verdict, true) else Swap1))
    case Swap1 => (Relabel(bag, k.op.from, PARKING_SLOT), k.(stage := Swap2))
    case Swap2 => (Relabel(bag, k.op.to, k.op.from), k.(stage := Swap3))
    case Swap3 => (Relabel(bag, PARKING_SLOT, k.op.to), k.(stage := Finished(None, true)))
  }

  datatype Fault = NoFault | NotApplied | AppliedButFailed

  /** The write that completes a call's effect; Swap's last update stands for its
      commit too. */
  predicate Completes(stage: Stage) { stage.AddInsert? || stage.MovePlain? || stage.Swap3? }

  /** Whether a statement takes effect; a fault of any other statement than the
      completing write leaves nothing behind. */
  predicate Applies(fault: Fault, stage: Stage) { fault.NoFault? || (fault.AppliedButFailed? && Completes(stage)) }

  /** A failed statement: the call ends; a transaction in progress rolls back. */
  function Failure(bag: Bag, k: Task): (Bag, Task) {
    (if k.stage.Swap2? || k.stage.Swap3? then k.start else bag, k.(stage := Finished(Some(StoreFailure), false)))
  }

  /** A completing write that was applied and reported as failed. */
  function Unreported(k: Task): Task { k.(stage := Finished(Some(StoreFailure), true)) }

  // ------------------------------------ how far a call has come, precisely

  ghost predicate Fetched(k: Task) {
    k.op.Move? && IsValidSlot(k.op.from) && IsValidSlot(k.op.to) && Occupied(k.start, k.op.from)
  }

  ghost predicate Equipped(k: Task, cls: string) {
    Fetched(k) && (IsEquipmentSlot(k.op.to) ==> Validate(ItemAt(k.start, k.op.from), k.op.to, k.levelTo, cls).None?)
  }

  ghost predicate Swapping(k: Task, cls: string) {
    && Equipped(k, cls) && Occupied(k.start, k.op.to)
    && (IsEquipmentSlot(k.op.from) && IsEquipmentSlot(k.op.to) ==>
          Validate(ItemAt(k.start, k.op.to), k.op.from, k.levelBack, cls).None?)
  }

  /** The bag as this call has left it so far, in terms of the bag it found. */
  ghost function Partial(k: Task): Bag {
    if k.stage.Swap2? && k.op.Move? then Relabel(k.start, k.op.from, PARKING_SLOT)
    else if k.stage.Swap3? && k.op.Move? then Relabel(Relabel(k.start, k.op.from, PARKING_SLOT), k.op.to, k.op.from)
    else k.start
  }

  ghost predicate Progress(k: Task, cls: string) {
    match k.stage
    case Pending => false
    case AddList => k.op.Add?
    case AddPick(occupied) => k.op.Add? && occupied == Slots(k.start)
    case AddInsert(slot) => k.op.Add? && slot == FirstFree(Slots(k.start)) && slot != -1
    case MoveFetch => k.op.Move?
    case MoveEquip => Fetched(k)
    case MoveDest => Equipped(k, cls)
    case MovePlain => Equipped(k, cls) && !Occupied(k.start, k.op.to)
    case MoveBack => Equipped(k, cls) && Occupied(k.start, k.op.to) && IsEquipmentSlot(k.op.from) && IsEquipmentSlot(k.op.to)
    case Swap1 => Swapping(k, cls)
    case Swap2 => Swapping(k, cls)
    case Swap3 => Swapping(k, cls)
    case Finished(_, _) => true
  }

  /** A finished call left its whole effect, or nothing and a store failure; and
      it reported what it does alone, or a store failure. */
  ghost predicate Ended(bag: Bag, start: Bag, d: Done) {
    && bag == (if d.took then Effect(start, d.call).0 else start)
    && (!d.took ==> d.outcome == Some(StoreFailure))
    && (d.took && d.outcome == Some(StoreFailure) ==> Effect(start, d.call).1.None?)
    && (d.outcome != Some(StoreFailure) ==> d.outcome == Effect(start, d.call).1)
  }

  ghost predicate TaskInv(bag: Bag, k: Task, cls: string) {
    && BagOk(k.start)
    && Progress(k, cls)
    && (!k.stage.Finished? ==> bag == Partial(k))
    && (k.stage.Finished? ==> Ended(bag, k.start, Done(CallOf(k, cls), k.stage.outcome, k.stage.took)))
  }

  lemma AddStatement(bag: Bag, k: Task, level: int, cls: string, next: RowId)
    requires TaskInv(bag, k, cls) && !k.stage.Finished? && k.op.Add?
    ensures var (bag', k') := Statement(bag, k, level, cls, next); TaskInv(bag', k', cls)
  {
  }

  lemma SwapEffect(k: Task, cls: string)
    requires BagOk(k.start) && Swapping(k, cls)
    ensures Effect(k.start, CallOf(k, cls)) == (SwapSlots(k.start, k.op.from, k.op.to), None)
  {
  }

  lemma LastSwapStatement(bag: Bag, k: Task, level: int, cls: string, next: RowId)
    requires TaskInv(bag, k, cls) && k.stage.Swap3?
    ensures var (bag', k') := Statement(bag, k, level, cls, next); TaskInv(bag', k', cls)
  {
    StatementsSwap(k.start, k.op.from, k.op.to);
    SwapEffect(k, cls);
    assert CallOf(k.(stage := Finished(None, true)), cls) == CallOf(k, cls);
  }

  lemma SwapStatement(bag: Bag, k: Task, level: int, cls: string, next: RowId)
    requires TaskInv(bag, k, cls) && (k.stage.Swap1? || k.stage.Swap2? || k.stage.Swap3?)
    ensures var (bag', k') := Statement(bag, k, level, cls, next); TaskInv(bag', k', cls)
  {
    if k.stage.Swap3? { LastSwapStatement(bag, k, level, cls, next); }
  }

  lemma PlainStatement(bag: Bag, k: Task, level: int, cls: string, next: RowId)
    requires TaskInv(bag, k, cls) && k.stage.MovePlain?
    ensures var (bag', k') := Statement(bag, k, level, cls, next); TaskInv(bag', k', cls)
  {
    assert CallOf(k.(stage := Finished(None, true)), cls) == CallOf(k, cls);
    assert Effect(k.start, CallOf(k, cls)) == (Relabel(k.start, k.op.from, k.op.to), None);
  }

  lemma CheckStatement(bag: Bag, k: Task, level: int, cls: string, next: RowId)
    requires TaskInv(bag, k, cls) && (k.stage.MoveFetch? || k.stage.MoveEquip? || k.stage.MoveDest? || k.stage.MoveBack?)
    ensures var (bag', k') := Statement(bag, k, level, cls, next); TaskInv(bag', k', cls)
  {
  }

  lemma StatementKeepsTask(bag: Bag, k: Task, level: int, cls: string, next: RowId)
    requires TaskInv(bag, k, cls) && !k.stage.Finished?
    ensures var (bag', k') := Statement(bag, k, level, cls, next); TaskInv(bag', k', cls)
  {
    if k.op.Add? { AddStatement(bag, k, level, cls, next); }
    else if k.stage.Swap1? || k.stage.Swap2? || k.stage.Swap3? { SwapStatement(bag, k, level, cls, next); }
    else if k.stage.MovePlain? { PlainStatement(bag, k, level, cls, next); }
    else { CheckStatement(bag, k, level, cls, next); }
  }

  lemma FailureKeepsTask(bag: Bag, k: Task, cls: string)
    requires TaskInv(bag, k, cls) && !k.stage.Finished?
    ensures var (bag', k') := Failure(bag, k); TaskInv(bag', k', cls)
  {
  }

  lemma UnreportedKeepsTask(bag: Bag, k: Task, level: int, cls: string, next: RowId)
    requires TaskInv(bag, k, cls) && Completes(k.stage)
    ensures var (bag', k') := Statement(bag, k, level, cls, next); TaskInv(bag', Unreported(k'), cls)
  {
    StatementKeepsTask(bag, k, level, cls, next);
    var k' := Statement(bag, k, level, cls, next).1;
    assert k'.stage == Finished(None, true) && CallOf(Unreported(k'), cls) == CallOf(k', cls);
  }

  /** Between any two statements slots are unique and nothing is lost. */
  lemma PartialIsUnique(bag: Bag, k: Task, cls: string)
    requires TaskInv(bag, k, cls) && !k.stage.Finished?
    ensures UniqueSlots(bag) && Contents(bag) == Contents(k.start)
  {
    if k.stage.Swap2? || k.stage.Swap3? {
      SwapStatements(k.start, k.op.from, k.op.to);
      RelabelKeepsContents(k.start, k.op.from, PARKING_SLOT);
      RelabelKeepsContents(Relabel(k.start, k.op.from, PARKING_SLOT), k.op.to, k.op.from);
    }
  }

  // --------------------------------------------------------- whole runs

  /** `initial`, `ledger` and `log` record history: the bags at the start, the
      items that ought to exist, and the finished calls in lock order. */
  datatype State = State(
    lock: K.State,
    tasks: map<K.Tid, Task>,
    bags: map<Char, Bag>,
    levels: map<Char, int>,
    classes: map<Char, string>,
    nextId: RowId,
    initial: map<Char, Bag>,
    ledger: map<Char, map<RowId, Item>>,
    log: map<Char, seq<Done>>)
  {
    function Bag(c: Char): Bag { if c in bags then bags[c] else map[] }
    function Initial(c: Char): Bag { if c in initial then initial[c] else map[] }
    function Level(c: Char): int { if c in levels then levels[c] else 1 }
    function Class(c: Char): string { if c in classes then classes[c] else "" }
    function Ledger(c: Char): map<RowId, Item> { if c in ledger then ledger[c] else map[] }
    function Log(c: Char): seq<Done> { if c in log then log[c] else [] }
    predicate Holds(t: K.Tid, c: Char) { t in lock.pcs && lock.pcs[t].Holding? && lock.pcs[t].key == c }
  }

  datatype Event =
    | Request(t: K.Tid, c: Char, op: Op)      // enters lock(c)
    | Sync(t: K.Tid)                          // next statement of lock or unlock
    | Work(t: K.Tid, fault: Fault)            // next statement of the call
    | LevelUp(c: Char, level: int)

  predicate Enabled(s: State, e: Event) {
    match e
    case Request(t, c, _) => K.Enabled(s.lock, K.Lock(t, c))
    case Sync(t) =>
      && t in s.tasks && K.Enabled(s.lock, K.Step(t))
      && (s.lock.pcs[t].Holding? ==> s.tasks[t].stage.Finished?)
    case Work(t, _) =>
      && t in s.tasks && s.Holds(t, s.tasks[t].owner)
      && !s.tasks[t].stage.Pending? && !s.tasks[t].stage.Finished?
      && (s.tasks[t].op.Add? <==> s.tasks[t].stage.AddList? || s.tasks[t].stage.AddPick? || s.tasks[t].stage.AddInsert?)
    case LevelUp(c, level) => s.Level(c) <= level
  }

  predicate CanSync(s: State, t: K.Tid) {
    t in s.tasks && t in s.lock.pcs && (s.lock.pcs[t].Holding? ==> s.tasks[t].stage.Finished?)
  }

  /** Taking the lock starts the call. */
  function TasksAfter(s: State, t: K.Tid): map<K.Tid, Task>
    requires CanSync(s, t)
  {
    if !s.lock.pcs[t].Waiting? then s.tasks
    else
      var c := s.lock.pcs[t].key;
      s.tasks[t := s.tasks[t].(owner := c, stage := First(s.tasks[t].op), start := s.Bag(c), levelTo := s.Level(c), levelBack := s.Level(c))]
  }

  /** Releasing it logs the call. */
  function LogAfter(s: State, t: K.Tid): map<Char, seq<Done>>
    requires CanSync(s, t)
  {
    if !s.lock.pcs[t].Holding? then s.log
    else
      var c := s.lock.pcs[t].key;
      s.log[c := s.Log(c) + [DoneOf(s.tasks[t], s.Class(c))]]
  }

  function AfterLockStep(s: State, t: K.Tid, lock: K.State): State
    requires CanSync(s, t)
  {
    s.(lock := lock, tasks := TasksAfter(s, t), log := LogAfter(s, t))
  }

  /** The bag and the call after its next statement. */
  ghost function Worked(s: State, t: K.Tid, fault: Fault): (Bag, Task)
    requires Enabled(s, Work(t, fault))
  {
    var k := s.tasks[t];
    var c := k.owner;
    if !Applies(fault, k.stage) then Failure(s.Bag(c), k)
    else
      var (bag, k') := Statement(s.Bag(c), k, s.Level(c), s.Class(c), s.nextId);
      (bag, if fault.NoFault? then k' else Unreported(k'))
  }

  ghost function Apply(s: State, e: Event): State
    requires Enabled(s, e)
  {
    match e
    case Request(t, c, op) =>
      s.(lock := K.Apply(s.lock, K.Lock(t, c)), tasks := s.tasks[t := Task(c, op, Pending, map[], 0, 0, 0)])
    case Sync(t) => AfterLockStep(s, t, K.Apply(s.lock, K.Step(t)))
    case Work(t, fault) =>
      var k := s.tasks[t];
      var c := k.owner;
      s.(bags := s.bags[c := Worked(s, t, fault).0],
         tasks := s.tasks[t := Worked(s, t, fault).1],
         nextId := if k.stage.AddInsert? then s.nextId + 1 else s.nextId,
         ledger := if Applies(fault, k.stage) && k.stage.AddInsert?
                   then s.ledger[c := s.Ledger(c)[s.nextId := k.op.item]] else s.ledger)
    case LevelUp(c, level) => s.(levels := s.levels[c := level])
  }

  ghost predicate Init(s: State) {
    && K.Init(s.lock)
    && s.bags == s.initial && s.log == map[] && s.ledger == (map c | c in s.initial :: Contents(s.initial[c]))
    && (forall c :: c in s.initial ==> BagOk(s.initial[c]) && forall id :: id in s.initial[c] ==> id < s.nextId)
  }

  ghost predicate ValidRun(s: State, es: seq<Event>)
    decreases |es|
  {
    |es| == 0 || (Enabled(s, es[0]) && ValidRun(Apply(s, es[0]), es[1..]))
  }

  ghost function Run(s: State, es: seq<Event>): State
    requires ValidRun(s, es)
    decreases |es|
  {
    if |es| == 0 then s else Run(Apply(s, es[0]), es[1..])
  }

  // ------------------------------------------------- sequential reference

  ghost function After(bag: Bag, d: Done): Bag {
    if d.took then Effect(bag, d.call).0 else bag
  }

  /** The bag after running finished calls one after the other. */
  ghost function Replay(bag: Bag, log: seq<Done>): Bag {
    if |log| == 0 then bag else After(Replay(bag, log[..|log| - 1]), log[|log| - 1])
  }

  /** Each call reported what it would have reported running alone, or a store
      failure; and only after a store failure may it have had no effect. */
  ghost predicate Truthful(bag: Bag, log: seq<Done>) {
    |log| == 0 ||
    var front, d := log[..|log| - 1], log[|log| - 1];
    Truthful(bag, front) && Ended(After(Replay(bag, front), d), Replay(bag, front), d)
  }

  lemma ReplayAppend(bag: Bag, log: seq<Done>, d: Done)
    ensures Replay(bag, log + [d]) == After(Replay(bag, log), d)
    ensures Truthful(bag, log + [d]) <==>
      Truthful(bag, log) && Ended(After(Replay(bag, log), d), Replay(bag, log), d)
  {
    assert (log + [d])[..|log|] == log;
  }

  // ------------------------------------------------------------ invariant

  ghost function Committed(s: State, c: Char): Bag { Replay(s.Initial(c), s.Log(c)) }

  ghost predicate TaskOk(s: State, t: K.Tid, c: Char) {
    && t in s.tasks && s.tasks[t].owner == c && s.tasks[t].start == Committed(s, c)
    && TaskInv(s.Bag(c), s.tasks[t], s.Class(c))
    && s.tasks[t].levelTo <= s.Level(c) && s.tasks[t].levelBack <= s.Level(c)
  }

  ghost predicate LevelsOk(log: seq<Done>, level: int, cls: string) {
    forall i :: 0 <= i < |log| ==> log[i].call.levelTo <= level && log[i].call.levelBack <= level && log[i].call.cls == cls
  }

  ghost predicate CharInv(s: State, c: Char) {
    && BagOk(Committed(s, c)) && Truthful(s.Initial(c), s.Log(c)) && LevelsOk(s.Log(c), s.Level(c), s.Class(c))
    && (forall t :: s.Holds(t, c) ==> TaskOk(s, t, c))
    && ((forall t :: !s.Holds(t, c)) ==> s.Bag(c) == Committed(s, c))
    && UniqueSlots(s.Bag(c)) && Contents(s.Bag(c)) == s.Ledger(c)
    && (forall id :: id in s.Bag(c) ==> id < s.nextId)
  }

  ghost predicate Inv(s: State) {
    K.Inv(s.lock) && forall c :: CharInv(s, c)
  }

  /** Nothing about character `c` changed, except that its level may have risen. */
  ghost predicate Untouched(s: State, s': State, c: Char) {
    && s'.Bag(c) == s.Bag(c) && s'.Initial(c) == s.Initial(c) && s'.Log(c) == s.Log(c)
    && s'.Ledger(c) == s.Ledger(c) && s'.Class(c) == s.Class(c)
    && s.Level(c) <= s'.Level(c) && s.nextId <= s'.nextId
    && (forall t :: s'.Holds(t, c) <==> s.Holds(t, c))
    && (forall t :: s.Holds(t, c) && t in s.tasks ==> t in s'.tasks && s'.tasks[t] == s.tasks[t])
  }

  lemma UntouchedKeeps(s: State, s': State, c: Char)
    requires CharInv(s, c) && Untouched(s, s', c)
    ensures CharInv(s', c)
  {
  }

  ghost predicate Exclusive(s: State) {
    forall t, u :: t in s.lock.pcs && u in s.lock.pcs && K.BothHold(s.lock.pcs[t], s.lock.pcs[u]) ==> t == u
  }

  lemma LockIsExclusive(s: State)
    requires K.Inv(s.lock)
    ensures Exclusive(s)
  {
  }

  lemma WorkedTask(s: State, t: K.Tid, fault: Fault)
    requires Enabled(s, Work(t, fault)) && TaskInv(s.Bag(s.tasks[t].owner), s.tasks[t], s.Class(s.tasks[t].owner))
    ensures TaskInv(Worked(s, t, fault).0, Worked(s, t, fault).1, s.Class(s.tasks[t].owner))
  {
    var k := s.tasks[t];
    var c := k.owner;
    if !Applies(fault, k.stage) { FailureKeepsTask(s.Bag(c), k, s.Class(c)); }
    else if fault.NoFault? { StatementKeepsTask(s.Bag(c), k, s.Level(c), s.Class(c), s.nextId); }
    else { UnreportedKeepsTask(s.Bag(c), k, s.Level(c), s.Class(c), s.nextId); }
  }

  lemma WorkedFrame(s: State, t: K.Tid, fault: Fault)
    requires Enabled(s, Work(t, fault))
    ensures var k, k', level := s.tasks[t], Worked(s, t, fault).1, s.Level(s.tasks[t].owner);
      && k'.owner == k.owner && k'.start == k.start
      && (k'.levelTo == k.levelTo || k'.levelTo == level) && (k'.levelBack == k.levelBack || k'.levelBack == level)
  {
  }

  lemma WorkTask(s: State, t: K.Tid, fault: Fault)
    requires Enabled(s, Work(t, fault)) && TaskOk(s, t, s.tasks[t].owner)
    ensures TaskOk(Apply(s, Work(t, fault)), t, s.tasks[t].owner)
  {
    WorkedTask(s, t, fault);
    WorkedFrame(s, t, fault);
  }

  lemma InsertedItem(bag: Bag, k: Task, level: int, cls: string, next: RowId)
    requires TaskInv(bag, k, cls) && k.stage.AddInsert? && next !in bag
    ensures var bag' := Statement(bag, k, level, cls, next).0;
      UniqueSlots(bag') && Contents(bag') == Contents(bag)[next := k.op.item]
  {
    AddKeepsBag(k.start, CallOf(k, cls).(id := next));
  }

  lemma LastUpdate(bag: Bag, k: Task, level: int, cls: string, next: RowId)
    requires TaskInv(bag, k, cls) && (k.stage.MovePlain? || k.stage.Swap3?)
    ensures var bag' := Statement(bag, k, level, cls, next).0; UniqueSlots(bag') && Contents(bag') == Contents(bag)
  {
    PartialIsUnique(bag, k, cls);
    if k.stage.MovePlain? {
      RelabelKeepsUnique(bag, k.op.from, k.op.to);
      RelabelKeepsContents(bag, k.op.from, k.op.to);
    } else {
      StatementsSwap(k.start, k.op.from, k.op.to);
      SwapKeepsUnique(k.start, k.op.from, k.op.to);
      SwapKeepsContents(k.start, k.op.from, k.op.to);
    }
  }

  lemma MidUpdate(bag: Bag, k: Task, level: int, cls: string, next: RowId)
    requires TaskInv(bag, k, cls) && (k.stage.Swap1? || k.stage.Swap2?)
    ensures var bag' := Statement(bag, k, level, cls, next).0; UniqueSlots(bag') && Contents(bag') == Contents(bag)
  {
    var from, to := k.op.from, k.op.to;
    SwapStatements(k.start, from, to);
    if k.stage.Swap1? {
      assert Statement(bag, k, level, cls, next).0 == Relabel(k.start, from, PARKING_SLOT);
      RelabelKeepsContents(k.start, from, PARKING_SLOT);
    } else {
      assert Statement(bag, k, level, cls, next).0 == Relabel(bag, to, from);
      RelabelKeepsContents(bag, to, from);
    }
  }

  lemma OtherStatement(bag: Bag, k: Task, level: int, cls: string, next: RowId)
    requires TaskInv(bag, k, cls) && !k.stage.Finished? && !k.stage.AddInsert?
    ensures var bag' := Statement(bag, k, level, cls, next).0; UniqueSlots(bag') && Contents(bag') == Contents(bag)
  {
    if k.stage.MovePlain? || k.stage.Swap3? { LastUpdate(bag, k, level, cls, next); }
    else if k.stage.Swap1? || k.stage.Swap2? { MidUpdate(bag, k, level, cls, next); }
    else {
      assert Statement(bag, k, level, cls, next).0 == bag;
      PartialIsUnique(bag, k, cls);
    }
  }

  ghost predicate BagAgrees(s: State, c: Char) {
    && UniqueSlots(s.Bag(c)) && Contents(s.Bag(c)) == s.Ledger(c)
    && (forall id :: id in s.Bag(c) ==> id < s.nextId)
  }

  lemma SameContentsSameIds(a: Bag, b: Bag)
    requires Contents(a) == Contents(b)
    ensures a.Keys == b.Keys
  {
    assert a.Keys == Contents(a).Keys;
    assert b.Keys == Contents(b).Keys;
  }

  /** What the statement left: unique slots and exactly the ledger's items. */
  lemma WorkBag(s: State, t: K.Tid, fault: Fault)
    requires Enabled(s, Work(t, fault)) && TaskOk(s, t, s.tasks[t].owner) && BagAgrees(s, s.tasks[t].owner)
    ensures BagAgrees(Apply(s, Work(t, fault)), s.tasks[t].owner)
  {
    var k, s' := s.tasks[t], Apply(s, Work(t, fault));
    var c := k.owner;
    if Applies(fault, k.stage) && k.stage.AddInsert? {
      InsertedItem(s.Bag(c), k, s.Level(c), s.Class(c), s.nextId);
    } else {
      if !Applies(fault, k.stage) { PartialIsUnique(s.Bag(c), k, s.Class(c)); }
      else { OtherStatement(s.Bag(c), k, s.Level(c), s.Class(c), s.nextId); }
      SameContentsSameIds(s.Bag(c), s'.Bag(c));
    }
  }

  /** The character whose call or lock this step concerns. */
  ghost predicate Concerns(s: State, e: Event, c: Char)
    requires Enabled(s, e)
  {
    || (e.Work? && c == s.tasks[e.t].owner)
    || (e.Sync? && (s.lock.pcs[e.t].Waiting? || s.lock.pcs[e.t].Holding?) && c == s.lock.pcs[e.t].key)
  }

  lemma WorkUntouched(s: State, t: K.Tid, fault: Fault, c: Char)
    requires Enabled(s, Work(t, fault)) && c != s.tasks[t].owner
    ensures Untouched(s, Apply(s, Work(t, fault)), c)
  {
    var s', own := Apply(s, Work(t, fault)), s.tasks[t].owner;
    assert s'.bags == s.bags[own := s'.Bag(own)] && s'.tasks == s.tasks[t := s'.tasks[t]];
    assert s'.Ledger(c) == s.Ledger(c);
  }

  lemma SyncHolders(s: State, t: K.Tid, c: Char)
    requires Enabled(s, Sync(t)) && !Concerns(s, Sync(t), c)
    ensures !s.Holds(t, c) && forall u :: Apply(s, Sync(t)).Holds(u, c) <==> s.Holds(u, c)
  {
    K.OwnPcOnly(s.lock, K.Step(t));
  }

  /** A step of the lock leaves every table as it is, except a log. */
  lemma SyncTables(s: State, t: K.Tid, lock: K.State)
    requires CanSync(s, t)
    ensures var s' := AfterLockStep(s, t, lock);
      && s'.bags == s.bags && s'.initial == s.initial && s'.ledger == s.ledger && s'.classes == s.classes
      && s'.levels == s.levels && s'.nextId == s.nextId && s'.lock == lock
  {
  }

  lemma SyncLog(s: State, t: K.Tid, lock: K.State, c: Char)
    requires CanSync(s, t)
    requires !s.lock.pcs[t].Holding? || s.lock.pcs[t].key != c
    ensures AfterLockStep(s, t, lock).Log(c) == s.Log(c)
  {
  }

  lemma SyncTasks(s: State, t: K.Tid, lock: K.State, u: K.Tid)
    requires CanSync(s, t)
    requires u in s.tasks && u != t
    ensures var s' := AfterLockStep(s, t, lock); u in s'.tasks && s'.tasks[u] == s.tasks[u]
  {
  }

  lemma SyncUntouched(s: State, t: K.Tid, c: Char)
    requires Enabled(s, Sync(t)) && !Concerns(s, Sync(t), c)
    ensures Untouched(s, Apply(s, Sync(t)), c)
  {
    var lock := K.Apply(s.lock, K.Step(t));
    SyncHolders(s, t, c);
    SyncTables(s, t, lock);
    SyncLog(s, t, lock, c);
    forall u | s.Holds(u, c) && u in s.tasks ensures u in Apply(s, Sync(t)).tasks && Apply(s, Sync(t)).tasks[u] == s.tasks[u] {
      SyncTasks(s, t, lock, u);
    }
  }

  lemma OthersUntouched(s: State, e: Event, c: Char)
    requires Enabled(s, e) && !Concerns(s, e, c)
    ensures Untouched(s, Apply(s, e), c)
  {
    match e
    case Work(t, fault) => WorkUntouched(s, t, fault, c);
    case Sync(t) => SyncUntouched(s, t, c);
    case Request(t, owner, _) => K.OwnPcOnly(s.lock, K.Lock(t, owner));
    case LevelUp(_, _) =>
  }

  lemma WorkKeeps(s: State, t: K.Tid, fault: Fault, c: Char)
    requires Exclusive(s) && CharInv(s, c) && Enabled(s, Work(t, fault)) && c == s.tasks[t].owner
    ensures CharInv(Apply(s, Work(t, fault)), c)
  {
    var s' := Apply(s, Work(t, fault));
    WorkTask(s, t, fault);
    WorkBag(s, t, fault);
    assert s'.Holds(t, c);
    assert forall u :: s'.Holds(u, c) ==> u == t;
  }

  lemma AcquireHolders(s: State, t: K.Tid, c: Char)
    requires Enabled(s, Sync(t)) && s.lock.pcs[t].Waiting? && c == s.lock.pcs[t].key
    requires Exclusive(Apply(s, Sync(t)))
    ensures (forall u :: !s.Holds(u, c)) && forall u :: Apply(s, Sync(t)).Holds(u, c) <==> u == t
  {
    var s' := Apply(s, Sync(t));
    assert s'.Holds(t, c);
    assert forall u :: s.Holds(u, c) ==> s'.Holds(u, c);
  }

  lemma FreshTask(bag: Bag, k: Task, c: Char, level: int, cls: string)
    requires BagOk(bag)
    ensures TaskInv(bag, k.(owner := c, stage := First(k.op), start := bag, levelTo := level, levelBack := level), cls)
  {
  }

  lemma AcquireTask(s: State, t: K.Tid, c: Char)
    requires Enabled(s, Sync(t)) && s.lock.pcs[t].Waiting? && c == s.lock.pcs[t].key
    requires BagOk(Committed(s, c)) && s.Bag(c) == Committed(s, c)
    ensures var s' := Apply(s, Sync(t)); s'.Log(c) == s.Log(c) && TaskOk(s', t, c)
  {
    var lock := K.Apply(s.lock, K.Step(t));
    SyncTables(s, t, lock);
    SyncLog(s, t, lock, c);
    FreshTask(s.Bag(c), s.tasks[t], c, s.Level(c), s.Class(c));
  }

  lemma AcquireKeeps(s: State, t: K.Tid, c: Char)
    requires CharInv(s, c) && Enabled(s, Sync(t)) && s.lock.pcs[t].Waiting? && c == s.lock.pcs[t].key
    requires Exclusive(Apply(s, Sync(t)))
    ensures CharInv(Apply(s, Sync(t)), c)
  {
    AcquireHolders(s, t, c);
    SyncTables(s, t, K.Apply(s.lock, K.Step(t)));
    AcquireTask(s, t, c);
  }

  function DoneOf(k: Task, cls: string): Done
    requires k.stage.Finished?
  {
    Done(CallOf(k, cls), k.stage.outcome, k.stage.took)
  }

  lemma FinishedBagOk(bag: Bag, k: Task, cls: string)
    requires TaskInv(bag, k, cls) && k.stage.Finished?
    ensures BagOk(bag) && bag == After(k.start, DoneOf(k, cls)) && Ended(bag, k.start, DoneOf(k, cls))
  {
    if k.op.Move? { MoveKeepsBag(k.start, CallOf(k, cls)); }
    else { AddedBagOk(k.start, CallOf(k, cls)); }
  }

  lemma AddedBagOk(bag: Bag, c: Call)
    requires BagOk(bag) && c.op.Add?
    ensures BagOk(Effect(bag, c).0)
  {
    FreeFromIsLeast(Slots(bag), 0);
    var slot := FirstFree(Slots(bag));
    assert slot != -1 ==> !Occupied(bag, slot) by { assert slot !in Slots(bag) || slot == -1; }
  }

  /** Logging a finished call commits the bag it left. */
  lemma CommitCall(initial: Bag, log: seq<Done>, bag: Bag, k: Task, cls: string)
    requires TaskInv(bag, k, cls) && k.stage.Finished? && k.start == Replay(initial, log) && Truthful(initial, log)
    ensures var log' := log + [DoneOf(k, cls)];
      Replay(initial, log') == bag && BagOk(bag) && Truthful(initial, log')
  {
    FinishedBagOk(bag, k, cls);
    ReplayAppend(initial, log, DoneOf(k, cls));
  }

  lemma ReleaseLog(s: State, t: K.Tid, c: Char)
    requires Enabled(s, Sync(t)) && s.Holds(t, c)
    ensures var s' := Apply(s, Sync(t));
      && s'.Log(c) == s.Log(c) + [DoneOf(s.tasks[t], s.Class(c))]
      && s'.Bag(c) == s.Bag(c) && s'.Initial(c) == s.Initial(c) && s'.Level(c) == s.Level(c) && s'.Class(c) == s.Class(c)
  {
    SyncTables(s, t, K.Apply(s.lock, K.Step(t)));
  }

  lemma ReleaseCommits(s: State, t: K.Tid, c: Char)
    requires CharInv(s, c) && Enabled(s, Sync(t)) && s.Holds(t, c)
    ensures var s' := Apply(s, Sync(t));
      && Committed(s', c) == s.Bag(c) && BagOk(Committed(s', c))
      && Truthful(s'.Initial(c), s'.Log(c)) && LevelsOk(s'.Log(c), s'.Level(c), s'.Class(c))
  {
    assert TaskOk(s, t, c);
    ReleaseLog(s, t, c);
    CommitCall(s.Initial(c), s.Log(c), s.Bag(c), s.tasks[t], s.Class(c));
  }

  lemma ReleaseHolders(s: State, t: K.Tid, c: Char)
    requires Exclusive(s) && Enabled(s, Sync(t)) && s.Holds(t, c)
    ensures forall u :: !Apply(s, Sync(t)).Holds(u, c)
  {
    assert forall u :: Apply(s, Sync(t)).Holds(u, c) ==> s.Holds(u, c);
  }

  lemma ReleaseKeeps(s: State, t: K.Tid, c: Char)
    requires Exclusive(s) && CharInv(s, c) && Enabled(s, Sync(t)) && s.Holds(t, c)
    ensures CharInv(Apply(s, Sync(t)), c)
  {
    ReleaseCommits(s, t, c);
    ReleaseHolders(s, t, c);
  }

  lemma LockStep(s: State, e: Event)
    requires K.Inv(s.lock) && Enabled(s, e)
    ensures K.Inv(Apply(s, e).lock)
  {
    match e
    case Request(t, c, _) => K.StepKeepsInv(s.lock, K.Lock(t, c));
    case Sync(t) => K.StepKeepsInv(s.lock, K.Step(t));
    case _ =>
  }

  lemma StepKeeps(s: State, e: Event)
    requires Inv(s) && Enabled(s, e)
    ensures Inv(Apply(s, e))
  {
    LockStep(s, e);
    LockIsExclusive(s);
    LockIsExclusive(Apply(s, e));
    forall c ensures CharInv(Apply(s, e), c) {
      if !Concerns(s, e, c) {
        OthersUntouched(s, e, c);
        UntouchedKeeps(s, Apply(s, e), c);
      }
      else if e.Work? { WorkKeeps(s, e.t, e.fault, c); }
      else if s.lock.pcs[e.t].Waiting? { AcquireKeeps(s, e.t, c); }
      else { ReleaseKeeps(s, e.t, c); }
    }
  }

  lemma {:induction false} RunKeeps(s: State, es: seq<Event>)
    requires Inv(s) && ValidRun(s, es)
    ensures Inv(Run(s, es))
    decreases |es|
  {
    if |es| != 0 {
      StepKeeps(s, es[0]);
      RunKeeps(Apply(s, es[0]), es[1..]);
    }
  }

  lemma InitHasInv(s: State)
    requires Init(s)
    ensures Inv(s)
  {
    K.InitHasInv(s.lock);
    forall c ensures CharInv(s, c) {
      assert Contents(s.Bag(c)) == s.Ledger(c);
    }
  }

  // ------------------------------------------------------------- theorems

  /** In every interleaving and at every moment: no two rows of a character
      share a slot, the rows are exactly the items that started there plus one
      row for each insert that ran, each once, and a character nobody works on
      holds exactly what the finished calls, run one after the other in lock
      order, would have left, except those that failed without effect; each of
      them reported what it would have reported alone, or a store failure. */
  lemma EveryRunIsSequential(s0: State, es: seq<Event>, c: Char)
    requires Init(s0) && ValidRun(s0, es)
    ensures var s := Run(s0, es);
      && UniqueSlots(s.Bag(c))
      && Contents(s.Bag(c)) == s.Ledger(c)
      && Truthful(s.Initial(c), s.Log(c))
      && ((forall t :: !s.Holds(t, c)) ==> s.Bag(c) == Replay(s.Initial(c), s.Log(c)) && BagOk(s.Bag(c)))
  {
    InitHasInv(s0);
    RunKeeps(s0, es);
    assert CharInv(Run(s0, es), c);
  }

  /** A call reports a full bag only while slots 0..99 are all taken, and a
      reported success of an add is backed by its row. */
  lemma ReportsAreBacked(s0: State, es: seq<Event>, t: K.Tid)
    requires Init(s0) && ValidRun(s0, es)
    requires t in Run(s0, es).tasks && Run(s0, es).tasks[t].op.Add? && Run(s0, es).tasks[t].stage.Finished?
    requires Run(s0, es).Holds(t, Run(s0, es).tasks[t].owner)
    ensures var s := Run(s0, es);
      var k := s.tasks[t];
      && (k.stage.outcome == Some(SlotOutOfBounds) ==>
            forall i :: MIN_BAG_SLOT <= i <= MAX_BAG_SLOT ==> Occupied(s.Bag(k.owner), i))
      && (k.stage.outcome.None? ==> k.id in s.Bag(k.owner) && s.Bag(k.owner)[k.id].item == k.op.item)
  {
    InitHasInv(s0);
    RunKeeps(s0, es);
    var s := Run(s0, es);
    var k := s.tasks[t];
    assert CharInv(s, k.owner);
    FullMeansFull(k.start, CallOf(k, s.Class(k.owner)));
  }

  lemma FullMeansFull(bag: Bag, c: Call)
    requires c.op.Add?
    ensures Effect(bag, c).1.Some? ==> forall i :: MIN_BAG_SLOT <= i <= MAX_BAG_SLOT ==> Occupied(bag, i)
  {
    FreeFromIsLeast(Slots(bag), 0);
    if FirstFree(Slots(bag)) == -1 {
      forall i | MIN_BAG_SLOT <= i <= MAX_BAG_SLOT ensures Occupied(bag, i) { assert i in Slots(bag); }
    }
  }

  /** No call of the log took the unchecked swap with an unfit item. */
  ghost predicate Fit(bag: Bag, log: seq<Done>, level: int) {
    |log| == 0 ||
    var front, d := log[..|log| - 1], log[|log| - 1];
    Fit(bag, front, level) && (d.took ==> !UnfitSwap(Replay(bag, front), d.call, level))
  }

  lemma {:induction false} ReplayKeepsLoadout(bag: Bag, log: seq<Done>, level: int, cls: string)
    requires BagOk(bag) && Loadout(bag, level, cls) && LevelsOk(log, level, cls) && Fit(bag, log, level)
    ensures BagOk(Replay(bag, log)) && Loadout(Replay(bag, log), level, cls)
  {
    if |log| != 0 {
      var front, d := log[..|log| - 1], log[|log| - 1];
      ReplayKeepsLoadout(bag, front, level, cls);
      var before := Replay(bag, front);
      if !d.took {
        assert Replay(bag, log) == before;
      } else if d.call.op.Move? {
        MoveKeepsBag(before, d.call);
        FitMoveKeepsLoadout(before, d.call, level);
      } else {
        AddedBagOk(before, d.call);
        AddKeepsLoadout(before, d.call, level);
      }
    }
  }

  lemma SwappingKeepsLoadout(k: Task, cls: string, level: int)
    requires BagOk(k.start) && Swapping(k, cls) && (k.stage.Swap2? || k.stage.Swap3?)
    requires Loadout(k.start, level, cls) && k.levelBack <= level && !UnfitSwap(k.start, CallOf(k, cls), level)
    ensures Loadout(Partial(k), level, cls)
  {
    var from, to := k.op.from, k.op.to;
    var y := ItemAt(k.start, to);
    if IsEquipmentSlot(from) && IsEquipmentSlot(to) { ValidateMonotone(y, from, k.levelBack, level, cls); }
    forall id | id in k.start && k.start[id].slot == to ensures k.start[id].item == y { assert id == RowAt(k.start, to); }
  }

  /** A call that is not the unchecked swap with an unfit item keeps the loadout
      valid at each of its statements. */
  lemma TaskKeepsLoadout(bag: Bag, k: Task, cls: string, level: int)
    requires TaskInv(bag, k, cls) && Loadout(k.start, level, cls)
    requires k.levelTo <= level && k.levelBack <= level && !UnfitSwap(k.start, CallOf(k, cls), level)
    ensures Loadout(bag, level, cls)
  {
    if k.stage.Finished? {
      if k.op.Move? { FitMoveKeepsLoadout(k.start, CallOf(k, cls), level); }
      else { AddKeepsLoadout(k.start, CallOf(k, cls), level); }
    } else if k.stage.Swap2? || k.stage.Swap3? {
      SwappingKeepsLoadout(k, cls, level);
    }
  }

  /** No call holding the character's lock is the unchecked swap with an unfit
      item. */
  ghost predicate FitInFlight(s: State, c: Char) {
    forall t :: s.Holds(t, c) && t in s.tasks ==> !UnfitSwap(s.tasks[t].start, CallOf(s.tasks[t], s.Class(c)), s.Level(c))
  }

  /** In every interleaving and at every moment, also between the statements of
      a swap, a character that started with a valid loadout has one, provided
      none of its finished calls and not the call in flight is the unchecked
      swap with an unfit item. */
  lemma EveryRunKeepsLoadout(s0: State, es: seq<Event>, c: Char)
    requires Init(s0) && ValidRun(s0, es) && Loadout(s0.Bag(c), s0.Level(c), s0.Class(c))
    requires var s := Run(s0, es); Fit(s.Initial(c), s.Log(c), s.Level(c)) && FitInFlight(s, c)
    ensures var s := Run(s0, es); Loadout(s.Bag(c), s.Level(c), s.Class(c))
  {
    InitHasInv(s0);
    RunKeeps(s0, es);
    var s := Run(s0, es);
    assert CharInv(s, c);
    ConstantParts(s0, es, c);
    LevelKeepsLoadout(s0.Bag(c), s0.Level(c), s.Level(c), s.Class(c));
    ReplayKeepsLoadout(s.Initial(c), s.Log(c), s.Level(c), s.Class(c));
    if t :| s.Holds(t, c) { TaskKeepsLoadout(s.Bag(c), s.tasks[t], s.Class(c), s.Level(c)); }
  }

  lemma LevelKeepsLoadout(bag: Bag, low: int, high: int, cls: string)
    requires Loadout(bag, low, cls) && low <= high
    ensures Loadout(bag, high, cls)
  {
    forall id | id in bag && IsEquipmentSlot(bag[id].slot) ensures Validate(bag[id].item, bag[id].slot, high, cls).None? {
      ValidateMonotone(bag[id].item, bag[id].slot, low, high, cls);
    }
  }

  lemma {:induction false} ConstantParts(s: State, es: seq<Event>, c: Char)
    requires ValidRun(s, es)
    ensures Run(s, es).Initial(c) == s.Initial(c) && Run(s, es).Class(c) == s.Class(c) && s.Level(c) <= Run(s, es).Level(c)
    decreases |es|
  {
    if |es| != 0 {
      ConstantStep(s, es[0], c);
      ConstantParts(Apply(s, es[0]), es[1..], c);
    }
  }

  lemma ConstantStep(s: State, e: Event, c: Char)
    requires Enabled(s, e)
    ensures var s' := Apply(s, e); s'.Initial(c) == s.Initial(c) && s'.Class(c) == s.Class(c) && s.Level(c) <= s'.Level(c)
  {
    match e
    case Work(t, fault) => WorkConstant(s, t, fault);
    case Sync(t) => SyncTables(s, t, K.Apply(s.lock, K.Step(t)));
    case Request(_, _, _) =>
    case LevelUp(_, _) =>
  }

  lemma WorkConstant(s: State, t: K.Tid, fault: Fault)
    requires Enabled(s, Work(t, fault))
    ensures var s' := Apply(s, Work(t, fault)); s'.initial == s.initial && s'.classes == s.classes && s'.levels == s.levels
  {
  }
}
