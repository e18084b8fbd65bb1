# Verified models of zzrpg's state machines

zzrpg is a Go game engine (`sdk`), a game framework (`gamekit`) and an RPG
(`backend`). Between its HTTP and SQL wiring sit small state machines and
protocols whose guarantees are stated in comments. This project models them in
Dafny and proves those guarantees for every input and every run.

| file | models |
|---|---|
| `Common.dfy` | options, counting, sorted sets |
| `KeyedMutex.dfy` | the reference-counted per-character lock |
| `Inventory.dfy`, `InventoryRuns.dfy` | AddItem and MoveItem: their effect, and their interleavings under that lock |
| `EventStream.dfy` | broadcast of events between nodes over one stream |
| `Outbox.dfy` | the transactional outbox and its relay |
| `Kernel.dfy` | the plugin dependency sort and the plugin lifecycle |
| `RateLimiter.dfy`, `LoginLimiter.dfy` | the token bucket and the login lockout, with their sweeps |
| `ConcurrentLogins.dfy` | overlapping logins on one key |
| `Quests.dfy`, `QuestTotals.dfy` | quest steps and concurrent quest progress, and how much of it is stored |
| `Progression.dfy` | levels, rewards, gold and the reward log |
| `World.dfy`, `Scheduler.dfy` | component queries and ticks |
| `Idle.dfy`, `IdleRuns.dfy` | idle accrual, and wallets over runs of the scheduler |
| `Vitals.dfy`, `Combat.dfy` | health pools and interleaved attacks |
| `Hub.dfy` | the socket hub's two indexes |
| `LootCache.dfy` | the read-through loot cache |

## How things are modelled

- A protocol is a `State`, an `Event` type, `Enabled` and `Apply`; a run is any
  sequence of events each enabled when it happens. What runs concurrently in the
  source is interleaved here, one lock-holding section, SQL statement or
  registry call per event. Theorems about runs quantify over all of them.
- Code that updates state in place is a class whose methods are proved to
  produce exactly the state of the functions the theorems are about. Pointers
  that never leave their owner (pools, visitors, connections) are map values.
- `float64` is `real`; the clock is an argument that does not go back where the
  source relies on that; `int32` wrap-around is modelled for quest progress,
  other integers are unbounded. Hook filters, random rolls, damage and failures
  of I/O are arguments.
- JSON encoding is taken to round-trip; a database transaction is one step,
  except that Swap's three updates are separate steps inside one.

## Where the code does less than its comments say

For each of these a theorem gives the exact condition or the exact amount, and a
lemma or caller gives an input or a run.

- Rate limiter: `sweep` calls eviction behaviourally transparent
  (`sdk/pkg/httpx/hardening.go:192-193`). It is exactly for
  1 <= burst <= 180 rps (`RateLimiter.TransparentIff`).
- MoveItem: moving an equipped item onto an occupied bag slot swaps the bag item
  into the equipment slot unchecked. A move keeps a valid loadout exactly if it
  is not such a swap with an unfit item (`Inventory.MoveKeepsLoadoutIff`,
  `Inventory.LoadoutCounterexample`).
- Quests: a matching event keeps a row's shape exactly if the 32-bit addition
  does not overflow (`Quests.AdvanceKeepsShapeIff`, `Quests.OverflowBreaksShape`).
  Overlapping calls of one character can overwrite each other's progress
  (`QuestTotals.OverlapLosesProgress`): what is stored is what the writes took
  less what they dropped, in every run (`QuestTotals.StoredIsTakenLessDropped`).
  The errors of the reward calls are discarded, so a completed quest's reward can
  be missing for good; it arrived exactly if nothing in its one reward pass
  failed (`Quests.RewardedAtMostOnce`, `Quests.RewardCanBeMissed`).
- Login lockout: a failure of a concurrent login, recorded while the key is
  locked but after its window has elapsed, drops the lock, and only then
  (`LoginLimiter.LateFailureUnlocksIff`, `LoginLimiter.LateFailureExample`). Every
  login that may be in flight beyond the first allows exactly two more guesses
  (`ConcurrentLogins.ConcurrentGuessBound`, `ConcurrentLogins.ConcurrentBoundIsTight`).
- Kernel: a failed Init or Start returns without stopping what is live
  (`Kernel.Run`, `Kernel.FailedStartStaysLive`).
- GrantXP: with a stored level below 1 the last level-up announcement does not
  name the level reached (`Progression.ProgressionService.GrantXP`,
  `Progression.LowLevelAnnounced`).
- Idle ticks below the minimum window succeed and forfeit their time
  (`Idle.TinyTicksForfeit`). A tick that fails after crediting some amounts pays
  them again when it is retried, and exactly them (`IdleRuns.WalletIsEarned`,
  `IdleRuns.PartialApplyPaysTwice`).
- Scheduler: if the last-run record is lost after a tick succeeded, that time is
  counted again, and exactly that time (`Scheduler.EveryRunTelescopes`,
  `Scheduler.LostRecordCountsTwice`).
- Hub: AssociateCharacter keeps the indexes in agreement exactly for a
  registered connection, a positive id and no other character selected before
  (`Hub.ClaimKeepsAgreementIff`, `Hub.SecondSelectionDangles`).
- Event stream: a consumer asks for new messages only, so the rest of a batch
  that a crash cut short, and a batch whose reply was lost, is never delivered;
  every other message is (`EventStream.EveryMessageOncePerNode`). Nothing is lost
  exactly if neither happens (`EventStream.NothingLostIff`,
  `EventStream.CrashLosesBatch`, `EventStream.LostReplyLosesBatch`).

## Model

| member | source | states |
|---|---|---|
| `KeyedMutex.EveryRunIsExclusive` | backend/game/inventory/service.go:21-61 | in every interleaving of lock and unlock statements: one holder per key, waiters and holders use the map's entry, refs counts exactly the registered goroutines, and the map is empty when all are idle |
| `KeyedMutex.EvictionOnlyWhenUnused` | backend/game/inventory/service.go:52-60 | a statement that removes a key is the evictor's own delete, and nobody else holds or awaits that key |
| `KeyedMutex.WaiterIsServable` | backend/game/inventory/service.go:41-61 | a waiter can take its mutex now, or the goroutine holding it can release it now |
| `KeyedMutex.StepKeepsInv` | backend/game/inventory/service.go:41-61 | every single statement keeps the lock invariant |
| `KeyedMutex.LockTable.constructor` | backend/game/inventory/service.go:33-35 | starts with no entries |
| `KeyedMutex.LockTable.Register` | backend/game/inventory/service.go:42-49 | reuses the key's entry or allocates one, and adds one reference to it alone |
| `KeyedMutex.LockTable.Deregister` | backend/game/inventory/service.go:54-59 | drops one reference and evicts the entry exactly when it was the last |
| `Inventory.SwapStatements` | backend/game/inventory/repository.go:120-136 | the three updates through slot -99 exchange the two slots' occupants, and no two rows share a slot in between |
| `Inventory.FreeFromIsLeast` | backend/game/inventory/service.go:122-128 | the search yields the least free bag slot, or -1 exactly if none is free |
| `Inventory.FindEmptySlot` | backend/game/inventory/service.go:117-132 | the search loop finds the least free slot of 0..99, and -1 exactly if all are taken |
| `Inventory.ValidateMonotone` | backend/game/inventory/service.go:227-289 | an item that passes the rules still passes at a higher level |
| `Inventory.ValidateRules` | backend/game/inventory/service.go:227-289 | an item may be worn exactly if its kind is the slot's, the level suffices and its class list is empty or names the class up to case; otherwise the first broken rule of these is the error |
| `Inventory.MoveOutcome` | backend/game/inventory/service.go:150-206 | a move succeeds exactly for slots 0..99 and 1000..1005, an item to move, which may be worn where it goes, and, between two equipment slots, one that may be worn where it comes back; otherwise which error it is |
| `Inventory.MoveKeepsBag` | backend/game/inventory/service.go:150-225 | every move, successful or not, keeps slots unique and valid and loses, adds or changes no item |
| `Inventory.AddKeepsBag` | backend/game/inventory/service.go:106-148 | an add stores exactly its item in a free slot, and fails exactly when slots 0..99 are all taken |
| `Inventory.MoveTrades` | backend/game/inventory/service.go:183-206 | a successful move puts each of the two occupants into the other's slot and touches no other row |
| `Inventory.MoveBackUndoes` | backend/game/inventory/service.go:150-225 | moving there and back restores the bag |
| `Inventory.MoveKeepsLoadoutIff` | backend/game/inventory/service.go:167-201 | from a valid loadout, a move keeps it valid exactly if it is not the unchecked swap with an unfit item |
| `Inventory.LoadoutCounterexample` | backend/game/inventory/service.go:191-192 | one successful move that leaves an invalid loadout |
| `Inventory.AddKeepsLoadout` | backend/game/inventory/service.go:106-148 | adding never touches equipment |
| `Inventory.InventoryService.GetBySlot` | backend/game/inventory/repository.go:21-56 | finds the row of a slot, if there is one |
| `Inventory.InventoryService.Swap` | backend/game/inventory/repository.go:120-136 | three updates in place exchange two slots |
| `Inventory.InventoryService.AddItem` | backend/game/inventory/service.go:106-148 | stores the item as a fresh row in the least free slot of 0..99, and fails exactly if there is none |
| `Inventory.InventoryService.MoveItem` | backend/game/inventory/service.go:150-225 | has the effect of a move; refuses exactly invalid slots, a missing item, and into equipment an item of the wrong kind, level or class, each with its error; moves a wearable item into an empty slot |
| `InventoryRuns.EveryRunIsSequential` | backend/game/inventory/service.go:106-225 | in every interleaving under the lock, with statements failing, applied or not, and transactions rolling back: no two rows share a slot at any moment, the items are the initial ones plus one row per executed insert, the result is that of the calls run one after the other except those that failed without effect, and each reported what it does alone or a store failure |
| `InventoryRuns.PartialIsUnique` | backend/game/inventory/repository.go:120-136 | between any two statements of a call slots are unique and nothing is lost |
| `InventoryRuns.StatementKeepsTask` | backend/game/inventory/service.go:106-225 | every statement of a call leaves the bag it should leave by then, and the last one the call's whole effect |
| `InventoryRuns.FailureKeepsTask` | backend/game/inventory/repository.go:120-136 | a failing statement that was not applied leaves the bag as the call found it |
| `InventoryRuns.UnreportedKeepsTask` | backend/game/inventory/repository.go:104-152 | a completing write that was applied and reported as failed leaves the call's whole effect |
| `InventoryRuns.ReportsAreBacked` | backend/game/inventory/service.go:130-147 | bag full is reported only if 0..99 are all taken, and a reported add is stored |
| `InventoryRuns.EveryRunKeepsLoadout` | backend/game/inventory/service.go:150-289 | with levels that may rise at any moment, at every moment of every run, also between the statements of a swap: the loadout is valid unless a finished call or the one in flight is the unchecked swap with an unfit item |
| `InventoryRuns.TaskKeepsLoadout` | backend/game/inventory/service.go:150-225 | a call that is not that swap keeps the loadout valid at each of its statements |
| `InventoryRuns.StepKeeps` | backend/game/inventory/service.go:106-225 | every event of any goroutine keeps the invariant of every character |
| `EventStream.EveryMessageOncePerNode` | sdk/engine/eventstream/eventstream.go:119-172 | a stream message is delivered exactly once at its origin, exactly once at any other node that joined before it, handled it, lost no batch with it and decodes it, and nowhere else |
| `EventStream.NothingBeforeJoining` | sdk/engine/eventstream/eventstream.go:110-117 | what is on the stream when a node's group is created is never re-injected at it |
| `EventStream.CrashLosesBatch` | sdk/engine/eventstream/eventstream.go:129-149 | a run in which a node reads a message, crashes and restarts, and never delivers it |
| `EventStream.LostReplyLosesBatch` | sdk/engine/eventstream/eventstream.go:129-143 | a run in which the reply to a read is lost, and the message is never delivered |
| `EventStream.NoEcho` | sdk/engine/bus/fanout.go:39-56 | the stream's length is the number of applied forwards, no publication is on it twice, each comes from its owner, and re-injection follows stream order |
| `EventStream.NothingLostIff` | sdk/engine/eventstream/eventstream.go:119-151 | no position is ever skipped exactly if no read's reply is lost and no node restarts in the middle of a batch |
| `EventStream.UninterruptedIsComplete` | sdk/engine/eventstream/eventstream.go:110-172 | in such a run a node whose group was there first has delivered every foreign message it decodes and has passed exactly once |
| `EventStream.RunKeepsInv` | sdk/engine/eventstream/eventstream.go:63-172 | every run keeps each node's logs equal to what its cursors imply |
| `EventStream.HandlingIsWanted` | sdk/engine/eventstream/eventstream.go:144-149 | handling a batch message by message re-injects exactly the batch's foreign decodable messages |
| `EventStream.Fanout.constructor` | sdk/engine/bus/fanout.go:26-29 | starts as a pass-through |
| `EventStream.Fanout.Publish` | sdk/engine/bus/fanout.go:41-50 | delivers locally first, then forwards exactly if a forwarder is installed |
| `EventStream.Consumer.Handle` | sdk/engine/eventstream/eventstream.go:155-172 | re-injects a message exactly if it is foreign and decodable |
| `EventStream.Consumer.HandleBatch` | sdk/engine/eventstream/eventstream.go:144-149 | handles every position of a batch once, in order, without forwarding |
| `Outbox.EveryRunDeliversAtLeastOnce` | sdk/engine/outbox/relay.go:52-114 | with crashes and failing marks anywhere: decodable rows are published before they are marked, dispatched or pruned ones were published, rows vanish only after being marked, and deliveries number at most 1 plus the lost marks |
| `Outbox.FaultFreeIsExactlyOnce` | sdk/engine/outbox/relay.go:80-99 | a dispatched decodable row with no lost mark was delivered exactly once |
| `Outbox.FirstDeliveriesGapFree` | sdk/engine/outbox/relay.go:52-100 | if rows become visible in id order, no row is published before every smaller decodable one |
| `Outbox.SelectIsSorted` | sdk/engine/outbox/relay.go:53-56 | the batch is in increasing order, holds the smallest undispatched ids, and as many as the limit allows |
| `Outbox.RunKeepsInv` | sdk/engine/outbox/relay.go:52-114 | every run keeps the relay's invariants |
| `Outbox.Relay.Dispatch` | sdk/engine/outbox/relay.go:52-100 | publishes the decodable rows of the batch in order and marks them, stopping at a failing query, or at a failing mark with its row published and marked exactly if the mark was applied |
| `Outbox.CycleMarks` | sdk/engine/outbox/relay.go:80-99 | the machine's steps over a batch mark exactly the rows Dispatch marks |
| `Outbox.CyclePublishes` | sdk/engine/outbox/relay.go:80-99 | and publish exactly the rows it publishes, in its order |
| `Outbox.Relay.Prune` | sdk/engine/outbox/relay.go:105-114 | deletes exactly the rows marked longer ago than the retention and counts them |
| `Kernel.TopoSort` | sdk/engine/kernel/kernel.go:263-312 | succeeds exactly if names are unique, requirements exist and there is no cycle; then a permutation with every plugin after its requirements, and an ordered input unchanged; an error names a real offence |
| `Kernel.ErrorMeansUnsortable` | sdk/engine/kernel/kernel.go:269-295 | every reported duplicate, unknown name or cycle rules out any valid order |
| `Kernel.OrderIsAcyclic` | sdk/engine/kernel/kernel.go:263-264 | a list in dependency order has no cycle |
| `Kernel.NameTable` | sdk/engine/kernel/kernel.go:266-273 | the table holds each plugin under its name, or a name occurs twice |
| `Kernel.Sorter.Visit` | sdk/engine/kernel/kernel.go:284-304 | emits the plugin after everything it needs, keeps what was emitted, and reports only real offences |
| `Kernel.Sorter.VisitNeeds` | sdk/engine/kernel/kernel.go:293-300 | afterwards every requirement has been emitted |
| `Kernel.Sorter.Enter` | sdk/engine/kernel/kernel.go:291 | the names being visited are those on the path, one name more |
| `Kernel.Sorter.Finish` | sdk/engine/kernel/kernel.go:301-302 | emits a plugin whose needs are met and takes it off the path |
| `Kernel.VisitAll` | sdk/engine/kernel/kernel.go:306-310 | visits all in registration order and leaves an ordered input unchanged |
| `Kernel.InitAll` | sdk/engine/kernel/kernel.go:131-137 | initialises in order up to the first failure; what is live is always closed under Requires |
| `Kernel.StartAll` | sdk/engine/kernel/kernel.go:139-144 | starts in order up to the first failure |
| `Kernel.StopAll` | sdk/engine/kernel/kernel.go:183-191 | stops everything in reverse order, each plugin before what it requires |
| `Kernel.Run` | sdk/engine/kernel/kernel.go:131-180 | serves, and then stops everything in reverse order, exactly if the plugins can be sorted and none fails; ends at the first failing Init or Start, without stopping anything, exactly if one fails, so something stays live exactly if some plugin fails and it is not already the first Init; at every step the live plugins are closed under Requires |
| `Kernel.FailedStartStaysLive` | sdk/engine/kernel/kernel.go:139-144 | a run of one plugin whose Start fails, after which it is live |
| `RateLimiter.TransparentIff` | sdk/pkg/httpx/hardening.go:169-205 | eviction at arbitrary times changes no answer of any run exactly if 1 <= burst <= 180 rps |
| `RateLimiter.SweepInvisible` | sdk/pkg/httpx/hardening.go:192-205 | under that condition the evicting and the never-evicting limiter answer every run alike |
| `RateLimiter.SlowRefillIsVisible` | sdk/pkg/httpx/hardening.go:194-203 | if refilling takes longer than the idle time, waiting for the sweep buys a second burst |
| `RateLimiter.NoBurstIsVisible` | sdk/pkg/httpx/hardening.go:174-178 | with a burst below 1 a sweep lets an address through again |
| `RateLimiter.RateBound` | sdk/pkg/httpx/hardening.go:167-190 | after any history, one address is allowed at most burst + rps (b - a) requests between a and b |
| `RateLimiter.WindowBound` | sdk/pkg/httpx/hardening.go:169-190 | at most what the bucket holds at a plus the refill until b |
| `RateLimiter.RunKeepsRange` | sdk/pkg/httpx/hardening.go:169-190 | tokens stay in [0, burst] over every run |
| `RateLimiter.Limiter.AllowIp` | sdk/pkg/httpx/hardening.go:169-190 | a new address passes and keeps burst - 1 tokens; otherwise the bucket refills by the time passed, up to the burst, and passes exactly if it holds a token, which is taken |
| `RateLimiter.Limiter.SweepOnce` | sdk/pkg/httpx/hardening.go:196-203 | evicts exactly the buckets idle for more than three minutes |
| `LoginLimiter.GuessBound` | backend/game/auth/service.go:107-134 | after any history, a half-open interval of the lockout's length without a success lets at most 2 max - 2 failing guesses through |
| `LoginLimiter.BoundIsTight` | backend/game/auth/loginlimiter.go:51-64 | for every configuration with a lockout above one tick, some history reaches that bound |
| `LoginLimiter.SweepInvisible` | backend/game/auth/loginlimiter.go:73-86 | sweeping at any moments changes no answer of any interleaving of limiter calls |
| `LoginLimiter.LockLasts` | backend/game/auth/service.go:108-113 | every login before the end of the period is blocked and leaves the lock in place |
| `LoginLimiter.LimitLocks` | backend/game/auth/loginlimiter.go:49-64 | a failure locks, for the whole period, exactly if it is the limit-th of an open window |
| `LoginLimiter.SuccessStartsOver` | backend/game/auth/service.go:131 | after an accepted login every further login is answered as if there had been none before |
| `LoginLimiter.BlockedAfterSuccess` | backend/game/auth/loginlimiter.go:66-71 | after an accepted login at least max further failing guesses come before a blocked one |
| `LoginLimiter.SuccessExample` | backend/game/auth/service.go:107-134 | two failures, a success and a failure leave the key open |
| `LoginLimiter.LateFailureUnlocksIff` | backend/game/auth/loginlimiter.go:54-59 | a failure recorded on a locked key drops the lock exactly if the window has elapsed |
| `LoginLimiter.LateFailureExample` | backend/game/auth/loginlimiter.go:51-64 | a history from the empty limiter after which a locked key is open again before its time |
| `ConcurrentLogins.ConcurrentGuessBound` | backend/game/auth/service.go:107-134 | with at most w logins of a key in flight, after any history, an interval of the lockout's length without a success lets at most 2 max - 2 + 2 (w - 1) failing guesses through |
| `ConcurrentLogins.ConcurrentBoundIsTight` | backend/game/auth/service.go:107-134 | for every w and every configuration with a lockout above one tick, a history and a run reach that bound |
| `ConcurrentLogins.SequentialBoundIff` | backend/game/auth/service.go:107-134 | 2 max - 2 holds for every run exactly if logins of a key do not overlap |
| `ConcurrentLogins.WindowBound` | backend/game/auth/loginlimiter.go:51-64 | what is still possible in the interval, from any reachable entry and any logins in flight |
| `LoginLimiter.Limiter.Locked` | backend/game/auth/loginlimiter.go:42-47 | tells whether the key's lock is still running |
| `LoginLimiter.Limiter.RecordFailure` | backend/game/auth/loginlimiter.go:51-64 | starts a window with one failure if there is none or it has elapsed, otherwise counts, and locks for the lockout at the limit |
| `LoginLimiter.Limiter.RecordSuccess` | backend/game/auth/loginlimiter.go:67-71 | forgets the key |
| `LoginLimiter.Limiter.SweepOnce` | backend/game/auth/loginlimiter.go:77-84 | evicts exactly the entries whose lock is over and whose window has elapsed |
| `LoginLimiter.Limiter.Login` | backend/game/auth/service.go:107-134 | blocked exactly on a running lock, whatever the password; a success forgets the key, a wrong password or unknown user counts as a failure, a store error changes nothing, and no other key changes |
| `Quests.AdvanceKeepsShapeIff` | gamekit/quest/quest.go:25-51 | a matching event keeps the row's shape or completes the quest exactly if the addition fits 32 bits |
| `Quests.AdvanceMatchesIff` | gamekit/quest/quest.go:26-35 | an event matches exactly if its kind and target are the current step's and the step is not full; otherwise nothing changes |
| `Quests.AdvanceMeans` | gamekit/quest/quest.go:37-50 | a matching event fills the step up to its count, moves on if it is full and not the last, and completes the quest if it is |
| `Quests.OverflowBreaksShape` | gamekit/quest/quest.go:37-42 | a legal row and amount whose sum wraps around to a negative progress |
| `Quests.AdvanceAdds` | gamekit/quest/quest.go:37-42 | total progress grows by the amount, capped at what the step lacks |
| `Quests.AdvanceCompletesIff` | gamekit/quest/quest.go:44-50 | the quest completes exactly when every step has reached its count |
| `Quests.ShapeIsTotal` | gamekit/quest/quest.go:18-24 | a well-shaped row is determined by its total progress |
| `Quests.RewardedAtMostOnce` | backend/game/quests/service.go:127-194 | in every interleaving a quest is rewarded at most once per character and only when completed; if no call was cut off or still owes it, there was exactly one reward pass, and the reward arrived exactly if nothing in that pass failed |
| `Quests.MissedForGood` | backend/game/quests/service.go:166-181 | a reward of which something failed is never made up for, whatever calls follow |
| `Quests.RewardCanBeMissed` | backend/game/quests/service.go:160-183 | a run in which no call is cut off and a completed quest is not rewarded |
| `Quests.CompletedIsTerminal` | backend/game/quests/repository.go:218-253 | a completed row never changes again |
| `Quests.RowsKeepShape` | backend/game/quests/service.go:127-194 | in every interleaving without overflow, stale snapshots included, earlier steps are full, the current one short, later ones at 0 |
| `QuestTotals.StoredNeverExceeds` | backend/game/quests/service.go:127-194 | in every interleaving a quest's stored total is at most what its writes took, and that at most what was reported |
| `QuestTotals.StoredIsTakenLessDropped` | backend/game/quests/service.go:133-188 | in every interleaving an active quest's stored total is what its writes took less what they overwrote beyond their snapshots; nothing is lost exactly if that is zero, and it is never negative |
| `QuestTotals.NothingLostApart` | backend/game/quests/service.go:127-194 | if the calls of one character do not overlap, nothing is dropped and an active quest's stored total is exactly what its writes took |
| `QuestTotals.OverlapLosesProgress` | backend/game/quests/service.go:133-188 | two overlapping calls that report 3 and 4 leave 4 stored |
| `Quests.QuestService.AcceptQuest` | backend/game/quests/service.go:80-125 | reports the first failing rule, a missing character included, and stores nothing then; otherwise stores a well-shaped fresh row |
| `Quests.QuestService.CompleteQuest` | backend/game/quests/repository.go:239-253 | completes exactly an active row |
| `Quests.QuestService.UpdateProgress` | backend/game/quests/repository.go:218-237 | writes exactly an active row |
| `Quests.QuestService.UpdateQuestProgress` | backend/game/quests/service.go:127-194 | quests the event is not for keep their rows and get no reward; a row completed meanwhile ends the call; undisturbed, every row becomes what the event demands and exactly the quests it completes get one reward pass |
| `Progression.ApplyLoop` | gamekit/progression/progression.go:43-59 | the level-up loop ends with the settled standing and counts the levels it added |
| `Progression.ApplyConserves` | gamekit/progression/progression.go:43-59 | no experience appears or vanishes, whatever the level it starts from and the sign of the gain; the result is at least level 1 and cannot level up further |
| `Progression.ApplyAdds` | gamekit/progression/progression.go:43-59 | two gains in a row are one gain of their sum |
| `Progression.LossDoesNotAdd` | gamekit/progression/progression.go:43-59 | a loss after a gain is not that sum: levels are not taken back |
| `Progression.LevelIsUnique` | gamekit/progression/progression.go:34-59 | the level is the only L with cum(L) <= total < cum(L+1), and the total determines the standing |
| `Progression.RunIsOneApply` | backend/game/character/repository.go:213-305 | after any run of rewards and spending, level and experience are one Apply of the summed experience from level 1, and what replaying the log gives |
| `Progression.LogReplays` | backend/game/character/repository.go:276-296 | one reward keeps the log a faithful history of the standing |
| `Progression.RunLevel` | backend/game/character/leveling.go:17-28 | after any run the level is the unique L with cum(L) <= summed experience < cum(L+1) |
| `Progression.RpgTotal` | backend/game/character/leveling.go:8-19 | 6 cum(L) = 100 (L-1) L (2L-1): level N takes 100 N^2 experience |
| `Progression.RunStats` | backend/game/character/leveling.go:30-41 | after any run each primary stat is its start plus 2 (level - 1) and no other stat has changed |
| `Progression.RunGold` | backend/game/character/repository.go:187-211 | gold is what was earned minus what was spent, refused spends costing nothing, and never negative if no reward is |
| `Progression.ApplyLevelUpStatGains` | backend/game/character/leveling.go:33-41 | raises each primary stat once by 2 per level, nothing else, and nothing for no level |
| `Progression.Rewarded` | backend/game/character/repository.go:217-299 | the transaction's row, gold, stats and log entries: one reward entry, one level-up entry exactly if a level was gained, and 2 per level on the four primary stats |
| `Progression.CharacterRepository.Reward` | backend/game/character/repository.go:213-305 | rewards an existing character and only it; a missing character, a failing statement or a level-up without a stats row leaves everything as it was |
| `Progression.CharacterRepository.Pay` | backend/game/character/repository.go:187-211 | pays exactly if the gold suffices and no statement fails, and tells the refusals apart; a non-positive amount succeeds and costs nothing |
| `Progression.ProgressionService.GrantXP` | gamekit/progression/progression.go:94-113 | stores the applied standing and, with hooks, announces one level per level gained; nothing is stored or announced if reading or storing fails; the last announcement is the level reached exactly if the stored level was at least 1 |
| `Progression.LowLevelAnnounced` | gamekit/progression/progression.go:107-111 | from a stored level of 0, reaching level 2 announces level 1 |
| `World.Index.EntityIDs` | gamekit/component/mem.go:51-60 | the stored ids in increasing order, in a fresh slice |
| `World.RetainInPlace` | gamekit/world/world.go:50-60 | filtering through the aliased slice keeps exactly the matching ids in order, although it overwrites what it reads |
| `World.FilterIntersects` | gamekit/world/world.go:45-61 | filtering one sorted index by another is the sorted intersection |
| `World.SortedIsUnique` | gamekit/component/mem.go:58 | a set has one sorted enumeration |
| `World.World.Query` | gamekit/world/world.go:33-63 | the sorted entities having all the named components, over stores of any component types; otherwise the first unknown name or a failing store; no names give no entities |
| `World.World.NarrowAll` | gamekit/world/world.go:45-61 | the loop narrows the slice to the intersection of the names seen and stops at an unknown name or at a failing store it has to ask |
| `Scheduler.EveryRunTelescopes` | gamekit/system/scheduler.go:86-100 | over any attempts, failing anywhere: a key's recorded ticks sum to the span from its origin to its last recorded tick, and all its ticks to that plus the time of ticks whose record was lost |
| `Scheduler.LostRecordCountsTwice` | gamekit/system/scheduler.go:96-99 | three ticks, one with a lost record, that are handed 35 for a span of 25 |
| `Scheduler.FreshKeyAccountsInterval` | gamekit/system/scheduler.go:86-100 | a new key's ticks sum to Interval + (last now - first now) |
| `Scheduler.NoNegativeTime` | gamekit/system/scheduler.go:88-95 | under a nondecreasing clock no tick gets negative time |
| `Scheduler.StepTelescopes` | gamekit/system/scheduler.go:86-100 | every single attempt keeps that account |
| `Scheduler.Driver.TickEntity` | gamekit/system/scheduler.go:86-100 | ticks with the time since the last run, or one interval, and records the run exactly if everything succeeded |
| `Scheduler.Driver.TickEach` | gamekit/system/scheduler.go:72-76 | ticks the entities in order, each once, up to the first failure |
| `Scheduler.Driver.TickAll` | gamekit/system/scheduler.go:67-78 | visits a prefix of the sorted intersection of the queried components, all of it exactly if nothing fails |
| `Idle.SplitFallsShort` | sdk/engine/idle/idle.go:69-77 | n ticks with windows at or above the minimum and the whole within the cap credit at most what one catch-up would, and at most n-1 less |
| `Idle.SplitCredits` | sdk/engine/idle/idle.go:69-77 | for any windows, the credits are the worth of the paid time less at most n-1 |
| `Idle.CreditMeans` | sdk/engine/idle/idle.go:66-77 | a window pays nothing below the minimum, the cap's worth beyond the cap, and otherwise the elapsed minutes' worth |
| `Idle.ShortfallIsTight` | backend/plugins/buildings/buildings.go:65-69 | for every n some n windows fall short by n-1 |
| `Idle.EveryRunEarnsTheSpan` | gamekit/idle/idle.go:179-186 | over every scheduler run with failing attempts the successful ticks of an entity are worth what one catch-up over the accounted span is, less at most one unit per further tick |
| `IdleRuns.WalletIsEarned` | gamekit/idle/idle.go:125-222 | over every run an entity's balance grows by the worth of its successful ticks and, exactly, by what its failing ticks had credited before they failed |
| `IdleRuns.WalletEarnsTheSpan` | gamekit/idle/idle.go:179-222 | if a failing tick credits nothing, a wallet receives what one catch-up over the accounted span pays, less at most one unit per further tick: retries neither pay twice nor lose time |
| `IdleRuns.PartialApplyPaysTwice` | gamekit/idle/idle.go:193-222 | a tick that fails after crediting gold, and its retry, pay that gold twice |
| `Idle.TinyTicksForfeit` | gamekit/idle/idle.go:179-183 | ticks below the minimum credit nothing, however many there are |
| `Idle.ProduceIsRate` | backend/plugins/idlekit/activities.go:15-32 | every producer yields each resource at its rate, rounded toward zero once |
| `Idle.ShippedYields` | backend/plugins/buildings/buildings.go:65-69 | what a sawmill, training and gathering yield in ten minutes, in numbers |
| `Idle.Engine.Assign` | gamekit/idle/idle.go:105-110 | assigns exactly registered activities that can be stored |
| `Idle.Engine.Accrue` | gamekit/idle/idle.go:125-152 | runs exactly for an assigned, registered, unlocked activity whose reads and application succeed; credits exactly the amounts applied, all of them if it ran |
| `Idle.Engine.Apply` | gamekit/idle/idle.go:193-222 | credits amounts one by one until one fails; exactly those credited stay |
| `Idle.Engine.Tick` | gamekit/idle/idle.go:179-186 | when a tick fails and what it credits: each resource by its rate over the clamped window on success, the amounts applied before the failure otherwise, nothing for a window below the minimum |
| `Idle.UpgradeCost` | backend/plugins/buildings/buildings.go:41-47 | the doubling loop computes base times 2^level |
| `Idle.CostsTelescope` | backend/plugins/buildings/buildings.go:40-47 | all levels up to n cost one base less than the next upgrade |
| `Vitals.StartKeepsRangeIff` | gamekit/vitals/vitals.go:38-44 | a new pool is in range exactly if its maxima are nonnegative |
| `Vitals.DeductKeepsRangeIff` | gamekit/vitals/vitals.go:71-89 | a deduction breaks the range exactly if it lifts a living pool above its maximum |
| `Vitals.HealKeepsRangeIff` | gamekit/vitals/vitals.go:113-125 | healing breaks it exactly if it drives a living pool below zero |
| `Vitals.SpendKeepsRangeIff` | gamekit/vitals/vitals.go:129-138 | spending breaks it exactly if it lifts mana above its maximum |
| `Vitals.ReviveKeepsRange` | gamekit/vitals/vitals.go:141-151 | reviving keeps the range and leaves the entity alive |
| `Vitals.Registry.Start` | gamekit/vitals/vitals.go:38-44 | creates or replaces a full pool |
| `Vitals.Registry.DeductAndReserveKill` | gamekit/vitals/vitals.go:71-89 | damages a living pool and reports the kill exactly if this call brought it to zero |
| `Vitals.Registry.DeductHP` | gamekit/vitals/vitals.go:93-109 | damages a living pool without reserving a kill |
| `Vitals.Registry.Heal` | gamekit/vitals/vitals.go:113-125 | heals a living pool up to its maximum |
| `Vitals.Registry.SpendMP` | gamekit/vitals/vitals.go:129-138 | spends exactly if the mana suffices |
| `Vitals.Registry.Revive` | gamekit/vitals/vitals.go:141-151 | restores full health and clears death |
| `Combat.KillsAreSeparated` | backend/game/combat/combat.go:180-205 | in every interleaving two credited kills of one entity have a Start or Revive of it between them, automatic mob revival included |
| `Combat.RewardedExactlyOnce` | backend/game/combat/combat.go:244-262 | a kill is credited at most once per attack, rewarded exactly once when the attack is over, to its own attacker and victim, and never without a rewarder |
| `Combat.PoolsStayInRange` | gamekit/vitals/vitals.go:38-151 | in every interleaving 0 <= HP <= max, 0 <= MP <= max, and the dead have no HP |
| `Combat.RunKeepsInv` | backend/game/combat/combat.go:150-297 | every run keeps pools, kill history and reward account sound |
| `Combat.SoloIsRun` | backend/game/combat/combat.go:118-148 | an attack running alone is one of the machine's runs |
| `Combat.AttackMeans` | backend/game/combat/combat.go:118-297 | an uninterrupted attack in the terms of its request: each refusal as an if and only if, the mana spent, a missing mob started full, a dead one revived, the defender's health after the roll, and what is recorded and paid |
| `Combat.CombatService.ResolveAttacker` | backend/game/combat/combat.go:118-178 | goes on exactly if the attack is not vetoed, the attacker is known and not dead, the skill is usable and the mana suffices; then exactly the mana is spent, otherwise nothing changes |
| `Combat.CombatService.ResolveDefender` | backend/game/combat/combat.go:180-205 | refuses an unknown defender and a missing or dead player, starts or revives a mob |
| `Combat.CombatService.ApplyDamage` | backend/game/combat/combat.go:244-262 | refuses if the damage cannot be calculated, otherwise deducts on a hit and rewards exactly its own kill |
| `Combat.CombatService.ExecuteAttack` | backend/game/combat/combat.go:118-148 | each refusal exactly when it applies and with which pools; an attack that goes through costs its mana, raises a missing or dead mob to full health, takes the roll off the defender on a hit, and rewards its own kill |
| `Hub.EveryRunAgrees` | backend/platform/socket/hub.go:35-112 | in every reachable state, between the phases of an override too: members are open, no channel is closed twice or sent to when closed, the index holds exactly the registered connections with a character, and logouts match the times characters came online |
| `Hub.ClaimKeepsAgreementIff` | backend/platform/socket/hub.go:92-104 | associating keeps the indexes in agreement exactly for a registered connection, a positive id and no other character selected before |
| `Hub.RegisterKeepsAgreementIff` | backend/platform/socket/hub.go:38-41 | registering keeps it exactly if the connection brings no character along |
| `Hub.RemoveKeepsAgreement` | backend/platform/socket/hub.go:73-84 | removing always keeps it |
| `Hub.SecondSelectionDangles` | backend/platform/socket/hub.go:92-112 | selecting a second character leaves the first pointing at a connection that is gone |
| `Hub.RemovedAllKeepsInv` | backend/platform/socket/hub.go:63-66 | dropping slow consumers removes exactly them and keeps the invariant |
| `Hub.StepKeepsInv` | backend/platform/socket/hub.go:35-112 | every lock-holding section keeps the invariant |
| `Hub.Hub.constructor` | backend/platform/socket/hub.go:19-27 | starts empty |
| `Hub.Hub.RemoveClient` | backend/platform/socket/hub.go:73-90 | a member is removed, its channel closed once and its character logged out and unindexed; otherwise nothing |
| `Hub.Hub.AssociateCharacter` | backend/platform/socket/hub.go:92-112 | the connection has the character afterwards; whoever had it before is disconnected, its channel closed and its character cleared, without a logout; no one else changes |
| `Hub.Hub.Broadcast` | backend/platform/socket/hub.go:46-66 | queues the message for every member whose buffer has room when its turn comes, write pumps draining meanwhile, and then removes exactly the others |
| `LootCache.EveryReadIsFaithful` | backend/game/loot/cache.go:28-47 | in every interleaving with failing, expiring and unreadable cache entries, a returned table is the source's for that id, and not-found is returned only if the id was absent when the call began |
| `LootCache.ReadAfterCreateFinds` | backend/game/loot/cache.go:28-56 | a read that begins when the row is there never reports not-found and never another table |
| `LootCache.EveryCreateIsFinal` | backend/game/loot/cache.go:49-56 | each id is created by at most one call, the row is that call's table, and rows never change |
| `LootCache.RunKeepsInv` | backend/game/loot/cache.go:28-56 | every run keeps cache and calls coherent with the source, which only grows |
| `LootCache.CachedRepository.GetLootTable` | backend/game/loot/cache.go:28-47 | the steps of a read in order; without interference the cache is invisible: the source's answer, unless the source is needed and fails |
| `LootCache.CachedRepository.CreateLootTable` | backend/game/loot/cache.go:49-56 | inserts exactly a new id and drops its cache entry |

## Left out

- HTTP and WebSocket handlers, middleware headers, tokens, password hashing, configuration and logging: plumbing or unseen libraries.
- The zzstat engine behind `statclient`: damage is an arbitrary integer argument.
- Real PostgreSQL, Redis and JSON: atomic steps on maps and sequences, encodings that round-trip.
- The wiring of the fanout bus in `backend/plugins/core`: the kernel hands plugins a gated bus, so the packages' own contract is modelled instead.
- Content loaders, templates, the service registry, admin toggles, the message router and item definitions: lookups and forwarding, where a contract would repeat the code.
- Hook chains and panic recovery: filters and vetoes are arguments.
- Concurrent TickAll with Catchup, and concurrent wallet, crafting and building updates: they take no lock, so the scheduler and idle results are about sequential calls.
- Random loot rolls: what they promise is a distribution, which this model does not express.
- The inventory and economy toolkits of `gamekit`: the RPG keeps its own inventory and gold, and those are modelled.
- Floating-point rounding, 64-bit overflow, conversions of ids and `math.Pow` at non-integer exponents: the XP curve is an integer function of the level.
- Event publication by AddItem, MoveItem and combat: fire-and-forget, no state depends on it.
- Where an idle amount goes, to experience or to a currency, and drops, which no shipped producer yields: an amount is a balance per resource.
- Inventory.Validate: compares class names with ASCII case folding only, not Unicode folding.
- LoginLimiter.GuessBound: is about logins on a key that do not overlap; `ConcurrentLogins.ConcurrentGuessBound` is about those that do.
- LoginLimiter.Limiter.Login: takes the key after trimming and lower-casing; issuing tokens is not modelled.
- Component values in `gamekit/component`: a query depends only on who has a component.
- Retries inside the Redis client: a forward is applied once or not at all.
