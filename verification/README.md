# Verified model of the systemplane engine

The library serves configuration values from an in-memory cache that must agree with a database other
processes write to. Correctness rests on arguments about interleavings: a per-key revision fence, delete
counters, reconcile windows, coalescing mailboxes, a slot per tenant, a reference-counted table of feeds.
This project states those arguments as transition systems and proves them for every run; the objects that
keep the state are classes whose methods update it in place and are proved equal to the steps of those
systems. `dafny verify dfyconfig.toml` checks everything.

A concurrent protocol is written up to three times over, always the same way: pure functions for what one lock
hold does, a class that does it in place, and a system whose actions interleave those holds with store calls,
consumer callbacks and teardown. `Reachable` means reached by some finite run from the start; an action's
`Enabled` says when it can happen, and everything the environment decides (rows, read points, decode and
validator verdicts, who fails when) is an argument of the action.

| file | what it holds |
|---|---|
| `Types.dfy` | keys, rows, cache entries, publications |
| `Fence.dfy` | one scope's state as a value and the effect of each lock hold on it |
| `ScopeState.dfy` | the scope state as an object; every method refines a function of `Fence` |
| `Protocol.dfy` | store log, re-reads, local writes, reconciles and connection events, interleaved |
| `Mailbox.dfy`, `Causality.dfy`, `StoreLog.dfy`, `ReadYourWrites.dfy`, `Freshness.dfy` | the invariants, one concern each |
| `Convergence.dfy` | the theorems about whole runs |
| `OneKey.dfy`, `StaleFlag.dfy` | the engine as one key sees it, and as its connection does: automata the scope refines step by step |
| `Served.dfy` | what a caller is served: that there is an entry, what it says about its origin, when it is doubted |
| `Boundaries.dfy` | exactly when an acknowledged write survives, and when a published or re-read row is off the store |
| `Settlement.dfy` | how much of the store's log a key's decisions reflect, and every way a settled key leaves the store |
| `Rest.dfy`, `RestRuns.dfy` | the cache against the store at rest: an equivalence over all runs, and the runs that fail it |
| `Photograph.dfy`, `QuietReconcile.dfy` | an undisturbed reconcile as one step, and a key left alone while everything else interleaves |
| `BytePath.dfy` | the raw-bytes shortcut of the fence against a fence on values |
| `Delivery.dfy` | the delivery worker of one key, its mailbox and its subscribers |
| `Refresh.dfy` | how re-reads of a key are claimed, trailed, repaired and bounded |
| `Lifecycle.dfy` | activate, block, unblock, reactivate, the cooldown and the holder of a scope's slot |
| `Identity.dfy` | publishers against the scope states that come and go: the identity check, the publish gate, the stop |
| `Group.dfy`, `GroupCoordinator.dfy`, `Fanout.dfy` | the group coordinator: functions, object, all interleavings |
| `OneScope.dfy` | the coordinator as one scope sees it, and as one applier does |
| `Poller.dfy` | the polling changefeed against a full comparison of collections |
| `MongoRevision.dfy` | the update pipelines and the revision they maintain |
| `Narration.dfy` | what a changefeed tells its subscribers about its connection |
| `FeedTable.dfy`, `FeedRuns.dfy` | the table of feeds: functions and object, all interleavings |

The history fields of the systems (`counts`, `puts`, `promises`, `calls`, `seen`, `attempts` and the like, and the
`Trail` of one key that `Settlement` carries beside the system) exist for the theorems only: no step reads them to
decide anything.

## What turned out not to hold

- The cache does not equal the store at every quiet moment. A key is at rest when its scope is open and not stale,
  the key is confirmed, nothing of it is in flight, no reconcile is armed, no notice of its writes is still to come
  and each of its writes is reflected in a decision. From any state in which the key is not already settled off the
  store, every run that comes to rest agrees with the store if and only if nothing late is under way
  (`RestAgreesUnlessLate`), which is one of three things:
  - a local Delete unpublished over a live row (`DelayedDeleteResets`);
  - with no row left, a local Set unpublished: it carries no fence (`internal/engine/engine.go:559`,
    `DelayedSetOutlivesItsRow`);
  - with no row left, a re-read holding a row that no counted delete refuses and no local Delete still to come will
    undo, because a reconcile that finds a key absent counts no delete (`internal/engine/scope.go:74-76`,
    `LateReReadUndoesAbsence`).
  Only these landings ever take a settled key off the store (`OnlyLateLandingsLeaveTheStore`, an equivalence over
  every step; `OffOnlyIfLandedLate` over whole runs). With a live row an outdated Set or re-read does no harm: the
  revision fence refuses it once the live row has been decided.
- A scope that is not stale has not always heard of every write. A re-read that found an older row and lands in the
  window of the confirming reconcile makes it skip the key; if the notice of the newer write was lost with the
  connection, nothing is due any more and the cache serves the older row (`AWriteGoesUnheard`). For a write stored
  before the newest resync, skipping is the only way (`ConfirmedIsSettledUnlessSkipped`, `AtRestUnlessSkipped`).
- Read-your-writes ends where a local Delete of the key was committed and still unpublished when Publish returned, and
  nowhere else (`AcknowledgedWriteSurvives`).
- A stopped scope state can still gain a row: the publish gate is read before the lock
  (`internal/engine/publish.go:77-97`), and `PastTheGateStillStores` is the run. It can if and only if some call was
  past its gate when the stop closed, and the state is then in no map any more
  (`StoppedStateGainsOnlyPastTheGate`).
- An applier can be started after its unsubscribe returned: the removed flag is read and the function invoked with
  no lock held (`internal/group/coordinator.go:729-736`), and `CalledAfterLeaving` is the run. It can if and only if
  its check was already past, and then once (`NeverCalledAfterLeaving`).
- The polling round equals the full diff exactly when no live document unknown to the view is stamped below
  the watermark (`RoundEqualsFullDiff` is an equivalence). When the key set cannot be read and the diff is skipped,
  a key first reported in that round and removed outright before the next is never announced gone
  (`SkippedDiffLosesADelete`); `SkippedDiffExactly` and `AnyMixExactly` say exactly when a later round makes up for it.
- A key event can reach a subscriber that has heard no resync when the teardown lands before the first
  announcement or during an outage: the marker is withheld, the events behind it are not
  (`CutOffFeedTellsKeysUnannounced`). Delivering a key keeps the promise if and only if the feed is not cut off
  (`KeyKeepsPromise`).
- A Mongo revision is not always at or above the clock of its write. Rewriting unchanged a document from before
  revisions existed gives it revision 1 (`internal/mongodb/mongodb_crud.go:113-119`); every other write that keeps no
  revision takes the lowest one above the last and not below the clock (`ClockIsAFloor`).
- A second reconcile over the same snapshot is silent for every key except those whose usable row carries
  revision 0, which the fence always stores again (`SecondReconcileIsIdle` is an equivalence).
- The comments at `internal/postgres/postgres_listen.go:673-675` and
  `internal/mongodb/mongodb_changestream.go:711-713` allow a joining subscriber one extra marker. The code is
  stricter: the marker it may hear next is always the other one, never a repeat (`MarkersAlternate`).

## Model

| member | source | states |
|---|---|---|
| ScopeState.ScopeState.constructor | internal/engine/scope.go:325-339 | A scope starts stale, with an empty cache and no window. |
| ScopeState.ScopeState.Publish | internal/engine/publish.go:76-209 | The only cache writer, when nothing happens between its gate and its lock: refuses on a closed engine or dropped scope, otherwise leaves the fenced entry, clears the unconfirmed mark, counts an accepted publication and notifies exactly then. |
| ScopeState.ScopeState.StorePublication | internal/engine/publish.go:98-209 | The locked half alone: past the gate, a publication is fenced and stored whether or not the scope has been stopped since. |
| ScopeState.ScopeState.FenceFor | internal/engine/scope.go:96-101 | Arming captures both counters of the key. |
| ScopeState.ScopeState.SupersededByDelete | internal/engine/scope.go:110-119 | An armed reader is refused exactly when a delete was counted since; an unarmed one never. |
| ScopeState.ScopeState.SupersededByPublication | internal/engine/scope.go:132-141 | The wider question for an empty read: anything at all counted since. |
| ScopeState.ScopeState.RecordUnconfirmed | internal/engine/scope.go:385-394 | A repair out of attempts marks the key unless something landed since its first attempt. |
| ScopeState.ScopeState.ArmReconcile | internal/engine/scope.go:495-532 | Stale, a new generation with a fresh window, the mailbox and the wake-up in one step; hands back the arming it displaced. |
| ScopeState.ScopeState.TakeReconcile | internal/engine/scope.go:537-549 | Empties the mailbox and returns what was in it. |
| ScopeState.ScopeState.Record | internal/engine/reconcile.go:618-629 | The outcome goes into every open window; a usable one cancels an earlier unusable one. |
| ScopeState.ScopeState.CloseWindow | internal/engine/reconcile.go:549-554 | Exactly the reconcile's own window goes. |
| ScopeState.ScopeState.ClearStale | internal/engine/reconcile.go:582-596 | Clears stale only for the newest window on the connection it was armed on. |
| ScopeState.ScopeState.KeepsCachedValue | internal/engine/reconcile.go:515-533 | When absence from the photograph must not reset a key, and when the absence itself confirmed it. |
| ScopeState.ScopeState.ApplySnapshotRow | internal/engine/reconcile.go:365-453 | One row under the lock: nothing for a superseded arming, a touched key or an unregistered one; a refused row publishes the default only over an empty cache; an unusable outcome in the window leaves the key unconfirmed. |
| ScopeState.ScopeState.ApplyAbsentKey | internal/engine/reconcile.go:462-488 | One absent key under the lock: kept, confirmed, or reset to the default. |
| ScopeState.ScopeState.ApplyScope | internal/engine/reconcile.go:284-315 | The two loops over rows and registered keys equal the folds the quiet-reconcile theorems speak of. |
| ScopeState.ScopeState.FinishIngest | internal/engine/ingest.go:109-143 | Check, publication and recorded outcome are one step, and the answer says whether the row was published. |
| ScopeState.ScopeState.RecordFeedDelete | internal/engine/feed.go:520-531 | A feed delete is counted and touched at arrival. |
| ScopeState.ScopeState.PublishAbsentDelete | internal/engine/feed.go:821-841 | An empty delete read publishes the default unless anything landed on the key since it armed. |
| ScopeState.ScopeState.PublishDelete | internal/engine/feed.go:576-605 | The caller's own Delete resets the key to its default and counts the delete, or is refused by a gone scope. |
| ScopeState.ScopeState.Disconnected | internal/engine/feed.go:488-499 | A lost connection raises stale and the disconnect generation together. |
| ScopeState.ScopeState.Lookup | internal/engine/engine.go:613-650 | One hold reads the entry or the miss, and doubts it exactly if the scope is stale or the key unconfirmed. |
| OneKey.EveryStepIsOneEvent | internal/engine/publish.go:98-209 | In any state every step of the protocol is, to every key, one of eight events; an automaton on the entry field by field, the two counters and the mark says what each does, and the scope refines it. |
| OneKey.EveryRunIsItsEvents | internal/engine/scope.go:60-141 | So over every run what the scope holds of a key is what the automaton makes of that key's events. |
| OneKey.NotifiesWhenCounted | internal/engine/publish.go:173-209 | Subscribers are told of a publication exactly when it counts: it moves its key's counter and no other key's. |
| OneKey.EveryWindowHears | internal/engine/reconcile.go:600-629 | Every step is heard of every key by every window that stays open, as an answer, a failure or nothing, and a new window has heard nothing. |
| OneKey.AWindowKnowsWhatItHeard | internal/engine/reconcile.go:618-629 | Over every run a window that stayed open knows of a key exactly what was said of it: an answer is never forgotten, a failure until the next answer. |
| Served.MarkedByTheLastWord | internal/engine/scope.go:341-394 | After any run a key is unconfirmed exactly if the last event that had a say marked it: a spent repair, or a photograph's row for a key the feed had failed to read. |
| Served.SpentRepairMarks | internal/engine/scope.go:369-394 | A repair that ends unanswered marks its key exactly if nothing landed on it and no delete was counted since the state its first attempt armed in; otherwise it leaves the mark as it was. |
| Served.MarkSurvives | internal/engine/scope.go:341-368 | A mark outlives every run in which nothing is read, published or agreed with under its key. |
| Served.DoubtedRowLeavesMarked | internal/engine/reconcile.go:365-453 | A photograph's usable row for a key its window has no answer for leaves the key marked exactly if the window holds a failure for it (a gone scope keeps the mark it had). |
| Served.EntriesTellTheirOrigin | internal/engine/publish.go:98-209 | In every reachable state a cached entry is the registered default, bare, or carries the revision, the bytes, the time and the author of one and the same row the store wrote for its key. |
| Served.EveryRegisteredKeyIsServed | internal/engine/reconcile.go:490-533 | When a reconcile of an open scope can finish every registered key is cached or was answered for in its window; and whenever such a scope is not stale every registered key is cached, or a delete of it was counted since the confirming resync. |
| Served.LookupIsHonest | internal/engine/engine.go:590-650 | Lookup reports a key stale exactly if the scope is or the last event with a say marked the key; a registered key of an open scope that it does not report stale was decided by a reconcile armed on the current connection, and has an entry unless a delete of it was counted since. |
| StaleFlag.EveryStepMovesTheFlag | internal/engine/scope.go:495-549 | Only resyncs, disconnects and the reconcile worker move the stale flag, the generations, the mailbox and its wake-up, each as spelled out. |
| StaleFlag.StaleIsTheLastWord | internal/engine/reconcile.go:556-596 | Over every run the scope is stale exactly if the last word about it was a resync or a disconnect, or there was none; the generations count them. |
| StaleFlag.ReconcileConfirmsExactly | internal/engine/reconcile.go:582-596 | A reconcile that finishes leaves the scope fresh if and only if it was, or no resync has come since the one that armed it and nothing disconnected since. |
| Photograph.QuietReconcileSettles | internal/engine/reconcile.go:242-315 | An undisturbed reconcile leaves each registered key as the fenced row, the value in force for a refused row, or the default when absent, and announces exactly the keys it changed, in whatever order the rows came. |
| Photograph.ReconcileEndsStaleness | internal/engine/reconcile.go:242-315 | A reconcile of a newer-armed scope changes nothing; any other moves only what is kept per key, and ends the scope's staleness exactly if nothing disconnected since it armed. |
| Photograph.SecondReconcileIsIdle | internal/engine/reconcile.go:365-533 | A second run over the same snapshot changes no value and no revision, and is silent for a key exactly when its usable row does not carry revision 0. |
| QuietReconcile.OtherWritesConfess | internal/engine/reconcile.go:600-629 | Every step other than the reconcile's own two that writes a key's cache entry records a usable outcome for it in every open window. |
| QuietReconcile.QuietReconcileConverges | internal/engine/reconcile.go:242-315 | In every interleaving, when a reconcile finishes each registered key with no outcome in its window, whose stored row was usable and untouched since the List, agrees with the store; and stale ends exactly when no newer resync and no disconnect came after the arming. |
| Convergence.OnlyNewestWrites | internal/engine/reconcile.go:365-376 | In every reachable state, a reconcile step that writes the cache belongs to the newest arming, with nothing newer waiting or open. |
| Convergence.MailboxOrder | internal/engine/scope.go:495-549 | The pending arming is the newest, its wake-up is on its way, and each open window has exactly one owner: mailbox, worker, or the goroutine closing it. |
| Causality.CausalKept | internal/engine/ingest.go:109-143 | Every step keeps: a reader whose delete counter still matches started after every counted delete, and an untouched key of a window has had none counted since it opened. |
| Convergence.CountedForever | internal/engine/feed.go:520-531 | Once a feed delete arrived or a local Delete was published, no run ever puts in the cache a row of the key whose store call had already started. |
| Convergence.NoResurrection | internal/engine/reconcile.go:371-383 | A row put in the cache by a re-read or a reconcile was fetched by a store call that started after every counted delete of its key. |
| Convergence.NoResurrectionEver | internal/engine/feed.go:576-605 | The same over the whole history of the cache. |
| StoreLog.LiveRowIsNewest | internal/store/store.go:101 | With positive climbing revisions, the row a read finds is at or above every revision written for the key since it came to life. |
| ReadYourWrites.EmptyReadRefused | internal/engine/feed.go:821-841 | An empty read of a deleted key cannot publish the default over a write acknowledged while it was in flight. |
| ReadYourWrites.AbsenceRefused | internal/engine/reconcile.go:462-533 | A photograph that missed an acknowledged write does not reset its key. |
| ReadYourWrites.KeptKept | internal/engine/ingest.go:109-143 | Every step keeps all acknowledged writes in force, and every cached revision one the store has written. |
| Boundaries.AcknowledgedWriteSurvives | internal/client/set.go:110-119 | Once Publish of revision r returned nil, every run that does not remove the row keeps the cached revision at r or above, if and only if no local Delete of the key was committed and unpublished at that moment. |
| Boundaries.SetLeavesCacheOffStore | internal/engine/engine.go:546-560 | An accepted local Set leaves the cached revision off the store's live one exactly when the row it committed has been removed or written over at another revision. |
| Boundaries.LateReReadLands | internal/engine/scope.go:74-76 | Over a default, a re-read's row lands exactly when no delete of the key was counted since it armed, and is then off the store exactly when it was outlived since the read. |
| Settlement.OnlyLateLandingsLeaveTheStore | internal/engine/publish.go:98-209 | From any reachable state of an open scope, a step takes a key that is settled with the store off it if and only if it lands late: a local Delete over a live row, or, with no row left and no local Delete to come, the row of a local Set or a re-read. |
| Settlement.OffOnlyIfLandedLate | internal/engine/ingest.go:109-143 | A run in which nothing lands late leaves the key with the store, whatever it stores, deletes, re-reads or reconciles. |
| Settlement.ConfirmedIsSettledUnlessSkipped | internal/engine/reconcile.go:242-315 | Not stale means every write of a registered key stored before the newest resync is reflected in a decision, unless the confirming reconcile skipped the key. |
| Rest.RestAgreesUnlessLate | internal/engine/reconcile.go:582-596 | Every run that stores nothing more under the key and comes to rest leaves the cache with the store, if and only if no local Delete is unpublished over a live row and, with no row left, no local Set is unpublished and no re-read holds a row that no counted delete refuses and no local Delete will undo. |
| Rest.AtRestUnlessSkipped | internal/engine/reconcile.go:365-376 | With nothing due any more, a key whose writes precede the newest resync is at rest or was skipped by the confirming reconcile. |
| RestRuns.DelayedDeleteResets | internal/engine/feed.go:576-605 | From a reconciled start, a run in which a Delete published late resets an acknowledged write and comes to rest on it. |
| RestRuns.DelayedSetOutlivesItsRow | internal/engine/engine.go:546-560 | A run in which an unarmed Set, published late, outlives the row the store removed and comes to rest on it. |
| RestRuns.LateReReadUndoesAbsence | internal/engine/scope.go:74-76 | A run in which a re-read undoes the absence a reconcile found, the removal's notice lost with the connection, and comes to rest on a row the store no longer has. |
| RestRuns.AWriteGoesUnheard | internal/engine/reconcile.go:371-383 | A run in which a re-read of the older row lands in the confirming reconcile's window, the newer write's notice is lost with the connection, and nothing is due any more. |
| Convergence.StaleIsSound | internal/engine/reconcile.go:582-596 | Not stale means: the newest arming, on the current connection, decided every registered key, and nothing disconnected since it armed. |
| BytePath.ShortcutRefinesValueFence | internal/engine/publish.go:115-179 | Over any sequence of publications whose bytes spell their values, the bytes shortcut and a fence on values give the same answers and leave the same cache, and cached bytes always decode to the cached value; the two fences agree exactly when equal bytes at an equal revision mean equal values (ShortcutExact). |
| Delivery.DispatchWorker.Submit | internal/engine/dispatch.go:64-74 | The slot holds the newest change and the wake-up is buffered, once. |
| Delivery.DispatchWorker.Take | internal/engine/dispatch.go:78-95 | Empties the slot and says whether anything was in it. |
| Delivery.DispatchWorker.Stop | internal/engine/dispatch.go:56-58 | Idempotent stop. |
| Delivery.SeenIsSubsequence | internal/engine/dispatch.go:170-191 | A subscriber's changes are a subsequence of the accepted publications: none invented, repeated or reordered. |
| Delivery.RevisionFallsOnlyThroughDefault | internal/engine/publish.go:173-208 | Between two deliveries whose revision falls, a revision-0 publication was accepted. |
| Delivery.NoWakeupLost | internal/engine/dispatch.go:60-95 | A waiting change always has a worker that can come for it. |
| Delivery.IdleAgreesWithCache | internal/engine/dispatch.go:262-312 | With slot and worker idle, each subscription older than the last accepted publication was last handed what the cache serves. |
| Delivery.SweptNeverStarts | internal/engine/engine.go:416-445 | From any state, a worker running or not, no run after the sweep launches a worker: the table it cleared stays clear. |
| Delivery.LaunchesOnce | internal/engine/dispatch.go:215-245 | A key of a state has one worker ever, launched by an accepted publication exactly when it has subscribers, the door is open and none was launched before. |
| Delivery.SweptWorkerIsStopped | internal/engine/engine.go:416-445 | A worker has been told to stop exactly once its state was swept, and is listed exactly while it was started and its state was not. |
| Delivery.ClearedTableWouldStartAgain | internal/engine/engine.go:416-445 | Without the mark the sweep leaves, the next accepted publication would launch a second worker. |
| Delivery.StoppedStaysSilent | internal/engine/dispatch.go:262-312 | A stopped worker not already past its re-check calls nobody again. |
| Refresh.RefreshClaims.BeginRefresh | internal/engine/scope.go:433-446 | Claims the key's tracked re-read, or adds a trailing one that remembers a delete. |
| Refresh.RefreshClaims.EndRefresh | internal/engine/scope.go:450-463 | Hands over the trailing read with its op, or releases the claim. |
| Refresh.RefreshClaims.BeginRetry | internal/engine/scope.go:405-420 | Claims the one repair slot of a key and op. |
| Refresh.RefreshClaims.EndRetry | internal/engine/scope.go:424-429 | Releases that slot. |
| Refresh.TrackedReadsNeverOverlap | internal/engine/feed.go:346-361 | Tracked re-reads of a key never overlap. |
| Refresh.EveryNoticeIsRead | internal/engine/feed.go:336-361 | With the key unclaimed, every notification was followed by a read armed after it, a delete by one carrying the delete, whose store call was made unless it timed out waiting for a slot. |
| Refresh.AtMostOneRepair | internal/engine/feed.go:281-334 | A repair descends from one first attempt and no two from the same one. |
| Refresh.FailedReadIsRepaired | internal/engine/feed.go:281-334 | Ending a re-read arms a repair, for the same key and op, exactly if it was a first attempt, it failed, the scope is tracked and no repair of that key and op is under way; so after a failed first attempt one always is. |
| Refresh.ClaimsAreWorkedFor | internal/engine/scope.go:396-470 | A key's claim is held exactly while a tracked re-read of it runs, and a repair slot exactly while its repair does. |
| Refresh.StoreCallsAreBounded | internal/engine/feed.go:785-795 | At most three store calls per key and eight per scope at once. |
| Lifecycle.Activations.Activate | internal/engine/activate.go:44-62 | Starts exactly when the scope is unblocked, unheld, untracked, not cooling and the engine open. |
| Lifecycle.Activations.Launch | internal/engine/activate.go:67-91 | Takes the slot unless the door is shut; a rebuild takes it already superseded. |
| Lifecycle.Activations.Block | internal/engine/activate.go:95-105 | Blocks and supersedes in one step, no other scope touched. |
| Lifecycle.Activations.Unblock | internal/engine/activate.go:109-119 | Clears the block and the cooldown, and starts nothing. |
| Lifecycle.Activations.Reactivate | internal/engine/activate.go:137-151 | Leaves a blocked scope alone, otherwise clears the cooldown and supersedes. |
| Lifecycle.Activations.SupersedeHolder | internal/engine/activate.go:156-162 | Marks the holder, or launches one for a tracked scope nobody holds. |
| Lifecycle.Activations.Release | internal/engine/activate.go:214-233 | A marked slot is kept and unmarked; otherwise it is freed and the cooldown set or cleared. |
| Lifecycle.OneAttemptPerWindow | internal/engine/activate.go:52-62 | After a failed attempt no run starts another, and the scope stays out of service, until the window is over or a verb clears it; then the next call does unless the scope is blocked. |
| Lifecycle.ActivateStartsExactly | internal/engine/activate.go:44-62 | Over every run a call starts an activation exactly if the last of Block and Unblock was no Block, nobody holds the slot, the scope is not in service, Close was never called and no failed attempt with its window still open has gone uncleared; otherwise it changes nothing. |
| Lifecycle.NoHolderPastTheDoor | internal/engine/activate.go:67-91 | Once the door is shut no run adds a holder: no call, and no verb over a scope in service. |
| Lifecycle.SlotHasOneHolder | internal/engine/activate.go:67-91 | The slot is taken exactly while it has a holder, and has at most one. |
| Lifecycle.BlockedIsUntracked | internal/engine/activate.go:193-233 | While the engine is open, a blocked scope with a free slot is out of service. |
| Lifecycle.ServedStateIsCurrent | internal/engine/activate.go:193-233 | A state in service with a free slot was created after the last Block or Reactivate. |
| Lifecycle.SettleLoopIsBounded | internal/engine/activate.go:193-209 | The settle loop turns at most once per supersession. |
| Identity.RowsBelongToTheirState | internal/engine/feed.go:662-780 | Every publication in a cache was let through by a check made while that state was in service; a re-read that returns after its state left lands nowhere, and a snapshot or a local write lands only in the state it was checked for. |
| Identity.ByValueMixesStates | internal/engine/feed.go:703-716 | Comparing scopes by value instead of states by identity, a run puts a row asked for under a dropped state into its successor. |
| Identity.StoppedStateGainsOnlyPastTheGate | internal/engine/engine.go:416-445 | A stopped state can still gain a publication if and only if some re-read, repair, snapshot or local write was past its gate when the stop closed, and it is never tracked again. |
| Identity.PastTheGateStillStores | internal/engine/publish.go:77-97 | The run in which one does. |
| GroupCoordinator.Coordinator.Stamp | internal/group/coordinator.go:278-283 | Observation stamps are drawn once each, in order. |
| GroupCoordinator.Coordinator.Commit | internal/group/coordinator.go:295-344 | Late drops nothing else, the seed's watermark is spent, an undecodable document is an observation that never becomes current. |
| GroupCoordinator.Coordinator.TakeSeed | internal/group/coordinator.go:556-617 | One seed, only while nothing was observed; a decodable one arms the watermark. |
| GroupCoordinator.Coordinator.AnyObserved | internal/group/coordinator.go:632-640 | Whether any scope has been heard from. |
| GroupCoordinator.Coordinator.Add | internal/group/coordinator.go:446-465 | The applier is appended after the seed, under an id never used before. |
| GroupCoordinator.Coordinator.Remove | internal/group/coordinator.go:507-528 | The applier goes and every scope is re-judged without it. |
| GroupCoordinator.Coordinator.Pending | internal/group/coordinator.go:748-763 | Exactly the appliers behind the observation are batched, and marked as offered first. |
| GroupCoordinator.Coordinator.Record | internal/group/coordinator.go:869-891 | Acceptances move an applier forward, the last rejection is kept, skipped deliveries leave no trace. |
| GroupCoordinator.Coordinator.HasConverged | internal/group/coordinator.go:899-916 | Somebody is registered and everybody registered accepted the newest observation. |
| GroupCoordinator.Coordinator.ClearErrIfConverged | internal/group/coordinator.go:899-916 | The error goes exactly then. |
| GroupCoordinator.Coordinator.Drain | internal/group/coordinator.go:671-694 | The loop delivers until nothing is pending and releases the scope. |
| GroupCoordinator.Coordinator.Applied | internal/group/coordinator.go:927-951 | The revision of the applier furthest behind by observation, 0 for one never offered the scope, Desired with none registered. |
| GroupCoordinator.DrainLeavesNothingPending | internal/group/coordinator.go:671-694 | After an undisturbed drain nobody is behind and the scope is released, whatever the appliers answered. |
| GroupCoordinator.DrainLeavesEachAnswer | internal/group/coordinator.go:671-763 | After an undisturbed drain each applier that was behind has been offered the current document and has accepted it exactly if it did not refuse; any other is as it was. |
| GroupCoordinator.DrainReportsTheLastRefusal | internal/group/coordinator.go:869-916 | And the scope reports no error if everybody has accepted the newest observation, otherwise the reason of the last to refuse in registration order, or what it reported before. |
| OneScope.EveryStepIsOneEvent | internal/group/coordinator.go:295-344 | Every step of every interleaving is, to every scope, one of six events; an automaton on the document in force, the observation, Desired, the error and the watermark says what each does. |
| OneScope.DrainsAreOwed | internal/group/coordinator.go:278-358 | A publisher goes on to a fan-out exactly if its document became current, and a registrant to one of every scope heard from. |
| OneScope.StatusTellsTheHistory | internal/group/coordinator.go:295-344 | Over every run Desired is the revision of the newest observation, decoded or not; in force is the newest that decoded; the error is the last word among a document that did not decode, a rejection, and everybody's agreement; the watermark is up exactly from a seed that decoded to the next publication. |
| OneScope.SeedSpendsExactly | internal/group/coordinator.go:360-392 | A publication that was not overtaken is dropped if and only if it is the first since a seed that decoded, is not newer than the seed, and is its document byte for byte, which one that does not marshal never is. |
| OneScope.RosterIsExact | internal/group/coordinator.go:446-528 | The appliers stand in the order they registered in; registering adds one at the end under a fresh id, unsubscribing takes out exactly its own, nothing else moves anybody. |
| OneScope.StandingIsExact | internal/group/coordinator.go:869-891 | An applier moves on to what it was handed exactly when its fan-out comes back with its acceptance, and is offered the current observation exactly when a turn finds it behind. |
| OneScope.FanOutIsExact | internal/group/coordinator.go:748-763 | A turn calls exactly the appliers not yet offered the current observation, in the order they registered in, each with the document it last accepted. |
| Fanout.CallsClimb | internal/group/coordinator.go:236-358 | Per applier and scope the observations offered strictly increase. |
| Fanout.EveryApplierWasCalled | internal/group/coordinator.go:671-763 | With no drain running or owed, every registered applier was called with the scope's current observation. |
| Fanout.StatusIsHonest | internal/group/coordinator.go:869-951 | At rest with somebody registered, no error means everybody accepted the newest observation and Applied equals Desired. |
| Fanout.AppliedIsTheSlowest | internal/group/coordinator.go:927-951 | Applied is Desired with nobody registered, 0 while somebody was never offered the scope, and otherwise the revision of the document last accepted by the first applier whose acceptance is the oldest. |
| Fanout.NeverCalledAfterLeaving | internal/group/coordinator.go:725-738 | An unsubscribed applier can still be started if and only if the drain had already found it registered, and then once. |
| Fanout.CalledAfterLeaving | internal/group/coordinator.go:725-738 | The run in which it is. |
| Fanout.ArmedMeansUnheard | internal/group/coordinator.go:556-617 | In every reachable state an armed watermark means the scope has heard nothing since the seed. |
| Fanout.SeedIsDeliveredOnce | internal/group/coordinator.go:375-392 | At most one publication per seed is dropped, it is called with nowhere, and each applier is called at most once for the pair. |
| Fanout.ScopeNeverMovesBack | internal/group/coordinator.go:306-313 | A scope's observations commit in arrival order, and Desired and current change only with them. |
| Fanout.PreviousIsLastAccepted | internal/group/coordinator.go:963-973 | The previous document an applier is handed is the last one it accepted. |
| Poller.PollOnce | internal/mongodb/mongodb_changestream.go:1631-1749 | One round: the scan of the documents read, then one delete per key missing from the live set and not already announced. |
| Poller.ScanDocs | internal/mongodb/mongodb_changestream.go:1672-1715 | The loop over the query's answer: deduplication, events, watermark, seen set. |
| Poller.RoundLeavesValid | internal/mongodb/mongodb_changestream.go:1631-1749 | Any completed round leaves the live keys and exactly the documents at the new watermark. |
| Poller.RoundEqualsFullDiff | internal/mongodb/mongodb_events.go:54-65 | Replaying a round over the last view gives the live collection, exactly when no live document unknown to the view is stamped below the watermark. |
| Poller.RoundSaysExactly | internal/mongodb/mongodb_changestream.go:1631-1749 | From a completed round, a round names a key exactly if its document is stamped above the watermark, or at it and not as that round found it there with that value, or the diff ran and the key was live and has left nothing to find; each once, an upsert with its document's revision, the written ones first in the order of their stamps. |
| Poller.IdleRoundIsSilent | internal/mongodb/mongodb_events.go:39-65 | A round over the collection as the last completed round left it says nothing, and neither does any after it. |
| Poller.PollingConverges | internal/mongodb/mongodb_changestream.go:1491-1556 | A subscriber stays equal to the collection round after round. |
| Poller.RoundExactly | internal/mongodb/mongodb_changestream.go:1631-1749 | From any view the poller's state tracks, a round gives the live collection if and only if no unknown live document is stamped below the watermark and every vanished key was tombstoned in the answer or compared by this round's diff. |
| Poller.AnyMixExactly | internal/mongodb/mongodb_changestream.go:1491-1556 | The same after any sequence of completed rounds and rounds whose diff was skipped. |
| Poller.SkippedDiffExactly | internal/mongodb/mongodb_changestream.go:1722-1734 | After one skipped diff the next round makes the view equal the collection if and only if nothing came late and every key born in the skipped round is live or tombstoned. |
| Poller.SkippedDiffLosesADelete | internal/mongodb/mongodb_changestream.go:1722-1734 | A key born in a round with a skipped diff and then removed outright stays in the subscriber's view through every later round in which the collection lacks it. |
| Poller.ALostDelete | internal/mongodb/mongodb_changestream.go:1722-1734 | Such rounds exist. |
| MongoRevision.RevisionsNeverRepeat | internal/mongodb/mongodb_crud.go:105-162 | A write keeps the revision exactly when it rewrites the live value unchanged or deletes nothing, and otherwise exceeds every revision the key ever had, under any clock. |
| MongoRevision.ClockIsAFloor | internal/mongodb/mongodb_crud.go:205-213 | A write that changes what is stored takes the lowest revision above the last one and not below the clock; one that keeps no revision lands below the clock exactly if it rewrites unchanged a document from before revisions existed, which gets 1, under a clock past 1. |
| MongoRevision.RecreateOutranks | internal/mongodb/mongodb_crud.go:205-213 | A key set again after a delete outranks every earlier life. |
| MongoRevision.RevisionNamesOneValue | internal/mongodb/mongodb_crud.go:105-162 | Whatever is read later at the revision a Set was given is that Set's value, and a key read at a Delete's revision is gone. |
| MongoRevision.ProvenanceIsTheLastWrite | internal/mongodb/mongodb_crud.go:105-162 | The provenance read is that of the last write that was not an idle Delete, also when it kept the revision. |
| Narration.FeedState.BeginDisconnect | internal/postgres/postgres_listen.go:173-185 | Announces once per outage, to everybody subscribed, never while closing. |
| Narration.FeedState.BeginResync | internal/postgres/postgres_listen.go:195-207 | Announces a connection to everybody subscribed, never while closing. |
| Narration.FeedState.BeginResyncAfterOutage | internal/mongodb/mongodb_changestream.go:227-236 | Announces only the end of an announced outage. |
| Narration.FeedState.Join | internal/postgres/postgres_listen.go:658-668 | One hold adds the subscriber and reads the state it must be told. |
| Narration.MarkersAlternate | internal/postgres/postgres_listen.go:624-724 | A subscriber's markers strictly alternate: no edge twice. |
| Narration.NoEdgeIsMissed | internal/postgres/postgres_listen.go:984-1025 | With no announcement on its way, a subscriber's last marker is the feed's state. |
| Narration.FeedTellsTheConnection | internal/postgres/postgres_listen.go:984-1025 | While a feed is open what it announced last is what its reader knows of the connection. |
| Narration.ClosedFeedAnnouncesNothing | internal/postgres/postgres_listen.go:921-945 | Once a feed is closed no run tells a subscriber of any edge, unless it was already being told. |
| Narration.KeysArriveConnected | internal/mongodb/mongodb_changestream.go:1491-1584 | Every key event arrives while the last marker is a resync, in every state whose feed was not cut off by the teardown. |
| Narration.KeyKeepsPromise | internal/mongodb/mongodb_changestream.go:1491-1584 | Delivering a key, from a stream or a poll, leaves the subscriber's keys all behind a resync if and only if the feed is not cut off. |
| Narration.CutOffFeedTellsKeysUnannounced | internal/postgres/postgres_listen.go:195-207 | The run behind that exception. |
| FeedTable.Store.AcquireFeed | internal/postgres/postgres_listen.go:350-398 | Shares the feed of a scope or reserves its slot; refused while closing, and by a zero feed whose Start failed. |
| FeedTable.Store.ZeroFeedForStart | internal/postgres/postgres_listen.go:288-321 | Start's own slot with an earlier attempt's refusal cleared, or a refusal from a closing store. |
| FeedTable.Store.IsTaken | internal/postgres/postgres_listen.go:503-516 | Whether another feed in the table already reads the database. |
| FeedTable.Store.PublishFeed | internal/postgres/postgres_listen.go:460-493 | Launches the reader, or retracts when closing or when the database is taken. |
| FeedTable.Store.RetractFeed | internal/postgres/postgres_listen.go:539-572 | First cause wins, a named slot goes, waiters are woken once. |
| FeedTable.Store.ClaimIdentity | internal/mongodb/mongodb_changestream.go:424-458 | A probe without an answer changes nothing; a taken identity is refused; otherwise the claim is recorded. |
| FeedTable.Store.ReleaseFeed | internal/postgres/postgres_listen.go:580-595 | The last reference takes a named slot out and stops its reader. |
| FeedTable.Store.StopFeeds | internal/postgres/postgres_listen.go:872-919 | Every feed in the table is failed or stopped once, and the table is emptied under the closing flag. |
| FeedRuns.IdentitiesAreDistinct | internal/postgres/postgres_listen.go:503-516 | No two feeds in the table carry the same identity. |
| FeedRuns.DatabasesAreDistinct | internal/postgres/postgres_listen.go:495-516 | No two scopes in service were last told that they read the same database. |
| FeedRuns.AcquireAnswersExactly | internal/postgres/postgres_listen.go:350-398 | A closing store refuses everybody; otherwise a named scope shares the feed in its slot or reserves it, and the zero scope is refused only while its last Start stands failed, with that cause; whoever is let in holds one more reference to the feed in the slot. |
| FeedRuns.ErrorsTellWhy | internal/postgres/postgres_listen.go:460-572 | A feed's error is its opener's own failure, or that somebody else in the table was last told that it reads the same database, or that the store is closing; the first cause stays, and a retried Start clears the zero feed's. |
| FeedRuns.ReadersAreToldToStop | internal/postgres/postgres_listen.go:872-919 | A feed has been told to stop exactly if it is out of the table and its reader was launched, or it is the zero feed. |
| FeedRuns.NoReaderAfterClosing | internal/postgres/postgres_listen.go:460-493 | Once closing is raised no run makes a feed or launches the reader of one. |
| FeedRuns.OneReaderEach | internal/postgres/postgres_listen.go:822-862 | A feed has at most one reader, however often Start is retried. |
| FeedRuns.ReadyClosesOnce | internal/postgres/postgres_listen.go:521-529 | Each ready channel is closed at most once. |
| FeedRuns.WaitersAreToldTheTruth | internal/postgres/postgres_listen.go:407-422 | A closed ready channel carries no error exactly when the feed's reader is running. |
| FeedRuns.ErrorIsFinal | internal/postgres/postgres_listen.go:531-559 | Once a named feed's waiters have been woken no run changes its error. |
| FeedRuns.SlotLeavesExactly | internal/postgres/postgres_listen.go:580-595 | A named slot leaves exactly on its last release, its failed creation, or Close. |
| FeedRuns.ZeroSlotStays | internal/mongodb/mongodb_changestream.go:946-966 | Every run without a Close leaves the zero slot holding the same feed. |

## Left out

- Boundaries.AcknowledgedWriteSurvives: asks for positive climbing revisions of the key, without which the fence cannot order its rows; `Convergence.AcknowledgedWriteStands` is the same for one given run.
- Convergence.NoResurrection: speaks of rows fetched by re-reads and reconciles; a local Set carries no fence, which is the run of RestRuns.DelayedSetOutlivesItsRow.
- Rest.RestAgreesUnlessLate: starts where the key is not already settled off the store, which at rest is the failure itself; agreement is of revisions, and asks for positive climbing revisions of the key.
- Settlement.ConfirmedIsSettledUnlessSkipped: a refused row counts as skipped, since nothing was decided from it.
- QuietReconcile.QuietReconcileConverges: speaks of keys whose snapshot row was usable; for a refused row the per-key result is Photograph.QuietReconcileSettles.
- ScopeState.ScopeState.Publish: with its gate and its lock in one step, as in Protocol; ScopeState.StopAfterTheGate says why no outcome is missed, and Identity keeps the two apart.
- ScopeState.ScopeState.ApplyScope: the loops without another ingress in between, so its arming cannot be superseded half way; the interleaved form is the worker of Protocol.
- GroupCoordinator.Coordinator.Drain: the loop without another caller in between; the interleaved form, re-entrant appliers included, is Fanout.
- Served.EntriesTellTheirOrigin: asks that every row logged for the key carries bytes; over a row without bytes the fence leaves the cached bytes beside the newer row's time and author.
- Served.SpentRepairMarks: the fence a repair compares with is an argument of its start, and the lemma asks that it is the one armed at its first state; that the goroutine hands its own on is not modelled.
- Refresh.StoreCallsAreBounded: re-reads of a consumer with a quiet window; without one the re-read runs inline on the feed goroutine and only the per-scope bound of getRow applies.
- Narration.KeysArriveConnected: excepts a feed that is closing and not connected, where every delivered key breaks it (KeyKeepsPromise).
- Poller.RoundEqualsFullDiff: the value hash is taken as injective and both queries of a round as reading one state; equality is of values, a revision can differ when a value was removed and restored within one millisecond.
- Integer widths: revisions, generations and counters are unbounded; the source's 64-bit wrap-around is not modelled.
- A reconcile's window is named by its generation in an arming, where the source carries the window itself.
- Protocol has one scope with a registry fixed before the feed opens; closing the engine and dropping the scope are the one flag `gone`. Several states of one scope are in Lifecycle and Identity.
- Decoding and validation are arbitrary verdicts, and a panic in either is a refusal; decoded values are immutable, so cloning and aliasing do not arise.
- The debouncer: a submitted re-read starts at some later step; coalescing of submissions and generations of its timers are not modelled.
- Timeouts, backoff and jitter are choices of the environment, Close's bounded wait included; nothing is proved about how soon anything happens.
- Which context an applier or a subscriber receives, and a panic of the consumer's logger escaping a drain.
- The single-tenant Start path of the engine, which brings up the one scope under a lock of its own; unsubscribing of feeds on a drop.
- A poll round whose cursor fails, which keeps the state it was given; poll documents that fail to decode, and documents with an empty namespace or key.
- MongoDB's evaluation of pipeline expressions, `$literal` quoting included, and the SQL and NOTIFY side of PostgreSQL revisions.
- Subscribe's refusals by mode and missing connector, the observer of a subscription's context, waiting for readers on teardown.
- Admin HTTP, catalog, options, typed getters, metrics, tracing and logging: single-branch facts or I/O.
