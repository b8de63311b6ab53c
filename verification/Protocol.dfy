/**
 The convergence protocol of one scope as a transition system. Every action is one critical section of
 the engine or one end of a store call; re-reads, reconciles, local writes and foreign writers interleave
 freely. `log` is the store itself: everything ever committed to it, in order.
 */
module Protocol {
  import opened Types
  import opened Fence

  // ----- The store -----

  datatype StoreOp = Write(key: NSKey, row: Row) | Remove(key: NSKey)

  /** The rows a snapshot of the store holds after the operations in `log`. */
  function Rows(log: seq<StoreOp>): map<NSKey, Row> {
    if |log| == 0 then map[]
    else
      var before := Rows(log[..|log| - 1]);
      match log[|log| - 1]
      case Write(nk, row) => before[nk := row]
      case Remove(nk) => before - {nk}
  }

  /** A read that observed the store after its first `at` operations. */
  function RowsAt(log: seq<StoreOp>, at: nat): map<NSKey, Row>
    requires at <= |log|
  {
    Rows(log[..at])
  }

  function RowAt(log: seq<StoreOp>, at: nat, nk: NSKey): Option<Row>
    requires at <= |log|
  {
    var rows := RowsAt(log, at);
    if nk in rows then Some(rows[nk]) else None
  }

  // ----- Work in flight -----

  /** Where a re-read stands: inside its store call, back from it, giving up, or fenced and running the validator. */
  datatype Phase =
    | Reading
    | Failed
    | Conceding
    | Read(at: nat, row: Option<Row>)
    | Grading(readAt: nat, found: Row)

  /** A changefeed re-read. `startedAt` and `logStart` are when it armed, by the clock and by the log. */
  datatype ReRead = ReRead(
    key: NSKey,
    deleted: bool,
    retried: bool,
    fence: KeyFence,
    origin: KeyFence,
    startedAt: nat,
    logStart: nat,
    phase: Phase)

  /** A local Set whose row is committed (as log entry `commit - 1`) but not yet published. */
  datatype LocalSet = LocalSet(key: NSKey, row: Row, commit: nat, fenced: bool)

  /** The scope's one reconcile goroutine. Woken: the wake-up was consumed, the mailbox not yet read. */
  datatype WorkerState =
    | Idle
    | Woken
    | Taken(arm: Arming)
    | Listing(arm: Arming, startedAt: nat, logStart: nat)
    | Applying(arm: Arming, startedAt: nat, at: nat, snapshot: map<NSKey, Row>,
               rows: set<NSKey>, absent: set<NSKey>, decided: set<NSKey>, refused: set<NSKey>)
    | Closing(arm: Arming)

  // ----- History, for the theorems only -----

  datatype Count = Count(key: NSKey, at: nat)                    // a delete of key was counted
  datatype Put = Put(key: NSKey, startedAt: nat, at: nat)        // a re-read or reconcile row entered the cache
  datatype Promise = Promise(key: NSKey, revision: int, commit: nat)  // Publish returned nil for this write
  datatype Confirmation = Confirmation(arm: Arming, armedAt: nat, decided: set<NSKey>)  // what cleared stale

  datatype Sys = Sys(
    defaults: map<NSKey, Value>,       // the registry, fixed before the feed opens
    sc: Scope,
    log: seq<StoreOp>,
    rereads: map<nat, ReRead>,
    sets: map<nat, LocalSet>,
    deletes: map<nat, NSKey>,          // local Deletes committed but not yet published
    worker: WorkerState,
    displaced: set<nat>,               // windows the changefeed goroutine is about to close
    clock: nat,
    armedAt: map<nat, nat>,            // generation -> clock
    armedLog: map<nat, nat>,           // generation -> length of the log
    lastDisconnect: nat,
    counts: set<Count>,
    puts: set<Put>,
    promises: set<Promise>,
    confirmed: Option<Confirmation>)

  function Init(defaults: map<NSKey, Value>): Sys {
    Sys(defaults, NewScope, [], map[], map[], map[], Idle, {}, 1, map[], map[], 0, {}, {}, {}, None)
  }

  // ----- Actions, by the goroutine that performs them -----

  /** The store's writers and the consumer's own goroutines. */
  datatype WriterAction =
    | ForeignWrite(op: StoreOp)
    | SetCommit(id: nat, nk: NSKey, row: Row)
    | SetFence(id: nat)
    | SetPublish(id: nat, value: Option<Value>)
    | DeleteCommit(id: nat, nk: NSKey)
    | DeletePublish(id: nat)
    | Shutdown

  /** Changefeed notifications about one key, and the re-reads they schedule. */
  datatype FeedAction =
    | DeleteArrives(nk: NSKey)
    | Start(id: nat, nk: NSKey, deleted: bool, origin: Option<KeyFence>)
    | GetFails(id: nat)
    | GetReturns(id: nat, at: nat)
    | GiveUp(id: nat)
    | Concede(id: nat)
    | Empty(id: nat)
    | FenceRow(id: nat)
    | IngestRow(id: nat, value: Option<Value>)

  /** Changefeed notifications about the connection. */
  datatype LinkAction = Resync | ShutdownTake | CloseDisplaced(g: nat) | Disconnect

  /** The scope's reconcile goroutine. */
  datatype WorkerAction =
    | Wake
    | Take
    | ListStart
    | Abandon
    | ListReturns(at: nat)
    | ApplyRow(nk: NSKey, prepared: Prepared)
    | ApplyAbsent(nk: NSKey)
    | Finish
    | CloseOwn

  datatype Action = Writer(w: WriterAction) | Feed(f: FeedAction) | Link(l: LinkAction) | Worker(k: WorkerAction)

  /** A newer resync owns the scope. */
  predicate Superseded(s: Sys, arm: Arming) { s.sc.reconcileGen != arm.reconcile }

  function Default(s: Sys, nk: NSKey): Option<Value> {
    if nk in s.defaults then Some(s.defaults[nk]) else None
  }

  /** A store operation lands; removing a row ends every promise made for it. */
  function Commit(s: Sys, op: StoreOp): Sys {
    s.(log := s.log + [op],
       promises := if op.Remove? then set p | p in s.promises && p.key != op.key else s.promises)
  }

  predicate NotRemovedSince(log: seq<StoreOp>, nk: NSKey, from: nat) {
    forall i :: from <= i < |log| ==> log[i] != Remove(nk)
  }

  function PreparedRow(nk: NSKey, row: Row, value: Option<Value>): Option<Publication> {
    if value.Some? then Some(RowPublication(nk, row, value.value)) else None
  }

  /** The write Client.Set is told landed: published under an open scope, its row still in the store. */
  predicate Promises(s: Sys, op: LocalSet, value: Option<Value>) {
    value.Some? && !s.sc.gone && op.row.revision > 0 && NotRemovedSince(s.log, op.key, op.commit)
  }

  // ----- Steps -----

  /** When an action can happen. Rows, read points and validator verdicts are the environment's choice. */
  predicate Enabled(s: Sys, a: Action) {
    match a
    case Writer(w) => WriterEnabled(s, w)
    case Feed(f) => FeedEnabled(s, f)
    case Link(l) => LinkEnabled(s, l)
    case Worker(k) => WorkerEnabled(s, k)
  }

  function Next(s: Sys, a: Action): Sys
    requires Enabled(s, a)
  {
    var s' := match a
      case Writer(w) => WriterStep(s, w)
      case Feed(f) => FeedStep(s, f)
      case Link(l) => LinkStep(s, l)
      case Worker(k) => WorkerStep(s, k);
    s'.(clock := s.clock + 1)
  }

  predicate WriterEnabled(s: Sys, w: WriterAction) {
    match w
    case ForeignWrite(_) => true
    case SetCommit(id, nk, _) => id !in s.sets && nk in s.defaults
    case SetFence(id) => id in s.sets && !s.sets[id].fenced
    case SetPublish(id, _) => id in s.sets && s.sets[id].fenced
    case DeleteCommit(id, nk) => id !in s.deletes && nk in s.defaults
    case DeletePublish(id) => id in s.deletes && s.deletes[id] in s.defaults
    case Shutdown => true
  }

  function WriterStep(s: Sys, w: WriterAction): Sys
    requires WriterEnabled(s, w)
  {
    match w
    case ForeignWrite(op) => Commit(s, op)
    case SetCommit(id, nk, row) =>
      Commit(s, Write(nk, row)).(sets := s.sets[id := LocalSet(nk, row, |s.log| + 1, false)])
    case SetFence(id) =>
      s.(sc := Record(s.sc, s.sets[id].key, false), sets := s.sets[id := s.sets[id].(fenced := true)])
    case SetPublish(id, value) => PublishSet(s, id, value)
    case DeleteCommit(id, nk) => Commit(s, Remove(nk)).(deletes := s.deletes[id := nk])
    case DeletePublish(id) => PublishDelete(s, id)
    case Shutdown => s.(sc := s.sc.(gone := true))
  }

  predicate FeedEnabled(s: Sys, f: FeedAction) {
    match f
    case DeleteArrives(nk) => nk in s.defaults
    case Start(id, nk, _, _) => id !in s.rereads && nk in s.defaults
    case GetFails(id) => id in s.rereads && s.rereads[id].phase.Reading?
    case GetReturns(id, at) =>
      id in s.rereads && s.rereads[id].phase.Reading? && s.rereads[id].logStart <= at <= |s.log|
    case GiveUp(id) => id in s.rereads && s.rereads[id].phase.Failed?
    case Concede(id) => id in s.rereads && s.rereads[id].phase.Conceding?
    case Empty(id) =>
      id in s.rereads && s.rereads[id].phase.Read? && s.rereads[id].phase.row.None? && s.rereads[id].key in s.defaults
    case FenceRow(id) => id in s.rereads && s.rereads[id].phase.Read? && s.rereads[id].phase.row.Some?
    case IngestRow(id, _) => id in s.rereads && s.rereads[id].phase.Grading?
  }

  function FeedStep(s: Sys, f: FeedAction): Sys
    requires FeedEnabled(s, f)
  {
    match f
    case DeleteArrives(nk) => s.(sc := FeedDelete(s.sc, nk), counts := s.counts + {Count(nk, s.clock)})
    case Start(id, nk, deleted, origin) =>
      var fence := FenceFor(s.sc, nk);
      s.(rereads := s.rereads[id := ReRead(nk, deleted, origin.Some?, fence,
                                           if origin.Some? then origin.value else fence, s.clock, |s.log|, Reading)])
    case GetFails(id) => s.(rereads := s.rereads[id := s.rereads[id].(phase := Failed)])
    case GetReturns(id, at) =>
      s.(rereads := s.rereads[id := s.rereads[id].(phase := Read(at, RowAt(s.log, at, s.rereads[id].key)))])
    case GiveUp(id) =>  // the failure is fenced first; a repair out of attempts then has its last word
      var op := s.rereads[id];
      s.(sc := Record(s.sc, op.key, false),
         rereads := if op.retried then s.rereads[id := op.(phase := Conceding)] else s.rereads - {id})
    case Concede(id) =>
      s.(sc := RecordUnconfirmed(s.sc, s.rereads[id].key, Armed(s.rereads[id].origin)), rereads := s.rereads - {id})
    case Empty(id) =>
      var op := s.rereads[id];
      s.(sc := if op.deleted then AbsentDelete(s.sc, op.key, Armed(op.fence), s.defaults[op.key])
               else if op.retried then RecordUnconfirmed(s.sc, op.key, Armed(op.origin))
               else s.sc,
         rereads := s.rereads - {id})
    case FenceRow(id) =>
      var op := s.rereads[id];
      s.(sc := Record(s.sc, op.key, false),
         rereads := s.rereads[id := op.(phase := Grading(op.phase.at, op.phase.row.value))])
    case IngestRow(id, value) => IngestReRead(s, id, value)
  }

  predicate LinkEnabled(s: Sys, l: LinkAction) {
    match l
    case Resync => true
    case ShutdownTake => s.sc.gone && s.sc.pending.Full?
    case CloseDisplaced(g) => g in s.displaced
    case Disconnect => true
  }

  function LinkStep(s: Sys, l: LinkAction): Sys
    requires LinkEnabled(s, l)
  {
    match l
    case Resync =>
      var sc := Arm(s.sc);
      s.(sc := sc,
         displaced := if s.sc.pending.Full? then s.displaced + {s.sc.pending.arm.reconcile} else s.displaced,
         armedAt := s.armedAt[sc.reconcileGen := s.clock],
         armedLog := s.armedLog[sc.reconcileGen := |s.log|])
    case ShutdownTake =>  // nothing will drain the mailbox: onResync takes its own arming back
      s.(sc := s.sc.(pending := Vacant), displaced := s.displaced + {s.sc.pending.arm.reconcile})
    case CloseDisplaced(g) => s.(sc := CloseWindow(s.sc, g), displaced := s.displaced - {g})
    case Disconnect => s.(sc := MarkStale(s.sc), lastDisconnect := s.clock)
  }

  /** An empty slot is a normal wake-up: two armings can coalesce into one signal. */
  function OnTake(slot: Slot): WorkerState {
    match slot
    case Vacant => Idle
    case Full(arm) => Taken(arm)
  }

  predicate WorkerEnabled(s: Sys, k: WorkerAction) {
    match k
    case Wake => s.worker.Idle? && s.sc.signal
    case Take => s.worker.Woken?
    case ListStart => s.worker.Taken? && !Superseded(s, s.worker.arm)
    case Abandon =>
      // dropped or superseded before the List, a failed List, or superseded right after it
      s.worker.Listing? || (s.worker.Taken? && (s.sc.gone || Superseded(s, s.worker.arm)))
    case ListReturns(at) =>
      s.worker.Listing? && s.worker.logStart <= at <= |s.log| && !Superseded(s, s.worker.arm)
    case ApplyRow(nk, prepared) =>
      s.worker.Applying? && nk in s.worker.rows && nk in s.worker.snapshot
      && (prepared.Unregistered? <==> nk !in s.defaults)
    case ApplyAbsent(nk) => s.worker.Applying? && s.worker.rows == {} && nk in s.worker.absent && nk in s.defaults
    case Finish => s.worker.Applying? && s.worker.rows == {} && s.worker.absent == {}
    case CloseOwn => s.worker.Closing?
  }

  function WorkerStep(s: Sys, k: WorkerAction): Sys
    requires WorkerEnabled(s, k)
  {
    match k
    case Wake => s.(sc := s.sc.(signal := false), worker := Woken)
    case Take => s.(sc := s.sc.(pending := Vacant), worker := OnTake(s.sc.pending))
    case ListStart => s.(worker := Listing(s.worker.arm, s.clock, |s.log|))
    case Abandon => s.(worker := Closing(s.worker.arm))
    case ListReturns(at) =>
      var snapshot := RowsAt(s.log, at);
      s.(worker := Applying(s.worker.arm, s.worker.startedAt, at, snapshot, snapshot.Keys,
        s.defaults.Keys - snapshot.Keys, {}, {}))
    case ApplyRow(nk, prepared) => ApplySnapshotRow(s, nk, prepared)
    case ApplyAbsent(nk) =>
      s.(sc := AbsentKey(s.sc, s.worker.arm, nk, s.defaults[nk]),
         worker := if Superseded(s, s.worker.arm) then Closing(s.worker.arm)
                   else s.worker.(absent := s.worker.absent - {nk}, decided := s.worker.decided + {nk}))
    case Finish => FinishReconcile(s)
    case CloseOwn => s.(sc := CloseWindow(s.sc, s.worker.arm.reconcile), worker := Idle)
  }

  function PublishSet(s: Sys, id: nat, value: Option<Value>): Sys
    requires id in s.sets
  {
    var op := s.sets[id];
    s.(sc := Ingest(s.sc, op.key, Unarmed, PreparedRow(op.key, op.row, value)),
       sets := s.sets - {id},
       promises := s.promises + if Promises(s, op, value) then {Promise(op.key, op.row.revision, op.commit)} else {})
  }

  /** PublishDelete counts its own delete and, like a removal, ends the promises for the key. */
  function PublishDelete(s: Sys, id: nat): Sys
    requires id in s.deletes && s.deletes[id] in s.defaults
  {
    var nk := s.deletes[id];
    s.(sc := LocalDelete(s.sc, nk, s.defaults[nk]),
       deletes := s.deletes - {id},
       promises := (set p | p in s.promises && p.key != nk),
       counts := if s.sc.gone then s.counts else s.counts + {Count(nk, s.clock)})
  }

  function IngestReRead(s: Sys, id: nat, value: Option<Value>): Sys
    requires id in s.rereads && s.rereads[id].phase.Grading?
  {
    var op := s.rereads[id];
    var pub := PreparedRow(op.key, op.phase.found, value);
    s.(sc := Ingest(s.sc, op.key, Armed(op.fence), pub),
       rereads := s.rereads - {id},
       puts := if Publishable(s.sc, op.key, Armed(op.fence), pub) && Notifies(s.sc, pub.value)
               then s.puts + {Put(op.key, op.startedAt, s.clock)} else s.puts)
  }

  function ApplySnapshotRow(s: Sys, nk: NSKey, prepared: Prepared): Sys
    requires s.worker.Applying? && nk in s.worker.snapshot
  {
    var w := s.worker;
    var row := w.snapshot[nk];
    s.(sc := SnapshotRow(s.sc, w.arm, nk, row, prepared, Default(s, nk)),
       worker := if Superseded(s, w.arm) then Closing(w.arm) else w.(rows := w.rows - {nk}, decided := w.decided + {nk},
                           refused := if prepared.Usable? then w.refused else w.refused + {nk}),
       puts := if TakesRow(s.sc, w.arm, nk) && prepared.Usable?
         && Notifies(s.sc, RowPublication(nk, row, prepared.value))
               then s.puts + {Put(nk, w.startedAt, s.clock)} else s.puts)
  }

  /** clearStale, remembering what authorised it. */
  function FinishReconcile(s: Sys): Sys
    requires s.worker.Applying?
  {
    var w := s.worker;
    var sc := ClearStale(s.sc, w.arm);
    s.(sc := sc,
       worker := Closing(w.arm),
       confirmed := if s.sc.reconcileGen == w.arm.reconcile && s.sc.disconnectGen == w.arm.disconnect
                    then Some(Confirmation(w.arm, ArmedAt(s, w.arm), w.decided)) else s.confirmed)
  }

  function ArmedAt(s: Sys, arm: Arming): nat {
    if arm.reconcile in s.armedAt then s.armedAt[arm.reconcile] else 0
  }

  // ----- Runs -----

  /** Every action of the run was possible when it happened. */
  ghost predicate Possible(s: Sys, run: seq<Action>)
    decreases |run|
  {
    |run| > 0 ==> Enabled(s, run[0]) && Possible(Next(s, run[0]), run[1..])
  }

  ghost function After(s: Sys, run: seq<Action>): Sys
    requires Possible(s, run)
    decreases |run|
  {
    if |run| == 0 then s else After(Next(s, run[0]), run[1..])
  }
}
