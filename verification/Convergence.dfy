/** The theorems about whole runs of the convergence protocol. */
module Convergence {
  import opened Types
  import opened Fence
  import opened Protocol
  import opened StoreLog
  import opened Mailbox
  import opened Causality
  import opened ReadYourWrites
  import opened Freshness

  ghost predicate Inv(s: Sys) {
    Owned(s) && Causal(s) && Kept(s) && Sound(s)
  }

  lemma InitInv(defaults: map<NSKey, Value>)
    ensures Inv(Init(defaults))
  {
  }

  lemma InvKept(s: Sys, a: Action)
    requires Inv(s) && Enabled(s, a)
    ensures Inv(Next(s, a))
  {
    hide Owned, Causal, Kept, Sound;
    OwnedKept(s, a);
    CausalKept(s, a);
    KeptKept(s, a);
    SoundKept(s, a);
  }

  lemma {:induction false} RunKeepsInv(s: Sys, run: seq<Action>)
    requires Inv(s) && Possible(s, run)
    ensures Inv(After(s, run))
    decreases |run|
  {
    hide Inv, Next, Enabled;
    if |run| > 0 {
      InvKept(s, run[0]);
      RunKeepsInv(Next(s, run[0]), run[1..]);
    }
  }

  /** A state some run of some process reaches. */
  ghost predicate Reachable(s: Sys) {
    exists defaults: map<NSKey, Value>, run: seq<Action> ::
      Possible(Init(defaults), run) && After(Init(defaults), run) == s
  }

  lemma ReachableInv(s: Sys)
    requires Reachable(s)
    ensures Inv(s)
  {
    hide Inv, Init;
    var defaults: map<NSKey, Value>, run: seq<Action> :|
      Possible(Init(defaults), run) && After(Init(defaults), run) == s;
    InitInv(defaults);
    RunKeepsInv(Init(defaults), run);
  }

  // ----- Mailbox order -----

  /**
   In every reachable state the pending arming is the newest, its wake-up is on its way, and every open
   window belongs to exactly one of: the mailbox, the running reconcile, a goroutine about to close it.
   */
  lemma MailboxOrder(s: Sys)
    requires Reachable(s)
    ensures s.sc.pending.Full? ==> s.sc.pending.arm.reconcile == s.sc.reconcileGen
    ensures s.sc.pending.Full? ==> s.sc.signal || s.worker.Woken?
    ensures s.sc.windows.Keys == PendingGen(s) + WorkerGen(s) + s.displaced
    ensures PendingGen(s) !! WorkerGen(s) !! s.displaced
  {
    ReachableInv(s);
  }

  /**
   A reconcile step that writes the cache belongs to the newest arming ever made, nothing waits in the mailbox, and
   no open window is newer: a default at revision 0 from an older photograph can never land.
   */
  lemma OnlyNewestWrites(s: Sys, k: WorkerAction)
    requires Reachable(s) && Enabled(s, Worker(k)) && Next(s, Worker(k)).sc.entries != s.sc.entries
    ensures HasArm(s.worker) && s.worker.arm.reconcile == s.sc.reconcileGen && s.sc.pending.Vacant?
    ensures forall g :: g in s.sc.windows ==> g <= s.worker.arm.reconcile
  {
    hide Causal, Kept, Sound, Enabled, Next, Owned;
    ReachableInv(s);
    OnlyNewestPublishes(s, k);
  }

  // ----- No resurrection -----

  /** The clock at which the store call behind a row publication started; 0 for any other action. */
  function FetchedFrom(s: Sys, a: Action): nat
    requires Enabled(s, a)
  {
    match a
    case Feed(IngestRow(id, _)) => s.rereads[id].startedAt
    case Worker(ApplyRow(_, _)) => s.worker.startedAt
    case _ => 0
  }

  predicate PutsRow(s: Sys, a: Action, nk: NSKey)
    requires Enabled(s, a)
  {
    FenceFor(Next(s, a).sc, nk).publications != FenceFor(s.sc, nk).publications &&
    match a
    case Feed(IngestRow(_, _)) => true
    case Worker(ApplyRow(_, prepared)) => prepared.Usable?
    case _ => false
  }

  lemma IngestKeepsOthers(sc: Scope, nk: NSKey, fence: FeedFence, pub: Option<Publication>, k: NSKey)
    requires pub.Some? ==> pub.value.key == nk
    requires FenceFor(Ingest(sc, nk, fence, pub), k).publications != FenceFor(sc, k).publications
    ensures k == nk && Publishable(sc, nk, fence, pub)
  {
  }

  lemma SnapshotKeepsOthers(
      sc: Scope, arm: Arming, nk: NSKey, row: Row, prepared: Prepared, def: Option<Value>, k: NSKey)
    requires FenceFor(SnapshotRow(sc, arm, nk, row, prepared, def), k).publications != FenceFor(sc, k).publications
    ensures k == nk && TakesRow(sc, arm, nk)
  {
  }

  /**
   Whatever the interleaving, a row that a re-read or a reconcile puts into the cache was fetched by a Get
   or a List that started after every delete of its key that has been counted.
   */
  lemma NoResurrection(s: Sys, a: Action, nk: NSKey, c: Count)
    requires Reachable(s) && Enabled(s, a) && PutsRow(s, a, nk)
    requires c in s.counts && c.key == nk
    ensures c.at < FetchedFrom(s, a)
  {
    hide Owned, Kept, Sound, Ingest, SnapshotRow, Publishable, TakesRow, Notifies, Fresh;
    ReachableInv(s);
    match a
    case Feed(IngestRow(id, value)) =>
      var op := s.rereads[id];
      var pub := PreparedRow(op.key, op.phase.found, value);
      IngestKeepsOthers(s.sc, op.key, Armed(op.fence), pub, nk);
      PublishableIsFresh(s, id, pub);
      FreshMeans(s, Put(op.key, op.startedAt, s.clock), c);
    case Worker(ApplyRow(k, prepared)) =>
      SnapshotKeepsOthers(s.sc, s.worker.arm, k, s.worker.snapshot[k], prepared, Default(s, k), nk);
      TakenRowIsFresh(s, k);
      FreshMeans(s, Put(k, s.worker.startedAt, s.clock), c);
  }

  lemma FreshMeans(s: Sys, p: Put, c: Count)
    requires Causal(s) && Fresh(s, p) && p.at == s.clock && c in s.counts && c.key == p.key
    ensures c.at < p.startedAt
  {
  }

  /** The same over the whole history: no row that ever entered the cache predates a delete counted before it. */
  lemma NoResurrectionEver(s: Sys, p: Put, c: Count)
    requires Reachable(s) && p in s.puts && c in s.counts && c.key == p.key && c.at < p.at
    ensures c.at < p.startedAt
  {
    ReachableInv(s);
    assert Fresh(s, p);
  }

  /** The two steps that count a delete: its arrival on the feed, and the caller's own Delete on an open scope. */
  predicate CountsDelete(s: Sys, a: Action, nk: NSKey)
    requires Enabled(s, a)
  {
    a == Feed(DeleteArrives(nk)) || (a.Writer? && a.w.DeletePublish? && s.deletes[a.w.id] == nk && !s.sc.gone)
  }

  lemma DeletesAreCounted(s: Sys, a: Action, nk: NSKey)
    requires Enabled(s, a) && CountsDelete(s, a, nk)
    ensures Count(nk, s.clock) in Next(s, a).counts
    ensures FenceFor(Next(s, a).sc, nk).deletes == FenceFor(s.sc, nk).deletes + 1
  {
    if a.Writer? { LocalDeleteCounts(s.sc, nk, s.defaults[nk]); } else { FeedDeleteCounts(s.sc, nk); }
  }

  lemma WriterCounts(s: Sys, w: WriterAction)
    requires WriterEnabled(s, w)
    ensures s.counts <= WriterStep(s, w).counts
  {
    hide Record, Ingest, LocalDelete, Promises, FeedEnabled, LinkEnabled, WorkerEnabled;
  }

  lemma FeedCounts(s: Sys, f: FeedAction)
    requires FeedEnabled(s, f)
    ensures s.counts <= FeedStep(s, f).counts
  {
    hide Record, Ingest, FeedDelete, AbsentDelete, RecordUnconfirmed, Publishable, Notifies;
  }

  lemma ReconcileCounts(s: Sys, l: LinkAction, k: WorkerAction)
    ensures LinkEnabled(s, l) ==> LinkStep(s, l).counts == s.counts
    ensures WorkerEnabled(s, k) ==> WorkerStep(s, k).counts == s.counts
  {
    hide SnapshotRow, AbsentKey, Arm, RowsAt, TakesRow, Notifies, ClearStale;
  }

  lemma CountsStand(s: Sys, a: Action)
    requires Enabled(s, a)
    ensures s.counts <= Next(s, a).counts
  {
    hide WriterStep, FeedStep, LinkStep, WorkerStep, WriterEnabled, FeedEnabled, LinkEnabled, WorkerEnabled;
    match a
    case Writer(w) => WriterCounts(s, w);
    case Feed(f) => FeedCounts(s, f);
    case Link(l) => ReconcileCounts(s, l, Wake);
    case Worker(k) => ReconcileCounts(s, Resync, k);
  }

  lemma {:induction false} CountsStandThroughout(s: Sys, run: seq<Action>)
    requires Possible(s, run)
    ensures s.counts <= After(s, run).counts
    decreases |run|
  {
    hide Next, Enabled;
    if |run| > 0 {
      CountsStand(s, run[0]);
      CountsStandThroughout(Next(s, run[0]), run[1..]);
    }
  }

  /** Once either kind of delete is counted, no store call already under way puts the key's row back, in any run. */
  lemma {:induction false} CountedForever(s: Sys, a: Action, nk: NSKey, run: seq<Action>, p: Put)
    requires Reachable(s) && Enabled(s, a) && CountsDelete(s, a, nk) && Possible(Next(s, a), run)
    requires p in After(Next(s, a), run).puts && p.key == nk && p.at > s.clock
    ensures p.startedAt > s.clock
  {
    hide Next, Enabled, CountsDelete, Owned, Kept, Sound;
    ReachableInv(s);
    InvKept(s, a);
    RunKeepsInv(Next(s, a), run);
    DeletesAreCounted(s, a, nk);
    CountsStandThroughout(Next(s, a), run);
    assert Fresh(After(Next(s, a), run), p);
  }

  // ----- Read your writes -----

  /** The steps that take a write back: its row leaves the store, or a local Delete of the key is published. */
  predicate TakesBack(s: Sys, a: Action, nk: NSKey)
    requires Enabled(s, a)
  {
    a == Writer(ForeignWrite(Remove(nk)))
    || (a.Writer? && a.w.DeleteCommit? && a.w.nk == nk)
    || (a.Writer? && a.w.DeletePublish? && s.deletes[a.w.id] == nk)
  }

  ghost predicate NeverTakenBack(s: Sys, run: seq<Action>, nk: NSKey)
    requires Possible(s, run)
    decreases |run|
  {
    |run| > 0 ==> !TakesBack(s, run[0], nk) && NeverTakenBack(Next(s, run[0]), run[1..], nk)
  }

  lemma FeedMakesNoPromise(s: Sys, f: FeedAction)
    requires FeedEnabled(s, f)
    ensures FeedStep(s, f).promises == s.promises
  {
    hide Publish, Record, Ingest, FeedDelete, AbsentDelete, RecordUnconfirmed;
  }

  lemma ReconcileMakesNoPromise(s: Sys, l: LinkAction, k: WorkerAction)
    ensures LinkEnabled(s, l) ==> LinkStep(s, l).promises == s.promises
    ensures WorkerEnabled(s, k) ==> WorkerStep(s, k).promises == s.promises
  {
    hide SnapshotRow, AbsentKey, Arm, RowsAt;
  }

  lemma WriterKeepsPromise(s: Sys, w: WriterAction, p: Promise)
    requires WriterEnabled(s, w) && p in s.promises && !TakesBack(s, Writer(w), p.key)
    ensures p in WriterStep(s, w).promises
  {
    hide FeedEnabled, LinkEnabled, WorkerEnabled, Record, Ingest, LocalDelete, Promises;
  }

  lemma PromiseStands(s: Sys, a: Action, p: Promise)
    requires Enabled(s, a) && p in s.promises && !TakesBack(s, a, p.key)
    ensures p in Next(s, a).promises
  {
    hide WriterStep, FeedStep, LinkStep, WorkerStep, WriterEnabled, FeedEnabled, LinkEnabled, WorkerEnabled;
    match a
    case Writer(w) => WriterKeepsPromise(s, w, p);
    case Feed(f) => FeedMakesNoPromise(s, f);
    case Link(l) => ReconcileMakesNoPromise(s, l, Wake);
    case Worker(k) => ReconcileMakesNoPromise(s, Resync, k);
  }

  lemma {:induction false} PromiseStandsThroughout(s: Sys, run: seq<Action>, p: Promise)
    requires Possible(s, run) && p in s.promises && NeverTakenBack(s, run, p.key)
    ensures p in After(s, run).promises
    decreases |run|
  {
    hide Next, Enabled, TakesBack;
    if |run| > 0 {
      PromiseStands(s, run[0], p);
      PromiseStandsThroughout(Next(s, run[0]), run[1..], p);
    }
  }

  /**
   Once Publish has returned nil for a write of revision r, no run takes the cached revision below r until
   the row is removed from the store or a local Delete of the key is published: not a re-read in flight, not
   the empty re-read of an earlier delete, not a retry, not a reconcile armed before or after. All it asks
   of the store is that the key's revisions are positive and climb.
   */
  lemma {:induction false} AcknowledgedWriteStands(s: Sys, id: nat, value: Value, run: seq<Action>)
    requires Reachable(s) && Enabled(s, Writer(SetPublish(id, Some(value))))
    requires Promises(s, s.sets[id], Some(value))
    requires var s1 := Next(s, Writer(SetPublish(id, Some(value))));
      Possible(s1, run) && NeverTakenBack(s1, run, s.sets[id].key)
    requires Rising(After(Next(s, Writer(SetPublish(id, Some(value)))), run).log, s.sets[id].key)
    ensures var end := After(Next(s, Writer(SetPublish(id, Some(value)))), run);
      s.sets[id].key in end.sc.entries && end.sc.entries[s.sets[id].key].revision >= s.sets[id].row.revision
  {
    hide Owned, Causal, Sound, Ingest, Promises, TakesBack;
    var op, a := s.sets[id], Writer(SetPublish(id, Some(value)));
    var p := Promise(op.key, op.row.revision, op.commit);
    var s1 := Next(s, a);
    assert p in s1.promises;
    PromiseStandsThroughout(s1, run, p);
    ReachableInv(s);
    InvKept(s, a);
    RunKeepsInv(s1, run);
    KeptPromiseHolds(After(s1, run), p);
  }

  lemma KeptPromiseHolds(s: Sys, p: Promise)
    requires Kept(s) && p in s.promises && Rising(s.log, p.key)
    ensures p.key in s.sc.entries && s.sc.entries[p.key].revision >= p.revision
  {
    assert PromiseKept(s, p);
  }

  // ----- Staleness -----

  /**
   A scope that does not report itself stale has been reconciled: by the newest arming, made on the current
   connection, which decided every registered key, and since which nothing disconnected.
   */
  lemma StaleIsSound(s: Sys)
    requires Reachable(s) && !s.sc.stale
    ensures s.confirmed.Some?
    ensures s.confirmed.value.arm == Arming(s.sc.reconcileGen, s.sc.disconnectGen)
    ensures s.confirmed.value.decided >= s.defaults.Keys
    ensures s.lastDisconnect < s.confirmed.value.armedAt
  {
    ReachableInv(s);
    assert Confirmed(s);
  }
}
