/**
 Where the guarantees end: what exactly takes an acknowledged write back, and what exactly leaves a published row
 in the cache after the store has dropped it.
 */
module Boundaries {
  import opened Types
  import opened Fence
  import opened Protocol
  import opened StoreLog
  import opened ReadYourWrites
  import opened Convergence
  import Causality
  import Freshness
  import Mailbox

  // ----- Registered keys -----

  predicate Registered(s: Sys) {
    && (forall id :: id in s.deletes ==> s.deletes[id] in s.defaults)
    && forall id :: id in s.sets ==> s.sets[id].key in s.defaults
  }

  lemma FeedOwesNothing(s: Sys, f: FeedAction)
    requires FeedEnabled(s, f)
    ensures FeedStep(s, f).defaults == s.defaults
    ensures FeedStep(s, f).sets == s.sets && FeedStep(s, f).deletes == s.deletes
    ensures FeedStep(s, f).log == s.log && FeedStep(s, f).worker == s.worker && FeedStep(s, f).armedLog == s.armedLog
  {
    hide Record, Ingest, FeedDelete, AbsentDelete, RecordUnconfirmed, Publishable, Notifies;
  }

  lemma ReconcileOwesNothing(s: Sys, l: LinkAction, k: WorkerAction)
    ensures LinkEnabled(s, l) ==> LinkStep(s, l) == s.(
      sc := LinkStep(s, l).sc, displaced := LinkStep(s, l).displaced, armedAt := LinkStep(s, l).armedAt,
      armedLog := LinkStep(s, l).armedLog, lastDisconnect := LinkStep(s, l).lastDisconnect)
    ensures WorkerEnabled(s, k) ==> WorkerStep(s, k) == s.(
      sc := WorkerStep(s, k).sc, worker := WorkerStep(s, k).worker, puts := WorkerStep(s, k).puts,
      confirmed := WorkerStep(s, k).confirmed)
  {
    hide SnapshotRow, AbsentKey, Arm, RowsAt, TakesRow, Notifies, ClearStale;
  }

  lemma WriterRegisters(s: Sys, w: WriterAction)
    requires Registered(s) && WriterEnabled(s, w)
    ensures Registered(WriterStep(s, w)) && WriterStep(s, w).defaults == s.defaults
  {
    hide Record, Ingest, LocalDelete, Promises, FeedEnabled, LinkEnabled, WorkerEnabled;
  }

  lemma RegisteredKept(s: Sys, a: Action)
    requires Registered(s) && Enabled(s, a)
    ensures Registered(Next(s, a)) && Next(s, a).defaults == s.defaults
  {
    hide WriterStep, FeedStep, LinkStep, WorkerStep, WriterEnabled, FeedEnabled, LinkEnabled, WorkerEnabled;
    match a
    case Writer(w) => WriterRegisters(s, w);
    case Feed(f) => FeedOwesNothing(s, f);
    case Link(l) => ReconcileOwesNothing(s, l, Wake);
    case Worker(k) => ReconcileOwesNothing(s, Resync, k);
  }

  lemma {:induction false} RunKeepsRegistered(s: Sys, run: seq<Action>)
    requires Registered(s) && Possible(s, run)
    ensures Registered(After(s, run))
    decreases |run|
  {
    hide Next, Enabled, Registered;
    if |run| > 0 {
      RegisteredKept(s, run[0]);
      RunKeepsRegistered(Next(s, run[0]), run[1..]);
    }
  }

  lemma ReachableRegistered(s: Sys)
    requires Reachable(s)
    ensures Registered(s)
  {
    hide Next, Enabled;
    var defaults: map<NSKey, Value>, run: seq<Action> :|
      Possible(Init(defaults), run) && After(Init(defaults), run) == s;
    RunKeepsRegistered(Init(defaults), run);
  }

  // ----- Exactly when an acknowledged write survives -----

  /** A local Delete of the key has left the store and not been published yet. */
  predicate Owes(s: Sys, nk: NSKey) {
    exists id :: id in s.deletes && s.deletes[id] == nk
  }

  /** The row of the key leaves the store. */
  predicate Removes(a: Action, nk: NSKey) {
    a == Writer(ForeignWrite(Remove(nk))) || (a.Writer? && a.w.DeleteCommit? && a.w.nk == nk)
  }

  predicate RemovalFree(run: seq<Action>, nk: NSKey) {
    forall i :: 0 <= i < |run| ==> !Removes(run[i], nk)
  }

  lemma WriterOwesNothing(s: Sys, w: WriterAction, nk: NSKey)
    requires WriterEnabled(s, w) && !Owes(s, nk) && !Removes(Writer(w), nk)
    ensures !(w.DeletePublish? && s.deletes[w.id] == nk) && !Owes(WriterStep(s, w), nk)
  {
    hide Record, Ingest, LocalDelete, Promises, FeedEnabled, LinkEnabled, WorkerEnabled;
  }

  lemma NothingOwed(s: Sys, a: Action, nk: NSKey)
    requires Enabled(s, a) && !Owes(s, nk) && !Removes(a, nk)
    ensures !TakesBack(s, a, nk) && !Owes(Next(s, a), nk)
  {
    hide WriterStep, FeedStep, LinkStep, WorkerStep, FeedEnabled, LinkEnabled, WorkerEnabled;
    match a
    case Writer(w) => WriterOwesNothing(s, w, nk);
    case Feed(f) => FeedOwesNothing(s, f);
    case Link(l) => ReconcileOwesNothing(s, l, Wake);
    case Worker(k) => ReconcileOwesNothing(s, Resync, k);
  }

  lemma {:induction false} NeverTakenBackIfNothingOwed(s: Sys, run: seq<Action>, nk: NSKey)
    requires Possible(s, run) && !Owes(s, nk) && RemovalFree(run, nk)
    ensures NeverTakenBack(s, run, nk)
    decreases |run|
  {
    hide Next, Enabled, TakesBack, Owes, Removes;
    if |run| > 0 {
      NothingOwed(s, run[0], nk);
      forall i | 0 <= i < |run[1..]| ensures !Removes(run[1..][i], nk) { assert run[1..][i] == run[i + 1]; }
      NeverTakenBackIfNothingOwed(Next(s, run[0]), run[1..], nk);
    }
  }

  predicate InForce(s: Sys, nk: NSKey, revision: int) {
    nk in s.sc.entries && s.sc.entries[nk].revision >= revision
  }

  /** No run without a removal of the row, over a store whose revisions climb, takes the key below the revision. */
  ghost predicate Survives(s: Sys, nk: NSKey, revision: int) {
    forall run :: Possible(s, run) && RemovalFree(run, nk) && Rising(After(s, run).log, nk) ==>
      InForce(After(s, run), nk, revision)
  }

  lemma OwedDeleteResets(s: Sys, id: nat)
    requires Registered(s) && id in s.deletes && !s.sc.gone
    ensures Enabled(s, Writer(DeletePublish(id)))
    ensures RevOf(Next(s, Writer(DeletePublish(id))).sc, s.deletes[id]) == 0
    ensures Next(s, Writer(DeletePublish(id))).log == s.log
  {
  }

  lemma {:induction false} OneStep(s: Sys, a: Action)
    requires Enabled(s, a)
    ensures Possible(s, [a]) && After(s, [a]) == Next(s, a)
  {
    hide Next, Enabled;
    assert [a][1..] == [] && Possible(Next(s, a), []);
  }

  lemma {:induction false} Join(s: Sys, run: seq<Action>, more: seq<Action>)
    requires Possible(s, run) && Possible(After(s, run), more)
    ensures Possible(s, run + more) && After(s, run + more) == After(After(s, run), more)
    decreases |run|
  {
    hide Enabled, Next;
    if |run| == 0 {
      assert run + more == more;
    } else {
      assert (run + more)[1..] == run[1..] + more;
      Join(Next(s, run[0]), run[1..], more);
    }
  }

  /**
   Read-your-writes, exactly. When Publish returns nil for a write of revision r, no run in which the row is not
   removed takes the cached revision below r, if and only if no local Delete of the key was then committed and
   still unpublished. The caller that issues its Sets and Deletes of a key one after the other is always safe.
   */
  lemma AcknowledgedWriteSurvives(s: Sys, id: nat, value: Value)
    requires Reachable(s) && Enabled(s, Writer(SetPublish(id, Some(value)))) && Promises(s, s.sets[id], Some(value))
    requires Rising(s.log, s.sets[id].key)
    ensures var s1 := Next(s, Writer(SetPublish(id, Some(value))));
      Survives(s1, s.sets[id].key, s.sets[id].row.revision) <==> !Owes(s, s.sets[id].key)
  {
    hide Ingest, Promises, Rising, Registered, Owes, RemovalFree, NeverTakenBack;
    var op, a := s.sets[id], Writer(SetPublish(id, Some(value)));
    var s1 := Next(s, a);
    SetPublishOwes(s, id, Some(value));
    if Owes(s, op.key) {
      ReachableRegistered(s);
      RegisteredKept(s, a);
      OwedBreaks(s1, op.key, op.row.revision);
    } else {
      forall run | Possible(s1, run) && RemovalFree(run, op.key) && Rising(After(s1, run).log, op.key)
        ensures InForce(After(s1, run), op.key, op.row.revision)
      {
        NeverTakenBackIfNothingOwed(s1, run, op.key);
        AcknowledgedWriteStands(s, id, value, run);
      }
    }
  }

  lemma SetPublishOwes(s: Sys, id: nat, value: Option<Value>)
    requires Enabled(s, Writer(SetPublish(id, value)))
    ensures var s1 := Next(s, Writer(SetPublish(id, value)));
      && s1.deletes == s.deletes && s1.log == s.log && s1.sc.gone == s.sc.gone
      && (Owes(s1, s.sets[id].key) <==> Owes(s, s.sets[id].key))
      && (Promises(s, s.sets[id], value) ==> !s.sc.gone && s.sets[id].row.revision > 0)
  {
    hide Ingest;
    IngestLeavesGone(s.sc, s.sets[id].key, Unarmed, PreparedRow(s.sets[id].key, s.sets[id].row, value));
  }

  lemma IngestLeavesGone(sc: Scope, nk: NSKey, fence: FeedFence, pub: Option<Publication>)
    ensures Ingest(sc, nk, fence, pub).gone == sc.gone
  {
  }

  lemma OwedBreaks(s: Sys, nk: NSKey, revision: int)
    requires Registered(s) && Owes(s, nk) && !s.sc.gone && revision > 0 && Rising(s.log, nk)
    ensures !Survives(s, nk, revision)
  {
    hide Rising, Next, Enabled;
    var id :| id in s.deletes && s.deletes[id] == nk;
    var a := Writer(DeletePublish(id));
    OwedDeleteResets(s, id);
    OneStep(s, a);
    assert RemovalFree([a], nk);
    assert !InForce(After(s, [a]), nk, revision);
  }

  // ----- Exactly when a published row outlives the store's -----

  /** The cache serves another revision than the live row's, or a row where the store has none. */
  predicate OffStore(s: Sys, nk: NSKey) {
    var row := RowAt(s.log, |s.log|, nk);
    RevOf(s.sc, nk) != if row.Some? then row.value.revision else 0
  }

  lemma RowOffStore(s: Sys, nk: NSKey, from: nat, revision: int)
    requires from <= |s.log| && Rising(s.log, nk) && revision > 0 && RevOf(s.sc, nk) == revision
    requires RowAt(s.log, from, nk).Some? && RowAt(s.log, from, nk).value.revision == revision
    ensures OffStore(s, nk) <==> Outlived(s.log, nk, from, |s.log|, revision)
  {
    StillLive(s.log, nk, from, |s.log|, revision);
  }

  /** The publication a local Set makes of the row it committed. */
  function SetPublication(op: LocalSet, value: Value): Publication { RowPublication(op.key, op.row, value) }

  /**
   An accepted local Set carries no fence, and leaves the cache off the store if and only if the row it committed
   has been removed, or written over at another revision, before it was published.
   */
  lemma SetLeavesCacheOffStore(s: Sys, id: nat, value: Value)
    requires Reachable(s) && Enabled(s, Writer(SetPublish(id, Some(value)))) && !s.sc.gone
    requires Notifies(s.sc, SetPublication(s.sets[id], value)) && Rising(s.log, s.sets[id].key)
    ensures var op := s.sets[id];
      OffStore(Next(s, Writer(SetPublish(id, Some(value)))), op.key)
      <==> Outlived(s.log, op.key, op.commit, |s.log|, op.row.revision)
  {
    hide Inv, Ingest, Rising, Outlived, OffStore, Notifies;
    var op, s1 := s.sets[id], Next(s, Writer(SetPublish(id, Some(value))));
    ReachableInv(s);
    SetRowWasLive(s, id);
    SetPublishOwes(s, id, Some(value));
    AcceptedLands(s.sc, op.key, op.row, value, Unarmed);
    RowOffStore(s1, op.key, op.commit, op.row.revision);
  }

  lemma SetRowWasLive(s: Sys, id: nat)
    requires Inv(s) && id in s.sets && Rising(s.log, s.sets[id].key)
    ensures var op := s.sets[id];
      op.commit <= |s.log| && RowAt(s.log, op.commit, op.key) == Some(op.row) && op.row.revision > 0
  {
    hide Mailbox.Owned, Causality.Causal, Freshness.Sound;
    var op := s.sets[id];
    assert SetLogged(s.log, op);
    assert s.log[..op.commit][..op.commit - 1] == s.log[..op.commit - 1];
    assert Climbs(s.log, op.commit - 1, op.key, op.row);
  }

  lemma AcceptedLands(sc: Scope, nk: NSKey, row: Row, value: Value, fence: FeedFence)
    requires Notifies(sc, RowPublication(nk, row, value)) && !SupersededByDelete(sc, nk, fence)
    ensures RevOf(Ingest(sc, nk, fence, Some(RowPublication(nk, row, value))), nk) == row.revision
  {
  }

  // ----- Exactly when a re-read brings a row back -----

  /**
   A reconcile that found a key absent publishes its default and counts no delete, so a re-read whose store call
   came before can still bring its row back. It does if and only if no delete of the key has been counted since it
   armed; and the row it brings back is one the store no longer has exactly if it was outlived since the read.
   */
  lemma LateReReadLands(s: Sys, id: nat, value: Value)
    requires Reachable(s) && Enabled(s, Feed(IngestRow(id, Some(value)))) && !s.sc.gone
    requires RevOf(s.sc, s.rereads[id].key) == 0 && Rising(s.log, s.rereads[id].key)
    ensures var op, s1 := s.rereads[id], Next(s, Feed(IngestRow(id, Some(value))));
      && (RevOf(s1.sc, op.key) == op.phase.found.revision <==>
            forall c :: c in s.counts && c.key == op.key ==> c.at < op.startedAt)
      && (RevOf(s1.sc, op.key) == op.phase.found.revision ==>
            (OffStore(s1, op.key) <==> Outlived(s.log, op.key, op.phase.readAt, |s.log|, op.phase.found.revision)))
  {
    hide Inv, Ingest, Rising, Outlived, OffStore, RowAt;
    var op, s1 := s.rereads[id], Next(s, Feed(IngestRow(id, Some(value))));
    ReachableInv(s);
    ReadRowWasLive(s, id);
    assert s1.log == s.log;
    IngestOverDefault(s.sc, op.key, op.phase.found, value, Armed(op.fence));
    if RevOf(s1.sc, op.key) == op.phase.found.revision {
      RowOffStore(s1, op.key, op.phase.readAt, op.phase.found.revision);
    }
  }

  lemma ReadRowWasLive(s: Sys, id: nat)
    requires Inv(s) && id in s.rereads && s.rereads[id].phase.Grading? && Rising(s.log, s.rereads[id].key)
    ensures var op := s.rereads[id];
      && op.phase.readAt <= |s.log| && RowAt(s.log, op.phase.readAt, op.key) == Some(op.phase.found)
      && op.phase.found.revision > 0
      && (op.fence.deletes == Causality.Deletes(s.sc, op.key) <==>
            forall c :: c in s.counts && c.key == op.key ==> c.at < op.startedAt)
  {
    hide Mailbox.Owned, Freshness.Sound, Rising;
    var op := s.rereads[id];
    assert ReReadHonest(s, op) && Causality.FencedByCounts(s, op);
    PositiveIfRising(s.log, op.key, op.phase.found.revision);
  }

  lemma IngestOverDefault(sc: Scope, nk: NSKey, row: Row, value: Value, fence: FeedFence)
    requires !sc.gone && RevOf(sc, nk) == 0 && row.revision > 0 && fence.Armed?
    ensures RevOf(Ingest(sc, nk, fence, Some(RowPublication(nk, row, value))), nk)
      == if fence.seen.deletes == Causality.Deletes(sc, nk) then row.revision else 0
  {
  }
}
