/**
 What a reconcile achieves, whatever interleaves with it: every key no outcome was recorded for, and whose row
 the store did not touch since the photograph, ends up agreeing with the store.
 */
module QuietReconcile {
  import opened Types
  import opened Fence
  import opened Protocol
  import opened StoreLog
  import opened Mailbox
  import opened ReadYourWrites
  import opened Convergence
  import Freshness
  import Causality

  // ----- Every other ingress leaves its mark in every open window -----

  predicate SameEntry(sc: Scope, sc': Scope, nk: NSKey) {
    (nk in sc'.entries <==> nk in sc.entries) && (nk in sc.entries ==> sc'.entries[nk] == sc.entries[nk])
  }

  predicate Marked(sc: Scope, nk: NSKey) {
    forall g :: g in sc.windows ==> nk in sc.windows[g].touched
  }

  /** An outcome, usable or not, was recorded for the key in the window. */
  predicate HasOutcome(w: Window, nk: NSKey) { nk in w.touched || nk in w.unusable }

  /** What any ingress does to one key: nothing to its entry, or a usable outcome in every window; outcomes stay. */
  predicate Confesses(sc: Scope, sc': Scope, nk: NSKey) {
    && (SameEntry(sc, sc', nk) || Marked(sc', nk))
    && forall g :: g in sc.windows && g in sc'.windows && HasOutcome(sc.windows[g], nk) ==>
         HasOutcome(sc'.windows[g], nk)
  }

  lemma RecordConfesses(sc: Scope, key: NSKey, usable: bool, nk: NSKey)
    ensures Confesses(sc, Record(sc, key, usable), nk)
    ensures usable ==> Marked(Record(sc, key, usable), key)
  {
  }

  lemma PublishTouchesItsKey(sc: Scope, pub: Publication, nk: NSKey)
    requires nk != pub.key
    ensures SameEntry(sc, Publish(sc, pub), nk)
  {
  }

  lemma PublishRecordConfesses(sc: Scope, pub: Publication, nk: NSKey)
    ensures Confesses(sc, Record(Publish(sc, pub), pub.key, true), nk)
  {
    hide Publish;
    RecordConfesses(Publish(sc, pub), pub.key, true, nk);
    if nk != pub.key { PublishTouchesItsKey(sc, pub, nk); }
  }

  lemma IngestConfesses(sc: Scope, key: NSKey, fence: FeedFence, pub: Option<Publication>, nk: NSKey)
    requires pub.Some? ==> pub.value.key == key
    ensures Confesses(sc, Ingest(sc, key, fence, pub), nk)
  {
    hide Publish, Record, Confesses;
    if Publishable(sc, key, fence, pub) {
      PublishRecordConfesses(sc, pub.value, nk);
    } else {
      RecordConfesses(sc, key, false, nk);
    }
  }

  lemma DeletesConfess(sc: Scope, key: NSKey, fence: FeedFence, def: Value, nk: NSKey)
    ensures Confesses(sc, AbsentDelete(sc, key, fence, def), nk)
    ensures Confesses(sc, LocalDelete(sc, key, def), nk)
  {
    hide Publish, Record, Confesses;
    PublishRecordConfesses(sc, DefaultPublication(key, def, false), nk);
    PublishRecordConfesses(sc, DefaultPublication(key, def, true), nk);
    StillConfesses(sc, nk);
  }

  lemma StillConfesses(sc: Scope, nk: NSKey)
    ensures Confesses(sc, sc, nk)
  {
  }

  lemma ArrivalConfesses(sc: Scope, key: NSKey, origin: FeedFence, nk: NSKey)
    ensures Confesses(sc, FeedDelete(sc, key), nk)
    ensures Confesses(sc, RecordUnconfirmed(sc, key, origin), nk)
  {
    hide Record;
    RecordConfesses(sc, key, true, nk);
  }

  predicate Decides(a: Action) { a.Worker? && (a.k.ApplyRow? || a.k.ApplyAbsent?) }

  lemma WritersConfess(s: Sys, w: WriterAction, nk: NSKey)
    requires WriterEnabled(s, w)
    ensures Confesses(s.sc, WriterStep(s, w).sc, nk)
  {
    hide Ingest, LocalDelete, Record, Confesses;
    StillConfesses(s.sc, nk);
    match w
    case SetFence(id) => RecordConfesses(s.sc, s.sets[id].key, false, nk);
    case SetPublish(id, value) =>
      IngestConfesses(s.sc, s.sets[id].key, Unarmed, PreparedRow(s.sets[id].key, s.sets[id].row, value), nk);
    case DeletePublish(id) => DeletesConfess(s.sc, s.deletes[id], Unarmed, s.defaults[s.deletes[id]], nk);
    case Shutdown => ShutdownConfesses(s.sc, nk);
    case _ =>
  }

  lemma ShutdownConfesses(sc: Scope, nk: NSKey)
    ensures Confesses(sc, sc.(gone := true), nk)
  {
  }

  lemma FeedConfesses(s: Sys, f: FeedAction, nk: NSKey)
    requires FeedEnabled(s, f)
    ensures Confesses(s.sc, FeedStep(s, f).sc, nk)
  {
    hide Ingest, AbsentDelete, FeedDelete, RecordUnconfirmed, Record, Confesses, Publishable, Notifies;
    StillConfesses(s.sc, nk);
    match f
    case DeleteArrives(key) => ArrivalConfesses(s.sc, key, Unarmed, nk);
    case GiveUp(id) => RecordConfesses(s.sc, s.rereads[id].key, false, nk);
    case Concede(id) => ArrivalConfesses(s.sc, s.rereads[id].key, Armed(s.rereads[id].origin), nk);
    case Empty(id) =>
      var op := s.rereads[id];
      DeletesConfess(s.sc, op.key, Armed(op.fence), s.defaults[op.key], nk);
      ArrivalConfesses(s.sc, op.key, Armed(op.origin), nk);
    case FenceRow(id) => RecordConfesses(s.sc, s.rereads[id].key, false, nk);
    case IngestRow(id, value) =>
      var op := s.rereads[id];
      IngestConfesses(s.sc, op.key, Armed(op.fence), PreparedRow(op.key, op.phase.found, value), nk);
    case _ =>
  }

  lemma LinksConfess(s: Sys, l: LinkAction, nk: NSKey)
    requires LinkEnabled(s, l) && Owned(s)
    ensures Confesses(s.sc, LinkStep(s, l).sc, nk)
  {
  }

  lemma WorkersConfess(s: Sys, k: WorkerAction, nk: NSKey)
    requires WorkerEnabled(s, k) && !k.ApplyRow? && !k.ApplyAbsent?
    ensures Confesses(s.sc, WorkerStep(s, k).sc, nk)
  {
    hide RowsAt;
  }

  /** Whoever else writes a key's cache entry records it, as a usable outcome, in every open window. */
  lemma OtherWritesConfess(s: Sys, a: Action, nk: NSKey)
    requires Enabled(s, a) && Owned(s) && !Decides(a)
    ensures Confesses(s.sc, Next(s, a).sc, nk)
  {
    hide Owned, Confesses, WriterStep, FeedStep, LinkStep, WorkerStep, WriterEnabled, FeedEnabled, LinkEnabled,
      WorkerEnabled;
    match a
    case Writer(w) => WritersConfess(s, w, nk);
    case Feed(f) => FeedConfesses(s, f, nk);
    case Link(l) => LinksConfess(s, l, nk);
    case Worker(k) => WorkersConfess(s, k, nk);
  }

  // ----- A decided key nobody disturbed agrees with the store -----

  /** The cache holds what the store holds: the live row's revision, or the registered default at revision 0. */
  predicate Agrees(s: Sys, nk: NSKey)
    requires nk in s.defaults
  {
    && nk in s.sc.entries
    && var row := RowAt(s.log, |s.log|, nk);
       if row.Some? then s.sc.entries[nk].revision == row.value.revision
       else s.sc.entries[nk].revision == 0 && s.sc.entries[nk].value == s.defaults[nk]
  }

  predicate Untouched(log: seq<StoreOp>, nk: NSKey, from: nat) {
    forall i :: from <= i < |log| ==> log[i].key != nk
  }

  /** Nothing was recorded for the key since the window opened, nothing stored since the photograph, its row usable. */
  predicate Undisturbed(s: Sys, nk: NSKey)
    requires s.worker.Applying?
  {
    && !s.sc.gone && !HasOutcome(WindowOf(s.sc, s.worker.arm.reconcile), nk)
    && s.worker.at <= |s.log| && Untouched(s.log, nk, s.worker.at) && nk !in s.worker.refused
  }

  ghost predicate Decided(s: Sys, nk: NSKey) {
    s.worker.Applying? && nk in s.worker.decided && nk in s.defaults && Undisturbed(s, nk) && Rising(s.log, nk) ==>
      Agrees(s, nk)
  }

  /** Until its reconcile has finished, an armed scope reports itself stale. */
  predicate AwaitingIsStale(s: Sys) {
    s.sc.pending.Full? || s.worker.Taken? || s.worker.Listing? || s.worker.Applying? ==> s.sc.stale
  }

  lemma {:induction false} UntouchedRow(log: seq<StoreOp>, nk: NSKey, from: nat)
    requires from <= |log| && Untouched(log, nk, from)
    ensures RowAt(log, |log|, nk) == RowAt(log, from, nk)
    decreases |log|
  {
    assert log[..|log|] == log;
    if from < |log| {
      var front := log[..|log| - 1];
      assert front[..|front|] == front && front[..from] == log[..from];
      UntouchedRow(front, nk, from);
    }
  }

  lemma SameRowWhenAppended(log: seq<StoreOp>, op: StoreOp, nk: NSKey)
    requires op.key != nk
    ensures RowAt(log + [op], |log| + 1, nk) == RowAt(log, |log|, nk)
  {
    assert (log + [op])[..|log| + 1] == log + [op] && log[..|log|] == log && (log + [op])[..|log|] == log;
  }

  /** What a step that decides nothing does to the photograph being applied. */
  predicate Carries(s: Sys, s': Sys) {
    && s'.defaults == s.defaults && (s'.log == s.log || (|s'.log| == |s.log| + 1 && s.log <= s'.log))
    && (s.sc.gone ==> s'.sc.gone)
    && (s'.worker.Applying? && s'.worker.decided != {} ==> s'.worker == s.worker)
  }

  lemma OthersCarry(s: Sys, a: Action)
    requires Enabled(s, a) && !Decides(a)
    ensures Carries(s, Next(s, a))
  {
    hide Carries, WriterStep, FeedStep, LinkStep, WorkerStep, WriterEnabled, FeedEnabled, LinkEnabled, WorkerEnabled;
    match a
    case Writer(w) => WritersCarry(s, w); CarriesOn(s, WriterStep(s, w), s.clock + 1);
    case Feed(f) => FeedCarries(s, f); CarriesOn(s, FeedStep(s, f), s.clock + 1);
    case Link(l) => LinksCarry(s, l); CarriesOn(s, LinkStep(s, l), s.clock + 1);
    case Worker(k) => WorkersCarry(s, k); CarriesOn(s, WorkerStep(s, k), s.clock + 1);
  }

  lemma CarriesOn(s: Sys, s': Sys, clock: nat)
    requires Carries(s, s')
    ensures Carries(s, s'.(clock := clock))
  {
  }

  lemma WritersCarry(s: Sys, w: WriterAction)
    requires WriterEnabled(s, w)
    ensures Carries(s, WriterStep(s, w))
  {
    hide Publish, Record, Promises;
  }

  lemma FeedCarries(s: Sys, f: FeedAction)
    requires FeedEnabled(s, f)
    ensures Carries(s, FeedStep(s, f))
  {
    hide Publish, Record;
  }

  lemma LinksCarry(s: Sys, l: LinkAction)
    requires LinkEnabled(s, l)
    ensures Carries(s, LinkStep(s, l))
  {
  }

  lemma WorkersCarry(s: Sys, k: WorkerAction)
    requires WorkerEnabled(s, k) && !k.ApplyRow? && !k.ApplyAbsent?
    ensures Carries(s, WorkerStep(s, k))
  {
    hide RowsAt;
  }

  lemma CarriesKeepsDecided(s: Sys, s': Sys, nk: NSKey)
    requires Decided(s, nk) && Carries(s, s') && Confesses(s.sc, s'.sc, nk) && Owned(s) && Owned(s')
    requires s.worker.Applying? ==> s.worker.at <= |s.log|
    ensures Decided(s', nk)
  {
    hide Owned, Dated;
    if s'.worker.Applying? && nk in s'.worker.decided && nk in s'.defaults
       && Undisturbed(s', nk) && Rising(s'.log, nk)
    {
      WorkerWindowOpen(s');
      WorkerWindowOpen(s);
      if s'.log != s.log {
        var op := s'.log[|s.log|];
        assert s'.log == s.log + [op];
        RisingBefore(s.log, op, nk);
        SameRowWhenAppended(s.log, op, nk);
        assert Untouched(s.log, nk, s.worker.at) by {
          forall i | s.worker.at <= i < |s.log| ensures s.log[i].key != nk { assert s'.log[i] == s.log[i]; }
        }
      }
    }
  }

  lemma WorkerWindowOpen(s: Sys)
    requires Owned(s) && s.worker.Applying?
    ensures s.worker.arm.reconcile in s.sc.windows
  {
  }

  /** The revision fence can only refuse a live row for being the one already cached. */
  lemma LiveRowLands(s: Sys, nk: NSKey, value: Value)
    requires Kept(s) && Rising(s.log, nk) && RowAt(s.log, |s.log|, nk).Some? && !s.sc.gone
    ensures var row := RowAt(s.log, |s.log|, nk).value; var sc' := Publish(s.sc, RowPublication(nk, row, value));
      nk in sc'.entries && sc'.entries[nk].revision == row.revision
  {
    var row := RowAt(s.log, |s.log|, nk).value;
    var j := RowWasWritten(s.log, |s.log|, nk);
    assert Climbs(s.log, j, nk, row);
    assert Backed(s.log, |s.log|, nk, RevOf(s.sc, nk));
    if RevOf(s.sc, nk) != 0 {
      var i: nat :| i < |s.log| && Wrote(s.log, i, nk, RevOf(s.sc, nk));
      LiveRowIsNewest(s.log, |s.log|, nk, i, RevOf(s.sc, nk));
    }
  }

  lemma RowDecides(s: Sys, key: NSKey, prepared: Prepared, nk: NSKey)
    requires Decided(s, nk) && Owned(s) && Kept(s) && WorkerEnabled(s, ApplyRow(key, prepared))
    ensures Decided(Next(s, Worker(ApplyRow(key, prepared))), nk)
  {
    hide Owned, Rising, Publish;
    var s' := Next(s, Worker(ApplyRow(key, prepared)));
    if key != nk {
      SnapshotRowLeavesOthers(s.sc, s.worker.arm, key, s.worker.snapshot[key], prepared, Default(s, key), nk);
    } else if s'.worker.Applying? && nk in s'.defaults && Undisturbed(s', nk) && Rising(s'.log, nk) {
      UntouchedRow(s.log, nk, s.worker.at);
      KeptSnapshot(s);
      LiveRowLands(s, nk, prepared.value);
    }
  }

  lemma KeptSnapshot(s: Sys)
    requires Kept(s) && s.worker.Applying?
    ensures s.worker.at <= |s.log| && s.worker.snapshot == RowsAt(s.log, s.worker.at)
      && s.worker.absent !! s.worker.snapshot.Keys
  {
  }

  lemma SnapshotRowLeavesOthers(
      sc: Scope, arm: Arming, key: NSKey, row: Row, prepared: Prepared, def: Option<Value>, nk: NSKey)
    requires key != nk
    ensures SameEntry(sc, SnapshotRow(sc, arm, key, row, prepared, def), nk)
    ensures SnapshotRow(sc, arm, key, row, prepared, def).windows == sc.windows
  {
  }

  lemma AbsentKeyLeavesOthers(sc: Scope, arm: Arming, key: NSKey, def: Value, nk: NSKey)
    requires key != nk
    ensures SameEntry(sc, AbsentKey(sc, arm, key, def), nk)
    ensures AbsentKey(sc, arm, key, def).windows == sc.windows
  {
  }

  lemma AbsenceLands(sc: Scope, arm: Arming, nk: NSKey, def: Value)
    requires !sc.gone && sc.reconcileGen == arm.reconcile && !HasOutcome(WindowOf(sc, arm.reconcile), nk)
    ensures var sc' := AbsentKey(sc, arm, nk, def);
      nk in sc'.entries && sc'.entries[nk].revision == 0 && sc'.entries[nk].value == def
  {
  }

  lemma AbsenceDecides(s: Sys, key: NSKey, nk: NSKey)
    requires Decided(s, nk) && Owned(s) && Kept(s) && WorkerEnabled(s, ApplyAbsent(key))
    ensures Decided(Next(s, Worker(ApplyAbsent(key))), nk)
  {
    hide Owned, Rising;
    var s' := Next(s, Worker(ApplyAbsent(key)));
    if key != nk {
      AbsentKeyLeavesOthers(s.sc, s.worker.arm, key, s.defaults[key], nk);
    } else if s'.worker.Applying? && Undisturbed(s', nk) {
      hide Publish;
      AbsenceLands(s.sc, s.worker.arm, nk, s.defaults[nk]);
      UntouchedRow(s.log, nk, s.worker.at);
      KeptSnapshot(s);
    }
  }

  lemma AwaitingKept(s: Sys, a: Action)
    requires AwaitingIsStale(s) && Owned(s) && Enabled(s, a)
    ensures AwaitingIsStale(Next(s, a))
  {
    hide Owned, Freshness.SameEvidence, SameMailbox;
    match a
    case Writer(w) => WritersLeaveMailbox(s, w); Freshness.WritersLeaveEvidence(s, w); SameMailAwaits(s, Next(s, a));
    case Feed(f) => FeedLeavesMailbox(s, f); Freshness.FeedLeavesEvidence(s, f); SameMailAwaits(s, Next(s, a));
    case Link(l) => LinkAwaits(s, l);
    case Worker(k) => WorkerAwaits(s, k);
  }

  lemma SameMailAwaits(s: Sys, s': Sys)
    requires AwaitingIsStale(s) && SameMailbox(s, s') && Freshness.SameEvidence(s, s') && s'.worker == s.worker
    ensures AwaitingIsStale(s')
  {
  }

  lemma LinkAwaits(s: Sys, l: LinkAction)
    requires AwaitingIsStale(s) && Enabled(s, Link(l))
    ensures AwaitingIsStale(Next(s, Link(l)))
  {
  }

  lemma WorkerAwaits(s: Sys, k: WorkerAction)
    requires AwaitingIsStale(s) && Owned(s) && Enabled(s, Worker(k))
    ensures AwaitingIsStale(Next(s, Worker(k)))
  {
    hide SnapshotRow, AbsentKey, RowsAt, TakesRow, Notifies, Dated;
  }

  ghost predicate Converging(s: Sys) {
    AwaitingIsStale(s) && forall nk :: Decided(s, nk)
  }

  lemma ConvergingKept(s: Sys, a: Action)
    requires Converging(s) && Inv(s) && Enabled(s, a)
    ensures Converging(Next(s, a))
  {
    hide Owned, Kept, Causality.Causal, Freshness.Sound, Decided, AwaitingIsStale, Carries, Confesses, Next, Enabled;
    AwaitingKept(s, a);
    OwnedKept(s, a);
    if !Decides(a) { OthersCarry(s, a); }
    forall nk ensures Decided(Next(s, a), nk) {
      assert Decided(s, nk);
      if Decides(a) {
        DecisionDecides(s, a, nk);
      } else {
        OtherWritesConfess(s, a, nk);
        if s.worker.Applying? { KeptSnapshot(s); }
        CarriesKeepsDecided(s, Next(s, a), nk);
      }
    }
  }

  lemma DecisionDecides(s: Sys, a: Action, nk: NSKey)
    requires Decided(s, nk) && Owned(s) && Kept(s) && Enabled(s, a) && Decides(a)
    ensures Decided(Next(s, a), nk)
  {
    hide Decided, Owned, Kept, Next;
    match a.k
    case ApplyRow(key, prepared) => RowDecides(s, key, prepared, nk);
    case ApplyAbsent(key) => AbsenceDecides(s, key, nk);
  }

  lemma {:induction false} RunConverges(s: Sys, run: seq<Action>)
    requires Converging(s) && Inv(s) && Possible(s, run)
    ensures Converging(After(s, run))
    decreases |run|
  {
    hide Converging, Inv, Next, Enabled;
    if |run| > 0 {
      ConvergingKept(s, run[0]);
      InvKept(s, run[0]);
      RunConverges(Next(s, run[0]), run[1..]);
    }
  }

  lemma ReachableConverges(s: Sys)
    requires Reachable(s)
    ensures Converging(s)
  {
    hide Next, Enabled;
    var defaults: map<NSKey, Value>, run: seq<Action> :|
      Possible(Init(defaults), run) && After(Init(defaults), run) == s;
    InitInv(defaults);
    RunConverges(Init(defaults), run);
  }

  /**
   The convergence guarantee. However a reconcile interleaved with re-reads, writes, deletes, other reconnects
   and foreign writers: when it finishes, every registered key for which no outcome reached its window, whose
   row the store did not touch since the photograph and did not refuse, agrees with the store. And it is the
   step that ends the scope's staleness exactly when no newer resync and no disconnect came after its arming.
   */
  lemma QuietReconcileConverges(s: Sys, nk: NSKey)
    requires Reachable(s) && Enabled(s, Worker(Finish))
    ensures nk in s.defaults && Undisturbed(s, nk) && Rising(s.log, nk) ==> Agrees(Next(s, Worker(Finish)), nk)
    ensures !Next(s, Worker(Finish)).sc.stale <==>
      s.sc.reconcileGen == s.worker.arm.reconcile && s.sc.disconnectGen == s.worker.arm.disconnect
  {
    hide Inv, Rising, Next, Enabled, Reachable;
    ReachableInv(s);
    ReachableConverges(s);
    assert Decided(s, nk);
    EverythingIsDecided(s);
    FinishLeavesEntries(s);
  }

  lemma EverythingIsDecided(s: Sys)
    requires Inv(s) && Enabled(s, Worker(Finish))
    ensures s.worker.Applying? && s.worker.decided >= s.defaults.Keys
  {
    hide Owned, Kept, Causality.Causal, Freshness.Confirmed;
  }

  lemma FinishLeavesEntries(s: Sys)
    requires Enabled(s, Worker(Finish))
    ensures var s' := Next(s, Worker(Finish));
      && s'.sc.entries == s.sc.entries && s'.log == s.log && s'.defaults == s.defaults
      && s'.sc.stale == (s.sc.stale && !(s.sc.reconcileGen == s.worker.arm.reconcile
           && s.sc.disconnectGen == s.worker.arm.disconnect))
  {
  }
}
