/**
 The cache against the store at rest: a key whose every write has been heard of agrees with the store in every run
 that comes to rest, if and only if nothing late is under way; and the runs in which something is.
 */
module Rest {
  import opened Types
  import opened Fence
  import opened Protocol
  import opened StoreLog
  import opened ReadYourWrites
  import opened Convergence
  import opened Boundaries
  import opened Settlement
  import Causality
  import Freshness
  import Mailbox
  import Quiet = QuietReconcile

  // ----- Rest -----

  /** Nothing of the key is in flight, and no reconcile is armed or running. */
  predicate Still(s: Sys, nk: NSKey) {
    && (forall id :: id in s.rereads ==> s.rereads[id].key != nk)
    && !HasSet(s, nk) && !Owes(s, nk) && s.worker.Idle? && s.sc.pending.Vacant?
  }

  /** No notice of a write of the key is to come: a newer resync covers it, or a re-read armed after it has ended. */
  predicate Delivered(s: Sys, t: Trail, nk: NSKey) {
    && s.sc.reconcileGen in s.armedLog
    && forall i :: 0 <= i < |s.log| && s.log[i].key == nk ==> i < s.armedLog[s.sc.reconcileGen] || i < t.answered
  }

  /** The scope is open and confirmed, the key is confirmed, and nothing is left that would touch it. */
  predicate NothingDue(s: Sys, t: Trail, nk: NSKey) {
    !s.sc.gone && !s.sc.stale && nk !in s.sc.unconfirmed && Still(s, nk) && Delivered(s, t, nk)
  }

  /** And every write of the key is reflected in a decision. */
  predicate AtRest(s: Sys, t: Trail, nk: NSKey) { NothingDue(s, t, nk) && Settled(s, t, nk) }

  /** The run stores nothing under the key, and its end is at rest. */
  ghost predicate ComesToRest(s: Sys, t: Trail, run: seq<Action>, nk: NSKey)
    requires Possible(s, run)
  {
    && NeverStored(run, nk) && Rising(After(s, run).log, nk)
    && AtRest(After(s, run), TrailAfter(s, t, run, nk), nk)
  }

  /** Every run that stores nothing more under the key and comes to rest leaves the cache with the store. */
  ghost predicate RestsOnStore(s: Sys, t: Trail, nk: NSKey) {
    forall run :: Possible(s, run) && ComesToRest(s, t, run, nk) ==> !OffStore(After(s, run), nk)
  }

  lemma NothingLateRestsOnStore(s: Sys, t: Trail, nk: NSKey)
    requires Reached(s, t, nk) && Fine(s, t, nk) && !Late(s, nk)
    ensures RestsOnStore(s, t, nk)
  {
    hide Inv, TrailOk, Fine, Late, Next, Enabled, Rising, OffStore;
    ReachedOk(s, t, nk);
    forall run | Possible(s, run) && ComesToRest(s, t, run, nk)
      ensures !OffStore(After(s, run), nk)
    {
      RunKeepsFine(s, t, run, nk);
      RestIsFine(After(s, run), TrailAfter(s, t, run, nk), nk);
    }
  }

  lemma RestIsFine(s: Sys, t: Trail, nk: NSKey)
    requires AtRest(s, t, nk) && Fine(s, t, nk) && Rising(s.log, nk)
    ensures !OffStore(s, nk)
  {
  }

  // ----- What the steps towards rest leave alone -----

  /** The store, the registry, the connection and the reconcile are where they were. */
  predicate SameStage(s: Sys, s': Sys) {
    && s'.log == s.log && s'.defaults == s.defaults && s'.worker == s.worker && s'.armedLog == s.armedLog
    && s'.sc.gone == s.sc.gone && s'.sc.stale == s.sc.stale && s'.sc.pending == s.sc.pending
    && s'.sc.reconcileGen == s.sc.reconcileGen && s'.sc.disconnectGen == s.sc.disconnectGen
  }

  lemma FeedStage(s: Sys, f: FeedAction)
    requires FeedEnabled(s, f)
    ensures SameStage(s, Next(s, Feed(f)))
    ensures Next(s, Feed(f)).sets == s.sets && Next(s, Feed(f)).deletes == s.deletes
  {
    hide FeedStep, FeedEnabled;
    FeedOwesNothing(s, f);
    FeedGone(s, f);
    Freshness.FeedLeavesEvidence(s, f);
    Mailbox.FeedLeavesMailbox(s, f);
  }

  lemma FeedCountsNothing(s: Sys, f: FeedAction)
    requires FeedEnabled(s, f) && !f.DeleteArrives?
    ensures Causality.KeepsDeletes(s.sc, FeedStep(s, f).sc)
  {
    hide Causality.KeepsDeletes, Record, Ingest, AbsentDelete, RecordUnconfirmed, Publishable, Notifies;
    NoChangeKeepsDeletes(s.sc);
    match f
    case GiveUp(id) => Causality.RecordKeepsDeletes(s.sc, s.rereads[id].key, false);
    case Concede(id) => Causality.UnconfirmedKeepsDeletes(s.sc, s.rereads[id].key, Armed(s.rereads[id].origin));
    case Empty(id) =>
      var op := s.rereads[id];
      Causality.AbsentKeepsDeletes(s.sc, Arming(0, 0), op.key, Armed(op.fence), s.defaults[op.key]);
      Causality.UnconfirmedKeepsDeletes(s.sc, op.key, Armed(op.origin));
    case FenceRow(id) => Causality.RecordKeepsDeletes(s.sc, s.rereads[id].key, false);
    case IngestRow(id, value) =>
      var op := s.rereads[id];
      Causality.IngestKeepsDeletes(s.sc, op.key, Armed(op.fence), PreparedRow(op.key, op.phase.found, value));
    case _ =>
  }

  lemma NoChangeKeepsDeletes(sc: Scope)
    ensures Causality.KeepsDeletes(sc, sc)
  {
  }

  predicate Publishes(w: WriterAction) { w.SetFence? || w.SetPublish? || w.DeletePublish? }

  lemma WriterStage(s: Sys, w: WriterAction)
    requires WriterEnabled(s, w) && Publishes(w)
    ensures SameStage(s, Next(s, Writer(w))) && Next(s, Writer(w)).rereads == s.rereads
  {
    hide WriterStep, WriterEnabled;
    WriterLog(s, w);
    WriterReReads(s, w);
    WriterGone(s, w);
    WriterKeepsArmings(s, w);
    Freshness.WritersLeaveEvidence(s, w);
    Mailbox.WritersLeaveMailbox(s, w);
  }

  lemma SetStep(s: Sys, w: WriterAction)
    requires WriterEnabled(s, w) && (w.SetFence? || w.SetPublish?)
    ensures WriterStep(s, w).deletes == s.deletes && Causality.KeepsDeletes(s.sc, WriterStep(s, w).sc)
    ensures WriterStep(s, w).sets
      == if w.SetFence? then s.sets[w.id := s.sets[w.id].(fenced := true)] else s.sets - {w.id}
  {
    hide Causality.KeepsDeletes, Record, Ingest, Promises;
    var op := s.sets[w.id];
    if w.SetFence? { Causality.RecordKeepsDeletes(s.sc, op.key, false); }
    else { Causality.IngestKeepsDeletes(s.sc, op.key, Unarmed, PreparedRow(op.key, op.row, w.value)); }
  }

  // ----- Runs, put together -----

  ghost predicate Goes(s: Sys, run: seq<Action>, s': Sys, nk: NSKey) {
    Possible(s, run) && After(s, run) == s' && NeverStored(run, nk)
  }

  lemma GoesBy(s: Sys, a: Action, nk: NSKey)
    requires Enabled(s, a) && !Stores(a, nk)
    ensures Goes(s, [a], Next(s, a), nk)
  {
    OneStep(s, a);
  }

  lemma GoesOn(s: Sys, run: seq<Action>, s1: Sys, more: seq<Action>, s2: Sys, nk: NSKey)
    requires Goes(s, run, s1, nk) && Goes(s1, more, s2, nk)
    ensures Goes(s, run + more, s2, nk)
  {
    hide Next, Enabled, Stores;
    Join(s, run, more);
  }

  lemma {:induction false} TrailJoins(s: Sys, t: Trail, run: seq<Action>, more: seq<Action>, nk: NSKey)
    requires Possible(s, run) && Possible(After(s, run), more)
    ensures Possible(s, run + more)
    ensures TrailAfter(s, t, run + more, nk) == TrailAfter(After(s, run), TrailAfter(s, t, run, nk), more, nk)
    decreases |run|
  {
    hide Next, Enabled, Observe;
    if |run| == 0 {
      assert run + more == more;
    } else {
      assert (run + more)[1..] == run[1..] + more;
      TrailJoins(Next(s, run[0]), Observe(s, t, run[0], nk), run[1..], more, nk);
    }
  }

  // ----- Bringing the key's own work to an end -----

  /** What a step towards the end of the key's work leaves alone. */
  ghost predicate Undisturbed(s: Sys, s': Sys) { SameStage(s, s') && Causality.KeepsDeletes(s.sc, s'.sc) }

  lemma UndisturbedOn(s: Sys, s1: Sys, s2: Sys)
    requires Undisturbed(s, s1) && Undisturbed(s1, s2)
    ensures Undisturbed(s, s2)
  {
    forall g | g in s.sc.windows ensures s.sc.windows[g].touched <= s2.sc.windows[g].touched {
      assert s.sc.windows[g].touched <= s1.sc.windows[g].touched;
    }
  }

  function NextOf(s: Sys, id: nat, v: Value): FeedAction
    requires id in s.rereads
  {
    match s.rereads[id].phase
    case Reading => GetReturns(id, |s.log|)
    case Failed => GiveUp(id)
    case Conceding => Concede(id)
    case Read(_, row) => if row.None? then Empty(id) else FenceRow(id)
    case Grading(_, _) => IngestRow(id, Some(v))
  }

  function StepsLeft(p: Phase): nat {
    match p
    case Reading => 3
    case Failed => 2
    case Read(_, _) => 2
    case Conceding => 1
    case Grading(_, _) => 1
  }

  /** The phase a re-read's own step leaves it in; None when the re-read is over. */
  function PhaseAfter(s: Sys, f: FeedAction): Option<Phase>
    requires FeedEnabled(s, f) && !f.DeleteArrives? && !f.Start?
  {
    var op := s.rereads[f.id];
    match f
    case GetFails(_) => Some(Failed)
    case GetReturns(_, at) => Some(Read(at, RowAt(s.log, at, op.key)))
    case GiveUp(_) => if op.retried then Some(Conceding) else None
    case FenceRow(_) => Some(Grading(op.phase.at, op.phase.row.value))
    case _ => None
  }

  lemma OwnStep(s: Sys, f: FeedAction)
    requires FeedEnabled(s, f) && !f.DeleteArrives? && !f.Start?
    ensures FeedStep(s, f).rereads == match PhaseAfter(s, f)
      case Some(phase) => s.rereads[f.id := s.rereads[f.id].(phase := phase)]
      case None => s.rereads - {f.id}
  {
    hide Record, Ingest, AbsentDelete, RecordUnconfirmed, Publishable, Notifies, RowAt;
  }

  lemma ReReadMovesOn(s: Sys, id: nat, v: Value)
    requires id in s.rereads && s.rereads[id].key in s.defaults && s.rereads[id].logStart <= |s.log|
    ensures FeedEnabled(s, NextOf(s, id, v))
    ensures var op, rereads := s.rereads[id], FeedStep(s, NextOf(s, id, v)).rereads;
      rereads == s.rereads - {id}
      || (id in rereads && rereads == s.rereads[id := op.(phase := rereads[id].phase)]
          && StepsLeft(rereads[id].phase) < StepsLeft(op.phase))
  {
    hide FeedStep, RowAt;
    OwnStep(s, NextOf(s, id, v));
  }

  /** A re-read on its own comes to an end without storing or counting anything. */
  lemma {:induction false} EndReRead(s: Sys, id: nat, v: Value, nk: NSKey) returns (run: seq<Action>, s': Sys)
    requires id in s.rereads && s.rereads[id].key in s.defaults && s.rereads[id].logStart <= |s.log|
    ensures Goes(s, run, s', nk) && Undisturbed(s, s')
    ensures s'.rereads == s.rereads - {id} && s'.sets == s.sets && s'.deletes == s.deletes
    decreases StepsLeft(s.rereads[id].phase)
  {
    hide FeedStep, FeedEnabled, Causality.KeepsDeletes, Goes;
    var f := NextOf(s, id, v);
    ReReadMovesOn(s, id, v);
    FeedStage(s, f);
    FeedCountsNothing(s, f);
    GoesBy(s, Feed(f), nk);
    var s1 := Next(s, Feed(f));
    if id in s1.rereads {
      var rest;
      rest, s' := EndReRead(s1, id, v, nk);
      assert s'.rereads == s.rereads - {id};
      GoesOn(s, [Feed(f)], s1, rest, s', nk);
      UndisturbedOn(s, s1, s');
      run := [Feed(f)] + rest;
    } else {
      run, s' := [Feed(f)], s1;
    }
  }

  predicate Begun(s: Sys, nk: NSKey) {
    forall id :: id in s.rereads && s.rereads[id].key == nk ==> s.rereads[id].logStart <= |s.log|
  }

  predicate NoReReadBut(s: Sys, keep: set<nat>, nk: NSKey) {
    forall id :: id in s.rereads && s.rereads[id].key == nk ==> id in keep
  }

  lemma {:induction false} EndReReads(s: Sys, keep: set<nat>, v: Value, nk: NSKey) returns (run: seq<Action>, s': Sys)
    requires nk in s.defaults && Begun(s, nk)
    ensures Goes(s, run, s', nk) && Undisturbed(s, s') && s'.sets == s.sets && s'.deletes == s.deletes
    ensures NoReReadBut(s', keep, nk) && Begun(s', nk)
    ensures forall id :: id in keep && id in s.rereads ==> id in s'.rereads && s'.rereads[id] == s.rereads[id]
    decreases |s.rereads|
  {
    hide Causality.KeepsDeletes, Goes;
    if id :| id in s.rereads && s.rereads[id].key == nk && id !in keep {
      var r0, s1 := EndReRead(s, id, v, nk);
      assert s1.rereads.Keys == s.rereads.Keys - {id};
      var r1;
      r1, s' := EndReReads(s1, keep, v, nk);
      GoesOn(s, r0, s1, r1, s', nk);
      UndisturbedOn(s, s1, s');
      run := r0 + r1;
    } else {
      run, s' := [], s;
      NothingGoes(s, nk);
    }
  }

  lemma NothingGoes(s: Sys, nk: NSKey)
    ensures Goes(s, [], s, nk) && Undisturbed(s, s)
  {
  }

  lemma PublishConfirms(sc: Scope, pub: Publication)
    requires !sc.gone
    ensures pub.key !in Publish(sc, pub).unconfirmed
  {
  }

  /** An accepted row is in the cache at its revision or above, and confirms its key. */
  predicate Landed(sc: Scope, key: NSKey, row: Row) {
    key !in sc.unconfirmed && (row.revision > 0 ==> RevOf(sc, key) >= row.revision)
  }

  lemma IngestLands(sc: Scope, key: NSKey, fence: FeedFence, row: Row, v: Value)
    requires !sc.gone && !SupersededByDelete(sc, key, fence)
    ensures Landed(Ingest(sc, key, fence, PreparedRow(key, row, Some(v))), key, row)
  {
    hide Publish;
    var pub := RowPublication(key, row, v);
    RowLands(sc, pub);
    PublishConfirms(sc, pub);
    RecordHasNoEffect(Publish(sc, pub), key, true, key);
  }

  lemma EndSet(s: Sys, id: nat, v: Value, nk: NSKey) returns (run: seq<Action>, s': Sys)
    requires id in s.sets
    ensures Goes(s, run, s', nk) && Undisturbed(s, s')
    ensures s'.sets == s.sets - {id} && s'.rereads == s.rereads && s'.deletes == s.deletes
    ensures !s.sc.gone ==> Landed(s'.sc, s.sets[id].key, s.sets[id].row)
  {
    hide WriterStep, Causality.KeepsDeletes, Goes, Landed;
    run, s' := [], s;
    NothingGoes(s, nk);
    if !s.sets[id].fenced {
      SetStep(s, SetFence(id));
      WriterStage(s, SetFence(id));
      GoesBy(s, Writer(SetFence(id)), nk);
      run, s' := [Writer(SetFence(id))], Next(s, Writer(SetFence(id)));
    }
    var a := SetPublish(id, Some(v));
    SetStep(s', a);
    SetLands(s', id, v);
    WriterStage(s', a);
    GoesBy(s', Writer(a), nk);
    GoesOn(s, run, s', [Writer(a)], Next(s', Writer(a)), nk);
    UndisturbedOn(s, s', Next(s', Writer(a)));
    run, s' := run + [Writer(a)], Next(s', Writer(a));
    assert s'.sets == s.sets - {id};
  }

  lemma SetLands(s: Sys, id: nat, v: Value)
    requires WriterEnabled(s, SetPublish(id, Some(v)))
    ensures !s.sc.gone ==> Landed(WriterStep(s, SetPublish(id, Some(v))).sc, s.sets[id].key, s.sets[id].row)
  {
    hide Ingest, Promises, Landed;
    if !s.sc.gone { IngestLands(s.sc, s.sets[id].key, Unarmed, s.sets[id].row, v); }
  }

  predicate NoSetBut(s: Sys, keep: set<nat>, nk: NSKey) {
    forall id :: id in s.sets && s.sets[id].key == nk ==> id in keep
  }

  lemma {:induction false} EndSets(s: Sys, keep: set<nat>, v: Value, nk: NSKey) returns (run: seq<Action>, s': Sys)
    ensures Goes(s, run, s', nk) && Undisturbed(s, s') && s'.rereads == s.rereads && s'.deletes == s.deletes
    ensures NoSetBut(s', keep, nk)
    ensures forall id :: id in keep && id in s.sets ==> id in s'.sets && s'.sets[id] == s.sets[id]
    decreases |s.sets|
  {
    hide Causality.KeepsDeletes, Goes;
    if id :| id in s.sets && s.sets[id].key == nk && id !in keep {
      var r0, s1 := EndSet(s, id, v, nk);
      assert s1.sets.Keys == s.sets.Keys - {id};
      var r1;
      r1, s' := EndSets(s1, keep, v, nk);
      GoesOn(s, r0, s1, r1, s', nk);
      UndisturbedOn(s, s1, s');
      run := r0 + r1;
    } else {
      run, s' := [], s;
      NothingGoes(s, nk);
    }
  }

  lemma DeleteStep(s: Sys, id: nat)
    requires WriterEnabled(s, DeletePublish(id)) && !s.sc.gone
    ensures var s' := WriterStep(s, DeletePublish(id));
      && s'.deletes == s.deletes - {id} && s'.sets == s.sets
      && RevOf(s'.sc, s.deletes[id]) == 0 && s.deletes[id] !in s'.sc.unconfirmed
  {
    hide Record, Publish;
    DefaultLands(s.sc, s.deletes[id], s.defaults[s.deletes[id]], true);
    PublishConfirms(s.sc, DefaultPublication(s.deletes[id], s.defaults[s.deletes[id]], true));
  }

  /** The local Deletes of the key are published, one after the other; the last one leaves the default. */
  lemma {:induction false} EndDeletes(s: Sys, nk: NSKey) returns (run: seq<Action>, s': Sys)
    requires nk in s.defaults && !s.sc.gone
    ensures Goes(s, run, s', nk) && SameStage(s, s') && s'.rereads == s.rereads && s'.sets == s.sets && !Owes(s', nk)
    ensures Owes(s, nk) ==> RevOf(s'.sc, nk) == 0 && nk !in s'.sc.unconfirmed
    ensures !Owes(s, nk) ==> s' == s && run == []
    decreases |s.deletes|
  {
    hide WriterStep, Goes;
    if id :| id in s.deletes && s.deletes[id] == nk {
      var w := DeletePublish(id);
      DeleteStep(s, id);
      WriterStage(s, w);
      GoesBy(s, Writer(w), nk);
      var s1 := Next(s, Writer(w));
      assert s1.deletes.Keys == s.deletes.Keys - {id};
      var rest;
      rest, s' := EndDeletes(s1, nk);
      GoesOn(s, [Writer(w)], s1, rest, s', nk);
      run := [Writer(w)] + rest;
    } else {
      run, s' := [], s;
      NothingGoes(s, nk);
    }
  }

  // ----- A reconcile with nobody in its way -----

  /** The reconcile goroutine only lists what it can decide. */
  predicate WorkListed(s: Sys) {
    s.worker.Applying? ==> s.worker.rows <= s.worker.snapshot.Keys && s.worker.absent <= s.defaults.Keys
  }

  lemma WorkStaysListed(s: Sys, a: Action)
    requires WorkListed(s) && Enabled(s, a)
    ensures WorkListed(Next(s, a))
  {
    hide WriterStep, FeedStep, LinkStep, WriterEnabled, FeedEnabled, LinkEnabled;
    match a
    case Writer(w) => WriterKeepsArmings(s, w); WriterKeepsDefaults(s, w);
    case Feed(f) => FeedOwesNothing(s, f);
    case Link(l) => ReconcileOwesNothing(s, l, Wake);
    case Worker(k) => WorkerListsWork(s, k);
  }

  lemma WriterKeepsDefaults(s: Sys, w: WriterAction)
    requires WriterEnabled(s, w)
    ensures WriterStep(s, w).defaults == s.defaults
  {
    hide Record, Ingest, LocalDelete, Promises;
  }

  lemma WorkerListsWork(s: Sys, k: WorkerAction)
    requires WorkListed(s) && WorkerEnabled(s, k)
    ensures WorkListed(WorkerStep(s, k))
  {
    hide SnapshotRow, AbsentKey, RowsAt, TakesRow, Notifies;
  }

  lemma {:induction false} RunListsWork(s: Sys, run: seq<Action>)
    requires WorkListed(s) && Possible(s, run)
    ensures WorkListed(After(s, run))
    decreases |run|
  {
    hide WorkListed, Next, Enabled;
    if |run| > 0 {
      WorkStaysListed(s, run[0]);
      RunListsWork(Next(s, run[0]), run[1..]);
    }
  }

  /** What a reconcile leaves alone: everything in flight but itself, the store and the registry. */
  ghost predicate SameFlight(s: Sys, s': Sys) {
    && s'.log == s.log && s'.defaults == s.defaults && s'.rereads == s.rereads && s'.sets == s.sets
    && s'.deletes == s.deletes && s'.sc.gone == s.sc.gone
    && forall k :: Causality.Deletes(s'.sc, k) == Causality.Deletes(s.sc, k)
  }

  /** A new arming waits in the mailbox, over an empty window, and the goroutine is free to take it. */
  predicate ReadyToWake(s: Sys) { s.worker.Idle? && Rearmed(s) }

  predicate Rearmed(s: Sys) {
    var g := s.sc.reconcileGen;
    && s.sc.pending == Full(Arming(g, s.sc.disconnectGen)) && s.sc.signal
    && g in s.sc.windows && s.sc.windows[g] == Window({}, {}) && g in s.armedLog && s.armedLog[g] == |s.log|
  }

  /** A goroutine that was woken takes what is in the mailbox. */
  lemma TakePending(s: Sys, nk: NSKey) returns (run: seq<Action>, s': Sys)
    requires Mailbox.Owned(s) && WorkListed(s)
    ensures Goes(s, run, s', nk) && SameFlight(s, s') && WorkListed(s') && s'.sc.entries == s.sc.entries
    ensures !s'.worker.Woken? && (s.worker.Idle? ==> s'.worker.Idle?)
    ensures Mailbox.HasArm(s'.worker) ==> s'.worker.arm.reconcile <= s'.sc.reconcileGen
  {
    hide Goes;
    if s.worker.Woken? {
      GoesBy(s, Worker(Take), nk);
      run, s' := [Worker(Take)], Next(s, Worker(Take));
    } else {
      NothingGoes(s, nk);
      run, s' := [], s;
    }
  }

  lemma Reconnect(s: Sys, nk: NSKey) returns (run: seq<Action>, s': Sys)
    requires !s.sc.gone && Mailbox.Owned(s) && WorkListed(s)
    ensures Goes(s, run, s', nk) && SameFlight(s, s') && Rearmed(s') && WorkListed(s')
    ensures s'.sc.entries == s.sc.entries && (s.worker.Idle? ==> s'.worker.Idle?)
    ensures !s'.worker.Woken? && (Mailbox.HasArm(s'.worker) ==> s'.worker.arm.reconcile < s'.sc.reconcileGen)
  {
    hide Goes, Mailbox.Owned;
    var s0;
    run, s0 := TakePending(s, nk);
    var s1 := Next(s0, Link(Disconnect));
    GoesBy(s0, Link(Disconnect), nk);
    GoesOn(s, run, s0, [Link(Disconnect)], s1, nk);
    s' := Next(s1, Link(Resync));
    GoesBy(s1, Link(Resync), nk);
    GoesOn(s, run + [Link(Disconnect)], s1, [Link(Resync)], s', nk);
    run := run + [Link(Disconnect)] + [Link(Resync)];
  }

  /** The way a superseded reconcile gives up: one step, and its window is closed. */
  function GivesUpBy(s: Sys, k: NSKey): WorkerAction
    requires Mailbox.HasArm(s.worker) && !s.worker.Closing?
  {
    if !s.worker.Applying? then Abandon
    else if k in s.worker.rows then
      ApplyRow(k, if k in s.defaults then Usable(s.defaults[k]) else Unregistered)
    else if k in s.worker.absent then ApplyAbsent(k)
    else Finish
  }

  lemma SupersededGivesUp(s: Sys, k: NSKey)
    requires Mailbox.HasArm(s.worker) && !s.worker.Closing? && s.worker.arm.reconcile < s.sc.reconcileGen
    requires WorkListed(s)
    requires s.worker.Applying? ==>
      k in s.worker.rows || (s.worker.rows == {} && (k in s.worker.absent || s.worker.absent == {}))
    ensures WorkerEnabled(s, GivesUpBy(s, k))
    ensures var s' := WorkerStep(s, GivesUpBy(s, k));
      && s'.worker == Closing(s.worker.arm) && s'.sc == s.sc
      && s'.log == s.log && s'.defaults == s.defaults && s'.rereads == s.rereads && s'.sets == s.sets
      && s'.deletes == s.deletes && s'.armedLog == s.armedLog
  {
    hide RowsAt, Publish, AgreesWithDefault, KeepsCached;
  }

  lemma GiveUpWork(s: Sys, nk: NSKey) returns (run: seq<Action>, s': Sys)
    requires Rearmed(s) && WorkListed(s) && Mailbox.HasArm(s.worker) && s.worker.arm.reconcile < s.sc.reconcileGen
    ensures Goes(s, run, s', nk) && SameFlight(s, s') && Rearmed(s') && s'.worker == Closing(s.worker.arm)
    ensures s'.worker.arm.reconcile < s'.sc.reconcileGen
  {
    hide WorkerStep, WorkerEnabled, GivesUpBy, Goes;
    run, s' := [], s;
    NothingGoes(s, nk);
    if !s.worker.Closing? {
      var k: NSKey;
      if s.worker.Applying? && s.worker.rows != {} { k :| k in s.worker.rows; }
      else if s.worker.Applying? && s.worker.absent != {} { k :| k in s.worker.absent; }
      else { k := nk; }
      SupersededGivesUp(s, k);
      GoesBy(s, Worker(GivesUpBy(s, k)), nk);
      run, s' := [Worker(GivesUpBy(s, k))], Next(s, Worker(GivesUpBy(s, k)));
    }
  }

  lemma FreeWorker(s: Sys, nk: NSKey) returns (run: seq<Action>, s': Sys)
    requires Rearmed(s) && WorkListed(s) && !s.worker.Woken?
    requires Mailbox.HasArm(s.worker) ==> s.worker.arm.reconcile < s.sc.reconcileGen
    ensures Goes(s, run, s', nk) && SameFlight(s, s') && ReadyToWake(s') && (s.worker.Idle? ==> s' == s)
  {
    hide WorkerStep, WorkerEnabled, Goes;
    if s.worker.Idle? {
      run, s' := [], s;
      NothingGoes(s, nk);
    } else {
      var s1;
      run, s1 := GiveUpWork(s, nk);
      ClosesOwn(s1);
      GoesBy(s1, Worker(CloseOwn), nk);
      s' := Next(s1, Worker(CloseOwn));
      GoesOn(s, run, s1, [Worker(CloseOwn)], s', nk);
      run := run + [Worker(CloseOwn)];
    }
  }

  lemma ClosesOwn(s: Sys)
    requires s.worker.Closing?
    ensures WorkerEnabled(s, CloseOwn)
    ensures WorkerStep(s, CloseOwn) == s.(sc := CloseWindow(s.sc, s.worker.arm.reconcile), worker := Idle)
  {
  }

  /** The newest arming's reconcile applies a photograph of the store as it stands, and no outcome has come between. */
  predicate Applies(s: Sys, nk: NSKey) {
    var g := s.sc.reconcileGen;
    && s.worker.Applying? && s.worker.arm == Arming(g, s.sc.disconnectGen) && s.worker.at == |s.log|
    && s.worker.rows <= s.worker.snapshot.Keys && s.worker.absent <= s.defaults.Keys
    && !s.sc.gone && s.sc.pending.Vacant? && g in s.sc.windows && s.sc.windows[g] == Window({}, {})
    && g in s.armedLog && s.armedLog[g] == |s.log|
  }

  lemma TakeUp(s: Sys, nk: NSKey) returns (run: seq<Action>, s': Sys)
    requires ReadyToWake(s) && !s.sc.gone && nk in s.defaults
    ensures Goes(s, run, s', nk) && SameFlight(s, s') && s'.worker.Applying? && Applies(s', nk)
    ensures s'.sc.entries == s.sc.entries && s'.worker.snapshot == RowsAt(s.log, |s.log|)
    ensures s'.worker.rows == s'.worker.snapshot.Keys && s'.worker.absent == s.defaults.Keys - s'.worker.snapshot.Keys
    ensures nk in s'.worker.rows || nk in s'.worker.absent
  {
    hide Goes, RowsAt;
    var a0, a1, a2, a3 := Worker(Wake), Worker(Take), Worker(ListStart), Worker(ListReturns(|s.log|));
    var s1 := Next(s, a0);
    var s2 := Next(s1, a1);
    var s3 := Next(s2, a2);
    s' := Next(s3, a3);
    GoesBy(s, a0, nk);
    GoesBy(s1, a1, nk);
    GoesOn(s, [a0], s1, [a1], s2, nk);
    GoesBy(s2, a2, nk);
    GoesOn(s, [a0] + [a1], s2, [a2], s3, nk);
    GoesBy(s3, a3, nk);
    GoesOn(s, [a0] + [a1] + [a2], s3, [a3], s', nk);
    run := [a0] + [a1] + [a2] + [a3];
  }

  /** Once the key has been gone over, it is decided on the whole of the log, and confirmed. */
  predicate Covered(s: Sys, t: Trail, nk: NSKey)
    requires s.worker.Applying?
  {
    nk in s.worker.rows || nk in s.worker.absent || (t.settled >= |s.log| && nk !in s.sc.unconfirmed)
  }

  /** The next key the reconcile goes over, its row usable. */
  function AppliesNext(s: Sys, k: NSKey): WorkerAction
    requires s.worker.Applying?
  {
    if k in s.worker.rows then ApplyRow(k, if k in s.defaults then Usable(s.defaults[k]) else Unregistered)
    else ApplyAbsent(k)
  }

  lemma AppliesFrame(s: Sys, k: NSKey, nk: NSKey)
    requires Applies(s, nk) && (k in s.worker.rows || (s.worker.rows == {} && k in s.worker.absent))
    ensures WorkerEnabled(s, AppliesNext(s, k))
    ensures var s' := WorkerStep(s, AppliesNext(s, k));
      && SameFlight(s, s') && Applies(s', nk) && s'.worker.rows == s.worker.rows - {k}
      && s'.worker.absent == (if k in s.worker.rows then s.worker.absent else s.worker.absent - {k})
  {
    hide RowsAt, SnapshotRow, AbsentKey, TakesRow, Notifies;
    var prepared := if k in s.defaults then Usable(s.defaults[k]) else Unregistered;
    if k in s.worker.rows {
      Causality.SnapshotRowKeepsDeletes(s.sc, s.worker.arm, k, s.worker.snapshot[k], prepared, Default(s, k));
    } else {
      Causality.AbsentKeepsDeletes(s.sc, s.worker.arm, k, Unarmed, s.defaults[k]);
    }
  }

  /** The key just gone over is confirmed; the others are as they were. */
  lemma AppliesConfirms(s: Sys, k: NSKey, nk: NSKey)
    requires Applies(s, nk) && (k in s.worker.rows || (s.worker.rows == {} && k in s.worker.absent))
    requires WorkerEnabled(s, AppliesNext(s, k)) && nk in s.defaults
    ensures var s' := WorkerStep(s, AppliesNext(s, k));
      nk in s'.sc.unconfirmed ==> nk in s.sc.unconfirmed && k != nk
  {
    hide RowsAt, Notifies, Grade, Fenced, AgreesWithDefault;
  }

  lemma AppliesDecides(s: Sys, k: NSKey, nk: NSKey)
    requires Applies(s, nk) && (k in s.worker.rows || (s.worker.rows == {} && k in s.worker.absent))
    requires WorkerEnabled(s, AppliesNext(s, k)) && nk in s.defaults
    ensures var d := WorkerDecides(s, AppliesNext(s, k), nk);
      if k == nk then !d.Silent? && d.at == |s.log| else d.Silent?
  {
    hide RowsAt, AgreesWithDefault;
  }

  lemma AppliesOne(s: Sys, t: Trail, k: NSKey, nk: NSKey)
    requires Applies(s, nk) && Covered(s, t, nk) && nk in s.defaults
    requires k in s.worker.rows || (s.worker.rows == {} && k in s.worker.absent)
    ensures var a := Worker(AppliesNext(s, k));
      && Enabled(s, a) && SameFlight(s, Next(s, a)) && Next(s, a).worker.Applying? && Applies(Next(s, a), nk)
      && Next(s, a).worker.rows == s.worker.rows - {k}
      && Next(s, a).worker.absent == (if k in s.worker.rows then s.worker.absent else s.worker.absent - {k})
      && Covered(Next(s, a), Observe(s, t, a, nk), nk) && Next(s, a).defaults == s.defaults
  {
    hide WorkerStep, WorkerEnabled, WorkerDecides;
    AppliesFrame(s, k, nk);
    AppliesConfirms(s, k, nk);
    AppliesDecides(s, k, nk);
  }

  lemma SameFlightOn(s: Sys, s1: Sys, s2: Sys)
    requires SameFlight(s, s1) && SameFlight(s1, s2)
    ensures SameFlight(s, s2)
  {
    forall k ensures Causality.Deletes(s2.sc, k) == Causality.Deletes(s.sc, k) {
      assert Causality.Deletes(s1.sc, k) == Causality.Deletes(s.sc, k);
    }
  }

  /** Every key of the photograph, and every registered key it lacks, is gone over. */
  lemma {:induction false} ApplyAll(s: Sys, t: Trail, nk: NSKey) returns (run: seq<Action>, s': Sys)
    requires s.worker.Applying? && Applies(s, nk) && Covered(s, t, nk) && nk in s.defaults
    ensures Goes(s, run, s', nk) && SameFlight(s, s') && s'.worker.Applying? && Applies(s', nk)
    ensures s'.worker.rows == {} && s'.worker.absent == {} && Covered(s', TrailAfter(s, t, run, nk), nk)
    decreases |s.worker.rows| + |s.worker.absent|
  {
    hide Applies, Covered, Observe, Next, Enabled, AppliesNext, Goes, SameFlight;
    if s.worker.rows == {} && s.worker.absent == {} {
      run, s' := [], s;
      NothingGoes(s, nk);
      assert SameFlight(s, s) by { AlreadySame(s); }
    } else {
      var k :| k in s.worker.rows || (s.worker.rows == {} && k in s.worker.absent);
      var a := Worker(AppliesNext(s, k));
      AppliesOne(s, t, k, nk);
      GoesBy(s, a, nk);
      var s1, t1 := Next(s, a), Observe(s, t, a, nk);
      var rest;
      rest, s' := ApplyAll(s1, t1, nk);
      GoesOn(s, [a], s1, rest, s', nk);
      SameFlightOn(s, s1, s');
      run := [a] + rest;
      assert run[0] == a && run[1..] == rest;
    }
  }

  lemma AlreadySame(s: Sys)
    ensures SameFlight(s, s)
  {
  }

  /** The scope is confirmed, with every write of the key stored before the resync that confirmed it. */
  predicate Confirms(s: Sys, t: Trail, nk: NSKey) {
    && !s.sc.gone && !s.sc.stale && nk !in s.sc.unconfirmed && s.worker.Idle? && s.sc.pending.Vacant?
    && s.sc.reconcileGen in s.armedLog && s.armedLog[s.sc.reconcileGen] >= |s.log| && t.settled >= |s.log|
  }

  lemma FinishUp(s: Sys, t: Trail, nk: NSKey) returns (run: seq<Action>, s': Sys)
    requires Applies(s, nk) && s.worker.rows == {} && s.worker.absent == {} && Covered(s, t, nk)
    ensures Goes(s, run, s', nk) && SameFlight(s, s') && Confirms(s', TrailAfter(s, t, run, nk), nk)
  {
    hide Goes;
    var a0, a1 := Worker(Finish), Worker(CloseOwn);
    var s1 := Next(s, a0);
    s' := Next(s1, a1);
    GoesBy(s, a0, nk);
    GoesBy(s1, a1, nk);
    GoesOn(s, [a0], s1, [a1], s', nk);
    run := [a0] + [a1];
    SettledGrows(s, t, run, nk);
  }

  lemma {:induction false} SettledGrows(s: Sys, t: Trail, run: seq<Action>, nk: NSKey)
    requires Possible(s, run)
    ensures TrailAfter(s, t, run, nk).settled >= t.settled
    decreases |run|
  {
    hide Next, Enabled, DecisionOf, Answer;
    if |run| > 0 { SettledGrows(Next(s, run[0]), Observe(s, t, run[0], nk), run[1..], nk); }
  }

  /** From any state of an open scope, a lost connection and the reconcile of the next one bring it to rest. */
  lemma Reconcile(s: Sys, t: Trail, nk: NSKey) returns (run: seq<Action>, s': Sys)
    requires !s.sc.gone && Mailbox.Owned(s) && WorkListed(s) && nk in s.defaults
    ensures Goes(s, run, s', nk) && SameFlight(s, s') && Confirms(s', TrailAfter(s, t, run, nk), nk)
  {
    hide Goes, Mailbox.Owned, WorkListed, Rearmed, ReadyToWake, Applies, Confirms, SameFlight, Possible, After,
      TrailAfter;
    var r0, s1 := Reconnect(s, nk);
    var r1, s2 := FreeWorker(s1, nk);
    StillOpen(s, s1, nk);
    SameFlightOn(s, s1, s2);
    StillOpen(s, s2, nk);
    var r2, s3 := TakeUp(s2, nk);
    SameFlightOn(s, s2, s3);
    StillOpen(s, s3, nk);
    GoesOn(s, r0, s1, r1, s2, nk);
    GoesOn(s, r0 + r1, s2, r2, s3, nk);
    var t3 := TrailOf(s, t, r0 + r1 + r2, s3, nk);
    var r3, s4 := ApplyAll(s3, t3, nk);
    SameFlightOn(s, s3, s4);
    GoesOn(s, r0 + r1 + r2, s3, r3, s4, nk);
    TrailGoesOn(s, t, r0 + r1 + r2, s3, r3, s4, nk);
    var t4 := TrailOf(s, t, r0 + r1 + r2 + r3, s4, nk);
    var r4;
    r4, s' := FinishUp(s4, t4, nk);
    SameFlightOn(s, s4, s');
    GoesOn(s, r0 + r1 + r2 + r3, s4, r4, s', nk);
    TrailGoesOn(s, t, r0 + r1 + r2 + r3, s4, r4, s', nk);
    run := r0 + r1 + r2 + r3 + r4;
  }

  lemma StillOpen(s: Sys, s': Sys, nk: NSKey)
    requires SameFlight(s, s')
    ensures s'.sc.gone == s.sc.gone && s'.defaults == s.defaults && s'.log == s.log
  {
  }

  lemma TrailOf(s: Sys, t: Trail, run: seq<Action>, s': Sys, nk: NSKey) returns (t': Trail)
    requires Goes(s, run, s', nk)
    ensures Possible(s, run) && t' == TrailAfter(s, t, run, nk)
  {
    t' := TrailAfter(s, t, run, nk);
  }

  lemma {:induction false} TrailGoesOn(
      s: Sys, t: Trail, run: seq<Action>, s1: Sys, more: seq<Action>, s2: Sys, nk: NSKey)
    requires Goes(s, run, s1, nk) && Goes(s1, more, s2, nk)
    ensures Possible(s, run) && Possible(s1, more) && Possible(s, run + more)
    ensures TrailAfter(s, t, run + more, nk) == TrailAfter(s1, TrailAfter(s, t, run, nk), more, nk)
  {
    hide Next, Enabled, Observe, TrailAfter;
    TrailJoins(s, t, run, more, nk);
  }

  // ----- Something late, last -----

  lemma ReReadLands(s: Sys, id: nat, v: Value)
    requires id in s.rereads && s.rereads[id].phase.Grading? && !s.sc.gone
    requires s.rereads[id].fence.deletes == Causality.Deletes(s.sc, s.rereads[id].key)
    ensures Landed(FeedStep(s, IngestRow(id, Some(v))).sc, s.rereads[id].key, s.rereads[id].phase.found)
  {
    hide Ingest, Landed, Notifies, Publishable;
    var op := s.rereads[id];
    IngestLands(s.sc, op.key, Armed(op.fence), op.phase.found, v);
  }

  /** A re-read that holds a row, or can still come back with one, is a step nearer to grading it. */
  lemma HolderStep(s: Sys, id: nat, nk: NSKey) returns (f: FeedAction, s1: Sys)
    requires Inv(s) && id in s.rereads && s.rereads[id].key == nk && HoldsRow(s, s.rereads[id])
    requires !s.rereads[id].phase.Grading?
    ensures Goes(s, [Feed(f)], s1, nk) && Undisturbed(s, s1) && s1.sets == s.sets && s1.deletes == s.deletes && Inv(s1)
    ensures id in s1.rereads && s1.rereads == s.rereads[id := s.rereads[id].(phase := s1.rereads[id].phase)]
    ensures HoldsRow(s1, s1.rereads[id]) && StepsLeft(s1.rereads[id].phase) < StepsLeft(s.rereads[id].phase)
  {
    hide FeedStep, Causality.KeepsDeletes, Goes, RowAt, Backed, Written, SameStage, Inv;
    var op := s.rereads[id];
    InvIsHonest(s, id);
    if op.phase.Reading? {
      var at: nat :| op.logStart <= at <= |s.log| && RowAt(s.log, at, op.key).Some?;
      f := GetReturns(id, at);
    } else {
      f := FenceRow(id);
    }
    OwnStep(s, f);
    FeedStage(s, f);
    FeedCountsNothing(s, f);
    GoesBy(s, Feed(f), nk);
    s1 := Next(s, Feed(f));
    InvKept(s, Feed(f));
    StillHeld(s, s1, op, f, nk);
  }

  lemma {:induction false} ToGrading(s: Sys, id: nat, nk: NSKey) returns (run: seq<Action>, s': Sys)
    requires Inv(s) && id in s.rereads && s.rereads[id].key == nk && HoldsRow(s, s.rereads[id]) && Rising(s.log, nk)
    ensures Goes(s, run, s', nk) && Undisturbed(s, s') && s'.sets == s.sets && s'.deletes == s.deletes
    ensures id in s'.rereads && s'.rereads == s.rereads[id := s.rereads[id].(phase := s'.rereads[id].phase)]
    ensures s'.rereads[id].phase.Grading? && s'.rereads[id].phase.found.revision > 0
    decreases StepsLeft(s.rereads[id].phase)
  {
    hide Causality.KeepsDeletes, Goes, Rising, Inv, HoldsRow, SameStage;
    if s.rereads[id].phase.Grading? {
      InvIsHonest(s, id);
      OlderRow(s, nk, s.rereads[id].phase.readAt);
      NothingGoes(s, nk);
      run, s' := [], s;
    } else {
      var f, s1 := HolderStep(s, id, nk);
      SameStageLog(s, s1);
      var rest;
      rest, s' := ToGrading(s1, id, nk);
      GoesOn(s, [Feed(f)], s1, rest, s', nk);
      UndisturbedOn(s, s1, s');
      run := [Feed(f)] + rest;
    }
  }

  lemma StillHeld(s: Sys, s1: Sys, op: ReRead, f: FeedAction, nk: NSKey)
    requires op.key == nk && HoldsRow(s, op) && ReReadHonest(s, op) && Undisturbed(s, s1)
    requires (op.phase.Reading? && f.GetReturns? && op.logStart <= f.at <= |s.log| && RowAt(s.log, f.at, nk).Some?)
      || (op.phase.Read? && f.FenceRow?)
    requires f.id in s1.rereads && s1.rereads[f.id] == op.(phase :=
      if f.FenceRow? then Grading(op.phase.at, op.phase.row.value) else Read(f.at, RowAt(s.log, f.at, nk)))
    ensures HoldsRow(s1, s1.rereads[f.id])
  {
  }

  lemma InvIsHonest(s: Sys, id: nat)
    requires Inv(s) && id in s.rereads
    ensures ReReadHonest(s, s.rereads[id])
  {
    hide Mailbox.Owned, Causality.Causal, Freshness.Sound;
  }

  lemma {:induction false} EndHolder(s: Sys, id: nat, v: Value, nk: NSKey) returns (run: seq<Action>, s': Sys)
    requires Inv(s) && !s.sc.gone && Rising(s.log, nk)
    requires id in s.rereads && s.rereads[id].key == nk && HoldsRow(s, s.rereads[id])
    ensures Goes(s, run, s', nk) && SameStage(s, s')
    ensures s'.rereads == s.rereads - {id} && s'.sets == s.sets && s'.deletes == s.deletes
    ensures RevOf(s'.sc, nk) > 0 && nk !in s'.sc.unconfirmed
  {
    hide FeedStep, Goes, Inv, Rising, HoldsRow;
    var r0, s1 := ToGrading(s, id, nk);
    HolderKeepsFence(s, s1, id);
    var f := IngestRow(id, Some(v));
    OwnStep(s1, f);
    FeedStage(s1, f);
    ReReadLands(s1, id, v);
    GoesBy(s1, Feed(f), nk);
    s' := Next(s1, Feed(f));
    assert s'.rereads == s.rereads - {id};
    GoesOn(s, r0, s1, [Feed(f)], s', nk);
    run := r0 + [Feed(f)];
  }

  lemma HolderKeepsFence(s: Sys, s1: Sys, id: nat)
    requires id in s.rereads && HoldsRow(s, s.rereads[id]) && Undisturbed(s, s1)
    ensures s.rereads[id].fence.deletes == Causality.Deletes(s1.sc, s.rereads[id].key) && s1.sc.gone == s.sc.gone
  {
  }

  // ----- Exactly when rest agrees with the store -----

  lemma ReachedLists(s: Sys, t: Trail, nk: NSKey)
    requires Reached(s, t, nk)
    ensures WorkListed(s)
  {
    hide Next, Enabled, Observe;
    var defaults: map<NSKey, Value>, run: seq<Action> :|
      Possible(Init(defaults), run) && After(Init(defaults), run) == s
      && TrailAfter(Init(defaults), NoTrail, run, nk) == t;
    RunListsWork(Init(defaults), run);
  }

  lemma InvHasBegun(s: Sys, nk: NSKey)
    requires Inv(s)
    ensures Begun(s, nk) && Mailbox.Owned(s)
  {
    hide Mailbox.Owned, Causality.Causal, Freshness.Sound;
    forall id | id in s.rereads && s.rereads[id].key == nk ensures s.rereads[id].logStart <= |s.log| {
      assert ReReadHonest(s, s.rereads[id]);
    }
  }

  /** The key's own work is over, but for what is kept for last; the reconcile of a new connection follows. */
  lemma Settle(s: Sys, t: Trail, run: seq<Action>, s1: Sys, nk: NSKey) returns (run': seq<Action>, s': Sys)
    requires Inv(s) && !s.sc.gone && nk in s.defaults && Goes(s, run, s1, nk) && SameStage(s, s1) && WorkListed(s)
    ensures Goes(s, run', s', nk) && SameFlight(s1, s') && Confirms(s', TrailAfter(s, t, run', nk), nk) && Inv(s')
  {
    hide Inv, Next, Enabled, Observe, TrailAfter, Confirms, SameFlight;
    RunKeepsInv(s, run);
    InvHasBegun(s1, nk);
    var t1 := TrailOf(s, t, run, s1, nk);
    var rest;
    rest, s' := Reconcile(s1, t1, nk);
    RunKeepsInv(s1, rest);
    GoesOn(s, run, s1, rest, s', nk);
    TrailGoesOn(s, t, run, s1, rest, s', nk);
    run' := run + rest;
  }

  /** And what was kept for last comes last. */
  lemma {:induction false} LastOfAll(s: Sys, t: Trail, run: seq<Action>, s1: Sys, last: seq<Action>, s': Sys, nk: NSKey)
    requires Goes(s, run, s1, nk) && Confirms(s1, TrailAfter(s, t, run, nk), nk) && SameStage(s1, s')
    requires Goes(s1, last, s', nk) && nk !in s'.sc.unconfirmed && s'.log == s.log && Rising(s.log, nk)
    requires NoReReadBut(s', {}, nk) && !HasSet(s', nk) && !Owes(s', nk) && OffStore(s', nk)
    ensures !RestsOnStore(s, t, nk)
  {
    hide Next, Enabled, Observe, TrailAfter, Rising, OffStore;
    GoesOn(s, run, s1, last, s', nk);
    TrailGoesOn(s, t, run, s1, last, s', nk);
    SettledGrows(s1, TrailAfter(s, t, run, nk), last, nk);
    assert AtRest(s', TrailAfter(s, t, run + last, nk), nk);
    assert ComesToRest(s, t, run + last, nk);
  }

  lemma LateDelete(s: Sys, t: Trail, nk: NSKey)
    requires Reached(s, t, nk) && !s.sc.gone && nk in s.defaults && Rising(s.log, nk)
    requires Live(s, nk).Some? && Owes(s, nk)
    ensures !RestsOnStore(s, t, nk)
  {
    hide Inv, Goes, TrailAfter, Confirms, SameStage, Rising, RowAt, RestsOnStore, Causality.KeepsDeletes, TrailOk,
      WorkListed;
    ReachedOk(s, t, nk);
    ReachedLists(s, t, nk);
    InvHasBegun(s, nk);
    var v := s.defaults[nk];
    var r0, s1 := EndReReads(s, {}, v, nk);
    var r1, s2 := EndSets(s1, {}, v, nk);
    GoesOn(s, r0, s1, r1, s2, nk);
    SameStageOn(s, s1, s2);
    var r2, s3 := Settle(s, t, r0 + r1, s2, nk);
    OpenAndRegistered(s, s2, s3);
    var r3, s4 := EndDeletes(s3, nk);
    OlderRow(s, nk, |s.log|);
    SameStageLog(s3, s4);
    LastOfAll(s, t, r2, s3, r3, s4, nk);
  }

  lemma SameStageOn(s: Sys, s1: Sys, s2: Sys)
    requires SameStage(s, s1) && SameStage(s1, s2)
    ensures SameStage(s, s2)
  {
  }

  lemma SameStageLog(s: Sys, s': Sys)
    requires SameStage(s, s')
    ensures s'.log == s.log && s'.sc.gone == s.sc.gone && s'.defaults == s.defaults
  {
  }

  lemma OpenAndRegistered(s: Sys, s1: Sys, s2: Sys)
    requires SameStage(s, s1) && SameFlight(s1, s2)
    ensures s2.sc.gone == s.sc.gone && s2.defaults == s.defaults && s2.log == s.log
    ensures s1.sc.gone == s.sc.gone && s1.defaults == s.defaults && s1.log == s.log
  {
  }

  lemma LateSet(s: Sys, t: Trail, nk: NSKey)
    requires Reached(s, t, nk) && !s.sc.gone && nk in s.defaults && Rising(s.log, nk)
    requires Live(s, nk).None? && HasSet(s, nk)
    ensures !RestsOnStore(s, t, nk)
  {
    hide Inv, Goes, TrailAfter, Confirms, SameStage, Rising, RowAt, RestsOnStore, Causality.KeepsDeletes, TrailOk,
      WorkListed;
    ReachedOk(s, t, nk);
    ReachedLists(s, t, nk);
    InvHasBegun(s, nk);
    var id :| id in s.sets && s.sets[id].key == nk;
    SetIsPositive(s, id);
    var v := s.defaults[nk];
    var r0, s1 := EndDeletes(s, nk);
    SameStageLog(s, s1);
    var r1, s2 := EndReReads(s1, {}, v, nk);
    GoesOn(s, r0, s1, r1, s2, nk);
    SameStageOn(s, s1, s2);
    var r2, s3 := EndSets(s2, {id}, v, nk);
    GoesOn(s, r0 + r1, s2, r2, s3, nk);
    SameStageOn(s, s2, s3);
    var r3, s4 := Settle(s, t, r0 + r1 + r2, s3, nk);
    OpenAndRegistered(s, s3, s4);
    var r4, s5 := EndSet(s4, id, v, nk);
    SameStageLog(s4, s5);
    LastOfAll(s, t, r3, s4, r4, s5, nk);
  }

  lemma SetIsPositive(s: Sys, id: nat)
    requires Inv(s) && id in s.sets && Rising(s.log, s.sets[id].key)
    ensures s.sets[id].row.revision > 0
  {
    hide Inv, Rising;
    SetRowWasLive(s, id);
  }

  lemma LateReRead(s: Sys, t: Trail, nk: NSKey)
    requires Reached(s, t, nk) && !s.sc.gone && nk in s.defaults && Rising(s.log, nk)
    requires Live(s, nk).None? && !HasSet(s, nk) && !Owes(s, nk) && HasHolder(s, nk)
    ensures !RestsOnStore(s, t, nk)
  {
    hide Inv, Goes, TrailAfter, Confirms, SameStage, Rising, RowAt, RestsOnStore, Causality.KeepsDeletes, TrailOk,
      WorkListed, HoldsRow;
    ReachedOk(s, t, nk);
    ReachedLists(s, t, nk);
    InvHasBegun(s, nk);
    var id :| id in s.rereads && s.rereads[id].key == nk && HoldsRow(s, s.rereads[id]);
    var r0, s1 := EndReReads(s, {id}, s.defaults[nk], nk);
    var r1, s2 := Settle(s, t, r0, s1, nk);
    OpenAndRegistered(s, s1, s2);
    HoldsOn(s, s1, s2, id);
    var r2, s3 := EndHolder(s2, id, s.defaults[nk], nk);
    SameStageLog(s2, s3);
    LastOfAll(s, t, r1, s2, r2, s3, nk);
  }

  lemma HoldsOn(s: Sys, s1: Sys, s2: Sys, id: nat)
    requires id in s.rereads && HoldsRow(s, s.rereads[id]) && Undisturbed(s, s1) && SameFlight(s1, s2)
    requires id in s1.rereads && s1.rereads[id] == s.rereads[id]
    ensures id in s2.rereads && HoldsRow(s2, s2.rereads[id]) && s2.rereads[id] == s.rereads[id]
  {
    hide RowAt;
    assert Causality.Deletes(s2.sc, s.rereads[id].key) == Causality.Deletes(s1.sc, s.rereads[id].key);
  }

  /**
   The cache against the store, exactly. From any state of an open scope in which a registered key has not already
   been settled off the store, every run that stores nothing more under it and comes to rest leaves the cache with
   the store, if and only if nothing late is under way: no local Delete unpublished over a live row; and with no row
   left, no local Set unpublished, and no re-read holding a row that no counted delete refuses and no local Delete
   still to come.
   */
  lemma RestAgreesUnlessLate(s: Sys, t: Trail, nk: NSKey)
    requires Reached(s, t, nk) && !s.sc.gone && nk in s.defaults && Rising(s.log, nk) && Fine(s, t, nk)
    ensures RestsOnStore(s, t, nk) <==> !Late(s, nk)
  {
    hide Fine, RestsOnStore, Rising, RowAt, Owes, HasHolder, HasSet;
    if !Late(s, nk) { NothingLateRestsOnStore(s, t, nk); }
    else if Live(s, nk).Some? { LateDelete(s, t, nk); }
    else if HasSet(s, nk) { LateSet(s, t, nk); }
    else { LateReRead(s, t, nk); }
  }

  /** Short of rest there is one way only to have nothing due: the confirming reconcile skipped the key. */
  lemma AtRestUnlessSkipped(s: Sys, t: Trail, nk: NSKey)
    requires Reached(s, t, nk) && NothingDue(s, t, nk) && nk in s.defaults
    requires forall i :: 0 <= i < |s.log| && s.log[i].key == nk ==> i < s.armedLog[s.sc.reconcileGen]
    ensures AtRest(s, t, nk) || t.skipped
  {
    hide Still;
    ConfirmedIsSettledUnlessSkipped(s, t, nk);
  }
}
