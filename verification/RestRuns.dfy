/** Runs that come to rest off the store, one for each thing that can land late, and one that is due nothing more. */
module RestRuns {
  import opened Types
  import opened Fence
  import opened Protocol
  import opened StoreLog
  import opened ReadYourWrites
  import opened Convergence
  import opened Boundaries
  import opened Settlement
  import opened Rest
  import Causality
  import Freshness
  import Mailbox

  /** A run of a process that has just come up: its first connection is reconciled, over an empty store. */
  lemma ComeUp(defaults: map<NSKey, Value>, nk: NSKey) returns (run: seq<Action>, s: Sys)
    requires nk in defaults
    ensures Possible(Init(defaults), run) && After(Init(defaults), run) == s && FirstUp(s, defaults) && !s.sc.stale
  {
    hide Inv, Confirms;
    InitInv(defaults);
    InvHasBegun(Init(defaults), nk);
    run, s := Reconcile(Init(defaults), NoTrail, nk);
    ConfirmsMeans(s, TrailAfter(Init(defaults), NoTrail, run, nk), nk);
  }

  lemma ConfirmsMeans(s: Sys, t: Trail, nk: NSKey)
    requires Confirms(s, t, nk)
    ensures !s.sc.gone && !s.sc.stale && s.worker.Idle?
  {
  }

  predicate FirstUp(s: Sys, defaults: map<NSKey, Value>) {
    && s.worker.Idle? && s.log == [] && s.rereads == map[] && s.sets == map[] && s.deletes == map[]
    && s.defaults == defaults && !s.sc.gone
  }

  lemma {:induction false} TwoSteps(s: Sys, a: Action, b: Action)
    requires Enabled(s, a) && Enabled(Next(s, a), b)
    ensures Possible(s, [a, b]) && After(s, [a, b]) == Next(Next(s, a), b)
  {
    hide Next, Enabled;
    assert [a, b][1..] == [b] && [b][1..] == [];
    OneStep(Next(s, a), b);
  }

  lemma {:induction false} FourSteps(s: Sys, a: Action, b: Action, c: Action, d: Action)
    requires Enabled(s, a) && Enabled(Next(s, a), b) && Enabled(Next(Next(s, a), b), c)
    requires Enabled(Next(Next(Next(s, a), b), c), d)
    ensures Possible(s, [a, b] + [c, d])
    ensures After(s, [a, b] + [c, d]) == Next(Next(Next(Next(s, a), b), c), d)
  {
    hide Next, Enabled;
    TwoSteps(s, a, b);
    TwoSteps(Next(Next(s, a), b), c, d);
    Join(s, [a, b], [c, d]);
  }

  lemma OneWriteRises(log: seq<StoreOp>, nk: NSKey, row: Row)
    requires row.revision > 0 && (log == [Remove(nk), Write(nk, row)] || log == [Write(nk, row), Remove(nk)])
    ensures Rising(log, nk)
    ensures RowAt(log, 2, nk) == if log[1].Write? then Some(row) else None
  {
    assert log[..2] == log && log[..2][..1] == [log[0]] && [log[0]][..0] == [];
    forall i | 0 <= i < |log| && log[i].Write? && log[i].key == nk ensures Climbs(log, i, nk, log[i].row) {}
  }

  /** A Delete and then a Set of the same key are committed, and only the Set is published. */
  lemma SetOvertakesDelete(s: Sys, nk: NSKey, row: Row, v: Value) returns (run: seq<Action>, s': Sys)
    requires FirstUp(s, s.defaults) && nk in s.defaults && row.revision > 0
    ensures Possible(s, run) && After(s, run) == s' && s'.log == [Remove(nk), Write(nk, row)]
    ensures Owes(s', nk) && Promise(nk, row.revision, 2) in s'.promises && !s'.sc.gone && s'.defaults == s.defaults
  {
    hide FeedStep, FeedEnabled, LinkStep, LinkEnabled, WorkerStep, WorkerEnabled, Record, Ingest, Rows;
    var a0, a1 := Writer(DeleteCommit(0, nk)), Writer(SetCommit(1, nk, row));
    var a2, a3 := Writer(SetFence(1)), Writer(SetPublish(1, Some(v)));
    var s1 := Next(s, a0);
    assert s1.log == [Remove(nk)] && s1.deletes == map[0 := nk];
    var s2 := Next(s1, a1);
    assert s2.log == [Remove(nk), Write(nk, row)] && s2.sets == map[1 := LocalSet(nk, row, 2, false)];
    var s3 := Next(s2, a2);
    s' := Next(s3, a3);
    IngestLeavesGone(s3.sc, nk, Unarmed, PreparedRow(nk, row, Some(v)));
    assert 0 in s'.deletes && s'.deletes[0] == nk;
    FourSteps(s, a0, a1, a2, a3);
    run := [a0, a1] + [a2, a3];
  }

  lemma {:induction false} ReachedBy(defaults: map<NSKey, Value>, run: seq<Action>, s: Sys, nk: NSKey)
    requires Possible(Init(defaults), run) && After(Init(defaults), run) == s
    ensures Reached(s, TrailAfter(Init(defaults), NoTrail, run, nk), nk)
  {
  }

  /** Whatever comes to rest off the store does so by a run one can write down. */
  lemma RestOffStore(s: Sys, t: Trail, nk: NSKey) returns (run: seq<Action>, s': Sys)
    requires !RestsOnStore(s, t, nk)
    ensures Goes(s, run, s', nk) && AtRest(s', TrailAfter(s, t, run, nk), nk) && OffStore(s', nk)
  {
    hide Next, Enabled, Observe;
    run :| Possible(s, run) && ComesToRest(s, t, run, nk) && OffStore(After(s, run), nk);
    s' := After(s, run);
  }

  /**
   A Delete published after a later Set of its key was acknowledged resets it while the Set's row is in the store,
   and the scope rests, confirmed, with nothing left that would repair it.
   */
  lemma DelayedDeleteResets(defaults: map<NSKey, Value>, nk: NSKey, row: Row)
    returns (run: seq<Action>, s: Sys, late: seq<Action>, end: Sys)
    requires nk in defaults && row.revision > 0
    ensures Possible(Init(defaults), run) && After(Init(defaults), run) == s
    ensures Promise(nk, row.revision, 2) in s.promises && Goes(s, late, end, nk)
    ensures AtRest(end, TrailAfter(s, TrailAfter(Init(defaults), NoTrail, run, nk), late, nk), nk) && OffStore(end, nk)
  {
    hide Next, Enabled, Observe, AtRest, Goes, OffStore, Rising, RowAt;
    var r0, s0 := ComeUp(defaults, nk);
    var r1;
    r1, s := SetOvertakesDelete(s0, nk, row, defaults[nk]);
    Join(Init(defaults), r0, r1);
    run := r0 + r1;
    ReachedBy(defaults, run, s, nk);
    OneWriteRises(s.log, nk, row);
    var t := TrailAfter(Init(defaults), NoTrail, run, nk);
    LateDelete(s, t, nk);
    late, end := RestOffStore(s, t, nk);
  }

  /** A Set is committed and its row is removed before it is published. */
  lemma RemovalOvertakesSet(s: Sys, nk: NSKey, row: Row) returns (run: seq<Action>, s': Sys)
    requires FirstUp(s, s.defaults) && nk in s.defaults
    ensures Possible(s, run) && After(s, run) == s' && s'.log == [Write(nk, row), Remove(nk)]
    ensures HasSet(s', nk) && !s'.sc.gone && s'.defaults == s.defaults
  {
    hide FeedStep, FeedEnabled, LinkStep, LinkEnabled, WorkerStep, WorkerEnabled, Rows;
    var a0, a1 := Writer(SetCommit(1, nk, row)), Writer(ForeignWrite(Remove(nk)));
    var s1 := Next(s, a0);
    assert s1.log == [Write(nk, row)] && 1 in s1.sets && s1.sets[1].key == nk;
    s' := Next(s1, a1);
    assert 1 in s'.sets && s'.sets[1].key == nk;
    TwoSteps(s, a0, a1);
    run := [a0, a1];
  }

  /** A Set published after its row was removed puts the row in the cache, and the scope rests on it, confirmed. */
  lemma DelayedSetOutlivesItsRow(defaults: map<NSKey, Value>, nk: NSKey, row: Row)
    returns (run: seq<Action>, s: Sys, late: seq<Action>, end: Sys)
    requires nk in defaults && row.revision > 0
    ensures Possible(Init(defaults), run) && After(Init(defaults), run) == s && s.log == [Write(nk, row), Remove(nk)]
    ensures HasSet(s, nk) && Goes(s, late, end, nk)
    ensures AtRest(end, TrailAfter(s, TrailAfter(Init(defaults), NoTrail, run, nk), late, nk), nk) && OffStore(end, nk)
  {
    hide Next, Enabled, Observe, AtRest, Goes, OffStore, Rising, RowAt;
    var r0, s0 := ComeUp(defaults, nk);
    var r1;
    r1, s := RemovalOvertakesSet(s0, nk, row);
    Join(Init(defaults), r0, r1);
    run := r0 + r1;
    ReachedBy(defaults, run, s, nk);
    OneWriteRises(s.log, nk, row);
    var t := TrailAfter(Init(defaults), NoTrail, run, nk);
    LateSet(s, t, nk);
    late, end := RestOffStore(s, t, nk);
  }

  /** A re-read has its row in hand when the store drops it. */
  lemma RemovalOvertakesRead(s: Sys, nk: NSKey, row: Row) returns (run: seq<Action>, s': Sys)
    requires FirstUp(s, s.defaults) && nk in s.defaults
    ensures Possible(s, run) && After(s, run) == s' && s'.log == [Write(nk, row), Remove(nk)]
    ensures HasHolder(s', nk) && !HasSet(s', nk) && !Owes(s', nk) && !s'.sc.gone && s'.defaults == s.defaults
  {
    hide LinkStep, LinkEnabled, WorkerStep, WorkerEnabled;
    var a0, a1 := Writer(ForeignWrite(Write(nk, row))), Feed(Start(0, nk, false, None));
    var a2, a3 := Feed(GetReturns(0, 1)), Writer(ForeignWrite(Remove(nk)));
    var s1 := Next(s, a0);
    assert s1.log == [Write(nk, row)];
    var s2 := Next(s1, a1);
    OneRowThere(nk, row);
    var s3 := Next(s2, a2);
    s' := Next(s3, a3);
    assert 0 in s'.rereads && s'.rereads[0].key == nk && HoldsRow(s', s'.rereads[0]);
    FourSteps(s, a0, a1, a2, a3);
    run := [a0, a1] + [a2, a3];
  }

  lemma OneRowThere(nk: NSKey, row: Row)
    ensures RowAt([Write(nk, row)], 1, nk) == Some(row)
  {
    assert [Write(nk, row)][..1] == [Write(nk, row)] && [Write(nk, row)][..0] == [];
  }

  /**
   A re-read with the row in hand outlasts the removal, whose notice a lost connection swallowed, and the reconcile
   of the next connection, which finds the key absent; it then brings the row back, and the scope rests on it.
   */
  lemma LateReReadUndoesAbsence(defaults: map<NSKey, Value>, nk: NSKey, row: Row)
    returns (run: seq<Action>, s: Sys, late: seq<Action>, end: Sys)
    requires nk in defaults && row.revision > 0
    ensures Possible(Init(defaults), run) && After(Init(defaults), run) == s && s.log == [Write(nk, row), Remove(nk)]
    ensures HasHolder(s, nk) && !HasSet(s, nk) && !Owes(s, nk) && Goes(s, late, end, nk)
    ensures AtRest(end, TrailAfter(s, TrailAfter(Init(defaults), NoTrail, run, nk), late, nk), nk) && OffStore(end, nk)
  {
    hide Next, Enabled, Observe, AtRest, Goes, OffStore, Rising, RowAt;
    var r0, s0 := ComeUp(defaults, nk);
    var r1;
    r1, s := RemovalOvertakesRead(s0, nk, row);
    Join(Init(defaults), r0, r1);
    run := r0 + r1;
    ReachedBy(defaults, run, s, nk);
    OneWriteRises(s.log, nk, row);
    var t := TrailAfter(Init(defaults), NoTrail, run, nk);
    LateReRead(s, t, nk);
    late, end := RestOffStore(s, t, nk);
  }

  // ----- A write nobody hears of -----

  /** A re-read has an older row in hand when the store takes a newer one. */
  lemma RewriteOvertakesRead(s: Sys, nk: NSKey, first: Row, row: Row) returns (run: seq<Action>, s': Sys)
    requires FirstUp(s, s.defaults) && nk in s.defaults
    ensures Possible(s, run) && After(s, run) == s' && s'.log == [Write(nk, first), Write(nk, row)]
    ensures s'.worker == s.worker && s'.sc == s.sc
    ensures s'.rereads.Keys == {0} && s'.sets == map[] && s'.deletes == map[] && s'.defaults == s.defaults
    ensures !s'.sc.gone
    ensures var op := s'.rereads[0];
      op.key == nk && op.phase == Read(1, Some(first)) && op.fence.deletes == Causality.Deletes(s'.sc, nk)
  {
    hide LinkStep, LinkEnabled, WorkerStep, WorkerEnabled;
    var a0, a1 := Writer(ForeignWrite(Write(nk, first))), Feed(Start(0, nk, false, None));
    var a2, a3 := Feed(GetReturns(0, 1)), Writer(ForeignWrite(Write(nk, row)));
    var s1 := Next(s, a0);
    assert s1.log == [Write(nk, first)];
    var s2 := Next(s1, a1);
    OneRowThere(nk, first);
    var s3 := Next(s2, a2);
    s' := Next(s3, a3);
    FourSteps(s, a0, a1, a2, a3);
    run := [a0, a1] + [a2, a3];
  }

  lemma TwoRows(nk: NSKey, first: Row, row: Row)
    ensures RowsAt([Write(nk, first), Write(nk, row)], 2) == map[nk := row]
  {
    var log := [Write(nk, first), Write(nk, row)];
    assert log[..2] == log && log[..1] == [Write(nk, first)] && [Write(nk, first)][..0] == [];
    assert Rows([]) == map[];
    assert Rows([Write(nk, first)]) == map[nk := first];
    assert Rows(log) == map[nk := first][nk := row] == map[nk := row];
  }

  /** The re-read lands while the reconcile holds its photograph. */
  lemma LandsInTheWindow(s: Sys, nk: NSKey, first: Row, v: Value) returns (run: seq<Action>, s': Sys)
    requires Applies(s, nk) && 0 in s.rereads && first.revision > 0 && RevOf(s.sc, nk) == 0
    requires var op := s.rereads[0];
      op.key == nk && op.phase == Read(1, Some(first)) && op.fence.deletes == Causality.Deletes(s.sc, nk)
    ensures Goes(s, run, s', nk) && SameStage(s, s') && s'.rereads == s.rereads - {0}
    ensures s'.sets == s.sets && s'.deletes == s.deletes && RevOf(s'.sc, nk) == first.revision
    ensures nk !in s'.sc.unconfirmed && nk in WindowOf(s'.sc, s.sc.reconcileGen).touched
    ensures s.sc.reconcileGen in s'.sc.windows
  {
    hide FeedStep, Goes, Applies;
    AppliesOverWindow(s, nk);
    var f0, f1 := FenceRow(0), IngestRow(0, Some(v));
    OwnStep(s, f0);
    FeedStage(s, f0);
    FenceRowOnly(s);
    GoesBy(s, Feed(f0), nk);
    var s1 := Next(s, Feed(f0));
    OwnStep(s1, f1);
    FeedStage(s1, f1);
    RowTouches(s1, 0, v);
    ReReadLands(s1, 0, v);
    GoesBy(s1, Feed(f1), nk);
    s' := Next(s1, Feed(f1));
    assert s'.rereads == s.rereads - {0};
    GoesOn(s, [Feed(f0)], s1, [Feed(f1)], s', nk);
    run := [Feed(f0)] + [Feed(f1)];
  }

  lemma AppliesOverWindow(s: Sys, nk: NSKey)
    requires Applies(s, nk)
    ensures s.sc.reconcileGen in s.sc.windows && !s.sc.gone
  {
  }

  lemma FenceRowOnly(s: Sys)
    requires FeedEnabled(s, FenceRow(0))
    ensures FeedStep(s, FenceRow(0)).sc == Record(s.sc, s.rereads[0].key, false)
    ensures forall k :: Causality.Deletes(FeedStep(s, FenceRow(0)).sc, k) == Causality.Deletes(s.sc, k)
    ensures forall k :: RevOf(FeedStep(s, FenceRow(0)).sc, k) == RevOf(s.sc, k)
  {
  }

  lemma RowTouches(s: Sys, id: nat, v: Value)
    requires FeedEnabled(s, IngestRow(id, Some(v))) && !s.sc.gone && s.rereads[id].phase.found.revision > 0
    requires s.rereads[id].fence.deletes == Causality.Deletes(s.sc, s.rereads[id].key)
    requires RevOf(s.sc, s.rereads[id].key) == 0
    ensures var op, sc' := s.rereads[id], FeedStep(s, IngestRow(id, Some(v))).sc;
      && RevOf(sc', op.key) == op.phase.found.revision && sc'.windows.Keys == s.sc.windows.Keys
      && forall g :: g in sc'.windows ==> op.key in sc'.windows[g].touched
  {
    hide Publish, Notifies;
    RowLands(s.sc, RowPublication(s.rereads[id].key, s.rereads[id].phase.found, v));
  }

  /** The reconcile skips the touched key, finds nothing else to do, and confirms the scope. */
  lemma SkipsAndConfirms(s: Sys, nk: NSKey) returns (run: seq<Action>, s': Sys)
    requires s.worker.Applying? && s.worker.rows == {nk} && s.worker.absent == {} && nk in s.worker.snapshot
    requires s.worker.arm == Arming(s.sc.reconcileGen, s.sc.disconnectGen) && nk in s.defaults
    requires nk in WindowOf(s.sc, s.sc.reconcileGen).touched
    ensures Goes(s, run, s', nk) && SameFlight(s, s') && s'.worker.Idle? && !s'.sc.stale
    ensures s'.sc.pending == s.sc.pending && s'.armedLog == s.armedLog && s'.sc.reconcileGen == s.sc.reconcileGen
    ensures s'.sc.entries == s.sc.entries && s'.sc.unconfirmed == s.sc.unconfirmed
  {
    hide Goes, Publish;
    var a0, a1, a2 := Worker(ApplyRow(nk, Usable(s.defaults[nk]))), Worker(Finish), Worker(CloseOwn);
    var s1 := Next(s, a0);
    assert s1.worker.rows == {} && s1.sc == s.sc;
    var s2 := Next(s1, a1);
    s' := Next(s2, a2);
    GoesBy(s, a0, nk);
    GoesBy(s1, a1, nk);
    GoesOn(s, [a0], s1, [a1], s2, nk);
    GoesBy(s2, a2, nk);
    GoesOn(s, [a0] + [a1], s2, [a2], s', nk);
    run := [a0] + [a1] + [a2];
  }

  /** A reconcile takes its photograph while the re-read is still out. */
  lemma PhotographOverRead(s: Sys, nk: NSKey, first: Row, row: Row) returns (run: seq<Action>, s': Sys)
    requires Mailbox.Owned(s) && s.worker.Idle? && !s.sc.gone && s.defaults.Keys == {nk}
    requires s.log == [Write(nk, first), Write(nk, row)]
    ensures Goes(s, run, s', nk) && SameFlight(s, s') && s'.worker.Applying? && Applies(s', nk)
    ensures s'.sc.entries == s.sc.entries && s'.worker.rows == {nk} && s'.worker.absent == {}
    ensures nk in s'.worker.snapshot
  {
    hide Goes, Mailbox.Owned, Rearmed, ReadyToWake, Applies, SameFlight, RowsAt;
    var r0, s1 := Reconnect(s, nk);
    var r1, s2 := FreeWorker(s1, nk);
    StillOpen(s, s1, nk);
    SameFlightOn(s, s1, s2);
    StillOpen(s, s2, nk);
    var r2;
    r2, s' := TakeUp(s2, nk);
    SameFlightOn(s, s2, s');
    GoesOn(s, r0, s1, r1, s2, nk);
    GoesOn(s, r0 + r1, s2, r2, s', nk);
    TwoRows(nk, first, row);
    run := r0 + r1 + r2;
  }

  lemma NothingCachedYet(s: Sys, t: Trail, nk: NSKey)
    requires Reached(s, t, nk) && s.log == []
    ensures RevOf(s.sc, nk) == 0 && Mailbox.Owned(s)
  {
    hide Mailbox.Owned, Causality.Causal, Freshness.Sound;
    ReachedOk(s, t, nk);
    assert Backed(s.log, |s.log|, nk, RevOf(s.sc, nk));
  }

  lemma TwoWritesRise(log: seq<StoreOp>, nk: NSKey, first: Row, row: Row)
    requires log == [Write(nk, first), Write(nk, row)] && 0 < first.revision < row.revision
    ensures Rising(log, nk) && RowAt(log, 2, nk) == Some(row)
  {
    TwoRows(nk, first, row);
    forall i | 0 <= i < |log| && log[i].Write? && log[i].key == nk ensures Climbs(log, i, nk, log[i].row) {
      forall j | 0 <= j < i && log[j].Write? && log[j].key == nk ensures log[j].row.revision < log[i].row.revision {}
    }
  }

  /**
   A write whose notice a lost connection swallowed can go unheard: a re-read that found the older row, and lands in
   the window of the next connection's reconcile, makes that reconcile skip the key. Nothing is due any more, nothing
   reports stale, and the cache serves the older row.
   */
  lemma AWriteGoesUnheard(nk: NSKey, def: Value, first: Row, row: Row) returns (run: seq<Action>, end: Sys)
    requires 0 < first.revision < row.revision
    ensures Possible(Init(map[nk := def]), run) && After(Init(map[nk := def]), run) == end
    ensures NothingDue(end, TrailAfter(Init(map[nk := def]), NoTrail, run, nk), nk)
    ensures RevOf(end.sc, nk) == first.revision && Live(end, nk) == Some(row) && Rising(end.log, nk)
  {
    hide Next, Enabled, Observe, Inv, Goes, Rising, RowAt, Applies, SameStage, SameFlight;
    var defaults := map[nk := def];
    var start := Init(defaults);
    var r0, s0 := ComeUp(defaults, nk);
    ReachedBy(defaults, r0, s0, nk);
    NothingCachedYet(s0, TrailAfter(start, NoTrail, r0, nk), nk);
    var r1, s1 := RewriteOvertakesRead(s0, nk, first, row);
    Join(start, r0, r1);
    InitInv(defaults);
    RunKeepsInv(start, r0 + r1);
    InvHasBegun(s1, nk);
    var r2, s2 := PhotographOverRead(s1, nk, first, row);
    SameFlightReads(s1, s2, nk);
    var r3, s3 := LandsInTheWindow(s2, nk, first, def);
    SameStageMeans(s2, s3);
    AppliesMeans(s2, nk);
    var r4, s4 := SkipsAndConfirms(s3, nk);
    GoesOn(s1, r2, s2, r3, s3, nk);
    GoesOn(s1, r2 + r3, s3, r4, s4, nk);
    GoesIsRun(start, r0 + r1, s1, r2 + r3 + r4, s4, nk);
    run, end := r0 + r1 + (r2 + r3 + r4), s4;
    SameFlightReads(s3, s4, nk);
    TwoWritesRise(end.log, nk, first, row);
  }

  lemma SameFlightReads(s: Sys, s': Sys, nk: NSKey)
    requires SameFlight(s, s')
    ensures s'.log == s.log && s'.defaults == s.defaults && s'.rereads == s.rereads && s'.sets == s.sets
    ensures s'.deletes == s.deletes && s'.sc.gone == s.sc.gone
    ensures Causality.Deletes(s'.sc, nk) == Causality.Deletes(s.sc, nk)
  {
  }

  lemma SameStageMeans(s: Sys, s': Sys)
    requires SameStage(s, s')
    ensures s'.log == s.log && s'.defaults == s.defaults && s'.worker == s.worker && s'.armedLog == s.armedLog
    ensures s'.sc.gone == s.sc.gone && s'.sc.pending == s.sc.pending
    ensures s'.sc.reconcileGen == s.sc.reconcileGen && s'.sc.disconnectGen == s.sc.disconnectGen
  {
  }

  lemma AppliesMeans(s: Sys, nk: NSKey)
    requires Applies(s, nk)
    ensures s.worker.Applying? && s.worker.arm == Arming(s.sc.reconcileGen, s.sc.disconnectGen)
    ensures s.sc.pending.Vacant? && s.sc.reconcileGen in s.armedLog && s.armedLog[s.sc.reconcileGen] == |s.log|
    ensures !s.sc.gone
  {
  }

  lemma {:induction false} GoesIsRun(start: Sys, run: seq<Action>, s: Sys, more: seq<Action>, s': Sys, nk: NSKey)
    requires Possible(start, run) && After(start, run) == s && Goes(s, more, s', nk)
    ensures Possible(start, run + more) && After(start, run + more) == s'
  {
    hide Next, Enabled;
    Join(start, run, more);
  }
}
