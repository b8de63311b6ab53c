/** A write Publish acknowledged stays in force: the cached revision never falls below it while its row stays. */
module ReadYourWrites {
  import opened Types
  import opened Fence
  import opened Protocol
  import opened StoreLog
  import opened Mailbox

  /** The cached revision; 0 also for a key nothing has published yet. */
  function RevOf(sc: Scope, nk: NSKey): int {
    if nk in sc.entries then sc.entries[nk].revision else 0
  }

  /** The store wrote this revision of the key within its first `upto` operations. */
  ghost predicate Written(log: seq<StoreOp>, upto: nat, nk: NSKey, revision: int) {
    exists i: nat :: i < upto && Wrote(log, i, nk, revision)
  }

  /** A cached revision other than 0 came from a row the store had written. */
  ghost predicate Backed(log: seq<StoreOp>, upto: nat, nk: NSKey, revision: int) {
    revision == 0 || Written(log, upto, nk, revision)
  }

  lemma PositiveIfRising(log: seq<StoreOp>, nk: NSKey, revision: int)
    requires Rising(log, nk) && Written(log, |log|, nk, revision)
    ensures revision > 0
  {
    var i: nat :| i < |log| && Wrote(log, i, nk, revision);
    assert Climbs(log, i, nk, log[i].row);
  }

  predicate SetLogged(log: seq<StoreOp>, op: LocalSet) {
    0 < op.commit <= |log| && log[op.commit - 1] == Write(op.key, op.row)
  }

  ghost predicate ReReadHonest(s: Sys, op: ReRead) {
    var now := FenceFor(s.sc, op.key);
    && op.logStart <= |s.log|
    && op.fence.publications <= now.publications && op.fence.deletes <= now.deletes
    && (op.fence == now ==> Backed(s.log, op.logStart, op.key, RevOf(s.sc, op.key)))
    && (op.phase.Read? ==> op.logStart <= op.phase.at <= |s.log| && op.phase.row == RowAt(s.log, op.phase.at, op.key))
    && (op.phase.Grading? ==>
          && Written(s.log, |s.log|, op.key, op.phase.found.revision)
          && op.phase.readAt <= |s.log| && RowAt(s.log, op.phase.readAt, op.key) == Some(op.phase.found))
  }

  predicate WorkerHonest(s: Sys) {
    match s.worker
    case Listing(arm, _, logStart) =>
      arm.reconcile in s.armedLog && s.armedLog[arm.reconcile] <= logStart <= |s.log|
    case Applying(arm, _, at, snapshot, rows, absent, _, _) =>
      && arm.reconcile in s.armedLog && s.armedLog[arm.reconcile] <= at <= |s.log|
      && snapshot == RowsAt(s.log, at) && absent !! snapshot.Keys
    case _ => true
  }

  /** What an acknowledged write relies on: its row, the windows that could miss it, and the cache. */
  ghost predicate PromiseKept(s: Sys, p: Promise) {
    && 0 < p.commit <= |s.log| && Wrote(s.log, p.commit - 1, p.key, p.revision) && p.revision > 0
    && NotRemovedSince(s.log, p.key, p.commit)
    && (forall g :: g in s.sc.windows ==> Covers(s, g, p))
    && (Rising(s.log, p.key) ==> RevOf(s.sc, p.key) >= p.revision)
  }

  /** The window knows the key, or was armed after the row was committed. */
  predicate Covers(s: Sys, g: nat, p: Promise) {
    p.key in WindowOf(s.sc, g).touched || (g in s.armedLog && s.armedLog[g] >= p.commit)
  }

  ghost predicate Kept(s: Sys) {
    && (forall g :: g in s.sc.windows ==> g in s.armedLog && s.armedLog[g] <= |s.log|)
    && (forall nk :: Backed(s.log, |s.log|, nk, RevOf(s.sc, nk)))
    && (forall id :: id in s.sets ==> SetLogged(s.log, s.sets[id]))
    && (forall id :: id in s.rereads ==> ReReadHonest(s, s.rereads[id]))
    && (forall p :: p in s.promises ==> PromiseKept(s, p))
    && WorkerHonest(s)
  }

  // ----- What a step of the scope does to the cached revisions -----

  /** Fences climb, an unmoved fence means an unmoved revision, and a new revision is backed by the log. */
  ghost predicate Evolves(log: seq<StoreOp>, sc: Scope, sc': Scope) {
    && (forall nk :: EvolvesAt(log, sc, sc', nk))
    && sc'.windows.Keys == sc.windows.Keys
    && (forall g :: g in sc.windows ==> sc.windows[g].touched <= sc'.windows[g].touched)
  }

  ghost predicate EvolvesAt(log: seq<StoreOp>, sc: Scope, sc': Scope, nk: NSKey) {
    var before, after := FenceFor(sc, nk), FenceFor(sc', nk);
    && before.publications <= after.publications && before.deletes <= after.deletes
    && (before == after ==> RevOf(sc', nk) == RevOf(sc, nk))
    && Backed(log, |log|, nk, RevOf(sc', nk))
  }

  lemma RecordEvolves(log: seq<StoreOp>, sc: Scope, nk: NSKey, usable: bool)
    requires forall k :: Backed(log, |log|, k, RevOf(sc, k))
    ensures Evolves(log, sc, Record(sc, nk, usable))
  {
    var sc' := Record(sc, nk, usable);
    forall k ensures EvolvesAt(log, sc, sc', k) { assert RevOf(sc', k) == RevOf(sc, k); }
  }

  lemma PublishEvolves(log: seq<StoreOp>, sc: Scope, pub: Publication)
    requires forall k :: Backed(log, |log|, k, RevOf(sc, k))
    requires Backed(log, |log|, pub.key, pub.revision)
    ensures Evolves(log, sc, Publish(sc, pub))
  {
    var sc' := Publish(sc, pub);
    forall k ensures EvolvesAt(log, sc, sc', k) {}
  }

  /** A row publication never lowers the cached revision, and leaves it at least its own. */
  lemma RowNeverLowers(sc: Scope, pub: Publication)
    requires pub.revision > 0
    ensures forall nk :: RevOf(Publish(sc, pub), nk) >= RevOf(sc, nk)
    ensures !sc.gone ==> RevOf(Publish(sc, pub), pub.key) >= pub.revision
  {
  }

  /** A default publication can only lower the key it is for. */
  lemma DefaultLowersOnlyItsKey(sc: Scope, nk: NSKey, def: Value, deleted: bool)
    ensures forall k :: k != nk ==> RevOf(Publish(sc, DefaultPublication(nk, def, deleted)), k) == RevOf(sc, k)
  {
  }

  // ----- Preservation -----

  /** The general shape of a step that leaves the log alone. */
  lemma EvolveKeeps(s: Sys, s': Sys)
    requires Kept(s) && Evolves(s.log, s.sc, s'.sc)
    requires s'.log == s.log && s'.armedLog == s.armedLog
    requires forall id :: id in s'.sets ==> id in s.sets && s'.sets[id] == s.sets[id].(fenced := s'.sets[id].fenced)
    requires forall id :: id in s'.rereads ==>
      id in s.rereads && s'.rereads[id] == s.rereads[id].(phase := s'.rereads[id].phase)
      && (s'.rereads[id].phase != s.rereads[id].phase ==> ReReadHonest(s', s'.rereads[id]))
    requires forall p :: p in s'.promises ==>
      (p in s.promises && (Rising(s.log, p.key) ==> RevOf(s'.sc, p.key) >= p.revision)) || PromiseKept(s', p)
    requires WorkerHonest(s')
    ensures Kept(s')
  {
    forall nk ensures Backed(s'.log, |s'.log|, nk, RevOf(s'.sc, nk)) { assert EvolvesAt(s.log, s.sc, s'.sc, nk); }
    forall id | id in s'.rereads ensures ReReadHonest(s', s'.rereads[id]) {
      assert ReReadHonest(s, s.rereads[id]);
      assert EvolvesAt(s.log, s.sc, s'.sc, s.rereads[id].key);
    }
    forall p | p in s'.promises ensures PromiseKept(s', p) {
      if p in s.promises {
        assert PromiseKept(s, p);
        forall g | g in s'.sc.windows ensures Covers(s', g, p) { assert Covers(s, g, p); }
      }
    }
    forall id | id in s'.sets ensures SetLogged(s'.log, s'.sets[id]) {
      assert SetLogged(s.log, s.sets[id]);
    }
  }

  /** Recording after a publication changes no revision and no fence. */
  lemma RecordAfter(log: seq<StoreOp>, sc: Scope, mid: Scope, nk: NSKey, usable: bool)
    requires Evolves(log, sc, mid)
    ensures Evolves(log, sc, Record(mid, nk, usable))
  {
    var sc' := Record(mid, nk, usable);
    forall k ensures EvolvesAt(log, sc, sc', k) { assert EvolvesAt(log, sc, mid, k); }
  }

  lemma StillEvolves(log: seq<StoreOp>, sc: Scope)
    requires forall k :: Backed(log, |log|, k, RevOf(sc, k))
    ensures Evolves(log, sc, sc)
  {
    forall k ensures EvolvesAt(log, sc, sc, k) {}
  }

  /** The ingress, for a row the store wrote: the scope evolves and no promised revision falls. */
  lemma IngestEvolves(s: Sys, nk: NSKey, row: Row, value: Option<Value>, fence: FeedFence)
    requires Kept(s) && Written(s.log, |s.log|, nk, row.revision)
    ensures Evolves(s.log, s.sc, Ingest(s.sc, nk, fence, PreparedRow(nk, row, value)))
    ensures forall k :: Rising(s.log, k) ==>
              RevOf(Ingest(s.sc, nk, fence, PreparedRow(nk, row, value)), k) >= RevOf(s.sc, k)
  {
    hide Publish, Record;
    var pub := PreparedRow(nk, row, value);
    var ok := Publishable(s.sc, nk, fence, pub);
    var mid := if ok then Publish(s.sc, pub.value) else s.sc;
    if ok {
      PublishEvolves(s.log, s.sc, pub.value);
      forall k | Rising(s.log, k) ensures RevOf(mid, k) >= RevOf(s.sc, k) {
        if k == nk { PositiveIfRising(s.log, nk, row.revision); RowNeverLowers(s.sc, pub.value); }
        else { OtherKeysKeep(s.sc, pub.value, k); }
      }
    } else {
      StillEvolves(s.log, s.sc);
    }
    RecordAfter(s.log, s.sc, mid, nk, ok);
  }

  lemma OtherKeysKeep(sc: Scope, pub: Publication, k: NSKey)
    requires k != pub.key
    ensures RevOf(Publish(sc, pub), k) == RevOf(sc, k)
  {
  }

  lemma SetFenceKeeps(s: Sys, id: nat)
    requires Kept(s) && Enabled(s, Writer(SetFence(id)))
    ensures Kept(Next(s, Writer(SetFence(id))))
  {
    hide Evolves;
    RecordEvolves(s.log, s.sc, s.sets[id].key, false);
    EvolveKeeps(s, Next(s, Writer(SetFence(id))));
  }

  lemma SetPublishKeeps(s: Sys, id: nat, value: Option<Value>)
    requires Kept(s) && Enabled(s, Writer(SetPublish(id, value)))
    ensures Kept(Next(s, Writer(SetPublish(id, value))))
  {
    hide Evolves, Ingest, Promises;
    var op, s' := s.sets[id], Next(s, Writer(SetPublish(id, value)));
    assert Wrote(s.log, op.commit - 1, op.key, op.row.revision);
    IngestEvolves(s, op.key, op.row, value, Unarmed);
    if Promises(s, op, value) { NewPromiseKept(s, op, value, s'); }
    EvolveKeeps(s, s');
  }

  /** The moment Publish returns nil: the cache holds at least the row, and every open window knows the key. */
  lemma NewPromiseKept(s: Sys, op: LocalSet, value: Option<Value>, s': Sys)
    requires SetLogged(s.log, op) && Promises(s, op, value)
    requires s'.log == s.log && s'.armedLog == s.armedLog
    requires s'.sc == Ingest(s.sc, op.key, Unarmed, PreparedRow(op.key, op.row, value))
    ensures PromiseKept(s', Promise(op.key, op.row.revision, op.commit))
  {
    var pub := RowPublication(op.key, op.row, value.value);
    RowNeverLowers(s.sc, pub);
    assert s'.sc == Record(Publish(s.sc, pub), op.key, true);
    forall g | g in s'.sc.windows ensures op.key in WindowOf(s'.sc, g).touched {}
  }

  /** The store moves on; reads already taken and promises already made are not disturbed by a write. */
  lemma CommitKeeps(s: Sys, s': Sys, op: StoreOp)
    requires Kept(s) && s'.log == s.log + [op]
    requires s'.sc == s.sc && s'.rereads == s.rereads && s'.armedLog == s.armedLog && s'.worker == s.worker
    requires forall id :: id in s'.sets ==>
               (id in s.sets && s'.sets[id] == s.sets[id]) || SetLogged(s'.log, s'.sets[id])
    requires forall p :: p in s'.promises ==> p in s.promises && op != Remove(p.key)
    ensures Kept(s')
  {
    forall nk, upto: nat, revision | upto <= |s.log| && Backed(s.log, upto, nk, revision)
      ensures Backed(s'.log, upto, nk, revision)
    {
      BackedLater(s.log, op, upto, nk, revision);
    }
    forall nk ensures Backed(s'.log, |s'.log|, nk, RevOf(s'.sc, nk)) {
      assert Backed(s.log, |s.log|, nk, RevOf(s.sc, nk));
      BackedLater(s.log, op, |s.log|, nk, RevOf(s.sc, nk));
      BackedWider(s'.log, |s.log|, |s'.log|, nk, RevOf(s.sc, nk));
    }
    forall id | id in s'.rereads ensures ReReadHonest(s', s'.rereads[id]) {
      ReReadSurvivesCommit(s, s', op, id);
    }
    forall id | id in s'.sets ensures SetLogged(s'.log, s'.sets[id]) {
      assert id in s.sets && s'.sets[id] == s.sets[id] ==> SetLogged(s.log, s.sets[id]);
    }
    forall p | p in s'.promises ensures PromiseKept(s', p) {
      assert PromiseKept(s, p);
      if Rising(s'.log, p.key) { RisingBefore(s.log, op, p.key); }
      forall g | g in s'.sc.windows ensures Covers(s', g, p) { assert Covers(s, g, p); }
    }
    if s.worker.Applying? { SnapshotStable(s.log, [op], s.worker.at); }
  }

  lemma BackedLater(log: seq<StoreOp>, op: StoreOp, upto: nat, nk: NSKey, revision: int)
    requires upto <= |log|
    ensures Written(log, upto, nk, revision) ==> Written(log + [op], upto, nk, revision)
    ensures Backed(log, upto, nk, revision) ==> Backed(log + [op], upto, nk, revision)
  {
    if Written(log, upto, nk, revision) {
      var i: nat :| i < upto && Wrote(log, i, nk, revision);
      assert Wrote(log + [op], i, nk, revision);
    }
  }

  lemma BackedWider(log: seq<StoreOp>, upto: nat, wider: nat, nk: NSKey, revision: int)
    requires upto <= wider
    ensures Written(log, upto, nk, revision) ==> Written(log, wider, nk, revision)
    ensures Backed(log, upto, nk, revision) ==> Backed(log, wider, nk, revision)
  {
  }

  lemma ReReadSurvivesCommit(s: Sys, s': Sys, op: StoreOp, id: nat)
    requires id in s.rereads && ReReadHonest(s, s.rereads[id]) && s'.log == s.log + [op] && s'.sc == s.sc
    ensures ReReadHonest(s', s.rereads[id])
  {
    var r := s.rereads[id];
    BackedLater(s.log, op, r.logStart, r.key, RevOf(s.sc, r.key));
    if r.phase.Read? { SnapshotStable(s.log, [op], r.phase.at); }
    if r.phase.Grading? {
      BackedLater(s.log, op, |s.log|, r.key, r.phase.found.revision);
      BackedWider(s'.log, |s.log|, |s'.log|, r.key, r.phase.found.revision);
      SnapshotStable(s.log, [op], r.phase.readAt);
    }
  }

  lemma DefaultEvolves(log: seq<StoreOp>, sc: Scope, nk: NSKey, def: Value, deleted: bool)
    requires forall k :: Backed(log, |log|, k, RevOf(sc, k))
    ensures Evolves(log, sc, Publish(sc, DefaultPublication(nk, def, deleted)))
    ensures Evolves(log, sc, Record(Publish(sc, DefaultPublication(nk, def, deleted)), nk, true))
  {
    hide Publish, Evolves, Record;
    PublishEvolves(log, sc, DefaultPublication(nk, def, deleted));
    RecordAfter(log, sc, Publish(sc, DefaultPublication(nk, def, deleted)), nk, true);
  }

  lemma RecordKeepsRevs(sc: Scope, nk: NSKey, usable: bool)
    ensures forall k :: RevOf(Record(sc, nk, usable), k) == RevOf(sc, k)
  {
  }

  lemma DeletePublishKeeps(s: Sys, id: nat)
    requires Kept(s) && Enabled(s, Writer(DeletePublish(id)))
    ensures Kept(Next(s, Writer(DeletePublish(id))))
  {
    hide Evolves, Publish, Record;
    var nk := s.deletes[id];
    var def := s.defaults[nk];
    var mid := Publish(s.sc, DefaultPublication(nk, def, true));
    DefaultEvolves(s.log, s.sc, nk, def, true);
    StillEvolves(s.log, s.sc);
    DefaultLowersOnlyItsKey(s.sc, nk, def, true);
    RecordKeepsRevs(mid, nk, true);
    EvolveKeeps(s, Next(s, Writer(DeletePublish(id))));
  }

  lemma WritersKeep(s: Sys, w: WriterAction)
    requires Kept(s) && Enabled(s, Writer(w))
    ensures Kept(Next(s, Writer(w)))
  {
    hide Kept, Evolves, Record, Ingest, LocalDelete, PublishSet, PublishDelete;
    var s' := Next(s, Writer(w));
    match w
    case ForeignWrite(op) => CommitKeeps(s, s', op);
    case SetCommit(_, nk, row) => CommitKeeps(s, s', Write(nk, row));
    case SetFence(id) => SetFenceKeeps(s, id);
    case SetPublish(id, value) => SetPublishKeeps(s, id, value);
    case DeleteCommit(_, nk) => CommitKeeps(s, s', Remove(nk));
    case DeletePublish(id) => DeletePublishKeeps(s, id);
    case Shutdown => ShutdownKeeps(s, s');
  }

  lemma ShutdownKeeps(s: Sys, s': Sys)
    requires Kept(s) && s' == s.(sc := s.sc.(gone := true), clock := s.clock + 1)
    ensures Kept(s')
  {
    forall nk ensures EvolvesAt(s.log, s.sc, s'.sc, nk) { assert Backed(s.log, |s.log|, nk, RevOf(s.sc, nk)); }
    EvolveKeeps(s, s');
  }

  // ----- The changefeed -----

  lemma FeedDeleteEvolves(log: seq<StoreOp>, sc: Scope, nk: NSKey)
    requires forall k :: Backed(log, |log|, k, RevOf(sc, k))
    ensures Evolves(log, sc, FeedDelete(sc, nk))
    ensures forall k :: RevOf(FeedDelete(sc, nk), k) == RevOf(sc, k)
  {
    var sc' := FeedDelete(sc, nk);
    forall k ensures EvolvesAt(log, sc, sc', k) { assert RevOf(sc', k) == RevOf(sc, k); }
  }

  lemma UnconfirmedEvolves(log: seq<StoreOp>, sc: Scope, mid: Scope, nk: NSKey, origin: FeedFence)
    requires Evolves(log, sc, mid)
    ensures Evolves(log, sc, RecordUnconfirmed(mid, nk, origin))
    ensures forall k :: RevOf(RecordUnconfirmed(mid, nk, origin), k) == RevOf(mid, k)
  {
    var sc' := RecordUnconfirmed(mid, nk, origin);
    forall k ensures EvolvesAt(log, sc, sc', k) { assert EvolvesAt(log, sc, mid, k); }
  }

  lemma StartKeeps(s: Sys, f: FeedAction)
    requires Kept(s) && Enabled(s, Feed(f)) && f.Start?
    ensures Kept(Next(s, Feed(f)))
  {
    var s' := Next(s, Feed(f));
    forall id | id in s'.rereads ensures ReReadHonest(s', s'.rereads[id]) {
      if id != f.id { assert ReReadHonest(s, s.rereads[id]); }
      else { assert Backed(s.log, |s.log|, f.nk, RevOf(s.sc, f.nk)); }
    }
    forall p | p in s'.promises ensures PromiseKept(s', p) { assert PromiseKept(s, p); SameScopeCovers(s, s', p); }
    forall nk ensures Backed(s'.log, |s'.log|, nk, RevOf(s'.sc, nk)) {
      assert Backed(s.log, |s.log|, nk, RevOf(s.sc, nk));
    }
  }

  lemma SameScopeCovers(s: Sys, s': Sys, p: Promise)
    requires s'.sc == s.sc && s'.armedLog == s.armedLog && forall g :: g in s.sc.windows ==> Covers(s, g, p)
    ensures forall g :: g in s'.sc.windows ==> Covers(s', g, p)
  {
    forall g | g in s'.sc.windows ensures Covers(s', g, p) { assert Covers(s, g, p); }
  }

  /** A store call that fails or returns moves one re-read along and nothing else. */
  lemma GetKeeps(s: Sys, f: FeedAction)
    requires Kept(s) && Enabled(s, Feed(f)) && (f.GetFails? || f.GetReturns?)
    ensures Kept(Next(s, Feed(f)))
  {
    hide Evolves, Kept, Rising, Backed, WriterStep, LinkStep, WorkerStep, WriterEnabled, LinkEnabled, WorkerEnabled;
    assert ReReadHonest(s, s.rereads[f.id]) by { KeptIsHonest(s, f.id); }
    var phase := if f.GetFails? then Failed else Read(f.at, RowAt(s.log, f.at, s.rereads[f.id].key));
    RephaseKeeps(s, f.id, phase, s.clock + 1);
  }

  lemma KeptIsHonest(s: Sys, id: nat)
    requires Kept(s) && id in s.rereads
    ensures ReReadHonest(s, s.rereads[id])
  {
  }

  lemma RephaseKeeps(s: Sys, id: nat, phase: Phase, clock: nat)
    requires Kept(s) && id in s.rereads && ReReadHonest(s, s.rereads[id].(phase := phase))
    ensures Kept(s.(rereads := s.rereads[id := s.rereads[id].(phase := phase)], clock := clock))
  {
    hide Evolves;
    StillEvolves(s.log, s.sc);
    EvolveKeeps(s, s.(rereads := s.rereads[id := s.rereads[id].(phase := phase)], clock := clock));
  }

  /** The row a read found was written by the store. */
  lemma FoundRowWasWritten(s: Sys, op: ReRead)
    requires ReReadHonest(s, op) && op.phase.Read? && op.phase.row.Some?
    ensures Written(s.log, |s.log|, op.key, op.phase.row.value.revision)
  {
    var j := RowWasWritten(s.log, op.phase.at, op.key);
    assert Wrote(s.log, j, op.key, op.phase.row.value.revision);
  }

  lemma FenceRowKeeps(s: Sys, id: nat)
    requires Kept(s) && Enabled(s, Feed(FenceRow(id)))
    ensures Kept(Next(s, Feed(FenceRow(id))))
  {
    hide Evolves, Kept, Rising, Backed, Record, WriterStep, LinkStep, WorkerStep, WriterEnabled, LinkEnabled,
      WorkerEnabled;
    var op := s.rereads[id];
    KeptIsHonest(s, id);
    FoundRowWasWritten(s, op);
    RephaseKeeps(s, id, Grading(op.phase.at, op.phase.row.value), s.clock + 1);
    RecordKeeps(Rephased(s, id), op.key);
  }

  function Rephased(s: Sys, id: nat): Sys
    requires Enabled(s, Feed(FenceRow(id)))
  {
    var op := s.rereads[id];
    s.(rereads := s.rereads[id := op.(phase := Grading(op.phase.at, op.phase.row.value))], clock := s.clock + 1)
  }

  lemma RecordKeeps(s: Sys, nk: NSKey)
    requires Kept(s)
    ensures Kept(s.(sc := Record(s.sc, nk, false)))
  {
    hide Evolves, Record;
    KeptIsBacked(s);
    RecordEvolves(s.log, s.sc, nk, false);
    RecordKeepsRevs(s.sc, nk, false);
    EvolveKeeps(s, s.(sc := Record(s.sc, nk, false)));
  }

  lemma KeptIsBacked(s: Sys)
    requires Kept(s)
    ensures forall k :: Backed(s.log, |s.log|, k, RevOf(s.sc, k))
  {
  }

  lemma GiveUpKeeps(s: Sys, id: nat)
    requires Kept(s) && Enabled(s, Feed(GiveUp(id)))
    ensures Kept(Next(s, Feed(GiveUp(id))))
  {
    hide Evolves, Kept, Rising, Backed, Record, WriterStep, LinkStep, WorkerStep, WriterEnabled, LinkEnabled,
      WorkerEnabled;
    var op := s.rereads[id];
    if op.retried {
      KeptIsHonest(s, id);
      RephaseKeeps(s, id, Conceding, s.clock + 1);
      RecordKeeps(s.(rereads := s.rereads[id := op.(phase := Conceding)], clock := s.clock + 1), op.key);
    } else {
      ForgetKeeps(s, id, s.clock + 1);
      RecordKeeps(s.(rereads := s.rereads - {id}, clock := s.clock + 1), op.key);
    }
  }

  lemma ForgetKeeps(s: Sys, id: nat, clock: nat)
    requires Kept(s)
    ensures Kept(s.(rereads := s.rereads - {id}, clock := clock))
  {
    hide Evolves;
    StillEvolves(s.log, s.sc);
    EvolveKeeps(s, s.(rereads := s.rereads - {id}, clock := clock));
  }

  lemma ConcedeKeeps(s: Sys, id: nat)
    requires Kept(s) && Enabled(s, Feed(Concede(id)))
    ensures Kept(Next(s, Feed(Concede(id))))
  {
    hide Evolves, RecordUnconfirmed, WriterStep, LinkStep, WorkerStep, WriterEnabled, LinkEnabled, WorkerEnabled;
    var op := s.rereads[id];
    StillEvolves(s.log, s.sc);
    UnconfirmedEvolves(s.log, s.sc, s.sc, op.key, Armed(op.origin));
    EvolveKeeps(s, Next(s, Feed(Concede(id))));
  }

  lemma IngestRowKeeps(s: Sys, id: nat, value: Option<Value>)
    requires Kept(s) && Enabled(s, Feed(IngestRow(id, value)))
    ensures Kept(Next(s, Feed(IngestRow(id, value))))
  {
    hide Evolves, Ingest, Publishable, Notifies;
    var op := s.rereads[id];
    assert ReReadHonest(s, op);
    IngestEvolves(s, op.key, op.phase.found, value, Armed(op.fence));
    EvolveKeeps(s, Next(s, Feed(IngestRow(id, value))));
  }

  /**
   The heart of the matter: an empty re-read whose fence has not moved contradicts an acknowledged write.
   Its cached revision was written before the read began; the row the read missed came back higher.
   */
  lemma EmptyReadRefused(s: Sys, id: nat, p: Promise)
    requires Kept(s) && Enabled(s, Feed(Empty(id))) && p in s.promises && p.key == s.rereads[id].key
    requires Rising(s.log, p.key)
    ensures s.rereads[id].fence != FenceFor(s.sc, p.key)
  {
    var op := s.rereads[id];
    assert ReReadHonest(s, op) && PromiseKept(s, p);
    var at := op.phase.at;
    assert p.key !in RowsAt(s.log, at);
    if op.fence == FenceFor(s.sc, p.key) {
      if at < p.commit {
        var i: nat :| i < op.logStart && Wrote(s.log, i, p.key, RevOf(s.sc, p.key));
        RecreatedHigher(s.log, i, at, p.commit - 1, p.key, RevOf(s.sc, p.key));
      } else {
        StillThere(s.log, p.commit, at, p.key);
      }
    }
  }

  lemma EmptyKeeps(s: Sys, id: nat)
    requires Kept(s) && Enabled(s, Feed(Empty(id)))
    ensures Kept(Next(s, Feed(Empty(id))))
  {
    hide Evolves, Record, Publish, RecordUnconfirmed;
    var op, s' := s.rereads[id], Next(s, Feed(Empty(id)));
    var def := s.defaults[op.key];
    StillEvolves(s.log, s.sc);
    UnconfirmedEvolves(s.log, s.sc, s.sc, op.key, Armed(op.origin));
    DefaultEvolves(s.log, s.sc, op.key, def, false);
    DefaultLowersOnlyItsKey(s.sc, op.key, def, false);
    RecordKeepsRevs(Publish(s.sc, DefaultPublication(op.key, def, false)), op.key, true);
    forall p | p in s.promises && Rising(s.log, p.key) ensures RevOf(s'.sc, p.key) >= p.revision {
      assert PromiseKept(s, p);
      if p.key == op.key { EmptyReadRefused(s, id, p); }
    }
    EvolveKeeps(s, s');
  }

  lemma DeleteArrivesKeeps(s: Sys, nk: NSKey)
    requires Kept(s) && Enabled(s, Feed(DeleteArrives(nk)))
    ensures Kept(Next(s, Feed(DeleteArrives(nk))))
  {
    hide Evolves, FeedDelete;
    FeedDeleteEvolves(s.log, s.sc, nk);
    EvolveKeeps(s, Next(s, Feed(DeleteArrives(nk))));
  }

  lemma FeedKeeps(s: Sys, f: FeedAction)
    requires Kept(s) && Enabled(s, Feed(f))
    ensures Kept(Next(s, Feed(f)))
  {
    hide Kept, Next, FeedStep;
    match f
    case DeleteArrives(nk) => DeleteArrivesKeeps(s, nk);
    case Start(_, _, _, _) => StartKeeps(s, f);
    case GetFails(_) => GetKeeps(s, f);
    case GetReturns(_, _) => GetKeeps(s, f);
    case GiveUp(id) => GiveUpKeeps(s, id);
    case Concede(id) => ConcedeKeeps(s, id);
    case Empty(id) => EmptyKeeps(s, id);
    case FenceRow(id) => FenceRowKeeps(s, id);
    case IngestRow(id, value) => IngestRowKeeps(s, id, value);
  }

  // ----- The connection and the reconcile goroutine -----

  lemma ResyncKeeps(s: Sys)
    requires Kept(s) && Owned(s)
    ensures Kept(Next(s, Link(Resync)))
  {
    var s' := Next(s, Link(Resync));
    var g' := s.sc.reconcileGen + 1;
    assert g' !in s.sc.windows;
    forall nk ensures Backed(s'.log, |s'.log|, nk, RevOf(s'.sc, nk)) {
      assert Backed(s.log, |s.log|, nk, RevOf(s.sc, nk));
    }
    forall id | id in s'.rereads ensures ReReadHonest(s', s'.rereads[id]) { assert ReReadHonest(s, s.rereads[id]); }
    forall p | p in s'.promises ensures PromiseKept(s', p) {
      assert PromiseKept(s, p);
      forall g | g in s'.sc.windows ensures Covers(s', g, p) { assert g != g' ==> Covers(s, g, p); }
    }
  }

  /** A step that leaves the cache, the log and the work in flight alone, and at most closes windows. */
  lemma NarrowKeeps(s: Sys, s': Sys)
    requires Kept(s) && s'.sc.entries == s.sc.entries && s'.sc.fences == s.sc.fences
    requires forall g :: g in s'.sc.windows ==> g in s.sc.windows && s'.sc.windows[g] == s.sc.windows[g]
    requires s'.log == s.log && s'.sets == s.sets && s'.rereads == s.rereads && s'.promises == s.promises
    requires s'.armedLog == s.armedLog && WorkerHonest(s')
    ensures Kept(s')
  {
    forall nk ensures Backed(s'.log, |s'.log|, nk, RevOf(s'.sc, nk)) {
      assert Backed(s.log, |s.log|, nk, RevOf(s.sc, nk));
    }
    forall id | id in s'.rereads ensures ReReadHonest(s', s'.rereads[id]) { assert ReReadHonest(s, s.rereads[id]); }
    forall p | p in s'.promises ensures PromiseKept(s', p) {
      assert PromiseKept(s, p);
      forall g | g in s'.sc.windows ensures Covers(s', g, p) { assert Covers(s, g, p); }
    }
  }

  lemma LinkKeeps(s: Sys, l: LinkAction)
    requires Kept(s) && Owned(s) && Enabled(s, Link(l))
    ensures Kept(Next(s, Link(l)))
  {
    hide Kept, Owned, PromiseKept, Covers, ReReadHonest, Backed;
    if l.Resync? { ResyncKeeps(s); }
    else { WorkerHonestNow(s); NarrowKeeps(s, Next(s, Link(l))); }
  }

  lemma WorkerHonestNow(s: Sys)
    requires Kept(s)
    ensures WorkerHonest(s)
  {
  }

  lemma ApplyRowKeeps(s: Sys, nk: NSKey, prepared: Prepared)
    requires Kept(s) && Enabled(s, Worker(ApplyRow(nk, prepared)))
    ensures Kept(Next(s, Worker(ApplyRow(nk, prepared))))
  {
    hide Evolves, SnapshotRow, TakesRow, Notifies;
    var w := s.worker;
    SnapshotRowEvolves(s, w.arm, w.at, nk, prepared);
    EvolveKeeps(s, Next(s, Worker(ApplyRow(nk, prepared))));
  }

  lemma SnapshotRowEvolves(s: Sys, arm: Arming, at: nat, nk: NSKey, prepared: Prepared)
    requires Kept(s) && at <= |s.log| && nk in RowsAt(s.log, at)
    ensures var sc' := SnapshotRow(s.sc, arm, nk, RowsAt(s.log, at)[nk], prepared, Default(s, nk));
      Evolves(s.log, s.sc, sc') && forall k :: Rising(s.log, k) ==> RevOf(sc', k) >= RevOf(s.sc, k)
  {
    hide Evolves, Publish;
    var row := RowsAt(s.log, at)[nk];
    var j := RowWasWritten(s.log, at, nk);
    assert Wrote(s.log, j, nk, row.revision);
    assert Written(s.log, |s.log|, nk, row.revision);
    StillEvolves(s.log, s.sc);
    if prepared.Usable? {
      var pub := RowPublication(nk, row, prepared.value);
      var mid := Publish(s.sc, pub);
      PublishEvolves(s.log, s.sc, pub);
      MarkEvolves(s.log, s.sc, mid, nk);
      forall k | Rising(s.log, k) ensures RevOf(mid, k) >= RevOf(s.sc, k) {
        if k == nk { PositiveIfRising(s.log, nk, row.revision); RowNeverLowers(s.sc, pub); }
        else { OtherKeysKeep(s.sc, pub, k); }
      }
    }
    if Default(s, nk).Some? {
      DefaultEvolves(s.log, s.sc, nk, s.defaults[nk], false);
      DefaultLowersOnlyItsKey(s.sc, nk, s.defaults[nk], false);
      if nk !in s.sc.entries { FirstDefaultKeeps(s.sc, nk, s.defaults[nk]); }
    }
  }

  lemma FirstDefaultKeeps(sc: Scope, nk: NSKey, def: Value)
    requires nk !in sc.entries
    ensures RevOf(Publish(sc, DefaultPublication(nk, def, false)), nk) == RevOf(sc, nk)
  {
  }

  lemma MarkEvolves(log: seq<StoreOp>, sc: Scope, mid: Scope, nk: NSKey)
    requires Evolves(log, sc, mid)
    ensures Evolves(log, sc, mid.(unconfirmed := mid.unconfirmed + {nk}))
    ensures Evolves(log, sc, mid.(unconfirmed := mid.unconfirmed - {nk}))
  {
    forall u: set<NSKey> ensures Evolves(log, sc, mid.(unconfirmed := u)) {
      forall k ensures EvolvesAt(log, sc, mid.(unconfirmed := u), k) { assert EvolvesAt(log, sc, mid, k); }
    }
  }

  /** A reconcile that would reset an acknowledged write knows better: its window is touched or its List saw the row. */
  lemma AbsenceRefused(s: Sys, nk: NSKey, p: Promise)
    requires Kept(s) && Owned(s) && Enabled(s, Worker(ApplyAbsent(nk))) && p in s.promises && p.key == nk
    ensures nk in WindowOf(s.sc, s.worker.arm.reconcile).touched
  {
    assert PromiseKept(s, p) && s.worker.arm.reconcile in s.sc.windows;
    assert Covers(s, s.worker.arm.reconcile, p);
    if s.worker.at >= p.commit { StillThere(s.log, p.commit, s.worker.at, nk); }
  }

  lemma ApplyAbsentKeeps(s: Sys, nk: NSKey)
    requires Kept(s) && Owned(s) && Enabled(s, Worker(ApplyAbsent(nk)))
    ensures Kept(Next(s, Worker(ApplyAbsent(nk))))
  {
    hide Evolves, Publish, Owned;
    var w, s', def := s.worker, Next(s, Worker(ApplyAbsent(nk))), s.defaults[nk];
    StillEvolves(s.log, s.sc);
    MarkEvolves(s.log, s.sc, s.sc, nk);
    DefaultEvolves(s.log, s.sc, nk, def, false);
    DefaultLowersOnlyItsKey(s.sc, nk, def, false);
    forall p | p in s.promises && Rising(s.log, p.key) ensures RevOf(s'.sc, p.key) >= p.revision {
      assert PromiseKept(s, p);
      if p.key == nk { AbsenceRefused(s, nk, p); }
    }
    EvolveKeeps(s, s');
  }

  lemma WorkerKeeps(s: Sys, k: WorkerAction)
    requires Kept(s) && Owned(s) && Enabled(s, Worker(k))
    ensures Kept(Next(s, Worker(k)))
  {
    hide Kept, Owned;
    match k
    case ApplyRow(nk, prepared) => ApplyRowKeeps(s, nk, prepared);
    case ApplyAbsent(nk) => ApplyAbsentKeeps(s, nk);
    case _ => WorkerMovesKeeps(s, k);
  }

  lemma WorkerMovesKeeps(s: Sys, k: WorkerAction)
    requires Kept(s) && Owned(s) && Enabled(s, Worker(k)) && !k.ApplyRow? && !k.ApplyAbsent?
    ensures Kept(Next(s, Worker(k)))
  {
    hide PromiseKept, ReReadHonest, Backed, WriterStep, FeedStep, LinkStep, RowsAt, Dated;
    WorkerHonestNow(s);
    NarrowKeeps(s, Next(s, Worker(k)));
  }

  lemma KeptKept(s: Sys, a: Action)
    requires Kept(s) && Owned(s) && Enabled(s, a)
    ensures Kept(Next(s, a))
  {
    hide Kept, Owned;
    match a
    case Writer(w) => WritersKeep(s, w);
    case Feed(f) => FeedKeeps(s, f);
    case Link(l) => LinkKeeps(s, l);
    case Worker(k) => WorkerKeeps(s, k);
  }
}
