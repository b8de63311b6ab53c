/** No resurrection: what a counted delete forbids the re-reads and reconciles in flight to do. */
module Causality {
  import opened Types
  import opened Fence
  import opened Protocol
  import opened Mailbox

  function Deletes(sc: Scope, nk: NSKey): nat { FenceFor(sc, nk).deletes }

  /** Nothing was counted: the delete counters stand and the windows only learn of more keys. */
  ghost predicate KeepsDeletes(sc: Scope, sc': Scope) {
    && (forall nk :: Deletes(sc', nk) == Deletes(sc, nk))
    && sc'.windows.Keys == sc.windows.Keys
    && (forall g :: g in sc.windows ==> sc.windows[g].touched <= sc'.windows[g].touched)
  }

  lemma RecordKeepsDeletes(sc: Scope, nk: NSKey, usable: bool)
    ensures KeepsDeletes(sc, Record(sc, nk, usable))
  {
  }

  lemma PublishKeepsDeletes(sc: Scope, pub: Publication)
    requires !pub.deleted
    ensures KeepsDeletes(sc, Publish(sc, pub))
  {
    var sc' := Publish(sc, pub);
    forall nk ensures Deletes(sc', nk) == Deletes(sc, nk) {}
  }

  lemma IngestKeepsDeletes(sc: Scope, nk: NSKey, fence: FeedFence, pub: Option<Publication>)
    requires pub.Some? ==> !pub.value.deleted
    ensures KeepsDeletes(sc, Ingest(sc, nk, fence, pub))
  {
    hide Publish, Record;
    var ok := Publishable(sc, nk, fence, pub);
    if ok { PublishKeepsDeletes(sc, pub.value); }
    RecordKeepsDeletes(if ok then Publish(sc, pub.value) else sc, nk, ok);
  }

  lemma SnapshotRowKeepsDeletes(sc: Scope, arm: Arming, nk: NSKey, row: Row, prepared: Prepared, def: Option<Value>)
    ensures KeepsDeletes(sc, SnapshotRow(sc, arm, nk, row, prepared, def))
  {
    hide Publish;
    if prepared.Usable? { PublishKeepsDeletes(sc, RowPublication(nk, row, prepared.value)); }
    if def.Some? { PublishKeepsDeletes(sc, DefaultPublication(nk, def.value, false)); }
  }

  lemma AbsentKeepsDeletes(sc: Scope, arm: Arming, nk: NSKey, fence: FeedFence, def: Value)
    ensures KeepsDeletes(sc, AbsentKey(sc, arm, nk, def))
    ensures KeepsDeletes(sc, AbsentDelete(sc, nk, fence, def))
  {
    hide Publish, Record;
    PublishKeepsDeletes(sc, DefaultPublication(nk, def, false));
    RecordKeepsDeletes(Publish(sc, DefaultPublication(nk, def, false)), nk, true);
  }

  /** The history no delete contradicts, for every re-read, window and cache write there has ever been. */
  predicate Causal(s: Sys) {
    && (forall c :: c in s.counts ==> c.at < s.clock)
    && (forall p :: p in s.puts ==> p.at < s.clock)
    && (forall id :: id in s.rereads ==> FencedByCounts(s, s.rereads[id]))
    && (forall g :: g in s.sc.windows ==> WindowFenced(s, g))
    && (forall p :: p in s.puts ==> Fresh(s, p))
    && (s.worker.Listing? || s.worker.Applying? ==> ListedAfterArming(s))
  }

  /** A re-read's delete fence still holds exactly when it started after every counted delete of its key. */
  predicate FencedByCounts(s: Sys, op: ReRead) {
    && op.startedAt < s.clock
    && op.fence.deletes <= Deletes(s.sc, op.key)
    && (op.fence.deletes == Deletes(s.sc, op.key) <==>
          forall c :: c in s.counts && c.key == op.key ==> c.at < op.startedAt)
  }

  /** A window was armed after every counted delete it does not know of. */
  predicate WindowFenced(s: Sys, g: nat) {
    g in s.armedAt && s.armedAt[g] < s.clock
    && forall c :: c in s.counts && c.key !in WindowOf(s.sc, g).touched ==> c.at < s.armedAt[g]
  }

  /** A row put into the cache after a counted delete was fetched by a store call that began after it. */
  predicate Fresh(s: Sys, p: Put) {
    forall c :: c in s.counts && c.key == p.key && c.at < p.at ==> c.at < p.startedAt
  }

  predicate ListedAfterArming(s: Sys)
    requires s.worker.Listing? || s.worker.Applying?
  {
    s.worker.arm.reconcile in s.armedAt && s.armedAt[s.worker.arm.reconcile] <= s.worker.startedAt
  }

  /** A step that counts nothing, arms nothing and starts nothing. */
  ghost predicate Uneventful(s: Sys, s': Sys) {
    && KeepsDeletes(s.sc, s'.sc)
    && s'.counts == s.counts && s'.armedAt == s.armedAt && s'.clock == s.clock + 1
    && (forall id :: id in s'.rereads ==>
          id in s.rereads && s'.rereads[id] == s.rereads[id].(phase := s'.rereads[id].phase))
    && (s'.worker.Listing? || s'.worker.Applying? ==>
          (s.worker.Listing? || s.worker.Applying?) && s'.worker.arm == s.worker.arm
            && s'.worker.startedAt == s.worker.startedAt)
  }

  lemma UneventfulKeeps(s: Sys, s': Sys)
    requires Causal(s) && Uneventful(s, s')
    requires forall p :: p in s'.puts ==> p in s.puts || (p.at == s.clock && Fresh(s, p))
    ensures Causal(s')
  {
    forall g | g in s'.sc.windows ensures WindowFenced(s', g) { assert WindowFenced(s, g); }
    forall id | id in s'.rereads ensures FencedByCounts(s', s'.rereads[id]) {
      assert FencedByCounts(s, s.rereads[id]);
    }
    forall p | p in s'.puts ensures Fresh(s', p) { assert Fresh(s, p); }
  }

  /** Counting a delete: every re-read in flight is now behind its fence, and every open window knows the key. */
  lemma CountKeeps(s: Sys, s': Sys, nk: NSKey)
    requires Causal(s)
    requires s'.counts == s.counts + {Count(nk, s.clock)} && s'.clock == s.clock + 1
    requires s'.rereads == s.rereads && s'.puts == s.puts && s'.armedAt == s.armedAt && s'.worker == s.worker
    requires forall k :: Deletes(s'.sc, k) == Deletes(s.sc, k) + (if k == nk then 1 else 0)
    requires s'.sc.windows.Keys == s.sc.windows.Keys
    requires forall g :: g in s.sc.windows ==> s'.sc.windows[g].touched == s.sc.windows[g].touched + {nk}
    ensures Causal(s')
  {
    forall g | g in s'.sc.windows ensures WindowFenced(s', g) { assert WindowFenced(s, g); }
    forall id | id in s'.rereads ensures FencedByCounts(s', s'.rereads[id]) {
      assert FencedByCounts(s, s.rereads[id]);
    }
    forall p | p in s'.puts ensures Fresh(s', p) { assert Fresh(s, p); }
  }

  lemma LocalDeleteCounts(sc: Scope, nk: NSKey, def: Value)
    requires !sc.gone
    ensures var sc' := LocalDelete(sc, nk, def);
      && (forall k :: Deletes(sc', k) == Deletes(sc, k) + (if k == nk then 1 else 0))
      && sc'.windows.Keys == sc.windows.Keys
      && (forall g :: g in sc.windows ==> sc'.windows[g].touched == sc.windows[g].touched + {nk})
  {
  }

  lemma WritersKeepCausal(s: Sys, w: WriterAction)
    requires Causal(s) && Enabled(s, Writer(w))
    ensures Causal(Next(s, Writer(w)))
  {
    hide Causal, Publish, Record, Ingest, LocalDelete;
    var s' := Next(s, Writer(w));
    match w
    case SetFence(id) => RecordKeepsDeletes(s.sc, s.sets[id].key, false); UneventfulKeeps(s, s');
    case SetPublish(id, value) =>
      var op := s.sets[id];
      IngestKeepsDeletes(s.sc, op.key, Unarmed, PreparedRow(op.key, op.row, value));
      UneventfulKeeps(s, s');
    case DeletePublish(id) =>
      if s.sc.gone { LocalDeleteGone(s.sc, s.deletes[id], s.defaults[s.deletes[id]]); UneventfulKeeps(s, s'); }
      else { LocalDeleteCounts(s.sc, s.deletes[id], s.defaults[s.deletes[id]]); CountKeeps(s, s', s.deletes[id]); }
    case ForeignWrite(_) => UneventfulKeeps(s, s');
    case SetCommit(_, _, _) => UneventfulKeeps(s, s');
    case DeleteCommit(_, _) => UneventfulKeeps(s, s');
    case Shutdown => UneventfulKeeps(s, s');
  }

  lemma LocalDeleteGone(sc: Scope, nk: NSKey, def: Value)
    requires sc.gone
    ensures LocalDelete(sc, nk, def) == sc
  {
  }

  /** A step that at most forgets windows or re-reads, or starts a re-read now. */
  lemma StartKeeps(s: Sys, f: FeedAction)
    requires Causal(s) && Enabled(s, Feed(f)) && f.Start?
    ensures Causal(Next(s, Feed(f)))
  {
    var s' := Next(s, Feed(f));
    forall id | id in s'.rereads ensures FencedByCounts(s', s'.rereads[id]) {
      if id != f.id { assert FencedByCounts(s, s.rereads[id]); }
    }
    forall g | g in s'.sc.windows ensures WindowFenced(s', g) { assert WindowFenced(s, g); }
    forall p | p in s'.puts ensures Fresh(s', p) { assert Fresh(s, p); }
  }

  lemma FeedDeleteCounts(sc: Scope, nk: NSKey)
    ensures var sc' := FeedDelete(sc, nk);
      && (forall k :: Deletes(sc', k) == Deletes(sc, k) + (if k == nk then 1 else 0))
      && sc'.windows.Keys == sc.windows.Keys
      && (forall g :: g in sc.windows ==> sc'.windows[g].touched == sc.windows[g].touched + {nk})
  {
  }

  /** A re-read the fence lets through is fresh. */
  lemma PublishableIsFresh(s: Sys, id: nat, pub: Option<Publication>)
    requires Causal(s) && id in s.rereads
    requires Publishable(s.sc, s.rereads[id].key, Armed(s.rereads[id].fence), pub)
    ensures Fresh(s, Put(s.rereads[id].key, s.rereads[id].startedAt, s.clock))
  {
    assert FencedByCounts(s, s.rereads[id]);
  }

  lemma IngestRowKeeps(s: Sys, f: FeedAction)
    requires Causal(s) && Enabled(s, Feed(f)) && f.IngestRow?
    ensures Causal(Next(s, Feed(f)))
  {
    hide Causal, Publish, Record, Ingest, Fresh, Publishable, Notifies;
    var op := s.rereads[f.id];
    var pub := PreparedRow(op.key, op.phase.found, f.value);
    IngestKeepsDeletes(s.sc, op.key, Armed(op.fence), pub);
    if Publishable(s.sc, op.key, Armed(op.fence), pub) { PublishableIsFresh(s, f.id, pub); }
    UneventfulKeeps(s, Next(s, Feed(f)));
  }

  lemma UnconfirmedKeepsDeletes(sc: Scope, nk: NSKey, origin: FeedFence)
    ensures KeepsDeletes(sc, RecordUnconfirmed(sc, nk, origin))
  {
  }

  lemma FeedKeepsCausal(s: Sys, f: FeedAction)
    requires Causal(s) && Enabled(s, Feed(f))
    ensures Causal(Next(s, Feed(f)))
  {
    hide Causal, Record, FeedDelete, AbsentDelete, RecordUnconfirmed;
    var s' := Next(s, Feed(f));
    match f
    case DeleteArrives(nk) => FeedDeleteCounts(s.sc, nk); CountKeeps(s, s', nk);
    case Start(_, _, _, _) => StartKeeps(s, f);
    case GetFails(_) => UneventfulKeeps(s, s');
    case GetReturns(_, _) => UneventfulKeeps(s, s');
    case GiveUp(id) =>
      var op := s.rereads[id];
      RecordKeepsDeletes(s.sc, op.key, false);
      UneventfulKeeps(s, s');
    case Concede(id) =>
      var op := s.rereads[id];
      UnconfirmedKeepsDeletes(s.sc, op.key, Armed(op.origin));
      UneventfulKeeps(s, s');
    case Empty(id) =>
      var op := s.rereads[id];
      AbsentKeepsDeletes(s.sc, Arming(0, 0), op.key, Armed(op.fence), s.defaults[op.key]);
      UnconfirmedKeepsDeletes(s.sc, op.key, Armed(op.origin));
      UneventfulKeeps(s, s');
    case FenceRow(id) => RecordKeepsDeletes(s.sc, s.rereads[id].key, false); UneventfulKeeps(s, s');
    case IngestRow(_, _) => IngestRowKeeps(s, f);
  }

  lemma LinkKeepsCausal(s: Sys, l: LinkAction)
    requires Causal(s) && Owned(s) && Enabled(s, Link(l))
    ensures Causal(Next(s, Link(l)))
  {
    var s' := Next(s, Link(l));
    forall id | id in s'.rereads ensures FencedByCounts(s', s'.rereads[id]) { assert FencedByCounts(s, s.rereads[id]); }
    forall g | g in s'.sc.windows ensures WindowFenced(s', g) { assert g in s.sc.windows ==> WindowFenced(s, g); }
    forall p | p in s'.puts ensures Fresh(s', p) { assert Fresh(s, p); }
  }

  /** A photograph row the window lets through is fresh. */
  lemma TakenRowIsFresh(s: Sys, nk: NSKey)
    requires Causal(s) && Owned(s) && s.worker.Applying?
    requires TakesRow(s.sc, s.worker.arm, nk)
    ensures Fresh(s, Put(nk, s.worker.startedAt, s.clock))
  {
    assert WindowFenced(s, s.worker.arm.reconcile);
  }

  lemma WorkerKeepsCausal(s: Sys, k: WorkerAction)
    requires Causal(s) && Owned(s) && Enabled(s, Worker(k))
    ensures Causal(Next(s, Worker(k)))
  {
    hide SnapshotRow, AbsentKey, Notifies, TakesRow, Fresh;
    var s' := Next(s, Worker(k));
    match k
    case ApplyRow(nk, prepared) =>
      SnapshotRowKeepsDeletes(s.sc, s.worker.arm, nk, s.worker.snapshot[nk], prepared, Default(s, nk));
      if TakesRow(s.sc, s.worker.arm, nk) { TakenRowIsFresh(s, nk); }
      UneventfulKeeps(s, s');
    case ApplyAbsent(nk) =>
      AbsentKeepsDeletes(s.sc, s.worker.arm, nk, Unarmed, s.defaults[nk]);
      UneventfulKeeps(s, s');
    case _ => WorkerIdleKeeps(s, k);
  }

  /** The worker moves on without publishing; at most its own window closes. */
  predicate Narrowed(s: Sys, s': Sys) {
    && s'.sc.fences == s.sc.fences && s'.rereads == s.rereads && s'.armedAt == s.armedAt
    && s'.counts == s.counts && s'.puts == s.puts && s'.clock == s.clock + 1
    && (forall g :: g in s'.sc.windows ==> g in s.sc.windows && s'.sc.windows[g] == s.sc.windows[g])
  }

  lemma NarrowedKeeps(s: Sys, s': Sys)
    requires Causal(s) && Narrowed(s, s')
    requires s'.worker.Listing? || s'.worker.Applying? ==> ListedAfterArming(s')
    ensures Causal(s')
  {
    forall id | id in s'.rereads ensures FencedByCounts(s', s'.rereads[id]) { assert FencedByCounts(s, s.rereads[id]); }
    forall g | g in s'.sc.windows ensures WindowFenced(s', g) { assert WindowFenced(s, g); }
    forall p | p in s'.puts ensures Fresh(s', p) { assert Fresh(s, p); }
  }

  lemma PreparingNarrows(s: Sys, k: WorkerAction)
    requires Enabled(s, Worker(k)) && !k.ApplyRow? && !k.ApplyAbsent? && !k.Finish? && !k.CloseOwn?
    ensures Narrowed(s, Next(s, Worker(k)))
  {
    hide WriterStep, FeedStep, LinkStep, WriterEnabled, FeedEnabled, LinkEnabled, RowsAt;
  }

  lemma EndingNarrows(s: Sys, k: WorkerAction)
    requires Enabled(s, Worker(k)) && (k.Finish? || k.CloseOwn?)
    ensures Narrowed(s, Next(s, Worker(k)))
  {
    hide WriterStep, FeedStep, LinkStep, WriterEnabled, FeedEnabled, LinkEnabled;
  }

  lemma WorkerIdleKeeps(s: Sys, k: WorkerAction)
    requires Causal(s) && Owned(s) && Enabled(s, Worker(k)) && !k.ApplyRow? && !k.ApplyAbsent?
    ensures Causal(Next(s, Worker(k)))
  {
    hide Narrowed, FencedByCounts, WindowFenced, Fresh;
    if k.Finish? || k.CloseOwn? { EndingNarrows(s, k); } else { PreparingNarrows(s, k); }
    NarrowedKeeps(s, Next(s, Worker(k)));
  }

  lemma CausalKept(s: Sys, a: Action)
    requires Causal(s) && Owned(s) && Enabled(s, a)
    ensures Causal(Next(s, a))
  {
    hide Causal, Owned;
    match a
    case Writer(w) => WritersKeepCausal(s, w);
    case Feed(f) => FeedKeepsCausal(s, f);
    case Link(l) => LinkKeepsCausal(s, l);
    case Worker(k) => WorkerKeepsCausal(s, k);
  }
}
