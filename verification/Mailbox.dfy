/** The single-slot reconcile mailbox: who owns each window, and what an armed reconcile is promised. */
module Mailbox {
  import opened Types
  import opened Fence
  import opened Protocol

  predicate HasArm(w: WorkerState) { !w.Idle? && !w.Woken? }

  function PendingGen(s: Sys): set<nat> {
    if s.sc.pending.Full? then {s.sc.pending.arm.reconcile} else {}
  }

  function WorkerGen(s: Sys): set<nat> {
    if HasArm(s.worker) then {s.worker.arm.reconcile} else {}
  }

  /** An arming knows the connection it was made on and is dated; a newer disconnect shows. */
  predicate Dated(s: Sys, arm: Arming) {
    && arm.reconcile <= s.sc.reconcileGen
    && arm.disconnect <= s.sc.disconnectGen
    && arm.reconcile in s.armedAt && s.armedAt[arm.reconcile] < s.clock
    && (arm.disconnect == s.sc.disconnectGen <==> s.lastDisconnect < s.armedAt[arm.reconcile])
  }

  /**
   Every open window has exactly one owner (the mailbox, the worker, or the goroutine that displaced it),
   the mailbox holds the newest arming, and a full mailbox always has a wake-up on its way.
   */
  predicate Owned(s: Sys) {
    && s.lastDisconnect < s.clock
    && s.sc.windows.Keys == PendingGen(s) + WorkerGen(s) + s.displaced
    && PendingGen(s) !! WorkerGen(s) !! s.displaced
    && (forall g :: g in s.displaced ==> g <= s.sc.reconcileGen)
    && (s.sc.pending.Full? ==>
          && s.sc.pending.arm.reconcile == s.sc.reconcileGen
          && (s.sc.signal || s.worker.Woken?)
          && Dated(s, s.sc.pending.arm))
    && (HasArm(s.worker) ==> Dated(s, s.worker.arm))
  }

  /** Publications and records leave the mailbox alone. */
  predicate SameMailbox(s: Sys, s': Sys) {
    && s'.sc.windows.Keys == s.sc.windows.Keys && s'.sc.pending == s.sc.pending && s'.sc.signal == s.sc.signal
    && s'.sc.reconcileGen == s.sc.reconcileGen && s'.sc.disconnectGen == s.sc.disconnectGen
    && s'.armedAt == s.armedAt && s'.displaced == s.displaced && s'.lastDisconnect == s.lastDisconnect
    && WorkerGen(s') == WorkerGen(s) && s'.worker.Woken? == s.worker.Woken?
    && (HasArm(s.worker) ==> HasArm(s'.worker) && s'.worker.arm == s.worker.arm)
    && s'.clock == s.clock + 1
  }

  lemma SameMailboxKeeps(s: Sys, s': Sys)
    requires Owned(s) && SameMailbox(s, s')
    ensures Owned(s')
  {
  }

  lemma WritersLeaveMailbox(s: Sys, w: WriterAction)
    requires Enabled(s, Writer(w))
    ensures SameMailbox(s, Next(s, Writer(w)))
  {
  }

  /** What an ingress may touch of the scope: entries, counters, marks, and what open windows know. */
  predicate OnlyIngress(sc: Scope, sc': Scope) {
    && sc'.windows.Keys == sc.windows.Keys && sc'.pending == sc.pending && sc'.signal == sc.signal
    && sc'.reconcileGen == sc.reconcileGen && sc'.disconnectGen == sc.disconnectGen
  }

  lemma IngestIsIngress(sc: Scope, nk: NSKey, fence: FeedFence, pub: Option<Publication>)
    ensures OnlyIngress(sc, Ingest(sc, nk, fence, pub))
  {
    hide Grade, Fenced, Publishable;
  }

  lemma FeedOpsAreIngress(sc: Scope, nk: NSKey, fence: FeedFence, def: Value)
    ensures OnlyIngress(sc, FeedDelete(sc, nk)) && OnlyIngress(sc, AbsentDelete(sc, nk, fence, def))
  {
    hide Grade, Fenced, SupersededByPublication;
  }

  lemma FeedLeavesMailbox(s: Sys, f: FeedAction)
    requires Enabled(s, Feed(f))
    ensures SameMailbox(s, Next(s, Feed(f)))
  {
    hide Publish, Record, Ingest, FeedDelete, AbsentDelete, RecordUnconfirmed, Publishable, Notifies;
    match f
    case DeleteArrives(nk) => FeedOpsAreIngress(s.sc, nk, Unarmed, s.defaults[nk]);
    case GiveUp(id) => var op := s.rereads[id]; RecordIsIngress(s.sc, op.key);
    case Concede(id) => var op := s.rereads[id]; UnconfirmedIsIngress(s.sc, op.key, Armed(op.origin));
    case Empty(id) =>
      var op := s.rereads[id];
      FeedOpsAreIngress(s.sc, op.key, Armed(op.fence), s.defaults[op.key]);
      UnconfirmedIsIngress(s.sc, op.key, Armed(op.origin));
    case FenceRow(id) => RecordIsIngress(s.sc, s.rereads[id].key);
    case IngestRow(id, value) =>
      var op := s.rereads[id];
      IngestIsIngress(s.sc, op.key, Armed(op.fence), PreparedRow(op.key, op.phase.found, value));
    case _ =>
  }

  lemma RecordIsIngress(sc: Scope, nk: NSKey)
    ensures OnlyIngress(sc, Record(sc, nk, false))
  {
  }

  lemma UnconfirmedIsIngress(sc: Scope, nk: NSKey, origin: FeedFence)
    ensures OnlyIngress(sc, RecordUnconfirmed(sc, nk, origin))
  {
  }

  lemma LinkKeepsOwned(s: Sys, l: LinkAction)
    requires Owned(s) && Enabled(s, Link(l))
    ensures Owned(Next(s, Link(l)))
  {
  }

  lemma ApplyingLeavesMailbox(s: Sys, k: WorkerAction)
    requires Enabled(s, Worker(k)) && (k.ApplyRow? || k.ApplyAbsent?)
    ensures SameMailbox(s, Next(s, Worker(k)))
  {
    hide SnapshotRow, AbsentKey;
  }

  lemma WorkerKeepsOwned(s: Sys, k: WorkerAction)
    requires Owned(s) && Enabled(s, Worker(k))
    ensures Owned(Next(s, Worker(k)))
  {
    hide SnapshotRow, AbsentKey;
    if k.ApplyRow? || k.ApplyAbsent? {
      ApplyingLeavesMailbox(s, k);
      SameMailboxKeeps(s, Next(s, Worker(k)));
    }
  }

  lemma OwnedKept(s: Sys, a: Action)
    requires Owned(s) && Enabled(s, a)
    ensures Owned(Next(s, a))
  {
    hide Owned, SameMailbox;
    match a
    case Writer(w) => WritersLeaveMailbox(s, w); SameMailboxKeeps(s, Next(s, a));
    case Feed(f) => FeedLeavesMailbox(s, f); SameMailboxKeeps(s, Next(s, a));
    case Link(l) => LinkKeepsOwned(s, l);
    case Worker(k) => WorkerKeepsOwned(s, k);
  }

  /**
   A reconcile that writes the cache is the newest one ever armed: nothing newer waits in the mailbox, so
   a default at revision 0 from an older photograph can never land.
   */
  lemma OnlyNewestPublishes(s: Sys, k: WorkerAction)
    requires Owned(s) && Enabled(s, Worker(k)) && Next(s, Worker(k)).sc.entries != s.sc.entries
    ensures HasArm(s.worker) && s.worker.arm.reconcile == s.sc.reconcileGen && s.sc.pending.Vacant?
    ensures forall g :: g in s.sc.windows ==> g <= s.worker.arm.reconcile
  {
    hide SnapshotRow, AbsentKey;
  }
}
