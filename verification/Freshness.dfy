/** The stale flag: what had to happen for a scope to report itself confirmed. */
module Freshness {
  import opened Types
  import opened Fence
  import opened Protocol
  import opened Mailbox

  /** Every key of the photograph and every registered key it did not carry is decided, or still listed. */
  predicate Progress(s: Sys) {
    s.worker.Applying? ==>
      s.worker.decided + s.worker.rows + s.worker.absent >= s.worker.snapshot.Keys + s.defaults.Keys
  }

  /**
   A confirmed scope: a reconcile of the newest window, armed on the current connection, decided every
   registered key, and nothing disconnected since it armed.
   */
  predicate Confirmed(s: Sys) {
    && s.confirmed.Some?
    && var c := s.confirmed.value;
       && c.arm == Arming(s.sc.reconcileGen, s.sc.disconnectGen)
       && c.decided >= s.defaults.Keys
       && s.lastDisconnect < c.armedAt < s.clock
       && c.arm.reconcile in s.armedAt && s.armedAt[c.arm.reconcile] == c.armedAt
  }

  predicate Sound(s: Sys) {
    Progress(s) && (!s.sc.stale ==> Confirmed(s))
  }

  /** Neither the flag nor anything it rests on moves. */
  predicate SameEvidence(s: Sys, s': Sys) {
    && s'.sc.stale == s.sc.stale && s'.sc.reconcileGen == s.sc.reconcileGen && s'.sc.disconnectGen == s.sc.disconnectGen
    && s'.confirmed == s.confirmed && s'.armedAt == s.armedAt && s'.lastDisconnect == s.lastDisconnect
    && s'.defaults == s.defaults && s'.clock == s.clock + 1
  }

  lemma WritersLeaveEvidence(s: Sys, w: WriterAction)
    requires Enabled(s, Writer(w))
    ensures SameEvidence(s, Next(s, Writer(w))) && Next(s, Writer(w)).worker == s.worker
  {
  }

  lemma FeedLeavesEvidence(s: Sys, f: FeedAction)
    requires Enabled(s, Feed(f))
    ensures SameEvidence(s, Next(s, Feed(f))) && Next(s, Feed(f)).worker == s.worker
  {
  }

  lemma LinkKeepsSound(s: Sys, l: LinkAction)
    requires Sound(s) && Enabled(s, Link(l))
    ensures Sound(Next(s, Link(l)))
  {
  }

  lemma FinishConfirms(s: Sys)
    requires Sound(s) && Owned(s) && Enabled(s, Worker(Finish))
    ensures Sound(Next(s, Worker(Finish)))
  {
    assert Dated(s, s.worker.arm);
  }

  lemma ApplyingProgresses(s: Sys, k: WorkerAction)
    requires Sound(s) && Enabled(s, Worker(k)) && (k.ApplyRow? || k.ApplyAbsent?)
    ensures SameEvidence(s, Next(s, Worker(k))) && Progress(Next(s, Worker(k)))
  {
    hide SnapshotRow, AbsentKey, TakesRow, Notifies, Confirmed;
  }

  lemma PreparingLeavesEvidence(s: Sys, k: WorkerAction)
    requires Enabled(s, Worker(k)) && !k.ApplyRow? && !k.ApplyAbsent? && !k.Finish?
    ensures SameEvidence(s, Next(s, Worker(k))) && Progress(Next(s, Worker(k)))
  {
    hide WriterStep, FeedStep, LinkStep, WriterEnabled, FeedEnabled, LinkEnabled, RowsAt;
  }

  lemma SameEvidenceKeeps(s: Sys, s': Sys)
    requires Sound(s) && SameEvidence(s, s') && Progress(s')
    ensures Sound(s')
  {
  }

  lemma SoundKept(s: Sys, a: Action)
    requires Sound(s) && Owned(s) && Enabled(s, a)
    ensures Sound(Next(s, a))
  {
    hide Owned, Confirmed, SameEvidence;
    var s' := Next(s, a);
    match a
    case Writer(w) => WritersLeaveEvidence(s, w); SameEvidenceProgress(s, s'); SameEvidenceKeeps(s, s');
    case Feed(f) => FeedLeavesEvidence(s, f); SameEvidenceProgress(s, s'); SameEvidenceKeeps(s, s');
    case Link(l) => LinkKeepsSound(s, l);
    case Worker(k) =>
      if k.Finish? { FinishConfirms(s); }
      else {
        if k.ApplyRow? || k.ApplyAbsent? { ApplyingProgresses(s, k); } else { PreparingLeavesEvidence(s, k); }
        SameEvidenceKeeps(s, s');
      }
  }

  lemma SameEvidenceProgress(s: Sys, s': Sys)
    requires Progress(s) && SameEvidence(s, s') && s'.worker == s.worker
    ensures Progress(s')
  {
  }
}
