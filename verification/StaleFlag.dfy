/** When a scope reports itself stale: the flag and the mailbox as the connection and the reconciles move them. */
module StaleFlag {
  import opened Types
  import opened Fence
  import opened Protocol
  import opened Mailbox
  import Causality
  import Convergence
  import Freshness
  import ReadYourWrites

  /** What a scope holds about its connection, all keys aside. */
  datatype Flag = Flag(stale: bool, resyncs: nat, outages: nat, waiting: Slot, signal: bool)

  function FlagOf(sc: Scope): Flag { Flag(sc.stale, sc.reconcileGen, sc.disconnectGen, sc.pending, sc.signal) }

  function Moved(s: Sys, a: Action, f: Flag): Flag
    requires Enabled(s, a)
  {
    match a
    case Link(Resync) => Flag(true, f.resyncs + 1, f.outages, Full(Arming(f.resyncs + 1, f.outages)), true)
    case Link(Disconnect) => Flag(true, f.resyncs, f.outages + 1, f.waiting, f.signal)
    case Link(ShutdownTake) => f.(waiting := Vacant)
    case Worker(Wake) => f.(signal := false)
    case Worker(Take) => f.(waiting := Vacant)
    case Worker(Finish) =>
      if s.worker.arm.reconcile == f.resyncs && s.worker.arm.disconnect == f.outages then f.(stale := false) else f
    case _ => f
  }

  lemma IngressLeavesFlag(s: Sys, a: Action)
    requires Enabled(s, a) && (a.Writer? || a.Feed?)
    ensures FlagOf(Next(s, a).sc) == FlagOf(s.sc)
  {
    hide Next, Enabled;
    if a.Writer? {
      WritersLeaveMailbox(s, a.w);
      Freshness.WritersLeaveEvidence(s, a.w);
    } else {
      FeedLeavesMailbox(s, a.f);
      Freshness.FeedLeavesEvidence(s, a.f);
    }
  }

  lemma LinkMovesFlag(s: Sys, l: LinkAction)
    requires LinkEnabled(s, l)
    ensures FlagOf(LinkStep(s, l).sc) == Moved(s, Link(l), FlagOf(s.sc))
  {
  }

  lemma WorkerMovesFlag(s: Sys, k: WorkerAction)
    requires WorkerEnabled(s, k)
    ensures FlagOf(WorkerStep(s, k).sc) == Moved(s, Worker(k), FlagOf(s.sc))
  {
    hide SnapshotRow, AbsentKey, RowsAt, Notifies, TakesRow;
  }

  /** Nothing but the connection and the reconcile worker moves the flag or the mailbox, and each as it says. */
  lemma EveryStepMovesTheFlag(s: Sys, a: Action)
    requires Enabled(s, a)
    ensures FlagOf(Next(s, a).sc) == Moved(s, a, FlagOf(s.sc))
  {
    hide FlagOf, WriterStep, FeedStep, LinkStep, WorkerStep, WriterEnabled, FeedEnabled, LinkEnabled, WorkerEnabled;
    match a
    case Writer(_) => IngressLeavesFlag(s, a);
    case Feed(_) => IngressLeavesFlag(s, a);
    case Link(l) => LinkMovesFlag(s, l);
    case Worker(k) => WorkerMovesFlag(s, k);
  }

  // ----- Over runs -----

  datatype Word = Doubts | Confirms | Silent

  /** A resync and a disconnect raise the flag; a reconcile of the newest resync, on its own connection, clears it. */
  function WordOf(s: Sys, a: Action): Word
    requires Enabled(s, a)
  {
    if a == Link(Resync) || a == Link(Disconnect) then Doubts
    else if a == Worker(Finish) && s.worker.arm == Arming(s.sc.reconcileGen, s.sc.disconnectGen) then Confirms
    else Silent
  }

  ghost function Words(s: Sys, run: seq<Action>): seq<Word>
    requires Possible(s, run)
    decreases |run|
  {
    if |run| == 0 then [] else [WordOf(s, run[0])] + Words(Next(s, run[0]), run[1..])
  }

  /** The last word raised the flag. */
  predicate InDoubt(words: seq<Word>, before: bool) {
    if |words| == 0 then before
    else if words[|words| - 1].Silent? then InDoubt(words[..|words| - 1], before)
    else words[|words| - 1].Doubts?
  }

  lemma {:induction false} FirstWord(w: Word, rest: seq<Word>, before: bool)
    ensures InDoubt([w] + rest, before) <==> InDoubt(rest, if w.Silent? then before else w.Doubts?)
    decreases |rest|
  {
    if |rest| == 0 {
      assert ([w] + rest)[..0] == [];
    } else {
      FirstWord(w, rest[..|rest| - 1], before);
      assert ([w] + rest)[..|rest|] == [w] + rest[..|rest| - 1];
    }
  }

  function Count(run: seq<Action>, a: Action): nat {
    if |run| == 0 then 0 else (if run[0] == a then 1 else 0) + Count(run[1..], a)
  }

  lemma {:induction false} RunMovesTheFlag(s: Sys, run: seq<Action>)
    requires Possible(s, run)
    ensures After(s, run).sc.stale <==> InDoubt(Words(s, run), s.sc.stale)
    ensures After(s, run).sc.reconcileGen == s.sc.reconcileGen + Count(run, Link(Resync))
    ensures After(s, run).sc.disconnectGen == s.sc.disconnectGen + Count(run, Link(Disconnect))
    decreases |run|
  {
    hide Next, Enabled;
    if |run| > 0 {
      var s1 := Next(s, run[0]);
      EveryStepMovesTheFlag(s, run[0]);
      RunMovesTheFlag(s1, run[1..]);
      FirstWord(WordOf(s, run[0]), Words(s1, run[1..]), s.sc.stale);
      FlagSaysTheWord(s, run[0]);
    }
  }

  lemma FlagSaysTheWord(s: Sys, a: Action)
    requires Enabled(s, a)
    ensures var f, f', w := FlagOf(s.sc), Moved(s, a, FlagOf(s.sc)), WordOf(s, a);
      && (f'.stale <==> if w.Silent? then f.stale else w.Doubts?)
      && f'.resyncs == f.resyncs + (if a == Link(Resync) then 1 else 0)
      && f'.outages == f.outages + (if a == Link(Disconnect) then 1 else 0)
  {
  }

  /**
   What stale means, in every run: the last word about the scope was a resync or a disconnect, or there was none yet.
   A generation is the number of resyncs there were, and of disconnects.
   */
  lemma {:induction false} StaleIsTheLastWord(defaults: map<NSKey, Value>, run: seq<Action>)
    requires Possible(Init(defaults), run)
    ensures After(Init(defaults), run).sc.stale <==> InDoubt(Words(Init(defaults), run), true)
    ensures After(Init(defaults), run).sc.reconcileGen == Count(run, Link(Resync))
    ensures After(Init(defaults), run).sc.disconnectGen == Count(run, Link(Disconnect))
  {
    hide Next, Enabled;
    RunMovesTheFlag(Init(defaults), run);
  }

  /**
   When a reconcile confirms its scope: in every reachable state one that finishes leaves the scope fresh if and only
   if it was fresh already, or no resync has come since the one that armed it and nothing disconnected since then.
   */
  lemma ReconcileConfirmsExactly(s: Sys)
    requires Convergence.Reachable(s) && Enabled(s, Worker(Finish))
    ensures s.worker.arm.reconcile in s.armedAt
    ensures !Next(s, Worker(Finish)).sc.stale
      <==> !s.sc.stale
           || (s.worker.arm.reconcile == s.sc.reconcileGen && s.lastDisconnect < s.armedAt[s.worker.arm.reconcile])
  {
    hide Next, Causality.Causal, ReadYourWrites.Kept, Freshness.Sound;
    Convergence.ReachableInv(s);
    EveryStepMovesTheFlag(s, Worker(Finish));
    assert Dated(s, s.worker.arm);
  }
}
