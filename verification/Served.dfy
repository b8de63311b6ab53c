/**
 What a caller is served for one key: that there is something to serve, what it says about its origin, and what it
 means that the key does, or does not, report itself stale.
 */
module Served {
  import opened Types
  import opened Fence
  import opened Protocol
  import opened StoreLog
  import opened ReadYourWrites
  import opened Convergence
  import opened OneKey
  import Boundaries
  import Causality
  import Freshness
  import Mailbox
  import Quiet = QuietReconcile
  import Settlement

  // ----- The mark -----

  /** Nobody could say what the key holds, or only a photograph older than the failure could. */
  predicate Marks(e: Event) { e.Spent? || e.RowDoubted? }

  /** Somebody read the key, or agreed with what the cache has. */
  predicate Clears(e: Event) { e.RowLands? || e.DefaultLands? || e.DeleteLands? || e.Agreed? }

  /** The last event that has a say marks the key. */
  predicate LastSays(events: seq<Event>, before: bool) {
    if |events| == 0 then before
    else
      var e := events[|events| - 1];
      Marks(e) || (!Clears(e) && LastSays(events[..|events| - 1], before))
  }

  lemma {:induction false} UndergoAllButLast(k: Key, events: seq<Event>)
    requires |events| > 0
    ensures UndergoAll(k, events) == Undergo(UndergoAll(k, events[..|events| - 1]), events[|events| - 1])
    decreases |events|
  {
    hide Undergo;
    if |events| > 1 {
      var rest := events[1..];
      UndergoAllButLast(Undergo(k, events[0]), rest);
      assert events[..|events| - 1][1..] == rest[..|rest| - 1];
    }
  }

  lemma {:induction false} MarkIsTheLastWord(k: Key, events: seq<Event>)
    ensures UndergoAll(k, events).marked <==> LastSays(events, k.marked)
    decreases |events|
  {
    if |events| > 0 {
      UndergoAllButLast(k, events);
      MarkIsTheLastWord(k, events[..|events| - 1]);
    }
  }

  /**
   What an unconfirmed key means. After any run a key is marked exactly if the last event of the run that had a say
   marked it: a repair that ran out of attempts with nothing landed since its first one, or a photograph's row for a
   key the feed had failed to read; and not a publication, a local Delete, or an absence the cache agrees with.
   */
  lemma {:induction false} MarkedByTheLastWord(s: Sys, run: seq<Action>, nk: NSKey)
    requires Possible(s, run)
    ensures nk in After(s, run).sc.unconfirmed <==> LastSays(Events(s, run, nk), nk in s.sc.unconfirmed)
  {
    EveryRunIsItsEvents(s, run, nk);
    MarkIsTheLastWord(KeyOf(s.sc, nk), Events(s, run, nk));
  }

  predicate NothingClears(events: seq<Event>) { forall i :: 0 <= i < |events| ==> !Clears(events[i]) }

  lemma {:induction false} MarkStays(events: seq<Event>)
    requires NothingClears(events)
    ensures LastSays(events, true)
    decreases |events|
  {
    if |events| > 0 { MarkStays(events[..|events| - 1]); }
  }

  /** A mark outlives every run in which nothing is read, published or agreed with under its key. */
  lemma {:induction false} MarkSurvives(s: Sys, run: seq<Action>, nk: NSKey)
    requires Possible(s, run) && nk in s.sc.unconfirmed && NothingClears(Events(s, run, nk))
    ensures nk in After(s, run).sc.unconfirmed
  {
    MarkedByTheLastWord(s, run, nk);
    MarkStays(Events(s, run, nk));
  }

  /** A photograph's usable row does not answer for a key the feed could not read since: the key is left marked. */
  lemma DoubtedRowLeavesMarked(s: Sys, nk: NSKey, value: Value)
    requires Enabled(s, Worker(ApplyRow(nk, Usable(value)))) && s.worker.arm.reconcile == s.sc.reconcileGen
    requires s.worker.arm.reconcile in s.sc.windows
    requires nk !in s.sc.windows[s.worker.arm.reconcile].touched
    ensures nk in Next(s, Worker(ApplyRow(nk, Usable(value)))).sc.unconfirmed
      <==> nk in s.sc.windows[s.worker.arm.reconcile].unusable || (s.sc.gone && nk in s.sc.unconfirmed)
  {
    hide Next;
    EveryStepIsOneEvent(s, Worker(ApplyRow(nk, Usable(value))), nk);
  }

  // ----- The counters -----

  /** The event moves a counter: a delete is counted, a default lands, or a row wins over the entry in force. */
  predicate Moves(k: Key, e: Event) {
    e.DeleteSeen? || e.DefaultLands? || e.DeleteLands?
    || ((e.RowLands? || e.RowDoubted?) && Wins(k.entry, e.row, e.value))
  }

  predicate NothingMoves(k: Key, events: seq<Event>)
    decreases |events|
  {
    |events| > 0 ==> !Moves(k, events[0]) && NothingMoves(Undergo(k, events[0]), events[1..])
  }

  lemma {:induction false} CountersTell(k: Key, events: seq<Event>)
    ensures UndergoAll(k, events).deletes >= k.deletes && UndergoAll(k, events).publications >= k.publications
    ensures (UndergoAll(k, events).deletes == k.deletes && UndergoAll(k, events).publications == k.publications)
      <==> NothingMoves(k, events)
    decreases |events|
  {
    if |events| > 0 { CountersTell(Undergo(k, events[0]), events[1..]); }
  }

  /** A repair comes to its end without an answer: its attempts are spent, or its second read of an upsert is empty. */
  predicate EndsUnanswered(s: Sys, f: FeedAction) {
    FeedEnabled(s, f) && (f.Concede? || (f.Empty? && !s.rereads[f.id].deleted && s.rereads[f.id].retried))
  }

  /**
   When a spent repair marks its key. A repair whose first attempt armed at `s`, and which ends unanswered after any
   run from there, marks the key exactly if nothing landed on it since and no delete was counted; otherwise it leaves
   the mark as it was.
   */
  lemma {:induction false} SpentRepairMarks(s: Sys, run: seq<Action>, f: FeedAction)
    requires Possible(s, run) && EndsUnanswered(After(s, run), f)
    requires var op := After(s, run).rereads[f.id]; op.origin == FenceFor(s.sc, op.key)
    ensures var end, nk := After(s, run), After(s, run).rereads[f.id].key;
      nk in Next(end, Feed(f)).sc.unconfirmed
      <==> nk in end.sc.unconfirmed || NothingMoves(KeyOf(s.sc, nk), Events(s, run, nk))
  {
    hide Next;
    var end, nk := After(s, run), After(s, run).rereads[f.id].key;
    EveryRunIsItsEvents(s, run, nk);
    CountersTell(KeyOf(s.sc, nk), Events(s, run, nk));
    EveryStepIsOneEvent(end, Feed(f), nk);
  }

  // ----- What an entry says about its origin -----

  /** A registered default: no row behind it, so no revision, no bytes and nobody's name. */
  predicate Bare(e: Entry, def: Value) { e == Entry(def, [], 0, 0, "") }

  /** The entry carries a row's revision, bytes and provenance. */
  predicate CarriesRow(e: Entry, row: Row) {
    e.revision == row.revision && e.raw == row.raw && e.updatedAt == row.updatedAt && e.updatedBy == row.updatedBy
  }

  predicate FromTheStore(log: seq<StoreOp>, nk: NSKey, e: Entry) {
    exists i :: 0 <= i < |log| && log[i].Write? && log[i].key == nk && CarriesRow(e, log[i].row)
  }

  predicate AllBytes(log: seq<StoreOp>, nk: NSKey) {
    forall i :: 0 <= i < |log| && log[i].Write? && log[i].key == nk ==> |log[i].row.raw| > 0
  }

  predicate Originates(s: Sys, nk: NSKey) {
    nk in s.sc.entries && AllBytes(s.log, nk) ==>
      (nk in s.defaults && Bare(s.sc.entries[nk], s.defaults[nk])) || FromTheStore(s.log, nk, s.sc.entries[nk])
  }

  predicate RowLogged(log: seq<StoreOp>, nk: NSKey, row: Row) {
    exists i :: 0 <= i < |log| && log[i] == Write(nk, row)
  }

  lemma EventRowIsLogged(s: Sys, a: Action, nk: NSKey)
    requires Kept(s) && Enabled(s, a)
    ensures var e := EventOf(s, a, nk); e.RowLands? || e.RowDoubted? ==> RowLogged(s.log, nk, e.row)
    ensures EventOf(s, a, nk).DefaultLands? || EventOf(s, a, nk).DeleteLands? ==>
      nk in s.defaults && EventOf(s, a, nk).value == s.defaults[nk]
  {
    hide Rows, PromiseKept, Backed, Written;
    var e := EventOf(s, a, nk);
    if e.RowLands? || e.RowDoubted? {
      if a.Writer? {
        assert SetLogged(s.log, s.sets[a.w.id]);
      } else if a.Feed? {
        assert ReReadHonest(s, s.rereads[a.f.id]);
        var j := RowWasWritten(s.log, s.rereads[a.f.id].phase.readAt, nk);
      } else {
        var j := RowWasWritten(s.log, s.worker.at, nk);
      }
    }
  }

  lemma OriginKept(s: Sys, a: Action, nk: NSKey)
    requires Kept(s) && Enabled(s, a) && Originates(s, nk)
    ensures Originates(Next(s, a), nk)
  {
    hide Next, Kept, EventOf, Enabled, Wins;
    var s', e := Next(s, a), EventOf(s, a, nk);
    EveryStepIsOneEvent(s, a, nk);
    EventRowIsLogged(s, a, nk);
    StoreOnlyGrows(s, a);
    if nk in s'.sc.entries && AllBytes(s'.log, nk) {
      assert AllBytes(s.log, nk) by { FewerBytes(s.log, s'.log, nk); }
      if nk in s.sc.entries && FromTheStore(s.log, nk, s.sc.entries[nk]) {
        StillFromTheStore(s.log, s'.log, nk, s.sc.entries[nk]);
      }
      if e.RowLands? || e.RowDoubted? { LoggedRowLands(s, s', nk, e.row, e.value); }
    }
  }

  lemma WriterOnlyGrows(s: Sys, w: WriterAction)
    requires WriterEnabled(s, w)
    ensures WriterStep(s, w).defaults == s.defaults && s.log <= WriterStep(s, w).log
  {
    hide Record, Ingest, LocalDelete, Promises;
  }

  lemma StoreOnlyGrows(s: Sys, a: Action)
    requires Enabled(s, a)
    ensures |s.log| <= |Next(s, a).log| && Next(s, a).log[..|s.log|] == s.log && Next(s, a).defaults == s.defaults
  {
    hide WriterStep, FeedStep, LinkStep, WorkerStep, WriterEnabled, FeedEnabled, LinkEnabled, WorkerEnabled;
    match a
    case Writer(w) => WriterOnlyGrows(s, w);
    case Feed(f) => Boundaries.FeedOwesNothing(s, f);
    case Link(l) => Boundaries.ReconcileOwesNothing(s, l, Wake);
    case Worker(k) => Boundaries.ReconcileOwesNothing(s, Resync, k);
  }

  lemma FewerBytes(log: seq<StoreOp>, more: seq<StoreOp>, nk: NSKey)
    requires |log| <= |more| && more[..|log|] == log && AllBytes(more, nk)
    ensures AllBytes(log, nk)
  {
    forall i | 0 <= i < |log| && log[i].Write? && log[i].key == nk ensures |log[i].row.raw| > 0 {
      assert more[i] == log[i];
    }
  }

  lemma StillFromTheStore(log: seq<StoreOp>, more: seq<StoreOp>, nk: NSKey, e: Entry)
    requires |log| <= |more| && more[..|log|] == log && FromTheStore(log, nk, e)
    ensures FromTheStore(more, nk, e)
  {
    var i :| 0 <= i < |log| && log[i].Write? && log[i].key == nk && CarriesRow(e, log[i].row);
    assert more[i] == log[i];
  }

  /** A row that reaches the fence leaves itself, or what was in force. */
  lemma LoggedRowLands(s: Sys, s': Sys, nk: NSKey, row: Row, value: Value)
    requires RowLogged(s.log, nk, row) && AllBytes(s.log, nk)
    requires |s.log| <= |s'.log| && s'.log[..|s.log|] == s.log && s'.defaults == s.defaults && nk in s'.sc.entries
    requires KeyOf(s'.sc, nk).entry == TakeRow(KeyOf(s.sc, nk), row, value).entry
    ensures (nk in s.sc.entries && s'.sc.entries[nk] == s.sc.entries[nk]) || FromTheStore(s'.log, nk, s'.sc.entries[nk])
  {
    var i :| 0 <= i < |s.log| && s.log[i] == Write(nk, row);
    assert s'.log[i] == s.log[i];
  }

  lemma {:induction false} RunKeepsOrigin(s: Sys, run: seq<Action>, nk: NSKey)
    requires Inv(s) && Possible(s, run) && Originates(s, nk)
    ensures Originates(After(s, run), nk)
    decreases |run|
  {
    hide Originates, Next, Enabled, Mailbox.Owned, Causality.Causal, Kept, Freshness.Sound;
    if |run| > 0 {
      OriginKept(s, run[0], nk);
      InvKept(s, run[0]);
      RunKeepsOrigin(Next(s, run[0]), run[1..], nk);
    }
  }

  /**
   What an entry says is true of one row. In every reachable state a cached entry is the registered default, bare, or
   carries the revision, the bytes, the time and the author of one and the same row the store wrote for its key.
   */
  lemma EntriesTellTheirOrigin(s: Sys, nk: NSKey)
    requires Reachable(s) && nk in s.sc.entries && AllBytes(s.log, nk)
    ensures (nk in s.defaults && Bare(s.sc.entries[nk], s.defaults[nk])) || FromTheStore(s.log, nk, s.sc.entries[nk])
  {
    hide Next, Enabled, Inv;
    var defaults: map<NSKey, Value>, run: seq<Action> :|
      Possible(Init(defaults), run) && After(Init(defaults), run) == s;
    InitInv(defaults);
    RunKeepsOrigin(Init(defaults), run, nk);
  }

  // ----- That there is something to serve -----

  /** A delete of the key was counted at that moment or later. */
  predicate CountedFrom(s: Sys, nk: NSKey, at: nat) {
    exists c :: c in s.counts && c.key == nk && c.at >= at
  }

  /** A window that has an answer for a key has put it in the cache, or has heard of a delete. */
  predicate AnswersShow(s: Sys, nk: NSKey) {
    forall g :: g in s.sc.windows && nk in s.sc.windows[g].touched ==>
      nk in s.sc.entries || (g in s.armedAt && CountedFrom(s, nk, s.armedAt[g]))
  }

  /** A key the reconcile has gone over is in the cache, or its window had an answer. */
  predicate GoneOverShows(s: Sys, nk: NSKey) {
    s.worker.Applying? && nk in s.worker.decided && nk in s.defaults && !s.sc.gone ==>
      nk in s.sc.entries || Answered(s, nk)
  }

  /** And when the scope is confirmed, the key is in the cache, or a delete of it was counted since. */
  predicate ConfirmedShows(s: Sys, nk: NSKey) {
    !s.sc.stale && nk in s.defaults && !s.sc.gone ==>
      nk in s.sc.entries || (s.confirmed.Some? && CountedFrom(s, nk, s.confirmed.value.armedAt))
  }

  predicate Shows(s: Sys, nk: NSKey) { AnswersShow(s, nk) && GoneOverShows(s, nk) && ConfirmedShows(s, nk) }

  lemma EntriesStay(s: Sys, a: Action, nk: NSKey)
    requires Enabled(s, a)
    ensures nk in s.sc.entries ==> nk in Next(s, a).sc.entries
    ensures (var e := EventOf(s, a, nk); e.RowLands? || e.RowDoubted? || e.DefaultLands? || e.DeleteLands?) ==>
      nk in Next(s, a).sc.entries
  {
    hide Next, EventOf, Enabled;
    EveryStepIsOneEvent(s, a, nk);
  }

  /** Whoever answers an open window publishes, or counts a delete. */
  lemma AnswersPublishOrCount(s: Sys, a: Action, nk: NSKey)
    requires Enabled(s, a) && OutcomeOf(s, a, nk).Answer?
    ensures var e := EventOf(s, a, nk); e.RowLands? || e.DefaultLands? || e.DeleteLands? || a == Feed(DeleteArrives(nk))
  {
  }

  lemma CountedStays(s: Sys, a: Action, nk: NSKey, at: nat)
    requires Enabled(s, a) && CountedFrom(s, nk, at)
    ensures CountedFrom(Next(s, a), nk, at)
  {
    hide Next, Enabled;
    CountsStand(s, a);
  }

  lemma AnswersKept(s: Sys, a: Action, nk: NSKey)
    requires Inv(s) && Enabled(s, a) && AnswersShow(s, nk)
    ensures AnswersShow(Next(s, a), nk)
  {
    hide Next, Enabled, EventOf, OutcomeOf, CountedFrom, Mailbox.Owned, Kept, Freshness.Sound, Causality.Causal,
      CountsDelete;
    var s' := Next(s, a);
    EveryWindowHears(s, a, nk);
    NewWindowIsArmed(s, a);
    EntriesStay(s, a, nk);
    ArmedAtStays(s, a);
    if a == Feed(DeleteArrives(nk)) { CountedHere(s, a, nk); }
    forall g | g in s'.sc.windows && nk in s'.sc.windows[g].touched && nk !in s'.sc.entries
      ensures g in s'.armedAt && CountedFrom(s', nk, s'.armedAt[g])
    {
      if g in s.sc.windows {
        assert HeardIn(s'.sc.windows[g], nk) == Hear(HeardIn(s.sc.windows[g], nk), OutcomeOf(s, a, nk));
        if OutcomeOf(s, a, nk).Answer? { AnswersPublishOrCount(s, a, nk); }
        else { CountedStays(s, a, nk, s.armedAt[g]); }
      }
    }
  }

  lemma NewWindowIsArmed(s: Sys, a: Action)
    requires Enabled(s, a)
    ensures forall g :: g in Next(s, a).sc.windows && g !in s.sc.windows ==>
      a == Link(Resync) && g == Next(s, a).sc.reconcileGen
      && g in Next(s, a).armedAt && Next(s, a).armedAt[g] == s.clock
  {
    hide Mailbox.SameMailbox, WriterStep, FeedStep, LinkStep, WorkerStep, WriterEnabled, FeedEnabled, LinkEnabled,
      WorkerEnabled;
    match a
    case Writer(w) => Mailbox.WritersLeaveMailbox(s, w); SameMailboxSays(s, Next(s, a));
    case Feed(f) => Mailbox.FeedLeavesMailbox(s, f); SameMailboxSays(s, Next(s, a));
    case Link(l) => LinkOpensOne(s, l);
    case Worker(k) => WorkerOpensNothing(s, k);
  }

  lemma LinkOpensOne(s: Sys, l: LinkAction)
    requires LinkEnabled(s, l)
    ensures forall g :: g in LinkStep(s, l).sc.windows && g !in s.sc.windows ==>
      l.Resync? && g == LinkStep(s, l).sc.reconcileGen
    ensures forall g :: g in s.armedAt && g <= s.sc.reconcileGen ==>
      g in LinkStep(s, l).armedAt && LinkStep(s, l).armedAt[g] == s.armedAt[g]
    ensures l.Resync? ==>
      LinkStep(s, l).sc.reconcileGen in LinkStep(s, l).armedAt
      && LinkStep(s, l).armedAt[LinkStep(s, l).sc.reconcileGen] == s.clock
  {
  }

  lemma WorkerOpensNothing(s: Sys, k: WorkerAction)
    requires WorkerEnabled(s, k)
    ensures WorkerStep(s, k).sc.windows.Keys <= s.sc.windows.Keys && WorkerStep(s, k).armedAt == s.armedAt
  {
    hide SnapshotRow, AbsentKey, RowsAt, Notifies, TakesRow;
  }

  /** Arming dates stay, and every open window of a reachable state has one, before the present. */
  lemma ArmedAtStays(s: Sys, a: Action)
    requires Inv(s) && Enabled(s, a)
    ensures forall g :: g in s.sc.windows ==>
      g in s.armedAt && s.armedAt[g] < s.clock && g in Next(s, a).armedAt && Next(s, a).armedAt[g] == s.armedAt[g]
  {
    hide Mailbox.SameMailbox, WriterStep, FeedStep, LinkStep, WorkerStep, WriterEnabled, FeedEnabled, LinkEnabled,
      WorkerEnabled, Kept, Freshness.Sound;
    forall g | g in s.sc.windows ensures g in s.armedAt && s.armedAt[g] < s.clock && g <= s.sc.reconcileGen {
      assert Causality.WindowFenced(s, g);
    }
    match a
    case Writer(w) => Mailbox.WritersLeaveMailbox(s, w); SameArmings(s, Next(s, a));
    case Feed(f) => Mailbox.FeedLeavesMailbox(s, f); SameArmings(s, Next(s, a));
    case Link(l) => LinkOpensOne(s, l);
    case Worker(k) => WorkerOpensNothing(s, k);
  }

  lemma SameArmings(s: Sys, s': Sys)
    requires Mailbox.SameMailbox(s, s')
    ensures s'.armedAt == s.armedAt
  {
  }

  lemma CountedHere(s: Sys, a: Action, nk: NSKey)
    requires Enabled(s, a) && a == Feed(DeleteArrives(nk))
    ensures forall at: nat :: at <= s.clock ==> CountedFrom(Next(s, a), nk, at)
  {
    DeletesAreCounted(s, a, nk);
  }

  // ----- And is still there when the scope is confirmed -----

  lemma IngressShows(s: Sys, a: Action, nk: NSKey)
    requires Inv(s) && Enabled(s, a) && (a.Writer? || a.Feed?) && GoneOverShows(s, nk) && ConfirmedShows(s, nk)
    ensures GoneOverShows(Next(s, a), nk) && ConfirmedShows(Next(s, a), nk)
  {
    hide Next, Enabled, EventOf, OutcomeOf, CountedFrom, Mailbox.Owned, Kept, Freshness.Sound, Causality.Causal,
      Freshness.SameEvidence;
    var s' := Next(s, a);
    EntriesStay(s, a, nk);
    EveryWindowHears(s, a, nk);
    IngressKeepsStage(s, a);
    if s.confirmed.Some? && CountedFrom(s, nk, s.confirmed.value.armedAt) {
      CountedStays(s, a, nk, s.confirmed.value.armedAt);
    }
    if s.worker.Applying? && s.worker.arm.reconcile in s.sc.windows {
      assert HeardIn(s'.sc.windows[s.worker.arm.reconcile], nk)
        == Hear(HeardIn(s.sc.windows[s.worker.arm.reconcile], nk), OutcomeOf(s, a, nk));
    }
  }

  lemma IngressKeepsStage(s: Sys, a: Action)
    requires Enabled(s, a) && (a.Writer? || a.Feed?)
    ensures Next(s, a).worker == s.worker && Next(s, a).sc.stale == s.sc.stale && Next(s, a).confirmed == s.confirmed
    ensures Next(s, a).defaults == s.defaults && Next(s, a).sc.windows.Keys == s.sc.windows.Keys
    ensures s.sc.gone ==> Next(s, a).sc.gone
  {
    hide Mailbox.SameMailbox, WriterStep, FeedStep, LinkStep, WorkerStep, WriterEnabled, FeedEnabled, LinkEnabled,
      WorkerEnabled;
    StoreOnlyGrows(s, a);
    if s.sc.gone { Settlement.GoneStays(s, a); }
    if a.Writer? {
      Freshness.WritersLeaveEvidence(s, a.w);
      Mailbox.WritersLeaveMailbox(s, a.w);
    } else {
      Freshness.FeedLeavesEvidence(s, a.f);
      Mailbox.FeedLeavesMailbox(s, a.f);
    }
    SameMailboxSays(s, Next(s, a));
  }

  lemma LinkShows(s: Sys, l: LinkAction, nk: NSKey)
    requires Mailbox.Owned(s) && Enabled(s, Link(l)) && GoneOverShows(s, nk) && ConfirmedShows(s, nk)
    ensures GoneOverShows(Next(s, Link(l)), nk) && ConfirmedShows(Next(s, Link(l)), nk)
  {
    hide CountedFrom;
    CountedElsewhere(s, Next(s, Link(l)), nk);
  }

  lemma CountedElsewhere(s: Sys, s': Sys, nk: NSKey)
    requires s'.counts == s.counts
    ensures forall at: nat :: CountedFrom(s', nk, at) == CountedFrom(s, nk, at)
  {
  }

  lemma WorkerCountsNothing(s: Sys, k: WorkerAction)
    requires WorkerEnabled(s, k)
    ensures WorkerStep(s, k).counts == s.counts && WorkerStep(s, k).sc.gone == s.sc.gone
    ensures WorkerStep(s, k).defaults == s.defaults
  {
    hide SnapshotRow, AbsentKey, RowsAt, Notifies, TakesRow;
  }

  /** The reconcile goes over one key: it is cached, or was answered, or is none of the consumer's. */
  lemma GoesOver(s: Sys, k: WorkerAction, nk: NSKey)
    requires WorkerEnabled(s, k) && (k.ApplyRow? || k.ApplyAbsent?) && GoneOverShows(s, nk)
    ensures GoneOverShows(Next(s, Worker(k)), nk)
    ensures ConfirmedShows(s, nk) ==> ConfirmedShows(Next(s, Worker(k)), nk)
  {
    hide SnapshotRow, AbsentKey, RowsAt, Notifies, TakesRow, CountedFrom, Undergo;
    EntriesStay(s, Worker(k), nk);
    CountedElsewhere(s, Next(s, Worker(k)), nk);
  }

  lemma FinishShows(s: Sys, nk: NSKey)
    requires Inv(s) && Enabled(s, Worker(Finish)) && Shows(s, nk)
    ensures ConfirmedShows(Next(s, Worker(Finish)), nk)
  {
    hide CountedFrom, Mailbox.Owned, Kept, Causality.Causal, Freshness.Sound;
    CountedElsewhere(s, Next(s, Worker(Finish)), nk);
    Quiet.EverythingIsDecided(s);
  }

  lemma WorkerShows(s: Sys, k: WorkerAction, nk: NSKey)
    requires Inv(s) && Enabled(s, Worker(k)) && Shows(s, nk)
    ensures GoneOverShows(Next(s, Worker(k)), nk) && ConfirmedShows(Next(s, Worker(k)), nk)
  {
    hide CountedFrom, AnswersShow, Mailbox.Owned, Kept, Causality.Causal, Freshness.Sound, SnapshotRow, AbsentKey,
      RowsAt;
    if k.ApplyRow? || k.ApplyAbsent? { GoesOver(s, k, nk); }
    else if k.Finish? { FinishShows(s, nk); }
    else { CountedElsewhere(s, Next(s, Worker(k)), nk); }
  }

  lemma ShowsKept(s: Sys, a: Action, nk: NSKey)
    requires Inv(s) && Enabled(s, a) && Shows(s, nk)
    ensures Shows(Next(s, a), nk)
  {
    hide Inv, Next, AnswersShow, GoneOverShows, ConfirmedShows;
    AnswersKept(s, a, nk);
    match a
    case Writer(_) => IngressShows(s, a, nk);
    case Feed(_) => IngressShows(s, a, nk);
    case Link(l) => InvOwns(s); LinkShows(s, l, nk);
    case Worker(k) => WorkerShows(s, k, nk);
  }

  lemma InvOwns(s: Sys)
    requires Inv(s)
    ensures Mailbox.Owned(s)
  {
  }

  lemma {:induction false} RunKeepsShows(s: Sys, run: seq<Action>, nk: NSKey)
    requires Inv(s) && Possible(s, run) && Shows(s, nk)
    ensures Inv(After(s, run)) && Shows(After(s, run), nk)
    decreases |run|
  {
    hide Inv, Shows, Next, Enabled;
    if |run| > 0 {
      ShowsKept(s, run[0], nk);
      InvKept(s, run[0]);
      RunKeepsShows(Next(s, run[0]), run[1..], nk);
    }
  }

  lemma ReachableShows(s: Sys, nk: NSKey)
    requires Reachable(s)
    ensures Inv(s) && Shows(s, nk)
  {
    hide Next, Enabled, Inv;
    var defaults: map<NSKey, Value>, run: seq<Action> :|
      Possible(Init(defaults), run) && After(Init(defaults), run) == s;
    InitInv(defaults);
    RunKeepsShows(Init(defaults), run, nk);
  }

  /**
   A registered key is always there to be served. When a reconcile of an open scope can finish, every registered key
   is in the cache, or its window was answered for it; and in every reachable state of an open scope that does not
   report itself stale, it is in the cache, or a delete of it has been counted since the confirming resync.
   */
  lemma EveryRegisteredKeyIsServed(s: Sys, nk: NSKey)
    requires Reachable(s) && !s.sc.gone && nk in s.defaults
    ensures Enabled(s, Worker(Finish)) ==>
      nk in s.sc.entries || (s.worker.arm.reconcile in s.sc.windows
                             && nk in s.sc.windows[s.worker.arm.reconcile].touched)
    ensures !s.sc.stale ==>
      nk in s.sc.entries
      || (s.confirmed.Some? && exists c :: c in s.counts && c.key == nk && c.at >= s.confirmed.value.armedAt)
  {
    hide Inv, Kept;
    ReachableShows(s, nk);
    if Enabled(s, Worker(Finish)) { Quiet.EverythingIsDecided(s); }
  }

  /**
   What Lookup's two answers mean, in every reachable state. The key reports itself stale exactly if the scope does or
   the last event that had a say about the key marked it. A registered key of an open scope that does not report
   itself stale was decided by a reconcile armed on the current connection, and has an entry to serve unless a delete
   of it was counted since that arming.
   */
  lemma {:induction false} LookupIsHonest(defaults: map<NSKey, Value>, run: seq<Action>, nk: NSKey)
    requires Possible(Init(defaults), run)
    ensures var s := After(Init(defaults), run);
      Lookup(s.sc, nk).stale <==> s.sc.stale || LastSays(Events(Init(defaults), run, nk), false)
    ensures var s := After(Init(defaults), run);
      !Lookup(s.sc, nk).stale && !s.sc.gone && nk in s.defaults ==>
        && s.confirmed.Some? && nk in s.confirmed.value.decided && s.lastDisconnect < s.confirmed.value.armedAt
        && (Lookup(s.sc, nk).entry.Some?
            || exists c :: c in s.counts && c.key == nk && c.at >= s.confirmed.value.armedAt)
  {
    hide Next, Enabled;
    var s := After(Init(defaults), run);
    assert Reachable(s);
    MarkedByTheLastWord(Init(defaults), run, nk);
    if !s.sc.stale {
      StaleIsSound(s);
      if !s.sc.gone && nk in s.defaults { EveryRegisteredKeyIsServed(s, nk); }
    }
  }
}
