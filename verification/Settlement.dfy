/**
 When the cache agrees with the store: how much of the store's log a key's decisions reflect, and why a key whose
 last write is reflected stays with the store unless something late lands on it.
 */
module Settlement {
  import opened Types
  import opened Fence
  import opened Protocol
  import opened StoreLog
  import opened ReadYourWrites
  import opened Convergence
  import opened Boundaries
  import Causality
  import Freshness
  import Mailbox
  import Quiet = QuietReconcile

  // ----- Decisions -----

  /** What a step concludes about a key, and the point of the store's log it concludes it from. */
  datatype Decision = Silent | OnRow(at: nat, row: Row) | OnAbsence(at: nat)

  /** History of one key, for the theorems only. */
  datatype Trail = Trail(
    settled: nat,                // the newest point a decision reflected
    answered: nat,               // the newest point a finished re-read had been armed at
    removals: map<nat, nat>,     // where the local Deletes still to be published stand in the log
    skipped: bool,               // the last reconcile to go over the key decided nothing about it
    listed: nat)                 // the point of the photograph that last confirmed the scope

  const NoTrail := Trail(0, 0, map[], false, 0)

  function WriterDecides(s: Sys, t: Trail, w: WriterAction, nk: NSKey): Decision
    requires WriterEnabled(s, w)
  {
    match w
    case SetPublish(id, value) =>
      var op := s.sets[id];
      if op.key == nk && value.Some? && !s.sc.gone then OnRow(op.commit, op.row) else Silent
    case DeletePublish(id) =>
      if s.deletes[id] == nk && !s.sc.gone && id in t.removals then OnAbsence(t.removals[id]) else Silent
    case _ => Silent
  }

  function FeedDecides(s: Sys, f: FeedAction, nk: NSKey): Decision
    requires FeedEnabled(s, f)
  {
    match f
    case Empty(id) =>
      var op := s.rereads[id];
      if op.key == nk && op.deleted && !SupersededByPublication(s.sc, nk, Armed(op.fence)) && !s.sc.gone
      then OnAbsence(op.phase.at) else Silent
    case IngestRow(id, value) =>
      var op := s.rereads[id];
      if op.key == nk && Publishable(s.sc, nk, Armed(op.fence), PreparedRow(nk, op.phase.found, value))
      then OnRow(op.phase.readAt, op.phase.found) else Silent
    case _ => Silent
  }

  function WorkerDecides(s: Sys, k: WorkerAction, nk: NSKey): Decision
    requires WorkerEnabled(s, k)
  {
    match k
    case ApplyRow(key, prepared) =>
      if key == nk && TakesRow(s.sc, s.worker.arm, nk) && prepared.Usable? && !s.sc.gone
      then OnRow(s.worker.at, s.worker.snapshot[nk]) else Silent
    case ApplyAbsent(key) =>
      var arm := s.worker.arm;
      if key == nk && !Superseded(s, arm) && !s.sc.gone
         && (KeepsCached(s.sc, arm, nk, s.defaults[nk]) ==> AbsenceAgrees(s.sc, arm, nk, s.defaults[nk]))
      then OnAbsence(s.worker.at) else Silent
    case _ => Silent
  }

  function DecisionOf(s: Sys, t: Trail, a: Action, nk: NSKey): Decision
    requires Enabled(s, a)
  {
    match a
    case Writer(w) => WriterDecides(s, t, w, nk)
    case Feed(f) => FeedDecides(s, f, nk)
    case Link(_) => Silent
    case Worker(k) => WorkerDecides(s, k, nk)
  }

  function Newest(a: nat, b: nat): nat { if a < b then b else a }

  function Settle(settled: nat, d: Decision): nat { if d.Silent? then settled else Newest(settled, d.at) }

  /** A re-read of the key that comes to its end has answered whatever was stored before it armed. */
  function Answer(s: Sys, answered: nat, a: Action, nk: NSKey): nat
    requires Enabled(s, a)
  {
    if a.Feed? && (a.f.Empty? || a.f.IngestRow?) && s.rereads[a.f.id].key == nk
    then Newest(answered, s.rereads[a.f.id].logStart) else answered
  }

  predicate GoesOver(a: Action, nk: NSKey) {
    a.Worker? && ((a.k.ApplyRow? && a.k.nk == nk) || (a.k.ApplyAbsent? && a.k.nk == nk))
  }

  function Observe(s: Sys, t: Trail, a: Action, nk: NSKey): Trail
    requires Enabled(s, a)
  {
    Trail(Settle(t.settled, DecisionOf(s, t, a, nk)), Answer(s, t.answered, a, nk),
          if a.Writer? && a.w.DeleteCommit? then t.removals[a.w.id := |s.log| + 1] else t.removals,
          if GoesOver(a, nk) then DecisionOf(s, t, a, nk).Silent? else t.skipped,
          if a == Worker(Finish) then s.worker.at else t.listed)
  }

  ghost function TrailAfter(s: Sys, t: Trail, run: seq<Action>, nk: NSKey): Trail
    requires Possible(s, run)
    decreases |run|
  {
    if |run| == 0 then t else TrailAfter(Next(s, run[0]), Observe(s, t, run[0], nk), run[1..], nk)
  }

  /** A state some run reaches, with the history of the key that run leaves. */
  ghost predicate Reached(s: Sys, t: Trail, nk: NSKey) {
    exists defaults: map<NSKey, Value>, run: seq<Action> ::
      Possible(Init(defaults), run) && After(Init(defaults), run) == s
      && TrailAfter(Init(defaults), NoTrail, run, nk) == t
  }

  // ----- What a decision is worth -----

  function Live(s: Sys, nk: NSKey): Option<Row> { RowAt(s.log, |s.log|, nk) }

  predicate RemovalsLogged(s: Sys, t: Trail, nk: NSKey) {
    forall id :: id in s.deletes && s.deletes[id] == nk ==>
      id in t.removals && 0 < t.removals[id] <= |s.log| && s.log[t.removals[id] - 1] == Remove(nk)
  }

  /** The newest arming is still to be applied, or being applied. */
  predicate Awaited(s: Sys) {
    s.sc.pending.Full?
    || ((s.worker.Taken? || s.worker.Listing? || s.worker.Applying?) && s.worker.arm.reconcile == s.sc.reconcileGen)
  }

  /** A decision that reflects more than a photograph could miss is one the photograph's window knows of. */
  predicate Forewarned(s: Sys, t: Trail, nk: NSKey) {
    Awaited(s) ==>
      var g := s.sc.reconcileGen;
      && g in s.sc.windows && g in s.armedLog
      && (t.settled <= s.armedLog[g] || nk in s.sc.windows[g].touched
          || (s.worker.Applying? && s.worker.arm.reconcile == g && t.settled <= s.worker.at))
  }

  predicate TrailOk(s: Sys, t: Trail, nk: NSKey) {
    && t.settled <= |s.log| && (t.settled > 0 ==> nk in s.sc.entries)
    && RemovalsLogged(s, t, nk) && Forewarned(s, t, nk)
  }

  lemma RowAfterWrite(log: seq<StoreOp>, at: nat, nk: NSKey, row: Row)
    requires 0 < at <= |log|
    ensures log[at - 1] == Write(nk, row) ==> RowAt(log, at, nk) == Some(row)
    ensures log[at - 1] == Remove(nk) ==> RowAt(log, at, nk) == None
  {
  }

  /** A decision says what the store held at its point. */
  lemma DecisionIsHonest(s: Sys, t: Trail, a: Action, nk: NSKey)
    requires Kept(s) && RemovalsLogged(s, t, nk) && Enabled(s, a)
    ensures var d := DecisionOf(s, t, a, nk);
      !d.Silent? ==> d.at <= |s.log| && RowAt(s.log, d.at, nk) == if d.OnRow? then Some(d.row) else None
  {
    hide Rows, PromiseKept, Backed, Written, KeepsCached, AbsenceAgrees, TakesRow, SupersededByPublication, Publishable;
    match a {
      case Writer(w) =>
        if w.SetPublish? {
          assert SetLogged(s.log, s.sets[w.id]);
          RowAfterWrite(s.log, s.sets[w.id].commit, nk, s.sets[w.id].row);
        } else if w.DeletePublish? && s.deletes[w.id] == nk {
          RowAfterWrite(s.log, t.removals[w.id], nk, Row([], 0, 0, ""));
        }
      case Feed(f) =>
        if f.Empty? || f.IngestRow? { assert ReReadHonest(s, s.rereads[f.id]); }
      case _ =>
    }
  }

  lemma RowLands(sc: Scope, pub: Publication)
    requires !sc.gone
    ensures pub.key in Publish(sc, pub).entries
    ensures pub.revision > 0 ==>
      RevOf(Publish(sc, pub), pub.key)
      == if RevOf(sc, pub.key) < pub.revision then pub.revision else RevOf(sc, pub.key)
  {
  }

  lemma DefaultLands(sc: Scope, nk: NSKey, def: Value, deleted: bool)
    requires !sc.gone
    ensures var sc' := Publish(sc, DefaultPublication(nk, def, deleted)); nk in sc'.entries && RevOf(sc', nk) == 0
  {
  }

  // ----- What a step does to the key -----

  /** What a decision does to the cached revision; a step that decides nothing leaves it. */
  predicate Effect(sc: Scope, sc': Scope, d: Decision, nk: NSKey) {
    && (nk in sc.entries ==> nk in sc'.entries)
    && match d
       case Silent => RevOf(sc', nk) == RevOf(sc, nk)
       case OnRow(_, row) =>
         && nk in sc'.entries
         && (row.revision > 0 ==>
               RevOf(sc', nk) == if RevOf(sc, nk) < row.revision then row.revision else RevOf(sc, nk))
       case OnAbsence(_) => nk in sc'.entries && RevOf(sc', nk) == 0
  }

  predicate TouchedGrows(sc: Scope, sc': Scope) {
    forall g :: g in sc.windows && g in sc'.windows ==> sc.windows[g].touched <= sc'.windows[g].touched
  }

  lemma RecordHasNoEffect(sc: Scope, key: NSKey, usable: bool, nk: NSKey)
    ensures Effect(sc, Record(sc, key, usable), Silent, nk) && TouchedGrows(sc, Record(sc, key, usable))
    ensures usable ==> Quiet.Marked(Record(sc, key, usable), key)
  {
  }

  lemma IngestEffect(sc: Scope, key: NSKey, fence: FeedFence, row: Row, value: Option<Value>, at: nat, nk: NSKey)
    ensures var pub, sc' := PreparedRow(key, row, value), Ingest(sc, key, fence, PreparedRow(key, row, value));
      && Effect(sc, sc', if key == nk && Publishable(sc, key, fence, pub) then OnRow(at, row) else Silent, nk)
      && TouchedGrows(sc, sc') && (Publishable(sc, key, fence, pub) ==> Quiet.Marked(sc', key))
  {
    hide Publish, Record;
    var pub := PreparedRow(key, row, value);
    var ok := Publishable(sc, key, fence, pub);
    RecordHasNoEffect(if ok then Publish(sc, pub.value) else sc, key, ok, nk);
    if ok {
      RowLands(sc, pub.value);
      if key != nk { Quiet.PublishTouchesItsKey(sc, pub.value, nk); }
      PublishKeepsEntries(sc, pub.value, nk);
    }
  }

  lemma PublishKeepsEntries(sc: Scope, pub: Publication, nk: NSKey)
    ensures nk in sc.entries ==> nk in Publish(sc, pub).entries
  {
  }

  lemma DefaultEffect(sc: Scope, key: NSKey, def: Value, deleted: bool, at: nat, nk: NSKey)
    requires !sc.gone
    ensures var sc' := Record(Publish(sc, DefaultPublication(key, def, deleted)), key, true);
      && Effect(sc, sc', if key == nk then OnAbsence(at) else Silent, nk)
      && TouchedGrows(sc, sc') && Quiet.Marked(sc', key)
  {
    hide Publish, Record;
    var pub := DefaultPublication(key, def, deleted);
    RecordHasNoEffect(Publish(sc, pub), key, true, nk);
    DefaultLands(sc, key, def, deleted);
    if key != nk { Quiet.PublishTouchesItsKey(sc, pub, nk); }
  }

  lemma UnconfirmedHasNoEffect(sc: Scope, key: NSKey, origin: FeedFence, nk: NSKey)
    ensures Effect(sc, RecordUnconfirmed(sc, key, origin), Silent, nk)
    ensures RecordUnconfirmed(sc, key, origin).windows == sc.windows
  {
  }

  predicate MarksItsKey(sc: Scope, d: Decision, nk: NSKey) { d.Silent? || Quiet.Marked(sc, nk) }

  lemma WriterEffect(s: Sys, t: Trail, w: WriterAction, nk: NSKey)
    requires WriterEnabled(s, w) && RemovalsLogged(s, t, nk)
    ensures var d, sc' := WriterDecides(s, t, w, nk), WriterStep(s, w).sc;
      Effect(s.sc, sc', d, nk) && TouchedGrows(s.sc, sc') && MarksItsKey(sc', d, nk)
  {
    hide Record, Ingest, Publish, Promises;
    match w
    case SetFence(id) => RecordHasNoEffect(s.sc, s.sets[id].key, false, nk);
    case SetPublish(id, value) =>
      var op := s.sets[id];
      IngestEffect(s.sc, op.key, Unarmed, op.row, value, op.commit, nk);
    case DeletePublish(id) =>
      var key := s.deletes[id];
      if !s.sc.gone { DefaultEffect(s.sc, key, s.defaults[key], true, if key == nk then t.removals[id] else 0, nk); }
    case _ =>
  }

  lemma FeedEffect(s: Sys, f: FeedAction, nk: NSKey)
    requires FeedEnabled(s, f)
    ensures var d, sc' := FeedDecides(s, f, nk), FeedStep(s, f).sc;
      Effect(s.sc, sc', d, nk) && TouchedGrows(s.sc, sc') && MarksItsKey(sc', d, nk)
  {
    hide Record, Ingest, Publish, RecordUnconfirmed, Publishable, SupersededByPublication;
    match f
    case DeleteArrives(key) => RecordHasNoEffect(s.sc, key, true, nk);
    case GiveUp(id) => RecordHasNoEffect(s.sc, s.rereads[id].key, false, nk);
    case Concede(id) => UnconfirmedHasNoEffect(s.sc, s.rereads[id].key, Armed(s.rereads[id].origin), nk);
    case Empty(id) =>
      var op := s.rereads[id];
      UnconfirmedHasNoEffect(s.sc, op.key, Armed(op.origin), nk);
      if !s.sc.gone { DefaultEffect(s.sc, op.key, s.defaults[op.key], false, op.phase.at, nk); }
    case FenceRow(id) => RecordHasNoEffect(s.sc, s.rereads[id].key, false, nk);
    case IngestRow(id, value) =>
      var op := s.rereads[id];
      IngestEffect(s.sc, op.key, Armed(op.fence), op.phase.found, value, op.phase.readAt, nk);
    case _ =>
  }

  lemma SnapshotEffect(s: Sys, key: NSKey, prepared: Prepared, nk: NSKey)
    requires WorkerEnabled(s, ApplyRow(key, prepared))
    ensures var sc' := SnapshotRow(s.sc, s.worker.arm, key, s.worker.snapshot[key], prepared, Default(s, key));
      Effect(s.sc, sc', WorkerDecides(s, ApplyRow(key, prepared), nk), nk) && sc'.windows == s.sc.windows
  {
    hide Publish, TakesRow;
    var row := s.worker.snapshot[key];
    if key != nk {
      Quiet.SnapshotRowLeavesOthers(s.sc, s.worker.arm, key, row, prepared, Default(s, key), nk);
    } else if prepared.Usable? {
      var pub := RowPublication(nk, row, prepared.value);
      PublishKeepsEntries(s.sc, pub, nk);
      if s.sc.gone { GonePublishesNothing(s.sc, pub); } else { RowLands(s.sc, pub); }
    } else if nk in s.defaults && nk !in s.sc.entries {
      FirstDefaultKeeps(s.sc, nk, s.defaults[nk]);
    }
  }

  lemma GonePublishesNothing(sc: Scope, pub: Publication)
    requires sc.gone
    ensures Publish(sc, pub) == sc
  {
  }

  lemma AbsentEffect(s: Sys, key: NSKey, nk: NSKey)
    requires WorkerEnabled(s, ApplyAbsent(key))
    ensures var sc' := AbsentKey(s.sc, s.worker.arm, key, s.defaults[key]);
      Effect(s.sc, sc', WorkerDecides(s, ApplyAbsent(key), nk), nk) && sc'.windows == s.sc.windows
  {
    hide Publish;
    var pub := DefaultPublication(key, s.defaults[key], false);
    if key != nk {
      Quiet.AbsentKeyLeavesOthers(s.sc, s.worker.arm, key, s.defaults[key], nk);
    } else if s.sc.gone {
      GonePublishesNothing(s.sc, pub);
    } else {
      DefaultLands(s.sc, nk, s.defaults[nk], false);
    }
  }

  lemma WorkerEffect(s: Sys, k: WorkerAction, nk: NSKey)
    requires WorkerEnabled(s, k)
    ensures var d, sc' := WorkerDecides(s, k, nk), WorkerStep(s, k).sc;
      Effect(s.sc, sc', d, nk) && TouchedGrows(s.sc, sc')
  {
    hide SnapshotRow, AbsentKey, TakesRow, KeepsCached, AbsenceAgrees, RowsAt, Notifies;
    match k
    case ApplyRow(key, prepared) => SnapshotEffect(s, key, prepared, nk);
    case ApplyAbsent(key) => AbsentEffect(s, key, nk);
    case _ =>
  }

  lemma StepEffect(s: Sys, t: Trail, a: Action, nk: NSKey)
    requires Enabled(s, a) && RemovalsLogged(s, t, nk)
    ensures Effect(s.sc, Next(s, a).sc, DecisionOf(s, t, a, nk), nk)
    ensures a != Link(Resync) ==> TouchedGrows(s.sc, Next(s, a).sc)
    ensures a.Writer? || a.Feed? ==> MarksItsKey(Next(s, a).sc, DecisionOf(s, t, a, nk), nk)
  {
    hide Effect, TouchedGrows, MarksItsKey, WriterStep, FeedStep, WorkerStep, WriterEnabled, FeedEnabled, WorkerEnabled;
    match a
    case Writer(w) => WriterEffect(s, t, w, nk);
    case Feed(f) => FeedEffect(s, f, nk);
    case Link(l) => LinkHasNoEffect(s, l, nk);
    case Worker(k) => WorkerEffect(s, k, nk);
  }

  lemma LinkHasNoEffect(s: Sys, l: LinkAction, nk: NSKey)
    requires LinkEnabled(s, l)
    ensures Effect(s.sc, LinkStep(s, l).sc, Silent, nk)
    ensures !l.Resync? ==> TouchedGrows(s.sc, LinkStep(s, l).sc)
  {
  }

  // ----- The store moves on -----

  /** The step stores something under the key. */
  predicate Stores(a: Action, nk: NSKey) {
    a.Writer? && match a.w
      case ForeignWrite(op) => op.key == nk
      case SetCommit(_, key, _) => key == nk
      case DeleteCommit(_, key) => key == nk
      case _ => false
  }

  lemma LogGrows(s: Sys, a: Action)
    requires Enabled(s, a)
    ensures Next(s, a).log == s.log || exists op :: Next(s, a).log == s.log + [op] && Stores(a, op.key)
    ensures !(a.Writer? && (a.w.ForeignWrite? || a.w.SetCommit? || a.w.DeleteCommit?)) ==> Next(s, a).log == s.log
  {
    hide WriterStep, FeedStep, LinkStep, WorkerStep, FeedEnabled, LinkEnabled, WorkerEnabled;
    match a
    case Writer(w) => WriterLog(s, w);
    case Feed(f) => FeedOwesNothing(s, f);
    case Link(l) => ReconcileOwesNothing(s, l, Wake);
    case Worker(k) => ReconcileOwesNothing(s, Resync, k);
  }

  lemma WriterLog(s: Sys, w: WriterAction)
    requires WriterEnabled(s, w)
    ensures WriterStep(s, w).log == match w
      case ForeignWrite(op) => s.log + [op]
      case SetCommit(_, nk, row) => s.log + [Write(nk, row)]
      case DeleteCommit(_, nk) => s.log + [Remove(nk)]
      case _ => s.log
  {
    hide Record, Ingest, LocalDelete, Promises;
  }

  // ----- Keeping the history honest -----

  lemma DeletesChange(s: Sys, a: Action, id: nat)
    requires Enabled(s, a) && id in Next(s, a).deletes
    ensures (id in s.deletes && s.deletes[id] == Next(s, a).deletes[id])
      || (a.Writer? && a.w.DeleteCommit? && a.w.id == id && Next(s, a).deletes[id] == a.w.nk)
  {
    hide WriterStep, FeedStep, LinkStep, WorkerStep, FeedEnabled, LinkEnabled, WorkerEnabled;
    match a
    case Writer(w) => WriterDeletes(s, w, id);
    case Feed(f) => FeedOwesNothing(s, f);
    case Link(l) => ReconcileOwesNothing(s, l, Wake);
    case Worker(k) => ReconcileOwesNothing(s, Resync, k);
  }

  lemma WriterDeletes(s: Sys, w: WriterAction, id: nat)
    requires WriterEnabled(s, w) && id in WriterStep(s, w).deletes
    ensures (id in s.deletes && s.deletes[id] == WriterStep(s, w).deletes[id])
      || (w.DeleteCommit? && w.id == id && WriterStep(s, w).deletes[id] == w.nk)
  {
    hide Record, Ingest, LocalDelete, Promises;
  }

  lemma RemovalsKept(s: Sys, t: Trail, a: Action, nk: NSKey)
    requires Enabled(s, a) && RemovalsLogged(s, t, nk)
    ensures RemovalsLogged(Next(s, a), Observe(s, t, a, nk), nk)
  {
    hide Next, DecisionOf, Answer, FeedEnabled, LinkEnabled, WorkerEnabled;
    var s', t' := Next(s, a), Observe(s, t, a, nk);
    LogGrows(s, a);
    forall id | id in s'.deletes && s'.deletes[id] == nk
      ensures id in t'.removals && 0 < t'.removals[id] <= |s'.log| && s'.log[t'.removals[id] - 1] == Remove(nk)
    {
      DeletesChange(s, a, id);
      if a.Writer? && a.w.DeleteCommit? { DeleteIsLogged(s, a.w.id, a.w.nk); }
    }
  }

  lemma DeleteIsLogged(s: Sys, id: nat, nk: NSKey)
    requires Enabled(s, Writer(DeleteCommit(id, nk)))
    ensures var s' := Next(s, Writer(DeleteCommit(id, nk))); s'.log == s.log + [Remove(nk)] && id in s'.deletes
    ensures id !in s.deletes
  {
  }

  lemma WriterKeepsArmings(s: Sys, w: WriterAction)
    requires WriterEnabled(s, w)
    ensures WriterStep(s, w).worker == s.worker && WriterStep(s, w).armedLog == s.armedLog
  {
    hide Record, Ingest, LocalDelete, Promises;
  }

  lemma IngressForewarns(s: Sys, t: Trail, a: Action, nk: NSKey)
    requires Forewarned(s, t, nk) && RemovalsLogged(s, t, nk) && Enabled(s, a) && (a.Writer? || a.Feed?)
    ensures Forewarned(Next(s, a), Observe(s, t, a, nk), nk)
  {
    hide DecisionOf, Effect, WriterStep, FeedStep, WriterEnabled, FeedEnabled, Answer;
    var s' := Next(s, a);
    StepEffect(s, t, a, nk);
    if a.Writer? { Mailbox.WritersLeaveMailbox(s, a.w); WriterKeepsArmings(s, a.w); }
    else { Mailbox.FeedLeavesMailbox(s, a.f); FeedOwesNothing(s, a.f); }
    var g := s.sc.reconcileGen;
    if Awaited(s') && DecisionOf(s, t, a, nk).Silent? {
      assert nk in s.sc.windows[g].touched ==> nk in s'.sc.windows[g].touched;
    }
  }

  lemma LinkForewarns(s: Sys, t: Trail, l: LinkAction, nk: NSKey)
    requires Forewarned(s, t, nk) && t.settled <= |s.log| && Mailbox.Owned(s) && Enabled(s, Link(l))
    ensures Forewarned(Next(s, Link(l)), Observe(s, t, Link(l), nk), nk)
  {
  }

  lemma ApplyingForewarns(s: Sys, t: Trail, k: WorkerAction, nk: NSKey)
    requires Forewarned(s, t, nk) && Mailbox.Owned(s) && WorkerHonest(s) && Enabled(s, Worker(k))
    requires k.ApplyRow? || k.ApplyAbsent?
    ensures Forewarned(Next(s, Worker(k)), Observe(s, t, Worker(k), nk), nk)
  {
    hide SnapshotRow, AbsentKey, RowsAt, Notifies, AgreesWithDefault, Mailbox.Dated;
    var s' := Next(s, Worker(k));
    assert s'.sc.windows == s.sc.windows && s'.sc.reconcileGen == s.sc.reconcileGen && s'.sc.pending == s.sc.pending;
  }

  lemma MovingForewarns(s: Sys, t: Trail, k: WorkerAction, nk: NSKey)
    requires Forewarned(s, t, nk) && Mailbox.Owned(s) && WorkerHonest(s) && Enabled(s, Worker(k))
    requires !k.ApplyRow? && !k.ApplyAbsent?
    ensures Forewarned(Next(s, Worker(k)), Observe(s, t, Worker(k), nk), nk)
  {
    hide RowsAt, Mailbox.Dated;
  }

  lemma TrailKept(s: Sys, t: Trail, a: Action, nk: NSKey)
    requires Inv(s) && TrailOk(s, t, nk) && Enabled(s, a)
    ensures TrailOk(Next(s, a), Observe(s, t, a, nk), nk)
  {
    hide Mailbox.Owned, Causality.Causal, Freshness.Sound, Forewarned, RemovalsLogged, Next, Kept, DecisionOf, Answer;
    RemovalsKept(s, t, a, nk);
    DecisionIsHonest(s, t, a, nk);
    StepEffect(s, t, a, nk);
    LogGrows(s, a);
    WorkerHonestNow(s);
    match a {
      case Writer(_) => IngressForewarns(s, t, a, nk);
      case Feed(_) => IngressForewarns(s, t, a, nk);
      case Link(l) => LinkForewarns(s, t, l, nk);
      case Worker(k) =>
        if k.ApplyRow? || k.ApplyAbsent? { ApplyingForewarns(s, t, k, nk); } else { MovingForewarns(s, t, k, nk); }
    }
  }

  lemma {:induction false} RunKeepsTrail(s: Sys, t: Trail, run: seq<Action>, nk: NSKey)
    requires Inv(s) && TrailOk(s, t, nk) && Possible(s, run)
    ensures Inv(After(s, run)) && TrailOk(After(s, run), TrailAfter(s, t, run, nk), nk)
    decreases |run|
  {
    hide Inv, TrailOk, Next, Enabled, Observe;
    if |run| > 0 {
      InvKept(s, run[0]);
      TrailKept(s, t, run[0], nk);
      RunKeepsTrail(Next(s, run[0]), Observe(s, t, run[0], nk), run[1..], nk);
    }
  }

  lemma ReachedOk(s: Sys, t: Trail, nk: NSKey)
    requires Reached(s, t, nk)
    ensures Inv(s) && TrailOk(s, t, nk)
  {
    hide Inv, Next, Enabled, Observe;
    var defaults: map<NSKey, Value>, run: seq<Action> :|
      Possible(Init(defaults), run) && After(Init(defaults), run) == s
      && TrailAfter(Init(defaults), NoTrail, run, nk) == t;
    InitInv(defaults);
    RunKeepsTrail(Init(defaults), NoTrail, run, nk);
  }

  // ----- What can still land late -----

  predicate Settled(s: Sys, t: Trail, nk: NSKey) { Quiet.Untouched(s.log, nk, t.settled) }

  /** A local Set of the key is committed and not published. */
  predicate HasSet(s: Sys, nk: NSKey) {
    exists id :: id in s.sets && s.sets[id].key == nk
  }

  /** The re-read has, or may still come back with, a row of its key that no delete counted since it armed refuses. */
  ghost predicate HoldsRow(s: Sys, op: ReRead) {
    op.fence.deletes == Causality.Deletes(s.sc, op.key) &&
    match op.phase
    case Reading => exists at: nat :: op.logStart <= at <= |s.log| && RowAt(s.log, at, op.key).Some?
    case Read(_, row) => row.Some?
    case Grading(_, _) => true
    case _ => false
  }

  ghost predicate HasHolder(s: Sys, nk: NSKey) {
    exists id :: id in s.rereads && s.rereads[id].key == nk && HoldsRow(s, s.rereads[id])
  }

  /**
   Something under way would take the cache off the store if it came last: an unpublished local Delete over a live
   row; or, with no row left, an unpublished local Set, or a re-read that holds a row and that no local Delete still
   to come will refuse or undo.
   */
  ghost predicate Late(s: Sys, nk: NSKey) {
    if Live(s, nk).Some? then Owes(s, nk) else HasSet(s, nk) || (!Owes(s, nk) && HasHolder(s, nk))
  }

  /** A key whose every write is reflected in a decision is where the store has it; an owed Delete is yet to speak. */
  ghost predicate Fine(s: Sys, t: Trail, nk: NSKey) {
    Settled(s, t, nk) && Rising(s.log, nk) && (Live(s, nk).Some? || !Owes(s, nk)) ==> !OffStore(s, nk)
  }

  predicate PublishesDelete(s: Sys, a: Action, nk: NSKey) {
    a.Writer? && a.w.DeletePublish? && a.w.id in s.deletes && s.deletes[a.w.id] == nk
  }

  lemma OlderRow(s: Sys, nk: NSKey, at: nat)
    requires Rising(s.log, nk) && at <= |s.log| && RowAt(s.log, at, nk).Some?
    ensures RowAt(s.log, at, nk).value.revision > 0
    ensures Live(s, nk).Some? ==> RowAt(s.log, at, nk).value.revision <= Live(s, nk).value.revision
  {
    var j := RowWasWritten(s.log, at, nk);
    assert Climbs(s.log, j, nk, s.log[j].row);
    if Live(s, nk).Some? { LiveRowIsNewest(s.log, |s.log|, nk, j, s.log[j].row.revision); }
  }

  lemma CachedIsNoNewer(s: Sys, nk: NSKey)
    requires Kept(s) && Rising(s.log, nk) && Live(s, nk).Some?
    ensures RevOf(s.sc, nk) <= Live(s, nk).value.revision && Live(s, nk).value.revision > 0
  {
    OlderRow(s, nk, |s.log|);
    assert Backed(s.log, |s.log|, nk, RevOf(s.sc, nk));
    if RevOf(s.sc, nk) != 0 {
      var i: nat :| i < |s.log| && Wrote(s.log, i, nk, RevOf(s.sc, nk));
      LiveRowIsNewest(s.log, |s.log|, nk, i, RevOf(s.sc, nk));
    }
  }

  /** A decision on the row that is still live, or on an older one over the live one, leaves the live revision. */
  lemma RowSettles(s: Sys, s': Sys, at: nat, row: Row, nk: NSKey)
    requires Kept(s) && Rising(s.log, nk) && s'.log == s.log && at <= |s.log| && RowAt(s.log, at, nk) == Some(row)
    requires Effect(s.sc, s'.sc, OnRow(at, row), nk)
    requires Quiet.Untouched(s.log, nk, at) || (Live(s, nk).Some? && !OffStore(s, nk))
    ensures !OffStore(s', nk)
  {
    hide Kept, Rising, RowAt;
    OlderRow(s, nk, at);
    if Quiet.Untouched(s.log, nk, at) { Quiet.UntouchedRow(s.log, nk, at); }
    CachedIsNoNewer(s, nk);
  }

  predicate FromPhotograph(a: Action) { a.Worker? && (a.k.ApplyRow? || a.k.ApplyAbsent?) }

  /** A reconcile never decides a key on less than an earlier decision reflected. */
  lemma PhotographIsFresh(s: Sys, t: Trail, a: Action, nk: NSKey)
    requires Forewarned(s, t, nk) && WorkerHonest(s) && Enabled(s, a) && FromPhotograph(a)
    ensures var d := DecisionOf(s, t, a, nk); !d.Silent? ==> t.settled <= d.at
  {
    hide RowsAt, AgreesWithDefault;
  }

  /**
   The steps that take a settled key off the store: a local Delete published over a live row; or, with no row left
   and no local Delete still to come, the row of a local Set or of a re-read.
   */
  predicate LandsLate(s: Sys, t: Trail, a: Action, nk: NSKey)
    requires Enabled(s, a)
  {
    Settled(s, t, nk) &&
    if Live(s, nk).Some? then PublishesDelete(s, a, nk)
    else !Owes(s, nk) && (a.Writer? || a.Feed?) && DecisionOf(s, t, a, nk).OnRow?
  }

  lemma LandsLateIsLate(s: Sys, t: Trail, a: Action, nk: NSKey)
    requires Enabled(s, a) && LandsLate(s, t, a, nk)
    ensures Late(s, nk)
  {
    hide RowAt, Owes, Settled;
    if Live(s, nk).Some? { assert Owes(s, nk) by { OwesWhatItPublishes(s, a, nk); } }
    else if a.Writer? { assert HasSet(s, nk); }
    else { assert HoldsRow(s, s.rereads[a.f.id]); }
  }

  lemma OwesWhatItPublishes(s: Sys, a: Action, nk: NSKey)
    requires PublishesDelete(s, a, nk)
    ensures Owes(s, nk)
  {
  }

  lemma StaleRowLandsLate(s: Sys, t: Trail, a: Action, nk: NSKey)
    requires Enabled(s, a) && Forewarned(s, t, nk) && WorkerHonest(s) && Settled(s, t, nk) && !LandsLate(s, t, a, nk)
    requires var d := DecisionOf(s, t, a, nk); d.OnRow? && d.at < t.settled
    ensures Live(s, nk).Some? || Owes(s, nk)
  {
    hide Forewarned, RowAt, Owes, DecisionOf, Settled;
    if FromPhotograph(a) { PhotographIsFresh(s, t, a, nk); } else { OnlyPhotographsByTheWorker(s, t, a, nk); }
  }

  lemma OnlyPhotographsByTheWorker(s: Sys, t: Trail, a: Action, nk: NSKey)
    requires Enabled(s, a) && !DecisionOf(s, t, a, nk).Silent? && !FromPhotograph(a)
    ensures a.Writer? || a.Feed?
    ensures DecisionOf(s, t, a, nk).OnAbsence? && a.Writer? ==> PublishesDelete(s, a, nk)
    ensures DecisionOf(s, t, a, nk).OnAbsence? && a.Feed? ==>
      && a.f.Empty? && s.rereads[a.f.id].key == nk
      && !SupersededByPublication(s.sc, nk, Armed(s.rereads[a.f.id].fence))
  {
  }

  /** An empty read of a row that has come back is refused: what the cache now holds landed after it armed. */
  lemma EmptyReadIsRefused(s: Sys, id: nat, nk: NSKey)
    requires Kept(s) && Rising(s.log, nk) && Enabled(s, Feed(Empty(id))) && s.rereads[id].key == nk
    requires Live(s, nk).Some? && !OffStore(s, nk)
    ensures SupersededByPublication(s.sc, nk, Armed(s.rereads[id].fence))
  {
    var op := s.rereads[id];
    assert ReReadHonest(s, op);
    CachedIsNoNewer(s, nk);
    if op.fence == FenceFor(s.sc, nk) {
      var i: nat :| i < op.logStart && Wrote(s.log, i, nk, RevOf(s.sc, nk));
      var j := LiveRowWasWritten(s.log, op.phase.at, |s.log|, nk);
      RecreatedHigher(s.log, i, op.phase.at, j, nk, RevOf(s.sc, nk));
    }
  }

  lemma StaleAbsenceLandsLate(s: Sys, t: Trail, a: Action, nk: NSKey)
    requires Enabled(s, a) && Kept(s) && Forewarned(s, t, nk) && Rising(s.log, nk)
    requires Settled(s, t, nk) && !LandsLate(s, t, a, nk)
    requires Live(s, nk).Some? ==> !OffStore(s, nk)
    requires var d := DecisionOf(s, t, a, nk); d.OnAbsence? && d.at < t.settled
    ensures Live(s, nk).None?
  {
    hide Forewarned, RowAt, Kept, Rising, OffStore, SupersededByPublication, DecisionOf, Settled, PublishesDelete, Owes;
    WorkerHonestNow(s);
    if FromPhotograph(a) { PhotographIsFresh(s, t, a, nk); }
    else {
      OnlyPhotographsByTheWorker(s, t, a, nk);
      if a.Feed? && Live(s, nk).Some? { EmptyReadIsRefused(s, a.f.id, nk); }
    }
  }

  lemma WriterKeepsDelete(s: Sys, w: WriterAction, id: nat)
    requires WriterEnabled(s, w) && id in s.deletes && w != DeletePublish(id)
    ensures id in WriterStep(s, w).deletes && WriterStep(s, w).deletes[id] == s.deletes[id]
  {
    hide Record, Ingest, LocalDelete, Promises;
  }

  lemma OwedStaysOwed(s: Sys, a: Action, nk: NSKey)
    requires Enabled(s, a) && Owes(s, nk) && !PublishesDelete(s, a, nk)
    ensures Owes(Next(s, a), nk)
  {
    hide WriterStep, FeedStep, LinkStep, WorkerStep, FeedEnabled, LinkEnabled, WorkerEnabled;
    var id :| id in s.deletes && s.deletes[id] == nk;
    match a
    case Writer(w) => WriterKeepsDelete(s, w, id);
    case Feed(f) => FeedOwesNothing(s, f);
    case Link(l) => ReconcileOwesNothing(s, l, Wake);
    case Worker(k) => ReconcileOwesNothing(s, Resync, k);
  }

  lemma DecisionsAreNotStores(s: Sys, t: Trail, a: Action, nk: NSKey)
    requires Enabled(s, a) && !DecisionOf(s, t, a, nk).Silent?
    ensures Next(s, a).log == s.log
    ensures a.Writer? && DecisionOf(s, t, a, nk).OnRow? ==> a.w.SetPublish?
  {
    hide Next, FeedDecides, WorkerDecides;
    LogGrows(s, a);
  }

  lemma DecidingKeepsFine(s: Sys, t: Trail, a: Action, nk: NSKey)
    requires Inv(s) && TrailOk(s, t, nk) && Enabled(s, a) && Fine(s, t, nk) && !LandsLate(s, t, a, nk)
    requires !DecisionOf(s, t, a, nk).Silent?
    ensures Fine(Next(s, a), Observe(s, t, a, nk), nk)
  {
    hide Next, Enabled, DecisionOf, LandsLate, Answer, Kept, Rising, RowAt, OffStore, Owes, Forewarned, RemovalsLogged,
      Mailbox.Owned, Causality.Causal, Freshness.Sound;
    var d, s', t' := DecisionOf(s, t, a, nk), Next(s, a), Observe(s, t, a, nk);
    DecisionIsHonest(s, t, a, nk);
    DecisionsAreNotStores(s, t, a, nk);
    StepEffect(s, t, a, nk);
    WorkerHonestNow(s);
    if Settled(s', t', nk) && Rising(s'.log, nk) && (Live(s', nk).Some? || !Owes(s', nk)) {
      if Quiet.Untouched(s.log, nk, d.at) {
        Quiet.UntouchedRow(s.log, nk, d.at);
        if d.OnRow? { RowSettles(s, s', d.at, d.row, nk); } else { AbsenceSettles(s, s', d.at, nk); }
      } else if d.OnRow? {
        StaleRowLandsLate(s, t, a, nk);
        if Live(s, nk).Some? { RowSettles(s, s', d.at, d.row, nk); } else { OwedStaysOwed(s, a, nk); }
      } else {
        StaleAbsenceLandsLate(s, t, a, nk);
        AbsenceSettles(s, s', d.at, nk);
      }
    }
  }

  lemma AbsenceSettles(s: Sys, s': Sys, at: nat, nk: NSKey)
    requires s'.log == s.log && Effect(s.sc, s'.sc, OnAbsence(at), nk) && Live(s, nk).None?
    ensures !OffStore(s', nk)
  {
  }

  lemma LiveUnlessStored(s: Sys, a: Action, nk: NSKey)
    requires Enabled(s, a) && !Stores(a, nk)
    ensures Live(Next(s, a), nk) == Live(s, nk)
    ensures Rising(Next(s, a).log, nk) ==> Rising(s.log, nk)
    ensures forall at: nat :: at <= |s.log| ==>
      at <= |Next(s, a).log| && RowAt(Next(s, a).log, at, nk) == RowAt(s.log, at, nk)
    ensures forall from: nat :: Quiet.Untouched(Next(s, a).log, nk, from) ==> Quiet.Untouched(s.log, nk, from)
    ensures forall at: nat :: |s.log| < at <= |Next(s, a).log| ==> RowAt(Next(s, a).log, at, nk) == Live(s, nk)
  {
    hide Next, Enabled, Rows;
    LogGrows(s, a);
    if Next(s, a).log != s.log {
      var op :| Next(s, a).log == s.log + [op] && Stores(a, op.key);
      StoresOneKey(a, op.key, nk);
      Quiet.SameRowWhenAppended(s.log, op, nk);
      if Rising(Next(s, a).log, nk) { RisingBefore(s.log, op, nk); }
      forall at: nat | at <= |s.log| ensures RowAt(s.log + [op], at, nk) == RowAt(s.log, at, nk) {
        SnapshotStable(s.log, [op], at);
      }
      forall from: nat | Quiet.Untouched(s.log + [op], nk, from) ensures Quiet.Untouched(s.log, nk, from) {
        forall i | from <= i < |s.log| ensures s.log[i].key != nk { assert (s.log + [op])[i] == s.log[i]; }
      }
    }
  }

  lemma StoresOneKey(a: Action, key: NSKey, nk: NSKey)
    requires Stores(a, key) && !Stores(a, nk)
    ensures key != nk
  {
  }

  lemma SilentKeepsFine(s: Sys, t: Trail, a: Action, nk: NSKey)
    requires RemovalsLogged(s, t, nk) && Enabled(s, a) && Fine(s, t, nk) && !Stores(a, nk) && !s.sc.gone
    requires DecisionOf(s, t, a, nk).Silent?
    ensures Fine(Next(s, a), Observe(s, t, a, nk), nk)
  {
    hide Next, Answer, Rising, RowAt, Owes, Quiet.Untouched, FeedDecides, WorkerDecides, Stores;
    var s' := Next(s, a);
    StepEffect(s, t, a, nk);
    LiveUnlessStored(s, a, nk);
    if Owes(s, nk) { assert !PublishesDelete(s, a, nk); OwedStaysOwed(s, a, nk); }
  }

  // ----- Nothing late stays nothing late -----

  lemma WriterSets(s: Sys, w: WriterAction, id: nat)
    requires WriterEnabled(s, w) && id in WriterStep(s, w).sets
    ensures (id in s.sets && s.sets[id].key == WriterStep(s, w).sets[id].key)
      || (w.SetCommit? && WriterStep(s, w).sets[id].key == w.nk)
  {
    hide Record, Ingest, LocalDelete, Promises;
  }

  lemma NoSetAppears(s: Sys, a: Action, nk: NSKey)
    requires Enabled(s, a) && !HasSet(s, nk) && !Stores(a, nk)
    ensures !HasSet(Next(s, a), nk)
  {
    hide WriterStep, FeedStep, LinkStep, WorkerStep, FeedEnabled, LinkEnabled, WorkerEnabled;
    forall id | id in Next(s, a).sets ensures Next(s, a).sets[id].key != nk {
      match a
      case Writer(w) => WriterSets(s, w, id);
      case Feed(f) => FeedOwesNothing(s, f);
      case Link(l) => ReconcileOwesNothing(s, l, Wake);
      case Worker(k) => ReconcileOwesNothing(s, Resync, k);
    }
  }

  /** Where a re-read comes from: it is starting, or it was there, a phase earlier at most. */
  predicate Descends(s: Sys, a: Action, op: ReRead, op': ReRead) {
    && op'.key == op.key && op'.fence == op.fence && op'.startedAt == op.startedAt && op'.logStart == op.logStart
    && match op'.phase
       case Reading => op.phase.Reading?
       case Read(at, row) =>
         op'.phase == op.phase
         || (op.phase.Reading? && op.logStart <= at <= |s.log| && row == RowAt(s.log, at, op.key))
       case Grading(_, _) => op.phase == op'.phase || (op.phase.Read? && op.phase.row.Some?)
       case _ => true
  }

  lemma FeedReReads(s: Sys, f: FeedAction, id: nat)
    requires FeedEnabled(s, f) && id in FeedStep(s, f).rereads
    ensures id in s.rereads ==> Descends(s, Feed(f), s.rereads[id], FeedStep(s, f).rereads[id])
    ensures id !in s.rereads ==>
      var op := FeedStep(s, f).rereads[id]; op.phase.Reading? && op.logStart == |s.log|
  {
    hide Record, Ingest, FeedDelete, AbsentDelete, RecordUnconfirmed, Publishable, Notifies, RowAt;
  }

  lemma WriterReReads(s: Sys, w: WriterAction)
    requires WriterEnabled(s, w)
    ensures WriterStep(s, w).rereads == s.rereads
  {
    hide Record, Ingest, LocalDelete, Promises;
  }

  lemma ReReadsChange(s: Sys, a: Action, id: nat)
    requires Enabled(s, a) && id in Next(s, a).rereads
    ensures id in s.rereads ==> Descends(s, a, s.rereads[id], Next(s, a).rereads[id])
    ensures id !in s.rereads ==>
      var op := Next(s, a).rereads[id]; op.phase.Reading? && op.logStart == |s.log|
  {
    hide WriterStep, FeedStep, LinkStep, WorkerStep, WriterEnabled, FeedEnabled, LinkEnabled, WorkerEnabled, RowAt;
    match a
    case Writer(w) => WriterReReads(s, w);
    case Feed(f) => FeedReReads(s, f, id);
    case Link(l) => ReconcileOwesNothing(s, l, Wake);
    case Worker(k) => ReconcileOwesNothing(s, Resync, k);
  }

  lemma HolderWasHolder(s: Sys, a: Action, nk: NSKey, id: nat)
    requires Enabled(s, a) && Causality.Causal(s) && Causality.Causal(Next(s, a)) && !Stores(a, nk) && Live(s, nk).None?
    requires id in Next(s, a).rereads && Next(s, a).rereads[id].key == nk
    requires HoldsRow(Next(s, a), Next(s, a).rereads[id])
    ensures id in s.rereads && s.rereads[id].key == nk && HoldsRow(s, s.rereads[id])
  {
    hide Next, Enabled, RowAt, Quiet.Untouched, Rising;
    var s' := Next(s, a);
    var op' := s'.rereads[id];
    ReReadsChange(s, a, id);
    LiveUnlessStored(s, a, nk);
    CountsStand(s, a);
    assert Causality.FencedByCounts(s', op');
    if id in s.rereads {
      assert Causality.FencedByCounts(s, s.rereads[id]);
    }
  }

  lemma NoHolderAppears(s: Sys, a: Action, nk: NSKey)
    requires Inv(s) && Enabled(s, a) && !Stores(a, nk) && Live(s, nk).None? && !HasHolder(s, nk)
    ensures !HasHolder(Next(s, a), nk)
  {
    hide Next, Enabled, HoldsRow, RowAt, Mailbox.Owned, Kept, Freshness.Sound, Causality.Causal;
    InvKept(s, a);
    forall id | id in Next(s, a).rereads && Next(s, a).rereads[id].key == nk
      ensures !HoldsRow(Next(s, a), Next(s, a).rereads[id])
    {
      if HoldsRow(Next(s, a), Next(s, a).rereads[id]) { HolderWasHolder(s, a, nk, id); }
    }
  }

  /** The caller's own Delete refuses every re-read of its key that is under way. */
  lemma DeleteLeavesNoHolder(s: Sys, a: Action, nk: NSKey)
    requires Inv(s) && Enabled(s, a) && PublishesDelete(s, a, nk) && !s.sc.gone
    ensures !HasHolder(Next(s, a), nk)
  {
    hide WriterStep, WriterEnabled, FeedEnabled, LinkEnabled, WorkerEnabled, Mailbox.Owned, Kept, Freshness.Sound;
    var s' := Next(s, a);
    InvKept(s, a);
    DeletesAreCounted(s, a, nk);
    WriterReReads(s, a.w);
    forall id | id in s'.rereads && s'.rereads[id].key == nk ensures !HoldsRow(s', s'.rereads[id]) {
      assert Causality.FencedByCounts(s', s'.rereads[id]) && Causality.FencedByCounts(s, s.rereads[id]);
    }
  }

  lemma NothingLateAppears(s: Sys, a: Action, nk: NSKey)
    requires Inv(s) && Enabled(s, a) && !Stores(a, nk) && !s.sc.gone && !Late(s, nk)
    ensures !Late(Next(s, a), nk)
  {
    hide Next, Inv, HasSet, HasHolder, RowAt, Owes, Rising, Quiet.Untouched;
    LiveUnlessStored(s, a, nk);
    if Live(s, nk).Some? {
      NoDeleteAppears(s, a, nk);
    } else {
      NoSetAppears(s, a, nk);
      if !Owes(s, nk) { NoHolderAppears(s, a, nk); }
      else if PublishesDelete(s, a, nk) { DeleteLeavesNoHolder(s, a, nk); }
      else { OwedStaysOwed(s, a, nk); }
    }
  }

  lemma NoDeleteAppears(s: Sys, a: Action, nk: NSKey)
    requires Enabled(s, a) && !Stores(a, nk) && !Owes(s, nk)
    ensures !Owes(Next(s, a), nk)
  {
    hide Next;
    forall id | id in Next(s, a).deletes ensures Next(s, a).deletes[id] != nk { DeletesChange(s, a, id); }
  }

  // ----- Every run to rest -----

  predicate NeverStored(run: seq<Action>, nk: NSKey) {
    forall i :: 0 <= i < |run| ==> !Stores(run[i], nk)
  }

  lemma GoneStays(s: Sys, a: Action)
    requires Enabled(s, a) && s.sc.gone
    ensures Next(s, a).sc.gone
  {
    hide WriterStep, FeedStep, LinkStep, WorkerStep, WriterEnabled, FeedEnabled, LinkEnabled, WorkerEnabled;
    match a
    case Writer(w) => WriterGone(s, w);
    case Feed(f) => FeedGone(s, f);
    case Link(l) => LinkGone(s, l);
    case Worker(k) => WorkerGone(s, k);
  }

  lemma WriterGone(s: Sys, w: WriterAction)
    requires WriterEnabled(s, w)
    ensures WriterStep(s, w).sc.gone == (s.sc.gone || w.Shutdown?)
  {
    hide Publish, Record, Promises;
  }

  lemma FeedGone(s: Sys, f: FeedAction)
    requires FeedEnabled(s, f)
    ensures FeedStep(s, f).sc.gone == s.sc.gone
  {
    hide Publish, Record, Publishable, SupersededByPublication;
  }

  lemma LinkGone(s: Sys, l: LinkAction)
    requires LinkEnabled(s, l)
    ensures LinkStep(s, l).sc.gone == s.sc.gone
  {
  }

  lemma WorkerGone(s: Sys, k: WorkerAction)
    requires WorkerEnabled(s, k)
    ensures WorkerStep(s, k).sc.gone == s.sc.gone
  {
    hide Publish, RowsAt, TakesRow, Notifies;
  }

  lemma {:induction false} GoneStaysThroughout(s: Sys, run: seq<Action>)
    requires Possible(s, run) && s.sc.gone
    ensures After(s, run).sc.gone
    decreases |run|
  {
    hide Next, Enabled;
    if |run| > 0 {
      GoneStays(s, run[0]);
      GoneStaysThroughout(Next(s, run[0]), run[1..]);
    }
  }

  lemma FineKept(s: Sys, t: Trail, a: Action, nk: NSKey)
    requires Inv(s) && TrailOk(s, t, nk) && Enabled(s, a) && Fine(s, t, nk) && !s.sc.gone && !LandsLate(s, t, a, nk)
    ensures Fine(Next(s, a), Observe(s, t, a, nk), nk)
  {
    hide Inv, Fine, Next, Observe, Forewarned, RemovalsLogged, DecisionOf, LandsLate;
    if !DecisionOf(s, t, a, nk).Silent? { DecidingKeepsFine(s, t, a, nk); }
    else if Stores(a, nk) { StoringUnsettles(s, t, a, nk); }
    else { SilentKeepsFine(s, t, a, nk); }
  }

  lemma StoringUnsettles(s: Sys, t: Trail, a: Action, nk: NSKey)
    requires Enabled(s, a) && Stores(a, nk) && t.settled <= |s.log| && DecisionOf(s, t, a, nk).Silent?
    ensures !Settled(Next(s, a), Observe(s, t, a, nk), nk)
    ensures Fine(Next(s, a), Observe(s, t, a, nk), nk)
  {
    hide DecisionOf, Answer;
    WriterLog(s, a.w);
    assert Next(s, a).log[|s.log|].key == nk;
  }

  /**
   Every way off the store. A step leaves a key that was where the store has it settled off the store if and only
   if it lands late, whatever else the step may be: a write, a delete, a notice, a reconcile, a lost connection.
   */
  lemma OnlyLateLandingsLeaveTheStore(s: Sys, t: Trail, a: Action, nk: NSKey)
    requires Reached(s, t, nk) && Enabled(s, a) && !s.sc.gone && Fine(s, t, nk) && Rising(s.log, nk)
    ensures !Fine(Next(s, a), Observe(s, t, a, nk), nk) <==> LandsLate(s, t, a, nk)
  {
    hide Inv, TrailOk, Fine, Next, Observe, LandsLate, Rising;
    ReachedOk(s, t, nk);
    if LandsLate(s, t, a, nk) { LateLandingIsOff(s, t, a, nk); }
    else { OkMeans(s, t, nk); FineKept(s, t, a, nk); }
  }

  lemma OkMeans(s: Sys, t: Trail, nk: NSKey)
    requires TrailOk(s, t, nk)
    ensures RemovalsLogged(s, t, nk) && Forewarned(s, t, nk) && t.settled <= |s.log|
  {
  }

  lemma OffIsNotFine(s: Sys, t: Trail, nk: NSKey)
    requires Settled(s, t, nk) && Rising(s.log, nk) && (Live(s, nk).Some? || !Owes(s, nk)) && OffStore(s, nk)
    ensures !Fine(s, t, nk)
  {
  }

  lemma LateLandingIsOff(s: Sys, t: Trail, a: Action, nk: NSKey)
    requires Inv(s) && TrailOk(s, t, nk) && Enabled(s, a) && !s.sc.gone && Rising(s.log, nk) && LandsLate(s, t, a, nk)
    ensures !Fine(Next(s, a), Observe(s, t, a, nk), nk)
  {
    hide Next, Kept, Rising, Rows, Forewarned, Mailbox.Owned, Causality.Causal, Freshness.Sound, Owes, Enabled,
      FeedDecides, WorkerDecides, Observe, Fine;
    var d, s', t' := DecisionOf(s, t, a, nk), Next(s, a), Observe(s, t, a, nk);
    DecisionIsHonest(s, t, a, nk);
    DecisionsAreNotStores(s, t, a, nk);
    StepEffect(s, t, a, nk);
    SettledOnlyGrows(s, t, a, nk);
    assert Settled(s', t', nk) && Live(s', nk) == Live(s, nk);
    if Live(s, nk).Some? {
      assert d.OnAbsence?;
      OlderRow(s, nk, |s.log|);
    } else {
      OlderRow(s, nk, d.at);
      NoDeleteAppears(s, a, nk);
    }
    assert OffStore(s', nk);
    OffIsNotFine(s', t', nk);
  }

  /** With nothing late under way, no run that stores nothing under the key can take it off the store. */
  lemma {:induction false} RunKeepsFine(s: Sys, t: Trail, run: seq<Action>, nk: NSKey)
    requires Inv(s) && TrailOk(s, t, nk) && Fine(s, t, nk) && !Late(s, nk)
    requires Possible(s, run) && NeverStored(run, nk) && !After(s, run).sc.gone
    ensures Fine(After(s, run), TrailAfter(s, t, run, nk), nk)
    decreases |run|
  {
    hide Inv, TrailOk, Fine, Late, Next, Enabled, Observe, Stores, LandsLate;
    if |run| > 0 {
      if s.sc.gone { GoneStaysThroughout(s, run); }
      InvKept(s, run[0]);
      TrailKept(s, t, run[0], nk);
      if LandsLate(s, t, run[0], nk) { LandsLateIsLate(s, t, run[0], nk); }
      FineKept(s, t, run[0], nk);
      NothingLateAppears(s, run[0], nk);
      forall i | 0 <= i < |run[1..]| ensures !Stores(run[1..][i], nk) { assert run[1..][i] == run[i + 1]; }
      RunKeepsFine(Next(s, run[0]), Observe(s, t, run[0], nk), run[1..], nk);
    }
  }

  /** Somewhere along the run, while the scope was open, something landed late on the key. */
  ghost predicate LandedLate(s: Sys, t: Trail, run: seq<Action>, nk: NSKey)
    requires Possible(s, run)
    decreases |run|
  {
    |run| > 0 && (LandsLate(s, t, run[0], nk) || LandedLate(Next(s, run[0]), Observe(s, t, run[0], nk), run[1..], nk))
  }

  /** A run in which nothing lands late on the key leaves it with the store, whatever the run stores and deletes. */
  lemma {:induction false} OffOnlyIfLandedLate(s: Sys, t: Trail, run: seq<Action>, nk: NSKey)
    requires Inv(s) && TrailOk(s, t, nk) && Fine(s, t, nk) && Possible(s, run) && !After(s, run).sc.gone
    ensures !LandedLate(s, t, run, nk) ==> Fine(After(s, run), TrailAfter(s, t, run, nk), nk)
    decreases |run|
  {
    hide Inv, TrailOk, Fine, Next, Enabled, Observe, LandsLate;
    if |run| > 0 && !LandedLate(s, t, run, nk) {
      if s.sc.gone { GoneStaysThroughout(s, run); }
      InvKept(s, run[0]);
      TrailKept(s, t, run[0], nk);
      FineKept(s, t, run[0], nk);
      OffOnlyIfLandedLate(Next(s, run[0]), Observe(s, t, run[0], nk), run[1..], nk);
    }
  }

  // ----- What a confirmed scope has settled -----

  /** The reconcile under way has settled the keys it went over, or skipped them. */
  predicate GoneOver(s: Sys, t: Trail, nk: NSKey) {
    (s.worker.Applying? && s.worker.arm.reconcile == s.sc.reconcileGen && nk in s.defaults
     && nk !in s.worker.rows && nk !in s.worker.absent) ==>
      t.skipped || t.settled >= s.worker.at
  }

  /** And so has the one that confirmed the scope. */
  predicate Passed(s: Sys, t: Trail, nk: NSKey) {
    !s.sc.stale ==>
      && s.sc.reconcileGen in s.armedLog && s.armedLog[s.sc.reconcileGen] <= t.listed
      && (nk in s.defaults ==> t.skipped || t.settled >= t.listed)
  }

  lemma SettledOnlyGrows(s: Sys, t: Trail, a: Action, nk: NSKey)
    requires Enabled(s, a)
    ensures Observe(s, t, a, nk).settled >= t.settled
    ensures !GoesOver(a, nk) ==> Observe(s, t, a, nk).skipped == t.skipped
    ensures a != Worker(Finish) ==> Observe(s, t, a, nk).listed == t.listed
  {
    hide DecisionOf, Answer;
  }

  lemma IngressPasses(s: Sys, t: Trail, a: Action, nk: NSKey)
    requires Enabled(s, a) && (a.Writer? || a.Feed?) && GoneOver(s, t, nk) && Passed(s, t, nk)
    ensures GoneOver(Next(s, a), Observe(s, t, a, nk), nk) && Passed(Next(s, a), Observe(s, t, a, nk), nk)
  {
    hide WriterStep, FeedStep, WriterEnabled, FeedEnabled, Observe;
    SettledOnlyGrows(s, t, a, nk);
    if a.Writer? { Freshness.WritersLeaveEvidence(s, a.w); WriterKeepsArmings(s, a.w); }
    else { Freshness.FeedLeavesEvidence(s, a.f); FeedOwesNothing(s, a.f); }
  }

  lemma LinkPasses(s: Sys, t: Trail, l: LinkAction, nk: NSKey)
    requires Enabled(s, Link(l)) && GoneOver(s, t, nk) && Passed(s, t, nk) && Mailbox.Owned(s)
    ensures GoneOver(Next(s, Link(l)), Observe(s, t, Link(l), nk), nk)
    ensures Passed(Next(s, Link(l)), Observe(s, t, Link(l), nk), nk)
  {
    hide Observe;
    SettledOnlyGrows(s, t, Link(l), nk);
  }

  lemma WorkerPasses(s: Sys, t: Trail, k: WorkerAction, nk: NSKey)
    requires Enabled(s, Worker(k)) && GoneOver(s, t, nk) && Passed(s, t, nk)
    requires WorkerHonest(s) && Quiet.AwaitingIsStale(s)
    ensures GoneOver(Next(s, Worker(k)), Observe(s, t, Worker(k), nk), nk)
    ensures Passed(Next(s, Worker(k)), Observe(s, t, Worker(k), nk), nk)
  {
    hide SnapshotRow, AbsentKey, RowsAt, TakesRow, Notifies, KeepsCached, AbsenceAgrees, Answer;
  }

  ghost predicate PassedSoFar(s: Sys, t: Trail, nk: NSKey) {
    Quiet.AwaitingIsStale(s) && GoneOver(s, t, nk) && Passed(s, t, nk)
  }

  lemma PassedKept(s: Sys, t: Trail, a: Action, nk: NSKey)
    requires Inv(s) && PassedSoFar(s, t, nk) && Enabled(s, a)
    ensures PassedSoFar(Next(s, a), Observe(s, t, a, nk), nk)
  {
    hide Quiet.AwaitingIsStale, GoneOver, Passed, Mailbox.Owned, Kept, Causality.Causal, Freshness.Sound, Next, Observe;
    Quiet.AwaitingKept(s, a);
    WorkerHonestNow(s);
    match a
    case Writer(_) => IngressPasses(s, t, a, nk);
    case Feed(_) => IngressPasses(s, t, a, nk);
    case Link(l) => LinkPasses(s, t, l, nk);
    case Worker(k) => WorkerPasses(s, t, k, nk);
  }

  lemma {:induction false} RunKeepsPassed(s: Sys, t: Trail, run: seq<Action>, nk: NSKey)
    requires Inv(s) && PassedSoFar(s, t, nk) && Possible(s, run)
    ensures PassedSoFar(After(s, run), TrailAfter(s, t, run, nk), nk)
    decreases |run|
  {
    hide Inv, PassedSoFar, Next, Enabled, Observe;
    if |run| > 0 {
      InvKept(s, run[0]);
      PassedKept(s, t, run[0], nk);
      RunKeepsPassed(Next(s, run[0]), Observe(s, t, run[0], nk), run[1..], nk);
    }
  }

  /**
   What not stale is worth. In every reachable state of a scope that does not report itself stale, each registered
   key has had every write stored before the newest resync reflected in a decision, unless the reconcile that
   confirmed the scope skipped it: then something else had decided the key since the window opened, maybe on less.
   */
  lemma ConfirmedIsSettledUnlessSkipped(s: Sys, t: Trail, nk: NSKey)
    requires Reached(s, t, nk) && !s.sc.stale && nk in s.defaults
    ensures s.sc.reconcileGen in s.armedLog
    ensures t.skipped || t.settled >= s.armedLog[s.sc.reconcileGen]
  {
    hide Next, Enabled, Observe;
    var defaults: map<NSKey, Value>, run: seq<Action> :|
      Possible(Init(defaults), run) && After(Init(defaults), run) == s
      && TrailAfter(Init(defaults), NoTrail, run, nk) == t;
    InitInv(defaults);
    RunKeepsPassed(Init(defaults), NoTrail, run, nk);
  }
}
