/**
 The engine as one key sees it. Every step of the protocol is one of eight events for a key, and an automaton of
 three fields says what each event does; the scope's maps, sets and counters refine it, key by key, in every step.
 */
module OneKey {
  import opened Types
  import opened Fence
  import opened Protocol
  import opened Mailbox

  /** What the scope holds about one key: its entry, its two counters, and whether it is marked unconfirmed. */
  datatype Key = Key(entry: Option<Entry>, deletes: nat, publications: nat, marked: bool)

  datatype Event =
    | Nothing
    | RowLands(row: Row, value: Value)      // read back a moment ago, or just written by the caller
    | RowDoubted(row: Row, value: Value)    // off a photograph, for a key the feed could not read since
    | DefaultLands(value: Value)
    | DeleteLands(value: Value)             // the caller's own Delete: the default, and a delete counted
    | DeleteSeen                            // the feed's notice, counted at arrival
    | Spent                                 // nobody could say what the key holds
    | Agreed                                // the photograph lacks the key, and the cache has its default

  /** A row against the entry in force: a first, newer or revisionless row, or another document at one revision. */
  predicate Wins(entry: Option<Entry>, row: Row, value: Value) {
    entry.None? || row.revision == 0 || row.revision > entry.value.revision
    || (row.revision == entry.value.revision && value != entry.value.value
        && !(|row.raw| > 0 && row.raw == entry.value.raw))
  }

  function TakeRow(k: Key, row: Row, value: Value): Key {
    if Wins(k.entry, row, value) then
      k.(entry := Some(Entry(value, row.raw, row.revision, row.updatedAt, row.updatedBy)),
         publications := k.publications + 1, marked := false)
    else if row.revision < k.entry.value.revision then k.(marked := false)
    else
      var e := k.entry.value;
      var raw := if |row.raw| > 0 then row.raw else e.raw;
      k.(entry := Some(Entry(e.value, raw, e.revision, row.updatedAt, row.updatedBy)), marked := false)
  }

  function TakeDefault(k: Key, value: Value): Key {
    k.(entry := Some(Entry(value, [], 0, 0, "")), publications := k.publications + 1, marked := false)
  }

  function Undergo(k: Key, e: Event): Key {
    match e
    case Nothing => k
    case RowLands(row, value) => TakeRow(k, row, value)
    case RowDoubted(row, value) => TakeRow(k, row, value).(marked := true)
    case DefaultLands(value) => TakeDefault(k, value)
    case DeleteLands(value) => TakeDefault(k, value).(deletes := k.deletes + 1)
    case DeleteSeen => k.(deletes := k.deletes + 1)
    case Spent => k.(marked := true)
    case Agreed => k.(marked := false)
  }

  function KeyOf(sc: Scope, nk: NSKey): Key {
    Key(if nk in sc.entries then Some(sc.entries[nk]) else None,
        if nk in sc.fences then sc.fences[nk].deletes else 0,
        if nk in sc.fences then sc.fences[nk].publications else 0,
        nk in sc.unconfirmed)
  }

  // ----- Which event a step is -----

  /** The counters a re-read carries, against the key's now. */
  predicate NoDeleteSince(s: Sys, nk: NSKey, seen: KeyFence) { KeyOf(s.sc, nk).deletes == seen.deletes }

  predicate NothingSince(s: Sys, nk: NSKey, seen: KeyFence) {
    NoDeleteSince(s, nk, seen) && KeyOf(s.sc, nk).publications == seen.publications
  }

  function WriterEvent(s: Sys, w: WriterAction, nk: NSKey): Event
    requires WriterEnabled(s, w)
  {
    match w
    case SetPublish(id, value) =>
      if s.sets[id].key == nk && value.Some? && !s.sc.gone then RowLands(s.sets[id].row, value.value) else Nothing
    case DeletePublish(id) => if s.deletes[id] == nk && !s.sc.gone then DeleteLands(s.defaults[nk]) else Nothing
    case _ => Nothing
  }

  function FeedEvent(s: Sys, f: FeedAction, nk: NSKey): Event
    requires FeedEnabled(s, f)
  {
    match f
    case DeleteArrives(key) => if key == nk then DeleteSeen else Nothing
    case Concede(id) =>
      if s.rereads[id].key == nk && NothingSince(s, nk, s.rereads[id].origin) then Spent else Nothing
    case Empty(id) =>
      var op := s.rereads[id];
      if op.key != nk then Nothing
      else if op.deleted then
        if NothingSince(s, nk, op.fence) && !s.sc.gone then DefaultLands(s.defaults[nk]) else Nothing
      else if op.retried && NothingSince(s, nk, op.origin) then Spent
      else Nothing
    case IngestRow(id, value) =>
      var op := s.rereads[id];
      if op.key == nk && value.Some? && NoDeleteSince(s, nk, op.fence) && !s.sc.gone
      then RowLands(op.phase.found, value.value) else Nothing
    case _ => Nothing
  }

  /** The reconcile under way is still the newest one's. */
  predicate Owns(s: Sys)
    requires s.worker.Applying?
  {
    s.worker.arm.reconcile == s.sc.reconcileGen
  }

  predicate Answered(s: Sys, nk: NSKey)
    requires s.worker.Applying?
  {
    s.worker.arm.reconcile in s.sc.windows && nk in s.sc.windows[s.worker.arm.reconcile].touched
  }

  predicate Unanswerable(s: Sys, nk: NSKey)
    requires s.worker.Applying?
  {
    s.worker.arm.reconcile in s.sc.windows && nk in s.sc.windows[s.worker.arm.reconcile].unusable
  }

  function WorkerEvent(s: Sys, k: WorkerAction, nk: NSKey): Event
    requires WorkerEnabled(s, k)
  {
    match k
    case ApplyRow(key, prepared) =>
      if key != nk || !Owns(s) || Answered(s, nk) then Nothing
      else
        var row := s.worker.snapshot[nk];
        if prepared.Usable? then
          if s.sc.gone then if Unanswerable(s, nk) then Spent else Nothing
          else if Unanswerable(s, nk) then RowDoubted(row, prepared.value) else RowLands(row, prepared.value)
        else if prepared.Rejected? && nk !in s.sc.entries && !s.sc.gone then DefaultLands(s.defaults[nk])
        else Nothing
    case ApplyAbsent(key) =>
      if key != nk || !Owns(s) || Answered(s, nk) then Nothing
      else if nk !in s.sc.entries then if s.sc.gone then Nothing else DefaultLands(s.defaults[nk])
      else if Unanswerable(s, nk) then Nothing
      else if s.sc.entries[nk].revision == 0 && s.sc.entries[nk].value == s.defaults[nk] then Agreed
      else if s.sc.gone then Nothing else DefaultLands(s.defaults[nk])
    case _ => Nothing
  }

  function EventOf(s: Sys, a: Action, nk: NSKey): Event
    requires Enabled(s, a)
  {
    match a
    case Writer(w) => WriterEvent(s, w, nk)
    case Feed(f) => FeedEvent(s, f, nk)
    case Link(_) => Nothing
    case Worker(k) => WorkerEvent(s, k, nk)
  }

  // ----- The refinement -----

  lemma PublishesRow(sc: Scope, key: NSKey, row: Row, value: Value, nk: NSKey)
    requires !sc.gone
    ensures KeyOf(Publish(sc, RowPublication(key, row, value)), nk)
      == if key == nk then TakeRow(KeyOf(sc, nk), row, value) else KeyOf(sc, nk)
  {
  }

  lemma PublishesDefault(sc: Scope, key: NSKey, value: Value, deleted: bool, nk: NSKey)
    requires !sc.gone
    ensures KeyOf(Publish(sc, DefaultPublication(key, value, deleted)), nk)
      == if key != nk then KeyOf(sc, nk)
         else Undergo(KeyOf(sc, nk), if deleted then DeleteLands(value) else DefaultLands(value))
  {
  }

  lemma PublishesNothing(sc: Scope, pub: Publication)
    requires sc.gone
    ensures Publish(sc, pub) == sc
  {
  }

  /** Subscribers are told of a publication exactly when it counts: it moves its key's counter, and no other key's. */
  lemma NotifiesWhenCounted(sc: Scope, pub: Publication, nk: NSKey)
    ensures KeyOf(Publish(sc, pub), nk).publications
      == KeyOf(sc, nk).publications + if Notifies(sc, pub) && nk == pub.key then 1 else 0
  {
  }

  lemma Records(sc: Scope, key: NSKey, usable: bool, nk: NSKey)
    ensures KeyOf(Record(sc, key, usable), nk) == KeyOf(sc, nk)
  {
  }

  lemma Ingests(sc: Scope, key: NSKey, fence: FeedFence, row: Row, value: Option<Value>, nk: NSKey)
    ensures KeyOf(Ingest(sc, key, fence, PreparedRow(key, row, value)), nk)
      == if key == nk && value.Some? && !sc.gone && (fence.Armed? ==> KeyOf(sc, nk).deletes == fence.seen.deletes)
         then TakeRow(KeyOf(sc, nk), row, value.value) else KeyOf(sc, nk)
  {
    hide Publish, Record, TakeRow;
    var pub := PreparedRow(key, row, value);
    var ok := Publishable(sc, key, fence, pub);
    if ok { PublishesRow(sc, key, row, value.value, nk); }
    Records(if ok then Publish(sc, pub.value) else sc, key, ok, nk);
  }

  lemma WriterRefines(s: Sys, w: WriterAction, nk: NSKey)
    requires WriterEnabled(s, w)
    ensures KeyOf(WriterStep(s, w).sc, nk) == Undergo(KeyOf(s.sc, nk), WriterEvent(s, w, nk))
  {
    hide Publish, Record, Ingest, TakeRow, TakeDefault, Promises;
    match w
    case SetFence(id) => Records(s.sc, s.sets[id].key, false, nk);
    case SetPublish(id, value) => Ingests(s.sc, s.sets[id].key, Unarmed, s.sets[id].row, value, nk);
    case DeletePublish(id) =>
      var key := s.deletes[id];
      if !s.sc.gone {
        PublishesDefault(s.sc, key, s.defaults[key], true, nk);
        Records(Publish(s.sc, DefaultPublication(key, s.defaults[key], true)), key, true, nk);
      }
    case _ =>
  }

  lemma AbsentDeletes(sc: Scope, key: NSKey, seen: KeyFence, def: Value, nk: NSKey)
    ensures KeyOf(AbsentDelete(sc, key, Armed(seen), def), nk)
      == if key == nk && KeyOf(sc, nk).deletes == seen.deletes && KeyOf(sc, nk).publications == seen.publications
            && !sc.gone
         then TakeDefault(KeyOf(sc, nk), def) else KeyOf(sc, nk)
  {
    hide Publish, Record, TakeDefault;
    if !sc.gone {
      PublishesDefault(sc, key, def, false, nk);
      Records(Publish(sc, DefaultPublication(key, def, false)), key, true, nk);
    }
  }

  lemma Gives(sc: Scope, key: NSKey, origin: KeyFence, nk: NSKey)
    ensures KeyOf(RecordUnconfirmed(sc, key, Armed(origin)), nk)
      == if key == nk && KeyOf(sc, nk).deletes == origin.deletes && KeyOf(sc, nk).publications == origin.publications
         then KeyOf(sc, nk).(marked := true) else KeyOf(sc, nk)
  {
  }

  lemma SeesDelete(sc: Scope, key: NSKey, nk: NSKey)
    ensures KeyOf(FeedDelete(sc, key), nk)
      == if key == nk then KeyOf(sc, nk).(deletes := KeyOf(sc, nk).deletes + 1) else KeyOf(sc, nk)
  {
  }

  lemma FeedRefines(s: Sys, f: FeedAction, nk: NSKey)
    requires FeedEnabled(s, f)
    ensures KeyOf(FeedStep(s, f).sc, nk) == Undergo(KeyOf(s.sc, nk), FeedEvent(s, f, nk))
  {
    hide Record, Ingest, FeedDelete, AbsentDelete, RecordUnconfirmed, TakeRow, TakeDefault, Publishable, Notifies,
      KeyOf;
    match f
    case DeleteArrives(key) => SeesDelete(s.sc, key, nk);
    case GiveUp(id) => Records(s.sc, s.rereads[id].key, false, nk);
    case Concede(id) => Gives(s.sc, s.rereads[id].key, s.rereads[id].origin, nk);
    case Empty(id) =>
      var op := s.rereads[id];
      AbsentDeletes(s.sc, op.key, op.fence, s.defaults[op.key], nk);
      Gives(s.sc, op.key, op.origin, nk);
    case FenceRow(id) => Records(s.sc, s.rereads[id].key, false, nk);
    case IngestRow(id, value) =>
      var op := s.rereads[id];
      Ingests(s.sc, op.key, Armed(op.fence), op.phase.found, value, nk);
    case _ =>
  }

  lemma ForeignRow(sc: Scope, arm: Arming, key: NSKey, row: Row, prepared: Prepared, def: Option<Value>, nk: NSKey)
    requires key != nk
    ensures KeyOf(SnapshotRow(sc, arm, key, row, prepared, def), nk) == KeyOf(sc, nk)
  {
  }

  lemma UsableRow(sc: Scope, arm: Arming, nk: NSKey, row: Row, value: Value, def: Option<Value>)
    ensures KeyOf(SnapshotRow(sc, arm, nk, row, Usable(value), def), nk)
      == if sc.reconcileGen != arm.reconcile || (arm.reconcile in sc.windows && nk in sc.windows[arm.reconcile].touched)
         then KeyOf(sc, nk)
         else
           var k := if sc.gone then KeyOf(sc, nk) else TakeRow(KeyOf(sc, nk), row, value);
           if arm.reconcile in sc.windows && nk in sc.windows[arm.reconcile].unusable then k.(marked := true) else k
  {
    hide Publish, TakeRow;
    if sc.gone { PublishesNothing(sc, RowPublication(nk, row, value)); } else { PublishesRow(sc, nk, row, value, nk); }
  }

  lemma UnusableRow(sc: Scope, arm: Arming, nk: NSKey, row: Row, prepared: Prepared, def: Option<Value>)
    requires !prepared.Usable?
    ensures KeyOf(SnapshotRow(sc, arm, nk, row, prepared, def), nk)
      == if sc.reconcileGen != arm.reconcile || (arm.reconcile in sc.windows && nk in sc.windows[arm.reconcile].touched)
            || prepared.Unregistered? || nk in sc.entries || def.None? || sc.gone
         then KeyOf(sc, nk) else TakeDefault(KeyOf(sc, nk), def.value)
  {
    hide Publish, TakeDefault;
    if def.Some? {
      if sc.gone { PublishesNothing(sc, DefaultPublication(nk, def.value, false)); }
      else { PublishesDefault(sc, nk, def.value, false, nk); }
    }
  }

  lemma RowRefines(s: Sys, key: NSKey, prepared: Prepared, nk: NSKey)
    requires WorkerEnabled(s, ApplyRow(key, prepared))
    ensures KeyOf(WorkerStep(s, ApplyRow(key, prepared)).sc, nk)
      == Undergo(KeyOf(s.sc, nk), WorkerEvent(s, ApplyRow(key, prepared), nk))
  {
    hide SnapshotRow, TakeRow, TakeDefault, Notifies, KeyOf, TakesRow;
    var row := s.worker.snapshot[key];
    if key != nk { ForeignRow(s.sc, s.worker.arm, key, row, prepared, Default(s, key), nk); }
    else if prepared.Usable? { UsableRow(s.sc, s.worker.arm, nk, row, prepared.value, Default(s, nk)); }
    else { UnusableRow(s.sc, s.worker.arm, nk, row, prepared, Default(s, nk)); }
  }

  lemma ForeignAbsence(sc: Scope, arm: Arming, key: NSKey, def: Value, nk: NSKey)
    requires key != nk
    ensures KeyOf(AbsentKey(sc, arm, key, def), nk) == KeyOf(sc, nk)
  {
  }

  lemma Absence(sc: Scope, arm: Arming, nk: NSKey, def: Value)
    ensures KeyOf(AbsentKey(sc, arm, nk, def), nk)
      == if sc.reconcileGen != arm.reconcile || (arm.reconcile in sc.windows && nk in sc.windows[arm.reconcile].touched)
         then KeyOf(sc, nk)
         else if nk in sc.entries && arm.reconcile in sc.windows && nk in sc.windows[arm.reconcile].unusable
         then KeyOf(sc, nk)
         else if nk in sc.entries && sc.entries[nk].revision == 0 && sc.entries[nk].value == def
         then KeyOf(sc, nk).(marked := false)
         else if sc.gone then KeyOf(sc, nk) else TakeDefault(KeyOf(sc, nk), def)
  {
    hide Publish, TakeDefault;
    if sc.gone { PublishesNothing(sc, DefaultPublication(nk, def, false)); }
    else { PublishesDefault(sc, nk, def, false, nk); }
  }

  lemma AbsentRefines(s: Sys, key: NSKey, nk: NSKey)
    requires WorkerEnabled(s, ApplyAbsent(key))
    ensures KeyOf(WorkerStep(s, ApplyAbsent(key)).sc, nk)
      == Undergo(KeyOf(s.sc, nk), WorkerEvent(s, ApplyAbsent(key), nk))
  {
    hide AbsentKey, TakeDefault, KeyOf;
    if key != nk { ForeignAbsence(s.sc, s.worker.arm, key, s.defaults[key], nk); }
    else { Absence(s.sc, s.worker.arm, nk, s.defaults[nk]); }
  }

  lemma WorkerRefines(s: Sys, k: WorkerAction, nk: NSKey)
    requires WorkerEnabled(s, k)
    ensures KeyOf(WorkerStep(s, k).sc, nk) == Undergo(KeyOf(s.sc, nk), WorkerEvent(s, k, nk))
  {
    hide Undergo, RowsAt;
    match k
    case ApplyRow(key, prepared) => RowRefines(s, key, prepared, nk);
    case ApplyAbsent(key) => AbsentRefines(s, key, nk);
    case _ => NothingTaken(KeyOf(s.sc, nk));
  }

  lemma NothingTaken(k: Key)
    ensures Undergo(k, Nothing) == k
  {
  }

  lemma LinkLeavesKeys(s: Sys, l: LinkAction, nk: NSKey)
    requires LinkEnabled(s, l)
    ensures KeyOf(LinkStep(s, l).sc, nk) == KeyOf(s.sc, nk)
  {
  }

  /** Every step of the protocol, in any state, is to every key the one event it is. */
  lemma EveryStepIsOneEvent(s: Sys, a: Action, nk: NSKey)
    requires Enabled(s, a)
    ensures KeyOf(Next(s, a).sc, nk) == Undergo(KeyOf(s.sc, nk), EventOf(s, a, nk))
  {
    hide Undergo, KeyOf, WriterEvent, FeedEvent, WorkerEvent, WriterStep, FeedStep, LinkStep, WorkerStep, WriterEnabled,
      FeedEnabled, LinkEnabled, WorkerEnabled;
    NothingTaken(KeyOf(s.sc, nk));
    match a
    case Writer(w) => WriterRefines(s, w, nk);
    case Feed(f) => FeedRefines(s, f, nk);
    case Link(l) => LinkLeavesKeys(s, l, nk);
    case Worker(k) => WorkerRefines(s, k, nk);
  }

  // ----- Over runs -----

  ghost function Events(s: Sys, run: seq<Action>, nk: NSKey): seq<Event>
    requires Possible(s, run)
    decreases |run|
  {
    if |run| == 0 then [] else [EventOf(s, run[0], nk)] + Events(Next(s, run[0]), run[1..], nk)
  }

  function UndergoAll(k: Key, events: seq<Event>): Key
    decreases |events|
  {
    if |events| == 0 then k else UndergoAll(Undergo(k, events[0]), events[1..])
  }

  /** And so is every run: what the scope holds of a key is what the automaton makes of the key's own events. */
  lemma {:induction false} EveryRunIsItsEvents(s: Sys, run: seq<Action>, nk: NSKey)
    requires Possible(s, run)
    ensures KeyOf(After(s, run).sc, nk) == UndergoAll(KeyOf(s.sc, nk), Events(s, run, nk))
    decreases |run|
  {
    hide Next, Enabled, EventOf, Undergo, KeyOf;
    if |run| > 0 {
      EveryStepIsOneEvent(s, run[0], nk);
      EveryRunIsItsEvents(Next(s, run[0]), run[1..], nk);
      assert ([EventOf(s, run[0], nk)] + Events(Next(s, run[0]), run[1..], nk))[1..]
        == Events(Next(s, run[0]), run[1..], nk);
    }
  }

  // ----- What an open window hears -----

  datatype Outcome = Unheard | Answer | Failure

  /** What a step has to say about a key to a reconcile that holds a photograph. */
  function WriterOutcome(s: Sys, w: WriterAction, nk: NSKey): Outcome
    requires WriterEnabled(s, w)
  {
    match w
    case SetFence(id) => if s.sets[id].key == nk then Failure else Unheard
    case SetPublish(id, value) =>
      if s.sets[id].key != nk then Unheard else if value.Some? && !s.sc.gone then Answer else Failure
    case DeletePublish(id) => if s.deletes[id] == nk && !s.sc.gone then Answer else Unheard
    case _ => Unheard
  }

  function FeedOutcome(s: Sys, f: FeedAction, nk: NSKey): Outcome
    requires FeedEnabled(s, f)
  {
    match f
    case DeleteArrives(key) => if key == nk then Answer else Unheard
    case GiveUp(id) => if s.rereads[id].key == nk then Failure else Unheard
    case Empty(id) =>
      var op := s.rereads[id];
      if op.key == nk && op.deleted && NothingSince(s, nk, op.fence) && !s.sc.gone then Answer else Unheard
    case FenceRow(id) => if s.rereads[id].key == nk then Failure else Unheard
    case IngestRow(id, value) =>
      var op := s.rereads[id];
      if op.key != nk then Unheard
      else if value.Some? && NoDeleteSince(s, nk, op.fence) && !s.sc.gone then Answer else Failure
    case _ => Unheard
  }

  function OutcomeOf(s: Sys, a: Action, nk: NSKey): Outcome
    requires Enabled(s, a)
  {
    match a
    case Writer(w) => WriterOutcome(s, w, nk)
    case Feed(f) => FeedOutcome(s, f, nk)
    case _ => Unheard
  }

  /** The window has an answer for the key; the last it heard of the key was a failure. */
  datatype Heard = Heard(answered: bool, failing: bool)

  function Hear(h: Heard, o: Outcome): Heard {
    match o
    case Unheard => h
    case Answer => Heard(true, false)
    case Failure => Heard(h.answered, true)
  }

  function HeardIn(w: Window, nk: NSKey): Heard { Heard(nk in w.touched, nk in w.unusable) }

  /** Every window that stays open hears the outcome. */
  predicate AllHear(sc: Scope, sc': Scope, o: Outcome, nk: NSKey) {
    forall g :: g in sc.windows && g in sc'.windows ==>
      HeardIn(sc'.windows[g], nk) == Hear(HeardIn(sc.windows[g], nk), o)
  }

  lemma RecordHeard(sc: Scope, sc': Scope, key: NSKey, usable: bool, nk: NSKey)
    requires sc'.windows == sc.windows
    ensures AllHear(sc, Record(sc', key, usable), if key != nk then Unheard else if usable then Answer else Failure, nk)
  {
  }

  lemma WriterHeard(s: Sys, w: WriterAction, nk: NSKey)
    requires WriterEnabled(s, w)
    ensures AllHear(s.sc, WriterStep(s, w).sc, WriterOutcome(s, w, nk), nk)
  {
    hide Publish, Record, Promises, AllHear;
    StillHeard(s.sc, s.sc, nk);
    match w
    case SetFence(id) => RecordHeard(s.sc, s.sc, s.sets[id].key, false, nk);
    case SetPublish(id, value) =>
      var op := s.sets[id];
      var ok := value.Some? && !s.sc.gone;
      RecordHeard(s.sc, if ok then Publish(s.sc, RowPublication(op.key, op.row, value.value)) else s.sc, op.key, ok,
                  nk);
    case DeletePublish(id) =>
      var key := s.deletes[id];
      RecordHeard(s.sc, Publish(s.sc, DefaultPublication(key, s.defaults[key], true)), key, true, nk);
    case Shutdown => StillHeard(s.sc, s.sc.(gone := true), nk);
    case _ =>
  }

  lemma StillHeard(sc: Scope, sc': Scope, nk: NSKey)
    requires forall g :: g in sc.windows && g in sc'.windows ==> sc'.windows[g] == sc.windows[g]
    ensures AllHear(sc, sc', Unheard, nk)
  {
  }

  lemma FeedHeard(s: Sys, f: FeedAction, nk: NSKey)
    requires FeedEnabled(s, f)
    ensures AllHear(s.sc, FeedStep(s, f).sc, FeedOutcome(s, f, nk), nk)
  {
    hide Publish, Record, AllHear, Notifies, RecordUnconfirmed;
    StillHeard(s.sc, s.sc, nk);
    match f
    case DeleteArrives(key) =>
      RecordHeard(s.sc, s.sc, key, true, nk);
      FeedDeleteWindows(s.sc, key);
      SameWindowsHear(s.sc, Record(s.sc, key, true), FeedDelete(s.sc, key), if key != nk then Unheard else Answer, nk);
    case GiveUp(id) => RecordHeard(s.sc, s.sc, s.rereads[id].key, false, nk);
    case Concede(id) =>
      UnconfirmedWindows(s.sc, s.rereads[id].key, Armed(s.rereads[id].origin));
      StillHeard(s.sc, FeedStep(s, f).sc, nk);
    case Empty(id) =>
      var op := s.rereads[id];
      UnconfirmedWindows(s.sc, op.key, Armed(op.origin));
      StillHeard(s.sc, RecordUnconfirmed(s.sc, op.key, Armed(op.origin)), nk);
      RecordHeard(s.sc, Publish(s.sc, DefaultPublication(op.key, s.defaults[op.key], false)), op.key, true, nk);
    case FenceRow(id) => RecordHeard(s.sc, s.sc, s.rereads[id].key, false, nk);
    case IngestRow(id, value) =>
      var op := s.rereads[id];
      var ok := value.Some? && KeyOf(s.sc, op.key).deletes == op.fence.deletes && !s.sc.gone;
      RecordHeard(s.sc, if ok then Publish(s.sc, RowPublication(op.key, op.phase.found, value.value)) else s.sc,
                  op.key, ok, nk);
    case _ =>
  }

  lemma FeedDeleteWindows(sc: Scope, key: NSKey)
    ensures FeedDelete(sc, key).windows == Record(sc, key, true).windows
  {
  }

  lemma UnconfirmedWindows(sc: Scope, key: NSKey, origin: FeedFence)
    ensures RecordUnconfirmed(sc, key, origin).windows == sc.windows
  {
  }

  lemma SameWindowsHear(sc: Scope, sc': Scope, sc'': Scope, o: Outcome, nk: NSKey)
    requires AllHear(sc, sc', o, nk) && sc''.windows == sc'.windows
    ensures AllHear(sc, sc'', o, nk)
  {
  }

  lemma LinkHeard(s: Sys, l: LinkAction, nk: NSKey)
    requires LinkEnabled(s, l) && Owned(s)
    ensures AllHear(s.sc, LinkStep(s, l).sc, Unheard, nk)
    ensures l.Resync? ==>
      var sc := LinkStep(s, l).sc;
      sc.reconcileGen in sc.windows && HeardIn(sc.windows[sc.reconcileGen], nk) == Heard(false, false)
  {
  }

  lemma WorkerHeard(s: Sys, k: WorkerAction, nk: NSKey)
    requires WorkerEnabled(s, k)
    ensures AllHear(s.sc, WorkerStep(s, k).sc, Unheard, nk)
  {
    hide SnapshotRow, AbsentKey, RowsAt, Notifies, TakesRow;
  }

  /** Every step, in any reachable state, is heard of a key by every open window, and a new window has heard nothing. */
  lemma EveryWindowHears(s: Sys, a: Action, nk: NSKey)
    requires Owned(s) && Enabled(s, a)
    ensures AllHear(s.sc, Next(s, a).sc, OutcomeOf(s, a, nk), nk)
    ensures a == Link(Resync) ==>
      var sc := Next(s, a).sc;
      sc.reconcileGen in sc.windows && HeardIn(sc.windows[sc.reconcileGen], nk) == Heard(false, false)
  {
    hide AllHear, WriterStep, FeedStep, LinkStep, WorkerStep, WriterEnabled, FeedEnabled, LinkEnabled, WorkerEnabled,
      WriterOutcome, FeedOutcome, Owned;
    match a
    case Writer(w) => WriterHeard(s, w, nk);
    case Feed(f) => FeedHeard(s, f, nk);
    case Link(l) => LinkHeard(s, l, nk);
    case Worker(k) => WorkerHeard(s, k, nk);
  }

  ghost function Outcomes(s: Sys, run: seq<Action>, nk: NSKey): seq<Outcome>
    requires Possible(s, run)
    decreases |run|
  {
    if |run| == 0 then [] else [OutcomeOf(s, run[0], nk)] + Outcomes(Next(s, run[0]), run[1..], nk)
  }

  function HearAll(h: Heard, outcomes: seq<Outcome>): Heard
    decreases |outcomes|
  {
    if |outcomes| == 0 then h else HearAll(Hear(h, outcomes[0]), outcomes[1..])
  }

  /** Generations only grow, and a window closed once is never opened again. */
  predicate OnlyGrows(sc: Scope, sc': Scope) {
    && sc'.reconcileGen >= sc.reconcileGen
    && forall g :: g in sc'.windows ==> g in sc.windows || g > sc.reconcileGen
  }

  lemma LinkOnlyGrows(s: Sys, l: LinkAction)
    requires LinkEnabled(s, l)
    ensures OnlyGrows(s.sc, LinkStep(s, l).sc)
  {
  }

  lemma WorkerOnlyGrows(s: Sys, k: WorkerAction)
    requires WorkerEnabled(s, k)
    ensures OnlyGrows(s.sc, WorkerStep(s, k).sc)
  {
    hide SnapshotRow, AbsentKey, RowsAt, Notifies, TakesRow;
  }

  lemma WindowsOnlyGrow(s: Sys, a: Action)
    requires Enabled(s, a)
    ensures OnlyGrows(s.sc, Next(s, a).sc)
  {
    hide SameMailbox, WriterStep, FeedStep, LinkStep, WorkerStep, WriterEnabled, FeedEnabled, LinkEnabled,
      WorkerEnabled;
    match a
    case Writer(w) => WritersLeaveMailbox(s, w); SameMailboxSays(s, Next(s, a));
    case Feed(f) => FeedLeavesMailbox(s, f); SameMailboxSays(s, Next(s, a));
    case Link(l) => LinkOnlyGrows(s, l);
    case Worker(k) => WorkerOnlyGrows(s, k);
  }

  lemma SameMailboxSays(s: Sys, s': Sys)
    requires SameMailbox(s, s')
    ensures s'.sc.windows.Keys == s.sc.windows.Keys && s'.sc.reconcileGen == s.sc.reconcileGen
  {
  }

  lemma {:induction false} ClosedStaysClosed(s: Sys, run: seq<Action>, g: nat)
    requires Possible(s, run) && g !in s.sc.windows && g <= s.sc.reconcileGen
    ensures g !in After(s, run).sc.windows
    decreases |run|
  {
    hide Next, Enabled;
    if |run| > 0 {
      WindowsOnlyGrow(s, run[0]);
      ClosedStaysClosed(Next(s, run[0]), run[1..], g);
    }
  }

  lemma OpenWindowsAreArmed(s: Sys, g: nat)
    requires Owned(s) && g in s.sc.windows
    ensures g <= s.sc.reconcileGen
  {
  }

  /** What a window that stayed open knows of a key is exactly what was said about the key since. */
  lemma {:induction false} AWindowKnowsWhatItHeard(s: Sys, run: seq<Action>, g: nat, nk: NSKey)
    requires Owned(s) && Possible(s, run) && g in s.sc.windows && g in After(s, run).sc.windows
    ensures HeardIn(After(s, run).sc.windows[g], nk) == HearAll(HeardIn(s.sc.windows[g], nk), Outcomes(s, run, nk))
    decreases |run|
  {
    hide Owned, Next, Enabled, OutcomeOf, Hear, HeardIn;
    if |run| > 0 {
      var s1 := Next(s, run[0]);
      OwnedKept(s, run[0]);
      OpenWindowsAreArmed(s, g);
      WindowsOnlyGrow(s, run[0]);
      if g !in s1.sc.windows { ClosedStaysClosed(s1, run[1..], g); }
      EveryWindowHears(s, run[0], nk);
      AWindowKnowsWhatItHeard(s1, run[1..], g, nk);
      var rest := Outcomes(s1, run[1..], nk);
      assert ([OutcomeOf(s, run[0], nk)] + rest)[1..] == rest;
    }
  }
}
