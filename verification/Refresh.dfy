/**
 How one scope schedules its changefeed re-reads: the per-key claim with its trailing read, the one repair a
 failed read may ask for, and the slots that bound its store calls. The reads of a consumer with a quiet window.
 */
module Refresh {
  import opened Types

  const GET_LIMIT := 8

  /** Where a re-read stands. Pausing: a repair waiting out its delay. Ended: concluded, the claim still held. */
  datatype Phase = Pausing | Starting | Queued | Getting | Returned(ok: bool) | Ended

  datatype Kind = Tracked | Repair(parent: nat)

  /** One goroutine running re-reads of a key; `attempt` is the read it made last. */
  datatype Task = Task(kind: Kind, nk: NSKey, deleted: bool, phase: Phase, attempt: nat)

  datatype Slot = Slot(nk: NSKey, deleted: bool)

  /** History: a read that was started, and a notification that reached trackedRefresh. */
  datatype Attempt = Attempt(nk: NSKey, deleted: bool, kind: Kind, startedAt: nat)
  datatype Notice = Notice(nk: NSKey, deleted: bool, at: nat)

  datatype Desk = Desk(
    inflight: set<NSKey>,
    again: map<NSKey, bool>,
    retrying: set<Slot>,
    held: nat,                   // slots of getSem in use
    gone: bool,
    tasks: map<nat, Task>,
    clock: nat,
    attempts: seq<Attempt>,
    notices: set<Notice>,
    repaired: set<nat>,          // history: attempts a repair was armed for
    called: set<nat>,            // history: attempts whose store call was made
    expired: set<nat>)           // history: attempts whose wait for a slot timed out

  const NewDesk := Desk({}, map[], {}, 0, false, map[], 0, [], {}, {}, {}, {})

  datatype Action =
    | Notify(id: nat, nk: NSKey, deleted: bool)
    | WakeUp(id: nat)
    | Arm(id: nat)
    | Acquire(id: nat)
    | TimeOut(id: nat)
    | Return(id: nat, ok: bool)
    | Settle(id: nat, repair: nat)
    | Release(id: nat)
    | Drop

  predicate At(d: Desk, id: nat, phase: Phase) { id in d.tasks && d.tasks[id].phase == phase }

  predicate Enabled(d: Desk, a: Action) {
    match a
    case Notify(id, _, _) => id !in d.tasks && !d.gone
    case WakeUp(id) => At(d, id, Pausing)
    case Arm(id) => At(d, id, Starting)
    case Acquire(id) => At(d, id, Queued) && d.held < GET_LIMIT
    case TimeOut(id) => At(d, id, Queued)
    case Return(id, _) => At(d, id, Getting) && d.held > 0
    case Settle(id, repair) => id in d.tasks && d.tasks[id].phase.Returned? && repair !in d.tasks
    case Release(id) => At(d, id, Ended)
    case Drop => true
  }

  function Move(d: Desk, id: nat, phase: Phase): Desk
    requires id in d.tasks
  {
    d.(tasks := d.tasks[id := d.tasks[id].(phase := phase)])
  }

  /** beginRefresh: a running re-read of the key owes a trailing one, a delete if any notification was. */
  function NotifyStep(d: Desk, id: nat, nk: NSKey, deleted: bool): Desk {
    var noticed := d.(notices := d.notices + {Notice(nk, deleted, d.clock)});
    if nk in d.inflight then
      noticed.(again := d.again[nk := (nk in d.again && d.again[nk]) || deleted])
    else
      noticed.(inflight := d.inflight + {nk}, tasks := d.tasks[id := Task(Tracked, nk, deleted, Starting, 0)])
  }

  /** refreshKey up to its store call; a scope nothing tracks is not read. */
  function ArmStep(d: Desk, id: nat): Desk
    requires id in d.tasks
  {
    var t := d.tasks[id];
    if d.gone then d.(tasks := d.tasks[id := t.(phase := Returned(true))])
    else d.(attempts := d.attempts + [Attempt(t.nk, t.deleted, t.kind, d.clock)],
            tasks := d.tasks[id := t.(phase := Queued, attempt := |d.attempts|)])
  }

  predicate Repairs(d: Desk, id: nat)
    requires id in d.tasks
  {
    var t := d.tasks[id];
    t.phase == Returned(false) && t.kind.Tracked? && !d.gone && Slot(t.nk, t.deleted) !in d.retrying
  }

  /** The end of refreshKey: a failed first attempt claims the one repair slot of its key and op, a repair ends. */
  function SettleStep(d: Desk, id: nat, repair: nat): Desk
    requires id in d.tasks && repair !in d.tasks
  {
    var t := d.tasks[id];
    if Repairs(d, id) then
      d.(retrying := d.retrying + {Slot(t.nk, t.deleted)}, repaired := d.repaired + {t.attempt},
         tasks := d.tasks[id := t.(phase := Ended)][repair := Task(Repair(t.attempt), t.nk, t.deleted, Pausing, 0)])
    else d.(tasks := d.tasks[id := t.(phase := Ended)])
  }

  /** endRefresh and endRetry. */
  function ReleaseStep(d: Desk, id: nat): Desk
    requires id in d.tasks
  {
    var t := d.tasks[id];
    if t.kind.Repair? then d.(retrying := d.retrying - {Slot(t.nk, t.deleted)}, tasks := d.tasks - {id})
    else if t.nk in d.again then
      d.(again := d.again - {t.nk}, tasks := d.tasks[id := t.(deleted := d.again[t.nk], phase := Starting)])
    else d.(inflight := d.inflight - {t.nk}, tasks := d.tasks - {id})
  }

  function Next(d: Desk, a: Action): Desk
    requires Enabled(d, a)
  {
    var d' := match a
      case Notify(id, nk, deleted) => NotifyStep(d, id, nk, deleted)
      case WakeUp(id) => Move(d, id, if d.gone then Ended else Starting)
      case Arm(id) => ArmStep(d, id)
      case Acquire(id) => Move(d, id, Getting).(held := d.held + 1, called := d.called + {d.tasks[id].attempt})
      case TimeOut(id) => Move(d, id, Returned(false)).(expired := d.expired + {d.tasks[id].attempt})
      case Return(id, ok) => Move(d, id, Returned(ok)).(held := d.held - 1)
      case Settle(id, repair) => SettleStep(d, id, repair)
      case Release(id) => ReleaseStep(d, id)
      case Drop => d.(gone := true);
    d'.(clock := d.clock + 1)
  }

  ghost predicate Possible(d: Desk, run: seq<Action>)
    decreases |run|
  {
    |run| > 0 ==> Enabled(d, run[0]) && Possible(Next(d, run[0]), run[1..])
  }

  ghost function After(d: Desk, run: seq<Action>): Desk
    requires Possible(d, run)
    decreases |run|
  {
    if |run| == 0 then d else After(Next(d, run[0]), run[1..])
  }

  // ----- The invariant -----

  /** Two tasks that would hold the same claim: a key's tracked re-read, or a slot's repair. */
  predicate SameClaim(t: Task, u: Task) {
    t.nk == u.nk && t.kind.Tracked? == u.kind.Tracked? && (t.kind.Repair? ==> t.deleted == u.deleted)
  }

  predicate Claimed(d: Desk, t: Task) {
    if t.kind.Tracked? then t.nk in d.inflight else Slot(t.nk, t.deleted) in d.retrying
  }

  /** Every task holds its claim, and no two hold the same one. */
  predicate Claims(d: Desk) {
    && (forall id :: id in d.tasks ==> Claimed(d, d.tasks[id]))
    && (forall id, other :: id in d.tasks && other in d.tasks && id != other ==>
         !SameClaim(d.tasks[id], d.tasks[other]))
    && d.again.Keys <= d.inflight
  }

  function InGet(d: Desk): set<nat> {
    set id | id in d.tasks && d.tasks[id].phase.Getting?
  }

  predicate Bounded(d: Desk) { |InGet(d)| == d.held <= GET_LIMIT }

  /** A read of the key, carrying the delete if the notification was one, armed after the notification. */
  predicate Covers(d: Desk, i: nat, n: Notice) {
    i < |d.attempts| && d.attempts[i].nk == n.nk && d.attempts[i].startedAt > n.at
      && (n.deleted ==> d.attempts[i].deleted)
  }

  /** It reached the store, or spent its whole budget waiting for a slot. */
  predicate Read(d: Desk, n: Notice) {
    exists i :: 0 <= i < |d.attempts| && Covers(d, i, n) && (i in d.called || i in d.expired)
  }

  predicate Heading(d: Desk, id: nat, n: Notice) {
    && id in d.tasks && d.tasks[id].kind.Tracked? && d.tasks[id].nk == n.nk && (n.deleted ==> d.tasks[id].deleted)
    && (d.tasks[id].phase.Starting? || (d.tasks[id].phase.Queued? && Covers(d, d.tasks[id].attempt, n)))
  }

  predicate AboutToRead(d: Desk, n: Notice) {
    exists id :: id in d.tasks && Heading(d, id, n)
  }

  predicate Trailing(d: Desk, n: Notice) {
    n.nk in d.again && (n.deleted ==> d.again[n.nk])
  }

  ghost predicate Owed(d: Desk) {
    && (forall n :: n in d.notices ==> n.at < d.clock)
    && (!d.gone ==> forall n :: n in d.notices ==> Read(d, n) || AboutToRead(d, n) || Trailing(d, n))
  }

  predicate HasRead(t: Task) { t.phase.Queued? || t.phase.Getting? || t.phase == Returned(false) }

  /** Every repair was armed for a first attempt, and no two for the same one. */
  predicate Ledger(attempts: seq<Attempt>, repaired: set<nat>) {
    && (forall i :: 0 <= i < |attempts| && attempts[i].kind.Repair? ==>
          attempts[i].kind.parent in repaired && attempts[i].kind.parent < i)
    && (forall i, j :: 0 <= i < j < |attempts| && attempts[i].kind.Repair? && attempts[j].kind.Repair? ==>
          attempts[i].kind.parent != attempts[j].kind.parent)
    && forall p :: p in repaired ==> p < |attempts| && attempts[p].kind.Tracked?
  }

  predicate Apart(tasks: map<nat, Task>) {
    forall id, other :: id in tasks && other in tasks && id != other ==> !SameRead(tasks[id], tasks[other])
  }

  predicate Lineage(d: Desk) {
    && Ledger(d.attempts, d.repaired) && Apart(d.tasks)
    && forall id :: id in d.tasks ==> TaskLineage(d, d.tasks[id])
  }

  predicate SameRead(t: Task, u: Task) {
    || (HasRead(t) && HasRead(u) && t.attempt == u.attempt)
    || (t.kind.Repair? && u.kind.Repair? && t.kind.parent == u.kind.parent)
  }

  predicate Unused(d: Desk, parent: nat) {
    forall i :: 0 <= i < |d.attempts| && d.attempts[i].kind.Repair? ==> d.attempts[i].kind.parent != parent
  }

  predicate TaskLineage(d: Desk, t: Task) {
    && (HasRead(t) ==> t.attempt < |d.attempts| && d.attempts[t.attempt].nk == t.nk
                       && d.attempts[t.attempt].deleted == t.deleted && d.attempts[t.attempt].kind == t.kind)
    && (t.kind.Tracked? && HasRead(t) ==> t.attempt !in d.repaired)
    && (t.kind.Repair? ==>
          && t.kind.parent in d.repaired && t.kind.parent < |d.attempts|
          && d.attempts[t.kind.parent].nk == t.nk && d.attempts[t.kind.parent].deleted == t.deleted)
    && (t.kind.Repair? && (t.phase.Pausing? || t.phase.Starting?) ==> Unused(d, t.kind.parent))
  }

  ghost predicate Inv(d: Desk) {
    Claims(d) && Bounded(d) && Owed(d) && Lineage(d)
  }

  // ----- Claims -----

  /** A step that moves one task along and touches no claim. */
  predicate Advances(d: Desk, d': Desk, id: nat) {
    && id in d.tasks && id in d'.tasks && d'.tasks == d.tasks[id := d'.tasks[id]]
    && d'.tasks[id] == d.tasks[id].(phase := d'.tasks[id].phase, attempt := d'.tasks[id].attempt)
    && d'.inflight == d.inflight && d'.again == d.again && d'.retrying == d.retrying && d'.notices == d.notices
    && d'.gone == d.gone && d.clock < d'.clock
  }

  predicate Moving(a: Action) { a.WakeUp? || a.Arm? || a.Acquire? || a.TimeOut? || a.Return? }

  lemma MovingAdvances(d: Desk, a: Action)
    requires Moving(a) && Enabled(d, a)
    ensures Advances(d, Next(d, a), a.id)
  {
  }

  lemma AdvancesKeepsClaims(d: Desk, d': Desk, id: nat)
    requires Claims(d) && Advances(d, d', id)
    ensures Claims(d')
  {
    forall i, j | i in d'.tasks && j in d'.tasks && i != j ensures !SameClaim(d'.tasks[i], d'.tasks[j]) {
      assert !SameClaim(d.tasks[i], d.tasks[j]);
    }
    forall i | i in d'.tasks ensures Claimed(d', d'.tasks[i]) { assert Claimed(d, d.tasks[i]); }
  }

  lemma NotifyKeepsClaims(d: Desk, id: nat, nk: NSKey, deleted: bool)
    requires Claims(d) && id !in d.tasks
    ensures Claims(NotifyStep(d, id, nk, deleted))
  {
    var d' := NotifyStep(d, id, nk, deleted);
    forall i | i in d.tasks ensures Claimed(d', d'.tasks[i]) { assert Claimed(d, d.tasks[i]); }
    forall i, j | i in d'.tasks && j in d'.tasks && i != j ensures !SameClaim(d'.tasks[i], d'.tasks[j]) {
      if i != id && j != id { assert !SameClaim(d.tasks[i], d.tasks[j]); }
      else { assert Claimed(d, d.tasks[if i == id then j else i]); }
    }
  }

  lemma SettleKeepsClaims(d: Desk, id: nat, repair: nat)
    requires Claims(d) && Enabled(d, Settle(id, repair))
    ensures Claims(SettleStep(d, id, repair))
  {
    var d' := SettleStep(d, id, repair);
    forall i | i in d'.tasks ensures Claimed(d', d'.tasks[i]) { assert i in d.tasks ==> Claimed(d, d.tasks[i]); }
    forall i, j | i in d'.tasks && j in d'.tasks && i != j ensures !SameClaim(d'.tasks[i], d'.tasks[j]) {
      if i in d.tasks && j in d.tasks { assert !SameClaim(d.tasks[i], d.tasks[j]); }
      else { assert Claimed(d, d.tasks[if i == repair then j else i]); }
    }
  }

  lemma ReleaseKeepsClaims(d: Desk, id: nat)
    requires Claims(d) && id in d.tasks
    ensures Claims(ReleaseStep(d, id))
  {
    var d' := ReleaseStep(d, id);
    forall i, j | i in d'.tasks && j in d'.tasks && i != j ensures !SameClaim(d'.tasks[i], d'.tasks[j]) {
      assert !SameClaim(d.tasks[i], d.tasks[j]);
    }
    forall i | i in d'.tasks ensures Claimed(d', d'.tasks[i]) {
      assert Claimed(d, d.tasks[i]);
      assert i != id ==> !SameClaim(d.tasks[i], d.tasks[id]);
    }
  }

  predicate SameDesk(d: Desk, d': Desk) { d' == d.(clock := d'.clock, gone := d'.gone) }

  lemma SameDeskKeepsClaims(d: Desk, d': Desk)
    requires Claims(d) && SameDesk(d, d')
    ensures Claims(d')
  {
    hide SameClaim;
    forall i | i in d'.tasks ensures Claimed(d', d'.tasks[i]) { assert Claimed(d, d.tasks[i]); }
  }

  lemma ClaimsKept(d: Desk, a: Action)
    requires Claims(d) && Enabled(d, a)
    ensures Claims(Next(d, a))
  {
    hide Claims, NotifyStep, ArmStep, SettleStep, ReleaseStep;
    match a {
      case Notify(id, nk, deleted) =>
        NotifyKeepsClaims(d, id, nk, deleted);
        SameDeskKeepsClaims(NotifyStep(d, id, nk, deleted), Next(d, a));
      case Settle(id, repair) =>
        SettleKeepsClaims(d, id, repair);
        SameDeskKeepsClaims(SettleStep(d, id, repair), Next(d, a));
      case Release(id) =>
        ReleaseKeepsClaims(d, id);
        SameDeskKeepsClaims(ReleaseStep(d, id), Next(d, a));
      case Drop => SameDeskKeepsClaims(d, Next(d, a));
      case _ =>
        MovingAdvances(d, a);
        AdvancesKeepsClaims(d, Next(d, a), a.id);
    }
  }

  // ----- Store calls -----

  lemma GettingAfter(d: Desk, a: Action, i: nat)
    requires Enabled(d, a)
    ensures i in InGet(Next(d, a)) <==> a == Acquire(i) || (i in InGet(d) && !(a.Return? && a.id == i))
    ensures Next(d, a).held == if a.Acquire? then d.held + 1 else if a.Return? then d.held - 1 else d.held
  {
  }

  lemma BoundedKept(d: Desk, a: Action)
    requires Bounded(d) && Enabled(d, a)
    ensures Bounded(Next(d, a))
  {
    hide Next, InGet;
    var d' := Next(d, a);
    forall i: nat ensures i in InGet(d') <==> a == Acquire(i) || (i in InGet(d) && !(a.Return? && a.id == i)) {
      GettingAfter(d, a, i);
    }
    GettingAfter(d, a, 0);
    match a {
      case Acquire(id) => assert InGet(d') == InGet(d) + {id}; NotGetting(d, id);
      case Return(id, _) => assert InGet(d') == InGet(d) - {id}; IsGetting(d, id);
      case _ => assert InGet(d') == InGet(d);
    }
  }

  lemma NotGetting(d: Desk, id: nat)
    requires At(d, id, Queued)
    ensures id !in InGet(d)
  {
  }

  lemma IsGetting(d: Desk, id: nat)
    requires At(d, id, Getting)
    ensures id in InGet(d)
  {
  }

  // ----- Trailing reads -----

  lemma ReadStays(d: Desk, d': Desk, n: Notice)
    requires Read(d, n) && d.attempts <= d'.attempts && d.called <= d'.called && d.expired <= d'.expired
    ensures Read(d', n)
  {
    var i :| 0 <= i < |d.attempts| && Covers(d, i, n) && (i in d.called || i in d.expired);
    assert Covers(d', i, n);
  }

  predicate Answered(d: Desk, n: Notice) { Read(d, n) || AboutToRead(d, n) || Trailing(d, n) }

  lemma AttemptsGrow(d: Desk, a: Action)
    requires Enabled(d, a)
    ensures d.attempts <= Next(d, a).attempts && Next(d, a).clock == d.clock + 1
    ensures d.called <= Next(d, a).called && d.expired <= Next(d, a).expired
    ensures Next(d, a).notices == if a.Notify? then d.notices + {Notice(a.nk, a.deleted, d.clock)} else d.notices
    ensures Next(d, a).gone == (d.gone || a.Drop?)
  {
  }

  /** A notification just in: claimed, or added to what the running re-read owes. */
  lemma NewNoticeAnswered(d: Desk, id: nat, nk: NSKey, deleted: bool)
    requires id !in d.tasks
    ensures Answered(NotifyStep(d, id, nk, deleted), Notice(nk, deleted, d.clock))
  {
    if nk !in d.inflight { assert Heading(NotifyStep(d, id, nk, deleted), id, Notice(nk, deleted, d.clock)); }
  }

  lemma AboutToReadKept(d: Desk, a: Action, n: Notice)
    requires Enabled(d, a) && AboutToRead(d, n) && !Next(d, a).gone && n.at < d.clock
    ensures Read(Next(d, a), n) || AboutToRead(Next(d, a), n)
  {
    hide Heading, Covers, Next;
    var id :| id in d.tasks && Heading(d, id, n);
    HeadingKept(d, a, id, n);
  }

  lemma HeadingKept(d: Desk, a: Action, id: nat, n: Notice)
    requires Enabled(d, a) && Heading(d, id, n) && !Next(d, a).gone && n.at < d.clock
    ensures Read(Next(d, a), n) || (id in Next(d, a).tasks && Heading(Next(d, a), id, n))
  {
    hide SettleStep, NotifyStep, ReleaseStep;
    var d' := Next(d, a);
    AttemptsGrow(d, a);
    if a == Arm(id) {
      assert Covers(d', |d.attempts|, n);
    } else if a == Acquire(id) || a == TimeOut(id) {
      assert Covers(d', d.tasks[id].attempt, n);
    } else {
      OthersStay(d, a, id);
      if d.tasks[id].phase.Queued? { assert Covers(d', d.tasks[id].attempt, n); }
    }
  }

  /** A task moves only by its own steps. */
  lemma OthersStay(d: Desk, a: Action, id: nat)
    requires Enabled(d, a) && id in d.tasks && (a.Notify? || a.Drop? || a.id != id)
    ensures id in Next(d, a).tasks && Next(d, a).tasks[id] == d.tasks[id]
  {
  }

  lemma TrailingKept(d: Desk, a: Action, n: Notice)
    requires Enabled(d, a) && Trailing(d, n)
    ensures AboutToRead(Next(d, a), n) || Trailing(Next(d, a), n)
  {
    if a.Release? && d.tasks[a.id].kind.Tracked? && d.tasks[a.id].nk == n.nk {
      assert Heading(Next(d, a), a.id, n);
    }
  }

  lemma OwedKept(d: Desk, a: Action)
    requires Owed(d) && Enabled(d, a)
    ensures Owed(Next(d, a))
  {
    hide Next, Enabled, Read, AboutToRead, Trailing;
    var d' := Next(d, a);
    AttemptsGrow(d, a);
    forall n | n in d'.notices && !d'.gone ensures Read(d', n) || AboutToRead(d', n) || Trailing(d', n) {
      if n in d.notices {
        if Read(d, n) { ReadStays(d, d', n); }
        else if AboutToRead(d, n) { AboutToReadKept(d, a, n); }
        else { TrailingKept(d, a, n); }
      } else {
        NoticeJustIn(d, a, n);
      }
    }
  }

  lemma NoticeJustIn(d: Desk, a: Action, n: Notice)
    requires Enabled(d, a) && n in Next(d, a).notices && n !in d.notices
    ensures Read(Next(d, a), n) || AboutToRead(Next(d, a), n) || Trailing(Next(d, a), n)
  {
    AttemptsGrow(d, a);
    var s := NotifyStep(d, a.id, a.nk, a.deleted);
    NewNoticeAnswered(d, a.id, a.nk, a.deleted);
    if AboutToRead(s, n) {
      var id :| id in s.tasks && Heading(s, id, n);
      assert Heading(Next(d, a), id, n);
    }
  }

  // ----- Repairs -----

  /** What a task is after a step that starts no read and arms no repair. */
  predicate Eases(t: Task, u: Task) {
    && u.kind == t.kind && u.nk == t.nk
    && (HasRead(u) ==> HasRead(t) && u.attempt == t.attempt && u.deleted == t.deleted)
    && (u.kind.Repair? ==> u.deleted == t.deleted)
    && (u.phase.Pausing? || u.phase.Starting? ==> t.kind.Tracked? || t.phase.Pausing? || t.phase.Starting?)
  }

  predicate Eased(d: Desk, d': Desk) {
    && d'.attempts == d.attempts && d'.repaired == d.repaired
    && forall id :: id in d'.tasks ==>
         if id in d.tasks then Eases(d.tasks[id], d'.tasks[id])
         else d'.tasks[id].kind.Tracked? && !HasRead(d'.tasks[id])
  }

  lemma EasedKeepsLineage(d: Desk, d': Desk)
    requires Lineage(d) && Eased(d, d')
    ensures Lineage(d')
  {
    forall id | id in d'.tasks ensures TaskLineage(d', d'.tasks[id]) {
      if id in d.tasks {
        assert TaskLineage(d, d.tasks[id]) && Eases(d.tasks[id], d'.tasks[id]);
        assert d'.tasks[id].kind.Repair? ==>
          Unused(d, d'.tasks[id].kind.parent) == Unused(d', d'.tasks[id].kind.parent);
      }
    }
    forall i, j | i in d'.tasks && j in d'.tasks && i != j ensures !SameRead(d'.tasks[i], d'.tasks[j]) {
      if i in d.tasks && j in d.tasks { assert !SameRead(d.tasks[i], d.tasks[j]); }
    }
  }

  lemma StepEases(d: Desk, a: Action)
    requires Enabled(d, a)
    requires a.Arm? ==> d.gone
    requires a.Settle? ==> !Repairs(d, a.id)
    ensures Eased(d, Next(d, a))
  {
    hide Eased, Repairs;
    if Moving(a) { MovingEases(d, a); } else { EndingEases(d, a); }
  }

  lemma MovingEases(d: Desk, a: Action)
    requires Enabled(d, a) && Moving(a) && (a.Arm? ==> d.gone)
    ensures Eased(d, Next(d, a))
  {
    hide NotifyStep, SettleStep, ReleaseStep;
  }

  lemma EndingEases(d: Desk, a: Action)
    requires Enabled(d, a) && !Moving(a) && (a.Settle? ==> !Repairs(d, a.id))
    ensures Eased(d, Next(d, a))
  {
    hide ArmStep, Repairs;
  }

  lemma ArmKeepsLineage(d: Desk, id: nat)
    requires Lineage(d) && At(d, id, Starting) && !d.gone
    ensures Lineage(ArmStep(d, id))
  {
    hide Ledger, TaskLineage;
    var d', t := ArmStep(d, id), d.tasks[id];
    assert TaskLineage(d, t);
    ArmKeepsLedger(d, id);
    forall i | i in d'.tasks ensures TaskLineage(d', d'.tasks[i]) {
      assert i != id ==> TaskLineage(d, d.tasks[i]) && !SameRead(d.tasks[i], t);
      ArmKeepsTask(d, id, i);
    }
    forall i, j | i in d'.tasks && j in d'.tasks && i != j ensures !SameRead(d'.tasks[i], d'.tasks[j]) {
      assert !SameRead(d.tasks[i], d.tasks[j]) && TaskLineage(d, d.tasks[i]) && TaskLineage(d, d.tasks[j]);
      ReadIsLogged(d, d.tasks[i]);
      ReadIsLogged(d, d.tasks[j]);
    }
  }

  lemma ReadIsLogged(d: Desk, t: Task)
    requires TaskLineage(d, t)
    ensures HasRead(t) ==> t.attempt < |d.attempts|
    ensures t.kind.Repair? ==> t.kind.parent in d.repaired
    ensures t.kind.Tracked? && HasRead(t) ==> t.attempt !in d.repaired
  {
  }

  lemma ArmKeepsLedger(d: Desk, id: nat)
    requires At(d, id, Starting) && TaskLineage(d, d.tasks[id]) && Ledger(d.attempts, d.repaired) && !d.gone
    ensures Ledger(ArmStep(d, id).attempts, ArmStep(d, id).repaired)
  {
  }

  lemma ArmKeepsTask(d: Desk, id: nat, i: nat)
    requires At(d, id, Starting) && !d.gone && i in d.tasks && Ledger(d.attempts, d.repaired)
    requires TaskLineage(d, d.tasks[id]) && TaskLineage(d, d.tasks[i])
    requires i != id ==> !SameRead(d.tasks[i], d.tasks[id])
    ensures TaskLineage(ArmStep(d, id), ArmStep(d, id).tasks[i])
  {
  }

  lemma SettleKeepsLineage(d: Desk, id: nat, repair: nat)
    requires Lineage(d) && Enabled(d, Settle(id, repair)) && Repairs(d, id)
    ensures Lineage(SettleStep(d, id, repair))
  {
    hide Ledger, TaskLineage;
    var d', t := SettleStep(d, id, repair), d.tasks[id];
    assert TaskLineage(d, t);
    SettleKeepsLedger(d, id, repair);
    forall i | i in d'.tasks ensures TaskLineage(d', d'.tasks[i]) {
      assert i in d.tasks && i != id ==> TaskLineage(d, d.tasks[i]) && !SameRead(d.tasks[i], t);
      SettleKeepsTask(d, id, repair, i);
    }
    forall i, j | i in d'.tasks && j in d'.tasks && i != j ensures !SameRead(d'.tasks[i], d'.tasks[j]) {
      ReadIsLogged(d, t);
      if i in d.tasks {
        assert TaskLineage(d, d.tasks[i]);
        ReadIsLogged(d, d.tasks[i]);
      }
      if j in d.tasks {
        assert TaskLineage(d, d.tasks[j]);
        ReadIsLogged(d, d.tasks[j]);
      }
      assert i in d.tasks && j in d.tasks ==> !SameRead(d.tasks[i], d.tasks[j]);
    }
  }

  lemma SettleKeepsLedger(d: Desk, id: nat, repair: nat)
    requires id in d.tasks && repair !in d.tasks && Repairs(d, id)
    requires TaskLineage(d, d.tasks[id]) && Ledger(d.attempts, d.repaired)
    ensures Ledger(SettleStep(d, id, repair).attempts, SettleStep(d, id, repair).repaired)
  {
  }

  lemma SettleKeepsTask(d: Desk, id: nat, repair: nat, i: nat)
    requires id in d.tasks && repair !in d.tasks && Repairs(d, id) && i in SettleStep(d, id, repair).tasks
    requires TaskLineage(d, d.tasks[id]) && Ledger(d.attempts, d.repaired)
    requires i in d.tasks ==> TaskLineage(d, d.tasks[i])
    requires i in d.tasks && i != id ==> !SameRead(d.tasks[i], d.tasks[id])
    ensures TaskLineage(SettleStep(d, id, repair), SettleStep(d, id, repair).tasks[i])
  {
  }

  lemma LineageKept(d: Desk, a: Action)
    requires Lineage(d) && Enabled(d, a)
    ensures Lineage(Next(d, a))
  {
    hide Lineage;
    if a.Arm? && !d.gone {
      ArmKeepsLineage(d, a.id);
      assert Eased(ArmStep(d, a.id), Next(d, a));
      EasedKeepsLineage(ArmStep(d, a.id), Next(d, a));
    } else if a.Settle? && Repairs(d, a.id) {
      SettleKeepsLineage(d, a.id, a.repair);
      assert Eased(SettleStep(d, a.id, a.repair), Next(d, a));
      EasedKeepsLineage(SettleStep(d, a.id, a.repair), Next(d, a));
    } else {
      StepEases(d, a);
      EasedKeepsLineage(d, Next(d, a));
    }
  }

  // ----- Every run -----

  lemma {:induction false} RunKeepsInv(d: Desk, run: seq<Action>)
    requires Inv(d) && Possible(d, run)
    ensures Inv(After(d, run))
    decreases |run|
  {
    hide Next, Enabled, Claims, Bounded, Owed, Lineage;
    if |run| > 0 {
      ClaimsKept(d, run[0]);
      BoundedKept(d, run[0]);
      OwedKept(d, run[0]);
      LineageKept(d, run[0]);
      RunKeepsInv(Next(d, run[0]), run[1..]);
    }
  }

  ghost predicate Reachable(d: Desk) {
    exists run :: Possible(NewDesk, run) && After(NewDesk, run) == d
  }

  lemma ReachableInv(d: Desk)
    requires Reachable(d)
    ensures Inv(d)
  {
    hide Next, Enabled;
    var run :| Possible(NewDesk, run) && After(NewDesk, run) == d;
    RunKeepsInv(NewDesk, run);
  }

  // ----- Nobody holds a claim without working for it -----

  predicate Working(d: Desk, nk: NSKey) {
    exists id :: id in d.tasks && d.tasks[id].kind.Tracked? && d.tasks[id].nk == nk
  }

  predicate Repairing(d: Desk, nk: NSKey, deleted: bool) {
    exists id :: id in d.tasks && d.tasks[id].kind.Repair? && d.tasks[id].nk == nk && d.tasks[id].deleted == deleted
  }

  ghost predicate NoLeak(d: Desk) {
    && (forall nk :: nk in d.inflight ==> Working(d, nk))
    && forall slot :: slot in d.retrying ==> Repairing(d, slot.nk, slot.deleted)
  }

  /** What is at work stays at work, unless the step releases it. */
  lemma WorkGoesOn(d: Desk, a: Action, id: nat)
    requires Enabled(d, a) && id in d.tasks
    ensures a == Release(id) || (id in Next(d, a).tasks && Next(d, a).tasks[id].kind == d.tasks[id].kind
                                 && Next(d, a).tasks[id].nk == d.tasks[id].nk
                                 && Next(d, a).tasks[id].deleted == d.tasks[id].deleted)
  {
  }

  lemma NewClaimsAreWorked(d: Desk, a: Action)
    requires Enabled(d, a)
    ensures forall nk :: nk in Next(d, a).inflight && nk !in d.inflight ==>
      a.Notify? && a.id in Next(d, a).tasks && Next(d, a).tasks[a.id].kind.Tracked? && Next(d, a).tasks[a.id].nk == nk
    ensures forall slot :: slot in Next(d, a).retrying && slot !in d.retrying ==>
      a.Settle? && a.repair in Next(d, a).tasks && Next(d, a).tasks[a.repair].kind.Repair?
      && Next(d, a).tasks[a.repair].nk == slot.nk && Next(d, a).tasks[a.repair].deleted == slot.deleted
  {
  }

  lemma ReleaseFreesOnlyItsOwn(d: Desk, id: nat)
    requires id in d.tasks
    ensures var t, d' := d.tasks[id], ReleaseStep(d, id);
      && (forall nk :: nk in d'.inflight && t.kind.Tracked? && t.nk == nk ==>
            id in d'.tasks && d'.tasks[id].kind.Tracked? && d'.tasks[id].nk == nk)
      && (t.kind.Repair? ==> Slot(t.nk, t.deleted) !in d'.retrying)
  {
  }

  lemma NoLeakKept(d: Desk, a: Action)
    requires NoLeak(d) && Enabled(d, a)
    ensures NoLeak(Next(d, a))
  {
    hide Next, Enabled;
    var d' := Next(d, a);
    NewClaimsAreWorked(d, a);
    if a.Release? { ReleasedDesk(d, a.id); }
    forall nk | nk in d'.inflight ensures Working(d', nk) {
      if nk in d.inflight {
        var id :| id in d.tasks && d.tasks[id].kind.Tracked? && d.tasks[id].nk == nk;
        WorkGoesOn(d, a, id);
      }
    }
    forall slot | slot in d'.retrying ensures Repairing(d', slot.nk, slot.deleted) {
      if slot in d.retrying {
        var id :| id in d.tasks && d.tasks[id].kind.Repair? && d.tasks[id].nk == slot.nk
                  && d.tasks[id].deleted == slot.deleted;
        WorkGoesOn(d, a, id);
      }
    }
  }

  lemma ReleasedDesk(d: Desk, id: nat)
    requires Enabled(d, Release(id))
    ensures Next(d, Release(id)) == ReleaseStep(d, id).(clock := d.clock + 1)
    ensures var t, d' := d.tasks[id], Next(d, Release(id));
      && (forall nk :: nk in d'.inflight && t.kind.Tracked? && t.nk == nk ==>
            id in d'.tasks && d'.tasks[id].kind.Tracked? && d'.tasks[id].nk == nk)
      && (t.kind.Repair? ==> Slot(t.nk, t.deleted) !in d'.retrying)
  {
    ReleaseFreesOnlyItsOwn(d, id);
  }

  lemma {:induction false} RunKeepsNoLeak(d: Desk, run: seq<Action>)
    requires NoLeak(d) && Possible(d, run)
    ensures NoLeak(After(d, run))
    decreases |run|
  {
    hide NoLeak, Next, Enabled;
    if |run| > 0 {
      NoLeakKept(d, run[0]);
      RunKeepsNoLeak(Next(d, run[0]), run[1..]);
    }
  }

  lemma ReachableHasNoLeak(d: Desk)
    requires Reachable(d)
    ensures NoLeak(d)
  {
    hide Next, Enabled;
    var run :| Possible(NewDesk, run) && After(NewDesk, run) == d;
    RunKeepsNoLeak(NewDesk, run);
  }

  /** A key's claim is held exactly while its tracked re-read runs, and a repair slot exactly while its repair does. */
  lemma ClaimsAreWorkedFor(d: Desk, nk: NSKey, deleted: bool)
    requires Reachable(d)
    ensures nk in d.inflight <==> Working(d, nk)
    ensures Slot(nk, deleted) in d.retrying <==> Repairing(d, nk, deleted)
  {
    hide Bounded, Owed, Lineage;
    ReachableInv(d);
    ReachableHasNoLeak(d);
    if Working(d, nk) {
      var id :| id in d.tasks && d.tasks[id].kind.Tracked? && d.tasks[id].nk == nk;
      assert Claimed(d, d.tasks[id]);
    }
    if Repairing(d, nk, deleted) {
      var id :| id in d.tasks && d.tasks[id].kind.Repair? && d.tasks[id].nk == nk && d.tasks[id].deleted == deleted;
      assert Claimed(d, d.tasks[id]);
    }
  }

  /**
   A failed read is made good. Ending a re-read arms a repair exactly if it was a first attempt, it failed, the scope
   is still tracked and no repair of that key and op is under way; the repair asks for what the attempt asked for.
   So after a failed first attempt on a tracked scope a repair of it is always under way.
   */
  lemma FailedReadIsRepaired(d: Desk, id: nat, repair: nat)
    requires Reachable(d) && Enabled(d, Settle(id, repair))
    ensures var t, d' := d.tasks[id], Next(d, Settle(id, repair));
      && (repair in d'.tasks
          <==> t.kind.Tracked? && t.phase == Returned(false) && !d.gone && !Repairing(d, t.nk, t.deleted))
      && (repair in d'.tasks ==> d'.tasks[repair] == Task(Repair(t.attempt), t.nk, t.deleted, Pausing, 0))
      && (t.kind.Tracked? && t.phase == Returned(false) && !d.gone ==> Repairing(d', t.nk, t.deleted))
  {
    hide Reachable;
    var t, d' := d.tasks[id], Next(d, Settle(id, repair));
    ClaimsAreWorkedFor(d, t.nk, t.deleted);
    if Repairing(d, t.nk, t.deleted) {
      var other :| other in d.tasks && d.tasks[other].kind.Repair? && d.tasks[other].nk == t.nk
                   && d.tasks[other].deleted == t.deleted;
      WorkGoesOn(d, Settle(id, repair), other);
    }
  }

  /** Tracked re-reads of a key never overlap. */
  lemma TrackedReadsNeverOverlap(d: Desk, id: nat, other: nat)
    requires Reachable(d) && id in d.tasks && other in d.tasks
    requires d.tasks[id].kind.Tracked? && d.tasks[other].kind.Tracked? && d.tasks[id].nk == d.tasks[other].nk
    ensures id == other
  {
    hide Bounded, Owed, Lineage;
    ReachableInv(d);
    assert id != other ==> !SameClaim(d.tasks[id], d.tasks[other]);
  }

  /**
   No notification is swallowed by a read already running: once nothing is claimed for the key, each was followed
   by a read armed after it, and a delete by one that carried the delete, whose store call was made unless it spent
   its budget waiting for a slot.
   */
  lemma EveryNoticeIsRead(d: Desk, n: Notice)
    requires Reachable(d) && n in d.notices && !d.gone && n.nk !in d.inflight
    ensures exists i :: 0 <= i < |d.attempts| && Covers(d, i, n) && (i in d.called || i in d.expired)
  {
    hide Bounded, Lineage;
    ReachableInv(d);
    assert Read(d, n);
  }

  /** A first attempt leads to at most one repair of its own, and a repair to none. */
  lemma AtMostOneRepair(d: Desk, i: nat)
    requires Reachable(d) && i < |d.attempts| && d.attempts[i].kind.Repair?
    ensures d.attempts[i].kind.parent < i && d.attempts[d.attempts[i].kind.parent].kind.Tracked?
    ensures forall j :: 0 <= j < |d.attempts| && j != i && d.attempts[j].kind.Repair? ==>
      d.attempts[j].kind.parent != d.attempts[i].kind.parent
  {
    hide Bounded, Claims, Owed;
    ReachableInv(d);
  }

  /** Store calls of a key: the tracked read, an upsert's repair and a delete's repair at most. */
  function GetsOf(d: Desk, nk: NSKey): set<nat> {
    set id | id in d.tasks && d.tasks[id].phase.Getting? && d.tasks[id].nk == nk
  }

  function ClaimNumber(t: Task): nat {
    if t.kind.Tracked? then 0 else if t.deleted then 1 else 2
  }

  lemma {:induction false} FewNumbers(d: Desk, ids: set<nat>, numbers: set<nat>)
    requires forall id :: id in ids ==> id in d.tasks && ClaimNumber(d.tasks[id]) in numbers
    requires forall i, j :: i in ids && j in ids && i != j ==> ClaimNumber(d.tasks[i]) != ClaimNumber(d.tasks[j])
    ensures |ids| <= |numbers|
    decreases |ids|
  {
    if ids != {} {
      var id :| id in ids;
      FewNumbers(d, ids - {id}, numbers - {ClaimNumber(d.tasks[id])});
    }
  }

  lemma StoreCallsAreBounded(d: Desk, nk: NSKey)
    requires Reachable(d)
    ensures |GetsOf(d, nk)| <= 3
    ensures |InGet(d)| <= GET_LIMIT
  {
    hide Owed, Lineage;
    ReachableInv(d);
    forall i, j | i in GetsOf(d, nk) && j in GetsOf(d, nk) && i != j
      ensures ClaimNumber(d.tasks[i]) != ClaimNumber(d.tasks[j])
    {
      assert !SameClaim(d.tasks[i], d.tasks[j]);
    }
    FewNumbers(d, GetsOf(d, nk), {0, 1, 2});
  }

  // ----- The claims as the scope keeps them -----

  /** The fields of a scope state that schedule its re-reads; `d` names the step of the system each call performs. */
  class RefreshClaims {
    var inflight: set<NSKey>
    var again: map<NSKey, bool>
    var retrying: set<Slot>

    ghost predicate Shows(d: Desk)
      reads this
    {
      inflight == d.inflight && again == d.again && retrying == d.retrying
    }

    constructor ()
      ensures Shows(NewDesk)
    {
      inflight, again, retrying := {}, map[], {};
    }

    method BeginRefresh(nk: NSKey, deleted: bool, ghost d: Desk, ghost id: nat) returns (claimed: bool)
      requires Shows(d) && id !in d.tasks
      modifies this`inflight, this`again
      ensures Shows(NotifyStep(d, id, nk, deleted))
      ensures claimed <==> id in NotifyStep(d, id, nk, deleted).tasks
    {
      if nk in inflight {
        again := again[nk := (if nk in again then again[nk] else false) || deleted];
        return false;
      }
      inflight := inflight + {nk};
      return true;
    }

    method EndRefresh(nk: NSKey, ghost d: Desk, ghost id: nat) returns (trailing: bool, deleted: bool)
      requires Shows(d) && id in d.tasks && d.tasks[id].kind.Tracked? && d.tasks[id].nk == nk
      modifies this`inflight, this`again
      ensures Shows(ReleaseStep(d, id))
      ensures trailing <==> id in ReleaseStep(d, id).tasks
      ensures trailing ==> At(ReleaseStep(d, id), id, Starting) && ReleaseStep(d, id).tasks[id].deleted == deleted
    {
      if nk in again {
        deleted := again[nk];
        again := again - {nk};
        return true, deleted;
      }
      inflight := inflight - {nk};
      return false, false;
    }

    method BeginRetry(slot: Slot, ghost d: Desk, ghost id: nat, ghost repair: nat) returns (claimed: bool)
      requires Shows(d) && id in d.tasks && repair !in d.tasks && slot == Slot(d.tasks[id].nk, d.tasks[id].deleted)
      requires d.tasks[id].phase == Returned(false) && d.tasks[id].kind.Tracked? && !d.gone
      modifies this`retrying
      ensures Shows(SettleStep(d, id, repair))
      ensures claimed <==> repair in SettleStep(d, id, repair).tasks
    {
      if slot in retrying { return false; }
      retrying := retrying + {slot};
      return true;
    }

    method EndRetry(slot: Slot, ghost d: Desk, ghost id: nat)
      requires Shows(d) && id in d.tasks && d.tasks[id].kind.Repair?
        && slot == Slot(d.tasks[id].nk, d.tasks[id].deleted)
      modifies this`retrying
      ensures Shows(ReleaseStep(d, id))
    {
      retrying := retrying - {slot};
    }
  }
}
