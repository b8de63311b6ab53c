/** One key's delivery worker: the coalescing mailbox, the goroutine that empties it, and what subscribers see. */
module Delivery {
  import opened Types
  import opened Fence

  /** What a subscriber receives. `serial` is its place among the accepted publications: history only. */
  datatype Change = Change(revision: int, value: Value, serial: nat)

  /** A single slot, a 1-buffered wake-up and the stop. */
  datatype Box<+T> = Box(pending: Option<T>, signal: bool, done: bool)

  function Submitted<T>(box: Box<T>, ch: T): Box<T> { box.(pending := Some(ch), signal := true) }

  function Emptied<T>(box: Box<T>): Box<T> { box.(pending := None) }

  function Stopped<T>(box: Box<T>): Box<T> { box.(done := true) }

  class DispatchWorker<T(0)> {
    var pending: T
    var hasPending: bool
    var signal: bool
    var done: bool

    ghost function View(): Box<T>
      reads this
    {
      Box(if hasPending then Some(pending) else None, signal, done)
    }

    constructor ()
      ensures View() == Box(None, false, false)
    {
      hasPending, signal, done := false, false, false;
    }

    /** The send on a full signal buffer is dropped: it already means there is work. */
    method Submit(ch: T)
      modifies this`pending, this`hasPending, this`signal
      ensures View() == Submitted(old(View()), ch)
    {
      pending := ch;
      hasPending := true;
      if !signal { signal := true; }
    }

    method Take(zero: T) returns (ch: T, ok: bool)
      modifies this`pending, this`hasPending
      ensures View() == Emptied(old(View()))
      ensures ok == old(View()).pending.Some? && (ok ==> ch == old(View()).pending.value)
    {
      if !hasPending { return zero, false; }
      ch, pending := pending, zero;
      hasPending := false;
      return ch, true;
    }

    method Stop()
      modifies this`done
      ensures View() == Stopped(old(View()))
    {
      if !done { done := true; }
    }
  }

  /** The goroutine. Checked: it re-checked the stop after its wake-up. Delivering: the subscribers still to call. */
  datatype Mode =
    | Absent
    | Parked
    | Woken
    | Checked
    | Holding(taken: Change)
    | Delivering(change: Change, remaining: seq<nat>)
    | Exited

  datatype Desk = Desk(
    entry: Option<Entry>,             // the cache entry of the key
    box: Box<Change>,
    mode: Mode,
    listed: bool,                     // the worker is in the scope state's table
    swept: bool,                      // workersDropped: the scope was dropped
    closed: bool,                     // workersClosed: the engine is closing
    cancelled: bool,                  // the lifecycle context every worker runs under
    subscribers: seq<nat>,
    launches: nat,                    // history: worker goroutines started for the key
    accepted: seq<Change>,            // history: every accepted publication
    since: map<nat, nat>,             // history: how many were accepted when the subscription was made
    seen: map<nat, seq<Change>>)      // history: what each subscription was handed

  const NewDesk := Desk(None, Box(None, false, false), Absent, false, false, false, false, [], 0, [], map[], map[])

  datatype Action =
    | Accept(pub: Publication)
    | Subscribe(id: nat)
    | Unsubscribe(at: nat)
    | Wake
    | Recheck
    | Exit
    | Take
    | CopySubscribers
    | Call
    | AllCalled
    | Sweep
    | ShutDoor
    | Cancel

  /** The worker has been told to stop, alone or with the engine. */
  predicate Done(d: Desk) { d.box.done || d.cancelled }

  /** Nothing hands a publication to a worker any more. */
  predicate DoorShut(d: Desk) { d.swept || d.closed }

  predicate Enabled(d: Desk, a: Action) {
    match a
    case Accept(_) => true
    case Subscribe(id) => id !in d.since
    case Unsubscribe(at) => at < |d.subscribers|
    case Wake => d.mode.Parked? && d.box.signal
    case Recheck => d.mode.Woken? && !Done(d)
    case Exit => (d.mode.Parked? || d.mode.Woken?) && Done(d)
    case Take => d.mode.Checked?
    case CopySubscribers => d.mode.Holding?
    case Call => d.mode.Delivering? && d.mode.remaining != [] && d.mode.remaining[0] in d.seen
    case AllCalled => d.mode.Delivering? && d.mode.remaining == []
    case Sweep => true
    case ShutDoor => true
    case Cancel => true
  }

  /** workerFor: the listed worker, or a new one in its place; nothing once the door is shut. */
  function WorkerFor(d: Desk): Desk {
    if DoorShut(d) || d.listed then d
    else d.(box := Box(None, false, false), mode := Parked, listed := true, launches := d.launches + 1)
  }

  /** publish and dispatch, one lock hold: the fence, and a submit when somebody listens and the door is open. */
  function AcceptStep(d: Desk, pub: Publication): Desk {
    var stored := d.(entry := Some(Fenced(d.entry, pub)));
    if Grade(d.entry, pub) != Store then stored
    else
      var ch := Change(pub.revision, pub.value, |d.accepted|);
      var told := stored.(accepted := d.accepted + [ch]);
      if d.subscribers == [] || DoorShut(d) then told
      else
        var ready := WorkerFor(told);
        ready.(box := Submitted(ready.box, ch))
  }

  function Taken(box: Box<Change>): Mode {
    if box.pending.Some? then Holding(box.pending.value) else Parked
  }

  function Next(d: Desk, a: Action): Desk
    requires Enabled(d, a)
  {
    match a
    case Accept(pub) => AcceptStep(d, pub)
    case Subscribe(id) =>
      d.(subscribers := d.subscribers + [id], since := d.since[id := |d.accepted|], seen := d.seen[id := []])
    case Unsubscribe(at) => d.(subscribers := d.subscribers[..at] + d.subscribers[at + 1..])
    case Wake => d.(box := d.box.(signal := false), mode := Woken)
    case Recheck => d.(mode := Checked)
    case Exit => d.(mode := Exited)
    case Take => d.(box := Emptied(d.box), mode := Taken(d.box))
    case CopySubscribers => d.(mode := if d.subscribers == [] then Parked else Delivering(d.mode.taken, d.subscribers))
    case Call =>
      var id := d.mode.remaining[0];
      d.(seen := d.seen[id := d.seen[id] + [d.mode.change]], mode := d.mode.(remaining := d.mode.remaining[1..]))
    case AllCalled => d.(mode := Parked)
    case Sweep =>  // one hold: the mark, the stop of a listed worker, and the table cleared
      d.(swept := true, listed := false, box := if d.listed then Stopped(d.box) else d.box)
    case ShutDoor => d.(closed := true)
    case Cancel => d.(cancelled := true)
  }

  ghost predicate Possible(d: Desk, run: seq<Action>)
    decreases |run|
  {
    |run| > 0 ==> Enabled(d, run[0]) && Possible(Next(d, run[0]), run[1..])
  }

  ghost function After(d: Desk, run: seq<Action>): Desk
    requires Possible(d, run)
    decreases |run|
  {
    if |run| == 0 then d else After(Next(d, run[0]), run[1..])
  }

  // ----- What holds throughout -----

  /** The cache entry is the last accepted publication, and revisions fall only to 0. */
  predicate Accepts(d: Desk) {
    && (d.accepted == [] <==> d.entry.None?)
    && (d.accepted != [] ==>
          d.entry.value.revision == Last(d.accepted).revision && d.entry.value.value == Last(d.accepted).value)
    && (forall i :: 0 <= i < |d.accepted| ==> d.accepted[i].serial == i)
    && forall i :: 0 < i < |d.accepted| ==> Follows(d.accepted, i)
  }

  predicate Follows(accepted: seq<Change>, i: nat)
    requires 0 < i < |accepted|
  {
    accepted[i].revision == 0 || accepted[i].revision >= accepted[i - 1].revision
  }

  function Last<T>(s: seq<T>): T
    requires s != []
  {
    s[|s| - 1]
  }

  predicate Genuine(d: Desk, ch: Change) {
    ch.serial < |d.accepted| && ch == d.accepted[ch.serial]
  }

  /** A subscriber's history: accepted publications, in order, none twice. */
  predicate Subsequence(d: Desk, log: seq<Change>) {
    && (forall i :: 0 <= i < |log| ==> Genuine(d, log[i]))
    && forall i, j :: 0 <= i < j < |log| ==> log[i].serial < log[j].serial
  }

  /** Everything handed out so far precedes `serial`. */
  predicate Before(log: seq<Change>, serial: nat) {
    log != [] ==> Last(log).serial < serial
  }

  predicate Histories(d: Desk) {
    && (forall id :: id in d.subscribers ==> id in d.seen)
    && d.since.Keys == d.seen.Keys
    && (forall id :: id in d.seen ==> Subsequence(d, d.seen[id]))
    && (d.box.pending.Some? ==> Genuine(d, d.box.pending.value))
    && (d.mode.Holding? ==> Genuine(d, d.mode.taken))
    && (d.mode.Delivering? ==> Genuine(d, d.mode.change))
  }

  predicate NoRepeats(s: seq<nat>) {
    forall i, j :: 0 <= i < j < |s| ==> s[i] != s[j]
  }

  predicate InOrder(d: Desk) {
    && NoRepeats(d.subscribers)
    && (d.box.pending.Some? ==>
          && (forall id :: id in d.seen ==> Before(d.seen[id], d.box.pending.value.serial))
          && (d.mode.Holding? ==> d.mode.taken.serial < d.box.pending.value.serial)
          && (d.mode.Delivering? ==> d.mode.change.serial < d.box.pending.value.serial))
    && (d.mode.Holding? ==> forall id :: id in d.seen ==> Before(d.seen[id], d.mode.taken.serial))
    && (d.mode.Delivering? ==>
          && NoRepeats(d.mode.remaining)
          && (forall id :: id in d.mode.remaining ==> id in d.seen && Before(d.seen[id], d.mode.change.serial))
          && (forall id :: id in d.seen ==> Before(d.seen[id], d.mode.change.serial + 1)))
  }

  /** No wake-up is lost: a full slot has a signal buffered, or the worker is on its way to it. */
  predicate Awake(d: Desk) {
    && (d.box.pending.Some? ==> d.mode != Absent && (d.box.signal || d.mode in {Woken, Checked, Exited}))
    && (d.mode.Absent? ==> !d.box.signal && forall id :: id in d.seen ==> d.seen[id] == [])
    && (d.mode.Exited? ==> Done(d))
  }

  /** At most one worker is ever started for the key of a state; only the sweep takes it out of the table. */
  predicate OneWorker(d: Desk) {
    && d.launches <= 1 && (d.launches == 0 <==> d.mode.Absent?)
    && (d.listed ==> d.launches == 1) && (!d.listed && d.launches == 1 ==> d.swept)
    && (d.box.done <==> d.swept && d.launches == 1) && (d.swept ==> !d.listed)
  }

  /** The newest accepted change has reached the subscriber, or is about to. */
  predicate Reaching(d: Desk, id: nat)
    requires id in d.seen && d.accepted != []
  {
    var newest := |d.accepted| - 1;
    || (d.box.pending.Some? && d.box.pending.value.serial == newest)
    || (d.mode.Holding? && d.mode.taken.serial == newest)
    || (d.mode.Delivering? && d.mode.change.serial == newest && id in d.mode.remaining)
    || (d.seen[id] != [] && Last(d.seen[id]).serial == newest)
  }

  predicate Stopping(d: Desk) { DoorShut(d) || Done(d) }

  predicate Owed(d: Desk) {
    forall id :: id in d.subscribers && id in d.seen && id in d.since && d.since[id] < |d.accepted| && !Stopping(d)
      ==> Reaching(d, id)
  }

  predicate Inv(d: Desk) {
    Accepts(d) && Histories(d) && InOrder(d) && Awake(d) && OneWorker(d) && Owed(d)
  }

  lemma FenceKeeps(cached: Option<Entry>, pub: Publication)
    ensures Grade(cached, pub) == Store ==>
      Fenced(cached, pub) == EntryOf(pub)
      && (cached.Some? ==> pub.revision == 0 || pub.revision >= cached.value.revision)
    ensures Grade(cached, pub) != Store ==>
      cached.Some? && Fenced(cached, pub).revision == cached.value.revision
        && Fenced(cached, pub).value == cached.value.value
  {
  }

  lemma AcceptsKept(d: Desk, a: Action)
    requires Accepts(d) && Enabled(d, a)
    ensures Accepts(Next(d, a))
  {
    hide Grade, Fenced, Follows, AcceptStep;
    if a.Accept? {
      FenceKeeps(d.entry, a.pub);
      var d' := Next(d, a);
      AcceptedGrow(d, a.pub);
      forall i | 0 < i < |d'.accepted| ensures Follows(d'.accepted, i) {
        Accepted(d, a.pub, i);
      }
    }
  }

  lemma AcceptedGrow(d: Desk, pub: Publication)
    ensures AcceptStep(d, pub).accepted
      == if Grade(d.entry, pub) == Store then d.accepted + [ChangeOf(d, pub)] else d.accepted
    ensures AcceptStep(d, pub).entry == Some(Fenced(d.entry, pub))
  {
    hide Grade, Fenced;
  }

  lemma Accepted(d: Desk, pub: Publication, i: nat)
    requires Accepts(d) && 0 < i < |AcceptStep(d, pub).accepted|
    ensures Follows(AcceptStep(d, pub).accepted, i)
  {
    hide Grade, Fenced, AcceptStep;
    FenceKeeps(d.entry, pub);
    AcceptedGrow(d, pub);
    if i < |d.accepted| { assert Follows(d.accepted, i); }
  }

  lemma SubsequenceGrows(d: Desk, d': Desk, log: seq<Change>)
    requires Subsequence(d, log) && d.accepted <= d'.accepted
    ensures Subsequence(d', log)
  {
  }

  lemma SubsequenceAppends(d: Desk, log: seq<Change>, ch: Change)
    requires Subsequence(d, log) && Genuine(d, ch) && Before(log, ch.serial)
    ensures Subsequence(d, log + [ch])
  {
  }

  /** The change an accepted publication becomes. */
  function ChangeOf(d: Desk, pub: Publication): Change { Change(pub.revision, pub.value, |d.accepted|) }

  /** What accepting does to the mailbox, with one worker at most: nothing, or the newest change and a wake-up. */
  predicate Accepting(d: Desk, d': Desk, pub: Publication) {
    && d'.seen == d.seen && d'.since == d.since && d'.subscribers == d.subscribers
    && d'.swept == d.swept && d'.closed == d.closed && d'.cancelled == d.cancelled
    && (d'.accepted == d.accepted || d'.accepted == d.accepted + [ChangeOf(d, pub)])
    && (|| (d'.box == d.box && d'.mode == d.mode
            && (d'.accepted == d.accepted || d.subscribers == [] || DoorShut(d)))
        || (d'.accepted != d.accepted && d'.box == Submitted(d'.box, ChangeOf(d, pub)) && !DoorShut(d)
            && d'.mode == if d.mode.Absent? then Parked else d.mode))
  }

  lemma AcceptStepAccepts(d: Desk, pub: Publication)
    requires OneWorker(d)
    ensures Accepting(d, AcceptStep(d, pub), pub)
  {
    hide Grade, Fenced;
  }

  lemma HistoriesKept(d: Desk, a: Action)
    requires Histories(d) && InOrder(d) && OneWorker(d) && Enabled(d, a)
    ensures Histories(Next(d, a))
  {
    hide Grade, Fenced, Subsequence, NoRepeats, AcceptStep, Genuine;
    match a {
      case Accept(pub) => AcceptStepAccepts(d, pub); AcceptKeepsHistories(d, AcceptStep(d, pub), pub);
      case Call => CallKeepsHistories(d);
      case _ => QuietKeepsHistories(d, a);
    }
  }

  lemma GenuineGrows(d: Desk, d': Desk, ch: Change)
    requires Genuine(d, ch) && d.accepted <= d'.accepted
    ensures Genuine(d', ch)
  {
  }

  lemma AcceptKeepsHistories(d: Desk, d': Desk, pub: Publication)
    requires Histories(d) && Accepting(d, d', pub)
    ensures Histories(d')
  {
    hide Subsequence;
    forall id | id in d'.seen ensures Subsequence(d', d'.seen[id]) { SubsequenceGrows(d, d', d.seen[id]); }
  }

  lemma CallKeepsHistories(d: Desk)
    requires Histories(d) && InOrder(d) && Enabled(d, Call)
    ensures Histories(Next(d, Call))
  {
    hide Subsequence, NoRepeats, Genuine;
    var d', id := Next(d, Call), d.mode.remaining[0];
    SubsequenceAppends(d, d.seen[id], d.mode.change);
    forall other | other in d'.seen ensures Subsequence(d', d'.seen[other]) {
      SubsequenceGrows(d, d', if other == id then d.seen[id] + [d.mode.change] else d.seen[other]);
    }
    if d.box.pending.Some? { GenuineGrows(d, d', d.box.pending.value); }
    GenuineGrows(d, d', d.mode.change);
  }

  lemma QuietKeepsHistories(d: Desk, a: Action)
    requires Histories(d) && Enabled(d, a) && !a.Accept? && !a.Call?
    ensures Histories(Next(d, a))
  {
    hide Subsequence, Submitted;
    var d' := Next(d, a);
    forall id | id in d'.seen ensures Subsequence(d', d'.seen[id]) {
      if id in d.seen && !(a.Subscribe? && id == a.id) {
        SubsequenceGrows(d, d', d.seen[id]);
      } else {
        NothingIsASubsequence(d');
      }
    }
  }

  lemma NothingIsASubsequence(d: Desk)
    ensures Subsequence(d, [])
  {
  }

  lemma InOrderKept(d: Desk, a: Action)
    requires Histories(d) && InOrder(d) && OneWorker(d) && Enabled(d, a)
    ensures InOrder(Next(d, a))
  {
    hide Grade, Fenced;
    match a {
      case Accept(pub) => AcceptStepAccepts(d, pub); AcceptKeepsOrder(d, AcceptStep(d, pub), pub);
      case Call => CallKeepsOrder(d);
      case _ => QuietKeepsOrder(d, a);
    }
  }

  lemma AcceptKeepsOrder(d: Desk, d': Desk, pub: Publication)
    requires Histories(d) && InOrder(d) && Accepting(d, d', pub)
    ensures InOrder(d')
  {
    hide NoRepeats;
    forall id | id in d.seen ensures Before(d.seen[id], |d.accepted|) {
      assert Subsequence(d, d.seen[id]);
    }
  }

  lemma CallKeepsOrder(d: Desk)
    requires Histories(d) && InOrder(d) && Enabled(d, Call)
    ensures InOrder(Next(d, Call))
  {
    hide Genuine, Subsequence;
  }

  lemma QuietKeepsOrder(d: Desk, a: Action)
    requires Histories(d) && InOrder(d) && Enabled(d, a) && !a.Accept? && !a.Call?
    ensures InOrder(Next(d, a))
  {
    hide Genuine, Subsequence, Submitted;
  }

  lemma OneWorkerKept(d: Desk, a: Action)
    requires OneWorker(d) && Enabled(d, a)
    ensures OneWorker(Next(d, a))
  {
    hide Grade, Fenced;
  }

  lemma AwakeKept(d: Desk, a: Action)
    requires Histories(d) && Awake(d) && OneWorker(d) && Enabled(d, a)
    ensures Awake(Next(d, a))
  {
    hide Grade, Fenced, Subsequence, Genuine, AcceptStep;
    if a.Accept? { AcceptStepAccepts(d, a.pub); }
  }

  lemma OwedKept(d: Desk, a: Action)
    requires Inv(d) && Enabled(d, a)
    ensures Owed(Next(d, a))
  {
    hide Follows, Grade, Fenced, Subsequence, AcceptStep;
    if a.Accept? { AcceptStepAccepts(d, a.pub); }
  }

  lemma {:induction false} RunKeepsInv(d: Desk, run: seq<Action>)
    requires Inv(d) && Possible(d, run)
    ensures Inv(After(d, run))
    decreases |run|
  {
    hide Next, Enabled, Accepts, Histories, InOrder, Awake, OneWorker, Owed;
    if |run| > 0 {
      AcceptsKept(d, run[0]);
      HistoriesKept(d, run[0]);
      InOrderKept(d, run[0]);
      AwakeKept(d, run[0]);
      OneWorkerKept(d, run[0]);
      OwedKept(d, run[0]);
      RunKeepsInv(Next(d, run[0]), run[1..]);
    }
  }

  ghost predicate Reachable(d: Desk) {
    exists run :: Possible(NewDesk, run) && After(NewDesk, run) == d
  }

  lemma ReachableInv(d: Desk)
    requires Reachable(d)
    ensures Inv(d)
  {
    var run :| Possible(NewDesk, run) && After(NewDesk, run) == d;
    RunKeepsInv(NewDesk, run);
  }

  // ----- What a subscriber is promised -----

  /** Coalescing may skip accepted publications; it never invents, repeats or reorders one. */
  lemma SeenIsSubsequence(d: Desk, id: nat)
    requires Reachable(d) && id in d.seen
    ensures forall i :: 0 <= i < |d.seen[id]| ==>
      d.seen[id][i].serial < |d.accepted| && d.seen[id][i] == d.accepted[d.seen[id][i].serial]
    ensures forall i, j :: 0 <= i < j < |d.seen[id]| ==> d.seen[id][i].serial < d.seen[id][j].serial
  {
    ReachableInv(d);
    assert Subsequence(d, d.seen[id]);
  }

  lemma {:induction false} FallNeedsDefault(d: Desk, i: nat, j: nat) returns (k: nat)
    requires Accepts(d) && i < j < |d.accepted| && d.accepted[j].revision < d.accepted[i].revision
    ensures i < k <= j && d.accepted[k].revision == 0
    decreases j
  {
    assert Follows(d.accepted, j);
    if d.accepted[j].revision == 0 { return j; }
    k := FallNeedsDefault(d, i, j - 1);
  }

  /** Between two deliveries whose revision falls, the key was reset to its default. */
  lemma RevisionFallsOnlyThroughDefault(d: Desk, id: nat, i: nat, j: nat) returns (k: nat)
    requires Reachable(d) && id in d.seen && i < j < |d.seen[id]|
    requires d.seen[id][j].revision < d.seen[id][i].revision
    ensures d.seen[id][i].serial < k <= d.seen[id][j].serial && k < |d.accepted| && d.accepted[k].revision == 0
  {
    ReachableInv(d);
    SeenIsSubsequence(d, id);
    k := FallNeedsDefault(d, d.seen[id][i].serial, d.seen[id][j].serial);
  }

  /** A change waiting in the slot of a running worker can always be taken: no wake-up is lost. */
  lemma NoWakeupLost(d: Desk)
    requires Reachable(d) && d.box.pending.Some? && !Done(d)
    ensures !d.mode.Absent? && !d.mode.Exited?
    ensures d.mode.Parked? ==> Enabled(d, Wake) && Next(d, Wake).box.pending == d.box.pending
  {
    ReachableInv(d);
  }

  /**
   Nothing waiting, nothing buffered, nobody being called, nothing being stopped: every subscription made
   before the last accepted publication was handed exactly the value and revision the cache serves.
   */
  lemma IdleAgreesWithCache(d: Desk, id: nat)
    requires Reachable(d) && !Stopping(d)
    requires d.box.pending.None? && (d.mode.Parked? || d.mode.Absent?)
    requires id in d.subscribers && id in d.since && d.since[id] < |d.accepted|
    ensures id in d.seen && d.seen[id] != [] && d.entry.Some?
    ensures Last(d.seen[id]).revision == d.entry.value.revision
    ensures Last(d.seen[id]).value == d.entry.value.value
  {
    ReachableInv(d);
    assert Reaching(d, id);
    assert Subsequence(d, d.seen[id]);
  }

  // ----- After the stop -----

  /**
   A swept state never starts a worker again: not a first one, not one in place of the worker the sweep stopped
   and took out of the table, whatever is accepted and whoever subscribes afterwards.
   */
  lemma {:induction false} SweptNeverStarts(d: Desk, run: seq<Action>)
    requires d.swept && Possible(d, run)
    ensures After(d, run).launches == d.launches && After(d, run).swept
    ensures !d.listed ==> !After(d, run).listed
    decreases |run|
  {
    hide Next, Enabled;
    if |run| > 0 {
      SweepStands(d, run[0]);
      SweptNeverStarts(Next(d, run[0]), run[1..]);
    }
  }

  lemma SweepStands(d: Desk, a: Action)
    requires d.swept && Enabled(d, a)
    ensures Next(d, a).swept && Next(d, a).launches == d.launches && (!d.listed ==> !Next(d, a).listed)
  {
    hide Grade, Fenced;
  }

  /** So the key of a state has one worker at most, ever; and a late publication launches one exactly when it may. */
  lemma LaunchesOnce(d: Desk, pub: Publication)
    requires Reachable(d)
    ensures d.launches <= 1 && Next(d, Accept(pub)).launches <= 1
    ensures Next(d, Accept(pub)).launches > d.launches <==>
      Grade(d.entry, pub) == Store && d.subscribers != [] && !DoorShut(d) && d.launches == 0
  {
    hide Grade, Fenced, Accepts, Histories, InOrder, Awake, Owed;
    ReachableInv(d);
    OneWorkerKept(d, Accept(pub));
  }

  /** Why the sweep leaves a mark: clearing the table alone, the next accepted publication starts a second worker. */
  lemma ClearedTableWouldStartAgain(d: Desk, pub: Publication)
    requires Reachable(d) && d.listed && d.subscribers != [] && !DoorShut(d) && Grade(d.entry, pub) == Store
    ensures var unmarked := Next(d, Sweep).(swept := false);
      Next(unmarked, Accept(pub)).launches == 2 && Next(Next(d, Sweep), Accept(pub)).launches == 1
  {
    hide Grade, Fenced, Accepts, Histories, InOrder, Awake, Owed;
    ReachableInv(d);
  }

  /** The sweep stops the worker it takes out of the table, and nothing else stops one alone. */
  lemma SweptWorkerIsStopped(d: Desk)
    requires Reachable(d)
    ensures d.box.done <==> d.swept && d.launches > 0
    ensures d.listed <==> !d.swept && d.launches > 0
  {
    hide Accepts, Histories, InOrder, Awake, Owed;
    ReachableInv(d);
  }

  predicate Silent(d: Desk) {
    && (d.cancelled || (d.box.done && d.swept))
    && (d.mode.Absent? || d.mode.Parked? || d.mode.Woken? || d.mode.Exited?)
  }

  lemma SilenceKept(d: Desk, a: Action)
    requires Silent(d) && Enabled(d, a)
    ensures Silent(Next(d, a))
    ensures forall id :: id in d.seen && id in d.since ==> id in Next(d, a).seen && Next(d, a).seen[id] == d.seen[id]
    ensures d.since.Keys <= Next(d, a).since.Keys
  {
    hide Grade, Fenced;
  }

  /** A stopped worker that is not already past its re-check calls nobody again, whatever is accepted or buffered. */
  lemma {:induction false} StoppedStaysSilent(d: Desk, run: seq<Action>, id: nat)
    requires Silent(d) && Possible(d, run) && id in d.seen && id in d.since
    ensures id in After(d, run).seen && After(d, run).seen[id] == d.seen[id]
    decreases |run|
  {
    hide Silent, Next, Enabled;
    if |run| > 0 {
      SilenceKept(d, run[0]);
      StoppedStaysSilent(Next(d, run[0]), run[1..], id);
    }
  }
}
