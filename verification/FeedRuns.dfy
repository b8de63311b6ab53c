/** The feed table under every interleaving of subscribers, creators, re-claims and one teardown. */
module FeedRuns {
  import opened Types
  import opened FeedTable

  datatype Sys = Sys(
    tb: Table,
    creating: set<nat>,      // feeds whose opener has not published or retracted yet
    held: map<nat, int>,     // references taken and not given back
    closes: seq<nat>,        // history: ready channels closed, in order
    databases: map<nat, string>) // history: the database a feed was last said to read, once nobody objected

  const Init := Sys(Table(map[], map[], false), {}, map[], [], map[])

  datatype Action =
    | Acquire(tenant: string, spare: nat)
    | Start(spare: nat)
    | PublishAs(id: nat, identity: string)
    | PublishClaimed(id: nat)
    | Retract(id: nat, cause: Cause)
    | Claim(id: nat, identity: string)
    | Release(id: nat)
    | StopAll

  function Held(s: Sys, id: nat): int { if id in s.held then s.held[id] else 0 }

  /** A named feed's opener keeps its reference until it has published. */
  function Openers(s: Sys, id: nat): int
    requires id in s.tb.heap
  {
    if id in s.creating && s.tb.heap[id].tenant != "" then 1 else 0
  }

  predicate Enabled(s: Sys, a: Action) {
    Sane(s.tb) &&
    match a
    case Acquire(_, spare) => spare !in s.tb.heap
    case Start(spare) => spare !in s.tb.heap && ("" in s.tb.slots ==> s.tb.slots[""] !in s.creating)
    case PublishAs(id, _) => id in s.creating && id in s.tb.heap
    case PublishClaimed(id) => id in s.creating && id in s.tb.heap
    case Retract(id, _) => id in s.creating && id in s.tb.heap
    case Claim(id, _) => id in s.tb.heap
    case Release(id) => id in s.tb.heap && Held(s, id) > Openers(s, id)
    case StopAll => true
  }

  function AcquireStep(s: Sys, tenant: string, spare: nat): Sys
    requires Sane(s.tb)
  {
    var s' := s.(tb := FeedTable.Acquire(s.tb, tenant, spare));
    match AcquireResult(s.tb, tenant, spare)
    case Refused(_) => s'
    case Shared(id) => s'.(held := s.held[id := Held(s, id) + 1])
    case Created(id) => s'.(held := s.held[id := 1], creating := s.creating + {id})
  }

  /** Start brings the zero feed up, unless its reader is already running. */
  function StartStep(s: Sys, spare: nat): Sys
    requires Sane(s.tb)
  {
    var tb := ForStart(s.tb, spare);
    if "" in tb.slots && tb.slots[""] in tb.heap && tb.heap[tb.slots[""]].readers == 0
    then s.(tb := tb, creating := s.creating + {tb.slots[""]}) else s.(tb := tb)
  }

  /** The opener is done; one that failed takes its reference with it. */
  function Opened(s: Sys, id: nat, tb: Table): Sys
    requires id in s.tb.heap && id in tb.heap
  {
    var failed := tb.heap[id].readers == s.tb.heap[id].readers;
    s.(tb := tb, creating := s.creating - {id},
       held := if failed && s.tb.heap[id].tenant != "" then s.held[id := Held(s, id) - 1] else s.held,
       closes := if tb.heap[id].readyClosed && !s.tb.heap[id].readyClosed then s.closes + [id] else s.closes)
  }

  function Reserved(tb: Table): set<nat> {
    set id | id in tb.heap && id in tb.slots.Values && tb.heap[id].hasReady && !tb.heap[id].readyClosed
  }

  ghost function Listed(ids: set<nat>): (r: seq<nat>)
    ensures forall id :: id in ids <==> id in r
    ensures forall i, j :: 0 <= i < j < |r| ==> r[i] != r[j]
  {
    if ids == {} then [] else
    var id :| id in ids;
    [id] + Listed(ids - {id})
  }

  ghost function Next(s: Sys, a: Action): Sys
    requires Enabled(s, a)
  {
    match a
    case Acquire(tenant, spare) => AcquireStep(s, tenant, spare)
    case Start(spare) => StartStep(s, spare)
    case PublishAs(id, identity) =>
      Opened(s, id, FeedTable.PublishAs(s.tb, id, identity)).(
        databases := if Publishes(s.tb, id, identity) then s.databases[id := identity] else s.databases)
    case PublishClaimed(id) => Opened(s, id, FeedTable.PublishClaimed(s.tb, id))
    case Retract(id, cause) => Opened(s, id, FeedTable.Retract(s.tb, id, cause))
    case Claim(id, identity) =>
      s.(tb := FeedTable.Claim(s.tb, id, identity),
         databases := if identity != "" && !Taken(s.tb, id, identity) then s.databases[id := identity] else s.databases)
    case Release(id) => s.(tb := FeedTable.Release(s.tb, id), held := s.held[id := Held(s, id) - 1])
    case StopAll => s.(tb := FeedTable.StopAll(s.tb), closes := s.closes + Listed(Reserved(s.tb)))
  }

  ghost predicate Possible(s: Sys, run: seq<Action>)
    decreases |run|
  {
    |run| > 0 ==> Enabled(s, run[0]) && Possible(Next(s, run[0]), run[1..])
  }

  ghost function After(s: Sys, run: seq<Action>): Sys
    requires Possible(s, run)
    decreases |run|
  {
    if |run| == 0 then s else After(Next(s, run[0]), run[1..])
  }

  // ----- The invariant -----

  predicate InTable(tb: Table, id: nat) {
    id in tb.heap && tb.heap[id].tenant in tb.slots && tb.slots[tb.heap[id].tenant] == id
  }

  /** One feed: its reader, its waiters, its references. */
  predicate FeedOk(s: Sys, id: nat)
    requires id in s.tb.heap
  {
    var f := s.tb.heap[id];
    && (f.hasReady <==> f.tenant != "") && f.readers <= 1
    && (id in s.creating ==> f.readers == 0 && (InTable(s.tb, id) || s.tb.closing))
    && (f.tenant != "" ==>
          && (id !in s.creating ==> f.readyClosed)
          && (id in s.creating ==> (f.readyClosed <==> s.tb.closing))
          && (f.readyClosed ==> (f.err.None? <==> f.readers == 1))
          && (!f.readyClosed ==> f.err.None? && f.readers == 0)
          && (InTable(s.tb, id) ==> f.refs == Held(s, id) && f.refs >= 1))
  }

  /** No two feeds in the table read the same database. */
  predicate Separate(tb: Table) {
    forall t, u :: t in tb.slots && u in tb.slots && t != u && tb.slots[t] in tb.heap && tb.slots[u] in tb.heap ==>
      tb.heap[tb.slots[t]].identity == "" || tb.heap[tb.slots[t]].identity != tb.heap[tb.slots[u]].identity
  }

  predicate ClosedOnce(s: Sys) {
    && (forall i, j :: 0 <= i < j < |s.closes| ==> s.closes[i] != s.closes[j])
    && (forall id :: id in s.closes ==> id in s.tb.heap && s.tb.heap[id].readyClosed)
  }

  predicate Inv(s: Sys) {
    && Sane(s.tb) && Separate(s.tb) && ClosedOnce(s) && s.creating <= s.tb.heap.Keys
    && (s.tb.closing ==> s.tb.slots == map[])
    && forall id :: id in s.tb.heap ==> FeedOk(s, id)
  }

  // ----- A step that touches one feed -----

  /** Slots change only for this feed: it may take its tenant's free slot, unclaimed, or give its own up. */
  predicate SlotsFor(tb: Table, tb': Table, id: nat)
    requires id in tb'.heap
  {
    && (forall t :: t in tb'.slots ==>
          || (t in tb.slots && tb'.slots[t] == tb.slots[t])
          || (tb'.slots[t] == id && t == tb'.heap[id].tenant && tb'.heap[id].identity == "" && !tb.closing))
    && forall t :: t in tb.slots && tb.slots[t] != id ==> t in tb'.slots && tb'.slots[t] == tb.slots[t]
  }

  predicate IdentityFor(tb: Table, tb': Table, id: nat)
    requires id in tb'.heap
  {
    var identity := tb'.heap[id].identity;
    identity == "" || (id in tb.heap && identity == tb.heap[id].identity) || !Taken(tb, id, identity)
  }

  ghost predicate Touches(s: Sys, s': Sys, id: nat) {
    && id in s'.tb.heap && s'.tb.closing == s.tb.closing && s'.tb.heap == s.tb.heap[id := s'.tb.heap[id]]
    && (id in s.tb.heap ==> s'.tb.heap[id].tenant == s.tb.heap[id].tenant)
    && (id in s.tb.heap && s.tb.heap[id].readyClosed ==> s'.tb.heap[id].readyClosed)
    && SlotsFor(s.tb, s'.tb, id) && IdentityFor(s.tb, s'.tb, id)
    && s'.creating - {id} == s.creating - {id}
    && (forall other :: other != id ==> Held(s', other) == Held(s, other))
    && (|| s'.closes == s.closes
        || (s'.closes == s.closes + [id] && id in s.tb.heap && !s.tb.heap[id].readyClosed
             && s'.tb.heap[id].readyClosed))
  }

  lemma TouchesKeepsTable(s: Sys, s': Sys, id: nat)
    requires Sane(s.tb) && Separate(s.tb) && Touches(s, s', id)
    ensures Sane(s'.tb) && Separate(s'.tb)
  {
    forall t, u | t in s'.tb.slots && u in s'.tb.slots && t != u
      ensures s'.tb.heap[s'.tb.slots[t]].identity == ""
              || s'.tb.heap[s'.tb.slots[t]].identity != s'.tb.heap[s'.tb.slots[u]].identity
    {
      assert (t in s.tb.slots && s'.tb.slots[t] == s.tb.slots[t]) || s'.tb.heap[id].identity == "";
    }
  }

  lemma TouchesKeepsOther(s: Sys, s': Sys, id: nat, other: nat)
    requires Sane(s.tb) && Touches(s, s', id) && other != id && other in s.tb.heap && FeedOk(s, other)
    ensures FeedOk(s', other)
  {
    assert other in s'.creating <==> other in s.creating by {
      assert other in s'.creating <==> other in s'.creating - {id};
      assert other in s.creating <==> other in s.creating - {id};
    }
  }

  lemma TouchesKeeps(s: Sys, s': Sys, id: nat)
    requires Inv(s) && Touches(s, s', id) && FeedOk(s', id)
    ensures Inv(s')
  {
    hide FeedOk, Separate;
    TouchesKeepsTable(s, s', id);
    forall other | other in s'.tb.heap ensures FeedOk(s', other) {
      if other != id { TouchesKeepsOther(s, s', id, other); }
    }
    TouchesKeepsCloses(s, s', id);
    forall other | other in s'.creating ensures other in s'.tb.heap {
      if other != id { assert other in s'.creating - {id}; }
    }
    if s.tb.closing { assert forall t :: t !in s'.tb.slots; }
  }

  lemma TouchesKeepsCloses(s: Sys, s': Sys, id: nat)
    requires ClosedOnce(s) && Touches(s, s', id)
    ensures ClosedOnce(s')
  {
    hide SlotsFor, IdentityFor;
  }

  // ----- Kept by every action -----

  lemma AcquireKeeps(s: Sys, tenant: string, spare: nat)
    requires Inv(s) && spare !in s.tb.heap
    ensures Inv(AcquireStep(s, tenant, spare))
  {
    hide Separate, ClosedOnce, FeedOk, Taken, AcquireStep;
    if AcquireResult(s.tb, tenant, spare).Shared? && tenant in s.tb.slots {
      ShareKeeps(s, tenant, spare);
    } else {
      ReserveKeeps(s, tenant, spare);
    }
  }

  /** A share of a feed somebody has brought up, or is bringing up. */
  lemma ShareKeeps(s: Sys, tenant: string, spare: nat)
    requires Inv(s) && tenant in s.tb.slots && AcquireResult(s.tb, tenant, spare).Shared?
    ensures Inv(AcquireStep(s, tenant, spare))
  {
    hide Separate, ClosedOnce, Taken;
    var id := s.tb.slots[tenant];
    assert FeedOk(s, id);
    TouchesKeeps(s, AcquireStep(s, tenant, spare), id);
  }

  lemma ReserveKeeps(s: Sys, tenant: string, spare: nat)
    requires Inv(s) && spare !in s.tb.heap && (AcquireResult(s.tb, tenant, spare).Shared? ==> tenant !in s.tb.slots)
    ensures Inv(AcquireStep(s, tenant, spare))
  {
    hide Separate, ClosedOnce, Taken, FeedOk;
    if AcquireResult(s.tb, tenant, spare).Refused? {
      assert AcquireStep(s, tenant, spare) == s;
    } else {
      if tenant == "" { ZeroReserves(s, spare); }
      NewFeedKeeps(s, AcquireStep(s, tenant, spare), tenant, spare);
    }
  }

  /** A fresh feed with one reference in its tenant's free slot; a named one is still to be opened. */
  lemma NewFeedKeeps(s: Sys, s': Sys, tenant: string, spare: nat)
    requires Inv(s) && spare !in s.tb.heap && tenant !in s.tb.slots && !s.tb.closing
    requires s'.tb == Put(s.tb, spare, NewFeed(tenant, 1)).(slots := s.tb.slots[tenant := spare])
    requires s'.closes == s.closes && s'.creating == if tenant == "" then s.creating else s.creating + {spare}
    requires s'.held == s.held[spare := if tenant == "" then Held(s, spare) + 1 else 1]
    ensures Inv(s')
  {
    hide Separate, ClosedOnce, Taken;
    TouchesKeeps(s, s', spare);
  }

  lemma ZeroReserves(s: Sys, spare: nat)
    requires Sane(s.tb) && spare !in s.tb.heap && "" !in s.tb.slots && !s.tb.closing
    ensures AcquireStep(s, "", spare) ==
      s.(tb := Put(s.tb, spare, NewFeed("", 1)).(slots := s.tb.slots["" := spare]),
        held := s.held[spare := Held(s, spare) + 1])
  {
    assert s.tb.heap[spare := NewFeed("", 0)][spare := NewFeed("", 1)] == s.tb.heap[spare := NewFeed("", 1)];
  }

  lemma StartKeeps(s: Sys, spare: nat)
    requires Inv(s) && spare !in s.tb.heap
    ensures Inv(StartStep(s, spare))
  {
    hide Inv;
    if !s.tb.closing && "" in s.tb.slots {
      RestartKeeps(s, spare);
    } else {
      FirstStartKeeps(s, spare);
    }
  }

  lemma RestartKeeps(s: Sys, spare: nat)
    requires Inv(s) && !s.tb.closing && "" in s.tb.slots
    ensures Inv(StartStep(s, spare))
  {
    hide Separate, ClosedOnce, Taken;
    assert FeedOk(s, s.tb.slots[""]);
    TouchesKeeps(s, StartStep(s, spare), s.tb.slots[""]);
  }

  lemma FirstStartKeeps(s: Sys, spare: nat)
    requires Inv(s) && spare !in s.tb.heap && (s.tb.closing || "" !in s.tb.slots)
    ensures Inv(StartStep(s, spare))
  {
    hide Separate, ClosedOnce, Taken;
    if s.tb.closing {
      assert StartStep(s, spare) == s;
    } else {
      TouchesKeeps(s, StartStep(s, spare), spare);
    }
  }

  lemma ClaimKeeps(s: Sys, id: nat, identity: string)
    requires Inv(s) && id in s.tb.heap
    ensures Inv(s.(tb := FeedTable.Claim(s.tb, id, identity)))
  {
    hide Separate, ClosedOnce, Taken;
    var s' := s.(tb := FeedTable.Claim(s.tb, id, identity));
    assert FeedOk(s, id);
    if identity != "" && !Taken(s.tb, id, identity) { TouchesKeeps(s, s', id); }
  }

  lemma ReleaseKeeps(s: Sys, id: nat)
    requires Inv(s) && Enabled(s, Release(id))
    ensures Inv(Next(s, Release(id)))
  {
    hide Separate, ClosedOnce, Taken;
    assert FeedOk(s, id);
    TouchesKeeps(s, Next(s, Release(id)), id);
  }

  /** The three ways an opener ends: published, refused at the door, failed before it. */
  lemma RetractKeeps(s: Sys, id: nat, cause: Cause)
    requires Inv(s) && id in s.creating
    ensures Inv(Opened(s, id, FeedTable.Retract(s.tb, id, cause)))
  {
    hide Separate, ClosedOnce, Taken;
    assert FeedOk(s, id);
    TouchesKeeps(s, Opened(s, id, FeedTable.Retract(s.tb, id, cause)), id);
  }

  lemma LaunchKeeps(s: Sys, id: nat, identity: string)
    requires Inv(s) && id in s.creating && !s.tb.closing
    requires identity == "" || identity == s.tb.heap[id].identity || !Taken(s.tb, id, identity)
    ensures var named := Put(s.tb, id, s.tb.heap[id].(identity := identity));
      Inv(Opened(s, id, CloseReady(Launch(named, id), id)))
  {
    hide Separate, ClosedOnce, Taken;
    assert FeedOk(s, id);
    var named := Put(s.tb, id, s.tb.heap[id].(identity := identity));
    TouchesKeeps(s, Opened(s, id, CloseReady(Launch(named, id), id)), id);
  }

  lemma StopAllKeeps(s: Sys)
    requires Inv(s)
    ensures Inv(Next(s, StopAll))
  {
    hide Separate;
    var s' := Next(s, StopAll);
    forall id | id in s'.tb.heap ensures FeedOk(s', id) { StopAllKeepsFeed(s, id); }
    StopAllKeepsCloses(s);
    assert Separate(s'.tb) by { NothingListed(s'.tb); }
  }

  lemma NothingListed(tb: Table)
    requires tb.slots == map[]
    ensures Separate(tb)
  {
  }

  lemma StopAllKeepsFeed(s: Sys, id: nat)
    requires Inv(s) && id in s.tb.heap
    ensures FeedOk(Next(s, StopAll), id)
  {
    hide Separate, ClosedOnce, Listed;
    assert FeedOk(s, id);
    InTableIsListed(s.tb, id);
    assert Next(s, StopAll).tb == FeedTable.StopAll(s.tb);
  }

  lemma InTableIsListed(tb: Table, id: nat)
    requires Sane(tb) && id in tb.heap
    ensures id in tb.slots.Values <==> InTable(tb, id)
  {
    if id in tb.slots.Values {
      var t :| t in tb.slots && tb.slots[t] == id;
    }
  }

  lemma StopAllKeepsCloses(s: Sys)
    requires Sane(s.tb) && ClosedOnce(s)
    ensures ClosedOnce(Next(s, StopAll))
  {
    var more := Listed(Reserved(s.tb));
    forall id | id in more ensures id in s.tb.heap && !s.tb.heap[id].readyClosed && Stopped(s.tb.heap[id]).readyClosed {
      assert id in Reserved(s.tb);
    }
    var all := s.closes + more;
    forall i, j | 0 <= i < j < |all| ensures all[i] != all[j] {
      if i < |s.closes| <= j {
        assert s.closes[i] in s.closes && more[j - |s.closes|] in more;
      }
    }
  }

  lemma InvReadsNoDatabase(s: Sys, databases: map<nat, string>)
    requires Inv(s)
    ensures Inv(s.(databases := databases))
  {
    hide Separate, ClosedOnce;
    var s' := s.(databases := databases);
    forall id | id in s'.tb.heap ensures FeedOk(s', id) { assert FeedOk(s, id); }
    assert ClosedOnce(s') by { SameCloses(s, s'); }
  }

  lemma SameCloses(s: Sys, s': Sys)
    requires ClosedOnce(s) && s'.closes == s.closes && s'.tb == s.tb
    ensures ClosedOnce(s')
  {
  }

  lemma StepKeepsInv(s: Sys, a: Action)
    requires Inv(s) && Enabled(s, a)
    ensures Inv(Next(s, a))
  {
    hide Inv;
    var s' := Next(s, a);
    if Inv(s'.(databases := s.databases)) { InvReadsNoDatabase(s'.(databases := s.databases), s'.databases); }
    assert s'.(databases := s.databases).(databases := s'.databases) == s';
    match a {
      case Acquire(tenant, spare) => AcquireKeeps(s, tenant, spare);
      case Start(spare) => StartKeeps(s, spare);
      case Retract(id, cause) => RetractKeeps(s, id, cause);
      case Claim(id, identity) => ClaimKeeps(s, id, identity);
      case Release(id) => ReleaseKeeps(s, id);
      case StopAll => StopAllKeeps(s);
      case PublishAs(id, identity) =>
        if s.tb.closing { RetractKeeps(s, id, Closed); }
        else if identity != "" && Taken(s.tb, id, identity) { RetractKeeps(s, id, SharedDatabase); }
        else { LaunchKeeps(s, id, identity); }
      case PublishClaimed(id) =>
        if s.tb.closing {
          RetractKeeps(s, id, Closed);
        } else {
          assert Put(s.tb, id, s.tb.heap[id].(identity := s.tb.heap[id].identity)) == s.tb;
          LaunchKeeps(s, id, s.tb.heap[id].identity);
        }
    }
  }

  lemma {:induction false} RunKeepsInv(s: Sys, run: seq<Action>)
    requires Inv(s) && Possible(s, run)
    ensures Inv(After(s, run))
    decreases |run|
  {
    hide Inv, Next, Enabled;
    if |run| > 0 {
      StepKeepsInv(s, run[0]);
      RunKeepsInv(Next(s, run[0]), run[1..]);
    }
  }

  ghost predicate Reachable(s: Sys) {
    exists run :: Possible(Init, run) && After(Init, run) == s
  }

  lemma ReachableInv(s: Sys)
    requires Reachable(s)
    ensures Inv(s)
  {
    hide Next, Enabled;
    var run :| Possible(Init, run) && After(Init, run) == s;
    RunKeepsInv(Init, run);
  }

  // ----- What the table promises -----

  /** No two scopes ever listen on one database: it would deliver each one's writes to the other. */
  lemma IdentitiesAreDistinct(s: Sys, t: string, u: string)
    requires Reachable(s) && t in s.tb.slots && u in s.tb.slots && t != u
    ensures s.tb.slots[t] in s.tb.heap && s.tb.slots[u] in s.tb.heap
    ensures s.tb.heap[s.tb.slots[t]].identity == s.tb.heap[s.tb.slots[u]].identity ==>
      s.tb.heap[s.tb.slots[t]].identity == ""
  {
    hide FeedOk, ClosedOnce;
    ReachableInv(s);
  }

  /** A ready channel is closed at most once, whoever gets to it first. */
  lemma ReadyClosesOnce(s: Sys, i: nat, j: nat)
    requires Reachable(s) && i < j < |s.closes|
    ensures s.closes[i] != s.closes[j]
  {
    hide FeedOk, Separate;
    ReachableInv(s);
  }

  /** A waiter is told the truth: a closed ready channel carries no error exactly when the feed has its one reader. */
  lemma WaitersAreToldTheTruth(s: Sys, id: nat)
    requires Reachable(s) && id in s.tb.heap && s.tb.heap[id].tenant != "" && s.tb.heap[id].readyClosed
    ensures s.tb.heap[id].err.None? <==> s.tb.heap[id].readers == 1
    ensures s.tb.heap[id].err.Some? <==> s.tb.heap[id].readers == 0
  {
    hide Separate, ClosedOnce;
    ReachableInv(s);
    assert FeedOk(s, id);
  }

  /** A named feed whose waiters have been woken. */
  predicate Woken(s: Sys, id: nat) { id in s.tb.heap && s.tb.heap[id].tenant != "" && s.tb.heap[id].readyClosed }

  lemma ErrorStands(s: Sys, a: Action, id: nat)
    requires Inv(s) && Enabled(s, a) && Woken(s, id)
    ensures Woken(Next(s, a), id) && Next(s, a).tb.heap[id].err == s.tb.heap[id].err
  {
    hide Separate, ClosedOnce, Listed, Taken;
    assert FeedOk(s, id);
    match a {
      case PublishAs(_, _) => OpenersLeaveErrors(s, a, id);
      case PublishClaimed(_) => OpenersLeaveErrors(s, a, id);
      case Retract(_, _) => OpenersLeaveErrors(s, a, id);
      case StopAll => StopLeavesErrors(s, id);
      case _ => OthersLeaveErrors(s, a, id);
    }
  }

  lemma {:induction false} ErrorStandsThroughout(s: Sys, run: seq<Action>, id: nat)
    requires Inv(s) && Possible(s, run) && Woken(s, id)
    ensures Woken(After(s, run), id) && After(s, run).tb.heap[id].err == s.tb.heap[id].err
    decreases |run|
  {
    hide Inv, Next, Enabled;
    if |run| > 0 {
      ErrorStands(s, run[0], id);
      StepKeepsInv(s, run[0]);
      ErrorStandsThroughout(Next(s, run[0]), run[1..], id);
    }
  }

  /** And what it reads is final: once its waiters have been woken, no run writes a named feed's error again. */
  lemma {:induction false} ErrorIsFinal(s: Sys, run: seq<Action>, id: nat)
    requires Reachable(s) && Possible(s, run) && Woken(s, id)
    ensures Woken(After(s, run), id) && After(s, run).tb.heap[id].err == s.tb.heap[id].err
  {
    hide Inv, Next, Enabled;
    ReachableInv(s);
    ErrorStandsThroughout(s, run, id);
  }

  predicate IsOpener(a: Action) { a.PublishAs? || a.PublishClaimed? || a.Retract? }

  lemma RetractLeavesError(tb: Table, opener: nat, cause: Cause, id: nat)
    requires opener in tb.heap && id in tb.heap && (id == opener ==> tb.heap[id].err.Some?)
    ensures var tb' := FeedTable.Retract(tb, opener, cause);
      id in tb'.heap && tb'.heap[id].err == tb.heap[id].err && (tb.heap[id].readyClosed ==> tb'.heap[id].readyClosed)
      && tb'.heap[id].tenant == tb.heap[id].tenant
  {
  }

  lemma LaunchLeavesError(tb: Table, opener: nat, identity: string, id: nat)
    requires opener in tb.heap && id in tb.heap
    ensures var tb' := CloseReady(Launch(Put(tb, opener, tb.heap[opener].(identity := identity)), opener), opener);
      id in tb'.heap && tb'.heap[id].err == tb.heap[id].err && (tb.heap[id].readyClosed ==> tb'.heap[id].readyClosed)
      && tb'.heap[id].tenant == tb.heap[id].tenant
  {
  }

  /** An opener that finds its feed's ready closed finds the cause recorded too. */
  lemma OpenersLeaveErrors(s: Sys, a: Action, id: nat)
    requires Enabled(s, a) && IsOpener(a) && Woken(s, id) && FeedOk(s, id)
    ensures Woken(Next(s, a), id) && Next(s, a).tb.heap[id].err == s.tb.heap[id].err
  {
    hide Listed, Taken, FeedTable.Retract, CloseReady, Launch;
    match a {
      case Retract(opener, cause) => RetractLeavesError(s.tb, opener, cause, id);
      case PublishAs(opener, identity) =>
        if s.tb.closing { RetractLeavesError(s.tb, opener, Closed, id); }
        else if identity != "" && Taken(s.tb, opener, identity) {
          RetractLeavesError(s.tb, opener, SharedDatabase, id);
        }
        else { LaunchLeavesError(s.tb, opener, identity, id); }
      case PublishClaimed(opener) =>
        if s.tb.closing {
          RetractLeavesError(s.tb, opener, Closed, id);
        } else {
          assert Put(s.tb, opener, s.tb.heap[opener].(identity := s.tb.heap[opener].identity)) == s.tb;
          LaunchLeavesError(s.tb, opener, s.tb.heap[opener].identity, id);
        }
    }
  }

  lemma StopLeavesErrors(s: Sys, id: nat)
    requires Enabled(s, StopAll) && Woken(s, id)
    ensures Woken(Next(s, StopAll), id) && Next(s, StopAll).tb.heap[id].err == s.tb.heap[id].err
  {
    hide Listed;
  }

  /** Acquiring counts a reference and touches nothing else of a feed that is there. */
  lemma AcquireTouchesRefs(s: Sys, tenant: string, spare: nat, id: nat)
    requires Sane(s.tb) && spare !in s.tb.heap && id in s.tb.heap
    ensures var tb := AcquireStep(s, tenant, spare).tb;
      id in tb.heap && tb.heap[id] == s.tb.heap[id].(refs := tb.heap[id].refs)
  {
    hide AcquireResult;
    match AcquireResult(s.tb, tenant, spare)
    case Refused(_) =>
    case Shared(_) =>
    case Created(other) => CreatedElsewhere(s.tb, tenant, spare, id);
  }

  lemma CreatedElsewhere(tb: Table, tenant: string, spare: nat, id: nat)
    requires Sane(tb) && spare !in tb.heap && id in tb.heap && AcquireResult(tb, tenant, spare).Created?
    ensures AcquireResult(tb, tenant, spare).id != id
  {
  }

  /** A retried Start clears what stands against the feed in the zero slot, and touches nothing else. */
  lemma StartTouchesError(s: Sys, spare: nat, id: nat)
    requires Sane(s.tb) && spare !in s.tb.heap && id in s.tb.heap
    ensures var tb := StartStep(s, spare).tb;
      id in tb.heap
      && tb.heap[id] == s.tb.heap[id].(
           err := if !s.tb.closing && "" in s.tb.slots && s.tb.slots[""] == id then None else s.tb.heap[id].err)
  {
  }

  lemma OthersLeaveErrors(s: Sys, a: Action, id: nat)
    requires Enabled(s, a) && !IsOpener(a) && !a.StopAll? && Woken(s, id)
    ensures Woken(Next(s, a), id) && Next(s, a).tb.heap[id].err == s.tb.heap[id].err
  {
    hide Listed, Taken, AcquireStep, StartStep;
    match a {
      case Acquire(tenant, spare) => AcquireTouchesRefs(s, tenant, spare, id);
      case Start(spare) => StartTouchesError(s, spare, id);
      case _ =>
    }
  }

  // ----- What a feed was told -----

  function DatabaseOf(s: Sys, id: nat): string { if id in s.databases then s.databases[id] else "" }

  /** A feed is named after the database it reads, and stopped once it has left the table with something to stop. */
  predicate Told(s: Sys, id: nat)
    requires id in s.tb.heap
  {
    var f := s.tb.heap[id];
    && f.identity == DatabaseOf(s, id)
    && (f.stopping <==> !InTable(s.tb, id) && (f.readers == 1 || f.tenant == ""))
    && (f.tenant != "" && InTable(s.tb, id) ==> f.err.None?)
    && (id in s.creating && !s.tb.closing ==> f.err.None?)
  }

  ghost predicate AllTold(s: Sys) {
    && (forall id :: id in s.databases || id in s.held ==> id in s.tb.heap)
    && forall id :: id in s.tb.heap ==> Told(s, id)
  }

  /** A fresh feed, or one with another share taken, in the slot of its tenant. */
  lemma AcquireTells(s: Sys, tenant: string, spare: nat, id: nat)
    requires Inv(s) && AllTold(s) && spare !in s.tb.heap && id in AcquireStep(s, tenant, spare).tb.heap
    ensures Told(AcquireStep(s, tenant, spare), id)
  {
    hide FeedOk, Separate, ClosedOnce, Taken, Told;
    if AcquireResult(s.tb, tenant, spare).Shared? && tenant in s.tb.slots {
      ShareTells(s, tenant, spare, id);
    } else if AcquireResult(s.tb, tenant, spare).Refused? {
      assert AcquireStep(s, tenant, spare) == s;
    } else if tenant == "" {
      ZeroReserves(s, spare);
      NewFeedTells(s, AcquireStep(s, tenant, spare), tenant, spare, id);
    } else {
      NewFeedTells(s, AcquireStep(s, tenant, spare), tenant, spare, id);
    }
  }

  lemma ShareTells(s: Sys, tenant: string, spare: nat, id: nat)
    requires Inv(s) && AllTold(s) && tenant in s.tb.slots && AcquireResult(s.tb, tenant, spare).Shared?
    requires id in AcquireStep(s, tenant, spare).tb.heap
    ensures Told(AcquireStep(s, tenant, spare), id)
  {
    hide FeedOk, Separate, ClosedOnce, Taken;
    assert id in s.tb.heap && Told(s, id);
  }

  lemma NewFeedTells(s: Sys, s': Sys, tenant: string, spare: nat, id: nat)
    requires Inv(s) && AllTold(s) && spare !in s.tb.heap && tenant !in s.tb.slots && !s.tb.closing
    requires s'.tb.heap == s.tb.heap[spare := NewFeed(tenant, 1)] && s'.tb.slots == s.tb.slots[tenant := spare]
      && s'.databases == s.databases && s'.tb.closing == s.tb.closing && s'.creating <= s.creating + {spare}
    requires id in s'.tb.heap
    ensures Told(s', id)
  {
    hide FeedOk, Separate, ClosedOnce, Taken;
    assert id in s.tb.heap ==> Told(s, id);
  }

  lemma StartTells(s: Sys, spare: nat, id: nat)
    requires Inv(s) && AllTold(s) && spare !in s.tb.heap && id in StartStep(s, spare).tb.heap
    ensures Told(StartStep(s, spare), id)
  {
    hide Inv, AllTold, StartStep;
    if s.tb.closing { NoStartTells(s, spare, id); }
    else if "" in s.tb.slots { RestartTells(s, spare, id); }
    else { FirstStartTells(s, spare, id); }
  }

  lemma NoStartTells(s: Sys, spare: nat, id: nat)
    requires Inv(s) && AllTold(s) && s.tb.closing && id in StartStep(s, spare).tb.heap
    ensures Told(StartStep(s, spare), id)
  {
    hide FeedOk, Separate, ClosedOnce, Taken;
    assert StartStep(s, spare) == s;
  }

  lemma RestartTells(s: Sys, spare: nat, id: nat)
    requires Inv(s) && AllTold(s) && !s.tb.closing && "" in s.tb.slots && id in StartStep(s, spare).tb.heap
    ensures Told(StartStep(s, spare), id)
  {
    hide FeedOk, Separate, ClosedOnce, Taken, StartStep;
    RestartFrame(s, spare);
    assert id in s.tb.heap && Told(s, id);
  }

  lemma RestartFrame(s: Sys, spare: nat)
    requires Sane(s.tb) && !s.tb.closing && "" in s.tb.slots
    ensures var s', zero := StartStep(s, spare), s.tb.slots[""];
      && s'.tb.slots == s.tb.slots && s'.tb.closing == s.tb.closing && s'.databases == s.databases
      && s'.tb.heap == s.tb.heap[zero := s.tb.heap[zero].(err := None)]
      && s'.creating <= s.creating + {zero}
  {
  }

  lemma FirstStartTells(s: Sys, spare: nat, id: nat)
    requires Inv(s) && AllTold(s) && spare !in s.tb.heap && !s.tb.closing && "" !in s.tb.slots
    requires id in StartStep(s, spare).tb.heap
    ensures Told(StartStep(s, spare), id)
  {
    hide FeedOk, Separate, ClosedOnce, Taken;
    assert id in s.tb.heap ==> Told(s, id);
  }

  lemma RetractTells(s: Sys, opener: nat, cause: Cause, id: nat)
    requires Inv(s) && AllTold(s) && opener in s.creating && opener in s.tb.heap && id in s.tb.heap
    ensures Told(Opened(s, opener, FeedTable.Retract(s.tb, opener, cause)), id)
  {
    hide Separate, ClosedOnce, Taken;
    assert Told(s, id) && FeedOk(s, opener);
  }

  lemma LaunchTells(s: Sys, opener: nat, identity: string, databases: map<nat, string>, id: nat)
    requires Inv(s) && AllTold(s) && opener in s.creating && opener in s.tb.heap && !s.tb.closing && id in s.tb.heap
    requires databases == s.databases[opener := identity]
      || (databases == s.databases && identity == s.tb.heap[opener].identity)
    ensures var named := Put(s.tb, opener, s.tb.heap[opener].(identity := identity));
      Told(Opened(s, opener, CloseReady(Launch(named, opener), opener)).(databases := databases), id)
  {
    hide Separate, ClosedOnce, Taken;
    assert Told(s, id) && FeedOk(s, opener);
  }

  lemma RetractTouchesNoOther(tb: Table, opener: nat, cause: Cause)
    requires opener in tb.heap
    ensures FeedTable.Retract(tb, opener, cause).heap.Keys == tb.heap.Keys
  {
  }

  lemma OpenerTells(s: Sys, a: Action, id: nat)
    requires Inv(s) && AllTold(s) && Enabled(s, a) && IsOpener(a) && id in Next(s, a).tb.heap
    ensures id in s.tb.heap && Told(Next(s, a), id)
  {
    hide Inv, AllTold, Told, FeedTable.Retract, CloseReady, Launch, Taken;
    match a {
      case Retract(opener, cause) =>
        RetractTouchesNoOther(s.tb, opener, cause);
        RetractTells(s, opener, cause, id);
      case PublishAs(opener, identity) =>
        if s.tb.closing {
          RetractTouchesNoOther(s.tb, opener, Closed);
          RetractTells(s, opener, Closed, id);
        } else if identity != "" && Taken(s.tb, opener, identity) {
          RetractTouchesNoOther(s.tb, opener, SharedDatabase);
          RetractTells(s, opener, SharedDatabase, id);
        } else {
          LaunchTouchesNoOther(Put(s.tb, opener, s.tb.heap[opener].(identity := identity)), opener);
          LaunchTells(s, opener, identity, s.databases[opener := identity], id);
        }
      case PublishClaimed(opener) =>
        if s.tb.closing {
          RetractTouchesNoOther(s.tb, opener, Closed);
          RetractTells(s, opener, Closed, id);
        } else {
          var same := s.tb.heap[opener].identity;
          assert Put(s.tb, opener, s.tb.heap[opener].(identity := same)) == s.tb;
          LaunchTouchesNoOther(s.tb, opener);
          LaunchTells(s, opener, same, s.databases, id);
        }
    }
  }

  lemma LaunchTouchesNoOther(tb: Table, opener: nat)
    requires opener in tb.heap
    ensures CloseReady(Launch(tb, opener), opener).heap.Keys == tb.heap.Keys
  {
  }

  lemma ClaimTells(s: Sys, reader: nat, identity: string, id: nat)
    requires Inv(s) && AllTold(s) && Enabled(s, Claim(reader, identity)) && id in s.tb.heap
    ensures Told(Next(s, Claim(reader, identity)), id)
  {
    hide FeedOk, Separate, ClosedOnce, Taken;
    assert Told(s, id);
  }

  lemma ReleaseTells(s: Sys, reader: nat, id: nat)
    requires Inv(s) && AllTold(s) && Enabled(s, Release(reader)) && id in s.tb.heap
    ensures Told(Next(s, Release(reader)), id)
  {
    hide Separate, ClosedOnce, Taken, FeedOk, LastRelease;
    assert Told(s, id);
    if LastRelease(s.tb, reader) { LastReleaseTells(s, reader, id); }
  }

  lemma LastReleaseTells(s: Sys, reader: nat, id: nat)
    requires Inv(s) && Enabled(s, Release(reader)) && LastRelease(s.tb, reader) && id in s.tb.heap && Told(s, id)
    ensures Told(Next(s, Release(reader)), id)
  {
    hide Separate, ClosedOnce, Taken;
    assert FeedOk(s, reader);
  }

  lemma StopAllTells(s: Sys, id: nat)
    requires Inv(s) && AllTold(s) && id in s.tb.heap
    ensures Told(Next(s, StopAll), id)
  {
    hide Separate, ClosedOnce, Taken, Listed;
    assert Told(s, id) && FeedOk(s, id);
    InTableIsListed(s.tb, id);
  }

  lemma StepTells(s: Sys, a: Action)
    requires Inv(s) && AllTold(s) && Enabled(s, a)
    ensures AllTold(Next(s, a))
  {
    hide Inv, Told, Next, Listed;
    DatabasesAreFeeds(s, a);
    forall id | id in Next(s, a).tb.heap ensures Told(Next(s, a), id) { FeedIsTold(s, a, id); }
  }

  lemma DatabasesAreFeeds(s: Sys, a: Action)
    requires Enabled(s, a) && forall id :: id in s.databases || id in s.held ==> id in s.tb.heap
    ensures forall id :: id in Next(s, a).databases || id in Next(s, a).held ==> id in Next(s, a).tb.heap
  {
    hide Listed, Taken, CloseReady, Launch, FeedTable.Retract, FeedTable.Acquire, ForStart, FeedTable.Release;
    if IsOpener(a) { OpenersKeepFeeds(s, a); } else { OthersKeepFeeds(s, a); }
  }

  lemma OpenersKeepFeeds(s: Sys, a: Action)
    requires Enabled(s, a) && IsOpener(a)
    ensures Next(s, a).tb.heap.Keys == s.tb.heap.Keys
    ensures Next(s, a).databases.Keys <= s.databases.Keys + {a.id} && Next(s, a).held.Keys <= s.held.Keys + {a.id}
  {
    hide Listed, Taken, CloseReady, Launch, FeedTable.Retract;
    match a {
      case Retract(opener, cause) => RetractTouchesNoOther(s.tb, opener, cause);
      case PublishAs(opener, identity) =>
        RetractTouchesNoOther(s.tb, opener, Closed);
        RetractTouchesNoOther(s.tb, opener, SharedDatabase);
        LaunchTouchesNoOther(Put(s.tb, opener, s.tb.heap[opener].(identity := identity)), opener);
      case PublishClaimed(opener) =>
        RetractTouchesNoOther(s.tb, opener, Closed);
        LaunchTouchesNoOther(s.tb, opener);
    }
  }

  lemma OthersKeepFeeds(s: Sys, a: Action)
    requires Enabled(s, a) && !IsOpener(a)
    ensures s.tb.heap.Keys <= Next(s, a).tb.heap.Keys
    ensures a.Claim? ==> Next(s, a).databases.Keys <= s.databases.Keys + {a.id}
    ensures !a.Claim? ==> Next(s, a).databases == s.databases
    ensures forall id :: id in Next(s, a).held ==> id in s.held || id in Next(s, a).tb.heap
  {
    hide Listed, Taken, AcquireStep, StartStep;
    match a {
      case Acquire(tenant, spare) => AcquireKeepsFeeds(s, tenant, spare);
      case Start(spare) => StartKeepsFeeds(s, spare);
      case _ =>
    }
  }

  lemma AcquireKeepsFeeds(s: Sys, tenant: string, spare: nat)
    requires Sane(s.tb)
    ensures var s' := AcquireStep(s, tenant, spare);
      && s.tb.heap.Keys <= s'.tb.heap.Keys && s'.databases == s.databases
      && forall id :: id in s'.held ==> id in s.held || id in s'.tb.heap
  {
  }

  lemma StartKeepsFeeds(s: Sys, spare: nat)
    requires Sane(s.tb)
    ensures var s' := StartStep(s, spare);
      s.tb.heap.Keys <= s'.tb.heap.Keys && s'.databases == s.databases && s'.held == s.held
  {
  }

  lemma FeedIsTold(s: Sys, a: Action, id: nat)
    requires Inv(s) && AllTold(s) && Enabled(s, a) && id in Next(s, a).tb.heap
    ensures Told(Next(s, a), id)
  {
    hide Inv, AllTold, Told, AcquireStep, StartStep, Opened, Listed, Taken, FeedTable.Retract, CloseReady, Launch;
    match a {
      case Acquire(tenant, spare) => AcquireTells(s, tenant, spare, id);
      case Start(spare) => StartTells(s, spare, id);
      case Claim(reader, identity) => ClaimTells(s, reader, identity, id);
      case Release(reader) => ReleaseTells(s, reader, id);
      case StopAll => StopAllTells(s, id);
      case _ => OpenerTells(s, a, id);
    }
  }

  lemma {:induction false} RunTells(s: Sys, run: seq<Action>)
    requires Inv(s) && AllTold(s) && Possible(s, run)
    ensures Inv(After(s, run)) && AllTold(After(s, run))
    decreases |run|
  {
    hide Inv, AllTold, Next, Enabled;
    if |run| > 0 {
      StepKeepsInv(s, run[0]);
      StepTells(s, run[0]);
      RunTells(Next(s, run[0]), run[1..]);
    }
  }

  lemma ReachableTold(s: Sys)
    requires Reachable(s)
    ensures Inv(s) && AllTold(s)
  {
    hide Next, Enabled;
    var run :| Possible(Init, run) && After(Init, run) == s;
    RunTells(Init, run);
  }

  /**
   No reader is left behind: a feed has been told to stop exactly if it is out of the table and either its reader was
   launched or it is the zero feed; so a reader in service is never stopped, and each is told once, as it leaves.
   */
  lemma ReadersAreToldToStop(s: Sys, id: nat)
    requires Reachable(s) && id in s.tb.heap
    ensures s.tb.heap[id].stopping
      <==> !InTable(s.tb, id) && (s.tb.heap[id].readers > 0 || s.tb.heap[id].tenant == "")
  {
    hide FeedOk, Separate, ClosedOnce;
    ReachableTold(s);
    assert Told(s, id);
    OneReaderEach(s, id);
  }

  /** No two scopes in service were last told that they read the same database. */
  lemma DatabasesAreDistinct(s: Sys, t: string, u: string)
    requires Reachable(s) && t in s.tb.slots && u in s.tb.slots && t != u
    requires s.tb.slots[t] in s.databases && s.tb.slots[u] in s.databases
    ensures s.databases[s.tb.slots[t]] == s.databases[s.tb.slots[u]] ==> s.databases[s.tb.slots[t]] == ""
  {
    hide FeedOk, Separate, ClosedOnce;
    ReachableTold(s);
    IdentitiesAreDistinct(s, t, u);
    assert Told(s, s.tb.slots[t]) && Told(s, s.tb.slots[u]);
  }

  /** One reader per feed, however often it is started, shared or retried. */
  lemma OneReaderEach(s: Sys, id: nat)
    requires Reachable(s) && id in s.tb.heap
    ensures s.tb.heap[id].readers <= 1
  {
    hide Separate, ClosedOnce;
    ReachableInv(s);
    assert FeedOk(s, id);
  }

  predicate SameReaders(tb: Table, tb': Table) {
    && tb'.closing && tb'.heap.Keys == tb.heap.Keys
    && forall id :: id in tb.heap ==> tb'.heap[id].readers == tb.heap[id].readers
  }

  lemma ClosingStartsNothing(s: Sys, a: Action)
    requires s.tb.closing && Enabled(s, a)
    ensures SameReaders(s.tb, Next(s, a).tb)
  {
    hide Listed, Taken, FeedTable.Retract;
    match a {
      case Retract(id, cause) => RetractKeepsReaders(s.tb, id, cause);
      case PublishAs(id, _) => RetractKeepsReaders(s.tb, id, Closed);
      case PublishClaimed(id) => RetractKeepsReaders(s.tb, id, Closed);
      case _ =>
    }
  }

  lemma RetractKeepsReaders(tb: Table, id: nat, cause: Cause)
    requires id in tb.heap && tb.closing
    ensures SameReaders(tb, FeedTable.Retract(tb, id, cause))
  {
  }

  /** Once the store is closing no run makes a feed or launches a reader: no creator connecting, no retried Start. */
  lemma {:induction false} NoReaderAfterClosing(s: Sys, run: seq<Action>)
    requires s.tb.closing && Possible(s, run)
    ensures SameReaders(s.tb, After(s, run).tb)
    decreases |run|
  {
    hide Next, Enabled;
    if |run| > 0 {
      ClosingStartsNothing(s, run[0]);
      NoReaderAfterClosing(Next(s, run[0]), run[1..]);
    }
  }

  /** The three ways a named slot is given up. */
  predicate GivesUp(s: Sys, a: Action, id: nat) {
    match a
    case Release(other) => other == id && Held(s, id) == 1
    case Retract(other, _) => other == id
    case PublishAs(other, identity) => other == id && !Publishes(s.tb, id, identity)
    case StopAll => true
    case _ => false
  }

  /** A named feed leaves the table exactly on its last release, on its failed creation, or on Close. */
  lemma SlotLeavesExactly(s: Sys, a: Action, t: string)
    requires Reachable(s) && Enabled(s, a) && t != "" && t in s.tb.slots
    ensures (t in Next(s, a).tb.slots && Next(s, a).tb.slots[t] == s.tb.slots[t]) <==> !GivesUp(s, a, s.tb.slots[t])
  {
    hide Separate, ClosedOnce, Next;
    ReachableInv(s);
    assert FeedOk(s, s.tb.slots[t]);
    if IsOpener(a) { OpenersGiveUp(s, a, t); } else { OthersGiveUp(s, a, t); }
  }

  lemma OpenersGiveUp(s: Sys, a: Action, t: string)
    requires Enabled(s, a) && IsOpener(a) && !s.tb.closing && t != "" && t in s.tb.slots
    ensures (t in Next(s, a).tb.slots && Next(s, a).tb.slots[t] == s.tb.slots[t]) <==> !GivesUp(s, a, s.tb.slots[t])
  {
    hide Listed, Taken;
  }

  lemma OthersGiveUp(s: Sys, a: Action, t: string)
    requires Enabled(s, a) && !IsOpener(a) && t != "" && t in s.tb.slots && FeedOk(s, s.tb.slots[t])
    ensures (t in Next(s, a).tb.slots && Next(s, a).tb.slots[t] == s.tb.slots[t]) <==> !GivesUp(s, a, s.tb.slots[t])
  {
    hide Listed, Taken;
  }

  lemma ZeroSlotStep(s: Sys, a: Action)
    requires Inv(s) && Enabled(s, a) && "" in s.tb.slots && !a.StopAll?
    ensures "" in Next(s, a).tb.slots && Next(s, a).tb.slots[""] == s.tb.slots[""]
  {
    if IsOpener(a) { OpenersKeepZeroSlot(s, a); } else { OthersKeepZeroSlot(s, a); }
  }

  lemma OpenersKeepZeroSlot(s: Sys, a: Action)
    requires Enabled(s, a) && "" in s.tb.slots && IsOpener(a)
    ensures "" in Next(s, a).tb.slots && Next(s, a).tb.slots[""] == s.tb.slots[""]
  {
    hide Listed, Taken;
  }

  lemma OthersKeepZeroSlot(s: Sys, a: Action)
    requires Enabled(s, a) && "" in s.tb.slots && !IsOpener(a) && !a.StopAll?
    ensures "" in Next(s, a).tb.slots && Next(s, a).tb.slots[""] == s.tb.slots[""]
  {
    hide Listed, Taken;
  }

  lemma {:induction false} ZeroSlotThroughout(s: Sys, run: seq<Action>)
    requires Inv(s) && Possible(s, run) && "" in s.tb.slots && StopAll !in run
    ensures "" in After(s, run).tb.slots && After(s, run).tb.slots[""] == s.tb.slots[""]
    decreases |run|
  {
    hide Inv, Next, Enabled;
    if |run| > 0 {
      ZeroSlotStep(s, run[0]);
      StepKeepsInv(s, run[0]);
      ZeroSlotThroughout(Next(s, run[0]), run[1..]);
    }
  }

  /** The zero feed is the store's own: every run without a Close leaves the slot holding the same feed. */
  lemma {:induction false} ZeroSlotStays(s: Sys, run: seq<Action>)
    requires Reachable(s) && Possible(s, run) && "" in s.tb.slots && StopAll !in run
    ensures "" in After(s, run).tb.slots && After(s, run).tb.slots[""] == s.tb.slots[""]
  {
    hide Inv, Next, Enabled;
    ReachableInv(s);
    ZeroSlotThroughout(s, run);
  }

  // ----- Why a feed is refused -----

  /** Somebody else in the table was last told that it reads this database. */
  predicate ReadBySomeoneElse(s: Sys, id: nat, database: string) {
    exists t :: t in s.tb.slots && s.tb.slots[t] != id && DatabaseOf(s, s.tb.slots[t]) == database
  }

  /** What a step records against a feed: the first cause only, and a retried Start clears the zero feed's. */
  ghost function ErrAfter(s: Sys, a: Action, id: nat): Option<Cause>
    requires id in s.tb.heap
  {
    var f := s.tb.heap[id];
    match a
    case Start(_) => if !s.tb.closing && f.tenant == "" && InTable(s.tb, id) then None else f.err
    case Retract(opener, cause) => if opener == id && f.err.None? then Some(cause) else f.err
    case PublishAs(opener, database) =>
      if opener != id || f.err.Some? then f.err
      else if s.tb.closing then Some(Closed)
      else if database != "" && ReadBySomeoneElse(s, id, database) then Some(SharedDatabase)
      else None
    case PublishClaimed(opener) => if opener == id && f.err.None? && s.tb.closing then Some(Closed) else f.err
    case StopAll => if InTable(s.tb, id) && f.tenant != "" && !f.readyClosed then Some(Closed) else f.err
    case _ => f.err
  }

  lemma TakenMeansRead(s: Sys, id: nat, database: string)
    requires Sane(s.tb) && AllTold(s)
    ensures Taken(s.tb, id, database) <==> ReadBySomeoneElse(s, id, database)
  {
    hide InTable;
    forall t | t in s.tb.slots ensures s.tb.heap[s.tb.slots[t]].identity == DatabaseOf(s, s.tb.slots[t]) {
      assert Told(s, s.tb.slots[t]);
    }
  }

  lemma RetractRecords(tb: Table, opener: nat, cause: Cause, id: nat)
    requires opener in tb.heap && id in tb.heap
    ensures id in FeedTable.Retract(tb, opener, cause).heap
    ensures FeedTable.Retract(tb, opener, cause).heap[id].err
      == if opener == id && tb.heap[id].err.None? then Some(cause) else tb.heap[id].err
  {
  }

  lemma OpenersRecord(s: Sys, a: Action, id: nat)
    requires Sane(s.tb) && AllTold(s) && Enabled(s, a) && IsOpener(a) && id in s.tb.heap
    requires a.id == id && a.PublishAs? ==> s.tb.heap[id].err.None? || s.tb.closing
    ensures id in Next(s, a).tb.heap && Next(s, a).tb.heap[id].err == ErrAfter(s, a, id)
  {
    hide AllTold, FeedTable.Retract, CloseReady, Launch, Taken, ReadBySomeoneElse;
    match a {
      case Retract(opener, cause) => RetractRecords(s.tb, opener, cause, id);
      case PublishAs(opener, database) =>
        TakenMeansRead(s, opener, database);
        RetractRecords(s.tb, opener, Closed, id);
        RetractRecords(s.tb, opener, SharedDatabase, id);
        LaunchLeavesError(s.tb, opener, database, id);
      case PublishClaimed(opener) =>
        var same := s.tb.heap[opener].identity;
        assert Put(s.tb, opener, s.tb.heap[opener].(identity := same)) == s.tb;
        RetractRecords(s.tb, opener, Closed, id);
        LaunchLeavesError(s.tb, opener, same, id);
    }
  }

  lemma OthersRecord(s: Sys, a: Action, id: nat)
    requires Inv(s) && Enabled(s, a) && !IsOpener(a) && id in s.tb.heap
    ensures id in Next(s, a).tb.heap && Next(s, a).tb.heap[id].err == ErrAfter(s, a, id)
  {
    hide FeedOk, Separate, ClosedOnce, Listed, Taken, ReadBySomeoneElse, AcquireStep, StartStep;
    match a {
      case Acquire(tenant, spare) => AcquireTouchesRefs(s, tenant, spare, id);
      case Start(spare) => StartTouchesError(s, spare, id);
      case StopAll => StopRecords(s, id);
      case _ =>
    }
  }

  lemma StopRecords(s: Sys, id: nat)
    requires Inv(s) && Enabled(s, StopAll) && id in s.tb.heap
    ensures id in Next(s, StopAll).tb.heap && Next(s, StopAll).tb.heap[id].err == ErrAfter(s, StopAll, id)
  {
    hide Separate, ClosedOnce, Listed, Taken, ReadBySomeoneElse;
    assert FeedOk(s, id);
    InTableIsListed(s.tb, id);
  }

  lemma NewFeedsAreClean(s: Sys, a: Action, id: nat)
    requires Enabled(s, a) && id in Next(s, a).tb.heap && id !in s.tb.heap
    ensures Next(s, a).tb.heap[id].err.None?
  {
    hide Listed, Taken, FeedTable.Retract, CloseReady, Launch, AcquireStep, StartStep;
    if IsOpener(a) { OpenersKeepFeeds(s, a); }
    else if a.Acquire? { AcquiredIsClean(s, a.tenant, a.spare, id); }
    else if a.Start? { StartedIsClean(s, a.spare, id); }
  }

  lemma AcquiredIsClean(s: Sys, tenant: string, spare: nat, id: nat)
    requires Sane(s.tb) && id in AcquireStep(s, tenant, spare).tb.heap && id !in s.tb.heap
    ensures AcquireStep(s, tenant, spare).tb.heap[id].err.None?
  {
  }

  lemma StartedIsClean(s: Sys, spare: nat, id: nat)
    requires Sane(s.tb) && id in StartStep(s, spare).tb.heap && id !in s.tb.heap
    ensures StartStep(s, spare).tb.heap[id].err.None?
  {
  }

  /**
   Why a feed is refused, exactly, in every reachable state: as its opener says when it could not connect; because
   somebody else in the table was last told that it reads the same database; or because the store is closing. The first
   cause stays, except that a retried Start clears the zero feed's.
   */
  lemma ErrorsTellWhy(s: Sys, a: Action, id: nat)
    requires Reachable(s) && Enabled(s, a) && id in Next(s, a).tb.heap
    ensures Next(s, a).tb.heap[id].err == if id in s.tb.heap then ErrAfter(s, a, id) else None
  {
    hide Inv, AllTold, Next, ErrAfter, Reachable;
    ReachableTold(s);
    if id !in s.tb.heap {
      NewFeedsAreClean(s, a, id);
    } else if IsOpener(a) {
      OpenersStartClean(s, a, id);
      OpenersRecord(s, a, id);
    } else {
      OthersRecord(s, a, id);
    }
  }

  /** An opener finds nothing recorded against its feed, unless the store is closing. */
  lemma OpenersStartClean(s: Sys, a: Action, id: nat)
    requires Inv(s) && AllTold(s) && Enabled(s, a) && IsOpener(a) && id in s.tb.heap
    ensures Sane(s.tb) && (a.id == id ==> s.tb.heap[id].err.None? || s.tb.closing)
  {
    hide Separate, ClosedOnce, Taken, FeedOk;
    assert Told(s, id);
  }

  /**
   What a subscriber gets, exactly. A closing store refuses everybody and changes nothing. Otherwise a named scope is
   never refused: it shares the feed in its slot, or reserves the slot under a feed of its own; and the zero scope is
   refused only while its last Start stands failed, with that cause. Whoever is not refused holds one more reference to
   the feed that is in the slot afterwards.
   */
  lemma AcquireAnswersExactly(s: Sys, tenant: string, spare: nat)
    requires Reachable(s) && Enabled(s, Acquire(tenant, spare))
    ensures s.tb.closing ==>
      AcquireResult(s.tb, tenant, spare) == Refused(Closed) && Next(s, Acquire(tenant, spare)) == s
    ensures !s.tb.closing ==>
      AcquireResult(s.tb, tenant, spare)
      == if tenant !in s.tb.slots then if tenant == "" then Shared(spare) else Created(spare)
         else if tenant == "" && s.tb.heap[s.tb.slots[""]].err.Some?
         then Refused(s.tb.heap[s.tb.slots[""]].err.value)
         else Shared(s.tb.slots[tenant])
    ensures var answer, s' := AcquireResult(s.tb, tenant, spare), Next(s, Acquire(tenant, spare));
      !answer.Refused? ==>
        tenant in s'.tb.slots && s'.tb.slots[tenant] == answer.id && Held(s', answer.id) == Held(s, answer.id) + 1
        && answer.id in s'.tb.heap && s'.tb.heap[answer.id].tenant == tenant
        && s'.tb.heap[answer.id].refs == if answer.id in s.tb.heap then s.tb.heap[answer.id].refs + 1 else 1
  {
    hide Separate, ClosedOnce, FeedOk, Taken;
    ReachableTold(s);
  }
}
