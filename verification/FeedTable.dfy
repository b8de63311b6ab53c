/**
 The table of changefeeds a backend keeps, one per scope: shared by reference count, reserved before the
 connection is opened, published or retracted after, refused when two would read one database, torn down once.
 */
module FeedTable {
  import opened Types

  datatype Cause = Closed | SharedDatabase | OpenFailed

  /** `identity` names the database or collection the feed reads; empty until claimed. */
  datatype Feed = Feed(
    tenant: string,
    identity: string,
    err: Option<Cause>,
    hasReady: bool,       // only a named tenant's feed has waiters
    readyClosed: bool,
    refs: int,
    stopping: bool,
    readers: nat)         // reader goroutines launched

  datatype Table = Table(slots: map<string, nat>, heap: map<nat, Feed>, closing: bool)

  function NewFeed(tenant: string, refs: int): Feed {
    Feed(tenant, "", None, tenant != "", false, refs, false, 0)
  }

  function Put(tb: Table, id: nat, f: Feed): Table { tb.(heap := tb.heap[id := f]) }

  // ----- One hold of feedsMu each -----

  function ZeroSlot(tb: Table, spare: nat): Table {
    if "" in tb.slots then tb else Put(tb, spare, NewFeed("", 0)).(slots := tb.slots["" := spare])
  }

  /** Acquired: take a share of what is there. Created: this caller reserved the slot and must open the feed. */
  datatype Acquisition = Refused(cause: Cause) | Shared(id: nat) | Created(id: nat)

  predicate Sane(tb: Table) {
    forall t :: t in tb.slots ==> tb.slots[t] in tb.heap && tb.heap[tb.slots[t]].tenant == t
  }

  function AcquireResult(tb: Table, tenant: string, spare: nat): Acquisition
    requires Sane(tb)
  {
    if tb.closing then Refused(Closed)
    else if tenant == "" then
      if "" in tb.slots && tb.heap[tb.slots[""]].err.Some? then Refused(tb.heap[tb.slots[""]].err.value)
      else Shared(if "" in tb.slots then tb.slots[""] else spare)
    else if tenant in tb.slots then Shared(tb.slots[tenant])
    else Created(spare)
  }

  function Acquire(tb: Table, tenant: string, spare: nat): Table
    requires Sane(tb)
  {
    match AcquireResult(tb, tenant, spare)
    case Refused(_) => tb
    case Shared(id) =>
      var slot := if tenant == "" then ZeroSlot(tb, spare) else tb;
      if id in slot.heap then Put(slot, id, slot.heap[id].(refs := slot.heap[id].refs + 1)) else slot
    case Created(id) => Put(tb, id, NewFeed(tenant, 1)).(slots := tb.slots[tenant := id])
  }

  /** zeroFeedForStart: a retry clears the refusal an earlier attempt recorded. */
  function ForStart(tb: Table, spare: nat): Table
    requires Sane(tb)
  {
    if tb.closing then tb
    else
      var slot := ZeroSlot(tb, spare);
      var id := slot.slots[""];
      if id in slot.heap then Put(slot, id, slot.heap[id].(err := None)) else slot
  }

  /** Another feed in the table already reads this database. */
  predicate Taken(tb: Table, id: nat, identity: string) {
    exists t :: t in tb.slots && tb.slots[t] != id && tb.slots[t] in tb.heap
      && tb.heap[tb.slots[t]].identity == identity
  }

  /** failLocked: the first cause wins, and a named slot goes. */
  function Fail(tb: Table, id: nat, cause: Cause): Table
    requires id in tb.heap
  {
    var f := tb.heap[id];
    var failed := Put(tb, id, f.(err := if f.err.None? then Some(cause) else f.err));
    if f.tenant != "" && f.tenant in tb.slots && tb.slots[f.tenant] == id
    then failed.(slots := tb.slots - {f.tenant}) else failed
  }

  function CloseReady(tb: Table, id: nat): Table
    requires id in tb.heap
  {
    if !tb.heap[id].hasReady || tb.heap[id].readyClosed then tb else Put(tb, id, tb.heap[id].(readyClosed := true))
  }

  function Retract(tb: Table, id: nat, cause: Cause): Table
    requires id in tb.heap
  {
    CloseReady(Fail(tb, id, cause), id)
  }

  function Launch(tb: Table, id: nat): Table
    requires id in tb.heap
  {
    Put(tb, id, tb.heap[id].(readers := tb.heap[id].readers + 1))
  }

  /** PostgreSQL's publishFeed: the connection has told which database it reached. */
  function PublishAs(tb: Table, id: nat, identity: string): Table
    requires id in tb.heap
  {
    if tb.closing then Retract(tb, id, Closed)
    else if identity != "" && Taken(tb, id, identity) then Retract(tb, id, SharedDatabase)
    else CloseReady(Launch(Put(tb, id, tb.heap[id].(identity := identity)), id), id)
  }

  predicate Publishes(tb: Table, id: nat, identity: string) {
    !tb.closing && !(identity != "" && Taken(tb, id, identity))
  }

  /** MongoDB's claimFeedIdentity: no answer changes nothing, a taken identity is refused. */
  function Claim(tb: Table, id: nat, identity: string): Table
    requires id in tb.heap
  {
    if identity == "" || Taken(tb, id, identity) then tb else Put(tb, id, tb.heap[id].(identity := identity))
  }

  /** MongoDB's publishFeed: the identity was claimed before the stream was opened. */
  function PublishClaimed(tb: Table, id: nat): Table
    requires id in tb.heap
  {
    if tb.closing then Retract(tb, id, Closed) else CloseReady(Launch(tb, id), id)
  }

  /** The last reference to a named feed takes its slot out of the table. */
  predicate LastRelease(tb: Table, id: nat)
    requires id in tb.heap
  {
    var f := tb.heap[id];
    f.tenant != "" && f.refs - 1 <= 0 && f.tenant in tb.slots && tb.slots[f.tenant] == id
  }

  function Release(tb: Table, id: nat): Table
    requires id in tb.heap
  {
    var f := tb.heap[id];
    if LastRelease(tb, id)
    then Put(tb, id, f.(refs := f.refs - 1, stopping := true)).(slots := tb.slots - {f.tenant})
    else Put(tb, id, f.(refs := f.refs - 1))
  }

  /** stopFeeds on one feed: a slot still connecting is failed, any other is stopped. */
  function Stopped(f: Feed): Feed {
    if f.hasReady && !f.readyClosed
    then f.(err := if f.err.None? then Some(Closed) else f.err, readyClosed := true)
    else f.(stopping := true)
  }

  function StopAll(tb: Table): Table {
    Table(map[], map id | id in tb.heap :: if id in tb.slots.Values then Stopped(tb.heap[id]) else tb.heap[id], true)
  }

  // ----- The table as a backend keeps it -----

  class Store {
    var slots: map<string, nat>
    var heap: map<nat, Feed>
    var closing: bool

    ghost function View(): Table
      reads this
    {
      Table(slots, heap, closing)
    }

    constructor ()
      ensures View() == Table(map[], map[], false)
    {
      slots, heap, closing := map[], map[], false;
    }

    method AcquireFeed(tenant: string, spare: nat) returns (a: Acquisition)
      requires Sane(View()) && spare !in heap
      modifies this`slots, this`heap
      ensures View() == Acquire(old(View()), tenant, spare)
      ensures a == AcquireResult(old(View()), tenant, spare)
    {
      if closing { return Refused(Closed); }
      if tenant == "" {
        if "" !in slots {
          heap := heap[spare := NewFeed("", 0)];
          slots := slots["" := spare];
        }
        var zero := slots[""];
        if heap[zero].err.Some? { return Refused(heap[zero].err.value); }
        heap := heap[zero := heap[zero].(refs := heap[zero].refs + 1)];
        return Shared(zero);
      }
      if tenant in slots {
        var id := slots[tenant];
        heap := heap[id := heap[id].(refs := heap[id].refs + 1)];
        return Shared(id);
      }
      heap := heap[spare := NewFeed(tenant, 1)];
      slots := slots[tenant := spare];
      return Created(spare);
    }

    /** A closing store hands out no zero feed, so nothing brings one up behind the teardown. */
    method ZeroFeedForStart(spare: nat) returns (zero: Option<nat>)
      requires Sane(View()) && spare !in heap
      modifies this`slots, this`heap
      ensures View() == ForStart(old(View()), spare)
      ensures zero == if closing then None else Some(View().slots[""])
    {
      if closing { return None; }
      if "" !in slots {
        heap := heap[spare := NewFeed("", 0)];
        slots := slots["" := spare];
      }
      heap := heap[slots[""] := heap[slots[""]].(err := None)];
      return Some(slots[""]);
    }

    method IsTaken(id: nat, identity: string) returns (taken: bool)
      requires Sane(View())
      ensures taken == Taken(View(), id, identity)
    {
      var left := slots.Keys;
      while left != {}
        invariant left <= slots.Keys
        invariant forall t :: t in slots && t !in left ==> slots[t] == id || heap[slots[t]].identity != identity
        decreases |left|
      {
        var t :| t in left;
        if slots[t] != id && heap[slots[t]].identity == identity { return true; }
        left := left - {t};
      }
      return false;
    }

    method RetractFeed(id: nat, cause: Cause)
      requires id in heap
      modifies this`slots, this`heap
      ensures View() == Retract(old(View()), id, cause)
    {
      var f := heap[id];
      if f.err.None? { f := f.(err := Some(cause)); }
      heap := heap[id := f];
      if f.tenant != "" && f.tenant in slots && slots[f.tenant] == id { slots := slots - {f.tenant}; }
      if f.hasReady && !f.readyClosed { heap := heap[id := f.(readyClosed := true)]; }
    }

    /** `live` says whether the reader was launched; the caller closes the connection otherwise. */
    method PublishFeed(id: nat, identity: string) returns (live: bool)
      requires id in heap && Sane(View())
      modifies this`slots, this`heap
      ensures View() == PublishAs(old(View()), id, identity)
      ensures live == Publishes(old(View()), id, identity)
    {
      if closing { RetractFeed(id, Closed); return false; }
      if identity != "" {
        var taken := IsTaken(id, identity);
        if taken { RetractFeed(id, SharedDatabase); return false; }
      }
      var f := heap[id].(identity := identity, readers := heap[id].readers + 1);
      heap := heap[id := f];
      if f.hasReady && !f.readyClosed { heap := heap[id := f.(readyClosed := true)]; }
      return true;
    }

    method ClaimIdentity(id: nat, identity: string) returns (ok: bool)
      requires id in heap && Sane(View())
      modifies this`heap
      ensures View() == Claim(old(View()), id, identity)
      ensures ok == (identity == "" || !Taken(old(View()), id, identity))
    {
      if identity == "" { return true; }
      var taken := IsTaken(id, identity);
      if taken { return false; }
      heap := heap[id := heap[id].(identity := identity)];
      return true;
    }

    method ReleaseFeed(id: nat) returns (last: bool)
      requires id in heap
      modifies this`slots, this`heap
      ensures View() == Release(old(View()), id)
      ensures last == LastRelease(old(View()), id)
    {
      var f := heap[id].(refs := heap[id].refs - 1);
      heap := heap[id := f];
      if f.tenant == "" || f.refs > 0 || f.tenant !in slots || slots[f.tenant] != id { return false; }
      slots := slots - {f.tenant};
      heap := heap[id := f.(stopping := true)];
      return true;
    }

    method StopOne(id: nat)
      requires id in heap
      modifies this`heap
      ensures heap == old(heap)[id := Stopped(old(heap)[id])]
    {
      var f := heap[id];
      if f.hasReady && !f.readyClosed {
        if f.err.None? { f := f.(err := Some(Closed)); }
        heap := heap[id := f.(readyClosed := true)];
      } else {
        heap := heap[id := f.(stopping := true)];
      }
    }

    method StopFeeds()
      requires Sane(View())
      modifies this
      ensures View() == StopAll(old(View()))
    {
      hide StoppedSoFar, Stopped;
      closing := true;
      ghost var was := View();
      var left := slots.Keys;
      assert slots.Keys - left == {};
      NoneStopped(was);
      while left != {}
        invariant left <= slots.Keys && slots == was.slots && closing
        invariant heap == StoppedSoFar(was, slots.Keys - left)
        decreases |left|
      {
        var t :| t in left;
        OneMoreStopped(was, slots.Keys - left, t);
        StopOne(slots[t]);
        assert slots.Keys - (left - {t}) == (slots.Keys - left) + {t};
        left := left - {t};
      }
      assert slots.Keys - left == slots.Keys;
      AllStopped(was);
      slots := map[];
    }
  }

  predicate StoppedBy(slots: map<string, nat>, tenants: set<string>, id: nat) {
    exists t :: t in tenants && t in slots && slots[t] == id
  }

  function StoppedSoFar(tb: Table, tenants: set<string>): map<nat, Feed> {
    map id | id in tb.heap :: if StoppedBy(tb.slots, tenants, id) then Stopped(tb.heap[id]) else tb.heap[id]
  }

  lemma NoneStopped(tb: Table)
    ensures StoppedSoFar(tb, {}) == tb.heap
  {
  }

  /** Every feed has one slot, so each is stopped once. */
  lemma OneMoreStopped(tb: Table, tenants: set<string>, t: string)
    requires Sane(tb) && t in tb.slots && t !in tenants
    ensures tb.slots[t] in StoppedSoFar(tb, tenants)
    ensures StoppedSoFar(tb, tenants + {t}) ==
      StoppedSoFar(tb, tenants)[tb.slots[t] := Stopped(StoppedSoFar(tb, tenants)[tb.slots[t]])]
  {
    hide Stopped;
    assert !StoppedBy(tb.slots, tenants, tb.slots[t]) by {
      forall u | u in tenants && u in tb.slots ensures tb.slots[u] != tb.slots[t] {
        assert tb.heap[tb.slots[u]].tenant == u && tb.heap[tb.slots[t]].tenant == t;
      }
    }
    forall id | id in tb.heap
      ensures StoppedBy(tb.slots, tenants + {t}, id) <==> StoppedBy(tb.slots, tenants, id) || id == tb.slots[t]
    {
      assert t in tenants + {t};
    }
  }

  lemma AllStopped(tb: Table)
    ensures StoppedSoFar(tb, tb.slots.Keys) == StopAll(tb).heap
  {
    forall id | id in tb.heap ensures StoppedBy(tb.slots, tb.slots.Keys, id) <==> id in tb.slots.Values {}
  }
}
