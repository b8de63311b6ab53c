/**
 The publishers of a scope that is dropped and rebuilt under them: changefeed re-reads and their repairs, reconcile
 snapshots, and the caller's own writes and deletes, whether what they publish is a row or the registered default.
 A call belongs to the state it was asked for; between that and the cache stand an identity check and publish's gate.
 */
module Identity {
  import opened Types
  import L = Lifecycle

  datatype Kind = ReRead | Snapshot | LocalWrite

  /**
   A row, or its absence, on its way to a state's cache, with the moments its call passed. A local write asks the
   store before it ever comes here; it resolves its state once.
   */
  datatype Fetched = Fetched(state: nat, kind: Kind, askedAt: nat, returnedAt: nat, checkedAt: nat)

  /** One call. A repair remembers the state its first attempt was armed on; a snapshot its reconcile's own. */
  datatype Call =
    | Pausing(origin: nat)
    | Rearming(origin: nat)                    // its state was still tracked when the pause ended
    | Reading(state: nat, askedAt: nat)
    | Back(state: nat, askedAt: nat, returnedAt: nat)
    | Waking(state: nat)
    | Cleared(state: nat, checkedAt: nat)      // the reconcile's check, before its List
    | Listing(state: nat, checkedAt: nat, askedAt: nat)
    | Ready(row: Fetched)
    | Past(row: Fetched, gatedAt: nat)             // past publish's gate, the row not stored yet

  datatype Cached = Cached(row: Fetched, gatedAt: nat, at: nat)

  /** How a call back from the store decides whose row it carries. The code compares states. */
  datatype Policy = ByIdentity | ByValue

  datatype Sys = Sys(life: L.Sys, policy: Policy, calls: map<nat, Call>, cached: set<Cached>)

  function Init(delay: int, policy: Policy): Sys { Sys(L.Init(delay), policy, map[], {}) }

  datatype Action =
    | Life(a: L.Action)
    | Reads(rid: nat)
    | Fails(rid: nat)
    | Wakes(rid: nat)
    | Rereads(rid: nat)
    | Returns(rid: nat)
    | Checks(rid: nat)
    | Writes(rid: nat)
    | Reconciles(rid: nat, state: nat)
    | ListChecks(rid: nat)
    | Lists(rid: nat)
    | ListReturns(rid: nat)
    | Gate(rid: nat)
    | Stores(rid: nat)
    | Abandons(rid: nat)

  /** The state in service, if any. */
  function Tracked(s: Sys): Option<nat> {
    if s.life.tracked.Some? then Some(s.life.tracked.value.created) else None
  }

  predicate Enabled(s: Sys, a: Action) {
    match a
    case Life(la) => L.Enabled(s.life, la)
    case Reads(rid) => rid !in s.calls && Tracked(s).Some?
    case Fails(rid) => rid in s.calls && s.calls[rid].Reading?
    case Wakes(rid) => rid in s.calls && s.calls[rid].Pausing?
    case Rereads(rid) => rid in s.calls && s.calls[rid].Rearming?
    case Returns(rid) => rid in s.calls && s.calls[rid].Reading?
    case Checks(rid) => rid in s.calls && s.calls[rid].Back?
    case Writes(rid) => rid !in s.calls && !s.life.closed
    case Reconciles(rid, state) => rid !in s.calls && (Tracked(s) == Some(state) || state in s.life.left)
    case ListChecks(rid) => rid in s.calls && s.calls[rid].Waking?
    case Lists(rid) => rid in s.calls && s.calls[rid].Cleared?
    case ListReturns(rid) => rid in s.calls && s.calls[rid].Listing?
    case Gate(rid) => rid in s.calls && s.calls[rid].Ready?
    case Stores(rid) => rid in s.calls && s.calls[rid].Past?
    case Abandons(rid) => rid in s.calls && !s.calls[rid].Past?
  }

  /** The same life a moment later. */
  function Later(life: L.Sys): L.Sys { life.(clock := life.clock + 1) }

  /** The call moves on, or ends. */
  function Put(s: Sys, rid: nat, call: Option<Call>): Sys {
    s.(calls := if call.Some? then s.calls[rid := call.value] else s.calls - {rid})
  }

  /** A re-read resolves the scope by its value, arms and asks. */
  function Ask(s: Sys): Option<Call> {
    if Tracked(s).Some? then Some(Reading(Tracked(s).value, s.life.clock)) else None
  }

  /** A local write resolves the scope by its value, and is refused when none is in service. */
  function Address(s: Sys): Option<Call> {
    var now := s.life.clock;
    if Tracked(s).Some? then Some(Ready(Fetched(Tracked(s).value, LocalWrite, now, now, now))) else None
  }

  /** The identity check of a re-read; a check by value would take whatever state is in service. */
  function Checked(s: Sys, call: Call): Option<Call>
    requires call.Back?
  {
    if s.policy.ByIdentity? then
      if Tracked(s) == Some(call.state)
      then Some(Ready(Fetched(call.state, ReRead, call.askedAt, call.returnedAt, s.life.clock))) else None
    else if Tracked(s).Some?
    then Some(Ready(Fetched(Tracked(s).value, ReRead, call.askedAt, call.returnedAt, s.life.clock))) else None
  }

  /** publish's gate, taken before its lock: a closed engine and a stopped state are refused. */
  function Gated(s: Sys, row: Fetched): Option<Call> {
    if s.life.closed || row.state in s.life.stopped then None else Some(Past(row, s.life.clock))
  }

  /** The publication past the gate: nothing looks at the stop again. A snapshot goes on to its next row. */
  function StoreStep(s: Sys, rid: nat): Sys
    requires rid in s.calls && s.calls[rid].Past?
  {
    var call := s.calls[rid];
    Put(s, rid, if call.row.kind.Snapshot? then Some(Ready(call.row)) else None).(
      cached := s.cached + {Cached(call.row, call.gatedAt, s.life.clock)})
  }

  function CallStep(s: Sys, a: Action): Sys
    requires Enabled(s, a) && !a.Life?
  {
    match a
    case Reads(rid) => Put(s, rid, Ask(s))
    case Fails(rid) => Put(s, rid,
      if Tracked(s) == Some(s.calls[rid].state) then Some(Pausing(s.calls[rid].state)) else None)
    case Wakes(rid) => Put(s, rid,
      if Tracked(s) == Some(s.calls[rid].origin) then Some(Rearming(s.calls[rid].origin)) else None)
    case Rereads(rid) => Put(s, rid, Ask(s))
    case Returns(rid) => Put(s, rid, Some(Back(s.calls[rid].state, s.calls[rid].askedAt, s.life.clock)))
    case Checks(rid) => Put(s, rid, Checked(s, s.calls[rid]))
    case Writes(rid) => Put(s, rid, Address(s))
    case Reconciles(rid, state) => Put(s, rid, Some(Waking(state)))
    case ListChecks(rid) => Put(s, rid,
      if Tracked(s) == Some(s.calls[rid].state) then Some(Cleared(s.calls[rid].state, s.life.clock)) else None)
    case Lists(rid) => Put(s, rid, Some(Listing(s.calls[rid].state, s.calls[rid].checkedAt, s.life.clock)))
    case ListReturns(rid) =>
      var call := s.calls[rid];
      Put(s, rid, Some(Ready(Fetched(call.state, Snapshot, call.askedAt, s.life.clock, call.checkedAt))))
    case Gate(rid) => Put(s, rid, Gated(s, s.calls[rid].row))
    case Stores(rid) => StoreStep(s, rid)
    case Abandons(rid) => Put(s, rid, None)
  }

  function Next(s: Sys, a: Action): Sys
    requires Enabled(s, a)
  {
    if a.Life? then s.(life := L.Next(s.life, a.a))
    else CallStep(s, a).(life := Later(s.life))
  }

  ghost predicate Possible(s: Sys, run: seq<Action>)
    decreases |run|
  {
    |run| > 0 ==> Enabled(s, run[0]) && Possible(Next(s, run[0]), run[1..])
  }

  ghost function After(s: Sys, run: seq<Action>): Sys
    requires Possible(s, run)
    decreases |run|
  {
    if |run| == 0 then s else After(Next(s, run[0]), run[1..])
  }

  // ----- What holds throughout -----

  predicate Known(s: Sys, state: nat) { Tracked(s) == Some(state) || state in s.life.left }

  /** A state still tracked at a moment: it had come up, and has not left the map before then. */
  predicate ServedAt(s: Sys, state: nat, at: nat) {
    state < at && (state in s.life.left ==> at < s.life.left[state]) && Known(s, state)
  }

  /** A row's call asked, returned and was checked in its kind's order, the check while its own state was tracked. */
  predicate Genuine(s: Sys, row: Fetched) {
    && ServedAt(s, row.state, row.checkedAt) && row.checkedAt < s.life.clock
    && match row.kind
       case Snapshot => row.checkedAt < row.askedAt < row.returnedAt < s.life.clock
       case ReRead => row.state < row.askedAt < row.returnedAt < row.checkedAt
       case LocalWrite => row.askedAt == row.returnedAt == row.checkedAt
  }

  /** Past the gate at a moment the state's stop was still open. */
  predicate ThroughGate(s: Sys, row: Fetched, gatedAt: nat) {
    && row.checkedAt < gatedAt && row.returnedAt < gatedAt < s.life.clock
    && (row.state in s.life.stopped ==> gatedAt < s.life.stopped[row.state])
  }

  predicate CallOk(s: Sys, call: Call) {
    match call
    case Reading(state, askedAt) => Known(s, state) && state < askedAt < s.life.clock
    case Back(state, askedAt, returnedAt) => Known(s, state) && state < askedAt < returnedAt < s.life.clock
    case Waking(state) => Known(s, state)
    case Cleared(state, checkedAt) => ServedAt(s, state, checkedAt) && checkedAt < s.life.clock
    case Listing(state, checkedAt, askedAt) => ServedAt(s, state, checkedAt) && checkedAt < askedAt < s.life.clock
    case Ready(row) => Genuine(s, row)
    case Past(row, gatedAt) => Genuine(s, row) && ThroughGate(s, row, gatedAt)
    case _ => true
  }

  predicate CachedOk(s: Sys, c: Cached) {
    Genuine(s, c.row) && ThroughGate(s, c.row, c.gatedAt) && c.gatedAt < c.at < s.life.clock
  }

  predicate Rows(s: Sys) {
    && (forall rid :: rid in s.calls ==> CallOk(s, s.calls[rid]))
    && forall c :: c in s.cached ==> CachedOk(s, c)
  }

  ghost predicate Inv(s: Sys) {
    L.Inv(s.life) && (s.policy.ByIdentity? ==> Rows(s))
  }

  lemma TicksLater(life: L.Sys)
    ensures L.Enabled(life, L.Tick(0)) && L.Next(life, L.Tick(0)) == Later(life)
  {
  }

  lemma CallAges(s: Sys, s': Sys, call: Call)
    requires CallOk(s, call) && L.Ages(s.life, s'.life)
    ensures CallOk(s', call)
  {
  }

  lemma CachedAges(s: Sys, s': Sys, c: Cached)
    requires CachedOk(s, c) && L.Ages(s.life, s'.life)
    ensures CachedOk(s', c)
  {
  }

  lemma RowsAge(s: Sys, life': L.Sys)
    requires Rows(s) && L.Ages(s.life, life')
    ensures Rows(s.(life := life'))
  {
    hide CallOk, CachedOk, L.Ages;
    var s' := s.(life := life');
    forall rid | rid in s.calls ensures CallOk(s', s.calls[rid]) { CallAges(s, s', s.calls[rid]); }
    forall c | c in s.cached ensures CachedOk(s', c) { CachedAges(s, s', c); }
  }

  /** The call a step leaves behind is in order by the next moment. */
  lemma MovedOk(s: Sys, a: Action, life': L.Sys)
    requires Rows(s) && L.InOrder(s.life) && L.Held(s.life) && s.policy.ByIdentity? && Enabled(s, a) && !a.Life?
    requires life' == Later(s.life) && a.rid in CallStep(s, a).calls
    ensures CallOk(s.(life := life'), CallStep(s, a).calls[a.rid])
  {
    hide L.OneHolder, L.Settling, L.Current, L.Bare;
    assert a.rid in s.calls ==> CallOk(s, s.calls[a.rid]);
  }

  lemma StoredOk(s: Sys, rid: nat, life': L.Sys)
    requires Rows(s) && rid in s.calls && s.calls[rid].Past? && life' == Later(s.life)
    ensures CachedOk(s.(life := life'), Cached(s.calls[rid].row, s.calls[rid].gatedAt, s.life.clock))
  {
    assert CallOk(s, s.calls[rid]);
  }

  lemma CallStepTouchesOne(s: Sys, a: Action)
    requires Enabled(s, a) && !a.Life?
    ensures forall rid :: rid in CallStep(s, a).calls && rid != a.rid ==>
              rid in s.calls && CallStep(s, a).calls[rid] == s.calls[rid]
    ensures CallStep(s, a).cached
      == if a.Stores? then s.cached + {Cached(s.calls[a.rid].row, s.calls[a.rid].gatedAt, s.life.clock)} else s.cached
    ensures CallStep(s, a).life == s.life && CallStep(s, a).policy == s.policy
  {
  }

  lemma RowsKept(s: Sys, a: Action)
    requires L.Inv(s.life) && Rows(s) && s.policy.ByIdentity? && Enabled(s, a)
    ensures Rows(Next(s, a))
  {
    hide CallOk, CachedOk, L.Ages, L.Inv, L.Next, CallStep;
    if a.Life? {
      L.StatesAge(s.life, a.a);
      RowsAge(s, L.Next(s.life, a.a));
    } else {
      TicksLater(s.life);
      L.StatesAge(s.life, L.Tick(0));
      var life', s' := Later(s.life), Next(s, a);
      LifeInOrder(s.life);
      RowsAge(s, life');
      CallStepTouchesOne(s, a);
      forall rid | rid in s'.calls ensures CallOk(s', s'.calls[rid]) {
        if rid == a.rid { MovedOk(s, a, life'); CallOkReadsLife(s.(life := life'), s', s'.calls[rid]); }
        else { assert CallOk(s.(life := life'), s.calls[rid]); CallOkReadsLife(s.(life := life'), s', s.calls[rid]); }
      }
      forall c | c in s'.cached ensures CachedOk(s', c) {
        if c in s.cached { assert CachedOk(s.(life := life'), c); } else { StoredOk(s, a.rid, life'); }
        CachedOkReadsLife(s.(life := life'), s', c);
      }
    }
  }

  lemma LifeInOrder(life: L.Sys)
    requires L.Inv(life)
    ensures L.InOrder(life) && L.Held(life)
  {
  }

  lemma CallOkReadsLife(s: Sys, s': Sys, call: Call)
    requires CallOk(s, call) && s'.life == s.life
    ensures CallOk(s', call)
  {
  }

  lemma CachedOkReadsLife(s: Sys, s': Sys, c: Cached)
    requires CachedOk(s, c) && s'.life == s.life
    ensures CachedOk(s', c)
  {
  }

  lemma LifeInvKept(s: Sys, a: Action)
    requires L.Inv(s.life) && Enabled(s, a)
    ensures L.Inv(Next(s, a).life) && Next(s, a).policy == s.policy
  {
    hide L.OneHolder, L.Held, L.Settling, L.InOrder, L.Next, CallStep;
    var la := if a.Life? then a.a else L.Tick(0);
    TicksLater(s.life);
    L.OneHolderKept(s.life, la);
    L.HeldKept(s.life, la);
    L.SettlingKept(s.life, la);
    L.InOrderKept(s.life, la);
    if !a.Life? { CallStepTouchesOne(s, a); }
  }

  lemma {:induction false} RunKeepsInv(s: Sys, run: seq<Action>)
    requires Inv(s) && Possible(s, run)
    ensures Inv(After(s, run)) && After(s, run).policy == s.policy
    decreases |run|
  {
    hide Next, Enabled, L.Inv, Rows;
    if |run| > 0 {
      LifeInvKept(s, run[0]);
      if s.policy.ByIdentity? { RowsKept(s, run[0]); }
      RunKeepsInv(Next(s, run[0]), run[1..]);
    }
  }

  ghost predicate Reachable(s: Sys) {
    exists run :: Possible(Init(s.life.delay, s.policy), run) && After(Init(s.life.delay, s.policy), run) == s
  }

  lemma ReachableInv(s: Sys)
    requires Reachable(s)
    ensures Inv(s)
  {
    hide Next, Enabled;
    var run :| Possible(Init(s.life.delay, s.policy), run) && After(Init(s.life.delay, s.policy), run) == s;
    RunKeepsInv(Init(s.life.delay, s.policy), run);
  }

  // ----- What the check and the gate promise -----

  /**
   Every publication in a cache was let through by a check made while that very state was in service: a re-read's on
   its way back, a reconcile's before its List, a local write's when it resolved the scope; and what a re-read or a
   reconcile publishes was asked for after the state came up. So a re-read that returns after its state was dropped
   lands nowhere, neither in the dropped state nor in its successor, and no call lands in any state but the one it
   was checked for.
   */
  lemma RowsBelongToTheirState(s: Sys, c: Cached)
    requires Reachable(s) && s.policy.ByIdentity? && c in s.cached
    ensures c.row.state < c.row.checkedAt < c.at
    ensures !c.row.kind.LocalWrite? ==> c.row.state < c.row.askedAt < c.row.returnedAt < c.at
    ensures c.row.kind.ReRead? ==> c.row.returnedAt < c.row.checkedAt
    ensures c.row.state in s.life.left ==> c.row.checkedAt < s.life.left[c.row.state]
    ensures c.row.kind.ReRead? && c.row.state in s.life.left ==> c.row.returnedAt < s.life.left[c.row.state]
  {
    hide L.Inv;
    ReachableInv(s);
    assert CachedOk(s, c);
  }

  /** A call past the gate for a state, its row not stored yet. */
  predicate HasPast(s: Sys, state: nat) {
    exists rid :: rid in s.calls && s.calls[rid].Past? && s.calls[rid].row.state == state
  }

  predicate Gains(s: Sys, s': Sys, state: nat) {
    exists c :: c in s'.cached && c !in s.cached && c.row.state == state
  }

  lemma NobodyPassesAStop(s: Sys, a: Action, state: nat)
    requires Enabled(s, a) && L.Inv(s.life) && state in s.life.stopped && !HasPast(s, state)
    ensures state in Next(s, a).life.stopped && !HasPast(Next(s, a), state) && !Gains(s, Next(s, a), state)
  {
    hide L.Next, L.Inv, CallStep, L.Ages;
    var la := if a.Life? then a.a else L.Tick(0);
    TicksLater(s.life);
    L.StatesAge(s.life, la);
    StopsStay(s.life, L.Next(s.life, la), state);
    if !a.Life? {
      CallStepTouchesOne(s, a);
      OwnCallPassesNoStop(s, a, state);
    }
  }

  lemma StopsStay(life: L.Sys, life': L.Sys, state: nat)
    requires L.Ages(life, life') && state in life.stopped
    ensures state in life'.stopped
  {
  }

  lemma OwnCallPassesNoStop(s: Sys, a: Action, state: nat)
    requires Enabled(s, a) && !a.Life? && state in s.life.stopped && !HasPast(s, state)
    ensures var calls := CallStep(s, a).calls;
      a.rid in calls && calls[a.rid].Past? ==> calls[a.rid].row.state != state
    ensures a.Stores? ==> s.calls[a.rid].row.state != state
  {
  }

  lemma {:induction false} NothingPastNothingGained(s: Sys, run: seq<Action>, state: nat)
    requires Inv(s) && state in s.life.stopped && !HasPast(s, state) && Possible(s, run)
    ensures !Gains(s, After(s, run), state)
    decreases |run|
  {
    hide Next, Enabled, L.Inv, Rows, HasPast;
    if |run| > 0 {
      var s1 := Next(s, run[0]);
      LifeInvKept(s, run[0]);
      if s.policy.ByIdentity? { RowsKept(s, run[0]); }
      NobodyPassesAStop(s, run[0], state);
      NothingPastNothingGained(s1, run[1..], state);
      var end := After(s1, run[1..]);
      forall c | c in end.cached && c.row.state == state ensures c in s.cached {
        assert c in s1.cached;
      }
    }
  }

  ghost predicate CanGain(s: Sys, state: nat) {
    exists run :: Possible(s, run) && Gains(s, After(s, run), state)
  }

  /**
   What the stop of a dropped state promises, exactly: it can still gain a row if and only if some call was past
   its gate when the stop closed. And what it gains then nobody reads: the state has left the map for good.
   */
  lemma StoppedStateGainsOnlyPastTheGate(s: Sys, state: nat)
    requires Reachable(s) && s.policy.ByIdentity? && state in s.life.stopped
    ensures CanGain(s, state) <==> HasPast(s, state)
    ensures Tracked(s) != Some(state) && state in s.life.left && s.life.left[state] < s.life.stopped[state]
    ensures forall c :: c in s.cached && c.row.state == state ==> c.gatedAt < s.life.stopped[state]
    ensures forall rid :: rid in s.calls && s.calls[rid].Past? && s.calls[rid].row.state == state ==>
      s.calls[rid].gatedAt < s.life.stopped[state]
  {
    hide Next, Enabled, Genuine;
    ReachableInv(s);
    LifeInOrder(s.life);
    if HasPast(s, state) {
      var rid :| rid in s.calls && s.calls[rid].Past? && s.calls[rid].row.state == state;
      StoringGains(s, rid);
      assert Possible(s, [Stores(rid)]) && After(s, [Stores(rid)]) == Next(s, Stores(rid));
    }
    if !HasPast(s, state) {
      forall run | Possible(s, run) ensures !Gains(s, After(s, run), state) { NothingPastNothingGained(s, run, state); }
    }
    forall c | c in s.cached && c.row.state == state ensures c.gatedAt < s.life.stopped[state] {
      assert CachedOk(s, c);
    }
    forall rid | rid in s.calls && s.calls[rid].Past? && s.calls[rid].row.state == state
      ensures s.calls[rid].gatedAt < s.life.stopped[state]
    {
      assert CallOk(s, s.calls[rid]);
    }
  }

  lemma {:induction false} StoringGains(s: Sys, rid: nat)
    requires Rows(s) && rid in s.calls && s.calls[rid].Past?
    ensures Enabled(s, Stores(rid)) && Possible(s, [Stores(rid)]) && After(s, [Stores(rid)]) == Next(s, Stores(rid))
    ensures Gains(s, Next(s, Stores(rid)), s.calls[rid].row.state)
  {
    var s', c := Next(s, Stores(rid)), Cached(s.calls[rid].row, s.calls[rid].gatedAt, s.life.clock);
    forall other | other in s.cached ensures other.at < s.life.clock { assert CachedOk(s, other); }
    assert c in s'.cached;
    assert [Stores(rid)][1..] == [];
    assert Possible(s', []);
  }

  // ----- Two runs -----

  lemma {:induction false} Continue(s: Sys, run: seq<Action>, a: Action)
    requires Possible(s, run) && Enabled(After(s, run), a)
    ensures Possible(s, run + [a]) && After(s, run + [a]) == Next(After(s, run), a)
    decreases |run|
  {
    hide Enabled, Next;
    if |run| > 0 {
      assert (run + [a])[1..] == run[1..] + [a];
      Continue(Next(s, run[0]), run[1..], a);
    }
  }

  lemma Extend(start: Sys, run: seq<Action>, s: Sys, a: Action, s': Sys) returns (run': seq<Action>)
    requires Possible(start, run) && After(start, run) == s && Enabled(s, a) && Next(s, a) == s'
    ensures Possible(start, run') && After(start, run') == s'
  {
    hide Enabled, Next;
    Continue(start, run, a);
    run' := run + [a];
  }

  /** A step of the scope's life, from one explicit life to the next. */
  lemma Lives(start: Sys, run: seq<Action>, s: Sys, a: L.Action, life: L.Sys) returns (run': seq<Action>)
    requires Possible(start, run) && After(start, run) == s && L.Enabled(s.life, a) && L.Next(s.life, a) == life
    ensures Possible(start, run') && After(start, run') == s.(life := life)
  {
    hide L.Enabled, L.Next;
    run' := Extend(start, run, s, Life(a), s.(life := life));
  }

  /** A step of one call, from one explicit stage to the next. */
  lemma Moves(start: Sys, run: seq<Action>, s: Sys, a: Action, s': Sys) returns (run': seq<Action>)
    requires Possible(start, run) && After(start, run) == s && Enabled(s, a) && !a.Life? && CallStep(s, a) == s'
    ensures Possible(start, run') && After(start, run') == s'.(life := Later(s.life))
  {
    hide CallStep, L.Enabled;
    run' := Extend(start, run, s, a, s'.(life := Later(s.life)));
  }

  /** A re-read asks and returns, on the state in service. */
  lemma ReadRun(start: Sys, run: seq<Action>, s: Sys, rid: nat) returns (run': seq<Action>)
    requires Possible(start, run) && After(start, run) == s && rid !in s.calls && Tracked(s).Some?
    ensures Possible(start, run')
    ensures After(start, run') == s.(calls := s.calls[rid := Back(Tracked(s).value, s.life.clock, s.life.clock + 1)],
                                     life := s.life.(clock := s.life.clock + 2))
  {
    hide L.Next, L.Enabled;
    var asked := s.(calls := s.calls[rid := Reading(Tracked(s).value, s.life.clock)]);
    run' := Moves(start, run, s, Reads(rid), asked);
    var s1 := asked.(life := Later(s.life));
    var back := s1.(calls := s.calls[rid := Back(Tracked(s).value, s.life.clock, s.life.clock + 1)]);
    assert s1.calls[rid := back.calls[rid]] == back.calls;
    run' := Moves(start, run', s1, Returns(rid), back);
  }

  /** It passes the check and then the gate of the state in service. */
  lemma GateRun(start: Sys, run: seq<Action>, s: Sys, rid: nat, row: Fetched) returns (run': seq<Action>)
    requires Possible(start, run) && After(start, run) == s && rid in s.calls && s.calls[rid].Back?
      && Tracked(s) == Some(row.state)
    requires s.policy.ByIdentity? ==> s.calls[rid].state == row.state
    requires !s.life.closed && row.state !in s.life.stopped
    requires row == Fetched(row.state, ReRead, s.calls[rid].askedAt, s.calls[rid].returnedAt, s.life.clock)
    ensures Possible(start, run')
    ensures After(start, run') == s.(calls := s.calls[rid := Past(row, s.life.clock + 1)],
      life := s.life.(clock := s.life.clock + 2))
  {
    hide L.Next, L.Enabled;
    var ready := s.(calls := s.calls[rid := Ready(row)]);
    run' := Moves(start, run, s, Checks(rid), ready);
    var s1 := ready.(life := Later(s.life));
    var past := s1.(calls := s.calls[rid := Past(row, s.life.clock + 1)]);
    assert s1.calls[rid := past.calls[rid]] == past.calls;
    run' := Moves(start, run', s1, Gate(rid), past);
  }

  lemma StoreRun(start: Sys, run: seq<Action>, s: Sys, rid: nat) returns (run': seq<Action>)
    requires Possible(start, run) && After(start, run) == s && rid in s.calls && s.calls[rid].Past?
    ensures Possible(start, run') && After(start, run') == StoreStep(s, rid).(life := Later(s.life))
  {
    hide StoreStep, L.Next, L.Enabled;
    run' := Moves(start, run, s, Stores(rid), StoreStep(s, rid));
  }

  /** A scope in service: its first state came up at moment 3, its holder waits for the first reconcile. */
  function Serving(delay: int): L.Sys {
    L.Sys(L.Verbs(Some(false), false, None), Some(L.State(3, true)), map[0 := L.Waiting], map[], false, true, 0, delay,
          5, map[], 0, 0, 0, 1)
  }

  function Served(delay: int, policy: Policy): Sys { Sys(Serving(delay), policy, map[], {}) }

  /** A life whose one holder has claimed the slot. */
  function Held(life: L.Sys, stage: L.Stage): L.Sys { life.(holders := map[0 := stage], clock := life.clock + 1) }

  lemma ActivateStep(life: L.Sys)
    requires life.holders == map[]
      && L.Starts(life.verbs, life.tracked.Some?, life.closed, life.door, life.wall, life.delay)
    ensures L.Enabled(life, L.Activate(0))
    ensures L.Next(life, L.Activate(0))
      == Held(life, L.Launched(false)).(verbs := life.verbs.(slot := Some(false)), starts := life.starts + 1)
  {
  }

  lemma RunStep(life: L.Sys)
    requires life.holders == map[0 := L.Launched(false)]
    ensures L.Enabled(life, L.Run(0)) && L.Next(life, L.Run(0)) == Held(life, L.Resolving)
  {
    assert life.holders[0 := L.Resolving] == map[0 := L.Resolving];
  }

  lemma ResolveStep(life: L.Sys)
    requires life.holders == map[0 := L.Resolving] && life.tracked.None? && !life.closed
    ensures L.Enabled(life, L.Resolve(0))
    ensures L.Next(life, L.Resolve(0)) == Held(life, L.Subscribing).(tracked := Some(L.State(life.clock, false)))
  {
    assert life.holders[0 := L.Subscribing] == map[0 := L.Subscribing];
  }

  lemma SubscribedStep(life: L.Sys)
    requires life.holders == map[0 := L.Subscribing] && life.tracked.Some? && !life.closed
    ensures L.Enabled(life, L.Subscribed(0, true))
    ensures L.Next(life, L.Subscribed(0, true)) ==
      Held(life, L.Waiting).(tracked := Some(life.tracked.value.(subscribed := true)))
  {
    assert life.holders[0 := L.Waiting] == map[0 := L.Waiting];
  }

  lemma FailedStep(life: L.Sys)
    requires life.holders == map[0 := L.Waiting]
    ensures L.Enabled(life, L.Reconciled(0, false)) && L.Next(life, L.Reconciled(0, false)) == Held(life, L.Failing)
  {
    assert life.holders[0 := L.Failing] == map[0 := L.Failing];
  }

  lemma DropStep(life: L.Sys)
    requires life.holders == map[0 := L.Failing] && life.tracked.Some?
    ensures L.Enabled(life, L.Fail(0))
    ensures var state := life.tracked.value.created;
      L.Next(life, L.Fail(0)) == Held(life, L.Stopping(state, false)).(tracked := None,
        left := life.left[state := life.clock])
  {
    var state := life.tracked.value.created;
    assert life.holders[0 := L.Stopping(state, false)] == map[0 := L.Stopping(state, false)];
  }

  lemma StopStep(life: L.Sys, state: nat)
    requires life.holders == map[0 := L.Stopping(state, false)]
    ensures L.Enabled(life, L.Stop(0))
    ensures L.Next(life, L.Stop(0)) == Held(life, L.Ending(false)).(stopped := life.stopped[state := life.clock])
  {
    assert life.holders[0 := L.Ending(false)] == map[0 := L.Ending(false)];
  }

  lemma ReleaseStep(life: L.Sys)
    requires life.holders == map[0 := L.Ending(false)] && life.verbs.slot == Some(false)
    ensures L.Enabled(life, L.Release(0))
    ensures L.Next(life, L.Release(0)) == Later(life).(holders := map[], verbs := L.Freed(life.verbs, false, life.wall))
  {
    assert life.holders - {0} == map[];
  }

  lemma UnblockStep(life: L.Sys)
    ensures L.Enabled(life, L.Unblock)
    ensures L.Next(life, L.Unblock) == Later(life).(verbs := life.verbs.(blocked := false, failedAt := None))
  {
  }

  /** From nothing to a scope being subscribed, whose state is named by the moment it came up. */
  lemma BringUpRun(start: Sys, run: seq<Action>, s: Sys) returns (run': seq<Action>)
    requires Possible(start, run) && After(start, run) == s && s.life.holders == map[] && !s.life.closed && s.life.door
    requires s.life.verbs == L.Untouched && s.life.tracked.None?
    ensures Possible(start, run')
    ensures After(start, run') == s.(life := s.life.(
              verbs := L.Verbs(Some(false), false, None), tracked := Some(L.State(s.life.clock + 2, false)),
              holders := map[0 := L.Subscribing], starts := s.life.starts + 1, clock := s.life.clock + 3))
  {
    hide L.Enabled, L.Next;
    ActivateStep(s.life);
    var l1 := L.Next(s.life, L.Activate(0));
    run' := Lives(start, run, s, L.Activate(0), l1);
    RunStep(l1);
    var l2 := L.Next(l1, L.Run(0));
    run' := Lives(start, run', s.(life := l1), L.Run(0), l2);
    ResolveStep(l2);
    run' := Lives(start, run', s.(life := l2), L.Resolve(0), L.Next(l2, L.Resolve(0)));
  }

  lemma ServedRun(delay: int, policy: Policy) returns (run: seq<Action>)
    ensures Possible(Init(delay, policy), run) && After(Init(delay, policy), run) == Served(delay, policy)
  {
    hide L.Enabled, L.Next;
    var start := Init(delay, policy);
    run := BringUpRun(start, [], start);
    var l3 := L.Sys(L.Verbs(Some(false), false, None), Some(L.State(3, false)),
                    map[0 := L.Subscribing], map[], false, true, 0,
                    delay, 4, map[], 0, 0, 0, 1);
    SubscribedStep(l3);
    run := Lives(start, run, start.(life := l3), L.Subscribed(0, true), Serving(delay));
  }

  /** The scope after its first reconcile failed: out of the map, its state stopped. */
  function Dropped(life: L.Sys): L.Sys
    requires life.tracked.Some?
  {
    var state := life.tracked.value.created;
    life.(tracked := None, holders := map[0 := L.Ending(false)], left := life.left[state := life.clock + 1],
          stopped := life.stopped[state := life.clock + 2], clock := life.clock + 3)
  }

  lemma DropRun(start: Sys, run: seq<Action>, s: Sys) returns (run': seq<Action>)
    requires Possible(start, run) && After(start, run) == s
    requires s.life.tracked.Some? && s.life.holders == map[0 := L.Waiting]
    ensures Possible(start, run') && After(start, run') == s.(life := Dropped(s.life))
  {
    hide L.Enabled, L.Next;
    FailedStep(s.life);
    var l1 := Held(s.life, L.Failing);
    run' := Lives(start, run, s, L.Reconciled(0, false), l1);
    DropStep(l1);
    var l2 := L.Next(l1, L.Fail(0));
    run' := Lives(start, run', s.(life := l1), L.Fail(0), l2);
    StopStep(l2, s.life.tracked.value.created);
    run' := Lives(start, run', s.(life := l2), L.Stop(0), Dropped(s.life));
  }

  /** The publisher that passed the gate in between: its row enters a state already stopped. */
  lemma PastTheGateStillStores(delay: int) returns (run: seq<Action>, s: Sys, c: Cached)
    ensures Possible(Init(delay, ByIdentity), run) && After(Init(delay, ByIdentity), run) == s
    ensures c in s.cached && c.row.state in s.life.stopped && s.life.stopped[c.row.state] < c.at
  {
    hide L.Enabled, L.Next;
    var start, s0 := Init(delay, ByIdentity), Served(delay, ByIdentity);
    run := ServedRun(delay, ByIdentity);
    run := ReadRun(start, run, s0, 1);
    var s1 := s0.(calls := map[1 := Back(3, 5, 6)], life := s0.life.(clock := 7));
    run := GateRun(start, run, s1, 1, Fetched(3, ReRead, 5, 6, 7));
    var s2 := s1.(calls := map[1 := Past(Fetched(3, ReRead, 5, 6, 7), 8)], life := s1.life.(clock := 9));
    run := DropRun(start, run, s2);
    var s3 := s2.(life := Dropped(s2.life));
    run := StoreRun(start, run, s3, 1);
    s, c := StoreStep(s3, 1).(life := Later(s3.life)), Cached(Fetched(3, ReRead, 5, 6, 7), 8, 12);
  }

  /** A dropped scope built again from nothing. */
  lemma RebuildRun(start: Sys, run: seq<Action>, s: Sys) returns (run': seq<Action>, life: L.Sys)
    requires Possible(start, run) && After(start, run) == s
    requires s.life.tracked.None? && s.life.holders == map[0 := L.Ending(false)] && !s.life.closed && s.life.door
    requires s.life.verbs == L.Verbs(Some(false), false, None)
    ensures Possible(start, run') && After(start, run') == s.(life := life)
    ensures life.tracked == Some(L.State(s.life.clock + 4, false)) && life.clock == s.life.clock + 5
    ensures life.closed == s.life.closed && life.stopped == s.life.stopped
  {
    hide L.Enabled, L.Next;
    ReleaseStep(s.life);
    var l1 := L.Next(s.life, L.Release(0));
    run' := Lives(start, run, s, L.Release(0), l1);
    UnblockStep(l1);
    var l2 := L.Next(l1, L.Unblock);
    run' := Lives(start, run', s.(life := l1), L.Unblock, l2);
    run' := BringUpRun(start, run', s.(life := l2));
    life := l2.(verbs := L.Verbs(Some(false), false, None), tracked := Some(L.State(l2.clock + 2, false)),
                holders := map[0 := L.Subscribing], starts := l2.starts + 1, clock := l2.clock + 3);
  }

  /** Why the check compares states: by value, a row asked for under the dropped state enters the new one. */
  lemma ByValueMixesStates(delay: int) returns (run: seq<Action>, s: Sys, c: Cached)
    ensures Possible(Init(delay, ByValue), run) && After(Init(delay, ByValue), run) == s
    ensures c in s.cached && Tracked(s) == Some(c.row.state) && c.row.askedAt < c.row.state
  {
    hide L.Enabled, L.Next;
    var start, s0 := Init(delay, ByValue), Served(delay, ByValue);
    run := ServedRun(delay, ByValue);
    run := ReadRun(start, run, s0, 1);
    var s1 := s0.(calls := map[1 := Back(3, 5, 6)], life := s0.life.(clock := 7));
    run := DropRun(start, run, s1);
    var s2 := s1.(life := Dropped(s1.life));
    var life;
    run, life := RebuildRun(start, run, s2);
    var s3 := s2.(life := life);
    run := GateRun(start, run, s3, 1, Fetched(14, ReRead, 5, 6, 15));
    var s4 := s3.(calls := map[1 := Past(Fetched(14, ReRead, 5, 6, 15), 16)], life := life.(clock := 17));
    run := StoreRun(start, run, s4, 1);
    s, c := StoreStep(s4, 1).(life := Later(s4.life)), Cached(Fetched(14, ReRead, 5, 6, 15), 16, 17);
  }
}
