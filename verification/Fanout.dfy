/**
 Every interleaving of a group: publishers between their stamp and their commit, registrations with and
 without a seed, unsubscribes, and one drainer per scope calling appliers with no lock held. An applier
 that publishes, registers or unsubscribes from inside its call is one more of these actions.
 */
module Fanout {
  import opened Types
  import opened Group

  /** History: applier `id` was started on observation `at` of the tenant's scope. */
  datatype Call = Call(id: nat, tenant: string, at: nat)

  /** History: the stamp a seed was taken under. */
  datatype Seeding = Seeding(tenant: string, at: nat)

  datatype Sys = Sys(
    core: Core,
    pubs: map<nat, Published>,             // stamped, still decoding; by stamp
    owed: map<string, nat>,                // drains a committed publisher or a registrant is about to make
    batches: map<string, seq<Delivery>>,   // the running fan-out of a scope
    calls: seq<Call>,
    seeding: Option<Seeding>,
    spent: set<nat>)                       // history: publications the seed's watermark dropped

  const Init := Sys(NewCore, map[], map[], map[], [], None, {})

  datatype Action =
    | Stamp(pub: Published)
    | Decoded(at: nat, parsed: Parsed)
    | Register(read: SeedRead)
    | Unsubscribe(id: nat)
    | Drain(t: string)
    | Check(t: string, k: nat)
    | Start(t: string, k: nat)
    | End(t: string, k: nat, why: Option<Reason>)
    | Finish(t: string)

  function BatchOf(s: Sys, t: string): seq<Delivery> {
    if t in s.batches then s.batches[t] else []
  }

  function OwedTo(s: Sys, t: string): nat {
    if t in s.owed then s.owed[t] else 0
  }

  predicate Unstarted(d: Delivery) { d.outcome.Waiting? || d.outcome.Cleared? }

  predicate Over(d: Delivery) { !Unstarted(d) && !d.outcome.Running? }

  predicate Enabled(s: Sys, a: Action) {
    match a
    case Stamp(_) => true
    case Decoded(at, _) => at in s.pubs
    case Register(_) => true
    case Unsubscribe(_) => true
    case Drain(t) => OwedTo(s, t) > 0
    case Check(t, k) =>
      k < |BatchOf(s, t)| && BatchOf(s, t)[k].outcome.Waiting? && forall j :: 0 <= j < k ==> Over(BatchOf(s, t)[j])
    case Start(t, k) => k < |BatchOf(s, t)| && BatchOf(s, t)[k].outcome.Cleared?
    case End(t, k, _) => k < |BatchOf(s, t)| && BatchOf(s, t)[k].outcome.Running?
    case Finish(t) => t in s.batches && forall k :: 0 <= k < |BatchOf(s, t)| ==> Over(BatchOf(s, t)[k])
  }

  function Next(s: Sys, a: Action): Sys
    requires Enabled(s, a)
  {
    match a
    case Stamp(pub) => StampStep(s, pub)
    case Decoded(at, parsed) => DecodedStep(s, at, parsed)
    case Register(read) => RegisterStep(s, read)
    case Unsubscribe(id) => s.(core := Remove(s.core, id))
    case Drain(t) => DrainStep(s, t)
    case Check(t, k) => CheckStep(s, t, k)
    case Start(t, k) => StartStep(s, t, k)
    case End(t, k, why) => EndStep(s, t, k, why)
    case Finish(t) => TakeTurn(Recorded(s, t), t)
  }

  function StampStep(s: Sys, pub: Published): Sys {
    var at := s.core.stamps + 1;
    s.(core := s.core.(stamps := at), pubs := s.pubs[at := pub])
  }

  function DecodedStep(s: Sys, at: nat, parsed: Parsed): Sys
    requires at in s.pubs
  {
    var pub := s.pubs[at];
    s.(core := Commit(s.core, pub, at, parsed),
       pubs := s.pubs - {at},
       spent := if !Late(s.core, pub, at) && SpentBySeed(ScopeOf(s.core, pub.tenant).watermark, pub)
                then s.spent + {at} else s.spent,
       owed := s.owed[pub.tenant := OwedTo(s, pub.tenant) + if Drains(s.core, pub, at, parsed) then 1 else 0])
  }

  function Seeds(s: Sys, read: SeedRead): Option<Seeding> {
    if TakesSeed(s.core, read) then Some(Seeding(read.pub.tenant, s.core.stamps + 1)) else s.seeding
  }

  /** A registrant drains every scope observed so far, itself included through the seed. */
  function RegisterStep(s: Sys, read: SeedRead): Sys {
    var core := Add(s.core, read);
    s.(core := core, seeding := Seeds(s, read),
       owed := map t | t in core.scopes.Keys + s.owed.Keys ::
         OwedTo(s, t) + if ScopeOf(core, t).observed then 1 else 0)
  }

  function TakeTurn(s: Sys, t: string): Sys {
    var batch := Batch(s.core.appliers, t, ScopeOf(s.core, t).current);
    s.(core := Turn(s.core, t), batches := if batch == [] then s.batches - {t} else s.batches[t := batch])
  }

  /** A drain that finds the scope delivering leaves its observation to the running one. */
  function DrainStep(s: Sys, t: string): Sys
    requires OwedTo(s, t) > 0
  {
    var s1 := s.(owed := s.owed[t := OwedTo(s, t) - 1]);
    if ScopeOf(s.core, t).delivering then s1 else TakeTurn(s1, t)
  }

  function Remark(s: Sys, t: string, k: nat, outcome: Outcome): Sys
    requires k < |BatchOf(s, t)|
  {
    s.(batches := s.batches[t := BatchOf(s, t)[k := BatchOf(s, t)[k].(outcome := outcome)]])
  }

  /** The removed flag is read with no lock held: an applier that left is skipped, any other is about to be called. */
  function CheckStep(s: Sys, t: string, k: nat): Sys
    requires k < |BatchOf(s, t)|
  {
    Remark(s, t, k, if Registered(s.core.appliers, BatchOf(s, t)[k].id) then Cleared else Skipped)
  }

  /** The call itself: nothing looks at the flag again. */
  function StartStep(s: Sys, t: string, k: nat): Sys
    requires k < |BatchOf(s, t)|
  {
    Remark(s, t, k, Running).(calls := s.calls + [Call(BatchOf(s, t)[k].id, t, BatchOf(s, t)[k].obs.at)])
  }

  function EndStep(s: Sys, t: string, k: nat, why: Option<Reason>): Sys
    requires k < |BatchOf(s, t)|
  {
    Remark(s, t, k, if why.Some? then Rejected(why.value) else Accepted)
  }

  function Recorded(s: Sys, t: string): Sys {
    s.(core := Record(s.core, t, BatchOf(s, t)), batches := s.batches - {t})
  }

  ghost predicate Possible(s: Sys, run: seq<Action>)
    decreases |run|
  {
    |run| > 0 ==> Enabled(s, run[0]) && Possible(Next(s, run[0]), run[1..])
  }

  ghost function After(s: Sys, run: seq<Action>): Sys
    requires Possible(s, run)
    decreases |run|
  {
    if |run| == 0 then s else After(Next(s, run[0]), run[1..])
  }

  // ----- The invariant, one tenant at a time -----

  function Line(s: Sys, i: nat, t: string): Standing
    requires i < |s.core.appliers|
  {
    StandingOf(s.core.appliers[i], t)
  }

  function IdAt(s: Sys, i: nat): nat
    requires i < |s.core.appliers|
  {
    s.core.appliers[i].id
  }

  predicate InBatch(s: Sys, id: nat, t: string) {
    exists k :: 0 <= k < |BatchOf(s, t)| && BatchOf(s, t)[k].id == id
  }

  predicate Roster(aps: seq<Applier>, nextID: nat) {
    Distinct(aps) && forall i :: 0 <= i < |aps| ==> 0 < aps[i].id <= nextID
  }

  predicate Distinct(aps: seq<Applier>) {
    forall i, j :: 0 <= i < j < |aps| ==> aps[i].id != aps[j].id
  }

  predicate Ids(s: Sys) {
    && Roster(s.core.appliers, s.core.nextID)
    && (forall j :: 0 <= j < |s.calls| ==> s.calls[j].id <= s.core.nextID)
    && forall at :: at in s.pubs ==> 0 < at <= s.core.stamps
  }

  predicate Levels(s: Sys, t: string) {
    var sc := ScopeOf(s.core, t);
    && sc.current.at <= sc.latestSeq <= s.core.stamps
    && sc.latestSeq !in s.pubs
    && (sc.observed <==> sc.latestSeq > 0)
    && (sc.current.at == 0 ==> sc.current == Nothing)
    && (sc.current.at == sc.latestSeq ==> sc.desired == sc.current.revision)
    && (sc.observed && sc.lastErr.None? ==> sc.current.at == sc.latestSeq)
  }

  predicate Linked(s: Sys, t: string) {
    && (ScopeOf(s.core, t).delivering <==> t in s.batches)
    && (t in s.batches ==> s.batches[t] != [])
  }

  predicate InStep(s: Sys, t: string, i: nat)
    requires i < |s.core.appliers|
  {
    var sc, st := ScopeOf(s.core, t), Line(s, i, t);
    && st.acceptedSeq <= st.deliveredSeq <= sc.current.at
    && (st.acceptedSeq == 0 <==> st.accepted.None?)
    && (st.accepted.None? ==> st.appliedRev == 0)
    && (st.accepted.Some? ==> st.accepted.value.at == st.acceptedSeq && st.accepted.value.revision == st.appliedRev)
    && (st.acceptedSeq == sc.current.at ==> st.appliedRev == sc.current.revision)
    && (sc.lastErr.None? && st.deliveredSeq == sc.current.at && !InBatch(s, IdAt(s, i), t) ==>
          st.acceptedSeq == sc.current.at)
  }

  predicate Standings(s: Sys, t: string) {
    forall i :: 0 <= i < |s.core.appliers| ==> InStep(s, t, i)
  }

  /** An applier that has not been offered the current observation will be. */
  predicate NotLost(s: Sys, t: string) {
    ScopeOf(s.core, t).delivering || OwedTo(s, t) > 0
    || forall i :: 0 <= i < |s.core.appliers| ==> Line(s, i, t).deliveredSeq == ScopeOf(s.core, t).current.at
  }

  predicate DeliveryOk(s: Sys, t: string, d: Delivery) {
    var sc := ScopeOf(s.core, t);
    && 0 < d.obs.at <= sc.current.at && d.id <= s.core.nextID
    && (d.obs.at == sc.current.at ==> d.obs == sc.current)
    && (d.outcome.Skipped? ==> !Registered(s.core.appliers, d.id))
    && forall i :: 0 <= i < |s.core.appliers| && IdAt(s, i) == d.id ==>
         Line(s, i, t).deliveredSeq == d.obs.at && Line(s, i, t).accepted == d.previous
  }

  predicate Batches(s: Sys, t: string) {
    && (forall k :: 0 <= k < |BatchOf(s, t)| ==> DeliveryOk(s, t, BatchOf(s, t)[k]))
    && forall k, j :: 0 <= k < j < |BatchOf(s, t)| ==> BatchOf(s, t)[k].id != BatchOf(s, t)[j].id
  }

  /** Everything an applier was started on precedes what it is offered next. */
  predicate CallOk(s: Sys, t: string, c: Call) {
    c.tenant == t ==>
      && (forall i :: 0 <= i < |s.core.appliers| && IdAt(s, i) == c.id ==> c.at <= Line(s, i, t).deliveredSeq)
      && forall k :: 0 <= k < |BatchOf(s, t)| && BatchOf(s, t)[k].id == c.id && Unstarted(BatchOf(s, t)[k]) ==>
           c.at < BatchOf(s, t)[k].obs.at
  }

  predicate Climbing(calls: seq<Call>) {
    forall i, j :: 0 <= i < j < |calls| && calls[i].id == calls[j].id && calls[i].tenant == calls[j].tenant ==>
      calls[i].at < calls[j].at
  }

  predicate Waits(s: Sys, t: string, id: nat, at: nat) {
    exists k :: 0 <= k < |BatchOf(s, t)| && BatchOf(s, t)[k].id == id && Unstarted(BatchOf(s, t)[k])
      && BatchOf(s, t)[k].obs.at == at
  }

  /** Offered means called, or about to be. */
  predicate Reached(s: Sys, t: string) {
    forall i :: 0 <= i < |s.core.appliers| && Line(s, i, t).deliveredSeq > 0 ==>
      Call(IdAt(s, i), t, Line(s, i, t).deliveredSeq) in s.calls || Waits(s, t, IdAt(s, i), Line(s, i, t).deliveredSeq)
  }

  predicate Calls(s: Sys, t: string) {
    && (forall j :: 0 <= j < |s.calls| ==> CallOk(s, t, s.calls[j]))
    && Reached(s, t)
  }

  /** What one turn of a drain can start from. */
  predicate Settled(s: Sys, t: string) {
    Levels(s, t) && Standings(s, t) && Batches(s, t) && Calls(s, t)
  }

  predicate Lane(s: Sys, t: string) {
    Settled(s, t) && Linked(s, t) && NotLost(s, t)
  }

  ghost predicate Inv(s: Sys) {
    Ids(s) && Climbing(s.calls) && forall t :: Lane(s, t)
  }

  // ----- A step elsewhere -----

  predicate SameLines(s: Sys, s': Sys, t: string) {
    && |s'.core.appliers| == |s.core.appliers|
    && forall i :: 0 <= i < |s.core.appliers| ==> IdAt(s', i) == IdAt(s, i) && Line(s', i, t) == Line(s, i, t)
  }

  predicate Elsewhere(s: Sys, s': Sys, t: string) {
    && ScopeOf(s'.core, t) == ScopeOf(s.core, t) && BatchOf(s', t) == BatchOf(s, t) && OwedTo(s', t) >= OwedTo(s, t)
    && (t in s'.batches <==> t in s.batches)
    && SameLines(s, s', t)
    && s.core.stamps <= s'.core.stamps && s.core.nextID <= s'.core.nextID
    && (forall at :: at in s'.pubs ==> at in s.pubs || at > s.core.stamps)
    && s.calls <= s'.calls && forall j :: |s.calls| <= j < |s'.calls| ==> s'.calls[j].tenant != t
  }

  lemma ElsewhereKeeps(s: Sys, s': Sys, t: string)
    requires Lane(s, t) && Elsewhere(s, s', t)
    ensures Lane(s', t)
  {
    ElsewhereKeepsStandings(s, s', t);
    ElsewhereKeepsBatches(s, s', t);
    ElsewhereKeepsCalls(s, s', t);
  }

  lemma ElsewhereKeepsStandings(s: Sys, s': Sys, t: string)
    requires Lane(s, t) && Elsewhere(s, s', t)
    ensures Standings(s', t)
  {
    hide Levels, Batches, Calls;
    forall i | 0 <= i < |s'.core.appliers| ensures InStep(s', t, i) { assert InStep(s, t, i); }
  }

  lemma ElsewhereKeepsBatches(s: Sys, s': Sys, t: string)
    requires Batches(s, t) && Elsewhere(s, s', t)
    ensures Batches(s', t)
  {
    forall k | 0 <= k < |BatchOf(s', t)| ensures DeliveryOk(s', t, BatchOf(s', t)[k]) {
      var d := BatchOf(s, t)[k];
      assert DeliveryOk(s, t, d);
      SameRegistered(s, s', d.id);
    }
  }

  lemma SameRegistered(s: Sys, s': Sys, id: nat)
    requires |s'.core.appliers| == |s.core.appliers|
    requires forall i :: 0 <= i < |s.core.appliers| ==> IdAt(s', i) == IdAt(s, i)
    ensures Registered(s'.core.appliers, id) <==> Registered(s.core.appliers, id)
  {
    if Registered(s.core.appliers, id) {
      var i :| 0 <= i < |s.core.appliers| && s.core.appliers[i].id == id;
      assert IdAt(s', i) == IdAt(s, i);
    }
    if Registered(s'.core.appliers, id) {
      var i :| 0 <= i < |s'.core.appliers| && s'.core.appliers[i].id == id;
      assert IdAt(s', i) == IdAt(s, i);
    }
  }

  lemma ElsewhereKeepsCalls(s: Sys, s': Sys, t: string)
    requires Calls(s, t) && Elsewhere(s, s', t)
    ensures Calls(s', t)
  {
    forall j | 0 <= j < |s'.calls| ensures CallOk(s', t, s'.calls[j]) {
      if j < |s.calls| { assert CallOk(s, t, s.calls[j]); }
    }
    forall i | 0 <= i < |s'.core.appliers| && Line(s', i, t).deliveredSeq > 0
      ensures Call(IdAt(s', i), t, Line(s', i, t).deliveredSeq) in s'.calls
        || Waits(s', t, IdAt(s', i), Line(s', i, t).deliveredSeq)
    {
      assert IdAt(s, i) == IdAt(s', i) && Line(s, i, t) == Line(s', i, t);
    }
  }

  // ----- Publishing -----

  lemma StampKeeps(s: Sys, pub: Published)
    requires Inv(s)
    ensures Inv(StampStep(s, pub))
  {
    hide Lane, Climbing;
    var s' := StampStep(s, pub);
    forall t ensures Lane(s', t) {
      assert Lane(s, t);
      ElsewhereKeeps(s, s', t);
    }
  }

  /** Committing a publication: the scope moves forward, and appliers are behind it until drained. */
  lemma DecodedKeeps(s: Sys, at: nat, parsed: Parsed)
    requires Inv(s) && at in s.pubs
    ensures Inv(DecodedStep(s, at, parsed))
  {
    hide Lane, Climbing;
    var s' := DecodedStep(s, at, parsed);
    forall t ensures Lane(s', t) {
      assert Lane(s, t);
      if t == s.pubs[at].tenant {
        CommitKeeps(s, at, parsed);
      } else {
        ElsewhereKeeps(s, s', t);
      }
    }
  }

  /** What an observation does to its own scope, published or seeded. */
  predicate Moves(s: Sys, s': Sys, t: string) {
    var sc, sc' := ScopeOf(s.core, t), ScopeOf(s'.core, t);
    && SameLines(s, s', t) && s.core.nextID <= s'.core.nextID
    && BatchOf(s', t) == BatchOf(s, t) && (t in s'.batches <==> t in s.batches) && s'.calls == s.calls
         && OwedTo(s', t) >= OwedTo(s, t)
    && sc'.delivering == sc.delivering
    && (|| sc' == sc.(watermark := sc'.watermark)
        || (sc'.current == sc.current && sc'.latestSeq > sc.current.at && sc'.lastErr.Some?)
        || (sc'.current.at > sc.latestSeq && OwedTo(s', t) > 0))
  }

  lemma MovesKeeps(s: Sys, s': Sys, t: string)
    requires Lane(s, t) && Moves(s, s', t) && Levels(s', t)
    ensures Lane(s', t)
  {
    MovesKeepsStandings(s, s', t);
    MovesKeepsBatches(s, s', t);
    MovesKeepsCalls(s, s', t);
  }

  lemma MovesKeepsStandings(s: Sys, s': Sys, t: string)
    requires Levels(s, t) && Standings(s, t) && Moves(s, s', t)
    ensures Standings(s', t)
  {
    forall i | 0 <= i < |s'.core.appliers| ensures InStep(s', t, i) { assert InStep(s, t, i); }
  }

  lemma MovesKeepsBatches(s: Sys, s': Sys, t: string)
    requires Levels(s, t) && Batches(s, t) && Moves(s, s', t)
    ensures Batches(s', t)
  {
    forall k | 0 <= k < |BatchOf(s', t)| ensures DeliveryOk(s', t, BatchOf(s', t)[k]) {
      assert DeliveryOk(s, t, BatchOf(s, t)[k]);
      SameRegistered(s, s', BatchOf(s, t)[k].id);
    }
  }

  lemma MovesKeepsCalls(s: Sys, s': Sys, t: string)
    requires Calls(s, t) && Moves(s, s', t)
    ensures Calls(s', t)
  {
    forall j | 0 <= j < |s'.calls| ensures CallOk(s', t, s'.calls[j]) { assert CallOk(s, t, s.calls[j]); }
    forall i | 0 <= i < |s'.core.appliers| && Line(s', i, t).deliveredSeq > 0
      ensures Call(IdAt(s', i), t, Line(s', i, t).deliveredSeq) in s'.calls
        || Waits(s', t, IdAt(s', i), Line(s', i, t).deliveredSeq)
    {
      assert IdAt(s, i) == IdAt(s', i) && Line(s, i, t) == Line(s', i, t);
    }
  }

  lemma CommitKeeps(s: Sys, at: nat, parsed: Parsed)
    requires Ids(s) && at in s.pubs && Lane(s, s.pubs[at].tenant)
    ensures Lane(DecodedStep(s, at, parsed), s.pubs[at].tenant)
  {
    hide Standings, Batches, Calls, Linked, NotLost;
    MovesKeeps(s, DecodedStep(s, at, parsed), s.pubs[at].tenant);
  }

  // ----- Registering -----

  /** The seed, taken before the applier exists. Nobody drains it yet. */
  function Seeded(s: Sys, read: SeedRead): Sys {
    var core := Seed(s.core, read);
    s.(core := core, seeding := Seeds(s, read),
       owed := map t | t in core.scopes.Keys + s.owed.Keys ::
         OwedTo(s, t) + if ScopeOf(core, t).observed then 1 else 0)
  }

  lemma SeededKeeps(s: Sys, read: SeedRead, t: string)
    requires Ids(s) && Lane(s, t)
    ensures Lane(Seeded(s, read), t)
  {
    hide Standings, Batches, Calls, Linked, NotLost;
    var s' := Seeded(s, read);
    if TakesSeed(s.core, read) && t == read.pub.tenant {
      MovesKeeps(s, s', t);
    } else {
      ElsewhereKeeps(s, s', t);
    }
  }

  predicate Stays(s: Sys, s': Sys, t: string, i: nat)
    requires i < |s'.core.appliers|
  {
    exists j :: 0 <= j < |s.core.appliers| && IdAt(s, j) == IdAt(s', i) && Line(s, j, t) == Line(s', i, t)
  }

  /** A new applier starts at nothing, under an id nobody had. */
  predicate Fresh(s: Sys, s': Sys, t: string, i: nat)
    requires i < |s'.core.appliers|
  {
    IdAt(s', i) > s.core.nextID && Line(s', i, t) == NewStanding
      && (ScopeOf(s.core, t).observed ==> OwedTo(s', t) > 0)
  }

  /** Appliers come and go; a scope changes by at most losing an error that describes nobody registered. */
  predicate Turnover(s: Sys, s': Sys, t: string) {
    var sc, sc' := ScopeOf(s.core, t), ScopeOf(s'.core, t);
    && BatchOf(s', t) == BatchOf(s, t) && (t in s'.batches <==> t in s.batches)
    && s'.calls == s.calls && s'.pubs == s.pubs && OwedTo(s', t) == OwedTo(s, t)
    && s'.core.stamps == s.core.stamps && s'.core.nextID >= s.core.nextID
    && (forall i :: 0 <= i < |s'.core.appliers| ==> Stays(s, s', t, i) || Fresh(s, s', t, i))
    && (sc' == sc || (sc' == sc.(lastErr := None) && Converged(s'.core.appliers, t, sc.latestSeq)))
  }

  lemma TurnoverKeeps(s: Sys, s': Sys, t: string)
    requires Ids(s) && Lane(s, t) && Turnover(s, s', t)
    ensures Lane(s', t)
  {
    hide Ids, Batches, Calls;
    TurnoverKeepsStandings(s, s', t);
    TurnoverKeepsBatches(s, s', t);
    TurnoverKeepsCalls(s, s', t);
    assert NotLost(s', t) by {
      hide Standings, Converged;
      forall i | 0 <= i < |s'.core.appliers| && !ScopeOf(s.core, t).delivering && OwedTo(s, t) == 0
        ensures Line(s', i, t).deliveredSeq == ScopeOf(s'.core, t).current.at
      {
        assert Stays(s, s', t, i) || Fresh(s, s', t, i);
      }
    }
    TurnoverKeepsLevels(s, s', t);
  }

  lemma TurnoverKeepsLevels(s: Sys, s': Sys, t: string)
    requires Levels(s, t) && Standings(s', t) && Turnover(s, s', t)
    ensures Levels(s', t)
  {
    hide Stays, Fresh;
    if ScopeOf(s'.core, t) != ScopeOf(s.core, t) {
      assert InStep(s', t, 0);
    }
  }

  lemma TurnoverKeepsStandings(s: Sys, s': Sys, t: string)
    requires Levels(s, t) && Standings(s, t) && Turnover(s, s', t)
    ensures Standings(s', t)
  {
    hide Stays, Fresh;
    forall i | 0 <= i < |s'.core.appliers| ensures InStep(s', t, i) { TurnoverKeepsOne(s, s', t, i); }
  }

  lemma TurnoverKeepsOne(s: Sys, s': Sys, t: string, i: nat)
    requires Levels(s, t) && Standings(s, t) && Turnover(s, s', t) && i < |s'.core.appliers|
    ensures InStep(s', t, i)
  {
    if Stays(s, s', t, i) {
      var j :| 0 <= j < |s.core.appliers| && IdAt(s, j) == IdAt(s', i) && Line(s, j, t) == Line(s', i, t);
      assert InStep(s, t, j);
    }
  }

  lemma TurnoverKeepsBatches(s: Sys, s': Sys, t: string)
    requires Ids(s) && Batches(s, t) && Turnover(s, s', t)
    ensures Batches(s', t)
  {
    hide Stays, Converged;
    forall k | 0 <= k < |BatchOf(s', t)| ensures DeliveryOk(s', t, BatchOf(s', t)[k]) {
      assert DeliveryOk(s, t, BatchOf(s, t)[k]);
      TurnoverKeepsDelivery(s, s', t, BatchOf(s, t)[k]);
    }
  }

  lemma TurnoverKeepsDelivery(s: Sys, s': Sys, t: string, d: Delivery)
    requires DeliveryOk(s, t, d) && Turnover(s, s', t)
    ensures DeliveryOk(s', t, d)
  {
    hide Converged;
    forall i | 0 <= i < |s'.core.appliers| && IdAt(s', i) == d.id
      ensures Line(s', i, t).deliveredSeq == d.obs.at && Line(s', i, t).accepted == d.previous && !d.outcome.Skipped?
    {
      assert Stays(s, s', t, i);
      var j :| 0 <= j < |s.core.appliers| && IdAt(s, j) == IdAt(s', i) && Line(s, j, t) == Line(s', i, t);
      assert s.core.appliers[j].id == d.id;
    }
    if Registered(s'.core.appliers, d.id) {
      var i :| 0 <= i < |s'.core.appliers| && s'.core.appliers[i].id == d.id;
      assert IdAt(s', i) == d.id;
    }
  }

  lemma TurnoverKeepsCalls(s: Sys, s': Sys, t: string)
    requires Ids(s) && Calls(s, t) && Turnover(s, s', t)
    ensures Calls(s', t)
  {
    hide Converged;
    forall j | 0 <= j < |s'.calls| ensures CallOk(s', t, s'.calls[j]) {
      var c := s.calls[j];
      assert CallOk(s, t, c);
      if c.tenant == t {
        forall i | 0 <= i < |s'.core.appliers| && IdAt(s', i) == c.id ensures c.at <= Line(s', i, t).deliveredSeq {
          assert Stays(s, s', t, i);
        }
      }
    }
    forall i | 0 <= i < |s'.core.appliers| && Line(s', i, t).deliveredSeq > 0
      ensures Call(IdAt(s', i), t, Line(s', i, t).deliveredSeq) in s'.calls
        || Waits(s', t, IdAt(s', i), Line(s', i, t).deliveredSeq)
    {
      assert Stays(s, s', t, i);
    }
  }

  /** Registering past the seed. */
  predicate Joins(s: Sys, s': Sys, t: string) {
    && s' == s.(core := s.core.(nextID := s.core.nextID + 1,
         appliers := s.core.appliers + [Applier(s.core.nextID + 1, map[])]))
    && (ScopeOf(s.core, t).observed ==> OwedTo(s, t) > 0)
  }

  lemma JoinsTurnsOver(s: Sys, s': Sys, t: string)
    requires Joins(s, s', t)
    ensures Turnover(s, s', t)
  {
    forall i | 0 <= i < |s'.core.appliers| ensures Stays(s, s', t, i) || Fresh(s, s', t, i) {
      if i < |s.core.appliers| {
        assert IdAt(s, i) == IdAt(s', i) && Line(s, i, t) == Line(s', i, t);
      }
    }
  }

  lemma RegisterKeeps(s: Sys, read: SeedRead)
    requires Inv(s)
    ensures Inv(RegisterStep(s, read))
  {
    hide Lane, Climbing;
    var s1, s' := Seeded(s, read), RegisterStep(s, read);
    assert Ids(s1);
    forall t ensures Lane(s', t) {
      assert Lane(s, t);
      SeededKeeps(s, read, t);
      JoinsTurnsOver(s1, s', t);
      TurnoverKeeps(s1, s', t);
    }
  }

  // ----- Unsubscribing -----

  lemma {:induction false} WithoutAt(aps: seq<Applier>, id: nat) returns (m: nat)
    requires Registered(aps, id)
    ensures m < |aps| && aps[m].id == id && Without(aps, id) == aps[..m] + aps[m + 1..]
    decreases |aps|
  {
    if aps[0].id == id {
      m := 0;
    } else {
      var i :| 0 <= i < |aps| && aps[i].id == id;
      assert aps[1..][i - 1].id == id;
      var n := WithoutAt(aps[1..], id);
      m := n + 1;
      assert aps[..m] == [aps[0]] + aps[1..][..n];
      assert aps[m + 1..] == aps[1..][n + 1..];
    }
  }

  lemma UnsubscribeTurnsOver(s: Sys, id: nat, t: string)
    requires Registered(s.core.appliers, id)
    ensures Turnover(s, s.(core := Remove(s.core, id)), t)
  {
    var s' := s.(core := Remove(s.core, id));
    var m := WithoutAt(s.core.appliers, id);
    forall i | 0 <= i < |s'.core.appliers| ensures Stays(s, s', t, i) {
      var j := if i < m then i else i + 1;
      assert IdAt(s, j) == IdAt(s', i) && Line(s, j, t) == Line(s', i, t);
    }
  }

  lemma WithoutKeepsIds(s: Sys, id: nat)
    requires Ids(s)
    ensures Ids(s.(core := Remove(s.core, id)))
  {
    hide ClearErr;
    if Registered(s.core.appliers, id) { var _ := WithoutAt(s.core.appliers, id); }
  }

  lemma UnsubscribeKeeps(s: Sys, id: nat)
    requires Inv(s)
    ensures Inv(s.(core := Remove(s.core, id)))
  {
    hide Lane, Climbing, Turnover, ClearErr, Ids;
    WithoutKeepsIds(s, id);
    var s' := s.(core := Remove(s.core, id));
    if Registered(s.core.appliers, id) {
      forall t ensures Lane(s', t) {
        assert Lane(s, t);
        UnsubscribeTurnsOver(s, id, t);
        TurnoverKeeps(s, s', t);
      }
    }
  }

  // ----- One turn of a drain -----

  function OfferTo(ap: Applier, t: string, obs: Observation): Delivery {
    Delivery(ap.id, obs, StandingOf(ap, t).accepted, Waiting)
  }

  predicate FromBehind(aps: seq<Applier>, t: string, obs: Observation, d: Delivery) {
    exists i :: 0 <= i < |aps| && Behind(aps[i], t, obs) && d == OfferTo(aps[i], t, obs)
  }

  lemma {:induction false} OnlyTheBehind(aps: seq<Applier>, t: string, obs: Observation, k: nat)
    requires k < |Batch(aps, t, obs)|
    ensures FromBehind(aps, t, obs, Batch(aps, t, obs)[k])
  {
    var front := aps[..|aps| - 1];
    if k < |Batch(front, t, obs)| {
      OnlyTheBehind(front, t, obs, k);
      var i :| 0 <= i < |front| && Behind(front[i], t, obs) && Batch(front, t, obs)[k] == OfferTo(front[i], t, obs);
      assert Behind(aps[i], t, obs) && aps[i] == front[i];
    }
  }

  lemma {:induction false} AllTheBehind(aps: seq<Applier>, t: string, obs: Observation, i: nat) returns (k: nat)
    requires i < |aps| && Behind(aps[i], t, obs)
    ensures k < |Batch(aps, t, obs)| && Batch(aps, t, obs)[k] == OfferTo(aps[i], t, obs)
  {
    if i == |aps| - 1 {
      k := |Batch(aps, t, obs)| - 1;
    } else {
      k := AllTheBehind(aps[..|aps| - 1], t, obs, i);
    }
  }

  lemma {:induction false} BatchDistinct(aps: seq<Applier>, t: string, obs: Observation, k: nat, j: nat)
    requires Distinct(aps) && k < j < |Batch(aps, t, obs)|
    ensures Batch(aps, t, obs)[k].id != Batch(aps, t, obs)[j].id
  {
    var front := aps[..|aps| - 1];
    assert Distinct(front);
    if j < |Batch(front, t, obs)| {
      BatchDistinct(front, t, obs, k, j);
    } else {
      OnlyTheBehind(front, t, obs, k);
    }
  }

  /** What the turn does to the applier at one place. */
  lemma TurnAt(s: Sys, t: string, i: nat)
    requires i < |s.core.appliers|
    ensures var s', obs := TakeTurn(s, t), ScopeOf(s.core, t).current;
      && |s'.core.appliers| == |s.core.appliers| && IdAt(s', i) == IdAt(s, i)
      && Line(s', i, t) == Line(s, i, t).(
           deliveredSeq := if Line(s, i, t).deliveredSeq < obs.at then obs.at else Line(s, i, t).deliveredSeq)
      && (InBatch(s', IdAt(s, i), t) <== Line(s, i, t).deliveredSeq < obs.at)
      && (Waits(s', t, IdAt(s, i), obs.at) <== Line(s, i, t).deliveredSeq < obs.at)
  {
    hide Batch;
    var s', obs := TakeTurn(s, t), ScopeOf(s.core, t).current;
    assert s'.core.appliers[i] == Offer(s.core.appliers[i], t, obs);
    assert BatchOf(s', t) == Batch(s.core.appliers, t, obs);
    if Line(s, i, t).deliveredSeq < obs.at {
      assert Behind(s.core.appliers[i], t, obs);
      var k := AllTheBehind(s.core.appliers, t, obs, i);
      assert BatchOf(s', t)[k].id == IdAt(s, i);
    }
  }

  lemma TurnKeepsStandings(s: Sys, t: string)
    requires Levels(s, t) && Standings(s, t) && t !in s.batches
    ensures Standings(TakeTurn(s, t), t)
  {
    hide Batch, OfferAll;
    var s' := TakeTurn(s, t);
    forall i | 0 <= i < |s'.core.appliers| ensures InStep(s', t, i) {
      TurnAt(s, t, i);
      assert InStep(s, t, i);
      assert !InBatch(s, IdAt(s, i), t);
    }
  }

  lemma TurnLosesNothing(s: Sys, t: string)
    requires Levels(s, t) && Standings(s, t)
    ensures NotLost(TakeTurn(s, t), t)
  {
    hide Batch, OfferAll;
    var s' := TakeTurn(s, t);
    forall i | 0 <= i < |s'.core.appliers| ensures Line(s', i, t).deliveredSeq == ScopeOf(s'.core, t).current.at {
      TurnAt(s, t, i);
      assert InStep(s, t, i);
    }
  }

  lemma TurnKeepsBatches(s: Sys, t: string)
    requires Ids(s) && Levels(s, t) && Standings(s, t)
    ensures Batches(TakeTurn(s, t), t)
  {
    hide Batch, OfferAll, Levels, Standings;
    var s', obs := TakeTurn(s, t), ScopeOf(s.core, t).current;
    assert BatchOf(s', t) == Batch(s.core.appliers, t, obs);
    forall k | 0 <= k < |BatchOf(s', t)| ensures DeliveryOk(s', t, BatchOf(s', t)[k]) {
      OnlyTheBehind(s.core.appliers, t, obs, k);
      OfferedOk(s, t, BatchOf(s', t)[k]);
    }
    forall k, j | 0 <= k < j < |BatchOf(s', t)| ensures BatchOf(s', t)[k].id != BatchOf(s', t)[j].id {
      BatchDistinct(s.core.appliers, t, obs, k, j);
    }
  }

  lemma OfferedOk(s: Sys, t: string, d: Delivery)
    requires Ids(s) && FromBehind(s.core.appliers, t, ScopeOf(s.core, t).current, d)
    ensures DeliveryOk(TakeTurn(s, t), t, d)
  {
    hide Batch, OfferAll;
    var s', obs := TakeTurn(s, t), ScopeOf(s.core, t).current;
    var j :| 0 <= j < |s.core.appliers| && Behind(s.core.appliers[j], t, obs)
      && d == OfferTo(s.core.appliers[j], t, obs);
    forall i | 0 <= i < |s'.core.appliers| && IdAt(s', i) == d.id
      ensures Line(s', i, t).deliveredSeq == d.obs.at && Line(s', i, t).accepted == d.previous
    {
      TurnAt(s, t, i);
      assert s.core.appliers[i].id == s.core.appliers[j].id;
      assert i == j;
    }
  }

  lemma TurnKeepsCalls(s: Sys, t: string)
    requires Ids(s) && Calls(s, t) && t !in s.batches
    ensures Calls(TakeTurn(s, t), t)
  {
    hide Batch, OfferAll, Ids;
    var s', obs := TakeTurn(s, t), ScopeOf(s.core, t).current;
    forall j | 0 <= j < |s'.calls| ensures CallOk(s', t, s'.calls[j]) { TurnKeepsCall(s, t, s.calls[j]); }
    forall i | 0 <= i < |s'.core.appliers| && Line(s', i, t).deliveredSeq > 0
      ensures Call(IdAt(s', i), t, Line(s', i, t).deliveredSeq) in s'.calls
        || Waits(s', t, IdAt(s', i), Line(s', i, t).deliveredSeq)
    {
      TurnAt(s, t, i);
      assert !Waits(s, t, IdAt(s, i), Line(s, i, t).deliveredSeq);
    }
  }

  lemma TurnKeepsCall(s: Sys, t: string, c: Call)
    requires CallOk(s, t, c)
    ensures CallOk(TakeTurn(s, t), t, c)
  {
    hide Batch, OfferAll;
    var s', obs := TakeTurn(s, t), ScopeOf(s.core, t).current;
    assert BatchOf(s', t) == Batch(s.core.appliers, t, obs);
    if c.tenant == t {
      forall i | 0 <= i < |s'.core.appliers| && IdAt(s', i) == c.id ensures c.at <= Line(s', i, t).deliveredSeq {
        TurnAt(s, t, i);
      }
      forall k | 0 <= k < |BatchOf(s', t)| && BatchOf(s', t)[k].id == c.id ensures c.at < BatchOf(s', t)[k].obs.at {
        OnlyTheBehind(s.core.appliers, t, obs, k);
        var i :| 0 <= i < |s.core.appliers| && Behind(s.core.appliers[i], t, obs)
          && BatchOf(s', t)[k] == OfferTo(s.core.appliers[i], t, obs);
        assert IdAt(s, i) == c.id;
      }
    }
  }

  /** A turn starts with nothing in flight for the scope. */
  lemma TurnKeeps(s: Sys, t: string)
    requires Ids(s) && Settled(s, t) && t !in s.batches
    ensures Lane(TakeTurn(s, t), t)
  {
    TurnKeepsStandings(s, t);
    TurnKeepsBatches(s, t);
    TurnKeepsCalls(s, t);
    TurnLosesNothing(s, t);
    hide Standings, Batches, Calls, NotLost, Batch, OfferAll;
  }

  lemma TurnElsewhere(s: Sys, t: string, u: string)
    requires u != t
    ensures Elsewhere(s, TakeTurn(s, t), u)
  {
    hide Batch;
    var s', obs := TakeTurn(s, t), ScopeOf(s.core, t).current;
    forall i | 0 <= i < |s.core.appliers| ensures IdAt(s', i) == IdAt(s, i) && Line(s', i, u) == Line(s, i, u) {
      assert s'.core.appliers[i] == Offer(s.core.appliers[i], t, obs);
    }
  }

  lemma TurnKeepsIds(s: Sys, t: string)
    requires Ids(s)
    ensures Ids(TakeTurn(s, t))
  {
    hide Batch;
  }

  lemma DrainKeeps(s: Sys, t: string)
    requires Inv(s) && OwedTo(s, t) > 0
    ensures Inv(DrainStep(s, t))
  {
    hide Lane, Climbing, TakeTurn;
    var s1, s' := s.(owed := s.owed[t := OwedTo(s, t) - 1]), DrainStep(s, t);
    TurnKeepsIds(s1, t);
    assert s'.calls == s.calls by { TurnKeepsCallLog(s1, t); }
    forall u ensures Lane(s', u) {
      assert Lane(s, u);
      if u == t {
        DrainKeepsOwn(s, t);
      } else {
        assert Elsewhere(s, s1, u);
        ElsewhereKeeps(s, s1, u);
        if !ScopeOf(s.core, t).delivering {
          TurnElsewhere(s1, t, u);
          ElsewhereKeeps(s1, s', u);
        }
      }
    }
  }

  lemma TurnKeepsCallLog(s: Sys, t: string)
    ensures TakeTurn(s, t).calls == s.calls
  {
  }

  /** Giving up one owed drain of a scope. */
  lemma DrainKeepsOwn(s: Sys, t: string)
    requires Ids(s) && Lane(s, t) && OwedTo(s, t) > 0
    ensures Lane(DrainStep(s, t), t)
  {
    hide TakeTurn;
    var s1 := s.(owed := s.owed[t := OwedTo(s, t) - 1]);
    OweLess(s, s1, t);
    if !ScopeOf(s.core, t).delivering { TurnKeeps(s1, t); }
  }

  lemma OweLess(s: Sys, s1: Sys, t: string)
    requires Settled(s, t) && s1 == s.(owed := s1.owed)
    ensures Settled(s1, t)
  {
    assert BatchOf(s1, t) == BatchOf(s, t) && SameLines(s, s1, t);
    forall i | 0 <= i < |s1.core.appliers| ensures InStep(s1, t, i) { assert InStep(s, t, i); }
    forall k | 0 <= k < |BatchOf(s1, t)| ensures DeliveryOk(s1, t, BatchOf(s1, t)[k]) {
      assert DeliveryOk(s, t, BatchOf(s, t)[k]);
    }
    forall j | 0 <= j < |s1.calls| ensures CallOk(s1, t, s1.calls[j]) { assert CallOk(s, t, s.calls[j]); }
  }

  // ----- Calling one applier -----

  /** One delivery of the batch moves on; at most it is recorded as a call. */
  predicate Marks(s: Sys, s': Sys, t: string, k: nat) {
    && k < |BatchOf(s, t)| && t in s.batches && s' == s.(batches := s'.batches, calls := s'.calls)
    && t in s'.batches && s'.batches == s.batches[t := BatchOf(s', t)]
    && |BatchOf(s', t)| == |BatchOf(s, t)|
    && BatchOf(s', t) == BatchOf(s, t)[k := BatchOf(s, t)[k].(outcome := BatchOf(s', t)[k].outcome)]
    && (BatchOf(s', t)[k].outcome.Skipped? ==> !Registered(s.core.appliers, BatchOf(s, t)[k].id))
    && (Unstarted(BatchOf(s', t)[k]) ==> Unstarted(BatchOf(s, t)[k]))
    && s'.calls == (if Unstarted(BatchOf(s, t)[k]) && BatchOf(s', t)[k].outcome.Running?
                    then s.calls + [Call(BatchOf(s, t)[k].id, t, BatchOf(s, t)[k].obs.at)] else s.calls)
    && (Unstarted(BatchOf(s, t)[k]) ==>
          || Unstarted(BatchOf(s', t)[k]) || BatchOf(s', t)[k].outcome.Running?
          || !Registered(s.core.appliers, BatchOf(s, t)[k].id))
  }

  lemma CheckMarks(s: Sys, t: string, k: nat)
    requires Enabled(s, Check(t, k))
    ensures Marks(s, CheckStep(s, t, k), t, k)
  {
  }

  lemma StartMarks(s: Sys, t: string, k: nat)
    requires Enabled(s, Start(t, k))
    ensures Marks(s, StartStep(s, t, k), t, k)
  {
  }

  lemma EndMarks(s: Sys, t: string, k: nat, why: Option<Reason>)
    requires Enabled(s, End(t, k, why))
    ensures Marks(s, EndStep(s, t, k, why), t, k)
  {
  }

  lemma MarksKeepsStandings(s: Sys, s': Sys, t: string, k: nat)
    requires Standings(s, t) && Marks(s, s', t, k)
    ensures Standings(s', t)
  {
    forall i | 0 <= i < |s'.core.appliers| ensures InStep(s', t, i) {
      assert InStep(s, t, i) && Line(s', i, t) == Line(s, i, t) && IdAt(s', i) == IdAt(s, i);
      if InBatch(s, IdAt(s, i), t) {
        var j :| 0 <= j < |BatchOf(s, t)| && BatchOf(s, t)[j].id == IdAt(s, i);
        assert BatchOf(s', t)[j].id == IdAt(s', i);
      }
    }
  }

  lemma MarksKeepsBatches(s: Sys, s': Sys, t: string, k: nat)
    requires Batches(s, t) && Marks(s, s', t, k)
    ensures Batches(s', t)
  {
    forall j | 0 <= j < |BatchOf(s', t)| ensures DeliveryOk(s', t, BatchOf(s', t)[j]) {
      assert DeliveryOk(s, t, BatchOf(s, t)[j]);
      assert SameLines(s, s', t);
    }
  }

  lemma MarksKeepsCalls(s: Sys, s': Sys, t: string, k: nat)
    requires Batches(s, t) && Calls(s, t) && Marks(s, s', t, k)
    ensures Calls(s', t)
  {
    var d := BatchOf(s, t)[k];
    assert DeliveryOk(s, t, d) && SameLines(s, s', t);
    forall j | 0 <= j < |s'.calls| ensures CallOk(s', t, s'.calls[j]) {
      if j < |s.calls| { assert CallOk(s, t, s.calls[j]); }
    }
    forall i | 0 <= i < |s'.core.appliers| && Line(s', i, t).deliveredSeq > 0
      ensures Call(IdAt(s', i), t, Line(s', i, t).deliveredSeq) in s'.calls
        || Waits(s', t, IdAt(s', i), Line(s', i, t).deliveredSeq)
    {
      assert Line(s', i, t) == Line(s, i, t) && IdAt(s', i) == IdAt(s, i) && s.core.appliers[i].id == IdAt(s, i);
      var at := Line(s, i, t).deliveredSeq;
      if Call(IdAt(s, i), t, at) !in s.calls {
        var j :| 0 <= j < |BatchOf(s, t)| && BatchOf(s, t)[j].id == IdAt(s, i) && Unstarted(BatchOf(s, t)[j])
          && BatchOf(s, t)[j].obs.at == at;
        if j != k { assert BatchOf(s', t)[j] == BatchOf(s, t)[j]; }
      }
    }
  }

  lemma MarksKeeps(s: Sys, s': Sys, t: string, k: nat)
    requires Inv(s) && Marks(s, s', t, k)
    ensures Inv(s')
  {
    hide Lane;
    assert Lane(s, t);
    MarksKeepsOwn(s, s', t, k);
    MarksKeepsHistory(s, s', t, k);
    forall u ensures Lane(s', u) {
      assert Lane(s, u);
      if u != t { ElsewhereKeeps(s, s', u); }
    }
  }

  lemma MarksKeepsOwn(s: Sys, s': Sys, t: string, k: nat)
    requires Lane(s, t) && Marks(s, s', t, k)
    ensures Lane(s', t)
  {
    MarksKeepsStandings(s, s', t, k);
    MarksKeepsBatches(s, s', t, k);
    MarksKeepsCalls(s, s', t, k);
    assert SameLines(s, s', t);
    hide Standings, Batches, Calls;
  }

  lemma MarksKeepsHistory(s: Sys, s': Sys, t: string, k: nat)
    requires Ids(s) && Climbing(s.calls) && Lane(s, t) && Marks(s, s', t, k)
    ensures Ids(s') && Climbing(s'.calls)
  {
    var d := BatchOf(s, t)[k];
    assert DeliveryOk(s, t, d);
    forall j | 0 <= j < |s.calls| && s.calls[j].id == d.id && s.calls[j].tenant == t && Unstarted(d)
      ensures s.calls[j].at < d.obs.at
    {
      assert CallOk(s, t, s.calls[j]);
    }
  }

  // ----- Recording a batch -----

  lemma {:induction false} RecordOneAt(aps: seq<Applier>, t: string, d: Delivery, i: nat, u: string)
    requires i < |aps|
    ensures var r, st := RecordOne(aps, t, d)[i], StandingOf(aps[i], u);
      && r.id == aps[i].id
      && StandingOf(r, u) ==
           if u == t && aps[i].id == d.id && d.outcome.Accepted?
           then Standing(st.deliveredSeq, st.deliveredSeq, d.obs.revision, Some(d.obs)) else st
  {
    if i < |aps| - 1 { RecordOneAt(aps[..|aps| - 1], t, d, i, u); }
  }

  predicate Apart(batch: seq<Delivery>) {
    forall k, j :: 0 <= k < j < |batch| ==> batch[k].id != batch[j].id
  }

  /** The delivery of `batch` an applier accepted, if it did. */
  predicate AcceptedIn(batch: seq<Delivery>, id: nat, d: Delivery) {
    d in batch && d.id == id && d.outcome.Accepted?
  }

  lemma {:induction false} RecordAllKeeps(aps: seq<Applier>, t: string, batch: seq<Delivery>, i: nat, u: string)
    requires i < |aps| && (u != t || forall d :: d in batch ==> !AcceptedIn(batch, aps[i].id, d))
    ensures RecordAll(aps, t, batch)[i].id == aps[i].id
    ensures StandingOf(RecordAll(aps, t, batch)[i], u) == StandingOf(aps[i], u)
    decreases |batch|
  {
    if |batch| > 0 {
      var front, d := batch[..|batch| - 1], batch[|batch| - 1];
      assert !AcceptedIn(batch, aps[i].id, d) || u != t;
      forall e | e in front ensures u != t || !AcceptedIn(front, aps[i].id, e) {
        assert u != t || !AcceptedIn(batch, aps[i].id, e);
      }
      RecordAllKeeps(aps, t, front, i, u);
      RecordOneAt(RecordAll(aps, t, front), t, d, i, u);
    }
  }

  lemma {:induction false} RecordAllAccepts(aps: seq<Applier>, t: string, batch: seq<Delivery>, i: nat, k: nat)
    requires i < |aps| && k < |batch| && Apart(batch) && AcceptedIn(batch, aps[i].id, batch[k])
    ensures RecordAll(aps, t, batch)[i].id == aps[i].id
    ensures var st := StandingOf(aps[i], t);
      StandingOf(RecordAll(aps, t, batch)[i], t)
      == Standing(st.deliveredSeq, st.deliveredSeq, batch[k].obs.revision, Some(batch[k].obs))
    decreases |batch|
  {
    var front, d := batch[..|batch| - 1], batch[|batch| - 1];
    if k == |batch| - 1 {
      RecordAllKeeps(aps, t, front, i, t);
    } else {
      RecordAllAccepts(aps, t, front, i, k);
    }
    RecordOneAt(RecordAll(aps, t, front), t, d, i, t);
  }

  lemma {:induction false} NoRejection(prior: Option<Reason>, batch: seq<Delivery>, k: nat)
    requires LastRejection(prior, batch).None?
    ensures prior.None? && (k < |batch| ==> !batch[k].outcome.Rejected?)
  {
    if |batch| > 0 {
      NoRejection(prior, batch[..|batch| - 1], k);
    }
  }

  /** A batch every delivery of which is over. */
  predicate Ended(s: Sys, t: string) {
    t in s.batches && forall k :: 0 <= k < |BatchOf(s, t)| ==> Over(BatchOf(s, t)[k])
  }

  lemma RecordedElsewhere(s: Sys, t: string, u: string)
    requires u != t
    ensures Elsewhere(s, Recorded(s, t), u)
  {
    hide RecordAll, LastRejection, Converged;
    forall i | 0 <= i < |s.core.appliers|
      ensures IdAt(Recorded(s, t), i) == IdAt(s, i) && Line(Recorded(s, t), i, u) == Line(s, i, u)
    {
      RecordAllKeeps(s.core.appliers, t, BatchOf(s, t), i, u);
    }
  }

  /** The applier after its batch is recorded: as it was, or caught up with what it accepted. */
  lemma RecordedAt(s: Sys, t: string, i: nat) returns (accepted: Option<nat>)
    requires i < |s.core.appliers| && Batches(s, t)
    ensures var s1, b := Recorded(s, t), BatchOf(s, t);
      && IdAt(s1, i) == IdAt(s, i)
      && (accepted.Some? ==>
            && accepted.value < |b| && AcceptedIn(b, IdAt(s, i), b[accepted.value])
            && Line(s1, i, t) == Standing(Line(s, i, t).deliveredSeq, Line(s, i, t).deliveredSeq,
                                          b[accepted.value].obs.revision, Some(b[accepted.value].obs)))
      && (accepted.None? ==>
            Line(s1, i, t) == Line(s, i, t) && forall d :: d in b ==> !AcceptedIn(b, IdAt(s, i), d))
  {
    hide RecordAll, LastRejection, Converged, DeliveryOk;
    var b := BatchOf(s, t);
    if d :| d in b && AcceptedIn(b, IdAt(s, i), d) {
      var k :| 0 <= k < |b| && b[k] == d;
      RecordAllAccepts(s.core.appliers, t, b, i, k);
      accepted := Some(k);
    } else {
      RecordAllKeeps(s.core.appliers, t, b, i, t);
      accepted := None;
    }
  }

  lemma RecordedError(s: Sys, t: string)
    ensures var sc, sc1 := ScopeOf(s.core, t), ScopeOf(Recorded(s, t).core, t);
      && sc1 == sc.(lastErr := sc1.lastErr)
      && (sc1.lastErr.None? ==>
            || Converged(Recorded(s, t).core.appliers, t, sc.latestSeq)
            || LastRejection(sc.lastErr, BatchOf(s, t)).None?)
  {
    hide RecordAll, LastRejection, Converged;
  }

  /** With nothing rejected, an applier that accepted nothing of the batch was not in it: the others had left. */
  lemma NotInCleanBatch(s: Sys, t: string, i: nat)
    requires Batches(s, t) && Ended(s, t) && i < |s.core.appliers|
    requires LastRejection(ScopeOf(s.core, t).lastErr, BatchOf(s, t)).None?
    requires forall d :: d in BatchOf(s, t) ==> !AcceptedIn(BatchOf(s, t), IdAt(s, i), d)
    ensures !InBatch(s, IdAt(s, i), t)
  {
    var b := BatchOf(s, t);
    assert Registered(s.core.appliers, s.core.appliers[i].id);
    forall k | 0 <= k < |b| ensures b[k].id != IdAt(s, i) {
      NoRejection(ScopeOf(s.core, t).lastErr, b, k);
      assert DeliveryOk(s, t, b[k]) && Over(b[k]) && b[k] in b;
    }
  }

  lemma RecordedKeepsOne(s: Sys, t: string, i: nat)
    requires Levels(s, t) && Standings(s, t) && Batches(s, t) && Ended(s, t) && i < |s.core.appliers|
    ensures |Recorded(s, t).core.appliers| == |s.core.appliers| && InStep(Recorded(s, t), t, i)
  {
    hide RecordAll, LastRejection;
    var s1, b, sc := Recorded(s, t), BatchOf(s, t), ScopeOf(s.core, t);
    var accepted := RecordedAt(s, t, i);
    RecordedError(s, t);
    assert InStep(s, t, i);
    if accepted.Some? {
      assert DeliveryOk(s, t, b[accepted.value]);
    } else if ScopeOf(s1.core, t).lastErr.None? && !Converged(s1.core.appliers, t, sc.latestSeq) {
      NoRejection(sc.lastErr, b, |b|);
      NotInCleanBatch(s, t, i);
    }
  }

  lemma RecordedKeepsCalls(s: Sys, t: string)
    requires Batches(s, t) && Calls(s, t) && Ended(s, t)
    ensures Calls(Recorded(s, t), t) && Batches(Recorded(s, t), t)
  {
    hide RecordAll, LastRejection, Converged, DeliveryOk;
    var s1 := Recorded(s, t);
    assert BatchOf(s1, t) == [];
    forall i | 0 <= i < |s1.core.appliers|
      ensures IdAt(s1, i) == IdAt(s, i) && Line(s1, i, t).deliveredSeq == Line(s, i, t).deliveredSeq
    {
      var _ := RecordedAt(s, t, i);
    }
    forall j | 0 <= j < |s1.calls| ensures CallOk(s1, t, s1.calls[j]) { assert CallOk(s, t, s.calls[j]); }
    forall i | 0 <= i < |s1.core.appliers| && Line(s1, i, t).deliveredSeq > 0
      ensures Call(IdAt(s1, i), t, Line(s1, i, t).deliveredSeq) in s1.calls
    {
      assert !Waits(s, t, IdAt(s, i), Line(s, i, t).deliveredSeq);
    }
  }

  lemma RecordedSettles(s: Sys, t: string)
    requires Settled(s, t) && Ended(s, t)
    ensures Settled(Recorded(s, t), t)
  {
    hide RecordAll, LastRejection, DeliveryOk;
    var s1, sc := Recorded(s, t), ScopeOf(s.core, t);
    RecordedKeepsCalls(s, t);
    forall i | 0 <= i < |s1.core.appliers| ensures InStep(s1, t, i) { RecordedKeepsOne(s, t, i); }
    RecordedError(s, t);
    if ScopeOf(s1.core, t).lastErr.None? {
      if Converged(s1.core.appliers, t, sc.latestSeq) {
        assert InStep(s1, t, 0);
      } else {
        NoRejection(sc.lastErr, BatchOf(s, t), 0);
      }
    }
  }

  lemma RecordedKeepsIds(s: Sys, t: string)
    requires Ids(s) && Batches(s, t)
    ensures Ids(Recorded(s, t))
  {
    hide RecordAll, LastRejection, Converged, Batches;
    var s1 := Recorded(s, t);
    forall i | 0 <= i < |s1.core.appliers| ensures s1.core.appliers[i].id == s.core.appliers[i].id {
      var _ := RecordedAt(s, t, i);
      assert IdAt(s1, i) == IdAt(s, i);
    }
  }

  lemma FinishKeeps(s: Sys, t: string)
    requires Inv(s) && Ended(s, t)
    ensures Inv(TakeTurn(Recorded(s, t), t))
  {
    hide Lane, Climbing, TakeTurn, Recorded;
    var s1, s' := Recorded(s, t), TakeTurn(Recorded(s, t), t);
    assert Lane(s, t);
    FinishKeepsOwn(s, t);
    TurnKeepsIds(s1, t);
    forall u ensures Lane(s', u) {
      assert Lane(s, u);
      if u != t {
        RecordedElsewhere(s, t, u);
        ElsewhereKeeps(s, s1, u);
        TurnElsewhere(s1, t, u);
        ElsewhereKeeps(s1, s', u);
      }
    }
  }

  lemma FinishKeepsOwn(s: Sys, t: string)
    requires Ids(s) && Lane(s, t) && Ended(s, t)
    ensures Lane(TakeTurn(Recorded(s, t), t), t) && Ids(Recorded(s, t))
    ensures TakeTurn(Recorded(s, t), t).calls == s.calls
  {
    hide Settled, Record;
    RecordedSettles(s, t);
    RecordedKeepsIds(s, t) by { hide *; HasBatches(s, t); }
    TurnKeeps(Recorded(s, t), t);
  }

  lemma HasBatches(s: Sys, t: string)
    requires Lane(s, t)
    ensures Batches(s, t)
  {
    hide Levels, Standings, Batches, Calls, Linked, NotLost;
  }

  // ----- Every run -----

  lemma StepKeepsInv(s: Sys, a: Action)
    requires Inv(s) && Enabled(s, a)
    ensures Inv(Next(s, a))
  {
    hide Inv, StampStep, DecodedStep, RegisterStep, DrainStep, TakeTurn, Recorded, CheckStep, StartStep, EndStep;
    match a {
      case Stamp(pub) => StampKeeps(s, pub);
      case Decoded(at, parsed) => DecodedKeeps(s, at, parsed);
      case Register(read) => RegisterKeeps(s, read);
      case Unsubscribe(id) => UnsubscribeKeeps(s, id);
      case Drain(t) => DrainKeeps(s, t);
      case Check(t, k) => CheckMarks(s, t, k); MarksKeeps(s, CheckStep(s, t, k), t, k);
      case Start(t, k) => StartMarks(s, t, k); MarksKeeps(s, StartStep(s, t, k), t, k);
      case End(t, k, why) => EndMarks(s, t, k, why); MarksKeeps(s, EndStep(s, t, k, why), t, k);
      case Finish(t) => FinishKeeps(s, t);
    }
  }

  lemma {:induction false} RunKeepsInv(s: Sys, run: seq<Action>)
    requires Inv(s) && Possible(s, run)
    ensures Inv(After(s, run))
    decreases |run|
  {
    hide Inv, Next, Enabled;
    if |run| > 0 {
      StepKeepsInv(s, run[0]);
      RunKeepsInv(Next(s, run[0]), run[1..]);
    }
  }

  ghost predicate Reachable(s: Sys) {
    exists run :: Possible(Init, run) && After(Init, run) == s
  }

  lemma ReachableInv(s: Sys)
    requires Reachable(s)
    ensures Inv(s)
  {
    hide Next, Enabled;
    var run :| Possible(Init, run) && After(Init, run) == s;
    RunKeepsInv(Init, run);
  }

  // ----- What appliers and operators are promised -----

  /** Nothing is offered twice and nothing out of order: per applier and scope the observations climb. */
  lemma CallsClimb(s: Sys, i: nat, j: nat)
    requires Reachable(s) && i < j < |s.calls|
    requires s.calls[i].id == s.calls[j].id && s.calls[i].tenant == s.calls[j].tenant
    ensures s.calls[i].at < s.calls[j].at
  {
    hide Lane;
    ReachableInv(s);
  }

  /** Nothing is being delivered for the scope, and nobody is about to drain it. */
  predicate Idle(s: Sys, t: string) {
    !ScopeOf(s.core, t).delivering && OwedTo(s, t) == 0
  }

  /** Nothing is lost: at rest every registered applier was called with the scope's current observation. */
  lemma EveryApplierWasCalled(s: Sys, t: string, i: nat)
    requires Reachable(s) && Idle(s, t) && i < |s.core.appliers| && ScopeOf(s.core, t).current != Nothing
    ensures Call(s.core.appliers[i].id, t, ScopeOf(s.core, t).current.at) in s.calls
  {
    hide Levels, Batches;
    ReachableInv(s);
    assert Lane(s, t);
    assert Levels(s, t);
    assert !Waits(s, t, IdAt(s, i), Line(s, i, t).deliveredSeq);
    NotNothing(s, t);
  }

  lemma NotNothing(s: Sys, t: string)
    requires Levels(s, t) && ScopeOf(s.core, t).current != Nothing
    ensures ScopeOf(s.core, t).current.at > 0
  {
  }

  /**
   The status is honest: at rest, with somebody registered, no reported error means that every applier has
   accepted the newest observation, one that did not decode included, and that Applied equals Desired.
   */
  lemma StatusIsHonest(s: Sys, t: string)
    requires Reachable(s) && Idle(s, t) && s.core.appliers != [] && t in s.core.scopes
    requires ScopeOf(s.core, t).observed && ScopeOf(s.core, t).lastErr.None?
    ensures ScopeOf(s.core, t).current.at == ScopeOf(s.core, t).latestSeq
    ensures forall i :: 0 <= i < |s.core.appliers| ==>
      StandingOf(s.core.appliers[i], t).acceptedSeq == ScopeOf(s.core, t).latestSeq
    ensures Applied(s.core, t) == ScopeOf(s.core, t).desired
  {
    hide Batches, Calls;
    ReachableInv(s);
    assert Lane(s, t);
    forall i | 0 <= i < |s.core.appliers|
      ensures StandingOf(s.core.appliers[i], t).acceptedSeq == ScopeOf(s.core, t).latestSeq
      ensures StandingOf(s.core.appliers[i], t).appliedRev == ScopeOf(s.core, t).desired
      ensures t in s.core.appliers[i].state
    {
      assert InStep(s, t, i) && !InBatch(s, IdAt(s, i), t);
      assert Line(s, i, t).deliveredSeq == ScopeOf(s.core, t).current.at;
    }
  }

  /** The applier whose last accepted observation is the oldest, the first of several. */
  predicate Slowest(aps: seq<Applier>, t: string, i: nat)
    requires i < |aps| && forall j :: 0 <= j < |aps| ==> t in aps[j].state
  {
    forall j :: 0 <= j < |aps| ==>
      aps[i].state[t].acceptedSeq <= aps[j].state[t].acceptedSeq
      && (j < i ==> aps[i].state[t].acceptedSeq < aps[j].state[t].acceptedSeq)
  }

  /**
   What Applied reports: with nobody registered, what is desired; 0 while somebody was never offered the scope;
   otherwise the revision of the document the slowest applier last accepted, 0 if it accepted none. Nobody is behind
   that document.
   */
  lemma AppliedIsTheSlowest(s: Sys, t: string)
    requires Reachable(s)
    ensures s.core.appliers == [] ==>
      Applied(s.core, t) == if t in s.core.scopes then s.core.scopes[t].desired else 0
    ensures (exists i :: 0 <= i < |s.core.appliers| && t !in s.core.appliers[i].state) ==> Applied(s.core, t) == 0
    ensures s.core.appliers != [] && (forall i :: 0 <= i < |s.core.appliers| ==> t in s.core.appliers[i].state) ==>
      exists i :: 0 <= i < |s.core.appliers| && Slowest(s.core.appliers, t, i)
        && var last := s.core.appliers[i].state[t].accepted;
           Applied(s.core, t) == if last.Some? then last.value.revision else 0
  {
    hide Batches, Calls, NotLost;
    ReachableInv(s);
    assert Lane(s, t);
    if s.core.appliers != [] && forall i :: 0 <= i < |s.core.appliers| ==> t in s.core.appliers[i].state {
      var i := Furthest(s.core.appliers, t);
      FurthestIsFirst(s.core.appliers, t);
      assert InStep(s, t, i);
    }
  }

  lemma {:induction false} FurthestIsFirst(aps: seq<Applier>, t: string)
    requires aps != []
    ensures forall j :: 0 <= j < Furthest(aps, t) ==>
      StandingOf(aps[Furthest(aps, t)], t).acceptedSeq < StandingOf(aps[j], t).acceptedSeq
    decreases |aps|
  {
    if |aps| > 1 {
      var front := aps[..|aps| - 1];
      FurthestIsFirst(front, t);
      var r := Furthest(aps, t);
      assert forall j :: 0 <= j < |front| ==> front[j] == aps[j];
    }
  }

  /** Found registered by the fan-out of a scope, its call not begun. */
  predicate PastCheck(s: Sys, id: nat, t: string) {
    exists k :: 0 <= k < |BatchOf(s, t)| && BatchOf(s, t)[k].id == id && BatchOf(s, t)[k].outcome.Cleared?
  }

  predicate CalledSince(s: Sys, s': Sys, id: nat, t: string) {
    exists j :: |s.calls| <= j < |s'.calls| && s'.calls[j].id == id && s'.calls[j].tenant == t
  }

  lemma StaysAway(s: Sys, a: Action, id: nat, t: string)
    requires !Registered(s.core.appliers, id) && id <= s.core.nextID && !PastCheck(s, id, t) && Enabled(s, a)
    ensures var s' := Next(s, a);
      && !Registered(s'.core.appliers, id) && id <= s'.core.nextID && !PastCheck(s', id, t)
      && s.calls <= s'.calls && !CalledSince(s, s', id, t)
  {
    RosterStaysAway(s, a, id);
    BatchStaysAway(s, a, id, t);
  }

  lemma RosterStaysAway(s: Sys, a: Action, id: nat)
    requires !Registered(s.core.appliers, id) && id <= s.core.nextID && Enabled(s, a)
    ensures !Registered(Next(s, a).core.appliers, id) && id <= Next(s, a).core.nextID
  {
    hide RecordAll, LastRejection, Converged, Batch, Without;
    assert forall i :: 0 <= i < |s.core.appliers| ==> s.core.appliers[i].id != id;
    match a {
      case Unsubscribe(other) =>
        if Registered(s.core.appliers, other) { var _ := WithoutAt(s.core.appliers, other); }
      case Finish(t) => RecordKeepsRoster(s.core.appliers, t, BatchOf(s, t));
      case _ =>
    }
  }

  lemma BatchStaysAway(s: Sys, a: Action, id: nat, t: string)
    requires !Registered(s.core.appliers, id) && !PastCheck(s, id, t) && Enabled(s, a)
    ensures !PastCheck(Next(s, a), id, t) && s.calls <= Next(s, a).calls && !CalledSince(s, Next(s, a), id, t)
  {
    hide Record, Turn, Batch, Commit, Add, Remove, OfferAll, Registered;
    match a {
      case Drain(u) =>
        assert BatchOf(s.(owed := s.owed[u := OwedTo(s, u) - 1]), t) == BatchOf(s, t);
        TurnOnlyWaits(s.(owed := s.owed[u := OwedTo(s, u) - 1]), u, id, t);
      case Finish(u) =>
        assert t != u ==> BatchOf(Recorded(s, u), t) == BatchOf(s, t);
        TurnOnlyWaits(Recorded(s, u), u, id, t);
      case Check(u, k) => assert t != u ==> BatchOf(Next(s, a), t) == BatchOf(s, t);
      case Start(u, k) => assert t != u ==> BatchOf(Next(s, a), t) == BatchOf(s, t);
      case End(u, k, _) => assert t != u ==> BatchOf(Next(s, a), t) == BatchOf(s, t);
      case _ => assert BatchOf(Next(s, a), t) == BatchOf(s, t);
    }
  }

  lemma TurnOnlyWaits(s: Sys, u: string, id: nat, t: string)
    ensures TakeTurn(s, u).calls == s.calls
    ensures t == u || !PastCheck(s, id, t) ==> !PastCheck(TakeTurn(s, u), id, t)
  {
    hide Turn, Batch;
    var s', obs := TakeTurn(s, u), ScopeOf(s.core, u).current;
    assert t != u ==> BatchOf(s', t) == BatchOf(s, t);
    if t == u {
      forall k | 0 <= k < |BatchOf(s', t)| ensures !BatchOf(s', t)[k].outcome.Cleared? {
        OnlyTheBehind(s.core.appliers, u, obs, k);
      }
    }
  }

  lemma {:induction false} NotPastNotCalled(s: Sys, run: seq<Action>, id: nat, t: string)
    requires !Registered(s.core.appliers, id) && id <= s.core.nextID && !PastCheck(s, id, t) && Possible(s, run)
    ensures s.calls <= After(s, run).calls && !CalledSince(s, After(s, run), id, t)
    decreases |run|
  {
    hide Next, Enabled, Registered, PastCheck;
    if |run| > 0 {
      StaysAway(s, run[0], id, t);
      NotPastNotCalled(Next(s, run[0]), run[1..], id, t);
    }
  }

  ghost predicate CanBeCalled(s: Sys, id: nat, t: string) {
    exists run :: Possible(s, run) && CalledSince(s, After(s, run), id, t)
  }

  /**
   What an unsubscribe promises once it has returned, exactly: a scope's fan-out can still start the function if
   and only if it had already found the applier registered; and then it starts it once.
   */
  lemma NeverCalledAfterLeaving(s: Sys, id: nat, t: string)
    requires Reachable(s) && !Registered(s.core.appliers, id) && id <= s.core.nextID
    ensures CanBeCalled(s, id, t) <==> PastCheck(s, id, t)
    ensures forall k :: 0 <= k < |BatchOf(s, t)| && BatchOf(s, t)[k].id == id && BatchOf(s, t)[k].outcome.Cleared? ==>
      Enabled(s, Start(t, k)) && !PastCheck(Next(s, Start(t, k)), id, t)
  {
    hide Next, Enabled, Registered, Inv;
    if PastCheck(s, id, t) {
      var k :| 0 <= k < |BatchOf(s, t)| && BatchOf(s, t)[k].id == id && BatchOf(s, t)[k].outcome.Cleared?;
      StartingCalls(s, t, k);
    } else {
      forall run | Possible(s, run) ensures !CalledSince(s, After(s, run), id, t) { NotPastNotCalled(s, run, id, t); }
    }
    forall k | 0 <= k < |BatchOf(s, t)| && BatchOf(s, t)[k].id == id && BatchOf(s, t)[k].outcome.Cleared?
      ensures Enabled(s, Start(t, k)) && !PastCheck(Next(s, Start(t, k)), id, t)
    {
      ReachableInv(s);
      StartedOnce(s, t, k);
    }
  }

  lemma {:induction false} StartingCalls(s: Sys, t: string, k: nat)
    requires k < |BatchOf(s, t)| && BatchOf(s, t)[k].outcome.Cleared?
    ensures Enabled(s, Start(t, k)) && Possible(s, [Start(t, k)])
    ensures After(s, [Start(t, k)]) == Next(s, Start(t, k))
      && CalledSince(s, Next(s, Start(t, k)), BatchOf(s, t)[k].id, t)
  {
    var s' := Next(s, Start(t, k));
    assert s'.calls[|s.calls|] == Call(BatchOf(s, t)[k].id, t, BatchOf(s, t)[k].obs.at);
    assert [Start(t, k)][1..] == [] && Possible(s', []);
  }

  lemma StartedOnce(s: Sys, t: string, k: nat)
    requires Inv(s) && k < |BatchOf(s, t)| && BatchOf(s, t)[k].outcome.Cleared?
    ensures Enabled(s, Start(t, k)) && !PastCheck(Next(s, Start(t, k)), BatchOf(s, t)[k].id, t)
  {
    hide Levels, Standings, Calls, Linked, NotLost, DeliveryOk;
    assert Lane(s, t);
  }

  lemma {:induction false} Continue(s: Sys, run: seq<Action>, a: Action)
    requires Possible(s, run) && Enabled(After(s, run), a)
    ensures Possible(s, run + [a]) && After(s, run + [a]) == Next(After(s, run), a)
    decreases |run|
  {
    hide Enabled, Next;
    if |run| > 0 {
      assert (run + [a])[1..] == run[1..] + [a];
      Continue(Next(s, run[0]), run[1..], a);
    }
  }

  lemma {:induction false} RecordKeepsRoster(aps: seq<Applier>, t: string, batch: seq<Delivery>)
    ensures forall i :: 0 <= i < |aps| ==> RecordAll(aps, t, batch)[i].id == aps[i].id
    decreases |batch|
  {
    if |batch| > 0 {
      var front := batch[..|batch| - 1];
      RecordKeepsRoster(aps, t, front);
      forall i | 0 <= i < |aps| ensures RecordAll(aps, t, batch)[i].id == aps[i].id {
        RecordOneAt(RecordAll(aps, t, front), t, batch[|batch| - 1], i, t);
      }
    }
  }

  /** Observations of a scope commit in the order they arrived: a publication overtaken while it decoded is dropped. */
  lemma ScopeNeverMovesBack(s: Sys, a: Action, t: string)
    requires Reachable(s) && Enabled(s, a)
    ensures ScopeOf(Next(s, a).core, t).latestSeq >= ScopeOf(s.core, t).latestSeq
    ensures ScopeOf(Next(s, a).core, t).current.at >= ScopeOf(s.core, t).current.at
    ensures ScopeOf(Next(s, a).core, t).latestSeq == ScopeOf(s.core, t).latestSeq ==>
      ScopeOf(Next(s, a).core, t).current == ScopeOf(s.core, t).current
      && ScopeOf(Next(s, a).core, t).desired == ScopeOf(s.core, t).desired
  {
    hide RecordAll, LastRejection, Converged, Batch, Without, OfferAll, Standings, Batches, Calls, NotLost, Linked,
      Registered;
    ReachableInv(s);
    assert Lane(s, t);
  }

  /** What an applier is handed as the previous document is the last one it accepted. */
  lemma PreviousIsLastAccepted(s: Sys, t: string, k: nat, i: nat)
    requires Reachable(s) && k < |BatchOf(s, t)| && i < |s.core.appliers|
      && s.core.appliers[i].id == BatchOf(s, t)[k].id
    ensures BatchOf(s, t)[k].previous == StandingOf(s.core.appliers[i], t).accepted
    ensures BatchOf(s, t)[k].previous.Some? ==>
      BatchOf(s, t)[k].previous.value.at == StandingOf(s.core.appliers[i], t).acceptedSeq
    ensures BatchOf(s, t)[k].previous.None? ==> StandingOf(s.core.appliers[i], t).acceptedSeq == 0
  {
    hide Levels, Calls, Linked, NotLost;
    ReachableInv(s);
    assert Lane(s, t);
    assert DeliveryOk(s, t, BatchOf(s, t)[k]) && InStep(s, t, i) && IdAt(s, i) == BatchOf(s, t)[k].id;
  }

  // ----- The seed and the publication it anticipates -----

  /** A stamp that is nobody's observation: its publication is still decoding, or was dropped by the watermark. */
  predicate Unobserved(s: Sys, at: nat) { at in s.pubs || at in s.spent }

  predicate FreshScope(s: Sys, t: string) {
    && !Unobserved(s, ScopeOf(s.core, t).current.at) && !Unobserved(s, ScopeOf(s.core, t).latestSeq)
    && forall k :: 0 <= k < |BatchOf(s, t)| ==>
         0 < BatchOf(s, t)[k].obs.at <= s.core.stamps && !Unobserved(s, BatchOf(s, t)[k].obs.at)
  }

  predicate Stamped(s: Sys) {
    && s.pubs.Keys !! s.spent
    && (forall at :: at in s.spent ==> 0 < at <= s.core.stamps)
    && forall j :: 0 <= j < |s.calls| ==> 0 < s.calls[j].at <= s.core.stamps && !Unobserved(s, s.calls[j].at)
  }

  /** An armed watermark: the seed is still the newest thing its scope has heard, and nothing was dropped yet. */
  predicate Armament(s: Sys, t: string) {
    var sc := ScopeOf(s.core, t);
    sc.watermark.Armed? ==>
      && s.seeding == Some(Seeding(t, sc.latestSeq)) && sc.current.at == sc.latestSeq
      && sc.desired == sc.watermark.revision
      && s.spent == {}
  }

  ghost predicate SeedOk(s: Sys) {
    && Stamped(s) && (forall t :: FreshScope(s, t)) && (forall t :: Armament(s, t))
    && (s.seeding.Some? <==> s.core.seedTaken)
    && (s.seeding.Some? ==> s.seeding.value.at <= s.core.stamps && !Unobserved(s, s.seeding.value.at))
    && (s.spent != {} ==> s.seeding.Some?)
    && forall a, b :: a in s.spent && b in s.spent ==> a == b
  }

  /** A delivery of the scope's batch, or of its current observation. */
  predicate FromScope(s: Sys, t: string, obs: Observation) {
    || (obs == ScopeOf(s.core, t).current && obs.at > 0)
    || exists k :: 0 <= k < |BatchOf(s, t)| && BatchOf(s, t)[k].obs == obs
  }

  /** A step of the fan-out: it hears nothing new, and offers only what its scope has heard. */
  ghost predicate Offers(s: Sys, s': Sys) {
    && s'.core.stamps == s.core.stamps && s'.core.seedTaken == s.core.seedTaken
    && s'.pubs == s.pubs && s'.spent == s.spent && s'.seeding == s.seeding
    && (forall t :: SameHearing(ScopeOf(s.core, t), ScopeOf(s'.core, t)))
    && (forall t, k :: 0 <= k < |BatchOf(s', t)| ==> FromScope(s, t, BatchOf(s', t)[k].obs))
    && s.calls <= s'.calls
    && forall j :: |s.calls| <= j < |s'.calls| ==> WasOffered(s, s'.calls[j].at)
  }

  ghost predicate WasOffered(s: Sys, at: nat) { exists t :: BatchHas(s, t, at) }

  predicate BatchHas(s: Sys, t: string, at: nat) {
    exists k :: 0 <= k < |BatchOf(s, t)| && BatchOf(s, t)[k].obs.at == at
  }

  predicate SameHearing(sc: Scope, sc': Scope) {
    sc'.current == sc.current && sc'.latestSeq == sc.latestSeq && sc'.desired == sc.desired
      && sc'.watermark == sc.watermark
  }

  lemma OffersKeepsSeed(s: Sys, s': Sys)
    requires SeedOk(s) && Offers(s, s') && forall t :: Levels(s, t)
    ensures SeedOk(s')
  {
    forall t ensures FreshScope(s', t) && Armament(s', t) {
      assert FreshScope(s, t) && Armament(s, t) && SameHearing(ScopeOf(s.core, t), ScopeOf(s'.core, t)) && Levels(s, t);
      forall k | 0 <= k < |BatchOf(s', t)|
        ensures 0 < BatchOf(s', t)[k].obs.at <= s'.core.stamps && !Unobserved(s', BatchOf(s', t)[k].obs.at)
      {
        assert FromScope(s, t, BatchOf(s', t)[k].obs);
      }
    }
    forall j | 0 <= j < |s'.calls| ensures 0 < s'.calls[j].at <= s'.core.stamps && !Unobserved(s', s'.calls[j].at) {
      if j < |s.calls| {
        assert s'.calls[j] == s.calls[j];
      } else {
        assert WasOffered(s, s'.calls[j].at);
        var t :| BatchHas(s, t, s'.calls[j].at);
        assert FreshScope(s, t);
      }
    }
  }

  lemma TurnOffers(s: Sys, t: string, s': Sys)
    requires s' == TakeTurn(s, t)
    ensures Offers(s, s')
  {
    hide Turn, Batch;
    var obs := ScopeOf(s.core, t).current;
    TurnHearsNothing(s.core, t);
    forall u, k | 0 <= k < |BatchOf(s', u)| ensures FromScope(s, u, BatchOf(s', u)[k].obs) {
      if u == t {
        OnlyTheBehind(s.core.appliers, t, obs, k);
      } else {
        assert BatchOf(s', u) == BatchOf(s, u);
      }
    }
  }

  lemma TurnHearsNothing(c: Core, t: string)
    ensures Turn(c, t).stamps == c.stamps && Turn(c, t).seedTaken == c.seedTaken
    ensures forall u :: SameHearing(ScopeOf(c, u), ScopeOf(Turn(c, t), u))
  {
    hide Batch, OfferAll;
  }

  lemma RecordHearsNothing(c: Core, t: string, batch: seq<Delivery>)
    ensures Record(c, t, batch).stamps == c.stamps && Record(c, t, batch).seedTaken == c.seedTaken
    ensures forall u :: SameHearing(ScopeOf(c, u), ScopeOf(Record(c, t, batch), u))
  {
    hide RecordAll, LastRejection, Converged;
  }

  lemma OffersAgain(s: Sys, s1: Sys, s2: Sys)
    requires Offers(s, s1) && Offers(s1, s2) && s1.calls == s.calls && s2.calls == s.calls
    ensures Offers(s, s2)
  {
    forall t ensures SameHearing(ScopeOf(s.core, t), ScopeOf(s2.core, t)) {
      assert SameHearing(ScopeOf(s.core, t), ScopeOf(s1.core, t))
        && SameHearing(ScopeOf(s1.core, t), ScopeOf(s2.core, t));
    }
    forall t, k | 0 <= k < |BatchOf(s2, t)| ensures FromScope(s, t, BatchOf(s2, t)[k].obs) {
      assert FromScope(s1, t, BatchOf(s2, t)[k].obs) && SameHearing(ScopeOf(s.core, t), ScopeOf(s1.core, t));
      if BatchOf(s2, t)[k].obs != ScopeOf(s1.core, t).current || BatchOf(s2, t)[k].obs.at == 0 {
        var j :| 0 <= j < |BatchOf(s1, t)| && BatchOf(s1, t)[j].obs == BatchOf(s2, t)[k].obs;
        assert FromScope(s, t, BatchOf(s1, t)[j].obs);
      }
    }
  }

  lemma RecordedOffers(s: Sys, t: string)
    ensures Offers(s, Recorded(s, t))
  {
    hide Record;
    RecordHearsNothing(s.core, t, BatchOf(s, t));
    var s' := Recorded(s, t);
    forall u, k | 0 <= k < |BatchOf(s', u)| ensures FromScope(s, u, BatchOf(s', u)[k].obs) {
      assert BatchOf(s', u) == BatchOf(s, u);
    }
  }

  lemma RemarkOffers(s: Sys, t: string, k: nat, outcome: Outcome)
    requires k < |BatchOf(s, t)|
    ensures Offers(s, Remark(s, t, k, outcome))
  {
    var s' := Remark(s, t, k, outcome);
    forall u, j | 0 <= j < |BatchOf(s', u)| ensures FromScope(s, u, BatchOf(s', u)[j].obs) {
      assert BatchOf(s', u)[j].obs == BatchOf(s, u)[j].obs;
    }
  }

  lemma StartOffers(s: Sys, t: string, k: nat)
    requires k < |BatchOf(s, t)|
    ensures Offers(s, StartStep(s, t, k))
  {
    var s' := StartStep(s, t, k);
    forall u, j | 0 <= j < |BatchOf(s', u)| ensures FromScope(s, u, BatchOf(s', u)[j].obs) {
      assert BatchOf(s', u)[j].obs == BatchOf(s, u)[j].obs;
    }
    forall j | |s.calls| <= j < |s'.calls| ensures WasOffered(s, s'.calls[j].at) {
      assert s'.calls[j] == Call(BatchOf(s, t)[k].id, t, BatchOf(s, t)[k].obs.at);
      assert BatchHas(s, t, s'.calls[j].at);
    }
  }

  lemma UnsubscribeOffers(s: Sys, id: nat)
    ensures Offers(s, s.(core := Remove(s.core, id)))
  {
    hide Without, Converged;
    var s' := s.(core := Remove(s.core, id));
    forall t, k | 0 <= k < |BatchOf(s', t)| ensures FromScope(s, t, BatchOf(s', t)[k].obs) {
      assert BatchOf(s', t) == BatchOf(s, t);
    }
  }

  lemma StampKeepsSeed(s: Sys, pub: Published)
    requires SeedOk(s) && Inv(s)
    ensures SeedOk(StampStep(s, pub))
  {
    hide Standings, Batches, Calls, Linked, NotLost, Climbing;
    var s' := StampStep(s, pub);
    forall t ensures FreshScope(s', t) && Armament(s', t) {
      assert FreshScope(s, t) && Armament(s, t) && Lane(s, t);
      assert BatchOf(s', t) == BatchOf(s, t);
    }
  }

  /** A publication that decoded is observed, spent by the watermark, or too late: in each case its stamp is settled. */
  lemma DecodedKeepsSeed(s: Sys, at: nat, parsed: Parsed)
    requires SeedOk(s) && Inv(s) && at in s.pubs
    ensures SeedOk(DecodedStep(s, at, parsed))
  {
    hide Standings, Batches, Calls, Linked, NotLost, Climbing;
    var s' := DecodedStep(s, at, parsed);
    var u := s.pubs[at].tenant;
    assert FreshScope(s, u) && Armament(s, u) && Lane(s, u);
    forall t ensures FreshScope(s', t) && Armament(s', t) {
      assert FreshScope(s, t) && Armament(s, t) && Lane(s, t);
      assert BatchOf(s', t) == BatchOf(s, t);
      if t != u { assert ScopeOf(s'.core, t) == ScopeOf(s.core, t); }
    }
  }

  lemma RegisterKeepsSeed(s: Sys, read: SeedRead)
    requires SeedOk(s) && Inv(s)
    ensures SeedOk(RegisterStep(s, read))
  {
    hide Standings, Batches, Calls, Linked, NotLost, Climbing;
    var s' := RegisterStep(s, read);
    forall t ensures FreshScope(s', t) && Armament(s', t) {
      assert FreshScope(s, t) && Armament(s, t) && Lane(s, t);
      assert BatchOf(s', t) == BatchOf(s, t);
    }
  }

  lemma LanesHaveLevels(s: Sys)
    requires Inv(s)
    ensures forall t :: Levels(s, t)
  {
    hide Standings, Batches, Calls, Linked, NotLost, Climbing, Ids;
    forall t ensures Levels(s, t) { assert Lane(s, t); }
  }

  lemma DrainOffers(s: Sys, t: string)
    requires OwedTo(s, t) > 0
    ensures Offers(s, DrainStep(s, t))
  {
    hide TakeTurn, Offers;
    var s1 := s.(owed := s.owed[t := OwedTo(s, t) - 1]);
    OwingOffers(s, s1);
    if !ScopeOf(s.core, t).delivering {
      TurnOffers(s1, t, TakeTurn(s1, t));
      TurnKeepsCallLog(s1, t);
      OffersAgain(s, s1, TakeTurn(s1, t));
    }
  }

  lemma OwingOffers(s: Sys, s1: Sys)
    requires s1 == s.(owed := s1.owed)
    ensures Offers(s, s1)
  {
    forall t, k | 0 <= k < |BatchOf(s1, t)| ensures FromScope(s, t, BatchOf(s1, t)[k].obs) {
      assert BatchOf(s1, t) == BatchOf(s, t);
    }
  }

  lemma FinishOffers(s: Sys, t: string)
    ensures Offers(s, TakeTurn(Recorded(s, t), t))
  {
    hide TakeTurn, Offers, Record;
    RecordedOffers(s, t);
    TurnOffers(Recorded(s, t), t, TakeTurn(Recorded(s, t), t));
    TurnKeepsCallLog(Recorded(s, t), t);
    OffersAgain(s, Recorded(s, t), TakeTurn(Recorded(s, t), t));
  }

  lemma StepKeepsSeed(s: Sys, a: Action)
    requires SeedOk(s) && Inv(s) && Enabled(s, a)
    ensures SeedOk(Next(s, a))
  {
    hide SeedOk, Inv, Offers, Levels, StampStep, DecodedStep, RegisterStep, TakeTurn, Recorded, Remark, StartStep,
      Remove;
    LanesHaveLevels(s);
    match a {
      case Stamp(pub) => StampKeepsSeed(s, pub);
      case Decoded(at, parsed) => DecodedKeepsSeed(s, at, parsed);
      case Register(read) => RegisterKeepsSeed(s, read);
      case Unsubscribe(id) => UnsubscribeOffers(s, id); OffersKeepsSeed(s, Next(s, a));
      case Drain(t) => DrainOffers(s, t); OffersKeepsSeed(s, Next(s, a));
      case Check(t, k) =>
        RemarkOffers(s, t, k, if Registered(s.core.appliers, BatchOf(s, t)[k].id) then Cleared else Skipped);
        OffersKeepsSeed(s, Next(s, a));
      case Start(t, k) => StartOffers(s, t, k); OffersKeepsSeed(s, Next(s, a));
      case End(t, k, why) =>
        RemarkOffers(s, t, k, if why.Some? then Rejected(why.value) else Accepted);
        OffersKeepsSeed(s, Next(s, a));
      case Finish(t) => FinishOffers(s, t); OffersKeepsSeed(s, Next(s, a));
    }
  }

  lemma {:induction false} RunKeepsSeed(s: Sys, run: seq<Action>)
    requires SeedOk(s) && Inv(s) && Possible(s, run)
    ensures SeedOk(After(s, run))
    decreases |run|
  {
    hide SeedOk, Inv, Next, Enabled;
    if |run| > 0 {
      StepKeepsSeed(s, run[0]);
      StepKeepsInv(s, run[0]);
      RunKeepsSeed(Next(s, run[0]), run[1..]);
    }
  }

  lemma ReachableSeed(s: Sys)
    requires Reachable(s)
    ensures SeedOk(s)
  {
    hide Next, Enabled;
    var run :| Possible(Init, run) && After(Init, run) == s;
    RunKeepsSeed(Init, run);
  }

  /** An armed watermark means its scope has heard nothing since the seed, and nothing has been dropped for it yet. */
  lemma ArmedMeansUnheard(s: Sys, t: string)
    requires Reachable(s) && ScopeOf(s.core, t).watermark.Armed?
    ensures s.seeding.Some? && s.seeding.value == Seeding(t, ScopeOf(s.core, t).latestSeq) && s.spent == {}
    ensures ScopeOf(s.core, t).current.at == s.seeding.value.at
    ensures ScopeOf(s.core, t).desired == ScopeOf(s.core, t).watermark.revision
  {
    hide Stamped, FreshScope;
    ReachableSeed(s);
    assert Armament(s, t);
  }

  /** The seed and the publication it anticipates are one observation: at most one is dropped, and never called with. */
  lemma SeedIsDeliveredOnce(s: Sys, a: nat, b: nat, i: nat, j: nat)
    requires Reachable(s)
    ensures a in s.spent && b in s.spent ==> a == b && s.seeding.Some? && a != s.seeding.value.at
    ensures a in s.spent && i < |s.calls| ==> s.calls[i].at != a
    ensures i < j < |s.calls| && s.seeding.Some? && s.calls[i].id == s.calls[j].id
            && s.calls[i].tenant == s.calls[j].tenant
            && (s.calls[i].at == s.seeding.value.at || s.calls[i].at in s.spent) ==>
              s.calls[j].at != s.seeding.value.at && s.calls[j].at !in s.spent
  {
    hide FreshScope, Armament;
    ReachableSeed(s);
    if i < j < |s.calls| && s.calls[i].id == s.calls[j].id && s.calls[i].tenant == s.calls[j].tenant {
      CallsClimb(s, i, j);
    }
  }

  lemma Extend(start: Sys, run: seq<Action>, s: Sys, a: Action, s': Sys) returns (run': seq<Action>)
    requires Possible(start, run) && After(start, run) == s && Enabled(s, a) && Next(s, a) == s'
    ensures Possible(start, run') && After(start, run') == s'
  {
    hide Enabled, Next;
    Continue(start, run, a);
    run' := run + [a];
  }

  // ----- A call after the unsubscribe -----

  /** One applier, registered before anything was heard. */
  const OneApplier := Init.(core := NewCore.(nextID := 1, appliers := [Applier(1, map[])]))

  /** Its first document committed and owed a drain. */
  function Heard(t: string, revision: int, doc: Doc): Sys {
    OneApplier.(core := OneApplier.core.(stamps := 1, scopes := map[t := FirstScope(revision, doc, false)]),
      owed := map[t := 1])
  }

  function FirstScope(revision: int, doc: Doc, delivering: bool): Scope {
    Scope(Observation(1, revision, Some(doc)), 1, revision, true, None, delivering, Disarmed)
  }

  /** Its fan-out on the way, the document offered to `appliers`. */
  function OnTheWay(t: string, revision: int, doc: Doc, appliers: seq<Applier>, outcome: Outcome): Sys {
    Sys(Core(1, 1, false, map[t := FirstScope(revision, doc, true)], appliers), map[], map[t := 0],
        map[t := [Delivery(1, Observation(1, revision, Some(doc)), None, outcome)]], [], None, {})
  }

  lemma FirstRegisters()
    ensures Next(Init, Register(NoEntry)) == OneApplier
  {
    assert Next(Init, Register(NoEntry)).owed == map[];
  }

  lemma FirstCommits(t: string, revision: int, bytes: Option<Bytes>, doc: Doc)
    ensures var s := OneApplier.(core := OneApplier.core.(stamps := 1),
      pubs := map[1 := Published(t, revision, bytes)]);
      Next(OneApplier, Stamp(Published(t, revision, bytes))) == s && Enabled(s, Decoded(1, Good(doc)))
      && Next(s, Decoded(1, Good(doc))) == Heard(t, revision, doc)
  {
    assert OneApplier.core.stamps == 0;
  }

  lemma FirstDrains(t: string, revision: int, doc: Doc)
    ensures var offered := [Applier(1, map[t := Standing(1, 0, 0, None)])];
      Enabled(Heard(t, revision, doc), Drain(t))
      && Next(Heard(t, revision, doc), Drain(t)) == OnTheWay(t, revision, doc, offered, Waiting)
  {
    var c, obs := Heard(t, revision, doc).core, Observation(1, revision, Some(doc));
    var ap := Applier(1, map[]);
    assert c.appliers == [ap] && c.appliers[..0] == [];
    assert OfferAll(c.appliers, t, obs) == [Offer(ap, t, obs)];
    assert Batch(c.appliers, t, obs) == [Delivery(1, obs, None, Waiting)];
  }

  lemma FirstIsChecked(t: string, revision: int, doc: Doc, ap: Applier)
    requires ap.id == 1
    ensures var s := OnTheWay(t, revision, doc, [ap], Waiting);
      Enabled(s, Check(t, 0)) && Next(s, Check(t, 0)) == OnTheWay(t, revision, doc, [ap], Cleared)
  {
    var s := OnTheWay(t, revision, doc, [ap], Waiting);
    assert s.core.appliers[0].id == 1;
    assert BatchOf(s, t)[0 := BatchOf(s, t)[0].(outcome := Cleared)] ==
      BatchOf(OnTheWay(t, revision, doc, [ap], Cleared), t);
  }

  lemma FirstLeaves(t: string, revision: int, doc: Doc, ap: Applier)
    requires ap.id == 1
    ensures Next(OnTheWay(t, revision, doc, [ap], Cleared), Unsubscribe(1)) == OnTheWay(t, revision, doc, [], Cleared)
  {
    var s := OnTheWay(t, revision, doc, [ap], Cleared);
    assert s.core.appliers[0].id == 1;
    assert Remove(s.core, 1).scopes == s.core.scopes;
  }

  /** The run behind the exception: the unsubscribe lands between the look at the flag and the call. */
  lemma CalledAfterLeaving(t: string, revision: int, bytes: Option<Bytes>, doc: Doc) returns (run: seq<Action>, s: Sys)
    ensures Possible(Init, run) && After(Init, run) == s && !Registered(s.core.appliers, 1) && s.core.nextID == 1
    ensures Enabled(s, Start(t, 0)) && CalledSince(s, Next(s, Start(t, 0)), 1, t)
  {
    hide Next, Enabled;
    var ap := Applier(1, map[t := Standing(1, 0, 0, None)]);
    FirstRegisters();
    FirstCommits(t, revision, bytes, doc);
    FirstDrains(t, revision, doc);
    FirstIsChecked(t, revision, doc, ap);
    FirstLeaves(t, revision, doc, ap);
    EarlyStepsEnabled(t, revision, bytes);
    run := Extend(Init, [], Init, Register(NoEntry), OneApplier);
    var stamped := Next(OneApplier, Stamp(Published(t, revision, bytes)));
    run := Extend(Init, run, OneApplier, Stamp(Published(t, revision, bytes)), stamped);
    run := Extend(Init, run, stamped, Decoded(1, Good(doc)), Heard(t, revision, doc));
    run := Extend(Init, run, Heard(t, revision, doc), Drain(t), OnTheWay(t, revision, doc, [ap], Waiting));
    run := Extend(Init, run, OnTheWay(t, revision, doc, [ap], Waiting), Check(t, 0),
      OnTheWay(t, revision, doc, [ap], Cleared));
    run := Extend(Init, run, OnTheWay(t, revision, doc, [ap], Cleared), Unsubscribe(1),
      OnTheWay(t, revision, doc, [], Cleared));
    s := OnTheWay(t, revision, doc, [], Cleared);
    StartingCalls(s, t, 0);
  }

  lemma EarlyStepsEnabled(t: string, revision: int, bytes: Option<Bytes>)
    ensures Enabled(Init, Register(NoEntry)) && Enabled(OneApplier, Stamp(Published(t, revision, bytes)))
    ensures forall s :: Enabled(s, Unsubscribe(1))
  {
  }
}
