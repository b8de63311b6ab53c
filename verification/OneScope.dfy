/**
 The group's coordinator as one tenant's scope sees it, and as one applier does. Every step of every interleaving is
 one of six events for a scope, and an automaton spells what each does to what the scope reports.
 */
module OneScope {
  import opened Types
  import opened Group
  import F = Fanout

  /** What the coordinator keeps about a scope, apart from its fan-out. */
  datatype Status = Status(
    current: Observation,     // the newest document that decoded
    latest: nat,
    desired: int,
    heard: bool,
    err: Option<Reason>,
    mark: Watermark)

  datatype Event =
    | Silence
    | Observes(at: nat, revision: int, parsed: Parsed)
    | Spends                                                  // the publication the seed anticipated
    | Seeds(at: nat, revision: int, bytes: Option<Bytes>, parsed: Parsed)
    | Answers(rejection: Option<Reason>, agreed: bool)        // a fan-out comes back
    | Departs(agreed: bool)                                   // somebody unsubscribes

  function StatusOf(c: Core, t: string): Status {
    if t !in c.scopes then Status(Observation(0, 0, None), 0, 0, false, None, Disarmed)
    else
      var sc := c.scopes[t];
      Status(sc.current, sc.latestSeq, sc.desired, sc.observed, sc.lastErr, sc.watermark)
  }

  /** A document becomes the newest observation, whether or not it decodes; only one that does becomes current. */
  function Heeds(st: Status, at: nat, revision: int, parsed: Parsed): Status {
    match parsed
    case Good(doc) => Status(Observation(at, revision, Some(doc)), at, revision, true, st.err, st.mark)
    case Bad(why) => Status(st.current, at, revision, true, Some(why), st.mark)
  }

  function Undergo(st: Status, e: Event): Status {
    match e
    case Silence => st
    case Observes(at, revision, parsed) => Heeds(st, at, revision, parsed).(mark := Disarmed)
    case Spends => st.(mark := Disarmed)
    case Seeds(at, revision, bytes, parsed) =>
      var seeded := Heeds(st, at, revision, parsed);
      if parsed.Good? then seeded.(mark := Armed(revision, bytes)) else seeded
    case Answers(rejection, agreed) =>
      st.(err := if agreed then None else if rejection.Some? then rejection else st.err)
    case Departs(agreed) => st.(err := if agreed then None else st.err)
  }

  // ----- Which event a step is -----

  /** Somebody is registered, and everybody has accepted that observation or a newer one. */
  predicate Agreed(aps: seq<Applier>, t: string, at: nat) {
    |aps| > 0 && forall i :: 0 <= i < |aps| ==> t in aps[i].state && aps[i].state[t].acceptedSeq >= at
  }

  /** The reason of the last delivery that was rejected. */
  function LatestWhy(batch: seq<Delivery>): Option<Reason> {
    if |batch| == 0 then None
    else if batch[|batch| - 1].outcome.Rejected? then Some(batch[|batch| - 1].outcome.why)
    else LatestWhy(batch[..|batch| - 1])
  }

  function PublicationEvent(st: Status, pub: Published, at: nat, parsed: Parsed): Event {
    if at < st.latest then Silence
    else if st.mark.Armed? && pub.revision <= st.mark.revision && st.mark.bytes.Some? && pub.bytes == st.mark.bytes
    then Spends
    else Observes(at, pub.revision, parsed)
  }

  function EventOf(s: F.Sys, a: F.Action, t: string): Event
    requires F.Enabled(s, a)
  {
    match a
    case Decoded(at, parsed) =>
      if s.pubs[at].tenant == t then PublicationEvent(StatusOf(s.core, t), s.pubs[at], at, parsed) else Silence
    case Register(read) =>
      if read.Entry? && read.pub.tenant == t && !s.core.seedTaken
         && forall u :: u in s.core.scopes ==> !s.core.scopes[u].observed
      then Seeds(s.core.stamps + 1, read.pub.revision, read.pub.bytes, read.parsed) else Silence
    case Unsubscribe(id) =>
      if exists i :: 0 <= i < |s.core.appliers| && s.core.appliers[i].id == id
      then Departs(Agreed(F.Next(s, a).core.appliers, t, StatusOf(s.core, t).latest)) else Silence
    case Finish(u) =>
      if u == t
      then Answers(LatestWhy(F.BatchOf(s, t)), Agreed(F.Next(s, a).core.appliers, t, StatusOf(s.core, t).latest))
      else Silence
    case _ => Silence
  }

  // ----- The refinement -----

  lemma Commits(c: Core, pub: Published, at: nat, parsed: Parsed, t: string)
    ensures StatusOf(Commit(c, pub, at, parsed), t)
      == if pub.tenant == t then Undergo(StatusOf(c, t), PublicationEvent(StatusOf(c, t), pub, at, parsed))
         else StatusOf(c, t)
    ensures Drains(c, pub, at, parsed)
      <==> PublicationEvent(StatusOf(c, pub.tenant), pub, at, parsed) == Observes(at, pub.revision, parsed)
           && parsed.Good?
  {
  }

  lemma TakesInSeed(c: Core, read: SeedRead, t: string)
    ensures StatusOf(Add(c, read), t)
      == if read.Entry? && read.pub.tenant == t && !c.seedTaken && (forall u :: u in c.scopes ==> !c.scopes[u].observed)
         then Undergo(StatusOf(c, t), Seeds(c.stamps + 1, read.pub.revision, read.pub.bytes, read.parsed))
         else StatusOf(c, t)
  {
  }

  lemma Removes(c: Core, id: nat, t: string)
    ensures StatusOf(Remove(c, id), t)
      == if exists i :: 0 <= i < |c.appliers| && c.appliers[i].id == id
         then Undergo(StatusOf(c, t), Departs(Agreed(Remove(c, id).appliers, t, StatusOf(c, t).latest)))
         else StatusOf(c, t)
  {
    hide Without;
  }

  lemma {:induction false} LastRejectionIsLatest(prior: Option<Reason>, batch: seq<Delivery>)
    ensures LastRejection(prior, batch) == if LatestWhy(batch).Some? then LatestWhy(batch) else prior
    decreases |batch|
  {
    if |batch| > 0 { LastRejectionIsLatest(prior, batch[..|batch| - 1]); }
  }

  lemma Turns(c: Core, t: string, u: string)
    ensures StatusOf(Turn(c, t), u) == StatusOf(c, u)
  {
    hide Batch;
  }

  /** Offering an observation takes nobody's acceptance away, and gives none. */
  lemma {:induction false} OffersAgreeAlike(aps: seq<Applier>, t: string, obs: Observation, at: nat)
    requires at > 0
    ensures Agreed(OfferAll(aps, t, obs), t, at) <==> Agreed(aps, t, at)
  {
    var offered := OfferAll(aps, t, obs);
    forall i | 0 <= i < |aps|
      ensures t in offered[i].state && offered[i].state[t].acceptedSeq >= at
        <==> t in aps[i].state && aps[i].state[t].acceptedSeq >= at
    {
    }
  }

  lemma {:induction false} Records(c: Core, t: string, batch: seq<Delivery>, u: string)
    ensures StatusOf(Record(c, t, batch), u)
      == if u == t then Undergo(StatusOf(c, t), Answers(LatestWhy(batch), Agreed(Record(c, t, batch).appliers, t,
                                                                                 StatusOf(c, t).latest)))
         else StatusOf(c, u)
  {
    hide RecordAll, LastRejection;
    LastRejectionIsLatest(if t in c.scopes then c.scopes[t].lastErr else None, batch);
  }

  lemma Finishes(s: F.Sys, u: string, t: string)
    requires F.Enabled(s, F.Finish(u)) && (u == t ==> StatusOf(s.core, t).latest > 0)
    ensures StatusOf(F.Next(s, F.Finish(u)).core, t) == Undergo(StatusOf(s.core, t), EventOf(s, F.Finish(u), t))
  {
    hide Record, Turn, StatusOf, LatestWhy, Agreed;
    var c := Record(s.core, u, F.BatchOf(s, u));
    assert F.Recorded(s, u).core == c;
    Turns(c, u, t);
    Records(s.core, u, F.BatchOf(s, u), t);
    if u == t {
      TurnOffers(c, t);
      OffersAgreeAlike(c.appliers, t, ScopeOf(c, t).current, StatusOf(s.core, t).latest);
    }
  }

  lemma {:induction false} TurnOffers(c: Core, t: string)
    ensures Turn(c, t).appliers == OfferAll(c.appliers, t, ScopeOf(c, t).current)
  {
    hide Batch;
  }

  /** A fan-out is only ever under way for a scope that has been heard from. */
  lemma FanOutMeansHeard(s: F.Sys, t: string)
    requires F.Reachable(s) && t in s.batches
    ensures StatusOf(s.core, t).latest > 0
  {
    hide F.Standings, F.Calls, F.NotLost, F.Reachable;
    F.ReachableInv(s);
    assert F.Lane(s, t);
    assert F.DeliveryOk(s, t, F.BatchOf(s, t)[0]);
  }

  /** Every step of every interleaving is one event for each scope, and drains are owed exactly where due. */
  lemma EveryStepIsOneEvent(s: F.Sys, a: F.Action, t: string)
    requires F.Reachable(s) && F.Enabled(s, a)
    ensures StatusOf(F.Next(s, a).core, t) == Undergo(StatusOf(s.core, t), EventOf(s, a, t))
  {
    hide F.Reachable, Commit, Add, Remove, Turn, StatusOf, Undergo, F.TakeTurn, PublicationEvent;
    match a
    case Decoded(at, parsed) => Commits(s.core, s.pubs[at], at, parsed, t); SilenceChangesNothing(StatusOf(s.core, t));
    case Register(read) => TakesInSeed(s.core, read, t); SilenceChangesNothing(StatusOf(s.core, t));
    case Unsubscribe(id) => Removes(s.core, id, t); SilenceChangesNothing(StatusOf(s.core, t));
    case Finish(u) =>
      if u == t { FanOutMeansHeard(s, t); }
      Finishes(s, u, t);
    case Drain(u) => DrainIsSilent(s, u, t);
    case _ => OthersAreSilent(s, a, t);
  }

  lemma SilenceChangesNothing(st: Status)
    ensures Undergo(st, Silence) == st
  {
  }

  lemma DrainIsSilent(s: F.Sys, u: string, t: string)
    requires F.Enabled(s, F.Drain(u))
    ensures StatusOf(F.Next(s, F.Drain(u)).core, t) == Undergo(StatusOf(s.core, t), Silence)
  {
    hide Turn, StatusOf;
    Turns(s.core, u, t);
  }

  lemma OthersAreSilent(s: F.Sys, a: F.Action, t: string)
    requires F.Enabled(s, a) && (a.Stamp? || a.Check? || a.Start? || a.End?)
    ensures StatusOf(F.Next(s, a).core, t) == Undergo(StatusOf(s.core, t), Silence)
  {
  }

  /** Who owes a fan-out: a publisher whose document became current, and a registrant for every scope heard from. */
  lemma DrainsAreOwed(s: F.Sys, a: F.Action, t: string)
    requires F.Reachable(s) && F.Enabled(s, a)
    ensures F.OwedTo(F.Next(s, a), t) == F.OwedTo(s, t)
      + (if a.Decoded? && EventOf(s, a, t).Observes? && a.parsed.Good? then 1
         else if a.Register? && StatusOf(F.Next(s, a).core, t).heard then 1
         else if a == F.Drain(t) then -1 else 0)
  {
    hide F.Reachable, Commit, Remove, Drains, Record, Turn, LatestWhy, Agreed;
    match a
    case Decoded(at, parsed) => Commits(s.core, s.pubs[at], at, parsed, t);
    case _ =>
  }

  // ----- Every run -----

  ghost function Events(s: F.Sys, run: seq<F.Action>, t: string): seq<Event>
    requires F.Possible(s, run)
    decreases |run|
  {
    if |run| == 0 then [] else [EventOf(s, run[0], t)] + Events(F.Next(s, run[0]), run[1..], t)
  }

  function UndergoAll(st: Status, events: seq<Event>): Status
    decreases |events|
  {
    if |events| == 0 then st else Undergo(UndergoAll(st, events[..|events| - 1]), events[|events| - 1])
  }

  lemma {:induction false} UndergoFirst(st: Status, events: seq<Event>)
    requires |events| > 0
    ensures UndergoAll(st, events) == UndergoAll(Undergo(st, events[0]), events[1..])
    decreases |events|
  {
    hide Undergo;
    if |events| == 1 {
      assert events[..0] == [] && events[1..] == [];
    } else {
      var front := events[..|events| - 1];
      UndergoFirst(st, front);
      assert front[1..] == events[1..][..|events| - 2];
    }
  }

  lemma {:induction false} RunsAreTheirEvents(s: F.Sys, run: seq<F.Action>, t: string)
    requires F.Reachable(s) && F.Possible(s, run)
    ensures StatusOf(F.After(s, run).core, t) == UndergoAll(StatusOf(s.core, t), Events(s, run, t))
    decreases |run|
  {
    hide F.Reachable, F.Next, F.Enabled, StatusOf, Undergo, EventOf;
    if |run| > 0 {
      var s1, e := F.Next(s, run[0]), EventOf(s, run[0], t);
      EveryStepIsOneEvent(s, run[0], t);
      StepsOn(s, run[0]);
      RunsAreTheirEvents(s1, run[1..], t);
      UndergoFirst(StatusOf(s.core, t), [e] + Events(s1, run[1..], t));
      assert ([e] + Events(s1, run[1..], t))[1..] == Events(s1, run[1..], t);
    }
  }

  lemma StepsOn(s: F.Sys, a: F.Action)
    requires F.Reachable(s) && F.Enabled(s, a)
    ensures F.Reachable(F.Next(s, a))
  {
    hide F.Next, F.Enabled;
    var run :| F.Possible(F.Init, run) && F.After(F.Init, run) == s;
    F.Continue(F.Init, run, a);
  }

  // ----- What the scope reports, read off its history -----

  predicate IsNewest(e: Event) { e.Observes? || e.Seeds? }

  /** The revision of the newest observation. */
  function NewestRevision(events: seq<Event>): int {
    if |events| == 0 then 0
    else if IsNewest(events[|events| - 1]) then events[|events| - 1].revision
    else NewestRevision(events[..|events| - 1])
  }

  /** The newest observation whose document decoded. */
  function NewestGood(events: seq<Event>): Option<Observation> {
    if |events| == 0 then None
    else
      var e := events[|events| - 1];
      if IsNewest(e) && e.parsed.Good? then Some(Observation(e.at, e.revision, Some(e.parsed.doc)))
      else NewestGood(events[..|events| - 1])
  }

  /** The last word on what is wrong: a document that did not decode, a rejection, or everybody's agreement. */
  function LastTrouble(events: seq<Event>): Option<Reason> {
    if |events| == 0 then None
    else
      var e, earlier := events[|events| - 1], LastTrouble(events[..|events| - 1]);
      if IsNewest(e) then if e.parsed.Bad? then Some(e.parsed.why) else earlier
      else if (e.Answers? || e.Departs?) && e.agreed then None
      else if e.Answers? && e.rejection.Some? then e.rejection
      else earlier
  }

  /** A seed that decoded, and no publication heard or dropped since. */
  function UnspentSeed(events: seq<Event>): Option<(int, Option<Bytes>)> {
    if |events| == 0 then None
    else
      var e := events[|events| - 1];
      if e.Seeds? && e.parsed.Good? then Some((e.revision, e.bytes))
      else if e.Observes? || e.Spends? then None
      else UnspentSeed(events[..|events| - 1])
  }

  lemma {:induction false} HistoryTells(events: seq<Event>)
    ensures var st := UndergoAll(Status(Observation(0, 0, None), 0, 0, false, None, Disarmed), events);
      && st.desired == NewestRevision(events)
      && st.current == (if NewestGood(events).Some? then NewestGood(events).value else Observation(0, 0, None))
      && st.err == LastTrouble(events)
      && st.mark == (if UnspentSeed(events).Some? then Armed(UnspentSeed(events).value.0, UnspentSeed(events).value.1)
                     else Disarmed)
    decreases |events|
  {
    if |events| > 0 { HistoryTells(events[..|events| - 1]); }
  }

  /**
   Status tells a scope's history, in every run. Desired is the revision of the newest observation, decoded or not;
   what is in force is the newest that decoded; the error is the last word on what is wrong; and the watermark is up
   exactly from a seed that decoded to the next publication.
   */
  lemma {:induction false} StatusTellsTheHistory(run: seq<F.Action>, t: string)
    requires F.Possible(F.Init, run)
    ensures var st, events := StatusOf(F.After(F.Init, run).core, t), Events(F.Init, run, t);
      && st.desired == NewestRevision(events)
      && st.current == (if NewestGood(events).Some? then NewestGood(events).value else Observation(0, 0, None))
      && st.err == LastTrouble(events)
      && st.mark == (if UnspentSeed(events).Some? then Armed(UnspentSeed(events).value.0, UnspentSeed(events).value.1)
                     else Disarmed)
  {
    hide F.Next, F.Enabled;
    assert F.Possible(F.Init, []) && F.After(F.Init, []) == F.Init;
    RunsAreTheirEvents(F.Init, run, t);
    HistoryTells(Events(F.Init, run, t));
  }

  /**
   What the seed's watermark drops, exactly. A publication that was not overtaken leaves no trace but the spent mark
   if and only if it is the first one since a seed that decoded, is not newer than the seed, and is the seed's document
   byte for byte, which it never is for one that does not marshal.
   */
  lemma {:induction false} SeedSpendsExactly(run: seq<F.Action>, at: nat, parsed: Parsed)
    requires F.Possible(F.Init, run) && F.Enabled(F.After(F.Init, run), F.Decoded(at, parsed))
    requires var s := F.After(F.Init, run); at >= StatusOf(s.core, s.pubs[at].tenant).latest
    ensures var s := F.After(F.Init, run);
      var pub, was := s.pubs[at], StatusOf(s.core, s.pubs[at].tenant);
      StatusOf(F.Next(s, F.Decoded(at, parsed)).core, pub.tenant) == was.(mark := Disarmed)
      <==> UnspentSeed(Events(F.Init, run, pub.tenant)).Some?
           && var seed := UnspentSeed(Events(F.Init, run, pub.tenant)).value;
              pub.revision <= seed.0 && seed.1.Some? && pub.bytes == seed.1
  {
    hide F.Next, Events;
    var s := F.After(F.Init, run);
    var pub := s.pubs[at];
    assert F.Reachable(s);
    StatusTellsTheHistory(run, pub.tenant);
    EveryStepIsOneEvent(s, F.Decoded(at, parsed), pub.tenant);
    PendingIsUnheard(s, at);
  }

  lemma PendingIsUnheard(s: F.Sys, at: nat)
    requires F.Reachable(s) && at in s.pubs
    ensures at != StatusOf(s.core, s.pubs[at].tenant).latest
  {
    hide F.Standings, F.Batches, F.Calls, F.NotLost, F.Linked;
    F.ReachableInv(s);
    assert F.Lane(s, s.pubs[at].tenant);
  }

  // ----- One applier -----

  /** The appliers stand in the order they registered in, each under an id of its own. */
  predicate Ascending(aps: seq<Applier>) { forall i, j :: 0 <= i < j < |aps| ==> aps[i].id < aps[j].id }

  predicate Has(aps: seq<Applier>, ap: Applier) { exists i :: 0 <= i < |aps| && aps[i] == ap }

  lemma {:induction false} WithoutLeavesTheRest(aps: seq<Applier>, id: nat)
    requires Ascending(aps)
    ensures Ascending(Without(aps, id)) && |Without(aps, id)| <= |aps|
    ensures forall ap :: Has(Without(aps, id), ap) <==> Has(aps, ap) && ap.id != id
    decreases |aps|
  {
    if |aps| > 0 {
      var rest := aps[1..];
      forall ap ensures Has(aps, ap) <==> ap == aps[0] || Has(rest, ap) { HasFirst(aps, ap); }
      if aps[0].id == id {
        forall ap | Has(rest, ap) ensures ap.id != id {
          var i :| 0 <= i < |rest| && rest[i] == ap;
          assert aps[i + 1] == ap;
        }
      } else {
        WithoutLeavesTheRest(rest, id);
        var left := Without(rest, id);
        forall i | 0 <= i < |left| ensures aps[0].id < left[i].id {
          assert Has(left, left[i]) && Has(rest, left[i]);
          var j :| 0 <= j < |rest| && rest[j] == left[i];
          assert aps[j + 1] == left[i];
        }
        forall ap ensures Has([aps[0]] + left, ap) <==> ap == aps[0] || Has(left, ap) { HasFirst([aps[0]] + left, ap); }
      }
    }
  }

  lemma HasFirst(aps: seq<Applier>, ap: Applier)
    requires |aps| > 0
    ensures Has(aps, ap) <==> ap == aps[0] || Has(aps[1..], ap)
  {
    if Has(aps, ap) && ap != aps[0] {
      var i :| 0 <= i < |aps| && aps[i] == ap;
      assert aps[1..][i - 1] == ap;
    }
    if Has(aps[1..], ap) {
      var i :| 0 <= i < |aps[1..]| && aps[1..][i] == ap;
      assert aps[i + 1] == ap;
    }
  }

  /** Nobody moves, joins or leaves: the same ids in the same places. */
  predicate SameRoster(aps: seq<Applier>, aps': seq<Applier>) {
    |aps'| == |aps| && forall i :: 0 <= i < |aps| ==> aps'[i].id == aps[i].id
  }

  lemma OthersKeepRoster(s: F.Sys, a: F.Action)
    requires F.Enabled(s, a) && !a.Register? && !a.Unsubscribe?
    ensures SameRoster(s.core.appliers, F.Next(s, a).core.appliers)
  {
    hide Commit, Record, Turn;
    match a
    case Finish(t) =>
      var c := Record(s.core, t, F.BatchOf(s, t));
      RecordKeepsPlaces(s.core, t, F.BatchOf(s, t));
      TurnKeepsPlaces(c, t);
    case Drain(t) => TurnKeepsPlaces(s.core, t);
    case _ => CommitKeepsPlaces(s, a);
  }

  lemma CommitKeepsPlaces(s: F.Sys, a: F.Action)
    requires F.Enabled(s, a) && (a.Stamp? || a.Decoded? || a.Check? || a.Start? || a.End?)
    ensures F.Next(s, a).core.appliers == s.core.appliers
  {
  }

  lemma TurnKeepsPlaces(c: Core, t: string)
    ensures SameRoster(c.appliers, Turn(c, t).appliers)
  {
    hide Batch;
  }

  lemma RecordKeepsPlaces(c: Core, t: string, batch: seq<Delivery>)
    ensures SameRoster(c.appliers, Record(c, t, batch).appliers)
  {
    hide RecordAll, LastRejection;
    F.RecordKeepsRoster(c.appliers, t, batch);
  }

  /**
   Who is registered. In every reachable state the appliers stand in the order they registered in; registering adds
   one at the end, under an id never used before, that has been offered nothing; unsubscribing takes out exactly its
   own; and nothing else moves anybody.
   */
  lemma RosterIsExact(s: F.Sys, a: F.Action)
    requires F.Reachable(s) && F.Enabled(s, a)
    ensures Ascending(s.core.appliers) && forall i :: 0 <= i < |s.core.appliers| ==>
      0 < s.core.appliers[i].id <= s.core.nextID
    ensures a.Register? ==>
      F.Next(s, a).core.appliers == s.core.appliers + [Applier(s.core.nextID + 1, map[])]
    ensures a.Unsubscribe? ==>
      forall ap :: Has(F.Next(s, a).core.appliers, ap) <==> Has(s.core.appliers, ap) && ap.id != a.id
    ensures !a.Register? && !a.Unsubscribe? ==> SameRoster(s.core.appliers, F.Next(s, a).core.appliers)
  {
    hide F.Reachable, Ascending, Has, SameRoster, Commit, Turn, Record;
    ReachableAscends(s);
    if a.Unsubscribe? { RemovesOnlyIts(s, a.id); }
    else if !a.Register? { OthersKeepRoster(s, a); }
  }

  lemma RemovesOnlyIts(s: F.Sys, id: nat)
    requires Ascending(s.core.appliers)
    ensures forall ap :: Has(Remove(s.core, id).appliers, ap) <==> Has(s.core.appliers, ap) && ap.id != id
    ensures Ascending(Remove(s.core, id).appliers)
  {
    hide ClearErr;
    WithoutLeavesTheRest(s.core.appliers, id);
    if !Registered(s.core.appliers, id) {
      forall ap | Has(s.core.appliers, ap) ensures ap.id != id {
        var i :| 0 <= i < |s.core.appliers| && s.core.appliers[i] == ap;
      }
    }
  }

  predicate Roll(s: F.Sys) {
    Ascending(s.core.appliers) && forall i :: 0 <= i < |s.core.appliers| ==> 0 < s.core.appliers[i].id <= s.core.nextID
  }

  lemma RollKept(s: F.Sys, a: F.Action)
    requires Roll(s) && F.Enabled(s, a)
    ensures Roll(F.Next(s, a))
  {
    hide Commit, Record, Turn, ClearErr, Without;
    IdsAreDrawn(s, a);
    if a.Unsubscribe? {
      RemovesOnlyIts(s, a.id);
      var left := F.Next(s, a).core.appliers;
      forall i | 0 <= i < |left| ensures 0 < left[i].id <= s.core.nextID {
        assert Has(left, left[i]) && Has(s.core.appliers, left[i]);
      }
    } else if !a.Register? {
      OthersKeepRoster(s, a);
    }
  }

  lemma IdsAreDrawn(s: F.Sys, a: F.Action)
    requires F.Enabled(s, a)
    ensures F.Next(s, a).core.nextID == if a.Register? then s.core.nextID + 1 else s.core.nextID
  {
    hide RecordAll, LastRejection, Batch, ClearErr, Without;
  }

  lemma {:induction false} RunKeepsRoll(s: F.Sys, run: seq<F.Action>)
    requires Roll(s) && F.Possible(s, run)
    ensures Roll(F.After(s, run))
    decreases |run|
  {
    hide Roll, F.Next, F.Enabled;
    if |run| > 0 {
      RollKept(s, run[0]);
      RunKeepsRoll(F.Next(s, run[0]), run[1..]);
    }
  }

  lemma ReachableAscends(s: F.Sys)
    requires F.Reachable(s)
    ensures Roll(s)
  {
    hide F.Next, F.Enabled;
    var run :| F.Possible(F.Init, run) && F.After(F.Init, run) == s;
    RunKeepsRoll(F.Init, run);
  }

  // ----- One applier's place in a scope -----

  /** What an applier last accepted: the observation it stood for, its revision, the document. */
  datatype Acceptance = Acceptance(at: nat, revision: int, accepted: Option<Observation>)

  function AcceptedBy(ap: Applier, t: string): Acceptance {
    if t in ap.state then Acceptance(ap.state[t].acceptedSeq, ap.state[t].appliedRev, ap.state[t].accepted)
    else Acceptance(0, 0, None)
  }

  function OfferedTo(ap: Applier, t: string): nat { if t in ap.state then ap.state[t].deliveredSeq else 0 }

  predicate Accepts(batch: seq<Delivery>, id: nat, d: Delivery) { d in batch && d.id == id && d.outcome == Accepted }

  /** The step looks for appliers to call: a drain that finds the scope free, or a fan-out that has come back. */
  predicate TakesTurn(s: F.Sys, a: F.Action, t: string) {
    a == F.Finish(t) || (a == F.Drain(t) && !(t in s.core.scopes && s.core.scopes[t].delivering))
  }

  lemma TurnOfOne(c: Core, u: string, i: nat, t: string)
    requires i < |c.appliers|
    ensures |Turn(c, u).appliers| == |c.appliers|
    ensures var ap, ap', at := c.appliers[i], Turn(c, u).appliers[i], StatusOf(c, u).current.at;
      && ap'.id == ap.id && AcceptedBy(ap', t) == AcceptedBy(ap, t)
      && OfferedTo(ap', t) == if t == u && OfferedTo(ap, t) < at then at else OfferedTo(ap, t)
  {
    hide Batch;
    assert Turn(c, u).appliers[i] == Offer(c.appliers[i], u, ScopeOf(c, u).current);
  }

  lemma RecordOfOne(s: F.Sys, u: string, i: nat, t: string)
    requires i < |s.core.appliers| && F.Batches(s, u)
    ensures |F.Recorded(s, u).core.appliers| == |s.core.appliers|
    ensures var ap, ap', batch := s.core.appliers[i], F.Recorded(s, u).core.appliers[i], F.BatchOf(s, u);
      && ap'.id == ap.id && OfferedTo(ap', t) == OfferedTo(ap, t)
      && (forall d :: Accepts(batch, ap.id, d) && t == u ==>
            AcceptedBy(ap', t) == Acceptance(OfferedTo(ap, t), d.obs.revision, Some(d.obs)))
      && ((t != u || forall d :: d in batch ==> !Accepts(batch, ap.id, d)) ==> AcceptedBy(ap', t) == AcceptedBy(ap, t))
  {
    hide RecordAll, LastRejection, Converged, F.DeliveryOk;
    var batch, id := F.BatchOf(s, u), s.core.appliers[i].id;
    if t != u {
      F.RecordAllKeeps(s.core.appliers, u, batch, i, t);
    } else if d :| d in batch && Accepts(batch, id, d) {
      var k :| 0 <= k < |batch| && batch[k] == d;
      F.RecordAllAccepts(s.core.appliers, u, batch, i, k);
      forall e | Accepts(batch, id, e) ensures e == d {
        var j :| 0 <= j < |batch| && batch[j] == e;
      }
    } else {
      forall d | d in batch ensures !F.AcceptedIn(batch, id, d) { assert !Accepts(batch, id, d); }
      F.RecordAllKeeps(s.core.appliers, u, batch, i, t);
    }
  }

  /**
   What a step does to one applier's place in a scope. It moves on to what its fan-out handed it exactly when that
   comes back with its acceptance: not for a rejection, not for a skipped call, not for anybody else's. And it is
   offered the current observation exactly when a turn finds it behind.
   */
  lemma StandingIsExact(s: F.Sys, a: F.Action, i: nat, t: string)
    requires F.Reachable(s) && F.Enabled(s, a) && !a.Register? && !a.Unsubscribe? && i < |s.core.appliers|
    ensures i < |F.Next(s, a).core.appliers|
    ensures var ap, ap', batch, at := s.core.appliers[i], F.Next(s, a).core.appliers[i], F.BatchOf(s, t),
                                      StatusOf(s.core, t).current.at;
      && ap'.id == ap.id
      && (a == F.Finish(t) ==> forall d :: Accepts(batch, ap.id, d) ==>
            AcceptedBy(ap', t) == Acceptance(OfferedTo(ap, t), d.obs.revision, Some(d.obs)))
      && ((a == F.Finish(t) ==> forall d :: d in batch ==> !Accepts(batch, ap.id, d)) ==>
            AcceptedBy(ap', t) == AcceptedBy(ap, t))
      && OfferedTo(ap', t) == if TakesTurn(s, a, t) && OfferedTo(ap, t) < at then at else OfferedTo(ap, t)
  {
    hide F.Reachable, Turn, F.Recorded, AcceptedBy, OfferedTo, Accepts, F.Levels, F.Standings, F.Calls;
    match a
    case Finish(u) =>
      F.ReachableInv(s);
      assert F.Lane(s, u);
      RecordOfOne(s, u, i, t);
      RecordKeepsCurrent(s, u);
      TurnOfOne(F.Recorded(s, u).core, u, i, t);
    case Drain(u) => TurnOfOne(s.core, u, i, t);
    case _ => CommitKeepsPlaces(s, a);
  }

  lemma RecordKeepsCurrent(s: F.Sys, u: string)
    ensures StatusOf(F.Recorded(s, u).core, u).current == StatusOf(s.core, u).current
  {
    hide Record;
    Records(s.core, u, F.BatchOf(s, u), u);
  }

  predicate Calls(aps: seq<Applier>, t: string, at: nat, id: nat) {
    exists i :: 0 <= i < |aps| && aps[i].id == id && OfferedTo(aps[i], t) < at
  }

  /** The delivery shows its applier the document it last accepted. */
  predicate ShowsLast(aps: seq<Applier>, t: string, d: Delivery) {
    exists i :: 0 <= i < |aps| && aps[i].id == d.id && d.previous == AcceptedBy(aps[i], t).accepted
  }

  predicate CallsInOrder(batch: seq<Delivery>) { forall k, j :: 0 <= k < j < |batch| ==> batch[k].id < batch[j].id }

  lemma {:induction false} BatchInOrder(aps: seq<Applier>, t: string, obs: Observation)
    requires Ascending(aps)
    ensures CallsInOrder(Batch(aps, t, obs))
    decreases |aps|
  {
    if |aps| > 0 {
      var front := aps[..|aps| - 1];
      BatchInOrder(front, t, obs);
      forall k | 0 <= k < |Batch(front, t, obs)| ensures Batch(front, t, obs)[k].id < aps[|aps| - 1].id {
        F.OnlyTheBehind(front, t, obs, k);
      }
    }
  }

  lemma {:induction false} BatchIsExact(aps: seq<Applier>, t: string, obs: Observation, id: nat)
    ensures (exists d :: d in Batch(aps, t, obs) && d.id == id) <==> Calls(aps, t, obs.at, id)
    ensures forall d :: d in Batch(aps, t, obs) ==> d.obs == obs && d.outcome == Waiting && ShowsLast(aps, t, d)
  {
    var batch := Batch(aps, t, obs);
    forall d | d in batch
      ensures d.obs == obs && d.outcome == Waiting && Calls(aps, t, obs.at, d.id) && ShowsLast(aps, t, d)
    {
      var k :| 0 <= k < |batch| && batch[k] == d;
      F.OnlyTheBehind(aps, t, obs, k);
    }
    if Calls(aps, t, obs.at, id) {
      var i :| 0 <= i < |aps| && aps[i].id == id && OfferedTo(aps[i], t) < obs.at;
      var k := F.AllTheBehind(aps, t, obs, i);
      assert batch[k] in batch;
    }
  }

  /**
   Whom a turn calls: exactly the appliers that have not been offered the current observation, in the order they
   registered in, each with the document it last accepted.
   */
  lemma FanOutIsExact(s: F.Sys, a: F.Action, t: string, id: nat)
    requires F.Reachable(s) && F.Enabled(s, a) && TakesTurn(s, a, t)
    ensures var batch, now := F.BatchOf(F.Next(s, a), t), StatusOf(s.core, t).current;
      && ((exists d :: d in batch && d.id == id) <==> Calls(s.core.appliers, t, now.at, id))
      && CallsInOrder(batch)
      && forall d :: d in batch ==> d.obs == now && d.outcome == Waiting && ShowsLast(F.Next(s, a).core.appliers, t, d)
  {
    hide F.Reachable, Batch, AcceptedBy, OfferedTo, Accepts, F.Levels, F.Standings, F.Calls;
    var c := if a.Finish? then F.Recorded(s, t).core else s.core;
    var now := StatusOf(s.core, t).current;
    RosterIsExact(s, a);
    if a.Finish? {
      F.ReachableInv(s);
      assert F.Lane(s, t);
      RecordKeepsCurrent(s, t);
      RecordKeepsPlaces(s.core, t, F.BatchOf(s, t));
      forall i | 0 <= i < |c.appliers| ensures OfferedTo(c.appliers[i], t) == OfferedTo(s.core.appliers[i], t) {
        RecordOfOne(s, t, i, t);
      }
    }
    assert Ascending(c.appliers);
    BatchIsExact(c.appliers, t, now, id);
    BatchInOrder(c.appliers, t, now);
    forall i | 0 <= i < |c.appliers|
      ensures Turn(c, t).appliers[i].id == c.appliers[i].id
      ensures AcceptedBy(Turn(c, t).appliers[i], t) == AcceptedBy(c.appliers[i], t)
    {
      TurnOfOne(c, t, i, t);
    }
    TurnCalls(s, a, t, c);
  }

  lemma {:induction false} TurnCalls(s: F.Sys, a: F.Action, t: string, c: Core)
    requires F.Enabled(s, a) && TakesTurn(s, a, t)
    requires c == if a.Finish? then F.Recorded(s, t).core else s.core
    ensures F.BatchOf(F.Next(s, a), t) == Batch(c.appliers, t, StatusOf(c, t).current)
    ensures F.Next(s, a).core == Turn(c, t)
  {
    hide Batch, Turn, F.Recorded;
  }
}
