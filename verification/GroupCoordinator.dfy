/** The coordinator as the code keeps it: fields updated in place, each method one hold of its mutex. */
module GroupCoordinator {
  import opened Types
  import opened Group
  import Fanout
  import OneScope

  /** A whole drain with nothing else going on, the appliers answering as `judge` says. */
  function Judged(batch: seq<Delivery>, judge: Delivery -> Option<Reason>): seq<Delivery> {
    if |batch| == 0 then []
    else
      var d := batch[|batch| - 1];
      Judged(batch[..|batch| - 1], judge)
      + [d.(outcome := if judge(d).Some? then Rejected(judge(d).value) else Accepted)]
  }

  function Drained(c: Core, t: string, judge: Delivery -> Option<Reason>): Core {
    var obs := ScopeOf(c, t).current;
    var batch := Batch(c.appliers, t, obs);
    if ScopeOf(c, t).delivering then c
    else if batch == [] then Turn(c, t)
    else Turn(Record(Turn(c, t), t, Judged(batch, judge)), t)
  }

  /** Recording a batch moves nobody's offer, so nobody is behind an observation everybody was offered. */
  lemma {:induction false} RecordedStillOffered(aps: seq<Applier>, t: string, batch: seq<Delivery>, i: nat)
    requires i < |aps|
    ensures StandingOf(RecordAll(aps, t, batch)[i], t).deliveredSeq == StandingOf(aps[i], t).deliveredSeq
    decreases |batch|
  {
    if |batch| > 0 {
      var front := batch[..|batch| - 1];
      RecordedStillOffered(aps, t, front, i);
      Fanout.RecordOneAt(RecordAll(aps, t, front), t, batch[|batch| - 1], i, t);
    }
  }

  lemma {:induction false} NobodyBehind(aps: seq<Applier>, t: string, obs: Observation)
    requires forall i :: 0 <= i < |aps| ==> !Behind(aps[i], t, obs)
    ensures Batch(aps, t, obs) == []
  {
    if Batch(aps, t, obs) != [] {
      Fanout.OnlyTheBehind(aps, t, obs, 0);
    }
  }

  /** The second look of a drain finds nothing pending. */
  lemma {:induction false} SecondTurnIsEmpty(c: Core, t: string, batch: seq<Delivery>)
    ensures var c1 := Record(Turn(c, t), t, batch); Batch(c1.appliers, t, ScopeOf(c1, t).current) == []
  {
    hide Batch, Converged, LastRejection, RecordAll;
    var c1 := Record(Turn(c, t), t, batch);
    forall i | 0 <= i < |c1.appliers| ensures !Behind(c1.appliers[i], t, ScopeOf(c1, t).current) {
      RecordedStillOffered(Turn(c, t).appliers, t, batch, i);
      assert Turn(c, t).appliers[i] == Offer(c.appliers[i], t, ScopeOf(c, t).current);
    }
    NobodyBehind(c1.appliers, t, ScopeOf(c1, t).current);
  }

  lemma {:induction false} TurnOffersEveryone(c: Core, t: string)
    ensures Batch(Turn(c, t).appliers, t, ScopeOf(c, t).current) == []
  {
    hide Batch;
    NobodyBehind(Turn(c, t).appliers, t, ScopeOf(c, t).current);
  }

  /** An undisturbed drain releases the scope with nobody left to call, whatever the appliers answered. */
  lemma {:induction false} DrainLeavesNothingPending(c: Core, t: string, judge: Delivery -> Option<Reason>)
    requires !ScopeOf(c, t).delivering
    ensures var d := Drained(c, t, judge);
      && ScopeOf(d, t).current == ScopeOf(c, t).current && !ScopeOf(d, t).delivering
      && Batch(d.appliers, t, ScopeOf(d, t).current) == []
  {
    hide Batch, RecordAll, LastRejection, Converged, Judged;
    var batch := Batch(c.appliers, t, ScopeOf(c, t).current);
    if batch == [] {
      TurnOffersEveryone(c, t);
    } else {
      SecondTurnIsEmpty(c, t, Judged(batch, judge));
      TurnOffersEveryone(Group.Record(Turn(c, t), t, Judged(batch, judge)), t);
    }
  }

  /** How an applier answers an observation it has not been offered: the reason it refuses it, if it does. */
  function AnswerOf(ap: Applier, t: string, obs: Observation, judge: Delivery -> Option<Reason>): Option<Reason> {
    judge(Delivery(ap.id, obs, StandingOf(ap, t).accepted, Waiting))
  }

  lemma {:induction false} JudgedAt(batch: seq<Delivery>, judge: Delivery -> Option<Reason>, k: nat)
    requires k < |batch|
    ensures |Judged(batch, judge)| == |batch|
    ensures var d := Judged(batch, judge)[k];
      && d.id == batch[k].id && d.obs == batch[k].obs
      && (d.outcome.Accepted? <==> judge(batch[k]).None?) && (d.outcome.Rejected? <==> judge(batch[k]).Some?)
      && (d.outcome.Rejected? ==> d.outcome.why == judge(batch[k]).value)
    decreases |batch|
  {
    JudgedLength(batch, judge);
    if k < |batch| - 1 { JudgedAt(batch[..|batch| - 1], judge, k); } else { JudgedLength(batch[..k], judge); }
  }

  lemma {:induction false} JudgedLength(batch: seq<Delivery>, judge: Delivery -> Option<Reason>)
    ensures |Judged(batch, judge)| == |batch|
    decreases |batch|
  {
    if |batch| > 0 { JudgedLength(batch[..|batch| - 1], judge); }
  }

  /**
   What an undisturbed drain leaves each applier with: one that was behind has been offered the current document, and
   accepted it exactly if it did not refuse; one that was not is as it was.
   */
  lemma DrainLeavesEachAnswer(c: Core, t: string, judge: Delivery -> Option<Reason>, i: nat)
    requires !ScopeOf(c, t).delivering && Fanout.Distinct(c.appliers) && i < |c.appliers|
    ensures i < |Drained(c, t, judge).appliers| && Drained(c, t, judge).appliers[i].id == c.appliers[i].id
    ensures var now, was, obs := StandingOf(Drained(c, t, judge).appliers[i], t), StandingOf(c.appliers[i], t),
                                 ScopeOf(c, t).current;
      now == if was.deliveredSeq >= obs.at then was
             else if AnswerOf(c.appliers[i], t, obs, judge).None? then Standing(obs.at, obs.at, obs.revision, Some(obs))
             else Standing(obs.at, was.acceptedSeq, was.appliedRev, was.accepted)
  {
    hide Batch, RecordAll, LastRejection, Converged, Judged;
    var obs, batch := ScopeOf(c, t).current, Batch(c.appliers, t, ScopeOf(c, t).current);
    var turned := Turn(c, t);
    assert turned.appliers[i] == Offer(c.appliers[i], t, obs);
    if batch != [] {
      var done := Judged(batch, judge);
      AnswerIsRecorded(c, t, judge, i);
      var recorded := Group.Record(turned, t, done);
      assert Turn(recorded, t).appliers[i] == Offer(recorded.appliers[i], t, ScopeOf(recorded, t).current);
    } else if Behind(c.appliers[i], t, obs) {
      var k := Fanout.AllTheBehind(c.appliers, t, obs, i);
    }
  }

  lemma {:induction false} AnswerIsRecorded(c: Core, t: string, judge: Delivery -> Option<Reason>, i: nat)
    requires Fanout.Distinct(c.appliers) && i < |c.appliers|
    ensures var obs, batch := ScopeOf(c, t).current, Batch(c.appliers, t, ScopeOf(c, t).current);
      var turned := OfferAll(c.appliers, t, obs);
      var recorded := RecordAll(turned, t, Judged(batch, judge));
      && recorded[i].id == c.appliers[i].id
      && StandingOf(recorded[i], t)
         == if Behind(c.appliers[i], t, obs) && AnswerOf(c.appliers[i], t, obs, judge).None?
            then Standing(obs.at, obs.at, obs.revision, Some(obs)) else StandingOf(turned[i], t)
  {
    hide Batch, RecordAll, Judged;
    var obs, batch := ScopeOf(c, t).current, Batch(c.appliers, t, ScopeOf(c, t).current);
    var turned, done := OfferAll(c.appliers, t, obs), Judged(batch, judge);
    JudgedLength(batch, judge);
    assert turned[i] == Offer(c.appliers[i], t, obs);
    if Behind(c.appliers[i], t, obs) && AnswerOf(c.appliers[i], t, obs, judge).None? {
      var k := Fanout.AllTheBehind(c.appliers, t, obs, i);
      JudgedAt(batch, judge, k);
      ApartAsBatched(c, t, judge);
      assert done[k] in done;
      Fanout.RecordAllAccepts(turned, t, done, i, k);
    } else {
      forall d | d in done ensures !Fanout.AcceptedIn(done, turned[i].id, d) {
        var k :| 0 <= k < |done| && done[k] == d;
        JudgedAt(batch, judge, k);
        if d.id == turned[i].id { OnlyItsOwn(c.appliers, t, obs, k, i); }
      }
      Fanout.RecordAllKeeps(turned, t, done, i, t);
    }
  }

  /** The delivery at a place of the batch is for the applier of that id, which was behind. */
  lemma {:induction false} OnlyItsOwn(aps: seq<Applier>, t: string, obs: Observation, k: nat, i: nat)
    requires Fanout.Distinct(aps) && k < |Batch(aps, t, obs)| && i < |aps| && Batch(aps, t, obs)[k].id == aps[i].id
    ensures Behind(aps[i], t, obs) && Batch(aps, t, obs)[k] == Fanout.OfferTo(aps[i], t, obs)
  {
    hide Batch;
    Fanout.OnlyTheBehind(aps, t, obs, k);
  }

  lemma {:induction false} ApartAsBatched(c: Core, t: string, judge: Delivery -> Option<Reason>)
    requires Fanout.Distinct(c.appliers)
    ensures Fanout.Apart(Judged(Batch(c.appliers, t, ScopeOf(c, t).current), judge))
  {
    hide Batch, Judged;
    var batch := Batch(c.appliers, t, ScopeOf(c, t).current);
    JudgedLength(batch, judge);
    forall k, j | 0 <= k < j < |batch| ensures Judged(batch, judge)[k].id != Judged(batch, judge)[j].id {
      JudgedAt(batch, judge, k);
      JudgedAt(batch, judge, j);
      Fanout.BatchDistinct(c.appliers, t, ScopeOf(c, t).current, k, j);
    }
  }

  /** The last in registration order to refuse the observation, of those not offered it yet. */
  function LastRefusal(aps: seq<Applier>, t: string, obs: Observation, judge: Delivery -> Option<Reason>)
    : Option<Reason>
  {
    if |aps| == 0 then None
    else
      var last := aps[|aps| - 1];
      if StandingOf(last, t).deliveredSeq < obs.at && AnswerOf(last, t, obs, judge).Some?
      then AnswerOf(last, t, obs, judge) else LastRefusal(aps[..|aps| - 1], t, obs, judge)
  }

  lemma {:induction false} JudgedAppends(batch: seq<Delivery>, d: Delivery, judge: Delivery -> Option<Reason>)
    ensures Judged(batch + [d], judge)
      == Judged(batch, judge) + [d.(outcome := if judge(d).Some? then Rejected(judge(d).value) else Accepted)]
  {
    assert (batch + [d])[..|batch|] == batch;
  }

  lemma {:induction false} LastRejectionAppends(prior: Option<Reason>, batch: seq<Delivery>, d: Delivery)
    ensures LastRejection(prior, batch + [d])
      == if d.outcome.Rejected? then Some(d.outcome.why) else LastRejection(prior, batch)
  {
    assert (batch + [d])[..|batch|] == batch;
  }

  lemma {:induction false} RejectionIsLastRefusal(
      prior: Option<Reason>, aps: seq<Applier>, t: string, obs: Observation, judge: Delivery -> Option<Reason>)
    ensures LastRejection(prior, Judged(Batch(aps, t, obs), judge))
      == if LastRefusal(aps, t, obs, judge).Some? then LastRefusal(aps, t, obs, judge) else prior
    decreases |aps|
  {
    if |aps| == 0 {
      assert Batch(aps, t, obs) == [] && Judged([], judge) == [] && LastRejection(prior, []) == prior;
    } else {
      hide Judged, LastRejection;
      var front, last := aps[..|aps| - 1], aps[|aps| - 1];
      RejectionIsLastRefusal(prior, front, t, obs, judge);
      if Behind(last, t, obs) {
        var d, batch := Delivery(last.id, obs, StandingOf(last, t).accepted, Waiting), Batch(front, t, obs);
        JudgedAppends(batch, d, judge);
        LastRejectionAppends(prior, Judged(batch, judge),
                             d.(outcome := if judge(d).Some? then Rejected(judge(d).value) else Accepted));
      }
    }
  }

  /**
   What an undisturbed drain that calls somebody leaves reported: no error if everybody registered has accepted the
   newest observation, otherwise the reason of the last to refuse, or what was reported before if nobody did.
   */
  lemma {:induction false} DrainReportsTheLastRefusal(c: Core, t: string, judge: Delivery -> Option<Reason>)
    requires !ScopeOf(c, t).delivering && Batch(c.appliers, t, ScopeOf(c, t).current) != []
    requires ScopeOf(c, t).latestSeq > 0
    ensures var d, refusal := Drained(c, t, judge), LastRefusal(c.appliers, t, ScopeOf(c, t).current, judge);
      ScopeOf(d, t).lastErr
      == if OneScope.Agreed(d.appliers, t, ScopeOf(c, t).latestSeq) then None
         else if refusal.Some? then refusal else ScopeOf(c, t).lastErr
  {
    hide Batch, RecordAll, LastRejection, Judged;
    var done := Judged(Batch(c.appliers, t, ScopeOf(c, t).current), judge);
    var recorded := Group.Record(Turn(c, t), t, done);
    RejectionIsLastRefusal(ScopeOf(c, t).lastErr, c.appliers, t, ScopeOf(c, t).current, judge);
    OneScope.OffersAgreeAlike(recorded.appliers, t, ScopeOf(recorded, t).current, ScopeOf(c, t).latestSeq);
  }

  class Coordinator {
    var stamps: nat
    var nextID: nat
    var seedTaken: bool
    var scopes: map<string, Scope>
    var appliers: seq<Applier>

    ghost function View(): Core
      reads this
    {
      Core(stamps, nextID, seedTaken, scopes, appliers)
    }

    constructor ()
      ensures View() == NewCore
    {
      stamps, nextID, seedTaken, scopes, appliers := 0, 0, false, map[], [];
    }

    method Stamp() returns (at: nat)
      modifies this`stamps
      ensures View() == old(View()).(stamps := at) && at == old(stamps) + 1
    {
      stamps := stamps + 1;
      return stamps;
    }

    /** `drains` tells the publisher to go on to the fan-out. */
    method Commit(pub: Published, at: nat, parsed: Parsed) returns (drains: bool)
      modifies this`scopes
      ensures View() == Group.Commit(old(View()), pub, at, parsed)
      ensures drains == Drains(old(View()), pub, at, parsed)
    {
      var t := pub.tenant;
      if t !in scopes { scopes := scopes[t := NewScope]; }
      var sc := scopes[t];
      if at < sc.latestSeq { return false; }
      if sc.watermark.Armed? {
        var w := sc.watermark;
        sc := sc.(watermark := Disarmed);
        scopes := scopes[t := sc];
        if pub.revision <= w.revision && w.bytes.Some? && pub.bytes == w.bytes { return false; }
      }
      sc := sc.(desired := pub.revision);
      match parsed {
        case Bad(why) =>
          scopes := scopes[t := sc.(latestSeq := at, lastErr := Some(why), observed := true)];
          drains := false;
        case Good(doc) =>
          var seen := Observation(at, pub.revision, Some(doc));
          scopes := scopes[t := sc.(current := seen, observed := true, latestSeq := at)];
          drains := true;
      }
    }

    method AnyObserved() returns (any: bool)
      ensures any <==> exists t :: t in scopes && scopes[t].observed
    {
      var left := scopes.Keys;
      while left != {}
        invariant left <= scopes.Keys
        invariant forall t :: t in scopes && t !in left ==> !scopes[t].observed
      {
        var t :| t in left;
        if scopes[t].observed { return true; }
        left := left - {t};
      }
      return false;
    }

    method TakeSeed(read: SeedRead)
      modifies this`stamps, this`seedTaken, this`scopes
      ensures View() == Group.Seed(old(View()), read)
    {
      var any := AnyObserved();
      if seedTaken || any || !read.Entry? { return; }
      seedTaken := true;
      var pub, t := read.pub, read.pub.tenant;
      if t !in scopes { scopes := scopes[t := NewScope]; }
      var sc := scopes[t].(desired := pub.revision);
      stamps := stamps + 1;
      match read.parsed {
        case Bad(why) =>
          scopes := scopes[t := sc.(latestSeq := stamps, lastErr := Some(why), observed := true)];
        case Good(doc) =>
          sc := sc.(current := Observation(stamps, pub.revision, Some(doc)), observed := true, latestSeq := stamps);
          scopes := scopes[t := sc.(watermark := Armed(pub.revision, pub.bytes))];
      }
    }

    method Add(read: SeedRead) returns (id: nat)
      modifies this
      ensures View() == Group.Add(old(View()), read)
      ensures id == nextID && appliers != [] && appliers[|appliers| - 1].id == id
    {
      TakeSeed(read);
      nextID := nextID + 1;
      id := nextID;
      appliers := appliers + [Applier(id, map[])];
    }

    method HasConverged(t: string, latestSeq: nat) returns (converged: bool)
      ensures converged == Converged(appliers, t, latestSeq)
    {
      if |appliers| == 0 { return false; }
      for i := 0 to |appliers|
        invariant forall j :: 0 <= j < i ==> t in appliers[j].state && appliers[j].state[t].acceptedSeq >= latestSeq
      {
        var ap := appliers[i];
        if t !in ap.state || ap.state[t].acceptedSeq < latestSeq { return false; }
      }
      return true;
    }

    method ClearErrIfConverged(t: string)
      requires t in scopes
      modifies this`scopes
      ensures View() == old(View()).(scopes := old(scopes)[t := ClearErr(old(scopes)[t], old(appliers), t)])
    {
      var converged := HasConverged(t, scopes[t].latestSeq);
      if converged { scopes := scopes[t := scopes[t].(lastErr := None)]; }
    }

    method Remove(id: nat)
      modifies this`appliers, this`scopes
      ensures View() == Group.Remove(old(View()), id)
    {
      ghost var was := appliers;
      for i := 0 to |appliers|
        invariant appliers == was && scopes == old(scopes)
        invariant forall j :: 0 <= j < i ==> appliers[j].id != id
      {
        if appliers[i].id == id {
          FirstMatch(appliers, id, i);
          appliers := appliers[..i] + appliers[i + 1..];
          var left := scopes.Keys;
          while left != {}
            invariant left <= scopes.Keys == old(scopes).Keys
            invariant appliers == Without(was, id)
            invariant forall t :: t in left ==> scopes[t] == old(scopes)[t]
            invariant forall t :: t in scopes && t !in left ==> scopes[t] == ClearErr(old(scopes)[t], appliers, t)
          {
            var t :| t in left;
            ClearErrIfConverged(t);
            left := left - {t};
          }
          return;
        }
      }
    }

    /** pendingLocked: who has not been offered the observation yet, marked as offered before anyone is called. */
    method Pending(t: string, obs: Observation) returns (pending: seq<Delivery>)
      modifies this`appliers
      ensures View() == old(View()).(appliers := OfferAll(old(appliers), t, obs))
      ensures pending == Batch(old(appliers), t, obs)
    {
      pending := [];
      ghost var was := appliers;
      for i := 0 to |appliers|
        invariant |appliers| == |was|
        invariant forall j :: 0 <= j < i ==> appliers[j] == Offer(was[j], t, obs)
        invariant forall j :: i <= j < |was| ==> appliers[j] == was[j]
        invariant pending == Batch(was[..i], t, obs)
      {
        var ap := appliers[i];
        var st := if t in ap.state then ap.state[t] else NewStanding;
        if st.deliveredSeq < obs.at {
          pending := pending + [Delivery(ap.id, obs, st.accepted, Waiting)];
          st := st.(deliveredSeq := obs.at);
        }
        appliers := appliers[i := ap.(state := ap.state[t := st])];
        assert was[..i + 1][..i] == was[..i];
      }
      assert was[..|was|] == was;
      assert appliers == OfferAll(was, t, obs);
    }

    /** The write-back of one delivery; an applier that has left is not in the list any more. */
    method RecordDelivery(t: string, d: Delivery)
      modifies this`appliers
      ensures View() == old(View()).(appliers := RecordOne(old(appliers), t, d))
    {
      ghost var was := appliers;
      for i := 0 to |appliers|
        invariant |appliers| == |was|
        invariant appliers[..i] == RecordOne(was[..i], t, d)
        invariant forall j :: i <= j < |was| ==> appliers[j] == was[j]
      {
        var ap := appliers[i];
        if ap.id == d.id {
          var st := if t in ap.state then ap.state[t] else NewStanding;
          if d.outcome.Accepted? {
            st := Standing(st.deliveredSeq, st.deliveredSeq, d.obs.revision, Some(d.obs));
          }
          appliers := appliers[i := ap.(state := ap.state[t := st])];
        }
        assert was[..i + 1][..i] == was[..i];
        assert appliers[..i + 1] == appliers[..i] + [appliers[i]];
      }
      assert was[..|was|] == was && appliers[..|was|] == appliers;
    }

    method Record(t: string, batch: seq<Delivery>)
      requires t in scopes
      modifies this`appliers, this`scopes
      ensures View() == Group.Record(old(View()), t, batch)
    {
      for i := 0 to |batch|
        invariant appliers == RecordAll(old(appliers), t, batch[..i])
        invariant scopes == old(scopes)[
          t := old(scopes)[t].(lastErr := LastRejection(old(scopes)[t].lastErr, batch[..i]))]
      {
        var d := batch[i];
        assert batch[..i + 1][..i] == batch[..i];
        if !d.outcome.Skipped? {
          RecordDelivery(t, d);
          if d.outcome.Rejected? { scopes := scopes[t := scopes[t].(lastErr := Some(d.outcome.why))]; }
        }
      }
      assert batch[..|batch|] == batch;
      ClearErrIfConverged(t);
    }

    /** The next look of a running drain. */
    method NextBatch(t: string) returns (pending: seq<Delivery>)
      requires t in scopes && scopes[t].delivering
      modifies this`appliers
      ensures View() == Flagged(Turn(old(View()), t), t, true)
      ensures pending == Batch(old(appliers), t, old(scopes)[t].current)
    {
      pending := Pending(t, scopes[t].current);
      assert scopes == scopes[t := scopes[t].(delivering := true)];
    }

    /** drain with nothing else going on: turns until nothing is pending, the flag released on the way out. */
    method Drain(t: string, judge: Delivery -> Option<Reason>)
      requires t in scopes
      modifies this`appliers, this`scopes
      ensures View() == Drained(old(View()), t, judge)
    {
      hide Turn, Group.Record, Batch, Judged;
      if scopes[t].delivering { return; }
      ghost var start := View();
      ghost var last := start;
      scopes := scopes[t := scopes[t].(delivering := true)];
      TurnIgnoresFlag(start, t);
      var pending := NextBatch(t);
      while |pending| != 0
        invariant t in scopes
        invariant View() == Flagged(Turn(last, t), t, true)
          && pending == Batch(last.appliers, t, ScopeOf(last, t).current)
        invariant last == start || pending == []
        invariant pending == [] ==> Drained(start, t, judge) == Turn(last, t)
        decreases |pending|
      {
        SecondTurnIsEmpty(start, t, Judged(pending, judge));
        TurnFlags(start, t);
        var done := Deliver(pending, judge);
        Record(t, done);
        last := Group.Record(Turn(start, t), t, done);
        RecordKeepsFlag(Turn(start, t), t, done);
        pending := NextBatch(t);
      }
      TurnFlags(last, t);
      scopes := scopes[t := scopes[t].(delivering := false)];
    }

    method Deliver(pending: seq<Delivery>, judge: Delivery -> Option<Reason>) returns (done: seq<Delivery>)
      ensures done == Judged(pending, judge)
    {
      done := [];
      for i := 0 to |pending|
        invariant done == Judged(pending[..i], judge)
      {
        var why := judge(pending[i]);
        done := done + [pending[i].(outcome := if why.Some? then Rejected(why.value) else Accepted)];
        assert pending[..i + 1][..i] == pending[..i];
      }
      assert pending[..|pending|] == pending;
    }

    /** The revision accepted by the applier furthest behind, judged by observation and not by revision. */
    method Applied(t: string) returns (applied: int)
      requires t in scopes
      ensures applied == Group.Applied(View(), t)
    {
      if |appliers| == 0 { return scopes[t].desired; }
      var oldest := 0;
      for i := 0 to |appliers|
        invariant forall j :: 0 <= j < i ==> t in appliers[j].state
        invariant i > 0 ==> oldest == Furthest(appliers[..i], t)
      {
        if t !in appliers[i].state { return 0; }
        assert appliers[..i + 1][..i] == appliers[..i];
        if i == 0 || appliers[i].state[t].acceptedSeq < appliers[oldest].state[t].acceptedSeq { oldest := i; }
      }
      assert appliers[..|appliers|] == appliers;
      return appliers[oldest].state[t].appliedRev;
    }
  }

  function Flagged(c: Core, t: string, delivering: bool): Core {
    c.(scopes := c.scopes[t := ScopeOf(c, t).(delivering := delivering)])
  }

  lemma TurnIgnoresFlag(c: Core, t: string)
    ensures Turn(Flagged(c, t, true), t) == Turn(c, t)
  {
  }

  /** The turn leaves the scope flagged exactly while it has somebody to call. */
  lemma {:induction false} TurnFlags(c: Core, t: string)
    ensures Turn(c, t) == Flagged(Turn(c, t), t, Batch(c.appliers, t, ScopeOf(c, t).current) != [])
    ensures Flagged(Flagged(Turn(c, t), t, true), t, false) == Flagged(Turn(c, t), t, false)
    ensures t in Turn(c, t).scopes
      && Turn(c, t).scopes[t].delivering == (Batch(c.appliers, t, ScopeOf(c, t).current) != [])
  {
    assert Flagged(Flagged(Turn(c, t), t, true), t, false).scopes == Flagged(Turn(c, t), t, false).scopes;
  }

  lemma RecordKeepsFlag(c: Core, t: string, batch: seq<Delivery>)
    requires t in c.scopes
    ensures t in Group.Record(c, t, batch).scopes
    ensures Group.Record(c, t, batch).scopes[t].delivering == c.scopes[t].delivering
  {
  }

  lemma {:induction false} FirstMatch(aps: seq<Applier>, id: nat, i: nat)
    requires i < |aps| && aps[i].id == id && forall j :: 0 <= j < i ==> aps[j].id != id
    ensures Without(aps, id) == aps[..i] + aps[i + 1..]
  {
    if i > 0 {
      FirstMatch(aps[1..], id, i - 1);
      assert aps[..i] + aps[i + 1..] == [aps[0]] + (aps[1..][..i - 1] + aps[1..][i..]);
    }
  }
}
