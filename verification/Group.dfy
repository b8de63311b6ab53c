/**
 A config group's coordinator as a value: per tenant scope the newest observation and the last rejection,
 per applier how far it has got. Every function is one hold of the coordinator's mutex.
 */
module Group {
  import opened Types

  /** A document decoded into the group's own type, and why one was refused: both are the consumer's. */
  type Doc(==,!new)
  type Reason(==,!new)

  datatype Parsed = Good(doc: Doc) | Bad(why: Reason)

  /** `bytes` is the document marshalled back to JSON, None when it does not marshal. */
  datatype Published = Published(tenant: string, revision: int, bytes: Option<Bytes>)

  datatype Observation = Observation(at: nat, revision: int, doc: Option<Doc>)

  const Nothing := Observation(0, 0, None)

  datatype Watermark = Disarmed | Armed(revision: int, bytes: Option<Bytes>)

  datatype Scope = Scope(
    current: Observation,     // the newest document that decoded
    latestSeq: nat,           // the newest observation, decoded or not
    desired: int,
    observed: bool,
    lastErr: Option<Reason>,
    delivering: bool,
    watermark: Watermark)

  const NewScope := Scope(Nothing, 0, 0, false, None, false, Disarmed)

  datatype Standing = Standing(deliveredSeq: nat, acceptedSeq: nat, appliedRev: int, accepted: Option<Observation>)

  const NewStanding := Standing(0, 0, 0, None)

  datatype Applier = Applier(id: nat, state: map<string, Standing>)

  datatype Core = Core(stamps: nat, nextID: nat, seedTaken: bool, scopes: map<string, Scope>, appliers: seq<Applier>)

  const NewCore := Core(0, 0, false, map[], [])

  function StandingOf(ap: Applier, t: string): Standing {
    if t in ap.state then ap.state[t] else NewStanding
  }

  function ScopeOf(c: Core, t: string): Scope {
    if t in c.scopes then c.scopes[t] else NewScope
  }

  predicate Registered(aps: seq<Applier>, id: nat) {
    exists i :: 0 <= i < |aps| && aps[i].id == id
  }

  // ----- Publications and the seed -----

  /** The one publication a seed anticipates: not newer than the seed, and the same document. */
  predicate SpentBySeed(w: Watermark, pub: Published) {
    w.Armed? && pub.revision <= w.revision && w.bytes.Some? && pub.bytes == w.bytes
  }

  predicate Late(c: Core, pub: Published, at: nat) { at < ScopeOf(c, pub.tenant).latestSeq }

  /** A document that decoded becomes current; one that did not is an observation all the same. */
  function Observe(sc: Scope, at: nat, revision: int, parsed: Parsed): Scope {
    sc.(desired := revision, latestSeq := at, observed := true,
        current := if parsed.Good? then Observation(at, revision, Some(parsed.doc)) else sc.current,
        lastErr := if parsed.Bad? then Some(parsed.why) else sc.lastErr)
  }

  function CommitScope(sc: Scope, pub: Published, at: nat, parsed: Parsed): Scope {
    if at < sc.latestSeq then sc
    else if SpentBySeed(sc.watermark, pub) then sc.(watermark := Disarmed)
    else Observe(sc.(watermark := Disarmed), at, pub.revision, parsed)
  }

  function Commit(c: Core, pub: Published, at: nat, parsed: Parsed): Core {
    c.(scopes := c.scopes[pub.tenant := CommitScope(ScopeOf(c, pub.tenant), pub, at, parsed)])
  }

  /** Whether the publisher goes on to drain the scope. */
  predicate Drains(c: Core, pub: Published, at: nat, parsed: Parsed) {
    parsed.Good? && !Late(c, pub, at) && !SpentBySeed(ScopeOf(c, pub.tenant).watermark, pub)
  }

  datatype SeedRead = NoEntry | Unreadable | Entry(pub: Published, parsed: Parsed)

  predicate TakesSeed(c: Core, read: SeedRead) {
    read.Entry? && !c.seedTaken && forall t :: t in c.scopes ==> !c.scopes[t].observed
  }

  function SeedScope(sc: Scope, at: nat, read: SeedRead): Scope
    requires read.Entry?
  {
    Observe(sc, at, read.pub.revision, read.parsed).(
      watermark := if read.parsed.Good? then Armed(read.pub.revision, read.pub.bytes) else sc.watermark)
  }

  function Seed(c: Core, read: SeedRead): Core {
    if !TakesSeed(c, read) then c
    else
      var t := read.pub.tenant;
      c.(seedTaken := true, stamps := c.stamps + 1,
        scopes := c.scopes[t := SeedScope(ScopeOf(c, t), c.stamps + 1, read)])
  }

  // ----- Appliers come and go -----

  /** The applier is appended after the seed; the caller then drains every observed scope. */
  function Add(c: Core, read: SeedRead): Core {
    var seeded := Seed(c, read);
    seeded.(nextID := seeded.nextID + 1, appliers := seeded.appliers + [Applier(seeded.nextID + 1, map[])])
  }

  function Without(aps: seq<Applier>, id: nat): seq<Applier> {
    if |aps| == 0 then [] else if aps[0].id == id then aps[1..] else [aps[0]] + Without(aps[1..], id)
  }

  /** Somebody is registered, and everybody registered has accepted the newest observation. */
  predicate Converged(aps: seq<Applier>, t: string, latestSeq: nat) {
    aps != [] && forall i :: 0 <= i < |aps| ==> t in aps[i].state && aps[i].state[t].acceptedSeq >= latestSeq
  }

  function ClearErr(sc: Scope, aps: seq<Applier>, t: string): Scope {
    sc.(lastErr := if Converged(aps, t, sc.latestSeq) then None else sc.lastErr)
  }

  function Remove(c: Core, id: nat): Core {
    if !Registered(c.appliers, id) then c
    else
      var left := Without(c.appliers, id);
      c.(appliers := left, scopes := map t | t in c.scopes :: ClearErr(c.scopes[t], left, t))
  }

  // ----- The fan-out -----

  /** Cleared: found still registered, its function not started yet. */
  datatype Outcome = Waiting | Cleared | Running | Accepted | Rejected(why: Reason) | Skipped

  datatype Delivery = Delivery(id: nat, obs: Observation, previous: Option<Observation>, outcome: Outcome)

  predicate Behind(ap: Applier, t: string, obs: Observation) {
    StandingOf(ap, t).deliveredSeq < obs.at
  }

  function Offer(ap: Applier, t: string, obs: Observation): Applier {
    var st := StandingOf(ap, t);
    ap.(state := ap.state[t := if Behind(ap, t, obs) then st.(deliveredSeq := obs.at) else st])
  }

  function OfferAll(aps: seq<Applier>, t: string, obs: Observation): (r: seq<Applier>)
    ensures |r| == |aps| && forall i :: 0 <= i < |aps| ==> r[i] == Offer(aps[i], t, obs)
  {
    if |aps| == 0 then [] else OfferAll(aps[..|aps| - 1], t, obs) + [Offer(aps[|aps| - 1], t, obs)]
  }

  /** The appliers that have not been offered the observation, in registration order. */
  function Batch(aps: seq<Applier>, t: string, obs: Observation): seq<Delivery> {
    if |aps| == 0 then []
    else
      var front, ap := Batch(aps[..|aps| - 1], t, obs), aps[|aps| - 1];
      if Behind(ap, t, obs) then front + [Delivery(ap.id, obs, StandingOf(ap, t).accepted, Waiting)] else front
  }

  /** What one delivery does to the applier it was for; one that left keeps nothing. */
  function RecordOne(aps: seq<Applier>, t: string, d: Delivery): (r: seq<Applier>)
    ensures |r| == |aps|
  {
    if |aps| == 0 then []
    else
      var ap := aps[|aps| - 1];
      var st := StandingOf(ap, t);
      RecordOne(aps[..|aps| - 1], t, d) +
      [if ap.id != d.id then ap
       else ap.(state := ap.state[t :=
         if d.outcome.Accepted? then Standing(st.deliveredSeq, st.deliveredSeq, d.obs.revision, Some(d.obs)) else st])]
  }

  function RecordAll(aps: seq<Applier>, t: string, batch: seq<Delivery>): (r: seq<Applier>)
    ensures |r| == |aps|
  {
    if |batch| == 0 then aps
    else
      var before, d := RecordAll(aps, t, batch[..|batch| - 1]), batch[|batch| - 1];
      if d.outcome.Skipped? then before else RecordOne(before, t, d)
  }

  function LastRejection(prior: Option<Reason>, batch: seq<Delivery>): Option<Reason> {
    if |batch| == 0 then prior
    else if batch[|batch| - 1].outcome.Rejected? then Some(batch[|batch| - 1].outcome.why)
    else LastRejection(prior, batch[..|batch| - 1])
  }

  function Record(c: Core, t: string, batch: seq<Delivery>): Core {
    var aps := RecordAll(c.appliers, t, batch);
    var sc := ScopeOf(c, t);
    c.(appliers := aps, scopes := c.scopes[t := ClearErr(sc.(lastErr := LastRejection(sc.lastErr, batch)), aps, t)])
  }

  /** One turn of the drain loop, up to the point where the mutex is released or the loop ends. */
  function Turn(c: Core, t: string): Core {
    var sc := ScopeOf(c, t);
    c.(appliers := OfferAll(c.appliers, t, sc.current),
       scopes := c.scopes[t := sc.(delivering := Batch(c.appliers, t, sc.current) != [])])
  }

  // ----- Status -----

  /** The index of the applier furthest behind, the first of several. */
  function Furthest(aps: seq<Applier>, t: string): (r: nat)
    requires aps != []
    ensures r < |aps|
    ensures forall i :: 0 <= i < |aps| ==> StandingOf(aps[r], t).acceptedSeq <= StandingOf(aps[i], t).acceptedSeq
  {
    if |aps| == 1 then 0
    else
      var front := Furthest(aps[..|aps| - 1], t);
      if StandingOf(aps[|aps| - 1], t).acceptedSeq < StandingOf(aps[front], t).acceptedSeq then |aps| - 1 else front
  }

  function Applied(c: Core, t: string): int {
    if c.appliers == [] then ScopeOf(c, t).desired
    else if exists i :: 0 <= i < |c.appliers| && t !in c.appliers[i].state then 0
    else StandingOf(c.appliers[Furthest(c.appliers, t)], t).appliedRev
  }
}
