/** The update pipelines behind Set and Delete on MongoDB, as functions on one document, and the revision they keep. */
module MongoRevision {
  import opened Types

  /** A document's fields; one a writer never set is missing. */
  datatype Doc = Doc(
    value: Option<string>,
    revision: Option<int>,
    deleted: Option<bool>,
    updatedAt: int,
    updatedBy: string)

  /** What an upsert's pipeline sees when there is no document yet. */
  const Missing := Doc(None, None, None, 0, "")

  /** Strictly above the revision the document carried, and never below the server clock. */
  function Bumped(d: Doc, now: int): int {
    var next := (if d.revision.Some? then d.revision.value else 0) + 1;
    if next >= now then next else now
  }

  /** upsertPipeline's first stage, which reads the document as it was before this write. */
  function UpsertRevision(d: Doc, value: string, now: int): Doc {
    d.(revision := Some(
      if d.value == Some(value) then (if d.revision.Some? then d.revision.value else 1) else Bumped(d, now)))
  }

  /** upsertPipeline: the revision, then the fields, then the tombstone marker goes. */
  function Upserted(pre: Option<Doc>, value: string, at: int, actor: string, now: int): Doc {
    var d := if pre.Some? then pre.value else Missing;
    UpsertRevision(d, value, now).(value := Some(value), updatedAt := at, updatedBy := actor).(deleted := None)
  }

  /** The guard of Get, List and Delete: a missing marker is not a deleted one. */
  predicate NotDeleted(d: Doc) { d.deleted != Some(true) }

  /** tombstonePipeline; Delete finds nothing to update when the key is gone or already a tombstone. */
  function Tombstoned(pre: Option<Doc>, at: int, actor: string, now: int): Option<Doc> {
    if pre.None? || !NotDeleted(pre.value) then pre
    else
      var d := pre.value;
      Some(d.(revision := Some(Bumped(d, now)))
            .(deleted := Some(true), updatedAt := at, updatedBy := actor)
            .(value := None))
  }

  /** One write under whatever clock the server has at that moment. */
  datatype Op = Set(value: string, at: int, actor: string, now: int) | Delete(at: int, actor: string, now: int)

  function Apply(pre: Option<Doc>, op: Op): Option<Doc> {
    match op
    case Set(value, at, actor, now) => Some(Upserted(pre, value, at, actor, now))
    case Delete(at, actor, now) => Tombstoned(pre, at, actor, now)
  }

  /** The document after the first `n` writes. */
  function Nth(pre: Option<Doc>, ops: seq<Op>, n: nat): Option<Doc>
    requires n <= |ops|
  {
    if n == 0 then pre else Apply(Nth(pre, ops, n - 1), ops[n - 1])
  }

  /** What a reader reports: 0 for a document without a revision, and for none at all. */
  function Revision(d: Option<Doc>): int {
    if d.Some? && d.value.revision.Some? then d.value.revision.value else 0
  }

  /** A document this library wrote, or one from before revisions existed: live with a value, or a tombstone without. */
  predicate Ours(d: Option<Doc>) {
    d.Some? ==>
      && (d.value.value.Some? <==> NotDeleted(d.value))
      && (d.value.revision.Some? ==> d.value.revision.value > 0)
  }

  /** The write rewrites a live value unchanged, under the revision it has; or deletes what is not there. */
  predicate Keeps(pre: Option<Doc>, op: Op) {
    match op
    case Set(value, _, _, _) =>
      pre.Some? && NotDeleted(pre.value) && pre.value.value == Some(value) && pre.value.revision.Some?
    case Delete(_, _, _) => pre.None? || !NotDeleted(pre.value)
  }

  lemma StepClimbs(pre: Option<Doc>, op: Op)
    requires Ours(pre)
    ensures Ours(Apply(pre, op))
    ensures Keeps(pre, op) ==> Revision(Apply(pre, op)) == Revision(pre)
    ensures !Keeps(pre, op) ==> Revision(Apply(pre, op)) > Revision(pre)
  {
  }

  lemma {:induction false} RunClimbs(pre: Option<Doc>, ops: seq<Op>, i: nat, n: nat)
    requires Ours(pre) && i <= n <= |ops|
    ensures Ours(Nth(pre, ops, n)) && Revision(Nth(pre, ops, i)) <= Revision(Nth(pre, ops, n))
    decreases n
  {
    if i < n {
      RunClimbs(pre, ops, i, n - 1);
      StepClimbs(Nth(pre, ops, n - 1), ops[n - 1]);
    } else if n > 0 {
      RunClimbs(pre, ops, n - 1, n - 1);
      StepClimbs(Nth(pre, ops, n - 1), ops[n - 1]);
    }
  }

  /**
   Over any sequence of Sets and Deletes, under a clock that may stand still or run backwards: a write keeps
   the revision exactly when it rewrites the live value unchanged (or deletes nothing), and any other write
   lands strictly above every revision the key ever had, tombstones and earlier lives included.
   */
  lemma RevisionsNeverRepeat(pre: Option<Doc>, ops: seq<Op>, n: nat, i: nat)
    requires Ours(pre) && i <= n < |ops|
    ensures Revision(Nth(pre, ops, n + 1)) == Revision(Nth(pre, ops, n)) <==> Keeps(Nth(pre, ops, n), ops[n])
    ensures !Keeps(Nth(pre, ops, n), ops[n]) ==> Revision(Nth(pre, ops, n + 1)) > Revision(Nth(pre, ops, i))
  {
    RunClimbs(pre, ops, i, n);
    StepClimbs(Nth(pre, ops, n), ops[n]);
  }

  /** The write rewrites unchanged a live value from before revisions existed. */
  predicate Adopts(pre: Option<Doc>, op: Op) {
    op.Set? && pre.Some? && pre.value.value == Some(op.value) && pre.value.revision.None?
  }

  /**
   The clock is a floor, not the revision: a write that changes what is stored takes the lowest revision above the
   key's last one and not below the clock. A write that keeps no revision lands below the clock only if it adopts a
   document from before revisions existed, which gets 1 whatever the time.
   */
  lemma ClockIsAFloor(pre: Option<Doc>, ops: seq<Op>, n: nat)
    requires Ours(pre) && n < |ops| && !Keeps(Nth(pre, ops, n), ops[n])
    ensures Revision(Nth(pre, ops, n + 1)) >= ops[n].now <==> !Adopts(Nth(pre, ops, n), ops[n]) || ops[n].now <= 1
    ensures Adopts(Nth(pre, ops, n), ops[n]) ==> Revision(Nth(pre, ops, n + 1)) == 1
    ensures !Adopts(Nth(pre, ops, n), ops[n]) ==>
      Revision(Nth(pre, ops, n + 1)) > Revision(Nth(pre, ops, n))
      && (Revision(Nth(pre, ops, n + 1)) == Revision(Nth(pre, ops, n)) + 1
          || Revision(Nth(pre, ops, n + 1)) == ops[n].now)
  {
    RunClimbs(pre, ops, n, n);
  }

  /** A recreated key outranks the life before its delete, however far back the clock has been set. */
  lemma RecreateOutranks(pre: Option<Doc>, ops: seq<Op>, n: nat, m: nat, i: nat)
    requires Ours(pre) && i <= n < m < |ops|
    requires ops[n].Delete? && !Keeps(Nth(pre, ops, n), ops[n]) && ops[m].Set?
    ensures Revision(Nth(pre, ops, m + 1)) > Revision(Nth(pre, ops, i))
  {
    RevisionsNeverRepeat(pre, ops, n, i);
    RunClimbs(pre, ops, n + 1, m + 1);
  }

  /** What Get reports of a document: its value, or nothing for a tombstone. */
  function Reads(d: Option<Doc>): Option<string> {
    if d.Some? && NotDeleted(d.value) then d.value.value else None
  }

  lemma KeptRevisionKeepsValue(pre: Option<Doc>, op: Op)
    requires Ours(pre) && Keeps(pre, op)
    ensures Reads(Apply(pre, op)) == Reads(pre)
  {
  }

  lemma {:induction false} EqualRevisionsAgree(pre: Option<Doc>, ops: seq<Op>, i: nat, n: nat)
    requires Ours(pre) && i <= n <= |ops| && Revision(Nth(pre, ops, i)) == Revision(Nth(pre, ops, n))
    ensures Reads(Nth(pre, ops, i)) == Reads(Nth(pre, ops, n))
    decreases n
  {
    if i < n {
      RunClimbs(pre, ops, i, n - 1);
      RunClimbs(pre, ops, n - 1, n);
      StepClimbs(Nth(pre, ops, n - 1), ops[n - 1]);
      KeptRevisionKeepsValue(Nth(pre, ops, n - 1), ops[n - 1]);
      EqualRevisionsAgree(pre, ops, i, n - 1);
    }
  }

  /**
   A revision names one value: whatever is read later at the revision a Set was given is what that Set wrote, and
   a key read at the revision of a Delete is gone. So a cache may compare revisions and never look at the value.
   */
  lemma RevisionNamesOneValue(pre: Option<Doc>, ops: seq<Op>, n: nat, m: nat)
    requires Ours(pre) && n < m <= |ops| && Revision(Nth(pre, ops, m)) == Revision(Nth(pre, ops, n + 1))
    ensures Reads(Nth(pre, ops, m)) == if ops[n].Set? then Some(ops[n].value) else None
  {
    RunClimbs(pre, ops, n, n);
    EqualRevisionsAgree(pre, ops, n + 1, m);
  }

  /** The provenance read is the last write's that was not an idle Delete, whether or not it moved the revision. */
  lemma {:induction false} ProvenanceIsTheLastWrite(pre: Option<Doc>, ops: seq<Op>, n: nat, m: nat)
    requires n < m <= |ops| && (ops[n].Set? || !Keeps(Nth(pre, ops, n), ops[n]))
    requires forall i :: n < i < m ==> ops[i].Delete? && Keeps(Nth(pre, ops, i), ops[i])
    ensures Nth(pre, ops, m).Some?
    ensures Nth(pre, ops, m).value.updatedBy == ops[n].actor && Nth(pre, ops, m).value.updatedAt == ops[n].at
    decreases m
  {
    if n + 1 < m { ProvenanceIsTheLastWrite(pre, ops, n, m - 1); }
  }
}
