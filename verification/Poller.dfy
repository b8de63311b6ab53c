/** The polling changefeed: an incremental query from a watermark, against a full comparison of two collections. */
module Poller {
  import opened Types

  /** A tombstone keeps its document and loses its value. */
  datatype Doc = Doc(updatedAt: int, value: string, revision: int, deleted: bool)

  type Collection = map<NSKey, Doc>

  datatype Found = Found(nk: NSKey, doc: Doc)

  /** Events carry an identity and a revision, never a value: whoever hears one reads the row. */
  datatype Event = Upsert(nk: NSKey, revision: int) | Delete(nk: NSKey)

  /** What one round trip leaves the next. `seen` holds the value hashes of the documents at the watermark. */
  datatype PollState = PollState(watermark: int, known: set<NSKey>, seen: map<NSKey, int>, first: bool)

  function Live(c: Collection): map<NSKey, string> {
    map nk | nk in c && !c[nk].deleted :: c[nk].value
  }

  /** A live document carries a JSON payload, which is never the empty string; a tombstone carries nothing. */
  predicate WellFormed(c: Collection) {
    forall nk :: nk in c ==> (c[nk].deleted <==> c[nk].value == "")
  }

  ghost predicate Injective(hash: string -> int) {
    forall a, b :: hash(a) == hash(b) ==> a == b
  }

  // ----- The queries -----

  predicate Sorted(docs: seq<Found>) {
    forall i, j :: 0 <= i < j < |docs| ==> docs[i].doc.updatedAt <= docs[j].doc.updatedAt && docs[i].nk != docs[j].nk
  }

  /** Every document stamped at the watermark or above, in the order of its stamp. */
  predicate Answers(docs: seq<Found>, c: Collection, watermark: int) {
    && Sorted(docs)
    && (forall i :: 0 <= i < |docs| ==>
          docs[i].nk in c && c[docs[i].nk] == docs[i].doc && docs[i].doc.updatedAt >= watermark)
    && forall nk :: nk in c && c[nk].updatedAt >= watermark ==> Found(nk, c[nk]) in docs
  }

  // ----- One round -----

  /** boundaryDedupHit: an idempotent rewrite of what the last round saw at this very millisecond. */
  predicate DedupHit(st: PollState, found: Found, h: int) {
    found.doc.updatedAt == st.watermark && found.nk in st.seen && st.seen[found.nk] == h
  }

  function EventOf(found: Found): Event {
    if found.doc.deleted then Delete(found.nk) else Upsert(found.nk, found.doc.revision)
  }

  datatype Scanned = Scanned(watermark: int, seen: map<NSKey, int>, tombstoned: set<NSKey>, events: seq<Event>)

  function ScanOne(st: PollState, sc: Scanned, found: Found, h: int): Scanned {
    var marked := if found.doc.deleted then sc.(tombstoned := sc.tombstoned + {found.nk}) else sc;
    if DedupHit(st, found, h) then marked.(seen := sc.seen[found.nk := h])
    else marked.(
      events := sc.events + [EventOf(found)],
      watermark := if found.doc.updatedAt > sc.watermark then found.doc.updatedAt else sc.watermark,
      seen := if found.doc.updatedAt > sc.watermark then map[found.nk := h]
              else if found.doc.updatedAt == sc.watermark then sc.seen[found.nk := h] else sc.seen)
  }

  function Scan(st: PollState, docs: seq<Found>, hash: string -> int): Scanned {
    if |docs| == 0 then Scanned(st.watermark, map[], {}, [])
    else
      var last := docs[|docs| - 1];
      ScanOne(st, Scan(st, docs[..|docs| - 1], hash), last, hash(last.doc.value))
  }

  /** The keys the last round knew that are neither live nor announced from their tombstone. */
  function Missing(st: PollState, current: set<NSKey>, tombstoned: set<NSKey>): set<NSKey> {
    if st.first then {} else st.known - current - tombstoned
  }

  /** One delete per missing key, in whatever order the key set is walked. */
  predicate Announces(events: seq<Event>, missing: set<NSKey>) {
    && (forall i :: 0 <= i < |events| ==> events[i].Delete? && events[i].nk in missing)
    && (forall nk :: nk in missing ==> Delete(nk) in events)
    && forall i, j :: 0 <= i < j < |events| ==> events[i].nk != events[j].nk
  }

  function NextState(st: PollState, scan: Scanned, current: Option<set<NSKey>>): PollState {
    PollState(scan.watermark, if current.Some? then current.value else st.known, scan.seen, false)
  }

  method ScanDocs(st: PollState, docs: seq<Found>, hash: string -> int) returns (scan: Scanned)
    ensures scan == Scan(st, docs, hash)
  {
    var watermark, seen, tombstoned := st.watermark, map[], {};
    var events := [];
    for i := 0 to |docs|
      invariant Scanned(watermark, seen, tombstoned, events) == Scan(st, docs[..i], hash)
    {
      assert docs[..i + 1][..i] == docs[..i];
      var nk, doc := docs[i].nk, docs[i].doc;
      var h := hash(doc.value);
      if doc.deleted { tombstoned := tombstoned + {nk}; }
      if doc.updatedAt == st.watermark && nk in st.seen && st.seen[nk] == h {
        seen := seen[nk := h];
        continue;
      }
      events := events + [if doc.deleted then Delete(nk) else Upsert(nk, doc.revision)];
      if doc.updatedAt > watermark {
        watermark, seen := doc.updatedAt, map[nk := h];
      } else if doc.updatedAt == watermark {
        seen := seen[nk := h];
      }
    }
    assert docs[..|docs|] == docs;
    scan := Scanned(watermark, seen, tombstoned, events);
  }

  method DiffKeys(known: set<NSKey>, current: set<NSKey>, tombstoned: set<NSKey>) returns (deletes: seq<Event>)
    ensures Announces(deletes, known - current - tombstoned)
  {
    hide Announces;
    deletes := [];
    AnnounceNone();
    var left := known;
    ghost var told: set<NSKey> := {};
    while left != {}
      invariant left <= known && told == known - left - current - tombstoned
      invariant Announces(deletes, told)
      decreases |left|
    {
      var nk :| nk in left;
      if nk !in current && nk !in tombstoned {
        AnnounceOne(deletes, told, nk);
        deletes := deletes + [Delete(nk)];
        told := told + {nk};
      }
      left := left - {nk};
    }
    assert told == known - current - tombstoned;
  }

  /** pollOnce past its queries; a key set that could not be read keeps the old one and skips the diff. */
  method PollOnce(st: PollState, docs: seq<Found>, current: Option<set<NSKey>>, hash: string -> int)
    returns (next: PollState, events: seq<Event>, deletes: seq<Event>)
    ensures next == NextState(st, Scan(st, docs, hash), current)
    ensures events == Scan(st, docs, hash).events + deletes
    ensures Announces(deletes,
                      if current.Some? then Missing(st, current.value, Scan(st, docs, hash).tombstoned) else {})
  {
    var scan := ScanDocs(st, docs, hash);
    deletes := [];
    if current.None? { return PollState(scan.watermark, st.known, scan.seen, false), scan.events, []; }
    if !st.first { deletes := DiffKeys(st.known, current.value, scan.tombstoned); }
    return PollState(scan.watermark, current.value, scan.seen, false), scan.events + deletes, deletes;
  }

  lemma AnnounceNone()
    ensures Announces([], {})
  {
  }

  lemma AnnounceOne(events: seq<Event>, missing: set<NSKey>, nk: NSKey)
    requires Announces(events, missing) && nk !in missing
    ensures Announces(events + [Delete(nk)], missing + {nk})
  {
  }

  // ----- What a round leaves behind -----

  /** The state a completed round carries: the live keys, and exactly the documents at the watermark. */
  ghost predicate Valid(st: PollState, c: Collection, hash: string -> int) {
    && !st.first && st.known == Live(c).Keys
    && (forall nk :: nk in c ==> c[nk].updatedAt <= st.watermark)
    && (forall nk :: nk in st.seen <==> nk in c && c[nk].updatedAt == st.watermark)
    && forall nk :: nk in st.seen ==> st.seen[nk] == hash(c[nk].value)
  }

  /** The scan so far: its watermark is the newest stamp, its seen set the documents that carry it. */
  ghost predicate Scans(st: PollState, docs: seq<Found>, hash: string -> int, sc: Scanned) {
    && sc.watermark == (if docs == [] then st.watermark else docs[|docs| - 1].doc.updatedAt)
    && (forall i :: 0 <= i < |docs| && docs[i].doc.updatedAt == sc.watermark ==>
          docs[i].nk in sc.seen && sc.seen[docs[i].nk] == hash(docs[i].doc.value))
    && (forall nk :: nk in sc.seen ==> SeenFrom(docs, nk, sc.watermark))
    && forall nk :: nk in sc.tombstoned <==> TombstoneIn(docs, nk)
  }

  predicate SeenFrom(docs: seq<Found>, nk: NSKey, at: int) {
    exists i :: 0 <= i < |docs| && docs[i].nk == nk && docs[i].doc.updatedAt == at
  }

  predicate TombstoneIn(docs: seq<Found>, nk: NSKey) {
    exists i :: 0 <= i < |docs| && docs[i].nk == nk && docs[i].doc.deleted
  }

  lemma {:induction false} ScanScans(st: PollState, docs: seq<Found>, hash: string -> int)
    requires Sorted(docs) && forall i :: 0 <= i < |docs| ==> docs[i].doc.updatedAt >= st.watermark
    ensures Scans(st, docs, hash, Scan(st, docs, hash))
    decreases |docs|
  {
    if |docs| > 0 {
      var front, last := docs[..|docs| - 1], docs[|docs| - 1];
      ScanScans(st, front, hash);
      ScanOneScans(st, docs, hash, Scan(st, front, hash));
    }
  }

  ghost predicate Extends(st: PollState, docs: seq<Found>, hash: string -> int, sc: Scanned) {
    && |docs| > 0 && Sorted(docs) && (forall i :: 0 <= i < |docs| ==> docs[i].doc.updatedAt >= st.watermark)
    && Scans(st, docs[..|docs| - 1], hash, sc)
  }

  function Extended(st: PollState, docs: seq<Found>, hash: string -> int, sc: Scanned): Scanned
    requires |docs| > 0
  {
    ScanOne(st, sc, docs[|docs| - 1], hash(docs[|docs| - 1].doc.value))
  }

  lemma ScanOneWatermark(st: PollState, docs: seq<Found>, hash: string -> int, sc: Scanned)
    requires Extends(st, docs, hash, sc)
    ensures Extended(st, docs, hash, sc).watermark == docs[|docs| - 1].doc.updatedAt >= sc.watermark
    ensures docs[|docs| - 1].doc.updatedAt > sc.watermark ==>
      Extended(st, docs, hash, sc).seen == map[docs[|docs| - 1].nk := hash(docs[|docs| - 1].doc.value)]
    ensures docs[|docs| - 1].doc.updatedAt == sc.watermark ==>
      Extended(st, docs, hash, sc).seen == sc.seen[docs[|docs| - 1].nk := hash(docs[|docs| - 1].doc.value)]
  {
    hide SeenFrom, TombstoneIn;
    var front := docs[..|docs| - 1];
    if |front| > 0 { assert front[|front| - 1] == docs[|docs| - 2]; }
  }

  lemma ScanOneSeen(st: PollState, docs: seq<Found>, hash: string -> int, sc: Scanned, nk: NSKey)
    requires Extends(st, docs, hash, sc) && nk in Extended(st, docs, hash, sc).seen
    ensures SeenFrom(docs, nk, docs[|docs| - 1].doc.updatedAt)
  {
    hide TombstoneIn, ScanOne;
    ScanOneWatermark(st, docs, hash, sc);
    var front, last := docs[..|docs| - 1], docs[|docs| - 1];
    if nk == last.nk {
      assert docs[|docs| - 1].nk == nk;
    } else {
      assert SeenFrom(front, nk, sc.watermark);
      var i :| 0 <= i < |front| && front[i].nk == nk && front[i].doc.updatedAt == sc.watermark;
      assert docs[i] == front[i];
    }
  }

  lemma ScanOneTombstones(st: PollState, docs: seq<Found>, hash: string -> int, sc: Scanned, nk: NSKey)
    requires Extends(st, docs, hash, sc)
    ensures nk in Extended(st, docs, hash, sc).tombstoned <==> TombstoneIn(docs, nk)
  {
    hide SeenFrom;
    var front, last := docs[..|docs| - 1], docs[|docs| - 1];
    if TombstoneIn(front, nk) {
      var i :| 0 <= i < |front| && front[i].nk == nk && front[i].doc.deleted;
      assert docs[i] == front[i];
    }
    if TombstoneIn(docs, nk) && !(nk == last.nk && last.doc.deleted) {
      var i :| 0 <= i < |docs| && docs[i].nk == nk && docs[i].doc.deleted;
      assert front[i] == docs[i];
    }
    assert docs[|docs| - 1] == last;
  }

  lemma ScanOneScans(st: PollState, docs: seq<Found>, hash: string -> int, sc: Scanned)
    requires Extends(st, docs, hash, sc)
    ensures Scans(st, docs, hash, Extended(st, docs, hash, sc))
  {
    hide TombstoneIn, SeenFrom, ScanOne;
    ScanOneWatermark(st, docs, hash, sc);
    var sc' := Extended(st, docs, hash, sc);
    forall nk | nk in sc'.seen ensures SeenFrom(docs, nk, sc'.watermark) { ScanOneSeen(st, docs, hash, sc, nk); }
    forall nk ensures nk in sc'.tombstoned <==> TombstoneIn(docs, nk) { ScanOneTombstones(st, docs, hash, sc, nk); }
    forall i | 0 <= i < |docs| && docs[i].doc.updatedAt == sc'.watermark
      ensures docs[i].nk in sc'.seen && sc'.seen[docs[i].nk] == hash(docs[i].doc.value)
    {
      if i < |docs| - 1 { assert docs[..|docs| - 1][i] == docs[i]; StampsClimb(docs, i, sc.watermark); }
    }
  }

  lemma StampsClimb(docs: seq<Found>, i: nat, at: int)
    requires Sorted(docs) && i < |docs| - 1 && at == docs[|docs| - 2].doc.updatedAt
    ensures docs[i].doc.updatedAt <= at <= docs[|docs| - 1].doc.updatedAt && docs[i].nk != docs[|docs| - 1].nk
  {
  }

  /** Any completed round, the first one too, leaves a state that describes the collection it read. */
  lemma {:induction false} RoundLeavesValid(st: PollState, c: Collection, docs: seq<Found>, hash: string -> int)
    requires Answers(docs, c, st.watermark)
    ensures Valid(NextState(st, Scan(st, docs, hash), Some(Live(c).Keys)), c, hash)
  {
    var sc := Scan(st, docs, hash);
    ScanScans(st, docs, hash);
    forall nk | nk in c ensures c[nk].updatedAt <= sc.watermark {
      if c[nk].updatedAt >= st.watermark { assert Found(nk, c[nk]) in docs; }
    }
    forall nk ensures nk in sc.seen <==> nk in c && c[nk].updatedAt == sc.watermark {
      if nk in sc.seen { assert SeenFrom(docs, nk, sc.watermark); }
      if nk in c && c[nk].updatedAt == sc.watermark { assert Found(nk, c[nk]) in docs; }
    }
  }

  // ----- Replaying a round -----

  /** A subscriber's view: an upsert is answered by reading the row, a delete by forgetting it. */
  function Replay(view: map<NSKey, string>, events: seq<Event>, c: Collection): map<NSKey, string> {
    if |events| == 0 then view
    else
      var before := Replay(view, events[..|events| - 1], c);
      match events[|events| - 1]
      case Delete(nk) => before - {nk}
      case Upsert(nk, _) => if nk in Live(c) then before[nk := Live(c)[nk]] else before
  }

  function Look(view: map<NSKey, string>, nk: NSKey): Option<string> {
    if nk in view then Some(view[nk]) else None
  }

  predicate Named(events: seq<Event>, nk: NSKey) {
    exists i :: 0 <= i < |events| && events[i].nk == nk
  }

  /** Every event tells the truth about the collection. */
  predicate Truthful(events: seq<Event>, c: Collection) {
    forall i :: 0 <= i < |events| ==> (events[i].Upsert? <==> events[i].nk in Live(c))
  }

  lemma {:induction false} ReplayAt(view: map<NSKey, string>, events: seq<Event>, c: Collection, nk: NSKey)
    requires Truthful(events, c)
    ensures Look(Replay(view, events, c), nk) == if Named(events, nk) then Look(Live(c), nk) else Look(view, nk)
    decreases |events|
  {
    if |events| > 0 {
      var front, last := events[..|events| - 1], events[|events| - 1];
      ReplayAt(view, front, c, nk);
      if Named(front, nk) {
        var i :| 0 <= i < |front| && front[i].nk == nk;
        assert events[i].nk == nk;
      }
      assert events[|events| - 1] == last;
      if Named(events, nk) && last.nk != nk {
        var i :| 0 <= i < |events| && events[i].nk == nk;
        assert front[i].nk == nk;
      }
    }
  }

  predicate Emitted(st: PollState, docs: seq<Found>, hash: string -> int, nk: NSKey) {
    exists i :: 0 <= i < |docs| && docs[i].nk == nk && !DedupHit(st, docs[i], hash(docs[i].doc.value))
  }

  lemma {:induction false} ScanNames(st: PollState, docs: seq<Found>, hash: string -> int, nk: NSKey)
    ensures Named(Scan(st, docs, hash).events, nk) <==> Emitted(st, docs, hash, nk)
    decreases |docs|
  {
    hide DedupHit;
    if |docs| > 0 {
      var front, last := docs[..|docs| - 1], docs[|docs| - 1];
      var es, es' := Scan(st, front, hash).events, Scan(st, docs, hash).events;
      ScanNames(st, front, hash, nk);
      assert docs[|docs| - 1] == last;
      if Emitted(st, front, hash, nk) {
        var i :| 0 <= i < |front| && front[i].nk == nk && !DedupHit(st, front[i], hash(front[i].doc.value));
        assert docs[i] == front[i];
        var j :| 0 <= j < |es| && es[j].nk == nk;
        assert es'[j].nk == nk;
      } else if last.nk == nk && !DedupHit(st, last, hash(last.doc.value)) {
        assert es'[|es|].nk == nk;
      } else {
        forall i | 0 <= i < |docs| && docs[i].nk == nk ensures DedupHit(st, docs[i], hash(docs[i].doc.value)) {
          if i < |front| { assert front[i] == docs[i]; }
        }
        forall j | 0 <= j < |es'| ensures es'[j].nk != nk {
          if j < |es| { assert es[j].nk != nk; }
        }
      }
    }
  }

  lemma {:induction false} ScanIsTruthful(st: PollState, docs: seq<Found>, hash: string -> int, c: Collection)
    requires forall i :: 0 <= i < |docs| ==> docs[i].nk in c && c[docs[i].nk] == docs[i].doc
    ensures Truthful(Scan(st, docs, hash).events, c)
    decreases |docs|
  {
    hide DedupHit;
    if |docs| > 0 {
      ScanIsTruthful(st, docs[..|docs| - 1], hash, c);
    }
  }

  // ----- Any round, any view -----

  /** One round trip over the collection `now`: the answer to its query, and the diff's deletes if it got a key set. */
  datatype Round = Round(now: Collection, docs: seq<Found>, diffed: bool, deletes: seq<Event>)

  predicate Happens(st: PollState, r: Round, hash: string -> int) {
    && WellFormed(r.now) && Answers(r.docs, r.now, st.watermark)
    && Announces(r.deletes,
                 if r.diffed then Missing(st, Live(r.now).Keys, Scan(st, r.docs, hash).tombstoned) else {})
  }

  function Emits(st: PollState, r: Round, hash: string -> int): seq<Event> {
    Scan(st, r.docs, hash).events + r.deletes
  }

  function Following(st: PollState, r: Round, hash: string -> int): PollState {
    NextState(st, Scan(st, r.docs, hash), if r.diffed then Some(Live(r.now).Keys) else None)
  }

  function Heard(st: PollState, view: map<NSKey, string>, r: Round, hash: string -> int): map<NSKey, string> {
    Replay(view, Emits(st, r, hash), r.now)
  }

  function Shown(view: map<NSKey, string>, nk: NSKey): string { if nk in view then view[nk] else "" }

  /** The hashes the poller compares with are those of what the subscriber holds. */
  ghost predicate Tracks(st: PollState, view: map<NSKey, string>, hash: string -> int) {
    && (forall nk :: nk in view ==> view[nk] != "")
    && forall nk :: nk in st.seen ==> st.seen[nk] == hash(Shown(view, nk))
  }

  lemma ValidTracks(st: PollState, c: Collection, hash: string -> int)
    requires WellFormed(c) && Valid(st, c, hash)
    ensures Tracks(st, Live(c), hash)
  {
  }

  /** A live document stamped below the watermark is one the view holds, value for value. */
  predicate OnTimeAt(view: map<NSKey, string>, now: Collection, watermark: int, nk: NSKey) {
    nk in Live(now) && now[nk].updatedAt < watermark ==> Look(view, nk) == Look(Live(now), nk)
  }

  ghost predicate OnTime(view: map<NSKey, string>, now: Collection, watermark: int) {
    forall nk :: OnTimeAt(view, now, watermark, nk)
  }

  /** A key the view holds and the collection no longer has left a tombstone, or the diff of this round knows it. */
  predicate NotLostAt(st: PollState, view: map<NSKey, string>, r: Round, nk: NSKey) {
    nk in view && nk !in Live(r.now) ==> TombstoneIn(r.docs, nk) || (r.diffed && !st.first && nk in st.known)
  }

  ghost predicate NoneLost(st: PollState, view: map<NSKey, string>, r: Round) {
    forall nk :: NotLostAt(st, view, r, nk)
  }

  /** What one round leaves a subscriber with for one key. */
  lemma RoundAt(st: PollState, view: map<NSKey, string>, r: Round, hash: string -> int, nk: NSKey)
    requires Injective(hash) && Tracks(st, view, hash) && Happens(st, r, hash)
    ensures Look(Heard(st, view, r, hash), nk) == Look(Live(r.now), nk)
      <==> OnTimeAt(view, r.now, st.watermark, nk) && NotLostAt(st, view, r, nk)
    ensures Look(Heard(st, view, r, hash), nk) in {Look(Live(r.now), nk), Look(view, nk)}
  {
    hide Replay, Scan, Injective, Tracks;
    ScanIsTruthful(st, r.docs, hash, r.now);
    ReplayAt(view, Emits(st, r, hash), r.now, nk);
    EmitsNames(st, r, hash, nk);
    ScanNames(st, r.docs, hash, nk);
    if Emitted(st, r.docs, hash, nk) {
      var i :| 0 <= i < |r.docs| && r.docs[i].nk == nk && !DedupHit(st, r.docs[i], hash(r.docs[i].doc.value));
    } else if Named(r.deletes, nk) {
      DeletedIsNotLive(st, r, hash, nk);
    } else {
      UnnamedAt(st, view, r, hash, nk);
    }
  }

  lemma DeletedIsNotLive(st: PollState, r: Round, hash: string -> int, nk: NSKey)
    requires Happens(st, r, hash) && Named(r.deletes, nk)
    ensures nk !in Live(r.now) && r.diffed && !st.first && nk in st.known
  {
    var i :| 0 <= i < |r.deletes| && r.deletes[i].nk == nk;
  }

  lemma MissingIsNamed(st: PollState, r: Round, hash: string -> int, nk: NSKey)
    requires Happens(st, r, hash) && r.diffed && !st.first && nk in st.known
    requires nk !in Live(r.now) && !TombstoneIn(r.docs, nk)
    ensures Named(r.deletes, nk)
  {
    hide Scan;
    ScanScans(st, r.docs, hash);
    assert Delete(nk) in r.deletes;
    var i :| 0 <= i < |r.deletes| && r.deletes[i] == Delete(nk);
    assert r.deletes[i].nk == nk;
  }

  lemma {:induction false} EmitsNames(st: PollState, r: Round, hash: string -> int, nk: NSKey)
    ensures Named(Emits(st, r, hash), nk) <==> Named(Scan(st, r.docs, hash).events, nk) || Named(r.deletes, nk)
  {
    hide Scan;
    var es := Scan(st, r.docs, hash).events;
    if Named(es, nk) {
      var i :| 0 <= i < |es| && es[i].nk == nk;
      assert Emits(st, r, hash)[i].nk == nk;
    }
    if Named(r.deletes, nk) {
      var i :| 0 <= i < |r.deletes| && r.deletes[i].nk == nk;
      assert Emits(st, r, hash)[|es| + i].nk == nk;
    }
    if Named(Emits(st, r, hash), nk) {
      var i :| 0 <= i < |Emits(st, r, hash)| && Emits(st, r, hash)[i].nk == nk;
      if i < |es| { assert es[i].nk == nk; } else { assert r.deletes[i - |es|].nk == nk; }
    }
  }

  /** A key the round says nothing about: the view is right unless a late stamp hid its change, or its removal did. */
  lemma UnnamedAt(st: PollState, view: map<NSKey, string>, r: Round, hash: string -> int, nk: NSKey)
    requires Injective(hash) && Tracks(st, view, hash) && Happens(st, r, hash)
    requires !Emitted(st, r.docs, hash, nk) && !Named(r.deletes, nk)
    ensures Look(view, nk) == Look(Live(r.now), nk)
      <==> OnTimeAt(view, r.now, st.watermark, nk) && NotLostAt(st, view, r, nk)
  {
    hide Scan;
    if nk in r.now && r.now[nk].updatedAt >= st.watermark {
      assert Found(nk, r.now[nk]) in r.docs;
      var i :| 0 <= i < |r.docs| && r.docs[i] == Found(nk, r.now[nk]);
      assert DedupHit(st, r.docs[i], hash(r.docs[i].doc.value));
      assert Shown(view, nk) == r.now[nk].value;
    } else if nk !in Live(r.now) {
      assert !TombstoneIn(r.docs, nk);
      if r.diffed && !st.first && nk in st.known { MissingIsNamed(st, r, hash, nk); }
    }
  }

  /**
   One round, exactly. Whatever was written, rewritten, tombstoned or removed outright since, and however many
   diffs were skipped before, replaying the round's events gives what is live now if and only if no live document
   the view does not hold is stamped below the watermark, and every key the view holds that is gone was either
   tombstoned in the answer or is among the keys a diff of this round compares with.
   */
  lemma RoundExactly(st: PollState, view: map<NSKey, string>, r: Round, hash: string -> int)
    requires Injective(hash) && Tracks(st, view, hash) && Happens(st, r, hash)
    ensures Heard(st, view, r, hash) == Live(r.now)
      <==> OnTime(view, r.now, st.watermark) && NoneLost(st, view, r)
    ensures Tracks(Following(st, r, hash), Heard(st, view, r, hash), hash)
  {
    hide Happens, Heard, OnTimeAt, NotLostAt, Tracks, Injective, Following;
    var after := Heard(st, view, r, hash);
    forall nk ensures Look(after, nk) == Look(Live(r.now), nk)
      <==> OnTimeAt(view, r.now, st.watermark, nk) && NotLostAt(st, view, r, nk)
    {
      RoundAt(st, view, r, hash, nk);
    }
    if OnTime(view, r.now, st.watermark) && NoneLost(st, view, r) {
      forall nk ensures Look(after, nk) == Look(Live(r.now), nk) {}
      SameLooks(after, Live(r.now));
    }
    TracksKept(st, view, r, hash);
  }

  lemma TracksKept(st: PollState, view: map<NSKey, string>, r: Round, hash: string -> int)
    requires Injective(hash) && Tracks(st, view, hash) && Happens(st, r, hash)
    ensures Tracks(Following(st, r, hash), Heard(st, view, r, hash), hash)
  {
    hide Scan, Heard, Injective, Emits, Following, OnTimeAt, NotLostAt;
    var after, next := Heard(st, view, r, hash), Following(st, r, hash);
    forall nk | nk in after ensures after[nk] != "" { RoundAt(st, view, r, hash, nk); }
    forall nk | nk in next.seen ensures next.seen[nk] == hash(Shown(after, nk)) { SeenIsShown(st, view, r, hash, nk); }
  }

  lemma SeenIsShown(st: PollState, view: map<NSKey, string>, r: Round, hash: string -> int, nk: NSKey)
    requires Injective(hash) && Tracks(st, view, hash) && Happens(st, r, hash)
    requires nk in Following(st, r, hash).seen
    ensures Following(st, r, hash).seen[nk] == hash(Shown(Heard(st, view, r, hash), nk))
  {
    hide Scan, Heard, Injective, Emits, Tracks;
    var next := Following(st, r, hash);
    ScanScans(st, r.docs, hash);
    assert SeenFrom(r.docs, nk, next.watermark);
    var i :| 0 <= i < |r.docs| && r.docs[i].nk == nk && r.docs[i].doc.updatedAt == next.watermark;
    RoundAt(st, view, r, hash, nk);
  }

  lemma SameLooks(a: map<NSKey, string>, b: map<NSKey, string>)
    requires forall nk :: Look(a, nk) == Look(b, nk)
    ensures a == b
  {
    forall nk ensures (nk in a <==> nk in b) && (nk in a ==> a[nk] == b[nk]) { assert Look(a, nk) == Look(b, nk); }
  }

  /**
   The poller equals the full diff: from a completed round, a round that gets its key set leaves the subscriber
   with what is live now exactly when no live document that the view does not hold was stamped below the watermark.
   */
  lemma RoundEqualsFullDiff(st: PollState, before: Collection, r: Round, hash: string -> int)
    requires Injective(hash) && WellFormed(before) && Valid(st, before, hash) && Happens(st, r, hash) && r.diffed
    ensures Heard(st, Live(before), r, hash) == Live(r.now) <==> OnTime(Live(before), r.now, st.watermark)
    ensures Valid(Following(st, r, hash), r.now, hash)
  {
    hide Scan, Heard, OnTimeAt, Injective;
    ValidTracks(st, before, hash);
    RoundExactly(st, Live(before), r, hash);
    RoundLeavesValid(st, r.now, r.docs, hash);
  }

  // ----- What a round says, and what it does not -----

  /** Written since: stamped above the watermark, or at it and not as the last completed round found it there. */
  predicate WrittenSince(before: Collection, now: Collection, watermark: int, nk: NSKey) {
    nk in now &&
    (now[nk].updatedAt > watermark
     || (now[nk].updatedAt == watermark
         && !(nk in before && before[nk].updatedAt == watermark && before[nk].value == now[nk].value)))
  }

  /** Gone without a trace the query could find: live in the last completed round, and now no fresh tombstone even. */
  predicate Vanished(before: Collection, now: Collection, watermark: int, nk: NSKey) {
    nk in before && !before[nk].deleted && (nk !in now || (now[nk].deleted && now[nk].updatedAt < watermark))
  }

  /** A live document is reported with its own revision, a tombstone without one. */
  predicate Reports(e: Event, found: Found) {
    if found.doc.deleted then e == Delete(found.nk) else e == Upsert(found.nk, found.doc.revision)
  }

  /** An upsert names a live document and its revision, a delete a key that has none. */
  predicate IsTrue(e: Event, now: Collection) {
    if e.nk in Live(now) then e == Upsert(e.nk, now[e.nk].revision) else e == Delete(e.nk)
  }

  /** Where in the answer each event of a scan comes from. */
  lemma {:induction false} ScanReports(st: PollState, docs: seq<Found>, hash: string -> int) returns (from: seq<nat>)
    ensures var es := Scan(st, docs, hash).events;
      && |from| == |es|
      && (forall i :: 0 <= i < |es| ==> from[i] < |docs| && Reports(es[i], docs[from[i]]))
      && forall i, j :: 0 <= i < j < |es| ==> from[i] < from[j]
    decreases |docs|
  {
    hide DedupHit;
    if |docs| == 0 { return []; }
    var front, last := docs[..|docs| - 1], docs[|docs| - 1];
    from := ScanReports(st, front, hash);
    if !DedupHit(st, last, hash(last.doc.value)) { from := from + [|docs| - 1]; }
  }

  predicate NamedOnce(events: seq<Event>) {
    forall i, j :: 0 <= i < j < |events| ==> events[i].nk != events[j].nk
  }

  /** In the order of the stamps of the documents they name. */
  predicate ByStamp(events: seq<Event>, now: Collection) {
    forall i, j :: 0 <= i < j < |events| && events[i].nk in now && events[j].nk in now ==>
      now[events[i].nk].updatedAt <= now[events[j].nk].updatedAt
  }

  lemma {:induction false} ScanNamesOnce(st: PollState, r: Round, hash: string -> int)
    requires Happens(st, r, hash)
    ensures NamedOnce(Scan(st, r.docs, hash).events)
    ensures forall e :: e in Scan(st, r.docs, hash).events ==>
      e.nk in r.now && r.now[e.nk].updatedAt >= st.watermark && IsTrue(e, r.now)
    ensures ByStamp(Scan(st, r.docs, hash).events, r.now)
  {
    hide Scan, Announces;
    var from := ScanReports(st, r.docs, hash);
  }

  lemma DeletesAreVanished(st: PollState, before: Collection, r: Round, hash: string -> int, nk: NSKey)
    requires Valid(st, before, hash) && Happens(st, r, hash)
    ensures Named(r.deletes, nk) <==> r.diffed && Vanished(before, r.now, st.watermark, nk)
  {
    hide Scan;
    ScanScans(st, r.docs, hash);
    assert nk in r.now && r.now[nk].updatedAt >= st.watermark ==> Found(nk, r.now[nk]) in r.docs;
    if Named(r.deletes, nk) {
      DeletedIsNotLive(st, r, hash, nk);
      var i :| 0 <= i < |r.deletes| && r.deletes[i].nk == nk;
      assert !TombstoneIn(r.docs, nk);
    }
    if r.diffed && Vanished(before, r.now, st.watermark, nk) { MissingIsNamed(st, r, hash, nk); }
  }

  lemma EmittedIsWritten(st: PollState, before: Collection, r: Round, hash: string -> int, nk: NSKey)
    requires Injective(hash) && Valid(st, before, hash) && Happens(st, r, hash)
    ensures Emitted(st, r.docs, hash, nk) <==> WrittenSince(before, r.now, st.watermark, nk)
  {
    hide Scan, Announces;
    if Emitted(st, r.docs, hash, nk) {
      var i :| 0 <= i < |r.docs| && r.docs[i].nk == nk && !DedupHit(st, r.docs[i], hash(r.docs[i].doc.value));
    }
    if WrittenSince(before, r.now, st.watermark, nk) {
      assert Found(nk, r.now[nk]) in r.docs;
      var i :| 0 <= i < |r.docs| && r.docs[i] == Found(nk, r.now[nk]);
      assert !DedupHit(st, r.docs[i], hash(r.docs[i].doc.value));
    }
  }

  /**
   What a round says, exactly. From a completed round, whatever happened to the collection since: a key is named if
   and only if its document was written since, or the diff ran and it is gone without a trace. It is named once; as
   an upsert at its document's own revision if it is live, as a delete otherwise; the written ones in the order of
   their stamps, before the vanished ones.
   */
  lemma RoundSaysExactly(st: PollState, before: Collection, r: Round, hash: string -> int)
    requires Injective(hash) && Valid(st, before, hash) && Happens(st, r, hash)
    ensures forall nk :: Named(Emits(st, r, hash), nk) <==> HasNews(before, r, st.watermark, nk)
    ensures NamedOnce(Emits(st, r, hash))
    ensures forall e :: e in Emits(st, r, hash) ==> IsTrue(e, r.now)
    ensures exists n :: 0 <= n <= |Emits(st, r, hash)| && WrittenFirst(Emits(st, r, hash), before, r, st.watermark, n)
  {
    hide Scan, Announces, Emitted, Injective, Valid, Answers, WrittenSince, Vanished, Named, NamedOnce, ByStamp;
    var es, all := Scan(st, r.docs, hash).events, Emits(st, r, hash);
    ScanNamesOnce(st, r, hash);
    assert all[..|es|] == es;
    forall nk
      ensures Named(es, nk) <==> WrittenSince(before, r.now, st.watermark, nk)
      ensures Named(r.deletes, nk) <==> r.diffed && Vanished(before, r.now, st.watermark, nk)
      ensures Named(all, nk) <==> Named(es, nk) || Named(r.deletes, nk)
    {
      ScanNames(st, r.docs, hash, nk);
      EmittedIsWritten(st, before, r, hash, nk);
      DeletesAreVanished(st, before, r, hash, nk);
      EmitsNames(st, r, hash, nk);
    }
    SaysOnce(st, before, r, hash);
    assert WrittenFirst(all, before, r, st.watermark, |es|);
    forall e | e in all ensures IsTrue(e, r.now) {
      if e !in es { DeletesAreNotLive(st, r, hash, e); }
    }
  }

  lemma DeletesAreNotLive(st: PollState, r: Round, hash: string -> int, e: Event)
    requires Happens(st, r, hash) && e in r.deletes
    ensures e == Delete(e.nk) && e.nk !in Live(r.now)
  {
  }

  predicate HasNews(before: Collection, r: Round, watermark: int, nk: NSKey) {
    WrittenSince(before, r.now, watermark, nk) || (r.diffed && Vanished(before, r.now, watermark, nk))
  }

  /** The first `n` events name the documents written since, oldest stamp first. */
  predicate WrittenFirst(events: seq<Event>, before: Collection, r: Round, watermark: int, n: nat)
    requires n <= |events|
  {
    && ByStamp(events[..n], r.now)
    && forall i :: 0 <= i < |events| ==> (i < n <==> WrittenSince(before, r.now, watermark, events[i].nk))
  }

  lemma NeverBoth(before: Collection, now: Collection, watermark: int, nk: NSKey)
    ensures !(WrittenSince(before, now, watermark, nk) && Vanished(before, now, watermark, nk))
  {
  }

  lemma {:induction false} SaysOnce(st: PollState, before: Collection, r: Round, hash: string -> int)
    requires Happens(st, r, hash) && NamedOnce(Scan(st, r.docs, hash).events)
    requires forall nk :: Named(Scan(st, r.docs, hash).events, nk) <==> WrittenSince(before, r.now, st.watermark, nk)
    requires forall nk :: Named(r.deletes, nk) <==> r.diffed && Vanished(before, r.now, st.watermark, nk)
    ensures NamedOnce(Emits(st, r, hash))
    ensures forall i :: 0 <= i < |Emits(st, r, hash)| ==>
      (WrittenSince(before, r.now, st.watermark, Emits(st, r, hash)[i].nk) <==> i < |Scan(st, r.docs, hash).events|)
  {
    hide Scan, Answers, WrittenSince, Vanished;
    var es, all := Scan(st, r.docs, hash).events, Emits(st, r, hash);
    forall i | 0 <= i < |all|
      ensures i < |es| ==> WrittenSince(before, r.now, st.watermark, all[i].nk)
      ensures i >= |es| ==> !WrittenSince(before, r.now, st.watermark, all[i].nk)
    {
      NeverBoth(before, r.now, st.watermark, all[i].nk);
      if i < |es| { assert Named(es, es[i].nk); } else { assert Named(r.deletes, r.deletes[i - |es|].nk); }
    }
  }

  /** An idle round says nothing, on this tick or any later one: the collection is as a completed round left it. */
  lemma IdleRoundIsSilent(st: PollState, c: Collection, r: Round, hash: string -> int)
    requires Injective(hash) && Valid(st, c, hash) && Happens(st, r, hash) && r.now == c
    ensures Emits(st, r, hash) == [] && Valid(Following(st, r, hash), c, hash)
  {
    hide Scan, Emits, Announces;
    RoundSaysExactly(st, c, r, hash);
    assert Emits(st, r, hash) != [] ==> Named(Emits(st, r, hash), Emits(st, r, hash)[0].nk);
    RoundLeavesValid(st, c, r.docs, hash);
  }

  // ----- Round after round -----

  ghost predicate Rounds(st: PollState, rounds: seq<Round>, hash: string -> int)
    decreases |rounds|
  {
    |rounds| > 0 ==>
      Happens(st, rounds[0], hash) && Rounds(Following(st, rounds[0], hash), rounds[1..], hash)
  }

  ghost function StateAfter(st: PollState, rounds: seq<Round>, hash: string -> int): PollState
    decreases |rounds|
  {
    if |rounds| == 0 then st else StateAfter(Following(st, rounds[0], hash), rounds[1..], hash)
  }

  ghost function ReplayAll(st: PollState, view: map<NSKey, string>, rounds: seq<Round>, hash: string -> int)
    : map<NSKey, string>
    decreases |rounds|
  {
    if |rounds| == 0 then view
    else ReplayAll(Following(st, rounds[0], hash), Heard(st, view, rounds[0], hash), rounds[1..], hash)
  }

  lemma {:induction false} RunTracks(st: PollState, view: map<NSKey, string>, rounds: seq<Round>, hash: string -> int)
    requires Injective(hash) && Tracks(st, view, hash) && Rounds(st, rounds, hash)
    ensures Tracks(StateAfter(st, rounds, hash), ReplayAll(st, view, rounds, hash), hash)
    decreases |rounds|
  {
    hide Happens, Following, Heard, Tracks, Injective;
    if |rounds| > 0 {
      RoundExactly(st, view, rounds[0], hash);
      RunTracks(Following(st, rounds[0], hash), Heard(st, view, rounds[0], hash), rounds[1..], hash);
    }
  }

  /** After any mix of completed rounds and rounds whose diff was skipped, what the next round does is known exactly. */
  lemma {:induction false} AnyMixExactly(
      st: PollState, before: Collection, rounds: seq<Round>, r: Round, hash: string -> int)
    requires Injective(hash) && WellFormed(before) && Valid(st, before, hash)
    requires Rounds(st, rounds, hash) && Happens(StateAfter(st, rounds, hash), r, hash)
    ensures var now, view := StateAfter(st, rounds, hash), ReplayAll(st, Live(before), rounds, hash);
      Heard(now, view, r, hash) == Live(r.now) <==> OnTime(view, r.now, now.watermark) && NoneLost(now, view, r)
  {
    hide Happens, Following, Heard, Tracks, Injective, OnTime, NoneLost;
    ValidTracks(st, before, hash);
    RunTracks(st, Live(before), rounds, hash);
    RoundExactly(StateAfter(st, rounds, hash), ReplayAll(st, Live(before), rounds, hash), r, hash);
  }

  ghost predicate Follows(st: PollState, before: Collection, rounds: seq<Round>, hash: string -> int)
    decreases |rounds|
  {
    |rounds| > 0 ==>
      && Happens(st, rounds[0], hash) && rounds[0].diffed && OnTime(Live(before), rounds[0].now, st.watermark)
      && Follows(Following(st, rounds[0], hash), rounds[0].now, rounds[1..], hash)
  }

  /** A subscriber that started from one completed round stays equal to the collection, for as long as it listens. */
  lemma {:induction false} PollingConverges(
      st: PollState, before: Collection, rounds: seq<Round>, hash: string -> int)
    requires Injective(hash) && WellFormed(before) && Valid(st, before, hash) && Follows(st, before, rounds, hash)
    ensures ReplayAll(st, Live(before), rounds, hash) == Live(if rounds == [] then before else rounds[|rounds| - 1].now)
    decreases |rounds|
  {
    hide Valid, Happens, OnTime, Heard, Following, Injective;
    if |rounds| > 0 {
      RoundEqualsFullDiff(st, before, rounds[0], hash);
      NowIsWellFormed(st, rounds[0], hash);
      PollingConverges(Following(st, rounds[0], hash), rounds[0].now, rounds[1..], hash);
    }
  }

  lemma NowIsWellFormed(st: PollState, r: Round, hash: string -> int)
    requires Happens(st, r, hash)
    ensures WellFormed(r.now)
  {
  }

  // ----- A skipped diff -----

  /** The round reported the key, which the last completed round did not have. */
  predicate Born(st: PollState, r: Round, hash: string -> int, nk: NSKey) {
    nk !in st.known && nk in Live(r.now) && Emitted(st, r.docs, hash, nk)
  }

  lemma BornIsHeard(st: PollState, before: Collection, r: Round, hash: string -> int, nk: NSKey)
    requires Valid(st, before, hash) && Happens(st, r, hash) && !r.diffed
    ensures nk in Heard(st, Live(before), r, hash) && nk !in st.known <==> Born(st, r, hash, nk)
    ensures Born(st, r, hash, nk) ==> Heard(st, Live(before), r, hash)[nk] == Live(r.now)[nk]
  {
    hide Scan, Replay;
    ScanIsTruthful(st, r.docs, hash, r.now);
    ReplayAt(Live(before), Emits(st, r, hash), r.now, nk);
    EmitsNames(st, r, hash, nk);
    ScanNames(st, r.docs, hash, nk);
  }

  /**
   A round whose key set could not be read, and the round after it. The subscriber ends with what is live if and
   only if the live documents stamped below the watermark are as it holds them, and every key it first heard of in
   the skipped round is still live or has left a tombstone in the second answer.
   */
  lemma SkippedDiffExactly(st: PollState, before: Collection, skipped: Round, r: Round, hash: string -> int)
    requires Injective(hash) && WellFormed(before) && Valid(st, before, hash)
    requires Happens(st, skipped, hash) && !skipped.diffed
    requires Happens(Following(st, skipped, hash), r, hash) && r.diffed
    ensures var next, view := Following(st, skipped, hash), Heard(st, Live(before), skipped, hash);
      Heard(next, view, r, hash) == Live(r.now)
      <==> OnTime(view, r.now, next.watermark)
           && forall nk :: Born(st, skipped, hash, nk) ==> nk in Live(r.now) || TombstoneIn(r.docs, nk)
  {
    hide Scan, Heard, Happens, Emitted, TombstoneIn, OnTime, Injective, Tracks;
    var next, view := Following(st, skipped, hash), Heard(st, Live(before), skipped, hash);
    ValidTracks(st, before, hash);
    RoundExactly(st, Live(before), skipped, hash);
    RoundExactly(next, view, r, hash);
    forall nk
      ensures NotLostAt(next, view, r, nk)
        <==> (Born(st, skipped, hash, nk) ==> nk in Live(r.now) || TombstoneIn(r.docs, nk))
    {
      BornIsHeard(st, before, skipped, hash, nk);
    }
    assert NoneLost(next, view, r)
      <==> forall nk :: Born(st, skipped, hash, nk) ==> nk in Live(r.now) || TombstoneIn(r.docs, nk);
  }

  lemma {:induction false} NeverNamed(
      st: PollState, view: map<NSKey, string>, rounds: seq<Round>, hash: string -> int, nk: NSKey)
    requires Rounds(st, rounds, hash) && !st.first && nk !in st.known
    requires forall i :: 0 <= i < |rounds| ==> nk !in rounds[i].now
    ensures Look(ReplayAll(st, view, rounds, hash), nk) == Look(view, nk)
    decreases |rounds|
  {
    hide Happens, Heard, Scan;
    if |rounds| > 0 {
      AbsentIsUnnamed(st, view, rounds[0], hash, nk);
      forall i | 0 <= i < |rounds[1..]| ensures nk !in rounds[1..][i].now { assert rounds[1..][i] == rounds[i + 1]; }
      NeverNamed(Following(st, rounds[0], hash), Heard(st, view, rounds[0], hash), rounds[1..], hash, nk);
    }
  }

  lemma AbsentIsUnnamed(st: PollState, view: map<NSKey, string>, r: Round, hash: string -> int, nk: NSKey)
    requires Happens(st, r, hash) && nk !in st.known && nk !in r.now
    ensures Look(Heard(st, view, r, hash), nk) == Look(view, nk)
  {
    hide Scan, Replay;
    ScanIsTruthful(st, r.docs, hash, r.now);
    ReplayAt(view, Emits(st, r, hash), r.now, nk);
    EmitsNames(st, r, hash, nk);
    ScanNames(st, r.docs, hash, nk);
  }

  /**
   And it is never made good: a key first heard of in a round whose diff was skipped, and removed outright before
   the next round, stays in the subscriber's view through every later round, completed or not, for as long as the
   collection lacks it.
   */
  lemma {:induction false} SkippedDiffLosesADelete(
      st: PollState, before: Collection, skipped: Round, rounds: seq<Round>, hash: string -> int, nk: NSKey)
    requires Valid(st, before, hash) && Happens(st, skipped, hash) && !skipped.diffed && Born(st, skipped, hash, nk)
    requires Rounds(Following(st, skipped, hash), rounds, hash)
    requires forall i :: 0 <= i < |rounds| ==> nk !in rounds[i].now
    ensures var view := ReplayAll(Following(st, skipped, hash), Heard(st, Live(before), skipped, hash), rounds, hash);
      nk in view && view[nk] == skipped.now[nk].value
  {
    hide Happens, Heard, Scan, ReplayAll, Rounds, Emitted;
    BornIsHeard(st, before, skipped, hash, nk);
    NeverNamed(Following(st, skipped, hash), Heard(st, Live(before), skipped, hash), rounds, hash, nk);
  }

  /** Such rounds exist: one document, written and removed outright around a round that skips its diff. */
  lemma ALostDelete(nk: NSKey, doc: Doc, hash: string -> int) returns (st: PollState, skipped: Round, r: Round)
    requires !doc.deleted && doc.value != ""
    ensures Valid(st, map[], hash) && Happens(st, skipped, hash) && !skipped.diffed && Born(st, skipped, hash, nk)
    ensures Happens(Following(st, skipped, hash), r, hash) && r.diffed && r.now == map[]
  {
    st := PollState(doc.updatedAt - 1, {}, map[], false);
    skipped := Round(map[nk := doc], [Found(nk, doc)], false, []);
    r := Round(map[], [], true, []);
    assert Found(nk, doc) == skipped.docs[0];
    assert Live(map[]) == map[];
    assert Missing(Following(st, skipped, hash), Live(r.now).Keys,
      Scan(Following(st, skipped, hash), [], hash).tombstoned) == {};
  }
}
