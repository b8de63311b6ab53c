/**
 The state of one tracked scope as a value, and what each critical section of the engine does to it.
 Every function here is the effect of ONE lock hold (reconcileMu, mu, or both); the class ScopeState
 implements them in place and the module Protocol interleaves them.
 */
module Fence {
  import opened Types

  /** The two counters a changefeed re-read compares across its store call. */
  datatype KeyFence = KeyFence(deletes: nat, publications: nat)

  /** What a re-read carries across its store call; a local write carries Unarmed. */
  datatype FeedFence = Unarmed | Armed(seen: KeyFence)

  /** One reconcile's own pair of fences. */
  datatype Window = Window(touched: set<NSKey>, unusable: set<NSKey>)

  /** What arming hands the reconcile that follows it: its window and the connection it must still see. */
  datatype Arming = Arming(reconcile: nat, disconnect: nat)

  /** The single-slot reconcile mailbox. */
  datatype Slot = Vacant | Full(arm: Arming)

  datatype Scope = Scope(
    entries: map<NSKey, Entry>,
    fences: map<NSKey, KeyFence>,
    stale: bool,
    unconfirmed: set<NSKey>,
    disconnectGen: nat,
    reconcileGen: nat,
    windows: map<nat, Window>,
    pending: Slot,
    signal: bool,
    gone: bool)  // the engine closed or the scope was dropped: publish refuses

  /** A scope starts stale and with an empty cache. */
  const NewScope := Scope(map[], map[], true, {}, 0, 0, map[], Vacant, false, false)

  // ----- The revision fence -----

  /** The five outcomes of the fence; only Store notifies. */
  datatype Verdict = Store | Refuse | SameBytes | SameValue

  function Grade(cached: Option<Entry>, pub: Publication): Verdict {
    if cached.None? || pub.revision == 0 || pub.revision > cached.value.revision then Store
    else if pub.revision < cached.value.revision then Refuse
    else if |pub.raw| > 0 && pub.raw == cached.value.raw then SameBytes
    else if pub.value == cached.value.value then SameValue
    else Store
  }

  /** The cache entry the fence leaves behind. */
  function Fenced(cached: Option<Entry>, pub: Publication): Entry {
    match Grade(cached, pub)
    case Store => EntryOf(pub)
    case Refuse => cached.value
    case SameBytes => cached.value.(updatedAt := pub.updatedAt, updatedBy := pub.updatedBy)
    case SameValue =>
      cached.value.(raw := if |pub.raw| > 0 then pub.raw else cached.value.raw,
                    updatedAt := pub.updatedAt, updatedBy := pub.updatedBy)
  }

  function Cached(sc: Scope, nk: NSKey): Option<Entry> {
    if nk in sc.entries then Some(sc.entries[nk]) else None
  }

  function FenceFor(sc: Scope, nk: NSKey): KeyFence {
    if nk in sc.fences then sc.fences[nk] else KeyFence(0, 0)
  }

  predicate Notifies(sc: Scope, pub: Publication) {
    !sc.gone && Grade(Cached(sc, pub.key), pub) == Store
  }

  /** publish: the only writer of the cache. A gone scope takes nothing at all. */
  function Publish(sc: Scope, pub: Publication): (r: Scope)
    ensures r == sc.(entries := r.entries, fences := r.fences, unconfirmed := r.unconfirmed)
  {
    if sc.gone then sc else
    var nk := pub.key;
    var kept := sc.(unconfirmed := sc.unconfirmed - {nk},
                    entries := sc.entries[nk := Fenced(Cached(sc, nk), pub)]);
    if Grade(Cached(sc, nk), pub) == Store then
      var f := FenceFor(sc, nk);
      kept.(fences := sc.fences[nk := KeyFence(f.deletes + (if pub.deleted then 1 else 0), f.publications + 1)])
    else kept
  }

  /**
   The half of publish under the lock, for a publication already past the gate: a stop since then is not asked for.
   */
  function Stored(sc: Scope, pub: Publication): Scope {
    Publish(sc.(gone := false), pub).(gone := sc.gone)
  }

  predicate SupersededByDelete(sc: Scope, nk: NSKey, fence: FeedFence) {
    fence.Armed? && FenceFor(sc, nk).deletes != fence.seen.deletes
  }

  predicate SupersededByPublication(sc: Scope, nk: NSKey, fence: FeedFence) {
    fence.Armed? && FenceFor(sc, nk) != fence.seen
  }

  // ----- The reconcile windows -----

  function RecordIn(w: Window, nk: NSKey, usable: bool): Window {
    if usable then Window(w.touched + {nk}, w.unusable - {nk}) else Window(w.touched, w.unusable + {nk})
  }

  /** record: nk's outcome goes into EVERY open window. */
  function Record(sc: Scope, nk: NSKey, usable: bool): (r: Scope)
    ensures r == sc.(windows := r.windows) && r.windows.Keys == sc.windows.Keys
  {
    sc.(windows := map g | g in sc.windows :: RecordIn(sc.windows[g], nk, usable))
  }

  /** The fences of one reconcile; a closed window fences nothing. */
  function WindowOf(sc: Scope, g: nat): Window {
    if g in sc.windows then sc.windows[g] else Window({}, {})
  }

  /** armReconcile: stale, a fresh window under a new generation, and the mailbox, in one step. */
  function Arm(sc: Scope): Scope {
    var g := sc.reconcileGen + 1;
    sc.(stale := true, reconcileGen := g, windows := sc.windows[g := Window({}, {})],
        pending := Full(Arming(g, sc.disconnectGen)), signal := true)
  }

  function CloseWindow(sc: Scope, g: nat): Scope {
    sc.(windows := sc.windows - {g})
  }

  function ClearStale(sc: Scope, arm: Arming): Scope {
    if sc.reconcileGen == arm.reconcile && sc.disconnectGen == arm.disconnect then sc.(stale := false) else sc
  }

  function MarkStale(sc: Scope): Scope {
    sc.(stale := true, disconnectGen := sc.disconnectGen + 1)
  }

  // ----- The ingresses -----

  /** The locked half of ingest: check, publish and record are one step. `pub` is None for a refused row. */
  predicate Publishable(sc: Scope, nk: NSKey, fence: FeedFence, pub: Option<Publication>) {
    pub.Some? && !SupersededByDelete(sc, nk, fence) && !sc.gone
  }

  function Ingest(sc: Scope, nk: NSKey, fence: FeedFence, pub: Option<Publication>): Scope {
    var ok := Publishable(sc, nk, fence, pub);
    Record(if ok then Publish(sc, pub.value) else sc, nk, ok)
  }

  /** The changefeed reported nk's row gone: fenced at arrival, decided later by a re-read. */
  function FeedDelete(sc: Scope, nk: NSKey): Scope {
    var f := FenceFor(sc, nk);
    Record(sc, nk, true).(fences := sc.fences[nk := f.(deletes := f.deletes + 1)])
  }

  /** publishAbsentDelete: a delete's re-read came back empty. */
  function AbsentDelete(sc: Scope, nk: NSKey, fence: FeedFence, def: Value): Scope {
    if SupersededByPublication(sc, nk, fence) || sc.gone then sc
    else Record(Publish(sc, DefaultPublication(nk, def, false)), nk, true)
  }

  /** PublishDelete: the caller's own Delete, which counts the delete itself. */
  function LocalDelete(sc: Scope, nk: NSKey, def: Value): Scope {
    if sc.gone then sc else Record(Publish(sc, DefaultPublication(nk, def, true)), nk, true)
  }

  /** What preparing one snapshot row said about it. */
  datatype Prepared = Usable(value: Value) | Unregistered | Rejected

  predicate TakesRow(sc: Scope, arm: Arming, nk: NSKey) {
    sc.reconcileGen == arm.reconcile && nk !in WindowOf(sc, arm.reconcile).touched
  }

  /** applySnapshotRow; a superseded arming or a touched key changes nothing. */
  function SnapshotRow(sc: Scope, arm: Arming, nk: NSKey, row: Row, prepared: Prepared, def: Option<Value>): (r: Scope)
    ensures r == sc.(entries := r.entries, fences := r.fences, unconfirmed := r.unconfirmed)
    ensures r.entries != sc.entries ==> sc.reconcileGen == arm.reconcile
  {
    if !TakesRow(sc, arm, nk) then sc else
    match prepared
    case Usable(v) =>
      var done := Publish(sc, RowPublication(nk, row, v));
      if nk in WindowOf(sc, arm.reconcile).unusable then done.(unconfirmed := done.unconfirmed + {nk}) else done
    case Unregistered => sc
    case Rejected =>
      if nk !in sc.entries && def.Some? then Publish(sc, DefaultPublication(nk, def.value, false)) else sc
  }

  /** keepsCachedValue: absence from the photograph must not reset this key. */
  predicate KeepsCached(sc: Scope, arm: Arming, nk: NSKey, def: Value) {
    var w := WindowOf(sc, arm.reconcile);
    nk in w.touched || (nk in sc.entries && (nk in w.unusable || AgreesWithDefault(sc, nk, def)))
  }

  predicate AgreesWithDefault(sc: Scope, nk: NSKey, def: Value) {
    nk in sc.entries && sc.entries[nk].revision == 0 && sc.entries[nk].value == def
  }

  /** The absence was itself the answer, so it confirms the key. */
  predicate AbsenceAgrees(sc: Scope, arm: Arming, nk: NSKey, def: Value) {
    var w := WindowOf(sc, arm.reconcile);
    nk !in w.touched && nk !in w.unusable && AgreesWithDefault(sc, nk, def)
  }

  /** applyAbsentKey */
  function AbsentKey(sc: Scope, arm: Arming, nk: NSKey, def: Value): (r: Scope)
    ensures r == sc.(entries := r.entries, fences := r.fences, unconfirmed := r.unconfirmed)
    ensures r.entries != sc.entries ==> sc.reconcileGen == arm.reconcile
  {
    if sc.reconcileGen != arm.reconcile then sc
    else if KeepsCached(sc, arm, nk, def) then
      if AbsenceAgrees(sc, arm, nk, def) then sc.(unconfirmed := sc.unconfirmed - {nk}) else sc
    else Publish(sc, DefaultPublication(nk, def, false))
  }

  /** The terminal verdict of a repair that ran out of attempts. */
  function RecordUnconfirmed(sc: Scope, nk: NSKey, origin: FeedFence): Scope {
    if SupersededByPublication(sc, nk, origin) then sc else sc.(unconfirmed := sc.unconfirmed + {nk})
  }

  // ----- The read path -----

  /** What a caller is handed for one key: the cached entry or a miss, and whether to trust it. */
  datatype Look = Look(entry: Option<Entry>, stale: bool)

  function Lookup(sc: Scope, nk: NSKey): Look {
    Look(Cached(sc, nk), sc.stale || nk in sc.unconfirmed)
  }
}
