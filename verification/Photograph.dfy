/** One reconcile's photograph applied from start to end, and what it leaves when nothing disturbs it. */
module Photograph {
  import opened Types
  import opened Fence

  datatype Listed = Listed(nk: NSKey, row: Row)

  /** What the consumer registered: a default per key, and how a row of it decodes and validates. */
  datatype Registry = Registry(defaults: map<NSKey, Value>, prepare: (NSKey, Row) -> Prepared)

  predicate Consistent(reg: Registry, rows: seq<Listed>) {
    forall i :: 0 <= i < |rows| ==>
      (reg.prepare(rows[i].nk, rows[i].row).Unregistered? <==> rows[i].nk !in reg.defaults)
  }

  predicate Distinct(rows: seq<Listed>) {
    forall i, j :: 0 <= i < j < |rows| ==> rows[i].nk != rows[j].nk
  }

  function Default(reg: Registry, nk: NSKey): Option<Value> {
    if nk in reg.defaults then Some(reg.defaults[nk]) else None
  }

  /** The row loop, in List order. */
  function ApplyRows(sc: Scope, arm: Arming, rows: seq<Listed>, reg: Registry): Scope {
    if |rows| == 0 then sc
    else
      var before := ApplyRows(sc, arm, rows[..|rows| - 1], reg);
      var last := rows[|rows| - 1];
      SnapshotRow(before, arm, last.nk, last.row, reg.prepare(last.nk, last.row), Default(reg, last.nk))
  }

  function Keys(rows: seq<Listed>): set<NSKey> {
    set i | 0 <= i < |rows| :: rows[i].nk
  }

  lemma KeysOfNext(rows: seq<Listed>, i: nat)
    requires i < |rows|
    ensures Keys(rows[..i + 1]) == Keys(rows[..i]) + {rows[i].nk}
  {
    forall k | k in Keys(rows[..i + 1]) ensures k in Keys(rows[..i]) + {rows[i].nk} {
      var j :| 0 <= j < i + 1 && rows[j].nk == k;
      if j < i { assert rows[..i][j].nk == k; }
    }
    forall k | k in Keys(rows[..i]) + {rows[i].nk} ensures k in Keys(rows[..i + 1]) {
      if k in Keys(rows[..i]) {
        var j :| 0 <= j < i && rows[..i][j].nk == k;
        assert rows[..i + 1][j].nk == k;
      } else {
        assert rows[..i + 1][i].nk == k;
      }
    }
  }

  /** The loop over registered keys, skipping the ones the photograph carried. */
  function ApplyAbsents(sc: Scope, arm: Arming, keys: seq<NSKey>, seen: set<NSKey>, reg: Registry): Scope
    requires forall nk :: nk in keys ==> nk in reg.defaults
  {
    if |keys| == 0 then sc
    else
      var before := ApplyAbsents(sc, arm, keys[..|keys| - 1], seen, reg);
      var last := keys[|keys| - 1];
      if last in seen then before else AbsentKey(before, arm, last, reg.defaults[last])
  }

  /** applyScope, past its List. */
  function Apply(sc: Scope, arm: Arming, rows: seq<Listed>, keys: seq<NSKey>, reg: Registry): Scope
    requires forall nk :: nk in keys ==> nk in reg.defaults
  {
    if sc.reconcileGen != arm.reconcile then sc
    else ClearStale(ApplyAbsents(ApplyRows(sc, arm, rows, reg), arm, keys, Keys(rows), reg), arm)
  }

  // ----- The specification, key by key -----

  function RowOf(rows: seq<Listed>, nk: NSKey): Option<Row> {
    if |rows| == 0 then None
    else if rows[|rows| - 1].nk == nk then Some(rows[|rows| - 1].row)
    else RowOf(rows[..|rows| - 1], nk)
  }

  lemma {:induction false} RowOfIsListed(rows: seq<Listed>, nk: NSKey)
    ensures RowOf(rows, nk).Some? <==> nk in Keys(rows)
    ensures RowOf(rows, nk).Some? ==> Listed(nk, RowOf(rows, nk).value) in rows
  {
    if |rows| > 0 {
      var front := rows[..|rows| - 1];
      RowOfIsListed(front, nk);
      KeysOfNext(rows, |rows| - 1);
      assert rows[..|rows|] == rows;
    }
  }

  predicate IsDefault(cached: Option<Entry>, def: Value) {
    cached.Some? && cached.value.revision == 0 && cached.value.value == def
  }

  /**
   What an undisturbed reconcile leaves cached for a key: the fenced row; for a refused row the value already
   in force, or the default if there is none; for an absent key the default at revision 0.
   */
  function Settled(cached: Option<Entry>, nk: NSKey, row: Option<Row>, reg: Registry): Option<Entry> {
    if nk !in reg.defaults then cached
    else
      var fallback := Some(EntryOf(DefaultPublication(nk, reg.defaults[nk], false)));
      match row
      case None => if IsDefault(cached, reg.defaults[nk]) then cached else fallback
      case Some(r) =>
        match reg.prepare(nk, r)
        case Usable(v) => Some(Fenced(cached, RowPublication(nk, r, v)))
        case _ => if cached.None? then fallback else cached
  }

  /** Whether subscribers of the key are told. */
  predicate Announced(cached: Option<Entry>, nk: NSKey, row: Option<Row>, reg: Registry) {
    nk in reg.defaults &&
    match row
    case None => !IsDefault(cached, reg.defaults[nk])
    case Some(r) =>
      match reg.prepare(nk, r)
      case Usable(v) => Grade(cached, RowPublication(nk, r, v)) == Store
      case _ => cached.None?
  }

  /** No feed outcome in the window, and nothing newer owns the scope. */
  predicate Quiet(sc: Scope, arm: Arming) {
    !sc.gone && sc.reconcileGen == arm.reconcile && WindowOf(sc, arm.reconcile) == Window({}, {})
  }

  function Publications(sc: Scope, nk: NSKey): nat { FenceFor(sc, nk).publications }

  function Bump(b: bool): nat { if b then 1 else 0 }

  lemma {:induction false} RowsSettle(sc: Scope, arm: Arming, rows: seq<Listed>, reg: Registry, nk: NSKey)
    requires Quiet(sc, arm) && Distinct(rows) && Consistent(reg, rows)
    ensures var r := ApplyRows(sc, arm, rows, reg);
      && Quiet(r, arm)
      && (nk in Keys(rows) ==>
            && Cached(r, nk) == Settled(Cached(sc, nk), nk, RowOf(rows, nk), reg)
            && Publications(r, nk) == Publications(sc, nk) + Bump(Announced(Cached(sc, nk), nk, RowOf(rows, nk), reg)))
      && (nk !in Keys(rows) ==> Cached(r, nk) == Cached(sc, nk) && Publications(r, nk) == Publications(sc, nk))
  {
    if |rows| > 0 {
      var front, last := rows[..|rows| - 1], rows[|rows| - 1];
      assert Consistent(reg, front);
      RowsSettle(sc, arm, front, reg, nk);
      RowOfIsListed(rows, nk);
      RowOfIsListed(front, nk);
      KeysOfNext(rows, |rows| - 1);
      assert rows[..|rows|] == rows && last.nk !in Keys(front);
      RowSettles(ApplyRows(sc, arm, front, reg), arm, last, reg, nk);
    }
  }

  lemma PublishSettles(sc: Scope, pub: Publication, nk: NSKey)
    requires !sc.gone
    ensures var r := Publish(sc, pub);
      && (nk == pub.key ==>
            && Cached(r, nk) == Some(Fenced(Cached(sc, nk), pub))
            && Publications(r, nk) == Publications(sc, nk) + Bump(Grade(Cached(sc, nk), pub) == Store))
      && (nk != pub.key ==> Cached(r, nk) == Cached(sc, nk) && Publications(r, nk) == Publications(sc, nk))
  {
    hide Grade, Fenced;
  }

  lemma RowSettles(sc: Scope, arm: Arming, l: Listed, reg: Registry, nk: NSKey)
    requires Quiet(sc, arm) && (reg.prepare(l.nk, l.row).Unregistered? <==> l.nk !in reg.defaults)
    ensures var r := SnapshotRow(sc, arm, l.nk, l.row, reg.prepare(l.nk, l.row), Default(reg, l.nk));
      && Quiet(r, arm)
      && (nk == l.nk ==>
            && Cached(r, nk) == Settled(Cached(sc, nk), nk, Some(l.row), reg)
            && Publications(r, nk) == Publications(sc, nk) + Bump(Announced(Cached(sc, nk), nk, Some(l.row), reg)))
      && (nk != l.nk ==> Cached(r, nk) == Cached(sc, nk) && Publications(r, nk) == Publications(sc, nk))
  {
    hide Publish, Publications;
    var prepared := reg.prepare(l.nk, l.row);
    match prepared {
      case Usable(v) => PublishSettles(sc, RowPublication(l.nk, l.row, v), nk);
      case Unregistered =>
      case Rejected => PublishSettles(sc, DefaultPublication(l.nk, reg.defaults[l.nk], false), nk);
    }
  }

  lemma {:induction false} AbsentsSettle(
      sc: Scope, arm: Arming, keys: seq<NSKey>, seen: set<NSKey>, reg: Registry, nk: NSKey)
    requires Quiet(sc, arm) && forall k :: k in keys ==> k in reg.defaults
    ensures var r := ApplyAbsents(sc, arm, keys, seen, reg);
      && Quiet(r, arm)
      && (nk in keys && nk !in seen ==>
            && Cached(r, nk) == Settled(Cached(sc, nk), nk, None, reg)
            && Publications(r, nk) == Publications(sc, nk) + Bump(Announced(Cached(sc, nk), nk, None, reg)))
      && (nk !in keys || nk in seen ==> Cached(r, nk) == Cached(sc, nk) && Publications(r, nk) == Publications(sc, nk))
  {
    if |keys| > 0 {
      var front, last := keys[..|keys| - 1], keys[|keys| - 1];
      assert keys == front + [last];
      AbsentsSettle(sc, arm, front, seen, reg, nk);
      AbsenceSettles(ApplyAbsents(sc, arm, front, seen, reg), arm, last, reg, nk);
    }
  }

  lemma AbsenceSettles(sc: Scope, arm: Arming, key: NSKey, reg: Registry, nk: NSKey)
    requires Quiet(sc, arm) && key in reg.defaults
    ensures var r := AbsentKey(sc, arm, key, reg.defaults[key]);
      && Quiet(r, arm)
      && (nk == key ==>
            && Cached(r, nk) == Settled(Cached(sc, nk), nk, None, reg)
            && Publications(r, nk) == Publications(sc, nk) + Bump(Announced(Cached(sc, nk), nk, None, reg)))
      && (nk != key ==> Cached(r, nk) == Cached(sc, nk) && Publications(r, nk) == Publications(sc, nk))
  {
    hide Publish;
    PublishSettles(sc, DefaultPublication(key, reg.defaults[key], false), nk);
  }

  /** The two loops of applyScope meet the specification for every key, in whatever order List returned the rows. */
  lemma {:induction false} QuietReconcileSettles(
      sc: Scope, arm: Arming, rows: seq<Listed>, keys: seq<NSKey>, reg: Registry, nk: NSKey)
    requires Quiet(sc, arm) && Distinct(rows) && Consistent(reg, rows)
    requires forall k :: k in keys <==> k in reg.defaults
    ensures var r := Apply(sc, arm, rows, keys, reg);
      && Cached(r, nk) == Settled(Cached(sc, nk), nk, RowOf(rows, nk), reg)
      && Publications(r, nk) == Publications(sc, nk) + Bump(Announced(Cached(sc, nk), nk, RowOf(rows, nk), reg))
  {
    hide SnapshotRow, AbsentKey, Fenced, Grade;
    RowsSettle(sc, arm, rows, reg, nk);
    AbsentsSettle(ApplyRows(sc, arm, rows, reg), arm, keys, Keys(rows), reg, nk);
    RowOfIsListed(rows, nk);
    if nk in Keys(rows) {
      var i :| 0 <= i < |rows| && rows[i].nk == nk;
    }
  }

  /** All but what is kept per key is the same. */
  predicate SameFrame(sc: Scope, sc': Scope) {
    sc' == sc.(entries := sc'.entries, fences := sc'.fences, unconfirmed := sc'.unconfirmed)
  }

  lemma {:induction false} LoopsKeepFrame(
      sc: Scope, arm: Arming, rows: seq<Listed>, keys: seq<NSKey>, seen: set<NSKey>, reg: Registry)
    requires forall k :: k in keys ==> k in reg.defaults
    ensures SameFrame(sc, ApplyRows(sc, arm, rows, reg)) && SameFrame(sc, ApplyAbsents(sc, arm, keys, seen, reg))
    decreases |rows|, |keys|
  {
    hide SnapshotRow, AbsentKey;
    if |rows| > 0 { LoopsKeepFrame(sc, arm, rows[..|rows| - 1], keys, seen, reg); }
    if |keys| > 0 {
      assert keys == keys[..|keys| - 1] + [keys[|keys| - 1]];
      LoopsKeepFrame(sc, arm, rows, keys[..|keys| - 1], seen, reg);
    }
  }

  /**
   What a reconcile does to its scope, disturbed before or not: nothing if a newer one was armed; otherwise it moves
   what is kept per key, and the scope stops being stale exactly if nothing disconnected since it armed.
   */
  lemma ReconcileEndsStaleness(sc: Scope, arm: Arming, rows: seq<Listed>, keys: seq<NSKey>, reg: Registry)
    requires forall k :: k in keys ==> k in reg.defaults
    ensures var r := Apply(sc, arm, rows, keys, reg);
      if sc.reconcileGen != arm.reconcile then r == sc
      else SameFrame(sc.(stale := sc.stale && sc.disconnectGen != arm.disconnect), r)
  {
    hide ApplyRows, ApplyAbsents;
    var listed := ApplyRows(sc, arm, rows, reg);
    LoopsKeepFrame(sc, arm, rows, [], {}, reg);
    LoopsKeepFrame(listed, arm, [], keys, Keys(rows), reg);
  }

  /** A key's entry a second look at the same row would leave as it is. */
  lemma SettledIsStable(cached: Option<Entry>, nk: NSKey, row: Option<Row>, reg: Registry)
    ensures var once := Settled(cached, nk, row, reg);
      var twice := Settled(once, nk, row, reg);
      (once.Some? <==> twice.Some?)
      && (once.Some? ==> twice.value.revision == once.value.revision && twice.value.value == once.value.value)
      && (Announced(once, nk, row, reg) <==>
            nk in reg.defaults && row.Some? && reg.prepare(nk, row.value).Usable? && row.value.revision == 0)
  {
  }

  /**
   A second reconcile over the same photograph, however much later it is armed, changes no value and no
   revision; and it stays silent exactly for the keys whose usable row does not carry revision 0.
   */
  lemma {:induction false} SecondReconcileIsIdle(first: Scope, arm1: Arming, second: Scope, arm2: Arming,
                              rows: seq<Listed>, keys: seq<NSKey>, reg: Registry, nk: NSKey)
    requires Quiet(first, arm1) && Quiet(second, arm2) && Distinct(rows) && Consistent(reg, rows)
    requires forall k :: k in keys <==> k in reg.defaults
    requires second.entries == Apply(first, arm1, rows, keys, reg).entries
    ensures var r := Apply(second, arm2, rows, keys, reg);
      && (nk in r.entries <==> nk in second.entries)
      && (nk in second.entries ==>
            r.entries[nk].value == second.entries[nk].value && r.entries[nk].revision == second.entries[nk].revision)
      && (Publications(r, nk) == Publications(second, nk) <==>
            !(nk in reg.defaults && RowOf(rows, nk).Some? && reg.prepare(nk, RowOf(rows, nk).value).Usable?
              && RowOf(rows, nk).value.revision == 0))
  {
    hide Apply, Settled, Announced;
    QuietReconcileSettles(first, arm1, rows, keys, reg, nk);
    QuietReconcileSettles(second, arm2, rows, keys, reg, nk);
    SettledIsStable(Cached(first, nk), nk, RowOf(rows, nk), reg);
    RowOfIsListed(rows, nk);
    assert Cached(second, nk) == Cached(Apply(first, arm1, rows, keys, reg), nk);
  }
}
