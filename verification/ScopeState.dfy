/** One tracked scope as the engine keeps it: fields updated in place, each method one lock hold. */
module ScopeState {
  import opened Types
  import opened Fence
  import Photograph

  class ScopeState {
    var entries: map<NSKey, Entry>
    var fences: map<NSKey, KeyFence>
    var stale: bool
    var unconfirmed: set<NSKey>
    var disconnectGen: nat
    var reconcileGen: nat
    var windows: map<nat, Window>
    var resyncPending: Slot
    var resyncSignal: bool
    var engineClosed: bool
    var reconcileStop: bool

    ghost function View(): Scope
      reads this
    {
      Scope(entries, fences, stale, unconfirmed, disconnectGen, reconcileGen, windows, resyncPending, resyncSignal,
            engineClosed || reconcileStop)
    }

    constructor ()
      ensures View() == NewScope
    {
      entries, fences, unconfirmed, windows := map[], map[], {}, map[];
      stale, disconnectGen, reconcileGen := true, 0, 0;
      resyncPending, resyncSignal := Vacant, false;
      engineClosed, reconcileStop := false, false;
    }

    // ----- publish.go -----

    /**
     The gate, read before the lock is taken, and then the store. With nothing in between, a dropped publication
     decides nothing and caches nothing; a stop that falls in between is too late (StopAfterTheGate).
     */
    method Publish(pub: Publication) returns (notify: bool, dropped: bool)
      modifies this`entries, this`fences, this`unconfirmed
      ensures View() == Fence.Publish(old(View()), pub)
      ensures notify == Notifies(old(View()), pub)
      ensures dropped == old(View()).gone
    {
      if engineClosed || reconcileStop { return false, true; }
      notify := StorePublication(pub);
      return notify, false;
    }

    /** The locked half: the fence and the only writer of the cache. It no longer asks whether the scope was stopped. */
    method StorePublication(pub: Publication) returns (notify: bool)
      modifies this`entries, this`fences, this`unconfirmed
      ensures View() == Stored(old(View()), pub)
      ensures notify == (Grade(Cached(old(View()), pub.key), pub) == Store)
    {
      var nk := pub.key;
      unconfirmed := unconfirmed - {nk};
      if nk in entries && pub.revision != 0 && pub.revision <= entries[nk].revision {
        var cached := entries[nk];
        if pub.revision < cached.revision { assert entries == entries[nk := cached]; return false; }
        if |pub.raw| > 0 && pub.raw == cached.raw {
          entries := entries[nk := cached.(updatedAt := pub.updatedAt, updatedBy := pub.updatedBy)];
          return false;
        }
        if pub.value == cached.value {
          if |pub.raw| > 0 { cached := cached.(raw := pub.raw); }
          entries := entries[nk := cached.(updatedAt := pub.updatedAt, updatedBy := pub.updatedBy)];
          return false;
        }
      }
      entries := entries[nk := EntryOf(pub)];
      var fence := if nk in fences then fences[nk] else KeyFence(0, 0);
      fence := fence.(publications := fence.publications + 1);
      if pub.deleted { fence := fence.(deletes := fence.deletes + 1); }
      fences := fences[nk := fence];
      return true;
    }

    // ----- scope.go -----

    method FenceFor(nk: NSKey) returns (fence: FeedFence)
      ensures fence == Armed(Fence.FenceFor(View(), nk))
    {
      fence := Armed(if nk in fences then fences[nk] else KeyFence(0, 0));
    }

    method SupersededByDelete(nk: NSKey, fence: FeedFence) returns (superseded: bool)
      ensures superseded == Fence.SupersededByDelete(View(), nk, fence)
    {
      if fence.Unarmed? { return false; }
      var now := if nk in fences then fences[nk] else KeyFence(0, 0);
      superseded := now.deletes != fence.seen.deletes;
    }

    method SupersededByPublication(nk: NSKey, fence: FeedFence) returns (superseded: bool)
      ensures superseded == Fence.SupersededByPublication(View(), nk, fence)
    {
      if fence.Unarmed? { return false; }
      var now := if nk in fences then fences[nk] else KeyFence(0, 0);
      superseded := now != fence.seen;
    }

    method RecordUnconfirmed(nk: NSKey, origin: FeedFence)
      modifies this`unconfirmed
      ensures View() == Fence.RecordUnconfirmed(old(View()), nk, origin)
    {
      var decided := SupersededByPublication(nk, origin);
      if !decided { unconfirmed := unconfirmed + {nk}; }
    }

    method ArmReconcile() returns (displaced: Slot)
      modifies this`stale, this`reconcileGen, this`windows, this`resyncPending, this`resyncSignal
      ensures View() == Arm(old(View()))
      ensures displaced == old(resyncPending)
    {
      stale := true;
      reconcileGen := reconcileGen + 1;
      windows := windows[reconcileGen := Window({}, {})];
      displaced, resyncPending := resyncPending, Full(Arming(reconcileGen, disconnectGen));
      resyncSignal := true;
    }

    method TakeReconcile() returns (arm: Slot)
      modifies this`resyncPending
      ensures arm == old(resyncPending) && View() == old(View()).(pending := Vacant)
    {
      arm := resyncPending;
      resyncPending := Vacant;
    }

    // ----- reconcile.go -----

    /** One outcome into every open window. */
    method Record(nk: NSKey, usable: bool)
      modifies this`windows
      ensures View() == Fence.Record(old(View()), nk, usable)
    {
      var open := windows.Keys;
      while open != {}
        invariant open <= windows.Keys == old(windows).Keys
        invariant forall g :: g in open ==> windows[g] == old(windows)[g]
        invariant forall g :: g in windows && g !in open ==> windows[g] == RecordIn(old(windows)[g], nk, usable)
      {
        var g :| g in open;
        var window := windows[g];
        if usable {
          window := Window(window.touched + {nk}, window.unusable - {nk});
        } else {
          window := window.(unusable := window.unusable + {nk});
        }
        windows := windows[g := window];
        open := open - {g};
      }
      assert windows == Fence.Record(old(View()), nk, usable).windows;
    }

    method CloseWindow(arm: Arming)
      modifies this`windows
      ensures View() == Fence.CloseWindow(old(View()), arm.reconcile)
    {
      windows := windows - {arm.reconcile};
    }

    method ClearStale(arm: Arming)
      modifies this`stale
      ensures View() == Fence.ClearStale(old(View()), arm)
    {
      if reconcileGen != arm.reconcile { return; }
      if disconnectGen == arm.disconnect { stale := false; }
    }

    method KeepsCachedValue(arm: Arming, nk: NSKey, def: Value) returns (keep: bool, agreed: bool)
      ensures keep == KeepsCached(View(), arm, nk, def)
      ensures agreed == AbsenceAgrees(View(), arm, nk, def)
    {
      var window := if arm.reconcile in windows then windows[arm.reconcile] else Window({}, {});
      if nk in window.touched { return true, false; }
      if nk !in entries { return false, false; }
      if nk in window.unusable { return true, false; }
      agreed := entries[nk].revision == 0 && entries[nk].value == def;
      keep := agreed;
    }

    method ApplySnapshotRow(arm: Arming, nk: NSKey, row: Row, prepared: Prepared, def: Option<Value>)
      returns (superseded: bool)
      modifies this`entries, this`fences, this`unconfirmed
      ensures View() == SnapshotRow(old(View()), arm, nk, row, prepared, def)
      ensures superseded == (reconcileGen != arm.reconcile)
    {
      if reconcileGen != arm.reconcile { return true; }
      var window := if arm.reconcile in windows then windows[arm.reconcile] else Window({}, {});
      if nk in window.touched { return false; }
      if prepared.Usable? {
        var _, _ := Publish(RowPublication(nk, row, prepared.value));
        if nk in window.unusable { unconfirmed := unconfirmed + {nk}; }
        return false;
      }
      if prepared.Unregistered? { return false; }
      if nk !in entries && def.Some? {
        var _, _ := Publish(DefaultPublication(nk, def.value, false));
      }
      return false;
    }

    method ApplyAbsentKey(arm: Arming, nk: NSKey, def: Value) returns (superseded: bool)
      modifies this`entries, this`fences, this`unconfirmed
      ensures View() == AbsentKey(old(View()), arm, nk, def)
      ensures superseded == (reconcileGen != arm.reconcile)
    {
      if reconcileGen != arm.reconcile { return true; }
      var keep, agreed := KeepsCachedValue(arm, nk, def);
      if keep {
        if agreed { unconfirmed := unconfirmed - {nk}; }
        return false;
      }
      var _, _ := Publish(DefaultPublication(nk, def, false));
      return false;
    }

    /** applyScope, past its List and with no other ingress in between: one lock hold per row, one per absent key. */
    method ApplyScope(arm: Arming, rows: seq<Photograph.Listed>, keys: seq<NSKey>, reg: Photograph.Registry)
      returns (superseded: bool)
      requires forall nk :: nk in keys ==> nk in reg.defaults
      modifies this`entries, this`fences, this`unconfirmed, this`stale
      ensures View() == Photograph.Apply(old(View()), arm, rows, keys, reg)
      ensures superseded == (reconcileGen != arm.reconcile)
    {
      if reconcileGen != arm.reconcile { return true; }
      var seen: set<NSKey> := {};
      for i := 0 to |rows|
        invariant View() == Photograph.ApplyRows(old(View()), arm, rows[..i], reg)
        invariant seen == Photograph.Keys(rows[..i])
        invariant stale == old(stale)
      {
        var nk := rows[i].nk;
        seen := seen + {nk};
        Photograph.KeysOfNext(rows, i);
        var _ := ApplySnapshotRow(arm, nk, rows[i].row, reg.prepare(nk, rows[i].row), Photograph.Default(reg, nk));
        assert rows[..i + 1][..i] == rows[..i];
      }
      assert rows[..|rows|] == rows;
      ghost var listed := View();
      for i := 0 to |keys|
        invariant View() == Photograph.ApplyAbsents(listed, arm, keys[..i], seen, reg)
        invariant stale == old(stale)
      {
        if keys[i] !in seen {
          var _ := ApplyAbsentKey(arm, keys[i], reg.defaults[keys[i]]);
        }
        assert keys[..i + 1][..i] == keys[..i];
      }
      assert keys[..|keys|] == keys;
      ClearStale(arm);
      return false;
    }

    // ----- ingest.go, feed.go -----

    /** The locked half of ingest: the check, the publication and the recorded outcome are one step. */
    method FinishIngest(nk: NSKey, fence: FeedFence, pub: Option<Publication>) returns (ok: bool)
      requires pub.Some? ==> pub.value.key == nk
      modifies this`entries, this`fences, this`unconfirmed, this`windows
      ensures View() == Ingest(old(View()), nk, fence, pub)
      ensures ok == Publishable(old(View()), nk, fence, pub)
    {
      ok := false;
      if pub.Some? {
        var superseded := SupersededByDelete(nk, fence);
        if !superseded {
          var _, dropped := Publish(pub.value);
          ok := !dropped;
        }
      }
      Record(nk, ok);
    }

    method RecordFeedDelete(nk: NSKey)
      modifies this`fences, this`windows
      ensures View() == FeedDelete(old(View()), nk)
    {
      Record(nk, true);
      var fence := if nk in fences then fences[nk] else KeyFence(0, 0);
      fences := fences[nk := fence.(deletes := fence.deletes + 1)];
    }

    method PublishAbsentDelete(nk: NSKey, fence: FeedFence, def: Value)
      modifies this`entries, this`fences, this`unconfirmed, this`windows
      ensures View() == AbsentDelete(old(View()), nk, fence, def)
    {
      var superseded := SupersededByPublication(nk, fence);
      if superseded { return; }
      var notify, _ := Publish(DefaultPublication(nk, def, false));
      if notify { Record(nk, true); }
    }

    method PublishDelete(nk: NSKey, def: Value) returns (refused: bool)
      modifies this`entries, this`fences, this`unconfirmed, this`windows
      ensures View() == LocalDelete(old(View()), nk, def) && refused == old(View()).gone
      ensures !refused ==> nk in entries && entries[nk] == EntryOf(DefaultPublication(nk, def, true))
    {
      var notify, dropped := Publish(DefaultPublication(nk, def, true));
      if dropped { return true; }
      if notify { Record(nk, true); }
      return false;
    }

    method Disconnected()
      modifies this`stale, this`disconnectGen
      ensures View() == MarkStale(old(View()))
    {
      stale := true;
      disconnectGen := disconnectGen + 1;
    }

    // ----- engine.go -----

    /** Entry and freshness are read in one lock hold, and a miss carries the freshness too. */
    method Lookup(nk: NSKey) returns (entry: Option<Entry>, doubtful: bool)
      ensures entry == Fence.Lookup(View(), nk).entry && doubtful == Fence.Lookup(View(), nk).stale
    {
      doubtful := stale || nk in unconfirmed;
      if nk !in entries { return None, doubtful; }
      return Some(entries[nk]), doubtful;
    }
  }

  /**
   A scope stopped between a publisher's gate and its store takes the publication all the same, and is left as if
   the stop had come right after it. So a system in which the gate and the store are one step misses no outcome.
   */
  lemma StopAfterTheGate(sc: Scope, pub: Publication)
    requires !sc.gone
    ensures Stored(sc.(gone := true), pub) == Fence.Publish(sc, pub).(gone := true)
    ensures Fence.Publish(sc.(gone := true), pub) == sc.(gone := true)
  {
    assert sc.(gone := true).(gone := false) == sc;
  }
}
