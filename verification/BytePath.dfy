/** The fence's raw-bytes shortcut against a fence that only ever compares decoded values. */
module BytePath {
  import opened Types
  import opened Fence

  /** A publication whose bytes, when it carries any, are a spelling of its value. */
  predicate Coherent(decode: Bytes -> Option<Value>, pub: Publication) {
    |pub.raw| > 0 ==> decode(pub.raw) == Some(pub.value)
  }

  predicate Spelled(decode: Bytes -> Option<Value>, cached: Option<Entry>) {
    cached.Some? && |cached.value.raw| > 0 ==> decode(cached.value.raw) == Some(cached.value.value)
  }

  predicate AllSpelled(decode: Bytes -> Option<Value>, entries: map<NSKey, Entry>) {
    forall nk :: nk in entries && |entries[nk].raw| > 0 ==> decode(entries[nk].raw) == Some(entries[nk].value)
  }

  /** The value fence: whether the publication is stored and announced, and the entry it leaves. */
  predicate ValueStores(cached: Option<Entry>, pub: Publication) {
    cached.None? || pub.revision == 0 || pub.revision > cached.value.revision
    || (pub.revision == cached.value.revision && pub.value != cached.value.value)
  }

  function ValueFenced(cached: Option<Entry>, pub: Publication): Entry {
    if ValueStores(cached, pub) then Entry(pub.value, pub.raw, pub.revision, pub.updatedAt, pub.updatedBy)
    else if pub.revision < cached.value.revision then cached.value
    else cached.value.(raw := if |pub.raw| > 0 then pub.raw else cached.value.raw,
                       updatedAt := pub.updatedAt, updatedBy := pub.updatedBy)
  }

  /** Two different documents under the same non-empty bytes and the same non-zero revision. */
  predicate Misspelled(cached: Option<Entry>, pub: Publication) {
    && cached.Some? && pub.revision != 0 && pub.revision == cached.value.revision
    && |pub.raw| > 0 && pub.raw == cached.value.raw && pub.value != cached.value.value
  }

  /** The shortcut decides as the value fence does, down to the last field, exactly when nothing is misspelled. */
  lemma ShortcutExact(cached: Option<Entry>, pub: Publication)
    ensures (Grade(cached, pub) == Store <==> ValueStores(cached, pub)) <==> !Misspelled(cached, pub)
    ensures !Misspelled(cached, pub) ==> Fenced(cached, pub) == ValueFenced(cached, pub)
  {
  }

  lemma CoherentNeverMisspelled(decode: Bytes -> Option<Value>, cached: Option<Entry>, pub: Publication)
    requires Coherent(decode, pub) && Spelled(decode, cached)
    ensures !Misspelled(cached, pub)
    ensures Spelled(decode, Some(Fenced(cached, pub)))
  {
  }

  function Replay(sc: Scope, pubs: seq<Publication>): Scope {
    if |pubs| == 0 then sc else Publish(Replay(sc, pubs[..|pubs| - 1]), pubs[|pubs| - 1])
  }

  /** What publish answered, publication by publication. */
  function Notices(sc: Scope, pubs: seq<Publication>): seq<bool> {
    if |pubs| == 0 then []
    else Notices(sc, pubs[..|pubs| - 1]) + [Notifies(Replay(sc, pubs[..|pubs| - 1]), pubs[|pubs| - 1])]
  }

  function ValueReplay(entries: map<NSKey, Entry>, pubs: seq<Publication>): map<NSKey, Entry> {
    if |pubs| == 0 then entries
    else
      var before, pub := ValueReplay(entries, pubs[..|pubs| - 1]), pubs[|pubs| - 1];
      before[pub.key := ValueFenced(if pub.key in before then Some(before[pub.key]) else None, pub)]
  }

  function ValueNotices(entries: map<NSKey, Entry>, pubs: seq<Publication>): seq<bool> {
    if |pubs| == 0 then []
    else
      var before, pub := ValueReplay(entries, pubs[..|pubs| - 1]), pubs[|pubs| - 1];
      ValueNotices(entries, pubs[..|pubs| - 1])
      + [ValueStores(if pub.key in before then Some(before[pub.key]) else None, pub)]
  }

  /**
   Over any sequence of coherent publications the shortcut is invisible: the same answers and the same cache,
   bytes and provenance included; and cached bytes always decode to the cached value.
   */
  lemma {:induction false} ShortcutRefinesValueFence(decode: Bytes -> Option<Value>, sc: Scope, pubs: seq<Publication>)
    requires !sc.gone && AllSpelled(decode, sc.entries)
    requires forall i :: 0 <= i < |pubs| ==> Coherent(decode, pubs[i])
    ensures Replay(sc, pubs).entries == ValueReplay(sc.entries, pubs)
    ensures Notices(sc, pubs) == ValueNotices(sc.entries, pubs)
    ensures AllSpelled(decode, Replay(sc, pubs).entries) && !Replay(sc, pubs).gone
  {
    hide Grade, Fenced, ValueStores, ValueFenced, Misspelled;
    if |pubs| > 0 {
      var front, pub := pubs[..|pubs| - 1], pubs[|pubs| - 1];
      ShortcutRefinesValueFence(decode, sc, front);
      var before := Replay(sc, front);
      assert Coherent(decode, pub);
      CoherentNeverMisspelled(decode, Cached(before, pub.key), pub);
      ShortcutExact(Cached(before, pub.key), pub);
    }
  }
}
