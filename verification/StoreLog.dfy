/** Facts about the store's log: what a snapshot can have seen, and how revisions climb. */
module StoreLog {
  import opened Types
  import opened Protocol

  /** An earlier read point sees the same rows however the log grows afterwards. */
  lemma SnapshotStable(log: seq<StoreOp>, more: seq<StoreOp>, at: nat)
    requires at <= |log|
    ensures RowsAt(log + more, at) == RowsAt(log, at)
  {
    assert (log + more)[..at] == log[..at];
  }

  predicate Wrote(log: seq<StoreOp>, i: nat, nk: NSKey, revision: int) {
    i < |log| && log[i].Write? && log[i].key == nk && log[i].row.revision == revision
  }

  /** A key's row revisions are positive, and only rewriting the live row may keep one; every other write climbs. */
  ghost predicate Rising(log: seq<StoreOp>, nk: NSKey) {
    forall i {:trigger log[i]} :: 0 <= i < |log| && log[i].Write? && log[i].key == nk ==> Climbs(log, i, nk, log[i].row)
  }

  ghost predicate Climbs(log: seq<StoreOp>, i: nat, nk: NSKey, row: Row)
    requires i < |log|
  {
    row.revision > 0 &&
    ((nk in RowsAt(log, i) && RowsAt(log, i)[nk].revision == row.revision)
     || forall j :: 0 <= j < i && log[j].Write? && log[j].key == nk ==> log[j].row.revision < row.revision)
  }

  lemma RisingBefore(log: seq<StoreOp>, op: StoreOp, nk: NSKey)
    requires Rising(log + [op], nk)
    ensures Rising(log, nk)
  {
    var longer := log + [op];
    forall i | 0 <= i < |log| && log[i].Write? && log[i].key == nk ensures Climbs(log, i, nk, log[i].row) {
      assert longer[i] == log[i];
      assert Climbs(longer, i, nk, log[i].row);
      SnapshotStable(log, [op], i);
      forall j | 0 <= j < i ensures longer[j] == log[j] {}
    }
  }

  lemma {:induction false} LiveRowWasWritten(log: seq<StoreOp>, from: nat, at: nat, nk: NSKey) returns (j: nat)
    requires from <= at <= |log| && nk !in RowsAt(log, from) && nk in RowsAt(log, at)
    ensures from <= j < at && log[j] == Write(nk, RowsAt(log, at)[nk])
  {
    assert log[..at][..at - 1] == log[..at - 1];
    if log[at - 1] == Write(nk, RowsAt(log, at)[nk]) {
      j := at - 1;
    } else {
      j := LiveRowWasWritten(log, from, at - 1, nk);
    }
  }

  lemma {:induction false} RowWasWritten(log: seq<StoreOp>, at: nat, nk: NSKey) returns (j: nat)
    requires at <= |log| && nk in RowsAt(log, at)
    ensures j < at && log[j] == Write(nk, RowsAt(log, at)[nk])
  {
    assert log[..0] == [];
    j := LiveRowWasWritten(log, 0, at, nk);
  }

  /** A row still there: written before `from` and not removed since, every later snapshot has it. */
  lemma {:induction false} StillThere(log: seq<StoreOp>, from: nat, at: nat, nk: NSKey)
    requires 0 < from <= at <= |log| && log[from - 1].Write? && log[from - 1].key == nk
    requires NotRemovedSince(log, nk, from)
    ensures nk in RowsAt(log, at)
  {
    assert log[..at][..at - 1] == log[..at - 1];
    if at > from { StillThere(log, from, at - 1, nk); }
  }

  /** A key found absent comes back above everything it had before. */
  lemma {:induction false} RecreatedHigher(log: seq<StoreOp>, i: nat, at: nat, j: nat, nk: NSKey, revision: int)
    requires Rising(log, nk) && i < at <= j < |log| && Wrote(log, i, nk, revision)
    requires nk !in RowsAt(log, at) && log[j].Write? && log[j].key == nk
    ensures log[j].row.revision > revision
    decreases j
  {
    assert Climbs(log, j, nk, log[j].row);
    if nk in RowsAt(log, j) && RowsAt(log, j)[nk].revision == log[j].row.revision {
      var live := LiveRowWasWritten(log, at, j, nk);
      RecreatedHigher(log, i, at, live, nk, revision);
    }
  }

  /** The live row carries the highest revision its key ever had. */
  lemma {:induction false} LiveRowIsNewest(log: seq<StoreOp>, at: nat, nk: NSKey, i: nat, revision: int)
    requires Rising(log, nk) && at <= |log| && nk in RowsAt(log, at) && i < at && Wrote(log, i, nk, revision)
    ensures revision <= RowsAt(log, at)[nk].revision
  {
    assert log[..at][..at - 1] == log[..at - 1];
    if log[at - 1].Write? && log[at - 1].key == nk {
      assert Climbs(log, at - 1, nk, log[at - 1].row);
      if i < at - 1 && nk in RowsAt(log, at - 1) { LiveRowIsNewest(log, at - 1, nk, i, revision); }
    } else {
      LiveRowIsNewest(log, at - 1, nk, i, revision);
    }
  }

  /** Since `from`, the key's row was removed, or written at another revision. */
  predicate Outlived(log: seq<StoreOp>, nk: NSKey, from: nat, at: nat, revision: int)
    requires at <= |log|
  {
    exists i :: from <= i < at
      && (log[i] == Remove(nk) || (log[i].Write? && log[i].key == nk && log[i].row.revision != revision))
  }

  /** A row live at `from` is still the live revision exactly if it was not outlived; if it was, only a higher is. */
  lemma {:induction false} StillLive(log: seq<StoreOp>, nk: NSKey, from: nat, at: nat, revision: int)
    requires from <= at <= |log| && Rising(log, nk)
    requires nk in RowsAt(log, from) && RowsAt(log, from)[nk].revision == revision
    ensures !Outlived(log, nk, from, at, revision) ==> nk in RowsAt(log, at) && RowsAt(log, at)[nk].revision == revision
    ensures Outlived(log, nk, from, at, revision) ==> nk !in RowsAt(log, at) || RowsAt(log, at)[nk].revision > revision
    decreases at
  {
    if from < at {
      var op := log[at - 1];
      assert log[..at][..at - 1] == log[..at - 1];
      StillLive(log, nk, from, at - 1, revision);
      OutlivedOneMore(log, nk, from, at, revision);
      var j := RowWasWritten(log, from, nk);
      if op.Write? && op.key == nk { assert Climbs(log, at - 1, nk, op.row); }
    }
  }

  lemma OutlivedOneMore(log: seq<StoreOp>, nk: NSKey, from: nat, at: nat, revision: int)
    requires from < at <= |log|
    ensures Outlived(log, nk, from, at, revision) <==>
      Outlived(log, nk, from, at - 1, revision) || log[at - 1] == Remove(nk)
      || (log[at - 1].Write? && log[at - 1].key == nk && log[at - 1].row.revision != revision)
  {
  }
}
