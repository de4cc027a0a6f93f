/** The bounded resume window of internal/ws/resume_buffer.go, on its array. */
module ResumeWindow {
  import opened Runtime

  // ----- what the window means -----

  ghost predicate Increasing(deltas: seq<Delta>) {
    forall i, j | 0 <= i < j < |deltas| :: deltas[i].seqNo < deltas[j].seqNo
  }

  /** The last c of the accepted deltas, or all of them. */
  function LastOf(accepted: seq<Delta>, c: nat): seq<Delta> {
    if |accepted| <= c then accepted else accepted[|accepted| - c..]
  }

  function LastSeqOf(accepted: seq<Delta>): int {
    if accepted == [] then 0 else accepted[|accepted| - 1].seqNo
  }

  /** Every accepted delta after seq n, in order. */
  function Above(accepted: seq<Delta>, n: int): seq<Delta> {
    if accepted == [] then []
    else if accepted[0].seqNo > n then [accepted[0]] + Above(accepted[1..], n)
    else Above(accepted[1..], n)
  }

  ghost predicate Contiguous(accepted: seq<Delta>) {
    forall i | 0 <= i < |accepted| :: accepted[i].seqNo == accepted[0].seqNo + i
  }

  lemma {:induction false} AboveSplits(accepted: seq<Delta>, n: int, k: nat)
    requires Increasing(accepted) && k <= |accepted|
    requires forall i | 0 <= i < k :: accepted[i].seqNo <= n
    requires k < |accepted| ==> accepted[k].seqNo > n
    ensures Above(accepted, n) == accepted[k..]
  {
    if accepted != [] {
      if k > 0 {
        AboveSplits(accepted[1..], n, k - 1);
        assert accepted[1..][k - 1..] == accepted[k..];
      } else {
        AllAbove(accepted, n);
      }
    }
  }

  lemma {:induction false} AllAbove(accepted: seq<Delta>, n: int)
    requires Increasing(accepted) && (accepted != [] ==> accepted[0].seqNo > n)
    ensures Above(accepted, n) == accepted
  {
    if accepted != [] {
      AllAbove(accepted[1..], n);
    }
  }

  /** In a window that reaches back to n + 1, the part above n is all that was ever accepted above n. */
  lemma AboveInWindow(accepted: seq<Delta>, c: nat, n: int, start: nat)
    requires c > 0 && Increasing(accepted) && accepted != [] && start < |LastOf(accepted, c)|
    requires LastOf(accepted, c)[0].seqNo - 1 <= n < LastOf(accepted, c)[start].seqNo
    requires start > 0 ==> LastOf(accepted, c)[start - 1].seqNo <= n
    ensures Above(accepted, n) == LastOf(accepted, c)[start..]
  {
    var evicted := |accepted| - |LastOf(accepted, c)|;
    var k := evicted + start;
    assert accepted[k] == LastOf(accepted, c)[start];
    assert accepted[evicted] == LastOf(accepted, c)[0];
    if start > 0 {
      assert accepted[k - 1] == LastOf(accepted, c)[start - 1];
    }
    AboveSplits(accepted, n, k);
    assert accepted[k..] == LastOf(accepted, c)[start..];
  }

  lemma LastOfExtension(accepted: seq<Delta>, c: nat, d: Delta)
    requires c > 0
    ensures LastOf(accepted + [d], c) ==
            (if |accepted| < c then LastOf(accepted, c) else LastOf(accepted, c)[1..]) + [d]
  {
  }

  lemma IncreasingExtension(accepted: seq<Delta>, d: Delta)
    requires Increasing(accepted) && d.seqNo > LastSeqOf(accepted)
    ensures Increasing(accepted + [d]) && LastSeqOf(accepted + [d]) == d.seqNo
  {
  }

  // ----- the buffer -----

  class ResumeBuffer {
    const capacity: nat
    const items: array<Delta>
    var count: nat
    var lastSeq: int
    /** Every delta Add has accepted. */
    ghost var accepted: seq<Delta>

    ghost predicate Valid()
      reads this, items
    {
      && capacity > 0 && items.Length == capacity && count <= capacity
      && items[..count] == LastOf(accepted, capacity)
      && Increasing(accepted) && (forall i | 0 <= i < |accepted| :: accepted[i].seqNo > 0)
      && lastSeq == LastSeqOf(accepted)
    }

    constructor (requested: int, blank: Delta)
      ensures Valid() && accepted == [] && fresh(items) && capacity == if requested <= 0 then 1 else requested
      ensures lastSeq == 0 && count == 0
    {
      var c: nat := if requested <= 0 then 1 else requested;
      capacity := c;
      items := new Delta[c](_ => blank);
      count, lastSeq, accepted := 0, 0, [];
    }

    /** Refuses anything but a later seq; a full window drops its oldest delta by shifting in place. */
    method Add(delta: Delta) returns (ok: bool)
      requires Valid()
      modifies this, items
      ensures Valid()
      ensures ok == (delta.seqNo > old(lastSeq))
      ensures accepted == if ok then old(accepted) + [delta] else old(accepted)
    {
      if delta.seqNo <= lastSeq {
        return false;
      }
      LastOfExtension(accepted, capacity, delta);
      IncreasingExtension(accepted, delta);
      if count == items.Length {
        ShiftIn(delta);
      } else {
        items[count] := delta;
        count := count + 1;
        assert items[..count] == old(items[..count]) + [delta];
      }
      lastSeq := delta.seqNo;
      accepted := accepted + [delta];
      return true;
    }

    method ShiftIn(delta: Delta)
      requires items.Length > 0
      modifies items
      ensures items[..] == old(items[..])[1..] + [delta]
    {
      for i := 0 to items.Length - 1
        invariant forall k | 0 <= k < i :: items[k] == old(items[k + 1])
        invariant forall k | i <= k < items.Length :: items[k] == old(items[k])
      {
        items[i] := items[i + 1];
      }
      items[items.Length - 1] := delta;
    }

    /** Without a snapshot request the answer is every accepted delta above n: nothing evicted is missing. */
    method ResumeFrom(n: int) returns (out: seq<Delta>, snapshotRequired: bool)
      requires Valid()
      ensures !snapshotRequired ==> out == Above(accepted, n)
      ensures snapshotRequired <==> count > 0 && n < items[0].seqNo - 1 && n < lastSeq
      ensures snapshotRequired ==> out == []
    {
      if count == 0 {
        return [], false;
      }
      if n >= lastSeq {
        AboveSplits(accepted, n, |accepted|);
        return [], false;
      }
      ghost var held := items[..count];
      assert held[0] == items[0] && held[count - 1] == items[count - 1];
      var earliest := items[0].seqNo;
      if n < earliest - 1 {
        return [], true;
      }
      var start := 0;
      while start < count - 1 && items[start].seqNo <= n
        invariant start < count
        invariant start > 0 ==> items[start - 1].seqNo <= n
      {
        start := start + 1;
      }
      assert items[count - 1].seqNo == lastSeq;
      assert held[start] == items[start] && (start > 0 ==> held[start - 1] == items[start - 1]);
      AboveInWindow(accepted, capacity, n, start);
      return items[start..count], false;
    }
  }

  /** On a gap-free stream from seq 1, a snapshot is asked for exactly when an evicted delta is needed. */
  lemma SnapshotOnlyWhenNeeded(accepted: seq<Delta>, c: nat, n: int)
    requires c > 0 && accepted != [] && Contiguous(accepted) && accepted[0].seqNo == 1 && n >= 0
    ensures n < LastOf(accepted, c)[0].seqNo - 1 <==>
            exists i :: 0 <= i < |accepted| - c && accepted[i].seqNo > n
  {
    if n < LastOf(accepted, c)[0].seqNo - 1 {
      assert accepted[|accepted| - c - 1].seqNo > n;
    }
  }
}
