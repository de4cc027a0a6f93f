/** The per-connection sequence tracker of ws_handler.go, and what a client does with what it lets through. */
module Tracker {
  import opened Runtime
  import opened ResumeWindow

  datatype Verdict = Stale | Next | Gap

  function Judge(last: int, seqNo: int): Verdict {
    if seqNo <= last then Stale else if seqNo != last + 1 then Gap else Next
  }

  class SeqTracker {
    var last: int

    constructor ()
      ensures last == 0
    {
      last := 0;
    }

    method Set(seqNo: int)
      modifies this
      ensures last == seqNo
    {
      last := seqNo;
    }

    method Advance(seqNo: int) returns (send: bool, gap: bool)
      modifies this
      ensures send <==> seqNo == old(last) + 1
      ensures gap <==> seqNo > old(last) + 1
      ensures last == if send then seqNo else old(last)
    {
      if seqNo <= last {
        return false, false;
      }
      if seqNo != last + 1 {
        return false, true;
      }
      last := seqNo;
      return true, false;
    }

    /** The handler's resume branch: what is written before the connection closes on a gap or goes live. */
    method Resume(base: int, deltas: seq<Delta>) returns (sent: seq<Delta>, gap: bool)
      modifies this
      ensures (last, sent, gap) == Feed(base, deltas)
    {
      Set(base);
      sent, gap := [], false;
      assert deltas[..|deltas|] == deltas;
      for i := 0 to |deltas|
        invariant Feed(base, deltas[..i]) == (last, sent, false)
      {
        assert deltas[..i + 1][..i] == deltas[..i];
        var send, broken := Advance(deltas[i].seqNo);
        if broken {
          FeedStopsAtGap(base, deltas, i + 1);
          return sent, true;
        }
        if send {
          sent := sent + [deltas[i]];
        }
      }
    }
  }

  /** Tracker position, deltas written, and whether a gap ended the loop. */
  function Feed(base: int, deltas: seq<Delta>): (int, seq<Delta>, bool) {
    if deltas == [] then (base, [], false)
    else
      var (last, sent, gap) := Feed(base, deltas[..|deltas| - 1]);
      var d := deltas[|deltas| - 1];
      if gap then (last, sent, gap)
      else
        match Judge(last, d.seqNo)
        case Stale => (last, sent, false)
        case Gap => (last, sent, true)
        case Next => (d.seqNo, sent + [d], false)
  }

  lemma {:induction false} FeedStopsAtGap(base: int, deltas: seq<Delta>, n: nat)
    requires n <= |deltas| && Feed(base, deltas[..n]).2
    ensures Feed(base, deltas) == Feed(base, deltas[..n])
    decreases |deltas| - n
  {
    if n == |deltas| {
      assert deltas[..n] == deltas;
    } else {
      assert deltas[..n + 1][..n] == deltas[..n];
      FeedStopsAtGap(base, deltas, n + 1);
    }
  }

  /** Whatever is fed, what the tracker lets through continues base without a gap or a repeat. */
  lemma {:induction false} SentIsContiguous(base: int, deltas: seq<Delta>)
    ensures var (last, sent, gap) := Feed(base, deltas);
            last == base + |sent| && forall i | 0 <= i < |sent| :: sent[i].seqNo == base + 1 + i
  {
    if deltas != [] {
      SentIsContiguous(base, deltas[..|deltas| - 1]);
    }
  }

  /** A gap ends the loop at the first delta beyond it; without one, everything fed was sent or stale. */
  lemma {:induction false} GapEndsTheLoop(base: int, deltas: seq<Delta>)
    ensures var (last, sent, gap) := Feed(base, deltas);
            if gap then exists k :: 0 <= k < |deltas| && Feed(base, deltas[..k]) == (last, sent, false)
                                    && deltas[k].seqNo > last + 1
            else forall i | 0 <= i < |deltas| :: deltas[i].seqNo <= last
  {
    if deltas != [] {
      var front, n := deltas[..|deltas| - 1], |deltas| - 1;
      GapEndsTheLoop(base, front);
      if Feed(base, front).2 {
        var k :| 0 <= k < |front| && Feed(base, front[..k]) == (Feed(base, front).0, Feed(base, front).1, false)
                 && front[k].seqNo > Feed(base, front).0 + 1;
        assert deltas[..k] == front[..k] && deltas[k] == front[k];
      } else if Feed(base, deltas).2 {
        assert deltas[..n] == front;
      } else {
        assert forall i | 0 <= i < n :: deltas[i] == front[i];
      }
    }
  }

  lemma {:induction false} ContiguousIsAllSent(base: int, deltas: seq<Delta>)
    requires forall i | 0 <= i < |deltas| :: deltas[i].seqNo == base + 1 + i
    ensures Feed(base, deltas) == (base + |deltas|, deltas, false)
  {
    if deltas != [] {
      var front := deltas[..|deltas| - 1];
      ContiguousIsAllSent(base, front);
      assert deltas == front + [deltas[|deltas| - 1]];
    }
  }

  /** The index of the delta after base, when the window reaches back to it. */
  lemma WindowReaches(accepted: seq<Delta>, c: nat, base: int)
    requires c > 0 && Contiguous(accepted) && accepted != []
    requires LastOf(accepted, c)[0].seqNo - 1 <= base < LastSeqOf(accepted)
    ensures var k := base + 1 - accepted[0].seqNo;
            0 <= k < |accepted| && accepted[k].seqNo == base + 1
  {
    var first := |accepted| - |LastOf(accepted, c)|;
    assert LastOf(accepted, c)[0] == accepted[first];
    assert accepted[first].seqNo == accepted[0].seqNo + first;
    assert accepted[|accepted| - 1].seqNo == accepted[0].seqNo + |accepted| - 1;
  }

  /** Everything above base, when the delta after base is at index k. */
  lemma AboveFromIndex(accepted: seq<Delta>, base: int, k: nat)
    requires Contiguous(accepted) && k <= |accepted| && accepted != []
    requires accepted[0].seqNo + k == base + 1
    ensures Above(accepted, base) == accepted[k..]
    ensures forall i | 0 <= i < |accepted| - k :: accepted[k..][i].seqNo == base + 1 + i
  {
    assert forall i | 0 <= i < |accepted| :: accepted[i].seqNo == accepted[0].seqNo + i;
    AboveSplits(accepted, base, k);
  }

  /** A resume that has something to send sends all of it and ends at the newest seq. */
  lemma ResumeSendsRest(accepted: seq<Delta>, base: int, k: nat)
    requires Contiguous(accepted) && k < |accepted| && accepted[0].seqNo + k == base + 1
    ensures Feed(base, Above(accepted, base)) == (LastSeqOf(accepted), Above(accepted, base), false)
  {
    AboveFromIndex(accepted, base, k);
    ContiguousIsAllSent(base, accepted[k..]);
    assert accepted[|accepted| - 1].seqNo == accepted[0].seqNo + |accepted| - 1;
  }

  /**
   If the window was filled without gaps, a resume without snapshot sends every delta, meets no gap and
   ends at the newest seq.
   */
  lemma ResumeNeverGaps(accepted: seq<Delta>, c: nat, base: int)
    requires c > 0 && Increasing(accepted) && Contiguous(accepted)
    requires accepted != [] ==> base >= LastOf(accepted, c)[0].seqNo - 1
    ensures var deltas := Above(accepted, base);
            var newest := LastSeqOf(accepted);
            Feed(base, deltas) == (if accepted != [] && newest > base then newest else base, deltas, false)
  {
    if accepted != [] && base >= LastSeqOf(accepted) {
      NothingAbove(accepted, base);
    } else if accepted != [] {
      WindowReaches(accepted, c, base);
      ResumeSendsRest(accepted, base, base + 1 - accepted[0].seqNo);
    }
  }

  lemma NothingAbove(accepted: seq<Delta>, base: int)
    requires Increasing(accepted) && accepted != [] && base >= LastSeqOf(accepted)
    ensures Above(accepted, base) == []
  {
    AboveSplits(accepted, base, |accepted|);
  }

  // ----- the client -----

  datatype Message =
    | HelloAck
    | SnapshotMsg(d: Delta)
    | DeltaMsg(d: Delta)
    | WinUpdate(won: bool)
    | ActionAccepted(key: string, seqNo: int)

  /** What useEngineA shows. */
  datatype View = View(
    lastSeq: int,
    tick: int,
    metrics: map<string, real>,
    actions: seq<string>,
    won: bool,
    applied: seq<string>)

  function Blank(): View {
    View(0, 0, map[], [], false, [])
  }

  /** onMessage: the new view, and whether the client throws the connection away for a fresh snapshot. */
  function OnMessage(v: View, m: Message): (View, bool) {
    match m
    case HelloAck => (v, false)
    case SnapshotMsg(d) => (Show(v, d), false)
    case DeltaMsg(d) => if d.seqNo != v.lastSeq + 1 then (v, true) else (Show(v, d), false)
    case WinUpdate(won) => (v.(won := v.won || won), false)
    case ActionAccepted(key, _) => (if key in v.applied then v else v.(applied := v.applied + [key]), false)
  }

  /** An empty action list is omitted from the payload, and then the client keeps the one it has. */
  function Show(v: View, d: Delta): View {
    v.(lastSeq := d.seqNo, tick := d.payload.tick, metrics := d.payload.metrics,
       actions := if d.payload.actions == [] then v.actions else d.payload.actions,
       won := v.won || d.payload.won)
  }

  /** A win shows as soon as it is heard of, and no message takes it back. */
  lemma WinShows(v: View, m: Message)
    ensures v.won ==> OnMessage(v, m).0.won
    ensures m == WinUpdate(true) ==> OnMessage(v, m) == (v.(won := true), false)
    ensures m == WinUpdate(false) ==> OnMessage(v, m) == (v, false)
    ensures (m.SnapshotMsg? || (m.DeltaMsg? && m.d.seqNo == v.lastSeq + 1)) && m.d.payload.won ==> OnMessage(v, m).0.won
  {
  }

  /**
   The position moves only with a snapshot or the next delta, which is then shown whole; any other delta is not shown
   and costs the connection. An accepted action is added once; nothing else touches the list.
   */
  lemma MessageEffects(v: View, m: Message)
    ensures var (u, gone) := OnMessage(v, m);
            && (gone <==> m.DeltaMsg? && m.d.seqNo != v.lastSeq + 1)
            && (gone ==> u == v)
            && (!gone && (m.SnapshotMsg? || m.DeltaMsg?) ==>
                  && u.lastSeq == m.d.seqNo && u.tick == m.d.payload.tick && u.metrics == m.d.payload.metrics
                  && u.actions == (if m.d.payload.actions == [] then v.actions else m.d.payload.actions)
                  && (u.won <==> v.won || m.d.payload.won))
            && (!(m.SnapshotMsg? || m.DeltaMsg?) ==> u.(won := v.won, applied := v.applied) == v)
            && (m.ActionAccepted? ==> m.key in u.applied && (m.key in v.applied ==> u == v)
                                      && (m.key !in v.applied ==> u == v.(applied := v.applied + [m.key])))
            && (!m.ActionAccepted? ==> u.applied == v.applied)
  {
  }

  class EngineAHook {
    var lastSeq: int
    var tick: int
    var metrics: map<string, real>
    var actions: seq<string>
    var won: bool
    var applied: seq<string>

    ghost function Shown(): View
      reads this
    {
      View(lastSeq, tick, metrics, actions, won, applied)
    }

    constructor ()
      ensures Shown() == Blank()
    {
      lastSeq, tick, metrics, actions, won, applied := 0, 0, map[], [], false, [];
    }

    method Receive(m: Message) returns (reconnect: bool)
      modifies this
      ensures (Shown(), reconnect) == OnMessage(old(Shown()), m)
    {
      reconnect := false;
      match m {
        case HelloAck =>
        case SnapshotMsg(d) => SetState(d);
        case DeltaMsg(d) =>
          if d.seqNo != lastSeq + 1 {
            return true;
          }
          SetState(d);
        case WinUpdate(w) =>
          if w {
            won := true;
          }
        case ActionAccepted(key, _) =>
          if key !in applied {
            applied := applied + [key];
          }
      }
    }

    method SetState(d: Delta)
      modifies this
      ensures Shown() == Show(old(Shown()), d)
    {
      lastSeq, tick, metrics := d.seqNo, d.payload.tick, d.payload.metrics;
      if d.payload.actions != [] {
        actions := d.payload.actions;
      }
      if d.payload.won {
        won := true;
      }
    }
  }

  function ReceiveAll(v: View, ms: seq<Message>): (View, bool) {
    if ms == [] then (v, false)
    else
      var (u, gone) := ReceiveAll(v, ms[..|ms| - 1]);
      if gone then (u, true) else OnMessage(u, ms[|ms| - 1])
  }

  /** A snapshot followed by what the tracker sends after it is applied whole: the client ends where the tracker is. */
  lemma {:induction false} ClientKeepsUp(v: View, base: Delta, deltas: seq<Delta>)
    ensures var (last, sent, gap) := Feed(base.seqNo, deltas);
            var ms := [SnapshotMsg(base)] + seq(|sent|, i requires 0 <= i < |sent| => DeltaMsg(sent[i]));
            var (u, gone) := ReceiveAll(v, ms);
            !gone && u.lastSeq == last && u.tick == (if sent == [] then base else sent[|sent| - 1]).payload.tick
            && u.metrics == (if sent == [] then base else sent[|sent| - 1]).payload.metrics
  {
    SentIsContiguous(base.seqNo, deltas);
    ReceivesContiguous(v, base, Feed(base.seqNo, deltas).1);
  }

  lemma {:induction false} ReceivesContiguous(v: View, base: Delta, sent: seq<Delta>)
    requires forall i | 0 <= i < |sent| :: sent[i].seqNo == base.seqNo + 1 + i
    ensures var ms := [SnapshotMsg(base)] + seq(|sent|, i requires 0 <= i < |sent| => DeltaMsg(sent[i]));
            var newest := if sent == [] then base else sent[|sent| - 1];
            var (u, gone) := ReceiveAll(v, ms);
            !gone && u.lastSeq == newest.seqNo && u.tick == newest.payload.tick && u.metrics == newest.payload.metrics
  {
    var ms := [SnapshotMsg(base)] + seq(|sent|, i requires 0 <= i < |sent| => DeltaMsg(sent[i]));
    if sent == [] {
      assert ms[..0] == [];
    } else {
      var front := sent[..|sent| - 1];
      ReceivesContiguous(v, base, front);
      assert ms[..|ms| - 1] == [SnapshotMsg(base)] + seq(|front|, i requires 0 <= i < |front| => DeltaMsg(front[i]));
    }
  }
}
