/** How a win reaches the browsers that are connected when it happens, and how a reconnecting browser catches up. */
module Broadcast {
  import opened Prelude
  import opened StringOrder
  import opened Simulation
  import opened ReplayLaws
  import opened ActionTable
  import opened Runtime
  import opened Tracker
  import opened EndToEnd

  // ----- the win channel -----

  /** What a turn sends: a delta to every subscriber with room, or the result to every subscriber with room. */
  lemma TurnIsBroadcast(spec: Spec, w: World, early: bool, fault: Fault)
    ensures var out := Fire(spec, w.node, early, fault).1;
            var u := WorldStep(spec, w, FireTick(early, fault));
            |u.conns| == |w.conns|
            && forall i | 0 <= i < |w.conns| ::
                 var c := w.conns[i];
                 var delta := if c.subscribed && out.delta.Some? && |c.channel| < 16 then [out.delta.value] else [];
                 var win := if c.subscribed && out.win.Some? && |c.wins| < 4 then [out.win.value] else [];
                 u.conns[i] == c.(channel := c.channel + delta, wins := c.wins + win)
  {
  }

  /** Connection i writes n win updates. */
  ghost function WriteWins(spec: Spec, w: World, i: nat, n: nat): World
    decreases n
  {
    if n == 0 then w else WriteWins(spec, WorldStep(spec, w, Inside(i, WriteWin)), i, n - 1)
  }

  function Updates(wins: seq<bool>): seq<Message> {
    if wins == [] then [] else [WinUpdate(wins[0])] + Updates(wins[1..])
  }

  lemma {:induction false} AllWinsWritten(spec: Spec, w: World, i: nat)
    requires i < |w.conns| && !w.conns[i].closed
    ensures var c := w.conns[i];
            WriteWins(spec, w, i, |c.wins|) == WithConn(w, i, c.(wins := [], wire := c.wire + Updates(c.wins)))
    decreases |w.conns[i].wins|
  {
    var c := w.conns[i];
    if c.wins == [] {
      assert c.(wins := [], wire := c.wire + Updates(c.wins)) == c;
    } else {
      var written := c.(wins := c.wins[1..], wire := c.wire + [WinUpdate(c.wins[0])]);
      var u := WorldStep(spec, w, Inside(i, WriteWin));
      assert u == WithConn(w, i, written);
      AllWinsWritten(spec, u, i);
      assert c.wire + [WinUpdate(c.wins[0])] + Updates(c.wins[1..]) == c.wire + Updates(c.wins);
    }
  }

  lemma {:induction false} UpdatesHold(wins: seq<bool>)
    ensures true in wins ==> WinUpdate(true) in Updates(wins)
    ensures forall m | m in Updates(wins) :: m.WinUpdate?
  {
    if wins != [] {
      UpdatesHold(wins[1..]);
      assert true in wins ==> wins[0] || true in wins[1..];
    }
  }

  // ----- delivery -----

  /** Client k reads n messages. */
  ghost function Reads(spec: Spec, w: World, k: nat, n: nat): World
    decreases n
  {
    if n == 0 then w else Reads(spec, WorldStep(spec, w, Deliver(k)), k, n - 1)
  }

  /** Client k shows the win, or has thrown its connection away for a fresh one. */
  ghost predicate KnowsOrLeft(w: World, k: nat) {
    k < |w.clients| && (w.clients[k].view.won || w.clients[k].conn.None?)
  }

  lemma ReadKeepsKnowing(spec: Spec, w: World, k: nat)
    requires KnowsOrLeft(w, k)
    ensures KnowsOrLeft(WorldStep(spec, w, Deliver(k)), k)
  {
    if w.clients[k].conn.Some? && w.clients[k].conn.value < |w.conns| && w.conns[w.clients[k].conn.value].wire != [] {
      WinShows(w.clients[k].view, w.conns[w.clients[k].conn.value].wire[0]);
    }
  }

  lemma {:induction false} ReadsKeepKnowing(spec: Spec, w: World, k: nat, n: nat)
    requires KnowsOrLeft(w, k)
    ensures KnowsOrLeft(Reads(spec, w, k, n), k)
    decreases n
  {
    if n > 0 {
      ReadKeepsKnowing(spec, w, k);
      ReadsKeepKnowing(spec, WorldStep(spec, w, Deliver(k)), k, n - 1);
    }
  }

  /** A win update on the wire makes its reader show the win, unless a gap before it makes the reader start over. */
  lemma {:induction false} WrittenWinIsShown(spec: Spec, w: World, i: nat, k: nat)
    requires i < |w.conns| && k < |w.clients| && w.clients[k].conn == Some(i)
    requires WinUpdate(true) in w.conns[i].wire
    ensures KnowsOrLeft(Reads(spec, w, k, |w.conns[i].wire|), k)
    decreases |w.conns[i].wire|
  {
    var wire := w.conns[i].wire;
    var u := WorldStep(spec, w, Deliver(k));
    assert u == DeliverStep(w, k, i);
    WinShows(w.clients[k].view, wire[0]);
    if KnowsOrLeft(u, k) {
      ReadsKeepKnowing(spec, u, k, |wire| - 1);
    } else {
      assert WinUpdate(true) in wire[1..];
      WrittenWinIsShown(spec, u, i, k);
    }
  }

  /** Without a delta on the wire there is no gap to meet. */
  lemma {:induction false} ReaderStays(spec: Spec, w: World, i: nat, k: nat)
    requires i < |w.conns| && k < |w.clients| && w.clients[k].conn == Some(i)
    requires forall m | m in w.conns[i].wire :: !m.DeltaMsg?
    ensures var u := Reads(spec, w, k, |w.conns[i].wire|);
            k < |u.clients| && u.clients[k].conn == Some(i)
    decreases |w.conns[i].wire|
  {
    var wire := w.conns[i].wire;
    if wire != [] {
      var u := WorldStep(spec, w, Deliver(k));
      assert u == DeliverStep(w, k, i);
      MessageEffects(w.clients[k].view, wire[0]);
      ReaderStays(spec, u, i, k);
    }
  }

  /**
   A win reaches whoever is there. The tick that wins hands true to every open subscribed connection with room in
   its win channel; once that is written and read, the browser shows the win, unless a gap made it start over,
   and it cannot have met one if no delta was on its way.
   */
  lemma WinReachesClient(spec: Spec, w: World, i: nat, k: nat)
    requires i < |w.conns| && k < |w.clients| && w.clients[k].conn == Some(i)
    requires w.conns[i].subscribed && !w.conns[i].closed && |w.conns[i].wins| < 4
    requires Fire(spec, w.node, false, NoFault).1.win == Some(true)
    ensures var ticked := WorldStep(spec, w, FireTick(false, NoFault));
            var written := WriteWins(spec, ticked, i, |w.conns[i].wins| + 1);
            i < |written.conns|
            && var read := Reads(spec, written, k, |written.conns[i].wire|);
            && KnowsOrLeft(read, k)
            && ((forall m | m in w.conns[i].wire :: !m.DeltaMsg?) ==>
                  read.clients[k].view.won && read.clients[k].conn == Some(i))
  {
    TurnIsBroadcast(spec, w, false, NoFault);
    var ticked := WorldStep(spec, w, FireTick(false, NoFault));
    var c := ticked.conns[i];
    assert c.wins == w.conns[i].wins + [true] && c.wire == w.conns[i].wire;
    AllWinsWritten(spec, ticked, i);
    UpdatesHold(c.wins);
    var written := WriteWins(spec, ticked, i, |c.wins|);
    assert written.conns[i].wire == c.wire + Updates(c.wins);
    WrittenWinIsShown(spec, written, i, k);
    if forall m | m in w.conns[i].wire :: !m.DeltaMsg? {
      ReaderStays(spec, written, i, k);
    }
  }

  // ----- reconnecting -----

  /** Reading a greeting shows its snapshot. */
  lemma GreetingIsShown(spec: Spec, w: World, k: nat, i: nat, hello: Delta)
    requires k < |w.clients| && i < |w.conns| && w.clients[k].conn == Some(i) && w.conns[i] == NewConn(hello)
    ensures var u := Reads(spec, w, k, 2);
            u.node == w.node && k < |u.clients| && u.clients[k] == Client(Some(i), Show(w.clients[k].view, hello))
  {
    var one := WorldStep(spec, w, Deliver(k));
    assert one == DeliverStep(w, k, i);
    assert one.conns[i].wire == [SnapshotMsg(hello)] && one.clients[k] == w.clients[k];
    var two := WorldStep(spec, one, Deliver(k));
    assert two == DeliverStep(one, k, i);
    assert Reads(spec, w, k, 2) == Reads(spec, one, k, 1) == Reads(spec, two, k, 0);
  }

  /** A client that connects and reads its greeting shows the run exactly as it stands, a win included. */
  lemma ReconnectShowsCurrent(spec: Spec, w: World, k: nat, fault: LoadFault)
    requires WorldOk(spec, w) && k < |w.clients| && Connect(spec, w.node, fault).1.Some?
    ensures var u := Reads(spec, WorldStep(spec, w, Open(k, fault, false)), k, 2);
            k < |u.clients| && u.clients[k].conn == Some(|w.conns|)
            && Replay(spec, u.node.log).Success?
            && var s, v := Replay(spec, u.node.log).value, u.clients[k].view;
            && v.lastSeq == |u.node.log| >= 1 && v.tick == s.tick && v.metrics == s.metrics
            && v.actions == Listing(spec.actionEffects.Keys) && (s.won ==> v.won)
  {
    ConnectKeepsHealthy(spec, w.node, fault);
    var (n, hello) := Connect(spec, w.node, fault);
    var view := w.clients[k].view;
    assert WorldStep(spec, w, Open(k, fault, false)) == OpenStep(spec, w, k, fault, false);
    GreetingIsShown(spec, OpenStep(spec, w, k, fault, false), k, |w.conns|, hello.value);
    assert ViewOk(FactsOf(spec, w.node.log), view);
    ActionsAreFixed(spec, w.node.log, view, HelloAck);
    KnownActions(spec, w.node.log, view);
  }

  /** A view lists all actions of the run, or none yet. */
  lemma KnownActions(spec: Spec, log: seq<LogEntry>, v: View)
    requires ViewOk(FactsOf(spec, log), v)
    ensures v.actions == [] || v.actions == Listing(spec.actionEffects.Keys)
  {
    if v != Blank().(won := v.won, applied := v.applied) {
      var p :| Delta(v.lastSeq, p) in FactsOf(spec, log).deltas && Shows(v, p);
    }
  }
}
