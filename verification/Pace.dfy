/** When a connection has caught up with the log, and when it stays behind. */
module Pace {
  import opened Prelude
  import opened Simulation
  import opened ActionTable
  import opened Runtime
  import opened RuntimeObjects
  import opened EndToEnd
  import opened Retries

  function Larger(x: int, y: int): int {
    if x < y then y else x
  }

  function Furthest(seqNo: int, ds: seq<Delta>): int
    decreases |ds|
  {
    if ds == [] then seqNo else Furthest(Larger(seqNo, ds[0].seqNo), ds[1..])
  }

  function WithReply(c: Conn): int {
    if c.reply.Some? then Larger(c.last, c.reply.value.delta.seqNo) else c.last
  }

  /** Where the tracker will be once everything waiting for it has been judged. */
  function Due(c: Conn): int {
    Furthest(WithReply(c), c.channel)
  }

  /** The handler runs and the writer is open: no gap has been met. */
  predicate Live(c: Conn) {
    c.running && !c.closed
  }

  /** Nothing waits for the tracker. */
  predicate Idle(c: Conn) {
    c.channel == [] && c.reply.None?
  }

  lemma {:induction false} FurthestOfAppend(seqNo: int, ds: seq<Delta>, d: Delta)
    ensures Furthest(seqNo, ds + [d]) == Larger(Furthest(seqNo, ds), d.seqNo)
    decreases |ds|
  {
    if ds == [] {
      assert ([] + [d])[1..] == [];
    } else {
      FurthestOfAppend(Larger(seqNo, ds[0].seqNo), ds[1..], d);
      assert (ds + [d])[1..] == ds[1..] + [d];
    }
  }

  lemma {:induction false} FurthestWithin(seqNo: int, ds: seq<Delta>, bound: int)
    requires seqNo <= bound && forall d | d in ds :: d.seqNo <= bound
    ensures seqNo <= Furthest(seqNo, ds) <= bound
    decreases |ds|
  {
    if ds != [] {
      assert ds[0] in ds;
      FurthestWithin(Larger(seqNo, ds[0].seqNo), ds[1..], bound);
    }
  }

  /** Starting further on is the same as having one more delta to pass. */
  lemma {:induction false} FurthestFrom(x: int, y: int, ds: seq<Delta>)
    ensures Furthest(Larger(x, y), ds) == Larger(Furthest(x, ds), y)
    decreases |ds|
  {
    if ds != [] {
      FurthestFrom(Larger(x, ds[0].seqNo), y, ds[1..]);
      assert Larger(Larger(x, y), ds[0].seqNo) == Larger(Larger(x, ds[0].seqNo), y);
    }
  }

  /** No tracker is ahead of the log. */
  ghost predicate NobodyAhead(w: World) {
    forall i | 0 <= i < |w.conns| :: w.conns[i].last <= |w.node.log|
  }

  lemma DueWithin(spec: Spec, w: World, i: nat)
    requires WorldOk(spec, w) && NobodyAhead(w) && i < |w.conns|
    ensures Due(w.conns[i]) <= |w.node.log|
  {
    assert ConnOk(FactsOf(spec, w.node.log), w.conns[i]);
    var c := w.conns[i];
    FurthestWithin(WithReply(c), c.channel, |w.node.log|);
  }

  // ----- steps -----

  /** Judging moves what is waiting into the tracker, and loses nothing while the writer stays open. */
  lemma StreamKeepsDue(f: Facts, c: Conn)
    requires ConnOk(f, c) && c.channel != [] && Live(StreamerJudges(c))
    ensures Live(c) && Due(StreamerJudges(c)) == Due(c)
  {
    assert c.channel[0] in f.deltas;
  }

  lemma ConnStepKeepsDue(f: Facts, c: Conn, ev: ConnEvent)
    requires ConnOk(f, c) && Live(ConnStep(c, ev))
    ensures Live(c) && Due(ConnStep(c, ev)) == Due(c)
  {
    if ev.JudgeStream? && c.channel != [] && c.streaming.None? {
      StreamKeepsDue(f, c);
    }
  }

  lemma PushedDue(c: Conn, out: FireOut, length: int)
    requires Due(c) < length && Live(c)
    requires out.delta.Some? ==> out.delta.value.seqNo == length
    ensures Due(Push(c, out)) <= length
    ensures Due(Push(c, out)) == length <==> c.subscribed && out.delta.Some? && |c.channel| < CHANNEL_CAPACITY
    ensures Live(Push(c, out))
  {
    if out.delta.Some? {
      FurthestOfAppend(WithReply(c), c.channel, out.delta.value);
    }
  }

  /** The step hands connection i the newest entry: in its snapshot, as its own answer, or through its channel. */
  ghost predicate Reaches(spec: Spec, w: World, ev: WorldEvent, i: nat) {
    match ev
    case Open(k, fault, _) => i == |w.conns| && k < |w.clients| && Connect(spec, w.node, fault).1.Some?
    case SendAction(j, key, req, fault) =>
      j == i && Sends(w, i)
      && var (n, r) := ActLoaded(spec, w.node, key, req, fault);
         r.Success? && r.value.seqNo == |n.log|
    case FireTick(early, fault) =>
      i < |w.conns| && w.conns[i].subscribed && |w.conns[i].channel| < CHANNEL_CAPACITY
      && Fire(spec, w.node, early, fault).1.delta.Some?
    case _ => false
  }

  /** Connection i is, or will be, at the end of the log. */
  ghost predicate Current(w: World, i: nat) {
    i < |w.conns| && Due(w.conns[i]) == |w.node.log|
  }

  ghost predicate PaceKept(spec: Spec, w: World, ev: WorldEvent, i: nat, u: World)
    requires i < |u.conns|
  {
    && u.conns[i].last <= |u.node.log|
    && (Live(u.conns[i]) ==>
          && (i < |w.conns| ==> Live(w.conns[i]))
          && (Current(u, i) <==> Reaches(spec, w, ev, i) || (|u.node.log| == |w.node.log| && Current(w, i))))
  }

  /** Steps of clients, and restarts, move no live connection. */
  lemma QuietPace(spec: Spec, w: World, ev: WorldEvent, i: nat)
    requires NobodyAhead(w) && (ev.Deliver? || ev.Leave? || ev.RestartProcess?) && i < |w.conns|
    ensures |WorldStep(spec, w, ev).conns| == |w.conns| && PaceKept(spec, w, ev, i, WorldStep(spec, w, ev))
  {
  }

  lemma OpenPace(spec: Spec, w: World, k: nat, fault: LoadFault, replaced: bool, i: nat)
    requires WorldOk(spec, w) && NobodyAhead(w) && k < |w.clients|
    requires i < |OpenStep(spec, w, k, fault, replaced).conns|
    ensures PaceKept(spec, w, Open(k, fault, replaced), i, OpenStep(spec, w, k, fault, replaced))
  {
    ConnectKeepsHealthy(spec, w.node, fault);
    if i < |w.conns| {
      DueWithin(spec, w, i);
    }
  }

  lemma SubscribePace(spec: Spec, w: World, j: nat, fault: LoadFault, i: nat)
    requires WorldOk(spec, w) && NobodyAhead(w) && j < |w.conns| && i < |w.conns|
    ensures PaceKept(spec, w, Subscribe(j, fault), i, SubscribeStep(spec, w, j, fault))
  {
    ConnectKeepsHealthy(spec, w.node, fault);
    DueWithin(spec, w, i);
  }

  /** An action adds an entry exactly if its answer carries the newest seq for the first time. */
  lemma ActLogs(spec: Spec, n: Node, key: string, req: string, fault: Fault)
    requires Healthy(spec, n) && n.cache.Some? && !Hazard(spec, n, Acting(key, req, Read(NoFault), fault))
    ensures var (m, r) := ActLoaded(spec, n, key, req, fault);
            && n.log <= m.log && (r.Success? ==> r.value.seqNo <= |m.log|)
            && (m.log != n.log ==> |m.log| == |n.log| + 1 && r.Success? && r.value.seqNo == |m.log|)
  {
    if n.cache.value.terminal || FindRequest(n.log, req).Some? || fault == NotStored {
      IdleAct(spec, n, key, req, fault);
      RepeatedAnswer(spec, n, key, req, fault);
    } else {
      FreshAct(spec, n, key, req, fault);
    }
  }

  lemma AnsweredDue(c: Conn, key: string, r: Result<Delta, RuntimeError>, length: int)
    requires c.reply.None? && Due(c) <= length && (r.Success? ==> r.value.seqNo <= length)
    ensures var u := Answered(c, key, r, length);
            u.last == c.last && (Live(u) ==> r.Success? && Due(u) == Larger(Due(c), r.value.seqNo))
  {
    if r.Success? {
      FurthestFrom(c.last, r.value.seqNo, c.channel);
    }
  }

  lemma SendPace(spec: Spec, w: World, j: nat, key: string, req: string, fault: Fault, i: nat)
    requires WorldOk(spec, w) && NobodyAhead(w) && Sends(w, j) && i < |w.conns|
    requires !Hazard(spec, w.node, Acting(key, req, Read(NoFault), fault))
    ensures PaceKept(spec, w, SendAction(j, key, req, fault), i, ActionStepOn(spec, w, j, key, req, fault))
  {
    var (n, r) := ActLoaded(spec, w.node, key, req, fault);
    ActLogs(spec, w.node, key, req, fault);
    DueWithin(spec, w, i);
    if i == j {
      AnsweredDue(w.conns[i], key, r, |n.log|);
    }
  }

  lemma InsidePace(spec: Spec, w: World, j: nat, e: ConnEvent, i: nat)
    requires WorldOk(spec, w) && NobodyAhead(w) && j < |w.conns| && i < |w.conns|
    ensures PaceKept(spec, w, Inside(j, e), i, WithConn(w, j, ConnStep(w.conns[j], e)))
  {
    var f := FactsOf(spec, w.node.log);
    assert ConnOk(f, w.conns[j]);
    JudgedWithin(f, w.conns[j], e, |w.node.log|);
    if i == j && Live(ConnStep(w.conns[j], e)) {
      ConnStepKeepsDue(f, w.conns[j], e);
    }
  }

  lemma JudgedWithin(f: Facts, c: Conn, ev: ConnEvent, length: int)
    requires ConnOk(f, c) && c.last <= length
    requires forall d | d in f.deltas :: d.seqNo <= length
    ensures ConnStep(c, ev).last <= length
  {
    if c.channel != [] {
      assert c.channel[0] in c.channel;
    }
  }

  lemma FirePace(spec: Spec, w: World, early: bool, fault: Fault, i: nat)
    requires WorldOk(spec, w) && NobodyAhead(w) && i < |w.conns|
    requires !Hazard(spec, w.node, Firing(early, fault))
    ensures PaceKept(spec, w, FireTick(early, fault), i, WorldStep(spec, w, FireTick(early, fault)))
  {
    var c := w.conns[i];
    var (n, out) := Fire(spec, w.node, early, fault);
    var u := WorldStep(spec, w, FireTick(early, fault));
    assert u.conns[i] == Push(c, out);
    DueWithin(spec, w, i);
    FireLogs(spec, w.node, early, fault);
    if n.log != w.node.log && Live(c) {
      PushedDue(c, out, |n.log|);
    }
  }

  /** A turn that sends a delta has logged its tick; one that logs nothing sends nothing. */
  lemma FireLogs(spec: Spec, n: Node, early: bool, fault: Fault)
    requires Healthy(spec, n) && !Hazard(spec, n, Firing(early, fault))
    ensures var (m, out) := Fire(spec, n, early, fault);
            && (m.log == n.log ==> out == FireOut(None, None))
            && (m.log != n.log ==> |m.log| == |n.log| + 1 && (out.delta.Some? ==> out.delta.value.seqNo == |m.log|))
  {
    if n.loops > 0 && !early {
      if fault == NoFault {
        StoredTick(spec, n);
      } else {
        FailedTick(spec, n, fault);
      }
    }
  }

  /**
   A step leaves an open connection at the end of the log exactly if it hands it the newest entry, or adds none
   and the connection was there already.
   */
  lemma PaceStep(spec: Spec, w: World, ev: WorldEvent, i: nat)
    requires WorldOk(spec, w) && NobodyAhead(w) && !RuntimeHazard(spec, w, ev)
    requires i < |WorldStep(spec, w, ev).conns|
    ensures PaceKept(spec, w, ev, i, WorldStep(spec, w, ev))
  {
    if WorldStep(spec, w, ev) != w {
      match ev
      case Open(k, fault, replaced) => OpenPace(spec, w, k, fault, replaced, i);
      case Subscribe(j, fault) => SubscribePace(spec, w, j, fault, i);
      case SendAction(j, key, req, fault) => SendPace(spec, w, j, key, req, fault, i);
      case Inside(j, e) => InsidePace(spec, w, j, e, i);
      case FireTick(early, fault) => FirePace(spec, w, early, fault, i);
      case _ => QuietPace(spec, w, ev, i);
    } else {
      IdlePace(spec, w, ev, i);
    }
  }

  /** A step that changes nothing hands out nothing new. */
  lemma IdlePace(spec: Spec, w: World, ev: WorldEvent, i: nat)
    requires WorldOk(spec, w) && NobodyAhead(w) && !RuntimeHazard(spec, w, ev)
    requires i < |w.conns| && WorldStep(spec, w, ev) == w
    ensures PaceKept(spec, w, ev, i, w)
  {
    match ev
    case SendAction(j, key, req, fault) => if Sends(w, j) { SendPace(spec, w, j, key, req, fault, i); }
    case FireTick(early, fault) => FirePace(spec, w, early, fault, i);
    case _ =>
  }

  lemma NobodyRunsAhead(spec: Spec, w: World, ev: WorldEvent)
    requires WorldOk(spec, w) && NobodyAhead(w) && !RuntimeHazard(spec, w, ev)
    ensures NobodyAhead(WorldStep(spec, w, ev))
  {
    var u := WorldStep(spec, w, ev);
    forall i | 0 <= i < |u.conns| ensures u.conns[i].last <= |u.node.log| {
      PaceStep(spec, w, ev, i);
    }
  }

  // ----- runs -----

  /** Step j brought the log to its present length and handed connection i that entry, or did so again later. */
  ghost predicate ReachedAt(spec: Spec, clients: nat, events: seq<WorldEvent>, j: int, i: nat) {
    && 0 <= j < |events|
    && |RunWorld(spec, clients, events[..j + 1]).node.log| == |RunWorld(spec, clients, events).node.log|
    && Reaches(spec, RunWorld(spec, clients, events[..j]), events[j], i)
  }

  /** Some step handed connection i what is now the newest entry. */
  ghost predicate Reached(spec: Spec, clients: nat, events: seq<WorldEvent>, i: nat) {
    exists j :: ReachedAt(spec, clients, events, j, i)
  }

  lemma {:induction false} RunPace(spec: Spec, clients: nat, events: seq<WorldEvent>)
    requires SafeRun(spec, clients, events)
    ensures NobodyAhead(RunWorld(spec, clients, events))
  {
    if events != [] {
      SafeFront(spec, clients, events);
      SafeLast(spec, clients, events);
      RunPace(spec, clients, events[..|events| - 1]);
      SafeRunsAreOk(spec, clients, events[..|events| - 1]);
      NobodyRunsAhead(spec, RunWorld(spec, clients, events[..|events| - 1]), events[|events| - 1]);
    }
  }

  lemma FrontPrefixes(events: seq<WorldEvent>, j: int)
    requires 0 <= j < |events| - 1
    ensures var front := events[..|events| - 1];
            && front[..j + 1] == events[..j + 1] && front[..j] == events[..j] && front[j] == events[j]
            && events[..j + 1] + front[j + 1..] == front && events[..j + 1][..j] == events[..j]
  {
    var front := events[..|events| - 1];
    assert front[..j + 1] == events[..j + 1];
  }

  /** One more step that adds no entry: whatever reached the newest entry before still has. */
  lemma ReachedBefore(spec: Spec, clients: nat, events: seq<WorldEvent>, j: int, i: nat)
    requires events != [] && j < |events| - 1
    requires |RunWorld(spec, clients, events).node.log| == |RunWorld(spec, clients, events[..|events| - 1]).node.log|
    ensures ReachedAt(spec, clients, events[..|events| - 1], j, i) <==> ReachedAt(spec, clients, events, j, i)
  {
    if 0 <= j {
      FrontPrefixes(events, j);
    }
  }

  /** Between step j and the one before last the log only grows and connections stay. */
  lemma FrontSucceeds(spec: Spec, clients: nat, events: seq<WorldEvent>, j: int)
    requires SafeRun(spec, clients, events) && 0 <= j < |events| - 1
    ensures Succeeds(RunWorld(spec, clients, events[..j + 1]), RunWorld(spec, clients, events[..|events| - 1]))
  {
    FrontPrefixes(events, j);
    SafeFront(spec, clients, events);
    RunSucceeds(spec, clients, events[..j + 1], events[..|events| - 1][j + 1..]);
  }

  lemma LastGrows(spec: Spec, clients: nat, events: seq<WorldEvent>)
    requires SafeRun(spec, clients, events) && events != []
    ensures RunWorld(spec, clients, events[..|events| - 1]).node.log <= RunWorld(spec, clients, events).node.log
  {
    SafeFront(spec, clients, events);
    SafeRunsAreOk(spec, clients, events[..|events| - 1]);
    LogGrows(spec, RunWorld(spec, clients, events[..|events| - 1]), events[|events| - 1]);
  }

  /** An entry handed to i at an earlier step is only the newest if no later step added one. */
  lemma ReachedEarlier(spec: Spec, clients: nat, events: seq<WorldEvent>, j: int, i: nat)
    requires SafeRun(spec, clients, events) && 0 <= j < |events| - 1 && ReachedAt(spec, clients, events, j, i)
    ensures var front := RunWorld(spec, clients, events[..|events| - 1]);
            |RunWorld(spec, clients, events).node.log| == |front.node.log| && i < |front.conns|
  {
    FrontSucceeds(spec, clients, events, j);
    LastGrows(spec, clients, events);
    FrontPrefixes(events, j);
    ReachedExists(spec, RunWorld(spec, clients, events[..j]), events[j], i);
  }

  lemma ReachedExists(spec: Spec, w: World, ev: WorldEvent, i: nat)
    requires Reaches(spec, w, ev, i)
    ensures i < |WorldStep(spec, w, ev).conns|
  {
  }

  /** Either the last step did it, or an earlier one and the last added no entry. */
  lemma ReachedSplits(spec: Spec, clients: nat, events: seq<WorldEvent>, i: nat)
    requires SafeRun(spec, clients, events) && events != []
    ensures var front := events[..|events| - 1];
            var w, u := RunWorld(spec, clients, front), RunWorld(spec, clients, events);
            Reached(spec, clients, events, i) <==>
            || Reaches(spec, w, events[|events| - 1], i)
            || (|u.node.log| == |w.node.log| && i < |w.conns| && Reached(spec, clients, front, i))
  {
    var front, last := events[..|events| - 1], |events| - 1;
    var w, u := RunWorld(spec, clients, front), RunWorld(spec, clients, events);
    assert events[..last + 1] == events;
    if Reaches(spec, w, events[last], i) {
      assert ReachedAt(spec, clients, events, last, i);
    } else if Reached(spec, clients, events, i) {
      var j :| ReachedAt(spec, clients, events, j, i);
      ReachedEarlier(spec, clients, events, j, i);
      ReachedBefore(spec, clients, events, j, i);
    } else if |u.node.log| == |w.node.log| && Reached(spec, clients, front, i) {
      var j :| ReachedAt(spec, clients, front, j, i);
      ReachedBefore(spec, clients, events, j, i);
    }
  }

  lemma {:induction false} CurrentIff(spec: Spec, clients: nat, events: seq<WorldEvent>, i: nat)
    requires SafeRun(spec, clients, events) && i < |RunWorld(spec, clients, events).conns|
    requires Live(RunWorld(spec, clients, events).conns[i])
    ensures Current(RunWorld(spec, clients, events), i) <==> Reached(spec, clients, events, i)
  {
    var front := events[..|events| - 1];
    var w := RunWorld(spec, clients, front);
    SafeFront(spec, clients, events);
    SafeLast(spec, clients, events);
    SafeRunsAreOk(spec, clients, front);
    RunPace(spec, clients, front);
    PaceStep(spec, w, events[|events| - 1], i);
    ReachedSplits(spec, clients, events, i);
    if i < |w.conns| {
      CurrentIff(spec, clients, front, i);
    }
  }

  /**
   An open connection with nothing left to judge is at the end of the log exactly if some step handed it the
   newest entry: its snapshot, an answer to it, or a tick pushed into its channel while there was room. Entries
   logged by others, ticks dropped on a full channel and the tick that ends the run leave it behind.
   */
  lemma SettledConnectionIsCurrentIff(spec: Spec, clients: nat, events: seq<WorldEvent>, i: nat)
    requires SafeRun(spec, clients, events) && i < |RunWorld(spec, clients, events).conns|
    requires Live(RunWorld(spec, clients, events).conns[i]) && Idle(RunWorld(spec, clients, events).conns[i])
    ensures RunWorld(spec, clients, events).conns[i].last == |RunWorld(spec, clients, events).node.log|
            <==> Reached(spec, clients, events, i)
  {
    CurrentIff(spec, clients, events, i);
  }

  // ----- after the end -----

  /** The run is finished and connection i, if still open, is not at the end of the log. */
  ghost predicate LeftBehind(spec: Spec, w: World, i: nat) {
    && Finished(spec, w.node) && i < |w.conns|
    && (Live(w.conns[i]) ==> !Current(w, i))
  }

  lemma FinishedReachesNobody(spec: Spec, w: World, ev: WorldEvent, i: nat)
    requires Finished(spec, w.node) && i < |w.conns|
    ensures !Reaches(spec, w, ev, i)
  {
  }

  lemma FinishedWorldStep(spec: Spec, w: World, ev: WorldEvent)
    requires Finished(spec, w.node)
    ensures var n := WorldStep(spec, w, ev).node;
            Finished(spec, n) && n.log == w.node.log
  {
    match ev
    case Open(_, fault, _) => FinishedStep(spec, w.node, Connecting(fault));
    case Subscribe(i, fault) => FinishedStep(spec, w.node, Connecting(fault));
    case SendAction(i, key, req, fault) =>
      if Sends(w, i) {
        IdleAct(spec, w.node, key, req, fault);
      }
    case FireTick(early, fault) => FinishedStep(spec, w.node, Firing(early, fault));
    case RestartProcess => FinishedStep(spec, w.node, Restarting);
    case _ =>
  }

  lemma StaysBehind(spec: Spec, w: World, ev: WorldEvent, i: nat)
    requires WorldOk(spec, w) && NobodyAhead(w) && !RuntimeHazard(spec, w, ev) && LeftBehind(spec, w, i)
    ensures LeftBehind(spec, WorldStep(spec, w, ev), i)
  {
    SuccessionStep(spec, w, ev);
    PaceStep(spec, w, ev, i);
    FinishedReachesNobody(spec, w, ev, i);
    FinishedWorldStep(spec, w, ev);
  }

  /** The tick that ends a run is logged but not pushed: it leaves every open connection behind. */
  lemma EndingTickLeavesBehind(spec: Spec, w: World, i: nat)
    requires WorldOk(spec, w) && NobodyAhead(w) && i < |w.conns|
    requires Fire(spec, w.node, false, NoFault).1.win.Some?
    ensures LeftBehind(spec, WorldStep(spec, w, FireTick(false, NoFault)), i)
  {
    StoredTick(spec, w.node);
    PaceStep(spec, w, FireTick(false, NoFault), i);
  }

  lemma {:induction false} StaysBehindAlong(spec: Spec, clients: nat, events: seq<WorldEvent>, n: nat, i: nat)
    requires SafeRun(spec, clients, events) && n <= |events|
    requires LeftBehind(spec, RunWorld(spec, clients, events[..n]), i)
    ensures LeftBehind(spec, RunWorld(spec, clients, events), i)
    decreases |events|
  {
    if n == |events| {
      assert events[..n] == events;
    } else {
      var front := events[..|events| - 1];
      assert front[..n] == events[..n];
      SafeFront(spec, clients, events);
      SafeLast(spec, clients, events);
      StaysBehindAlong(spec, clients, front, n, i);
      SafeRunsAreOk(spec, clients, front);
      RunPace(spec, clients, front);
      StaysBehind(spec, RunWorld(spec, clients, front), events[|events| - 1], i);
    }
  }

  lemma {:induction false} SafePrefix(spec: Spec, clients: nat, events: seq<WorldEvent>, n: nat)
    requires SafeRun(spec, clients, events) && n <= |events|
    ensures SafeRun(spec, clients, events[..n])
    decreases |events|
  {
    if n == |events| {
      assert events[..n] == events;
    } else {
      SafeFront(spec, clients, events);
      SafePrefix(spec, clients, events[..|events| - 1], n);
      assert events[..|events| - 1][..n] == events[..n];
    }
  }

  /** And whatever follows, none of them ever reaches the end of the log. */
  lemma NobodyCatchesUpAfterTheEnd(
      spec: Spec, clients: nat, events: seq<WorldEvent>, more: seq<WorldEvent>, i: nat)
    requires SafeRun(spec, clients, events + [FireTick(false, NoFault)] + more)
    requires i < |RunWorld(spec, clients, events).conns|
    requires Fire(spec, RunWorld(spec, clients, events).node, false, NoFault).1.win.Some?
    ensures LeftBehind(spec, RunWorld(spec, clients, events + [FireTick(false, NoFault)] + more), i)
  {
    var ended := events + [FireTick(false, NoFault)];
    assert (ended + more)[..|events|] == events && ended[..|ended| - 1] == events;
    SafePrefix(spec, clients, ended + more, |events|);
    SafeRunsAreOk(spec, clients, events);
    RunPace(spec, clients, events);
    EndingTickLeavesBehind(spec, RunWorld(spec, clients, events), i);
    assert (ended + more)[..|ended|] == ended;
    StaysBehindAlong(spec, clients, ended + more, |ended|, i);
  }
}
