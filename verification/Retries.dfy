/** Repeating a request, on its own connection or another: when the answer is true, and what a client can rely on. */
module Retries {
  import opened Prelude
  import opened Simulation
  import opened ActionTable
  import opened Runtime
  import opened Requests
  import opened Tracker
  import opened EndToEnd

  ghost predicate Logged(log: seq<LogEntry>, q: int, req: string) {
    1 <= q <= |log| && log[q - 1].clientRequestId == Some(req)
  }

  // ----- what an answer does -----

  /**
   A repeated request is answered with its old seq and the current snapshot. The answer is true exactly
   when nothing has ticked since the request was logged.
   */
  lemma RepeatedReplyTrueIff(spec: Spec, n: Node, key: string, req: string, q: nat)
    requires Healthy(spec, n) && n.cache.Some? && !n.cache.value.terminal
    requires Logged(n.log, q, req) && n.log[q - 1].actionKey == Some(key)
    ensures var r := ActLoaded(spec, n, key, req, NoFault).1;
            && r == Success(Delta(q, SnapshotOf(spec, n.cache.value.engine)))
            && (r.value in FactsOf(spec, n.log).deltas <==> NoTickAfter(n.log, q))
  {
    RetryGetsItsSeq(spec, n, key, req, NoFault, n.log[q - 1]);
    OnlyTicksShow(spec, n.log, q);
  }

  ghost predicate TellsUntruth(f: Facts, wire: seq<Message>) {
    exists m :: m in wire && !MessageOk(f, m)
  }

  /** Judging and writing a pending answer puts something untrue on the wire exactly if it misleads. */
  lemma AnswerMisleadsIff(spec: Spec, log: seq<LogEntry>, c: Conn)
    requires Replay(spec, log).Success? && ConnOk(FactsOf(spec, log), c) && c.reply.Some?
    ensures TellsUntruth(FactsOf(spec, log), ConnStep(ConnStep(c, JudgeReply), WriteReply).wire) <==> Misleads(log, c)
  {
    var f := FactsOf(spec, log);
    var judged := ConnStep(c, JudgeReply);
    ConnStepKeepsTruthIff(spec, log, c, JudgeReply);
    if Misleads(log, c) {
      AnswerTrueIff(spec, log, c.reply.value);
      var d := c.reply.value.delta;
      assert judged == c.(reply := None, last := d.seqNo, replying := Some(d));
      assert ConnStep(judged, WriteReply).wire == c.wire + [DeltaMsg(d)];
      assert DeltaMsg(d) in c.wire + [DeltaMsg(d)];
    } else {
      ConnStepKeepsTruthIff(spec, log, judged, WriteReply);
    }
  }

  lemma AnswerOnConn(c: Conn, key: string, q: int, payload: Snapshot, at: int)
    requires c.reply.None?
    ensures var answered := Answered(c, key, Success(Delta(q, payload)), at);
            && (c.closed ==> answered.reply == None && answered.replying == c.replying && answered.wire == c.wire)
            && (!c.closed ==> answered.reply == Some(Answer(Delta(q, payload), at))
                              && answered.last == c.last && !answered.closed)
  {
  }

  lemma RepeatIsAnswered(spec: Spec, w: World, i: nat, key: string, req: string, q: nat)
    requires WorldOk(spec, w) && Sends(w, i) && !w.node.cache.value.terminal
    requires Logged(w.node.log, q, req) && w.node.log[q - 1].actionKey == Some(key)
    ensures var sent := WorldStep(spec, w, SendAction(i, key, req, NoFault));
            var payload := SnapshotOf(spec, w.node.cache.value.engine);
            && WorldOk(spec, sent) && sent.node.log == w.node.log && i < |sent.conns|
            && sent.conns[i] == Answered(w.conns[i], key, Success(Delta(q, payload)), |w.node.log|)
  {
    RepeatedReplyTrueIff(spec, w.node, key, req, q);
    RequestIsKnown(w.node.log, q, req);
    IdleAct(spec, w.node, key, req, NoFault);
    RepeatedActionOk(spec, w, i, key, req, NoFault);
    assert WorldStep(spec, w, SendAction(i, key, req, NoFault)) == ActionStepOn(spec, w, i, key, req, NoFault);
  }

  /**
   A request repeated and answered at once puts something untrue on the wire exactly if the writer is open, the
   tracker is one short of the request's seq, and the run has ticked since.
   */
  lemma RepeatMisleadsIff(spec: Spec, w: World, i: nat, key: string, req: string, q: nat)
    requires WorldOk(spec, w) && Sends(w, i) && !w.node.cache.value.terminal
    requires Logged(w.node.log, q, req) && w.node.log[q - 1].actionKey == Some(key)
    ensures var sent := WorldStep(spec, w, SendAction(i, key, req, NoFault));
            var u := WorldStep(spec, WorldStep(spec, sent, Inside(i, JudgeReply)), Inside(i, WriteReply));
            && u.node.log == w.node.log && i < |u.conns|
            && (TellsUntruth(FactsOf(spec, u.node.log), u.conns[i].wire) <==>
                !w.conns[i].closed && w.conns[i].last == q - 1 && !NoTickAfter(w.node.log, q))
  {
    var log := w.node.log;
    var sent := WorldStep(spec, w, SendAction(i, key, req, NoFault));
    RepeatIsAnswered(spec, w, i, key, req, q);
    AnswerOnConn(w.conns[i], key, q, SnapshotOf(spec, w.node.cache.value.engine), |log|);
    assert log[..|log|] == log;
    JudgedAndWritten(spec, sent, i);
    AnswerOnWire(spec, log, w.conns[i], sent.conns[i]);
  }

  /** What an answered connection, or one that had already closed, then writes. */
  lemma AnswerOnWire(spec: Spec, log: seq<LogEntry>, c: Conn, answered: Conn)
    requires Replay(spec, log).Success? && ConnOk(FactsOf(spec, log), c) && ConnOk(FactsOf(spec, log), answered)
    requires answered.reply.None? ==> answered.replying.None? && answered.wire == c.wire
    ensures TellsUntruth(FactsOf(spec, log), ConnStep(ConnStep(answered, JudgeReply), WriteReply).wire)
            <==> Misleads(log, answered)
  {
    if answered.reply.Some? {
      AnswerMisleadsIff(spec, log, answered);
    }
  }

  lemma RequestIsKnown(log: seq<LogEntry>, q: nat, req: string)
    requires Logged(log, q, req)
    ensures RequestTaken(log, Some(req)) && FindRequest(log, req).Some?
  {
    FindRequestMeaning(log, req);
  }

  lemma JudgedAndWritten(spec: Spec, w: World, i: nat)
    requires i < |w.conns|
    ensures var u := WorldStep(spec, WorldStep(spec, w, Inside(i, JudgeReply)), Inside(i, WriteReply));
            u == WithConn(w, i, ConnStep(ConnStep(w.conns[i], JudgeReply), WriteReply))
  {
    var judged := WorldStep(spec, w, Inside(i, JudgeReply));
    assert judged == WithConn(w, i, ConnStep(w.conns[i], JudgeReply));
  }

  // ----- retries a client may make -----

  /** The request is new, or the connection is already past its entry, or nothing has ticked since. */
  ghost predicate Courteous(w: World, ev: WorldEvent) {
    ev.SendAction? && Sends(w, ev.i) ==>
      forall q | Logged(w.node.log, q, ev.req) :: q <= w.conns[ev.i].last || NoTickAfter(w.node.log, q)
  }

  /** The connection that logged a request, and any whose snapshot came at or after it, is past its entry. */
  lemma OwnOrLaterIsCourteous(spec: Spec, w: World, i: nat, key: string, req: string, fault: Fault)
    requires WorldOk(spec, w)
    requires Sends(w, i) ==>
               forall q | Logged(w.node.log, q, req) ::
                 (req in w.owner && w.owner[req] == i) || q <= w.conns[i].base
    ensures Courteous(w, SendAction(i, key, req, fault))
  {
    if Sends(w, i) {
      forall q | Logged(w.node.log, q, req) ensures q <= w.conns[i].last {
        var p: nat := q - 1;
        assert w.node.log[p].clientRequestId == Some(req);
        assert ConnOk(FactsOf(spec, w.node.log), w.conns[i]);
        if w.conns[i].base < q {
          assert Settled(w.conns[w.owner[req]], p + 1);
        }
      }
    }
  }

  /** Pending answers are true, or the tracker is past them. */
  ghost predicate Unmisled(log: seq<LogEntry>, c: Conn) {
    c.reply.Some? ==> c.reply.value.delta.seqNo <= c.last || !Overtaken(log, c.reply.value)
  }

  ghost predicate NobodyMisled(w: World) {
    forall i | 0 <= i < |w.conns| :: Unmisled(w.node.log, w.conns[i])
  }

  lemma ConnStepUnmisled(log: seq<LogEntry>, c: Conn, ev: ConnEvent)
    requires Unmisled(log, c)
    ensures Unmisled(log, ConnStep(c, ev))
  {
  }

  lemma LongerLogUnmisled(a: seq<LogEntry>, b: seq<LogEntry>, c: Conn)
    requires a <= b && Unmisled(a, c)
    requires c.reply.Some? ==> 0 <= c.reply.value.at <= |a|
    ensures Unmisled(b, c)
  {
    if c.reply.Some? {
      assert a[..c.reply.value.at] == b[..c.reply.value.at];
    }
  }

  /** Answers were given while the log was at most as long as it is now. */
  lemma AnswersAreDated(spec: Spec, w: World, i: nat)
    requires WorldOk(spec, w) && i < |w.conns|
    ensures w.conns[i].reply.Some? ==>
              1 <= w.conns[i].reply.value.delta.seqNo <= w.conns[i].reply.value.at <= |w.node.log|
  {
    assert ConnOk(FactsOf(spec, w.node.log), w.conns[i]);
  }

  lemma NodeStepUnmisled(spec: Spec, w: World, n: Node)
    requires WorldOk(spec, w) && NobodyMisled(w) && w.node.log <= n.log
    ensures NobodyMisled(w.(node := n))
  {
    forall i | 0 <= i < |w.conns| ensures Unmisled(n.log, w.conns[i]) {
      AnswersAreDated(spec, w, i);
      LongerLogUnmisled(w.node.log, n.log, w.conns[i]);
    }
  }

  /** The answer to a courteous request misleads nobody. */
  lemma CourteousAnswer(spec: Spec, w: World, i: nat, key: string, req: string, fault: Fault)
    requires WorldOk(spec, w) && Sends(w, i) && Courteous(w, SendAction(i, key, req, fault))
    requires !Hazard(spec, w.node, Acting(key, req, Read(NoFault), fault))
    ensures var (n, r) := ActLoaded(spec, w.node, key, req, fault);
            Unmisled(n.log, Answered(w.conns[i], key, r, |n.log|)) && w.node.log <= n.log
  {
    var (n, r) := ActLoaded(spec, w.node, key, req, fault);
    ActOnlyGrows(spec, w.node, key, req, fault);
    if w.node.cache.value.terminal || FindRequest(w.node.log, req).Some? || fault == NotStored {
      IdleAct(spec, w.node, key, req, fault);
      RepeatedAnswer(spec, w.node, key, req, fault);
      if r.Success? {
        assert Logged(w.node.log, r.value.seqNo, req);
        assert n.log[..|n.log|] == w.node.log;
      }
    } else {
      FreshAct(spec, w.node, key, req, fault);
      assert NoTickAfter(n.log[..|n.log|], |n.log|);
    }
  }

  lemma SendUnmisled(spec: Spec, w: World, i: nat, key: string, req: string, fault: Fault)
    requires WorldOk(spec, w) && NobodyMisled(w) && Sends(w, i) && Courteous(w, SendAction(i, key, req, fault))
    requires !Hazard(spec, w.node, Acting(key, req, Read(NoFault), fault))
    ensures NobodyMisled(ActionStepOn(spec, w, i, key, req, fault))
  {
    CourteousAnswer(spec, w, i, key, req, fault);
    NodeStepUnmisled(spec, w, ActLoaded(spec, w.node, key, req, fault).0);
  }

  lemma OpenUnmisled(spec: Spec, w: World, k: nat, fault: LoadFault, replaced: bool)
    requires WorldOk(spec, w) && NobodyMisled(w) && k < |w.clients|
    ensures NobodyMisled(OpenStep(spec, w, k, fault, replaced))
  {
    ConnectKeepsHealthy(spec, w.node, fault);
    NodeStepUnmisled(spec, w, Connect(spec, w.node, fault).0);
  }

  lemma SubscribeUnmisled(spec: Spec, w: World, i: nat, fault: LoadFault)
    requires WorldOk(spec, w) && NobodyMisled(w) && i < |w.conns|
    ensures NobodyMisled(SubscribeStep(spec, w, i, fault))
  {
    ConnectKeepsHealthy(spec, w.node, fault);
    NodeStepUnmisled(spec, w, Connect(spec, w.node, fault).0);
  }

  lemma FireUnmisled(spec: Spec, w: World, early: bool, fault: Fault)
    requires WorldOk(spec, w) && NobodyMisled(w)
    ensures NobodyMisled(WorldStep(spec, w, FireTick(early, fault)))
  {
    var (n, out) := Fire(spec, w.node, early, fault);
    FireOnlyGrows(spec, w.node, early, fault);
    NodeStepUnmisled(spec, w, n);
    assert forall i | 0 <= i < |w.conns| :: Unmisled(n.log, w.conns[i]) ==> Unmisled(n.log, Push(w.conns[i], out));
  }

  lemma CourteousStep(spec: Spec, w: World, ev: WorldEvent)
    requires WorldOk(spec, w) && NobodyMisled(w) && Courteous(w, ev) && !RuntimeHazard(spec, w, ev)
    ensures !Hazardous(spec, w, ev) && NobodyMisled(WorldStep(spec, w, ev))
  {
    match ev
    case Open(k, fault, replaced) => if k < |w.clients| { OpenUnmisled(spec, w, k, fault, replaced); }
    case Subscribe(i, fault) =>
      if i < |w.conns| && w.conns[i].running && !w.conns[i].subscribed { SubscribeUnmisled(spec, w, i, fault); }
    case SendAction(i, key, req, fault) => if Sends(w, i) { SendUnmisled(spec, w, i, key, req, fault); }
    case Inside(i, e) => if i < |w.conns| { ConnStepUnmisled(w.node.log, w.conns[i], e); }
    case Deliver(_) =>
    case Leave(_) =>
    case FireTick(early, fault) => FireUnmisled(spec, w, early, fault);
    case RestartProcess =>
  }

  ghost predicate CourteousAt(spec: Spec, clients: nat, events: seq<WorldEvent>, j: nat)
    requires j < |events|
  {
    var w := RunWorld(spec, clients, events[..j]);
    Courteous(w, events[j]) && !RuntimeHazard(spec, w, events[j])
  }

  ghost predicate CourteousRun(spec: Spec, clients: nat, events: seq<WorldEvent>) {
    forall j | 0 <= j < |events| :: CourteousAt(spec, clients, events, j)
  }

  lemma CourteousFront(spec: Spec, clients: nat, events: seq<WorldEvent>)
    requires CourteousRun(spec, clients, events) && events != []
    ensures CourteousRun(spec, clients, events[..|events| - 1])
  {
    var front := events[..|events| - 1];
    forall j | 0 <= j < |front| ensures CourteousAt(spec, clients, front, j) {
      assert front[..j] == events[..j] && front[j] == events[j];
      assert CourteousAt(spec, clients, events, j);
    }
  }

  /** Courteous retries are safe: in such a run no step is hazardous, so every client shows the replay. */
  lemma {:induction false} CourteousRunsAreSafe(spec: Spec, clients: nat, events: seq<WorldEvent>)
    requires CourteousRun(spec, clients, events)
    ensures SafeRun(spec, clients, events) && NobodyMisled(RunWorld(spec, clients, events))
  {
    if events != [] {
      var front, last := events[..|events| - 1], |events| - 1;
      CourteousFront(spec, clients, events);
      CourteousRunsAreSafe(spec, clients, front);
      SafeRunsAreOk(spec, clients, front);
      assert CourteousAt(spec, clients, events, last);
      CourteousStep(spec, RunWorld(spec, clients, front), events[last]);
      SafeOneMore(spec, clients, events);
    }
  }

  // ----- connections opened after an entry -----

  /** Old connections keep their base, new ones start no earlier than the log then ended. */
  ghost predicate Succeeds(w: World, u: World) {
    && w.node.log <= u.node.log && |w.conns| <= |u.conns|
    && (forall i | 0 <= i < |w.conns| :: u.conns[i].base == w.conns[i].base)
    && (forall i | |w.conns| <= i < |u.conns| :: |w.node.log| <= u.conns[i].base)
  }

  lemma SuccessionIsTransitive(a: World, b: World, c: World)
    requires Succeeds(a, b) && Succeeds(b, c)
    ensures Succeeds(a, c)
  {
  }

  lemma OpenSucceeds(spec: Spec, w: World, k: nat, fault: LoadFault, replaced: bool)
    requires WorldOk(spec, w) && k < |w.clients|
    ensures Succeeds(w, OpenStep(spec, w, k, fault, replaced))
  {
    ConnectKeepsHealthy(spec, w.node, fault);
  }

  /** Steps that open no connection keep each one's base. */
  lemma SameConnsSucceed(w: World, u: World)
    requires w.node.log <= u.node.log && |w.conns| == |u.conns|
    requires forall i | 0 <= i < |w.conns| :: u.conns[i].base == w.conns[i].base
    ensures Succeeds(w, u)
  {
  }

  lemma BasesStay(spec: Spec, w: World, ev: WorldEvent)
    requires !ev.Open?
    ensures var u := WorldStep(spec, w, ev);
            |u.conns| == |w.conns| && forall i | 0 <= i < |w.conns| :: u.conns[i].base == w.conns[i].base
  {
    match ev
    case SendAction(i, _, _, _) =>
    case Inside(i, e) => assert i < |w.conns| ==> ConnStep(w.conns[i], e).base == w.conns[i].base;
    case Deliver(_) =>
    case _ =>
  }

  lemma LogGrows(spec: Spec, w: World, ev: WorldEvent)
    requires WorldOk(spec, w)
    ensures w.node.log <= WorldStep(spec, w, ev).node.log
  {
    match ev
    case Open(_, fault, _) => ConnectKeepsHealthy(spec, w.node, fault);
    case Subscribe(_, fault) => ConnectKeepsHealthy(spec, w.node, fault);
    case SendAction(i, key, req, fault) => if Sends(w, i) { ActOnlyGrows(spec, w.node, key, req, fault); }
    case FireTick(early, fault) => FireOnlyGrows(spec, w.node, early, fault);
    case _ =>
  }

  lemma SuccessionStep(spec: Spec, w: World, ev: WorldEvent)
    requires WorldOk(spec, w)
    ensures Succeeds(w, WorldStep(spec, w, ev))
  {
    if ev.Open? {
      if ev.k < |w.clients| {
        OpenSucceeds(spec, w, ev.k, ev.loadFault, ev.replaced);
      }
    } else {
      BasesStay(spec, w, ev);
      LogGrows(spec, w, ev);
      SameConnsSucceed(w, WorldStep(spec, w, ev));
    }
  }

  lemma {:induction false} RunSucceeds(spec: Spec, clients: nat, events: seq<WorldEvent>, more: seq<WorldEvent>)
    requires SafeRun(spec, clients, events + more)
    ensures Succeeds(RunWorld(spec, clients, events), RunWorld(spec, clients, events + more))
  {
    if more == [] {
      assert events + more == events;
    } else {
      var front := events + more[..|more| - 1];
      assert (events + more)[..|events + more| - 1] == front;
      SafeFront(spec, clients, events + more);
      RunSucceeds(spec, clients, events, more[..|more| - 1]);
      SafeRunsAreOk(spec, clients, front);
      SuccessionStep(spec, RunWorld(spec, clients, front), more[|more| - 1]);
      SuccessionIsTransitive(RunWorld(spec, clients, events), RunWorld(spec, clients, front),
                             RunWorld(spec, clients, events + more));
    }
  }

  /** A connection opened after entry q, by reconnecting or after a restart, is past q from its first moment on. */
  lemma LaterConnectionIsAhead(spec: Spec, clients: nat, events: seq<WorldEvent>, more: seq<WorldEvent>, i: nat)
    requires SafeRun(spec, clients, events + more)
    requires |RunWorld(spec, clients, events).conns| <= i < |RunWorld(spec, clients, events + more).conns|
    ensures var c := RunWorld(spec, clients, events + more).conns[i];
            |RunWorld(spec, clients, events).node.log| <= c.base <= c.last
  {
    var u := RunWorld(spec, clients, events + more);
    RunSucceeds(spec, clients, events, more);
    SafeRunsAreOk(spec, clients, events + more);
    assert ConnOk(FactsOf(spec, u.node.log), u.conns[i]);
  }
}
