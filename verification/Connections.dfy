/** What single steps do to a connection or a client, case by case. */
module Connections {
  import opened Prelude
  import opened Simulation
  import opened ActionTable
  import opened Runtime
  import opened Tracker
  import opened EndToEnd

  // ----- judging, case by case -----

  /** A stale answer is dropped, the next one passed on, and one beyond a gap or without a seq closes the connection. */
  lemma HandlerJudgement(c: Conn)
    requires c.reply.Some?
    ensures var d, u := c.reply.value.delta, ConnStep(c, JudgeReply);
            && (0 < d.seqNo <= c.last ==> u == c.(reply := None))
            && (0 < d.seqNo == c.last + 1 ==> u == c.(reply := None, last := d.seqNo, replying := Some(d)))
            && (d.seqNo <= 0 || d.seqNo > c.last + 1 ==>
                  u.closed && !u.running && u.last == c.last && u.wire == c.wire)
  {
  }

  /** The same for a streamed tick, except that the handler does not know yet. */
  lemma StreamerJudgement(c: Conn)
    requires c.channel != [] && c.streaming.None?
    ensures var d, u := c.channel[0], ConnStep(c, JudgeStream);
            && (0 < d.seqNo <= c.last ==> u == c.(channel := c.channel[1..]))
            && (0 < d.seqNo == c.last + 1 ==>
                  u == c.(channel := c.channel[1..], last := d.seqNo, streaming := Some(d)))
            && (d.seqNo <= 0 || d.seqNo > c.last + 1 ==>
                  u.closed && u.running == c.running && u.last == c.last && u.wire == c.wire)
  {
  }

  /** What has been passed on is written if the writer is still open. */
  lemma PassedOnIsWritten(c: Conn)
    ensures c.streaming.Some? && !c.closed ==>
              ConnStep(c, WriteStream) == c.(streaming := None, wire := c.wire + [DeltaMsg(c.streaming.value)])
    ensures c.replying.Some? && !c.closed ==>
              ConnStep(c, WriteReply) == c.(replying := None, wire := c.wire + [DeltaMsg(c.replying.value)])
    ensures c.wins != [] && !c.closed ==>
              ConnStep(c, WriteWin) == c.(wins := c.wins[1..], wire := c.wire + [WinUpdate(c.wins[0])])
  {
  }

  // ----- opening, subscribing, acting, reading -----

  /** A greeted connection starts at its snapshot, unsubscribed; a failed greeting leaves its client without one. */
  lemma OpenOutcome(spec: Spec, w: World, k: nat, fault: LoadFault)
    requires Healthy(spec, w.node) && k < |w.clients|
    ensures var (n, hello) := Connect(spec, w.node, fault);
            var u := WorldStep(spec, w, Open(k, fault, false));
            && u.node == n && |u.clients| == |w.clients| && u.clients[k].view == w.clients[k].view
            && (hello.Some? ==>
                  && u.clients[k].conn == Some(|w.conns|) && |u.conns| == |w.conns| + 1
                  && var c := u.conns[|w.conns|];
                  && c.running && !c.closed && !c.subscribed && c.channel == [] && c.wins == []
                  && c.base == c.last == |n.log| && c.streaming.None? && c.reply.None? && c.replying.None?
                  && c.wire == [HelloAck, SnapshotMsg(hello.value)])
            && (hello.None? ==> u.clients[k].conn.None? && u.conns == w.conns)
  {
    ConnectKeepsHealthy(spec, w.node, fault);
  }

  /** A subscription starts the stream and changes nothing else; a failed one closes the connection. */
  lemma SubscribeOutcome(spec: Spec, w: World, i: nat, fault: LoadFault)
    requires i < |w.conns| && w.conns[i].running && !w.conns[i].subscribed
    ensures var u := WorldStep(spec, w, Subscribe(i, fault));
            |u.conns| == |w.conns|
            && if Connect(spec, w.node, fault).1.Some? then u.conns[i] == w.conns[i].(subscribed := true)
               else u.conns[i].closed && !u.conns[i].running && !u.conns[i].subscribed
  {
  }

  /** An accepted action is acknowledged and its delta waits for the tracker; a refused one closes the connection. */
  lemma SendOutcome(spec: Spec, w: World, i: nat, key: string, req: string, fault: Fault)
    requires Sends(w, i)
    ensures var (n, r) := ActLoaded(spec, w.node, key, req, fault);
            var c, u := w.conns[i], WorldStep(spec, w, SendAction(i, key, req, fault));
            && u.node == n && |u.conns| == |w.conns|
            && (r.Success? && !c.closed ==>
                  u.conns[i] == c.(wire := c.wire + [ActionAccepted(key, r.value.seqNo)],
                                   reply := Some(Answer(r.value, |n.log|))))
            && (r.Failure? || c.closed ==> u.conns[i].closed && !u.conns[i].running && u.conns[i].wire == c.wire)
            && forall j | 0 <= j < |w.conns| && j != i :: u.conns[j] == w.conns[j]
  {
  }

  /** A client reads the oldest message; a delta out of place makes it throw the connection away. */
  lemma ReadOutcome(spec: Spec, w: World, i: nat, k: nat)
    requires i < |w.conns| && k < |w.clients| && w.clients[k].conn == Some(i) && w.conns[i].wire != []
    ensures var c, v, u := w.conns[i], w.clients[k].view, WorldStep(spec, w, Deliver(k));
            && |u.conns| == |w.conns| && |u.clients| == |w.clients| && u.conns[i] == c.(wire := c.wire[1..])
            && u.clients[k].view == OnMessage(v, c.wire[0]).0
            && (u.clients[k].conn.None? <==> c.wire[0].DeltaMsg? && c.wire[0].d.seqNo != v.lastSeq + 1)
            && (u.clients[k].conn.Some? ==> u.clients[k].conn == Some(i))
            && forall j | 0 <= j < |w.clients| && j != k :: u.clients[j] == w.clients[j]
  {
  }

  /** A client that leaves, a handler that returns, a process that dies. */
  lemma EndOutcome(spec: Spec, w: World, i: nat, k: nat)
    requires i < |w.conns| && k < |w.clients|
    ensures WorldStep(spec, w, Leave(k)).clients[k] == w.clients[k].(conn := None)
    ensures var c := ConnStep(w.conns[i], Drop); c.closed && !c.running && !c.subscribed && c.wire == w.conns[i].wire
    ensures ConnStep(w.conns[i], CloseWriter) == w.conns[i].(closed := true)
    ensures var u := WorldStep(spec, w, RestartProcess);
            && u.node.log == w.node.log && u.node.cache.None? && u.node.loops == 0 && |u.conns| == |w.conns|
            && u.conns[i].closed && !u.conns[i].running && u.conns[i].wire == w.conns[i].wire && u.clients == w.clients
  {
  }
}
