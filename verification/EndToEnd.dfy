/**
 One run served end to end: the runtime, any number of connections (lossy channels, trackers, writers)
 and any number of browser clients, interleaved step by step.
 */
module EndToEnd {
  import opened Prelude
  import opened StringOrder
  import opened Simulation
  import opened ReplayLaws
  import opened ActionTable
  import opened Runtime
  import opened Requests
  import opened RuntimeObjects
  import opened Tracker

  /** A reply to an action: its entry's seq, the run as it stood, and the log's length then. */
  datatype Answer = Answer(delta: Delta, at: int)

  /**
   One connection. The tracker and the writer have separate locks, so a delta the tracker has let through
   waits in streaming or replying until its goroutine writes it, and the two may be written in either order.
   base is the seq of the snapshot it started from.
   */
  datatype Conn = Conn(
    running: bool,
    closed: bool,
    subscribed: bool,
    channel: seq<Delta>,
    wins: seq<bool>,
    base: int,
    last: int,
    streaming: Option<Delta>,
    reply: Option<Answer>,
    replying: Option<Delta>,
    wire: seq<Message>)

  datatype Client = Client(conn: Option<nat>, view: View)

  /** owner remembers, for each logged request id, the connection it was logged on. */
  datatype World = World(node: Node, conns: seq<Conn>, clients: seq<Client>, owner: map<string, nat>)

  /** Steps inside one connection: its handler, its streaming goroutines, its writer being closed by others. */
  datatype ConnEvent = JudgeReply | WriteReply | JudgeStream | WriteStream | WriteWin | CloseWriter | Drop

  datatype WorldEvent =
    /** A client's new connection; replaced: its writer was closed by a newer one before it could write. */
    | Open(k: nat, loadFault: LoadFault, replaced: bool)
    | Subscribe(i: nat, loadFault: LoadFault)
    | SendAction(i: nat, key: string, req: string, fault: Fault)
    | Inside(i: nat, ev: ConnEvent)
    | Deliver(k: nat)
    | Leave(k: nat)
    | FireTick(early: bool, fault: Fault)
    | RestartProcess

  // ----- steps of one connection -----

  function Write(c: Conn, m: Message): Conn {
    if c.closed then c else c.(wire := c.wire + [m])
  }

  /** The handler returns: its writer is closed and nobody reads its channel again. */
  function Stop(c: Conn): Conn {
    c.(running := false, closed := true, subscribed := false, channel := [])
  }

  /** writeDelta by the handler, up to the write itself. */
  function HandlerJudges(c: Conn): Conn
    requires c.reply.Some?
  {
    var d := c.reply.value.delta;
    if d.seqNo <= 0 || Judge(c.last, d.seqNo) == Gap then Stop(c).(reply := None)
    else if Judge(c.last, d.seqNo) == Stale then c.(reply := None)
    else c.(reply := None, last := d.seqNo, replying := Some(d))
  }

  /** writeDelta by the streaming goroutine, up to the write itself. */
  function StreamerJudges(c: Conn): Conn
    requires c.channel != []
  {
    var d, rest := c.channel[0], c.channel[1..];
    if d.seqNo <= 0 || Judge(c.last, d.seqNo) == Gap then c.(closed := true, subscribed := false, channel := [])
    else if Judge(c.last, d.seqNo) == Stale then c.(channel := rest)
    else c.(channel := rest, last := d.seqNo, streaming := Some(d))
  }

  function ConnStep(c: Conn, ev: ConnEvent): Conn {
    match ev
    case JudgeReply => if c.reply.Some? then HandlerJudges(c) else c
    case WriteReply =>
      if c.replying.None? then c
      else if c.closed then Stop(c).(replying := None)
      else Write(c, DeltaMsg(c.replying.value)).(replying := None)
    case JudgeStream => if c.channel != [] && c.streaming.None? then StreamerJudges(c) else c
    case WriteStream => if c.streaming.Some? then Write(c, DeltaMsg(c.streaming.value)).(streaming := None) else c
    case WriteWin => if c.wins != [] then Write(c, WinUpdate(c.wins[0])).(wins := c.wins[1..]) else c
    case CloseWriter => c.(closed := true)
    case Drop => Stop(c)
  }

  /** What a tick turn sends to a subscriber; full channels drop it. */
  function Push(c: Conn, out: FireOut): Conn {
    if !c.subscribed then c
    else c.(channel := if out.delta.Some? then Offer(c.channel, out.delta.value) else c.channel,
            wins := if out.win.Some? then OfferWin(c.wins, out.win.value) else c.wins)
  }

  /** A process restart cuts every connection; what is already on the wire may still arrive. */
  function Cut(c: Conn): Conn {
    Stop(c).(streaming := None, reply := None, replying := None, wins := [])
  }

  function NewConn(hello: Delta): Conn {
    Conn(true, false, false, [], [], hello.seqNo, hello.seqNo, None, None, None, [HelloAck, SnapshotMsg(hello)])
  }

  /** A handler that finds its writer closed gives up before its snapshot. */
  function Greeted(hello: Delta, replaced: bool): Conn {
    if replaced then Stop(NewConn(hello)).(wire := []) else NewConn(hello)
  }

  // ----- steps of the world -----

  function WithConn(w: World, i: nat, c: Conn): World
    requires i < |w.conns|
  {
    w.(conns := w.conns[i := c])
  }

  ghost function OpenStep(spec: Spec, w: World, k: nat, fault: LoadFault, replaced: bool): World
    requires k < |w.clients|
  {
    var (n, hello) := Connect(spec, w.node, fault);
    match hello
    case None => w.(node := n, clients := w.clients[k := w.clients[k].(conn := None)])
    case Some(d) =>
      w.(node := n, conns := w.conns + [Greeted(d, replaced)],
         clients := w.clients[k := w.clients[k].(conn := Some(|w.conns|))])
  }

  ghost function SubscribeStep(spec: Spec, w: World, i: nat, fault: LoadFault): World
    requires i < |w.conns|
  {
    var (n, hello) := Connect(spec, w.node, fault);
    var c := w.conns[i];
    WithConn(w.(node := n), i, if hello.Some? then c.(subscribed := true) else Stop(c))
  }

  /** Connection i's handler can take an action: it streams, or has closed its writer and does not know yet. */
  predicate Sends(w: World, i: nat) {
    && i < |w.conns| && w.node.cache.Some?
    && var c := w.conns[i];
    c.running && (c.subscribed || c.closed) && c.reply.None? && c.replying.None?
  }

  ghost function ActionStepOn(spec: Spec, w: World, i: nat, key: string, req: string, fault: Fault): World
    requires i < |w.conns| && w.node.cache.Some?
  {
    var (n, r) := ActLoaded(spec, w.node, key, req, fault);
    var owner := if n.log == w.node.log then w.owner else w.owner[req := i];
    WithConn(w.(node := n, owner := owner), i, Answered(w.conns[i], key, r, |n.log|))
  }

  /** The handler writes action_accepted and turns to the delta, or gives up. */
  function Answered(c: Conn, key: string, r: Result<Delta, RuntimeError>, at: int): Conn {
    if r.Failure? || c.closed then Stop(c)
    else Write(c, ActionAccepted(key, r.value.seqNo)).(reply := Some(Answer(r.value, at)))
  }

  function DeliverStep(w: World, k: nat, i: nat): World
    requires k < |w.clients| && i < |w.conns| && w.conns[i].wire != []
  {
    var c := w.conns[i];
    var (v, reconnect) := OnMessage(w.clients[k].view, c.wire[0]);
    WithConn(w, i, c.(wire := c.wire[1..])).(
      clients := w.clients[k := Client(if reconnect then None else Some(i), v)])
  }

  ghost function WorldStep(spec: Spec, w: World, ev: WorldEvent): World {
    match ev
    case Open(k, fault, replaced) => if k < |w.clients| then OpenStep(spec, w, k, fault, replaced) else w
    case Subscribe(i, fault) =>
      if i < |w.conns| && w.conns[i].running && !w.conns[i].subscribed then SubscribeStep(spec, w, i, fault) else w
    case SendAction(i, key, req, fault) =>
      if Sends(w, i) then ActionStepOn(spec, w, i, key, req, fault) else w
    case Inside(i, e) => if i < |w.conns| then WithConn(w, i, ConnStep(w.conns[i], e)) else w
    case Deliver(k) =>
      if k < |w.clients| && w.clients[k].conn.Some? && w.clients[k].conn.value < |w.conns|
         && w.conns[w.clients[k].conn.value].wire != [] then
        DeliverStep(w, k, w.clients[k].conn.value)
      else w
    case Leave(k) => if k < |w.clients| then w.(clients := w.clients[k := w.clients[k].(conn := None)]) else w
    case FireTick(early, fault) =>
      var (n, out) := Fire(spec, w.node, early, fault);
      w.(node := n, conns := seq(|w.conns|, i requires 0 <= i < |w.conns| => Push(w.conns[i], out)))
    case RestartProcess =>
      w.(node := Restart(w.node), conns := seq(|w.conns|, i requires 0 <= i < |w.conns| => Cut(w.conns[i])))
  }

  ghost function RunWorld(spec: Spec, clients: nat, events: seq<WorldEvent>): World {
    if events == [] then World(Fresh(), [], seq(clients, _ => Client(None, Blank())), map[])
    else WorldStep(spec, RunWorld(spec, clients, events[..|events| - 1]), events[|events| - 1])
  }

  // ----- truth -----

  /** What the run looked like after its first k log entries. */
  ghost function ShownAt(spec: Spec, log: seq<LogEntry>, k: int): Option<Snapshot> {
    if 1 <= k <= |log| && Replay(spec, log[..k]).Success? then Some(SnapshotOf(spec, Replay(spec, log[..k]).value))
    else None
  }

  /** Everything that may be said about a run. */
  datatype Facts = Facts(deltas: iset<Delta>, won: bool, keys: iset<string>, requests: iset<int>)

  /** Entry q came from a request. */
  ghost predicate IsRequest(log: seq<LogEntry>, q: int) {
    1 <= q <= |log| && log[q - 1].clientRequestId.Some?
  }

  ghost function FactsOf(spec: Spec, log: seq<LogEntry>): Facts {
    var deltas := (iset d: Delta | ShownAt(spec, log, d.seqNo) == Some(d.payload));
    var keys := (iset key: string | exists i :: 0 <= i < |log| && log[i].actionKey == Some(key));
    var requests := (iset q: int | IsRequest(log, q));
    Facts(deltas, WonBy(spec, log), keys, requests)
  }

  ghost predicate MessageOk(f: Facts, m: Message) {
    match m
    case HelloAck => true
    case SnapshotMsg(d) => d in f.deltas
    case DeltaMsg(d) => d in f.deltas
    case WinUpdate(won) => won ==> f.won
    case ActionAccepted(key, _) => key in f.keys
  }

  /** An answer shows the run as it stood when it was given; under its own, possibly older seq it may be untrue. */
  ghost predicate AnswerOk(f: Facts, a: Answer) {
    && 1 <= a.delta.seqNo <= a.at && a.delta.seqNo in f.requests
    && Delta(a.at, a.delta.payload) in f.deltas
  }

  ghost predicate ConnOk(f: Facts, c: Conn) {
    && (forall d | d in c.channel :: d in f.deltas)
    && (c.streaming.Some? ==> c.streaming.value in f.deltas)
    && (c.replying.Some? ==> c.closed || c.replying.value in f.deltas)
    && (c.reply.Some? ==> AnswerOk(f, c.reply.value) && c.replying.None?)
    && c.base <= c.last && (c.running || c.closed)
    && (true in c.wins ==> f.won)
    && (forall m | m in c.wire :: MessageOk(f, m))
  }

  ghost predicate Shows(v: View, p: Snapshot) {
    v.tick == p.tick && v.metrics == p.metrics && v.actions == p.actions && (p.won ==> v.won)
  }

  /** The client shows exactly the run at its lastSeq, a win only if the run is won, and applied only what is logged. */
  ghost predicate ViewOk(f: Facts, v: View) {
    && (v == Blank().(won := v.won, applied := v.applied)
        || exists p :: Delta(v.lastSeq, p) in f.deltas && Shows(v, p))
    && (v.won ==> f.won)
    && (forall key | key in v.applied :: key in f.keys)
  }

  ghost predicate SpeaksTruth(f: Facts, conns: seq<Conn>, clients: seq<Client>) {
    && (forall i | 0 <= i < |conns| :: ConnOk(f, conns[i]))
    && (forall k | 0 <= k < |clients| :: ViewOk(f, clients[k].view))
  }

  /** The answer to the request logged as entry q can no longer surprise connection c. */
  ghost predicate Settled(c: Conn, q: int) {
    || c.last >= q || !c.running
    || (c.reply.Some? && c.reply.value.delta.seqNo == q && c.reply.value.at == q)
  }

  ghost predicate OwnersOk(w: World) {
    forall i | 0 <= i < |w.node.log| && w.node.log[i].clientRequestId.Some? ::
      var req := w.node.log[i].clientRequestId.value;
      req in w.owner && w.owner[req] < |w.conns| && Settled(w.conns[w.owner[req]], i + 1)
  }

  ghost predicate WorldOk(spec: Spec, w: World) {
    && Healthy(spec, w.node)
    && OwnersOk(w)
    && SpeaksTruth(FactsOf(spec, w.node.log), w.conns, w.clients)
  }

  // ----- the ways it is lost -----

  ghost predicate NoTickAfter(log: seq<LogEntry>, q: int) {
    forall i | 0 <= q <= i < |log| :: log[i].actionType != TICK
  }

  /** A tick came between the entry an answer belongs to and the answer. */
  ghost predicate Overtaken(log: seq<LogEntry>, a: Answer) {
    0 <= a.at <= |log| && !NoTickAfter(log[..a.at], a.delta.seqNo)
  }

  /** The tracker is one short of an overtaken answer, and the writer is open. */
  ghost predicate Misleads(log: seq<LogEntry>, c: Conn) {
    c.reply.Some? && !c.closed && c.reply.value.delta.seqNo == c.last + 1 && Overtaken(log, c.reply.value)
  }

  ghost predicate RuntimeHazard(spec: Spec, w: World, ev: WorldEvent) {
    match ev
    case SendAction(i, key, req, fault) => Sends(w, i) && Hazard(spec, w.node, Acting(key, req, Read(NoFault), fault))
    case FireTick(early, fault) => Hazard(spec, w.node, Firing(early, fault))
    case _ => false
  }

  ghost predicate Hazardous(spec: Spec, w: World, ev: WorldEvent) {
    || RuntimeHazard(spec, w, ev)
    || (ev.Inside? && ev.ev.JudgeReply? && ev.i < |w.conns| && Misleads(w.node.log, w.conns[ev.i]))
  }

  // ----- truth only grows -----

  ghost predicate Extends(f: Facts, g: Facts) {
    f.deltas <= g.deltas && (f.won ==> g.won) && f.keys <= g.keys && f.requests <= g.requests
  }

  lemma WonGrows(spec: Spec, a: seq<LogEntry>, b: seq<LogEntry>)
    requires a <= b && Replay(spec, b).Success? && WonBy(spec, a)
    ensures a == b
  {
    AcceptedIff(spec, b);
    assert b[..|a|] == a;
  }

  lemma FactsGrow(spec: Spec, a: seq<LogEntry>, b: seq<LogEntry>)
    requires a <= b && Replay(spec, b).Success?
    ensures Extends(FactsOf(spec, a), FactsOf(spec, b))
  {
    assert forall k | 0 <= k <= |a| :: b[..k] == a[..k];
    if WonBy(spec, a) {
      WonGrows(spec, a, b);
    }
    forall key | key in FactsOf(spec, a).keys ensures key in FactsOf(spec, b).keys {
      var i :| 0 <= i < |a| && a[i].actionKey == Some(key);
      assert b[i].actionKey == Some(key);
    }
  }

  /** A true snapshot that shows a win is the last one there is. */
  lemma WinningSnapshot(spec: Spec, log: seq<LogEntry>, d: Delta)
    requires Replay(spec, log).Success? && d in FactsOf(spec, log).deltas && d.payload.won
    ensures FactsOf(spec, log).won
  {
    WonGrows(spec, log[..d.seqNo], log);
  }

  lemma TruthGrows(f: Facts, g: Facts, conns: seq<Conn>, clients: seq<Client>)
    requires SpeaksTruth(f, conns, clients) && Extends(f, g)
    ensures SpeaksTruth(g, conns, clients)
  {
    forall i | 0 <= i < |conns| ensures ConnOk(g, conns[i]) {
      assert ConnOk(f, conns[i]);
      assert forall m | m in conns[i].wire :: MessageOk(f, m) ==> MessageOk(g, m);
    }
    forall k | 0 <= k < |clients| ensures ViewOk(g, clients[k].view) {
      assert ViewOk(f, clients[k].view);
    }
  }

  // ----- when an answer is true -----

  lemma NoTickAfterSplits(log: seq<LogEntry>, q: nat)
    requires q < |log|
    ensures NoTickAfter(log, q) <==> NoTickAfter(log[..|log| - 1], q) && log[|log| - 1].actionType != TICK
  {
    assert forall i | q <= i < |log| - 1 :: log[..|log| - 1][i] == log[i];
  }

  lemma EntryShows(spec: Spec, s: State, i: nat, e: LogEntry)
    requires ReplayEntry(spec, s, i, e).Success?
    ensures var t := ReplayEntry(spec, s, i, e).value;
            if e.actionType == TICK then t.tick == s.tick + 1
            else t.tick == s.tick && t.won == s.won && t.metrics == s.metrics
  {
  }

  /** Between ticks nothing shown changes; a tick always shows. */
  lemma {:induction false} OnlyTicksShow(spec: Spec, log: seq<LogEntry>, q: nat)
    requires q <= |log| && Replay(spec, log).Success?
    ensures Replay(spec, log[..q]).Success?
    ensures var s, t := Replay(spec, log[..q]).value, Replay(spec, log).value;
            if NoTickAfter(log, q) then s.tick == t.tick && s.won == t.won && s.metrics == t.metrics
            else s.tick < t.tick
    decreases |log|
  {
    if q == |log| {
      assert log[..q] == log;
    } else {
      var front, e := log[..|log| - 1], log[|log| - 1];
      OnlyTicksShow(spec, front, q);
      EntryShows(spec, Replay(spec, front).value, |front|, e);
      NoTickAfterSplits(log, q);
      assert front[..q] == log[..q];
    }
  }

  /** An answer is true under its own seq exactly when no tick came in between. */
  lemma AnswerTrueIff(spec: Spec, log: seq<LogEntry>, a: Answer)
    requires Replay(spec, log).Success? && AnswerOk(FactsOf(spec, log), a)
    ensures a.delta in FactsOf(spec, log).deltas <==> !Overtaken(log, a)
  {
    var seen := log[..a.at];
    OnlyTicksShow(spec, seen, a.delta.seqNo);
    assert seen[..a.delta.seqNo] == log[..a.delta.seqNo];
  }

  // ----- inside a connection -----

  lemma WriteKeepsTruth(f: Facts, c: Conn, m: Message)
    requires ConnOk(f, c) && (c.closed || MessageOk(f, m))
    ensures ConnOk(f, Write(c, m))
  {
  }

  lemma HandlerKeepsTruthIff(spec: Spec, log: seq<LogEntry>, c: Conn)
    requires Replay(spec, log).Success? && ConnOk(FactsOf(spec, log), c) && c.reply.Some?
    ensures ConnOk(FactsOf(spec, log), HandlerJudges(c)) <==> !Misleads(log, c)
  {
    var d := c.reply.value.delta;
    AnswerTrueIff(spec, log, c.reply.value);
    if d.seqNo == c.last + 1 {
      assert HandlerJudges(c) == c.(reply := None, last := d.seqNo, replying := Some(d));
    }
  }

  lemma StreamerKeepsTruth(f: Facts, c: Conn)
    requires ConnOk(f, c) && c.channel != []
    ensures ConnOk(f, StreamerJudges(c))
  {
    var d, rest := c.channel[0], c.channel[1..];
    assert d in f.deltas by {
      assert d in c.channel;
    }
    assert ConnOk(f, c.(channel := rest)) by {
      assert forall x | x in rest :: x in c.channel;
    }
    TakenKeepsTruth(f, c.(channel := rest), d);
  }

  lemma TakenKeepsTruth(f: Facts, c: Conn, d: Delta)
    requires ConnOk(f, c) && d in f.deltas
    ensures ConnOk(f, c.(closed := true, subscribed := false, channel := []))
    ensures Judge(c.last, d.seqNo) == Next ==> ConnOk(f, c.(last := d.seqNo, streaming := Some(d)))
  {
  }

  lemma ReplyKeepsTruth(f: Facts, c: Conn)
    requires ConnOk(f, c) && c.replying.Some?
    ensures ConnOk(f, ConnStep(c, WriteReply))
  {
    if !c.closed {
      WriteKeepsTruth(f, c, DeltaMsg(c.replying.value));
    }
  }

  lemma OtherStepKeepsTruth(f: Facts, c: Conn, ev: ConnEvent)
    requires ConnOk(f, c) && !ev.JudgeReply?
    ensures ConnOk(f, ConnStep(c, ev))
  {
    match ev
    case WriteReply => if c.replying.Some? { ReplyKeepsTruth(f, c); }
    case JudgeStream => if c.channel != [] { StreamerKeepsTruth(f, c); }
    case WriteStream => if c.streaming.Some? { WriteKeepsTruth(f, c, DeltaMsg(c.streaming.value)); }
    case WriteWin =>
      if c.wins != [] {
        assert c.wins[0] in c.wins;
        WriteKeepsTruth(f, c, WinUpdate(c.wins[0]));
      }
    case CloseWriter =>
    case Drop =>
  }

  /** A step inside a connection makes it say something untrue exactly when it lets an overtaken answer through. */
  lemma ConnStepKeepsTruthIff(spec: Spec, log: seq<LogEntry>, c: Conn, ev: ConnEvent)
    requires Replay(spec, log).Success? && ConnOk(FactsOf(spec, log), c)
    ensures ConnOk(FactsOf(spec, log), ConnStep(c, ev)) <==> !(ev.JudgeReply? && Misleads(log, c))
  {
    if !ev.JudgeReply? {
      OtherStepKeepsTruth(FactsOf(spec, log), c, ev);
    } else if c.reply.Some? {
      HandlerKeepsTruthIff(spec, log, c);
    }
  }

  /** Nor does it unsettle a request. */
  lemma ConnStepKeepsSettled(c: Conn, ev: ConnEvent, q: int)
    requires Settled(c, q)
    ensures Settled(ConnStep(c, ev), q)
  {
  }

  lemma PushKeepsTruth(f: Facts, c: Conn, out: FireOut)
    requires ConnOk(f, c) && (out.delta.Some? ==> out.delta.value in f.deltas) && (out.win == Some(true) ==> f.won)
    ensures ConnOk(f, Push(c, out))
  {
  }

  /** A true message leaves a true view. */
  lemma MessageShown(f: Facts, v: View, m: Message)
    requires ViewOk(f, v) && MessageOk(f, m)
    requires (m.SnapshotMsg? || m.DeltaMsg?) && m.d.payload.won ==> f.won
    requires (m.SnapshotMsg? || m.DeltaMsg?) && m.d.payload.actions == [] ==> v.actions == []
    ensures ViewOk(f, OnMessage(v, m).0)
  {
    if m.SnapshotMsg? || m.DeltaMsg? {
      assert Shows(Show(v, m.d), m.d.payload);
    }
  }

  // ----- each step of the world -----

  /** Changing connections, with log, clients and owners untouched. */
  lemma ConnsStepOk(spec: Spec, w: World, conns: seq<Conn>)
    requires WorldOk(spec, w) && |conns| == |w.conns|
    requires forall i | 0 <= i < |conns| :: ConnOk(FactsOf(spec, w.node.log), conns[i])
    requires forall i, q | 0 <= i < |conns| && Settled(w.conns[i], q) :: Settled(conns[i], q)
    ensures WorldOk(spec, w.(conns := conns))
  {
  }

  lemma ConnStepOk(spec: Spec, w: World, i: nat, c: Conn)
    requires WorldOk(spec, w) && i < |w.conns| && ConnOk(FactsOf(spec, w.node.log), c)
    requires forall q | Settled(w.conns[i], q) :: Settled(c, q)
    ensures WorldOk(spec, WithConn(w, i, c))
  {
    ConnsStepOk(spec, w, w.conns[i := c]);
  }

  /** The node moves on without logging a request. */
  lemma NodeStepOk(spec: Spec, w: World, n: Node)
    requires WorldOk(spec, w) && Healthy(spec, n) && w.node.log <= n.log
    requires forall i | |w.node.log| <= i < |n.log| :: n.log[i].clientRequestId.None?
    ensures WorldOk(spec, w.(node := n))
  {
    FactsGrow(spec, w.node.log, n.log);
    TruthGrows(FactsOf(spec, w.node.log), FactsOf(spec, n.log), w.conns, w.clients);
    assert forall i | 0 <= i < |w.node.log| :: n.log[i] == w.node.log[i];
  }

  /** A snapshot of the current engine is true at the current position. */
  lemma CurrentIsTrue(spec: Spec, n: Node)
    requires Healthy(spec, n) && n.cache.Some?
    ensures Delta(|n.log|, SnapshotOf(spec, n.cache.value.engine)) in FactsOf(spec, n.log).deltas
  {
    assert n.log[..|n.log|] == n.log;
  }

  lemma ConnectInWorld(spec: Spec, w: World, fault: LoadFault)
    requires WorldOk(spec, w)
    ensures var (n, hello) := Connect(spec, w.node, fault);
            WorldOk(spec, w.(node := n)) && (hello.Some? ==> hello.value in FactsOf(spec, n.log).deltas)
  {
    ConnectKeepsHealthy(spec, w.node, fault);
    var (n, hello) := Connect(spec, w.node, fault);
    NodeStepOk(spec, w, n);
    if hello.Some? {
      CurrentIsTrue(spec, n);
    }
  }

  lemma AddConnOk(spec: Spec, w: World, c: Conn)
    requires WorldOk(spec, w) && ConnOk(FactsOf(spec, w.node.log), c)
    ensures WorldOk(spec, w.(conns := w.conns + [c]))
  {
  }

  lemma MoveClientOk(spec: Spec, w: World, k: nat, client: Client)
    requires WorldOk(spec, w) && k < |w.clients| && ViewOk(FactsOf(spec, w.node.log), client.view)
    ensures WorldOk(spec, w.(clients := w.clients[k := client]))
  {
  }

  lemma OpenOk(spec: Spec, w: World, k: nat, fault: LoadFault, replaced: bool)
    requires WorldOk(spec, w) && k < |w.clients|
    ensures WorldOk(spec, OpenStep(spec, w, k, fault, replaced))
  {
    ConnectInWorld(spec, w, fault);
    var (n, hello) := Connect(spec, w.node, fault);
    var u := w.(node := n);
    if hello.Some? {
      var c := Greeted(hello.value, replaced);
      AddConnOk(spec, u, c);
      MoveClientOk(spec, u.(conns := w.conns + [c]), k, w.clients[k].(conn := Some(|w.conns|)));
    } else {
      MoveClientOk(spec, u, k, w.clients[k].(conn := None));
    }
  }

  lemma SubscribeOk(spec: Spec, w: World, i: nat, fault: LoadFault)
    requires WorldOk(spec, w) && i < |w.conns|
    ensures WorldOk(spec, SubscribeStep(spec, w, i, fault))
  {
    ConnectInWorld(spec, w, fault);
    var (n, hello) := Connect(spec, w.node, fault);
    ConnStepOk(spec, w.(node := n), i, if hello.Some? then w.conns[i].(subscribed := true) else Stop(w.conns[i]));
  }

  /** The answer to a repeated request shows the current run under the seq of its entry. */
  lemma RepeatedAnswer(spec: Spec, n: Node, key: string, req: string, fault: Fault)
    requires Healthy(spec, n) && n.cache.Some?
    requires n.cache.value.terminal || FindRequest(n.log, req).Some? || fault == NotStored
    ensures var r := ActLoaded(spec, n, key, req, fault).1;
            r.Success? ==>
              && AnswerOk(FactsOf(spec, n.log), Answer(r.value, |n.log|)) && key in FactsOf(spec, n.log).keys
              && n.log[r.value.seqNo - 1].clientRequestId == Some(req)
  {
    var r := ActLoaded(spec, n, key, req, fault).1;
    if r.Success? {
      FindRequestMeaning(n.log, req);
      var row := FindRequest(n.log, req).value;
      RetryGetsItsSeq(spec, n, key, req, fault, row);
      CurrentIsTrue(spec, n);
      var p :| 0 <= p < |n.log| && n.log[p] == row;
      assert r.value.seqNo == p + 1;
    }
  }

  lemma RepeatedActionOk(spec: Spec, w: World, i: nat, key: string, req: string, fault: Fault)
    requires WorldOk(spec, w) && Sends(w, i)
    requires w.node.cache.value.terminal || FindRequest(w.node.log, req).Some? || fault == NotStored
    ensures WorldOk(spec, ActionStepOn(spec, w, i, key, req, fault))
  {
    var (n, r) := ActLoaded(spec, w.node, key, req, fault);
    IdleAct(spec, w.node, key, req, fault);
    RepeatedAnswer(spec, w.node, key, req, fault);
    NodeStepOk(spec, w, n);
    AnswerKeepsTruth(FactsOf(spec, n.log), w.conns[i], key, r, |n.log|);
    ConnStepOk(spec, w.(node := n), i, Answered(w.conns[i], key, r, |n.log|));
  }

  /** A new request: its answer is the run right after it. */
  lemma NewActionOk(spec: Spec, w: World, i: nat, key: string, req: string)
    requires WorldOk(spec, w) && Sends(w, i)
    requires !w.node.cache.value.terminal && FindRequest(w.node.log, req).None? && key in spec.actionEffects
    ensures WorldOk(spec, ActionStepOn(spec, w, i, key, req, NoFault))
  {
    var (n, r) := ActLoaded(spec, w.node, key, req, NoFault);
    FreshAct(spec, w.node, key, req, NoFault);
    CurrentIsTrue(spec, n);
    FactsGrow(spec, w.node.log, n.log);
    var f, g := FactsOf(spec, w.node.log), FactsOf(spec, n.log);
    assert n.log[|w.node.log|].actionKey == Some(key);
    TruthGrows(f, g, w.conns, w.clients);
    AnswerKeepsTruth(g, w.conns[i], key, r, |n.log|);
    FindRequestMeaning(w.node.log, req);
    NewOwnerOk(w, n, i, req, Answered(w.conns[i], key, r, |n.log|));
  }

  lemma AnswerKeepsTruth(g: Facts, c: Conn, key: string, r: Result<Delta, RuntimeError>, at: int)
    requires ConnOk(g, c) && c.replying.None?
    requires r.Success? ==> AnswerOk(g, Answer(r.value, at)) && key in g.keys
    ensures ConnOk(g, Answered(c, key, r, at))
  {
  }

  lemma NewOwnerOk(w: World, n: Node, i: nat, req: string, c: Conn)
    requires OwnersOk(w) && i < |w.conns| && w.conns[i].running && w.conns[i].reply.None?
    requires |n.log| == |w.node.log| + 1 && n.log[..|w.node.log|] == w.node.log
    requires n.log[|w.node.log|].clientRequestId == Some(req) && !RequestTaken(w.node.log, Some(req))
    requires c.last == w.conns[i].last
    requires c.running ==> c.reply.Some? && c.reply.value.delta.seqNo == c.reply.value.at == |n.log|
    ensures OwnersOk(WithConn(w.(node := n, owner := w.owner[req := i]), i, c))
  {
    var u := WithConn(w.(node := n, owner := w.owner[req := i]), i, c);
    forall p | 0 <= p < |n.log| && n.log[p].clientRequestId.Some?
      ensures var q := n.log[p].clientRequestId.value;
              q in u.owner && u.owner[q] < |u.conns| && Settled(u.conns[u.owner[q]], p + 1)
    {
      if p < |w.node.log| {
        assert n.log[..|w.node.log|][p] == w.node.log[p];
        assert w.node.log[p].clientRequestId != Some(req);
      }
    }
  }

  lemma SendActionOkIff(spec: Spec, w: World, i: nat, key: string, req: string, fault: Fault)
    requires WorldOk(spec, w) && Sends(w, i)
    ensures WorldOk(spec, ActionStepOn(spec, w, i, key, req, fault))
            <==> !Hazard(spec, w.node, Acting(key, req, Read(NoFault), fault))
  {
    if w.node.cache.value.terminal || FindRequest(w.node.log, req).Some? || fault == NotStored {
      RepeatedActionOk(spec, w, i, key, req, fault);
    } else if fault == NoFault && key in spec.actionEffects {
      NewActionOk(spec, w, i, key, req);
    } else {
      FreshAct(spec, w.node, key, req, fault);
    }
  }

  lemma DeliverOk(spec: Spec, w: World, k: nat, i: nat)
    requires WorldOk(spec, w) && k < |w.clients| && i < |w.conns| && w.conns[i].wire != []
    ensures WorldOk(spec, DeliverStep(w, k, i))
  {
    var c, v := w.conns[i], w.clients[k].view;
    var f := FactsOf(spec, w.node.log);
    var m := c.wire[0];
    assert m in c.wire;
    ConnStepOk(spec, w, i, c.(wire := c.wire[1..]));
    ActionsAreFixed(spec, w.node.log, v, m);
    if (m.SnapshotMsg? || m.DeltaMsg?) && m.d.payload.won {
      WinningSnapshot(spec, w.node.log, m.d);
    }
    MessageShown(f, v, m);
    var (shown, reconnect) := OnMessage(v, m);
    MoveClientOk(spec, WithConn(w, i, c.(wire := c.wire[1..])), k, Client(if reconnect then None else Some(i), shown));
  }

  /** All snapshots of a run list the same actions, so omitting an empty list loses nothing. */
  lemma ActionsAreFixed(spec: Spec, log: seq<LogEntry>, v: View, m: Message)
    requires ViewOk(FactsOf(spec, log), v) && MessageOk(FactsOf(spec, log), m)
    ensures (m.SnapshotMsg? || m.DeltaMsg?) && m.d.payload.actions == [] ==> v.actions == []
  {
    assert forall d | d in FactsOf(spec, log).deltas :: d.payload.actions == Listing(spec.actionEffects.Keys);
  }

  lemma FireSpeaksTruth(spec: Spec, n: Node, early: bool, fault: Fault)
    requires Healthy(spec, n) && !Hazard(spec, n, Firing(early, fault))
    ensures var (m, out) := Fire(spec, n, early, fault);
            && Healthy(spec, m)
            && (m.log == n.log || m.log == n.log + [RowFor(TickInput(), |n.log| + 1)])
            && (out.delta.Some? ==> out.delta.value in FactsOf(spec, m.log).deltas)
            && (out.win == Some(true) ==> FactsOf(spec, m.log).won)
  {
    FireKeepsHealthyIff(spec, n, early, fault);
    if n.loops > 0 && !early {
      if fault == NoFault {
        StoredTick(spec, n);
        CurrentIsTrue(spec, TickOnce(spec, n, NoFault).0);
      } else {
        FailedTick(spec, n, fault);
      }
    }
  }

  /** Every connection takes what a turn sends out. */
  lemma PushedConnsOk(spec: Spec, w: World, out: FireOut)
    requires WorldOk(spec, w)
    requires out.delta.Some? ==> out.delta.value in FactsOf(spec, w.node.log).deltas
    requires out.win == Some(true) ==> FactsOf(spec, w.node.log).won
    ensures WorldOk(spec, w.(conns := seq(|w.conns|, i requires 0 <= i < |w.conns| => Push(w.conns[i], out))))
  {
    var conns := seq(|w.conns|, i requires 0 <= i < |w.conns| => Push(w.conns[i], out));
    forall i | 0 <= i < |conns| ensures ConnOk(FactsOf(spec, w.node.log), conns[i]) {
      PushKeepsTruth(FactsOf(spec, w.node.log), w.conns[i], out);
    }
    ConnsStepOk(spec, w, conns);
  }

  lemma FireTickOk(spec: Spec, w: World, early: bool, fault: Fault)
    requires WorldOk(spec, w) && !Hazard(spec, w.node, Firing(early, fault))
    ensures WorldOk(spec, WorldStep(spec, w, FireTick(early, fault)))
  {
    var (n, out) := Fire(spec, w.node, early, fault);
    FireSpeaksTruth(spec, w.node, early, fault);
    NodeStepOk(spec, w, n);
    PushedConnsOk(spec, w.(node := n), out);
  }

  lemma RestartOk(spec: Spec, w: World)
    requires WorldOk(spec, w)
    ensures WorldOk(spec, WorldStep(spec, w, RestartProcess))
  {
    NodeStepOk(spec, w, Restart(w.node));
    var conns := seq(|w.conns|, i requires 0 <= i < |w.conns| => Cut(w.conns[i]));
    ConnsStepOk(spec, w.(node := Restart(w.node)), conns);
  }

  lemma FireTickOkIff(spec: Spec, w: World, early: bool, fault: Fault)
    requires WorldOk(spec, w)
    ensures WorldOk(spec, WorldStep(spec, w, FireTick(early, fault))) <==> !Hazard(spec, w.node, Firing(early, fault))
  {
    FireKeepsHealthyIff(spec, w.node, early, fault);
    if !Hazard(spec, w.node, Firing(early, fault)) {
      FireTickOk(spec, w, early, fault);
    }
  }

  lemma InsideOkIff(spec: Spec, w: World, i: nat, ev: ConnEvent)
    requires WorldOk(spec, w) && i < |w.conns|
    ensures WorldOk(spec, WithConn(w, i, ConnStep(w.conns[i], ev)))
            <==> !(ev.JudgeReply? && Misleads(w.node.log, w.conns[i]))
  {
    var c := ConnStep(w.conns[i], ev);
    ConnStepKeepsTruthIff(spec, w.node.log, w.conns[i], ev);
    forall q | Settled(w.conns[i], q) ensures Settled(c, q) {
      ConnStepKeepsSettled(w.conns[i], ev, q);
    }
    if ConnOk(FactsOf(spec, w.node.log), c) {
      ConnStepOk(spec, w, i, c);
    } else {
      assert WithConn(w, i, c).conns[i] == c;
    }
  }

  /** Every step of runtime, connections and clients keeps the world true, except exactly the hazardous ones. */
  lemma StepKeepsTruthIff(spec: Spec, w: World, ev: WorldEvent)
    requires WorldOk(spec, w)
    ensures WorldOk(spec, WorldStep(spec, w, ev)) <==> !Hazardous(spec, w, ev)
  {
    match ev
    case Open(k, fault, replaced) => if k < |w.clients| { OpenOk(spec, w, k, fault, replaced); }
    case Subscribe(i, fault) =>
      if i < |w.conns| && w.conns[i].running && !w.conns[i].subscribed { SubscribeOk(spec, w, i, fault); }
    case SendAction(i, key, req, fault) => if Sends(w, i) { SendActionOkIff(spec, w, i, key, req, fault); }
    case Inside(i, e) => if i < |w.conns| { InsideOkIff(spec, w, i, e); }
    case Deliver(k) => if WorldStep(spec, w, ev) != w { DeliverOk(spec, w, k, w.clients[k].conn.value); }
    case Leave(k) => if k < |w.clients| { MoveClientOk(spec, w, k, w.clients[k].(conn := None)); }
    case FireTick(early, fault) => FireTickOkIff(spec, w, early, fault);
    case RestartProcess => RestartOk(spec, w);
  }

  ghost predicate SafeRun(spec: Spec, clients: nat, events: seq<WorldEvent>) {
    forall j | 0 <= j < |events| :: !HazardousAt(spec, clients, events, j)
  }

  ghost predicate HazardousAt(spec: Spec, clients: nat, events: seq<WorldEvent>, j: nat)
    requires j < |events|
  {
    Hazardous(spec, RunWorld(spec, clients, events[..j]), events[j])
  }

  lemma SafeFront(spec: Spec, clients: nat, events: seq<WorldEvent>)
    requires SafeRun(spec, clients, events) && events != []
    ensures SafeRun(spec, clients, events[..|events| - 1])
  {
    var front := events[..|events| - 1];
    forall j | 0 <= j < |front| ensures !HazardousAt(spec, clients, front, j) {
      assert front[..j] == events[..j] && front[j] == events[j];
      assert !HazardousAt(spec, clients, events, j);
    }
  }

  lemma SafeLast(spec: Spec, clients: nat, events: seq<WorldEvent>)
    requires SafeRun(spec, clients, events) && events != []
    ensures !Hazardous(spec, RunWorld(spec, clients, events[..|events| - 1]), events[|events| - 1])
  {
    assert !HazardousAt(spec, clients, events, |events| - 1);
  }

  lemma SafeOneMore(spec: Spec, clients: nat, events: seq<WorldEvent>)
    requires events != [] && SafeRun(spec, clients, events[..|events| - 1])
    requires !Hazardous(spec, RunWorld(spec, clients, events[..|events| - 1]), events[|events| - 1])
    ensures SafeRun(spec, clients, events)
  {
    var front := events[..|events| - 1];
    forall j | 0 <= j < |events| ensures !HazardousAt(spec, clients, events, j) {
      if j < |front| {
        assert front[..j] == events[..j] && front[j] == events[j];
        assert !HazardousAt(spec, clients, front, j);
      }
    }
  }

  lemma {:induction false} SafeRunsAreOk(spec: Spec, clients: nat, events: seq<WorldEvent>)
    requires SafeRun(spec, clients, events)
    ensures WorldOk(spec, RunWorld(spec, clients, events))
  {
    if events != [] {
      SafeFront(spec, clients, events);
      SafeLast(spec, clients, events);
      SafeRunsAreOk(spec, clients, events[..|events| - 1]);
      StepKeepsTruthIff(spec, RunWorld(spec, clients, events[..|events| - 1]), events[|events| - 1]);
    }
  }

  lemma StepKeepsClients(spec: Spec, w: World, ev: WorldEvent)
    ensures |WorldStep(spec, w, ev).clients| == |w.clients|
  {
  }

  lemma {:induction false} ClientCount(spec: Spec, clients: nat, events: seq<WorldEvent>)
    ensures |RunWorld(spec, clients, events).clients| == clients
  {
    if events != [] {
      ClientCount(spec, clients, events[..|events| - 1]);
      StepKeepsClients(spec, RunWorld(spec, clients, events[..|events| - 1]), events[|events| - 1]);
    }
  }

  /**
   End to end: under any interleaving of ticks, dropped pushes, replies, closes, reconnects, retries and restarts
   without a hazard, a client that shows anything shows the replay of the log up to its lastSeq, and a win only
   when the run is won.
   */
  lemma ClientsShowTheReplay(spec: Spec, clients: nat, events: seq<WorldEvent>, k: nat)
    requires SafeRun(spec, clients, events) && k < clients
    ensures var w := RunWorld(spec, clients, events);
            k < |w.clients|
            && var v := w.clients[k].view;
            && (if v.lastSeq == 0 then v.tick == 0 && v.metrics == map[] && v.actions == []
                else
                  && 1 <= v.lastSeq <= |w.node.log| && Replay(spec, w.node.log[..v.lastSeq]).Success?
                  && var s := Replay(spec, w.node.log[..v.lastSeq]).value;
                  v.tick == s.tick && v.metrics == s.metrics && v.actions == Listing(spec.actionEffects.Keys)
                  && (s.won ==> v.won))
            && (v.won ==> Replay(spec, w.node.log).Success? && Replay(spec, w.node.log).value.won)
            && forall key | key in v.applied ::
                 exists i :: 0 <= i < |w.node.log| && w.node.log[i].actionKey == Some(key)
  {
    SafeRunsAreOk(spec, clients, events);
    ClientCount(spec, clients, events);
    var w := RunWorld(spec, clients, events);
    assert ViewOk(FactsOf(spec, w.node.log), w.clients[k].view);
  }

  lemma DeltaPassesThrough(c: Conn, out: FireOut)
    requires c.subscribed && !c.closed && c.channel == [] && c.streaming.None? && c.wire == []
    requires out.delta.Some? && out.delta.value.seqNo == c.last + 1 > 0
    ensures var d := out.delta.value;
            var written := ConnStep(ConnStep(Push(c, out), JudgeStream), WriteStream);
            written.wire == [DeltaMsg(d)] && written.last == d.seqNo
  {
    var d := out.delta.value;
    var pushed := Push(c, out);
    assert pushed == c.(channel := [d], wins := pushed.wins);
    var judged := ConnStep(pushed, JudgeStream);
    assert judged == pushed.(channel := [], last := d.seqNo, streaming := Some(d));
    assert ConnStep(judged, WriteStream) == judged.(wire := [DeltaMsg(d)], streaming := None);
  }

  /** On an idle connection a tick that is judged, written and delivered moves its client to the new state. */
  lemma TickReachesClient(spec: Spec, w: World, i: nat, k: nat)
    requires WorldOk(spec, w) && i < |w.conns| && k < |w.clients| && w.clients[k].conn == Some(i)
    requires Fire(spec, w.node, false, NoFault).1.delta.Some?
    requires var c := w.conns[i];
             && c.subscribed && !c.closed && c.channel == [] && c.streaming.None? && c.wire == []
             && c.last == |w.node.log| && w.clients[k].view.lastSeq == |w.node.log|
    ensures var ticked := WorldStep(spec, w, FireTick(false, NoFault));
            var written := WorldStep(spec, WorldStep(spec, ticked, Inside(i, JudgeStream)), Inside(i, WriteStream));
            var v := WorldStep(spec, written, Deliver(k));
            var d := Fire(spec, w.node, false, NoFault).1.delta.value;
            && d.seqNo == |v.node.log| == |w.node.log| + 1
            && v.clients[k] == Client(Some(i), Show(w.clients[k].view, d)) && v.conns[i].last == d.seqNo
  {
    StoredTick(spec, w.node);
    var (n, out) := Fire(spec, w.node, false, NoFault);
    DeltaPassesThrough(w.conns[i], out);
    var ticked := WorldStep(spec, w, FireTick(false, NoFault));
    assert ticked.conns[i] == Push(w.conns[i], out) && |ticked.conns| == |w.conns|;
    var judged := WorldStep(spec, ticked, Inside(i, JudgeStream));
    assert judged == WithConn(ticked, i, ConnStep(ticked.conns[i], JudgeStream));
    var written := WorldStep(spec, judged, Inside(i, WriteStream));
    assert written == WithConn(judged, i, ConnStep(judged.conns[i], WriteStream));
    assert WorldStep(spec, written, Deliver(k)) == DeliverStep(written, k, i);
  }
}
