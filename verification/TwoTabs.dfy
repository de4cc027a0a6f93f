/**
 A concrete run in which a client shows an untrue state. A second tab replaces the first while the first's handler
 is about to log a request; the run ticks; the second tab repeats the request.
 */
module TwoTabs {
  import opened Prelude
  import opened Simulation
  import opened ReplayLaws
  import opened ActionTable
  import opened Runtime
  import opened Tracker
  import opened EndToEnd
  import opened Retries
  import opened Recovery
  import opened Sockets

  const LOADED := Read(NoFault)

  const FIRST_TAB: seq<WorldEvent> := [Open(0, LOADED, false), Subscribe(0, LOADED)]

  /** The second tab's handler registers and closes the first's writer before it connects. */
  const CLOSING: seq<WorldEvent> := [Inside(0, CloseWriter)]

  const SECOND_TAB: seq<WorldEvent> := [Open(1, LOADED, false), Subscribe(1, LOADED)]

  const CONNECTING := FIRST_TAB + CLOSING + SECOND_TAB

  /** The first tab's handler still logs the request it had read, and the run ticks. */
  const ACTING: seq<WorldEvent> := [SendAction(0, "act", "r1", NoFault), FireTick(false, NoFault)]

  /** The second tab repeats the request; its handler answers before its streamer turns to the tick. */
  const REPEATING: seq<WorldEvent> :=
    [SendAction(1, "act", "r1", NoFault), Inside(1, JudgeReply), Inside(1, WriteReply)]

  const DELIVERING: seq<WorldEvent> := [Deliver(1), Deliver(1), Deliver(1), Deliver(1)]

  /** A world taken through events. */
  ghost function Through(spec: Spec, w: World, events: seq<WorldEvent>): World
    decreases |events|
  {
    if events == [] then w else Through(spec, WorldStep(spec, w, events[0]), events[1..])
  }

  lemma {:induction false} ThroughIsRun(spec: Spec, clients: nat, a: seq<WorldEvent>, b: seq<WorldEvent>)
    ensures RunWorld(spec, clients, a + b) == Through(spec, RunWorld(spec, clients, a), b)
    decreases |b|
  {
    if b == [] {
      assert a + b == a;
    } else {
      assert (a + [b[0]])[..|a|] == a;
      assert a + b == a + [b[0]] + b[1..];
      ThroughIsRun(spec, clients, a + [b[0]], b[1..]);
    }
  }

  lemma ThroughTwo(spec: Spec, w: World, a: WorldEvent, b: WorldEvent)
    ensures Through(spec, w, [a, b]) == WorldStep(spec, WorldStep(spec, w, a), b)
  {
    assert [a, b][1..] == [b] && [b][1..] == [];
    assert Through(spec, WorldStep(spec, w, a), [b]) == WorldStep(spec, WorldStep(spec, w, a), b);
  }

  // ----- both tabs connected -----

  /** What both tabs are greeted with. */
  ghost function Hello(n: Node): Delta
    requires n.cache.Some?
  {
    Delta(1, SnapshotOf(PAIR, n.cache.value.engine))
  }

  ghost function Tab(hello: Delta): Conn {
    NewConn(hello).(subscribed := true)
  }

  ghost predicate BothConnected(w: World) {
    && Healthy(PAIR, w.node) && w.node.log == FIRST_TICK && w.node.cache.Some? && w.node.loops == 1
    && PairAtRest(w.node.cache.value.engine)
    && w.conns == [Tab(Hello(w.node)).(closed := true), Tab(Hello(w.node))]
    && w.clients == [Client(Some(0), Blank()), Client(Some(1), Blank())]
  }

  lemma ConnectsAgain(n: Node)
    requires n.cache.Some? && n.cache.value.lastSeq == 1 && n.cache.value.tickStarted
    ensures Connect(PAIR, n, LOADED) == (n, Some(Hello(n)))
  {
  }

  lemma TabConnects(w: World, k: nat, n: Node)
    requires k < |w.clients| && n.cache.Some? && n.cache.value.lastSeq == 1 && n.cache.value.tickStarted
    requires Connect(PAIR, w.node, LOADED) == (n, Some(Hello(n)))
    ensures Through(PAIR, w, [Open(k, LOADED, false), Subscribe(|w.conns|, LOADED)]) ==
            World(n, w.conns + [Tab(Hello(n))], w.clients[k := w.clients[k].(conn := Some(|w.conns|))], w.owner)
  {
    var i, c := |w.conns|, NewConn(Hello(n));
    var u := WorldStep(PAIR, w, Open(k, LOADED, false));
    assert u == World(n, w.conns + [c], w.clients[k := w.clients[k].(conn := Some(i))], w.owner);
    ConnectsAgain(n);
    assert u.conns[i := Tab(Hello(n))] == w.conns + [Tab(Hello(n))];
    assert WorldStep(PAIR, u, Subscribe(i, LOADED)) == u.(conns := w.conns + [Tab(Hello(n))]);
    ThroughTwo(PAIR, w, Open(k, LOADED, false), Subscribe(i, LOADED));
  }

  lemma FirstTabCloses(w: World, c: Conn)
    requires w.conns == [c]
    ensures Through(PAIR, w, CLOSING) == w.(conns := [c.(closed := true)])
  {
    assert CLOSING[1..] == [];
    assert WorldStep(PAIR, w, Inside(0, CloseWriter)) == w.(conns := [c.(closed := true)]);
  }

  lemma FirstHello()
    ensures var n := Connect(PAIR, Fresh(), LOADED).0;
            && Healthy(PAIR, n) && n.log == FIRST_TICK && n.loops == 1 && n.cache.Some?
            && PairAtRest(n.cache.value.engine) && n.cache.value.lastSeq == 1 && n.cache.value.tickStarted
            && Connect(PAIR, Fresh(), LOADED) == (n, Some(Hello(n)))
  {
    PairStarts();
    PairIsEndless();
    EndlessFirstConnect(PAIR);
    ConnectKeepsHealthy(PAIR, Fresh(), LOADED);
  }

  lemma NobodyYet()
    ensures RunWorld(PAIR, 2, []) == World(Fresh(), [], [Client(None, Blank()), Client(None, Blank())], map[])
  {
  }

  lemma FirstTabConnects()
    ensures var n := Connect(PAIR, Fresh(), LOADED).0;
            n.cache.Some? && RunWorld(PAIR, 2, FIRST_TAB)
                             == World(n, [Tab(Hello(n))], [Client(Some(0), Blank()), Client(None, Blank())], map[])
  {
    var w := World(Fresh(), [], [Client(None, Blank()), Client(None, Blank())], map[]);
    NobodyYet();
    FirstHello();
    TabConnects(w, 0, Connect(PAIR, Fresh(), LOADED).0);
    ThroughIsRun(PAIR, 2, [], FIRST_TAB);
    assert [] + FIRST_TAB == FIRST_TAB && [] + [Tab(Hello(Connect(PAIR, Fresh(), LOADED).0))]
                                          == [Tab(Hello(Connect(PAIR, Fresh(), LOADED).0))];
  }

  /** A further greeting finds the run cached. */
  lemma FirstTabClosed()
    ensures var n := Connect(PAIR, Fresh(), LOADED).0;
            var w := RunWorld(PAIR, 2, FIRST_TAB + CLOSING);
            && n.cache.Some? && Connect(PAIR, w.node, LOADED) == (n, Some(Hello(n)))
            && w == World(n, [Tab(Hello(n)).(closed := true)], [Client(Some(0), Blank()), Client(None, Blank())], map[])
  {
    var n := Connect(PAIR, Fresh(), LOADED).0;
    FirstTabConnects();
    FirstHello();
    FirstTabCloses(RunWorld(PAIR, 2, FIRST_TAB), Tab(Hello(n)));
    ThroughIsRun(PAIR, 2, FIRST_TAB, CLOSING);
    ConnectsAgain(n);
  }

  lemma TabsConnect()
    ensures BothConnected(RunWorld(PAIR, 2, CONNECTING))
  {
    FirstTabClosed();
    FirstHello();
    TabConnects(RunWorld(PAIR, 2, FIRST_TAB + CLOSING), 1, Connect(PAIR, Fresh(), LOADED).0);
    ThroughIsRun(PAIR, 2, FIRST_TAB + CLOSING, SECOND_TAB);
  }

  // ----- an action on the first tab, then a tick -----

  ghost predicate Overtook(w: World, hello: Delta, tick: Delta) {
    && Healthy(PAIR, w.node) && w.node.cache.Some? && !w.node.cache.value.terminal
    && |w.node.log| == 3 && w.node.log[1].clientRequestId == Some("r1") && w.node.log[1].actionKey == Some("act")
    && w.node.log[2].actionType == TICK
    && |w.conns| == 2 && w.conns[1] == Tab(hello).(channel := [tick])
    && w.clients == [Client(Some(0), Blank()), Client(Some(1), Blank())]
  }

  lemma FirstTabActs(w: World)
    requires BothConnected(w)
    ensures var u := WorldStep(PAIR, w, SendAction(0, "act", "r1", NoFault));
            && Healthy(PAIR, u.node) && u.node.cache.Some? && !u.node.cache.value.terminal && u.node.loops == 1
            && u.node.log == FIRST_TICK + [LogEntry(2, PLAYER, Some("act"), Some("r1"))]
            && |u.conns| == 2 && u.conns[1] == w.conns[1] && u.clients == w.clients
  {
    PairIsEndless();
    assert !WonBy(PAIR, w.node.log);
    assert FindRequest(w.node.log[..0], "r1").None?;
    FreshAct(PAIR, w.node, "act", "r1", NoFault);
    var m := ActLoaded(PAIR, w.node, "act", "r1", NoFault).0;
    assert !WonBy(PAIR, m.log);
    assert m.cache.value.tickStarted;
  }

  lemma RunTicks(w: World)
    requires Healthy(PAIR, w.node) && w.node.cache.Some? && !w.node.cache.value.terminal && w.node.loops == 1
    requires |w.conns| == 2 && w.conns[1].subscribed && w.conns[1].channel == []
    ensures var u := WorldStep(PAIR, w, FireTick(false, NoFault));
            && Healthy(PAIR, u.node) && u.node.cache.Some? && !u.node.cache.value.terminal
            && u.node.log == w.node.log + [RowFor(TickInput(), |w.node.log| + 1)] && u.clients == w.clients
            && |u.conns| == 2 && |u.conns[1].channel| == 1 && u.conns[1] == w.conns[1].(channel := u.conns[1].channel)
  {
    PairIsEndless();
    StoredTick(PAIR, w.node);
    var (n, out) := Fire(PAIR, w.node, false, NoFault);
    assert !WonBy(PAIR, n.log);
    assert WorldStep(PAIR, w, FireTick(false, NoFault)).conns[1] == Push(w.conns[1], out);
  }

  lemma ActionIsOvertaken(w: World)
    requires BothConnected(w)
    ensures var u := Through(PAIR, w, ACTING);
            |u.conns| == 2 && |u.conns[1].channel| == 1 && Overtook(u, Hello(w.node), u.conns[1].channel[0])
  {
    FirstTabActs(w);
    var acted := WorldStep(PAIR, w, ACTING[0]);
    RunTicks(acted);
    ThroughTwo(PAIR, w, ACTING[0], ACTING[1]);
    var u := WorldStep(PAIR, acted, ACTING[1]);
    assert u.node.log[1] == LogEntry(2, PLAYER, Some("act"), Some("r1"));
    assert u.conns[1].channel == [u.conns[1].channel[0]];
  }

  // ----- the repeat on the second tab -----

  /** The answer: the current run under the seq of the old entry. */
  ghost function Late(n: Node): Delta
    requires n.cache.Some?
  {
    Delta(2, SnapshotOf(PAIR, n.cache.value.engine))
  }

  lemma SecondTabSends(w: World, hello: Delta, tick: Delta)
    requires Overtook(w, hello, tick)
    ensures var u := WorldStep(PAIR, w, REPEATING[0]);
            var c := w.conns[1];
            && u.node.log == w.node.log && |u.conns| == 2 && u.clients == w.clients
            && u.conns[1] == c.(wire := c.wire + [ActionAccepted("act", 2)], reply := Some(Answer(Late(w.node), 3)))
  {
    RequestIsKnown(w.node.log, 2, "r1");
    RepeatedReplyTrueIff(PAIR, w.node, "act", "r1", 2);
    IdleAct(PAIR, w.node, "act", "r1", NoFault);
    assert WorldStep(PAIR, w, REPEATING[0]) == ActionStepOn(PAIR, w, 1, "act", "r1", NoFault);
  }

  lemma SecondTabRepeats(w: World, hello: Delta, tick: Delta)
    requires Overtook(w, hello, tick) && hello.seqNo == 1
    ensures var u := Through(PAIR, w, REPEATING);
            && u.node.log == w.node.log && |u.conns| == 2 && u.clients == w.clients
            && u.conns[1].wire == [HelloAck, SnapshotMsg(hello), ActionAccepted("act", 2), DeltaMsg(Late(w.node))]
  {
    var sent, d := WorldStep(PAIR, w, REPEATING[0]), Late(w.node);
    SecondTabSends(w, hello, tick);
    JudgedAndWritten(PAIR, sent, 1);
    var judged := ConnStep(sent.conns[1], JudgeReply);
    assert judged == sent.conns[1].(reply := None, last := 2, replying := Some(d));
    assert ConnStep(judged, WriteReply) == judged.(replying := None, wire := judged.wire + [DeltaMsg(d)]);
    assert REPEATING[1..] == [Inside(1, JudgeReply), Inside(1, WriteReply)];
    ThroughTwo(PAIR, sent, Inside(1, JudgeReply), Inside(1, WriteReply));
  }

  lemma DeliverHead(w: World, m: Message, rest: seq<Message>, v: View)
    requires |w.conns| == 2 && |w.clients| == 2 && w.clients[1] == Client(Some(1), v)
    requires w.conns[1].wire == [m] + rest && !OnMessage(v, m).1
    ensures var u := WorldStep(PAIR, w, Deliver(1));
            && |u.conns| == 2 && |u.clients| == 2 && u.clients[1] == Client(Some(1), OnMessage(v, m).0)
            && u.conns[1].wire == rest && u.node == w.node
  {
  }

  lemma SecondTabShows(w: World, hello: Delta, late: Delta)
    requires |w.conns| == 2 && |w.clients| == 2 && w.clients[1] == Client(Some(1), Blank())
    requires w.conns[1].wire == [HelloAck, SnapshotMsg(hello), ActionAccepted("act", 2), DeltaMsg(late)]
    requires hello.seqNo == 1 && late.seqNo == 2
    ensures var u := Through(PAIR, w, DELIVERING);
            |u.clients| == 2 && u.node == w.node
            && u.clients[1].view.lastSeq == 2 && u.clients[1].view.tick == late.payload.tick
  {
    var d := Deliver(1);
    var wire := w.conns[1].wire;
    var v1 := OnMessage(Blank(), HelloAck).0;
    var v2 := OnMessage(v1, SnapshotMsg(hello)).0;
    var v3 := OnMessage(v2, ActionAccepted("act", 2)).0;
    DeliverHead(w, wire[0], wire[1..], Blank());
    var one := WorldStep(PAIR, w, d);
    DeliverHead(one, wire[1], wire[2..], v1);
    var two := WorldStep(PAIR, one, d);
    DeliverHead(two, wire[2], wire[3..], v2);
    var three := WorldStep(PAIR, two, d);
    DeliverHead(three, wire[3], [], v3);
    ThroughTwo(PAIR, w, d, d);
    ThroughTwo(PAIR, two, d, d);
    assert DELIVERING[1..] == [d, d, d] && [d, d, d][1..] == [d, d] && DELIVERING[2..] == [d, d];
    assert Through(PAIR, w, DELIVERING) == Through(PAIR, two, [d, d]);
  }

  /** In this run of the world the second client shows, as the run after two entries, what it was after three. */
  lemma WorldShowsUntruth()
    ensures var w := RunWorld(PAIR, 2, CONNECTING + ACTING + REPEATING + DELIVERING);
            && |w.clients| == 2 && w.clients[1].view.lastSeq == 2 <= |w.node.log|
            && Replay(PAIR, w.node.log).Success? && Replay(PAIR, w.node.log[..2]).Success?
            && w.clients[1].view.tick != Replay(PAIR, w.node.log[..2]).value.tick
  {
    var connected := RunWorld(PAIR, 2, CONNECTING);
    TabsConnect();
    ActionIsOvertaken(connected);
    var overtaken := Through(PAIR, connected, ACTING);
    var hello := Hello(connected.node);
    SecondTabRepeats(overtaken, hello, overtaken.conns[1].channel[0]);
    var repeated := Through(PAIR, overtaken, REPEATING);
    SecondTabShows(repeated, hello, Late(overtaken.node));
    ThroughIsRun(PAIR, 2, CONNECTING, ACTING);
    ThroughIsRun(PAIR, 2, CONNECTING + ACTING, REPEATING);
    ThroughIsRun(PAIR, 2, CONNECTING + ACTING + REPEATING, DELIVERING);
    OnlyTicksShow(PAIR, overtaken.node.log, 2);
  }

  // ----- the same run, with handlers and the registry -----

  ghost predicate Reachable(s: Service) {
    exists events :: RunService(PAIR, 2, events) == s
  }

  lemma ReachableNext(s: Service, ev: ServiceEvent)
    requires Reachable(s)
    ensures Reachable(ServiceStep(PAIR, s, ev))
  {
    var events :| RunService(PAIR, 2, events) == s;
    assert (events + [ev])[..|events|] == events;
    assert RunService(PAIR, 2, events + [ev]) == ServiceStep(PAIR, s, ev);
  }

  function Serving(closed: bool): Reg.Handler {
    Reg.Handler(Reg.Serving, closed, if closed then [Reg.CloseFrame(Reg.CONNECTION_REPLACED)] else [])
  }

  function Phased(phase: Reg.Phase): Reg.Handler {
    Reg.Handler(phase, false, [])
  }

  /** Registry steps that touch no connection. */
  lemma RegistryOnly(s: Service, ev: ServiceEvent)
    requires Reachable(s) && (ev.Accepting? || ev.Registering? || (ev.ClosingOld? && Replaced(s, ev.h).None?))
    ensures ev.Accepting? ==> Reachable(Service(s.world, Reg.Step(s.reg, Reg.Accept), s.seats + [Waiting]))
    ensures ev.Registering? ==> Reachable(Service(s.world, Reg.Step(s.reg, Reg.Register(ev.h)), s.seats))
    ensures ev.ClosingOld? ==> Reachable(Service(s.world, Reg.Step(s.reg, Reg.CloseOld(ev.h)), s.seats))
  {
    ReachableNext(s, ev);
  }

  /** The first handler is accepted, registers, and finds nobody to replace. */
  lemma FirstHandlerServes(w: World)
    requires Reachable(Service(w, Reg.Registry(None, [], []), []))
    ensures Reachable(Service(w, Reg.Registry(Some(0), [Serving(false)], [0]), [Waiting]))
  {
    RegistryOnly(Service(w, Reg.Registry(None, [], []), []), Accepting);
    var greeting := Reg.Registry(None, [Phased(Reg.Greeting)], []);
    assert Reg.Step(Reg.Registry(None, [], []), Reg.Accept) == greeting && [] + [Waiting] == [Waiting];
    RegistryOnly(Service(w, greeting, [Waiting]), Registering(0));
    var replacing := Reg.Registry(Some(0), [Phased(Reg.Replacing(None))], [0]);
    assert Reg.Step(greeting, Reg.Register(0)) == replacing;
    RegistryOnly(Service(w, replacing, [Waiting]), ClosingOld(0));
    assert Reg.Step(replacing, Reg.CloseOld(0)).handlers == [Serving(false)];
  }

  /** The second is accepted and registers in its place. */
  lemma SecondHandlerRegisters(w: World)
    requires Reachable(Service(w, Reg.Registry(Some(0), [Serving(false)], [0]), [On(0)]))
    ensures Reachable(Service(w, REPLACING, [On(0), Waiting]))
  {
    var s := Service(w, Reg.Registry(Some(0), [Serving(false)], [0]), [On(0)]);
    ReachableNext(s, Accepting);
    var one := Service(w, Reg.Registry(Some(0), [Serving(false), Phased(Reg.Greeting)], [0]), [On(0), Waiting]);
    assert ServiceStep(PAIR, s, Accepting) == one;
    ReachableNext(one, Registering(1));
    assert ServiceStep(PAIR, one, Registering(1)).reg == REPLACING;
  }

  const REPLACING := Reg.Registry(Some(1), [Serving(false), Phased(Reg.Replacing(Some(0)))], [0, 1])
  const REPLACED := Reg.Registry(Some(1), [Serving(true), Serving(false)], [0, 1])

  lemma ReplacingCloses()
    ensures Reg.Step(REPLACING, Reg.CloseOld(1)) == REPLACED
  {
    var served := [Serving(false), Serving(false)];
    assert REPLACING.handlers[1 := REPLACING.handlers[1].(phase := Reg.Serving)] == served;
    assert Reg.Close(served[0], Reg.CONNECTION_REPLACED) == Serving(true);
    assert served[0 := Serving(true)] == REPLACED.handlers;
  }

  /** And closes its writer. */
  lemma SecondHandlerServes(w: World)
    requires Reachable(Service(w, REPLACING, [On(0), Waiting]))
    ensures Reachable(Service(WorldStep(PAIR, w, Inside(0, CloseWriter)), REPLACED, [On(0), Waiting]))
  {
    var s := Service(w, REPLACING, [On(0), Waiting]);
    ReachableNext(s, ClosingOld(1));
    ReplacingCloses();
    assert REPLACING.handlers[1].phase == Reg.Replacing(Some(0));
    assert Replaced(s, 1) == Some(0);
  }

  /** A greeting seats the handler on a new connection. */
  lemma TabGreets(w: World, reg: Reg.Registry, seats: seq<Seat>, h: nat, k: nat)
    requires k < |w.clients| && Connect(PAIR, w.node, LOADED).1.Some?
    requires h < |seats| && h < |reg.handlers| && reg.handlers[h] == Serving(false) && seats[h] == Waiting
    requires Reachable(Service(w, reg, seats))
    ensures Reachable(Service(WorldStep(PAIR, w, Open(k, LOADED, false)), reg, seats[h := On(|w.conns|)]))
  {
    ReachableNext(Service(w, reg, seats), Greet(h, k, LOADED));
  }

  /** A subscription that leaves the writer open changes nothing but the world. */
  lemma TabSubscribes(w: World, reg: Reg.Registry, seats: seq<Seat>, h: nat, i: nat)
    requires h < |seats| && h < |reg.handlers| && reg.handlers[h] == Serving(false) && seats[h] == On(i)
    requires var u := WorldStep(PAIR, w, Subscribe(i, LOADED)); i < |u.conns| && !u.conns[i].closed
    requires Reachable(Service(w, reg, seats))
    ensures Reachable(Service(WorldStep(PAIR, w, Subscribe(i, LOADED)), reg, seats))
  {
    ReachableNext(Service(w, reg, seats), Serve(h, Subscribing(LOADED)));
  }

  lemma TabIsSeated(w: World, reg: Reg.Registry, seats: seq<Seat>, h: nat, k: nat, n: Node)
    requires k < |w.clients| && n.cache.Some? && n.cache.value.lastSeq == 1 && n.cache.value.tickStarted
    requires Connect(PAIR, w.node, LOADED) == (n, Some(Hello(n)))
    requires h < |seats| && h < |reg.handlers| && reg.handlers[h] == Serving(false) && seats[h] == Waiting
    requires Reachable(Service(w, reg, seats))
    ensures Reachable(Service(Through(PAIR, w, [Open(k, LOADED, false), Subscribe(|w.conns|, LOADED)]),
                              reg, seats[h := On(|w.conns|)]))
  {
    var i := |w.conns|;
    TabGreets(w, reg, seats, h, k);
    TabConnects(w, k, n);
    ThroughTwo(PAIR, w, Open(k, LOADED, false), Subscribe(i, LOADED));
    TabSubscribes(WorldStep(PAIR, w, Open(k, LOADED, false)), reg, seats[h := On(i)], h, i);
  }

  lemma FirstTabSeated()
    ensures Reachable(Service(RunWorld(PAIR, 2, FIRST_TAB), Reg.Registry(Some(0), [Serving(false)], [0]), [On(0)]))
  {
    var w := RunWorld(PAIR, 2, []);
    assert RunService(PAIR, 2, []) == Service(w, Reg.Registry(None, [], []), []);
    NobodyYet();
    FirstHello();
    FirstHandlerServes(w);
    TabIsSeated(w, Reg.Registry(Some(0), [Serving(false)], [0]), [Waiting], 0, 0, Connect(PAIR, Fresh(), LOADED).0);
    ThroughIsRun(PAIR, 2, [], FIRST_TAB);
    assert [] + FIRST_TAB == FIRST_TAB && [Waiting][0 := On(0)] == [On(0)];
  }

  /** Both handlers serve their connections: from here on every step is one of the world. */
  ghost predicate BothServe(s: Service) {
    && s.seats == [On(0), On(1)] && |s.reg.handlers| == 2
    && s.reg.handlers[0].phase == Reg.Serving && s.reg.handlers[1].phase == Reg.Serving
  }

  ghost predicate Served(w: World) {
    exists s: Service :: Reachable(s) && BothServe(s) && s.world == w
  }

  lemma SecondTabGreets()
    ensures Reachable(Service(RunWorld(PAIR, 2, FIRST_TAB + CLOSING), REPLACED, [On(0), Waiting]))
  {
    var one := RunWorld(PAIR, 2, FIRST_TAB);
    FirstTabSeated();
    SecondHandlerRegisters(one);
    SecondHandlerServes(one);
    ThroughIsRun(PAIR, 2, FIRST_TAB, CLOSING);
    assert Through(PAIR, one, CLOSING) == WorldStep(PAIR, one, Inside(0, CloseWriter)) by { assert CLOSING[1..] == []; }
  }

  lemma SecondTabSeated()
    ensures Served(RunWorld(PAIR, 2, CONNECTING))
  {
    var w := RunWorld(PAIR, 2, FIRST_TAB + CLOSING);
    FirstTabClosed();
    FirstHello();
    SecondTabGreets();
    TabIsSeated(w, REPLACED, [On(0), Waiting], 1, 1, Connect(PAIR, Fresh(), LOADED).0);
    ThroughIsRun(PAIR, 2, FIRST_TAB + CLOSING, SECOND_TAB);
    BothSeated(RunWorld(PAIR, 2, CONNECTING));
  }

  lemma BothSeated(w: World)
    requires Reachable(Service(w, REPLACED, [On(0), Waiting][1 := On(1)]))
    ensures Served(w)
  {
    assert BothServe(Service(w, REPLACED, [On(0), Waiting][1 := On(1)]));
  }

  /** Steps of the two handlers and their connections, of clients, and ticks. */
  predicate Plain(e: WorldEvent) {
    || e.Deliver? || e.FireTick? || (e.SendAction? && e.i < 2) || (e.Inside? && e.i < 2)
  }

  function AsService(e: WorldEvent): ServiceEvent
    requires Plain(e)
  {
    match e
    case SendAction(i, key, req, fault) => Serve(i, Sending(key, req, fault))
    case Inside(i, ev) => Serve(i, Within(ev))
    case _ => Elsewhere(e)
  }

  lemma BothKeepServing(s: Service, e: WorldEvent)
    requires BothServe(s) && Plain(e)
    ensures var u := ServiceStep(PAIR, s, AsService(e));
            BothServe(u) && u.world == WorldStep(PAIR, s.world, e)
  {
  }

  lemma {:induction false} ServedThrough(w: World, events: seq<WorldEvent>)
    requires Served(w) && forall k | 0 <= k < |events| :: Plain(events[k])
    ensures Served(Through(PAIR, w, events))
    decreases |events|
  {
    if events != [] {
      var s: Service :| Reachable(s) && BothServe(s) && s.world == w;
      BothKeepServing(s, events[0]);
      ReachableNext(s, AsService(events[0]));
      ServedThrough(WorldStep(PAIR, w, events[0]), events[1..]);
    }
  }

  /** The second client shows, as the run after lastSeq entries, something else. */
  ghost predicate ShowsUntruth(w: World) {
    && |w.clients| == 2 && 1 <= w.clients[1].view.lastSeq <= |w.node.log| && Replay(PAIR, w.node.log).Success?
    && Replay(PAIR, w.node.log[..w.clients[1].view.lastSeq]).Success?
    && w.clients[1].view.tick != Replay(PAIR, w.node.log[..w.clients[1].view.lastSeq]).value.tick
  }

  predicate AllPlain(events: seq<WorldEvent>) {
    forall k | 0 <= k < |events| :: Plain(events[k])
  }

  lemma ServedFurther(done: seq<WorldEvent>, more: seq<WorldEvent>)
    requires Served(RunWorld(PAIR, 2, done)) && AllPlain(more)
    ensures Served(RunWorld(PAIR, 2, done + more))
  {
    ServedThrough(RunWorld(PAIR, 2, done), more);
    ThroughIsRun(PAIR, 2, done, more);
  }

  lemma TheRestIsPlain()
    ensures AllPlain(ACTING) && AllPlain(REPEATING) && AllPlain(DELIVERING)
  {
  }

  lemma ServedToTheEnd()
    ensures Served(RunWorld(PAIR, 2, CONNECTING + ACTING + REPEATING + DELIVERING))
  {
    SecondTabSeated();
    TheRestIsPlain();
    ServedFurther(CONNECTING, ACTING);
    ServedFurther(CONNECTING + ACTING, REPEATING);
    ServedFurther(CONNECTING + ACTING + REPEATING, DELIVERING);
  }

  /** With handlers replacing each other as they should, there is a run in which a client shows an untrue state. */
  lemma ClientShowsUntruth()
    ensures exists events :: ShowsUntruth(RunService(PAIR, 2, events).world)
  {
    ServedToTheEnd();
    WorldShowsUntruth();
    var s: Service :| Reachable(s) && BothServe(s) && ShowsUntruth(s.world);
    var events :| RunService(PAIR, 2, events) == s;
    assert ShowsUntruth(RunService(PAIR, 2, events).world);
  }
}
