/**
 The connections of one run together with the registry of active writers: a handler registers, closes the writer
 it replaces, and only then connects to the runtime.
 */
module Sockets {
  import opened Prelude
  import opened Simulation
  import opened ActionTable
  import opened Runtime
  import opened EndToEnd
  import opened Retries
  import Reg = Registry

  /** What became of a handler's greeting. */
  datatype Seat = Waiting | On(i: nat) | Rejected

  datatype Service = Service(world: World, reg: Reg.Registry, seats: seq<Seat>)

  /** What a connected handler, its goroutines or its writer do. */
  datatype Action =
    | Subscribing(loadFault: LoadFault)
    | Sending(key: string, req: string, fault: Fault)
    | Within(ev: ConnEvent)

  datatype ServiceEvent =
    | Accepting
    | Registering(h: nat)
    | ClosingOld(h: nat)
    | Greet(h: nat, k: nat, loadFault: LoadFault)
    | Serve(h: nat, act: Action)
    | Unregistering(h: nat)
    | Exit(h: nat)
    /** A client reads or leaves, or the run ticks. */
    | Elsewhere(ev: WorldEvent)
    | Reboot

  const INTERNAL := 4010

  // ----- steps -----

  predicate CanGreet(s: Service, h: nat, k: nat) {
    && h < |s.reg.handlers| && h < |s.seats| && k < |s.world.clients|
    && s.reg.handlers[h].phase == Reg.Serving && s.seats[h] == Waiting
  }

  /** The handler's own steps are over once it unregisters; its goroutines may go on until the writer closes. */
  predicate CanServe(s: Service, h: nat, act: Action) {
    && h < |s.reg.handlers| && h < |s.seats| && s.seats[h].On?
    && (s.reg.handlers[h].phase == Reg.Serving || (act.Within? && !act.ev.JudgeReply? && !act.ev.WriteReply?))
  }

  /** The connection of the handler that h has replaced and is about to close. */
  function Replaced(s: Service, h: nat): Option<nat> {
    if h < |s.reg.handlers| && s.reg.handlers[h].phase.Replacing? && s.reg.handlers[h].phase.previous.Some? then
      var p := s.reg.handlers[h].phase.previous.value;
      if p != h && p < |s.seats| && s.seats[p].On? then Some(s.seats[p].i) else None
    else None
  }

  function OnConn(i: nat, act: Action): WorldEvent {
    match act
    case Subscribing(fault) => Subscribe(i, fault)
    case Sending(key, req, fault) => SendAction(i, key, req, fault)
    case Within(ev) => Inside(i, ev)
  }

  /** What a step of the service does to the runtime, its connections and its clients. */
  function WorldPart(s: Service, ev: ServiceEvent): Option<WorldEvent> {
    match ev
    case ClosingOld(h) => if Replaced(s, h).Some? then Some(Inside(Replaced(s, h).value, CloseWriter)) else None
    case Greet(h, k, fault) => if CanGreet(s, h, k) then Some(Open(k, fault, s.reg.handlers[h].closed)) else None
    case Serve(h, act) => if CanServe(s, h, act) then Some(OnConn(s.seats[h].i, act)) else None
    case Exit(h) =>
      if h < |s.reg.handlers| && h < |s.seats| && s.reg.handlers[h].phase == Reg.Leaving && s.seats[h].On? then
        Some(Inside(s.seats[h].i, Drop))
      else None
    case Elsewhere(e) => if e.Deliver? || e.Leave? || e.FireTick? then Some(e) else None
    case Reboot => Some(RestartProcess)
    case _ => None
  }

  ghost function After(spec: Spec, s: Service, ev: ServiceEvent): World {
    if WorldPart(s, ev).Some? then WorldStep(spec, s.world, WorldPart(s, ev).value) else s.world
  }

  ghost function ServiceStep(spec: Spec, s: Service, ev: ServiceEvent): Service {
    var w := After(spec, s, ev);
    match ev
    case Accepting => Service(w, Reg.Step(s.reg, Reg.Accept), s.seats + [Waiting])
    case Registering(h) => Service(w, Reg.Step(s.reg, Reg.Register(h)), s.seats)
    case ClosingOld(h) => Service(w, Reg.Step(s.reg, Reg.CloseOld(h)), s.seats)
    case Greet(h, k, _) =>
      if !CanGreet(s, h, k) then s
      else if |w.conns| > |s.world.conns| then Service(w, s.reg, s.seats[h := On(|s.world.conns|)])
      else Service(w, Reg.Step(s.reg, Reg.CloseOwn(h, INTERNAL)), s.seats[h := Rejected])
    case Serve(h, act) =>
      if CanServe(s, h, act) && s.seats[h].i < |w.conns| && w.conns[s.seats[h].i].closed then
        Service(w, Reg.Step(s.reg, Reg.CloseOwn(h, INTERNAL)), s.seats)
      else s.(world := w)
    case Unregistering(h) => Service(w, Reg.Step(s.reg, Reg.Unregister(h)), s.seats)
    case Exit(h) => Service(w, Reg.Step(s.reg, Reg.Leave(h)), s.seats)
    case Elsewhere(_) => s.(world := w)
    case Reboot => Service(w, Reg.Registry(None, [], []), [])
  }

  ghost function RunService(spec: Spec, clients: nat, events: seq<ServiceEvent>): Service {
    if events == [] then Service(RunWorld(spec, clients, []), Reg.Registry(None, [], []), [])
    else ServiceStep(spec, RunService(spec, clients, events[..|events| - 1]), events[|events| - 1])
  }

  /** The run of the world inside a run of the service. */
  ghost function WorldRun(spec: Spec, clients: nat, events: seq<ServiceEvent>): seq<WorldEvent> {
    if events == [] then []
    else
      var front := events[..|events| - 1];
      var part := WorldPart(RunService(spec, clients, front), events[|events| - 1]);
      WorldRun(spec, clients, front) + if part.Some? then [part.value] else []
  }

  lemma StepIsAfter(spec: Spec, s: Service, ev: ServiceEvent)
    ensures ServiceStep(spec, s, ev).world == After(spec, s, ev)
  {
  }

  /** Every run of the service is a run of the world, so all that holds of those holds here. */
  lemma {:induction false} ServiceRunsTheWorld(spec: Spec, clients: nat, events: seq<ServiceEvent>)
    ensures RunService(spec, clients, events).world == RunWorld(spec, clients, WorldRun(spec, clients, events))
  {
    if events != [] {
      var front, ev := events[..|events| - 1], events[|events| - 1];
      var s := RunService(spec, clients, front);
      ServiceRunsTheWorld(spec, clients, front);
      StepIsAfter(spec, s, ev);
      if WorldPart(s, ev).Some? {
        var done := WorldRun(spec, clients, front);
        assert (done + [WorldPart(s, ev).value])[..|done|] == done;
      } else {
        assert WorldRun(spec, clients, events) == WorldRun(spec, clients, front);
      }
    }
  }

  // ----- what every step keeps -----

  ghost predicate SeatOk(s: Service, h: nat)
    requires h < |s.seats| && h < |s.reg.handlers|
  {
    s.seats[h].On? ==>
      && s.seats[h].i < |s.world.conns| && s.world.conns[s.seats[h].i].closed == s.reg.handlers[h].closed
      && (s.reg.handlers[h].phase == Reg.Serving || s.reg.handlers[h].phase == Reg.Leaving
          || s.reg.handlers[h].phase == Reg.Gone)
  }

  /** Connection i belongs to a handler of this process. */
  ghost predicate HasSeat(s: Service, i: nat) {
    exists h :: 0 <= h < |s.seats| && s.seats[h] == On(i)
  }

  /** Handlers and connections agree on who is closed; an open connection has one handler. */
  ghost predicate ServiceOk(s: Service) {
    && |s.seats| == |s.reg.handlers| && Reg.RegistryOk(s.reg) && Reg.Enrolled(s.reg)
    && (forall h | 0 <= h < |s.seats| :: SeatOk(s, h))
    && (forall h, g | 0 <= h < g < |s.seats| && s.seats[h].On? :: s.seats[h] != s.seats[g])
    && (forall i | 0 <= i < |s.world.conns| && !s.world.conns[i].closed :: HasSeat(s, i))
  }

  /** The world goes on, and of the connections only i may have been closed. */
  ghost predicate OnlyCloses(w: World, u: World, i: nat) {
    && |u.conns| == |w.conns|
    && (forall j | 0 <= j < |w.conns| && j != i :: u.conns[j].closed == w.conns[j].closed)
    && (i < |w.conns| && w.conns[i].closed ==> u.conns[i].closed)
  }

  lemma ActionOnlyCloses(spec: Spec, w: World, i: nat, act: Action)
    ensures OnlyCloses(w, WorldStep(spec, w, OnConn(i, act)), i)
  {
    match act
    case Subscribing(_) =>
    case Sending(_, _, _) =>
    case Within(ev) => assert i < |w.conns| && w.conns[i].closed ==> ConnStep(w.conns[i], ev).closed;
  }

  lemma ElsewhereClosesNothing(spec: Spec, w: World, ev: WorldEvent)
    requires ev.Deliver? || ev.Leave? || ev.FireTick?
    ensures var u := WorldStep(spec, w, ev);
            |u.conns| == |w.conns| && forall j | 0 <= j < |w.conns| :: u.conns[j].closed == w.conns[j].closed
  {
  }

  lemma RegistryStepOk(r: Reg.Registry, ev: Reg.Event)
    requires Reg.RegistryOk(r) && Reg.Enrolled(r)
    ensures Reg.RegistryOk(Reg.Step(r, ev)) && Reg.Enrolled(Reg.Step(r, ev))
  {
    Reg.StepOk(r, ev);
    Reg.StepKeepsEnrolled(r, ev);
  }

  /** Registry and world both move; seats stay. */
  lemma SeatsStay(s: Service, u: Service)
    requires ServiceOk(s) && u.seats == s.seats && |u.reg.handlers| == |s.reg.handlers|
    requires Reg.RegistryOk(u.reg) && Reg.Enrolled(u.reg) && |u.world.conns| == |s.world.conns|
    requires forall h | 0 <= h < |s.seats| && s.seats[h].On? :: SeatOk(u, h)
    requires forall i | 0 <= i < |s.world.conns| && s.world.conns[i].closed :: u.world.conns[i].closed
    ensures ServiceOk(u)
  {
    forall i | 0 <= i < |u.world.conns| && !u.world.conns[i].closed ensures HasSeat(u, i) {
      assert HasSeat(s, i);
      var h :| 0 <= h < |s.seats| && s.seats[h] == On(i);
      assert u.seats[h] == On(i);
    }
  }

  /** A registry step that closes nobody, with the world untouched. */
  lemma QuietRegistryStep(s: Service, ev: Reg.Event)
    requires ServiceOk(s) && (ev.Register? || ev.Unregister?)
    ensures ServiceOk(s.(reg := Reg.Step(s.reg, ev)))
  {
    var u := s.(reg := Reg.Step(s.reg, ev));
    RegistryStepOk(s.reg, ev);
    forall g | 0 <= g < |s.seats| && s.seats[g].On? ensures SeatOk(u, g) {
      assert SeatOk(s, g);
    }
    SeatsStay(s, u);
  }

  lemma AcceptKeepsSeats(s: Service)
    requires ServiceOk(s)
    ensures ServiceOk(Service(s.world, Reg.Step(s.reg, Reg.Accept), s.seats + [Waiting]))
  {
    var u := Service(s.world, Reg.Step(s.reg, Reg.Accept), s.seats + [Waiting]);
    RegistryStepOk(s.reg, Reg.Accept);
    forall h | 0 <= h < |u.seats| ensures SeatOk(u, h) {
      assert h < |s.seats| ==> SeatOk(s, h);
    }
    forall i | 0 <= i < |u.world.conns| && !u.world.conns[i].closed ensures HasSeat(u, i) {
      assert HasSeat(s, i);
      var h :| 0 <= h < |s.seats| && s.seats[h] == On(i);
      assert u.seats[h] == On(i);
    }
  }

  /** A replacer closes the writer it found and starts serving; nobody else changes. */
  lemma CloseOldCloses(r: Reg.Registry, h: nat)
    requires h < |r.handlers|
    ensures var u := Reg.Step(r, Reg.CloseOld(h));
            && |u.handlers| == |r.handlers|
            && forall g | 0 <= g < |r.handlers| ::
                 && (g != h ==> u.handlers[g].phase == r.handlers[g].phase)
                 && u.handlers[g].closed
                    == (r.handlers[g].closed || (g != h && r.handlers[h].phase == Reg.Replacing(Some(g))))
  {
  }

  lemma OldClosed(s: Service, w: World, h: nat)
    requires ServiceOk(s) && h < |s.reg.handlers| && |w.conns| == |s.world.conns|
    requires forall i | 0 <= i < |w.conns| ::
               w.conns[i].closed == (s.world.conns[i].closed || Replaced(s, h) == Some(i))
    ensures ServiceOk(Service(w, Reg.Step(s.reg, Reg.CloseOld(h)), s.seats))
  {
    var u := Service(w, Reg.Step(s.reg, Reg.CloseOld(h)), s.seats);
    RegistryStepOk(s.reg, Reg.CloseOld(h));
    CloseOldCloses(s.reg, h);
    forall g | 0 <= g < |s.seats| && s.seats[g].On? ensures SeatOk(u, g) {
      assert SeatOk(s, g) && SeatOk(s, h);
    }
    SeatsStay(s, u);
  }

  lemma ClosingOldOk(spec: Spec, s: Service, h: nat)
    requires ServiceOk(s)
    ensures ServiceOk(ServiceStep(spec, s, ClosingOld(h)))
  {
    if h < |s.reg.handlers| {
      CloseWriterCloses(spec, s, h);
      OldClosed(s, After(spec, s, ClosingOld(h)), h);
    }
  }

  /** The world closes the connection of the handler replaced by h, if it has one, and no other. */
  lemma CloseWriterCloses(spec: Spec, s: Service, h: nat)
    requires ServiceOk(s) && h < |s.reg.handlers|
    ensures var u := After(spec, s, ClosingOld(h));
            && |u.conns| == |s.world.conns|
            && forall i | 0 <= i < |u.conns| ::
                 u.conns[i].closed == (s.world.conns[i].closed || Replaced(s, h) == Some(i))
  {
  }

  /** The world drops the connection of a leaving handler, and no other. */
  lemma ExitCloses(spec: Spec, s: Service, h: nat)
    requires ServiceOk(s) && h < |s.reg.handlers| && s.reg.handlers[h].phase == Reg.Leaving
    ensures var u := After(spec, s, Exit(h));
            && |u.conns| == |s.world.conns|
            && forall i | 0 <= i < |u.conns| :: u.conns[i].closed == (s.world.conns[i].closed || s.seats[h] == On(i))
  {
  }

  lemma ExitOk(spec: Spec, s: Service, h: nat)
    requires ServiceOk(s)
    ensures ServiceOk(ServiceStep(spec, s, Exit(h)))
  {
    if h < |s.reg.handlers| && s.reg.handlers[h].phase == Reg.Leaving {
      var u := ServiceStep(spec, s, Exit(h));
      ExitCloses(spec, s, h);
      RegistryStepOk(s.reg, Reg.Leave(h));
      forall g | 0 <= g < |s.seats| && s.seats[g].On? ensures SeatOk(u, g) {
        assert SeatOk(s, g);
      }
      SeatsStay(s, u);
    }
  }

  /** A connection that its handler, goroutines or writer closed: the handler's writer is closed with it. */
  lemma OwnClosed(s: Service, w: World, h: nat)
    requires ServiceOk(s) && h < |s.seats| && s.seats[h].On?
    requires OnlyCloses(s.world, w, s.seats[h].i) && s.seats[h].i < |w.conns| && w.conns[s.seats[h].i].closed
    ensures ServiceOk(Service(w, Reg.Step(s.reg, Reg.CloseOwn(h, INTERNAL)), s.seats))
  {
    var u := Service(w, Reg.Step(s.reg, Reg.CloseOwn(h, INTERNAL)), s.seats);
    RegistryStepOk(s.reg, Reg.CloseOwn(h, INTERNAL));
    forall g | 0 <= g < |s.seats| && s.seats[g].On? ensures SeatOk(u, g) {
      assert SeatOk(s, g);
    }
    SeatsStay(s, u);
  }

  lemma StillOpen(s: Service, w: World, h: nat)
    requires ServiceOk(s) && h < |s.seats| && s.seats[h].On?
    requires OnlyCloses(s.world, w, s.seats[h].i) && s.seats[h].i < |w.conns| && !w.conns[s.seats[h].i].closed
    ensures ServiceOk(s.(world := w))
  {
    forall g | 0 <= g < |s.seats| && s.seats[g].On? ensures SeatOk(s.(world := w), g) {
      assert SeatOk(s, g);
    }
    SeatsStay(s, s.(world := w));
  }

  lemma ServeOk(spec: Spec, s: Service, h: nat, act: Action)
    requires ServiceOk(s)
    ensures ServiceOk(ServiceStep(spec, s, Serve(h, act)))
  {
    if CanServe(s, h, act) {
      var w := After(spec, s, Serve(h, act));
      assert SeatOk(s, h);
      ActionOnlyCloses(spec, s.world, s.seats[h].i, act);
      if w.conns[s.seats[h].i].closed {
        OwnClosed(s, w, h);
      } else {
        StillOpen(s, w, h);
      }
    }
  }

  /** A greeting adds a connection, closed exactly if the handler's writer is, or adds none. */
  lemma GreetAdds(spec: Spec, s: Service, h: nat, k: nat, fault: LoadFault)
    requires CanGreet(s, h, k)
    ensures var u := After(spec, s, Greet(h, k, fault));
            && s.world.conns <= u.conns && |u.conns| <= |s.world.conns| + 1
            && (|u.conns| > |s.world.conns| ==> u.conns[|s.world.conns|].closed == s.reg.handlers[h].closed)
  {
  }

  lemma SeatTaken(s: Service, w: World, h: nat)
    requires ServiceOk(s) && h < |s.seats| && s.seats[h] == Waiting && s.reg.handlers[h].phase == Reg.Serving
    requires s.world.conns <= w.conns && |w.conns| == |s.world.conns| + 1
    requires w.conns[|s.world.conns|].closed == s.reg.handlers[h].closed
    ensures ServiceOk(Service(w, s.reg, s.seats[h := On(|s.world.conns|)]))
  {
    var u := Service(w, s.reg, s.seats[h := On(|s.world.conns|)]);
    forall g | 0 <= g < |u.seats| ensures SeatOk(u, g) {
      assert SeatOk(s, g);
    }
    forall g, f | 0 <= g < f < |u.seats| && u.seats[g].On? ensures u.seats[g] != u.seats[f] {
      assert SeatOk(s, g) && SeatOk(s, f);
    }
    forall i | 0 <= i < |u.world.conns| && !u.world.conns[i].closed ensures HasSeat(u, i) {
      if i < |s.world.conns| {
        assert HasSeat(s, i);
        var g :| 0 <= g < |s.seats| && s.seats[g] == On(i);
        assert u.seats[g] == On(i);
      } else {
        assert u.seats[h] == On(i);
      }
    }
  }

  lemma SeatRejected(s: Service, w: World, h: nat)
    requires ServiceOk(s) && h < |s.seats| && s.seats[h] == Waiting && w.conns == s.world.conns
    ensures ServiceOk(Service(w, Reg.Step(s.reg, Reg.CloseOwn(h, INTERNAL)), s.seats[h := Rejected]))
  {
    var u := Service(w, Reg.Step(s.reg, Reg.CloseOwn(h, INTERNAL)), s.seats[h := Rejected]);
    RegistryStepOk(s.reg, Reg.CloseOwn(h, INTERNAL));
    forall g | 0 <= g < |u.seats| ensures SeatOk(u, g) {
      assert SeatOk(s, g);
    }
    forall i | 0 <= i < |u.world.conns| && !u.world.conns[i].closed ensures HasSeat(u, i) {
      assert HasSeat(s, i);
      var g :| 0 <= g < |s.seats| && s.seats[g] == On(i);
      assert u.seats[g] == On(i);
    }
  }

  lemma GreetOk(spec: Spec, s: Service, h: nat, k: nat, fault: LoadFault)
    requires ServiceOk(s)
    ensures ServiceOk(ServiceStep(spec, s, Greet(h, k, fault)))
  {
    if CanGreet(s, h, k) {
      var w := After(spec, s, Greet(h, k, fault));
      GreetAdds(spec, s, h, k, fault);
      if |w.conns| > |s.world.conns| {
        SeatTaken(s, w, h);
      } else {
        SeatRejected(s, w, h);
      }
    }
  }

  lemma ElsewhereOk(spec: Spec, s: Service, ev: WorldEvent)
    requires ServiceOk(s)
    ensures ServiceOk(ServiceStep(spec, s, Elsewhere(ev)))
  {
    if ev.Deliver? || ev.Leave? || ev.FireTick? {
      ElsewhereClosesNothing(spec, s.world, ev);
      var u := ServiceStep(spec, s, Elsewhere(ev));
      forall g | 0 <= g < |s.seats| && s.seats[g].On? ensures SeatOk(u, g) {
        assert SeatOk(s, g);
      }
      SeatsStay(s, u);
    }
  }

  lemma ServiceStepOk(spec: Spec, s: Service, ev: ServiceEvent)
    requires ServiceOk(s)
    ensures ServiceOk(ServiceStep(spec, s, ev))
  {
    match ev
    case Accepting => AcceptKeepsSeats(s);
    case Registering(h) => QuietRegistryStep(s, Reg.Register(h));
    case ClosingOld(h) => ClosingOldOk(spec, s, h);
    case Greet(h, k, fault) => GreetOk(spec, s, h, k, fault);
    case Serve(h, act) => ServeOk(spec, s, h, act);
    case Unregistering(h) => QuietRegistryStep(s, Reg.Unregister(h));
    case Exit(h) => ExitOk(spec, s, h);
    case Elsewhere(e) => ElsewhereOk(spec, s, e);
    case Reboot =>
  }

  lemma {:induction false} EveryServiceRunOk(spec: Spec, clients: nat, events: seq<ServiceEvent>)
    ensures ServiceOk(RunService(spec, clients, events))
  {
    if events != [] {
      EveryServiceRunOk(spec, clients, events[..|events| - 1]);
      ServiceStepOk(spec, RunService(spec, clients, events[..|events| - 1]), events[|events| - 1]);
    }
  }

  // ----- results -----

  /** Connection i is being replaced or is exiting: its writer is about to be closed. */
  ghost predicate OnItsWayOut(s: Service, i: nat) {
    exists h :: 0 <= h < |s.seats| && h < |s.reg.handlers| && s.seats[h] == On(i)
                && (s.reg.handlers[h].phase == Reg.Leaving || Reg.ReplacerPending(s.reg, h))
  }

  /** An open connection is the active one or on its way out. */
  lemma OpenIsActive(s: Service, h: nat)
    requires ServiceOk(s) && h < |s.seats| && s.seats[h].On?
    requires s.seats[h].i < |s.world.conns| && !s.world.conns[s.seats[h].i].closed
    ensures s.reg.active == Some(h) || OnItsWayOut(s, s.seats[h].i)
  {
    assert SeatOk(s, h);
    assert h in s.reg.registered;
    var k :| 0 <= k < |s.reg.registered| && s.reg.registered[k] == h;
    if s.reg.active != Some(h) {
      assert Reg.Doomed(s.reg, s.reg.registered[k]);
      assert s.reg.handlers[h].phase == Reg.Leaving || Reg.ReplacerPending(s.reg, h);
    }
  }

  /** Of two open connections of a run at least one is about to be closed. */
  lemma OneConnectionStays(spec: Spec, clients: nat, events: seq<ServiceEvent>, i: nat, j: nat)
    requires var w := RunService(spec, clients, events).world;
             i < |w.conns| && j < |w.conns| && i != j && !w.conns[i].closed && !w.conns[j].closed
    ensures OnItsWayOut(RunService(spec, clients, events), i) || OnItsWayOut(RunService(spec, clients, events), j)
  {
    var s := RunService(spec, clients, events);
    EveryServiceRunOk(spec, clients, events);
    assert HasSeat(s, i) && HasSeat(s, j);
    var h :| 0 <= h < |s.seats| && s.seats[h] == On(i);
    var g :| 0 <= g < |s.seats| && s.seats[g] == On(j);
    OpenIsActive(s, h);
    OpenIsActive(s, g);
  }

  /** No replacer has a writer left to close, and no handler is exiting. */
  ghost predicate Calm(s: Service) {
    forall h | 0 <= h < |s.reg.handlers| ::
      s.reg.handlers[h].phase != Reg.Leaving && !Reg.ReplacerPending(s.reg, h)
  }

  /** Once replacers and exits are through, at most one connection is open. */
  lemma OneOpenWhenSettled(spec: Spec, clients: nat, events: seq<ServiceEvent>, i: nat, j: nat)
    requires Calm(RunService(spec, clients, events))
    requires var w := RunService(spec, clients, events).world;
             i < |w.conns| && j < |w.conns| && !w.conns[i].closed && !w.conns[j].closed
    ensures i == j
  {
    if i != j {
      OneConnectionStays(spec, clients, events, i, j);
    }
  }

  /** A closed connection gains nothing on its wire. */
  lemma ClosedWireGainsNothing(spec: Spec, w: World, ev: WorldEvent, i: nat)
    requires i < |w.conns| && w.conns[i].closed
    ensures i < |WorldStep(spec, w, ev).conns|
    ensures var c := WorldStep(spec, w, ev).conns[i];
            c.closed && (c.wire == w.conns[i].wire || (w.conns[i].wire != [] && c.wire == w.conns[i].wire[1..]))
  {
    match ev
    case Inside(_, e) => assert ConnStep(w.conns[i], e).closed && ConnStep(w.conns[i], e).wire == w.conns[i].wire;
    case _ =>
  }

  /** Connection i waits for the answer to an entry that connection j logged after i had its snapshot. */
  ghost predicate LoggedElsewhere(w: World, i: nat, j: nat) {
    && i < |w.conns| && j < |w.conns| && i != j && w.conns[i].reply.Some?
    && var q := w.conns[i].reply.value.delta.seqNo;
    && w.conns[i].base < q && IsRequest(w.node.log, q)
    && var req := w.node.log[q - 1].clientRequestId.value;
    req in w.owner && w.owner[req] == j
  }

  /** A connection is never misled by the answer to a request it logged itself. */
  lemma MisledByOther(spec: Spec, w: World, i: nat)
    requires WorldOk(spec, w) && i < |w.conns| && Misleads(w.node.log, w.conns[i])
    ensures exists j: nat :: LoggedElsewhere(w, i, j)
  {
    var c := w.conns[i];
    assert ConnOk(FactsOf(spec, w.node.log), c);
    AnswersAreDated(spec, w, i);
    var p := c.reply.value.delta.seqNo - 1;
    var req := w.node.log[p].clientRequestId.value;
    assert Settled(w.conns[w.owner[req]], p + 1);
    assert NoTickAfter(w.node.log[..p + 1], p + 1);
    assert LoggedElsewhere(w, i, w.owner[req]);
  }

  /** The connection that logged the entry is closed, or one of the two is about to be. */
  ghost predicate ReplacedOrBeing(s: Service, i: nat, j: nat) {
    (j < |s.world.conns| && s.world.conns[j].closed) || OnItsWayOut(s, i) || OnItsWayOut(s, j)
  }

  /**
   What replacement leaves of misleading answers: the entry was logged for another connection, after this one had
   its snapshot, and that other connection is closed, or one of the two is about to be.
   */
  lemma MisledByReplaced(spec: Spec, clients: nat, events: seq<ServiceEvent>, i: nat)
    requires SafeRun(spec, clients, WorldRun(spec, clients, events))
    requires var w := RunService(spec, clients, events).world;
             i < |w.conns| && Misleads(w.node.log, w.conns[i])
    ensures exists j: nat ::
              LoggedElsewhere(RunService(spec, clients, events).world, i, j)
              && ReplacedOrBeing(RunService(spec, clients, events), i, j)
  {
    var s := RunService(spec, clients, events);
    ServiceRunsTheWorld(spec, clients, events);
    SafeRunsAreOk(spec, clients, WorldRun(spec, clients, events));
    MisledByOther(spec, s.world, i);
    var j: nat :| LoggedElsewhere(s.world, i, j);
    if !s.world.conns[j].closed {
      OneConnectionStays(spec, clients, events, i, j);
    }
  }

  /** A greeting seats its handler on a new connection, or closes it when the run cannot be served. */
  lemma GreetOutcome(spec: Spec, s: Service, h: nat, k: nat, fault: LoadFault)
    requires ServiceOk(s) && CanGreet(s, h, k)
    ensures var u := ServiceStep(spec, s, Greet(h, k, fault));
            h < |u.seats| && h < |u.reg.handlers|
            && if Connect(spec, s.world.node, fault).1.Some? then u.seats[h] == On(|s.world.conns|)
               else u.seats[h] == Rejected && u.reg.handlers[h].closed
  {
  }

  /** A handler takes no action before it has greeted or after it has unregistered. */
  lemma OnlyServingHandlersAct(spec: Spec, s: Service, h: nat, key: string, req: string, fault: Fault)
    requires h < |s.reg.handlers| && h < |s.seats|
    requires s.reg.handlers[h].phase != Reg.Serving || !s.seats[h].On?
    ensures ServiceStep(spec, s, Serve(h, Sending(key, req, fault))) == s
  {
  }

  /** Nor does it greet while the writer it replaces may still be open. */
  lemma GreetsAfterClosing(spec: Spec, s: Service, h: nat, k: nat, fault: LoadFault)
    requires h < |s.reg.handlers| && s.reg.handlers[h].phase != Reg.Serving
    ensures ServiceStep(spec, s, Greet(h, k, fault)) == s
  {
  }

  /** A handler that has left has closed its connection for good. */
  lemma ExitOutcome(spec: Spec, s: Service, h: nat)
    requires ServiceOk(s) && h < |s.seats| && s.seats[h].On? && s.reg.handlers[h].phase == Reg.Leaving
    ensures var u := ServiceStep(spec, s, Exit(h));
            && h < |u.reg.handlers| && u.reg.handlers[h].phase == Reg.Gone && u.reg.handlers[h].closed
            && s.seats[h].i < |u.world.conns|
            && u.world.conns[s.seats[h].i].closed && !u.world.conns[s.seats[h].i].running
  {
    assert SeatOk(s, h);
  }
}
