/** Which connection of a run is active, who closes whom, and what a writer may still send (ws_handler.go). */
module Registry {
  import opened Prelude

  // ----- as objects -----

  datatype Frame = Data(text: string) | CloseFrame(code: int)

  const CONNECTION_REPLACED := 4009

  class ConnWriter {
    var closed: bool
    var sent: seq<Frame>

    ghost predicate Valid()
      reads this
    {
      EndsAtClose(sent, closed)
    }

    constructor ()
      ensures Valid() && !closed && sent == []
    {
      closed, sent := false, [];
    }

    method Write(text: string) returns (ok: bool)
      requires Valid()
      modifies this
      ensures Valid() && closed == old(closed) && ok == !closed
      ensures sent == if ok then old(sent) + [Data(text)] else old(sent)
    {
      if closed {
        return false;
      }
      sent := sent + [Data(text)];
      ok := true;
    }

    method CloseWith(code: int)
      requires Valid()
      modifies this
      ensures Valid() && closed
      ensures sent == if old(closed) then old(sent) else old(sent) + [CloseFrame(code)]
    {
      if closed {
        return;
      }
      sent := sent + [CloseFrame(code)];
      closed := true;
    }
  }

  class WsHandler {
    var active: map<string, ConnWriter>

    constructor ()
      ensures active == map[]
    {
      active := map[];
    }

    method RegisterActive(runId: string, writer: ConnWriter)
      requires forall id | id in active :: active[id].Valid()
      requires writer.Valid()
      modifies this, if runId in active && active[runId] != writer then {active[runId]} else {}
      ensures active == old(active)[runId := writer]
      ensures runId in old(active) && old(active[runId]) != writer ==>
                && old(active[runId]).closed
                && old(active[runId]).sent
                   == old(active[runId].sent) + if old(active[runId].closed) then [] else [CloseFrame(4009)]
      ensures forall id | id in active :: active[id].Valid()
    {
      var previous := if runId in active then Some(active[runId]) else None;
      active := active[runId := writer];
      if previous.Some? && previous.value != writer {
        previous.value.CloseWith(CONNECTION_REPLACED);
      }
    }

    /** An older handler's exit leaves a newer registration alone. */
    method UnregisterActive(runId: string, writer: ConnWriter)
      modifies this
      ensures active == if runId in old(active) && old(active)[runId] == writer then old(active) - {runId}
                        else old(active)
    {
      if runId in active && active[runId] == writer {
        active := active - {runId};
      }
    }
  }

  /** Nothing follows a close frame, and there is one exactly when the writer is closed. */
  ghost predicate EndsAtClose(sent: seq<Frame>, closed: bool) {
    && (forall i | 0 <= i < |sent| - 1 :: sent[i].Data?)
    && (closed <==> sent != [] && sent[|sent| - 1].CloseFrame?)
  }

  // ----- interleaved, for one run -----

  /** Where a handler stands; Replacing holds the writer it found and has not closed yet. */
  datatype Phase = Greeting | Replacing(previous: Option<nat>) | Serving | Leaving | Gone

  datatype Handler = Handler(phase: Phase, closed: bool, sent: seq<Frame>)

  /** registered is the order of registrations so far. */
  datatype Registry = Registry(active: Option<nat>, handlers: seq<Handler>, registered: seq<nat>)

  datatype Event =
    | Accept
    | Register(w: nat)
    | CloseOld(w: nat)
    | Unregister(w: nat)
    | Leave(w: nat)
    | CloseOwn(w: nat, code: int)
    | Send(w: nat, text: string)

  function Close(h: Handler, code: int): Handler {
    if h.closed then h else h.(closed := true, sent := h.sent + [CloseFrame(code)])
  }

  function With(r: Registry, w: nat, h: Handler): Registry
    requires w < |r.handlers|
  {
    r.(handlers := r.handlers[w := h])
  }

  /** Each step is what one lock section does; a step whose handler is not at that point does nothing. */
  function Step(r: Registry, ev: Event): Registry {
    if ev.Accept? then r.(handlers := r.handlers + [Handler(Greeting, false, [])])
    else if ev.w >= |r.handlers| then r
    else
      var w := ev.w;
      var h := r.handlers[w];
      match ev
      case Accept => r
      case Register(_) =>
        if h.phase != Greeting then r
        else With(r, w, h.(phase := Replacing(r.active))).(active := Some(w), registered := r.registered + [w])
      case CloseOld(_) =>
        if !h.phase.Replacing? then r
        else
          var served := With(r, w, h.(phase := Serving));
          if h.phase.previous.None? || h.phase.previous.value == w || h.phase.previous.value >= |r.handlers| then served
          else With(served, h.phase.previous.value, Close(served.handlers[h.phase.previous.value], CONNECTION_REPLACED))
      case Unregister(_) =>
        if h.phase != Serving then r
        else With(r, w, h.(phase := Leaving)).(active := if r.active == Some(w) then None else r.active)
      case Leave(_) => if h.phase != Leaving then r else With(r, w, Close(h, 1000).(phase := Gone))
      case CloseOwn(_, code) => With(r, w, Close(h, code))
      case Send(_, text) => if h.closed then r else With(r, w, h.(sent := h.sent + [Data(text)]))
  }

  function Run(events: seq<Event>): Registry {
    if events == [] then Registry(None, [], []) else Step(Run(events[..|events| - 1]), events[|events| - 1])
  }

  /** Closed, about to be closed by the handler that replaced it, or about to close itself. */
  ghost predicate Doomed(r: Registry, w: nat)
    requires w < |r.handlers|
  {
    || r.handlers[w].closed
    || r.handlers[w].phase == Leaving
    || exists x :: 0 <= x < |r.handlers| && r.handlers[x].phase == Replacing(Some(w))
  }

  ghost predicate WiresOk(r: Registry) {
    forall w | 0 <= w < |r.handlers| :: EndsAtClose(r.handlers[w].sent, r.handlers[w].closed)
  }

  ghost predicate RegistryOk(r: Registry) {
    && (forall i | 0 <= i < |r.registered| ::
          r.registered[i] < |r.handlers| && r.handlers[r.registered[i]].phase != Greeting)
    && (r.active.Some? ==>
          && r.registered != [] && r.active.value == r.registered[|r.registered| - 1]
          && (r.handlers[r.active.value].phase == Serving || r.handlers[r.active.value].phase.Replacing?))
    && (forall w | 0 <= w < |r.handlers| && r.handlers[w].phase.Replacing? && r.handlers[w].phase.previous.Some? ::
          Replaceable(r, w, r.handlers[w].phase.previous.value))
    && (forall w | 0 <= w < |r.handlers| && r.handlers[w].phase == Gone :: r.handlers[w].closed)
    && (forall i | 0 <= i < |r.registered| && r.active != Some(r.registered[i]) :: Doomed(r, r.registered[i]))
  }

  /** What a replacer may close: an earlier writer, registered and no longer active. */
  ghost predicate Replaceable(r: Registry, w: nat, previous: nat) {
    previous < |r.handlers| && r.active != Some(previous) && previous != w && r.handlers[previous].phase != Greeting
  }

  lemma StepKeepsWires(r: Registry, ev: Event)
    requires WiresOk(r)
    ensures WiresOk(Step(r, ev))
  {
  }

  /** Doom outlasts any step that keeps replacers replacing and closed writers closed. */
  lemma DoomLasts(r: Registry, u: Registry, w: nat)
    requires w < |r.handlers| <= |u.handlers| && Doomed(r, w)
    requires r.handlers[w].closed ==> u.handlers[w].closed
    requires r.handlers[w].phase == Leaving ==> u.handlers[w].phase == Leaving || u.handlers[w].closed
    requires forall x | 0 <= x < |r.handlers| && r.handlers[x].phase == Replacing(Some(w)) ::
               u.handlers[x].phase == Replacing(Some(w)) || u.handlers[w].closed
    ensures Doomed(u, w)
  {
    if !r.handlers[w].closed && r.handlers[w].phase != Leaving {
      var x :| 0 <= x < |r.handlers| && r.handlers[x].phase == Replacing(Some(w));
      assert u.handlers[x].phase == Replacing(Some(w)) || u.handlers[w].closed;
    }
  }

  /** A change to one handler that closes it no less and keeps its phase. */
  lemma QuietStep(r: Registry, w: nat, h: Handler)
    requires RegistryOk(r) && w < |r.handlers| && h.phase == r.handlers[w].phase && (r.handlers[w].closed ==> h.closed)
    ensures RegistryOk(With(r, w, h))
  {
    var u := With(r, w, h);
    forall i | 0 <= i < |u.registered| && u.active != Some(u.registered[i]) ensures Doomed(u, u.registered[i]) {
      DoomLasts(r, u, r.registered[i]);
    }
  }

  /** A replacer whose predecessor is closed starts serving. */
  lemma ServeOk(r: Registry, w: nat)
    requires RegistryOk(r) && w < |r.handlers| && r.handlers[w].phase.Replacing?
    requires var p := r.handlers[w].phase.previous;
             p.Some? ==> p.value < |r.handlers| && r.handlers[p.value].closed
    ensures RegistryOk(With(r, w, r.handlers[w].(phase := Serving)))
  {
    var u := With(r, w, r.handlers[w].(phase := Serving));
    forall i | 0 <= i < |u.registered| && u.active != Some(u.registered[i]) ensures Doomed(u, u.registered[i]) {
      DoomLasts(r, u, r.registered[i]);
    }
  }

  lemma RegisterOk(r: Registry, w: nat)
    requires RegistryOk(r) && w < |r.handlers| && r.handlers[w].phase == Greeting
    ensures RegistryOk(Step(r, Register(w)))
  {
    var u := Step(r, Register(w));
    assert forall i | 0 <= i < |r.registered| :: u.registered[i] == r.registered[i] && r.registered[i] != w;
    forall i | 0 <= i < |u.registered| && u.active != Some(u.registered[i]) ensures Doomed(u, u.registered[i]) {
      if r.active == Some(u.registered[i]) {
        assert u.handlers[w].phase == Replacing(Some(u.registered[i]));
      } else {
        DoomLasts(r, u, r.registered[i]);
      }
    }
  }

  lemma CloseOldOk(r: Registry, w: nat)
    requires RegistryOk(r) && w < |r.handlers| && r.handlers[w].phase.Replacing?
    ensures RegistryOk(Step(r, CloseOld(w)))
  {
    var previous := r.handlers[w].phase.previous;
    if previous.None? {
      ServeOk(r, w);
    } else {
      var p := previous.value;
      assert Replaceable(r, w, p);
      QuietStep(r, p, Close(r.handlers[p], CONNECTION_REPLACED));
      ServeOk(With(r, p, Close(r.handlers[p], CONNECTION_REPLACED)), w);
      assert Step(r, CloseOld(w)).handlers
          == r.handlers[p := Close(r.handlers[p], CONNECTION_REPLACED)][w := r.handlers[w].(phase := Serving)];
    }
  }

  lemma UnregisterOk(r: Registry, w: nat)
    requires RegistryOk(r) && w < |r.handlers| && r.handlers[w].phase == Serving
    ensures RegistryOk(Step(r, Unregister(w)))
  {
    var u := Step(r, Unregister(w));
    forall i | 0 <= i < |u.registered| && u.active != Some(u.registered[i]) ensures Doomed(u, u.registered[i]) {
      if r.active != Some(r.registered[i]) {
        DoomLasts(r, u, r.registered[i]);
      }
    }
  }

  lemma LeaveOk(r: Registry, w: nat)
    requires RegistryOk(r) && w < |r.handlers| && r.handlers[w].phase == Leaving
    ensures RegistryOk(Step(r, Leave(w)))
  {
    var u := Step(r, Leave(w));
    forall i | 0 <= i < |u.registered| && u.active != Some(u.registered[i]) ensures Doomed(u, u.registered[i]) {
      DoomLasts(r, u, r.registered[i]);
    }
  }

  lemma AcceptOk(r: Registry)
    requires RegistryOk(r)
    ensures RegistryOk(Step(r, Accept))
  {
    var u := Step(r, Accept);
    forall i | 0 <= i < |u.registered| && u.active != Some(u.registered[i]) ensures Doomed(u, u.registered[i]) {
      DoomLasts(r, u, r.registered[i]);
    }
  }

  lemma StepOk(r: Registry, ev: Event)
    requires RegistryOk(r)
    ensures RegistryOk(Step(r, ev))
  {
    if Step(r, ev) != r {
      match ev
      case Accept => AcceptOk(r);
      case Register(w) => RegisterOk(r, w);
      case CloseOld(w) => CloseOldOk(r, w);
      case Unregister(w) => UnregisterOk(r, w);
      case Leave(w) => LeaveOk(r, w);
      case CloseOwn(w, code) => QuietStep(r, w, Close(r.handlers[w], code));
      case Send(w, text) => QuietStep(r, w, r.handlers[w].(sent := r.handlers[w].sent + [Data(text)]));
    }
  }

  /**
   Over every interleaving: the active writer is the last one registered, every other registered writer is
   closed or about to be, and nothing follows a close frame on any connection.
   */
  lemma {:induction false} EveryInterleavingOk(events: seq<Event>)
    ensures RegistryOk(Run(events)) && WiresOk(Run(events))
  {
    if events != [] {
      var before := Run(events[..|events| - 1]);
      EveryInterleavingOk(events[..|events| - 1]);
      StepOk(before, events[|events| - 1]);
      StepKeepsWires(before, events[|events| - 1]);
    }
  }

  /** Only its own exit or a newer registration takes the active place, and no replacer closes the active writer. */
  lemma ActiveStays(events: seq<Event>, ev: Event)
    requires Run(events).active.Some?
    ensures ev != Unregister(Run(events).active.value) && !ev.Register? ==>
              Step(Run(events), ev).active == Run(events).active
    ensures ev.CloseOld? && Run(events).active.value < |Run(events).handlers| ==>
              Step(Run(events), ev).handlers[Run(events).active.value].closed
              == Run(events).handlers[Run(events).active.value].closed
  {
    EveryInterleavingOk(events);
  }

  /** Whoever has passed registration is on the list. */
  ghost predicate Enrolled(r: Registry) {
    forall w | 0 <= w < |r.handlers| && r.handlers[w].phase != Greeting :: w in r.registered
  }

  lemma StepKeepsEnrolled(r: Registry, ev: Event)
    requires Enrolled(r)
    ensures Enrolled(Step(r, ev))
  {
  }

  lemma {:induction false} EverybodyEnrolled(events: seq<Event>)
    ensures Enrolled(Run(events))
  {
    if events != [] {
      EverybodyEnrolled(events[..|events| - 1]);
      StepKeepsEnrolled(Run(events[..|events| - 1]), events[|events| - 1]);
    }
  }

  /** A writer sends while it is open and closes once; a handler that unregisters gives up only its own active place. */
  lemma HandlerSteps(r: Registry, w: nat, text: string, code: int)
    requires w < |r.handlers|
    ensures var h := r.handlers[w];
            && Step(r, Send(w, text)).handlers[w].sent == h.sent + (if h.closed then [] else [Data(text)])
            && Step(r, CloseOwn(w, code)).handlers[w]
               == h.(closed := true, sent := h.sent + if h.closed then [] else [CloseFrame(code)])
            && (h.phase == Serving ==>
                  && Step(r, Unregister(w)).handlers[w] == h.(phase := Leaving)
                  && Step(r, Unregister(w)).active == if r.active == Some(w) then None else r.active)
            && (h.phase == Leaving ==>
                  Step(r, Leave(w)).handlers[w].closed && Step(r, Leave(w)).handlers[w].phase == Gone)
            && (h.phase == Greeting ==>
                  Step(r, Register(w)).active == Some(w)
                  && Step(r, Register(w)).handlers[w].phase == Replacing(r.active)
                  && Step(r, Register(w)).registered == r.registered + [w])
  {
  }

  /** The replacer closes the writer it found with the replacement code, and then serves. */
  lemma ReplacedIsTold(r: Registry, w: nat, p: nat)
    requires w < |r.handlers| && p < |r.handlers| && p != w && r.handlers[w].phase == Replacing(Some(p))
    ensures var u := Step(r, CloseOld(w));
            && u.handlers[p].closed && u.handlers[w].phase == Serving && u.active == r.active
            && u.handlers[p].sent == r.handlers[p].sent + if r.handlers[p].closed then [] else [CloseFrame(4009)]
  {
  }

  /** A replacer has taken w's place and not closed it yet. */
  ghost predicate ReplacerPending(r: Registry, w: nat) {
    exists x :: 0 <= x < |r.handlers| && r.handlers[x].phase == Replacing(Some(w))
  }

  /** A registered writer that is neither active nor on its way out is closed, or its replacer is about to close it. */
  lemma InactiveIsReplaced(events: seq<Event>, w: nat)
    requires w < |Run(events).handlers| && Run(events).handlers[w].phase != Greeting
    requires Run(events).active != Some(w) && Run(events).handlers[w].phase != Leaving
    ensures Run(events).handlers[w].closed || ReplacerPending(Run(events), w)
  {
    EveryInterleavingOk(events);
    EverybodyEnrolled(events);
    var i :| 0 <= i < |Run(events).registered| && Run(events).registered[i] == w;
    assert Doomed(Run(events), Run(events).registered[i]);
  }

  ghost predicate Reachable(r: Registry) {
    exists events :: Run(events) == r
  }

  lemma ReachableNext(r: Registry, ev: Event)
    requires Reachable(r)
    ensures Reachable(Step(r, ev))
  {
    var events :| Run(events) == r;
    assert (events + [ev])[..|events|] == events;
    assert Run(events + [ev]) == Step(r, ev);
  }

  lemma LoneHandlerServes()
    ensures Reachable(Registry(Some(0), [Handler(Serving, false, [])], [0]))
  {
    assert Run([]) == Registry(None, [], []);
    ReachableNext(Registry(None, [], []), Accept);
    ReachableNext(Registry(None, [Handler(Greeting, false, [])], []), Register(0));
    ReachableNext(Registry(Some(0), [Handler(Replacing(None), false, [])], [0]), CloseOld(0));
  }

  /** A writer that has unregistered itself is neither active nor closed, and nobody is about to replace it. */
  lemma LeavingWitness()
    ensures exists r :: Reachable(r) && LeftInTheOpen(r, 0)
  {
    LoneHandlerServes();
    ReachableNext(Registry(Some(0), [Handler(Serving, false, [])], [0]), Unregister(0));
    assert LeftInTheOpen(Registry(None, [Handler(Leaving, false, [])], [0]), 0);
  }

  /** Registered, neither active nor closed, and without a replacer. */
  ghost predicate LeftInTheOpen(r: Registry, w: nat) {
    && w < |r.handlers| && w in r.registered && r.active.None?
    && r.handlers[w] == Handler(Leaving, false, []) && !ReplacerPending(r, w)
  }
}
