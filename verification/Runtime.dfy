/**
 The runtime of cmd/engine-a/runtime.go for one run: a durable log and an in-memory engine that must
 stay its replay. Each step runs under the run's mutex. There is one runState per run.
 */
module Runtime {
  import opened Prelude
  import opened Simulation
  import opened ReplayLaws
  import opened ActionTable
  import RunRepo

  /** ws.Delta: a snapshot of the run, labelled with the log position it belongs to. */
  datatype Delta = Delta(seqNo: int, payload: Snapshot)

  datatype Cache = Cache(engine: State, lastSeq: int, terminal: bool, sentWin: bool, tickStarted: bool)

  /** log survives a restart, cache and loops (live tick goroutines) do not; wins counts win broadcasts ever made. */
  datatype Node = Node(log: seq<LogEntry>, cache: Option<Cache>, loops: nat, wins: nat)

  datatype RuntimeError = NotLoaded | Completed | Append(cause: AppendError) | Refused(reason: SimError)

  predicate IsTerminal(spec: Spec, s: State) {
    s.won || (spec.durationTicks > 0 && s.tick >= spec.durationTicks)
  }

  function TickInput(): Input {
    Input(TICK, None, None)
  }

  // ----- steps -----

  /** How loading goes. Unread: the run, its bundle or its log cannot be read; first: how an empty log's tick goes. */
  datatype LoadFault = Unread | Read(first: Fault)

  /** state(): reuse the cached run, or rebuild it from the log, giving an empty log its first tick. */
  function Load(spec: Spec, n: Node, fault: LoadFault): (Node, bool) {
    if n.cache.Some? then (n, true)
    else if fault == Unread then (n, false)
    else if n.log != [] then Rebuild(spec, n)
    else
      var (log, first) := AppendOutcome([], TickInput(), fault.first);
      if first.Failure? then (n.(log := log), false) else Rebuild(spec, n.(log := log))
  }

  function Rebuild(spec: Spec, n: Node): (Node, bool) {
    match Replay(spec, n.log)
    case Failure(_) => (n, false)
    case Success(s) => (n.(cache := Some(Cache(s, MaxSeq(n.log), IsTerminal(spec, s), false, false))), true)
  }

  function EnsureTickLoop(n: Node): Node {
    if n.cache.None? || n.cache.value.tickStarted || n.cache.value.terminal then n
    else n.(cache := Some(n.cache.value.(tickStarted := true)), loops := n.loops + 1)
  }

  /** Connect, and SubscribeDeltas up to its channel. */
  ghost function Connect(spec: Spec, n: Node, fault: LoadFault): (Node, Option<Delta>) {
    var (m, loaded) := Load(spec, n, fault);
    if !loaded || m.cache.None? then (m, None)
    else (EnsureTickLoop(m), Some(Delta(m.cache.value.lastSeq, SnapshotOf(spec, m.cache.value.engine))))
  }

  ghost function Act(spec: Spec, n: Node, key: string, req: string, loadFault: LoadFault, fault: Fault)
    : (Node, Result<Delta, RuntimeError>)
  {
    var (m, loaded) := Load(spec, n, loadFault);
    if !loaded || m.cache.None? then (m, Failure(NotLoaded)) else ActLoaded(spec, m, key, req, fault)
  }

  ghost function ActLoaded(spec: Spec, n: Node, key: string, req: string, fault: Fault)
    : (Node, Result<Delta, RuntimeError>)
    requires n.cache.Some?
  {
    var c := n.cache.value;
    if c.terminal then (n, Failure(Completed))
    else
      var (log, stored) := AppendOutcome(n.log, Input(PLAYER, Some(key), Some(req)), fault);
      var kept := n.(log := log);
      if stored.Failure? then (kept, Failure(Append(stored.error)))
      else if stored.value.seqNo > c.lastSeq then
        match ActionStep(spec, c.engine, key, Some(req))
        case Failure(e) => (kept, Failure(Refused(e)))
        case Success(s) =>
          (EnsureTickLoop(kept.(cache := Some(c.(engine := s, lastSeq := stored.value.seqNo)))),
           Success(Delta(stored.value.seqNo, SnapshotOf(spec, s))))
      else
        (EnsureTickLoop(kept), Success(Delta(stored.value.seqNo, SnapshotOf(spec, c.engine))))
  }

  datatype FireOut = FireOut(delta: Option<Delta>, win: Option<bool>)

  /** The tick goroutine gives up: tickStarted is cleared and the loop returns. */
  function StopLoop(n: Node): Node
    requires n.cache.Some? && n.loops > 0
  {
    n.(cache := Some(n.cache.value.(tickStarted := false)), loops := n.loops - 1)
  }

  /** One turn of a live tick loop; early means nextTickAt is still ahead. */
  ghost function Fire(spec: Spec, n: Node, early: bool, fault: Fault): (Node, FireOut) {
    if n.loops == 0 || n.cache.None? then (n, FireOut(None, None))
    else if n.cache.value.terminal then (StopLoop(n), FireOut(None, None))
    else if early then (n, FireOut(None, None))
    else TickOnce(spec, n, fault)
  }

  ghost function TickOnce(spec: Spec, n: Node, fault: Fault): (Node, FireOut)
    requires n.loops > 0 && n.cache.Some?
  {
    var c := n.cache.value;
    var (log, stored) := AppendOutcome(n.log, TickInput(), fault);
    var ticked := TickStep(spec, c.engine);
    if stored.Failure? || ticked.Failure? then (StopLoop(n.(log := log)), FireOut(None, None))
    else
      SettleTick(spec, n.(log := log, cache := Some(c.(engine := ticked.value, lastSeq := stored.value.seqNo))))
  }

  /** After a tick: the delta goes out, or the run ends and its result is broadcast. */
  ghost function SettleTick(spec: Spec, n: Node): (Node, FireOut)
    requires n.loops > 0 && n.cache.Some?
  {
    var c := n.cache.value;
    if !IsTerminal(spec, c.engine) then (n, FireOut(Some(Delta(c.lastSeq, SnapshotOf(spec, c.engine))), None))
    else
      var stopped := StopLoop(n.(cache := Some(c.(terminal := true, sentWin := true))));
      if c.sentWin then (stopped, FireOut(None, None))
      else (stopped.(wins := n.wins + 1), FireOut(None, Some(c.engine.won)))
  }

  /** The process dies: memory and goroutines are gone, the log stays. */
  function Restart(n: Node): Node {
    n.(cache := None, loops := 0)
  }

  datatype Event =
    | Connecting(loadFault: LoadFault)
    | Acting(key: string, req: string, loadFault: LoadFault, fault: Fault)
    | Firing(early: bool, fault: Fault)
    | Restarting

  ghost function Step(spec: Spec, n: Node, ev: Event): Node {
    match ev
    case Connecting(loadFault) => Connect(spec, n, loadFault).0
    case Acting(key, req, loadFault, fault) => Act(spec, n, key, req, loadFault, fault).0
    case Firing(early, fault) => Fire(spec, n, early, fault).0
    case Restarting => Restart(n)
  }

  /** A run nobody has connected to yet. */
  function Fresh(): Node {
    Node([], None, 0, 0)
  }

  // ----- parity -----

  /** Node bookkeeping agrees with s, the replay of the log. */
  ghost predicate Agrees(spec: Spec, n: Node, s: State) {
    && (spec.durationTicks > 0 ==> s.tick <= spec.durationTicks)
    && n.wins <= 1 && (n.wins == 1 ==> IsTerminal(spec, s))
    && n.loops == (if n.cache.Some? && n.cache.value.tickStarted then 1 else 0)
    && (n.cache.Some? ==>
          && var c := n.cache.value;
          && c.engine == s && c.lastSeq == |n.log| >= 1
          && c.terminal == IsTerminal(spec, s)
          && (c.tickStarted ==> !c.terminal) && (c.sentWin ==> c.terminal))
  }

  /** The log replays; any cached engine is that replay; terminal, tick-loop and broadcast bookkeeping agree with it. */
  ghost predicate Healthy(spec: Spec, n: Node) {
    RowsOk(n.log) && Replay(spec, n.log).Success? && Agrees(spec, n, Replay(spec, n.log).value)
  }

  /**
   The two ways parity is lost: a row is stored although the runtime is told it was not, or a new
   action is stored before the engine refuses its unknown key.
   */
  ghost predicate Hazard(spec: Spec, n: Node, ev: Event) {
    match ev
    case Connecting(_) => false
    case Acting(key, req, loadFault, fault) =>
      var (m, loaded) := Load(spec, n, loadFault);
      && loaded && m.cache.Some? && !m.cache.value.terminal && FindRequest(m.log, req).None?
      && (fault == AckLost || (fault == NoFault && key !in spec.actionEffects))
    case Firing(early, fault) =>
      n.loops > 0 && n.cache.Some? && !n.cache.value.terminal && !early && fault == AckLost
    case Restarting => false
  }

  lemma AppendExtends(spec: Spec, log: seq<LogEntry>, input: Input, fault: Fault)
    requires RowsOk(log)
    ensures var (rows, r) := AppendOutcome(log, input, fault);
            && RowsOk(rows)
            && (rows == log || rows == log + [RowFor(input, |log| + 1)])
            && (r.Success? && r.value.seqNo > |log| ==> rows == log + [r.value] && r.value == RowFor(input, |log| + 1))
            && (r.Success? && r.value.seqNo <= |log| ==>
                  rows == log && r.value in log && input.clientRequestId.Some?
                  && r.value.clientRequestId == input.clientRequestId && Matches(r.value, input))
  {
    RowsNumberAndRequestFree(log, input);
    RunRepo.AppendKeepsRowsOk(log, input, fault);
    if input.clientRequestId.Some? {
      FindRequestMeaning(log, input.clientRequestId.value);
    }
  }

  /** The first tick of an empty log always runs. */
  lemma FirstTick(spec: Spec)
    ensures var log := [RowFor(TickInput(), 1)];
            && Replay(spec, log).Success? && Replay(spec, log).value.tick == 1
            && RowsOk(log) && MaxSeq(log) == 1
  {
    ReplayOfExtension(spec, [], RowFor(TickInput(), 1));
    assert [] + [RowFor(TickInput(), 1)] == [RowFor(TickInput(), 1)];
  }

  lemma RebuildKeepsHealthy(spec: Spec, n: Node)
    requires Healthy(spec, n) && n.cache.None? && n.log != []
    ensures var (m, loaded) := Rebuild(spec, n);
            Healthy(spec, m) && loaded && m.cache.Some? && m.log == n.log && m.wins == n.wins
  {
    MaxSeqOfDense(n.log);
  }

  lemma FirstAppend(fault: Fault)
    ensures var (log, r) := AppendOutcome([], TickInput(), fault);
            && log == (if fault == NotStored then [] else [RowFor(TickInput(), 1)])
            && (r.Success? <==> fault == NoFault)
  {
    assert [] + [RowFor(TickInput(), 1)] == [RowFor(TickInput(), 1)];
  }

  lemma FirstTickKeepsHealthy(spec: Spec, n: Node)
    requires Healthy(spec, n) && n.cache.None? && n.log == []
    ensures Healthy(spec, n.(log := [RowFor(TickInput(), 1)]))
  {
    FirstTick(spec);
    assert Replay(spec, n.log) == Success(Initial(spec));
  }

  lemma LoadOfEmptyLogIs(spec: Spec, n: Node, fault: Fault)
    requires n.cache.None? && n.log == []
    ensures var ticked := n.(log := [RowFor(TickInput(), 1)]);
            Load(spec, n, Read(fault)) ==
            if fault == NotStored then (n, false)
            else if fault == AckLost then (ticked, false)
            else Rebuild(spec, ticked)
  {
    FirstAppend(fault);
  }

  lemma LoadOfEmptyLog(spec: Spec, n: Node, fault: Fault)
    requires Healthy(spec, n) && n.cache.None? && n.log == []
    ensures var (m, loaded) := Load(spec, n, Read(fault));
            && Healthy(spec, m)
            && (loaded <==> fault == NoFault) && (loaded <==> m.cache.Some?)
            && m.log == (if fault == NotStored then [] else [RowFor(TickInput(), 1)])
            && m.wins == n.wins
  {
    LoadOfEmptyLogIs(spec, n, fault);
    FirstTickKeepsHealthy(spec, n);
    RebuildKeepsHealthy(spec, n.(log := [RowFor(TickInput(), 1)]));
  }

  /** Loading succeeds exactly when the run is cached, or can be read and has, or gets, its first tick. */
  lemma LoadKeepsHealthy(spec: Spec, n: Node, fault: LoadFault)
    requires Healthy(spec, n)
    ensures var (m, loaded) := Load(spec, n, fault);
            && Healthy(spec, m)
            && (loaded <==> n.cache.Some? || (fault.Read? && (n.log != [] || fault.first == NoFault)))
            && (loaded <==> m.cache.Some?)
            && (n.log != [] ==> m.log == n.log)
            && (n.log == [] ==> m.log == [] || m.log == [RowFor(TickInput(), 1)])
            && m.wins == n.wins
  {
    if n.cache.None? && fault.Read? {
      if n.log != [] {
        RebuildKeepsHealthy(spec, n);
      } else {
        LoadOfEmptyLog(spec, n, fault.first);
      }
    }
  }

  lemma LoopKeepsHealthy(spec: Spec, n: Node)
    requires Healthy(spec, n)
    ensures Healthy(spec, EnsureTickLoop(n))
  {
  }

  /** Connecting keeps parity, logs at most a first tick, and greets with the run as it stands. */
  lemma ConnectKeepsHealthy(spec: Spec, n: Node, fault: LoadFault)
    requires Healthy(spec, n)
    ensures var (m, hello) := Connect(spec, n, fault);
            && Healthy(spec, m)
            && (m.log == n.log || (n.log == [] && m.log == [RowFor(TickInput(), 1)]))
            && (hello.Some? <==> m.cache.Some?)
            && (hello.Some? ==> hello == Some(Delta(|m.log|, SnapshotOf(spec, m.cache.value.engine))))
  {
    LoadKeepsHealthy(spec, n, fault);
    LoopKeepsHealthy(spec, Load(spec, n, fault).0);
  }

  /** The request is new: the row goes in and the engine takes the action, or parity is lost. */
  lemma FreshAct(spec: Spec, n: Node, key: string, req: string, fault: Fault)
    requires Healthy(spec, n) && n.cache.Some? && !n.cache.value.terminal
    requires FindRequest(n.log, req).None? && fault != NotStored
    ensures var row := LogEntry(|n.log| + 1, PLAYER, Some(key), Some(req));
            var (m, r) := ActLoaded(spec, n, key, req, fault);
            && m.log == n.log + [row]
            && (Healthy(spec, m) <==> fault == NoFault && key in spec.actionEffects)
            && (r.Success? <==> fault == NoFault && key in spec.actionEffects)
            && (r.Success? ==> r == Success(Delta(|m.log|, SnapshotOf(spec, Replay(spec, m.log).value)))
                               && m.cache.Some? && m.cache.value.engine == Replay(spec, m.log).value
                               && m.cache.value.lastSeq == |m.log|)
  {
    var input := Input(PLAYER, Some(key), Some(req));
    var row := RowFor(input, |n.log| + 1);
    AppendExtends(spec, n.log, input, fault);
    RowsNumberAndRequestFree(n.log, input);
    AcceptedLogIsEngineLog(spec, n.log);
    ReplayOfExtension(spec, n.log, row);
    assert ReplayEntry(spec, n.cache.value.engine, |n.log|, row)
        == ActionStep(spec, n.cache.value.engine, key, Some(req));
  }

  /** The request is known, or nothing was stored: the log and the engine stay as they are. */
  lemma IdleAct(spec: Spec, n: Node, key: string, req: string, fault: Fault)
    requires Healthy(spec, n) && n.cache.Some?
    requires n.cache.value.terminal || FindRequest(n.log, req).Some? || fault == NotStored
    ensures var m := ActLoaded(spec, n, key, req, fault).0;
            && Healthy(spec, m) && m.log == n.log && m.wins == n.wins
            && m.cache.Some? && m.cache.value.(tickStarted := n.cache.value.tickStarted) == n.cache.value
  {
    AppendExtends(spec, n.log, Input(PLAYER, Some(key), Some(req)), fault);
  }

  lemma ActKeepsHealthyIff(spec: Spec, n: Node, key: string, req: string, loadFault: LoadFault, fault: Fault)
    requires Healthy(spec, n)
    ensures Healthy(spec, Act(spec, n, key, req, loadFault, fault).0)
            <==> !Hazard(spec, n, Acting(key, req, loadFault, fault))
  {
    LoadKeepsHealthy(spec, n, loadFault);
    var (m, loaded) := Load(spec, n, loadFault);
    if loaded {
      if m.cache.value.terminal || FindRequest(m.log, req).Some? || fault == NotStored {
        IdleAct(spec, m, key, req, fault);
      } else {
        FreshAct(spec, m, key, req, fault);
      }
    }
  }

  /** A tick that is stored moves log and engine together. */
  lemma StoredTick(spec: Spec, n: Node)
    requires Healthy(spec, n) && n.cache.Some? && n.loops > 0
    ensures var (m, out) := TickOnce(spec, n, NoFault);
            && Healthy(spec, m) && m.log == n.log + [RowFor(TickInput(), |n.log| + 1)]
            && m.cache.Some? && m.cache.value.engine == Replay(spec, m.log).value
            && (out.delta.Some? ==> out.delta == Some(Delta(|m.log|, SnapshotOf(spec, m.cache.value.engine))))
            && (out.win.Some? ==> out.win == Some(m.cache.value.engine.won))
            && (out.win.Some? <==> m.cache.value.terminal) && (out.delta.Some? <==> !m.cache.value.terminal)
            && (m.cache.value.terminal <==> IsTerminal(spec, m.cache.value.engine))
            && (m.cache.value.terminal ==>
                  m.cache.value.sentWin && !m.cache.value.tickStarted && m.loops == 0 && m.wins == n.wins + 1)
            && (!m.cache.value.terminal ==> m.cache.value.tickStarted && m.loops == n.loops && m.wins == n.wins)
  {
    var row := RowFor(TickInput(), |n.log| + 1);
    AppendExtends(spec, n.log, TickInput(), NoFault);
    AcceptedLogIsEngineLog(spec, n.log);
    ReplayOfExtension(spec, n.log, row);
    assert ReplayEntry(spec, n.cache.value.engine, |n.log|, row) == TickStep(spec, n.cache.value.engine);
  }

  /**
   A tick the runtime is told was not stored stops the loop and leaves the rest of the cached run alone; parity holds
   if it was indeed not stored.
   */
  lemma FailedTick(spec: Spec, n: Node, fault: Fault)
    requires Healthy(spec, n) && n.cache.Some? && n.loops > 0 && fault != NoFault
    ensures var (m, out) := TickOnce(spec, n, fault);
            && (Healthy(spec, m) <==> fault == NotStored)
            && out == FireOut(None, None)
            && m.loops == n.loops - 1 && m.cache == Some(n.cache.value.(tickStarted := false)) && m.wins == n.wins
            && (fault == NotStored ==> m.log == n.log)
  {
    AppendExtends(spec, n.log, TickInput(), fault);
  }

  /** A tick that is not stored, or that the engine refuses, ends the loop whatever state the run is in. */
  lemma RefusedTickStops(spec: Spec, n: Node, fault: Fault)
    requires n.cache.Some? && n.loops > 0 && (fault != NoFault || n.cache.value.engine.won)
    ensures var (m, out) := TickOnce(spec, n, fault);
            && m.loops == n.loops - 1 && m.cache == Some(n.cache.value.(tickStarted := false))
            && out == FireOut(None, None)
  {
  }

  /** A turn that comes early, or has nothing to do, changes nothing; one that finds the run finished ends the loop. */
  lemma TurnWaits(spec: Spec, n: Node, early: bool, fault: Fault)
    ensures var (m, out) := Fire(spec, n, early, fault);
            && (n.loops == 0 || n.cache.None? || (early && !n.cache.value.terminal) ==>
                  m == n && out == FireOut(None, None))
            && (n.loops > 0 && n.cache.Some? && n.cache.value.terminal ==>
                  m.log == n.log && m.loops == n.loops - 1 && out == FireOut(None, None))
  {
  }

  predicate NobodyCalls(events: seq<Event>) {
    forall k | 0 <= k < |events| :: events[k].Firing? || events[k].Restarting?
  }

  /** Once its loop has stopped, a run neither ticks nor logs anything until somebody connects or acts again. */
  lemma {:induction false} StoppedUntilCalled(spec: Spec, n: Node, events: seq<Event>)
    requires n.loops == 0 && NobodyCalls(events)
    ensures RunFrom(spec, n, events).log == n.log && RunFrom(spec, n, events).loops == 0
    ensures RunFrom(spec, n, events).cache.Some? ==> RunFrom(spec, n, events).cache == n.cache
  {
    if events != [] {
      assert forall k | 0 <= k < |events| - 1 :: events[..|events| - 1][k] == events[k];
      StoppedUntilCalled(spec, n, events[..|events| - 1]);
    }
  }

  /** So after a failed tick nothing is logged until then. */
  lemma FailedTickStopsTheRun(spec: Spec, n: Node, fault: Fault, events: seq<Event>)
    requires Healthy(spec, n) && n.cache.Some? && n.loops > 0 && fault != NoFault && NobodyCalls(events)
    ensures var m := TickOnce(spec, n, fault).0;
            m.loops == 0 && RunFrom(spec, m, events).log == m.log
  {
    FailedTick(spec, n, fault);
    StoppedUntilCalled(spec, TickOnce(spec, n, fault).0, events);
  }

  /** After a greeting or an accepted action an unfinished run has exactly one live loop, a finished one none. */
  lemma ServedRunsTick(spec: Spec, n: Node, loadFault: LoadFault, key: string, req: string, fault: Fault)
    requires Healthy(spec, n)
    ensures var (m, hello) := Connect(spec, n, loadFault);
            hello.Some? ==> m.cache.Some? && m.loops == if m.cache.value.terminal then 0 else 1
    ensures var (m, r) := Act(spec, n, key, req, loadFault, fault);
            r.Success? ==> m.cache.Some? && !m.cache.value.terminal && m.loops == 1
  {
    ConnectKeepsHealthy(spec, n, loadFault);
    LoadKeepsHealthy(spec, n, loadFault);
    ActKeepsHealthyIff(spec, n, key, req, loadFault, fault);
    var (u, loaded) := Load(spec, n, loadFault);
    if loaded {
      ActedRunsTick(spec, u, key, req, fault);
    }
  }

  lemma ActedRunsTick(spec: Spec, n: Node, key: string, req: string, fault: Fault)
    requires Healthy(spec, n) && n.cache.Some?
    ensures var (m, r) := ActLoaded(spec, n, key, req, fault);
            r.Success? ==> m.cache.Some? && !m.cache.value.terminal && m.loops == 1
  {
  }

  /** What a refused action is told: not loaded, completed, not stored, a conflict, or the engine's own reason. */
  lemma ActRefusals(spec: Spec, n: Node, key: string, req: string, loadFault: LoadFault, fault: Fault)
    requires Healthy(spec, n)
    ensures var (u, loaded) := Load(spec, n, loadFault);
            var (m, r) := Act(spec, n, key, req, loadFault, fault);
            && (!loaded ==> m == u && r == Failure(NotLoaded))
            && (loaded && u.cache.Some? ==>
                  && (u.cache.value.terminal ==> m == u && r == Failure(Completed))
                  && (!u.cache.value.terminal && fault == NotStored ==> m == u && r == Failure(Append(DbError)))
                  && (!u.cache.value.terminal && FindRequest(u.log, req).None? && fault == AckLost ==>
                        r == Failure(Append(DbError)))
                  && (!u.cache.value.terminal && FindRequest(u.log, req).None? ==>
                        fault == NoFault && key !in spec.actionEffects ==> r == Failure(Refused(UnknownAction))))
  {
    LoadKeepsHealthy(spec, n, loadFault);
    var (u, loaded) := Load(spec, n, loadFault);
    if loaded && !u.cache.value.terminal && FindRequest(u.log, req).None? && fault != NotStored {
      FreshAct(spec, u, key, req, fault);
      AppendExtends(spec, u.log, Input(PLAYER, Some(key), Some(req)), fault);
    }
  }

  lemma FireKeepsHealthyIff(spec: Spec, n: Node, early: bool, fault: Fault)
    requires Healthy(spec, n)
    ensures Healthy(spec, Fire(spec, n, early, fault).0) <==> !Hazard(spec, n, Firing(early, fault))
  {
    if n.loops > 0 && !early {
      if fault == NoFault {
        StoredTick(spec, n);
      } else {
        FailedTick(spec, n, fault);
      }
    }
  }

  /** Parity survives a step exactly when the step is not one of the two hazards. */
  lemma StepKeepsHealthyIff(spec: Spec, n: Node, ev: Event)
    requires Healthy(spec, n)
    ensures Healthy(spec, Step(spec, n, ev)) <==> !Hazard(spec, n, ev)
  {
    match ev
    case Connecting(loadFault) => ConnectKeepsHealthy(spec, n, loadFault);
    case Acting(key, req, loadFault, fault) => ActKeepsHealthyIff(spec, n, key, req, loadFault, fault);
    case Firing(early, fault) => FireKeepsHealthyIff(spec, n, early, fault);
    case Restarting =>
  }

  ghost function RunFrom(spec: Spec, n: Node, events: seq<Event>): Node {
    if events == [] then n else Step(spec, RunFrom(spec, n, events[..|events| - 1]), events[|events| - 1])
  }

  /** Parity holds after any connects, actions, retries, ticks, failed appends and restarts without a hazard. */
  lemma {:induction false} ReachableIsHealthy(spec: Spec, events: seq<Event>)
    requires forall k | 0 <= k < |events| :: !Hazard(spec, RunFrom(spec, Fresh(), events[..k]), events[k])
    ensures Healthy(spec, RunFrom(spec, Fresh(), events))
  {
    if events != [] {
      var front := events[..|events| - 1];
      assert forall k | 0 <= k < |front| :: front[..k] == events[..k] && front[k] == events[k];
      ReachableIsHealthy(spec, front);
      StepKeepsHealthyIff(spec, RunFrom(spec, Fresh(), front), events[|events| - 1]);
    }
  }

  /** The same, spelled out: what a cached run is at any moment. */
  lemma CachedRunIsTheReplay(spec: Spec, events: seq<Event>)
    requires forall k | 0 <= k < |events| :: !Hazard(spec, RunFrom(spec, Fresh(), events[..k]), events[k])
    ensures var n := RunFrom(spec, Fresh(), events);
            && n.loops <= 1 && n.wins <= 1
            && (n.cache.Some? ==>
                  && var c := n.cache.value;
                  && Replay(spec, n.log) == Success(c.engine)
                  && c.lastSeq == |n.log| >= 1
                  && (c.terminal <==> c.engine.won || (spec.durationTicks > 0 && c.engine.tick >= spec.durationTicks))
                  && (spec.durationTicks > 0 ==> c.engine.tick <= spec.durationTicks)
                  && (c.terminal ==> n.loops == 0))
  {
    ReachableIsHealthy(spec, events);
  }

  /**
   A restarted process serves the same run: once it can be read, same engine, same position, same verdict;
   until then nobody is served and nothing changes.
   */
  lemma RestartRestores(spec: Spec, n: Node, fault: LoadFault)
    requires Healthy(spec, n) && n.cache.Some?
    ensures var (m, hello) := Connect(spec, Restart(n), fault);
            if fault == Unread then m == Restart(n) && hello.None?
            else
              && m.log == n.log && m.cache.Some?
              && m.cache.value.engine == n.cache.value.engine
              && m.cache.value.lastSeq == n.cache.value.lastSeq
              && m.cache.value.terminal == n.cache.value.terminal
              && hello == Some(Delta(|n.log|, SnapshotOf(spec, n.cache.value.engine)))
  {
    LoadKeepsHealthy(spec, Restart(n), fault);
  }

  ghost predicate Finished(spec: Spec, n: Node) {
    Healthy(spec, n) && IsTerminal(spec, Replay(spec, n.log).value)
  }

  lemma FinishedStep(spec: Spec, n: Node, ev: Event)
    requires Finished(spec, n)
    ensures Finished(spec, Step(spec, n, ev)) && Step(spec, n, ev).log == n.log && Step(spec, n, ev).wins == n.wins
  {
    assert n.log != [];
    match ev
    case Connecting(loadFault) => LoadKeepsHealthy(spec, n, loadFault);
    case Acting(key, req, loadFault, fault) =>
      LoadKeepsHealthy(spec, n, loadFault);
      if Load(spec, n, loadFault).1 {
        IdleAct(spec, Load(spec, n, loadFault).0, key, req, fault);
      }
    case Firing(early, fault) =>
    case Restarting =>
  }

  /** A finished run stays finished: nothing is logged, ticked or broadcast again, across restarts too. */
  lemma {:induction false} TerminalIsAbsorbing(spec: Spec, n: Node, events: seq<Event>)
    requires Healthy(spec, n) && IsTerminal(spec, Replay(spec, n.log).value)
    ensures var m := RunFrom(spec, n, events);
            Healthy(spec, m) && m.log == n.log && m.wins == n.wins && m.loops == 0
            && (m.cache.Some? ==> m.cache.value.terminal)
  {
    if events != [] {
      TerminalIsAbsorbing(spec, n, events[..|events| - 1]);
      FinishedStep(spec, RunFrom(spec, n, events[..|events| - 1]), events[|events| - 1]);
    }
  }

  lemma LoadOnlyGrows(spec: Spec, n: Node, fault: LoadFault)
    ensures n.log <= Load(spec, n, fault).0.log
  {
  }

  lemma ActOnlyGrows(spec: Spec, n: Node, key: string, req: string, fault: Fault)
    requires n.cache.Some?
    ensures n.log <= ActLoaded(spec, n, key, req, fault).0.log
  {
  }

  lemma FireOnlyGrows(spec: Spec, n: Node, early: bool, fault: Fault)
    ensures n.log <= Fire(spec, n, early, fault).0.log
  {
  }

  lemma LogOnlyGrows(spec: Spec, n: Node, ev: Event)
    ensures n.log <= Step(spec, n, ev).log
  {
    match ev
    case Connecting(loadFault) => LoadOnlyGrows(spec, n, loadFault);
    case Acting(key, req, loadFault, fault) =>
      var (m, loaded) := Load(spec, n, loadFault);
      LoadOnlyGrows(spec, n, loadFault);
      if loaded && m.cache.Some? {
        ActOnlyGrows(spec, m, key, req, fault);
      }
    case Firing(early, fault) => FireOnlyGrows(spec, n, early, fault);
    case Restarting =>
  }

  lemma {:induction false} LogGrowsAlong(spec: Spec, n: Node, events: seq<Event>)
    ensures n.log <= RunFrom(spec, n, events).log
  {
    if events != [] {
      LogGrowsAlong(spec, n, events[..|events| - 1]);
      LogOnlyGrows(spec, RunFrom(spec, n, events[..|events| - 1]), events[|events| - 1]);
    }
  }
}
