/** What is left after parity is lost: when a restart or a retry brings the run back, and when nothing does. */
module Recovery {
  import opened Prelude
  import opened Simulation
  import opened ReplayLaws
  import opened ActionTable
  import opened Runtime
  import opened Requests
  import Dynamics

  // ----- what heals -----

  /** A new action is stored although the spec does not know its key. */
  ghost predicate Poisons(spec: Spec, n: Node, ev: Runtime.Event) {
    Hazard(spec, n, ev) && ev.Acting? && ev.key !in spec.actionEffects
  }

  lemma RestartAfterAct(spec: Spec, n: Node, key: string, req: string, fault: Fault)
    requires Healthy(spec, n) && n.cache.Some? && !n.cache.value.terminal
    requires FindRequest(n.log, req).None? && fault != NotStored
    ensures Healthy(spec, Restart(ActLoaded(spec, n, key, req, fault).0)) <==> key in spec.actionEffects
  {
    var row := LogEntry(|n.log| + 1, PLAYER, Some(key), Some(req));
    FreshAct(spec, n, key, req, fault);
    AppendExtends(spec, n.log, Input(PLAYER, Some(key), Some(req)), fault);
    AcceptedLogIsEngineLog(spec, n.log);
    ReplayOfExtension(spec, n.log, row);
  }

  lemma RestartAfterLostTick(spec: Spec, n: Node)
    requires Healthy(spec, n) && n.cache.Some? && n.loops > 0
    ensures Healthy(spec, Restart(TickOnce(spec, n, AckLost).0))
  {
    AppendExtends(spec, n.log, TickInput(), AckLost);
    AcceptedLogIsEngineLog(spec, n.log);
    ReplayOfExtension(spec, n.log, RowFor(TickInput(), |n.log| + 1));
  }

  /** Restarting right after a step gives a healthy run again, exactly unless the step stored an unknown key. */
  lemma RestartHealsIff(spec: Spec, n: Node, ev: Runtime.Event)
    requires Healthy(spec, n)
    ensures Healthy(spec, Restart(Runtime.Step(spec, n, ev))) <==> !Poisons(spec, n, ev)
  {
    StepKeepsHealthyIff(spec, n, ev);
    if Hazard(spec, n, ev) {
      match ev
      case Acting(key, req, loadFault, fault) =>
        LoadKeepsHealthy(spec, n, loadFault);
        RestartAfterAct(spec, Load(spec, n, loadFault).0, key, req, fault);
      case Firing(_, _) => RestartAfterLostTick(spec, n);
    }
  }

  /** The row is there, the engine has not moved, and the log's replay has taken the action. */
  lemma LostAction(spec: Spec, n: Node, key: string, req: string)
    requires Healthy(spec, n) && n.cache.Some? && !n.cache.value.terminal
    requires FindRequest(n.log, req).None? && key in spec.actionEffects
    ensures var lost := ActLoaded(spec, n, key, req, AckLost).0;
            && lost == n.(log := n.log + [LogEntry(|n.log| + 1, PLAYER, Some(key), Some(req))])
            && RowsOk(lost.log)
            && Replay(spec, lost.log) == ActionStep(spec, n.cache.value.engine, key, Some(req))
  {
    AppendExtends(spec, n.log, Input(PLAYER, Some(key), Some(req)), AckLost);
    FreshAct(spec, n, key, req, AckLost);
    ReplayOfExtension(spec, n.log, LogEntry(|n.log| + 1, PLAYER, Some(key), Some(req)));
  }

  /** Retrying an action whose answer was lost does exactly what the undisturbed action would have done. */
  lemma RetryHeals(spec: Spec, n: Node, key: string, req: string)
    requires Healthy(spec, n) && n.cache.Some? && !n.cache.value.terminal
    requires FindRequest(n.log, req).None? && key in spec.actionEffects
    ensures var lost := ActLoaded(spec, n, key, req, AckLost).0;
            && !Healthy(spec, lost) && lost.cache.Some?
            && ActLoaded(spec, lost, key, req, NoFault) == ActLoaded(spec, n, key, req, NoFault)
            && Healthy(spec, ActLoaded(spec, lost, key, req, NoFault).0)
  {
    LostAction(spec, n, key, req);
    FreshAct(spec, n, key, req, AckLost);
    FreshAct(spec, n, key, req, NoFault);
    var lost := ActLoaded(spec, n, key, req, AckLost).0;
    var row := LogEntry(|n.log| + 1, PLAYER, Some(key), Some(req));
    assert FindRequest(lost.log, req) == Some(row);
  }

  // ----- exactly when a retry heals -----

  ghost predicate NotTaken(taken: seq<LogEntry>, req: string) {
    forall k | 0 <= k < |taken| :: taken[k].clientRequestId != Some(req)
  }

  /** lost with another tick-loop state. */
  function Relooped(lost: Node, loops: nat, tickStarted: bool): Node {
    if lost.cache.None? then lost
    else lost.(loops := loops, cache := Some(lost.cache.value.(tickStarted := tickStarted)))
  }

  /** What is left of lost after other events: the engine has not taken req, and only a longer log changes more. */
  ghost predicate StillLost(lost: Node, req: string, u: Node) {
    && RowsOk(u.log) && lost.log <= u.log && u.cache.Some?
    && NotTaken(u.cache.value.engine.log, req)
    && (u.log == lost.log ==>
          && u == Relooped(lost, u.loops, u.cache.value.tickStarted)
          && u.loops == if u.cache.value.tickStarted then 1 else 0)
  }

  /** A stored action whose answer was lost: its row is the last, and the cached run is just short of it. */
  ghost predicate IsLost(lost: Node, key: string, req: string) {
    && RowsOk(lost.log) && lost.log != [] && lost.cache.Some? && !lost.cache.value.terminal
    && lost.log[|lost.log| - 1] == LogEntry(|lost.log|, PLAYER, Some(key), Some(req))
    && lost.cache.value.lastSeq == |lost.log| - 1
  }

  /** No restart, and no other attempt at the same action. */
  predicate LeavesIt(ev: Runtime.Event, key: string, req: string) {
    !ev.Restarting? && !(ev.Acting? && ev.key == key && ev.req == req)
  }

  /** Another action under the same id is refused and changes nothing. */
  lemma SameIdOtherKey(spec: Spec, lost: Node, key: string, req: string, u: Node, other: string, fault: Fault)
    requires IsLost(lost, key, req) && StillLost(lost, req, u) && other != key
    ensures ActLoaded(spec, u, other, req, fault).0 == u
  {
    var row := lost.log[|lost.log| - 1];
    assert row in u.log by { assert u.log[|lost.log| - 1] == row; }
    if !u.cache.value.terminal && fault != NotStored {
      RetryGetsItsSeq(spec, u, other, req, fault, row);
    }
  }

  /** A retry of some other request logs nothing; the engine may take that one. */
  lemma OtherRetry(
      spec: Spec, lost: Node, key: string, req: string, u: Node, other: string, id: string, fault: Fault, row: LogEntry)
    requires IsLost(lost, key, req) && StillLost(lost, req, u) && id != req
    requires !u.cache.value.terminal && fault != NotStored && row in u.log && row.clientRequestId == Some(id)
    ensures StillLost(lost, req, ActLoaded(spec, u, other, id, fault).0)
  {
    RetryGetsItsSeq(spec, u, other, id, fault, row);
    if u.log == lost.log {
      var i :| 0 <= i < |u.log| && u.log[i] == row;
      assert row.seqNo <= u.cache.value.lastSeq;
    }
  }

  lemma OtherAct(spec: Spec, lost: Node, key: string, req: string, u: Node, other: string, id: string, fault: Fault)
    requires IsLost(lost, key, req) && StillLost(lost, req, u) && !(other == key && id == req)
    ensures StillLost(lost, req, ActLoaded(spec, u, other, id, fault).0)
  {
    if id == req {
      SameIdOtherKey(spec, lost, key, req, u, other, fault);
    } else if !u.cache.value.terminal && fault != NotStored {
      FindRequestMeaning(u.log, id);
      if FindRequest(u.log, id).Some? {
        OtherRetry(spec, lost, key, req, u, other, id, fault, FindRequest(u.log, id).value);
      } else {
        AppendExtends(spec, u.log, Input(PLAYER, Some(other), Some(id)), fault);
        RowsNumberAndRequestFree(u.log, Input(PLAYER, Some(other), Some(id)));
      }
    }
  }

  lemma OtherFire(spec: Spec, lost: Node, key: string, req: string, u: Node, early: bool, fault: Fault)
    requires IsLost(lost, key, req) && StillLost(lost, req, u)
    ensures StillLost(lost, req, Fire(spec, u, early, fault).0)
  {
    AppendExtends(spec, u.log, TickInput(), fault);
  }

  lemma {:induction false} StaysLost(
      spec: Spec, lost: Node, key: string, req: string, u: Node, events: seq<Runtime.Event>)
    requires IsLost(lost, key, req) && StillLost(lost, req, u)
    requires forall k | 0 <= k < |events| :: LeavesIt(events[k], key, req)
    ensures StillLost(lost, req, RunFrom(spec, u, events))
  {
    if events != [] {
      var before := RunFrom(spec, u, events[..|events| - 1]);
      StaysLost(spec, lost, key, req, u, events[..|events| - 1]);
      match events[|events| - 1]
      case Connecting(_) =>
      case Acting(other, id, _, fault) => OtherAct(spec, lost, key, req, before, other, id, fault);
      case Firing(early, fault) => OtherFire(spec, lost, key, req, before, early, fault);
    }
  }

  /** An engine that lacks a logged request is not the replay of the log. */
  lemma MissingRequest(spec: Spec, n: Node, req: string, row: LogEntry)
    requires n.cache.Some? && NotTaken(n.cache.value.engine.log, req)
    requires row in n.log && row.clientRequestId == Some(req)
    ensures !Healthy(spec, n)
  {
    if Healthy(spec, n) {
      AcceptedLogIsEngineLog(spec, n.log);
    }
  }

  /** Once anything else is logged, the retry comes too late. */
  lemma LateRetryFails(spec: Spec, lost: Node, key: string, req: string, u: Node)
    requires IsLost(lost, key, req) && StillLost(lost, req, u) && u.log != lost.log
    ensures !Healthy(spec, ActLoaded(spec, u, key, req, NoFault).0)
  {
    var row := lost.log[|lost.log| - 1];
    var m := ActLoaded(spec, u, key, req, NoFault).0;
    assert row in u.log by { assert u.log[|lost.log| - 1] == row; }
    if u.cache.value.terminal {
      MissingRequest(spec, u, req, row);
    } else {
      RetryGetsItsSeq(spec, u, key, req, NoFault, row);
      if m.cache.value.engine == u.cache.value.engine {
        MissingRequest(spec, m, req, row);
      }
    }
  }

  /** As long as nothing else is logged, the retry leaves what the undisturbed action would have. */
  lemma TimelyRetryHeals(spec: Spec, n: Node, key: string, req: string, u: Node)
    requires Healthy(spec, n) && n.cache.Some? && !n.cache.value.terminal
    requires FindRequest(n.log, req).None? && key in spec.actionEffects
    requires var lost := ActLoaded(spec, n, key, req, AckLost).0;
             StillLost(lost, req, u) && u.log == lost.log
    ensures Healthy(spec, ActLoaded(spec, u, key, req, NoFault).0)
  {
    LostAction(spec, n, key, req);
    var row := u.log[|u.log| - 1];
    RetryGetsItsSeq(spec, u, key, req, NoFault, row);
  }

  /**
   A retry of a stored but unanswered action restores parity exactly if nothing else has been logged since,
   whatever else happened short of a restart or an earlier retry.
   */
  lemma RetryHealsIff(
      spec: Spec, n: Node, key: string, req: string, events: seq<Runtime.Event>, loadFault: LoadFault)
    requires Healthy(spec, n) && n.cache.Some? && !n.cache.value.terminal
    requires FindRequest(n.log, req).None? && key in spec.actionEffects
    requires forall k | 0 <= k < |events| :: LeavesIt(events[k], key, req)
    ensures var lost := ActLoaded(spec, n, key, req, AckLost).0;
            var u := RunFrom(spec, lost, events);
            Healthy(spec, Act(spec, u, key, req, loadFault, NoFault).0) <==> u.log == lost.log
  {
    var lost := ActLoaded(spec, n, key, req, AckLost).0;
    LostAction(spec, n, key, req);
    AcceptedLogIsEngineLog(spec, n.log);
    FindRequestMeaning(n.log, req);
    StaysLost(spec, lost, key, req, lost, events);
    var u := RunFrom(spec, lost, events);
    if u.log == lost.log {
      TimelyRetryHeals(spec, n, key, req, u);
    } else {
      LateRetryFails(spec, lost, key, req, u);
    }
  }

  /** After one ordinary tick the retry is answered as a success, and the engine never takes the action. */
  lemma TickSwallowsRetry(spec: Spec, n: Node, key: string, req: string)
    requires Healthy(spec, n) && n.cache.Some? && !n.cache.value.terminal && n.loops > 0
    requires FindRequest(n.log, req).None? && key in spec.actionEffects
    requires var lost := ActLoaded(spec, n, key, req, AckLost).0;
             var u := Fire(spec, lost, false, NoFault).0;
             u.cache.Some? && !u.cache.value.terminal
    ensures var u := Fire(spec, ActLoaded(spec, n, key, req, AckLost).0, false, NoFault).0;
            var (m, r) := ActLoaded(spec, u, key, req, NoFault);
            && r == Success(Delta(|n.log| + 1, SnapshotOf(spec, u.cache.value.engine)))
            && m.log == u.log && |u.log| == |n.log| + 2 && u.log[|n.log|].clientRequestId == Some(req)
            && m.cache.Some? && m.cache.value.engine == u.cache.value.engine && !Healthy(spec, m)
            && u.cache.value.engine.activeActions == n.cache.value.engine.activeActions
  {
    var lost := ActLoaded(spec, n, key, req, AckLost).0;
    LostAction(spec, n, key, req);
    RowsNumberAndRequestFree(lost.log, TickInput());
    AppendExtends(spec, lost.log, TickInput(), NoFault);
    var u := Fire(spec, lost, false, NoFault).0;
    var row := LogEntry(|n.log| + 1, PLAYER, Some(key), Some(req));
    assert u.log[|n.log|] == row;
    RetryGetsItsSeq(spec, u, key, req, NoFault, row);
    AcceptedLogIsEngineLog(spec, n.log);
    FindRequestMeaning(n.log, req);
    MissingRequest(spec, ActLoaded(spec, u, key, req, NoFault).0, req, row);
  }

  // ----- a first connection -----

  const FIRST_TICK := [RowFor(TickInput(), 1)]

  lemma FirstConnect(spec: Spec)
    requires Replay(spec, FIRST_TICK).Success? && !IsTerminal(spec, Replay(spec, FIRST_TICK).value)
    ensures var n := Connect(spec, Fresh(), Read(NoFault)).0;
            && Healthy(spec, n) && n.log == FIRST_TICK && n.loops == 1
            && n.cache == Some(Cache(Replay(spec, FIRST_TICK).value, 1, false, false, true))
  {
    var loaded := Load(spec, Fresh(), Read(NoFault)).0;
    LoadOfEmptyLog(spec, Fresh(), NoFault);
    LoopKeepsHealthy(spec, loaded);
  }

  /** Runs of this spec never end. */
  ghost predicate Endless(spec: Spec) {
    spec.durationTicks <= 0 && forall log :: !WonBy(spec, log)
  }

  lemma EndlessFirstConnect(spec: Spec)
    requires Endless(spec)
    ensures var n := Connect(spec, Fresh(), Read(NoFault)).0;
            && Healthy(spec, n) && n.log == FIRST_TICK && n.loops == 1
            && n.cache == Some(Cache(Replay(spec, FIRST_TICK).value, 1, false, false, true))
  {
    FirstTick(spec);
    assert !WonBy(spec, FIRST_TICK);
    FirstConnect(spec);
  }

  // ----- what an unknown action key does -----

  /** A log Replay refuses is refused ever after, and without a cached engine the run can never be served again. */
  lemma {:induction false} PoisonedForever(spec: Spec, n: Node, events: seq<Runtime.Event>)
    requires Replay(spec, n.log).Failure?
    ensures var m := RunFrom(spec, n, events);
            && n.log <= m.log && Replay(spec, m.log).Failure?
            && (n.cache.None? && n.loops == 0 ==> m.cache.None? && m.loops == 0 && m.log == n.log
                                                  && forall fault :: Connect(spec, m, fault).1.None?)
  {
    if events != [] {
      var front := events[..|events| - 1];
      var m := RunFrom(spec, n, front);
      PoisonedForever(spec, n, front);
      LogOnlyGrows(spec, m, events[|events| - 1]);
      var after := RunFrom(spec, n, events);
      RefusedForever(spec, n.log, after.log[|n.log|..]);
      assert after.log == n.log + after.log[|n.log|..];
    }
  }

  /**
   The row of an action is written before the engine looks at its key. So a new action with an unknown key is
   reported as refused, yet stays in the log, and no restart can serve the run again.
   */
  lemma UnknownActionPoisonsRun(spec: Spec, n: Node, key: string, req: string, later: seq<Runtime.Event>)
    requires Healthy(spec, n) && n.cache.Some? && !n.cache.value.terminal
    requires FindRequest(n.log, req).None? && key !in spec.actionEffects
    ensures var (m, r) := ActLoaded(spec, n, key, req, NoFault);
            && r == Failure(Refused(UnknownAction))
            && m.log == n.log + [LogEntry(|n.log| + 1, PLAYER, Some(key), Some(req))]
            && Replay(spec, m.log) == Failure(UnknownAction)
            && RunFrom(spec, Restart(m), later).cache.None?
  {
    FreshAct(spec, n, key, req, NoFault);
    var m := ActLoaded(spec, n, key, req, NoFault).0;
    AcceptedLogIsEngineLog(spec, n.log);
    ReplayOfExtension(spec, n.log, m.log[|n.log|]);
    PoisonedForever(spec, Restart(m), later);
  }

  // ----- when the log is lost for good -----

  lemma AppendAcceptedIff(spec: Spec, log: seq<LogEntry>, row: LogEntry)
    requires Replay(spec, log).Success? && ShapeCheck(row) && row.seqNo == |log| + 1
    ensures Replay(spec, log + [row]).Success? <==>
            !WonBy(spec, log) && (row.actionKey.Some? ==> row.actionKey.value in spec.actionEffects)
  {
    AcceptedStep(spec, log, row);
  }

  ghost predicate KnownFrom(spec: Spec, log: seq<LogEntry>, k: nat) {
    forall i | k <= i < |log| && log[i].actionKey.Some? :: log[i].actionKey.value in spec.actionEffects
  }

  lemma ActAcceptedIff(spec: Spec, n: Node, key: string, req: string, fault: Fault)
    requires RowsOk(n.log) && Replay(spec, n.log).Success? && n.cache.Some?
    ensures var m := ActLoaded(spec, n, key, req, fault).0;
            && (m.log == n.log || m.log == n.log + [LogEntry(|n.log| + 1, PLAYER, Some(key), Some(req))])
            && (Replay(spec, m.log).Success? <==>
                m.log == n.log || (!WonBy(spec, n.log) && KnownFrom(spec, m.log, |n.log|)))
  {
    var row := LogEntry(|n.log| + 1, PLAYER, Some(key), Some(req));
    AppendExtends(spec, n.log, Input(PLAYER, Some(key), Some(req)), fault);
    AppendAcceptedIff(spec, n.log, row);
    assert (n.log + [row])[|n.log|] == row;
  }

  lemma FireStores(spec: Spec, n: Node, early: bool, fault: Fault)
    requires RowsOk(n.log)
    ensures var m := Fire(spec, n, early, fault).0;
            m.log == n.log || m.log == n.log + [RowFor(TickInput(), |n.log| + 1)]
  {
    AppendExtends(spec, n.log, TickInput(), fault);
  }

  lemma FireAcceptedIff(spec: Spec, n: Node, early: bool, fault: Fault)
    requires RowsOk(n.log) && Replay(spec, n.log).Success?
    ensures var m := Fire(spec, n, early, fault).0;
            Replay(spec, m.log).Success? <==>
            m.log == n.log || (!WonBy(spec, n.log) && KnownFrom(spec, m.log, |n.log|))
  {
    FireStores(spec, n, early, fault);
    AppendAcceptedIff(spec, n.log, RowFor(TickInput(), |n.log| + 1));
  }

  lemma RebuildAccepted(spec: Spec, n: Node)
    requires Replay(spec, n.log).Success?
    ensures var m := Rebuild(spec, n).0;
            m.log == n.log && (m.cache.Some? && !m.cache.value.terminal ==> n.cache.Some? || !WonBy(spec, m.log))
  {
  }

  lemma FirstLoadAccepted(spec: Spec, n: Node, fault: Fault)
    requires n.cache.None? && n.log == []
    ensures var m := Load(spec, n, Read(fault)).0;
            && RowsOk(m.log) && Replay(spec, m.log).Success? && KnownFrom(spec, m.log, 0)
            && (m.cache.Some? && !m.cache.value.terminal ==> !WonBy(spec, m.log))
  {
    FirstTick(spec);
    LoadOfEmptyLogIs(spec, n, fault);
    RebuildAccepted(spec, n.(log := [RowFor(TickInput(), 1)]));
  }

  /** Loading logs at most the first tick, which every spec accepts; it is won only if the run then is terminal. */
  lemma LoadAccepted(spec: Spec, n: Node, fault: LoadFault)
    requires RowsOk(n.log) && Replay(spec, n.log).Success?
    ensures var m := Load(spec, n, fault).0;
            && RowsOk(m.log) && Replay(spec, m.log).Success? && KnownFrom(spec, m.log, |n.log|)
            && (m.log != n.log ==> n.log == [] && !WonBy(spec, n.log))
            && (m.log != n.log && m.cache.Some? && !m.cache.value.terminal ==> !WonBy(spec, m.log))
  {
    if n.cache.None? && fault.Read? {
      if n.log == [] {
        FirstLoadAccepted(spec, n, fault.first);
      } else {
        RebuildAccepted(spec, n);
      }
    }
  }

  /**
   Whatever the cached engine believes, a step leaves the log acceptable to Replay exactly if it stores nothing, or
   the log had not won and every action it stores is known.
   */
  lemma LogStaysAcceptedIff(spec: Spec, n: Node, ev: Runtime.Event)
    requires RowsOk(n.log) && Replay(spec, n.log).Success?
    ensures var m := Runtime.Step(spec, n, ev);
            Replay(spec, m.log).Success? <==>
            m.log == n.log || (!WonBy(spec, n.log) && KnownFrom(spec, m.log, |n.log|))
  {
    match ev
    case Connecting(loadFault) => LoadAccepted(spec, n, loadFault);
    case Acting(key, req, loadFault, fault) =>
      var (u, loaded) := Load(spec, n, loadFault);
      LoadAccepted(spec, n, loadFault);
      if loaded && u.cache.Some? {
        ActAcceptedIff(spec, u, key, req, fault);
      }
    case Firing(early, fault) => FireAcceptedIff(spec, n, early, fault);
    case Restarting =>
  }

  /** So while the log has won and the cached engine does not know, the next tick is one too many. */
  lemma TickAfterUnseenWin(spec: Spec, n: Node)
    requires WonBy(spec, n.log) && RowsOk(n.log)
    requires n.cache.Some? && !n.cache.value.terminal && !n.cache.value.engine.won && n.loops > 0
    ensures var m := Runtime.Step(spec, n, Firing(false, NoFault));
            Replay(spec, m.log) == Failure(RunCompleted)
  {
    RowsNumberAndRequestFree(n.log, TickInput());
    ReplayOfExtension(spec, n.log, RowFor(TickInput(), |n.log| + 1));
  }

  /** A concrete case: the run is won by taking "fix" and ticking once. */
  const CURE := Spec(0, map["load" := 1.0], [], map["fix" := [Effect("load", 0.0, 1.0)]], [WinCheck("load", "<=", 0.0)])

  /** Without "fix" a tick of CURE leaves the load where it is. */
  lemma CureIdles(s: State)
    requires s.metrics == map["load" := 1.0] && s.activeActions == [] && !s.won
    ensures TickStep(CURE, s).Success?
    ensures var t := TickStep(CURE, s).value;
            t.metrics == s.metrics && t.activeActions == [] && !t.won
  {
    assert Resolve(CURE, s.tick, [], "load") == None;
    assert !ValuePasses(1.0, CURE.winChecks[0]);
  }

  /** With it, one tick wins. */
  lemma CureWorks(s: State)
    requires s.metrics == map["load" := 1.0] && s.activeActions == ["fix"] && !s.won
    ensures TickStep(CURE, s).Success? && TickStep(CURE, s).value.won
  {
    var effect := Effect("load", 0.0, 1.0);
    assert ChosenEffects(CURE, ["fix"]) == [effect] by {
      assert ["fix"][..0] == [];
    }
    assert DueEffects(CURE.events, s.tick) + [effect] == [effect];
    assert Resolve(CURE, s.tick, s.activeActions, "load") == Some(effect);
    assert MovedMetrics(CURE, s)["load"] == 0.0;
  }

  lemma CureStarts()
    ensures var n := Connect(CURE, Fresh(), Read(NoFault)).0;
            && Healthy(CURE, n) && n.log == FIRST_TICK
            && n.cache.Some? && !n.cache.value.terminal && n.loops == 1
            && n.cache.value.engine.metrics == map["load" := 1.0] && n.cache.value.engine.activeActions == []
  {
    ReplayOfExtension(CURE, [], FIRST_TICK[0]);
    assert [] + FIRST_TICK == FIRST_TICK;
    CureIdles(Initial(CURE));
    FirstConnect(CURE);
  }

  /** The stored but unanswered "fix" is in the log's replay and not in the cached engine. */
  lemma CureIsLost(n: Node)
    requires Healthy(CURE, n) && n.log == FIRST_TICK
    requires n.cache.Some? && !n.cache.value.terminal && n.cache.value.engine.activeActions == []
    ensures var lost := Act(CURE, n, "fix", "r1", Read(NoFault), AckLost).0;
            && lost == n.(log := n.log + [LogEntry(2, PLAYER, Some("fix"), Some("r1"))]) && RowsOk(lost.log)
            && Replay(CURE, lost.log).Success?
            && var s := Replay(CURE, lost.log).value;
               s.metrics == n.cache.value.engine.metrics && s.activeActions == ["fix"] && !s.won
  {
    assert FindRequest(n.log[..0], "r1").None?;
    LostAction(CURE, n, "fix", "r1");
  }

  /** It wins at the next tick, and only the log knows. */
  lemma CureUnseen(n: Node)
    requires Healthy(CURE, n) && n.log == FIRST_TICK
    requires n.cache.Some? && !n.cache.value.terminal && n.loops == 1
    requires n.cache.value.engine.metrics == map["load" := 1.0] && n.cache.value.engine.activeActions == []
    ensures var lost := Act(CURE, n, "fix", "r1", Read(NoFault), AckLost).0;
            var m := Fire(CURE, lost, false, NoFault).0;
            && WonBy(CURE, m.log) && RowsOk(m.log)
            && m.cache.Some? && !m.cache.value.terminal && !m.cache.value.engine.won && m.loops == 1
  {
    CureIsLost(n);
    var lost := Act(CURE, n, "fix", "r1", Read(NoFault), AckLost).0;
    RowsNumberAndRequestFree(lost.log, TickInput());
    AppendExtends(CURE, lost.log, TickInput(), NoFault);
    ReplayOfExtension(CURE, lost.log, RowFor(TickInput(), 3));
    CureIdles(n.cache.value.engine);
    CureWorks(Replay(CURE, lost.log).value);
  }

  /** So a lost answer heals on an immediate restart, yet two ticks later the run can never be served again. */
  lemma LostAnswerWitness(later: seq<Runtime.Event>)
    ensures var n := Connect(CURE, Fresh(), Read(NoFault)).0;
            var lost := Act(CURE, n, "fix", "r1", Read(NoFault), AckLost).0;
            var ticked := Fire(CURE, Fire(CURE, lost, false, NoFault).0, false, NoFault).0;
            && Healthy(CURE, Restart(lost))
            && Replay(CURE, ticked.log) == Failure(RunCompleted)
            && RunFrom(CURE, Restart(ticked), later).cache.None?
  {
    CureStarts();
    var n := Connect(CURE, Fresh(), Read(NoFault)).0;
    var event := Acting("fix", "r1", Read(NoFault), AckLost);
    RestartHealsIff(CURE, n, event);
    CureUnseen(n);
    var won := Fire(CURE, Runtime.Step(CURE, n, event), false, NoFault).0;
    TickAfterUnseenWin(CURE, won);
    PoisonedForever(CURE, Restart(Fire(CURE, won, false, NoFault).0), later);
  }

  /** A concrete case: one metric out of reach, one action without effect. */
  const PAIR := Spec(0, map["load" := 1.0], [], map["act" := []], [WinCheck("load", "<", 0.0)])

  lemma PairIsEndless()
    ensures Endless(PAIR)
  {
    forall log ensures !WonBy(PAIR, log) {
      if Replay(PAIR, log).Success? {
        AcceptedLogIsReachable(PAIR, log);
        Dynamics.Unwinnable(PAIR, ReplayLaws.Recorded(log), PAIR.winChecks[0], 1.0, 1.0);
      }
    }
  }

  /** The client sends "nope". */
  lemma UnknownActionWitness()
    ensures var n := Connect(PAIR, Fresh(), Read(NoFault)).0;
            var m := Act(PAIR, n, "nope", "r1", Read(NoFault), NoFault).0;
            Healthy(PAIR, n) && !Healthy(PAIR, m) && forall fault :: Connect(PAIR, Restart(m), fault).1.None?
  {
    PairIsEndless();
    EndlessFirstConnect(PAIR);
    var n := Connect(PAIR, Fresh(), Read(NoFault)).0;
    assert FindRequest(n.log[..0], "r1").None?;
    UnknownActionPoisonsRun(PAIR, n, "nope", "r1", []);
    var m := ActLoaded(PAIR, n, "nope", "r1", NoFault).0;
    PoisonedForever(PAIR, Restart(m), []);
  }

  lemma PairIdles(s: State)
    requires s.metrics == map["load" := 1.0] && s.activeActions == [] && !s.won
    ensures TickStep(PAIR, s).Success?
    ensures var t := TickStep(PAIR, s).value;
            t.metrics == s.metrics && t.activeActions == [] && !t.won
  {
    assert Resolve(PAIR, s.tick, [], "load") == None;
    assert !ValuePasses(1.0, PAIR.winChecks[0]);
  }

  lemma PairStarts()
    ensures var n := Connect(PAIR, Fresh(), Read(NoFault)).0;
            && Healthy(PAIR, n) && n.log == FIRST_TICK && n.loops == 1
            && n.cache.Some? && !n.cache.value.terminal && PairAtRest(n.cache.value.engine)
  {
    PairIsEndless();
    EndlessFirstConnect(PAIR);
    ReplayOfExtension(PAIR, [], FIRST_TICK[0]);
    assert [] + FIRST_TICK == FIRST_TICK;
    PairIdles(Initial(PAIR));
  }

  ghost predicate PairAtRest(s: State) {
    s.metrics == map["load" := 1.0] && s.activeActions == [] && !s.won
  }

  /** A tick of PAIR never ends the run, whether or not the cached engine is the replay. */
  lemma PairTicks(n: Node)
    requires RowsOk(n.log) && n.cache.Some? && n.loops > 0 && !n.cache.value.terminal
    requires PairAtRest(n.cache.value.engine)
    ensures var u := Fire(PAIR, n, false, NoFault).0;
            u.cache.Some? && !u.cache.value.terminal && u.log == n.log + [RowFor(TickInput(), |n.log| + 1)]
  {
    RowsNumberAndRequestFree(n.log, TickInput());
    PairIdles(n.cache.value.engine);
  }

  /** A swallowed retry: answered as a success, in a log that still replays, and never taken by the engine. */
  lemma SwallowedRetryWitness()
    ensures var n := Connect(PAIR, Fresh(), Read(NoFault)).0;
            var u := Fire(PAIR, Act(PAIR, n, "act", "r1", Read(NoFault), AckLost).0, false, NoFault).0;
            var (m, r) := Act(PAIR, u, "act", "r1", Read(NoFault), NoFault);
            && r.Success? && r.value.seqNo == 2
            && m.cache.Some? && m.cache.value.engine.activeActions == [] && !Healthy(PAIR, m)
            && Replay(PAIR, m.log).Success? && !Replay(PAIR, m.log).value.won
  {
    PairStarts();
    PairIsEndless();
    var n := Connect(PAIR, Fresh(), Read(NoFault)).0;
    assert FindRequest(n.log[..0], "r1").None?;
    LostAction(PAIR, n, "act", "r1");
    var lost := ActLoaded(PAIR, n, "act", "r1", AckLost).0;
    PairTicks(lost);
    TickSwallowsRetry(PAIR, n, "act", "r1");
    FireAcceptedIff(PAIR, lost, false, NoFault);
    assert !WonBy(PAIR, lost.log) && !WonBy(PAIR, Fire(PAIR, lost, false, NoFault).0.log);
  }
}
