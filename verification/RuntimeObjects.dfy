/** runtime.go as objects: the cached runState, its tick loop and its subscribers, proved against Runtime. */
module RuntimeObjects {
  import opened Prelude
  import opened Simulation
  import opened SimEngine
  import opened ActionTable
  import opened RunRepo
  import opened Runtime

  const CHANNEL_CAPACITY := 16
  const WIN_CAPACITY := 4

  /** A buffered Go channel of deltas. */
  class DeltaChannel {
    var items: seq<Delta>
    var closed: bool

    constructor ()
      ensures items == [] && !closed
    {
      items, closed := [], false;
    }
  }

  /** A buffered Go channel of win broadcasts; nobody ever closes it. */
  class WinChannel {
    var items: seq<bool>

    constructor ()
      ensures items == []
    {
      items := [];
    }
  }

  /** A non-blocking send: dropped when the buffer is full. */
  function Offer(items: seq<Delta>, d: Delta): seq<Delta> {
    if |items| < CHANNEL_CAPACITY then items + [d] else items
  }

  function OfferWin(items: seq<bool>, won: bool): seq<bool> {
    if |items| < WIN_CAPACITY then items + [won] else items
  }

  /** Sending on a closed channel would panic. */
  method PushDelta(subs: set<DeltaChannel>, d: Delta)
    requires forall ch | ch in subs :: !ch.closed
    modifies subs
    ensures forall ch | ch in subs :: !ch.closed
    ensures forall ch | ch in subs :: ch.items == if |old(ch.items)| < 16 then old(ch.items) + [d] else old(ch.items)
  {
    var rest := subs;
    while rest != {}
      invariant rest <= subs
      invariant forall ch | ch in subs :: !ch.closed
      invariant forall ch | ch in rest :: ch.items == old(ch.items)
      invariant forall ch | ch in subs - rest :: ch.items == Offer(old(ch.items), d)
    {
      var ch :| ch in rest;
      if |ch.items| < CHANNEL_CAPACITY {
        ch.items := ch.items + [d];
      }
      rest := rest - {ch};
    }
  }

  method PushWin(subs: set<WinChannel>, won: bool)
    modifies subs
    ensures forall ch | ch in subs :: ch.items == if |old(ch.items)| < 4 then old(ch.items) + [won] else old(ch.items)
  {
    var rest := subs;
    while rest != {}
      invariant rest <= subs
      invariant forall ch | ch in rest :: ch.items == old(ch.items)
      invariant forall ch | ch in subs - rest :: ch.items == OfferWin(old(ch.items), won)
    {
      var ch :| ch in rest;
      if |ch.items| < WIN_CAPACITY {
        ch.items := ch.items + [won];
      }
      rest := rest - {ch};
    }
  }

  class RunState {
    var engine: Engine
    var lastSeq: int
    var terminal: bool
    var sentWin: bool
    var tickStarted: bool
    var deltaSubs: set<DeltaChannel>
    var winSubs: set<WinChannel>

    constructor (engine: Engine, lastSeq: int, terminal: bool)
      ensures this.engine == engine && this.lastSeq == lastSeq && this.terminal == terminal
      ensures !sentWin && !tickStarted && deltaSubs == {} && winSubs == {}
    {
      this.engine, this.lastSeq, this.terminal := engine, lastSeq, terminal;
      sentWin, tickStarted, deltaSubs, winSubs := false, false, {}, {};
    }

    ghost function View(): Cache
      reads this, engine
    {
      Cache(engine.View(), lastSeq, terminal, sentWin, tickStarted)
    }
  }

  class EngineARuntime {
    const spec: Spec
    const repo: PostgresRunRepo
    var state: RunState?
    var loops: nat
    var wins: nat

    constructor (spec: Spec)
      ensures this.spec == spec && Valid() && View() == Fresh() && fresh(repo)
    {
      this.spec := spec;
      repo := new PostgresRunRepo();
      state, loops, wins := null, 0, 0;
    }

    ghost function Footprint(): set<object?>
      reads this, state
    {
      if state == null then {this, repo} else {this, repo, state, state.engine}
    }

    /** No subscriber's channel is closed while a push can reach it. */
    ghost predicate Valid()
      reads this, repo, state, if state == null then {} else {state.engine},
            if state == null then {} else state.deltaSubs
    {
      && RowsOk(repo.rows)
      && (state != null ==> state.engine.spec == spec && forall ch | ch in state.deltaSubs :: !ch.closed)
    }

    ghost function View(): Node
      reads this, repo, state, if state == null then {} else {state.engine}
    {
      Node(repo.rows, if state == null then None else Some(state.View()), loops, wins)
    }

    /** The process dies. */
    method Crash()
      requires Valid()
      modifies this
      ensures Valid() && View() == Restart(old(View()))
    {
      state, loops := null, 0;
    }

    method LoadState(fault: LoadFault) returns (ok: bool)
      requires Valid()
      modifies this`state, repo
      ensures Valid() && (View(), ok) == Load(spec, old(View()), fault)
      ensures ok <==> state != null
      ensures old(state) != null ==> state == old(state) && repo.rows == old(repo.rows)
      ensures old(state) == null && state != null ==>
                fresh(state) && fresh(state.engine) && state.deltaSubs == {} && state.winSubs == {}
    {
      if state != null {
        return true;
      }
      if fault == Unread {
        return false;
      }
      var actions := repo.ListActions();
      if |actions| == 0 {
        var first := repo.AppendAction(TickInput(), fault.first, ALONE);
        AloneIsUninterrupted([], TickInput(), fault.first);
        FirstAppend(fault.first);
        if first.Failure? {
          return false;
        }
        actions := actions + [first.value];
      }
      assert actions == repo.rows;
      var lastSeq := 0;
      for i := 0 to |actions|
        invariant lastSeq == i
      {
        if actions[i].seqNo > lastSeq {
          lastSeq := actions[i].seqNo;
        }
      }
      MaxSeqOfDense(actions);
      var replayed := ReplayLog(spec, actions);
      if replayed.Failure? {
        return false;
      }
      var engine := replayed.value;
      var terminal := engine.won || (spec.durationTicks > 0 && engine.tick >= spec.durationTicks);
      state := new RunState(engine, lastSeq, terminal);
      ok := true;
    }

    method EnsureLoop()
      requires Valid() && state != null
      modifies this`loops, state`tickStarted
      ensures Valid() && View() == EnsureTickLoop(old(View()))
    {
      if state.tickStarted || state.terminal {
        return;
      }
      state.tickStarted := true;
      loops := loops + 1;
    }

    method ConnectClient(fault: LoadFault) returns (hello: Option<Delta>)
      requires Valid()
      modifies Footprint()
      ensures Valid() && (View(), hello) == Connect(spec, old(View()), fault)
    {
      var ok := LoadState(fault);
      if !ok {
        return None;
      }
      EnsureLoop();
      var snap := state.engine.TakeSnapshot();
      hello := Some(Delta(state.lastSeq, snap));
    }

    /** A subscriber gets an empty channel of its own; others keep theirs. */
    method SubscribeDeltas(fault: LoadFault) returns (ch: DeltaChannel?)
      requires Valid()
      modifies Footprint()
      ensures Valid() && View() == Connect(spec, old(View()), fault).0
      ensures ch != null <==> state != null
      ensures ch != null ==> fresh(ch) && ch.items == [] && ch in state.deltaSubs
      ensures ch != null && old(state) != null ==> state == old(state) && state.deltaSubs == old(state.deltaSubs) + {ch}
    {
      var ok := LoadState(fault);
      if !ok {
        return null;
      }
      ch := new DeltaChannel();
      state.deltaSubs := state.deltaSubs + {ch};
      EnsureLoop();
    }

    /** The subscriber's context ends: its channel is taken out, then closed; the run does not notice. */
    method EndSubscription(ch: DeltaChannel)
      requires Valid() && state != null
      modifies state`deltaSubs, ch`closed
      ensures Valid() && View() == old(View())
      ensures state.deltaSubs == old(state.deltaSubs) - {ch} && ch.closed
    {
      state.deltaSubs := state.deltaSubs - {ch};
      ch.closed := true;
    }

    /** A win subscriber is only added: no tick loop is started, and nothing removes it. */
    method SubscribeWinUpdates(fault: LoadFault) returns (ch: WinChannel?)
      requires Valid()
      modifies Footprint()
      ensures Valid() && View() == Load(spec, old(View()), fault).0
      ensures ch != null <==> state != null
      ensures ch != null ==> fresh(ch) && ch.items == [] && ch in state.winSubs
      ensures ch != null && old(state) != null ==> state == old(state) && state.winSubs == old(state.winSubs) + {ch}
    {
      var ok := LoadState(fault);
      if !ok {
        return null;
      }
      ch := new WinChannel();
      state.winSubs := state.winSubs + {ch};
    }

    method ApplyAction(key: string, req: string, loadFault: LoadFault, fault: Fault)
      returns (r: Result<Delta, RuntimeError>)
      requires Valid()
      modifies Footprint()
      ensures Valid() && (View(), r) == Act(spec, old(View()), key, req, loadFault, fault)
    {
      var ok := LoadState(loadFault);
      if !ok {
        return Failure(NotLoaded);
      }
      r := ApplyLoaded(key, req, fault);
    }

    method ApplyLoaded(key: string, req: string, fault: Fault) returns (r: Result<Delta, RuntimeError>)
      requires Valid() && state != null
      modifies Footprint()
      ensures Valid() && state == old(state) && (View(), r) == ActLoaded(spec, old(View()), key, req, fault)
    {
      if state.terminal {
        return Failure(Completed);
      }
      AloneIsUninterrupted(repo.rows, Input(PLAYER, Some(key), Some(req)), fault);
      var stored := repo.AppendAction(Input(PLAYER, Some(key), Some(req)), fault, ALONE);
      if stored.Failure? {
        return Failure(Append(stored.error));
      }
      if stored.value.seqNo > state.lastSeq {
        var applied := state.engine.ApplyAction(key, Some(req));
        if applied.Failure? {
          return Failure(Refused(applied.error));
        }
        state.lastSeq := stored.value.seqNo;
      }
      var snap := state.engine.TakeSnapshot();
      EnsureLoop();
      r := Success(Delta(stored.value.seqNo, snap));
    }

    /** One turn of the tick loop; a delta or a win it yields has been offered to every subscriber. */
    method TickTurn(early: bool, fault: Fault) returns (out: FireOut)
      requires Valid() && state != null && loops > 0
      modifies this`loops, this`wins, repo, state.engine
      modifies state`lastSeq, state`terminal, state`sentWin, state`tickStarted
      modifies state.deltaSubs, state.winSubs
      ensures Valid() && state == old(state) && (View(), out) == Fire(spec, old(View()), early, fault)
      ensures state.deltaSubs == old(state.deltaSubs) && state.winSubs == old(state.winSubs)
      ensures forall ch | ch in state.deltaSubs ::
                ch.items == old(ch.items) + if out.delta.Some? && |old(ch.items)| < 16 then [out.delta.value] else []
      ensures forall ch | ch in state.winSubs ::
                ch.items == old(ch.items) + if out.win.Some? && |old(ch.items)| < 4 then [out.win.value] else []
    {
      out := FireOut(None, None);
      if state.terminal {
        state.tickStarted, loops := false, loops - 1;
        return;
      }
      if early {
        return;
      }
      out := TickAndSend(fault);
    }

    method TickAndSend(fault: Fault) returns (out: FireOut)
      requires Valid() && state != null && loops > 0
      modifies this`loops, this`wins, repo, state.engine
      modifies state`lastSeq, state`terminal, state`sentWin, state`tickStarted
      modifies state.deltaSubs, state.winSubs
      ensures Valid() && (View(), out) == TickOnce(spec, old(View()), fault)
      ensures forall ch | ch in state.deltaSubs ::
                ch.items == old(ch.items) + if out.delta.Some? && |old(ch.items)| < 16 then [out.delta.value] else []
      ensures forall ch | ch in state.winSubs ::
                ch.items == old(ch.items) + if out.win.Some? && |old(ch.items)| < 4 then [out.win.value] else []
    {
      out := AppendTick(fault);
      Broadcast(out);
    }

    method Broadcast(out: FireOut)
      requires Valid() && state != null
      modifies state.deltaSubs, state.winSubs
      ensures Valid()
      ensures forall ch | ch in state.deltaSubs ::
                ch.items == old(ch.items) + if out.delta.Some? && |old(ch.items)| < 16 then [out.delta.value] else []
      ensures forall ch | ch in state.winSubs ::
                ch.items == old(ch.items) + if out.win.Some? && |old(ch.items)| < 4 then [out.win.value] else []
    {
      if out.win.Some? {
        PushWin(state.winSubs, out.win.value);
      }
      if out.delta.Some? {
        PushDelta(state.deltaSubs, out.delta.value);
      }
    }

    method AppendTick(fault: Fault) returns (out: FireOut)
      requires Valid() && state != null && loops > 0
      modifies this`loops, this`wins, repo, state.engine
      modifies state`lastSeq, state`terminal, state`sentWin, state`tickStarted
      ensures Valid() && (View(), out) == TickOnce(spec, old(View()), fault)
    {
      out := FireOut(None, None);
      AloneIsUninterrupted(repo.rows, TickInput(), fault);
      var stored := repo.AppendAction(TickInput(), fault, ALONE);
      var ticked: Result<(), SimError> := Failure(RunCompleted);
      if stored.Success? {
        ticked := state.engine.Tick();
      }
      if ticked.Failure? {
        state.tickStarted, loops := false, loops - 1;
        return;
      }
      state.lastSeq := stored.value.seqNo;
      assert TickStep(spec, old(state.engine.View())) == Success(state.engine.View());
      out := FinishTick();
    }

    /** What the turn makes of a tick that went well. */
    method FinishTick() returns (out: FireOut)
      requires Valid() && state != null && loops > 0
      modifies this`loops, this`wins, state`terminal, state`sentWin, state`tickStarted
      ensures Valid() && (View(), out) == SettleTick(spec, old(View()))
    {
      var snap := state.engine.TakeSnapshot();
      var timeout := spec.durationTicks > 0 && snap.tick >= spec.durationTicks;
      if !snap.won && !timeout {
        return FireOut(Some(Delta(state.lastSeq, snap)), None);
      }
      out := FireOut(None, None);
      state.terminal, state.tickStarted, loops := true, false, loops - 1;
      if !state.sentWin {
        state.sentWin, wins := true, wins + 1;
        out := FireOut(None, Some(snap.won));
      }
    }
  }
}
