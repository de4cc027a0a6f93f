/** The mutable engine: the loops of sim.go, action.go and replay.go, proved against Simulation. */
module SimEngine {
  import opened Prelude
  import opened StringOrder
  import opened Simulation

  class Engine {
    const spec: Spec
    var metrics: map<string, real>
    var tick: int
    var won: bool
    var nextSeq: int
    var log: seq<LogEntry>
    var activeActions: seq<string>

    ghost function View(): State
      reads this
    {
      State(metrics, tick, won, nextSeq, log, activeActions)
    }

    constructor (spec: Spec)
      ensures this.spec == spec && View() == Initial(spec)
    {
      this.spec := spec;
      metrics, tick, won, nextSeq, log, activeActions := spec.initialMetrics, 0, false, 1, [], [];
    }

    method AppendLog(actionType: string, key: Option<string>, req: Option<string>)
      modifies this`log, this`nextSeq
      ensures View() == Logged(old(View()), actionType, key, req)
    {
      log := log + [LogEntry(nextSeq, actionType, key, req)];
      nextSeq := nextSeq + 1;
    }

    method ResolveEffect(metric: string) returns (chosen: Option<Effect>)
      ensures chosen == Resolve(spec, tick, activeActions, metric)
    {
      chosen := None;
      for i := 0 to |spec.events|
        invariant chosen == LastMatch(DueEffects(spec.events[..i], tick), metric)
      {
        var ev := spec.events[i];
        ghost var before := DueEffects(spec.events[..i], tick);
        DueOneMore(spec.events, i, tick);
        if ev.atTick <= tick {
          chosen := ScanEffects(before, ev.effects, metric, chosen);
        }
      }
      assert spec.events[..|spec.events|] == spec.events;
      ghost var due := DueEffects(spec.events, tick);
      assert due + ChosenEffects(spec, activeActions[..0]) == due;
      for i := 0 to |activeActions|
        invariant chosen == LastMatch(due + ChosenEffects(spec, activeActions[..i]), metric)
      {
        var effects := if activeActions[i] in spec.actionEffects then spec.actionEffects[activeActions[i]] else [];
        ghost var before := due + ChosenEffects(spec, activeActions[..i]);
        ChosenOneMore(due, spec, activeActions, i);
        chosen := ScanEffects(before, effects, metric, chosen);
      }
      assert activeActions[..|activeActions|] == activeActions;
    }

    /** The inner loop over one effect list, carrying on from what earlier lists chose. */
    static method ScanEffects(ghost before: seq<Effect>, effects: seq<Effect>, metric: string, start: Option<Effect>)
      returns (chosen: Option<Effect>)
      requires start == LastMatch(before, metric)
      ensures chosen == LastMatch(before + effects, metric)
    {
      chosen := start;
      assert before + effects[..0] == before;
      for j := 0 to |effects|
        invariant chosen == LastMatch(before + effects[..j], metric)
      {
        assert (before + effects[..j + 1])[..|before| + j] == before + effects[..j];
        if effects[j].metric == metric {
          chosen := Some(effects[j]);
        }
      }
      assert effects[..|effects|] == effects;
    }

    /** The in-place loop over the sorted keys is one simultaneous move of all metrics. */
    method MoveMetrics()
      modifies this`metrics
      ensures metrics == MovedMetrics(spec, old(View()))
    {
      ghost var start := View();
      var keys := SortedKeys(metrics.Keys);
      ListingHasNoRepeats(keys, start.metrics.Keys);
      for i := 0 to |keys|
        invariant metrics.Keys == start.metrics.Keys
        invariant forall j | 0 <= j < i :: metrics[keys[j]] == Moved(spec, start, keys[j])
        invariant forall j | i <= j < |keys| :: metrics[keys[j]] == start.metrics[keys[j]]
      {
        var eff := ResolveEffect(keys[i]);
        if eff.Some? {
          metrics := metrics[keys[i] := StepToward(metrics[keys[i]], eff.value.target, eff.value.rate)];
        }
      }
      forall k | k in start.metrics ensures metrics[k] == Moved(spec, start, k) {
        assert k in keys;
      }
    }

    method Tick() returns (r: Result<(), SimError>)
      modifies this
      ensures match TickStep(spec, old(View()))
              case Success(s) => r == Success(()) && View() == s
              case Failure(e) => r == Failure(e) && View() == old(View())
    {
      if won {
        return Failure(RunCompleted);
      }
      ghost var start := View();
      AppendLog(TICK, None, None);
      MoveMetrics();
      assert metrics == MovedMetrics(spec, start);
      tick := tick + 1;
      won := WinSatisfied(metrics, spec.winChecks);
      return Success(());
    }

    method ApplyAction(key: string, req: Option<string>) returns (r: Result<(), SimError>)
      modifies this
      ensures match ActionStep(spec, old(View()), key, req)
              case Success(s) => r == Success(()) && View() == s
              case Failure(e) => r == Failure(e) && View() == old(View())
    {
      if won {
        return Failure(RunCompleted);
      }
      if key !in spec.actionEffects {
        return Failure(UnknownAction);
      }
      activeActions := activeActions + [key];
      AppendLog(PLAYER, Some(key), req);
      return Success(());
    }

    /** A snapshot depends on the state alone: the sorted action list hides map order. */
    method TakeSnapshot() returns (snap: Snapshot)
      ensures snap == SnapshotOf(spec, View())
    {
      var actions := SortedKeys(spec.actionEffects.Keys);
      ListingUnique(actions, Listing(spec.actionEffects.Keys), spec.actionEffects.Keys);
      snap := Snapshot(tick, won, metrics, actions);
    }
  }

  lemma DueOneMore(events: seq<TimedEvent>, i: nat, tick: int)
    requires i < |events|
    ensures DueEffects(events[..i + 1], tick) ==
            if events[i].atTick <= tick then DueEffects(events[..i], tick) + events[i].effects
            else DueEffects(events[..i], tick)
  {
    assert events[..i + 1][..i] == events[..i];
  }

  lemma ChosenOneMore(due: seq<Effect>, spec: Spec, active: seq<string>, i: nat)
    requires i < |active|
    ensures due + ChosenEffects(spec, active[..i + 1])
            == due + ChosenEffects(spec, active[..i]) + EffectsOf(spec, active[i])
  {
    assert active[..i + 1][..i] == active[..i];
    assert due + (ChosenEffects(spec, active[..i]) + EffectsOf(spec, active[i]))
        == due + ChosenEffects(spec, active[..i]) + EffectsOf(spec, active[i]);
  }

  lemma ListingHasNoRepeats(keys: seq<string>, s: set<string>)
    requires IsListing(keys, s)
    ensures forall i, j | 0 <= i < j < |keys| :: keys[i] != keys[j]
  {
    forall i, j | 0 <= i < j < |keys| ensures keys[i] != keys[j] {
      assert Before(keys[i], keys[j]);
      BeforeIrreflexive(keys[i]);
    }
  }

  /** Rebuilds an engine from a log, driving Tick and ApplyAction entry by entry. */
  method ReplayLog(spec: Spec, log: seq<LogEntry>) returns (r: Result<Engine, SimError>)
    ensures match Replay(spec, log)
            case Success(s) => r.Success? && fresh(r.value) && r.value.spec == spec && r.value.View() == s
            case Failure(e) => r == Failure(e)
  {
    var e := new Engine(spec);
    for i := 0 to |log|
      invariant fresh(e) && e.spec == spec
      invariant Replay(spec, log[..i]) == Success(e.View())
    {
      var entry := log[i];
      assert log[..i + 1][..i] == log[..i];
      var outcome: Result<(), SimError> := Success(());
      if entry.seqNo != i + 1 {
        outcome := Failure(InvalidReplayLog);
      } else if entry.actionType == TICK {
        if entry.actionKey.Some? || entry.clientRequestId.Some? {
          outcome := Failure(InvalidReplayLog);
        } else {
          outcome := e.Tick();
        }
      } else if entry.actionType == PLAYER {
        if entry.actionKey.None? || entry.clientRequestId.None? {
          outcome := Failure(InvalidReplayLog);
        } else {
          outcome := e.ApplyAction(entry.actionKey.value, entry.clientRequestId);
        }
      } else {
        outcome := Failure(InvalidReplayLog);
      }
      if outcome.Failure? {
        FailedPrefix(spec, log, i + 1);
        return Failure(outcome.error);
      }
    }
    assert log[..|log|] == log;
    return Success(e);
  }

  /** A log whose prefix is refused is refused with the same error. */
  lemma {:induction false} FailedPrefix(spec: Spec, log: seq<LogEntry>, n: nat)
    requires n <= |log| && Replay(spec, log[..n]).Failure?
    ensures Replay(spec, log) == Replay(spec, log[..n])
    decreases |log| - n
  {
    if n == |log| {
      assert log[..n] == log;
    } else {
      assert log[..n + 1][..n] == log[..n];
      FailedPrefix(spec, log, n + 1);
    }
  }
}
