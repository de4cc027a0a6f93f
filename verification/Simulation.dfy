/**
 The simulator of internal/engine/a/service as functions on values: what one tick, one action and
 one replayed log entry do to the engine state. float64 is modelled as real.
 */
module Simulation {
  import opened Prelude
  import opened StringOrder

  const TICK := "tick"
  const PLAYER := "player"

  datatype Effect = Effect(metric: string, target: real, rate: real)

  datatype TimedEvent = TimedEvent(atTick: int, effects: seq<Effect>)

  datatype WinCheck = WinCheck(metric: string, op: string, value: real)

  datatype Spec = Spec(
    durationTicks: int,
    initialMetrics: map<string, real>,
    events: seq<TimedEvent>,
    actionEffects: map<string, seq<Effect>>,
    winChecks: seq<WinCheck>)

  datatype LogEntry = LogEntry(
    seqNo: int,
    actionType: string,
    actionKey: Option<string>,
    clientRequestId: Option<string>)

  datatype Snapshot = Snapshot(tick: int, won: bool, metrics: map<string, real>, actions: seq<string>)

  datatype SimError = RunCompleted | UnknownAction | InvalidReplayLog

  datatype State = State(
    metrics: map<string, real>,
    tick: int,
    won: bool,
    nextSeq: int,
    log: seq<LogEntry>,
    activeActions: seq<string>)

  function Initial(spec: Spec): State {
    State(spec.initialMetrics, 0, false, 1, [], [])
  }

  ghost function SnapshotOf(spec: Spec, s: State): Snapshot {
    Snapshot(s.tick, s.won, s.metrics, Listing(spec.actionEffects.Keys))
  }

  // ----- effects in force -----

  function DueEffects(events: seq<TimedEvent>, tick: int): seq<Effect> {
    if events == [] then []
    else
      var last := events[|events| - 1];
      DueEffects(events[..|events| - 1], tick) + if last.atTick > tick then [] else last.effects
  }

  function EffectsOf(spec: Spec, actionKey: string): seq<Effect> {
    if actionKey in spec.actionEffects then spec.actionEffects[actionKey] else []
  }

  function ChosenEffects(spec: Spec, active: seq<string>): seq<Effect> {
    if active == [] then []
    else ChosenEffects(spec, active[..|active| - 1]) + EffectsOf(spec, active[|active| - 1])
  }

  function LastMatch(effects: seq<Effect>, metric: string): Option<Effect> {
    if effects == [] then None
    else if effects[|effects| - 1].metric == metric then Some(effects[|effects| - 1])
    else LastMatch(effects[..|effects| - 1], metric)
  }

  /** The effect that moves a metric: due events first, then actions in the order they were taken; the last one wins. */
  function Resolve(spec: Spec, tick: int, active: seq<string>, metric: string): Option<Effect> {
    LastMatch(DueEffects(spec.events, tick) + ChosenEffects(spec, active), metric)
  }

  lemma {:induction false} LastMatchOfConcat(a: seq<Effect>, b: seq<Effect>, metric: string)
    ensures LastMatch(a + b, metric)
            == if LastMatch(b, metric).Some? then LastMatch(b, metric) else LastMatch(a, metric)
  {
    if b == [] {
      assert a + b == a;
    } else {
      var front := b[..|b| - 1];
      assert (a + b)[..|a + b| - 1] == a + front;
      LastMatchOfConcat(a, front, metric);
    }
  }

  /** Last match wins: the result names the metric and no later entry does; None means no entry does. */
  lemma {:induction false} LastMatchIsLast(effects: seq<Effect>, metric: string)
    ensures match LastMatch(effects, metric)
            case None => forall i | 0 <= i < |effects| :: effects[i].metric != metric
            case Some(e) => exists i :: 0 <= i < |effects| && effects[i] == e && e.metric == metric
                                        && forall j | i < j < |effects| :: effects[j].metric != metric
  {
    if effects != [] && effects[|effects| - 1].metric != metric {
      var front := effects[..|effects| - 1];
      LastMatchIsLast(front, metric);
      if LastMatch(front, metric).Some? {
        var i :| 0 <= i < |front| && front[i] == LastMatch(front, metric).value
                 && forall j | i < j < |front| :: front[j].metric != metric;
        assert effects[i] == front[i];
        forall j | i < j < |effects| ensures effects[j].metric != metric {
          if j < |front| { assert front[j] == effects[j]; }
        }
      } else {
        forall i | 0 <= i < |effects| ensures effects[i].metric != metric {
          if i < |front| { assert front[i] == effects[i]; }
        }
      }
    }
  }

  function StepToward(current: real, target: real, rate: real): real {
    var speed := if rate < 0.0 then -rate else rate;
    var delta := target - current;
    if AbsReal(delta) <= speed then target
    else if delta > 0.0 then current + speed
    else current - speed
  }

  // ----- winning -----

  predicate ValuePasses(v: real, c: WinCheck) {
    match c.op
    case ">" => v > c.value
    case "<" => v < c.value
    case ">=" => v >= c.value
    case "<=" => v <= c.value
    case "==" => AbsReal(v - c.value) <= 0.000000001
    case _ => false
  }

  predicate WinSatisfied(metrics: map<string, real>, checks: seq<WinCheck>) {
    forall i | 0 <= i < |checks| :: checks[i].metric in metrics && ValuePasses(metrics[checks[i].metric], checks[i])
  }

  // ----- steps -----

  /** One simultaneous move of every metric towards its resolved target. */
  function MovedMetrics(spec: Spec, s: State): map<string, real> {
    map k | k in s.metrics :: Moved(spec, s, k)
  }

  function Moved(spec: Spec, s: State, metric: string): real
    requires metric in s.metrics
  {
    match Resolve(spec, s.tick, s.activeActions, metric)
    case None => s.metrics[metric]
    case Some(e) => StepToward(s.metrics[metric], e.target, e.rate)
  }

  function Logged(s: State, actionType: string, key: Option<string>, req: Option<string>): State {
    s.(log := s.log + [LogEntry(s.nextSeq, actionType, key, req)], nextSeq := s.nextSeq + 1)
  }

  function TickStep(spec: Spec, s: State): Result<State, SimError> {
    if s.won then Failure(RunCompleted)
    else
      var moved := MovedMetrics(spec, s);
      Success(Logged(s, TICK, None, None).(
        metrics := moved, tick := s.tick + 1, won := WinSatisfied(moved, spec.winChecks)))
  }

  function ActionStep(spec: Spec, s: State, key: string, req: Option<string>): Result<State, SimError> {
    if s.won then Failure(RunCompleted)
    else if key !in spec.actionEffects then Failure(UnknownAction)
    else Success(Logged(s.(activeActions := s.activeActions + [key]), PLAYER, Some(key), req))
  }

  /** What a caller can ask of an engine; a refused request leaves it as it was. */
  datatype Op = DoTick | DoAction(key: string, req: Option<string>)

  function Attempt(spec: Spec, s: State, op: Op): Result<State, SimError> {
    match op
    case DoTick => TickStep(spec, s)
    case DoAction(key, req) => ActionStep(spec, s, key, req)
  }

  function After(spec: Spec, s: State, op: Op): State {
    match Attempt(spec, s, op)
    case Success(t) => t
    case Failure(_) => s
  }

  /** The engine after any sequence of requests, refused ones included. */
  function RunOn(spec: Spec, s: State, ops: seq<Op>): State {
    if ops == [] then s else After(spec, RunOn(spec, s, ops[..|ops| - 1]), ops[|ops| - 1])
  }

  function Run(spec: Spec, ops: seq<Op>): State {
    RunOn(spec, Initial(spec), ops)
  }

  // ----- replay -----

  function ReplayEntry(spec: Spec, s: State, i: nat, entry: LogEntry): Result<State, SimError> {
    if entry.seqNo != i + 1 then Failure(InvalidReplayLog)
    else if entry.actionType == TICK then
      if entry.actionKey.Some? || entry.clientRequestId.Some? then Failure(InvalidReplayLog)
      else TickStep(spec, s)
    else if entry.actionType == PLAYER then
      if entry.actionKey.None? || entry.clientRequestId.None? then Failure(InvalidReplayLog)
      else ActionStep(spec, s, entry.actionKey.value, entry.clientRequestId)
    else Failure(InvalidReplayLog)
  }

  function Replay(spec: Spec, log: seq<LogEntry>): Result<State, SimError> {
    if log == [] then Success(Initial(spec))
    else
      match Replay(spec, log[..|log| - 1])
      case Failure(e) => Failure(e)
      case Success(s) => ReplayEntry(spec, s, |log| - 1, log[|log| - 1])
  }
}
