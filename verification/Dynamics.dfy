/** Where metrics can go, how fast they get there, and when a run must win. */
module Dynamics {
  import opened Prelude
  import opened Simulation

  // ----- order of the tick loop -----

  ghost predicate Distinct(keys: seq<string>) {
    forall i, j | 0 <= i < j < |keys| :: keys[i] != keys[j]
  }

  /** The tick loop as it runs: one map updated in place, key after key. */
  function InPlace(spec: Spec, s: State, metrics: map<string, real>, keys: seq<string>): map<string, real>
    requires forall k | k in keys :: k in metrics
  {
    if keys == [] then metrics
    else
      var k := keys[0];
      var v := match Resolve(spec, s.tick, s.activeActions, k)
               case None => metrics[k]
               case Some(e) => StepToward(metrics[k], e.target, e.rate);
      InPlace(spec, s, metrics[k := v], keys[1..])
  }

  lemma {:induction false} InPlaceTouchesEachKeyOnce(
      spec: Spec, s: State, metrics: map<string, real>, keys: seq<string>)
    requires Distinct(keys) && metrics.Keys == s.metrics.Keys
    requires forall k | k in keys :: k in metrics && metrics[k] == s.metrics[k]
    ensures InPlace(spec, s, metrics, keys).Keys == s.metrics.Keys
    ensures forall k | k in s.metrics ::
              InPlace(spec, s, metrics, keys)[k] == if k in keys then Moved(spec, s, k) else metrics[k]
  {
    if keys != [] {
      assert forall k | k in keys[1..] :: k != keys[0];
      assert forall k :: k in keys <==> k == keys[0] || k in keys[1..];
      InPlaceTouchesEachKeyOnce(spec, s, metrics[keys[0] := Moved(spec, s, keys[0])], keys[1..]);
    }
  }

  /** Whatever order the keys are visited in, the in-place loop is one simultaneous pointwise move. */
  lemma TickOrderIrrelevant(spec: Spec, s: State, keys: seq<string>)
    requires Distinct(keys) && forall k :: k in keys <==> k in s.metrics
    ensures InPlace(spec, s, s.metrics, keys) == MovedMetrics(spec, s)
  {
    InPlaceTouchesEachKeyOnce(spec, s, s.metrics, keys);
  }

  // ----- which effect is in force, and when a run is won -----

  /** The due effects are exactly those of events whose tick has come. */
  lemma {:induction false} DueMeaning(events: seq<TimedEvent>, tick: int, e: Effect)
    ensures e in DueEffects(events, tick)
            <==> exists i :: 0 <= i < |events| && events[i].atTick <= tick && e in events[i].effects
  {
    if events != [] {
      var front, last := events[..|events| - 1], events[|events| - 1];
      DueMeaning(front, tick, e);
      if i :| 0 <= i < |events| && events[i].atTick <= tick && e in events[i].effects {
        assert i < |front| ==> front[i] == events[i];
      }
      if e in DueEffects(front, tick) {
        var i :| 0 <= i < |front| && front[i].atTick <= tick && e in front[i].effects;
        assert events[i] == front[i];
      } else if last.atTick <= tick && e in last.effects {
        assert events[|front|] == last;
      }
    }
  }

  /** The action just taken overrides events and earlier actions on every metric it names, at every later tick. */
  lemma LatestActionOverrides(spec: Spec, s: State, key: string, req: Option<string>, metric: string, tick: int)
    requires ActionStep(spec, s, key, req).Success?
    ensures var t := ActionStep(spec, s, key, req).value;
            var own := LastMatch(spec.actionEffects[key], metric);
            Resolve(spec, tick, t.activeActions, metric) ==
              if own.Some? then own else Resolve(spec, tick, s.activeActions, metric)
  {
    var t := ActionStep(spec, s, key, req).value;
    assert t.activeActions[..|s.activeActions|] == s.activeActions;
    var earlier := DueEffects(spec.events, tick) + ChosenEffects(spec, s.activeActions);
    assert DueEffects(spec.events, tick) + ChosenEffects(spec, t.activeActions) == earlier + EffectsOf(spec, key);
    LastMatchOfConcat(earlier, EffectsOf(spec, key), metric);
  }

  /** From the first tick on, a run is won exactly while its metrics pass every check; before it, never. */
  lemma {:induction false} WonIffChecksPass(spec: Spec, ops: seq<Op>)
    ensures var s := Run(spec, ops);
            s.tick >= 0 && (s.won <==> s.tick > 0 && WinSatisfied(s.metrics, spec.winChecks))
  {
    if ops != [] {
      WonIffChecksPass(spec, ops[..|ops| - 1]);
    }
  }

  // ----- bounds -----

  ghost predicate EffectsWithin(effects: seq<Effect>, metric: string, lo: real, hi: real) {
    forall i | 0 <= i < |effects| && effects[i].metric == metric :: lo <= effects[i].target <= hi
  }

  /** [lo, hi] contains every target the spec gives the metric. */
  ghost predicate TargetsWithin(spec: Spec, metric: string, lo: real, hi: real) {
    && (forall i | 0 <= i < |spec.events| :: EffectsWithin(spec.events[i].effects, metric, lo, hi))
    && (forall k | k in spec.actionEffects :: EffectsWithin(spec.actionEffects[k], metric, lo, hi))
  }

  lemma {:induction false} DueWithin(events: seq<TimedEvent>, tick: int, metric: string, lo: real, hi: real)
    requires forall i | 0 <= i < |events| :: EffectsWithin(events[i].effects, metric, lo, hi)
    ensures EffectsWithin(DueEffects(events, tick), metric, lo, hi)
  {
    if events != [] {
      DueWithin(events[..|events| - 1], tick, metric, lo, hi);
      assert EffectsWithin(events[|events| - 1].effects, metric, lo, hi);
    }
  }

  lemma {:induction false} ChosenWithin(spec: Spec, active: seq<string>, metric: string, lo: real, hi: real)
    requires TargetsWithin(spec, metric, lo, hi)
    ensures EffectsWithin(ChosenEffects(spec, active), metric, lo, hi)
  {
    if active != [] {
      ChosenWithin(spec, active[..|active| - 1], metric, lo, hi);
    }
  }

  lemma ResolvedWithin(spec: Spec, tick: int, active: seq<string>, metric: string, lo: real, hi: real)
    requires TargetsWithin(spec, metric, lo, hi)
    ensures match Resolve(spec, tick, active, metric)
            case None => true
            case Some(e) => lo <= e.target <= hi
  {
    DueWithin(spec.events, tick, metric, lo, hi);
    ChosenWithin(spec, active, metric, lo, hi);
    LastMatchIsLast(DueEffects(spec.events, tick) + ChosenEffects(spec, active), metric);
  }

  /** No run adds or drops a metric. */
  lemma {:induction false} MetricSetIsFixed(spec: Spec, ops: seq<Op>)
    ensures Run(spec, ops).metrics.Keys == spec.initialMetrics.Keys
  {
    if ops != [] {
      MetricSetIsFixed(spec, ops[..|ops| - 1]);
    }
  }

  /** Every reachable value of a metric lies in any interval holding its initial value and all its targets. */
  lemma {:induction false} StaysInHull(spec: Spec, ops: seq<Op>, metric: string, lo: real, hi: real)
    requires metric in spec.initialMetrics && lo <= spec.initialMetrics[metric] <= hi
    requires TargetsWithin(spec, metric, lo, hi)
    ensures metric in Run(spec, ops).metrics && lo <= Run(spec, ops).metrics[metric] <= hi
  {
    if ops != [] {
      var before := Run(spec, ops[..|ops| - 1]);
      StaysInHull(spec, ops[..|ops| - 1], metric, lo, hi);
      ResolvedWithin(spec, before.tick, before.activeActions, metric, lo, hi);
    }
  }

  /** No value in [lo, hi] passes the check. */
  ghost predicate OutOfReach(c: WinCheck, lo: real, hi: real) {
    match c.op
    case ">" => hi <= c.value
    case "<" => lo >= c.value
    case ">=" => hi < c.value
    case "<=" => lo > c.value
    case "==" => hi < c.value - 0.000000001 || lo > c.value + 0.000000001
    case _ => true
  }

  /** OutOfReach is exact: whenever it fails, some value in the interval passes. */
  lemma OutOfReachIff(c: WinCheck, lo: real, hi: real)
    requires lo <= hi
    ensures OutOfReach(c, lo, hi) <==> forall v | lo <= v <= hi :: !ValuePasses(v, c)
  {
    if !OutOfReach(c, lo, hi) {
      var nearest := if c.value < lo then lo else if c.value > hi then hi else c.value;
      var best := if c.op == ">" || c.op == ">=" then hi else if c.op == "<" || c.op == "<=" then lo else nearest;
      assert lo <= best <= hi && ValuePasses(best, c);
    }
  }

  /** A check on a missing metric, or one outside the hull of its metric, makes every run unwinnable. */
  lemma {:induction false} Unwinnable(spec: Spec, ops: seq<Op>, c: WinCheck, lo: real, hi: real)
    requires c in spec.winChecks
    requires c.metric in spec.initialMetrics ==>
               && lo <= spec.initialMetrics[c.metric] <= hi
               && TargetsWithin(spec, c.metric, lo, hi)
               && OutOfReach(c, lo, hi)
    ensures !Run(spec, ops).won
  {
    if ops != [] {
      Unwinnable(spec, ops[..|ops| - 1], c, lo, hi);
      MetricSetIsFixed(spec, ops);
      if c.metric in spec.initialMetrics {
        StaysInHull(spec, ops, c.metric, lo, hi);
      }
    }
  }

  // ----- convergence -----

  /** n ticks with no request in between; a won engine refuses the rest. */
  function Ticks(spec: Spec, s: State, n: nat): State {
    if n == 0 then s else After(spec, Ticks(spec, s, n - 1), DoTick)
  }

  /** No further event becomes due within the next n ticks. */
  ghost predicate Quiet(spec: Spec, s: State, n: nat) {
    forall i | 0 <= i < |spec.events| :: spec.events[i].atTick > s.tick ==> spec.events[i].atTick >= s.tick + n
  }

  lemma {:induction false} SameDueEffects(events: seq<TimedEvent>, t: int, u: int)
    requires forall i | 0 <= i < |events| :: events[i].atTick > t <==> events[i].atTick > u
    ensures DueEffects(events, t) == DueEffects(events, u)
  {
    if events != [] {
      SameDueEffects(events[..|events| - 1], t, u);
    }
  }

  function Distance(x: real, y: real): real {
    AbsReal(x - y)
  }

  /** r added n times. */
  function Total(n: nat, r: real): real {
    if n == 0 then 0.0 else Total(n - 1, r) + r
  }

  lemma {:induction false} TotalIsProduct(n: nat, r: real)
    ensures Total(n, r) == n as real * r
  {
    if n > 0 {
      TotalIsProduct(n - 1, r);
      assert n as real == (n - 1) as real + 1.0;
      assert ((n - 1) as real + 1.0) * r == (n - 1) as real * r + r;
    }
  }

  lemma {:induction false} TotalGrows(m: nat, n: nat, r: real)
    requires r >= 0.0 && m <= n
    ensures 0.0 <= Total(m, r) <= Total(n, r)
  {
    if n > 0 {
      if m == n { TotalGrows(m - 1, n - 1, r); } else { TotalGrows(m, n - 1, r); }
    }
  }

  /** Steps in one direction add up: a move of total length l followed by one of length r is one of length l + r. */
  lemma StepsAddUp(current: real, target: real, l: real, r: real)
    requires l >= 0.0
    ensures StepToward(StepToward(current, target, l), target, r) == StepToward(current, target, l + AbsReal(r))
  {
  }

  lemma StepShortensDistance(current: real, target: real, l: real)
    requires l >= 0.0
    ensures Distance(target, StepToward(current, target, l)) == MaxReal(0.0, Distance(target, current) - l)
  {
  }

  /** One move of n times the rate towards the target resolved now. */
  function Projected(spec: Spec, s: State, n: nat, metric: string): real
    requires metric in s.metrics
  {
    match Resolve(spec, s.tick, s.activeActions, metric)
    case None => s.metrics[metric]
    case Some(e) => StepToward(s.metrics[metric], e.target, Total(n, AbsReal(e.rate)))
  }

  lemma ProjectedAdvances(spec: Spec, s: State, n: nat, before: State, metric: string)
    requires metric in s.metrics && metric in before.metrics
    requires before.metrics[metric] == Projected(spec, s, n, metric)
    requires Resolve(spec, before.tick, before.activeActions, metric) == Resolve(spec, s.tick, s.activeActions, metric)
    ensures Moved(spec, before, metric) == Projected(spec, s, n + 1, metric)
  {
    var r := Resolve(spec, s.tick, s.activeActions, metric);
    if r.Some? {
      TotalGrows(n, n, AbsReal(r.value.rate));
      StepsAddUp(s.metrics[metric], r.value.target, Total(n, AbsReal(r.value.rate)), r.value.rate);
    }
  }

  /** The state after n unwon ticks: each metric has made one move of n times its rate towards its target. */
  lemma {:induction false} AfterUnwonTicks(spec: Spec, s: State, n: nat)
    requires Quiet(spec, s, n)
    requires forall k: nat | k < n :: !Ticks(spec, s, k).won
    ensures var t := Ticks(spec, s, n);
            && t.tick == s.tick + n
            && t.activeActions == s.activeActions
            && t.metrics.Keys == s.metrics.Keys
            && forall m | m in s.metrics :: t.metrics[m] == Projected(spec, s, n, m)
  {
    if n > 0 {
      AfterUnwonTicks(spec, s, n - 1);
      var before := Ticks(spec, s, n - 1);
      SameDueEffects(spec.events, s.tick, before.tick);
      forall m | m in s.metrics ensures Moved(spec, before, m) == Projected(spec, s, n, m) {
        ProjectedAdvances(spec, s, n - 1, before, m);
      }
    }
  }

  /** After n unwon ticks a metric's distance to its target is max(0, d - n * |rate|). */
  lemma DistanceAfterUnwonTicks(spec: Spec, s: State, n: nat, metric: string)
    requires Quiet(spec, s, n) && metric in s.metrics
    requires forall k: nat | k < n :: !Ticks(spec, s, k).won
    requires Resolve(spec, s.tick, s.activeActions, metric).Some?
    ensures metric in Ticks(spec, s, n).metrics
    ensures var e := Resolve(spec, s.tick, s.activeActions, metric).value;
            Distance(e.target, Ticks(spec, s, n).metrics[metric])
            == MaxReal(0.0, Distance(e.target, s.metrics[metric]) - n as real * AbsReal(e.rate))
  {
    AfterUnwonTicks(spec, s, n);
    ProjectedDistance(spec, s, n, metric);
  }

  lemma ProjectedDistance(spec: Spec, s: State, n: nat, metric: string)
    requires metric in s.metrics && Resolve(spec, s.tick, s.activeActions, metric).Some?
    ensures var e := Resolve(spec, s.tick, s.activeActions, metric).value;
            Distance(e.target, Projected(spec, s, n, metric))
            == MaxReal(0.0, Distance(e.target, s.metrics[metric]) - n as real * AbsReal(e.rate))
  {
    var e := Resolve(spec, s.tick, s.activeActions, metric).value;
    TotalGrows(n, n, AbsReal(e.rate));
    TotalIsProduct(n, AbsReal(e.rate));
    StepShortensDistance(s.metrics[metric], e.target, Total(n, AbsReal(e.rate)));
  }

  /** Where a check's metric is heading satisfies the check, and it is moving there or has arrived. */
  ghost predicate Promising(spec: Spec, s: State, c: WinCheck) {
    && c.metric in s.metrics
    && match Resolve(spec, s.tick, s.activeActions, c.metric)
       case None => ValuePasses(s.metrics[c.metric], c)
       case Some(e) => ValuePasses(e.target, c) && (e.rate != 0.0 || s.metrics[c.metric] == e.target)
  }

  /** The least n with d <= n * r. */
  function CeilDiv(d: real, r: real): (n: nat)
    requires d >= 0.0 && r > 0.0
    ensures Total(n, r) >= d
    ensures n > 0 ==> Total(n - 1, r) < d
  {
    var q := d / r;
    var n: nat := if q.Floor as real == q then q.Floor else q.Floor + 1;
    CeilBounds(d, r, q, n as real);
    TotalIsProduct(n, r);
    n
  }

  lemma CeilBounds(d: real, r: real, q: real, m: real)
    requires r > 0.0 && q * r == d && q <= m < q + 1.0
    ensures m * r >= d && m * r - r < d
  {
    var f := m - q;
    var whole, part, left := q * r, f * r, (1.0 - f) * r;
    assert m * r == whole + part by {
      assert m == q + f;
      assert (q + f) * r == q * r + f * r;
    }
    ProductPositive(1.0 - f, r);
    assert part >= 0.0;
    assert part + left == r by {
      assert (f + (1.0 - f)) * r == f * r + (1.0 - f) * r;
    }
  }

  lemma ProductPositive(a: real, b: real)
    requires a > 0.0 && b > 0.0
    ensures a * b > 0.0
  {
  }

  /** Ticks until a metric reaches its target. */
  function TicksNeeded(spec: Spec, s: State, metric: string): nat {
    if metric !in s.metrics then 0
    else
      match Resolve(spec, s.tick, s.activeActions, metric)
      case None => 0
      case Some(e) => if e.rate == 0.0 then 0 else CeilDiv(Distance(e.target, s.metrics[metric]), AbsReal(e.rate))
  }

  /** max(1, the largest ceil(distance / rate)) over the checks. */
  function WinBound(spec: Spec, s: State, checks: seq<WinCheck>): nat {
    if checks == [] then 1
    else MaxNat(WinBound(spec, s, checks[..|checks| - 1]), TicksNeeded(spec, s, checks[|checks| - 1].metric))
  }

  lemma {:induction false} BoundCoversEachCheck(spec: Spec, s: State, checks: seq<WinCheck>)
    ensures WinBound(spec, s, checks) >= 1
    ensures forall i | 0 <= i < |checks| :: TicksNeeded(spec, s, checks[i].metric) <= WinBound(spec, s, checks)
  {
    if checks != [] {
      var front := checks[..|checks| - 1];
      BoundCoversEachCheck(spec, s, front);
      assert forall i | 0 <= i < |front| :: front[i] == checks[i];
    }
  }

  lemma ArrivesAndPasses(spec: Spec, s: State, n: nat, c: WinCheck)
    requires Quiet(spec, s, n) && Promising(spec, s, c) && TicksNeeded(spec, s, c.metric) <= n
    requires forall k: nat | k < n :: !Ticks(spec, s, k).won
    ensures c.metric in Ticks(spec, s, n).metrics && ValuePasses(Ticks(spec, s, n).metrics[c.metric], c)
  {
    AfterUnwonTicks(spec, s, n);
    if Resolve(spec, s.tick, s.activeActions, c.metric).Some? {
      ProjectedArrives(spec, s, n, c.metric);
    }
  }

  lemma ProjectedArrives(spec: Spec, s: State, n: nat, metric: string)
    requires metric in s.metrics && TicksNeeded(spec, s, metric) <= n
    requires Resolve(spec, s.tick, s.activeActions, metric).Some?
    requires var e := Resolve(spec, s.tick, s.activeActions, metric).value;
             e.rate != 0.0 || s.metrics[metric] == e.target
    ensures Projected(spec, s, n, metric) == Resolve(spec, s.tick, s.activeActions, metric).value.target
  {
    var e := Resolve(spec, s.tick, s.activeActions, metric).value;
    var speed := AbsReal(e.rate);
    if e.rate != 0.0 {
      TotalGrows(CeilDiv(Distance(e.target, s.metrics[metric]), speed), n, speed);
    } else {
      TotalGrows(n, n, speed);
    }
    Arrives(s.metrics[metric], e.target, Total(n, speed));
  }

  lemma Arrives(current: real, target: real, l: real)
    requires l >= Distance(target, current)
    ensures StepToward(current, target, l) == target
  {
  }

  lemma AllPassAtBound(spec: Spec, s: State, n: nat)
    requires forall i | 0 <= i < |spec.winChecks| ::
               Promising(spec, s, spec.winChecks[i]) && TicksNeeded(spec, s, spec.winChecks[i].metric) <= n
    requires Quiet(spec, s, n) && forall k: nat | k < n :: !Ticks(spec, s, k).won
    ensures WinSatisfied(Ticks(spec, s, n).metrics, spec.winChecks)
  {
    forall i | 0 <= i < |spec.winChecks|
      ensures spec.winChecks[i].metric in Ticks(spec, s, n).metrics
      ensures ValuePasses(Ticks(spec, s, n).metrics[spec.winChecks[i].metric], spec.winChecks[i])
    {
      ArrivesAndPasses(spec, s, n, spec.winChecks[i]);
    }
  }

  lemma TickSettlesWin(spec: Spec, s: State)
    ensures !s.won ==> After(spec, s, DoTick).won == WinSatisfied(After(spec, s, DoTick).metrics, spec.winChecks)
  {
  }

  /** With nothing else happening, a run whose checks are all promising wins within the bound. */
  lemma WinsWithinBound(spec: Spec, s: State)
    requires forall i | 0 <= i < |spec.winChecks| :: Promising(spec, s, spec.winChecks[i])
    requires Quiet(spec, s, WinBound(spec, s, spec.winChecks))
    ensures Ticks(spec, s, WinBound(spec, s, spec.winChecks)).won
    ensures Ticks(spec, s, WinBound(spec, s, spec.winChecks)).tick <= s.tick + WinBound(spec, s, spec.winChecks)
  {
    var n := WinBound(spec, s, spec.winChecks);
    BoundCoversEachCheck(spec, s, spec.winChecks);
    TickCount(spec, s, n);
    if k: nat :| k < n && Ticks(spec, s, k).won {
      WonSticks(spec, s, k, n);
    } else {
      AllPassAtBound(spec, s, n);
      TickSettlesWin(spec, Ticks(spec, s, n - 1));
    }
  }

  lemma {:induction false} TickCount(spec: Spec, s: State, n: nat)
    ensures s.tick <= Ticks(spec, s, n).tick <= s.tick + n
  {
    if n > 0 {
      TickCount(spec, s, n - 1);
    }
  }

  lemma {:induction false} WonSticks(spec: Spec, s: State, k: nat, n: nat)
    requires k <= n && Ticks(spec, s, k).won
    ensures Ticks(spec, s, n) == Ticks(spec, s, k)
  {
    if k < n {
      WonSticks(spec, s, k, n - 1);
    }
  }
}
