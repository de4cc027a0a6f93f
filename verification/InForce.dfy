/** Which effect moves a metric, said directly over the events of a spec and the actions taken. */
module InForce {
  import opened Prelude
  import opened Simulation

  /** Effect j of the i-th action taken names the metric. */
  predicate ActionNames(spec: Spec, active: seq<string>, metric: string, i: int, j: int) {
    && 0 <= i < |active| && active[i] in spec.actionEffects
    && 0 <= j < |spec.actionEffects[active[i]]| && spec.actionEffects[active[i]][j].metric == metric
  }

  /** Effect j of the i-th event, which has come, names the metric. */
  predicate EventNames(events: seq<TimedEvent>, tick: int, metric: string, i: int, j: int) {
    && 0 <= i < |events| && events[i].atTick <= tick
    && 0 <= j < |events[i].effects| && events[i].effects[j].metric == metric
  }

  /** Position (k, l) comes after (i, j). */
  predicate After(i: int, j: int, k: int, l: int) {
    i < k || (i == k && j < l)
  }

  ghost predicate LastAction(spec: Spec, active: seq<string>, metric: string, i: int, j: int) {
    ActionNames(spec, active, metric, i, j)
    && forall k, l | ActionNames(spec, active, metric, k, l) :: !After(i, j, k, l)
  }

  ghost predicate LastEvent(events: seq<TimedEvent>, tick: int, metric: string, i: int, j: int) {
    EventNames(events, tick, metric, i, j)
    && forall k, l | EventNames(events, tick, metric, k, l) :: !After(i, j, k, l)
  }

  /** The newest action names the metric: its last mention is the last of all. */
  lemma NewestActionSays(spec: Spec, active: seq<string>, metric: string)
    requires active != [] && LastMatch(EffectsOf(spec, active[|active| - 1]), metric).Some?
    ensures exists i, j :: LastAction(spec, active, metric, i, j)
                           && LastMatch(EffectsOf(spec, active[|active| - 1]), metric).value
                              == spec.actionEffects[active[i]][j]
  {
    var last := |active| - 1;
    var own := EffectsOf(spec, active[last]);
    LastMatchIsLast(own, metric);
    var j :| 0 <= j < |own| && own[j] == LastMatch(own, metric).value && own[j].metric == metric
             && forall l | j < l < |own| :: own[l].metric != metric;
    assert ActionNames(spec, active, metric, last, j);
    assert LastAction(spec, active, metric, last, j);
  }

  lemma NewestActionSilent(spec: Spec, active: seq<string>, metric: string)
    requires active != [] && LastMatch(EffectsOf(spec, active[|active| - 1]), metric).None?
    ensures forall i, j | i == |active| - 1 :: !ActionNames(spec, active, metric, i, j)
  {
    LastMatchIsLast(EffectsOf(spec, active[|active| - 1]), metric);
  }

  /** The actions taken say nothing, or the last effect among theirs that names the metric. */
  lemma {:induction false} ActionsSay(spec: Spec, active: seq<string>, metric: string)
    ensures var said := LastMatch(ChosenEffects(spec, active), metric);
            if said.None? then forall i, j :: !ActionNames(spec, active, metric, i, j)
            else exists i, j :: LastAction(spec, active, metric, i, j) && said.value == spec.actionEffects[active[i]][j]
  {
    if active != [] {
      var front, last := active[..|active| - 1], |active| - 1;
      LastMatchOfConcat(ChosenEffects(spec, front), EffectsOf(spec, active[last]), metric);
      if LastMatch(EffectsOf(spec, active[last]), metric).Some? {
        NewestActionSays(spec, active, metric);
      } else {
        NewestActionSilent(spec, active, metric);
        ActionsSay(spec, front, metric);
        EarlierActions(spec, active, metric);
        if i, j :| LastAction(spec, front, metric, i, j)
                   && LastMatch(ChosenEffects(spec, front), metric) == Some(spec.actionEffects[front[i]][j]) {
          assert LastAction(spec, active, metric, i, j) && front[i] == active[i];
        }
      }
    }
  }

  /** When the newest action does not name the metric, its last mention is where it was. */
  lemma EarlierActions(spec: Spec, active: seq<string>, metric: string)
    requires active != []
    requires forall i, j | i == |active| - 1 :: !ActionNames(spec, active, metric, i, j)
    ensures forall i, j :: ActionNames(spec, active, metric, i, j) <==>
                           ActionNames(spec, active[..|active| - 1], metric, i, j)
    ensures forall i, j | LastAction(spec, active[..|active| - 1], metric, i, j) ::
              LastAction(spec, active, metric, i, j)
  {
    forall i, j
      ensures ActionNames(spec, active, metric, i, j) <==> ActionNames(spec, active[..|active| - 1], metric, i, j)
    {
    }
  }

  /** The effects of the newest event, if it has come. */
  function NewestDue(events: seq<TimedEvent>, tick: int): seq<Effect>
    requires events != []
  {
    if events[|events| - 1].atTick > tick then [] else events[|events| - 1].effects
  }

  lemma NewestEventSays(events: seq<TimedEvent>, tick: int, metric: string)
    requires events != [] && LastMatch(NewestDue(events, tick), metric).Some?
    ensures exists i, j :: LastEvent(events, tick, metric, i, j)
                           && LastMatch(NewestDue(events, tick), metric).value == events[i].effects[j]
  {
    var own := NewestDue(events, tick);
    LastMatchIsLast(own, metric);
    var j :| 0 <= j < |own| && own[j] == LastMatch(own, metric).value && own[j].metric == metric
             && forall l | j < l < |own| :: own[l].metric != metric;
    assert EventNames(events, tick, metric, |events| - 1, j);
    assert LastEvent(events, tick, metric, |events| - 1, j);
  }

  lemma NewestEventSilent(events: seq<TimedEvent>, tick: int, metric: string)
    requires events != [] && LastMatch(NewestDue(events, tick), metric).None?
    ensures forall i, j | i == |events| - 1 :: !EventNames(events, tick, metric, i, j)
  {
    LastMatchIsLast(NewestDue(events, tick), metric);
  }

  /** The events that have come say nothing, or the last effect among theirs that names the metric. */
  lemma {:induction false} EventsSay(events: seq<TimedEvent>, tick: int, metric: string)
    ensures var said := LastMatch(DueEffects(events, tick), metric);
            if said.None? then forall i, j :: !EventNames(events, tick, metric, i, j)
            else exists i, j :: LastEvent(events, tick, metric, i, j) && said.value == events[i].effects[j]
  {
    if events != [] {
      var front := events[..|events| - 1];
      LastMatchOfConcat(DueEffects(front, tick), NewestDue(events, tick), metric);
      if LastMatch(NewestDue(events, tick), metric).Some? {
        NewestEventSays(events, tick, metric);
      } else {
        NewestEventSilent(events, tick, metric);
        EventsSay(front, tick, metric);
        EarlierEvents(events, tick, metric);
        if i, j :| LastEvent(front, tick, metric, i, j)
                   && LastMatch(DueEffects(front, tick), metric) == Some(front[i].effects[j]) {
          assert LastEvent(events, tick, metric, i, j) && front[i] == events[i];
        }
      }
    }
  }

  lemma EarlierEvents(events: seq<TimedEvent>, tick: int, metric: string)
    requires events != []
    requires forall i, j | i == |events| - 1 :: !EventNames(events, tick, metric, i, j)
    ensures forall i, j :: EventNames(events, tick, metric, i, j) <==>
                           EventNames(events[..|events| - 1], tick, metric, i, j)
    ensures forall i, j | LastEvent(events[..|events| - 1], tick, metric, i, j) :: LastEvent(events, tick, metric, i, j)
  {
    forall i, j
      ensures EventNames(events, tick, metric, i, j) <==> EventNames(events[..|events| - 1], tick, metric, i, j)
    {
    }
  }

  /**
   What moves a metric. If some action taken names it: the last effect, by action and then by position, that does.
   Otherwise, if some event that has come names it: the last effect, by event and then by position. Otherwise nothing.
   */
  lemma ResolveMeaning(spec: Spec, tick: int, active: seq<string>, metric: string)
    ensures var byAction := exists i, j :: ActionNames(spec, active, metric, i, j);
            var byEvent := exists i, j :: EventNames(spec.events, tick, metric, i, j);
            var chosen := Resolve(spec, tick, active, metric);
            && (byAction ==> exists i, j :: LastAction(spec, active, metric, i, j)
                                            && chosen == Some(spec.actionEffects[active[i]][j]))
            && (!byAction && byEvent ==> exists i, j :: LastEvent(spec.events, tick, metric, i, j)
                                                        && chosen == Some(spec.events[i].effects[j]))
            && (!byAction && !byEvent ==> chosen == None)
  {
    LastMatchOfConcat(DueEffects(spec.events, tick), ChosenEffects(spec, active), metric);
    ActionsSay(spec, active, metric);
    EventsSay(spec.events, tick, metric);
  }

  /** A tick moves each metric one clamped step towards the target of that effect, and no other metric. */
  lemma TickMoves(spec: Spec, s: State, metric: string)
    requires !s.won && metric in s.metrics
    ensures TickStep(spec, s).Success? && metric in TickStep(spec, s).value.metrics
    ensures var now, next := s.metrics[metric], TickStep(spec, s).value.metrics[metric];
            && (forall i, j | LastAction(spec, s.activeActions, metric, i, j) ::
                  var e := spec.actionEffects[s.activeActions[i]][j];
                  next == StepToward(now, e.target, e.rate))
            && ((forall i, j :: !ActionNames(spec, s.activeActions, metric, i, j)) ==>
                  forall i, j | LastEvent(spec.events, s.tick, metric, i, j) ::
                    next == StepToward(now, spec.events[i].effects[j].target, spec.events[i].effects[j].rate))
            && ((forall i, j :: !ActionNames(spec, s.activeActions, metric, i, j)
                                && !EventNames(spec.events, s.tick, metric, i, j)) ==> next == now)
  {
    ResolveMeaning(spec, s.tick, s.activeActions, metric);
    OnlyOneLast(spec, s.tick, s.activeActions, metric);
  }

  /** There is only one last mention. */
  lemma OnlyOneLast(spec: Spec, tick: int, active: seq<string>, metric: string)
    ensures forall i, j, k, l | LastAction(spec, active, metric, i, j) && LastAction(spec, active, metric, k, l) ::
              i == k && j == l
    ensures var events := spec.events;
            forall i, j, k, l | LastEvent(events, tick, metric, i, j) && LastEvent(events, tick, metric, k, l) ::
              i == k && j == l
  {
  }
}
