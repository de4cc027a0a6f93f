/** Repeated actions: only the last occurrence of each key can ever matter. */
module Compaction {
  import opened Prelude
  import opened Simulation

  function Without(keys: seq<string>, k: string): seq<string> {
    if keys == [] then []
    else if keys[|keys| - 1] == k then Without(keys[..|keys| - 1], k)
    else Without(keys[..|keys| - 1], k) + [keys[|keys| - 1]]
  }

  /** The keys in the order of their last occurrences, each once. */
  function KeepLast(keys: seq<string>): seq<string> {
    if keys == [] then []
    else Without(KeepLast(keys[..|keys| - 1]), keys[|keys| - 1]) + [keys[|keys| - 1]]
  }

  /** The chosen actions' last word on a metric. */
  function ByActions(spec: Spec, active: seq<string>, metric: string): Option<Effect> {
    LastMatch(ChosenEffects(spec, active), metric)
  }

  lemma ByActionsOfExtension(spec: Spec, active: seq<string>, k: string, metric: string)
    ensures ByActions(spec, active + [k], metric) ==
            if LastMatch(EffectsOf(spec, k), metric).Some? then LastMatch(EffectsOf(spec, k), metric)
            else ByActions(spec, active, metric)
  {
    assert (active + [k])[..|active|] == active;
    LastMatchOfConcat(ChosenEffects(spec, active), EffectsOf(spec, k), metric);
  }

  /** Dropping an action that says nothing about a metric changes nothing for it. */
  lemma {:induction false} WithoutSilentAction(spec: Spec, active: seq<string>, k: string, metric: string)
    requires LastMatch(EffectsOf(spec, k), metric).None?
    ensures ByActions(spec, Without(active, k), metric) == ByActions(spec, active, metric)
  {
    if active != [] {
      var front, last := active[..|active| - 1], active[|active| - 1];
      assert active == front + [last];
      WithoutSilentAction(spec, front, k, metric);
      ByActionsOfExtension(spec, front, last, metric);
      ByActionsOfExtension(spec, Without(front, k), last, metric);
    }
  }

  lemma {:induction false} KeepLastSaysTheSame(spec: Spec, active: seq<string>, metric: string)
    ensures ByActions(spec, KeepLast(active), metric) == ByActions(spec, active, metric)
  {
    if active != [] {
      var front, k := active[..|active| - 1], active[|active| - 1];
      assert active == front + [k];
      KeepLastSaysTheSame(spec, front, metric);
      ByActionsOfExtension(spec, front, k, metric);
      ByActionsOfExtension(spec, Without(KeepLast(front), k), k, metric);
      if LastMatch(EffectsOf(spec, k), metric).None? {
        WithoutSilentAction(spec, KeepLast(front), k, metric);
      }
    }
  }

  /** Two histories with the same last occurrences resolve every metric alike at every tick. */
  lemma ResolveSeesLastOccurrences(spec: Spec, a: seq<string>, b: seq<string>, tick: int, metric: string)
    requires KeepLast(a) == KeepLast(b)
    ensures Resolve(spec, tick, a, metric) == Resolve(spec, tick, b, metric)
  {
    KeepLastSaysTheSame(spec, a, metric);
    KeepLastSaysTheSame(spec, b, metric);
    LastMatchOfConcat(DueEffects(spec.events, tick), ChosenEffects(spec, a), metric);
    LastMatchOfConcat(DueEffects(spec.events, tick), ChosenEffects(spec, b), metric);
  }

  lemma {:induction false} WithoutElements(keys: seq<string>, k: string)
    ensures forall x :: x in Without(keys, k) <==> x in keys && x != k
  {
    if keys != [] {
      WithoutElements(keys[..|keys| - 1], k);
      assert keys == keys[..|keys| - 1] + [keys[|keys| - 1]];
    }
  }

  lemma {:induction false} WithoutAbsent(keys: seq<string>, k: string)
    requires k !in keys
    ensures Without(keys, k) == keys
  {
    if keys != [] {
      WithoutAbsent(keys[..|keys| - 1], k);
      assert keys == keys[..|keys| - 1] + [keys[|keys| - 1]];
    }
  }

  lemma {:induction false} WithoutTwice(keys: seq<string>, j: string, k: string)
    ensures Without(Without(keys, j), k) == Without(Without(keys, k), j)
  {
    if keys != [] {
      var front, last := keys[..|keys| - 1], keys[|keys| - 1];
      WithoutTwice(front, j, k);
      assert (Without(front, j) + [last])[..|Without(front, j)|] == Without(front, j);
      assert (Without(front, k) + [last])[..|Without(front, k)|] == Without(front, k);
    }
  }

  lemma KeepLastOfExtension(keys: seq<string>, k: string)
    ensures KeepLast(keys + [k]) == Without(KeepLast(keys), k) + [k]
  {
    assert (keys + [k])[..|keys|] == keys;
  }

  /** Removing a key before or after keeping last occurrences is the same. */
  lemma {:induction false} KeepLastWithout(keys: seq<string>, k: string)
    ensures KeepLast(Without(keys, k)) == Without(KeepLast(keys), k)
  {
    if keys != [] {
      var front, last := keys[..|keys| - 1], keys[|keys| - 1];
      KeepLastWithout(front, k);
      var kept := Without(KeepLast(front), last);
      assert (kept + [last])[..|kept|] == kept;
      if last == k {
        WithoutElements(KeepLast(front), k);
        WithoutAbsent(kept, k);
      } else {
        KeepLastOfExtension(Without(front, k), last);
        WithoutTwice(KeepLast(front), last, k);
      }
    }
  }

  /** Compacting twice is compacting once. */
  lemma {:induction false} KeepLastIdempotent(keys: seq<string>)
    ensures KeepLast(KeepLast(keys)) == KeepLast(keys)
  {
    if keys != [] {
      var front, last := keys[..|keys| - 1], keys[|keys| - 1];
      KeepLastIdempotent(front);
      KeepLastOfExtension(Without(KeepLast(front), last), last);
      KeepLastWithout(KeepLast(front), last);
      WithoutElements(KeepLast(front), last);
      WithoutAbsent(Without(KeepLast(front), last), last);
    }
  }

  /** A compacted history has each key once and keeps exactly the keys that occur. */
  lemma {:induction false} KeepLastIsCompact(keys: seq<string>)
    ensures forall k :: k in KeepLast(keys) <==> k in keys
    ensures forall i, j | 0 <= i < j < |KeepLast(keys)| :: KeepLast(keys)[i] != KeepLast(keys)[j]
  {
    if keys != [] {
      var front, last := keys[..|keys| - 1], keys[|keys| - 1];
      assert keys == front + [last];
      KeepLastIsCompact(front);
      WithoutElements(KeepLast(front), last);
      WithoutKeepsDistinct(KeepLast(front), last);
      var w := Without(KeepLast(front), last);
      assert forall i | 0 <= i < |w| :: w[i] in w;
    }
  }

  lemma {:induction false} WithoutKeepsDistinct(keys: seq<string>, k: string)
    requires forall i, j | 0 <= i < j < |keys| :: keys[i] != keys[j]
    ensures forall i, j | 0 <= i < j < |Without(keys, k)| :: Without(keys, k)[i] != Without(keys, k)[j]
  {
    if keys != [] {
      var front, last := keys[..|keys| - 1], keys[|keys| - 1];
      WithoutKeepsDistinct(front, k);
      WithoutElements(front, k);
      assert last !in front;
    }
  }

  /** Same state up to earlier occurrences of repeated actions. */
  ghost predicate Alike(s: State, t: State) {
    s == t.(activeActions := s.activeActions) && KeepLast(s.activeActions) == KeepLast(t.activeActions)
  }

  lemma AlikeStep(spec: Spec, s: State, t: State, op: Op)
    requires Alike(s, t)
    ensures Alike(After(spec, s, op), After(spec, t, op))
    ensures Attempt(spec, s, op).Success? <==> Attempt(spec, t, op).Success?
    ensures Attempt(spec, s, op).Failure? ==> Attempt(spec, s, op) == Attempt(spec, t, op)
  {
    match op
    case DoTick =>
      forall m | m in s.metrics ensures Moved(spec, s, m) == Moved(spec, t, m) {
        ResolveSeesLastOccurrences(spec, s.activeActions, t.activeActions, s.tick, m);
      }
      assert MovedMetrics(spec, s) == MovedMetrics(spec, t);
    case DoAction(key, req) =>
      KeepLastOfExtension(s.activeActions, key);
      KeepLastOfExtension(t.activeActions, key);
  }

  /** Compacting the action list at any moment changes nothing of the future but the list itself. */
  lemma {:induction false} CompactionIsInvisible(spec: Spec, s: State, ops: seq<Op>)
    ensures var t := RunOn(spec, s, ops);
            var u := RunOn(spec, s.(activeActions := KeepLast(s.activeActions)), ops);
            && u == t.(activeActions := u.activeActions)
            && KeepLast(u.activeActions) == KeepLast(t.activeActions)
    ensures forall op :: var t := RunOn(spec, s, ops);
                         var u := RunOn(spec, s.(activeActions := KeepLast(s.activeActions)), ops);
                         Attempt(spec, t, op).Success? <==> Attempt(spec, u, op).Success?
  {
    var c := s.(activeActions := KeepLast(s.activeActions));
    if ops == [] {
      KeepLastIdempotent(s.activeActions);
    } else {
      var front := ops[..|ops| - 1];
      CompactionIsInvisible(spec, s, front);
      AlikeStep(spec, RunOn(spec, s, front), RunOn(spec, c, front), ops[|ops| - 1]);
    }
    forall op
      ensures Attempt(spec, RunOn(spec, s, ops), op).Success? <==> Attempt(spec, RunOn(spec, c, ops), op).Success?
    {
      AlikeStep(spec, RunOn(spec, s, ops), RunOn(spec, c, ops), op);
    }
  }
}
