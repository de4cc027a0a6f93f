/** Replay and Log are mutual inverses, and what a log must look like to be accepted. */
module ReplayLaws {
  import opened Prelude
  import opened Simulation

  /** Every player entry carries a request id, as every action that reaches the engine over the wire does. */
  ghost predicate HasRequestIds(log: seq<LogEntry>) {
    forall i | 0 <= i < |log| :: log[i].actionType == PLAYER ==> log[i].clientRequestId.Some?
  }

  lemma ReplayOfExtension(spec: Spec, log: seq<LogEntry>, e: LogEntry)
    ensures Replay(spec, log + [e]) ==
            if Replay(spec, log).Failure? then Replay(spec, log)
            else ReplayEntry(spec, Replay(spec, log).value, |log|, e)
  {
    assert (log + [e])[..|log|] == log;
  }

  /**
   The log of an engine driven by any requests replays, exactly when its player entries have ids, and then to
   that very engine.
   */
  lemma {:induction false} ReplayRebuildsEngine(spec: Spec, ops: seq<Op>)
    ensures var s := Run(spec, ops);
            && s.nextSeq == |s.log| + 1
            && (Replay(spec, s.log).Success? <==> HasRequestIds(s.log))
            && (Replay(spec, s.log).Success? ==> Replay(spec, s.log) == Success(s))
  {
    if ops != [] {
      ReplayRebuildsEngine(spec, ops[..|ops| - 1]);
      ReplayFollowsAttempt(spec, Run(spec, ops[..|ops| - 1]), ops[|ops| - 1]);
    }
  }

  lemma ReplayFollowsAttempt(spec: Spec, s: State, op: Op)
    requires s.nextSeq == |s.log| + 1
    requires Replay(spec, s.log).Success? <==> HasRequestIds(s.log)
    requires Replay(spec, s.log).Success? ==> Replay(spec, s.log) == Success(s)
    ensures var t := After(spec, s, op);
            && t.nextSeq == |t.log| + 1
            && (Replay(spec, t.log).Success? <==> HasRequestIds(t.log))
            && (Replay(spec, t.log).Success? ==> Replay(spec, t.log) == Success(t))
  {
    if Attempt(spec, s, op).Success? {
      var t := After(spec, s, op);
      var e := t.log[|s.log|];
      assert t.log == s.log + [e];
      ReplayOfExtension(spec, s.log, e);
      assert forall i | 0 <= i < |s.log| :: t.log[i] == s.log[i];
    }
  }

  /** The request a log entry records. */
  function Request(e: LogEntry): Op {
    if e.actionType == PLAYER && e.actionKey.Some? then DoAction(e.actionKey.value, e.clientRequestId) else DoTick
  }

  /** The requests a log records. */
  function Recorded(log: seq<LogEntry>): seq<Op> {
    if log == [] then [] else Recorded(log[..|log| - 1]) + [Request(log[|log| - 1])]
  }

  lemma EntryReplaysItsRequest(spec: Spec, s: State, i: nat, e: LogEntry)
    requires ReplayEntry(spec, s, i, e).Success? && s.nextSeq == i + 1
    ensures ReplayEntry(spec, s, i, e) == Attempt(spec, s, Request(e))
    ensures ReplayEntry(spec, s, i, e).value.log == s.log + [e]
    ensures After(spec, s, Request(e)) == ReplayEntry(spec, s, i, e).value
    ensures ReplayEntry(spec, s, i, e).value.nextSeq == i + 2
    ensures e.actionType == PLAYER ==> e.clientRequestId.Some?
  {
  }

  /** A log Replay accepts is the resulting engine's own log, and the engine is one a live run reaches. */
  lemma {:induction false} AcceptedLogIsEngineLog(spec: Spec, log: seq<LogEntry>)
    requires Replay(spec, log).Success?
    ensures Replay(spec, log).value.log == log
    ensures Replay(spec, log).value.nextSeq == |log| + 1
    ensures HasRequestIds(log)
  {
    if log != [] {
      var front, e := log[..|log| - 1], log[|log| - 1];
      AcceptedLogIsEngineLog(spec, front);
      EntryReplaysItsRequest(spec, Replay(spec, front).value, |front|, e);
      assert log == front + [e];
    }
  }

  lemma RunOfExtension(spec: Spec, ops: seq<Op>, op: Op)
    ensures Run(spec, ops + [op]) == After(spec, Run(spec, ops), op)
  {
    assert (ops + [op])[..|ops|] == ops;
  }

  /** The engine a log replays to is one a live run reaches, by making the recorded requests. */
  lemma {:induction false} AcceptedLogIsReachable(spec: Spec, log: seq<LogEntry>)
    requires Replay(spec, log).Success?
    ensures Run(spec, Recorded(log)) == Replay(spec, log).value
  {
    if log != [] {
      var front, e := log[..|log| - 1], log[|log| - 1];
      AcceptedLogIsEngineLog(spec, front);
      AcceptedLogIsReachable(spec, front);
      EntryReplaysItsRequest(spec, Replay(spec, front).value, |front|, e);
      RunOfExtension(spec, Recorded(front), Request(e));
    }
  }

  /** Two accepted logs that lead to the same engine are the same log. */
  lemma ReplayIsInjective(spec: Spec, a: seq<LogEntry>, b: seq<LogEntry>)
    requires Replay(spec, a).Success? && Replay(spec, b) == Replay(spec, a)
    ensures a == b
  {
    AcceptedLogIsEngineLog(spec, a);
    AcceptedLogIsEngineLog(spec, b);
  }

  ghost predicate EntryShape(spec: Spec, i: nat, e: LogEntry) {
    && e.seqNo == i + 1
    && ((e.actionType == TICK && e.actionKey.None? && e.clientRequestId.None?)
        || (e.actionType == PLAYER && e.actionKey.Some? && e.clientRequestId.Some?
            && e.actionKey.value in spec.actionEffects))
  }

  ghost predicate WonBy(spec: Spec, log: seq<LogEntry>) {
    Replay(spec, log).Success? && Replay(spec, log).value.won
  }

  lemma AcceptedStep(spec: Spec, front: seq<LogEntry>, e: LogEntry)
    ensures Replay(spec, front + [e]).Success? <==>
            Replay(spec, front).Success? && EntryShape(spec, |front|, e) && !WonBy(spec, front)
  {
    ReplayOfExtension(spec, front, e);
  }

  /** Acceptance, exactly: entries numbered 1..n and well shaped with known keys, and no proper prefix already won. */
  lemma {:induction false} AcceptedIff(spec: Spec, log: seq<LogEntry>)
    ensures Replay(spec, log).Success? <==>
            && (forall i | 0 <= i < |log| :: EntryShape(spec, i, log[i]))
            && (forall k | 0 <= k < |log| :: !WonBy(spec, log[..k]))
  {
    if log != [] {
      var n := |log| - 1;
      var front := log[..n];
      AcceptedIff(spec, front);
      AcceptedStep(spec, front, log[n]);
      assert log == front + [log[n]];
      assert forall i | 0 <= i < n :: front[i] == log[i];
      assert forall k | 0 <= k < n :: front[..k] == log[..k];
    }
  }

  /** Why the next entry is refused: out of place or misshapen, logged after the win, or with an unknown key. */
  lemma RefusalSaysWhy(spec: Spec, log: seq<LogEntry>, e: LogEntry)
    requires Replay(spec, log).Success?
    ensures var tick := e.actionType == TICK && e.actionKey.None? && e.clientRequestId.None?;
            var player := e.actionType == PLAYER && e.actionKey.Some? && e.clientRequestId.Some?;
            var r := Replay(spec, log + [e]);
            && (r == Failure(InvalidReplayLog) <==> e.seqNo != |log| + 1 || !(tick || player))
            && (r == Failure(RunCompleted) <==> e.seqNo == |log| + 1 && (tick || player) && WonBy(spec, log))
            && (r == Failure(UnknownAction) <==>
                e.seqNo == |log| + 1 && player && !WonBy(spec, log) && e.actionKey.value !in spec.actionEffects)
  {
    ReplayOfExtension(spec, log, e);
  }

  /** A won engine refuses every request, even an unknown action, as completed; otherwise only unknown actions fail. */
  lemma RequestRefusals(spec: Spec, s: State, op: Op)
    ensures s.won ==> Attempt(spec, s, op) == Failure(RunCompleted)
    ensures !s.won ==> (Attempt(spec, s, op).Failure? <==> op.DoAction? && op.key !in spec.actionEffects)
    ensures !s.won && Attempt(spec, s, op).Failure? ==> Attempt(spec, s, op).error == UnknownAction
  {
  }

  /** Replaying entries i+1, i+2, ... on top of an engine already rebuilt. */
  function ReplayFrom(spec: Spec, s: State, i: nat, log: seq<LogEntry>): Result<State, SimError>
    decreases |log|
  {
    if log == [] then Success(s)
    else
      match ReplayEntry(spec, s, i, log[0])
      case Failure(e) => Failure(e)
      case Success(t) => ReplayFrom(spec, t, i + 1, log[1..])
  }

  /** Replay composes over concatenation: a checkpoint of the first part plus the second part. */
  lemma {:induction false} ReplayComposes(spec: Spec, a: seq<LogEntry>, b: seq<LogEntry>)
    ensures Replay(spec, a + b) ==
            if Replay(spec, a).Failure? then Replay(spec, a)
            else ReplayFrom(spec, Replay(spec, a).value, |a|, b)
    decreases |b|
  {
    if b == [] {
      assert a + b == a;
    } else {
      ReplayOfExtension(spec, a, b[0]);
      ReplayComposes(spec, a + [b[0]], b[1..]);
      assert a + b == a + [b[0]] + b[1..];
    }
  }

  /** Once a log is refused, no later entries make it acceptable. */
  lemma RefusedForever(spec: Spec, a: seq<LogEntry>, b: seq<LogEntry>)
    requires Replay(spec, a).Failure?
    ensures Replay(spec, a + b) == Replay(spec, a)
  {
    ReplayComposes(spec, a, b);
  }
}
