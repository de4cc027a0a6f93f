/**
 One request id, one effect: what holds of request ids in every run of the runtime, lost answers and unknown
 keys included.
 */
module Requests {
  import opened Prelude
  import opened Simulation
  import opened ReplayLaws
  import opened ActionTable
  import opened Runtime

  /** A request the engine took has its row, with the same action, at or below bound. */
  ghost predicate HasRow(log: seq<LogEntry>, e: LogEntry, bound: int) {
    exists i :: 0 <= i < |log| && i < bound
                && log[i].clientRequestId == e.clientRequestId && log[i].actionKey == e.actionKey
  }

  /** The engine took each request at most once, and none that the log does not hold at or below lastSeq. */
  ghost predicate Traced(log: seq<LogEntry>, taken: seq<LogEntry>, lastSeq: int) {
    && 0 <= lastSeq <= |log| && RequestsUnique(taken)
    && forall k | 0 <= k < |taken| && taken[k].clientRequestId.Some? :: HasRow(log, taken[k], lastSeq)
  }

  ghost predicate Sound(n: Node) {
    RowsOk(n.log) && (n.cache.Some? ==> Traced(n.log, n.cache.value.engine.log, n.cache.value.lastSeq))
  }

  lemma TracedGrows(log: seq<LogEntry>, more: seq<LogEntry>, taken: seq<LogEntry>, lastSeq: int, later: int)
    requires Traced(log, taken, lastSeq) && log <= more && lastSeq <= later <= |more|
    ensures Traced(more, taken, later)
  {
    forall k | 0 <= k < |taken| && taken[k].clientRequestId.Some? ensures HasRow(more, taken[k], later) {
      assert HasRow(log, taken[k], lastSeq);
      var i :| 0 <= i < |log| && i < lastSeq
               && log[i].clientRequestId == taken[k].clientRequestId && log[i].actionKey == taken[k].actionKey;
      assert more[i] == log[i];
    }
  }

  /** The engine takes a tick. */
  lemma TracedTick(log: seq<LogEntry>, taken: seq<LogEntry>, lastSeq: int, e: LogEntry)
    requires Traced(log, taken, lastSeq) && e.clientRequestId.None?
    ensures Traced(log, taken + [e], lastSeq)
  {
  }

  /** The engine takes the request of a row above lastSeq: it cannot have taken it before. */
  lemma TracedRequest(log: seq<LogEntry>, taken: seq<LogEntry>, lastSeq: int, row: LogEntry, e: LogEntry)
    requires RowsOk(log) && Traced(log, taken, lastSeq)
    requires row in log && row.seqNo > lastSeq && row.clientRequestId.Some?
    requires e.clientRequestId == row.clientRequestId && e.actionKey == row.actionKey
    ensures Traced(log, taken + [e], row.seqNo)
  {
    var p :| 0 <= p < |log| && log[p] == row;
    TracedGrows(log, log, taken, lastSeq, row.seqNo);
    forall k | 0 <= k < |taken| && taken[k].clientRequestId.Some?
      ensures taken[k].clientRequestId != e.clientRequestId
    {
      assert HasRow(log, taken[k], lastSeq);
    }
    assert HasRow(log, e, row.seqNo);
  }

  // ----- every step -----

  lemma LoadSound(spec: Spec, n: Node, fault: LoadFault)
    requires Sound(n)
    ensures Sound(Load(spec, n, fault).0)
  {
    if n.cache.None? && fault.Read? {
      if n.log != [] {
        RebuildSound(spec, n);
      } else {
        FirstAppend(fault.first);
        FirstTick(spec);
        RebuildSound(spec, n.(log := [RowFor(TickInput(), 1)]));
      }
    }
  }

  lemma RebuildSound(spec: Spec, n: Node)
    requires RowsOk(n.log) && n.cache.None?
    ensures Sound(Rebuild(spec, n).0)
  {
    MaxSeqOfDense(n.log);
    if Replay(spec, n.log).Success? {
      AcceptedLogIsEngineLog(spec, n.log);
      forall k | 0 <= k < |n.log| ensures HasRow(n.log, n.log[k], |n.log|) {
      }
    }
  }

  lemma ActSound(spec: Spec, n: Node, key: string, req: string, fault: Fault)
    requires Sound(n) && n.cache.Some?
    ensures Sound(ActLoaded(spec, n, key, req, fault).0)
  {
    var c := n.cache.value;
    var input := Input(PLAYER, Some(key), Some(req));
    var (log, stored) := AppendOutcome(n.log, input, fault);
    AppendExtends(spec, n.log, input, fault);
    TracedGrows(n.log, log, c.engine.log, c.lastSeq, c.lastSeq);
    if stored.Success? && stored.value.seqNo > c.lastSeq {
      assert stored.value in log && stored.value.actionKey == Some(key);
      var entry := LogEntry(c.engine.nextSeq, PLAYER, Some(key), Some(req));
      TracedRequest(log, c.engine.log, c.lastSeq, stored.value, entry);
    }
  }

  lemma FireSound(spec: Spec, n: Node, early: bool, fault: Fault)
    requires Sound(n)
    ensures Sound(Fire(spec, n, early, fault).0)
  {
    if n.loops > 0 && n.cache.Some? {
      var c := n.cache.value;
      var log := AppendOutcome(n.log, TickInput(), fault).0;
      AppendExtends(spec, n.log, TickInput(), fault);
      RowsNumberAndRequestFree(n.log, TickInput());
      TracedGrows(n.log, log, c.engine.log, c.lastSeq, c.lastSeq);
      TracedGrows(n.log, log, c.engine.log, c.lastSeq, |log|);
      TracedTick(log, c.engine.log, |log|, LogEntry(c.engine.nextSeq, TICK, None, None));
    }
  }

  lemma StepSound(spec: Spec, n: Node, ev: Runtime.Event)
    requires Sound(n)
    ensures Sound(Runtime.Step(spec, n, ev))
  {
    match ev
    case Connecting(loadFault) => LoadSound(spec, n, loadFault);
    case Acting(key, req, loadFault, fault) =>
      LoadSound(spec, n, loadFault);
      var (m, loaded) := Load(spec, n, loadFault);
      if loaded && m.cache.Some? {
        ActSound(spec, m, key, req, fault);
      }
    case Firing(early, fault) => FireSound(spec, n, early, fault);
    case Restarting =>
  }

  lemma {:induction false} RunSound(spec: Spec, n: Node, events: seq<Runtime.Event>)
    requires Sound(n)
    ensures Sound(RunFrom(spec, n, events)) && n.log <= RunFrom(spec, n, events).log
  {
    if events != [] {
      var before := RunFrom(spec, n, events[..|events| - 1]);
      RunSound(spec, n, events[..|events| - 1]);
      StepSound(spec, before, events[|events| - 1]);
      LogOnlyGrows(spec, before, events[|events| - 1]);
    }
  }

  // ----- what a retry gets -----

  /**
   A retry never logs anything, and when it succeeds it gets the seq its request was given; another action under the
   same id is refused and changes nothing. The engine takes the action only if its row is above lastSeq, which
   is when its first answer was lost.
   */
  lemma RetryGetsItsSeq(spec: Spec, n: Node, key: string, req: string, fault: Fault, row: LogEntry)
    requires RowsOk(n.log) && n.cache.Some? && !n.cache.value.terminal && fault != NotStored
    requires row in n.log && row.clientRequestId == Some(req)
    ensures var c := n.cache.value;
            var (m, r) := ActLoaded(spec, n, key, req, fault);
            && m.log == n.log && m.cache.Some?
            && (row.actionKey != Some(key) ==> m == n && r == Failure(Append(ActionConflict)))
            && (row.actionKey == Some(key) && row.seqNo <= c.lastSeq ==>
                  m.cache.value.(tickStarted := c.tickStarted) == c
                  && r == Success(Delta(row.seqNo, SnapshotOf(spec, c.engine))))
            && (row.actionKey == Some(key) && row.seqNo > c.lastSeq ==>
                  if ActionStep(spec, c.engine, key, Some(req)).Failure? then m == n && r.Failure?
                  else
                    && m.cache.value.engine == ActionStep(spec, c.engine, key, Some(req)).value
                    && m.cache.value.lastSeq == row.seqNo && m.cache.value.terminal == c.terminal
                    && r == Success(Delta(row.seqNo, SnapshotOf(spec, m.cache.value.engine))))
  {
    StoredOnce(n.log, req, row);
    var i :| 0 <= i < |n.log| && n.log[i] == row;
    assert ShapeCheck(n.log[i]);
  }

  /** A stored id has one row, and the lookup finds it. */
  lemma StoredOnce(log: seq<LogEntry>, req: string, row: LogEntry)
    requires RowsOk(log) && row in log && row.clientRequestId == Some(req)
    ensures FindRequest(log, req) == Some(row)
  {
    FindRequestMeaning(log, req);
    var i :| 0 <= i < |log| && log[i] == row;
    assert RequestTaken(log, Some(req));
    var j :| 0 <= j < |log| && log[j] == FindRequest(log, req).value;
    assert i == j;
  }

  /** So does a retry after anything else has happened: any faults, ticks, unknown keys and restarts. */
  lemma LateRetryGetsItsSeq(
      spec: Spec, n: Node, events: seq<Runtime.Event>, key: string, req: string, loadFault: LoadFault, row: LogEntry)
    requires Sound(n) && row in n.log && row.clientRequestId == Some(req)
    ensures var m := RunFrom(spec, n, events);
            var (after, r) := Act(spec, m, key, req, loadFault, NoFault);
            && after.log == m.log
            && (r.Success? ==> r.value.seqNo == row.seqNo && row.actionKey == Some(key))
            && (row.actionKey != Some(key) ==> after.cache == Load(spec, m, loadFault).0.cache)
  {
    var m := RunFrom(spec, n, events);
    RunSound(spec, n, events);
    LoadSound(spec, m, loadFault);
    LoadOnlyGrows(spec, m, loadFault);
    var (u, loaded) := Load(spec, m, loadFault);
    assert row in u.log;
    if loaded && u.cache.Some? && !u.cache.value.terminal {
      RetryGetsItsSeq(spec, u, key, req, NoFault, row);
    }
  }

  /**
   However often it is retried and whatever fails, one request id is one log entry at most, and the cached engine
   took it at most once, with the action that entry names.
   */
  lemma OneEntryPerRequest(spec: Spec, events: seq<Runtime.Event>)
    ensures var n := RunFrom(spec, Fresh(), events);
            && RequestsUnique(n.log)
            && (n.cache.Some? ==>
                  && var taken := n.cache.value.engine.log;
                  && RequestsUnique(taken)
                  && forall k | 0 <= k < |taken| && taken[k].clientRequestId.Some? ::
                       HasRow(n.log, taken[k], n.cache.value.lastSeq))
  {
    RunSound(spec, Fresh(), events);
  }
}
