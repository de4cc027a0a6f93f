/** run_repo.go as an object over the rows of one run. */
module RunRepo {
  import opened Prelude
  import opened Simulation
  import opened ActionTable

  /** Why the insert statement gave no row: the constraint Postgres names, or any other error. */
  datatype InsertError = DedupViolation | SeqViolation | ShapeViolation | OtherError

  /**
   What other callers do while a call runs: they append rivals right after its first lookup. stale: its
   insert takes its snapshot before that. seqReported: the constraint named when both are violated.
   */
  datatype Race = Race(rivals: seq<Input>, stale: bool, seqReported: bool)

  const ALONE := Race([], false, false)

  function Grown(rows: seq<LogEntry>, rivals: seq<Input>): seq<LogEntry> {
    if rivals == [] then rows
    else AppendOutcome(Grown(rows, rivals[..|rivals| - 1]), rivals[|rivals| - 1], NoFault).0
  }

  /** Insert at nextSeq, and the second lookup when the insert lost on the dedup index: new rows and answer. */
  function InsertOutcome(rows: seq<LogEntry>, input: Input, nextSeq: int, seqReported: bool, fault: Fault)
    : (seq<LogEntry>, Result<LogEntry, AppendError>)
  {
    var row, req := RowFor(input, nextSeq), input.clientRequestId;
    if fault == NotStored || !ShapeCheck(row) then (rows, Failure(DbError))
    else if !SeqTaken(rows, nextSeq) && !RequestTaken(rows, req) then
      (rows + [row], if fault == AckLost then Failure(DbError) else Success(row))
    else if RequestTaken(rows, req) && !(SeqTaken(rows, nextSeq) && seqReported)
            && FindRequest(rows, req.value).Some? then
      (rows, Reuse(FindRequest(rows, req.value).value, input))
    else (rows, Failure(DbError))
  }

  /** AppendAction amid other callers: new rows and answer. */
  function AppendAmid(rows: seq<LogEntry>, input: Input, race: Race, fault: Fault)
    : (seq<LogEntry>, Result<LogEntry, AppendError>)
  {
    var grown := Grown(rows, race.rivals);
    if fault == NotStored then (grown, Failure(DbError))
    else if input.clientRequestId.Some? && FindRequest(rows, input.clientRequestId.value).Some? then
      (grown, Reuse(FindRequest(rows, input.clientRequestId.value).value, input))
    else
      InsertOutcome(grown, input, MaxSeq(if race.stale then rows else grown) + 1, race.seqReported, fault)
  }

  class PostgresRunRepo {
    var rows: seq<LogEntry>

    constructor ()
      ensures rows == []
    {
      rows := [];
    }

    /** The insert statement: stores exactly when nothing forbids it, and a refusal names the constraint in the way. */
    method InsertNext(input: Input, nextSeq: int, seqReported: bool, fault: Fault)
      returns (r: Result<LogEntry, InsertError>)
      modifies this
      ensures var free := fault != NotStored && ShapeCheck(RowFor(input, nextSeq))
                          && !SeqTaken(old(rows), nextSeq) && !RequestTaken(old(rows), input.clientRequestId);
              rows == old(rows) + if free then [RowFor(input, nextSeq)] else []
      ensures r.Success? <==> rows != old(rows) && fault != AckLost
      ensures r.Success? ==> r.value == RowFor(input, nextSeq)
      ensures r == Failure(OtherError) <==> fault == NotStored || (rows != old(rows) && fault == AckLost)
      ensures fault != NotStored ==>
                && (r == Failure(ShapeViolation) <==> !ShapeCheck(RowFor(input, nextSeq)))
                && (r == Failure(DedupViolation) ==> RequestTaken(old(rows), input.clientRequestId))
                && (r == Failure(SeqViolation) ==> SeqTaken(old(rows), nextSeq))
                && (r.Failure? && SeqTaken(old(rows), nextSeq) && RequestTaken(old(rows), input.clientRequestId)
                    && ShapeCheck(RowFor(input, nextSeq)) ==>
                      r.error == if seqReported then SeqViolation else DedupViolation)
    {
      var row := RowFor(input, nextSeq);
      if fault == NotStored {
        return Failure(OtherError);
      }
      if !ShapeCheck(row) {
        return Failure(ShapeViolation);
      }
      var seqTaken, requestTaken := SeqTaken(rows, nextSeq), RequestTaken(rows, input.clientRequestId);
      if seqTaken && (seqReported || !requestTaken) {
        return Failure(SeqViolation);
      }
      if requestTaken {
        return Failure(DedupViolation);
      }
      rows := rows + [row];
      r := if fault == AckLost then Failure(OtherError) else Success(row);
    }

    /** Other callers' appends. */
    method AppendRivals(rivals: seq<Input>)
      requires RowsOk(rows)
      modifies this
      ensures rows == Grown(old(rows), rivals) && RowsOk(rows)
    {
      assert rivals[..|rivals|] == rivals;
      for i := 0 to |rivals|
        invariant rows == Grown(old(rows), rivals[..i]) && RowsOk(rows)
      {
        assert rivals[..i + 1][..i] == rivals[..i];
        AppendKeepsRowsOk(rows, rivals[i], NoFault);
        rows := AppendOutcome(rows, rivals[i], NoFault).0;
      }
    }

    /** AppendAction amid other callers, second lookup included; CallAmidRivals says what AppendAmid means. */
    method AppendAction(input: Input, fault: Fault, race: Race) returns (r: Result<LogEntry, AppendError>)
      requires RowsOk(rows)
      modifies this
      ensures RowsOk(rows)
      ensures (rows, r) == AppendAmid(old(rows), input, race, fault)
    {
      var looked: Option<LogEntry> := None;
      if fault != NotStored && input.clientRequestId.Some? {
        looked := FindRequest(rows, input.clientRequestId.value);
      }
      var nextSeq := NextSeqAmid(race);
      if fault == NotStored {
        return Failure(DbError);
      }
      if looked.Some? {
        if Matches(looked.value, input) {
          return Success(looked.value);
        }
        return Failure(ActionConflict);
      }
      r := InsertOrReuse(input, nextSeq, race.seqReported, fault);
    }

    /** Rivals append while the insert takes its snapshot, before or after them. */
    method NextSeqAmid(race: Race) returns (nextSeq: int)
      requires RowsOk(rows)
      modifies this
      ensures rows == Grown(old(rows), race.rivals)
      ensures RowsOk(rows)
      ensures nextSeq == MaxSeq(if race.stale then old(rows) else rows) + 1
      ensures 1 <= nextSeq <= |rows| + 1
    {
      MaxSeqOfDense(rows);
      var snapshot := MaxSeq(rows);
      GrownOnly(rows, race.rivals);
      AppendRivals(race.rivals);
      MaxSeqOfDense(rows);
      nextSeq := if race.stale then snapshot + 1 else MaxSeq(rows) + 1;
    }

    /** The insert, and the second lookup when it lost on the dedup index. */
    method InsertOrReuse(input: Input, nextSeq: int, seqReported: bool, fault: Fault)
      returns (r: Result<LogEntry, AppendError>)
      requires RowsOk(rows) && 1 <= nextSeq <= |rows| + 1
      modifies this
      ensures RowsOk(rows)
      ensures (rows, r) == InsertOutcome(old(rows), input, nextSeq, seqReported, fault)
    {
      InsertOutcomeKeepsRowsOk(rows, input, nextSeq, seqReported, fault);
      var inserted := InsertNext(input, nextSeq, seqReported, fault);
      if inserted.Success? {
        return Success(inserted.value);
      }
      if inserted.error != DedupViolation || input.clientRequestId.None? {
        return Failure(DbError);
      }
      var winner := FindRequest(rows, input.clientRequestId.value);
      r := if winner.None? then Failure(DbError) else Reuse(winner.value, input);
    }

    /** The cursor over ORDER BY seq, copied row by row; over dense rows that is the log itself. */
    method ListActions() returns (actions: seq<LogEntry>)
      requires RowsOk(rows)
      ensures actions == rows
    {
      var cursor := OrderBySeq(rows);
      actions := [];
      for i := 0 to |cursor|
        invariant actions == cursor[..i]
      {
        actions := actions + [cursor[i]];
      }
      OrderOfDense(rows);
    }
  }

  lemma AppendKeepsRowsOk(rows: seq<LogEntry>, input: Input, fault: Fault)
    requires RowsOk(rows)
    ensures RowsOk(AppendOutcome(rows, input, fault).0)
  {
    RowsNumberAndRequestFree(rows, input);
    var row := RowFor(input, |rows| + 1);
    if ShapeCheck(row) && !RequestTaken(rows, input.clientRequestId) {
      InsertKeepsRowsOk(rows, row);
    }
  }

  lemma {:induction false} GrownOnly(rows: seq<LogEntry>, rivals: seq<Input>)
    ensures rows <= Grown(rows, rivals)
  {
    if rivals != [] {
      GrownOnly(rows, rivals[..|rivals| - 1]);
    }
  }

  lemma InsertOutcomeKeepsRowsOk(rows: seq<LogEntry>, input: Input, nextSeq: int, seqReported: bool, fault: Fault)
    requires RowsOk(rows) && 1 <= nextSeq <= |rows| + 1
    ensures RowsOk(InsertOutcome(rows, input, nextSeq, seqReported, fault).0)
  {
    var row := RowFor(input, nextSeq);
    if ShapeCheck(row) && !SeqTaken(rows, nextSeq) && !RequestTaken(rows, input.clientRequestId) {
      InsertKeepsRowsOk(rows, row);
    }
  }

  /** Without rivals a call is exactly AppendOutcome. */
  lemma AloneIsUninterrupted(rows: seq<LogEntry>, input: Input, fault: Fault)
    requires RowsOk(rows)
    ensures AppendAmid(rows, input, ALONE, fault) == AppendOutcome(rows, input, fault)
  {
    RowsNumberAndRequestFree(rows, input);
  }

  /** A single rival with a new request. */
  lemma GrownByOne(rows: seq<LogEntry>, other: string, req: string)
    requires RowsOk(rows) && FindRequest(rows, req).None?
    ensures var rival := Input(PLAYER, Some(other), Some(req));
            var row := RowFor(rival, |rows| + 1);
            Grown(rows, [rival]) == rows + [row] && RowsOk(rows + [row])
            && MaxSeq(rows) == |rows| && MaxSeq(rows + [row]) == |rows| + 1
  {
    var rival := Input(PLAYER, Some(other), Some(req));
    RowsNumberAndRequestFree(rows, rival);
    assert [rival][..0] == [] && Grown(rows, []) == rows;
    AppendKeepsRowsOk(rows, rival, NoFault);
    MaxSeqOfDense(rows + [RowFor(rival, |rows| + 1)]);
  }

  /** The insert of the second caller, with a stale or a fresh seq. */
  lemma InsertAfterRival(rows: seq<LogEntry>, row: LogEntry, key: string, req: string, stale: bool, seqReported: bool)
    requires RowsOk(rows + [row]) && row.clientRequestId == Some(req) && row.actionType == PLAYER && row.actionKey.Some?
    ensures var input := Input(PLAYER, Some(key), Some(req));
            InsertOutcome(rows + [row], input, if stale then |rows| + 1 else |rows| + 2, seqReported, NoFault)
            == (rows + [row], if stale && seqReported then Failure(DbError)
                              else if row.actionKey == Some(key) then Success(row) else Failure(ActionConflict))
  {
    var more := rows + [row];
    TakenInDense(more, |rows| + 1);
    TakenInDense(more, |rows| + 2);
    assert more[|rows|] == row;
    assert RequestTaken(more, Some(req)) && FindRequest(more, req) == Some(row);
  }

  /**
   Two callers race with the same request id. The loser stores nothing: it gets the winner's row if it asked for the
   same action and a conflict if not; only when its stale seq is what Postgres names does it see a plain error.
   */
  lemma RacedRequest(rows: seq<LogEntry>, key: string, other: string, req: string, stale: bool, seqReported: bool)
    requires RowsOk(rows) && FindRequest(rows, req).None?
    ensures var input, rival := Input(PLAYER, Some(key), Some(req)), Input(PLAYER, Some(other), Some(req));
            var row := RowFor(rival, |rows| + 1);
            AppendAmid(rows, input, Race([rival], stale, seqReported), NoFault)
            == (rows + [row], if stale && seqReported then Failure(DbError)
                              else if key == other then Success(row) else Failure(ActionConflict))
  {
    var input, rival := Input(PLAYER, Some(key), Some(req)), Input(PLAYER, Some(other), Some(req));
    GrownByOne(rows, other, req);
    NothingFound(rows, input, Race([rival], stale, seqReported), NoFault);
    InsertAfterRival(rows, RowFor(rival, |rows| + 1), key, req, stale, seqReported);
  }

  // ----- the same call in the transition system -----

  /** Call 0 of the transition system, its lookup done and its snapshot taken, with the rivals' rows in between. */
  function Poised(rows: seq<LogEntry>, input: Input, race: Race): Table {
    var looked := Step(Step(Table(rows, []), Begin(input)), Lookup(0));
    var read := if race.stale then Step(looked, ReadMax(0)) else looked;
    Step(read.(rows := Grown(rows, race.rivals)), ReadMax(0))
  }

  lemma LookedCall(rows: seq<LogEntry>, input: Input)
    ensures var found := if input.clientRequestId.Some? then FindRequest(rows, input.clientRequestId.value) else None;
            Step(Step(Table(rows, []), Begin(input)), Lookup(0))
            == Table(rows, [Call(input, if found.Some? then Done(Reuse(found.value, input)) else Reading)])
  {
    assert Step(Table(rows, []), Begin(input)) == Table(rows, [Call(input, Looking)]);
  }

  lemma PoisedCall(rows: seq<LogEntry>, input: Input, race: Race)
    ensures var grown := Grown(rows, race.rivals);
            var found := if input.clientRequestId.Some? then FindRequest(rows, input.clientRequestId.value) else None;
            Poised(rows, input, race)
            == Table(grown, [Call(input, if found.Some? then Done(Reuse(found.value, input))
                                         else Inserting(MaxSeq(if race.stale then rows else grown) + 1))])
  {
    LookedCall(rows, input);
  }

  /** The insert and the second lookup as steps of the transition system. */
  lemma InsertInTable(t: Table, nextSeq: int, seqReported: bool, ackLost: bool)
    requires RowsOk(t.rows) && 1 <= nextSeq <= |t.rows| + 1
    requires |t.calls| == 1 && t.calls[0].state == Inserting(nextSeq)
    ensures var input := t.calls[0].input;
            var outcome := InsertOutcome(t.rows, input, nextSeq, seqReported, if ackLost then AckLost else NoFault);
            Step(Step(t, Insert(0, seqReported, ackLost)), Recheck(0))
            == Table(outcome.0, [Call(input, Done(outcome.1))])
  {
    var input := t.calls[0].input;
    var inserted := InsertRow(t, 0, nextSeq, seqReported, ackLost);
    assert inserted.calls == [Call(input, inserted.calls[0].state)];
    if inserted.calls[0].state == Rechecking {
      FindRequestMeaning(t.rows, input.clientRequestId.value);
      var found := FindRequest(t.rows, input.clientRequestId.value).value;
      assert Step(inserted, Recheck(0)) == Table(t.rows, [Call(input, Done(Reuse(found, input)))]);
    } else {
      assert Step(inserted, Recheck(0)) == inserted;
    }
  }

  lemma DoneStaysDone(t: Table, seqReported: bool, ackLost: bool)
    requires |t.calls| == 1 && t.calls[0].state.Done?
    ensures Step(Step(t, Insert(0, seqReported, ackLost)), Recheck(0)) == t
  {
    assert Step(t, Insert(0, seqReported, ackLost)) == t;
  }

  /** AppendAmid is what a call of the transition system does amid those rivals, its second lookup included. */
  lemma CallAmidRivals(rows: seq<LogEntry>, input: Input, race: Race, ackLost: bool)
    requires RowsOk(rows)
    ensures var outcome := AppendAmid(rows, input, race, if ackLost then AckLost else NoFault);
            Step(Step(Poised(rows, input, race), Insert(0, race.seqReported, ackLost)), Recheck(0))
            == Table(outcome.0, [Call(input, Done(outcome.1))])
  {
    PoisedCall(rows, input, race);
    SettledCall(rows, input, race, ackLost, Poised(rows, input, race));
  }

  lemma NextSeqInRange(rows: seq<LogEntry>, race: Race)
    requires RowsOk(rows)
    ensures var grown := Grown(rows, race.rivals);
            RowsOk(grown) && 1 <= MaxSeq(if race.stale then rows else grown) + 1 <= |grown| + 1
  {
    GrownOnly(rows, race.rivals);
    GrownRowsOk(rows, race.rivals);
    MaxSeqOfDense(rows);
    MaxSeqOfDense(Grown(rows, race.rivals));
  }

  /** A call whose lookup found nothing goes on to insert. */
  lemma NothingFound(rows: seq<LogEntry>, input: Input, race: Race, fault: Fault)
    requires input.clientRequestId.Some? ==> FindRequest(rows, input.clientRequestId.value).None?
    requires fault != NotStored
    ensures var grown := Grown(rows, race.rivals);
            AppendAmid(rows, input, race, fault)
            == InsertOutcome(grown, input, MaxSeq(if race.stale then rows else grown) + 1, race.seqReported, fault)
  {
  }

  lemma SettledCall(rows: seq<LogEntry>, input: Input, race: Race, ackLost: bool, t: Table)
    requires RowsOk(rows)
    requires var grown := Grown(rows, race.rivals);
             var found := if input.clientRequestId.Some? then FindRequest(rows, input.clientRequestId.value) else None;
             t == Table(grown, [Call(input, if found.Some? then Done(Reuse(found.value, input))
                                            else Inserting(MaxSeq(if race.stale then rows else grown) + 1))])
    ensures var outcome := AppendAmid(rows, input, race, if ackLost then AckLost else NoFault);
            Step(Step(t, Insert(0, race.seqReported, ackLost)), Recheck(0))
            == Table(outcome.0, [Call(input, Done(outcome.1))])
  {
    if t.calls[0].state.Done? {
      DoneStaysDone(t, race.seqReported, ackLost);
    } else {
      NextSeqInRange(rows, race);
      NothingFound(rows, input, race, if ackLost then AckLost else NoFault);
      InsertInTable(t, t.calls[0].state.nextSeq, race.seqReported, ackLost);
    }
  }

  lemma {:induction false} GrownRowsOk(rows: seq<LogEntry>, rivals: seq<Input>)
    requires RowsOk(rows)
    ensures RowsOk(Grown(rows, rivals))
  {
    if rivals != [] {
      GrownRowsOk(rows, rivals[..|rivals| - 1]);
      AppendKeepsRowsOk(Grown(rows, rivals[..|rivals| - 1]), rivals[|rivals| - 1], NoFault);
    }
  }
}
