/**
 The run_actions rows of one run, in insertion order. Every statement in run_repo.go is scoped by
 run_id and so are both unique constraints, so runs do not interact. AppendAction is modelled
 statement by statement, with any number of calls interleaved between their statements.
 */
module ActionTable {
  import opened Prelude
  import opened Simulation

  datatype Input = Input(actionType: string, actionKey: Option<string>, clientRequestId: Option<string>)

  datatype AppendError = ActionConflict | DbError

  // ----- what the statements compute -----

  /** The CHECK constraint on action_type, action_key and client_request_id. */
  predicate ShapeCheck(e: LogEntry) {
    || (e.actionType == PLAYER && e.actionKey.Some? && e.clientRequestId.Some?)
    || (e.actionType == TICK && e.actionKey.None? && e.clientRequestId.None?)
  }

  /** COALESCE(MAX(seq), 0). */
  function MaxSeq(rows: seq<LogEntry>): int {
    if rows == [] then 0
    else if |rows| == 1 then rows[0].seqNo
    else
      var m, last := MaxSeq(rows[..|rows| - 1]), rows[|rows| - 1].seqNo;
      if m < last then last else m
  }

  function FindRequest(rows: seq<LogEntry>, req: string): Option<LogEntry> {
    if rows == [] then None
    else if rows[|rows| - 1].clientRequestId == Some(req) then Some(rows[|rows| - 1])
    else FindRequest(rows[..|rows| - 1], req)
  }

  predicate SeqTaken(rows: seq<LogEntry>, n: int) {
    exists i :: 0 <= i < |rows| && rows[i].seqNo == n
  }

  /** The partial unique index: rows without a request id never clash. */
  predicate RequestTaken(rows: seq<LogEntry>, req: Option<string>) {
    req.Some? && exists i :: 0 <= i < |rows| && rows[i].clientRequestId == req
  }

  function RowFor(input: Input, n: int): LogEntry {
    LogEntry(n, input.actionType, input.actionKey, input.clientRequestId)
  }

  predicate Matches(row: LogEntry, input: Input) {
    row.actionType == input.actionType && row.actionKey == input.actionKey
  }

  function Reuse(row: LogEntry, input: Input): Result<LogEntry, AppendError> {
    if Matches(row, input) then Success(row) else Failure(ActionConflict)
  }

  lemma {:induction false} FindRequestMeaning(rows: seq<LogEntry>, req: string)
    ensures FindRequest(rows, req).Some? <==> RequestTaken(rows, Some(req))
    ensures FindRequest(rows, req).Some? ==> FindRequest(rows, req).value in rows
    ensures FindRequest(rows, req).Some? ==> FindRequest(rows, req).value.clientRequestId == Some(req)
  {
    if rows != [] {
      var front := rows[..|rows| - 1];
      FindRequestMeaning(front, req);
      assert rows == front + [rows[|rows| - 1]];
      if RequestTaken(rows, Some(req)) && rows[|rows| - 1].clientRequestId != Some(req) {
        var i :| 0 <= i < |rows| && rows[i].clientRequestId == Some(req);
        assert front[i].clientRequestId == Some(req);
      }
    }
  }

  // ----- interleaved calls -----

  datatype CallState =
    | Looking
    | Reading
    | Inserting(nextSeq: int)
    | Rechecking
    | Done(result: Result<LogEntry, AppendError>)

  datatype Call = Call(input: Input, state: CallState)

  datatype Table = Table(rows: seq<LogEntry>, calls: seq<Call>)

  datatype Event =
    | Begin(input: Input)
    | Lookup(i: nat)
    /** The insert statement takes its snapshot here; what it reads may be stale when it inserts. */
    | ReadMax(i: nat)
    /**
     seqReported: which constraint Postgres names when both clash; ackLost: the row is stored but the caller
     sees an error.
     */
    | Insert(i: nat, seqReported: bool, ackLost: bool)
    | Recheck(i: nat)
    | Fail(i: nat)

  function Advance(t: Table, i: nat, s: CallState): Table
    requires i < |t.calls|
  {
    t.(calls := t.calls[i := t.calls[i].(state := s)])
  }

  function InsertRow(t: Table, i: nat, n: int, seqReported: bool, ackLost: bool): Table
    requires i < |t.calls|
  {
    var input := t.calls[i].input;
    var row := RowFor(input, n);
    if !ShapeCheck(row) then Advance(t, i, Done(Failure(DbError)))
    else if !SeqTaken(t.rows, n) && !RequestTaken(t.rows, input.clientRequestId) then
      Advance(t.(rows := t.rows + [row]), i, Done(if ackLost then Failure(DbError) else Success(row)))
    else if RequestTaken(t.rows, input.clientRequestId) && !(SeqTaken(t.rows, n) && seqReported) then
      Advance(t, i, Rechecking)
    else Advance(t, i, Done(Failure(DbError)))
  }

  function Step(t: Table, ev: Event): Table {
    match ev
    case Begin(input) => t.(calls := t.calls + [Call(input, Looking)])
    case Lookup(i) =>
      if i < |t.calls| && t.calls[i].state == Looking then
        var input := t.calls[i].input;
        if input.clientRequestId.None? then Advance(t, i, Reading)
        else
          var found := FindRequest(t.rows, input.clientRequestId.value);
          Advance(t, i, if found.Some? then Done(Reuse(found.value, input)) else Reading)
      else t
    case ReadMax(i) =>
      if i < |t.calls| && t.calls[i].state == Reading then Advance(t, i, Inserting(MaxSeq(t.rows) + 1)) else t
    case Insert(i, seqReported, ackLost) =>
      if i < |t.calls| && t.calls[i].state.Inserting? then
        InsertRow(t, i, t.calls[i].state.nextSeq, seqReported, ackLost)
      else t
    case Recheck(i) =>
      if i < |t.calls| && t.calls[i].state == Rechecking && t.calls[i].input.clientRequestId.Some? then
        var input := t.calls[i].input;
        var found := FindRequest(t.rows, input.clientRequestId.value);
        Advance(t, i, Done(if found.Some? then Reuse(found.value, input) else Failure(DbError)))
      else t
    case Fail(i) =>
      if i < |t.calls| && !t.calls[i].state.Done? then Advance(t, i, Done(Failure(DbError))) else t
  }

  function RunTable(events: seq<Event>): Table {
    if events == [] then Table([], []) else Step(RunTable(events[..|events| - 1]), events[|events| - 1])
  }

  // ----- what every interleaving keeps -----

  /** Rows are numbered 1..n in insertion order. */
  ghost predicate Dense(rows: seq<LogEntry>) {
    forall i | 0 <= i < |rows| :: rows[i].seqNo == i + 1
  }

  ghost predicate RequestsUnique(rows: seq<LogEntry>) {
    forall i, j | 0 <= i < j < |rows| && rows[i].clientRequestId.Some? ::
      rows[i].clientRequestId != rows[j].clientRequestId
  }

  ghost predicate WellShaped(rows: seq<LogEntry>) {
    forall i | 0 <= i < |rows| :: ShapeCheck(rows[i])
  }

  ghost predicate RowsOk(rows: seq<LogEntry>) {
    Dense(rows) && RequestsUnique(rows) && WellShaped(rows)
  }

  /** What a call may believe while others run. */
  ghost predicate CallOk(rows: seq<LogEntry>, c: Call) {
    match c.state
    case Looking => true
    case Reading => true
    case Inserting(n) => 1 <= n <= |rows| + 1
    case Rechecking => RequestTaken(rows, c.input.clientRequestId)
    case Done(Success(row)) => row in rows && row == RowFor(c.input, row.seqNo)
    case Done(Failure(ActionConflict)) =>
      exists row :: row in rows && row.clientRequestId == c.input.clientRequestId && row.clientRequestId.Some?
                    && !Matches(row, c.input)
    case Done(Failure(DbError)) => true
  }

  ghost predicate AskedFor(row: LogEntry, calls: seq<Call>) {
    exists i :: 0 <= i < |calls| && row == RowFor(calls[i].input, row.seqNo)
  }

  /** Every row was asked for by some call. */
  ghost predicate Wanted(t: Table) {
    forall r | 0 <= r < |t.rows| :: AskedFor(t.rows[r], t.calls)
  }

  ghost predicate Succeeded(c: Call) {
    c.state.Done? && c.state.result.Success?
  }

  /** Calls without a request id never share a row. */
  ghost predicate OwnRows(calls: seq<Call>) {
    forall i, j | 0 <= i < j < |calls| && Succeeded(calls[i]) && calls[j].state == calls[i].state ::
      calls[i].input.clientRequestId.Some?
  }

  ghost predicate CallsOk(rows: seq<LogEntry>, calls: seq<Call>) {
    forall i | 0 <= i < |calls| :: CallOk(rows, calls[i])
  }

  ghost predicate TableOk(t: Table) {
    RowsOk(t.rows) && CallsOk(t.rows, t.calls) && Wanted(t) && OwnRows(t.calls)
  }

  lemma {:induction false} MaxSeqOfDense(rows: seq<LogEntry>)
    requires Dense(rows)
    ensures MaxSeq(rows) == |rows|
  {
    if |rows| > 1 {
      MaxSeqOfDense(rows[..|rows| - 1]);
    }
  }

  lemma TakenInDense(rows: seq<LogEntry>, n: int)
    requires Dense(rows)
    ensures SeqTaken(rows, n) <==> 1 <= n <= |rows|
  {
    if 1 <= n <= |rows| {
      assert rows[n - 1].seqNo == n;
    }
  }

  /** Growing the table keeps what other calls believe. */
  lemma CallOkGrows(rows: seq<LogEntry>, row: LogEntry, c: Call)
    requires CallOk(rows, c)
    ensures CallOk(rows + [row], c)
  {
    var more := rows + [row];
    assert forall r :: r in rows ==> r in more;
    if RequestTaken(rows, c.input.clientRequestId) {
      var i :| 0 <= i < |rows| && rows[i].clientRequestId == c.input.clientRequestId;
      assert more[i].clientRequestId == c.input.clientRequestId;
    }
  }

  /** A stale sequence number either loses to the unique constraint or was not stale. */
  lemma InsertKeepsRowsOk(rows: seq<LogEntry>, row: LogEntry)
    requires RowsOk(rows) && ShapeCheck(row) && 1 <= row.seqNo <= |rows| + 1
    requires !SeqTaken(rows, row.seqNo) && !RequestTaken(rows, row.clientRequestId)
    ensures row.seqNo == |rows| + 1 && RowsOk(rows + [row])
  {
    TakenInDense(rows, row.seqNo);
  }

  lemma ReuseOk(rows: seq<LogEntry>, input: Input)
    requires input.clientRequestId.Some? && FindRequest(rows, input.clientRequestId.value).Some?
    ensures CallOk(rows, Call(input, Done(Reuse(FindRequest(rows, input.clientRequestId.value).value, input))))
  {
    FindRequestMeaning(rows, input.clientRequestId.value);
  }

  /** Calls may move and new ones begin, as long as each keeps its input: every row stays asked for. */
  lemma WantedStays(t: Table, calls: seq<Call>)
    requires Wanted(t) && |t.calls| <= |calls|
    requires forall i | 0 <= i < |t.calls| :: calls[i].input == t.calls[i].input
    ensures Wanted(t.(calls := calls))
  {
    forall r | 0 <= r < |t.rows| ensures AskedFor(t.rows[r], calls) {
      assert AskedFor(t.rows[r], t.calls);
      var i :| 0 <= i < |t.calls| && t.rows[r] == RowFor(t.calls[i].input, t.rows[r].seqNo);
      assert calls[i].input == t.calls[i].input;
    }
  }

  /** A call that ends without a row of its own, or with one found by its request id, shares no row it should not. */
  lemma OwnRowsStay(rows: seq<LogEntry>, calls: seq<Call>, i: nat, s: CallState)
    requires CallsOk(rows, calls) && OwnRows(calls) && i < |calls| && CallOk(rows, calls[i].(state := s))
    requires s.Done? && s.result.Success? ==> calls[i].input.clientRequestId.Some?
    ensures OwnRows(calls[i := calls[i].(state := s)])
  {
    var moved := calls[i := calls[i].(state := s)];
    forall a | 0 <= a < i && Succeeded(calls[a]) && s == calls[a].state
      ensures calls[a].input.clientRequestId.Some?
    {
      assert CallOk(rows, calls[a]);
      var row := s.result.value;
      assert row == RowFor(calls[a].input, row.seqNo) && row == RowFor(calls[i].input, row.seqNo);
    }
  }

  /** Moving one call without touching the rows. */
  lemma AdvanceKeepsTableOk(t: Table, i: nat, s: CallState)
    requires TableOk(t) && i < |t.calls| && CallOk(t.rows, t.calls[i].(state := s))
    requires s.Done? && s.result.Success? ==> t.calls[i].input.clientRequestId.Some?
    ensures TableOk(Advance(t, i, s))
  {
    WantedStays(t, Advance(t, i, s).calls);
    OwnRowsStay(t.rows, t.calls, i, s);
  }

  lemma GrownCallsOk(rows: seq<LogEntry>, row: LogEntry, calls: seq<Call>)
    requires CallsOk(rows, calls)
    ensures CallsOk(rows + [row], calls)
  {
    forall i | 0 <= i < |calls| ensures CallOk(rows + [row], calls[i]) {
      CallOkGrows(rows, row, calls[i]);
    }
  }

  /** A row that is new to the table is new to every call. */
  lemma NewRowIsOwn(rows: seq<LogEntry>, calls: seq<Call>, i: nat, row: LogEntry)
    requires CallsOk(rows, calls) && OwnRows(calls) && i < |calls| && row !in rows
    ensures OwnRows(calls[i := calls[i].(state := Done(Success(row)))])
  {
    forall a | 0 <= a < |calls| && Succeeded(calls[a]) ensures calls[a].state != Done(Success(row)) {
      assert CallOk(rows, calls[a]);
    }
  }

  lemma StoreKeepsTableOk(t: Table, i: nat, ackLost: bool)
    requires TableOk(t) && i < |t.calls| && t.calls[i].state.Inserting?
    requires var row := RowFor(t.calls[i].input, t.calls[i].state.nextSeq);
             ShapeCheck(row) && !SeqTaken(t.rows, row.seqNo) && !RequestTaken(t.rows, row.clientRequestId)
    ensures TableOk(InsertRow(t, i, t.calls[i].state.nextSeq, false, ackLost))
  {
    var row := RowFor(t.calls[i].input, t.calls[i].state.nextSeq);
    var s := Done(if ackLost then Failure(DbError) else Success(row));
    var u := InsertRow(t, i, t.calls[i].state.nextSeq, false, ackLost);
    assert u == Table(t.rows + [row], t.calls[i := t.calls[i].(state := s)]);
    assert CallOk(t.rows, t.calls[i]);
    InsertKeepsRowsOk(t.rows, row);
    GrownCallsOk(t.rows, row, t.calls);
    assert u.rows[|t.rows|] == row;
    assert CallOk(u.rows, u.calls[i]);
    WantedStays(t, u.calls);
    assert AskedFor(row, u.calls) by { assert row == RowFor(u.calls[i].input, row.seqNo); }
    assert row !in t.rows by { assert forall r | 0 <= r < |t.rows| :: t.rows[r].seqNo != row.seqNo; }
    if ackLost {
      OwnRowsStay(t.rows, t.calls, i, s);
    } else {
      NewRowIsOwn(t.rows, t.calls, i, row);
    }
  }

  lemma BeginKeepsTableOk(t: Table, input: Input)
    requires TableOk(t)
    ensures TableOk(Step(t, Begin(input)))
  {
    WantedStays(t, Step(t, Begin(input)).calls);
  }

  /** A lookup that finds the request ends the call with what it found. */
  lemma ReuseKeepsTableOk(t: Table, i: nat)
    requires TableOk(t) && i < |t.calls| && t.calls[i].input.clientRequestId.Some?
    requires FindRequest(t.rows, t.calls[i].input.clientRequestId.value).Some?
    ensures var input := t.calls[i].input;
            TableOk(Advance(t, i, Done(Reuse(FindRequest(t.rows, input.clientRequestId.value).value, input))))
  {
    var input := t.calls[i].input;
    ReuseOk(t.rows, input);
    AdvanceKeepsTableOk(t, i, Done(Reuse(FindRequest(t.rows, input.clientRequestId.value).value, input)));
  }

  lemma LookupKeepsTableOk(t: Table, i: nat)
    requires TableOk(t) && i < |t.calls| && t.calls[i].state == Looking
    ensures TableOk(Step(t, Lookup(i)))
  {
    var input := t.calls[i].input;
    if input.clientRequestId.Some? && FindRequest(t.rows, input.clientRequestId.value).Some? {
      ReuseKeepsTableOk(t, i);
    } else {
      AdvanceKeepsTableOk(t, i, Reading);
    }
  }

  lemma RecheckKeepsTableOk(t: Table, i: nat)
    requires TableOk(t) && i < |t.calls| && t.calls[i].state == Rechecking && t.calls[i].input.clientRequestId.Some?
    ensures TableOk(Step(t, Recheck(i)))
  {
    assert CallOk(t.rows, t.calls[i]);
    FindRequestMeaning(t.rows, t.calls[i].input.clientRequestId.value);
    ReuseKeepsTableOk(t, i);
  }

  lemma InsertKeepsTableOk(t: Table, i: nat, seqReported: bool, ackLost: bool)
    requires TableOk(t) && i < |t.calls| && t.calls[i].state.Inserting?
    ensures TableOk(Step(t, Insert(i, seqReported, ackLost)))
  {
    var input, n := t.calls[i].input, t.calls[i].state.nextSeq;
    if ShapeCheck(RowFor(input, n)) && !SeqTaken(t.rows, n) && !RequestTaken(t.rows, input.clientRequestId) {
      StoreKeepsTableOk(t, i, ackLost);
    } else if ShapeCheck(RowFor(input, n)) && RequestTaken(t.rows, input.clientRequestId)
              && !(SeqTaken(t.rows, n) && seqReported) {
      AdvanceKeepsTableOk(t, i, Rechecking);
    } else {
      AdvanceKeepsTableOk(t, i, Done(Failure(DbError)));
    }
  }

  lemma StepKeepsTableOk(t: Table, ev: Event)
    requires TableOk(t)
    ensures TableOk(Step(t, ev))
  {
    if Step(t, ev) != t {
      match ev
      case Begin(input) => BeginKeepsTableOk(t, input);
      case Lookup(i) => LookupKeepsTableOk(t, i);
      case ReadMax(i) =>
        MaxSeqOfDense(t.rows);
        AdvanceKeepsTableOk(t, i, Inserting(MaxSeq(t.rows) + 1));
      case Insert(i, seqReported, ackLost) => InsertKeepsTableOk(t, i, seqReported, ackLost);
      case Recheck(i) => RecheckKeepsTableOk(t, i);
      case Fail(i) => AdvanceKeepsTableOk(t, i, Done(Failure(DbError)));
    }
  }

  /** Rows are only ever added at the end. */
  lemma StepAppends(t: Table, ev: Event)
    ensures t.rows <= Step(t, ev).rows && |Step(t, ev).rows| <= |t.rows| + 1
  {
  }

  /** Over every interleaving: seqs are exactly 1..n, request ids unique, and every answer agrees with the table. */
  lemma {:induction false} EveryInterleavingKeepsTable(events: seq<Event>)
    ensures TableOk(RunTable(events))
  {
    if events != [] {
      EveryInterleavingKeepsTable(events[..|events| - 1]);
      StepKeepsTableOk(RunTable(events[..|events| - 1]), events[|events| - 1]);
    }
  }

  /** All calls that succeed for one request id get the same row; one asking for another action does not succeed. */
  lemma SameRequestSameRow(events: seq<Event>, i: nat, j: nat)
    requires i < |RunTable(events).calls| && j < |RunTable(events).calls|
    requires RunTable(events).calls[i].input.clientRequestId.Some?
    requires RunTable(events).calls[j].input.clientRequestId == RunTable(events).calls[i].input.clientRequestId
    requires RunTable(events).calls[i].state.Done? && RunTable(events).calls[i].state.result.Success?
    requires RunTable(events).calls[j].state.Done?
    ensures RunTable(events).calls[j].state.result.Success? ==>
              && RunTable(events).calls[j].state == RunTable(events).calls[i].state
              && RunTable(events).calls[j].input == RunTable(events).calls[i].input
    ensures RunTable(events).calls[j].state.result == Failure(ActionConflict) ==>
              RunTable(events).calls[j].input != RunTable(events).calls[i].input
  {
    var t := RunTable(events);
    EveryInterleavingKeepsTable(events);
    assert CallOk(t.rows, t.calls[i]) && CallOk(t.rows, t.calls[j]);
  }

  /** Dense, well-shaped rows pass Replay's shape checks: only the simulation itself can refuse them. */
  lemma {:induction false} StoredLogIsWellFormed(spec: Spec, rows: seq<LogEntry>)
    requires Dense(rows) && WellShaped(rows)
    ensures Replay(spec, rows) != Failure(InvalidReplayLog)
  {
    if rows != [] {
      StoredLogIsWellFormed(spec, rows[..|rows| - 1]);
      assert ShapeCheck(rows[|rows| - 1]);
    }
  }

  lemma EveryStoredLogIsWellFormed(spec: Spec, events: seq<Event>)
    ensures Replay(spec, RunTable(events).rows) != Failure(InvalidReplayLog)
    ensures OrderBySeq(RunTable(events).rows) == RunTable(events).rows
  {
    EveryInterleavingKeepsTable(events);
    StoredLogIsWellFormed(spec, RunTable(events).rows);
    OrderOfDense(RunTable(events).rows);
  }

  // ----- losing the race -----

  /** An insert that meets its request id, and is not refused for its seq, goes back to look. */
  lemma DedupLoserRechecks(t: Table, i: nat, seqReported: bool, ackLost: bool)
    requires i < |t.calls| && t.calls[i].state.Inserting?
    requires var row := RowFor(t.calls[i].input, t.calls[i].state.nextSeq);
             && ShapeCheck(row) && RequestTaken(t.rows, row.clientRequestId)
             && (!SeqTaken(t.rows, row.seqNo) || !seqReported)
    ensures Step(t, Insert(i, seqReported, ackLost)) == Advance(t, i, Rechecking)
  {
  }

  /** One that meets only its seq, or is refused for it, fails. */
  lemma SeqLoserFails(t: Table, i: nat, seqReported: bool, ackLost: bool)
    requires i < |t.calls| && t.calls[i].state.Inserting?
    requires var row := RowFor(t.calls[i].input, t.calls[i].state.nextSeq);
             SeqTaken(t.rows, row.seqNo) && (seqReported || !RequestTaken(t.rows, row.clientRequestId))
    ensures Step(t, Insert(i, seqReported, ackLost)) == Advance(t, i, Done(Failure(DbError)))
  {
  }

  /** The recheck ends with the winner's row if it is the same action, and with ActionConflict if it is another. */
  lemma LoserGetsWinner(t: Table, i: nat, row: LogEntry)
    requires TableOk(t) && i < |t.calls| && t.calls[i].state == Rechecking
    requires row in t.rows && row.clientRequestId == t.calls[i].input.clientRequestId
    ensures var input := t.calls[i].input;
            var same := row.actionType == input.actionType && row.actionKey == input.actionKey;
            Step(t, Recheck(i)) == Advance(t, i, Done(if same then Success(row) else Failure(ActionConflict)))
  {
    assert CallOk(t.rows, t.calls[i]);
    var req := t.calls[i].input.clientRequestId.value;
    FindRequestMeaning(t.rows, req);
    var p :| 0 <= p < |t.rows| && t.rows[p] == row;
    var q :| 0 <= q < |t.rows| && t.rows[q] == FindRequest(t.rows, req).value;
    assert p == q;
  }

  // ----- one call at a time -----

  /** NotStored: an error and no row; AckLost: the row is stored but an error is returned. */
  datatype Fault = NoFault | NotStored | AckLost

  /** AppendAction with nothing in between its statements: the new rows and the answer. */
  function AppendOutcome(rows: seq<LogEntry>, input: Input, fault: Fault)
    : (seq<LogEntry>, Result<LogEntry, AppendError>)
  {
    if fault == NotStored then (rows, Failure(DbError))
    else if input.clientRequestId.Some? && FindRequest(rows, input.clientRequestId.value).Some? then
      (rows, Reuse(FindRequest(rows, input.clientRequestId.value).value, input))
    else
      var row := RowFor(input, MaxSeq(rows) + 1);
      if !ShapeCheck(row) then (rows, Failure(DbError))
      else (rows + [row], if fault == AckLost then Failure(DbError) else Success(row))
  }

  lemma RowsNumberAndRequestFree(rows: seq<LogEntry>, input: Input)
    requires RowsOk(rows)
    ensures MaxSeq(rows) == |rows| && !SeqTaken(rows, |rows| + 1)
    ensures RequestTaken(rows, input.clientRequestId) <==>
            input.clientRequestId.Some? && FindRequest(rows, input.clientRequestId.value).Some?
  {
    MaxSeqOfDense(rows);
    if input.clientRequestId.Some? {
      FindRequestMeaning(rows, input.clientRequestId.value);
    }
  }

  /** A call whose statements run back to back, in any reachable table, does exactly that. */
  lemma UninterruptedCall(t: Table, input: Input, seqReported: bool, ackLost: bool)
    requires RowsOk(t.rows)
    ensures var i := |t.calls|;
            var u := Step(Step(Step(Step(t, Begin(input)), Lookup(i)), ReadMax(i)), Insert(i, seqReported, ackLost));
            var outcome := AppendOutcome(t.rows, input, if ackLost then AckLost else NoFault);
            u == Table(outcome.0, t.calls + [Call(input, Done(outcome.1))])
  {
    RowsNumberAndRequestFree(t.rows, input);
    var i := |t.calls|;
    var begun := Step(t, Begin(input));
    assert begun == Table(t.rows, t.calls + [Call(input, Looking)]);
    var looked := Step(begun, Lookup(i));
    if RequestTaken(t.rows, input.clientRequestId) {
      var found := FindRequest(t.rows, input.clientRequestId.value).value;
      assert looked == Table(t.rows, t.calls + [Call(input, Done(Reuse(found, input)))]);
    } else {
      assert looked == Table(t.rows, t.calls + [Call(input, Reading)]);
      var read := Step(looked, ReadMax(i));
      assert read == Table(t.rows, t.calls + [Call(input, Inserting(|t.rows| + 1))]);
    }
  }

  // ----- ORDER BY seq -----

  function InsertBySeq(rows: seq<LogEntry>, e: LogEntry): seq<LogEntry> {
    if rows == [] then [e]
    else if rows[|rows| - 1].seqNo <= e.seqNo then rows + [e]
    else InsertBySeq(rows[..|rows| - 1], e) + [rows[|rows| - 1]]
  }

  function OrderBySeq(rows: seq<LogEntry>): seq<LogEntry> {
    if rows == [] then [] else InsertBySeq(OrderBySeq(rows[..|rows| - 1]), rows[|rows| - 1])
  }

  lemma {:induction false} OrderOfDense(rows: seq<LogEntry>)
    requires Dense(rows)
    ensures OrderBySeq(rows) == rows
  {
    if rows != [] {
      OrderOfDense(rows[..|rows| - 1]);
      assert rows == rows[..|rows| - 1] + [rows[|rows| - 1]];
    }
  }
}
