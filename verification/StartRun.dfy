/**
 The idempotency protocol of StartRun over one key: concurrent callers race through lookup, reserve,
 create, complete or delete. Statements on the key row are atomic; callers interleave between them.
 The key names a user and a request; the fingerprint names the room.
 */
module StartRun {
  import opened Prelude

  /** A run is its position in the runs table. */
  type RunId = nat
  type Fingerprint = string

  /** The idempotency_keys row: reserved while body is None. */
  datatype KeyRow = KeyRow(fingerprint: Fingerprint, body: Option<RunId>)

  datatype StartError = IdempotencyConflict | RequestInProgress | Internal

  /** Where a call stands; the states from Creating to CleaningUp are those of a call that made the reservation. */
  datatype Phase =
    | LookingUp
    | Reserving
    | LookingAgain
    | Creating
    | Completing(run: RunId)
    | CleaningUp
    | Minting(run: RunId)
    | Done(result: Result<RunId, StartError>)
    | Crashed

  datatype Call = Call(fingerprint: Fingerprint, phase: Phase)

  /**
   The key row; for each run these calls created, the room it was created for; and the runs whose UPDATE was
   given up on and may still land.
   */
  datatype Store = Store(row: Option<KeyRow>, runs: seq<Fingerprint>, late: set<RunId>)

  datatype Db = Db(store: Store, calls: seq<Call>)

  /**
   How a statement went, as its caller sees it; Unknown: an error although the statement took effect. A failed
   UPDATE has had no effect yet.
   */
  datatype Outcome = Ok | Failed | Unknown

  datatype Event =
    | Arrive(fingerprint: Fingerprint)
    | Advance(i: nat, outcome: Outcome)
    | Crash(i: nat)
    /** The UPDATE of a run whose call gave up on it takes effect after all. */
    | Land(run: RunId)

  /** lookupIdempotency: None means no row. */
  function Lookup(row: Option<KeyRow>, fingerprint: Fingerprint): Result<Option<RunId>, StartError> {
    match row
    case None => Success(None)
    case Some(r) =>
      if r.fingerprint != fingerprint then Failure(IdempotencyConflict)
      else if r.body.None? then Failure(RequestInProgress)
      else Success(r.body)
  }

  /** DELETE ... WHERE response_body IS NULL. */
  function DeleteIncomplete(row: Option<KeyRow>): Option<KeyRow> {
    if row.Some? && row.value.body.None? then None else row
  }

  /** UPDATE ... SET response_body, which touches the row whoever reserved it. */
  function Complete(row: Option<KeyRow>, run: RunId): Option<KeyRow> {
    if row.Some? then Some(row.value.(body := Some(run))) else None
  }

  /** The next statement of one call: the store and phase it leaves. */
  function NextPhase(s: Store, c: Call, outcome: Outcome): (Store, Phase) {
    match c.phase
    case LookingUp =>
      if outcome != Ok then (s, Done(Failure(Internal)))
      else
        (match Lookup(s.row, c.fingerprint)
         case Failure(e) => (s, Done(Failure(e)))
         case Success(Some(id)) => (s, Minting(id))
         case Success(None) => (s, Reserving))
    case Reserving =>
      var inserted := s.(row := if s.row.None? then Some(KeyRow(c.fingerprint, None)) else s.row);
      (match outcome
       case Ok => (inserted, if s.row.None? then Creating else LookingAgain)
       case Failed => (s, Done(Failure(Internal)))
       case Unknown => (inserted, Done(Failure(Internal))))
    case LookingAgain =>
      if outcome != Ok then (s, Done(Failure(Internal)))
      else
        (match Lookup(s.row, c.fingerprint)
         case Failure(e) => (s, Done(Failure(e)))
         case Success(Some(id)) => (s, Minting(id))
         case Success(None) => (s, Done(Failure(RequestInProgress))))
    case Creating =>
      var created := s.(runs := s.runs + [c.fingerprint]);
      (match outcome
       case Ok => (created, Completing(|s.runs|))
       case Failed => (s, CleaningUp)
       case Unknown => (created, CleaningUp))
    case Completing(id) =>
      (match outcome
       case Ok => (s.(row := Complete(s.row, id)), Minting(id))
       case Failed => (s.(late := s.late + {id}), CleaningUp)
       case Unknown => (s.(row := Complete(s.row, id)), CleaningUp))
    case CleaningUp => (if outcome == Failed then s else s.(row := DeleteIncomplete(s.row)), Done(Failure(Internal)))
    case Minting(id) => (s, Done(if outcome == Ok then Success(id) else Failure(Internal)))
    case Done(r) => (s, Done(r))
    case Crashed => (s, Crashed)
  }

  /** A call that dies while completing leaves its UPDATE under way. */
  function GivenUp(s: Store, phase: Phase): Store {
    if phase.Completing? then s.(late := s.late + {phase.run}) else s
  }

  function Landed(s: Store, run: RunId): Store {
    s.(row := Complete(s.row, run), late := s.late - {run})
  }

  function Step(db: Db, ev: Event): Db {
    match ev
    case Arrive(fp) => db.(calls := db.calls + [Call(fp, LookingUp)])
    case Advance(i, outcome) =>
      if i < |db.calls| then
        var (store, phase) := NextPhase(db.store, db.calls[i], outcome);
        Db(store, db.calls[i := db.calls[i].(phase := phase)])
      else db
    case Crash(i) =>
      if i < |db.calls| && !db.calls[i].phase.Done? then
        Db(GivenUp(db.store, db.calls[i].phase), db.calls[i := db.calls[i].(phase := Crashed)])
      else db
    case Land(run) => if run in db.store.late then db.(store := Landed(db.store, run)) else db
  }

  function RunFrom(db: Db, events: seq<Event>): Db {
    if events == [] then db else Step(RunFrom(db, events[..|events| - 1]), events[|events| - 1])
  }

  function Unused(): Db {
    Db(Store(None, [], {}), [])
  }

  /** From a key nobody has used. */
  function RunDb(events: seq<Event>): Db {
    RunFrom(Unused(), events)
  }

  // ----- invariant -----

  predicate Owns(c: Call) {
    c.phase.Creating? || c.phase.Completing? || c.phase.CleaningUp?
  }

  predicate Succeeded(c: Call) {
    c.phase.Done? && c.phase.result.Success?
  }

  ghost predicate MadeFor(runs: seq<Fingerprint>, run: RunId, fp: Fingerprint) {
    run < |runs| && runs[run] == fp
  }

  ghost predicate Holds(row: Option<KeyRow>, fp: Fingerprint, run: RunId) {
    row == Some(KeyRow(fp, Some(run)))
  }

  /** The stored run was created for the room the key stands for. */
  ghost predicate StoreOk(s: Store) {
    && (s.row.Some? && s.row.value.body.Some? ==> MadeFor(s.runs, s.row.value.body.value, s.row.value.fingerprint))
    && (forall run | run in s.late :: run < |s.runs|)
  }

  /** What a call's phase says about the store. */
  ghost predicate CallOk(s: Store, c: Call) {
    match c.phase
    case Creating => s.row == Some(KeyRow(c.fingerprint, None))
    case Completing(run) => s.row == Some(KeyRow(c.fingerprint, None)) && MadeFor(s.runs, run, c.fingerprint)
    case CleaningUp => s.row.Some? && s.row.value.fingerprint == c.fingerprint
    case Minting(run) => Holds(s.row, c.fingerprint, run)
    case Done(Success(run)) => Holds(s.row, c.fingerprint, run)
    case _ => true
  }

  ghost predicate DbOk(db: Db) {
    && StoreOk(db.store)
    && (forall i | 0 <= i < |db.calls| :: CallOk(db.store, db.calls[i]))
    && (forall i, j | 0 <= i < j < |db.calls| :: !(Owns(db.calls[i]) && Owns(db.calls[j])))
  }

  /**
   The only ways the row changes: reserved from nothing, completed by its owner with a run made for it, deleted
   by its owner while incomplete.
   */
  ghost predicate RowMove(before: Store, after: Store, c: Call) {
    || after.row == before.row
    || (before.row.None? && after.row == Some(KeyRow(c.fingerprint, None)) && c.phase.Reserving?)
    || (c.phase.Completing? && before.row == Some(KeyRow(c.fingerprint, None))
        && Holds(after.row, c.fingerprint, c.phase.run))
    || (c.phase.CleaningUp? && before.row == Some(KeyRow(c.fingerprint, None)) && after.row == None)
  }

  lemma NextPhaseOk(s: Store, c: Call, outcome: Outcome)
    requires StoreOk(s) && CallOk(s, c)
    ensures var (s', phase) := NextPhase(s, c, outcome);
            && StoreOk(s') && CallOk(s', c.(phase := phase))
            && RowMove(s, s', c) && s.runs <= s'.runs
            && (Owns(c.(phase := phase)) ==> Owns(c) || (s.row.None? && s'.row == Some(KeyRow(c.fingerprint, None))))
  {
  }

  /** A store moved by one call still suits every other, given only one of them can own the reservation. */
  lemma OthersStayOk(before: Store, after: Store, mover: Call, other: Call)
    requires CallOk(before, other) && CallOk(before, mover)
    requires RowMove(before, after, mover) && before.runs <= after.runs
    requires !(Owns(mover) && Owns(other))
    ensures CallOk(after, other)
  {
  }

  /** Whether an UPDATE landing now would do no harm: the invariant stands, and a completed row stays as it is. */
  ghost predicate Harmless(db: Db, run: RunId) {
    var after := db.(store := Landed(db.store, run));
    DbOk(after) && (Completed(db) ==> after.store.row == db.store.row)
  }

  predicate Completed(db: Db) {
    db.store.row.Some? && db.store.row.value.body.Some?
  }

  /** Landings do no harm. LandHarmlessIff says what that takes. */
  ghost predicate Tame(db: Db, ev: Event) {
    ev.Land? && ev.run in db.store.late ==> Harmless(db, ev.run)
  }

  lemma AdvanceOk(db: Db, i: nat, outcome: Outcome)
    requires DbOk(db) && i < |db.calls|
    ensures DbOk(Step(db, Advance(i, outcome)))
  {
    var c := db.calls[i];
    var after := Step(db, Advance(i, outcome));
    NextPhaseOk(db.store, c, outcome);
    forall j | 0 <= j < |db.calls| && j != i ensures CallOk(after.store, db.calls[j]) {
      OthersStayOk(db.store, after.store, c, db.calls[j]);
    }
  }

  lemma CrashOk(db: Db, i: nat)
    requires DbOk(db)
    ensures DbOk(Step(db, Crash(i)))
  {
    if i < |db.calls| {
      assert CallOk(db.store, db.calls[i]);
      assert forall j | 0 <= j < |db.calls| :: CallOk(db.store, db.calls[j]) ==>
                                                CallOk(GivenUp(db.store, db.calls[i].phase), db.calls[j]);
    }
  }

  lemma StepOk(db: Db, ev: Event)
    requires DbOk(db) && Tame(db, ev)
    ensures DbOk(Step(db, ev))
  {
    match ev
    case Arrive(_) =>
    case Advance(i, outcome) => if i < |db.calls| { AdvanceOk(db, i, outcome); }
    case Crash(i) => CrashOk(db, i);
    case Land(_) =>
  }

  ghost predicate TameAt(db: Db, events: seq<Event>, j: nat)
    requires j < |events|
  {
    Tame(RunFrom(db, events[..j]), events[j])
  }

  /** Every landing in the run comes when it does no harm. */
  ghost predicate TameRun(db: Db, events: seq<Event>) {
    forall j: nat | j < |events| :: TameAt(db, events, j)
  }

  lemma TameFront(db: Db, events: seq<Event>)
    requires TameRun(db, events) && events != []
    ensures TameRun(db, events[..|events| - 1])
    ensures Tame(RunFrom(db, events[..|events| - 1]), events[|events| - 1])
  {
    var front := events[..|events| - 1];
    forall j: nat | j < |front| ensures TameAt(db, front, j) {
      assert TameAt(db, events, j);
      assert front[..j] == events[..j] && front[j] == events[j];
    }
    assert TameAt(db, events, |front|);
  }

  lemma {:induction false} RunStaysOk(db: Db, events: seq<Event>)
    requires DbOk(db) && TameRun(db, events)
    ensures DbOk(RunFrom(db, events))
  {
    if events != [] {
      TameFront(db, events);
      RunStaysOk(db, events[..|events| - 1]);
      StepOk(RunFrom(db, events[..|events| - 1]), events[|events| - 1]);
    }
  }

  lemma EveryInterleavingOk(events: seq<Event>)
    requires TameRun(Unused(), events)
    ensures DbOk(RunDb(events))
  {
    RunStaysOk(Unused(), events);
  }

  // ----- results -----

  /** At most one call owns the reservation at any time. */
  lemma OneOwner(events: seq<Event>, i: nat, j: nat)
    requires TameRun(Unused(), events)
    requires i < |RunDb(events).calls| && j < |RunDb(events).calls|
    requires Owns(RunDb(events).calls[i]) && Owns(RunDb(events).calls[j])
    ensures i == j
  {
    EveryInterleavingOk(events);
  }

  /** Whoever succeeds gets a run created for the room it asked for, and it is the one stored. */
  lemma SuccessIsOwnRun(events: seq<Event>, i: nat)
    requires TameRun(Unused(), events)
    requires i < |RunDb(events).calls| && Succeeded(RunDb(events).calls[i])
    ensures var db := RunDb(events);
            var c := db.calls[i];
            MadeFor(db.store.runs, c.phase.result.value, c.fingerprint)
            && db.store.row == Some(KeyRow(c.fingerprint, Some(c.phase.result.value)))
  {
    EveryInterleavingOk(events);
    assert CallOk(RunDb(events).store, RunDb(events).calls[i]);
  }

  /** All successful calls return the same run, under the same fingerprint. */
  lemma SuccessesAgree(events: seq<Event>, i: nat, j: nat)
    requires TameRun(Unused(), events)
    requires i < |RunDb(events).calls| && j < |RunDb(events).calls|
    requires Succeeded(RunDb(events).calls[i]) && Succeeded(RunDb(events).calls[j])
    ensures RunDb(events).calls[i] == RunDb(events).calls[j]
  {
    SuccessIsOwnRun(events, i);
    SuccessIsOwnRun(events, j);
  }

  lemma CompletedStep(db: Db, ev: Event)
    requires DbOk(db) && Completed(db) && Tame(db, ev)
    ensures Step(db, ev).store.row == db.store.row
  {
    if ev.Advance? && ev.i < |db.calls| {
      NextPhaseOk(db.store, db.calls[ev.i], ev.outcome);
    }
  }

  /** A completed key never changes, whatever follows. */
  lemma {:induction false} CompletedIsFinal(events: seq<Event>, n: nat)
    requires TameRun(Unused(), events) && n <= |events| && Completed(RunDb(events[..n]))
    ensures RunDb(events).store.row == RunDb(events[..n]).store.row
    decreases |events|
  {
    if n == |events| {
      assert events[..n] == events;
    } else {
      var front := events[..|events| - 1];
      assert front[..n] == events[..n];
      TameFront(Unused(), events);
      CompletedIsFinal(front, n);
      EveryInterleavingOk(front);
      CompletedStep(RunDb(front), events[|events| - 1]);
    }
  }

  /** Once a key is completed, no call with another fingerprint ever succeeds. */
  lemma OtherFingerprintNeverSucceeds(events: seq<Event>, n: nat, i: nat)
    requires TameRun(Unused(), events) && n <= |events| && Completed(RunDb(events[..n]))
    requires i < |RunDb(events).calls|
    requires RunDb(events).calls[i].fingerprint != RunDb(events[..n]).store.row.value.fingerprint
    ensures !Succeeded(RunDb(events).calls[i])
  {
    CompletedIsFinal(events, n);
    EveryInterleavingOk(events);
    assert CallOk(RunDb(events).store, RunDb(events).calls[i]);
  }

  /** A retry after completion, run without a fault, gets the stored run and creates none. */
  lemma RetryGetsStoredRun(db: Db, fp: Fingerprint, run: RunId)
    requires Holds(db.store.row, fp, run)
    ensures var ok := Advance(|db.calls|, Ok);
            Step(Step(Step(db, Arrive(fp)), ok), ok) == Db(db.store, db.calls + [Call(fp, Done(Success(run)))])
  {
    var looked := Step(Step(db, Arrive(fp)), Advance(|db.calls|, Ok));
    assert looked == Db(db.store, db.calls + [Call(fp, Minting(run))]);
  }

  /** A lone call on a free key completes it with the run it created. */
  lemma LoneCallSucceeds(db: Db, fp: Fingerprint)
    requires db.store.row.None?
    ensures var run := |db.store.runs|;
            var ok := Advance(|db.calls|, Ok);
            Step(Step(Step(Step(Step(Step(db, Arrive(fp)), ok), ok), ok), ok), ok)
            == Db(Store(Some(KeyRow(fp, Some(run))), db.store.runs + [fp], db.store.late),
                  db.calls + [Call(fp, Done(Success(run)))])
  {
    var ok := Advance(|db.calls|, Ok);
    var reserved := Reserve(db, fp);
    LoneReserves(db, fp);
    var created := Step(reserved, ok);
    assert created == Db(Store(Some(KeyRow(fp, None)), db.store.runs + [fp], db.store.late),
                         db.calls + [Call(fp, Completing(|db.store.runs|))]);
  }

  /** A call arrives, finds no row and makes the reservation. */
  function Reserve(db: Db, fp: Fingerprint): Db {
    Step(Step(Step(db, Arrive(fp)), Advance(|db.calls|, Ok)), Advance(|db.calls|, Ok))
  }

  lemma LoneReserves(db: Db, fp: Fingerprint)
    requires db.store.row.None?
    ensures Reserve(db, fp) == Db(db.store.(row := Some(KeyRow(fp, None))), db.calls + [Call(fp, Creating)])
  {
    var looked := Step(Step(db, Arrive(fp)), Advance(|db.calls|, Ok));
    assert looked == Db(db.store, db.calls + [Call(fp, Reserving)]);
  }

  /**
   What a lookup tells its call: a row of another room is a conflict, one of its own room without a run is in
   progress, one with a run gives that run; and nothing else changes.
   */
  lemma LookupAnswers(db: Db, i: nat)
    requires i < |db.calls| && (db.calls[i].phase.LookingUp? || db.calls[i].phase.LookingAgain?)
    ensures var u, row, c := Step(db, Advance(i, Ok)), db.store.row, db.calls[i];
            && u.store == db.store && |u.calls| == |db.calls| && u.calls[i].fingerprint == c.fingerprint
            && (forall j | 0 <= j < |db.calls| && j != i :: u.calls[j] == db.calls[j])
            && (row.Some? && row.value.fingerprint != c.fingerprint ==>
                  u.calls[i].phase == Done(Failure(IdempotencyConflict)))
            && (row.Some? && row.value.fingerprint == c.fingerprint && row.value.body.None? ==>
                  u.calls[i].phase == Done(Failure(RequestInProgress)))
            && (row.Some? && row.value.fingerprint == c.fingerprint && row.value.body.Some? ==>
                  u.calls[i].phase == Minting(row.value.body.value))
            && (row.None? && c.phase.LookingUp? ==> u.calls[i].phase == Reserving)
            && (row.None? && c.phase.LookingAgain? ==> u.calls[i].phase == Done(Failure(RequestInProgress)))
  {
  }

  /** A call that loses the race to reserve changes nothing and looks again. */
  lemma LoserLooksAgain(db: Db, i: nat)
    requires i < |db.calls| && db.calls[i].phase.Reserving? && db.store.row.Some?
    ensures Step(db, Advance(i, Ok)) == db.(calls := db.calls[i := db.calls[i].(phase := LookingAgain)])
  {
  }

  /** A statement that fails never lets its call go on: one that had reserved cleans up, any other ends in an error. */
  lemma FaultEndsCall(db: Db, i: nat, outcome: Outcome)
    requires i < |db.calls| && outcome != Ok && !db.calls[i].phase.Done? && !db.calls[i].phase.Crashed?
    ensures var c, after := db.calls[i], Step(db, Advance(i, outcome)).calls[i];
            after.phase == if c.phase.Creating? || c.phase.Completing? then CleaningUp else Done(Failure(Internal))
  {
  }

  /** Cleaning up frees the key unless it was completed, and ends the call with an error. */
  lemma CleanUpFreesKey(db: Db, i: nat)
    requires DbOk(db) && i < |db.calls| && db.calls[i].phase.CleaningUp?
    ensures var u := Step(db, Advance(i, Ok));
            && u.calls[i].phase == Done(Failure(Internal))
            && u.store.row == (if Completed(db) then db.store.row else None)
  {
    assert CallOk(db.store, db.calls[i]);
  }

  /** A run is created for its caller's room, and stays behind unused when its caller is told it was not created. */
  lemma RunsCreated(db: Db, i: nat, outcome: Outcome)
    requires i < |db.calls| && db.calls[i].phase.Creating?
    ensures var u, runs := Step(db, Advance(i, outcome)), db.store.runs;
            && u.store.runs == runs + (if outcome == Failed then [] else [db.calls[i].fingerprint])
            && u.store.row == db.store.row
            && (outcome == Ok ==> u.calls[i].phase == Completing(|runs|))
  {
  }

  /** An UPDATE that took effect although it was reported as failed outlives the clean-up: the key keeps its run. */
  lemma UnknownUpdateSurvives(db: Db, i: nat, cleanUp: Outcome)
    requires DbOk(db) && i < |db.calls| && db.calls[i].phase.Completing?
    ensures var c := db.calls[i];
            var u := Step(Step(db, Advance(i, Unknown)), Advance(i, cleanUp));
            Holds(u.store.row, c.fingerprint, c.phase.run) && u.calls[i].phase == Done(Failure(Internal))
  {
    assert CallOk(db.store, db.calls[i]);
  }

  /** A call that gives up or dies while completing leaves its UPDATE under way; once landed, it is not any more. */
  lemma UpdateUnderWay(db: Db, i: nat)
    requires i < |db.calls| && db.calls[i].phase.Completing?
    ensures var run := db.calls[i].phase.run;
            && run in Step(db, Advance(i, Failed)).store.late && run in Step(db, Crash(i)).store.late
            && run !in Step(Step(db, Crash(i)), Land(run)).store.late
            && Step(db, Crash(i)).calls[i].phase == Crashed && Step(db, Crash(i)).store.row == db.store.row
  {
  }

  // ----- reservations that stay behind -----

  /** No UPDATE that could complete the row without harm is still under way. */
  ghost predicate NoneUnderWay(s: Store, fp: Fingerprint) {
    forall run | run in s.late :: !MadeFor(s.runs, run, fp)
  }

  /** Reserved, incomplete, and nobody left to complete or delete it. */
  ghost predicate Stuck(db: Db) {
    && db.store.row.Some? && db.store.row.value.body.None?
    && (forall i | 0 <= i < |db.calls| :: !Owns(db.calls[i]))
    && NoneUnderWay(db.store, db.store.row.value.fingerprint)
  }

  lemma StuckStep(db: Db, ev: Event)
    requires DbOk(db) && Stuck(db) && Tame(db, ev)
    ensures Stuck(Step(db, ev)) && Step(db, ev).store.row == db.store.row
  {
    if ev.Advance? && ev.i < |db.calls| {
      NextPhaseOk(db.store, db.calls[ev.i], ev.outcome);
    }
  }

  /** A stuck key stays as it is for good, and no call on it, earlier or later, ever succeeds. */
  lemma {:induction false} StuckForever(db: Db, more: seq<Event>)
    requires DbOk(db) && Stuck(db) && TameRun(db, more)
    ensures var later := RunFrom(db, more);
            && DbOk(later) && Stuck(later) && later.store.row == db.store.row
            && forall i | 0 <= i < |later.calls| :: !Succeeded(later.calls[i])
  {
    RunStaysOk(db, more);
    if more != [] {
      TameFront(db, more);
      StuckForever(db, more[..|more| - 1]);
      StuckStep(RunFrom(db, more[..|more| - 1]), more[|more| - 1]);
    }
    assert forall i | 0 <= i < |RunFrom(db, more).calls| :: CallOk(RunFrom(db, more).store, RunFrom(db, more).calls[i]);
  }

  lemma OneStepRun(db: Db, ev: Event)
    requires Tame(db, ev)
    ensures RunFrom(db, [ev]) == Step(db, ev) && TameRun(db, [ev])
  {
    assert [ev][..0] == [];
  }

  lemma TwoStepRun(db: Db, a: Event, b: Event)
    requires Tame(db, a) && Tame(Step(db, a), b)
    ensures RunFrom(db, [a, b]) == Step(Step(db, a), b) && TameRun(db, [a, b])
  {
    assert [a, b][..0] == [] && [a, b][..1] == [a];
    OneStepRun(db, a);
  }

  /** The owner can still move the row: cleaning up deletes it, completing completes it. */
  lemma OwnerCanMove(db: Db, i: nat)
    requires DbOk(db) && i < |db.calls| && Owns(db.calls[i])
    requires db.store.row.Some? && db.store.row.value.body.None?
    ensures exists more :: TameRun(db, more) && RunFrom(db, more).store.row != db.store.row
  {
    var ok := Advance(i, Ok);
    assert CallOk(db.store, db.calls[i]);
    OneStepRun(db, ok);
    TwoStepRun(db, ok, ok);
    if db.calls[i].phase.Creating? {
      assert RunFrom(db, [ok, ok]).store.row != db.store.row;
    } else {
      assert RunFrom(db, [ok]).store.row != db.store.row;
    }
  }

  /** An UPDATE under way for the row's own room can still complete it, when nobody owns it. */
  lemma LandingCanMove(db: Db, run: RunId)
    requires DbOk(db) && db.store.row.Some? && db.store.row.value.body.None?
    requires forall i | 0 <= i < |db.calls| :: !Owns(db.calls[i])
    requires run in db.store.late && MadeFor(db.store.runs, run, db.store.row.value.fingerprint)
    ensures exists more :: TameRun(db, more) && RunFrom(db, more).store.row != db.store.row
  {
    LandHarmlessIff(db, run);
    OneStepRun(db, Land(run));
    assert RunFrom(db, [Land(run)]).store.row != db.store.row;
  }

  /** A reserved key is stuck exactly if nothing harmless that can follow ever changes its row. */
  lemma StuckIff(db: Db)
    requires DbOk(db) && db.store.row.Some? && db.store.row.value.body.None?
    ensures Stuck(db) <==> forall more | TameRun(db, more) :: RunFrom(db, more).store.row == db.store.row
  {
    if Stuck(db) {
      forall more | TameRun(db, more) ensures RunFrom(db, more).store.row == db.store.row {
        StuckForever(db, more);
      }
    } else if i :| 0 <= i < |db.calls| && Owns(db.calls[i]) {
      OwnerCanMove(db, i);
    } else {
      var run :| run in db.store.late && MadeFor(db.store.runs, run, db.store.row.value.fingerprint);
      LandingCanMove(db, run);
    }
  }

  /** The step after which nobody owns a reservation that is still there. */
  ghost predicate LosesOwner(db: Db, ev: Event) {
    match ev
    case Arrive(_) => false
    case Advance(i, outcome) =>
      i < |db.calls|
      && ((db.calls[i].phase.Reserving? && outcome == Unknown && db.store.row.None?)
          || (db.calls[i].phase.CleaningUp? && outcome == Failed
              && db.store.row.Some? && db.store.row.value.body.None?))
    case Crash(i) => i < |db.calls| && Owns(db.calls[i]) && db.store.row.Some? && db.store.row.value.body.None?
    case Land(_) => false
  }

  /** It strands the key unless an UPDATE for the same room is still under way. */
  ghost predicate Strands(db: Db, ev: Event) {
    LosesOwner(db, ev) && NoneUnderWay(Step(db, ev).store, db.calls[ev.i].fingerprint)
  }

  /**
   A key gets stuck exactly by an INSERT reported as failed, a clean-up that fails, or the death of the owner,
   with no UPDATE for its room under way. Nothing reads expires_at, so it then stays stuck.
   */
  lemma StrandsIff(db: Db, ev: Event)
    requires DbOk(db) && !Stuck(db) && Tame(db, ev)
    ensures Stuck(Step(db, ev)) <==> Strands(db, ev)
  {
    var after := Step(db, ev);
    match ev
    case Arrive(fp) => assert forall i | 0 <= i < |db.calls| :: after.calls[i] == db.calls[i];
    case Advance(i, outcome) => if i < |db.calls| { AdvanceStrandsIff(db, i, outcome); }
    case Crash(i) => if i < |db.calls| { CrashStrandsIff(db, i); }
    case Land(run) => if run in db.store.late { LandStrandsNot(db, run); }
  }

  lemma AdvanceStrandsIff(db: Db, i: nat, outcome: Outcome)
    requires DbOk(db) && !Stuck(db) && i < |db.calls|
    ensures Stuck(Step(db, Advance(i, outcome))) <==> Strands(db, Advance(i, outcome))
  {
    var after := Step(db, Advance(i, outcome));
    assert CallOk(db.store, db.calls[i]);
    NextPhaseOk(db.store, db.calls[i], outcome);
    assert forall j | 0 <= j < |db.calls| && j != i :: after.calls[j] == db.calls[j];
    assert after.calls[i] == db.calls[i].(phase := NextPhase(db.store, db.calls[i], outcome).1);
    if LosesOwner(db, Advance(i, outcome)) {
      forall j | 0 <= j < |db.calls| && j != i ensures !Owns(after.calls[j]) {
        assert CallOk(db.store, db.calls[j]);
      }
    } else if Stuck(after) {
      StuckBefore(db, after, i);
    }
  }

  /** A step that makes nobody lose the row and leaves it stuck found it stuck. */
  lemma StuckBefore(db: Db, after: Db, i: nat)
    requires DbOk(db) && Stuck(after) && i < |db.calls| == |after.calls|
    requires forall j | 0 <= j < |db.calls| && j != i :: after.calls[j] == db.calls[j]
    requires db.store.row == after.store.row && !Owns(db.calls[i])
    requires db.store.late <= after.store.late && db.store.runs <= after.store.runs
    ensures Stuck(db)
  {
    forall j | 0 <= j < |db.calls| ensures !Owns(db.calls[j]) {
      assert j != i ==> after.calls[j] == db.calls[j];
    }
  }

  lemma CrashStrandsIff(db: Db, i: nat)
    requires DbOk(db) && !Stuck(db) && i < |db.calls|
    ensures Stuck(Step(db, Crash(i))) <==> Strands(db, Crash(i))
  {
    var after := Step(db, Crash(i));
    assert CallOk(db.store, db.calls[i]);
    assert forall j | 0 <= j < |db.calls| && j != i :: after.calls[j] == db.calls[j];
    if Stuck(after) && !Owns(db.calls[i]) {
      StuckBefore(db, after, i);
    }
  }

  /** A harmless landing completes a row for its own room or finds nothing to change; it strands nobody. */
  lemma LandStrandsNot(db: Db, run: RunId)
    requires DbOk(db) && !Stuck(db) && run in db.store.late && Harmless(db, run)
    ensures !Stuck(Step(db, Land(run)))
  {
  }

  // ----- an UPDATE that lands late -----

  /**
   The UPDATE names only the key, so one that lands after its caller gave up can complete another call's row. It
   leaves the invariant standing and a completed key unchanged exactly when there is no row, or the row is
   already completed with this run, or it is incomplete, for the room this run was created for, and no call is
   creating or completing.
   */
  lemma LandHarmlessIff(db: Db, late: RunId)
    requires DbOk(db) && late < |db.store.runs|
    ensures Harmless(db, late) <==>
            || db.store.row.None?
            || db.store.row.value.body == Some(late)
            || (&& db.store.row.value.body.None? && db.store.runs[late] == db.store.row.value.fingerprint
                && forall i | 0 <= i < |db.calls| :: !db.calls[i].phase.Creating? && !db.calls[i].phase.Completing?)
  {
    var after := db.(store := Landed(db.store, late));
    assert forall i | 0 <= i < |db.calls| :: CallOk(db.store, db.calls[i]);
    if db.store.row.Some? && DbOk(after) {
      assert forall i | 0 <= i < |db.calls| :: CallOk(after.store, after.calls[i]);
    }
  }

  /** A call creates its run, its UPDATE is reported as failed, and it cleans up. */
  function GiveUp(db: Db, fp: Fingerprint): Db {
    var i := |db.calls|;
    Step(Step(Step(Reserve(db, fp), Advance(i, Ok)), Advance(i, Failed)), Advance(i, Ok))
  }

  lemma GivesUp(db: Db, fp: Fingerprint)
    requires db.store.row.None?
    ensures GiveUp(db, fp) == Db(Store(None, db.store.runs + [fp], db.store.late + {|db.store.runs|}),
                                 db.calls + [Call(fp, Done(Failure(Internal)))])
  {
    var i, run := |db.calls|, |db.store.runs|;
    var row, runs := Some(KeyRow(fp, None)), db.store.runs + [fp];
    LoneReserves(db, fp);
    var created := Step(Reserve(db, fp), Advance(i, Ok));
    assert created == Db(Store(row, runs, db.store.late), db.calls + [Call(fp, Completing(run))]);
    var failed := Step(created, Advance(i, Failed));
    assert failed == Db(Store(row, runs, db.store.late + {run}), db.calls + [Call(fp, CleaningUp)]);
  }

  /**
   One harmful case: run 0 is created for one room, the key is reserved again for another and its owner dies,
   then the UPDATE of run 0 lands. The next call for the other room is given the run of the first.
   */
  lemma LateUpdateWitness(room: Fingerprint, other: Fingerprint)
    requires room != other
    ensures var died := Step(Reserve(GiveUp(Unused(), room), other), Crash(1));
            var landed := Step(died, Land(0));
            var ok := Advance(2, Ok);
            var u := Step(Step(Step(landed, Arrive(other)), ok), ok);
            && DbOk(died) && !Harmless(died, 0) && !DbOk(landed)
            && u.calls[2] == Call(other, Done(Success(0))) && u.store.runs == [room]
  {
    GivesUp(Unused(), room);
    var gaveUp := GiveUp(Unused(), room);
    LoneReserves(gaveUp, other);
    var died := Step(Reserve(gaveUp, other), Crash(1));
    assert died == Db(Store(Some(KeyRow(other, None)), [room], {0}),
                      [Call(room, Done(Failure(Internal))), Call(other, Crashed)]);
    RetryGetsStoredRun(Step(died, Land(0)), other, 0);
  }

  /**
   Another: a second call for the same room completes the key with its own run and fails to mint a token. The
   UPDATE of the first then rewrites the completed key, although the invariant stands throughout.
   */
  lemma CompletedKeyRewritten(room: Fingerprint)
    ensures var ok := Advance(1, Ok);
            var completed := Step(Step(Reserve(GiveUp(Unused(), room), room), ok), ok);
            var failed := Step(completed, Advance(1, Failed));
            var landed := Step(failed, Land(0));
            && DbOk(failed) && DbOk(landed) && !Harmless(failed, 0)
            && Holds(failed.store.row, room, 1) && Holds(landed.store.row, room, 0)
  {
    GivesUp(Unused(), room);
    var gaveUp := GiveUp(Unused(), room);
    LoneReserves(gaveUp, room);
    var created := Step(Reserve(gaveUp, room), Advance(1, Ok));
    assert created == Db(Store(Some(KeyRow(room, None)), [room, room], {0}),
                         [Call(room, Done(Failure(Internal))), Call(room, Completing(1))]);
    var failed := Step(Step(created, Advance(1, Ok)), Advance(1, Failed));
    assert failed == Db(Store(Some(KeyRow(room, Some(1))), [room, room], {0}),
                        [Call(room, Done(Failure(Internal))), Call(room, Done(Failure(Internal)))]);
  }
}
