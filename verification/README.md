# Engine A, verified

Engine A is an event-sourced simulator. A run is an append-only log of `tick` and `player` entries, its
state is a fold over that log, the runtime keeps the folded state in memory, and browsers follow it over a
sequence-numbered WebSocket stream. This project models that system in Dafny 4.11 and proves what its
comments and documents promise: replay parity, idempotent actions, finished runs staying finished,
gap-free delivery, and a single run per start request.

`dafny verify dfyconfig.toml` checks the whole project.

| file | what it models |
|---|---|
| `Simulation.dfy`, `SimEngine.dfy` | the simulator: `State` and its steps as functions, `Engine` and `ReplayLog` as the loops of the source, proved against them |
| `InForce.dfy` | which effect moves a metric, said over the spec and the actions taken |
| `ReplayLaws.dfy` | replay and log are inverses; exactly which logs are accepted |
| `Dynamics.dfy`, `Compaction.dfy` | where metrics go, how fast, when a run must win or cannot; which repeated actions matter |
| `ActionTable.dfy`, `RunRepo.dfy` | the `run_actions` rows of one run under any interleaving of `AppendAction` calls, and the repo as an object |
| `Runtime.dfy`, `RuntimeObjects.dfy` | the cached engine against the durable log, as a transition system and as objects |
| `Requests.dfy` | one request id, one effect, in every run, lost answers and unknown keys included |
| `Recovery.dfy` | what a restart or a retry repairs, and what nothing repairs |
| `ResumeWindow.dfy`, `Tracker.dfy` | the resume buffer on its array, the sequence tracker, the browser hook |
| `EndToEnd.dfy` | runtime, connections and browsers together, and exactly which steps make a client show something untrue |
| `Connections.dfy`, `Broadcast.dfy` | single steps case by case; how a win reaches who is connected, and a reconnecting browser catches up |
| `Retries.dfy`, `TwoTabs.dfy` | repeated requests on the same and on other connections; a concrete run that goes wrong |
| `Pace.dfy` | when a connection has caught up with the log |
| `Sockets.dfy` | connections together with the registry of active writers: who may still speak |
| `StartRun.dfy`, `Registry.dfy`, `Heartbeats.dfy` | the StartRun reservation protocol, connection replacement, ping and pong timing |
| `StringOrder.dfy`, `Prelude.dfy` | sorted key listings; `Option`, `Result` and small arithmetic |

## Assumptions

- `float64` is `real`: no rounding, NaN or infinity. The replay and delivery results do not depend on it.
- There is one `runState` per run. `state()` drops `r.mu` while it loads (cmd/engine-a/runtime.go:191-267),
  so two first calls could build two; that race is not modelled.
- Parity needs two more things, and both are proved necessary step by step (`Runtime.StepKeepsHealthyIff`):
  an append that reports an error has stored nothing, and a new action's key is in the spec. `Recovery` says what
  is left when one of them fails.
- A statement on the `idempotency_keys` row takes effect by the time its caller sees its outcome, except an UPDATE,
  which may still land after its caller gave up. `StartRun.LandHarmlessIff` says exactly when that does no harm, and
  the results about StartRun hold for every run whose landings are harmless.

## Where code and documents differ

- An action row is written before the engine looks at the key (cmd/engine-a/runtime.go:89-101). An unknown key
  is reported as an error, but its row stays, parity is lost at once, and after a restart the run can never be
  served again (`Recovery.UnknownActionPoisonsRun`, `Recovery.UnknownActionWitness`).
- An append whose answer is lost leaves the cached engine behind the log. A restart right away repairs it
  (`Recovery.RestartHealsIff`). A retry repairs it exactly as long as nothing else has been logged
  (`Recovery.RetryHealsIff`): after one ordinary tick the retry is answered as a success, and the engine never takes
  the action (`Recovery.SwallowedRetryWitness`), because cmd/engine-a/runtime.go:98 compares the row's seq with a
  lastSeq that has passed it. Meanwhile the log may win without the engine knowing, and whatever is stored
  then, a tick or an action, makes it unacceptable for good (`Recovery.LogStaysAcceptedIff`,
  `Recovery.LostAnswerWitness`).
- An UPDATE that lands late can hand out a run of another room (`StartRun.LateUpdateWitness`) or rewrite a completed
  key (`StartRun.CompletedKeyRewritten`).
- A retried request is answered with its old seq and the *current* snapshot. That answer is true exactly when
  nothing has ticked since (`Retries.RepeatedReplyTrueIff`). On its own connection, and on any connection opened
  after the request was logged, the tracker is past that seq and drops it. On another connection that is exactly one
  entry short of it, the untrue delta is written (`Retries.RepeatMisleadsIff`). Replacement leaves only the case that
  the request was logged by a connection since closed, or one of the two is about to be
  (`Sockets.MisledByReplaced`), and `TwoTabs.ClientShowsUntruth` is a run in which a browser shows it. The
  browser draws a new id for every action, so it does not repeat one.
- The tick that ends a run is logged but never pushed (cmd/engine-a/runtime.go:168-185): connections that were
  open then never reach the end of the log (`Pace.NobodyCatchesUpAfterTheEnd`).
- docs/DECISIONS.md:121 speaks of idempotency keys with a TTL, but no code reads `expires_at`: a reservation whose
  owner is gone blocks its key for good (`StartRun.StuckForever`), and `StartRun.StrandsIff` says which steps
  leave one.
- docs/ARCHITECTURE.md:83 derives the outcome from seed and action log; the simulator never reads the seed.
- docs/ARCHITECTURE.md:194-207 promises resuming from `resumeFromSeq` and checking `expectedSeq`; `Connect`
  ignores the first and always sends a snapshot, and `ApplyAction` ignores the second. The resume branch of
  the handler and the buffer are modelled as written.
- A registered connection that is no longer active need not be closed by a replacer: its own handler may
  have unregistered it and be about to close it (`Registry.LeavingWitness`). One that is not leaving either is closed
  or has a replacer that is about to close it (`Registry.InactiveIsReplaced`).

## Model

| member | source | states |
|---|---|---|
| StringOrder.ListingUnique | internal/engine/a/service/sim.go:41-45 | a key set has one sorted listing, so map iteration order cannot reach a snapshot |
| StringOrder.SortedKeys | internal/engine/a/service/sim.go:21-25 | whatever order the map yields, the result lists every key once in order |
| Simulation.LastMatchIsLast | internal/engine/a/service/sim.go:58-70 | the chosen effect is the last in scan order that names the metric; none is chosen only if none names it |
| SimEngine.Engine.constructor | internal/engine/a/service/sim.go:8-14 | a new engine has the initial metrics, tick 0, an empty log and next seq 1 |
| SimEngine.Engine.AppendLog | internal/engine/a/service/sim.go:74-77 | one entry with the next seq is added and the seq advances |
| SimEngine.Engine.ResolveEffect | internal/engine/a/service/sim.go:51-72 | the nested scans compute the last match over due events then chosen actions |
| SimEngine.Engine.MoveMetrics | internal/engine/a/service/sim.go:21-30 | the in-place loop over sorted keys is one simultaneous pointwise move |
| SimEngine.Engine.Tick | internal/engine/a/service/sim.go:16-34 | the whole new state of a tick; a won engine refuses and stays as it was |
| SimEngine.Engine.ApplyAction | internal/engine/a/service/action.go:3-13 | the whole new state of an action; won engines and unknown keys refuse and change nothing |
| SimEngine.Engine.TakeSnapshot | internal/engine/a/service/sim.go:36-47 | the snapshot is a function of the state alone |
| SimEngine.ReplayLog | internal/engine/a/service/replay.go:3-29 | rebuilds a fresh engine equal to the fold of the log, or returns the first entry's error |
| InForce.ResolveMeaning | internal/engine/a/service/sim.go:51-72 | a metric is moved by the last effect, by action then position, of the actions taken that name it; failing those, by the last, by event then position, of the events that have come; failing those, by none |
| InForce.TickMoves | internal/engine/a/service/sim.go:26-30 | a tick moves each metric one clamped step towards that effect's target, and leaves it alone if there is none |
| Dynamics.TickOrderIrrelevant | internal/engine/a/service/sim.go:21-30 | any enumeration order of the keys gives the same tick |
| Dynamics.DueMeaning | internal/engine/a/service/sim.go:54-57 | an effect is due exactly when it belongs to an event whose tick has come |
| Dynamics.LatestActionOverrides | internal/engine/a/service/sim.go:64-70 | the action just taken wins over events and earlier actions on every metric it names, at every later tick |
| Dynamics.WonIffChecksPass | internal/engine/a/service/sim.go:31-33 | in every reachable state, won holds exactly when a tick has run and the metrics pass all checks |
| ReplayLaws.ReplayRebuildsEngine | internal/engine/a/service/replay.go:3-29 | the log of any run replays exactly if its player entries have ids, and then to that very engine |
| ReplayLaws.AcceptedLogIsEngineLog | internal/engine/a/service/sim.go:74-77 | an accepted log is the resulting engine's own log |
| ReplayLaws.AcceptedLogIsReachable | internal/engine/a/service/replay.go:9-26 | the replayed engine is the one a live run reaches by the recorded requests |
| ReplayLaws.ReplayIsInjective | internal/engine/a/service/replay.go:3-29 | two accepted logs with the same engine are the same log |
| ReplayLaws.AcceptedIff | internal/engine/a/service/replay.go:5-27 | accepted exactly when entries are 1..n, well shaped with known keys, and no proper prefix has won |
| ReplayLaws.RefusalSaysWhy | internal/engine/a/service/replay.go:9-27 | an entry is refused as invalid exactly if out of place or misshapen, as completed exactly if the run had won, as unknown exactly if its key is |
| ReplayLaws.RequestRefusals | internal/engine/a/service/action.go:3-9 | a won engine refuses every request as completed, even an unknown action; otherwise only unknown actions fail |
| ReplayLaws.ReplayComposes | internal/engine/a/service/replay.go:5-28 | replaying a + b is replaying b on the engine of a |
| ReplayLaws.RefusedForever | internal/engine/a/service/replay.go:5-27 | no later entries repair a refused log |
| Dynamics.MetricSetIsFixed | internal/engine/a/service/sim.go:8-14 | no run adds or drops a metric |
| Dynamics.StaysInHull | internal/engine/a/service/sim.go:79-91 | every reachable value lies in any interval holding the initial value and all targets of its metric |
| Dynamics.OutOfReachIff | internal/engine/a/service/wincheck.go:11-33 | an interval is out of a check's reach exactly when none of its values passes, for every operator |
| Dynamics.Unwinnable | internal/engine/a/service/wincheck.go:6-35 | a check on a missing metric or outside the hull makes every run unwinnable |
| Dynamics.StepsAddUp | internal/engine/a/service/sim.go:79-91 | a clamped move of l then one of r is one of l + r |
| Dynamics.AfterUnwonTicks | internal/engine/a/service/sim.go:16-34 | after n undisturbed unwon ticks every metric has made one move of n times its rate |
| Dynamics.DistanceAfterUnwonTicks | internal/engine/a/service/sim.go:79-91 | the distance to the target is then max(0, d - n * rate) |
| Dynamics.CeilDiv | internal/engine/a/service/sim.go:79-91 | the least number of steps of length r that covers d |
| Dynamics.WinsWithinBound | internal/engine/a/service/sim.go:16-34 | if every check is heading for success and nothing else happens, the run wins within max(1, largest ceil(distance / rate)) ticks |
| Compaction.KeepLastSaysTheSame | internal/engine/a/service/sim.go:64-70 | keeping only last occurrences changes no metric's effect |
| Compaction.KeepLastIsCompact | internal/engine/a/service/action.go:10 | the compacted list has each occurring key exactly once |
| Compaction.CompactionIsInvisible | internal/engine/a/service/sim.go:51-72 | compacting the action list at any moment leaves the whole future unchanged |
| ActionTable.FindRequestMeaning | internal/engine/a/repo/run_repo.go:156-174 | the lookup finds a row with the id exactly when there is one |
| ActionTable.InsertKeepsRowsOk | internal/engine/a/repo/run_repo.go:82-97 | a stale sequence number either clashes or was not stale |
| ActionTable.StepKeepsTableOk | internal/engine/a/repo/run_repo.go:68-124 | every statement of every call keeps the table dense, unique, well shaped and in agreement with all answers |
| ActionTable.StepAppends | internal/engine/a/repo/run_repo.go:82-97 | rows are only ever added, one at a time, at the end |
| ActionTable.EveryInterleavingKeepsTable | migrations/0005_runs_actions.up.sql:24-33 | over every interleaving of calls, stale reads, failures and lost answers, seqs are exactly 1..n, ids unique, each row asked for by a call, and calls without an id never share a row |
| ActionTable.SameRequestSameRow | internal/engine/a/repo/run_repo.go:69-80 | calls that succeed for one id get the same row; a conflict is only reported for a different action |
| ActionTable.DedupLoserRechecks | internal/engine/a/repo/run_repo.go:103-111 | an insert that meets its request id, and is not refused for its seq, goes back to look |
| ActionTable.LoserGetsWinner | internal/engine/a/repo/run_repo.go:113-123 | and then gets the winner's row if it is the same action, and a conflict otherwise |
| ActionTable.EveryStoredLogIsWellFormed | internal/engine/a/repo/run_repo.go:126-154 | the listed log always passes Replay's shape checks, and ORDER BY seq is insertion order |
| ActionTable.UninterruptedCall | internal/engine/a/repo/run_repo.go:68-124 | a call whose statements run back to back does what AppendOutcome says, in any such table |
| RunRepo.PostgresRunRepo.InsertNext | internal/engine/a/repo/run_repo.go:82-111 | stores the row exactly when no constraint or fault forbids it, and a refusal names the constraint in the way |
| RunRepo.PostgresRunRepo.AppendAction | internal/engine/a/repo/run_repo.go:68-124 | new rows and answer of a call amid other callers' appends, the second lookup after a lost race included, with the table invariant kept |
| RunRepo.CallAmidRivals | internal/engine/a/repo/run_repo.go:68-124 | that outcome is what the same call does in the interleaved system |
| RunRepo.RacedRequest | internal/engine/a/repo/run_repo.go:108-123 | of two callers racing with one request id the loser stores nothing and gets the winner's row, a conflict for another action, or a plain error if its stale seq is reported |
| RunRepo.AloneIsUninterrupted | internal/engine/a/repo/run_repo.go:68-106 | and, without rivals, what the runtime's model of an append says |
| RunRepo.PostgresRunRepo.ListActions | internal/engine/a/repo/run_repo.go:126-154 | the ordered listing is the log itself |
| Runtime.LoadKeepsHealthy | cmd/engine-a/runtime.go:190-269 | loading succeeds exactly when the run is cached, or can be read and has or gets its first tick; it gives parity, or nothing cached, and logs at most the first tick |
| Runtime.ConnectKeepsHealthy | cmd/engine-a/runtime.go:63-76 | connecting keeps parity and greets with lastSeq and the snapshot of the replay |
| Runtime.FreshAct | cmd/engine-a/runtime.go:85-108 | a new stored action keeps parity and succeeds exactly when its key is known and the answer arrives; its reply is the run right after it |
| Runtime.IdleAct | cmd/engine-a/runtime.go:85-97 | a repeated, refused or unstored action leaves log and engine as they are |
| Runtime.StoredTick | cmd/engine-a/runtime.go:156-186 | a stored tick moves log and engine together, and either pushes the delta and goes on, or ends the run, stops the loop and reports the result |
| Runtime.FailedTick | cmd/engine-a/runtime.go:156-164 | a tick reported as failed stops the loop, clears tickStarted and leaves the rest of the cached run alone; parity holds exactly if it was not stored |
| Runtime.FailedTickStopsTheRun | cmd/engine-a/runtime.go:160-164 | after it nothing is ticked or logged until somebody connects or acts |
| Runtime.RefusedTickStops | cmd/engine-a/runtime.go:160-164 | a tick not stored, or refused by the engine, ends the loop whatever state the run is in |
| Runtime.TurnWaits | cmd/engine-a/runtime.go:147-155 | an early turn changes nothing; one that finds the run finished ends the loop |
| Runtime.ServedRunsTick | cmd/engine-a/runtime.go:271-277 | after a greeting or an accepted action an unfinished run has exactly one live loop, a finished one none |
| Runtime.ActRefusals | cmd/engine-a/runtime.go:78-101 | what a refused action is told: not loaded, completed, not stored, or unknown |
| Runtime.StepKeepsHealthyIff | cmd/engine-a/runtime.go:78-186 | every step keeps parity exactly when it is not a lost answer or a new unknown key |
| Runtime.ReachableIsHealthy | cmd/engine-a/runtime.go:63-277 | parity holds after any mix of connects, actions, retries, ticks, failed appends and restarts without a hazard |
| Runtime.CachedRunIsTheReplay | cmd/engine-a/runtime.go:142-188 | then the engine is the replay, lastSeq the log length, terminal means won or out of time, ticks stay within the duration, at most one tick loop lives and at most one win is broadcast |
| Runtime.RestartRestores | cmd/engine-a/runtime.go:225-268 | a restart brings back the same engine, lastSeq, verdict and greeting once the run can be read; until then it changes nothing |
| Runtime.TerminalIsAbsorbing | cmd/engine-a/runtime.go:85-87 | once finished, whatever follows logs nothing, ticks nothing and broadcasts nothing |
| Requests.RetryGetsItsSeq | cmd/engine-a/runtime.go:88-107 | on any cached engine a retry logs nothing and, if it succeeds, gets the seq of its request; another action under that id is refused and changes nothing; the engine takes the action only if its row is above lastSeq |
| Requests.LateRetryGetsItsSeq | internal/engine/a/repo/run_repo.go:69-80 | the same after any other events, faults and restarts |
| Requests.RunSound | cmd/engine-a/runtime.go:98-103 | in every run, what the cached engine took is in the log at or below lastSeq, each request at most once |
| Requests.OneEntryPerRequest | cmd/engine-a/runtime.go:88-103 | in every run from the start, one request id is at most one log entry and was taken at most once, with the action that entry names |
| Recovery.PoisonedForever | cmd/engine-a/runtime.go:250-253 | a refused log stays refused and, without a cached engine, the run is never served again |
| Recovery.UnknownActionPoisonsRun | cmd/engine-a/runtime.go:89-101 | a new unknown key is reported refused, yet logged, and no restart recovers the run |
| Recovery.UnknownActionWitness | cmd/engine-a/runtime.go:89-101 | a concrete run where this happens |
| Recovery.RestartHealsIff | cmd/engine-a/runtime.go:225-268 | restarting right after a step gives parity again exactly unless the step stored an unknown key |
| Recovery.RetryHeals | cmd/engine-a/runtime.go:98-103 | retrying at once an action whose answer was lost leaves exactly what the undisturbed action would have |
| Recovery.RetryHealsIff | cmd/engine-a/runtime.go:88-103 | after any other events short of a restart or an earlier retry, the retry restores parity exactly if nothing else was logged |
| Recovery.TickSwallowsRetry | cmd/engine-a/runtime.go:98-103 | after one ordinary tick the retry is answered as a success and the engine never takes the action |
| Recovery.SwallowedRetryWitness | cmd/engine-a/runtime.go:98-103 | a concrete run where this happens, in a log that still replays |
| Recovery.LogStaysAcceptedIff | internal/engine/a/service/replay.go:9-26 | whatever the cached engine believes, a step leaves the log acceptable exactly if it stores nothing, or the log had not won and every action it stores is known |
| Recovery.LostAnswerWitness | cmd/engine-a/runtime.go:89-97 | a concrete run that a restart would heal, and two ticks later nothing does |
| RuntimeObjects.PushDelta | cmd/engine-a/runtime.go:279-286 | every subscriber with fewer than 16 deltas gets the new one at the end, a full one keeps what it has, and none is closed |
| RuntimeObjects.PushWin | cmd/engine-a/runtime.go:174-179 | every win subscriber with fewer than 4 results gets this one at the end, a full one keeps what it has |
| RuntimeObjects.EngineARuntime.LoadState | cmd/engine-a/runtime.go:190-269 | the object does what Load says, reusing a cached run and storing nothing when the run cannot be read |
| RuntimeObjects.EngineARuntime.EnsureLoop | cmd/engine-a/runtime.go:271-277 | a loop is started only if none is and the run is not finished |
| RuntimeObjects.EngineARuntime.ConnectClient | cmd/engine-a/runtime.go:63-76 | the object does what Connect says |
| RuntimeObjects.EngineARuntime.SubscribeDeltas | cmd/engine-a/runtime.go:110-128 | a subscriber gets a fresh empty channel added to the others |
| RuntimeObjects.EngineARuntime.EndSubscription | cmd/engine-a/runtime.go:120-126 | the channel is taken out before it is closed, so no push meets a closed channel, and the run is untouched |
| RuntimeObjects.EngineARuntime.SubscribeWinUpdates | cmd/engine-a/runtime.go:130-140 | a win subscriber gets a fresh empty channel; no tick loop is started |
| RuntimeObjects.EngineARuntime.ApplyAction | cmd/engine-a/runtime.go:78-108 | the object does what Act says, error paths included |
| RuntimeObjects.EngineARuntime.TickTurn | cmd/engine-a/runtime.go:145-187 | the object does what Fire says, and its delta or result has been added to every subscriber with room |
| ResumeWindow.ResumeBuffer.constructor | internal/ws/resume_buffer.go:21-26 | an empty window of at least one slot, with last seq 0 |
| ResumeWindow.ResumeBuffer.Add | internal/ws/resume_buffer.go:28-43 | refuses exactly non-increasing seqs; the window stays the last accepted deltas, strictly increasing |
| ResumeWindow.ResumeBuffer.ShiftIn | internal/ws/resume_buffer.go:35-37 | shifting in place drops the oldest delta and appends the new one |
| ResumeWindow.ResumeBuffer.ResumeFrom | internal/ws/resume_buffer.go:45-70 | without a snapshot request the answer is every delta ever accepted above n |
| ResumeWindow.AboveInWindow | internal/ws/resume_buffer.go:55-69 | nothing evicted lies above n when the window reaches back to n + 1 |
| ResumeWindow.SnapshotOnlyWhenNeeded | internal/ws/resume_buffer.go:55-58 | on a gap-free stream from seq 1 a snapshot is asked for exactly when an evicted delta is needed |
| Tracker.SeqTracker.Advance | internal/engine/a/transport/ws_handler.go:406-418 | sends exactly last + 1, reports a gap exactly beyond that, and moves only when it sends |
| Tracker.SeqTracker.Resume | internal/engine/a/transport/ws_handler.go:190-208 | the resume branch writes what Feed says and stops at a gap |
| Tracker.SentIsContiguous | internal/engine/a/transport/ws_handler.go:406-418 | whatever is fed, what passes continues the base without gap or repeat |
| Tracker.GapEndsTheLoop | internal/engine/a/transport/ws_handler.go:190-208 | a gap ends the resume loop at the first delta beyond it; without one everything was sent or stale |
| Tracker.ResumeNeverGaps | internal/engine/a/transport/ws_handler.go:190-208 | resuming from a gap-free window sends every delta, meets no gap and ends at the newest seq |
| Tracker.EngineAHook.Receive | web/src/hooks/use-engine-a.ts:40-78 | the hook's whole new state and whether it reconnects |
| Tracker.WinShows | web/src/hooks/use-engine-a.ts:57-69 | a win shows as soon as it is heard of, and no message takes it back |
| Tracker.MessageEffects | web/src/hooks/use-engine-a.ts:40-76 | the position moves only with a snapshot or the next delta, shown whole; any other delta costs the connection; an accepted action is added once |
| Tracker.ClientKeepsUp | web/src/hooks/use-engine-a.ts:45-64 | after a snapshot, the client applies all the tracker lets through and ends where it is |
| EndToEnd.AnswerTrueIff | cmd/engine-a/runtime.go:98-107 | an answer is true under its own seq exactly when no tick came between its entry and the answer |
| EndToEnd.ConnStepKeepsTruthIff | internal/engine/a/transport/ws_handler.go:298-332 | a step inside a connection makes it say something untrue exactly when it lets an overtaken answer through |
| EndToEnd.StepKeepsTruthIff | internal/engine/a/transport/ws_handler.go:130-277 | every step of runtime, connections and clients keeps the world true, except exactly the hazardous ones |
| EndToEnd.ClientsShowTheReplay | web/src/hooks/use-engine-a.ts:40-69 | without hazards, under any interleaving, a client shows the replay of the log up to its lastSeq, its actions included, or nothing yet; a win only if the run is won, and applied actions only if logged |
| EndToEnd.TickReachesClient | internal/engine/a/transport/ws_handler.go:298-332 | on an idle connection a tick is passed on, not lost |
| EndToEnd.OnlyTicksShow | internal/engine/a/service/sim.go:36-47 | snapshots change exactly with ticks |
| Connections.HandlerJudgement | internal/engine/a/transport/ws_handler.go:315-332 | a stale answer is dropped, the next one passed on, one beyond a gap or without a seq closes the connection |
| Connections.StreamerJudgement | internal/engine/a/transport/ws_handler.go:298-332 | the same for a streamed tick |
| Connections.PassedOnIsWritten | internal/engine/a/transport/ws_handler.go:328-330 | what was passed on is written while the writer is open |
| Connections.OpenOutcome | internal/engine/a/transport/ws_handler.go:168-189 | a greeted connection starts at its snapshot, unsubscribed; a failed greeting leaves its client without one |
| Connections.SubscribeOutcome | internal/engine/a/transport/ws_handler.go:211-217 | a subscription starts the stream and changes nothing else; a failed one closes the connection |
| Connections.SendOutcome | internal/engine/a/transport/ws_handler.go:255-266 | an accepted action is acknowledged and its delta judged next; a refused one closes the connection |
| Connections.ReadOutcome | web/src/hooks/use-engine-a.ts:40-78 | a client reads one message; a delta out of place makes it throw the connection away |
| Connections.EndOutcome | internal/engine/a/transport/ws_handler.go:130-132 | a client that leaves lets go of its connection, a handler that returns closes it, and a process that dies closes them all and keeps only the log |
| Broadcast.TurnIsBroadcast | cmd/engine-a/runtime.go:171-185 | a turn adds its delta or result to every subscribed connection with room and changes nothing else of any connection |
| Broadcast.WinReachesClient | cmd/engine-a/runtime.go:168-183 | the winning tick hands true to every open subscribed connection with room; once written and read the browser shows the win, unless a gap made it start over |
| Broadcast.ReconnectShowsCurrent | web/src/hooks/use-engine-a.ts:44-64 | a client that connects and reads its greeting shows the run exactly as it stands, a win included |
| Retries.RepeatedReplyTrueIff | cmd/engine-a/runtime.go:98-107 | a repeated request's reply is true exactly when nothing has ticked since |
| Retries.RepeatMisleadsIff | internal/engine/a/transport/ws_handler.go:255-266 | a request repeated and answered at once writes something untrue exactly if the writer is open, the tracker is one short of its seq and a tick came since |
| Retries.OwnOrLaterIsCourteous | internal/engine/a/transport/ws_handler.go:406-418 | the connection that logged a request, and any whose snapshot came at or after it, is past its seq |
| Retries.LaterConnectionIsAhead | internal/engine/a/transport/ws_handler.go:178-189 | a connection opened after an entry, by reconnecting or after a restart, is past it from its first moment on |
| Retries.CourteousRunsAreSafe | internal/engine/a/transport/ws_handler.go:315-332 | if requests are only repeated there, or while nothing has ticked since, no answer misleads anybody, so every client shows the replay |
| TwoTabs.ClientShowsUntruth | internal/engine/a/transport/ws_handler.go:165-189 | a run of handlers, registry, runtime and browsers in which a browser shows, as the run after two entries, what it was after three |
| Sockets.ServiceRunsTheWorld | internal/engine/a/transport/ws_handler.go:165-277 | a run of handlers and registry is a run of the world, so every result about those holds |
| Sockets.EveryServiceRunOk | internal/engine/a/transport/ws_handler.go:362-398 | handlers and connections agree on who is closed, and an open connection has one handler |
| Sockets.GreetOutcome | internal/engine/a/transport/ws_handler.go:168-172 | a greeting seats its handler on a new connection, or closes it when the run cannot be served |
| Sockets.OnlyServingHandlersAct | internal/engine/a/transport/ws_handler.go:235-266 | a handler takes no action before it has greeted or after it has unregistered |
| Sockets.GreetsAfterClosing | internal/engine/a/transport/ws_handler.go:165-168 | nor does it greet before it has closed the writer it replaces |
| Sockets.ExitOutcome | internal/engine/a/transport/ws_handler.go:130-132 | a handler that has left has closed its connection |
| Sockets.OneConnectionStays | internal/engine/a/transport/ws_handler.go:362-370 | of two open connections of a run at least one is about to be closed |
| Sockets.OneOpenWhenSettled | internal/engine/a/transport/ws_handler.go:362-378 | once replacers and exits are through, at most one connection is open |
| Sockets.ClosedWireGainsNothing | internal/engine/a/transport/ws_handler.go:380-387 | nothing is added to the wire of a closed connection |
| Sockets.MisledByReplaced | internal/engine/a/transport/ws_handler.go:315-332 | an answer can only mislead if its entry was logged for another connection after this one's snapshot, and that one is closed, or one of the two is about to be |
| Pace.PaceStep | cmd/engine-a/runtime.go:279-286 | a step leaves an open connection at the end of the log exactly if it hands it the newest entry, or adds none and it was there already |
| Pace.SettledConnectionIsCurrentIff | internal/engine/a/transport/ws_handler.go:298-332 | an open connection with nothing left to judge is at the end of the log exactly if some step handed it the newest entry |
| Pace.NobodyCatchesUpAfterTheEnd | cmd/engine-a/runtime.go:168-185 | after the tick that ends a run, no connection open at that time ever reaches the end of the log |
| StartRun.NextPhaseOk | internal/engine/a/service/run_service.go:125-183 | each statement leaves its call in agreement with the row and moves the row only as its phase allows |
| StartRun.LookupAnswers | internal/engine/a/service/run_service.go:198-225 | a row of another room is a conflict, one of its own room without a run is in progress, one with a run gives it, and nothing else changes |
| StartRun.LoserLooksAgain | internal/engine/a/service/run_service.go:136-150 | a call that loses the race to reserve changes nothing and looks again |
| StartRun.FaultEndsCall | internal/engine/a/service/run_service.go:125-183 | a failed statement never lets its call go on: it cleans up if it had reserved, and ends in an error if not |
| StartRun.CleanUpFreesKey | internal/engine/a/service/run_service.go:155-161 | cleaning up frees the key unless it was completed |
| StartRun.RunsCreated | internal/engine/a/service/run_service.go:163-166 | a run is created for its caller's room, and stays behind when its caller is told otherwise |
| StartRun.UnknownUpdateSurvives | internal/engine/a/service/run_service.go:155-175 | an UPDATE that took effect though reported as failed outlives the clean-up |
| StartRun.UpdateUnderWay | internal/engine/a/service/run_service.go:172-175 | a call that gives up or dies while completing leaves its UPDATE under way until it lands |
| StartRun.EveryInterleavingOk | internal/engine/a/service/run_service.go:111-183 | over every interleaving with failures, crashes, unknown outcomes and harmless late updates, calls and row agree |
| StartRun.OneOwner | internal/engine/a/service/run_service.go:136-161 | at most one call owns the reservation |
| StartRun.SuccessIsOwnRun | internal/engine/a/service/run_service.go:125-183 | whoever succeeds gets the stored run, and it was created for the room it asked for |
| StartRun.SuccessesAgree | internal/engine/a/service/run_service.go:125-183 | all successful calls return the same run under one fingerprint |
| StartRun.CompletedIsFinal | internal/engine/a/service/run_service.go:160-175 | a completed key never changes |
| StartRun.OtherFingerprintNeverSucceeds | internal/engine/a/service/run_service.go:208-210 | once completed, no call with another fingerprint succeeds |
| StartRun.RetryGetsStoredRun | internal/engine/a/service/run_service.go:125-134 | a retry gets the stored run and creates none |
| StartRun.LoneCallSucceeds | internal/engine/a/service/run_service.go:136-182 | a lone call on a free key completes it with the run it created |
| StartRun.StuckForever | internal/engine/a/service/run_service.go:198-212 | a reservation without an owner, and without an UPDATE for its room under way, stays, and no call on its key ever succeeds |
| StartRun.StuckIff | internal/engine/a/service/run_service.go:154-175 | a reserved key is stuck exactly if nothing harmless that can follow changes its row |
| StartRun.StrandsIff | internal/engine/a/service/run_service.go:155-161 | a key gets stuck exactly by an INSERT reported as failed, a clean-up that fails, or the owner's death, with no UPDATE for its room under way |
| StartRun.LandHarmlessIff | internal/engine/a/service/run_service.go:172 | exactly when an UPDATE landing after its caller gave up keeps the invariant and every completed key |
| StartRun.LateUpdateWitness | internal/engine/a/service/run_service.go:172 | a run where it does not, and the next call is given a run of another room |
| StartRun.CompletedKeyRewritten | internal/engine/a/service/run_service.go:172 | a run where it rewrites a completed key |
| Registry.ConnWriter.Write | internal/engine/a/transport/ws_handler.go:380-387 | writes exactly while open |
| Registry.ConnWriter.CloseWith | internal/engine/a/transport/ws_handler.go:389-398 | closes once; nothing follows the close frame |
| Registry.WsHandler.RegisterActive | internal/engine/a/transport/ws_handler.go:362-370 | the new writer is active and the one it replaced is closed with code 4009, once |
| Registry.WsHandler.UnregisterActive | internal/engine/a/transport/ws_handler.go:372-378 | removes the entry only if it is the caller's own |
| Registry.EveryInterleavingOk | internal/engine/a/transport/ws_handler.go:362-398 | the active writer is the last registered, every other is closed or about to be, and nothing is written after a close |
| Registry.ActiveStays | internal/engine/a/transport/ws_handler.go:362-378 | only its own exit or a newer registration takes the active place, and no replacer closes the active writer |
| Registry.ReplacedIsTold | internal/engine/a/transport/ws_handler.go:362-370 | a replacer closes the writer it found with code 4009, and then serves |
| Registry.HandlerSteps | internal/engine/a/transport/ws_handler.go:372-398 | a writer sends while open and closes once; registering takes the active place, unregistering gives up only one's own |
| Registry.InactiveIsReplaced | internal/engine/a/transport/ws_handler.go:362-370 | a registered writer neither active nor leaving is closed, or its replacer is about to close it |
| Registry.LeavingWitness | internal/engine/a/transport/ws_handler.go:372-378 | a writer that has unregistered itself can be inactive, open and without a replacer |
| Heartbeats.Heartbeat.CheckOnce | internal/engine/a/transport/ws_handler.go:347-357 | one turn of the heartbeat ticker |
| Heartbeats.AnsweringClientIsKept | internal/ws/heartbeat.go:35-49 | a client that answers within d is never timed out if interval, check period, d and start lag fit in the timeout |
| Heartbeats.DefaultsTolerate | internal/ws/heartbeat.go:8-11 | with the default settings any answer within 43.75 seconds is enough |
| Heartbeats.SilentClientIsClosed | internal/engine/a/transport/ws_handler.go:334-360 | a silent client is closed after pongTimeout, not before, and within one check period |
| Heartbeats.SilentAfterPong | internal/ws/heartbeat.go:35-49 | counted from the last pong |
| Heartbeats.DefaultsClose | internal/ws/heartbeat.go:8-11 | with the default settings a silent client is closed after 75 and within 81.25 seconds |
| Heartbeats.CheckPeriodMeaning | internal/engine/a/transport/ws_handler.go:334-338 | checks come four times per ping interval, but never more often than every 10 milliseconds |

## Left out

- Postgres, object storage, bundle loading, JSON, HTTP upgrade and UUID parsing: tables are sequences or one row with their constraints, payloads are values.
- Token minting and checking: hello is taken as accepted, and minting either works or fails.
- The second publishing reservation in internal/platform/publish/service.go: the same protocol in a weaker form.
- GraphQL, auth, catalog, `roomctl`, `cmd` wiring, React components and reconnect back-off.
- Tracker.EngineAHook.Receive: topology, total ticks, log lines and messages without a seq are left out, because Engine A never sends them.
- Heartbeats.Heartbeat.CheckOnce: one clock reading stands for the three of a turn, and the ping in between takes no time.
- Runtime.Step: the time kept in `nextTickAt` is an arbitrary choice (`early`) at each turn, so no claim is made about when ticks happen.
- RunRepo.PostgresRunRepo.AppendAction: the other callers' rows land right after its first lookup; finer interleavings are in `ActionTable.Step`.
- EndToEnd.WorldStep: a leaving handler stops and closes in one step, and the end of a subscription stops the connection's channel; `Connect` and the snapshot write are one step, since nothing else can write to that connection before them; a connection whose streamer has stopped forgets its channel, which nobody reads again.
- Registry.WsHandler.RegisterActive: models the swap and the close of the replaced writer as one call; their interleaving with others is in `Registry.Step`.
- Raw wire order between an action's reply and streamed ticks: it depends on timing, not on a lock.
