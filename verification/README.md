# Verified model of the assistant harness

A Dafny model of the stateful protocols of the harness crate, with proofs of what they keep in
every run. Verify everything with `dafny verify dfyconfig.toml`.

## What is modelled

| file | subject |
|---|---|
| `Approvals.dfy` | approval requests: creation under a limit, resolution by an external actor, the expiry sweep |
| `GatedActions.dfy` | governed actions: planning, routing to approval requests, resolution, execution, recovery, interleaved and crashing |
| `RoutingLimits.dfy` | what approval routing keeps when routers overlap: unique pending requests, refused inserts, the pending limit |
| `GatedActionTables.dfy` | governed actions as the program updates their tables |
| `ActionCap.dfy` | what happens at the action cap, as configured |
| `TurnLoop.dfy` | the bounded loop of a conscious turn and its action cap |
| `Ingress.dfy` | foreground ingress: staging, planning, completion, reclaiming of stale work, draining a backlog |
| `Bindings.dfy` | reconciliation of the conversation-binding table with its two unique sides |
| `Memory.dfy` | memory merges, supersession chains, duplicate detection |
| `Jobs.dfy` | background jobs: planning, leasing with row locks, the status writes and worker lease of an execution, recovery; what every run keeps |
| `JobRuns.dfy` | how jobs and runs agree while recovery meets nobody |
| `JobRecovery.dfy` | when recovery takes a job from a live worker, which jobs it brings back, and which nothing brings back |
| `JobPlanning.dfy` | planners that overlap and lose, and planners that do not |
| `JobTables.dfy` | background jobs as the program updates their tables |
| `DedupKeys.dfy` | deduplication keys and their normaliser |
| `Migrations.dfy` | migration history: checksums and line endings, validation, application with restarts, upgrade assessment |
| `Fingerprints.dfy` | canonical capability scopes |
| `FetchedText.dfy` | line normalisation, removal of terminal escapes, removal of HTML blocks |
| `Text.dfy` | trimming, joining and splitting |

Database tables are sequences (a row's position is its identifier, so the next identifier is
always fresh and a larger one is newer) or maps. A committed transaction is one atomic step, and so is
a single statement outside of any transaction. Where several activities overlap, a run is a list of
moves of numbered threads, each thread being in a phase between two of its steps; `After` (in
`GatedActions`, `Jobs`, `Ingress`, `Memory`) gives the state after any such list, so a lemma about
`After(…, moves)` speaks about every interleaving, and a thread that is never moved again, or moved by
`Crash`, has stopped there. A conditional update (`UPDATE … WHERE status = 'pending'`) is a
compare-and-set. A statement that a unique index or a CHECK of the tables refuses ends its thread with an
error and changes nothing. Clocks are parameters. What workers, policy, routing and execution answer is
arbitrary. `executions` and `gated` in `GatedActions` and `handovers` in `Ingress` are histories
that the program does not read.

The classes hold the tables as the program updates them; each of their methods is proved equal to
the step function, or list of steps, that the lemmas are about.

## Properties that do not hold, and when they do

- Several action records can wait for one approval request. Its approval starts the newest only;
  `ApprovalStrandsOlderActions` and `StrandedActionsWaitForever` show that the others wait for ever.
  The same happens to what is attached when a sweep expires a request, or a resolver stops half-way
  (`SweepStrandsActions`, `CrashStrandsActions`); `SharedApprovalStrandsTheFirst` is a run from empty tables.
- Lookup and insert of an approval request are not one transaction. The unique indexes keep one pending request for a
  fingerprint all the same (`RequestsStayUnique`), at the price of a router that ends in an error and an action that
  waits for ever (`LateInsertIsRefusedIff`, `RefusedRoutersAbandonTheirActions`, `OverlappingRoutersLoseAnAction`). The
  limit of pending requests has no such guard: `LimitHoldsIffInsertsFindRoom` says exactly when a run keeps it,
  `SerialRoutingKeepsTheLimit` that serial routing does, `OverlappingRoutersPassTheLimit` that overlapping routers can pass it.
- A planner of a background job need not answer with a job or a duplicate: one that is overtaken between its check and its
  insert ends in an error (`PlannerLosesIff`, `OverlappingPlannersLose`; `SerialPlannersNeverLose`). Two active jobs never
  have one key (`KeysStayUnique`).
- Recovery looks for runs without a worker lease, and live workers have none at times (`LiveWorkersAreListedIff`). It takes
  the job from such a worker exactly when the run is running (`RecoveryTakesLiveJobIff`), and then two workers can execute
  one job (`OneJobGetsTwoWorkers`).
- A job whose worker has gone is brought back only if its run is running (`CrashedJobComesBackIff`). If the worker stopped
  between leasing and the start of the run, recovery would have to fail a run without start time, which the table does not
  allow: the job is stuck, its key is blocked (`StuckJobsBlockTheirKey`), the run is listed again at every later restart
  (`UnstartedRunsStayListed`), and the recovery there ends in an error at it (`RecoverAtRestart`). If the worker stopped
  between the end of the run and that of the job, the job is not listed at all, and stuck as well.
- After a start, recovery can leave an action invalidated although its request is approved (`RecoveryDecides`).
- A worker may finish an ingress row after another execution reclaimed it (`LateWorkerClosesReclaimedRow`), but not
  before the stale threshold has passed since it was given the row (`TimelyCompletionIsExclusive`,
  `ThresholdIsExact`); whether it does can be read off the row (`HeldLaterIffStampMoved`).
- The action cap bounds completed actions, not starts: what its backend blocks after the start is not counted
  (`BlockedStartsPassTheCap`). `StartsStayWithinCapIff` says of a turn when the starts stay within it, and
  `CapBoundsStartsIffNothingBlocksLate` of which workers they always do.
- Memory duplicates are looked for among 32 rows, outside the transaction. `MergeDuplicatesIff` and
  `MoveKeepsMemoriesDistinctIff` say exactly when one arises in serial and in overlapping merges.
- Marking an artifact superseded is unconditional. `SupersedeKeepsChainsIff`, `MoveKeepsChainsIff` and
  `ChainsHoldIffTargetsAreActive` say exactly when overlapping merges keep the chains.
- A CR LF copy of a migration has the checksum of the original exactly when the original holds no CR LF pair
  of its own (`CrlfCopyNormalizesAlikeIffNoCrlf`).
- Removing HTML blocks can splice a new opening tag together (`RemovalCanSpliceAnOpeningTag`). It does so exactly where
  one runs across the place of a removed block (`OpeningIsLeftIffSpliced`), and never when no text in front of a removed
  block ends in a beginning of a tag (`NoTagIsLeftWithoutJoins`).
- With the cap behaviour "always approve" nothing bounds a round (`AlwaysApproveIgnoresTheCap`).

## Model

| member | source | states |
|---|---|---|
| Approvals.ParsedActorIffWritten | crates/harness/src/approval.rs:795-808 | an actor reference is accepted exactly when it is, up to surrounding space, `surface:principal` of a well-formed non-system actor, and it names that actor |
| Approvals.DueSnapshot | crates/harness/src/approval.rs:516-548 | the sweep's snapshot holds every pending request whose expiry has come, once, by expiry and then by identifier, and nothing else |
| Approvals.ChosenTransitionIsLegitimate | crates/harness/src/approval.rs:464-491 | whatever transition is chosen: expired exactly at or after the expiry, invalidated exactly before it with another fingerprint, and a decision only by the requester's principal |
| Approvals.ResolutionIsLegitimate | crates/harness/src/approval.rs:411-510 | every event a resolution attempt can commit belongs to the request with the attempt's token, is legitimate, and answers this attempt |
| Approvals.ResolvesIff | crates/harness/src/approval.rs:411-510 | an attempt resolves the request with its token exactly when it is well-formed, the request pending, and it is late, for another fingerprint, or by the requester; the event is then the expiry, the invalidation, or the decision, approval or rejection, with actor, time and reason of the attempt |
| Approvals.RefusalsSayWhy | crates/harness/src/approval.rs:760-793 | each refusal of an attempt holds for the reason it gives |
| Approvals.ResolverAndSweepAgreeOnExpiry | crates/harness/src/approval.rs:464-471 | an attempt expires a pending request exactly when a sweep at that time would find it due, and then both leave the same tables |
| Approvals.RecordingKeepsSettled | crates/harness/src/approval.rs:599-661 | a legitimate event keeps: one event per resolved request, none for a pending one, and rows that say what their event says |
| Approvals.OpeningKeepsSettled | crates/harness/src/approval.rs:117-193 | a new request keeps the same |
| Approvals.RefusedIffNotUnique | migrations/0006__workspace_and_governed_actions.sql:78-99 | the unique indexes refuse exactly the new requests that would leave two pending ones with one fingerprint, or two with one token |
| Approvals.PendingCountIsTheirNumber | crates/harness/src/approval.rs:663-682 | the count that the limit is compared with is the number of pending requests |
| Approvals.SweepRecordsItsRequests | crates/harness/src/approval.rs:550-597 | a sweep over distinct pending requests appends exactly one expiry event for each, in order |
| Approvals.SweepTouchesOnlyItsRequests | crates/harness/src/approval.rs:550-597 | a sweep changes no request outside its list |
| Approvals.SweepLeavesNothingDue | crates/harness/src/approval.rs:512-597 | an undisturbed sweep expires exactly what was due, and afterwards nothing is due |
| Approvals.ApprovalRequests.CreateApprovalRequest | crates/harness/src/approval.rs:102-208 | creation appends a pending row exactly when no text is blank, the expiry is after the request, fewer than the limit are pending and the unique indexes allow it; otherwise nothing changes and the error is the first of these |
| Approvals.ApprovalRequests.UpdateWherePending | crates/harness/src/approval.rs:599-661 | the compare-and-set: it fails and changes nothing unless the request is pending, else writes the row and appends its event |
| Approvals.ApprovalRequests.ResolveApprovalRequest | crates/harness/src/approval.rs:411-510 | the transaction with all its refusals is the resolution step of the model |
| Approvals.ApprovalRequests.ExpireDueApprovalRequests | crates/harness/src/approval.rs:512-597 | the sweep loop is the sequence of one-request expiries over the snapshot, and returns exactly the events it appended |
| GatedActions.NewestAttached | crates/harness/src/governed_actions.rs:285-323 | the action found for a request is attached to it, and none that is attached is newer |
| GatedActions.EveryRunKeepsInv | crates/harness/src/foreground_orchestration.rs:342-541 | the invariant of tables, actions, executions and threads holds after any interleaving of routers, resolvers, sweeps, recoveries and crashes |
| GatedActions.GatedActionsRunOnlyWhenApproved | crates/harness/src/foreground_orchestration.rs:392-541 | in every run, an action planned as needing approval or escalated at the cap is started only with its attached request approved, for the same fingerprint; one started without a request was never gated |
| GatedActions.NothingRunsTwice | crates/harness/src/foreground_orchestration.rs:399-466 | in every run, no action is started twice and no approval starts two actions |
| GatedActions.StatusesTellTheTruth | crates/harness/src/governed_actions.rs:485-521 | in every run, recoveries included: executed or failed means a start happened, awaiting approval means gated and not started, a decision status means the attached request was decided so; only a started action under an approved request is invalidated against its request |
| GatedActions.RecoveryDecides | crates/harness/src/recovery.rs:1264-1541 | the status that recovery gives to a started action whose lease ran out, for every evidence, with and without request, repeatable or not; it is invalidated against its approved request exactly when it has one, cannot be repeated and left no evidence; nothing else changes |
| GatedActions.OutcomesAreRecorded | crates/harness/src/governed_actions.rs:2246-2345 | in every run, a finished execution leaves executed, failed or blocked exactly as it ended, and changes nothing else |
| GatedActions.CapDecides | crates/harness/src/foreground_orchestration.rs:1482-1604 | in every run, a planned action is made ready to run without approval exactly if it needs none and no cap escalates or denies it; it is gated, awaiting approval and routed exactly if it needs approval or the cap escalates and no cap denies it; a denying cap blocks it |
| GatedActions.EscalatedActionsRunOnlyWhenApproved | crates/harness/src/foreground_orchestration.rs:1540-1590 | whether it needs approval or not, an action planned at a cap that escalates is started in every continuation only under its approved request for its fingerprint |
| GatedActions.PlannedForApprovalRunsOnlyWhenApproved | crates/harness/src/governed_actions.rs:99-130 | so is an action planned as needing approval, which is recorded as awaiting it unless policy blocks it |
| GatedActions.RequestsMatchTheirEvents | crates/harness/src/approval.rs:599-661 | in every run, a request is pending exactly when it has no event, has at most one, and says what that event says |
| GatedActions.ResolutionsArePermanent | crates/harness/src/approval.rs:609-634 | a recorded event and the request row that matches it are the same in every continuation of a run |
| GatedActions.DecisionsComeFromAttempts | crates/harness/src/approval.rs:464-491 | in every run, each approval, rejection or invalidation answers an attempt made in that run, in time, with that token and, for a decision, that fingerprint and the requester's principal |
| GatedActions.ApprovalStartsTheNewest | crates/harness/src/foreground_orchestration.rs:399-466 | after an approval, find, sync and start begin exactly the newest attached action |
| GatedActions.ApprovalStrandsOlderActions | crates/harness/src/governed_actions.rs:285-323 | an approval that starts the newest attached action leaves every older one unchanged and stranded |
| GatedActions.StrandedActionsWaitForever | crates/harness/src/governed_actions.rs:312-315 | an action attached to a settled request that no thread acts on is never started or changed in any continuation |
| GatedActionTables.SharedApprovalStrandsTheFirst | crates/harness/src/foreground_orchestration.rs:1621-1664 | from empty tables: two actions with one fingerprint are routed to one request, its approval starts the second, and in every continuation the first waits |
| GatedActions.SweepStrandsActions | crates/harness/src/approval.rs:550-597 | a sweep that expires a request strands every action attached to it |
| GatedActions.CrashStrandsActions | crates/harness/src/foreground_orchestration.rs:370-466 | a resolver that stops between its resolution and the start strands every action attached to the request |
| GatedActions.AbandonedActionsNeverRun | crates/harness/src/foreground_orchestration.rs:1446-1604 | an action attached to no request that no thread is routing, for example after a crash, is never started or changed in any continuation |
| GatedActions.PolicyBlockedActionsNeverRun | crates/harness/src/governed_actions.rs:110-130 | an action blocked by policy at planning stays blocked and never runs |
| GatedActions.DeniedActionsNeverRun | crates/harness/src/foreground_orchestration.rs:1498-1549 | an action denied at the cap stays blocked and never runs |
| RoutingLimits.RequestsStayUnique | migrations/0006__workspace_and_governed_actions.sql:78-99 | in every run, however routers overlap, no fingerprint has two pending requests and a token names one request |
| RoutingLimits.LateInsertIsRefusedIff | crates/harness/src/approval.rs:122-176 | an insert by a router that found its fingerprint free is refused exactly when a request with that fingerprint was inserted since and is still pending |
| RoutingLimits.RefusedRoutersAbandonTheirActions | crates/harness/src/foreground_orchestration.rs:1621-1664 | the action of a refused router stays attached to nothing, and no continuation routes, starts or changes it |
| RoutingLimits.OverlappingRoutersLoseAnAction | crates/harness/src/foreground_orchestration.rs:1621-1664 | of two routers with one fingerprint that both look before either inserts the second is refused, and its action awaits approval for ever |
| RoutingLimits.SerialRoutingKeepsTheLimit | crates/harness/src/foreground_orchestration.rs:1612-1664 | if never two routers are between lookup and insert, no insert is refused for its fingerprint and none passes the pending limit, throughout the run |
| RoutingLimits.MoveKeepsLimitIff | crates/harness/src/approval.rs:102-117 | from within the pending limit, a move keeps it exactly when it commits no request, or one while fewer than the limit are pending |
| RoutingLimits.LimitHoldsIffInsertsFindRoom | crates/harness/src/approval.rs:102-117 | a run stays within the pending limit throughout exactly when every request it commits still finds such room |
| RoutingLimits.OverlappingRoutersPassTheLimit | crates/harness/src/approval.rs:106-117 | two routers for different actions that both count before either inserts leave two pending requests under a limit of one |
| GatedActionTables.RoutingShares | crates/harness/src/foreground_orchestration.rs:1621-1664 | routing attaches the action to a pending request for its fingerprint and creates none |
| GatedActionTables.RoutingCreates | crates/harness/src/foreground_orchestration.rs:1628-1664 | without one it creates a request and attaches the action to it, or changes nothing when the form is invalid, the limit is reached or the token is taken |
| GatedActionTables.DecisionReachesTheNewest | crates/harness/src/foreground_orchestration.rs:370-466 | the closed form of resolve, find, sync and execute: only the newest action changes, to the status the decision, policy check and outcome give |
| GatedActionTables.NothingToStart | crates/harness/src/foreground_orchestration.rs:376-391 | a refused attempt, or one on a request no action waits for, starts nothing |
| GatedActionTables.SweepsExpireTheirList | crates/harness/src/approval.rs:550-597 | a sweep thread that nobody disturbs expires the first requests of its list, in order, one for each step |
| GatedActionTables.GovernedActions.PlanGovernedAction | crates/harness/src/governed_actions.rs:99-205 | the planning write is the planning step of the model |
| GatedActionTables.GovernedActions.RouteForApproval | crates/harness/src/foreground_orchestration.rs:1612-1682 | the routing statements are the routing steps of the model; on success the action waits for a pending request with its fingerprint |
| GatedActionTables.GovernedActions.ExecuteGovernedAction | crates/harness/src/governed_actions.rs:523-725 | the status writes of an execution are the start and finish steps of the model; one that ends in an error after its start leaves the start only |
| GatedActionTables.GovernedActions.ResolveApproval | crates/harness/src/foreground_orchestration.rs:342-466 | the statements of the resolution path, stopped after any number of them, leave the state after as many of the five steps of the model |
| TurnLoop.ProcessedIsOk | crates/harness/src/foreground_orchestration.rs:1430-1610 | for any proposals and answers, a round's counts balance, its tracker counts its completed actions, only ungated proposals were run, and the cap bounds what was completed, also when an error ends it |
| TurnLoop.RoundAtCap | crates/harness/src/foreground_orchestration.rs:1482-1575 | a round that begins at the cap starts nothing unless the cap is approved: all that is planned is routed, or all is denied and the limit reported |
| TurnLoop.GatedProposalsAreRouted | crates/harness/src/foreground_orchestration.rs:1577-1590 | in a finished round everything that needs approval was routed unless a denying cap was reached, and the limit is reported only then |
| TurnLoop.FateOfEachProposal | crates/harness/src/foreground_orchestration.rs:1446-1604 | each proposal of a round is run exactly if it was planned, needs no approval and there is room below the cap or the cap is approved, routed exactly if it needs approval or the cap escalates and does not deny, and ends the round in an error exactly when planning, a write at the cap, routing or execution errs |
| TurnLoop.RoundsObserveOutcomes | crates/harness/src/foreground_orchestration.rs:1591-1604 | what a round observes as executed or failed is, in order, what was run and ended so |
| TurnLoop.RoundsFailOnlyOnErrors | crates/harness/src/foreground_orchestration.rs:1446-1604 | a round fails only if some proposal errs, and in one that does not fail all plans, routes and executions succeeded |
| TurnLoop.NothingGatedRuns | crates/harness/src/foreground_orchestration.rs:1482-1604 | under all three cap behaviours, and in turns that abort, nothing planned as needing approval runs inside the loop |
| TurnLoop.TurnStaysWithinCap | crates/harness/src/foreground_orchestration.rs:110-150 | unless the cap is always approved, a turn completes at most what the cap leaves of the initial count, for any worker, also when it aborts |
| TurnLoop.StartsStayWithinCapIff | crates/harness/src/foreground_orchestration.rs:1593-1603 | the starts of a turn are its completed actions, those its backend blocked after the start, and at most one ended by an error; they fit the cap exactly when the blocked ones fit beside the others |
| TurnLoop.CapBoundsStartsIffNothingBlocksLate | crates/harness/src/foreground_orchestration.rs:1446-1604 | over all workers that keep to a given set of proposals, all caps not always approved and all initial counts: no turn starts more than its cap leaves exactly when the set has no ungated action that its backend blocks after the start |
| TurnLoop.BlockedStartsPassTheCap | crates/harness/src/governed_actions.rs:2182-2245 | any number of actions that are blocked after their start runs in one round below a cap of one |
| TurnLoop.TurnTakesBoundedPasses | crates/harness/src/foreground_orchestration.rs:1729-1798 | a turn takes at most saturating cap plus two worker passes, and each but an aborted last one is a round |
| TurnLoop.StubbornWorkerGetsAllPasses | crates/harness/src/foreground_orchestration.rs:1729-1798 | the bound is reached: a worker that only proposes what is blocked gets exactly that many passes |
| TurnLoop.PendingAndSecondLimitRoundsAreLast | crates/harness/src/foreground_orchestration.rs:1774-1797 | a round with pending approvals or without observations is the last, and so is a second round at the limit |
| TurnLoop.TurnsEndExactlyWithReason | crates/harness/src/foreground_orchestration.rs:1730-1792 | the last round of a finished turn observed nothing, left approvals pending, was pass number cap plus two (saturating), or reached the limit after an earlier round had; no earlier round did any of these, so a turn goes on exactly as long as it should |
| TurnLoop.SummariesAddUp | crates/harness/src/foreground_orchestration.rs:99-108 | the merged summary is the sum of the rounds, with proposed = executed + blocked + pending and observations = executed + blocked |
| TurnLoop.PassesSeeEarlierObservations | crates/harness/src/foreground_orchestration.rs:1795-1797 | the first pass is shown what the turn began with, and each later one what the pass before it was shown in this turn and then what that pass led to |
| TurnLoop.AlwaysApproveIgnoresTheCap | crates/harness/src/foreground_orchestration.rs:1486-1496 | with the cap always approved, any number of ungated proposals run, whatever the cap |
| TurnLoop.ProcessGovernedActionProposals | crates/harness/src/foreground_orchestration.rs:1430-1610 | the proposal loop, with its early returns, ends in the round the lemmas are about |
| TurnLoop.ExecuteConsciousTurn | crates/harness/src/foreground_orchestration.rs:1711-1799 | the turn loop terminates in the turn the lemmas are about, and returns its merged summary exactly when it finishes |
| Ingress.OldestTouchIsLeast | crates/harness/src/foreground.rs:2171-2177 | the oldest touch is the touch of some row of the batch and no row's is older |
| Ingress.BacklogIff | crates/harness/src/foreground.rs:2145-2216 | a batch is recovered as a backlog exactly when it has two rows or more and is forced, resumes processing, or is large enough and spans or has a row waiting long enough; the reason given is the first of these that holds |
| Ingress.BacklogIsTakenWhole | crates/harness/src/foreground.rs:973-983 | of a backlog all rows of the batch are taken, of anything else the first alone |
| Ingress.InterruptedIsFirst | crates/harness/src/foreground.rs:1002-1005 | the interrupted execution is that of the first taken row in processing, and none if there is no such row |
| Ingress.EveryRunKeepsInv | crates/harness/src/foreground.rs:2252-2313 | the invariant of rows and handovers holds after any sequence of intake, staging, planning, completion and time passing |
| Ingress.SameRowOnlyAfterItIsStale | crates/harness/src/foreground.rs:931-1048 | in every run, two executions given the same row were given it at least the stale threshold apart |
| Ingress.ClosedRowsAreNeverSelected | crates/harness/src/foreground.rs:2252-2263 | a row once processed, rejected or never accepted is given to no execution in any continuation |
| Ingress.LateWorkerClosesReclaimedRow | crates/harness/src/foreground.rs:2297-2303 | a reachable state in which an execution completes a row another one reclaimed, exactly at the stale threshold |
| Ingress.TimelyCompletionIsExclusive | crates/harness/src/foreground.rs:937-946 | in every run, less than the stale threshold after a handover no later execution holds the row, so a completion then closes nobody else's row |
| Ingress.ThresholdIsExact | crates/harness/src/foreground.rs:937-946 | at the threshold a later execution can hold the row |
| Ingress.HeldLaterIffStampMoved | crates/harness/src/foreground.rs:2287-2313 | in every run, a later execution holds a row in processing exactly when the row no longer carries the time of the handover in question |
| Ingress.RowsTellTheirArrival | crates/harness/src/foreground.rs:2252-2313 | whatever follows, a row keeps the conversation, occurrence, arrival and acceptance of its message |
| Ingress.RoundCloses | crates/harness/src/foreground.rs:1006-1048 | planning and then completing processes exactly the selected rows and leaves all others as they were |
| Ingress.SelectionPrecedes | crates/harness/src/foreground.rs:2252-2263 | with nothing in processing, no waiting row that is left out comes before a selected one |
| Ingress.DrainDeliversInOrder | crates/harness/src/foreground.rs:954-1048 | repeated planning and completing delivers waiting rows by occurrence and arrival, none twice, always a first part of what waits |
| Ingress.DrainFinishes | crates/harness/src/foreground.rs:1092-1125 | after as many rounds as rows were waiting, all were delivered and the conversation is not listed as recoverable |
| Ingress.IngressEvents.ListRecoverable | crates/harness/src/foreground.rs:2218-2274 | the selection is ordered, within the limit, complete below it, and first in order |
| Ingress.IngressEvents.PlanPendingForegroundExecution | crates/harness/src/foreground.rs:931-1090 | there is no plan exactly when the conversation is not listed; else a backlog is planned whole with its last row as primary, anything else with its first row alone, with mode, reason and interrupted execution; exactly the planned rows go to processing for this execution, now |
| Ingress.IngressEvents.MarkIngressEventsProcessed | crates/harness/src/foreground.rs:1127-1144 | the loop marks exactly the given rows processed |
| Bindings.EveryOperationKeepsConstraints | crates/harness/src/foreground.rs:329-449 | both unique sides and all ingress references hold after every single row operation of a reconciliation |
| Bindings.ReconciliationIsBijectionUpdate | crates/harness/src/foreground.rs:272-327 | afterwards exactly those bindings hold that held before and share neither side with the request, and the request |
| Bindings.ReferencesFollow | crates/harness/src/foreground.rs:431-449 | ingress that referred to either side of the request refers to its row, every other reference and its row are unchanged |
| Bindings.ReconcilingTwiceChangesNothing | crates/harness/src/foreground.rs:272-327 | a second reconciliation of the same request changes nothing |
| Bindings.ReconciledRows | crates/harness/src/foreground.rs:272-327 | row by row: the carrier has the request, rows that share a side are gone, the rest stay |
| Bindings.ReportTellsWhatHappened | crates/harness/src/foreground.rs:272-327 | the row with the internal side keeps it, else that with the external side takes the request, else a new one; created, rebound, updated and merged are reported exactly for what they say |
| Bindings.ConversationBindings.Perform | crates/harness/src/foreground.rs:329-449 | a row operation is performed only where the constraints hold before and after it |
| Bindings.ConversationBindings.ReconcileConversationBinding | crates/harness/src/foreground.rs:272-327 | the five-way branch performs exactly the operations of the model and reports the carrier and the action |
| Memory.ScanSeesTheNewest | crates/harness/src/continuity.rs:476-518 | the scan returns an active artifact of the subject exactly when fewer than the limit are newer |
| Memory.AcceptedPlans | crates/harness/src/memory.rs:128-192 | an accepted plan supersedes an active artifact of the subject that the proposal names, or the proposal names none |
| Memory.AcceptedIff | crates/harness/src/memory.rs:128-192 | a proposal is accepted exactly if it is a memory without blanks of which the scan sees no copy, and is independent, or revises or supersedes a target that the scan sees; the plan is an insert or that supersession |
| Memory.RefusalsSayWhy | crates/harness/src/memory.rs:128-192 | each refusal is given exactly for the reason it states, and there are no others |
| Memory.SerialMergesKeepChains | crates/harness/src/memory.rs:26-126 | whatever is proposed, serial merges keep every superseded artifact linked both ways to one later successor of its subject |
| Memory.Latest | crates/harness/src/continuity.rs:1072-1099 | following successors ends at an active artifact of the same subject |
| Memory.SameChainIffComparable | crates/harness/src/continuity.rs:1072-1099 | chains are disjoint lines: two artifacts end at the same one exactly when one leads to the other |
| Memory.SupersedeKeepsChainsIff | crates/harness/src/continuity.rs:1072-1099 | committing a supersession keeps the chains exactly when the target is still active |
| Memory.MoveKeepsChainsIff | crates/harness/src/memory.rs:43-124 | in any run of overlapping merges, a move keeps the chains exactly when it supersedes nothing that has been superseded since its scan |
| Memory.ChainsHoldIffTargetsAreActive | crates/harness/src/memory.rs:43-124 | overlapping merges keep the chains throughout exactly when every supersession in the run finds its target active |
| Memory.RacingRevisionsOfOneNote | crates/harness/src/memory.rs:43-124 | two valid revisions of one memory, with any new texts, that both scan before either commits break them |
| Memory.MergeDuplicatesIff | crates/harness/src/memory.rs:150-158 | a merge makes an active duplicate exactly when it is accepted although a copy lies behind 32 newer active artifacts |
| Memory.MoveKeepsMemoriesDistinctIff | crates/harness/src/memory.rs:43-124 | in any run of overlapping merges, a move keeps active memories distinct exactly when its transaction leaves no other active copy standing |
| Memory.SmallSubjectsStayUnique | crates/harness/src/memory.rs:17 | while a subject has at most 32 active artifacts, active memories stay distinct over every run |
| Memory.ForgottenMemoryIsDuplicated | crates/harness/src/memory.rs:17 | the 33rd valid memory of a subject lets the first be accepted again |
| Memory.MemoryArtifacts.ListActiveBySubject | crates/harness/src/continuity.rs:476-518 | the listing loop computes the scan |
| Memory.MemoryArtifacts.ApplyMemoryProposalMerge | crates/harness/src/memory.rs:26-126 | the merge leaves the rows the lemmas are about, and reports the new artifact or the reason of the refusal |
| Jobs.NextDue | crates/harness/src/background.rs:392-457 | the job to lease is due and unlocked, the earliest available, and the oldest of those |
| Jobs.KeysStayUnique | migrations/0005__unconscious_loop.sql:58-60 | in every run, whatever planners, leasers, workers and supervisors overlap and wherever they stop, a key has at most one planned, leased or running job |
| JobRuns.AloneRunsKeepInv | crates/harness/src/background_execution.rs:47-325 | the invariant of jobs, runs, worker leases and threads holds in every run in which recovery lists no run that a worker or another supervisor holds |
| JobRuns.JobsAndRunsAgree | crates/harness/src/recovery.rs:838-945 | there a job has at most one run that has not ended, its newest; older ones have failed; a leased job has a leased run, and a running run a running job |
| JobRuns.EndedJobsHaveEndedRuns | crates/harness/src/background_execution.rs:610-633 | there the newest run of a completed job is completed, that of a failed job failed or timed out |
| JobRuns.OneRunEachWithoutRecovery | crates/harness/src/background_execution.rs:47-133 | as long as nothing is recovered, a job has at most one run at all |
| JobRuns.RunOutcomesAreRecorded | crates/harness/src/background_execution.rs:486-650 | the end of a run is completed, failed or timed out exactly as its worker ended, early or late; no other run changes |
| JobRuns.JobOutcomesAreRecorded | crates/harness/src/background_execution.rs:486-650 | the end of its job is completed after a success and failed after anything else; no other job changes |
| JobRecovery.AnswersCountIffLeaseIsActive | crates/harness/src/background_execution.rs:318-321 | a worker that has answered goes on exactly if its lease is still active |
| JobRecovery.LiveWorkersAreListedIff | crates/harness/src/background.rs:667-690 | as long as recovery has met nobody: the run of a live worker is listed exactly before the worker takes its lease, after it gives it back, and once the lease has expired |
| JobRecovery.RecoveryTakesLiveJobIff | crates/harness/src/recovery.rs:838-928 | as long as recovery has met nobody: it plans a job again under its live worker exactly when the run is running and has no active lease |
| JobRecovery.OneJobGetsTwoWorkers | crates/harness/src/background_execution.rs:265-287 | from empty tables: a recovery between the start of a run and its worker lease lets a second worker execute the same job |
| JobRecovery.RecoveryUnfolds | crates/harness/src/recovery.rs:838-928 | an uninterrupted recovery fails a run and plans its job again exactly when the run is listed and was started; of any other it changes nothing, because a run cannot fail without a start time |
| JobRecovery.CrashedJobComesBackIff | crates/harness/src/recovery.rs:838-928 | as long as recovery has met nobody: a job whose worker stops is planned again in some continuation exactly if the run is running; one whose worker stops before or after is stuck, before with a run that was never started |
| JobRecovery.StuckJobsBlockTheirKey | migrations/0005__unconscious_loop.sql:58-102 | a stuck job stays as it is in every continuation, and no job with its key is ever planned again |
| JobRecovery.UnstartedRunsStayListed | crates/harness/src/recovery.rs:896-910 | a run that was never started, of a stuck job, is listed for recovery in every continuation |
| JobRecovery.PassIsRecoveries | crates/harness/src/recovery.rs:843-958 | a pass over several listed runs that were started is their recoveries one by one |
| JobRecovery.ListedRunsHaveDifferentJobs | crates/harness/src/background.rs:672-690 | where recovery meets nobody, the runs it lists belong to different jobs |
| JobPlanning.SerialPlannersNeverLose | crates/harness/src/background_planning.rs:52-196 | planners that never overlap never lose: each insert finds its key free and commits, as long as recovery meets nobody |
| JobPlanning.PlannerLosesIff | crates/harness/src/background_planning.rs:83-188 | a planner that found its key free ends in an error and plans nothing exactly when a job with its key was inserted since and has not ended |
| JobPlanning.OverlappingPlannersLose | crates/harness/src/background_planning.rs:83-188 | of two planners for one request that both check first, one plans the job and the other ends in an error |
| JobTables.NewestActive | crates/harness/src/background.rs:459-502 | the active job found for a key is active, has the key, and is the newest such |
| JobTables.BackgroundJobs.PlanBackgroundJob | crates/harness/src/background_planning.rs:52-196 | planning rejects the incompatible pair of job and trigger kind, else inserts a job exactly when no active one has the key, or names the newest active one |
| JobTables.BackgroundJobs.LeaseNextDueJob | crates/harness/src/background_execution.rs:47-133 | beside other leasers' locks, a lease happens exactly when an unlocked job is due, and writes job and run together |
| JobTables.BackgroundJobs.RecoverRun | crates/harness/src/recovery.rs:896-928 | the two writes of a recovery, which is refused for a run that was never started and may stop between them |
| JobTables.BackgroundJobs.RecoverAtRestart | crates/harness/src/recovery.rs:843-958 | the loop recovers the listed runs in order and ends in an error at the first that was never started |
| JobTables.BackgroundJobs.ExecuteLeasedJob | crates/harness/src/background_execution.rs:234-325 | an execution that stops after any of its steps, worker lease included, leaves the tables of the model at that point |
| DedupKeys.NormalizerFixesComponents | crates/harness/src/background_planning.rs:431-452 | the normaliser yields non-empty dash-separated lower-case alphanumerics, leaves exactly those alone, and is idempotent |
| DedupKeys.NormalizerKeepsLetters | crates/harness/src/background_planning.rs:431-452 | the normaliser keeps letters and digits in order, in lower case, and the words they form; a text without any becomes unspecified |
| DedupKeys.KeyFields | crates/harness/src/background_planning.rs:226-251 | splitting a key at colons gives background, the two kinds and the normalised subject: of scheduled triggers the conversation or global, of others the payload, else the conversation, else the reason |
| DedupKeys.KeysIdentifyTheirParts | crates/harness/src/background_planning.rs:226-251 | two keys are equal exactly when the kinds of job and trigger are and these subjects normalise alike |
| LineEndings.NormalFormHasNoCr | crates/harness/src/migration.rs:324-326 | checksum normalisation leaves no CR, changes exactly the texts that hold one, and is idempotent |
| LineEndings.ReplaceCrlfUndoesToCrlf | crates/harness/src/migration.rs:312-326 | replacing CR LF undoes writing it |
| LineEndings.CrlfCopyNormalizesAlikeIffNoCrlf | crates/harness/src/migration.rs:308-326 | a CR LF copy normalises like its original exactly when the original holds no CR LF pair |
| Migrations.LineEndingCopiesStayCompatible | crates/harness/src/migration.rs:308-322 | LF and CR LF copies of a migration have one checksum, and the raw checksums of both stay compatible |
| Migrations.AcceptedIffCompatiblePrefix | crates/harness/src/migration.rs:249-280 | a history is accepted exactly when it is a prefix of the discovered migrations with compatible checksums |
| Migrations.RefusalNamesTheFirstFault | crates/harness/src/migration.rs:249-280 | a refusal names the first applied migration that does not fit, and whether it is unexpected, out of order or has another checksum |
| Migrations.MetadataRewriteKeepsVerdict | crates/harness/src/migration.rs:204-247 | rewriting the metadata leaves the verdict on every history, accepted or not, and is idempotent |
| Migrations.AcceptedHistoryNormalForm | crates/harness/src/migration.rs:204-247 | an accepted history is rewritten to what applying the same migrations now would record |
| Migrations.RunFromAcceptedHistory | crates/harness/src/migration.rs:107-167 | a run that stops after any number of commits has committed exactly the next migrations |
| Migrations.RestartsApplyEachMigrationOnce | crates/harness/src/migration.rs:107-167 | however often runs are interrupted and restarted, the missing migrations are executed once each, in order |
| Migrations.PendingVersionsAreWhatARunApplies | crates/harness/src/schema.rs:100-137 | the assessment reports as pending exactly the versions a full run executes |
| Migrations.AssessmentTellsTheState | crates/harness/src/schema.rs:70-137 | the assessment of every history: incompatible with the verdict, missing, too old, pending, too new or supported, each exactly for its versions |
| Migrations.FullRunsEndSupported | crates/harness/src/schema.rs:70-91 | after the last missing migration nothing is pending and the schema is supported |
| Migrations.SchemaMigrations.NormalizeAppliedMigrationMetadata | crates/harness/src/migration.rs:204-247 | the loop of updates is the rewrite the lemmas are about |
| Migrations.SchemaMigrations.CommitMissing | crates/harness/src/migration.rs:130-165 | the loop commits the missing migrations in order and stops at the first that does not commit |
| Migrations.SchemaMigrations.ApplyPendingMigrations | crates/harness/src/migration.rs:107-167 | an incompatible history is refused before anything is applied; otherwise the versions applied are the next ones |
| Fingerprints.NormalizedPathListIsOrderedSet | crates/harness/src/governed_actions.rs:3519-3526 | the normalised list is strictly sorted and has exactly the trimmed entries |
| Fingerprints.SameListIffSameTrimmedEntries | crates/harness/src/governed_actions.rs:3519-3526 | two lists normalise alike exactly when their sets of trimmed entries are equal |
| Fingerprints.CanonicalScopeIdentifiesGrants | crates/harness/src/governed_actions.rs:3274-3286 | two scopes have the same canonical form exactly when they grant the same, and canonicalising twice changes nothing |
| FetchedText.NormalizedLines | crates/harness/src/fetched_content.rs:114-131 | the result's lines are tidy, have no two blank lines in a row (none in plain mode), and hold the input's words line by line |
| FetchedText.NormalizingKeepsParagraphs | crates/harness/src/fetched_content.rs:114-131 | where blank lines are kept, the result has the same paragraphs of tidied lines as the input |
| FetchedText.NormalizingTwiceChangesNothing | crates/harness/src/fetched_content.rs:114-131 | line normalisation is idempotent in both modes |
| FetchedText.NormalizeLines | crates/harness/src/fetched_content.rs:114-131 | the loop computes the normal form |
| FetchedText.StrippedIsEscapeFreeSubsequence | crates/harness/src/fetched_content.rs:248-283 | stripping leaves an escape-free subsequence of the input |
| FetchedText.StrippedUnchangedIffEscapeFree | crates/harness/src/fetched_content.rs:248-283 | exactly the escape-free texts are left alone, and stripping is idempotent |
| FetchedText.StrippingUndoesRendering | crates/harness/src/fetched_content.rs:248-283 | text rendered with well-formed CSI and OSC sequences is given back without them |
| FetchedText.StripAnsiEscapeSequences | crates/harness/src/fetched_content.rs:248-283 | the cursor loop computes the stripped text |
| FetchedText.BlocksRemovedIffOpeningTagOccurs | crates/harness/src/fetched_content.rs:141-159 | removal leaves a subsequence, and changes exactly the documents in which an opening tag occurs, in any letter case |
| FetchedText.RemovalCanSpliceAnOpeningTag | crates/harness/src/fetched_content.rs:133-159 | the document `<scr<svg></svg>ipt>` leaves the four passes as `<script>` |
| FetchedText.OpeningIsLeftIffSpliced | crates/harness/src/fetched_content.rs:141-159 | one pass leaves an opening tag exactly when one runs across the place of a removed block |
| FetchedText.NothingIsLeftWithoutJoins | crates/harness/src/fetched_content.rs:141-159 | when no kept text in front of a removed block ends in a beginning of the tag, one pass leaves no opening tag and a second changes nothing |
| FetchedText.NoTagIsLeftWithoutJoins | crates/harness/src/fetched_content.rs:133-139 | when that holds in every pass for every tag, the four passes leave none of the opening tags, and repeating them changes nothing |
| FetchedText.DocumentsChangeIffATagOccurs | crates/harness/src/fetched_content.rs:133-139 | the passes change exactly the documents in which one of the opening tags occurs |
| FetchedText.RemoveNonContentHtmlBlocks | crates/harness/src/fetched_content.rs:133-139 | the loop over the tags computes the passes in order |
| FetchedText.RemoveHtmlTagBlocks | crates/harness/src/fetched_content.rs:141-159 | the loop computes the document without blocks |

## Left out

- Telegram delivery, the model gateway, worker processes, subprocess and HTTP execution: their answers are arbitrary.
- Policy, risk tiers and boundary checks: `violatesPolicy` and `needsApproval` are arbitrary at each check.
- Recovery of foreground executions, checkpoints and diagnostics: not part of this model. Of governed actions it is the status that the recovery of a lease timeout writes, of background jobs the recovery at a restart.
- Audit events, causal links, merge-decision rows, identity templates, message texts: not modelled.
- SQL schema: the unique indexes on pending fingerprints, tokens, active deduplication keys and bindings and the CHECK on a run's start time are modelled as refusals. Those on generated identifiers (a trigger with its job kind, lease tokens, proposals) are not, because these are taken to be fresh; isolation levels are represented by the choice of atomic steps.
- Ingress deduplication by external event, wake-signal staging and scheduled foreground tasks: not part of this model.
- Ingress planning takes one clock reading; the program reads its own clock before the transaction and stamps rows with the transaction's.
- Jobs: a worker lease may expire at any moment, instead of at its time; wake signals, suppression and cancellation writes are left out, and so is the end of a lease after its run has ended, which nothing reads.
- The order in which a recovery pass goes through its runs, and the limit of their number: the list is arbitrary.
- SHA-256 and JSON: the digest is an arbitrary function, and no collision resistance is claimed.
- Discovery of migration files and parsing of their names: `discovered` is any list with increasing versions.
- HTML to text, Markdown conversion, entity decoding and previews of fetched content: only block removal and line normalisation are modelled.
- Unicode: a Dafny character stands for one code point and byte offsets are character positions; whitespace is Unicode's, lower-casing is ASCII's, as in the program.
- Overflow of `usize` counters in the turn summary: the counts are unbounded; the `u32` counters saturate as in the program.
- Approvals.ApprovalRequests.CreateApprovalRequest: count and insert are one call here; their interleaving is in `GatedActions`.
