# CausalOps, verified

A Dafny model of CausalOps, a durable job system around a budgeted investigation agent: the replay
control plane and its two stores, the cost ledger and the gate in front of the paid model, the
investigation graph, the owner's decision path, bounded evidence and prompts, and the MCP stdio
connection to the tools. `dafny verify dfyconfig.toml` checks all of it.

## How it is built

| file | what it holds |
|---|---|
| `Wrappers`, `Text` | options and replies; Python's whitespace |
| `Decisions` | owner decisions, the resume value, the escalation record |
| `ControlPlane` | what each control-plane operation does to a job's joined row, and to the database |
| `Timeline` | an auditor that folds a job's events back into its row |
| `PlaneRuns`, `PlaneSteps` | every interleaving of operations and crashes; the invariants they keep |
| `PlaneHistory`, `PlaneTheorems` | what no run undoes; the guarantees over all runs |
| `Promises`, `Deliveries` | leases, backoff, hand-backs, submission, who may look and which delivery is next, read off the columns |
| `CrashRefinement` | two databases with a crash window refine one database |
| `Sweep`, `SqlitePlane`, `Workers` | the SQLite control plane as a class, and a worker's turn on it |
| `Hosted`, `FirestorePlane`, `DeliveryOrder` | the Firestore control plane, its lockstep with SQLite, and where it breaks |
| `CommandLine` | `causalops approve` / `reject`, whole and step by step, under crashes |
| `CostLedger`, `SendGate` | reserve, send, settle |
| `Preflight`, `DearestBatch` | the evaluation batch, what it can cost, and exactly whom the pre-flight check covers |
| `Graph`, `GraphTheorems` | the investigation graph and its budgets |
| `GraphReports` | what its nodes decide and when an owner is asked, on receipts and answers |
| `Trimming`, `Evidence` | bounded results, selected evidence |
| `Prompts`, `Rendering` | fenced text, and that it still says everything |
| `McpStdio`, `McpHandshake` | both ends of the stdio connection, and what they do over whole sessions |
| `McpChild` | the supervised child |

An operation of the control plane is written once as a function on a job's joined row (job, timeline,
mirrored decision, delivery). The classes keep the source's tables or collections and are proved to
leave exactly what that function says; the theorems are about the functions, over whole runs.

A run is any sequence of operations with any arguments and any clock readings, subject to what their
callers guarantee (`PlaneRuns.Legal`): ids and tokens are new, decisions passed their validators, a
thread is resumed only with a decision somebody was handed, and a resumed graph does not pause again.

## What the proofs found

- **Delivery order.** `claim_delivery` breaks ties by job creation in SQLite and by finalization in
  Firestore. Two runs give the same answers exactly when, at every claim, the first created of the
  deliveries due soonest was finalized first; finalizing jobs in the order of their creation is enough.
  `DeliveryOrder` gives a legal run in which the answers differ.
- **Pre-flight pricing.** The check counts every call at Sonnet's dearest price. It covers a model exactly
  when the model's worst batch costs no more: a run with tools can make `model_calls - 1 + repairs` dear
  calls and one cheaper one, a baseline one or two cheaper ones, and a corrected request must leave room
  for its correction. At the default budgets the check asks for 9.02 USD; the worst batch costs 5.20 with
  Sonnet and 12.99 with Opus, and at no point of the curve is Opus covered
  (`DearestBatch.WhatTheDefaultsCost`, `WhoTheCheckCovers`).
- **Over-long rejection notes.** The interrupt accepts a note of any length, the report refuses more
  than 300 characters. Only values that go round the owner boundary are affected.
- **Supersteps.** A comment at graph.py:116-119 gives nine as the longest path. The bound is three per
  model call, it is attained, and with four calls it is twelve (denied proposals cost no tool slot).
- **Empty corrections.** A repair whose error text is empty has the key of the request it repairs and is
  refused as ambiguous. Every other repair has a key of its own.
- **Lingering readers.** Request ids start again with each MCP child, and joining a replaced child's
  reader gives up after five seconds. A reader that outlives its child is harmless as long as no line is
  left in its pipe. If an answer is left, a later call can be handed it as its own; if any line is left, a
  later session can be wedged; and neither happens otherwise.
- **A foreign response id** does not poison the session and leaves its request outstanding with nobody
  reading, so every later call is refused until the child exits. It takes a lingering reader to bring one.
- **A backwards clock.** A report cannot be built when the clock ran back by a millisecond or more.
- **Firestore does not roll back.** An integrity error in its `claim_next` leaves the job running; the
  lockstep theorem shows that no run reaches it.

## Model

| member | source | states |
|---|---|---|
| `SqlitePlane.DecisionLedger.EnsureDecision` | src/causalops/api_runtime.py:378-423 | the first decision written for a thread stays; the same one again is accepted, another checkpoint is an integrity error, another decision a conflict |
| `SqlitePlane.DecisionLedger.Record` | src/causalops/approvals.py:270-310 | a thread's decision row is inserted once and never replaced |
| `SqlitePlane.SqliteReplayControlPlane.RenewRunning` | src/causalops/api_runtime.py:652-671 | four tables and ledger end as the joined specification says, for every state and outcome: only a current claim is extended |
| `SqlitePlane.SqliteReplayControlPlane.ReserveIncident` | src/causalops/api_runtime.py:673-718 | refines the joined specification: a current claim gets its scenario identity once, and the same one afterwards |
| `SqlitePlane.SqliteReplayControlPlane.MarkPaused` | src/causalops/api_runtime.py:1009-1048 | refines the joined specification: checkpoint written, claim cleared, one event; four distinct refusals |
| `SqlitePlane.SqliteReplayControlPlane.RequeueRunning` | src/causalops/api_runtime.py:1050-1069 | refines the joined specification: the holder may give the job back, expired or not |
| `SqlitePlane.SqliteReplayControlPlane.RetryRunning` | src/causalops/api_runtime.py:1071-1129 | refines the joined specification: bounded exponential backoff, failure at the attempt limit |
| `SqlitePlane.SqliteReplayControlPlane.FinalizeReport` | src/causalops/api_runtime.py:1134-1182 | refines the joined specification: content and hash stored, one delivery to the owner queued in the same transaction |
| `SqlitePlane.SqliteReplayControlPlane.ReclaimExpiredInvestigations` | src/causalops/api_runtime.py:533-579 | the loop over expired rows, in whatever order, does to every job what the specification does at once and leaves the others alone |
| `SqlitePlane.SqliteReplayControlPlane.ReconcileDurableDecisions` | src/causalops/api_runtime.py:436-500 | the loop over paused rows succeeds exactly when every row can be reconciled, and then mirrors every ledger decision |
| `SqlitePlane.SqliteReplayControlPlane.Submit` | src/causalops/api_runtime.py:752-793 | refines the joined specification: a repeated (owner, key) answers with the job it made before |
| `SqlitePlane.SqliteReplayControlPlane.Decide` | src/causalops/api_runtime.py:824-892 | refines the joined specification, with the process optionally dying between the ledger's commit and the control plane's |
| `SqlitePlane.SqliteReplayControlPlane.ClaimNext` | src/causalops/api_runtime.py:923-1007 | reclaim, reconcile, guard, choose, claim and check the ledger refine one atomic specification step; every error restores what the transaction began with |
| `SqlitePlane.SqliteReplayControlPlane.ReclaimExpiredDeliveries` | src/causalops/api_runtime.py:581-619 | the loop over expired delivery rows refines the specification |
| `SqlitePlane.SqliteReplayControlPlane.ClaimDelivery` | src/causalops/api_runtime.py:1184-1215 | refines the specification: the pending delivery first by (available_at, rowid) is leased |
| `SqlitePlane.SqliteReplayControlPlane.MarkDelivered` | src/causalops/api_runtime.py:1217-1227 | refines the specification: only a current delivery claim is marked sent |
| `SqlitePlane.SqliteReplayControlPlane.RenewDelivery` | src/causalops/api_runtime.py:1229-1246 | refines the specification |
| `SqlitePlane.SqliteReplayControlPlane.ReleaseDelivery` | src/causalops/api_runtime.py:1248-1259 | refines the specification |
| `SqlitePlane.SqliteReplayControlPlane.RetryDelivery` | src/causalops/api_runtime.py:1261-1309 | refines the specification: bounded backoff, failure at the limit |
| `SqlitePlane.SqliteReplayControlPlane.ReadReport` | src/causalops/api_runtime.py:894-921 | an owner gets the stored bytes exactly when the job is completed and path and hash agree; each failure keeps its own error |
| `SqlitePlane.SqliteReplayControlPlane.ReadStatus` | src/causalops/api_runtime.py:795-797 | an owner sees the stored status, or FAILED_SAFE once a failure is recorded |
| `SqlitePlane.QueriesAgree` | src/causalops/api_runtime.py:934-957 | the three queries of claim_next, asked of the job table, see what the specification sees in the joined rows, and ORDER BY ... LIMIT 1 has one answer |
| `SqlitePlane.DeliveryQueryAgrees` | src/causalops/api_runtime.py:1190-1197 | the join of claim_delivery picks the specification's delivery |
| `Timeline.NextOrdinalIsCount` | src/causalops/api_runtime.py:523-526 | in a gap-free timeline the largest ordinal plus one is the number of events |
| `Timeline.ClaimsAreConserved` | src/causalops/api_runtime.py:541-579 | investigation_started events equal counted setbacks plus pauses plus finalizations plus requeues plus one while running; setbacks are bounded and the bound is reached exactly on failure, so claims per job are bounded |
| `Timeline.NothingFollowsFailure` | src/causalops/api_runtime.py:541-560 | investigation_failed closes a timeline |
| `PlaneSteps.ClaimNextIsSafe` | src/causalops/api_runtime.py:972-1007 | on well-kept rows claim_next never raises, writes no ledger row, and hands out a decision exactly when the job was paused once: the ledger's own |
| `PlaneSteps.StartingTheFirstKeepsRows` | src/causalops/api_runtime.py:934-971 | starting the row claim_next picks keeps one job running and the scenario exclusive |
| `PlaneSteps.TakingTheLabKeepsRows` | src/causalops/api_runtime.py:695-711 | a running job may take the scenario: nobody else holds it |
| `PlaneSteps.DecideKeepsGood` | src/causalops/api_runtime.py:835-892 | deciding, with or without a crash between the two commits, keeps every invariant, never reports an integrity error and never changes a ledger row |
| `PlaneSteps.RunKeepsGood` | src/causalops/api_runtime.py:186-1309 | every invariant survives every interleaving of owners, workers, senders, command line, expiry and crashes |
| `PlaneTheorems.RowsMatchTimelines` | src/causalops/api_runtime.py:517-531 | in every reachable state each job's row can be recomputed by folding its gap-free timeline, and its claims are accounted for by it |
| `PlaneTheorems.OneWorkerOneScenario` | src/causalops/api_runtime.py:940-957 | at most one job runs; RUNNING holds exactly with token and expiry; at most one job that was not paused holds a scenario; a job without one runs only when nobody does |
| `PlaneTheorems.PollServesExactlyWhenItMay` | src/causalops/api_runtime.py:934-971 | a poll hands out a job exactly when nothing runs, no scenario holder waits out a backoff and some job is due, and it is the first in order |
| `PlaneTheorems.PollServesInOrder` | src/causalops/api_runtime.py:934-957 | the same on the columns: served exactly when no row is RUNNING, no queued row with a scenario still waits and some queued row is due; of the due rows the one handed out holds a scenario if any does, among those alike has the least available_at, and among ties the least rowid |
| `PlaneTheorems.LostClaimStaysLost` | src/causalops/api_runtime.py:1054-1069 | fencing: once a handed-out token is not current, whatever happens afterwards every operation presenting it is refused; the same for delivery tokens |
| `PlaneTheorems.FirstDecisionWins` | src/causalops/api_runtime.py:835-889 | over any run the first ledger row is what every accepted decision, authorised resume, mirrored row and resumed graph carries |
| `PlaneTheorems.DecisionsAreAcceptedExactlyWhen` | src/causalops/api_runtime.py:824-892 | in every reachable state an owner's decision is accepted exactly when the job has paused and the ledger holds no other decision; it is then in ledger and mirror and the job is queued if it was paused; otherwise it is a conflict |
| `PlaneTheorems.ResumedClaimHasItsDecision` | src/causalops/api_runtime.py:1624-1628 | no reachable claim has a checkpoint without a decision: the runner's integrity error is unreachable |
| `PlaneTheorems.PausedOnceMeansDecided` | src/causalops/api_runtime.py:436-500 | a job that is queued or running after a pause mirrors the ledger's decision for its own checkpoint |
| `PlaneTheorems.CompletedMeansDeliverable` | src/causalops/api_runtime.py:894-921 | a job is completed exactly when it has its one delivery, addressed to its owner; then its owner, and nobody else, can download it, never with an integrity error |
| `PlaneTheorems.ReportNeverChanges` | src/causalops/api_runtime.py:1134-1215 | what an owner once downloaded is what every later download and every delivery carries |
| `PlaneTheorems.FinalRowsAreFinal` | src/causalops/api_runtime.py:541-560 | a failed investigation, a sent report and a failed delivery are absorbing: nothing touches the job's rows again |
| `Promises.BackoffDoublesUpToTheCap` | src/causalops/api_runtime.py:1131-1132 | the first delay is the base, each next one twice the last, none above an hour |
| `Promises.RetrySetsBack` | src/causalops/api_runtime.py:1071-1129 | handing a claim back needs only that it is held: one more counted attempt, queued behind its delay or failed with the error named, and the answer says which |
| `Promises.ExpiryExactlySetsBack` | src/causalops/api_runtime.py:533-579 | exactly the running rows whose lease ran out get such a setback; every other row is untouched |
| `Promises.ClaimLastsItsLease` | src/causalops/api_runtime.py:958-971 | a claim renews, reserves and escapes the sweep for exactly claim_lease_seconds; giving it back always works |
| `Promises.ClaimsCarryTheRow` | src/causalops/api_runtime.py:958-1007 | a claim names the row's owner, family, scenario, checkpoint and mirrored decision, and the row is as it was but for status, token and lease |
| `Promises.RenewalStartsTheLeaseAfresh` | src/causalops/api_runtime.py:652-671 | renewing succeeds exactly before expiry, and then nothing but the expiry changed, to now plus the lease |
| `Promises.RequeueCostsNothing` | src/causalops/api_runtime.py:1050-1069 | claim and give back: the row is the one before, with no attempt counted, and due at once |
| `Promises.ReservingTwice` | src/causalops/api_runtime.py:673-718 | the scenario stored is the one answered; asking again answers it and writes nothing |
| `Promises.DeliveryRetrySetsBack` | src/causalops/api_runtime.py:1261-1309 | one more counted delivery attempt, due after its delay or failed, and the answer says which |
| `Promises.DeliveryExpiryExactlySetsBack` | src/causalops/api_runtime.py:581-619 | exactly the sending rows whose lease ran out are set back |
| `Promises.DeliveryClaimLastsItsLease` | src/causalops/api_runtime.py:1184-1246 | a delivery claim carries artifact, content, hash and the owner's address, and is good for exactly the lease |
| `Deliveries.SqliteServesInOrder` | src/causalops/api_runtime.py:1184-1215 | on the columns: a delivery is handed out exactly when one is pending and due after the sweep; it has the least available_at and among ties the least rowid |
| `Promises.SubmittingTwice` | src/causalops/api_runtime.py:752-793 | a new owner and key make one queued job, due at once, and touch no other; the same owner and key answer that job whatever else they bring, and write nothing |
| `Promises.StrangersFindNothing` | src/causalops/api_runtime.py:622-635 | for anybody but its owner a job cannot be seen, read or decided, and is reported as not found |
| `Promises.DecidingQueuesTheJob` | src/causalops/api_runtime.py:824-892 | deciding a paused job writes ledger, mirror and queue status; the same decision again answers and writes nothing, any other is a conflict |
| `PlaneHistory.RunIsLater` | src/causalops/api_runtime.py:186-1309 | no run rewrites identity, timeline prefix, checkpoint, scenario or decision, nor brings an old token back |
| `Workers.RunOnce` | src/causalops/api_runtime.py:1332-1389 | one worker turn on the class is a claim followed by the end of its turn, and reports whether it idled, served or what it raises |
| `Workers.TurnsEndByTheirOutcome` | src/causalops/api_runtime.py:1357-1389 | a turn serves exactly when the claim is current, the heartbeat never failed and the runner came back with a checkpoint or with its own readable report: then the row is COMPLETED with text and hash and one pending delivery to the owner, or PAUSED with that checkpoint, and no attempt is counted; otherwise it raises, and a claim still held is one more counted attempt |
| `Workers.TurnsRaiseTheFirstError` | src/causalops/api_runtime.py:1357-1389 | what is raised, and stored at the last attempt: the runner's error, else the heartbeat's, else the refusal |
| `Workers.FinalizingDoes` | src/causalops/api_runtime.py:1134-1182 | finalizing succeeds exactly with a current claim, the job's own readable report and no delivery yet; what it then writes; and which refusal each other case gets |
| `Workers.PausingDoes` | src/causalops/api_runtime.py:1009-1048 | pausing succeeds exactly with a current claim and a checkpoint that is not blank; what it writes; and which refusal each other case gets |
| `Workers.DeliveriesEndByTheirOutcome` | src/causalops/api_runtime.py:1401-1445 | a delivery turn serves exactly when nothing failed and its claim is current, and then it is SENT; otherwise a claim still held is one more counted attempt |
| `Workers.TurnsGiveTheirClaimBack` | src/causalops/api_runtime.py:1357-1389 | whatever others did meanwhile, after a turn nobody holds its claim, even when heartbeat, pause or finalize was refused; without the claim nothing changes |
| `Workers.DeliveriesGiveTheirClaimBack` | src/causalops/api_runtime.py:1401-1445 | the same for a delivery turn |
| `CrashRefinement.CrashThenClaimIsDecideThenClaim` | src/causalops/api_runtime.py:436-500 | for every state: dying between the two commits of a decision, then claiming, equals deciding, then claiming - same rows, same event, same answer |
| `CrashRefinement.SettlingKeepsTheFirstDelivery` | src/causalops/api_runtime.py:1190-1197 | an unmirrored decision does not change which delivery is picked |
| `CrashRefinement.StepRefines` | src/causalops/api_runtime.py:378-500 | each step of the two databases, crashes included, is a step of one database whose decisions commit at the ledger write |
| `CrashRefinement.RunRefines` | src/causalops/api_runtime.py:378-500 | any legal run with crashes is matched step by step by the run in which every crashed decision completed |
| `CrashRefinement.CrashesAreInvisible` | src/causalops/api_runtime.py:923-1007 | after any run, the next claim, every report and the ledger are what they would be without the crashes |
| `FirestorePlane.FirestoreReplayControlPlane.Submit` | src/causalops/firestore_control_plane.py:323-371 | the collections end as the hosted specification says: the sequence is the number of jobs so far |
| `FirestorePlane.FirestoreReplayControlPlane.Decide` | src/causalops/firestore_control_plane.py:391-447 | one batch writes decision, job and event; both retries are told apart |
| `FirestorePlane.FirestoreReplayControlPlane.ReclaimExpiredInvestigations` | src/causalops/firestore_control_plane.py:241-280 | the loop refines the hosted specification |
| `FirestorePlane.FirestoreReplayControlPlane.HeadOfQueue` | src/causalops/firestore_control_plane.py:620-628 | the head of the sorted candidates is a minimum of (incident first, available_at, sequence) |
| `FirestorePlane.FirestoreReplayControlPlane.ClaimNext` | src/causalops/firestore_control_plane.py:572-663 | refines the hosted specification, including that an integrity error leaves the job running |
| `FirestorePlane.FirestoreReplayControlPlane.FinalizeReport` | src/causalops/firestore_control_plane.py:776-836 | refines the hosted specification: an existing delivery document is replaced unread, and nothing is written on a refusal |
| `FirestorePlane.FirestoreReplayControlPlane.ReclaimExpiredDeliveries` | src/causalops/firestore_control_plane.py:282-319 | the loop refines the hosted specification |
| `FirestorePlane.FirestoreReplayControlPlane.HeadOfOutbox` | src/causalops/firestore_control_plane.py:855-858 | the head of the sorted candidates is a minimum of (available_at, sequence) |
| `FirestorePlane.FirestoreReplayControlPlane.ClaimDelivery` | src/causalops/firestore_control_plane.py:838-881 | refines the hosted specification |
| `Hosted.CountingIsNumbering` | src/causalops/firestore_control_plane.py:192-212 | counting events gives the ordinal that the largest one plus one gives |
| `Hosted.NothingToReconcile` | src/causalops/firestore_control_plane.py:572-663 | with one decision collection, claim_next has nothing to reconcile |
| `Hosted.ClaimNextAgrees` | src/causalops/firestore_control_plane.py:572-663 | both control planes claim the same job with the same answer |
| `Hosted.DecideAgrees` | src/causalops/firestore_control_plane.py:391-447 | both control planes answer a decision alike and keep the same rows |
| `Hosted.FinalizeAgrees` | src/causalops/firestore_control_plane.py:776-836 | both control planes finalize alike |
| `Hosted.PicksAgreeExactlyInOrder` | src/causalops/firestore_control_plane.py:857-858 | the two delivery orders pick the same delivery if and only if, of the deliveries due soonest, the one whose job was created first was finalized first |
| `Hosted.ClaimDeliveryAgreesExactlyInOrder` | src/causalops/firestore_control_plane.py:838-881 | claim_delivery agrees if and only if that condition holds of the reclaimed outbox |
| `Hosted.Lockstep` | src/causalops/firestore_control_plane.py:135-977 | fed the same operations, the hosted control plane gives the same answers as the SQLite one over the whole run if and only if that condition holds whenever a delivery is claimed; then both hold the same rows |
| `Hosted.FinalizedInOrderNeverDiffers` | src/causalops/firestore_control_plane.py:812-836 | a sufficient condition a caller can check before each finalize: if no job is finalized after one that was created later, the two never differ |
| `Deliveries.FirestoreServesInOrder` | src/causalops/firestore_control_plane.py:838-881 | on the fields: likewise with the least available_at and among ties the least sequence of finalization |
| `DeliveryOrder.OlderInvestigationIsDeliveredLast` | src/causalops/firestore_control_plane.py:812-858 | a legal run from the empty system after which it fails: an investigation waits for its owner while a later one finishes, and the two claim_delivery answers differ |
| `Decisions.MakeDecision` | src/causalops/approvals.py:125-139 | a constructed decision is normalised: a stripped, non-empty, bounded note exactly on a rejection |
| `Decisions.BoundaryTakesExactly` | src/causalops/approvals.py:115-139 | the boundary takes exactly an acceptance without a note and a rejection with 1 to 300 characters left after stripping, and keeps those |
| `Decisions.InterruptTakesExactly` | src/causalops/graph.py:1386-1397 | the interrupt takes exactly a mapping with a known verdict that carries, exactly on a rejection, a text that is not blank; it keeps the stripped text |
| `Decisions.DecisionRoundTrips` | src/causalops/approvals.py:141-144 | a decision survives storage, reaches the graph unchanged and is publishable |
| `Decisions.AcceptedResumeIsPublishable` | src/causalops/graph.py:1364-1397 | what the interrupt accepts can be published if and only if its note is at most 300 characters |
| `Decisions.OverlongResumeIsAcceptedButUnpublishable` | src/causalops/domain.py:848-861 | an over-long note is accepted by the interrupt and refused by the report |
| `CommandLine.DecisionStores.RunDecisionCommand` | src/causalops/cli.py:553-644 | approve/reject: lookup, early exits, record, resume, stage, publish, with a crash at any point |
| `CommandLine.FirstRecordedDecisionIsTheOnlyOne` | src/causalops/cli.py:494-536 | however commands, API, workers, crashes and retries interleave, the first recorded decision is the only one the graph gets and a report carries, and it is recorded first |
| `CommandLine.FirstCommandDoes` | src/causalops/cli.py:553-644 | the first command on a paused thread records, resumes and publishes its decision, and a crash leaves exactly what came before it; raced or without a pause nothing of its own is kept, and each case has its exit |
| `CommandLine.RetryFinishes` | src/causalops/cli.py:494-536 | after any crashes the recorded decision, run again, publishes; any other is refused and changes nothing |
| `CommandLine.FirstDecisionWinsAmongLiveCommands` | src/causalops/cli.py:553-644 | any number of commands running at once, each one durable read or write at a time and dying anywhere, amid API and workers: the first recorded decision is never revised, and graph, report and every command that published carry it |
| `CommandLine.AloneIsTheCommand` | src/causalops/cli.py:553-644 | the steps of a command nobody disturbs add up to the whole command, with its stores and its exit |
| `CommandLine.RowIsTheLedgers` | src/causalops/approvals.py:270-310 | its decision row is the control plane ledger: inserting it is CliRecord, and what the API records is what deciding a paused job writes |
| `CostLedger.Ledger.Total` | src/causalops/cost_ledger.py:396-450 | the loop sums max(reserved, actual) per settled row and the reservation otherwise |
| `CostLedger.Ledger.RunTotals` | src/causalops/cost_ledger.py:337-381 | reserved and billed totals of one run, and whether every row of it is settled |
| `CostLedger.Ledger.RecordReservation` | src/causalops/cost_ledger.py:453-557 | reserve within ceiling less buffer, or read the existing row back, or refuse |
| `CostLedger.Ledger.SettleReservation` | src/causalops/cost_ledger.py:560-654 | a settlement only ever updates a RESERVED row |
| `CostLedger.SpendIsBounded` | src/causalops/cost_ledger.py:396-450 | for any acts in any order: reservations stay within the usable ceiling, the accounted total never shrinks and exceeds it by at most the overruns since the last grant |
| `CostLedger.SpendIsBoundedFromTheStart` | src/causalops/cost_ledger.py:519-557 | the same from an empty ledger, each caller bringing its own ceiling |
| `CostLedger.TotalCoversBills` | src/causalops/cost_ledger.py:437-450 | the accounted total is at least what is billed on settled rows plus what is reserved on open ones, and at least all reservations |
| `CostLedger.TotalMovesExactly` | src/causalops/cost_ledger.py:396-450 | a granted reservation raises the total by its amount, a settlement by its overrun exactly, anything else leaves it |
| `CostLedger.GrantedExactlyWhenItFits` | src/causalops/cost_ledger.py:519-557 | a new key is granted exactly if it fits the ceiling less the buffer; then bills plus reservations in flight, this one included, do |
| `CostLedger.SettlementSticks` | src/causalops/cost_ledger.py:560-654 | the first settlement of a reserved row is the only one: it records its bill, and every later one is refused and changes nothing |
| `CostLedger.RunsAddUp` | src/causalops/cost_ledger.py:337-381 | the totals of all runs add up to the reservations and the bills of the whole ledger |
| `SendGate.LiveModel.SendOnce` | src/causalops/live_model.py:592-706 | the gates in order, and what is durable wherever the process dies |
| `SendGate.SendingDoes` | src/causalops/live_model.py:592-706 | a refused request, or one whose process dies first, leaves no trace; any other leaves one row priced for system text, context, correction, tools and the longest reply, goes out unless the process dies there, and carries its bill once answered |
| `SendGate.RefusalsInOrder` | src/causalops/live_model.py:596-676 | which refusal: credential, then size, then a request already on the books, then the ceiling |
| `SendGate.AtMostOnce` | src/causalops/live_model.py:652-690 | over any attempts with crashes and resumes each key reaches the provider at most once, and never without its reservation row |
| `SendGate.DistinctRequestsAreNeverAmbiguous` | src/causalops/live_model.py:675-676 | requests with different keys are never refused as ambiguous |
| `SendGate.RepairKeyIsNewExactlyWithErrors` | src/causalops/graph.py:675-687 | a repair has a key of its own if and only if its error text is not empty |
| `SendGate.KeysTellRequestsApart` | src/causalops/graph.py:675-687 | a key tells runs, stages and turns apart, and any change of the instructions or of the context alone |
| `SendGate.EmptyRepairIsAmbiguous` | src/causalops/live_model.py:665-676 | an empty correction of a request that was sent is refused and changes nothing |
| `SendGate.SequentialSpendIsBounded` | src/causalops/cost_ledger.py:396-450 | for requests one after another, the total exceeds the usable ceiling by at most one request's overrun |
| `SendGate.EstimatesCoverTheBill` | src/causalops/pricing.py:81-103 | a bill within the token estimate and the output cap never overruns |
| `Preflight.CheckPreflightCost` | src/causalops/evaluate_cli.py:436-471 | passes exactly when spent plus worst case plus buffer fits the ceiling |
| `Preflight.BatchStaysWithinItsCalls` | src/causalops/evaluate_cli.py:411-433 | the graph plays of a batch make at most runs times (calls plus repairs) model calls |
| `Preflight.PassingIsEnough` | src/causalops/evaluate_cli.py:436-471 | after a passed check no attempt within the counted calls is refused by the ceiling, wherever the batch crashes |
| `Preflight.BatchCostsAtMost` | src/causalops/graph.py:691-750 | what all the requests of a legal batch (12 baselines, 12 runs with tools, by their stage, size and corrections) can reserve together is at most WorstBatch |
| `Preflight.NoReservationOfTheBatchIsRefused` | src/causalops/evaluate_cli.py:505-528 | after a passed check, for attempts that are the very calls the runs ask and replies that are the outcomes of sending them: no reservation of the family x seed x arm batch is refused if WorstBatch is within what the check assumed |
| `Preflight.DearestCallIsEnough` | src/causalops/live_model.py:1008-1033 | in particular if no call of the model costs more than the check's dearest call |
| `DearestBatch.UnderpricedCheckIsNotEnough` | src/causalops/evaluate_cli.py:505-528 | otherwise there is a legal batch of both arms, answered so far, one of whose calls the ceiling refuses although the check passed on an empty ledger |
| `DearestBatch.CheckCoversExactlyWhen` | src/causalops/evaluate_cli.py:411-471 | the check covers a model for every ledger, ceiling and batch if and only if the model's worst batch costs no more than runs x (calls + repairs) x the check's dearest call |
| `Graph.AskStaysWithinBudgets` | src/causalops/graph.py:691-750 | one ask costs at most one call of each pool, overdraws neither on any path, exceptions included, and a repair is rendered with the same calls left |
| `Graph.StageCounters.AskWithRepair` | src/causalops/graph.py:582-618 | counters and control flow of one stage, counting before calling |
| `Graph.AwaitDecision` | src/causalops/graph.py:1433-1470 | the re-asking loop settles on the first value that parses |
| `GraphReports.TheFirstValidValueCounts` | src/causalops/graph.py:1433-1456 | the interrupt settles on the first value that parses, and stays paused exactly as long as there is none |
| `GraphTheorems.EveryPlayTerminatesWithinBudget` | src/causalops/graph.py:1531-1634 | for every model, tool, clock and owner: at most three node executions per model call, budgets kept, and the assessment is entered with a call in hand if and only if there were two (one without tools) |
| `GraphTheorems.CurveFitsTheRecursionLimit` | src/causalops/evaluate_cli.py:134-175 | every evaluation curve point stays within 18 executions, below the limit of 25 |
| `GraphTheorems.OneCallIsKeptForTheAssessment` | src/causalops/graph.py:1582-1593 | at most model_calls - 1 investigate turns |
| `GraphTheorems.TheBoundIsReached` | src/causalops/graph.py:114-124 | the bound of three executions per call is attained; with four calls it is twelve |
| `GraphTheorems.ReportExactlyWhen` | src/causalops/graph.py:533-579 | a report can be built if and only if the clock did not run back by a millisecond and the note is publishable |
| `GraphTheorems.ReportsAreTruthful` | src/causalops/graph.py:1253-1273 | every built report satisfies its validators, cites only evidence it lists, is failed-safe exactly without an assessment, and was escalated for the reason its router saw; its evidence begins with the incident's own records, and without tools there is no other |
| `GraphReports.ReasonsAreJustified` | src/causalops/graph.py:1304-1361 | each published reason is its own fact of receipts, passages and assessment, with none of the graver ones; no reason means none of the four |
| `GraphReports.OwnersAreAskedExactlyWhen` | src/causalops/graph.py:1599-1636 | over every play that is not suppressed, a report with an assessment went by its owner exactly when a tool was unavailable, a finished retrieval was empty, the model gave up with a check left or it cited contrary evidence, and publishes the first of these |
| `GraphReports.SlotsAreAllowedChecks` | src/causalops/graph.py:309-319 | slots spent are the number of allowed domain checks, finished or not |
| `GraphReports.AskingYieldsTheAnswer` | src/causalops/graph.py:691-750 | an ask yields the first answer, or its one correction while repairs last, and otherwise its reason; each call and each invalid answer is counted |
| `GraphReports.StagesAskForThemselves` | src/causalops/graph.py:621-688 | each model call goes out under its run, its stage's name and turn, with the context rendered for what the run knows and has left; a second one quotes what was wrong with the first |
| `GraphReports.AssessmentsAreKept` | src/causalops/graph.py:1172-1301 | an assessment is kept exactly when it was answered and cites only what was retrieved; a foreign citation fails the run as a forgery, anything else for its own reason |
| `GraphReports.TurnsLeadOn` | src/causalops/graph.py:764-967 | a proposal leads to its check; no proposal, or a stop after the first turn, to the assessment; a crash, or a stop in the first turn, to a failed report |
| `GraphReports.ChecksAreRecorded` | src/causalops/graph.py:980-1137 | a check leaves its receipt and what it retrieved, even when the backend crashed, which ends the run |
| `GraphReports.AnotherTurnExactlyWhen` | src/causalops/graph.py:1542-1596 | another turn exactly when nothing failed, a check, two calls and time are left and turns are fewer than calls |
| `GraphReports.NothingRetrievedIsLost` | src/causalops/graph.py:1140-1158 | over every play: evidence is the incident's own followed by what the checks retrieved, in order, and receipts are exactly theirs |
| `GraphReports.ReportsSayWhatHappened` | src/causalops/graph.py:533-579 | field by field: disposition and cause are the assessment's, a failed run names its failure, and calls, repairs, evidence, escalation and truncated milliseconds are the run's |
| `GraphTheorems.ValidDecisionsSettleTheInterrupt` | src/causalops/graph.py:1400-1491 | a validated decision settles the interrupt at once and lands in the report |
| `GraphTheorems.CrashReportsFailSafe` | src/causalops/graph.py:457-579 | a forced crash report is failed-safe whatever had been concluded |
| `GraphTheorems.NoCallIsAmbiguous` | src/causalops/graph.py:903-916 | in an uninterrupted run whose invalid answers are explained, every model call has its own key and none is refused as ambiguous |
| `Trimming.TrimToBytes` | src/causalops/evidence.py:158-241 | the two loops terminate and compute the longest fitting suffix, then halve the widest text |
| `Trimming.TrimKeepsItsPromise` | src/causalops/evidence.py:158-241 | the result fits or has no rows and no text; kept rows, count, untouched fields and the truncated flag are exact |
| `Trimming.TextIsHalvedUntilItFits` | src/causalops/evidence.py:219-241 | text goes one halving of the first longest field at a time, never of a payload that fits, until it fits or no text is left |
| `Evidence.EvidenceStore.Add` | src/causalops/evidence.py:251-254 | evidence of another incident is refused; a known id keeps its place |
| `Evidence.StoringKeepsPlaces` | src/causalops/evidence.py:251-254 | a new id goes last, a known one is replaced in its place |
| `Evidence.EvidenceStore.UnknownIds` | src/causalops/evidence.py:256-258 | the forged citations, in order |
| `Evidence.UnknownAreTheUncited` | src/causalops/evidence.py:256-258 | empty if and only if every citation was retrieved |
| `Evidence.UnknownStayInOrder` | src/causalops/evidence.py:256-258 | each citation is judged by itself and the forged ones keep their order |
| `Evidence.OrderedSorts` | src/causalops/evidence.py:260-270 | a strict sort of the same records by (time, kind, id) |
| `Evidence.SortingIsUnique` | src/causalops/evidence.py:260-270 | there is one such order |
| `Evidence.EvidenceStore.ContextEvidence` | src/causalops/evidence.py:272-294 | the counting loop computes the selection and its markers |
| `Evidence.KeptIsTheFirstOfEachKind` | src/causalops/evidence.py:272-294 | of each kind exactly the first min(n, quota) records are kept and the marker counts the rest |
| `Evidence.KeptIsASubsequence` | src/causalops/evidence.py:272-294 | the selection is a subsequence of the sorted evidence |
| `Evidence.NothingIsLost` | src/causalops/evidence.py:290-294 | kept plus omitted is all |
| `Evidence.ArrivalOrderDoesNotMatter` | src/causalops/evidence.py:71-84 | the same records in any arrival order give the same context and markers |
| `Evidence.EvidenceIsChronological` | src/causalops/evidence.py:260-270 | the model reads evidence by time of observation, at one time by kind in alphabetical order, and within a kind by id in lexical order |
| `Evidence.MarkersSayWhatIsMissing` | src/causalops/evidence.py:290-294 | one marker for exactly the kinds that lost records, in alphabetical order, each with the number lost |
| `Evidence.ContextIsBounded` | src/causalops/evidence.py:71-84 | however much is retrieved, two symptoms, two topology records and one more of every other kind than the checks a run may execute are shown, or all there are |
| `Prompts.SafeTextIsSafe` | src/causalops/prompts.py:29-36 | for every text: neither marker and no line break survives, and no replacement makes one |
| `Rendering.FlatteningKeepsTheWords` | src/causalops/prompts.py:35-36 | every text reads in one way as words between white space, and its flattened form is those words, in order, with one space between |
| `Rendering.ReplaceSwapsMarkers` | src/causalops/prompts.py:29-36 | a replaced marker is the only thing replacing changes: the text between markers is kept, in order |
| `Rendering.MarkerFreeTextIsShown` | src/causalops/prompts.py:29-36 | a text without a marker is shown as all its words |
| `Rendering.TidyTextIsUnchanged` | src/causalops/prompts.py:29-36 | a single-spaced line without a marker is shown as it is |
| `Prompts.RenderContext` | src/causalops/prompts.py:206-269 | the loops build head, opening marker, evidence, markers, passages, closing marker |
| `Prompts.TheFenceHolds` | src/causalops/prompts.py:246-269 | for every evidence and passage text: exactly one opening and one closing marker, every untrusted line whole and between them |
| `Rendering.EverythingIsShown` | src/causalops/prompts.py:246-269 | every evidence record and passage has its own whole line between the markers, in order, with its id, kind or mode, time, source, summary or content |
| `McpStdio.McpStdioSession.InitializeRequest` | src/causalops/mcp_stdio.py:187-198 | only a new session may initialise |
| `McpStdio.McpStdioSession.AcceptInitializeResponse` | src/causalops/mcp_stdio.py:220-233 | the pinned version and identity, or refusal |
| `McpStdio.McpStdioSession.AcceptToolsListResponse` | src/causalops/mcp_stdio.py:246-265 | an accepted discovery stores the pinned manifest, never the discovered one |
| `McpStdio.McpStdioSession.ToolCallRequest` | src/causalops/mcp_stdio.py:267-281 | a call goes out only when ready and verified, with approved arguments and nothing outstanding |
| `McpStdio.McpStdioSession.AcceptToolCallResponse` | src/causalops/mcp_stdio.py:283-293 | only the pending request's id is accepted; an error result is not |
| `McpStdio.VerifyDiscoveredTools` | src/causalops/mcp_manifest.py:123-143 | accepts exactly the pinned names, once each, with the pinned schemas |
| `McpHandshake.VerifiedExactlyWhenPinned` | src/causalops/mcp_manifest.py:123-143 | a discovery passes if and only if it is the pinned tools, each once, in any order |
| `McpStdio.McpObservabilityServer.Handle` | src/causalops/mcp_stdio.py:345-419 | calls are served only after the handshake; every response carries its request's id |
| `McpHandshake.CallsFollowTheHandshake` | src/causalops/mcp_stdio.py:187-281 | whatever the peer sends and in whatever order the session is used: a call leaves it only after an answer to its own initialize request in the pinned version from the pinned server, the notification, and an answer to its own later discovery request that lists the pinned tools |
| `McpHandshake.IdsAreFresh` | src/causalops/mcp_stdio.py:172-186 | over any use of a session every request has a larger id than all before |
| `McpHandshake.OneAtATime` | src/causalops/mcp_stdio.py:200-219 | until a response with its id is taken a request stays the outstanding one and no other is made |
| `McpHandshake.AnswersAreToTheLastCall` | src/causalops/mcp_stdio.py:283-293 | an accepted answer carries the id of the outstanding call and is not an error |
| `McpHandshake.ServedExactlyAfterTheHandshake` | src/causalops/mcp_stdio.py:345-419 | for every sequence of messages, what the server answers to each: initialize the first time it names the pinned version, discovery and calls exactly after that and the notification, nothing else; every response has its request's id and a call's is the executor's answer to that call |
| `McpHandshake.EveryCallGetsItsAnswer` | src/causalops/mcp_stdio.py:267-293 | between the two ends after a handshake, call after call gets the executor's text for it |
| `McpChild.ResultsAreOwnAnswers` | src/causalops/mcp_child_process.py:85-196 | in any interleaving of writes, reads, timeouts, exits and respawns in which no reader outlives its child with a line left: a returned result is the answer to its own call, at most one exchange is under way, calls go only over verified sessions, and the line a call reads carries its id |
| `McpChild.OwnLinesAreOwnAnswers` | src/causalops/mcp_child_process.py:118-126 | even with lingering readers: an accepted line the current child wrote answers its own call |
| `McpChild.AnswersMixExactlyWhen` | src/causalops/mcp_child_process.py:213-218 | after any such run: if a reader outlives its child, some continuation returns an answer an earlier child wrote if and only if the pipe holds a non-error answer when the child is replaced, and then as the answer to any call |
| `McpChild.LingeringReaderMixesAnswers` | src/causalops/mcp_child_process.py:213-218 | it happens from the start, for all pinned tools, bodies and texts: a late answer is returned for the next child's call |
| `McpChild.ForeignLineWedgesTheSession` | src/causalops/mcp_child_process.py:188-196 | a line with a foreign id poisons nothing and leaves the request outstanding with nobody reading: whatever happens short of the child's exit, every call is refused and none respawns |
| `McpChild.SessionsWedgeExactlyWhen` | src/causalops/mcp_child_process.py:188-196 | a reader that outlives its child can wedge a later session if and only if the pipe holds any line when the child is replaced |
| `McpChild.ReplacedChildrenAnswer` | src/causalops/mcp_child_process.py:85-196 | a dead or poisoned child is replaced, the handshake completes, and after any number of calls the next one returns what the new child made of it |
| `McpChild.TimeoutsAndDeathsPoison` | src/causalops/mcp_child_process.py:137-173 | a call that times out or reads its child's end returns nothing and poisons it: until it is replaced nothing is returned, asked or changed; the replacement starts a session of its own |

Where a row says "refines", the member's contract equates the whole new state and the answer with the
specification function of the same name; what that function guarantees is proved by the theorems above.

## Left out

- Time and money are exact reals; floating-point rounding and clock drift are not modelled.
- SHA-256 is an injective constructor, UUIDs are values not handed out before, JSON text size is an
  arbitrary predicate on payloads (`Trimming`), and the tool schemas enter as their token counts.
- A SQL transaction and a Firestore write batch are atomic. Several Firestore operations write a job
  document and its event in two separate writes; a crash between those two is not modelled.
- The clock of an operation is its argument: nothing is assumed about it, not even that it advances,
  except where a theorem says so.
- Stored values have their types. The re-validation of stored rows (statuses, decision rows, the
  alphanumeric incident id, JSON of event fields) and the errors it raises are not modelled.
- `decided_at`, `seed`, event field encoding and the parallel ledger of `scenario_status` and
  `incident_id_for` reads are left out; they would only add easy members.
- The owner-decision table's key is (thread, checkpoint). A thread pauses at one checkpoint, so the model
  keeps one row per thread.
- `validate_report_reference` normalises paths; the model admits the one reference the runner produces,
  `<id>/report.md`. Reading the artifact file is a parameter: its text, or nothing.
- The single-row operations the two control planes share statement for statement are written on the
  SQLite class and, for Firestore, as functions in `Hosted` only.
- FirestorePlane.FirestoreReplayControlPlane.FinalizeReport: promises that the collections stay valid only
  for jobs without a delivery document; `Hosted.FinalizeAgrees` shows that a running job never has one.
- Hosted.Lockstep: compares runs without the command line's ledger and without a crash between databases,
  which only SQLite has; `CrashRefinement.CrashesAreInvisible` reduces crashed runs to such runs.
- Heartbeat threads are nondeterministic renewals and a flag at the end of a turn; waiting, polling and
  the background loop are not modelled.
- The graph's checkpoints are its states: LangGraph's storage, `recover_graph_investigation` and the
  mapping from a stored interrupt back to a pause are not part of this model.
- DearestBatch.CheckCoversExactlyWhen: takes budgets with at least two model calls and one check, as `resolve_budgets` makes
  them. Prompt texts are arbitrary up to the input cap and an error text may be one character long, so
  its worst batch is the worst over all renderings, not over today's prompts.
- What a model or a tool returns is arbitrary. Policy decisions, argument parsing, telemetry queries,
  retrieval, providers, HTTP, Docker and cloud uploads are not part of this model; `ReservationLedger` is
  used through the number of slots its receipts leave.
- `McpChildProcess` is a state machine on values, because its threads, pipes and child run concurrently;
  reassignment of its fields appears as steps. Operating-system errors on writes are not modelled, and
  the executor's refusal of unapproved calls is part of what the child answers.
- The wording of an omission marker is a line given to `Prompts`; `Evidence` says which kinds have one and
  what it counts. What `run_once` calls after a turn (releasing scenarios, uploading artifacts) is not modelled.
- Denial guidance, the fixed prompt prose and the incident header enter `Prompts` as lines that contain
  neither marker.
- The evaluation summaries, `doctor`, the dashboard, Google identity, configuration parsing, model
  profiles and the Firestore checkpointer would only add easy members.
