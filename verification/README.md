# Verification of the EDA job lab's execution protocol

This project models, in Dafny, the Run / Attempt / lease / delivery protocol that decides who may start, finish or
abandon an OpenSTA analysis when many submitters, workers, Host Agents, Supervisors and reconcilers share one database
and crash at any point; and the parts that judge and present results: report parsing and acceptance, Run listing, and
the new-violation query. `dafny verify dfyconfig.toml` checks all of it.

## How the model is built

* `Tables.dfy`, `StoreOps.dfy` and `Store.dfy` are the database. The class `Store` has the tables as fields and updates
  them in place; each method is proved to perform one guarded, atomic step of `StoreOps`, for both stores.
* `History.dfy` is any sequence of such calls by anyone with any arguments. What needs no cooperation of the callers is
  proved there: fencing, lease and claim exclusion, the delivery ledger, unique completion.
* `Columns.dfy` reads the same calls by columns: which call writes which column of which row, under which guard.
* `Protocol.dfy` is the whole system as a state machine: rows, clock, and the program counters of executor threads,
  Supervisors and reconcilers. A behaviour is any interleaving of their steps, crashes included. `ProtocolInvariant.dfy`,
  `OnceOnly.dfy`, `Numbering.dfy`, `ProtocolTheorems.dfy`, `Finality.dfy` and `HypothesisH.dfy` prove what holds in every
  reachable state, and where a promise fails, the run that breaks it and the exact condition under which it holds.
  `Deliveries.dfy` is what a delivery carries and when its completion is accepted, `Outcomes.dfy` what the rows of an
  ended execution say.
* `Cluster.dfy` is the shared `Store` object with the run so far. The programs (`Execution.dfy`, `Supervision.dfy`,
  `Submission.dfy`, `Worker.dfy`, `HostAgent.dfy`, `Recovery.dfy`) are classes whose methods run against it: before each
  of their own Store calls the others take any list of steps, and every call they make is itself a step of the run, so
  the theorems about all runs hold of them. `EndToEnd.dfy` runs two of them one after the other. `KeepAlive.dfy` does the
  same for the heartbeat thread over histories.
* `Reconciling.dfy` has the rules of a reconciliation pass; `RowEvidence.dfy` and `LateRecords.dfy` compare what the pass
  read with the rows it closes.
* `Dispatch.dfy`, `Draining.dfy` and `DrainBound.dfy` are a host's load: a drain as a small program of its own, every run
  of it among the others, the bound each keeps and the runs that reach it. `Worker.dfy` is proved to perform such runs.
* `Acceptance.dfy`, `OpenStaReport.dfy`, `SyntheticReport.dfy`, `PythonText.dfy` are parsing and acceptance;
  `Order.dfy`, `Pagination.dfy` and `Violations.dfy` are listing and the new-violation query.

## Assumptions

* The clock is monotone and is read once per Store call. Lease tokens, recovery tokens, session ids and execution ids
  are fresh: a lemma that needs it says so (`NotReissued`, `NotReclaimed`), and in `Cluster` the others do not claim
  under a reconciler's tokens. The maximum number of Attempts is at least one.
* Hypothesis H (`onlyDead`): a reconciler that fails a RUNNING Run it saw without Attempts does so only for a Run whose
  executor can no longer start. `HypothesisH.WriteOffIsFinalExactlyWhen` proves that this is exactly what the write-off
  needs. Theorems that use H name it below; `AdapterStartsAtMostOnce`, `Numbering.dfy` and everything in `History.dfy` do
  not need it.
* In one deployment either `submit` itself starts execution (`local`) or workers claim queued Runs; not both.
* SHA-256 is injective, the cursor encoding (base64url, section 5 of RFC 4648, around JSON) is an inverse pair, numbers
  are exact decimals, and texts are compared by code point.

## What the proofs brought to light

* Without H a FAILED Run is reopened by the next write of an executor that had not begun (`LiveExecutorUndoes`, and the
  run `WriteOffUndoneWithoutH`).
* On a Run that is not RUNNING, SQLite rolls a completion back while PostgreSQL returns False from inside its transaction
  block, which commits the Attempt half. `StoresAgreeExactlyWhen` is the exact condition. Under H it is never met; without
  H it is, and the stores then differ on the same run (`StoresPartWithoutH`).
* `os.kill(pid, 0)` may raise PermissionError, which `recover_stale_runs` does not catch: the pass ends there, with that
  Run claimed until the claim expires. `CutShortLeavesClaim` is such a run, and `RecoverStaleRuns` says from which states
  an undisturbed pass ends so.
* A pass abandons an Attempt on the child and the owner it read. An executor that still knows its lease token may record
  a child or register an owner after that, before or under the recovery claim, and the pass closes the row all the same,
  without having probed that child or asked for that owner's witness (`OvertakenByChild`, `OvertakenByOwner`).
  `EvidenceHoldsExactlyWhen` is the exact condition, over the others' calls, under which the evidence holds of the row.
* A drain whose `future.result()` raises, because the executor did or because a client cancelled the job (CancelledError),
  can leave other claimed Runs undispatched when concurrency exceeds one; the next drain counts them nowhere and exceeds
  the bound by as many (`RaiseBreaksBound`). `BoundHoldsExactlyWhen` is the exact condition. `serve` ends with such a
  drain, so within one `serve` that begins clean the bound always holds.
* A lease shorter than 0.01 s can never be kept alive: the heartbeat period is then longer than the lease.
* A witness recorded while its delivery is still QUEUED never completes it; only a recovery can retire it, the release of
  terminal deliveries cannot (`OnlyRecoveryRetiresPremature`).
* An OpenSTA report can PASS with a worst slack as low as -5e-7 ns, for exactly the slacks below the comparison's tolerance
  (`NegativeWorstExactlyWhen`).
* A Run closed before its first Attempt need not be final, also under H: a late write-off turns CANCELLED into FAILED, and
  every cancel of its cancelled future, the first as well as a repeated one, turns it into CANCELLED again
  (`FailedTurnsCancelled`, `CancelledTurnsFailed`, `SecondCancelOverwrites`). `StatusIsFinalExactlyWhen` is the exact
  condition under which it stays as it is.

## Model

| member | source | states |
|---|---|---|
| `OnceOnly.AdapterStartsAtMostOnce` | src/eda_lab/service.py:237-265 | Over every interleaving with crashes anywhere, two adapter starts of one Run can only be two different Attempts of one in-process executor: a supervised Run is started at most once, an in-process Run at most once per Attempt number up to the maximum. No hypothesis beyond fresh tokens. |
| `OnceOnly.AlwaysStarts` | src/eda_lab/postgres_store.py:116-178 | The invariant behind it: one executor per Run, one delivery per Run and then only as that executor's last act, one Supervisor per delivery; it holds in every reachable state. |
| `ProtocolInvariant.AlwaysCore` | src/eda_lab/service.py:237-342 | The whole-state invariant (Attempts, Runs, program counters, written-off Runs) holds in every reachable state under H. |
| `ProtocolTheorems.ShapeOfARun` | src/eda_lab/service.py:237-342 | Under H, in every reachable state: Attempts are numbered 1..n, n at most the maximum; all but the last are RETRYABLE_FAILURE; a RUNNING Attempt only under a RUNNING Run, and last; SUCCEEDED exactly if the last Attempt is; TRUSTED exactly if SUCCEEDED, then on full evidence. |
| `ProtocolInvariant.CompletionFindsRunOpen` | src/eda_lab/store.py:474-533 | Under H, in a reachable state a RUNNING Attempt always finds its Run RUNNING, so a two-row completion never stops half-way. |
| `ProtocolTheorems.RunIsDisciplinedHistory` | src/eda_lab/service.py:237-342 | Every protocol run, with or without H, seen from the database, is a history of Store calls that keeps the callers' discipline (fresh Attempt numbers, terminal outcomes), so all history theorems apply to it. |
| `ProtocolTheorems.StepIsOneCall` | src/eda_lab/service.py:237-342 | Each step of each process changes the rows exactly as the one Store call it makes. |
| `ProtocolTheorems.AttemptOutcomeIsFinal` | src/eda_lab/store.py:419-536 | With or without H, the outcome written on an Attempt is never overwritten, in any run. |
| `ProtocolTheorems.RunFateIsSealed` | src/eda_lab/service.py:227-342 | Under H a terminal Run never reopens; if it has an Attempt, its whole row (status, verdict, spec) is final. What may still happen to a terminal Run without one is the next rows. |
| `ProtocolTheorems.StaleOnlyAfterClaim` | src/eda_lab/postgres_store.py:116-121 | In every run, however long a Run was queued, it is stale no sooner than the stale time after a worker claimed it. |
| `Finality.StatusIsFinalExactlyWhen` | src/eda_lab/service.py:202-211 | Under H, over all continuations of a state that keeps the invariant: the status of a terminal Run is final if and only if it has an Attempt, or its future is cancelled (in a living process) only if it is CANCELLED and a reconciler still has it on its list, with its Attempts unread or none found, only if it is FAILED. A cancelled future can be cancelled any number of times; a reconciler's reading is used up by its write-off. |
| `Finality.VerdictIsFinalExactlyWhen` | src/eda_lab/service.py:202-211 | Likewise its verdict: exactly if it has an Attempt, or its future is not a cancelled one, or its trust is already INVALID. |
| `Finality.RowIsFinalExactlyWhen` | src/eda_lab/service.py:202-211 | Likewise the whole row, updated_at included: exactly if it has an Attempt, or its future is not a cancelled one and no reconciler has it on its list; a repeated cancel rewrites updated_at even of a CANCELLED Run. |
| `Finality.FailedTurnsCancelled` | src/eda_lab/service.py:202-211 | A run under H in which a FAILED Run turns CANCELLED: its future was cancelled before a reconciler failed it, and the cancelling caller writes last. |
| `Finality.CancelledTurnsFailed` | src/eda_lab/service.py:365-368 | A run under H in which a CANCELLED Run turns FAILED, by a reconciler that had read it RUNNING and empty; that reading is then used up. |
| `Finality.SecondCancelOverwrites` | src/eda_lab/service.py:202-211 | The same run continued, with no reconciler left: CANCELLED, FAILED, and CANCELLED once more by a second cancel of the same job. |
| `Numbering.AlwaysNumbered` | src/eda_lab/service.py:240-248 | In every reachable state, with or without H, each recorded Attempt has a number its executor has passed, so the next one is fresh. |
| `ProtocolTheorems.StoresHaveTheSameRuns` | src/eda_lab/postgres_store.py:225-264 | Under H any run over SQLite is a run over PostgreSQL and conversely: the branch where they differ is not reached. |
| `ProtocolTheorems.StoresPartWithoutH` | src/eda_lab/postgres_store.py:225-264 | Without H it is reached: a run on either store after which the executor's error write finds its Run closed; SQLite then leaves the Attempt RUNNING, PostgreSQL leaves it FAILED. |
| `History.StoresAgreeExactlyWhen` | src/eda_lab/store.py:454-536 | For every call on every rows, disciplined or not: the two stores take the same step if and only if it is not a completion that would change something while its Attempt guard holds and the Run is not RUNNING; there both report failure, SQLite keeps all rows and PostgreSQL keeps the Attempt half. |
| `ProtocolTheorems.BudgetIsNeverExceeded` | src/eda_lab/store.py:139-171 | Under H and with one shared budget, QUEUED plus RUNNING Runs never exceed it, in any reachable state. |
| `ProtocolTheorems.SubmitIsIdempotent` | src/eda_lab/service.py:166-194 | With or without H: a submit is accepted exactly if its id is new and the budget has room; a refused one changes nothing at all; a job id is accepted (and scheduled) at most once in any run. |
| `HypothesisH.WriteOffIsFinalExactlyWhen` | src/eda_lab/service.py:365-368 | Failing a stale RUNNING Run without Attempts is final over every continuation if and only if its executor can no longer start: H is exactly the condition. |
| `HypothesisH.LiveExecutorUndoes` | src/eda_lab/service.py:237-247 | The failing family: whenever an executor of the Run can still start, its very next write reopens the FAILED Run or puts a RUNNING Attempt under it. |
| `HypothesisH.WriteOffUndoneWithoutH` | src/eda_lab/service.py:365-368 | It is reached: a run without H, from the empty database, in which the FAILED Run is RUNNING again. |
| `HypothesisH.SealedForever` | src/eda_lab/service.py:365-368 | Under H the write-off is never undone. |
| `History.RowStep` | src/eda_lab/store.py:186-452 | Whatever the call, an Attempt row evolves only so: a lease changes hands only after lapsing, a claim appears only where none is live, an owner is registered only under its live current session. |
| `History.LeaseExclusion` | src/eda_lab/store.py:264-285 | Live intervals of distinct lease tokens on one Attempt are disjoint, and a replaced token is never live again. |
| `History.HandoverAfterLapse` | src/eda_lab/store.py:264-274 | A lease changes hands only by an acquisition made after the previous lease lapsed. |
| `History.LapsedStaysLapsed` | src/eda_lab/store.py:330-344 | A lapsed lease lives again under its token only if in between a queued refresh found its delivery still QUEUED under a live current session; the lemma returns that event. |
| `History.ClaimPersistsBackwards` | src/eda_lab/store.py:432-452 | A recovery claim present now has been present, unchanged, ever since its token was drawn. |
| `History.ClaimExclusion` | src/eda_lab/store.py:432-452 | Live intervals of distinct recovery tokens are disjoint; an expired or replaced claim never comes back. |
| `History.OldSessionNeverActsAgain` | src/eda_lab/store.py:299-358 | Once a host starts a new session, no heartbeat, queued refresh, registration or owner-fenced completion in the old session's name ever succeeds or changes a row. |
| `History.AcceptedCompletionIsCurrent` | src/eda_lab/store.py:504-522 | Every accepted owner-fenced completion was made by the current, live session of that host and epoch. |
| `History.HostsAlwaysAgree` | src/eda_lab/store.py:299-358 | Sessions, hosts and registered executions agree after every history. |
| `History.LedgerOnlyGrows` | src/eda_lab/store.py:360-410 | A delivery only moves up QUEUED, CLAIMED, RUNNING, {COMPLETED, UNAVAILABLE}; its payload and its witness never change; COMPLETED always has its witness. |
| `History.PrematureWitnessNeverCompletes` | src/eda_lab/store.py:399-410 | A witness recorded on a QUEUED delivery never completes it, then or later. |
| `History.OnlyRecoveryRetiresPremature` | src/eda_lab/store.py:399-410 | If such a delivery stops being active, then by an accepted recovery of its Attempt, which the lemma returns: the release of terminal deliveries never frees its capacity. |
| `History.ClaimedAndWitnessedOnce` | src/eda_lab/store.py:369-410 | A delivery is claimed by at most one Supervisor call and witnessed by at most one observation, ever. |
| `History.RunsAndClosedRowsKept` | src/eda_lab/store.py:173-199 | Under the callers' discipline a job id keeps its spec, a claimed Run is never QUEUED again, and a closed Attempt row is final. |
| `History.RunClaimedOnce` | src/eda_lab/postgres_store.py:116-121 | However many workers poll, a Run is claimed at most once. |
| `History.CompletedOnce` | src/eda_lab/store.py:419-536 | Among any holders of old, current and recovery tokens at most one completing call on an Attempt succeeds, and the row it wrote stays. |
| `History.UpsertReopensClosedAttempt` | src/eda_lab/store.py:186-199 | The upsert alone does not protect a closed Attempt: recorded under the same number it runs again. Only fresh numbering does. |
| `Columns.AttemptColumns` | src/eda_lab/store.py:186-536 | The schema by columns instead of by calls: whatever the call, lease, child, owner, claim and outcome of an Attempt row change exactly as the writers of that column say, under their guards, and no other call touches the column. |
| `Columns.RunColumns` | src/eda_lab/store.py:139-536 | Likewise a Run: what each of its writers leaves of status and verdict; a row that is written carries the time of the call, and its spec never changes. |
| `Columns.DeliveryColumns` | src/eda_lab/store.py:360-417 | Likewise a delivery and its witness. |
| `Columns.SuccessMeansEffect` | src/eda_lab/store.py:139-536 | The Store reports success if and only if the rows show that the call did what it is for; a completion, if and only if it wrote both rows. |
| `Columns.ColumnHoldsLastWritten` | src/eda_lab/store.py:186-536 | Over any history a column of an Attempt holds what its last accepted writer left there, or what it held before if there is none. |
| `Dispatch.NextKeepsLoad` | src/eda_lab/worker.py:33-51 | No step of anyone raises a host's load (active deliveries plus claimed, undispatched Runs) except a worker of that host claiming a Run. |
| `Dispatch.ClaimRaisesLoadByOne` | src/eda_lab/worker.py:46-49 | That claim raises it by at most one. |
| `Worker.PostgresWorker.Drain` | src/eda_lab/worker.py:18-51 | One drain among arbitrary steps of all others is a `DrainRun` in every detail; in every state the host's load is at most `Limit`; it leaves nothing new undispatched unless it raised, on an executor's exception or on a cancelled future, with more than one future; it returns Runs it claimed, all of them if it finished, at most max_jobs; a recovery pass that raises ends it before anything is claimed; it is still waiting only where all turns of the others are used up, for a future that has not ended by then, so where every Run it claimed has come to its end it finishes or raises. |
| `Worker.PostgresWorker.Round` | src/eda_lab/worker.py:33-48 | One iteration is one stretch of a `DrainRun`: stop at capacity, wait at full concurrency and take out what is done, or claim the oldest queued Run; it stays in the wait only where the others' turns are used up and no active future is done. |
| `Worker.PostgresWorker.RecoverAndRelease` | src/eda_lab/worker.py:26-32 | The prefix of a drain: the others' turn, then the release of terminal deliveries, before anything is claimed. |
| `Worker.PostgresWorker.Join` | src/eda_lab/worker.py:49-51 | Asks the remaining futures for their results in the order they were claimed; the first that raised, or was cancelled, ends the drain, with the others still active; it stays waiting only where the others' turns are used up and the next future to be asked has not ended. |
| `Worker.PostgresWorker.Serve` | src/eda_lab/worker.py:53-64 | Scan after scan: from a clean start the host's load stays within maxInFlight + concurrency - 1 in every state, however many drains there are; it is stopped only after a finished drain for every scan, and then returns exactly the Runs it claimed; the first drain that does not finish, one that raises on a cancelled future included, ends it and is the last. |
| `Draining.DrainStaysWithin` | src/eda_lab/worker.py:33-51 | Every run of a drain, in every state: load at most `Limit`, which is maxInFlight + concurrency - 1 plus what an earlier drain left undispatched, or what it started with if that is more. |
| `DrainBound.LimitIsExact` | src/eda_lab/worker.py:33-51 | `Limit` is exact: given enough queued Runs, a live session and a slot not held by an already witnessed delivery, all drains keep a bound if and only if it is at least `Limit`. |
| `DrainBound.BoundHoldsExactlyWhen` | src/eda_lab/worker.py:33-51 | In the same surroundings: every drain, however it interleaves with the others, keeps maxInFlight + concurrency - 1 if and only if it begins with nothing undispatched and within that bound. |
| `DrainBound.RaiseBreaksBound` | src/eda_lab/worker.py:49-51 | Two runs from the empty database with maxInFlight 1 and concurrency 2, one in which an executor dies and one in which a client cancels the job: the first drain begins clean and raises on that future in its last loop, and the second comes to three outstanding, over the bound of two. |
| `Draining.SuccessiveDrainsStayWithin` | src/eda_lab/worker.py:18-51 | Over any number of successive drains, the others acting between and during them, the bound holds in every state from a clean start, unless an earlier drain raised (an executor exception or CancelledError) while it had more than one future. |
| `Draining.CompletedAreClaimed` | src/eda_lab/worker.py:37-51 | Returned and still active Runs together are exactly the Runs claimed, each as often as it was claimed; a finished drain has none active, returns at most max_jobs and none still undispatched; a drain that raised did so on the first active future, which failed or was cancelled. |
| `Draining.LastLoopDecides` | src/eda_lab/worker.py:49-51 | Of every drain that is over: among the futures active when its last loop began, in the order they were claimed, it finished exactly if all return, and else raised on the first that does not, having returned exactly those before it. |
| `Draining.ReleasesFirst` | src/eda_lab/worker.py:26-32 | Before its first claim there is a state in which no unwitnessed active delivery belongs to an ABANDONED Attempt. |
| `Draining.OthersKeepLoad` | src/eda_lab/worker.py:33-51 | Whatever the others do over any stretch of a run, the host's load never rises in any state of it. |
| `Agent.HostAgent.Start` | src/eda_lab/host_agent.py:41-45 | Registers the session and supersedes the host's previous one; a reused session id is refused and changes nothing. |
| `Agent.HostAgent.Heartbeat` | src/eda_lab/host_agent.py:47-55 | A started agent is refused exactly if its session is no longer current, and then changes nothing; accepted, the session was extended by a whole lease time, and if it still lives at the end every lease waiting in its queue lasts another lease time from that moment. |
| `Agent.HostAgent.Drain` | src/eda_lab/host_agent.py:57-60 | A superseded agent recovers, releases and claims nothing; a current one has its worker drain from where its heartbeat left the run, with everything `Worker.PostgresWorker.Drain` says of it. |
| `Agent.SupersededStays` | src/eda_lab/store.py:299-328 | In every protocol run a superseded session stays superseded. |
| `Agent.AlwaysHostsAgree` | src/eda_lab/store.py:299-358 | In every reachable state sessions, hosts and registered executions agree. |
| `Agent.StartTakesOver` | src/eda_lab/store.py:299-317 | A started session takes its host over from whichever session had it. |
| `Execution.ExecutorThread.Execute` | src/eda_lab/service.py:237-342 | The retry loop among arbitrary steps of all others, however long they take: it ends; ended cleanly, the Run is terminal or its one delivery waits in the host's queue; unless one of its own Store calls was refused, an in-process execution ends with exactly the terminal write that `Fate` names, and a supervised one with its first Attempt delivered, the row holding its lease token and owner; left alone none is refused. |
| `Execution.ExecutorThread.Attempt` | src/eda_lab/service.py:240-342 | One Attempt from its record to its outcome: unless a call of its own is refused, it resolves to a retry after a transient failure with Attempts left, else to the terminal write. |
| `Execution.ExecutorThread.Record` | src/eda_lab/service.py:246-248 | The recorded Attempt number is fresh: the row is new. |
| `Execution.ExecutorThread.Acquire` | src/eda_lab/service.py:249-251 | Leases the recorded Attempt, or is refused and goes to the error path; left alone it succeeds. |
| `Execution.ExecutorThread.Register` | src/eda_lab/service.py:252-259 | Registers the owner; supervised mode without an owner, or a dead session, goes to the error path. |
| `Execution.ExecutorThread.Dispatch` | src/eda_lab/service.py:257-265 | Supervised mode, the whole row: a fresh execution waits in the host's queue with this Attempt's key, the executor's lease token and owner, the time of the call and no Supervisor, and the executor is done; an execution id in use is refused, changes nothing and leads to the error path. |
| `Execution.ExecutorThread.Collect` | src/eda_lab/service.py:276-282 | A returned result is kept only if the lease could still be extended, and then it is extended by a whole lease time. |
| `Execution.ExecutorThread.Retry` | src/eda_lab/service.py:320-326 | A transient failure with Attempts left closes this Attempt as retryable with the error of that failure and goes round, or is refused and ends. |
| `Execution.ExecutorThread.Close` | src/eda_lab/service.py:227-319 | The terminal write of Attempt and Run, together, with the status, error and retry class of this outcome, or refused; a refusal on a returned result tries the error path. |
| `Execution.ExecutorThread.Fail` | src/eda_lab/service.py:334-336 | The execution-error path: FAILED, execution error, not retryable, the verdict left alone; or refused. |
| `Deliveries.AlwaysCarries` | src/eda_lab/service.py:257-265 | In every reachable state, with or without H, every delivery carries the lease token, the owner and the execution id of the Attempt it executes, and that owner's host is the one served. |
| `Deliveries.CompletionAcceptedExactlyWhen` | src/eda_lab/store.py:485-536 | A Supervisor's completion is accepted if and only if the Attempt is RUNNING under a live, unclaimed lease, its owner's session is live and current, and its Run is RUNNING, no token being compared: the payload has the right ones. Then both rows are closed; else nothing changes but the half that PostgreSQL commits when only the Run is closed. |
| `Deliveries.UnderHAcceptedExactlyWhen` | src/eda_lab/store.py:485-536 | Under H the Run of such an Attempt is RUNNING: accepted exactly if the Attempt is as said, else nothing changes. |
| `Deliveries.DeliveredIsCompleted` | src/eda_lab/execution_supervisor.py:44-105 | End to end over every run under H: once delivered, and while nobody claims the Attempt for recovery, the first completion its Supervisor tries closes Attempt and Run with the verdict of the report if and only if lease and session still live. |
| `EndToEnd.RunsToItsVerdict` | src/eda_lab/execution_supervisor.py:44-105 | The two programs one after the other: the executor of a claimed Run delivers its first Attempt, and the Supervisor of its host, whose adapter takes until some later time, completes it; the turn is accomplished and the Run closed with the report's verdict exactly if that time is within the lease and the session, else the fence is lost. |
| `ExecutorLoop.FateIsDecided` | src/eda_lab/service.py:240-336 | Exactly one Attempt decides an undisturbed execution: the first whose outcome is not a timeout or transport failure, else the last; it succeeds precisely on an accepted result. |
| `ExecutorLoop.EveryOutcomeHasItsRows` | src/eda_lab/service.py:290-336 | However the adapter ends, what its terminal write puts in both rows: a last timeout is TIMED_OUT and a last transport failure FAILED, both retryable and untrusted; a cancelled child is CANCELLED; a rejected result is FAILED under the error that names its reason and keeps its report; a broken adapter is FAILED with the verdict left alone. |
| `Outcomes.RowsTellTheOutcome` | src/eda_lab/service.py:290-342 | Under H, in every reachable state, whoever wrote it: an Attempt's error and retry class go with its status, and a terminal Run that has Attempts has the status and the trust that belong to its last one. |
| `ExecutorLoop.RefusedExactlyWhen` | src/eda_lab/service.py:249-336 | What counts as refused: in any of its calls, the delivery included, the executor leaves its course, other than by a broken adapter, exactly when the Store refuses the call it makes. |
| `ExecutorLoop.OthersKeepExecutor` | src/eda_lab/service.py:196-211 | Nobody but the executor thread, or a caller cancelling it, moves its program counter. |
| `Supervision.Supervisor.RunOnce` | src/eda_lab/execution_supervisor.py:44-105 | One turn among arbitrary steps of all others: idle exactly if nothing waits for the host; a claimed delivery is started here and leaves a witness of the right kind and exit code, recorded before any completion is tried, however the turn ends; it has failed exactly if the adapter raised or its child could not be recorded, unparsed exactly if the parser raised; otherwise its last step is the fenced completion, and it is accomplished if and only if in that state lease, claim, owner, session and Run admit it, and then Attempt and Run are closed with the verdict of the report, else the fence is lost. Undisturbed, it is accomplished exactly if they admit it at the end of the turn. |
| `Supervision.Supervisor.Claim` | src/eda_lab/execution_supervisor.py:44-47 | Claims the oldest delivery queued for this host. |
| `Supervision.Supervisor.Witness` | src/eda_lab/execution_supervisor.py:57-74 | After the call the execution has a witness: the one it had, or this kind and exit code at the time of the call. |
| `Supervision.Supervisor.Finalize` | src/eda_lab/execution_supervisor.py:78-95 | The fenced terminal write from the claimed payload; reports success exactly if the delivery can be completed, and then both rows are closed. |
| `Supervision.CallKeepsTakenUp` | src/eda_lab/store.py:390-410 | From the moment a delivery is taken up unwitnessed, any witness of it ends it. |
| `Supervision.OthersRespect` | src/eda_lab/execution_supervisor.py:44-57 | Whatever the others do, a claimed delivery only moves up, its witness and payload stay, and its Supervisor's program counter stays. |
| `Supervision.SupervisorVerdict` | src/eda_lab/execution_supervisor.py:76-90 | What a Supervisor writes: SUCCEEDED, TRUSTED and accepted go together. |
| `Submission.JobService.Submit` | src/eda_lab/service.py:166-194 | A refused or repeated submit changes nothing, and is refused only if at some moment since it began the local futures or the Store were full; an admitted one adds exactly one QUEUED Run with this spec within the budget and, in local mode, one thread; alone, it is admitted exactly if the id is new and neither is full. |
| `Submission.JobService.Create` | src/eda_lab/service.py:178-191 | The insert and the lost race: the winner's Run is compared with this spec. |
| `Submission.JobService.Cancel` | src/eda_lab/service.py:202-211 | A job whose thread has not begun, or that was cancelled before, becomes CANCELLED (again), untrusted, without Attempts and without its adapter ever started, and the answer is True; otherwise nothing is written here and the adapter decides the answer. |
| `Submission.SpecKept` | src/eda_lab/store.py:139-171 | In any run, with or without H, a job id keeps its Run and its spec hash for ever. |
| `Recovery.Reconciler.RecoverStaleRuns` | src/eda_lab/service.py:347-444 | One pass among arbitrary steps of all others: each stale Run lands in exactly one list and belongs there on evidence from the run (`FiledRightly`), Runs that H forbids to fail are left out and the pass goes on with the others; no RUNNING Attempt stays claimed by the pass and no reading of it is left; a Run is recovered only where a step of this pass failed it after reading it without Attempts, or on the evidence of `Justifies`, which is of the Attempt as read, with the error that names it; that evidence holds of the row, at the claim and at the close, if and only if the pass was not `Overtaken`; an undisturbed pass closes every closable Attempt with its Run and deliveries, fails every stale Run without Attempts, its verdict and spec as before and its time that of the write, and produces no SUCCEEDED. The exception is a PermissionError of the probe: the pass then ends with the claim of that one Run left, and an undisturbed pass, in which no lease or claim lapses, does so if and only if some stale Run is `Blocked` when it begins. |
| `RowEvidence.EvidenceHoldsExactlyWhen` | src/eda_lab/store.py:287-297 | For every abandoned Attempt and every moment from the claim on: the child the row has by then is the one probed and is settled, and its owner, if foreign, has a witness, if and only if no call since the reading has recorded a last child that was not so found or a last owner that is foreign and unwitnessed. |
| `RowEvidence.NotOvertaken` | src/eda_lab/store.py:346-358 | In particular the evidence holds of the row if nobody records a process or an owner of the Attempt between the reading and that moment. |
| `LateRecords.OvertakenByChild` | src/eda_lab/store.py:287-297 | The failing family is reached, from the empty database and under H: the executor records its child after the pass has read the Attempt, and the pass abandons it as worker unavailable although the row holds a child it never probed. |
| `LateRecords.OvertakenByOwner` | src/eda_lab/store.py:346-358 | Likewise with a live foreign session registered as owner after the reading, without a witness. |
| `Recovery.CutShortLeavesClaim` | src/eda_lab/service.py:390-392 | The exception occurs: a pass over a state reached from the empty database, disturbed by nobody, ends with the Run's claim left. |
| `Recovery.Reconciler.ReconcileOne` | src/eda_lab/service.py:357-432 | The decision for one Run, from its Attempts as the pass read them; nothing is filed only when the probe raised, and then a claim on an Attempt of this Run is left. |
| `Recovery.Reconciler.TryClaim` | src/eda_lab/service.py:384-389 | Whatever the others do, a claim is obtained exactly if the Attempt is RUNNING with a lapsed lease and no live claim at that moment; it lives for the claim time from then, and marks only that Attempt. |
| `Recovery.Reconciler.CloseClaimed` | src/eda_lab/service.py:390-432 | The claim holder abandons only an Attempt whose child, as read, is gone or past its deadline and was not asked to stop; otherwise the claim is given back; it ends with nothing filed and everything as it was exactly if a child was read and its probe raises. What of this holds of the row by then is `EvidenceHoldsExactlyWhen`. |
| `Recovery.Reconciler.CloseWithChild` | src/eda_lab/service.py:396-422 | A running child: skipped until its deadline, then asked to stop, or closed without it under the identity error. |
| `Recovery.Reconciler.CloseChildless` | src/eda_lab/service.py:423-432 | No child, or it is gone: closed as terminated if a witness exists, else as worker unavailable. |
| `Recovery.Reconciler.Finish` | src/eda_lab/store.py:454-483 | Whatever the others do, recovered exactly if the claim still held at the call, skipped exactly if not; recovered, Attempt (ABANDONED, with this error, recovery required), Run and deliveries are closed together; afterwards no claim of the pass remains. |
| `Recovery.Reconciler.LookAtOwner` | src/eda_lab/service.py:370-381 | An Attempt of another session is deferred exactly if its execution has no witness at that moment. |
| `Recovery.Reconciler.WriteOff` | src/eda_lab/service.py:365-368 | The last step of the pass fails the Run it read without Attempts: FAILED, verdict and spec as they were, `updated_at` the time of the write. Undisturbed, it touches no other Run. |
| `Recovery.Reconciler.Snapshot` | src/eda_lab/service.py:349-357 | The expired leases, then the list of stale Runs, then the Attempts of each Run in turn, each as they are when they are read, the others acting in between; afterwards exactly the Runs to be failed are on the lists of the pass. |
| `Recovery.Reconciler.ReadAll` | src/eda_lab/store.py:257-262 | The Attempts of the listed Runs, read one Run after the other among the others' steps: each Run's are those of one state between the listing and the end. |
| `Reconciling.NeverProducesSuccess` | src/eda_lab/service.py:347-432 | No call a reconciler makes ever makes a Run SUCCEEDED, on any rows with any tokens. |
| `Reconciling.FinishClears` | src/eda_lab/store.py:454-483 | In a reachable state finalization succeeds exactly if the claim holds, closes everything together, and leaves no claim. |
| `Reconciling.ClaimMarksOne` | src/eda_lab/store.py:432-442 | A claim marks exactly one Attempt. |
| `Reconciling.OthersAct` | src/eda_lab/service.py:347-432 | Whatever the others do, none of the pass's claims appears elsewhere and no witness disappears. |
| `Reconciling.FiledOnce` | src/eda_lab/service.py:350-356 | Filing adds a Run to exactly one list. |
| `KeepAlive.KeepAliveExactlyWhen` | src/eda_lab/service.py:213-221 | With heartbeats every max(lease/3, 0.01) s at most `delay` late, a recovery claim on the beating executor's Attempt is impossible in every history if and only if period plus delay is at most the lease. |
| `KeepAlive.NeverRecoveredWhileBeating` | src/eda_lab/service.py:213-221 | Under that condition the lease is live whenever anything happens, and neither a recovery claim nor an acquisition succeeds. |
| `KeepAlive.LeaseFollowsBeats` | src/eda_lab/store.py:276-285 | However many others act in between, the lease never ends earlier than one lease time after the last heartbeat. |
| `KeepAlive.LateBeatLosesLease` | src/eda_lab/store.py:432-442 | The failing family: with a larger delay there is a paced history, over rows with a RUNNING Run, whose recovery claim succeeds. |
| `KeepAlive.Heart.Loop` | src/eda_lab/execution_supervisor.py:31-42 | The heartbeat thread: what it does is a session heartbeat, if there is a session, and a lease heartbeat at the end of every wait, until the stop event or the first that is refused; if its waits end in time it gives up only because the Attempt closed or its host session was superseded, never because the lease lapsed. |
| `StoreObject.Store.CreateRun` | src/eda_lab/store.py:139-171 | Inserts a QUEUED Run, or reports the existing id or the exhausted budget and changes nothing. |
| `StoreObject.Store.ClaimNextRun` | src/eda_lab/postgres_store.py:116-121 | The oldest QUEUED Run becomes RUNNING; none exactly if none is queued. |
| `StoreObject.Store.HeartbeatQueuedExecutionAttempts` | src/eda_lab/store.py:330-344 | Refreshes exactly the Attempts waiting in a live current session's queue and counts them. |
| `StoreObject.Store.ClaimExecutionRequest` | src/eda_lab/store.py:369-388 | The oldest delivery queued for the host becomes CLAIMED; none exactly if none waits. |
| `StoreObject.Store.RecordTerminationWitness` | src/eda_lab/store.py:399-410 | Keeps the first witness; completes a claimed or running delivery, not a queued one. |
| `StoreObject.Store.ReleaseTerminalExecutionRequests` | src/eda_lab/postgres_store.py:186-190 | Retires exactly the unwitnessed active deliveries of ABANDONED Attempts. |
| `StoreObject.Store.FinalizeRecovery` | src/eda_lab/store.py:454-483 | Abandons the Attempt, fails its Run and retires its deliveries, with each store's behaviour on a Run that is not RUNNING. |
| `StoreObject.Store.FinalizeAttemptAndRun` | src/eda_lab/store.py:485-536 | Closes Attempt and Run under lease, claim and owner fences, with each store's behaviour on a Run that is not RUNNING. |
| `Acceptance.TrustedMeansEvidence` | src/eda_lab/service.py:139-164 | TRUSTED is recorded exactly on exit code 0, parse OK, semantics VALID and provenance VALID. |
| `Acceptance.DistrustMeansDisproof` | src/eda_lab/service.py:139-164 | Trust is INVALID exactly where the syntax, the semantics or an exit code other than 0 speaks against the execution, and UNKNOWN exactly where neither that nor all the evidence is there. |
| `Acceptance.RejectionNamesItsReason` | src/eda_lab/service.py:290-316 | Each rejection carries exactly the error of its reason: syntax before semantics, then a missing exit code as unknown outcome, then the tool exit; the Supervisor has one error for all. |
| `Acceptance.PathsAgreeExactlyWhen` | src/eda_lab/service.py:290-316 | The local and the supervised path accept alike if and only if it is not a clean exit whose report is neither INVALID nor (OK and VALID). |
| `Acceptance.ParserRangeAgrees` | src/eda_lab/execution_supervisor.py:76-90 | On everything the parser can return the two paths agree, and accepting equals TRUSTED. |
| `Acceptance.PathsDisagreeOutsideRange` | src/eda_lab/service.py:290-316 | A report outside the parser's range on which they part. |
| `OpenStaReport.ParseSetupMax` | src/eda_lab/parser.py:118-211 | Reads a report exactly if it has the one supported structure; otherwise reports exactly the structural errors there are; of a readable one, exactly the contradictions there are. |
| `OpenStaReport.CheckStructure` | src/eda_lab/parser.py:118-158 | The structural errors appended are exactly those there are, and none exactly if the report is well-formed. |
| `OpenStaReport.CheckSemantics` | src/eda_lab/parser.py:189-199 | The contradictions appended are exactly those there are. |
| `OpenStaReport.AcceptedIsConsistent` | src/eda_lab/parser.py:189-211 | An accepted report satisfies abs(required - arrival - worst slack) <= 4.5e-6 ns, abs(worst - slack) <= 5e-7 ns and label agrees with sign. |
| `OpenStaReport.BoundsAreTight` | src/eda_lab/parser.py:189-211 | The bound is attained by a report that passes. |
| `OpenStaReport.NegativeWorstExactlyWhen` | src/eda_lab/parser.py:189-211 | An accepted MET report with a given slack and a negative worst slack exists if and only if 0 <= slack < 5e-7 ns. |
| `OpenStaReport.ParseReport` | src/eda_lab/parser.py:214-230 | Dispatch on the first line, with the loops and error lists, yields the declared status fields, and they are as `CheckAnswersTheSlack` says. |
| `OpenStaReport.CheckAnswersTheSlack` | src/eda_lab/parser.py:189-230 | Of every artifact: PASS exactly if it has a slack to go by (a fixture report that is accepted, or a well-formed OpenSTA report that does not contradict itself) of at least 0, FAIL exactly if it is negative, UNKNOWN exactly if there is none; semantics INVALID exactly of an OpenSTA report that contradicts itself. |
| `OpenStaReport.EveryArtifactIsJudgedAlike` | src/eda_lab/parser.py:214-230 | For every artifact and exit code the two paths judge alike, acceptance equals TRUSTED, and an accepted OpenSTA report is consistent. |
| `SyntheticReport.RoundTrip` | src/eda_lab/runner.py:37-54 | For any line-break-free, trimmed job id and corner, either unit, any plain decimal slack and any padding, the printed report parses with the same id, corner, slack and unit, the slack in ns. |
| `SyntheticReport.MissingSlackIsRejected` | src/eda_lab/runner.py:46-47 | The `missing_worst_slack` profile is rejected for exactly that field, with any padding. |
| `SyntheticReport.MalformedUnitIsRejected` | src/eda_lab/runner.py:48-49 | The `malformed_unit` profile is rejected for its slack, with any padding. |
| `SyntheticReport.AcceptedHasEachOnce` | src/eda_lab/parser.py:51-107 | Any report that parses OK sets each required field on exactly one line, and that line's value is used. |
| `SyntheticReport.AcceptedExactlyWhen` | src/eda_lab/parser.py:51-93 | Accepted exactly if no field is repeated, none is missing, the version is 1, the exit code is a number and the slack one with a unit, and then the metrics are those fields; repeated and missing fields are reported exactly; else the first of version, exit code and slack that is wrong. |
| `SyntheticReport.ScanFindsRepetitions` | src/eda_lab/parser.py:96-106 | The errors of the scan are exactly the repeated fields, each with its line counted from 1. |
| `SyntheticReport.ScanLines` | src/eda_lab/parser.py:96-106 | The loop filling the dictionary and the error list computes the declared fields and duplicate errors with line numbers. |
| `SyntheticReport.Parse` | src/eda_lab/parser.py:51-107 | A whole text is parsed as declared, or refused for its first line. |
| `SyntheticReport.StatusOf` | src/eda_lab/parser.py:51-93 | Status fields lie in the acceptance range; PASS exactly on a parsed non-negative slack. |
| `SyntheticReport.PayloadFields` | src/eda_lab/runner.py:50-53 | Padding changes neither the first line nor any field. |
| `PythonText.DecimalRoundTrip` | src/eda_lab/parser.py:18 | Reading back a printed plain decimal gives the same decimal, digit for digit. |
| `PythonText.SizeIsOfItsDigits` | src/eda_lab/parser.py:18 | The value of a decimal is the number its digits denote with the point moved past the fraction, under its sign. |
| `PythonText.SplitJoined` | src/eda_lab/parser.py:99-101 | Splitting newline-terminated, break-free lines followed by a rest gives those lines, then the rest's. |
| `Pagination.WalkFixed` | src/eda_lab/api.py:98-110 | On a fixed store, following next_cursor to the end terminates and concatenates to exactly the selected Runs in (updated_at desc, job_id desc) order. |
| `Pagination.Walk` | src/eda_lab/api.py:98-110 | With updates interleaved between pages: entries are strictly ordered, each is a row of the table its page was answered from, and a completed walk returns every untouched Run (exactly once). |
| `Pagination.NoRunTwice` | src/eda_lab/api.py:98-110 | If updated_at never goes back, no Run is returned twice, however Runs are updated during the walk. |
| `Pagination.ListPage` | src/eda_lab/api.py:98-110 | Bad limit or cursor is refused; otherwise the page holds the first rows after the cursor, with a next cursor exactly if more follow. |
| `Pagination.ListRuns` | src/eda_lab/store.py:237-255 | The first `limit` selected rows after the cursor in listing order. |
| `Pagination.PageCovers` | src/eda_lab/api.py:98-110 | Every row after the cursor is on the page or after its next cursor. |
| `Pagination.KeyIsTotalOrder` | src/eda_lab/store.py:251-253 | The listing order is a total order. |
| `Violations.NewViolations` | src/eda_lab/store.py:582-608 | The error and comparability cases, and otherwise the sorted new rows, each as often as it is stored. |
| `Violations.Select` | src/eda_lab/store.py:598-607 | The anti-join and its order. |
| `Violations.InsertionOrderDoesNotMatter` | src/eda_lab/store.py:598-607 | The result depends only on which rows are stored, not on their insertion order. |
| `Violations.FoundPaths` | src/eda_lab/store.py:598-607 | The paths of the result are exactly the violated paths of the candidate that the baseline does not violate. |
| `Violations.NewPathsTriangle` | src/eda_lab/store.py:598-607 | new(A,C) lies within new(A,B) and new(B,C) together; new(A,A) is empty; every violated path of C is an old one of A or new. |
| `Violations.NothingNewOverItself` | src/eda_lab/store.py:598-607 | A revision compared with itself has no findings. |
| `Violations.ComparabilityLaws` | src/eda_lab/store.py:592-597 | Comparability is symmetric, and COMPARABLE is an equivalence that preserves every other comparison. |
| `Violations.ComparedByGravestDifference` | src/eda_lab/store.py:592-597 | Each answer exactly by the fields that differ: the design, else Liberty or SDC, else the tool or parser version, else nothing. |

## Left out

- Subprocess control (`ps`, `os.kill`, `killpg`, the OpenSTA adapter): what they observe is an input (`Sighting`, `Outcome`, `Ending`).
- Threads and executors: scheduling is the arbitrary interleaving of steps; `resource_slots`, retry sleeps and thread joins are not modelled.
- Error texts, artifact paths, started_at and owner labels, metrics rows, provenance contents and progress notifications: no guard reads them.
- Wakeups and polling: `PostgresWorker.Serve` runs over any finite number of scans; of the Supervisor and the Host Agent one turn is modelled, not its endless repetition.
- Worker.PostgresWorker.RecoverAndRelease: the reconciliation pass inside a drain is among the others' steps of its first turn, because `Recovery.Reconciler` is proved as a program of its own against the same cluster; that it raised is an input of `Drain`.
- Worker.PostgresWorker.Drain: models the supervised mode with an execution owner, because only there does the source bound dispatch; a schedule of the others' turns is finite, and a drain that still waits for a future when the last of them is over reports `StillWaiting`, where the source would wait on; the returned ids are a multiset, because futures done together come in no fixed order.
- DrainBound.LimitIsExact: the half that finds a drain at its limit asks for enough queued Runs, a live session and fewer than maxInFlight active deliveries with a witness, because with less no drain can come that far.
- Recovery.Reconciler.RecoverStaleRuns: a Run read without Attempts that H does not let it fail is returned in `outside` and not failed, where the source fails it (what comes of that is `HypothesisH.LiveExecutorUndoes`); the exact condition of a pass cut short is for a pass in which the others only let time go by; lists are compared as multisets, because the order of stale Runs is the database's.
- Recovery.Reconciler.Snapshot: whether a local future is still under way is an input per Run (`live`), because any process may run a pass, with any of the futures its own; what is proved holds for every such input.
- Recovery of a Run that stopped between two Attempts, or between recording an Attempt and leasing it: `claim_recovery` cannot take an Attempt whose lease was never set or whose last Attempt is closed, so convergence is claimed only for RUNNING Attempts with a lapsed lease.
- Execution.ExecutorThread.Execute: that nothing is refused is shown only where nobody else acts and the clock stands still, because a lease may lapse in any longer silence; what follows when nothing is refused is stated without that restriction.
- Exceptions raised by the database driver itself, and connection handling.
- The `spec_payload` of a Run: every Run created by `submit` has one, so `claim_next_run` always yields it.
- PythonText.ParseInt: only ASCII digits are digits; Python also accepts other decimal digits, and a decimal too large for a double is not rejected as non-finite.
- OpenStaReport.ParseSetupMax: takes what the regular expressions match as given; their text-level behaviour is not modelled.
- The `timeout` and `communication_error` fixture profiles: they are adapter outcomes of the retry loop.
- `postgres_contract_store.py`, `client.py`, `adapters.py`, `clients.py`, `progress.py`, schema migration, SQL text and the HTTP layer around the listing.
