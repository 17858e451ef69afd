/**
 * The whole protocol as a state machine: the shared rows, plus the program counters of every executor
 * thread (service.py `_execute`), every Supervisor (execution_supervisor.py `run_once`) and every reconciler
 * that is about to fail a Run it saw without Attempts (service.py `recover_stale_runs`).
 *
 * One step is one Store call of one process, or one event outside the database. Steps interleave freely;
 * a process may crash between any two of its calls.
 */
module Protocol {
  import opened Prelude
  import opened Acceptance
  import opened Tables
  import opened StoreOps
  import opened History

  /**
   * `local`: `submit` itself starts execution (one service process); otherwise workers claim queued Runs.
   * `onlyDead` is hypothesis H: a reconciler that fails a RUNNING Run without Attempts does so only for a
   * Run whose executor can no longer start.
   */
  datatype Config = Config(
    kind: StoreKind, local: bool, maxAttempts: nat, budget: Option<nat>, lease: real, onlyDead: bool)

  datatype Mode = InProcess | Supervised

  /** What `adapter.run` did. */
  datatype Outcome =
    | Returned(report: Report, exitCode: Option<int>)
    | ChildCancelled
    | TimedOut
    | TransportFailed
    | Broke
  {
    predicate Transient() { TimedOut? || TransportFailed? }
    function Error(): ErrorType
      requires Transient()
    {
      if TimedOut? then ErrorTimeout else ErrorTransport
    }
  }

  /** Program counter of the executor of one Run. */
  datatype Stage =
    | Pending                                                             // future submitted, not started
    | Cancelled(noticed: bool)                                            // future cancelled; its pool may know already
    | Looping(no: nat)                                                    // about to record Attempt `no`
    | Recorded(no: nat)                                                   // about to acquire its lease
    | Leased(no: nat, token: Token)                                       // about to register its owner
    | Registered(no: nat, token: Token, execution: ExecutionId)           // about to dispatch or to run the adapter
    | Executing(no: nat, token: Token)                                    // inside `adapter.run`
    | Settling(no: nat, token: Token, outcome: Outcome)                   // about to write the outcome
    | Failing(no: nat, token: Token)                                      // about to write an execution error
    | Ended(clean: bool)                                                  // returned, raised or crashed

  datatype Executor = Executor(mode: Mode, owner: Option<HostRef>, stage: Stage)

  datatype SupervisorStage = SupervisorClaimed | SupervisorRunning | SupervisorGone

  /** One call of `adapter.run`. */
  datatype Start = InProcessStart(k: AttemptKey) | SupervisedStart(execution: ExecutionId)

  /** A Run on the list of one reconciliation pass; passes are told apart by a token each draws. */
  datatype Reading = Reading(job: JobId, pass: Token)

  datatype Sys = Sys(
    db: Db, now: real,
    execs: map<JobId, Executor>,
    listed: set<Reading>,  // Runs a pass listed as RUNNING, whose Attempts it has not read yet
    doomed: set<Reading>,  // Runs of which a pass read no Attempts, and which it will fail
    sups: map<ExecutionId, SupervisorStage>,
    starts: seq<Start>)

  const INITIAL := Sys(EMPTY_DB, 0.0, map[], {}, {}, map[], [])

  datatype Step =
    | Tick(now: real)
    | Submit(job: JobId, spec: SpecHash)
    | ClaimRun(job: JobId, mode: Mode, owner: Option<HostRef>)
    | CancelFuture(job: JobId)
    | CancelWrite(job: JobId)
    | Notice(job: JobId)
    | Begin(job: JobId)
    | Record(job: JobId)
    | Acquire(job: JobId, token: Token)
    | Register(job: JobId, execution: ExecutionId)
    | Dispatch(job: JobId)
    | StartAdapter(job: JobId)
    | Return(job: JobId, outcome: Outcome)
    | Settle(job: JobId)
    | Fail(job: JobId)
    | Crash(job: JobId)
    | SupervisorClaim(execution: ExecutionId, supervisor: SupervisorId)
    | SupervisorStart(execution: ExecutionId)
    | SupervisorStop(execution: ExecutionId)
    | SupervisorFinalize(execution: ExecutionId, report: Report, exitCode: Option<int>)
    | List(job: JobId, pass: Token)
    | SeeEmpty(job: JobId, pass: Token)
    | FailEmpty(job: JobId, pass: Token)
    | Forget(job: JobId, pass: Token)
    | Bystander(op: Op)

  /** Steps of an executor thread, of its pool, or of a caller cancelling it. */
  predicate ExecutorStep(step: Step) {
    step.CancelFuture? || step.CancelWrite? || step.Notice? || step.Begin? || step.Record? || step.Acquire?
    || step.Register? || step.Dispatch? || step.StartAdapter? || step.Return? || step.Settle? || step.Fail?
    || step.Crash?
  }

  // ---------------------------------------------------------------- guards

  /** Calls that any process may make at any time, with any token. */
  predicate Harmless(op: Op) {
    op.OpRead? || op.OpHeartbeatAttempt? || op.OpRecordProcess? || op.OpStartSession? || op.OpHeartbeatSession?
    || op.OpHeartbeatQueued?
    || op.OpProcessStarted? || op.OpRecordWitness? || op.OpReleaseTerminal? || op.OpClaimRecovery?
    || op.OpReleaseRecovery?
    || op.OpFinalizeRecovery?
  }

  /** No Attempt of the Run is recorded. */
  predicate NoAttempts(db: Db, j: JobId) {
    forall k :: k in db.attempts ==> k.job != j
  }

  /** The executor of the Run, if it ever had one, can no longer start. */
  predicate CannotStart(s: Sys, j: JobId) {
    j in s.execs ==> s.execs[j].stage.Cancelled? || s.execs[j].stage.Ended?
  }

  predicate Enabled(cfg: Config, s: Sys, step: Step) {
    match step
    case Tick(now) => s.now <= now
    case Submit(j, spec) => true
    case ClaimRun(j, mode, owner) => !cfg.local
    case CancelFuture(j) => j in s.execs && s.execs[j].stage.Pending?
    case CancelWrite(j) => j in s.execs && s.execs[j].stage.Cancelled?
    case Notice(j) => j in s.execs && s.execs[j].stage.Cancelled?
    case Begin(j) => j in s.execs && s.execs[j].stage.Pending?
    case Record(j) => j in s.execs && s.execs[j].stage.Looping?
    case Acquire(j, token) => j in s.execs && s.execs[j].stage.Recorded?
    case Register(j, x) => j in s.execs && s.execs[j].stage.Leased?
    case Dispatch(j) => j in s.execs && s.execs[j].stage.Registered? && s.execs[j].mode.Supervised?
    case StartAdapter(j) => j in s.execs && s.execs[j].stage.Registered? && s.execs[j].mode.InProcess?
    case Return(j, o) => j in s.execs && s.execs[j].stage.Executing? && (o.Returned? ==> InParserRange(o.report))
    case Settle(j) => j in s.execs && s.execs[j].stage.Settling?
    case Fail(j) => j in s.execs && s.execs[j].stage.Failing?
    case Crash(j) => j in s.execs && !s.execs[j].stage.Ended?
    case SupervisorClaim(e, sup) => e in s.db.requests
    case SupervisorStart(e) => e in s.sups && s.sups[e].SupervisorClaimed?
    case SupervisorStop(e) => e in s.sups
    case SupervisorFinalize(e, r, x) =>
      e in s.sups && s.sups[e].SupervisorRunning? && e in s.db.requests && InParserRange(r)
    case List(j, p) => RunOpen(s.db, j)
    case SeeEmpty(j, p) => Reading(j, p) in s.listed && NoAttempts(s.db, j) && (cfg.onlyDead ==> CannotStart(s, j))
    case FailEmpty(j, p) => Reading(j, p) in s.doomed
    case Forget(j, p) => Reading(j, p) in s.listed || Reading(j, p) in s.doomed
    case Bystander(op) => Harmless(op)
  }

  // ---------------------------------------------------------------- effects

  function To(s: Sys, db: Db, j: JobId, stage: Stage): Sys
    requires j in s.execs
  {
    s.(db := db, execs := s.execs[j := s.execs[j].(stage := stage)])
  }

  function SettleCompletion(cfg: Config, no: nat, o: Outcome): Completion
    requires !o.Broke?
  {
    match o
    case Returned(r, x) =>
      (match LocalDecision(r, x)
       case Accept => Completion(AttemptSucceeded, RunSucceeded, None, NotApplicable, Validated(ValidationFields(r, x)))
       case Reject(e) => Completion(AttemptFailed, RunFailed, Some(e), NonRetryable, Validated(ValidationFields(r, x))))
    case ChildCancelled =>
      Completion(AttemptCancelled, RunCancelled, Some(ErrorCancelled), NonRetryable, TrustOnly(TrustInvalid))
    case TimedOut => Completion(AttemptRetryable, RunTimedOut, Some(ErrorTimeout), Retryable, TrustOnly(TrustInvalid))
    case TransportFailed =>
      Completion(AttemptRetryable, RunFailed, Some(ErrorTransport), Retryable, TrustOnly(TrustInvalid))
  }

  const EXECUTION_ERROR := Completion(AttemptFailed, RunFailed, Some(ErrorExecution), NonRetryable, NoFields)

  function SupervisorCompletion(r: Report, x: Option<int>): Completion {
    match SupervisedDecision(r, x)
    case Accept => Completion(AttemptSucceeded, RunSucceeded, None, NotApplicable, Validated(ValidationFields(r, x)))
    case Reject(e) => Completion(AttemptFailed, RunFailed, Some(e), NonRetryable, Validated(ValidationFields(r, x)))
  }

  function DoSubmit(cfg: Config, s: Sys, j: JobId, spec: SpecHash): Sys {
    match CreateRun(s.db, s.now, j, spec, cfg.budget)
    case Created(db') =>
      s.(db := db', execs := if cfg.local then s.execs[j := Executor(InProcess, None, Pending)] else s.execs)
    case _ => s
  }

  function DoClaimRun(s: Sys, j: JobId, mode: Mode, owner: Option<HostRef>): Sys {
    var r := ClaimNextRun(s.db, s.now, j);
    if r.ok then s.(db := r.db, execs := s.execs[j := Executor(mode, owner, Pending)]) else s
  }

  function DoRecord(s: Sys, j: JobId): Sys
    requires j in s.execs && s.execs[j].stage.Looping?
  {
    var no := s.execs[j].stage.no;
    To(s, RecordAttempt(s.db, AttemptKey(j, no)).db, j, Recorded(no))
  }

  function DoAcquire(cfg: Config, s: Sys, j: JobId, token: Token): Sys
    requires j in s.execs && s.execs[j].stage.Recorded?
  {
    var no := s.execs[j].stage.no;
    var r := AcquireLease(s.db, s.now, AttemptKey(j, no), token, cfg.lease);
    To(s, r.db, j, if r.ok then Leased(no, token) else Failing(no, token))
  }

  /** A service without a Host Agent owner registers nothing; in supervised mode it then refuses to dispatch. */
  function DoRegister(s: Sys, j: JobId, x: ExecutionId): Sys
    requires j in s.execs && s.execs[j].stage.Leased?
  {
    var ex, st := s.execs[j], s.execs[j].stage;
    if ex.owner.None? then
      To(s, s.db, j, if ex.mode.Supervised? then Failing(st.no, st.token) else Registered(st.no, st.token, x))
    else
      var r := RecordExecution(s.db, s.now, AttemptKey(j, st.no), st.token, Owner(ex.owner.value, x));
      To(s, r.db, j, if r.ok then Registered(st.no, st.token, x) else Failing(st.no, st.token))
  }

  function DoDispatch(s: Sys, j: JobId): Sys
    requires j in s.execs && s.execs[j].stage.Registered?
  {
    var ex, st := s.execs[j], s.execs[j].stage;
    if ex.owner.None? then To(s, s.db, j, Failing(st.no, st.token))
    else
      var r := Enqueue(s.db, s.now, st.execution, AttemptKey(j, st.no), ex.owner.value.host, st.token, ex.owner.value);
      To(s, r.db, j, if r.ok then Ended(true) else Failing(st.no, st.token))
  }

  function DoStartAdapter(s: Sys, j: JobId): Sys
    requires j in s.execs && s.execs[j].stage.Registered?
  {
    var st := s.execs[j].stage;
    To(s, s.db, j, Executing(st.no, st.token)).(starts := s.starts + [InProcessStart(AttemptKey(j, st.no))])
  }

  /** A returned result is collected only under a lease heartbeat that still succeeds. */
  function DoReturn(cfg: Config, s: Sys, j: JobId, o: Outcome): Sys
    requires j in s.execs && s.execs[j].stage.Executing?
  {
    var st := s.execs[j].stage;
    if o.Returned? then
      var r := HeartbeatAttempt(s.db, s.now, AttemptKey(j, st.no), st.token, cfg.lease);
      To(s, r.db, j, if r.ok then Settling(st.no, st.token, o) else Failing(st.no, st.token))
    else To(s, s.db, j, if o.Broke? then Failing(st.no, st.token) else Settling(st.no, st.token, o))
  }

  function DoSettle(cfg: Config, s: Sys, j: JobId): Sys
    requires j in s.execs && s.execs[j].stage.Settling?
  {
    var ex, st := s.execs[j], s.execs[j].stage;
    var k := AttemptKey(j, st.no);
    if st.outcome.Broke? then To(s, s.db, j, Failing(st.no, st.token))
    else if st.outcome.Transient() && st.no < cfg.maxAttempts then
      var r := TransitionAttempt(s.db, s.now, k, st.token, AttemptRetryable, Some(st.outcome.Error()), Retryable);
      To(s, r.db, j, if r.ok then Looping(st.no + 1) else Ended(false))
    else
      var r := FinalizeAttempt(cfg.kind, s.db, s.now, k, st.token, SettleCompletion(cfg, st.no, st.outcome), ex.owner);
      To(s, r.db, j,
         if r.ok then Ended(true) else if st.outcome.Returned? then Failing(st.no, st.token) else Ended(false))
  }

  function DoFail(cfg: Config, s: Sys, j: JobId): Sys
    requires j in s.execs && s.execs[j].stage.Failing?
  {
    var ex, st := s.execs[j], s.execs[j].stage;
    var r := FinalizeAttempt(cfg.kind, s.db, s.now, AttemptKey(j, st.no), st.token, EXECUTION_ERROR, ex.owner);
    To(s, r.db, j, Ended(r.ok))
  }

  function DoSupervisorClaim(s: Sys, e: ExecutionId, sup: SupervisorId): Sys
    requires e in s.db.requests
  {
    var r := ClaimRequest(s.db, s.db.requests[e].host, sup, e);
    if r.ok then s.(db := r.db, sups := s.sups[e := SupervisorClaimed]) else s
  }

  function DoSupervisorFinalize(cfg: Config, s: Sys, e: ExecutionId, r: Report, x: Option<int>): Sys
    requires e in s.db.requests
  {
    var q := s.db.requests[e];
    s.(db := FinalizeAttempt(cfg.kind, s.db, s.now, q.key, q.leaseToken, SupervisorCompletion(r, x), Some(q.owner)).db)
  }

  function Next(cfg: Config, s: Sys, step: Step): Sys
    requires Enabled(cfg, s, step)
  {
    match step
    case Tick(now) => s.(now := now)
    case Submit(j, spec) => DoSubmit(cfg, s, j, spec)
    case ClaimRun(j, mode, owner) => DoClaimRun(s, j, mode, owner)
    case CancelFuture(j) => To(s, s.db, j, Cancelled(false))
    case CancelWrite(j) => s.(db := UpdateRun(s.db, s.now, j, RunCancelled, Some(TrustInvalid)))
    case Notice(j) => To(s, s.db, j, Cancelled(true))
    case Begin(j) => To(s, UpdateRun(s.db, s.now, j, RunRunning, None), j, Looping(1))
    case Record(j) => DoRecord(s, j)
    case Acquire(j, token) => DoAcquire(cfg, s, j, token)
    case Register(j, x) => DoRegister(s, j, x)
    case Dispatch(j) => DoDispatch(s, j)
    case StartAdapter(j) => DoStartAdapter(s, j)
    case Return(j, o) => DoReturn(cfg, s, j, o)
    case Settle(j) => DoSettle(cfg, s, j)
    case Fail(j) => DoFail(cfg, s, j)
    case Crash(j) => To(s, s.db, j, Ended(false))
    case SupervisorClaim(e, sup) => DoSupervisorClaim(s, e, sup)
    case SupervisorStart(e) => s.(sups := s.sups[e := SupervisorRunning], starts := s.starts + [SupervisedStart(e)])
    case SupervisorStop(e) => s.(sups := s.sups[e := SupervisorGone])
    case SupervisorFinalize(e, r, x) => DoSupervisorFinalize(cfg, s, e, r, x)
    case List(j, p) => s.(listed := s.listed + {Reading(j, p)})
    case SeeEmpty(j, p) => s.(listed := s.listed - {Reading(j, p)}, doomed := s.doomed + {Reading(j, p)})
    case FailEmpty(j, p) =>
      s.(db := UpdateRun(s.db, s.now, j, RunFailed, None), doomed := s.doomed - {Reading(j, p)})
    case Forget(j, p) => s.(listed := s.listed - {Reading(j, p)}, doomed := s.doomed - {Reading(j, p)})
    case Bystander(op) => s.(db := Apply(cfg.kind, s.db, s.now, op).db)
  }

  /** Any interleaving of any processes. */
  datatype Behavior = Behavior(cfg: Config, states: seq<Sys>, steps: seq<Step>) {
    /** A run of the protocol from wherever `states[0]` is. */
    ghost predicate Runs() {
      && |states| == |steps| + 1
      && forall i: nat {:trigger Takes(i)} :: i < |steps| ==> Takes(i)
    }

    /** A run of the protocol from the empty database. */
    ghost predicate Valid() {
      Runs() && states[0] == INITIAL && 1 <= cfg.maxAttempts
    }

    ghost predicate Takes(i: nat)
      requires |states| == |steps| + 1 && i < |steps|
    {
      Enabled(cfg, states[i], steps[i]) && states[i + 1] == Next(cfg, states[i], steps[i])
    }
  }

  function Last(b: Behavior): Sys
    requires |b.states| == |b.steps| + 1
  {
    b.states[|b.steps|]
  }

  function Append(b: Behavior, step: Step): Behavior
    requires |b.states| == |b.steps| + 1 && Enabled(b.cfg, Last(b), step)
  {
    Behavior(b.cfg, b.states + [Next(b.cfg, Last(b), step)], b.steps + [step])
  }

  /** `b'` continues `b`. */
  ghost predicate Continues(b: Behavior, b': Behavior) {
    b'.cfg == b.cfg && b.states <= b'.states && b.steps <= b'.steps
  }

  lemma AppendIsValid(b: Behavior, step: Step)
    requires b.Valid() && Enabled(b.cfg, Last(b), step)
    ensures Append(b, step).Valid() && Continues(b, Append(b, step))
  {
    var c := Append(b, step);
    forall i: nat | i < |c.steps| ensures c.Takes(i) {
      if i < |b.steps| { assert b.Takes(i); }
    }
  }

  /** The run so far and then one more step. */
  lemma Extended(b: Behavior, step: Step) returns (c: Behavior)
    requires b.Valid() && Enabled(b.cfg, Last(b), step)
    ensures c == Append(b, step) && c.Valid() && Continues(b, c) && Last(c) == Next(b.cfg, Last(b), step)
  {
    AppendIsValid(b, step);
    c := Append(b, step);
  }

  /** Where only the clock advanced, the rows are the same. */
  lemma {:induction false} TicksKeepRows(b: Behavior, from: nat, to: nat)
    requires b.Valid() && from <= to <= |b.steps|
    requires forall i :: from <= i < to ==> b.steps[i].Tick?
    ensures b.states[to] == b.states[from].(now := b.states[to].now) && b.states[from].now <= b.states[to].now
  {
    if from < to {
      TicksKeepRows(b, from, to - 1);
      assert b.Takes(to - 1);
    }
  }

  /** The smallest run with an executor: one Run submitted, and claimed by a worker without a Host Agent. */
  lemma OneClaimedRun(cfg: Config) returns (b: Behavior)
    requires 1 <= cfg.maxAttempts && !cfg.local && cfg.budget.None?
    ensures b.Valid() && b.cfg == cfg && b.steps == [Submit(0, 0), ClaimRun(0, InProcess, None)]
    ensures Last(b).now == 0.0 && Last(b).listed == {} && Last(b).doomed == {}
    ensures Last(b).db == EMPTY_DB.(runs := map[0 := Run(RunRunning, 0, NO_VERDICT, 0.0)])
    ensures Last(b).execs == map[0 := Executor(InProcess, None, Pending)]
  {
    b := Behavior(cfg, [INITIAL], []);
    b := Extended(b, Submit(0, 0));
    b := Extended(b, ClaimRun(0, InProcess, None));
  }

  /** And one that a reconciler has read empty although its executor can still start, which H forbids. */
  lemma OneDoomedRun(cfg: Config) returns (b: Behavior)
    requires 1 <= cfg.maxAttempts && !cfg.local && cfg.budget.None? && !cfg.onlyDead
    ensures b.Valid() && b.cfg == cfg && Last(b).now == 0.0 && Last(b).listed == {} && Last(b).doomed == {Reading(0, 7)}
    ensures Last(b).db == EMPTY_DB.(runs := map[0 := Run(RunRunning, 0, NO_VERDICT, 0.0)])
    ensures Last(b).execs == map[0 := Executor(InProcess, None, Pending)]
  {
    b := OneClaimedRun(cfg);
    b := Extended(b, List(0, 7));
    b := Extended(b, SeeEmpty(0, 7));
  }
}
