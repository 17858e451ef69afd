/**
 * How often the adapter is started. Nothing here depends on hypothesis H: one executor per Run, one delivery
 * per executor, one claim per delivery, one start per claim.
 */
module OnceOnly {
  import opened Prelude
  import opened Acceptance
  import opened Tables
  import opened StoreOps
  import opened History
  import opened Protocol

  /** The executor has gone past the point where it starts the adapter for Attempt `no`. */
  predicate Past(stage: Stage, no: nat) {
    match stage
    case Pending => false
    case Cancelled(_) => false
    case Ended(_) => true
    case Executing(n, _) => no <= n
    case Settling(n, _, _) => no <= n
    case Failing(n, _) => no <= n
    case _ => no < stage.no
  }

  predicate InRange(cfg: Config, stage: Stage) {
    stage.Pending? || stage.Cancelled? || stage.Ended? || 1 <= stage.no <= cfg.maxAttempts
  }

  ghost predicate ExecutorKnown(cfg: Config, s: Sys, j: JobId)
    requires j in s.execs
  {
    && j in s.db.runs && (!cfg.local ==> !s.db.runs[j].status.RunQueued?)
    && InRange(cfg, s.execs[j].stage)
  }

  /** A delivery was dispatched by the supervised executor of its Run, as that executor's last act. */
  ghost predicate DeliveryKnown(s: Sys, e: ExecutionId)
    requires e in s.db.requests
  {
    var j := s.db.requests[e].key.job;
    j in s.execs && s.execs[j].mode.Supervised? && s.execs[j].stage.Ended?
  }

  ghost predicate StartKnown(cfg: Config, s: Sys, x: Start) {
    match x
    case InProcessStart(k) =>
      k.job in s.execs && s.execs[k.job].mode.InProcess? && Past(s.execs[k.job].stage, k.no)
      && 1 <= k.no <= cfg.maxAttempts
    case SupervisedStart(e) => e in s.db.requests && e in s.sups && !s.sups[e].SupervisorClaimed?
  }

  ghost predicate SupervisorKnown(s: Sys, e: ExecutionId) {
    e in s.db.requests && !s.db.requests[e].status.DeliveryQueued?
  }

  ghost predicate StartInv(cfg: Config, s: Sys) {
    && (forall j {:trigger ExecutorKnown(cfg, s, j)} :: j in s.execs ==> ExecutorKnown(cfg, s, j))
    && (forall e {:trigger DeliveryKnown(s, e)} :: e in s.db.requests ==> DeliveryKnown(s, e))
    && (forall e, f :: e in s.db.requests && f in s.db.requests ==>
          s.db.requests[e].key.job == s.db.requests[f].key.job ==> e == f)
    && (forall e {:trigger SupervisorKnown(s, e)} :: e in s.sups ==> SupervisorKnown(s, e))
    && (forall i :: 0 <= i < |s.starts| ==> StartKnown(cfg, s, s.starts[i]))
    && (forall i, l :: 0 <= i < l < |s.starts| ==> s.starts[i] != s.starts[l])
  }

  // ---------------------------------------------------------------- what every Store call leaves alone

  ghost predicate RunsCalm(db: Db, db': Db) {
    forall j :: j in db.runs ==> j in db'.runs && (!db.runs[j].status.RunQueued? ==> !db'.runs[j].status.RunQueued?)
  }

  ghost predicate LedgerCalm(db: Db, db': Db) {
    && db'.requests.Keys == db.requests.Keys
    && forall e :: e in db.requests ==>
         db'.requests[e].key == db.requests[e].key
         && (!db.requests[e].status.DeliveryQueued? ==> !db'.requests[e].status.DeliveryQueued?)
  }

  lemma CalmKeepsStarts(cfg: Config, s: Sys, s': Sys)
    requires StartInv(cfg, s) && RunsCalm(s.db, s'.db) && LedgerCalm(s.db, s'.db)
    requires s'.execs == s.execs && s'.sups == s.sups && s'.starts == s.starts
    ensures StartInv(cfg, s')
  {
    forall j | j in s'.execs ensures ExecutorKnown(cfg, s', j) { assert ExecutorKnown(cfg, s, j); }
    forall e | e in s'.db.requests ensures DeliveryKnown(s', e) { assert DeliveryKnown(s, e); }
    forall e | e in s'.sups ensures SupervisorKnown(s', e) { assert SupervisorKnown(s, e); }
    forall i | 0 <= i < |s'.starts|
      ensures StartKnown(cfg, s', s'.starts[i])
    {
      assert StartKnown(cfg, s, s.starts[i]);
    }
  }

  /** The next stage is not before any start already made. */
  ghost predicate Advances(cfg: Config, from: Stage, to: Stage) {
    InRange(cfg, to) && forall no: nat :: Past(from, no) ==> Past(to, no)
  }

  lemma MoveKeepsStarts(cfg: Config, s: Sys, s': Sys, j: JobId, stage: Stage)
    requires StartInv(cfg, s) && RunsCalm(s.db, s'.db) && LedgerCalm(s.db, s'.db)
    requires j in s.execs && !s.execs[j].stage.Ended? && Advances(cfg, s.execs[j].stage, stage)
    requires s'.execs == s.execs[j := s.execs[j].(stage := stage)] && s'.sups == s.sups && s'.starts == s.starts
    ensures StartInv(cfg, s')
  {
    forall i | i in s'.execs ensures ExecutorKnown(cfg, s', i) { assert ExecutorKnown(cfg, s, i); }
    forall e | e in s'.db.requests ensures DeliveryKnown(s', e) { assert DeliveryKnown(s, e); }
    forall e | e in s'.sups ensures SupervisorKnown(s', e) { assert SupervisorKnown(s, e); }
    forall i | 0 <= i < |s'.starts|
      ensures StartKnown(cfg, s', s'.starts[i])
    {
      assert StartKnown(cfg, s, s.starts[i]);
    }
  }

  // ---------------------------------------------------------------- the steps that matter

  lemma NewExecutorKeepsStarts(cfg: Config, s: Sys, s': Sys, j: JobId, ex: Executor)
    requires StartInv(cfg, s) && RunsCalm(s.db, s'.db) && LedgerCalm(s.db, s'.db)
    requires j !in s.execs && j in s'.db.runs && ex.stage.Pending? && (!cfg.local ==> !s'.db.runs[j].status.RunQueued?)
    requires s'.execs == s.execs[j := ex] && s'.sups == s.sups && s'.starts == s.starts
    ensures StartInv(cfg, s')
  {
    forall i | i in s'.execs ensures ExecutorKnown(cfg, s', i) {
      if i != j { assert ExecutorKnown(cfg, s, i); }
    }
    forall e | e in s'.db.requests ensures DeliveryKnown(s', e) { assert DeliveryKnown(s, e); }
    forall e | e in s'.sups ensures SupervisorKnown(s', e) { assert SupervisorKnown(s, e); }
    forall i | 0 <= i < |s'.starts|
      ensures StartKnown(cfg, s', s'.starts[i])
    {
      assert StartKnown(cfg, s, s.starts[i]);
    }
  }

  lemma AdmissionKeepsStarts(cfg: Config, s: Sys, j: JobId, spec: SpecHash, mode: Mode, owner: Option<HostRef>)
    requires StartInv(cfg, s)
    ensures StartInv(cfg, DoSubmit(cfg, s, j, spec))
    ensures !cfg.local ==> StartInv(cfg, DoClaimRun(s, j, mode, owner))
  {
    assert j in s.execs ==> ExecutorKnown(cfg, s, j);
    var s' := DoSubmit(cfg, s, j, spec);
    if s' != s {
      if cfg.local { NewExecutorKeepsStarts(cfg, s, s', j, Executor(InProcess, None, Pending)); }
      else { CalmKeepsStarts(cfg, s, s'); }
    }
    if !cfg.local && ClaimNextRun(s.db, s.now, j).ok {
      NewExecutorKeepsStarts(cfg, s, DoClaimRun(s, j, mode, owner), j, Executor(mode, owner, Pending));
    }
  }

  /** Dispatch adds the only delivery its Run will ever have. */
  lemma DispatchKeepsStarts(cfg: Config, s: Sys, j: JobId)
    requires StartInv(cfg, s) && j in s.execs && s.execs[j].stage.Registered? && s.execs[j].mode.Supervised?
    ensures StartInv(cfg, DoDispatch(s, j))
  {
    var s', x := DoDispatch(s, j), s.execs[j].stage.execution;
    assert ExecutorKnown(cfg, s, j);
    if s.execs[j].owner.Some? && x !in s.db.requests {
      forall i | i in s'.execs ensures ExecutorKnown(cfg, s', i) { assert ExecutorKnown(cfg, s, i); }
      forall e | e in s'.db.requests ensures DeliveryKnown(s', e) {
        if e != x { assert DeliveryKnown(s, e); }
      }
      forall e | e in s.db.requests ensures s.db.requests[e].key.job != j { assert DeliveryKnown(s, e); }
      forall e | e in s'.sups ensures SupervisorKnown(s', e) { assert SupervisorKnown(s, e); }
      forall i | 0 <= i < |s'.starts|
        ensures StartKnown(cfg, s', s'.starts[i])
      {
        assert StartKnown(cfg, s, s.starts[i]);
      }
    } else {
      MoveKeepsStarts(cfg, s, s', j, s'.execs[j].stage);
    }
  }

  lemma AdapterStartKeepsStarts(cfg: Config, s: Sys, j: JobId)
    requires StartInv(cfg, s) && j in s.execs && s.execs[j].stage.Registered? && s.execs[j].mode.InProcess?
    ensures StartInv(cfg, DoStartAdapter(s, j))
  {
    var s', st := DoStartAdapter(s, j), s.execs[j].stage;
    assert ExecutorKnown(cfg, s, j);
    var t := s'.(starts := s.starts);
    MoveKeepsStarts(cfg, s, t, j, s'.execs[j].stage);
    forall i | 0 <= i < |s.starts| ensures s.starts[i] != InProcessStart(AttemptKey(j, st.no)) {
      assert StartKnown(cfg, s, s.starts[i]);
    }
    StartsExtended(cfg, t, s', InProcessStart(AttemptKey(j, st.no)));
  }

  lemma StartsExtended(cfg: Config, t: Sys, s': Sys, x: Start)
    requires StartInv(cfg, t) && s' == t.(starts := t.starts + [x]) && StartKnown(cfg, s', x) && x !in t.starts
    ensures StartInv(cfg, s')
  {
    forall i | i in s'.execs ensures ExecutorKnown(cfg, s', i) { assert ExecutorKnown(cfg, t, i); }
    forall e | e in s'.db.requests ensures DeliveryKnown(s', e) { assert DeliveryKnown(t, e); }
    forall e | e in s'.sups ensures SupervisorKnown(s', e) { assert SupervisorKnown(t, e); }
    forall i | 0 <= i < |s'.starts| ensures StartKnown(cfg, s', s'.starts[i]) {
      if i < |t.starts| { assert StartKnown(cfg, t, t.starts[i]); }
    }
  }

  lemma SupervisorMoveKeepsStarts(cfg: Config, s: Sys, s': Sys, e: ExecutionId, to: SupervisorStage)
    requires StartInv(cfg, s) && SupervisorKnown(s', e)
    requires RunsCalm(s.db, s'.db) && LedgerCalm(s.db, s'.db)
    requires s'.execs == s.execs && s'.starts == s.starts && s'.sups == s.sups[e := to]
    requires e in s.sups ==> !to.SupervisorClaimed?
    ensures StartInv(cfg, s')
  {
    forall i | i in s'.execs ensures ExecutorKnown(cfg, s', i) { assert ExecutorKnown(cfg, s, i); }
    forall f | f in s'.db.requests ensures DeliveryKnown(s', f) { assert DeliveryKnown(s, f); }
    forall f | f in s'.sups ensures SupervisorKnown(s', f) {
      if f != e { assert SupervisorKnown(s, f); }
    }
    forall i | 0 <= i < |s'.starts|
      ensures StartKnown(cfg, s', s'.starts[i])
    {
      assert StartKnown(cfg, s, s.starts[i]);
    }
  }

  lemma SupervisorStepKeepsStarts(cfg: Config, s: Sys, e: ExecutionId, sup: SupervisorId)
    requires StartInv(cfg, s)
    ensures e in s.db.requests ==> StartInv(cfg, DoSupervisorClaim(s, e, sup))
    ensures e in s.sups ==> StartInv(cfg, s.(sups := s.sups[e := SupervisorGone]))
    ensures e in s.sups && s.sups[e].SupervisorClaimed? ==>
              StartInv(cfg, s.(sups := s.sups[e := SupervisorRunning], starts := s.starts + [SupervisedStart(e)]))
  {
    assert e in s.sups ==> SupervisorKnown(s, e);
    if e in s.db.requests && Waiting(s.db, e, s.db.requests[e].host) {
      SupervisorMoveKeepsStarts(cfg, s, DoSupervisorClaim(s, e, sup), e, SupervisorClaimed);
    }
    if e in s.sups {
      SupervisorMoveKeepsStarts(cfg, s, s.(sups := s.sups[e := SupervisorGone]), e, SupervisorGone);
      if s.sups[e].SupervisorClaimed? {
        var t := s.(sups := s.sups[e := SupervisorRunning]);
        SupervisorMoveKeepsStarts(cfg, s, t, e, SupervisorRunning);
        forall i | 0 <= i < |s.starts|
          ensures s.starts[i] != SupervisedStart(e)
        {
          assert StartKnown(cfg, s, s.starts[i]);
        }
        StartsExtended(cfg, t, t.(starts := t.starts + [SupervisedStart(e)]), SupervisedStart(e));
      }
    }
  }

  lemma AttemptCallIsCalm(cfg: Config, s: Sys, op: Op)
    requires op.OpHeartbeatAttempt? || op.OpRecordProcess? || op.OpHeartbeatQueued? || ClaimCall(op)
      || op.OpFinalizeRecovery?
    ensures RunsCalm(s.db, Apply(cfg.kind, s.db, s.now, op).db) && LedgerCalm(s.db, Apply(cfg.kind, s.db, s.now, op).db)
  {
    match op {
      case OpHeartbeatAttempt(_, _, _) =>
      case OpRecordProcess(_, _, _) =>
      case OpHeartbeatQueued(_, _) =>
      case OpClaimRecovery(_, _, _) =>
      case OpReleaseRecovery(_, _) =>
      case OpFinalizeRecovery(_, _, _) =>
    }
  }

  lemma HostOrDeliveryCallIsCalm(cfg: Config, s: Sys, op: Op)
    requires op.OpRead? || HostCall(op) || (DeliveryCall(op) && !op.OpEnqueue?)
    ensures RunsCalm(s.db, Apply(cfg.kind, s.db, s.now, op).db) && LedgerCalm(s.db, Apply(cfg.kind, s.db, s.now, op).db)
  {
    match op {
      case OpRead =>
      case OpStartSession(_, _) =>
      case OpHeartbeatSession(_, _) =>
      case OpClaimRequest(_, _, _) =>
      case OpProcessStarted(_, _) =>
      case OpRecordWitness(_, _, _) =>
      case OpReleaseTerminal =>
    }
  }

  lemma BystanderKeepsStarts(cfg: Config, s: Sys, op: Op)
    requires StartInv(cfg, s) && Harmless(op)
    ensures StartInv(cfg, s.(db := Apply(cfg.kind, s.db, s.now, op).db))
  {
    if op.OpRead? || HostCall(op) || DeliveryCall(op) { HostOrDeliveryCallIsCalm(cfg, s, op); }
    else { AttemptCallIsCalm(cfg, s, op); }
    CalmKeepsStarts(cfg, s, s.(db := Apply(cfg.kind, s.db, s.now, op).db));
  }

  lemma CancelOrBeginKeepsStarts(cfg: Config, s: Sys, j: JobId)
    requires StartInv(cfg, s) && 1 <= cfg.maxAttempts && j in s.execs
    requires (s.execs[j].stage.Pending? || s.execs[j].stage.Cancelled?)
    ensures StartInv(cfg, To(s, s.db, j, Cancelled(false))) && StartInv(cfg, To(s, s.db, j, Cancelled(true)))
    ensures StartInv(cfg, s.(db := UpdateRun(s.db, s.now, j, RunCancelled, Some(TrustInvalid))))
    ensures StartInv(cfg, To(s, UpdateRun(s.db, s.now, j, RunRunning, None), j, Looping(1)))
  {
    assert ExecutorKnown(cfg, s, j);
    MoveKeepsStarts(cfg, s, To(s, s.db, j, Cancelled(false)), j, Cancelled(false));
    MoveKeepsStarts(cfg, s, To(s, s.db, j, Cancelled(true)), j, Cancelled(true));
    CalmKeepsStarts(cfg, s, s.(db := UpdateRun(s.db, s.now, j, RunCancelled, Some(TrustInvalid))));
    MoveKeepsStarts(cfg, s, To(s, UpdateRun(s.db, s.now, j, RunRunning, None), j, Looping(1)), j, Looping(1));
  }

  lemma PreparationKeepsStarts(cfg: Config, s: Sys, j: JobId, token: Token, x: ExecutionId)
    requires StartInv(cfg, s) && j in s.execs
    ensures s.execs[j].stage.Looping? ==> StartInv(cfg, DoRecord(s, j))
    ensures s.execs[j].stage.Recorded? ==> StartInv(cfg, DoAcquire(cfg, s, j, token))
    ensures s.execs[j].stage.Leased? ==> StartInv(cfg, DoRegister(s, j, x))
  {
    assert ExecutorKnown(cfg, s, j);
    match s.execs[j].stage {
      case Looping(_) => MoveKeepsStarts(cfg, s, DoRecord(s, j), j, DoRecord(s, j).execs[j].stage);
      case Recorded(_) =>
        MoveKeepsStarts(cfg, s, DoAcquire(cfg, s, j, token), j, DoAcquire(cfg, s, j, token).execs[j].stage);
      case Leased(_, _) => MoveKeepsStarts(cfg, s, DoRegister(s, j, x), j, DoRegister(s, j, x).execs[j].stage);
      case _ =>
    }
  }

  lemma ReturnKeepsStarts(cfg: Config, s: Sys, j: JobId, o: Outcome)
    requires StartInv(cfg, s) && j in s.execs && !s.execs[j].stage.Ended?
    ensures s.execs[j].stage.Executing? ==> StartInv(cfg, DoReturn(cfg, s, j, o))
    ensures StartInv(cfg, To(s, s.db, j, Ended(false)))
  {
    assert ExecutorKnown(cfg, s, j);
    MoveKeepsStarts(cfg, s, To(s, s.db, j, Ended(false)), j, Ended(false));
    match s.execs[j].stage {
      case Executing(_, _) => MoveKeepsStarts(cfg, s, DoReturn(cfg, s, j, o), j, DoReturn(cfg, s, j, o).execs[j].stage);
      case _ =>
    }
  }

  lemma CompletionIsCalm(cfg: Config, db: Db, now: real, k: AttemptKey, token: Token, c: Completion,
                         owner: Option<HostRef>)
    requires c.run.Terminal()
    ensures var db' := FinalizeAttempt(cfg.kind, db, now, k, token, c, owner).db;
            RunsCalm(db, db') && LedgerCalm(db, db')
  {
  }

  lemma SettleKeepsStarts(cfg: Config, s: Sys, j: JobId)
    requires StartInv(cfg, s) && j in s.execs && s.execs[j].stage.Settling?
    ensures StartInv(cfg, DoSettle(cfg, s, j))
  {
    assert ExecutorKnown(cfg, s, j);
    var s', ex, st := DoSettle(cfg, s, j), s.execs[j], s.execs[j].stage;
    assert RunsCalm(s.db, s'.db) && LedgerCalm(s.db, s'.db) by {
      if !st.outcome.Broke? {
        var c := SettleCompletion(cfg, st.no, st.outcome);
        CompletionIsCalm(cfg, s.db, s.now, AttemptKey(j, st.no), st.token, c, ex.owner);
      }
    }
    MoveKeepsStarts(cfg, s, s', j, s'.execs[j].stage);
  }

  lemma FailKeepsStarts(cfg: Config, s: Sys, j: JobId)
    requires StartInv(cfg, s) && j in s.execs && s.execs[j].stage.Failing?
    ensures StartInv(cfg, DoFail(cfg, s, j))
  {
    assert ExecutorKnown(cfg, s, j);
    var ex, st := s.execs[j], s.execs[j].stage;
    CompletionIsCalm(cfg, s.db, s.now, AttemptKey(j, st.no), st.token, EXECUTION_ERROR, ex.owner);
    MoveKeepsStarts(cfg, s, DoFail(cfg, s, j), j, DoFail(cfg, s, j).execs[j].stage);
  }

  lemma ExecutorNextKeepsStarts(cfg: Config, s: Sys, step: Step)
    requires StartInv(cfg, s) && 1 <= cfg.maxAttempts && Enabled(cfg, s, step) && ExecutorStep(step)
    ensures StartInv(cfg, Next(cfg, s, step))
  {
    match step {
      case CancelFuture(j) => CancelOrBeginKeepsStarts(cfg, s, j);
      case CancelWrite(j) => CancelOrBeginKeepsStarts(cfg, s, j);
      case Notice(j) => CancelOrBeginKeepsStarts(cfg, s, j);
      case Begin(j) => CancelOrBeginKeepsStarts(cfg, s, j);
      case Record(j) => PreparationKeepsStarts(cfg, s, j, 0, 0);
      case Acquire(j, token) => PreparationKeepsStarts(cfg, s, j, token, 0);
      case Register(j, x) => PreparationKeepsStarts(cfg, s, j, 0, x);
      case Dispatch(j) => DispatchKeepsStarts(cfg, s, j);
      case StartAdapter(j) => AdapterStartKeepsStarts(cfg, s, j);
      case Return(j, o) => ReturnKeepsStarts(cfg, s, j, o);
      case Settle(j) => SettleKeepsStarts(cfg, s, j);
      case Fail(j) => FailKeepsStarts(cfg, s, j);
      case Crash(j) => ReturnKeepsStarts(cfg, s, j, Broke);
    }
  }

  lemma SupervisorFinalizeKeepsStarts(cfg: Config, s: Sys, e: ExecutionId, r: Report, x: Option<int>)
    requires StartInv(cfg, s) && e in s.db.requests
    ensures StartInv(cfg, DoSupervisorFinalize(cfg, s, e, r, x))
  {
    var q := s.db.requests[e];
    CompletionIsCalm(cfg, s.db, s.now, q.key, q.leaseToken, SupervisorCompletion(r, x), Some(q.owner));
    CalmKeepsStarts(cfg, s, DoSupervisorFinalize(cfg, s, e, r, x));
  }

  lemma ReconcilerKeepsStarts(cfg: Config, s: Sys, j: JobId, now: real, listed: set<Reading>, doomed: set<Reading>)
    requires StartInv(cfg, s)
    ensures StartInv(cfg, s.(now := now)) && StartInv(cfg, s.(listed := listed, doomed := doomed))
    ensures StartInv(cfg, s.(db := UpdateRun(s.db, s.now, j, RunFailed, None), doomed := doomed))
  {
    CalmKeepsStarts(cfg, s, s.(now := now));
    CalmKeepsStarts(cfg, s, s.(listed := listed, doomed := doomed));
    CalmKeepsStarts(cfg, s, s.(db := UpdateRun(s.db, s.now, j, RunFailed, None), doomed := doomed));
  }

  lemma ReconcilerStepKeepsStarts(cfg: Config, s: Sys, step: Step)
    requires StartInv(cfg, s) && Enabled(cfg, s, step)
    requires step.List? || step.SeeEmpty? || step.FailEmpty? || step.Forget?
    ensures StartInv(cfg, Next(cfg, s, step))
  {
    var s' := Next(cfg, s, step);
    ReconcilerKeepsStarts(cfg, s, step.job, s.now, s'.listed, s'.doomed);
  }

  lemma NextKeepsStarts(cfg: Config, s: Sys, step: Step)
    requires StartInv(cfg, s) && 1 <= cfg.maxAttempts && Enabled(cfg, s, step)
    ensures StartInv(cfg, Next(cfg, s, step))
  {
    match step {
      case Submit(j, spec) => AdmissionKeepsStarts(cfg, s, j, spec, InProcess, None);
      case ClaimRun(j, mode, owner) => AdmissionKeepsStarts(cfg, s, j, 0, mode, owner);
      case SupervisorClaim(e, sup) => SupervisorStepKeepsStarts(cfg, s, e, sup);
      case SupervisorStart(e) => SupervisorStepKeepsStarts(cfg, s, e, 0);
      case SupervisorStop(e) => SupervisorStepKeepsStarts(cfg, s, e, 0);
      case SupervisorFinalize(e, r, x) => SupervisorFinalizeKeepsStarts(cfg, s, e, r, x);
      case Tick(now) => ReconcilerKeepsStarts(cfg, s, 0, now, s.listed, s.doomed);
      case List(j, _) => ReconcilerStepKeepsStarts(cfg, s, step);
      case SeeEmpty(j, _) => ReconcilerStepKeepsStarts(cfg, s, step);
      case FailEmpty(j, _) => ReconcilerStepKeepsStarts(cfg, s, step);
      case Forget(j, _) => ReconcilerStepKeepsStarts(cfg, s, step);
      case Bystander(op) => BystanderKeepsStarts(cfg, s, op);
      case _ => ExecutorNextKeepsStarts(cfg, s, step);
    }
  }

  lemma {:induction false} AlwaysStarts(b: Behavior, i: nat)
    requires b.Valid() && i <= |b.steps|
    ensures StartInv(b.cfg, b.states[i])
  {
    if 0 < i {
      AlwaysStarts(b, i - 1);
      assert b.Takes(i - 1);
      NextKeepsStarts(b.cfg, b.states[i - 1], b.steps[i - 1]);
    }
  }

  /** The Run a start belongs to. */
  function RunOf(s: Sys, x: Start): Option<JobId> {
    match x
    case InProcessStart(k) => Some(k.job)
    case SupervisedStart(e) => if e in s.db.requests then Some(s.db.requests[e].key.job) else None
  }

  /** A start tells the mode of its Run's executor. */
  lemma StartMode(cfg: Config, s: Sys, x: Start)
    requires StartInv(cfg, s) && StartKnown(cfg, s, x)
    ensures RunOf(s, x).Some? && RunOf(s, x).value in s.execs
    ensures x.SupervisedStart? <==> s.execs[RunOf(s, x).value].mode.Supervised?
  {
    if x.SupervisedStart? { assert DeliveryKnown(s, x.execution); }
  }

  /**
   * In every interleaving of submitters, workers, Supervisors, recovery passes and crashes: two starts of the
   * adapter for the same Run can only be two different Attempts of one in-process executor. In particular a
   * supervised Run is started at most once, and an in-process Run at most once per Attempt number 1..max.
   */
  lemma AdapterStartsAtMostOnce(b: Behavior, i: nat, p: nat, q: nat)
    requires b.Valid() && i <= |b.steps| && p < q < |b.states[i].starts|
    requires RunOf(b.states[i], b.states[i].starts[p]) == RunOf(b.states[i], b.states[i].starts[q])
    ensures var x, y := b.states[i].starts[p], b.states[i].starts[q];
            && x.InProcessStart? && y.InProcessStart? && x.k.no != y.k.no
            && 1 <= x.k.no <= b.cfg.maxAttempts && 1 <= y.k.no <= b.cfg.maxAttempts
            && x.k.job in b.states[i].execs && b.states[i].execs[x.k.job].mode.InProcess?
  {
    AlwaysStarts(b, i);
    var s := b.states[i];
    var x, y := s.starts[p], s.starts[q];
    assert StartKnown(b.cfg, s, x) && StartKnown(b.cfg, s, y);
    StartMode(b.cfg, s, x);
    StartMode(b.cfg, s, y);
  }
}
