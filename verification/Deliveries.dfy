/**
 * What a delivery carries, and what that is worth: the lease token and the owner of the very Attempt it executes, so
 * that its Supervisor's fenced completion is accepted exactly while lease and session live and nobody recovers. Nothing
 * here depends on hypothesis H but the last step, that the Run is still RUNNING.
 */
module Deliveries {
  import opened Prelude
  import opened Acceptance
  import opened Tables
  import opened StoreOps
  import opened History
  import opened Columns
  import opened Protocol
  import opened ProtocolInvariant
  import opened OnceOnly
  import opened ProtocolTheorems

  // ---------------------------------------------------------------- the payload

  /** The payload names the Attempt's lease, its owner and its execution, and the owner's host is the one served. */
  ghost predicate PayloadOk(s: Sys, e: ExecutionId)
    requires e in s.db.requests
  {
    var q := s.db.requests[e];
    && q.key in s.db.attempts && q.host == q.owner.host
    && s.db.attempts[q.key].leaseToken == Some(q.leaseToken)
    && s.db.attempts[q.key].owner == Some(Owner(q.owner, e))
  }

  /** An executor that is about to dispatch holds what the payload will carry. */
  ghost predicate HoldOk(s: Sys, j: JobId)
    requires j in s.execs
  {
    var ex := s.execs[j];
    match ex.stage
    case Leased(no, token) =>
      AttemptKey(j, no) in s.db.attempts && s.db.attempts[AttemptKey(j, no)].leaseToken == Some(token)
    case Registered(no, token, x) =>
      && AttemptKey(j, no) in s.db.attempts && s.db.attempts[AttemptKey(j, no)].leaseToken == Some(token)
      && (ex.owner.Some? ==> s.db.attempts[AttemptKey(j, no)].owner == Some(Owner(ex.owner.value, x)))
    case _ => true
  }

  ghost predicate PayloadsOk(s: Sys) {
    && (forall e {:trigger PayloadOk(s, e)} :: e in s.db.requests ==> PayloadOk(s, e))
    && (forall j {:trigger HoldOk(s, j)} :: j in s.execs ==> HoldOk(s, j))
  }

  /** Lease token and owner of the Attempt are as they were. */
  ghost predicate SameHolder(db: Db, db': Db, k: AttemptKey) {
    k in db.attempts ==>
      && k in db'.attempts
      && db'.attempts[k].leaseToken == db.attempts[k].leaseToken && db'.attempts[k].owner == db.attempts[k].owner
  }

  /** Whose call it is, and of which Attempt. */
  ghost predicate CallIsBy(cfg: Config, s: Sys, step: Step)
    requires Enabled(cfg, s, step)
  {
    var op := CallOf(cfg, s, step);
    && (op.OpAcquireLease? ==> step.Acquire? && op.k.job == step.job)
    && (op.OpRecordExecution? ==> step.Register? && op.k.job == step.job)
    && (op.OpRecordAttempt? ==> step.Record? && op.k.job == step.job)
    && (op.OpTransition? ==> step.Settle? && op.k.job == step.job)
    && (op.OpFinalize? ==>
          || ((step.Settle? || step.Fail?) && op.k.job == step.job)
          || (step.SupervisorFinalize? && op.k == s.db.requests[step.execution].key))
    && (op.OpClaimRecovery? || op.OpReleaseRecovery? || op.OpFinalizeRecovery? ==> step == Bystander(op))
  }

  lemma KnowsCaller(cfg: Config, s: Sys, step: Step)
    requires Enabled(cfg, s, step)
    ensures CallIsBy(cfg, s, step)
  {
    match step {
      case CancelFuture(_) =>
      case CancelWrite(_) =>
      case Notice(_) =>
      case Begin(_) =>
      case Record(_) =>
      case Acquire(_, _) =>
      case Register(_, _) =>
      case Dispatch(_) =>
      case StartAdapter(_) =>
      case Return(_, _) =>
      case Settle(_) =>
      case Fail(_) =>
      case Crash(_) =>
      case Tick(_) =>
      case Submit(_, _) =>
      case ClaimRun(_, _, _) =>
      case SupervisorClaim(_, _) =>
      case SupervisorStart(_) =>
      case SupervisorStop(_) =>
      case SupervisorFinalize(_, _, _) =>
      case List(_, _) =>
      case SeeEmpty(_, _) =>
      case FailEmpty(_, _) =>
      case Forget(_, _) =>
      case Bystander(_) =>
    }
  }

  /** Only the executor of its Run takes an Attempt's lease or registers its owner. */
  lemma StepKeepsHolder(cfg: Config, s: Sys, step: Step, k: AttemptKey)
    requires Enabled(cfg, s, step) && !((step.Acquire? || step.Register?) && step.job == k.job)
    ensures SameHolder(s.db, Next(cfg, s, step).db, k)
  {
    KnowsCaller(cfg, s, step);
    var h := CallHistory(cfg, s, step);
    AttemptColumns(h, 0, k);
  }

  lemma StepKeepsPayload(cfg: Config, s: Sys, step: Step, e: ExecutionId)
    requires Enabled(cfg, s, step)
    ensures var s' := Next(cfg, s, step);
            if e in s.db.requests then
              && e in s'.db.requests && s'.db.requests[e].key == s.db.requests[e].key
              && s'.db.requests[e].host == s.db.requests[e].host && s'.db.requests[e].owner == s.db.requests[e].owner
              && s'.db.requests[e].leaseToken == s.db.requests[e].leaseToken
              && s'.db.requests[e].createdAt == s.db.requests[e].createdAt
            else e in s'.db.requests ==> step.Dispatch? && s.execs[step.job].stage.execution == e
  {
    var h := CallHistory(cfg, s, step);
    DeliveryColumns(h, 0, e);
  }

  /** The executor of `j`, unless it is new, keeps mode and owner, and moves only by its own steps. */
  ghost predicate MovesOnly(s: Sys, s': Sys, step: Step, j: JobId) {
    j in s'.execs && s'.execs[j].stage != Pending ==>
      && j in s.execs && s'.execs[j].mode == s.execs[j].mode && s'.execs[j].owner == s.execs[j].owner
      && (s'.execs[j] == s.execs[j] || (ExecutorStep(step) && step.job == j))
  }

  lemma ExecutorStepMovesOnly(cfg: Config, s: Sys, step: Step, j: JobId)
    requires Enabled(cfg, s, step) && ExecutorStep(step)
    ensures MovesOnly(s, Next(cfg, s, step), step, j)
  {
    match step {
      case CancelFuture(_) =>
      case CancelWrite(_) =>
      case Notice(_) =>
      case Begin(_) =>
      case Record(_) =>
      case Acquire(_, _) =>
      case Register(_, _) =>
      case Dispatch(_) =>
      case StartAdapter(_) =>
      case Return(_, _) =>
      case Settle(_) =>
      case Fail(_) =>
      case Crash(_) =>
    }
  }

  lemma StepMovesOnly(cfg: Config, s: Sys, step: Step, j: JobId)
    requires Enabled(cfg, s, step)
    ensures MovesOnly(s, Next(cfg, s, step), step, j)
  {
    if ExecutorStep(step) {
      ExecutorStepMovesOnly(cfg, s, step, j);
    } else {
      match step {
        case Tick(_) =>
        case Submit(_, _) =>
        case ClaimRun(_, _, _) =>
        case SupervisorClaim(_, _) =>
        case SupervisorStart(_) =>
        case SupervisorStop(_) =>
        case SupervisorFinalize(_, _, _) =>
        case List(_, _) =>
        case SeeEmpty(_, _) =>
        case FailEmpty(_, _) =>
        case Forget(_, _) =>
        case Bystander(_) =>
      }
    }
  }

  lemma AcquireHolds(cfg: Config, s: Sys, j: JobId, token: Token)
    requires j in s.execs && s.execs[j].stage.Recorded?
    ensures HoldOk(DoAcquire(cfg, s, j, token), j)
  {
  }

  lemma RegisterHolds(s: Sys, j: JobId, x: ExecutionId)
    requires j in s.execs && s.execs[j].stage.Leased? && HoldOk(s, j)
    ensures HoldOk(DoRegister(s, j, x), j)
  {
  }

  /** Otherwise an executor comes to hold nothing new. */
  lemma OtherStepsHoldNothing(cfg: Config, s: Sys, step: Step)
    requires Enabled(cfg, s, step) && ExecutorStep(step) && !step.Acquire? && !step.Register?
    ensures var s' := Next(cfg, s, step);
            && step.job in s'.execs && s'.execs[step.job].owner == s.execs[step.job].owner
            && (s'.execs[step.job].stage == s.execs[step.job].stage
                || !(s'.execs[step.job].stage.Leased? || s'.execs[step.job].stage.Registered?))
  {
    match step {
      case CancelFuture(_) =>
      case CancelWrite(_) =>
      case Notice(_) =>
      case Begin(_) =>
      case Record(_) =>
      case Dispatch(_) =>
      case StartAdapter(_) =>
      case Return(_, _) =>
      case Settle(_) =>
      case Fail(_) =>
      case Crash(_) =>
    }
  }

  lemma NextKeepsHold(cfg: Config, s: Sys, step: Step, j: JobId)
    requires Enabled(cfg, s, step) && PayloadsOk(s) && j in Next(cfg, s, step).execs
    ensures HoldOk(Next(cfg, s, step), j)
  {
    var s' := Next(cfg, s, step);
    StepMovesOnly(cfg, s, step, j);
    if s'.execs[j].stage != Pending {
      assert HoldOk(s, j);
      if step.Acquire? && step.job == j {
        AcquireHolds(cfg, s, j, step.token);
      } else if step.Register? && step.job == j {
        RegisterHolds(s, j, step.execution);
      } else {
        if ExecutorStep(step) && step.job == j { OtherStepsHoldNothing(cfg, s, step); }
        HoldStays(cfg, s, step, j);
      }
    }
  }

  lemma HoldStays(cfg: Config, s: Sys, step: Step, j: JobId)
    requires Enabled(cfg, s, step) && !((step.Acquire? || step.Register?) && step.job == j)
    requires j in s.execs && HoldOk(s, j)
    requires var s' := Next(cfg, s, step);
             && j in s'.execs && s'.execs[j].owner == s.execs[j].owner
             && (s'.execs[j].stage == s.execs[j].stage
                 || !(s'.execs[j].stage.Leased? || s'.execs[j].stage.Registered?))
    ensures HoldOk(Next(cfg, s, step), j)
  {
    var s' := Next(cfg, s, step);
    if s'.execs[j].stage.Leased? || s'.execs[j].stage.Registered? {
      StepKeepsHolder(cfg, s, step, AttemptKey(j, s'.execs[j].stage.no));
    }
  }

  /** A dispatched delivery carries what its executor holds. */
  lemma DispatchCarries(s: Sys, j: JobId, e: ExecutionId)
    requires j in s.execs && s.execs[j].stage.Registered? && HoldOk(s, j)
    requires e !in s.db.requests && e in DoDispatch(s, j).db.requests
    ensures PayloadOk(DoDispatch(s, j), e)
  {
  }

  lemma NextKeepsPayloads(cfg: Config, s: Sys, step: Step)
    requires StartInv(cfg, s) && PayloadsOk(s) && Enabled(cfg, s, step)
    ensures PayloadsOk(Next(cfg, s, step))
  {
    var s' := Next(cfg, s, step);
    forall e | e in s'.db.requests ensures PayloadOk(s', e) {
      StepKeepsPayload(cfg, s, step, e);
      if e in s.db.requests {
        assert PayloadOk(s, e) && DeliveryKnown(s, e);
        StepKeepsHolder(cfg, s, step, s.db.requests[e].key);
      } else {
        assert HoldOk(s, step.job);
        DispatchCarries(s, step.job, e);
      }
    }
    forall j | j in s'.execs ensures HoldOk(s', j) { NextKeepsHold(cfg, s, step, j); }
  }

  /** In every reachable state every delivery carries the lease token and the owner of the Attempt it executes. */
  lemma {:induction false} AlwaysCarries(b: Behavior, i: nat)
    requires b.Valid() && i <= |b.steps|
    ensures PayloadsOk(b.states[i])
  {
    if 0 < i {
      AlwaysCarries(b, i - 1);
      AlwaysStarts(b, i - 1);
      assert b.Takes(i - 1);
      NextKeepsPayloads(b.cfg, b.states[i - 1], b.steps[i - 1]);
    }
  }

  // ---------------------------------------------------------------- when its completion is accepted

  /**
   * The delivery's Attempt is RUNNING under a live lease that nobody recovers, and its owner's session lives. Nothing
   * is said of tokens: the payload has the right ones.
   */
  ghost predicate Completable(s: Sys, e: ExecutionId) {
    && e in s.db.requests && s.db.requests[e].key in s.db.attempts
    && var a := s.db.attempts[s.db.requests[e].key];
       && a.status == AttemptRunning && InTime(a, s.now) && NotReserved(a, s.now)
       && a.owner.Some? && Serving(s.db, a.owner.value.at.session, s.now)
  }

  /** Attempt and Run as the Supervisor's verdict leaves them. */
  ghost predicate Concluded(s: Sys, s': Sys, k: AttemptKey, r: Report, x: Option<int>) {
    && k in s.db.attempts && k in s'.db.attempts && k.job in s.db.runs && k.job in s'.db.runs
    && var accepted := r.parse.ParseOk? && r.semantic.FindingValid? && x == Some(0);
       && RulingOf(s'.db.attempts[k]) ==
            (if accepted then Ruling(AttemptSucceeded, None, NotApplicable)
             else Ruling(AttemptFailed, Some(ErrorSupervisorValidation), NonRetryable))
       && s'.db.runs[k.job] == Run(if accepted then RunSucceeded else RunFailed, s.db.runs[k.job].spec,
                                   ValidationFields(r, x), s.now)
  }

  /**
   * A Supervisor's completion is accepted exactly if its delivery is completable and the Run is RUNNING, and then both
   * rows are closed; else, up to the half that PostgreSQL commits when only the Run is closed, nothing changes.
   */
  lemma CompletionAcceptedExactlyWhen(cfg: Config, s: Sys, e: ExecutionId, r: Report, x: Option<int>)
    requires PayloadsOk(s) && e in s.db.requests
    ensures var q, s' := s.db.requests[e], DoSupervisorFinalize(cfg, s, e, r, x);
            var reply := FinalizeAttempt(cfg.kind, s.db, s.now, q.key, q.leaseToken, SupervisorCompletion(r, x),
                                         Some(q.owner));
            && s'.db == reply.db
            && (reply.ok <==> Completable(s, e) && RunOpen(s.db, q.key.job))
            && (reply.ok ==> Concluded(s, s', q.key, r, x))
            && (!reply.ok && (!Completable(s, e) || cfg.kind.Sqlite?) ==> s' == s)
  {
    assert PayloadOk(s, e);
  }

  /** Under H the Run of a completable delivery is RUNNING: accepted exactly if completable, else nothing changes. */
  lemma UnderHAcceptedExactlyWhen(cfg: Config, s: Sys, e: ExecutionId, r: Report, x: Option<int>)
    requires CoreInv(cfg, s) && PayloadsOk(s) && e in s.db.requests
    ensures var q, s' := s.db.requests[e], DoSupervisorFinalize(cfg, s, e, r, x);
            if Completable(s, e) then RunOpen(s.db, q.key.job) && Concluded(s, s', q.key, r, x) else s' == s
  {
    CompletionAcceptedExactlyWhen(cfg, s, e, r, x);
    if Completable(s, e) { CompletionFindsRunOpen(cfg, s, s.db.requests[e].key); }
  }

  // ---------------------------------------------------------------- from dispatch to completion

  /** The step is a recovery claim on the Attempt, or a completion of the delivery. */
  predicate Disturbs(step: Step, k: AttemptKey, e: ExecutionId) {
    || (step.SupervisorFinalize? && step.execution == e)
    || (step.Bystander? && step.op.OpClaimRecovery? && step.op.k == k)
  }

  /** The delivered Attempt is RUNNING and nobody has claimed it for recovery. */
  ghost predicate Undisturbed(s: Sys, e: ExecutionId, k: AttemptKey) {
    && e in s.db.requests && s.db.requests[e].key == k
    && IsRunning(s.db, k) && s.db.attempts[k].recovery.None?
  }

  /** What neither an executor nor a reconciler with a claim writes leaves the Attempt RUNNING and unclaimed. */
  lemma CallLeavesUndisturbed(h: History, k: AttemptKey)
    requires h.Valid() && |h.events| == 1 && IsRunning(h.rows[0], k) && h.rows[0].attempts[k].recovery.None?
    requires var op := h.events[0].op;
             !((op.OpTransition? || op.OpFinalize? || op.OpRecordAttempt? || op.OpClaimRecovery?) && op.k == k)
    ensures IsRunning(h.rows[1], k) && h.rows[1].attempts[k].recovery.None?
  {
    AttemptColumns(h, 0, k);
  }

  lemma NextLeavesUndisturbed(cfg: Config, s: Sys, step: Step, e: ExecutionId, k: AttemptKey)
    requires StartInv(cfg, s) && Enabled(cfg, s, step) && Undisturbed(s, e, k) && !Disturbs(step, k, e)
    ensures Undisturbed(Next(cfg, s, step), e, k)
  {
    assert DeliveryKnown(s, e);
    StepKeepsPayload(cfg, s, step, e);
    KnowsCaller(cfg, s, step);
    var h := CallHistory(cfg, s, step);
    CallLeavesUndisturbed(h, k);
  }

  lemma {:induction false} StaysUndisturbed(b: Behavior, i: nat, n: nat, e: ExecutionId, k: AttemptKey)
    requires b.Valid() && i <= n <= |b.steps| && Undisturbed(b.states[i], e, k)
    requires forall l :: i <= l < n ==> !Disturbs(b.steps[l], k, e)
    ensures Undisturbed(b.states[n], e, k)
  {
    if i < n {
      StaysUndisturbed(b, i, n - 1, e, k);
      AlwaysStarts(b, n - 1);
      assert b.Takes(n - 1);
      NextLeavesUndisturbed(b.cfg, b.states[n - 1], b.steps[n - 1], e, k);
    }
  }

  /** Step `i` of the run delivers the execution `e` of the Attempt `k`. */
  ghost predicate Delivers(b: Behavior, i: nat, e: ExecutionId, k: AttemptKey)
    requires |b.states| == |b.steps| + 1 && i < |b.steps|
  {
    && b.steps[i].Dispatch? && e !in b.states[i].db.requests
    && e in b.states[i + 1].db.requests && b.states[i + 1].db.requests[e].key == k
  }

  /**
   * End to end, over every run under H: an execution is delivered while its Attempt is RUNNING and unclaimed; whatever
   * anyone does after that, as long as nobody claims the Attempt for recovery, the first completion its Supervisor
   * tries closes Attempt and Run, with the verdict of the report, if and only if lease and session still live.
   */
  lemma DeliveredIsCompleted(b: Behavior, i: nat, n: nat, e: ExecutionId, k: AttemptKey, r: Report, x: Option<int>)
    requires b.Valid() && b.cfg.onlyDead && i < n < |b.steps|
    requires Delivers(b, i, e, k) && IsRunning(b.states[i].db, k) && b.states[i].db.attempts[k].recovery.None?
    requires b.steps[n] == SupervisorFinalize(e, r, x) && forall l :: i < l < n ==> !Disturbs(b.steps[l], k, e)
    ensures k in b.states[n].db.attempts && b.states[n].db.attempts[k].owner.Some?
    ensures var s, s' := b.states[n], b.states[n + 1];
            var alive := && InTime(s.db.attempts[k], s.now)
                         && Serving(s.db, s.db.attempts[k].owner.value.at.session, s.now);
            if alive then Concluded(s, s', k, r, x) && s'.db.runs[k.job].status.Terminal() else s' == s
  {
    assert b.Takes(i) && b.Takes(n);
    assert b.states[i + 1].db.attempts == b.states[i].db.attempts;
    StaysUndisturbed(b, i + 1, n, e, k);
    AlwaysCarries(b, n);
    AlwaysCore(b, n);
    assert PayloadOk(b.states[n], e);
    UnderHAcceptedExactlyWhen(b.cfg, b.states[n], e, r, x);
  }
}
