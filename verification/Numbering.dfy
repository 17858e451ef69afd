/** Attempt numbers are fresh: no run ever records an Attempt twice. Nothing here depends on hypothesis H. */
module Numbering {
  import opened Prelude
  import opened Tables
  import opened StoreOps
  import opened History
  import opened Protocol
  import opened OnceOnly

  /** The executor may have recorded Attempt `no` already. */
  predicate Reached(stage: Stage, no: nat) {
    match stage
    case Pending => false
    case Cancelled(_) => false
    case Ended(_) => true
    case Looping(n) => no < n
    case _ => no <= stage.no
  }

  /** An Attempt was recorded by the executor of its Run. */
  ghost predicate NumberOk(s: Sys, k: AttemptKey) {
    k.job in s.execs && Reached(s.execs[k.job].stage, k.no)
  }

  ghost predicate NumbersOk(s: Sys) {
    forall k {:trigger NumberOk(s, k)} :: k in s.db.attempts ==> NumberOk(s, k)
  }

  // ---------------------------------------------------------------- what one step may do

  /** The same Attempts are recorded. */
  ghost predicate SameKeys(db: Db, db': Db) { db'.attempts.Keys == db.attempts.Keys }

  lemma SameKeysKeepNumbers(s: Sys, s': Sys)
    requires NumbersOk(s) && SameKeys(s.db, s'.db) && s'.execs == s.execs
    ensures NumbersOk(s')
  {
    forall k | k in s'.db.attempts ensures NumberOk(s', k) { assert NumberOk(s, k); }
  }

  lemma MoveKeepsNumbers(s: Sys, s': Sys, j: JobId, stage: Stage)
    requires NumbersOk(s) && SameKeys(s.db, s'.db) && j in s.execs
    requires s'.execs == s.execs[j := s.execs[j].(stage := stage)]
    requires forall no: nat :: Reached(s.execs[j].stage, no) ==> Reached(stage, no)
    ensures NumbersOk(s')
  {
    forall k | k in s'.db.attempts ensures NumberOk(s', k) { assert NumberOk(s, k); }
  }

  lemma NewExecutorKeepsNumbers(s: Sys, s': Sys, j: JobId, ex: Executor)
    requires NumbersOk(s) && SameKeys(s.db, s'.db) && j !in s.execs && s'.execs == s.execs[j := ex]
    ensures NumbersOk(s')
  {
    forall k | k in s'.db.attempts ensures NumberOk(s', k) { assert NumberOk(s, k); }
  }

  lemma RecordKeepsNumbers(s: Sys, j: JobId)
    requires NumbersOk(s) && j in s.execs && s.execs[j].stage.Looping?
    ensures NumbersOk(DoRecord(s, j)) && AttemptKey(j, s.execs[j].stage.no) !in s.db.attempts
  {
    var s', n := DoRecord(s, j), s.execs[j].stage.no;
    assert AttemptKey(j, n) in s.db.attempts ==> NumberOk(s, AttemptKey(j, n));
    forall k | k in s'.db.attempts ensures NumberOk(s', k) {
      if k != AttemptKey(j, n) { assert NumberOk(s, k); }
    }
  }

  lemma CompletionKeepsKeys(kind: StoreKind, db: Db, now: real, k: AttemptKey, token: Token, c: Completion,
                            owner: Option<HostRef>)
    ensures SameKeys(db, FinalizeAttempt(kind, db, now, k, token, c, owner).db)
  {
  }

  lemma SettleKeepsNumbers(cfg: Config, s: Sys, j: JobId)
    requires NumbersOk(s) && j in s.execs && s.execs[j].stage.Settling?
    ensures NumbersOk(DoSettle(cfg, s, j))
  {
    var ex, st := s.execs[j], s.execs[j].stage;
    if !st.outcome.Broke? && !(st.outcome.Transient() && st.no < cfg.maxAttempts) {
      var c := SettleCompletion(cfg, st.no, st.outcome);
      CompletionKeepsKeys(cfg.kind, s.db, s.now, AttemptKey(j, st.no), st.token, c, ex.owner);
    }
    var s' := DoSettle(cfg, s, j);
    MoveKeepsNumbers(s, s', j, s'.execs[j].stage);
  }

  lemma ReturnOrFailKeepsNumbers(cfg: Config, s: Sys, j: JobId, o: Outcome)
    requires NumbersOk(s) && j in s.execs
    ensures s.execs[j].stage.Executing? ==> NumbersOk(DoReturn(cfg, s, j, o))
    ensures s.execs[j].stage.Failing? ==> NumbersOk(DoFail(cfg, s, j))
  {
    if s.execs[j].stage.Executing? {
      var s' := DoReturn(cfg, s, j, o);
      MoveKeepsNumbers(s, s', j, s'.execs[j].stage);
    }
    if s.execs[j].stage.Failing? {
      var ex, st := s.execs[j], s.execs[j].stage;
      CompletionKeepsKeys(cfg.kind, s.db, s.now, AttemptKey(j, st.no), st.token, EXECUTION_ERROR, ex.owner);
      var s' := DoFail(cfg, s, j);
      MoveKeepsNumbers(s, s', j, s'.execs[j].stage);
    }
  }

  lemma PreparationKeepsNumbers(cfg: Config, s: Sys, j: JobId, token: Token, x: ExecutionId)
    requires NumbersOk(s) && j in s.execs
    ensures s.execs[j].stage.Recorded? ==> NumbersOk(DoAcquire(cfg, s, j, token))
    ensures s.execs[j].stage.Leased? ==> NumbersOk(DoRegister(s, j, x))
    ensures s.execs[j].stage.Registered? ==> NumbersOk(DoDispatch(s, j)) && NumbersOk(DoStartAdapter(s, j))
  {
    match s.execs[j].stage {
      case Recorded(_) =>
        MoveKeepsNumbers(s, DoAcquire(cfg, s, j, token), j, DoAcquire(cfg, s, j, token).execs[j].stage);
      case Leased(_, _) => MoveKeepsNumbers(s, DoRegister(s, j, x), j, DoRegister(s, j, x).execs[j].stage);
      case Registered(_, _, _) =>
        MoveKeepsNumbers(s, DoDispatch(s, j), j, DoDispatch(s, j).execs[j].stage);
        MoveKeepsNumbers(s, DoStartAdapter(s, j), j, DoStartAdapter(s, j).execs[j].stage);
      case _ =>
    }
  }

  lemma ExecutorNextKeepsNumbers(cfg: Config, s: Sys, step: Step)
    requires NumbersOk(s) && Enabled(cfg, s, step) && ExecutorStep(step)
    ensures NumbersOk(Next(cfg, s, step))
  {
    var j := step.job;
    match step {
      case CancelFuture(_) => MoveKeepsNumbers(s, Next(cfg, s, step), j, Cancelled(false));
      case CancelWrite(_) => SameKeysKeepNumbers(s, Next(cfg, s, step));
      case Notice(_) => MoveKeepsNumbers(s, Next(cfg, s, step), j, Cancelled(true));
      case Begin(_) => MoveKeepsNumbers(s, Next(cfg, s, step), j, Looping(1));
      case Record(_) => RecordKeepsNumbers(s, j);
      case Acquire(_, token) => PreparationKeepsNumbers(cfg, s, j, token, 0);
      case Register(_, x) => PreparationKeepsNumbers(cfg, s, j, 0, x);
      case Dispatch(_) => PreparationKeepsNumbers(cfg, s, j, 0, 0);
      case StartAdapter(_) => PreparationKeepsNumbers(cfg, s, j, 0, 0);
      case Return(_, o) => ReturnOrFailKeepsNumbers(cfg, s, j, o);
      case Settle(_) => SettleKeepsNumbers(cfg, s, j);
      case Fail(_) => ReturnOrFailKeepsNumbers(cfg, s, j, Broke);
      case Crash(_) => MoveKeepsNumbers(s, Next(cfg, s, step), j, Ended(false));
    }
  }

  lemma BystanderKeepsKeys(kind: StoreKind, db: Db, now: real, op: Op)
    requires Harmless(op)
    ensures SameKeys(db, Apply(kind, db, now, op).db)
  {
    match op {
      case OpRead =>
      case OpHeartbeatAttempt(_, _, _) =>
      case OpRecordProcess(_, _, _) =>
      case OpStartSession(_, _) =>
      case OpHeartbeatSession(_, _) =>
      case OpHeartbeatQueued(_, _) =>
      case OpProcessStarted(_, _) =>
      case OpRecordWitness(_, _, _) =>
      case OpReleaseTerminal =>
      case OpClaimRecovery(_, _, _) =>
      case OpReleaseRecovery(_, _) =>
      case OpFinalizeRecovery(_, _, _) =>
    }
  }

  lemma AdmissionKeepsNumbers(cfg: Config, s: Sys, j: JobId, spec: SpecHash, mode: Mode, owner: Option<HostRef>)
    requires StartInv(cfg, s) && NumbersOk(s)
    ensures NumbersOk(DoSubmit(cfg, s, j, spec)) && (!cfg.local ==> NumbersOk(DoClaimRun(s, j, mode, owner)))
  {
    assert j in s.execs ==> ExecutorKnown(cfg, s, j);
    var submitted, claimed := DoSubmit(cfg, s, j, spec), DoClaimRun(s, j, mode, owner);
    if submitted.execs != s.execs { NewExecutorKeepsNumbers(s, submitted, j, submitted.execs[j]); }
    else { SameKeysKeepNumbers(s, submitted); }
    if !cfg.local {
      if claimed != s { NewExecutorKeepsNumbers(s, claimed, j, claimed.execs[j]); }
    }
  }

  lemma NextKeepsNumbers(cfg: Config, s: Sys, step: Step)
    requires StartInv(cfg, s) && NumbersOk(s) && Enabled(cfg, s, step)
    ensures NumbersOk(Next(cfg, s, step))
  {
    if ExecutorStep(step) {
      ExecutorNextKeepsNumbers(cfg, s, step);
    } else {
      match step {
        case Submit(j, spec) => AdmissionKeepsNumbers(cfg, s, j, spec, InProcess, None);
        case ClaimRun(j, mode, owner) => AdmissionKeepsNumbers(cfg, s, j, 0, mode, owner);
        case SupervisorFinalize(e, r, x) =>
          var q := s.db.requests[e];
          CompletionKeepsKeys(cfg.kind, s.db, s.now, q.key, q.leaseToken, SupervisorCompletion(r, x), Some(q.owner));
          SameKeysKeepNumbers(s, DoSupervisorFinalize(cfg, s, e, r, x));
        case Bystander(op) =>
          BystanderKeepsKeys(cfg.kind, s.db, s.now, op);
          SameKeysKeepNumbers(s, s.(db := Apply(cfg.kind, s.db, s.now, op).db));
        case SupervisorClaim(e, sup) => SameKeysKeepNumbers(s, DoSupervisorClaim(s, e, sup));
        case Tick(now) => SameKeysKeepNumbers(s, s.(now := now));
        case SupervisorStart(_) => SameKeysKeepNumbers(s, Next(cfg, s, step));
        case SupervisorStop(_) => SameKeysKeepNumbers(s, Next(cfg, s, step));
        case List(_, _) => SameKeysKeepNumbers(s, Next(cfg, s, step));
        case SeeEmpty(_, _) => SameKeysKeepNumbers(s, Next(cfg, s, step));
        case FailEmpty(_, _) => SameKeysKeepNumbers(s, Next(cfg, s, step));
        case Forget(_, _) => SameKeysKeepNumbers(s, Next(cfg, s, step));
        case _ =>
      }
    }
  }

  /** In every reachable state, whatever reconcilers do: an Attempt about to be recorded is not there yet. */
  lemma {:induction false} AlwaysNumbered(b: Behavior, i: nat)
    requires b.Valid() && i <= |b.steps|
    ensures NumbersOk(b.states[i])
  {
    if 0 < i {
      AlwaysNumbered(b, i - 1);
      AlwaysStarts(b, i - 1);
      assert b.Takes(i - 1);
      NextKeepsNumbers(b.cfg, b.states[i - 1], b.steps[i - 1]);
    }
  }
}
