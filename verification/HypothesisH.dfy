/**
 * What hypothesis H is for. `recover_stale_runs` writes a RUNNING Run without Attempts off as FAILED, unfenced.
 * That is safe exactly when the Run's executor can no longer start.
 */
module HypothesisH {
  import opened Prelude
  import opened Acceptance
  import opened Tables
  import opened StoreOps
  import opened History
  import opened Protocol
  import opened ProtocolInvariant

  /** The rows after a reconciler saw the Run empty and failed it. */
  function WrittenOff(s: Sys, j: JobId): Sys {
    s.(db := UpdateRun(s.db, s.now, j, RunFailed, None))
  }

  /** The write-off is undone: the Run is open again, or an Attempt of it runs although the Run is closed. */
  ghost predicate Undone(s: Sys, j: JobId) {
    && j in s.db.runs
    && (!s.db.runs[j].status.Terminal() || exists n: nat :: IsRunning(s.db, AttemptKey(j, n)))
  }

  /** A closed Run without Attempts whose executor is past starting: nothing can touch it but a late CANCELLED write. */
  ghost predicate Sealed(s: Sys, j: JobId) {
    && j in s.db.runs && s.db.runs[j].status.Terminal() && NoAttempts(s.db, j)
    && j in s.execs && CannotStart(s, j)
  }

  lemma ExecutorStepKeepsSealed(cfg: Config, s: Sys, step: Step, j: JobId)
    requires Sealed(s, j) && Enabled(cfg, s, step) && ExecutorStep(step)
    ensures Sealed(Next(cfg, s, step), j)
  {
    match step {
      case CancelFuture(_) =>
      case CancelWrite(_) =>
      case Notice(_) =>
      case Begin(_) =>
      case Record(_) =>
      case Acquire(_, _) =>
      case Register(_, _) =>
      case Dispatch(_) =>
      case StartAdapter(_) =>
      case Return(_, _) =>
      case Settle(_) => SettleKeepsSealed(cfg, s, step.job, j);
      case Fail(_) => FailKeepsSealed(cfg, s, step.job, j);
      case Crash(_) =>
    }
  }

  /** A completion of some other Run's Attempt leaves the sealed Run alone; its own it does not have. */
  lemma FinalizeKeepsSealed(cfg: Config, s: Sys, k: AttemptKey, token: Token, c: Completion, owner: Option<HostRef>,
                            j: JobId)
    requires Sealed(s, j)
    ensures Sealed(s.(db := FinalizeAttempt(cfg.kind, s.db, s.now, k, token, c, owner).db), j)
  {
  }

  lemma FailKeepsSealed(cfg: Config, s: Sys, i: JobId, j: JobId)
    requires Sealed(s, j) && i in s.execs && s.execs[i].stage.Failing?
    ensures Sealed(DoFail(cfg, s, i), j)
  {
    var st := s.execs[i].stage;
    FinalizeKeepsSealed(cfg, s, AttemptKey(i, st.no), st.token, EXECUTION_ERROR, s.execs[i].owner, j);
  }

  lemma SettleKeepsSealed(cfg: Config, s: Sys, i: JobId, j: JobId)
    requires Sealed(s, j) && i in s.execs && s.execs[i].stage.Settling?
    ensures Sealed(DoSettle(cfg, s, i), j)
  {
    var ex, st := s.execs[i], s.execs[i].stage;
    if !st.outcome.Broke? {
      FinalizeKeepsSealed(cfg, s, AttemptKey(i, st.no), st.token, SettleCompletion(cfg, st.no, st.outcome),
        ex.owner, j);
    }
  }

  lemma BystanderKeepsSealed(cfg: Config, s: Sys, op: Op, j: JobId)
    requires Sealed(s, j) && Harmless(op)
    ensures Sealed(s.(db := Apply(cfg.kind, s.db, s.now, op).db), j)
  {
    if op.OpRead? || HostCall(op) || DeliveryCall(op) { HostOrDeliveryCallIsQuiet(cfg, s, op); }
    else if !op.OpFinalizeRecovery? { LeaseCallIsQuiet(cfg, s, op); }
  }

  lemma NextKeepsSealed(cfg: Config, s: Sys, step: Step, j: JobId)
    requires Sealed(s, j) && Enabled(cfg, s, step)
    ensures Sealed(Next(cfg, s, step), j)
  {
    match step {
      case Tick(_) =>
      case Submit(_, _) =>
      case ClaimRun(_, _, _) =>
      case SupervisorClaim(_, _) =>
      case SupervisorStart(_) =>
      case SupervisorStop(_) =>
      case SupervisorFinalize(_, _, _) =>
      case List(_, _) =>
      case SeeEmpty(_, _) =>
      case FailEmpty(_, _) =>
      case Forget(_, _) =>
      case Bystander(op) => BystanderKeepsSealed(cfg, s, op, j);
      case _ => ExecutorStepKeepsSealed(cfg, s, step, j);
    }
  }

  lemma StepKeepsSealed(b: Behavior, j: JobId, i: nat)
    requires b.Runs() && i < |b.steps| && Sealed(b.states[i], j)
    ensures Sealed(b.states[i + 1], j)
  {
    assert b.Takes(i);
    NextKeepsSealed(b.cfg, b.states[i], b.steps[i], j);
  }

  lemma {:induction false} SealedForever(b: Behavior, j: JobId, i: nat)
    requires b.Runs() && i <= |b.steps| && Sealed(b.states[0], j)
    ensures Sealed(b.states[i], j) && !Undone(b.states[i], j)
  {
    if 0 < i {
      SealedForever(b, j, i - 1);
      StepKeepsSealed(b, j, i - 1);
    }
  }

  /** A run of the protocol from the written-off state that undoes the write-off. */
  ghost predicate Undoes(b: Behavior, cfg: Config, s: Sys, j: JobId) {
    && b.cfg == cfg && b.Runs() && b.states[0] == WrittenOff(s, j)
    && Undone(b.states[|b.steps|], j)
  }

  lemma EmptyMeansNotBegun(cfg: Config, s: Sys, j: JobId)
    requires CoreInv(cfg, s) && RunOpen(s.db, j) && NoAttempts(s.db, j) && !CannotStart(s, j)
    ensures s.execs[j].stage.Pending? || (s.execs[j].stage.Looping? && s.execs[j].stage.no == 1)
  {
    var st := s.execs[j].stage;
    var no := if st.Looping? && 1 < st.no then st.no - 1 else if st.Looping? || st.Pending? then 1 else st.no;
    var k := AttemptKey(j, no);
    assert k !in s.db.attempts;
    assert ExecOk(cfg, s, j);
  }

  /**
   * A pending executor undoes it with its very next write: the FAILED Run is RUNNING again, or gains a RUNNING Attempt.
   */
  lemma LiveExecutorUndoes(cfg: Config, s: Sys, j: JobId) returns (b: Behavior)
    requires CoreInv(cfg, s) && RunOpen(s.db, j) && NoAttempts(s.db, j) && !CannotStart(s, j)
    ensures Undoes(b, cfg, s, j)
  {
    EmptyMeansNotBegun(cfg, s, j);
    var s0 := WrittenOff(s, j);
    var step := if s.execs[j].stage.Pending? then Begin(j) else Record(j);
    var s1 := Next(cfg, s0, step);
    b := Behavior(cfg, [s0, s1], [step]);
    assert step.Record? ==> IsRunning(s1.db, AttemptKey(j, s.execs[j].stage.no));
  }

  /**
   * The write-off of a stale RUNNING Run without Attempts is final, over every continuation, exactly when the
   * Run's executor cannot start any more: H is not only sufficient but necessary.
   */
  lemma WriteOffIsFinalExactlyWhen(cfg: Config, s: Sys, j: JobId)
    requires CoreInv(cfg, s) && RunOpen(s.db, j) && NoAttempts(s.db, j)
    ensures CannotStart(s, j) <==> !exists b: Behavior :: Undoes(b, cfg, s, j)
  {
    if CannotStart(s, j) {
      assert RunOk(cfg, s, j);
      assert Sealed(WrittenOff(s, j), j);
      forall b: Behavior | b.cfg == cfg && b.Runs() && b.states[0] == WrittenOff(s, j)
        ensures !Undoes(b, cfg, s, j)
      {
        SealedForever(b, j, |b.steps|);
      }
    } else {
      var b := LiveExecutorUndoes(cfg, s, j);
    }
  }

  /**
   * A run of the whole system, from the empty database, in which that happens: a reconciler fails the Run a worker has
   * just claimed, and the executor reopens it.
   */
  lemma WriteOffUndoneWithoutH(kind: StoreKind) returns (b: Behavior, i: nat)
    ensures b.Valid() && !b.cfg.onlyDead && b.cfg.kind == kind && i < |b.steps|
    ensures 0 in b.states[i].db.runs && b.states[i].db.runs[0].status.RunFailed? && !CannotStart(b.states[i], 0)
    ensures Undone(Last(b), 0) && Last(b).db.runs[0].status.RunRunning?
  {
    b := OneDoomedRun(Config(kind, false, 1, None, 1.0, false));
    b := Extended(b, FailEmpty(0, 7));
    i := |b.steps|;
    b := Extended(b, Begin(0));
  }
}
