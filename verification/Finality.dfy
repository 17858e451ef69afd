/**
 * When is a terminal Run final? A Run with an Attempt always is. A Run closed before its first Attempt is written
 * without a fence, by every caller that cancels it, also a second time, and by every reconciler that listed it while it
 * was RUNNING and then read no Attempts; under hypothesis H these are the only writes that can still come.
 */
module Finality {
  import opened Prelude
  import opened Acceptance
  import opened Tables
  import opened StoreOps
  import opened History
  import opened Protocol
  import opened ProtocolInvariant
  import opened ProtocolTheorems
  import opened HypothesisH

  /** The future is cancelled and its process lives: `cancel` succeeds again on it, and writes CANCELLED each time. */
  predicate LateCancel(s: Sys, j: JobId) { j in s.execs && s.execs[j].stage.Cancelled? }

  /**
   * A reconciler has the Run on its list, its Attempts not read yet or read and none found: it may write FAILED, once.
   */
  ghost predicate LateWriteOff(s: Sys, j: JobId) { exists r :: (r in s.listed || r in s.doomed) && r.job == j }

  /** What may have become of a sealed Run: only a late cancel or a late write-off has touched it. */
  ghost predicate Later(s: Sys, s': Sys, j: JobId) {
    && Sealed(s, j) && Sealed(s', j)
    && (LateCancel(s', j) ==> LateCancel(s, j)) && (LateWriteOff(s', j) ==> LateWriteOff(s, j))
    && var r, r' := s.db.runs[j], s'.db.runs[j];
    && (r' == r || LateCancel(s, j) || LateWriteOff(s, j))
    && (|| r'.status == r.status
        || (LateCancel(s, j) && r'.status.RunCancelled?)
        || (LateWriteOff(s, j) && r'.status.RunFailed?))
    && (r'.verdict == r.verdict || (LateCancel(s, j) && r'.verdict == r.verdict.(trust := TrustInvalid)))
  }

  // ---------------------------------------------------------------- which steps touch a sealed Run

  /** The row, the pending writes and the Run's lack of Attempts are as they were. */
  ghost predicate Untouched(s: Sys, s': Sys, j: JobId) {
    && j in s.db.runs && j in s'.db.runs && s'.db.runs[j] == s.db.runs[j]
    && (LateCancel(s', j) ==> LateCancel(s, j)) && (LateWriteOff(s', j) ==> LateWriteOff(s, j))
  }

  lemma FinalizeLeavesSealed(cfg: Config, s: Sys, k: AttemptKey, token: Token, c: Completion, owner: Option<HostRef>,
                             j: JobId)
    requires Sealed(s, j)
    ensures Untouched(s, s.(db := FinalizeAttempt(cfg.kind, s.db, s.now, k, token, c, owner).db), j)
  {
  }

  lemma SettleLeavesSealed(cfg: Config, s: Sys, i: JobId, j: JobId)
    requires Sealed(s, j) && i in s.execs && s.execs[i].stage.Settling?
    ensures Untouched(s, DoSettle(cfg, s, i), j)
  {
  }

  lemma ExecutorStepLeavesSealed(cfg: Config, s: Sys, step: Step, j: JobId)
    requires Sealed(s, j) && Enabled(cfg, s, step) && ExecutorStep(step) && step != CancelWrite(j)
    ensures Untouched(s, Next(cfg, s, step), j)
  {
    match step {
      case CancelFuture(_) =>
      case CancelWrite(_) =>
      case Notice(_) =>
      case Begin(_) =>
      case Record(_) =>
      case Acquire(_, _) =>
      case Register(_, _) =>
      case Dispatch(_) =>
      case StartAdapter(_) =>
      case Return(_, _) =>
      case Settle(_) => SettleLeavesSealed(cfg, s, step.job, j);
      case Fail(i) =>
        var ex := s.execs[i];
        FinalizeLeavesSealed(cfg, s, AttemptKey(i, ex.stage.no), ex.stage.token, EXECUTION_ERROR, ex.owner, j);
      case Crash(_) =>
    }
  }

  lemma BystanderLeavesSealed(cfg: Config, s: Sys, op: Op, j: JobId)
    requires Sealed(s, j) && Harmless(op)
    ensures Untouched(s, s.(db := Apply(cfg.kind, s.db, s.now, op).db), j)
  {
    match op {
      case OpRead =>
      case OpHeartbeatAttempt(_, _, _) =>
      case OpRecordProcess(_, _, _) =>
      case OpStartSession(_, _) =>
      case OpHeartbeatSession(_, _) =>
      case OpHeartbeatQueued(_, _) =>
      case OpProcessStarted(_, _) =>
      case OpRecordWitness(_, _, _) =>
      case OpReleaseTerminal =>
      case OpClaimRecovery(_, _, _) =>
      case OpReleaseRecovery(_, _) =>
      case OpFinalizeRecovery(_, _, _) =>
    }
  }

  lemma NextLeavesSealed(cfg: Config, s: Sys, step: Step, j: JobId)
    requires Sealed(s, j) && Enabled(cfg, s, step) && step != CancelWrite(j) && !(step.FailEmpty? && step.job == j)
    ensures Untouched(s, Next(cfg, s, step), j)
  {
    if ExecutorStep(step) {
      ExecutorStepLeavesSealed(cfg, s, step, j);
    } else {
      match step {
        case SupervisorFinalize(e, r, x) =>
          var q := s.db.requests[e];
          FinalizeLeavesSealed(cfg, s, q.key, q.leaseToken, SupervisorCompletion(r, x), Some(q.owner), j);
        case Bystander(op) => BystanderLeavesSealed(cfg, s, op, j);
        case _ =>
      }
    }
  }

  lemma NextIsLater(cfg: Config, s0: Sys, s: Sys, step: Step, j: JobId)
    requires Later(s0, s, j) && Enabled(cfg, s, step)
    ensures Later(s0, Next(cfg, s, step), j)
  {
    NextKeepsSealed(cfg, s, step, j);
    if step != CancelWrite(j) && !(step.FailEmpty? && step.job == j) { NextLeavesSealed(cfg, s, step, j); }
  }

  lemma {:induction false} RunsAreLater(b: Behavior, j: JobId, i: nat)
    requires b.Runs() && i <= |b.steps| && Sealed(b.states[0], j)
    ensures Later(b.states[0], b.states[i], j)
  {
    if 0 < i {
      RunsAreLater(b, j, i - 1);
      assert b.Takes(i - 1);
      NextIsLater(b.cfg, b.states[0], b.states[i - 1], b.steps[i - 1], j);
    }
  }

  // ---------------------------------------------------------------- continuations of a state

  /** A run of the protocol from `s`. */
  ghost predicate Continuation(b: Behavior, cfg: Config, s: Sys) {
    b.cfg == cfg && b.Runs() && b.states[0] == s
  }

  lemma {:induction false} ContinuationKeepsFate(b: Behavior, cfg: Config, s: Sys, j: JobId, i: nat)
    requires Continuation(b, cfg, s) && CoreInv(cfg, s) && cfg.onlyDead && 1 <= cfg.maxAttempts && i <= |b.steps|
    ensures CoreInv(cfg, b.states[i]) && FateKept(s.db, b.states[i].db, j)
  {
    if 0 < i {
      ContinuationKeepsFate(b, cfg, s, j, i - 1);
      assert b.Takes(i - 1);
      NextKeepsCore(cfg, b.states[i - 1], b.steps[i - 1]);
      NextKeepsFate(cfg, b.states[i - 1], b.steps[i - 1], j);
    }
  }

  function NumberOf(stage: Stage): nat {
    if stage.Pending? || stage.Cancelled? || stage.Ended? then 0 else stage.no
  }

  lemma TerminalWithoutAttemptIsSealed(cfg: Config, s: Sys, j: JobId)
    requires CoreInv(cfg, s) && j in s.db.runs && s.db.runs[j].status.Terminal() && !HasAttempt(s.db, j)
    ensures Sealed(s, j)
  {
    assert RunOk(cfg, s, j);
    assert ExecOk(cfg, s, j);
    forall k | k in s.db.attempts ensures k.job != j { assert k == AttemptKey(k.job, k.no); }
    assert AttemptKey(j, NumberOf(s.execs[j].stage)) !in s.db.attempts;
  }

  // ---------------------------------------------------------------- exactly when

  ghost predicate StatusFinal(cfg: Config, s: Sys, j: JobId)
    requires j in s.db.runs
  {
    forall b: Behavior :: Continuation(b, cfg, s) ==>
      j in Last(b).db.runs && Last(b).db.runs[j].status == s.db.runs[j].status
  }

  ghost predicate VerdictFinal(cfg: Config, s: Sys, j: JobId)
    requires j in s.db.runs
  {
    forall b: Behavior :: Continuation(b, cfg, s) ==>
      j in Last(b).db.runs && Last(b).db.runs[j].verdict == s.db.runs[j].verdict
  }

  ghost predicate RowFinal(cfg: Config, s: Sys, j: JobId)
    requires j in s.db.runs
  {
    forall b: Behavior :: Continuation(b, cfg, s) ==> j in Last(b).db.runs && Last(b).db.runs[j] == s.db.runs[j]
  }

  /** `step` is a write of the Run that can come next. */
  predicate LateWrite(s: Sys, j: JobId, step: Step) {
    || (step == CancelWrite(j) && LateCancel(s, j))
    || (step.FailEmpty? && step.job == j && Reading(j, step.pass) in s.doomed)
  }

  /** What a late write makes of the row. */
  function Rewritten(r: Run, now: real, step: Step): Run {
    if step.CancelWrite? then r.(status := RunCancelled, verdict := r.verdict.(trust := TrustInvalid), updatedAt := now)
    else r.(status := RunFailed, updatedAt := now)
  }

  lemma LateWriteRewrites(cfg: Config, s: Sys, j: JobId, step: Step)
    requires Sealed(s, j) && LateWrite(s, j, step)
    ensures Enabled(cfg, s, step)
    ensures Next(cfg, s, step).db.runs == s.db.runs[j := Rewritten(s.db.runs[j], s.now, step)]
  {
  }

  /** The clock advances, and then a step is taken. */
  lemma TickAndStep(cfg: Config, s: Sys, now: real, step: Step) returns (b: Behavior)
    requires s.now <= now && Enabled(cfg, s.(now := now), step)
    ensures Continuation(b, cfg, s) && Last(b) == Next(cfg, s.(now := now), step)
  {
    var s1 := s.(now := now);
    b := Behavior(cfg, [s, s1, Next(cfg, s1, step)], [Tick(now), step]);
    assert b.Takes(0) && b.Takes(1);
  }

  /** A reconciler that has the sealed Run on its list reads no Attempts. */
  lemma ReadsEmpty(cfg: Config, s: Sys, j: JobId, p: Token) returns (s': Sys)
    requires Sealed(s, j) && Reading(j, p) in s.listed
    ensures Enabled(cfg, s, SeeEmpty(j, p)) && s' == Next(cfg, s, SeeEmpty(j, p))
    ensures Sealed(s', j) && Reading(j, p) in s'.doomed && s'.db == s.db && s'.now == s.now
  {
    s' := Next(cfg, s, SeeEmpty(j, p));
  }

  /** What can come after a step that was possible can come. */
  lemma StepFirst(cfg: Config, s: Sys, step: Step, c: Behavior) returns (b: Behavior)
    requires Enabled(cfg, s, step) && Continuation(c, cfg, Next(cfg, s, step))
    ensures Continuation(b, cfg, s) && Last(b) == Last(c)
  {
    b := Behavior(cfg, [s] + c.states, [step] + c.steps);
    forall i: nat | i < |b.steps| ensures b.Takes(i) {
      if 0 < i { assert c.Takes(i - 1); }
    }
  }

  /** One more write of the Run, after the clock has passed its last update. */
  lemma OneWrite(cfg: Config, s: Sys, j: JobId, step: Step) returns (b: Behavior)
    requires Sealed(s, j) && LateWrite(s, j, step)
    ensures Continuation(b, cfg, s) && j in Last(b).db.runs
    ensures s.db.runs[j].updatedAt < Last(b).db.runs[j].updatedAt
    ensures Last(b).db.runs[j] == Rewritten(s.db.runs[j], Last(b).db.runs[j].updatedAt, step)
  {
    var updated := s.db.runs[j].updatedAt;
    var now := (if s.now < updated then updated else s.now) + 1.0;
    LateWriteRewrites(cfg, s.(now := now), j, step);
    b := TickAndStep(cfg, s, now, step);
  }

  /** The write-off of a reconciler that still has the Run on its list. */
  lemma OneWriteOff(cfg: Config, s: Sys, j: JobId) returns (b: Behavior)
    requires Sealed(s, j) && LateWriteOff(s, j)
    ensures Continuation(b, cfg, s) && j in Last(b).db.runs
    ensures s.db.runs[j].updatedAt < Last(b).db.runs[j].updatedAt
    ensures Last(b).db.runs[j] == s.db.runs[j].(status := RunFailed, updatedAt := Last(b).db.runs[j].updatedAt)
  {
    var r :| (r in s.listed || r in s.doomed) && r.job == j;
    assert r == Reading(j, r.pass);
    if r in s.doomed {
      b := OneWrite(cfg, s, j, FailEmpty(j, r.pass));
    } else {
      var s' := ReadsEmpty(cfg, s, j, r.pass);
      var c := OneWrite(cfg, s', j, FailEmpty(j, r.pass));
      b := StepFirst(cfg, s, SeeEmpty(j, r.pass), c);
    }
  }

  lemma AttemptMakesFinal(cfg: Config, s: Sys, j: JobId)
    requires CoreInv(cfg, s) && cfg.onlyDead && 1 <= cfg.maxAttempts
    requires j in s.db.runs && s.db.runs[j].status.Terminal() && HasAttempt(s.db, j)
    ensures RowFinal(cfg, s, j)
  {
    forall b: Behavior | Continuation(b, cfg, s) ensures j in Last(b).db.runs && Last(b).db.runs[j] == s.db.runs[j] {
      ContinuationKeepsFate(b, cfg, s, j, |b.steps|);
    }
  }

  lemma ContinuationsAreLater(cfg: Config, s: Sys, j: JobId)
    requires Sealed(s, j)
    ensures forall b: Behavior :: Continuation(b, cfg, s) ==> Later(s, Last(b), j)
  {
    forall b: Behavior | Continuation(b, cfg, s) ensures Later(s, Last(b), j) { RunsAreLater(b, j, |b.steps|); }
  }

  /**
   * Under H, over every continuation of a reachable state: the status of a terminal Run is final exactly when the Run
   * has an Attempt, or every write that can still come writes the status it has: its future is cancelled only if it is
   * CANCELLED, and a reconciler still has it on its list only if it is FAILED.
   */
  lemma StatusIsFinalExactlyWhen(cfg: Config, s: Sys, j: JobId)
    requires CoreInv(cfg, s) && cfg.onlyDead && 1 <= cfg.maxAttempts && j in s.db.runs && s.db.runs[j].status.Terminal()
    ensures StatusFinal(cfg, s, j) <==>
              || HasAttempt(s.db, j)
              || ((LateCancel(s, j) ==> s.db.runs[j].status.RunCancelled?)
                  && (LateWriteOff(s, j) ==> s.db.runs[j].status.RunFailed?))
  {
    if HasAttempt(s.db, j) {
      AttemptMakesFinal(cfg, s, j);
    } else {
      TerminalWithoutAttemptIsSealed(cfg, s, j);
      ContinuationsAreLater(cfg, s, j);
      if LateCancel(s, j) { var b := OneWrite(cfg, s, j, CancelWrite(j)); }
      if LateWriteOff(s, j) { var b := OneWriteOff(cfg, s, j); }
    }
  }

  /** Likewise its verdict, exactly when no cancel can still take the trust away. */
  lemma VerdictIsFinalExactlyWhen(cfg: Config, s: Sys, j: JobId)
    requires CoreInv(cfg, s) && cfg.onlyDead && 1 <= cfg.maxAttempts && j in s.db.runs && s.db.runs[j].status.Terminal()
    ensures VerdictFinal(cfg, s, j) <==>
              HasAttempt(s.db, j) || !LateCancel(s, j) || s.db.runs[j].verdict.trust.TrustInvalid?
  {
    if HasAttempt(s.db, j) {
      AttemptMakesFinal(cfg, s, j);
    } else {
      TerminalWithoutAttemptIsSealed(cfg, s, j);
      ContinuationsAreLater(cfg, s, j);
      if LateCancel(s, j) { var b := OneWrite(cfg, s, j, CancelWrite(j)); }
    }
  }

  /** And the whole row, `updated_at` included, exactly when no write at all can still come. */
  lemma RowIsFinalExactlyWhen(cfg: Config, s: Sys, j: JobId)
    requires CoreInv(cfg, s) && cfg.onlyDead && 1 <= cfg.maxAttempts && j in s.db.runs && s.db.runs[j].status.Terminal()
    ensures RowFinal(cfg, s, j) <==> HasAttempt(s.db, j) || (!LateCancel(s, j) && !LateWriteOff(s, j))
  {
    if HasAttempt(s.db, j) {
      AttemptMakesFinal(cfg, s, j);
    } else {
      TerminalWithoutAttemptIsSealed(cfg, s, j);
      ContinuationsAreLater(cfg, s, j);
      if LateCancel(s, j) { var b := OneWrite(cfg, s, j, CancelWrite(j)); }
      if LateWriteOff(s, j) { var b := OneWriteOff(cfg, s, j); }
    }
  }

  // ---------------------------------------------------------------- the changes happen, under H

  /** A Run claimed by a worker, whose future is cancelled before it begins and which a reconciler then sees empty. */
  lemma CancelledAndSeenEmpty(kind: StoreKind) returns (b: Behavior)
    ensures b.Valid() && b.cfg.onlyDead && b.cfg.kind == kind
    ensures Last(b).db.runs == map[0 := Run(RunRunning, 0, NO_VERDICT, 0.0)] && LateCancel(Last(b), 0)
    ensures Last(b).listed == {} && Last(b).doomed == {Reading(0, 7)}
  {
    b := OneClaimedRun(Config(kind, false, 1, None, 1.0, true));
    b := Extended(b, CancelFuture(0));
    b := Extended(b, List(0, 7));
    b := Extended(b, SeeEmpty(0, 7));
  }

  /** Under H: a reconciler fails the Run, and then the cancelling caller makes it CANCELLED. */
  lemma FailedTurnsCancelled(kind: StoreKind) returns (b: Behavior, i: nat)
    ensures b.Valid() && b.cfg.onlyDead && b.cfg.kind == kind && i < |b.steps|
    ensures 0 in b.states[i].db.runs && b.states[i].db.runs[0].status.RunFailed?
    ensures 0 in Last(b).db.runs && Last(b).db.runs[0].status.RunCancelled?
  {
    b := CancelledAndSeenEmpty(kind);
    b := Extended(b, FailEmpty(0, 7));
    i := |b.steps|;
    b := Extended(b, CancelWrite(0));
  }

  /** Under H: the cancelling caller makes the Run CANCELLED, and then the reconciler, acting last, fails it. */
  lemma CancelledTurnsFailed(kind: StoreKind) returns (b: Behavior, i: nat)
    ensures b.Valid() && b.cfg.onlyDead && b.cfg.kind == kind && i < |b.steps|
    ensures 0 in b.states[i].db.runs && b.states[i].db.runs[0].status.RunCancelled?
    ensures 0 in Last(b).db.runs && Last(b).db.runs[0].status.RunFailed?
    ensures !LateWriteOff(Last(b), 0) && LateCancel(Last(b), 0)
  {
    b := CancelledAndSeenEmpty(kind);
    b := Extended(b, CancelWrite(0));
    i := |b.steps|;
    b := Extended(b, FailEmpty(0, 7));
  }

  /** And under H, no reconciler being left: the caller cancels the same job again, and the Run is CANCELLED again. */
  lemma SecondCancelOverwrites(kind: StoreKind) returns (b: Behavior, h: nat, i: nat)
    ensures b.Valid() && b.cfg.onlyDead && b.cfg.kind == kind && h < i < |b.steps|
    ensures 0 in b.states[h].db.runs && b.states[h].db.runs[0].status.RunCancelled?
    ensures 0 in b.states[i].db.runs && b.states[i].db.runs[0].status.RunFailed? && !LateWriteOff(b.states[i], 0)
    ensures 0 in Last(b).db.runs && Last(b).db.runs[0].status.RunCancelled?
  {
    b, h := CancelledTurnsFailed(kind);
    i := |b.steps|;
    b := Extended(b, CancelWrite(0));
  }
}
