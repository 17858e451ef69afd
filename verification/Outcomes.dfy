/**
 * The rows tell how an execution ended: in every reachable state the error and the retry class of an Attempt go with
 * its status, and a terminal Run's status and trust with its last Attempt (service.py `_execute`).
 */
module Outcomes {
  import opened Prelude
  import opened Acceptance
  import opened Tables
  import opened StoreOps
  import opened History
  import opened Columns
  import opened Protocol
  import opened ProtocolInvariant
  import opened OnceOnly
  import opened Numbering
  import opened ProtocolTheorems
  import opened Deliveries

  /** Why an Attempt may be FAILED. */
  predicate Fault(e: ErrorType) {
    e.ErrorParseInvalid? || e.ErrorSemanticInvalid? || e.ErrorOutcomeUnknown? || e.ErrorToolExit?
    || e.ErrorSupervisorValidation? || e.ErrorExecution?
  }

  /** Error and retry class go with the status. */
  predicate RulingOk(r: Ruling) {
    match r.status
    case AttemptRunning => r.error.None? && r.retry.NotClassified?
    case AttemptSucceeded => r.error.None? && r.retry.NotApplicable?
    case AttemptFailed => r.error.Some? && Fault(r.error.value) && r.retry.NonRetryable?
    case AttemptCancelled => r.error == Some(ErrorCancelled) && r.retry.NonRetryable?
    case AttemptRetryable => (r.error == Some(ErrorTimeout) || r.error == Some(ErrorTransport)) && r.retry.Retryable?
    case AttemptAbandoned => r.error.Some? && r.retry.RecoveryRequired?
  }

  /** What a terminal Run says whose last Attempt was ruled so. */
  predicate Tells(r: Ruling, w: Standing) {
    var v := w.verdict;
    match r.status
    case AttemptRunning => false
    case AttemptSucceeded => w.status.RunSucceeded? && v.trust.Trusted? && Evidence(v)
    case AttemptFailed =>
      && w.status.RunFailed? && !v.trust.Trusted?
      && (r.error == Some(ErrorExecution) ==> v.trust.TrustUnknown?)
      && (r.error == Some(ErrorParseInvalid) ==> v.report.parse.ParseInvalid? && v.trust.TrustInvalid?)
      && (r.error == Some(ErrorSemanticInvalid) ==> v.report.semantic.FindingInvalid? && v.trust.TrustInvalid?)
      && (r.error == Some(ErrorToolExit) ==> v.exitCode.Some? && v.exitCode.value != 0 && v.trust.TrustInvalid?)
      && (r.error == Some(ErrorOutcomeUnknown) ==> v.exitCode.None? && v.trust.TrustUnknown?)
      && (r.error == Some(ErrorSupervisorValidation) ==> !Evidence(v))
    case AttemptCancelled => w.status.RunCancelled? && v.trust.TrustInvalid?
    case AttemptRetryable =>
      (if r.error == Some(ErrorTimeout) then w.status.RunTimedOut? else w.status.RunFailed?) && v.trust.TrustInvalid?
    case AttemptAbandoned => w.status.RunFailed? && v.trust.TrustUnknown?
  }

  function StandingOf(r: Run): Standing { Standing(r.status, r.verdict) }

  function RulingOfCompletion(c: Completion): Ruling { Ruling(c.attempt, c.error, c.retry) }

  /** The completion says the same in both rows. */
  ghost predicate Coherent(c: Completion) {
    && RulingOk(RulingOfCompletion(c))
    && forall v: Verdict :: v.trust.TrustUnknown? ==>
         Tells(RulingOfCompletion(c), Standing(c.run, WriteFields(v, c.fields)))
  }

  lemma CompletionsAreCoherent(cfg: Config, no: nat, o: Outcome, r: Report, x: Option<int>)
    requires !o.Broke? && (o.Returned? ==> InParserRange(o.report)) && InParserRange(r)
    ensures Coherent(SettleCompletion(cfg, no, o)) && Coherent(SupervisorCompletion(r, x)) && Coherent(EXECUTION_ERROR)
  {
    ParserRangeAgrees(r, x);
    if o.Returned? { ParserRangeAgrees(o.report, o.exitCode); }
  }

  // ---------------------------------------------------------------- the invariant

  ghost predicate RulingsOk(db: Db) { forall k :: k in db.attempts ==> RulingOk(RulingOf(db.attempts[k])) }

  /** The last Attempt of a terminal Run and the Run say the same. */
  ghost predicate LastTells(db: Db, k: AttemptKey) {
    k in db.attempts && Following(k) !in db.attempts && k.job in db.runs && db.runs[k.job].status.Terminal() ==>
      Tells(RulingOf(db.attempts[k]), StandingOf(db.runs[k.job]))
  }

  ghost predicate OutcomesOk(db: Db) { RulingsOk(db) && forall k {:trigger LastTells(db, k)} :: LastTells(db, k) }

  /** Whose completions and transitions they are, they are coherent. */
  ghost predicate CallCoherent(op: Op) {
    && (op.OpFinalize? ==> Coherent(op.completion))
    && (op.OpTransition? ==> RulingOk(Ruling(op.to, op.error, op.retry)))
  }

  lemma CallsAreCoherent(cfg: Config, s: Sys, step: Step)
    requires CoreInv(cfg, s) && Enabled(cfg, s, step)
    ensures CallCoherent(CallOf(cfg, s, step))
  {
    KnowsCaller(cfg, s, step);
    if step.Settle? {
      assert ExecOk(cfg, s, step.job);
      var st := s.execs[step.job].stage;
      if !st.outcome.Broke? { CompletionsAreCoherent(cfg, st.no, st.outcome, BROKEN, None); }
    } else if step.Fail? {
      CompletionsAreCoherent(cfg, 1, TimedOut, BROKEN, None);
    } else if step.SupervisorFinalize? {
      CompletionsAreCoherent(cfg, 1, TimedOut, step.report, step.exitCode);
    }
  }

  lemma CallKeepsRuling(h: History, k: AttemptKey)
    requires h.Valid() && |h.events| == 1 && CallCoherent(h.events[0].op) && RulingsOk(h.rows[0])
    requires k in h.rows[1].attempts
    ensures RulingOk(RulingOf(h.rows[1].attempts[k]))
  {
    AttemptColumns(h, 0, k);
  }

  /** The call closes Run and last Attempt together. */
  lemma CompletionTells(h: History, k: AttemptKey)
    requires h.Valid() && |h.events| == 1 && CallCoherent(h.events[0].op)
    requires h.events[0].op.OpFinalize? || h.events[0].op.OpFinalizeRecovery?
    requires h.events[0].op.k == k && k in h.rows[0].attempts && Open(h.rows[0], k.job)
    requires h.rows[0].runs[k.job].verdict.trust.TrustUnknown?
    requires StandingWritten(h.rows[0], h.events[0], k.job).Some?
    ensures k in h.rows[1].attempts && k.job in h.rows[1].runs
    ensures Tells(RulingOf(h.rows[1].attempts[k]), StandingOf(h.rows[1].runs[k.job]))
  {
    AttemptColumns(h, 0, k);
    RunColumns(h, 0, k.job);
  }

  /** A new Attempt is recorded only under a RUNNING Run, and no Attempt twice. */
  lemma RecordsUnderOpenRun(cfg: Config, s: Sys, step: Step)
    requires CoreInv(cfg, s) && NumbersOk(s) && Enabled(cfg, s, step) && step.Record?
    ensures Open(s.db, step.job) && AttemptKey(step.job, s.execs[step.job].stage.no) !in s.db.attempts
  {
    assert ExecOk(cfg, s, step.job);
    RecordKeepsNumbers(s, step.job);
  }

  /** No call but a new record rules on an Attempt that is not RUNNING. */
  lemma ClosedRulingStays(h: History, k: AttemptKey)
    requires h.Valid() && |h.events| == 1 && k in h.rows[0].attempts && !IsRunning(h.rows[0], k)
    requires h.events[0].op != OpRecordAttempt(k)
    ensures k in h.rows[1].attempts && RulingOf(h.rows[1].attempts[k]) == RulingOf(h.rows[0].attempts[k])
  {
    AttemptColumns(h, 0, k);
  }

  lemma FollowingStays(h: History, k: AttemptKey)
    requires h.Valid() && |h.events| == 1 && k in h.rows[0].attempts
    ensures k in h.rows[1].attempts
  {
    AttemptColumns(h, 0, k);
  }

  /** Where the Run is not written, its last Attempt is not either, if the Run is terminal. */
  lemma UnwrittenTells(cfg: Config, s: Sys, step: Step, k: AttemptKey, h: History)
    requires CoreInv(cfg, s) && NumbersOk(s) && Enabled(cfg, s, step) && OutcomesOk(s.db)
    requires h.Valid() && h.rows == [s.db, Next(cfg, s, step).db] && h.events == [Event(s.now, CallOf(cfg, s, step))]
    requires k in s.db.attempts && k.job in s.db.runs && StandingWritten(s.db, h.events[0], k.job).None?
    ensures LastTells(Next(cfg, s, step).db, k)
  {
    if Following(k) in s.db.attempts { FollowingStays(h, Following(k)); }
    RunColumns(h, 0, k.job);
    assert LastTells(s.db, k);
    KnowsCaller(cfg, s, step);
    if step.Record? { RecordsUnderOpenRun(cfg, s, step); }
    if IsRunning(s.db, k) {
      CompletionFindsRunOpen(cfg, s, k);
    } else {
      ClosedRulingStays(h, k);
    }
  }

  /** An unfenced write either opens a Run or is of one without Attempts. */
  lemma UpdatesNoneWithAttempts(cfg: Config, s: Sys, step: Step)
    requires CoreInv(cfg, s) && Enabled(cfg, s, step) && CallOf(cfg, s, step).OpUpdateRun?
    ensures var op := CallOf(cfg, s, step); op.status.RunRunning? || NoAttempts(s.db, op.job)
  {
    if step.CancelWrite? { assert ExecOk(cfg, s, step.job); }
  }

  /** Where it is written and terminal, the call is a completion of its last Attempt. */
  lemma WrittenByCompletion(cfg: Config, s: Sys, step: Step, k: AttemptKey, h: History)
    requires CoreInv(cfg, s) && Enabled(cfg, s, step)
    requires h.Valid() && h.rows == [s.db, Next(cfg, s, step).db] && h.events == [Event(s.now, CallOf(cfg, s, step))]
    requires k in s.db.attempts && Following(k) !in s.db.attempts && k.job in s.db.runs
    requires StandingWritten(s.db, h.events[0], k.job).Some?
    requires StandingWritten(s.db, h.events[0], k.job).value.status.Terminal()
    ensures var op := h.events[0].op; (op.OpFinalize? || op.OpFinalizeRecovery?) && op.k == k && Open(s.db, k.job)
  {
    var op := h.events[0].op;
    if op.OpUpdateRun? {
      UpdatesNoneWithAttempts(cfg, s, step);
    } else {
      assert op.OpFinalize? || op.OpFinalizeRecovery?;
      UnretryableIsLast(cfg, s.db, op.k);
      assert k == AttemptKey(k.job, k.no) && Following(k) == AttemptKey(k.job, k.no + 1);
    }
  }

  lemma NextTells(cfg: Config, s: Sys, step: Step, k: AttemptKey)
    requires CoreInv(cfg, s) && NumbersOk(s) && Enabled(cfg, s, step) && OutcomesOk(s.db)
    ensures LastTells(Next(cfg, s, step).db, k)
  {
    var h := CallHistory(cfg, s, step);
    var db' := Next(cfg, s, step).db;
    if k in db'.attempts && Following(k) !in db'.attempts && k.job in db'.runs && db'.runs[k.job].status.Terminal() {
      AttemptColumns(h, 0, Following(k));
      AttemptColumns(h, 0, k);
      RunColumns(h, 0, k.job);
      KnowsCaller(cfg, s, step);
      if step.Record? { RecordsUnderOpenRun(cfg, s, step); }
      assert AttemptOk(cfg, s.db, k);
      if StandingWritten(s.db, h.events[0], k.job).None? {
        UnwrittenTells(cfg, s, step, k, h);
      } else {
        WrittenByCompletion(cfg, s, step, k, h);
        assert RunOk(cfg, s, k.job);
        CallsAreCoherent(cfg, s, step);
        CompletionTells(h, k);
      }
    }
  }

  lemma NextKeepsOutcomes(cfg: Config, s: Sys, step: Step)
    requires CoreInv(cfg, s) && NumbersOk(s) && Enabled(cfg, s, step) && OutcomesOk(s.db)
    ensures OutcomesOk(Next(cfg, s, step).db)
  {
    var h := CallHistory(cfg, s, step);
    var db' := Next(cfg, s, step).db;
    CallsAreCoherent(cfg, s, step);
    forall k | k in db'.attempts ensures RulingOk(RulingOf(db'.attempts[k])) { CallKeepsRuling(h, k); }
    forall k ensures LastTells(db', k) { NextTells(cfg, s, step, k); }
  }

  /**
   * Under H, in every reachable state: an Attempt's error and retry class go with its status, and a terminal Run that
   * has Attempts says of its status and trust what its last Attempt says.
   */
  lemma {:induction false} RowsTellTheOutcome(b: Behavior, i: nat)
    requires b.Valid() && b.cfg.onlyDead && i <= |b.steps|
    ensures OutcomesOk(b.states[i].db)
  {
    if 0 < i {
      RowsTellTheOutcome(b, i - 1);
      AlwaysCore(b, i - 1);
      AlwaysNumbered(b, i - 1);
      assert b.Takes(i - 1);
      NextKeepsOutcomes(b.cfg, b.states[i - 1], b.steps[i - 1]);
    }
  }
}
