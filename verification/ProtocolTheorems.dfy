/** What the protocol guarantees over whole runs: every interleaving of every process, with crashes anywhere. */
module ProtocolTheorems {
  import opened Prelude
  import opened Acceptance
  import opened Tables
  import opened StoreOps
  import opened History
  import opened Columns
  import opened Protocol
  import opened ProtocolInvariant
  import opened OnceOnly
  import opened Numbering

  // ================================================================ the shape of a Run

  /** How many Attempts a Run has: they are numbered from 1 without gaps. */
  lemma {:induction false} CountAttempts(cfg: Config, db: Db, j: JobId, below: nat) returns (n: nat)
    requires AttemptsOk(cfg, db) && (forall m: nat :: AttemptKey(j, m) in db.attempts ==> m <= below)
    ensures Numbered(db, j, n) && n <= below
    decreases below
  {
    if AttemptKey(j, below) in db.attempts {
      n := below;
      assert AttemptOk(cfg, db, AttemptKey(j, below));
      forall m: nat ensures AttemptKey(j, m) in db.attempts <==> 1 <= m <= n {
        if AttemptKey(j, m) in db.attempts { assert AttemptOk(cfg, db, AttemptKey(j, m)); }
        if 1 <= m <= n { Contiguous(cfg, db, j, n, m); }
      }
    } else if below == 0 {
      n := 0;
    } else {
      n := CountAttempts(cfg, db, j, below - 1);
    }
  }

  /**
   * In every reachable state, for every Run: its Attempts are numbered 1..n with n <= max; all but the last are
   * RETRYABLE_FAILURE; a RUNNING Attempt exists only under a RUNNING Run; the Run is SUCCEEDED exactly when its
   * last Attempt is; and it is TRUSTED exactly when it is SUCCEEDED, then with exit code 0, a parsed report,
   * valid semantics and valid provenance.
   */
  lemma ShapeOfARun(b: Behavior, i: nat, j: JobId) returns (n: nat)
    requires b.Valid() && b.cfg.onlyDead && i <= |b.steps| && j in b.states[i].db.runs
    ensures var db := b.states[i].db;
            && Numbered(db, j, n) && n <= b.cfg.maxAttempts
            && (forall m: nat :: 1 <= m < n ==>
                  AttemptKey(j, m) in db.attempts && db.attempts[AttemptKey(j, m)].status.AttemptRetryable?)
            && (forall m: nat :: IsRunning(db, AttemptKey(j, m)) ==> m == n && db.runs[j].status.RunRunning?)
            && (db.runs[j].status.RunSucceeded? <==>
                  AttemptKey(j, n) in db.attempts && db.attempts[AttemptKey(j, n)].status.AttemptSucceeded?)
            && (db.runs[j].verdict.trust.Trusted? <==> db.runs[j].status.RunSucceeded?)
            && (db.runs[j].status.RunSucceeded? ==> Evidence(db.runs[j].verdict))
  {
    AlwaysCore(b, i);
    var cfg, db := b.cfg, b.states[i].db;
    forall m: nat | AttemptKey(j, m) in db.attempts ensures m <= cfg.maxAttempts {
      assert AttemptOk(cfg, db, AttemptKey(j, m));
    }
    n := CountAttempts(cfg, db, j, cfg.maxAttempts);
    forall m: nat | 1 <= m < n
      ensures AttemptKey(j, m) in db.attempts && db.attempts[AttemptKey(j, m)].status.AttemptRetryable?
    {
      Contiguous(cfg, db, j, n, m);
    }
    forall m: nat | IsRunning(db, AttemptKey(j, m)) ensures m == n && db.runs[j].status.RunRunning? {
      UnretryableIsLast(cfg, db, AttemptKey(j, m));
      assert AttemptKey(j, m + 1) == Following(AttemptKey(j, m));
      assert AttemptOk(cfg, db, AttemptKey(j, m));
    }
    assert RunOk(cfg, b.states[i], j);
    if AttemptKey(j, n) in db.attempts { assert AttemptOk(cfg, db, AttemptKey(j, n)); }
    if db.runs[j].status.RunSucceeded? {
      var m: nat :| AttemptKey(j, m) in db.attempts && db.attempts[AttemptKey(j, m)].status.AttemptSucceeded?;
      UnretryableIsLast(cfg, db, AttemptKey(j, m));
      assert AttemptKey(j, m + 1) == Following(AttemptKey(j, m));
    }
  }

  // ================================================================ a protocol run is a history of Store calls

  /** The Store call a step makes. */
  function CallOf(cfg: Config, s: Sys, step: Step): Op
    requires ExecutorStep(step) ==> step.job in s.execs
    requires step.Record? ==> s.execs[step.job].stage.Looping?
    requires step.Acquire? ==> s.execs[step.job].stage.Recorded?
    requires step.Register? ==> s.execs[step.job].stage.Leased?
    requires step.Dispatch? ==> s.execs[step.job].stage.Registered?
    requires step.Return? ==> s.execs[step.job].stage.Executing?
    requires step.Settle? ==> s.execs[step.job].stage.Settling?
    requires step.Fail? ==> s.execs[step.job].stage.Failing?
    requires step.SupervisorClaim? || step.SupervisorFinalize? ==> step.execution in s.db.requests
  {
    match step
    case Submit(j, spec) => OpCreateRun(j, spec, cfg.budget)
    case ClaimRun(j, _, _) => OpClaimNextRun(j)
    case CancelWrite(j) => OpUpdateRun(j, RunCancelled, Some(TrustInvalid))
    case Begin(j) => OpUpdateRun(j, RunRunning, None)
    case Record(j) => OpRecordAttempt(AttemptKey(j, s.execs[j].stage.no))
    case Acquire(j, token) => OpAcquireLease(AttemptKey(j, s.execs[j].stage.no), token, cfg.lease)
    case Register(j, x) =>
      var ex := s.execs[j];
      if ex.owner.None? then OpRead
      else OpRecordExecution(AttemptKey(j, ex.stage.no), ex.stage.token, Owner(ex.owner.value, x))
    case Dispatch(j) =>
      var ex := s.execs[j];
      if ex.owner.None? then OpRead
      else
        var at := ex.owner.value;
        OpEnqueue(ex.stage.execution, AttemptKey(j, ex.stage.no), at.host, ex.stage.token, at)
    case Return(j, o) =>
      var st := s.execs[j].stage;
      if o.Returned? then OpHeartbeatAttempt(AttemptKey(j, st.no), st.token, cfg.lease) else OpRead
    case Settle(j) =>
      var ex, st := s.execs[j], s.execs[j].stage;
      if st.outcome.Broke? then OpRead
      else if st.outcome.Transient() && st.no < cfg.maxAttempts then
        OpTransition(AttemptKey(j, st.no), st.token, AttemptRetryable, Some(st.outcome.Error()), Retryable)
      else OpFinalize(AttemptKey(j, st.no), st.token, SettleCompletion(cfg, st.no, st.outcome), ex.owner)
    case Fail(j) =>
      OpFinalize(AttemptKey(j, s.execs[j].stage.no), s.execs[j].stage.token, EXECUTION_ERROR, s.execs[j].owner)
    case SupervisorClaim(e, sup) => OpClaimRequest(s.db.requests[e].host, sup, e)
    case SupervisorFinalize(e, r, x) =>
      var q := s.db.requests[e];
      OpFinalize(q.key, q.leaseToken, SupervisorCompletion(r, x), Some(q.owner))
    case FailEmpty(j, _) => OpUpdateRun(j, RunFailed, None)
    case Bystander(op) => op
    case _ => OpRead
  }

  lemma ExecutorStepIsOneCall(cfg: Config, s: Sys, step: Step)
    requires Enabled(cfg, s, step) && ExecutorStep(step) && !step.Settle?
    ensures Next(cfg, s, step).db == Apply(cfg.kind, s.db, s.now, CallOf(cfg, s, step)).db
  {
    match step {
      case CancelFuture(_) =>
      case CancelWrite(_) =>
      case Notice(_) =>
      case Begin(_) =>
      case Record(_) =>
      case Acquire(_, _) =>
      case Register(_, _) =>
      case Dispatch(_) =>
      case StartAdapter(_) =>
      case Return(_, _) =>
      case Fail(_) =>
      case Crash(_) =>
    }
  }

  lemma SettleIsOneCall(cfg: Config, s: Sys, j: JobId)
    requires j in s.execs && s.execs[j].stage.Settling?
    ensures DoSettle(cfg, s, j).db == Apply(cfg.kind, s.db, s.now, CallOf(cfg, s, Settle(j))).db
  {
  }

  lemma OtherStepIsOneCall(cfg: Config, s: Sys, step: Step)
    requires Enabled(cfg, s, step) && !ExecutorStep(step)
    ensures Next(cfg, s, step).db == Apply(cfg.kind, s.db, s.now, CallOf(cfg, s, step)).db
  {
    match step {
      case Tick(_) =>
      case Submit(_, _) =>
      case ClaimRun(_, _, _) =>
      case SupervisorClaim(_, _) =>
      case SupervisorStart(_) =>
      case SupervisorStop(_) =>
      case SupervisorFinalize(_, _, _) =>
      case List(_, _) =>
      case SeeEmpty(_, _) =>
      case FailEmpty(_, _) =>
      case Forget(_, _) =>
      case Bystander(_) =>
    }
  }

  lemma StepIsOneCall(cfg: Config, s: Sys, step: Step)
    requires Enabled(cfg, s, step)
    ensures Next(cfg, s, step).db == Apply(cfg.kind, s.db, s.now, CallOf(cfg, s, step)).db
  {
    if step.Settle? { SettleIsOneCall(cfg, s, step.job); }
    else if ExecutorStep(step) { ExecutorStepIsOneCall(cfg, s, step); }
    else { OtherStepIsOneCall(cfg, s, step); }
  }

  /** The step as a history of one call. */
  lemma CallHistory(cfg: Config, s: Sys, step: Step) returns (h: History)
    requires Enabled(cfg, s, step)
    ensures h.Valid() && h.rows == [s.db, Next(cfg, s, step).db] && h.events == [Event(s.now, CallOf(cfg, s, step))]
  {
    StepIsOneCall(cfg, s, step);
    h := History(cfg.kind, [s.db, Next(cfg, s, step).db], [Event(s.now, CallOf(cfg, s, step))]);
    assert h.Step(0);
  }

  /** Every call keeps the callers' discipline; in particular Attempt numbers are fresh. */
  lemma CallIsDisciplined(cfg: Config, s: Sys, step: Step)
    requires NumbersOk(s) && Enabled(cfg, s, step)
    ensures Disciplined(s.db, CallOf(cfg, s, step))
  {
    if step.Record? { RecordKeepsNumbers(s, step.job); }
  }

  /** Event `i` of the history is the call that step `i` of the run makes. */
  ghost predicate Makes(b: Behavior, i: nat, h: History) {
    && |b.states| == |b.steps| + 1 && i < |b.steps| && i < |h.events| && Enabled(b.cfg, b.states[i], b.steps[i])
    && h.events[i] == Event(b.states[i].now, CallOf(b.cfg, b.states[i], b.steps[i]))
  }

  /**
   * A protocol run, seen from the database, is a disciplined history of Store calls. Every theorem of History.dfy
   * (fencing, lease and claim exclusion, the ledger, unique completion) therefore holds of every protocol run.
   */
  lemma RunIsDisciplinedHistory(b: Behavior) returns (h: History)
    requires b.Valid()
    ensures DisciplinedHistory(h) && h.kind == b.cfg.kind && |h.events| == |b.steps|
    ensures forall i :: 0 <= i <= |b.steps| ==> h.rows[i] == b.states[i].db
    ensures forall i: nat {:trigger Makes(b, i, h)} :: i < |b.steps| ==> Makes(b, i, h)
  {
    var rows, events := [b.states[0].db], [];
    h := History(b.cfg.kind, rows, events);
    while |events| < |b.steps|
      invariant |events| <= |b.steps| && h == History(b.cfg.kind, rows, events)
      invariant |rows| == |events| + 1 && (forall i :: 0 <= i < |rows| ==> rows[i] == b.states[i].db)
      invariant DisciplinedHistory(h)
      invariant forall i: nat {:trigger Makes(b, i, h)} :: i < |events| ==> Makes(b, i, h)
      decreases |b.steps| - |events|
    {
      var i := |events|;
      var before := h;
      h := ExtendByStep(b, h);
      rows, events := h.rows, h.events;
      forall n: nat | n < |events| ensures Makes(b, n, h) {
        if n < i { assert Makes(b, n, before); }
      }
    }
  }

  lemma ExtendByStep(b: Behavior, h: History) returns (h': History)
    requires b.Valid() && DisciplinedHistory(h) && h.kind == b.cfg.kind && |h.events| < |b.steps|
    requires h.rows[|h.events|] == b.states[|h.events|].db
    ensures DisciplinedHistory(h') && h'.kind == h.kind && h'.rows == h.rows + [b.states[|h.events| + 1].db]
    ensures h.events <= h'.events && |h'.events| == |h.events| + 1 && Makes(b, |h.events|, h')
  {
    var i := |h.events|;
    AlwaysNumbered(b, i);
    assert b.Takes(i);
    var s, step := b.states[i], b.steps[i];
    StepIsOneCall(b.cfg, s, step);
    CallIsDisciplined(b.cfg, s, step);
    h' := Extend(h, Event(s.now, CallOf(b.cfg, s, step)), b.states[i + 1].db);
  }

  lemma Extend(h: History, e: Event, db': Db) returns (h': History)
    requires DisciplinedHistory(h) && Disciplined(h.rows[|h.events|], e.op)
    requires Apply(h.kind, h.rows[|h.events|], e.now, e.op).db == db'
    ensures h' == History(h.kind, h.rows + [db'], h.events + [e]) && DisciplinedHistory(h')
  {
    h' := History(h.kind, h.rows + [db'], h.events + [e]);
    forall i: nat | i < |h'.events| ensures h'.Step(i) && Disciplined(h'.rows[i], h'.events[i].op) {
      if i < |h.events| { assert h.Step(i) && Disciplined(h.rows[i], h.events[i].op); }
    }
  }

  /** An Attempt's outcome, once written by whichever holder won, is never overwritten. */
  lemma AttemptOutcomeIsFinal(b: Behavior, k: AttemptKey, i: nat, l: nat)
    requires b.Valid() && i <= l <= |b.steps| && Closed(b.states[i].db, k)
    ensures k in b.states[l].db.attempts && b.states[l].db.attempts[k] == b.states[i].db.attempts[k]
  {
    var h := RunIsDisciplinedHistory(b);
    RunsAndClosedRowsKept(h, i, l, k.job, k);
  }

  // ================================================================ the fate of a Run

  ghost predicate HasAttempt(db: Db, j: JobId) { exists n: nat :: AttemptKey(j, n) in db.attempts }

  /**
   * A terminal Run stays terminal, and if it ever had an Attempt the whole row stays; no Run appears but by `Submit`.
   */
  ghost predicate FateKept(db: Db, db': Db, j: JobId) {
    j in db.runs && db.runs[j].status.Terminal() ==>
      && j in db'.runs && db'.runs[j].status.Terminal()
      && (HasAttempt(db, j) ==> db'.runs[j] == db.runs[j] && HasAttempt(db', j))
  }

  lemma SameRunsKeepFate(db: Db, db': Db, j: JobId)
    requires db'.runs == db.runs && (forall k :: k in db.attempts ==> k in db'.attempts)
    ensures FateKept(db, db', j)
  {
    if HasAttempt(db, j) {
      var n: nat :| AttemptKey(j, n) in db.attempts;
      assert AttemptKey(j, n) in db'.attempts;
    }
  }

  lemma FinalizeKeepsFate(cfg: Config, db: Db, now: real, k: AttemptKey, token: Token, c: Completion,
                          owner: Option<HostRef>, j: JobId)
    ensures var db' := FinalizeAttempt(cfg.kind, db, now, k, token, c, owner).db;
            FateKept(db, db', j) && db'.runs.Keys == db.runs.Keys
  {
    var db' := FinalizeAttempt(cfg.kind, db, now, k, token, c, owner).db;
    SameRunsKeepFate(db, db'.(runs := db.runs), j);
  }

  lemma RecoveryKeepsFate(cfg: Config, db: Db, now: real, k: AttemptKey, token: Token, error: ErrorType, j: JobId)
    ensures var db' := FinalizeRecovery(cfg.kind, db, now, k, token, error).db;
            FateKept(db, db', j) && db'.runs.Keys == db.runs.Keys
  {
    var db' := FinalizeRecovery(cfg.kind, db, now, k, token, error).db;
    SameRunsKeepFate(db, db'.(runs := db.runs), j);
  }

  lemma BystanderKeepsFate(cfg: Config, s: Sys, op: Op, j: JobId)
    requires Harmless(op)
    ensures var db' := Apply(cfg.kind, s.db, s.now, op).db; FateKept(s.db, db', j) && db'.runs.Keys == s.db.runs.Keys
  {
    if op.OpFinalizeRecovery? {
      RecoveryKeepsFate(cfg, s.db, s.now, op.k, op.token, op.failure, j);
    } else {
      if op.OpRead? || HostCall(op) || DeliveryCall(op) { HostOrDeliveryCallIsQuiet(cfg, s, op); }
      else { LeaseCallIsQuiet(cfg, s, op); }
      SameRunsKeepFate(s.db, Apply(cfg.kind, s.db, s.now, op).db, j);
    }
  }

  lemma SettleKeepsFate(cfg: Config, s: Sys, i: JobId, j: JobId)
    requires i in s.execs && s.execs[i].stage.Settling?
    ensures FateKept(s.db, DoSettle(cfg, s, i).db, j) && DoSettle(cfg, s, i).db.runs.Keys == s.db.runs.Keys
  {
    var ex, st := s.execs[i], s.execs[i].stage;
    var k := AttemptKey(i, st.no);
    if st.outcome.Broke? || (st.outcome.Transient() && st.no < cfg.maxAttempts) {
      SameRunsKeepFate(s.db, DoSettle(cfg, s, i).db, j);
    } else {
      FinalizeKeepsFate(cfg, s.db, s.now, k, st.token, SettleCompletion(cfg, st.no, st.outcome), ex.owner, j);
    }
  }

  lemma CancelKeepsFate(cfg: Config, s: Sys, i: JobId, j: JobId)
    requires CoreInv(cfg, s) && Enabled(cfg, s, CancelWrite(i))
    ensures var db' := Next(cfg, s, CancelWrite(i)).db; FateKept(s.db, db', j) && db'.runs.Keys == s.db.runs.Keys
  {
    assert ExecOk(cfg, s, i) && RunOk(cfg, s, i);
  }

  lemma BeginKeepsFate(cfg: Config, s: Sys, i: JobId, j: JobId)
    requires CoreInv(cfg, s) && Enabled(cfg, s, Begin(i))
    ensures var db' := Next(cfg, s, Begin(i)).db; FateKept(s.db, db', j) && db'.runs.Keys == s.db.runs.Keys
  {
    assert ExecOk(cfg, s, i) && RunOk(cfg, s, i);
  }

  lemma ExecutorStepKeepsFate(cfg: Config, s: Sys, step: Step, j: JobId)
    requires CoreInv(cfg, s) && Enabled(cfg, s, step) && ExecutorStep(step)
    ensures FateKept(s.db, Next(cfg, s, step).db, j) && Next(cfg, s, step).db.runs.Keys == s.db.runs.Keys
  {
    var i := step.job;
    assert ExecOk(cfg, s, i) && RunOk(cfg, s, i);
    match step {
      case CancelWrite(_) => CancelKeepsFate(cfg, s, i, j);
      case Begin(_) => BeginKeepsFate(cfg, s, i, j);
      case Settle(_) => SettleKeepsFate(cfg, s, i, j);
      case Fail(_) =>
        var ex := s.execs[i];
        FinalizeKeepsFate(cfg, s.db, s.now, AttemptKey(i, ex.stage.no), ex.stage.token, EXECUTION_ERROR, ex.owner, j);
      case CancelFuture(_) => SameRunsKeepFate(s.db, Next(cfg, s, step).db, j);
      case Notice(_) => SameRunsKeepFate(s.db, Next(cfg, s, step).db, j);
      case Record(_) => SameRunsKeepFate(s.db, DoRecord(s, i).db, j);
      case Acquire(_, token) => SameRunsKeepFate(s.db, DoAcquire(cfg, s, i, token).db, j);
      case Register(_, x) => SameRunsKeepFate(s.db, DoRegister(s, i, x).db, j);
      case Dispatch(_) => SameRunsKeepFate(s.db, DoDispatch(s, i).db, j);
      case StartAdapter(_) => SameRunsKeepFate(s.db, DoStartAdapter(s, i).db, j);
      case Return(_, o) => SameRunsKeepFate(s.db, DoReturn(cfg, s, i, o).db, j);
      case Crash(_) => SameRunsKeepFate(s.db, Next(cfg, s, step).db, j);
    }
  }

  lemma NextKeepsFate(cfg: Config, s: Sys, step: Step, j: JobId)
    requires CoreInv(cfg, s) && Enabled(cfg, s, step)
    ensures FateKept(s.db, Next(cfg, s, step).db, j)
    ensures !step.Submit? ==> Next(cfg, s, step).db.runs.Keys == s.db.runs.Keys
  {
    match step {
      case SupervisorFinalize(e, r, x) =>
        var q := s.db.requests[e];
        FinalizeKeepsFate(cfg, s.db, s.now, q.key, q.leaseToken, SupervisorCompletion(r, x), Some(q.owner), j);
      case Bystander(op) => BystanderKeepsFate(cfg, s, op, j);
      case Tick(_) =>
      case Submit(_, _) =>
      case ClaimRun(_, _, _) =>
      case SupervisorClaim(_, _) =>
      case SupervisorStart(_) =>
      case SupervisorStop(_) =>
      case List(_, _) =>
      case SeeEmpty(_, _) =>
      case FailEmpty(_, _) =>
      case Forget(_, _) =>
      case _ => ExecutorStepKeepsFate(cfg, s, step, j);
    }
  }

  lemma StepKeepsFate(b: Behavior, j: JobId, i: nat)
    requires b.Valid() && b.cfg.onlyDead && i < |b.steps|
    ensures FateKept(b.states[i].db, b.states[i + 1].db, j)
  {
    AlwaysCore(b, i);
    assert b.Takes(i);
    NextKeepsFate(b.cfg, b.states[i], b.steps[i], j);
  }

  /**
   * Under H a terminal Run is never reopened. If it has an Attempt, nothing about it ever changes again: status,
   * verdict and spec are final. (A Run closed before its first Attempt may still turn from FAILED to CANCELLED.)
   */
  lemma {:induction false} RunFateIsSealed(b: Behavior, j: JobId, i: nat, l: nat)
    requires b.Valid() && b.cfg.onlyDead && i <= l <= |b.steps|
    ensures FateKept(b.states[i].db, b.states[l].db, j)
  {
    if i < l {
      RunFateIsSealed(b, j, i, l - 1);
      StepKeepsFate(b, j, l - 1);
    }
  }

  // ================================================================ the two stores, on reachable states

  /** On a state satisfying the invariant both stores take the same step, whichever call is made. */
  lemma StoresAgreeUnderInvariant(cfg: Config, s: Sys, op: Op)
    requires CoreInv(cfg, s) && Disciplined(s.db, op)
    ensures Apply(Sqlite, s.db, s.now, op) == Apply(Postgres, s.db, s.now, op)
  {
    StoresAgreeExactlyWhen(s.db, s.now, op);
    if Halves(s.db, s.now, op) { CompletionFindsRunOpen(cfg, s, op.k); }
  }

  lemma SameExecutorNextOnBothStores(cfg: Config, s: Sys, step: Step, other: StoreKind)
    requires CoreInv(cfg, s) && ExecutorStep(step) && Enabled(cfg, s, step)
    ensures Next(cfg.(kind := other), s, step) == Next(cfg, s, step)
  {
    assert ExecOk(cfg, s, step.job);
    if step.Settle? || step.Fail? {
      var k := AttemptKey(step.job, s.execs[step.job].stage.no);
      if IsRunning(s.db, k) { CompletionFindsRunOpen(cfg, s, k); }
    }
  }

  lemma SameNextOnBothStores(cfg: Config, s: Sys, step: Step, other: StoreKind)
    requires CoreInv(cfg, s) && Enabled(cfg, s, step)
    ensures Enabled(cfg.(kind := other), s, step) && Next(cfg.(kind := other), s, step) == Next(cfg, s, step)
  {
    if step.Bystander? { StoresAgreeUnderInvariant(cfg, s, step.op); }
    if ExecutorStep(step) { SameExecutorNextOnBothStores(cfg, s, step, other); }
    if step.SupervisorFinalize? {
      var k := s.db.requests[step.execution].key;
      if IsRunning(s.db, k) { CompletionFindsRunOpen(cfg, s, k); }
    }
  }

  /**
   * SQLite and PostgreSQL have the same runs: the branch on which they differ (a completion that finds its Run
   * closed) is unreachable, so both refine one all-or-nothing completion step.
   */
  lemma StoresHaveTheSameRuns(b: Behavior, other: StoreKind)
    requires b.Valid() && b.cfg.onlyDead
    ensures b.(cfg := b.cfg.(kind := other)).Valid()
  {
    var c := b.(cfg := b.cfg.(kind := other));
    forall i: nat | i < |b.steps| ensures c.Takes(i) {
      assert b.Takes(i);
      AlwaysCore(b, i);
      SameNextOnBothStores(b.cfg, b.states[i], b.steps[i], other);
    }
  }

  /** The executor records its first Attempt after a reconciler has seen the Run empty, which H forbids. */
  lemma RecordedAfterSeenEmpty(kind: StoreKind) returns (b: Behavior)
    ensures b.Valid() && b.cfg == Config(kind, false, 1, None, 1.0, false) && Last(b).now == 0.0
    ensures Last(b).doomed == {Reading(0, 7)}
    ensures Last(b).execs == map[0 := Executor(InProcess, None, Recorded(1))]
    ensures Last(b).db.runs == map[0 := Run(RunRunning, 0, NO_VERDICT, 0.0)]
    ensures Last(b).db.attempts == map[AttemptKey(0, 1) := FRESH_ATTEMPT]
  {
    b := OneDoomedRun(Config(kind, false, 1, None, 1.0, false));
    b := Extended(b, Begin(0));
    b := Extended(b, Record(0));
  }

  /** Then it leases it. */
  lemma LeasedAfterSeenEmpty(kind: StoreKind) returns (b: Behavior)
    ensures b.Valid() && b.cfg == Config(kind, false, 1, None, 1.0, false) && Last(b).now == 0.0
    ensures Last(b).doomed == {Reading(0, 7)}
    ensures Last(b).execs == map[0 := Executor(InProcess, None, Leased(1, 0))]
    ensures Last(b).db.runs == map[0 := Run(RunRunning, 0, NO_VERDICT, 0.0)]
    ensures Last(b).db.attempts ==
      map[AttemptKey(0, 1) := FRESH_ATTEMPT.(leaseToken := Some(0), leaseExpires := Some(1.0))]
  {
    b := RecordedAfterSeenEmpty(kind);
    b := Extended(b, Acquire(0, 0));
  }

  /** It starts its adapter. */
  lemma RunningAfterSeenEmpty(kind: StoreKind) returns (b: Behavior)
    ensures b.Valid() && b.cfg == Config(kind, false, 1, None, 1.0, false)
    ensures Last(b).now == 0.0 && Last(b).doomed == {Reading(0, 7)}
    ensures Last(b).execs == map[0 := Executor(InProcess, None, Executing(1, 0))]
    ensures Last(b).db.runs == map[0 := Run(RunRunning, 0, NO_VERDICT, 0.0)]
    ensures Last(b).db.attempts ==
      map[AttemptKey(0, 1) := FRESH_ATTEMPT.(leaseToken := Some(0), leaseExpires := Some(1.0))]
  {
    b := LeasedAfterSeenEmpty(kind);
    b := Extended(b, Register(0, 0));
    b := Extended(b, StartAdapter(0));
  }

  /** Its adapter breaks, and before it can say so the reconciler fails the Run. */
  lemma FailedUnderRunningAttempt(kind: StoreKind) returns (b: Behavior)
    ensures b.Valid() && b.cfg == Config(kind, false, 1, None, 1.0, false) && Last(b).now == 0.0
    ensures Last(b).execs == map[0 := Executor(InProcess, None, Failing(1, 0))]
    ensures Last(b).db.runs == map[0 := Run(RunFailed, 0, NO_VERDICT, 0.0)]
    ensures Last(b).db.attempts ==
      map[AttemptKey(0, 1) := FRESH_ATTEMPT.(leaseToken := Some(0), leaseExpires := Some(1.0))]
  {
    b := RunningAfterSeenEmpty(kind);
    b := Extended(b, Return(0, Broke));
    b := Extended(b, FailEmpty(0, 7));
  }

  /**
   * Without H the branch is reached. After the same run on either store, the executor's error write finds its Run
   * closed: SQLite leaves the Attempt RUNNING, PostgreSQL leaves it FAILED, and both report failure.
   */
  lemma StoresPartWithoutH(kind: StoreKind) returns (b: Behavior)
    ensures b.Valid() && !b.cfg.onlyDead && b.cfg.kind == kind && Enabled(b.cfg, Last(b), Fail(0))
    ensures Halves(Last(b).db, Last(b).now, CallOf(b.cfg, Last(b), Fail(0)))
    ensures var db := Next(b.cfg, Last(b), Fail(0)).db; var k := AttemptKey(0, 1);
            && k in db.attempts
            && if kind.Sqlite? then db.attempts[k].status.AttemptRunning? else db.attempts[k].status.AttemptFailed?
  {
    b := FailedUnderRunningAttempt(kind);
  }

  // ================================================================ admission

  /** Every step but an accepted submit leaves no Run in flight that was not in flight before. */
  lemma OnlySubmitAddsInFlight(cfg: Config, s: Sys, step: Step)
    requires CoreInv(cfg, s) && Enabled(cfg, s, step) && !step.Submit?
    ensures InFlight(Next(cfg, s, step).db) <= InFlight(s.db)
  {
    var s' := Next(cfg, s, step);
    forall j | j in InFlight(s'.db) ensures j in InFlight(s.db) {
      NextKeepsFate(cfg, s, step, j);
    }
  }

  /** With one shared budget, QUEUED plus RUNNING Runs never exceed it, whatever the submitters and workers do. */
  lemma {:induction false} BudgetIsNeverExceeded(b: Behavior, i: nat)
    requires b.Valid() && b.cfg.onlyDead && b.cfg.budget.Some? && i <= |b.steps|
    ensures |InFlight(b.states[i].db)| <= b.cfg.budget.value
  {
    if 0 < i {
      BudgetIsNeverExceeded(b, i - 1);
      AlwaysCore(b, i - 1);
      assert b.Takes(i - 1);
      var s, step, s' := b.states[i - 1], b.steps[i - 1], b.states[i];
      if step.Submit? {
        if s'.db != s.db { assert InFlight(s'.db) == InFlight(s.db) + {step.job}; }
      } else {
        OnlySubmitAddsInFlight(b.cfg, s, step);
        SubsetCount(InFlight(s'.db), InFlight(s.db));
      }
    } else {
      assert InFlight(b.states[0].db) == {};
    }
  }

  /**
   * A submit is accepted exactly when its job id is new and the budget has room; a refused one changes nothing,
   * schedules nothing, and a job id is accepted at most once in any run.
   */
  lemma SubmitIsIdempotent(b: Behavior, i: nat, l: nat)
    requires b.Valid() && i <= l < |b.steps|
    requires b.steps[i].Submit? && b.steps[l].Submit? && b.steps[i].job == b.steps[l].job
    ensures var s := b.states[i];
            b.states[i + 1] != s <==>
              b.steps[i].job !in s.db.runs && (b.cfg.budget.Some? ==> |InFlight(s.db)| < b.cfg.budget.value)
    ensures b.states[i + 1] != b.states[i] && i < l ==> b.states[l + 1] == b.states[l]
  {
    assert b.Takes(i) && b.Takes(l);
    var j := b.steps[i].job;
    if b.states[i + 1] != b.states[i] && i < l {
      var h := RunIsDisciplinedHistory(b);
      RunsAndClosedRowsKept(h, i + 1, l, j, AttemptKey(j, 0));
    }
    assert b.states[i + 1] != b.states[i] ==> j in b.states[i + 1].db.runs;
  }

  // ================================================================ the time of a Run

  /** No Run carries a time that has not come yet. */
  lemma {:induction false} AlwaysStamped(b: Behavior, i: nat)
    requires b.Valid() && i <= |b.steps|
    ensures StampedBy(b.states[i].db, b.states[i].now)
  {
    if 0 < i {
      AlwaysStamped(b, i - 1);
      assert b.Takes(i - 1);
      var h := CallHistory(b.cfg, b.states[i - 1], b.steps[i - 1]);
      ClockRuns(b.cfg, b.states[i - 1], b.steps[i - 1]);
      forall j | j in b.states[i].db.runs ensures b.states[i].db.runs[j].updatedAt <= b.states[i].now {
        RunColumns(h, 0, j);
      }
    }
  }

  lemma ClockRuns(cfg: Config, s: Sys, step: Step)
    requires Enabled(cfg, s, step)
    ensures s.now <= Next(cfg, s, step).now
  {
  }

  /** The time a Run carries never goes back. */
  lemma {:induction false} RunTimeGoesOn(b: Behavior, i: nat, l: nat, j: JobId)
    requires b.Valid() && i <= l <= |b.steps| && j in b.states[i].db.runs
    ensures j in b.states[l].db.runs && b.states[i].db.runs[j].updatedAt <= b.states[l].db.runs[j].updatedAt
  {
    if i < l {
      RunTimeGoesOn(b, i, l - 1, j);
      AlwaysStamped(b, l - 1);
      assert b.Takes(l - 1);
      var h := CallHistory(b.cfg, b.states[l - 1], b.steps[l - 1]);
      RunColumns(h, 0, j);
    }
  }

  /**
   * However long a Run was queued, a reconciler finds it stale no sooner than the stale time after a worker claimed it.
   */
  lemma StaleOnlyAfterClaim(b: Behavior, i: nat, l: nat, j: JobId, staleAfter: real)
    requires b.Valid() && i < l <= |b.steps| && b.steps[i].ClaimRun? && b.steps[i].job == j
    requires j in b.states[i].db.runs && b.states[i].db.runs[j].status.RunQueued?
    requires StaleRunning(b.states[l].db, b.states[l].now - staleAfter, j)
    ensures b.states[i].now + staleAfter <= b.states[l].now
  {
    assert b.Takes(i);
    var h := CallHistory(b.cfg, b.states[i], b.steps[i]);
    RunColumns(h, 0, j);
    RunTimeGoesOn(b, i + 1, l, j);
  }
}
