/** The whole-state invariant of the protocol under hypothesis H, kept by every step of every process. */
module ProtocolInvariant {
  import opened Prelude
  import opened Acceptance
  import opened Tables
  import opened StoreOps
  import opened History
  import opened Protocol

  // ---------------------------------------------------------------- the invariant

  function Previous(k: AttemptKey): AttemptKey
    requires 0 < k.no
  {
    AttemptKey(k.job, k.no - 1)
  }

  function Following(k: AttemptKey): AttemptKey { AttemptKey(k.job, k.no + 1) }

  /**
   * The Run status an Attempt status goes with. A retryable Attempt that is the last leaves the Run open or exhausted.
   */
  predicate Fits(a: AttemptStatus, r: RunStatus, last: bool) {
    match a
    case AttemptRunning => r.RunRunning?
    case AttemptSucceeded => r.RunSucceeded?
    case AttemptFailed => r.RunFailed?
    case AttemptCancelled => r.RunCancelled?
    case AttemptAbandoned => r.RunFailed?
    case AttemptRetryable => last ==> r.RunRunning? || r.RunFailed? || r.RunTimedOut?
  }

  /** Attempts are numbered 1..n, n <= max, all but the last retryable, and the last agrees with its Run. */
  ghost predicate AttemptOk(cfg: Config, db: Db, k: AttemptKey)
    requires k in db.attempts
  {
    && k.job in db.runs && 1 <= k.no <= cfg.maxAttempts
    && (1 < k.no ==> Previous(k) in db.attempts && db.attempts[Previous(k)].status.AttemptRetryable?)
    && Fits(db.attempts[k].status, db.runs[k.job].status, Following(k) !in db.attempts)
  }

  ghost predicate AttemptsOk(cfg: Config, db: Db) {
    forall k {:trigger AttemptOk(cfg, db, k)} :: k in db.attempts ==> AttemptOk(cfg, db, k)
  }

  ghost predicate HasSuccess(db: Db, j: JobId) {
    exists n: nat :: AttemptKey(j, n) in db.attempts && db.attempts[AttemptKey(j, n)].status.AttemptSucceeded?
  }

  /** A Run is trusted exactly when it succeeded, and then on full evidence; an open Run has no verdict yet. */
  ghost predicate VerdictOk(r: Run) {
    && (!r.status.Terminal() ==> r.verdict.trust.TrustUnknown?)
    && (r.verdict.trust.Trusted? <==> r.status.RunSucceeded?)
    && (r.verdict.trust.Trusted? ==> Evidence(r.verdict))
  }

  ghost predicate RunOk(cfg: Config, s: Sys, j: JobId)
    requires j in s.db.runs
  {
    var r := s.db.runs[j];
    && VerdictOk(r)
    && (r.status.RunSucceeded? ==> HasSuccess(s.db, j))
    && (r.status.RunQueued? ==> NoAttempts(s.db, j) && (j in s.execs ==> cfg.local))
    && (!r.status.RunQueued? ==> j in s.execs)
  }

  ghost predicate RunsOk(cfg: Config, s: Sys) {
    forall j {:trigger RunOk(cfg, s, j)} :: j in s.db.runs ==> RunOk(cfg, s, j)
  }

  /** The Attempts of `j` are exactly 1..n. */
  ghost predicate Numbered(db: Db, j: JobId, n: nat) {
    forall m: nat :: AttemptKey(j, m) in db.attempts <==> 1 <= m <= n
  }

  ghost predicate StageOk(cfg: Config, s: Sys, j: JobId, stage: Stage)
    requires j in s.db.runs
  {
    match stage
    case Pending => NoAttempts(s.db, j) && s.db.runs[j].status == if cfg.local then RunQueued else RunRunning
    case Cancelled(_) => NoAttempts(s.db, j)
    case Looping(n) =>
      && 1 <= n <= cfg.maxAttempts && Numbered(s.db, j, n - 1) && s.db.runs[j].status.RunRunning?
      && (1 < n ==> s.db.attempts[AttemptKey(j, n - 1)].status.AttemptRetryable?)
    case Ended(_) => true
    case _ => 1 <= stage.no <= cfg.maxAttempts && Numbered(s.db, j, stage.no)
              && (stage.Settling? && stage.outcome.Returned? ==> InParserRange(stage.outcome.report))
  }

  ghost predicate ExecOk(cfg: Config, s: Sys, j: JobId)
    requires j in s.execs
  {
    j in s.db.runs && StageOk(cfg, s, j, s.execs[j].stage)
  }

  ghost predicate ExecsOk(cfg: Config, s: Sys) {
    forall j {:trigger ExecOk(cfg, s, j)} :: j in s.execs ==> ExecOk(cfg, s, j)
  }

  /** A Run some reconciler read empty, and may fail, has no Attempts and never will; one it listed was claimed. */
  ghost predicate DoomedOk(s: Sys) {
    && (forall r :: r in s.listed || r in s.doomed ==>
          r.job in s.db.runs && r.job in s.execs && !s.db.runs[r.job].status.RunQueued?)
    && (forall r :: r in s.doomed ==> CannotStart(s, r.job) && NoAttempts(s.db, r.job))
  }

  /** The same reconcilers have the same Runs on their lists. */
  predicate SameLists(s: Sys, s': Sys) { s'.doomed == s.doomed && s'.listed == s.listed }

  ghost predicate CoreInv(cfg: Config, s: Sys) {
    AttemptsOk(cfg, s.db) && RunsOk(cfg, s) && ExecsOk(cfg, s) && DoomedOk(s)
  }

  // ---------------------------------------------------------------- steps that change no status

  /** Same Runs, same Attempts, same statuses: leases, claims, children, owners, deliveries and sessions may differ. */
  ghost predicate SameStatuses(db: Db, db': Db) {
    && db'.runs == db.runs
    && db'.attempts.Keys == db.attempts.Keys
    && forall k :: k in db.attempts ==> db'.attempts[k].status == db.attempts[k].status
  }

  lemma QuietKeepsCore(cfg: Config, s: Sys, s': Sys)
    requires CoreInv(cfg, s) && SameStatuses(s.db, s'.db) && s'.execs == s.execs && SameLists(s, s')
    ensures CoreInv(cfg, s')
  {
    forall k | k in s'.db.attempts ensures AttemptOk(cfg, s'.db, k) { assert AttemptOk(cfg, s.db, k); }
    forall j | j in s'.db.runs ensures RunOk(cfg, s', j) {
      assert RunOk(cfg, s, j);
      if s.db.runs[j].status.RunSucceeded? {
        var n: nat :| AttemptKey(j, n) in s.db.attempts && s.db.attempts[AttemptKey(j, n)].status.AttemptSucceeded?;
        assert AttemptKey(j, n) in s'.db.attempts;
      }
    }
    forall j | j in s'.execs ensures ExecOk(cfg, s', j) { assert ExecOk(cfg, s, j); }
  }

  /** One executor moves to a stage that fits; the statuses stay. */
  lemma StageMoveKeepsCore(cfg: Config, s: Sys, s': Sys, j: JobId, stage: Stage)
    requires CoreInv(cfg, s) && SameStatuses(s.db, s'.db) && SameLists(s, s')
    requires j in s.execs && s'.execs == s.execs[j := s.execs[j].(stage := stage)]
    requires j in s.db.runs && StageOk(cfg, s, j, stage)
    requires CannotStart(s, j) ==> stage.Cancelled? || stage.Ended?
    ensures CoreInv(cfg, s')
  {
    var t := s.(db := s'.db);
    QuietKeepsCore(cfg, s, t);
    forall i | i in s'.db.runs ensures RunOk(cfg, s', i) { assert RunOk(cfg, t, i); }
    forall i | i in s'.execs ensures ExecOk(cfg, s', i) {
      assert ExecOk(cfg, t, if i == j then j else i);
      assert ExecOk(cfg, s, j);
    }
  }

  lemma LeaseCallIsQuiet(cfg: Config, s: Sys, op: Op)
    requires op.OpHeartbeatAttempt? || op.OpRecordProcess? || op.OpHeartbeatQueued? || ClaimCall(op)
    ensures SameStatuses(s.db, Apply(cfg.kind, s.db, s.now, op).db)
  {
    match op {
      case OpHeartbeatAttempt(_, _, _) =>
      case OpRecordProcess(_, _, _) =>
      case OpHeartbeatQueued(_, _) =>
      case OpClaimRecovery(_, _, _) =>
      case OpReleaseRecovery(_, _) =>
    }
  }

  lemma HostOrDeliveryCallIsQuiet(cfg: Config, s: Sys, op: Op)
    requires op.OpRead? || HostCall(op) || DeliveryCall(op)
    ensures SameStatuses(s.db, Apply(cfg.kind, s.db, s.now, op).db)
  {
    match op {
      case OpRead =>
      case OpStartSession(_, _) =>
      case OpHeartbeatSession(_, _) =>
      case OpEnqueue(_, _, _, _, _) =>
      case OpClaimRequest(_, _, _) =>
      case OpProcessStarted(_, _) =>
      case OpRecordWitness(_, _, _) =>
      case OpReleaseTerminal =>
    }
  }

  // ---------------------------------------------------------------- the numbering of Attempts

  /** Below any recorded Attempt every number is taken, by a retryable Attempt. */
  lemma {:induction false} Contiguous(cfg: Config, db: Db, j: JobId, n: nat, m: nat)
    requires AttemptsOk(cfg, db) && AttemptKey(j, n) in db.attempts && 1 <= m <= n
    ensures AttemptKey(j, m) in db.attempts
    ensures m < n ==> AttemptKey(j, m + 1) in db.attempts && db.attempts[AttemptKey(j, m)].status.AttemptRetryable?
    decreases n - m
  {
    assert AttemptOk(cfg, db, AttemptKey(j, n));
    if m < n {
      Contiguous(cfg, db, j, n, m + 1);
      assert AttemptOk(cfg, db, AttemptKey(j, m + 1));
    }
  }

  /** An Attempt that is not retryable is the last of its Run. */
  lemma UnretryableIsLast(cfg: Config, db: Db, k: AttemptKey)
    requires AttemptsOk(cfg, db) && k in db.attempts && !db.attempts[k].status.AttemptRetryable?
    ensures Numbered(db, k.job, k.no) && Following(k) !in db.attempts
    ensures forall m: nat :: 1 <= m < k.no ==>
              AttemptKey(k.job, m) in db.attempts && db.attempts[AttemptKey(k.job, m)].status.AttemptRetryable?
  {
    assert AttemptOk(cfg, db, k);
    forall m: nat ensures AttemptKey(k.job, m) in db.attempts <==> 1 <= m <= k.no {
      if AttemptKey(k.job, m) in db.attempts {
        assert AttemptOk(cfg, db, AttemptKey(k.job, m));
        if k.no < m { Contiguous(cfg, db, k.job, m, k.no); }
      } else if 1 <= m <= k.no {
        Contiguous(cfg, db, k.job, k.no, m);
      }
    }
    forall m: nat | 1 <= m < k.no
      ensures AttemptKey(k.job, m) in db.attempts && db.attempts[AttemptKey(k.job, m)].status.AttemptRetryable?
    {
      Contiguous(cfg, db, k.job, k.no, m);
    }
  }

  // ---------------------------------------------------------------- closing an Attempt

  /** A running Attempt takes another status and its Run follows: the shape of every completion. */
  ghost predicate Closes(db: Db, db': Db, k: AttemptKey, status: AttemptStatus, run: Run) {
    && IsRunning(db, k) && k.job in db.runs && !status.AttemptRunning?
    && db'.attempts.Keys == db.attempts.Keys
    && (forall i :: i in db.attempts && i != k ==> db'.attempts[i] == db.attempts[i])
    && db'.attempts[k].status == status
    && db'.runs == db.runs[k.job := run]
    && Fits(status, run.status, true) && VerdictOk(run) && !run.status.RunQueued?
    && (run.status.RunSucceeded? ==> status.AttemptSucceeded?)
  }

  lemma ClosingKeepsAttempts(cfg: Config, s: Sys, db': Db, k: AttemptKey, status: AttemptStatus, run: Run)
    requires CoreInv(cfg, s) && Closes(s.db, db', k, status, run)
    ensures AttemptsOk(cfg, db')
  {
    UnretryableIsLast(cfg, s.db, k);
    forall i | i in db'.attempts ensures AttemptOk(cfg, db', i) {
      assert AttemptOk(cfg, s.db, i);
      if i.job == k.job && i != k {
        assert i == AttemptKey(k.job, i.no);
        assert Following(i) == AttemptKey(k.job, i.no + 1);
      }
      assert 1 < i.no ==> Following(Previous(i)) == i;
    }
  }

  lemma ClosingKeepsCore(cfg: Config, s: Sys, s': Sys, k: AttemptKey, status: AttemptStatus, run: Run)
    requires CoreInv(cfg, s) && Closes(s.db, s'.db, k, status, run) && s'.execs == s.execs && SameLists(s, s')
    ensures CoreInv(cfg, s')
  {
    ClosingKeepsAttempts(cfg, s, s'.db, k, status, run);
    UnretryableIsLast(cfg, s.db, k);
    assert AttemptOk(cfg, s.db, k);
    assert k == AttemptKey(k.job, k.no);
    forall j | j in s'.db.runs ensures RunOk(cfg, s', j) {
      assert RunOk(cfg, s, j);
      if s'.db.runs[j].status.RunSucceeded? && j != k.job {
        var n: nat :| AttemptKey(j, n) in s.db.attempts && s.db.attempts[AttemptKey(j, n)].status.AttemptSucceeded?;
        assert AttemptKey(j, n) in s'.db.attempts;
      }
    }
    forall j | j in s'.execs ensures ExecOk(cfg, s', j) { assert ExecOk(cfg, s, j); }
  }

  // ---------------------------------------------------------------- completions

  /** The completions the callers make. */
  ghost predicate Proper(c: Completion) {
    && !c.attempt.AttemptRunning? && c.run.Terminal() && Fits(c.attempt, c.run, true)
    && (c.run.RunSucceeded? ==> c.attempt.AttemptSucceeded?)
    && forall r: Run :: r.verdict.trust.TrustUnknown? ==>
         VerdictOk(Run(c.run, r.spec, WriteFields(r.verdict, c.fields), r.updatedAt))
  }

  lemma CompletionsAreProper(cfg: Config, no: nat, o: Outcome, r: Report, x: Option<int>)
    requires !o.Broke? && (o.Returned? ==> InParserRange(o.report)) && InParserRange(r)
    ensures Proper(SettleCompletion(cfg, no, o)) && Proper(SupervisorCompletion(r, x)) && Proper(EXECUTION_ERROR)
  {
    ParserRangeAgrees(r, x);
    if o.Returned? { ParserRangeAgrees(o.report, o.exitCode); }
  }

  /**
   * Under the invariant a completion never finds its Run closed, so both stores take the same
   * all-or-nothing step.
   */
  lemma CompletionFindsRunOpen(cfg: Config, s: Sys, k: AttemptKey)
    requires CoreInv(cfg, s) && IsRunning(s.db, k)
    ensures RunOpen(s.db, k.job)
  {
    assert AttemptOk(cfg, s.db, k);
  }

  lemma FinalizeKeepsCore(cfg: Config, s: Sys, k: AttemptKey, token: Token, c: Completion, owner: Option<HostRef>)
    requires CoreInv(cfg, s) && Proper(c)
    ensures CoreInv(cfg, s.(db := FinalizeAttempt(cfg.kind, s.db, s.now, k, token, c, owner).db))
  {
    var r := FinalizeAttempt(cfg.kind, s.db, s.now, k, token, c, owner);
    if IsRunning(s.db, k) { CompletionFindsRunOpen(cfg, s, k); }
    if r.ok {
      assert RunOk(cfg, s, k.job);
      ClosingKeepsCore(cfg, s, s.(db := r.db), k, c.attempt, r.db.runs[k.job]);
    }
  }

  lemma FinalizeRecoveryKeepsCore(cfg: Config, s: Sys, k: AttemptKey, token: Token, error: ErrorType)
    requires CoreInv(cfg, s)
    ensures CoreInv(cfg, s.(db := FinalizeRecovery(cfg.kind, s.db, s.now, k, token, error).db))
  {
    var r := FinalizeRecovery(cfg.kind, s.db, s.now, k, token, error);
    if IsRunning(s.db, k) { CompletionFindsRunOpen(cfg, s, k); }
    if r.ok {
      assert RunOk(cfg, s, k.job);
      ClosingKeepsCore(cfg, s, s.(db := r.db), k, AttemptAbandoned, r.db.runs[k.job]);
    }
  }

  lemma TransitionKeepsCore(cfg: Config, s: Sys, k: AttemptKey, token: Token, error: Option<ErrorType>)
    requires CoreInv(cfg, s)
    ensures CoreInv(cfg, s.(db := TransitionAttempt(s.db, s.now, k, token, AttemptRetryable, error, Retryable).db))
  {
    var r := TransitionAttempt(s.db, s.now, k, token, AttemptRetryable, error, Retryable);
    if r.ok {
      CompletionFindsRunOpen(cfg, s, k);
      assert RunOk(cfg, s, k.job);
      assert r.db.runs == s.db.runs[k.job := s.db.runs[k.job]];
      ClosingKeepsCore(cfg, s, s.(db := r.db), k, AttemptRetryable, s.db.runs[k.job]);
    }
  }

  // ---------------------------------------------------------------- Runs that open, begin, or are written off

  lemma SubmitKeepsCore(cfg: Config, s: Sys, j: JobId, spec: SpecHash)
    requires CoreInv(cfg, s)
    ensures CoreInv(cfg, DoSubmit(cfg, s, j, spec))
  {
    var s' := DoSubmit(cfg, s, j, spec);
    if s'.db != s.db {
      forall k | k in s.db.attempts ensures k.job != j { assert AttemptOk(cfg, s.db, k); }
      assert j in s.execs ==> ExecOk(cfg, s, j);
      forall k | k in s'.db.attempts ensures AttemptOk(cfg, s'.db, k) { assert AttemptOk(cfg, s.db, k); }
      forall i | i in s'.db.runs ensures RunOk(cfg, s', i) {
        if i != j { RunKeptBySubmit(cfg, s, s', j, i); }
      }
      forall i | i in s'.execs ensures ExecOk(cfg, s', i) {
        if i != j { assert ExecOk(cfg, s, i); }
      }
    }
  }

  lemma RunKeptBySubmit(cfg: Config, s: Sys, s': Sys, j: JobId, i: JobId)
    requires i in s.db.runs && RunOk(cfg, s, i) && i != j
    requires i in s'.db.runs && s'.db.runs[i] == s.db.runs[i] && s'.db.attempts == s.db.attempts
    requires (i in s'.execs <==> i in s.execs)
    ensures RunOk(cfg, s', i)
  {
  }

  /** A Run without Attempts takes another status that is neither QUEUED nor SUCCEEDED; its verdict stays untrusted. */
  lemma RewriteKeepsCore(cfg: Config, s: Sys, s': Sys, j: JobId, run: Run, ex: Executor)
    requires CoreInv(cfg, s) && j in s.db.runs && NoAttempts(s.db, j)
    requires s'.db == s.db.(runs := s.db.runs[j := run]) && s'.execs == s.execs[j := ex]
    requires !run.status.RunQueued? && !run.status.RunSucceeded? && VerdictOk(run)
    requires s'.doomed <= s.doomed && s'.listed == s.listed
    requires (exists r :: r in s.doomed && r.job == j) ==> ex.stage.Cancelled? || ex.stage.Ended?
    requires StageOk(cfg, s', j, ex.stage)
    ensures CoreInv(cfg, s')
  {
    forall k | k in s'.db.attempts ensures AttemptOk(cfg, s'.db, k) {
      assert AttemptOk(cfg, s.db, k);
      assert k == AttemptKey(k.job, k.no);
    }
    forall i | i in s'.db.runs ensures RunOk(cfg, s', i) { assert RunOk(cfg, s, i); }
    forall i | i in s'.execs ensures ExecOk(cfg, s', i) {
      if i != j { assert ExecOk(cfg, s, i); }
    }
  }

  lemma ClaimRunKeepsCore(cfg: Config, s: Sys, j: JobId, mode: Mode, owner: Option<HostRef>)
    requires CoreInv(cfg, s) && !cfg.local
    ensures CoreInv(cfg, DoClaimRun(s, j, mode, owner))
  {
    var s' := DoClaimRun(s, j, mode, owner);
    if ClaimNextRun(s.db, s.now, j).ok {
      assert RunOk(cfg, s, j);
      RewriteKeepsCore(cfg, s, s', j, s'.db.runs[j], Executor(mode, owner, Pending));
    }
  }

  lemma BeginKeepsCore(cfg: Config, s: Sys, j: JobId)
    requires CoreInv(cfg, s) && Enabled(cfg, s, Begin(j)) && 1 <= cfg.maxAttempts
    ensures CoreInv(cfg, Next(cfg, s, Begin(j)))
  {
    var s' := Next(cfg, s, Begin(j));
    assert ExecOk(cfg, s, j) && RunOk(cfg, s, j);
    RewriteKeepsCore(cfg, s, s', j, s'.db.runs[j], s'.execs[j]);
  }

  lemma CancelWriteKeepsCore(cfg: Config, s: Sys, j: JobId)
    requires CoreInv(cfg, s) && Enabled(cfg, s, CancelWrite(j))
    ensures CoreInv(cfg, Next(cfg, s, CancelWrite(j)))
  {
    var s' := Next(cfg, s, CancelWrite(j));
    assert ExecOk(cfg, s, j) && RunOk(cfg, s, j);
    assert s'.execs == s.execs[j := s.execs[j]];
    RewriteKeepsCore(cfg, s, s', j, s'.db.runs[j], s.execs[j]);
  }

  lemma FailEmptyKeepsCore(cfg: Config, s: Sys, j: JobId, p: Token)
    requires CoreInv(cfg, s) && Enabled(cfg, s, FailEmpty(j, p))
    ensures CoreInv(cfg, Next(cfg, s, FailEmpty(j, p)))
  {
    var s' := Next(cfg, s, FailEmpty(j, p));
    assert Reading(j, p) in s.doomed;
    assert ExecOk(cfg, s, j) && RunOk(cfg, s, j);
    assert !s.db.runs[j].status.RunSucceeded? by {
      if HasSuccess(s.db, j) {
        var n: nat :| AttemptKey(j, n) in s.db.attempts && s.db.attempts[AttemptKey(j, n)].status.AttemptSucceeded?;
      }
    }
    assert s'.execs == s.execs[j := s.execs[j]];
    RewriteKeepsCore(cfg, s, s', j, s'.db.runs[j], s.execs[j]);
  }

  /** A reconciler lists a Run, reads it empty, or forgets it: no row changes. */
  lemma ListsKeepCore(cfg: Config, s: Sys, step: Step)
    requires CoreInv(cfg, s) && cfg.onlyDead && Enabled(cfg, s, step) && (step.List? || step.SeeEmpty? || step.Forget?)
    ensures CoreInv(cfg, Next(cfg, s, step))
  {
    var s' := Next(cfg, s, step);
    assert step.job in s.db.runs ==> RunOk(cfg, s, step.job);
    forall i | i in s'.db.runs ensures RunOk(cfg, s', i) { assert RunOk(cfg, s, i); }
    forall i | i in s'.execs ensures ExecOk(cfg, s', i) { assert ExecOk(cfg, s, i); }
  }

  lemma RecordKeepsAttempts(cfg: Config, s: Sys, j: JobId)
    requires CoreInv(cfg, s) && j in s.execs && s.execs[j].stage.Looping?
    ensures AttemptsOk(cfg, DoRecord(s, j).db)
  {
    var db, db', n := s.db, DoRecord(s, j).db, s.execs[j].stage.no;
    var k := AttemptKey(j, n);
    assert ExecOk(cfg, s, j);
    assert k !in db.attempts && db' == db.(attempts := db.attempts[k := FRESH_ATTEMPT]);
    forall i | i in db'.attempts ensures AttemptOk(cfg, db', i) {
      if i != k {
        assert AttemptOk(cfg, db, i);
        assert i == AttemptKey(i.job, i.no);
      } else if 1 < n {
        assert Previous(k) == AttemptKey(j, n - 1);
      }
    }
  }

  lemma RecordKeepsRuns(cfg: Config, s: Sys, j: JobId)
    requires CoreInv(cfg, s) && j in s.execs && s.execs[j].stage.Looping?
    ensures RunsOk(cfg, DoRecord(s, j))
  {
    var s' := DoRecord(s, j);
    assert ExecOk(cfg, s, j);
    forall i | i in s'.db.runs ensures RunOk(cfg, s', i) {
      assert RunOk(cfg, s, i);
      if s.db.runs[i].status.RunSucceeded? {
        var m: nat :| AttemptKey(i, m) in s.db.attempts && s.db.attempts[AttemptKey(i, m)].status.AttemptSucceeded?;
        assert AttemptKey(i, m) in s'.db.attempts;
      }
    }
  }

  lemma RecordKeepsCore(cfg: Config, s: Sys, j: JobId)
    requires CoreInv(cfg, s) && j in s.execs && s.execs[j].stage.Looping?
    ensures CoreInv(cfg, DoRecord(s, j))
  {
    var s' := DoRecord(s, j);
    assert ExecOk(cfg, s, j);
    RecordKeepsAttempts(cfg, s, j);
    RecordKeepsRuns(cfg, s, j);
    forall i | i in s'.execs ensures ExecOk(cfg, s', i) { assert ExecOk(cfg, s, i); }
  }

  // ---------------------------------------------------------------- executor steps

  lemma AcquireKeepsCore(cfg: Config, s: Sys, j: JobId, token: Token)
    requires CoreInv(cfg, s) && j in s.execs && s.execs[j].stage.Recorded?
    ensures CoreInv(cfg, DoAcquire(cfg, s, j, token))
  {
    var s' := DoAcquire(cfg, s, j, token);
    assert ExecOk(cfg, s, j);
    StageMoveKeepsCore(cfg, s, s', j, s'.execs[j].stage);
  }

  lemma RegisterKeepsCore(cfg: Config, s: Sys, j: JobId, x: ExecutionId)
    requires CoreInv(cfg, s) && j in s.execs && s.execs[j].stage.Leased?
    ensures CoreInv(cfg, DoRegister(s, j, x))
  {
    var s' := DoRegister(s, j, x);
    assert ExecOk(cfg, s, j);
    StageMoveKeepsCore(cfg, s, s', j, s'.execs[j].stage);
  }

  lemma DispatchKeepsCore(cfg: Config, s: Sys, j: JobId)
    requires CoreInv(cfg, s) && j in s.execs && s.execs[j].stage.Registered?
    ensures CoreInv(cfg, DoDispatch(s, j)) && CoreInv(cfg, DoStartAdapter(s, j))
  {
    var s' := DoDispatch(s, j);
    assert ExecOk(cfg, s, j);
    StageMoveKeepsCore(cfg, s, s', j, s'.execs[j].stage);
    var s'' := DoStartAdapter(s, j);
    StageMoveKeepsCore(cfg, s, s'', j, s''.execs[j].stage);
  }

  lemma ReturnKeepsCore(cfg: Config, s: Sys, j: JobId, o: Outcome)
    requires CoreInv(cfg, s) && j in s.execs && s.execs[j].stage.Executing? && (o.Returned? ==> InParserRange(o.report))
    ensures CoreInv(cfg, DoReturn(cfg, s, j, o))
  {
    var s' := DoReturn(cfg, s, j, o);
    assert ExecOk(cfg, s, j);
    StageMoveKeepsCore(cfg, s, s', j, s'.execs[j].stage);
  }

  /** After the database half of a step has kept the invariant, the executor moves on. */
  lemma MoveAfterKeepsCore(cfg: Config, t: Sys, s': Sys, j: JobId)
    requires CoreInv(cfg, t) && j in t.execs && !CannotStart(t, j)
    requires j in s'.execs && s'.db == t.db && SameLists(t, s')
    requires s'.execs == t.execs[j := t.execs[j].(stage := s'.execs[j].stage)]
    requires j in t.db.runs && StageOk(cfg, t, j, s'.execs[j].stage)
    ensures CoreInv(cfg, s')
  {
    StageMoveKeepsCore(cfg, t, s', j, s'.execs[j].stage);
  }

  lemma SettleKeepsCore(cfg: Config, s: Sys, j: JobId)
    requires CoreInv(cfg, s) && j in s.execs && s.execs[j].stage.Settling?
    ensures CoreInv(cfg, DoSettle(cfg, s, j))
  {
    var s', ex, st := DoSettle(cfg, s, j), s.execs[j], s.execs[j].stage;
    var k := AttemptKey(j, st.no);
    var t := s.(db := s'.db);
    assert ExecOk(cfg, s, j);
    if st.outcome.Broke? {
    } else if st.outcome.Transient() && st.no < cfg.maxAttempts {
      TransitionKeepsCore(cfg, s, k, st.token, Some(st.outcome.Error()));
      if IsRunning(s.db, k) { CompletionFindsRunOpen(cfg, s, k); }
    } else {
      CompletionsAreProper(cfg, st.no, st.outcome, if st.outcome.Returned? then st.outcome.report else BROKEN, None);
      FinalizeKeepsCore(cfg, s, k, st.token, SettleCompletion(cfg, st.no, st.outcome), ex.owner);
    }
    assert ExecOk(cfg, t, j);
    MoveAfterKeepsCore(cfg, t, s', j);
  }

  const BROKEN := Report(ParseInvalid, CheckUnknown, false, FindingUnknown, FindingUnknown)

  lemma FailKeepsCore(cfg: Config, s: Sys, j: JobId)
    requires CoreInv(cfg, s) && j in s.execs && s.execs[j].stage.Failing?
    ensures CoreInv(cfg, DoFail(cfg, s, j))
  {
    var s', ex, st := DoFail(cfg, s, j), s.execs[j], s.execs[j].stage;
    var t := s.(db := s'.db);
    CompletionsAreProper(cfg, st.no, TimedOut, BROKEN, None);
    FinalizeKeepsCore(cfg, s, AttemptKey(j, st.no), st.token, EXECUTION_ERROR, ex.owner);
    assert ExecOk(cfg, t, j);
    MoveAfterKeepsCore(cfg, t, s', j);
  }

  // ---------------------------------------------------------------- every step

  lemma BystanderKeepsCore(cfg: Config, s: Sys, op: Op)
    requires CoreInv(cfg, s) && Harmless(op)
    ensures CoreInv(cfg, s.(db := Apply(cfg.kind, s.db, s.now, op).db))
  {
    if op.OpFinalizeRecovery? {
      FinalizeRecoveryKeepsCore(cfg, s, op.k, op.token, op.failure);
    } else {
      if op.OpRead? || HostCall(op) || DeliveryCall(op) { HostOrDeliveryCallIsQuiet(cfg, s, op); }
      else { LeaseCallIsQuiet(cfg, s, op); }
      QuietKeepsCore(cfg, s, s.(db := Apply(cfg.kind, s.db, s.now, op).db));
    }
  }

  lemma SupervisorKeepsCore(cfg: Config, s: Sys, e: ExecutionId, sup: SupervisorId, r: Report, x: Option<int>)
    requires CoreInv(cfg, s) && e in s.db.requests && InParserRange(r)
    ensures CoreInv(cfg, DoSupervisorClaim(s, e, sup)) && CoreInv(cfg, DoSupervisorFinalize(cfg, s, e, r, x))
  {
    QuietKeepsCore(cfg, s, DoSupervisorClaim(s, e, sup));
    CompletionsAreProper(cfg, 1, TimedOut, r, x);
    var q := s.db.requests[e];
    FinalizeKeepsCore(cfg, s, q.key, q.leaseToken, SupervisorCompletion(r, x), Some(q.owner));
  }

  lemma ExecutorStepKeepsCore(cfg: Config, s: Sys, step: Step)
    requires CoreInv(cfg, s) && 1 <= cfg.maxAttempts && Enabled(cfg, s, step)
    requires ExecutorStep(step)
    ensures CoreInv(cfg, Next(cfg, s, step))
  {
    assert ExecOk(cfg, s, step.job);
    match step {
      case CancelFuture(j) => StageMoveKeepsCore(cfg, s, Next(cfg, s, step), j, Cancelled(false));
      case CancelWrite(j) => CancelWriteKeepsCore(cfg, s, j);
      case Notice(j) => StageMoveKeepsCore(cfg, s, Next(cfg, s, step), j, Cancelled(true));
      case Begin(j) => BeginKeepsCore(cfg, s, j);
      case Record(j) => RecordKeepsCore(cfg, s, j);
      case Acquire(j, token) => AcquireKeepsCore(cfg, s, j, token);
      case Register(j, x) => RegisterKeepsCore(cfg, s, j, x);
      case Dispatch(j) => DispatchKeepsCore(cfg, s, j);
      case StartAdapter(j) => DispatchKeepsCore(cfg, s, j);
      case Return(j, o) => ReturnKeepsCore(cfg, s, j, o);
      case Settle(j) => SettleKeepsCore(cfg, s, j);
      case Fail(j) => FailKeepsCore(cfg, s, j);
      case Crash(j) => StageMoveKeepsCore(cfg, s, Next(cfg, s, step), j, Ended(false));
    }
  }

  /** Under H, every step of every process keeps the invariant. */
  lemma NextKeepsCore(cfg: Config, s: Sys, step: Step)
    requires CoreInv(cfg, s) && cfg.onlyDead && 1 <= cfg.maxAttempts && Enabled(cfg, s, step)
    ensures CoreInv(cfg, Next(cfg, s, step))
  {
    match step {
      case Tick(_) => QuietKeepsCore(cfg, s, Next(cfg, s, step));
      case Submit(j, spec) => SubmitKeepsCore(cfg, s, j, spec);
      case ClaimRun(j, mode, owner) => ClaimRunKeepsCore(cfg, s, j, mode, owner);
      case SupervisorClaim(e, sup) => SupervisorKeepsCore(cfg, s, e, sup, BROKEN, None);
      case SupervisorStart(_) => QuietKeepsCore(cfg, s, Next(cfg, s, step));
      case SupervisorStop(_) => QuietKeepsCore(cfg, s, Next(cfg, s, step));
      case SupervisorFinalize(e, r, x) => SupervisorKeepsCore(cfg, s, e, 0, r, x);
      case List(j, _) => ListsKeepCore(cfg, s, step);
      case SeeEmpty(j, _) => ListsKeepCore(cfg, s, step);
      case FailEmpty(j, p) => FailEmptyKeepsCore(cfg, s, j, p);
      case Forget(j, _) => ListsKeepCore(cfg, s, step);
      case Bystander(op) => BystanderKeepsCore(cfg, s, op);
      case _ => ExecutorStepKeepsCore(cfg, s, step);
    }
  }

  /** The invariant holds in every state of every behavior. */
  lemma {:induction false} AlwaysCore(b: Behavior, i: nat)
    requires b.Valid() && b.cfg.onlyDead && i <= |b.steps|
    ensures CoreInv(b.cfg, b.states[i])
  {
    if 0 < i {
      AlwaysCore(b, i - 1);
      assert b.Takes(i - 1);
      NextKeepsCore(b.cfg, b.states[i - 1], b.steps[i - 1]);
    }
  }
}
