/** Facts about one executor while the other processes act, and what its retry loop amounts to when they do not. */
module ExecutorLoop {
  import opened Prelude
  import opened Acceptance
  import opened Tables
  import opened StoreOps
  import opened History
  import opened Protocol
  import opened ProtocolInvariant
  import opened ProtocolTheorems
  import opened OnceOnly
  import opened Columns
  import opened ClusterObject

  /**
   * The terminal write of an undisturbed in-process execution: the first outcome, from Attempt `no` on, that is not a
   * timeout or transport failure decides; if every remaining Attempt meets one of those, the last Attempt's does.
   */
  function Fate(cfg: Config, no: nat, outcome: nat -> Outcome): Completion
    requires 1 <= no <= cfg.maxAttempts
    decreases cfg.maxAttempts - no
  {
    if outcome(no).Broke? then EXECUTION_ERROR
    else if outcome(no).Transient() && no < cfg.maxAttempts then Fate(cfg, no + 1, outcome)
    else SettleCompletion(cfg, no, outcome(no))
  }

  /** Attempt `n` decides the fate of an execution that begins at Attempt `no`. */
  predicate Decides(cfg: Config, no: nat, n: nat, outcome: nat -> Outcome) {
    && no <= n <= cfg.maxAttempts
    && (forall m :: no <= m < n ==> outcome(m).Transient())
    && (!outcome(n).Transient() || n == cfg.maxAttempts)
  }

  /** Exactly one Attempt decides, and it succeeds precisely on an accepted result. */
  lemma {:induction false} FateIsDecided(cfg: Config, no: nat, outcome: nat -> Outcome) returns (n: nat)
    requires 1 <= no <= cfg.maxAttempts
    ensures Decides(cfg, no, n, outcome) && forall m: nat :: Decides(cfg, no, m, outcome) ==> m == n
    ensures Fate(cfg, no, outcome) ==
      if outcome(n).Broke? then EXECUTION_ERROR else SettleCompletion(cfg, n, outcome(n))
    ensures Fate(cfg, no, outcome).run.RunSucceeded? <==>
              outcome(n).Returned? && LocalDecision(outcome(n).report, outcome(n).exitCode).Accept?
    decreases cfg.maxAttempts - no
  {
    if outcome(no).Transient() && no < cfg.maxAttempts {
      n := FateIsDecided(cfg, no + 1, outcome);
      forall m: nat | Decides(cfg, no, m, outcome) ensures m == n {
        assert m != no;
        assert Decides(cfg, no + 1, m, outcome);
      }
    } else {
      n := no;
      forall m: nat | Decides(cfg, no, m, outcome) ensures m == n {
        assert m > no ==> outcome(no).Transient();
      }
    }
  }

  // ---------------------------------------------------------------- what the rows say of an outcome

  /** The reason a returned result is not accepted. */
  function ReasonFor(r: Report, x: Option<int>): ErrorType {
    if r.parse.ParseInvalid? then ErrorParseInvalid
    else if r.semantic.FindingInvalid? then ErrorSemanticInvalid
    else if x.None? then ErrorOutcomeUnknown
    else ErrorToolExit
  }

  /** What the Attempt row says of how the adapter ended. */
  function RulingFor(o: Outcome): Ruling {
    match o
    case Returned(r, x) =>
      if Evidence(Verdict(r, Trusted, x)) then Ruling(AttemptSucceeded, None, NotApplicable)
      else Ruling(AttemptFailed, Some(ReasonFor(r, x)), NonRetryable)
    case ChildCancelled => Ruling(AttemptCancelled, Some(ErrorCancelled), NonRetryable)
    case TimedOut => Ruling(AttemptRetryable, Some(ErrorTimeout), Retryable)
    case TransportFailed => Ruling(AttemptRetryable, Some(ErrorTransport), Retryable)
    case Broke => Ruling(AttemptFailed, Some(ErrorExecution), NonRetryable)
  }

  /** What the Run row says once the execution ends so; `v` is the verdict it had. */
  function StandingFor(o: Outcome, v: Verdict): Standing {
    match o
    case Returned(r, x) =>
      if Evidence(Verdict(r, Trusted, x)) then Standing(RunSucceeded, Verdict(r, Trusted, x))
      else Standing(RunFailed, Verdict(r, if Disproved(r, x) then TrustInvalid else TrustUnknown, x))
    case ChildCancelled => Standing(RunCancelled, v.(trust := TrustInvalid))
    case TimedOut => Standing(RunTimedOut, v.(trust := TrustInvalid))
    case TransportFailed => Standing(RunFailed, v.(trust := TrustInvalid))
    case Broke => Standing(RunFailed, v)
  }

  /**
   * However the adapter ends, the terminal write says so in both rows: a last timeout is TIMED_OUT, a last transport
   * failure FAILED, either of them retryable and untrusted; a rejected result names its reason and keeps its report; a
   * broken adapter leaves the verdict alone.
   */
  lemma EveryOutcomeHasItsRows(cfg: Config, no: nat, o: Outcome, v: Verdict)
    requires o.Returned? ==> InParserRange(o.report)
    ensures var c := if o.Broke? then EXECUTION_ERROR else SettleCompletion(cfg, no, o);
            && Ruling(c.attempt, c.error, c.retry) == RulingFor(o)
            && Standing(c.run, WriteFields(v, c.fields)) == StandingFor(o, v)
    ensures o.Transient() ==> RulingFor(o) == Ruling(AttemptRetryable, Some(o.Error()), Retryable)
  {
  }

  lemma FailRules(cfg: Config, s: Sys, j: JobId)
    requires j in s.execs && s.execs[j].stage.Failing?
    ensures var s', k := DoFail(cfg, s, j), AttemptKey(j, s.execs[j].stage.no);
            s'.execs[j].stage == Ended(true) ==> k in s'.db.attempts && RulingOf(s'.db.attempts[k]) == RulingFor(Broke)
  {
  }

  // ---------------------------------------------------------------- an executor among the others

  /** Nobody but the executor's own thread, or a caller cancelling it, moves its program counter. */
  lemma ForeignStepKeepsExecutor(b: Behavior, i: nat, j: JobId)
    requires b.Valid() && i < |b.steps| && !Owns(ExecutorOf(j), b.steps[i]) && j in b.states[i].execs
    ensures j in b.states[i + 1].execs && b.states[i + 1].execs[j] == b.states[i].execs[j]
  {
    AlwaysStarts(b, i);
    assert ExecutorKnown(b.cfg, b.states[i], j);
    assert b.Takes(i);
    ForeignNextKeepsExecutor(b.cfg, b.states[i], b.steps[i], j);
  }

  lemma ForeignNextKeepsExecutor(cfg: Config, s: Sys, step: Step, j: JobId)
    requires Enabled(cfg, s, step) && !Owns(ExecutorOf(j), step) && j in s.execs && ExecutorKnown(cfg, s, j)
    ensures j in Next(cfg, s, step).execs && Next(cfg, s, step).execs[j] == s.execs[j]
  {
    match step {
      case Tick(_) =>
      case Submit(_, _) =>
      case ClaimRun(_, _, _) =>
      case CancelFuture(_) =>
      case CancelWrite(_) =>
      case Notice(_) =>
      case Begin(_) =>
      case Record(_) =>
      case Acquire(_, _) =>
      case Register(_, _) =>
      case Dispatch(_) =>
      case StartAdapter(_) =>
      case Return(_, _) =>
      case Settle(_) =>
      case Fail(_) =>
      case Crash(_) =>
      case SupervisorClaim(_, _) =>
      case SupervisorStart(_) =>
      case SupervisorStop(_) =>
      case SupervisorFinalize(_, _, _) =>
      case List(_, _) =>
      case SeeEmpty(_, _) =>
      case FailEmpty(_, _) =>
      case Forget(_, _) =>
      case Bystander(_) =>
    }
  }

  lemma {:induction false} OthersKeepExecutor(b: Behavior, from: nat, to: nat, j: JobId)
    requires b.Valid() && from <= to <= |b.steps| && j in b.states[from].execs
    requires forall i :: from <= i < to ==> !Owns(ExecutorOf(j), b.steps[i])
    ensures j in b.states[to].execs && b.states[to].execs[j] == b.states[from].execs[j]
  {
    if from < to {
      OthersKeepExecutor(b, from, to - 1, j);
      ForeignStepKeepsExecutor(b, to - 1, j);
    }
  }

  /** A cancelled future stays cancelled as long as its process lives. */
  lemma {:induction false} OthersKeepCancelled(b: Behavior, from: nat, to: nat, j: JobId)
    requires b.Valid() && from <= to <= |b.steps|
    requires j in b.states[from].execs && b.states[from].execs[j].stage.Cancelled?
    requires forall i :: from <= i < to ==> !Owns(CancellerOf(j), b.steps[i])
    ensures j in b.states[to].execs && b.states[to].execs[j].stage.Cancelled?
  {
    if from < to {
      OthersKeepCancelled(b, from, to - 1, j);
      if b.steps[to - 1] == Notice(j) {
        assert b.Takes(to - 1);
      } else {
        ForeignStepKeepsExecutor(b, to - 1, j);
      }
    }
  }

  // ---------------------------------------------------------------- an executor that is refused nothing

  /** At step `i` the executor of `j` is thrown off its course, though the adapter did not break. */
  ghost predicate Refused(b: Behavior, i: nat, j: JobId)
    requires |b.states| == |b.steps| + 1 && i < |b.steps|
  {
    var step, s' := b.steps[i], b.states[i + 1];
    && (step.Acquire? || step.Register? || step.Dispatch? || step.Return? || step.Settle? || step.Fail?)
    && step.job == j
    && j in s'.execs && (s'.execs[j].stage.Failing? || s'.execs[j].stage == Ended(false))
    && !(step.Return? && step.outcome.Broke?)
  }

  /** It is so exactly when the Store refuses the call it makes. */
  lemma RefusedExactlyWhen(cfg: Config, s: Sys, step: Step)
    requires Enabled(cfg, s, step)
    requires step.Acquire? || step.Register? || step.Dispatch? || step.Return? || step.Settle? || step.Fail?
    requires s.execs[step.job].mode.InProcess? || s.execs[step.job].owner.Some?
    requires step.Settle? ==> !s.execs[step.job].stage.outcome.Broke?
    ensures Refused(Behavior(cfg, [s, Next(cfg, s, step)], [step]), 0, step.job) <==>
              !Apply(cfg.kind, s.db, s.now, CallOf(cfg, s, step)).ok
  {
    match step {
      case Acquire(_, _) =>
      case Register(_, _) =>
      case Dispatch(_) =>
      case Return(_, _) =>
      case Settle(_) =>
      case Fail(_) =>
    }
  }

  /** From `from` on none of the executor's own calls was refused. */
  ghost predicate Untroubled(b: Behavior, from: nat, j: JobId)
    requires |b.states| == |b.steps| + 1
  {
    forall i: nat :: from <= i < |b.steps| ==> !Refused(b, i, j)
  }

  lemma UntroubledBefore(b: Behavior, c: Behavior, from: nat, j: JobId)
    requires |b.states| == |b.steps| + 1 && |c.states| == |c.steps| + 1 && Continues(b, c) && Untroubled(c, from, j)
    ensures Untroubled(b, from, j)
  {
    forall i: nat | from <= i < |b.steps| ensures !Refused(b, i, j) { assert !Refused(c, i, j); }
  }

  // ---------------------------------------------------------------- an executor left alone

  /**
   * The executor can write its outcome: its lease is live and unclaimed, its owner's session is, and the Run is open.
   */
  predicate CanClose(s: Sys, j: JobId, no: nat, token: Token) {
    && j in s.execs && RunOpen(s.db, j)
    && Fenced(s.db, s.now, AttemptKey(j, no), token) && OwnerFence(s.db, s.now, AttemptKey(j, no), s.execs[j].owner)
  }

  /** The executor's owner, if it has one, is a live current session of that host and epoch. */
  predicate OwnerLive(s: Sys, j: JobId) {
    && j in s.execs
    && (s.execs[j].owner.Some? ==>
          SessionLive(s.db, s.execs[j].owner.value.session, s.now) && OwnerAgrees(s.db, s.execs[j].owner.value))
  }
}
