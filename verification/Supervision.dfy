/**
 * One turn of a Supervisor: claim a delivery, run it, witness its end, finalize under the fence
 * (execution_supervisor.py).
 */
module Supervision {
  import opened Prelude
  import opened Acceptance
  import opened Tables
  import opened StoreOps
  import opened History
  import opened StoreObject
  import opened Columns
  import opened Protocol
  import opened ProtocolInvariant
  import opened ProtocolTheorems
  import opened Deliveries
  import opened ClusterObject

  /** How `adapter.run` ends under a Supervisor; of an `Unreadable` artifact `parse_report` raises. */
  datatype Ending = Broken | Unreadable(exitCode: Option<int>) | Exited(report: Report, exitCode: Option<int>)

  /**
   * How `run_once` ends. `Failed` re-raises the adapter's error, `Unparsed` the parser's; `FenceLost` is the
   * RuntimeError of a refused finalization.
   */
  datatype Turn =
    | Idle
    | Failed(execution: ExecutionId)
    | Unparsed(execution: ExecutionId)
    | FenceLost(execution: ExecutionId)
    | Accomplished(execution: ExecutionId)

  // ---------------------------------------------------------------- what the others leave to the holder of a delivery

  /** A delivery some Supervisor has taken up: from now on a witness of it ends it. */
  ghost predicate TakenUp(db: Db, e: ExecutionId) {
    e in db.requests && !db.requests[e].status.DeliveryQueued?
    && (e in db.witnesses ==> !db.requests[e].status.Active())
  }

  lemma CallKeepsTakenUp(h: History, e: ExecutionId)
    requires h.Valid() && |h.events| == 1 && TakenUp(h.rows[0], e)
    ensures TakenUp(h.rows[1], e)
  {
    var op := h.events[0].op;
    LedgerStep(h, 0, e);
    if DeliveryCall(op) { DeliveryCallKeepsTakenUp(h, e); }
    else if RunCall(op) { RunCallFrame(h, 0); }
    else if HostCall(op) { HostCallFrame(h, 0); }
    else if ClaimCall(op) { ClaimCallFrame(h, 0); }
    else if LeaseCall(op) { LeaseCallFrame(h, 0); }
    else { CompletionCallFrame(h, 0); }
  }

  lemma DeliveryCallKeepsTakenUp(h: History, e: ExecutionId)
    requires h.Valid() && |h.events| == 1 && TakenUp(h.rows[0], e) && DeliveryCall(h.events[0].op)
    ensures TakenUp(h.rows[1], e)
  {
    assert h.Step(0);
    match h.events[0].op {
      case OpEnqueue(_, _, _, _, _) =>
      case OpClaimRequest(_, _, _) =>
      case OpProcessStarted(_, _) =>
      case OpRecordWitness(_, _, _) =>
      case OpReleaseTerminal =>
    }
  }

  /**
   * The delivery of `e` only moves up, its witness stays, its Supervisor's program counter stays, starts are never
   * forgotten.
   */
  ghost predicate Respects(s: Sys, s': Sys, e: ExecutionId) {
    && LedgerGrew(s.db, s'.db, e) && (TakenUp(s.db, e) ==> TakenUp(s'.db, e))
    && (e in s.sups ==> e in s'.sups && s'.sups[e] == s.sups[e])
    && s.starts <= s'.starts
  }

  lemma ForeignNextKeepsSupervisor(cfg: Config, s: Sys, step: Step, e: ExecutionId)
    requires Enabled(cfg, s, step) && !Owns(SupervisorOf(e), step)
    ensures e in s.sups ==> e in Next(cfg, s, step).sups && Next(cfg, s, step).sups[e] == s.sups[e]
    ensures s.starts <= Next(cfg, s, step).starts
  {
  }

  lemma NextGrowsLedger(cfg: Config, s: Sys, step: Step, e: ExecutionId)
    requires Enabled(cfg, s, step)
    ensures LedgerGrew(s.db, Next(cfg, s, step).db, e)
    ensures TakenUp(s.db, e) ==> TakenUp(Next(cfg, s, step).db, e)
  {
    StepIsOneCall(cfg, s, step);
    var h := History(cfg.kind, [s.db, Next(cfg, s, step).db], [Event(s.now, CallOf(cfg, s, step))]);
    assert h.Step(0);
    LedgerStep(h, 0, e);
    if TakenUp(s.db, e) { CallKeepsTakenUp(h, e); }
  }

  lemma {:induction false} OthersRespect(b: Behavior, from: nat, to: nat, e: ExecutionId)
    requires b.Valid() && from <= to <= |b.steps|
    requires forall i :: from <= i < to ==> !Owns(SupervisorOf(e), b.steps[i])
    ensures Respects(b.states[from], b.states[to], e)
  {
    if from < to {
      OthersRespect(b, from, to - 1, e);
      assert b.Takes(to - 1);
      ForeignNextKeepsSupervisor(b.cfg, b.states[to - 1], b.steps[to - 1], e);
      NextGrowsLedger(b.cfg, b.states[to - 1], b.steps[to - 1], e);
    }
  }

  /** What the Supervisor's completion writes: SUCCEEDED and TRUSTED go together, and mean an accepted result. */
  lemma SupervisorVerdict(r: Report, x: Option<int>)
    requires InParserRange(r)
    ensures var c := SupervisorCompletion(r, x);
            && c.fields == Validated(ValidationFields(r, x))
            && (c.run.RunSucceeded? <==> SupervisedDecision(r, x).Accept?)
            && (c.run.RunSucceeded? <==> ValidationFields(r, x).trust.Trusted?)
            && (c.run.RunSucceeded? || c.run.RunFailed?)
  {
    ParserRangeAgrees(r, x);
  }

  /** The completion of `e` is accepted in `s`: the delivery is completable, and its Run is RUNNING. */
  ghost predicate Accepted(s: Sys, e: ExecutionId) {
    Completable(s, e) && RunOpen(s.db, s.db.requests[e].key.job)
  }

  /**
   * What the completion did: accepted, Attempt and Run carry the verdict of the report; refused, nothing changed, but
   * for the half PostgreSQL commits where, without H, only the Run is closed.
   */
  ghost predicate Judged(cfg: Config, s: Sys, s': Sys, e: ExecutionId, ok: bool, r: Report, x: Option<int>) {
    && (ok <==> Accepted(s, e))
    && (ok ==> Concluded(s, s', s.db.requests[e].key, r, x))
    && (!ok && (cfg.onlyDead || cfg.kind.Sqlite? || !Completable(s, e)) ==> s' == s)
  }

  lemma FinalizeJudges(cfg: Config, s: Sys, e: ExecutionId, q: Request, r: Report, x: Option<int>)
    requires e in s.db.requests && MovedUp(q, s.db.requests[e]) && PayloadsOk(s) && (cfg.onlyDead ==> CoreInv(cfg, s))
    ensures var reply := FinalizeAttempt(cfg.kind, s.db, s.now, q.key, q.leaseToken, SupervisorCompletion(r, x),
                                         Some(q.owner));
            var s' := DoSupervisorFinalize(cfg, s, e, r, x);
            s'.db == reply.db && Judged(cfg, s, s', e, reply.ok, r, x)
  {
    CompletionAcceptedExactlyWhen(cfg, s, e, r, x);
    if cfg.onlyDead { UnderHAcceptedExactlyWhen(cfg, s, e, r, x); }
  }

  /** Step `at` of the run records this observation of the execution's end. */
  ghost predicate Observes(b: Behavior, at: nat, e: ExecutionId, kind: WitnessKind, exitCode: Option<int>) {
    at < |b.steps| && b.steps[at] == Bystander(OpRecordWitness(e, kind, exitCode))
  }

  /** Step `n` of the run is the fenced completion. */
  ghost predicate Finalizes(b: Behavior, n: nat, e: ExecutionId, ending: Ending)
    requires ending.Exited?
  {
    n < |b.steps| && b.steps[n] == SupervisorFinalize(e, ending.report, ending.exitCode)
  }

  /** The last step of the run is the fenced completion, and the turn says what came of it. */
  ghost predicate Settled(b: Behavior, turn: Turn, ending: Ending)
    requires |b.states| == |b.steps| + 1 && ending.Exited? && !turn.Idle?
  {
    && b.steps != [] && Finalizes(b, |b.steps| - 1, turn.execution, ending)
    && (turn.Accomplished? || turn.FenceLost?)
    && Judged(b.cfg, b.states[|b.steps| - 1], Last(b), turn.execution, turn.Accomplished?, ending.report,
              ending.exitCode)
  }

  /**
   * What was observed: an adapter that raised leaves RUNTIME_TERMINATED without an exit code; one that returned leaves
   * PROCESS_EXITED with its exit code, and the fenced completion is tried only after that. It is the last thing a turn
   * does, and the turn reports success exactly if it was accepted.
   */
  ghost predicate Reported(b: Behavior, at: nat, turn: Turn, ending: Ending)
    requires |b.states| == |b.steps| + 1 && !turn.Idle?
  {
    if turn.Failed? then Observes(b, at, turn.execution, RuntimeTerminated, None)
    else
      && !ending.Broken? && Observes(b, at, turn.execution, ProcessExited, ending.exitCode)
      && (if ending.Unreadable? then turn.Unparsed? else at < |b.steps| - 1 && Settled(b, turn, ending))
  }

  /** Step `noted` of the run reports the started child to the delivery, and is refused exactly if `refused`. */
  ghost predicate Notes(b: Behavior, noted: nat, e: ExecutionId, me: SupervisorId, refused: bool)
    requires |b.states| == |b.steps| + 1
  {
    && noted < |b.steps| && b.steps[noted] == Bystander(OpProcessStarted(e, me)) && e in b.states[noted].db.requests
    && var q := b.states[noted].db.requests[e];
       refused <==> !(q.status == DeliveryClaimed && q.supervisor == Some(me))
  }

  /** The observation is what the delivery's witness says, unless there was one before. */
  ghost predicate Evidenced(b: Behavior, at: nat, e: ExecutionId, kind: WitnessKind, exitCode: Option<int>)
    requires |b.states| == |b.steps| + 1
  {
    && at < |b.steps| && e in b.states[at + 1].db.witnesses
    && b.states[at + 1].db.witnesses[e] ==
         if e in b.states[at].db.witnesses then b.states[at].db.witnesses[e]
         else Witness(kind, exitCode, b.states[at].now)
  }

  /** Runs, Attempts, sessions and hosts are as they were, and time has passed. */
  ghost predicate SameFence(s: Sys, s': Sys) {
    s'.db.runs == s.db.runs && s'.db.attempts == s.db.attempts && SameHosts(s.db, s'.db) && s.now <= s'.now
  }

  lemma AcceptedNow(s: Sys, s': Sys, now: real, e: ExecutionId)
    requires SameFence(s, s') && e in s.db.requests && e in s'.db.requests
    requires s'.db.requests[e].key == s.db.requests[e].key
    ensures Accepted(s'.(now := now), e) <==> Accepted(s.(now := now), e)
  {
  }

  lemma RespectsTransitive(r: Sys, s: Sys, t: Sys, e: ExecutionId)
    requires Respects(r, s, e) && Respects(s, t, e)
    ensures Respects(r, t, e)
  {
  }

  lemma EvidencedStays(b: Behavior, c: Behavior, at: nat, e: ExecutionId, kind: WitnessKind, exitCode: Option<int>)
    requires |b.states| == |b.steps| + 1 && |c.states| == |c.steps| + 1 && Continues(b, c)
    requires Observes(b, at, e, kind, exitCode) && Evidenced(b, at, e, kind, exitCode)
    ensures Observes(c, at, e, kind, exitCode) && Evidenced(c, at, e, kind, exitCode)
  {
  }

  lemma NotesStay(b: Behavior, c: Behavior, noted: nat, e: ExecutionId, me: SupervisorId, refused: bool)
    requires |b.states| == |b.steps| + 1 && |c.states| == |c.steps| + 1 && Continues(b, c)
    requires Notes(b, noted, e, me, refused)
    ensures Notes(c, noted, e, me, refused)
  {
  }

  /** One call recording a witness. */
  lemma WitnessRecorded(cfg: Config, s: Sys, e: ExecutionId, kind: WitnessKind, exitCode: Option<int>)
    requires e in s.db.requests
    ensures var s' := Next(cfg, s, Bystander(OpRecordWitness(e, kind, exitCode)));
            && Respects(s, s', e) && SameFence(s, s') && e in s'.db.witnesses
            && s'.db.witnesses[e] ==
                 (if e in s.db.witnesses then s.db.witnesses[e] else Tables.Witness(kind, exitCode, s.now))
  {
    NextGrowsLedger(cfg, s, Bystander(OpRecordWitness(e, kind, exitCode)), e);
  }

  /** One call recording the started child. */
  lemma StartNoted(cfg: Config, s: Sys, e: ExecutionId, me: SupervisorId)
    requires e in s.db.requests
    ensures var s' := Next(cfg, s, Bystander(OpProcessStarted(e, me)));
            && Respects(s, s', e) && SameFence(s, s')
            && (ProcessStarted(s.db, e, me).ok <==>
                  s.db.requests[e].status == DeliveryClaimed && s.db.requests[e].supervisor == Some(me))
  {
    NextGrowsLedger(cfg, s, Bystander(OpProcessStarted(e, me)), e);
  }

  /** Where nobody interferes the outcome is known from the rows the turn began with, and the time at its end. */
  lemma AcceptedLater(s: Sys, s': Sys, e: ExecutionId)
    requires SameFence(s, s') && e in s.db.requests && e in s'.db.requests
    requires s'.db.requests[e].key == s.db.requests[e].key
    ensures Accepted(s', e) <==> Accepted(s.(now := s'.now), e)
  {
  }

  predicate NothingWaits(db: Db, host: HostId) { forall e :: e in db.requests ==> !Waiting(db, e, host) }

  class Supervisor {
    const cluster: Cluster
    const host: HostId
    const me: SupervisorId
    const turns: seq<seq<Step>>
    var t: nat

    constructor (cluster: Cluster, host: HostId, me: SupervisorId, turns: seq<seq<Step>>)
      ensures this.cluster == cluster && this.host == host && this.me == me && this.turns == turns && this.t == 0
    {
      this.cluster, this.host, this.me, this.turns, this.t := cluster, host, me, turns, 0;
    }

    /** While the turn lasts nobody else does anything but let time go by. */
    ghost predicate Alone() { forall i :: 0 <= i < |turns| ==> forall step :: step in turns[i] ==> step.Tick? }

    /** The others take their turn. */
    method Yield(e: ExecutionId)
      requires cluster.Valid()
      modifies this, cluster, cluster.store
      ensures cluster.Valid() && Continues(old(cluster.log), cluster.log)
      ensures Respects(old(cluster.Now()), cluster.Now(), e)
      ensures Alone() ==>
        cluster.Now() == old(cluster.Now()).(now := cluster.Now().now) && old(cluster.Now()).now <= cluster.Now().now
    {
      ghost var before := |cluster.log.steps|;
      if t < |turns| {
        cluster.Others(turns[t], SupervisorOf(e));
        t := t + 1;
      }
      OthersRespect(cluster.log, before, |cluster.log.steps|, e);
      if Alone() { TicksKeepRows(cluster.log, before, |cluster.log.steps|); }
    }

    /** Claim the oldest delivery queued for this host. */
    method Claim() returns (claimed: Option<ExecutionId>)
      requires cluster.Valid()
      modifies cluster, cluster.store
      ensures cluster.Valid() && Continues(old(cluster.log), cluster.log)
      ensures claimed.None? ==> cluster.log == old(cluster.log) && NothingWaits(cluster.Now().db, host)
      ensures SameFence(old(cluster.Now()), cluster.Now())
      ensures claimed.Some? ==>
        && var e, db, db' := claimed.value, old(cluster.Now()).db, cluster.Now().db;
           && Waiting(db, e, host)
           && (forall f :: Waiting(db, f, host) ==> db.requests[e].createdAt <= db.requests[f].createdAt)
           && db' == db.(requests :=
                db.requests[e := db.requests[e].(status := DeliveryClaimed, supervisor := Some(me))])
           && e in cluster.Now().sups && cluster.Now().sups[e].SupervisorClaimed?
    {
      claimed := cluster.store.ClaimExecutionRequest(host, me);
      if claimed.Some? {
        cluster.Took(SupervisorClaim(claimed.value, me));
      }
    }

    /** The adapter is started. */
    method Start(e: ExecutionId)
      requires cluster.Valid() && e in cluster.Now().sups && cluster.Now().sups[e].SupervisorClaimed?
      modifies cluster
      ensures cluster.Valid() && Continues(old(cluster.log), cluster.log)
      ensures cluster.Now().db == old(cluster.Now()).db && cluster.Now().now == old(cluster.Now()).now
      ensures e in cluster.Now().sups && cluster.Now().sups[e].SupervisorRunning?
      ensures SupervisedStart(e) in cluster.Now().starts
    {
      cluster.Took(SupervisorStart(e));
      assert cluster.Now().starts[|cluster.Now().starts| - 1] == SupervisedStart(e);
    }

    /** Report the started child to the delivery. */
    method Note(e: ExecutionId) returns (recorded: bool)
      requires cluster.Valid() && e in cluster.Now().db.requests
      modifies cluster, cluster.store
      ensures cluster.Valid() && Continues(old(cluster.log), cluster.log)
      ensures Respects(old(cluster.Now()), cluster.Now(), e) && SameFence(old(cluster.Now()), cluster.Now())
      ensures Notes(cluster.log, |old(cluster.log).steps|, e, me, !recorded)
    {
      StartNoted(cluster.log.cfg, cluster.Now(), e, me);
      recorded := cluster.store.RecordSupervisorProcessStarted(e, me);
      cluster.Took(Bystander(OpProcessStarted(e, me)));
    }

    /**
     * The adapter runs; the started child, if it is reported, is recorded, and a refusal to record it breaks the run.
     */
    method RunAdapter(e: ExecutionId, ending: Ending, reportsChild: bool) returns (ended: Ending, ghost noted: nat)
      requires cluster.Valid() && e in cluster.Now().db.requests
      modifies this, cluster, cluster.store
      ensures cluster.Valid() && Continues(old(cluster.log), cluster.log)
      ensures Respects(old(cluster.Now()), cluster.Now(), e)
      ensures ended == ending || (reportsChild && ended.Broken?)
      ensures reportsChild && !ending.Broken? ==>
        |old(cluster.log).steps| <= noted && Notes(cluster.log, noted, e, me, ended.Broken?)
      ensures Alone() ==> SameFence(old(cluster.Now()), cluster.Now())
      ensures Alone() && ClaimedByMe(old(cluster.Now()).db, e) ==> ended == ending
    {
      ghost var s := cluster.Now();
      Yield(e);
      ended, noted := ending, |cluster.log.steps|;
      if reportsChild {
        ghost var s1 := cluster.Now();
        var recorded := Note(e);
        RespectsTransitive(s, s1, cluster.Now(), e);
        if !recorded { return Broken, noted; }
      }
    }

    ghost predicate ClaimedByMe(db: Db, e: ExecutionId) {
      e in db.requests && db.requests[e].status == DeliveryClaimed && db.requests[e].supervisor == Some(me)
    }

    /** Persist what was observed of the execution's end: the first witness is kept. */
    method Witness(e: ExecutionId, kind: WitnessKind, exitCode: Option<int>)
      requires cluster.Valid() && e in cluster.Now().db.requests
      modifies this, cluster, cluster.store
      ensures cluster.Valid() && Continues(old(cluster.log), cluster.log)
      ensures Respects(old(cluster.Now()), cluster.Now(), e)
      ensures |old(cluster.log).steps| < |cluster.log.steps|
      ensures Observes(cluster.log, |cluster.log.steps| - 1, e, kind, exitCode)
      ensures Evidenced(cluster.log, |cluster.log.steps| - 1, e, kind, exitCode)
      ensures Alone() ==> SameFence(old(cluster.Now()), cluster.Now())
    {
      ghost var r := cluster.Now();
      Yield(e);
      ghost var s := cluster.Now();
      Record(e, kind, exitCode);
      RespectsTransitive(r, s, cluster.Now(), e);
    }

    method Record(e: ExecutionId, kind: WitnessKind, exitCode: Option<int>)
      requires cluster.Valid() && e in cluster.Now().db.requests
      modifies cluster, cluster.store
      ensures cluster.Valid() && Continues(old(cluster.log), cluster.log)
      ensures Respects(old(cluster.Now()), cluster.Now(), e) && SameFence(old(cluster.Now()), cluster.Now())
      ensures |cluster.log.steps| == |old(cluster.log).steps| + 1
      ensures Observes(cluster.log, |old(cluster.log).steps|, e, kind, exitCode)
      ensures Evidenced(cluster.log, |old(cluster.log).steps|, e, kind, exitCode)
    {
      WitnessRecorded(cluster.log.cfg, cluster.Now(), e, kind, exitCode);
      var recorded := cluster.store.RecordTerminationWitness(cluster.Now().now, e, kind, exitCode);
      cluster.Took(Bystander(OpRecordWitness(e, kind, exitCode)));
    }

    /** The fenced terminal write, from the payload of the claimed delivery: accepted exactly if it may be. */
    method Finalize(e: ExecutionId, q: Request, r: Report, exitCode: Option<int>) returns (ok: bool)
      requires cluster.Valid() && e in cluster.Now().db.requests && MovedUp(q, cluster.Now().db.requests[e])
      requires e in cluster.Now().sups && cluster.Now().sups[e].SupervisorRunning? && InParserRange(r)
      modifies this, cluster, cluster.store
      ensures cluster.Valid() && Continues(old(cluster.log), cluster.log)
      ensures |old(cluster.log).steps| < |cluster.log.steps|
      ensures Respects(old(cluster.Now()), cluster.Now(), e)
      ensures var n := |cluster.log.steps| - 1;
              && cluster.log.steps[n] == SupervisorFinalize(e, r, exitCode)
              && Judged(cluster.log.cfg, cluster.log.states[n], cluster.Now(), e, ok, r, exitCode)
              && cluster.log.states[n].now == cluster.Now().now
              && (Alone() ==> SameFence(old(cluster.Now()), cluster.log.states[n]))
              && e in cluster.log.states[n].db.requests
              && cluster.log.states[n].db.requests[e].key == q.key
    {
      ghost var r0 := cluster.Now();
      Yield(e);
      ghost var s := cluster.Now();
      ok := Conclusion(e, q, r, exitCode);
      RespectsTransitive(r0, s, cluster.Now(), e);
    }

    method Conclusion(e: ExecutionId, q: Request, r: Report, exitCode: Option<int>) returns (ok: bool)
      requires cluster.Valid() && e in cluster.Now().db.requests && MovedUp(q, cluster.Now().db.requests[e])
      requires e in cluster.Now().sups && cluster.Now().sups[e].SupervisorRunning? && InParserRange(r)
      modifies cluster, cluster.store
      ensures cluster.Valid() && Continues(old(cluster.log), cluster.log)
      ensures cluster.log.steps == old(cluster.log).steps + [SupervisorFinalize(e, r, exitCode)]
      ensures cluster.log.states[|old(cluster.log).steps|] == old(cluster.Now())
      ensures Respects(old(cluster.Now()), cluster.Now(), e) && cluster.Now().now == old(cluster.Now()).now
      ensures Judged(cluster.log.cfg, old(cluster.Now()), cluster.Now(), e, ok, r, exitCode)
    {
      ghost var s, n := cluster.Now(), |cluster.log.steps|;
      NextGrowsLedger(cluster.log.cfg, s, SupervisorFinalize(e, r, exitCode), e);
      AlwaysCarries(cluster.log, n);
      if cluster.log.cfg.onlyDead { AlwaysCore(cluster.log, n); }
      FinalizeJudges(cluster.log.cfg, s, e, q, r, exitCode);
      ok := cluster.store.FinalizeAttemptAndRun(
        cluster.Now().now, q.key, q.leaseToken, SupervisorCompletion(r, exitCode), Some(q.owner));
      cluster.Took(SupervisorFinalize(e, r, exitCode));
    }

    /** How a turn went whose delivery was claimed. */
    ghost predicate Done(b: Behavior, from: nat, at: nat, noted: nat, turn: Turn, ending: Ending, reportsChild: bool)
      requires |b.states| == |b.steps| + 1 && !turn.Idle?
    {
      && from <= at && Reported(b, at, turn, ending)
      && Evidenced(b, at, turn.execution, if turn.Failed? then RuntimeTerminated else ProcessExited,
                   if turn.Failed? then None else ending.exitCode)
      && (reportsChild && !ending.Broken? ==> from <= noted && Notes(b, noted, turn.execution, me, turn.Failed?))
      && (!reportsChild ==> (turn.Failed? <==> ending.Broken?))
    }

    /** The adapter raised. */
    method GiveUp(e: ExecutionId, ended: Ending) returns (turn: Turn, ghost at: nat)
      requires cluster.Valid() && e in cluster.Now().db.requests && ended.Broken?
      modifies this, cluster, cluster.store
      ensures cluster.Valid() && Continues(old(cluster.log), cluster.log)
      ensures Respects(old(cluster.Now()), cluster.Now(), e)
      ensures turn == Failed(e) && |old(cluster.log).steps| <= at && Reported(cluster.log, at, turn, ended)
      ensures Evidenced(cluster.log, at, e, RuntimeTerminated, None)
    {
      Witness(e, RuntimeTerminated, None);
      turn, at := Failed(e), |cluster.log.steps| - 1;
    }

    /** Everything after the claim. */
    method Deliver(e: ExecutionId, ending: Ending, reportsChild: bool)
      returns (turn: Turn, ghost at: nat, ghost noted: nat)
      requires cluster.Valid() && e in cluster.Now().db.requests && (ending.Exited? ==> InParserRange(ending.report))
      requires e in cluster.Now().sups && cluster.Now().sups[e].SupervisorClaimed?
      modifies this, cluster, cluster.store
      ensures cluster.Valid() && Continues(old(cluster.log), cluster.log)
      ensures !turn.Idle? && turn.execution == e
      ensures Done(cluster.log, |old(cluster.log).steps|, at, noted, turn, ending, reportsChild)
      ensures SupervisedStart(e) in cluster.Now().starts
      ensures TakenUp(old(cluster.Now()).db, e) ==> TakenUp(cluster.Now().db, e)
      ensures Alone() && ClaimedByMe(old(cluster.Now()).db, e) && ending.Exited? ==>
        !turn.Failed? && (turn.Accomplished? <==> Accepted(old(cluster.Now()).(now := cluster.Now().now), e))
    {
      var q := cluster.Now().db.requests[e];
      ghost var s, from := cluster.Now(), |cluster.log.steps|;
      var ended;
      ended, noted := Perform(e, ending, reportsChild);
      ghost var ran := cluster.log;
      if ended.Broken? {
        turn, at := GiveUp(e, ended);
      } else {
        turn, at := Conclude(e, q, ended);
        if Alone() { AcceptedNow(s, Last(ran), cluster.Now().now, e); }
      }
      TurnIsDone(ran, cluster.log, from, at, noted, turn, ending, ended, reportsChild);
    }

    /** The adapter is started and runs. */
    method Perform(e: ExecutionId, ending: Ending, reportsChild: bool) returns (ended: Ending, ghost noted: nat)
      requires cluster.Valid() && e in cluster.Now().db.requests
      requires e in cluster.Now().sups && cluster.Now().sups[e].SupervisorClaimed?
      modifies this, cluster, cluster.store
      ensures cluster.Valid() && Continues(old(cluster.log), cluster.log)
      ensures e in cluster.Now().db.requests && MovedUp(old(cluster.Now()).db.requests[e], cluster.Now().db.requests[e])
      ensures e in cluster.Now().sups && cluster.Now().sups[e].SupervisorRunning?
      ensures SupervisedStart(e) in cluster.Now().starts
      ensures TakenUp(old(cluster.Now()).db, e) ==> TakenUp(cluster.Now().db, e)
      ensures ended == ending || (reportsChild && ended.Broken?)
      ensures reportsChild && !ending.Broken? ==>
        |old(cluster.log).steps| <= noted && Notes(cluster.log, noted, e, me, ended.Broken?)
      ensures Alone() ==> SameFence(old(cluster.Now()), cluster.Now())
      ensures Alone() && ClaimedByMe(old(cluster.Now()).db, e) ==> ended == ending
    {
      Start(e);
      ended, noted := RunAdapter(e, ending, reportsChild);
    }

    lemma TurnIsDone(ran: Behavior, b: Behavior, from: nat, at: nat, noted: nat, turn: Turn, ending: Ending,
                     ended: Ending, reportsChild: bool)
      requires |ran.states| == |ran.steps| + 1 && |b.states| == |b.steps| + 1 && Continues(ran, b) && !turn.Idle?
      requires from <= at && (ended == ending || (reportsChild && ended.Broken?)) && (turn.Failed? <==> ended.Broken?)
      requires reportsChild && !ending.Broken? ==>
        from <= noted && Notes(ran, noted, turn.execution, me, ended.Broken?)
      requires Reported(b, at, turn, ended)
      requires if turn.Failed? then Evidenced(b, at, turn.execution, RuntimeTerminated, None)
               else Evidenced(b, at, turn.execution, ProcessExited, ended.exitCode)
      ensures Done(b, from, at, noted, turn, ending, reportsChild)
    {
      if reportsChild && !ending.Broken? { NotesStay(ran, b, noted, turn.execution, me, ended.Broken?); }
    }

    /** The adapter returned: witness first; then, if the artifact can be parsed, the fenced completion. */
    method Conclude(e: ExecutionId, q: Request, ending: Ending) returns (turn: Turn, ghost at: nat)
      requires cluster.Valid() && e in cluster.Now().db.requests && MovedUp(q, cluster.Now().db.requests[e])
      requires e in cluster.Now().sups && cluster.Now().sups[e].SupervisorRunning?
      requires !ending.Broken? && (ending.Exited? ==> InParserRange(ending.report))
      modifies this, cluster, cluster.store
      ensures cluster.Valid() && Continues(old(cluster.log), cluster.log)
      ensures Respects(old(cluster.Now()), cluster.Now(), e)
      ensures turn == Unparsed(e) || turn == Accomplished(e) || turn == FenceLost(e)
      ensures |old(cluster.log).steps| <= at && Reported(cluster.log, at, turn, ending)
      ensures Evidenced(cluster.log, at, e, ProcessExited, ending.exitCode)
      ensures Alone() && ending.Exited? ==>
        (turn.Accomplished? <==> Accepted(old(cluster.Now()).(now := cluster.Now().now), e))
    {
      ghost var r := cluster.Now();
      Witness(e, ProcessExited, ending.exitCode);
      ghost var s, witnessed := cluster.Now(), cluster.log;
      at := |cluster.log.steps| - 1;
      if ending.Unreadable? { return Unparsed(e), at; }
      turn := Settle(e, q, ending);
      RespectsTransitive(r, s, cluster.Now(), e);
      EvidencedStays(witnessed, cluster.log, at, e, ProcessExited, ending.exitCode);
      if Alone() { AcceptedNow(r, s, cluster.Now().now, e); }
    }

    /** The fenced completion, and what the turn then says. */
    method Settle(e: ExecutionId, q: Request, ending: Ending) returns (turn: Turn)
      requires cluster.Valid() && e in cluster.Now().db.requests && MovedUp(q, cluster.Now().db.requests[e])
      requires e in cluster.Now().sups && cluster.Now().sups[e].SupervisorRunning?
      requires ending.Exited? && InParserRange(ending.report)
      modifies this, cluster, cluster.store
      ensures cluster.Valid() && Continues(old(cluster.log), cluster.log)
      ensures |old(cluster.log).steps| < |cluster.log.steps|
      ensures Respects(old(cluster.Now()), cluster.Now(), e)
      ensures (turn == Accomplished(e) || turn == FenceLost(e)) && Settled(cluster.log, turn, ending)
      ensures Alone() ==> (turn.Accomplished? <==> Accepted(old(cluster.Now()).(now := cluster.Now().now), e))
    {
      ghost var s := cluster.Now();
      var ok := Finalize(e, q, ending.report, ending.exitCode);
      turn := if ok then Accomplished(e) else FenceLost(e);
      if Alone() { AcceptedLater(s, cluster.log.states[|cluster.log.steps| - 1], e); }
    }

    /**
     * One turn. A claimed delivery is started here, once, and leaves a witness however the turn ends; unless it had
     * been witnessed while still queued, it is then no longer active. The turn fails exactly if the adapter broke or
     * the started child could not be recorded. If the artifact can be parsed the turn ends with the fenced completion,
     * and reports success exactly if that was accepted: Attempt RUNNING, lease and session live, no live claim, Run
     * RUNNING. Attempt and Run are then closed, SUCCEEDED and TRUSTED exactly if the result is acceptable; a refused
     * completion changes nothing under H. A turn that nobody disturbs succeeds exactly if lease and session, as they
     * were when it began, last to its end.
     */
    method RunOnce(ending: Ending, reportsChild: bool) returns (turn: Turn, ghost at: nat, ghost noted: nat)
      requires cluster.Valid() && (ending.Exited? ==> InParserRange(ending.report))
      modifies this, cluster, cluster.store
      ensures cluster.Valid() && Continues(old(cluster.log), cluster.log)
      ensures turn.Idle? <==> NothingWaits(old(cluster.Now()).db, host)
      ensures turn.Idle? ==> cluster.log == old(cluster.log)
      ensures !turn.Idle? ==>
        && Waiting(old(cluster.Now()).db, turn.execution, host)
        && Done(cluster.log, |old(cluster.log).steps|, at, noted, turn, ending, reportsChild)
        && SupervisedStart(turn.execution) in cluster.Now().starts
        && (turn.execution !in old(cluster.Now()).db.witnesses ==> TakenUp(cluster.Now().db, turn.execution))
      ensures Alone() && !turn.Idle? && ending.Exited? ==>
        && !turn.Failed?
        && (turn.Accomplished? <==> Accepted(old(cluster.Now()).(now := cluster.Now().now), turn.execution))
    {
      at, noted := 0, 0;
      ghost var s := cluster.Now();
      var claimed := Claim();
      if claimed.None? { return Idle, 0, 0; }
      ghost var s1 := cluster.Now();
      turn, at, noted := Deliver(claimed.value, ending, reportsChild);
      AcceptedNow(s, s1, cluster.Now().now, claimed.value);
    }
  }
}
