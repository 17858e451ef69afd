/** How much work one host can have outstanding: the load that bounds dispatch (worker.py `drain`). */
module Dispatch {
  import opened Prelude
  import opened Acceptance
  import opened Tables
  import opened StoreOps
  import opened History
  import opened Protocol
  import opened OnceOnly

  /** Runs claimed for a host whose executor may still dispatch them: neither ended nor cancelled before it began. */
  function Undispatched(s: Sys, host: HostId): set<JobId> {
    set j | j in s.execs && OnItsWay(s.execs[j], host)
  }

  predicate OnItsWay(ex: Executor, host: HostId) {
    && ex.mode.Supervised? && ex.owner.Some? && ex.owner.value.host == host
    && !ex.stage.Ended? && !ex.stage.Cancelled?
  }

  /** Active deliveries of a host plus Runs claimed for it and not yet dispatched. */
  function Load(s: Sys, host: HostId): nat {
    |ActiveFor(s.db, host)| + |Undispatched(s, host)|
  }

  predicate ClaimsFor(step: Step, host: HostId) {
    step.ClaimRun? && step.mode.Supervised? && step.owner.Some? && step.owner.value.host == host
  }

  /** Store calls other than an enqueue activate no delivery. */
  ghost predicate NoneActivated(db: Db, db': Db) {
    forall e :: e in db'.requests && db'.requests[e].status.Active() ==>
      e in db.requests && db.requests[e].status.Active() && db.requests[e].host == db'.requests[e].host
  }

  lemma NoneActivatedBounds(s: Sys, s': Sys, host: HostId)
    requires NoneActivated(s.db, s'.db)
    requires forall j :: j in s'.execs && OnItsWay(s'.execs[j], host) ==> j in s.execs && OnItsWay(s.execs[j], host)
    ensures Load(s', host) <= Load(s, host) && Undispatched(s', host) <= Undispatched(s, host)
  {
    SubsetCount(ActiveFor(s'.db, host), ActiveFor(s.db, host));
    SubsetCount(Undispatched(s', host), Undispatched(s, host));
  }

  /** A delivery is added for `host`, and the Run it delivers leaves the undispatched ones. */
  lemma EnqueuedBounds(s: Sys, s': Sys, j: JobId, e: ExecutionId, host: HostId)
    requires e !in s.db.requests && j in Undispatched(s, host)
    requires ActiveFor(s'.db, host) <= ActiveFor(s.db, host) + {e}
    requires Undispatched(s', host) <= Undispatched(s, host) - {j}
    ensures Load(s', host) <= Load(s, host) && Undispatched(s', host) <= Undispatched(s, host)
  {
    SubsetCount(ActiveFor(s'.db, host), ActiveFor(s.db, host) + {e});
    SubsetCount(Undispatched(s', host), Undispatched(s, host) - {j});
  }

  /** Dispatch moves one Run from "claimed" to "delivered": the load does not grow. */
  lemma DispatchKeepsLoad(cfg: Config, s: Sys, j: JobId, host: HostId)
    requires Enabled(cfg, s, Dispatch(j))
    ensures Load(DoDispatch(s, j), host) <= Load(s, host)
    ensures Undispatched(DoDispatch(s, j), host) <= Undispatched(s, host)
  {
    var s', ex := DoDispatch(s, j), s.execs[j];
    if ex.owner.Some? && ex.stage.execution !in s.db.requests && ex.owner.value.host == host {
      EnqueuedBounds(s, s', j, ex.stage.execution, host);
    } else {
      SubsetCount(ActiveFor(s'.db, host), ActiveFor(s.db, host));
      SubsetCount(Undispatched(s', host), Undispatched(s, host));
    }
  }

  /** An executor that was alive moves on, and no delivery is activated. */
  lemma MoveKeepsLoad(s: Sys, s': Sys, j: JobId, stage: Stage, host: HostId)
    requires NoneActivated(s.db, s'.db) && j in s.execs && !s.execs[j].stage.Ended?
    requires s.execs[j].stage.Cancelled? ==> stage.Cancelled? || stage.Ended?
    requires s'.execs == s.execs[j := s.execs[j].(stage := stage)]
    ensures Load(s', host) <= Load(s, host) && Undispatched(s', host) <= Undispatched(s, host)
  {
    NoneActivatedBounds(s, s', host);
  }

  lemma AttemptCallActivatesNone(cfg: Config, s: Sys, op: Op)
    requires op.OpHeartbeatAttempt? || op.OpRecordProcess? || op.OpHeartbeatQueued? || ClaimCall(op)
      || op.OpFinalizeRecovery?
    ensures NoneActivated(s.db, Apply(cfg.kind, s.db, s.now, op).db)
  {
    match op {
      case OpHeartbeatAttempt(_, _, _) =>
      case OpRecordProcess(_, _, _) =>
      case OpHeartbeatQueued(_, _) =>
      case OpClaimRecovery(_, _, _) =>
      case OpReleaseRecovery(_, _) =>
      case OpFinalizeRecovery(_, _, _) =>
    }
  }

  lemma HostOrDeliveryCallActivatesNone(cfg: Config, s: Sys, op: Op)
    requires op.OpRead? || HostCall(op) || (DeliveryCall(op) && !op.OpEnqueue?)
    ensures NoneActivated(s.db, Apply(cfg.kind, s.db, s.now, op).db)
  {
    match op {
      case OpRead =>
      case OpStartSession(_, _) =>
      case OpHeartbeatSession(_, _) =>
      case OpClaimRequest(_, _, _) =>
      case OpProcessStarted(_, _) =>
      case OpRecordWitness(_, _, _) =>
      case OpReleaseTerminal =>
    }
  }

  lemma SettleTouchesNoDelivery(cfg: Config, s: Sys, j: JobId)
    requires j in s.execs && s.execs[j].stage.Settling?
    ensures DoSettle(cfg, s, j).db.requests == s.db.requests
  {
  }

  lemma SettleKeepsLoad(cfg: Config, s: Sys, j: JobId, host: HostId)
    requires j in s.execs && s.execs[j].stage.Settling?
    ensures Load(DoSettle(cfg, s, j), host) <= Load(s, host)
    ensures Undispatched(DoSettle(cfg, s, j), host) <= Undispatched(s, host)
  {
    var s' := DoSettle(cfg, s, j);
    SettleTouchesNoDelivery(cfg, s, j);
    MoveKeepsLoad(s, s', j, s'.execs[j].stage, host);
  }

  lemma ExecutorStepKeepsLoad(cfg: Config, s: Sys, step: Step, host: HostId)
    requires Enabled(cfg, s, step) && ExecutorStep(step)
    ensures Load(Next(cfg, s, step), host) <= Load(s, host)
    ensures Undispatched(Next(cfg, s, step), host) <= Undispatched(s, host)
  {
    match step {
      case CancelFuture(j) => MoveKeepsLoad(s, Next(cfg, s, step), j, Cancelled(false), host);
      case CancelWrite(j) => NoneActivatedBounds(s, Next(cfg, s, step), host);
      case Notice(j) => MoveKeepsLoad(s, Next(cfg, s, step), j, Cancelled(true), host);
      case Begin(j) => MoveKeepsLoad(s, Next(cfg, s, step), j, Looping(1), host);
      case Record(j) => MoveKeepsLoad(s, DoRecord(s, j), j, DoRecord(s, j).execs[j].stage, host);
      case Acquire(j, token) =>
        MoveKeepsLoad(s, DoAcquire(cfg, s, j, token), j, DoAcquire(cfg, s, j, token).execs[j].stage, host);
      case Register(j, x) => MoveKeepsLoad(s, DoRegister(s, j, x), j, DoRegister(s, j, x).execs[j].stage, host);
      case Dispatch(j) => DispatchKeepsLoad(cfg, s, j, host);
      case StartAdapter(j) => MoveKeepsLoad(s, DoStartAdapter(s, j), j, DoStartAdapter(s, j).execs[j].stage, host);
      case Return(j, o) => MoveKeepsLoad(s, DoReturn(cfg, s, j, o), j, DoReturn(cfg, s, j, o).execs[j].stage, host);
      case Settle(j) => SettleKeepsLoad(cfg, s, j, host);
      case Fail(j) => MoveKeepsLoad(s, DoFail(cfg, s, j), j, DoFail(cfg, s, j).execs[j].stage, host);
      case Crash(j) => MoveKeepsLoad(s, To(s, s.db, j, Ended(false)), j, Ended(false), host);
    }
  }

  lemma BystanderKeepsLoad(cfg: Config, s: Sys, op: Op, host: HostId)
    requires Harmless(op)
    ensures var s' := s.(db := Apply(cfg.kind, s.db, s.now, op).db);
            Load(s', host) <= Load(s, host) && Undispatched(s', host) <= Undispatched(s, host)
  {
    if op.OpRead? || HostCall(op) || DeliveryCall(op) { HostOrDeliveryCallActivatesNone(cfg, s, op); }
    else { AttemptCallActivatesNone(cfg, s, op); }
    NoneActivatedBounds(s, s.(db := Apply(cfg.kind, s.db, s.now, op).db), host);
  }

  /** Clients, the clock, other hosts' workers, Supervisors and reconcilers. */
  lemma OtherStepKeepsLoad(cfg: Config, s: Sys, step: Step, host: HostId)
    requires Enabled(cfg, s, step) && StartInv(cfg, s) && !ClaimsFor(step, host)
    requires !ExecutorStep(step) && !step.Bystander?
    ensures Load(Next(cfg, s, step), host) <= Load(s, host)
    ensures Undispatched(Next(cfg, s, step), host) <= Undispatched(s, host)
  {
    var s' := Next(cfg, s, step);
    match step {
      case Tick(_) =>
      case Submit(_, _) =>
      case ClaimRun(_, _, _) =>
      case SupervisorClaim(_, _) =>
      case SupervisorStart(_) =>
      case SupervisorStop(_) =>
      case SupervisorFinalize(_, _, _) =>
      case List(_, _) =>
      case SeeEmpty(_, _) =>
      case FailEmpty(_, _) =>
      case Forget(_, _) =>
    }
    NoneActivatedBounds(s, s', host);
  }

  /** No step of anyone raises a host's load, except a worker of that host claiming a Run. */
  lemma NextKeepsLoad(cfg: Config, s: Sys, step: Step, host: HostId)
    requires Enabled(cfg, s, step) && StartInv(cfg, s) && !ClaimsFor(step, host)
    ensures Load(Next(cfg, s, step), host) <= Load(s, host)
    ensures Undispatched(Next(cfg, s, step), host) <= Undispatched(s, host)
  {
    if ExecutorStep(step) {
      ExecutorStepKeepsLoad(cfg, s, step, host);
    } else if step.Bystander? {
      BystanderKeepsLoad(cfg, s, step.op, host);
    } else {
      OtherStepKeepsLoad(cfg, s, step, host);
    }
  }

  lemma ClaimRaisesLoadByOne(cfg: Config, s: Sys, j: JobId, owner: HostRef)
    requires Enabled(cfg, s, ClaimRun(j, Supervised, Some(owner)))
    ensures var s' := DoClaimRun(s, j, Supervised, Some(owner));
            Load(s', owner.host) <= Load(s, owner.host) + 1
            && Undispatched(s', owner.host) <= Undispatched(s, owner.host) + {j}
  {
    var s' := DoClaimRun(s, j, Supervised, Some(owner));
    assert ActiveFor(s'.db, owner.host) == ActiveFor(s.db, owner.host);
    SubsetCount(Undispatched(s', owner.host), Undispatched(s, owner.host) + {j});
  }
}
