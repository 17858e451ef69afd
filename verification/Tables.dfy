/** The durable rows every process shares: the schema of the Run / Attempt / lease / delivery protocol. */
module Tables {
  import opened Prelude
  import opened Acceptance

  datatype RunStatus = RunQueued | RunRunning | RunSucceeded | RunFailed | RunCancelled | RunTimedOut {
    predicate Terminal() { !RunQueued? && !RunRunning? }
  }

  datatype AttemptStatus =
    AttemptRunning | AttemptSucceeded | AttemptFailed | AttemptCancelled | AttemptRetryable | AttemptAbandoned

  datatype DeliveryStatus =
    DeliveryQueued | DeliveryClaimed | DeliveryRunning | DeliveryCompleted | DeliveryUnavailable {
    predicate Active() { DeliveryQueued? || DeliveryClaimed? || DeliveryRunning? }

    /** Position in the only direction a delivery may move. */
    function Rank(): nat {
      match this
      case DeliveryQueued => 0
      case DeliveryClaimed => 1
      case DeliveryRunning => 2
      case DeliveryCompleted => 3
      case DeliveryUnavailable => 3
    }
  }

  datatype RetryClass = NotClassified | Retryable | NonRetryable | NotApplicable | RecoveryRequired

  datatype AttemptKey = AttemptKey(job: JobId, no: nat)

  /** The host session on whose behalf an Attempt executes. */
  datatype HostRef = HostRef(host: HostId, epoch: Epoch, session: SessionId)
  datatype Owner = Owner(at: HostRef, execution: ExecutionId)

  datatype Claim = Claim(token: Token, expires: real)
  datatype Child = Child(pid: int, identity: Option<nat>, group: Option<int>, orphanDeadline: Option<real>)

  datatype Run = Run(status: RunStatus, spec: SpecHash, verdict: Verdict, updatedAt: real)

  datatype Attempt = Attempt(
    status: AttemptStatus, error: Option<ErrorType>, retry: RetryClass,
    leaseToken: Option<Token>, leaseExpires: Option<real>,
    child: Option<Child>, owner: Option<Owner>, recovery: Option<Claim>)

  datatype Session = Session(host: HostId, epoch: Epoch, expires: real)
  datatype Host = Host(epoch: Epoch, session: SessionId)

  /** An execution request with the part of its payload the Supervisor uses to finalize. */
  datatype Request = Request(
    key: AttemptKey, host: HostId, status: DeliveryStatus, createdAt: real,
    supervisor: Option<SupervisorId>, leaseToken: Token, owner: HostRef)

  datatype WitnessKind = ProcessExited | RuntimeTerminated
  datatype Witness = Witness(kind: WitnessKind, exitCode: Option<int>, observedAt: real)

  datatype Db = Db(
    runs: map<JobId, Run>,
    attempts: map<AttemptKey, Attempt>,
    sessions: map<SessionId, Session>,
    hosts: map<HostId, Host>,
    requests: map<ExecutionId, Request>,
    witnesses: map<ExecutionId, Witness>)

  const EMPTY_DB := Db(map[], map[], map[], map[], map[], map[])

  /**
   * SQLite rolls a half-applied completion back; the PostgreSQL store returns False from inside the block, which
   * commits.
   */
  datatype StoreKind = Sqlite | Postgres
}
