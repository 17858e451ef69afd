/**
 * The meaning of each Store call: one guarded, atomic step from rows to rows.
 *
 * `now` is the clock reading the call takes. A call whose guard fails leaves the rows alone and
 * reports false. The class in Store.dfy is proved to perform exactly these steps.
 */
module StoreOps {
  import opened Prelude
  import opened Acceptance
  import opened Tables

  datatype Reply = Reply(db: Db, ok: bool)

  /** An INSERT or UPDATE that raises instead of reporting a row count. */
  datatype Admission = Created(db: Db) | Existing | BudgetExhausted

  // ---------------------------------------------------------------- runs

  function InFlight(db: Db): set<JobId> {
    set j | j in db.runs && !db.runs[j].status.Terminal()
  }

  function CreateRun(db: Db, now: real, job: JobId, spec: SpecHash, budget: Option<nat>): Admission {
    if job in db.runs then Existing
    else if budget.Some? && |InFlight(db)| >= budget.value then BudgetExhausted
    else Created(db.(runs := db.runs[job := Run(RunQueued, spec, NO_VERDICT, now)]))
  }

  /** Unfenced write of a Run's status; `trust` is written only when given. */
  function UpdateRun(db: Db, now: real, job: JobId, status: RunStatus, trust: Option<Trust>): Db {
    if job !in db.runs then db
    else
      var r := db.runs[job];
      var v := if trust.Some? then r.verdict.(trust := trust.value) else r.verdict;
      db.(runs := db.runs[job := r.(status := status, verdict := v, updatedAt := now)])
  }

  /** Claim of a queued Run by a worker; `pick` is the row the database selects. */
  function ClaimNextRun(db: Db, now: real, pick: JobId): Reply {
    if pick in db.runs && db.runs[pick].status.RunQueued? then
      Reply(db.(runs := db.runs[pick := db.runs[pick].(status := RunRunning, updatedAt := now)]), true)
    else Reply(db, false)
  }

  // ---------------------------------------------------------------- attempts and leases

  const FRESH_ATTEMPT := Attempt(AttemptRunning, None, NotClassified, None, None, None, None, None)

  /** Upsert: an existing row keeps its lease, child, owner and claim but takes the new status. */
  function RecordAttempt(db: Db, k: AttemptKey): Reply {
    if k.job !in db.runs then Reply(db, false)
    else
      var a := if k in db.attempts
               then db.attempts[k].(status := AttemptRunning, error := None, retry := NotClassified)
               else FRESH_ATTEMPT;
      Reply(db.(attempts := db.attempts[k := a]), true)
  }

  predicate IsRunning(db: Db, k: AttemptKey) {
    k in db.attempts && db.attempts[k].status.AttemptRunning?
  }

  predicate Holds(db: Db, k: AttemptKey, token: Token) {
    IsRunning(db, k) && db.attempts[k].leaseToken == Some(token)
  }

  predicate LeaseLive(a: Attempt, now: real) { a.leaseExpires.Some? && a.leaseExpires.value >= now }
  predicate LeaseLapsed(a: Attempt, now: real) { a.leaseExpires.Some? && a.leaseExpires.value < now }
  predicate Unclaimed(a: Attempt, now: real) { a.recovery.None? || a.recovery.value.expires < now }

  function SetAttempt(db: Db, k: AttemptKey, a: Attempt): Db { db.(attempts := db.attempts[k := a]) }

  function AcquireLease(db: Db, now: real, k: AttemptKey, token: Token, ttl: real): Reply {
    if IsRunning(db, k) && (db.attempts[k].leaseExpires.None? || LeaseLapsed(db.attempts[k], now)) then
      Reply(SetAttempt(db, k, db.attempts[k].(leaseToken := Some(token), leaseExpires := Some(now + ttl))), true)
    else Reply(db, false)
  }

  function HeartbeatAttempt(db: Db, now: real, k: AttemptKey, token: Token, ttl: real): Reply {
    if Holds(db, k, token) && LeaseLive(db.attempts[k], now) then
      Reply(SetAttempt(db, k, db.attempts[k].(leaseExpires := Some(now + ttl))), true)
    else Reply(db, false)
  }

  function RecordProcess(db: Db, k: AttemptKey, token: Token, child: Child): Reply {
    if Holds(db, k, token) then
      Reply(SetAttempt(db, k, db.attempts[k].(child := Some(child))), true)
    else Reply(db, false)
  }

  // ---------------------------------------------------------------- host sessions

  /** A session id is a primary key: reusing one raises and nothing changes. */
  function StartSession(db: Db, now: real, at: HostRef, ttl: real): Reply {
    if at.session in db.sessions then Reply(db, false)
    else Reply(db.(sessions := db.sessions[at.session := Session(at.host, at.epoch, now + ttl)],
                   hosts := db.hosts[at.host := Host(at.epoch, at.session)]), true)
  }

  predicate Current(db: Db, s: SessionId) { exists h :: h in db.hosts && db.hosts[h].session == s }

  predicate SessionLive(db: Db, s: SessionId, now: real) {
    s in db.sessions && Current(db, s) && db.sessions[s].expires >= now
  }

  function HeartbeatSession(db: Db, now: real, s: SessionId, ttl: real): Reply {
    if s in db.sessions && Current(db, s) then
      Reply(db.(sessions := db.sessions[s := db.sessions[s].(expires := now + ttl)]), true)
    else Reply(db, false)
  }

  /** The Attempts whose delivery still waits in the queue of session `s`. */
  predicate WaitsFor(db: Db, k: AttemptKey, s: SessionId) {
    && IsRunning(db, k)
    && db.attempts[k].owner.Some? && db.attempts[k].owner.value.at.session == s
    && db.attempts[k].owner.value.execution in db.requests
    && db.requests[db.attempts[k].owner.value.execution].status.DeliveryQueued?
  }

  function HeartbeatQueued(db: Db, now: real, s: SessionId, ttl: real): Db {
    if SessionLive(db, s, now) then
      db.(attempts := map k | k in db.attempts ::
                        if WaitsFor(db, k, s) then db.attempts[k].(leaseExpires := Some(now + ttl)) else db.attempts[k])
    else db
  }

  function RecordExecution(db: Db, now: real, k: AttemptKey, token: Token, owner: Owner): Reply {
    if Holds(db, k, token) && SessionLive(db, owner.at.session, now)
       && db.sessions[owner.at.session].host == owner.at.host
       && db.sessions[owner.at.session].epoch == owner.at.epoch then
      Reply(SetAttempt(db, k, db.attempts[k].(owner := Some(owner))), true)
    else Reply(db, false)
  }

  // ---------------------------------------------------------------- deliveries and witnesses

  function Enqueue(db: Db, now: real, e: ExecutionId, k: AttemptKey, host: HostId, leaseToken: Token,
                   owner: HostRef): Reply {
    if e in db.requests then Reply(db, false)
    else Reply(db.(requests := db.requests[e := Request(k, host, DeliveryQueued, now, None, leaseToken, owner)]), true)
  }

  predicate Waiting(db: Db, e: ExecutionId, host: HostId) {
    e in db.requests && db.requests[e].host == host && db.requests[e].status.DeliveryQueued?
  }

  /** `pick` is the queued row the database selects for this host. */
  function ClaimRequest(db: Db, host: HostId, supervisor: SupervisorId, pick: ExecutionId): Reply {
    if Waiting(db, pick, host) then
      var q := db.requests[pick].(status := DeliveryClaimed, supervisor := Some(supervisor));
      Reply(db.(requests := db.requests[pick := q]), true)
    else Reply(db, false)
  }

  function ProcessStarted(db: Db, e: ExecutionId, supervisor: SupervisorId): Reply {
    if e in db.requests && db.requests[e].status.DeliveryClaimed? && db.requests[e].supervisor == Some(supervisor) then
      Reply(db.(requests := db.requests[e := db.requests[e].(status := DeliveryRunning)]), true)
    else Reply(db, false)
  }

  /** The first witness of a request is kept; it completes a claimed or running request, but not a queued one. */
  function RecordWitness(db: Db, now: real, e: ExecutionId, kind: WitnessKind, exitCode: Option<int>): Reply {
    if e !in db.requests || e in db.witnesses then Reply(db, false)
    else
      var q := db.requests[e];
      var q' := if q.status.DeliveryClaimed? || q.status.DeliveryRunning? then q.(status := DeliveryCompleted) else q;
      Reply(db.(witnesses := db.witnesses[e := Witness(kind, exitCode, now)], requests := db.requests[e := q']), true)
  }

  /** Active deliveries that the release step may retire. */
  predicate Releasable(db: Db, e: ExecutionId) {
    && e in db.requests && db.requests[e].status.Active()
    && db.requests[e].key in db.attempts && db.attempts[db.requests[e].key].status.AttemptAbandoned?
    && e !in db.witnesses
  }

  function ReleaseTerminal(db: Db): Db {
    db.(requests := map e | e in db.requests ::
                      if Releasable(db, e) then db.requests[e].(status := DeliveryUnavailable) else db.requests[e])
  }

  function ActiveFor(db: Db, host: HostId): set<ExecutionId> {
    set e | e in db.requests && db.requests[e].host == host && db.requests[e].status.Active()
  }

  // ---------------------------------------------------------------- fenced completion

  predicate Fenced(db: Db, now: real, k: AttemptKey, token: Token) {
    Holds(db, k, token) && LeaseLive(db.attempts[k], now) && Unclaimed(db.attempts[k], now)
  }

  predicate OwnerFence(db: Db, now: real, k: AttemptKey, owner: Option<HostRef>) {
    owner.Some? ==>
      && k in db.attempts && db.attempts[k].owner.Some? && db.attempts[k].owner.value.at == owner.value
      && SessionLive(db, owner.value.session, now)
  }

  function Close(a: Attempt, status: AttemptStatus, error: Option<ErrorType>, retry: RetryClass): Attempt {
    a.(status := status, error := error, retry := retry)
  }

  function TransitionAttempt(db: Db, now: real, k: AttemptKey, token: Token,
                             status: AttemptStatus, error: Option<ErrorType>, retry: RetryClass): Reply {
    if Fenced(db, now, k, token) then
      Reply(SetAttempt(db, k, Close(db.attempts[k], status, error, retry)), true)
    else Reply(db, false)
  }

  function ClaimRecovery(db: Db, now: real, k: AttemptKey, token: Token, ttl: real): Reply {
    if IsRunning(db, k) && LeaseLapsed(db.attempts[k], now) && Unclaimed(db.attempts[k], now) then
      Reply(SetAttempt(db, k, db.attempts[k].(recovery := Some(Claim(token, now + ttl)))), true)
    else Reply(db, false)
  }

  predicate HoldsClaim(db: Db, k: AttemptKey, token: Token) {
    IsRunning(db, k) && db.attempts[k].recovery.Some? && db.attempts[k].recovery.value.token == token
  }

  function ReleaseRecovery(db: Db, k: AttemptKey, token: Token): Reply {
    if HoldsClaim(db, k, token) then Reply(SetAttempt(db, k, db.attempts[k].(recovery := None)), true)
    else Reply(db, false)
  }

  /** The second row of a two-row completion: the Run must still be RUNNING. */
  predicate RunOpen(db: Db, job: JobId) { job in db.runs && db.runs[job].status.RunRunning? }

  function RetireDeliveries(db: Db, k: AttemptKey): Db {
    db.(requests := map e | e in db.requests ::
                      if db.requests[e].key == k && db.requests[e].status.Active()
                      then db.requests[e].(status := DeliveryUnavailable) else db.requests[e])
  }

  /** Abandon a recovery-claimed Attempt, fail its Run and retire its deliveries. */
  function FinalizeRecovery(kind: StoreKind, db: Db, now: real, k: AttemptKey, token: Token, error: ErrorType): Reply {
    if !HoldsClaim(db, k, token) then Reply(db, false)
    else
      var db1 := SetAttempt(db, k, Close(db.attempts[k], AttemptAbandoned, Some(error), RecoveryRequired));
      if !RunOpen(db, k.job) then Reply(if kind.Sqlite? then db else db1, false)
      else
        var db2 := db1.(runs := db.runs[k.job := db.runs[k.job].(status := RunFailed, updatedAt := now)]);
        Reply(RetireDeliveries(db2, k), true)
  }

  /** The validation fields a completion writes to the Run. */
  datatype RunFields = NoFields | TrustOnly(trust: Trust) | Validated(verdict: Verdict)

  function WriteFields(v: Verdict, f: RunFields): Verdict {
    match f
    case NoFields => v
    case TrustOnly(t) => v.(trust := t)
    case Validated(v') => v'
  }

  /** Everything a terminal write says about an Attempt and its Run. */
  datatype Completion = Completion(
    attempt: AttemptStatus, run: RunStatus, error: Option<ErrorType>, retry: RetryClass, fields: RunFields)

  function FinalizeAttempt(kind: StoreKind, db: Db, now: real, k: AttemptKey, token: Token, c: Completion,
                           owner: Option<HostRef>): Reply {
    if !Fenced(db, now, k, token) || !OwnerFence(db, now, k, owner) then Reply(db, false)
    else
      var db1 := SetAttempt(db, k, Close(db.attempts[k], c.attempt, c.error, c.retry));
      if !RunOpen(db, k.job) then Reply(if kind.Sqlite? then db else db1, false)
      else
        var r := db.runs[k.job];
        var r' := r.(status := c.run, verdict := WriteFields(r.verdict, c.fields), updatedAt := now);
        Reply(db1.(runs := db.runs[k.job := r']), true)
  }

  // ---------------------------------------------------------------- readers

  predicate StaleRunning(db: Db, cutoff: real, job: JobId) {
    RunOpen(db, job) && db.runs[job].updatedAt <= cutoff
  }

  predicate ExpiredLease(db: Db, now: real, k: AttemptKey) {
    IsRunning(db, k) && db.attempts[k].leaseToken.Some? && LeaseLapsed(db.attempts[k], now)
  }
}
