/**
 * Which call writes which column of which row, and what: the schema read column by column, where StoreOps.dfy reads it
 * call by call. A column holds what its last accepted writer wrote; every other call leaves it alone.
 */
module Columns {
  import opened Prelude
  import opened Acceptance
  import opened Tables
  import opened StoreOps
  import opened History

  // ---------------------------------------------------------------- the guards, in terms of the row

  predicate HeldBy(a: Attempt, token: Token) { a.status == AttemptRunning && a.leaseToken == Some(token) }

  predicate InTime(a: Attempt, now: real) { a.leaseExpires.Some? && now <= a.leaseExpires.value }

  predicate TooLate(a: Attempt, now: real) { a.leaseExpires.Some? && a.leaseExpires.value < now }

  predicate NotReserved(a: Attempt, now: real) { a.recovery.Some? ==> a.recovery.value.expires < now }

  /** The session is some host's current one and has not expired. */
  ghost predicate Serving(db: Db, session: SessionId, now: real) {
    && session in db.sessions && now <= db.sessions[session].expires
    && exists g :: g in db.hosts && db.hosts[g].session == session
  }

  /** The holder of `token` may still write an outcome. */
  predicate MayConclude(a: Attempt, token: Token, now: real) {
    HeldBy(a, token) && InTime(a, now) && NotReserved(a, now)
  }

  ghost predicate MayOwn(db: Db, a: Attempt, fence: Option<HostRef>, now: real) {
    fence.Some? ==>
      a.owner.Some? && a.owner.value.at == fence.value && Serving(db, fence.value.session, now)
  }

  predicate Reserves(a: Attempt, token: Token) {
    a.status == AttemptRunning && a.recovery.Some? && a.recovery.value.token == token
  }

  predicate Open(db: Db, j: JobId) { j in db.runs && db.runs[j].status == RunRunning }

  /** The Attempt half of a completion is kept: with its Run, or by a store that commits it alone. */
  predicate Commits(kind: StoreKind, db: Db, j: JobId) { Open(db, j) || kind == Postgres }

  // ---------------------------------------------------------------- Attempts

  /** Status, error and retry class are written together. */
  datatype Ruling = Ruling(status: AttemptStatus, error: Option<ErrorType>, retry: RetryClass)

  function RulingOf(a: Attempt): Ruling { Ruling(a.status, a.error, a.retry) }

  datatype Lease = Lease(token: Option<Token>, expires: Option<real>)

  function LeaseOf(a: Attempt): Lease { Lease(a.leaseToken, a.leaseExpires) }

  ghost function LeaseWritten(db: Db, e: Event, k: AttemptKey): Option<Lease>
    requires k in db.attempts
  {
    var a := db.attempts[k];
    match e.op
    case OpAcquireLease(i, token, ttl) =>
      if i == k && a.status == AttemptRunning && (a.leaseExpires.None? || TooLate(a, e.now))
      then Some(Lease(Some(token), Some(e.now + ttl))) else None
    case OpHeartbeatAttempt(i, token, ttl) =>
      if i == k && HeldBy(a, token) && InTime(a, e.now) then Some(Lease(Some(token), Some(e.now + ttl))) else None
    case OpHeartbeatQueued(session, ttl) =>
      if && Serving(db, session, e.now) && a.status == AttemptRunning
         && a.owner.Some? && a.owner.value.at.session == session && a.owner.value.execution in db.requests
         && db.requests[a.owner.value.execution].status == DeliveryQueued
      then Some(Lease(a.leaseToken, Some(e.now + ttl))) else None
    case _ => None
  }

  function ChildWritten(db: Db, e: Event, k: AttemptKey): Option<Child>
    requires k in db.attempts
  {
    if e.op.OpRecordProcess? && e.op.k == k && HeldBy(db.attempts[k], e.op.token) then Some(e.op.child) else None
  }

  ghost function OwnerWritten(db: Db, e: Event, k: AttemptKey): Option<Owner>
    requires k in db.attempts
  {
    if && e.op.OpRecordExecution? && e.op.k == k && HeldBy(db.attempts[k], e.op.token)
       && Serving(db, e.op.owner.at.session, e.now)
       && db.sessions[e.op.owner.at.session].host == e.op.owner.at.host
       && db.sessions[e.op.owner.at.session].epoch == e.op.owner.at.epoch
    then Some(e.op.owner) else None
  }

  function ClaimWritten(db: Db, e: Event, k: AttemptKey): Option<Option<Claim>>
    requires k in db.attempts
  {
    var a := db.attempts[k];
    match e.op
    case OpClaimRecovery(i, token, ttl) =>
      if i == k && a.status == AttemptRunning && TooLate(a, e.now) && NotReserved(a, e.now)
      then Some(Some(Claim(token, e.now + ttl))) else None
    case OpReleaseRecovery(i, token) => if i == k && Reserves(a, token) then Some(None) else None
    case _ => None
  }

  ghost function RulingWritten(kind: StoreKind, db: Db, e: Event, k: AttemptKey): Option<Ruling>
    requires k in db.attempts
  {
    var a := db.attempts[k];
    match e.op
    case OpRecordAttempt(i) =>
      if i == k && k.job in db.runs then Some(Ruling(AttemptRunning, None, NotClassified)) else None
    case OpTransition(i, token, to, error, retry) =>
      if i == k && MayConclude(a, token, e.now) then Some(Ruling(to, error, retry)) else None
    case OpFinalize(i, token, c, fence) =>
      if i == k && MayConclude(a, token, e.now) && MayOwn(db, a, fence, e.now) && Commits(kind, db, k.job)
      then Some(Ruling(c.attempt, c.error, c.retry)) else None
    case OpFinalizeRecovery(i, token, failure) =>
      if i == k && Reserves(a, token) && Commits(kind, db, k.job)
      then Some(Ruling(AttemptAbandoned, Some(failure), RecoveryRequired)) else None
    case _ => None
  }

  function Or<T>(written: Option<T>, before: T): T { if written.Some? then written.value else before }

  /** The Attempt row after the call, column by column. */
  ghost predicate AttemptWritten(kind: StoreKind, db: Db, db': Db, e: Event, k: AttemptKey) {
    && (k in db.attempts ==>
          && k in db'.attempts
          && var a, b := db.attempts[k], db'.attempts[k];
             && LeaseOf(b) == Or(LeaseWritten(db, e, k), LeaseOf(a))
             && b.child == (if ChildWritten(db, e, k).Some? then ChildWritten(db, e, k) else a.child)
             && b.owner == (if OwnerWritten(db, e, k).Some? then OwnerWritten(db, e, k) else a.owner)
             && b.recovery == Or(ClaimWritten(db, e, k), a.recovery)
             && RulingOf(b) == Or(RulingWritten(kind, db, e, k), RulingOf(a)))
    && (k !in db.attempts ==>
          && (k in db'.attempts <==> e.op == OpRecordAttempt(k) && k.job in db.runs)
          && (k in db'.attempts ==>
                db'.attempts[k] == Attempt(AttemptRunning, None, NotClassified, None, None, None, None, None)))
  }

  lemma LeaseCallWritesAttempt(h: History, i: nat, k: AttemptKey)
    requires h.Valid() && i < |h.events| && LeaseCall(h.events[i].op)
    ensures AttemptWritten(h.kind, h.rows[i], h.rows[i + 1], h.events[i], k)
  {
    assert h.Step(i);
    match h.events[i].op {
      case OpRecordAttempt(_) =>
      case OpAcquireLease(_, _, _) =>
      case OpHeartbeatAttempt(_, _, _) =>
      case OpRecordProcess(_, _, _) =>
      case OpHeartbeatQueued(_, _) =>
      case OpRecordExecution(_, _, _) =>
    }
  }

  lemma RecoveryCallWritesAttempt(h: History, i: nat, k: AttemptKey)
    requires h.Valid() && i < |h.events| && (ClaimCall(h.events[i].op) || h.events[i].op.OpFinalizeRecovery?)
    ensures AttemptWritten(h.kind, h.rows[i], h.rows[i + 1], h.events[i], k)
  {
    assert h.Step(i);
    match h.events[i].op {
      case OpClaimRecovery(_, _, _) =>
      case OpReleaseRecovery(_, _) =>
      case OpFinalizeRecovery(_, _, _) =>
    }
  }

  lemma FinalizeWritesAttempt(h: History, i: nat, k: AttemptKey)
    requires h.Valid() && i < |h.events| && h.events[i].op.OpFinalize?
    ensures AttemptWritten(h.kind, h.rows[i], h.rows[i + 1], h.events[i], k)
  {
    assert h.Step(i);
  }

  lemma TransitionWritesAttempt(h: History, i: nat, k: AttemptKey)
    requires h.Valid() && i < |h.events| && h.events[i].op.OpTransition?
    ensures AttemptWritten(h.kind, h.rows[i], h.rows[i + 1], h.events[i], k)
  {
    assert h.Step(i);
  }

  /** Whatever the call, each column of an Attempt changes exactly as its own writers say. */
  lemma AttemptColumns(h: History, i: nat, k: AttemptKey)
    requires h.Valid() && i < |h.events|
    ensures AttemptWritten(h.kind, h.rows[i], h.rows[i + 1], h.events[i], k)
  {
    var op := h.events[i].op;
    if LeaseCall(op) { LeaseCallWritesAttempt(h, i, k); }
    else if op.OpFinalize? { FinalizeWritesAttempt(h, i, k); }
    else if op.OpTransition? { TransitionWritesAttempt(h, i, k); }
    else if ClaimCall(op) || op.OpFinalizeRecovery? { RecoveryCallWritesAttempt(h, i, k); }
    else if RunCall(op) { RunCallFrame(h, i); }
    else if HostCall(op) { HostCallFrame(h, i); }
    else { DeliveryCallFrame(h, i); }
  }

  // ---------------------------------------------------------------- Runs

  datatype Standing = Standing(status: RunStatus, verdict: Verdict)

  /** What a call writes of a Run, given what the row says of it. */
  ghost function StandingWritten(db: Db, e: Event, j: JobId): Option<Standing>
    requires j in db.runs
  {
    var r := db.runs[j];
    match e.op
    case OpUpdateRun(i, status, trust) =>
      if i != j then None
      else if trust.None? then Some(Standing(status, r.verdict))
      else Some(Standing(status, Verdict(r.verdict.report, trust.value, r.verdict.exitCode)))
    case OpClaimNextRun(i) =>
      if i == j && r.status == RunQueued then Some(Standing(RunRunning, r.verdict)) else None
    case OpFinalizeRecovery(k, token, _) =>
      if k.job == j && k in db.attempts && Reserves(db.attempts[k], token) && Open(db, j)
      then Some(Standing(RunFailed, r.verdict)) else None
    case OpFinalize(k, token, c, fence) =>
      if && k.job == j && k in db.attempts && MayConclude(db.attempts[k], token, e.now)
         && MayOwn(db, db.attempts[k], fence, e.now) && Open(db, j)
      then
        Some(Standing(c.run, match c.fields
                             case NoFields => r.verdict
                             case TrustOnly(t) => Verdict(r.verdict.report, t, r.verdict.exitCode)
                             case Validated(v) => v))
      else None
    case _ => None
  }

  /** There is room for one more Run. */
  predicate Admits(db: Db, budget: Option<nat>) {
    budget.Some? ==>
      |set j | j in db.runs && (db.runs[j].status == RunQueued || db.runs[j].status == RunRunning)| < budget.value
  }

  /** The Run row after the call: a row that is written carries the time of the call, and its spec never changes. */
  ghost predicate RunWritten(db: Db, db': Db, e: Event, j: JobId) {
    && (j in db.runs ==>
          && j in db'.runs
          && var r, w := db.runs[j], StandingWritten(db, e, j);
             db'.runs[j] == if w.Some? then Run(w.value.status, r.spec, w.value.verdict, e.now) else r)
    && (j !in db.runs ==>
          && (j in db'.runs <==> e.op.OpCreateRun? && e.op.job == j && Admits(db, e.op.budget))
          && (j in db'.runs ==> db'.runs[j] == Run(RunQueued, e.op.spec, NO_VERDICT, e.now)))
  }

  lemma CreatedWhenAdmitted(h: History, i: nat, j: JobId)
    requires h.Valid() && i < |h.events| && h.events[i].op.OpCreateRun?
    ensures RunWritten(h.rows[i], h.rows[i + 1], h.events[i], j)
  {
    assert h.Step(i);
    var db := h.rows[i];
    assert InFlight(db) == set l | l in db.runs && (db.runs[l].status == RunQueued || db.runs[l].status == RunRunning);
  }

  lemma CompletionCallWritesRun(h: History, i: nat, j: JobId)
    requires h.Valid() && i < |h.events| && CompletionCall(h.events[i].op)
    ensures RunWritten(h.rows[i], h.rows[i + 1], h.events[i], j)
  {
    assert h.Step(i);
    match h.events[i].op {
      case OpTransition(_, _, _, _, _) =>
      case OpFinalizeRecovery(_, _, _) =>
      case OpFinalize(_, _, _, _) =>
    }
  }

  lemma RunCallWritesRun(h: History, i: nat, j: JobId)
    requires h.Valid() && i < |h.events| && RunCall(h.events[i].op)
    ensures RunWritten(h.rows[i], h.rows[i + 1], h.events[i], j)
  {
    assert h.Step(i);
    match h.events[i].op {
      case OpRead =>
      case OpCreateRun(_, _, _) => CreatedWhenAdmitted(h, i, j);
      case OpUpdateRun(_, _, _) =>
      case OpClaimNextRun(_) =>
    }
  }

  /** Whatever the call, a Run changes exactly as its writers say, and then carries the time of the call. */
  lemma RunColumns(h: History, i: nat, j: JobId)
    requires h.Valid() && i < |h.events|
    ensures RunWritten(h.rows[i], h.rows[i + 1], h.events[i], j)
  {
    var op := h.events[i].op;
    if RunCall(op) { RunCallWritesRun(h, i, j); }
    else if CompletionCall(op) { CompletionCallWritesRun(h, i, j); }
    else if LeaseCall(op) { LeaseCallFrame(h, i); }
    else if ClaimCall(op) { ClaimCallFrame(h, i); }
    else if HostCall(op) { HostCallFrame(h, i); }
    else { DeliveryCallFrame(h, i); }
  }

  // ---------------------------------------------------------------- deliveries and witnesses

  predicate Outstanding(q: Request) {
    q.status == DeliveryQueued || q.status == DeliveryClaimed || q.status == DeliveryRunning
  }

  predicate TakenBySupervisor(q: Request) { q.status == DeliveryClaimed || q.status == DeliveryRunning }

  datatype Progress = Progress(status: DeliveryStatus, supervisor: Option<SupervisorId>)

  ghost function ProgressWritten(db: Db, e: Event, x: ExecutionId): Option<Progress>
    requires x in db.requests
  {
    var q := db.requests[x];
    match e.op
    case OpClaimRequest(host, supervisor, y) =>
      if y == x && q.status == DeliveryQueued && q.host == host
      then Some(Progress(DeliveryClaimed, Some(supervisor))) else None
    case OpProcessStarted(y, supervisor) =>
      if y == x && q.status == DeliveryClaimed && q.supervisor == Some(supervisor)
      then Some(Progress(DeliveryRunning, q.supervisor)) else None
    case OpRecordWitness(y, _, _) =>
      if y == x && x !in db.witnesses && TakenBySupervisor(q)
      then Some(Progress(DeliveryCompleted, q.supervisor)) else None
    case OpFinalizeRecovery(k, token, _) =>
      if && q.key == k && Outstanding(q) && k in db.attempts && Reserves(db.attempts[k], token) && Open(db, k.job)
      then Some(Progress(DeliveryUnavailable, q.supervisor)) else None
    case OpReleaseTerminal =>
      if && Outstanding(q) && x !in db.witnesses
         && q.key in db.attempts && db.attempts[q.key].status == AttemptAbandoned
      then Some(Progress(DeliveryUnavailable, q.supervisor)) else None
    case _ => None
  }

  /** The delivery and its witness after the call: the payload never changes, the first witness is kept. */
  ghost predicate DeliveryWritten(db: Db, db': Db, e: Event, x: ExecutionId) {
    && (x in db.requests ==>
          && x in db'.requests
          && var q, w := db.requests[x], ProgressWritten(db, e, x);
             db'.requests[x] == if w.Some? then q.(status := w.value.status, supervisor := w.value.supervisor) else q)
    && (x !in db.requests ==>
          && (x in db'.requests <==> e.op.OpEnqueue? && e.op.execution == x)
          && (x in db'.requests ==>
                db'.requests[x] == Request(e.op.k, e.op.host, DeliveryQueued, e.now, None, e.op.leaseToken, e.op.at)))
    && (x in db.witnesses ==> x in db'.witnesses && db'.witnesses[x] == db.witnesses[x])
    && (x !in db.witnesses ==>
          && (x in db'.witnesses <==> e.op.OpRecordWitness? && e.op.execution == x && x in db.requests)
          && (x in db'.witnesses ==> db'.witnesses[x] == Witness(e.op.kind, e.op.exitCode, e.now)))
  }

  lemma DeliveryCallWritesDelivery(h: History, i: nat, x: ExecutionId)
    requires h.Valid() && i < |h.events| && DeliveryCall(h.events[i].op)
    ensures DeliveryWritten(h.rows[i], h.rows[i + 1], h.events[i], x)
  {
    assert h.Step(i);
    match h.events[i].op {
      case OpEnqueue(_, _, _, _, _) =>
      case OpClaimRequest(_, _, _) =>
      case OpProcessStarted(_, _) =>
      case OpRecordWitness(_, _, _) =>
      case OpReleaseTerminal =>
    }
  }

  lemma CompletionCallWritesDelivery(h: History, i: nat, x: ExecutionId)
    requires h.Valid() && i < |h.events| && CompletionCall(h.events[i].op)
    ensures DeliveryWritten(h.rows[i], h.rows[i + 1], h.events[i], x)
  {
    assert h.Step(i);
    match h.events[i].op {
      case OpTransition(_, _, _, _, _) =>
      case OpFinalizeRecovery(_, _, _) =>
      case OpFinalize(_, _, _, _) =>
    }
  }

  /** Whatever the call, a delivery moves, and is witnessed, exactly as its writers say. */
  lemma DeliveryColumns(h: History, i: nat, x: ExecutionId)
    requires h.Valid() && i < |h.events|
    ensures DeliveryWritten(h.rows[i], h.rows[i + 1], h.events[i], x)
  {
    var op := h.events[i].op;
    if DeliveryCall(op) { DeliveryCallWritesDelivery(h, i, x); }
    else if CompletionCall(op) { CompletionCallWritesDelivery(h, i, x); }
    else if RunCall(op) { RunCallFrame(h, i); }
    else if HostCall(op) { HostCallFrame(h, i); }
    else if ClaimCall(op) { ClaimCallFrame(h, i); }
    else { LeaseCallFrame(h, i); }
  }

  // ---------------------------------------------------------------- sessions and hosts

  /** A session is registered once, with its host; it is extended only while it is current. */
  ghost predicate HostWritten(db: Db, db': Db, e: Event, s: SessionId, g: HostId) {
    && (s in db.sessions ==>
          && s in db'.sessions
          && var extended := && e.op.OpHeartbeatSession? && e.op.session == s
                             && exists f :: f in db.hosts && db.hosts[f].session == s;
             db'.sessions[s] == if extended then db.sessions[s].(expires := e.now + e.op.ttl) else db.sessions[s])
    && (s !in db.sessions ==>
          && (s in db'.sessions <==> e.op.OpStartSession? && e.op.at.session == s)
          && (s in db'.sessions ==> db'.sessions[s] == Session(e.op.at.host, e.op.at.epoch, e.now + e.op.ttl)))
    && var taken := e.op.OpStartSession? && e.op.at.host == g && e.op.at.session !in db.sessions;
       && (g in db'.hosts <==> g in db.hosts || taken)
       && (g in db'.hosts ==>
             db'.hosts[g] == if taken then Host(e.op.at.epoch, e.op.at.session) else db.hosts[g])
  }

  lemma HostColumns(h: History, i: nat, s: SessionId, g: HostId)
    requires h.Valid() && i < |h.events|
    ensures HostWritten(h.rows[i], h.rows[i + 1], h.events[i], s, g)
  {
    var op := h.events[i].op;
    if HostCall(op) { assert h.Step(i); }
    else if RunCall(op) { RunCallFrame(h, i); }
    else if DeliveryCall(op) { DeliveryCallFrame(h, i); }
    else if ClaimCall(op) { ClaimCallFrame(h, i); }
    else if LeaseCall(op) { LeaseCallFrame(h, i); }
    else { CompletionCallFrame(h, i); }
  }

  // ---------------------------------------------------------------- what the caller is told

  /** The rows show that the call did what it is for. */
  ghost predicate Effective(kind: StoreKind, db: Db, e: Event) {
    match e.op
    case OpRead => true
    case OpCreateRun(j, _, budget) => j !in db.runs && Admits(db, budget)
    case OpUpdateRun(_, _, _) => true
    case OpClaimNextRun(j) => j in db.runs && StandingWritten(db, e, j).Some?
    case OpRecordAttempt(k) => k.job in db.runs
    case OpAcquireLease(k, _, _) => k in db.attempts && LeaseWritten(db, e, k).Some?
    case OpHeartbeatAttempt(k, _, _) => k in db.attempts && LeaseWritten(db, e, k).Some?
    case OpRecordProcess(k, _, _) => k in db.attempts && ChildWritten(db, e, k).Some?
    case OpStartSession(at, _) => at.session !in db.sessions
    case OpHeartbeatSession(s, _) => s in db.sessions && exists g :: g in db.hosts && db.hosts[g].session == s
    case OpHeartbeatQueued(s, _) => Serving(db, s, e.now)
    case OpRecordExecution(k, _, _) => k in db.attempts && OwnerWritten(db, e, k).Some?
    case OpEnqueue(x, _, _, _, _) => x !in db.requests
    case OpClaimRequest(_, _, x) => x in db.requests && ProgressWritten(db, e, x).Some?
    case OpProcessStarted(x, _) => x in db.requests && ProgressWritten(db, e, x).Some?
    case OpRecordWitness(x, _, _) => x in db.requests && x !in db.witnesses
    case OpReleaseTerminal => true
    case OpTransition(k, _, _, _, _) => k in db.attempts && RulingWritten(kind, db, e, k).Some?
    case OpClaimRecovery(k, _, _) => k in db.attempts && ClaimWritten(db, e, k).Some?
    case OpReleaseRecovery(k, _) => k in db.attempts && ClaimWritten(db, e, k).Some?
    case OpFinalizeRecovery(k, _, _) => k in db.attempts && RulingWritten(kind, db, e, k).Some? && Open(db, k.job)
    case OpFinalize(k, _, _, _) => k in db.attempts && RulingWritten(kind, db, e, k).Some? && Open(db, k.job)
  }

  lemma OtherReplies(h: History, i: nat)
    requires h.Valid() && i < |h.events| && !LeaseCall(h.events[i].op)
    requires !ClaimCall(h.events[i].op) && !CompletionCall(h.events[i].op)
    ensures h.Succeeds(i) <==> Effective(h.kind, h.rows[i], h.events[i])
  {
    var db := h.rows[i];
    match h.events[i].op {
      case OpRead =>
      case OpCreateRun(_, _, _) =>
        assert InFlight(db) ==
          set l | l in db.runs && (db.runs[l].status == RunQueued || db.runs[l].status == RunRunning);
      case OpUpdateRun(_, _, _) =>
      case OpClaimNextRun(_) =>
      case OpStartSession(_, _) =>
      case OpHeartbeatSession(_, _) =>
      case OpEnqueue(_, _, _, _, _) =>
      case OpClaimRequest(_, _, _) =>
      case OpProcessStarted(_, _) =>
      case OpRecordWitness(_, _, _) =>
      case OpReleaseTerminal =>
    }
  }

  /** The Store reports success exactly when the call did what it is for, a completion when it wrote both rows. */
  lemma SuccessMeansEffect(h: History, i: nat)
    requires h.Valid() && i < |h.events|
    ensures h.Succeeds(i) <==> Effective(h.kind, h.rows[i], h.events[i])
  {
    match h.events[i].op {
      case OpRecordAttempt(_) =>
      case OpAcquireLease(_, _, _) =>
      case OpHeartbeatAttempt(_, _, _) =>
      case OpRecordProcess(_, _, _) =>
      case OpHeartbeatQueued(_, _) =>
      case OpRecordExecution(_, _, _) =>
      case OpTransition(_, _, _, _, _) =>
      case OpClaimRecovery(_, _, _) =>
      case OpReleaseRecovery(_, _) =>
      case OpFinalizeRecovery(_, _, _) =>
      case OpFinalize(_, _, _, _) =>
      case OpRead => OtherReplies(h, i);
      case OpCreateRun(_, _, _) => OtherReplies(h, i);
      case OpUpdateRun(_, _, _) => OtherReplies(h, i);
      case OpClaimNextRun(_) => OtherReplies(h, i);
      case OpStartSession(_, _) => OtherReplies(h, i);
      case OpHeartbeatSession(_, _) => OtherReplies(h, i);
      case OpEnqueue(_, _, _, _, _) => OtherReplies(h, i);
      case OpClaimRequest(_, _, _) => OtherReplies(h, i);
      case OpProcessStarted(_, _) => OtherReplies(h, i);
      case OpRecordWitness(_, _, _) => OtherReplies(h, i);
      case OpReleaseTerminal => OtherReplies(h, i);
    }
  }

  // ---------------------------------------------------------------- what it means over time

  /** The columns of an Attempt that are written together. */
  datatype Column = OfLease | OfChild | OfOwner | OfClaim | OfRuling

  ghost predicate Writes(kind: StoreKind, db: Db, e: Event, k: AttemptKey, c: Column)
    requires k in db.attempts
  {
    match c
    case OfLease => LeaseWritten(db, e, k).Some?
    case OfChild => ChildWritten(db, e, k).Some?
    case OfOwner => OwnerWritten(db, e, k).Some?
    case OfClaim => ClaimWritten(db, e, k).Some?
    case OfRuling => RulingWritten(kind, db, e, k).Some?
  }

  predicate SameColumn(a: Attempt, b: Attempt, c: Column) {
    match c
    case OfLease => LeaseOf(a) == LeaseOf(b)
    case OfChild => a.child == b.child
    case OfOwner => a.owner == b.owner
    case OfClaim => a.recovery == b.recovery
    case OfRuling => RulingOf(a) == RulingOf(b)
  }

  /** The last call between the two rows that writes the column. */
  ghost function LastWriter(h: History, i: nat, l: nat, k: AttemptKey, c: Column): (m: Option<nat>)
    requires h.Valid() && l <= |h.events|
    ensures m.Some? ==>
      i <= m.value < l && k in h.rows[m.value].attempts && Writes(h.kind, h.rows[m.value], h.events[m.value], k, c)
    ensures forall n: nat :: i <= n < l && k in h.rows[n].attempts && Writes(h.kind, h.rows[n], h.events[n], k, c) ==>
      m.Some? && n <= m.value
  {
    if l <= i then None
    else if k in h.rows[l - 1].attempts && Writes(h.kind, h.rows[l - 1], h.events[l - 1], k, c) then Some(l - 1)
    else LastWriter(h, i, l - 1, k, c)
  }

  lemma ColumnOrWritten(h: History, i: nat, k: AttemptKey, c: Column)
    requires h.Valid() && i < |h.events| && k in h.rows[i].attempts
    ensures k in h.rows[i + 1].attempts
    ensures Writes(h.kind, h.rows[i], h.events[i], k, c)
      || SameColumn(h.rows[i].attempts[k], h.rows[i + 1].attempts[k], c)
  {
    AttemptColumns(h, i, k);
  }

  /** Over any history a column holds what its last accepted writer left there, or what it held before. */
  lemma {:induction false} ColumnHoldsLastWritten(h: History, i: nat, l: nat, k: AttemptKey, c: Column)
    requires h.Valid() && i <= l <= |h.events| && k in h.rows[i].attempts
    ensures k in h.rows[l].attempts
    ensures var m := LastWriter(h, i, l, k, c);
            if m.None? then SameColumn(h.rows[i].attempts[k], h.rows[l].attempts[k], c)
            else
              k in h.rows[m.value + 1].attempts
              && SameColumn(h.rows[m.value + 1].attempts[k], h.rows[l].attempts[k], c)
  {
    if i < l {
      ColumnHoldsLastWritten(h, i, l - 1, k, c);
      ColumnOrWritten(h, l - 1, k, c);
    }
  }

  /** Up to row `i` no Run carries a time later than `now`. */
  ghost predicate StampedBy(db: Db, now: real) { forall j :: j in db.runs ==> db.runs[j].updatedAt <= now }

  /**
   * Over any history under a monotone clock, `updatedAt` of a Run never goes back, and a Run whose row is not the same
   * any more carries a time no earlier than that of the first call in between.
   */
  lemma {:induction false} RunsCarryTheTimeOfTheirLastChange(h: History, i: nat, l: nat, j: JobId)
    requires h.Valid() && h.Monotone() && i <= l <= |h.events| && j in h.rows[i].runs
    requires i < |h.events| ==> StampedBy(h.rows[i], h.events[i].now)
    ensures j in h.rows[l].runs && h.rows[i].runs[j].updatedAt <= h.rows[l].runs[j].updatedAt
    ensures h.rows[l].runs[j] != h.rows[i].runs[j] ==> i < l && h.events[i].now <= h.rows[l].runs[j].updatedAt
  {
    if i < l {
      RunsCarryTheTimeOfTheirLastChange(h, i, l - 1, j);
      RunColumns(h, l - 1, j);
    }
  }

  /** A Run claimed for execution is not stale for as long as the stale time, however long it was queued. */
  lemma ClaimedRunIsNotStale(h: History, i: nat, j: JobId, cutoff: real)
    requires h.Valid() && i < |h.events| && h.events[i].op == OpClaimNextRun(j) && h.Succeeds(i)
    ensures j in h.rows[i + 1].runs && h.rows[i + 1].runs[j].status.RunRunning?
    ensures StaleRunning(h.rows[i + 1], cutoff, j) <==> h.events[i].now <= cutoff
  {
    RunColumns(h, i, j);
  }
}
