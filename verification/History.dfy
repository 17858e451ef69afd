/**
 * Histories of Store calls by any number of callers, in any order, with any arguments.
 *
 * Nothing is assumed about who calls what, except where a lemma names it: tokens are fresh, the
 * clock is monotone, and Attempts are recorded under fresh numbers.
 */
module History {
  import opened Prelude
  import opened Acceptance
  import opened Tables
  import opened StoreOps

  datatype Op =
    | OpRead  // get_run, list_runs and the other calls that only look
    | OpCreateRun(job: JobId, spec: SpecHash, budget: Option<nat>)
    | OpUpdateRun(job: JobId, status: RunStatus, trust: Option<Trust>)
    | OpClaimNextRun(job: JobId)
    | OpRecordAttempt(k: AttemptKey)
    | OpAcquireLease(k: AttemptKey, token: Token, ttl: real)
    | OpHeartbeatAttempt(k: AttemptKey, token: Token, ttl: real)
    | OpRecordProcess(k: AttemptKey, token: Token, child: Child)
    | OpStartSession(at: HostRef, ttl: real)
    | OpHeartbeatSession(session: SessionId, ttl: real)
    | OpHeartbeatQueued(session: SessionId, ttl: real)
    | OpRecordExecution(k: AttemptKey, token: Token, owner: Owner)
    | OpEnqueue(execution: ExecutionId, k: AttemptKey, host: HostId, leaseToken: Token, at: HostRef)
    | OpClaimRequest(host: HostId, supervisor: SupervisorId, execution: ExecutionId)
    | OpProcessStarted(execution: ExecutionId, supervisor: SupervisorId)
    | OpRecordWitness(execution: ExecutionId, kind: WitnessKind, exitCode: Option<int>)
    | OpReleaseTerminal
    | OpTransition(k: AttemptKey, token: Token, to: AttemptStatus, error: Option<ErrorType>, retry: RetryClass)
    | OpClaimRecovery(k: AttemptKey, token: Token, ttl: real)
    | OpReleaseRecovery(k: AttemptKey, token: Token)
    | OpFinalizeRecovery(k: AttemptKey, token: Token, failure: ErrorType)
    | OpFinalize(k: AttemptKey, token: Token, completion: Completion, fence: Option<HostRef>)

  function Apply(kind: StoreKind, db: Db, now: real, op: Op): Reply {
    match op
    case OpRead => Reply(db, true)
    case OpCreateRun(j, spec, budget) =>
      (match CreateRun(db, now, j, spec, budget)
       case Created(db') => Reply(db', true)
       case _ => Reply(db, false))
    case OpUpdateRun(j, status, trust) => Reply(UpdateRun(db, now, j, status, trust), true)
    case OpClaimNextRun(j) => ClaimNextRun(db, now, j)
    case OpRecordAttempt(k) => RecordAttempt(db, k)
    case OpAcquireLease(k, token, ttl) => AcquireLease(db, now, k, token, ttl)
    case OpHeartbeatAttempt(k, token, ttl) => HeartbeatAttempt(db, now, k, token, ttl)
    case OpRecordProcess(k, token, child) => RecordProcess(db, k, token, child)
    case OpStartSession(at, ttl) => StartSession(db, now, at, ttl)
    case OpHeartbeatSession(s, ttl) => HeartbeatSession(db, now, s, ttl)
    case OpHeartbeatQueued(s, ttl) => Reply(HeartbeatQueued(db, now, s, ttl), SessionLive(db, s, now))
    case OpRecordExecution(k, token, owner) => RecordExecution(db, now, k, token, owner)
    case OpEnqueue(e, k, host, leaseToken, at) => Enqueue(db, now, e, k, host, leaseToken, at)
    case OpClaimRequest(host, sup, e) => ClaimRequest(db, host, sup, e)
    case OpProcessStarted(e, sup) => ProcessStarted(db, e, sup)
    case OpRecordWitness(e, wk, exitCode) => RecordWitness(db, now, e, wk, exitCode)
    case OpReleaseTerminal => Reply(ReleaseTerminal(db), true)
    case OpTransition(k, token, to, error, retry) => TransitionAttempt(db, now, k, token, to, error, retry)
    case OpClaimRecovery(k, token, ttl) => ClaimRecovery(db, now, k, token, ttl)
    case OpReleaseRecovery(k, token) => ReleaseRecovery(db, k, token)
    case OpFinalizeRecovery(k, token, error) => FinalizeRecovery(kind, db, now, k, token, error)
    case OpFinalize(k, token, c, fence) => FinalizeAttempt(kind, db, now, k, token, c, fence)
  }

  datatype Event = Event(now: real, op: Op)

  /** Store calls in the order they took effect, with the rows before, between and after them. */
  datatype History = History(kind: StoreKind, rows: seq<Db>, events: seq<Event>) {
    ghost predicate Valid() {
      && |rows| == |events| + 1
      && forall i: nat {:trigger Step(i)} :: i < |events| ==> Step(i)
    }

    ghost predicate Step(i: nat)
      requires |rows| == |events| + 1 && i < |events|
    {
      Apply(kind, rows[i], events[i].now, events[i].op).db == rows[i + 1]
    }

    predicate Succeeds(i: nat)
      requires |rows| == |events| + 1 && i < |events|
    {
      Apply(kind, rows[i], events[i].now, events[i].op).ok
    }

    ghost predicate Monotone() {
      forall i, j :: 0 <= i <= j < |events| ==> events[i].now <= events[j].now
    }

    /** `instant` is a moment at which `rows[i]` are the current rows. */
    ghost predicate Instant(i: nat, instant: real) {
      && i <= |events|
      && (0 < i ==> events[i - 1].now <= instant)
      && (i < |events| ==> instant <= events[i].now)
    }
  }

  // ================================================================ which tables a call can touch

  predicate RunCall(op: Op) { op.OpRead? || op.OpCreateRun? || op.OpUpdateRun? || op.OpClaimNextRun? }
  predicate HostCall(op: Op) { op.OpStartSession? || op.OpHeartbeatSession? }
  predicate DeliveryCall(op: Op) {
    op.OpEnqueue? || op.OpClaimRequest? || op.OpProcessStarted? || op.OpRecordWitness? || op.OpReleaseTerminal?
  }
  predicate LeaseCall(op: Op) {
    op.OpRecordAttempt? || op.OpAcquireLease? || op.OpHeartbeatAttempt? || op.OpRecordProcess? || op.OpHeartbeatQueued?
    || op.OpRecordExecution?
  }
  predicate ClaimCall(op: Op) { op.OpClaimRecovery? || op.OpReleaseRecovery? }
  predicate CompletionCall(op: Op) { op.OpTransition? || op.OpFinalizeRecovery? || op.OpFinalize? }

  ghost predicate SameHosts(db: Db, db': Db) { db'.sessions == db.sessions && db'.hosts == db.hosts }
  ghost predicate SameLedger(db: Db, db': Db) { db'.requests == db.requests && db'.witnesses == db.witnesses }

  lemma RunCallFrame(h: History, i: nat)
    requires h.Valid() && i < |h.events| && RunCall(h.events[i].op)
    ensures h.rows[i + 1].attempts == h.rows[i].attempts && SameHosts(h.rows[i], h.rows[i + 1])
    ensures SameLedger(h.rows[i], h.rows[i + 1])
  {
    assert h.Step(i);
  }

  lemma HostCallFrame(h: History, i: nat)
    requires h.Valid() && i < |h.events| && HostCall(h.events[i].op)
    ensures h.rows[i + 1].attempts == h.rows[i].attempts && h.rows[i + 1].runs == h.rows[i].runs
    ensures SameLedger(h.rows[i], h.rows[i + 1])
  {
    assert h.Step(i);
  }

  lemma DeliveryCallFrame(h: History, i: nat)
    requires h.Valid() && i < |h.events| && DeliveryCall(h.events[i].op)
    ensures h.rows[i + 1].attempts == h.rows[i].attempts && h.rows[i + 1].runs == h.rows[i].runs
    ensures SameHosts(h.rows[i], h.rows[i + 1])
  {
    assert h.Step(i);
  }

  lemma LeaseCallFrame(h: History, i: nat)
    requires h.Valid() && i < |h.events| && LeaseCall(h.events[i].op)
    ensures h.rows[i + 1].runs == h.rows[i].runs && SameHosts(h.rows[i], h.rows[i + 1])
    ensures SameLedger(h.rows[i], h.rows[i + 1])
  {
    assert h.Step(i);
    match h.events[i].op {
      case OpRecordAttempt(_) =>
      case OpAcquireLease(_, _, _) =>
      case OpHeartbeatAttempt(_, _, _) =>
      case OpRecordProcess(_, _, _) =>
      case OpHeartbeatQueued(_, _) =>
      case OpRecordExecution(_, _, _) =>
    }
  }

  lemma ClaimCallFrame(h: History, i: nat)
    requires h.Valid() && i < |h.events| && ClaimCall(h.events[i].op)
    ensures h.rows[i + 1].runs == h.rows[i].runs && SameHosts(h.rows[i], h.rows[i + 1])
    ensures SameLedger(h.rows[i], h.rows[i + 1])
  {
    assert h.Step(i);
  }

  lemma CompletionCallFrame(h: History, i: nat)
    requires h.Valid() && i < |h.events| && CompletionCall(h.events[i].op)
    ensures SameHosts(h.rows[i], h.rows[i + 1]) && h.rows[i + 1].witnesses == h.rows[i].witnesses
  {
    assert h.Step(i);
  }

  // ================================================================ what one call may do to one row

  /** The one call that may revive a lapsed lease: a refresh of a delivery still queued under a live current session. */
  ghost predicate Revives(db: Db, e: Event, k: AttemptKey) {
    e.op.OpHeartbeatQueued? && WaitsFor(db, k, e.op.session) && SessionLive(db, e.op.session, e.now)
  }

  predicate Acquires(op: Op, k: AttemptKey, b: Attempt) {
    op.OpAcquireLease? && op.k == k && b.leaseToken == Some(op.token)
  }

  /** A lease changes hands only after it lapsed, and is extended only while live, or by a queued refresh. */
  ghost predicate LeaseEvolves(db: Db, e: Event, k: AttemptKey, a: Attempt, b: Attempt) {
    && (a.leaseToken != b.leaseToken ==> Acquires(e.op, k, b) && !LeaseLive(a, e.now))
    && (a.leaseToken == b.leaseToken && a.leaseExpires != b.leaseExpires ==>
          LeaseLive(a, e.now) || Revives(db, e, k) || Acquires(e.op, k, b))
  }

  /** A recovery claim appears only where none is live. */
  ghost predicate ClaimEvolves(e: Event, k: AttemptKey, a: Attempt, b: Attempt) {
    a.recovery != b.recovery ==>
      || b.recovery.None?
      || (Unclaimed(a, e.now) && e.op.OpClaimRecovery? && e.op.k == k && b.recovery.value.token == e.op.token)
  }

  /** The owner of an execution is registered only under a live current session of that very host and epoch. */
  ghost predicate OwnerEvolves(db: Db, e: Event, a: Attempt, b: Attempt) {
    a.owner != b.owner && b.owner.Some? ==>
      SessionLive(db, b.owner.value.at.session, e.now) && OwnerAgrees(db, b.owner.value.at)
  }

  ghost predicate RowEvolves(db: Db, db': Db, e: Event, k: AttemptKey) {
    && (k in db.attempts ==>
          && k in db'.attempts
          && LeaseEvolves(db, e, k, db.attempts[k], db'.attempts[k])
          && ClaimEvolves(e, k, db.attempts[k], db'.attempts[k])
          && OwnerEvolves(db, e, db.attempts[k], db'.attempts[k]))
    && (k !in db.attempts && k in db'.attempts ==> db'.attempts[k] == FRESH_ATTEMPT)
  }

  lemma LeaseCallEvolvesRow(h: History, i: nat, k: AttemptKey)
    requires h.Valid() && i < |h.events| && LeaseCall(h.events[i].op)
    ensures RowEvolves(h.rows[i], h.rows[i + 1], h.events[i], k)
  {
    assert h.Step(i);
    match h.events[i].op {
      case OpRecordAttempt(_) =>
      case OpAcquireLease(_, _, _) =>
      case OpHeartbeatAttempt(_, _, _) =>
      case OpRecordProcess(_, _, _) =>
      case OpHeartbeatQueued(_, _) =>
      case OpRecordExecution(_, _, _) =>
    }
  }

  lemma ClaimCallEvolvesRow(h: History, i: nat, k: AttemptKey)
    requires h.Valid() && i < |h.events| && ClaimCall(h.events[i].op)
    ensures RowEvolves(h.rows[i], h.rows[i + 1], h.events[i], k)
  {
    assert h.Step(i);
  }

  lemma CompletionCallEvolvesRow(h: History, i: nat, k: AttemptKey)
    requires h.Valid() && i < |h.events| && CompletionCall(h.events[i].op)
    ensures RowEvolves(h.rows[i], h.rows[i + 1], h.events[i], k)
  {
    assert h.Step(i);
  }

  /** Whatever the call, one Attempt row evolves only in these ways. */
  lemma RowStep(h: History, i: nat, k: AttemptKey)
    requires h.Valid() && i < |h.events|
    ensures RowEvolves(h.rows[i], h.rows[i + 1], h.events[i], k)
  {
    var op := h.events[i].op;
    if LeaseCall(op) { LeaseCallEvolvesRow(h, i, k); }
    else if ClaimCall(op) { ClaimCallEvolvesRow(h, i, k); }
    else if CompletionCall(op) { CompletionCallEvolvesRow(h, i, k); }
    else if RunCall(op) { RunCallFrame(h, i); }
    else if HostCall(op) { HostCallFrame(h, i); }
    else { DeliveryCallFrame(h, i); }
  }

  // ================================================================ host-epoch fencing

  /** Sessions, hosts and registered executions agree. */
  ghost predicate HostsAgree(db: Db) {
    && (forall h :: h in db.hosts ==>
          && db.hosts[h].session in db.sessions
          && db.sessions[db.hosts[h].session].host == h
          && db.sessions[db.hosts[h].session].epoch == db.hosts[h].epoch)
    && (forall k :: k in db.attempts && db.attempts[k].owner.Some? ==> OwnerAgrees(db, db.attempts[k].owner.value.at))
  }

  predicate OwnerAgrees(db: Db, at: HostRef) {
    at.session in db.sessions && db.sessions[at.session].host == at.host && db.sessions[at.session].epoch == at.epoch
  }

  /** Sessions keep their host and epoch; a host's entry changes only to a session that did not exist before. */
  ghost predicate HostsEvolve(db: Db, db': Db, s: SessionId, g: HostId) {
    && (s in db.sessions ==>
          s in db'.sessions && db'.sessions[s].host == db.sessions[s].host
          && db'.sessions[s].epoch == db.sessions[s].epoch)
    && (g in db'.hosts ==> (g in db.hosts && db'.hosts[g] == db.hosts[g]) || Installed(db, db', g))
  }

  ghost predicate Installed(db: Db, db': Db, g: HostId) {
    && g in db'.hosts
    && var s := db'.hosts[g].session;
       s !in db.sessions && s in db'.sessions && db'.sessions[s].host == g
       && db'.sessions[s].epoch == db'.hosts[g].epoch
  }

  lemma HostCallEvolvesHosts(h: History, i: nat, s: SessionId, g: HostId)
    requires h.Valid() && i < |h.events| && HostCall(h.events[i].op)
    ensures HostsEvolve(h.rows[i], h.rows[i + 1], s, g)
  {
    assert h.Step(i);
  }

  lemma HostStep(h: History, i: nat, s: SessionId, g: HostId)
    requires h.Valid() && i < |h.events|
    ensures HostsEvolve(h.rows[i], h.rows[i + 1], s, g)
  {
    var op := h.events[i].op;
    if HostCall(op) { HostCallEvolvesHosts(h, i, s, g); }
    else if RunCall(op) { RunCallFrame(h, i); }
    else if DeliveryCall(op) { DeliveryCallFrame(h, i); }
    else if CompletionCall(op) { CompletionCallFrame(h, i); }
    else if ClaimCall(op) { ClaimCallFrame(h, i); }
    else { LeaseCallFrame(h, i); }
  }

  lemma StepKeepsHostsAgree(h: History, i: nat)
    requires h.Valid() && i < |h.events| && HostsAgree(h.rows[i])
    ensures HostsAgree(h.rows[i + 1])
  {
    var db, db' := h.rows[i], h.rows[i + 1];
    forall g | g in db'.hosts
      ensures db'.hosts[g].session in db'.sessions && db'.sessions[db'.hosts[g].session].host == g
      ensures db'.sessions[db'.hosts[g].session].epoch == db'.hosts[g].epoch
    {
      HostStep(h, i, if g in db.hosts then db.hosts[g].session else 0, g);
    }
    forall k | k in db'.attempts && db'.attempts[k].owner.Some?
      ensures OwnerAgrees(db', db'.attempts[k].owner.value.at)
    {
      RowStep(h, i, k);
      HostStep(h, i, db'.attempts[k].owner.value.at.session, 0);
    }
  }

  ghost predicate Superseded(db: Db, s: SessionId) { s in db.sessions && !Current(db, s) }

  lemma StepKeepsSuperseded(h: History, i: nat, s: SessionId)
    requires h.Valid() && i < |h.events| && Superseded(h.rows[i], s)
    ensures Superseded(h.rows[i + 1], s)
  {
    var db, db' := h.rows[i], h.rows[i + 1];
    HostStep(h, i, s, 0);
    forall g | g in db'.hosts ensures db'.hosts[g].session != s {
      HostStep(h, i, s, g);
    }
  }

  lemma {:induction false} SupersededForever(h: History, i: nat, j: nat, s: SessionId)
    requires h.Valid() && i <= j <= |h.events| && Superseded(h.rows[i], s)
    ensures Superseded(h.rows[j], s)
  {
    if i < j {
      SupersededForever(h, i, j - 1, s);
      StepKeepsSuperseded(h, j - 1, s);
    }
  }

  lemma {:induction false} HostsAlwaysAgree(h: History, j: nat)
    requires h.Valid() && j <= |h.events| && HostsAgree(h.rows[0])
    ensures HostsAgree(h.rows[j])
  {
    if 0 < j {
      HostsAlwaysAgree(h, j - 1);
      StepKeepsHostsAgree(h, j - 1);
    }
  }

  /** The calls made in the name of session `s`. */
  predicate ActsFor(op: Op, s: SessionId) {
    match op
    case OpHeartbeatSession(s', _) => s' == s
    case OpHeartbeatQueued(s', _) => s' == s
    case OpRecordExecution(_, _, owner) => owner.at.session == s
    case OpFinalize(_, _, _, fence) => fence.Some? && fence.value.session == s
    case _ => false
  }

  lemma SupersededCannotAct(h: History, m: nat, s: SessionId)
    requires h.Valid() && m < |h.events| && Superseded(h.rows[m], s) && ActsFor(h.events[m].op, s)
    ensures !h.Succeeds(m) && h.rows[m + 1] == h.rows[m]
  {
    assert h.Step(m);
  }

  lemma NewSessionSupersedes(h: History, i: nat)
    requires h.Valid() && i < |h.events| && HostsAgree(h.rows[i])
    requires h.events[i].op.OpStartSession? && h.Succeeds(i) && h.events[i].op.at.host in h.rows[i].hosts
    ensures Superseded(h.rows[i + 1], h.rows[i].hosts[h.events[i].op.at.host].session)
  {
    assert h.Step(i);
    var before, after, host := h.rows[i], h.rows[i + 1], h.events[i].op.at.host;
    forall g | g in after.hosts && g != host
      ensures after.hosts[g].session != before.hosts[host].session
    {
      assert before.sessions[before.hosts[g].session].host == g;
      assert before.sessions[before.hosts[host].session].host == host;
    }
  }

  /**
   * Once a host starts a new session, its old session is dead for good: in no continuation of the
   * history does a heartbeat, a queued refresh, a registration or an owner-fenced completion in its
   * name succeed or change a row.
   */
  lemma OldSessionNeverActsAgain(h: History, i: nat, m: nat)
    requires h.Valid() && HostsAgree(h.rows[0]) && i < m < |h.events|
    requires h.events[i].op.OpStartSession? && h.Succeeds(i) && h.events[i].op.at.host in h.rows[i].hosts
    requires ActsFor(h.events[m].op, h.rows[i].hosts[h.events[i].op.at.host].session)
    ensures !h.Succeeds(m) && h.rows[m + 1] == h.rows[m]
  {
    HostsAlwaysAgree(h, i);
    NewSessionSupersedes(h, i);
    var s := h.rows[i].hosts[h.events[i].op.at.host].session;
    SupersededForever(h, i + 1, m, s);
    SupersededCannotAct(h, m, s);
  }

  /** In any history, an accepted owner-fenced completion was made by the current session and epoch of its host. */
  lemma AcceptedCompletionIsCurrent(h: History, m: nat)
    requires h.Valid() && HostsAgree(h.rows[0]) && m < |h.events|
    requires h.events[m].op.OpFinalize? && h.events[m].op.fence.Some? && h.Succeeds(m)
    ensures var at := h.events[m].op.fence.value;
            && at.host in h.rows[m].hosts && h.rows[m].hosts[at.host] == Host(at.epoch, at.session)
            && h.rows[m].sessions[at.session].expires >= h.events[m].now
  {
    HostsAlwaysAgree(h, m);
    var db, at := h.rows[m], h.events[m].op.fence.value;
    var host :| host in db.hosts && db.hosts[host].session == at.session;
    assert db.sessions[at.session].host == host;
  }

  // ================================================================ lease exclusion

  /** `token` holds a live lease on `k` at `instant`. */
  ghost predicate LeaseHeld(db: Db, k: AttemptKey, token: Token, instant: real) {
    k in db.attempts && db.attempts[k].leaseToken == Some(token) && LeaseLive(db.attempts[k], instant)
  }

  /** From event `i` on, nobody acquires `k` under `token`: tokens are drawn fresh. */
  ghost predicate NotReissued(h: History, i: nat, k: AttemptKey, token: Token) {
    forall m :: i <= m < |h.events| && h.events[m].op.OpAcquireLease? && h.events[m].op.k == k ==>
      h.events[m].op.token != token
  }

  lemma StepKeepsForeignLease(h: History, i: nat, k: AttemptKey, token: Token)
    requires h.Valid() && i < |h.events| && NotReissued(h, i, k, token)
    requires k in h.rows[i].attempts && h.rows[i].attempts[k].leaseToken != Some(token)
    ensures k in h.rows[i + 1].attempts && h.rows[i + 1].attempts[k].leaseToken != Some(token)
  {
    RowStep(h, i, k);
  }

  /** Live intervals of distinct lease tokens do not overlap, and a replaced token is never live again. */
  lemma {:induction false} LeaseExclusion(h: History, k: AttemptKey, replaced: Token, holder: Token,
                                          j: nat, l: nat, at: real, later: real)
    requires h.Valid() && j <= l <= |h.events| && replaced != holder && NotReissued(h, j, k, replaced)
    requires LeaseHeld(h.rows[j], k, holder, at)
    ensures !LeaseHeld(h.rows[l], k, replaced, later)
    ensures k in h.rows[l].attempts && h.rows[l].attempts[k].leaseToken != Some(replaced)
  {
    if j < l {
      LeaseExclusion(h, k, replaced, holder, j, l - 1, at, later);
      StepKeepsForeignLease(h, l - 1, k, replaced);
    }
  }

  /** A lease changes hands only by an acquisition, at an instant when the previous lease has lapsed. */
  lemma HandoverAfterLapse(h: History, i: nat, k: AttemptKey, holder: Token)
    requires h.Valid() && i < |h.events| && k in h.rows[i].attempts && k in h.rows[i + 1].attempts
    requires h.rows[i].attempts[k].leaseToken == Some(holder) && h.rows[i].attempts[k].leaseExpires.Some?
    requires h.rows[i + 1].attempts[k].leaseToken != Some(holder)
    ensures h.events[i].op.OpAcquireLease? && LeaseLapsed(h.rows[i].attempts[k], h.events[i].now)
  {
    RowStep(h, i, k);
  }

  /** If `token` still names the lease on `k`, that lease ends at `end`. */
  ghost predicate EndsAt(db: Db, k: AttemptKey, token: Token, end: real) {
    k in db.attempts && (db.attempts[k].leaseToken == Some(token) ==> db.attempts[k].leaseExpires == Some(end))
  }

  lemma StepKeepsEnd(h: History, i: nat, k: AttemptKey, token: Token, end: real)
    requires h.Valid() && i < |h.events| && NotReissued(h, i, k, token)
    requires EndsAt(h.rows[i], k, token, end) && end < h.events[i].now && !Revives(h.rows[i], h.events[i], k)
    ensures EndsAt(h.rows[i + 1], k, token, end)
  {
    RowStep(h, i, k);
  }

  /**
   * A lapsed lease never becomes live again under the same token, unless in between some queued
   * refresh found the Attempt's delivery still QUEUED under a live, current session.
   */
  lemma LapsedStaysLapsed(h: History, k: AttemptKey, token: Token, i: nat, l: nat, at: real, later: real)
    returns (m: nat)
    requires h.Valid() && i <= l <= |h.events| && h.Monotone() && NotReissued(h, i, k, token)
    requires h.Instant(i, at) && at <= later
    requires k in h.rows[i].attempts && h.rows[i].attempts[k].leaseToken == Some(token)
    requires LeaseLapsed(h.rows[i].attempts[k], at)
    requires LeaseHeld(h.rows[l], k, token, later)
    ensures i <= m < l && Revives(h.rows[m], h.events[m], k)
  {
    var end := h.rows[i].attempts[k].leaseExpires.value;
    m := i;
    while m < l && !Revives(h.rows[m], h.events[m], k)
      invariant i <= m <= l && EndsAt(h.rows[m], k, token, end)
    {
      assert h.events[i].now <= h.events[m].now;
      StepKeepsEnd(h, m, k, token, end);
      m := m + 1;
    }
  }

  // ================================================================ recovery-claim exclusion

  ghost predicate ClaimedBy(db: Db, k: AttemptKey, token: Token) {
    k in db.attempts && db.attempts[k].recovery.Some? && db.attempts[k].recovery.value.token == token
  }

  ghost predicate ClaimHeld(db: Db, k: AttemptKey, token: Token, instant: real) {
    ClaimedBy(db, k, token) && db.attempts[k].recovery.value.expires >= instant
  }

  ghost predicate NotReclaimed(h: History, i: nat, k: AttemptKey, token: Token) {
    forall m :: i <= m < |h.events| && h.events[m].op.OpClaimRecovery? && h.events[m].op.k == k ==>
      h.events[m].op.token != token
  }

  lemma StepAddsNoClaim(h: History, i: nat, k: AttemptKey, token: Token)
    requires h.Valid() && i < |h.events| && NotReclaimed(h, i, k, token)
    requires ClaimedBy(h.rows[i + 1], k, token)
    ensures ClaimedBy(h.rows[i], k, token) && h.rows[i + 1].attempts[k].recovery == h.rows[i].attempts[k].recovery
  {
    RowStep(h, i, k);
  }

  /**
   * A recovery claim that is present now under a token drawn once has been present, unchanged, at every
   * earlier point since the token was drawn.
   */
  lemma {:induction false} ClaimPersistsBackwards(h: History, k: AttemptKey, token: Token, i: nat, l: nat)
    requires h.Valid() && i <= l <= |h.events| && NotReclaimed(h, i, k, token)
    requires ClaimedBy(h.rows[l], k, token)
    ensures ClaimedBy(h.rows[i], k, token) && h.rows[l].attempts[k].recovery == h.rows[i].attempts[k].recovery
  {
    if i < l {
      StepAddsNoClaim(h, l - 1, k, token);
      ClaimPersistsBackwards(h, k, token, i, l - 1);
    }
  }

  /** Live intervals of distinct recovery tokens do not overlap, and a replaced or expired claim never comes back. */
  lemma ClaimExclusion(h: History, k: AttemptKey, token: Token, i: nat, l: nat, at: real, later: real)
    requires h.Valid() && i <= l <= |h.events| && at <= later && NotReclaimed(h, i, k, token)
    requires !ClaimHeld(h.rows[i], k, token, at)
    ensures !ClaimHeld(h.rows[l], k, token, later)
  {
    if ClaimedBy(h.rows[l], k, token) {
      ClaimPersistsBackwards(h, k, token, i, l);
    }
  }

  // ================================================================ the delivery ledger

  /** A witness belongs to a delivery, and a completed delivery has one. */
  predicate LedgerOk(db: Db, x: ExecutionId) {
    && (x in db.witnesses ==> x in db.requests)
    && (x in db.requests && db.requests[x].status.DeliveryCompleted? ==> x in db.witnesses)
  }

  /** What may become of one delivery. */
  predicate MovedUp(before: Request, after: Request) {
    && before.key == after.key && before.host == after.host && before.owner == after.owner
    && before.leaseToken == after.leaseToken
    && (before.status == after.status || before.status.Rank() < after.status.Rank())
  }

  predicate LedgerGrew(db: Db, db': Db, x: ExecutionId) {
    && (x in db.requests ==> x in db'.requests && MovedUp(db.requests[x], db'.requests[x]))
    && (x in db.witnesses ==> x in db'.witnesses && db'.witnesses[x] == db.witnesses[x])
    && (LedgerOk(db, x) ==> LedgerOk(db', x))
  }

  lemma DeliveryCallGrowsLedger(h: History, i: nat, x: ExecutionId)
    requires h.Valid() && i < |h.events| && DeliveryCall(h.events[i].op)
    ensures LedgerGrew(h.rows[i], h.rows[i + 1], x)
  {
    assert h.Step(i);
    match h.events[i].op {
      case OpEnqueue(_, _, _, _, _) =>
      case OpClaimRequest(_, _, _) =>
      case OpProcessStarted(_, _) =>
      case OpRecordWitness(_, _, _) =>
      case OpReleaseTerminal =>
    }
  }

  lemma CompletionCallGrowsLedger(h: History, i: nat, x: ExecutionId)
    requires h.Valid() && i < |h.events| && CompletionCall(h.events[i].op)
    ensures LedgerGrew(h.rows[i], h.rows[i + 1], x)
  {
    assert h.Step(i);
  }

  lemma LedgerStep(h: History, i: nat, x: ExecutionId)
    requires h.Valid() && i < |h.events|
    ensures LedgerGrew(h.rows[i], h.rows[i + 1], x)
  {
    var op := h.events[i].op;
    if DeliveryCall(op) { DeliveryCallGrowsLedger(h, i, x); }
    else if CompletionCall(op) { CompletionCallGrowsLedger(h, i, x); }
    else if RunCall(op) { RunCallFrame(h, i); }
    else if HostCall(op) { HostCallFrame(h, i); }
    else if ClaimCall(op) { ClaimCallFrame(h, i); }
    else { LeaseCallFrame(h, i); }
  }

  /**
   * Over any history: a delivery only moves up QUEUED, CLAIMED, RUNNING, {COMPLETED, UNAVAILABLE}, what it
   * delivers never changes, a witness once recorded never changes, and COMPLETED always has its witness.
   */
  lemma {:induction false} LedgerOnlyGrows(h: History, i: nat, j: nat, x: ExecutionId)
    requires h.Valid() && i <= j <= |h.events|
    ensures LedgerGrew(h.rows[i], h.rows[j], x)
  {
    if i < j {
      LedgerOnlyGrows(h, i, j - 1, x);
      LedgerStep(h, j - 1, x);
    }
  }

  predicate OnDelivery(op: Op, e: ExecutionId) {
    (op.OpClaimRequest? || op.OpRecordWitness?) && op.execution == e
  }

  /** A delivery is claimed by at most one Supervisor call, and witnessed by at most one observation, ever. */
  lemma ClaimedAndWitnessedOnce(h: History, i: nat, j: nat, e: ExecutionId)
    requires h.Valid() && i < j < |h.events|
    requires OnDelivery(h.events[i].op, e) && OnDelivery(h.events[j].op, e)
    requires h.events[i].op.OpClaimRequest? == h.events[j].op.OpClaimRequest?
    requires h.Succeeds(i)
    ensures !h.Succeeds(j)
  {
    assert h.Step(i);
    LedgerOnlyGrows(h, i + 1, j, e);
  }

  /** A witness that came before its delivery was taken up, and so did not complete it. */
  predicate Premature(db: Db, x: ExecutionId) {
    x in db.requests && x in db.witnesses && !db.requests[x].status.DeliveryCompleted?
  }

  lemma DeliveryCallKeepsPremature(h: History, i: nat, x: ExecutionId)
    requires h.Valid() && i < |h.events| && DeliveryCall(h.events[i].op) && Premature(h.rows[i], x)
    ensures Premature(h.rows[i + 1], x)
  {
    assert h.Step(i);
    match h.events[i].op {
      case OpEnqueue(_, _, _, _, _) =>
      case OpClaimRequest(_, _, _) =>
      case OpProcessStarted(_, _) =>
      case OpRecordWitness(_, _, _) =>
      case OpReleaseTerminal =>
    }
  }

  lemma CompletionCallKeepsPremature(h: History, i: nat, x: ExecutionId)
    requires h.Valid() && i < |h.events| && CompletionCall(h.events[i].op) && Premature(h.rows[i], x)
    ensures Premature(h.rows[i + 1], x)
  {
    assert h.Step(i);
  }

  lemma CallKeepsPremature(h: History, i: nat, x: ExecutionId)
    requires h.Valid() && i < |h.events| && Premature(h.rows[i], x)
    ensures Premature(h.rows[i + 1], x)
  {
    var op := h.events[i].op;
    if DeliveryCall(op) { DeliveryCallKeepsPremature(h, i, x); }
    else if CompletionCall(op) { CompletionCallKeepsPremature(h, i, x); }
    else if RunCall(op) { RunCallFrame(h, i); }
    else if HostCall(op) { HostCallFrame(h, i); }
    else if ClaimCall(op) { ClaimCallFrame(h, i); }
    else { LeaseCallFrame(h, i); }
  }

  /** Such a delivery never becomes COMPLETED, whatever its Supervisor observes later. */
  lemma {:induction false} PrematureWitnessNeverCompletes(h: History, i: nat, j: nat, x: ExecutionId)
    requires h.Valid() && i <= j <= |h.events| && Premature(h.rows[i], x)
    ensures Premature(h.rows[j], x)
  {
    if i < j {
      PrematureWitnessNeverCompletes(h, i, j - 1, x);
      CallKeepsPremature(h, j - 1, x);
    }
  }

  predicate ActiveIn(db: Db, x: ExecutionId) { x in db.requests && db.requests[x].status.Active() }

  /** An accepted recovery of the Attempt the delivery belongs to. */
  ghost predicate Retires(h: History, m: nat, x: ExecutionId)
    requires h.Valid() && m < |h.events|
  {
    && h.events[m].op.OpFinalizeRecovery? && h.Succeeds(m)
    && x in h.rows[m].requests && h.rows[m].requests[x].key == h.events[m].op.k
  }

  lemma DeliveryCallKeepsPrematureActive(h: History, i: nat, x: ExecutionId)
    requires h.Valid() && i < |h.events| && DeliveryCall(h.events[i].op)
    requires Premature(h.rows[i], x) && ActiveIn(h.rows[i], x)
    ensures ActiveIn(h.rows[i + 1], x)
  {
    assert h.Step(i);
    match h.events[i].op {
      case OpEnqueue(_, _, _, _, _) =>
      case OpClaimRequest(_, _, _) =>
      case OpProcessStarted(_, _) =>
      case OpRecordWitness(_, _, _) =>
      case OpReleaseTerminal =>
    }
  }

  lemma CompletionCallKeepsPrematureActive(h: History, i: nat, x: ExecutionId)
    requires h.Valid() && i < |h.events| && CompletionCall(h.events[i].op)
    requires Premature(h.rows[i], x) && ActiveIn(h.rows[i], x) && !Retires(h, i, x)
    ensures ActiveIn(h.rows[i + 1], x)
  {
    assert h.Step(i);
  }

  lemma CallKeepsPrematureActive(h: History, i: nat, x: ExecutionId)
    requires h.Valid() && i < |h.events| && Premature(h.rows[i], x) && ActiveIn(h.rows[i], x) && !Retires(h, i, x)
    ensures ActiveIn(h.rows[i + 1], x)
  {
    var op := h.events[i].op;
    if DeliveryCall(op) { DeliveryCallKeepsPrematureActive(h, i, x); }
    else if CompletionCall(op) { CompletionCallKeepsPrematureActive(h, i, x); }
    else if RunCall(op) { RunCallFrame(h, i); }
    else if HostCall(op) { HostCallFrame(h, i); }
    else if ClaimCall(op) { ClaimCallFrame(h, i); }
    else { LeaseCallFrame(h, i); }
  }

  /**
   * Only an accepted recovery of its Attempt ever retires such a delivery: not its Supervisor, and not the release of
   * terminal deliveries. The lemma returns that recovery. Until then its capacity stays taken.
   */
  lemma OnlyRecoveryRetiresPremature(h: History, i: nat, j: nat, x: ExecutionId) returns (m: nat)
    requires h.Valid() && i <= j <= |h.events|
    requires Premature(h.rows[i], x) && ActiveIn(h.rows[i], x) && !ActiveIn(h.rows[j], x)
    ensures i <= m < j && Retires(h, m, x) && ActiveIn(h.rows[m], x)
  {
    m := i;
    while m < j && !Retires(h, m, x)
      invariant i <= m <= j && Premature(h.rows[m], x) && ActiveIn(h.rows[m], x)
    {
      CallKeepsPremature(h, m, x);
      CallKeepsPrematureActive(h, m, x);
      m := m + 1;
    }
  }

  // ================================================================ one claim per Run, one completion per Attempt

  /** What the callers in service.py, worker.py and execution_supervisor.py keep to. */
  predicate Disciplined(db: Db, op: Op) {
    match op
    case OpUpdateRun(_, status, _) => !status.RunQueued?
    case OpRecordAttempt(k) => k !in db.attempts
    case OpTransition(_, _, to, _, _) => !to.AttemptRunning?
    case OpFinalize(_, _, c, _) => !c.attempt.AttemptRunning? && c.run.Terminal()
    case _ => true
  }

  ghost predicate DisciplinedHistory(h: History) {
    h.Valid() && forall i :: 0 <= i < |h.events| ==> Disciplined(h.rows[i], h.events[i].op)
  }

  /** What stays with a Run through one step. */
  ghost predicate RunKept(db: Db, db': Db, job: JobId) {
    job in db.runs ==>
      && job in db'.runs && db'.runs[job].spec == db.runs[job].spec
      && (!db.runs[job].status.RunQueued? ==> !db'.runs[job].status.RunQueued?)
  }

  /** What stays of an Attempt that is no longer running. */
  ghost predicate ClosedRowKept(db: Db, db': Db, k: AttemptKey) {
    Closed(db, k) ==> k in db'.attempts && db'.attempts[k] == db.attempts[k]
  }

  ghost predicate Closed(db: Db, k: AttemptKey) { k in db.attempts && !db.attempts[k].status.AttemptRunning? }

  lemma StepKeepsRunsAndClosedRows(h: History, i: nat, job: JobId, k: AttemptKey)
    requires DisciplinedHistory(h) && i < |h.events|
    ensures RunKept(h.rows[i], h.rows[i + 1], job)
    ensures ClosedRowKept(h.rows[i], h.rows[i + 1], k)
  {
    assert h.Step(i);
    assert Disciplined(h.rows[i], h.events[i].op);
  }

  /**
   * A job id keeps the spec it was first submitted with, a claimed Run is never QUEUED again, a closed Attempt row is
   * final.
   */
  lemma {:induction false} RunsAndClosedRowsKept(h: History, i: nat, j: nat, job: JobId, k: AttemptKey)
    requires DisciplinedHistory(h) && i <= j <= |h.events|
    ensures RunKept(h.rows[i], h.rows[j], job)
    ensures ClosedRowKept(h.rows[i], h.rows[j], k)
  {
    if i < j {
      RunsAndClosedRowsKept(h, i, j - 1, job, k);
      StepKeepsRunsAndClosedRows(h, j - 1, job, k);
    }
  }

  /** However many workers poll, a Run is claimed for execution at most once. */
  lemma RunClaimedOnce(h: History, i: nat, j: nat)
    requires DisciplinedHistory(h) && i < j < |h.events|
    requires h.events[i].op.OpClaimNextRun? && h.events[j].op.OpClaimNextRun?
    requires h.events[i].op.job == h.events[j].op.job
    requires h.Succeeds(i)
    ensures !h.Succeeds(j)
  {
    assert h.Step(i);
    RunsAndClosedRowsKept(h, i + 1, j, h.events[i].op.job, AttemptKey(0, 0));
  }

  predicate CompletesAttempt(op: Op, k: AttemptKey) {
    (op.OpTransition? || op.OpFinalize? || op.OpFinalizeRecovery?) && op.k == k
  }

  lemma CompletionCloses(h: History, i: nat, k: AttemptKey)
    requires DisciplinedHistory(h) && i < |h.events| && CompletesAttempt(h.events[i].op, k) && h.Succeeds(i)
    ensures !Closed(h.rows[i], k) && Closed(h.rows[i + 1], k)
  {
    assert h.Step(i);
    assert Disciplined(h.rows[i], h.events[i].op);
  }

  /**
   * Accepted completion is unique. Among any holders of old, current and recovery tokens, at most one
   * completing call on an Attempt succeeds, and the row it wrote is the Attempt's row ever after.
   */
  lemma CompletedOnce(h: History, k: AttemptKey, i: nat, j: nat)
    requires DisciplinedHistory(h) && i < j <= |h.events|
    requires CompletesAttempt(h.events[i].op, k) && h.Succeeds(i)
    ensures k in h.rows[j].attempts && k in h.rows[i + 1].attempts && h.rows[j].attempts[k] == h.rows[i + 1].attempts[k]
    ensures j < |h.events| && CompletesAttempt(h.events[j].op, k) ==> !h.Succeeds(j)
  {
    CompletionCloses(h, i, k);
    RunsAndClosedRowsKept(h, i + 1, j, k.job, k);
    if j < |h.events| && CompletesAttempt(h.events[j].op, k) && h.Succeeds(j) {
      CompletionCloses(h, j, k);
    }
  }

  /** The upsert itself does not protect a closed Attempt: recorded again under the same number, it runs again. */
  lemma UpsertReopensClosedAttempt(db: Db, k: AttemptKey)
    requires k.job in db.runs && Closed(db, k)
    ensures RecordAttempt(db, k).ok && !Closed(RecordAttempt(db, k).db, k)
  {
  }

  // ================================================================ the two stores

  predicate Halves(db: Db, now: real, op: Op) {
    match op
    case OpFinalize(k, token, _, fence) =>
      Fenced(db, now, k, token) && OwnerFence(db, now, k, fence) && !RunOpen(db, k.job)
    case OpFinalizeRecovery(k, token, _) => HoldsClaim(db, k, token) && !RunOpen(db, k.job)
    case _ => false
  }

  /** The Attempt row a completion writes. */
  function Completed(db: Db, op: Op): Attempt
    requires op.OpFinalize? || op.OpFinalizeRecovery?
    requires op.k in db.attempts
  {
    if op.OpFinalize? then Close(db.attempts[op.k], op.completion.attempt, op.completion.error, op.completion.retry)
    else Close(db.attempts[op.k], AttemptAbandoned, Some(op.failure), RecoveryRequired)
  }

  /**
   * The SQLite and PostgreSQL stores take the same step, for every call on every rows, except on a completion whose
   * Attempt guard holds while the Run is not RUNNING and which would change the Attempt row (as every completion of a
   * disciplined caller does). There both report failure, SQLite leaves the rows alone, and PostgreSQL keeps the
   * Attempt half.
   */
  lemma StoresAgreeExactlyWhen(db: Db, now: real, op: Op)
    ensures Apply(Sqlite, db, now, op) == Apply(Postgres, db, now, op) <==>
              !(Halves(db, now, op) && Completed(db, op) != db.attempts[op.k])
    ensures Apply(Sqlite, db, now, op).ok == Apply(Postgres, db, now, op).ok
    ensures Halves(db, now, op) ==>
              && Apply(Sqlite, db, now, op).db == db
              && Apply(Postgres, db, now, op).db == SetAttempt(db, op.k, Completed(db, op))
    ensures Halves(db, now, op) && Disciplined(db, op) ==>
      Closed(Apply(Postgres, db, now, op).db, op.k) && !Closed(db, op.k)
  {
    if Halves(db, now, op) {
      var a := SetAttempt(db, op.k, Completed(db, op));
      assert a.attempts[op.k] == Completed(db, op);
      assert Completed(db, op) == db.attempts[op.k] ==> a.attempts == db.attempts;
    }
  }
}
