/**
 * The Store as the source has it: an object whose methods update its tables in place.
 * Each method is proved to perform the step of the same name in StoreOps.dfy.
 */
module StoreObject {
  import opened Prelude
  import opened Acceptance
  import opened Tables
  import Ops = StoreOps

  class Store {
    const kind: StoreKind
    var runs: map<JobId, Run>
    var attempts: map<AttemptKey, Attempt>
    var sessions: map<SessionId, Session>
    var hosts: map<HostId, Host>
    var requests: map<ExecutionId, Request>
    var witnesses: map<ExecutionId, Witness>

    function Rows(): Db
      reads this
    {
      Db(runs, attempts, sessions, hosts, requests, witnesses)
    }

    constructor (kind: StoreKind)
      ensures this.kind == kind && Rows() == EMPTY_DB
    {
      this.kind := kind;
      runs, attempts, sessions, hosts, requests, witnesses := map[], map[], map[], map[], map[], map[];
    }

    /** What other processes committed since this one last looked. */
    method Observe(db: Db)
      modifies this
      ensures Rows() == db
    {
      runs, attempts, sessions := db.runs, db.attempts, db.sessions;
      hosts, requests, witnesses := db.hosts, db.requests, db.witnesses;
    }

    method CreateRun(now: real, job: JobId, spec: SpecHash, budget: Option<nat>) returns (result: Ops.Admission)
      modifies this
      ensures result == Ops.CreateRun(old(Rows()), now, job, spec, budget)
      ensures Rows() == if result.Created? then result.db else old(Rows())
    {
      if job in runs { return Ops.Existing; }
      if budget.Some? {
        var inFlight := set j | j in runs && (runs[j].status.RunQueued? || runs[j].status.RunRunning?);
        assert inFlight == Ops.InFlight(Rows());
        if |inFlight| >= budget.value { return Ops.BudgetExhausted; }
      }
      runs := runs[job := Run(RunQueued, spec, NO_VERDICT, now)];
      return Ops.Created(Rows());
    }

    method UpdateRun(now: real, job: JobId, status: RunStatus, trust: Option<Trust>)
      modifies this
      ensures Rows() == Ops.UpdateRun(old(Rows()), now, job, status, trust)
    {
      if job in runs {
        var run := runs[job].(status := status, updatedAt := now);
        if trust.Some? { run := run.(verdict := run.verdict.(trust := trust.value)); }
        runs := runs[job := run];
      }
    }

    /** The oldest queued Run, by `updatedAt`, becomes RUNNING. */
    method ClaimNextRun(now: real) returns (claimed: Option<JobId>)
      requires kind.Postgres?
      modifies this
      ensures claimed.None? ==> Rows() == old(Rows()) && forall j :: j in runs ==> !runs[j].status.RunQueued?
      ensures claimed.Some? ==>
        && Ops.ClaimNextRun(old(Rows()), now, claimed.value) == Ops.Reply(Rows(), true)
        && (forall j :: j in old(runs) && old(runs)[j].status.RunQueued? ==>
              old(runs)[claimed.value].updatedAt <= old(runs)[j].updatedAt)
    {
      var queued := set j | j in runs && runs[j].status.RunQueued?;
      if queued == {} {
        assert forall j :: j in runs && runs[j].status.RunQueued? ==> j in queued;
        return None;
      }
      var oldest :| oldest in queued;
      var rest := queued - {oldest};
      while rest != {}
        invariant oldest in queued && rest <= queued
        invariant forall j :: j in queued - rest ==> runs[oldest].updatedAt <= runs[j].updatedAt
        decreases rest
      {
        var j :| j in rest;
        if runs[j].updatedAt < runs[oldest].updatedAt { oldest := j; }
        rest := rest - {j};
      }
      runs := runs[oldest := runs[oldest].(status := RunRunning, updatedAt := now)];
      return Some(oldest);
    }

    method RecordAttempt(k: AttemptKey) returns (ok: bool)
      modifies this
      ensures Ops.Reply(Rows(), ok) == Ops.RecordAttempt(old(Rows()), k)
    {
      if k.job !in runs { return false; }
      if k in attempts {
        attempts := attempts[k := attempts[k].(status := AttemptRunning, error := None, retry := NotClassified)];
      } else {
        attempts := attempts[k := Ops.FRESH_ATTEMPT];
      }
      return true;
    }

    method AcquireAttemptLease(now: real, k: AttemptKey, token: Token, ttl: real) returns (ok: bool)
      modifies this
      ensures Ops.Reply(Rows(), ok) == Ops.AcquireLease(old(Rows()), now, k, token, ttl)
    {
      ok := Ops.IsRunning(Rows(), k) && (attempts[k].leaseExpires.None? || attempts[k].leaseExpires.value < now);
      if ok {
        attempts := attempts[k := attempts[k].(leaseToken := Some(token), leaseExpires := Some(now + ttl))];
      }
    }

    method HeartbeatAttempt(now: real, k: AttemptKey, token: Token, ttl: real) returns (ok: bool)
      modifies this
      ensures Ops.Reply(Rows(), ok) == Ops.HeartbeatAttempt(old(Rows()), now, k, token, ttl)
    {
      ok := Ops.Holds(Rows(), k, token) && Ops.LeaseLive(attempts[k], now);
      if ok { attempts := attempts[k := attempts[k].(leaseExpires := Some(now + ttl))]; }
    }

    method RecordAttemptProcess(k: AttemptKey, token: Token, child: Child) returns (ok: bool)
      modifies this
      ensures Ops.Reply(Rows(), ok) == Ops.RecordProcess(old(Rows()), k, token, child)
    {
      ok := Ops.Holds(Rows(), k, token);
      if ok { attempts := attempts[k := attempts[k].(child := Some(child))]; }
    }

    /** False stands for the primary-key error of a reused session id. */
    method StartHostSession(now: real, at: HostRef, ttl: real) returns (ok: bool)
      modifies this
      ensures Ops.Reply(Rows(), ok) == Ops.StartSession(old(Rows()), now, at, ttl)
    {
      ok := at.session !in sessions;
      if ok {
        sessions := sessions[at.session := Session(at.host, at.epoch, now + ttl)];
        hosts := hosts[at.host := Host(at.epoch, at.session)];
      }
    }

    method HeartbeatHostSession(now: real, s: SessionId, ttl: real) returns (ok: bool)
      modifies this
      ensures Ops.Reply(Rows(), ok) == Ops.HeartbeatSession(old(Rows()), now, s, ttl)
    {
      ok := s in sessions && Ops.Current(Rows(), s);
      if ok { sessions := sessions[s := sessions[s].(expires := now + ttl)]; }
    }

    /** Returns how many Attempts were refreshed. */
    method HeartbeatQueuedExecutionAttempts(now: real, s: SessionId, ttl: real) returns (n: nat)
      modifies this
      ensures Rows() == Ops.HeartbeatQueued(old(Rows()), now, s, ttl)
      ensures n == if Ops.SessionLive(old(Rows()), s, now)
                   then |set k | k in old(attempts) && Ops.WaitsFor(old(Rows()), k, s)| else 0
    {
      if !Ops.SessionLive(Rows(), s, now) { return 0; }
      var waiting := set k | k in attempts && Ops.WaitsFor(Rows(), k, s);
      attempts := map k | k in attempts ::
                    if k in waiting then attempts[k].(leaseExpires := Some(now + ttl)) else attempts[k];
      assert attempts == Ops.HeartbeatQueued(old(Rows()), now, s, ttl).attempts;
      return |waiting|;
    }

    method RecordAttemptExecution(now: real, k: AttemptKey, token: Token, owner: Owner) returns (ok: bool)
      modifies this
      ensures Ops.Reply(Rows(), ok) == Ops.RecordExecution(old(Rows()), now, k, token, owner)
    {
      ok := Ops.Holds(Rows(), k, token) && Ops.SessionLive(Rows(), owner.at.session, now)
            && sessions[owner.at.session].host == owner.at.host && sessions[owner.at.session].epoch == owner.at.epoch;
      if ok { attempts := attempts[k := attempts[k].(owner := Some(owner))]; }
    }

    method EnqueueExecutionRequest(now: real, e: ExecutionId, k: AttemptKey, host: HostId, leaseToken: Token,
                                   owner: HostRef)
      returns (ok: bool)
      modifies this
      ensures Ops.Reply(Rows(), ok) == Ops.Enqueue(old(Rows()), now, e, k, host, leaseToken, owner)
    {
      ok := e !in requests;
      if ok { requests := requests[e := Request(k, host, DeliveryQueued, now, None, leaseToken, owner)]; }
    }

    /** The oldest request queued for `host`, by `createdAt`, becomes CLAIMED by `supervisor`. */
    method ClaimExecutionRequest(host: HostId, supervisor: SupervisorId) returns (claimed: Option<ExecutionId>)
      modifies this
      ensures claimed.None? ==> Rows() == old(Rows()) && forall e :: e in requests ==> !Ops.Waiting(Rows(), e, host)
      ensures claimed.Some? ==>
        && Ops.ClaimRequest(old(Rows()), host, supervisor, claimed.value) == Ops.Reply(Rows(), true)
        && (forall e :: e in old(requests) && Ops.Waiting(old(Rows()), e, host)
              ==> old(requests)[claimed.value].createdAt <= old(requests)[e].createdAt)
    {
      var queued := set e | e in requests && Ops.Waiting(Rows(), e, host);
      if queued == {} {
        assert forall e :: e in requests && Ops.Waiting(Rows(), e, host) ==> e in queued;
        return None;
      }
      var oldest :| oldest in queued;
      var rest := queued - {oldest};
      while rest != {}
        invariant oldest in queued && rest <= queued
        invariant forall e :: e in queued - rest ==> requests[oldest].createdAt <= requests[e].createdAt
        decreases rest
      {
        var e :| e in rest;
        if requests[e].createdAt < requests[oldest].createdAt { oldest := e; }
        rest := rest - {e};
      }
      requests := requests[oldest := requests[oldest].(status := DeliveryClaimed, supervisor := Some(supervisor))];
      return Some(oldest);
    }

    method RecordSupervisorProcessStarted(e: ExecutionId, supervisor: SupervisorId) returns (ok: bool)
      modifies this
      ensures Ops.Reply(Rows(), ok) == Ops.ProcessStarted(old(Rows()), e, supervisor)
    {
      ok := e in requests && requests[e].status.DeliveryClaimed? && requests[e].supervisor == Some(supervisor);
      if ok { requests := requests[e := requests[e].(status := DeliveryRunning)]; }
    }

    method RecordTerminationWitness(now: real, e: ExecutionId, kind: WitnessKind, exitCode: Option<int>)
      returns (ok: bool)
      modifies this
      ensures Ops.Reply(Rows(), ok) == Ops.RecordWitness(old(Rows()), now, e, kind, exitCode)
    {
      ok := e in requests && e !in witnesses;
      if ok {
        witnesses := witnesses[e := Witness(kind, exitCode, now)];
        if requests[e].status.DeliveryClaimed? || requests[e].status.DeliveryRunning? {
          requests := requests[e := requests[e].(status := DeliveryCompleted)];
        } else {
          assert requests == requests[e := requests[e]];
        }
      }
    }

    method ReleaseTerminalExecutionRequests()
      requires kind.Postgres?
      modifies this
      ensures Rows() == Ops.ReleaseTerminal(old(Rows()))
      ensures forall e :: e in requests && requests[e].status.Active() && e !in witnesses ==>
                !(requests[e].key in attempts && attempts[requests[e].key].status.AttemptAbandoned?)
    {
      requests := map e | e in requests ::
                    if Ops.Releasable(Rows(), e) then requests[e].(status := DeliveryUnavailable) else requests[e];
    }

    method CountActiveExecutionRequests(host: HostId) returns (n: nat)
      requires kind.Postgres?
      ensures n == |Ops.ActiveFor(Rows(), host)|
    {
      var active := set e | e in requests && requests[e].host == host && requests[e].status.Active();
      assert active == Ops.ActiveFor(Rows(), host);
      n := |active|;
    }

    method TransitionAttempt(now: real, k: AttemptKey, token: Token, status: AttemptStatus, error: Option<ErrorType>,
                             retry: RetryClass)
      returns (ok: bool)
      modifies this
      ensures Ops.Reply(Rows(), ok) == Ops.TransitionAttempt(old(Rows()), now, k, token, status, error, retry)
    {
      ok := Ops.Fenced(Rows(), now, k, token);
      if ok { attempts := attempts[k := attempts[k].(status := status, error := error, retry := retry)]; }
    }

    method ClaimRecovery(now: real, k: AttemptKey, token: Token, ttl: real) returns (ok: bool)
      modifies this
      ensures Ops.Reply(Rows(), ok) == Ops.ClaimRecovery(old(Rows()), now, k, token, ttl)
    {
      ok := Ops.IsRunning(Rows(), k) && Ops.LeaseLapsed(attempts[k], now) && Ops.Unclaimed(attempts[k], now);
      if ok { attempts := attempts[k := attempts[k].(recovery := Some(Claim(token, now + ttl)))]; }
    }

    method ReleaseRecoveryClaim(k: AttemptKey, token: Token) returns (ok: bool)
      modifies this
      ensures Ops.Reply(Rows(), ok) == Ops.ReleaseRecovery(old(Rows()), k, token)
    {
      ok := Ops.HoldsClaim(Rows(), k, token);
      if ok { attempts := attempts[k := attempts[k].(recovery := None)]; }
    }

    method FinalizeRecovery(now: real, k: AttemptKey, token: Token, error: ErrorType) returns (ok: bool)
      modifies this
      ensures Ops.Reply(Rows(), ok) == Ops.FinalizeRecovery(kind, old(Rows()), now, k, token, error)
    {
      if !Ops.HoldsClaim(Rows(), k, token) { return false; }
      var before := attempts;
      attempts := attempts[k := attempts[k].(
                             status := AttemptAbandoned, error := Some(error), retry := RecoveryRequired)];
      if !Ops.RunOpen(Rows(), k.job) {
        if kind.Sqlite? { attempts := before; }
        return false;
      }
      runs := runs[k.job := runs[k.job].(status := RunFailed, updatedAt := now)];
      requests := map e | e in requests :: if requests[e].key == k && requests[e].status.Active()
                                           then requests[e].(status := DeliveryUnavailable) else requests[e];
      return true;
    }

    method FinalizeAttemptAndRun(now: real, k: AttemptKey, token: Token, c: Ops.Completion, owner: Option<HostRef>)
      returns (ok: bool)
      modifies this
      ensures Ops.Reply(Rows(), ok) == Ops.FinalizeAttempt(kind, old(Rows()), now, k, token, c, owner)
    {
      if !Ops.Fenced(Rows(), now, k, token) || !Ops.OwnerFence(Rows(), now, k, owner) { return false; }
      var before := attempts;
      attempts := attempts[k := attempts[k].(status := c.attempt, error := c.error, retry := c.retry)];
      if !Ops.RunOpen(Rows(), k.job) {
        if kind.Sqlite? { attempts := before; }
        return false;
      }
      var run := runs[k.job];
      runs := runs[k.job := run.(status := c.run, verdict := Ops.WriteFields(run.verdict, c.fields), updatedAt := now)];
      return true;
    }
  }
}
