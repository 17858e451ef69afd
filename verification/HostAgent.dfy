/**
 * One host's agent: registers its session, keeps it and its queued leases alive, and drains only while it is current
 * (host_agent.py).
 */
module Agent {
  import opened Prelude
  import opened Tables
  import opened StoreOps
  import opened History
  import opened StoreObject
  import opened Protocol
  import opened ProtocolTheorems
  import opened Dispatch
  import opened ClusterObject
  import opened Draining
  import opened Worker

  /**
   * `Duplicate` is the primary-key error of a session id used before; `Replaced` the RuntimeError of a superseded
   * session.
   */
  datatype AgentEnd = Ok | Duplicate | Replaced

  /** In every reachable state sessions, hosts and registered executions agree. */
  lemma {:induction false} AlwaysHostsAgree(b: Behavior, i: nat)
    requires b.Valid() && i <= |b.steps|
    ensures HostsAgree(b.states[i].db)
  {
    if 0 < i {
      AlwaysHostsAgree(b, i - 1);
      assert b.Takes(i - 1);
      var h := CallHistory(b.cfg, b.states[i - 1], b.steps[i - 1]);
      StepKeepsHostsAgree(h, 0);
    }
  }

  /** A superseded session stays superseded, whatever anyone does. */
  lemma {:induction false} SupersededStays(b: Behavior, i: nat, l: nat, session: SessionId)
    requires b.Valid() && i <= l <= |b.steps| && Superseded(b.states[i].db, session)
    ensures Superseded(b.states[l].db, session)
  {
    if i < l {
      SupersededStays(b, i, l - 1, session);
      assert b.Takes(l - 1);
      var h := CallHistory(b.cfg, b.states[l - 1], b.steps[l - 1]);
      StepKeepsSuperseded(h, 0, session);
    }
  }

  /** A registered session keeps its host and epoch. */
  lemma {:induction false} SessionKept(b: Behavior, i: nat, l: nat, at: HostRef)
    requires b.Valid() && i <= l <= |b.steps| && OwnerAgrees(b.states[i].db, at)
    ensures OwnerAgrees(b.states[l].db, at)
  {
    if i < l {
      SessionKept(b, i, l - 1, at);
      assert b.Takes(l - 1);
      var h := CallHistory(b.cfg, b.states[l - 1], b.steps[l - 1]);
      HostStep(h, 0, at.session, 0);
    }
  }

  /** A started session takes its host over from whichever session had it. */
  lemma StartTakesOver(db: Db, now: real, at: HostRef, ttl: real)
    requires HostsAgree(db) && at.session !in db.sessions
    ensures var db' := StartSession(db, now, at, ttl).db;
            && SessionLiveFor(db', at, now + ttl)
            && (at.host in db.hosts ==> Superseded(db', db.hosts[at.host].session))
  {
    var h := History(Sqlite, [db, StartSession(db, now, at, ttl).db], [Event(now, OpStartSession(at, ttl))]);
    assert h.Step(0);
    if at.host in db.hosts { NewSessionSupersedes(h, 0); }
    assert h.rows[1].hosts[at.host].session == at.session;
  }

  /** `at` is its host's current session and expires at `expires`. */
  ghost predicate SessionLiveFor(db: Db, at: HostRef, expires: real) {
    Current(db, at.session) && at.session in db.sessions
    && db.sessions[at.session] == Session(at.host, at.epoch, expires)
  }

  class HostAgent {
    const cluster: Cluster
    const at: HostRef
    const ttl: real
    const worker: PostgresWorker
    var started: bool

    constructor (cluster: Cluster, at: HostRef, ttl: real, maxInFlight: nat)
      ensures this.cluster == cluster && this.at == at && this.ttl == ttl && !started
      ensures fresh(worker) && worker.cluster == cluster && worker.at == at && worker.maxInFlight == maxInFlight
    {
      this.cluster, this.at, this.ttl, this.started := cluster, at, ttl, false;
      worker := new PostgresWorker(cluster, at, maxInFlight);
    }

    /** A started agent's session was registered for this very host and epoch. */
    ghost predicate Ready()
      reads this, cluster, cluster.store
    {
      && cluster.Valid() && worker.cluster == cluster && worker.at == at
      && (started ==> OwnerAgrees(cluster.Now().db, at))
    }

    /** Every lease that waits in the session's queue lives for another `ttl`. */
    ghost predicate QueueFresh(s: Sys) {
      forall k :: k in s.db.attempts && WaitsFor(s.db, k, at.session) ==>
        s.db.attempts[k].leaseExpires == Some(s.now + ttl)
    }

    /** At some moment after `from` the session had just been extended. */
    ghost predicate Renewed(b: Behavior, from: nat)
      requires |b.states| == |b.steps| + 1
    {
      exists m :: from < m <= |b.steps| && SessionLiveFor(b.states[m].db, at, b.states[m].now + ttl)
    }

    /** Register the session; the host's previous session is superseded by it. */
    method Start() returns (end: AgentEnd)
      requires Ready()
      modifies this, cluster, cluster.store
      ensures Ready() && Continues(old(cluster.log), cluster.log)
      ensures forall i :: |old(cluster.log).steps| <= i < |cluster.log.steps| ==>
        !Owns(WorkerOf(at.host), cluster.log.steps[i])
      ensures end.Ok? <==> at.session !in old(cluster.Now()).db.sessions
      ensures !end.Ok? ==> end.Duplicate? && cluster.Now() == old(cluster.Now()) && started == old(started)
      ensures end.Ok? ==>
        && started && SessionLiveFor(cluster.Now().db, at, cluster.Now().now + ttl)
        && (at.host in old(cluster.Now()).db.hosts ==>
              Superseded(cluster.Now().db, old(cluster.Now()).db.hosts[at.host].session))
    {
      ghost var s := cluster.Now();
      AlwaysHostsAgree(cluster.log, |cluster.log.steps|);
      var registered := cluster.store.StartHostSession(cluster.Now().now, at, ttl);
      cluster.Took(Bystander(OpStartSession(at, ttl)));
      if !registered { return Duplicate; }
      StartTakesOver(s.db, s.now, at, ttl);
      started := true;
      end := Ok;
    }

    /**
     * Extend the session, starting it first if need be, then refresh the leases of deliveries still queued. A started
     * agent is refused exactly when its session is no longer the current one, and then changes nothing; accepted, its
     * session has been extended, and if it still lives then, every lease that waits in its queue lives for another
     * `ttl`.
     */
    method Heartbeat(turn: seq<Step>) returns (end: AgentEnd)
      requires Ready() && 0.0 <= ttl
      modifies this, cluster, cluster.store
      ensures Ready() && Continues(old(cluster.log), cluster.log)
      ensures old(started) ==> (end.Replaced? <==> !Current(old(cluster.Now()).db, at.session)) && !end.Duplicate?
      ensures !old(started) ==> (end.Duplicate? <==> at.session in old(cluster.Now()).db.sessions) && !end.Replaced?
      ensures !end.Ok? ==> cluster.Now() == old(cluster.Now())
      ensures forall i :: |old(cluster.log).steps| <= i < |cluster.log.steps| ==>
        !Owns(WorkerOf(at.host), cluster.log.steps[i])
      ensures end.Ok? ==>
        && Renewed(cluster.log, |old(cluster.log).steps|)
        && (SessionLive(cluster.Now().db, at.session, cluster.Now().now) ==> QueueFresh(cluster.Now()))
      ensures end.Ok? && turn == [] ==>
        && SessionLiveFor(cluster.Now().db, at, cluster.Now().now + ttl)
        && QueueFresh(cluster.Now())
    {
      if !started {
        end := Start();
        if !end.Ok? { return; }
      }
      var alive := Extend();
      if !alive { return Replaced; }
      ghost var n := |cluster.log.steps|;
      assert SessionLiveFor(cluster.log.states[n].db, at, cluster.log.states[n].now + ttl);
      cluster.Others(turn, WorkerOf(at.host));
      assert n < |cluster.log.steps| ==> cluster.log.steps[n] in turn;
      SessionKept(cluster.log, n, |cluster.log.steps|, at);
      Refresh();
      end := Ok;
    }

    method Extend() returns (alive: bool)
      requires Ready() && started
      modifies cluster, cluster.store
      ensures Ready() && Continues(old(cluster.log), cluster.log)
      ensures forall i :: |old(cluster.log).steps| <= i < |cluster.log.steps| ==>
        !Owns(WorkerOf(at.host), cluster.log.steps[i])
      ensures alive <==> Current(old(cluster.Now()).db, at.session)
      ensures |old(cluster.log).steps| < |cluster.log.steps|
      ensures if alive then SessionLiveFor(cluster.Now().db, at, cluster.Now().now + ttl)
              else cluster.Now() == old(cluster.Now())
    {
      alive := cluster.store.HeartbeatHostSession(cluster.Now().now, at.session, ttl);
      cluster.Took(Bystander(OpHeartbeatSession(at.session, ttl)));
    }

    method Refresh()
      requires Ready() && started && 0.0 <= ttl
      modifies cluster, cluster.store
      ensures Ready() && Continues(old(cluster.log), cluster.log)
      ensures forall i :: |old(cluster.log).steps| <= i < |cluster.log.steps| ==>
        !Owns(WorkerOf(at.host), cluster.log.steps[i])
      ensures cluster.Now().db.sessions == old(cluster.Now()).db.sessions
      ensures cluster.Now().db.hosts == old(cluster.Now()).db.hosts
      ensures cluster.Now().now == old(cluster.Now()).now
      ensures SessionLive(cluster.Now().db, at.session, cluster.Now().now) ==> QueueFresh(cluster.Now())
    {
      var refreshed := cluster.store.HeartbeatQueuedExecutionAttempts(cluster.Now().now, at.session, ttl);
      cluster.Took(Bystander(OpHeartbeatQueued(at.session, ttl)));
    }

    /**
     * Drain under the session. A superseded agent is refused before anything happens: it recovers nothing, releases
     * nothing and claims nothing. A current one has its worker drain, from where the heartbeat left the run (`kept`),
     * and reports what the worker reports.
     */
    method Drain(maxJobs: Option<nat>, concurrency: int, turn: seq<Step>, turns: seq<seq<Step>>, recoveryRaises: bool)
      returns (refused: AgentEnd, completed: multiset<JobId>, end: DrainEnd, ghost kept: Behavior, ghost used: nat,
               ghost d: DrainRun)
      requires Ready() && 0.0 <= ttl && worker.Ready()
      modifies this, cluster, cluster.store
      ensures cluster.Valid() && Continues(old(cluster.log), cluster.log)
      ensures old(started) ==> (refused.Replaced? <==> !Current(old(cluster.Now()).db, at.session))
      ensures !refused.Ok? ==> cluster.Now() == old(cluster.Now()) && completed == multiset{}
      ensures refused.Ok? ==> Continues(old(cluster.log), kept) && Continues(kept, cluster.log)
      ensures refused.Ok? ==> (end.InvalidConcurrency? <==> concurrency < 1)
      ensures refused.Ok? ==> (end.PassRaised? <==> 1 <= concurrency && recoveryRaises)
      ensures refused.Ok? && 1 <= concurrency ==>
        && Follows(Begun(worker.TermsOf(maxJobs, concurrency), kept), d) && d.b == cluster.log
        && worker.Ended(d, completed, end)
        && (end.StillWaiting? ==> used == |turns| && WaitsOnFuture(cluster.Now(), d.End()))
      ensures refused.Ok? && 1 <= concurrency ==>
        LoadWithin(cluster.log, |old(cluster.log).steps|, |cluster.log.steps|, at.host,
                   Limit(worker.TermsOf(maxJobs, concurrency), old(cluster.Now())))
    {
      completed, end, used := multiset{}, InvalidConcurrency, 0;
      kept, d := cluster.log, Begun(worker.TermsOf(maxJobs, 0), cluster.log);
      ghost var n, s := |cluster.log.steps|, cluster.Now();
      refused := Heartbeat(turn);
      if refused.Ok? {
        kept := cluster.log;
        OthersKeepLoad(kept, n, |kept.steps|, at.host);
        SubsetCount(Undispatched(Last(kept), at.host), Undispatched(s, at.host));
        completed, end, used, d := worker.Drain(maxJobs, concurrency, turns, recoveryRaises);
        if 1 <= concurrency {
          ghost var w := worker.TermsOf(maxJobs, concurrency);
          LoadJoined(kept, cluster.log, n, at.host, Limit(w, Last(kept)), Limit(w, s));
        }
      }
    }
  }
}
