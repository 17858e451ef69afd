/**
 * One supervised job from its claimed Run to its verdict: the executor delivers, the Supervisor of the same host runs
 * and completes (service.py `_execute`, execution_supervisor.py `run_once`).
 */
module EndToEnd {
  import opened Prelude
  import opened Acceptance
  import opened Tables
  import opened StoreOps
  import opened History
  import opened Columns
  import opened Protocol
  import opened ClusterObject
  import opened ExecutorLoop
  import opened Deliveries
  import opened Execution
  import opened Supervision

  /** The only delivery that waits for the host is `e`. */
  predicate OnlyWaiting(db: Db, e: ExecutionId, host: HostId) {
    Waiting(db, e, host) && forall f :: f in db.requests && Waiting(db, f, host) ==> f == e
  }

  /** What the delivery sent by the executor comes to, if time alone passes until `now`. */
  lemma AcceptedUntil(s: Sys, e: ExecutionId, now: real, lease: real)
    requires s.now <= now && Completable(s, e) && RunOpen(s.db, s.db.requests[e].key.job)
    requires var a := s.db.attempts[s.db.requests[e].key];
             a.leaseExpires == Some(s.now + lease) && a.recovery.None?
    ensures var session := s.db.attempts[s.db.requests[e].key].owner.value.at.session;
            Accepted(s.(now := now), e) <==> now <= s.now + lease && now <= s.db.sessions[session].expires
  {
  }

  /** The Supervisor's turn over a delivery that was just sent. */
  method Supervise(supervisor: Supervisor, e: ExecutionId, lease: real, ending: Ending, reportsChild: bool)
    returns (turn: Turn)
    requires supervisor.cluster.Valid() && supervisor.Alone()
    requires ending.Exited? && InParserRange(ending.report)
    requires var s := supervisor.cluster.Now();
             && OnlyWaiting(s.db, e, supervisor.host) && Completable(s, e) && RunOpen(s.db, s.db.requests[e].key.job)
             && var a := s.db.attempts[s.db.requests[e].key];
                a.leaseExpires == Some(s.now + lease) && a.recovery.None?
    modifies supervisor, supervisor.cluster, supervisor.cluster.store
    ensures supervisor.cluster.Valid() && Continues(old(supervisor.cluster.log), supervisor.cluster.log)
    ensures turn == Turn.Accomplished(e) || turn == FenceLost(e)
    ensures var s, s' := old(supervisor.cluster.Now()), supervisor.cluster.Now();
            var k := s.db.requests[e].key;
            && (turn.Accomplished? <==>
                  s'.now <= s.now + lease
                  && s'.now <= s.db.sessions[s.db.attempts[k].owner.value.at.session].expires)
            && (turn.Accomplished? ==> Completed(s'.db, k, ending))
  {
    ghost var s := supervisor.cluster.Now();
    ghost var at, noted;
    turn, at, noted := supervisor.RunOnce(ending, reportsChild);
    assert turn.execution == e;
    assert s.now <= supervisor.cluster.Now().now by {
      NeverEarlier(supervisor.cluster.log, |old(supervisor.cluster.log).steps|, |supervisor.cluster.log.steps|);
    }
    AcceptedUntil(s, e, supervisor.cluster.Now().now, lease);
    KeyKept(supervisor.cluster.log, |old(supervisor.cluster.log).steps|, |supervisor.cluster.log.steps| - 1, e);
  }

  /** The clock never goes back. */
  lemma {:induction false} NeverEarlier(b: Behavior, from: nat, to: nat)
    requires b.Valid() && from <= to <= |b.steps|
    ensures b.states[from].now <= b.states[to].now
  {
    if from < to {
      NeverEarlier(b, from, to - 1);
      assert b.Takes(to - 1);
    }
  }

  lemma {:induction false} KeyKept(b: Behavior, from: nat, to: nat, e: ExecutionId)
    requires b.Valid() && from <= to <= |b.steps| && e in b.states[from].db.requests
    ensures e in b.states[to].db.requests && b.states[to].db.requests[e].key == b.states[from].db.requests[e].key
  {
    if from < to {
      KeyKept(b, from, to - 1, e);
      assert b.Takes(to - 1);
      StepKeepsPayload(b.cfg, b.states[to - 1], b.steps[to - 1], e);
    }
  }

  /** Attempt and Run are closed with the verdict of the report: SUCCEEDED and TRUSTED, or FAILED. */
  ghost predicate Completed(db: Db, k: AttemptKey, ending: Ending)
    requires ending.Exited?
  {
    && k in db.attempts && k.job in db.runs
    && var accepted := && ending.report.parse.ParseOk? && ending.report.semantic.FindingValid?
                       && ending.exitCode == Some(0);
       && db.attempts[k].status == (if accepted then AttemptSucceeded else AttemptFailed)
       && db.runs[k.job].status == (if accepted then RunSucceeded else RunFailed)
       && db.runs[k.job].verdict == ValidationFields(ending.report, ending.exitCode)
  }

  /** Where nothing waited, what was sent is all that waits. */
  lemma SentWaits(executor: ExecutorThread, s0: Sys, s: Sys)
    requires executor.Sent(s0, s, 1) && NothingWaits(s0.db, s.execs[executor.j].owner.value.host)
    ensures OnlyWaiting(s.db, executor.execution(1), s.execs[executor.j].owner.value.host)
    ensures var e, k := executor.execution(1), AttemptKey(executor.j, 1);
            && Completable(s, e) && s.db.requests[e].key == k && RunOpen(s.db, executor.j)
            && s.db.attempts[k].leaseExpires == Some(s.now + executor.cluster.log.cfg.lease)
            && s.db.attempts[k].recovery.None?
  {
  }

  /**
   * Left alone, a supervised job comes to its verdict: the executor of a claimed Run delivers its first Attempt, and
   * the Supervisor of its host, whose adapter takes until some later time, completes it. The completion is accepted,
   * and the Run closed with the report's verdict, exactly if that time is within the lease and the session.
   */
  method RunsToItsVerdict(executor: ExecutorThread, supervisor: Supervisor, ending: Ending, reportsChild: bool)
    returns (turn: Turn, ghost sent: Sys)
    requires executor.Ready() && executor.Me().stage.Pending? && executor.Alone()
    requires executor.Sendable(executor.cluster.Now())
    requires supervisor.cluster == executor.cluster && supervisor.Alone()
    requires supervisor.host == executor.Me().owner.value.host
    requires NothingWaits(executor.cluster.Now().db, supervisor.host)
    requires ending.Exited? && InParserRange(ending.report)
    modifies executor, supervisor, executor.cluster, executor.cluster.store
    ensures executor.cluster.Valid() && Continues(old(executor.cluster.log), executor.cluster.log)
    ensures turn == Turn.Accomplished(executor.execution(1)) || turn == FenceLost(executor.execution(1))
    ensures executor.Sent(old(executor.cluster.Now()), sent, 1)
    ensures var k, now := AttemptKey(executor.j, 1), executor.cluster.Now().now;
            && (turn.Accomplished? <==>
                  now <= sent.now + executor.cluster.log.cfg.lease
                  && now <= sent.db.sessions[sent.db.attempts[k].owner.value.at.session].expires)
            && (turn.Accomplished? ==> Completed(executor.cluster.Now().db, k, ending))
  {
    ghost var s0 := executor.cluster.Now();
    executor.Execute();
    sent := executor.cluster.Now();
    SentWaits(executor, s0, sent);
    turn := Supervise(supervisor, executor.execution(1), executor.cluster.log.cfg.lease, ending, reportsChild);
  }
}
