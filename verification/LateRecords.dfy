/**
 * A pass is overtaken. The executor of a Run has gone quiet and its lease has lapsed; a reconciler reads its Attempt;
 * then the executor, which still holds the lease token, records a child, or an owner, and the reconciler abandons the
 * Attempt on what it read (service.py `recover_stale_runs`, store.py `record_attempt_process`).
 */
module LateRecords {
  import opened Prelude
  import opened Acceptance
  import opened Tables
  import opened StoreOps
  import opened History
  import opened Protocol
  import opened Reconciling
  import opened RowEvidence
  import opened Recovery

  const K := AttemptKey(0, 1)

  /** What a pass without a Host Agent works from that has read the Attempts of Run 0 in state `at`; no child seen. */
  function AsSeen(s: Sys, at: nat): View {
    View(s.db, {K}, at, map[0 := at], {}, map[], None, {7}, 7)
  }

  /** The pass claims the Attempt under token 7 and closes it as worker unavailable. */
  ghost predicate Abandoned(b: Behavior, v: View, e: Evidence) {
    && b.Valid() && b.cfg.onlyDead && WasRead(b, v, 0) && Justifies(e, b, v) && e.k == K && !NoAttempts(v.seen, 0)
    && FiledRightly(Recovered, 0, v, b) && ClosedTogether(Last(b).db, K)
    && RuledAbandoned(Last(b).db, K, ErrorWorkerUnavailable)
  }

  lemma Claims7(b: Behavior) returns (c: Behavior)
    requires b.Valid() && ClaimAllowed(Last(b), K) && RunOpen(Last(b).db, 0) && Last(b).db.witnesses == map[]
    ensures c.Valid() && Continues(b, c) && c.steps == b.steps + [Bystander(OpClaimRecovery(K, 7, 5.0))]
    ensures HoldsClaim(Last(c).db, K, 7) && RunOpen(Last(c).db, 0) && Last(c).db.witnesses == map[]
    ensures Last(c).now == Last(b).now
    ensures Last(c).db.attempts[K].child == Last(b).db.attempts[K].child
    ensures Last(c).db.attempts[K].owner == Last(b).db.attempts[K].owner
  {
    c := Extended(b, Bystander(OpClaimRecovery(K, 7, 5.0)));
  }

  lemma Closes7(b: Behavior) returns (c: Behavior)
    requires b.Valid() && HoldsClaim(Last(b).db, K, 7) && RunOpen(Last(b).db, 0)
    ensures c.Valid() && Continues(b, c)
    ensures c.steps == b.steps + [Bystander(OpFinalizeRecovery(K, 7, ErrorWorkerUnavailable))]
    ensures ClosedTogether(Last(c).db, K) && RuledAbandoned(Last(c).db, K, ErrorWorkerUnavailable)
  {
    c := Extended(b, Bystander(OpFinalizeRecovery(K, 7, ErrorWorkerUnavailable)));
  }

  /** Claim and closing follow one another, and are justified by what was read: a RUNNING Attempt without a child. */
  lemma ClaimsAndCloses(b0: Behavior, v: View) returns (b: Behavior, e: Evidence)
    requires b0.Valid() && b0.cfg.onlyDead && WasRead(b0, v, 0) && v.from <= |b0.steps|
    requires v == AsSeen(b0.states[v.from], v.from)
    requires ClaimAllowed(Last(b0), K) && RunOpen(Last(b0).db, 0) && Last(b0).db.witnesses == map[]
    requires v.seen.attempts == map[K := FRESH_ATTEMPT.(leaseToken := Some(3), leaseExpires := Some(1.0))]
    ensures Abandoned(b, v, e) && e == Evidence(K, 7, |b0.steps|, |b0.steps| + 1, |b0.steps| + 1) && Continues(b0, b)
    ensures K in b.states[e.close].db.attempts
    ensures b.states[e.close].db.attempts[K].child == Last(b0).db.attempts[K].child
    ensures b.states[e.close].db.attempts[K].owner == Last(b0).db.attempts[K].owner
    ensures b.states[e.claim] == Last(b0) && b.states[e.close].db.witnesses == map[]
  {
    var n := |b0.steps|;
    var c := Claims7(b0);
    b := Closes7(c);
    e := Evidence(K, 7, n, n + 1, n + 1);
    assert b.states[n] == Last(b0) && b.states[n + 1] == Last(c) && b.states[n + 2] == Last(b);
    assert b.steps[n] == c.steps[n];
    assert ClosedBy(b, K, v.seen.attempts[K], 7, v.Sight(0), e.judged, e.close);
    assert IsLast(v.seen, K) && FiledByAttempt(Recovered, K, v, b, e.judged);
  }

  /** The executor records a child after the pass has read the Attempt: nobody has looked whether it runs. */
  lemma OvertakenByChild(kind: StoreKind) returns (b: Behavior, v: View, e: Evidence)
    ensures Abandoned(b, v, e) && b.cfg.kind == kind && e.close <= |b.steps|
    ensures v.seen.attempts[K].child.None? && K in b.states[e.close].db.attempts
    ensures b.states[e.close].db.attempts[K].child == Some(Child(60, None, None, None))
    ensures !HoldsOfRow(b, v, e, e.claim) && !HoldsOfRow(b, v, e, e.close)
  {
    var read := QuietStart(Config(kind, false, 1, None, 1.0, true));
    read := Extended(read, Tick(10.0));
    v := AsSeen(Last(read), |read.steps|);
    var late := Extended(read, Bystander(OpRecordProcess(K, 3, Child(60, None, None, None))));
    assert Last(late).db.attempts[K].child == Some(Child(60, None, None, None));
    b, e := ClaimsAndCloses(late, v);
  }

  /** The Host Agent session of the worker that claims the Run. */
  const AT := HostRef(0, 1, 9)

  const OWNED := Executor(Supervised, Some(AT), Pending)

  /** A Run claimed under a Host Agent session that lives for 100 seconds. */
  lemma OwnedRun(cfg: Config) returns (b: Behavior)
    requires cfg == Config(cfg.kind, false, 1, None, 1.0, true)
    ensures b.Valid() && b.cfg == cfg && Last(b).now == 0.0 && Last(b).execs == map[0 := OWNED]
    ensures Last(b).db == EMPTY_DB.(runs := map[0 := Run(RunRunning, 0, NO_VERDICT, 0.0)],
                                    sessions := map[9 := Session(0, 1, 100.0)], hosts := map[0 := Host(1, 9)])
  {
    b := Behavior(cfg, [INITIAL], []);
    b := Extended(b, Bystander(OpStartSession(AT, 100.0)));
    assert Last(b).db == EMPTY_DB.(sessions := map[9 := Session(0, 1, 100.0)], hosts := map[0 := Host(1, 9)]);
    b := Extended(b, Submit(0, 0));
    b := Extended(b, ClaimRun(0, Supervised, Some(AT)));
  }

  /** Its executor leases the first Attempt and goes quiet. */
  lemma OwnedQuietRun(cfg: Config) returns (b: Behavior)
    requires cfg == Config(cfg.kind, false, 1, None, 1.0, true)
    ensures b.Valid() && b.cfg == cfg && Last(b).now == 10.0
    ensures Last(b).execs == map[0 := OWNED.(stage := Leased(1, 3))] && SessionLive(Last(b).db, 9, 10.0)
    ensures Last(b).db == EMPTY_DB.(
              runs := map[0 := Run(RunRunning, 0, NO_VERDICT, 0.0)],
              attempts := map[K := FRESH_ATTEMPT.(leaseToken := Some(3), leaseExpires := Some(1.0))],
              sessions := map[9 := Session(0, 1, 100.0)], hosts := map[0 := Host(1, 9)])
  {
    b := OwnedRun(cfg);
    var db := Last(b).db;
    b := Extended(b, Begin(0));
    b := Extended(b, Record(0));
    assert Last(b).db == db.(attempts := map[K := FRESH_ATTEMPT]) && Last(b).execs[0].stage == Recorded(1);
    b := Extended(b, Acquire(0, 3));
    b := Extended(b, Tick(10.0));
    assert 0 in Last(b).db.hosts && Last(b).db.hosts[0].session == 9;
  }

  /** The executor registers its session as owner after the pass has read the Attempt: a foreign one, unwitnessed. */
  lemma OvertakenByOwner(kind: StoreKind) returns (b: Behavior, v: View, e: Evidence)
    ensures Abandoned(b, v, e) && b.cfg.kind == kind && e.close <= |b.steps|
    ensures v.seen.attempts[K].owner.None? && K in b.states[e.close].db.attempts
    ensures b.states[e.close].db.attempts[K].owner == Some(Owner(AT, 5)) && 5 !in b.states[e.close].db.witnesses
    ensures !HoldsOfRow(b, v, e, e.claim) && !HoldsOfRow(b, v, e, e.close)
  {
    var read := OwnedQuietRun(Config(kind, false, 1, None, 1.0, true));
    v := AsSeen(Last(read), |read.steps|);
    var late := Extended(read, Register(0, 5));
    assert Last(late).db.attempts[K].owner == Some(Owner(AT, 5));
    b, e := ClaimsAndCloses(late, v);
  }
}
