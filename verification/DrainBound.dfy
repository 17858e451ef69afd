/**
 * The bound of a drain is exact: from every state with enough queued work some run of the drain comes to its limit,
 * so a drain keeps its bound exactly from the states whose limit is the bound (worker.py `drain`).
 */
module DrainBound {
  import opened Prelude
  import opened Acceptance
  import opened Tables
  import opened StoreOps
  import opened History
  import opened Protocol
  import opened OnceOnly
  import opened Numbering
  import opened Dispatch
  import opened ClusterObject
  import opened Draining

  /** The worker's session is current and live, so its deliveries are accepted. */
  ghost predicate SessionHolds(w: Terms, s: Sys) {
    SessionLive(s.db, w.at.session, s.now) && OwnerAgrees(s.db, w.at)
  }

  // ---------------------------------------------------------------- what the single steps do

  /** Clock, Runs, executors, sessions and hosts are the same. */
  ghost predicate Steady(s: Sys, s': Sys) {
    s'.now == s.now && s'.db.runs == s.db.runs && s'.execs == s.execs && SameHosts(s.db, s'.db)
  }

  lemma ReleaseIsSteady(s: Sys, host: HostId)
    ensures var s' := s.(db := ReleaseTerminal(s.db));
            && Steady(s, s') && s'.db.witnesses == s.db.witnesses
            && ActiveFor(s'.db, host) <= ActiveFor(s.db, host)
  {
  }

  /** Taken up, unless it was before: the delivery is no longer queued. */
  lemma DeliveryTakenUp(cfg: Config, s: Sys, e: ExecutionId, host: HostId)
    requires e in ActiveFor(s.db, host)
    ensures var s' := Next(cfg, s, SupervisorClaim(e, 0));
            && Steady(s, s') && s'.db.witnesses == s.db.witnesses && e in s'.db.requests
            && (s'.db.requests[e].status.DeliveryClaimed? || s'.db.requests[e].status.DeliveryRunning?)
            && ActiveFor(s'.db, host) == ActiveFor(s.db, host)
  {
    var s' := DoSupervisorClaim(s, e, 0);
    assert s'.db == s.db.(requests := s'.db.requests) && s'.db.requests.Keys == s.db.requests.Keys;
  }

  /** A first witness ends a delivery that was taken up. */
  lemma DeliveryWitnessed(cfg: Config, s: Sys, e: ExecutionId, host: HostId)
    requires e in s.db.requests && e !in s.db.witnesses
    requires s.db.requests[e].status.DeliveryClaimed? || s.db.requests[e].status.DeliveryRunning?
    ensures var s' := Next(cfg, s, Bystander(OpRecordWitness(e, ProcessExited, None)));
            && Steady(s, s') && s'.db.witnesses.Keys == s.db.witnesses.Keys + {e}
            && ActiveFor(s'.db, host) == ActiveFor(s.db, host) - {e}
  {
    var db' := RecordWitness(s.db, s.now, e, ProcessExited, None).db;
    assert db'.requests == s.db.requests[e := s.db.requests[e].(status := DeliveryCompleted)];
  }

  /** A queued Run gets its first executor, and nothing else changes. */
  ghost predicate ClaimedNow(s: Sys, s': Sys, j: JobId, at: HostRef) {
    && s'.now == s.now && SameHosts(s.db, s'.db) && s'.db.requests == s.db.requests && s'.db.attempts == s.db.attempts
    && j !in s.execs && s'.execs == s.execs[j := Executor(Supervised, Some(at), Pending)]
    && j in Queued(s.db) && j in s'.db.runs && Queued(s'.db) == Queued(s.db) - {j}
    && Undispatched(s', at.host) == Undispatched(s, at.host) + {j} && NoAttempts(s'.db, j)
  }

  lemma ClaimEffect(cfg: Config, s: Sys, j: JobId, at: HostRef)
    requires StartInv(cfg, s) && NumbersOk(s) && !cfg.local && j in Queued(s.db)
    ensures ClaimedNow(s, DoClaimRun(s, j, Supervised, Some(at)), j, at)
  {
    assert j in s.execs ==> ExecutorKnown(cfg, s, j);
    forall k | k in s.db.attempts ensures k.job != j { assert NumberOk(s, k); }
    var s' := DoClaimRun(s, j, Supervised, Some(at));
    assert s'.execs == s.execs[j := Executor(Supervised, Some(at), Pending)];
  }

  /** Of the rows the claim looks at nothing changes; the Run's executor is about to do something else. */
  ghost predicate OnlyMoves(s: Sys, s': Sys, j: JobId, stage: Stage)
    requires j in s.execs
  {
    && s'.now == s.now && SameHosts(s.db, s'.db) && Queued(s'.db) == Queued(s.db) && s'.db.witnesses == s.db.witnesses
    && s'.execs == s.execs[j := s.execs[j].(stage := stage)]
  }

  lemma BeginMoves(cfg: Config, s: Sys, j: JobId)
    requires Enabled(cfg, s, Begin(j)) && j in s.db.runs && !s.db.runs[j].status.RunQueued?
    ensures var s' := Next(cfg, s, Begin(j));
            && OnlyMoves(s, s', j, Looping(1)) && j in s'.db.runs
            && s'.db.attempts == s.db.attempts && s'.db.requests == s.db.requests
  {
  }

  lemma RecordMoves(cfg: Config, s: Sys, j: JobId, no: nat)
    requires j in s.execs && s.execs[j].stage == Looping(no) && j in s.db.runs && AttemptKey(j, no) !in s.db.attempts
    ensures var s' := Next(cfg, s, Record(j));
            && OnlyMoves(s, s', j, Recorded(no)) && s'.db.requests == s.db.requests
            && s'.db.attempts == s.db.attempts[AttemptKey(j, no) := FRESH_ATTEMPT]
  {
  }

  lemma AcquireMoves(cfg: Config, s: Sys, j: JobId, no: nat, token: Token)
    requires j in s.execs && s.execs[j].stage == Recorded(no)
    requires AttemptKey(j, no) in s.db.attempts && s.db.attempts[AttemptKey(j, no)] == FRESH_ATTEMPT
    ensures var s' := Next(cfg, s, Acquire(j, token));
            && OnlyMoves(s, s', j, Leased(no, token)) && s'.db.requests == s.db.requests
            && Holds(s'.db, AttemptKey(j, no), token)
  {
  }

  lemma RegisterMoves(cfg: Config, s: Sys, j: JobId, no: nat, token: Token, x: ExecutionId, w: Terms)
    requires j in s.execs && s.execs[j] == Executor(Supervised, Some(w.at), Leased(no, token))
    requires SessionHolds(w, s) && Holds(s.db, AttemptKey(j, no), token)
    ensures var s' := Next(cfg, s, Register(j, x));
            OnlyMoves(s, s', j, Registered(no, token, x)) && s'.db.requests == s.db.requests
  {
  }

  lemma DispatchMoves(cfg: Config, s: Sys, j: JobId, no: nat, token: Token, x: ExecutionId, w: Terms)
    requires j in s.execs && s.execs[j] == Executor(Supervised, Some(w.at), Registered(no, token, x))
    requires x !in s.db.requests
    ensures var s' := Next(cfg, s, Protocol.Step.Dispatch(j));
            && OnlyMoves(s, s', j, Ended(true)) && ActiveFor(s'.db, w.at.host) == ActiveFor(s.db, w.at.host) + {x}
  {
  }

  /** The executor takes one step of its own. */
  lemma Moves(d: DrainRun, j: JobId, step: Step, stage: Stage) returns (d': DrainRun)
    requires d.Valid() && !d.End().pc.Over? && j in d.Now().execs && Enabled(d.b.cfg, d.Now(), step)
    requires ExecutorStep(step) && OnlyMoves(d.Now(), Next(d.b.cfg, d.Now(), step), j, stage)
    ensures Follows(d, d') && d'.End() == d.End().(i := d'.End().i) && d'.Now() == Next(d.b.cfg, d.Now(), step)
    ensures SessionHolds(d.w, d.Now()) ==> SessionHolds(d'.w, d'.Now())
  {
    d' := Lets(d, step);
  }

  lemma OnlyMovesTwice(r: Sys, s: Sys, t: Sys, j: JobId, stage: Stage, later: Stage)
    requires j in r.execs && OnlyMoves(r, s, j, stage) && OnlyMoves(s, t, j, later)
    ensures OnlyMoves(r, t, j, later)
  {
  }

  /** A claimed Run's first Attempt is recorded. */
  lemma Records(d: DrainRun, j: JobId) returns (d': DrainRun)
    requires d.Valid() && !d.End().pc.Over?
    requires j in d.Now().execs && d.Now().execs[j] == Executor(Supervised, Some(d.w.at), Pending)
    requires j in d.Now().db.runs && !d.Now().db.runs[j].status.RunQueued? && NoAttempts(d.Now().db, j)
    ensures Follows(d, d') && d'.End() == d.End().(i := d'.End().i)
    ensures OnlyMoves(d.Now(), d'.Now(), j, Recorded(1)) && d'.Now().db.requests == d.Now().db.requests
    ensures AttemptKey(j, 1) in d'.Now().db.attempts && d'.Now().db.attempts[AttemptKey(j, 1)] == FRESH_ATTEMPT
  {
    var cfg, s := d.b.cfg, d.Now();
    BeginMoves(cfg, s, j);
    var d1 := Moves(d, j, Begin(j), Looping(1));
    RecordMoves(cfg, d1.Now(), j, 1);
    d' := Moves(d1, j, Record(j), Recorded(1));
    OnlyMovesTwice(s, d1.Now(), d'.Now(), j, Looping(1), Recorded(1));
  }

  /** A claimed Run's first Attempt is recorded and leased. */
  lemma Leases(d: DrainRun, j: JobId) returns (d': DrainRun)
    requires d.Valid() && !d.End().pc.Over? && SessionHolds(d.w, d.Now())
    requires j in d.Now().execs && d.Now().execs[j] == Executor(Supervised, Some(d.w.at), Pending)
    requires j in d.Now().db.runs && !d.Now().db.runs[j].status.RunQueued? && NoAttempts(d.Now().db, j)
    ensures Follows(d, d') && d'.End() == d.End().(i := d'.End().i) && SessionHolds(d'.w, d'.Now())
    ensures OnlyMoves(d.Now(), d'.Now(), j, Leased(1, 0)) && d'.Now().db.requests == d.Now().db.requests
    ensures Holds(d'.Now().db, AttemptKey(j, 1), 0)
  {
    var cfg, s := d.b.cfg, d.Now();
    var d1 := Records(d, j);
    AcquireMoves(cfg, d1.Now(), j, 1, 0);
    d' := Moves(d1, j, Acquire(j, 0), Leased(1, 0));
    OnlyMovesTwice(s, d1.Now(), d'.Now(), j, Recorded(1), Leased(1, 0));
  }

  /** A leased Attempt is registered for the worker's session and delivered. */
  lemma Delivers(d: DrainRun, j: JobId, x: ExecutionId) returns (d': DrainRun)
    requires d.Valid() && !d.End().pc.Over? && SessionHolds(d.w, d.Now())
    requires j in d.Now().execs && d.Now().execs[j] == Executor(Supervised, Some(d.w.at), Leased(1, 0))
    requires Holds(d.Now().db, AttemptKey(j, 1), 0) && x !in d.Now().db.requests
    ensures Follows(d, d') && d'.End() == d.End().(i := d'.End().i) && SessionHolds(d'.w, d'.Now())
    ensures OnlyMoves(d.Now(), d'.Now(), j, Ended(true))
    ensures ActiveFor(d'.Now().db, d.w.at.host) == ActiveFor(d.Now().db, d.w.at.host) + {x}
  {
    var cfg, s := d.b.cfg, d.Now();
    RegisterMoves(cfg, s, j, 1, 0, x, d.w);
    var d1 := Moves(d, j, Register(j, x), Registered(1, 0, x));
    DispatchMoves(cfg, d1.Now(), j, 1, 0, x, d.w);
    d' := Moves(d1, j, Protocol.Step.Dispatch(j), Ended(true));
    OnlyMovesTwice(s, d1.Now(), d'.Now(), j, Registered(1, 0, x), Ended(true));
  }

  // ---------------------------------------------------------------- one more claim

  /**
   * `u` Runs undispatched from before and `n` of this drain, room for `spare` more claims, and about to test the
   * limits.
   */
  ghost predicate Staged(d: DrainRun, u: nat, n: nat, spare: nat) {
    && d.Valid() && d.End().pc.Checking? && SessionHolds(d.w, d.Now())
    && |Undispatched(d.Now(), d.w.at.host)| == u + n && |Alive(d.Now(), d.End().active)| == n
    && spare <= |Queued(d.Now().db)|
    && (d.w.maxJobs.Some? ==> |d.End().completed| + |d.End().active| + spare <= d.w.maxJobs.value)
  }

  function Active(d: DrainRun): nat
    requires |d.b.states| == |d.b.steps| + 1
  {
    |ActiveFor(d.Now().db, d.w.at.host)|
  }

  lemma {:induction false} OldestExists(db: Db, among: set<JobId>) returns (j: JobId)
    requires among != {} && among <= Queued(db)
    ensures j in among && forall i :: i in among ==> db.runs[j].updatedAt <= db.runs[i].updatedAt
  {
    var i :| i in among;
    if among == {i} { return i; }
    j := OldestExists(db, among - {i});
    if db.runs[i].updatedAt < db.runs[j].updatedAt { j := i; }
  }

  lemma {:induction false} AliveAgain(s: Sys, s': Sys, active: seq<JobId>)
    requires forall j :: j in active ==> (Done(s, j) <==> Done(s', j))
    ensures Alive(s', active) == Alive(s, active)
    ensures Alive(s, Alive(s, active)) == Alive(s, active)
  {
    if active != [] { AliveAgain(s, s', active[1..]); }
  }

  lemma {:induction false} AliveAppend(s: Sys, active: seq<JobId>, j: JobId)
    ensures Alive(s, active + [j]) == Alive(s, active) + if Done(s, j) then [] else [j]
  {
    if active == [] {
      assert active + [j] == [j];
    } else {
      AliveAppend(s, active[1..], j);
      assert (active + [j])[1..] == active[1..] + [j];
    }
  }

  /** A worker at full concurrency with a future that is done gets a free slot. */
  lemma FreesSlot(d: DrainRun, u: nat, n: nat, spare: nat) returns (d': DrainRun)
    requires Staged(d, u, n, spare) && 0 < spare && n < d.w.concurrency <= |d.End().active|
    requires Active(d) < d.w.maxInFlight
    ensures Follows(d, d') && Staged(d', u, n, spare) && d'.b == d.b && |d'.End().active| == n
  {
    var p, rest := d.End(), Alive(d.Now(), d.End().active);
    var d1 := Looks(d, p.(pc := Full));
    AliveAmong(d.Now(), p.active);
    AliveAgain(d.Now(), d.Now(), p.active);
    var completed := p.completed + (multiset(p.active) - multiset(rest));
    d' := Looks(d1, p.(active := rest, completed := completed, pc := Checking));
    assert |multiset(p.active)| == |multiset(p.active) - multiset(rest)| + |multiset(rest)|;
  }

  lemma CountsAfterClaim(s: Sys, s': Sys, active: seq<JobId>, j: JobId, at: HostRef)
    requires ClaimedNow(s, s', j, at) && forall i :: i in active ==> i in s.execs
    ensures |Alive(s', active + [j])| == |Alive(s, active)| + 1
    ensures |Queued(s'.db)| == |Queued(s.db)| - 1 && |Undispatched(s', at.host)| == |Undispatched(s, at.host)| + 1
  {
    AliveAgain(s, s', active);
    AliveAppend(s', active, j);
  }

  /** The Run that is next, and what claiming it does. */
  lemma NextInQueue(d: DrainRun) returns (j: JobId)
    requires d.Valid() && Queued(d.Now().db) != {}
    ensures Oldest(d.Now().db, j) && ClaimedNow(d.Now(), DoClaimRun(d.Now(), j, Supervised, Some(d.w.at)), j, d.w.at)
    ensures forall i :: i in d.End().active ==> i in d.Now().execs
  {
    AlwaysStarts(d.b, |d.b.steps|);
    AlwaysNumbered(d.b, |d.b.steps|);
    AlwaysAccounted(d, |d.points| - 1);
    assert forall i :: i in d.End().active ==> i in multiset(d.End().active);
    j := OldestExists(d.Now().db, Queued(d.Now().db));
    ClaimEffect(d.b.cfg, d.Now(), j, d.w.at);
  }

  /** The worker tests its limits and claims. */
  lemma Claims(d: DrainRun, j: JobId) returns (d': DrainRun)
    requires d.Valid() && d.End().pc.Checking? && !ReachedMax(d.w, d.End()) && Active(d) < d.w.maxInFlight
    requires |d.End().active| < d.w.concurrency && Oldest(d.Now().db, j)
    ensures Follows(d, d') && d'.Now() == DoClaimRun(d.Now(), j, Supervised, Some(d.w.at))
    ensures d'.End() == d.End().(i := d'.End().i, active := d.End().active + [j])
  {
    var p := d.End();
    var d1 := Looks(d, p.(pc := Claiming));
    d' := Takes(d1, ClaimRun(j, Supervised, Some(d.w.at)), p.(i := p.i + 1, active := p.active + [j], pc := Checking));
  }

  /** With a free slot the worker claims one more Run. */
  lemma ClaimsNext(d: DrainRun, u: nat, n: nat, spare: nat) returns (d': DrainRun, j: JobId)
    requires Staged(d, u, n, spare) && 0 < spare && |d.End().active| < d.w.concurrency && Active(d) < d.w.maxInFlight
    ensures Follows(d, d') && Staged(d', u, n + 1, spare - 1)
    ensures d'.End() == d.End().(i := d'.End().i, active := d.End().active + [j])
    ensures ClaimedNow(d.Now(), d'.Now(), j, d.w.at)
  {
    j := NextInQueue(d);
    d' := Claims(d, j);
    CountsAfterClaim(d.Now(), d'.Now(), d.End().active, j, d.w.at);
  }

  lemma ClaimsOne(d: DrainRun, u: nat, n: nat, spare: nat) returns (d': DrainRun, j: JobId)
    requires Staged(d, u, n, spare) && 0 < spare && n < d.w.concurrency && Active(d) < d.w.maxInFlight
    ensures Follows(d, d') && Staged(d', u, n + 1, spare - 1)
    ensures j in d'.End().active && ClaimedNow(d.Now(), d'.Now(), j, d.w.at)
  {
    var d1 := d;
    if d.w.concurrency <= |d.End().active| { d1 := FreesSlot(d, u, n, spare); }
    d', j := ClaimsNext(d1, u, n, spare);
  }

  // ---------------------------------------------------------------- to one below the limit, and then full

  lemma {:induction false} FreshId(used: set<ExecutionId>) returns (x: ExecutionId)
    ensures x !in used && forall e :: e in used ==> e < x
  {
    if used == {} { return 0; }
    var e :| e in used;
    x := FreshId(used - {e});
    if x <= e { x := e + 1; }
    assert forall i :: i in used ==> i == e || i in used - {e};
  }

  lemma {:induction false} NoneAlive(s: Sys, active: seq<JobId>)
    requires forall i :: i in active ==> Done(s, i)
    ensures Alive(s, active) == []
  {
    if active != [] { NoneAlive(s, active[1..]); }
  }

  /** When the one future that is not done has delivered, all are done and the Run is dispatched. */
  lemma CountsAfterDelivery(s: Sys, s': Sys, active: seq<JobId>, j: JobId, at: HostRef)
    requires j in s.execs && OnItsWay(s.execs[j], at.host)
    requires s'.execs == s.execs[j := s.execs[j].(stage := Ended(true))]
    requires j in active && |Alive(s, active)| == 1
    ensures Alive(s', active) == [] && |Undispatched(s', at.host)| == |Undispatched(s, at.host)| - 1
  {
    var alive := Alive(s, active);
    assert j in alive && alive == [j];
    forall i | i in active ensures Done(s', i) { assert !Done(s, i) ==> i in alive; }
    NoneAlive(s', active);
    assert Undispatched(s', at.host) == Undispatched(s, at.host) - {j};
  }

  /** A claimed Run is delivered. */
  lemma IsDelivered(d: DrainRun, j: JobId) returns (d': DrainRun)
    requires d.Valid() && !d.End().pc.Over? && SessionHolds(d.w, d.Now())
    requires j in d.Now().execs && d.Now().execs[j] == Executor(Supervised, Some(d.w.at), Pending)
    requires j in d.Now().db.runs && !d.Now().db.runs[j].status.RunQueued? && NoAttempts(d.Now().db, j)
    ensures Follows(d, d') && d'.End() == d.End().(i := d'.End().i) && SessionHolds(d'.w, d'.Now())
    ensures OnlyMoves(d.Now(), d'.Now(), j, Ended(true)) && Active(d') == Active(d) + 1
  {
    var x := FreshId(d.Now().db.requests.Keys);
    var d1 := Leases(d, j);
    d' := Delivers(d1, j, x);
    OnlyMovesTwice(d.Now(), d1.Now(), d'.Now(), j, Leased(1, 0), Ended(true));
  }

  /** One more Run is claimed, and its executor delivers it. */
  lemma DeliversOne(d: DrainRun, u: nat, spare: nat) returns (d': DrainRun)
    requires Staged(d, u, 0, spare) && 0 < spare && Active(d) < d.w.maxInFlight
    ensures Follows(d, d') && Staged(d', u, 0, spare - 1) && Active(d') == Active(d) + 1
  {
    var d1, j := ClaimsOne(d, u, 0, spare);
    d' := IsDelivered(d1, j);
    CountsAfterDelivery(d1.Now(), d'.Now(), d1.End().active, j, d.w.at);
  }

  lemma TakesUp(d: DrainRun, e: ExecutionId) returns (d': DrainRun)
    requires d.Valid() && !d.End().pc.Over? && e in ActiveFor(d.Now().db, d.w.at.host)
    ensures Follows(d, d') && d'.End() == d.End().(i := d'.End().i) && Steady(d.Now(), d'.Now())
    ensures d'.Now() == Next(d.b.cfg, d.Now(), SupervisorClaim(e, 0))
  {
    DeliveryTakenUp(d.b.cfg, d.Now(), e, d.w.at.host);
    d' := Lets(d, SupervisorClaim(e, 0));
  }

  /** A delivery ends, by its Supervisor's claim and its witness. */
  lemma Witnesses(d: DrainRun, e: ExecutionId) returns (d': DrainRun)
    requires d.Valid() && !d.End().pc.Over? && e in ActiveFor(d.Now().db, d.w.at.host) && e !in d.Now().db.witnesses
    ensures Follows(d, d') && d'.End() == d.End().(i := d'.End().i) && Steady(d.Now(), d'.Now())
    ensures d'.Now().db.witnesses.Keys == d.Now().db.witnesses.Keys + {e}
    ensures ActiveFor(d'.Now().db, d.w.at.host) == ActiveFor(d.Now().db, d.w.at.host) - {e}
  {
    var d1 := TakesUp(d, e);
    DeliveryTakenUp(d.b.cfg, d.Now(), e, d.w.at.host);
    DeliveryWitnessed(d.b.cfg, d1.Now(), e, d.w.at.host);
    d' := Lets(d1, Bystander(OpRecordWitness(e, ProcessExited, None)));
  }

  /** Others end one delivery that has no witness yet. */
  lemma EndsOne(d: DrainRun, u: nat, spare: nat, e: ExecutionId) returns (d': DrainRun)
    requires Staged(d, u, 0, spare) && e in ActiveFor(d.Now().db, d.w.at.host) && e !in d.Now().db.witnesses
    ensures Follows(d, d') && Staged(d', u, 0, spare) && d'.Now().db.witnesses.Keys == d.Now().db.witnesses.Keys + {e}
    ensures ActiveFor(d'.Now().db, d.w.at.host) == ActiveFor(d.Now().db, d.w.at.host) - {e}
  {
    d' := Witnesses(d, e);
    AliveAgain(d.Now(), d'.Now(), d.End().active);
  }

  /** The host's active deliveries that have a witness already, and that no further witness ends. */
  function Stuck(db: Db, host: HostId): set<ExecutionId> { set e | e in ActiveFor(db, host) && e in db.witnesses }

  /** The others end deliveries until fewer than `maxInFlight` are active. */
  lemma {:induction false} MakesRoom(d: DrainRun, u: nat, spare: nat) returns (d': DrainRun)
    requires Staged(d, u, 0, spare) && |Stuck(d.Now().db, d.w.at.host)| < d.w.maxInFlight
    ensures Follows(d, d') && Staged(d', u, 0, spare) && Active(d') < d.w.maxInFlight
    decreases Active(d)
  {
    if Active(d) < d.w.maxInFlight { return d; }
    var active, stuck := ActiveFor(d.Now().db, d.w.at.host), Stuck(d.Now().db, d.w.at.host);
    assert active == stuck + (active - stuck);
    var e :| e in active - stuck;
    var d1 := EndsOne(d, u, spare, e);
    assert Stuck(d1.Now().db, d.w.at.host) == stuck;
    d' := MakesRoom(d1, u, spare);
  }

  /** Runs are claimed and delivered until one more delivery would reach `maxInFlight`. */
  lemma {:induction false} FillsUp(d: DrainRun, u: nat, spare: nat) returns (d': DrainRun)
    requires Staged(d, u, 0, spare) && Active(d) < d.w.maxInFlight
    requires spare == d.w.maxInFlight - 1 - Active(d) + d.w.concurrency
    ensures Follows(d, d') && Staged(d', u, 0, d.w.concurrency) && Active(d') == d.w.maxInFlight - 1
    decreases spare
  {
    if Active(d) == d.w.maxInFlight - 1 { return d; }
    var d1 := DeliversOne(d, u, spare);
    d' := FillsUp(d1, u, spare - 1);
  }

  /** Then Runs are claimed, and none delivered, until all futures are under way. */
  lemma {:induction false} ClaimsAll(d: DrainRun, u: nat, n: nat) returns (d': DrainRun)
    requires n <= d.w.concurrency && Staged(d, u, n, d.w.concurrency - n) && Active(d) == d.w.maxInFlight - 1
    ensures Follows(d, d') && Staged(d', u, d.w.concurrency, 0) && Active(d') == d.w.maxInFlight - 1
    ensures |Queued(d'.Now().db)| == |Queued(d.Now().db)| - (d.w.concurrency - n)
    decreases d.w.concurrency - n
  {
    if n == d.w.concurrency { return d; }
    var d1, j := ClaimsOne(d, u, n, d.w.concurrency - n);
    d' := ClaimsAll(d1, u, n + 1);
  }

  // ---------------------------------------------------------------- the limit is exact

  /**
   * The surroundings in which a drain's limit matters: PostgreSQL workers, a live session, enough Runs queued and
   * allowed, and not every slot taken by a delivery that no witness will end.
   */
  ghost predicate EnoughWork(w: Terms, b: Behavior) {
    && b.Valid() && b.cfg.kind.Postgres? && !b.cfg.local && 1 <= w.concurrency && 1 <= w.maxInFlight
    && SessionHolds(w, Last(b))
    && Bound(w) <= |Queued(Last(b).db)| && (w.maxJobs.Some? ==> Bound(w) <= w.maxJobs.value)
    && |Stuck(Last(b).db, w.at.host)| < w.maxInFlight
  }

  /** The drain begins: nothing to recover, abandoned deliveries are released. */
  lemma Opens(w: Terms, b: Behavior) returns (d: DrainRun)
    requires EnoughWork(w, b)
    ensures Follows(Begun(w, b), d) && d.End().pc.Checking? && d.End().active == [] && d.End().completed == multiset{}
    ensures Steady(Last(b), d.Now()) && |Stuck(d.Now().db, w.at.host)| < w.maxInFlight
    ensures ActiveFor(d.Now().db, w.at.host) <= ActiveFor(Last(b).db, w.at.host)
  {
    var d0 := Begun(w, b);
    ReleaseIsSteady(Last(b), w.at.host);
    d := Takes(d0, Bystander(OpReleaseTerminal), d0.End().(i := |b.steps| + 1, pc := Checking));
    SubsetCount(Stuck(d.Now().db, w.at.host), Stuck(Last(b).db, w.at.host));
  }

  /** The drain begins, and the others make room for it. */
  lemma OpensWithRoom(w: Terms, b: Behavior) returns (d: DrainRun)
    requires EnoughWork(w, b)
    ensures Follows(Begun(w, b), d) && Staged(d, |Undispatched(Last(b), w.at.host)|, 0, Bound(w))
    ensures Active(d) < w.maxInFlight
  {
    var d1 := Opens(w, b);
    d := MakesRoom(d1, |Undispatched(Last(b), w.at.host)|, Bound(w));
  }

  /** Some run of the drain comes to the limit. */
  lemma LimitIsReached(w: Terms, b: Behavior) returns (d: DrainRun)
    requires EnoughWork(w, b)
    ensures Follows(Begun(w, b), d)
    ensures Load(d.Now(), w.at.host) == Bound(w) + |Undispatched(Last(b), w.at.host)|
  {
    var u := |Undispatched(Last(b), w.at.host)|;
    var d1 := OpensWithRoom(w, b);
    var d2 := FillsUp(d1, u, w.maxInFlight - 1 - Active(d1) + w.concurrency);
    d := ClaimsAll(d2, u, 0);
  }

  /** Every drain on these terms that begins at the end of `b` keeps the host's load within `limit`, in every state. */
  ghost predicate DrainsWithin(w: Terms, b: Behavior, limit: int) {
    forall d: DrainRun {:trigger d.Valid()} :: d.Valid() && d.w == w && Continues(b, d.b) && d.From() == |b.steps| ==>
      LoadWithin(d.b, |b.steps|, |d.b.steps|, w.at.host, limit)
  }

  /** `Limit` is the exact bound: every drain keeps it, and given enough work some drain keeps no lower one. */
  lemma LimitIsExact(w: Terms, b: Behavior, limit: int)
    requires |b.states| == |b.steps| + 1
    ensures Limit(w, Last(b)) <= limit ==> DrainsWithin(w, b, limit)
    ensures EnoughWork(w, b) ==> (DrainsWithin(w, b, limit) <==> Limit(w, Last(b)) <= limit)
  {
    forall d: DrainRun | d.Valid() && d.w == w && Continues(b, d.b) && d.From() == |b.steps|
      ensures LoadWithin(d.b, |b.steps|, |d.b.steps|, w.at.host, Limit(w, Last(b)))
    {
      DrainStaysWithin(d);
      assert d.b.states[|b.steps|] == Last(b);
    }
    if EnoughWork(w, b) && DrainsWithin(w, b, limit) {
      var d0 := Begun(w, b);
      assert d0.Valid();
      var d := LimitIsReached(w, b);
      assert d.Valid();
      assert Load(Last(b), w.at.host) <= limit && Load(d.Now(), w.at.host) <= limit;
    }
  }

  /**
   * A drain keeps the host within maxInFlight + concurrency - 1, however it and the others interleave, if and only if
   * it begins with nothing undispatched and within that bound.
   */
  lemma BoundHoldsExactlyWhen(w: Terms, b: Behavior)
    requires EnoughWork(w, b)
    ensures DrainsWithin(w, b, Bound(w)) <==> Clean(w, Last(b))
  {
    LimitIsExact(w, b, Bound(w));
  }

  // ---------------------------------------------------------------- a drain that raised, and the next one

  const AT := HostRef(0, 1, 9)

  /** `n` Runs are submitted. */
  lemma {:induction false} Submitted(n: nat) returns (b: Behavior)
    ensures b.Valid() && b.cfg == Config(Postgres, false, 1, None, 1.0, true)
    ensures Last(b) == INITIAL.(db := EMPTY_DB.(runs := Last(b).db.runs))
    ensures |Queued(Last(b).db)| == n && forall j :: j in Last(b).db.runs ==> j < n
  {
    if n == 0 {
      b := Behavior(Config(Postgres, false, 1, None, 1.0, true), [INITIAL], []);
    } else {
      var c := Submitted(n - 1);
      b := Extended(c, Submit(n - 1, 0));
      assert Queued(Last(b).db) == Queued(Last(c).db) + {n - 1};
    }
  }

  /** Four Runs are submitted, and a Host Agent session is registered. */
  lemma Backlog() returns (b: Behavior)
    ensures b.Valid() && b.cfg == Config(Postgres, false, 1, None, 1.0, true)
    ensures |Queued(Last(b).db)| == 4 && Last(b).db.requests == map[] && Last(b).execs == map[]
    ensures SessionLive(Last(b).db, AT.session, Last(b).now) && OwnerAgrees(Last(b).db, AT)
  {
    var c := Submitted(4);
    b := Extended(c, Bystander(OpStartSession(AT, 10.0)));
    assert Queued(Last(b).db) == Queued(Last(c).db);
    assert AT.host in Last(b).db.hosts && Last(b).db.hosts[AT.host].session == AT.session;
  }

  /**
   * The first of two futures raises while the other is still under way: its executor dies, or a cancel comes before it
   * has begun.
   */
  lemma FirstRaises(d: DrainRun, cancelled: bool) returns (d': DrainRun)
    requires d.Valid() && d.End().pc.Checking? && ReachedMax(d.w, d.End()) && d.End().active != []
    requires d.End().active[0] in Undispatched(d.Now(), d.w.at.host)
    requires d.Now().execs[d.End().active[0]].stage.Pending?
    ensures Follows(d, d') && d'.End().pc == Over(Raised) && d'.End().active == d.End().active
    ensures d'.Now().db == d.Now().db && d'.Now().now == d.Now().now
    ensures d'.Now().execs.Keys == d.Now().execs.Keys && d'.Now().execs[d.End().active[0]].stage
      == if cancelled then Cancelled(false) else Ended(false)
    ensures Undispatched(d'.Now(), d.w.at.host) == Undispatched(d.Now(), d.w.at.host) - {d.End().active[0]}
  {
    var p := d.End();
    var d1 := Lets(d, if cancelled then CancelFuture(p.active[0]) else Crash(p.active[0]));
    var q := d1.End();
    var d2 := Looks(d1, q.(pc := Joining));
    d' := Looks(d2, q.(pc := Over(Raised)));
  }

  /** A drain that began with nothing undispatched has only its own futures undispatched. */
  lemma OnlyItsOwn(w: Terms, b: Behavior, d: DrainRun)
    requires b.Valid() && Follows(Begun(w, b), d) && Undispatched(Last(b), w.at.host) == {}
    ensures Undispatched(d.Now(), w.at.host) <= Elements(d.End().active)
  {
    assert d.b.states[d.From()] == Last(b);
    AlwaysWithin(d, |d.points| - 1);
  }

  lemma ClaimsTwo(d: DrainRun) returns (d': DrainRun)
    requires Staged(d, 0, 0, 2) && d.w == Terms(AT, 1, Some(2), 2) && d.End().active == [] && Active(d) == 0
    ensures Follows(d, d') && Staged(d', 0, 2, 0) && Active(d') == 0 && |d'.End().active| == 2
    ensures |Queued(d'.Now().db)| == |Queued(d.Now().db)| - 2
    ensures d'.End().active[0] in d'.Now().execs && d'.Now().execs[d'.End().active[0]].stage.Pending?
  {
    var d1, j := ClaimsNext(d, 0, 0, 2);
    var d2, k := ClaimsNext(d1, 0, 1, 1);
    assert d2.End().active == [j, k];
    d' := d2;
  }

  /** A drain claims its two Runs, and the executor of the first has not begun. */
  lemma ClaimsBoth(w: Terms, b: Behavior) returns (d: DrainRun)
    requires EnoughWork(w, b) && w == Terms(AT, 1, Some(2), 2) && |Queued(Last(b).db)| == 4
    requires Undispatched(Last(b), AT.host) == {} && ActiveFor(Last(b).db, AT.host) == {}
    ensures Follows(Begun(w, b), d) && Staged(d, 0, 2, 0) && Active(d) == 0 && |Queued(d.Now().db)| == 2
    ensures Undispatched(d.Now(), AT.host) <= Elements(d.End().active) && |d.End().active| == 2
    ensures d.End().active[0] in d.Now().execs && d.Now().execs[d.End().active[0]].stage.Pending?
  {
    var d1 := Opens(w, b);
    d := ClaimsTwo(d1);
    OnlyItsOwn(w, b, d);
  }

  /** When the first of their futures raises the drain raises, with the other Run undispatched. */
  lemma RaisesWithOneLeft(w: Terms, b: Behavior, cancelled: bool) returns (d: DrainRun)
    requires EnoughWork(w, b) && w == Terms(AT, 1, Some(2), 2) && |Queued(Last(b).db)| == 4
    requires Undispatched(Last(b), AT.host) == {} && ActiveFor(Last(b).db, AT.host) == {}
    ensures Follows(Begun(w, b), d) && d.End().pc == Over(Raised) && |Undispatched(d.Now(), AT.host)| == 1
    ensures d.End().active != [] && d.End().active[0] in d.Now().execs
    ensures d.Now().execs[d.End().active[0]].stage == if cancelled then Cancelled(false) else Ended(false)
    ensures |Queued(d.Now().db)| == 2 && SessionHolds(w, d.Now()) && ActiveFor(d.Now().db, AT.host) == {}
  {
    var d1 := ClaimsBoth(w, b);
    var active, left := d1.End().active, Undispatched(d1.Now(), AT.host);
    ElementsCount(active);
    assert Elements(active) == left + (Elements(active) - left);
    d := FirstRaises(d1, cancelled);
  }

  /**
   * With `maxInFlight` 1 and two futures, one of which raises, the next drain comes to three outstanding, one more than
   * the bound. The future may raise because its executor died or because a client cancelled the job.
   */
  lemma RaiseBreaksBound(cancelled: bool) returns (d: DrainRun, d': DrainRun)
    ensures d.Valid() && d.From() <= |d.b.steps| && Clean(d.w, d.b.states[d.From()])
    ensures Bound(d.w) == 2 && d.End().pc == Over(Raised) && d.End().active != []
    ensures d.End().active[0] in d.Now().execs
    ensures d.Now().execs[d.End().active[0]].stage == if cancelled then Cancelled(false) else Ended(false)
    ensures ComesAfter(d, d') && Load(d'.Now(), d.w.at.host) == 3
  {
    var b := Backlog();
    d := RaisesWithOneLeft(Terms(AT, 1, Some(2), 2), b, cancelled);
    assert d.b.states[|b.steps|] == Last(b);
    d' := LimitIsReached(Terms(AT, 1, None, 2), d.b);
  }
}
