/**
 * One reconciliation pass over stale RUNNING Runs, among everything the other processes do (service.py
 * `recover_stale_runs`).
 */
module Recovery {
  import opened Prelude
  import opened Acceptance
  import opened Tables
  import opened StoreOps
  import opened History
  import opened StoreObject
  import opened Protocol
  import opened ProtocolInvariant
  import opened ClusterObject
  import opened Reconciling
  import opened RowEvidence

  /** How a pass ends. `Aborted`: probing the Run's child raised PermissionError. */
  datatype PassEnd = Completed | Aborted(job: JobId)

  /** `expired` is what the list of expired leases was at some moment of the pass before the snapshot. */
  ghost predicate ReadExpired(b: Behavior, from: nat, snap: nat, expired: set<AttemptKey>)
    requires |b.states| == |b.steps| + 1 && snap <= |b.steps|
  {
    exists i :: from <= i <= snap && expired == ExpiredAt(b.states[i])
  }

  /** `runs` is what the Runs were at some moment of the pass. */
  ghost predicate ReadRuns(b: Behavior, from: nat, to: nat, runs: map<JobId, Run>)
    requires |b.states| == |b.steps| + 1 && to <= |b.steps|
  {
    exists i :: from <= i <= to && runs == b.states[i].db.runs
  }

  /** All was read when the pass turned to its first Run. */
  ghost predicate AllReadBy(v: View, stale: set<JobId>) {
    forall j :: j in stale ==> j in v.read && v.read[j] <= v.from
  }

  /** One more Run is read. */
  lemma ReadOneMore(b: Behavior, c: Behavior, seen0: Db, seen: Db, read0: map<JobId, nat>, read: map<JobId, nat>,
                    since: nat, looked: set<JobId>, j: JobId)
    requires |b.states| == |b.steps| + 1 && |c.states| == |c.steps| + 1 && Continues(b, c)
    requires ReadAt(b, seen0, read0, since, looked) && j !in looked && since <= |b.steps|
    requires j in read && |b.steps| <= read[j] <= |c.steps| && read == read0[j := read[j]]
    requires seen == Reread(seen0, c.states[read[j]].db, j)
    ensures ReadAt(c, seen, read, since, looked + {j})
  {
    RereadReads(seen0, c.states[read[j]].db, j);
    forall i | i in looked ensures SameAttempts(c.states[read[i]].db, seen, i) {
      assert SameAttempts(b.states[read0[i]].db, seen0, i) && SameAttempts(seen0, seen, i);
    }
  }

  lemma OneMoreOutside(b: Behavior, c: Behavior, read0: map<JobId, nat>, read: map<JobId, nat>, live: set<JobId>,
                       looked: set<JobId>, outside0: set<JobId>, outside: set<JobId>, j: JobId, out: bool)
    requires |b.states| == |b.steps| + 1 && |c.states| == |c.steps| + 1 && Continues(b, c) && j !in looked
    requires OutsideH(b, read0, live, looked, outside0) && j in read && read == read0[j := read[j]]
    requires forall i :: i in looked ==> i in read0 && read0[i] < |b.states|
    requires read[j] < |c.states| && (out <==> j !in live && OutsideHypothesis(c.states[read[j]], j))
    requires outside == if out then outside0 + {j} else outside0
    ensures OutsideH(c, read, live, looked + {j}, outside)
  {
  }

  /**
   * What a pass that began in state `since` works from: expired leases and Runs as they were at some moment before it
   * turned to its first Run, the Attempts of each stale Run as they were when they were read, and the Runs it leaves
   * out.
   */
  ghost predicate AsRead(b: Behavior, since: nat, v: View, stale: set<JobId>, outside: set<JobId>)
    requires |b.states| == |b.steps| + 1
  {
    && since <= v.from <= |b.steps| && AllReadBy(v, stale)
    && ReadExpired(b, since, v.from, v.expired) && ReadRuns(b, since, v.from, v.seen.runs)
    && ReadAt(b, v.seen, v.read, since, stale) && OutsideH(b, v.read, v.live, stale, outside)
  }

  lemma AllRead(b: Behavior, since: nat, first: nat, second: nat, start: nat, v: View, listed: Db, stale: set<JobId>,
                outside: set<JobId>)
    requires |b.states| == |b.steps| + 1 && since <= first <= second <= start <= v.from == |b.steps|
    requires v.expired == ExpiredAt(b.states[first]) && listed == b.states[second].db
    requires ReadSoFar(b, start, v.mine, v.pass, v.live, listed, v.seen, v.read, stale, {}, outside)
    ensures AsRead(b, since, v, stale, outside) && OnLists(Last(b), v, stale - outside)
  {
    assert stale - {} == stale;
  }

  lemma AsReadStays(b: Behavior, c: Behavior, since: nat, v: View, stale: set<JobId>, outside: set<JobId>)
    requires |b.states| == |b.steps| + 1 && |c.states| == |c.steps| + 1 && Continues(b, c)
    requires AsRead(b, since, v, stale, outside)
    ensures AsRead(c, since, v, stale, outside)
  {
    var i :| since <= i <= v.from && v.expired == ExpiredAt(b.states[i]);
    assert c.states[i] == b.states[i];
    var l :| since <= l <= v.from && v.seen.runs == b.states[l].db.runs;
    assert c.states[l] == b.states[l];
  }

  lemma RecoveredAreStale(b: Behavior, since: nat, v: View, stale: set<JobId>, outside: set<JobId>, lists: Lists)
    requires |b.states| == |b.steps| + 1 && AsRead(b, since, v, stale, outside)
    requires lists.Entries() <= multiset(stale - outside)
    ensures forall j :: j in lists.recovered ==> WasRead(b, v, j)
  {
    forall j | j in lists.recovered ensures WasRead(b, v, j) {
      assert j in multiset(lists.recovered) && j in lists.Entries() && j in multiset(stale - outside);
    }
  }

  /** How far the reading has come. */
  ghost predicate ReadSoFar(b: Behavior, since: nat, mine: set<Token>, pass: Token, live: set<JobId>, listed: Db,
                            seen: Db, read: map<JobId, nat>, stale: set<JobId>, rest: set<JobId>, outside: set<JobId>)
    requires |b.states| == |b.steps| + 1
  {
    && rest <= stale && outside <= stale - rest && seen == listed.(attempts := seen.attempts)
    && BeingRead(Last(b), mine, pass, live, seen, rest, stale - rest - outside)
    && ReadAt(b, seen, read, since, stale - rest) && OutsideH(b, read, live, stale - rest, outside)
  }

  /** One more Run is read. */
  lemma ReadFurther(b: Behavior, c: Behavior, since: nat, mine: set<Token>, pass: Token, live: set<JobId>, listed: Db,
                    seen0: Db, seen: Db, read: map<JobId, nat>, at: nat, stale: set<JobId>, rest: set<JobId>,
                    outside: set<JobId>, j: JobId, out: bool)
    requires |b.states| == |b.steps| + 1 && |c.states| == |c.steps| + 1 && Continues(b, c) && since <= |b.steps|
    requires ReadSoFar(b, since, mine, pass, live, listed, seen0, read, stale, rest, outside) && j in rest
    requires |b.steps| <= at <= |c.steps| && seen == Reread(seen0, c.states[at].db, j)
    requires out <==> j !in live && OutsideHypothesis(c.states[at], j)
    requires var looked := stale - rest - outside;
             BeingRead(Last(c), mine, pass, live, seen, rest - {j}, if out then looked else looked + {j})
    ensures ReadSoFar(c, since, mine, pass, live, listed, seen, read[j := at], stale, rest - {j},
                      if out then outside + {j} else outside)
  {
    var outside', looked := if out then outside + {j} else outside, stale - rest - outside;
    ReadOneMore(b, c, seen0, seen, read, read[j := at], since, stale - rest, j);
    OneMoreOutside(b, c, read, read[j := at], live, stale - rest, outside, outside', j, out);
    assert stale - (rest - {j}) == stale - rest + {j};
    assert stale - (rest - {j}) - outside' == if out then looked else looked + {j};
  }

  /** Where nothing lapses, a pass is cut short exactly if some stale Run is blocked when it begins. */
  lemma CutShortExactlyWhen(v: View, stale: set<JobId>, since: real, s: Sys, recovered: seq<JobId>, end: PassEnd)
    requires NothingLapses(v.seen, since, s.now)
    requires end.Completed? ==> Converged(v, s.db, since, stale, recovered)
    requires end.Aborted? ==> end.job in stale && Blocked(v.seen, {end.job}, s.now, v)
    ensures end.Completed? <==> !Blocked(v.seen, stale, since, v)
  {
    if end.Aborted? { BlocksEarlier(v.seen, {end.job}, since, s.now, v); }
  }

  class Reconciler {
    const cluster: Cluster
    const live: set<JobId>                 // Runs whose local future is not done when the pass comes to them
    const me: Option<SessionId>            // this process's Host Agent session
    const claimTtl: real
    const sightings: map<JobId, Sighting>
    const turns: seq<seq<Step>>            // what the others do before each of the pass's own calls
    const mine: set<Token>                 // the fresh recovery tokens this pass draws from
    var t: nat

    constructor (cluster: Cluster, live: set<JobId>, me: Option<SessionId>, claimTtl: real,
                 sightings: map<JobId, Sighting>, turns: seq<seq<Step>>, mine: set<Token>)
      ensures this.cluster == cluster && this.live == live && this.me == me && this.claimTtl == claimTtl
      ensures this.sightings == sightings && this.turns == turns && this.mine == mine && this.t == 0
    {
      this.cluster, this.live, this.me, this.claimTtl := cluster, live, me, claimTtl;
      this.sightings, this.turns, this.mine, this.t := sightings, turns, mine, 0;
    }

    ghost predicate Ready()
      reads this, cluster, cluster.store
    {
      cluster.Valid() && cluster.log.cfg.onlyDead
    }

    function Sight(j: JobId): Sighting { if j in sightings then sightings[j] else Sighting(Gone, None, false) }

    /** What this pass works from. */
    predicate Mine(v: View) {
      v.live == live && v.sightings == sightings && v.me == me && v.mine == mine && v.pass in mine
    }

    /** While the pass runs nobody else does anything but let time go by. */
    ghost predicate Undisturbed() { forall i :: 0 <= i < |turns| ==> forall step :: step in turns[i] ==> step.Tick? }

    /** The others take their turn. */
    method Yield()
      requires Ready()
      modifies this, cluster, cluster.store
      ensures Ready() && Moves(old(cluster.log), cluster.log, mine)
      ensures Acts(old(cluster.Now()), cluster.Now(), mine)
      ensures Undisturbed() ==> cluster.Now().db == old(cluster.Now()).db
    {
      ghost var before := |cluster.log.steps|;
      if t < |turns| {
        cluster.Others(turns[t], ReconcilerOf(mine));
        t := t + 1;
      }
      OthersAct(cluster.log, before, |cluster.log.steps|, mine);
      if Undisturbed() { TicksKeepRows(cluster.log, before, |cluster.log.steps|); }
    }

    /** The Attempt with the highest number, if any. */
    method LastAttempt(db: Db, j: JobId) returns (last: Option<AttemptKey>)
      ensures last.None? ==> NoAttempts(db, j)
      ensures last.Some? ==> last.value.job == j && IsLast(db, last.value)
    {
      var rest := set k | k in db.attempts && k.job == j;
      ghost var every := rest;
      last := None;
      while rest != {}
        invariant rest <= every
        invariant last.Some? ==> last.value in every
        invariant forall k :: k in every - rest ==> last.Some? && k.no <= last.value.no
        decreases rest
      {
        var k :| k in rest;
        if last.None? || last.value.no < k.no { last := Some(k); }
        rest := rest - {k};
      }
      assert forall k :: k in db.attempts && k.job == j ==> k in every;
    }

    /** Fail a stale Run that was read without Attempts: its status and the time of its update, and nothing else. */
    method WriteOff(j: JobId, v: View, ghost rest: set<JobId>)
      requires Ready() && Mine(v) && Clear(cluster.Now().db, mine) && OnLists(cluster.Now(), v, rest)
      requires j in rest && j !in live && NoAttempts(v.seen, j)
      modifies this, cluster, cluster.store
      ensures Ready() && Goes(old(cluster.log), cluster.log) && Clear(cluster.Now().db, mine)
      ensures OnLists(cluster.Now(), v, rest - {j})
      ensures |old(cluster.log).steps| < |cluster.log.steps|
      ensures FailedAt(cluster.log, |cluster.log.steps| - 1, j, v.pass)
      ensures Undisturbed() ==>
        && Spares(old(cluster.Now()).db, cluster.Now().db, j)
        && FailedSince(old(cluster.Now()).db, cluster.Now().db, j, old(cluster.Now()).now)
    {
      ghost var db0 := cluster.Now().db;
      Yield();
      ghost var s := cluster.Now();
      StillClear(db0, s.db, mine, mine);
      AlwaysCore(cluster.log, |cluster.log.steps|);
      assert Reading(j, v.pass) in s.doomed;
      cluster.store.UpdateRun(cluster.Now().now, j, RunFailed, None);
      cluster.Took(FailEmpty(j, v.pass));
      WriteOffSpares(s.db, s.now, j);
      ghost var s' := cluster.Now();
      assert forall i, x :: x in mine && HoldsClaim(s'.db, i, x) ==> HoldsClaim(s.db, i, x);
    }

    /** Give the claim back, if it is still held. */
    method GiveBack(k: AttemptKey, token: Token)
      requires Ready() && OnlyAt(cluster.Now().db, mine, k, token)
      modifies this, cluster, cluster.store
      ensures Ready() && Moves(old(cluster.log), cluster.log, mine) && Clear(cluster.Now().db, mine)
      ensures Undisturbed() ==> Spares(old(cluster.Now()).db, cluster.Now().db, k.job)
    {
      ghost var db0 := cluster.Now().db;
      Yield();
      ghost var s := cluster.Now();
      StillOnlyAt(db0, s.db, mine, mine, k, token);
      var released := cluster.store.ReleaseRecoveryClaim(k, token);
      cluster.Took(Bystander(OpReleaseRecovery(k, token)));
      ReleaseClears(s.db, k, token, mine);
      ReconcilerOpSpares(cluster.log.cfg.kind, s.db, s.now, OpReleaseRecovery(k, token));
    }

    /** Abandon the Attempt under the claim: accepted exactly if the claim is still held. */
    method Finish(k: AttemptKey, token: Token, error: ErrorType) returns (filed: Filing, ghost close: nat)
      requires Ready() && token in mine && OnlyAt(cluster.Now().db, mine, k, token)
      modifies this, cluster, cluster.store
      ensures Ready() && Moves(old(cluster.log), cluster.log, mine) && Clear(cluster.Now().db, mine)
      ensures |old(cluster.log).steps| <= close < |cluster.log.steps| && Abandons(cluster.log.steps[close], k, token)
      ensures cluster.log.steps[close].op.failure == error
      ensures filed == if HoldsClaim(cluster.log.states[close].db, k, token) then Recovered else SkippedRecoveryClaim
      ensures filed == Recovered ==>
        && ClosedTogether(cluster.log.states[close + 1].db, k) && ClosedTogether(cluster.Now().db, k)
        && RuledAbandoned(cluster.log.states[close + 1].db, k, error)
      ensures Undisturbed() ==> Spares(old(cluster.Now()).db, cluster.Now().db, k.job)
      ensures Undisturbed() && HoldsClaim(old(cluster.Now()).db, k, token) ==> filed == Recovered
    {
      ghost var db0 := cluster.Now().db;
      Yield();
      ghost var s := cluster.Now();
      StillOnlyAt(db0, s.db, mine, mine, k, token);
      close := |cluster.log.steps|;
      AlwaysCore(cluster.log, close);
      FinishClears(cluster.log.cfg, s, k, token, error, mine);
      var ok := cluster.store.FinalizeRecovery(cluster.Now().now, k, token, error);
      cluster.Took(Bystander(OpFinalizeRecovery(k, token, error)));
      ReconcilerOpSpares(cluster.log.cfg.kind, s.db, s.now, OpFinalizeRecovery(k, token, error));
      filed := if ok then Recovered else SkippedRecoveryClaim;
    }

    /**
     * The Attempt is one the claim holder looks at: last in the snapshot, its lease not live by the list of expired
     * ones.
     */
    ghost predicate UnderClaim(k: AttemptKey, a: Attempt, v: View)
      reads cluster
    {
      && Mine(v) && k in v.seen.attempts && a == v.seen.attempts[k] && (a.leaseToken.Some? ==> k in v.expired)
      && v.from <= |cluster.log.steps|
    }

    /** No child, or it is gone: the Attempt is closed. */
    method CloseChildless(k: AttemptKey, a: Attempt, v: View, token: Token)
      returns (filed: Filing, ghost judged: nat, ghost close: nat)
      requires Ready() && token in mine && OnlyAt(cluster.Now().db, mine, k, token) && UnderClaim(k, a, v)
      requires a.child.Some? ==> Sight(k.job).probe.Gone?
      modifies this, cluster, cluster.store
      ensures Ready() && Moves(old(cluster.log), cluster.log, mine) && Clear(cluster.Now().db, mine)
      ensures |old(cluster.log).steps| <= judged <= close < |cluster.log.steps|
      ensures filed == Recovered || filed == SkippedRecoveryClaim
      ensures FiledByAttempt(filed, k, v, cluster.log, close)
      ensures filed == Recovered ==>
        ClosedBy(cluster.log, k, a, token, Sight(k.job), judged, close) && ClosedTogether(cluster.Now().db, k)
      ensures Undisturbed() ==> Spares(old(cluster.Now()).db, cluster.Now().db, k.job)
      ensures Undisturbed() && HoldsClaim(old(cluster.Now()).db, k, token) ==> filed == Recovered
    {
      ghost var db0 := cluster.Now().db;
      Yield();
      StillOnlyAt(db0, cluster.Now().db, mine, mine, k, token);
      judged := |cluster.log.steps|;
      var error := if Witnessed(cluster.Now().db, a) then ErrorSupervisorTerminated else ErrorWorkerUnavailable;
      filed, close := Finish(k, token, error);
    }

    /**
     * The child still runs: it may until its deadline; then it is asked to stop, or the Attempt is closed without it.
     */
    method CloseWithChild(k: AttemptKey, a: Attempt, v: View, token: Token)
      returns (filed: Filing, ghost judged: nat, ghost close: nat)
      requires Ready() && token in mine && OnlyAt(cluster.Now().db, mine, k, token) && UnderClaim(k, a, v)
      requires ChildAlive(a, Sight(k.job))
      modifies this, cluster, cluster.store
      ensures Ready() && Moves(old(cluster.log), cluster.log, mine) && Clear(cluster.Now().db, mine)
      ensures |old(cluster.log).steps| <= judged
      ensures FiledByAttempt(filed, k, v, cluster.log, if filed.SkippedRecoveryClaim? then close else judged)
      ensures filed.SkippedLiveChild? || filed.OrphanTerminationRequested? || filed.Recovered?
        || filed.SkippedRecoveryClaim?
      ensures filed == Recovered ==>
        ClosedBy(cluster.log, k, a, token, Sight(k.job), judged, close) && ClosedTogether(cluster.Now().db, k)
      ensures Undisturbed() ==> Spares(old(cluster.Now()).db, cluster.Now().db, k.job)
      ensures Undisturbed() && HoldsClaim(old(cluster.Now()).db, k, token) ==>
        (ChildSettled(a, Sight(k.job), old(cluster.Now()).now) ==> filed == Recovered)
    {
      ghost var db0 := cluster.Now().db;
      Yield();
      StillOnlyAt(db0, cluster.Now().db, mine, mine, k, token);
      judged, close := |cluster.log.steps|, 0;
      if !PastDeadline(a.child.value, cluster.Now().now) {
        GiveBack(k, token);
        filed := SkippedLiveChild;
      } else if AskedToStop(a.child.value, Sight(k.job)) {
        GiveBack(k, token);
        filed := OrphanTerminationRequested;
      } else {
        filed, close := Finish(k, token, ErrorOrphanIdentity);
      }
    }

    /**
     * The claim holder settles the child, if one is recorded, and then closes the Attempt or gives the claim back. Only
     * if there is a child and it may not be probed does the call end in between, with everything as it was, the claim
     * included.
     */
    method CloseClaimed(k: AttemptKey, a: Attempt, v: View, token: Token)
      returns (filed: Option<Filing>, ghost judged: nat, ghost close: nat)
      requires Ready() && token in mine && OnlyAt(cluster.Now().db, mine, k, token) && UnderClaim(k, a, v)
      modifies this, cluster, cluster.store
      ensures Ready() && Moves(old(cluster.log), cluster.log, mine)
      ensures filed.None? <==> a.child.Some? && Sight(k.job).probe.Denied?
      ensures filed.None? ==> cluster.log == old(cluster.log)
      ensures filed.Some? ==> Clear(cluster.Now().db, mine) && |old(cluster.log).steps| <= judged
      ensures filed.Some? ==>
        FiledByAttempt(filed.value, k, v, cluster.log, if filed.value.SkippedRecoveryClaim? then close else judged)
      ensures filed == Some(Recovered) ==>
        ClosedBy(cluster.log, k, a, token, Sight(k.job), judged, close) && ClosedTogether(cluster.Now().db, k)
      ensures Undisturbed() ==> Spares(old(cluster.Now()).db, cluster.Now().db, k.job)
      ensures Undisturbed() && HoldsClaim(old(cluster.Now()).db, k, token) ==>
        (ChildSettled(a, Sight(k.job), old(cluster.Now()).now) ==> filed == Some(Recovered))
    {
      var s := Sight(k.job);
      var f: Filing;
      if a.child.None? || s.probe.Gone? {
        f, judged, close := CloseChildless(k, a, v, token);
      } else if s.probe.Denied? {
        return None, 0, 0;
      } else {
        f, judged, close := CloseWithChild(k, a, v, token);
      }
      filed := Some(f);
    }

    /** Try to claim the Attempt for recovery: obtained exactly if it was allowed at that moment, for `claimTtl`. */
    method TryClaim(k: AttemptKey, token: Token) returns (ok: bool, ghost claim: nat)
      requires Ready() && token in mine && Clear(cluster.Now().db, mine)
      modifies this, cluster, cluster.store
      ensures Ready() && Moves(old(cluster.log), cluster.log, mine)
      ensures |old(cluster.log).steps| <= claim && claim + 1 == |cluster.log.steps|
      ensures Claims(cluster.log.steps[claim], k, token) && Acts(old(cluster.Now()), cluster.log.states[claim], mine)
      ensures ok <==> ClaimAllowed(cluster.log.states[claim], k)
      ensures if ok then OnlyAt(cluster.Now().db, mine, k, token) && HoldsClaim(cluster.Now().db, k, token)
              else Clear(cluster.Now().db, mine)
      ensures ok ==> cluster.Now().db.attempts[k].recovery == Some(Claim(token, cluster.Now().now + claimTtl))
      ensures cluster.Now().now == cluster.log.states[claim].now
      ensures Undisturbed() ==>
        && Spares(old(cluster.Now()).db, cluster.Now().db, k.job)
        && cluster.log.states[claim].db == old(cluster.Now()).db
    {
      ghost var db0 := cluster.Now().db;
      Yield();
      ghost var s := cluster.Now();
      StillClear(db0, s.db, mine, mine);
      claim := |cluster.log.steps|;
      ok := cluster.store.ClaimRecovery(cluster.Now().now, k, token, claimTtl);
      cluster.Took(Bystander(OpClaimRecovery(k, token, claimTtl)));
      ClaimMarksOne(s.db, s.now, k, token, claimTtl, mine);
      ReconcilerOpSpares(cluster.log.cfg.kind, s.db, s.now, OpClaimRecovery(k, token, claimTtl));
    }

    /** A claim is tried; only its holder looks at the child, and closes or releases the Attempt. */
    method ClaimAndClose(k: AttemptKey, a: Attempt, v: View, token: Token)
      returns (filed: Option<Filing>, ghost evidence: Evidence, ghost when: nat)
      requires Ready() && token in mine && Clear(cluster.Now().db, mine) && UnderClaim(k, a, v)
      requires IsLast(v.seen, k) && (Foreign(a, me) ==> Witnessed(cluster.Now().db, a))
      modifies this, cluster, cluster.store
      ensures Ready() && Moves(old(cluster.log), cluster.log, mine)
      ensures filed.Some? ==> Clear(cluster.Now().db, mine) && FiledByAttempt(filed.value, k, v, cluster.log, when)
      ensures filed.None? ==>
        && a.child.Some? && Sight(k.job).probe.Denied?
        && OnlyAt(cluster.Now().db, mine, k, token) && HoldsClaim(cluster.Now().db, k, token)
        && (Undisturbed() ==> Claimable(old(cluster.Now()).db, k, cluster.Now().now))
      ensures filed == Some(Recovered) ==>
        && evidence.k == k && Justifies(evidence, cluster.log, v)
        && ClosedTogether(cluster.Now().db, k)
      ensures Undisturbed() ==> Spares(old(cluster.Now()).db, cluster.Now().db, k.job)
      ensures Undisturbed() && ClaimAllowed(old(cluster.Now()), k) ==>
        && (a.child.Some? && Sight(k.job).probe.Denied? ==> filed.None?)
        && (ChildSettled(a, Sight(k.job), old(cluster.Now()).now) ==> filed == Some(Recovered))
    {
      ghost var db0 := cluster.Now().db;
      var ok;
      ghost var claim, judged, close;
      ok, claim := TryClaim(k, token);
      if !ok {
        assert RefusedAt(cluster.log, claim, k, mine);
        return Some(SkippedRecoveryClaim), Evidence(k, token, 0, 0, 0), claim;
      }
      ghost var db1 := cluster.Now().db;
      filed, judged, close := CloseClaimed(k, a, v, token);
      when := if filed == Some(SkippedRecoveryClaim) then close else judged;
      evidence := Evidence(k, token, claim, judged, close);
      if Undisturbed() { SparesTransitive(db0, db1, cluster.Now().db, k.job); }
    }

    /** An Attempt of another session is left to it as long as its execution has no witness. */
    method LookAtOwner(a: Attempt) returns (skip: bool)
      requires Ready() && Clear(cluster.Now().db, mine)
      modifies this, cluster, cluster.store
      ensures Ready() && Moves(old(cluster.log), cluster.log, mine) && Clear(cluster.Now().db, mine)
      ensures skip <==> Foreign(a, me) && !Witnessed(cluster.Now().db, a)
      ensures Undisturbed() ==> cluster.Now().db == old(cluster.Now()).db
    {
      ghost var s := cluster.Now();
      skip := false;
      if Foreign(a, me) {
        Yield();
        StillClear(s.db, cluster.Now().db, mine, mine);
        skip := !Witnessed(cluster.Now().db, a);
      }
    }

    /** Claim, close and file a Run whose last Attempt is not deferred and whose lease is not live. */
    method ClaimAndFile(k: AttemptKey, v: View, token: Token)
      returns (filed: Option<Filing>, ghost evidence: Option<Evidence>)
      requires Ready() && token in mine && Clear(cluster.Now().db, mine) && Mine(v) && v.from <= |cluster.log.steps|
      requires IsLast(v.seen, k) && k.job !in live && Listed(k, v)
      requires Foreign(v.seen.attempts[k], me) ==> Witnessed(cluster.Now().db, v.seen.attempts[k])
      modifies this, cluster, cluster.store
      ensures Ready() && Moves(old(cluster.log), cluster.log, mine)
      ensures filed.Some? ==> Clear(cluster.Now().db, mine) && Reconciled(cluster.log, k.job, v, filed.value, evidence)
      ensures filed.None? ==> LeftClaimed(cluster.Now().db, k.job, mine) && Sight(k.job).probe.Denied?
      ensures Undisturbed() ==> Spares(old(cluster.Now()).db, cluster.Now().db, k.job)
      ensures Undisturbed() && Faithful(v.seen, old(cluster.Now()).db, k.job) ==>
        ConvergesAt(k, v, old(cluster.Now()).now, cluster.Now(), filed)
    {
      ghost var s := cluster.Now();
      ghost var found: Evidence, when: nat;
      filed, found, when := ClaimAndClose(k, v.seen.attempts[k], v, token);
      evidence := Some(found);
      if filed.Some? { FiledByLast(filed.value, k, v, cluster.log, when); }
      if Undisturbed() && Faithful(v.seen, s.db, k.job) { ClaimDecides(k, v, s, cluster.Now(), filed); }
    }

    /** Reconcile a stale Run by its last Attempt. */
    method ReconcileByAttempt(k: AttemptKey, v: View, token: Token)
      returns (filed: Option<Filing>, ghost evidence: Option<Evidence>)
      requires Ready() && token in mine && Clear(cluster.Now().db, mine) && Mine(v) && v.from <= |cluster.log.steps|
      requires IsLast(v.seen, k) && k.job !in live
      modifies this, cluster, cluster.store
      ensures Ready() && Moves(old(cluster.log), cluster.log, mine)
      ensures filed.Some? ==> Clear(cluster.Now().db, mine) && Reconciled(cluster.log, k.job, v, filed.value, evidence)
      ensures filed.None? ==> LeftClaimed(cluster.Now().db, k.job, mine) && Sight(k.job).probe.Denied?
      ensures Undisturbed() ==> Spares(old(cluster.Now()).db, cluster.Now().db, k.job)
      ensures Undisturbed() && Faithful(v.seen, old(cluster.Now()).db, k.job) ==>
        ConvergesAt(k, v, old(cluster.Now()).now, cluster.Now(), filed)
    {
      evidence := None;
      var a := v.seen.attempts[k];
      ghost var s := cluster.Now();
      var skip := LookAtOwner(a);
      if skip {
        FiledByLast(DeferredRemote, k, v, cluster.log, |cluster.log.steps|);
        if Undisturbed() && Faithful(v.seen, s.db, k.job) { LeavesAlone(k, v, s.now, cluster.Now(), DeferredRemote); }
        return Some(DeferredRemote), None;
      }
      if a.leaseToken.Some? && k !in v.expired {
        FiledByLast(SkippedActiveLease, k, v, cluster.log, |cluster.log.steps|);
        LeavesAlone(k, v, s.now, cluster.Now(), SkippedActiveLease);
        return Some(SkippedActiveLease), None;
      }
      filed, evidence := ClaimAndFile(k, v, token);
    }

    /** Reconcile one stale Run, as it was read. Nothing is filed when the probe raises; the claim is then left. */
    method ReconcileOne(j: JobId, v: View, token: Token, ghost rest: set<JobId>)
      returns (filed: Option<Filing>, ghost evidence: Option<Evidence>)
      requires Ready() && token in mine && Clear(cluster.Now().db, mine) && Mine(v) && v.from <= |cluster.log.steps|
      requires OnLists(cluster.Now(), v, rest) && j in rest
      modifies this, cluster, cluster.store
      ensures Ready() && Goes(old(cluster.log), cluster.log)
      ensures OnLists(cluster.Now(), v, if filed.Some? then rest - {j} else rest)
      ensures filed.Some? ==> Clear(cluster.Now().db, mine) && Reconciled(cluster.log, j, v, filed.value, evidence)
      ensures filed.None? ==> LeftClaimed(cluster.Now().db, j, mine) && Sight(j).probe.Denied?
      ensures Undisturbed() ==> Spares(old(cluster.Now()).db, cluster.Now().db, j)
      ensures Undisturbed() && Faithful(v.seen, old(cluster.Now()).db, j) ==>
        Converges(j, v, old(cluster.Now()).now, cluster.Now(), filed)
    {
      evidence := None;
      if j in live { return Some(SkippedLive), None; }
      var last := LastAttempt(v.seen, j);
      if last.None? {
        ghost var before := cluster.Now();
        WriteOff(j, v, rest);
        assert FailedEmpty(cluster.log, v, j);
        if Undisturbed() && Faithful(v.seen, before.db, j) { EmptyConverges(j, v, before, cluster.Now()); }
        return Some(Recovered), None;
      }
      ghost var s := cluster.Now();
      filed, evidence := ReconcileByAttempt(last.value, v, token);
      if Undisturbed() && Faithful(v.seen, s.db, j) { LastDecides(last.value, v, s.now, cluster.Now(), filed); }
    }

    /** The pass puts the stale Runs without a live local future on its list. */
    method ListAll(runs: set<JobId>, pass: Token)
      requires Ready() && pass in mine && NoneListed(cluster.Now(), mine)
      requires forall j :: j in runs ==> RunOpen(cluster.Now().db, j)
      modifies cluster
      ensures Ready() && Goes(old(cluster.log), cluster.log)
      ensures cluster.Now() == old(cluster.Now()).(listed := cluster.Now().listed)
      ensures forall r: Reading :: r.pass in mine ==> (r in cluster.Now().listed <==> r.pass == pass && r.job in runs)
    {
      var rest := runs;
      while rest != {}
        invariant Ready() && Goes(old(cluster.log), cluster.log) && rest <= runs
        invariant cluster.Now() == old(cluster.Now()).(listed := cluster.Now().listed)
        invariant forall r: Reading :: r.pass in mine ==>
          (r in cluster.Now().listed <==> r.pass == pass && r.job in runs - rest)
        decreases rest
      {
        var j :| j in rest;
        cluster.Took(List(j, pass));
        rest := rest - {j};
      }
    }

    /** A Run that was read without Attempts is put on the list of those to fail, unless it is left out. */
    method Mark(j: JobId, pass: Token, out: bool)
      requires cluster.Valid() && Reading(j, pass) in cluster.Now().listed - cluster.Now().doomed
      requires out == OutsideHypothesis(cluster.Now(), j)
      modifies cluster
      ensures cluster.Valid() && Goes(old(cluster.log), cluster.log)
      ensures cluster.Now().db == old(cluster.Now()).db
      ensures cluster.Now().listed == old(cluster.Now()).listed - {Reading(j, pass)}
      ensures cluster.Now().doomed ==
                if !out && NoAttempts(cluster.Now().db, j) then old(cluster.Now()).doomed + {Reading(j, pass)}
                else old(cluster.Now()).doomed
    {
      if out || !NoAttempts(cluster.store.Rows(), j) {
        cluster.Took(Forget(j, pass));
      } else {
        cluster.Took(SeeEmpty(j, pass));
      }
    }

    /**
     * The Attempts of one listed Run are read. If there are none and its executor can no longer start, this pass will
     * fail it; if it can, hypothesis H does not hold of the Run, and the pass leaves it out.
     */
    method ReadOne(j: JobId, pass: Token, seen0: Db, ghost rest: set<JobId>, ghost looked: set<JobId>)
      returns (seen: Db, at: nat, out: bool)
      requires Ready() && pass in mine && Clear(cluster.Now().db, mine) && j in rest && j !in looked
      requires BeingRead(cluster.Now(), mine, pass, live, seen0, rest, looked)
      modifies this, cluster, cluster.store
      ensures Ready() && Goes(old(cluster.log), cluster.log) && Clear(cluster.Now().db, mine)
      ensures |old(cluster.log).steps| <= at <= |cluster.log.steps|
      ensures seen == Reread(seen0, cluster.log.states[at].db, j)
      ensures out <==> j !in live && OutsideHypothesis(cluster.log.states[at], j)
      ensures BeingRead(cluster.Now(), mine, pass, live, seen, rest - {j}, if out then looked else looked + {j})
      ensures Undisturbed() ==>
        cluster.Now().db == old(cluster.Now()).db && cluster.log.states[at].db == old(cluster.Now()).db
    {
      ghost var db0 := cluster.Now().db;
      Yield();
      StillClear(db0, cluster.Now().db, mine, mine);
      at := |cluster.log.steps|;
      var db := cluster.store.Rows();
      seen := Reread(seen0, db, j);
      RereadReads(seen0, db, j);
      EmptyKept(db, seen, j);
      out := j !in live && OutsideHypothesis(cluster.Now(), j);
      ghost var s := cluster.Now();
      if j !in live {
        assert Reading(j, pass) in cluster.Now().listed;
        Mark(j, pass, out);
      }
      OneMoreRead(s, cluster.Now(), mine, pass, live, seen0, seen, rest, looked, j, out);
    }

    /** The Attempts of all stale Runs are read, one Run after the other. */
    method ReadAll(pass: Token, listed: Db, stale: set<JobId>)
      returns (seen: Db, read: map<JobId, nat>, outside: set<JobId>)
      requires Ready() && pass in mine && Clear(cluster.Now().db, mine)
      requires BeingRead(cluster.Now(), mine, pass, live, listed, stale, {})
      modifies this, cluster, cluster.store
      ensures Ready() && Goes(old(cluster.log), cluster.log) && Clear(cluster.Now().db, mine)
      ensures ReadSoFar(cluster.log, |old(cluster.log).steps|, mine, pass, live, listed, seen, read, stale, {}, outside)
      ensures Undisturbed() && listed == old(cluster.Now()).db ==> seen == listed && cluster.Now().db == listed
    {
      ghost var start := |cluster.log.steps|;
      seen, read, outside := listed, map[], {};
      var rest := stale;
      assert stale - rest - outside == {};
      while rest != {}
        invariant Ready() && Goes(old(cluster.log), cluster.log) && Clear(cluster.Now().db, mine)
        invariant ReadSoFar(cluster.log, start, mine, pass, live, listed, seen, read, stale, rest, outside)
        invariant Undisturbed() && listed == old(cluster.Now()).db ==> seen == listed && cluster.Now().db == listed
        decreases rest
      {
        var j :| j in rest;
        seen, read, outside := ReadNext(j, pass, listed, seen, read, outside, start, stale, rest);
        rest := rest - {j};
      }
    }

    method ReadNext(j: JobId, pass: Token, ghost listed: Db, seen0: Db, read0: map<JobId, nat>, outside0: set<JobId>,
                    ghost start: nat, ghost stale: set<JobId>, ghost rest: set<JobId>)
      returns (seen: Db, read: map<JobId, nat>, outside: set<JobId>)
      requires Ready() && pass in mine && Clear(cluster.Now().db, mine) && j in rest && start <= |cluster.log.steps|
      requires ReadSoFar(cluster.log, start, mine, pass, live, listed, seen0, read0, stale, rest, outside0)
      modifies this, cluster, cluster.store
      ensures Ready() && Goes(old(cluster.log), cluster.log) && Clear(cluster.Now().db, mine)
      ensures ReadSoFar(cluster.log, start, mine, pass, live, listed, seen, read, stale, rest - {j}, outside)
      ensures Undisturbed() && seen0 == old(cluster.Now()).db ==> seen == seen0 && cluster.Now().db == seen0
    {
      ghost var before := cluster.log;
      var at, out;
      seen, at, out := ReadOne(j, pass, seen0, rest, stale - rest - outside0);
      read, outside := read0[j := at], if out then outside0 + {j} else outside0;
      ReadFurther(before, cluster.log, start, mine, pass, live, listed, seen0, seen, read0, at, stale, rest, outside0,
        j, out);
      RereadReads(seen0, cluster.log.states[at].db, j);
    }

    /**
     * What the pass works from, as it reads it: the expired leases, the stale Runs, and then the Attempts of each Run
     * in turn, while the others act.
     */
    method Snapshot(staleAfter: real) returns (v: View, stale: set<JobId>, outside: set<JobId>)
      requires Ready() && mine != {} && Clear(cluster.Now().db, mine) && NoneListed(cluster.Now(), mine)
      modifies this, cluster, cluster.store
      ensures Ready() && Goes(old(cluster.log), cluster.log) && Mine(v)
      ensures Clear(cluster.Now().db, mine) && OnLists(cluster.Now(), v, stale - outside)
      ensures v.from == |cluster.log.steps| && stale == StaleAt(v.seen, old(cluster.Now()).now - staleAfter)
      ensures AsRead(cluster.log, |old(cluster.log).steps|, v, stale, outside)
      ensures Undisturbed() ==>
        && v.seen == old(cluster.Now()).db && cluster.Now().db == v.seen
        && Covers(v.expired, v.seen, old(cluster.Now()).now)
    {
      ghost var s0 := cluster.Now();
      var cutoff := cluster.Now().now - staleAfter;
      Yield();
      ghost var s1, first := cluster.Now(), |cluster.log.steps|;
      var expired := ExpiredAt(cluster.Now());
      Yield();
      ghost var s2, second := cluster.Now(), |cluster.log.steps|;
      StillClear(s0.db, s1.db, mine, mine);
      StillClear(s1.db, s2.db, mine, mine);
      var pass :| pass in mine;
      var listed := cluster.store.Rows();
      stale := StaleAt(listed, cutoff);
      ListAll(stale - live, pass);
      ghost var start := |cluster.log.steps|;
      var seen, read;
      seen, read, outside := ReadAll(pass, listed, stale);
      v := View(seen, expired, |cluster.log.steps|, read, live, sightings, me, mine, pass);
      AllRead(cluster.log, |old(cluster.log).steps|, first, second, start, v, listed, stale, outside);
    }

    /** Look at one more Run and file it. */
    method FileOne(j: JobId, v: View, lists0: Lists, ghost since: real, ghost stale: set<JobId>, ghost rest: set<JobId>,
                   ghost evidence0: map<JobId, Evidence>)
      returns (lists: Option<Lists>, ghost evidence: map<JobId, Evidence>)
      requires Ready() && mine != {} && Mine(v) && j in rest
      requires Midway(cluster.log, v, Undisturbed(), since, stale, rest, lists0, evidence0)
      modifies this, cluster, cluster.store
      ensures Ready() && Goes(old(cluster.log), cluster.log)
      ensures lists.Some? ==> Midway(cluster.log, v, Undisturbed(), since, stale, rest - {j}, lists.value, evidence)
      ensures lists.None? ==>
        CutShort(cluster.log, v, Undisturbed(), j, lists0, evidence) && OnLists(cluster.Now(), v, rest)
    {
      ghost var log0 := cluster.log;
      var token :| token in mine;
      var filed;
      ghost var found;
      filed, found := ReconcileOne(j, v, token, rest);
      evidence := evidence0;
      if filed.None? {
        if Undisturbed() { StillUntouched(v.seen, Last(log0).db, cluster.Now().db, rest, j); }
        AllFiledStay(lists0, v, log0, cluster.log);
        AllStillJustified(log0, cluster.log, v, lists0.recovered, evidence0);
        return None, evidence;
      }
      evidence := StillMidway(
        log0, cluster.log, v, Undisturbed(), since, stale, rest, lists0, evidence0, j, filed.value, found);
      lists := Some(lists0.File(j, filed.value));
    }

    /** The pass is over: what it has not come to it never will. */
    method ForgetAll(v: View, runs: set<JobId>)
      requires Ready() && Mine(v) && OnLists(cluster.Now(), v, runs)
      modifies cluster
      ensures Ready() && Goes(old(cluster.log), cluster.log) && NoneListed(cluster.Now(), mine)
      ensures cluster.Now() == old(cluster.Now()).(listed := cluster.Now().listed, doomed := cluster.Now().doomed)
    {
      var rest := runs;
      while rest != {}
        invariant Ready() && Goes(old(cluster.log), cluster.log) && OnLists(cluster.Now(), v, rest)
        invariant cluster.Now() == old(cluster.Now()).(listed := cluster.Now().listed, doomed := cluster.Now().doomed)
        decreases rest
      {
        var j :| j in rest;
        if Reading(j, v.pass) in cluster.Now().doomed { cluster.Took(Forget(j, v.pass)); }
        rest := rest - {j};
      }
    }

    /** One Run is filed, or the pass is over. */
    method FileNext(j: JobId, v: View, lists0: Lists, ghost since: real, ghost stale: set<JobId>, rest: set<JobId>,
                    ghost evidence0: map<JobId, Evidence>)
      returns (lists: Option<Lists>, ghost evidence: map<JobId, Evidence>)
      requires Ready() && mine != {} && Mine(v) && j in rest
      requires Midway(cluster.log, v, Undisturbed(), since, stale, rest, lists0, evidence0)
      modifies this, cluster, cluster.store
      ensures Ready() && Goes(old(cluster.log), cluster.log)
      ensures lists.Some? ==> Midway(cluster.log, v, Undisturbed(), since, stale, rest - {j}, lists.value, evidence)
      ensures lists.None? ==>
        CutShort(cluster.log, v, Undisturbed(), j, lists0, evidence) && NoneListed(cluster.Now(), mine)
    {
      lists, evidence := FileOne(j, v, lists0, since, stale, rest, evidence0);
      if lists.None? {
        ghost var cut := cluster.log;
        ForgetAll(v, rest);
        CutShortStays(cut, cluster.log, v, Undisturbed(), j, lists0, evidence);
      }
    }

    /** Look at every stale Run that was read. */
    method FileAll(v: View, stale: set<JobId>, ghost since: real)
      returns (lists: Lists, end: PassEnd, ghost evidence: map<JobId, Evidence>)
      requires Ready() && mine != {} && Mine(v)
      requires Midway(cluster.log, v, Undisturbed(), since, stale, stale, NO_LISTS, map[])
      modifies this, cluster, cluster.store
      ensures Ready() && Goes(old(cluster.log), cluster.log) && NoneListed(cluster.Now(), mine)
      ensures end.Completed? ==> Midway(cluster.log, v, Undisturbed(), since, stale, {}, lists, evidence)
      ensures end.Aborted? ==>
        && lists.Entries() < multiset(stale) && end.job in stale
        && CutShort(cluster.log, v, Undisturbed(), end.job, lists, evidence)
    {
      lists, evidence := NO_LISTS, map[];
      var rest := stale;
      while rest != {}
        invariant Ready() && Goes(old(cluster.log), cluster.log)
        invariant Midway(cluster.log, v, Undisturbed(), since, stale, rest, lists, evidence)
        decreases rest
      {
        var j :| j in rest;
        assert j in multiset(stale) && j !in multiset(stale - rest);
        var filed;
        filed, evidence := FileNext(j, v, lists, since, stale, rest, evidence);
        if filed.None? { return lists, Aborted(j), evidence; }
        lists, rest := filed.value, rest - {j};
      }
      end := Completed;
    }

    /** File every stale Run that was read, and what that comes to. */
    method FileStale(v: View, stale: set<JobId>, ghost since: real)
      returns (lists: Lists, end: PassEnd, ghost evidence: map<JobId, Evidence>)
      requires Ready() && mine != {} && Mine(v)
      requires Midway(cluster.log, v, Undisturbed(), since, stale, stale, NO_LISTS, map[])
      modifies this, cluster, cluster.store
      ensures Ready() && Goes(old(cluster.log), cluster.log) && NoneListed(cluster.Now(), mine)
      ensures if end.Completed? then lists.Entries() == multiset(stale) else lists.Entries() < multiset(stale)
      ensures AllFiledRightly(lists, v, cluster.log) && AllJustified(cluster.log, v, lists.recovered, evidence)
      ensures if end.Aborted?
              then end.job in stale && LeftClaimed(cluster.Now().db, end.job, mine) && Sight(end.job).probe.Denied?
              else Clear(cluster.Now().db, mine)
      ensures Undisturbed() ==> Untouched(v.seen, cluster.Now().db, {})
      ensures Undisturbed() && end.Completed? ==> Converged(v, cluster.Now().db, since, stale, lists.recovered)
      ensures Undisturbed() && end.Aborted? ==> Blocked(v.seen, {end.job}, cluster.Now().now, v)
      ensures Undisturbed() && NothingLapses(v.seen, since, cluster.Now().now) ==>
        (end.Completed? <==> !Blocked(v.seen, stale, since, v))
    {
      lists, end, evidence := FileAll(v, stale, since);
      assert stale - {} == stale;
      if Undisturbed() && NothingLapses(v.seen, since, cluster.Now().now) {
        CutShortExactlyWhen(v, stale, since, cluster.Now(), lists.recovered, end);
      }
    }

    /**
     * One pass. Each stale Run lands in exactly one list, and belongs there; no RUNNING Attempt is left claimed by the
     * pass, nor any Run on its lists; an Attempt is abandoned only on the evidence named in `Justifies`; and an
     * undisturbed pass closes everything that is closable. The Runs in `outside` are those that hypothesis H forbids
     * to fail as they were read; the pass goes on with the others. The evidence is of the Attempt as it was read, and
     * holds of the row that is claimed and closed exactly if the pass was not `Overtaken`.
     *
     * All this up to one exception: a probe that raises PermissionError cuts the pass short and leaves that one Run
     * claimed. An undisturbed pass, in which no lease or claim lapses, is cut short exactly if some stale Run is
     * `Blocked` when it begins; otherwise what blocks it lies between what is blocked at its beginning and at its end.
     */
    method RecoverStaleRuns(staleAfter: real)
      returns (lists: Lists, end: PassEnd, outside: set<JobId>, ghost v: View, ghost stale: set<JobId>,
               ghost evidence: map<JobId, Evidence>)
      requires Ready() && mine != {} && Clear(cluster.Now().db, mine) && NoneListed(cluster.Now(), mine)
      modifies this, cluster, cluster.store
      ensures Ready() && Goes(old(cluster.log), cluster.log) && NoneListed(cluster.Now(), mine) && Mine(v)
      ensures stale == StaleAt(v.seen, old(cluster.Now()).now - staleAfter)
      ensures AsRead(cluster.log, |old(cluster.log).steps|, v, stale, outside)
      ensures if end.Completed? then lists.Entries() == multiset(stale - outside)
              else lists.Entries() < multiset(stale - outside)
      ensures AllFiledRightly(lists, v, cluster.log) && AllJustified(cluster.log, v, lists.recovered, evidence)
      ensures AllHoldOfRows(cluster.log, v, lists.recovered, evidence)
      ensures if end.Aborted?
              then
                && end.job in stale - outside
                && LeftClaimed(cluster.Now().db, end.job, mine) && Sight(end.job).probe.Denied?
              else Clear(cluster.Now().db, mine)
      ensures Undisturbed() ==> v.seen == old(cluster.Now()).db && Untouched(v.seen, cluster.Now().db, {})
      ensures Undisturbed() && end.Completed? ==>
        Converged(v, cluster.Now().db, old(cluster.Now()).now, stale - outside, lists.recovered)
      ensures Undisturbed() && end.Aborted? ==> Blocked(v.seen, {end.job}, cluster.Now().now, v)
      ensures Undisturbed() && NothingLapses(v.seen, old(cluster.Now()).now, cluster.Now().now) ==>
        (end.Completed? <==> !Blocked(v.seen, stale - outside, old(cluster.Now()).now, v))
    {
      ghost var since := cluster.Now().now;
      var w, todo;
      w, todo, outside := Snapshot(staleAfter);
      v, stale := w, todo;
      ghost var read := cluster.log;
      StartsMidway(read, w, Undisturbed(), since, todo - outside);
      lists, end, evidence := FileStale(w, todo - outside, since);
      AsReadStays(read, cluster.log, |old(cluster.log).steps|, v, stale, outside);
      RecoveredAreStale(cluster.log, |old(cluster.log).steps|, v, stale, outside, lists);
      RecoveredHoldOfRows(cluster.log, v, lists.recovered, evidence);
    }
  }

  /** One RUNNING Run whose one Attempt has a recorded child and a lapsed lease, and no claim. */
  ghost predicate LapsedWithChild(s: Sys, k: AttemptKey) {
    && s.db.attempts.Keys == {k} && IsRunning(s.db, k)
    && var a := s.db.attempts[k];
       a.child.Some? && a.owner.None? && a.recovery.None? && LeaseLapsed(a, s.now) && a.leaseToken.Some?
       && s.db.runs.Keys == {k.job} && StaleRunning(s.db, s.now - 1.0, k.job)
  }

  /** An executor records its child and goes quiet. */
  const QUIET: seq<Step> := [
    Submit(0, 0), ClaimRun(0, InProcess, None), Begin(0), Record(0), Acquire(0, 3),
    Bystander(OpRecordProcess(AttemptKey(0, 1), 3, Child(50, None, None, None))), Tick(10.0)]

  /** Its first five steps: Attempt 1 is RUNNING under a lease of one second. */
  lemma QuietStart(cfg: Config) returns (b: Behavior)
    requires cfg == Config(cfg.kind, false, 1, None, 1.0, true)
    ensures b.Valid() && b.cfg == cfg && b.steps == QUIET[..5]
    ensures Last(b).now == 0.0 && Last(b).listed == {} && Last(b).doomed == {}
    ensures Last(b).db == EMPTY_DB.(
              runs := map[0 := Run(RunRunning, 0, NO_VERDICT, 0.0)],
              attempts := map[AttemptKey(0, 1) := FRESH_ATTEMPT.(leaseToken := Some(3), leaseExpires := Some(1.0))])
  {
    b := OneClaimedRun(cfg);
    b := Extended(b, Begin(0));
    b := Extended(b, Record(0));
    b := Extended(b, Acquire(0, 3));
  }

  lemma QuietRun(cfg: Config) returns (b: Behavior)
    requires cfg == Config(cfg.kind, false, 1, None, 1.0, true)
    ensures b.Valid() && b.cfg == cfg && b.steps == QUIET
    ensures LapsedWithChild(Last(b), AttemptKey(0, 1)) && Last(b).listed == {} && Last(b).doomed == {}
  {
    b := QuietStart(cfg);
    b := Extended(b, Bystander(OpRecordProcess(AttemptKey(0, 1), 3, Child(50, None, None, None))));
    b := Extended(b, Tick(10.0));
  }

  /** The one stale Run is blocked, and hypothesis H has nothing against it. */
  lemma OnlyBlockedIsCutShort(b: Behavior, since: nat, s: Sys, v: View, stale: set<JobId>, outside: set<JobId>)
    requires |b.states| == |b.steps| + 1 && AsRead(b, since, v, stale, outside)
    requires LapsedWithChild(s, AttemptKey(0, 1)) && v.seen == s.db && stale == StaleAt(s.db, s.now - 1.0)
    requires 0 !in v.live && v.Sight(0).probe.Denied?
    ensures stale == {0} && outside == {} && Blocked(v.seen, stale - outside, s.now, v)
    ensures forall later: real :: s.now <= later ==> NothingLapses(v.seen, s.now, later)
  {
    assert AttemptKey(0, 1) in v.seen.attempts && AttemptKey(0, 1).job == 0;
    assert stale == {0};
    assert AttemptKey(0, 1) in b.states[v.read[0]].db.attempts;
    assert outside == {};
    assert Blocks(v.seen, AttemptKey(0, 1), s.now, v) && 0 in stale - outside;
  }

  /** The exception occurs: a pass over a reachable state, disturbed by nobody, is cut short and leaves its claim. */
  method CutShortLeavesClaim(kind: StoreKind) returns (end: PassEnd, ghost b: Behavior)
    ensures b.Valid() && b.cfg.onlyDead && b.cfg.kind == kind
    ensures end == Aborted(0) && LeftClaimed(Last(b).db, 0, {7})
  {
    var cfg := Config(kind, false, 1, None, 1.0, true);
    var cluster := new Cluster(cfg);
    ghost var start := QuietRun(cfg);
    cluster.Replay(QUIET, start);
    var pass := new Reconciler(cluster, {}, None, 5.0, map[0 := Sighting(Denied, None, false)], [], {7});
    var lists, outside;
    ghost var v, stale, evidence;
    lists, end, outside, v, stale, evidence := pass.RecoverStaleRuns(1.0);
    OnlyBlockedIsCutShort(cluster.log, |start.steps|, Last(start), v, stale, outside);
    b := cluster.log;
  }
}
