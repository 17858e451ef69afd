/** What a reconciliation pass observes, decides and owes its evidence to (service.py `recover_stale_runs`). */
module Reconciling {
  import opened Prelude
  import opened Acceptance
  import opened Tables
  import opened StoreOps
  import opened History
  import opened Columns
  import opened Protocol
  import opened ProtocolInvariant
  import opened Numbering
  import opened ProtocolTheorems
  import opened ClusterObject

  /** What `os.kill(pid, 0)` says; `Denied` is a PermissionError, which the pass does not catch. */
  datatype Probe = Gone | Alive | Denied

  /** What the pass can observe about the recorded child of one Run. */
  datatype Sighting = Sighting(probe: Probe, identity: Option<nat>, signalSent: bool)

  /** The result list a Run ends up in. */
  datatype Filing =
    | Recovered | SkippedLive | SkippedLiveChild | SkippedActiveLease | SkippedRecoveryClaim
    | OrphanTerminationRequested | DeferredRemote

  /** The lists the pass returns. */
  datatype Lists = Lists(
    recovered: seq<JobId>, skippedLive: seq<JobId>, skippedLiveChild: seq<JobId>, skippedActiveLease: seq<JobId>,
    skippedRecoveryClaim: seq<JobId>, orphanTerminationRequested: seq<JobId>, deferredRemote: seq<JobId>)
  {
    /** Every entry of every list. */
    function Entries(): multiset<JobId> {
      multiset(recovered) + multiset(skippedLive) + multiset(skippedLiveChild) + multiset(skippedActiveLease)
      + multiset(skippedRecoveryClaim) + multiset(orphanTerminationRequested) + multiset(deferredRemote)
    }

    function Of(f: Filing): seq<JobId> {
      match f
      case Recovered => recovered
      case SkippedLive => skippedLive
      case SkippedLiveChild => skippedLiveChild
      case SkippedActiveLease => skippedActiveLease
      case SkippedRecoveryClaim => skippedRecoveryClaim
      case OrphanTerminationRequested => orphanTerminationRequested
      case DeferredRemote => deferredRemote
    }

    function File(j: JobId, f: Filing): Lists {
      match f
      case Recovered => this.(recovered := recovered + [j])
      case SkippedLive => this.(skippedLive := skippedLive + [j])
      case SkippedLiveChild => this.(skippedLiveChild := skippedLiveChild + [j])
      case SkippedActiveLease => this.(skippedActiveLease := skippedActiveLease + [j])
      case SkippedRecoveryClaim => this.(skippedRecoveryClaim := skippedRecoveryClaim + [j])
      case OrphanTerminationRequested => this.(orphanTerminationRequested := orphanTerminationRequested + [j])
      case DeferredRemote => this.(deferredRemote := deferredRemote + [j])
    }
  }

  /** Filing a Run adds it to exactly one list. */
  lemma FiledOnce(l: Lists, j: JobId, f: Filing)
    ensures l.File(j, f).Entries() == l.Entries() + multiset{j}
  {
    var m := l.File(j, f);
    match f {
      case Recovered => assert multiset(m.recovered) == multiset(l.recovered) + multiset{j};
      case SkippedLive => assert multiset(m.skippedLive) == multiset(l.skippedLive) + multiset{j};
      case SkippedLiveChild => assert multiset(m.skippedLiveChild) == multiset(l.skippedLiveChild) + multiset{j};
      case SkippedActiveLease => assert multiset(m.skippedActiveLease) == multiset(l.skippedActiveLease) + multiset{j};
      case SkippedRecoveryClaim =>
        assert multiset(m.skippedRecoveryClaim) == multiset(l.skippedRecoveryClaim) + multiset{j};
      case OrphanTerminationRequested =>
        assert multiset(m.orphanTerminationRequested) == multiset(l.orphanTerminationRequested) + multiset{j};
      case DeferredRemote => assert multiset(m.deferredRemote) == multiset(l.deferredRemote) + multiset{j};
    }
  }

  lemma FiledThere(l: Lists, j: JobId, f: Filing, g: Filing)
    ensures l.File(j, f).Of(g) == if g == f then l.Of(g) + [j] else l.Of(g)
  {
  }

  const NO_LISTS := Lists([], [], [], [], [], [], [])

  // ---------------------------------------------------------------- what the pass looks at

  /** The RUNNING Runs not updated since `cutoff`. */
  function StaleAt(db: Db, cutoff: real): set<JobId> { set j | j in db.runs && StaleRunning(db, cutoff, j) }

  /** The RUNNING Attempts whose lease has lapsed. */
  function ExpiredAt(s: Sys): set<AttemptKey> { set k | k in s.db.attempts && ExpiredLease(s.db, s.now, k) }

  ghost predicate IsLast(db: Db, k: AttemptKey) {
    k in db.attempts && forall i :: i in db.attempts && i.job == k.job ==> i.no <= k.no
  }

  /** The execution of `a` belongs to a session other than `me`. */
  predicate Foreign(a: Attempt, me: Option<SessionId>) {
    a.owner.Some? && (me.None? || a.owner.value.at.session != me.value)
  }

  predicate Witnessed(db: Db, a: Attempt) { a.owner.Some? && a.owner.value.execution in db.witnesses }

  predicate IdentityMatches(c: Child, s: Sighting) { c.identity.None? || c.identity == s.identity }

  predicate PastDeadline(c: Child, now: real) { c.orphanDeadline.Some? && c.orphanDeadline.value <= now }

  predicate AskedToStop(c: Child, s: Sighting) { IdentityMatches(c, s) && c.group == Some(c.pid) && s.signalSent }

  /** The child is known gone, or has outlived its deadline and was not asked to stop. */
  predicate ChildSettled(a: Attempt, s: Sighting, now: real) {
    a.child.Some? ==>
      s.probe.Gone? || (s.probe.Alive? && PastDeadline(a.child.value, now) && !AskedToStop(a.child.value, s))
  }

  /** The child still runs and may. */
  predicate ChildAlive(a: Attempt, s: Sighting) { a.child.Some? && s.probe.Alive? }

  /**
   * What one pass works from: the stale Runs as it listed them, with the Attempts of each as they were in state `read`
   * of the run, all read by state `from`; and what it knows of its own process, `pass` being its name.
   */
  datatype View = View(
    seen: Db, expired: set<AttemptKey>, from: nat, read: map<JobId, nat>,
    live: set<JobId>, sightings: map<JobId, Sighting>, me: Option<SessionId>, mine: set<Token>, pass: Token)
  {
    /** A Run whose child was not observed counts as having none. */
    function Sight(j: JobId): Sighting { if j in sightings then sightings[j] else Sighting(Gone, None, false) }
  }

  /**
   * A call under one of the pass's tokens that was refused: a claim that was not allowed, or a closing without a claim.
   */
  ghost predicate RefusedAt(b: Behavior, i: nat, k: AttemptKey, mine: set<Token>)
    requires |b.states| == |b.steps| + 1
  {
    && i < |b.steps|
    && ((exists token :: token in mine && Claims(b.steps[i], k, token) && !ClaimAllowed(b.states[i], k))
        || (exists token :: token in mine && Abandons(b.steps[i], k, token) && !HoldsClaim(b.states[i].db, k, token)))
  }

  /** Why a Run with last Attempt `k` is in the list it is in, as of state `i`. */
  ghost predicate FiledByAttempt(f: Filing, k: AttemptKey, v: View, b: Behavior, i: nat)
    requires |b.states| == |b.steps| + 1 && k in v.seen.attempts
  {
    var a, s := v.seen.attempts[k], v.Sight(k.job);
    && v.from <= i < |b.states|
    && if f.DeferredRemote? then Foreign(a, v.me) && !Witnessed(b.states[i].db, a)
       else if a.leaseToken.Some? && k !in v.expired then f.SkippedActiveLease?
       else
         match f
         case SkippedActiveLease => false
         case SkippedLive => false
         case SkippedLiveChild => ChildAlive(a, s) && !PastDeadline(a.child.value, b.states[i].now)
         case OrphanTerminationRequested =>
           ChildAlive(a, s) && PastDeadline(a.child.value, b.states[i].now) && AskedToStop(a.child.value, s)
         case Recovered => ChildSettled(a, s, b.states[i].now)
         case SkippedRecoveryClaim => RefusedAt(b, i, k, v.mine)
  }

  /** Why a Run is in the list it is in. */
  ghost predicate FiledRightly(f: Filing, j: JobId, v: View, b: Behavior)
    requires |b.states| == |b.steps| + 1
  {
    if j in v.live || f.SkippedLive? then j in v.live && f.SkippedLive?
    else if NoAttempts(v.seen, j) then f.Recovered?
    else exists k: AttemptKey, i :: k.job == j && IsLast(v.seen, k) && FiledByAttempt(f, k, v, b, i)
  }

  lemma FiledByLast(f: Filing, k: AttemptKey, v: View, b: Behavior, i: nat)
    requires |b.states| == |b.steps| + 1 && IsLast(v.seen, k) && FiledByAttempt(f, k, v, b, i)
    requires k.job !in v.live && !f.SkippedLive?
    ensures FiledRightly(f, k.job, v, b)
  {
  }

  lemma FiledStays(f: Filing, j: JobId, v: View, b: Behavior, c: Behavior)
    requires |b.states| == |b.steps| + 1 && |c.states| == |c.steps| + 1 && Continues(b, c)
    requires FiledRightly(f, j, v, b)
    ensures FiledRightly(f, j, v, c)
  {
    if j !in v.live && !f.SkippedLive? && !NoAttempts(v.seen, j) {
      var k: AttemptKey, i :| k.job == j && IsLast(v.seen, k) && FiledByAttempt(f, k, v, b, i);
      assert FiledByAttempt(f, k, v, c, i);
    }
  }

  /** The error an Attempt is abandoned with. */
  predicate Reason(failure: ErrorType, db: Db, a: Attempt, s: Sighting) {
    failure == if ChildAlive(a, s) then ErrorOrphanIdentity
               else if Witnessed(db, a) then ErrorSupervisorTerminated else ErrorWorkerUnavailable
  }

  /** Every Run is in a list it belongs in. */
  ghost predicate AllFiledRightly(l: Lists, v: View, b: Behavior)
    requires |b.states| == |b.steps| + 1
  {
    forall f: Filing, i :: i in l.Of(f) ==> FiledRightly(f, i, v, b)
  }

  lemma AllFiledStay(l: Lists, v: View, b: Behavior, c: Behavior)
    requires |b.states| == |b.steps| + 1 && |c.states| == |c.steps| + 1 && Continues(b, c) && AllFiledRightly(l, v, b)
    ensures AllFiledRightly(l, v, c)
  {
    forall f: Filing, i | i in l.Of(f) ensures FiledRightly(f, i, v, c) { FiledStays(f, i, v, b, c); }
  }

  lemma OneMoreFiledRightly(l: Lists, j: JobId, f: Filing, v: View, b: Behavior)
    requires |b.states| == |b.steps| + 1 && AllFiledRightly(l, v, b) && FiledRightly(f, j, v, b)
    ensures AllFiledRightly(l.File(j, f), v, b)
  {
    forall g: Filing, i | i in l.File(j, f).Of(g) ensures FiledRightly(g, i, v, b) { FiledThere(l, j, f, g); }
  }

  // ---------------------------------------------------------------- when a pass is cut short

  /**
   * The pass would claim the Attempt and then fail to probe its child: last of its Run, RUNNING, lease lapsed, no live
   * claim, no unwitnessed foreign owner, no live local future, and `os.kill` raises PermissionError for its child.
   */
  ghost predicate Blocks(db: Db, k: AttemptKey, now: real, v: View) {
    && k.job !in v.live && IsLast(db, k) && Claimable(db, k, now)
    && (Foreign(db.attempts[k], v.me) ==> Witnessed(db, db.attempts[k]))
    && db.attempts[k].child.Some? && v.Sight(k.job).probe.Denied?
  }

  /** Some stale Run has such an Attempt. */
  ghost predicate Blocked(db: Db, stale: set<JobId>, now: real, v: View) {
    exists k: AttemptKey :: k.job in stale && Blocks(db, k, now, v)
  }

  /** Between the two instants no lease and no recovery claim lapses. */
  ghost predicate NothingLapses(db: Db, now: real, later: real) {
    forall k {:trigger db.attempts[k]} :: k in db.attempts ==>
      && (LeaseLapsed(db.attempts[k], later) ==> LeaseLapsed(db.attempts[k], now))
      && (Unclaimed(db.attempts[k], later) ==> Unclaimed(db.attempts[k], now))
  }

  lemma BlocksEarlier(db: Db, stale: set<JobId>, now: real, later: real, v: View)
    requires NothingLapses(db, now, later) && Blocked(db, stale, later, v)
    ensures Blocked(db, stale, now, v)
  {
    var k: AttemptKey :| k.job in stale && Blocks(db, k, later, v);
    assert Blocks(db, k, now, v);
  }

  // ---------------------------------------------------------------- what the pass promises

  /** Attempt ABANDONED, Run FAILED and no delivery of it active, together. */
  ghost predicate ClosedTogether(db: Db, k: AttemptKey) {
    && k in db.attempts && db.attempts[k].status.AttemptAbandoned?
    && k.job in db.runs && db.runs[k.job].status.RunFailed?
    && forall e :: e in db.requests && db.requests[e].key == k ==> !db.requests[e].status.Active()
  }

  /** The Attempt row says why it was abandoned, and that it takes a recovery to go on. */
  ghost predicate RuledAbandoned(db: Db, k: AttemptKey, failure: ErrorType) {
    k in db.attempts && RulingOf(db.attempts[k]) == Ruling(AttemptAbandoned, Some(failure), RecoveryRequired)
  }

  /**
   * No live local future, last Attempt RUNNING under a lapsed lease, no live claim, child settled, no unwitnessed
   * foreign owner.
   */
  ghost predicate Closable(db: Db, k: AttemptKey, now: real, v: View) {
    && RunOpen(db, k.job) && k.job !in v.live && IsLast(db, k) && Claimable(db, k, now)
    && db.attempts[k].leaseToken.Some? && ChildSettled(db.attempts[k], v.Sight(k.job), now)
    && (Foreign(db.attempts[k], v.me) ==> Witnessed(db, db.attempts[k]))
  }

  /** Where in the run a pass claimed, judged and closed an Attempt. */
  datatype Evidence = Evidence(k: AttemptKey, token: Token, claim: nat, judged: nat, close: nat)

  ghost predicate Claims(step: Step, k: AttemptKey, token: Token) {
    step.Bystander? && step.op.OpClaimRecovery? && step.op.k == k && step.op.token == token
  }

  ghost predicate Abandons(step: Step, k: AttemptKey, token: Token) {
    step.Bystander? && step.op.OpFinalizeRecovery? && step.op.k == k && step.op.token == token
  }

  predicate Claimable(db: Db, k: AttemptKey, now: real) {
    IsRunning(db, k) && LeaseLapsed(db.attempts[k], now) && Unclaimed(db.attempts[k], now)
  }

  predicate ClaimAllowed(s: Sys, k: AttemptKey) { Claimable(s.db, k, s.now) }

  /** The Attempt was judged at `judged` and closed, with its Run and deliveries, by the step at `close`. */
  ghost predicate ClosedBy(b: Behavior, k: AttemptKey, a: Attempt, token: Token, s: Sighting, judged: nat, close: nat)
    requires |b.states| == |b.steps| + 1
  {
    && judged <= close < |b.steps|
    && ChildSettled(a, s, b.states[judged].now)
    && Abandons(b.steps[close], k, token) && Reason(b.steps[close].op.failure, b.states[judged].db, a, s)
    && HoldsClaim(b.states[close].db, k, token) && ClosedTogether(b.states[close + 1].db, k)
    && RuledAbandoned(b.states[close + 1].db, k, b.steps[close].op.failure)
  }

  /**
   * The Attempt was the Run's last when it was read; at the claim its lease had lapsed, nobody else held a live claim,
   * and the execution read in it, if foreign, had its witness; the child read in it was settled when judged; and it was
   * closed under that very claim, with the error that tells which of these it was. `RowEvidence.dfy` says when the same
   * is true of the owner and the child the row has by then.
   */
  ghost predicate Justifies(e: Evidence, b: Behavior, v: View)
    requires |b.states| == |b.steps| + 1
  {
    && v.from <= e.claim < e.judged && e.claim < |b.steps|
    && IsLast(v.seen, e.k)
    && Claims(b.steps[e.claim], e.k, e.token)
    && ClaimAllowed(b.states[e.claim], e.k)
    && (Foreign(v.seen.attempts[e.k], v.me) ==> Witnessed(b.states[e.claim].db, v.seen.attempts[e.k]))
    && ClosedBy(b, e.k, v.seen.attempts[e.k], e.token, v.Sight(e.k.job), e.judged, e.close)
  }

  lemma JustifiedStays(e: Evidence, b: Behavior, c: Behavior, v: View)
    requires |b.states| == |b.steps| + 1 && |c.states| == |c.steps| + 1 && Continues(b, c)
    requires Justifies(e, b, v)
    ensures Justifies(e, c, v)
  {
  }

  /** Step `n` is the pass's write that fails the Run it read without Attempts; nothing else of the row changes. */
  ghost predicate FailedAt(b: Behavior, n: nat, j: JobId, pass: Token)
    requires |b.states| == |b.steps| + 1
  {
    && n < |b.steps| && b.steps[n] == FailEmpty(j, pass)
    && j in b.states[n].db.runs && j in b.states[n + 1].db.runs
    && var r := b.states[n].db.runs[j];
       b.states[n + 1].db.runs[j] == Run(RunFailed, r.spec, r.verdict, b.states[n].now)
  }

  /** The pass has failed the Run, after reading it. */
  ghost predicate FailedEmpty(b: Behavior, v: View, j: JobId)
    requires |b.states| == |b.steps| + 1
  {
    exists n: nat :: v.from <= n && FailedAt(b, n, j, v.pass)
  }

  lemma FailedEmptyStays(b: Behavior, c: Behavior, v: View, j: JobId)
    requires |b.states| == |b.steps| + 1 && |c.states| == |c.steps| + 1 && Continues(b, c) && FailedEmpty(b, v, j)
    ensures FailedEmpty(c, v, j)
  {
    var n: nat :| v.from <= n && FailedAt(b, n, j, v.pass);
    assert FailedAt(c, n, j, v.pass);
  }

  /** A stale Run without Attempts and without a live local future. */
  ghost predicate Empty(v: View, j: JobId) { RunOpen(v.seen, j) && NoAttempts(v.seen, j) && j !in v.live }

  /** The Run is FAILED since `since`, and otherwise as it was seen. */
  ghost predicate FailedSince(seen: Db, db: Db, j: JobId, since: real) {
    && j in seen.runs && j in db.runs && since <= db.runs[j].updatedAt
    && db.runs[j] == seen.runs[j].(status := RunFailed, updatedAt := db.runs[j].updatedAt)
  }

  // ---------------------------------------------------------------- claims under the pass's tokens

  /** No RUNNING Attempt holds a claim under one of the tokens. */
  ghost predicate Clear(db: Db, tokens: set<Token>) {
    !exists i, x :: x in tokens && HoldsClaim(db, i, x)
  }

  /** At most `k` holds a claim under one of the tokens, and then under `token`. */
  ghost predicate OnlyAt(db: Db, tokens: set<Token>, k: AttemptKey, token: Token) {
    forall i, x :: x in tokens && HoldsClaim(db, i, x) ==> i == k && x == token
  }

  /** A claim under one of the tokens can only be on an Attempt of `j`. */
  ghost predicate OnlyJob(db: Db, tokens: set<Token>, j: JobId) {
    forall i, x :: x in tokens && HoldsClaim(db, i, x) ==> i.job == j
  }

  /** The aborted pass leaves one claim: on an Attempt of `j`. */
  ghost predicate LeftClaimed(db: Db, j: JobId, tokens: set<Token>) {
    OnlyJob(db, tokens, j) && exists k: AttemptKey, x :: k.job == j && x in tokens && HoldsClaim(db, k, x)
  }

  lemma ClaimMarksOne(db: Db, now: real, k: AttemptKey, token: Token, ttl: real, tokens: set<Token>)
    requires Clear(db, tokens)
    ensures var r := ClaimRecovery(db, now, k, token, ttl);
            OnlyAt(r.db, tokens, k, token) && (r.ok ==> HoldsClaim(r.db, k, token)) && (!r.ok ==> Clear(r.db, tokens))
  {
    var r := ClaimRecovery(db, now, k, token, ttl);
    forall i, x | x in tokens && HoldsClaim(r.db, i, x) ensures i == k && x == token && r.ok {
      assert !HoldsClaim(db, i, x);
    }
  }

  lemma ReleaseClears(db: Db, k: AttemptKey, token: Token, tokens: set<Token>)
    requires OnlyAt(db, tokens, k, token)
    ensures Clear(ReleaseRecovery(db, k, token).db, tokens)
  {
    var db' := ReleaseRecovery(db, k, token).db;
    forall i, x | x in tokens ensures !HoldsClaim(db', i, x) {
      assert HoldsClaim(db, i, x) ==> i == k && x == token;
    }
  }

  /** In a reachable state the Run of a claimed Attempt is open, so a recovery never stops half-way. */
  lemma FinishClears(cfg: Config, s: Sys, k: AttemptKey, token: Token, error: ErrorType, tokens: set<Token>)
    requires CoreInv(cfg, s) && OnlyAt(s.db, tokens, k, token)
    ensures var r := FinalizeRecovery(cfg.kind, s.db, s.now, k, token, error);
            && Clear(r.db, tokens)
            && (r.ok <==> HoldsClaim(s.db, k, token))
            && (r.ok ==> ClosedTogether(r.db, k) && RuledAbandoned(r.db, k, error))
  {
    var r := FinalizeRecovery(cfg.kind, s.db, s.now, k, token, error);
    if IsRunning(s.db, k) { CompletionFindsRunOpen(cfg, s, k); }
    forall i, x | x in tokens ensures !HoldsClaim(r.db, i, x) {
      assert HoldsClaim(s.db, i, x) ==> i == k && x == token;
    }
  }

  // ---------------------------------------------------------------- what one Run's reconciliation leaves alone

  predicate RequestOf(db: Db, e: ExecutionId, j: JobId) { e in db.requests && db.requests[e].key.job == j }

  /** The rows that belong to one Run are the same. */
  ghost predicate SameRun(db: Db, db': Db, j: JobId) {
    && (j in db.runs <==> j in db'.runs) && (j in db.runs ==> db'.runs[j] == db.runs[j])
    && (forall k: AttemptKey :: k.job == j ==>
          (k in db.attempts <==> k in db'.attempts) && (k in db.attempts ==> db'.attempts[k] == db.attempts[k]))
    && (forall e :: RequestOf(db, e, j) || RequestOf(db', e, j) ==>
          e in db.requests && e in db'.requests && db'.requests[e] == db.requests[e])
  }

  /** Only the rows of `j` differ, witnesses included among what is the same, and `j` did not become SUCCEEDED. */
  ghost predicate Spares(db: Db, db': Db, j: JobId) {
    && db'.witnesses == db.witnesses
    && (forall i :: i != j ==> SameRun(db, db', i))
    && (j in db'.runs && db'.runs[j].status.RunSucceeded? ==> j in db.runs && db.runs[j].status.RunSucceeded?)
  }

  lemma SparesTransitive(a: Db, b: Db, c: Db, j: JobId)
    requires Spares(a, b, j) && Spares(b, c, j)
    ensures Spares(a, c, j)
  {
    forall i | i != j ensures SameRun(a, c, i) {
      assert SameRun(a, b, i) && SameRun(b, c, i);
    }
  }

  predicate ReconcilerOp(op: Op) { op.OpClaimRecovery? || op.OpReleaseRecovery? || op.OpFinalizeRecovery? }

  lemma AttemptWriteSpares(db: Db, k: AttemptKey, a: Attempt)
    ensures Spares(db, SetAttempt(db, k, a), k.job) && Spares(db, db, k.job)
  {
  }

  lemma ClaimOrReleaseSpares(db: Db, now: real, k: AttemptKey, token: Token, ttl: real)
    ensures Spares(db, ClaimRecovery(db, now, k, token, ttl).db, k.job)
    ensures Spares(db, ReleaseRecovery(db, k, token).db, k.job)
  {
    if k in db.attempts {
      AttemptWriteSpares(db, k, db.attempts[k].(recovery := Some(Claim(token, now + ttl))));
      AttemptWriteSpares(db, k, db.attempts[k].(recovery := None));
    }
  }

  lemma FinishSpares(kind: StoreKind, db: Db, now: real, k: AttemptKey, token: Token, error: ErrorType)
    ensures Spares(db, FinalizeRecovery(kind, db, now, k, token, error).db, k.job)
  {
  }

  lemma ReconcilerOpSpares(kind: StoreKind, db: Db, now: real, op: Op)
    requires ReconcilerOp(op)
    ensures Spares(db, Apply(kind, db, now, op).db, op.k.job)
  {
    match op {
      case OpClaimRecovery(k, token, ttl) => ClaimOrReleaseSpares(db, now, k, token, ttl);
      case OpReleaseRecovery(k, token) => ClaimOrReleaseSpares(db, now, k, token, 0.0);
      case OpFinalizeRecovery(k, token, error) => FinishSpares(kind, db, now, k, token, error);
    }
  }

  lemma WriteOffSpares(db: Db, now: real, j: JobId)
    ensures Spares(db, UpdateRun(db, now, j, RunFailed, None), j)
    ensures j in db.runs ==> FailedSince(db, UpdateRun(db, now, j, RunFailed, None), j, now)
  {
  }

  /** Whatever the rows and whoever holds which token: no call of a reconciler ever makes a Run SUCCEEDED. */
  lemma NeverProducesSuccess(cfg: Config, s: Sys, step: Step, j: JobId)
    requires Enabled(cfg, s, step)
    requires step.SeeEmpty? || step.FailEmpty? || (step.Bystander? && ReconcilerOp(step.op))
    requires var s' := Next(cfg, s, step); j in s'.db.runs && s'.db.runs[j].status.RunSucceeded?
    ensures j in s.db.runs && s.db.runs[j] == Next(cfg, s, step).db.runs[j]
  {
    if step.Bystander? { ReconcilerOpSpares(cfg.kind, s.db, s.now, step.op); }
  }

  // ---------------------------------------------------------------- how far a pass has come

  /** The Run is filed where it belongs, and as recovered only without Attempts or on evidence. */
  ghost predicate Reconciled(b: Behavior, j: JobId, v: View, filed: Filing, found: Option<Evidence>)
    requires |b.states| == |b.steps| + 1
  {
    && FiledRightly(filed, j, v, b)
    && (filed.Recovered? ==> (NoAttempts(v.seen, j) && FailedEmpty(b, v, j)) || found.Some?)
    && (filed.Recovered? && found.Some? ==>
          found.value.k.job == j && Justifies(found.value, b, v))
  }

  /** The rows still show of the Run what the snapshot shows. */
  ghost predicate Faithful(seen: Db, db: Db, j: JobId) { SameRun(seen, db, j) && seen.witnesses == db.witnesses }

  /** The Attempt is unleased, or its lease is in the list of expired ones. */
  predicate Listed(k: AttemptKey, v: View) {
    k in v.seen.attempts && (v.seen.attempts[k].leaseToken.Some? ==> k in v.expired)
  }

  /** What an undisturbed look at the Attempt `k`, from `now` on and ending in `s`, comes to. */
  ghost predicate ConvergesAt(k: AttemptKey, v: View, now: real, s: Sys, filed: Option<Filing>) {
    && (Listed(k, v) && Closable(v.seen, k, now, v) ==> filed == Some(Recovered) && ClosedTogether(s.db, k))
    && (Listed(k, v) && Blocks(v.seen, k, now, v) ==> filed.None?)
    && (filed.None? ==> Blocks(v.seen, k, s.now, v))
  }

  /** What an undisturbed look at `j`, from `now` on and ending in `s`, comes to. */
  ghost predicate Converges(j: JobId, v: View, now: real, s: Sys, filed: Option<Filing>) {
    && (forall k: AttemptKey :: k.job == j && Listed(k, v) ==>
          && (Closable(v.seen, k, now, v) ==> filed == Some(Recovered) && ClosedTogether(s.db, k))
          && (Blocks(v.seen, k, now, v) ==> filed.None?))
    && (Empty(v, j) ==> filed == Some(Recovered) && FailedSince(v.seen, s.db, j, now))
    && (filed.None? ==> exists k: AttemptKey :: k.job == j && Blocks(v.seen, k, s.now, v))
  }

  /** What is neither closable nor blocks an undisturbed look may leave as it is. */
  lemma LeavesAlone(k: AttemptKey, v: View, now: real, s: Sys, filed: Filing)
    requires Listed(k, v) ==> Foreign(v.seen.attempts[k], v.me) && !Witnessed(v.seen, v.seen.attempts[k])
    ensures ConvergesAt(k, v, now, s, Some(filed))
  {
  }

  /** A claim tried while the rows still show the Attempt as it was seen. */
  lemma ClaimDecides(k: AttemptKey, v: View, s: Sys, s': Sys, filed: Option<Filing>)
    requires Faithful(v.seen, s.db, k.job) && IsLast(v.seen, k) && Listed(k, v) && k.job !in v.live && s.now <= s'.now
    requires var a := v.seen.attempts[k];
             && (Foreign(a, v.me) ==> Witnessed(s.db, a))
             && (filed == Some(Recovered) ==> ClosedTogether(s'.db, k))
             && (filed.None? ==> a.child.Some? && v.Sight(k.job).probe.Denied? && Claimable(s.db, k, s'.now))
             && (ClaimAllowed(s, k) && a.child.Some? && v.Sight(k.job).probe.Denied? ==> filed.None?)
             && (ClaimAllowed(s, k) && ChildSettled(a, v.Sight(k.job), s.now) ==> filed == Some(Recovered))
    ensures ConvergesAt(k, v, s.now, s', filed)
  {
    assert SameRun(v.seen, s.db, k.job);
  }

  /** An empty Run has been failed. */
  lemma EmptyConverges(j: JobId, v: View, s: Sys, s': Sys)
    requires Faithful(v.seen, s.db, j) && NoAttempts(v.seen, j) && FailedSince(s.db, s'.db, j, s.now)
    ensures Converges(j, v, s.now, s', Some(Recovered))
  {
    assert forall k: AttemptKey :: k.job == j ==> k !in v.seen.attempts;
  }

  /** Only the last Attempt of a Run is closable or blocks. */
  lemma LastDecides(k: AttemptKey, v: View, now: real, s: Sys, filed: Option<Filing>)
    requires IsLast(v.seen, k) && ConvergesAt(k, v, now, s, filed)
    ensures Converges(k.job, v, now, s, filed)
  {
    assert forall i: AttemptKey :: i.job == k.job && IsLast(v.seen, i) ==> i == k;
  }

  /**
   * Every closable Attempt of the Runs in `done` has been closed and its Run filed as recovered, every empty Run has
   * been failed and filed so; none of them blocks.
   */
  ghost predicate Converged(v: View, db: Db, since: real, done: set<JobId>, recovered: seq<JobId>) {
    && (forall k: AttemptKey :: k.job in done && Closable(v.seen, k, since, v) ==>
          k.job in recovered && ClosedTogether(db, k))
    && (forall j :: j in done && Empty(v, j) ==> j in recovered && FailedSince(v.seen, db, j, since))
    && !Blocked(v.seen, done, since, v)
  }

  /** What was closable, or blocked, when the pass began is so later, and its lease is among the expired ones. */
  lemma RipeNow(v: View, since: real, now: real, j: JobId)
    requires since <= now && Covers(v.expired, v.seen, since)
    ensures forall k: AttemptKey :: k.job == j && Closable(v.seen, k, since, v) ==>
      Listed(k, v) && Closable(v.seen, k, now, v)
    ensures forall k: AttemptKey :: k.job == j && Blocks(v.seen, k, since, v) ==>
      Listed(k, v) && Blocks(v.seen, k, now, v)
  {
  }

  lemma StillConverged(v: View, db: Db, s': Sys, since: real, now: real, done: set<JobId>, j: JobId,
                       recovered: seq<JobId>, recovered': seq<JobId>, filed: Filing)
    requires Converged(v, db, since, done, recovered) && Spares(db, s'.db, j) && j !in done
    requires since <= now && Covers(v.expired, v.seen, since) && Converges(j, v, now, s', Some(filed))
    requires recovered <= recovered' && (filed.Recovered? ==> j in recovered')
    ensures Converged(v, s'.db, since, done + {j}, recovered')
  {
    RipeNow(v, since, now, j);
    forall k: AttemptKey | k.job in done + {j} && Closable(v.seen, k, since, v)
      ensures k.job in recovered' && ClosedTogether(s'.db, k)
    {
      if k.job != j { assert ClosedTogether(db, k) && SameRun(db, s'.db, k.job); }
    }
    forall i | i in done + {j} && Empty(v, i) ensures i in recovered' && FailedSince(v.seen, s'.db, i, since) {
      if i != j { assert SameRun(db, s'.db, i); }
    }
  }

  /** The rows of the Runs in `rest` are as they were, and no Run has become SUCCEEDED. */
  ghost predicate Untouched(seen: Db, db: Db, rest: set<JobId>) {
    && db.witnesses == seen.witnesses
    && (forall j :: j in rest ==> SameRun(seen, db, j))
    && (forall j :: Succeeded(db, j) ==> Succeeded(seen, j))
  }

  predicate Succeeded(db: Db, j: JobId) { j in db.runs && db.runs[j].status.RunSucceeded? }

  lemma StillUntouched(seen: Db, db: Db, db': Db, rest: set<JobId>, j: JobId)
    requires Untouched(seen, db, rest) && Spares(db, db', j)
    ensures Untouched(seen, db', rest - {j})
  {
    forall i | Succeeded(db', i) ensures Succeeded(seen, i) {
      assert i != j ==> SameRun(db, db', i);
      assert Succeeded(db, i);
    }
    forall i | i in rest - {j} ensures SameRun(seen, db', i) {
      assert SameRun(seen, db, i) && SameRun(db, db', i);
    }
  }

  /** Every recovered Run either was read without Attempts and failed by the pass, or was closed with justification. */
  ghost predicate AllJustified(b: Behavior, v: View, recovered: seq<JobId>, evidence: map<JobId, Evidence>)
    requires |b.states| == |b.steps| + 1
  {
    forall j :: j in recovered ==>
      || (NoAttempts(v.seen, j) && FailedEmpty(b, v, j))
      || (j in evidence && evidence[j].k.job == j && Justifies(evidence[j], b, v))
  }

  lemma AllStillJustified(b: Behavior, c: Behavior, v: View, recovered: seq<JobId>, evidence: map<JobId, Evidence>)
    requires |b.states| == |b.steps| + 1 && |c.states| == |c.steps| + 1 && Continues(b, c)
    requires AllJustified(b, v, recovered, evidence)
    ensures AllJustified(c, v, recovered, evidence)
  {
    forall i | i in recovered && i in evidence && Justifies(evidence[i], b, v)
      ensures Justifies(evidence[i], c, v)
    {
      JustifiedStays(evidence[i], b, c, v);
    }
    forall i | i in recovered && FailedEmpty(b, v, i) ensures FailedEmpty(c, v, i) { FailedEmptyStays(b, c, v, i); }
  }

  /** Of the pass's own process, exactly the Runs in `rest` that this pass fails unless it is cut short are listed. */
  ghost predicate OnLists(s: Sys, v: View, rest: set<JobId>) {
    forall r: Reading :: r.pass in v.mine ==>
      && r !in s.listed
      && (r in s.doomed <==> r.pass == v.pass && r.job in rest && r.job !in v.live && NoAttempts(v.seen, r.job))
  }

  /** Nothing is on the lists of the pass's own process. */
  ghost predicate NoneListed(s: Sys, mine: set<Token>) {
    forall r: Reading :: r.pass in mine ==> r !in s.listed && r !in s.doomed
  }

  /** The lists of the pass's own process are as they were. */
  ghost predicate SameOwnLists(s: Sys, s': Sys, mine: set<Token>) {
    forall r: Reading :: r.pass in mine ==> (r in s.listed <==> r in s'.listed) && (r in s.doomed <==> r in s'.doomed)
  }

  /** Where the pass stands when the Runs in `rest` are still to be looked at; `alone` if nobody disturbs it. */
  ghost predicate Midway(b: Behavior, v: View, alone: bool, since: real, stale: set<JobId>, rest: set<JobId>,
                         lists: Lists,
                         evidence: map<JobId, Evidence>)
    requires |b.states| == |b.steps| + 1
  {
    && rest <= stale && lists.Entries() == multiset(stale - rest) && v.from <= |b.steps|
    && since <= Last(b).now && Clear(Last(b).db, v.mine)
    && OnLists(Last(b), v, rest)
    && AllFiledRightly(lists, v, b) && AllJustified(b, v, lists.recovered, evidence)
    && (alone ==>
          && Covers(v.expired, v.seen, since) && Untouched(v.seen, Last(b).db, rest)
          && Converged(v, Last(b).db, since, stale - rest, lists.recovered))
  }

  /** A pass that has read its Runs and filed none. */
  lemma StartsMidway(b: Behavior, v: View, alone: bool, since: real, stale: set<JobId>)
    requires |b.states| == |b.steps| + 1 && v.from <= |b.steps| && since <= Last(b).now
    requires Clear(Last(b).db, v.mine) && OnLists(Last(b), v, stale)
    requires alone ==> Covers(v.expired, v.seen, since) && v.seen == Last(b).db
    ensures Midway(b, v, alone, since, stale, stale, NO_LISTS, map[])
  {
    assert stale - stale == {};
  }

  /** The leases that had lapsed when the pass began are among the expired ones. */
  ghost predicate Covers(expired: set<AttemptKey>, seen: Db, since: real) {
    forall k :: k in seen.attempts && ExpiredLease(seen, since, k) ==> k in expired
  }

  lemma OneMoreJustified(b: Behavior, v: View, recovered: seq<JobId>, evidence: map<JobId, Evidence>, j: JobId,
                         filed: Filing,
                         found: Option<Evidence>)
    returns (evidence': map<JobId, Evidence>)
    requires |b.states| == |b.steps| + 1 && AllJustified(b, v, recovered, evidence) && Reconciled(b, j, v, filed, found)
    ensures AllJustified(b, v, if filed.Recovered? then recovered + [j] else recovered, evidence')
  {
    evidence' := if filed.Recovered? && found.Some? then evidence[j := found.value] else evidence;
  }

  /** One more Run reconciled: the pass stands one Run further. */
  lemma StillMidway(b: Behavior, b': Behavior, v: View, alone: bool, since: real, stale: set<JobId>, rest: set<JobId>,
                    lists: Lists, evidence: map<JobId, Evidence>, j: JobId, filed: Filing, found: Option<Evidence>)
    returns (evidence': map<JobId, Evidence>)
    requires |b.states| == |b.steps| + 1 && |b'.states| == |b'.steps| + 1 && Goes(b, b')
    requires OnLists(Last(b'), v, rest - {j})
    requires Midway(b, v, alone, since, stale, rest, lists, evidence) && j in rest
    requires Clear(Last(b').db, v.mine) && Reconciled(b', j, v, filed, found)
    requires alone ==> Spares(Last(b).db, Last(b').db, j) && Converges(j, v, Last(b).now, Last(b'), Some(filed))
    ensures Midway(b', v, alone, since, stale, rest - {j}, lists.File(j, filed), evidence')
  {
    var next := lists.File(j, filed);
    FiledOnce(lists, j, filed);
    FiledThere(lists, j, filed, Recovered);
    AllFiledStay(lists, v, b, b');
    OneMoreFiledRightly(lists, j, filed, v, b');
    AllStillJustified(b, b', v, lists.recovered, evidence);
    evidence' := OneMoreJustified(b', v, lists.recovered, evidence, j, filed, found);
    assert stale - rest + {j} == stale - (rest - {j});
    if alone {
      StillUntouched(v.seen, Last(b).db, Last(b').db, rest, j);
      StillConverged(v, Last(b).db, Last(b'), since, Last(b).now, stale - rest, j,
                     lists.recovered, next.recovered, filed);
    }
  }

  /** What still holds when the probe of `j` raised. */
  ghost predicate CutShort(b: Behavior, v: View, alone: bool, j: JobId, lists: Lists, evidence: map<JobId, Evidence>)
    requires |b.states| == |b.steps| + 1
  {
    && LeftClaimed(Last(b).db, j, v.mine) && v.Sight(j).probe.Denied?
    && AllFiledRightly(lists, v, b) && AllJustified(b, v, lists.recovered, evidence)
    && (alone ==> Untouched(v.seen, Last(b).db, {}) && Blocked(v.seen, {j}, Last(b).now, v))
  }

  lemma CutShortStays(b: Behavior, c: Behavior, v: View, alone: bool, j: JobId, lists: Lists,
                      evidence: map<JobId, Evidence>)
    requires |b.states| == |b.steps| + 1 && |c.states| == |c.steps| + 1 && Continues(b, c)
    requires Last(c).db == Last(b).db && Last(c).now == Last(b).now && CutShort(b, v, alone, j, lists, evidence)
    ensures CutShort(c, v, alone, j, lists, evidence)
  {
    AllFiledStay(lists, v, b, c);
    AllStillJustified(b, c, v, lists.recovered, evidence);
  }

  // ---------------------------------------------------------------- reading Run by run

  /** The Attempts of `j` are the same. */
  ghost predicate SameAttempts(db: Db, db': Db, j: JobId) {
    forall k: AttemptKey :: k.job == j ==>
      (k in db.attempts <==> k in db'.attempts) && (k in db.attempts ==> db'.attempts[k] == db.attempts[k])
  }

  /** The Attempts of `j` as they are now, everything else as it was seen. */
  function Reread(seen: Db, db: Db, j: JobId): Db {
    seen.(attempts := map k | k in seen.attempts.Keys + db.attempts.Keys
                            && (if k.job == j then k in db.attempts else k in seen.attempts) ::
                        if k.job == j then db.attempts[k] else seen.attempts[k])
  }

  lemma RereadReads(seen: Db, db: Db, j: JobId)
    ensures SameAttempts(db, Reread(seen, db, j), j)
    ensures forall i :: i != j ==> SameAttempts(seen, Reread(seen, db, j), i)
    ensures seen.attempts == db.attempts ==> Reread(seen, db, j) == seen
  {
  }

  /** The Attempts in `seen` of each Run in `looked` are those of the state in which they were read. */
  ghost predicate ReadAt(b: Behavior, seen: Db, read: map<JobId, nat>, since: nat, looked: set<JobId>)
    requires |b.states| == |b.steps| + 1
  {
    forall j :: j in looked ==>
      j in read && since <= read[j] <= |b.steps| && SameAttempts(b.states[read[j]].db, seen, j)
  }

  /** A Run without Attempts that H forbids to fail. */
  predicate OutsideHypothesis(s: Sys, j: JobId) { NoAttempts(s.db, j) && !CannotStart(s, j) }

  /** The Runs of `looked` that H forbids to fail, as they were when they were read. */
  ghost predicate OutsideH(b: Behavior, read: map<JobId, nat>, live: set<JobId>, looked: set<JobId>,
                           outside: set<JobId>)
    requires |b.states| == |b.steps| + 1
  {
    forall j :: j in outside <==>
      j in looked && j !in live && j in read && read[j] < |b.states| && OutsideHypothesis(b.states[read[j]], j)
  }

  /** What is on the lists of the process while the Runs of `rest` are still to be read, and those of `looked` are. */
  ghost predicate BeingRead(s: Sys, mine: set<Token>, pass: Token, live: set<JobId>, seen: Db, rest: set<JobId>,
                           looked: set<JobId>)
  {
    forall r: Reading :: r.pass in mine ==>
      && (r in s.listed <==> r.pass == pass && r.job in rest && r.job !in live)
      && (r in s.doomed <==> r.pass == pass && r.job in looked && r.job !in live && NoAttempts(seen, r.job))
  }

  lemma EmptyKept(seen: Db, seen': Db, j: JobId)
    requires SameAttempts(seen, seen', j)
    ensures NoAttempts(seen', j) <==> NoAttempts(seen, j)
  {
    assert forall k :: k in seen.attempts && k.job == j ==> k in seen'.attempts;
    assert forall k :: k in seen'.attempts && k.job == j ==> k in seen.attempts;
  }

  /** The Attempts of one more Run are read. */
  lemma OneMoreRead(s: Sys, s': Sys, mine: set<Token>, pass: Token, live: set<JobId>, seen: Db, seen': Db,
                    rest: set<JobId>, looked: set<JobId>, j: JobId, out: bool)
    requires BeingRead(s, mine, pass, live, seen, rest, looked) && j in rest && j !in looked && (out ==> j !in live)
    requires forall i :: i != j ==> SameAttempts(seen, seen', i)
    requires s'.listed == if j in live then s.listed else s.listed - {Reading(j, pass)}
    requires s'.doomed == if j !in live && !out && NoAttempts(seen', j) then s.doomed + {Reading(j, pass)} else s.doomed
    ensures BeingRead(s', mine, pass, live, seen', rest - {j}, if out then looked else looked + {j})
  {
    forall i | i != j ensures NoAttempts(seen', i) <==> NoAttempts(seen, i) { EmptyKept(seen, seen', i); }
  }

  // ---------------------------------------------------------------- what the others may do meanwhile

  ghost predicate ClaimsShrink(db: Db, db': Db, mine: set<Token>) {
    forall i, x :: x in mine && HoldsClaim(db', i, x) ==> HoldsClaim(db, i, x)
  }

  /** The run goes on and time passes. */
  ghost predicate Goes(b: Behavior, b': Behavior)
    requires |b.states| == |b.steps| + 1 && |b'.states| == |b'.steps| + 1
  {
    Continues(b, b') && Last(b).now <= Last(b').now
  }

  /** And the lists of the pass's own process stay as they are. */
  ghost predicate Moves(b: Behavior, b': Behavior, mine: set<Token>)
    requires |b.states| == |b.steps| + 1 && |b'.states| == |b'.steps| + 1
  {
    Goes(b, b') && SameOwnLists(Last(b), Last(b'), mine)
  }

  /** Time passes, none of the pass's claims appears elsewhere, no witness goes, and its own lists stay. */
  ghost predicate Acts(s: Sys, s': Sys, mine: set<Token>) {
    && s.now <= s'.now && ClaimsShrink(s.db, s'.db, mine)
    && s.db.witnesses.Keys <= s'.db.witnesses.Keys && SameOwnLists(s, s', mine)
  }

  lemma CallClaims(cfg: Config, s: Sys, step: Step)
    requires Enabled(cfg, s, step) && CallOf(cfg, s, step).OpClaimRecovery?
    ensures step == Bystander(CallOf(cfg, s, step))
  {
  }

  lemma ClockAndListsKept(cfg: Config, s: Sys, step: Step, mine: set<Token>)
    requires Enabled(cfg, s, step) && !Owns(ReconcilerOf(mine), step)
    ensures s.now <= Next(cfg, s, step).now && SameOwnLists(s, Next(cfg, s, step), mine)
  {
  }

  lemma StepActs(b: Behavior, i: nat, mine: set<Token>)
    requires b.Valid() && i < |b.steps| && !Owns(ReconcilerOf(mine), b.steps[i])
    ensures Acts(b.states[i], b.states[i + 1], mine)
  {
    AlwaysNumbered(b, i);
    assert b.Takes(i);
    var s, s', step := b.states[i], b.states[i + 1], b.steps[i];
    StepIsOneCall(b.cfg, s, step);
    CallIsDisciplined(b.cfg, s, step);
    ClockAndListsKept(b.cfg, s, step, mine);
    var op := CallOf(b.cfg, s, step);
    if op.OpClaimRecovery? { CallClaims(b.cfg, s, step); }
    CallKeepsClaims(b.cfg.kind, s.db, Event(s.now, op), s'.db, mine);
  }

  lemma CallKeepsClaims(kind: StoreKind, db: Db, e: Event, db': Db, mine: set<Token>)
    requires Disciplined(db, e.op) && db' == Apply(kind, db, e.now, e.op).db
    requires e.op.OpClaimRecovery? ==> e.op.token !in mine
    ensures ClaimsShrink(db, db', mine) && db.witnesses.Keys <= db'.witnesses.Keys
  {
    var h := History(kind, [db, db'], [e]);
    assert h.Step(0);
    forall k, x | x in mine && HoldsClaim(db', k, x) ensures HoldsClaim(db, k, x) {
      RowStep(h, 0, k);
      StepKeepsRunsAndClosedRows(h, 0, k.job, k);
    }
    forall x | x in db.witnesses ensures x in db'.witnesses { LedgerStep(h, 0, x); }
  }

  lemma {:induction false} OthersAct(b: Behavior, from: nat, to: nat, mine: set<Token>)
    requires b.Valid() && from <= to <= |b.steps|
    requires forall i :: from <= i < to ==> !Owns(ReconcilerOf(mine), b.steps[i])
    ensures Acts(b.states[from], b.states[to], mine)
  {
    if from < to {
      OthersAct(b, from, to - 1, mine);
      StepActs(b, to - 1, mine);
      ActsTransitive(b.states[from], b.states[to - 1], b.states[to], mine);
    }
  }

  lemma ActsTransitive(r: Sys, s: Sys, t: Sys, mine: set<Token>)
    requires Acts(r, s, mine) && Acts(s, t, mine)
    ensures Acts(r, t, mine)
  {
    forall i, x | x in mine && HoldsClaim(t.db, i, x) ensures HoldsClaim(r.db, i, x) {
      assert HoldsClaim(s.db, i, x);
    }
  }

  lemma StillClear(db: Db, db': Db, mine: set<Token>, tokens: set<Token>)
    requires ClaimsShrink(db, db', mine) && tokens <= mine
    ensures Clear(db, tokens) ==> Clear(db', tokens)
  {
  }

  lemma StillOnlyAt(db: Db, db': Db, mine: set<Token>, tokens: set<Token>, k: AttemptKey, token: Token)
    requires ClaimsShrink(db, db', mine) && tokens <= mine
    ensures OnlyAt(db, tokens, k, token) ==> OnlyAt(db', tokens, k, token)
  {
  }
}
