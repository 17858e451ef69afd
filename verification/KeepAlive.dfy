/**
 * Why a live executor is never recovered: its lease heartbeat (service.py and execution_supervisor.py
 * `_heartbeat_loop`).
 */
module KeepAlive {
  import opened Prelude
  import opened Acceptance
  import opened Tables
  import opened StoreOps
  import opened History
  import opened StoreObject

  /** Seconds between two heartbeats of a lease of `lease` seconds. */
  function Period(lease: real): real { if lease / 3.0 < 0.01 then 0.01 else lease / 3.0 }

  predicate Beat(op: Op, k: AttemptKey, token: Token) { op.OpHeartbeatAttempt? && op.k == k && op.token == token }

  /** When the lease was last due to be extended before event `m`, counting its acquisition at `start`. */
  function LastBeat(h: History, k: AttemptKey, token: Token, start: real, m: nat): real
    requires m <= |h.events|
  {
    if m == 0 then start
    else if Beat(h.events[m - 1].op, k, token) then h.events[m - 1].now
    else LastBeat(h, k, token, start, m - 1)
  }

  ghost predicate OnTime(h: History, k: AttemptKey, token: Token, start: real, gap: real, m: nat)
    requires m < |h.events|
  {
    start <= h.events[m].now <= LastBeat(h, k, token, start, m) + gap
  }

  /** Nothing happens later than `gap` after the last heartbeat. */
  ghost predicate Paced(h: History, k: AttemptKey, token: Token, start: real, gap: real) {
    forall m {:trigger OnTime(h, k, token, start, gap, m)} :: 0 <= m < |h.events| ==> OnTime(h, k, token, start, gap, m)
  }

  /** Every call that extends this lease extends it by `lease` seconds. */
  predicate Extends(op: Op, k: AttemptKey, token: Token, lease: real) {
    (Beat(op, k, token) ==> op.ttl == lease) && (op.OpHeartbeatQueued? ==> op.ttl == lease)
  }

  ghost predicate AllExtend(h: History, k: AttemptKey, token: Token, lease: real) {
    forall m {:trigger h.events[m]} :: 0 <= m < |h.events| ==> Extends(h.events[m].op, k, token, lease)
  }

  /** The lease on `k` is `token`'s and ends no earlier than `until`. */
  ghost predicate HeldUntil(db: Db, k: AttemptKey, token: Token, until: real) {
    Holds(db, k, token) && db.attempts[k].leaseExpires.Some? && until <= db.attempts[k].leaseExpires.value
  }

  /** The Attempt is running in every state up to `m`. */
  ghost predicate RunningUpTo(h: History, k: AttemptKey, m: nat)
    requires m < |h.rows|
  {
    forall i :: 0 <= i <= m ==> IsRunning(h.rows[i], k)
  }

  /** One call, made while the lease is live, either leaves its end alone or extends it by the lease time. */
  lemma LeaseCallExtends(h: History, m: nat, k: AttemptKey, token: Token, lease: real, until: real)
    requires h.Valid() && m < |h.events| && LeaseCall(h.events[m].op) && Extends(h.events[m].op, k, token, lease)
    requires HeldUntil(h.rows[m], k, token, until) && h.events[m].now <= until && IsRunning(h.rows[m + 1], k)
    requires until <= h.events[m].now + lease
    ensures HeldUntil(h.rows[m + 1], k, token,
                      if Beat(h.events[m].op, k, token) then h.events[m].now + lease else until)
  {
    assert h.Step(m);
    match h.events[m].op {
      case OpRecordAttempt(_) =>
      case OpAcquireLease(_, _, _) =>
      case OpHeartbeatAttempt(_, _, _) =>
      case OpRecordProcess(_, _, _) =>
      case OpHeartbeatQueued(_, _) =>
      case OpRecordExecution(_, _, _) =>
    }
  }

  lemma ClaimCallKeepsLease(h: History, m: nat, k: AttemptKey, token: Token, until: real)
    requires h.Valid() && m < |h.events| && ClaimCall(h.events[m].op) && HeldUntil(h.rows[m], k, token, until)
    ensures HeldUntil(h.rows[m + 1], k, token, until)
  {
    assert h.Step(m);
  }

  lemma CompletionCallKeepsLease(h: History, m: nat, k: AttemptKey, token: Token, until: real)
    requires h.Valid() && m < |h.events| && CompletionCall(h.events[m].op)
    requires HeldUntil(h.rows[m], k, token, until) && IsRunning(h.rows[m + 1], k)
    ensures HeldUntil(h.rows[m + 1], k, token, until)
  {
    assert h.Step(m);
    match h.events[m].op {
      case OpTransition(_, _, _, _, _) =>
      case OpFinalizeRecovery(_, _, _) =>
      case OpFinalize(_, _, _, _) =>
    }
  }

  lemma OtherCallKeepsLease(h: History, m: nat, k: AttemptKey, token: Token, until: real)
    requires h.Valid() && m < |h.events| && !LeaseCall(h.events[m].op)
    requires HeldUntil(h.rows[m], k, token, until) && IsRunning(h.rows[m + 1], k)
    ensures HeldUntil(h.rows[m + 1], k, token, until)
  {
    var op := h.events[m].op;
    if RunCall(op) { RunCallFrame(h, m); }
    else if HostCall(op) { HostCallFrame(h, m); }
    else if DeliveryCall(op) { DeliveryCallFrame(h, m); }
    else if ClaimCall(op) { ClaimCallKeepsLease(h, m, k, token, until); }
    else { CompletionCallKeepsLease(h, m, k, token, until); }
  }

  /** One call of anyone's, made in time. */
  lemma CallFollowsBeats(h: History, k: AttemptKey, token: Token, lease: real, beat: real, m: nat)
    requires h.Valid() && m < |h.events| && Extends(h.events[m].op, k, token, lease)
    requires HeldUntil(h.rows[m], k, token, beat + lease) && beat <= h.events[m].now <= beat + lease
    requires IsRunning(h.rows[m + 1], k)
    ensures HeldUntil(h.rows[m + 1], k, token,
                      if Beat(h.events[m].op, k, token) then h.events[m].now + lease else beat + lease)
  {
    if LeaseCall(h.events[m].op) { LeaseCallExtends(h, m, k, token, lease, beat + lease); }
    else { OtherCallKeepsLease(h, m, k, token, beat + lease); }
  }

  /** However many others act in between, the lease never ends earlier than one lease time after the last heartbeat. */
  lemma {:induction false} LeaseFollowsBeats(h: History, k: AttemptKey, token: Token, start: real, lease: real,
                                             gap: real, m: nat)
    requires h.Valid() && h.Monotone() && Paced(h, k, token, start, gap) && AllExtend(h, k, token, lease)
    requires gap <= lease
    requires HeldUntil(h.rows[0], k, token, start + lease) && m <= |h.events| && RunningUpTo(h, k, m)
    ensures HeldUntil(h.rows[m], k, token, LastBeat(h, k, token, start, m) + lease)
    ensures m < |h.events| ==> LastBeat(h, k, token, start, m) <= h.events[m].now
  {
    if 0 < m {
      LeaseFollowsBeats(h, k, token, start, lease, gap, m - 1);
      var beat := LastBeat(h, k, token, start, m - 1);
      assert OnTime(h, k, token, start, gap, m - 1);
      assert Extends(h.events[m - 1].op, k, token, lease);
      CallFollowsBeats(h, k, token, lease, beat, m - 1);
      if m < |h.events| { assert h.events[m - 1].now <= h.events[m].now; }
    } else if m < |h.events| {
      assert OnTime(h, k, token, start, gap, m);
    }
  }

  /**
   * If heartbeats fire every max(lease / 3, 0.01) seconds, at most `delay` late, and that never exceeds the lease, the
   * lease is live whenever anything happens, and nobody can claim the Attempt for recovery or take its lease over.
   */
  lemma NeverRecoveredWhileBeating(h: History, k: AttemptKey, token: Token, start: real, lease: real, delay: real,
                                   m: nat)
    requires h.Valid() && h.Monotone() && AllExtend(h, k, token, lease)
    requires Paced(h, k, token, start, Period(lease) + delay) && Period(lease) + delay <= lease
    requires HeldUntil(h.rows[0], k, token, start + lease) && m < |h.events| && RunningUpTo(h, k, m)
    ensures LeaseLive(h.rows[m].attempts[k], h.events[m].now) && h.rows[m].attempts[k].leaseToken == Some(token)
    ensures (h.events[m].op.OpClaimRecovery? || h.events[m].op.OpAcquireLease?) && h.events[m].op.k == k ==>
      !h.Succeeds(m)
  {
    LeaseFollowsBeats(h, k, token, start, lease, Period(lease) + delay, m);
    assert OnTime(h, k, token, start, Period(lease) + delay, m);
  }

  /** A paced history in which a recovery claim on the beating executor's Attempt succeeds. */
  ghost predicate Recovered(h: History, k: AttemptKey, token: Token, lease: real, delay: real, m: nat) {
    && h.Valid() && h.Monotone() && AllExtend(h, k, token, lease) && Paced(h, k, token, 0.0, Period(lease) + delay)
    && HeldUntil(h.rows[0], k, token, 0.0 + lease) && RunOpen(h.rows[0], k.job) && m < |h.events|
    && RunningUpTo(h, k, m)
    && h.events[m].op.OpClaimRecovery? && h.events[m].op.k == k && h.Succeeds(m)
  }

  lemma LateBeatLosesLease(kind: StoreKind, k: AttemptKey, token: Token, lease: real, delay: real) returns (h: History)
    requires 0.0 <= lease && 0.0 <= delay && lease < Period(lease) + delay
    ensures Recovered(h, k, token, lease, delay, 0)
  {
    var a := FRESH_ATTEMPT.(leaseToken := Some(token), leaseExpires := Some(lease));
    var db := EMPTY_DB.(runs := map[k.job := Run(RunRunning, 0, NO_VERDICT, 0.0)], attempts := map[k := a]);
    var op := OpClaimRecovery(k, token, 1.0);
    var now := Period(lease) + delay;
    h := History(kind, [db, Apply(kind, db, now, op).db], [Event(now, op)]);
    assert h.Step(0);
  }

  /**
   * The condition is exact: a lease can be lost under heartbeats at most `delay` late if and only if it is shorter than
   * period plus delay.
   */
  lemma KeepAliveExactlyWhen(kind: StoreKind, k: AttemptKey, token: Token, lease: real, delay: real)
    requires 0.0 <= lease && 0.0 <= delay
    ensures Period(lease) + delay <= lease <==> !exists h: History, m: nat :: Recovered(h, k, token, lease, delay, m)
  {
    if Period(lease) + delay <= lease {
      forall h: History, m: nat ensures !Recovered(h, k, token, lease, delay, m) {
        if Recovered(h, k, token, lease, delay, m) {
          NeverRecoveredWhileBeating(h, k, token, 0.0, lease, delay, m);
          assert false;
        }
      }
    } else {
      var h := LateBeatLosesLease(kind, k, token, lease, delay);
    }
  }

  // ---------------------------------------------------------------- the loop

  /**
   * One wait of the heartbeat thread: what others do meanwhile, whether it ended by the stop event, and the clock as
   * the session call and then the lease call read it.
   */
  datatype Nap = Nap(events: seq<Event>, stop: bool, now: real, beat: real)

  /**
   * The wait ended early enough: everything in it happens, in order, no later than `gap` after the last heartbeat at
   * `prev`.
   */
  ghost predicate TimelyNap(nap: Nap, prev: real, k: AttemptKey, token: Token, lease: real, gap: real) {
    && prev <= nap.now <= nap.beat <= prev + gap
    && (forall i :: 0 <= i < |nap.events| ==>
          prev <= nap.events[i].now <= nap.now && Extends(nap.events[i].op, k, token, lease))
    && (forall i, l :: 0 <= i <= l < |nap.events| ==> nap.events[i].now <= nap.events[l].now)
  }

  /** Every wait of the thread ended early enough. */
  ghost predicate TimelyNaps(naps: seq<Nap>, start: real, k: AttemptKey, token: Token, lease: real, gap: real) {
    forall i: nat :: i < |naps| ==> TimelyAt(naps, i, start, k, token, lease, gap)
  }

  ghost predicate TimelyAt(naps: seq<Nap>, i: nat, start: real, k: AttemptKey, token: Token, lease: real, gap: real)
    requires i < |naps|
  {
    TimelyNap(naps[i], if i == 0 then start else naps[i - 1].beat, k, token, lease, gap)
  }

  datatype LoopEnd = Stopped | Refused | Watching

  /** A history so far, up to which heartbeats were in time. */
  ghost predicate InTime(h: History, k: AttemptKey, token: Token, start: real, lease: real, gap: real) {
    h.Valid() && h.Monotone() && Paced(h, k, token, start, gap) && AllExtend(h, k, token, lease)
  }

  ghost function LastTime(h: History, start: real): real {
    if |h.events| == 0 then start else h.events[|h.events| - 1].now
  }

  /** The event may come next: not before what happened, and no later than `gap` after the last heartbeat. */
  ghost predicate Timely(h: History, e: Event, k: AttemptKey, token: Token, start: real, lease: real, gap: real) {
    LastTime(h, start) <= e.now <= LastBeat(h, k, token, start, |h.events|) + gap && Extends(e.op, k, token, lease)
  }

  function Then(h: History, e: Event, db': Db): History { History(h.kind, h.rows + [db'], h.events + [e]) }

  lemma {:induction false} EarlierBeatsStay(h: History, e: Event, db': Db, k: AttemptKey, token: Token, start: real,
                                            m: nat)
    requires m <= |h.events|
    ensures LastBeat(Then(h, e, db'), k, token, start, m) == LastBeat(h, k, token, start, m)
  {
    if 0 < m { EarlierBeatsStay(h, e, db', k, token, start, m - 1); }
  }

  lemma StillValid(h: History, e: Event, db': Db)
    requires h.Valid() && db' == Apply(h.kind, h.rows[|h.events|], e.now, e.op).db
    ensures Then(h, e, db').Valid()
  {
    var h' := Then(h, e, db');
    forall i: nat | i < |h'.events| ensures h'.Step(i) {
      if i < |h.events| { assert h.Step(i); }
    }
  }

  lemma StillMonotone(h: History, e: Event, db': Db, start: real)
    requires h.Monotone() && LastTime(h, start) <= e.now
    ensures Then(h, e, db').Monotone()
  {
    var h' := Then(h, e, db');
    forall i, l | 0 <= i <= l < |h'.events| ensures h'.events[i].now <= h'.events[l].now {
      if l == |h.events| && i < l { assert h.events[i].now <= h.events[|h.events| - 1].now; }
    }
  }

  lemma StillInTime(h: History, e: Event, db': Db, k: AttemptKey, token: Token, start: real, lease: real, gap: real)
    requires InTime(h, k, token, start, lease, gap) && start <= LastTime(h, start)
    requires Timely(h, e, k, token, start, lease, gap) && db' == Apply(h.kind, h.rows[|h.events|], e.now, e.op).db
    ensures var h' := Then(h, e, db');
            && InTime(h', k, token, start, lease, gap) && LastTime(h', start) == e.now
            && LastBeat(h', k, token, start, |h'.events|) ==
                 if Beat(e.op, k, token) then e.now else LastBeat(h, k, token, start, |h.events|)
  {
    var h' := Then(h, e, db');
    StillValid(h, e, db');
    StillMonotone(h, e, db', start);
    forall m: nat | m < |h'.events|
      ensures OnTime(h', k, token, start, gap, m) && Extends(h'.events[m].op, k, token, lease)
    {
      EarlierBeatsStay(h, e, db', k, token, start, m);
      if m < |h.events| { assert h.events[m] == h'.events[m] && OnTime(h, k, token, start, gap, m); }
    }
    EarlierBeatsStay(h, e, db', k, token, start, |h.events|);
  }

  class Heart {
    const store: Store
    const session: Option<SessionId>       // the Host Agent session, if the executor has one
    const k: AttemptKey
    const token: Token
    const lease: real
    ghost const start: real                // when the lease was acquired
    ghost const gap: real
    ghost var h: History                   // everything since

    constructor (store: Store, session: Option<SessionId>, k: AttemptKey, token: Token, lease: real, ghost start: real,
                 ghost gap: real)
      ensures this.store == store && this.session == session && this.k == k && this.token == token
      ensures this.lease == lease
      ensures this.start == start && this.gap == gap && h == History(store.kind, [store.Rows()], []) && Ready(true)
    {
      this.store, this.session, this.k, this.token, this.lease := store, session, k, token, lease;
      this.start, this.gap := start, gap;
      h := History(store.kind, [store.Rows()], []);
    }

    ghost predicate Ready(timely: bool)
      reads this, store
    {
      && h.Valid() && h.kind == store.kind && h.rows[|h.events|] == store.Rows()
      && (timely ==> InTime(h, k, token, start, lease, gap) && start <= LastTime(h, start))
    }

    /** A Store call has been made. */
    ghost method Called(e: Event, timely: bool)
      requires h.Valid() && h.kind == store.kind && store.Rows() == Apply(h.kind, h.rows[|h.events|], e.now, e.op).db
      requires timely ==>
        InTime(h, k, token, start, lease, gap) && start <= LastTime(h, start)
        && Timely(h, e, k, token, start, lease, gap)
      modifies this
      ensures Ready(timely) && h == Then(old(h), e, store.Rows())
      ensures timely ==>
        && LastTime(h, start) == e.now
        && LastBeat(h, k, token, start, |h.events|) ==
             if Beat(e.op, k, token) then e.now else LastBeat(old(h), k, token, start, |old(h).events|)
    {
      if timely { StillInTime(h, e, store.Rows(), k, token, start, lease, gap); }
      StillValid(h, e, store.Rows());
      h := Then(h, e, store.Rows());
    }

    /** The others act while the thread waits. */
    method Wait(nap: Nap, ghost prev: real, ghost timely: bool)
      requires Ready(timely)
      requires timely ==>
        TimelyNap(nap, prev, k, token, lease, gap)
        && LastTime(h, start) <= prev <= LastBeat(h, k, token, start, |h.events|)
      modifies this, store
      ensures Ready(timely) && old(h).rows <= h.rows && h.events == old(h).events + nap.events
      ensures timely ==> LastTime(h, start) <= nap.now && prev <= LastBeat(h, k, token, start, |h.events|)
    {
      var i := 0;
      while i < |nap.events|
        invariant Ready(timely) && old(h).rows <= h.rows && i <= |nap.events|
        invariant h.events == old(h).events + nap.events[..i]
        invariant timely ==> prev <= LastBeat(h, k, token, start, |h.events|)
        invariant timely ==> LastTime(h, start) <= if i == 0 then prev else nap.events[i - 1].now
      {
        store.Observe(Apply(store.kind, store.Rows(), nap.events[i].now, nap.events[i].op).db);
        Called(nap.events[i], timely);
        i := i + 1;
      }
      assert nap.events[..i] == nap.events;
    }

    function SessionBeat(nap: Nap): seq<Event> {
      if session.Some? then [Event(nap.now, OpHeartbeatSession(session.value, lease))] else []
    }

    /** All that happens in one wait that did not end by the stop event, with the thread's own calls at its end. */
    function BeatOf(nap: Nap): seq<Event> {
      nap.events + SessionBeat(nap) + [Event(nap.beat, OpHeartbeatAttempt(k, token, lease))]
    }

    function Calls(naps: seq<Nap>): seq<Event> {
      if naps == [] then [] else Calls(naps[..|naps| - 1]) + BeatOf(naps[|naps| - 1])
    }

    /** The last calls of the history, the thread's own, were accepted. */
    ghost predicate JustKept(g: History) {
      && |g.rows| == |g.events| + 1 && g.events != [] && g.Succeeds(|g.events| - 1)
      && (session.Some? ==> 1 < |g.events| && g.Succeeds(|g.events| - 2))
    }

    /** The calls of wait `i` were accepted. */
    ghost predicate BeatKept(g: History, naps: seq<Nap>, i: nat)
      requires i < |naps|
    {
      var n := |Calls(naps[..i + 1])|;
      && |g.rows| == |g.events| + 1 && 0 < n <= |g.events| && g.Succeeds(n - 1)
      && (session.Some? ==> 1 < n && g.Succeeds(n - 2))
    }

    /** So far the thread has beaten in every wait, and no call was refused. */
    ghost predicate Beating(g: History, naps: seq<Nap>, n: nat) {
      n <= |naps| && forall i: nat {:trigger naps[i]} :: i < n ==> !naps[i].stop && BeatKept(g, naps, i)
    }

    /** What the thread has done when it ends at wait `n`. */
    ghost predicate Did(g: History, naps: seq<Nap>, n: nat, end: LoopEnd) {
      && Beating(g, naps, n) && |g.rows| == |g.events| + 1
      && match end
         case Watching => n == |naps| && g.events == Calls(naps)
         case Stopped => n < |naps| && naps[n].stop && g.events == Calls(naps[..n]) + naps[n].events
         case Refused =>
           && n < |naps| && !naps[n].stop && g.events != [] && !g.Succeeds(|g.events| - 1)
           && (|| g.events == Calls(naps[..n]) + BeatOf(naps[n])
               || (session.Some? && g.events == Calls(naps[..n]) + naps[n].events + SessionBeat(naps[n])))
    }

    lemma StillBeating(g: History, g': History, naps: seq<Nap>, n: nat)
      requires Beating(g, naps, n) && |g.rows| == |g.events| + 1 && |g'.rows| == |g'.events| + 1
      requires g'.kind == g.kind && g.rows <= g'.rows && g.events <= g'.events
      ensures Beating(g', naps, n)
    {
      forall i: nat | i < n ensures BeatKept(g', naps, i) { assert BeatKept(g, naps, i) && !naps[i].stop; }
    }

    lemma OneMoreBeat(g: History, g': History, naps: seq<Nap>, n: nat)
      requires n < |naps| && !naps[n].stop && Beating(g, naps, n) && g.events == Calls(naps[..n])
      requires |g.rows| == |g.events| + 1 && |g'.rows| == |g'.events| + 1
      requires g'.kind == g.kind && g.rows <= g'.rows && g'.events == g.events + BeatOf(naps[n]) && JustKept(g')
      ensures Beating(g', naps, n + 1) && g'.events == Calls(naps[..n + 1])
    {
      StillBeating(g, g', naps, n);
      assert naps[..n + 1][..n] == naps[..n];
      assert Calls(naps[..n + 1]) == Calls(naps[..n]) + BeatOf(naps[n]);
      forall i: nat | i < n + 1 ensures !naps[i].stop && BeatKept(g', naps, i) {
        if i < n { assert !naps[i].stop && BeatKept(g', naps, i); }
      }
    }

    /** Extend the session. */
    method ExtendSession(nap: Nap, ghost timely: bool) returns (alive: bool)
      requires Ready(timely) && session.Some?
      requires timely ==>
        Timely(h, Event(nap.now, OpHeartbeatSession(session.value, lease)), k, token, start, lease, gap)
      modifies this, store
      ensures Ready(timely) && old(h).rows <= h.rows && h.events == old(h).events + SessionBeat(nap)
      ensures alive == h.Succeeds(|h.events| - 1)
      ensures !alive ==> SessionGone(h)
      ensures timely ==>
        && LastTime(h, start) == nap.now
        && LastBeat(h, k, token, start, |h.events|) == LastBeat(old(h), k, token, start, |old(h).events|)
    {
      alive := store.HeartbeatHostSession(nap.now, session.value, lease);
      Called(Event(nap.now, OpHeartbeatSession(session.value, lease)), timely);
    }

    /** Extend the session, if there is one, and then the lease; the first refusal ends the thread. */
    method Extend(nap: Nap, ghost prev: real, ghost timely: bool) returns (kept: bool)
      requires Ready(timely)
      requires timely ==>
        TimelyNap(nap, prev, k, token, lease, gap) && LastTime(h, start) <= nap.now
        && prev <= LastBeat(h, k, token, start, |h.events|)
      modifies this, store
      ensures Ready(timely) && old(h).rows <= h.rows
      ensures if kept then JustKept(h) else h.events != [] && !h.Succeeds(|h.events| - 1)
      ensures var own := SessionBeat(nap) + [Event(nap.beat, OpHeartbeatAttempt(k, token, lease))];
              || h.events == old(h).events + own
              || (!kept && session.Some? && h.events == old(h).events + SessionBeat(nap))
      ensures kept && timely ==> LastTime(h, start) == nap.beat == LastBeat(h, k, token, start, |h.events|)
      ensures !kept && timely && gap <= lease && HeldUntil(h.rows[0], k, token, start + lease) ==>
                SessionGone(h) || !RunningUpTo(h, k, |h.events|)
    {
      if session.Some? {
        var alive := ExtendSession(nap, timely);
        if !alive { return false; }
      }
      ghost var n := |h.events|;
      if timely && gap <= lease && HeldUntil(h.rows[0], k, token, start + lease) && RunningUpTo(h, k, n) {
        LeaseFollowsBeats(h, k, token, start, lease, gap, n);
      }
      kept := store.HeartbeatAttempt(nap.beat, k, token, lease);
      Called(Event(nap.beat, OpHeartbeatAttempt(k, token, lease)), timely);
    }

    /** The executor's host session is not the current session of its host. */
    ghost predicate SessionGone(h: History)
      requires |h.rows| == |h.events| + 1
    {
      session.Some? && !(session.value in h.rows[|h.events|].sessions && Current(h.rows[|h.events|], session.value))
    }

    /** One wait, and unless it ended by the stop event, one beat. */
    method Once(naps: seq<Nap>, n: nat, ghost prev: real, ghost timely: bool) returns (end: LoopEnd)
      requires Ready(timely) && n < |naps| && Beating(h, naps, n) && h.events == Calls(naps[..n])
      requires timely ==>
        TimelyNap(naps[n], prev, k, token, lease, gap)
        && LastTime(h, start) <= prev <= LastBeat(h, k, token, start, |h.events|)
      modifies this, store
      ensures Ready(timely) && h.rows[0] == old(h).rows[0]
      ensures if end.Watching? then Beating(h, naps, n + 1) && h.events == Calls(naps[..n + 1])
              else Did(h, naps, n, end)
      ensures timely && end.Watching? ==>
        LastTime(h, start) == naps[n].beat == LastBeat(h, k, token, start, |h.events|)
      ensures end.Refused? && timely && gap <= lease && HeldUntil(h.rows[0], k, token, start + lease) ==>
        SessionGone(h) || !RunningUpTo(h, k, |h.events|)
    {
      ghost var g := h;
      Wait(naps[n], prev, timely);
      if naps[n].stop {
        StillBeating(g, h, naps, n);
        return Stopped;
      }
      var kept := Extend(naps[n], prev, timely);
      if kept {
        OneMoreBeat(g, h, naps, n);
        end := Watching;
      } else {
        StillBeating(g, h, naps, n);
        end := Refused;
      }
    }

    /**
     * The heartbeat thread: it beats after each wait, and ends at the stop event or with the first refusal. If every
     * wait ends in time, the lease it keeps has at least one lease time left from the last heartbeat for as long as the
     * Attempt runs; and it gives up only because the Attempt is no longer running or its host session was superseded,
     * never because the lease lapsed under it.
     */
    method Loop(naps: seq<Nap>) returns (end: LoopEnd, ghost n: nat)
      requires Ready(true) && h.events == []
      modifies this, store
      ensures h.Valid() && h.rows[0] == old(store.Rows()) && h.rows[|h.events|] == store.Rows()
      ensures Did(h, naps, n, end)
      ensures TimelyNaps(naps, start, k, token, lease, gap) ==> InTime(h, k, token, start, lease, gap)
      ensures TimelyNaps(naps, start, k, token, lease, gap) && gap <= lease
              && HeldUntil(old(store.Rows()), k, token, start + lease) ==>
        && (RunningUpTo(h, k, |h.events|) ==>
              HeldUntil(store.Rows(), k, token, LastBeat(h, k, token, start, |h.events|) + lease))
        && (end.Refused? ==> SessionGone(h) || !RunningUpTo(h, k, |h.events|))
    {
      ghost var timely, prev := TimelyNaps(naps, start, k, token, lease, gap), start;
      var i := 0;
      end, n := Watching, 0;
      while i < |naps| && end.Watching?
        invariant i <= |naps| && Ready(timely) && h.rows[0] == old(store.Rows())
        invariant if end.Watching? then n == i && Beating(h, naps, n) && h.events == Calls(naps[..n])
                  else Did(h, naps, n, end)
        invariant timely && end.Watching? ==> LastTime(h, start) <= prev <= LastBeat(h, k, token, start, |h.events|)
        invariant end.Watching? ==> prev == if i == 0 then start else naps[i - 1].beat
        invariant end.Refused? && timely && gap <= lease && HeldUntil(h.rows[0], k, token, start + lease) ==>
                    SessionGone(h) || !RunningUpTo(h, k, |h.events|)
        decreases |naps| - i, end.Watching?
      {
        assert timely ==> TimelyAt(naps, i, start, k, token, lease, gap);
        end := Once(naps, i, prev, timely);
        if end.Watching? { prev, n := naps[i].beat, n + 1; }
        i := i + 1;
      }
      assert naps[..|naps|] == naps;
      if timely && gap <= lease && HeldUntil(h.rows[0], k, token, start + lease) && RunningUpTo(h, k, |h.events|) {
        LeaseFollowsBeats(h, k, token, start, lease, gap, |h.events|);
      }
    }
  }
}
