/**
 * A drain as a small program over the shared rows, and every run of it among what the others do: how far a host's
 * load can go, and from which states it stays within the bound (worker.py `drain`).
 */
module Draining {
  import opened Prelude
  import opened Tables
  import opened StoreOps
  import opened History
  import opened Protocol
  import opened OnceOnly
  import opened Numbering
  import opened Dispatch
  import opened ClusterObject
  import opened ExecutorLoop

  /** What a drain is given. */
  datatype Terms = Terms(at: HostRef, maxInFlight: nat, maxJobs: Option<nat>, concurrency: nat)

  /** `PassRaised`: the recovery pass it begins with raised. `StillWaiting`: it had not ended when last seen. */
  datatype DrainEnd = InvalidConcurrency | PassRaised | Finished | Raised | StillWaiting

  /**
   * What it does next: recover and release, test its limits, claim, wait for one future, wait for all of them, nothing.
   */
  datatype Pc = Recovering | Checking | Claiming | Full | Joining | Over(end: DrainEnd)

  /** Where it stands when the run has come to its state `i`; the futures are in the order they were claimed. */
  datatype Point = Point(i: nat, active: seq<JobId>, completed: multiset<JobId>, pc: Pc)

  /** `wait` returns the future of `j`: it ended, or its pool has noticed that it was cancelled. It may have raised. */
  predicate Done(s: Sys, j: JobId) { j in s.execs ==> s.execs[j].stage.Ended? || s.execs[j].stage == Cancelled(true) }

  /** `result()` does not block: the future ended or was cancelled, noticed or not. */
  predicate Ready(s: Sys, j: JobId) { j in s.execs ==> s.execs[j].stage.Ended? || s.execs[j].stage.Cancelled? }

  /** `result()` raises what the executor raised, or CancelledError. */
  predicate Raises(s: Sys, j: JobId) {
    j in s.execs && (s.execs[j].stage == Ended(false) || s.execs[j].stage.Cancelled?)
  }

  /** The futures that `wait` does not return, in their order. */
  function Alive(s: Sys, active: seq<JobId>): (rest: seq<JobId>)
    ensures |rest| <= |active| && forall j :: j in rest <==> j in active && !Done(s, j)
  {
    if active == [] then []
    else if Done(s, active[0]) then Alive(s, active[1..])
    else [active[0]] + Alive(s, active[1..])
  }

  /** If none is taken out, none is done. */
  lemma {:induction false} AllAlive(s: Sys, active: seq<JobId>)
    requires |Alive(s, active)| == |active|
    ensures forall j :: j in active ==> !Done(s, j)
  {
    if active != [] { AllAlive(s, active[1..]); }
  }

  function Queued(db: Db): set<JobId> { set j | j in db.runs && db.runs[j].status.RunQueued? }

  /** A queued Run the database may hand out next. */
  predicate Oldest(db: Db, j: JobId) {
    j in Queued(db) && forall i :: i in Queued(db) ==> db.runs[j].updatedAt <= db.runs[i].updatedAt
  }

  predicate ReachedMax(w: Terms, p: Point) { w.maxJobs.Some? && |p.completed| + |p.active| >= w.maxJobs.value }

  /** It waits for a future that has not come to its end: for one of all, or for the next one it asks. */
  ghost predicate WaitsOnFuture(s: Sys, p: Point) {
    && p.active != []
    && ((p.pc.Full? && forall j :: j in p.active ==> !Done(s, j)) || (p.pc.Joining? && !Ready(s, p.active[0])))
  }

  /** The drain itself goes on. */
  ghost predicate GoesOn(w: Terms, b: Behavior, p: Point, q: Point)
    requires |b.states| == |b.steps| + 1 && p.i <= |b.steps|
  {
    var s := b.states[p.i];
    match p.pc
    case Recovering =>
      || q == p.(pc := Over(PassRaised))
      || (p.i < |b.steps| && b.steps[p.i] == Bystander(OpReleaseTerminal) && q == p.(i := p.i + 1, pc := Checking))
    case Checking =>
      q == p.(pc := if ReachedMax(w, p) || |ActiveFor(s.db, w.at.host)| >= w.maxInFlight then Joining
                    else if |p.active| >= w.concurrency then Full else Claiming)
    case Full =>
      var rest := Alive(s, p.active);
      && |rest| < |p.active|
      && q == p.(active := rest, completed := p.completed + (multiset(p.active) - multiset(rest)), pc := Checking)
    case Claiming =>
      if Queued(s.db) == {} then q == p.(pc := Joining)
      else
        && p.i < |b.steps| && b.steps[p.i].ClaimRun? && Oldest(s.db, b.steps[p.i].job)
        && b.steps[p.i] == ClaimRun(b.steps[p.i].job, Supervised, Some(w.at))
        && q == p.(i := p.i + 1, active := p.active + [b.steps[p.i].job], pc := Checking)
    case Joining =>
      if p.active == [] then q == p.(pc := Over(Finished))
      else
        && Ready(s, p.active[0])
        && q == if Raises(s, p.active[0]) then p.(pc := Over(Raised))
                else p.(active := p.active[1..], completed := p.completed + multiset{p.active[0]})
    case Over(_) => false
  }

  /** Another process takes a step while the drain is under way. */
  ghost predicate Waits(w: Terms, b: Behavior, p: Point, q: Point)
    requires |b.states| == |b.steps| + 1 && p.i <= |b.steps|
  {
    !p.pc.Over? && p.i < |b.steps| && !Owns(WorkerOf(w.at.host), b.steps[p.i]) && q == p.(i := p.i + 1)
  }

  /** One drain among the others, up to the end of the run `b`. */
  datatype DrainRun = DrainRun(w: Terms, b: Behavior, points: seq<Point>) {
    ghost predicate Valid() {
      && b.Valid() && b.cfg.kind.Postgres? && !b.cfg.local && 1 <= w.concurrency
      && points != [] && points[0] == Point(points[0].i, [], multiset{}, Recovering)
      && (forall n: nat :: n < |points| ==> points[n].i <= |b.steps|) && End().i == |b.steps|
      && forall n: nat {:trigger Moves(n)} :: n + 1 < |points| ==> Moves(n)
    }

    ghost predicate Moves(n: nat)
      requires |b.states| == |b.steps| + 1 && n + 1 < |points| && points[n].i <= |b.steps|
    {
      GoesOn(w, b, points[n], points[n + 1]) || Waits(w, b, points[n], points[n + 1])
    }

    function End(): Point
      requires points != []
    {
      points[|points| - 1]
    }

    function From(): nat
      requires points != []
    {
      points[0].i
    }

    function Now(): Sys
      requires |b.states| == |b.steps| + 1
    {
      Last(b)
    }
  }

  // ---------------------------------------------------------------- a drain under way

  /** A drain that begins at the end of the run. */
  function Begun(w: Terms, b: Behavior): DrainRun { DrainRun(w, b, [Point(|b.steps|, [], multiset{}, Recovering)]) }

  /** What `d'` is after `d` has gone one point further. */
  ghost predicate Follows(d: DrainRun, d': DrainRun) {
    && d.points != [] && d.points <= d'.points && d'.w == d.w && Continues(d.b, d'.b) && d'.Valid()
  }

  /** The drain goes on without a Store call that writes. */
  lemma Looks(d: DrainRun, q: Point) returns (d': DrainRun)
    requires d.Valid() && q.i == |d.b.steps| && GoesOn(d.w, d.b, d.End(), q)
    ensures Follows(d, d') && d'.b == d.b && d'.points == d.points + [q]
  {
    d' := d.(points := d.points + [q]);
    forall n: nat | n + 1 < |d'.points| ensures d'.Moves(n) {
      if n + 1 < |d.points| { assert d.Moves(n); }
    }
  }

  /** A step is taken: by another process, or by the drain. */
  lemma Takes(d: DrainRun, step: Step, q: Point) returns (d': DrainRun)
    requires d.Valid() && Enabled(d.b.cfg, d.Now(), step) && q.i == |d.b.steps| + 1
    requires var b' := Append(d.b, step); GoesOn(d.w, b', d.End(), q) || Waits(d.w, b', d.End(), q)
    ensures Follows(d, d') && d'.b == Append(d.b, step) && d'.points == d.points + [q]
    ensures d'.Now() == Next(d.b.cfg, d.Now(), step)
  {
    AppendIsValid(d.b, step);
    d' := DrainRun(d.w, Append(d.b, step), d.points + [q]);
    forall n: nat | n + 1 < |d'.points| ensures d'.Moves(n) {
      if n + 1 < |d.points| { assert d.Moves(n); }
    }
  }

  /** Another process takes a step. */
  lemma Lets(d: DrainRun, step: Step) returns (d': DrainRun)
    requires d.Valid() && Enabled(d.b.cfg, d.Now(), step) && !Owns(WorkerOf(d.w.at.host), step) && !d.End().pc.Over?
    ensures Follows(d, d') && d'.b == Append(d.b, step) && d'.points == d.points + [d.End().(i := |d'.b.steps|)]
    ensures d'.Now() == Next(d.b.cfg, d.Now(), step)
  {
    d' := Takes(d, step, d.End().(i := |d.b.steps| + 1));
  }

  /** The others take any number of steps. */
  lemma {:induction false} LetsAll(d: DrainRun, b: Behavior) returns (d': DrainRun)
    requires d.Valid() && b.Valid() && Continues(d.b, b) && !d.End().pc.Over?
    requires forall i :: |d.b.steps| <= i < |b.steps| ==> !Owns(WorkerOf(d.w.at.host), b.steps[i])
    ensures Follows(d, d') && d'.b == b && d'.End() == d.End().(i := |b.steps|)
    decreases |b.steps| - |d.b.steps|
  {
    var n := |d.b.steps|;
    if n < |b.steps| {
      assert b.Takes(n);
      var d1 := Lets(d, b.steps[n]);
      assert b.states[..n + 2] == b.states[..n + 1] + [b.states[n + 1]]
        && b.steps[..n + 1] == b.steps[..n] + [b.steps[n]];
      d' := LetsAll(d1, b);
    } else {
      assert b == d.b;
      d' := d;
    }
  }

  // ---------------------------------------------------------------- how far the load can go

  function Elements(active: seq<JobId>): set<JobId> { set j | j in active }

  lemma {:induction false} ElementsCount(active: seq<JobId>)
    ensures |Elements(active)| <= |active|
  {
    if active == [] {
    } else {
      ElementsCount(active[1..]);
      assert Elements(active) == {active[0]} + Elements(active[1..]);
      UnionCount({active[0]}, Elements(active[1..]));
    }
  }

  lemma UnionCount<T>(a: set<T>, b: set<T>)
    ensures |a + b| <= |a| + |b|
  {
    assert a + b == a + (b - a);
    SubsetCount(b - a, b);
  }

  /** In every state of the run from `from` to `to` the host has at most `limit` outstanding. */
  ghost predicate LoadWithin(b: Behavior, from: nat, to: nat, host: HostId, limit: int)
    requires |b.states| == |b.steps| + 1
  {
    forall i :: from <= i <= to < |b.states| ==> Load(b.states[i], host) <= limit
  }

  /** A bound kept before and after a point of the run is kept throughout. */
  lemma LoadJoined(b: Behavior, c: Behavior, from: nat, host: HostId, later: int, limit: int)
    requires |b.states| == |b.steps| + 1 && |c.states| == |c.steps| + 1 && Continues(b, c) && from <= |b.steps|
    requires LoadWithin(b, from, |b.steps|, host, limit) && LoadWithin(c, |b.steps|, |c.steps|, host, later)
    requires later <= limit
    ensures LoadWithin(c, from, |c.steps|, host, limit)
  {
    forall i | from <= i <= |c.steps| ensures Load(c.states[i], host) <= limit {
      if i <= |b.steps| { assert c.states[i] == b.states[i]; }
    }
  }

  lemma StepKeepsLoad(b: Behavior, i: nat, host: HostId)
    requires b.Valid() && i < |b.steps| && !Owns(WorkerOf(host), b.steps[i])
    ensures Load(b.states[i + 1], host) <= Load(b.states[i], host)
    ensures Undispatched(b.states[i + 1], host) <= Undispatched(b.states[i], host)
  {
    AlwaysStarts(b, i);
    assert b.Takes(i);
    NextKeepsLoad(b.cfg, b.states[i], b.steps[i], host);
  }

  /** Whatever the others do, the host's load never rises and no Run newly becomes its undispatched Run. */
  lemma {:induction false} OthersKeepLoad(b: Behavior, from: nat, to: nat, host: HostId)
    requires b.Valid() && from <= to <= |b.steps|
    requires forall i :: from <= i < to ==> !Owns(WorkerOf(host), b.steps[i])
    ensures Load(b.states[to], host) <= Load(b.states[from], host)
    ensures Undispatched(b.states[to], host) <= Undispatched(b.states[from], host)
    ensures LoadWithin(b, from, to, host, Load(b.states[from], host))
  {
    if from < to {
      OthersKeepLoad(b, from, to - 1, host);
      StepKeepsLoad(b, to - 1, host);
    }
  }

  /** The bound on dispatch: the last claim is made with `maxInFlight - 1` active and all other futures undispatched. */
  function Bound(w: Terms): int { w.maxInFlight + w.concurrency - 1 }

  /** The most a drain that begins in `s` can come to; an earlier drain that raised may have left Runs undispatched. */
  function Limit(w: Terms, s: Sys): int {
    var most := Bound(w) + |Undispatched(s, w.at.host)|;
    if Load(s, w.at.host) <= most then most else Load(s, w.at.host)
  }

  /** What holds at every point of a drain that began with the Runs in `left` undispatched. */
  ghost predicate Within(w: Terms, s: Sys, p: Point, left: set<JobId>, limit: int) {
    && Load(s, w.at.host) <= limit && |p.active| <= w.concurrency
    && Undispatched(s, w.at.host) <= Elements(p.active) + left
    && (p.pc.Claiming? ==> |p.active| < w.concurrency && Load(s, w.at.host) <= w.maxInFlight - 1 + |p.active| + |left|)
    && (p.pc.Recovering? || p.pc == Over(PassRaised) || p.pc == Over(Finished) ==> p.active == [])
    && (p.pc == Over(Raised) ==> p.active != [] && Raises(s, p.active[0]))
    && (p.pc.Over? ==> p.pc.end.PassRaised? || p.pc.end.Finished? || p.pc.end.Raised?)
  }

  /** Fewer than `maxInFlight` active, all other futures possibly undispatched. */
  lemma RoomToClaim(w: Terms, s: Sys, p: Point, left: set<JobId>)
    requires Undispatched(s, w.at.host) <= Elements(p.active) + left && |ActiveFor(s.db, w.at.host)| < w.maxInFlight
    ensures Load(s, w.at.host) <= w.maxInFlight - 1 + |p.active| + |left|
  {
    SubsetCount(Undispatched(s, w.at.host), Elements(p.active) + left);
    UnionCount(Elements(p.active), left);
    ElementsCount(p.active);
  }

  lemma ClaimStaysWithin(cfg: Config, w: Terms, s: Sys, p: Point, j: JobId, left: set<JobId>, limit: int)
    requires Enabled(cfg, s, ClaimRun(j, Supervised, Some(w.at))) && p.pc.Claiming?
    requires Bound(w) + |left| <= limit && Within(w, s, p, left, limit)
    ensures Within(w, DoClaimRun(s, j, Supervised, Some(w.at)),
                   p.(i := p.i + 1, active := p.active + [j], pc := Checking), left, limit)
  {
    ClaimRaisesLoadByOne(cfg, s, j, w.at);
    assert Elements(p.active + [j]) == Elements(p.active) + {j};
  }

  /** What happens between two Store calls that write. */
  lemma LookStaysWithin(w: Terms, b: Behavior, p: Point, q: Point, left: set<JobId>, limit: int)
    requires |b.states| == |b.steps| + 1 && p.i <= |b.steps| && q.i == p.i && GoesOn(w, b, p, q)
    requires Within(w, b.states[p.i], p, left, limit)
    ensures Within(w, b.states[p.i], q, left, limit)
  {
    var s := b.states[p.i];
    match p.pc {
      case Recovering =>
      case Checking =>
        if q.pc.Claiming? { RoomToClaim(w, s, p, left); }
      case Full =>
      case Claiming =>
      case Joining =>
        if p.active != [] { assert Elements(p.active) == {p.active[0]} + Elements(p.active[1..]); }
      case Over(_) =>
    }
  }

  /** What one step of the run does to where the drain stands. */
  ghost predicate Stepped(w: Terms, s: Sys, step: Step, p: Point, q: Point) {
    if Owns(WorkerOf(w.at.host), step) then
      && p.pc.Claiming? && step.job in Queued(s.db) && step == ClaimRun(step.job, Supervised, Some(w.at))
      && q == p.(i := p.i + 1, active := p.active + [step.job], pc := Checking)
    else
      !p.pc.Over? && (q == p.(i := p.i + 1) || (p.pc.Recovering? && q == p.(i := p.i + 1, pc := Checking)))
  }

  lemma ByClaimOrOther(w: Terms, b: Behavior, p: Point, q: Point)
    requires |b.states| == |b.steps| + 1 && p.i < |b.steps| && q.i == p.i + 1
    requires GoesOn(w, b, p, q) || Waits(w, b, p, q)
    ensures Stepped(w, b.states[p.i], b.steps[p.i], p, q)
  {
  }

  lemma OtherStaysWithin(w: Terms, s: Sys, s': Sys, p: Point, q: Point, left: set<JobId>, limit: int)
    requires Within(w, s, p, left, limit) && !p.pc.Over? && q.active == p.active
    requires q.pc == p.pc || (p.pc.Recovering? && q.pc.Checking?)
    requires Load(s', w.at.host) <= Load(s, w.at.host) && Undispatched(s', w.at.host) <= Undispatched(s, w.at.host)
    ensures Within(w, s', q, left, limit)
  {
  }

  lemma StepStaysWithin(b: Behavior, w: Terms, p: Point, q: Point, left: set<JobId>, limit: int)
    requires b.Valid() && p.i < |b.steps| && Stepped(w, b.states[p.i], b.steps[p.i], p, q)
    requires Bound(w) + |left| <= limit && Within(w, b.states[p.i], p, left, limit)
    ensures Within(w, b.states[q.i], q, left, limit)
  {
    assert b.Takes(p.i);
    if Owns(WorkerOf(w.at.host), b.steps[p.i]) {
      ClaimStaysWithin(b.cfg, w, b.states[p.i], p, b.steps[p.i].job, left, limit);
    } else {
      StepKeepsLoad(b, p.i, w.at.host);
      OtherStaysWithin(w, b.states[p.i], b.states[q.i], p, q, left, limit);
    }
  }

  lemma NextWithin(d: DrainRun, n: nat, left: set<JobId>, limit: int)
    requires d.Valid() && n + 1 < |d.points|
    requires Bound(d.w) + |left| <= limit && Within(d.w, d.b.states[d.points[n].i], d.points[n], left, limit)
    ensures Within(d.w, d.b.states[d.points[n + 1].i], d.points[n + 1], left, limit)
  {
    var p, q := d.points[n], d.points[n + 1];
    assert d.Moves(n);
    if q.i == p.i {
      LookStaysWithin(d.w, d.b, p, q, left, limit);
    } else {
      ByClaimOrOther(d.w, d.b, p, q);
      StepStaysWithin(d.b, d.w, p, q, left, limit);
    }
  }

  lemma {:induction false} AlwaysWithin(d: DrainRun, n: nat)
    requires d.Valid() && n < |d.points|
    ensures var s := d.b.states[d.From()];
            Within(d.w, d.b.states[d.points[n].i], d.points[n], Undispatched(s, d.w.at.host), Limit(d.w, s))
  {
    if 0 < n {
      AlwaysWithin(d, n - 1);
      var s := d.b.states[d.From()];
      NextWithin(d, n - 1, Undispatched(s, d.w.at.host), Limit(d.w, s));
    }
  }

  /** A drain is at a point in every state of its run. */
  lemma {:induction false} SomePoint(d: DrainRun, n: nat, i: nat) returns (m: nat)
    requires d.Valid() && n < |d.points| && d.From() <= i <= d.points[n].i
    ensures m <= n && d.points[m].i == i
  {
    if d.points[n].i == i { return n; }
    assert d.Moves(n - 1);
    m := SomePoint(d, n - 1, i);
  }

  /** No drain exceeds its limit, in any state. */
  lemma DrainStaysWithin(d: DrainRun)
    requires d.Valid()
    ensures LoadWithin(d.b, d.From(), |d.b.steps|, d.w.at.host, Limit(d.w, d.b.states[d.From()]))
  {
    forall i | d.From() <= i <= |d.b.steps|
      ensures Load(d.b.states[i], d.w.at.host) <= Limit(d.w, d.b.states[d.From()])
    {
      var n := SomePoint(d, |d.points| - 1, i);
      AlwaysWithin(d, n);
    }
  }

  // ---------------------------------------------------------------- what a drain has done

  /** The Run that the step claims for the host, if it claims one. */
  function ClaimOf(step: Step, host: HostId): multiset<JobId> {
    if Owns(WorkerOf(host), step) then multiset{step.job} else multiset{}
  }

  /** The Runs claimed for the host between two states of a run. */
  ghost function Claimed(b: Behavior, from: nat, to: nat, host: HostId): multiset<JobId>
    requires to <= |b.steps|
  {
    if to <= from then multiset{}
    else
      Claimed(b, from, to - 1, host) + ClaimOf(b.steps[to - 1], host)
  }

  lemma {:induction false} ClaimedSame(b: Behavior, c: Behavior, from: nat, to: nat, host: HostId)
    requires Continues(b, c) && to <= |b.steps|
    ensures Claimed(c, from, to, host) == Claimed(b, from, to, host)
  {
    if from < to { ClaimedSame(b, c, from, to - 1, host); }
  }

  lemma {:induction false} ClaimedJoined(b: Behavior, c: Behavior, from: nat, to: nat, host: HostId)
    requires Continues(b, c) && from <= |b.steps| <= to <= |c.steps|
    ensures Claimed(c, from, to, host) == Claimed(b, from, |b.steps|, host) + Claimed(c, |b.steps|, to, host)
  {
    if to == |b.steps| { ClaimedSame(b, c, from, to, host); } else { ClaimedJoined(b, c, from, to - 1, host); }
  }

  lemma {:induction false} OthersClaimNone(b: Behavior, from: nat, to: nat, host: HostId)
    requires to <= |b.steps| && forall i :: from <= i < to ==> !Owns(WorkerOf(host), b.steps[i])
    ensures Claimed(b, from, to, host) == multiset{}
  {
    if from < to { OthersClaimNone(b, from, to - 1, host); }
  }

  /** The Runs claimed are accounted for, the completed ones are over, and there are not too many. */
  ghost predicate Accounted(w: Terms, s: Sys, p: Point, claimed: multiset<JobId>) {
    && p.completed + multiset(p.active) == claimed
    && (forall j :: j in claimed ==> j in s.execs)
    && (forall j :: j in p.completed ==> j !in Undispatched(s, w.at.host))
    && (w.maxJobs.Some? ==> |p.completed| + |p.active| <= w.maxJobs.value)
    && (p.pc.Claiming? && w.maxJobs.Some? ==> |p.completed| + |p.active| < w.maxJobs.value)
  }

  /** An executor is never forgotten. */
  lemma ExecutorsStay(cfg: Config, s: Sys, step: Step)
    requires Enabled(cfg, s, step)
    ensures s.execs.Keys <= Next(cfg, s, step).execs.Keys
  {
  }

  /** A claimed Run never had an executor before. */
  lemma ClaimIsFirst(b: Behavior, i: nat)
    requires b.Valid() && i < |b.steps| && !b.cfg.local && b.steps[i].ClaimRun?
    requires b.steps[i].job in Queued(b.states[i].db)
    ensures b.steps[i].job !in b.states[i].execs && b.steps[i].job in b.states[i + 1].execs
  {
    AlwaysStarts(b, i);
    assert b.Takes(i);
    assert b.steps[i].job in b.states[i].execs ==> ExecutorKnown(b.cfg, b.states[i], b.steps[i].job);
  }

  lemma TakenOut(completed: multiset<JobId>, active: multiset<JobId>, rest: multiset<JobId>)
    requires rest <= active
    ensures completed + (active - rest) + rest == completed + active
    ensures |completed + (active - rest)| + |rest| == |completed| + |active|
  {
    assert active - rest + rest == active;
  }

  /** The futures that are done are taken out. */
  lemma AccountedWithout(w: Terms, s: Sys, p: Point, q: Point, claimed: multiset<JobId>)
    requires Accounted(w, s, p, claimed)
    requires q == p.(active := q.active, completed := q.completed, pc := Checking) && q.active == Alive(s, p.active)
    requires q.completed == p.completed + (multiset(p.active) - multiset(q.active))
    ensures Accounted(w, s, q, claimed)
  {
    AliveAmong(s, p.active);
    DoneRest(s, p.active);
    TakenOut(p.completed, multiset(p.active), multiset(q.active));
    forall j | j in q.completed ensures j !in Undispatched(s, w.at.host) {
      assert j in p.completed || j in multiset(p.active) - multiset(q.active);
    }
  }

  /** The first future is done. */
  lemma AccountedWithFirst(w: Terms, s: Sys, p: Point, q: Point, claimed: multiset<JobId>)
    requires Accounted(w, s, p, claimed) && p.active != [] && Ready(s, p.active[0]) && !p.pc.Claiming?
    requires q == p.(active := p.active[1..], completed := p.completed + multiset{p.active[0]})
    ensures Accounted(w, s, q, claimed)
  {
    assert p.active == [p.active[0]] + p.active[1..];
  }

  lemma AccountedAtOnce(w: Terms, b: Behavior, p: Point, q: Point, claimed: multiset<JobId>)
    requires |b.states| == |b.steps| + 1 && p.i <= |b.steps| && q.i == p.i && GoesOn(w, b, p, q)
    requires Accounted(w, b.states[p.i], p, claimed)
    ensures Accounted(w, b.states[p.i], q, claimed)
  {
    var s := b.states[p.i];
    match p.pc {
      case Full => AccountedWithout(w, s, p, q, claimed);
      case Joining => if p.active != [] && q.active != p.active { AccountedWithFirst(w, s, p, q, claimed); }
      case Recovering =>
      case Checking =>
      case Claiming =>
      case Over(_) =>
    }
  }

  lemma {:induction false} AliveAmong(s: Sys, active: seq<JobId>)
    ensures multiset(Alive(s, active)) <= multiset(active)
  {
    if active != [] {
      AliveAmong(s, active[1..]);
      assert active == [active[0]] + active[1..];
    }
  }

  /** What is taken out is done. */
  lemma {:induction false} DoneRest(s: Sys, active: seq<JobId>)
    ensures forall j :: j in multiset(active) - multiset(Alive(s, active)) ==> Done(s, j)
  {
    if active != [] {
      AliveAmong(s, active[1..]);
      DoneRest(s, active[1..]);
      assert active == [active[0]] + active[1..];
    }
  }

  lemma AccountedByClaim(w: Terms, s: Sys, s': Sys, p: Point, q: Point, j: JobId, claimed: multiset<JobId>)
    requires Accounted(w, s, p, claimed) && p.pc.Claiming?
    requires q == p.(i := p.i + 1, active := p.active + [j], pc := Checking)
    requires s.execs.Keys + {j} <= s'.execs.Keys && j !in s.execs
    requires Undispatched(s', w.at.host) <= Undispatched(s, w.at.host) + {j}
    ensures Accounted(w, s', q, claimed + multiset{j})
  {
    assert multiset(q.active) == multiset(p.active) + multiset{j};
    assert forall i :: i in p.completed ==> i in claimed;
  }

  lemma AccountedByOther(w: Terms, s: Sys, s': Sys, p: Point, q: Point, claimed: multiset<JobId>)
    requires Accounted(w, s, p, claimed) && s.execs.Keys <= s'.execs.Keys
    requires Undispatched(s', w.at.host) <= Undispatched(s, w.at.host)
    requires q.active == p.active && q.completed == p.completed && (q.pc == p.pc || q.pc.Checking?)
    ensures Accounted(w, s', q, claimed)
  {
  }

  lemma AccountedByStep(b: Behavior, w: Terms, p: Point, q: Point, claimed: multiset<JobId>)
    requires b.Valid() && !b.cfg.local && p.i < |b.steps| && Stepped(w, b.states[p.i], b.steps[p.i], p, q)
    requires Accounted(w, b.states[p.i], p, claimed)
    ensures Accounted(w, b.states[q.i], q, claimed + ClaimOf(b.steps[p.i], w.at.host))
  {
    var s, s', step := b.states[p.i], b.states[q.i], b.steps[p.i];
    assert b.Takes(p.i);
    ExecutorsStay(b.cfg, s, step);
    if Owns(WorkerOf(w.at.host), step) {
      ClaimIsFirst(b, p.i);
      ClaimRaisesLoadByOne(b.cfg, s, step.job, w.at);
      AccountedByClaim(w, s, s', p, q, step.job, claimed);
    } else {
      StepKeepsLoad(b, p.i, w.at.host);
      AccountedByOther(w, s, s', p, q, claimed);
      assert claimed + multiset{} == claimed;
    }
  }

  /** What a drain has claimed by its point `n`. */
  ghost function ClaimedBy(d: DrainRun, n: nat): multiset<JobId>
    requires d.Valid() && n < |d.points|
  {
    Claimed(d.b, d.From(), d.points[n].i, d.w.at.host)
  }

  lemma {:induction false} NeverGoesBack(d: DrainRun, n: nat)
    requires d.Valid() && n < |d.points|
    ensures d.From() <= d.points[n].i
  {
    if 0 < n {
      NeverGoesBack(d, n - 1);
      assert d.Moves(n - 1);
    }
  }

  lemma ClaimedByNext(d: DrainRun, n: nat)
    requires d.Valid() && n + 1 < |d.points|
    ensures var p, q := d.points[n], d.points[n + 1];
            if q.i == p.i then ClaimedBy(d, n + 1) == ClaimedBy(d, n)
            else
              && q.i == p.i + 1
              && ClaimedBy(d, n + 1) == ClaimedBy(d, n) + ClaimOf(d.b.steps[p.i], d.w.at.host)
  {
    assert d.Moves(n);
    NeverGoesBack(d, n);
  }

  lemma AccountedNext(d: DrainRun, n: nat)
    requires d.Valid() && n + 1 < |d.points|
    requires Accounted(d.w, d.b.states[d.points[n].i], d.points[n], ClaimedBy(d, n))
    ensures Accounted(d.w, d.b.states[d.points[n + 1].i], d.points[n + 1], ClaimedBy(d, n + 1))
  {
    var p, q, claimed := d.points[n], d.points[n + 1], ClaimedBy(d, n);
    assert d.Moves(n);
    ClaimedByNext(d, n);
    if q.i == p.i {
      AccountedAtOnce(d.w, d.b, p, q, claimed);
    } else {
      ByClaimOrOther(d.w, d.b, p, q);
      AccountedByStep(d.b, d.w, p, q, claimed);
    }
  }

  lemma {:induction false} AlwaysAccounted(d: DrainRun, n: nat)
    requires d.Valid() && n < |d.points|
    ensures Accounted(d.w, d.b.states[d.points[n].i], d.points[n], ClaimedBy(d, n))
  {
    if 0 < n {
      AlwaysAccounted(d, n - 1);
      AccountedNext(d, n - 1);
    }
  }

  /**
   * A drain that finished returns exactly the Runs it claimed, at most `maxJobs`, none of them still undispatched; one
   * that raised, on what an executor raised or on a cancelled future, lost sight of the Runs still active, the first of
   * them the one it raised on. Only the last loop asks a future for its result: a Run whose future had ended in either
   * way when the drain waited for a free slot is returned as completed.
   */
  lemma CompletedAreClaimed(d: DrainRun)
    requires d.Valid()
    ensures var claimed := Claimed(d.b, d.From(), |d.b.steps|, d.w.at.host);
            && d.End().completed + multiset(d.End().active) == claimed
            && (d.End().pc == Over(Finished) ==> d.End().completed == claimed)
    ensures d.End().pc == Over(Raised) ==> d.End().active != [] && Raises(d.Now(), d.End().active[0])
    ensures forall j :: j in d.End().completed ==> j !in Undispatched(d.Now(), d.w.at.host)
    ensures d.w.maxJobs.Some? ==> |d.End().completed| <= d.w.maxJobs.value
  {
    AlwaysAccounted(d, |d.points| - 1);
    AlwaysWithin(d, |d.points| - 1);
  }

  // ---------------------------------------------------------------- how a drain ends

  /** `result()` returns. */
  predicate Returns(s: Sys, j: JobId) { j in s.execs && s.execs[j].stage == Ended(true) }

  lemma ReturnsNext(b: Behavior, i: nat, j: JobId)
    requires b.Valid() && i < |b.steps| && Returns(b.states[i], j)
    ensures Returns(b.states[i + 1], j)
  {
    assert b.Takes(i);
    assert !(ExecutorStep(b.steps[i]) && b.steps[i].job == j);
    ForeignStepKeepsExecutor(b, i, j);
  }

  lemma {:induction false} ReturnsLater(b: Behavior, i: nat, l: nat, j: JobId)
    requires b.Valid() && i <= l <= |b.steps| && Returns(b.states[i], j)
    ensures Returns(b.states[l], j)
  {
    if i < l {
      ReturnsLater(b, i, l - 1, j);
      ReturnsNext(b, l - 1, j);
    }
  }

  predicate InLastLoop(pc: Pc) { pc.Joining? || pc == Over(Finished) || pc == Over(Raised) }

  /** From the last loop's first point `m` to point `n`, `r` futures have been asked, and returned. */
  ghost predicate AskedUpTo(d: DrainRun, m: nat, n: nat, r: nat)
    requires d.Valid() && m <= n < |d.points|
  {
    var s, p, q := d.b.states[d.points[n].i], d.points[m], d.points[n];
    && p.pc.Joining? && r <= |p.active| && q.active == p.active[r..]
    && q.completed == p.completed + multiset(p.active[..r])
    && (forall i :: 0 <= i < r ==> Returns(s, p.active[i]))
    && (q.pc == Over(Finished) ==> r == |p.active|)
    && (q.pc == Over(Raised) ==> r < |p.active| && Raises(s, p.active[r]))
  }

  ghost predicate AllKnown(s: Sys, active: seq<JobId>) { forall j :: j in active ==> j in s.execs }

  /** What one point of the last loop does to the next. */
  lemma AskedFurther(d: DrainRun, m: nat, n: nat, r: nat) returns (r': nat)
    requires d.Valid() && m < n < |d.points| && AskedUpTo(d, m, n - 1, r)
    requires d.points[n - 1].pc.Joining? && InLastLoop(d.points[n].pc)
    requires AllKnown(d.b.states[d.points[n - 1].i], d.points[n - 1].active)
    ensures AskedUpTo(d, m, n, r')
  {
    var p, q, a := d.points[n - 1], d.points[n], d.points[m].active;
    assert d.Moves(n - 1);
    forall i | 0 <= i < r ensures Returns(d.b.states[q.i], a[i]) {
      ReturnsLater(d.b, p.i, q.i, a[i]);
    }
    r' := r;
    if q.active != p.active {
      r' := r + 1;
      assert a[r..][0] == a[r] && a[r..][1..] == a[r + 1..];
      assert a[..r + 1] == a[..r] + [a[r]];
      assert a[r] in p.active;
    }
  }

  /** Where the last loop began, and how many futures it has asked. */
  lemma {:induction false} AskedSoFar(d: DrainRun, n: nat) returns (m: nat, r: nat)
    requires d.Valid() && n < |d.points| && InLastLoop(d.points[n].pc)
    ensures 0 < m <= n && !InLastLoop(d.points[m - 1].pc) && AskedUpTo(d, m, n, r)
  {
    assert d.Moves(n - 1);
    if d.points[n - 1].pc.Joining? {
      m, r := AskedSoFar(d, n - 1);
      AlwaysAccounted(d, n - 1);
      var active := d.points[n - 1].active;
      assert forall j :: j in active ==> j in multiset(active);
      r := AskedFurther(d, m, n, r);
    } else {
      m, r := n, 0;
    }
  }

  /**
   * A drain that is over asked the futures that were active when its last loop began (at point `m`), in the order they
   * were claimed: it finished exactly if all of them return, and else raised on the first that does not, having
   * returned the ones before it.
   */
  lemma LastLoopDecides(d: DrainRun) returns (m: nat, r: nat)
    requires d.Valid() && (d.End().pc == Over(Finished) || d.End().pc == Over(Raised))
    ensures 0 < m < |d.points| && d.points[m].pc.Joining? && !d.points[m - 1].pc.Joining?
    ensures var active := d.points[m].active;
            && r <= |active| && (forall i :: 0 <= i < r ==> Returns(d.Now(), active[i]))
            && (r < |active| ==> Raises(d.Now(), active[r]))
            && (d.End().pc == Over(Finished) <==> forall j :: j in active ==> Returns(d.Now(), j))
            && d.End().completed == d.points[m].completed + multiset(active[..r])
  {
    m, r := AskedSoFar(d, |d.points| - 1);
    var active := d.points[m].active;
    if d.End().pc == Over(Finished) {
      assert active[..r] == active;
    } else {
      assert active[r] in active && !Returns(d.Now(), active[r]);
    }
  }

  /** No active delivery without a witness belongs to an ABANDONED Attempt: its capacity is free again. */
  ghost predicate CapacityReturned(db: Db) {
    forall e :: e in db.requests && db.requests[e].status.Active() && e !in db.witnesses ==>
      !(db.requests[e].key in db.attempts && db.attempts[db.requests[e].key].status.AttemptAbandoned?)
  }

  /** Past the release, a drain was past it just before, or releases now. */
  lemma ReleasedOrReleases(d: DrainRun, n: nat)
    requires d.Valid() && n + 1 < |d.points|
    requires !d.points[n + 1].pc.Recovering? && d.points[n + 1].pc != Over(PassRaised)
    ensures if d.points[n].pc.Recovering? then d.points[n + 1].pc.Checking? else d.points[n].pc != Over(PassRaised)
    ensures d.points[n].i <= d.points[n + 1].i
  {
    assert d.Moves(n);
  }

  /** Before its first claim a drain gives back the capacity of abandoned deliveries. */
  lemma {:induction false} ReleasesFirst(d: DrainRun, n: nat) returns (i: nat)
    requires d.Valid() && n < |d.points| && !d.points[n].pc.Recovering? && d.points[n].pc != Over(PassRaised)
    ensures d.From() < i <= d.points[n].i && CapacityReturned(d.b.states[i].db)
    ensures Claimed(d.b, d.From(), i, d.w.at.host) == multiset{}
  {
    ReleasedOrReleases(d, n - 1);
    if d.points[n - 1].pc.Recovering? {
      i := d.points[n].i;
      Releases(d, n - 1);
    } else {
      i := ReleasesFirst(d, n - 1);
    }
  }

  lemma Releases(d: DrainRun, n: nat)
    requires d.Valid() && n + 1 < |d.points| && d.points[n].pc.Recovering? && d.points[n + 1].pc.Checking?
    ensures d.From() < d.points[n + 1].i && CapacityReturned(d.b.states[d.points[n + 1].i].db)
    ensures ClaimedBy(d, n + 1) == multiset{}
  {
    assert d.Moves(n) && d.b.Takes(d.points[n].i);
    AlwaysAccounted(d, n);
    NeverGoesBack(d, n);
    NothingYet(d, n);
  }

  lemma {:induction false} NothingYet(d: DrainRun, n: nat)
    requires d.Valid() && n < |d.points| && d.points[n].pc.Recovering?
    ensures d.points[n].active == [] && d.points[n].completed == multiset{}
  {
    if 0 < n {
      assert d.Moves(n - 1);
      NothingYet(d, n - 1);
    }
  }

  // ---------------------------------------------------------------- one drain after the other

  /** What a drain may leave undispatched: nothing beyond what it found, unless it raised with other futures active. */
  lemma LeftBehind(d: DrainRun)
    requires d.Valid() && d.End().pc.Over?
    requires d.End().pc.end.Raised? ==> d.w.concurrency == 1
    ensures Undispatched(d.Now(), d.w.at.host) <= Undispatched(d.b.states[d.From()], d.w.at.host)
  {
    AlwaysWithin(d, |d.points| - 1);
    if d.End().pc.end.Raised? { assert Elements(d.End().active) == {d.End().active[0]}; }
  }

  /** `d'` begins after `d` is over, on the same terms up to `maxJobs`; in between the others act. */
  ghost predicate ComesAfter(d: DrainRun, d': DrainRun) {
    && d.Valid() && d'.Valid() && d'.w == d.w.(maxJobs := d'.w.maxJobs)
    && d.End().pc.Over? && Continues(d.b, d'.b) && |d.b.steps| <= d'.From()
    && forall i :: |d.b.steps| <= i < d'.From() ==> !Owns(WorkerOf(d.w.at.host), d'.b.steps[i])
  }

  /** Any number of drains of one worker, one after the other. */
  ghost predicate Successive(ds: seq<DrainRun>) {
    && ds != [] && ds[0].Valid() && ds[|ds| - 1].Valid()
    && (|ds| > 1 ==> Successive(ds[..|ds| - 1]) && ComesAfter(ds[|ds| - 2], ds[|ds| - 1]))
  }

  /** The drain did not raise with more than one future. */
  predicate Orderly(d: DrainRun) { d.points != [] && (d.End().pc == Over(Raised) ==> d.w.concurrency == 1) }

  /** Nothing undispatched, and within the bound. */
  ghost predicate Clean(w: Terms, s: Sys) { Undispatched(s, w.at.host) == {} && Load(s, w.at.host) <= Bound(w) }

  /** A drain that did not raise with more than one future leaves a state the next one may begin in. */
  lemma CleanAfter(d: DrainRun, d': DrainRun)
    requires ComesAfter(d, d') && Orderly(d) && Clean(d.w, d.b.states[d.From()])
    ensures Clean(d'.w, d'.b.states[d'.From()])
    ensures LoadWithin(d'.b, d.From(), d'.From(), d.w.at.host, Bound(d.w))
  {
    var n := |d.b.steps|;
    DrainStaysWithin(d);
    LeftBehind(d);
    OthersKeepLoad(d'.b, n, d'.From(), d.w.at.host);
    forall i | d.From() <= i <= d'.From() ensures Load(d'.b.states[i], d.w.at.host) <= Bound(d.w) {
      assert i <= n ==> d'.b.states[i] == d.b.states[i];
    }
  }

  /**
   * Over any number of successive drains, the others acting between and during them, active deliveries plus
   * claimed-but-undispatched Runs never exceed maxInFlight + concurrency - 1, in any state, unless an earlier drain
   * raised while it had more than one future.
   */
  lemma {:induction false} SuccessiveDrainsStayWithin(ds: seq<DrainRun>)
    requires Successive(ds) && Clean(ds[0].w, ds[0].b.states[ds[0].From()])
    requires forall d :: d in ds[..|ds| - 1] ==> Orderly(d)
    ensures var d := ds[|ds| - 1];
            && Clean(d.w, d.b.states[d.From()]) && ds[0].From() <= d.From() && d.w == ds[0].w.(maxJobs := d.w.maxJobs)
            && LoadWithin(d.b, ds[0].From(), |d.b.steps|, d.w.at.host, Bound(d.w))
  {
    var d := ds[|ds| - 1];
    DrainStaysWithin(d);
    if 1 < |ds| {
      var c, prior := ds[|ds| - 2], ds[..|ds| - 1];
      assert forall e :: e in prior[..|prior| - 1] ==> e in prior;
      SuccessiveDrainsStayWithin(prior);
      CleanAfter(c, d);
      forall i | ds[0].From() <= i <= |d.b.steps| ensures Load(d.b.states[i], d.w.at.host) <= Bound(d.w) {
        assert i <= c.From() ==> d.b.states[i] == c.b.states[i];
      }
    }
  }
}
