/** The polling worker: recovery first, then the bounded claim-and-dispatch loop, again and again (worker.py). */
module Worker {
  import opened Prelude
  import opened Tables
  import opened StoreOps
  import opened History
  import opened Protocol
  import opened StoreObject
  import opened Dispatch
  import opened ClusterObject
  import opened Draining

  /** One scan of `serve`: what the others do during the drain and after it, and whether its recovery pass raises. */
  datatype Scan = Scan(turns: seq<seq<Step>>, recoveryRaises: bool, pause: seq<Step>)

  /**
   * `InvalidPoll` is the ValueError of a poll interval that is not positive; a drain that did not finish ends `serve`.
   */
  datatype ServeEnd = InvalidPoll | Stopped | DrainEnded(end: DrainEnd)

  class PostgresWorker {
    const cluster: Cluster
    const at: HostRef          // the Host Agent session this worker executes for
    const maxInFlight: nat

    constructor (cluster: Cluster, at: HostRef, maxInFlight: nat)
      ensures this.cluster == cluster && this.at == at && this.maxInFlight == maxInFlight
    {
      this.cluster, this.at, this.maxInFlight := cluster, at, maxInFlight;
    }

    ghost predicate Ready()
      reads this, cluster, cluster.store
    {
      cluster.Valid() && cluster.store.kind.Postgres? && !cluster.log.cfg.local
    }

    function TermsOf(maxJobs: Option<nat>, concurrency: nat): Terms { Terms(at, maxInFlight, maxJobs, concurrency) }

    /** The drain `d` is this worker's, and has come to where the run is now. */
    ghost predicate At(d: DrainRun, active: seq<JobId>, completed: multiset<JobId>, pc: Pc)
      reads this, cluster
    {
      d.Valid() && d.b == cluster.log && d.w.at == at && d.w.maxInFlight == maxInFlight
      && d.End() == Point(|cluster.log.steps|, active, completed, pc)
    }

    /** The others take the next turn, if any is left. */
    method Yield(turns: seq<seq<Step>>, t: nat, ghost d: DrainRun) returns (t': nat, ghost d': DrainRun)
      requires Ready() && t <= |turns| && d.points != [] && !d.End().pc.Over?
      requires At(d, d.End().active, d.End().completed, d.End().pc)
      modifies cluster, cluster.store
      ensures Ready() && Continues(old(cluster.log), cluster.log)
      ensures t' == (if t < |turns| then t + 1 else t) && (t == |turns| ==> cluster.log == old(cluster.log))
      ensures Follows(d, d') && At(d', d.End().active, d.End().completed, d.End().pc)
    {
      t' := t;
      if t < |turns| {
        cluster.Others(turns[t], WorkerOf(at.host));
        t' := t + 1;
      }
      d' := LetsAll(d, cluster.log);
    }

    /** The recovery pass runs among the others' steps of the first turn; then terminal deliveries are released. */
    method RecoverAndRelease(turns: seq<seq<Step>>, ghost d: DrainRun) returns (t: nat, ghost d': DrainRun)
      requires Ready() && At(d, [], multiset{}, Recovering)
      modifies cluster, cluster.store
      ensures Ready() && Continues(old(cluster.log), cluster.log)
      ensures Follows(d, d') && At(d', [], multiset{}, Checking) && t <= |turns|
    {
      ghost var d1;
      t, d1 := Yield(turns, 0, d);
      d' := Release(d1);
    }

    method Release(ghost d: DrainRun) returns (ghost d': DrainRun)
      requires Ready() && At(d, [], multiset{}, Recovering)
      modifies cluster, cluster.store
      ensures Ready() && Continues(old(cluster.log), cluster.log)
      ensures Follows(d, d') && At(d', [], multiset{}, Checking)
    {
      cluster.store.ReleaseTerminalExecutionRequests();
      d' := Takes(d, Bystander(OpReleaseTerminal), d.End().(i := |cluster.log.steps| + 1, pc := Checking));
      cluster.Took(Bystander(OpReleaseTerminal));
    }

    /** Block until some future is done, or the observed schedule ends; then take out all that are done. */
    method WaitForOne(turns: seq<seq<Step>>, t0: nat, active0: seq<JobId>, completed0: multiset<JobId>,
                      ghost d0: DrainRun)
      returns (active: seq<JobId>, completed: multiset<JobId>, pc: Pc, t: nat, ghost d: DrainRun)
      requires Ready() && At(d0, active0, completed0, Full) && t0 <= |turns| && active0 != []
      modifies cluster, cluster.store
      ensures Ready() && Continues(old(cluster.log), cluster.log) && t0 <= t <= |turns|
      ensures Follows(d0, d) && At(d, active, completed, pc)
      ensures (pc.Checking? && |active| < |active0|)
              || (pc.Full? && t == |turns| && WaitsOnFuture(cluster.Now(), d.End()))
      ensures t0 == |turns| ==> cluster.log == old(cluster.log)
    {
      active, completed, pc, t, d := active0, completed0, Full, t0, d0;
      while |Alive(cluster.Now(), active)| == |active| && t < |turns|
        invariant Ready() && Continues(old(cluster.log), cluster.log) && t0 <= t <= |turns|
        invariant Follows(d0, d) && At(d, active, completed, Full)
        invariant t0 == |turns| ==> cluster.log == old(cluster.log)
        decreases |turns| - t
      {
        t, d := Yield(turns, t, d);
      }
      var rest := Alive(cluster.Now(), active);
      if |rest| < |active| {
        ghost var p := d.End();
        completed, active, pc := completed + (multiset(active) - multiset(rest)), rest, Checking;
        d := Looks(d, p.(active := active, completed := completed, pc := Checking));
      } else {
        AllAlive(cluster.Now(), active);
      }
    }

    /** Claim the oldest queued Run and hand it to an executor thread. */
    method ClaimAndDispatch(active0: seq<JobId>, completed: multiset<JobId>, ghost d0: DrainRun)
      returns (active: seq<JobId>, pc: Pc, ghost d: DrainRun)
      requires Ready() && At(d0, active0, completed, Claiming)
      modifies cluster, cluster.store
      ensures Ready() && Continues(old(cluster.log), cluster.log)
      ensures Follows(d0, d) && At(d, active, completed, pc) && (pc.Checking? || pc.Joining?)
      ensures pc.Checking? ==> |Queued(cluster.Now().db)| < |Queued(old(cluster.Now()).db)|
    {
      ghost var s, p := cluster.Now(), d0.End();
      var claimed := cluster.store.ClaimNextRun(cluster.Now().now);
      if claimed.None? {
        active, pc := active0, Joining;
        assert Queued(s.db) == {};
        d := Looks(d0, p.(pc := Joining));
      } else {
        active, pc := active0 + [claimed.value], Checking;
        assert Oldest(s.db, claimed.value);
        d := Takes(d0, ClaimRun(claimed.value, Supervised, Some(at)),
          p.(i := p.i + 1, active := active, pc := Checking));
        cluster.Took(ClaimRun(claimed.value, Supervised, Some(at)));
        assert Queued(cluster.Now().db) == Queued(s.db) - {claimed.value};
      }
    }

    /** What is left to do for a drain to which nobody gives anything new: Runs to claim, futures to take out. */
    predicate Less(s: Sys, s': Sys, active: seq<JobId>, active': seq<JobId>) {
      |Queued(s'.db)| < |Queued(s.db)| || (s' == s && |active'| < |active|)
    }

    /**
     * One iteration of the claim loop: stop at capacity, wait at full concurrency, or claim one more Run. It ends
     * waiting only for a future that has not ended when the others' last turn is over.
     */
    method Round(concurrency: nat, turns: seq<seq<Step>>, t0: nat, active0: seq<JobId>, completed0: multiset<JobId>,
                 ghost d0: DrainRun)
      returns (active: seq<JobId>, completed: multiset<JobId>, pc: Pc, t: nat, ghost d: DrainRun)
      requires Ready() && t0 <= |turns| && At(d0, active0, completed0, Checking)
      requires !ReachedMax(d0.w, d0.End()) && d0.w.concurrency == concurrency && 1 <= concurrency
      modifies cluster, cluster.store
      ensures Ready() && Continues(old(cluster.log), cluster.log) && t0 <= t <= |turns| && (t0 < |turns| ==> t0 < t)
      ensures Follows(d0, d) && At(d, active, completed, pc)
      ensures pc.Checking? || pc.Joining?
              || (pc.Full? && t == |turns| && WaitsOnFuture(cluster.Now(), d.End()))
      ensures t0 == |turns| && pc.Checking? ==> Less(old(cluster.Now()), cluster.Now(), active0, active)
    {
      active, completed := active0, completed0;
      t, d := Yield(turns, t0, d0);
      ghost var p := d.End();
      var outstanding := cluster.store.CountActiveExecutionRequests(at.host);
      if outstanding >= maxInFlight {
        pc := Joining;
        d := Looks(d, p.(pc := Joining));
      } else if |active| >= concurrency {
        d := Looks(d, p.(pc := Full));
        active, completed, pc, t, d := WaitForOne(turns, t, active, completed, d);
      } else {
        d := Looks(d, p.(pc := Claiming));
        t, d := Yield(turns, t, d);
        active, pc, d := ClaimAndDispatch(active, completed, d);
      }
    }

    /**
     * Wait for what is still active, one future after the other; the first that raised ends the drain, and so does the
     * first that was cancelled.
     */
    method Join(turns: seq<seq<Step>>, t0: nat, active0: seq<JobId>, completed0: multiset<JobId>, ghost d0: DrainRun)
      returns (completed: multiset<JobId>, end: DrainEnd, t: nat, ghost d: DrainRun)
      requires Ready() && At(d0, active0, completed0, Joining) && t0 <= |turns|
      modifies cluster, cluster.store
      ensures Ready() && Continues(old(cluster.log), cluster.log) && Follows(d0, d) && d.b == cluster.log
      ensures Ended(d, completed, end) && (end.Finished? || end.Raised? || end.StillWaiting?) && t0 <= t <= |turns|
      ensures end.StillWaiting? ==> t == |turns| && WaitsOnFuture(cluster.Now(), d.End())
    {
      completed, t, d := completed0, t0, d0;
      var active := active0;
      while active != []
        invariant Ready() && Continues(old(cluster.log), cluster.log)
        invariant Follows(d0, d) && At(d, active, completed, Joining) && t0 <= t <= |turns|
        decreases |active|, |turns| - t
      {
        var j := active[0];
        ghost var p := d.End();
        if !Draining.Ready(cluster.Now(), j) {
          if t >= |turns| { return completed, StillWaiting, t, d; }
          t, d := Yield(turns, t, d);
        } else if Raises(cluster.Now(), j) {
          d := Looks(d, p.(pc := Over(Raised)));
          return completed, Raised, t, d;
        } else {
          active, completed := active[1..], completed + multiset{j};
          d := Looks(d, p.(active := active, completed := completed));
        }
      }
      end := Finished;
      d := Looks(d, d.End().(pc := Over(Finished)));
    }

    /** How a drain ended, if it did, and what it returns. */
    ghost predicate Ended(d: DrainRun, completed: multiset<JobId>, end: DrainEnd) {
      && d.points != [] && d.End().completed == completed
      && if end.StillWaiting? then !d.End().pc.Over? else d.End().pc == Over(end)
    }

    /** The drain itself: a `DrainRun` in every detail. */
    method RunDrain(maxJobs: Option<nat>, concurrency: nat, turns: seq<seq<Step>>, recoveryRaises: bool)
      returns (completed: multiset<JobId>, end: DrainEnd, t: nat, ghost d: DrainRun)
      requires Ready() && 1 <= concurrency
      modifies cluster, cluster.store
      ensures Ready() && Continues(old(cluster.log), cluster.log)
      ensures Follows(Begun(TermsOf(maxJobs, concurrency), old(cluster.log)), d) && d.b == cluster.log
      ensures Ended(d, completed, end) && !end.InvalidConcurrency? && (end.PassRaised? <==> recoveryRaises)
      ensures end.StillWaiting? ==> t == |turns| && WaitsOnFuture(cluster.Now(), d.End())
    {
      completed, t := multiset{}, 0;
      ghost var d0 := Begun(TermsOf(maxJobs, concurrency), cluster.log);
      if recoveryRaises {
        d := Looks(d0, d0.End().(pc := Over(PassRaised)));
        return completed, PassRaised, t, d;
      }
      t, d := RecoverAndRelease(turns, d0);
      var active, pc := [], Checking;
      while pc.Checking? && (maxJobs.None? || |completed| + |active| < maxJobs.value)
        invariant Ready() && Continues(old(cluster.log), cluster.log) && t <= |turns|
        invariant Follows(d0, d) && At(d, active, completed, pc)
        invariant pc.Checking? || pc.Joining?
          || (pc.Full? && t == |turns| && WaitsOnFuture(cluster.Now(), d.End()))
        decreases |turns| - t, pc.Checking?, |Queued(cluster.Now().db)|, |active|
      {
        active, completed, pc, t, d := Round(concurrency, turns, t, active, completed, d);
      }
      if pc.Checking? {
        pc := Joining;
        d := Looks(d, d.End().(pc := Joining));
      }
      if pc.Full? { return completed, StillWaiting, t, d; }
      completed, end, t, d := Join(turns, t, active, completed, d);
    }

    /** What holds of a drain that began at the end of `b` and ended as it did. */
    lemma DrainKeepsBound(w: Terms, b: Behavior, d: DrainRun, completed: multiset<JobId>, end: DrainEnd)
      requires b.Valid() && Follows(Begun(w, b), d) && Ended(d, completed, end)
      ensures LoadWithin(d.b, |b.steps|, |d.b.steps|, w.at.host, Limit(w, Last(b)))
      ensures end.Finished? || end.PassRaised? || (end.Raised? && w.concurrency == 1) ==>
        Undispatched(d.Now(), w.at.host) <= Undispatched(Last(b), w.at.host)
      ensures completed <= Claimed(d.b, |b.steps|, |d.b.steps|, w.at.host)
      ensures end.Finished? ==> completed == Claimed(d.b, |b.steps|, |d.b.steps|, w.at.host)
      ensures w.maxJobs.Some? ==> |completed| <= w.maxJobs.value
      ensures end.StillWaiting? && WaitsOnFuture(d.Now(), d.End()) ==>
        exists j :: j in Claimed(d.b, |b.steps|, |d.b.steps|, w.at.host) && !Done(d.Now(), j)
    {
      assert d.points[0] == Begun(w, b).points[0] && d.b.states[|b.steps|] == Last(b);
      DrainStaysWithin(d);
      CompletedAreClaimed(d);
      if end.Finished? || end.PassRaised? || (end.Raised? && w.concurrency == 1) { LeftBehind(d); }
      if end.StillWaiting? && WaitsOnFuture(d.Now(), d.End()) {
        var j := d.End().active[0];
        assert j in multiset(d.End().active);
        assert j in Claimed(d.b, |b.steps|, |d.b.steps|, w.at.host) && !Done(d.Now(), j);
      }
    }

    /**
     * One drain, observed over any finite schedule of the others' turns. It is a `DrainRun`, so all that is proved of
     * those holds of it: active deliveries plus claimed-but-undispatched Runs never exceed `Limit` in any state of it,
     * which is maxInFlight + concurrency - 1 if it begins clean; it leaves nothing undispatched unless it raised with
     * more than one future; and it returns the Runs it claimed, all of them if it finished, at most `maxJobs`. It is
     * still waiting at the end only for a future that has not ended when the others' last turn, `used` of them being
     * all, is over: where every Run it claimed has come to its end, it finishes or raises, as `LastLoopDecides` says.
     */
    method Drain(maxJobs: Option<nat>, concurrency: int, turns: seq<seq<Step>>, recoveryRaises: bool)
      returns (completed: multiset<JobId>, end: DrainEnd, ghost used: nat, ghost d: DrainRun)
      requires Ready()
      modifies cluster, cluster.store
      ensures Ready() && Continues(old(cluster.log), cluster.log)
      ensures end.InvalidConcurrency? <==> concurrency < 1
      ensures end.StillWaiting? ==>
        && 1 <= concurrency && used == |turns| && d.points != [] && WaitsOnFuture(cluster.Now(), d.End())
        && exists j :: j in Claimed(cluster.log, |old(cluster.log).steps|, |cluster.log.steps|, at.host)
                       && !Done(cluster.Now(), j)
      ensures end.InvalidConcurrency? ==> cluster.log == old(cluster.log) && completed == multiset{}
      ensures end.PassRaised? <==> 1 <= concurrency && recoveryRaises
      ensures 1 <= concurrency ==>
        && Follows(Begun(TermsOf(maxJobs, concurrency), old(cluster.log)), d)
        && d.b == cluster.log && Ended(d, completed, end)
        && LoadWithin(cluster.log, |old(cluster.log).steps|, |cluster.log.steps|, at.host,
                      Limit(TermsOf(maxJobs, concurrency), old(cluster.Now())))
      ensures end.Finished? || end.PassRaised? || (end.Raised? && concurrency == 1) ==>
        Undispatched(cluster.Now(), at.host) <= Undispatched(old(cluster.Now()), at.host)
      ensures completed <= Claimed(cluster.log, |old(cluster.log).steps|, |cluster.log.steps|, at.host)
      ensures end.Finished? ==>
        completed == Claimed(cluster.log, |old(cluster.log).steps|, |cluster.log.steps|, at.host)
      ensures maxJobs.Some? ==> |completed| <= maxJobs.value
    {
      completed, end := multiset{}, InvalidConcurrency;
      used, d := 0, DrainRun(TermsOf(maxJobs, 0), cluster.log, []);
      if concurrency < 1 { return; }
      ghost var b := cluster.log;
      var t;
      completed, end, t, d := RunDrain(maxJobs, concurrency, turns, recoveryRaises);
      used := t;
      DrainKeepsBound(TermsOf(maxJobs, concurrency), b, d, completed, end);
    }

    /** One drain, and then the others' turn. */
    method ServeOnce(concurrency: int, scan: Scan)
      returns (completed: multiset<JobId>, end: DrainEnd, ghost d: DrainRun)
      requires Ready()
      modifies cluster, cluster.store
      ensures Ready() && Continues(old(cluster.log), cluster.log)
      ensures end.InvalidConcurrency? <==> concurrency < 1
      ensures 1 <= concurrency ==>
        && Follows(Begun(TermsOf(None, concurrency), old(cluster.log)), d) && Continues(d.b, cluster.log)
        && Ended(d, completed, end)
      ensures 1 <= concurrency && Clean(TermsOf(None, concurrency), old(cluster.Now())) ==>
        && LoadWithin(cluster.log, |old(cluster.log).steps|, |cluster.log.steps|, at.host,
                      maxInFlight + concurrency - 1)
        && (end.Finished? ==> Clean(TermsOf(None, concurrency), cluster.Now()))
      ensures end.Finished? ==>
        completed == Claimed(cluster.log, |old(cluster.log).steps|, |cluster.log.steps|, at.host)
    {
      ghost var start := |cluster.log.steps|;
      ghost var used;
      completed, end, used, d := Drain(None, concurrency, scan.turns, scan.recoveryRaises);
      if end.Finished? {
        ghost var over := cluster.log;
        cluster.Others(scan.pause, WorkerOf(at.host));
        OthersKeepLoad(cluster.log, |over.steps|, |cluster.log.steps|, at.host);
        OthersClaimNone(cluster.log, |over.steps|, |cluster.log.steps|, at.host);
        ClaimedJoined(over, cluster.log, start, |cluster.log.steps|, at.host);
        if Clean(TermsOf(None, concurrency), over.states[start]) {
          var bound := maxInFlight + concurrency - 1;
          LoadJoined(over, cluster.log, start, at.host, bound, bound);
        }
      }
    }

    /** The drains of the scans so far, one after the other on the same terms, each but perhaps the last finished. */
    ghost predicate Scanned(ds: seq<DrainRun>, w: Terms, b: Behavior) {
      forall i: nat :: i < |ds| ==> ScannedAt(ds, i, w, b)
    }

    ghost predicate ScannedAt(ds: seq<DrainRun>, i: nat, w: Terms, b: Behavior)
      requires i < |ds|
    {
      && ds[i].Valid() && ds[i].w == w && Continues(ds[i].b, b)
      && (i + 1 < |ds| ==>
            IsFinished(ds[i]) && ds[i + 1].points != [] && |ds[i].b.steps| <= ds[i + 1].From())
    }

    ghost predicate IsFinished(d: DrainRun) { d.points != [] && d.End().pc == Over(Finished) }

    lemma OneMoreScan(ds: seq<DrainRun>, w: Terms, b: Behavior, c: Behavior, d: DrainRun)
      requires Scanned(ds, w, b) && Continues(b, c) && |b.states| == |b.steps| + 1
      requires Follows(Begun(w, b), d) && Continues(d.b, c)
      requires ds != [] ==> IsFinished(ds[|ds| - 1])
      ensures Scanned(ds + [d], w, c)
    {
      assert d.points[0] == Begun(w, b).points[0];
      forall i: nat | i < |ds + [d]| ensures ScannedAt(ds + [d], i, w, c) {
        if i < |ds| {
          assert ScannedAt(ds, i, w, b);
          assert Continues(ds[i].b, c);
          assert |ds[i].b.steps| <= |b.steps|;
        }
      }
    }

    /**
     * Scan after scan until stopped, that is after all of `scans`; a drain that does not finish ends it there. From a
     * clean start active deliveries plus claimed-but-undispatched Runs never exceed maxInFlight + concurrency - 1, in
     * any state, however many drains there are; stopped between drains, it returns exactly the Runs it claimed.
     */
    method Serve(concurrency: int, pollSeconds: real, scans: seq<Scan>)
      returns (completed: multiset<JobId>, end: ServeEnd, ghost ds: seq<DrainRun>)
      requires Ready()
      modifies cluster, cluster.store
      ensures Ready() && Continues(old(cluster.log), cluster.log)
      ensures end.InvalidPoll? <==> pollSeconds <= 0.0
      ensures end.InvalidPoll? ==> cluster.log == old(cluster.log) && completed == multiset{}
      ensures 0.0 < pollSeconds && concurrency < 1 ==>
        end == if scans == [] then Stopped else DrainEnded(InvalidConcurrency)
      ensures 1 <= concurrency ==> Scanned(ds, TermsOf(None, concurrency), cluster.log)
      ensures 1 <= concurrency && end.Stopped? ==>
        |ds| == |scans| && (ds != [] ==> IsFinished(ds[|ds| - 1]))
      ensures 1 <= concurrency && end.DrainEnded? ==>
        && 0 < |ds| <= |scans| && ds[|ds| - 1].points != [] && !end.end.Finished?
        && Ended(ds[|ds| - 1], ds[|ds| - 1].End().completed, end.end)
      ensures 1 <= concurrency && Clean(TermsOf(None, concurrency), old(cluster.Now())) ==>
        LoadWithin(cluster.log, |old(cluster.log).steps|, |cluster.log.steps|, at.host, maxInFlight + concurrency - 1)
      ensures end.Stopped? ==>
        completed == Claimed(cluster.log, |old(cluster.log).steps|, |cluster.log.steps|, at.host)
    {
      completed, end, ds := multiset{}, InvalidPoll, [];
      if pollSeconds <= 0.0 { return; }
      ghost var start := |cluster.log.steps|;
      ghost var clean := 1 <= concurrency && Clean(TermsOf(None, concurrency), cluster.Now());
      ghost var bound := maxInFlight + concurrency - 1;
      var i := 0;
      while i < |scans|
        invariant 0 <= i <= |scans| && Ready() && Continues(old(cluster.log), cluster.log)
        invariant clean ==> Clean(TermsOf(None, concurrency), cluster.Now())
        invariant clean ==> LoadWithin(cluster.log, start, |cluster.log.steps|, at.host, bound)
        invariant completed == Claimed(cluster.log, start, |cluster.log.steps|, at.host)
        invariant concurrency < 1 ==> i == 0
        invariant 1 <= concurrency ==>
          && |ds| == i && Scanned(ds, TermsOf(None, concurrency), cluster.log)
          && (ds != [] ==> IsFinished(ds[i - 1]))
      {
        ghost var before := cluster.log;
        var more, over;
        ghost var d;
        more, over, d := ServeOnce(concurrency, scans[i]);
        if 1 <= concurrency {
          OneMoreScan(ds, TermsOf(None, concurrency), before, cluster.log, d);
          ds := ds + [d];
        }
        if clean { LoadJoined(before, cluster.log, start, at.host, bound, bound); }
        if !over.Finished? { return completed, DrainEnded(over), ds; }
        ClaimedJoined(before, cluster.log, start, |cluster.log.steps|, at.host);
        completed := completed + more;
        i := i + 1;
      }
      end := Stopped;
    }
  }
}
