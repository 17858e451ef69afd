/** The retry loop of one claimed Run, among everything the other processes do (service.py `_execute`). */
module Execution {
  import opened Prelude
  import opened Acceptance
  import opened Tables
  import opened StoreOps
  import opened History
  import opened StoreObject
  import opened Protocol
  import opened OnceOnly
  import opened Numbering
  import opened ClusterObject
  import opened Columns
  import opened Deliveries
  import opened ExecutorLoop

  class ExecutorThread {
    const cluster: Cluster
    const j: JobId
    const outcome: nat -> Outcome          // what `adapter.run` does on each Attempt
    const token: nat -> Token              // the lease token drawn for each Attempt
    const execution: nat -> ExecutionId    // the execution id drawn for each Attempt
    const turns: seq<seq<Step>>
    var t: nat

    constructor (cluster: Cluster, j: JobId, outcome: nat -> Outcome, token: nat -> Token,
                 execution: nat -> ExecutionId,
                 turns: seq<seq<Step>>)
      ensures this.cluster == cluster && this.j == j && this.outcome == outcome && this.token == token
      ensures this.execution == execution && this.turns == turns && this.t == 0
    {
      this.cluster, this.j, this.outcome, this.token, this.execution := cluster, j, outcome, token, execution;
      this.turns, this.t := turns, 0;
    }

    ghost predicate Ready()
      reads this, cluster, cluster.store
    {
      && cluster.Valid() && 0.0 <= cluster.log.cfg.lease
      && j in cluster.Now().execs
      && forall n :: outcome(n).Returned? ==> InParserRange(outcome(n).report)
    }

    function Me(): Executor
      reads this, cluster
      requires |cluster.log.states| == |cluster.log.steps| + 1 && j in cluster.Now().execs
    {
      cluster.Now().execs[j]
    }

    /** Nobody else does anything. */
    ghost predicate Alone() { turns == [] }

    /** The Run is open and the executor's owner, if it has one, is live. */
    ghost predicate Poised(s: Sys) { RunOpen(s.db, j) && OwnerLive(s, j) }

    /** The executor's last call was refused. */
    ghost predicate JustRefused()
      reads this, cluster
    {
      |cluster.log.states| == |cluster.log.steps| + 1 && cluster.log.steps != []
      && Refused(cluster.log, |cluster.log.steps| - 1, j)
    }

    /** The executor's last call ended it with the terminal write `c`. */
    ghost predicate JustClosed(c: Completion)
      reads this, cluster
    {
      && |cluster.log.states| == |cluster.log.steps| + 1 && cluster.log.steps != []
      && j in cluster.Now().execs && Me().stage == Ended(true)
      && Closed(cluster.log.states[|cluster.log.steps| - 1], cluster.Now(), c)
    }

    method Yield()
      requires Ready()
      modifies this, cluster, cluster.store
      ensures Ready() && Continues(old(cluster.log), cluster.log) && Me() == old(Me())
      ensures Alone() ==> cluster.log == old(cluster.log)
    {
      ghost var before := |cluster.log.steps|;
      if t < |turns| {
        cluster.Others(turns[t], ExecutorOf(j));
        t := t + 1;
      }
      OthersKeepExecutor(cluster.log, before, |cluster.log.steps|, j);
    }

    /** Record Attempt `no`: a fresh row. */
    method Record(no: nat)
      requires Ready() && Me().stage == Looping(no)
      modifies this, cluster, cluster.store
      ensures Ready() && Continues(old(cluster.log), cluster.log) && Me() == old(Me()).(stage := Recorded(no))
      ensures Alone() ==> Fresh(old(cluster.Now()), cluster.Now(), no)
    {
      Yield();
      AlwaysNumbered(cluster.log, |cluster.log.steps|);
      AlwaysStarts(cluster.log, |cluster.log.steps|);
      assert ExecutorKnown(cluster.log.cfg, cluster.Now(), j);
      RecordKeepsNumbers(cluster.Now(), j);
      var recorded := cluster.store.RecordAttempt(AttemptKey(j, no));
      cluster.Took(Protocol.Step.Record(j));
    }

    ghost predicate Fresh(s: Sys, s': Sys, no: nat) {
      && s'.now == s.now && s'.db.runs == s.db.runs && SameHosts(s.db, s'.db) && SameLedger(s.db, s'.db)
      && AttemptKey(j, no) in s'.db.attempts && s'.db.attempts[AttemptKey(j, no)] == FRESH_ATTEMPT
    }

    /** Lease the recorded Attempt. */
    method Acquire(no: nat)
      requires Ready() && Me().stage == Recorded(no)
      modifies this, cluster, cluster.store
      ensures Ready() && Continues(old(cluster.log), cluster.log)
      ensures Me() == old(Me()).(stage := Leased(no, token(no))) || Me() == old(Me()).(stage := Failing(no, token(no)))
      ensures |old(cluster.log).steps| < |cluster.log.steps| && (Me().stage.Leased? || JustRefused())
      ensures Alone() && Fresh(old(cluster.Now()), old(cluster.Now()), no) ==>
                Me().stage.Leased? && Opened(old(cluster.Now()), cluster.Now(), no)
    {
      Yield();
      var acquired := cluster.store.AcquireAttemptLease(
        cluster.Now().now, AttemptKey(j, no), token(no), cluster.log.cfg.lease);
      cluster.Took(Protocol.Step.Acquire(j, token(no)));
    }

    /**
     * The new Attempt row holds this executor's live lease and nothing else; Runs, sessions and clock are as before.
     */
    ghost predicate Opened(s: Sys, s': Sys, no: nat)
      reads cluster
    {
      && s'.now == s.now && s'.db.runs == s.db.runs && SameHosts(s.db, s'.db) && SameLedger(s.db, s'.db)
      && AttemptKey(j, no) in s'.db.attempts
      && var a := s'.db.attempts[AttemptKey(j, no)];
         && a.status.AttemptRunning? && a.leaseToken == Some(token(no)) && LeaseLive(a, s'.now) && a.recovery.None?
         && a.leaseExpires == Some(s'.now + cluster.log.cfg.lease)
    }

    /** Register this process's session as the owner of the Attempt's execution. */
    method Register(no: nat)
      requires Ready() && Me().stage == Leased(no, token(no))
      modifies this, cluster, cluster.store
      ensures Ready() && Continues(old(cluster.log), cluster.log)
      ensures Me().mode == old(Me()).mode && Me().owner == old(Me()).owner
      ensures Me().stage == Registered(no, token(no), execution(no)) || Me().stage == Failing(no, token(no))
      ensures Me().stage.Registered? && Me().mode.Supervised? ==> Me().owner.Some?
      ensures |old(cluster.log).steps| < |cluster.log.steps|
      ensures Me().stage.Registered? || JustRefused()
      ensures Alone() && HoldsLease(old(cluster.Now()), no) && OwnerLive(old(cluster.Now()), j)
              && (Me().mode.InProcess? || Me().owner.Some?) ==>
                && Me().stage.Registered? && CanClose(cluster.Now(), j, no, token(no)) && OwnerLive(cluster.Now(), j)
                && SameRuns(old(cluster.Now()), cluster.Now()) && SameLedger(old(cluster.Now()).db, cluster.Now().db)
                && (JustLeased(old(cluster.Now()), no) ==> JustLeased(cluster.Now(), no))
    {
      Yield();
      var me := Me();
      if me.owner.Some? {
        var registered := cluster.store.RecordAttemptExecution(
          cluster.Now().now, AttemptKey(j, no), token(no), Owner(me.owner.value, execution(no)));
      }
      cluster.Took(Protocol.Step.Register(j, execution(no)));
    }

    ghost predicate HoldsLease(s: Sys, no: nat) {
      RunOpen(s.db, j) && Fenced(s.db, s.now, AttemptKey(j, no), token(no))
    }

    /** The delivery of Attempt `no` waits, just created, with all that its Supervisor needs to complete the Attempt. */
    ghost predicate Delivered(s: Sys, no: nat) {
      && j in s.execs && s.execs[j].owner.Some? && execution(no) in s.db.requests
      && var at := s.execs[j].owner.value;
         s.db.requests[execution(no)] ==
           Request(AttemptKey(j, no), at.host, DeliveryQueued, s.now, None, token(no), at)
    }

    /** The executor may still close its Attempt, and the execution id is fresh. */
    ghost predicate CanDeliver(s: Sys, no: nat)
      reads cluster
    {
      CanClose(s, j, no, token(no)) && execution(no) !in s.db.requests && JustLeased(s, no)
    }

    /** What dispatch comes to: delivered, or refused for an execution id used before. */
    ghost predicate Dispatched(s: Sys, s': Sys, no: nat)
      requires j in s'.execs
      reads cluster
    {
      && (s'.execs[j].stage.Ended? <==> execution(no) !in s.db.requests)
      && (s'.execs[j].stage.Ended? ==> Delivered(s', no))
      && (s'.execs[j].stage.Failing? ==> s'.db == s.db)
      && (CanDeliver(s, no) ==> Sent(s, s', no))
    }

    lemma EnqueueSends(s: Sys, no: nat)
      requires j in s.execs && s.execs[j].stage == Registered(no, token(no), execution(no)) && s.execs[j].owner.Some?
      ensures var s' := DoDispatch(s, j);
              && Dispatched(s, s', no)
              && (s'.execs[j] == s.execs[j].(stage := Ended(true))
                  || s'.execs[j] == s.execs[j].(stage := Failing(no, token(no))))
    {
    }

    /** Supervised mode: hand the execution to the host's queue. */
    method Dispatch(no: nat)
      requires Ready() && Me().stage == Registered(no, token(no), execution(no)) && Me().mode.Supervised?
      requires Me().owner.Some?
      modifies this, cluster, cluster.store
      ensures Ready() && Continues(old(cluster.log), cluster.log)
      ensures Me().mode == old(Me()).mode && Me().owner == old(Me()).owner
      ensures Me().stage == Ended(true) || Me().stage == Failing(no, token(no))
      ensures |old(cluster.log).steps| < |cluster.log.steps|
      ensures Dispatched(cluster.log.states[|cluster.log.steps| - 1], cluster.Now(), no)
      ensures Me().stage == Ended(true) || JustRefused()
      ensures Alone() ==> cluster.log.states[|cluster.log.steps| - 1] == old(cluster.Now())
    {
      Yield();
      Enqueue(no);
    }

    method Enqueue(no: nat)
      requires Ready() && Me().stage == Registered(no, token(no), execution(no)) && Me().mode.Supervised?
      requires Me().owner.Some?
      modifies cluster, cluster.store
      ensures Ready() && Continues(old(cluster.log), cluster.log)
      ensures Me().mode == old(Me()).mode && Me().owner == old(Me()).owner
      ensures Me().stage == Ended(true) || Me().stage == Failing(no, token(no))
      ensures |cluster.log.steps| == |old(cluster.log).steps| + 1
      ensures cluster.log.states[|old(cluster.log).steps|] == old(cluster.Now())
      ensures Dispatched(old(cluster.Now()), cluster.Now(), no) && (Me().stage == Ended(true) || JustRefused())
    {
      ghost var s := cluster.Now();
      EnqueueSends(s, no);
      var at := Me().owner.value;
      var queued := cluster.store.EnqueueExecutionRequest(
        cluster.Now().now, execution(no), AttemptKey(j, no), at.host, token(no), at);
      cluster.Took(Protocol.Step.Dispatch(j));
      assert cluster.Now() == DoDispatch(s, j);
    }

    /** In-process mode: the adapter starts. */
    method Start(no: nat)
      requires Ready() && Me().stage == Registered(no, token(no), execution(no)) && Me().mode.InProcess?
      modifies this, cluster, cluster.store
      ensures Ready() && Continues(old(cluster.log), cluster.log)
      ensures Me() == old(Me()).(stage := Executing(no, token(no)))
      ensures Alone() ==> cluster.Now().db == old(cluster.Now()).db && cluster.Now().now == old(cluster.Now()).now
    {
      Yield();
      cluster.Took(StartAdapter(j));
    }

    /** The adapter returned or raised; a result is kept only if the lease can still be extended. */
    method Collect(no: nat)
      requires Ready() && Me().stage == Executing(no, token(no))
      modifies this, cluster, cluster.store
      ensures Ready() && Continues(old(cluster.log), cluster.log)
      ensures Me().mode == old(Me()).mode && Me().owner == old(Me()).owner
      ensures Me().stage == Failing(no, token(no))
        || (Me().stage == Settling(no, token(no), outcome(no)) && !outcome(no).Broke?)
      ensures |old(cluster.log).steps| < |cluster.log.steps|
      ensures (Me().stage.Failing? ==> outcome(no).Broke? || JustRefused())
      ensures Me().stage.Settling? && outcome(no).Returned? ==>
        && AttemptKey(j, no) in cluster.Now().db.attempts
        && cluster.Now().db.attempts[AttemptKey(j, no)].leaseExpires ==
             Some(cluster.Now().now + cluster.log.cfg.lease)
      ensures Alone() && CanClose(old(cluster.Now()), j, no, token(no)) && OwnerLive(old(cluster.Now()), j) ==>
                && (Me().stage.Failing? <==> outcome(no).Broke?)
                && CanClose(cluster.Now(), j, no, token(no)) && OwnerLive(cluster.Now(), j)
                && SameRuns(old(cluster.Now()), cluster.Now())
    {
      Yield();
      Take(no);
    }

    method Take(no: nat)
      requires Ready() && Me().stage == Executing(no, token(no))
      modifies this, cluster, cluster.store
      ensures Ready() && Continues(old(cluster.log), cluster.log)
      ensures Me() == old(Me()).(stage := Me().stage)
      ensures Me().stage == Failing(no, token(no))
        || (Me().stage == Settling(no, token(no), outcome(no)) && !outcome(no).Broke?)
      ensures |old(cluster.log).steps| < |cluster.log.steps|
      ensures (Me().stage.Failing? ==> outcome(no).Broke? || JustRefused())
      ensures Me().stage.Settling? && outcome(no).Returned? ==>
        && AttemptKey(j, no) in cluster.Now().db.attempts
        && cluster.Now().db.attempts[AttemptKey(j, no)].leaseExpires ==
             Some(cluster.Now().now + cluster.log.cfg.lease)
      ensures CanClose(old(cluster.Now()), j, no, token(no)) && OwnerLive(old(cluster.Now()), j) ==>
                && (Me().stage.Failing? <==> outcome(no).Broke?)
                && CanClose(cluster.Now(), j, no, token(no)) && OwnerLive(cluster.Now(), j)
                && SameRuns(old(cluster.Now()), cluster.Now())
    {
      if outcome(no).Returned? {
        var kept := cluster.store.HeartbeatAttempt(
          cluster.Now().now, AttemptKey(j, no), token(no), cluster.log.cfg.lease);
      }
      cluster.Took(Return(j, outcome(no)));
    }

    ghost predicate SameRuns(s: Sys, s': Sys) { s'.db.runs == s.db.runs && s'.now == s.now }

    /** The Run row after a completion was written to `s`. */
    ghost predicate Closed(s: Sys, s': Sys, c: Completion) {
      && j in s.db.runs && j in s'.db.runs
      && var r := s.db.runs[j];
         s'.db.runs[j] == r.(status := c.run, verdict := WriteFields(r.verdict, c.fields), updatedAt := s.now)
    }

    /** The Attempt row carries this ruling. */
    ghost predicate Ruled(no: nat, ruling: Ruling)
      reads this, cluster
    {
      && |cluster.log.states| == |cluster.log.steps| + 1 && AttemptKey(j, no) in cluster.Now().db.attempts
      && RulingOf(cluster.Now().db.attempts[AttemptKey(j, no)]) == ruling
    }

    /** A transient failure with Attempts left: close this one as retryable and go round. */
    method Retry(no: nat)
      requires Ready() && Me().stage == Settling(no, token(no), outcome(no)) && outcome(no).Transient()
      requires no < cluster.log.cfg.maxAttempts
      modifies this, cluster, cluster.store
      ensures Ready() && Continues(old(cluster.log), cluster.log)
      ensures Me() == old(Me()).(stage := Looping(no + 1)) || Me() == old(Me()).(stage := Ended(false))
      ensures |old(cluster.log).steps| < |cluster.log.steps| && (Me().stage.Looping? || JustRefused())
      ensures Me().stage.Looping? ==> Ruled(no, Ruling(AttemptRetryable, Some(outcome(no).Error()), Retryable))
      ensures Alone() && CanClose(old(cluster.Now()), j, no, token(no)) && OwnerLive(old(cluster.Now()), j) ==>
                Me().stage.Looping? && OwnerLive(cluster.Now(), j) && SameRuns(old(cluster.Now()), cluster.Now())
    {
      Yield();
      var moved := cluster.store.TransitionAttempt(
        cluster.Now().now, AttemptKey(j, no), token(no), AttemptRetryable, Some(outcome(no).Error()), Retryable);
      cluster.Took(Settle(j));
    }

    /** Where a refused terminal write leads: after a returned result to the error path, else to the end. */
    function RefusedStage(no: nat): Stage {
      if outcome(no).Returned? then Failing(no, token(no)) else Ended(false)
    }

    /** What the terminal write does to the rows, and that it is accepted where it can be. */
    lemma SettleCloses(cfg: Config, s: Sys, no: nat)
      requires j in s.execs && s.execs[j].stage == Settling(no, token(no), outcome(no)) && !outcome(no).Broke?
      requires outcome(no).Transient() ==> no >= cfg.maxAttempts
      requires outcome(no).Returned? ==> InParserRange(outcome(no).report)
      ensures var s', k, c := Next(cfg, s, Settle(j)), AttemptKey(j, no), SettleCompletion(cfg, no, outcome(no));
              && s'.execs[j] == s.execs[j].(stage := s'.execs[j].stage)
              && (s'.execs[j].stage == Ended(true) || s'.execs[j].stage == RefusedStage(no))
              && (s'.execs[j].stage == Ended(true) ==>
                    && Closed(s, s', c) && k in s'.db.attempts
                    && RulingOf(s'.db.attempts[k]) == RulingFor(outcome(no)))
              && (CanClose(s, j, no, token(no)) ==> s'.execs[j].stage == Ended(true))
    {
      EveryOutcomeHasItsRows(cfg, no, outcome(no), NO_VERDICT);
    }

    lemma SettleEnds(b: Behavior, b': Behavior, no: nat)
      requires |b.states| == |b.steps| + 1 && Enabled(b.cfg, Last(b), Settle(j)) && b' == Append(b, Settle(j))
      requires j in Last(b').execs
      requires Last(b').execs[j].stage == Ended(true) || Last(b').execs[j].stage == RefusedStage(no)
      ensures b'.states[|b'.steps| - 1] == Last(b) && |b'.steps| == |b.steps| + 1
      ensures Last(b').execs[j].stage == Ended(true) || Refused(b', |b'.steps| - 1, j)
    {
    }

    /** The last step of the run was the terminal write, and the rows say so, or it was refused. */
    ghost predicate ClosedOrRefused(b: Behavior, no: nat)
      requires |b.states| == |b.steps| + 1 && !outcome(no).Broke?
    {
      && b.steps != [] && j in Last(b).execs
      && var s, s', k := b.states[|b.steps| - 1], Last(b), AttemptKey(j, no);
         if s'.execs[j].stage == Ended(true) then
           && Closed(s, s', SettleCompletion(b.cfg, no, outcome(no))) && k in s'.db.attempts
           && RulingOf(s'.db.attempts[k]) == RulingFor(outcome(no))
         else s'.execs[j].stage == RefusedStage(no) && Refused(b, |b.steps| - 1, j)
    }

    method WriteClose(no: nat)
      requires Ready() && Me().stage == Settling(no, token(no), outcome(no)) && !outcome(no).Broke?
      requires outcome(no).Transient() ==> no >= cluster.log.cfg.maxAttempts
      modifies this, cluster, cluster.store
      ensures Ready() && Continues(old(cluster.log), cluster.log)
      ensures |cluster.log.steps| == |old(cluster.log).steps| + 1 && ClosedOrRefused(cluster.log, no)
      ensures Me() == old(Me()).(stage := Me().stage)
      ensures CanClose(old(cluster.Now()), j, no, token(no)) ==> Me().stage == Ended(true)
    {
      ghost var b := cluster.log;
      var done := cluster.store.FinalizeAttemptAndRun(
        cluster.Now().now, AttemptKey(j, no), token(no), SettleCompletion(cluster.log.cfg, no, outcome(no)),
        Me().owner);
      cluster.Took(Settle(j));
      SettleCloses(b.cfg, Last(b), no);
      SettleEnds(b, cluster.log, no);
    }

    /** The terminal write of Attempt and Run; a lost fence on a returned result still tries the error path. */
    method Close(no: nat)
      requires Ready() && Me().stage == Settling(no, token(no), outcome(no)) && !outcome(no).Broke?
      requires outcome(no).Transient() ==> no >= cluster.log.cfg.maxAttempts
      modifies this, cluster, cluster.store
      ensures Ready() && Continues(old(cluster.log), cluster.log)
      ensures Me().mode == old(Me()).mode && Me().owner == old(Me()).owner
      ensures Me().stage == Ended(true) || Me().stage == RefusedStage(no)
      ensures |old(cluster.log).steps| < |cluster.log.steps|
      ensures JustClosed(SettleCompletion(cluster.log.cfg, no, outcome(no))) || JustRefused()
      ensures Me().stage == Ended(true) ==> Ruled(no, RulingFor(outcome(no)))
      ensures Alone() && CanClose(old(cluster.Now()), j, no, token(no)) ==>
                && Me().stage == Ended(true)
                && Closed(old(cluster.Now()), cluster.Now(), SettleCompletion(cluster.log.cfg, no, outcome(no)))
    {
      Yield();
      WriteClose(no);
    }

    /** The execution error path. */
    method Fail(no: nat)
      requires Ready() && Me().stage == Failing(no, token(no))
      modifies this, cluster, cluster.store
      ensures Ready() && Continues(old(cluster.log), cluster.log) && Me().stage.Ended?
      ensures Me().mode == old(Me()).mode && Me().owner == old(Me()).owner
      ensures |old(cluster.log).steps| < |cluster.log.steps| && (JustClosed(EXECUTION_ERROR) || JustRefused())
      ensures Me().stage == Ended(true) ==> Ruled(no, RulingFor(Broke))
      ensures Alone() && CanClose(old(cluster.Now()), j, no, token(no)) ==>
                Me().stage == Ended(true) && Closed(old(cluster.Now()), cluster.Now(), EXECUTION_ERROR)
    {
      Yield();
      var done := cluster.store.FinalizeAttemptAndRun(
        cluster.Now().now, AttemptKey(j, no), token(no), EXECUTION_ERROR, Me().owner);
      ghost var s := cluster.Now();
      cluster.Took(Protocol.Step.Fail(j));
      assert cluster.Now().execs == s.execs[j := s.execs[j].(stage := Ended(done))];
      FailRules(cluster.log.cfg, s, j);
      assert if done then JustClosed(EXECUTION_ERROR) else JustRefused();
    }

    /** What an in-process Attempt comes to that is refused nothing. */
    ghost predicate Comes(no: nat)
      reads this, cluster
    {
      && |cluster.log.states| == |cluster.log.steps| + 1 && j in cluster.Now().execs
      && if outcome(no).Transient() && no < cluster.log.cfg.maxAttempts then Me().stage == Looping(no + 1)
         else if outcome(no).Broke? then JustClosed(EXECUTION_ERROR)
         else JustClosed(SettleCompletion(cluster.log.cfg, no, outcome(no)))
    }

    /** What an undisturbed in-process Attempt comes to. */
    ghost predicate Resolved(cfg: Config, s: Sys, s': Sys, no: nat)
      requires j in s'.execs
    {
      if outcome(no).Transient() && no < cfg.maxAttempts then
        s'.execs[j].stage == Looping(no + 1) && OwnerLive(s', j) && SameRuns(s, s')
      else
        && s'.execs[j].stage == Ended(true)
        && Closed(s, s', if outcome(no).Broke? then EXECUTION_ERROR else SettleCompletion(cfg, no, outcome(no)))
    }

    /** The Attempt's lease was taken just now, and nobody has claimed it for recovery. */
    ghost predicate JustLeased(s: Sys, no: nat)
      reads cluster
    {
      && AttemptKey(j, no) in s.db.attempts
      && s.db.attempts[AttemptKey(j, no)].leaseExpires == Some(s.now + cluster.log.cfg.lease)
      && s.db.attempts[AttemptKey(j, no)].recovery.None?
    }

    /** A supervised executor that nothing keeps from delivering Attempt `no`. */
    ghost predicate CanSend(s: Sys, no: nat) {
      && Poised(s) && j in s.execs && s.execs[j].mode.Supervised? && s.execs[j].owner.Some?
      && execution(no) !in s.db.requests
    }

    /** A supervised executor with a live owner and a fresh execution id. */
    ghost predicate Sendable(s: Sys) {
      OwnerLive(s, j) && s.execs[j].mode.Supervised? && s.execs[j].owner.Some? && execution(1) !in s.db.requests
    }

    /** The executor is done; its delivery, the only new one, waits and may be completed. */
    ghost predicate Sent(s0: Sys, s: Sys, no: nat)
      reads cluster
    {
      && j in s.execs && s.execs[j].stage == Ended(true) && Delivered(s, no)
      && Completable(s, execution(no)) && RunOpen(s.db, j) && JustLeased(s, no)
      && s.db.requests == s0.db.requests[execution(no) := s.db.requests[execution(no)]]
    }

    /** Record Attempt `no` and lease it. */
    method Lease(no: nat)
      requires Ready() && Me().stage == Looping(no)
      modifies this, cluster, cluster.store
      ensures Ready() && Continues(old(cluster.log), cluster.log)
      ensures Me() == old(Me()).(stage := Leased(no, token(no))) || Me() == old(Me()).(stage := Failing(no, token(no)))
      ensures |old(cluster.log).steps| < |cluster.log.steps| && (Me().stage.Leased? || JustRefused())
      ensures Alone() ==> Me().stage.Leased? && Opened(old(cluster.Now()), cluster.Now(), no)
    {
      Record(no);
      ghost var s := cluster.Now();
      Acquire(no);
      assert Alone() ==> Opened(s, cluster.Now(), no);
    }

    /** Prepare Attempt `no`: record, lease, register. */
    method Prepare(no: nat)
      requires Ready() && Me().stage == Looping(no)
      modifies this, cluster, cluster.store
      ensures Ready() && Continues(old(cluster.log), cluster.log)
      ensures Me().mode == old(Me()).mode && Me().owner == old(Me()).owner
      ensures Me().stage == Registered(no, token(no), execution(no)) || Me().stage == Failing(no, token(no))
      ensures Me().stage.Registered? && Me().mode.Supervised? ==> Me().owner.Some?
      ensures |old(cluster.log).steps| < |cluster.log.steps|
      ensures Me().stage.Failing? ==> JustRefused()
      ensures Alone() && Poised(old(cluster.Now())) && (Me().mode.InProcess? || Me().owner.Some?) ==>
                && Me().stage.Registered? && CanClose(cluster.Now(), j, no, token(no)) && OwnerLive(cluster.Now(), j)
                && SameRuns(old(cluster.Now()), cluster.Now()) && SameLedger(old(cluster.Now()).db, cluster.Now().db)
                && JustLeased(cluster.Now(), no)
    {
      Lease(no);
      if Me().stage.Leased? { Register(no); }
    }

    /** Run the adapter and write what came of it; a lost lease or a broken adapter leads to the error path. */
    method RunInProcess(no: nat)
      requires Ready() && Me().stage == Registered(no, token(no), execution(no)) && Me().mode.InProcess?
      modifies this, cluster, cluster.store
      ensures Ready() && Continues(old(cluster.log), cluster.log)
      ensures Me().mode == old(Me()).mode && Me().owner == old(Me()).owner
      ensures Me().stage == Failing(no, token(no)) || Me().stage.Ended?
              || (Me().stage == Looping(no + 1) && no < cluster.log.cfg.maxAttempts)
      ensures Me().stage == Ended(true) ==> j in cluster.Now().db.runs && cluster.Now().db.runs[j].status.Terminal()
      ensures |old(cluster.log).steps| < |cluster.log.steps|
      ensures JustRefused() || if outcome(no).Broke? then Me().stage.Failing? else Comes(no)
      ensures Alone() && CanClose(old(cluster.Now()), j, no, token(no)) && OwnerLive(old(cluster.Now()), j) ==>
                if outcome(no).Broke?
                then
                  && Me().stage.Failing? && CanClose(cluster.Now(), j, no, token(no))
                  && SameRuns(old(cluster.Now()), cluster.Now())
                else Resolved(cluster.log.cfg, old(cluster.Now()), cluster.Now(), no)
    {
      Start(no);
      Collect(no);
      if Me().stage.Settling? {
        if outcome(no).Transient() && no < cluster.log.cfg.maxAttempts {
          Retry(no);
        } else {
          Close(no);
          assert SettleCompletion(cluster.log.cfg, no, outcome(no)).run.Terminal();
        }
      }
    }

    /** One Attempt up to its delivery, its outcome, or the error path. */
    method Carry(no: nat)
      requires Ready() && Me().stage == Looping(no)
      modifies this, cluster, cluster.store
      ensures Ready() && Continues(old(cluster.log), cluster.log)
      ensures Me().mode == old(Me()).mode && Me().owner == old(Me()).owner
      ensures Me().stage.Ended? || Me().stage == Failing(no, token(no))
        || (Me().mode.InProcess? && Me().stage == Looping(no + 1) && no < cluster.log.cfg.maxAttempts)
      ensures Me().stage == Ended(true) ==> Concluded(cluster.Now(), no)
      ensures |old(cluster.log).steps| < |cluster.log.steps|
      ensures Me().mode.InProcess? ==>
        JustRefused() || if outcome(no).Broke? then Me().stage.Failing? else Comes(no)
      ensures Me().mode.Supervised? ==> JustRefused() || (Me().stage == Ended(true) && Delivered(cluster.Now(), no))
      ensures Alone() && Poised(old(cluster.Now())) && Me().mode.InProcess? ==>
        if outcome(no).Broke?
        then
          && Me().stage.Failing? && CanClose(cluster.Now(), j, no, token(no))
          && SameRuns(old(cluster.Now()), cluster.Now())
        else Resolved(cluster.log.cfg, old(cluster.Now()), cluster.Now(), no)
      ensures Alone() && CanSend(old(cluster.Now()), no) ==> Sent(old(cluster.Now()), cluster.Now(), no)
    {
      Prepare(no);
      if Me().stage.Registered? {
        if Me().mode.Supervised? { Dispatch(no); } else { RunInProcess(no); }
      }
    }

    /** One Attempt, from its record to its outcome. */
    method Attempt(no: nat)
      requires Ready() && Me().stage == Looping(no)
      modifies this, cluster, cluster.store
      ensures Ready() && Continues(old(cluster.log), cluster.log)
      ensures Me().mode == old(Me()).mode && Me().owner == old(Me()).owner
      ensures Me().stage.Ended?
        || (Me().mode.InProcess? && Me().stage == Looping(no + 1) && no < cluster.log.cfg.maxAttempts)
      ensures Me().stage == Ended(true) ==> Concluded(cluster.Now(), no)
      ensures Me().mode.InProcess? && Untroubled(cluster.log, |old(cluster.log).steps|, j) ==> Comes(no)
      ensures Me().mode.Supervised? && Untroubled(cluster.log, |old(cluster.log).steps|, j) ==>
        Me().stage == Ended(true) && Delivered(cluster.Now(), no)
      ensures Alone() && Poised(old(cluster.Now())) && Me().mode.InProcess? ==>
                Resolved(cluster.log.cfg, old(cluster.Now()), cluster.Now(), no)
      ensures Alone() && CanSend(old(cluster.Now()), no) ==> Sent(old(cluster.Now()), cluster.Now(), no)
    {
      ghost var from := |cluster.log.steps|;
      Carry(no);
      ghost var before := cluster.log;
      if Me().stage.Failing? {
        Fail(no);
        assert EXECUTION_ERROR.run.Terminal();
        if Untroubled(cluster.log, from, j) { UntroubledBefore(before, cluster.log, from, j); }
      }
    }

    /** The Run is terminal, or its one delivery waits for a Supervisor. */
    ghost predicate Concluded(s: Sys, no: nat) {
      || (j in s.db.runs && s.db.runs[j].status.Terminal())
      || (&& j in s.execs && s.execs[j].mode.Supervised? && s.execs[j].owner.Some?
          && Delivered(s, no))
    }

    /** Refused nothing, what remains of the loop decides the Run's fate. */
    ghost predicate Bound(no: nat)
      reads this, cluster
    {
      && |cluster.log.states| == |cluster.log.steps| + 1 && j in cluster.Now().execs
      && 1 <= no <= cluster.log.cfg.maxAttempts
      && if Me().stage.Looping? then Fate(cluster.log.cfg, no, outcome) == Fate(cluster.log.cfg, 1, outcome)
         else JustClosed(Fate(cluster.log.cfg, 1, outcome))
    }

    /** Mark the Run RUNNING. */
    method Begin()
      requires Ready() && Me().stage.Pending?
      modifies this, cluster, cluster.store
      ensures Ready() && Continues(old(cluster.log), cluster.log) && Me() == old(Me()).(stage := Looping(1))
      ensures RunOpen(cluster.Now().db, j) && (Alone() ==> Begun(old(cluster.Now()), cluster.Now()))
    {
      Yield();
      AlwaysStarts(cluster.log, |cluster.log.steps|);
      assert ExecutorKnown(cluster.log.cfg, cluster.Now(), j);
      cluster.store.UpdateRun(cluster.Now().now, j, RunRunning, None);
      cluster.Took(Protocol.Step.Begin(j));
    }

    ghost predicate Begun(s: Sys, s': Sys) {
      && s'.now == s.now && SameHosts(s.db, s'.db) && SameLedger(s.db, s'.db) && j in s.db.runs && j in s'.db.runs
      && s'.db.runs[j] == s.db.runs[j].(status := RunRunning, updatedAt := s.now)
    }

    /** Left alone, what remains of the loop decides the Run's fate. */
    ghost predicate OnCourse(cfg: Config, s1: Sys, s: Sys, no: nat)
      requires j in s.execs && 1 <= no <= cfg.maxAttempts
    {
      if s.execs[j].stage.Looping? then
        && Fate(cfg, no, outcome) == Fate(cfg, 1, outcome)
        && RunOpen(s.db, j) && OwnerLive(s, j) && SameRuns(s1, s)
      else s.execs[j].stage == Ended(true) && Closed(s1, s, Fate(cfg, 1, outcome))
    }

    /** Once round the loop. */
    method Again(no: nat, ghost from: nat, ghost s1: Sys) returns (next: nat)
      requires Ready() && 1 <= no <= cluster.log.cfg.maxAttempts && Me().stage == Looping(no)
      requires from <= |cluster.log.steps|
      requires Me().mode.InProcess? && Untroubled(cluster.log, from, j) ==> Bound(no)
      requires Alone() && Poised(s1) && Me().mode.InProcess? ==>
        OnCourse(cluster.log.cfg, s1, cluster.Now(), no)
      modifies this, cluster, cluster.store
      ensures Ready() && Continues(old(cluster.log), cluster.log)
      ensures Me().mode == old(Me()).mode && Me().owner == old(Me()).owner
      ensures no <= next <= cluster.log.cfg.maxAttempts
      ensures (Me().stage.Ended? || (Me().stage == Looping(next) && no < next))
      ensures Me().stage == Ended(true) ==> Concluded(cluster.Now(), next)
      ensures Me().mode.InProcess? && Untroubled(cluster.log, from, j) ==> Bound(next)
      ensures Alone() && Poised(s1) && Me().mode.InProcess? ==>
        OnCourse(cluster.log.cfg, s1, cluster.Now(), next)
      ensures Me().mode.Supervised? ==> Me().stage.Ended?
      ensures Me().mode.Supervised? && Untroubled(cluster.log, |old(cluster.log).steps|, j) ==>
        Me().stage == Ended(true) && Delivered(cluster.Now(), no)
      ensures Alone() && CanSend(old(cluster.Now()), no) ==> Sent(old(cluster.Now()), cluster.Now(), no)
    {
      ghost var before := cluster.log;
      next := no;
      Attempt(no);
      if Me().stage.Looping? { next := no + 1; }
      if Untroubled(cluster.log, from, j) { UntroubledBefore(before, cluster.log, from, j); }
    }

    method Loop()
      requires Ready() && Me().stage == Looping(1)
      modifies this, cluster, cluster.store
      ensures Ready() && Continues(old(cluster.log), cluster.log) && Me().stage.Ended?
      ensures Me().mode == old(Me()).mode && Me().owner == old(Me()).owner
      ensures Me().stage.clean ==>
        exists no: nat :: 1 <= no <= cluster.log.cfg.maxAttempts && Concluded(cluster.Now(), no)
      ensures Me().mode.InProcess? && Untroubled(cluster.log, |old(cluster.log).steps|, j) ==>
        JustClosed(Fate(cluster.log.cfg, 1, outcome))
      ensures Me().mode.Supervised? && Untroubled(cluster.log, |old(cluster.log).steps|, j) ==>
        Me().stage == Ended(true) && Delivered(cluster.Now(), 1)
      ensures Alone() && Poised(old(cluster.Now())) && Me().mode.InProcess? ==>
                OnCourse(cluster.log.cfg, old(cluster.Now()), cluster.Now(), 1)
      ensures Alone() && CanSend(old(cluster.Now()), 1) ==> Sent(old(cluster.Now()), cluster.Now(), 1)
    {
      ghost var s1, from := cluster.Now(), |cluster.log.steps|;
      var no := 1;
      while Me().stage.Looping?
        invariant Ready() && Continues(old(cluster.log), cluster.log) && 1 <= no <= cluster.log.cfg.maxAttempts
        invariant Me().stage.Ended? || Me().stage == Looping(no)
        invariant Me().mode == old(Me()).mode && Me().owner == old(Me()).owner
        invariant Me().stage == Ended(true) ==> Concluded(cluster.Now(), no)
        invariant Me().mode.InProcess? && Untroubled(cluster.log, from, j) ==> Bound(no)
        invariant Alone() && Poised(s1) && Me().mode.InProcess? ==>
          OnCourse(cluster.log.cfg, s1, cluster.Now(), no)
        invariant Me().mode.Supervised? && Me().stage.Looping? ==>
          cluster.Now() == s1 && no == 1
          && |cluster.log.steps| == from
        invariant Me().mode.Supervised? && Me().stage.Ended? && Untroubled(cluster.log, from, j) ==>
          Me().stage == Ended(true) && Delivered(cluster.Now(), 1)
        invariant Alone() && CanSend(s1, 1) && Me().stage.Ended? ==> Sent(s1, cluster.Now(), 1)
        decreases cluster.log.cfg.maxAttempts - no, Me().stage.Looping?
      {
        no := Again(no, from, s1);
      }
    }

    /**
     * The retry loop. Whatever the others do it comes to an end, and if it ends cleanly the Run is terminal or its
     * one delivery waits in the host's queue. An in-process execution ends with exactly the terminal write that `Fate`
     * names, and a supervised one with the first Attempt delivered, whatever the others do and however long it takes,
     * unless one of its own Store calls was refused; left alone, none is.
     */
    method Execute()
      requires Ready() && Me().stage.Pending?
      modifies this, cluster, cluster.store
      ensures Ready() && Continues(old(cluster.log), cluster.log) && Me().stage.Ended?
      ensures Me().mode == old(Me()).mode && Me().owner == old(Me()).owner
      ensures Me().stage.clean ==>
        exists no: nat :: 1 <= no <= cluster.log.cfg.maxAttempts && Concluded(cluster.Now(), no)
      ensures Me().mode.InProcess? && Untroubled(cluster.log, |old(cluster.log).steps|, j) ==>
        JustClosed(Fate(cluster.log.cfg, 1, outcome))
      ensures Me().mode.Supervised? && Untroubled(cluster.log, |old(cluster.log).steps|, j) ==>
        Me().stage == Ended(true) && Delivered(cluster.Now(), 1)
      ensures Alone() && OwnerLive(old(cluster.Now()), j) && Me().mode.InProcess? ==>
                && Me().stage.clean && Closed(old(cluster.Now()), cluster.Now(), Fate(cluster.log.cfg, 1, outcome))
      ensures Alone() && Sendable(old(cluster.Now())) ==> Sent(old(cluster.Now()), cluster.Now(), 1)
    {
      Begin();
      Loop();
    }
  }
}
