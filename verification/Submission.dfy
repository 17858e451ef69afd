/**
 * Submitting and cancelling through one service process, while others share the Store (service.py `submit`, `cancel`).
 */
module Submission {
  import opened Prelude
  import opened Acceptance
  import opened Tables
  import opened StoreOps
  import opened History
  import opened StoreObject
  import opened Protocol
  import opened ProtocolTheorems
  import opened OnceOnly
  import opened Numbering
  import opened ClusterObject
  import opened ExecutorLoop

  /** `Conflict` and `Backpressure` are the errors the caller sees. */
  datatype SubmitEnd = Admitted | Existing | Conflict | Backpressure

  /** A job id keeps its Run and its spec for ever. */
  lemma SpecKept(b: Behavior, i: nat, l: nat, job: JobId)
    requires b.Valid() && i <= l <= |b.steps| && job in b.states[i].db.runs
    ensures job in b.states[l].db.runs && b.states[l].db.runs[job].spec == b.states[i].db.runs[job].spec
  {
    var h := RunIsDisciplinedHistory(b);
    RunsAndClosedRowsKept(h, i, l, job, AttemptKey(job, 0));
  }

  /** An executor that has not begun, or was cancelled before, has started no adapter. */
  lemma NotStartedYet(b: Behavior, i: nat, job: JobId, no: nat)
    requires b.Valid() && i <= |b.steps| && job in b.states[i].execs
    requires b.states[i].execs[job].stage.Pending? || b.states[i].execs[job].stage.Cancelled?
    ensures InProcessStart(AttemptKey(job, no)) !in b.states[i].starts
  {
    AlwaysStarts(b, i);
    var s := b.states[i];
    forall x | x in s.starts ensures x != InProcessStart(AttemptKey(job, no)) {
      assert StartKnown(b.cfg, s, x);
    }
  }

  /** An executor that has not begun, or was cancelled before, has recorded no Attempt. */
  lemma NothingRecordedYet(s: Sys, job: JobId)
    requires NumbersOk(s) && job in s.execs && (s.execs[job].stage.Pending? || s.execs[job].stage.Cancelled?)
    ensures NoAttempts(s.db, job)
  {
    forall k | k in s.db.attempts ensures k.job != job { assert NumberOk(s, k); }
  }

  class JobService {
    const cluster: Cluster
    const turns: seq<seq<Step>>
    var t: nat
    var futures: set<JobId>                // Runs this process has handed to its own threads

    constructor (cluster: Cluster, turns: seq<seq<Step>>)
      ensures this.cluster == cluster && this.turns == turns && this.t == 0 && this.futures == {}
    {
      this.cluster, this.turns, this.t, this.futures := cluster, turns, 0, {};
    }

    ghost predicate Ready()
      reads this, cluster, cluster.store
    {
      cluster.Valid()
    }

    ghost predicate Theirs(step: Step) { exists turn :: turn in turns && step in turn }

    /** From `from` on, every step either was another process's or changed nothing at all. */
    ghost predicate OnlyOthers(b: Behavior, from: nat)
      requires |b.states| == |b.steps| + 1
    {
      forall i :: from <= i < |b.steps| ==> b.states[i + 1] == b.states[i] || Theirs(b.steps[i])
    }

    method Yield(ghost from: nat)
      requires Ready() && from <= |cluster.log.steps| && OnlyOthers(cluster.log, from)
      modifies this`t, cluster, cluster.store
      ensures Ready() && Continues(old(cluster.log), cluster.log) && OnlyOthers(cluster.log, from)
      ensures turns == [] ==> cluster.log == old(cluster.log)
    {
      ghost var log0 := cluster.log;
      if t < |turns| {
        cluster.Others(turns[t], ReconcilerOf({}));
        t := t + 1;
      }
      forall i | from <= i < |cluster.log.steps| && cluster.log.states[i + 1] != cluster.log.states[i]
        ensures Theirs(cluster.log.steps[i])
      {
        if i < |log0.steps| {
          assert log0.steps[i] == cluster.log.steps[i] && log0.states[i] == cluster.log.states[i]
            && log0.states[i + 1] == cluster.log.states[i + 1];
        }
      }
    }

    /**
     * Admit a job. A refused or repeated submit changes nothing, and is refused only where there was no room; an
     * admitted one adds exactly one QUEUED Run with this spec, within the budget, and in local mode hands it to exactly
     * one thread.
     */
    method Submit(job: JobId, spec: SpecHash) returns (end: SubmitEnd)
      requires Ready()
      modifies this, cluster, cluster.store
      ensures Ready() && Continues(old(cluster.log), cluster.log)
      ensures end.Admitted? || OnlyOthers(cluster.log, |old(cluster.log).steps|)
      ensures end.Existing? ==> job in cluster.Now().db.runs && cluster.Now().db.runs[job].spec == spec
      ensures end.Conflict? ==> job in cluster.Now().db.runs && cluster.Now().db.runs[job].spec != spec
      ensures end.Backpressure? ==>
        && job !in old(cluster.Now()).db.runs
        && WasFull(cluster.log, |old(cluster.log).steps|, old(futures))
      ensures end.Admitted? ==> exists b: Behavior :: AdmitsAfter(old(cluster.log), b, cluster.log, job, spec)
      ensures futures == if end.Admitted? && cluster.log.cfg.local then old(futures) + {job} else old(futures)
      ensures turns == [] ==>
        && (end.Existing? || end.Conflict? <==> job in old(cluster.Now()).db.runs)
        && (end.Admitted? <==>
              job !in old(cluster.Now()).db.runs && !Full(cluster.log.cfg, old(cluster.Now()), old(futures)))
    {
      ghost var b0, s0 := cluster.log, cluster.Now();
      Yield(|b0.steps|);
      if job in s0.db.runs { SpecKept(cluster.log, |b0.steps|, |cluster.log.steps|, job); }
      var rows := cluster.store.Rows();
      if job in rows.runs { return if rows.runs[job].spec == spec then SubmitEnd.Existing else Conflict; }
      end := Admit(job, spec, b0);
    }

    /** The budget, counted first over the local futures and then, by the Store, over the Runs in flight. */
    method Admit(job: JobId, spec: SpecHash, ghost b0: Behavior) returns (end: SubmitEnd)
      requires |b0.states| == |b0.steps| + 1 && Ready() && Continues(b0, cluster.log)
      requires OnlyOthers(cluster.log, |b0.steps|)
      modifies this, cluster, cluster.store
      ensures Ready() && Continues(old(cluster.log), cluster.log)
      ensures end.Admitted? || OnlyOthers(cluster.log, |b0.steps|)
      ensures end.Existing? ==> job in cluster.Now().db.runs && cluster.Now().db.runs[job].spec == spec
      ensures end.Conflict? ==> job in cluster.Now().db.runs && cluster.Now().db.runs[job].spec != spec
      ensures end.Backpressure? ==> WasFull(cluster.log, |b0.steps|, old(futures))
      ensures end.Admitted? ==> exists b: Behavior :: AdmitsAfter(b0, b, cluster.log, job, spec)
      ensures futures == if end.Admitted? && cluster.log.cfg.local then old(futures) + {job} else old(futures)
      ensures turns == [] ==>
        && (end.Existing? || end.Conflict? ==> job in old(cluster.Now()).db.runs)
        && (end.Admitted? ==> !Full(cluster.log.cfg, old(cluster.Now()), old(futures)))
        && (end.Backpressure? ==> Full(cluster.log.cfg, old(cluster.Now()), old(futures)))
    {
      ghost var from, futures0 := |b0.steps|, futures;
      var budget := cluster.log.cfg.budget;
      if budget.Some? {
        Yield(from);
        var running := Busy(cluster.Now(), futures);
        BusyOnes(cluster.Now(), futures);
        if |running| >= budget.value {
          NoRoom(cluster.log, cluster.log, from, futures);
          return Backpressure;
        }
      }
      Yield(from);
      ghost var b := cluster.log;
      end := Create(job, spec, from);
      assert end.Admitted? ==> AdmitsAfter(b0, b, cluster.log, job, spec);
      if end.Backpressure? { NoRoom(b, cluster.log, from, futures0); }
    }

    /** The insert itself, and what a lost race against another submitter of the same id comes to. */
    method Create(job: JobId, spec: SpecHash, ghost from: nat) returns (end: SubmitEnd)
      requires Ready() && from <= |cluster.log.steps| && OnlyOthers(cluster.log, from)
      modifies this, cluster, cluster.store
      ensures Ready() && Continues(old(cluster.log), cluster.log)
      ensures end.Admitted? || OnlyOthers(cluster.log, from)
      ensures end.Existing? ==> job in cluster.Now().db.runs && cluster.Now().db.runs[job].spec == spec
      ensures end.Conflict? ==> job in cluster.Now().db.runs && cluster.Now().db.runs[job].spec != spec
      ensures end.Backpressure? ==> OverBudget(cluster.log.cfg, old(cluster.Now()))
      ensures end.Existing? || end.Conflict? ==> job in old(cluster.Now()).db.runs
      ensures end.Admitted? ==> Admits(old(cluster.log), cluster.log, job, spec)
      ensures futures == if end.Admitted? && cluster.log.cfg.local then old(futures) + {job} else old(futures)
    {
      ghost var n := |cluster.log.steps|;
      var result := cluster.store.CreateRun(cluster.Now().now, job, spec, cluster.log.cfg.budget);
      cluster.Took(Protocol.Step.Submit(job, spec));
      match result {
        case Created(_) =>
          if cluster.log.cfg.local { futures := futures + {job}; }
          end := Admitted;
        case BudgetExhausted =>
          end := Backpressure;
        case Existing =>
          Yield(from);
          SpecKept(cluster.log, n, |cluster.log.steps|, job);
          end := if cluster.store.runs[job].spec == spec then SubmitEnd.Existing else Conflict;
      }
    }

    ghost predicate OverBudget(cfg: Config, s: Sys) { cfg.budget.Some? && |InFlight(s.db)| >= cfg.budget.value }

    /**
     * The last step of `b'` admits the job: one QUEUED Run more, within the budget, and in local mode one thread more.
     */
    ghost predicate Admits(b: Behavior, b': Behavior, job: JobId, spec: SpecHash)
      requires |b.states| == |b.steps| + 1 && |b'.states| == |b'.steps| + 1
    {
      var s, s' := Last(b), Last(b');
      && b'.states[..|b'.steps|] == b.states && b'.steps == b.steps + [Protocol.Step.Submit(job, spec)]
      && job !in s.db.runs && s'.db == s.db.(runs := s.db.runs[job := Run(RunQueued, spec, NO_VERDICT, s.now)])
      && !OverBudget(b.cfg, s)
      && s'.execs == if b.cfg.local then s.execs[job := Executor(InProcess, None, Pending)] else s.execs
    }

    /** Nothing of this process happened up to `b`; then it admitted the job. */
    ghost predicate AdmitsAfter(b0: Behavior, b: Behavior, b': Behavior, job: JobId, spec: SpecHash)
      requires |b0.states| == |b0.steps| + 1 && |b'.states| == |b'.steps| + 1
    {
      |b.states| == |b.steps| + 1 && Continues(b0, b) && OnlyOthers(b, |b0.steps|) && Admits(b, b', job, spec)
    }

    /** The local futures that are not done; a cancelled one is. */
    function Busy(s: Sys, futures: set<JobId>): set<JobId> {
      set j | j in futures && j in s.execs && !s.execs[j].stage.Ended? && !s.execs[j].stage.Cancelled?
    }

    /** The local future is still to come to its end: it waits, or its thread is somewhere in the retry loop. */
    predicate Unfinished(s: Sys, j: JobId) {
      j in s.execs && match s.execs[j].stage
                      case Cancelled(_) => false
                      case Ended(_) => false
                      case _ => true
    }

    /** No room: too many live local futures, or too many Runs in flight in the Store. */
    ghost predicate Full(cfg: Config, s: Sys, futures: set<JobId>) {
      cfg.budget.Some? && (|set j | j in futures && Unfinished(s, j)| >= cfg.budget.value || OverBudget(cfg, s))
    }

    /** At some moment since `from` there was no room. */
    ghost predicate WasFull(b: Behavior, from: nat, futures: set<JobId>)
      requires |b.states| == |b.steps| + 1
    {
      exists i :: from <= i <= |b.steps| && Full(b.cfg, b.states[i], futures)
    }

    /** The local futures that are not done are the unfinished ones. */
    lemma BusyOnes(s: Sys, futures: set<JobId>)
      ensures Busy(s, futures) == set j | j in futures && Unfinished(s, j)
    {
    }

    lemma NoRoom(b: Behavior, c: Behavior, from: nat, futures: set<JobId>)
      requires |b.states| == |b.steps| + 1 && |c.states| == |c.steps| + 1 && Continues(b, c) && from <= |b.steps|
      requires b.cfg.budget.Some?
      requires |Busy(Last(b), futures)| >= b.cfg.budget.value || OverBudget(b.cfg, Last(b))
      ensures WasFull(c, from, futures)
    {
      BusyOnes(Last(b), futures);
      assert Full(c.cfg, c.states[|b.steps|], futures);
    }

    /** `Future.cancel` succeeds: on a future that has not begun, and again on one it has cancelled. */
    predicate Cancellable(ex: Executor) { ex.stage.Pending? || ex.stage.Cancelled? }

    /** The Run was cancelled by the last step: CANCELLED, untrusted, without Attempts, its adapter never started. */
    ghost predicate JustCancelled(b: Behavior, job: JobId)
      requires |b.states| == |b.steps| + 1
    {
      var s := Last(b);
      && b.steps != [] && b.steps[|b.steps| - 1] == CancelWrite(job)
      && job in s.execs && s.execs[job].stage.Cancelled?
      && job in s.db.runs && s.db.runs[job].status.RunCancelled? && s.db.runs[job].verdict.trust.TrustInvalid?
      && s.db.runs[job].updatedAt == s.now && NoAttempts(s.db, job)
      && forall no: nat :: InProcessStart(AttemptKey(job, no)) !in s.starts
    }

    /** The future is cancelled: whatever the others have made of the Run meanwhile, it is CANCELLED now. */
    method WriteCancelled(job: JobId)
      requires Ready() && job in cluster.Now().execs && cluster.Now().execs[job].stage.Cancelled?
      modifies this`t, cluster, cluster.store
      ensures Ready() && Continues(old(cluster.log), cluster.log) && |old(cluster.log).steps| < |cluster.log.steps|
      ensures JustCancelled(cluster.log, job)
    {
      ghost var n := |cluster.log.steps|;
      if t < |turns| {
        cluster.Others(turns[t], CancellerOf(job));
        t := t + 1;
      }
      OthersKeepCancelled(cluster.log, n, |cluster.log.steps|, job);
      AlwaysStarts(cluster.log, |cluster.log.steps|);
      AlwaysNumbered(cluster.log, |cluster.log.steps|);
      assert ExecutorKnown(cluster.log.cfg, cluster.Now(), job);
      NothingRecordedYet(cluster.Now(), job);
      forall no: nat ensures InProcessStart(AttemptKey(job, no)) !in cluster.Now().starts {
        NotStartedYet(cluster.log, |cluster.log.steps|, job, no);
      }
      cluster.store.UpdateRun(cluster.Now().now, job, RunCancelled, Some(TrustInvalid));
      cluster.Took(CancelWrite(job));
    }

    /**
     * Cancel a job handed to this process. If its thread has not begun, or it was cancelled before, the Run becomes
     * CANCELLED, whatever it was, and its adapter was never started; otherwise the adapter is asked, and nothing is
     * written here.
     */
    method Cancel(job: JobId, adapterAgrees: bool) returns (ok: bool)
      requires Ready() && futures <= cluster.Now().execs.Keys
      modifies this`t, cluster, cluster.store
      ensures Ready() && Continues(old(cluster.log), cluster.log)
      ensures var stage := if job in futures then Some(old(cluster.Now()).execs[job].stage) else None;
              if stage == Some(Pending) || stage == Some(Cancelled(false)) || stage == Some(Cancelled(true))
              then ok && |old(cluster.log).steps| < |cluster.log.steps| && JustCancelled(cluster.log, job)
              else cluster.log == old(cluster.log) && ok == (job in futures && adapterAgrees)
    {
      if job !in futures { return false; }
      if !Cancellable(cluster.Now().execs[job]) { return adapterAgrees; }
      if cluster.Now().execs[job].stage.Pending? { cluster.Took(CancelFuture(job)); }
      WriteCancelled(job);
      ok := true;
    }
  }
}
