/**
 * The shared Store together with every other process, for the programs that run against it.
 *
 * Between two of its own Store calls a program gives the others a turn; what they do is an arbitrary list of
 * protocol steps. The cluster keeps the whole run so far as a `Behavior`, so what a program does is itself part
 * of a protocol run, and what is proved of all runs holds of it.
 */
module ClusterObject {
  import opened Prelude
  import opened Tables
  import opened StoreOps
  import opened History
  import opened Protocol
  import opened StoreObject
  import opened ProtocolInvariant
  import opened OnceOnly

  /** Whose program counter a program owns: the steps no other process may take for it. */
  datatype Role =
    | WorkerOf(host: HostId)
    | ExecutorOf(job: JobId)
    | CancellerOf(job: JobId)            // holds the service's lock; the pool may still notice
    | SupervisorOf(execution: ExecutionId)
    | ReconcilerOf(tokens: set<Token>)   // the tokens it draws, for its passes and its claims, are its own

  predicate Owns(role: Role, step: Step) {
    match role
    case WorkerOf(h) => step.ClaimRun? && step.owner.Some? && step.owner.value.host == h
    case ExecutorOf(j) => ExecutorStep(step) && step.job == j
    case CancellerOf(j) => ExecutorStep(step) && !step.Notice? && step.job == j
    case SupervisorOf(e) =>
      (step.SupervisorClaim? || step.SupervisorStart? || step.SupervisorStop? || step.SupervisorFinalize?)
      && step.execution == e
    case ReconcilerOf(tokens) =>
      || (step.Bystander? && step.op.OpClaimRecovery? && step.op.token in tokens)
      || ((step.List? || step.SeeEmpty? || step.FailEmpty? || step.Forget?) && step.pass in tokens)
  }

  class Cluster {
    const store: Store
    var log: Behavior

    constructor (cfg: Config)
      requires 1 <= cfg.maxAttempts
      ensures Valid() && fresh(store) && log == Behavior(cfg, [INITIAL], [])
    {
      store := new Store(cfg.kind);
      log := Behavior(cfg, [INITIAL], []);
    }

    ghost predicate Valid()
      reads this, store
    {
      log.Valid() && store.kind == log.cfg.kind && store.Rows() == Last(log).db
    }

    function Now(): Sys
      reads this
      requires |log.states| == |log.steps| + 1
    {
      Last(log)
    }

    /** A Store call has been made, or an event outside the database has happened: the program counter moves on. */
    method Took(step: Step)
      requires log.Valid() && store.kind == log.cfg.kind
      requires Enabled(log.cfg, Now(), step) && store.Rows() == Next(log.cfg, Now(), step).db
      modifies this
      ensures Valid() && log == Append(old(log), step) && Continues(old(log), log)
    {
      AppendIsValid(log, step);
      log := Append(log, step);
    }

    /** Play the run `b` from the empty database. */
    method Replay(steps: seq<Step>, ghost b: Behavior)
      requires Valid() && log.steps == [] && b.Valid() && b.cfg == log.cfg && b.steps == steps
      modifies this, store
      ensures Valid() && log == b
    {
      var i := 0;
      while i < |steps|
        invariant 0 <= i <= |steps| && log.Valid() && store.kind == log.cfg.kind && log.cfg == b.cfg
        invariant log.states == b.states[..i + 1] && log.steps == steps[..i]
      {
        assert b.Takes(i);
        AppendIsValid(log, steps[i]);
        log := Append(log, steps[i]);
        i := i + 1;
      }
      store.Observe(Last(log).db);
    }

    /** The other processes take any steps they can; a step that is not possible, or not theirs, does not happen. */
    method Others(turn: seq<Step>, role: Role)
      requires Valid()
      modifies this, store
      ensures Valid() && Continues(old(log), log)
      ensures forall i :: |old(log).steps| <= i < |log.steps| ==> !Owns(role, log.steps[i]) && log.steps[i] in turn
    {
      var i := 0;
      while i < |turn|
        invariant 0 <= i <= |turn| && log.Valid() && store.kind == log.cfg.kind && Continues(old(log), log)
        invariant forall l :: |old(log).steps| <= l < |log.steps| ==> !Owns(role, log.steps[l]) && log.steps[l] in turn
      {
        if !Owns(role, turn[i]) && Enabled(log.cfg, Last(log), turn[i]) {
          AppendIsValid(log, turn[i]);
          log := Append(log, turn[i]);
        }
        i := i + 1;
      }
      store.Observe(Last(log).db);
    }
  }
}
