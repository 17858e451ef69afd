/**
 * A pass abandons an Attempt on what it read of it. The row it closes may be newer: a process or an owner is recorded
 * under the lease token alone, also after the lease has lapsed and under a recovery claim (store.py
 * `record_attempt_process`, `record_attempt_execution`). When does the evidence hold of the row itself?
 */
module RowEvidence {
  import opened Prelude
  import opened Acceptance
  import opened Tables
  import opened StoreOps
  import opened History
  import opened Columns
  import opened Protocol
  import opened ProtocolTheorems
  import opened ClusterObject
  import opened Reconciling

  // ---------------------------------------------------------------- what changes the child and the owner of a row

  /** The Store call that step `i` makes. */
  function CallAt(b: Behavior, i: nat): Op
    requires |b.states| == |b.steps| + 1 && i < |b.steps| && Enabled(b.cfg, b.states[i], b.steps[i])
  {
    CallOf(b.cfg, b.states[i], b.steps[i])
  }

  /** Step `i` records a child of `k`. */
  ghost predicate RecordsChild(b: Behavior, i: nat, k: AttemptKey)
    requires |b.states| == |b.steps| + 1 && i < |b.steps|
  {
    && Enabled(b.cfg, b.states[i], b.steps[i]) && k in b.states[i].db.attempts
    && ChildWritten(b.states[i].db, Event(b.states[i].now, CallAt(b, i)), k).Some?
  }

  /** Step `i` registers an owner of `k`. */
  ghost predicate RecordsOwner(b: Behavior, i: nat, k: AttemptKey)
    requires |b.states| == |b.steps| + 1 && i < |b.steps|
  {
    && Enabled(b.cfg, b.states[i], b.steps[i]) && k in b.states[i].db.attempts
    && OwnerWritten(b.states[i].db, Event(b.states[i].now, CallAt(b, i)), k).Some?
  }

  lemma StepKeepsFields(b: Behavior, i: nat, k: AttemptKey)
    requires b.Valid() && i < |b.steps| && k in b.states[i].db.attempts
    ensures k in b.states[i + 1].db.attempts
    ensures var a, a' := b.states[i].db.attempts[k], b.states[i + 1].db.attempts[k];
            && a'.child == (if RecordsChild(b, i, k) then Some(CallAt(b, i).child) else a.child)
            && a'.owner == (if RecordsOwner(b, i, k) then Some(CallAt(b, i).owner) else a.owner)
  {
    assert b.Takes(i);
    var h := CallHistory(b.cfg, b.states[i], b.steps[i]);
    AttemptColumns(h, 0, k);
  }

  lemma {:induction false} RowStays(b: Behavior, from: nat, to: nat, k: AttemptKey)
    requires b.Valid() && from <= to <= |b.steps| && k in b.states[from].db.attempts
    ensures k in b.states[to].db.attempts
  {
    if from < to {
      RowStays(b, from, to - 1, k);
      StepKeepsFields(b, to - 1, k);
    }
  }

  // ---------------------------------------------------------------- the child

  /** The last step between the two states that records a child of `k`. */
  ghost function LastChildRecord(b: Behavior, from: nat, to: nat, k: AttemptKey): (i: Option<nat>)
    requires b.Valid() && to <= |b.steps|
    ensures i.Some? ==> from <= i.value < to && RecordsChild(b, i.value, k)
    ensures forall l: nat :: from <= l < to && RecordsChild(b, l, k) ==> i.Some? && l <= i.value
  {
    if to <= from then None
    else if RecordsChild(b, to - 1, k) then Some(to - 1)
    else LastChildRecord(b, from, to - 1, k)
  }

  /** What the pass found out about the child it read, `a.child`, holds of the row's: it is that one, and settled. */
  predicate ChildHolds(row: Attempt, a: Attempt, s: Sighting, now: real) {
    row.child.Some? ==> a.child.Some? && row.child.value.pid == a.child.value.pid && ChildSettled(row, s, now)
  }

  /** A child was recorded between the two states, and of the last one the pass has not found that out. */
  ghost predicate LateChild(b: Behavior, from: nat, to: nat, k: AttemptKey, a: Attempt, s: Sighting, now: real)
    requires b.Valid() && to <= |b.steps|
  {
    var i := LastChildRecord(b, from, to, k);
    i.Some? && !ChildHolds(a.(child := Some(CallAt(b, i.value).child)), a, s, now)
  }

  lemma {:induction false} ChildSince(b: Behavior, from: nat, to: nat, k: AttemptKey)
    requires b.Valid() && from <= to <= |b.steps| && k in b.states[from].db.attempts
    ensures k in b.states[to].db.attempts
    ensures var i := LastChildRecord(b, from, to, k);
            b.states[to].db.attempts[k].child ==
              if i.Some? then Some(CallAt(b, i.value).child) else b.states[from].db.attempts[k].child
  {
    if from < to {
      ChildSince(b, from, to - 1, k);
      StepKeepsFields(b, to - 1, k);
    }
  }

  // ---------------------------------------------------------------- the owner

  /** The last step between the two states that registers an owner of `k`. */
  ghost function LastOwnerRecord(b: Behavior, from: nat, to: nat, k: AttemptKey): (i: Option<nat>)
    requires b.Valid() && to <= |b.steps|
    ensures i.Some? ==> from <= i.value < to && RecordsOwner(b, i.value, k)
    ensures forall l: nat :: from <= l < to && RecordsOwner(b, l, k) ==> i.Some? && l <= i.value
  {
    if to <= from then None
    else if RecordsOwner(b, to - 1, k) then Some(to - 1)
    else LastOwnerRecord(b, from, to - 1, k)
  }

  /** A foreign execution has its witness in `db`. */
  predicate OwnerHolds(row: Attempt, db: Db, me: Option<SessionId>) { Foreign(row, me) ==> Witnessed(db, row) }

  /** An owner was registered between the two states, and the last one is foreign and without a witness in `db`. */
  ghost predicate LateOwner(b: Behavior, from: nat, to: nat, k: AttemptKey, a: Attempt, db: Db, me: Option<SessionId>)
    requires b.Valid() && to <= |b.steps|
  {
    var i := LastOwnerRecord(b, from, to, k);
    i.Some? && !OwnerHolds(a.(owner := Some(CallAt(b, i.value).owner)), db, me)
  }

  lemma {:induction false} OwnerSince(b: Behavior, from: nat, to: nat, k: AttemptKey)
    requires b.Valid() && from <= to <= |b.steps| && k in b.states[from].db.attempts
    ensures k in b.states[to].db.attempts
    ensures var i := LastOwnerRecord(b, from, to, k);
            b.states[to].db.attempts[k].owner ==
              if i.Some? then Some(CallAt(b, i.value).owner) else b.states[from].db.attempts[k].owner
  {
    if from < to {
      OwnerSince(b, from, to - 1, k);
      StepKeepsFields(b, to - 1, k);
    }
  }

  // ---------------------------------------------------------------- the evidence

  /** In state `i` the evidence holds of the row itself: of the child and of the owner it has by then. */
  ghost predicate HoldsOfRow(b: Behavior, v: View, e: Evidence, i: nat)
    requires b.Valid() && i <= |b.steps| && e.judged <= |b.steps| && e.k in v.seen.attempts
  {
    && e.k in b.states[i].db.attempts
    && var row, a := b.states[i].db.attempts[e.k], v.seen.attempts[e.k];
       && ChildHolds(row, a, v.Sight(e.k.job), b.states[e.judged].now)
       && OwnerHolds(row, b.states[i].db, v.me)
  }

  /** Before state `i`, after the pass had read the Attempt, somebody recorded a child or owner it knows nothing of. */
  ghost predicate Overtaken(b: Behavior, v: View, e: Evidence, i: nat)
    requires b.Valid() && i <= |b.steps| && e.judged <= |b.steps| && e.k in v.seen.attempts && e.k.job in v.read
  {
    var a, from := v.seen.attempts[e.k], v.read[e.k.job];
    || LateChild(b, from, i, e.k, a, v.Sight(e.k.job), b.states[e.judged].now)
    || LateOwner(b, from, i, e.k, a, b.states[i].db, v.me)
  }

  /** The pass read the Attempts of the Run in some state before it turned to its first Run. */
  ghost predicate WasRead(b: Behavior, v: View, j: JobId)
    requires |b.states| == |b.steps| + 1
  {
    j in v.read && v.read[j] <= v.from <= |b.steps| && SameAttempts(b.states[v.read[j]].db, v.seen, j)
  }

  lemma {:induction false} WitnessesStay(b: Behavior, from: nat, to: nat)
    requires b.Valid() && from <= to <= |b.steps|
    ensures b.states[from].db.witnesses.Keys <= b.states[to].db.witnesses.Keys
  {
    if from < to {
      WitnessesStay(b, from, to - 1);
      assert b.Takes(to - 1);
      StepIsOneCall(b.cfg, b.states[to - 1], b.steps[to - 1]);
      CallKeepsWitnesses(b.cfg.kind, b.states[to - 1].db, b.states[to - 1].now, CallAt(b, to - 1));
    }
  }

  lemma CallKeepsWitnesses(kind: StoreKind, db: Db, now: real, op: Op)
    ensures db.witnesses.Keys <= Apply(kind, db, now, op).db.witnesses.Keys
  {
    var h := History(kind, [db, Apply(kind, db, now, op).db], [Event(now, op)]);
    assert h.Step(0);
    forall x | x in db.witnesses ensures x in h.rows[1].witnesses { LedgerStep(h, 0, x); }
  }

  /**
   * What the pass has on an Attempt it abandons holds of the row, at the claim and at any later moment, if and only if
   * the pass was not overtaken: nobody has recorded a child or an owner since that it knows nothing of.
   */
  lemma EvidenceHoldsExactlyWhen(b: Behavior, v: View, e: Evidence, i: nat)
    requires b.Valid() && Justifies(e, b, v) && WasRead(b, v, e.k.job) && e.claim <= i <= |b.steps|
    ensures HoldsOfRow(b, v, e, i) <==> !Overtaken(b, v, e, i)
  {
    var from := v.read[e.k.job];
    assert e.k in b.states[from].db.attempts && b.states[from].db.attempts[e.k] == v.seen.attempts[e.k];
    ChildSince(b, from, i, e.k);
    OwnerSince(b, from, i, e.k);
    WitnessesStay(b, e.claim, i);
  }

  /** In particular it holds where nobody records anything of the Attempt between the reading and the closing. */
  lemma NotOvertaken(b: Behavior, v: View, e: Evidence, i: nat)
    requires b.Valid() && Justifies(e, b, v) && WasRead(b, v, e.k.job) && e.claim <= i <= |b.steps|
    requires forall l: nat :: v.read[e.k.job] <= l < i ==> !RecordsChild(b, l, e.k) && !RecordsOwner(b, l, e.k)
    ensures HoldsOfRow(b, v, e, i)
  {
    EvidenceHoldsExactlyWhen(b, v, e, i);
  }

  /** So for each recovered Run that had an Attempt, both when the Attempt was claimed and when it was closed. */
  ghost predicate AllHoldOfRows(b: Behavior, v: View, recovered: seq<JobId>, evidence: map<JobId, Evidence>)
    requires b.Valid() && AllJustified(b, v, recovered, evidence)
  {
    forall j :: j in recovered && !NoAttempts(v.seen, j) && j in v.read ==>
      var e := evidence[j];
      && (HoldsOfRow(b, v, e, e.claim) <==> !Overtaken(b, v, e, e.claim))
      && (HoldsOfRow(b, v, e, e.close) <==> !Overtaken(b, v, e, e.close))
  }

  lemma RecoveredHoldOfRows(b: Behavior, v: View, recovered: seq<JobId>, evidence: map<JobId, Evidence>)
    requires b.Valid() && AllJustified(b, v, recovered, evidence) && forall j :: j in recovered ==> WasRead(b, v, j)
    ensures AllHoldOfRows(b, v, recovered, evidence)
  {
    forall j | j in recovered && !NoAttempts(v.seen, j)
      ensures var e := evidence[j];
              && (HoldsOfRow(b, v, e, e.claim) <==> !Overtaken(b, v, e, e.claim))
              && (HoldsOfRow(b, v, e, e.close) <==> !Overtaken(b, v, e, e.close))
    {
      EvidenceHoldsExactlyWhen(b, v, evidence[j], evidence[j].claim);
      EvidenceHoldsExactlyWhen(b, v, evidence[j], evidence[j].close);
    }
  }
}
