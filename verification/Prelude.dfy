/** Stock datatypes and the identifiers shared by every component. */
module Prelude {
  datatype Option<+T> = None | Some(value: T)

  // Identifiers are only ever compared for equality by the protocol, so each is a number.
  // (Ordering of job ids matters for listing only; Pagination.dfy uses real strings.)
  type JobId = nat
  type Token = nat
  type HostId = nat
  type Epoch = nat
  type SessionId = nat
  type ExecutionId = nat
  type SupervisorId = nat
  type SpecHash = nat

  /** A subset has no more elements. */
  lemma SubsetCount<T>(a: set<T>, b: set<T>)
    requires a <= b
    ensures |a| <= |b|
  {
    assert b == a + (b - a);
  }
}
