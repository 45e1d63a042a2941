/** What may become of a call to an API. */
module Outcomes {
  /** The call took effect and its answer arrived; or it was refused without effect; or it took effect but
      the caller never learnt of it, which is also what a crash right after the call looks like. */
  datatype Outcome = Done | Refused | Lost {
    predicate Effective() { this != Refused }
  }
}
