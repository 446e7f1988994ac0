/** The lifecycle states of a Task and what each one tells the Tasks that
    start after it (core/state.go, stateOutcome in eligibility.go). */
module Outcomes {

  /** A Task is named by its index in the run's Task arrays. */
  type TaskId = nat

  datatype EntityState =
    | Pending | Running | Done | Blocked | Failed | Skipped
    | Cancelled | Empty | Incomplete | NotStarted

  /** What a predecessor currently tells the Tasks after it. */
  datatype Outcome = PredPending | PredSucceeded | PredFailed

  function StateOutcome(s: EntityState): Outcome {
    match s
    case Done | Skipped => PredSucceeded
    case Failed | Blocked | Cancelled | NotStarted => PredFailed
    case _ => PredPending
  }

  predicate IsTerminal(s: EntityState) {
    s in {Done, Blocked, Failed, Cancelled, Skipped, NotStarted}
  }

  /** The two classifications agree: a state decides its dependents exactly
      when it is terminal. */
  lemma TerminalIffDecided(s: EntityState)
    ensures IsTerminal(s) <==> StateOutcome(s) != PredPending
  {
  }

  /** Every change between two state arrays is a non-terminal Task moving on. */
  ghost predicate TerminalStays(was: seq<EntityState>, now: seq<EntityState>) {
    && |was| <= |now|
    && forall i :: 0 <= i < |was| && IsTerminal(was[i]) ==> now[i] == was[i]
  }
}
