/** Statuses of a task instance and the order in which they may follow each other. */
module TaskStatus {

  datatype Status = Planned | Queued | Running | Waiting | Success | Failure | Canceled

  /** Success, Failure or Canceled. */
  predicate Finished(s: Status) {
    s.Success? || s.Failure? || s.Canceled?
  }

  /** Neither planned nor queued any more; a canceled instance counts as started. */
  predicate Started(s: Status) {
    !s.Planned? && !s.Queued?
  }

  /** Holding a slot of its task and the resources of its host. */
  predicate Active(s: Status) {
    s.Running? || s.Waiting?
  }

  /** The edges of the status diagram, closed under reflexivity and transitivity. */
  predicate CanBecome(s: Status, t: Status) {
    match s
    case Planned => true
    case Queued => !t.Planned?
    case Running => t.Running? || t.Waiting? || t.Success? || t.Failure?
    case Waiting => t.Waiting? || t.Success? || t.Failure?
    case _ => s == t
  }
}
