/** The transition graph of a project. */
module Graph {
  import opened Domain

  function Successors(status: ProjectStatus): seq<ProjectStatus> {
    match status
    case Draft => [IntakePending]
    case IntakePending => [ReadyForPlanning]
    case ReadyForPlanning => [InProgress]
    case InProgress => [WaitingApproval, ReviewFailed, Completed]
    case WaitingApproval => [InProgress, RevisionRequested]
    case ReviewFailed => [RevisionRequested]
    case RevisionRequested => [ReadyForPlanning, InProgress]
    case Completed => []
  }

  predicate CanTransition(current: ProjectStatus, next: ProjectStatus) {
    next in Successors(current)
  }
}
