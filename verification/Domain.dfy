/** The records of a project, as the values that the repository stores. */
module Domain {
  import opened Prelude

  datatype Department = Research | Design | Build | Review | Trend

  datatype ActorRole = Owner | Operator | Approver | Admin | Viewer

  datatype ActorType = Human | Service | System

  datatype Actor = Actor(id: string, role: ActorRole, kind: ActorType)

  const SYSTEM_ACTOR := Actor("system", Admin, System)

  /** The `actor` argument of the public operations. */
  datatype ActorArgument = Nobody | Named(name: string) | Known(actor: Actor)

  datatype ActionType = ExternalApiSend | DestructiveChange | BulkModify | ProductionAffectingChange

  function ActionValue(action: ActionType): string {
    match action
    case ExternalApiSend => "external_api_send"
    case DestructiveChange => "destructive_change"
    case BulkModify => "bulk_modify"
    case ProductionAffectingChange => "production_affecting_change"
  }

  /** The action types in the order of their values. */
  const ACTIONS_BY_VALUE := [BulkModify, DestructiveChange, ExternalApiSend, ProductionAffectingChange]

  /** An element of an action list: an enum member or a text to be parsed. */
  datatype ActionInput = Typed(action: ActionType) | Written(text: string)

  datatype PolicyRule = PolicyRule(allowedRoles: seq<ActorRole>, allowedActorIds: seq<string>)

  /** A dictionary whose keys are texts, in its iteration order. */
  type Dictionary<+V> = seq<(string, V)>

  datatype ProjectPolicy = ProjectPolicy(
    owner: Option<string>, strictMode: bool, actionRules: Dictionary<PolicyRule>)

  /** A value of the per-call override dictionary. */
  datatype RuntimeIds = IdList(ids: seq<string>) | NotAList

  type RuntimeOverride = Dictionary<RuntimeIds>

  datatype ProjectStatus =
    | Draft | IntakePending | ReadyForPlanning | InProgress | WaitingApproval
    | ReviewFailed | RevisionRequested | Completed

  datatype TaskStatus = Pending | Started | Waiting | NeedsRevision | Done | Blocked

  datatype Task = Task(
    id: string, title: string, department: Department, status: TaskStatus,
    dependsOn: seq<string>, note: string)

  /** The part of a task that no operation changes. */
  datatype TaskShape = TaskShape(
    id: string, title: string, department: Department, dependsOn: seq<string>)

  datatype Provider = Mock | Gemini | Grok | OpenAI

  /** Of an artifact's content only the provider of a trend analysis is kept. */
  datatype Artifact = Artifact(id: string, taskId: string, kind: Department, provider: Option<Provider>)

  datatype Verdict = Accepted | ChangesRequested

  datatype Finding = NoArtifacts | SimulatedFailure

  datatype ReviewNote = ReviewNote(id: string, taskId: string, verdict: Verdict, findings: seq<Finding>)

  datatype CheckpointId = DeliveryOf(project: nat) | ApprovalOf(project: nat)

  datatype Checkpoint = Checkpoint(id: CheckpointId, approved: bool, approver: string, note: string)

  datatype ApprovalStatus = Undecided | Approved | Rejected

  datatype Approval = Approval(
    id: nat, action: ActionType, status: ApprovalStatus, requestedBy: string, decisionNote: string)

  datatype RevisionMode = Replanning | Rebuilding | Rereview

  datatype ResumeMode = ApprovalResume | ApprovalResumePartial | RevisionResume(mode: RevisionMode)

  /** The type of a history event together with its metadata. */
  datatype EventKind =
    | AuthenticationSucceeded
    | AuthenticationFailed
    | ActorResolved
    | StateTransition(source: ProjectStatus, target: ProjectStatus)
    | ApprovalRequested(action: ActionType)
    | ApprovalApproved(action: ActionType)
    | ApprovalRejected(action: ActionType, autoClosed: bool)
    | AuthorizationGranted(action: ActionType)
    | AuthorizationFailed(action: ActionType)
    | PolicyOverrideApplied(action: ActionType)
    | RevisionWasRequested
    | ReplanningStarted(reset: bool)
    | ResumeTriggered(resume: ResumeMode)
    | TaskStatusChanged(taskId: string, before: TaskStatus, after: TaskStatus)

  datatype EventType =
    | AuthenticationSucceededType | AuthenticationFailedType | ActorResolvedType | StateTransitionType
    | ApprovalRequestedType | ApprovalApprovedType | ApprovalRejectedType
    | AuthorizationGrantedType | AuthorizationFailedType | PolicyOverrideAppliedType
    | RevisionWasRequestedType | ReplanningStartedType | ResumeTriggeredType | TaskStatusChangedType

  function TypeOf(kind: EventKind): EventType {
    match kind
    case AuthenticationSucceeded => AuthenticationSucceededType
    case AuthenticationFailed => AuthenticationFailedType
    case ActorResolved => ActorResolvedType
    case StateTransition(_, _) => StateTransitionType
    case ApprovalRequested(_) => ApprovalRequestedType
    case ApprovalApproved(_) => ApprovalApprovedType
    case ApprovalRejected(_, _) => ApprovalRejectedType
    case AuthorizationGranted(_) => AuthorizationGrantedType
    case AuthorizationFailed(_) => AuthorizationFailedType
    case PolicyOverrideApplied(_) => PolicyOverrideAppliedType
    case RevisionWasRequested => RevisionWasRequestedType
    case ReplanningStarted(_) => ReplanningStartedType
    case ResumeTriggered(_) => ResumeTriggeredType
    case TaskStatusChanged(_, _, _) => TaskStatusChangedType
  }

  /** The `mode` entry of an event's metadata. */
  function ModeOf(kind: EventKind): Option<ResumeMode> {
    if kind.ResumeTriggered? then Some(kind.resume) else None
  }

  datatype Event = Event(kind: EventKind, actor: Actor)

  /** One `"a -> b"` line of a project's history. */
  datatype HistoryLine = HistoryLine(source: ProjectStatus, target: ProjectStatus)

  datatype Record = Record(
    id: nat, policy: ProjectPolicy, status: ProjectStatus,
    tasks: seq<Task>, artifacts: seq<Artifact>, reviews: seq<ReviewNote>,
    checkpoints: seq<Checkpoint>, approvals: seq<Approval>,
    history: seq<HistoryLine>, events: seq<Event>)

  datatype Error =
    | InvalidTransition(source: ProjectStatus, target: ProjectStatus)
    | InvalidState(expected: ProjectStatus, current: ProjectStatus)
    | UnsupportedAction
    | UnsupportedProvider
    | ActionsRequired
    | ReasonRequired
    | NoPendingApprovals
    | UnknownActions
    | AlreadyRejected
    | NotPending
    | ProjectNotFound
    | PermissionDenied(action: ActionType)

  function ShapeOf(task: Task): TaskShape {
    TaskShape(task.id, task.title, task.department, task.dependsOn)
  }

  /** The plan behind a task list: everything but statuses and notes. */
  function Shape(tasks: seq<Task>): (plan: seq<TaskShape>)
    ensures |plan| == |tasks|
    ensures forall i :: 0 <= i < |tasks| ==> plan[i] == ShapeOf(tasks[i])
  {
    seq(|tasks|, i requires 0 <= i < |tasks| => ShapeOf(tasks[i]))
  }
}
