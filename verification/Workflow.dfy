/** Every operation of the orchestrator as a function of one project record. */
module Workflow {
  import opened Prelude
  import opened Domain
  import Text
  import Graph
  import Rules = ApprovalRules

  /** The provider name of a call and the strictness flag that is set while it runs. */
  datatype Launch = Launch(providerName: string, strictProviders: bool)

  datatype Answer = Summary(record: Record) | Silent | Raised(error: Error)

  /** What an operation saves, if anything, and what its caller sees. */
  datatype Outcome = Outcome(saved: Option<Record>, answer: Answer)

  function Raise(error: Error): Outcome {
    Outcome(None, Raised(error))
  }

  function Keep(v: Record): Outcome {
    Outcome(None, Summary(v))
  }

  function Commit(result: Result<Record, Error>): Outcome {
    match result
    case Ok(v) => Outcome(Some(v), Summary(v))
    case Err(error) => Raise(error)
  }

  /** The store after an operation. */
  function Persist(store: map<nat, Record>, o: Outcome): map<nat, Record> {
    if o.saved.Some? then store[o.saved.value.id := o.saved.value] else store
  }

  /******* Single changes *******/

  function RecordEvent(v: Record, kind: EventKind, actor: Actor): Record {
    v.(events := v.events + [Event(kind, actor)])
  }

  function Transition(v: Record, next: ProjectStatus, actor: Actor): Result<Record, Error> {
    if v.status == next then Ok(v)
    else if !Graph.CanTransition(v.status, next) then Err(InvalidTransition(v.status, next))
    else Ok(RecordEvent(
      v.(status := next, history := v.history + [HistoryLine(v.status, next)]),
      StateTransition(v.status, next), actor))
  }

  function SetTaskStatus(v: Record, i: nat, next: TaskStatus, actor: Actor): Record
    requires i < |v.tasks|
  {
    var task := v.tasks[i];
    if task.status == next then v
    else RecordEvent(v.(tasks := v.tasks[i := task.(status := next)]),
      TaskStatusChanged(task.id, task.status, next), actor)
  }

  /** The position of the first element with the key, or the length if there is none. */
  function IndexOf<T, K(==)>(xs: seq<T>, key: T -> K, wanted: K): (k: nat)
    ensures k <= |xs|
    ensures forall i :: 0 <= i < k ==> key(xs[i]) != wanted
    ensures k < |xs| ==> key(xs[k]) == wanted
  {
    if xs == [] || key(xs[0]) == wanted then 0 else 1 + IndexOf(xs[1..], key, wanted)
  }

  /** Replaces the first element with the same key, or appends. */
  function Upsert<T, K(==)>(xs: seq<T>, key: T -> K, x: T): seq<T> {
    var k := IndexOf(xs, key, key(x));
    if k < |xs| then xs[k := x] else xs + [x]
  }

  function ArtifactId(a: Artifact): string {
    a.id
  }

  function CheckpointKey(c: Checkpoint): CheckpointId {
    c.id
  }

  function UpdateApprovalCheckpoint(v: Record, approved: bool, approver: string, note: string): Record {
    var k := IndexOf(v.checkpoints, CheckpointKey, ApprovalOf(v.id));
    if k < |v.checkpoints| then
      v.(checkpoints := v.checkpoints[k := v.checkpoints[k].(approved := approved, approver := approver, note := note)])
    else v
  }

  function RequestApproval(v: Record, approvalId: nat): Record {
    RecordEvent(
      v.(approvals := v.approvals + [Approval(approvalId, ExternalApiSend, Undecided, "system", "")]),
      ApprovalRequested(ExternalApiSend), SYSTEM_ACTOR)
  }

  /** Decides approval `i` and logs the decision. */
  function Decide(v: Record, i: nat, approval: Approval, kind: EventKind, actor: Actor): Record
    requires i < |v.approvals|
  {
    RecordEvent(v.(approvals := v.approvals[i := approval]), kind, actor)
  }

  /******* Approval states *******/

  function TypesWith(approvals: seq<Approval>, status: ApprovalStatus): set<ActionType> {
    set a | a in approvals && a.status == status :: a.action
  }

  function KnownTypes(approvals: seq<Approval>): set<ActionType> {
    set a | a in approvals :: a.action
  }

  predicate HasUndecided(approvals: seq<Approval>) {
    exists a :: a in approvals && a.status == Undecided
  }

  /******* Arguments *******/

  function ActionNamed(text: string): Option<ActionType> {
    var name := Text.Normalize(text);
    if name == ActionValue(ExternalApiSend) then Some(ExternalApiSend)
    else if name == ActionValue(DestructiveChange) then Some(DestructiveChange)
    else if name == ActionValue(BulkModify) then Some(BulkModify)
    else if name == ActionValue(ProductionAffectingChange) then Some(ProductionAffectingChange)
    else None
  }

  function ParsedAction(input: ActionInput): Option<ActionType> {
    match input
    case Typed(action) => Some(action)
    case Written(text) => ActionNamed(text)
  }

  function ParseActions(inputs: seq<ActionInput>): (r: Result<set<ActionType>, Error>)
    ensures r.Err? ==> r.error == UnsupportedAction
  {
    if forall input :: input in inputs ==> ParsedAction(input).Some?
    then Ok(set input | input in inputs :: ParsedAction(input).value)
    else Err(UnsupportedAction)
  }

  function CoerceActor(actor: ActorArgument, defaultRole: ActorRole): Actor {
    match actor
    case Nobody => Actor("unknown", defaultRole, Human)
    case Known(known) => known
    case Named(name) =>
      var id := Text.Strip(name);
      Actor(if id != "" then id else "unknown", defaultRole, Human)
  }

  function ResolveProvider(launch: Launch): Option<Provider> {
    var stripped := Text.Normalize(launch.providerName);
    var name := if stripped != "" then stripped else "mock";
    if name == "mock" then Some(Mock)
    else if name == "gemini" || "gemini-" <= name then Some(Gemini)
    else if name == "grok" || "grok-" <= name then Some(Grok)
    else if name == "openai" || "openai-" <= name || "gpt-" <= name then Some(OpenAI)
    else if launch.strictProviders then None
    else Some(Mock)
  }

  function Compose(primary: string, secondary: string): string {
    if primary == "" then secondary
    else if secondary == "" then primary
    else primary + " " + secondary
  }

  function ActionsInOrder(actions: set<ActionType>): seq<ActionType> {
    Selected(ACTIONS_BY_VALUE, actions)
  }

  function Selected(all: seq<ActionType>, actions: set<ActionType>): (r: seq<ActionType>)
    ensures forall a :: a in r <==> a in all && a in actions
  {
    if all == [] then []
    else (if all[0] in actions then [all[0]] else []) + Selected(all[1..], actions)
  }

  /******* Authorization *******/

  datatype Authorization = Authorization(record: Record, denied: Option<ActionType>)

  function AuthorizeAll(v: Record, actor: Actor, actions: seq<ActionType>, overrides: RuntimeOverride): Authorization
    decreases |actions|
  {
    if actions == [] then Authorization(v, None)
    else
      var decision := Rules.Authorize(actions[0], actor, v.policy, overrides);
      var w := if decision.effective.overrideApplied
        then RecordEvent(v, PolicyOverrideApplied(actions[0]), actor) else v;
      if decision.allowed
      then AuthorizeAll(RecordEvent(w, AuthorizationGranted(actions[0]), actor), actor, actions[1..], overrides)
      else Authorization(RecordEvent(w, AuthorizationFailed(actions[0]), actor), Some(actions[0]))
  }

  /******* Task loops *******/

  datatype Selection = WaitingTasks | InDepartments(departments: set<Department>)

  predicate Selects(which: Selection, task: Task) {
    match which
    case WaitingTasks => task.status == Waiting
    case InDepartments(departments) => task.department in departments
  }

  /** Moves the selected tasks from position `i` on; a non-empty note replaces theirs. */
  function MoveTasks(v: Record, i: nat, which: Selection, next: TaskStatus, note: string, actor: Actor): Record
    requires i <= |v.tasks|
    decreases |v.tasks| - i
  {
    if i == |v.tasks| then v
    else if !Selects(which, v.tasks[i]) then MoveTasks(v, i + 1, which, next, note, actor)
    else
      var w := SetNote(SetTaskStatus(v, i, next, actor), i, note);
      MoveTasks(w, i + 1, which, next, note, actor)
  }

  function SetNote(v: Record, i: nat, note: string): Record
    requires i < |v.tasks|
  {
    if note == "" then v else v.(tasks := v.tasks[i := v.tasks[i].(note := note)])
  }

  /******* Execution *******/

  const ANALYSIS_REQUEST := "Approve `external_api_send` to continue trend analysis."
  const DEFAULT_APPROVAL_NOTE := "Approved `external_api_send` to continue trend analysis."
  const DELIVERY_NOTE := "Auto-approved for deterministic scaffold run."

  function ProducedArtifact(task: Task, provider: Provider): Artifact {
    Artifact("artifact-" + task.id, task.id, task.department, if task.department == Trend then Some(provider) else None)
  }

  function ReviewOf(task: Task, artifacts: seq<Artifact>, simulateFailure: bool): ReviewNote {
    var findings := (if artifacts == [] then [NoArtifacts] else []) + (if simulateFailure then [SimulatedFailure]
      else []);
    ReviewNote("review-" + task.id, task.id, if findings == [] then Accepted else ChangesRequested, findings)
  }

  /** The work of one task, between its start and its completion. */
  function Perform(v: Record, task: Task, provider: Provider, simulateFailure: bool): Record {
    if task.department == Review
    then v.(reviews := v.reviews + [ReviewOf(task, v.artifacts, simulateFailure)])
    else v.(artifacts := Upsert(v.artifacts, ArtifactId, ProducedArtifact(task, provider)))
  }

  /** Task `i` from its start to its completion. */
  function WorkOn(v: Record, i: nat, provider: Provider, simulateFailure: bool, actor: Actor): Record
    requires i < |v.tasks|
  {
    SetTaskStatus(Perform(SetTaskStatus(v, i, Started, actor), v.tasks[i], provider, simulateFailure), i, Done, actor)
  }

  predicate MustWait(task: Task, provider: Provider, approved: set<ActionType>) {
    && task.department == Trend
    && provider != Mock
    && Rules.RequiresHumanApproval(ExternalApiSend)
    && ExternalApiSend !in approved
  }

  /** How the task loop ends: at a task that has to wait, or after the last one with the verdict of the
      cycle's last review. */
  datatype Cycle = PausedAt(record: Record, i: nat) | Finished(record: Record, verdict: Option<Verdict>)

  function RunTasks(v: Record, i: nat, provider: Provider, approved: set<ActionType>,
                    simulateFailure: bool, actor: Actor, verdict: Option<Verdict>): (c: Cycle)
    requires i <= |v.tasks|
    ensures c.PausedAt? ==> i <= c.i < |c.record.tasks|
    decreases |v.tasks| - i
  {
    if i == |v.tasks| then Finished(v, verdict)
    else if v.tasks[i].status == Done then
      RunTasks(v, i + 1, provider, approved, simulateFailure, actor, verdict)
    else
      var task := v.tasks[i];
      if MustWait(task, provider, approved) then PausedAt(SetTaskStatus(v, i, Started, actor), i)
      else
        RunTasks(WorkOn(v, i, provider, simulateFailure, actor), i + 1, provider, approved, simulateFailure, actor,
          if task.department == Review then Some(ReviewOf(task, v.artifacts, simulateFailure).verdict) else verdict)
  }

  /** Pauses at task `i` for approval; an approval that is already pending is not requested twice. */
  function Pause(v: Record, i: nat, actor: Actor, approvalId: nat): Result<Record, Error>
    requires i < |v.tasks|
  {
    var waiting := SetTaskStatus(v, i, Waiting, actor);
    var requested := if ExternalApiSend in TypesWith(waiting.approvals, Undecided) then waiting
                     else RequestApproval(waiting, approvalId);
    Transition(
      requested.(checkpoints := Upsert(requested.checkpoints, CheckpointKey,
        Checkpoint(ApprovalOf(v.id), false, "human", ANALYSIS_REQUEST))),
      WaitingApproval, actor)
  }

  function Finish(v: Record, verdict: Option<Verdict>, actor: Actor): Result<Record, Error> {
    if verdict == Some(ChangesRequested) then
      var failed :- Transition(v, ReviewFailed, actor);
      var requested :- Transition(failed, RevisionRequested, actor);
      Ok(RecordEvent(requested, RevisionWasRequested, actor))
    else
      Transition(
        v.(checkpoints := Upsert(v.checkpoints, CheckpointKey,
          Checkpoint(DeliveryOf(v.id), true, "system", DELIVERY_NOTE))),
        Completed, actor)
  }

  function Conclude(cycle: Cycle, actor: Actor, approvalId: nat): Result<Record, Error>
    requires cycle.PausedAt? ==> cycle.i < |cycle.record.tasks|
  {
    match cycle
    case PausedAt(v, i) => Pause(v, i, actor, approvalId)
    case Finished(v, verdict) => Finish(v, verdict, actor)
  }

  function Execute(v: Record, launch: Launch, approved: set<ActionType>, simulateFailure: bool,
                   actor: Actor, approvalId: nat): Outcome
  {
    match ResolveProvider(launch)
    case None => Raise(UnsupportedProvider)
    case Some(provider) =>
      Commit(Conclude(RunTasks(v, 0, provider, approved, simulateFailure, actor, None), actor, approvalId))
  }

  /** Execution with a caller's action list, which is parsed first. */
  function ExecuteWith(v: Record, launch: Launch, inputs: seq<ActionInput>, simulateFailure: bool,
                       actor: Actor, approvalId: nat): Outcome
  {
    match ParseActions(inputs)
    case Err(error) => Raise(error)
    case Ok(approved) => Execute(v, launch, approved, simulateFailure, actor, approvalId)
  }

  /******* run *******/

  function PlanTasks(plan: seq<TaskShape>): (tasks: seq<Task>)
    ensures Shape(tasks) == plan
    ensures forall i :: 0 <= i < |tasks| ==> tasks[i].status == Pending
  {
    var tasks := seq(|plan|, i requires 0 <= i < |plan| =>
      Task(plan[i].id, plan[i].title, plan[i].department, Pending, plan[i].dependsOn, ""));
    assert forall i :: 0 <= i < |plan| ==> ShapeOf(tasks[i]) == plan[i];
    tasks
  }

  function Drafted(id: nat, policy: ProjectPolicy, plan: seq<TaskShape>): Record {
    Record(id, policy, Draft, PlanTasks(plan), [], [], [], [], [], [])
  }

  function Launched(v: Record): Result<Record, Error> {
    var intake :- Transition(v, IntakePending, SYSTEM_ACTOR);
    var ready :- Transition(intake, ReadyForPlanning, SYSTEM_ACTOR);
    Transition(ready, InProgress, SYSTEM_ACTOR)
  }

  function Run(id: nat, policy: ProjectPolicy, plan: seq<TaskShape>, launch: Launch, inputs: seq<ActionInput>,
               simulateFailure: bool, approvalId: nat): Outcome
  {
    match ParseActions(inputs)
    case Err(error) => Raise(error)
    case Ok(approved) =>
      match Launched(Drafted(id, policy, plan))
      case Err(error) => Raise(error)
      case Ok(v) => Execute(v, launch, approved, simulateFailure, SYSTEM_ACTOR, approvalId)
  }

  /******* resume_from_approval *******/

  /** The checks that every approval request has to pass. */
  function ValidateRequest(requested: set<ActionType>, approvals: seq<Approval>): Option<Error> {
    if !(requested <= KnownTypes(approvals)) then Some(UnknownActions)
    else if requested * TypesWith(approvals, Rejected) != {} then Some(AlreadyRejected)
    else None
  }

  function ApprovedAs(approval: Approval, actor: Actor, note: string): Approval {
    approval.(status := Approved, requestedBy := actor.id, decisionNote := note)
  }

  /** Approves the undecided approvals with the given types, from position `i` on. */
  function ApproveFrom(v: Record, i: nat, actions: set<ActionType>, actor: Actor, note: string): Record
    requires i <= |v.approvals|
    decreases |v.approvals| - i
  {
    if i == |v.approvals| then v
    else if v.approvals[i].status == Undecided && v.approvals[i].action in actions then
      var w := UpdateApprovalCheckpoint(v, true, actor.id, if note != "" then note else DEFAULT_APPROVAL_NOTE);
      var approval := v.approvals[i];
      ApproveFrom(Decide(w, i, ApprovedAs(approval, actor, note), ApprovalApproved(approval.action), actor),
        i + 1, actions, actor, note)
    else ApproveFrom(v, i + 1, actions, actor, note)
  }

  function ResumeCompleted(v: Record, requested: set<ActionType>): Outcome {
    if requested == {} then Raise(ActionsRequired)
    else if KnownTypes(v.approvals) == {} then Raise(InvalidState(WaitingApproval, v.status))
    else
      match ValidateRequest(requested, v.approvals)
      case Some(error) => Raise(error)
      case None =>
        if !HasUndecided(v.approvals) && requested <= TypesWith(v.approvals, Approved) then Keep(v)
        else Raise(InvalidState(WaitingApproval, v.status))
  }

  function Released(v: Record, actor: Actor): Record {
    RecordEvent(MoveTasks(v, 0, WaitingTasks, Pending, "", actor), ResumeTriggered(ApprovalResume), actor)
  }

  function ResumeWaiting(v: Record, requested: set<ActionType>, actor: Actor, note: string, launch: Launch,
                         overrides: RuntimeOverride, approvalId: nat): Outcome
  {
    var approved := TypesWith(v.approvals, Approved);
    var undecided := TypesWith(v.approvals, Undecided);
    var authorization := AuthorizeAll(v, actor, ActionsInOrder(requested - approved), overrides);
    if authorization.denied.Some? then
      Outcome(Some(authorization.record), Raised(PermissionDenied(authorization.denied.value)))
    else
      var decided := ApproveFrom(authorization.record, 0, requested - approved, actor, note);
      if undecided - requested != {} then
        if requested - approved != {}
        then Commit(Ok(RecordEvent(decided, ResumeTriggered(ApprovalResumePartial), actor)))
        else Keep(decided)
      else
        match Transition(Released(decided, actor), InProgress, actor)
        case Err(error) => Raise(error)
        case Ok(w) => Execute(w, launch, approved + (requested - approved), false, actor, approvalId)
  }

  function ResumeFromApproval(v: Record, inputs: seq<ActionInput>, caller: ActorArgument, note: string, launch: Launch,
                              overrides: RuntimeOverride, approvalId: nat): Outcome
  {
    if v.status != WaitingApproval && v.status != Completed then
      Raise(InvalidState(WaitingApproval, v.status))
    else
      match ParseActions(inputs)
      case Err(error) => Raise(error)
      case Ok(requested) =>
        if v.status == Completed then ResumeCompleted(v, requested)
        else if requested == {} then Raise(ActionsRequired)
        else if !HasUndecided(v.approvals) then Raise(NoPendingApprovals)
        else
          match ValidateRequest(requested, v.approvals)
          case Some(error) => Raise(error)
          case None =>
            ResumeWaiting(v, requested, CoerceActor(caller, Approver), Text.Strip(note), launch, overrides, approvalId)
  }

  /******* reject_approval *******/

  function RejectedAs(approval: Approval, actor: Actor, reason: string, note: string): Approval {
    approval.(status := Rejected, requestedBy := actor.id, decisionNote := Compose(reason, note))
  }

  /** Rejects every undecided approval from position `i` on; types outside `named` are closed along with them. */
  function RejectFrom(v: Record, i: nat, named: set<ActionType>, actor: Actor, reason: string, note: string): Record
    requires i <= |v.approvals|
    decreases |v.approvals| - i
  {
    if i == |v.approvals| then v
    else if v.approvals[i].status == Undecided then
      var approval := v.approvals[i];
      var w := Decide(v, i, RejectedAs(approval, actor, reason, note),
        ApprovalRejected(approval.action, approval.action !in named), actor);
      RejectFrom(UpdateApprovalCheckpoint(w, false, actor.id, Compose(reason, note)),
        i + 1, named, actor, reason, note)
    else RejectFrom(v, i + 1, named, actor, reason, note)
  }

  function RejectAgain(v: Record, named: set<ActionType>): Outcome {
    var rejected := TypesWith(v.approvals, Rejected);
    var wanted := if named == {} then rejected else named;
    if !(wanted <= rejected) then Raise(NotPending)
    else if wanted != {} then Keep(v)
    else Raise(InvalidState(WaitingApproval, v.status))
  }

  function RejectWaiting(v: Record, named: set<ActionType>, actor: Actor, reason: string, note: string,
                         overrides: RuntimeOverride): Outcome
  {
    var undecided := TypesWith(v.approvals, Undecided);
    var wanted := if named == {} then undecided else named;
    if !(wanted <= undecided) then Raise(NotPending)
    else
      var authorization := AuthorizeAll(v, actor, ActionsInOrder(undecided), overrides);
      if authorization.denied.Some? then
        Outcome(Some(authorization.record), Raised(PermissionDenied(authorization.denied.value)))
      else
        var decided := RejectFrom(authorization.record, 0, wanted, actor, reason, note);
        Commit(Transition(MoveTasks(decided, 0, WaitingTasks, NeedsRevision, reason, actor), RevisionRequested, actor))
  }

  function RejectApproval(v: Record, inputs: seq<ActionInput>, caller: ActorArgument, reason: string, note: string,
                          overrides: RuntimeOverride): Outcome
  {
    if Text.Strip(reason) == "" then Raise(ReasonRequired)
    else if v.status != WaitingApproval && v.status != RevisionRequested then
      Raise(InvalidState(WaitingApproval, v.status))
    else if v.status == WaitingApproval && !HasUndecided(v.approvals) then Raise(NoPendingApprovals)
    else
      match ParseActions(inputs)
      case Err(error) => Raise(error)
      case Ok(named) =>
        if v.status == RevisionRequested then RejectAgain(v, named)
        else RejectWaiting(v, named, CoerceActor(caller, Approver), Text.Strip(reason), Text.Strip(note), overrides)
  }

  /******* resume_from_revision and start_replanning *******/

  function ResetDepartments(mode: RevisionMode): set<Department> {
    match mode
    case Replanning => {Design, Build, Trend, Review}
    case Rebuilding => {Build, Trend, Review}
    case Rereview => {Review}
  }

  predicate HasResumed(v: Record, mode: RevisionMode) {
    exists e :: e in v.events && e.kind == ResumeTriggered(RevisionResume(mode))
  }

  predicate HasReplanned(v: Record) {
    exists e :: e in v.events && e.kind.ReplanningStarted?
  }

  function ReviseTasks(v: Record, mode: RevisionMode, actor: Actor, reason: string): Record {
    MoveTasks(RecordEvent(v, ResumeTriggered(RevisionResume(mode)), actor),
      0, InDepartments(ResetDepartments(mode)), Pending, reason, actor)
  }

  function Revise(v: Record, mode: RevisionMode, actor: Actor, reason: string, launch: Launch,
                  inputs: seq<ActionInput>, approvalId: nat): Outcome
  {
    var reset := ReviseTasks(v, mode, actor, reason);
    if mode == Replanning then Commit(Transition(reset, ReadyForPlanning, actor))
    else
      match Transition(reset, InProgress, actor)
      case Err(error) => Raise(error)
      case Ok(w) => ExecuteWith(w, launch, inputs, false, actor, approvalId)
  }

  function ResumeFromRevision(v: Record, mode: RevisionMode, caller: ActorArgument, reason: string, launch: Launch,
                              inputs: seq<ActionInput>, approvalId: nat): Outcome
  {
    if v.status != RevisionRequested then
      if || (v.status == ReadyForPlanning && mode == Replanning)
         || (v.status == Completed && HasResumed(v, mode))
      then Keep(v)
      else Raise(InvalidState(RevisionRequested, v.status))
    else
      Revise(v, mode, CoerceActor(caller, Operator), Text.Strip(reason), launch, inputs, approvalId)
  }

  function ReplanTasks(v: Record, actor: Actor, reset: bool): Record {
    var w := if reset then MoveTasks(v, 0, InDepartments(ResetDepartments(Replanning)), Pending, "", actor) else v;
    RecordEvent(w, ReplanningStarted(reset), actor)
  }

  function Replan(v: Record, actor: Actor, launch: Launch, inputs: seq<ActionInput>, reset: bool,
                  approvalId: nat): Outcome {
    match Transition(ReplanTasks(v, actor, reset), InProgress, actor)
    case Err(error) => Raise(error)
    case Ok(w) => ExecuteWith(w, launch, inputs, false, actor, approvalId)
  }

  function StartReplanning(v: Record, caller: ActorArgument, launch: Launch, inputs: seq<ActionInput>,
                           reset: bool, approvalId: nat): Outcome
  {
    if v.status != ReadyForPlanning then
      if v.status == Completed && HasReplanned(v) then Keep(v)
      else Raise(InvalidState(ReadyForPlanning, v.status))
    else
      Replan(v, CoerceActor(caller, Operator), launch, inputs, reset, approvalId)
  }

  /******* record_authentication_* *******/

  const ANONYMOUS := Actor("anonymous", Viewer, Human)

  function RecordAuthenticationSuccess(v: Record, actor: Actor): Outcome {
    Outcome(Some(RecordEvent(RecordEvent(v, AuthenticationSucceeded, actor), ActorResolved, actor)), Silent)
  }

  function RecordAuthenticationFailure(v: Record): Outcome {
    Outcome(Some(RecordEvent(v, AuthenticationFailed, ANONYMOUS)), Silent)
  }
}
