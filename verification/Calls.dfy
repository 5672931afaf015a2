/** The calls of the orchestrator's public operations, and what each does to the stored projects. */
module Calls {
  import opened Prelude
  import opened Domain
  import opened Workflow

  /** The stored records, and the supply of identifiers: a call draws its two uuids from `next` on. */
  datatype World = World(store: map<nat, Record>, next: nat)

  datatype Call =
    | StartProject(policy: ProjectPolicy, launch: Launch, inputs: seq<ActionInput>, simulateFailure: bool)
    | ApprovalCall(
        id: nat, inputs: seq<ActionInput>, caller: ActorArgument, note: string, launch: Launch,
        overrides: RuntimeOverride)
    | RejectionCall(
        id: nat, inputs: seq<ActionInput>, caller: ActorArgument, reason: string, note: string,
        overrides: RuntimeOverride)
    | RevisionCall(
        id: nat, mode: RevisionMode, caller: ActorArgument, reason: string, launch: Launch, inputs: seq<ActionInput>)
    | ReplanningCall(id: nat, caller: ActorArgument, launch: Launch, inputs: seq<ActionInput>, reset: bool)
    | SuccessCall(id: nat, actor: Actor)
    | FailureCall(id: nat)

  /** A call on the record of an existing project. */
  function OutcomeOn(v: Record, c: Call, approvalId: nat): Outcome
    requires !c.StartProject?
  {
    match c
    case ApprovalCall(_, inputs, caller, note, launch, overrides) =>
      ResumeFromApproval(v, inputs, caller, note, launch, overrides, approvalId)
    case RejectionCall(_, inputs, caller, reason, note, overrides) =>
      RejectApproval(v, inputs, caller, reason, note, overrides)
    case RevisionCall(_, mode, caller, reason, launch, inputs) =>
      ResumeFromRevision(v, mode, caller, reason, launch, inputs, approvalId)
    case ReplanningCall(_, caller, launch, inputs, reset) =>
      StartReplanning(v, caller, launch, inputs, reset, approvalId)
    case SuccessCall(_, actor) => RecordAuthenticationSuccess(v, actor)
    case FailureCall(_) => RecordAuthenticationFailure(v)
  }

  function OutcomeOf(plan: seq<TaskShape>, w: World, c: Call): Outcome {
    if c.StartProject? then
      Run(w.next, c.policy, plan, c.launch, c.inputs, c.simulateFailure, w.next + 1)
    else if c.id in w.store then OutcomeOn(w.store[c.id], c, w.next + 1)
    else if c.SuccessCall? || c.FailureCall? then Outcome(None, Silent)
    else Raise(ProjectNotFound)
  }

  function Apply(plan: seq<TaskShape>, w: World, c: Call): World {
    World(Persist(w.store, OutcomeOf(plan, w, c)), w.next + 2)
  }

  /** The project that a call is about; a new project takes the next identifier. */
  function Target(w: World, c: Call): nat {
    if c.StartProject? then w.next else c.id
  }

  /** The record before the call: for a new project, its draft. */
  function Before(plan: seq<TaskShape>, w: World, c: Call): Record
    requires !c.StartProject? ==> c.id in w.store
  {
    if c.StartProject? then Drafted(w.next, c.policy, plan) else w.store[c.id]
  }

  /** A caller's action list that contains the external action. */
  predicate PreApproves(inputs: seq<ActionInput>) {
    ParseActions(inputs).Ok? && ExternalApiSend in ParseActions(inputs).value
  }

  /** The call hands in the external action as already approved, outside the approval operation. */
  predicate Bypasses(c: Call) {
    (c.StartProject? || c.RevisionCall? || c.ReplanningCall?) && PreApproves(c.inputs)
  }
}
