/** Whatever is stored, no call meets a transition that the graph lacks. */
module Transitions {
  import opened Prelude
  import opened Domain
  import opened Workflow
  import opened Loops
  import opened Calls
  import opened Soundness
  import Graph
  import Text

  /** The documented transitions. */
  const DOCUMENTED := {
    (Draft, IntakePending), (IntakePending, ReadyForPlanning), (ReadyForPlanning, InProgress),
    (InProgress, WaitingApproval), (WaitingApproval, InProgress), (InProgress, ReviewFailed),
    (ReviewFailed, RevisionRequested), (RevisionRequested, ReadyForPlanning), (RevisionRequested, InProgress),
    (InProgress, Completed)
  }

  /** The graph has the documented transitions, and the one that a rejection takes. */
  lemma GraphExactly(current: ProjectStatus, next: ProjectStatus)
    ensures Graph.CanTransition(current, next) <==>
      (current, next) in DOCUMENTED || (current, next) == (WaitingApproval, RevisionRequested)
  {
  }

  predicate MeetsTheGraph(o: Outcome) {
    o.answer.Raised? ==> !o.answer.error.InvalidTransition?
  }

  lemma {:induction false} RunTasksKeepStatus(v: Record, i: nat, provider: Provider, approved: set<ActionType>,
      simulateFailure: bool, actor: Actor, verdict: Option<Verdict>)
    requires i <= |v.tasks|
    ensures RunTasks(v, i, provider, approved, simulateFailure, actor, verdict).record.status == v.status
    decreases |v.tasks| - i
  {
    hide MustWait, Upsert, WorkOn;
    if i < |v.tasks| && v.tasks[i].status == Done {
      RunTasksKeepStatus(v, i + 1, provider, approved, simulateFailure, actor, verdict);
    } else if i < |v.tasks| && !MustWait(v.tasks[i], provider, approved) {
      var next := if v.tasks[i].department == Review
        then Some(ReviewOf(v.tasks[i], v.artifacts, simulateFailure).verdict) else verdict;
      WorkOnEffect(v, i, provider, simulateFailure, actor);
      RunTasksKeepStatus(WorkOn(v, i, provider, simulateFailure, actor), i + 1, provider, approved, simulateFailure,
        actor, next);
    }
  }

  lemma ExecuteMeetsTheGraph(v: Record, launch: Launch, approved: set<ActionType>, simulateFailure: bool, actor: Actor,
                             approvalId: nat)
    requires v.status == InProgress
    ensures MeetsTheGraph(Execute(v, launch, approved, simulateFailure, actor, approvalId))
  {
    hide RunTasks, ResolveProvider, Upsert;
    if ResolveProvider(launch).Some? {
      RunTasksKeepStatus(v, 0, ResolveProvider(launch).value, approved, simulateFailure, actor, None);
    }
  }

  lemma ExecuteWithMeetsTheGraph(v: Record, launch: Launch, inputs: seq<ActionInput>, actor: Actor, approvalId: nat)
    requires v.status == InProgress
    ensures MeetsTheGraph(ExecuteWith(v, launch, inputs, false, actor, approvalId))
  {
    hide Execute, ParseActions;
    if ParseActions(inputs).Ok? {
      ExecuteMeetsTheGraph(v, launch, ParseActions(inputs).value, false, actor, approvalId);
    }
  }

  lemma ResumeWaitingMeetsTheGraph(v: Record, requested: set<ActionType>, actor: Actor, note: string, launch: Launch,
                                   overrides: RuntimeOverride, approvalId: nat)
    requires v.status == WaitingApproval
    ensures MeetsTheGraph(ResumeWaiting(v, requested, actor, note, launch, overrides, approvalId))
  {
    hide Execute, AuthorizeAll, ApproveFrom, MoveTasks, ActionsInOrder, StopsAt, ApprovesFrom, TypesWith;
    var toApprove := requested - TypesWith(v.approvals, Approved);
    AuthorizeAllEffect(v, actor, ActionsInOrder(toApprove), overrides);
    var authorized := AuthorizeAll(v, actor, ActionsInOrder(toApprove), overrides).record;
    ApproveFromEffect(authorized, 0, toApprove, actor, note);
    var decided := ApproveFrom(authorized, 0, toApprove, actor, note);
    MoveTasksEffect(decided, 0, WaitingTasks, Pending, "", actor);
    var resumed := Transition(Released(decided, actor), InProgress, actor).value;
    ExecuteMeetsTheGraph(resumed, launch, TypesWith(v.approvals, Approved) + toApprove, false, actor, approvalId);
  }

  lemma RejectWaitingMeetsTheGraph(v: Record, named: set<ActionType>, actor: Actor, reason: string, note: string,
                                   overrides: RuntimeOverride)
    requires v.status == WaitingApproval
    ensures MeetsTheGraph(RejectWaiting(v, named, actor, reason, note, overrides))
  {
    hide AuthorizeAll, RejectFrom, MoveTasks, ActionsInOrder, StopsAt, RejectsFrom, TypesWith;
    var undecided := TypesWith(v.approvals, Undecided);
    var wanted := if named == {} then undecided else named;
    AuthorizeAllEffect(v, actor, ActionsInOrder(undecided), overrides);
    var authorized := AuthorizeAll(v, actor, ActionsInOrder(undecided), overrides).record;
    RejectFromEffect(authorized, 0, wanted, actor, reason, note);
    MoveTasksEffect(RejectFrom(authorized, 0, wanted, actor, reason, note), 0, WaitingTasks, NeedsRevision, reason,
      actor);
  }

  lemma ResetMeetsTheGraph(v: Record, mode: RevisionMode, actor: Actor, reason: string, reset: bool, launch: Launch,
                           inputs: seq<ActionInput>, approvalId: nat)
    ensures v.status == RevisionRequested ==>
      var w := Transition(ReviseTasks(v, mode, actor, reason), InProgress, actor);
      w.Ok? && Transition(ReviseTasks(v, mode, actor, reason), ReadyForPlanning, actor).Ok?
      && MeetsTheGraph(ExecuteWith(w.value, launch, inputs, false, actor, approvalId))
    ensures v.status == ReadyForPlanning ==>
      var w := Transition(ReplanTasks(v, actor, reset), InProgress, actor);
      w.Ok? && MeetsTheGraph(ExecuteWith(w.value, launch, inputs, false, actor, approvalId))
  {
    hide ExecuteWith, MoveTasks, ResetDepartments;
    MoveTasksEffect(RecordEvent(v, ResumeTriggered(RevisionResume(mode)), actor), 0,
      InDepartments(ResetDepartments(mode)), Pending, reason, actor);
    MoveTasksEffect(v, 0, InDepartments(ResetDepartments(Replanning)), Pending, "", actor);
    if v.status == RevisionRequested {
      ExecuteWithMeetsTheGraph(Transition(ReviseTasks(v, mode, actor, reason), InProgress, actor).value, launch, inputs,
        actor, approvalId);
    } else if v.status == ReadyForPlanning {
      ExecuteWithMeetsTheGraph(Transition(ReplanTasks(v, actor, reset), InProgress, actor).value, launch, inputs, actor,
        approvalId);
    }
  }

  /** Whatever is stored, no call meets a transition that the graph lacks. */
  lemma TransitionsAlwaysValid(plan: seq<TaskShape>, w: World, c: Call)
    ensures MeetsTheGraph(OutcomeOf(plan, w, c))
  {
    hide Execute, ExecuteWith, ParseActions, ResumeWaiting, RejectWaiting, ReviseTasks, ReplanTasks, TypesWith;
    hide Text.Strip;
    if c.StartProject? {
      var launched := Launched(Drafted(w.next, c.policy, plan)).value;
      if ParseActions(c.inputs).Ok? {
        ExecuteMeetsTheGraph(launched, c.launch, ParseActions(c.inputs).value, c.simulateFailure, SYSTEM_ACTOR,
          w.next + 1);
      }
    } else if c.id in w.store {
      var v := w.store[c.id];
      var approvalId := w.next + 1;
      match c
      case ApprovalCall(_, inputs, caller, note, launch, overrides) =>
        if v.status == WaitingApproval && ParseActions(inputs).Ok? {
          ResumeWaitingMeetsTheGraph(v, ParseActions(inputs).value, CoerceActor(caller, Approver), Text.Strip(note),
            launch, overrides, approvalId);
        }
      case RejectionCall(_, inputs, caller, reason, note, overrides) =>
        if v.status == WaitingApproval && ParseActions(inputs).Ok? {
          RejectWaitingMeetsTheGraph(v, ParseActions(inputs).value, CoerceActor(caller, Approver), Text.Strip(reason),
            Text.Strip(note), overrides);
        }
      case RevisionCall(_, mode, caller, reason, launch, inputs) =>
        ResetMeetsTheGraph(v, mode, CoerceActor(caller, Operator), Text.Strip(reason), true, launch, inputs,
          approvalId);
      case ReplanningCall(_, caller, launch, inputs, reset) =>
        ResetMeetsTheGraph(v, Rereview, CoerceActor(caller, Operator), "", reset, launch, inputs, approvalId);
      case _ =>
    }
  }
}
