/** Every waiting project of a history that is not stalled can be completed, by a few calls. */
module Completability {
  import opened Prelude
  import opened Domain
  import opened Workflow
  import opened Loops
  import opened Calls
  import opened Soundness
  import opened Histories
  import opened Coupling
  import opened Runs
  import opened Completion
  import opened Retry
  import opened DeadEnds
  import AuditLog
  import Rules = ApprovalRules
  import Text

  predicate BeginsWithWork(tasks: seq<Task>) {
    tasks != [] ==> tasks[0].department != Review
  }

  /** Finished work left artifacts, and work comes before any review. */
  predicate Productive(v: Record) {
    HasOutput(v) && BeginsWithWork(v.tasks)
  }

  /** A record from which some operation goes on. */
  predicate Workable(v: Record) {
    && Productive(v)
    && v.status in {WaitingApproval, RevisionRequested, ReadyForPlanning, Completed}
    && (v.status == WaitingApproval ==> HasUndecided(v.approvals))
  }

  /******* Every call keeps projects workable *******/

  lemma WorkOnProduces(v: Record, i: nat, provider: Provider, simulateFailure: bool, actor: Actor)
    requires Productive(v) && i < |v.tasks| && v.tasks[i].status != Done
    ensures Productive(WorkOn(v, i, provider, simulateFailure, actor))
    ensures WorkOn(v, i, provider, simulateFailure, actor).status == v.status
  {
    hide Upsert, WorkOn;
    WorkOnEffect(v, i, provider, simulateFailure, actor);
    UpsertPresent(v.artifacts, ArtifactId, ProducedArtifact(v.tasks[i], provider));
    var w := WorkOn(v, i, provider, simulateFailure, actor);
    forall k | 0 <= k < |w.tasks| && w.tasks[k].status == Done && w.tasks[k].department != Review
      ensures w.artifacts != []
    {
      if k != i {
        assert v.tasks[k].status == Done && v.tasks[k].department != Review;
      }
    }
  }

  lemma StatusProduces(v: Record, i: nat, next: TaskStatus, actor: Actor)
    requires Productive(v) && i < |v.tasks| && next != Done
    ensures var w := SetTaskStatus(v, i, next, actor);
      Productive(w) && w.status == v.status && |w.tasks| == |v.tasks|
  {
    var w := SetTaskStatus(v, i, next, actor);
    forall k | 0 <= k < |w.tasks| && w.tasks[k].status == Done && w.tasks[k].department != Review
      ensures w.artifacts != []
    {
      assert v.tasks[k].status == Done && v.tasks[k].department != Review;
    }
  }

  lemma {:induction false} RunTasksProduce(v: Record, i: nat, provider: Provider, approved: set<ActionType>,
      simulateFailure: bool, actor: Actor, verdict: Option<Verdict>)
    requires i <= |v.tasks| && Productive(v)
    ensures var w := RunTasks(v, i, provider, approved, simulateFailure, actor, verdict).record;
      Productive(w) && w.status == v.status
    decreases |v.tasks| - i
  {
    hide MustWait, Upsert, WorkOn, SetTaskStatus, Productive;
    if i == |v.tasks| {
    } else if v.tasks[i].status == Done {
      RunTasksProduce(v, i + 1, provider, approved, simulateFailure, actor, verdict);
    } else if MustWait(v.tasks[i], provider, approved) {
      StatusProduces(v, i, Started, actor);
    } else {
      WorkOnEffect(v, i, provider, simulateFailure, actor);
      WorkOnProduces(v, i, provider, simulateFailure, actor);
      RunTasksProduce(WorkOn(v, i, provider, simulateFailure, actor), i + 1, provider, approved, simulateFailure, actor,
        NextVerdict(v, i, simulateFailure, verdict));
    }
  }

  lemma PauseWorkable(v: Record, i: nat, actor: Actor, approvalId: nat)
    requires Productive(v) && i < |v.tasks| && v.status == InProgress
    ensures Pause(v, i, actor, approvalId).Ok? && Workable(Pause(v, i, actor, approvalId).value)
  {
    hide Upsert, HasOutput, TypesWith;
    PauseRequests(v, i, actor, approvalId);
    StatusProduces(v, i, Waiting, actor);
    var w := Pause(v, i, actor, approvalId).value;
    UndecidedExists(w.approvals);
    SameOutput(SetTaskStatus(v, i, Waiting, actor), w);
  }

  /** Tasks and artifacts decide whether a record is productive. */
  lemma SameOutput(v: Record, w: Record)
    requires w.tasks == v.tasks && w.artifacts == v.artifacts
    ensures Productive(w) <==> Productive(v)
  {
  }

  lemma ExecuteWorkable(v: Record, launch: Launch, approved: set<ActionType>, simulateFailure: bool, actor: Actor,
                        approvalId: nat)
    requires Productive(v) && v.status == InProgress
    ensures var o := Execute(v, launch, approved, simulateFailure, actor, approvalId);
      o.saved.Some? ==> Workable(o.saved.value)
  {
    hide RunTasks, Pause, Finish, ResolveProvider, HasOutput, Upsert;
    if ResolveProvider(launch).Some? {
      var provider := ResolveProvider(launch).value;
      RunTasksProduce(v, 0, provider, approved, simulateFailure, actor, None);
      match RunTasks(v, 0, provider, approved, simulateFailure, actor, None)
      case PausedAt(w, i) => PauseWorkable(w, i, actor, approvalId);
      case Finished(w, verdict) =>
        FinishEffect(w, verdict, actor);
        SameOutput(w, Finish(w, verdict, actor).value);
    }
  }

  lemma ExecuteWithWorkable(v: Record, launch: Launch, inputs: seq<ActionInput>, actor: Actor, approvalId: nat)
    requires Productive(v) && v.status == InProgress
    ensures var o := ExecuteWith(v, launch, inputs, false, actor, approvalId);
      o.saved.Some? ==> Workable(o.saved.value)
  {
    hide Execute, ParseActions, Productive, Workable;
    if ParseActions(inputs).Ok? {
      ExecuteWorkable(v, launch, ParseActions(inputs).value, false, actor, approvalId);
    }
  }

  lemma MovesProduce(v: Record, which: Selection, next: TaskStatus, note: string, actor: Actor)
    requires Productive(v) && next != Done
    ensures var w := MoveTasks(v, 0, which, next, note, actor);
      Productive(w) && w == v.(tasks := w.tasks, events := w.events)
  {
    hide MoveTasks;
    MoveTasksEffect(v, 0, which, next, note, actor);
    var w := MoveTasks(v, 0, which, next, note, actor);
    forall k | 0 <= k < |w.tasks| && w.tasks[k].status == Done && w.tasks[k].department != Review
      ensures w.artifacts != []
    {
      assert v.tasks[k].status == Done && v.tasks[k].department != Review;
    }
  }

  lemma ReleasedProduces(v: Record, actor: Actor)
    requires Productive(v) && v.status == WaitingApproval
    ensures Transition(Released(v, actor), InProgress, actor).Ok?
    ensures var w := Transition(Released(v, actor), InProgress, actor).value;
      Productive(w) && w.status == InProgress && w.approvals == v.approvals
  {
    hide MoveTasks, HasOutput;
    MovesProduce(v, WaitingTasks, Pending, "", actor);
    SameOutput(MoveTasks(v, 0, WaitingTasks, Pending, "", actor),
      Transition(Released(v, actor), InProgress, actor).value);
  }

  lemma ResumptionWorkable(v: Record, requested: set<ActionType>, actor: Actor, note: string, launch: Launch,
                           overrides: RuntimeOverride, approvalId: nat)
    requires Workable(v) && v.status == WaitingApproval
    ensures var o := ResumeWaiting(v, requested, actor, note, launch, overrides, approvalId);
      o.saved.Some? ==> Workable(o.saved.value)
  {
    hide AuthorizeAll, ApproveFrom, ActionsInOrder, TypesWith, Rules.Authorize, Execute, Released, Transition;
    hide AllowsAll, Productive;
    var p := requested - ApprovedTypes(v);
    AuthorizesAll(v, p, actor, overrides);
    var r := AuthorizeAll(v, actor, ActionsInOrder(p), overrides).record;
    SameOutput(v, r);
    ApproveFromEffect(r, 0, p, actor, note);
    var decided := ApproveFrom(r, 0, p, actor, note);
    SameOutput(v, decided);
    SameOutput(v, RecordEvent(decided, ResumeTriggered(ApprovalResumePartial), actor));
    TypesApproved(v.approvals, decided.approvals, p, actor, note);
    UndecidedExists(decided.approvals);
    if UndecidedTypes(v) - requested != {} {
      var a :| a in UndecidedTypes(v) - requested;
      assert a in UndecidedTypes(decided);
    } else {
      ReleasedProduces(decided, actor);
      ExecuteWorkable(Transition(Released(decided, actor), InProgress, actor).value, launch, ApprovedTypes(v) + p,
        false,
        actor, approvalId);
    }
  }

  lemma RejectionWorkable(v: Record, named: set<ActionType>, actor: Actor, reason: string, note: string,
                          overrides: RuntimeOverride)
    requires Workable(v) && v.status == WaitingApproval
    ensures var o := RejectWaiting(v, named, actor, reason, note, overrides);
      o.saved.Some? ==> Workable(o.saved.value)
  {
    hide AuthorizeAll, ActionsInOrder, TypesWith, Rules.Authorize, RejectFrom, MoveTasks, AllowsAll, HasOutput;
    var undecided := UndecidedTypes(v);
    var wanted := if named == {} then undecided else named;
    AuthorizesAll(v, undecided, actor, overrides);
    var r := AuthorizeAll(v, actor, ActionsInOrder(undecided), overrides).record;
    SameOutput(v, r);
    RejectFromEffect(r, 0, wanted, actor, reason, note);
    var decided := RejectFrom(r, 0, wanted, actor, reason, note);
    SameOutput(v, decided);
    MovesProduce(decided, WaitingTasks, NeedsRevision, reason, actor);
    var moved := MoveTasks(decided, 0, WaitingTasks, NeedsRevision, reason, actor);
    SameOutput(moved, Transition(moved, RevisionRequested, actor).value);
  }

  lemma RevisionProduces(v: Record, mode: RevisionMode, actor: Actor, reason: string)
    requires Productive(v) && v.status == RevisionRequested
    ensures forall target | target in {ReadyForPlanning, InProgress} ::
      var result := Transition(ReviseTasks(v, mode, actor, reason), target, actor);
      result.Ok? && Productive(result.value) && result.value.status == target
  {
    hide MoveTasks, HasOutput, ResetDepartments;
    var triggered := RecordEvent(v, ResumeTriggered(RevisionResume(mode)), actor);
    SameOutput(v, triggered);
    MovesProduce(triggered, InDepartments(ResetDepartments(mode)), Pending, reason, actor);
    var w := ReviseTasks(v, mode, actor, reason);
    SameOutput(w, Transition(w, ReadyForPlanning, actor).value);
    SameOutput(w, Transition(w, InProgress, actor).value);
  }

  lemma ReplanProduces(v: Record, actor: Actor, reset: bool)
    requires Productive(v) && v.status == ReadyForPlanning
    ensures var result := Transition(ReplanTasks(v, actor, reset), InProgress, actor);
      result.Ok? && Productive(result.value) && result.value.status == InProgress
  {
    hide MoveTasks, HasOutput, ResetDepartments;
    MovesProduce(v, InDepartments(ResetDepartments(Replanning)), Pending, "", actor);
    var u := if reset then MoveTasks(v, 0, InDepartments(ResetDepartments(Replanning)), Pending, "", actor) else v;
    SameOutput(u, Transition(ReplanTasks(v, actor, reset), InProgress, actor).value);
  }

  lemma CallWorkable(v: Record, c: Call, approvalId: nat)
    requires Workable(v) && !c.StartProject?
    ensures var o := OutcomeOn(v, c, approvalId);
      o.saved.Some? ==> Workable(o.saved.value)
  {
    hide ResumeWaiting, RejectWaiting, ExecuteWith, ReviseTasks, ReplanTasks, Transition, ParseActions, Text.Strip;
    hide HasOutput;
    match c
    case ApprovalCall(_, inputs, caller, note, launch, overrides) =>
      if v.status == WaitingApproval && ParseActions(inputs).Ok? {
        ResumptionWorkable(v, ParseActions(inputs).value, CoerceActor(caller, Approver), Text.Strip(note), launch,
          overrides, approvalId);
      }
    case RejectionCall(_, inputs, caller, reason, note, overrides) =>
      if v.status == WaitingApproval && ParseActions(inputs).Ok? {
        RejectionWorkable(v, ParseActions(inputs).value, CoerceActor(caller, Approver), Text.Strip(reason),
          Text.Strip(note), overrides);
      }
    case RevisionCall(_, mode, caller, reason, launch, inputs) =>
      if v.status == RevisionRequested {
        var actor := CoerceActor(caller, Operator);
        RevisionProduces(v, mode, actor, Text.Strip(reason));
        ExecuteWithWorkable(Transition(ReviseTasks(v, mode, actor, Text.Strip(reason)), InProgress, actor).value,
          launch,
          inputs, actor, approvalId);
      }
    case ReplanningCall(_, caller, launch, inputs, reset) =>
      if v.status == ReadyForPlanning {
        var actor := CoerceActor(caller, Operator);
        ReplanProduces(v, actor, reset);
        ExecuteWithWorkable(Transition(ReplanTasks(v, actor, reset), InProgress, actor).value, launch, inputs, actor,
          approvalId);
      }
    case SuccessCall(_, actor) => SameOutput(v, RecordAuthenticationSuccess(v, actor).saved.value);
    case FailureCall(_) => SameOutput(v, RecordAuthenticationFailure(v).saved.value);
  }

  lemma RunWorkable(id: nat, policy: ProjectPolicy, plan: seq<TaskShape>, launch: Launch, inputs: seq<ActionInput>,
                    simulateFailure: bool, approvalId: nat)
    requires plan != [] ==> plan[0].department != Review
    ensures var o := Run(id, policy, plan, launch, inputs, simulateFailure, approvalId);
      o.saved.Some? ==> Workable(o.saved.value)
  {
    hide Execute, ParseActions, Workable;
    if ParseActions(inputs).Ok? {
      var v := Drafted(id, policy, plan);
      assert v.tasks != [] ==> plan[0] == ShapeOf(v.tasks[0]);
      ExecuteWorkable(Launched(v).value, launch, ParseActions(inputs).value, simulateFailure, SYSTEM_ACTOR, approvalId);
    }
  }

  predicate WorkableWorld(w: World) {
    forall id :: id in w.store ==> Workable(w.store[id])
  }

  lemma StepWorkable(plan: seq<TaskShape>, w: World, s: Step, vouched: set<nat>)
    requires OrderedPlan(plan) && (plan != [] ==> plan[0].department != Review)
    requires SoundWorld(w, vouched) && WorkableWorld(w)
    ensures WorkableWorld(Advance(plan, w, s))
  {
    hide OrderedPlan, Sound, Gated, OutcomeOn, Run, PreApproves, Productive, AuditLog.Extends, AuditLog.SameLedger;
    hide HasUndecided;
    match s
    case Called(c) =>
      CallStep(plan, w, c, vouched);
      if c.StartProject? {
        RunWorkable(w.next, c.policy, plan, c.launch, c.inputs, c.simulateFailure, w.next + 1);
      } else if c.id in w.store {
        CallWorkable(w.store[c.id], c, w.next + 1);
      }
    case Filed(id, action, requester) =>
      if id in w.store {
        FiledWorkable(w.store[id], w.next + 1, action, requester);
      }
  }

  lemma FiledWorkable(v: Record, approvalId: nat, action: ActionType, requester: string)
    requires Workable(v)
    ensures Workable(File(v, approvalId, action, requester))
  {
    hide HasOutput;
    var w := File(v, approvalId, action, requester);
    SameOutput(v, w);
    if HasUndecided(v.approvals) {
      var a :| a in v.approvals && a.status == Undecided;
      assert a in w.approvals;
    }
  }

  /** In every history, waiting projects have something to decide, and finished work has left artifacts. */
  lemma {:induction false} ReachedWorkable(plan: seq<TaskShape>, start: World, steps: seq<Step>, vouched: set<nat>)
    requires OrderedPlan(plan) && (plan != [] ==> plan[0].department != Review)
    requires SoundWorld(start, vouched) && WorkableWorld(start)
    ensures WorkableWorld(Reached(plan, start, steps))
  {
    hide OrderedPlan, SoundWorld, WorkableWorld, Advance;
    if steps != [] {
      var before := steps[..|steps| - 1];
      ReachedWorkable(plan, start, before, vouched);
      ReachedSound(plan, start, before, vouched);
      StepWorkable(plan, Reached(plan, start, before), steps[|steps| - 1], Vouched(plan, start, before, vouched));
    }
  }

  /******* Calls that go on *******/

  lemma NeverSeesNothing(v: Record)
    requires Productive(v)
    ensures !ReviewsNothing(v.tasks, v.artifacts, 0)
  {
    if v.tasks != [] && v.artifacts == [] {
      assert OpenAt(v.tasks, 0);
    }
  }

  predicate Saves(o: Outcome, status: ProjectStatus) {
    o.saved.Some? && o.saved.value.status == status
  }

  /** The mock provider never waits, and after work some artifact is there to review. */
  lemma MockCompletes(v: Record, approved: set<ActionType>, actor: Actor, approvalId: nat)
    requires Productive(v) && v.status == InProgress
    ensures Saves(Execute(v, MOCK_LAUNCH, approved, false, actor, approvalId), Completed)
  {
    hide Execute, ReviewsNothing, Productive, ResolveProvider;
    MockResolves(true);
    NeverSeesNothing(v);
    ExecuteAny(v, MOCK_LAUNCH, approved, actor, approvalId);
    assert !Pauses(v.tasks, 0, Mock, approved);
  }

  /** From revision and from planning one call completes the project. */
  lemma OpenProceeds(v: Record, approvalId: nat) returns (c: Call)
    requires Productive(v) && v.status in {RevisionRequested, ReadyForPlanning}
    ensures !c.StartProject? && c.id == v.id && Saves(OutcomeOn(v, c, approvalId), Completed)
  {
    hide Productive, ReviseTasks, ReplanTasks, Transition, Execute, ParseActions, Text.Strip;
    NothingParsed();
    var actor := CoerceActor(Nobody, Operator);
    if v.status == RevisionRequested {
      c := RevisionCall(v.id, Rereview, Nobody, "", MOCK_LAUNCH, []);
      RevisionProduces(v, Rereview, actor, Text.Strip(""));
      MockCompletes(Transition(ReviseTasks(v, Rereview, actor, Text.Strip("")), InProgress, actor).value, {}, actor,
        approvalId);
    } else {
      c := ReplanningCall(v.id, Nobody, MOCK_LAUNCH, [], true);
      ReplanProduces(v, actor, true);
      MockCompletes(Transition(ReplanTasks(v, actor, true), InProgress, actor).value, {}, actor, approvalId);
    }
  }

  function TypedInputs(actions: seq<ActionType>): seq<ActionInput> {
    seq(|actions|, i requires 0 <= i < |actions| => Typed(actions[i]))
  }

  lemma TypedParsed(actions: set<ActionType>)
    ensures ParseActions(TypedInputs(ActionsInOrder(actions))) == Ok(actions)
  {
    hide ActionsInOrder;
    InOrderExact(actions);
    var ordered := ActionsInOrder(actions);
    var inputs := TypedInputs(ordered);
    var parsed := set input | input in inputs :: ParsedAction(input).value;
    forall a
      ensures a in parsed <==> a in actions
    {
      if a in actions {
        var k :| 0 <= k < |ordered| && ordered[k] == a;
        assert inputs[k] in inputs && ParsedAction(inputs[k]) == Some(a);
      }
    }
    assert parsed == actions;
  }

  function ApprovalOfTypes(id: nat, requested: set<ActionType>, actor: Actor, overrides: RuntimeOverride): Call {
    ApprovalCall(id, TypedInputs(ActionsInOrder(requested)), Known(actor), "", MOCK_LAUNCH, overrides)
  }

  /** An approval of undecided types none of which was rejected reaches the authorization. */
  lemma ApprovalAccepted(v: Record, requested: set<ActionType>, actor: Actor, overrides: RuntimeOverride,
                         approvalId: nat)
    requires v.status == WaitingApproval && {} != requested <= UndecidedTypes(v) && requested !! RejectedTypes(v)
    ensures ValidateRequest(requested, v.approvals).None?
    ensures OutcomeOn(v, ApprovalOfTypes(v.id, requested, actor, overrides), approvalId) ==
      ResumeWaiting(v, requested, actor, "", MOCK_LAUNCH, overrides, approvalId)
  {
    hide ResumeWaiting, ParseActions, ActionsInOrder, TypedInputs, Text.Strip;
    TypedParsed(requested);
    UndecidedExists(v.approvals);
    Text.PlainStays("");
    assert UndecidedTypes(v) <= KnownTypes(v.approvals);
    assert requested * RejectedTypes(v) == {};
  }

  /** Whoever may approve one type, while others stay undecided, can do so on its own. */
  lemma OneAccepted(v: Record, a: ActionType, actor: Actor, overrides: RuntimeOverride, approvalId: nat)
    requires v.status == WaitingApproval && a in UndecidedTypes(v) && UndecidedTypes(v) != {a}
    requires a !in ApprovedTypes(v) && a !in RejectedTypes(v) && Rules.Authorize(a, actor, v.policy, overrides).allowed
    ensures var o := OutcomeOn(v, ApprovalOfTypes(v.id, {a}, actor, overrides), approvalId);
      o.saved.Some? && Advances(v, o.saved.value, {a})
  {
    hide AuthorizeAll, ApproveFrom, ActionsInOrder, TypesWith, Rules.Authorize, Rules.Closed, Execute, Released;
    hide Advances, OutcomeOn, ValidateRequest;
    ApprovalAccepted(v, {a}, actor, overrides, approvalId);
    assert {a} - ApprovedTypes(v) == {a};
    AuthorizesAll(v, {a}, actor, overrides);
    var r := AuthorizeAll(v, actor, ActionsInOrder({a}), overrides);
    var b :| b in UndecidedTypes(v) && b != a;
    assert b in UndecidedTypes(v) - {a};
    ApprovalAdvances(v, r.record, {a}, actor, "", overrides);
    var w := ApproveFrom(r.record, 0, {a}, actor, "");
    LogAfterAdvance(v, w, RecordEvent(w, ResumeTriggered(ApprovalResumePartial), actor), {a});
  }

  /** Whoever may approve all that is missing completes the project. */
  lemma AllProceed(v: Record, actor: Actor, overrides: RuntimeOverride, approvalId: nat) returns (c: Call)
    requires Workable(v) && v.status == WaitingApproval && UndecidedTypes(v) * RejectedTypes(v) == {}
    requires AllowsAll(v, UndecidedTypes(v) - ApprovedTypes(v), actor, overrides)
    ensures !c.StartProject? && c.id == v.id && Saves(OutcomeOn(v, c, approvalId), Completed)
  {
    hide AuthorizeAll, ApproveFrom, ActionsInOrder, TypesWith, Rules.Authorize, Execute, Released, Transition;
    hide OutcomeOn, ValidateRequest, Productive, AllowsAll;
    UndecidedExists(v.approvals);
    var requested := UndecidedTypes(v);
    assert requested !! RejectedTypes(v) by {
      assert forall a :: a in requested && a in RejectedTypes(v) ==> a in requested * RejectedTypes(v);
    }
    c := ApprovalOfTypes(v.id, requested, actor, overrides);
    ApprovalAccepted(v, requested, actor, overrides, approvalId);
    var p := requested - ApprovedTypes(v);
    AuthorizesAll(v, p, actor, overrides);
    var r := AuthorizeAll(v, actor, ActionsInOrder(p), overrides).record;
    SameOutput(v, r);
    ApproveFromEffect(r, 0, p, actor, "");
    var decided := ApproveFrom(r, 0, p, actor, "");
    SameOutput(v, decided);
    ReleasedProduces(decided, actor);
    assert requested - requested == {};
    MockCompletes(Transition(Released(decided, actor), InProgress, actor).value, ApprovedTypes(v) + p, actor,
      approvalId);
  }

  function RefusalOf(id: nat, actor: Actor, reason: string, overrides: RuntimeOverride): Call {
    RejectionCall(id, [], Known(actor), reason, "", overrides)
  }

  /** Whoever may decide all that is undecided sends the project to revision. */
  lemma RefusalProceeds(v: Record, actor: Actor, reason: string, overrides: RuntimeOverride, approvalId: nat)
    requires v.status == WaitingApproval && HasUndecided(v.approvals) && Text.Strip(reason) == reason != ""
    requires AllowsAll(v, UndecidedTypes(v), actor, overrides)
    ensures OutcomeOn(v, RefusalOf(v.id, actor, reason, overrides), approvalId) ==
      RejectWaiting(v, {}, actor, reason, "", overrides)
    ensures Saves(OutcomeOn(v, RefusalOf(v.id, actor, reason, overrides), approvalId), RevisionRequested)
  {
    hide AuthorizeAll, ActionsInOrder, TypesWith, Rules.Authorize, RejectFrom, MoveTasks, ParseActions;
    hide AllowsAll, RejectWaiting, Text.Strip;
    NothingParsed();
    Text.PlainStays("");
    RefusalAccepted(v, actor, reason, overrides);
  }

  lemma RefusalAccepted(v: Record, actor: Actor, reason: string, overrides: RuntimeOverride)
    requires v.status == WaitingApproval && AllowsAll(v, UndecidedTypes(v), actor, overrides)
    ensures var o := RejectWaiting(v, {}, actor, reason, "", overrides);
      && Saves(o, RevisionRequested)
      && UndecidedTypes(o.saved.value) == {} && ApprovedTypes(o.saved.value) == ApprovedTypes(v)
      && RejectedTypes(o.saved.value) == RejectedTypes(v) + UndecidedTypes(v)
  {
    hide AuthorizeAll, ActionsInOrder, TypesWith, Rules.Authorize, RejectFrom, MoveTasks, AllowsAll;
    AuthorizesAll(v, UndecidedTypes(v), actor, overrides);
    var r := AuthorizeAll(v, actor, ActionsInOrder(UndecidedTypes(v)), overrides).record;
    RejectFromEffect(r, 0, UndecidedTypes(v), actor, reason, "");
    var decided := RejectFrom(r, 0, UndecidedTypes(v), actor, reason, "");
    TypesRefused(v.approvals, decided.approvals, actor, reason, "");
    MoveTasksEffect(decided, 0, WaitingTasks, NeedsRevision, reason, actor);
  }

  lemma TypesRefused(before: seq<Approval>, after: seq<Approval>, actor: Actor, reason: string, note: string)
    requires RejectsFrom(before, after, 0, actor, reason, note)
    ensures TypesWith(after, Undecided) == {} && TypesWith(after, Approved) == TypesWith(before, Approved)
    ensures TypesWith(after, Rejected) == TypesWith(before, Rejected) + TypesWith(before, Undecided)
  {
    forall status, a
      ensures a in TypesWith(after, status) <==>
        exists k :: 0 <= k < |before| && after[k].status == status && after[k].action == a
      ensures a in TypesWith(before, status) <==>
        exists k :: 0 <= k < |before| && before[k].status == status && before[k].action == a
    {
      TypeAt(after, status, a);
      TypeAt(before, status, a);
    }
  }

  /******* Sequences of calls *******/

  /** The project is completed after the steps. */
  predicate Completes(plan: seq<TaskShape>, w: World, more: seq<Step>, id: nat) {
    id in Reached(plan, w, more).store && Reached(plan, w, more).store[id].status == Completed
  }

  lemma {:induction false} ReachedAfter(plan: seq<TaskShape>, w: World, s: Step, rest: seq<Step>)
    ensures Reached(plan, w, [s] + rest) == Reached(plan, Advance(plan, w, s), rest)
  {
    hide Advance;
    if rest == [] {
      assert [s] + rest == [s];
    } else {
      var n := |rest| - 1;
      ReachedAfter(plan, w, s, rest[..n]);
      assert ([s] + rest)[..n + 1] == [s] + rest[..n];
    }
  }

  /** A call first, and then the calls that complete the project. */
  lemma CompletesLater(plan: seq<TaskShape>, w: World, c: Call, rest: seq<Call>, id: nat)
    requires Completes(plan, Apply(plan, w, c), Steps(rest), id)
    ensures Completes(plan, w, Steps([c] + rest), id)
  {
    hide Apply, Reached;
    ReachedAfter(plan, w, Called(c), Steps(rest));
    assert Steps([c] + rest) == [Called(c)] + Steps(rest);
  }

  /** A call that saves takes effect, in a world that is sound again. */
  lemma CallReaches(plan: seq<TaskShape>, w: World, c: Call, vouched: set<nat>)
    requires OrderedPlan(plan) && SoundWorld(w, vouched) && !c.StartProject? && c.id in w.store
    requires OutcomeOn(w.store[c.id], c, w.next + 1).saved.Some?
    ensures var after := Apply(plan, w, c);
      && SoundWorld(after, vouched + VouchedBy(w, Called(c)))
      && c.id in after.store && after.store[c.id] == OutcomeOn(w.store[c.id], c, w.next + 1).saved.value
  {
    hide OrderedPlan, Sound, Gated, OutcomeOn, PreApproves, AuditLog.Extends;
    CallStep(plan, w, c, vouched);
    StepSound(plan, w, Called(c), vouched);
  }

  lemma OneCallCompletes(plan: seq<TaskShape>, w: World, c: Call, vouched: set<nat>)
    requires OrderedPlan(plan) && SoundWorld(w, vouched) && !c.StartProject? && c.id in w.store
    requires Saves(OutcomeOn(w.store[c.id], c, w.next + 1), Completed)
    ensures Completes(plan, w, Steps([c]), c.id)
  {
    hide OrderedPlan, SoundWorld, OutcomeOn, Apply;
    CallReaches(plan, w, c, vouched);
    CompletesLater(plan, w, c, [], c.id);
    assert [c] + [] == [c];
  }

  lemma KeyIsId(w: World, id: nat, vouched: set<nat>)
    requires SoundWorld(w, vouched) && id in w.store
    ensures w.store[id].id == id
  {
  }

  /** One type is approved, in a world from which the others can be approached the same way. */
  lemma OneReaches(plan: seq<TaskShape>, w: World, id: nat, a: ActionType, vouched: set<nat>) returns (c: Call)
    requires OrderedPlan(plan) && SoundWorld(w, vouched) && id in w.store && Workable(w.store[id])
    requires var v := w.store[id];
      && v.status == WaitingApproval && a in UndecidedTypes(v) && UndecidedTypes(v) != {a}
      && a !in ApprovedTypes(v) && a !in RejectedTypes(v) && !Rules.Closed(v.policy, a)
    ensures var next := Apply(plan, w, c);
      && SoundWorld(next, vouched + VouchedBy(w, Called(c)))
      && id in next.store && Workable(next.store[id]) && Advances(w.store[id], next.store[id], {a})
  {
    hide OrderedPlan, Sound, Gated, OutcomeOn, Apply, TypesWith, Rules.Closed, Rules.Authorize, Workable, Advances;
    var v := w.store[id];
    Rules.ClosedExactly(v.policy, a);
    var actor, overrides :| Rules.Authorize(a, actor, v.policy, overrides).allowed;
    c := ApprovalOfTypes(v.id, {a}, actor, overrides);
    OneAccepted(v, a, actor, overrides, w.next + 1);
    CallReaches(plan, w, c, vouched);
    CallWorkable(w.store[id], c, w.next + 1);
  }

  /** Approvals of one type after the other, by whoever may give each, complete an approvable project. */
  lemma {:induction false} ApproveAway(plan: seq<TaskShape>, w: World, id: nat,
                                       vouched: set<nat>) returns (more: seq<Call>)
    requires OrderedPlan(plan) && SoundWorld(w, vouched) && id in w.store && Workable(w.store[id])
    requires w.store[id].status == WaitingApproval && Approvable(w.store[id])
    ensures |more| <= |UndecidedTypes(w.store[id])| && Completes(plan, w, Steps(more), id)
    decreases |UndecidedTypes(w.store[id])|
  {
    hide OrderedPlan, SoundWorld, OutcomeOn, Apply, TypesWith, Rules.Closed, Rules.Authorize, Workable, Completes;
    hide Approvable;
    hide VouchedBy;
    var v := w.store[id];
    KeyIsId(w, id, vouched);
    SomethingUndecided(v);
    if a :| a in UndecidedTypes(v) - ApprovedTypes(v) && UndecidedTypes(v) != {a} {
      ApprovableAt(v, a);
      var c := OneReaches(plan, w, id, a, vouched);
      FewerMissing(v, Apply(plan, w, c).store[id], a);
      var rest := ApproveAway(plan, Apply(plan, w, c), id, vouched + VouchedBy(w, Called(c)));
      more := [c] + rest;
      CompletesLater(plan, w, c, rest, id);
    } else {
      var actor, overrides := SomeoneForTheRest(v);
      ApprovableParts(v);
      var c := AllProceed(v, actor, overrides, w.next + 1);
      more := [c];
      OneCallCompletes(plan, w, c, vouched);
    }
  }

  lemma ApprovableParts(v: Record)
    requires Approvable(v)
    ensures UndecidedTypes(v) * RejectedTypes(v) == {}
  {
  }

  lemma ApprovableAt(v: Record, a: ActionType)
    requires Approvable(v) && a in UndecidedTypes(v) - ApprovedTypes(v)
    ensures a !in ApprovedTypes(v) && a !in RejectedTypes(v) && !Rules.Closed(v.policy, a)
  {
    assert a !in UndecidedTypes(v) * RejectedTypes(v);
  }

  lemma FewerMissing(v: Record, w: Record, a: ActionType)
    requires Advances(v, w, {a})
    ensures w.status == v.status && (Approvable(w) <==> Approvable(v)) && (Rejectable(w) <==> Rejectable(v))
    ensures |UndecidedTypes(w)| == |UndecidedTypes(v)| - 1
  {
    hide TypesWith, Rules.Closed;
    AdvancesKeeps(v, w, {a});
  }

  lemma SomeoneForTheRest(v: Record) returns (actor: Actor, overrides: RuntimeOverride)
    requires Approvable(v) && forall a :: a in UndecidedTypes(v) - ApprovedTypes(v) ==> UndecidedTypes(v) == {a}
    ensures AllowsAll(v, UndecidedTypes(v) - ApprovedTypes(v), actor, overrides)
  {
    hide TypesWith, Rules.Closed, Rules.Authorize;
    if a :| a in UndecidedTypes(v) - ApprovedTypes(v) {
      Rules.ClosedExactly(v.policy, a);
      actor, overrides :| Rules.Authorize(a, actor, v.policy, overrides).allowed;
    } else {
      actor, overrides := SYSTEM_ACTOR, [];
    }
  }

  lemma RefusalReaches(plan: seq<TaskShape>, w: World, id: nat, reason: string, vouched: set<nat>) returns (c: Call)
    requires OrderedPlan(plan) && SoundWorld(w, vouched) && id in w.store && Workable(w.store[id])
    requires var v := w.store[id]; v.status == WaitingApproval && FixedTypes(v) == UndecidedTypes(v) && Rejectable(v)
    requires Text.Strip(reason) == reason != ""
    ensures var next := Apply(plan, w, c);
      && SoundWorld(next, vouched + VouchedBy(w, Called(c)))
      && id in next.store && Workable(next.store[id]) && next.store[id].status == RevisionRequested
  {
    hide OrderedPlan, SoundWorld, OutcomeOn, Apply, Workable, FixedTypes, AllowsAll, TypesWith, Text.Strip, VouchedBy;
    hide RejectWaiting, HasUndecided;
    var v := w.store[id];
    KeyIsId(w, id, vouched);
    WorkableParts(v);
    var actor, overrides :| AllowsAll(v, FixedTypes(v), actor, overrides);
    c := RefusalOf(id, actor, reason, overrides);
    RefusalProceeds(v, actor, reason, overrides, w.next + 1);
    CallReaches(plan, w, c, vouched);
    CallWorkable(v, c, w.next + 1);
  }

  lemma RefuseAndRevise(plan: seq<TaskShape>, w: World, id: nat, vouched: set<nat>) returns (more: seq<Call>)
    requires OrderedPlan(plan) && SoundWorld(w, vouched) && id in w.store && Workable(w.store[id])
    requires var v := w.store[id]; v.status == WaitingApproval && FixedTypes(v) == UndecidedTypes(v) && Rejectable(v)
    ensures |more| == 2 && Completes(plan, w, Steps(more), id)
  {
    hide OrderedPlan, SoundWorld, OutcomeOn, Apply, Workable, FixedTypes, Rejectable, Completes, VouchedBy, TypesWith;
    hide Text.Strip;
    Text.PlainStays("withdrawn");
    var c := RefusalReaches(plan, w, id, "withdrawn", vouched);
    var next := Apply(plan, w, c);
    var after := vouched + VouchedBy(w, Called(c));
    KeyIsId(next, id, after);
    WorkableParts(next.store[id]);
    var d := OpenProceeds(next.store[id], next.next + 1);
    OneCallCompletes(plan, next, d, after);
    more := [c] + [d];
    CompletesLater(plan, w, c, [d], id);
  }

  lemma SomethingUndecided(v: Record)
    requires Workable(v) && v.status == WaitingApproval
    ensures UndecidedTypes(v) != {}
  {
    UndecidedExists(v.approvals);
  }

  lemma WorkableParts(v: Record)
    requires Workable(v)
    ensures Productive(v) && (v.status == WaitingApproval ==> HasUndecided(v.approvals))
  {
  }

  /** Once all that can be approved is approved, someone may refuse the rest, and a revision completes the project. */
  lemma {:induction false} RejectAway(plan: seq<TaskShape>, w: World, id: nat,
                                      vouched: set<nat>) returns (more: seq<Call>)
    requires OrderedPlan(plan) && SoundWorld(w, vouched) && id in w.store && Workable(w.store[id])
    requires w.store[id].status == WaitingApproval && !Approvable(w.store[id]) && Rejectable(w.store[id])
    ensures |more| <= |UndecidedTypes(w.store[id])| + 1 && Completes(plan, w, Steps(more), id)
    decreases |UndecidedTypes(w.store[id])|
  {
    hide OrderedPlan, SoundWorld, OutcomeOn, Apply, TypesWith, Rules.Closed, Rules.Authorize, Workable, Completes;
    hide Approvable;
    hide VouchedBy, Rejectable, FixedTypes;
    var v := w.store[id];
    SomethingFixed(v);
    if a :| a in UndecidedTypes(v) - FixedTypes(v) {
      var c := OneReaches(plan, w, id, a, vouched);
      FewerMissing(v, Apply(plan, w, c).store[id], a);
      var rest := RejectAway(plan, Apply(plan, w, c), id, vouched + VouchedBy(w, Called(c)));
      more := [c] + rest;
      CompletesLater(plan, w, c, rest, id);
    } else {
      assert FixedTypes(v) == UndecidedTypes(v) by {
        assert forall a :: a in UndecidedTypes(v) ==> a in FixedTypes(v) || a in UndecidedTypes(v) - FixedTypes(v);
      }
      more := RefuseAndRevise(plan, w, id, vouched);
    }
  }

  /** What keeps a waiting project from being approved stays undecided. */
  lemma SomethingFixed(v: Record)
    requires !Approvable(v)
    ensures FixedTypes(v) != {} && FixedTypes(v) <= UndecidedTypes(v)
    ensures forall a :: a in UndecidedTypes(v) - FixedTypes(v) ==>
      a !in ApprovedTypes(v) && a !in RejectedTypes(v) && !Rules.Closed(v.policy, a) && UndecidedTypes(v) != {a}
  {
    hide TypesWith, Rules.Closed;
    if UndecidedTypes(v) * RejectedTypes(v) != {} {
      var a :| a in UndecidedTypes(v) * RejectedTypes(v);
      assert a in FixedTypes(v);
    } else {
      var a :| a in UndecidedTypes(v) - ApprovedTypes(v) && Rules.Closed(v.policy, a);
      assert a in FixedTypes(v);
    }
  }

  lemma FourTypes(types: set<ActionType>)
    ensures |types| <= 4
  {
    var all := {BulkModify, DestructiveChange, ExternalApiSend, ProductionAffectingChange};
    forall a | a in types
      ensures a in all
    {
      match a
      case ExternalApiSend =>
      case DestructiveChange =>
      case BulkModify =>
      case ProductionAffectingChange =>
    }
    assert |all - types| + |types| == |all| by {
      assert all == (all - types) + types;
    }
  }

  lemma FiveCallsComplete(plan: seq<TaskShape>, w: World, id: nat, vouched: set<nat>) returns (more: seq<Call>)
    requires OrderedPlan(plan) && SoundWorld(w, vouched) && id in w.store && Workable(w.store[id])
    requires !Stalled(w.store[id])
    ensures |more| <= 5 && Completes(plan, w, Steps(more), id)
  {
    hide OrderedPlan, Sound, Gated, OutcomeOn, Productive, TypesWith, Approvable, Rejectable;
    var v := w.store[id];
    if v.status == Completed {
      more := [];
    } else if v.status != WaitingApproval {
      var c := OpenProceeds(v, w.next + 1);
      OneCallCompletes(plan, w, c, vouched);
      more := [c];
    } else {
      FourTypes(UndecidedTypes(v));
      if Approvable(v) {
        more := ApproveAway(plan, w, id, vouched);
      } else {
        more := RejectAway(plan, w, id, vouched);
      }
    }
  }

  /** Wherever a history has led, a project can still be completed exactly when it is not stalled, and then at
      most five calls do it. */
  lemma CompletableExactly(plan: seq<TaskShape>, start: World, steps: seq<Step>, vouched: set<nat>, id: nat)
    requires OrderedPlan(plan) && (plan != [] ==> plan[0].department != Review)
    requires SoundWorld(start, vouched) && WorkableWorld(start) && id in Reached(plan, start, steps).store
    ensures var w := Reached(plan, start, steps);
      && ((exists more: seq<Step> :: Completes(plan, w, more, id)) <==> !Stalled(w.store[id]))
      && (!Stalled(w.store[id]) ==> exists calls: seq<Call> :: |calls| <= 5 && Completes(plan, w, Steps(calls), id))
  {
    hide OrderedPlan, SoundWorld, Stalled, Reached, Workable;
    var w := Reached(plan, start, steps);
    var now := Vouched(plan, start, steps, vouched);
    ReachedSound(plan, start, steps, vouched);
    ReachedWorkable(plan, start, steps, vouched);
    if Stalled(w.store[id]) {
      forall more: seq<Step>
        ensures !Completes(plan, w, more, id)
      {
        StalledForever(plan, w, more, now, id);
        StalledWaits(Reached(plan, w, more).store[id]);
      }
    } else {
      var calls := FiveCallsComplete(plan, w, id, now);
    }
  }

  lemma StalledWaits(v: Record)
    requires Stalled(v)
    ensures v.status == WaitingApproval
  {
  }
}
