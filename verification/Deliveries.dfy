/** Histories that lead to an artifact of an external provider, with and without an approval. */
module Deliveries {
  import opened Prelude
  import opened Domain
  import opened Workflow
  import opened Calls
  import opened Soundness
  import opened Histories
  import opened Runs
  import opened Completion
  import opened Work
  import opened Authority
  import opened Decisions
  import opened Traps
  import Plans
  import Rules = ApprovalRules
  import Text

  const OPEN_POLICY := ProjectPolicy(None, false, [])

  /** The new project, and what it is asked to do without asking. */
  function StartWith(inputs: seq<ActionInput>): Call {
    StartProject(OPEN_POLICY, GEMINI_LAUNCH, inputs, false)
  }

  predicate HasAnalysisBy(v: Record, provider: Provider) {
    exists j :: 0 <= j < |v.artifacts| && v.artifacts[j].kind == Trend && v.artifacts[j].provider == Some(provider)
  }

  lemma AnalysisIsExternal(v: Record)
    requires HasAnalysisBy(v, Gemini)
    ensures HasExternalArtifact(v)
  {
    var j :| 0 <= j < |v.artifacts| && v.artifacts[j].kind == Trend && v.artifacts[j].provider == Some(Gemini);
    assert IsExternal(v.artifacts[j]);
  }

  lemma OwnDepartments(tasks: seq<Task>)
    requires Shape(tasks) == Plans.BuildPlan()
    ensures |tasks| == 5 && DistinctTasks(tasks)
    ensures forall k :: 0 <= k < 5 ==> (tasks[k].department == Trend <==> k == 3)
  {
    Plans.BuildPlanIsGood();
    forall k | 0 <= k < 5
      ensures tasks[k].department == Plans.BuildPlan()[k].department && tasks[k].id == Plans.BuildPlan()[k].id
    {
    }
  }

  /** Once the external action is approved, Gemini delivers the analysis that is open. */
  lemma ExecutionDelivers(v: Record, approved: set<ActionType>, w: Record, end: nat, approvalId: nat)
    requires Shape(v.tasks) == Plans.BuildPlan() && v.tasks[3].status != Done && ExternalApiSend in approved
    requires StopsBefore(v.tasks, 0, end, Gemini, approved) && Performs(v, w, Gemini, end, false, approvalId)
    ensures HasAnalysisBy(w, Gemini)
  {
    hide Plans.BuildPlan, Trail;
    OwnDepartments(v.tasks);
    assert end == 5;
    assert Delivered(w.artifacts, v.tasks[3], Gemini);
    var j :| 0 <= j < |w.artifacts| && DeliveredAt(w.artifacts, v.tasks[3], Gemini, j);
  }

  /** The record of a new project when its execution begins. */
  function Fresh(): Record {
    Launched(Drafted(0, OPEN_POLICY, Plans.BuildPlan())).value
  }

  lemma FreshProject()
    ensures var v := Fresh();
      && v.status == InProgress && v.policy == OPEN_POLICY && v.id == 0 && Shape(v.tasks) == Plans.BuildPlan()
      && v.approvals == [] && |v.tasks| == 5 && v.tasks[3].status == Pending
    ensures forall inputs, actions :: ParseActions(inputs) == Ok(actions) ==>
      OutcomeOf(Plans.BuildPlan(), EMPTY, StartWith(inputs)) == Execute(Fresh(), GEMINI_LAUNCH, actions, false,
        SYSTEM_ACTOR, 1)
  {
    hide Plans.BuildPlan, Execute, ParseActions;
    PlanLength();
  }

  /** A caller who vouches for the external action gets the analysis at once. */
  lemma VouchedDelivers()
    ensures var w := OutcomeOf(Plans.BuildPlan(), EMPTY, StartWith([Typed(ExternalApiSend)]));
      w.saved.Some? && HasAnalysisBy(w.saved.value, Gemini)
  {
    hide Plans.BuildPlan, Execute, ParseActions, StopsBefore, Performs, Fresh, OutcomeOf, HasAnalysisBy;
    ExternalParsed([Typed(ExternalApiSend)]);
    GeminiResolves();
    FreshProject();
    OwnDepartments(Fresh().tasks);
    var end := ExecutionExactly(Fresh(), GEMINI_LAUNCH, {ExternalApiSend}, false, SYSTEM_ACTOR, 1);
    ExecutionDelivers(Fresh(), {ExternalApiSend},
      Execute(Fresh(), GEMINI_LAUNCH, {ExternalApiSend}, false, SYSTEM_ACTOR,
      1).saved.value, end, 1);
  }

  lemma ExecutionStops(v: Record, w: Record, end: nat, approvalId: nat)
    requires Shape(v.tasks) == Plans.BuildPlan() && v.tasks[3].status != Done && v.approvals == []
    requires StopsBefore(v.tasks, 0, end, Gemini, {}) && Performs(v, w, Gemini, end, false, approvalId)
    ensures |w.tasks| == 5 && Shape(w.tasks) == Shape(v.tasks) && w.tasks[3].status == Waiting && w.policy == v.policy
    ensures w.status == WaitingApproval
    ensures w.approvals == [Approval(approvalId, ExternalApiSend, Undecided, "system", "")]
  {
    hide Plans.BuildPlan, LeavesWork, Trails;
    OwnDepartments(v.tasks);
    assert NeedsApproval(v.tasks[3], Gemini, {});
    assert end == 3;
    assert forall k :: 0 <= k < 5 ==> ShapeOf(w.tasks[k]) == ShapeOf(v.tasks[k]);
  }

  /** A new project that waits for the external action: everything before the analysis is done. */
  lemma StartStops()
    ensures var o := OutcomeOf(Plans.BuildPlan(), EMPTY, StartWith([]));
      && o.saved.Some? && Shape(o.saved.value.tasks) == Plans.BuildPlan()
      && |o.saved.value.tasks| == 5 && o.saved.value.tasks[3].status == Waiting && o.saved.value.policy == OPEN_POLICY
      && o.saved.value.status == WaitingApproval
      && o.saved.value.approvals == [Approval(1, ExternalApiSend, Undecided, "system", "")]
  {
    hide Plans.BuildPlan, Execute, ParseActions, StopsBefore, Performs, Fresh, OutcomeOf;
    NothingParsed();
    GeminiResolves();
    FreshProject();
    OwnDepartments(Fresh().tasks);
    var end := ExecutionExactly(Fresh(), GEMINI_LAUNCH, {}, false, SYSTEM_ACTOR, 1);
    ExecutionStops(Fresh(), Execute(Fresh(), GEMINI_LAUNCH, {}, false, SYSTEM_ACTOR, 1).saved.value, end, 1);
  }

  function ExternalApproval(): Call {
    ApprovalCall(0, [Typed(ExternalApiSend)], Known(ANN), "", GEMINI_LAUNCH, [])
  }

  lemma AnnMayApprove()
    ensures Rules.Authorize(ExternalApiSend, ANN, OPEN_POLICY, []).allowed
  {
    hide Text.Strip, Text.Normalize, ActionValue;
    AuthorizeExactly(ExternalApiSend, ANN, OPEN_POLICY, []);
    assert HasRole(ANN, OPEN_POLICY, Approver) && Admitted(Approver, ExternalApiSend, OPEN_POLICY);
  }

  lemma ApprovalDelivers(v: Record, approvalId: nat)
    requires v.id == 0 && v.policy == OPEN_POLICY && v.status == WaitingApproval
    requires Shape(v.tasks) == Plans.BuildPlan() && v.tasks[3].status == Waiting
    requires |v.approvals| == 1 && v.approvals[0].action == ExternalApiSend && v.approvals[0].status == Undecided
    ensures var o := OutcomeOn(v, ExternalApproval(), approvalId); o.saved.Some? && HasAnalysisBy(o.saved.value, Gemini)
  {
    hide Plans.BuildPlan, ParseActions, OutcomeOn, StopsBefore, Performs, Settles, Denies, Says, Rules.Authorize;
    hide Text.Strip;
    hide ResolveProvider;
    var requested := {ExternalApiSend};
    ExternalParsed([Typed(ExternalApiSend)]);
    GeminiResolves();
    AnnMayApprove();
    OwnDepartments(v.tasks);
    assert HasType(v, ExternalApiSend, Undecided);
    assert Acceptable(v, requested);
    assert MayDecide(v, Missing(v, requested), ANN, []);
    var u, end := ApprovalExactly(v, [Typed(ExternalApiSend)], Known(ANN), "", GEMINI_LAUNCH, [], approvalId);
    assert !exists a :: HasType(v, a, Undecided) && a !in requested;
    assert Shape(u.tasks) == Shape(v.tasks) by {
      assert forall k :: 0 <= k < 5 ==> ShapeOf(u.tasks[k]) == ShapeOf(v.tasks[k]);
    }
    ExecutionDelivers(u, TypesWith(v.approvals, Approved) + requested, OutcomeOn(v, ExternalApproval(),
      approvalId).saved.value, end, approvalId);
  }

  lemma NobodyVouches(calls: seq<Call>, s: Step)
    requires calls == [StartWith([]), ExternalApproval()] && s in Steps(calls)
    ensures s.Called? && !Bypasses(s.call)
  {
    hide ParseActions;
    NothingParsed();
    var k :| 0 <= k < |calls| && Steps(calls)[k] == s;
    assert s.call == calls[k];
  }

  lemma ExternalApprovalIsOnOurs()
    ensures !ExternalApproval().StartProject? && ExternalApproval().id == 0 && !Bypasses(ExternalApproval())
  {
  }

  /** Without anyone vouching, an approved project comes to an external artifact: the gate is not closed for good. */
  lemma ApprovedDelivers()
    ensures var plan, steps := Plans.BuildPlan(), Steps([StartWith([]), ExternalApproval()]);
      && SoundWorld(EMPTY, {}) && 0 !in Vouched(plan, EMPTY, steps, {})
      && 0 in Reached(plan, EMPTY, steps).store && HasExternalArtifact(Reached(plan, EMPTY, steps).store[0])
  {
    hide Plans.BuildPlan, OutcomeOn, Run, SoundWorld, HasExternalArtifact, HasAnalysisBy, ExternalApproval;
    var plan, calls := Plans.BuildPlan(), [StartWith([]), ExternalApproval()];
    OwnPlanOrdered();
    RunsAreHistories(plan, calls);
    RunsAreHistories(plan, []);
    NothingParsed();
    forall s | s in Steps(calls)
      ensures !Bypasses(s.call)
    {
      NobodyVouches(calls, s);
    }
    NoBypass(plan, EMPTY, Steps(calls), {});
    StepEffect(plan, [], calls[0]);
    StepEffect(plan, [calls[0]], calls[1]);
    assert [] + [calls[0]] == [calls[0]] && [calls[0]] + [calls[1]] == calls && After(plan, []) == EMPTY;
    StartStops();
    ExternalApprovalIsOnOurs();
    var v := After(plan, [calls[0]]).store[0];
    ApprovalDelivers(v, After(plan, [calls[0]]).next + 1);
    AnalysisIsExternal(After(plan, calls).store[0]);
  }
}
