/** Runs and histories of the orchestrator's own plan that end in a dead end. */
module Traps {
  import opened Prelude
  import opened Domain
  import opened Workflow
  import opened AuditLog
  import opened Loops
  import opened Calls
  import opened Soundness
  import opened Histories
  import opened Runs
  import opened Completion
  import opened Retry
  import opened DeadEnds
  import opened Completability
  import Plans
  import Rules = ApprovalRules
  import Text

  const GEMINI_LAUNCH := Launch("gemini", true)

  lemma GeminiResolves()
    ensures ResolveProvider(GEMINI_LAUNCH) == Some(Gemini)
  {
    hide Text.Normalize, Text.Strip;
    Text.PlainStays("gemini");
  }

  function Start(policy: ProjectPolicy): Call {
    StartProject(policy, GEMINI_LAUNCH, [], false)
  }

  lemma TrendPauses(tasks: seq<Task>)
    requires Shape(tasks) == Plans.BuildPlan() && tasks[3].status != Done
    ensures Pauses(tasks, 0, Gemini, {})
  {
    assert OpenAt(tasks, 3);
    assert tasks[3].department == Plans.BuildPlan()[3].department == Trend;
    assert MustWait(tasks[3], Gemini, {});
  }

  /** Execution by an external provider waits for the external action while the trend task is open. */
  lemma ExecutionWaits(v: Record, actor: Actor, approvalId: nat)
    requires v.status == InProgress && Shape(v.tasks) == Plans.BuildPlan() && v.tasks[3].status != Done
    requires UndecidedTypes(v) == {}
    ensures var o := Execute(v, GEMINI_LAUNCH, {}, false, actor, approvalId);
      && Saves(o, WaitingApproval) && UndecidedTypes(o.saved.value) == {ExternalApiSend}
      && ApprovedTypes(o.saved.value) == ApprovedTypes(v) && RejectedTypes(o.saved.value) == RejectedTypes(v)
  {
    hide Execute, Pauses, ReviewsNothing, ResolveProvider, Plans.BuildPlan;
    GeminiResolves();
    TrendPauses(v.tasks);
    ExecuteAny(v, GEMINI_LAUNCH, {}, actor, approvalId);
    OneRequest(v.approvals, Execute(v, GEMINI_LAUNCH, {}, false, actor, approvalId).saved.value.approvals);
  }

  lemma OneRequest(before: seq<Approval>, after: seq<Approval>)
    requires AtMostOneRequest(before, after) && TypesWith(before, Undecided) == {}
    requires ExternalApiSend in TypesWith(after, Undecided)
    ensures TypesWith(after, Undecided) == {ExternalApiSend}
    ensures TypesWith(after, Approved) == TypesWith(before, Approved)
    ensures TypesWith(after, Rejected) == TypesWith(before, Rejected)
  {
    var a := after[|before|];
    assert after == before + [a];
    assert forall x :: x in after <==> x in before || x == a;
    assert forall x :: x in before ==> x.status == Undecided ==> x.action in TypesWith(before, Undecided);
  }

  /** A new project with an external provider and nothing approved waits for the external action. */
  lemma StartWaits(policy: ProjectPolicy)
    ensures var o := OutcomeOf(Plans.BuildPlan(), EMPTY, Start(policy));
      && Saves(o, WaitingApproval) && UndecidedTypes(o.saved.value) == {ExternalApiSend}
      && ApprovedTypes(o.saved.value) == {} && RejectedTypes(o.saved.value) == {}
  {
    hide Execute, ParseActions, Plans.BuildPlan, UndecidedTypes, ApprovedTypes, RejectedTypes;
    NothingParsed();
    var v := Drafted(0, policy, Plans.BuildPlan());
    PlanLength();
    var w := Launched(v).value;
    NoTypes(w);
    ExecutionWaits(w, SYSTEM_ACTOR, 1);
  }

  lemma PlanLength()
    ensures |Plans.BuildPlan()| == 5
  {
  }

  lemma NoTypes(v: Record)
    requires v.approvals == []
    ensures UndecidedTypes(v) == ApprovedTypes(v) == RejectedTypes(v) == {}
  {
  }

  /******* The strict trap *******/

  const STRICT_POLICY := ProjectPolicy(None, true, [])

  /** The first call on an empty repository can lead to a project that is trapped, by a strict policy without rules. */
  lemma StrictIsTrapped()
    ensures var plan := Plans.BuildPlan(); var calls := [Start(STRICT_POLICY)];
      Has(plan, calls, 0) && Trapped(Project(plan, calls, 0)) && Locked(Project(plan, calls, 0), ExternalApiSend)
  {
    hide Plans.BuildPlan, OutcomeOf, TypesWith;
    var plan, c := Plans.BuildPlan(), Start(STRICT_POLICY);
    OwnPlanOrdered();
    assert After(plan, []) == EMPTY;
    StepEffect(plan, [], c);
    assert [] + [c] == [c];
    StartWaits(STRICT_POLICY);
  }

  lemma OwnPlanOrdered()
    ensures OrderedPlan(Plans.BuildPlan())
  {
    Plans.BuildPlanIsGood();
    GoodPlanOrdered(Plans.BuildPlan());
  }

  /******* A dead end without a locked action *******/

  /** Approvers decide about the external action, operators about bulk changes. */
  const SPLIT_POLICY := ProjectPolicy(None, false,
    [("external_api_send", PolicyRule([Approver], [])), ("bulk_modify", PolicyRule([Operator], []))])

  const ANN := Actor("ann", Approver, Human)
  const BEN := Actor("ben", Operator, Human)

  lemma SplitRoles()
    ensures Rules.RolesFor(SPLIT_POLICY, ExternalApiSend) == {Approver}
    ensures Rules.RolesFor(SPLIT_POLICY, BulkModify) == {Operator}
  {
    hide Text.Normalize, Rules.DefaultRoles;
    Rules.FirstMatchIsFirst(SPLIT_POLICY.actionRules, "external_api_send", true, 0);
    assert |"external_api_send"| != |"bulk_modify"|;
    Rules.FirstMatchIsFirst(SPLIT_POLICY.actionRules, "bulk_modify", true, 1);
  }

  /** The rules name other roles than viewers, and so do the defaults of the actions without a rule. */
  lemma SplitOpen(a: ActionType)
    ensures !Rules.Closed(SPLIT_POLICY, a)
  {
    hide Rules.FirstMatch, ActionValue;
    var rules := SPLIT_POLICY.actionRules;
    Rules.FoundIsEntry(rules, ActionValue(a), true);
    Rules.FoundIsEntry(rules, ActionValue(a), false);
    var found := Rules.RuleFor(SPLIT_POLICY, a);
    if found.Some? {
      assert found.value.allowedRoles[0] in {Approver, Operator};
      assert found.value.allowedRoles[0] in Rules.RolesFor(SPLIT_POLICY, a);
    } else {
      assert Admin in Rules.RolesFor(SPLIT_POLICY, a);
    }
  }

  lemma SplitAllows()
    ensures Rules.Authorize(ExternalApiSend, ANN, SPLIT_POLICY, []).allowed
    ensures Rules.Authorize(BulkModify, BEN, SPLIT_POLICY, []).allowed
  {
    hide Rules.RolesFor, Text.Normalize, Text.Strip;
    SplitRoles();
    assert Approver in {Approver};
    assert Rules.RolesOf(ANN, None) * {Approver} == {Approver};
    assert Rules.RolesOf(BEN, None) * {Operator} == {Operator};
  }

  /** No role admits to both actions. */
  lemma SplitDeniesBoth(actor: Actor, overrides: RuntimeOverride)
    ensures Rules.Authorize(ExternalApiSend, actor, SPLIT_POLICY, overrides).allowed ==>
      !Rules.Authorize(BulkModify, actor, SPLIT_POLICY, overrides).allowed
  {
    hide Rules.Authorize, Rules.RolesFor;
    SplitRoles();
    if Rules.Authorize(ExternalApiSend, actor, SPLIT_POLICY, overrides).allowed
      && Rules.Authorize(BulkModify, actor, SPLIT_POLICY, overrides).allowed {
      Rules.OverrideNeverAddsRoles(ExternalApiSend, actor, SPLIT_POLICY, overrides);
      Rules.OverrideNeverAddsRoles(BulkModify, actor, SPLIT_POLICY, overrides);
    }
  }

  /** Ann approves the external action, Ben refuses the bulk change, and after a revision both are asked for again. */
  function SplitSteps(): seq<Step> {
    [
      Called(Start(SPLIT_POLICY)),
      Filed(0, BulkModify, "ann"),
      Called(ApprovalOfTypes(0, {ExternalApiSend}, ANN, [])),
      Called(RefusalOf(0, BEN, "withdrawn", [])),
      Called(RevisionCall(0, Rebuilding, Nobody, "", GEMINI_LAUNCH, [])),
      Filed(0, BulkModify, "ann")
    ]
  }

  /** Project 0, the only thing that the steps are about. */
  predicate Holds(v: Record, status: ProjectStatus, undecided: set<ActionType>, approved: set<ActionType>,
                  rejected: set<ActionType>) {
    && v.status == status
    && UndecidedTypes(v) == undecided && ApprovedTypes(v) == approved && RejectedTypes(v) == rejected
  }

  predicate IsOurs(w: World) {
    0 in w.store && w.store[0].id == 0 && w.store[0].policy == SPLIT_POLICY
    && Shape(w.store[0].tasks) == Plans.BuildPlan()
  }

  lemma StepOnOurs(w: World, s: Step, vouched: set<nat>)
    requires SoundWorld(w, vouched) && IsOurs(w)
    ensures var next := Advance(Plans.BuildPlan(), w, s);
      SoundWorld(next, vouched + VouchedBy(w, s)) && IsOurs(next)
  {
    hide Plans.BuildPlan, Advance, Sound, Gated, SameLedger, VouchedBy;
    OwnPlanOrdered();
    StepSound(Plans.BuildPlan(), w, s, vouched);
  }

  lemma CallOnOurs(w: World, c: Call, vouched: set<nat>)
    requires SoundWorld(w, vouched) && IsOurs(w) && !c.StartProject? && c.id == 0
    requires OutcomeOn(w.store[0], c, w.next + 1).saved.Some?
    ensures var next := Advance(Plans.BuildPlan(), w, Called(c));
      SoundWorld(next, vouched + VouchedBy(w, Called(c))) && IsOurs(next)
      && next.store[0] == OutcomeOn(w.store[0], c, w.next + 1).saved.value
  {
    hide Plans.BuildPlan, Apply, SoundWorld, VouchedBy, OutcomeOn;
    OwnPlanOrdered();
    StepOnOurs(w, Called(c), vouched);
    CallReaches(Plans.BuildPlan(), w, c, vouched);
  }

  lemma Opened(vouched: set<nat>)
    requires SoundWorld(EMPTY, vouched)
    ensures var next := Advance(Plans.BuildPlan(), EMPTY, Called(Start(SPLIT_POLICY)));
      && SoundWorld(next, vouched + VouchedBy(EMPTY, Called(Start(SPLIT_POLICY))))
      && IsOurs(next) && Holds(next.store[0], WaitingApproval, {ExternalApiSend}, {}, {})
  {
    hide Plans.BuildPlan, OutcomeOf, TypesWith, Sound, Gated, SameLedger, VouchedBy;
    OwnPlanOrdered();
    var c := Start(SPLIT_POLICY);
    StepSound(Plans.BuildPlan(), EMPTY, Called(c), vouched);
    CallStep(Plans.BuildPlan(), EMPTY, c, vouched);
    StartWaits(SPLIT_POLICY);
  }

  lemma FiledOnOurs(w: World, vouched: set<nat>, approved: set<ActionType>, rejected: set<ActionType>)
    requires SoundWorld(w, vouched) && IsOurs(w)
    requires Holds(w.store[0], WaitingApproval, {ExternalApiSend}, approved, rejected)
    ensures var s := Filed(0, BulkModify, "ann"); var next := Advance(Plans.BuildPlan(), w, s);
      && SoundWorld(next, vouched + VouchedBy(w, s)) && IsOurs(next)
      && Holds(next.store[0], WaitingApproval, {ExternalApiSend, BulkModify}, approved, rejected)
  {
    hide Plans.BuildPlan, SoundWorld, VouchedBy, UndecidedTypes, ApprovedTypes, RejectedTypes;
    StepOnOurs(w, Filed(0, BulkModify, "ann"), vouched);
    TypesFiled(w.store[0], w.next + 1, BulkModify, "ann");
  }

  lemma ApprovedOnOurs(w: World, vouched: set<nat>)
    requires SoundWorld(w, vouched) && IsOurs(w)
    requires Holds(w.store[0], WaitingApproval, {ExternalApiSend, BulkModify}, {}, {})
    ensures var s := Called(ApprovalOfTypes(0, {ExternalApiSend}, ANN, []));
      var next := Advance(Plans.BuildPlan(), w, s);
      && SoundWorld(next, vouched + VouchedBy(w, s)) && IsOurs(next)
      && Holds(next.store[0], WaitingApproval, {BulkModify}, {ExternalApiSend}, {})
  {
    hide Plans.BuildPlan, SoundWorld, VouchedBy, UndecidedTypes, ApprovedTypes, RejectedTypes, OutcomeOn, Advance;
    hide TypedInputs, ActionsInOrder, Holds;
    ApprovalOfOurs(w.store[0], w.next + 1);
    CallOnOurs(w, ApprovalOfTypes(0, {ExternalApiSend}, ANN, []), vouched);
  }

  lemma ApprovalOfOurs(v: Record, approvalId: nat)
    requires v.id == 0 && v.policy == SPLIT_POLICY
    requires Holds(v, WaitingApproval, {ExternalApiSend, BulkModify}, {}, {})
    ensures var o := OutcomeOn(v, ApprovalOfTypes(0, {ExternalApiSend}, ANN, []), approvalId);
      o.saved.Some? && Holds(o.saved.value, WaitingApproval, {BulkModify}, {ExternalApiSend}, {})
  {
    hide UndecidedTypes, ApprovedTypes, RejectedTypes, OutcomeOn, Rules.Authorize, Advances;
    hide TypedInputs, ActionsInOrder;
    SplitAllows();
    assert BulkModify in UndecidedTypes(v);
    OneAccepted(v, ExternalApiSend, ANN, [], approvalId);
    ExternalAdvances(v, OutcomeOn(v, ApprovalOfTypes(0, {ExternalApiSend}, ANN, []), approvalId).saved.value);
  }

  lemma ExternalAdvances(v: Record, w: Record)
    requires Advances(v, w, {ExternalApiSend})
    requires Holds(v, WaitingApproval, {ExternalApiSend, BulkModify}, {}, {})
    ensures Holds(w, WaitingApproval, {BulkModify}, {ExternalApiSend}, {})
  {
    hide UndecidedTypes, ApprovedTypes, RejectedTypes, Rules.Closed;
  }

  lemma RefusedOnOurs(w: World, vouched: set<nat>)
    requires SoundWorld(w, vouched) && IsOurs(w)
    requires Holds(w.store[0], WaitingApproval, {BulkModify}, {ExternalApiSend}, {})
    ensures var s := Called(RefusalOf(0, BEN, "withdrawn", [])); var next := Advance(Plans.BuildPlan(), w, s);
      && SoundWorld(next, vouched + VouchedBy(w, s)) && IsOurs(next)
      && Holds(next.store[0], RevisionRequested, {}, {ExternalApiSend}, {BulkModify})
  {
    hide Plans.BuildPlan, SoundWorld, VouchedBy, TypesWith, OutcomeOn, Advance, Rules.Authorize, RejectWaiting;
    hide Text.Strip;
    SplitAllows();
    Text.PlainStays("withdrawn");
    UndecidedExists(w.store[0].approvals);
    RefusalProceeds(w.store[0], BEN, "withdrawn", [], w.next + 1);
    RefusalAccepted(w.store[0], BEN, "withdrawn", []);
    CallOnOurs(w, RefusalOf(0, BEN, "withdrawn", []), vouched);
  }

  /** A revision that rebuilds lets the trend task wait again. */
  lemma RevisionWaits(v: Record, approvalId: nat)
    requires v.status == RevisionRequested && Shape(v.tasks) == Plans.BuildPlan() && UndecidedTypes(v) == {}
    ensures var o := OutcomeOn(v, RevisionCall(v.id, Rebuilding, Nobody, "", GEMINI_LAUNCH, []), approvalId);
      o.saved.Some? && Holds(o.saved.value, WaitingApproval, {ExternalApiSend}, ApprovedTypes(v), RejectedTypes(v))
  {
    hide MoveTasks, Execute, ParseActions, Text.Strip, TypesWith;
    NothingParsed();
    var actor, which := CoerceActor(Nobody, Operator), InDepartments(ResetDepartments(Rebuilding));
    var triggered := RecordEvent(v, ResumeTriggered(RevisionResume(Rebuilding)), actor);
    MoveTasksEffect(triggered, 0, which, Pending, Text.Strip(""), actor);
    var reset := ReviseTasks(v, Rebuilding, actor, Text.Strip(""));
    var w := Transition(reset, InProgress, actor).value;
    assert Shape(w.tasks) == Shape(v.tasks);
    assert v.tasks[3].department == Plans.BuildPlan()[3].department == Trend;
    ExecutionWaits(w, actor, approvalId);
  }

  lemma RevisedOnOurs(w: World, vouched: set<nat>)
    requires SoundWorld(w, vouched) && IsOurs(w)
    requires Holds(w.store[0], RevisionRequested, {}, {ExternalApiSend}, {BulkModify})
    ensures var s := Called(RevisionCall(0, Rebuilding, Nobody, "", GEMINI_LAUNCH, []));
      var next := Advance(Plans.BuildPlan(), w, s);
      && SoundWorld(next, vouched + VouchedBy(w, s)) && IsOurs(next)
      && Holds(next.store[0], WaitingApproval, {ExternalApiSend}, {ExternalApiSend}, {BulkModify})
  {
    hide Plans.BuildPlan, SoundWorld, VouchedBy, UndecidedTypes, ApprovedTypes, RejectedTypes, OutcomeOn, Advance;
    RevisionWaits(w.store[0], w.next + 1);
    CallOnOurs(w, RevisionCall(0, Rebuilding, Nobody, "", GEMINI_LAUNCH, []), vouched);
  }

  lemma SixSteps(plan: seq<TaskShape>, w: World, s: seq<Step>)
    requires |s| == 6
    ensures Reached(plan, w, s) == Advance(plan, Advance(plan, Advance(plan, Advance(plan, Advance(plan, Advance(plan,
      w, s[0]), s[1]), s[2]), s[3]), s[4]), s[5])
  {
    hide Advance;
    assert s[..5][..4] == s[..4] && s[..4][..3] == s[..3] && s[..3][..2] == s[..2] && s[..2][..1] == s[..1];
    assert s[..1][..0] == [];
    assert Reached(plan, w, s[..1]) == Advance(plan, w, s[0]);
    assert Reached(plan, w, s[..2]) == Advance(plan, Reached(plan, w, s[..1]), s[1]);
    assert Reached(plan, w, s[..3]) == Advance(plan, Reached(plan, w, s[..2]), s[2]);
    assert Reached(plan, w, s[..4]) == Advance(plan, Reached(plan, w, s[..3]), s[3]);
    assert Reached(plan, w, s[..5]) == Advance(plan, Reached(plan, w, s[..4]), s[4]);
  }

  /** What is refused, together with what was approved before and is asked for again, cannot be decided by anyone. */
  lemma SplitStalls(v: Record)
    requires v.policy == SPLIT_POLICY
    requires Holds(v, WaitingApproval, {ExternalApiSend, BulkModify}, {ExternalApiSend}, {BulkModify})
    ensures Stalled(v)
  {
    hide TypesWith, Rules.Closed, Rules.Authorize;
    UndecidedExists(v.approvals);
    assert BulkModify in UndecidedTypes(v) * RejectedTypes(v);
    assert ExternalApiSend in FixedTypes(v) && BulkModify in FixedTypes(v);
    if Rejectable(v) {
      var actor, overrides :| AllowsAll(v, FixedTypes(v), actor, overrides);
      SplitDeniesBoth(actor, overrides);
    }
  }

  /** A project can be stalled although its policy gives every action to someone. */
  lemma OpenPolicyStalls()
    ensures var w := Reached(Plans.BuildPlan(), EMPTY, SplitSteps());
      && 0 in w.store && Stalled(w.store[0])
      && forall a :: !Rules.Closed(w.store[0].policy, a)
  {
    hide Plans.BuildPlan, Advance, SoundWorld, Holds, Stalled, Rules.Closed, VouchedBy, Reached;
    var plan, s := Plans.BuildPlan(), SplitSteps();
    SixSteps(plan, EMPTY, s);
    forall a
      ensures !Rules.Closed(SPLIT_POLICY, a)
    {
      SplitOpen(a);
    }
    RunsAreHistories(plan, []);
    Opened({});
    var w1, g1 := Advance(plan, EMPTY, s[0]), {} + VouchedBy(EMPTY, s[0]);
    FiledOnOurs(w1, g1, {}, {});
    var w2, g2 := Advance(plan, w1, s[1]), g1 + VouchedBy(w1, s[1]);
    ApprovedOnOurs(w2, g2);
    var w3, g3 := Advance(plan, w2, s[2]), g2 + VouchedBy(w2, s[2]);
    RefusedOnOurs(w3, g3);
    var w4, g4 := Advance(plan, w3, s[3]), g3 + VouchedBy(w3, s[3]);
    RevisedOnOurs(w4, g4);
    var w5, g5 := Advance(plan, w4, s[4]), g4 + VouchedBy(w4, s[4]);
    FiledOnOurs(w5, g5, {ExternalApiSend}, {BulkModify});
    SplitStalls(Advance(plan, w5, s[5]).store[0]);
  }
}
