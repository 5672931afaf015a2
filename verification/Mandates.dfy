/** Every decision of a history was made in a call whose actor the policy, with the override of that call,
    authorized. */
module Mandates {
  import opened Prelude
  import opened Domain
  import opened Workflow
  import opened Loops
  import opened Calls
  import opened Soundness
  import opened Histories
  import opened Retry
  import opened DeadEnds
  import opened Work
  import opened Authority
  import Rules = ApprovalRules
  import Text

  /** The approval carries the decision of the call, whose actor was authorized to make it. */
  predicate DecidedIn(c: Call, policy: ProjectPolicy, approval: Approval) {
    && (c.ApprovalCall? || c.RejectionCall?)
    && approval.status == (if c.ApprovalCall? then Approved else Rejected)
    && approval.requestedBy == CoerceActor(c.caller, Approver).id
    && Rules.Authorize(approval.action, CoerceActor(c.caller, Approver), policy, c.overrides).allowed
  }

  predicate SameAt(before: seq<Approval>, approval: Approval, i: nat) {
    i < |before| && before[i] == approval
  }

  /** Decided approvals are as before, or carry the decision of the call. */
  predicate Decides(c: Call, policy: ProjectPolicy, before: seq<Approval>, after: seq<Approval>) {
    forall i :: 0 <= i < |after| && after[i].status != Undecided ==>
      SameAt(before, after[i], i) || DecidedIn(c, policy, after[i])
  }

  lemma RequestDecides(c: Call, policy: ProjectPolicy, before: seq<Approval>, middle: seq<Approval>,
                       after: seq<Approval>)
    requires Decides(c, policy, before, middle) && AtMostOneRequest(middle, after)
    ensures Decides(c, policy, before, after)
  {
    hide DecidedIn;
    forall i | 0 <= i < |after| && after[i].status != Undecided
      ensures SameAt(before, after[i], i) || DecidedIn(c, policy, after[i])
    {
      assert i < |middle| && after[i] == middle[i];
    }
  }

  lemma NothingDecided(c: Call, policy: ProjectPolicy, approvals: seq<Approval>)
    ensures Decides(c, policy, approvals, approvals)
  {
  }

  /** An execution asks for at most one approval, and decides none. */
  lemma ExecuteRequests(v: Record, launch: Launch, approved: set<ActionType>, simulateFailure: bool, actor: Actor,
                        approvalId: nat)
    requires v.status == InProgress
    ensures var o := Execute(v, launch, approved, simulateFailure, actor, approvalId);
      o.saved.Some? ==> AtMostOneRequest(v.approvals, o.saved.value.approvals)
  {
    hide RunTasks, Pause, Finish, ResolveProvider;
    if ResolveProvider(launch).Some? {
      var provider := ResolveProvider(launch).value;
      RunTasksReach(v, 0, provider, approved, simulateFailure, actor, None);
      match RunTasks(v, 0, provider, approved, simulateFailure, actor, None)
      case PausedAt(w, i) => PauseRequests(w, i, actor, approvalId);
      case Finished(w, verdict) => FinishEffect(w, verdict, actor);
    }
  }

  lemma ApprovalDecides(v: Record, c: Call, requested: set<ActionType>, note: string, approvalId: nat)
    requires v.status == WaitingApproval && c.ApprovalCall?
    ensures var o := ResumeWaiting(v, requested, CoerceActor(c.caller, Approver), note, c.launch, c.overrides,
      approvalId);
      o.saved.Some? ==> Decides(c, v.policy, v.approvals, o.saved.value.approvals)
  {
    hide AuthorizeAll, ActionsInOrder, ApproveFrom, MoveTasks, Execute, TypesWith, Rules.Authorize, CoerceActor;
    hide AllowsAll;
    var actor := CoerceActor(c.caller, Approver);
    var p := requested - TypesWith(v.approvals, Approved);
    NothingDecided(c, v.policy, v.approvals);
    AuthorizesAll(v, p, actor, c.overrides);
    var r := AuthorizeAll(v, actor, ActionsInOrder(p), c.overrides);
    if r.denied.None? {
      ApproveFromEffect(r.record, 0, p, actor, note);
      var decided := ApproveFrom(r.record, 0, p, actor, note);
      AllowedDecides(v, c, p, decided.approvals, note);
      MoveTasksEffect(decided, 0, WaitingTasks, Pending, "", actor);
      var w := Transition(Released(decided, actor), InProgress, actor).value;
      ExecuteRequests(w, c.launch, TypesWith(v.approvals, Approved) + p, false, actor, approvalId);
      var o := Execute(w, c.launch, TypesWith(v.approvals, Approved) + p, false, actor, approvalId);
      if o.saved.Some? {
        RequestDecides(c, v.policy, v.approvals, decided.approvals, o.saved.value.approvals);
      }
    }
  }

  lemma AllowedDecides(v: Record, c: Call, p: set<ActionType>, after: seq<Approval>, note: string)
    requires c.ApprovalCall? && AllowsAll(v, p, CoerceActor(c.caller, Approver), c.overrides)
    requires ApprovesFrom(v.approvals, after, 0, p, CoerceActor(c.caller, Approver), note)
    ensures Decides(c, v.policy, v.approvals, after)
  {
    hide Rules.Authorize, CoerceActor;
  }

  lemma RejectionDecides(v: Record, c: Call, named: set<ActionType>, reason: string, note: string)
    requires v.status == WaitingApproval && c.RejectionCall?
    ensures var o := RejectWaiting(v, named, CoerceActor(c.caller, Approver), reason, note, c.overrides);
      o.saved.Some? ==> Decides(c, v.policy, v.approvals, o.saved.value.approvals)
  {
    hide AuthorizeAll, ActionsInOrder, RejectFrom, MoveTasks, TypesWith, Rules.Authorize, CoerceActor, AllowsAll;
    var actor := CoerceActor(c.caller, Approver);
    var undecided := TypesWith(v.approvals, Undecided);
    var wanted := if named == {} then undecided else named;
    NothingDecided(c, v.policy, v.approvals);
    AuthorizesAll(v, undecided, actor, c.overrides);
    var r := AuthorizeAll(v, actor, ActionsInOrder(undecided), c.overrides);
    if r.denied.None? {
      RejectFromEffect(r.record, 0, wanted, actor, reason, note);
      var decided := RejectFrom(r.record, 0, wanted, actor, reason, note);
      AllowedRefuses(v, c, decided.approvals, reason, note);
      MoveTasksEffect(decided, 0, WaitingTasks, NeedsRevision, reason, actor);
    }
  }

  lemma AllowedRefuses(v: Record, c: Call, after: seq<Approval>, reason: string, note: string)
    requires c.RejectionCall?
    requires AllowsAll(v, TypesWith(v.approvals, Undecided), CoerceActor(c.caller, Approver), c.overrides)
    requires RejectsFrom(v.approvals, after, 0, CoerceActor(c.caller, Approver), reason, note)
    ensures Decides(c, v.policy, v.approvals, after)
  {
    hide Rules.Authorize, CoerceActor, Compose;
    forall i | 0 <= i < |after| && after[i].status != Undecided
      ensures SameAt(v.approvals, after[i], i) || DecidedIn(c, v.policy, after[i])
    {
      if v.approvals[i].status == Undecided {
        assert v.approvals[i].action in TypesWith(v.approvals, Undecided);
      }
    }
  }

  /** Whatever a call decides, it decides by an actor who was authorized. */
  lemma CallDecides(v: Record, c: Call, approvalId: nat)
    requires !c.StartProject?
    ensures var o := OutcomeOn(v, c, approvalId);
      o.saved.Some? ==> Decides(c, v.policy, v.approvals, o.saved.value.approvals)
  {
    hide ResumeWaiting, RejectWaiting, ParseActions, Decides, MoveTasks, Execute, Text.Strip, ResetDepartments;
    NothingDecided(c, v.policy, v.approvals);
    match c
    case ApprovalCall(_, inputs, _, note, _, _) =>
      if v.status == WaitingApproval && ParseActions(inputs).Ok? {
        ApprovalDecides(v, c, ParseActions(inputs).value, Text.Strip(note), approvalId);
      }
    case RejectionCall(_, inputs, _, reason, note, _) =>
      if v.status == WaitingApproval && ParseActions(inputs).Ok? {
        RejectionDecides(v, c, ParseActions(inputs).value, Text.Strip(reason), Text.Strip(note));
      }
    case RevisionCall(_, mode, caller, reason, launch, inputs) =>
      if v.status == RevisionRequested {
        var actor := CoerceActor(caller, Operator);
        MoveTasksEffect(RecordEvent(v, ResumeTriggered(RevisionResume(mode)), actor), 0,
          InDepartments(ResetDepartments(mode)), Pending, Text.Strip(reason), actor);
        ResumptionDecides(v, c, ReviseTasks(v, mode, actor, Text.Strip(reason)), launch, inputs, actor, approvalId);
      }
    case ReplanningCall(_, caller, launch, inputs, reset) =>
      if v.status == ReadyForPlanning {
        var actor := CoerceActor(caller, Operator);
        MoveTasksEffect(v, 0, InDepartments(ResetDepartments(Replanning)), Pending, "", actor);
        ResumptionDecides(v, c, ReplanTasks(v, actor, reset), launch, inputs, actor, approvalId);
      }
    case SuccessCall(_, _) =>
    case FailureCall(_) =>
  }

  lemma ResumptionDecides(v: Record, c: Call, u: Record, launch: Launch, inputs: seq<ActionInput>, actor: Actor,
                          approvalId: nat)
    requires u.approvals == v.approvals && u.status in {RevisionRequested, ReadyForPlanning}
    ensures var w := Transition(u, InProgress, actor);
      w.Ok? && var o := ExecuteWith(w.value, launch, inputs, false, actor, approvalId);
      o.saved.Some? ==> Decides(c, v.policy, v.approvals, o.saved.value.approvals)
  {
    hide Execute, ParseActions, Decides;
    NothingDecided(c, v.policy, v.approvals);
    var w := Transition(u, InProgress, actor).value;
    if ParseActions(inputs).Ok? {
      ExecuteRequests(w, launch, ParseActions(inputs).value, false, actor, approvalId);
      var o := Execute(w, launch, ParseActions(inputs).value, false, actor, approvalId);
      if o.saved.Some? {
        RequestDecides(c, v.policy, v.approvals, v.approvals, o.saved.value.approvals);
      }
    }
  }

  lemma RunDecidesNothing(id: nat, policy: ProjectPolicy, plan: seq<TaskShape>, launch: Launch,
                          inputs: seq<ActionInput>,
                          simulateFailure: bool, approvalId: nat)
    ensures var o := Run(id, policy, plan, launch, inputs, simulateFailure, approvalId);
      o.saved.Some? ==> forall i :: 0 <= i < |o.saved.value.approvals| ==>
        o.saved.value.approvals[i].status == Undecided
  {
    hide Execute, ParseActions;
    if ParseActions(inputs).Ok? {
      ExecuteRequests(Launched(Drafted(id, policy, plan)).value, launch, ParseActions(inputs).value, simulateFailure,
        SYSTEM_ACTOR, approvalId);
    }
  }

  /******* Histories *******/

  /** The step is a call on the project that made the decision. */
  predicate MadeBy(s: Step, id: nat, policy: ProjectPolicy, approval: Approval) {
    s.Called? && !s.call.StartProject? && s.call.id == id && DecidedIn(s.call, policy, approval)
  }

  lemma StepMakes(plan: seq<TaskShape>, w: World, s: Step, vouched: set<nat>, id: nat, i: nat)
    requires OrderedPlan(plan) && SoundWorld(w, vouched) && id in Advance(plan, w, s).store
    requires var v := Advance(plan, w, s).store[id]; i < |v.approvals| && v.approvals[i].status != Undecided
    ensures var v := Advance(plan, w, s).store[id];
      || (id in w.store && SameAt(w.store[id].approvals, v.approvals[i], i) && w.store[id].policy == v.policy)
      || MadeBy(s, id, v.policy, v.approvals[i])
  {
    hide OrderedPlan, Sound, Gated, OutcomeOn, Run, PreApproves, DecidedIn;
    match s
    case Called(c) =>
      CallStep(plan, w, c, vouched);
      if OutcomeOf(plan, w, c).saved.Some? && Target(w, c) == id {
        if c.StartProject? {
          RunDecidesNothing(w.next, c.policy, plan, c.launch, c.inputs, c.simulateFailure, w.next + 1);
        } else {
          CallDecides(w.store[id], c, w.next + 1);
        }
      }
    case Filed(filed, action, requester) =>
      if filed in w.store {
        FileKeepsId(w.store[filed], w.next + 1, action, requester);
      }
  }

  /** Every decided approval of a history was decided at the start, or by some call on its project whose actor was
      authorized under the override of that very call. */
  lemma {:induction false} DecisionsMade(plan: seq<TaskShape>, start: World, steps: seq<Step>, vouched: set<nat>,
                                         id: nat,
                                         i: nat)
    requires OrderedPlan(plan) && SoundWorld(start, vouched) && id in Reached(plan, start, steps).store
    requires var v := Reached(plan, start, steps).store[id]; i < |v.approvals| && v.approvals[i].status != Undecided
    ensures var v := Reached(plan, start, steps).store[id];
      || (id in start.store && SameAt(start.store[id].approvals, v.approvals[i], i)
        && start.store[id].policy == v.policy)
      || exists k :: 0 <= k < |steps| && MadeBy(steps[k], id, v.policy, v.approvals[i])
  {
    hide OrderedPlan, SoundWorld, Advance, MadeBy;
    if steps != [] {
      var n := |steps| - 1;
      var before := Reached(plan, start, steps[..n]);
      ReachedSound(plan, start, steps[..n], vouched);
      StepMakes(plan, before, steps[n], Vouched(plan, start, steps[..n], vouched), id, i);
      var v := Reached(plan, start, steps).store[id];
      if !MadeBy(steps[n], id, v.policy, v.approvals[i]) {
        DecisionsMade(plan, start, steps[..n], vouched, id, i);
        if k :| 0 <= k < n && MadeBy(steps[..n][k], id, v.policy, v.approvals[i]) {
          assert steps[k] == steps[..n][k];
        }
      }
    }
  }

  /** The policy has a rule for the action that lists ids, and none of them is the given one. */
  predicate LeftOut(policy: ProjectPolicy, action: ActionType, id: string) {
    var rule: Option<PolicyRule> := Rules.Lookup(policy.actionRules, ActionValue(action));
    rule.Some? && rule.value.allowedActorIds != []
    && forall i :: 0 <= i < |rule.value.allowedActorIds| ==> Text.Strip(rule.value.allowedActorIds[i]) != Text.Strip(id)
  }

  /** The call's override lists the id for the action. */
  predicate NamedIn(overrides: RuntimeOverride, action: ActionType, id: string) {
    var given: Option<RuntimeIds> := Rules.Lookup(overrides, ActionValue(action));
    given.Some? && given.value.IdList?
    && exists i :: 0 <= i < |given.value.ids| && Text.Strip(given.value.ids[i]) == Text.Strip(id)
  }

  /** In a history that starts without the project,
    whoever decided without being on the list of the rule was named in the
      override of the call. */
  lemma OutsidersAreNamed(plan: seq<TaskShape>, start: World, steps: seq<Step>, vouched: set<nat>, id: nat, i: nat)
    requires OrderedPlan(plan) && SoundWorld(start, vouched) && id in Reached(plan, start, steps).store
    requires id !in start.store
    requires var v := Reached(plan, start, steps).store[id]; i < |v.approvals| && v.approvals[i].status != Undecided
    requires var v := Reached(plan, start, steps).store[id];
      LeftOut(v.policy, v.approvals[i].action, v.approvals[i].requestedBy)
    ensures var approval := Reached(plan, start, steps).store[id].approvals[i];
      exists k :: 0 <= k < |steps| && steps[k].Called? && (steps[k].call.ApprovalCall? || steps[k].call.RejectionCall?)
        && steps[k].call.id == id && NamedIn(steps[k].call.overrides, approval.action, approval.requestedBy)
  {
    hide OrderedPlan, SoundWorld, Reached, Rules.Authorize, Rules.Lookup, CoerceActor, Text.Strip;
    DecisionsMade(plan, start, steps, vouched, id, i);
    var v := Reached(plan, start, steps).store[id];
    var k :| 0 <= k < |steps| && MadeBy(steps[k], id, v.policy, v.approvals[i]);
    AuthorizeExactly(v.approvals[i].action, CoerceActor(steps[k].call.caller, Approver), v.policy,
      steps[k].call.overrides);
  }
}
