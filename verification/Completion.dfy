/** Which projects can still be completed, and what failing calls leave behind. */
module Completion {
  import opened Prelude
  import opened Domain
  import opened Workflow
  import opened Loops
  import opened Calls
  import opened Coupling
  import opened Operations
  import opened Runs
  import Rules = ApprovalRules
  import Text

  /******* Atomic failure *******/

  /** A raising operation saves nothing, except that a denied authorization is logged. */
  predicate FailsAtomically(v: Record, o: Outcome) {
    o.answer.Raised? ==>
      if o.answer.error.PermissionDenied?
      then
        && o.saved.Some? && OnlyAuthorizes(v, o.saved.value)
        && |o.saved.value.events| > |v.events|
        && o.saved.value.events[|o.saved.value.events| - 1].kind == AuthorizationFailed(o.answer.error.action)
      else o.saved.None?
  }

  lemma ExecuteFailsAtomically(v: Record, u: Record, launch: Launch, inputs: seq<ActionInput>,
                               approved: set<ActionType>, simulateFailure: bool, actor: Actor, approvalId: nat)
    ensures FailsAtomically(v, Execute(u, launch, approved, simulateFailure, actor, approvalId))
    ensures FailsAtomically(v, ExecuteWith(u, launch, inputs, simulateFailure, actor, approvalId))
  {
    hide RunTasks, ResolveProvider, Upsert, SetTaskStatus, OnlyAuthorizes, TypesWith, ParseActions;
  }

  lemma ResumeWaitingFailsAtomically(v: Record, requested: set<ActionType>, actor: Actor, note: string, launch: Launch,
                                     overrides: RuntimeOverride, approvalId: nat)
    ensures FailsAtomically(v, ResumeWaiting(v, requested, actor, note, launch, overrides, approvalId))
  {
    hide Execute, AuthorizeAll, ApproveFrom, Released;
    var actions := ActionsInOrder(requested - TypesWith(v.approvals, Approved));
    AuthorizeAllEffect(v, actor, actions, overrides);
    var decided := ApproveFrom(AuthorizeAll(v, actor, actions, overrides).record, 0,
      requested - TypesWith(v.approvals, Approved), actor, note);
    var resumed := Transition(Released(decided, actor), InProgress, actor);
    if resumed.Ok? {
      ExecuteFailsAtomically(v, resumed.value, launch, [],
        TypesWith(v.approvals, Approved) + (requested - TypesWith(v.approvals, Approved)), false, actor, approvalId);
    }
  }

  lemma RejectWaitingFailsAtomically(v: Record, named: set<ActionType>, actor: Actor, reason: string, note: string,
                                     overrides: RuntimeOverride)
    ensures FailsAtomically(v, RejectWaiting(v, named, actor, reason, note, overrides))
  {
    hide AuthorizeAll, RejectFrom, MoveTasks;
    AuthorizeAllEffect(v, actor, ActionsInOrder(TypesWith(v.approvals, Undecided)), overrides);
  }

  lemma CallFailsAtomically(v: Record, c: Call, approvalId: nat)
    requires !c.StartProject?
    ensures FailsAtomically(v, OutcomeOn(v, c, approvalId))
  {
    hide ResumeWaiting, RejectWaiting, ExecuteWith, ParseActions, OnlyAuthorizes, ReviseTasks, ReplanTasks;
    hide TypesWith, KnownTypes, HasUndecided, Text.Strip;
    match c
    case ApprovalCall(_, inputs, caller, note, launch, overrides) =>
      if ParseActions(inputs).Ok? {
        ResumeWaitingFailsAtomically(v, ParseActions(inputs).value, CoerceActor(caller, Approver), Text.Strip(note),
          launch, overrides, approvalId);
      }
    case RejectionCall(_, inputs, caller, reason, note, overrides) =>
      if ParseActions(inputs).Ok? {
        RejectWaitingFailsAtomically(v, ParseActions(inputs).value, CoerceActor(caller, Approver), Text.Strip(reason),
          Text.Strip(note), overrides);
      }
    case RevisionCall(_, mode, caller, reason, launch, inputs) =>
      var actor := CoerceActor(caller, Operator);
      var resumed := Transition(ReviseTasks(v, mode, actor, Text.Strip(reason)), InProgress, actor);
      if resumed.Ok? {
        ExecuteFailsAtomically(v, resumed.value, launch, inputs, {}, false, actor, approvalId);
      }
    case ReplanningCall(_, caller, launch, inputs, reset) =>
      var actor := CoerceActor(caller, Operator);
      var resumed := Transition(ReplanTasks(v, actor, reset), InProgress, actor);
      if resumed.Ok? {
        ExecuteFailsAtomically(v, resumed.value, launch, inputs, {}, false, actor, approvalId);
      }
    case SuccessCall(_, _) =>
    case FailureCall(_) =>
  }

  /** Whatever is stored, a call that raises leaves it unchanged, but for the log of a denied authorization. */
  lemma FailuresAreAtomic(plan: seq<TaskShape>, w: World, c: Call)
    requires forall id :: id in w.store ==> w.store[id].id == id
    requires OutcomeOf(plan, w, c).answer.Raised?
    ensures var o := OutcomeOf(plan, w, c); var after := Apply(plan, w, c).store;
      if o.answer.error.PermissionDenied?
      then
        && !c.StartProject? && c.id in w.store && c.id in after
        && after == w.store[c.id := after[c.id]]
        && FailsAtomically(w.store[c.id], Outcome(Some(after[c.id]), o.answer))
      else after == w.store
  {
    hide OutcomeOn, Execute, ParseActions;
    if c.StartProject? {
      var launched := Launched(Drafted(w.next, c.policy, plan));
      if ParseActions(c.inputs).Ok? && launched.Ok? {
        ExecuteFailsAtomically(launched.value, launched.value, c.launch, [], ParseActions(c.inputs).value,
          c.simulateFailure, SYSTEM_ACTOR, w.next + 1);
        StartNeverDenied(launched.value, c.launch, ParseActions(c.inputs).value, c.simulateFailure, w.next + 1);
      }
    } else if c.id in w.store {
      CallFailsAtomically(w.store[c.id], c, w.next + 1);
    }
  }

  lemma StartNeverDenied(v: Record, launch: Launch, approved: set<ActionType>, simulateFailure: bool, approvalId: nat)
    ensures var o := Execute(v, launch, approved, simulateFailure, SYSTEM_ACTOR, approvalId);
      o.answer.Raised? ==> !o.answer.error.PermissionDenied?
  {
    hide RunTasks, ResolveProvider, Upsert, SetTaskStatus;
  }

  /******* The strict trap *******/

  /** The project waits for an approval that the policy gives to nobody. */
  predicate Trapped(v: Record) {
    v.status == WaitingApproval && Rules.Closed(v.policy, ExternalApiSend)
  }

  predicate OnlyLogged(v: Record, w: Record) {
    w == v.(events := w.events) && v.events <= w.events
  }

  lemma TrappedCallOnlyLogs(v: Record, c: Call, approvalId: nat)
    requires Stored(v) && Trapped(v) && !c.StartProject?
    ensures var o := OutcomeOn(v, c, approvalId); o.saved.Some? ==> OnlyLogged(v, o.saved.value)
  {
    hide Stored, ResumeWaiting, RejectWaiting, ParseActions, Rules.Authorize, Rules.Closed, ValidateRequest;
    match c
    case ApprovalCall(_, inputs, caller, note, launch, overrides) =>
      var actor := CoerceActor(caller, Approver);
      Rules.ClosedDenies(v.policy, ExternalApiSend, actor, overrides);
      if ParseActions(inputs).Ok? && ParseActions(inputs).value != {}
        && ValidateRequest(ParseActions(inputs).value, v.approvals).None? {
        ValidRequest(v, ParseActions(inputs).value);
        ResumeWaitingKeeps(v, actor, Text.Strip(note), launch, overrides, approvalId);
      }
    case RejectionCall(_, inputs, caller, reason, note, overrides) =>
      var actor := CoerceActor(caller, Approver);
      Rules.ClosedDenies(v.policy, ExternalApiSend, actor, overrides);
      if ParseActions(inputs).Ok? {
        RejectWaitingKeeps(v, ParseActions(inputs).value, actor, Text.Strip(reason), Text.Strip(note), overrides);
      }
    case _ =>
  }

  /** A trapped project stays waiting under every later sequence of calls; only its log grows. */
  lemma {:induction false} TrapIsForever(plan: seq<TaskShape>, calls: seq<Call>, more: seq<Call>, id: nat)
    requires GoodPlan(plan) && Has(plan, calls, id) && Trapped(Project(plan, calls, id))
    ensures Has(plan, calls + more, id) && OnlyLogged(Project(plan, calls, id), Project(plan, calls + more, id))
  {
    hide GoodPlan, After, OutcomeOn, Rules.Closed;
    if more == [] {
      assert calls + more == calls;
    } else {
      var n := |more| - 1;
      TrapIsForever(plan, calls, more[..n], id);
      assert calls + more == (calls + more[..n]) + [more[n]];
      TrappedStep(plan, calls + more[..n], more[n], id);
    }
  }

  lemma TrappedStep(plan: seq<TaskShape>, calls: seq<Call>, c: Call, id: nat)
    requires GoodPlan(plan) && Has(plan, calls, id) && Trapped(Project(plan, calls, id))
    ensures Has(plan, calls + [c], id) && OnlyLogged(Project(plan, calls, id), Project(plan, calls + [c], id))
  {
    hide GoodPlan, RecordOk, Stored, OutcomeOn, Run, Trapped, After, OnlyLogged;
    GoodPlanOrdered(plan);
    StepEffect(plan, calls, c);
    ProjectOk(plan, calls, id);
    var v := Project(plan, calls, id);
    StoredFromOk(plan, id, v);
    assert OnlyLogged(v, v) by {
      LoggedReflexive(v);
    }
    var w := After(plan, calls);
    if OutcomeOf(plan, w, c).saved.Some? && Target(w, c) == id {
      TrappedCallOnlyLogs(v, c, w.next + 1);
    }
  }

  lemma LoggedReflexive(v: Record)
    ensures OnlyLogged(v, v)
  {
  }

  lemma StoredFromOk(plan: seq<TaskShape>, id: nat, v: Record)
    requires RecordOk(plan, id, v)
    ensures Stored(v) && v.id == id && Shape(v.tasks) == plan
  {
    hide Stored;
  }

  /******* No dead ends *******/

  const MOCK_LAUNCH := Launch("mock", true)

  lemma MockResolves(strict: bool)
    ensures ResolveProvider(Launch("mock", strict)) == Some(Mock)
  {
  }

  lemma CallTakesEffect(plan: seq<TaskShape>, calls: seq<Call>, c: Call)
    requires GoodPlan(plan) && !c.StartProject? && Has(plan, calls, c.id)
    requires OutcomeOn(Project(plan, calls, c.id), c, After(plan, calls).next + 1).saved.Some?
    ensures Has(plan, calls + [c], c.id)
    ensures Project(plan, calls + [c], c.id) == OutcomeOn(Project(plan, calls, c.id), c, After(plan,
      calls).next + 1).saved.value
  {
    hide GoodPlan, OutcomeOn, After;
    GoodPlanOrdered(plan);
    StepEffect(plan, calls, c);
  }

  lemma NothingParsed()
    ensures ParseActions([]) == Ok({})
  {
    var r := ParseActions([]);
    forall a
      ensures a !in r.value
    {
    }
    assert r.value == {};
  }

  /** From revision and from planning one call with the mock provider completes the project. */
  lemma OpenCompletes(plan: seq<TaskShape>, calls: seq<Call>, id: nat) returns (c: Call)
    requires GoodPlan(plan) && Has(plan, calls, id)
    requires Project(plan, calls, id).status in {RevisionRequested, ReadyForPlanning}
    ensures Has(plan, calls + [c], id) && Project(plan, calls + [c], id).status == Completed
  {
    hide GoodPlan, RecordOk, Stored, ResumeFromRevision, StartReplanning, ResolveProvider;
    ProjectOk(plan, calls, id);
    var v := Project(plan, calls, id);
    StoredFromOk(plan, id, v);
    MockResolves(true);
    NothingParsed();
    if v.status == RevisionRequested {
      c := RevisionCall(id, Rereview, Nobody, "", MOCK_LAUNCH, []);
      ResumeFromRevisionKeeps(v, Rereview, Nobody, "", MOCK_LAUNCH, [], After(plan, calls).next + 1);
    } else {
      c := ReplanningCall(id, Nobody, MOCK_LAUNCH, [], true);
      StartReplanningKeeps(v, Nobody, MOCK_LAUNCH, [], true, After(plan, calls).next + 1);
    }
    CallTakesEffect(plan, calls, c);
  }

  /** Once a request for the external action was rejected, whoever is authorized can send a waiting project
      to revision. */
  lemma RejectionProceeds(plan: seq<TaskShape>, calls: seq<Call>, id: nat, actor: Actor, reason: string,
                          overrides: RuntimeOverride) returns (c: Call)
    requires GoodPlan(plan) && Has(plan, calls, id) && Text.Strip(reason) == reason != ""
    requires Project(plan, calls, id).status == WaitingApproval
    requires Rules.Authorize(ExternalApiSend, actor, Project(plan, calls, id).policy, overrides).allowed
    requires ExternalApiSend in TypesWith(Project(plan, calls, id).approvals, Rejected)
    ensures Has(plan, calls + [c], id) && Project(plan, calls + [c], id).status == RevisionRequested
  {
    hide GoodPlan, RecordOk, Stored, Keeps, OnlyAuthorizes, KnownTypes, RejectWaiting, Rules.Authorize, Text.Strip;
    ProjectOk(plan, calls, id);
    var v := Project(plan, calls, id);
    StoredFromOk(plan, id, v);
    WaitingTypes(v);
    Text.PlainStays("");
    NothingParsed();
    c := RejectionCall(id, [], Known(actor), reason, "", overrides);
    RejectWaitingKeeps(v, {}, actor, reason, "", overrides);
    assert OutcomeOn(v, c, After(plan, calls).next + 1) == RejectWaiting(v, {}, actor, reason, "", overrides);
    CallTakesEffect(plan, calls, c);
  }

  /** Until then whoever is authorized can approve, and the mock provider completes the project. */
  lemma ApprovalProceeds(plan: seq<TaskShape>, calls: seq<Call>, id: nat, actor: Actor,
                         overrides: RuntimeOverride) returns (c: Call)
    requires GoodPlan(plan) && Has(plan, calls, id)
    requires Project(plan, calls, id).status == WaitingApproval
    requires Rules.Authorize(ExternalApiSend, actor, Project(plan, calls, id).policy, overrides).allowed
    requires ExternalApiSend !in TypesWith(Project(plan, calls, id).approvals, Rejected)
    ensures Has(plan, calls + [c], id) && Project(plan, calls + [c], id).status == Completed
  {
    hide GoodPlan, RecordOk, Stored, Keeps, OnlyAuthorizes, ResumeWaiting, Rules.Authorize, ResolveProvider;
    ProjectOk(plan, calls, id);
    var v := Project(plan, calls, id);
    var approvalId := After(plan, calls).next + 1;
    StoredFromOk(plan, id, v);
    MockResolves(true);
    WaitingTypes(v);
    Text.StripTrims("");
    var inputs := [Typed(ExternalApiSend)];
    ExternalParsed(inputs);
    c := ApprovalCall(id, inputs, Known(actor), "", MOCK_LAUNCH, overrides);
    ResumeWaitingKeeps(v, actor, "", MOCK_LAUNCH, overrides, approvalId);
    assert {ExternalApiSend} * TypesWith(v.approvals, Rejected) == {};
    assert ValidateRequest({ExternalApiSend}, v.approvals).None?;
    assert OutcomeOn(v, c, approvalId) == ResumeWaiting(v, {ExternalApiSend}, actor, "", MOCK_LAUNCH, overrides,
      approvalId);
    CallTakesEffect(plan, calls, c);
  }

  /** A waiting project that the policy does not lock is approved, or, once a request was rejected, sent to revision. */
  lemma WaitingProceeds(plan: seq<TaskShape>, calls: seq<Call>, id: nat) returns (c: Call)
    requires GoodPlan(plan) && Has(plan, calls, id)
    requires Project(plan, calls, id).status == WaitingApproval
    requires !Rules.Closed(Project(plan, calls, id).policy, ExternalApiSend)
    ensures Has(plan, calls + [c], id) && Project(plan, calls + [c], id).status in {Completed, RevisionRequested}
  {
    hide GoodPlan, After, TypesWith, Rules.Authorize, Rules.Closed;
    var v := Project(plan, calls, id);
    Rules.ClosedExactly(v.policy, ExternalApiSend);
    var actor, overrides :| Rules.Authorize(ExternalApiSend, actor, v.policy, overrides).allowed;
    if ExternalApiSend in TypesWith(v.approvals, Rejected) {
      Text.PlainStays("withdrawn");
      c := RejectionProceeds(plan, calls, id, actor, "withdrawn", overrides);
    } else {
      c := ApprovalProceeds(plan, calls, id, actor, overrides);
    }
  }

  lemma ExternalParsed(inputs: seq<ActionInput>)
    requires inputs == [Typed(ExternalApiSend)]
    ensures ParseActions(inputs) == Ok({ExternalApiSend})
  {
    assert inputs[0] in inputs;
    assert ParsedAction(inputs[0]) == Some(ExternalApiSend);
    var parsed := set input | input in inputs :: ParsedAction(input).value;
    assert ParsedAction(inputs[0]).value in parsed;
    assert parsed == {ExternalApiSend};
  }

  /** The project is completed after `more` calls. */
  predicate CompletedBy(plan: seq<TaskShape>, calls: seq<Call>, more: seq<Call>, id: nat) {
    Has(plan, calls + more, id) && Project(plan, calls + more, id).status == Completed
  }

  lemma TwoCallsComplete(plan: seq<TaskShape>, calls: seq<Call>, id: nat) returns (more: seq<Call>)
    requires GoodPlan(plan) && Has(plan, calls, id) && !Trapped(Project(plan, calls, id))
    ensures |more| <= 2 && CompletedBy(plan, calls, more, id)
  {
    hide GoodPlan, RecordOk, Rules.Closed, After;
    StatusTasksAndApprovalsAgree(plan, calls, id);
    var v := Project(plan, calls, id);
    if v.status == Completed {
      more := [];
      assert calls + more == calls;
    } else if v.status == WaitingApproval {
      var c := WaitingProceeds(plan, calls, id);
      more := [c];
      if Project(plan, calls + [c], id).status == RevisionRequested {
        var d := OpenCompletes(plan, calls + [c], id);
        more := [c, d];
        assert calls + [c] + [d] == calls + more;
      }
    } else {
      var c := OpenCompletes(plan, calls, id);
      more := [c];
    }
  }

  /** A project can still be completed exactly when it is not trapped, and then at most two calls do it. */
  lemma CompletableExactly(plan: seq<TaskShape>, calls: seq<Call>, id: nat)
    requires GoodPlan(plan) && Has(plan, calls, id)
    ensures (exists more :: CompletedBy(plan, calls, more, id)) <==> !Trapped(Project(plan, calls, id))
    ensures !Trapped(Project(plan, calls, id)) ==> exists more :: |more| <= 2 && CompletedBy(plan, calls, more, id)
  {
    hide GoodPlan, Trapped, After;
    if Trapped(Project(plan, calls, id)) {
      forall more
        ensures !CompletedBy(plan, calls, more, id)
      {
        TrapIsForever(plan, calls, more, id);
        TrappedWaits(Project(plan, calls, id));
      }
    } else {
      var more := TwoCallsComplete(plan, calls, id);
    }
  }

  lemma TrappedWaits(v: Record)
    requires Trapped(v)
    ensures v.status == WaitingApproval
  {
  }
}
