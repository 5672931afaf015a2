/** Every operation keeps the coupling of the records that the orchestrator creates. */
module Operations {
  import opened Prelude
  import opened Domain
  import opened Workflow
  import opened Loops
  import opened Soundness
  import opened Coupling
  import opened Execution
  import Rules = ApprovalRules
  import Text

  /** The operation leaves a stored record behind. */
  predicate Keeps(o: Outcome) {
    o.saved.Some? ==> Stored(o.saved.value)
  }

  /** Execution completes if it may start at all and no approval can be missing. */
  predicate CompletesWith(launch: Launch, approved: set<ActionType>) {
    && ResolveProvider(launch).Some?
    && (ResolveProvider(launch).value == Mock || ExternalApiSend in approved)
  }

  predicate CompletesIn(o: Outcome) {
    o.saved.Some? && o.saved.value.status == Completed && o.answer == Summary(o.saved.value)
  }

  /******* run *******/

  /** A new project may execute. */
  lemma LaunchedMayExecute(id: nat, policy: ProjectPolicy, plan: seq<TaskShape>, approved: set<ActionType>,
                           simulateFailure: bool)
    requires GoodPlan(plan)
    ensures Launched(Drafted(id, policy, plan)).Ok?
    ensures var w := Launched(Drafted(id, policy, plan)).value;
      Steady(w) && MayExecute(w, approved, simulateFailure) && w.approvals == []
  {
    hide OrderedPlan;
  }

  lemma RunKeeps(id: nat, policy: ProjectPolicy, plan: seq<TaskShape>, launch: Launch, inputs: seq<ActionInput>,
                 simulateFailure: bool, approvalId: nat)
    requires GoodPlan(plan)
    ensures Keeps(Run(id, policy, plan, launch, inputs, simulateFailure, approvalId))
  {
    hide Stored, Steady, MayExecute, Execute, ParseActions, ResolveProvider, Launched;
    if ParseActions(inputs).Ok? {
      var approved := ParseActions(inputs).value;
      LaunchedMayExecute(id, policy, plan, approved, simulateFailure);
      var w := Launched(Drafted(id, policy, plan)).value;
      ExecuteKeeps(w, launch, approved, simulateFailure, SYSTEM_ACTOR, approvalId);
    }
  }

  /******* Logging only *******/

  /** A stored record stays stored when only its log grows. */
  lemma LogKeeps(v: Record, w: Record)
    requires Stored(v) && w == v.(events := w.events)
    ensures Stored(w)
  {
    hide GoodPlan;
  }

  /******* resume_from_approval *******/

  /** A waiting record has one request, for the external action, and no approval. */
  lemma WaitingTypes(v: Record)
    requires Stored(v) && v.status == WaitingApproval
    ensures KnownTypes(v.approvals) == {ExternalApiSend}
    ensures TypesWith(v.approvals, Undecided) == {ExternalApiSend}
    ensures TypesWith(v.approvals, Approved) == {}
    ensures HasUndecided(v.approvals)
  {
    hide GoodPlan, HasOutput;
    var last := v.approvals[|v.approvals| - 1];
    assert last in v.approvals && last.action == ExternalApiSend && last.status == Undecided;
    forall a | a in v.approvals
      ensures a.action == ExternalApiSend && a.status != Approved
    {
      var k :| 0 <= k < |v.approvals| && v.approvals[k] == a;
    }
  }

  /** The tasks that waited become open again; nothing that was done is touched. */
  lemma ReopenSteady(v: Record, next: TaskStatus, note: string, actor: Actor)
    requires Steady(v) && next in {Pending, NeedsRevision}
    requires forall k :: 0 <= k < |v.tasks| ==> AtRest(v.tasks[k].status) || v.tasks[k].status == Waiting
    ensures var w := MoveTasks(v, 0, WaitingTasks, next, note, actor);
      && Steady(w)
      && w == v.(tasks := w.tasks, events := w.events)
      && (forall k :: 0 <= k < |w.tasks| ==> AtRest(w.tasks[k].status))
      && (LastOpen(v.tasks) ==> LastOpen(w.tasks))
  {
    hide GoodPlan, MoveTasks;
    MoveTasksEffect(v, 0, WaitingTasks, next, note, actor);
    var w := MoveTasks(v, 0, WaitingTasks, next, note, actor);
    assert Shape(w.tasks) == Shape(v.tasks);
    forall k | 0 <= k < |w.tasks| && w.tasks[k].status == Done && w.tasks[k].department != Review
      ensures w.artifacts != []
    {
      assert v.tasks[k].status == Done && v.tasks[k].department != Review;
    }
  }

  lemma SteadyExceptWork(v: Record, w: Record)
    requires Steady(v) && SameWork(v, w) && OnlyExternal(w.approvals)
    ensures Steady(w)
  {
    hide GoodPlan;
  }

  lemma StillDeliveryFree(v: Record, w: Record)
    requires !HasDelivery(v) && w.id == v.id && SameCheckpointIds(v, w)
    ensures !HasDelivery(w)
  {
  }

  lemma UpdateNotes(v: Record, approved: bool, approver: string, note: string, before: bool)
    requires Note(v.checkpoints, v.id, before)
    ensures Note(UpdateApprovalCheckpoint(v, approved, approver, note).checkpoints, v.id, approved)
  {
    var k :| 0 <= k < |v.checkpoints| && NoteAt(v.checkpoints, v.id, before, k);
    assert IndexOf(v.checkpoints, CheckpointKey, ApprovalOf(v.id)) == k;
    assert NoteAt(UpdateApprovalCheckpoint(v, approved, approver, note).checkpoints, v.id, approved, k);
  }

  predicate ApprovesSome(approvals: seq<Approval>, i: nat, actions: set<ActionType>) {
    exists k :: i <= k < |approvals| && approvals[k].status == Undecided && approvals[k].action in actions
  }

  lemma {:induction false} ApproveFromNotes(v: Record, i: nat, actions: set<ActionType>, actor: Actor, note: string,
                                            before: bool)
    requires i <= |v.approvals| && Note(v.checkpoints, v.id, before)
    ensures Note(ApproveFrom(v, i, actions, actor, note).checkpoints, v.id,
      before || ApprovesSome(v.approvals, i, actions))
    decreases |v.approvals| - i
  {
    hide Note, UpdateApprovalCheckpoint;
    if i < |v.approvals| {
      var approval := v.approvals[i];
      if approval.status == Undecided && approval.action in actions {
        var text := if note != "" then note else DEFAULT_APPROVAL_NOTE;
        var noted := UpdateApprovalCheckpoint(v, true, actor.id, text);
        UpdateNotes(v, true, actor.id, text, before);
        UpdateEffect(v, true, actor.id, text);
        var decided := Decide(noted, i, ApprovedAs(approval, actor, note), ApprovalApproved(approval.action), actor);
        ApproveFromNotes(decided, i + 1, actions, actor, note, true);
      } else {
        ApproveFromNotes(v, i + 1, actions, actor, note, before);
        assert ApprovesSome(v.approvals, i, actions) == ApprovesSome(v.approvals, i + 1, actions);
      }
    }
  }

  lemma {:induction false} RejectFromNotes(v: Record, i: nat, named: set<ActionType>, actor: Actor, reason: string,
                                           note: string)
    requires i <= |v.approvals| && Note(v.checkpoints, v.id, false)
    ensures Note(RejectFrom(v, i, named, actor, reason, note).checkpoints, v.id, false)
    decreases |v.approvals| - i
  {
    hide Note, UpdateApprovalCheckpoint;
    if i < |v.approvals| {
      var approval := v.approvals[i];
      if approval.status == Undecided {
        var decided := Decide(v, i, RejectedAs(approval, actor, reason, note),
          ApprovalRejected(approval.action, approval.action !in named), actor);
        UpdateNotes(decided, false, actor.id, Compose(reason, note), false);
        UpdateEffect(decided, false, actor.id, Compose(reason, note));
        RejectFromNotes(UpdateApprovalCheckpoint(decided, false, actor.id, Compose(reason, note)), i + 1, named, actor,
          reason, note);
      } else {
        RejectFromNotes(v, i + 1, named, actor, reason, note);
      }
    }
  }

  /** Approving the waiting request. */
  lemma ApprovedRecord(v: Record, authorized: Record, actor: Actor, note: string)
    requires Stored(v) && v.status == WaitingApproval && authorized == v.(events := authorized.events)
    ensures var w := ApproveFrom(authorized, 0, {ExternalApiSend}, actor, note);
      && Steady(w) && SameWork(v, w) && !HasDelivery(w)
      && AllDecided(w.approvals) && HasApproved(w.approvals) && Noted(w.checkpoints, w.id, w.approvals)
  {
    hide GoodPlan, HasOutput, Note, ApproveFrom;
    ApproveFromEffect(authorized, 0, {ExternalApiSend}, actor, note);
    var w := ApproveFrom(authorized, 0, {ExternalApiSend}, actor, note);
    SteadyExceptWork(v, w);
    StillDeliveryFree(authorized, w);
    var last := |v.approvals| - 1;
    assert w.approvals[last].status == Approved;
    assert authorized.approvals[last].status == Undecided && authorized.approvals[last].action in {ExternalApiSend};
    ApproveFromNotes(authorized, 0, {ExternalApiSend}, actor, note, false);
    forall k | 0 <= k < |w.approvals|
      ensures w.approvals[k].status != Undecided
    {
      if k < last {
        assert v.approvals[..last][k].status != Undecided;
      }
    }
  }

  lemma ReleasedMayExecute(v: Record, actor: Actor)
    requires Steady(v) && v.status == WaitingApproval && LastOpen(v.tasks) && !HasDelivery(v)
    requires forall k :: 0 <= k < |v.tasks| ==> AtRest(v.tasks[k].status) || v.tasks[k].status == Waiting
    requires AllDecided(v.approvals) && HasApproved(v.approvals) && Noted(v.checkpoints, v.id, v.approvals)
    ensures Transition(Released(v, actor), InProgress, actor).Ok?
    ensures var w := Transition(Released(v, actor), InProgress, actor).value;
      Steady(w) && MayExecute(w, {ExternalApiSend}, false)
  {
    hide GoodPlan, MoveTasks, Noted;
    ReopenSteady(v, Pending, "", actor);
    var w := Transition(Released(v, actor), InProgress, actor).value;
    assert HasApproved(w.approvals);
  }

  /** The part of a resumption that follows the authorization. */
  lemma AuthorizedResumeKeeps(v: Record, authorized: Record, actor: Actor, note: string, launch: Launch,
                              approvalId: nat)
    requires Stored(v) && v.status == WaitingApproval && authorized == v.(events := authorized.events)
    ensures var resumed := Transition(Released(ApproveFrom(authorized, 0, {ExternalApiSend}, actor, note), actor),
      InProgress, actor);
      && resumed.Ok?
      && var o := Execute(resumed.value, launch, {ExternalApiSend}, false, actor, approvalId);
         Keeps(o) && if ResolveProvider(launch).Some? then CompletesIn(o) else o == Raise(UnsupportedProvider)
  {
    hide GoodPlan, HasOutput, OnlyExternal, ApproveFrom, Execute, ResolveProvider, HasApproved, MayExecute, Released;
    hide Transition, Noted;
    ApprovedRecord(v, authorized, actor, note);
    var decided := ApproveFrom(authorized, 0, {ExternalApiSend}, actor, note);
    ReleasedMayExecute(decided, actor);
    ExecuteKeeps(Transition(Released(decided, actor), InProgress, actor).value, launch, {ExternalApiSend}, false, actor,
      approvalId);
  }

  /** Authorizing the external action alone logs a grant, or the denial that the operation reports. */
  lemma AuthorizeExternal(v: Record, actor: Actor, overrides: RuntimeOverride)
    ensures var r := AuthorizeAll(v, actor, ActionsInOrder({ExternalApiSend}), overrides);
      && OnlyAuthorizes(v, r.record)
      && (if Rules.Authorize(ExternalApiSend, actor, v.policy, overrides).allowed then r.denied.None?
          else r.denied == Some(ExternalApiSend))
  {
    hide Rules.Authorize, AuthorizeAll, ActionsInOrder, OnlyAuthorizes;
    var actions := ActionsInOrder({ExternalApiSend});
    InOrderExact({ExternalApiSend});
    AuthorizeAllEffect(v, actor, actions, overrides);
    var r := AuthorizeAll(v, actor, actions, overrides);
    if r.denied.Some? {
      var k: nat :| StopsAt(v, r, actor, actions, overrides, k);
      assert actions[k] in actions;
    } else {
      assert ExternalApiSend in actions;
    }
  }

  lemma OnlyLogs(v: Record, w: Record)
    requires OnlyAuthorizes(v, w)
    ensures w == v.(events := w.events)
  {
  }

  lemma ResumeWaitingKeeps(v: Record, actor: Actor, note: string, launch: Launch, overrides: RuntimeOverride,
                           approvalId: nat)
    requires Stored(v) && v.status == WaitingApproval
    ensures var o := ResumeWaiting(v, {ExternalApiSend}, actor, note, launch, overrides, approvalId);
      && Keeps(o)
      && (if Rules.Authorize(ExternalApiSend, actor, v.policy, overrides).allowed
          then if ResolveProvider(launch).Some? then CompletesIn(o) else o == Raise(UnsupportedProvider)
          else
            && o.saved.Some? && OnlyAuthorizes(v, o.saved.value)
            && o.answer == Raised(PermissionDenied(ExternalApiSend)))
  {
    hide AuthorizeAll, ActionsInOrder, ApproveFrom, Execute, Rules.Authorize, ResolveProvider, Stored, TypesWith;
    hide KnownTypes;
    hide Released, Transition, OnlyAuthorizes;
    WaitingTypes(v);
    assert {ExternalApiSend} - TypesWith(v.approvals, Approved) == {ExternalApiSend};
    assert TypesWith(v.approvals, Approved) + {ExternalApiSend} == {ExternalApiSend};
    AuthorizeExternal(v, actor, overrides);
    var r := AuthorizeAll(v, actor, ActionsInOrder({ExternalApiSend}), overrides);
    OnlyLogs(v, r.record);
    LogKeeps(v, r.record);
    AuthorizedResumeKeeps(v, r.record, actor, note, launch, approvalId);
  }

  /** A valid request on a waiting record names the external action, and nothing else. */
  lemma ValidRequest(v: Record, requested: set<ActionType>)
    requires Stored(v) && v.status == WaitingApproval && requested != {}
    requires ValidateRequest(requested, v.approvals).None?
    ensures requested == {ExternalApiSend}
  {
    hide Stored, TypesWith, KnownTypes;
    WaitingTypes(v);
    var a :| a in requested;
    assert a == ExternalApiSend;
  }

  lemma ResumeFromApprovalKeeps(v: Record, inputs: seq<ActionInput>, caller: ActorArgument, note: string,
                                launch: Launch, overrides: RuntimeOverride, approvalId: nat)
    requires Stored(v)
    ensures Keeps(ResumeFromApproval(v, inputs, caller, note, launch, overrides, approvalId))
  {
    hide ResumeWaiting, ParseActions, Stored, ValidateRequest;
    if v.status == WaitingApproval && ParseActions(inputs).Ok? && ParseActions(inputs).value != {}
       && ValidateRequest(ParseActions(inputs).value, v.approvals).None? {
      ValidRequest(v, ParseActions(inputs).value);
      ResumeWaitingKeeps(v, CoerceActor(caller, Approver), Text.Strip(note), launch, overrides, approvalId);
    }
  }

  /******* reject_approval *******/

  lemma RejectedRecord(v: Record, authorized: Record, actor: Actor, named: set<ActionType>, reason: string,
                       note: string)
    requires Stored(v) && v.status == WaitingApproval && authorized == v.(events := authorized.events)
    ensures var w := RejectFrom(authorized, 0, named, actor, reason, note);
      && Steady(w) && SameWork(v, w) && !HasDelivery(w)
      && AllDecided(w.approvals) && !HasApproved(w.approvals) && HasRejected(w.approvals)
      && Noted(w.checkpoints, w.id, w.approvals)
  {
    hide GoodPlan, HasOutput, Note, RejectFrom;
    RejectFromNotes(authorized, 0, named, actor, reason, note);
    RejectFromEffect(authorized, 0, named, actor, reason, note);
    var w := RejectFrom(authorized, 0, named, actor, reason, note);
    SteadyExceptWork(v, w);
    StillDeliveryFree(authorized, w);
    assert !HasApproved(v.approvals);
    forall k | 0 <= k < |w.approvals|
      ensures w.approvals[k].status == Rejected
    {
      assert v.approvals[k].status != Approved;
    }
    assert w.approvals[|w.approvals| - 1].status == Rejected;
  }

  /** The part of a rejection that follows the authorization. */
  lemma AuthorizedRejectKeeps(v: Record, authorized: Record, actor: Actor, named: set<ActionType>, reason: string,
                              note: string)
    requires Stored(v) && v.status == WaitingApproval && authorized == v.(events := authorized.events)
    ensures var decided := RejectFrom(authorized, 0, named, actor, reason, note);
      var o := Commit(Transition(MoveTasks(decided, 0, WaitingTasks, NeedsRevision, reason, actor), RevisionRequested,
        actor));
      Keeps(o) && o.saved.Some? && o.saved.value.status == RevisionRequested && o.answer == Summary(o.saved.value)
  {
    hide GoodPlan, OnlyExternal, RejectFrom, MoveTasks, Noted;
    RejectedRecord(v, authorized, actor, named, reason, note);
    ReopenSteady(RejectFrom(authorized, 0, named, actor, reason, note), NeedsRevision, reason, actor);
  }

  lemma RejectWaitingKeeps(v: Record, named: set<ActionType>, actor: Actor, reason: string, note: string,
                           overrides: RuntimeOverride)
    requires Stored(v) && v.status == WaitingApproval
    ensures var o := RejectWaiting(v, named, actor, reason, note, overrides);
      && Keeps(o)
      && (o.saved.Some? && !Rules.Authorize(ExternalApiSend, actor, v.policy, overrides).allowed ==>
            OnlyAuthorizes(v, o.saved.value) && o.answer == Raised(PermissionDenied(ExternalApiSend)))
      && (named == {} && Rules.Authorize(ExternalApiSend, actor, v.policy, overrides).allowed ==>
            o.saved.Some? && o.saved.value.status == RevisionRequested && o.answer == Summary(o.saved.value))
  {
    hide AuthorizeAll, ActionsInOrder, RejectFrom, MoveTasks, Transition, Rules.Authorize, Stored, TypesWith;
    hide KnownTypes, OnlyAuthorizes;
    WaitingTypes(v);
    AuthorizeExternal(v, actor, overrides);
    var wanted := if named == {} then {ExternalApiSend} else named;
    var r := AuthorizeAll(v, actor, ActionsInOrder({ExternalApiSend}), overrides);
    OnlyLogs(v, r.record);
    LogKeeps(v, r.record);
    AuthorizedRejectKeeps(v, r.record, actor, wanted, reason, note);
  }

  lemma RejectApprovalKeeps(v: Record, inputs: seq<ActionInput>, caller: ActorArgument, reason: string, note: string,
                            overrides: RuntimeOverride)
    requires Stored(v)
    ensures Keeps(RejectApproval(v, inputs, caller, reason, note, overrides))
  {
    hide RejectWaiting, ParseActions, Stored;
    if v.status == WaitingApproval && ParseActions(inputs).Ok? {
      RejectWaitingKeeps(v, ParseActions(inputs).value, CoerceActor(caller, Approver), Text.Strip(reason),
        Text.Strip(note), overrides);
    }
  }

  /******* resume_from_revision and start_replanning *******/

  lemma ResetSteady(v: Record, mode: RevisionMode, note: string, actor: Actor)
    requires Steady(v)
    requires forall k :: 0 <= k < |v.tasks| ==> AtRest(v.tasks[k].status)
    ensures var w := MoveTasks(v, 0, InDepartments(ResetDepartments(mode)), Pending, note, actor);
      && Steady(w)
      && w == v.(tasks := w.tasks, events := w.events)
      && (forall k :: 0 <= k < |w.tasks| ==> AtRest(w.tasks[k].status))
      && LastOpen(w.tasks)
  {
    hide MoveTasks, OrderedPlan;
    MoveTasksEffect(v, 0, InDepartments(ResetDepartments(mode)), Pending, note, actor);
    var w := MoveTasks(v, 0, InDepartments(ResetDepartments(mode)), Pending, note, actor);
    assert Shape(w.tasks) == Shape(v.tasks);
    var last := |v.tasks| - 1;
    assert Shape(v.tasks)[last] == ShapeOf(v.tasks[last]);
    forall k | 0 <= k < |w.tasks| && w.tasks[k].status == Done && w.tasks[k].department != Review
      ensures w.artifacts != []
    {
      assert v.tasks[k].status == Done && v.tasks[k].department != Review;
    }
  }

  /** Execution with a parsed list, from a record without approvals. */
  lemma ExecuteWithKeeps(v: Record, launch: Launch, inputs: seq<ActionInput>, actor: Actor, approvalId: nat)
    requires Steady(v) && Executing(v, 0) && !HasApproved(v.approvals)
    ensures var o := ExecuteWith(v, launch, inputs, false, actor, approvalId);
      Keeps(o) && (o.saved.Some? ==> o.saved.value.status in {WaitingApproval, Completed})
    ensures ParseActions(inputs).Ok? && CompletesWith(launch, ParseActions(inputs).value)
      ==> CompletesIn(ExecuteWith(v, launch, inputs, false, actor, approvalId))
  {
    hide Steady, Stored, Executing, Execute, ParseActions, ResolveProvider;
    if ParseActions(inputs).Ok? {
      ExecuteKeeps(v, launch, ParseActions(inputs).value, false, actor, approvalId);
    }
  }

  lemma RevisedMayExecute(v: Record, mode: RevisionMode, actor: Actor, reason: string)
    requires Stored(v) && v.status == RevisionRequested
    ensures var w := ReviseTasks(v, mode, actor, reason);
      && Steady(w) && !HasApproved(w.approvals)
      && w.status == RevisionRequested && Executing(w.(status := InProgress), 0)
      && w.id == v.id && w.reviews == v.reviews && LastOpen(w.tasks)
  {
    hide GoodPlan, MoveTasks;
    ResetSteady(RecordEvent(v, ResumeTriggered(RevisionResume(mode)), actor), mode, reason, actor);
  }

  lemma RevisedIsPlannable(reset: Record, w: Record)
    requires Steady(reset) && Executing(reset.(status := InProgress), 0) && LastOpen(reset.tasks)
    requires !HasApproved(reset.approvals)
    requires w == reset.(status := ReadyForPlanning, history := w.history, events := w.events)
    ensures Stored(w)
  {
    hide GoodPlan;
  }

  lemma ResumeFromRevisionKeeps(v: Record, mode: RevisionMode, caller: ActorArgument, reason: string, launch: Launch,
                                inputs: seq<ActionInput>, approvalId: nat)
    requires Stored(v)
    ensures var o := ResumeFromRevision(v, mode, caller, reason, launch, inputs, approvalId);
      && Keeps(o)
      && (v.status == RevisionRequested && mode != Replanning && ParseActions(inputs).Ok? ==>
            CompletesWith(launch, ParseActions(inputs).value) ==> CompletesIn(o))
  {
    hide GoodPlan, ReviseTasks, ExecuteWith, ParseActions, ResolveProvider, Coupled, Noted;
    if v.status == RevisionRequested {
      var actor := CoerceActor(caller, Operator);
      var reset := ReviseTasks(v, mode, actor, Text.Strip(reason));
      RevisedMayExecute(v, mode, actor, Text.Strip(reason));
      var target := if mode == Replanning then ReadyForPlanning else InProgress;
      var w := Transition(reset, target, actor).value;
      if mode == Replanning {
        RevisedIsPlannable(reset, w);
      } else {
        ExecuteWithKeeps(w, launch, inputs, actor, approvalId);
      }
    }
  }

  lemma ReplannedMayExecute(v: Record, actor: Actor, reset: bool)
    requires Stored(v) && v.status == ReadyForPlanning
    ensures var w := ReplanTasks(v, actor, reset);
      && Steady(w) && !HasApproved(w.approvals)
      && w.status == ReadyForPlanning && Executing(w.(status := InProgress), 0)
  {
    hide GoodPlan, MoveTasks;
    ResetSteady(v, Replanning, "", actor);
  }

  lemma StartReplanningKeeps(v: Record, caller: ActorArgument, launch: Launch, inputs: seq<ActionInput>,
                             reset: bool, approvalId: nat)
    requires Stored(v)
    ensures var o := StartReplanning(v, caller, launch, inputs, reset, approvalId);
      && Keeps(o)
      && (o.saved.Some? ==> o.saved.value.status in {WaitingApproval, Completed})
      && (v.status == ReadyForPlanning && ParseActions(inputs).Ok? ==>
            CompletesWith(launch, ParseActions(inputs).value) ==> CompletesIn(o))
  {
    hide GoodPlan, ReplanTasks, ExecuteWith, ParseActions, ResolveProvider, Coupled, Noted;
    if v.status == ReadyForPlanning {
      var actor := CoerceActor(caller, Operator);
      ReplannedMayExecute(v, actor, reset);
      ExecuteWithKeeps(Transition(ReplanTasks(v, actor, reset), InProgress, actor).value, launch, inputs, actor,
        approvalId);
    }
  }
}
