/** Every call on any sound record leaves a sound one, whatever types of approval are asked for and decided. */
module SoundCalls {
  import opened Domain
  import opened Workflow
  import opened AuditLog
  import opened Loops
  import opened Calls
  import opened Soundness
  import Rules = ApprovalRules
  import Text

  /******* run *******/

  lemma DraftedSound(id: nat, policy: ProjectPolicy, plan: seq<TaskShape>)
    requires OrderedPlan(plan)
    ensures Sound(Drafted(id, policy, plan))
  {
    var v := Drafted(id, policy, plan);
    forall i | 0 <= i < |v.tasks|
      ensures v.tasks[i].id in PlanIds(plan)
    {
      assert plan[i] in plan;
    }
  }

  lemma LaunchedSound(id: nat, policy: ProjectPolicy, plan: seq<TaskShape>)
    requires OrderedPlan(plan)
    ensures Launched(Drafted(id, policy, plan)).Ok?
    ensures var w := Launched(Drafted(id, policy, plan)).value;
      Follows(Drafted(id, policy, plan), w, false) && w.status == InProgress && w.artifacts == []
  {
    hide Audit, Evolves, OrderedPlan;
    var v := Drafted(id, policy, plan);
    DraftedSound(id, policy, plan);
    TransitionKeeps(v, IntakePending, SYSTEM_ACTOR);
    var intake := Transition(v, IntakePending, SYSTEM_ACTOR).value;
    TransitionKeeps(intake, ReadyForPlanning, SYSTEM_ACTOR);
    var ready := Transition(intake, ReadyForPlanning, SYSTEM_ACTOR).value;
    TransitionKeeps(ready, InProgress, SYSTEM_ACTOR);
    var w := Transition(ready, InProgress, SYSTEM_ACTOR).value;
    EvolvesTransitive(v, intake, ready);
    EvolvesTransitive(v, ready, w);
  }

  lemma RunSound(id: nat, policy: ProjectPolicy, plan: seq<TaskShape>, launch: Launch, inputs: seq<ActionInput>,
                 simulateFailure: bool, approvalId: nat)
    requires OrderedPlan(plan)
    ensures var o := Run(id, policy, plan, launch, inputs, simulateFailure, approvalId);
      o.saved.Some? ==> Follows(Drafted(id, policy, plan), o.saved.value, PreApproves(inputs))
  {
    hide Sound, Evolves, Execute, ParseActions;
    if ParseActions(inputs).Ok? {
      var approved := ParseActions(inputs).value;
      var v := Drafted(id, policy, plan);
      LaunchedSound(id, policy, plan);
      var w := Launched(v).value;
      ExecuteSound(w, launch, approved, simulateFailure, SYSTEM_ACTOR, approvalId, PreApproves(inputs));
      var o := Execute(w, launch, approved, simulateFailure, SYSTEM_ACTOR, approvalId);
      if o.saved.Some? {
        EvolvesTransitive(v, w, o.saved.value);
      }
    }
  }

  /******* Logging *******/

  /** A record stays as it is when only its log grows. */
  lemma LogSound(v: Record, w: Record, vouched: bool)
    requires Sound(v) && Gated(v, vouched)
    requires w == v.(events := w.events) && Audit(w) && Evolves(v, w)
    ensures Follows(v, w, vouched)
  {
    hide Audit, Evolves;
  }

  lemma AuthenticationSound(v: Record, actor: Actor, vouched: bool)
    requires Sound(v) && Gated(v, vouched)
    ensures Follows(v, RecordAuthenticationSuccess(v, actor).saved.value, vouched)
    ensures Follows(v, RecordAuthenticationFailure(v).saved.value, vouched)
  {
    hide Audit, Evolves, OrderedPlan, DoneClosed, Gated;
    EventKeeps(v, AuthenticationSucceeded, actor);
    var w := RecordEvent(v, AuthenticationSucceeded, actor);
    EventKeeps(w, ActorResolved, actor);
    EvolvesTransitive(v, w, RecordEvent(w, ActorResolved, actor));
    LogSound(v, RecordEvent(w, ActorResolved, actor), vouched);
    EventKeeps(v, AuthenticationFailed, ANONYMOUS);
    LogSound(v, RecordEvent(v, AuthenticationFailed, ANONYMOUS), vouched);
  }

  /** Authorization of any actions by anyone keeps the record sound. */
  lemma AuthorizeSound(v: Record, actor: Actor, actions: seq<ActionType>, overrides: RuntimeOverride, vouched: bool)
    requires Sound(v) && Gated(v, vouched)
    ensures Follows(v, AuthorizeAll(v, actor, actions, overrides).record, vouched)
  {
    hide Audit, Evolves, OrderedPlan, DoneClosed, Gated, AuthorizeAll, StopsAt, Rules.Authorize;
    AuthorizeAllEffect(v, actor, actions, overrides);
    AuthorizeAllKeeps(v, actor, actions, overrides);
    LogSound(v, AuthorizeAll(v, actor, actions, overrides).record, vouched);
  }

  /******* resume_from_approval *******/

  /** Moving tasks to an open status keeps a record sound if the done tasks stay closed under dependencies. */
  lemma MovedSound(v: Record, which: Selection, next: TaskStatus, note: string, actor: Actor, vouched: bool)
    requires Sound(v) && Gated(v, vouched) && next in {Pending, NeedsRevision}
    requires which.InDepartments? ==> ClosedUnderDependents(Shape(v.tasks), which.departments)
    ensures Follows(v, MoveTasks(v, 0, which, next, note, actor), vouched)
    ensures MoveTasks(v, 0, which, next, note, actor).status == v.status
  {
    hide Audit, Evolves, MoveTasks, UniqueIds, InDependencyOrder;
    MoveTasksKeeps(v, 0, which, next, note, actor);
    MoveTasksEffect(v, 0, which, next, note, actor);
    var w := MoveTasks(v, 0, which, next, note, actor);
    assert Shape(w.tasks) == Shape(v.tasks);
    var plan := Shape(v.tasks);
    forall a, b | 0 <= a < |w.tasks| && 0 <= b < |w.tasks| && w.tasks[a].status == Done
      && w.tasks[b].id in w.tasks[a].dependsOn
      ensures w.tasks[b].status == Done
    {
      assert v.tasks[a].status == Done && v.tasks[b].id in v.tasks[a].dependsOn;
      assert plan[b].id in plan[a].dependsOn;
    }
  }

  /** Decided approvals change neither tasks nor artifacts, and take no approval back. */
  lemma DecidedSound(v: Record, w: Record, vouched: bool)
    requires Sound(v) && Gated(v, vouched) && SameWork(v, w) && Audit(w) && Evolves(v, w)
    ensures Follows(v, w, vouched)
  {
    hide Audit, SameLedger;
    ApprovedStay(v.approvals, w.approvals);
  }

  lemma ApproveSound(v: Record, actions: set<ActionType>, actor: Actor, note: string, vouched: bool)
    requires Sound(v) && Gated(v, vouched)
    requires forall a :: a in actions ==> Granted(v.events, a, actor)
    requires actions !! TypesWith(v.approvals, Rejected)
    ensures var w := ApproveFrom(v, 0, actions, actor, note);
      && Follows(v, w, vouched) && w.status == v.status
      && TypesWith(v.approvals, Approved) <= TypesWith(w.approvals, Approved)
      && (actions <= TypesWith(v.approvals, Undecided) ==> actions <= TypesWith(w.approvals, Approved))
  {
    hide Audit, Evolves, ApproveFrom, Gated, Sound;
    SoundIsAudited(v);
    ApproveFromKeeps(v, 0, actions, actor, note);
    ApproveFromEffect(v, 0, actions, actor, note);
    var w := ApproveFrom(v, 0, actions, actor, note);
    DecidedSound(v, w, vouched);
    ApprovedStay(v.approvals, w.approvals);
    forall a | a in actions && a in TypesWith(v.approvals, Undecided)
      ensures a in TypesWith(w.approvals, Approved)
    {
      var k :| 0 <= k < |v.approvals| && v.approvals[k].status == Undecided && v.approvals[k].action == a;
      assert w.approvals[k] in w.approvals;
    }
  }

  lemma SoundIsAudited(v: Record)
    requires Sound(v)
    ensures Audit(v)
  {
  }

  lemma ReleasedSound(u: Record, v: Record, actor: Actor, vouched: bool)
    requires Follows(u, v, vouched) && v.status == WaitingApproval
    ensures Transition(Released(v, actor), InProgress, actor).Ok?
    ensures var w := Transition(Released(v, actor), InProgress, actor).value;
      Follows(u, w, vouched) && w.status == InProgress && w.approvals == v.approvals
  {
    hide Audit, Evolves, OrderedPlan, DoneClosed, MoveTasks;
    MovedSound(v, WaitingTasks, Pending, "", actor, vouched);
    MoveTasksEffect(v, 0, WaitingTasks, Pending, "", actor);
    var reopened := MoveTasks(v, 0, WaitingTasks, Pending, "", actor);
    EventKeeps(reopened, ResumeTriggered(ApprovalResume), actor);
    var triggered := Released(v, actor);
    EvolvesTransitive(u, v, reopened);
    EvolvesTransitive(u, reopened, triggered);
    TransitionKeeps(triggered, InProgress, actor);
    EvolvesTransitive(u, triggered, Transition(triggered, InProgress, actor).value);
  }

  /** The types that a valid request still has to approve are undecided ones. */
  lemma RequestIsUndecided(requested: set<ActionType>, approvals: seq<Approval>)
    requires ValidateRequest(requested, approvals).None?
    ensures requested - TypesWith(approvals, Approved) <= TypesWith(approvals, Undecided)
    ensures requested !! TypesWith(approvals, Rejected)
  {
    assert forall a :: a in requested && a in TypesWith(approvals, Rejected) ==>
      a in requested * TypesWith(approvals, Rejected);
    forall a | a in requested && a !in TypesWith(approvals, Approved)
      ensures a in TypesWith(approvals, Undecided)
    {
      assert a in KnownTypes(approvals) && a !in TypesWith(approvals, Rejected);
    }
  }

  /** The part of a resumption that follows the authorization: partial, or with an execution. */
  lemma AuthorizedResumeSound(u: Record, v: Record, requested: set<ActionType>, actor: Actor, note: string,
                              launch: Launch, approvalId: nat, vouched: bool)
    requires Follows(u, v, vouched) && v.status == WaitingApproval
    requires ValidateRequest(requested, v.approvals).None?
    requires forall a :: a in requested - TypesWith(v.approvals, Approved) ==> Granted(v.events, a, actor)
    ensures var approved := TypesWith(v.approvals, Approved);
      var decided := ApproveFrom(v, 0, requested - approved, actor, note);
      var resumed := Transition(Released(decided, actor), InProgress, actor);
      && Follows(u, RecordEvent(decided, ResumeTriggered(ApprovalResumePartial), actor), vouched)
      && resumed.Ok?
      && var o := Execute(resumed.value, launch, approved + (requested - approved), false, actor, approvalId);
         o.saved.Some? ==> Follows(u, o.saved.value, vouched)
  {
    hide Sound, Evolves, Gated, ApproveFrom, Released, Transition, Execute, TypesWith, ValidateRequest;
    var approved := TypesWith(v.approvals, Approved);
    RequestIsUndecided(requested, v.approvals);
    ApproveSound(v, requested - approved, actor, note, vouched);
    var decided := ApproveFrom(v, 0, requested - approved, actor, note);
    EvolvesTransitive(u, v, decided);
    EventSound(u, decided, ResumeTriggered(ApprovalResumePartial), actor, vouched);
    ReleasedSound(u, decided, actor, vouched);
    var w := Transition(Released(decided, actor), InProgress, actor).value;
    ExecuteSound(w, launch, approved + (requested - approved), false, actor, approvalId, vouched);
    var o := Execute(w, launch, approved + (requested - approved), false, actor, approvalId);
    if o.saved.Some? {
      EvolvesTransitive(u, w, o.saved.value);
    }
  }

  lemma EventSound(u: Record, v: Record, kind: EventKind, actor: Actor, vouched: bool)
    requires Follows(u, v, vouched) && Neutral(kind)
    ensures Follows(u, RecordEvent(v, kind, actor), vouched)
  {
    hide Audit, Evolves, OrderedPlan, DoneClosed;
    EventKeeps(v, kind, actor);
    EvolvesTransitive(u, v, RecordEvent(v, kind, actor));
  }

  lemma ResumeWaitingSound(v: Record, requested: set<ActionType>, actor: Actor, note: string, launch: Launch,
                           overrides: RuntimeOverride, approvalId: nat, vouched: bool)
    requires Sound(v) && Gated(v, vouched) && v.status == WaitingApproval
    requires ValidateRequest(requested, v.approvals).None?
    ensures var o := ResumeWaiting(v, requested, actor, note, launch, overrides, approvalId);
      o.saved.Some? ==> Follows(v, o.saved.value, vouched)
  {
    hide Sound, Evolves, Gated, AuthorizeAll, ApproveFrom, Released, Transition, Execute, TypesWith, StopsAt;
    hide Rules.Authorize;
    hide ActionsInOrder, ValidateRequest;
    var approved := TypesWith(v.approvals, Approved);
    var actions := ActionsInOrder(requested - approved);
    InOrderExact(requested - approved);
    AuthorizeAllEffect(v, actor, actions, overrides);
    AuthorizeSound(v, actor, actions, overrides, vouched);
    var r := AuthorizeAll(v, actor, actions, overrides);
    if r.denied.None? {
      AuthorizedResumeSound(v, r.record, requested, actor, note, launch, approvalId, vouched);
    }
  }

  /******* reject_approval *******/

  lemma RejectWaitingSound(v: Record, named: set<ActionType>, actor: Actor, reason: string, note: string,
                           overrides: RuntimeOverride, vouched: bool)
    requires Sound(v) && Gated(v, vouched) && v.status == WaitingApproval
    ensures var o := RejectWaiting(v, named, actor, reason, note, overrides);
      o.saved.Some? ==> Follows(v, o.saved.value, vouched)
  {
    hide Sound, Evolves, Gated, AuthorizeAll, RejectFrom, MoveTasks, Transition, TypesWith, StopsAt, Rules.Authorize;
    hide ActionsInOrder;
    var undecided := TypesWith(v.approvals, Undecided);
    var wanted := if named == {} then undecided else named;
    InOrderExact(undecided);
    AuthorizeAllEffect(v, actor, ActionsInOrder(undecided), overrides);
    AuthorizeSound(v, actor, ActionsInOrder(undecided), overrides, vouched);
    var r := AuthorizeAll(v, actor, ActionsInOrder(undecided), overrides);
    if r.denied.None? {
      AuthorizedRejectSound(v, r.record, wanted, actor, reason, note, vouched);
    }
  }

  lemma AuthorizedRejectSound(u: Record, v: Record, named: set<ActionType>, actor: Actor, reason: string, note: string,
                              vouched: bool)
    requires Follows(u, v, vouched) && v.status == WaitingApproval
    requires forall a :: a in TypesWith(v.approvals, Undecided) ==> Granted(v.events, a, actor)
    ensures var decided := RejectFrom(v, 0, named, actor, reason, note);
      var result := Transition(MoveTasks(decided, 0, WaitingTasks, NeedsRevision, reason, actor), RevisionRequested,
        actor);
      result.Ok? && Follows(u, result.value, vouched)
  {
    hide Audit, Evolves, RejectFrom, MoveTasks, OrderedPlan, DoneClosed, Gated, Granted;
    forall k | 0 <= k < |v.approvals| && v.approvals[k].status == Undecided
      ensures Granted(v.events, v.approvals[k].action, actor)
    {
      assert v.approvals[k].action in TypesWith(v.approvals, Undecided);
    }
    RejectFromKeeps(v, 0, named, actor, reason, note);
    RejectFromEffect(v, 0, named, actor, reason, note);
    var decided := RejectFrom(v, 0, named, actor, reason, note);
    DecidedSound(v, decided, vouched);
    EvolvesTransitive(u, v, decided);
    MovedSound(decided, WaitingTasks, NeedsRevision, reason, actor, vouched);
    var moved := MoveTasks(decided, 0, WaitingTasks, NeedsRevision, reason, actor);
    EvolvesTransitive(u, decided, moved);
    TransitionSound(u, moved, RevisionRequested, actor, vouched);
  }

  lemma TransitionSound(u: Record, v: Record, next: ProjectStatus, actor: Actor, vouched: bool)
    requires Follows(u, v, vouched) && Transition(v, next, actor).Ok?
    ensures Follows(u, Transition(v, next, actor).value, vouched) && Transition(v, next, actor).value.status == next
  {
    hide Audit, Evolves, OrderedPlan, DoneClosed;
    TransitionKeeps(v, next, actor);
    EvolvesTransitive(u, v, Transition(v, next, actor).value);
  }

  /******* resume_from_revision and start_replanning *******/

  lemma ResetSound(u: Record, v: Record, mode: RevisionMode, note: string, actor: Actor, vouched: bool)
    requires Follows(u, v, vouched)
    ensures var w := MoveTasks(v, 0, InDepartments(ResetDepartments(mode)), Pending, note, actor);
      Follows(u, w, vouched) && w.status == v.status
  {
    hide Audit, Evolves, MoveTasks, DoneClosed, Gated, ClosedUnderDependents, ResetDepartments;
    MovedSound(v, InDepartments(ResetDepartments(mode)), Pending, note, actor, vouched);
    EvolvesTransitive(u, v, MoveTasks(v, 0, InDepartments(ResetDepartments(mode)), Pending, note, actor));
  }

  lemma ResumeFromRevisionSound(v: Record, mode: RevisionMode, caller: ActorArgument, reason: string, launch: Launch,
                                inputs: seq<ActionInput>, approvalId: nat, vouched: bool)
    requires Sound(v) && Gated(v, vouched)
    ensures var o := ResumeFromRevision(v, mode, caller, reason, launch, inputs, approvalId);
      o.saved.Some? ==> Follows(v, o.saved.value, vouched || PreApproves(inputs))
  {
    hide Sound, Evolves, MoveTasks, ExecuteWith, PreApproves, ResetDepartments, HasExternalArtifact;
    if v.status == RevisionRequested {
      var actor := CoerceActor(caller, Operator);
      EvolvesReflexive(v);
      EventSound(v, v, ResumeTriggered(RevisionResume(mode)), actor, vouched);
      ResetSound(v, RecordEvent(v, ResumeTriggered(RevisionResume(mode)), actor), mode, Text.Strip(reason), actor,
        vouched);
      var target := if mode == Replanning then ReadyForPlanning else InProgress;
      var reset := ReviseTasks(v, mode, actor, Text.Strip(reason));
      TransitionSound(v, reset, target, actor, vouched);
      if mode != Replanning {
        ExecuteWithSound(v, Transition(reset, target, actor).value, launch, inputs, actor, approvalId, vouched);
      }
    }
  }

  lemma StartReplanningSound(v: Record, caller: ActorArgument, launch: Launch, inputs: seq<ActionInput>,
                             reset: bool, approvalId: nat, vouched: bool)
    requires Sound(v) && Gated(v, vouched)
    ensures var o := StartReplanning(v, caller, launch, inputs, reset, approvalId);
      o.saved.Some? ==> Follows(v, o.saved.value, vouched || PreApproves(inputs))
  {
    hide Sound, Evolves, MoveTasks, ExecuteWith, PreApproves, ResetDepartments, Gated;
    if v.status == ReadyForPlanning {
      var actor := CoerceActor(caller, Operator);
      EvolvesReflexive(v);
      ResetSound(v, v, Replanning, "", actor, vouched);
      var u := if reset then MoveTasks(v, 0, InDepartments(ResetDepartments(Replanning)), Pending, "", actor) else v;
      EventSound(v, u, ReplanningStarted(reset), actor, vouched);
      TransitionSound(v, ReplanTasks(v, actor, reset), InProgress, actor, vouched);
      ExecuteWithSound(v, Transition(ReplanTasks(v, actor, reset), InProgress, actor).value, launch, inputs, actor,
        approvalId, vouched);
    }
  }

  /******* Every call *******/

  /** Any call on any sound record saves a sound record, which extends the old one and books what was decided. */
  lemma CallSound(v: Record, c: Call, approvalId: nat, vouched: bool)
    requires !c.StartProject? && Sound(v) && Gated(v, vouched)
    ensures var o := OutcomeOn(v, c, approvalId);
      o.saved.Some? ==> Follows(v, o.saved.value, vouched || Bypasses(c))
  {
    hide Sound, Follows, Gated, PreApproves, ParseActions, ValidateRequest;
    hide ResumeWaiting, RejectWaiting, ResumeFromRevision, StartReplanning;
    match c
    case ApprovalCall(_, inputs, caller, note, launch, overrides) =>
      if v.status == WaitingApproval && ParseActions(inputs).Ok?
        && ValidateRequest(ParseActions(inputs).value, v.approvals).None? {
        ResumeWaitingSound(v, ParseActions(inputs).value, CoerceActor(caller, Approver), Text.Strip(note), launch,
          overrides, approvalId, vouched);
      }
    case RejectionCall(_, inputs, caller, reason, note, overrides) =>
      if v.status == WaitingApproval && ParseActions(inputs).Ok? {
        RejectWaitingSound(v, ParseActions(inputs).value, CoerceActor(caller, Approver), Text.Strip(reason),
          Text.Strip(note), overrides, vouched);
      }
    case RevisionCall(_, mode, caller, reason, launch, inputs) =>
      ResumeFromRevisionSound(v, mode, caller, reason, launch, inputs, approvalId, vouched);
    case ReplanningCall(_, caller, launch, inputs, reset) =>
      StartReplanningSound(v, caller, launch, inputs, reset, approvalId, vouched);
    case SuccessCall(_, actor) => AuthenticationSound(v, actor, vouched);
    case FailureCall(_) => AuthenticationSound(v, ANONYMOUS, vouched);
  }
}
