/** In whose name a call acts: the actor of every event that it logs. */
module Actors {
  import opened Prelude
  import opened Domain
  import opened Workflow
  import opened Calls
  import opened Loops
  import opened Soundness
  import opened Coupling
  import opened Work
  import Rules = ApprovalRules
  import Text

  /** Whoever is named, or nobody, acts as a human with the role that is usual for the operation. */
  predicate ActsFor(caller: ActorArgument, usual: ActorRole, actor: Actor) {
    match caller
    case Known(known) => actor == known
    case Named(name) =>
      && actor.role == usual && actor.kind == Human
      && if Text.AllSpace(name) then actor.id == "unknown" else actor.id == Text.Strip(name)
    case Nobody => actor.role == usual && actor.kind == Human && actor.id == "unknown"
  }

  lemma CoercedActsFor(caller: ActorArgument, usual: ActorRole)
    ensures ActsFor(caller, usual, CoerceActor(caller, usual))
  {
    if caller.Named? {
      Text.StripEmpty(caller.name);
    }
  }

  /** Every event beyond `before` was logged for the actor, but for the system's own request of an approval. */
  predicate LoggedFor(before: seq<Event>, after: seq<Event>, actor: Actor) {
    && before <= after
    && forall k :: |before| <= k < |after| ==>
         after[k].actor == actor || after[k] == Event(ApprovalRequested(ExternalApiSend), SYSTEM_ACTOR)
  }

  lemma LoggedTransitive(a: seq<Event>, b: seq<Event>, c: seq<Event>, actor: Actor)
    requires LoggedFor(a, b, actor) && LoggedFor(b, c, actor)
    ensures LoggedFor(a, c, actor)
  {
    forall k | |a| <= k < |c|
      ensures c[k].actor == actor || c[k] == Event(ApprovalRequested(ExternalApiSend), SYSTEM_ACTOR)
    {
      if k < |b| {
        assert c[k] == b[k];
      }
    }
  }

  lemma LoggedOne(es: seq<Event>, e: Event, actor: Actor)
    requires e.actor == actor || e == Event(ApprovalRequested(ExternalApiSend), SYSTEM_ACTOR)
    ensures LoggedFor(es, es + [e], actor) && LoggedFor(es, es, actor)
  {
  }

  /******* Loops *******/

  lemma {:induction false} AuthorizeLogged(v: Record, actor: Actor, actions: seq<ActionType>,
                                           overrides: RuntimeOverride)
    ensures LoggedFor(v.events, AuthorizeAll(v, actor, actions, overrides).record.events, actor)
    decreases |actions|
  {
    hide Rules.Authorize, LoggedFor;
    LoggedOne(v.events, Event(ActorResolved, actor), actor);
    if actions != [] {
      var w := Evaluated(v, actions[0], actor, overrides);
      LoggedOne(v.events, Event(PolicyOverrideApplied(actions[0]), actor), actor);
      var granted := RecordEvent(w, AuthorizationGranted(actions[0]), actor);
      LoggedOne(w.events, Event(AuthorizationGranted(actions[0]), actor), actor);
      LoggedOne(w.events, Event(AuthorizationFailed(actions[0]), actor), actor);
      if Rules.Authorize(actions[0], actor, v.policy, overrides).allowed {
        AuthorizeLogged(granted, actor, actions[1..], overrides);
        LoggedTransitive(v.events, w.events, granted.events, actor);
        LoggedTransitive(v.events, granted.events, AuthorizeAll(granted, actor, actions[1..], overrides).record.events,
          actor);
      } else {
        LoggedTransitive(v.events, w.events, RecordEvent(w, AuthorizationFailed(actions[0]), actor).events, actor);
      }
    }
  }

  lemma {:induction false} ApproveLogged(v: Record, i: nat, actions: set<ActionType>, actor: Actor, note: string)
    requires i <= |v.approvals|
    ensures LoggedFor(v.events, ApproveFrom(v, i, actions, actor, note).events, actor)
    decreases |v.approvals| - i
  {
    hide LoggedFor, UpdateApprovalCheckpoint;
    LoggedOne(v.events, Event(ActorResolved, actor), actor);
    if i < |v.approvals| {
      var approval := v.approvals[i];
      if approval.status == Undecided && approval.action in actions {
        var text := if note != "" then note else DEFAULT_APPROVAL_NOTE;
        var noted := UpdateApprovalCheckpoint(v, true, actor.id, text);
        UpdateEffect(v, true, actor.id, text);
        var decided := Decide(noted, i, ApprovedAs(approval, actor, note), ApprovalApproved(approval.action), actor);
        LoggedOne(v.events, Event(ApprovalApproved(approval.action), actor), actor);
        ApproveLogged(decided, i + 1, actions, actor, note);
        LoggedTransitive(v.events, decided.events, ApproveFrom(decided, i + 1, actions, actor, note).events, actor);
      } else {
        ApproveLogged(v, i + 1, actions, actor, note);
      }
    }
  }

  lemma {:induction false} RejectLogged(v: Record, i: nat, named: set<ActionType>, actor: Actor, reason: string,
                                        note: string)
    requires i <= |v.approvals|
    ensures LoggedFor(v.events, RejectFrom(v, i, named, actor, reason, note).events, actor)
    decreases |v.approvals| - i
  {
    hide LoggedFor, UpdateApprovalCheckpoint, Compose;
    LoggedOne(v.events, Event(ActorResolved, actor), actor);
    if i < |v.approvals| {
      var approval := v.approvals[i];
      if approval.status == Undecided {
        var kind := ApprovalRejected(approval.action, approval.action !in named);
        var decided := Decide(v, i, RejectedAs(approval, actor, reason, note), kind, actor);
        var noted := UpdateApprovalCheckpoint(decided, false, actor.id, Compose(reason, note));
        UpdateEffect(decided, false, actor.id, Compose(reason, note));
        LoggedOne(v.events, Event(kind, actor), actor);
        RejectLogged(noted, i + 1, named, actor, reason, note);
        LoggedTransitive(v.events, noted.events, RejectFrom(noted, i + 1, named, actor, reason, note).events, actor);
      } else {
        RejectLogged(v, i + 1, named, actor, reason, note);
      }
    }
  }

  lemma StatusLogged(v: Record, i: nat, next: TaskStatus, actor: Actor)
    requires i < |v.tasks|
    ensures LoggedFor(v.events, SetTaskStatus(v, i, next, actor).events, actor)
  {
  }

  lemma TransitionLogged(v: Record, next: ProjectStatus, actor: Actor)
    ensures Transition(v, next, actor).Ok? ==> LoggedFor(v.events, Transition(v, next, actor).value.events, actor)
  {
  }

  lemma {:induction false} MoveLogged(v: Record, i: nat, which: Selection, next: TaskStatus, note: string, actor: Actor)
    requires i <= |v.tasks|
    ensures LoggedFor(v.events, MoveTasks(v, i, which, next, note, actor).events, actor)
    decreases |v.tasks| - i
  {
    hide LoggedFor, SetTaskStatus;
    LoggedOne(v.events, Event(ActorResolved, actor), actor);
    if i < |v.tasks| {
      if Selects(which, v.tasks[i]) {
        StatusLogged(v, i, next, actor);
        MoveEffect(v, i, which, next, note, actor);
        var w := SetNote(SetTaskStatus(v, i, next, actor), i, note);
        MoveLogged(w, i + 1, which, next, note, actor);
        LoggedTransitive(v.events, w.events, MoveTasks(w, i + 1, which, next, note, actor).events, actor);
      } else {
        MoveLogged(v, i + 1, which, next, note, actor);
      }
    }
  }

  lemma WorkLogged(v: Record, i: nat, provider: Provider, simulateFailure: bool, actor: Actor)
    requires i < |v.tasks|
    ensures LoggedFor(v.events, WorkOn(v, i, provider, simulateFailure, actor).events, actor)
  {
    hide LoggedFor, SetTaskStatus, Upsert;
    StartedTask(v, i, actor);
    var started := SetTaskStatus(v, i, Started, actor);
    StatusLogged(v, i, Started, actor);
    var performed := Perform(started, v.tasks[i], provider, simulateFailure);
    StatusLogged(performed, i, Done, actor);
    LoggedTransitive(v.events, started.events, SetTaskStatus(performed, i, Done, actor).events, actor);
  }

  lemma {:induction false} RunTasksLogged(v: Record, i: nat, provider: Provider, approved: set<ActionType>,
                                          simulateFailure: bool, actor: Actor, verdict: Option<Verdict>)
    requires i <= |v.tasks|
    ensures LoggedFor(v.events, RunTasks(v, i, provider, approved, simulateFailure, actor, verdict).record.events,
      actor)
    decreases |v.tasks| - i
  {
    hide LoggedFor, SetTaskStatus, WorkOn, MustWait;
    LoggedOne(v.events, Event(ActorResolved, actor), actor);
    if i < |v.tasks| {
      if v.tasks[i].status == Done {
        RunTasksLogged(v, i + 1, provider, approved, simulateFailure, actor, verdict);
      } else if MustWait(v.tasks[i], provider, approved) {
        StatusLogged(v, i, Started, actor);
      } else {
        var w, next := WorkOn(v, i, provider, simulateFailure, actor), NextVerdict(v, i, simulateFailure, verdict);
        WorkOnEffect(v, i, provider, simulateFailure, actor);
        WorkLogged(v, i, provider, simulateFailure, actor);
        RunTasksLogged(w, i + 1, provider, approved, simulateFailure, actor, next);
        LoggedTransitive(v.events, w.events,
          RunTasks(w, i + 1, provider, approved, simulateFailure, actor, next).record.events, actor);
      }
    }
  }

  /******* Execution *******/

  lemma PauseLogged(v: Record, i: nat, actor: Actor, approvalId: nat)
    requires i < |v.tasks|
    ensures var result := Pause(v, i, actor, approvalId); result.Ok? ==> LoggedFor(v.events, result.value.events, actor)
  {
    hide LoggedFor, SetTaskStatus, Upsert, Transition;
    StatusLogged(v, i, Waiting, actor);
    var waiting := SetTaskStatus(v, i, Waiting, actor);
    LoggedOne(waiting.events, Event(ApprovalRequested(ExternalApiSend), SYSTEM_ACTOR), actor);
    var requested := if ExternalApiSend in TypesWith(waiting.approvals, Undecided) then waiting
                     else RequestApproval(waiting, approvalId);
    var noted := requested.(checkpoints := Upsert(requested.checkpoints, CheckpointKey,
      Checkpoint(ApprovalOf(v.id), false, "human", ANALYSIS_REQUEST)));
    TransitionLogged(noted, WaitingApproval, actor);
    LoggedTransitive(v.events, waiting.events, noted.events, actor);
    if Transition(noted, WaitingApproval, actor).Ok? {
      LoggedTransitive(v.events, noted.events, Transition(noted, WaitingApproval, actor).value.events, actor);
    }
  }

  lemma FinishLogged(v: Record, verdict: Option<Verdict>, actor: Actor)
    ensures Finish(v, verdict, actor).Ok? ==> LoggedFor(v.events, Finish(v, verdict, actor).value.events, actor)
  {
    hide Upsert;
  }

  lemma ExecuteLogged(v: Record, launch: Launch, approved: set<ActionType>, simulateFailure: bool, actor: Actor,
                      approvalId: nat)
    ensures var o := Execute(v, launch, approved, simulateFailure, actor, approvalId);
      o.saved.Some? ==> LoggedFor(v.events, o.saved.value.events, actor)
  {
    hide LoggedFor, RunTasks, Pause, Finish, ResolveProvider;
    if ResolveProvider(launch).Some? {
      var provider := ResolveProvider(launch).value;
      RunTasksLogged(v, 0, provider, approved, simulateFailure, actor, None);
      match RunTasks(v, 0, provider, approved, simulateFailure, actor, None)
      case PausedAt(w, i) =>
        PauseLogged(w, i, actor, approvalId);
        if Pause(w, i, actor, approvalId).Ok? {
          LoggedTransitive(v.events, w.events, Pause(w, i, actor, approvalId).value.events, actor);
        }
      case Finished(w, verdict) =>
        FinishLogged(w, verdict, actor);
        if Finish(w, verdict, actor).Ok? {
          LoggedTransitive(v.events, w.events, Finish(w, verdict, actor).value.events, actor);
        }
    }
  }

  /** Execution after a transition into progress. */
  lemma ResumedLogged(es: seq<Event>, v: Record, launch: Launch, inputs: seq<ActionInput>, approved: set<ActionType>,
                      actor: Actor, approvalId: nat)
    requires LoggedFor(es, v.events, actor) && Transition(v, InProgress, actor).Ok?
    ensures var w := Transition(v, InProgress, actor).value;
      && (var o := Execute(w, launch, approved, false, actor, approvalId);
          o.saved.Some? ==> LoggedFor(es, o.saved.value.events, actor))
      && var o := ExecuteWith(w, launch, inputs, false, actor, approvalId);
         o.saved.Some? ==> LoggedFor(es, o.saved.value.events, actor)
  {
    hide LoggedFor, Execute, ParseActions, Transition;
    TransitionLogged(v, InProgress, actor);
    var w := Transition(v, InProgress, actor).value;
    LoggedTransitive(es, v.events, w.events, actor);
    ExecuteLogged(w, launch, approved, false, actor, approvalId);
    var o := Execute(w, launch, approved, false, actor, approvalId);
    if o.saved.Some? {
      LoggedTransitive(es, w.events, o.saved.value.events, actor);
    }
    if ParseActions(inputs).Ok? {
      ExecuteLogged(w, launch, ParseActions(inputs).value, false, actor, approvalId);
      var p := ExecuteWith(w, launch, inputs, false, actor, approvalId);
      if p.saved.Some? {
        LoggedTransitive(es, w.events, p.saved.value.events, actor);
      }
    }
  }

  /******* Operations *******/

  lemma ResumeWaitingLogged(v: Record, requested: set<ActionType>, actor: Actor, note: string, launch: Launch,
                            overrides: RuntimeOverride, approvalId: nat)
    ensures var o := ResumeWaiting(v, requested, actor, note, launch, overrides, approvalId);
      o.saved.Some? ==> LoggedFor(v.events, o.saved.value.events, actor)
  {
    hide LoggedFor, AuthorizeAll, ApproveFrom, MoveTasks, Execute, Transition, TypesWith, ActionsInOrder;
    var p := requested - TypesWith(v.approvals, Approved);
    AuthorizeLogged(v, actor, ActionsInOrder(p), overrides);
    var r := AuthorizeAll(v, actor, ActionsInOrder(p), overrides).record;
    ApproveLogged(r, 0, p, actor, note);
    var decided := ApproveFrom(r, 0, p, actor, note);
    LoggedTransitive(v.events, r.events, decided.events, actor);
    LoggedOne(decided.events, Event(ResumeTriggered(ApprovalResumePartial), actor), actor);
    LoggedTransitive(v.events, decided.events, decided.events + [Event(ResumeTriggered(ApprovalResumePartial), actor)],
      actor);
    MoveLogged(decided, 0, WaitingTasks, Pending, "", actor);
    var moved := MoveTasks(decided, 0, WaitingTasks, Pending, "", actor);
    LoggedTransitive(v.events, decided.events, moved.events, actor);
    LoggedOne(moved.events, Event(ResumeTriggered(ApprovalResume), actor), actor);
    var released := Released(decided, actor);
    LoggedTransitive(v.events, moved.events, released.events, actor);
    if Transition(released, InProgress, actor).Ok? {
      ResumedLogged(v.events, released, launch, [], TypesWith(v.approvals, Approved) + p, actor, approvalId);
    }
  }

  lemma RejectWaitingLogged(v: Record, named: set<ActionType>, actor: Actor, reason: string, note: string,
                            overrides: RuntimeOverride)
    ensures var o := RejectWaiting(v, named, actor, reason, note, overrides);
      o.saved.Some? ==> LoggedFor(v.events, o.saved.value.events, actor)
  {
    hide LoggedFor, AuthorizeAll, RejectFrom, MoveTasks, Transition, TypesWith, ActionsInOrder;
    var undecided := TypesWith(v.approvals, Undecided);
    var wanted := if named == {} then undecided else named;
    AuthorizeLogged(v, actor, ActionsInOrder(undecided), overrides);
    var r := AuthorizeAll(v, actor, ActionsInOrder(undecided), overrides).record;
    RejectLogged(r, 0, wanted, actor, reason, note);
    var decided := RejectFrom(r, 0, wanted, actor, reason, note);
    LoggedTransitive(v.events, r.events, decided.events, actor);
    MoveLogged(decided, 0, WaitingTasks, NeedsRevision, reason, actor);
    var moved := MoveTasks(decided, 0, WaitingTasks, NeedsRevision, reason, actor);
    LoggedTransitive(v.events, decided.events, moved.events, actor);
    TransitionLogged(moved, RevisionRequested, actor);
    if Transition(moved, RevisionRequested, actor).Ok? {
      LoggedTransitive(v.events, moved.events, Transition(moved, RevisionRequested, actor).value.events, actor);
    }
  }

  lemma ReviseLogged(v: Record, mode: RevisionMode, actor: Actor, reason: string, launch: Launch,
                     inputs: seq<ActionInput>, approvalId: nat)
    ensures var o := Revise(v, mode, actor, reason, launch, inputs, approvalId);
      o.saved.Some? ==> LoggedFor(v.events, o.saved.value.events, actor)
  {
    hide LoggedFor, MoveTasks, ExecuteWith, Transition, ResetDepartments;
    LoggedOne(v.events, Event(ResumeTriggered(RevisionResume(mode)), actor), actor);
    var triggered := RecordEvent(v, ResumeTriggered(RevisionResume(mode)), actor);
    MoveLogged(triggered, 0, InDepartments(ResetDepartments(mode)), Pending, reason, actor);
    var reset := ReviseTasks(v, mode, actor, reason);
    LoggedTransitive(v.events, triggered.events, reset.events, actor);
    TransitionLogged(reset, ReadyForPlanning, actor);
    if Transition(reset, ReadyForPlanning, actor).Ok? {
      LoggedTransitive(v.events, reset.events, Transition(reset, ReadyForPlanning, actor).value.events, actor);
    }
    if Transition(reset, InProgress, actor).Ok? {
      ResumedLogged(v.events, reset, launch, inputs, {}, actor, approvalId);
    }
  }

  lemma ReplanLogged(v: Record, actor: Actor, launch: Launch, inputs: seq<ActionInput>, reset: bool, approvalId: nat)
    ensures var o := Replan(v, actor, launch, inputs, reset, approvalId);
      o.saved.Some? ==> LoggedFor(v.events, o.saved.value.events, actor)
  {
    hide LoggedFor, MoveTasks, ExecuteWith, Transition, ResetDepartments;
    LoggedOne(v.events, Event(ReplanningStarted(reset), actor), actor);
    MoveLogged(v, 0, InDepartments(ResetDepartments(Replanning)), Pending, "", actor);
    var moved := if reset then MoveTasks(v, 0, InDepartments(ResetDepartments(Replanning)), Pending, "", actor) else v;
    LoggedOne(moved.events, Event(ReplanningStarted(reset), actor), actor);
    var replanned := ReplanTasks(v, actor, reset);
    LoggedTransitive(v.events, moved.events, replanned.events, actor);
    if Transition(replanned, InProgress, actor).Ok? {
      ResumedLogged(v.events, replanned, launch, inputs, {}, actor, approvalId);
    }
  }

  /** Who acts in a call on an existing project: approvals and rejections are usually given by approvers, and
      operators revise. */
  predicate ActsIn(c: Call, actor: Actor)
    requires !c.StartProject?
  {
    match c
    case ApprovalCall(_, _, caller, _, _, _) => ActsFor(caller, Approver, actor)
    case RejectionCall(_, _, caller, _, _, _) => ActsFor(caller, Approver, actor)
    case RevisionCall(_, _, caller, _, _, _) => ActsFor(caller, Operator, actor)
    case ReplanningCall(_, caller, _, _, _) => ActsFor(caller, Operator, actor)
    case SuccessCall(_, known) => actor == known
    case FailureCall(_) => actor == Actor("anonymous", Viewer, Human)
  }

  /** Every event that a call logs names the one who acts in it. */
  lemma CallActs(v: Record, c: Call, approvalId: nat) returns (actor: Actor)
    requires !c.StartProject?
    ensures ActsIn(c, actor)
    ensures var o := OutcomeOn(v, c, approvalId); o.saved.Some? ==> LoggedFor(v.events, o.saved.value.events, actor)
  {
    hide LoggedFor, ResumeWaiting, RejectWaiting, Revise, Replan, ParseActions, Text.Strip, ActsFor, CoerceActor;
    match c
    case ApprovalCall(_, inputs, caller, note, launch, overrides) =>
      actor := CoerceActor(caller, Approver);
      CoercedActsFor(caller, Approver);
      if ParseActions(inputs).Ok? {
        ResumeWaitingLogged(v, ParseActions(inputs).value, actor, Text.Strip(note), launch, overrides, approvalId);
      }
    case RejectionCall(_, inputs, caller, reason, note, overrides) =>
      actor := CoerceActor(caller, Approver);
      CoercedActsFor(caller, Approver);
      if ParseActions(inputs).Ok? {
        RejectWaitingLogged(v, ParseActions(inputs).value, actor, Text.Strip(reason), Text.Strip(note), overrides);
      }
    case RevisionCall(_, mode, caller, reason, launch, inputs) =>
      actor := CoerceActor(caller, Operator);
      CoercedActsFor(caller, Operator);
      ReviseLogged(v, mode, actor, Text.Strip(reason), launch, inputs, approvalId);
    case ReplanningCall(_, caller, launch, inputs, reset) =>
      actor := CoerceActor(caller, Operator);
      CoercedActsFor(caller, Operator);
      ReplanLogged(v, actor, launch, inputs, reset, approvalId);
    case SuccessCall(_, known) =>
      actor := known;
      AuthenticationLogged(v, known);
    case FailureCall(_) =>
      actor := ANONYMOUS;
      AuthenticationLogged(v, ANONYMOUS);
  }

  lemma AuthenticationLogged(v: Record, actor: Actor)
    ensures LoggedFor(v.events, RecordAuthenticationSuccess(v, actor).saved.value.events, actor)
    ensures LoggedFor(v.events, RecordAuthenticationFailure(v).saved.value.events, ANONYMOUS)
  {
  }

  /** An authentication changes nothing but the log: a success tells of two things about the actor, a failure of one. */
  lemma AuthenticationTells(v: Record, actor: Actor)
    ensures OutcomeOn(v, SuccessCall(v.id, actor), 0) == Outcome(
      Some(v.(events := v.events + [Event(AuthenticationSucceeded, actor), Event(ActorResolved, actor)])), Silent)
    ensures OutcomeOn(v, FailureCall(v.id), 0) == Outcome(
      Some(v.(events := v.events + [Event(AuthenticationFailed, Actor("anonymous", Viewer, Human))])), Silent)
  {
    var one, two := Event(AuthenticationSucceeded, actor), Event(ActorResolved, actor);
    assert v.events + [one] + [two] == v.events + [one, two];
  }

  /** A new project is run by the system. */
  lemma RunActs(id: nat, policy: ProjectPolicy, plan: seq<TaskShape>, launch: Launch, inputs: seq<ActionInput>,
                simulateFailure: bool, approvalId: nat)
    ensures var o := Run(id, policy, plan, launch, inputs, simulateFailure, approvalId);
      o.saved.Some? ==> LoggedFor([], o.saved.value.events, Actor("system", Admin, System))
  {
    hide LoggedFor, Execute, ParseActions;
    if ParseActions(inputs).Ok? && Launched(Drafted(id, policy, plan)).Ok? {
      var w := Launched(Drafted(id, policy, plan)).value;
      LaunchLogged(id, policy, plan);
      ExecuteLogged(w, launch, ParseActions(inputs).value, simulateFailure, SYSTEM_ACTOR, approvalId);
      var o := Execute(w, launch, ParseActions(inputs).value, simulateFailure, SYSTEM_ACTOR, approvalId);
      if o.saved.Some? {
        LoggedTransitive([], w.events, o.saved.value.events, SYSTEM_ACTOR);
      }
    }
  }

  lemma LaunchLogged(id: nat, policy: ProjectPolicy, plan: seq<TaskShape>)
    requires Launched(Drafted(id, policy, plan)).Ok?
    ensures LoggedFor([], Launched(Drafted(id, policy, plan)).value.events, SYSTEM_ACTOR)
  {
  }
}
