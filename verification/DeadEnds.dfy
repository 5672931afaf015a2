/** Which waiting projects of a history can still be completed, whatever types of approval they wait for. */
module DeadEnds {
  import opened Prelude
  import opened Domain
  import opened Workflow
  import AuditLog
  import opened Loops
  import opened Calls
  import opened Soundness
  import opened SoundCalls
  import opened Histories
  import Rules = ApprovalRules
  import Text

  function UndecidedTypes(v: Record): set<ActionType> {
    TypesWith(v.approvals, Undecided)
  }

  function ApprovedTypes(v: Record): set<ActionType> {
    TypesWith(v.approvals, Approved)
  }

  function RejectedTypes(v: Record): set<ActionType> {
    TypesWith(v.approvals, Rejected)
  }

  /** Everything that is undecided can be approved: nothing of it was rejected before, and the policy admits someone. */
  predicate Approvable(v: Record) {
    && UndecidedTypes(v) * RejectedTypes(v) == {}
    && forall a :: a in UndecidedTypes(v) - ApprovedTypes(v) ==> !Rules.Closed(v.policy, a)
  }

  /** The undecided types that no approval can decide. */
  function FixedTypes(v: Record): set<ActionType> {
    set a | a in UndecidedTypes(v) && (a in ApprovedTypes(v) || a in RejectedTypes(v) || Rules.Closed(v.policy, a))
  }

  predicate AllowsAll(v: Record, actions: set<ActionType>, actor: Actor, overrides: RuntimeOverride) {
    forall a :: a in actions ==> Rules.Authorize(a, actor, v.policy, overrides).allowed
  }

  /** One actor may decide at once all that no approval can decide. */
  ghost predicate Rejectable(v: Record) {
    exists actor, overrides :: AllowsAll(v, FixedTypes(v), actor, overrides)
  }

  /** The project waits for decisions that can neither all be given nor all be refused. */
  ghost predicate Stalled(v: Record) {
    v.status == WaitingApproval && HasUndecided(v.approvals) && !Approvable(v) && !Rejectable(v)
  }

  /** The project waits for an action that the policy gives to nobody. */
  predicate Locked(v: Record, a: ActionType) {
    && v.status == WaitingApproval
    && a in UndecidedTypes(v) && a !in ApprovedTypes(v) && Rules.Closed(v.policy, a)
  }

  /******* Who may decide several actions at once *******/

  /** The roles of an actor with the given role who is the project's owner, if it has one. */
  function RolesAtBest(policy: ProjectPolicy, role: ActorRole): set<ActorRole> {
    if policy.owner.Some? && Text.Strip(policy.owner.value) != "" then {role, Owner} else {role}
  }

  /** One role, with the ownership where there is one, is admitted for every one of the actions. */
  predicate ShareRole(policy: ProjectPolicy, actions: set<ActionType>) {
    exists role :: role != Viewer && AdmittedForAll(policy, actions, role)
  }

  predicate AdmittedForAll(policy: ProjectPolicy, actions: set<ActionType>, role: ActorRole) {
    forall a :: a in actions ==> Rules.RolesFor(policy, a) * RolesAtBest(policy, role) != {}
  }

  /** The override dictionary that names one actor for every action. */
  function OnlyThisActor(id: string): RuntimeOverride {
    seq(|ACTIONS_BY_VALUE|, i requires 0 <= i < |ACTIONS_BY_VALUE| => (ActionValue(ACTIONS_BY_VALUE[i]), IdList([id])))
  }

  lemma OnlyThisActorFound(id: string, a: ActionType)
    ensures Rules.RuntimeIdsFor(OnlyThisActor(id), a) == Some([id])
  {
    hide ActionValue;
    var entries := OnlyThisActor(id);
    assert a in ACTIONS_BY_VALUE by {
      InOrderExact({a});
      assert a in ActionsInOrder({a});
    }
    var k :| 0 <= k < |ACTIONS_BY_VALUE| && ACTIONS_BY_VALUE[k] == a;
    assert Rules.KeyMatches(entries[k].0, ActionValue(a), true);
    Rules.FoundIsEntry(entries, ActionValue(a), true);
  }

  /** Who, at best, decides with the given role. */
  function AtBest(policy: ProjectPolicy, role: ActorRole): Actor {
    Actor(
      if policy.owner.Some? && Text.Strip(policy.owner.value) != "" then Text.Strip(policy.owner.value) else "chosen",
      role, Human)
  }

  lemma AtBestAllowed(policy: ProjectPolicy, a: ActionType, role: ActorRole)
    requires role != Viewer && Rules.RolesFor(policy, a) * RolesAtBest(policy, role) != {}
    ensures var actor := AtBest(policy, role);
      Rules.Authorize(a, actor, policy, OnlyThisActor(actor.id)).allowed
  {
    hide Rules.RolesFor, Rules.RuntimeIdsFor, OnlyThisActor, Text.Strip, Rules.RuleFor;
    var actor := AtBest(policy, role);
    if policy.owner.Some? {
      Text.StripTrims(policy.owner.value);
      Text.StripTrims(Text.Strip(policy.owner.value));
    }
    Text.PlainStays("chosen");
    OnlyThisActorFound(actor.id, a);
    Rules.RolesEmpty(policy, a);
    assert actor.id in [actor.id] && actor.id in Rules.NormalizedIds([actor.id]);
    assert Rules.RolesOf(actor, policy.owner) == RolesAtBest(policy, role);
  }

  /** Whether one actor may refuse the rest can be read off the roles of the policy. */
  lemma RejectableExactly(v: Record)
    ensures Rejectable(v) <==> ShareRole(v.policy, FixedTypes(v))
  {
    hide Rules.Authorize, Rules.RolesFor, FixedTypes, Text.Strip;
    if actor, overrides :| AllowsAll(v, FixedTypes(v), actor, overrides) {
      if FixedTypes(v) == {} {
        assert AdmittedForAll(v.policy, FixedTypes(v), Admin);
      } else {
        forall a | a in FixedTypes(v)
          ensures actor.role != Viewer && Rules.RolesFor(v.policy, a) * RolesAtBest(v.policy, actor.role) != {}
        {
          Rules.OverrideNeverAddsRoles(a, actor, v.policy, overrides);
          assert Rules.RolesOf(actor, v.policy.owner) <= RolesAtBest(v.policy, actor.role);
        }
        assert AdmittedForAll(v.policy, FixedTypes(v), actor.role);
      }
    }
    if ShareRole(v.policy, FixedTypes(v)) {
      var role :| role != Viewer && AdmittedForAll(v.policy, FixedTypes(v), role);
      var actor := AtBest(v.policy, role);
      forall a | a in FixedTypes(v)
        ensures Rules.Authorize(a, actor, v.policy, OnlyThisActor(actor.id)).allowed
      {
        AtBestAllowed(v.policy, a, role);
      }
      assert AllowsAll(v, FixedTypes(v), actor, OnlyThisActor(actor.id));
    }
  }

  /******* What a call can do to a stalled project *******/

  /** The types `p` were approved, by actors whom the policy admits, and others are still undecided. */
  predicate Advances(v: Record, w: Record, p: set<ActionType>) {
    && w.status == v.status && w.policy == v.policy
    && p <= UndecidedTypes(v) && p !! ApprovedTypes(v) && p !! RejectedTypes(v)
    && (forall a :: a in p ==> !Rules.Closed(v.policy, a))
    && UndecidedTypes(w) == UndecidedTypes(v) - p != {}
    && ApprovedTypes(w) == ApprovedTypes(v) + p && RejectedTypes(w) == RejectedTypes(v)
  }

  /** Approving some types changes nothing about the rest. */
  lemma AdvancesKeeps(v: Record, w: Record, p: set<ActionType>)
    requires Advances(v, w, p)
    ensures Approvable(w) <==> Approvable(v)
    ensures FixedTypes(w) == FixedTypes(v) && (Rejectable(w) <==> Rejectable(v))
    ensures HasUndecided(w.approvals)
  {
    hide Rules.Closed, Rules.Authorize, TypesWith;
    UndecidedExists(w.approvals);
    assert UndecidedTypes(w) - ApprovedTypes(w) == UndecidedTypes(v) - ApprovedTypes(v) - p;
    assert UndecidedTypes(w) * RejectedTypes(w) == UndecidedTypes(v) * RejectedTypes(v);
    assert FixedTypes(w) == FixedTypes(v);
    forall actor, overrides
      ensures AllowsAll(w, FixedTypes(w), actor, overrides) <==> AllowsAll(v, FixedTypes(v), actor, overrides)
    {
    }
  }

  lemma UndecidedExists(approvals: seq<Approval>)
    ensures HasUndecided(approvals) <==> TypesWith(approvals, Undecided) != {}
  {
    if a :| a in approvals && a.status == Undecided {
      assert a.action in TypesWith(approvals, Undecided);
    }
  }

  /** The types after the loop over the approvals. */
  lemma TypesApproved(before: seq<Approval>, after: seq<Approval>, actions: set<ActionType>, actor: Actor, note: string)
    requires ApprovesFrom(before, after, 0, actions, actor, note)
    ensures TypesWith(after, Undecided) == TypesWith(before, Undecided) - actions
    ensures TypesWith(after, Approved) == TypesWith(before, Approved) + TypesWith(before, Undecided) * actions
    ensures TypesWith(after, Rejected) == TypesWith(before, Rejected)
  {
    forall status, a
      ensures a in TypesWith(after, status) <==>
        exists k :: 0 <= k < |before| && after[k].status == status && after[k].action == a
      ensures a in TypesWith(before, status) <==>
        exists k :: 0 <= k < |before| && before[k].status == status && before[k].action == a
    {
      TypeAt(after, status, a);
      TypeAt(before, status, a);
    }
  }

  lemma TypeAt(approvals: seq<Approval>, status: ApprovalStatus, a: ActionType)
    ensures a in TypesWith(approvals, status) <==>
      exists k :: 0 <= k < |approvals| && approvals[k].status == status && approvals[k].action == a
  {
    if a in TypesWith(approvals, status) {
      var x :| x in approvals && x.status == status && x.action == a;
      var k :| 0 <= k < |approvals| && approvals[k] == x;
    }
    if k :| 0 <= k < |approvals| && approvals[k].status == status && approvals[k].action == a {
      assert approvals[k] in approvals;
    }
  }

  lemma LoggingAdvances(v: Record, w: Record)
    requires w == v.(events := w.events) && HasUndecided(v.approvals)
    ensures Advances(v, w, {})
  {
    hide TypesWith, Rules.Closed;
    UndecidedExists(v.approvals);
    assert UndecidedTypes(w) == UndecidedTypes(v) - {};
    assert ApprovedTypes(w) == ApprovedTypes(v) + {};
  }

  /** Whoever is authorized for an action shows that the policy does not lock it. */
  lemma AllowedIsOpen(v: Record, actions: set<ActionType>, actor: Actor, overrides: RuntimeOverride)
    requires AllowsAll(v, actions, actor, overrides)
    ensures forall a :: a in actions ==> !Rules.Closed(v.policy, a)
  {
    hide Rules.Authorize, Rules.Closed;
    forall a | a in actions
      ensures !Rules.Closed(v.policy, a)
    {
      Rules.ClosedExactly(v.policy, a);
    }
  }

  /** An authorization of a set of actions is not denied exactly when every one of them is allowed. */
  lemma AuthorizesAll(v: Record, actions: set<ActionType>, actor: Actor, overrides: RuntimeOverride)
    ensures var r := AuthorizeAll(v, actor, ActionsInOrder(actions), overrides);
      && r.record == v.(events := r.record.events)
      && (r.denied.None? <==> AllowsAll(v, actions, actor, overrides))
  {
    hide Rules.Authorize, AuthorizeAll, ActionsInOrder;
    InOrderExact(actions);
    var ordered := ActionsInOrder(actions);
    AuthorizeAllEffect(v, actor, ordered, overrides);
    var r := AuthorizeAll(v, actor, ordered, overrides);
    if r.denied.Some? {
      var k: nat :| StopsAt(v, r, actor, ordered, overrides, k);
      assert ordered[k] in ordered;
    }
  }

  /** Approving the given types of a record from `u` on. */
  lemma ApprovalAdvances(v: Record, u: Record, p: set<ActionType>, actor: Actor, note: string,
                         overrides: RuntimeOverride)
    requires u == v.(events := u.events) && AllowsAll(v, p, actor, overrides)
    requires p <= UndecidedTypes(v) && p !! ApprovedTypes(v) && p !! RejectedTypes(v) && UndecidedTypes(v) - p != {}
    ensures Advances(v, ApproveFrom(u, 0, p, actor, note), p)
  {
    hide ApproveFrom, TypesWith, Rules.Closed, Rules.Authorize;
    ApproveFromEffect(u, 0, p, actor, note);
    var w := ApproveFrom(u, 0, p, actor, note);
    TypesApproved(v.approvals, w.approvals, p, actor, note);
    AllowedIsOpen(v, p, actor, overrides);
    assert UndecidedTypes(v) * p == p;
  }

  /** An approval of a record that is not approvable as a whole decides a part of it, logs a denial, or
      changes nothing. */
  lemma ResumptionAdvances(v: Record, requested: set<ActionType>, actor: Actor, note: string, launch: Launch,
                           overrides: RuntimeOverride, approvalId: nat)
    requires v.status == WaitingApproval && HasUndecided(v.approvals) && !Approvable(v)
    requires ValidateRequest(requested, v.approvals).None?
    ensures var o := ResumeWaiting(v, requested, actor, note, launch, overrides, approvalId);
      o.saved.Some? ==> exists p :: Advances(v, o.saved.value, p)
  {
    hide AuthorizeAll, ApproveFrom, ActionsInOrder, TypesWith, ValidateRequest, Rules.Authorize, Rules.Closed, Execute;
    hide Released, Transition, AllowsAll, Advances, Approvable;
    var p := requested - ApprovedTypes(v);
    RequestIsUndecided(requested, v.approvals);
    AuthorizesAll(v, p, actor, overrides);
    var r := AuthorizeAll(v, actor, ActionsInOrder(p), overrides);
    if r.denied.Some? {
      LoggingAdvances(v, r.record);
    } else if UndecidedTypes(v) - requested != {} {
      assert UndecidedTypes(v) - p != {} by {
        var a :| a in UndecidedTypes(v) - requested;
        assert a in UndecidedTypes(v) - p;
      }
      ApprovalAdvances(v, r.record, p, actor, note, overrides);
      var w := ApproveFrom(r.record, 0, p, actor, note);
      LogAfterAdvance(v, w, RecordEvent(w, ResumeTriggered(ApprovalResumePartial), actor), p);
    } else {
      WholeIsApprovable(v, requested, actor, overrides);
    }
  }

  lemma LogAfterAdvance(v: Record, u: Record, w: Record, p: set<ActionType>)
    requires Advances(v, u, p) && w == u.(events := w.events)
    ensures Advances(v, w, p)
  {
    hide TypesWith, Rules.Closed;
  }

  /** A valid request for everything that is undecided, made by someone authorized, finds the record approvable. */
  lemma WholeIsApprovable(v: Record, requested: set<ActionType>, actor: Actor, overrides: RuntimeOverride)
    requires requested !! RejectedTypes(v) && UndecidedTypes(v) - requested == {}
    requires AllowsAll(v, requested - ApprovedTypes(v), actor, overrides)
    ensures Approvable(v)
  {
    hide TypesWith, Rules.Closed, Rules.Authorize;
    AllowedIsOpen(v, requested - ApprovedTypes(v), actor, overrides);
    assert UndecidedTypes(v) <= requested by {
      forall a | a in UndecidedTypes(v)
        ensures a in requested
      {
        assert a !in UndecidedTypes(v) - requested;
      }
    }
  }

  lemma WholeIsRejectable(v: Record, actor: Actor, overrides: RuntimeOverride)
    requires AllowsAll(v, UndecidedTypes(v), actor, overrides)
    ensures Rejectable(v)
  {
    hide TypesWith, Rules.Closed, Rules.Authorize;
    assert AllowsAll(v, FixedTypes(v), actor, overrides);
  }

  /** A rejection by someone who may not decide everything only logs the denial. */
  lemma RejectionAdvances(v: Record, named: set<ActionType>, actor: Actor, reason: string, note: string,
                          overrides: RuntimeOverride)
    requires v.status == WaitingApproval && HasUndecided(v.approvals) && !Rejectable(v)
    ensures var o := RejectWaiting(v, named, actor, reason, note, overrides);
      o.saved.Some? ==> Advances(v, o.saved.value, {})
  {
    hide AuthorizeAll, ActionsInOrder, TypesWith, Rules.Authorize, Rules.Closed, RejectFrom, MoveTasks, Transition;
    hide Advances;
    AuthorizesAll(v, UndecidedTypes(v), actor, overrides);
    var r := AuthorizeAll(v, actor, ActionsInOrder(UndecidedTypes(v)), overrides);
    if r.denied.Some? {
      LoggingAdvances(v, r.record);
    } else {
      WholeIsRejectable(v, actor, overrides);
    }
  }

  /** Whatever is called on a stalled record, some types are approved, or only the log grows. */
  lemma CallAdvances(v: Record, c: Call, approvalId: nat)
    requires Stalled(v) && !c.StartProject?
    ensures var o := OutcomeOn(v, c, approvalId);
      o.saved.Some? ==> exists p :: Advances(v, o.saved.value, p)
  {
    hide ResumeWaiting, RejectWaiting, ParseActions, ValidateRequest, Approvable, Rejectable, Advances, TypesWith;
    hide Text.Strip;
    match c
    case ApprovalCall(_, inputs, caller, note, launch, overrides) =>
      if ParseActions(inputs).Ok? && ValidateRequest(ParseActions(inputs).value, v.approvals).None? {
        ResumptionAdvances(v, ParseActions(inputs).value, CoerceActor(caller, Approver), Text.Strip(note), launch,
          overrides, approvalId);
      }
    case RejectionCall(_, inputs, caller, reason, note, overrides) =>
      if ParseActions(inputs).Ok? {
        RejectionAdvances(v, ParseActions(inputs).value, CoerceActor(caller, Approver), Text.Strip(reason),
          Text.Strip(note), overrides);
      }
    case SuccessCall(_, actor) => LoggingAdvances(v, RecordAuthenticationSuccess(v, actor).saved.value);
    case FailureCall(_) => LoggingAdvances(v, RecordAuthenticationFailure(v).saved.value);
    case _ =>
  }

  /******* Forever *******/

  /** One more request stalls a project no less. */
  lemma FilingStalls(v: Record, approvalId: nat, action: ActionType, requester: string)
    requires Stalled(v)
    ensures Stalled(File(v, approvalId, action, requester))
    ensures forall a :: Locked(v, a) ==> Locked(File(v, approvalId, action, requester), a)
  {
    hide Rules.Closed, Rules.Authorize, TypesWith;
    var w := File(v, approvalId, action, requester);
    TypesFiled(v, approvalId, action, requester);
    UndecidedExists(v.approvals);
    UndecidedExists(w.approvals);
    assert action in UndecidedTypes(w);
    assert FixedTypes(v) <= FixedTypes(w);
    if Approvable(w) {
      ApprovableBefore(v, w);
    }
    if Rejectable(w) {
      RejectableBefore(v, w);
    }
  }

  lemma RejectableBefore(v: Record, w: Record)
    requires Rejectable(w) && w.policy == v.policy && FixedTypes(v) <= FixedTypes(w)
    ensures Rejectable(v)
  {
    hide FixedTypes, Rules.Authorize;
    var actor, overrides :| AllowsAll(w, FixedTypes(w), actor, overrides);
    assert AllowsAll(v, FixedTypes(v), actor, overrides);
  }

  lemma ApprovableBefore(v: Record, w: Record)
    requires Approvable(w) && w.policy == v.policy
    requires UndecidedTypes(v) <= UndecidedTypes(w) && ApprovedTypes(w) == ApprovedTypes(v)
    requires RejectedTypes(w) == RejectedTypes(v)
    ensures Approvable(v)
  {
    hide Rules.Closed, TypesWith;
    assert UndecidedTypes(v) * RejectedTypes(v) <= UndecidedTypes(w) * RejectedTypes(w);
  }

  lemma TypesFiled(v: Record, approvalId: nat, action: ActionType, requester: string)
    ensures var w := File(v, approvalId, action, requester);
      && w.status == v.status && w.policy == v.policy
      && UndecidedTypes(w) == UndecidedTypes(v) + {action}
      && ApprovedTypes(w) == ApprovedTypes(v) && RejectedTypes(w) == RejectedTypes(v)
  {
    var a := Approval(approvalId, action, Undecided, requester, "");
    assert forall x :: x in v.approvals + [a] <==> x in v.approvals || x == a;
  }

  /** No step changes that a project is stalled, nor that it is locked. */
  lemma StepStalls(plan: seq<TaskShape>, w: World, s: Step, vouched: set<nat>, id: nat)
    requires OrderedPlan(plan) && SoundWorld(w, vouched) && id in w.store && Stalled(w.store[id])
    ensures id in Advance(plan, w, s).store && Stalled(Advance(plan, w, s).store[id])
    ensures forall a :: Locked(w.store[id], a) ==> Locked(Advance(plan, w, s).store[id], a)
  {
    hide OrderedPlan, Sound, Gated, OutcomeOn, Run, PreApproves, Approvable, Rejectable, TypesWith, Rules.Closed;
    hide AuditLog.Extends, AuditLog.SameLedger, FixedTypes;
    match s
    case Called(c) =>
      CallStep(plan, w, c, vouched);
      if OutcomeOf(plan, w, c).saved.Some? && Target(w, c) == id {
        CallAdvances(w.store[id], c, w.next + 1);
        var p :| Advances(w.store[id], OutcomeOf(plan, w, c).saved.value, p);
        AdvancesKeeps(w.store[id], OutcomeOf(plan, w, c).saved.value, p);
      }
    case Filed(filed, action, requester) =>
      if filed == id {
        FilingStalls(w.store[id], w.next + 1, action, requester);
      } else if filed in w.store {
        FileKeepsId(w.store[filed], w.next + 1, action, requester);
      }
  }

  /** A stalled project of a history stays stalled under every continuation, and a locked one stays locked. */
  lemma {:induction false} StalledForever(plan: seq<TaskShape>, start: World, steps: seq<Step>, vouched: set<nat>,
                                          id: nat)
    requires OrderedPlan(plan) && SoundWorld(start, vouched) && id in start.store && Stalled(start.store[id])
    ensures id in Reached(plan, start, steps).store && Stalled(Reached(plan, start, steps).store[id])
    ensures forall a :: Locked(start.store[id], a) ==> Locked(Reached(plan, start, steps).store[id], a)
  {
    hide OrderedPlan, SoundWorld, Stalled, Locked, Advance;
    if steps != [] {
      var before := steps[..|steps| - 1];
      StalledForever(plan, start, before, vouched, id);
      ReachedSound(plan, start, before, vouched);
      StepStalls(plan, Reached(plan, start, before), steps[|steps| - 1], Vouched(plan, start, before, vouched), id);
    }
  }

  lemma LockedStalls(v: Record, a: ActionType)
    requires Locked(v, a)
    ensures Stalled(v)
  {
    hide Rules.Authorize, TypesWith, Rules.Closed;
    UndecidedExists(v.approvals);
    assert a in UndecidedTypes(v) - ApprovedTypes(v);
    assert a in FixedTypes(v);
    if Rejectable(v) {
      var actor, overrides :| AllowsAll(v, FixedTypes(v), actor, overrides);
      AllowedIsOpen(v, FixedTypes(v), actor, overrides);
    }
  }

  /** A project that waits for an action which the policy gives to nobody waits for it under every continuation. */
  lemma LockedForever(plan: seq<TaskShape>, start: World, steps: seq<Step>, vouched: set<nat>, id: nat, a: ActionType)
    requires OrderedPlan(plan) && SoundWorld(start, vouched) && id in start.store && Locked(start.store[id], a)
    ensures id in Reached(plan, start, steps).store && Locked(Reached(plan, start, steps).store[id], a)
  {
    hide OrderedPlan, SoundWorld, Stalled, Locked, Reached;
    LockedStalls(start.store[id], a);
    StalledForever(plan, start, steps, vouched, id);
  }
}
