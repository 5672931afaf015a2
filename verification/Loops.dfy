/** The loops over approvals and tasks: what they change, and that they keep the audit invariant. */
module Loops {
  import opened Prelude
  import opened Domain
  import opened Workflow
  import opened AuditLog
  import Rules = ApprovalRules

  /******* Authorization *******/

  predicate AuthorizationKind(kind: EventKind) {
    kind.PolicyOverrideApplied? || kind.AuthorizationGranted? || kind.AuthorizationFailed?
  }

  /** `w` is `v` with authorization events appended. */
  predicate OnlyAuthorizes(v: Record, w: Record) {
    && w == v.(events := w.events)
    && v.events <= w.events
    && forall k :: |v.events| <= k < |w.events| ==> AuthorizationKind(w.events[k].kind)
  }

  /** The record of the first step of an authorization, before its verdict is logged. */
  function Evaluated(v: Record, action: ActionType, actor: Actor, overrides: RuntimeOverride): Record {
    if Rules.Authorize(action, actor, v.policy, overrides).effective.overrideApplied
    then RecordEvent(v, PolicyOverrideApplied(action), actor) else v
  }

  /** Every event that `w` has beyond `v` is about one of the actions. */
  predicate Concerns(v: Record, w: Record, actions: seq<ActionType>) {
    && |v.events| <= |w.events|
    && forall k | |v.events| <= k < |w.events| ::
         AuthorizationKind(w.events[k].kind) && w.events[k].kind.action in actions
  }

  /** The actions before `k` were granted, `actions[k]` was denied last of all, and later ones were not looked at. */
  predicate StopsAt(v: Record, r: Authorization, actor: Actor, actions: seq<ActionType>, overrides: RuntimeOverride,
                    k: nat) {
    && k < |actions| && r.denied == Some(actions[k])
    && !Rules.Authorize(actions[k], actor, v.policy, overrides).allowed
    && (forall j | 0 <= j < k :: Rules.Authorize(actions[j], actor, v.policy, overrides).allowed
          && Granted(r.record.events, actions[j], actor))
    && Concerns(v, r.record, actions[..k + 1])
    && |r.record.events| > |v.events|
    && r.record.events[|r.record.events| - 1] == Event(AuthorizationFailed(actions[k]), actor)
  }

  /** Authorization grants every action, or stops at the first one that is denied. */
  lemma {:induction false} AuthorizeAllEffect(v: Record, actor: Actor, actions: seq<ActionType>,
                                              overrides: RuntimeOverride)
    ensures var r := AuthorizeAll(v, actor, actions, overrides);
      && OnlyAuthorizes(v, r.record)
      && (r.denied.None? ==> forall a :: a in actions ==>
            Rules.Authorize(a, actor, v.policy, overrides).allowed && Granted(r.record.events, a, actor))
      && (r.denied.Some? ==> exists k :: StopsAt(v, r, actor, actions, overrides, k))
    decreases |actions|
  {
    hide Rules.Authorize, StopsAt;
    if actions != [] {
      var action := actions[0];
      var w := Evaluated(v, action, actor, overrides);
      var r := AuthorizeAll(v, actor, actions, overrides);
      if Rules.Authorize(action, actor, v.policy, overrides).allowed {
        var granted := RecordEvent(w, AuthorizationGranted(action), actor);
        AuthorizeAllEffect(granted, actor, actions[1..], overrides);
        assert r == AuthorizeAll(granted, actor, actions[1..], overrides);
        assert granted.events[|granted.events| - 1] == Event(AuthorizationGranted(action), actor);
        assert Granted(r.record.events, action, actor);
        if r.denied.Some? {
          var k :| StopsAt(granted, r, actor, actions[1..], overrides, k);
          StopsLater(v, granted, r, actor, actions, overrides, k);
        } else {
          assert forall a :: a in actions <==> a == action || a in actions[1..];
        }
      } else {
        StopsAtOnce(v, actor, actions, overrides);
      }
    }
  }

  lemma StopsAtOnce(v: Record, actor: Actor, actions: seq<ActionType>, overrides: RuntimeOverride)
    requires actions != [] && !Rules.Authorize(actions[0], actor, v.policy, overrides).allowed
    ensures StopsAt(v, AuthorizeAll(v, actor, actions, overrides), actor, actions, overrides, 0)
  {
  }

  lemma StopsLater(v: Record, granted: Record, r: Authorization, actor: Actor, actions: seq<ActionType>,
                   overrides: RuntimeOverride, k: nat)
    requires actions != [] && Rules.Authorize(actions[0], actor, v.policy, overrides).allowed
    requires granted == RecordEvent(Evaluated(v, actions[0], actor, overrides), AuthorizationGranted(actions[0]), actor)
    requires StopsAt(granted, r, actor, actions[1..], overrides, k) && granted.events <= r.record.events
    ensures StopsAt(v, r, actor, actions, overrides, k + 1)
  {
    hide Rules.Authorize;
    assert actions[..k + 2] == [actions[0]] + actions[1..][..k + 1];
    assert granted.events[|granted.events| - 1] == Event(AuthorizationGranted(actions[0]), actor);
    assert forall j | 0 < j <= k + 1 :: actions[j] == actions[1..][j - 1];
    forall m | |v.events| <= m < |r.record.events|
      ensures AuthorizationKind(r.record.events[m].kind) && r.record.events[m].kind.action in actions[..k + 2]
    {
      if m < |granted.events| {
        assert r.record.events[m] == granted.events[m];
      }
    }
  }

  lemma {:induction false} AuthorizeAllKeeps(v: Record, actor: Actor, actions: seq<ActionType>,
                                             overrides: RuntimeOverride)
    requires Audit(v)
    ensures Audit(AuthorizeAll(v, actor, actions, overrides).record)
    ensures Evolves(v, AuthorizeAll(v, actor, actions, overrides).record)
    decreases |actions|
  {
    hide Audit, Evolves;
    EvolvesReflexive(v);
    if actions != [] {
      var action := actions[0];
      var w := Evaluated(v, action, actor, overrides);
      if w != v {
        EventKeeps(v, PolicyOverrideApplied(action), actor);
      }
      if Rules.Authorize(action, actor, v.policy, overrides).allowed {
        EventKeeps(w, AuthorizationGranted(action), actor);
        var granted := RecordEvent(w, AuthorizationGranted(action), actor);
        AuthorizeAllKeeps(granted, actor, actions[1..], overrides);
        EvolvesTransitive(v, w, granted);
        EvolvesTransitive(v, granted, AuthorizeAll(granted, actor, actions[1..], overrides).record);
      } else {
        EventKeeps(w, AuthorizationFailed(action), actor);
        EvolvesTransitive(v, w, RecordEvent(w, AuthorizationFailed(action), actor));
      }
    }
  }

  lemma InOrderExact(actions: set<ActionType>)
    ensures forall a :: a in ActionsInOrder(actions) <==> a in actions
  {
    assert forall a: ActionType :: a in ACTIONS_BY_VALUE by {
      assert ACTIONS_BY_VALUE[0] == BulkModify && ACTIONS_BY_VALUE[1] == DestructiveChange;
      assert ACTIONS_BY_VALUE[2] == ExternalApiSend && ACTIONS_BY_VALUE[3] == ProductionAffectingChange;
      forall a: ActionType
        ensures a in ACTIONS_BY_VALUE
      {
        match a
        case ExternalApiSend =>
        case DestructiveChange =>
        case BulkModify =>
        case ProductionAffectingChange =>
      }
    }
  }

  /******* Approval loops *******/

  /** Everything but approvals, checkpoints and log stays. */
  predicate SameWork(v: Record, w: Record) {
    w == v.(approvals := w.approvals, checkpoints := w.checkpoints, events := w.events)
  }

  predicate SameCheckpointIds(v: Record, w: Record) {
    |w.checkpoints| == |v.checkpoints| && forall k :: 0 <= k < |v.checkpoints| ==>
      w.checkpoints[k].id == v.checkpoints[k].id
  }

  predicate ApprovesFrom(before: seq<Approval>, after: seq<Approval>, i: nat, actions: set<ActionType>, actor: Actor,
                         note: string) {
    && |after| == |before|
    && forall k | 0 <= k < |before| :: after[k] ==
         if i <= k && before[k].status == Undecided && before[k].action in actions
         then ApprovedAs(before[k], actor, note) else before[k]
  }

  lemma UpdateEffect(v: Record, approved: bool, approver: string, note: string)
    ensures var w := UpdateApprovalCheckpoint(v, approved, approver, note);
      w == v.(checkpoints := w.checkpoints) && SameCheckpointIds(v, w)
  {
  }

  lemma {:induction false} ApproveFromEffect(v: Record, i: nat, actions: set<ActionType>, actor: Actor, note: string)
    requires i <= |v.approvals|
    ensures var w := ApproveFrom(v, i, actions, actor, note);
      && SameWork(v, w) && SameCheckpointIds(v, w) && v.events <= w.events
      && ApprovesFrom(v.approvals, w.approvals, i, actions, actor, note)
    decreases |v.approvals| - i
  {
    hide UpdateApprovalCheckpoint;
    if i < |v.approvals| {
      var approval := v.approvals[i];
      if approval.status == Undecided && approval.action in actions {
        var text := if note != "" then note else DEFAULT_APPROVAL_NOTE;
        var noted := UpdateApprovalCheckpoint(v, true, actor.id, text);
        UpdateEffect(v, true, actor.id, text);
        var decided := Decide(noted, i, ApprovedAs(approval, actor, note), ApprovalApproved(approval.action), actor);
        ApproveFromEffect(decided, i + 1, actions, actor, note);
        var w := ApproveFrom(decided, i + 1, actions, actor, note);
        assert w == ApproveFrom(v, i, actions, actor, note);
      } else {
        ApproveFromEffect(v, i + 1, actions, actor, note);
      }
    }
  }

  lemma {:induction false} ApproveFromKeeps(v: Record, i: nat, actions: set<ActionType>, actor: Actor, note: string)
    requires Audit(v) && i <= |v.approvals|
    requires forall a :: a in actions ==> Granted(v.events, a, actor)
    requires actions !! TypesWith(v.approvals, Rejected)
    ensures Audit(ApproveFrom(v, i, actions, actor, note)) && Evolves(v, ApproveFrom(v, i, actions, actor, note))
    decreases |v.approvals| - i
  {
    hide Audit, Evolves;
    EvolvesReflexive(v);
    if i < |v.approvals| {
      var approval := v.approvals[i];
      if approval.status == Undecided && approval.action in actions {
        var noted := UpdateApprovalCheckpoint(v, true, actor.id, if note != "" then note else DEFAULT_APPROVAL_NOTE);
        UnloggedKeeps(v, noted);
        var after := ApprovedAs(approval, actor, note);
        DecideKeeps(noted, i, after, ApprovalApproved(approval.action), actor);
        var decided := Decide(noted, i, after, ApprovalApproved(approval.action), actor);
        EvolvesTransitive(v, noted, decided);
        RejectedTypesStay(v.approvals, i, after);
        ApproveFromKeeps(decided, i + 1, actions, actor, note);
        EvolvesTransitive(v, decided, ApproveFrom(decided, i + 1, actions, actor, note));
      } else {
        ApproveFromKeeps(v, i + 1, actions, actor, note);
      }
    }
  }

  lemma RejectedTypesStay(approvals: seq<Approval>, i: nat, after: Approval)
    requires i < |approvals| && approvals[i].status == Undecided && after.status == Approved
    ensures TypesWith(approvals[i := after], Rejected) <= TypesWith(approvals, Rejected)
  {
  }

  predicate RejectsFrom(before: seq<Approval>, after: seq<Approval>, i: nat, actor: Actor, reason: string,
                        note: string) {
    && |after| == |before|
    && forall k | 0 <= k < |before| :: after[k] ==
         if i <= k && before[k].status == Undecided then RejectedAs(before[k], actor, reason, note) else before[k]
  }

  lemma {:induction false} RejectFromEffect(v: Record, i: nat, named: set<ActionType>, actor: Actor, reason: string,
                                            note: string)
    requires i <= |v.approvals|
    ensures var w := RejectFrom(v, i, named, actor, reason, note);
      && SameWork(v, w) && SameCheckpointIds(v, w) && v.events <= w.events
      && RejectsFrom(v.approvals, w.approvals, i, actor, reason, note)
    decreases |v.approvals| - i
  {
    hide UpdateApprovalCheckpoint, Compose;
    if i < |v.approvals| {
      var approval := v.approvals[i];
      if approval.status == Undecided {
        var decided := Decide(v, i, RejectedAs(approval, actor, reason, note),
          ApprovalRejected(approval.action, approval.action !in named), actor);
        var noted := UpdateApprovalCheckpoint(decided, false, actor.id, Compose(reason, note));
        UpdateEffect(decided, false, actor.id, Compose(reason, note));
        RejectFromEffect(noted, i + 1, named, actor, reason, note);
        var w := RejectFrom(noted, i + 1, named, actor, reason, note);
        assert w == RejectFrom(v, i, named, actor, reason, note);
      } else {
        RejectFromEffect(v, i + 1, named, actor, reason, note);
      }
    }
  }

  lemma {:induction false} RejectFromKeeps(v: Record, i: nat, named: set<ActionType>, actor: Actor, reason: string,
                                           note: string)
    requires Audit(v) && i <= |v.approvals|
    requires forall k :: i <= k < |v.approvals| && v.approvals[k].status == Undecided
               ==> Granted(v.events, v.approvals[k].action, actor)
    ensures Audit(RejectFrom(v, i, named, actor, reason, note))
    ensures Evolves(v, RejectFrom(v, i, named, actor, reason, note))
    decreases |v.approvals| - i
  {
    hide Audit, Evolves;
    EvolvesReflexive(v);
    if i < |v.approvals| {
      var approval := v.approvals[i];
      if approval.status == Undecided {
        var after := RejectedAs(approval, actor, reason, note);
        var kind := ApprovalRejected(approval.action, approval.action !in named);
        DecideKeeps(v, i, after, kind, actor);
        var decided := Decide(v, i, after, kind, actor);
        var noted := UpdateApprovalCheckpoint(decided, false, actor.id, Compose(reason, note));
        UnloggedKeeps(decided, noted);
        EvolvesTransitive(v, decided, noted);
        RejectFromKeeps(noted, i + 1, named, actor, reason, note);
        EvolvesTransitive(v, noted, RejectFrom(noted, i + 1, named, actor, reason, note));
      } else {
        RejectFromKeeps(v, i + 1, named, actor, reason, note);
      }
    }
  }

  /******* The task loop of resets and decisions *******/

  function Moved(which: Selection, task: Task, next: TaskStatus, note: string): Task {
    if Selects(which, task) then task.(status := next, note := if note == "" then task.note else note) else task
  }

  lemma MoveEffect(v: Record, i: nat, which: Selection, next: TaskStatus, note: string, actor: Actor)
    requires i < |v.tasks| && Selects(which, v.tasks[i])
    ensures |SetTaskStatus(v, i, next, actor).tasks| == |v.tasks|
    ensures var w := SetNote(SetTaskStatus(v, i, next, actor), i, note);
      w == v.(tasks := v.tasks[i := Moved(which, v.tasks[i], next, note)], events := w.events) && v.events <= w.events
  {
  }

  lemma {:induction false} MoveTasksEffect(v: Record, i: nat, which: Selection, next: TaskStatus, note: string,
                                           actor: Actor)
    requires i <= |v.tasks|
    ensures var w := MoveTasks(v, i, which, next, note, actor);
      && w == v.(tasks := w.tasks, events := w.events)
      && v.events <= w.events
      && |w.tasks| == |v.tasks|
      && forall k :: 0 <= k < |v.tasks| ==>
           w.tasks[k] == if k < i then v.tasks[k] else Moved(which, v.tasks[k], next, note)
    decreases |v.tasks| - i
  {
    hide SetTaskStatus, SetNote, Selects;
    if i < |v.tasks| {
      if Selects(which, v.tasks[i]) {
        MoveEffect(v, i, which, next, note, actor);
        var u := SetNote(SetTaskStatus(v, i, next, actor), i, note);
        MoveTasksEffect(u, i + 1, which, next, note, actor);
        assert MoveTasks(v, i, which, next, note, actor) == MoveTasks(u, i + 1, which, next, note, actor);
      } else {
        MoveTasksEffect(v, i + 1, which, next, note, actor);
      }
    }
  }

  lemma {:induction false} MoveTasksKeeps(v: Record, i: nat, which: Selection, next: TaskStatus, note: string,
                                          actor: Actor)
    requires Audit(v) && i <= |v.tasks| && next != Started
    ensures Audit(MoveTasks(v, i, which, next, note, actor)) && Evolves(v, MoveTasks(v, i, which, next, note, actor))
    decreases |v.tasks| - i
  {
    hide Audit, Evolves;
    EvolvesReflexive(v);
    if i < |v.tasks| {
      if Selects(which, v.tasks[i]) {
        var u := SetTaskStatus(v, i, next, actor);
        SetTaskStatusKeeps(v, i, next, actor);
        var w := SetNote(u, i, note);
        UnloggedKeeps(u, w);
        EvolvesTransitive(v, u, w);
        MoveTasksKeeps(w, i + 1, which, next, note, actor);
        EvolvesTransitive(v, w, MoveTasks(w, i + 1, which, next, note, actor));
      } else {
        MoveTasksKeeps(v, i + 1, which, next, note, actor);
      }
    }
  }
}
