/** What an approval and a rejection make of the record that waits for them, and which requests they refuse. */
module Decisions {
  import opened Prelude
  import opened Domain
  import opened Workflow
  import opened AuditLog
  import opened Loops
  import opened Calls
  import opened Work
  import opened Authority
  import Rules = ApprovalRules
  import Text

  predicate HasType(v: Record, a: ActionType, status: ApprovalStatus) {
    exists k :: 0 <= k < |v.approvals| && v.approvals[k].action == a && v.approvals[k].status == status
  }

  lemma TypeHas(v: Record, a: ActionType, status: ApprovalStatus)
    ensures a in TypesWith(v.approvals, status) <==> HasType(v, a, status)
  {
    if a in TypesWith(v.approvals, status) {
      var x :| x in v.approvals && x.status == status && x.action == a;
      var k :| 0 <= k < |v.approvals| && v.approvals[k] == x;
    }
    if k :| 0 <= k < |v.approvals| && v.approvals[k].action == a && v.approvals[k].status == status {
      assert v.approvals[k] in v.approvals;
    }
  }

  /******* Checkpoints *******/

  /** The first approval checkpoint, if there is one, says who decided and how; the others are as before. */
  predicate Notes(before: seq<Checkpoint>, after: seq<Checkpoint>, id: nat, approved: bool, approver: string,
                  note: string) {
    && |after| == |before|
    && forall k | 0 <= k < |before| :: after[k] ==
         if before[k].id == ApprovalOf(id) && (forall j :: 0 <= j < k ==> before[j].id != ApprovalOf(id))
         then Checkpoint(ApprovalOf(id), approved, approver, note) else before[k]
  }

  lemma UpdateNotes(v: Record, approved: bool, approver: string, note: string)
    ensures var w := UpdateApprovalCheckpoint(v, approved, approver, note);
      w == v.(checkpoints := w.checkpoints) && Notes(v.checkpoints, w.checkpoints, v.id, approved, approver, note)
  {
  }

  /** Noting the same decision once more changes nothing. */
  lemma NotesTwice(a: seq<Checkpoint>, b: seq<Checkpoint>, c: seq<Checkpoint>, id: nat, approved: bool,
                   approver: string,
                   note: string)
    requires Notes(a, b, id, approved, approver, note) && Notes(b, c, id, approved, approver, note)
    ensures b == c
  {
    forall k | 0 <= k < |a|
      ensures b[k].id == a[k].id
    {
    }
  }

  /******* Loops *******/

  /** The decisions that the log tells of, in order. */
  function DecisionsIn(es: seq<Event>): seq<EventKind> {
    if es == [] then []
    else
      var kind := es[|es| - 1].kind;
      DecisionsIn(es[..|es| - 1]) + if kind.ApprovalApproved? || kind.ApprovalRejected? then [kind] else []
  }

  lemma DecisionsSnoc(es: seq<Event>, e: Event)
    ensures DecisionsIn(es + [e]) ==
      DecisionsIn(es) + if e.kind.ApprovalApproved? || e.kind.ApprovalRejected? then [e.kind] else []
  {
    Snoc(es, e);
  }

  /** The undecided approvals of the given types, in order, as events. */
  function Approving(approvals: seq<Approval>, actions: set<ActionType>): seq<EventKind> {
    if approvals == [] then []
    else
      (if approvals[0].status == Undecided && approvals[0].action in actions
       then [ApprovalApproved(approvals[0].action)] else []) + Approving(approvals[1..], actions)
  }

  /** All undecided approvals, in order, as events; what was not named is closed along. */
  function Rejecting(approvals: seq<Approval>, named: set<ActionType>): seq<EventKind> {
    if approvals == [] then []
    else
      (if approvals[0].status == Undecided
       then [ApprovalRejected(approvals[0].action, approvals[0].action !in named)]
         else []) + Rejecting(approvals[1..], named)
  }

  lemma {:induction false} ApproveNotes(v: Record, i: nat, actions: set<ActionType>, actor: Actor, note: string)
    requires i <= |v.approvals|
    ensures var w := ApproveFrom(v, i, actions, actor, note);
      && DecisionsIn(w.events) == DecisionsIn(v.events) + Approving(v.approvals[i..], actions)
      && if Approving(v.approvals[i..], actions) == [] then w.checkpoints == v.checkpoints
         else Notes(v.checkpoints, w.checkpoints, v.id, true, actor.id,
           if note == "" then DEFAULT_APPROVAL_NOTE else note)
    decreases |v.approvals| - i
  {
    hide Notes, UpdateApprovalCheckpoint, DecisionsIn, DEFAULT_APPROVAL_NOTE;
    if i < |v.approvals| {
      var approval := v.approvals[i];
      assert v.approvals[i..][0] == approval && v.approvals[i..][1..] == v.approvals[i + 1..];
      if approval.status == Undecided && approval.action in actions {
        var text := if note != "" then note else DEFAULT_APPROVAL_NOTE;
        UpdateNotes(v, true, actor.id, text);
        var noted := UpdateApprovalCheckpoint(v, true, actor.id, text);
        var w := Decide(noted, i, ApprovedAs(approval, actor, note), ApprovalApproved(approval.action), actor);
        DecisionsSnoc(v.events, Event(ApprovalApproved(approval.action), actor));
        assert w.approvals[i + 1..] == v.approvals[i + 1..];
        ApproveNotes(w, i + 1, actions, actor, note);
        if Approving(v.approvals[i + 1..], actions) != [] {
          NotesTwice(v.checkpoints, w.checkpoints, ApproveFrom(w, i + 1, actions, actor, note).checkpoints, v.id, true,
            actor.id, text);
        }
      } else {
        ApproveNotes(v, i + 1, actions, actor, note);
      }
    }
  }

  lemma {:induction false} RejectNotes(v: Record, i: nat, named: set<ActionType>, actor: Actor, reason: string,
                                       note: string)
    requires i <= |v.approvals|
    ensures var w := RejectFrom(v, i, named, actor, reason, note);
      && DecisionsIn(w.events) == DecisionsIn(v.events) + Rejecting(v.approvals[i..], named)
      && if Rejecting(v.approvals[i..], named) == [] then w.checkpoints == v.checkpoints
         else Notes(v.checkpoints, w.checkpoints, v.id, false, actor.id, Compose(reason, note))
    decreases |v.approvals| - i
  {
    hide Notes, UpdateApprovalCheckpoint, DecisionsIn, Compose;
    if i < |v.approvals| {
      var approval := v.approvals[i];
      assert v.approvals[i..][0] == approval && v.approvals[i..][1..] == v.approvals[i + 1..];
      if approval.status == Undecided {
        var kind := ApprovalRejected(approval.action, approval.action !in named);
        var decided := Decide(v, i, RejectedAs(approval, actor, reason, note), kind, actor);
        UpdateNotes(decided, false, actor.id, Compose(reason, note));
        var w := UpdateApprovalCheckpoint(decided, false, actor.id, Compose(reason, note));
        DecisionsSnoc(v.events, Event(kind, actor));
        assert w.approvals[i + 1..] == v.approvals[i + 1..];
        RejectNotes(w, i + 1, named, actor, reason, note);
        if Rejecting(v.approvals[i + 1..], named) != [] {
          NotesTwice(v.checkpoints, w.checkpoints, RejectFrom(w, i + 1, named, actor, reason, note).checkpoints, v.id,
            false, actor.id, Compose(reason, note));
        }
      } else {
        RejectNotes(v, i + 1, named, actor, reason, note);
      }
    }
  }

  lemma {:induction false} QuietSuffix(es: seq<Event>, more: seq<Event>)
    requires forall k :: 0 <= k < |more| ==> !more[k].kind.ApprovalApproved? && !more[k].kind.ApprovalRejected?
    ensures DecisionsIn(es + more) == DecisionsIn(es)
    decreases |more|
  {
    if more == [] {
      assert es + more == es;
    } else {
      var n := |more| - 1;
      assert es + more == (es + more[..n]) + [more[n]];
      DecisionsSnoc(es + more[..n], more[n]);
      QuietSuffix(es, more[..n]);
    }
  }

  lemma AuthorizationIsQuiet(v: Record, w: Record)
    requires OnlyAuthorizes(v, w)
    ensures DecisionsIn(w.events) == DecisionsIn(v.events)
  {
    var more := w.events[|v.events|..];
    assert w.events == v.events + more;
    QuietSuffix(v.events, more);
  }

  lemma QuietStep(v: Record, kind: EventKind, actor: Actor)
    requires !kind.ApprovalApproved? && !kind.ApprovalRejected?
    ensures DecisionsIn(RecordEvent(v, kind, actor).events) == DecisionsIn(v.events)
  {
    DecisionsSnoc(v.events, Event(kind, actor));
  }

  lemma {:induction false} MovingIsQuiet(v: Record, i: nat, which: Selection, next: TaskStatus, note: string,
                                         actor: Actor)
    requires i <= |v.tasks|
    ensures DecisionsIn(MoveTasks(v, i, which, next, note, actor).events) == DecisionsIn(v.events)
    decreases |v.tasks| - i
  {
    hide DecisionsIn, SetTaskStatus, Selects;
    if i < |v.tasks| {
      if Selects(which, v.tasks[i]) {
        MoveEffect(v, i, which, next, note, actor);
        StatusIsQuiet(v, i, next, actor);
        MovingIsQuiet(SetNote(SetTaskStatus(v, i, next, actor), i, note), i + 1, which, next, note, actor);
      } else {
        MovingIsQuiet(v, i + 1, which, next, note, actor);
      }
    }
  }

  lemma StatusIsQuiet(v: Record, i: nat, next: TaskStatus, actor: Actor)
    requires i < |v.tasks|
    ensures DecisionsIn(SetTaskStatus(v, i, next, actor).events) == DecisionsIn(v.events)
  {
    hide DecisionsIn;
    QuietStep(v, TaskStatusChanged(v.tasks[i].id, v.tasks[i].status, next), actor);
  }

  /******* What a decision changes *******/

  /** The undecided approvals of the given types are approved by the actor; the others are as before. */
  predicate Approves(before: seq<Approval>, after: seq<Approval>, actions: set<ActionType>, actor: Actor,
                     note: string) {
    && |after| == |before|
    && forall k | 0 <= k < |before| :: after[k] ==
         if before[k].status == Undecided && before[k].action in actions
         then Approval(before[k].id, before[k].action, Approved, actor.id, note) else before[k]
  }

  /** All undecided approvals are rejected by the actor; the others are as before. */
  predicate Rejects(before: seq<Approval>, after: seq<Approval>, actor: Actor, note: string) {
    && |after| == |before|
    && forall k | 0 <= k < |before| :: after[k] ==
         if before[k].status == Undecided then Approval(before[k].id, before[k].action, Rejected, actor.id, note)
         else before[k]
  }

  /** The tasks that waited take the status, and the note if there is one; the others are as before. */
  predicate Wakes(before: seq<Task>, after: seq<Task>, next: TaskStatus, note: string) {
    && |after| == |before|
    && forall k | 0 <= k < |before| :: after[k] ==
         if before[k].status != Waiting then before[k]
         else before[k].(status := next, note := if note == "" then before[k].note else note)
  }

  /** Approving the types changes approvals, the approval checkpoint and the log as it should; what else may differ are
      tasks, history and status. */
  predicate Settles(v: Record, w: Record, actions: set<ActionType>, actor: Actor, note: string) {
    && w == v.(status := w.status, tasks := w.tasks, approvals := w.approvals, checkpoints := w.checkpoints,
      history := w.history, events := w.events)
    && Approves(v.approvals, w.approvals, actions, actor, note)
    && DecisionsIn(w.events) == DecisionsIn(v.events) + Approving(v.approvals, actions)
    && if Approving(v.approvals, actions) == [] then w.checkpoints == v.checkpoints
       else Notes(v.checkpoints, w.checkpoints, v.id, true, actor.id,
         if note == "" then "Approved `external_api_send` to continue trend analysis." else note)
  }

  predicate Closes(v: Record, w: Record, named: set<ActionType>, actor: Actor, note: string) {
    && w == v.(status := w.status, tasks := w.tasks, approvals := w.approvals, checkpoints := w.checkpoints,
      history := w.history, events := w.events)
    && Rejects(v.approvals, w.approvals, actor, note)
    && DecisionsIn(w.events) == DecisionsIn(v.events) + Rejecting(v.approvals, named)
    && Notes(v.checkpoints, w.checkpoints, v.id, false, actor.id, note)
  }

  /** The first of the types that the actor may not decide is reported, and logged as such. */
  predicate Denies(v: Record, o: Outcome, types: set<ActionType>, actor: Actor, overrides: RuntimeOverride) {
    && o.saved.Some? && OnlyAuthorizes(v, o.saved.value)
    && o.answer.Raised? && o.answer.error.PermissionDenied?
    && var a := o.answer.error.action;
       && a in types && !Allowed(a, actor, v.policy, overrides)
       && (forall b :: b in types && Precedes(b, a) ==> Allowed(b, actor, v.policy, overrides))
       && Verdicts(o.saved.value.events, a) == Verdicts(v.events, a) + VerdictOn(a, actor, v.policy, overrides)
  }

  predicate MayDecide(v: Record, types: set<ActionType>, actor: Actor, overrides: RuntimeOverride) {
    forall a :: a in types ==> Allowed(a, actor, v.policy, overrides)
  }

  lemma AuthorizationDecides(v: Record, types: set<ActionType>, actor: Actor, overrides: RuntimeOverride)
    ensures var r := AuthorizeAll(v, actor, ActionsInOrder(types), overrides);
      && OnlyAuthorizes(v, r.record)
      && (r.denied.None? <==> MayDecide(v, types, actor, overrides))
      && (r.denied.Some? ==>
            Denies(v, Outcome(Some(r.record), Raised(PermissionDenied(r.denied.value))), types, actor, overrides))
  {
    hide AuthorizeAll, ActionsInOrder, Verdicts, VerdictOn, Allowed, Precedes, OnlyAuthorizes;
    AuthorizationExactly(v, actor, types, overrides);
    var r := AuthorizeAll(v, actor, ActionsInOrder(types), overrides);
    if r.denied.None? {
      forall a | a in types
        ensures Allowed(a, actor, v.policy, overrides)
      {
        NoneDenied(v, types, actor, overrides, ActionsInOrder(types));
      }
    }
  }

  /** If nothing is denied, everything is allowed. */
  lemma NoneDenied(v: Record, types: set<ActionType>, actor: Actor, overrides: RuntimeOverride,
                   ordered: seq<ActionType>)
    requires AuthorizeAll(v, actor, ordered, overrides).denied.None? && forall a :: a in ordered <==> a in types
    ensures MayDecide(v, types, actor, overrides)
  {
    hide AuthorizeAll, Rules.Authorize, StopsAt;
    AuthorizeAllEffect(v, actor, ordered, overrides);
  }

  lemma ApproveDecides(v: Record, r: Record, actions: set<ActionType>, actor: Actor, note: string)
    requires OnlyAuthorizes(v, r)
    ensures var w := ApproveFrom(r, 0, actions, actor, note);
      Settles(v, w, actions, actor, note) && w.status == v.status && w.tasks == v.tasks
  {
    hide ApproveFrom, Notes, DecisionsIn, Approving;
    AuthorizationIsQuiet(v, r);
    ApproveFromEffect(r, 0, actions, actor, note);
    ApproveNotes(r, 0, actions, actor, note);
    assert v.approvals[0..] == v.approvals;
  }

  lemma RejectDecides(v: Record, r: Record, named: set<ActionType>, actor: Actor, reason: string, note: string)
    requires OnlyAuthorizes(v, r) && reason != "" && HasUndecided(v.approvals)
    ensures var w := RejectFrom(r, 0, named, actor, reason, note);
      && Closes(v, w, named, actor, if note == "" then reason else reason + " " + note)
      && w.status == v.status && w.tasks == v.tasks
  {
    hide RejectFrom, Notes, DecisionsIn, Rejecting;
    AuthorizationIsQuiet(v, r);
    RejectFromEffect(r, 0, named, actor, reason, note);
    RejectNotes(r, 0, named, actor, reason, note);
    assert v.approvals[0..] == v.approvals;
    SomethingRejected(v.approvals, named);
  }

  lemma {:induction false} SomethingRejected(approvals: seq<Approval>, named: set<ActionType>)
    requires HasUndecided(approvals)
    ensures Rejecting(approvals, named) != []
  {
    if approvals[0].status != Undecided {
      var a :| a in approvals && a.status == Undecided;
      assert a in approvals[1..];
      SomethingRejected(approvals[1..], named);
    }
  }

  /** Waking the tasks, and what is logged around it, leaves the decision as it is. */
  lemma WakingKeeps(w: Record, next: TaskStatus, note: string, actor: Actor)
    ensures var u := MoveTasks(w, 0, WaitingTasks, next, note, actor);
      && u == w.(tasks := u.tasks, events := u.events) && w.events <= u.events
      && Wakes(w.tasks, u.tasks, next, note) && DecisionsIn(u.events) == DecisionsIn(w.events)
  {
    hide MoveTasks, DecisionsIn;
    MoveTasksEffect(w, 0, WaitingTasks, next, note, actor);
    MovingIsQuiet(w, 0, WaitingTasks, next, note, actor);
  }

  lemma WokenDistinct(before: seq<Task>, after: seq<Task>, next: TaskStatus, note: string)
    requires Wakes(before, after, next, note) && DistinctTasks(before)
    ensures DistinctTasks(after)
  {
  }

  /******* resume_from_approval *******/

  predicate NoneUndecided(v: Record) {
    forall k :: 0 <= k < |v.approvals| ==> v.approvals[k].status != Undecided
  }

  /** Some of the types were never asked for. */
  predicate Unasked(v: Record, types: set<ActionType>) {
    exists a :: a in types && forall status :: !HasType(v, a, status)
  }

  /** The request can be taken up: it names something, and only what was asked for and never rejected. */
  predicate Acceptable(v: Record, requested: set<ActionType>) {
    && requested != {}
    && !NoneUndecided(v)
    && forall a :: a in requested ==> (exists status :: HasType(v, a, status)) && !HasType(v, a, Rejected)
  }

  lemma AcceptableIsValid(v: Record, requested: set<ActionType>)
    ensures Acceptable(v, requested) <==>
      requested != {} && HasUndecided(v.approvals) && ValidateRequest(requested, v.approvals).None?
  {
    hide TypesWith;
    forall a
      ensures a in KnownTypes(v.approvals) <==> exists status :: HasType(v, a, status)
      ensures a in TypesWith(v.approvals, Rejected) <==> HasType(v, a, Rejected)
    {
      TypeHas(v, a, Rejected);
      KnownHas(v, a);
    }
    assert requested * TypesWith(v.approvals, Rejected) == {} <==>
      forall a :: a in requested ==> a !in TypesWith(v.approvals, Rejected) by {
      if a :| a in requested && a in TypesWith(v.approvals, Rejected) {
        assert a in requested * TypesWith(v.approvals, Rejected);
      }
    }
    UndecidedAt(v);
  }

  lemma UndecidedAt(v: Record)
    ensures HasUndecided(v.approvals) <==> !NoneUndecided(v)
  {
    if a :| a in v.approvals && a.status == Undecided {
      var k :| 0 <= k < |v.approvals| && v.approvals[k] == a;
    }
  }

  lemma KnownHas(v: Record, a: ActionType)
    ensures a in KnownTypes(v.approvals) <==> exists status :: HasType(v, a, status)
  {
    if a in KnownTypes(v.approvals) {
      var x :| x in v.approvals && x.action == a;
      var k :| 0 <= k < |v.approvals| && v.approvals[k] == x;
      assert HasType(v, a, x.status);
    }
    if status :| HasType(v, a, status) {
      var k :| 0 <= k < |v.approvals| && v.approvals[k].action == a && v.approvals[k].status == status;
      assert v.approvals[k] in v.approvals;
    }
  }

  /** The requested types that are not approved yet. */
  function Missing(v: Record, requested: set<ActionType>): set<ActionType> {
    set a | a in requested && !HasType(v, a, ApprovalStatus.Approved)
  }

  predicate Says(es: seq<Event>, from: nat, e: Event) {
    exists k :: from <= k < |es| && es[k] == e
  }

  /** Some types stay undecided: the record takes the decision and goes on waiting, unless there was
      nothing to decide. */
  predicate ApprovesPart(v: Record, o: Outcome, requested: set<ActionType>, actor: Actor, note: string) {
    if Missing(v, requested) == {} then o == Keep(v)
    else
      && o.saved.Some? && o.answer == Summary(o.saved.value)
      && var w := o.saved.value;
         && Settles(v, w, Missing(v, requested), actor, note)
         && w.status == WaitingApproval && w.tasks == v.tasks && w.history == v.history
         && Says(w.events, |v.events|, Event(ResumeTriggered(ApprovalResumePartial), actor))
  }

  /** Nothing stays undecided: the record `u` takes the decision, its waiting tasks are pending again,
    and it is executed
      with what has been approved. */
  predicate ApprovesAll(v: Record, u: Record, o: Outcome, requested: set<ActionType>, actor: Actor, note: string,
                        launch: Launch, end: nat, approvalId: nat) {
    && Settles(v, u, Missing(v, requested), actor, note)
    && u.status == InProgress && Wakes(v.tasks, u.tasks, Pending, "")
    && Says(u.events, |v.events|, Event(ResumeTriggered(ApprovalResume), actor))
    && match ResolveProvider(launch)
       case None => o == Raise(UnsupportedProvider)
       case Some(provider) =>
         && StopsBefore(u.tasks, 0, end, provider, TypesWith(v.approvals, ApprovalStatus.Approved) + requested)
         && o.saved.Some? && o.answer == Summary(o.saved.value)
         && Performs(u, o.saved.value, provider, end, false, approvalId)
  }

  lemma MissingTypes(v: Record, requested: set<ActionType>)
    ensures Missing(v, requested) == requested - TypesWith(v.approvals, ApprovalStatus.Approved)
    ensures TypesWith(v.approvals, Undecided) - requested != {} <==>
      exists a :: HasType(v, a, Undecided) && a !in requested
  {
    hide TypesWith, HasType;
    forall a
      ensures a in TypesWith(v.approvals, ApprovalStatus.Approved) <==> HasType(v, a, ApprovalStatus.Approved)
      ensures a in TypesWith(v.approvals, Undecided) <==> HasType(v, a, Undecided)
    {
      TypeHas(v, a, ApprovalStatus.Approved);
      TypeHas(v, a, Undecided);
    }
    if a :| HasType(v, a, Undecided) && a !in requested {
      assert a in TypesWith(v.approvals, Undecided) - requested;
    }
  }

  /** A request that can be taken up is denied, or decides what it names, and resumes the project once nothing else is
      undecided. */
  lemma ApprovalExactly(v: Record, inputs: seq<ActionInput>, caller: ActorArgument, note: string, launch: Launch,
                        overrides: RuntimeOverride, approvalId: nat) returns (u: Record, end: nat)
    requires v.status == WaitingApproval && DistinctTasks(v.tasks)
    requires ParseActions(inputs).Ok? && Acceptable(v, ParseActions(inputs).value)
    ensures var requested, actor := ParseActions(inputs).value, CoerceActor(caller, Approver);
      var o := OutcomeOn(v, ApprovalCall(v.id, inputs, caller, note, launch, overrides), approvalId);
      if !MayDecide(v, Missing(v, requested), actor, overrides)
      then Denies(v, o, Missing(v, requested), actor, overrides)
      else if exists a :: HasType(v, a, Undecided) && a !in requested
      then ApprovesPart(v, o, requested, actor, Text.Strip(note))
      else ApprovesAll(v, u, o, requested, actor, Text.Strip(note), launch, end, approvalId)
  {
    hide ParseActions, CoerceActor, Text.Strip, HasType, TypesWith, AuthorizeAll, ActionsInOrder, Denies, MayDecide;
    hide ApprovesPart, ApprovesAll, ApproveFrom, Execute, Released, Transition, ValidateRequest, OnlyAuthorizes;
    hide Acceptable;
    var requested, actor := ParseActions(inputs).value, CoerceActor(caller, Approver);
    AcceptableIsValid(v, requested);
    MissingTypes(v, requested);
    var missing := Missing(v, requested);
    AuthorizationDecides(v, missing, actor, overrides);
    var r := AuthorizeAll(v, actor, ActionsInOrder(missing), overrides);
    u, end := v, 0;
    if r.denied.None? {
      if exists a :: HasType(v, a, Undecided) && a !in requested {
        NothingAuthorized(v, actor, overrides);
        PartApproved(v, r.record, requested, actor, Text.Strip(note));
      } else {
        u, end := AllApproved(v, r.record, requested, actor, Text.Strip(note), launch, approvalId);
      }
    }
  }

  lemma NoneSelected(all: seq<ActionType>)
    ensures Selected(all, {}) == []
  {
  }

  lemma NothingAuthorized(v: Record, actor: Actor, overrides: RuntimeOverride)
    ensures AuthorizeAll(v, actor, ActionsInOrder({}), overrides).record == v
  {
    NoneSelected(ACTIONS_BY_VALUE);
  }

  lemma PartApproved(v: Record, r: Record, requested: set<ActionType>, actor: Actor, note: string)
    requires v.status == WaitingApproval && OnlyAuthorizes(v, r) && (Missing(v, requested) == {} ==> r == v)
    ensures var decided := ApproveFrom(r, 0, Missing(v, requested), actor, note);
      ApprovesPart(v, if Missing(v, requested) == {} then Keep(decided)
        else Commit(Ok(RecordEvent(decided, ResumeTriggered(ApprovalResumePartial), actor))), requested, actor, note)
  {
    hide ApproveFrom, Missing, Approves, Notes, DecisionsIn, Approving;
    var missing := Missing(v, requested);
    ApproveDecides(v, r, missing, actor, note);
    var decided := ApproveFrom(r, 0, missing, actor, note);
    if missing == {} {
      NothingApproved(r, 0, actor, note);
    } else {
      QuietStep(decided, ResumeTriggered(ApprovalResumePartial), actor);
      var w := RecordEvent(decided, ResumeTriggered(ApprovalResumePartial), actor);
      DecidedGrows(v, r, missing, actor, note);
      assert w.events[|w.events| - 1] == Event(ResumeTriggered(ApprovalResumePartial), actor);
    }
  }

  lemma DecidedGrows(v: Record, r: Record, actions: set<ActionType>, actor: Actor, note: string)
    requires OnlyAuthorizes(v, r)
    ensures var decided := ApproveFrom(r, 0, actions, actor, note);
      v.events <= decided.events && decided.history == v.history
  {
    hide ApproveFrom;
    ApproveFromEffect(r, 0, actions, actor, note);
  }

  lemma {:induction false} NothingApproved(v: Record, i: nat, actor: Actor, note: string)
    requires i <= |v.approvals|
    ensures ApproveFrom(v, i, {}, actor, note) == v
    decreases |v.approvals| - i
  {
    if i < |v.approvals| {
      NothingApproved(v, i + 1, actor, note);
    }
  }

  lemma AllApproved(v: Record, r: Record, requested: set<ActionType>, actor: Actor, note: string, launch: Launch,
                    approvalId: nat) returns (u: Record, end: nat)
    requires v.status == WaitingApproval && DistinctTasks(v.tasks) && OnlyAuthorizes(v, r)
    ensures var decided := ApproveFrom(r, 0, Missing(v, requested), actor, note);
      var resumed := Transition(Released(decided, actor), InProgress, actor);
      && resumed.Ok?
      && ApprovesAll(v, u, Execute(resumed.value, launch,
           TypesWith(v.approvals, ApprovalStatus.Approved) + Missing(v, requested), false, actor, approvalId),
           requested, actor, note, launch, end, approvalId)
  {
    hide ApproveFrom, Missing, Approves, Notes, DecisionsIn, Approving, MoveTasks, Execute, StopsBefore, Performs;
    hide TypesWith, ResolveProvider;
    var missing := Missing(v, requested);
    ApproveDecides(v, r, missing, actor, note);
    DecidedGrows(v, r, missing, actor, note);
    var decided := ApproveFrom(r, 0, missing, actor, note);
    WakingKeeps(decided, Pending, "", actor);
    var moved := MoveTasks(decided, 0, WaitingTasks, Pending, "", actor);
    QuietStep(moved, ResumeTriggered(ApprovalResume), actor);
    var released := Released(decided, actor);
    QuietStep(released, StateTransition(WaitingApproval, InProgress), actor);
    u := Transition(released, InProgress, actor).value;
    assert u.events[|moved.events|] == Event(ResumeTriggered(ApprovalResume), actor);
    WokenDistinct(v.tasks, u.tasks, Pending, "");
    var approved := TypesWith(v.approvals, ApprovalStatus.Approved) + missing;
    MissingTypes(v, requested);
    assert approved == TypesWith(v.approvals, ApprovalStatus.Approved) + requested;
    end := ExecutionExactly(u, launch, approved, false, actor, approvalId);
  }

  /** What is asked of a project in another state, or cannot be taken up, is refused without a change. */
  lemma ApprovalRefusals(v: Record, inputs: seq<ActionInput>, caller: ActorArgument, note: string, launch: Launch,
                         overrides: RuntimeOverride, approvalId: nat)
    ensures var parsed := ParseActions(inputs);
      var o := OutcomeOn(v, ApprovalCall(v.id, inputs, caller, note, launch, overrides), approvalId);
      && (v.status !in {WaitingApproval, Completed} ==> o == Raise(InvalidState(WaitingApproval, v.status)))
      && (v.status in {WaitingApproval, Completed} && parsed.Err? ==> o == Raise(UnsupportedAction))
      && (v.status in {WaitingApproval, Completed} && parsed == Ok({}) ==> o == Raise(ActionsRequired))
      && (v.status == WaitingApproval && parsed.Ok? && parsed.value != {} && !Acceptable(v, parsed.value) ==>
            o == Raise(
              if NoneUndecided(v) then NoPendingApprovals
              else if Unasked(v, parsed.value) then UnknownActions
              else AlreadyRejected))
      && (v.status == Completed && parsed.Ok? && parsed.value != {} ==>
            o == if v.approvals == [] then Raise(InvalidState(WaitingApproval, Completed))
                 else if Unasked(v, parsed.value) then Raise(UnknownActions)
                 else if exists a :: a in parsed.value && HasType(v, a, Rejected) then Raise(AlreadyRejected)
                 else if NoneUndecided(v)
                   && forall a :: a in parsed.value ==> HasType(v, a, ApprovalStatus.Approved) then Keep(v)
                 else Raise(InvalidState(WaitingApproval, Completed)))
  {
    hide ParseActions, CoerceActor, Text.Strip, HasType, TypesWith, ResumeWaiting, HasUndecided, KnownTypes, Acceptable;
    var parsed := ParseActions(inputs);
    if parsed.Ok? {
      AcceptableIsValid(v, parsed.value);
      ValidationExactly(v, parsed.value);
      UndecidedAt(v);
      MissingTypes(v, parsed.value);
      NoneKnown(v);
      AllApprovedExactly(v, parsed.value);
    }
  }

  lemma AllApprovedExactly(v: Record, requested: set<ActionType>)
    ensures requested <= TypesWith(v.approvals, ApprovalStatus.Approved) <==>
      forall a :: a in requested ==> HasType(v, a, ApprovalStatus.Approved)
  {
    hide TypesWith, HasType;
    forall a
      ensures a in TypesWith(v.approvals, ApprovalStatus.Approved) <==> HasType(v, a, ApprovalStatus.Approved)
    {
      TypeHas(v, a, ApprovalStatus.Approved);
    }
  }

  lemma NoneKnown(v: Record)
    ensures KnownTypes(v.approvals) == {} <==> v.approvals == []
  {
    if v.approvals != [] {
      assert v.approvals[0].action in KnownTypes(v.approvals);
    }
  }

  lemma ValidationExactly(v: Record, requested: set<ActionType>)
    ensures ValidateRequest(requested, v.approvals) ==
      if Unasked(v, requested) then Some(UnknownActions)
      else if exists a :: a in requested && HasType(v, a, Rejected) then Some(AlreadyRejected)
      else None
  {
    hide TypesWith, HasType;
    forall a
      ensures a in KnownTypes(v.approvals) <==> exists status :: HasType(v, a, status)
      ensures a in TypesWith(v.approvals, Rejected) <==> HasType(v, a, Rejected)
    {
      TypeHas(v, a, Rejected);
      KnownHas(v, a);
    }
    if a :| a in requested && HasType(v, a, Rejected) {
      assert a in requested * TypesWith(v.approvals, Rejected);
    }
  }

  /******* reject_approval *******/

  /** A rejection with a reason that names undecided types only is denied, or closes all that is undecided,
    and sends the
      project and its waiting tasks to revision. */
  lemma RejectionExactly(v: Record, inputs: seq<ActionInput>, caller: ActorArgument, reason: string, note: string,
                         overrides: RuntimeOverride, approvalId: nat)
    requires v.status == WaitingApproval && HasUndecided(v.approvals) && Text.Strip(reason) != ""
    requires ParseActions(inputs).Ok? && forall a :: a in ParseActions(inputs).value ==> HasType(v, a, Undecided)
    ensures var undecided := TypesWith(v.approvals, Undecided);
      var named := if ParseActions(inputs).value == {} then undecided else ParseActions(inputs).value;
      var actor := CoerceActor(caller, Approver);
      var text := if Text.Strip(note) == "" then Text.Strip(reason) else Text.Strip(reason) + " " + Text.Strip(note);
      var o := OutcomeOn(v, RejectionCall(v.id, inputs, caller, reason, note, overrides), approvalId);
      if !MayDecide(v, undecided, actor, overrides) then Denies(v, o, undecided, actor, overrides)
      else
        && o.saved.Some? && o.answer == Summary(o.saved.value)
        && Closes(v, o.saved.value, named, actor, text)
        && o.saved.value.status == RevisionRequested
        && Wakes(v.tasks, o.saved.value.tasks, NeedsRevision, Text.Strip(reason))
  {
    hide ParseActions, CoerceActor, Text.Strip, HasType, AuthorizeAll, ActionsInOrder, Denies, MayDecide, TypesWith;
    hide RejectFrom, MoveTasks, OnlyAuthorizes, Closes, HasUndecided;
    var undecided, actor := TypesWith(v.approvals, Undecided), CoerceActor(caller, Approver);
    var named := if ParseActions(inputs).value == {} then undecided else ParseActions(inputs).value;
    forall a | a in named
      ensures a in undecided
    {
      TypeHas(v, a, Undecided);
    }
    AuthorizationDecides(v, undecided, actor, overrides);
    var r := AuthorizeAll(v, actor, ActionsInOrder(undecided), overrides);
    if r.denied.None? {
      AllRejected(v, r.record, named, actor, Text.Strip(reason), Text.Strip(note));
    }
  }

  lemma AllRejected(v: Record, r: Record, named: set<ActionType>, actor: Actor, reason: string, note: string)
    requires v.status == WaitingApproval && HasUndecided(v.approvals) && OnlyAuthorizes(v, r) && reason != ""
    ensures var decided := RejectFrom(r, 0, named, actor, reason, note);
      var result := Transition(MoveTasks(decided, 0, WaitingTasks, NeedsRevision, reason, actor), RevisionRequested,
        actor);
      && result.Ok? && result.value.status == RevisionRequested
      && Closes(v, result.value, named, actor, if note == "" then reason else reason + " " + note)
      && Wakes(v.tasks, result.value.tasks, NeedsRevision, reason)
  {
    hide RejectFrom, Rejects, Notes, DecisionsIn, Rejecting, MoveTasks, HasUndecided;
    RejectDecides(v, r, named, actor, reason, note);
    var decided := RejectFrom(r, 0, named, actor, reason, note);
    WakingKeeps(decided, NeedsRevision, reason, actor);
    var moved := MoveTasks(decided, 0, WaitingTasks, NeedsRevision, reason, actor);
    QuietStep(moved, StateTransition(WaitingApproval, RevisionRequested), actor);
  }

  /** A rejection without a reason, in another state, with nothing undecided, or of other types is refused; once the
      project is in revision, it is answered again if it names rejected types only. */
  lemma RejectionRefusals(v: Record, inputs: seq<ActionInput>, caller: ActorArgument, reason: string, note: string,
                          overrides: RuntimeOverride, approvalId: nat)
    ensures var parsed := ParseActions(inputs);
      var o := OutcomeOn(v, RejectionCall(v.id, inputs, caller, reason, note, overrides), approvalId);
      && (Text.Strip(reason) == "" ==> o == Raise(ReasonRequired))
      && (Text.Strip(reason) != "" && v.status !in {WaitingApproval, RevisionRequested} ==>
            o == Raise(InvalidState(WaitingApproval, v.status)))
      && (Text.Strip(reason) != "" && v.status == WaitingApproval && NoneUndecided(v) ==>
        o == Raise(NoPendingApprovals))
      && (Text.Strip(reason) != "" && v.status == WaitingApproval && HasUndecided(v.approvals) ==>
            && (parsed.Err? ==> o == Raise(UnsupportedAction))
            && (parsed.Ok? && (exists a :: a in parsed.value && !HasType(v, a, Undecided)) ==> o == Raise(NotPending)))
      && (Text.Strip(reason) != "" && v.status == RevisionRequested ==>
            o == if parsed.Err? then Raise(UnsupportedAction)
                 else if exists a :: a in parsed.value && !HasType(v, a, Rejected) then Raise(NotPending)
                 else if parsed.value == {} && (forall a :: !HasType(v, a, Rejected)) then
                   Raise(InvalidState(WaitingApproval, RevisionRequested))
                 else Keep(v))
  {
    hide ParseActions, CoerceActor, Text.Strip, HasType, TypesWith, AuthorizeAll, HasUndecided;
    UndecidedAt(v);
    forall a
      ensures a in TypesWith(v.approvals, Rejected) <==> HasType(v, a, Rejected)
      ensures a in TypesWith(v.approvals, Undecided) <==> HasType(v, a, Undecided)
    {
      TypeHas(v, a, Rejected);
      TypeHas(v, a, Undecided);
    }
  }

  /******* Action lists *******/

  /** The input is the action itself, or its value up to case and surrounding space. */
  predicate NamesAction(input: ActionInput, a: ActionType) {
    match input
    case Typed(action) => action == a
    case Written(text) => Text.Normalize(text) == ActionValue(a)
  }

  lemma ParsedExactly(input: ActionInput, a: ActionType)
    ensures ParsedAction(input) == Some(a) <==> NamesAction(input, a)
  {
    hide Text.Normalize;
    forall b | b != a
      ensures ActionValue(a) != ActionValue(b)
    {
      ValuesDiffer(a, b);
    }
  }

  lemma ValuesDiffer(a: ActionType, b: ActionType)
    requires a != b
    ensures ActionValue(a) != ActionValue(b)
  {
    assert ActionValue(a)[0] != ActionValue(b)[0];
  }

  predicate NamesSome(input: ActionInput) {
    exists a :: NamesAction(input, a)
  }

  lemma ParsedSome(input: ActionInput)
    ensures ParsedAction(input).Some? <==> NamesSome(input)
    ensures forall a :: ParsedAction(input) == Some(a) <==> NamesAction(input, a)
  {
    hide NamesAction, ParsedAction;
    forall a
      ensures ParsedAction(input) == Some(a) <==> NamesAction(input, a)
    {
      ParsedExactly(input, a);
    }
    if ParsedAction(input).Some? {
      assert NamesAction(input, ParsedAction(input).value);
    }
  }

  /** A list of actions is accepted exactly when each of its elements names one, and stands for the actions named. */
  lemma ParsesExactly(inputs: seq<ActionInput>)
    ensures ParseActions(inputs).Ok? <==> forall input :: input in inputs ==> NamesSome(input)
    ensures ParseActions(inputs).Ok? ==>
      forall a :: a in ParseActions(inputs).value <==> exists input :: input in inputs && NamesAction(input, a)
  {
    hide NamesAction, ParsedAction, NamesSome;
    forall input
      ensures ParsedAction(input).Some? <==> NamesSome(input)
      ensures forall a :: ParsedAction(input) == Some(a) <==> NamesAction(input, a)
    {
      ParsedSome(input);
    }
    if ParseActions(inputs).Ok? {
      forall a
        ensures a in ParseActions(inputs).value <==> exists input :: input in inputs && NamesAction(input, a)
      {
        if input :| input in inputs && NamesAction(input, a) {
          assert ParsedAction(input) == Some(a);
        }
        if a in ParseActions(inputs).value {
          var input :| input in inputs && ParsedAction(input).value == a;
          assert NamesAction(input, a);
        }
      }
    }
  }
}
