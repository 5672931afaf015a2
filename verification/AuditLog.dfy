/** What the event log of a record says about the record, kept by every single change. */
module AuditLog {
  import opened Prelude
  import opened Domain
  import opened Workflow
  import Graph
  import Rules = ApprovalRules

  /******* Replaying the log *******/

  /** The history lines that the transition events of a log stand for. */
  function Lines(es: seq<Event>): seq<HistoryLine> {
    if es == [] then []
    else
      var rest := Lines(es[..|es| - 1]);
      match es[|es| - 1].kind
      case StateTransition(source, target) => rest + [HistoryLine(source, target)]
      case _ => rest
  }

  /** The lines form a path of the transition graph from `Draft` to `status`. */
  predicate Linked(lines: seq<HistoryLine>, status: ProjectStatus) {
    if lines == [] then status == Draft
    else
      var last := lines[|lines| - 1];
      && last.target == status
      && Graph.CanTransition(last.source, last.target)
      && Linked(lines[..|lines| - 1], last.source)
  }

  predicate UniqueIds(plan: seq<TaskShape>) {
    forall i, j :: 0 <= i < j < |plan| ==> plan[i].id != plan[j].id
  }

  function PlanIds(plan: seq<TaskShape>): set<string> {
    set task | task in plan :: task.id
  }

  /** Replays the task events of a log from all tasks pending; each event has to start where the last one ended. */
  function Replay(plan: seq<TaskShape>, es: seq<Event>): Option<map<string, TaskStatus>> {
    if es == [] then Some(map id | id in PlanIds(plan) :: Pending)
    else
      match Replay(plan, es[..|es| - 1])
      case None => None
      case Some(statuses) =>
        match es[|es| - 1].kind
        case TaskStatusChanged(id, before, after) =>
          if id in statuses && statuses[id] == before && before != after then Some(statuses[id := after]) else None
        case _ => Some(statuses)
  }

  predicate ReplaysTo(tasks: seq<Task>, es: seq<Event>) {
    var statuses := Replay(Shape(tasks), es);
    && statuses.Some?
    && forall i :: 0 <= i < |tasks| ==> tasks[i].id in statuses.value && statuses.value[tasks[i].id] == tasks[i].status
  }

  /** In the replayed state, every dependency of the task is done. */
  predicate DependenciesDone(plan: seq<TaskShape>, id: string, statuses: Option<map<string, TaskStatus>>) {
    && statuses.Some?
    && forall i, d :: 0 <= i < |plan| && plan[i].id == id && d in plan[i].dependsOn
         ==> d in statuses.value && statuses.value[d] == Done
  }

  /** Every start in the log happened when all dependencies of the started task were done. */
  predicate StartsReady(plan: seq<TaskShape>, es: seq<Event>) {
    es == [] ||
    (&& StartsReady(plan, es[..|es| - 1])
     && var kind := es[|es| - 1].kind;
        kind.TaskStatusChanged? && kind.after == Started ==>
          DependenciesDone(plan, kind.taskId, Replay(plan, es[..|es| - 1])))
  }

  /******* The approval ledger *******/

  datatype LedgerEntry = WasRequested | WasApproved | WasRejected

  predicate Books(kind: EventKind, entry: LedgerEntry, action: ActionType) {
    match kind
    case ApprovalRequested(a) => entry == WasRequested && a == action
    case ApprovalApproved(a) => entry == WasApproved && a == action
    case ApprovalRejected(a, _) => entry == WasRejected && a == action
    case _ => false
  }

  predicate Counts(approval: Approval, entry: LedgerEntry, action: ActionType) {
    && approval.action == action
    && match entry
       case WasRequested => true
       case WasApproved => approval.status == Approved
       case WasRejected => approval.status == Rejected
  }

  function EventTally(es: seq<Event>, entry: LedgerEntry, action: ActionType): nat {
    if es == [] then 0
    else EventTally(es[..|es| - 1], entry, action) + if Books(es[|es| - 1].kind, entry, action) then 1 else 0
  }

  function ApprovalTally(approvals: seq<Approval>, entry: LedgerEntry, action: ActionType): nat {
    if approvals == [] then 0
    else
      var rest := ApprovalTally(approvals[..|approvals| - 1], entry, action);
      rest + if Counts(approvals[|approvals| - 1], entry, action) then 1 else 0
  }

  /** How many requests, approvals or rejections of a type the record holds beyond those that its log books. */
  function Unbooked(v: Record, entry: LedgerEntry, action: ActionType): int {
    ApprovalTally(v.approvals, entry, action) - EventTally(v.events, entry, action)
  }

  predicate SameLedger(v: Record, w: Record) {
    forall entry, action :: Unbooked(w, entry, action) == Unbooked(v, entry, action)
  }

  /******* Authorization *******/

  predicate Decides(kind: EventKind, action: ActionType) {
    kind == ApprovalApproved(action) || (kind.ApprovalRejected? && kind.action == action)
  }

  predicate Granted(es: seq<Event>, action: ActionType, actor: Actor) {
    Event(AuthorizationGranted(action), actor) in es
  }

  ghost predicate Admits(policy: ProjectPolicy, action: ActionType, actor: Actor) {
    exists overrides :: Rules.Authorize(action, actor, policy, overrides).allowed
  }

  /** Grants follow the policy, and every decision follows a grant of the same action to the same actor. */
  ghost predicate Authorized(policy: ProjectPolicy, es: seq<Event>) {
    es == [] ||
    (&& Authorized(policy, es[..|es| - 1])
     && var last := es[|es| - 1];
        && (last.kind.AuthorizationGranted? ==> Admits(policy, last.kind.action, last.actor))
        && forall action | Decides(last.kind, action) :: Granted(es[..|es| - 1], action, last.actor))
  }

  /** The log holds the decision on the approval, made by the actor that the approval names. */
  predicate HasDecision(approval: Approval, es: seq<Event>) {
    exists e :: e in es && e.actor.id == approval.requestedBy && Settled(approval, e.kind)
  }

  predicate Settled(approval: Approval, kind: EventKind) {
    match approval.status
    case Undecided => false
    case Approved => kind == ApprovalApproved(approval.action)
    case Rejected => kind.ApprovalRejected? && kind.action == approval.action
  }

  predicate Attributed(approvals: seq<Approval>, es: seq<Event>) {
    forall k :: 0 <= k < |approvals| && approvals[k].status != Undecided ==> HasDecision(approvals[k], es)
  }

  lemma AttributedGrows(approvals: seq<Approval>, es: seq<Event>, e: Event)
    requires Attributed(approvals, es)
    ensures Attributed(approvals, es + [e])
  {
  }

  /** No decision of the log was made by a viewer or by anyone whom the policy does not admit. */
  lemma {:induction false} DecisionsAreAdmitted(policy: ProjectPolicy, es: seq<Event>, k: nat, action: ActionType)
    requires Authorized(policy, es) && k < |es| && Decides(es[k].kind, action)
    ensures exists j :: 0 <= j < k && es[j] == Event(AuthorizationGranted(action), es[k].actor)
    ensures Admits(policy, action, es[k].actor) && es[k].actor.role != Viewer
  {
    if k < |es| - 1 {
      DecisionsAreAdmitted(policy, es[..|es| - 1], k, action);
      var j :| 0 <= j < k && es[..|es| - 1][j] == Event(AuthorizationGranted(action), es[k].actor);
      assert es[j] == Event(AuthorizationGranted(action), es[k].actor);
    } else {
      var j :| 0 <= j < k && es[..k][j] == Event(AuthorizationGranted(action), es[k].actor);
      assert es[j] == Event(AuthorizationGranted(action), es[k].actor);
      GrantsAreAdmitted(policy, es, j);
    }
  }

  lemma {:induction false} GrantsAreAdmitted(policy: ProjectPolicy, es: seq<Event>, j: nat)
    requires Authorized(policy, es) && j < |es| && es[j].kind.AuthorizationGranted?
    ensures Admits(policy, es[j].kind.action, es[j].actor) && es[j].actor.role != Viewer
  {
    if j < |es| - 1 {
      GrantsAreAdmitted(policy, es[..|es| - 1], j);
    }
  }

  /******* The audit invariant *******/

  ghost predicate Audit(v: Record) {
    && UniqueIds(Shape(v.tasks))
    && v.history == Lines(v.events)
    && Linked(v.history, v.status)
    && ReplaysTo(v.tasks, v.events)
    && StartsReady(Shape(v.tasks), v.events)
    && Authorized(v.policy, v.events)
    && Attributed(v.approvals, v.events)
  }

  /** How a record may change: its log grows, its plan and policy stay, decisions are final,
      and a type that was rejected gains no approval. */
  predicate Extends(v: Record, w: Record) {
    && w.id == v.id && w.policy == v.policy && Shape(w.tasks) == Shape(v.tasks)
    && v.events <= w.events && v.history <= w.history && v.reviews <= w.reviews
    && |v.approvals| <= |w.approvals|
    && (forall i :: 0 <= i < |v.approvals| ==>
          && w.approvals[i].id == v.approvals[i].id
          && w.approvals[i].action == v.approvals[i].action
          && (v.approvals[i].status != Undecided ==> w.approvals[i] == v.approvals[i]))
    && (forall i | 0 <= i < |w.approvals| ::
          w.approvals[i].status == Approved && w.approvals[i].action in TypesWith(v.approvals, Rejected)
          ==> i < |v.approvals| && v.approvals[i].status == Approved)
  }

  /** What every operation does to a record: it extends it, and books every request and decision it makes. */
  predicate Evolves(v: Record, w: Record) {
    Extends(v, w) && SameLedger(v, w)
  }

  lemma EvolvesReflexive(v: Record)
    ensures Evolves(v, v)
  {
  }

  lemma ExtendsTransitive(u: Record, v: Record, w: Record)
    requires Extends(u, v) && Extends(v, w)
    ensures Extends(u, w)
  {
  }

  lemma EvolvesTransitive(u: Record, v: Record, w: Record)
    requires Evolves(u, v) && Evolves(v, w)
    ensures Evolves(u, w)
  {
  }

  lemma Snoc<T>(xs: seq<T>, x: T)
    ensures (xs + [x])[..|xs|] == xs && (xs + [x])[|xs|] == x && xs <= xs + [x]
  {
  }

  /** Events that say nothing about statuses, approvals or grants. */
  predicate Neutral(kind: EventKind) {
    match kind
    case StateTransition(_, _) => false
    case TaskStatusChanged(_, _, _) => false
    case ApprovalRequested(_) => false
    case ApprovalApproved(_) => false
    case ApprovalRejected(_, _) => false
    case AuthorizationGranted(_) => false
    case _ => true
  }

  predicate BooksNothing(kind: EventKind) {
    !kind.ApprovalRequested? && !kind.ApprovalApproved? && !kind.ApprovalRejected?
  }

  /** One more event that decides nothing leaves ledger and attribution as they are. */
  lemma EventBooksNothing(v: Record, w: Record, e: Event)
    requires w.approvals == v.approvals && w.events == v.events + [e] && BooksNothing(e.kind)
    ensures SameLedger(v, w)
    ensures Attributed(v.approvals, v.events) ==> Attributed(w.approvals, w.events)
    ensures w.events[..|v.events|] == v.events && w.events[|v.events|] == e && v.events <= w.events
  {
    hide HasDecision;
    Snoc(v.events, e);
    if Attributed(v.approvals, v.events) {
      AttributedGrows(v.approvals, v.events, e);
    }
  }

  lemma EventKeeps(v: Record, kind: EventKind, actor: Actor)
    requires Audit(v)
    requires Neutral(kind) || (kind.AuthorizationGranted? && Admits(v.policy, kind.action, actor))
    ensures Audit(RecordEvent(v, kind, actor)) && Evolves(v, RecordEvent(v, kind, actor))
  {
    hide Attributed, SameLedger, Admits, TypesWith;
    EventBooksNothing(v, RecordEvent(v, kind, actor), Event(kind, actor));
  }

  lemma LinesSnoc(es: seq<Event>, e: Event)
    ensures Lines(es + [e]) ==
      Lines(es) + if e.kind.StateTransition? then [HistoryLine(e.kind.source, e.kind.target)] else []
  {
    Snoc(es, e);
  }

  lemma ReadySnoc(plan: seq<TaskShape>, es: seq<Event>, e: Event)
    requires StartsReady(plan, es)
    requires e.kind.TaskStatusChanged? && e.kind.after == Started ==>
      DependenciesDone(plan, e.kind.taskId, Replay(plan, es))
    ensures StartsReady(plan, es + [e])
  {
    hide DependenciesDone, Replay;
    Snoc(es, e);
  }

  lemma AuthorizedSnoc(policy: ProjectPolicy, es: seq<Event>, e: Event)
    requires Authorized(policy, es) && BooksNothing(e.kind) && !e.kind.AuthorizationGranted?
    ensures Authorized(policy, es + [e])
  {
    hide Admits;
    Snoc(es, e);
  }

  lemma TransitionReplays(tasks: seq<Task>, es: seq<Event>, e: Event)
    requires ReplaysTo(tasks, es) && e.kind.StateTransition?
    ensures ReplaysTo(tasks, es + [e])
  {
    Snoc(es, e);
  }

  lemma TransitionKeeps(v: Record, next: ProjectStatus, actor: Actor)
    requires Audit(v) && Transition(v, next, actor).Ok?
    ensures Audit(Transition(v, next, actor).value) && Evolves(v, Transition(v, next, actor).value)
  {
    hide Attributed, SameLedger, Admits, TypesWith, Graph.Successors, Lines, StartsReady, Authorized, ReplaysTo;
    hide UniqueIds;
    EvolvesReflexive(v);
    if v.status != next {
      var w := Transition(v, next, actor).value;
      var event := Event(StateTransition(v.status, next), actor);
      EventBooksNothing(v, w, event);
      LinesSnoc(v.events, event);
      ReadySnoc(Shape(v.tasks), v.events, event);
      AuthorizedSnoc(v.policy, v.events, event);
      TransitionReplays(v.tasks, v.events, event);
      Snoc(v.history, HistoryLine(v.status, next));
    }
  }

  /** All dependencies of task `i` are in the list and done. */
  predicate Startable(tasks: seq<Task>, i: nat)
    requires i < |tasks|
  {
    forall d :: d in tasks[i].dependsOn ==> exists j :: 0 <= j < |tasks| && tasks[j].id == d && tasks[j].status == Done
  }

  lemma SameShape(tasks: seq<Task>, i: nat, task: Task)
    requires i < |tasks| && ShapeOf(task) == ShapeOf(tasks[i])
    ensures Shape(tasks[i := task]) == Shape(tasks)
  {
  }

  /** Changing the status of one task and logging it keeps the log replaying to the tasks. */
  lemma StatusReplays(tasks: seq<Task>, es: seq<Event>, i: nat, next: TaskStatus, actor: Actor)
    requires UniqueIds(Shape(tasks)) && ReplaysTo(tasks, es) && i < |tasks| && tasks[i].status != next
    ensures ReplaysTo(tasks[i := tasks[i].(status := next)],
      es + [Event(TaskStatusChanged(tasks[i].id, tasks[i].status, next), actor)])
  {
    var plan, task := Shape(tasks), tasks[i];
    var after, event := tasks[i := task.(status := next)], Event(TaskStatusChanged(task.id, task.status, next), actor);
    SameShape(tasks, i, task.(status := next));
    Snoc(es, event);
    assert Replay(plan, es + [event]) == Some(Replay(plan, es).value[task.id := next]);
    forall j | 0 <= j < |after|
      ensures after[j].id in Replay(plan, es + [event]).value
      ensures Replay(plan, es + [event]).value[after[j].id] == after[j].status
    {
      assert j != i ==> plan[j].id != plan[i].id;
    }
  }

  lemma SetTaskStatusKeeps(v: Record, i: nat, next: TaskStatus, actor: Actor)
    requires Audit(v) && i < |v.tasks|
    requires next == Started ==> Startable(v.tasks, i)
    ensures Audit(SetTaskStatus(v, i, next, actor)) && Evolves(v, SetTaskStatus(v, i, next, actor))
  {
    hide Attributed, SameLedger, Admits, TypesWith, Startable, ReplaysTo, UniqueIds, Replay, Lines, Linked, StartsReady;
    hide Authorized, DependenciesDone;
    EvolvesReflexive(v);
    var task := v.tasks[i];
    var w := SetTaskStatus(v, i, next, actor);
    if task.status != next {
      var event := Event(TaskStatusChanged(task.id, task.status, next), actor);
      SameShape(v.tasks, i, task.(status := next));
      StatusReplays(v.tasks, v.events, i, next, actor);
      EventBooksNothing(v, w, event);
      LinesSnoc(v.events, event);
      AuthorizedSnoc(v.policy, v.events, event);
      if next == Started {
        StartableIsReady(v, i);
      }
      ReadySnoc(Shape(v.tasks), v.events, event);
    }
  }

  lemma StartableIsReady(v: Record, i: nat)
    requires Audit(v) && i < |v.tasks| && Startable(v.tasks, i)
    ensures DependenciesDone(Shape(v.tasks), v.tasks[i].id, Replay(Shape(v.tasks), v.events))
  {
    var plan := Shape(v.tasks);
    forall k, d | 0 <= k < |plan| && plan[k].id == v.tasks[i].id && d in plan[k].dependsOn
      ensures d in Replay(plan, v.events).value && Replay(plan, v.events).value[d] == Done
    {
      assert k == i by {
        assert plan[i].id == v.tasks[i].id;
      }
      assert d in v.tasks[i].dependsOn;
      var j :| 0 <= j < |v.tasks| && v.tasks[j].id == d && v.tasks[j].status == Done;
    }
  }

  /** Changes outside the log, the statuses, the plan and the approvals. */
  predicate Unlogged(v: Record, w: Record) {
    && w.id == v.id && w.policy == v.policy && w.status == v.status && w.approvals == v.approvals
    && w.history == v.history && w.events == v.events && v.reviews <= w.reviews
    && |w.tasks| == |v.tasks|
    && forall i | 0 <= i < |v.tasks| ::
         ShapeOf(w.tasks[i]) == ShapeOf(v.tasks[i]) && w.tasks[i].status == v.tasks[i].status
  }

  lemma UnloggedKeeps(v: Record, w: Record)
    requires Audit(v) && Unlogged(v, w)
    ensures Audit(w) && Evolves(v, w)
  {
    assert Shape(w.tasks) == Shape(v.tasks);
    forall i | 0 <= i < |w.tasks|
      ensures w.tasks[i].id == v.tasks[i].id
    {
      assert ShapeOf(w.tasks[i]) == ShapeOf(v.tasks[i]);
    }
  }

  lemma RequestApprovalKeeps(v: Record, approvalId: nat)
    requires Audit(v)
    ensures Audit(RequestApproval(v, approvalId)) && Evolves(v, RequestApproval(v, approvalId))
  {
    var w := RequestApproval(v, approvalId);
    Snoc(v.events, w.events[|v.events|]);
    AttributedGrows(v.approvals, v.events, w.events[|v.events|]);
    Snoc(v.approvals, w.approvals[|v.approvals|]);
  }

  lemma {:induction false} TallyUpdate(approvals: seq<Approval>, i: nat, x: Approval, entry: LedgerEntry,
                                       action: ActionType)
    requires i < |approvals|
    ensures ApprovalTally(approvals[i := x], entry, action) + (if Counts(approvals[i], entry, action) then 1 else 0)
      == ApprovalTally(approvals, entry, action) + if Counts(x, entry, action) then 1 else 0
  {
    var n := |approvals| - 1;
    if i < n {
      assert approvals[i := x][..n] == approvals[..n][i := x];
      TallyUpdate(approvals[..n], i, x, entry, action);
    } else {
      assert approvals[i := x][..n] == approvals[..n];
    }
  }

  predicate IsDecision(before: Approval, after: Approval, kind: EventKind, actor: Actor) {
    && before.status == Undecided
    && after.id == before.id && after.action == before.action && after.requestedBy == actor.id
    && (|| (after.status == Approved && kind == ApprovalApproved(before.action))
        || (after.status == Rejected && kind.ApprovalRejected? && kind.action == before.action))
  }

  lemma DecideBooks(v: Record, i: nat, approval: Approval, kind: EventKind, actor: Actor)
    requires i < |v.approvals| && IsDecision(v.approvals[i], approval, kind, actor)
    ensures SameLedger(v, Decide(v, i, approval, kind, actor))
  {
    var w := Decide(v, i, approval, kind, actor);
    Snoc(v.events, Event(kind, actor));
    forall entry, action
      ensures Unbooked(w, entry, action) == Unbooked(v, entry, action)
    {
      TallyUpdate(v.approvals, i, approval, entry, action);
    }
  }

  lemma DecideAttributes(v: Record, i: nat, approval: Approval, kind: EventKind, actor: Actor)
    requires Attributed(v.approvals, v.events)
    requires i < |v.approvals| && IsDecision(v.approvals[i], approval, kind, actor)
    ensures Attributed(Decide(v, i, approval, kind, actor).approvals, Decide(v, i, approval, kind, actor).events)
  {
  }

  lemma DecideKeeps(v: Record, i: nat, approval: Approval, kind: EventKind, actor: Actor)
    requires Audit(v) && i < |v.approvals|
    requires IsDecision(v.approvals[i], approval, kind, actor)
    requires Granted(v.events, approval.action, actor)
    requires approval.status == Approved ==> approval.action !in TypesWith(v.approvals, Rejected)
    ensures Audit(Decide(v, i, approval, kind, actor)) && Evolves(v, Decide(v, i, approval, kind, actor))
  {
    hide Attributed, SameLedger, Admits;
    Snoc(v.events, Event(kind, actor));
    DecideAttributes(v, i, approval, kind, actor);
    DecideBooks(v, i, approval, kind, actor);
  }
}
