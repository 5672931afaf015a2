/** The identifiers inside a stored record: which are unique, and which repeat. */
module Identities {
  import opened Prelude
  import opened Domain
  import opened Workflow
  import opened Loops
  import opened Calls
  import opened Soundness
  import opened Coupling
  import opened Runs
  import Text

  predicate DistinctBy<T, K(==)>(xs: seq<T>, key: T -> K) {
    forall i, j :: 0 <= i < j < |xs| ==> key(xs[i]) != key(xs[j])
  }

  function ApprovalKey(a: Approval): nat {
    a.id
  }

  function ReviewKey(r: ReviewNote): string {
    r.id
  }

  predicate IsReviewOf(r: ReviewNote, task: Task) {
    task.department == Review && r.id == "review-" + task.id
  }

  /** Every review belongs to a review task of the plan. */
  predicate ReviewsOfPlan(reviews: seq<ReviewNote>, tasks: seq<Task>) {
    forall k :: 0 <= k < |reviews| ==> HasReviewTask(reviews[k], tasks)
  }

  predicate HasReviewTask(review: ReviewNote, tasks: seq<Task>) {
    exists i :: 0 <= i < |tasks| && IsReviewOf(review, tasks[i])
  }

  /** Artifact, checkpoint and approval ids are unique, approval ids are below the supply, reviews belong
      to the plan. */
  predicate Identified(v: Record, bound: nat) {
    && DistinctBy(v.artifacts, ArtifactId)
    && DistinctBy(v.checkpoints, CheckpointKey)
    && DistinctBy(v.approvals, ApprovalKey)
    && (forall k :: 0 <= k < |v.approvals| ==> v.approvals[k].id < bound)
    && ReviewsOfPlan(v.reviews, v.tasks)
  }

  lemma UpsertDistinct<T, K>(xs: seq<T>, key: T -> K, x: T)
    requires DistinctBy(xs, key)
    ensures DistinctBy(Upsert(xs, key, x), key)
  {
  }

  /** Two records with the same identifiers. */
  predicate SameIds(v: Record, w: Record) {
    && w.artifacts == v.artifacts && w.reviews == v.reviews
    && |w.checkpoints| == |v.checkpoints| && (forall k :: 0 <= k < |v.checkpoints| ==>
      w.checkpoints[k].id == v.checkpoints[k].id)
    && |w.approvals| == |v.approvals| && (forall k :: 0 <= k < |v.approvals| ==> w.approvals[k].id == v.approvals[k].id)
    && |w.tasks| == |v.tasks| && (forall k :: 0 <= k < |v.tasks| ==>
      w.tasks[k].id == v.tasks[k].id && w.tasks[k].department == v.tasks[k].department)
  }

  lemma SameIdsIdentified(v: Record, w: Record, bound: nat, more: nat)
    requires Identified(v, bound) && SameIds(v, w) && bound <= more
    ensures Identified(w, more)
  {
  }

  lemma WorkOnIdentified(v: Record, i: nat, provider: Provider, simulateFailure: bool, actor: Actor, bound: nat)
    requires i < |v.tasks| && v.tasks[i].status != Done && Identified(v, bound)
    ensures Identified(WorkOn(v, i, provider, simulateFailure, actor), bound)
  {
    hide Upsert;
    WorkOnEffect(v, i, provider, simulateFailure, actor);
    UpsertDistinct(v.artifacts, ArtifactId, ProducedArtifact(v.tasks[i], provider));
    var w := WorkOn(v, i, provider, simulateFailure, actor);
    var done := v.tasks[i].(status := Done);
    ReviewsStay(v.reviews, v.tasks, i, done);
    if v.tasks[i].department == Review {
      var review := ReviewOf(v.tasks[i], v.artifacts, simulateFailure);
      assert IsReviewOf(review, w.tasks[i]);
      ReviewAdded(v.reviews, w.tasks, review, i);
    }
  }

  lemma ReviewsStay(reviews: seq<ReviewNote>, tasks: seq<Task>, i: nat, task: Task)
    requires i < |tasks| && ReviewsOfPlan(reviews, tasks) && ShapeOf(task) == ShapeOf(tasks[i])
    ensures ReviewsOfPlan(reviews, tasks[i := task])
  {
    var after := tasks[i := task];
    forall k | 0 <= k < |reviews|
      ensures HasReviewTask(reviews[k], after)
    {
      var j :| 0 <= j < |tasks| && IsReviewOf(reviews[k], tasks[j]);
      assert after[j].id == tasks[j].id && after[j].department == tasks[j].department;
      assert IsReviewOf(reviews[k], after[j]);
    }
    assert ReviewsOfPlan(reviews, after);
  }

  lemma ReviewAdded(reviews: seq<ReviewNote>, tasks: seq<Task>, review: ReviewNote, i: nat)
    requires i < |tasks| && ReviewsOfPlan(reviews, tasks) && IsReviewOf(review, tasks[i])
    ensures ReviewsOfPlan(reviews + [review], tasks)
  {
  }

  lemma StartIdentified(v: Record, i: nat, next: TaskStatus, actor: Actor, bound: nat)
    requires i < |v.tasks| && Identified(v, bound)
    ensures Identified(SetTaskStatus(v, i, next, actor), bound)
  {
    SameIdsIdentified(v, SetTaskStatus(v, i, next, actor), bound, bound);
  }

  lemma {:induction false} RunTasksIdentified(v: Record, i: nat, provider: Provider, approved: set<ActionType>,
      simulateFailure: bool, actor: Actor, verdict: Option<Verdict>, bound: nat)
    requires i <= |v.tasks| && Identified(v, bound)
    ensures Identified(RunTasks(v, i, provider, approved, simulateFailure, actor, verdict).record, bound)
    decreases |v.tasks| - i
  {
    hide Identified, WorkOn, SetTaskStatus, MustWait;
    if i == |v.tasks| {
    } else if v.tasks[i].status == Done {
      RunTasksIdentified(v, i + 1, provider, approved, simulateFailure, actor, verdict, bound);
    } else if MustWait(v.tasks[i], provider, approved) {
      StartIdentified(v, i, Started, actor, bound);
    } else {
      WorkOnIdentified(v, i, provider, simulateFailure, actor, bound);
      WorkOnEffect(v, i, provider, simulateFailure, actor);
      RunTasksIdentified(WorkOn(v, i, provider, simulateFailure, actor), i + 1, provider, approved, simulateFailure,
        actor, NextVerdict(v, i, simulateFailure, verdict), bound);
    }
  }

  lemma RequestIdentified(v: Record, approvalId: nat, bound: nat)
    requires Identified(v, bound) && bound <= approvalId
    ensures Identified(RequestApproval(v, approvalId), approvalId + 1)
  {
  }

  lemma CheckpointIdentified(v: Record, checkpoint: Checkpoint, bound: nat)
    requires Identified(v, bound)
    ensures Identified(v.(checkpoints := Upsert(v.checkpoints, CheckpointKey, checkpoint)), bound)
  {
  }

  lemma TransitionIdentified(v: Record, next: ProjectStatus, actor: Actor, bound: nat)
    requires Identified(v, bound)
    ensures Transition(v, next, actor).Ok? ==> Identified(Transition(v, next, actor).value, bound)
  {
  }

  lemma ConcludeIdentified(c: Cycle, actor: Actor, approvalId: nat, bound: nat)
    requires c.PausedAt? ==> c.i < |c.record.tasks|
    requires Identified(c.record, bound) && bound <= approvalId
    ensures Conclude(c, actor, approvalId).Ok? ==> Identified(Conclude(c, actor, approvalId).value, approvalId + 1)
  {
    hide Identified, Upsert, Transition, SetTaskStatus, RequestApproval;
    var v := c.record;
    match c
    case PausedAt(_, i) =>
      var waiting := SetTaskStatus(v, i, Waiting, actor);
      StartIdentified(v, i, Waiting, actor, bound);
      RequestIdentified(waiting, approvalId, bound);
      SameIdsIdentified(waiting, waiting, bound, approvalId + 1);
      var requested := if ExternalApiSend in TypesWith(waiting.approvals, Undecided) then waiting
        else RequestApproval(waiting, approvalId);
      var checkpoint := Checkpoint(ApprovalOf(v.id), false, "human", ANALYSIS_REQUEST);
      CheckpointIdentified(requested, checkpoint, approvalId + 1);
      TransitionIdentified(requested.(checkpoints := Upsert(requested.checkpoints, CheckpointKey, checkpoint)),
        WaitingApproval, actor, approvalId + 1);
    case Finished(_, verdict) =>
      SameIdsIdentified(v, v, bound, approvalId + 1);
      var checkpoint := Checkpoint(DeliveryOf(v.id), true, "system", DELIVERY_NOTE);
      CheckpointIdentified(v, checkpoint, approvalId + 1);
      TransitionIdentified(v.(checkpoints := Upsert(v.checkpoints, CheckpointKey, checkpoint)), Completed, actor,
        approvalId + 1);
      TransitionIdentified(v, ReviewFailed, actor, approvalId + 1);
      var failed := Transition(v, ReviewFailed, actor);
      if failed.Ok? {
        TransitionIdentified(failed.value, RevisionRequested, actor, approvalId + 1);
        var requested := Transition(failed.value, RevisionRequested, actor);
        if requested.Ok? {
          SameIdsIdentified(requested.value, RecordEvent(requested.value, RevisionWasRequested, actor), approvalId + 1,
            approvalId + 1);
        }
      }
  }

  predicate SavesIdentified(o: Outcome, bound: nat) {
    o.saved.Some? ==> Identified(o.saved.value, bound)
  }

  lemma ExecuteIdentified(v: Record, launch: Launch, approved: set<ActionType>, simulateFailure: bool, actor: Actor,
                          approvalId: nat, bound: nat)
    requires Identified(v, bound) && bound <= approvalId
    ensures SavesIdentified(Execute(v, launch, approved, simulateFailure, actor, approvalId), approvalId + 1)
  {
    hide Identified, RunTasks, Conclude, ResolveProvider;
    if ResolveProvider(launch).Some? {
      var provider := ResolveProvider(launch).value;
      RunTasksIdentified(v, 0, provider, approved, simulateFailure, actor, None, bound);
      ConcludeIdentified(RunTasks(v, 0, provider, approved, simulateFailure, actor, None), actor, approvalId, bound);
    }
  }

  lemma ExecuteWithIdentified(v: Record, launch: Launch, inputs: seq<ActionInput>, actor: Actor, approvalId: nat,
                              bound: nat)
    requires Identified(v, bound) && bound <= approvalId
    ensures SavesIdentified(ExecuteWith(v, launch, inputs, false, actor, approvalId), approvalId + 1)
  {
    hide Identified, Execute, ParseActions;
    if ParseActions(inputs).Ok? {
      ExecuteIdentified(v, launch, ParseActions(inputs).value, false, actor, approvalId, bound);
    }
  }

  lemma ResumeWaitingIdentified(v: Record, requested: set<ActionType>, actor: Actor, note: string, launch: Launch,
                                overrides: RuntimeOverride, approvalId: nat, bound: nat)
    requires Identified(v, bound) && bound <= approvalId
    ensures SavesIdentified(ResumeWaiting(v, requested, actor, note, launch, overrides, approvalId), approvalId + 1)
  {
    hide Identified, Execute, AuthorizeAll, ApproveFrom, MoveTasks, Transition, ActionsInOrder;
    var toApprove := requested - TypesWith(v.approvals, Approved);
    AuthorizeAllEffect(v, actor, ActionsInOrder(toApprove), overrides);
    var authorized := AuthorizeAll(v, actor, ActionsInOrder(toApprove), overrides).record;
    SameIdsIdentified(v, authorized, bound, approvalId + 1);
    ApproveFromEffect(authorized, 0, toApprove, actor, note);
    var decided := ApproveFrom(authorized, 0, toApprove, actor, note);
    SameIdsIdentified(v, RecordEvent(decided, ResumeTriggered(ApprovalResumePartial), actor), bound, approvalId + 1);
    MoveTasksEffect(decided, 0, WaitingTasks, Pending, "", actor);
    SameIdsIdentified(v, Released(decided, actor), bound, bound);
    TransitionIdentified(Released(decided, actor), InProgress, actor, bound);
    var resumed := Transition(Released(decided, actor), InProgress, actor);
    if resumed.Ok? {
      ExecuteIdentified(resumed.value, launch, TypesWith(v.approvals, Approved) + toApprove, false, actor, approvalId,
        bound);
    }
  }

  lemma RejectWaitingIdentified(v: Record, named: set<ActionType>, actor: Actor, reason: string, note: string,
                                overrides: RuntimeOverride, bound: nat)
    requires Identified(v, bound)
    ensures SavesIdentified(RejectWaiting(v, named, actor, reason, note, overrides), bound)
  {
    hide Identified, AuthorizeAll, RejectFrom, MoveTasks, Transition, ActionsInOrder;
    var wanted := if named == {} then TypesWith(v.approvals, Undecided) else named;
    var actions := ActionsInOrder(TypesWith(v.approvals, Undecided));
    AuthorizeAllEffect(v, actor, actions, overrides);
    var authorized := AuthorizeAll(v, actor, actions, overrides).record;
    SameIdsIdentified(v, authorized, bound, bound);
    RejectFromEffect(authorized, 0, wanted, actor, reason, note);
    var decided := RejectFrom(authorized, 0, wanted, actor, reason, note);
    MoveTasksEffect(decided, 0, WaitingTasks, NeedsRevision, reason, actor);
    var moved := MoveTasks(decided, 0, WaitingTasks, NeedsRevision, reason, actor);
    SameIdsIdentified(v, moved, bound, bound);
    TransitionIdentified(moved, RevisionRequested, actor, bound);
  }

  lemma MovedIdentified(v: Record, u: Record, which: Selection, note: string, actor: Actor, bound: nat)
    requires Identified(v, bound) && SameIds(v, u)
    ensures Identified(MoveTasks(u, 0, which, Pending, note, actor), bound)
  {
    hide Identified, MoveTasks;
    MoveTasksEffect(u, 0, which, Pending, note, actor);
    SameIdsIdentified(v, MoveTasks(u, 0, which, Pending, note, actor), bound, bound);
  }

  lemma RevisionIdentified(v: Record, mode: RevisionMode, caller: ActorArgument, reason: string, launch: Launch,
                           inputs: seq<ActionInput>, approvalId: nat, bound: nat)
    requires Identified(v, bound) && bound <= approvalId
    ensures SavesIdentified(ResumeFromRevision(v, mode, caller, reason, launch, inputs, approvalId), approvalId + 1)
  {
    hide Identified, ExecuteWith, MoveTasks, Transition;
    var actor := CoerceActor(caller, Operator);
    var which := InDepartments(ResetDepartments(mode));
    MovedIdentified(v, RecordEvent(v, ResumeTriggered(RevisionResume(mode)), actor), which, Text.Strip(reason), actor,
      bound);
    var reset := ReviseTasks(v, mode, actor, Text.Strip(reason));
    var target := if mode == Replanning then ReadyForPlanning else InProgress;
    TransitionIdentified(reset, target, actor, bound);
    var moved := Transition(reset, target, actor);
    if moved.Ok? {
      SameIdsIdentified(moved.value, moved.value, bound, approvalId + 1);
      ExecuteWithIdentified(moved.value, launch, inputs, actor, approvalId, bound);
    }
  }

  lemma ReplanningIdentified(v: Record, caller: ActorArgument, launch: Launch, inputs: seq<ActionInput>, reset: bool,
                             approvalId: nat, bound: nat)
    requires Identified(v, bound) && bound <= approvalId
    ensures SavesIdentified(StartReplanning(v, caller, launch, inputs, reset, approvalId), approvalId + 1)
  {
    hide Identified, ExecuteWith, MoveTasks, Transition;
    var actor := CoerceActor(caller, Operator);
    MovedIdentified(v, v, InDepartments(ResetDepartments(Replanning)), "", actor, bound);
    var u := if reset then MoveTasks(v, 0, InDepartments(ResetDepartments(Replanning)), Pending, "", actor) else v;
    SameIdsIdentified(u, ReplanTasks(v, actor, reset), bound, bound);
    TransitionIdentified(ReplanTasks(v, actor, reset), InProgress, actor, bound);
    var moved := Transition(ReplanTasks(v, actor, reset), InProgress, actor);
    if moved.Ok? {
      ExecuteWithIdentified(moved.value, launch, inputs, actor, approvalId, bound);
    }
  }

  lemma CallIdentified(v: Record, c: Call, approvalId: nat, bound: nat)
    requires !c.StartProject? && Identified(v, bound) && bound <= approvalId
    ensures SavesIdentified(OutcomeOn(v, c, approvalId), approvalId + 1)
  {
    hide Identified, ResumeWaiting, RejectWaiting, ResumeFromRevision, StartReplanning, ParseActions;
    match c
    case ApprovalCall(_, inputs, caller, note, launch, overrides) =>
      if ParseActions(inputs).Ok? {
        ResumeWaitingIdentified(v, ParseActions(inputs).value, CoerceActor(caller, Approver), Text.Strip(note), launch,
          overrides, approvalId, bound);
      }
    case RejectionCall(_, inputs, caller, reason, note, overrides) =>
      if ParseActions(inputs).Ok? {
        RejectWaitingIdentified(v, ParseActions(inputs).value, CoerceActor(caller, Approver), Text.Strip(reason),
          Text.Strip(note), overrides, bound);
        var o := RejectWaiting(v, ParseActions(inputs).value, CoerceActor(caller, Approver), Text.Strip(reason),
          Text.Strip(note), overrides);
        if o.saved.Some? {
          SameIdsIdentified(o.saved.value, o.saved.value, bound, approvalId + 1);
        }
      }
    case RevisionCall(_, mode, caller, reason, launch, inputs) =>
      RevisionIdentified(v, mode, caller, reason, launch, inputs, approvalId, bound);
    case ReplanningCall(_, caller, launch, inputs, reset) =>
      ReplanningIdentified(v, caller, launch, inputs, reset, approvalId, bound);
    case SuccessCall(_, actor) =>
      SameIdsIdentified(v, RecordAuthenticationSuccess(v, actor).saved.value, bound, approvalId + 1);
    case FailureCall(_) =>
      SameIdsIdentified(v, RecordAuthenticationFailure(v).saved.value, bound, approvalId + 1);
  }

  lemma StartCallIdentified(id: nat, policy: ProjectPolicy, plan: seq<TaskShape>, launch: Launch,
                            inputs: seq<ActionInput>, simulateFailure: bool, approvalId: nat)
    ensures SavesIdentified(Run(id, policy, plan, launch, inputs, simulateFailure, approvalId), approvalId + 1)
  {
    hide Execute, ParseActions;
    var launched := Launched(Drafted(id, policy, plan));
    if ParseActions(inputs).Ok? && launched.Ok? {
      assert Identified(launched.value, approvalId);
      ExecuteIdentified(launched.value, launch, ParseActions(inputs).value, simulateFailure, SYSTEM_ACTOR, approvalId,
        approvalId);
    }
  }

  /** In every run, artifact, checkpoint and approval ids are unique in each record, and reviews belong to its plan. */
  lemma {:induction false} AllRunsIdentified(plan: seq<TaskShape>, calls: seq<Call>, id: nat)
    requires OrderedPlan(plan) && Has(plan, calls, id)
    ensures Identified(Project(plan, calls, id), After(plan, calls).next)
  {
    hide OrderedPlan, Identified, OutcomeOn, Run;
    var n := |calls| - 1;
    var before, c := calls[..n], calls[n];
    assert before + [c] == calls;
    StepEffect(plan, before, c);
    var w := After(plan, before);
    if Has(plan, before, id) {
      AllRunsIdentified(plan, before, id);
      SameIdsIdentified(w.store[id], w.store[id], w.next, w.next + 2);
    }
    if OutcomeOf(plan, w, c).saved.Some? && Target(w, c) == id {
      if c.StartProject? {
        StartCallIdentified(w.next, c.policy, plan, c.launch, c.inputs, c.simulateFailure, w.next + 1);
      } else {
        SameIdsIdentified(w.store[id], w.store[id], w.next, w.next + 1);
        CallIdentified(w.store[id], c, w.next + 1, w.next + 1);
      }
    }
  }
}
