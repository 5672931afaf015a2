/** Execution takes a record that may execute to a stored one: completed, paused or sent to revision. */
module Execution {
  import opened Prelude
  import opened Domain
  import opened Workflow
  import opened AuditLog
  import opened Soundness
  import opened Coupling

  /******* Pausing *******/

  /** What a pause changes, when no approval is undecided. */
  lemma PauseEffect(v: Record, i: nat, actor: Actor, approvalId: nat)
    requires i < |v.tasks| && v.status == InProgress && AllDecided(v.approvals)
    ensures Pause(v, i, actor, approvalId).Ok?
    ensures var w := Pause(v, i, actor, approvalId).value;
      && w.id == v.id && w.policy == v.policy && w.status == WaitingApproval
      && w.tasks == v.tasks[i := v.tasks[i].(status := Waiting)]
      && w.artifacts == v.artifacts && w.reviews == v.reviews
      && w.approvals == v.approvals + [Approval(approvalId, ExternalApiSend, Undecided, "system", "")]
      && w.checkpoints == Upsert(v.checkpoints, CheckpointKey,
        Checkpoint(ApprovalOf(v.id), false, "human", ANALYSIS_REQUEST))
  {
  }

  /** After a pause the approval checkpoint is there and not approved. */
  lemma PauseNotes(checkpoints: seq<Checkpoint>, id: nat, approvals: seq<Approval>, request: Approval)
    requires Noted(checkpoints, id, approvals) && !HasApproved(approvals) && request.status == Undecided
    ensures var c := Checkpoint(ApprovalOf(id), false, "human", ANALYSIS_REQUEST);
      Noted(Upsert(checkpoints, CheckpointKey, c), id, approvals + [request])
  {
    var c := Checkpoint(ApprovalOf(id), false, "human", ANALYSIS_REQUEST);
    var k := IndexOf(checkpoints, CheckpointKey, ApprovalOf(id));
    assert NoteAt(Upsert(checkpoints, CheckpointKey, c), id, false, k);
    assert !HasApproved(approvals + [request]);
  }

  /** The delivery checkpoint leaves the approval checkpoint as it is. */
  lemma DeliveryNotes(checkpoints: seq<Checkpoint>, id: nat, approvals: seq<Approval>)
    requires Noted(checkpoints, id, approvals)
    ensures Noted(Upsert(checkpoints, CheckpointKey, Checkpoint(DeliveryOf(id), true, "system", DELIVERY_NOTE)), id,
      approvals)
  {
  }

  lemma PauseCouples(u: Record, v: Record, i: nat, actor: Actor, approvalId: nat)
    requires InterruptedFrom(u, v, i, actor) && !HasApproved(v.approvals)
    requires v.tasks[i].department == Trend
    ensures Pause(v, i, actor, approvalId).Ok? && Coupled(Pause(v, i, actor, approvalId).value)
  {
    hide Upsert, Pause, Noted, HasOutput, OrderedPlan;
    PauseEffect(v, i, actor, approvalId);
    var w := Pause(v, i, actor, approvalId).value;
    UpsertPresent(v.checkpoints, CheckpointKey, Checkpoint(ApprovalOf(v.id), false, "human", ANALYSIS_REQUEST));
    PauseNotes(v.checkpoints, v.id, v.approvals, w.approvals[|v.approvals|]);
    assert WaitsAt(w.tasks, i);
    assert w.approvals[..|w.approvals| - 1] == v.approvals;
    assert Shape(u.tasks)[|u.tasks| - 1] == ShapeOf(u.tasks[|u.tasks| - 1]);
    assert LastOpen(w.tasks);
    assert !HasDelivery(w);
    assert !HasApproved(w.approvals) by {
      forall k | 0 <= k < |w.approvals|
        ensures w.approvals[k].status != Approved
      {
      }
    }
  }

  lemma PauseSteady(u: Record, v: Record, i: nat, actor: Actor, approvalId: nat)
    requires InterruptedFrom(u, v, i, actor)
    ensures Pause(v, i, actor, approvalId).Ok? && Steady(Pause(v, i, actor, approvalId).value)
  {
    hide Upsert, GoodPlan, Pause;
    PauseEffect(v, i, actor, approvalId);
    var w := Pause(v, i, actor, approvalId).value;
    SameShape(u.tasks, i, w.tasks[i]);
    assert w.tasks == u.tasks[i := w.tasks[i]];
    forall k | 0 <= k < |w.tasks| && w.tasks[k].status == Done && w.tasks[k].department != Review
      ensures w.artifacts != []
    {
      assert u.tasks[k].status == Done && u.tasks[k].department != Review;
    }
  }

  /** After the loop the cycle ends in revision or completion, as its last review says. */
  lemma FinishKeeps(v: Record, verdict: Option<Verdict>, actor: Actor, simulateFailure: bool)
    requires Steady(v) && Executing(v, |v.tasks|) && Judged(v, |v.tasks|, verdict, simulateFailure)
    requires HasApproved(v.approvals) ==> !simulateFailure
    ensures Finish(v, verdict, actor).Ok?
    ensures var w := Finish(v, verdict, actor).value;
      && Stored(w) && w.approvals == v.approvals
      && w.status == if simulateFailure then RevisionRequested else Completed
  {
    hide Upsert, Noted, Finish, GoodPlan;
    DeliveryNotes(v.checkpoints, v.id, v.approvals);
    FinishEffect(v, verdict, actor);
    var w := Finish(v, verdict, actor).value;
    UpsertPresent(v.checkpoints, CheckpointKey, Checkpoint(DeliveryOf(v.id), true, "system", DELIVERY_NOTE));
    assert Steady(w);
    assert HasDelivery(w) <==> w.status == Completed;
  }

  /******* Execution as a whole *******/

  predicate MayExecute(v: Record, approved: set<ActionType>, simulateFailure: bool) {
    && Executing(v, 0)
    && (HasApproved(v.approvals) ==> ExternalApiSend in approved && !simulateFailure)
  }

  lemma ConcludeKeeps(v: Record, provider: Provider, approved: set<ActionType>, simulateFailure: bool, actor: Actor,
                      approvalId: nat)
    requires Steady(v) && MayExecute(v, approved, simulateFailure)
    ensures var result := Conclude(RunTasks(v, 0, provider, approved, simulateFailure, actor, None), actor, approvalId);
      && result.Ok? && Stored(result.value)
      && (provider == Mock ==> result.value.approvals == v.approvals)
      && (if result.value.status == WaitingApproval then provider != Mock && ExternalApiSend !in approved
          else result.value.status == if simulateFailure then RevisionRequested else Completed)
  {
    hide Upsert, Steady, Executing, RunTasks, Pause, Finish, HasApproved, Coupled;
    NotYetJudged(v, simulateFailure);
    RunTasksKeeps(v, 0, provider, approved, simulateFailure, actor, None);
    match RunTasks(v, 0, provider, approved, simulateFailure, actor, None)
    case PausedAt(w, i) =>
      var u :| InterruptedFrom(u, w, i, actor);
      PauseSteady(u, w, i, actor, approvalId);
      PauseCouples(u, w, i, actor, approvalId);
      PauseStatus(u, w, i, actor, approvalId);
    case Finished(w, verdict) =>
      FinishKeeps(w, verdict, actor, simulateFailure);
  }

  lemma NotYetJudged(v: Record, simulateFailure: bool)
    requires Steady(v) && Executing(v, 0)
    ensures Judged(v, 0, None, simulateFailure)
  {
  }

  lemma PauseStatus(u: Record, v: Record, i: nat, actor: Actor, approvalId: nat)
    requires InterruptedFrom(u, v, i, actor)
    ensures Pause(v, i, actor, approvalId).Ok? && Pause(v, i, actor, approvalId).value.status == WaitingApproval
  {
    hide Upsert, Steady, Pause;
    PauseEffect(v, i, actor, approvalId);
  }

  /** Execution either refuses the provider name or saves a stored record; without a pause it completes. */
  lemma ExecuteKeeps(v: Record, launch: Launch, approved: set<ActionType>, simulateFailure: bool, actor: Actor,
                     approvalId: nat)
    requires Steady(v) && MayExecute(v, approved, simulateFailure)
    ensures var o := Execute(v, launch, approved, simulateFailure, actor, approvalId);
      match ResolveProvider(launch)
      case None => o == Raise(UnsupportedProvider)
      case Some(provider) =>
        && o.saved.Some? && o.answer == Summary(o.saved.value) && Stored(o.saved.value)
        && (provider == Mock ==> o.saved.value.approvals == v.approvals)
        && (if o.saved.value.status == WaitingApproval then provider != Mock && ExternalApiSend !in approved
            else o.saved.value.status == if simulateFailure then RevisionRequested else Completed)
  {
    hide Steady, Stored, MayExecute, RunTasks, ResolveProvider;
    match ResolveProvider(launch)
    case None =>
    case Some(provider) =>
      ConcludeKeeps(v, provider, approved, simulateFailure, actor, approvalId);
  }
}
