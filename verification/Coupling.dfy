/** The coupling of status, tasks, approvals and checkpoints in records that the orchestrator creates,
    through the task loop. */
module Coupling {
  import opened Prelude
  import opened Domain
  import opened Workflow
  import opened AuditLog
  import opened Soundness

  /** Ordered plans that begin with work and end with a review. */
  predicate GoodPlan(plan: seq<TaskShape>) {
    OrderedPlan(plan) && plan != [] && plan[0].department != Review && plan[|plan| - 1].department == Review
  }

  /******* Parts of the invariant *******/

  /** Finished work left an artifact. */
  predicate HasOutput(v: Record) {
    forall k :: 0 <= k < |v.tasks| && v.tasks[k].status == Done && v.tasks[k].department != Review ==> v.artifacts != []
  }

  predicate LastOpen(tasks: seq<Task>) {
    tasks != [] && tasks[|tasks| - 1].status != Done
  }

  predicate OnlyExternal(approvals: seq<Approval>) {
    forall k :: 0 <= k < |approvals| ==> approvals[k].action == ExternalApiSend
  }

  predicate AllDecided(approvals: seq<Approval>) {
    forall k :: 0 <= k < |approvals| ==> approvals[k].status != Undecided
  }

  /** Only the last approval is undecided. */
  predicate LastUndecided(approvals: seq<Approval>) {
    && approvals != [] && approvals[|approvals| - 1].status == Undecided
    && AllDecided(approvals[..|approvals| - 1])
  }

  predicate HasApproved(approvals: seq<Approval>) {
    exists k :: 0 <= k < |approvals| && approvals[k].status == Approved
  }

  predicate HasDelivery(v: Record) {
    exists k :: 0 <= k < |v.checkpoints| && v.checkpoints[k].id == DeliveryOf(v.id)
  }

  /** The one approval checkpoint carries the flag. */
  predicate Note(checkpoints: seq<Checkpoint>, id: nat, approved: bool) {
    exists k :: 0 <= k < |checkpoints| && NoteAt(checkpoints, id, approved, k)
  }

  predicate NoteAt(checkpoints: seq<Checkpoint>, id: nat, approved: bool, k: nat) {
    && k < |checkpoints| && checkpoints[k].id == ApprovalOf(id) && checkpoints[k].approved == approved
    && forall j :: 0 <= j < |checkpoints| && j != k ==> checkpoints[j].id != ApprovalOf(id)
  }

  /** The approval checkpoint is there once an approval was requested, and says whether one was given. */
  predicate Noted(checkpoints: seq<Checkpoint>, id: nat, approvals: seq<Approval>) {
    if approvals == [] then forall k :: 0 <= k < |checkpoints| ==> checkpoints[k].id != ApprovalOf(id)
    else Note(checkpoints, id, HasApproved(approvals))
  }

  predicate LastAccepted(reviews: seq<ReviewNote>) {
    reviews != [] && reviews[|reviews| - 1].verdict == Accepted
  }

  predicate LastRefused(reviews: seq<ReviewNote>) {
    reviews != [] && reviews[|reviews| - 1].verdict == ChangesRequested
  }

  predicate HasRejected(approvals: seq<Approval>) {
    exists k :: 0 <= k < |approvals| && approvals[k].status == Rejected
  }

  predicate WaitsAt(tasks: seq<Task>, i: nat) {
    && i < |tasks| && tasks[i].status == Waiting
    && forall k :: 0 <= k < |tasks| && k != i ==> tasks[k].status != Waiting
  }

  predicate NoneWaits(tasks: seq<Task>) {
    forall k :: 0 <= k < |tasks| ==> tasks[k].status != Waiting
  }

  predicate AllDone(tasks: seq<Task>) {
    forall k :: 0 <= k < |tasks| ==> tasks[k].status == Done
  }

  predicate AtRest(status: TaskStatus) {
    status == Pending || status == NeedsRevision || status == Done
  }

  /** What holds of plan, tasks and approvals between any two operations and inside them. */
  predicate Steady(v: Record) {
    GoodPlan(Shape(v.tasks)) && HasOutput(v) && OnlyExternal(v.approvals)
  }

  /** The coupling of a stored record. */
  predicate Coupled(v: Record) {
    && v.status in {WaitingApproval, RevisionRequested, ReadyForPlanning, Completed}
    && (forall k :: 0 <= k < |v.tasks| ==> AtRest(v.tasks[k].status) || v.tasks[k].status == Waiting)
    && (if v.status == WaitingApproval then exists i :: 0 <= i < |v.tasks| && WaitsAt(v.tasks, i)
      else NoneWaits(v.tasks))
    && (if v.status == WaitingApproval then LastUndecided(v.approvals) else AllDecided(v.approvals))
    && (v.status in {WaitingApproval, ReadyForPlanning} ==> LastOpen(v.tasks))
    && (HasApproved(v.approvals) ==> v.status == Completed)
    && (v.status == Completed ==> AllDone(v.tasks) && LastAccepted(v.reviews))
    && (v.status == RevisionRequested ==> HasRejected(v.approvals) || LastRefused(v.reviews))
    && (HasDelivery(v) <==> v.status == Completed)
    && Noted(v.checkpoints, v.id, v.approvals)
  }

  predicate Stored(v: Record) {
    Steady(v) && Coupled(v)
  }

  /** A record in execution, with the tasks before `i` behind it. */
  predicate Executing(v: Record, i: nat) {
    && v.status == InProgress
    && i <= |v.tasks|
    && (forall k :: 0 <= k < i ==> v.tasks[k].status == Done)
    && (forall k :: i <= k < |v.tasks| ==> AtRest(v.tasks[k].status))
    && (i < |v.tasks| ==> LastOpen(v.tasks))
    && AllDecided(v.approvals)
    && !HasDelivery(v)
    && Noted(v.checkpoints, v.id, v.approvals)
  }

  /******* One task *******/

  /** Working on the next open task keeps everything and moves the frontier. */
  lemma WorkOnAdvances(v: Record, i: nat, provider: Provider, simulateFailure: bool, actor: Actor)
    requires Steady(v) && Executing(v, i) && i < |v.tasks| && v.tasks[i].status != Done
    ensures var w := WorkOn(v, i, provider, simulateFailure, actor); Steady(w) && Executing(w, i + 1)
  {
    hide GoodPlan, Upsert, WorkOn;
    WorkOnEffect(v, i, provider, simulateFailure, actor);
    SameShape(v.tasks, i, v.tasks[i].(status := Done));
    UpsertPresent(v.artifacts, ArtifactId, ProducedArtifact(v.tasks[i], provider));
    var w := WorkOn(v, i, provider, simulateFailure, actor);
    assert HasOutput(w) by {
      forall k | 0 <= k < |w.tasks| && w.tasks[k].status == Done && w.tasks[k].department != Review
        ensures w.artifacts != []
      {
        if k != i {
          assert v.tasks[k].status == Done && v.tasks[k].department != Review;
        }
      }
    }
  }

  /** The first task is work and the last one a review, so whatever is reviewed last has artifacts. */
  lemma LastReviewSeesOutput(v: Record, i: nat)
    requires Steady(v) && Executing(v, i) && i == |v.tasks| - 1
    ensures v.tasks[i].department == Review && v.artifacts != []
  {
  }

  /******* The task loop *******/

  function Outcomes(simulateFailure: bool): Verdict {
    if simulateFailure then ChangesRequested else Accepted
  }

  /** After the last task, the cycle's verdict is that of the last review on record. */
  predicate Judged(v: Record, i: nat, verdict: Option<Verdict>, simulateFailure: bool) {
    i == |v.tasks| ==>
      && verdict == Some(Outcomes(simulateFailure))
      && v.reviews != [] && v.reviews[|v.reviews| - 1].verdict == Outcomes(simulateFailure)
  }

  /** `w` is an executing record whose open task `i` has just been started. */
  predicate InterruptedFrom(u: Record, w: Record, i: nat, actor: Actor) {
    && Steady(u) && Executing(u, i) && i < |u.tasks| && u.tasks[i].status != Done
    && w == SetTaskStatus(u, i, Started, actor)
  }

  ghost predicate Interrupted(w: Record, i: nat, actor: Actor) {
    exists u :: InterruptedFrom(u, w, i, actor)
  }

  function NextVerdict(v: Record, i: nat, simulateFailure: bool, verdict: Option<Verdict>): Option<Verdict>
    requires i < |v.tasks|
  {
    if v.tasks[i].department == Review then Some(ReviewOf(v.tasks[i], v.artifacts, simulateFailure).verdict)
      else verdict
  }

  lemma SkipAdvances(v: Record, i: nat, verdict: Option<Verdict>, simulateFailure: bool)
    requires Executing(v, i) && i < |v.tasks| && v.tasks[i].status == Done
    ensures Executing(v, i + 1) && Judged(v, i + 1, verdict, simulateFailure)
  {
  }

  lemma WorkOnJudged(v: Record, i: nat, provider: Provider, simulateFailure: bool, actor: Actor,
                     verdict: Option<Verdict>)
    requires Steady(v) && Executing(v, i) && i < |v.tasks| && v.tasks[i].status != Done
    ensures var w := WorkOn(v, i, provider, simulateFailure, actor);
      && Judged(w, i + 1, NextVerdict(v, i, simulateFailure, verdict), simulateFailure)
      && w.approvals == v.approvals && w.checkpoints == v.checkpoints && |w.tasks| == |v.tasks|
  {
    hide GoodPlan, Upsert, WorkOn;
    WorkOnEffect(v, i, provider, simulateFailure, actor);
    if i == |v.tasks| - 1 {
      LastReviewSeesOutput(v, i);
    }
  }

  /** The task loop keeps the invariant and, at its end, carries the verdict of the last review. */
  lemma {:induction false} RunTasksKeeps(v: Record, i: nat, provider: Provider, approved: set<ActionType>,
      simulateFailure: bool, actor: Actor, verdict: Option<Verdict>)
    requires i <= |v.tasks| && Steady(v) && Executing(v, i) && Judged(v, i, verdict, simulateFailure)
    ensures var c := RunTasks(v, i, provider, approved, simulateFailure, actor, verdict);
      && c.record.approvals == v.approvals && c.record.checkpoints == v.checkpoints
      && match c
         case Finished(w, last) =>
           Steady(w) && Executing(w, |w.tasks|) && Judged(w, |w.tasks|, last, simulateFailure)
         case PausedAt(w, k) =>
           MustWait(w.tasks[k], provider, approved) && Interrupted(w, k, actor)
    decreases |v.tasks| - i
  {
    hide Steady, Executing, Judged, WorkOn, MustWait, SetTaskStatus;
    if i == |v.tasks| {
    } else if v.tasks[i].status == Done {
      SkipAdvances(v, i, verdict, simulateFailure);
      RunTasksKeeps(v, i + 1, provider, approved, simulateFailure, actor, verdict);
    } else if MustWait(v.tasks[i], provider, approved) {
      StartWaits(v, i, provider, approved, actor);
      assert InterruptedFrom(v, SetTaskStatus(v, i, Started, actor), i, actor);
    } else {
      var w := WorkOn(v, i, provider, simulateFailure, actor);
      var next := NextVerdict(v, i, simulateFailure, verdict);
      WorkOnAdvances(v, i, provider, simulateFailure, actor);
      WorkOnJudged(v, i, provider, simulateFailure, actor, verdict);
      RunTasksKeeps(w, i + 1, provider, approved, simulateFailure, actor, next);
    }
  }

  lemma StartWaits(v: Record, i: nat, provider: Provider, approved: set<ActionType>, actor: Actor)
    requires i < |v.tasks| && MustWait(v.tasks[i], provider, approved)
    ensures var w := SetTaskStatus(v, i, Started, actor);
      && w.approvals == v.approvals && w.checkpoints == v.checkpoints && |w.tasks| == |v.tasks|
      && MustWait(w.tasks[i], provider, approved)
  {
  }
}
