/** What execution keeps of any record, whatever its plan and whatever types of approval it holds:
    the audit invariant, done tasks closed under dependencies, and the gate on external artifacts. */
module Soundness {
  import opened Prelude
  import opened Domain
  import opened Workflow
  import opened AuditLog
  import opened Calls

  /******* Plans *******/

  predicate InDependencyOrder(plan: seq<TaskShape>) {
    forall i, d :: 0 <= i < |plan| && d in plan[i].dependsOn ==> exists j :: 0 <= j < i && plan[j].id == d
  }

  predicate ClosedUnderDependents(plan: seq<TaskShape>, departments: set<Department>) {
    forall i, j ::
      0 <= i < |plan| && 0 <= j < |plan| && plan[j].id in plan[i].dependsOn && plan[j].department in departments
      ==> plan[i].department in departments
  }

  /** Plans in dependency order whose resets follow their dependencies. */
  predicate OrderedPlan(plan: seq<TaskShape>) {
    UniqueIds(plan) && InDependencyOrder(plan) && forall mode :: ClosedUnderDependents(plan, ResetDepartments(mode))
  }

  /******* The invariant *******/

  /** The done tasks are closed under dependencies. */
  predicate DoneClosed(tasks: seq<Task>) {
    forall i, j ::
      0 <= i < |tasks| && 0 <= j < |tasks| && tasks[i].status == Done && tasks[j].id in tasks[i].dependsOn
      ==> tasks[j].status == Done
  }

  predicate IsExternal(artifact: Artifact) {
    artifact.provider.Some? && artifact.provider.value != Mock
  }

  predicate HasExternalArtifact(v: Record) {
    exists k :: 0 <= k < |v.artifacts| && IsExternal(v.artifacts[k])
  }

  /** The external action has been approved on the record, or some caller vouched for it. */
  predicate Cleared(v: Record, vouched: bool) {
    vouched || ExternalApiSend in TypesWith(v.approvals, Approved)
  }

  predicate Gated(v: Record, vouched: bool) {
    HasExternalArtifact(v) ==> Cleared(v, vouched)
  }

  ghost predicate Sound(v: Record) {
    OrderedPlan(Shape(v.tasks)) && Audit(v) && DoneClosed(v.tasks)
  }

  /** What an operation makes of a sound record. */
  ghost predicate Follows(v: Record, w: Record, vouched: bool) {
    Sound(w) && Evolves(v, w) && Gated(w, vouched)
  }

  /******* One task *******/

  lemma StartableInOrder(tasks: seq<Task>, i: nat)
    requires InDependencyOrder(Shape(tasks)) && i < |tasks|
    requires forall k :: 0 <= k < i ==> tasks[k].status == Done
    ensures Startable(tasks, i)
  {
  }

  lemma UpsertPresent<T, K>(xs: seq<T>, key: T -> K, x: T)
    ensures var ys := Upsert(xs, key, x);
      && ys != []
      && (exists k :: 0 <= k < |ys| && ys[k] == x)
      && (forall k :: 0 <= k < |ys| ==> ys[k] == x || (k < |xs| && ys[k] == xs[k]))
      && |xs| <= |ys| <= |xs| + 1
      && (forall k :: 0 <= k < |xs| && key(xs[k]) != key(x) ==> ys[k] == xs[k])
  {
  }

  lemma WorkOnEffect(v: Record, i: nat, provider: Provider, simulateFailure: bool, actor: Actor)
    requires i < |v.tasks| && v.tasks[i].status != Done
    ensures var w := WorkOn(v, i, provider, simulateFailure, actor); var task := v.tasks[i];
      && w == v.(tasks := v.tasks[i := task.(status := Done)], artifacts := w.artifacts, reviews := w.reviews,
        events := w.events)
      && (if task.department == Review
          then w.artifacts == v.artifacts && w.reviews == v.reviews + [ReviewOf(task, v.artifacts, simulateFailure)]
          else w.reviews == v.reviews && w.artifacts == Upsert(v.artifacts, ArtifactId,
            ProducedArtifact(task, provider)))
      && v.events <= w.events
  {
  }

  lemma WorkOnKeeps(v: Record, i: nat, provider: Provider, simulateFailure: bool, actor: Actor)
    requires Audit(v) && i < |v.tasks| && Startable(v.tasks, i)
    ensures Audit(WorkOn(v, i, provider, simulateFailure, actor))
    ensures Evolves(v, WorkOn(v, i, provider, simulateFailure, actor))
  {
    hide Audit, Evolves;
    var started := SetTaskStatus(v, i, Started, actor);
    SetTaskStatusKeeps(v, i, Started, actor);
    var performed := Perform(started, v.tasks[i], provider, simulateFailure);
    UnloggedKeeps(started, performed);
    EvolvesTransitive(v, started, performed);
    SetTaskStatusKeeps(performed, i, Done, actor);
    EvolvesTransitive(v, performed, SetTaskStatus(performed, i, Done, actor));
  }

  lemma DoneClosedAfter(tasks: seq<Task>, i: nat)
    requires i < |tasks| && InDependencyOrder(Shape(tasks)) && UniqueIds(Shape(tasks)) && DoneClosed(tasks)
    requires forall k :: 0 <= k < i ==> tasks[k].status == Done
    ensures DoneClosed(tasks[i := tasks[i].(status := Done)])
  {
  }

  /** Working on the first open task keeps the record sound, and gated unless the task had to wait. */
  lemma WorkOnSound(v: Record, i: nat, provider: Provider, approved: set<ActionType>, simulateFailure: bool,
                    actor: Actor, vouched: bool)
    requires Sound(v) && i < |v.tasks| && v.tasks[i].status != Done
    requires forall k :: 0 <= k < i ==> v.tasks[k].status == Done
    requires Gated(v, vouched) && (ExternalApiSend in approved ==> Cleared(v, vouched))
    requires !MustWait(v.tasks[i], provider, approved)
    ensures Follows(v, WorkOn(v, i, provider, simulateFailure, actor), vouched)
    ensures Cleared(v, vouched) ==> Cleared(WorkOn(v, i, provider, simulateFailure, actor), vouched)
  {
    hide Audit, Evolves, Upsert, WorkOn;
    StartableInOrder(v.tasks, i);
    WorkOnKeeps(v, i, provider, simulateFailure, actor);
    WorkOnEffect(v, i, provider, simulateFailure, actor);
    DoneClosedAfter(v.tasks, i);
    SameShape(v.tasks, i, v.tasks[i].(status := Done));
    UpsertPresent(v.artifacts, ArtifactId, ProducedArtifact(v.tasks[i], provider));
    var w := WorkOn(v, i, provider, simulateFailure, actor);
    if k :| 0 <= k < |w.artifacts| && IsExternal(w.artifacts[k]) {
      if !(k < |v.artifacts| && IsExternal(v.artifacts[k])) {
        assert w.artifacts[k] == ProducedArtifact(v.tasks[i], provider);
      }
    }
  }

  lemma StartSound(v: Record, i: nat, actor: Actor, vouched: bool)
    requires Sound(v) && i < |v.tasks| && v.tasks[i].status != Done && Gated(v, vouched)
    requires forall k :: 0 <= k < i ==> v.tasks[k].status == Done
    ensures var w := SetTaskStatus(v, i, Started, actor);
      Follows(v, w, vouched) && w.status == v.status && |w.tasks| == |v.tasks| && w.tasks[i].status == Started
  {
    hide Audit, Evolves;
    StartableInOrder(v.tasks, i);
    SetTaskStatusKeeps(v, i, Started, actor);
    SameShape(v.tasks, i, v.tasks[i].(status := Started));
  }

  /******* Execution *******/

  lemma {:induction false} RunTasksSound(v: Record, i: nat, provider: Provider, approved: set<ActionType>,
      simulateFailure: bool, actor: Actor, verdict: Option<Verdict>, vouched: bool)
    requires i <= |v.tasks| && Sound(v) && Gated(v, vouched)
    requires forall k :: 0 <= k < i ==> v.tasks[k].status == Done
    requires ExternalApiSend in approved ==> Cleared(v, vouched)
    ensures var c := RunTasks(v, i, provider, approved, simulateFailure, actor, verdict);
      && Follows(v, c.record, vouched) && c.record.status == v.status
      && (c.PausedAt? ==> c.record.tasks[c.i].status == Started)
    decreases |v.tasks| - i
  {
    hide Sound, Evolves, Gated, Cleared, WorkOn, SetTaskStatus, MustWait, ReviewOf, Upsert;
    EvolvesReflexive(v);
    if i == |v.tasks| {
    } else if v.tasks[i].status == Done {
      RunTasksSound(v, i + 1, provider, approved, simulateFailure, actor, verdict, vouched);
    } else if MustWait(v.tasks[i], provider, approved) {
      StartSound(v, i, actor, vouched);
    } else {
      var w := WorkOn(v, i, provider, simulateFailure, actor);
      var next := if v.tasks[i].department == Review
        then Some(ReviewOf(v.tasks[i], v.artifacts, simulateFailure).verdict) else verdict;
      WorkOnSound(v, i, provider, approved, simulateFailure, actor, vouched);
      WorkOnEffect(v, i, provider, simulateFailure, actor);
      RunTasksSound(w, i + 1, provider, approved, simulateFailure, actor, next, vouched);
      EvolvesTransitive(v, w, RunTasks(w, i + 1, provider, approved, simulateFailure, actor, next).record);
    }
  }

  /** A pause keeps log and history in order. */
  lemma PauseAudited(v: Record, i: nat, actor: Actor, approvalId: nat)
    requires Audit(v) && i < |v.tasks| && v.status == InProgress
    ensures Pause(v, i, actor, approvalId).Ok?
    ensures Audit(Pause(v, i, actor, approvalId).value) && Evolves(v, Pause(v, i, actor, approvalId).value)
  {
    hide Audit, Evolves, Upsert;
    var waiting := SetTaskStatus(v, i, Waiting, actor);
    SetTaskStatusKeeps(v, i, Waiting, actor);
    var requested := if ExternalApiSend in TypesWith(waiting.approvals, Undecided) then waiting
                     else RequestApproval(waiting, approvalId);
    EvolvesReflexive(waiting);
    RequestApprovalKeeps(waiting, approvalId);
    EvolvesTransitive(v, waiting, requested);
    var noted := requested.(checkpoints := Upsert(requested.checkpoints, CheckpointKey,
      Checkpoint(ApprovalOf(v.id), false, "human", ANALYSIS_REQUEST)));
    UnloggedKeeps(requested, noted);
    EvolvesTransitive(v, requested, noted);
    TransitionKeeps(noted, WaitingApproval, actor);
    EvolvesTransitive(v, noted, Transition(noted, WaitingApproval, actor).value);
  }

  lemma PauseSound(v: Record, i: nat, actor: Actor, approvalId: nat, vouched: bool)
    requires Sound(v) && Gated(v, vouched) && i < |v.tasks| && v.tasks[i].status == Started && v.status == InProgress
    ensures Pause(v, i, actor, approvalId).Ok? && Follows(v, Pause(v, i, actor, approvalId).value, vouched)
  {
    hide Audit, Evolves, Upsert;
    PauseAudited(v, i, actor, approvalId);
    var w := Pause(v, i, actor, approvalId).value;
    SameShape(v.tasks, i, v.tasks[i].(status := Waiting));
    assert w.tasks == v.tasks[i := v.tasks[i].(status := Waiting)];
    assert v.approvals <= w.approvals && w.artifacts == v.artifacts;
    ApprovedStay(v.approvals, w.approvals);
  }

  /** Approved approvals are not taken back. */
  lemma ApprovedStay(before: seq<Approval>, after: seq<Approval>)
    requires |before| <= |after|
    requires forall k :: 0 <= k < |before| && before[k].status == Approved ==> after[k] == before[k]
    ensures TypesWith(before, Approved) <= TypesWith(after, Approved)
  {
  }

  lemma FinishAudited(v: Record, verdict: Option<Verdict>, actor: Actor)
    requires Audit(v) && v.status == InProgress
    ensures Finish(v, verdict, actor).Ok?
    ensures Audit(Finish(v, verdict, actor).value) && Evolves(v, Finish(v, verdict, actor).value)
  {
    hide Audit, Evolves, Upsert;
    if verdict == Some(ChangesRequested) {
      TransitionKeeps(v, ReviewFailed, actor);
      var failed := Transition(v, ReviewFailed, actor).value;
      TransitionKeeps(failed, RevisionRequested, actor);
      var requested := Transition(failed, RevisionRequested, actor).value;
      EventKeeps(requested, RevisionWasRequested, actor);
      EvolvesTransitive(v, failed, requested);
      EvolvesTransitive(v, requested, RecordEvent(requested, RevisionWasRequested, actor));
    } else {
      var noted := v.(checkpoints := Upsert(v.checkpoints, CheckpointKey,
        Checkpoint(DeliveryOf(v.id), true, "system", DELIVERY_NOTE)));
      UnloggedKeeps(v, noted);
      TransitionKeeps(noted, Completed, actor);
      EvolvesTransitive(v, noted, Transition(noted, Completed, actor).value);
    }
  }

  lemma FinishEffect(v: Record, verdict: Option<Verdict>, actor: Actor)
    requires v.status == InProgress
    ensures Finish(v, verdict, actor).Ok?
    ensures var w := Finish(v, verdict, actor).value;
      && w == v.(status := w.status, checkpoints := w.checkpoints, history := w.history, events := w.events)
      && (if verdict == Some(ChangesRequested)
          then w.status == RevisionRequested && w.checkpoints == v.checkpoints
          else w.status == Completed && w.checkpoints == Upsert(v.checkpoints, CheckpointKey,
            Checkpoint(DeliveryOf(v.id), true, "system", DELIVERY_NOTE)))
  {
    hide Upsert;
  }

  lemma FinishSound(v: Record, verdict: Option<Verdict>, actor: Actor, vouched: bool)
    requires Sound(v) && Gated(v, vouched) && v.status == InProgress
    ensures Finish(v, verdict, actor).Ok? && Follows(v, Finish(v, verdict, actor).value, vouched)
  {
    hide Audit, Evolves, Finish;
    FinishAudited(v, verdict, actor);
    FinishEffect(v, verdict, actor);
  }

  lemma ExecuteSound(v: Record, launch: Launch, approved: set<ActionType>, simulateFailure: bool, actor: Actor,
                     approvalId: nat, vouched: bool)
    requires Sound(v) && Gated(v, vouched) && v.status == InProgress
    requires ExternalApiSend in approved ==> Cleared(v, vouched)
    ensures var o := Execute(v, launch, approved, simulateFailure, actor, approvalId);
      o.saved.Some? ==> Follows(v, o.saved.value, vouched)
  {
    hide Sound, Evolves, Gated, Cleared, RunTasks, Pause, Finish, ResolveProvider;
    if ResolveProvider(launch).Some? {
      var provider := ResolveProvider(launch).value;
      RunTasksSound(v, 0, provider, approved, simulateFailure, actor, None, vouched);
      match RunTasks(v, 0, provider, approved, simulateFailure, actor, None)
      case PausedAt(w, i) =>
        PauseSound(w, i, actor, approvalId, vouched);
        EvolvesTransitive(v, w, Pause(w, i, actor, approvalId).value);
      case Finished(w, verdict) =>
        FinishSound(w, verdict, actor, vouched);
        EvolvesTransitive(v, w, Finish(w, verdict, actor).value);
    }
  }

  /** Execution with a caller's list, which vouches for what it names. */
  lemma ExecuteWithSound(u: Record, v: Record, launch: Launch, inputs: seq<ActionInput>, actor: Actor, approvalId: nat,
                         vouched: bool)
    requires Follows(u, v, vouched) && v.status == InProgress
    ensures var o := ExecuteWith(v, launch, inputs, false, actor, approvalId);
      o.saved.Some? ==> Follows(u, o.saved.value, vouched || PreApproves(inputs))
  {
    hide Sound, Evolves, Execute, ParseActions, HasExternalArtifact;
    if ParseActions(inputs).Ok? {
      ExecuteSound(v, launch, ParseActions(inputs).value, false, actor, approvalId, vouched || PreApproves(inputs));
      var o := ExecuteWith(v, launch, inputs, false, actor, approvalId);
      if o.saved.Some? {
        EvolvesTransitive(u, v, o.saved.value);
      }
    }
  }
}
