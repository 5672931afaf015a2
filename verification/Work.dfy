/** What an execution does to any record, task by task: which tasks it works on, in which steps, what it leaves behind,
    and where it stops. */
module Work {
  import opened Prelude
  import opened Domain
  import opened Workflow
  import opened AuditLog
  import opened Soundness
  import opened Coupling
  import opened Retry
  import Text

  /******* The trail of a task in the log *******/

  /** The changes of one task that the log tells of, in order. */
  function Trail(es: seq<Event>, id: string): seq<(TaskStatus, TaskStatus)> {
    if es == [] then []
    else
      var rest := Trail(es[..|es| - 1], id);
      match es[|es| - 1].kind
      case TaskStatusChanged(changed, before, after) => if changed == id then rest + [(before, after)] else rest
      case _ => rest
  }

  lemma TrailSnoc(es: seq<Event>, e: Event, id: string)
    ensures Trail(es + [e], id) == Trail(es, id) +
      if e.kind.TaskStatusChanged? && e.kind.taskId == id then [(e.kind.before, e.kind.after)] else []
  {
    Snoc(es, e);
  }

  /** The step from one status to another, if it is one. */
  function Change(before: TaskStatus, after: TaskStatus): seq<(TaskStatus, TaskStatus)> {
    if before == after then [] else [(before, after)]
  }

  lemma StatusTrail(v: Record, i: nat, next: TaskStatus, actor: Actor, id: string)
    requires i < |v.tasks|
    ensures Trail(SetTaskStatus(v, i, next, actor).events, id) ==
      Trail(v.events, id) + if id == v.tasks[i].id then Change(v.tasks[i].status, next) else []
  {
    TrailSnoc(v.events, Event(TaskStatusChanged(v.tasks[i].id, v.tasks[i].status, next), actor), id);
  }

  /** A log that goes on without changing the trail says nothing about the task. */
  lemma {:induction false} SameTrailIsSilent(es: seq<Event>, more: seq<Event>, id: string)
    requires Trail(es + more, id) == Trail(es, id)
    ensures forall k :: 0 <= k < |more| ==> !(more[k].kind.TaskStatusChanged? && more[k].kind.taskId == id)
    decreases |more|
  {
    if more != [] {
      var n := |more| - 1;
      assert es + more == (es + more[..n]) + [more[n]];
      TrailSnoc(es + more[..n], more[n], id);
      TrailGrows(es, more[..n], id);
      SameTrailIsSilent(es, more[..n], id);
    }
  }

  lemma {:induction false} TrailGrows(es: seq<Event>, more: seq<Event>, id: string)
    ensures Trail(es, id) <= Trail(es + more, id)
    decreases |more|
  {
    if more == [] {
      assert es + more == es;
    } else {
      var n := |more| - 1;
      assert es + more == (es + more[..n]) + [more[n]];
      TrailSnoc(es + more[..n], more[n], id);
      TrailGrows(es, more[..n], id);
    }
  }

  /******* One task *******/

  lemma WorkTrail(v: Record, i: nat, provider: Provider, simulateFailure: bool, actor: Actor, id: string)
    requires i < |v.tasks| && v.tasks[i].status != Done
    ensures Trail(WorkOn(v, i, provider, simulateFailure, actor).events, id) ==
      Trail(v.events, id) + if id == v.tasks[i].id then Change(v.tasks[i].status, Started) + [(Started, Done)] else []
  {
    hide Trail, Upsert, SetTaskStatus;
    var started := SetTaskStatus(v, i, Started, actor);
    StatusTrail(v, i, Started, actor, id);
    assert |started.tasks| == |v.tasks| && started.tasks[i] == v.tasks[i].(status := Started) by {
      StartedTask(v, i, actor);
    }
    var performed := Perform(started, v.tasks[i], provider, simulateFailure);
    StatusTrail(performed, i, Done, actor, id);
  }

  lemma StartedTask(v: Record, i: nat, actor: Actor)
    requires i < |v.tasks|
    ensures var w := SetTaskStatus(v, i, Started, actor);
      && w == v.(tasks := v.tasks[i := v.tasks[i].(status := Started)], events := w.events)
      && v.events <= w.events
  {
  }

  /** The artifact of a task is there; a trend analysis names the provider that ran. */
  predicate Delivered(artifacts: seq<Artifact>, task: Task, provider: Provider) {
    exists j :: 0 <= j < |artifacts| && DeliveredAt(artifacts, task, provider, j)
  }

  predicate DeliveredAt(artifacts: seq<Artifact>, task: Task, provider: Provider, j: nat) {
    && j < |artifacts| && artifacts[j].id == "artifact-" + task.id && artifacts[j].taskId == task.id
    && artifacts[j].kind == task.department
    && (task.department == Trend ==> artifacts[j].provider == Some(provider))
    && (task.department != Trend ==> artifacts[j].provider == None)
  }

  lemma SameArtifactId(a: string, b: string)
    requires "artifact-" + a == "artifact-" + b
    ensures a == b
  {
    assert a == ("artifact-" + a)[9..] && b == ("artifact-" + b)[9..];
  }

  lemma WorkDelivers(v: Record, i: nat, provider: Provider, simulateFailure: bool, actor: Actor)
    requires i < |v.tasks| && v.tasks[i].status != Done && v.tasks[i].department != Review
    ensures Delivered(WorkOn(v, i, provider, simulateFailure, actor).artifacts, v.tasks[i], provider)
  {
    hide WorkOn, Upsert;
    WorkOnEffect(v, i, provider, simulateFailure, actor);
    UpsertPresent(v.artifacts, ArtifactId, ProducedArtifact(v.tasks[i], provider));
    var after := WorkOn(v, i, provider, simulateFailure, actor).artifacts;
    var j :| 0 <= j < |after| && after[j] == ProducedArtifact(v.tasks[i], provider);
    assert DeliveredAt(after, v.tasks[i], provider, j);
  }

  /** Work on one task leaves the artifacts of the others where they are. */
  lemma WorkKeepsArtifacts(v: Record, i: nat, provider: Provider, simulateFailure: bool, actor: Actor, j: nat)
    requires i < |v.tasks| && v.tasks[i].status != Done && j < |v.artifacts|
    requires v.artifacts[j].id != "artifact-" + v.tasks[i].id
    ensures var after := WorkOn(v, i, provider, simulateFailure, actor).artifacts;
      j < |after| && after[j] == v.artifacts[j]
  {
    hide WorkOn, Upsert;
    WorkOnEffect(v, i, provider, simulateFailure, actor);
    UpsertPresent(v.artifacts, ArtifactId, ProducedArtifact(v.tasks[i], provider));
  }

  /******* The task loop *******/

  /** The task needs an external provider that nobody approved. */
  predicate NeedsApproval(task: Task, provider: Provider, approved: set<ActionType>) {
    task.status != Done && task.department == Trend && provider != Mock && ExternalApiSend !in approved
  }

  /** The first task from `i` on that needs approval, or the length if there is none. */
  predicate StopsBefore(tasks: seq<Task>, i: nat, end: nat, provider: Provider, approved: set<ActionType>) {
    && i <= end <= |tasks|
    && (forall k :: i <= k < end ==> !NeedsApproval(tasks[k], provider, approved))
    && (end < |tasks| ==> NeedsApproval(tasks[end], provider, approved))
  }

  function EndOf(c: Cycle): nat {
    if c.PausedAt? then c.i else |c.record.tasks|
  }

  /** The tasks from `i` to `end` are done, the one at `end` is as given, and the others are as before. */
  predicate DoneUpTo(before: seq<Task>, after: seq<Task>, i: nat, end: nat, last: TaskStatus) {
    && |after| == |before|
    && (forall k :: 0 <= k < |before| && i <= k < end ==> after[k] == before[k].(status := Done))
    && (end < |before| ==> after[end] == before[end].(status := last))
    && (forall k :: 0 <= k < |before| && !(i <= k <= end) ==> after[k] == before[k])
  }

  /** One task further, which was done or has just been worked on. */
  lemma ReachOneMore(tasks: seq<Task>, after: seq<Task>, i: nat, end: nat, provider: Provider,
                     approved: set<ActionType>)
    requires i < |tasks| && !NeedsApproval(tasks[i], provider, approved)
    requires var done := tasks[i := tasks[i].(status := Done)];
      StopsBefore(done, i + 1, end, provider, approved) && DoneUpTo(done, after, i + 1, end, Started)
    ensures StopsBefore(tasks, i, end, provider, approved) && DoneUpTo(tasks, after, i, end, Started)
  {
    var done := tasks[i := tasks[i].(status := Done)];
    assert forall k :: 0 <= k < |tasks| && k != i ==> done[k] == tasks[k];
  }

  lemma ReachHere(tasks: seq<Task>, i: nat, provider: Provider, approved: set<ActionType>)
    requires i <= |tasks| && (i < |tasks| ==> NeedsApproval(tasks[i], provider, approved))
    ensures StopsBefore(tasks, i, i, provider, approved)
    ensures i < |tasks| ==> DoneUpTo(tasks, tasks[i := tasks[i].(status := Started)], i, i, Started)
    ensures i == |tasks| ==> DoneUpTo(tasks, tasks, i, i, Started)
  {
  }

  /** The loop works on every open task up to the first that needs approval, and starts that one. */
  lemma {:induction false} RunTasksReach(v: Record, i: nat, provider: Provider, approved: set<ActionType>,
                                         simulateFailure: bool, actor: Actor, verdict: Option<Verdict>)
    requires i <= |v.tasks|
    ensures var c := RunTasks(v, i, provider, approved, simulateFailure, actor, verdict); var w := c.record;
      && w == v.(tasks := w.tasks, artifacts := w.artifacts, reviews := w.reviews, events := w.events)
      && v.events <= w.events && |w.tasks| == |v.tasks| && (c.PausedAt? <==> EndOf(c) < |v.tasks|)
      && StopsBefore(v.tasks, i, EndOf(c), provider, approved) && DoneUpTo(v.tasks, w.tasks, i, EndOf(c), Started)
    decreases |v.tasks| - i
  {
    hide WorkOn, Upsert, StopsBefore, DoneUpTo, SetTaskStatus;
    if i == |v.tasks| || (v.tasks[i].status != Done && MustWait(v.tasks[i], provider, approved)) {
      ReachHere(v.tasks, i, provider, approved);
      if i < |v.tasks| {
        StartedTask(v, i, actor);
      }
    } else {
      if v.tasks[i].status == Done {
        assert v.tasks[i := v.tasks[i].(status := Done)] == v.tasks;
        RunTasksReach(v, i + 1, provider, approved, simulateFailure, actor, verdict);
      } else {
        WorkOnEffect(v, i, provider, simulateFailure, actor);
        RunTasksReach(WorkOn(v, i, provider, simulateFailure, actor), i + 1, provider, approved, simulateFailure, actor,
          NextVerdict(v, i, simulateFailure, verdict));
      }
      var c := RunTasks(v, i, provider, approved, simulateFailure, actor, verdict);
      ReachOneMore(v.tasks, c.record.tasks, i, EndOf(c), provider, approved);
    }
  }

  predicate DistinctTasks(tasks: seq<Task>) {
    forall j, k :: 0 <= j < k < |tasks| ==> tasks[j].id != tasks[k].id
  }

  /** How the loop moves task `k`. */
  function TrailOf(tasks: seq<Task>, k: nat, i: nat, end: nat): seq<(TaskStatus, TaskStatus)>
    requires k < |tasks|
  {
    if k < i || k > end || tasks[k].status == Done then []
    else if k < end then Change(tasks[k].status, Started) + [(Started, Done)]
    else Change(tasks[k].status, Started)
  }

  lemma TrailOneMore(tasks: seq<Task>, k: nat, i: nat, end: nat)
    requires i < end && i < |tasks| && k < |tasks| && DistinctTasks(tasks)
    ensures var done := tasks[i := tasks[i].(status := Done)];
      && DistinctTasks(done) && done[k].id == tasks[k].id
      && TrailOf(tasks, k, i, end) ==
        (if tasks[i].status != Done && tasks[k].id == tasks[i].id
          then Change(tasks[i].status, Started) + [(Started, Done)]
         else []) + TrailOf(done, k, i + 1, end)
  {
    assert k != i ==> tasks[k].id != tasks[i].id;
  }

  lemma {:induction false} RunTasksTrail(v: Record, i: nat, provider: Provider, approved: set<ActionType>,
                                         simulateFailure: bool, actor: Actor, verdict: Option<Verdict>, k: nat)
    requires i <= |v.tasks| && DistinctTasks(v.tasks) && k < |v.tasks|
    ensures var c := RunTasks(v, i, provider, approved, simulateFailure, actor, verdict);
      Trail(c.record.events, v.tasks[k].id) == Trail(v.events, v.tasks[k].id) + TrailOf(v.tasks, k, i, EndOf(c))
    decreases |v.tasks| - i
  {
    hide WorkOn, Upsert, Trail, SetTaskStatus, MustWait, StopsBefore, DoneUpTo, DistinctTasks, TrailOf;
    var id := v.tasks[k].id;
    var c := RunTasks(v, i, provider, approved, simulateFailure, actor, verdict);
    if i == |v.tasks| {
      TrailAtEnd(v.tasks, k);
    } else if v.tasks[i].status == Done {
      assert v.tasks[i := v.tasks[i].(status := Done)] == v.tasks;
      RunTasksTrail(v, i + 1, provider, approved, simulateFailure, actor, verdict, k);
      EndLater(v, i + 1, provider, approved, simulateFailure, actor, verdict);
      TrailOneMore(v.tasks, k, i, EndOf(c));
    } else if MustWait(v.tasks[i], provider, approved) {
      StatusTrail(v, i, Started, actor, id);
      TrailAtStop(v.tasks, k, i);
    } else {
      var w, next := WorkOn(v, i, provider, simulateFailure, actor), NextVerdict(v, i, simulateFailure, verdict);
      WorkOnEffect(v, i, provider, simulateFailure, actor);
      WorkTrail(v, i, provider, simulateFailure, actor, id);
      EndLater(w, i + 1, provider, approved, simulateFailure, actor, next);
      TrailOneMore(v.tasks, k, i, EndOf(c));
      RunTasksTrail(w, i + 1, provider, approved, simulateFailure, actor, next, k);
    }
  }

  lemma TrailAtEnd(tasks: seq<Task>, k: nat)
    requires k < |tasks|
    ensures TrailOf(tasks, k, |tasks|, |tasks|) == []
  {
  }

  lemma TrailAtStop(tasks: seq<Task>, k: nat, i: nat)
    requires k < |tasks| && i < |tasks| && tasks[i].status != Done && DistinctTasks(tasks)
    ensures TrailOf(tasks, k, i, i) == if tasks[k].id == tasks[i].id then Change(tasks[i].status, Started) else []
  {
    assert k != i ==> tasks[k].id != tasks[i].id;
  }

  lemma EndLater(v: Record, i: nat, provider: Provider, approved: set<ActionType>, simulateFailure: bool, actor: Actor,
                 verdict: Option<Verdict>)
    requires i <= |v.tasks|
    ensures var c := RunTasks(v, i, provider, approved, simulateFailure, actor, verdict);
      i <= EndOf(c) <= |v.tasks| && |c.record.tasks| == |v.tasks|
  {
    hide RunTasks;
    RunTasksReach(v, i, provider, approved, simulateFailure, actor, verdict);
  }

  /** The loop works on a task other than reviews, from `i` on and before `end`, that has the id. */
  predicate Produces(tasks: seq<Task>, i: nat, end: nat, id: string) {
    exists k :: i <= k < end && k < |tasks| && tasks[k].status != Done && tasks[k].department != Review
      && "artifact-" + tasks[k].id == id
  }

  lemma ProducesLater(tasks: seq<Task>, i: nat, end: nat, id: string)
    requires i < |tasks|
    ensures Produces(tasks[i := tasks[i].(status := Done)], i + 1, end, id) ==> Produces(tasks, i, end, id)
  {
    var done := tasks[i := tasks[i].(status := Done)];
    assert forall k :: 0 <= k < |tasks| && k != i ==> done[k] == tasks[k];
  }

  /** An artifact stays unless the loop works on its task. */
  lemma {:induction false} RunTasksKeepArtifact(v: Record, i: nat, provider: Provider, approved: set<ActionType>,
      simulateFailure: bool, actor: Actor, verdict: Option<Verdict>, j: nat)
    requires i <= |v.tasks| && j < |v.artifacts|
    requires !Produces(v.tasks, i, EndOf(RunTasks(v, i, provider, approved, simulateFailure, actor, verdict)),
               v.artifacts[j].id)
    ensures var w := RunTasks(v, i, provider, approved, simulateFailure, actor, verdict).record;
      j < |w.artifacts| && w.artifacts[j] == v.artifacts[j]
    decreases |v.tasks| - i
  {
    hide WorkOn, Upsert, SetTaskStatus, MustWait, Produces, DoneUpTo, StopsBefore;
    if i < |v.tasks| {
      if v.tasks[i].status == Done {
        assert v.tasks[i := v.tasks[i].(status := Done)] == v.tasks;
        var end := EndOf(RunTasks(v, i + 1, provider, approved, simulateFailure, actor, verdict));
        ProducesLater(v.tasks, i, end, v.artifacts[j].id);
        RunTasksKeepArtifact(v, i + 1, provider, approved, simulateFailure, actor, verdict, j);
      } else if MustWait(v.tasks[i], provider, approved) {
        StartedTask(v, i, actor);
      } else {
        var w, next := WorkOn(v, i, provider, simulateFailure, actor), NextVerdict(v, i, simulateFailure, verdict);
        WorkOnEffect(v, i, provider, simulateFailure, actor);
        EndLater(w, i + 1, provider, approved, simulateFailure, actor, next);
        var end := EndOf(RunTasks(w, i + 1, provider, approved, simulateFailure, actor, next));
        ProducesLater(v.tasks, i, end, v.artifacts[j].id);
        if v.tasks[i].department != Review {
          ProducesHere(v.tasks, i, end, v.artifacts[j].id);
          WorkKeepsArtifacts(v, i, provider, simulateFailure, actor, j);
        }
        RunTasksKeepArtifact(w, i + 1, provider, approved, simulateFailure, actor, next, j);
      }
    }
  }

  lemma ProducesHere(tasks: seq<Task>, i: nat, end: nat, id: string)
    requires i < |tasks| && i < end && tasks[i].status != Done && tasks[i].department != Review
    ensures "artifact-" + tasks[i].id == id ==> Produces(tasks, i, end, id)
  {
  }

  lemma {:induction false} RunTasksDeliver(v: Record, i: nat, provider: Provider, approved: set<ActionType>,
                                           simulateFailure: bool, actor: Actor, verdict: Option<Verdict>, k: nat)
    requires i <= |v.tasks| && DistinctTasks(v.tasks)
    requires i <= k < EndOf(RunTasks(v, i, provider, approved, simulateFailure, actor, verdict)) && k < |v.tasks|
    requires v.tasks[k].status != Done && v.tasks[k].department != Review
    ensures Delivered(RunTasks(v, i, provider, approved, simulateFailure, actor, verdict).record.artifacts, v.tasks[k],
      provider)
    decreases |v.tasks| - i
  {
    hide WorkOn, Upsert, SetTaskStatus, MustWait, Delivered;
    if v.tasks[i].status == Done {
      RunTasksDeliver(v, i + 1, provider, approved, simulateFailure, actor, verdict, k);
    } else if MustWait(v.tasks[i], provider, approved) {
      RunTasksReach(v, i, provider, approved, simulateFailure, actor, verdict);
    } else {
      var w, next := WorkOn(v, i, provider, simulateFailure, actor), NextVerdict(v, i, simulateFailure, verdict);
      WorkOnEffect(v, i, provider, simulateFailure, actor);
      if k > i {
        RunTasksDeliver(w, i + 1, provider, approved, simulateFailure, actor, next, k);
      } else {
        WorkDelivers(v, i, provider, simulateFailure, actor);
        DeliveryStays(w, i + 1, provider, approved, simulateFailure, actor, next, v.tasks[i]);
      }
    }
  }

  lemma DeliveryStays(v: Record, i: nat, provider: Provider, approved: set<ActionType>, simulateFailure: bool,
                      actor: Actor, verdict: Option<Verdict>, task: Task)
    requires i <= |v.tasks| && Delivered(v.artifacts, task, provider)
    requires forall k :: i <= k < |v.tasks| ==> v.tasks[k].id != task.id
    ensures Delivered(RunTasks(v, i, provider, approved, simulateFailure, actor, verdict).record.artifacts, task,
      provider)
  {
    hide RunTasks;
    var c := RunTasks(v, i, provider, approved, simulateFailure, actor, verdict);
    var j :| 0 <= j < |v.artifacts| && DeliveredAt(v.artifacts, task, provider, j);
    if Produces(v.tasks, i, EndOf(c), v.artifacts[j].id) {
      var k :| i <= k < EndOf(c) && k < |v.tasks| && "artifact-" + v.tasks[k].id == "artifact-" + task.id;
      SameArtifactId(task.id, v.tasks[k].id);
    }
    RunTasksKeepArtifact(v, i, provider, approved, simulateFailure, actor, verdict, j);
    assert DeliveredAt(c.record.artifacts, task, provider, j);
  }

  /** Whatever is new among the artifacts was delivered by a task that the loop worked on. */
  predicate Explained(v: Record, artifacts: seq<Artifact>, i: nat, end: nat, provider: Provider) {
    forall j :: 0 <= j < |artifacts| ==> ExplainedAt(v, artifacts, i, end, provider, j)
  }

  predicate ExplainedAt(v: Record, artifacts: seq<Artifact>, i: nat, end: nat, provider: Provider, j: nat) {
    && j < |artifacts|
    && (|| (j < |v.artifacts| && artifacts[j] == v.artifacts[j])
        || exists k :: i <= k < end && k < |v.tasks| && v.tasks[k].status != Done && v.tasks[k].department != Review
             && DeliveredAt(artifacts, v.tasks[k], provider, j))
  }

  lemma ExplainedOneMore(v: Record, w: Record, after: seq<Artifact>, i: nat, end: nat, provider: Provider, j: nat)
    requires i < |v.tasks| && i < end && w.tasks == v.tasks[i := v.tasks[i].(status := Done)] && j < |after|
    requires ExplainedAt(w, after, i + 1, end, provider, j)
    requires forall m | 0 <= m < |w.artifacts| ::
               || (m < |v.artifacts| && w.artifacts[m] == v.artifacts[m])
               || (v.tasks[i].status != Done && v.tasks[i].department != Review
                   && w.artifacts[m] == ProducedArtifact(v.tasks[i], provider))
    ensures ExplainedAt(v, after, i, end, provider, j)
  {
    if j < |w.artifacts| && after[j] == w.artifacts[j] {
      if !(j < |v.artifacts| && after[j] == v.artifacts[j]) {
        assert DeliveredAt(after, v.tasks[i], provider, j);
      }
    } else {
      var k :| i < k < end && k < |w.tasks| && w.tasks[k].status != Done && w.tasks[k].department != Review
        && DeliveredAt(after, w.tasks[k], provider, j);
      assert w.tasks[k] == v.tasks[k];
    }
  }

  lemma {:induction false} RunTasksExplained(v: Record, i: nat, provider: Provider, approved: set<ActionType>,
      simulateFailure: bool, actor: Actor, verdict: Option<Verdict>, j: nat)
    requires i <= |v.tasks|
    requires j < |RunTasks(v, i, provider, approved, simulateFailure, actor, verdict).record.artifacts|
    ensures var c := RunTasks(v, i, provider, approved, simulateFailure, actor, verdict);
      ExplainedAt(v, c.record.artifacts, i, EndOf(c), provider, j)
    decreases |v.tasks| - i
  {
    hide WorkOn, Upsert, SetTaskStatus, MustWait, ExplainedAt, ProducedArtifact;
    var c := RunTasks(v, i, provider, approved, simulateFailure, actor, verdict);
    if i == |v.tasks| {
      ExplainedAtOnce(v, c.record.artifacts, i, EndOf(c), provider, j);
    } else if v.tasks[i].status == Done {
      assert v.tasks[i := v.tasks[i].(status := Done)] == v.tasks;
      EndLater(v, i + 1, provider, approved, simulateFailure, actor, verdict);
      RunTasksExplained(v, i + 1, provider, approved, simulateFailure, actor, verdict, j);
      ExplainedOneMore(v, v, c.record.artifacts, i, EndOf(c), provider, j);
    } else if MustWait(v.tasks[i], provider, approved) {
      StartedTask(v, i, actor);
      ExplainedAtOnce(v, c.record.artifacts, i, EndOf(c), provider, j);
    } else {
      var w, next := WorkOn(v, i, provider, simulateFailure, actor), NextVerdict(v, i, simulateFailure, verdict);
      WorkOnEffect(v, i, provider, simulateFailure, actor);
      UpsertPresent(v.artifacts, ArtifactId, ProducedArtifact(v.tasks[i], provider));
      EndLater(w, i + 1, provider, approved, simulateFailure, actor, next);
      RunTasksExplained(w, i + 1, provider, approved, simulateFailure, actor, next, j);
      ExplainedOneMore(v, w, c.record.artifacts, i, EndOf(c), provider, j);
    }
  }

  lemma ExplainedAtOnce(v: Record, artifacts: seq<Artifact>, i: nat, end: nat, provider: Provider, j: nat)
    requires artifacts == v.artifacts && j < |artifacts|
    ensures ExplainedAt(v, artifacts, i, end, provider, j)
  {
  }

  /******* Reviews *******/

  /** The open reviews among the tasks, each with whether it finds nothing to review. */
  function OpenReviews(tasks: seq<Task>, nothing: bool): seq<(Task, bool)> {
    if tasks == [] then []
    else if tasks[0].status == Done then OpenReviews(tasks[1..], nothing)
    else if tasks[0].department == Review then [(tasks[0], nothing)] + OpenReviews(tasks[1..], nothing)
    else OpenReviews(tasks[1..], false)
  }

  /** The note says what was reviewed, and refuses it exactly for one of the two reasons. */
  predicate NoteOn(note: ReviewNote, task: Task, nothing: bool, simulateFailure: bool) {
    && note.id == "review-" + task.id && note.taskId == task.id
    && (NoArtifacts in note.findings <==> nothing)
    && (SimulatedFailure in note.findings <==> simulateFailure)
    && (note.verdict == ChangesRequested <==> nothing || simulateFailure)
  }

  /** The reviews grew by one note for each open review, in their order. */
  predicate NotesOn(before: seq<ReviewNote>, after: seq<ReviewNote>, due: seq<(Task, bool)>, simulateFailure: bool) {
    && before <= after && |after| == |before| + |due|
    && forall j :: 0 <= j < |due| ==> NoteOn(after[|before| + j], due[j].0, due[j].1, simulateFailure)
  }

  lemma NotesOneMore(before: seq<ReviewNote>, note: ReviewNote, after: seq<ReviewNote>, due: seq<(Task, bool)>,
                     task: Task, nothing: bool, simulateFailure: bool)
    requires NotesOn(before + [note], after, due, simulateFailure) && NoteOn(note, task, nothing, simulateFailure)
    ensures NotesOn(before, after, [(task, nothing)] + due, simulateFailure)
  {
    hide NoteOn;
    var all := [(task, nothing)] + due;
    assert after[|before|] == note;
    forall j | 0 <= j < |all|
      ensures NoteOn(after[|before| + j], all[j].0, all[j].1, simulateFailure)
    {
      if j > 0 {
        assert all[j] == due[j - 1] && |before| + j == |before + [note]| + (j - 1);
      }
    }
  }

  lemma ReviewNoted(task: Task, artifacts: seq<Artifact>, simulateFailure: bool)
    ensures NoteOn(ReviewOf(task, artifacts, simulateFailure), task, artifacts == [], simulateFailure)
  {
  }

  /** The verdict of the cycle is that of its last note. */
  predicate LastVerdict(reviews: seq<ReviewNote>, due: seq<(Task, bool)>, before: Option<Verdict>,
                        after: Option<Verdict>) {
    after == if due == [] || reviews == [] then before else Some(reviews[|reviews| - 1].verdict)
  }

  /** The loop from `i` on left its notes, and the verdict of the last one. */
  predicate Reviewed(v: Record, c: Cycle, i: nat, verdict: Option<Verdict>, simulateFailure: bool) {
    && i <= EndOf(c) <= |v.tasks|
    && var due := OpenReviews(v.tasks[i..EndOf(c)], v.artifacts == []);
       && NotesOn(v.reviews, c.record.reviews, due, simulateFailure)
       && (c.Finished? ==> LastVerdict(c.record.reviews, due, verdict, c.verdict))
  }

  lemma ReviewedFurther(v: Record, w: Record, c: Cycle, i: nat, verdict: Option<Verdict>, simulateFailure: bool)
    requires i < |v.tasks| && w.tasks == v.tasks[i := v.tasks[i].(status := Done)]
    requires if v.tasks[i].status == Done then w.reviews == v.reviews && w.artifacts == v.artifacts
             else if v.tasks[i].department == Review then w.artifacts == v.artifacts
               && w.reviews == v.reviews + [ReviewOf(v.tasks[i], v.artifacts, simulateFailure)]
             else w.reviews == v.reviews && w.artifacts != []
    requires Reviewed(w, c, i + 1,
               if v.tasks[i].status == Done then verdict
                 else NextVerdict(v, i, simulateFailure, verdict), simulateFailure)
    ensures Reviewed(v, c, i, verdict, simulateFailure)
  {
    hide NoteOn, NotesOn, ReviewOf;
    var end := EndOf(c);
    assert v.tasks[i..end][1..] == v.tasks[i + 1..end] == w.tasks[i + 1..end];
    if v.tasks[i].status != Done && v.tasks[i].department == Review {
      var note := ReviewOf(v.tasks[i], v.artifacts, simulateFailure);
      ReviewNoted(v.tasks[i], v.artifacts, simulateFailure);
      var due := OpenReviews(w.tasks[i + 1..end], w.artifacts == []);
      NotesOneMore(v.reviews, note, c.record.reviews, due, v.tasks[i], v.artifacts == [], simulateFailure);
      LastOfNotes(w.reviews, c.record.reviews, due, simulateFailure);
    }
  }

  lemma ReviewedHere(v: Record, c: Cycle, i: nat, verdict: Option<Verdict>, simulateFailure: bool)
    requires EndOf(c) == i <= |v.tasks| && c.record.reviews == v.reviews && (c.Finished? ==> c.verdict == verdict)
    ensures Reviewed(v, c, i, verdict, simulateFailure)
  {
    assert v.tasks[i..i] == [];
  }

  lemma {:induction false} RunTasksReview(v: Record, i: nat, provider: Provider, approved: set<ActionType>,
                                          simulateFailure: bool, actor: Actor, verdict: Option<Verdict>)
    requires i <= |v.tasks|
    ensures Reviewed(v, RunTasks(v, i, provider, approved, simulateFailure, actor, verdict), i, verdict,
      simulateFailure)
    decreases |v.tasks| - i
  {
    hide WorkOn, Upsert, SetTaskStatus, MustWait, Reviewed, ReviewOf;
    var c := RunTasks(v, i, provider, approved, simulateFailure, actor, verdict);
    if i == |v.tasks| {
      ReviewedHere(v, c, i, verdict, simulateFailure);
    } else if v.tasks[i].status == Done {
      assert v.tasks[i := v.tasks[i].(status := Done)] == v.tasks;
      RunTasksReview(v, i + 1, provider, approved, simulateFailure, actor, verdict);
      ReviewedFurther(v, v, c, i, verdict, simulateFailure);
    } else if MustWait(v.tasks[i], provider, approved) {
      StartedTask(v, i, actor);
      ReviewedHere(v, c, i, verdict, simulateFailure);
    } else {
      var w := WorkOn(v, i, provider, simulateFailure, actor);
      WorkOnEffect(v, i, provider, simulateFailure, actor);
      UpsertPresent(v.artifacts, ArtifactId, ProducedArtifact(v.tasks[i], provider));
      RunTasksReview(w, i + 1, provider, approved, simulateFailure, actor, NextVerdict(v, i, simulateFailure, verdict));
      ReviewedFurther(v, w, c, i, verdict, simulateFailure);
    }
  }

  lemma LastOfNotes(before: seq<ReviewNote>, after: seq<ReviewNote>, due: seq<(Task, bool)>, simulateFailure: bool)
    requires NotesOn(before, after, due, simulateFailure)
    ensures due == [] ==> after == before
    ensures due != [] ==> after != []
  {
  }

  /******* Execution *******/

  /** The trail of task `k` in an execution that stops before `end`. */
  function ExecutionTrail(tasks: seq<Task>, k: nat, end: nat): seq<(TaskStatus, TaskStatus)>
    requires k < |tasks|
  {
    if k > end || tasks[k].status == Done then []
    else Change(tasks[k].status, Started) + [(Started, if k < end then Done else Waiting)]
  }

  /** The checkpoint is there, and all others are as before. */
  predicate Checked(before: seq<Checkpoint>, after: seq<Checkpoint>, point: Checkpoint) {
    && point in after && |before| <= |after| <= |before| + 1
    && (forall k :: 0 <= k < |after| ==> after[k] == point || (k < |before| && after[k] == before[k]))
    && (forall k :: 0 <= k < |before| && before[k].id != point.id ==> after[k] == before[k])
  }

  /** The execution pauses: the external action is requested, unless it is being asked for already. */
  predicate Suspends(v: Record, w: Record, approvalId: nat) {
    && w.status == WaitingApproval
    && Checked(v.checkpoints, w.checkpoints, Checkpoint(ApprovalOf(v.id), false, "human", ANALYSIS_REQUEST))
    && w.approvals == v.approvals +
      (if exists a :: a in v.approvals && a.status == Undecided && a.action == ExternalApiSend then []
       else [Approval(approvalId, ExternalApiSend, Undecided, "system", "")])
  }

  /** The execution is over: its last review sends the project to revision, or the project is completed. */
  predicate Ends(v: Record, w: Record, refused: bool) {
    && w.approvals == v.approvals
    && (refused ==> w.status == RevisionRequested && w.checkpoints == v.checkpoints)
    && (!refused ==>
          && w.status == Completed
          && Checked(v.checkpoints, w.checkpoints, Checkpoint(DeliveryOf(v.id), true, "system", DELIVERY_NOTE)))
  }

  predicate Refused(due: seq<(Task, bool)>, simulateFailure: bool) {
    due != [] && (simulateFailure || due[|due| - 1].1)
  }

  /** What the tasks before `end` left behind: their artifacts and review notes, and nothing else. */
  predicate LeavesWork(v: Record, artifacts: seq<Artifact>, reviews: seq<ReviewNote>, provider: Provider, end: nat,
                       simulateFailure: bool)
    requires end <= |v.tasks|
  {
    && (forall k :: 0 <= k < end && v.tasks[k].status != Done && v.tasks[k].department != Review ==>
          Delivered(artifacts, v.tasks[k], provider))
    && Explained(v, artifacts, 0, end, provider)
    && (forall j :: 0 <= j < |v.artifacts| && !Produces(v.tasks, 0, end, v.artifacts[j].id) ==>
          j < |artifacts| && artifacts[j] == v.artifacts[j])
    && NotesOn(v.reviews, reviews, OpenReviews(v.tasks[..end], v.artifacts == []), simulateFailure)
  }

  predicate Trails(before: seq<Event>, after: seq<Event>, tasks: seq<Task>, end: nat) {
    forall k :: 0 <= k < |tasks| ==>
      Trail(after, tasks[k].id) == Trail(before, tasks[k].id) + ExecutionTrail(tasks, k, end)
  }

  /** What an execution by the provider that stops before `end` makes of a record. */
  predicate Performs(v: Record, w: Record, provider: Provider, end: nat, simulateFailure: bool, approvalId: nat)
    requires end <= |v.tasks|
  {
    && w.id == v.id && w.policy == v.policy && v.events <= w.events
    && DoneUpTo(v.tasks, w.tasks, 0, end, Waiting)
    && Trails(v.events, w.events, v.tasks, end)
    && LeavesWork(v, w.artifacts, w.reviews, provider, end, simulateFailure)
    && if end < |v.tasks| then Suspends(v, w, approvalId)
       else Ends(v, w, Refused(OpenReviews(v.tasks, v.artifacts == []), simulateFailure))
  }

  lemma UpsertChecks(before: seq<Checkpoint>, point: Checkpoint)
    ensures Checked(before, Upsert(before, CheckpointKey, point), point)
  {
    hide Upsert;
    UpsertPresent(before, CheckpointKey, point);
  }

  lemma UndecidedExternal(approvals: seq<Approval>)
    ensures ExternalApiSend in TypesWith(approvals, Undecided) <==>
      exists a :: a in approvals && a.status == Undecided && a.action == ExternalApiSend
  {
  }

  lemma PauseSuspends(v: Record, i: nat, actor: Actor, approvalId: nat)
    requires i < |v.tasks| && v.status == InProgress
    ensures Pause(v, i, actor, approvalId).Ok?
    ensures var w := Pause(v, i, actor, approvalId).value;
      && w == v.(status := w.status, tasks := v.tasks[i := v.tasks[i].(status := Waiting)],
        checkpoints := w.checkpoints,
        approvals := w.approvals, history := w.history, events := w.events)
      && v.events <= w.events && Suspends(v, w, approvalId)
      && forall id :: Trail(w.events, id) ==
           Trail(v.events, id) + if id == v.tasks[i].id then Change(v.tasks[i].status, Waiting) else []
  {
    hide Upsert, Trail, Checked;
    UndecidedExternal(v.approvals);
    UpsertChecks(v.checkpoints, Checkpoint(ApprovalOf(v.id), false, "human", ANALYSIS_REQUEST));
    var waiting := SetTaskStatus(v, i, Waiting, actor);
    var requested := if ExternalApiSend in TypesWith(waiting.approvals, Undecided) then waiting
                     else RequestApproval(waiting, approvalId);
    var w := Pause(v, i, actor, approvalId).value;
    forall id
      ensures Trail(w.events, id) ==
        Trail(v.events, id) + if id == v.tasks[i].id then Change(v.tasks[i].status, Waiting) else []
    {
      StatusTrail(v, i, Waiting, actor, id);
      TrailSnoc(waiting.events, Event(ApprovalRequested(ExternalApiSend), SYSTEM_ACTOR), id);
      TrailSnoc(requested.events, Event(StateTransition(v.status, WaitingApproval), actor), id);
    }
  }

  lemma FinishEnds(v: Record, verdict: Option<Verdict>, actor: Actor)
    requires v.status == InProgress
    ensures Finish(v, verdict, actor).Ok?
    ensures var w := Finish(v, verdict, actor).value;
      && w == v.(status := w.status, checkpoints := w.checkpoints, history := w.history, events := w.events)
      && v.events <= w.events && Ends(v, w, verdict == Some(ChangesRequested))
      && forall id :: Trail(w.events, id) == Trail(v.events, id)
  {
    hide Upsert, Trail, Checked;
    FinishEffect(v, verdict, actor);
    FinishLogs(v, verdict, actor);
    UpsertChecks(v.checkpoints, Checkpoint(DeliveryOf(v.id), true, "system", DELIVERY_NOTE));
    forall id
      ensures Trail(Finish(v, verdict, actor).value.events, id) == Trail(v.events, id)
    {
      FinishTrail(v, verdict, actor, id);
    }
  }

  lemma FinishTrail(v: Record, verdict: Option<Verdict>, actor: Actor, id: string)
    requires v.status == InProgress
    ensures Trail(Finish(v, verdict, actor).value.events, id) == Trail(v.events, id)
  {
    hide Upsert, Trail;
    if verdict == Some(ChangesRequested) {
      var failed := Transition(v, ReviewFailed, actor).value;
      var requested := Transition(failed, RevisionRequested, actor).value;
      TrailSnoc(v.events, Event(StateTransition(InProgress, ReviewFailed), actor), id);
      TrailSnoc(failed.events, Event(StateTransition(ReviewFailed, RevisionRequested), actor), id);
      TrailSnoc(requested.events, Event(RevisionWasRequested, actor), id);
    } else {
      TrailSnoc(v.events, Event(StateTransition(InProgress, Completed), actor), id);
    }
  }

  lemma Refusal(v: Record, c: Cycle, simulateFailure: bool)
    requires c.Finished? && |c.record.tasks| == |v.tasks| && Reviewed(v, c, 0, None, simulateFailure)
    ensures c.verdict == Some(ChangesRequested) <==> Refused(OpenReviews(v.tasks, v.artifacts == []), simulateFailure)
  {
    assert v.tasks[0..|v.tasks|] == v.tasks;
    var due := OpenReviews(v.tasks, v.artifacts == []);
    if due != [] {
      assert NoteOn(c.record.reviews[|v.reviews| + (|due| - 1)], due[|due| - 1].0, due[|due| - 1].1, simulateFailure);
    }
  }

  lemma LoopLeavesWork(v: Record, provider: Provider, approved: set<ActionType>, simulateFailure: bool, actor: Actor)
    requires DistinctTasks(v.tasks)
    ensures var c := RunTasks(v, 0, provider, approved, simulateFailure, actor, None);
      && EndOf(c) <= |v.tasks|
      && LeavesWork(v, c.record.artifacts, c.record.reviews, provider, EndOf(c), simulateFailure)
  {
    hide RunTasks, Delivered, ExplainedAt, NotesOn, OpenReviews, Produces;
    var c := RunTasks(v, 0, provider, approved, simulateFailure, actor, None);
    var end := EndOf(c);
    RunTasksReview(v, 0, provider, approved, simulateFailure, actor, None);
    assert v.tasks[0..end] == v.tasks[..end];
    forall k | 0 <= k < end && v.tasks[k].status != Done && v.tasks[k].department != Review
      ensures Delivered(c.record.artifacts, v.tasks[k], provider)
    {
      RunTasksDeliver(v, 0, provider, approved, simulateFailure, actor, None, k);
    }
    forall j | 0 <= j < |c.record.artifacts|
      ensures ExplainedAt(v, c.record.artifacts, 0, end, provider, j)
    {
      RunTasksExplained(v, 0, provider, approved, simulateFailure, actor, None, j);
    }
    forall j | 0 <= j < |v.artifacts| && !Produces(v.tasks, 0, end, v.artifacts[j].id)
      ensures j < |c.record.artifacts| && c.record.artifacts[j] == v.artifacts[j]
    {
      RunTasksKeepArtifact(v, 0, provider, approved, simulateFailure, actor, None, j);
    }
  }

  /** The trails after the loop, and after the step that follows it. */
  lemma LoopTrails(v: Record, provider: Provider, approved: set<ActionType>, simulateFailure: bool, actor: Actor,
                   after: seq<Event>)
    requires DistinctTasks(v.tasks)
    requires var c := RunTasks(v, 0, provider, approved, simulateFailure, actor, None);
      && EndOf(c) <= |v.tasks|
      && forall id :: Trail(after, id) == Trail(c.record.events, id) +
           if EndOf(c) < |v.tasks| && id == v.tasks[EndOf(c)].id then [(Started, Waiting)] else []
    ensures Trails(v.events, after, v.tasks, EndOf(RunTasks(v, 0, provider, approved, simulateFailure, actor, None)))
  {
    hide RunTasks, Trail;
    var c := RunTasks(v, 0, provider, approved, simulateFailure, actor, None);
    var end := EndOf(c);
    RunTasksReach(v, 0, provider, approved, simulateFailure, actor, None);
    forall k | 0 <= k < |v.tasks|
      ensures Trail(after, v.tasks[k].id) == Trail(v.events, v.tasks[k].id) + ExecutionTrail(v.tasks, k, end)
    {
      RunTasksTrail(v, 0, provider, approved, simulateFailure, actor, None, k);
      assert end < |v.tasks| && k != end ==> v.tasks[k].id != v.tasks[end].id;
    }
  }

  /** An execution works on the open tasks in turn, up to the first that needs approval. */
  lemma ExecutionExactly(v: Record, launch: Launch, approved: set<ActionType>, simulateFailure: bool, actor: Actor,
                         approvalId: nat) returns (end: nat)
    requires v.status == InProgress && DistinctTasks(v.tasks)
    ensures var o := Execute(v, launch, approved, simulateFailure, actor, approvalId);
      match ResolveProvider(launch)
      case None => o == Raise(UnsupportedProvider)
      case Some(provider) =>
        && StopsBefore(v.tasks, 0, end, provider, approved)
        && o.saved.Some? && o.answer == Summary(o.saved.value)
        && Performs(v, o.saved.value, provider, end, simulateFailure, approvalId)
  {
    hide RunTasks, Pause, Finish, ResolveProvider, Trail, LeavesWork, Trails, Suspends, Ends, StopsBefore, Refused;
    hide OpenReviews, Reviewed;
    end := 0;
    if ResolveProvider(launch).Some? {
      var provider := ResolveProvider(launch).value;
      var c := RunTasks(v, 0, provider, approved, simulateFailure, actor, None);
      end := EndOf(c);
      RunTasksReach(v, 0, provider, approved, simulateFailure, actor, None);
      LoopLeavesWork(v, provider, approved, simulateFailure, actor);
      match c
      case PausedAt(u, i) =>
        PauseSuspends(u, i, actor, approvalId);
        var w := Pause(u, i, actor, approvalId).value;
        SuspendsFurther(v, u, w, approvalId);
        LoopTrails(v, provider, approved, simulateFailure, actor, w.events);
      case Finished(u, verdict) =>
        FinishEnds(u, verdict, actor);
        var w := Finish(u, verdict, actor).value;
        RunTasksReview(v, 0, provider, approved, simulateFailure, actor, None);
        Refusal(v, c, simulateFailure);
        EndsFurther(v, u, w, verdict == Some(ChangesRequested));
        LoopTrails(v, provider, approved, simulateFailure, actor, w.events);
    }
  }

  lemma SuspendsFurther(v: Record, u: Record, w: Record, approvalId: nat)
    requires Suspends(u, w, approvalId)
    requires u.id == v.id && u.approvals == v.approvals && u.checkpoints == v.checkpoints
    ensures Suspends(v, w, approvalId)
  {
  }

  lemma EndsFurther(v: Record, u: Record, w: Record, refused: bool)
    requires Ends(u, w, refused) && u.id == v.id && u.approvals == v.approvals && u.checkpoints == v.checkpoints
    ensures Ends(v, w, refused)
  {
  }

  /******* run *******/

  const PATH := [Draft, IntakePending, ReadyForPlanning, InProgress]

  /** A project of the plan on which nothing has been done, in execution. */
  predicate Begins(u: Record, id: nat, policy: ProjectPolicy, plan: seq<TaskShape>) {
    && u.id == id && u.policy == policy && u.status == InProgress && Shape(u.tasks) == plan
    && (forall k :: 0 <= k < |u.tasks| ==> u.tasks[k].status == Pending && u.tasks[k].note == "")
    && u.artifacts == [] && u.reviews == [] && u.checkpoints == [] && u.approvals == []
    && |u.history| == |u.events| == 3
    && forall k :: 0 <= k < 3 ==>
         && u.history[k] == HistoryLine(PATH[k], PATH[k + 1])
         && u.events[k] == Event(StateTransition(PATH[k], PATH[k + 1]), Actor("system", Admin, System))
  }

  lemma LaunchBegins(id: nat, policy: ProjectPolicy, plan: seq<TaskShape>)
    requires UniqueIds(plan)
    ensures Launched(Drafted(id, policy, plan)).Ok?
    ensures Begins(Launched(Drafted(id, policy, plan)).value, id, policy, plan)
    ensures DistinctTasks(Launched(Drafted(id, policy, plan)).value.tasks)
  {
    var v := Drafted(id, policy, plan);
    var u := Launched(v).value;
    forall j, k | 0 <= j < k < |u.tasks|
      ensures u.tasks[j].id != u.tasks[k].id
    {
      assert plan[j] == ShapeOf(u.tasks[j]) && plan[k] == ShapeOf(u.tasks[k]);
    }
  }

  /** A new project begins at the plan and is executed as the caller says, failed review included. */
  lemma RunExactly(id: nat, policy: ProjectPolicy, plan: seq<TaskShape>, launch: Launch, inputs: seq<ActionInput>,
                   simulateFailure: bool, approvalId: nat) returns (u: Record, end: nat)
    requires UniqueIds(plan)
    ensures var o := Run(id, policy, plan, launch, inputs, simulateFailure, approvalId);
      && Begins(u, id, policy, plan)
      && match (ParseActions(inputs), ResolveProvider(launch))
         case (Err(_), _) => o == Raise(UnsupportedAction)
         case (Ok(_), None) => o == Raise(UnsupportedProvider)
         case (Ok(approved), Some(provider)) =>
           && StopsBefore(u.tasks, 0, end, provider, approved)
           && o.saved.Some? && o.answer == Summary(o.saved.value)
           && Performs(u, o.saved.value, provider, end, simulateFailure, approvalId)
  {
    hide Execute, ParseActions, ResolveProvider, Begins, Launched, StopsBefore, Performs, DistinctTasks;
    LaunchBegins(id, policy, plan);
    u, end := Launched(Drafted(id, policy, plan)).value, 0;
    if ParseActions(inputs).Ok? {
      BeginsInProgress(u, id, policy, plan);
      end := ExecutionExactly(u, launch, ParseActions(inputs).value, simulateFailure, SYSTEM_ACTOR, approvalId);
    }
  }

  lemma BeginsInProgress(u: Record, id: nat, policy: ProjectPolicy, plan: seq<TaskShape>)
    requires Begins(u, id, policy, plan)
    ensures u.status == InProgress
  {
  }

  /******* Providers *******/

  /** The names of a provider. */
  predicate IsNameOf(provider: Provider, name: string) {
    match provider
    case Mock => name == "mock" || name == ""
    case Gemini => name == "gemini" || "gemini-" <= name
    case Grok => name == "grok" || "grok-" <= name
    case OpenAI => name == "openai" || "openai-" <= name || "gpt-" <= name
  }

  /** No name belongs to two providers, so a launch runs the one that it names, up to case and surrounding space; a name
      of none runs the mock provider, and is refused in strict mode. */
  lemma ProvidersExactly(launch: Launch, provider: Provider)
    ensures IsNameOf(provider, Text.Normalize(launch.providerName)) ==> ResolveProvider(launch) == Some(provider)
    ensures (forall p :: !IsNameOf(p, Text.Normalize(launch.providerName))) ==>
      ResolveProvider(launch) == if launch.strictProviders then None else Some(Mock)
  {
    hide Text.Normalize, IsNameOf, ResolveProvider;
    NamesDiffer(Text.Normalize(launch.providerName));
    Resolves(launch);
  }

  lemma Resolves(launch: Launch)
    ensures var name := Text.Normalize(launch.providerName); var provider := ResolveProvider(launch);
      && ((exists p :: IsNameOf(p, name)) ==> provider.Some? && IsNameOf(provider.value, name))
      && ((forall p :: !IsNameOf(p, name)) ==> provider == if launch.strictProviders then None else Some(Mock))
  {
    hide Text.Normalize;
    var name := Text.Normalize(launch.providerName);
    assert (exists p :: IsNameOf(p, name)) <==>
      IsNameOf(Mock, name) || IsNameOf(Gemini, name) || IsNameOf(Grok, name) || IsNameOf(OpenAI, name);
  }

  lemma NamesDiffer(name: string)
    ensures forall p, q :: IsNameOf(p, name) && IsNameOf(q, name) ==> p == q
  {
    forall p, q | IsNameOf(p, name) && IsNameOf(q, name)
      ensures p == q
    {
      if name != "" {
        Initial(p, name);
        Initial(q, name);
      }
    }
  }

  /** The first letters of a name tell its provider. */
  lemma Initial(p: Provider, name: string)
    requires IsNameOf(p, name) && name != ""
    ensures |name| >= 3
    ensures match p
      case Mock => name[0] == 'm'
      case Gemini => name[0] == 'g' && name[1] == 'e'
      case Grok => name[0] == 'g' && name[1] == 'r'
      case OpenAI => name[0] == 'o' || (name[0] == 'g' && name[1] == 'p')
  {
  }
}
