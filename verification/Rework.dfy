/** Which work a revision and a replanning do again. */
module Rework {
  import opened Prelude
  import opened Domain
  import opened Workflow
  import opened Loops
  import opened Calls
  import opened Work
  import Text

  /** Whether work of the department is done again: all that follows the research, the design or the build. */
  predicate Redoes(again: Option<RevisionMode>, department: Department) {
    && again.Some?
    && match department
       case Research => false
       case Design => again.value == Replanning
       case Build => again.value != Rereview
       case Trend => again.value != Rereview
       case Review => true
  }

  lemma ResetsWhatIsRedone(mode: RevisionMode, department: Department)
    ensures department in ResetDepartments(mode) <==> Redoes(Some(mode), department)
  {
  }

  /** The tasks to be done again are pending, with the text, if there is one, as their note; the others are
      as before. */
  predicate Reopens(before: seq<Task>, after: seq<Task>, again: Option<RevisionMode>, text: string) {
    && |after| == |before|
    && forall k | 0 <= k < |before| :: after[k] ==
         if !Redoes(again, before[k].department) then before[k]
         else before[k].(status := Pending, note := if text == "" then before[k].note else text)
  }

  /** The log tells of every task that was reopened, unless it was pending, and of no other task. */
  predicate TellsReopened(v: Record, u: Record, again: Option<RevisionMode>) {
    && v.events <= u.events
    && forall k :: 0 <= k < |v.tasks| ==>
         var task := v.tasks[k];
         Trail(u.events, task.id) ==
           Trail(v.events, task.id) + if Redoes(again, task.department) then Change(task.status, Pending) else []
  }

  /** Nothing but tasks, log, history and status differs. */
  predicate Reopened(v: Record, u: Record, again: Option<RevisionMode>, text: string) {
    && u == v.(status := u.status, tasks := u.tasks, history := u.history, events := u.events)
    && Reopens(v.tasks, u.tasks, again, text) && TellsReopened(v, u, again)
  }

  /******* Resetting tasks *******/

  lemma {:induction false} MoveTrail(v: Record, i: nat, which: Selection, next: TaskStatus, note: string, actor: Actor,
                                     k: nat)
    requires i <= |v.tasks| && k < |v.tasks| && DistinctTasks(v.tasks)
    ensures Trail(MoveTasks(v, i, which, next, note, actor).events, v.tasks[k].id) == Trail(v.events, v.tasks[k].id) +
      if k >= i && Selects(which, v.tasks[k]) then Change(v.tasks[k].status, next) else []
    decreases |v.tasks| - i
  {
    hide Trail, SetTaskStatus, Selects;
    if i < |v.tasks| {
      if Selects(which, v.tasks[i]) {
        MoveEffect(v, i, which, next, note, actor);
        StatusTrail(v, i, next, actor, v.tasks[k].id);
        var w := SetNote(SetTaskStatus(v, i, next, actor), i, note);
        assert k != i ==> v.tasks[k].id != v.tasks[i].id;
        assert DistinctTasks(w.tasks);
        MoveTrail(w, i + 1, which, next, note, actor, k);
      } else {
        MoveTrail(v, i + 1, which, next, note, actor, k);
      }
    }
  }

  lemma ResetReopens(v: Record, mode: RevisionMode, text: string, actor: Actor)
    requires DistinctTasks(v.tasks)
    ensures var u := MoveTasks(v, 0, InDepartments(ResetDepartments(mode)), Pending, text, actor);
      u.status == v.status && Reopened(v, u, Some(mode), text)
  {
    hide MoveTasks, Trail, ResetDepartments;
    var which := InDepartments(ResetDepartments(mode));
    MoveTasksEffect(v, 0, which, Pending, text, actor);
    forall k | 0 <= k < |v.tasks|
      ensures Selects(which, v.tasks[k]) <==> Redoes(Some(mode), v.tasks[k].department)
      ensures Trail(MoveTasks(v, 0, which, Pending, text, actor).events, v.tasks[k].id) ==
        Trail(v.events, v.tasks[k].id) + if Selects(which, v.tasks[k]) then Change(v.tasks[k].status, Pending) else []
    {
      ResetsWhatIsRedone(mode, v.tasks[k].department);
      MoveTrail(v, 0, which, Pending, text, actor, k);
    }
  }

  /** More events that are not about tasks, before or after. */
  lemma ReopenedAround(v: Record, a: Record, b: Record, u: Record, again: Option<RevisionMode>, text: string)
    requires Reopened(a, b, again, text)
    requires a == v.(events := a.events) && v.events <= a.events
    requires u == b.(status := u.status, history := u.history, events := u.events) && b.events <= u.events
    requires forall id :: Trail(a.events, id) == Trail(v.events, id) && Trail(u.events, id) == Trail(b.events, id)
    ensures Reopened(v, u, again, text)
  {
    hide Trail;
  }

  lemma QuietEvent(v: Record, kind: EventKind, actor: Actor)
    requires !kind.TaskStatusChanged?
    ensures forall id :: Trail(RecordEvent(v, kind, actor).events, id) == Trail(v.events, id)
  {
    forall id
      ensures Trail(RecordEvent(v, kind, actor).events, id) == Trail(v.events, id)
    {
      TrailSnoc(v.events, Event(kind, actor), id);
    }
  }

  lemma QuietTransition(v: Record, next: ProjectStatus, actor: Actor)
    requires Transition(v, next, actor).Ok?
    ensures var w := Transition(v, next, actor).value;
      && w == v.(status := next, history := w.history, events := w.events) && v.events <= w.events
      && forall id :: Trail(w.events, id) == Trail(v.events, id)
  {
    hide Trail;
    QuietEvent(v, StateTransition(v.status, next), actor);
  }

  lemma RevisionReopens(v: Record, mode: RevisionMode, text: string, actor: Actor, next: ProjectStatus)
    requires DistinctTasks(v.tasks) && v.status == RevisionRequested && next in {ReadyForPlanning, InProgress}
    ensures var result := Transition(ReviseTasks(v, mode, actor, text), next, actor);
      result.Ok? && result.value.status == next && Reopened(v, result.value, Some(mode), text)
  {
    hide MoveTasks, Trail, Reopened;
    var a := RecordEvent(v, ResumeTriggered(RevisionResume(mode)), actor);
    QuietEvent(v, ResumeTriggered(RevisionResume(mode)), actor);
    ResetReopens(a, mode, text, actor);
    var b := ReviseTasks(v, mode, actor, text);
    QuietTransition(b, next, actor);
    ReopenedAround(v, a, b, Transition(b, next, actor).value, Some(mode), text);
  }

  lemma ReplanReopens(v: Record, reset: bool, actor: Actor)
    requires DistinctTasks(v.tasks) && v.status == ReadyForPlanning
    ensures var result := Transition(ReplanTasks(v, actor, reset), InProgress, actor);
      result.Ok? && result.value.status == InProgress
      && Reopened(v, result.value, if reset then Some(Replanning) else None, "")
  {
    hide MoveTasks, Trail, Reopened;
    var again := if reset then Some(Replanning) else None;
    ResetReopens(v, Replanning, "", actor);
    NothingReopened(v);
    var b := if reset then MoveTasks(v, 0, InDepartments(ResetDepartments(Replanning)), Pending, "", actor) else v;
    var c := ReplanTasks(v, actor, reset);
    QuietEvent(b, ReplanningStarted(reset), actor);
    QuietTransition(c, InProgress, actor);
    ReopenedAround(v, v, b, Transition(c, InProgress, actor).value, again, "");
  }

  lemma NothingReopened(v: Record)
    ensures Reopened(v, v, None, "")
  {
  }

  lemma ReopenedDistinct(v: Record, u: Record, again: Option<RevisionMode>, text: string)
    requires Reopened(v, u, again, text) && DistinctTasks(v.tasks)
    ensures DistinctTasks(u.tasks)
  {
    hide Trail;
  }

  /******* The operations *******/

  /** What execution makes of the reopened record `u`, or why it does not start. */
  predicate Continues(u: Record, o: Outcome, launch: Launch, inputs: seq<ActionInput>, end: nat, approvalId: nat) {
    match (ParseActions(inputs), ResolveProvider(launch))
    case (Err(_), _) => o == Raise(UnsupportedAction)
    case (Ok(_), None) => o == Raise(UnsupportedProvider)
    case (Ok(approved), Some(provider)) =>
      && StopsBefore(u.tasks, 0, end, provider, approved)
      && o.saved.Some? && o.answer == Summary(o.saved.value)
      && Performs(u, o.saved.value, provider, end, false, approvalId)
  }

  lemma ExecutionContinues(u: Record, launch: Launch, inputs: seq<ActionInput>, actor: Actor, approvalId: nat)
      returns (end: nat)
    requires u.status == InProgress && DistinctTasks(u.tasks)
    ensures Continues(u, ExecuteWith(u, launch, inputs, false, actor, approvalId), launch, inputs, end, approvalId)
  {
    hide Execute, ParseActions, ResolveProvider, Performs, StopsBefore;
    end := 0;
    if ParseActions(inputs).Ok? {
      end := ExecutionExactly(u, launch, ParseActions(inputs).value, false, actor, approvalId);
    }
  }

  /** A revision reopens the departments of its mode, and executes what is open then, unless it goes back
      to planning. */
  lemma RevisionExactly(v: Record, mode: RevisionMode, caller: ActorArgument, reason: string, launch: Launch,
                        inputs: seq<ActionInput>, approvalId: nat) returns (u: Record, end: nat)
    requires v.status == RevisionRequested && DistinctTasks(v.tasks)
    ensures var o := OutcomeOn(v, RevisionCall(v.id, mode, caller, reason, launch, inputs), approvalId);
      && Reopened(v, u, Some(mode), Text.Strip(reason))
      && if mode == Replanning then u.status == ReadyForPlanning && o == Outcome(Some(u), Summary(u))
         else u.status == InProgress && Continues(u, o, launch, inputs, end, approvalId)
  {
    hide MoveTasks, Reopened, ExecuteWith, Continues, Transition, CoerceActor, Text.Strip;
    var actor := CoerceActor(caller, Operator);
    end := 0;
    if mode == Replanning {
      RevisionReopens(v, mode, Text.Strip(reason), actor, ReadyForPlanning);
      u := Transition(ReviseTasks(v, mode, actor, Text.Strip(reason)), ReadyForPlanning, actor).value;
    } else {
      RevisionReopens(v, mode, Text.Strip(reason), actor, InProgress);
      u := Transition(ReviseTasks(v, mode, actor, Text.Strip(reason)), InProgress, actor).value;
      ReopenedDistinct(v, u, Some(mode), Text.Strip(reason));
      end := ExecutionContinues(u, launch, inputs, actor, approvalId);
    }
  }

  /** A start of replanning reopens all but the research, if it is asked to, and executes what is open then. */
  lemma ReplanningExactly(v: Record, caller: ActorArgument, launch: Launch, inputs: seq<ActionInput>, reset: bool,
                          approvalId: nat) returns (u: Record, end: nat)
    requires v.status == ReadyForPlanning && DistinctTasks(v.tasks)
    ensures var o := OutcomeOn(v, ReplanningCall(v.id, caller, launch, inputs, reset), approvalId);
      && Reopened(v, u, if reset then Some(Replanning) else None, "")
      && u.status == InProgress && Continues(u, o, launch, inputs, end, approvalId)
  {
    hide MoveTasks, Reopened, ExecuteWith, Continues, Transition, CoerceActor;
    var actor := CoerceActor(caller, Operator);
    ReplanReopens(v, reset, actor);
    u := Transition(ReplanTasks(v, actor, reset), InProgress, actor).value;
    ReopenedDistinct(v, u, if reset then Some(Replanning) else None, "");
    end := ExecutionContinues(u, launch, inputs, actor, approvalId);
  }

  predicate Tells(v: Record, kind: EventKind) {
    exists k :: 0 <= k < |v.events| && v.events[k].kind == kind
  }

  /** In any other state a revision or a start of replanning is answered with the record if its effect is there already,
      and refused otherwise. */
  lemma ElsewhereNothing(v: Record, mode: RevisionMode, caller: ActorArgument, reason: string, launch: Launch,
                         inputs: seq<ActionInput>, reset: bool, approvalId: nat)
    ensures v.status != RevisionRequested ==>
      OutcomeOn(v, RevisionCall(v.id, mode, caller, reason, launch, inputs), approvalId) ==
        if || (v.status == ReadyForPlanning && mode == Replanning)
           || (v.status == Completed && Tells(v, ResumeTriggered(RevisionResume(mode))))
        then Keep(v) else Raise(InvalidState(RevisionRequested, v.status))
    ensures v.status != ReadyForPlanning ==>
      OutcomeOn(v, ReplanningCall(v.id, caller, launch, inputs, reset), approvalId) ==
        if v.status == Completed && (Tells(v, ReplanningStarted(true)) || Tells(v, ReplanningStarted(false)))
        then Keep(v) else Raise(InvalidState(ReadyForPlanning, v.status))
  {
    hide Revise, Replan;
    forall k | 0 <= k < |v.events|
      ensures v.events[k] in v.events
    {
    }
    if HasResumed(v, mode) {
      var e :| e in v.events && e.kind == ResumeTriggered(RevisionResume(mode));
      assert Tells(v, e.kind);
    }
    if HasReplanned(v) {
      var e :| e in v.events && e.kind.ReplanningStarted?;
      assert Tells(v, e.kind);
    }
  }

  /******* In terms of the record before the call *******/

  predicate SaysPending(es: seq<Event>, from: nat, task: Task) {
    exists k :: from <= k < |es| && es[k].kind == TaskStatusChanged(task.id, task.status, Pending)
  }

  predicate Silent(es: seq<Event>, from: nat, task: Task) {
    forall k :: from <= k < |es| ==> !(es[k].kind.TaskStatusChanged? && es[k].kind.taskId == task.id)
  }

  /** A task of a department that is done again is set back in the log and carries the text, and a finished task of
      another department is left alone. */
  predicate RedoneAt(v: Record, w: Record, mode: RevisionMode, text: string, k: nat)
    requires k < |v.tasks|
  {
    var task := v.tasks[k];
    && v.events <= w.events && k < |w.tasks|
    && if Redoes(Some(mode), task.department) then
         && (task.status != Pending ==> SaysPending(w.events, |v.events|, task))
         && w.tasks[k].note == (if text == "" then task.note else text)
       else
         w.tasks[k].note == task.note
         && (task.status == Done ==> w.tasks[k] == task && Silent(w.events, |v.events|, task))
  }

  lemma PrefixBetween<T>(a: seq<T>, b: seq<T>, c: seq<T>, x: T)
    requires a <= b <= c && a + [x] <= c
    ensures b == a || a + [x] <= b
  {
    if |b| > |a| {
      assert b[|a|] == c[|a|] == (a + [x])[|a|];
    }
  }

  lemma {:induction false} TrailSays(es: seq<Event>, more: seq<Event>, task: Task)
    requires Trail(es, task.id) + [(task.status, Pending)] <= Trail(es + more, task.id)
    ensures SaysPending(es + more, |es|, task)
    decreases |more|
  {
    assert more == [] ==> es + more == es;
    if more != [] {
      var n := |more| - 1;
      var e := more[n];
      var before, middle, all := Trail(es, task.id), Trail(es + more[..n], task.id), Trail(es + more, task.id);
      assert es + more == (es + more[..n]) + [e];
      TrailSnoc(es + more[..n], e, task.id);
      TrailGrows(es, more[..n], task.id);
      PrefixBetween(before, middle, all, (task.status, Pending));
      if middle == before {
        assert all[|before|] == (task.status, Pending);
        assert (es + more)[|es| + n] == e;
      } else {
        TrailSays(es, more[..n], task);
        var k :| |es| <= k < |es + more[..n]|
          && (es + more[..n])[k].kind == TaskStatusChanged(task.id, task.status, Pending);
        assert (es + more)[k].kind == TaskStatusChanged(task.id, task.status, Pending);
      }
    }
  }

  /** Each task is treated as its department and the mode of the revision say. */
  lemma RevisionRedoes(v: Record, mode: RevisionMode, caller: ActorArgument, reason: string, launch: Launch,
                       inputs: seq<ActionInput>, approvalId: nat, k: nat)
    requires v.status == RevisionRequested && DistinctTasks(v.tasks) && k < |v.tasks|
    ensures var o := OutcomeOn(v, RevisionCall(v.id, mode, caller, reason, launch, inputs), approvalId);
      o.saved.Some? ==> RedoneAt(v, o.saved.value, mode, Text.Strip(reason), k)
  {
    hide OutcomeOn, Trail, LeavesWork, Suspends, Ends, Text.Strip, ParseActions, ResolveProvider, SaysPending, Silent;
    var u, end := RevisionExactly(v, mode, caller, reason, launch, inputs, approvalId);
    var o := OutcomeOn(v, RevisionCall(v.id, mode, caller, reason, launch, inputs), approvalId);
    if o.saved.Some? {
      var w := o.saved.value;
      var task := v.tasks[k];
      assert Trail(u.events, task.id) <= Trail(w.events, task.id);
      var more := w.events[|v.events|..];
      assert w.events == v.events + more;
      if Redoes(Some(mode), task.department) {
        if task.status != Pending {
          TrailSays(v.events, more, task);
        }
      } else if task.status == Done {
        assert Trail(w.events, task.id) == Trail(v.events, task.id);
        SameTrailIsSilent(v.events, more, task.id);
        StaysSilent(v.events, more, task);
      }
    }
  }

  lemma StaysSilent(es: seq<Event>, more: seq<Event>, task: Task)
    requires forall k :: 0 <= k < |more| ==> !(more[k].kind.TaskStatusChanged? && more[k].kind.taskId == task.id)
    ensures Silent(es + more, |es|, task)
  {
  }
}
