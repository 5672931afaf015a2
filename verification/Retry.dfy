/** Repeating a call that succeeded, on any stored record whatever. */
module Retry {
  import opened Prelude
  import opened Domain
  import opened Workflow
  import opened Loops
  import opened Calls
  import opened Soundness
  import opened Coupling
  import opened Operations
  import opened Runs
  import opened Completion
  import Text

  /** The stored record after the operation. */
  function StoredAfter(v: Record, o: Outcome): Record {
    if o.saved.Some? then o.saved.value else v
  }

  /******* Execution of arbitrary records *******/

  predicate OpenAt(tasks: seq<Task>, k: nat) {
    k < |tasks| && tasks[k].status != Done
  }

  /** Some open task from `i` on has to wait. */
  predicate Pauses(tasks: seq<Task>, i: nat, provider: Provider, approved: set<ActionType>) {
    exists k :: i <= k < |tasks| && OpenAt(tasks, k) && MustWait(tasks[k], provider, approved)
  }

  predicate OpenReviewFrom(tasks: seq<Task>, i: nat) {
    exists k :: i <= k < |tasks| && OpenAt(tasks, k) && tasks[k].department == Review
  }

  /** `k` is the last open review, and only reviews are open before it. */
  predicate ReviewsOnlyUpTo(tasks: seq<Task>, i: nat, k: nat) {
    && i <= k && OpenAt(tasks, k) && tasks[k].department == Review
    && forall j :: i <= j < |tasks| && OpenAt(tasks, j) ==>
         (j < k ==> tasks[j].department == Review) && (j > k ==> tasks[j].department != Review)
  }

  /** The last review will find no artifacts. */
  predicate ReviewsNothing(tasks: seq<Task>, artifacts: seq<Artifact>, i: nat) {
    artifacts == [] && exists k :: 0 <= k < |tasks| && ReviewsOnlyUpTo(tasks, i, k)
  }

  lemma ReviewsNothingAtReview(tasks: seq<Task>, i: nat)
    requires OpenAt(tasks, i) && tasks[i].department == Review
    ensures var after := tasks[i := tasks[i].(status := Done)];
      ReviewsNothing(tasks, [], i) <==> (ReviewsNothing(after, [], i + 1) || !OpenReviewFrom(after, i + 1))
  {
    var after := tasks[i := tasks[i].(status := Done)];
    var next := i + 1;
    assert forall k | i < k < |tasks| :: after[k] == tasks[k] && OpenAt(after, k) == OpenAt(tasks, k);
    forall k | i < k < |tasks| ensures ReviewsOnlyUpTo(after, next, k) <==> ReviewsOnlyUpTo(tasks, i, k) {
    }
    assert ReviewsOnlyUpTo(tasks, i, i) <==> !OpenReviewFrom(after, next);
  }

  lemma OpenElsewhere(tasks: seq<Task>, i: nat)
    requires i < |tasks|
    ensures var after := tasks[i := tasks[i].(status := Done)];
      && (forall k :: i < k < |tasks| ==> after[k] == tasks[k])
      && (OpenReviewFrom(after, i + 1) ==> OpenReviewFrom(tasks, i))
      && (OpenReviewFrom(tasks, i) && !OpenReviewFrom(after, i + 1) ==>
        OpenAt(tasks, i) && tasks[i].department == Review)
  {
  }

  lemma WaitsElsewhere(tasks: seq<Task>, i: nat, provider: Provider, approved: set<ActionType>)
    requires i < |tasks| && !(OpenAt(tasks, i) && MustWait(tasks[i], provider, approved))
    ensures Pauses(tasks[i := tasks[i].(status := Done)], i + 1, provider, approved) <==>
      Pauses(tasks, i, provider, approved)
  {
    var after := tasks[i := tasks[i].(status := Done)];
    assert forall k | i < k < |tasks| :: after[k] == tasks[k] && OpenAt(after, k) == OpenAt(tasks, k);
    if Pauses(tasks, i, provider, approved) {
      var k :| i <= k < |tasks| && OpenAt(tasks, k) && MustWait(tasks[k], provider, approved);
      assert OpenAt(after, k) && MustWait(after[k], provider, approved);
    }
  }

  /** The task loop pauses exactly at an open task that has to wait, and fails exactly when its last review
      sees nothing. */
  lemma {:induction false} RunTasksOutcome(v: Record, i: nat, provider: Provider, approved: set<ActionType>,
                                           actor: Actor, verdict: Option<Verdict>)
    requires i <= |v.tasks|
    ensures var c := RunTasks(v, i, provider, approved, false, actor, verdict);
      && c.record == v.(tasks := c.record.tasks, artifacts := c.record.artifacts, reviews := c.record.reviews,
        events := c.record.events)
      && v.events <= c.record.events
      && (c.PausedAt? <==> Pauses(v.tasks, i, provider, approved))
      && (c.Finished? ==> (c.verdict == Some(ChangesRequested) <==>
            ReviewsNothing(v.tasks, v.artifacts, i)
              || (verdict == Some(ChangesRequested) && !OpenReviewFrom(v.tasks, i))))
    decreases |v.tasks| - i
  {
    hide WorkOn, Upsert, ReviewsNothing, OpenReviewFrom, Pauses, MustWait;
    if i == |v.tasks| {
      NothingLeft(v.tasks, v.artifacts, provider, approved);
    } else {
      var after := v.tasks[i := v.tasks[i].(status := Done)];
      OpenElsewhere(v.tasks, i);
      if v.tasks[i].status == Done {
        assert after == v.tasks;
        WaitsElsewhere(v.tasks, i, provider, approved);
        SkipsDone(v.tasks, v.artifacts, i);
        RunTasksOutcome(v, i + 1, provider, approved, actor, verdict);
      } else if MustWait(v.tasks[i], provider, approved) {
        assert Pauses(v.tasks, i, provider, approved) by {
          WaitsHere(v.tasks, i, provider, approved);
        }
      } else {
        WaitsElsewhere(v.tasks, i, provider, approved);
        WorkOnEffect(v, i, provider, false, actor);
        var w := WorkOn(v, i, provider, false, actor);
        RunTasksOutcome(w, i + 1, provider, approved, actor, NextVerdict(v, i, false, verdict));
        if v.tasks[i].department == Review {
          VerdictAfterReview(v, i, verdict);
        } else {
          UpsertPresent(v.artifacts, ArtifactId, ProducedArtifact(v.tasks[i], provider));
          WorkLeavesOutput(v.tasks, v.artifacts, w.artifacts, i);
        }
      }
    }
  }

  lemma NothingLeft(tasks: seq<Task>, artifacts: seq<Artifact>, provider: Provider, approved: set<ActionType>)
    ensures !ReviewsNothing(tasks, artifacts, |tasks|) && !OpenReviewFrom(tasks, |tasks|)
    ensures !Pauses(tasks, |tasks|, provider, approved)
  {
  }

  lemma WaitsHere(tasks: seq<Task>, i: nat, provider: Provider, approved: set<ActionType>)
    requires OpenAt(tasks, i) && MustWait(tasks[i], provider, approved)
    ensures Pauses(tasks, i, provider, approved)
  {
  }

  lemma SkipsDone(tasks: seq<Task>, artifacts: seq<Artifact>, i: nat)
    requires i < |tasks| && tasks[i].status == Done
    ensures ReviewsNothing(tasks, artifacts, i) <==> ReviewsNothing(tasks, artifacts, i + 1)
    ensures OpenReviewFrom(tasks, i) <==> OpenReviewFrom(tasks, i + 1)
  {
    var next := i + 1;
    forall k | 0 <= k < |tasks| ensures ReviewsOnlyUpTo(tasks, next, k) <==> ReviewsOnlyUpTo(tasks, i, k) {
    }
  }

  lemma VerdictAfterReview(v: Record, i: nat, verdict: Option<Verdict>)
    requires OpenAt(v.tasks, i) && v.tasks[i].department == Review
    ensures var after := v.tasks[i := v.tasks[i].(status := Done)];
      (ReviewsNothing(after, v.artifacts, i + 1)
        || (NextVerdict(v, i, false, verdict) == Some(ChangesRequested) && !OpenReviewFrom(after, i + 1)))
      <==> (ReviewsNothing(v.tasks, v.artifacts, i)
        || (verdict == Some(ChangesRequested) && !OpenReviewFrom(v.tasks, i)))
  {
    ReviewsNothingAtReview(v.tasks, i);
    assert OpenReviewFrom(v.tasks, i);
    if v.artifacts == [] {
      assert v.artifacts == [];
    }
  }

  lemma WorkLeavesOutput(tasks: seq<Task>, before: seq<Artifact>, after: seq<Artifact>, i: nat)
    requires OpenAt(tasks, i) && tasks[i].department != Review && after != []
    ensures !ReviewsNothing(tasks, before, i)
    ensures !ReviewsNothing(tasks[i := tasks[i].(status := Done)], after, i + 1)
  {
  }

  /** Nothing, or one request for the external action, was appended. */
  predicate AtMostOneRequest(before: seq<Approval>, after: seq<Approval>) {
    || after == before
    || (&& |after| == |before| + 1 && before <= after
        && after[|before|].status == Undecided && after[|before|].action == ExternalApiSend)
  }

  /** What an execution leaves in the approvals and the status of any record. */
  predicate Executed(v: Record, w: Record, provider: Provider, approved: set<ActionType>) {
    && w.id == v.id && v.events <= w.events
    && match w.status
       case WaitingApproval =>
         && Pauses(v.tasks, 0, provider, approved)
         && AtMostOneRequest(v.approvals, w.approvals)
         && ExternalApiSend in TypesWith(w.approvals, Undecided)
       case RevisionRequested =>
         !Pauses(v.tasks, 0, provider, approved) && ReviewsNothing(v.tasks, v.artifacts, 0)
       case Completed =>
         && !Pauses(v.tasks, 0, provider, approved) && !ReviewsNothing(v.tasks, v.artifacts, 0)
         && w.approvals == v.approvals
       case _ => false
  }

  lemma PauseRequests(v: Record, i: nat, actor: Actor, approvalId: nat)
    requires i < |v.tasks| && v.status == InProgress
    ensures Pause(v, i, actor, approvalId).Ok?
    ensures var w := Pause(v, i, actor, approvalId).value;
      && w.status == WaitingApproval && w.id == v.id && v.events <= w.events
      && AtMostOneRequest(v.approvals, w.approvals)
      && ExternalApiSend in TypesWith(w.approvals, Undecided)
  {
    hide Upsert;
    var w := Pause(v, i, actor, approvalId).value;
    if ExternalApiSend !in TypesWith(v.approvals, Undecided) {
      var a := Approval(approvalId, ExternalApiSend, Undecided, "system", "");
      assert w.approvals == v.approvals + [a];
      assert a in w.approvals;
    }
  }

  lemma FinishLogs(v: Record, verdict: Option<Verdict>, actor: Actor)
    requires v.status == InProgress
    ensures Finish(v, verdict, actor).Ok?
    ensures v.events <= Finish(v, verdict, actor).value.events
  {
    hide Upsert;
  }

  lemma ExecuteAny(v: Record, launch: Launch, approved: set<ActionType>, actor: Actor, approvalId: nat)
    requires v.status == InProgress && ResolveProvider(launch).Some?
    ensures var o := Execute(v, launch, approved, false, actor, approvalId);
      && o.saved.Some? && o.answer == Summary(o.saved.value)
      && Executed(v, o.saved.value, ResolveProvider(launch).value, approved)
  {
    hide RunTasks, Pause, Finish, ResolveProvider, Pauses, ReviewsNothing, OpenReviewFrom;
    var provider := ResolveProvider(launch).value;
    RunTasksOutcome(v, 0, provider, approved, actor, None);
    var c := RunTasks(v, 0, provider, approved, false, actor, None);
    match c
    case PausedAt(w, i) => PauseRequests(w, i, actor, approvalId);
    case Finished(w, verdict) =>
      FinishEffect(w, verdict, actor);
      FinishLogs(w, verdict, actor);
  }

  /******* resume_from_approval *******/

  lemma ApprovalSavesOnlyWaiting(v: Record, inputs: seq<ActionInput>, caller: ActorArgument, note: string,
                                 launch: Launch, overrides: RuntimeOverride, approvalId: nat)
    requires v.status != WaitingApproval
    ensures ResumeFromApproval(v, inputs, caller, note, launch, overrides, approvalId).saved.None?
  {
    hide ParseActions;
  }

  lemma {:induction false} ApproveNothing(v: Record, i: nat, actor: Actor, note: string)
    requires i <= |v.approvals|
    ensures ApproveFrom(v, i, {}, actor, note) == v
    decreases |v.approvals| - i
  {
    if i < |v.approvals| {
      ApproveNothing(v, i + 1, actor, note);
    }
  }

  /** A request whose actions are all approved, while another one is missing, changes nothing. */
  lemma SettledRequestKeeps(v: Record, requested: set<ActionType>, actor: Actor, note: string, launch: Launch,
                            overrides: RuntimeOverride, approvalId: nat)
    requires requested <= TypesWith(v.approvals, Approved)
    requires !(TypesWith(v.approvals, Undecided) <= requested)
    ensures ResumeWaiting(v, requested, actor, note, launch, overrides, approvalId) == Keep(v)
  {
    hide Execute, Released;
    var missing :| missing in TypesWith(v.approvals, Undecided) && missing !in requested;
    assert missing in TypesWith(v.approvals, Undecided) - requested;
    assert requested - TypesWith(v.approvals, Approved) == {};
    InOrderExact({});
    assert ActionsInOrder({}) == [];
    ApproveNothing(v, 0, actor, note);
  }

  predicate SameActions(before: seq<Approval>, after: seq<Approval>) {
    |after| == |before| && forall k :: 0 <= k < |before| ==> after[k].action == before[k].action
  }

  lemma KnownTypesStay(before: seq<Approval>, after: seq<Approval>)
    requires SameActions(before, after)
    ensures KnownTypes(after) <= KnownTypes(before)
  {
  }

  /** Approvals that keep the given status keep their type among those with it. */
  lemma TypesStay(before: seq<Approval>, after: seq<Approval>, status: ApprovalStatus, a: ActionType)
    requires SameActions(before, after) && a in TypesWith(before, status)
    requires forall k :: 0 <= k < |before| && before[k].status == status && before[k].action == a ==>
      after[k].status == status
    ensures a in TypesWith(after, status)
  {
  }

  lemma RequestedBecomesApproved(before: seq<Approval>, after: seq<Approval>, requested: set<ActionType>, actor: Actor,
                                 note: string, a: ActionType)
    requires ValidateRequest(requested, before).None? && a in requested
    requires ApprovesFrom(before, after, 0, requested - TypesWith(before, Approved), actor, note)
    ensures a in TypesWith(after, Approved)
  {
    if a in TypesWith(before, Approved) {
      TypesStay(before, after, Approved, a);
    } else {
      var k :| 0 <= k < |before| && before[k].action == a;
      assert before[k] in before;
      assert a !in requested * TypesWith(before, Rejected);
      assert before[k].status == Undecided;
      assert after[k] in after;
    }
  }

  /** The approval types after approving the valid request. */
  lemma TypesAfterApproval(before: seq<Approval>, after: seq<Approval>, requested: set<ActionType>, actor: Actor,
                           note: string)
    requires ValidateRequest(requested, before).None?
    requires ApprovesFrom(before, after, 0, requested - TypesWith(before, Approved), actor, note)
    ensures KnownTypes(after) == KnownTypes(before)
    ensures TypesWith(after, Rejected) == TypesWith(before, Rejected)
    ensures requested <= TypesWith(after, Approved)
    ensures TypesWith(before, Undecided) - requested <= TypesWith(after, Undecided)
  {
    hide TypesWith, KnownTypes, ValidateRequest;
    KnownTypesStay(before, after);
    KnownTypesStay(after, before);
    forall a | a in requested
      ensures a in TypesWith(after, Approved)
    {
      RequestedBecomesApproved(before, after, requested, actor, note, a);
    }
    forall a | a in TypesWith(before, Undecided) - requested
      ensures a in TypesWith(after, Undecided)
    {
      TypesStay(before, after, Undecided, a);
    }
    forall a | a in TypesWith(before, Rejected)
      ensures a in TypesWith(after, Rejected)
    {
      TypesStay(before, after, Rejected, a);
    }
    forall a | a in TypesWith(after, Rejected)
      ensures a in TypesWith(before, Rejected)
    {
      TypesStay(after, before, Rejected, a);
    }
  }

  /** The second of two equal requests is answered without a change, if the first one left the project waiting. */
  predicate SecondRequestKeeps(w: Record, requested: set<ActionType>) {
    && HasUndecided(w.approvals)
    && ValidateRequest(requested, w.approvals).None?
    && requested <= TypesWith(w.approvals, Approved)
    && !(TypesWith(w.approvals, Undecided) <= requested)
  }

  /** The request is valid, and all that it names is approved. */
  predicate RequestIsApproved(w: Record, requested: set<ActionType>) {
    ValidateRequest(requested, w.approvals).None? && requested <= TypesWith(w.approvals, Approved)
  }

  lemma ResumeWaitingTwice(v: Record, requested: set<ActionType>, actor: Actor, note: string, launch: Launch,
                           overrides: RuntimeOverride, approvalId: nat)
    requires v.status == WaitingApproval && ValidateRequest(requested, v.approvals).None?
    ensures var o := ResumeWaiting(v, requested, actor, note, launch, overrides, approvalId);
      o.answer.Summary? ==>
        if o.saved.None? then !(TypesWith(v.approvals, Undecided) <= requested)
          && requested <= TypesWith(v.approvals, Approved)
        else
          && (o.saved.value.status == WaitingApproval ==> SecondRequestKeeps(o.saved.value, requested))
          && (o.saved.value.status == Completed ==> RequestIsApproved(o.saved.value, requested))
  {
    hide AuthorizeAll, ApproveFrom, MoveTasks, Execute, ResolveProvider, ActionsInOrder, Pauses, ReviewsNothing;
    var toApprove := requested - TypesWith(v.approvals, Approved);
    AuthorizeAllEffect(v, actor, ActionsInOrder(toApprove), overrides);
    var r := AuthorizeAll(v, actor, ActionsInOrder(toApprove), overrides);
    if r.denied.None? {
      ApproveFromEffect(r.record, 0, toApprove, actor, note);
      var decided := ApproveFrom(r.record, 0, toApprove, actor, note);
      TypesAfterApproval(v.approvals, decided.approvals, requested, actor, note);
      if !(TypesWith(v.approvals, Undecided) <= requested) {
        var a :| a in TypesWith(v.approvals, Undecided) && a !in requested;
        assert a in TypesWith(v.approvals, Undecided) - requested;
        assert a in TypesWith(decided.approvals, Undecided);
      } else {
        assert TypesWith(v.approvals, Undecided) - requested == {};
        MoveTasksEffect(decided, 0, WaitingTasks, Pending, "", actor);
        var w := Transition(Released(decided, actor), InProgress, actor).value;
        var approved := TypesWith(v.approvals, Approved) + toApprove;
        if ResolveProvider(launch).Some? {
          ExecuteAny(w, launch, approved, actor, approvalId);
          var x := Execute(w, launch, approved, false, actor, approvalId).saved.value;
          if x.status == WaitingApproval {
            PausedRequest(w, x, requested, ResolveProvider(launch).value, approved);
          }
        } else {
          assert Execute(w, launch, approved, false, actor, approvalId) == Raise(UnsupportedProvider) by {
            Unresolved(w, launch, approved, actor, approvalId);
          }
        }
      }
    }
  }

  lemma Unresolved(v: Record, launch: Launch, approved: set<ActionType>, actor: Actor, approvalId: nat)
    requires ResolveProvider(launch).None?
    ensures Execute(v, launch, approved, false, actor, approvalId) == Raise(UnsupportedProvider)
  {
  }

  lemma PausedRequest(w: Record, x: Record, requested: set<ActionType>, provider: Provider, approved: set<ActionType>)
    requires Executed(w, x, provider, approved) && x.status == WaitingApproval && requested <= approved
    requires ValidateRequest(requested, w.approvals).None? && requested <= TypesWith(w.approvals, Approved)
    ensures SecondRequestKeeps(x, requested)
  {
  }

  lemma CompletedAnswers(w: Record, inputs: seq<ActionInput>, caller: ActorArgument, note: string, launch: Launch,
                         overrides: RuntimeOverride, againId: nat)
    requires w.status == Completed && ParseActions(inputs).Ok? && ParseActions(inputs).value != {}
    requires RequestIsApproved(w, ParseActions(inputs).value)
    ensures ResumeFromApproval(w, inputs, caller, note, launch, overrides, againId) ==
      if HasUndecided(w.approvals) then Raise(InvalidState(WaitingApproval, Completed)) else Keep(w)
  {
    hide ParseActions;
    var a :| a in ParseActions(inputs).value;
    assert a in KnownTypes(w.approvals);
  }

  /** A successful approval call, repeated, saves nothing: not after completion,
      nor after a partial approval or a new pause.
      It answers unless an undecided request survived completion, or the project went to revision. */
  lemma ApprovalRetry(v: Record, inputs: seq<ActionInput>, caller: ActorArgument, note: string, launch: Launch,
                      overrides: RuntimeOverride, approvalId: nat, againId: nat)
    requires ResumeFromApproval(v, inputs, caller, note, launch, overrides, approvalId).answer.Summary?
    ensures var w := StoredAfter(v, ResumeFromApproval(v, inputs, caller, note, launch, overrides, approvalId));
      var again := ResumeFromApproval(w, inputs, caller, note, launch, overrides, againId);
      if w.status == WaitingApproval || (w.status == Completed && !HasUndecided(w.approvals))
      then again == Keep(w)
      else again == Raise(InvalidState(WaitingApproval, w.status))
  {
    hide ParseActions, ResumeWaiting, SecondRequestKeeps, RequestIsApproved, ValidateRequest;
    var o := ResumeFromApproval(v, inputs, caller, note, launch, overrides, approvalId);
    var w := StoredAfter(v, o);
    if w.status != WaitingApproval {
      ApprovalSavesOnlyWaiting(w, inputs, caller, note, launch, overrides, againId);
    }
    if v.status == WaitingApproval {
      var requested := ParseActions(inputs).value;
      var actor := CoerceActor(caller, Approver);
      ResumeWaitingTwice(v, requested, actor, Text.Strip(note), launch, overrides, approvalId);
      if w.status == WaitingApproval {
        SecondRequest(w, requested, v, o, actor, Text.Strip(note), launch, overrides, againId);
      } else if w.status == Completed {
        CompletedAnswers(w, inputs, caller, note, launch, overrides, againId);
      }
    }
  }

  lemma SecondRequest(w: Record, requested: set<ActionType>, v: Record, o: Outcome, actor: Actor, note: string,
                      launch: Launch, overrides: RuntimeOverride, againId: nat)
    requires w == StoredAfter(v, o)
    requires HasUndecided(v.approvals) && ValidateRequest(requested, v.approvals).None?
    requires o.saved.Some? ==> SecondRequestKeeps(w, requested)
    requires o.saved.None? ==>
      !(TypesWith(v.approvals, Undecided) <= requested) && requested <= TypesWith(v.approvals, Approved)
    ensures ResumeWaiting(w, requested, actor, note, launch, overrides, againId) == Keep(w)
    ensures HasUndecided(w.approvals) && ValidateRequest(requested, w.approvals).None?
  {
    hide ResumeWaiting;
    SettledRequestKeeps(w, requested, actor, note, launch, overrides, againId);
  }

  /******* reject_approval and start_replanning *******/

  lemma RejectWaitingLeaves(v: Record, named: set<ActionType>, actor: Actor, reason: string, note: string,
                            overrides: RuntimeOverride)
    requires v.status == WaitingApproval && HasUndecided(v.approvals)
    ensures var o := RejectWaiting(v, named, actor, reason, note, overrides);
      o.answer.Summary? ==>
        && o.saved.Some? && o.saved.value.status == RevisionRequested
        && RejectAgain(o.saved.value, named) == Keep(o.saved.value)
  {
    hide AuthorizeAll, RejectFrom, MoveTasks, ActionsInOrder, StopsAt;
    var undecided := TypesWith(v.approvals, Undecided);
    var wanted := if named == {} then undecided else named;
    AuthorizeAllEffect(v, actor, ActionsInOrder(undecided), overrides);
    var r := AuthorizeAll(v, actor, ActionsInOrder(undecided), overrides).record;
    RejectFromEffect(r, 0, wanted, actor, reason, note);
    var decided := RejectFrom(r, 0, wanted, actor, reason, note);
    MoveTasksEffect(decided, 0, WaitingTasks, NeedsRevision, reason, actor);
    UndecidedBecomeRejected(v.approvals, decided.approvals, actor, reason, note);
  }

  lemma UndecidedBecomeRejected(before: seq<Approval>, after: seq<Approval>, actor: Actor, reason: string, note: string)
    requires RejectsFrom(before, after, 0, actor, reason, note) && HasUndecided(before)
    ensures TypesWith(before, Undecided) <= TypesWith(after, Rejected) && TypesWith(after, Rejected) != {}
  {
    forall a | a in before && a.status == Undecided
      ensures a.action in TypesWith(after, Rejected)
    {
      var k :| 0 <= k < |before| && before[k] == a;
      assert after[k] in after;
    }
    var a :| a in before && a.status == Undecided;
    assert a.action in TypesWith(after, Rejected);
  }

  /** A successful rejection, repeated, saves nothing and answers. */
  lemma RejectionRetry(v: Record, inputs: seq<ActionInput>, caller: ActorArgument, reason: string, note: string,
                       overrides: RuntimeOverride)
    requires RejectApproval(v, inputs, caller, reason, note, overrides).answer.Summary?
    ensures var w := StoredAfter(v, RejectApproval(v, inputs, caller, reason, note, overrides));
      RejectApproval(w, inputs, caller, reason, note, overrides) == Keep(w)
  {
    hide ParseActions, RejectWaiting, RejectAgain;
    if v.status == WaitingApproval {
      RejectWaitingLeaves(v, ParseActions(inputs).value, CoerceActor(caller, Approver), Text.Strip(reason),
        Text.Strip(note), overrides);
    } else {
      AgainKeeps(v, ParseActions(inputs).value);
    }
  }

  lemma AgainKeeps(v: Record, named: set<ActionType>)
    ensures RejectAgain(v, named).answer.Summary? ==> RejectAgain(v, named) == Keep(v)
  {
  }

  lemma ExecuteWithLeaves(v: Record, launch: Launch, inputs: seq<ActionInput>, actor: Actor, approvalId: nat)
    requires v.status == InProgress && ExecuteWith(v, launch, inputs, false, actor, approvalId).answer.Summary?
    ensures ResolveProvider(launch).Some? && ParseActions(inputs).Ok?
    ensures var o := ExecuteWith(v, launch, inputs, false, actor, approvalId);
      && o.saved.Some? && o.answer == Summary(o.saved.value)
      && Executed(v, o.saved.value, ResolveProvider(launch).value, ParseActions(inputs).value)
  {
    hide ParseActions, ResolveProvider, RunTasks, Executed;
    if ResolveProvider(launch).Some? && ParseActions(inputs).Ok? {
      ExecuteAny(v, launch, ParseActions(inputs).value, actor, approvalId);
    }
  }

  /** A successful start of replanning, repeated, saves nothing, and answers exactly after a completion. */
  lemma ReplanningRetry(v: Record, caller: ActorArgument, launch: Launch, inputs: seq<ActionInput>, reset: bool,
                        approvalId: nat, againId: nat)
    requires StartReplanning(v, caller, launch, inputs, reset, approvalId).answer.Summary?
    ensures var w := StoredAfter(v, StartReplanning(v, caller, launch, inputs, reset, approvalId));
      var again := StartReplanning(w, caller, launch, inputs, reset, againId);
      && w.status != ReadyForPlanning
      && again == if w.status == Completed then Keep(w) else Raise(InvalidState(ReadyForPlanning, w.status))
  {
    hide ParseActions, ExecuteWith, MoveTasks, Pauses, ReviewsNothing, ResetDepartments, ResolveProvider;
    if v.status == ReadyForPlanning {
      var actor := CoerceActor(caller, Operator);
      MoveTasksEffect(v, 0, InDepartments(ResetDepartments(Replanning)), Pending, "", actor);
      var replanned := ReplanTasks(v, actor, reset);
      var resumed := Transition(replanned, InProgress, actor).value;
      ExecuteWithLeaves(resumed, launch, inputs, actor, approvalId);
      var w := ExecuteWith(resumed, launch, inputs, false, actor, approvalId).saved.value;
      var k := |replanned.events| - 1;
      assert replanned.events[k].kind == ReplanningStarted(reset);
      assert w.events[k] == replanned.events[k] && w.events[k] in w.events;
    }
  }

  /******* resume_from_revision *******/

  /** The tasks as the revision will find them. */
  function ResetView(tasks: seq<Task>, mode: RevisionMode): seq<Task> {
    seq(|tasks|, k requires 0 <= k < |tasks| =>
      if tasks[k].department in ResetDepartments(mode) then tasks[k].(status := Pending) else tasks[k])
  }

  /** The revision ends in revision again: no task waits, and the last open review will see no artifacts. */
  predicate RevisionRepeats(v: Record, mode: RevisionMode, provider: Provider, approved: set<ActionType>) {
    && v.status == RevisionRequested && mode != Replanning
    && ReviewsNothing(ResetView(v.tasks, mode), v.artifacts, 0)
    && !Pauses(ResetView(v.tasks, mode), 0, provider, approved)
  }

  predicate SameStatuses(a: seq<Task>, b: seq<Task>) {
    |a| == |b| && forall k :: 0 <= k < |a| ==> a[k].status == b[k].status && a[k].department == b[k].department
  }

  lemma SameView(a: seq<Task>, b: seq<Task>, artifacts: seq<Artifact>, provider: Provider, approved: set<ActionType>)
    requires SameStatuses(a, b)
    ensures ReviewsNothing(a, artifacts, 0) ==> ReviewsNothing(b, artifacts, 0)
    ensures Pauses(a, 0, provider, approved) ==> Pauses(b, 0, provider, approved)
  {
    assert forall k | 0 <= k < |a| :: OpenAt(a, k) == OpenAt(b, k);
    if k :| 0 <= k < |a| && ReviewsOnlyUpTo(a, 0, k) {
      assert ReviewsOnlyUpTo(b, 0, k);
    }
    if k :| 0 <= k < |a| && OpenAt(a, k) && MustWait(a[k], provider, approved) {
      assert OpenAt(b, k) && MustWait(b[k], provider, approved);
    }
  }

  /** A successful revision that executes: what it saves, and when it lands in revision again. */
  lemma RevisionLeaves(v: Record, mode: RevisionMode, caller: ActorArgument, reason: string, launch: Launch,
                       inputs: seq<ActionInput>, approvalId: nat)
    requires v.status == RevisionRequested && mode != Replanning
    requires ResumeFromRevision(v, mode, caller, reason, launch, inputs, approvalId).answer.Summary?
    ensures ResolveProvider(launch).Some? && ParseActions(inputs).Ok?
    ensures var o := ResumeFromRevision(v, mode, caller, reason, launch, inputs, approvalId);
      && o.saved.Some? && |o.saved.value.events| > |v.events|
      && o.saved.value.status in {WaitingApproval, RevisionRequested, Completed}
      && HasResumed(o.saved.value, mode)
      && (o.saved.value.status == RevisionRequested <==>
            RevisionRepeats(v, mode, ResolveProvider(launch).value, ParseActions(inputs).value))
  {
    hide ParseActions, ResolveProvider, ExecuteWith, MoveTasks, Pauses, ReviewsNothing;
    var actor := CoerceActor(caller, Operator);
    var triggered := RecordEvent(v, ResumeTriggered(RevisionResume(mode)), actor);
    MoveTasksEffect(triggered, 0, InDepartments(ResetDepartments(mode)), Pending, Text.Strip(reason), actor);
    var w := Transition(ReviseTasks(v, mode, actor, Text.Strip(reason)), InProgress, actor).value;
    ExecuteWithLeaves(w, launch, inputs, actor, approvalId);
    var x := ExecuteWith(w, launch, inputs, false, actor, approvalId).saved.value;
    assert x.events[|v.events|] == w.events[|v.events|] == triggered.events[|v.events|];
    assert x.events[|v.events|] in x.events;
    var provider, approved := ResolveProvider(launch).value, ParseActions(inputs).value;
    assert SameStatuses(w.tasks, ResetView(v.tasks, mode));
    SameView(w.tasks, ResetView(v.tasks, mode), w.artifacts, provider, approved);
    SameView(ResetView(v.tasks, mode), w.tasks, w.artifacts, provider, approved);
  }

  lemma ExecuteWithSucceeds(v: Record, launch: Launch, inputs: seq<ActionInput>, actor: Actor, approvalId: nat)
    requires v.status == InProgress && ResolveProvider(launch).Some? && ParseActions(inputs).Ok?
    ensures ExecuteWith(v, launch, inputs, false, actor, approvalId).answer.Summary?
  {
    hide ParseActions, ResolveProvider, RunTasks, Executed;
    ExecuteAny(v, launch, ParseActions(inputs).value, actor, approvalId);
  }

  lemma RevisionSucceeds(v: Record, mode: RevisionMode, caller: ActorArgument, reason: string, launch: Launch,
                         inputs: seq<ActionInput>, approvalId: nat)
    requires v.status == RevisionRequested && mode != Replanning
    requires ResolveProvider(launch).Some? && ParseActions(inputs).Ok?
    ensures ResumeFromRevision(v, mode, caller, reason, launch, inputs, approvalId).answer.Summary?
  {
    hide ParseActions, ResolveProvider, ExecuteWith, MoveTasks;
    var actor := CoerceActor(caller, Operator);
    MoveTasksEffect(RecordEvent(v, ResumeTriggered(RevisionResume(mode)), actor), 0,
      InDepartments(ResetDepartments(mode)), Pending, Text.Strip(reason), actor);
    ExecuteWithSucceeds(Transition(ReviseTasks(v, mode, actor, Text.Strip(reason)), InProgress, actor).value, launch,
      inputs, actor, approvalId);
  }

  /** A successful revision, repeated, changes the record exactly when its last review had nothing to see,
      and answers exactly when the first one did not leave the project waiting. */
  lemma RevisionRetry(v: Record, mode: RevisionMode, caller: ActorArgument, reason: string, launch: Launch,
                      inputs: seq<ActionInput>, approvalId: nat, againId: nat)
    requires ResumeFromRevision(v, mode, caller, reason, launch, inputs, approvalId).answer.Summary?
    ensures var w := StoredAfter(v, ResumeFromRevision(v, mode, caller, reason, launch, inputs, approvalId));
      var again := ResumeFromRevision(w, mode, caller, reason, launch, inputs, againId);
      if ResolveProvider(launch).Some? && ParseActions(inputs).Ok?
         && RevisionRepeats(v, mode, ResolveProvider(launch).value, ParseActions(inputs).value)
      then again.saved.Some? && again.saved.value != w && again.answer.Summary?
      else again == if w.status == WaitingApproval then Raise(InvalidState(RevisionRequested, WaitingApproval))
        else Keep(w)
  {
    hide ParseActions, ResolveProvider, ExecuteWith, ReviseTasks, Pauses, ReviewsNothing;
    if v.status == RevisionRequested {
      if mode == Replanning {
      } else {
        RevisionLeaves(v, mode, caller, reason, launch, inputs, approvalId);
        var w := ResumeFromRevision(v, mode, caller, reason, launch, inputs, approvalId).saved.value;
        if w.status == RevisionRequested {
          RevisionSucceeds(w, mode, caller, reason, launch, inputs, againId);
          RevisionLeaves(w, mode, caller, reason, launch, inputs, againId);
        }
      }
    }
  }

  /** A reviewed list of tasks that begins with work never sees nothing. */
  lemma StoredRevisionsEnd(v: Record, mode: RevisionMode, provider: Provider, approved: set<ActionType>)
    requires Stored(v)
    ensures !RevisionRepeats(v, mode, provider, approved)
  {
    hide OrderedPlan;
    var view := ResetView(v.tasks, mode);
    assert Shape(v.tasks)[0] == ShapeOf(v.tasks[0]);
    assert v.tasks[0].department != Review;
    if v.artifacts == [] {
      assert v.tasks[0].status != Done;
      assert OpenAt(view, 0);
    }
  }

  /** In a run, an approval that succeeds leaves a completed project without undecided requests. */
  lemma ApprovalCompletes(v: Record, inputs: seq<ActionInput>, caller: ActorArgument, note: string, launch: Launch,
                          overrides: RuntimeOverride, approvalId: nat)
    requires Stored(v)
    ensures var o := ResumeFromApproval(v, inputs, caller, note, launch, overrides, approvalId);
      o.answer.Summary? ==> StoredAfter(v, o).status == Completed && !HasUndecided(StoredAfter(v, o).approvals)
  {
    hide ParseActions, ResumeWaiting, ValidateRequest, Stored;
    StoredDecided(v);
    var o := ResumeFromApproval(v, inputs, caller, note, launch, overrides, approvalId);
    if v.status == WaitingApproval && o.answer.Summary? {
      ValidRequest(v, ParseActions(inputs).value);
      ResumeWaitingKeeps(v, CoerceActor(caller, Approver), Text.Strip(note), launch, overrides, approvalId);
      StoredDecided(o.saved.value);
    }
  }

  lemma StoredDecided(v: Record)
    requires Stored(v)
    ensures v.status != WaitingApproval ==> !HasUndecided(v.approvals)
  {
    hide GoodPlan;
  }

  /** The call is repeated without effect; only a revision or a replanning that left the project waiting is refused. */
  lemma StoredRetry(v: Record, c: Call, approvalId: nat, againId: nat)
    requires Stored(v) && !c.StartProject? && OutcomeOn(v, c, approvalId).answer.Summary?
    ensures var w := StoredAfter(v, OutcomeOn(v, c, approvalId));
      OutcomeOn(w, c, againId) == if (c.RevisionCall? || c.ReplanningCall?) && w.status == WaitingApproval
        then Raise(InvalidState(if c.RevisionCall? then RevisionRequested else ReadyForPlanning, WaitingApproval))
        else Keep(w)
  {
    hide Stored, ResumeFromApproval, RejectApproval, ResumeFromRevision, Replan, RevisionRepeats;
    match c
    case ApprovalCall(_, inputs, caller, note, launch, overrides) =>
      ApprovalRetry(v, inputs, caller, note, launch, overrides, approvalId, againId);
      ApprovalCompletes(v, inputs, caller, note, launch, overrides, approvalId);
    case RejectionCall(_, inputs, caller, reason, note, overrides) =>
      RejectionRetry(v, inputs, caller, reason, note, overrides);
    case RevisionCall(_, mode, caller, reason, launch, inputs) =>
      RevisionRetry(v, mode, caller, reason, launch, inputs, approvalId, againId);
      if ResolveProvider(launch).Some? && ParseActions(inputs).Ok? {
        StoredRevisionsEnd(v, mode, ResolveProvider(launch).value, ParseActions(inputs).value);
      }
    case ReplanningCall(_, caller, launch, inputs, reset) =>
      ReplanningRetry(v, caller, launch, inputs, reset, approvalId, againId);
      StartReplanningKeeps(v, caller, launch, inputs, reset, approvalId);
  }

  /** In every run, repeating a successful approval, rejection, revision or replanning call changes nothing;
      it answers again, unless it is a revision or a replanning that left the project waiting. */
  lemma RunsRetrySafely(plan: seq<TaskShape>, calls: seq<Call>, c: Call)
    requires GoodPlan(plan) && !c.StartProject? && OutcomeOf(plan, After(plan, calls), c).answer.Summary?
    ensures After(plan, calls + [c, c]).store == After(plan, calls + [c]).store
    ensures Has(plan, calls + [c], c.id)
    ensures var answer := OutcomeOf(plan, After(plan, calls + [c]), c).answer;
      var w := Project(plan, calls + [c], c.id);
      answer == if (c.RevisionCall? || c.ReplanningCall?) && w.status == WaitingApproval
                then Raised(InvalidState(if c.RevisionCall? then RevisionRequested else ReadyForPlanning,
                  WaitingApproval))
                else Summary(w)
  {
    hide GoodPlan, RecordOk, Stored, After, OutcomeOn;
    GoodPlanOrdered(plan);
    StepEffect(plan, calls, c);
    StepEffect(plan, calls + [c], c);
    assert calls + [c] + [c] == calls + [c, c];
    var v := After(plan, calls).store[c.id];
    ProjectOk(plan, calls, c.id);
    StoredFromOk(plan, c.id, v);
    StoredRetry(v, c, After(plan, calls).next + 1, After(plan, calls + [c]).next + 1);
  }

  /** A stored project whose only task is a review, waiting for its revision. */
  function ReviewOnly(): Record {
    Record(0, ProjectPolicy(None, false, []), RevisionRequested,
      [Task("task-review", "Review output", Review, Done, [], "")], [], [], [], [], [], [])
  }

  /** Outside the orchestrator's own plans, a repeated revision can change the record again. */
  lemma RevisionRetryCanChange()
    ensures var o := ResumeFromRevision(ReviewOnly(), Rereview, Nobody, "", MOCK_LAUNCH, [], 0);
      && o.answer.Summary?
      && var again := ResumeFromRevision(StoredAfter(ReviewOnly(), o), Rereview, Nobody, "", MOCK_LAUNCH, [], 1);
         again.saved.Some? && again.saved.value != StoredAfter(ReviewOnly(), o)
  {
    hide ResumeFromRevision, ParseActions, ResolveProvider;
    var v := ReviewOnly();
    MockResolves(true);
    NothingParsed();
    RevisionSucceeds(v, Rereview, Nobody, "", MOCK_LAUNCH, [], 0);
    RevisionRetry(v, Rereview, Nobody, "", MOCK_LAUNCH, [], 0, 1);
    var view := ResetView(v.tasks, Rereview);
    assert ReviewsOnlyUpTo(view, 0, 0);
    assert RevisionRepeats(v, Rereview, Mock, {});
  }
}
