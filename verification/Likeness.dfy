/** Records that differ in the order of their lists only, and operations that cannot tell them apart. */
module Likeness {
  import opened Prelude
  import opened Domain
  import opened Workflow
  import opened Loops
  import opened Calls
  import opened Coupling
  import opened Identities
  import Rules = ApprovalRules
  import Text

  /** The same items, each under a key of its own. */
  ghost predicate SameItems<T(!new), K(!new)>(xs: seq<T>, ys: seq<T>, key: T -> K) {
    DistinctBy(xs, key) && DistinctBy(ys, key) && forall x :: x in xs <==> x in ys
  }

  /** The same record but for the order of artifacts, reviews, checkpoints and approvals. */
  ghost predicate Like(v: Record, u: Record) {
    && u.id == v.id && u.policy == v.policy && u.status == v.status
    && u.tasks == v.tasks && u.history == v.history && u.events == v.events
    && SameItems(v.artifacts, u.artifacts, ArtifactId)
    && SameItems(v.checkpoints, u.checkpoints, CheckpointKey)
    && SameItems(v.approvals, u.approvals, ApprovalKey)
    && multiset(v.reviews) == multiset(u.reviews)
  }

  predicate Unused(approvals: seq<Approval>, id: nat) {
    forall k :: 0 <= k < |approvals| ==> approvals[k].id != id
  }

  /** Alike, with an identifier that no approval has. */
  ghost predicate Alike(v: Record, u: Record, unused: nat) {
    Like(v, u) && Unused(v.approvals, unused)
  }

  ghost predicate LikeAnswers(a: Answer, b: Answer) {
    match a
    case Summary(v) => b.Summary? && Like(v, b.record)
    case _ => b == a
  }

  ghost predicate LikeOutcomes(o: Outcome, p: Outcome) {
    && o.saved.Some? == p.saved.Some?
    && (o.saved.Some? ==> Like(o.saved.value, p.saved.value))
    && LikeAnswers(o.answer, p.answer)
  }

  /******* Lists of items *******/

  lemma SameItemsSet<T(!new), K(!new)>(xs: seq<T>, ys: seq<T>, key: T -> K, i: nat, j: nat, x: T)
    requires SameItems(xs, ys, key) && i < |xs| && j < |ys| && xs[i] == ys[j] && key(x) == key(xs[i])
    ensures SameItems(xs[i := x], ys[j := x], key)
  {
    forall y
      ensures y in xs[i := x] <==> y == x || (y in xs && key(y) != key(x))
      ensures y in ys[j := x] <==> y == x || (y in ys && key(y) != key(x))
    {
      OthersStay(xs, key, i, x, y);
      OthersStay(ys, key, j, x, y);
    }
  }

  lemma OthersStay<T(!new), K(!new)>(xs: seq<T>, key: T -> K, i: nat, x: T, y: T)
    requires DistinctBy(xs, key) && i < |xs| && key(x) == key(xs[i])
    ensures y in xs[i := x] <==> y == x || (y in xs && key(y) != key(x))
  {
    if y in xs[i := x] {
      var k :| 0 <= k < |xs| && xs[i := x][k] == y;
      assert k != i ==> xs[k] == y;
    }
    if y in xs && key(y) != key(x) {
      var k :| 0 <= k < |xs| && xs[k] == y;
      assert xs[i := x][k] == y;
    }
    assert xs[i := x][i] == x;
  }

  lemma SameItemsAppend<T(!new), K(!new)>(xs: seq<T>, ys: seq<T>, key: T -> K, x: T)
    requires SameItems(xs, ys, key) && forall k :: 0 <= k < |xs| ==> key(xs[k]) != key(x)
    ensures SameItems(xs + [x], ys + [x], key)
  {
    forall k | 0 <= k < |ys|
      ensures key(ys[k]) != key(x)
    {
      assert ys[k] in xs;
    }
  }

  lemma SameItemsUpsert<T(!new), K(!new)>(xs: seq<T>, ys: seq<T>, key: T -> K, x: T)
    requires SameItems(xs, ys, key)
    ensures SameItems(Upsert(xs, key, x), Upsert(ys, key, x), key)
  {
    var i, j := IndexOf(xs, key, key(x)), IndexOf(ys, key, key(x));
    assert i < |xs| ==> xs[i] in ys;
    assert j < |ys| ==> ys[j] in xs;
    if i < |xs| {
      SameItemsSet(xs, ys, key, i, j, x);
    } else {
      SameItemsAppend(xs, ys, key, x);
    }
  }

  lemma SameTypes(xs: seq<Approval>, ys: seq<Approval>)
    requires SameItems(xs, ys, ApprovalKey)
    ensures KnownTypes(xs) == KnownTypes(ys) && (HasUndecided(xs) <==> HasUndecided(ys))
    ensures forall status :: TypesWith(xs, status) == TypesWith(ys, status)
  {
  }

  /******* Single changes *******/

  lemma LikeUpdate(v: Record, u: Record, approved: bool, approver: string, note: string)
    requires Like(v, u)
    ensures Like(UpdateApprovalCheckpoint(v, approved, approver, note),
      UpdateApprovalCheckpoint(u, approved, approver, note))
  {
    var i := IndexOf(v.checkpoints, CheckpointKey, ApprovalOf(v.id));
    var j := IndexOf(u.checkpoints, CheckpointKey, ApprovalOf(v.id));
    assert i < |v.checkpoints| ==> v.checkpoints[i] in u.checkpoints;
    assert j < |u.checkpoints| ==> u.checkpoints[j] in v.checkpoints;
    if i < |v.checkpoints| {
      var x := v.checkpoints[i].(approved := approved, approver := approver, note := note);
      SameItemsSet(v.checkpoints, u.checkpoints, CheckpointKey, i, j, x);
    }
  }

  lemma LikeArtifacts(v: Record, u: Record, x: Artifact)
    requires Like(v, u)
    ensures Like(v.(artifacts := Upsert(v.artifacts, ArtifactId, x)),
      u.(artifacts := Upsert(u.artifacts, ArtifactId, x)))
  {
    SameItemsUpsert(v.artifacts, u.artifacts, ArtifactId, x);
  }

  lemma LikeCheckpoints(v: Record, u: Record, x: Checkpoint)
    requires Like(v, u)
    ensures Like(v.(checkpoints := Upsert(v.checkpoints, CheckpointKey, x)),
      u.(checkpoints := Upsert(u.checkpoints, CheckpointKey, x)))
  {
    SameItemsUpsert(v.checkpoints, u.checkpoints, CheckpointKey, x);
  }

  lemma NoArtifactsAlike(v: Record, u: Record)
    requires Like(v, u)
    ensures v.artifacts == [] <==> u.artifacts == []
  {
    assert v.artifacts != [] ==> v.artifacts[0] in u.artifacts;
    assert u.artifacts != [] ==> u.artifacts[0] in v.artifacts;
  }

  lemma LikeStatuses(v: Record, u: Record, i: nat, next: TaskStatus, actor: Actor)
    requires Like(v, u) && i < |v.tasks|
    ensures var w := SetTaskStatus(v, i, next, actor);
      Like(w, SetTaskStatus(u, i, next, actor)) && |w.tasks| == |v.tasks| && w.approvals == v.approvals
  {
    hide SameItems;
  }

  lemma LikePerformances(v: Record, u: Record, task: Task, provider: Provider, simulateFailure: bool)
    requires Like(v, u)
    ensures var w := Perform(v, task, provider, simulateFailure);
      Like(w, Perform(u, task, provider, simulateFailure)) && |w.tasks| == |v.tasks| && w.approvals == v.approvals
    ensures ReviewOf(task, v.artifacts, simulateFailure) == ReviewOf(task, u.artifacts, simulateFailure)
  {
    hide Upsert, SameItems;
    NoArtifactsAlike(v, u);
    LikeArtifacts(v, u, ProducedArtifact(task, provider));
  }

  lemma LikeWork(v: Record, u: Record, i: nat, provider: Provider, simulateFailure: bool, actor: Actor)
    requires Like(v, u) && i < |v.tasks|
    ensures var w := WorkOn(v, i, provider, simulateFailure, actor);
      Like(w, WorkOn(u, i, provider, simulateFailure, actor)) && |w.tasks| == |v.tasks| && w.approvals == v.approvals
    ensures ReviewOf(v.tasks[i], v.artifacts, simulateFailure) == ReviewOf(v.tasks[i], u.artifacts, simulateFailure)
  {
    hide SetTaskStatus, Perform, SameItems, ReviewOf;
    LikePerformances(v, u, v.tasks[i], provider, simulateFailure);
    var a, b := SetTaskStatus(v, i, Started, actor), SetTaskStatus(u, i, Started, actor);
    LikeStatuses(v, u, i, Started, actor);
    LikePerformances(a, b, v.tasks[i], provider, simulateFailure);
    LikeStatuses(Perform(a, v.tasks[i], provider, simulateFailure), Perform(b, v.tasks[i], provider, simulateFailure),
      i, Done, actor);
  }

  lemma {:induction false} LikeMoves(v: Record, u: Record, i: nat, which: Selection, next: TaskStatus, note: string,
                                     actor: Actor)
    requires Like(v, u) && i <= |v.tasks|
    ensures Like(MoveTasks(v, i, which, next, note, actor), MoveTasks(u, i, which, next, note, actor))
    decreases |v.tasks| - i
  {
    hide SameItems, SetTaskStatus, Selects;
    if i < |v.tasks| {
      if Selects(which, v.tasks[i]) {
        LikeStatuses(v, u, i, next, actor);
        LikeMoves(SetNote(SetTaskStatus(v, i, next, actor), i, note),
          SetNote(SetTaskStatus(u, i, next, actor), i, note),
          i + 1, which, next, note, actor);
      } else {
        LikeMoves(v, u, i + 1, which, next, note, actor);
      }
    }
  }

  lemma {:induction false} LikeAuthorizations(v: Record, u: Record, actor: Actor, actions: seq<ActionType>,
                                              overrides: RuntimeOverride)
    requires Like(v, u)
    ensures var a := AuthorizeAll(v, actor, actions, overrides); var b := AuthorizeAll(u, actor, actions, overrides);
      Like(a.record, b.record) && a.denied == b.denied
    decreases |actions|
  {
    hide SameItems, Rules.Authorize;
    if actions != [] {
      var w, x := Evaluated(v, actions[0], actor, overrides), Evaluated(u, actions[0], actor, overrides);
      LikeAuthorizations(RecordEvent(w, AuthorizationGranted(actions[0]), actor),
        RecordEvent(x, AuthorizationGranted(actions[0]), actor),
        actor, actions[1..], overrides);
    }
  }

  /******* Execution *******/

  ghost predicate LikeCycles(c: Cycle, d: Cycle, unused: nat) {
    && Alike(c.record, d.record, unused)
    && match c
       case PausedAt(_, i) => d.PausedAt? && d.i == i
       case Finished(_, verdict) => d.Finished? && d.verdict == verdict
  }

  lemma {:induction false} LikeRuns(v: Record, u: Record, i: nat, provider: Provider, approved: set<ActionType>,
      simulateFailure: bool, actor: Actor, verdict: Option<Verdict>, unused: nat)
    requires Alike(v, u, unused) && i <= |v.tasks|
    ensures LikeCycles(RunTasks(v, i, provider, approved, simulateFailure, actor, verdict),
      RunTasks(u, i, provider, approved, simulateFailure, actor, verdict), unused)
    decreases |v.tasks| - i
  {
    hide SameItems, WorkOn, SetTaskStatus, MustWait, Upsert, ReviewOf;
    if i == |v.tasks| {
    } else if v.tasks[i].status == Done {
      LikeRuns(v, u, i + 1, provider, approved, simulateFailure, actor, verdict, unused);
    } else if MustWait(v.tasks[i], provider, approved) {
      LikeStatuses(v, u, i, Started, actor);
    } else {
      LikeWork(v, u, i, provider, simulateFailure, actor);
      var next := NextVerdict(v, i, simulateFailure, verdict);
      LikeRuns(WorkOn(v, i, provider, simulateFailure, actor), WorkOn(u, i, provider, simulateFailure, actor),
        i + 1, provider, approved, simulateFailure, actor, next, unused);
    }
  }

  ghost predicate LikeResults(r: Result<Record, Error>, s: Result<Record, Error>) {
    if r.Ok? then s.Ok? && Like(r.value, s.value) else s == r
  }

  lemma LikePauses(v: Record, u: Record, i: nat, actor: Actor, approvalId: nat)
    requires Alike(v, u, approvalId) && i < |v.tasks|
    ensures LikeResults(Pause(v, i, actor, approvalId), Pause(u, i, actor, approvalId))
  {
    hide SameItems, Upsert, TypesWith;
    var a, b := SetTaskStatus(v, i, Waiting, actor), SetTaskStatus(u, i, Waiting, actor);
    SameTypes(a.approvals, b.approvals);
    var request := Approval(approvalId, ExternalApiSend, Undecided, "system", "");
    SameItemsAppend(a.approvals, b.approvals, ApprovalKey, request);
    var requested := ExternalApiSend in TypesWith(a.approvals, Undecided);
    var x := if requested then a else RequestApproval(a, approvalId);
    var y := if requested then b else RequestApproval(b, approvalId);
    LikeCheckpoints(x, y, Checkpoint(ApprovalOf(v.id), false, "human", ANALYSIS_REQUEST));
  }

  lemma LikeFinishes(v: Record, u: Record, verdict: Option<Verdict>, actor: Actor)
    requires Like(v, u)
    ensures LikeResults(Finish(v, verdict, actor), Finish(u, verdict, actor))
  {
    hide SameItems, Upsert;
    LikeCheckpoints(v, u, Checkpoint(DeliveryOf(v.id), true, "system", DELIVERY_NOTE));
  }

  lemma LikeExecutions(v: Record, u: Record, launch: Launch, approved: set<ActionType>, simulateFailure: bool,
                       actor: Actor, approvalId: nat)
    requires Alike(v, u, approvalId)
    ensures LikeOutcomes(Execute(v, launch, approved, simulateFailure, actor, approvalId),
      Execute(u, launch, approved, simulateFailure, actor, approvalId))
  {
    hide SameItems, RunTasks, Pause, Finish, ResolveProvider;
    if ResolveProvider(launch).Some? {
      var provider := ResolveProvider(launch).value;
      LikeRuns(v, u, 0, provider, approved, simulateFailure, actor, None, approvalId);
      var c := RunTasks(v, 0, provider, approved, simulateFailure, actor, None);
      var d := RunTasks(u, 0, provider, approved, simulateFailure, actor, None);
      match c
      case PausedAt(w, i) => LikePauses(w, d.record, i, actor, approvalId);
      case Finished(w, verdict) => LikeFinishes(w, d.record, verdict, actor);
    }
  }

  lemma LikeExecutionsWith(v: Record, u: Record, launch: Launch, inputs: seq<ActionInput>, actor: Actor,
                           approvalId: nat)
    requires Alike(v, u, approvalId)
    ensures LikeOutcomes(ExecuteWith(v, launch, inputs, false, actor, approvalId),
      ExecuteWith(u, launch, inputs, false, actor, approvalId))
  {
    hide SameItems, Execute, ParseActions;
    if ParseActions(inputs).Ok? {
      LikeExecutions(v, u, launch, ParseActions(inputs).value, false, actor, approvalId);
    }
  }

  /******* Decisions *******/

  predicate OneUndecided(approvals: seq<Approval>) {
    forall i, j ::
      (0 <= i < |approvals| && 0 <= j < |approvals| && approvals[i].status == Undecided
        && approvals[j].status == Undecided)
      ==> i == j
  }

  lemma OneUndecidedAlike(xs: seq<Approval>, ys: seq<Approval>)
    requires SameItems(xs, ys, ApprovalKey) && OneUndecided(xs)
    ensures OneUndecided(ys)
  {
    forall i, j | 0 <= i < |ys| && 0 <= j < |ys| && ys[i].status == Undecided && ys[j].status == Undecided
      ensures i == j
    {
      assert ys[i] in xs && ys[j] in xs;
      var k :| 0 <= k < |xs| && xs[k] == ys[i];
      var l :| 0 <= l < |xs| && xs[l] == ys[j];
      assert k == l;
    }
  }

  lemma {:induction false} ApproveNone(v: Record, i: nat, actions: set<ActionType>, actor: Actor, note: string)
    requires i <= |v.approvals|
    requires forall k | i <= k < |v.approvals| ::
      v.approvals[k].status != Undecided || v.approvals[k].action !in actions
    ensures ApproveFrom(v, i, actions, actor, note) == v
    decreases |v.approvals| - i
  {
    if i < |v.approvals| {
      ApproveNone(v, i + 1, actions, actor, note);
    }
  }

  /** With one undecided approval, the loop decides just that one. */
  lemma {:induction false} ApproveOne(v: Record, i: nat, k: nat, actions: set<ActionType>, actor: Actor, note: string)
    requires i <= k < |v.approvals| && OneUndecided(v.approvals)
    requires v.approvals[k].status == Undecided && v.approvals[k].action in actions
    ensures ApproveFrom(v, i, actions, actor, note) ==
      Decide(UpdateApprovalCheckpoint(v, true, actor.id, if note != "" then note else DEFAULT_APPROVAL_NOTE),
        k, ApprovedAs(v.approvals[k], actor, note), ApprovalApproved(v.approvals[k].action), actor)
    decreases |v.approvals| - i
  {
    if i < k {
      ApproveOne(v, i + 1, k, actions, actor, note);
    } else {
      var text := if note != "" then note else DEFAULT_APPROVAL_NOTE;
      var decided := Decide(UpdateApprovalCheckpoint(v, true, actor.id, text), k,
        ApprovedAs(v.approvals[k], actor, note),
        ApprovalApproved(v.approvals[k].action), actor);
      ApproveNone(decided, k + 1, actions, actor, note);
    }
  }

  lemma {:induction false} RejectNone(v: Record, i: nat, named: set<ActionType>, actor: Actor, reason: string,
                                      note: string)
    requires i <= |v.approvals| && forall k :: i <= k < |v.approvals| ==> v.approvals[k].status != Undecided
    ensures RejectFrom(v, i, named, actor, reason, note) == v
    decreases |v.approvals| - i
  {
    if i < |v.approvals| {
      RejectNone(v, i + 1, named, actor, reason, note);
    }
  }

  lemma {:induction false} RejectOne(v: Record, i: nat, k: nat, named: set<ActionType>, actor: Actor, reason: string,
                                     note: string)
    requires i <= k < |v.approvals| && OneUndecided(v.approvals) && v.approvals[k].status == Undecided
    ensures RejectFrom(v, i, named, actor, reason, note) ==
      UpdateApprovalCheckpoint(Decide(v, k, RejectedAs(v.approvals[k], actor, reason, note),
        ApprovalRejected(v.approvals[k].action, v.approvals[k].action !in named), actor), false, actor.id,
          Compose(reason, note))
    decreases |v.approvals| - i
  {
    if i < k {
      RejectOne(v, i + 1, k, named, actor, reason, note);
    } else {
      var decided := Decide(v, k, RejectedAs(v.approvals[k], actor, reason, note),
        ApprovalRejected(v.approvals[k].action, v.approvals[k].action !in named), actor);
      RejectNone(UpdateApprovalCheckpoint(decided, false, actor.id, Compose(reason, note)), k + 1, named, actor, reason,
        note);
    }
  }

  lemma LikeDecisions(v: Record, u: Record, i: nat, j: nat, after: Approval, kind: EventKind, actor: Actor)
    requires Like(v, u) && i < |v.approvals| && j < |u.approvals| && v.approvals[i] == u.approvals[j]
    requires after.id == v.approvals[i].id
    ensures Like(Decide(v, i, after, kind, actor), Decide(u, j, after, kind, actor))
  {
    SameItemsSet(v.approvals, u.approvals, ApprovalKey, i, j, after);
  }

  lemma LikeApprovals(v: Record, u: Record, actions: set<ActionType>, actor: Actor, note: string)
    requires Like(v, u) && OneUndecided(v.approvals)
    ensures Like(ApproveFrom(v, 0, actions, actor, note), ApproveFrom(u, 0, actions, actor, note))
  {
    hide UpdateApprovalCheckpoint, ApproveFrom;
    OneUndecidedAlike(v.approvals, u.approvals);
    if i :| 0 <= i < |v.approvals| && v.approvals[i].status == Undecided && v.approvals[i].action in actions {
      assert v.approvals[i] in u.approvals;
      var j :| 0 <= j < |u.approvals| && u.approvals[j] == v.approvals[i];
      ApproveOne(v, 0, i, actions, actor, note);
      ApproveOne(u, 0, j, actions, actor, note);
      var text := if note != "" then note else DEFAULT_APPROVAL_NOTE;
      LikeUpdate(v, u, true, actor.id, text);
      UpdateEffect(v, true, actor.id, text);
      UpdateEffect(u, true, actor.id, text);
      LikeDecisions(UpdateApprovalCheckpoint(v, true, actor.id, text),
        UpdateApprovalCheckpoint(u, true, actor.id, text), i, j,
        ApprovedAs(v.approvals[i], actor, note), ApprovalApproved(v.approvals[i].action), actor);
    } else {
      forall j | 0 <= j < |u.approvals|
        ensures u.approvals[j].status != Undecided || u.approvals[j].action !in actions
      {
        assert u.approvals[j] in v.approvals;
      }
      ApproveNone(v, 0, actions, actor, note);
      ApproveNone(u, 0, actions, actor, note);
    }
  }

  lemma LikeRejections(v: Record, u: Record, named: set<ActionType>, actor: Actor, reason: string, note: string)
    requires Like(v, u) && OneUndecided(v.approvals)
    ensures Like(RejectFrom(v, 0, named, actor, reason, note), RejectFrom(u, 0, named, actor, reason, note))
  {
    hide UpdateApprovalCheckpoint, RejectFrom, Compose;
    OneUndecidedAlike(v.approvals, u.approvals);
    if i :| 0 <= i < |v.approvals| && v.approvals[i].status == Undecided {
      assert v.approvals[i] in u.approvals;
      var j :| 0 <= j < |u.approvals| && u.approvals[j] == v.approvals[i];
      RejectOne(v, 0, i, named, actor, reason, note);
      RejectOne(u, 0, j, named, actor, reason, note);
      var after := RejectedAs(v.approvals[i], actor, reason, note);
      var kind := ApprovalRejected(v.approvals[i].action, v.approvals[i].action !in named);
      LikeDecisions(v, u, i, j, after, kind, actor);
      LikeUpdate(Decide(v, i, after, kind, actor), Decide(u, j, after, kind, actor), false, actor.id,
        Compose(reason, note));
    } else {
      forall j | 0 <= j < |u.approvals|
        ensures u.approvals[j].status != Undecided
      {
        assert u.approvals[j] in v.approvals;
      }
      RejectNone(v, 0, named, actor, reason, note);
      RejectNone(u, 0, named, actor, reason, note);
    }
  }

  /******* Operations *******/

  lemma ApprovedUnused(v: Record, actions: set<ActionType>, actor: Actor, note: string, unused: nat)
    requires Unused(v.approvals, unused)
    ensures Unused(ApproveFrom(v, 0, actions, actor, note).approvals, unused)
  {
    hide ApproveFrom;
    ApproveFromEffect(v, 0, actions, actor, note);
  }

  lemma LikeReleases(v: Record, u: Record, actor: Actor, unused: nat)
    requires Alike(v, u, unused)
    ensures var r := Transition(Released(v, actor), InProgress, actor);
      var s := Transition(Released(u, actor), InProgress, actor);
      LikeResults(r, s) && (r.Ok? ==> Unused(r.value.approvals, unused))
  {
    hide SameItems, MoveTasks;
    LikeMoves(v, u, 0, WaitingTasks, Pending, "", actor);
    MoveTasksEffect(v, 0, WaitingTasks, Pending, "", actor);
  }

  lemma LikeResumptions(v: Record, u: Record, requested: set<ActionType>, actor: Actor, note: string, launch: Launch,
                        overrides: RuntimeOverride, approvalId: nat)
    requires Alike(v, u, approvalId) && OneUndecided(v.approvals)
    ensures LikeOutcomes(ResumeWaiting(v, requested, actor, note, launch, overrides, approvalId),
      ResumeWaiting(u, requested, actor, note, launch, overrides, approvalId))
  {
    hide SameItems, AuthorizeAll, ApproveFrom, Released, Transition, Execute, ActionsInOrder, TypesWith, StopsAt;
    hide OneUndecided;
    SameTypes(v.approvals, u.approvals);
    var toApprove := requested - TypesWith(v.approvals, Approved);
    var actions := ActionsInOrder(toApprove);
    LikeAuthorizations(v, u, actor, actions, overrides);
    AuthorizeAllEffect(v, actor, actions, overrides);
    var a := AuthorizeAll(v, actor, actions, overrides).record;
    var b := AuthorizeAll(u, actor, actions, overrides).record;
    LikeApprovals(a, b, toApprove, actor, note);
    ApprovedUnused(a, toApprove, actor, note, approvalId);
    var x, y := ApproveFrom(a, 0, toApprove, actor, note), ApproveFrom(b, 0, toApprove, actor, note);
    LikeReleases(x, y, actor, approvalId);
    var r, s := Transition(Released(x, actor), InProgress, actor), Transition(Released(y, actor), InProgress, actor);
    if r.Ok? {
      LikeExecutions(r.value, s.value, launch, TypesWith(v.approvals, Approved) + toApprove, false, actor, approvalId);
    }
  }

  lemma LikeRequests(v: Record, u: Record)
    requires Like(v, u)
    ensures HasUndecided(v.approvals) <==> HasUndecided(u.approvals)
    ensures forall requested ::
      && ValidateRequest(requested, v.approvals) == ValidateRequest(requested, u.approvals)
      && LikeOutcomes(ResumeCompleted(v, requested), ResumeCompleted(u, requested))
  {
  }

  lemma LikeApprovalCalls(v: Record, u: Record, inputs: seq<ActionInput>, caller: ActorArgument, note: string,
                          launch: Launch, overrides: RuntimeOverride, approvalId: nat)
    requires Alike(v, u, approvalId) && OneUndecided(v.approvals)
    ensures LikeOutcomes(ResumeFromApproval(v, inputs, caller, note, launch, overrides, approvalId),
      ResumeFromApproval(u, inputs, caller, note, launch, overrides, approvalId))
  {
    hide SameItems, ResumeWaiting, ResumeCompleted, ParseActions, ValidateRequest, HasUndecided, OneUndecided, Unused;
    hide Text.Strip;
    LikeRequests(v, u);
    if ParseActions(inputs).Ok? {
      LikeResumptions(v, u, ParseActions(inputs).value, CoerceActor(caller, Approver), Text.Strip(note), launch,
        overrides, approvalId);
    }
  }

  lemma LikeRefusals(v: Record, u: Record, named: set<ActionType>, actor: Actor, reason: string, note: string,
                     overrides: RuntimeOverride)
    requires Like(v, u) && OneUndecided(v.approvals)
    ensures LikeOutcomes(RejectWaiting(v, named, actor, reason, note, overrides),
      RejectWaiting(u, named, actor, reason, note, overrides))
  {
    hide SameItems, AuthorizeAll, RejectFrom, MoveTasks, ActionsInOrder, TypesWith, StopsAt, OneUndecided;
    SameTypes(v.approvals, u.approvals);
    var undecided := TypesWith(v.approvals, Undecided);
    var wanted := if named == {} then undecided else named;
    LikeAuthorizations(v, u, actor, ActionsInOrder(undecided), overrides);
    AuthorizeAllEffect(v, actor, ActionsInOrder(undecided), overrides);
    var a := AuthorizeAll(v, actor, ActionsInOrder(undecided), overrides).record;
    var b := AuthorizeAll(u, actor, ActionsInOrder(undecided), overrides).record;
    LikeRejections(a, b, wanted, actor, reason, note);
    LikeMoves(RejectFrom(a, 0, wanted, actor, reason, note), RejectFrom(b, 0, wanted, actor, reason, note),
      0, WaitingTasks, NeedsRevision, reason, actor);
  }

  lemma LikeRejectionCalls(v: Record, u: Record, inputs: seq<ActionInput>, caller: ActorArgument, reason: string,
                           note: string, overrides: RuntimeOverride)
    requires Like(v, u) && OneUndecided(v.approvals)
    ensures LikeOutcomes(RejectApproval(v, inputs, caller, reason, note, overrides),
      RejectApproval(u, inputs, caller, reason, note, overrides))
  {
    hide SameItems, RejectWaiting, ParseActions, TypesWith, KnownTypes, HasUndecided, OneUndecided, Text.Strip;
    SameTypes(v.approvals, u.approvals);
    if ParseActions(inputs).Ok? {
      LikeRefusals(v, u, ParseActions(inputs).value, CoerceActor(caller, Approver), Text.Strip(reason),
        Text.Strip(note), overrides);
    }
  }

  lemma LikeRevisions(v: Record, u: Record, mode: RevisionMode, actor: Actor, reason: string, launch: Launch,
                      inputs: seq<ActionInput>, approvalId: nat)
    requires Alike(v, u, approvalId)
    ensures LikeOutcomes(Revise(v, mode, actor, reason, launch, inputs, approvalId),
      Revise(u, mode, actor, reason, launch, inputs, approvalId))
  {
    hide SameItems, ExecuteWith, MoveTasks, ResetDepartments;
    var a := RecordEvent(v, ResumeTriggered(RevisionResume(mode)), actor);
    LikeMoves(a, RecordEvent(u, ResumeTriggered(RevisionResume(mode)), actor), 0, InDepartments(ResetDepartments(mode)),
      Pending, reason, actor);
    MoveTasksEffect(a, 0, InDepartments(ResetDepartments(mode)), Pending, reason, actor);
    var r := Transition(ReviseTasks(v, mode, actor, reason), InProgress, actor);
    if r.Ok? {
      LikeExecutionsWith(r.value, Transition(ReviseTasks(u, mode, actor, reason), InProgress, actor).value, launch,
        inputs, actor, approvalId);
    }
  }

  lemma LikeReplannings(v: Record, u: Record, actor: Actor, launch: Launch, inputs: seq<ActionInput>, reset: bool,
                        approvalId: nat)
    requires Alike(v, u, approvalId)
    ensures LikeOutcomes(Replan(v, actor, launch, inputs, reset, approvalId),
      Replan(u, actor, launch, inputs, reset, approvalId))
  {
    hide SameItems, ExecuteWith, MoveTasks, ResetDepartments;
    LikeMoves(v, u, 0, InDepartments(ResetDepartments(Replanning)), Pending, "", actor);
    MoveTasksEffect(v, 0, InDepartments(ResetDepartments(Replanning)), Pending, "", actor);
    var r := Transition(ReplanTasks(v, actor, reset), InProgress, actor);
    if r.Ok? {
      LikeExecutionsWith(r.value, Transition(ReplanTasks(u, actor, reset), InProgress, actor).value, launch, inputs,
        actor, approvalId);
    }
  }

  /** No operation of a run can tell the order of the lists: it does the same to both records, and answers the same. */
  lemma CallsAlike(v: Record, u: Record, c: Call, approvalId: nat)
    requires !c.StartProject? && Alike(v, u, approvalId) && OneUndecided(v.approvals)
    ensures LikeOutcomes(OutcomeOn(v, c, approvalId), OutcomeOn(u, c, approvalId))
  {
    hide SameItems, ResumeFromApproval, RejectApproval, Revise, Replan, OneUndecided;
    match c
    case ApprovalCall(_, inputs, caller, note, launch, overrides) =>
      LikeApprovalCalls(v, u, inputs, caller, note, launch, overrides, approvalId);
    case RejectionCall(_, inputs, caller, reason, note, overrides) =>
      LikeRejectionCalls(v, u, inputs, caller, reason, note, overrides);
    case RevisionCall(_, mode, caller, reason, launch, inputs) =>
      LikeRevisions(v, u, mode, CoerceActor(caller, Operator), Text.Strip(reason), launch, inputs, approvalId);
    case ReplanningCall(_, caller, launch, inputs, reset) =>
      LikeReplannings(v, u, CoerceActor(caller, Operator), launch, inputs, reset, approvalId);
    case _ =>
  }
}
