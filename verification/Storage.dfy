/** The database repository, and what storing the projects of a run in it does. */
module Storage {
  import opened Prelude
  import opened Domain
  import opened Identities
  import opened TaskOrder
  import opened Tables
  import TaskOrdering
  import opened AuditLog
  import opened Calls
  import opened Soundness
  import opened Coupling
  import opened Execution
  import opened Operations
  import opened Runs
  import opened Completion
  import Plans
  import Workflow

  /** Deletes the project's rows and inserts the items one by one; a second row with the same key fails. */
  method ReplaceRows<T(!new), K(==,!new)>(rows: Rows<K, T>, project: nat, items: seq<T>, key: T -> K)
      returns (ok: bool, after: Rows<K, T>)
    ensures ok <==> DistinctBy(items, key)
    ensures ok ==> Replaced(rows, after, project, items, key)
  {
    after := Without(rows, project);
    for i := 0 to |items|
      invariant DistinctBy(items[..i], key)
      invariant Replaced(rows, after, project, items[..i], key)
    {
      var q := (project, key(items[i]));
      if q in after {
        assert after[q] in items[..i];
        ghost var j :| 0 <= j < i && items[j] == after[q];
        assert key(items[j]) == key(items[i]);
        return false, rows;
      }
      assert forall j | 0 <= j < i :: key(items[j]) != key(items[i]) by {
        forall j | 0 <= j < i
          ensures key(items[j]) != key(items[i])
        {
          assert items[..i][j] in items[..i];
        }
      }
      assert items[..i + 1] == items[..i] + [items[i]];
      after := after[q := items[i]];
    }
    assert items[..|items|] == items;
    return true, after;
  }

  function InsertSorted<T(!new), K>(x: T, xs: seq<T>, key: T -> K, before: (K, K) -> bool): (r: seq<T>)
    ensures forall y :: y in r <==> y == x || y in xs
  {
    if xs == [] || before(key(x), key(xs[0])) then [x] + xs
    else
      assert xs == [xs[0]] + xs[1..];
      [xs[0]] + InsertSorted(x, xs[1..], key, before)
  }

  lemma {:induction false} InsertSortedSorts<T(!new), K(!new)>(x: T, xs: seq<T>, key: T -> K, before: (K, K) -> bool)
    requires StrictTotal(before) && SortedBy(xs, key, before)
    requires forall y :: y in xs ==> key(y) != key(x)
    ensures SortedBy(InsertSorted(x, xs, key, before), key, before)
  {
    if xs != [] && !before(key(x), key(xs[0])) {
      assert xs[0] in xs;
      assert forall y :: y in xs[1..] ==> y in xs;
      InsertSortedSorts(x, xs[1..], key, before);
      var rest := InsertSorted(x, xs[1..], key, before);
      forall j | 0 <= j < |rest|
        ensures before(key(xs[0]), key(rest[j]))
      {
        assert rest[j] in rest;
      }
    }
  }

  /** Fetches the rows of one project in the order of their ids, in whatever order the table yields them. */
  method FetchOrdered<T(!new), K(==,!new)>(rows: Rows<K, T>, project: nat, key: T -> K,
                                           before: (K, K) -> bool) returns (xs: seq<T>)
    requires KeyedBy(rows, key) && StrictTotal(before)
    ensures Selects(rows, project, key, before, xs)
  {
    xs := [];
    var all := set q | q in rows && q.0 == project;
    var remaining := all;
    while remaining != {}
      invariant remaining <= all
      invariant SortedBy(xs, key, before)
      invariant forall x :: x in xs <==> (project, key(x)) in all - remaining && rows[(project, key(x))] == x
      decreases remaining
    {
      var q :| q in remaining;
      assert q == (project, key(rows[q]));
      forall y | y in xs
        ensures key(y) != key(rows[q])
      {
        assert (project, key(y)) in all - remaining;
      }
      InsertSortedSorts(rows[q], xs, key, before);
      xs := InsertSorted(rows[q], xs, key, before);
      remaining := remaining - {q};
    }
  }

  class PostgresProjectRepository {
    var database: Database
    const collation: Collation

    constructor (collation: Collation)
      ensures this.collation == collation && database == Database(map[], map[], map[], map[], map[], map[], map[])
    {
      this.collation := collation;
      database := Database(map[], map[], map[], map[], map[], map[], map[]);
    }

    ghost predicate Valid()
      reads this
    {
      Consistent(database) && Total(collation)
    }

    /** One transaction: it stores the record, or fails and leaves the database as it was. */
    method Save(v: Record) returns (ok: bool)
      requires Valid()
      modifies this
      ensures Valid()
      ensures ok <==> Savable(v)
      ensures if ok then Stores(old(database), v, database) else database == old(database)
    {
      hide DistinctBy, Replaced;
      var tasksOk, tasks := ReplaceRows(database.tasks, v.id, v.tasks, TaskKey);
      var artifactsOk, artifacts := ReplaceRows(database.artifacts, v.id, v.artifacts, Workflow.ArtifactId);
      var reviewsOk, reviews := ReplaceRows(database.reviews, v.id, v.reviews, ReviewKey);
      var checkpointsOk, checkpoints := ReplaceRows(database.checkpoints, v.id, v.checkpoints, Workflow.CheckpointKey);
      var approvalsOk, approvals := ReplaceRows(database.approvals, v.id, v.approvals, ApprovalKey);
      if !(tasksOk && artifactsOk && reviewsOk && checkpointsOk && approvalsOk) {
        return false;
      }
      ReplacedKeyed(database.tasks, tasks, v.id, v.tasks, TaskKey);
      ReplacedKeyed(database.artifacts, artifacts, v.id, v.artifacts, Workflow.ArtifactId);
      ReplacedKeyed(database.reviews, reviews, v.id, v.reviews, ReviewKey);
      ReplacedKeyed(database.checkpoints, checkpoints, v.id, v.checkpoints, Workflow.CheckpointKey);
      ReplacedKeyed(database.approvals, approvals, v.id, v.approvals, ApprovalKey);
      database := Database(
        database.projects[v.id := ProjectRow(v.status, v.policy)],
        tasks, artifacts, reviews, checkpoints, approvals,
        database.histories[v.id := HistoryRow(v.history, v.events)]);
      return true;
    }

    method Get(id: nat) returns (found: Option<Record>)
      requires Valid()
      ensures found.None? <==> id !in database.projects
      ensures found.Some? ==> Loads(database, collation, id, found.value)
    {
      hide Selects, StrictTotal, Order, KeyedBy;
      if id !in database.projects {
        return None;
      }
      var rows := FetchOrdered(database.tasks, id, TaskKey, collation.texts);
      SelectionSorted(database, collation, id, rows);
      SortedTasksUnique(rows, collation.texts);
      var tasks := TaskOrdering.OrderTasksForExecution(rows);
      var artifacts := FetchOrdered(database.artifacts, id, Workflow.ArtifactId, collation.texts);
      var reviews := FetchOrdered(database.reviews, id, ReviewKey, collation.texts);
      var checkpoints := FetchOrdered(database.checkpoints, id, Workflow.CheckpointKey, collation.checkpoints);
      var approvals := FetchOrdered(database.approvals, id, ApprovalKey, collation.numbers);
      var row := database.projects[id];
      var log := if id in database.histories then database.histories[id] else HistoryRow([], []);
      var record := Record(id, row.policy, row.status, tasks, artifacts, reviews, checkpoints, approvals, log.history,
        log.events);
      assert LoadsWith(database, collation, id, rows, record);
      return Some(record);
    }

    lemma SelectionSorted(db: Database, c: Collation, id: nat, rows: seq<Task>)
      requires Selects(db.tasks, id, TaskKey, c.texts, rows)
      ensures SortedBy(rows, TaskKey, c.texts)
    {
    }
  }

  lemma ReplacedKeyed<T(!new), K(!new)>(rows: Rows<K, T>, after: Rows<K, T>, project: nat, items: seq<T>, key: T -> K)
    requires KeyedBy(rows, key) && Replaced(rows, after, project, items, key)
    ensures KeyedBy(after, key)
  {
  }

  /******* The projects of a run *******/

  lemma UniqueTasks(plan: seq<TaskShape>, v: Record)
    requires UniqueIds(plan) && Shape(v.tasks) == plan
    ensures DistinctBy(v.tasks, TaskKey)
  {
  }

  lemma PlanRespects(plan: seq<TaskShape>, v: Record)
    requires UniqueIds(plan) && InDependencyOrder(plan) && Shape(v.tasks) == plan
    ensures Respects(v.tasks)
  {
  }

  /** The database accepts a project of a run exactly when no review id occurs twice in it. */
  lemma RunsSavableExactly(plan: seq<TaskShape>, calls: seq<Call>, id: nat)
    requires OrderedPlan(plan) && Has(plan, calls, id)
    ensures Savable(Project(plan, calls, id)) <==> DistinctBy(Project(plan, calls, id).reviews, ReviewKey)
  {
    hide DistinctBy;
    AllRunsIdentified(plan, calls, id);
    PlanStays(plan, calls, id);
    UniqueTasks(plan, Project(plan, calls, id));
  }

  /** With the orchestrator's own plan, that is at most one review: a second review cannot be saved. */
  lemma OwnPlanSavableExactly(calls: seq<Call>, id: nat)
    requires Has(Plans.BuildPlan(), calls, id)
    ensures Savable(Project(Plans.BuildPlan(), calls, id)) <==> |Project(Plans.BuildPlan(), calls, id).reviews| <= 1
  {
    var plan := Plans.BuildPlan();
    Plans.BuildPlanIsGood();
    RunsSavableExactly(plan, calls, id);
    AllRunsIdentified(plan, calls, id);
    PlanStays(plan, calls, id);
    var v := Project(plan, calls, id);
    OwnReviewsShareId(v);
    if |v.reviews| > 1 {
      assert ReviewKey(v.reviews[0]) == ReviewKey(v.reviews[1]);
    }
  }

  lemma OwnReviewsShareId(v: Record)
    requires Shape(v.tasks) == Plans.BuildPlan() && ReviewsOfPlan(v.reviews, v.tasks)
    ensures forall k :: 0 <= k < |v.reviews| ==> v.reviews[k].id == "review-" + "task-review"
  {
  }

  /** Two calls after which the database refuses the project: a failed review, then a new one. */
  function ReworkCalls(policy: ProjectPolicy): seq<Call> {
    [StartProject(policy, MOCK_LAUNCH, [], true), RevisionCall(0, Rereview, Nobody, "", MOCK_LAUNCH, [])]
  }

  lemma FailedReview(policy: ProjectPolicy)
    ensures var plan := Plans.BuildPlan(); var calls := ReworkCalls(policy)[..1];
      && Has(plan, calls, 0) && Project(plan, calls, 0).status == RevisionRequested
        && LastRefused(Project(plan, calls, 0).reviews)
  {
    hide Plans.BuildPlan, Workflow.Execute, Workflow.ParseActions, Workflow.ResolveProvider, GoodPlan;
    hide Workflow.Launched, MayExecute;
    var plan := Plans.BuildPlan();
    Plans.BuildPlanIsGood();
    GoodPlanOrdered(plan);
    MockResolves(true);
    NothingParsed();
    var c := ReworkCalls(policy)[0];
    assert ReworkCalls(policy)[..1] == [] + [c];
    StepEffect(plan, [], c);
    LaunchedMayExecute(0, policy, plan, {}, true);
    var w := Workflow.Launched(Workflow.Drafted(0, policy, plan)).value;
    ExecuteKeeps(w, MOCK_LAUNCH, {}, true, SYSTEM_ACTOR, 1);
    var o := Workflow.Execute(w, MOCK_LAUNCH, {}, true, SYSTEM_ACTOR, 1);
    assert OutcomeOf(plan, EMPTY, c) == o;
    assert After(plan, []) == EMPTY;
    assert !HasRejected(o.saved.value.approvals);
  }

  lemma AnotherReview(v: Record, w: Record)
    requires Evolves(v, w) && LastRefused(v.reviews) && LastAccepted(w.reviews)
    ensures |w.reviews| > 1
  {
  }

  lemma ReworkIsRefused(policy: ProjectPolicy)
    ensures Has(Plans.BuildPlan(), ReworkCalls(policy), 0)
    ensures !Savable(Project(Plans.BuildPlan(), ReworkCalls(policy), 0))
  {
    hide Plans.BuildPlan, Workflow.ResumeFromRevision, Workflow.ParseActions, Workflow.ResolveProvider, GoodPlan;
    hide Savable, RecordOk, Stored;
    hide After, Evolves, LastRefused, LastAccepted, HasDelivery, HasApproved, ExactlyOneUndecided, SomeTaskWaits;
    hide AllDone;
    var plan := Plans.BuildPlan();
    Plans.BuildPlanIsGood();
    GoodPlanOrdered(plan);
    MockResolves(true);
    NothingParsed();
    FailedReview(policy);
    var calls := ReworkCalls(policy)[..1];
    var c := ReworkCalls(policy)[1];
    assert calls + [c] == ReworkCalls(policy);
    ProjectOk(plan, calls, 0);
    var v := Project(plan, calls, 0);
    StoredFromOk(plan, 0, v);
    ResumeFromRevisionKeeps(v, Rereview, Nobody, "", MOCK_LAUNCH, [], After(plan, calls).next + 1);
    CallTakesEffect(plan, calls, c);
    StatusTasksAndApprovalsAgree(plan, calls + [c], 0);
    StepEffect(plan, calls, c);
    AnotherReview(v, Project(plan, calls + [c], 0));
    OwnPlanSavableExactly(ReworkCalls(policy), 0);
  }

  /** A project of a run that the database accepts comes back executable: complete, and in dependency order. */
  lemma RunsReload(plan: seq<TaskShape>, calls: seq<Call>, id: nat, db: Database, after: Database, c: Collation,
                   w: Record)
    requires OrderedPlan(plan) && Has(plan, calls, id) && Savable(Project(plan, calls, id)) && Total(c)
    requires Stores(db, Project(plan, calls, id), after) && Loads(after, c, id, w)
    ensures Reloaded(Project(plan, calls, id), w, c) && Respects(w.tasks)
    ensures forall status ::
      Workflow.TypesWith(w.approvals, status) == Workflow.TypesWith(Project(plan, calls, id).approvals, status)
  {
    hide Loads, Savable, Stores, Order, StrictTotal;
    PlanStays(plan, calls, id);
    var v := Project(plan, calls, id);
    PlanRespects(plan, v);
    SaveThenLoad(db, v, after, c, w);
  }
}
