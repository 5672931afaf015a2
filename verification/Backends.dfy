/** Runs on the database repository: as long as it accepts every save, it does what the in-memory one does. */
module Backends {
  import opened Prelude
  import opened Domain
  import opened Calls
  import opened Soundness
  import opened Coupling
  import opened Runs
  import opened Identities
  import opened TaskOrder
  import opened Tables
  import opened Likeness
  import opened Storage
  import AuditLog
  import Plans
  import Workflow

  /** Lists of tasks of the plan come back from the database in the order of the plan. */
  ghost predicate KeepsOrder(plan: seq<TaskShape>, c: Collation) {
    forall tasks, rows :: Shape(tasks) == plan && ById(tasks, rows, TaskKey, c.texts) ==> Order(rows) == tasks
  }

  const NO_ROWS := Database(map[], map[], map[], map[], map[], map[], map[])

  /** What a call makes of the records that the database loads; `next` is the supply of identifiers. */
  ghost predicate Computes(plan: seq<TaskShape>, c: Collation, db: Database, next: nat, call: Call,
                           o: Workflow.Outcome) {
    if call.StartProject? then
      o == Workflow.Run(next, call.policy, plan, call.launch, call.inputs, call.simulateFailure, next + 1)
    else if call.id in db.projects then
      exists u :: Loads(db, c, call.id, u) && o == OutcomeOn(u, call, next + 1)
    else o == if call.SuccessCall? || call.FailureCall? then Workflow.Outcome(None, Workflow.Silent)
      else Workflow.Raise(ProjectNotFound)
  }

  /** The database accepts what the call saves, if anything. */
  ghost predicate Accepts(db: Database, o: Workflow.Outcome, after: Database) {
    match o.saved
    case None => after == db
    case Some(v) => Savable(v) && Stores(db, v, after)
  }

  /** The databases of a run in which every save was accepted. */
  ghost predicate DatabaseRun(plan: seq<TaskShape>, c: Collation, calls: seq<Call>, dbs: seq<Database>) {
    && |dbs| == |calls| + 1 && dbs[0] == NO_ROWS
    && forall i :: 0 <= i < |calls| ==> DatabaseStep(plan, c, dbs[i], 2 * i, calls[i], dbs[i + 1])
  }

  ghost predicate DatabaseStep(plan: seq<TaskShape>, c: Collation, db: Database, next: nat, call: Call,
                               after: Database) {
    exists o :: Computes(plan, c, db, next, call, o) && Accepts(db, o, after)
  }

  /** The database holds the projects of the store, up to the order of their lists. */
  ghost predicate Mirrors(store: map<nat, Record>, db: Database, c: Collation) {
    && (forall id :: id in store <==> id in db.projects)
    && forall id, u :: id in store && Loads(db, c, id, u) ==> Like(store[id], u)
  }

  /******* Reloading *******/

  lemma {:induction false} DistinctOnce<T(!new), K(!new)>(xs: seq<T>, key: T -> K, x: T)
    requires DistinctBy(xs, key)
    ensures multiset(xs)[x] == if x in xs then 1 else 0
  {
    if xs != [] {
      var n := |xs| - 1;
      assert xs == xs[..n] + [xs[n]];
      DistinctOnce(xs[..n], key, x);
      assert forall k | 0 <= k < n :: key(xs[..n][k]) != key(xs[n]);
      assert x in xs <==> x in xs[..n] || x == xs[n];
    }
  }

  lemma SameItemsCount<T(!new), K(!new)>(xs: seq<T>, ys: seq<T>, key: T -> K)
    requires SameItems(xs, ys, key)
    ensures multiset(xs) == multiset(ys)
  {
    forall x
      ensures multiset(xs)[x] == multiset(ys)[x]
    {
      DistinctOnce(xs, key, x);
      DistinctOnce(ys, key, x);
    }
  }

  lemma DistinctTransfers<T(!new), K(!new)>(xs: seq<T>, ys: seq<T>, key: T -> K)
    requires multiset(xs) == multiset(ys) && DistinctBy(xs, key)
    ensures DistinctBy(ys, key)
  {
    forall i, j | 0 <= i < j < |ys|
      ensures key(ys[i]) != key(ys[j])
    {
      assert ys[i] in multiset(xs) && ys[j] in multiset(xs);
      DistinctOnce(xs, key, ys[i]);
      assert ys == ys[..j] + ys[j..];
      assert ys[i] in ys[..j] && ys[j] in ys[j..];
    }
  }

  lemma SortedDistinct<T(!new), K(!new)>(xs: seq<T>, ys: seq<T>, key: T -> K, before: (K, K) -> bool)
    requires StrictTotal(before) && ById(xs, ys, key, before) && DistinctBy(xs, key)
    ensures SameItems(xs, ys, key)
  {
  }

  /** Whoever is like a record is like what the database makes of it. */
  lemma LikeReloaded(v: Record, u: Record, c: Collation, w: Record)
    requires Total(c) && Like(v, u) && Savable(u) && Reloaded(u, w, c) && w.tasks == u.tasks
    ensures Like(v, w)
  {
    hide StrictTotal, DistinctBy, ById;
    SortedDistinct(u.artifacts, w.artifacts, Workflow.ArtifactId, c.texts);
    SortedDistinct(u.reviews, w.reviews, ReviewKey, c.texts);
    SortedDistinct(u.checkpoints, w.checkpoints, Workflow.CheckpointKey, c.checkpoints);
    SortedDistinct(u.approvals, w.approvals, ApprovalKey, c.numbers);
    SameItemsCount(u.reviews, w.reviews, ReviewKey);
  }

  lemma TasksComeBack(plan: seq<TaskShape>, db: Database, v: Record, after: Database, c: Collation, w: Record)
    requires Total(c) && KeepsOrder(plan, c) && Shape(v.tasks) == plan
    requires Savable(v) && Stores(db, v, after) && Loads(after, c, v.id, w)
    ensures w.tasks == v.tasks
  {
    hide Order, Selects, StrictTotal, Replaced, ById, DistinctBy;
    var rows :| LoadsWith(after, c, v.id, rows, w);
    ReplacedThenSelected(db.tasks, after.tasks, v.id, v.tasks, TaskKey, c.texts, rows);
  }

  /** Records that are alike are accepted alike. */
  lemma SavableAlike(v: Record, u: Record)
    requires Like(v, u)
    ensures Savable(v) <==> Savable(u)
  {
    if DistinctBy(v.reviews, ReviewKey) {
      DistinctTransfers(v.reviews, u.reviews, ReviewKey);
    }
    if DistinctBy(u.reviews, ReviewKey) {
      DistinctTransfers(u.reviews, v.reviews, ReviewKey);
    }
  }

  /******* One call *******/

  /** In a run at most one approval of a project is undecided, and the identifiers drawn next are unused. */
  lemma RunsDecideOne(plan: seq<TaskShape>, calls: seq<Call>, id: nat)
    requires GoodPlan(plan) && Has(plan, calls, id)
    ensures OneUndecided(Project(plan, calls, id).approvals)
    ensures Unused(Project(plan, calls, id).approvals, After(plan, calls).next + 1)
  {
    hide GoodPlan, OrderedPlan, Stored, DistinctBy, ReviewsOfPlan, OneUndecided, After;
    GoodPlanOrdered(plan);
    AllRunsIdentified(plan, calls, id);
    ProjectOk(plan, calls, id);
    StoredDecideOne(Project(plan, calls, id));
  }

  lemma StoredDecideOne(v: Record)
    requires Stored(v)
    ensures OneUndecided(v.approvals)
  {
  }

  /** The call does to the loaded record what it does to the record in memory, and answers alike. */
  lemma ComputesAlike(plan: seq<TaskShape>, calls: seq<Call>, db: Database, c: Collation, call: Call,
                      o: Workflow.Outcome)
    requires GoodPlan(plan) && Mirrors(After(plan, calls).store, db, c)
    requires Computes(plan, c, db, After(plan, calls).next, call, o)
    ensures LikeOutcomes(OutcomeOf(plan, After(plan, calls), call), o)
  {
    hide GoodPlan, Like, Loads, OutcomeOn, Workflow.Run, OneUndecided, Unused;
    var w := After(plan, calls);
    if call.StartProject? {
      StartCallIdentified(w.next, call.policy, plan, call.launch, call.inputs, call.simulateFailure, w.next + 1);
      StartsAlike(o, w.next + 2);
      StartAnswers(w.next, call.policy, plan, call.launch, call.inputs, call.simulateFailure, w.next + 1);
    } else if call.id in db.projects {
      var u :| Loads(db, c, call.id, u) && o == OutcomeOn(u, call, w.next + 1);
      RunsDecideOne(plan, calls, call.id);
      CallsAlike(w.store[call.id], u, call, w.next + 1);
    }
  }

  lemma StartsAlike(o: Workflow.Outcome, bound: nat)
    requires SavesIdentified(o, bound)
    ensures o.saved.Some? ==> Like(o.saved.value, o.saved.value)
  {
  }

  lemma StartAnswers(id: nat, policy: ProjectPolicy, plan: seq<TaskShape>, launch: Workflow.Launch,
                     inputs: seq<ActionInput>, simulateFailure: bool, approvalId: nat)
    ensures var o := Workflow.Run(id, policy, plan, launch, inputs, simulateFailure, approvalId);
      o.answer.Raised? || (o.saved.Some? && o.answer == Workflow.Summary(o.saved.value))
  {
    hide Workflow.RunTasks, Workflow.Conclude, Workflow.ResolveProvider, Workflow.ParseActions, Workflow.PlanTasks;
  }

  /** An accepted call takes the database where the call takes the memory. */
  lemma AcceptedAlike(plan: seq<TaskShape>, calls: seq<Call>, db: Database, c: Collation, call: Call,
                      o: Workflow.Outcome, after: Database)
    requires GoodPlan(plan) && Total(c) && KeepsOrder(plan, c) && Mirrors(After(plan, calls).store, db, c)
    requires Computes(plan, c, db, After(plan, calls).next, call, o) && Accepts(db, o, after)
    ensures Mirrors(After(plan, calls + [call]).store, after, c)
  {
    hide GoodPlan, OrderedPlan, Total, KeepsOrder, Like, Loads, Savable, Computes, Reloaded, OutcomeOf;
    hide AuditLog.Evolves;
    GoodPlanOrdered(plan);
    StepEffect(plan, calls, call);
    ComputesAlike(plan, calls, db, c, call, o);
    if o.saved.Some? {
      var id, w := Target(After(plan, calls), call), After(plan, calls + [call]);
      PlanStays(plan, calls + [call], id);
      SavedAlike(w.store[id], o.saved.value);
      forall other, u | other in w.store && Loads(after, c, other, u)
        ensures Like(w.store[other], u)
      {
        if other == id {
          SaveThenLoad(db, o.saved.value, after, c, u);
          TasksComeBack(plan, db, o.saved.value, after, c, u);
          LikeReloaded(w.store[id], o.saved.value, c, u);
        } else {
          OtherProjectsUntouched(db, o.saved.value, after, c, other, u);
        }
      }
    }
  }

  lemma SavedAlike(v: Record, u: Record)
    requires Like(v, u)
    ensures u.id == v.id && u.tasks == v.tasks
  {
  }

  /******* Runs *******/

  lemma {:induction false} TwoIdsPerCall(plan: seq<TaskShape>, calls: seq<Call>)
    ensures After(plan, calls).next == 2 * |calls|
  {
    hide OutcomeOf;
    if calls != [] {
      TwoIdsPerCall(plan, calls[..|calls| - 1]);
    }
  }

  /** As long as the database accepts every save, it holds what the in-memory repository holds, up to the
      order of lists. */
  lemma {:induction false} DatabaseRunMirrors(plan: seq<TaskShape>, c: Collation, calls: seq<Call>, dbs: seq<Database>)
    requires GoodPlan(plan) && Total(c) && KeepsOrder(plan, c) && DatabaseRun(plan, c, calls, dbs)
    ensures Mirrors(After(plan, calls).store, dbs[|calls|], c)
  {
    hide GoodPlan, Total, KeepsOrder, Computes, Accepts, Loads;
    if calls != [] {
      var n := |calls| - 1;
      assert calls[..n] + [calls[n]] == calls;
      DatabaseRunMirrors(plan, c, calls[..n], dbs[..n + 1]);
      TwoIdsPerCall(plan, calls[..n]);
      assert DatabaseStep(plan, c, dbs[n], 2 * n, calls[n], dbs[n + 1]);
      var o :| Computes(plan, c, dbs[n], 2 * n, calls[n], o) && Accepts(dbs[n], o, dbs[n + 1]);
      AcceptedAlike(plan, calls[..n], dbs[n], c, calls[n], o, dbs[n + 1]);
    }
  }

  /** The next call on such a database answers as it does in memory, and is refused exactly when the record
      that it saves in memory is one that the database cannot hold. */
  lemma DatabaseAnswersAlike(plan: seq<TaskShape>, c: Collation, calls: seq<Call>, dbs: seq<Database>, call: Call,
                             o: Workflow.Outcome)
    requires GoodPlan(plan) && Total(c) && KeepsOrder(plan, c) && DatabaseRun(plan, c, calls, dbs)
    requires Computes(plan, c, dbs[|calls|], 2 * |calls|, call, o)
    ensures var inMemory := OutcomeOf(plan, After(plan, calls), call);
      && LikeAnswers(inMemory.answer, o.answer)
      && (o.saved.Some? <==> inMemory.saved.Some?)
      && (o.saved.Some? ==> (Savable(o.saved.value) <==> Savable(inMemory.saved.value)))
  {
    hide GoodPlan, Total, KeepsOrder, Computes, DatabaseStep, Mirrors, Like, Savable, OutcomeOf;
    DatabaseRunMirrors(plan, c, calls, dbs);
    TwoIdsPerCall(plan, calls);
    ComputesAlike(plan, calls, dbs[|calls|], c, call, o);
    if o.saved.Some? {
      SavableAlike(OutcomeOf(plan, After(plan, calls), call).saved.value, o.saved.value);
    }
  }

  /** One call on the database repository: load, compute, and save what there is to save. */
  method CallOnDatabase(repository: PostgresProjectRepository, plan: seq<TaskShape>, next: nat, call: Call)
      returns (o: Workflow.Outcome, accepted: bool)
    requires repository.Valid()
    modifies repository
    ensures repository.Valid()
    ensures Computes(plan, repository.collation, old(repository.database), next, call, o)
    ensures accepted <==> o.saved.None? || Savable(o.saved.value)
    ensures if accepted then Accepts(old(repository.database), o, repository.database)
            else repository.database == old(repository.database)
  {
    hide OutcomeOn, Workflow.Run, Savable, Stores, Loads, Consistent, Total;
    if call.StartProject? {
      o := Workflow.Run(next, call.policy, plan, call.launch, call.inputs, call.simulateFailure, next + 1);
    } else {
      var found := repository.Get(call.id);
      if found.Some? {
        o := OutcomeOn(found.value, call, next + 1);
      } else {
        o := if call.SuccessCall? || call.FailureCall? then Workflow.Outcome(None, Workflow.Silent)
          else Workflow.Raise(ProjectNotFound);
      }
    }
    accepted := true;
    if o.saved.Some? {
      accepted := repository.Save(o.saved.value);
    }
  }

  /** A run on an empty database, up to the first save that it refuses. */
  method RunOnDatabase(repository: PostgresProjectRepository, plan: seq<TaskShape>, calls: seq<Call>)
      returns (taken: nat, ghost dbs: seq<Database>)
    requires repository.Valid() && repository.database == NO_ROWS
    modifies repository
    ensures taken <= |calls| && DatabaseRun(plan, repository.collation, calls[..taken], dbs)
    ensures repository.database == dbs[taken]
    ensures taken < |calls| ==> exists o ::
      Computes(plan, repository.collation, repository.database, 2 * taken, calls[taken], o) && o.saved.Some?
        && !Savable(o.saved.value)
  {
    hide Computes, Accepts, Savable, Consistent, Total;
    taken, dbs := 0, [NO_ROWS];
    while taken < |calls|
      invariant taken <= |calls| && repository.Valid()
      invariant DatabaseRun(plan, repository.collation, calls[..taken], dbs)
      invariant repository.database == dbs[taken]
    {
      var o, accepted := CallOnDatabase(repository, plan, 2 * taken, calls[taken]);
      if !accepted {
        return;
      }
      assert DatabaseStep(plan, repository.collation, dbs[taken], 2 * taken, calls[taken], repository.database);
      dbs := dbs + [repository.database];
      taken := taken + 1;
    }
  }

  /******* The orchestrator's own plan *******/

  /** The only task that may come before its place in the plan is the trend analysis, before the build. */
  lemma EarlyTask(tasks: seq<Task>, t: seq<Task>, k: nat, m: nat)
    requires Shape(tasks) == Plans.BuildPlan() && |t| == |tasks| && k < m < |tasks|
    requires t[..k] == tasks[..k] && t[k] == tasks[m]
    requires Respects(t) && forall x :: x in tasks ==> x in t
    ensures k == 2 && m == 3
  {
    var plan := Plans.BuildPlan();
    var needed := if m == 1 then 0 else if m == 4 then 3 else 1;
    assert plan[m].id == tasks[m].id && plan[needed].id in tasks[m].dependsOn;
    assert tasks[needed].id == plan[needed].id && tasks[needed] in t;
    var i :| 0 <= i < |t| && t[i] == tasks[needed];
    assert i < k && tasks[i] == tasks[needed];
    Plans.BuildPlanIsGood();
    assert plan[i].id == tasks[i].id;
  }

  /** Where `task-build` sorts before `task-trend`, the orchestrator's tasks come back in the order of its plan. */
  lemma OwnOrderKept(c: Collation)
    requires Total(c) && c.texts("task-build", "task-trend")
    ensures KeepsOrder(Plans.BuildPlan(), c)
  {
    hide Total, Order, Plans.BuildPlan;
    forall tasks, rows | Shape(tasks) == Plans.BuildPlan() && ById(tasks, rows, TaskKey, c.texts)
      ensures Order(rows) == tasks
    {
      OwnTasksComeBack(tasks, rows, c);
    }
  }

  lemma OwnTasksComeBack(tasks: seq<Task>, rows: seq<Task>, c: Collation)
    requires Total(c) && c.texts("task-build", "task-trend")
    requires Shape(tasks) == Plans.BuildPlan() && ById(tasks, rows, TaskKey, c.texts)
    ensures Order(rows) == tasks
  {
    hide Plans.BuildPlan, Greedy, Arranges, Respects, OrderedPlan;
    OwnPlanArranged(tasks);
    SortedTasksUnique(rows, c.texts);
    var p := Rearrangement(tasks, rows);
    var g := Greedy(rows, [], |rows|);
    GreedyComplete(rows);
    GreedyLeast(rows, p);
    if g != p {
      var k :| 0 <= k < |g| && k < |p| && g[..k] == p[..k] && g[k] < p[k];
      PlanComesFirst(tasks, rows, c, g, p, k);
    }
  }

  lemma OwnPlanArranged(tasks: seq<Task>)
    requires Shape(tasks) == Plans.BuildPlan()
    ensures UniqueTaskIds(tasks) && Respects(tasks)
  {
  }

  /** Where two arrangements part, the one takes a task that the other takes later. */
  lemma LaterInPlan(rows: seq<Task>, g: seq<nat>, p: seq<nat>, k: nat) returns (m: nat)
    requires IsPermutation(g, |rows|) && IsPermutation(p, |rows|)
    requires k < |rows| && g[..k] == p[..k] && g[k] != p[k]
    ensures k < m < |p| && p[m] == g[k]
    ensures TasksAt(rows, g)[..k] == TasksAt(rows, p)[..k] && TasksAt(rows, g)[k] == TasksAt(rows, p)[m]
    ensures forall x :: x in TasksAt(rows, p) ==> x in TasksAt(rows, g)
  {
    PermutationOnto(g, |rows|);
    PermutationOnto(p, |rows|);
    forall j | 0 <= j < k
      ensures g[j] == p[j] && TasksAt(rows, g)[j] == TasksAt(rows, p)[j]
    {
      assert g[..k][j] == p[..k][j];
    }
    assert g[k] in p;
    m :| 0 <= m < |p| && p[m] == g[k];
    forall x | x in TasksAt(rows, p)
      ensures x in TasksAt(rows, g)
    {
      var l :| 0 <= l < |p| && TasksAt(rows, p)[l] == x;
      assert p[l] in g;
      var n :| 0 <= n < |g| && g[n] == p[l];
      assert TasksAt(rows, g)[n] == x;
    }
  }

  /** An arrangement of the loaded tasks that parts from the plan's parts from it to a later row. */
  lemma PlanComesFirst(tasks: seq<Task>, rows: seq<Task>, c: Collation, g: seq<nat>, p: seq<nat>, k: nat)
    requires Total(c) && c.texts("task-build", "task-trend")
    requires Shape(tasks) == Plans.BuildPlan() && SortedBy(rows, TaskKey, c.texts)
    requires Arranges(rows, g) && Arranges(rows, p) && TasksAt(rows, p) == tasks
    requires k < |g| && k < |p| && g[..k] == p[..k] && g[k] != p[k]
    ensures p[k] < g[k]
  {
    hide Plans.BuildPlan, Respects, TasksAt, StrictTotal;
    var m := LaterInPlan(rows, g, p, k);
    EarlyTask(tasks, TasksAt(rows, g), k, m);
    OwnNames(tasks);
    BuildFirst(rows, c, p[2], p[3]);
  }

  lemma OwnNames(tasks: seq<Task>)
    requires Shape(tasks) == Plans.BuildPlan()
    ensures |tasks| == 5 && tasks[2].id == "task-build" && tasks[3].id == "task-trend"
  {
  }

  lemma BuildFirst(rows: seq<Task>, c: Collation, i: nat, j: nat)
    requires Total(c) && c.texts("task-build", "task-trend") && SortedBy(rows, TaskKey, c.texts)
    requires i < |rows| && j < |rows| && rows[i].id == "task-build" && rows[j].id == "task-trend"
    ensures i < j
  {
  }
}
