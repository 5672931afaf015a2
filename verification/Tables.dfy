/** The database tables behind a project record, as keyed rows. */
module Tables {
  import opened Domain
  import opened Identities
  import opened TaskOrder
  import Workflow

  /** The rows of one table; the primary key is the project and the row's own id. */
  type Rows<K(==), +T> = map<(nat, K), T>

  datatype ProjectRow = ProjectRow(status: ProjectStatus, policy: ProjectPolicy)

  datatype HistoryRow = HistoryRow(history: seq<HistoryLine>, events: seq<Event>)

  datatype Database = Database(
    projects: map<nat, ProjectRow>,
    tasks: Rows<string, Task>,
    artifacts: Rows<string, Artifact>,
    reviews: Rows<string, ReviewNote>,
    checkpoints: Rows<CheckpointId, Checkpoint>,
    approvals: Rows<nat, Approval>,
    histories: map<nat, HistoryRow>)

  /** The order that `ORDER BY id` means for each kind of id. */
  datatype Collation = Collation(
    texts: (string, string) -> bool,
    checkpoints: (CheckpointId, CheckpointId) -> bool,
    numbers: (nat, nat) -> bool)

  ghost predicate StrictTotal<K(!new)>(before: (K, K) -> bool) {
    && (forall a :: !before(a, a))
    && (forall a, b, c :: before(a, b) && before(b, c) ==> before(a, c))
    && (forall a, b :: a != b ==> before(a, b) || before(b, a))
  }

  ghost predicate Total(c: Collation) {
    StrictTotal(c.texts) && StrictTotal(c.checkpoints) && StrictTotal(c.numbers)
  }

  function TaskKey(t: Task): string {
    t.id
  }

  /******* Rows *******/

  predicate KeyedBy<T, K(==)>(rows: Rows<K, T>, key: T -> K) {
    forall q :: q in rows ==> key(rows[q]) == q.1
  }

  predicate Consistent(db: Database) {
    && KeyedBy(db.tasks, TaskKey)
    && KeyedBy(db.artifacts, Workflow.ArtifactId)
    && KeyedBy(db.reviews, ReviewKey)
    && KeyedBy(db.checkpoints, Workflow.CheckpointKey)
    && KeyedBy(db.approvals, ApprovalKey)
  }

  function Without<T, K(==)>(rows: Rows<K, T>, project: nat): Rows<K, T> {
    map q | q in rows && q.0 != project :: rows[q]
  }

  /** `after` is `rows` with exactly `items` as the rows of the project. */
  ghost predicate Replaced<T(!new), K(!new)>(rows: Rows<K, T>, after: Rows<K, T>, project: nat, items: seq<T>,
                                             key: T -> K) {
    && (forall q: (nat, K) :: q.0 != project ==> (q in after <==> q in rows) && (q in rows ==> after[q] == rows[q]))
    && (forall x :: x in items ==> (project, key(x)) in after && after[(project, key(x))] == x)
    && (forall q :: q in after && q.0 == project ==> after[q] in items && key(after[q]) == q.1)
  }

  ghost predicate Stores(db: Database, v: Record, after: Database) {
    && after.projects == db.projects[v.id := ProjectRow(v.status, v.policy)]
    && after.histories == db.histories[v.id := HistoryRow(v.history, v.events)]
    && Replaced(db.tasks, after.tasks, v.id, v.tasks, TaskKey)
    && Replaced(db.artifacts, after.artifacts, v.id, v.artifacts, Workflow.ArtifactId)
    && Replaced(db.reviews, after.reviews, v.id, v.reviews, ReviewKey)
    && Replaced(db.checkpoints, after.checkpoints, v.id, v.checkpoints, Workflow.CheckpointKey)
    && Replaced(db.approvals, after.approvals, v.id, v.approvals, ApprovalKey)
  }

  /** No insert of the record violates a primary key. */
  predicate Savable(v: Record) {
    && DistinctBy(v.tasks, TaskKey)
    && DistinctBy(v.artifacts, Workflow.ArtifactId)
    && DistinctBy(v.reviews, ReviewKey)
    && DistinctBy(v.checkpoints, Workflow.CheckpointKey)
    && DistinctBy(v.approvals, ApprovalKey)
  }

  /******* Selections *******/

  predicate SortedBy<T, K>(xs: seq<T>, key: T -> K, before: (K, K) -> bool) {
    forall i, j :: 0 <= i < j < |xs| ==> before(key(xs[i]), key(xs[j]))
  }

  /** The rows of one project in the order of their ids. */
  ghost predicate Selects<T(!new), K>(rows: Rows<K, T>, project: nat, key: T -> K, before: (K, K) -> bool, xs: seq<T>) {
    && SortedBy(xs, key, before)
    && forall x :: x in xs <==> (project, key(x)) in rows && rows[(project, key(x))] == x
  }

  ghost predicate SelectsTasks(db: Database, c: Collation, project: nat, rows: seq<Task>) {
    Selects(db.tasks, project, TaskKey, c.texts, rows)
  }

  ghost predicate LoadsWith(db: Database, c: Collation, id: nat, rows: seq<Task>, w: Record) {
    && id in db.projects
    && SelectsTasks(db, c, id, rows)
    && w.id == id && w.status == db.projects[id].status && w.policy == db.projects[id].policy
    && w.tasks == Order(rows)
    && Selects(db.artifacts, id, Workflow.ArtifactId, c.texts, w.artifacts)
    && Selects(db.reviews, id, ReviewKey, c.texts, w.reviews)
    && Selects(db.checkpoints, id, Workflow.CheckpointKey, c.checkpoints, w.checkpoints)
    && Selects(db.approvals, id, ApprovalKey, c.numbers, w.approvals)
    && w.history == (if id in db.histories then db.histories[id].history else [])
    && w.events == (if id in db.histories then db.histories[id].events else [])
  }

  /** Loading project `id` yields the record. */
  ghost predicate Loads(db: Database, c: Collation, id: nat, w: Record) {
    exists rows :: LoadsWith(db, c, id, rows, w)
  }

  lemma {:induction false} SortedUnique<T(!new), K(!new)>(xs: seq<T>, ys: seq<T>, key: T -> K, before: (K, K) -> bool)
    requires StrictTotal(before) && SortedBy(xs, key, before) && SortedBy(ys, key, before)
    requires forall x :: x in xs <==> x in ys
    ensures xs == ys
    decreases |xs|
  {
    assert xs != [] ==> xs[0] in ys;
    assert ys != [] ==> ys[0] in xs;
    if xs != [] {
      SameHead(xs, ys, key, before);
      forall x
        ensures x in xs[1..] <==> x in ys[1..]
      {
        TailMembers(xs, key, before, x);
        TailMembers(ys, key, before, x);
      }
      SortedUnique(xs[1..], ys[1..], key, before);
      assert xs == [xs[0]] + xs[1..] && ys == [ys[0]] + ys[1..];
    }
  }

  lemma SameHead<T(!new), K(!new)>(xs: seq<T>, ys: seq<T>, key: T -> K, before: (K, K) -> bool)
    requires StrictTotal(before) && SortedBy(xs, key, before) && SortedBy(ys, key, before)
    requires xs != [] && ys != [] && xs[0] in ys && ys[0] in xs
    ensures xs[0] == ys[0]
  {
  }

  lemma TailMembers<T(!new), K(!new)>(xs: seq<T>, key: T -> K, before: (K, K) -> bool, x: T)
    requires StrictTotal(before) && SortedBy(xs, key, before) && xs != []
    ensures x in xs[1..] <==> x in xs && x != xs[0]
  {
  }

  lemma SelectionUnique<T(!new), K(!new)>(rows: Rows<K, T>, project: nat, key: T -> K, before: (K, K) -> bool,
                                          xs: seq<T>, ys: seq<T>)
    requires StrictTotal(before) && Selects(rows, project, key, before, xs) && Selects(rows, project, key, before, ys)
    ensures xs == ys
  {
    SortedUnique(xs, ys, key, before);
  }

  /** A database yields at most one record per id. */
  lemma LoadUnique(db: Database, c: Collation, id: nat, v: Record, w: Record)
    requires Total(c) && Loads(db, c, id, v) && Loads(db, c, id, w)
    ensures v == w
  {
    hide Order, Selects, StrictTotal;
    var a :| LoadsWith(db, c, id, a, v);
    var b :| LoadsWith(db, c, id, b, w);
    SelectionUnique(db.tasks, id, TaskKey, c.texts, a, b);
    SelectionUnique(db.artifacts, id, Workflow.ArtifactId, c.texts, v.artifacts, w.artifacts);
    SelectionUnique(db.reviews, id, ReviewKey, c.texts, v.reviews, w.reviews);
    SelectionUnique(db.checkpoints, id, Workflow.CheckpointKey, c.checkpoints, v.checkpoints, w.checkpoints);
    SelectionUnique(db.approvals, id, ApprovalKey, c.numbers, v.approvals, w.approvals);
  }

  /******* Saving, then loading *******/

  /** The same elements, in the order of their ids. */
  ghost predicate ById<T(!new), K>(xs: seq<T>, ys: seq<T>, key: T -> K, before: (K, K) -> bool) {
    SortedBy(ys, key, before) && forall x :: x in ys <==> x in xs
  }

  lemma ReplacedThenSelected<T(!new), K(!new)>(rows: Rows<K, T>, after: Rows<K, T>, project: nat, items: seq<T>,
                                               key: T -> K, before: (K, K) -> bool, xs: seq<T>)
    requires Replaced(rows, after, project, items, key) && Selects(after, project, key, before, xs)
    ensures ById(items, xs, key, before)
  {
  }

  lemma ReplacedElsewhere<T(!new), K(!new)>(rows: Rows<K, T>, after: Rows<K, T>, project: nat, items: seq<T>,
                                            key: T -> K, other: nat, before: (K, K) -> bool, xs: seq<T>)
    requires Replaced(rows, after, project, items, key) && other != project
    ensures Selects(after, other, key, before, xs) <==> Selects(rows, other, key, before, xs)
  {
  }

  lemma ReplacedAgain<T(!new), K(!new)>(rows: Rows<K, T>, once: Rows<K, T>, twice: Rows<K, T>, project: nat,
                                        items: seq<T>, again: seq<T>, key: T -> K)
    requires Replaced(rows, once, project, items, key) && Replaced(once, twice, project, again, key)
    requires forall x :: x in again <==> x in items
    ensures twice == once
  {
  }

  lemma SortedTasksUnique(rows: seq<Task>, before: (string, string) -> bool)
    requires StrictTotal(before) && SortedBy(rows, TaskKey, before)
    ensures UniqueTaskIds(rows)
  {
  }

  /** Ordering neither loses nor invents tasks. */
  lemma OrderSameTasks(tasks: seq<Task>)
    requires UniqueTaskIds(tasks)
    ensures |Order(tasks)| == |tasks| && forall x :: x in Order(tasks) <==> x in tasks
  {
    GreedyComplete(tasks);
    var g := Greedy(tasks, [], |tasks|);
    if |g| == |tasks| {
      PermutationOnto(g, |tasks|);
      forall x
        ensures x in Order(tasks) <==> x in tasks
      {
        if x in tasks {
          var j :| 0 <= j < |tasks| && tasks[j] == x;
          assert j in g;
          var k :| 0 <= k < |g| && g[k] == j;
          assert TasksAt(tasks, g)[k] == x;
        }
      }
    }
  }

  /** The record as a reload returns it: the same but for the order of its lists. */
  ghost predicate Reloaded(v: Record, w: Record, c: Collation) {
    && w.id == v.id && w.status == v.status && w.policy == v.policy
    && w.history == v.history && w.events == v.events
    && |w.tasks| == |v.tasks| && (forall x :: x in w.tasks <==> x in v.tasks)
    && ById(v.artifacts, w.artifacts, Workflow.ArtifactId, c.texts)
    && ById(v.reviews, w.reviews, ReviewKey, c.texts)
    && ById(v.checkpoints, w.checkpoints, Workflow.CheckpointKey, c.checkpoints)
    && ById(v.approvals, w.approvals, ApprovalKey, c.numbers)
  }

  lemma SameTaskCount(xs: seq<Task>, ys: seq<Task>)
    requires UniqueTaskIds(xs) && UniqueTaskIds(ys) && forall x :: x in xs <==> x in ys
    ensures |xs| == |ys|
  {
    ElementsCount(xs);
    ElementsCount(ys);
    assert Elements(xs) == Elements(ys);
  }

  /** The position of a task in another arrangement of the same tasks. */
  function PositionIn(rows: seq<Task>, task: Task): (k: nat)
    requires task in rows
    ensures k < |rows| && rows[k] == task
  {
    if rows[0] == task then 0 else 1 + PositionIn(rows[1..], task)
  }

  function PositionsIn(rows: seq<Task>, tasks: seq<Task>): (p: seq<nat>)
    requires forall x :: x in tasks ==> x in rows
    ensures |p| == |tasks| && forall k :: 0 <= k < |tasks| ==> p[k] < |rows| && rows[p[k]] == tasks[k]
  {
    seq(|tasks|, k requires 0 <= k < |tasks| => PositionIn(rows, tasks[k]))
  }

  /** The positions at which tasks in dependency order stand in another order of them. */
  lemma Rearrangement(tasks: seq<Task>, rows: seq<Task>) returns (p: seq<nat>)
    requires UniqueTaskIds(tasks) && Respects(tasks)
    requires UniqueTaskIds(rows) && forall x :: x in rows <==> x in tasks
    ensures Arranges(rows, p) && TasksAt(rows, p) == tasks
  {
    SameTaskCount(tasks, rows);
    p := PositionsIn(rows, tasks);
    assert TasksAt(rows, p) == tasks;
    forall i, j | 0 <= i < j < |p|
      ensures p[i] != p[j]
    {
      assert rows[p[i]].id != rows[p[j]].id;
    }
  }

  /** Tasks that can be arranged can be arranged from any order of them. */
  lemma RearrangedRespects(tasks: seq<Task>, rows: seq<Task>)
    requires UniqueTaskIds(tasks) && Respects(tasks)
    requires UniqueTaskIds(rows) && forall x :: x in rows <==> x in tasks
    ensures Respects(Order(rows))
  {
    var p := Rearrangement(tasks, rows);
    OrderIsLeastArrangement(rows);
  }

  lemma DistinctTasks(tasks: seq<Task>)
    requires DistinctBy(tasks, TaskKey)
    ensures UniqueTaskIds(tasks)
  {
  }

  /** A saved record comes back up to the order of its ids, and in dependency order if it was in one. */
  lemma SaveThenLoad(db: Database, v: Record, after: Database, c: Collation, w: Record)
    requires Total(c) && Savable(v) && Stores(db, v, after) && Loads(after, c, v.id, w)
    ensures Reloaded(v, w, c)
    ensures Respects(v.tasks) ==> Respects(w.tasks)
  {
    hide Order, Selects, StrictTotal, Replaced, ById, DistinctBy, Respects;
    var rows :| LoadsWith(after, c, v.id, rows, w);
    ReplacedThenSelected(db.tasks, after.tasks, v.id, v.tasks, TaskKey, c.texts, rows);
    ReplacedThenSelected(db.artifacts, after.artifacts, v.id, v.artifacts, Workflow.ArtifactId, c.texts, w.artifacts);
    ReplacedThenSelected(db.reviews, after.reviews, v.id, v.reviews, ReviewKey, c.texts, w.reviews);
    ReplacedThenSelected(db.checkpoints, after.checkpoints, v.id, v.checkpoints, Workflow.CheckpointKey, c.checkpoints,
      w.checkpoints);
    ReplacedThenSelected(db.approvals, after.approvals, v.id, v.approvals, ApprovalKey, c.numbers, w.approvals);
    ReloadedTasks(v.tasks, rows, c.texts);
  }

  lemma ReloadedTasks(tasks: seq<Task>, rows: seq<Task>, before: (string, string) -> bool)
    requires StrictTotal(before) && DistinctBy(tasks, TaskKey) && ById(tasks, rows, TaskKey, before)
    ensures |Order(rows)| == |tasks| && forall x :: x in Order(rows) <==> x in tasks
    ensures Respects(tasks) ==> Respects(Order(rows))
  {
    hide Order, Respects, StrictTotal;
    DistinctTasks(tasks);
    SortedTasksUnique(rows, before);
    OrderSameTasks(rows);
    SameTaskCount(tasks, rows);
    if Respects(tasks) {
      RearrangedRespects(tasks, rows);
    }
  }

  /** Saving what was loaded changes nothing, so the cycle of save and load stops at its first result. */
  lemma SaveLoadSave(db: Database, v: Record, once: Database, c: Collation, w: Record, twice: Database)
    requires Total(c) && Savable(v) && Stores(db, v, once) && Loads(once, c, v.id, w) && Stores(once, w, twice)
    ensures twice == once
  {
    SaveThenLoad(db, v, once, c, w);
    hide StrictTotal, Replaced, Loads, DistinctBy;
    ReplacedAgain(db.tasks, once.tasks, twice.tasks, v.id, v.tasks, w.tasks, TaskKey);
    ReplacedAgain(db.artifacts, once.artifacts, twice.artifacts, v.id, v.artifacts, w.artifacts, Workflow.ArtifactId);
    ReplacedAgain(db.reviews, once.reviews, twice.reviews, v.id, v.reviews, w.reviews, ReviewKey);
    ReplacedAgain(db.checkpoints, once.checkpoints, twice.checkpoints, v.id, v.checkpoints, w.checkpoints,
      Workflow.CheckpointKey);
    ReplacedAgain(db.approvals, once.approvals, twice.approvals, v.id, v.approvals, w.approvals, ApprovalKey);
  }

  /** Saving one project does not show in any other. */
  lemma OtherProjectsUntouched(db: Database, v: Record, after: Database, c: Collation, other: nat, w: Record)
    requires Stores(db, v, after) && other != v.id
    ensures Loads(after, c, other, w) <==> Loads(db, c, other, w)
  {
    hide LoadsWith;
    forall rows
      ensures LoadsWith(after, c, other, rows, w) <==> LoadsWith(db, c, other, rows, w)
    {
      RowsUntouched(db, v, after, c, other, rows, w);
    }
  }

  lemma RowsUntouched(db: Database, v: Record, after: Database, c: Collation, other: nat, rows: seq<Task>, w: Record)
    requires Stores(db, v, after) && other != v.id
    ensures LoadsWith(after, c, other, rows, w) <==> LoadsWith(db, c, other, rows, w)
  {
    hide Order, Selects, Replaced;
    ReplacedElsewhere(db.tasks, after.tasks, v.id, v.tasks, TaskKey, other, c.texts, rows);
    ReplacedElsewhere(db.artifacts, after.artifacts, v.id, v.artifacts, Workflow.ArtifactId, other, c.texts,
      w.artifacts);
    ReplacedElsewhere(db.reviews, after.reviews, v.id, v.reviews, ReviewKey, other, c.texts, w.reviews);
    ReplacedElsewhere(
      db.checkpoints, after.checkpoints, v.id, v.checkpoints, Workflow.CheckpointKey, other, c.checkpoints,
        w.checkpoints);
    ReplacedElsewhere(db.approvals, after.approvals, v.id, v.approvals, ApprovalKey, other, c.numbers, w.approvals);
  }
}
