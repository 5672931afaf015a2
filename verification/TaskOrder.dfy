/** Which order the repository gives a task list, as a function of the list. */
module TaskOrder {
  import opened Domain

  function AllIds(tasks: seq<Task>): set<string> {
    set task | task in tasks :: task.id
  }

  /** The dependencies of task `i` that are in the list. */
  function LocalIds(tasks: seq<Task>, i: nat): set<string>
    requires i < |tasks|
  {
    set d | d in tasks[i].dependsOn && d in AllIds(tasks)
  }

  predicate InRange(tasks: seq<Task>, positions: seq<nat>) {
    forall k :: 0 <= k < |positions| ==> positions[k] < |tasks|
  }

  function IdsAt(tasks: seq<Task>, positions: seq<nat>): (ids: seq<string>)
    requires InRange(tasks, positions)
    ensures |ids| == |positions|
    ensures forall k :: 0 <= k < |ids| ==> ids[k] == tasks[positions[k]].id
  {
    seq(|positions|, k requires 0 <= k < |positions| => tasks[positions[k]].id)
  }

  function TasksAt(tasks: seq<Task>, positions: seq<nat>): (picked: seq<Task>)
    requires InRange(tasks, positions)
    ensures |picked| == |positions|
    ensures forall k :: 0 <= k < |picked| ==> picked[k] == tasks[positions[k]]
  {
    seq(|positions|, k requires 0 <= k < |positions| => tasks[positions[k]])
  }

  /** The dependencies of task `i` that have not been emitted. */
  function PendingIds(tasks: seq<Task>, done: seq<nat>, i: nat): set<string>
    requires i < |tasks| && InRange(tasks, done)
  {
    set d | d in LocalIds(tasks, i) && d !in IdsAt(tasks, done)
  }

  /** Task `i` may come next after `done`. */
  predicate ReadyAfter(tasks: seq<Task>, done: seq<nat>, i: nat)
    requires InRange(tasks, done)
  {
    i < |tasks| && i !in done && PendingIds(tasks, done, i) == {}
  }

  /** The first position from `i` on that may come next, or the length of the list. */
  function FirstReady(tasks: seq<Task>, done: seq<nat>, i: nat): (k: nat)
    requires i <= |tasks| && InRange(tasks, done)
    ensures i <= k <= |tasks|
    ensures k < |tasks| ==> ReadyAfter(tasks, done, k)
    ensures forall j :: i <= j < k ==> !ReadyAfter(tasks, done, j)
    decreases |tasks| - i
  {
    if i == |tasks| || ReadyAfter(tasks, done, i) then i else FirstReady(tasks, done, i + 1)
  }

  /** Up to `n` more positions, each the first that may come next. */
  function Greedy(tasks: seq<Task>, done: seq<nat>, n: nat): (all: seq<nat>)
    requires InRange(tasks, done)
    ensures InRange(tasks, all) && done <= all && |all| <= |done| + n
    decreases n
  {
    var k := FirstReady(tasks, done, 0);
    if n == 0 || k == |tasks| then done else Greedy(tasks, done + [k], n - 1)
  }

  function Order(tasks: seq<Task>): seq<Task> {
    var positions := Greedy(tasks, [], |tasks|);
    if |positions| == |tasks| then TasksAt(tasks, positions) else tasks
  }

  /******* What it means to be ordered *******/

  /** Every task follows all of its dependencies that are in the list. */
  predicate Respects(tasks: seq<Task>) {
    forall i, j :: 0 <= i < |tasks| && 0 <= j < |tasks| && tasks[j].id in tasks[i].dependsOn ==> j < i
  }

  predicate Distinct<T(==)>(xs: seq<T>) {
    forall i, j :: 0 <= i < j < |xs| ==> xs[i] != xs[j]
  }

  predicate IsPermutation(p: seq<nat>, n: nat) {
    |p| == n && Distinct(p) && forall k :: 0 <= k < n ==> p[k] < n
  }

  /** `p` arranges the tasks so that each follows its dependencies. */
  predicate Arranges(tasks: seq<Task>, p: seq<nat>) {
    IsPermutation(p, |tasks|) && Respects(TasksAt(tasks, p))
  }

  predicate UniqueTaskIds(tasks: seq<Task>) {
    forall i, j :: 0 <= i < j < |tasks| ==> tasks[i].id != tasks[j].id
  }

  /** Every position of the list may come next after those before it. */
  predicate StepByStep(tasks: seq<Task>, p: seq<nat>) {
    InRange(tasks, p) && forall k :: 0 <= k < |p| ==> ReadyAfter(tasks, p[..k], p[k])
  }

  predicate LexLess(a: seq<nat>, b: seq<nat>) {
    exists k :: 0 <= k < |a| && k < |b| && a[..k] == b[..k] && a[k] < b[k]
  }

  /******* Counting *******/

  function Range(n: nat): (r: set<nat>)
    ensures |r| == n
    ensures forall k: nat :: k in r <==> k < n
  {
    if n == 0 then {} else Range(n - 1) + {n - 1}
  }

  function Elements<T(==)>(xs: seq<T>): set<T> {
    set x | x in xs
  }

  lemma {:induction false} ElementsCount<T>(xs: seq<T>)
    ensures |Elements(xs)| <= |xs|
    ensures Distinct(xs) ==> |Elements(xs)| == |xs|
  {
    if xs != [] {
      var n := |xs| - 1;
      ElementsCount(xs[..n]);
      assert Elements(xs) == Elements(xs[..n]) + {xs[n]};
    }
  }

  lemma SubsetsOfSize<T>(a: set<T>, b: set<T>)
    requires a <= b && |a| == |b|
    ensures a == b
  {
    assert b == a + (b - a);
  }

  lemma SubsetCount<T>(a: set<T>, b: set<T>)
    requires a <= b
    ensures |a| <= |b|
  {
    assert b == a + (b - a);
  }

  lemma PermutationOnto(p: seq<nat>, n: nat)
    requires IsPermutation(p, n)
    ensures forall j: nat :: j < n ==> j in p
  {
    ElementsCount(p);
    SubsetsOfSize(Elements(p), Range(n));
    forall j: nat | j < n
      ensures j in p
    {
      assert j in Elements(p);
    }
  }

  /******* Stepwise arrangements *******/

  lemma StepByStepDistinct(tasks: seq<Task>, p: seq<nat>)
    requires StepByStep(tasks, p)
    ensures Distinct(p)
  {
  }

  lemma StepByStepArranges(tasks: seq<Task>, p: seq<nat>)
    requires UniqueTaskIds(tasks) && StepByStep(tasks, p) && |p| == |tasks|
    ensures Arranges(tasks, p)
  {
    StepByStepDistinct(tasks, p);
    forall k, m | 0 <= k < |p| && 0 <= m < |p| && tasks[p[m]].id in tasks[p[k]].dependsOn
      ensures m < k
    {
      var d := tasks[p[m]].id;
      assert tasks[p[m]] in tasks;
      assert d in LocalIds(tasks, p[k]);
      assert ReadyAfter(tasks, p[..k], p[k]);
      assert d !in PendingIds(tasks, p[..k], p[k]);
      var l :| 0 <= l < k && IdsAt(tasks, p[..k])[l] == d;
      assert tasks[p[l]].id == tasks[p[m]].id;
      assert p[l] == p[m];
      assert l == m;
    }
  }

  lemma ArrangesStepByStep(tasks: seq<Task>, p: seq<nat>)
    requires UniqueTaskIds(tasks) && Arranges(tasks, p)
    ensures StepByStep(tasks, p)
  {
    PermutationOnto(p, |tasks|);
    forall k | 0 <= k < |p|
      ensures ReadyAfter(tasks, p[..k], p[k])
    {
      assert p[k] !in p[..k];
      forall d | d in LocalIds(tasks, p[k])
        ensures d in IdsAt(tasks, p[..k])
      {
        var j :| 0 <= j < |tasks| && tasks[j].id == d;
        assert j in p;
        var m :| 0 <= m < |p| && p[m] == j;
        assert TasksAt(tasks, p)[m].id in TasksAt(tasks, p)[k].dependsOn;
        assert IdsAt(tasks, p[..k])[m] == d;
      }
    }
  }

  /******* The greedy arrangement *******/

  lemma StepByStepSnoc(tasks: seq<Task>, p: seq<nat>, i: nat)
    requires StepByStep(tasks, p) && ReadyAfter(tasks, p, i)
    ensures StepByStep(tasks, p + [i])
  {
    forall k | 0 <= k < |p + [i]|
      ensures ReadyAfter(tasks, (p + [i])[..k], (p + [i])[k])
    {
      assert (p + [i])[..k] == if k < |p| then p[..k] else p;
    }
  }

  lemma {:induction false} GreedyStepByStep(tasks: seq<Task>, done: seq<nat>, n: nat)
    requires InRange(tasks, done) && StepByStep(tasks, done)
    ensures StepByStep(tasks, Greedy(tasks, done, n))
    decreases n
  {
    hide StepByStep;
    var k := FirstReady(tasks, done, 0);
    if n > 0 && k < |tasks| {
      StepByStepSnoc(tasks, done, k);
      GreedyStepByStep(tasks, done + [k], n - 1);
    }
  }

  /** Each position the greedy arrangement adds is the least that may come next. */
  lemma {:induction false} GreedyChoosesFirst(tasks: seq<Task>, done: seq<nat>, n: nat, m: nat)
    requires InRange(tasks, done) && |done| <= m < |Greedy(tasks, done, n)|
    ensures Greedy(tasks, done, n)[m] == FirstReady(tasks, Greedy(tasks, done, n)[..m], 0)
    decreases n
  {
    var k := FirstReady(tasks, done, 0);
    var all := Greedy(tasks, done, n);
    assert done + [k] <= all;
    if m == |done| {
      assert all[..m] == done;
    } else {
      GreedyChoosesFirst(tasks, done + [k], n - 1, m);
    }
  }

  lemma {:induction false} GreedyStopsStuck(tasks: seq<Task>, done: seq<nat>, n: nat)
    requires InRange(tasks, done) && |Greedy(tasks, done, n)| < |done| + n
    ensures FirstReady(tasks, Greedy(tasks, done, n), 0) == |tasks|
    decreases n
  {
    var k := FirstReady(tasks, done, 0);
    if n > 0 && k < |tasks| {
      GreedyStopsStuck(tasks, done + [k], n - 1);
    }
  }

  /** As long as some arrangement exists, an unfinished stepwise prefix can go on. */
  lemma NeverStuck(tasks: seq<Task>, done: seq<nat>, p: seq<nat>)
    requires StepByStep(tasks, p) && |p| == |tasks|
    requires StepByStep(tasks, done) && |done| < |tasks|
    ensures FirstReady(tasks, done, 0) < |tasks|
  {
    StepByStepDistinct(tasks, p);
    ElementsCount(p);
    ElementsCount(done);
    if forall k :: 0 <= k < |p| ==> p[k] in done {
      assert Elements(p) <= Elements(done);
      SubsetCount(Elements(p), Elements(done));
      assert false;
    }
    var k := FirstOutside(p, done, 0);
    assert ReadyAfter(tasks, p[..k], p[k]);
    forall d | d in LocalIds(tasks, p[k])
      ensures d in IdsAt(tasks, done)
    {
      assert d !in PendingIds(tasks, p[..k], p[k]);
      var l :| 0 <= l < k && IdsAt(tasks, p[..k])[l] == d;
      assert p[l] in done;
      var m :| 0 <= m < |done| && done[m] == p[l];
      assert IdsAt(tasks, done)[m] == d;
    }
    assert ReadyAfter(tasks, done, p[k]);
  }

  function FirstOutside(p: seq<nat>, done: seq<nat>, i: nat): (k: nat)
    requires i <= |p| && exists k :: i <= k < |p| && p[k] !in done
    ensures i <= k < |p| && p[k] !in done
    ensures forall j :: i <= j < k ==> p[j] in done
    decreases |p| - i
  {
    if p[i] !in done then i else FirstOutside(p, done, i + 1)
  }

  /******* The order *******/

  /** The greedy arrangement is complete exactly when some arrangement exists. */
  lemma GreedyComplete(tasks: seq<Task>)
    requires UniqueTaskIds(tasks)
    ensures |Greedy(tasks, [], |tasks|)| == |tasks| <==> exists p :: Arranges(tasks, p)
    ensures |Greedy(tasks, [], |tasks|)| == |tasks| ==> Arranges(tasks, Greedy(tasks, [], |tasks|))
  {
    var g := Greedy(tasks, [], |tasks|);
    GreedyStepByStep(tasks, [], |tasks|);
    if |g| == |tasks| {
      StepByStepArranges(tasks, g);
    } else if p :| Arranges(tasks, p) {
      ArrangesStepByStep(tasks, p);
      GreedyStopsStuck(tasks, [], |tasks|);
      NeverStuck(tasks, g, p);
      assert false;
    }
  }

  function FirstDifference(a: seq<nat>, b: seq<nat>, i: nat): (k: nat)
    requires i <= |a| == |b| && a[..i] == b[..i]
    requires exists k :: i <= k < |a| && a[k] != b[k]
    ensures k < |a| && a[..k] == b[..k] && a[k] != b[k]
    decreases |a| - i
  {
    if a[i] != b[i] then i
    else
      assert a[..i + 1] == a[..i] + [a[i]] && b[..i + 1] == b[..i] + [b[i]];
      FirstDifference(a, b, i + 1)
  }

  /** No arrangement is before the greedy one, position by position. */
  lemma GreedyLeast(tasks: seq<Task>, p: seq<nat>)
    requires UniqueTaskIds(tasks) && Arranges(tasks, p)
    ensures p == Greedy(tasks, [], |tasks|) || LexLess(Greedy(tasks, [], |tasks|), p)
  {
    hide Greedy, PendingIds, LocalIds, Respects, UniqueTaskIds;
    var g := Greedy(tasks, [], |tasks|);
    GreedyComplete(tasks);
    if p != g {
      var k := FirstDifference(g, p, 0);
      GreedyChoosesFirst(tasks, [], |tasks|, k);
      ArrangesStepByStep(tasks, p);
      assert ReadyAfter(tasks, p[..k], p[k]);
      assert g[k] < p[k];
    }
  }

  /** If some arrangement exists, the order is the least of them; otherwise the list stays as it is. */
  lemma OrderIsLeastArrangement(tasks: seq<Task>)
    requires UniqueTaskIds(tasks)
    ensures if exists p :: Arranges(tasks, p)
            then exists g :: Arranges(tasks, g) && Order(tasks) == TasksAt(tasks, g) && Respects(Order(tasks))
                   && forall p :: Arranges(tasks, p) ==> p == g || LexLess(g, p)
            else Order(tasks) == tasks
  {
    GreedyComplete(tasks);
    var g := Greedy(tasks, [], |tasks|);
    if |g| == |tasks| {
      forall p | Arranges(tasks, p)
        ensures p == g || LexLess(g, p)
      {
        GreedyLeast(tasks, p);
      }
    }
  }

  function Identity(n: nat): (p: seq<nat>)
    ensures IsPermutation(p, n) && forall k :: 0 <= k < n ==> p[k] == k
  {
    seq(n, k requires 0 <= k < n => k)
  }

  /** A list that already respects its dependencies keeps its order. */
  lemma OrderedStays(tasks: seq<Task>)
    requires UniqueTaskIds(tasks) && Respects(tasks)
    ensures Order(tasks) == tasks
  {
    var p := Identity(|tasks|);
    assert TasksAt(tasks, p) == tasks;
    assert Arranges(tasks, p);
    GreedyComplete(tasks);
    GreedyLeast(tasks, p);
    var g := Greedy(tasks, [], |tasks|);
    NothingBeforeIdentity(g, |tasks|);
  }

  lemma NothingBeforeIdentity(g: seq<nat>, n: nat)
    requires IsPermutation(g, n)
    ensures !LexLess(g, Identity(n))
  {
    var p := Identity(n);
    forall k | 0 <= k < n && g[..k] == p[..k]
      ensures g[k] >= p[k]
    {
      forall j | 0 <= j < k
        ensures g[k] != p[j]
      {
        assert g[j] == g[..k][j] == p[..k][j] == j;
      }
      assert g[k] < n && p[g[k]] == g[k];
    }
  }

  lemma ArrangedIdsUnique(tasks: seq<Task>, p: seq<nat>)
    requires UniqueTaskIds(tasks) && IsPermutation(p, |tasks|)
    ensures UniqueTaskIds(TasksAt(tasks, p))
  {
  }

  /** Ordering twice is ordering once. */
  lemma OrderIdempotent(tasks: seq<Task>)
    requires UniqueTaskIds(tasks)
    ensures Order(Order(tasks)) == Order(tasks)
  {
    GreedyComplete(tasks);
    var g := Greedy(tasks, [], |tasks|);
    if |g| == |tasks| {
      ArrangedIdsUnique(tasks, g);
      OrderedStays(TasksAt(tasks, g));
    }
  }
}
