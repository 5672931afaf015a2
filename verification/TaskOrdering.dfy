/** The ordering loop of the repository, over counts, dependents lists and a ready list. */
module TaskOrdering {
  import opened Domain
  import opened TaskOrder

  type Positions = map<string, nat>
  type Dependents = map<string, seq<string>>
  type Counts = map<string, nat>

  /******* Sorting by position *******/

  predicate Increasing(ids: seq<string>, position: Positions) {
    && (forall id :: id in ids ==> id in position)
    && forall i, j :: 0 <= i < j < |ids| ==> position[ids[i]] < position[ids[j]]
  }

  predicate Injective(position: Positions) {
    forall a, b :: a in position && b in position && position[a] == position[b] ==> a == b
  }

  function Insert(id: string, sorted: seq<string>, position: Positions): (r: seq<string>)
    requires id in position && id !in sorted && Increasing(sorted, position) && Injective(position)
    ensures Increasing(r, position)
    ensures forall x :: x in r <==> x == id || x in sorted
  {
    if sorted == [] then [id]
    else if position[id] < position[sorted[0]] then [id] + sorted
    else
      assert sorted == [sorted[0]] + sorted[1..];
      var rest := Insert(id, sorted[1..], position);
      assert forall k :: 0 <= k < |rest| ==> rest[k] in rest;
      assert forall x :: x in rest ==> position[sorted[0]] < position[x];
      [sorted[0]] + rest
  }

  function SortByPosition(ids: seq<string>, position: Positions): (r: seq<string>)
    requires (forall id :: id in ids ==> id in position) && Distinct(ids) && Injective(position)
    ensures Increasing(r, position)
    ensures forall x :: x in r <==> x in ids
  {
    if ids == [] then []
    else
      assert ids == [ids[0]] + ids[1..];
      Insert(ids[0], SortByPosition(ids[1..], position), position)
  }

  /******* The dependency graph *******/

  /** The lists hold the edges into the first `n` tasks, and those into task `n` from the ids in `extra`. */
  ghost predicate Edges(tasks: seq<Task>, dependents: Dependents, n: nat, extra: set<string>) {
    && dependents.Keys == AllIds(tasks)
    && forall id :: id in dependents ==>
         && Distinct(dependents[id])
         && (forall x :: x in dependents[id] ==> x in AllIds(tasks))
         && (forall i :: 0 <= i < |tasks| ==>
               (tasks[i].id in dependents[id] <==> id in EdgesInto(tasks, i, n, extra)))
  }

  function EdgesInto(tasks: seq<Task>, i: nat, n: nat, extra: set<string>): set<string>
    requires i < |tasks|
  {
    if i < n then LocalIds(tasks, i) else if i == n then extra else {}
  }

  lemma AddEdge(tasks: seq<Task>, dependents: Dependents, n: nat, extra: set<string>, d: string)
    requires UniqueTaskIds(tasks) && n < |tasks| && Edges(tasks, dependents, n, extra)
    requires d in AllIds(tasks) && d !in extra
    ensures Edges(tasks, dependents[d := dependents[d] + [tasks[n].id]], n, extra + {d})
  {
  }

  lemma NextTask(tasks: seq<Task>, dependents: Dependents, n: nat)
    requires n < |tasks| && Edges(tasks, dependents, n, LocalIds(tasks, n))
    ensures Edges(tasks, dependents, n + 1, {})
  {
  }

  lemma EdgesKeys(tasks: seq<Task>, dependents: Dependents, n: nat, extra: set<string>)
    requires Edges(tasks, dependents, n, extra)
    ensures dependents.Keys == AllIds(tasks)
  {
  }

  lemma NoEdges(tasks: seq<Task>, dependents: Dependents)
    requires dependents.Keys == AllIds(tasks) && forall id :: id in dependents ==> dependents[id] == []
    ensures Edges(tasks, dependents, 0, {})
  {
  }

  /** Enters task `n` into the lists of its dependencies, in whatever order the set yields them. */
  method AddEdges(tasks: seq<Task>, before: Dependents, n: nat, local: set<string>) returns (dependents: Dependents)
    requires UniqueTaskIds(tasks) && n < |tasks| && Edges(tasks, before, n, {}) && local == LocalIds(tasks, n)
    ensures Edges(tasks, dependents, n + 1, {})
  {
    hide Edges;
    dependents := before;
    var remaining := local;
    assert local - remaining == {};
    while remaining != {}
      invariant remaining <= local
      invariant Edges(tasks, dependents, n, local - remaining)
      decreases remaining
    {
      var d :| d in remaining;
      EdgesKeys(tasks, dependents, n, local - remaining);
      AddEdge(tasks, dependents, n, local - remaining, d);
      dependents := dependents[d := dependents[d] + [tasks[n].id]];
      assert local - (remaining - {d}) == (local - remaining) + {d};
      remaining := remaining - {d};
    }
    assert local - remaining == local;
    NextTask(tasks, dependents, n);
  }

  /** Counts the in-list dependencies of each task and collects the dependents of each. */
  method BuildGraph(tasks: seq<Task>) returns (dependents: Dependents, inbound: Counts)
    requires UniqueTaskIds(tasks)
    ensures Edges(tasks, dependents, |tasks|, {})
    ensures inbound.Keys == AllIds(tasks)
    ensures forall i :: 0 <= i < |tasks| ==> inbound[tasks[i].id] == |LocalIds(tasks, i)|
  {
    hide Edges;
    var ids := AllIds(tasks);
    dependents := map id | id in ids :: [];
    inbound := map id | id in ids :: 0;
    NoEdges(tasks, dependents);
    for n := 0 to |tasks|
      invariant Edges(tasks, dependents, n, {})
      invariant inbound.Keys == ids
      invariant forall i :: 0 <= i < n ==> inbound[tasks[i].id] == |LocalIds(tasks, i)|
    {
      assert tasks[n] in tasks;
      var local := set d | d in tasks[n].dependsOn && d in ids;
      assert local == LocalIds(tasks, n);
      inbound := inbound[tasks[n].id := |local|];
      dependents := AddEdges(tasks, dependents, n, local);
    }
  }

  /******* One step of the loop *******/

  /** The counts are the numbers of dependencies that have not been emitted. */
  predicate CountsPending(tasks: seq<Task>, done: seq<nat>, inbound: Counts)
    requires InRange(tasks, done)
  {
    && inbound.Keys == AllIds(tasks)
    && forall i :: 0 <= i < |tasks| ==> tasks[i].id in inbound && inbound[tasks[i].id] == |PendingIds(tasks, done, i)|
  }

  /** The list holds exactly the tasks that may come next. */
  predicate ListsReady(tasks: seq<Task>, done: seq<nat>, ready: seq<string>)
    requires InRange(tasks, done)
  {
    && (forall id :: id in ready ==> id in AllIds(tasks))
    && forall i :: 0 <= i < |tasks| ==> (tasks[i].id in ready <==> ReadyAfter(tasks, done, i))
  }

  ghost predicate PositionsOf(tasks: seq<Task>, position: Positions) {
    && position.Keys == AllIds(tasks)
    && forall i :: 0 <= i < |tasks| ==> tasks[i].id in position && position[tasks[i].id] == i
  }

  lemma IncreasingDistinct(ids: seq<string>, position: Positions)
    requires Increasing(ids, position)
    ensures Distinct(ids)
  {
  }

  /** The head of the sorted ready list is the first task that may come next. */
  lemma HeadIsFirst(tasks: seq<Task>, done: seq<nat>, ready: seq<string>, position: Positions)
    requires InRange(tasks, done) && ListsReady(tasks, done, ready)
    requires PositionsOf(tasks, position) && Increasing(ready, position)
    ensures ready == [] ==> FirstReady(tasks, done, 0) == |tasks|
    ensures ready != [] ==> ready[0] in position && position[ready[0]] == FirstReady(tasks, done, 0) < |tasks|
    ensures ready != [] ==> tasks[position[ready[0]]].id == ready[0]
  {
  }

  lemma DoneHasNoPending(tasks: seq<Task>, done: seq<nat>, i: nat)
    requires StepByStep(tasks, done) && i in done
    ensures i < |tasks| && PendingIds(tasks, done, i) == {}
  {
    var k :| 0 <= k < |done| && done[k] == i;
    assert ReadyAfter(tasks, done[..k], i);
    forall d | d in LocalIds(tasks, i)
      ensures d in IdsAt(tasks, done)
    {
      assert d !in PendingIds(tasks, done[..k], i);
      var l :| 0 <= l < k && IdsAt(tasks, done[..k])[l] == d;
      assert IdsAt(tasks, done)[l] == d;
    }
  }

  lemma PendingAfter(tasks: seq<Task>, done: seq<nat>, c: nat, i: nat)
    requires InRange(tasks, done) && c < |tasks| && i < |tasks|
    ensures PendingIds(tasks, done + [c], i) == PendingIds(tasks, done, i) - {tasks[c].id}
  {
    assert IdsAt(tasks, done + [c]) == IdsAt(tasks, done) + [tasks[c].id];
  }

  lemma FreshIsPending(tasks: seq<Task>, done: seq<nat>, c: nat, i: nat)
    requires UniqueTaskIds(tasks) && InRange(tasks, done) && c < |tasks| && c !in done && i < |tasks|
    ensures tasks[c].id in PendingIds(tasks, done, i) <==> tasks[c].id in LocalIds(tasks, i)
  {
  }

  /** Decrements the counts of the dependents and appends those that reach zero. */
  method ReleaseDependents(dependents: seq<string>, counts: Counts, waiting: seq<string>)
      returns (inbound: Counts, ready: seq<string>)
    requires Distinct(dependents) && Distinct(waiting)
    requires forall x :: x in dependents ==> x in counts && counts[x] > 0 && x !in waiting
    ensures inbound.Keys == counts.Keys
    ensures forall x :: x in counts ==> inbound[x] + (if x in dependents then 1 else 0) == counts[x]
    ensures Distinct(ready)
    ensures forall x :: x in ready <==> x in waiting || (x in dependents && counts[x] == 1)
  {
    inbound, ready := counts, waiting;
    for m := 0 to |dependents|
      invariant inbound.Keys == counts.Keys
      invariant forall x :: x in counts ==> inbound[x] + (if x in dependents[..m] then 1 else 0) == counts[x]
      invariant Distinct(ready)
      invariant forall x :: x in ready <==> x in waiting || (x in dependents[..m] && counts[x] == 1)
    {
      var id := dependents[m];
      assert id in dependents && id !in dependents[..m];
      assert dependents[..m + 1] == dependents[..m] + [id];
      inbound := inbound[id := inbound[id] - 1];
      if inbound[id] == 0 {
        ready := ready + [id];
      }
    }
    assert dependents[..|dependents|] == dependents;
  }

  /** After emitting task `c` and releasing its dependents, counts and ready list are right again. */
  lemma ReleasedCounts(tasks: seq<Task>, done: seq<nat>, c: nat, dependents: Dependents, before: Counts, after: Counts)
    requires UniqueTaskIds(tasks) && InRange(tasks, done) && c < |tasks| && c !in done
    requires Edges(tasks, dependents, |tasks|, {}) && CountsPending(tasks, done, before)
    requires after.Keys == before.Keys && tasks[c].id in dependents
    requires forall x :: x in before ==> after[x] + (if x in dependents[tasks[c].id] then 1 else 0) == before[x]
    ensures CountsPending(tasks, done + [c], after)
  {
    hide Edges, PendingIds, LocalIds, UniqueTaskIds;
    forall i | 0 <= i < |tasks|
      ensures tasks[i].id in after && after[tasks[i].id] == |PendingIds(tasks, done + [c], i)|
    {
      assert tasks[i] in tasks;
      PendingAfter(tasks, done, c, i);
      FreshIsPending(tasks, done, c, i);
      EdgesFull(tasks, dependents, tasks[c].id, i);
      CountWithout(PendingIds(tasks, done, i), tasks[c].id);
    }
  }

  lemma EdgesFull(tasks: seq<Task>, dependents: Dependents, id: string, i: nat)
    requires Edges(tasks, dependents, |tasks|, {}) && id in dependents && i < |tasks|
    ensures tasks[i].id in dependents[id] <==> id in LocalIds(tasks, i)
  {
  }

  lemma CountWithout(pending: set<string>, id: string)
    ensures |pending - {id}| + (if id in pending then 1 else 0) == |pending|
  {
  }

  /** Emitting `c` makes ready, of the other tasks, those that were, and those that waited for `c` alone. */
  lemma ReadyAfterRelease(tasks: seq<Task>, done: seq<nat>, c: nat, i: nat)
    requires UniqueTaskIds(tasks) && StepByStep(tasks, done) && ReadyAfter(tasks, done, c)
    requires i < |tasks| && i != c
    ensures ReadyAfter(tasks, done + [c], i) <==>
      ReadyAfter(tasks, done, i) || (tasks[c].id in LocalIds(tasks, i) && |PendingIds(tasks, done, i)| == 1)
  {
    hide PendingIds, LocalIds, UniqueTaskIds, StepByStep;
    StepsInRange(tasks, done);
    PendingAfter(tasks, done, c, i);
    FreshIsPending(tasks, done, c, i);
    SingletonPending(PendingIds(tasks, done, i), tasks[c].id);
    if i in done {
      DoneHasNoPending(tasks, done, i);
    }
  }

  lemma StepsInRange(tasks: seq<Task>, done: seq<nat>)
    requires StepByStep(tasks, done)
    ensures InRange(tasks, done)
  {
  }

  lemma ReleasedReady(tasks: seq<Task>, done: seq<nat>, c: nat, dependents: Dependents, before: Counts,
                      ready: seq<string>, after: seq<string>)
    requires UniqueTaskIds(tasks) && StepByStep(tasks, done) && ReadyAfter(tasks, done, c)
    requires Edges(tasks, dependents, |tasks|, {}) && CountsPending(tasks, done, before)
    requires ListsReady(tasks, done, ready) && Distinct(ready) && ready != [] && ready[0] == tasks[c].id
    requires tasks[c].id in dependents
    requires forall x ::
      x in after <==> x in ready[1..] || (x in dependents[tasks[c].id] && x in before && before[x] == 1)
    ensures ListsReady(tasks, done + [c], after)
  {
    hide Edges, PendingIds, LocalIds, StepByStep;
    StepsInRange(tasks, done);
    assert ready == [ready[0]] + ready[1..];
    forall i | 0 <= i < |tasks|
      ensures tasks[i].id in after <==> ReadyAfter(tasks, done + [c], i)
    {
      EdgesFull(tasks, dependents, tasks[c].id, i);
      if i == c {
        assert tasks[c].id !in ready[1..] && before[tasks[c].id] == 0;
      } else {
        assert tasks[i].id != tasks[c].id;
        ReadyAfterRelease(tasks, done, c, i);
      }
    }
    forall id | id in after
      ensures id in AllIds(tasks)
    {
      assert id in ready[1..] ==> id in ready;
    }
  }

  lemma SingletonPending(pending: set<string>, id: string)
    ensures id in pending && |pending| == 1 ==> pending - {id} == {}
    ensures id in pending && pending - {id} == {} ==> |pending| == 1
    ensures id !in pending ==> pending - {id} == pending
  {
    if id in pending {
      assert |pending - {id}| == |pending| - 1;
    }
  }

  lemma RoomLeft(tasks: seq<Task>, done: seq<nat>, i: nat)
    requires StepByStep(tasks, done) && ReadyAfter(tasks, done, i)
    ensures |done| < |tasks| && i !in done
  {
    StepByStepSnoc(tasks, done, i);
    StepByStepDistinct(tasks, done + [i]);
    ElementsCount(done + [i]);
    SubsetCount(Elements(done + [i]), Range(|tasks|));
  }

  lemma ShortStays(tasks: seq<Task>)
    requires |tasks| < 2
    ensures Order(tasks) == tasks
  {
  }

  lemma InitiallyReady(tasks: seq<Task>, inbound: Counts, ready: seq<string>)
    requires UniqueTaskIds(tasks) && CountsPending(tasks, [], inbound)
    requires forall id :: id in ready <==> exists i :: 0 <= i < |tasks| && tasks[i].id == id && inbound[id] == 0
    ensures ListsReady(tasks, [], ready)
  {
  }

  /** The tasks without in-list dependencies, in list order. */
  method CollectReady(tasks: seq<Task>, inbound: Counts) returns (ready: seq<string>)
    requires UniqueTaskIds(tasks) && CountsPending(tasks, [], inbound)
    ensures Distinct(ready)
    ensures ListsReady(tasks, [], ready)
  {
    ready := [];
    for n := 0 to |tasks|
      invariant Distinct(ready)
      invariant forall id :: id in ready <==> exists i :: 0 <= i < n && tasks[i].id == id && inbound[id] == 0
    {
      if inbound[tasks[n].id] == 0 {
        ready := ready + [tasks[n].id];
      }
    }
    InitiallyReady(tasks, inbound, ready);
  }

  lemma InitiallyPending(tasks: seq<Task>, inbound: Counts)
    requires inbound.Keys == AllIds(tasks)
    requires forall i :: 0 <= i < |tasks| ==> inbound[tasks[i].id] == |LocalIds(tasks, i)|
    ensures CountsPending(tasks, [], inbound)
  {
    forall i | 0 <= i < |tasks|
      ensures PendingIds(tasks, [], i) == LocalIds(tasks, i)
    {
    }
  }

  method IndexPositions(tasks: seq<Task>) returns (position: Positions)
    requires UniqueTaskIds(tasks)
    ensures PositionsOf(tasks, position)
  {
    position := map[];
    for n := 0 to |tasks|
      invariant position.Keys == AllIds(tasks[..n])
      invariant forall i :: 0 <= i < n ==> tasks[i].id in position && position[tasks[i].id] == i
    {
      assert tasks[..n + 1] == tasks[..n] + [tasks[n]];
      position := position[tasks[n].id := n];
    }
    assert tasks[..|tasks|] == tasks;
  }

  lemma SortKeepsReady(tasks: seq<Task>, done: seq<nat>, ready: seq<string>, position: Positions)
    requires InRange(tasks, done) && ListsReady(tasks, done, ready) && Distinct(ready) && PositionsOf(tasks, position)
    ensures (forall id :: id in ready ==> id in position) && Injective(position)
    ensures ListsReady(tasks, done, SortByPosition(ready, position))
  {
  }

  /** Picks the tasks by their ids. */
  method PickTasks(tasks: seq<Task>, ids: seq<string>, ghost done: seq<nat>) returns (picked: seq<Task>)
    requires UniqueTaskIds(tasks) && InRange(tasks, done) && ids == IdsAt(tasks, done)
    ensures picked == TasksAt(tasks, done)
  {
    var tasksById := map task | task in tasks :: task.id := task;
    picked := [];
    for k := 0 to |ids|
      invariant |picked| == k && forall j :: 0 <= j < k ==> picked[j] == tasks[done[j]]
    {
      assert tasks[done[k]] in tasks;
      picked := picked + [tasksById[ids[k]]];
    }
  }

  lemma GreedyStep(tasks: seq<Task>, done: seq<nat>, n: nat)
    requires InRange(tasks, done) && n > 0 && FirstReady(tasks, done, 0) < |tasks|
    ensures Greedy(tasks, done, n) == Greedy(tasks, done + [FirstReady(tasks, done, 0)], n - 1)
  {
  }

  lemma GreedyStops(tasks: seq<Task>, done: seq<nat>, n: nat)
    requires InRange(tasks, done) && FirstReady(tasks, done, 0) == |tasks|
    ensures Greedy(tasks, done, n) == done
  {
  }

  /** Orders a task list for execution. */
  method OrderTasksForExecution(tasks: seq<Task>) returns (ordered: seq<Task>)
    requires UniqueTaskIds(tasks)
    ensures ordered == Order(tasks)
  {
    hide Edges, PendingIds, LocalIds, AllIds, PositionsOf, CountsPending, ListsReady, StepByStep, Increasing, Injective;
    hide Greedy, UniqueTaskIds, ReadyAfter;
    if |tasks| < 2 {
      ShortStays(tasks);
      return tasks;
    }
    var position := IndexPositions(tasks);
    var dependents, inbound := BuildGraph(tasks);
    InitiallyPending(tasks, inbound);
    var ready := CollectReady(tasks, inbound);
    SortKeepsReady(tasks, [], ready, position);
    ready := SortByPosition(ready, position);

    var orderedIds: seq<string> := [];
    ghost var done: seq<nat> := [];
    ghost var n := |tasks|;
    NothingStepByStep(tasks);
    while ready != []
      invariant InRange(tasks, done) && StepByStep(tasks, done) && |done| <= n
      invariant orderedIds == IdsAt(tasks, done)
      invariant Greedy(tasks, done, n - |done|) == Greedy(tasks, [], n)
      invariant CountsPending(tasks, done, inbound)
      invariant ListsReady(tasks, done, ready) && Increasing(ready, position)
      decreases n - |done|
    {
      HeadIsFirst(tasks, done, ready, position);
      ghost var c := position[ready[0]];
      RoomLeft(tasks, done, c);
      var current := ready[0];
      IncreasingDistinct(ready, position);
      ReleasePrecondition(tasks, done, c, dependents, inbound, ready);
      ghost var counts, waiting := inbound, ready;
      orderedIds := orderedIds + [current];
      inbound, ready := ReleaseDependents(dependents[current], inbound, ready[1..]);
      ReleasedCounts(tasks, done, c, dependents, counts, inbound);
      ReleasedReady(tasks, done, c, dependents, counts, waiting, ready);
      SortKeepsReady(tasks, done + [c], ready, position);
      ready := SortByPosition(ready, position);
      StepByStepSnoc(tasks, done, c);
      GreedyStep(tasks, done, n - |done|);
      done := done + [c];
    }
    HeadIsFirst(tasks, done, ready, position);
    GreedyStops(tasks, done, n - |done|);

    if |orderedIds| != |tasks| {
      return tasks;
    }
    ordered := PickTasks(tasks, orderedIds, done);
  }

  lemma NothingStepByStep(tasks: seq<Task>)
    ensures StepByStep(tasks, [])
  {
  }

  lemma ReleasePrecondition(tasks: seq<Task>, done: seq<nat>, c: nat, dependents: Dependents, inbound: Counts,
                            ready: seq<string>)
    requires UniqueTaskIds(tasks) && InRange(tasks, done) && ReadyAfter(tasks, done, c)
    requires Edges(tasks, dependents, |tasks|, {}) && CountsPending(tasks, done, inbound)
    requires ListsReady(tasks, done, ready) && Distinct(ready) && ready != []
    ensures tasks[c].id in dependents && Distinct(dependents[tasks[c].id]) && Distinct(ready[1..])
    ensures forall x :: x in dependents[tasks[c].id] ==> x in inbound && inbound[x] > 0 && x !in ready[1..]
  {
    assert tasks[c] in tasks;
    forall x | x in dependents[tasks[c].id]
      ensures x in inbound && inbound[x] > 0 && x !in ready[1..]
    {
      var i :| 0 <= i < |tasks| && tasks[i].id == x;
      FreshIsPending(tasks, done, c, i);
      assert tasks[c].id in PendingIds(tasks, done, i);
      assert !ReadyAfter(tasks, done, i);
    }
  }
}
