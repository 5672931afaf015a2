/** Runs: sequences of calls alone, on an initially empty repository. */
module Runs {
  import opened Domain
  import opened Workflow
  import opened AuditLog
  import opened Calls
  import opened Soundness
  import opened Histories
  import opened Coupling
  import opened Operations

  const EMPTY := World(map[], 0)

  function After(plan: seq<TaskShape>, calls: seq<Call>): World {
    if calls == [] then EMPTY
    else Apply(plan, After(plan, calls[..|calls| - 1]), calls[|calls| - 1])
  }

  function Steps(calls: seq<Call>): (steps: seq<Step>)
    ensures |steps| == |calls|
  {
    seq(|calls|, i requires 0 <= i < |calls| => Called(calls[i]))
  }

  /** A run is a history of calls alone that starts with nothing stored, so what holds of histories holds of runs. */
  lemma {:induction false} RunsAreHistories(plan: seq<TaskShape>, calls: seq<Call>)
    ensures After(plan, calls) == Reached(plan, EMPTY, Steps(calls)) && SoundWorld(EMPTY, {})
  {
    hide Apply;
    if calls != [] {
      var n := |calls| - 1;
      assert Steps(calls)[..n] == Steps(calls[..n]);
      RunsAreHistories(plan, calls[..n]);
    }
  }

  /** The project is stored after the run, as it is from its creation on. */
  predicate Has(plan: seq<TaskShape>, calls: seq<Call>, id: nat) {
    id in After(plan, calls).store
  }

  function Project(plan: seq<TaskShape>, calls: seq<Call>, id: nat): Record
    requires Has(plan, calls, id)
  {
    After(plan, calls).store[id]
  }

  /******* The invariant of every run *******/

  predicate RecordOk(plan: seq<TaskShape>, id: nat, v: Record) {
    v.id == id && Shape(v.tasks) == plan && Stored(v)
  }

  predicate WorldOk(plan: seq<TaskShape>, w: World) {
    forall id :: id in w.store ==> RecordOk(plan, id, w.store[id])
  }

  lemma OutcomeOnKeeps(v: Record, c: Call, approvalId: nat)
    requires !c.StartProject? && Stored(v)
    ensures Keeps(OutcomeOn(v, c, approvalId))
  {
    hide Stored, ResumeFromApproval, RejectApproval, ResumeFromRevision, StartReplanning;
    match c
    case ApprovalCall(_, inputs, caller, note, launch, overrides) =>
      ResumeFromApprovalKeeps(v, inputs, caller, note, launch, overrides, approvalId);
    case RejectionCall(_, inputs, caller, reason, note, overrides) =>
      RejectApprovalKeeps(v, inputs, caller, reason, note, overrides);
    case RevisionCall(_, mode, caller, reason, launch, inputs) =>
      ResumeFromRevisionKeeps(v, mode, caller, reason, launch, inputs, approvalId);
    case ReplanningCall(_, caller, launch, inputs, reset) =>
      StartReplanningKeeps(v, caller, launch, inputs, reset, approvalId);
    case SuccessCall(_, actor) => LogKeeps(v, RecordAuthenticationSuccess(v, actor).saved.value);
    case FailureCall(_) => LogKeeps(v, RecordAuthenticationFailure(v).saved.value);
  }

  lemma OutcomeOfKeeps(plan: seq<TaskShape>, w: World, c: Call)
    requires GoodPlan(plan) && WorldOk(plan, w)
    ensures Keeps(OutcomeOf(plan, w, c))
  {
    hide GoodPlan, Stored, Run, OutcomeOn;
    if c.StartProject? {
      RunKeeps(w.next, c.policy, plan, c.launch, c.inputs, c.simulateFailure, w.next + 1);
    } else if c.id in w.store {
      OutcomeOnKeeps(w.store[c.id], c, w.next + 1);
    }
  }

  lemma GoodPlanOrdered(plan: seq<TaskShape>)
    requires GoodPlan(plan)
    ensures OrderedPlan(plan)
  {
  }

  /** One more call: it changes at most its own project, which it extends; a new project takes an unused id. */
  lemma StepEffect(plan: seq<TaskShape>, calls: seq<Call>, c: Call)
    requires OrderedPlan(plan)
    ensures var w := After(plan, calls); var o := OutcomeOf(plan, w, c); var target := Target(w, c);
      && After(plan, calls + [c]) == Apply(plan, w, c)
      && After(plan, calls + [c]).store == (if o.saved.Some? then w.store[target := o.saved.value] else w.store)
      && (o.saved.Some? ==>
            && o.saved.value.id == target
            && (!c.StartProject? ==> target in w.store)
            && Evolves(Before(plan, w, c), o.saved.value))
      && (c.StartProject? ==> target !in w.store)
  {
    hide OrderedPlan, Sound, Gated, Evolves, OutcomeOf, Bypasses;
    RunsAreHistories(plan, calls);
    ReachedSound(plan, EMPTY, Steps(calls), {});
    CallStep(plan, After(plan, calls), c, Vouched(plan, EMPTY, Steps(calls), {}));
    assert (calls + [c])[..|calls|] == calls;
  }

  lemma EvolvesKeepsPlan(v: Record, w: Record)
    requires Evolves(v, w)
    ensures v.id == w.id && Shape(v.tasks) == Shape(w.tasks)
  {
  }

  /** A project keeps its id and its plan. */
  lemma {:induction false} PlanStays(plan: seq<TaskShape>, calls: seq<Call>, id: nat)
    requires OrderedPlan(plan) && Has(plan, calls, id)
    ensures Project(plan, calls, id).id == id && Shape(Project(plan, calls, id).tasks) == plan
  {
    hide OrderedPlan, Evolves, OutcomeOf;
    var n := |calls| - 1;
    assert calls[..n] + [calls[n]] == calls;
    var w, c := After(plan, calls[..n]), calls[n];
    StepEffect(plan, calls[..n], c);
    if id in w.store {
      PlanStays(plan, calls[..n], id);
    }
    if OutcomeOf(plan, w, c).saved.Some? && Target(w, c) == id {
      EvolvesKeepsPlan(Before(plan, w, c), OutcomeOf(plan, w, c).saved.value);
    }
  }

  /** Every record of every run satisfies the invariant. */
  lemma {:induction false} AllRunsOk(plan: seq<TaskShape>, calls: seq<Call>)
    requires GoodPlan(plan)
    ensures WorldOk(plan, After(plan, calls))
  {
    hide GoodPlan, Stored, Evolves, OutcomeOf;
    GoodPlanOrdered(plan);
    if calls != [] {
      var n := |calls| - 1;
      assert calls[..n] + [calls[n]] == calls;
      AllRunsOk(plan, calls[..n]);
      StepEffect(plan, calls[..n], calls[n]);
      OutcomeOfKeeps(plan, After(plan, calls[..n]), calls[n]);
      forall id | id in After(plan, calls).store
        ensures RecordOk(plan, id, After(plan, calls).store[id])
      {
        PlanStays(plan, calls, id);
      }
    }
  }

  /******* What the invariant means *******/

  lemma ProjectOk(plan: seq<TaskShape>, calls: seq<Call>, id: nat)
    requires GoodPlan(plan) && Has(plan, calls, id)
    ensures RecordOk(plan, id, Project(plan, calls, id))
  {
    hide GoodPlan, RecordOk;
    AllRunsOk(plan, calls);
  }

  predicate ExactlyOneUndecided(approvals: seq<Approval>) {
    exists i :: 0 <= i < |approvals| && approvals[i].status == Undecided
      && forall j :: 0 <= j < |approvals| && approvals[j].status == Undecided ==> j == i
  }

  predicate SomeTaskWaits(tasks: seq<Task>) {
    exists i :: 0 <= i < |tasks| && tasks[i].status == Waiting
  }

  /** Status, tasks, approvals, reviews and the delivery checkpoint of a stored project agree. */
  lemma StatusTasksAndApprovalsAgree(plan: seq<TaskShape>, calls: seq<Call>, id: nat)
    requires GoodPlan(plan) && Has(plan, calls, id)
    ensures var v := Project(plan, calls, id);
      && v.status in {WaitingApproval, RevisionRequested, ReadyForPlanning, Completed}
      && (forall i :: 0 <= i < |v.tasks| ==> v.tasks[i].status != Started && v.tasks[i].status != Blocked)
      && (v.status == WaitingApproval <==> ExactlyOneUndecided(v.approvals))
      && (v.status == WaitingApproval <==> SomeTaskWaits(v.tasks))
      && (v.status == Completed ==> AllDone(v.tasks) && LastAccepted(v.reviews))
      && (v.status == RevisionRequested ==> HasRejected(v.approvals) || LastRefused(v.reviews))
      && (v.status == Completed <==> HasDelivery(v))
      && (HasApproved(v.approvals) ==> v.status == Completed)
      && Noted(v.checkpoints, v.id, v.approvals)
  {
    hide GoodPlan;
    ProjectOk(plan, calls, id);
    var v := Project(plan, calls, id);
    if v.status == WaitingApproval {
      var last := |v.approvals| - 1;
      assert v.approvals[last].status == Undecided;
      forall j | 0 <= j < last
        ensures v.approvals[j].status != Undecided
      {
        assert v.approvals[..last][j] == v.approvals[j];
      }
    }
  }

  lemma {:induction false} NoFilings(plan: seq<TaskShape>, calls: seq<Call>, id: nat, action: ActionType)
    ensures Filings(plan, EMPTY, Steps(calls), id, action) == 0
  {
    if calls != [] {
      var n := |calls| - 1;
      assert Steps(calls)[..n] == Steps(calls[..n]);
      NoFilings(plan, calls[..n], id, action);
    }
  }

  /** In a run the log books exactly the requests, approvals and rejections that a record holds. */
  lemma LedgerBalances(plan: seq<TaskShape>, calls: seq<Call>, id: nat, entry: LedgerEntry, action: ActionType)
    requires OrderedPlan(plan) && Has(plan, calls, id)
    ensures var v := Project(plan, calls, id);
      EventTally(v.events, entry, action) == ApprovalTally(v.approvals, entry, action)
  {
    hide OrderedPlan;
    RunsAreHistories(plan, calls);
    LedgerConserved(plan, EMPTY, Steps(calls), {}, id, entry, action);
    NoFilings(plan, calls, id, action);
  }
}
