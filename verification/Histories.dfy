/** Arbitrary histories: calls of the orchestrator mixed with approval requests of any type that others file,
    on any sound repository to start with. */
module Histories {
  import opened Prelude
  import opened Domain
  import opened Workflow
  import opened AuditLog
  import opened Calls
  import opened Soundness
  import opened SoundCalls

  /** A call, or a request that is added to a stored record without the orchestrator. */
  datatype Step = Called(call: Call) | Filed(id: nat, action: ActionType, requester: string)

  function File(v: Record, approvalId: nat, action: ActionType, requester: string): Record {
    v.(approvals := v.approvals + [Approval(approvalId, action, Undecided, requester, "")])
  }

  /** A request for a project that is not stored changes nothing. */
  function Advance(plan: seq<TaskShape>, w: World, s: Step): World {
    match s
    case Called(c) => Apply(plan, w, c)
    case Filed(id, action, requester) =>
      var saved := if id in w.store then Some(File(w.store[id], w.next + 1, action, requester)) else None;
      World(Persist(w.store, Outcome(saved, Silent)), w.next + 2)
  }

  function Reached(plan: seq<TaskShape>, start: World, steps: seq<Step>): World {
    if steps == [] then start
    else Advance(plan, Reached(plan, start, steps[..|steps| - 1]), steps[|steps| - 1])
  }

  /** The projects for which some caller vouched, when `initially` were vouched for at the start. */
  function Vouched(plan: seq<TaskShape>, start: World, steps: seq<Step>, initially: set<nat>): set<nat> {
    if steps == [] then initially
    else
      var before := steps[..|steps| - 1];
      Vouched(plan, start, before, initially) + VouchedBy(Reached(plan, start, before), steps[|steps| - 1])
  }

  function VouchedBy(w: World, s: Step): set<nat> {
    if s.Called? && Bypasses(s.call) then {Target(w, s.call)} else {}
  }

  /** How many requests of the type were filed for the project while it was stored. */
  function Filings(plan: seq<TaskShape>, start: World, steps: seq<Step>, id: nat, action: ActionType): nat {
    if steps == [] then 0
    else
      var before := steps[..|steps| - 1];
      Filings(plan, start, before, id, action) + FiledBy(Reached(plan, start, before), steps[|steps| - 1], id, action)
  }

  function FiledBy(w: World, s: Step, id: nat, action: ActionType): nat {
    if s.Filed? && s.id == id && s.action == action && id in w.store then 1 else 0
  }

  ghost predicate SoundWorld(w: World, vouched: set<nat>) {
    forall id :: id in w.store ==>
      id < w.next && w.store[id].id == id && Sound(w.store[id]) && Gated(w.store[id], id in vouched)
  }

  /******* One step *******/

  lemma FilingSound(v: Record, approvalId: nat, action: ActionType, requester: string, vouched: bool)
    requires Sound(v) && Gated(v, vouched)
    ensures var w := File(v, approvalId, action, requester);
      && Sound(w) && Gated(w, vouched) && Extends(v, w)
      && forall entry, a :: Unbooked(w, entry, a) == Unbooked(v, entry, a) + if entry.WasRequested?
        && a == action then 1 else 0
  {
    hide Lines, Linked, Replay, Authorized, StartsReady, OrderedPlan, DoneClosed;
    var w := File(v, approvalId, action, requester);
    Snoc(v.approvals, w.approvals[|v.approvals|]);
    ApprovedStay(v.approvals, w.approvals);
  }

  /** A call changes at most its own project, which exists then, and starts from the record before it. */
  lemma CallStep(plan: seq<TaskShape>, w: World, c: Call, vouched: set<nat>)
    requires OrderedPlan(plan) && SoundWorld(w, vouched)
    ensures var o := OutcomeOf(plan, w, c); var target := Target(w, c);
      && (o.saved.Some? ==>
            && o.saved.value.id == target
            && (!c.StartProject? ==> target in w.store)
            && Follows(Before(plan, w, c), o.saved.value, target in vouched || Bypasses(c)))
      && Apply(plan, w, c).store == if o.saved.Some? then w.store[target := o.saved.value] else w.store
  {
    hide OrderedPlan, Sound, Gated, OutcomeOn, Run, PreApproves;
    var o := OutcomeOf(plan, w, c);
    if c.StartProject? {
      RunSound(w.next, c.policy, plan, c.launch, c.inputs, c.simulateFailure, w.next + 1);
      if o.saved.Some? {
        GateWidens(o.saved.value, PreApproves(c.inputs), w.next in vouched || Bypasses(c));
      }
    } else if c.id in w.store {
      CallSound(w.store[c.id], c, w.next + 1, c.id in vouched);
    }
  }

  lemma GateWidens(v: Record, vouched: bool, more: bool)
    requires Gated(v, vouched) && (vouched ==> more)
    ensures Gated(v, more)
  {
  }

  lemma DraftUnbooked(id: nat, policy: ProjectPolicy, plan: seq<TaskShape>, entry: LedgerEntry, action: ActionType)
    ensures Unbooked(Drafted(id, policy, plan), entry, action) == 0
  {
  }

  /** What a step does to the stored projects. */
  lemma StepSound(plan: seq<TaskShape>, w: World, s: Step, vouched: set<nat>)
    requires OrderedPlan(plan) && SoundWorld(w, vouched)
    ensures SoundWorld(Advance(plan, w, s), vouched + VouchedBy(w, s))
    ensures forall id :: id in w.store ==>
      id in Advance(plan, w, s).store && Extends(w.store[id], Advance(plan, w, s).store[id])
  {
    hide OrderedPlan, Sound, Gated, OutcomeOf, PreApproves, Extends, SameLedger, Unbooked;
    forall id | id in w.store
      ensures Extends(w.store[id], w.store[id])
      ensures Gated(w.store[id], id in vouched + VouchedBy(w, s))
    {
      EvolvesReflexive(w.store[id]);
      GateWidens(w.store[id], id in vouched, id in vouched + VouchedBy(w, s));
    }
    match s
    case Called(c) =>
      CallStep(plan, w, c, vouched);
    case Filed(id, action, requester) =>
      if id in w.store {
        FilingSound(w.store[id], w.next + 1, action, requester, id in vouched);
        FileKeepsId(w.store[id], w.next + 1, action, requester);
      }
  }

  lemma FileKeepsId(v: Record, approvalId: nat, action: ActionType, requester: string)
    ensures File(v, approvalId, action, requester).id == v.id
  {
  }

  /** What the record of a project holds beyond its log, zero before the project exists. */
  function Surplus(w: World, id: nat, entry: LedgerEntry, action: ActionType): int {
    if id in w.store then Unbooked(w.store[id], entry, action) else 0
  }

  lemma StepBooks(plan: seq<TaskShape>, w: World, s: Step, vouched: set<nat>, id: nat, entry: LedgerEntry,
                  action: ActionType)
    requires OrderedPlan(plan) && SoundWorld(w, vouched)
    ensures Surplus(Advance(plan, w, s), id, entry, action) ==
      Surplus(w, id, entry, action) + if entry.WasRequested? then FiledBy(w, s, id, action) else 0
  {
    hide OrderedPlan, Sound, Gated, OutcomeOf, PreApproves, Extends, Unbooked;
    match s
    case Called(c) =>
      CallStep(plan, w, c, vouched);
      if c.StartProject? {
        DraftUnbooked(w.next, c.policy, plan, entry, action);
      }
    case Filed(filed, filedAction, requester) =>
      if filed in w.store {
        FilingSound(w.store[filed], w.next + 1, filedAction, requester, filed in vouched);
      }
  }

  /******* Every history *******/

  lemma {:induction false} ReachedSound(plan: seq<TaskShape>, start: World, steps: seq<Step>, vouched: set<nat>)
    requires OrderedPlan(plan) && SoundWorld(start, vouched)
    ensures SoundWorld(Reached(plan, start, steps), Vouched(plan, start, steps, vouched))
  {
    hide OrderedPlan, SoundWorld, Advance, VouchedBy;
    if steps != [] {
      var before := steps[..|steps| - 1];
      ReachedSound(plan, start, before, vouched);
      StepSound(plan, Reached(plan, start, before), steps[|steps| - 1], Vouched(plan, start, before, vouched));
    }
  }

  lemma ProjectSound(plan: seq<TaskShape>, start: World, steps: seq<Step>, vouched: set<nat>, id: nat)
    requires OrderedPlan(plan) && SoundWorld(start, vouched) && id in Reached(plan, start, steps).store
    ensures var v := Reached(plan, start, steps).store[id];
      v.id == id && Sound(v) && Gated(v, id in Vouched(plan, start, steps, vouched))
  {
    hide OrderedPlan, Sound, Gated;
    ReachedSound(plan, start, steps, vouched);
  }

  /** Done tasks are closed under dependencies, and no task was ever started before its dependencies were done. */
  lemma DependenciesRespected(plan: seq<TaskShape>, start: World, steps: seq<Step>, vouched: set<nat>, id: nat)
    requires OrderedPlan(plan) && SoundWorld(start, vouched) && id in Reached(plan, start, steps).store
    ensures var v := Reached(plan, start, steps).store[id];
      DoneClosed(v.tasks) && StartsReady(Shape(v.tasks), v.events)
  {
    hide OrderedPlan, Gated;
    ProjectSound(plan, start, steps, vouched, id);
  }

  lemma {:induction false} StartsReadyAt(plan: seq<TaskShape>, es: seq<Event>, k: nat)
    requires StartsReady(plan, es) && k < |es| && es[k].kind.TaskStatusChanged? && es[k].kind.after == Started
    ensures DependenciesDone(plan, es[k].kind.taskId, Replay(plan, es[..k]))
  {
    if k < |es| - 1 {
      StartsReadyAt(plan, es[..|es| - 1], k);
      assert es[..|es| - 1][..k] == es[..k];
    }
  }

  /** The log replays to the record: statuses from the transition events, task statuses from the task events. */
  lemma LogReplays(plan: seq<TaskShape>, start: World, steps: seq<Step>, vouched: set<nat>, id: nat)
    requires OrderedPlan(plan) && SoundWorld(start, vouched) && id in Reached(plan, start, steps).store
    ensures var v := Reached(plan, start, steps).store[id]; var statuses := Replay(Shape(v.tasks), v.events);
      && v.history == Lines(v.events) && Linked(v.history, v.status)
      && statuses.Some?
      && forall i :: 0 <= i < |v.tasks| ==>
           v.tasks[i].id in statuses.value && statuses.value[v.tasks[i].id] == v.tasks[i].status
  {
    hide OrderedPlan, Gated;
    ProjectSound(plan, start, steps, vouched, id);
  }

  /** An artifact of an external provider needs an approved external action, or a caller who vouched for it. */
  lemma ExternalGate(plan: seq<TaskShape>, start: World, steps: seq<Step>, vouched: set<nat>, id: nat)
    requires OrderedPlan(plan) && SoundWorld(start, vouched) && id in Reached(plan, start, steps).store
    requires HasExternalArtifact(Reached(plan, start, steps).store[id])
    ensures id in Vouched(plan, start, steps, vouched)
      || ExternalApiSend in TypesWith(Reached(plan, start, steps).store[id].approvals, Approved)
  {
    hide OrderedPlan, Sound;
    ProjectSound(plan, start, steps, vouched, id);
  }

  /** Without a pre-approving call anywhere, nobody vouches for anything. */
  lemma {:induction false} NoBypass(plan: seq<TaskShape>, start: World, steps: seq<Step>, vouched: set<nat>)
    requires forall s :: s in steps && s.Called? ==> !Bypasses(s.call)
    ensures Vouched(plan, start, steps, vouched) == vouched
  {
    if steps != [] {
      NoBypass(plan, start, steps[..|steps| - 1], vouched);
    }
  }

  /** Each decision follows a grant of the same action to the same actor, whom the policy admits and who is
      no viewer. */
  lemma DecisionsAuthorized(plan: seq<TaskShape>, start: World, steps: seq<Step>, vouched: set<nat>, id: nat, k: nat,
                            action: ActionType)
    requires OrderedPlan(plan) && SoundWorld(start, vouched) && id in Reached(plan, start, steps).store
    requires k < |Reached(plan, start, steps).store[id].events|
    requires Decides(Reached(plan, start, steps).store[id].events[k].kind, action)
    ensures var v := Reached(plan, start, steps).store[id];
      && (exists j :: 0 <= j < k && v.events[j] == Event(AuthorizationGranted(action), v.events[k].actor))
      && Admits(v.policy, action, v.events[k].actor) && v.events[k].actor.role != Viewer
  {
    hide OrderedPlan, Gated;
    ProjectSound(plan, start, steps, vouched, id);
    var v := Reached(plan, start, steps).store[id];
    DecisionsAreAdmitted(v.policy, v.events, k, action);
  }

  /** Every decided approval names an actor who decided it in the log, with a grant that the policy admits. */
  lemma ApprovalsAttributed(plan: seq<TaskShape>, start: World, steps: seq<Step>, vouched: set<nat>, id: nat, i: nat)
    requires OrderedPlan(plan) && SoundWorld(start, vouched) && id in Reached(plan, start, steps).store
    requires i < |Reached(plan, start, steps).store[id].approvals|
    requires Reached(plan, start, steps).store[id].approvals[i].status != Undecided
    ensures var v := Reached(plan, start, steps).store[id]; var approval := v.approvals[i];
      exists k :: 0 <= k < |v.events| && v.events[k].actor.id == approval.requestedBy
        && Settled(approval, v.events[k].kind)
        && Admits(v.policy, approval.action, v.events[k].actor) && v.events[k].actor.role != Viewer
  {
    hide OrderedPlan, Gated, Admits, Reached;
    ProjectSound(plan, start, steps, vouched, id);
    var v := Reached(plan, start, steps).store[id];
    var approval := v.approvals[i];
    assert HasDecision(approval, v.events);
    var k :| 0 <= k < |v.events| && v.events[k].actor.id == approval.requestedBy && Settled(approval, v.events[k].kind);
    DecisionsAreAdmitted(v.policy, v.events, k, approval.action);
  }

  /** Beyond what it held at the start, a record holds exactly the requests and decisions that its log books,
      and the requests that were filed without the orchestrator. */
  lemma {:induction false} LedgerConserved(plan: seq<TaskShape>, start: World, steps: seq<Step>, vouched: set<nat>,
                                           id: nat, entry: LedgerEntry, action: ActionType)
    requires OrderedPlan(plan) && SoundWorld(start, vouched)
    ensures Surplus(Reached(plan, start, steps), id, entry, action) ==
      Surplus(start, id, entry, action) + if entry.WasRequested? then Filings(plan, start, steps, id, action) else 0
  {
    hide OrderedPlan, SoundWorld, Advance, Surplus, FiledBy;
    if steps != [] {
      var before := steps[..|steps| - 1];
      LedgerConserved(plan, start, before, vouched, id, entry, action);
      ReachedSound(plan, start, before, vouched);
      StepBooks(plan, Reached(plan, start, before), steps[|steps| - 1], Vouched(plan, start, before, vouched), id,
        entry, action);
    }
  }

  /** A project stays, its log only grows, its decisions are final, and a rejected type gains no approval. */
  lemma {:induction false} ProjectsExtend(plan: seq<TaskShape>, start: World, steps: seq<Step>, vouched: set<nat>,
                                          id: nat)
    requires OrderedPlan(plan) && SoundWorld(start, vouched) && id in start.store
    ensures id in Reached(plan, start, steps).store && Extends(start.store[id], Reached(plan, start, steps).store[id])
  {
    hide OrderedPlan, SoundWorld, Extends, Advance;
    if steps == [] {
      EvolvesReflexive(start.store[id]);
    } else {
      var before := steps[..|steps| - 1];
      ProjectsExtend(plan, start, before, vouched, id);
      ReachedSound(plan, start, before, vouched);
      var w := Reached(plan, start, before);
      StepSound(plan, w, steps[|steps| - 1], Vouched(plan, start, before, vouched));
      ExtendsTransitive(start.store[id], w.store[id], Reached(plan, start, steps).store[id]);
    }
  }
}
