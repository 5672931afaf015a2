/** The orchestrator as the program runs it: records updated in place, snapshots in a repository. */
module Orchestrators {
  import opened Prelude
  import opened Domain
  import opened Calls
  import opened Histories
  import opened Runs
  import opened ApprovalPolicies
  import Spec = Workflow
  import Plans
  import Graph
  import Rules = ApprovalRules
  import Text

  /** A project record in the hands of an operation. */
  class ProjectRecord {
    const id: nat
    const policy: ProjectPolicy
    var status: ProjectStatus
    var tasks: seq<Task>
    var artifacts: seq<Artifact>
    var reviews: seq<ReviewNote>
    var checkpoints: seq<Checkpoint>
    var approvals: seq<Approval>
    var history: seq<HistoryLine>
    var events: seq<Event>

    constructor (v: Record)
      ensures Value() == v
    {
      id, policy, status := v.id, v.policy, v.status;
      tasks, artifacts, reviews := v.tasks, v.artifacts, v.reviews;
      checkpoints, approvals := v.checkpoints, v.approvals;
      history, events := v.history, v.events;
    }

    function Value(): Record
      reads this
    {
      Record(id, policy, status, tasks, artifacts, reviews, checkpoints, approvals, history, events)
    }
  }

  class InMemoryProjectRepository {
    var store: map<nat, ProjectRecord>

    constructor ()
      ensures Contents() == map[]
    {
      store := map[];
    }

    function Contents(): map<nat, Record>
      reads this, store.Values
    {
      map id | id in store :: store[id].Value()
    }

    /** A deep copy: later changes to either record do not show in the other. */
    method Snapshot(record: ProjectRecord) returns (copy: ProjectRecord)
      ensures fresh(copy) && copy.Value() == record.Value()
    {
      copy := new ProjectRecord(record.Value());
    }

    method Save(record: ProjectRecord)
      modifies this
      ensures Contents() == old(Contents())[record.id := record.Value()]
      ensures forall r :: r in store.Values ==> r in old(store.Values) || fresh(r)
    {
      var copy := Snapshot(record);
      store := store[record.id := copy];
    }

    method Get(id: nat) returns (found: ProjectRecord?)
      ensures found == null <==> id !in Contents()
      ensures found != null ==> fresh(found) && found.Value() == Contents()[id]
    {
      if id !in store {
        return null;
      }
      found := Snapshot(store[id]);
    }
  }

  lemma IndexOfIs<T, K>(xs: seq<T>, key: T -> K, wanted: K, k: nat)
    requires k <= |xs|
    requires forall i :: 0 <= i < k ==> key(xs[i]) != wanted
    requires k < |xs| ==> key(xs[k]) == wanted
    ensures Spec.IndexOf(xs, key, wanted) == k
  {
  }

  /** What one pass over the approvals collects. */
  datatype ApprovalActionState = ApprovalActionState(
    known: set<ActionType>, approved: set<ActionType>, rejected: set<ActionType>, undecided: set<ActionType>)

  function StateOf(approvals: seq<Approval>): ApprovalActionState {
    ApprovalActionState(Spec.KnownTypes(approvals), Spec.TypesWith(approvals, Approved),
      Spec.TypesWith(approvals, Rejected), Spec.TypesWith(approvals, Undecided))
  }

  lemma StateOfSnoc(approvals: seq<Approval>, a: Approval)
    ensures StateOf(approvals + [a]) ==
      var s := StateOf(approvals);
      ApprovalActionState(s.known + {a.action},
        if a.status == Approved then s.approved + {a.action} else s.approved,
        if a.status == Rejected then s.rejected + {a.action} else s.rejected,
        if a.status == Undecided then s.undecided + {a.action} else s.undecided)
  {
  }

  class PMOrchestrator {
    const repository: InMemoryProjectRepository
    const approvalPolicy: ApprovalPolicy
    var nextUuid: nat

    constructor (repository: InMemoryProjectRepository, approvalPolicy: ApprovalPolicy)
      ensures this.repository == repository && nextUuid == 0
    {
      this.repository, this.approvalPolicy, nextUuid := repository, approvalPolicy, 0;
    }

    ghost function World(): World
      reads this, repository, repository.store.Values
    {
      Calls.World(repository.Contents(), nextUuid)
    }

    /******* Single changes *******/

    method RecordEvent(record: ProjectRecord, kind: EventKind, actor: Actor)
      modifies record
      ensures record.Value() == Spec.RecordEvent(old(record.Value()), kind, actor)
    {
      record.events := record.events + [Event(kind, actor)];
    }

    method Transition(record: ProjectRecord, next: ProjectStatus, actor: Actor) returns (failure: Option<Error>)
      modifies record
      ensures match Spec.Transition(old(record.Value()), next, actor)
              case Ok(v) => failure.None? && record.Value() == v
              case Err(error) => failure == Some(error) && record.Value() == old(record.Value())
    {
      var current := record.status;
      if current == next {
        return None;
      }
      if !Graph.CanTransition(current, next) {
        return Some(InvalidTransition(current, next));
      }
      record.history := record.history + [HistoryLine(current, next)];
      record.status := next;
      RecordEvent(record, StateTransition(current, next), actor);
      return None;
    }

    method SetTaskStatus(record: ProjectRecord, i: nat, next: TaskStatus, actor: Actor)
      requires i < |record.tasks|
      modifies record
      ensures record.Value() == Spec.SetTaskStatus(old(record.Value()), i, next, actor)
    {
      var task := record.tasks[i];
      if task.status == next {
        return;
      }
      record.tasks := record.tasks[i := task.(status := next)];
      RecordEvent(record, TaskStatusChanged(task.id, task.status, next), actor);
    }

    method UpsertArtifact(record: ProjectRecord, artifact: Artifact)
      modifies record
      ensures record.Value() == old(record.Value()).(artifacts :=
        Spec.Upsert(old(record.artifacts), Spec.ArtifactId, artifact))
    {
      for i := 0 to |record.artifacts|
        invariant record.Value() == old(record.Value())
        invariant forall j :: 0 <= j < i ==> Spec.ArtifactId(record.artifacts[j]) != artifact.id
      {
        if record.artifacts[i].id == artifact.id {
          IndexOfIs(record.artifacts, Spec.ArtifactId, artifact.id, i);
          record.artifacts := record.artifacts[i := artifact];
          return;
        }
      }
      IndexOfIs(record.artifacts, Spec.ArtifactId, artifact.id, |record.artifacts|);
      record.artifacts := record.artifacts + [artifact];
    }

    method UpsertCheckpoint(record: ProjectRecord, checkpoint: Checkpoint)
      modifies record
      ensures record.Value() == old(record.Value()).(checkpoints :=
        Spec.Upsert(old(record.checkpoints), Spec.CheckpointKey, checkpoint))
    {
      for i := 0 to |record.checkpoints|
        invariant record.Value() == old(record.Value())
        invariant forall j :: 0 <= j < i ==> Spec.CheckpointKey(record.checkpoints[j]) != checkpoint.id
      {
        if record.checkpoints[i].id == checkpoint.id {
          IndexOfIs(record.checkpoints, Spec.CheckpointKey, checkpoint.id, i);
          record.checkpoints := record.checkpoints[i := checkpoint];
          return;
        }
      }
      IndexOfIs(record.checkpoints, Spec.CheckpointKey, checkpoint.id, |record.checkpoints|);
      record.checkpoints := record.checkpoints + [checkpoint];
    }

    method UpdateApprovalCheckpoint(record: ProjectRecord, approved: bool, approver: string, note: string)
      modifies record
      ensures record.Value() == Spec.UpdateApprovalCheckpoint(old(record.Value()), approved, approver, note)
    {
      var checkpointId := ApprovalOf(record.id);
      for i := 0 to |record.checkpoints|
        invariant record.Value() == old(record.Value())
        invariant forall j :: 0 <= j < i ==> Spec.CheckpointKey(record.checkpoints[j]) != checkpointId
      {
        if record.checkpoints[i].id == checkpointId {
          IndexOfIs(record.checkpoints, Spec.CheckpointKey, checkpointId, i);
          var updated := record.checkpoints[i].(approved := approved, approver := approver, note := note);
          record.checkpoints := record.checkpoints[i := updated];
          return;
        }
      }
      IndexOfIs(record.checkpoints, Spec.CheckpointKey, checkpointId, |record.checkpoints|);
    }

    /******* Arguments and approval states *******/

    method ParseApprovedActions(inputs: seq<ActionInput>) returns (result: Result<set<ActionType>, Error>)
      ensures result == Spec.ParseActions(inputs)
    {
      var parsed := {};
      for i := 0 to |inputs|
        invariant forall input :: input in inputs[..i] ==> Spec.ParsedAction(input).Some?
        invariant parsed == set input | input in inputs[..i] :: Spec.ParsedAction(input).value
      {
        assert inputs[..i + 1] == inputs[..i] + [inputs[i]];
        var action := Spec.ParsedAction(inputs[i]);
        if action.None? {
          assert inputs[i] in inputs;
          return Err(UnsupportedAction);
        }
        parsed := parsed + {action.value};
      }
      assert inputs[..|inputs|] == inputs;
      return Ok(parsed);
    }

    method ComputeApprovalActionState(record: ProjectRecord) returns (state: ApprovalActionState)
      ensures state == StateOf(record.approvals)
    {
      var known, approved, rejected, undecided := {}, {}, {}, {};
      for i := 0 to |record.approvals|
        invariant ApprovalActionState(known, approved, rejected, undecided) == StateOf(record.approvals[..i])
      {
        var approval := record.approvals[i];
        StateOfSnoc(record.approvals[..i], approval);
        assert record.approvals[..i + 1] == record.approvals[..i] + [approval];
        known := known + {approval.action};
        match approval.status {
          case Approved => approved := approved + {approval.action};
          case Rejected => rejected := rejected + {approval.action};
          case Undecided => undecided := undecided + {approval.action};
        }
      }
      assert record.approvals[..|record.approvals|] == record.approvals;
      return ApprovalActionState(known, approved, rejected, undecided);
    }

    lemma UndecidedTypes(approvals: seq<Approval>)
      ensures Spec.HasUndecided(approvals) <==> Spec.TypesWith(approvals, Undecided) != {}
    {
      if a :| a in approvals && a.status == Undecided {
        assert a.action in Spec.TypesWith(approvals, Undecided);
      }
    }

    /******* Authorization *******/

    /** Logs the verdict on every action; the first denial is saved and stops the operation. */
    method AuthorizeActionsOrRaise(record: ProjectRecord, actor: Actor, actions: set<ActionType>,
                                   overrides: RuntimeOverride)
        returns (denied: Option<ActionType>)
      requires record !in repository.store.Values
      modifies record, repository
      ensures var r := Spec.AuthorizeAll(old(record.Value()), actor, Spec.ActionsInOrder(actions), overrides);
        && record.Value() == r.record && denied == r.denied
        && repository.Contents() == (if denied.Some? then old(repository.Contents())[record.id := r.record]
          else old(repository.Contents()))
      ensures record !in repository.store.Values
    {
      hide InMemoryProjectRepository.Contents, Rules.Authorize, Spec.ActionsInOrder;
      var ordered := Spec.ActionsInOrder(actions);
      assert ordered[0..] == ordered;
      for i := 0 to |ordered|
        invariant Spec.AuthorizeAll(record.Value(), actor, ordered[i..], overrides)
               == Spec.AuthorizeAll(old(record.Value()), actor, ordered, overrides)
        invariant repository.Contents() == old(repository.Contents()) && record !in repository.store.Values
      {
        var action := ordered[i];
        assert ordered[i..][0] == action && ordered[i..][1..] == ordered[i + 1..];
        var decision := approvalPolicy.AuthorizeAction(action, actor, record.policy, overrides);
        if decision.effective.overrideApplied {
          RecordEvent(record, PolicyOverrideApplied(action), actor);
        }
        if !decision.allowed {
          RecordEvent(record, AuthorizationFailed(action), actor);
          repository.Save(record);
          return Some(action);
        }
        RecordEvent(record, AuthorizationGranted(action), actor);
      }
      return None;
    }

    /******* Loops over tasks and approvals *******/

    method MoveTasks(record: ProjectRecord, which: Spec.Selection, next: TaskStatus, note: string, actor: Actor)
      modifies record
      ensures record.Value() == Spec.MoveTasks(old(record.Value()), 0, which, next, note, actor)
    {
      ghost var target := Spec.MoveTasks(record.Value(), 0, which, next, note, actor);
      var n := |record.tasks|;
      for i := 0 to n
        invariant |record.tasks| == n
        invariant Spec.MoveTasks(record.Value(), i, which, next, note, actor) == target
      {
        if Spec.Selects(which, record.tasks[i]) {
          SetTaskStatus(record, i, next, actor);
          if note != "" {
            record.tasks := record.tasks[i := record.tasks[i].(note := note)];
          }
        }
      }
    }

    method ApprovePending(record: ProjectRecord, actions: set<ActionType>, actor: Actor, note: string)
      modifies record
      ensures record.Value() == Spec.ApproveFrom(old(record.Value()), 0, actions, actor, note)
    {
      ghost var target := Spec.ApproveFrom(record.Value(), 0, actions, actor, note);
      var n := |record.approvals|;
      for i := 0 to n
        invariant |record.approvals| == n
        invariant Spec.ApproveFrom(record.Value(), i, actions, actor, note) == target
      {
        var approval := record.approvals[i];
        if approval.status == Undecided && approval.action in actions {
          UpdateApprovalCheckpoint(record, true, actor.id, if note != "" then note else Spec.DEFAULT_APPROVAL_NOTE);
          record.approvals := record.approvals[i := approval.(status := Approved, requestedBy := actor.id,
            decisionNote := note)];
          RecordEvent(record, ApprovalApproved(approval.action), actor);
        }
      }
    }

    method RejectPending(record: ProjectRecord, named: set<ActionType>, actor: Actor, reason: string, note: string)
      modifies record
      ensures record.Value() == Spec.RejectFrom(old(record.Value()), 0, named, actor, reason, note)
    {
      ghost var target := Spec.RejectFrom(record.Value(), 0, named, actor, reason, note);
      var n := |record.approvals|;
      for i := 0 to n
        invariant |record.approvals| == n
        invariant Spec.RejectFrom(record.Value(), i, named, actor, reason, note) == target
      {
        var approval := record.approvals[i];
        if approval.status == Undecided {
          var decisionNote := Spec.Compose(reason, note);
          record.approvals := record.approvals[i := approval.(status := Rejected, requestedBy := actor.id,
            decisionNote := decisionNote)];
          RecordEvent(record, ApprovalRejected(approval.action, approval.action !in named), actor);
          UpdateApprovalCheckpoint(record, false, actor.id, decisionNote);
        }
      }
    }

    /******* Execution *******/

    method PauseForApproval(record: ProjectRecord, i: nat, actor: Actor,
                            approvalId: nat) returns (failure: Option<Error>)
      requires i < |record.tasks|
      modifies record
      ensures match Spec.Pause(old(record.Value()), i, actor, approvalId)
              case Ok(v) => failure.None? && record.Value() == v
              case Err(error) => failure == Some(error)
    {
      hide Spec.Upsert, Spec.Transition, Spec.SetTaskStatus;
      ghost var before := record.Value();
      SetTaskStatus(record, i, Waiting, actor);
      var state := ComputeApprovalActionState(record);
      if ExternalApiSend !in state.undecided {
        var request := approvalPolicy.CreateRequest(ExternalApiSend, approvalId, Some(SYSTEM_ACTOR));
        record.approvals := record.approvals + [request];
        RecordEvent(record, ApprovalRequested(ExternalApiSend), SYSTEM_ACTOR);
      }
      UpsertCheckpoint(record, Checkpoint(ApprovalOf(record.id), false, "human", Spec.ANALYSIS_REQUEST));
      failure := Transition(record, WaitingApproval, actor);
    }

    method FinishExecution(record: ProjectRecord, reviewRan: bool, reviewFailed: bool,
                           actor: Actor) returns (failure: Option<Error>)
      modifies record
      ensures match Spec.Finish(old(record.Value()), VerdictOf(reviewRan, reviewFailed), actor)
              case Ok(v) => failure.None? && record.Value() == v
              case Err(error) => failure == Some(error)
    {
      hide Spec.Upsert, Spec.Transition;
      if reviewRan && reviewFailed {
        failure := Transition(record, ReviewFailed, actor);
        if failure.Some? {
          return;
        }
        failure := Transition(record, RevisionRequested, actor);
        if failure.Some? {
          return;
        }
        RecordEvent(record, RevisionWasRequested, actor);
      } else {
        UpsertCheckpoint(record, Checkpoint(DeliveryOf(record.id), true, "system", Spec.DELIVERY_NOTE));
        failure := Transition(record, Completed, actor);
      }
    }

    static function VerdictOf(reviewRan: bool, reviewFailed: bool): Option<Verdict> {
      if !reviewRan then None else Some(if reviewFailed then ChangesRequested else Accepted)
    }

    method WorkOn(record: ProjectRecord, i: nat, provider: Provider, simulateFailure: bool,
                  actor: Actor) returns (failed: bool)
      requires i < |record.tasks|
      modifies record
      ensures record.Value() ==
        var v := old(record.Value());
        Spec.SetTaskStatus(Spec.Perform(v, old(record.tasks[i]), provider, simulateFailure), i, Done, actor)
      ensures failed <==>
        Spec.ReviewOf(old(record.tasks[i]), old(record.artifacts), simulateFailure).verdict == ChangesRequested
    {
      var task := record.tasks[i];
      failed := record.artifacts == [] || simulateFailure;
      if task.department == Review {
        record.reviews := record.reviews + [Spec.ReviewOf(task, record.artifacts, simulateFailure)];
      } else {
        UpsertArtifact(record, Spec.ProducedArtifact(task, provider));
      }
      SetTaskStatus(record, i, Done, actor);
    }

    method PauseAndSave(record: ProjectRecord, i: nat, actor: Actor, approvalId: nat) returns (answer: Spec.Answer)
      requires i < |record.tasks| && record !in repository.store.Values
      modifies record, repository
      ensures var o := Spec.Commit(Spec.Pause(old(record.Value()), i, actor, approvalId));
        && answer == o.answer
        && repository.Contents() == Spec.Persist(old(repository.Contents()), o)
    {
      hide InMemoryProjectRepository.Contents, Spec.Pause;
      var failure := PauseForApproval(record, i, actor, approvalId);
      if failure.Some? {
        return Spec.Raised(failure.value);
      }
      repository.Save(record);
      return Spec.Summary(record.Value());
    }

    method FinishAndSave(record: ProjectRecord, reviewRan: bool, reviewFailed: bool,
                         actor: Actor) returns (answer: Spec.Answer)
      requires record !in repository.store.Values
      modifies record, repository
      ensures var o := Spec.Commit(Spec.Finish(old(record.Value()), VerdictOf(reviewRan, reviewFailed), actor));
        && answer == o.answer
        && repository.Contents() == Spec.Persist(old(repository.Contents()), o)
    {
      hide InMemoryProjectRepository.Contents, Spec.Finish;
      var failure := FinishExecution(record, reviewRan, reviewFailed, actor);
      if failure.Some? {
        return Spec.Raised(failure.value);
      }
      repository.Save(record);
      return Spec.Summary(record.Value());
    }

    method ExecutePendingTasks(record: ProjectRecord, launch: Spec.Launch, approved: set<ActionType>,
                               simulateFailure: bool, actor: Actor, approvalId: nat) returns (answer: Spec.Answer)
      requires record !in repository.store.Values
      modifies record, repository
      ensures var o := Spec.Execute(old(record.Value()), launch, approved, simulateFailure, actor, approvalId);
        && answer == o.answer
        && repository.Contents() == Spec.Persist(old(repository.Contents()), o)
    {
      hide InMemoryProjectRepository.Contents;
      hide Spec.SetTaskStatus, Spec.Perform, Spec.Pause, Spec.Finish, Spec.ResolveProvider, Spec.MustWait;
      hide Spec.ReviewOf;
      var resolved := Spec.ResolveProvider(launch);
      if resolved.None? {
        return Spec.Raised(UnsupportedProvider);
      }
      var provider := resolved.value;
      ghost var target := Spec.RunTasks(record.Value(), 0, provider, approved, simulateFailure, actor, None);
      var reviewRan, reviewFailed := false, false;
      var i := 0;
      while i < |record.tasks|
        invariant 0 <= i <= |record.tasks|
        invariant Spec.RunTasks(record.Value(), i, provider, approved, simulateFailure, actor, VerdictOf(reviewRan,
          reviewFailed)) == target
        invariant repository.Contents() == old(repository.Contents()) && record !in repository.store.Values
        decreases |record.tasks| - i
      {
        var task := record.tasks[i];
        if task.status != Done {
          ghost var n := |record.tasks|;
          StartKeepsTask(record.Value(), i, provider, simulateFailure, actor);
          SetTaskStatus(record, i, Started, actor);
          if Spec.MustWait(task, provider, approved) {
            answer := PauseAndSave(record, i, actor, approvalId);
            return;
          }
          var failed := WorkOn(record, i, provider, simulateFailure, actor);
          if task.department == Review {
            reviewRan, reviewFailed := true, failed;
          }
        }
        i := i + 1;
      }
      answer := FinishAndSave(record, reviewRan, reviewFailed, actor);
    }

    /** The start of a task changes its status only, so its work may be described by the task before or after. */
    lemma StartKeepsTask(v: Record, i: nat, provider: Provider, simulateFailure: bool, actor: Actor)
      requires i < |v.tasks|
      ensures var w := Spec.SetTaskStatus(v, i, Started, actor);
        && |w.tasks| == |v.tasks| && w.tasks[i] == v.tasks[i].(status := Started) && w.artifacts == v.artifacts
        && Spec.Perform(w, w.tasks[i], provider, simulateFailure) ==
          Spec.Perform(w, v.tasks[i], provider, simulateFailure)
        && Spec.ReviewOf(w.tasks[i], w.artifacts, simulateFailure) ==
          Spec.ReviewOf(v.tasks[i], v.artifacts, simulateFailure)
      ensures |Spec.WorkOn(v, i, provider, simulateFailure, actor).tasks| == |v.tasks|
    {
    }

    method ExecuteParsed(record: ProjectRecord, launch: Spec.Launch, inputs: seq<ActionInput>, actor: Actor,
                         approvalId: nat)
        returns (answer: Spec.Answer)
      requires record !in repository.store.Values
      modifies record, repository
      ensures var o := Spec.ExecuteWith(old(record.Value()), launch, inputs, false, actor, approvalId);
        && answer == o.answer
        && repository.Contents() == Spec.Persist(old(repository.Contents()), o)
    {
      hide Spec.Execute, Spec.ParseActions;
      var parsed := ParseApprovedActions(inputs);
      if parsed.Err? {
        return Spec.Raised(parsed.error);
      }
      answer := ExecutePendingTasks(record, launch, parsed.value, false, actor, approvalId);
    }

    /******* Public operations *******/

    method Run(policy: ProjectPolicy, launch: Spec.Launch, inputs: seq<ActionInput>, simulateFailure: bool)
        returns (answer: Spec.Answer)
      modifies this, repository
      ensures var c := StartProject(policy, launch, inputs, simulateFailure);
        && answer == OutcomeOf(Plans.BuildPlan(), old(World()), c).answer
        && World() == Apply(Plans.BuildPlan(), old(World()), c)
    {
      hide InMemoryProjectRepository.Contents, Spec.Execute, Spec.ParseActions, Spec.Transition, Plans.BuildPlan;
      hide Spec.Drafted;
      var id := nextUuid;
      nextUuid := nextUuid + 2;
      var record := new ProjectRecord(Spec.Drafted(id, policy, Plans.BuildPlan()));
      var parsed := ParseApprovedActions(inputs);
      if parsed.Err? {
        return Spec.Raised(parsed.error);
      }
      var failure := Transition(record, IntakePending, SYSTEM_ACTOR);
      if failure.Some? {
        return Spec.Raised(failure.value);
      }
      failure := Transition(record, ReadyForPlanning, SYSTEM_ACTOR);
      if failure.Some? {
        return Spec.Raised(failure.value);
      }
      failure := Transition(record, InProgress, SYSTEM_ACTOR);
      if failure.Some? {
        return Spec.Raised(failure.value);
      }
      answer := ExecutePendingTasks(record, launch, parsed.value, simulateFailure, SYSTEM_ACTOR, id + 1);
    }

    method RecordAuthenticationSuccess(id: nat, actor: Actor)
      modifies this, repository
      ensures World() == Apply(Plans.BuildPlan(), old(World()), SuccessCall(id, actor))
    {
      hide InMemoryProjectRepository.Contents, Plans.BuildPlan;
      nextUuid := nextUuid + 2;
      var record := repository.Get(id);
      if record == null {
        return;
      }
      RecordEvent(record, AuthenticationSucceeded, actor);
      RecordEvent(record, ActorResolved, actor);
      repository.Save(record);
    }

    method RecordAuthenticationFailure(id: nat)
      modifies this, repository
      ensures World() == Apply(Plans.BuildPlan(), old(World()), FailureCall(id))
    {
      hide InMemoryProjectRepository.Contents, Plans.BuildPlan;
      nextUuid := nextUuid + 2;
      var record := repository.Get(id);
      if record == null {
        return;
      }
      RecordEvent(record, AuthenticationFailed, Spec.ANONYMOUS);
      repository.Save(record);
    }

    method IdempotentResumeFromApprovalIfCompleted(record: ProjectRecord,
                                                   requested: set<ActionType>) returns (answer: Spec.Answer)
      requires requested != {}
      ensures answer == Spec.ResumeCompleted(record.Value(), requested).answer
    {
      var state := ComputeApprovalActionState(record);
      UndecidedTypes(record.approvals);
      if state.known == {} {
        return Spec.Raised(InvalidState(WaitingApproval, record.status));
      }
      var error := Spec.ValidateRequest(requested, record.approvals);
      if error.Some? {
        return Spec.Raised(error.value);
      }
      if state.undecided == {} && requested <= state.approved {
        return Spec.Summary(record.Value());
      }
      return Spec.Raised(InvalidState(WaitingApproval, record.status));
    }

    method ResumeWaiting(record: ProjectRecord, requested: set<ActionType>, actor: Actor, note: string,
                         launch: Spec.Launch, overrides: RuntimeOverride, approvalId: nat) returns (answer: Spec.Answer)
      requires record !in repository.store.Values
      modifies record, repository
      ensures var o := Spec.ResumeWaiting(old(record.Value()), requested, actor, note, launch, overrides, approvalId);
        && answer == o.answer
        && repository.Contents() == Spec.Persist(old(repository.Contents()), o)
    {
      hide InMemoryProjectRepository.Contents, Spec.AuthorizeAll, Spec.ApproveFrom, Spec.MoveTasks, Spec.Execute;
      hide Spec.Transition, Spec.ActionsInOrder;
      var state := ComputeApprovalActionState(record);
      var toApprove := requested - state.approved;
      var missing := state.undecided - requested;
      var denied := AuthorizeActionsOrRaise(record, actor, toApprove, overrides);
      if denied.Some? {
        return Spec.Raised(PermissionDenied(denied.value));
      }
      ApprovePending(record, toApprove, actor, note);
      if missing != {} {
        if toApprove != {} {
          RecordEvent(record, ResumeTriggered(ApprovalResumePartial), actor);
          repository.Save(record);
        }
        return Spec.Summary(record.Value());
      }
      MoveTasks(record, Spec.WaitingTasks, Pending, "", actor);
      RecordEvent(record, ResumeTriggered(ApprovalResume), actor);
      var failure := Transition(record, InProgress, actor);
      if failure.Some? {
        return Spec.Raised(failure.value);
      }
      answer := ExecutePendingTasks(record, launch, state.approved + toApprove, false, actor, approvalId);
    }

    method ResumeFromApproval(id: nat, inputs: seq<ActionInput>, caller: ActorArgument, note: string,
                              launch: Spec.Launch, overrides: RuntimeOverride) returns (answer: Spec.Answer)
      modifies this, repository
      ensures var c := ApprovalCall(id, inputs, caller, note, launch, overrides);
        && answer == OutcomeOf(Plans.BuildPlan(), old(World()), c).answer
        && World() == Apply(Plans.BuildPlan(), old(World()), c)
    {
      hide InMemoryProjectRepository.Contents, Spec.ResumeWaiting, Spec.ParseActions, Spec.ResumeCompleted;
      hide Spec.ValidateRequest, Plans.BuildPlan, Spec.TypesWith, Spec.KnownTypes, Text.Strip, Spec.CoerceActor;
      var approvalId := nextUuid + 1;
      nextUuid := nextUuid + 2;
      var record := repository.Get(id);
      if record == null {
        return Spec.Raised(ProjectNotFound);
      }
      if record.status != WaitingApproval && record.status != Completed {
        return Spec.Raised(InvalidState(WaitingApproval, record.status));
      }
      var parsed := ParseApprovedActions(inputs);
      if parsed.Err? {
        return Spec.Raised(parsed.error);
      }
      if parsed.value == {} {
        CompletedNeedsActions(record.Value());
        return Spec.Raised(ActionsRequired);
      }
      if record.status == Completed {
        CompletedSavesNothing(record.Value(), parsed.value);
        answer := IdempotentResumeFromApprovalIfCompleted(record, parsed.value);
        return;
      }
      var state := ComputeApprovalActionState(record);
      UndecidedTypes(record.approvals);
      if state.undecided == {} {
        return Spec.Raised(NoPendingApprovals);
      }
      var error := Spec.ValidateRequest(parsed.value, record.approvals);
      if error.Some? {
        return Spec.Raised(error.value);
      }
      answer := ResumeWaiting(record, parsed.value, Spec.CoerceActor(caller, Approver), Text.Strip(note), launch,
        overrides, approvalId);
    }

    lemma CompletedNeedsActions(v: Record)
      ensures Spec.ResumeCompleted(v, {}) == Spec.Raise(ActionsRequired)
    {
    }

    lemma CompletedSavesNothing(v: Record, requested: set<ActionType>)
      ensures Spec.ResumeCompleted(v, requested).saved.None?
    {
    }

    method RejectWaiting(record: ProjectRecord, named: set<ActionType>, actor: Actor, reason: string, note: string,
                         overrides: RuntimeOverride) returns (answer: Spec.Answer)
      requires record !in repository.store.Values
      modifies record, repository
      ensures var o := Spec.RejectWaiting(old(record.Value()), named, actor, reason, note, overrides);
        && answer == o.answer
        && repository.Contents() == Spec.Persist(old(repository.Contents()), o)
    {
      hide InMemoryProjectRepository.Contents, Spec.TypesWith, Spec.KnownTypes;
      hide Spec.AuthorizeAll, Spec.RejectFrom, Spec.MoveTasks, Spec.Transition, Spec.ActionsInOrder;
      var state := ComputeApprovalActionState(record);
      var wanted := if named == {} then state.undecided else named;
      if !(wanted <= state.undecided) {
        return Spec.Raised(NotPending);
      }
      var denied := AuthorizeActionsOrRaise(record, actor, state.undecided, overrides);
      if denied.Some? {
        return Spec.Raised(PermissionDenied(denied.value));
      }
      RejectPending(record, wanted, actor, reason, note);
      MoveTasks(record, Spec.WaitingTasks, NeedsRevision, reason, actor);
      var failure := Transition(record, RevisionRequested, actor);
      if failure.Some? {
        return Spec.Raised(failure.value);
      }
      repository.Save(record);
      return Spec.Summary(record.Value());
    }

    method RejectApproval(id: nat, inputs: seq<ActionInput>, caller: ActorArgument, reason: string, note: string,
                          overrides: RuntimeOverride) returns (answer: Spec.Answer)
      modifies this, repository
      ensures var c := RejectionCall(id, inputs, caller, reason, note, overrides);
        && answer == OutcomeOf(Plans.BuildPlan(), old(World()), c).answer
        && World() == Apply(Plans.BuildPlan(), old(World()), c)
    {
      hide InMemoryProjectRepository.Contents, Spec.RejectWaiting, Spec.ParseActions, Plans.BuildPlan, Spec.CoerceActor;
      hide Text.Strip, Spec.TypesWith, Spec.KnownTypes;
      nextUuid := nextUuid + 2;
      var record := repository.Get(id);
      if record == null {
        return Spec.Raised(ProjectNotFound);
      }
      if Text.Strip(reason) == "" {
        return Spec.Raised(ReasonRequired);
      }
      if record.status != WaitingApproval && record.status != RevisionRequested {
        return Spec.Raised(InvalidState(WaitingApproval, record.status));
      }
      var state := ComputeApprovalActionState(record);
      UndecidedTypes(record.approvals);
      if record.status == WaitingApproval && state.undecided == {} {
        return Spec.Raised(NoPendingApprovals);
      }
      var parsed := ParseApprovedActions(inputs);
      if parsed.Err? {
        return Spec.Raised(parsed.error);
      }
      if record.status == RevisionRequested {
        var wanted := if parsed.value == {} then state.rejected else parsed.value;
        if !(wanted <= state.rejected) {
          return Spec.Raised(NotPending);
        }
        if wanted != {} {
          return Spec.Summary(record.Value());
        }
        return Spec.Raised(InvalidState(WaitingApproval, record.status));
      }
      answer := RejectWaiting(record, parsed.value, Spec.CoerceActor(caller, Approver), Text.Strip(reason),
        Text.Strip(note), overrides);
    }

    static predicate Matches(kind: EventKind, eventType: EventType, mode: Option<ResumeMode>) {
      TypeOf(kind) == eventType && (mode.Some? ==> ModeOf(kind) == mode)
    }

    method HasEvent(record: ProjectRecord, eventType: EventType, mode: Option<ResumeMode>) returns (found: bool)
      ensures found <==> exists e :: e in record.events && Matches(e.kind, eventType, mode)
    {
      for i := 0 to |record.events|
        invariant forall e :: e in record.events[..i] ==> !Matches(e.kind, eventType, mode)
      {
        var kind := record.events[i].kind;
        assert record.events[..i + 1] == record.events[..i] + [record.events[i]];
        if TypeOf(kind) != eventType {
          continue;
        }
        if mode.Some? && ModeOf(kind) != mode {
          continue;
        }
        return true;
      }
      assert record.events[..|record.events|] == record.events;
      return false;
    }

    method IdempotentIfCompleted(record: ProjectRecord, eventType: EventType, mode: Option<ResumeMode>)
        returns (answer: Option<Spec.Answer>)
      ensures var settled := record.status == Completed &&
          exists e :: e in record.events && Matches(e.kind, eventType, mode);
        answer == if settled then Some(Spec.Summary(record.Value())) else None
    {
      if record.status != Completed {
        return None;
      }
      var found := HasEvent(record, eventType, mode);
      return if found then Some(Spec.Summary(record.Value())) else None;
    }

    lemma ResumedMatches(v: Record, mode: RevisionMode)
      ensures Spec.HasResumed(v, mode) <==>
        exists e :: e in v.events && Matches(e.kind, ResumeTriggeredType, Some(RevisionResume(mode)))
      ensures Spec.HasReplanned(v) <==> exists e :: e in v.events && Matches(e.kind, ReplanningStartedType, None)
    {
      assert forall kind: EventKind :: Matches(kind, ReplanningStartedType, None) <==> kind.ReplanningStarted?;
    }

    method Revise(record: ProjectRecord, mode: RevisionMode, actor: Actor, reason: string, launch: Spec.Launch,
                  inputs: seq<ActionInput>, approvalId: nat) returns (answer: Spec.Answer)
      requires record !in repository.store.Values
      modifies record, repository
      ensures var o := Spec.Revise(old(record.Value()), mode, actor, reason, launch, inputs, approvalId);
        && answer == o.answer
        && repository.Contents() == Spec.Persist(old(repository.Contents()), o)
    {
      hide InMemoryProjectRepository.Contents, Spec.MoveTasks, Spec.ExecuteWith, Spec.Transition, Spec.ResetDepartments;
      RecordEvent(record, ResumeTriggered(RevisionResume(mode)), actor);
      MoveTasks(record, Spec.InDepartments(Spec.ResetDepartments(mode)), Pending, reason, actor);
      var failure := Transition(record, if mode == Replanning then ReadyForPlanning else InProgress, actor);
      if failure.Some? {
        return Spec.Raised(failure.value);
      }
      if mode == Replanning {
        repository.Save(record);
        return Spec.Summary(record.Value());
      }
      answer := ExecuteParsed(record, launch, inputs, actor, approvalId);
    }

    method ResumeFromRevision(id: nat, mode: RevisionMode, caller: ActorArgument, reason: string, launch: Spec.Launch,
                              inputs: seq<ActionInput>) returns (answer: Spec.Answer)
      modifies this, repository
      ensures var c := RevisionCall(id, mode, caller, reason, launch, inputs);
        && answer == OutcomeOf(Plans.BuildPlan(), old(World()), c).answer
        && World() == Apply(Plans.BuildPlan(), old(World()), c)
    {
      hide InMemoryProjectRepository.Contents, Spec.Revise, Spec.HasResumed, Matches, Plans.BuildPlan;
      var approvalId := nextUuid + 1;
      nextUuid := nextUuid + 2;
      var record := repository.Get(id);
      if record == null {
        return Spec.Raised(ProjectNotFound);
      }
      if record.status != RevisionRequested {
        if record.status == ReadyForPlanning && mode == Replanning {
          return Spec.Summary(record.Value());
        }
        ResumedMatches(record.Value(), mode);
        var settled := IdempotentIfCompleted(record, ResumeTriggeredType, Some(RevisionResume(mode)));
        return if settled.Some? then settled.value else Spec.Raised(InvalidState(RevisionRequested, record.status));
      }
      answer := Revise(record, mode, Spec.CoerceActor(caller, Operator), Text.Strip(reason), launch, inputs,
        approvalId);
    }

    method Replan(record: ProjectRecord, actor: Actor, launch: Spec.Launch, inputs: seq<ActionInput>, reset: bool,
                  approvalId: nat)
        returns (answer: Spec.Answer)
      requires record !in repository.store.Values
      modifies record, repository
      ensures var o := Spec.Replan(old(record.Value()), actor, launch, inputs, reset, approvalId);
        && answer == o.answer
        && repository.Contents() == Spec.Persist(old(repository.Contents()), o)
    {
      hide InMemoryProjectRepository.Contents, Spec.MoveTasks, Spec.ExecuteWith, Spec.Transition, Spec.ResetDepartments;
      if reset {
        MoveTasks(record, Spec.InDepartments(Spec.ResetDepartments(Replanning)), Pending, "", actor);
      }
      RecordEvent(record, ReplanningStarted(reset), actor);
      var failure := Transition(record, InProgress, actor);
      if failure.Some? {
        return Spec.Raised(failure.value);
      }
      answer := ExecuteParsed(record, launch, inputs, actor, approvalId);
    }

    method StartReplanning(id: nat, caller: ActorArgument, launch: Spec.Launch, inputs: seq<ActionInput>, reset: bool)
        returns (answer: Spec.Answer)
      modifies this, repository
      ensures var c := ReplanningCall(id, caller, launch, inputs, reset);
        && answer == OutcomeOf(Plans.BuildPlan(), old(World()), c).answer
        && World() == Apply(Plans.BuildPlan(), old(World()), c)
    {
      hide InMemoryProjectRepository.Contents, Spec.Replan, Spec.HasReplanned, Matches, Plans.BuildPlan;
      var approvalId := nextUuid + 1;
      nextUuid := nextUuid + 2;
      var record := repository.Get(id);
      if record == null {
        return Spec.Raised(ProjectNotFound);
      }
      if record.status != ReadyForPlanning {
        ResumedMatches(record.Value(), Replanning);
        var settled := IdempotentIfCompleted(record, ReplanningStartedType, None);
        return if settled.Some? then settled.value else Spec.Raised(InvalidState(ReadyForPlanning, record.status));
      }
      answer := Replan(record, Spec.CoerceActor(caller, Operator), launch, inputs, reset, approvalId);
    }

    /******* Histories *******/

    /** Files a request of any type for a stored project, as a user of the repository does. */
    method FileRequest(id: nat, action: ActionType, requester: string)
      modifies this, repository
      ensures World() == Advance(Plans.BuildPlan(), old(World()), Filed(id, action, requester))
    {
      hide InMemoryProjectRepository.Contents, Plans.BuildPlan;
      var approvalId := nextUuid + 1;
      nextUuid := nextUuid + 2;
      var record := repository.Get(id);
      if record == null {
        return;
      }
      record.approvals := record.approvals + [Approval(approvalId, action, Undecided, requester, "")];
      repository.Save(record);
    }

    method TakeCall(c: Call) returns (answer: Spec.Answer)
      modifies this, repository
      ensures World() == Apply(Plans.BuildPlan(), old(World()), c)
      ensures answer == OutcomeOf(Plans.BuildPlan(), old(World()), c).answer
    {
      hide InMemoryProjectRepository.Contents, Apply, Plans.BuildPlan, OutcomeOn;
      match c
      case StartProject(policy, launch, inputs, simulateFailure) =>
        answer := Run(policy, launch, inputs, simulateFailure);
      case ApprovalCall(id, inputs, caller, note, launch, overrides) =>
        answer := ResumeFromApproval(id, inputs, caller, note, launch, overrides);
      case RejectionCall(id, inputs, caller, reason, note, overrides) =>
        answer := RejectApproval(id, inputs, caller, reason, note, overrides);
      case RevisionCall(id, mode, caller, reason, launch, inputs) =>
        answer := ResumeFromRevision(id, mode, caller, reason, launch, inputs);
      case ReplanningCall(id, caller, launch, inputs, reset) =>
        answer := StartReplanning(id, caller, launch, inputs, reset);
      case SuccessCall(id, actor) =>
        AuthenticationIsSilent(old(World()), c);
        RecordAuthenticationSuccess(id, actor);
        answer := Spec.Silent;
      case FailureCall(id) =>
        AuthenticationIsSilent(old(World()), c);
        RecordAuthenticationFailure(id);
        answer := Spec.Silent;
    }

    lemma AuthenticationIsSilent(w: World, c: Call)
      requires c.SuccessCall? || c.FailureCall?
      ensures OutcomeOf(Plans.BuildPlan(), w, c).answer == Spec.Silent
    {
    }

    /** The orchestrator goes through a whole history exactly as the theorems about histories say. */
    method Play(steps: seq<Step>)
      modifies this, repository
      ensures World() == Reached(Plans.BuildPlan(), old(World()), steps)
    {
      hide InMemoryProjectRepository.Contents, Apply, Plans.BuildPlan;
      ghost var start := World();
      for i := 0 to |steps|
        invariant World() == Reached(Plans.BuildPlan(), start, steps[..i])
      {
        assert steps[..i + 1][..i] == steps[..i];
        match steps[i]
        case Called(c) =>
          var _ := TakeCall(c);
        case Filed(id, action, requester) =>
          FileRequest(id, action, requester);
      }
      assert steps[..|steps|] == steps;
    }
  }

  /** A new orchestrator on an empty repository plays a run. */
  method PlayRun(calls: seq<Call>) returns (orchestrator: PMOrchestrator)
    ensures orchestrator.World() == After(Plans.BuildPlan(), calls)
  {
    hide Plans.BuildPlan, Apply, Advance;
    var repository := new InMemoryProjectRepository();
    var policy := new ApprovalPolicy();
    orchestrator := new PMOrchestrator(repository, policy);
    assert orchestrator.World() == EMPTY;
    RunsAreHistories(Plans.BuildPlan(), calls);
    orchestrator.Play(Steps(calls));
  }
}
