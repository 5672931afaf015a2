# Verified model of the project orchestrator

This project models, in Dafny, the workflow engine of the repository (the orchestrator with its transition graph,
approval policy and repositories) and two smaller parts (the monitor and notification rows, and the governance chain
from triage to an activation decision), and proves properties of them over all inputs and all sequences of calls.

## How the model is laid out

* `Domain`, `Graph`, `ApprovalRules`, `Workflow`, `Calls` say what every operation does, as functions of one project
  record. An operation yields what it saves, if anything, and what its caller sees: a record or the exception raised.
* `Orchestrator`, `ApprovalPolicy`, `TaskOrdering`, `Storage` hold the program's own form: classes whose methods update
  records, dictionaries, counts and lists step by step. Each method is proved against the functions above.
* `AuditLog`, `Loops`, `Soundness`, `SoundCalls`, `Transitions` prove what every call keeps of any record, whatever its
  plan and whatever types of approval it holds: log, authorization, ledger, dependencies and the gate on external
  artifacts.
* `Histories` draws the consequences for arbitrary histories: calls in any order, mixed with approval requests of any
  type that others file (as `tests/test_orchestrator.py:344-357` does), on any sound repository to start with.
* `Coupling`, `Execution`, `Operations`, `Runs` are about runs: calls alone, on an empty repository. There status, tasks,
  approvals, reviews and checkpoints are coupled; `Runs.RunsAreHistories` makes every run a history.
* `Authority`, `Actors`, `Work`, `Rework`, `Decisions` describe every operation exactly, on any record with unique task
  ids: who may decide, in whose name a call acts and logs, what an execution does to each task, what a revision does
  again, what an approval and a rejection change, and which requests are refused. `Mandates` draws the consequences for
  the decisions of histories, and `Deliveries` gives histories that lead to an external artifact.
* `DeadEnds`, `Completability`, `Traps` say from which records of a history a project can still be completed, and give
  calls that lead to the others.
* `Completion`, `Retry`, `Identities` draw further consequences for runs. `Tables`, `Storage`, `Likeness`, `Backends` are about
  the database, up to the agreement of both repositories over whole runs.
* `TaskOrder`, `Monitor`, `Notifications`, `Triage`, `Governance` are the remaining parts; `Text` and `Prelude` are shared.

Histories need a plan with unique ids, in dependency order, with reset departments closed under dependents
(`Soundness.OrderedPlan`). Completion, retries and the coupling also need it to begin with work and to end with a review
(`Coupling.GoodPlan`). `Plans.BuildPlanIsGood` shows that the orchestrator's plan does both. The class goes through a
history exactly as the theorems say: `Orchestrators.PMOrchestrator.Play`.

Every call owns two identifiers of an inexhaustible supply, for the project and for the approval it may create; this
stands for uuids that never repeat. The provider strictness flag of the environment is an argument of each call.

## Where the code differs from what is promised

* `docs/architecture.md:443` says that the in-memory repository can be switched for PostgreSQL without a break. A project
  whose review failed and was repeated holds two reviews with one id (`app/orchestrator/service.py:623`,
  `app/agents/departments.py:73`), and the table's primary key (`app/state/repository.py:145-152`) rejects the second.
  `Storage.OwnPlanSavableExactly` proves when a project can be saved: exactly with at most one review.
  `Storage.ReworkIsRefused` gives the calls that lead to a project that cannot. Up to the first refused save the promise
  holds, up to the order of lists (`Backends.DatabaseRunMirrors`, `Backends.DatabaseAnswersAlike`).
* `docs/operational_startup_runbook.md:61` asks for no duplicate events on safe retries. This holds for every stored
  record and every call but one: `resume_from_revision`, repeated, runs again when its last review had no artifacts to
  see. `Retry.RevisionRetry` gives the exact condition, which can be read off the record before the call;
  `Retry.RevisionRetryCanChange` gives a record; `Retry.RunsRetrySafely` shows that no record of a run meets it.
* A project can be lost. One that waits for an action which its policy gives to nobody waits for it under every later
  sequence of calls and requests (`DeadEnds.LockedForever`; `ApprovalRules.ClosedExactly` says which policies do this).
  Among the projects of a run these are the only dead ends (`Completion.CompletableExactly`), and a strict policy
  without rules leads to one by the first call (`Traps.StrictIsTrapped`). In a history with filed requests there are
  others: a type that was rejected can never be approved, a type that was approved and is asked for again stays undecided
  until everything is, and a rejection must be authorized for all undecided types at once. So a project can be stalled
  although its policy gives every action to someone (`Traps.OpenPolicyStalls`). `Completability.CompletableExactly` gives
  the exact condition for the projects of every history: one can be completed, and then by at most five calls, exactly when
  it is not `DeadEnds.Stalled`, which can be read off its approvals and the roles of its policy
  (`DeadEnds.RejectableExactly`).
* A dry-run request that names no task and is blank is refused by the validation of the queue item
  (`app/schemas/review_queue.py:16`) before any decision. `Governance.AnsweredExactly` says which requests are answered.

## Model

| member | source | states |
|---|---|---|
| Plans.BuildPlanIsGood | app/orchestrator/service.py:54-81 | The built plan has unique ids in dependency order, each reset set is closed under dependents, and it runs from work to a review |
| Text.NormalizeIdempotent | app/services/triage.py:53-57 | Trimming and lower-casing, of the letters A to Z, twice is doing it once |
| ApprovalRules.FirstMatchIsFirst | app/services/approval.py:81-87 | A lookup by normalized key returns the value of the first matching entry |
| ApprovalRules.LookupFinds | app/services/approval.py:74-98 | A rule is found exactly when some key equals the action up to case and surrounding space |
| ApprovalRules.ClosedExactly | app/services/approval.py:115-233 | No actor under any runtime override is authorized, exactly when the roles of the policy admit viewers at most; they are empty exactly in strict mode without a matching rule |
| ApprovalRules.OverrideNeverAddsRoles | app/services/approval.py:140-223 | Whoever is authorized is no viewer and holds a role of the policy; a runtime override binds the identity on top of that |
| Authority.AuthorizeExactly | app/services/approval.py:115-233 | An action is allowed exactly when the actor is no viewer, holds a role, with the ownership, that the rule or else the usual roles admit, and is listed, up to surrounding space, by the override for the action, or without one by the rule if it lists anybody |
| Authority.UsualRoles | app/services/approval.py:36-54 | Without rules administrators decide everything, approvers all but production changes, operators bulk changes, and owners the external action |
| Authority.SourceExactly | app/services/approval.py:115-149 | Strict mode without a rule decides first, then the override, then the rule, then the defaults, and all but the defaults count as an override |
| Authority.LookupChooses | app/services/approval.py:74-87 | The entry found is the first with the exact key, or else the first whose key normalizes to the action |
| Authority.AuthorizationExactly | app/orchestrator/service.py:204-250 | Authorizing a set of actions is denied at the first of them by value that is not allowed, and logs a verdict, with an override event where one decided, on every action up to there and on no other |
| ApprovalPolicies.ApprovalPolicy.NormalizeActorIds | app/services/approval.py:59-68 | The loop yields exactly the trimmed non-blank ids |
| ApprovalPolicies.ApprovalPolicy.FindActionMappingValue | app/services/approval.py:74-87 | An exact key wins over the first key that normalizes to the action |
| ApprovalPolicies.ApprovalPolicy.FindRuntimeActorIds | app/services/approval.py:100-113 | The override's list for the action, empty when the entry is no list |
| ApprovalPolicies.ApprovalPolicy.ResolveEffectivePolicy | app/services/approval.py:115-149 | Roles, identities, source and override flag of the policy in force, which the authorization laws are about |
| ApprovalPolicies.ApprovalPolicy.AuthorizeAction | app/services/approval.py:151-233 | The decision of the policy, which the authorization laws are about |
| AuditLog.TransitionKeeps | app/orchestrator/service.py:252-273 | A transition extends history and log together along an edge of the graph and keeps everything else that the log says |
| AuditLog.SetTaskStatusKeeps | app/orchestrator/service.py:275-293 | A task change is logged so that the log still replays to the tasks; a start needs its dependencies done |
| AuditLog.DecideKeeps | app/orchestrator/service.py:318-346 | A decision on an undecided approval after a grant keeps authorization and attribution, and the log books it |
| AuditLog.DecisionsAreAdmitted | app/orchestrator/service.py:204-250 | In a well-formed log each decision has an earlier grant of the same action to the same actor, whom the policy admits |
| Loops.AuthorizeAllEffect | app/orchestrator/service.py:204-250 | Authorization changes the log only, stops exactly at the first denial with its failure event, and otherwise grants every action |
| Loops.ApproveFromEffect | app/orchestrator/service.py:1002-1019 | Exactly the undecided approvals of the given types become approved; work and checkpoint ids stay |
| Loops.RejectFromEffect | app/orchestrator/service.py:1124-1132 | Exactly the undecided approvals become rejected; work and checkpoint ids stay |
| Loops.MoveTasksEffect | app/orchestrator/service.py:295-316 | Exactly the selected tasks move, with their notes; nothing else but the log changes |
| SoundCalls.RequestIsUndecided | app/orchestrator/service.py:984-992 | The types that a valid request still has to approve all have an undecided approval and no rejected one |
| Soundness.WorkOnSound | app/orchestrator/service.py:540-625 | Working on the first open task of any sound record starts it with its dependencies done and keeps the gate |
| Soundness.RunTasksSound | app/orchestrator/service.py:540-625 | The task loop keeps any sound record sound and gated |
| Soundness.PauseSound | app/orchestrator/service.py:552-613 | A pause keeps any sound record sound and books its request |
| Soundness.ExecuteSound | app/orchestrator/service.py:521-678 | Execution saves nothing unsound |
| SoundCalls.ApproveSound | app/orchestrator/service.py:1002-1019 | Approving any granted types keeps the record sound and approves every undecided one of them |
| SoundCalls.ResumeWaitingSound | app/orchestrator/service.py:977-1065 | A valid request of any types, approved in part or in full, denied or followed by an execution, leaves a sound record |
| SoundCalls.RejectWaitingSound | app/orchestrator/service.py:1104-1155 | A rejection of any types, with the others closed along, leaves a sound record, as does its denial |
| SoundCalls.MovedSound | app/orchestrator/service.py:295-316 | Every reset set keeps the done tasks closed under dependencies |
| SoundCalls.ResumeFromRevisionSound | app/orchestrator/service.py:1253-1296 | A revision in any mode leaves a sound record |
| SoundCalls.StartReplanningSound | app/orchestrator/service.py:1298-1354 | Replanning with or without a reset leaves a sound record |
| SoundCalls.RunSound | app/orchestrator/service.py:680-721 | A new project is sound, from its draft on |
| SoundCalls.CallSound | app/orchestrator/service.py:680-1354 | Any call on any sound record saves a sound record that extends it and books every request and decision |
| Transitions.GraphExactly | docs/architecture.md:80-92 | The graph has exactly the documented transitions and the one from waiting to revision that a rejection takes |
| Transitions.TransitionsAlwaysValid | app/orchestrator/service.py:263-264 | Whatever is stored, sound or not, no call raises the invalid-transition error |
| Histories.CallStep | app/state/repository.py:45-52 | One call changes at most the record of its own project |
| Histories.ReachedSound | app/orchestrator/service.py:680-1354 | Every record of every history is sound and gated |
| Histories.DependenciesRespected | app/orchestrator/service.py:540-625 | In every history the done tasks are closed under dependencies and every start ever logged had its dependencies done |
| Histories.StartsReadyAt | app/orchestrator/service.py:544-544 | What the previous row says about each single start in a log, in terms of the replayed prefix |
| Histories.LogReplays | app/orchestrator/service.py:252-293 | In every history the lines of a record equal its transition events, which form a path of the graph from draft to the status, and replaying the task events gives every task's status |
| Histories.ExternalGate | app/orchestrator/service.py:552-614 | In every history an artifact of an external provider exists only with an approved external action, or if some caller vouched for that project |
| Histories.NoBypass | app/orchestrator/service.py:371-390 | Without pre-approving callers nobody vouches for anything, so there the gate is absolute |
| Histories.DecisionsAuthorized | app/orchestrator/service.py:994-1019 | In every history each approval and rejection of any type follows a grant of the same action to the same actor, whom the policy admits and who is no viewer |
| Histories.ApprovalsAttributed | app/orchestrator/service.py:328-340 | In every history each decided approval of any type names an actor who decided it in the log and whom the policy admits |
| Mandates.CallDecides | app/orchestrator/service.py:994-1019 | Whatever any call on any record decides, its own actor decides, authorized under the policy and the override of that call |
| Mandates.DecisionsMade | app/orchestrator/service.py:944-1155 | In every history each decided approval was decided at the start, or by a call on its project, of the right kind and in the recorded name, whose actor was authorized under the override of that very call |
| Mandates.OutsidersAreNamed | app/services/approval.py:134-147 | In every history whoever decided without being on the list of the policy's rule was named in the override of the call |
| Histories.LedgerConserved | app/orchestrator/service.py:318-346 | In every history what a record holds of requests, approvals and rejections of each type beyond what its log books changes by the requests filed by others, and by nothing else |
| Histories.ProjectsExtend | app/orchestrator/service.py:485-502 | Over any continuation a project's log, history and reviews only grow, plan and policy stay, decisions are final, and a rejected type gains no approval |
| Actors.CallActs | app/orchestrator/service.py:90-109 | Every event that a call logs, apart from the system's own request for an approval, names the known caller, or a human with the trimmed name, or `unknown`, who is an approver in approvals and rejections and an operator in revisions and replannings |
| Actors.RunActs | app/orchestrator/service.py:680-721 | Every event of a new project is logged for the system |
| Actors.AuthenticationTells | app/orchestrator/service.py:729-763 | A success appends the authentication and the resolution of the actor, a failure one anonymous event; nothing else changes |
| Work.ExecutionExactly | app/orchestrator/service.py:521-678 | On any record an execution finishes the open tasks in turn up to the first trend task that needs an approval, and leaves the others alone: each has its steps in the log, its artifact, a trend analysis with the provider that ran, or its review note, refused exactly for missing artifacts or a simulated failure; it then waits for one request, goes to revision or completes, and touches no other artifact, approval or checkpoint |
| Work.RunExactly | app/orchestrator/service.py:680-721 | A new project begins with the pending tasks of the plan and nothing else, passes through intake and planning, and is executed with the actions and the simulated failure that the caller hands in |
| Work.ProvidersExactly | app/providers/factory.py:11-28 | No name belongs to two providers; a launch runs the one it names, and a name of none runs the mock provider, or is refused in strict mode |
| Rework.RevisionExactly | app/orchestrator/service.py:1157-1251 | A revision sets back exactly the tasks of the departments after research, after design, or of review alone, as its mode says, with the reason as their note and a log entry unless they were pending; then it executes what is open, or goes to planning |
| Rework.RevisionRedoes | app/orchestrator/service.py:1185-1213 | After a revision each task of its departments that was not pending is logged as set back and carries the reason, and a finished task of any other department is as before and has no event |
| Rework.ReplanningExactly | app/orchestrator/service.py:1298-1354 | A start of replanning sets back all but the research exactly if it is asked to, and executes what is open |
| Rework.ElsewhereNothing | app/orchestrator/service.py:847-922 | In any other state both are answered with the record if their effect is there already, and refused otherwise |
| Decisions.ApprovalExactly | app/orchestrator/service.py:977-1065 | An acceptable request is denied at the first missing type that the actor may not approve; otherwise exactly the undecided approvals of its types are approved, in the actor's name and with the note, checkpoint and log say so, and the project goes on waiting while other types are undecided, or wakes its waiting tasks and is executed with all that is approved |
| Decisions.ApprovalRefusals | app/orchestrator/service.py:474-502 | Any other approval request is refused without a change, with the error that the state, the list and the approvals call for, or answered again after completion |
| Decisions.RejectionExactly | app/orchestrator/service.py:1104-1155 | A rejection is denied unless the actor may decide all undecided types; otherwise all of them are rejected with reason and note, those not named as closed along, the waiting tasks need revision for that reason, and the checkpoint says so |
| Decisions.RejectionRefusals | app/orchestrator/service.py:1067-1116 | Any other rejection is refused without a change, with the error that reason, state, list and approvals call for, or answered again in revision |
| Decisions.ParsesExactly | app/orchestrator/service.py:371-390 | A list is accepted exactly when each element is an action or its value up to case and surrounding space, and stands for the actions named |
| Deliveries.VouchedDelivers | app/orchestrator/service.py:614-614 | A first call with the action handed in yields an analysis by the external provider |
| Deliveries.ApprovedDelivers | app/orchestrator/service.py:614-614 | A run in which nobody vouches comes to an external artifact by an approval, so the gate speaks of something |
| Coupling.WorkOnAdvances | app/orchestrator/service.py:540-625 | Working on the next open task of an executing record keeps the coupling and moves the frontier of done tasks |
| Coupling.RunTasksKeeps | app/orchestrator/service.py:540-625 | The task loop keeps the coupling, pauses only at a task that must wait, and ends with the verdict of the last review |
| Execution.PauseCouples | app/orchestrator/service.py:552-613 | A pause leaves one waiting task, one undecided approval as the last, and an unapproved approval checkpoint |
| Execution.FinishKeeps | app/orchestrator/service.py:627-671 | After the loop the record completes with an accepted review, or goes to revision with a refused one |
| Execution.ExecuteKeeps | app/orchestrator/service.py:521-678 | Execution refuses the provider name without saving, or saves a coupled record; without a missing approval it does not pause |
| Operations.RunKeeps | app/orchestrator/service.py:680-721 | A new project is stored coupled or not at all |
| Operations.ApproveFromNotes | app/orchestrator/service.py:1002-1012 | Approving some request turns the one approval checkpoint to approved |
| Operations.RejectFromNotes | app/orchestrator/service.py:341-346 | Rejecting leaves the one approval checkpoint unapproved |
| Operations.ResumeWaitingKeeps | app/orchestrator/service.py:977-1065 | On a waiting project of a run, whose requests can only name the external action, an authorized approval completes it and an unauthorized one only logs the denial |
| Operations.RejectWaitingKeeps | app/orchestrator/service.py:1104-1155 | On a waiting project of a run, which holds external requests only, an authorized rejection moves it to revision and an unauthorized one only logs the denial |
| Operations.ResetSteady | app/orchestrator/service.py:295-316 | Every reset set reopens the last review and leaves finished work with its artifacts |
| Operations.ResumeFromRevisionKeeps | app/orchestrator/service.py:1253-1296 | A revision keeps the coupling, and completes the project when no approval can be missing |
| Operations.StartReplanningKeeps | app/orchestrator/service.py:1298-1354 | Replanning keeps the coupling, pauses or completes, and completes when no approval can be missing |
| Runs.RunsAreHistories | app/orchestrator/service.py:680-1354 | Every run on an empty repository is a history that starts sound |
| Runs.AllRunsOk | app/orchestrator/service.py:521-1354 | Every record of every run is coupled |
| Runs.StatusTasksAndApprovalsAgree | app/orchestrator/service.py:521-678 | In every run: only four statuses are stored; waiting, exactly one undecided approval and a waiting task coincide; completed means all done, last review accepted and a delivery checkpoint; the approval checkpoint tells the truth |
| Runs.LedgerBalances | app/orchestrator/service.py:318-346 | In every run the requested, approved and rejected events of each action type number its approvals, approved approvals and rejected approvals |
| Runs.StepEffect | app/state/repository.py:45-52 | One more call changes at most the record of its own project, which evolves, and a new project takes an unused id |
| Completion.FailuresAreAtomic | app/orchestrator/service.py:212-242 | On any stored records, a call that raises changes nothing, except that a denied authorization appends authorization events ending in the failure |
| Completion.TrapIsForever | app/orchestrator/service.py:994-1000 | A project of a run that waits for the external action which the policy gives to nobody stays as it is, but for its log, under every later call sequence; what holds of any action and of histories is stated by DeadEnds.LockedForever |
| Completion.CompletableExactly | app/orchestrator/service.py:944-1354 | A project of a run can still be completed exactly when it is not trapped, and then by at most two calls |
| DeadEnds.CallAdvances | app/orchestrator/service.py:944-1155 | Any call on any stalled record approves some types, none of them locked or decided before, and leaves others undecided, or only logs |
| DeadEnds.StalledForever | app/orchestrator/service.py:944-1354 | A stalled project of any history stays stalled under every continuation by calls and filed requests, and so does each of its locked actions |
| DeadEnds.LockedForever | app/orchestrator/service.py:994-1000 | A project that waits for an action, whichever it is, that the policy gives to nobody waits for it under every continuation by calls and filed requests |
| DeadEnds.RejectableExactly | app/services/approval.py:115-233 | Some actor under some override may decide all the types that no approval can decide, exactly when one role other than viewer, with the ownership, is admitted for each of them |
| Completability.ApproveAway | app/orchestrator/service.py:977-1065 | A waiting project of which everything undecided can be approved is completed by at most one approval for each undecided type |
| Completability.RejectAway | app/orchestrator/service.py:1117-1155 | If some actor may decide what cannot be approved, approvals of the rest, one rejection and one revision complete the project |
| Completability.ReachedWorkable | app/orchestrator/service.py:521-1354 | In every history each record has one of four statuses, waits only with something undecided, and has artifacts once work is done |
| Completability.CompletableExactly | app/orchestrator/service.py:944-1354 | In every history a project can still be completed exactly when it is not stalled, and then at most five calls complete it |
| Traps.StrictIsTrapped | app/services/approval.py:115-135 | A first call after which the built project waits for an action that its strict policy gives to nobody |
| Traps.OpenPolicyStalls | app/orchestrator/service.py:1117-1122 | Six steps of the built project that end stalled, although the policy gives every action to someone |
| Retry.RunTasksOutcome | app/orchestrator/service.py:540-642 | On any record the task loop pauses exactly at an open task that must wait, and ends refused exactly when its last review sees no artifacts |
| Retry.ApprovalRetry | app/orchestrator/service.py:944-1065 | On any record, a successful approval call repeated saves nothing, also after partial approvals and new pauses, and what it then answers |
| Retry.RejectionRetry | app/orchestrator/service.py:1085-1155 | On any record, a successful rejection repeated saves nothing and answers with the record |
| Retry.ReplanningRetry | app/orchestrator/service.py:1311-1354 | On any record, a successful start of replanning repeated saves nothing, and answers exactly after a completion |
| Retry.RevisionRetry | app/orchestrator/service.py:1265-1296 | On any record, a successful revision repeated changes it exactly when its last review had nothing to see, and is refused exactly after a pause |
| Retry.RevisionRetryCanChange | app/agents/departments.py:66-78 | A record on which the repetition changes the project again |
| Retry.RunsRetrySafely | app/orchestrator/service.py:778-922 | In every run, repeating any of the four protected calls right after its success leaves the whole store unchanged; it answers with the record, unless a revision or replanning left the project waiting |
| Orchestrators.InMemoryProjectRepository.Snapshot | app/state/repository.py:38-40 | A snapshot is a new object with the same value |
| Orchestrators.InMemoryProjectRepository.Save | app/state/repository.py:45-46 | Saving changes the entry of the record's project only and keeps no caller's object |
| Orchestrators.InMemoryProjectRepository.Get | app/state/repository.py:48-52 | Loading yields a new object with the stored value, or nothing |
| Orchestrators.PMOrchestrator.Transition | app/orchestrator/service.py:252-273 | The record moves along an edge of the graph, or stays and the error is reported |
| Orchestrators.PMOrchestrator.SetTaskStatus | app/orchestrator/service.py:275-293 | One task changes and the change is logged; nothing happens when the status is the same |
| Orchestrators.PMOrchestrator.MoveTasks | app/orchestrator/service.py:295-316 | The loop over the tasks has the effect stated by the task-loop law |
| Orchestrators.PMOrchestrator.RejectPending | app/orchestrator/service.py:1124-1132 | The loop over the pending approvals has the effect stated by the rejection law |
| Orchestrators.PMOrchestrator.ApprovePending | app/orchestrator/service.py:1002-1019 | The loop over the pending approvals has the effect stated by the approval law |
| Orchestrators.PMOrchestrator.UpsertCheckpoint | app/orchestrator/service.py:348-353 | The first checkpoint with the id is replaced, or the checkpoint is appended |
| Orchestrators.PMOrchestrator.UpdateApprovalCheckpoint | app/orchestrator/service.py:354-369 | The first approval checkpoint of the project takes flag, approver and note |
| Orchestrators.PMOrchestrator.UpsertArtifact | app/orchestrator/service.py:514-519 | The first artifact with the id is replaced, or the artifact is appended |
| Orchestrators.PMOrchestrator.ParseApprovedActions | app/orchestrator/service.py:371-390 | The set of named actions, or the error when some element names none |
| Orchestrators.PMOrchestrator.ComputeApprovalActionState | app/orchestrator/service.py:424-449 | One pass collects the known, approved, rejected and undecided types |
| Orchestrators.PMOrchestrator.AuthorizeActionsOrRaise | app/orchestrator/service.py:204-250 | The loop logs verdicts in the order of the action values, and saves at the first denial |
| Orchestrators.PMOrchestrator.ExecutePendingTasks | app/orchestrator/service.py:521-678 | The loop over the tasks with its early exit saves and answers as execution is specified |
| Orchestrators.PMOrchestrator.Run | app/orchestrator/service.py:680-721 | The call takes the world one step of a run further |
| Orchestrators.PMOrchestrator.RecordAuthenticationSuccess | app/orchestrator/service.py:729-746 | The call takes the world one step of a run further; an unknown project is ignored |
| Orchestrators.PMOrchestrator.RecordAuthenticationFailure | app/orchestrator/service.py:748-763 | The call takes the world one step of a run further; an unknown project is ignored |
| Orchestrators.PMOrchestrator.ResumeFromApproval | app/orchestrator/service.py:944-1065 | The call takes the world one step of a run further |
| Orchestrators.PMOrchestrator.RejectApproval | app/orchestrator/service.py:1067-1155 | The call takes the world one step of a run further |
| Orchestrators.PMOrchestrator.ResumeFromRevision | app/orchestrator/service.py:1253-1296 | The call takes the world one step of a run further |
| Orchestrators.PMOrchestrator.StartReplanning | app/orchestrator/service.py:1298-1354 | The call takes the world one step of a run further |
| Orchestrators.PMOrchestrator.HasEvent | app/orchestrator/service.py:909-922 | The search answers whether an event of the type, with the mode if one is given, is in the log |
| Orchestrators.PMOrchestrator.IdempotentIfCompleted | app/orchestrator/service.py:876-897 | A completed project with such an event is answered as it is |
| Orchestrators.PMOrchestrator.FileRequest | app/state/repository.py:45-52 | Loading a record, adding a request and saving it is one step of a history |
| Orchestrators.PMOrchestrator.TakeCall | app/orchestrator/service.py:680-1354 | Every public operation takes the world one call further, and answers as specified |
| Orchestrators.PMOrchestrator.Play | app/orchestrator/service.py:680-1354 | The orchestrator goes through any history to exactly the world that the theorems are about |
| Orchestrators.PlayRun | app/orchestrator/service.py:680-1354 | A new orchestrator on an empty repository goes through any run likewise |
| TaskOrder.GreedyComplete | app/state/repository.py:98-110 | The greedy order is complete exactly when some order respects all in-list dependencies, and then respects them |
| TaskOrder.GreedyLeast | app/state/repository.py:93-106 | No order that respects the dependencies comes before the greedy one by original positions |
| TaskOrder.OrderIsLeastArrangement | app/state/repository.py:75-113 | The list becomes its least dependency-respecting arrangement if there is one, and stays unchanged otherwise |
| TaskOrder.OrderedStays | app/state/repository.py:93-113 | A list that respects its dependencies is left as it is |
| TaskOrder.OrderIdempotent | app/state/repository.py:75-113 | Ordering twice is ordering once |
| TaskOrdering.BuildGraph | app/state/repository.py:80-91 | Counts are the numbers of in-list dependencies and the lists hold exactly the dependents, whatever the order of the sets |
| TaskOrdering.ReleaseDependents | app/state/repository.py:102-105 | Each dependent's count falls by one, and those that reach zero join the ready list |
| TaskOrdering.ReleasedCounts | app/state/repository.py:102-103 | After a release each count is again the number of dependencies not yet emitted |
| TaskOrdering.OrderTasksForExecution | app/state/repository.py:75-113 | The loop terminates with the specified order for every list with unique ids |
| Identities.AllRunsIdentified | app/orchestrator/service.py:514-519 | In every run the artifact, checkpoint and approval ids of a record are unique, and its reviews belong to review tasks of the plan |
| Tables.LoadUnique | app/state/repository.py:314-464 | A database yields at most one record per id, whatever order the rows are fetched in |
| Tables.SaveThenLoad | app/state/repository.py:188-464 | A saved record comes back the same up to the order of its lists, which is that of the ids, and in dependency order if it was in one |
| Tables.SaveLoadSave | app/state/repository.py:188-464 | Saving what was loaded changes nothing in the database |
| Tables.OtherProjectsUntouched | app/state/repository.py:188-312 | Saving one project does not change what any other loads as |
| Storage.PostgresProjectRepository.Save | app/state/repository.py:188-312 | The transaction succeeds exactly when no primary key occurs twice, replaces the project's rows, and otherwise leaves the database as it was |
| Storage.PostgresProjectRepository.Get | app/state/repository.py:314-464 | Loading yields the stored rows ordered by id, with the tasks ordered for execution |
| Storage.RunsSavableExactly | app/state/repository.py:125-173 | A project of a run can be saved exactly when no review id occurs twice in it |
| Storage.OwnPlanSavableExactly | app/state/repository.py:145-152 | With the built plan that means at most one review |
| Storage.ReworkIsRefused | app/orchestrator/service.py:615-623 | Two calls after which the project cannot be saved |
| Storage.RunsReload | app/state/repository.py:314-464 | A project of a run that can be saved comes back in dependency order with the same approval states |
| Likeness.CallsAlike | app/orchestrator/service.py:680-1354 | No call on a project of a run can tell the order of its artifacts, reviews, checkpoints or approvals: it saves and answers the same up to that order |
| Backends.LikeReloaded | app/state/repository.py:314-464 | A record that is like a saved one is like what the database loads for it |
| Backends.OwnOrderKept | app/state/repository.py:75-113 | Where task-build sorts before task-trend, the orchestrator's tasks come back in the order of its plan |
| Backends.DatabaseRunMirrors | app/state/repository.py:188-464 | As long as the database accepts every save of a run, it holds the projects of the in-memory run, up to the order of lists |
| Backends.DatabaseAnswersAlike | app/state/repository.py:188-464 | The next call answers as in memory, and is refused exactly when the record saved in memory repeats an id |
| Backends.CallOnDatabase | app/state/repository.py:188-464 | Loading, computing and saving in one transaction is one step of a database run |
| Backends.RunOnDatabase | app/state/repository.py:188-464 | A run goes on until the first save that violates a primary key |
| Monitor.MonitorEventRepository.UpsertOpenEvent | app/db/repositories.py:612-668 | The row of the key is opened, counting one more occurrence, or inserted |
| Monitor.MonitorEventRepository.UpsertResolvedEvent | app/db/repositories.py:670-721 | The row of the key is resolved, or inserted as resolved |
| Monitor.MonitorEventRepository.ResolveEvent | app/db/repositories.py:723-740 | An existing row is resolved; a missing one is reported |
| Monitor.MonitorEventRepository.MarkAlertSent | app/db/repositories.py:742-748 | An existing row takes the time of its alert |
| Monitor.RowsIndependent | app/db/repositories.py:608-748 | After any log a row depends only on the operations for its own key |
| Monitor.RowsTell | app/db/repositories.py:612-748 | After any log id and first sighting are those of the first upsert, occurrences are one plus the later open upserts, and status, last sighting and resolution follow the last sighting |
| Monitor.RowsTellColumns | app/db/repositories.py:612-748 | After any log content is that of the last upsert, release and market that of the last open one, details those of the last operation that gave some, and the alert the last one sent |
| Monitor.TimesInOrder | app/db/repositories.py:612-748 | Under a monotone clock a row is first seen, last seen and updated in this order |
| Monitor.IdentityStays | app/db/repositories.py:647-664 | Identity and first sighting survive every continuation, and occurrences never fall |
| Notifications.NotificationRepository.CreateNotification | app/db/repositories.py:481-509 | A slot is written when empty or failed, and kept otherwise |
| Notifications.SlotHolds | app/db/repositories.py:481-509 | After any log a slot holds its first notification that did not fail, for good, and until then its last failed one |
| Triage.TriageExactly | app/services/triage.py:52-146 | Which written areas, phase, verification and ambiguity lead to review, pause or go |
| Triage.GateExactly | app/services/continuation.py:37-76 | Each of the sixteen gates is triggered exactly when one of its words, spelled out, is written among the changed areas |
| Triage.TriageTells | app/services/triage.py:52-146 | The reason for an escalation is the first of five that applies; risk and routing follow the decision and whether only harmless areas are changed |
| Triage.TriageAgreesWithContinuation | app/services/continuation.py:72-113 | Without cross-department areas triage and continuation decide alike, so the final fallback is never taken |
| Governance.BuildEscalationReasons | app/services/review_packet.py:67-76 | The step-by-step list of reasons is the one that the end-to-end laws are about |
| Governance.NormalizeValues | app/services/review_queue.py:7-18 | The loop yields the values that the uniqueness laws are about |
| Governance.UniqueExactly | app/services/activation_decision.py:154-167 | The result holds exactly the trimmed non-blank inputs, each once |
| Governance.UniqueExtends | app/services/activation_decision.py:154-167 | More values only extend the result, so each value stays where it first occurred |
| Governance.UniqueIdempotent | app/services/review_queue.py:7-18 | Normalizing twice is normalizing once |
| Governance.CollectUnresolvedBlockers | app/services/activation_decision.py:103-111 | The collected list is the one that the blocker law is about |
| Governance.AnsweredExactly | app/services/dry_run_orchestration.py:75-142 | Requests are answered exactly when they name a task or are not blank once line ends are unescaped |
| Governance.BlankIsRefused | app/schemas/review_queue.py:14-16 | Every blank request that names no task is refused |
| Governance.BlockersExactly | app/services/activation_decision.py:103-111 | For every answered request, blockers remain exactly when triage did not say go |
| Governance.BlockersAre | app/services/activation_decision.py:103-111 | For every answered request, the remaining blockers are the values of the triggered gates, the escalation reason, and that a gate is triggered, each once |
| Governance.ActivationExactly | app/services/activation_decision.py:36-100 | For every answered request, the activation is go exactly when triage is go and management is absent or says go; management's go over anything else becomes pause |
| Governance.ActivationConsistent | app/services/activation_decision.py:51-132 | For every answered request, human status is approved, pending or withheld exactly as the recommendation is go, pause or review, escalation and the need for another review follow it too, and blockers are reported as cleared exactly when triage says go, whatever management says |
| Governance.ProjectionExactly | app/services/dry_run_orchestration.py:155-214 | For every answered request, the next step escalates, resolves blockers, awaits the review, or proceeds with what management or else the work order, the trend or the request proposes; keeping the review path for gates alone is never announced |
| Governance.AutonomyExactly | app/services/dry_run_orchestration.py:155-214 | For every answered request, autonomous continuation is allowed exactly when the effective decision is go and triage is not review; it parts from activation exactly when management says go over a pause |

## Left out

- Event reasons, approval reasons, timestamps, next steps and counts of summaries, and the content of artifacts other than the provider of a trend analysis.
- The project brief, which no operation changes and no decision reads.
- Task and approval objects are values inside the record's lists, so aliasing of one task object between lists is not modelled; records themselves are objects and their sharing is.
- The list of pending approvals that an operation collects first is walked by position in the record instead.
- NormalizeIdempotent: only the letters A to Z are lower-cased, because Dafny has no table of Unicode cases; spaces are those of all Unicode.
- ResumeWaitingKeeps: only for projects of runs, whose requests name the external action alone; SoundCalls.ResumeWaitingSound covers every request on every sound record.
- RejectWaitingKeeps: only for projects of runs, which hold external requests alone; SoundCalls.RejectWaitingSound covers every rejection on every sound record.
- TrapIsForever: only for projects of runs, where nothing but the log changes; DeadEnds.LockedForever covers every action in every history.
- Elements of lists are taken to have their annotated types.
- An approval policy other than the built-in one, and an absent project policy, which no operation of the orchestrator passes.
- Repositories are called one call at a time; concurrent saves are not modelled.
- The exception of a database save that violates a primary key; a database run ends there.
- The choice of the backend from the environment, and history rows in the older list format.
- Reading the audit of a project, which copies fields.
- Monitor and notification queries that only list or count, the other upserts of that file, and status values other than those its operations write: app/domain/enums is not part of this model.
- Management summaries built without a triage result, work-order inputs and payloads, packet and item ids, and the texts of rollback expectations and next steps.
- The consumer chain of the dry-run orchestration after the activation decision, which copies keys.
- Intake, HTTP routes, token authentication, and trend providers beyond their name.
