/** From triage over work order, summary, packet and queue item to the activation decision. */
module Governance {
  import opened Prelude
  import opened Triage
  import Text

  datatype Brief = Brief(currentTask: string, proposedAction: string)

  datatype WorkOrder = WorkOrder(
    department: Routing, nextAction: string, decision: Decision, risk: Risk, gates: set<HardGate>,
    escalation: Escalation, reviewRequired: bool)

  datatype Summary = Summary(
    currentTask: string, decision: Decision, risk: Risk, routing: Routing, hardGateTriggered: bool,
    hardGateTriggers: seq<string>, proposedAction: string, requiredReview: bool, escalationReason: Option<string>)

  datatype Packet = Packet(
    currentTask: string, risk: Risk, routing: Routing, hardGateStatus: bool, hardGateTriggers: seq<string>,
    escalationReasons: seq<string>, proposedAction: string, recommendation: Decision, requiredReview: bool)

  datatype QueueItem = QueueItem(
    currentTask: string, risk: Risk, routing: Routing, hardGateStatus: bool, hardGateTriggers: seq<string>,
    escalationReason: Option<string>, escalationReasons: seq<string>, recommendation: Decision)

  datatype ManagementDecision = ManagementDecision(decision: Decision, reviewerId: string, approvedNextAction: string)

  datatype HumanStatus = ApprovedByHuman | PendingHuman | WithheldByHuman

  datatype Activation = Activation(
    recommendation: Decision, remainingBlockers: seq<string>, human: HumanStatus, blockersCleared: bool,
    escalated: bool, reReviewRequired: bool)

  /** The next step that the projection announces; `Proceed` carries the proposed action. */
  datatype NextStep = EscalateToManagement | ResolveBlockers | AwaitReview | KeepReviewPath | Proceed(action: string)

  datatype Projection = Projection(decision: Decision, nextStep: NextStep, autonomousContinuation: bool)

  /******* Work order and summary *******/

  function ManagementReviewRequired(triage: TriageResult): bool {
    triage.decision == Review || triage.routing in {ManagementDepartment, AuditReview} || triage.escalationLikely
  }

  const PAUSED_STEP := "PAUSE and isolate blockers in Progress Control before implementation handoff."
  const SUPPORT_STEP := "Run low-risk Action Department support task, then re-triage before implementation."
  const IMPLEMENTATION_STEP := "Proceed with the smallest implementation change and run targeted verification."
  const PAUSED_PROPOSAL := "Pause and isolate blockers before continuing."

  function NextAction(triage: TriageResult): string {
    if triage.decision == Review then "Escalate to Management Department for REVIEW; do not continue autonomously."
    else if triage.decision == Pause then PAUSED_STEP
    else if triage.routing == ActionDepartment then SUPPORT_STEP
    else if triage.routing == Implementation then IMPLEMENTATION_STEP
    else "Follow routed department instructions and keep GO/PAUSE/REVIEW governance intact."
  }

  function BuildWorkOrder(triage: TriageResult): WorkOrder {
    WorkOrder(triage.routing, NextAction(triage), triage.decision, triage.risk, triage.gates, triage.escalation,
      ManagementReviewRequired(triage))
  }

  function ValuesOf(gates: set<HardGate>, ordered: seq<HardGate>): (values: seq<string>)
    ensures forall v :: v in values <==> exists g :: g in ordered && g in gates && GateValue(g) == v
  {
    if ordered == [] then []
    else
      assert forall g :: g in ordered <==> g == ordered[0] || g in ordered[1..];
      (if ordered[0] in gates then [GateValue(ordered[0])] else []) + ValuesOf(gates, ordered[1..])
  }

  function ProposedAction(brief: Brief, triage: TriageResult, trendAction: Option<string>): string {
    if triage.decision == Review then "Escalate to Management Department for REVIEW."
    else if triage.decision == Pause then PAUSED_PROPOSAL
    else if trendAction.Some? then trendAction.value
    else brief.proposedAction
  }

  function BuildSummary(brief: Brief, triage: TriageResult, trendAction: Option<string>,
                        order: Option<WorkOrder>): Summary {
    match order
    case Some(o) =>
      var triggers := ValuesOf(o.gates, GATES_BY_VALUE);
      Summary(brief.currentTask, o.decision, o.risk, o.department, triggers != [], triggers, o.nextAction,
        o.reviewRequired, Some(EscalationValue(o.escalation)))
    case None =>
      var triggers := ValuesOf(triage.gates, GATES_BY_VALUE);
      Summary(brief.currentTask, triage.decision, triage.risk, triage.routing, triggers != [], triggers,
        ProposedAction(brief, triage, trendAction),
        triage.decision == Review || triage.escalationLikely, Some(EscalationValue(triage.escalation)))
  }

  /******* Packet and queue item *******/

  function EscalationReasons(summary: Summary): seq<string> {
    var reason := if summary.escalationReason.Some? then Text.Strip(summary.escalationReason.value) else "";
    var first := if reason != "" && Text.Lower(reason) != "none" then [reason] else [];
    var second := if summary.hardGateTriggered && "hard_gate_triggered" !in first
      then first + ["hard_gate_triggered"] else first;
    if summary.requiredReview && summary.decision == Review && second == [] then ["review_required"] else second
  }

  method BuildEscalationReasons(summary: Summary) returns (reasons: seq<string>)
    ensures reasons == EscalationReasons(summary)
  {
    reasons := [];
    var reason := if summary.escalationReason.Some? then Text.Strip(summary.escalationReason.value) else "";
    if reason != "" && Text.Lower(reason) != "none" {
      reasons := reasons + [reason];
    }
    if summary.hardGateTriggered && "hard_gate_triggered" !in reasons {
      reasons := reasons + ["hard_gate_triggered"];
    }
    if summary.requiredReview && summary.decision == Review && reasons == [] {
      reasons := reasons + ["review_required"];
    }
  }

  function BuildPacket(summary: Summary): Packet {
    Packet(summary.currentTask, summary.risk, summary.routing, summary.hardGateTriggered, summary.hardGateTriggers,
      EscalationReasons(summary), summary.proposedAction, summary.decision, summary.requiredReview)
  }

  /** The trimmed values without blanks and without repetitions, each where it first occurs. */
  function Unique(values: seq<string>): seq<string> {
    if values == [] then []
    else
      var rest := Unique(values[..|values| - 1]);
      var value := Text.Strip(values[|values| - 1]);
      if value == "" || value in rest then rest else rest + [value]
  }

  method NormalizeValues(values: seq<string>) returns (result: seq<string>)
    ensures result == Unique(values)
  {
    var seen: set<string> := {};
    result := [];
    for i := 0 to |values|
      invariant result == Unique(values[..i])
      invariant forall v :: v in seen <==> v in result
    {
      var value := Text.Strip(values[i]);
      assert values[..i + 1][..i] == values[..i];
      if value != "" && value !in seen {
        seen := seen + {value};
        result := result + [value];
      }
    }
    assert values[..|values|] == values;
  }

  /** The values of the result are exactly the trimmed non-blank inputs, each once, by first occurrence. */
  lemma {:induction false} UniqueExactly(values: seq<string>)
    ensures forall v :: v in Unique(values) <==> v != "" && exists w :: w in values && Text.Strip(w) == v
    ensures forall i, j :: 0 <= i < j < |Unique(values)| ==> Unique(values)[i] != Unique(values)[j]
  {
    if values != [] {
      var n := |values| - 1;
      UniqueExactly(values[..n]);
      assert forall w :: w in values <==> w in values[..n] || w == values[n];
    }
  }

  lemma {:induction false} UniqueExtends(values: seq<string>, more: seq<string>)
    ensures Unique(values) <= Unique(values + more)
    decreases |more|
  {
    hide Text.Strip;
    if more == [] {
      assert values + more == values;
    } else {
      var n := |more| - 1;
      UniqueExtends(values, more[..n]);
      assert (values + more)[..|values| + n] == values + more[..n];
    }
  }

  predicate AllTrimmed(values: seq<string>) {
    forall i :: 0 <= i < |values| ==> values[i] != "" && Text.Strip(values[i]) == values[i]
  }

  lemma {:induction false} UniqueIsTrimmed(values: seq<string>)
    ensures AllTrimmed(Unique(values))
  {
    if values != [] {
      UniqueIsTrimmed(values[..|values| - 1]);
      Text.StripTrims(values[|values| - 1]);
      Text.StripTrims(Text.Strip(values[|values| - 1]));
    }
  }

  lemma {:induction false} UniqueFixes(values: seq<string>)
    requires AllTrimmed(values) && forall i, j :: 0 <= i < j < |values| ==> values[i] != values[j]
    ensures Unique(values) == values
  {
    if values != [] {
      var n := |values| - 1;
      UniqueFixes(values[..n]);
      assert values[n] !in values[..n];
    }
  }

  /** Normalizing a list of values twice is normalizing it once. */
  lemma UniqueIdempotent(values: seq<string>)
    ensures Unique(Unique(values)) == Unique(values)
  {
    UniqueIsTrimmed(values);
    UniqueExactly(values);
    UniqueFixes(Unique(values));
  }

  /** A queue item has to name a task. */
  datatype Refusal = TaskMissing

  function ItemOf(packet: Packet): QueueItem {
    var reasons := Unique(packet.escalationReasons);
    QueueItem(packet.currentTask, packet.risk, packet.routing, packet.hardGateStatus, Unique(packet.hardGateTriggers),
      if reasons != [] then Some(reasons[0]) else None, reasons, packet.recommendation)
  }

  function BuildQueueItem(packet: Packet): Result<QueueItem, Refusal> {
    if packet.currentTask == "" then Err(TaskMissing) else Ok(ItemOf(packet))
  }

  /******* Activation *******/

  function UnresolvedBlockers(item: QueueItem): seq<string> {
    var listed := item.hardGateTriggers + item.escalationReasons;
    var named := if item.escalationReason.Some? && item.escalationReason.value != ""
      then listed + [item.escalationReason.value] else listed;
    Unique(if item.hardGateStatus && named == [] then ["hard_gate_active"] else named)
  }

  method CollectUnresolvedBlockers(item: QueueItem) returns (blockers: seq<string>)
    ensures blockers == UnresolvedBlockers(item)
  {
    var collected: seq<string> := [];
    collected := collected + item.hardGateTriggers;
    collected := collected + item.escalationReasons;
    if item.escalationReason.Some? && item.escalationReason.value != "" {
      collected := collected + [item.escalationReason.value];
    }
    if item.hardGateStatus && collected == [] {
      collected := collected + ["hard_gate_active"];
    }
    assert [] + item.hardGateTriggers == item.hardGateTriggers;
    blockers := NormalizeValues(collected);
  }

  function HumanStatusFor(decision: Decision): HumanStatus {
    match decision
    case Go => ApprovedByHuman
    case Pause => PendingHuman
    case Review => WithheldByHuman
  }

  function DeriveActivation(packet: Packet, item: QueueItem, decision: Decision): Activation {
    var blockers := UnresolvedBlockers(item);
    var unblocked := if decision == Go && blockers != [] then Pause else decision;
    var recommendation := if unblocked == Go && packet.requiredReview then Pause else unblocked;
    Activation(recommendation, blockers, HumanStatusFor(recommendation), blockers == [] && !packet.requiredReview,
      recommendation == Review, blockers != [] || recommendation in {Pause, Review})
  }

  function ProjectActivation(summary: Summary, management: Option<ManagementDecision>): Result<Activation, Refusal> {
    var packet := BuildPacket(summary);
    var item :- BuildQueueItem(packet);
    Ok(DeriveActivation(packet, item, if management.Some? then management.value.decision else summary.decision))
  }

  function ProjectDecision(summary: Summary, management: Option<ManagementDecision>): Projection {
    var decision := if management.Some? then management.value.decision else summary.decision;
    var candidate := if management.Some? && management.value.approvedNextAction != ""
      then management.value.approvedNextAction else summary.proposedAction;
    if decision == Review then Projection(decision, EscalateToManagement, false)
    else if decision == Pause then Projection(decision, ResolveBlockers, false)
    else if summary.requiredReview then Projection(decision, AwaitReview, false)
    else if summary.hardGateTriggered then Projection(decision, KeepReviewPath, false)
    else Projection(decision, Proceed(candidate), true)
  }

  /** A dry-run request, as far as it reaches the decision. */
  datatype Request = Request(
    userRequest: string, currentTask: Option<string>, context: Context, proposedAction: string,
    trendAction: Option<string>, generateWorkOrder: bool, management: Option<ManagementDecision>)

  /** The request as intake reads it: escaped line ends become line ends, and the ends are trimmed. */
  function Objective(userRequest: string): string {
    Text.Strip(Unescaped(userRequest))
  }

  function Unescaped(userRequest: string): string {
    Text.Replace(Text.Replace(Text.Replace(userRequest, "`r`n", "\n"), "`n", "\n"), "\r\n", "\n")
  }

  /** The task that is named, or the request itself if none is. */
  function TaskOf(request: Request): string {
    if request.currentTask.Some? && request.currentTask.value != "" then request.currentTask.value
    else Objective(request.userRequest)
  }

  function SummaryOf(request: Request): Summary {
    var triage := TriageTask(request.context);
    BuildSummary(Brief(TaskOf(request), request.proposedAction), triage, request.trendAction,
      if request.generateWorkOrder then Some(BuildWorkOrder(triage)) else None)
  }

  datatype DryRun = DryRun(activation: Activation, projection: Projection)

  /** The activation comes first, so a request without a task is refused before any decision is projected. */
  function RunDryRun(request: Request): Result<DryRun, Refusal> {
    var activation :- ProjectActivation(SummaryOf(request), request.management);
    Ok(DryRun(activation, ProjectDecision(SummaryOf(request), request.management)))
  }

  /******* End to end *******/

  /** The facts of a triage result on which the chain rests. */
  predicate Coherent(triage: TriageResult) {
    && (triage.decision == Go ==> triage.gates == {} && triage.escalation == NoEscalation && !triage.escalationLikely)
    && (triage.decision == Go ==> triage.routing in {ActionDepartment, Implementation})
    && (triage.decision != Go ==> triage.escalation != NoEscalation)
    && (triage.decision == Review <==> triage.escalationLikely)
    && (triage.routing in {ManagementDepartment, AuditReview} ==> triage.decision == Review)
    && (triage.gates != {} ==> triage.decision == Review)
  }

  lemma TriageCoherent(context: Context)
    ensures Coherent(TriageTask(context))
  {
    hide NormalizedAreas, DetectHardGates;
  }

  lemma NoGatesNoValues(gates: set<HardGate>, ordered: seq<HardGate>)
    ensures gates == {} ==> ValuesOf(gates, ordered) == []
  {
  }

  lemma SummaryFacts(request: Request)
    ensures var s := SummaryOf(request); var t := TriageTask(request.context);
      && s.currentTask == TaskOf(request)
      && s.decision == t.decision && s.requiredReview == (t.decision == Review)
      && s.escalationReason == Some(EscalationValue(t.escalation))
      && s.hardGateTriggered == (s.hardGateTriggers != [])
      && s.hardGateTriggers == ValuesOf(t.gates, GATES_BY_VALUE)
      && (s.hardGateTriggered ==> t.decision == Review)
  {
    hide TriageTask, ValuesOf;
    var t := TriageTask(request.context);
    TriageCoherent(request.context);
    NoGatesNoValues(t.gates, GATES_BY_VALUE);
  }

  /** A reason other than `none` is reported, and `none` is not. */
  lemma EscalationText(e: Escalation)
    ensures Text.Strip(EscalationValue(e)) == EscalationValue(e) != ""
    ensures Text.Lower(EscalationValue(e)) == "none" <==> e == NoEscalation
  {
    hide Text.Strip;
    Text.WordStays(EscalationValue(e));
    if e == NoEscalation {
      assert Text.Lower("none") == "none";
    } else {
      assert |EscalationValue(e)| > 4;
    }
  }

  lemma UniqueEmpty(values: seq<string>)
    ensures values == [] ==> Unique(values) == []
    ensures (exists v :: v in values && Text.Strip(v) != "") ==> Unique(values) != []
  {
  }

  lemma ItemBlockers(request: Request)
    ensures UnresolvedBlockers(ItemOf(BuildPacket(SummaryOf(request)))) == [] <==>
      TriageTask(request.context).decision == Go
  {
    hide TriageTask, ValuesOf, SummaryOf, Unique, Text.Strip, Text.Lower;
    var t := TriageTask(request.context);
    TriageCoherent(request.context);
    SummaryFacts(request);
    NoGatesNoValues(t.gates, GATES_BY_VALUE);
    EscalationText(t.escalation);
    var packet := BuildPacket(SummaryOf(request));
    var item := ItemOf(packet);
    UniqueEmpty(packet.hardGateTriggers);
    UniqueEmpty(packet.escalationReasons);
    if t.decision == Go {
      assert packet.escalationReasons == [];
      UniqueEmpty(item.hardGateTriggers + item.escalationReasons);
    } else {
      var reason := EscalationValue(t.escalation);
      assert packet.escalationReasons[0] == reason;
      UniqueExactly(packet.escalationReasons);
      assert reason in item.escalationReasons;
      var named := item.hardGateTriggers + item.escalationReasons +
        (if item.escalationReason.Some? && item.escalationReason.value != "" then [item.escalationReason.value]
          else []);
      assert reason in named;
      assert item.hardGateTriggers + item.escalationReasons + [] == item.hardGateTriggers + item.escalationReasons;
      UniqueEmpty(named);
    }
  }

  /** Requests are answered exactly when they name a task or hold more than space and line ends. */
  lemma AnsweredExactly(request: Request)
    ensures RunDryRun(request).Ok? <==>
      || (request.currentTask.Some? && request.currentTask.value != "")
      || exists i :: 0 <= i < |Unescaped(request.userRequest)| && !Text.IsSpace(Unescaped(request.userRequest)[i])
  {
    hide TriageTask, SummaryOf, UnresolvedBlockers, ItemOf, ProjectDecision, Unescaped;
    SummaryFacts(request);
    Text.StripEmpty(Unescaped(request.userRequest));
  }

  /** A blank request that names no task is refused. */
  lemma BlankIsRefused(request: Request)
    requires Text.AllSpace(request.userRequest) && (request.currentTask.None? || request.currentTask.value == "")
    ensures RunDryRun(request) == Err(TaskMissing)
  {
    hide TriageTask, SummaryOf, UnresolvedBlockers, ItemOf, ProjectDecision, Text.Replace;
    Text.ReplaceKeepsSpace(request.userRequest, "`r`n", "\n");
    Text.ReplaceKeepsSpace(Text.Replace(request.userRequest, "`r`n", "\n"), "`n", "\n");
    Text.ReplaceKeepsSpace(Text.Replace(Text.Replace(request.userRequest, "`r`n", "\n"), "`n", "\n"), "\r\n", "\n");
    AnsweredExactly(request);
  }

  /** For every answered request, blockers remain exactly when triage did not say GO. */
  lemma BlockersExactly(request: Request)
    requires RunDryRun(request).Ok?
    ensures RunDryRun(request).value.activation.remainingBlockers == [] <==> TriageTask(request.context).decision == Go
  {
    hide TriageTask, SummaryOf, UnresolvedBlockers, ItemOf, ProjectDecision;
    ItemBlockers(request);
  }

  /** The activation of an answered request says GO exactly when triage does and management is absent or says GO too;
      GO from management over another triage result becomes PAUSE, and any other word of management stands. */
  lemma ActivationExactly(request: Request)
    requires RunDryRun(request).Ok?
    ensures var triage := TriageTask(request.context).decision;
      RunDryRun(request).value.activation.recommendation ==
        match request.management
        case None => triage
        case Some(m) => if m.decision == Go && triage != Go then Pause else m.decision
  {
    hide TriageTask, SummaryOf, UnresolvedBlockers, ItemOf, ProjectDecision;
    SummaryFacts(request);
    ItemBlockers(request);
  }

  /** Human status, escalation and the need for another review follow the recommendation; whether blockers are cleared
      follows triage, whatever management says. */
  lemma ActivationConsistent(request: Request)
    requires RunDryRun(request).Ok?
    ensures var a := RunDryRun(request).value.activation;
      && (a.human == ApprovedByHuman <==> a.recommendation == Go)
      && (a.human == PendingHuman <==> a.recommendation == Pause)
      && (a.human == WithheldByHuman <==> a.recommendation == Review)
      && (a.escalated <==> a.recommendation == Review)
      && (a.blockersCleared <==> TriageTask(request.context).decision == Go)
      && (a.reReviewRequired <==> a.recommendation != Go)
      && (a.recommendation == Go ==> a.blockersCleared && a.remainingBlockers == [])
  {
    hide TriageTask, SummaryOf, UnresolvedBlockers, ItemOf, ProjectDecision;
    SummaryFacts(request);
    ItemBlockers(request);
  }

  lemma ValuesExactly(gates: set<HardGate>, v: string)
    ensures v in ValuesOf(gates, GATES_BY_VALUE) <==> exists g :: g in gates && GateValue(g) == v
  {
    forall g: HardGate
      ensures g in GATES_BY_VALUE
    {
      GateListed(g);
    }
  }

  lemma GateListed(g: HardGate)
    ensures g in GATES_BY_VALUE
  {
    match g
    case AuthenticationBehavior => assert GATES_BY_VALUE[4] == g;
    case AuthorizationBehavior => assert GATES_BY_VALUE[5] == g;
    case ApprovalFlow => assert GATES_BY_VALUE[1] == g;
    case PolicyModel => assert GATES_BY_VALUE[11] == g;
    case StrictMode => assert GATES_BY_VALUE[15] == g;
    case ActorTrustModel => assert GATES_BY_VALUE[0] == g;
    case AuditSemantics => assert GATES_BY_VALUE[3] == g;
    case DatabaseSchema => assert GATES_BY_VALUE[6] == g;
    case ProviderContract => assert GATES_BY_VALUE[9] == g;
    case DependencyAddition => assert GATES_BY_VALUE[7] == g;
    case DestructiveRefactor => assert GATES_BY_VALUE[8] == g;
    case ProductionBehavior => assert GATES_BY_VALUE[12] == g;
    case ExternalWrite => assert GATES_BY_VALUE[10] == g;
    case EnvHandling => assert GATES_BY_VALUE[14] == g;
    case RoadmapPhase => assert GATES_BY_VALUE[13] == g;
    case ArchitectureDirection => assert GATES_BY_VALUE[2] == g;
  }

  lemma GateText(g: HardGate)
    ensures Text.Strip(GateValue(g)) == GateValue(g) != ""
  {
    hide Text.Strip;
    Text.WordStays(GateValue(g));
  }

  /** The reasons of a packet: the escalation and, if a gate is triggered, that it is. */
  lemma ReasonsExactly(request: Request, b: string)
    ensures var t := TriageTask(request.context);
      b in EscalationReasons(SummaryOf(request)) <==>
        || (t.escalation != NoEscalation && b == EscalationValue(t.escalation))
        || (t.gates != {} && b == "hard_gate_triggered")
  {
    hide TriageTask, ValuesOf, SummaryOf, Text.Strip, Text.Lower, EscalationValue;
    var t := TriageTask(request.context);
    TriageCoherent(request.context);
    SummaryFacts(request);
    EscalationText(t.escalation);
    SomeGate(t.gates);
  }

  lemma SomeGate(gates: set<HardGate>)
    ensures ValuesOf(gates, GATES_BY_VALUE) == [] <==> gates == {}
  {
    hide ValuesOf;
    NoGatesNoValues(gates, GATES_BY_VALUE);
    if g :| g in gates {
      ValuesExactly(gates, GateValue(g));
    }
  }

  /** The blockers that remain are the values of the triggered gates, the reason for the escalation, and, if a gate is
      triggered, that it is; each is listed once. */
  lemma BlockersAre(request: Request)
    requires RunDryRun(request).Ok?
    ensures var t := TriageTask(request.context); var blockers := RunDryRun(request).value.activation.remainingBlockers;
      && (forall b :: b in blockers <==>
            || (exists g :: g in t.gates && GateValue(g) == b)
            || (t.escalation != NoEscalation && b == EscalationValue(t.escalation))
            || (t.gates != {} && b == "hard_gate_triggered"))
      && forall i, j :: 0 <= i < j < |blockers| ==> blockers[i] != blockers[j]
  {
    hide TriageTask, SummaryOf, UnresolvedBlockers, ItemOf, ProjectDecision, GateValue, EscalationValue;
    var t, blockers := TriageTask(request.context), RunDryRun(request).value.activation.remainingBlockers;
    forall b
      ensures b in blockers <==>
        || (exists g :: g in t.gates && GateValue(g) == b)
        || (t.escalation != NoEscalation && b == EscalationValue(t.escalation))
        || (t.gates != {} && b == "hard_gate_triggered")
    {
      BlockerExactly(request, b);
    }
    BlockersUnique(ItemOf(BuildPacket(SummaryOf(request))));
  }

  lemma BlockersUnique(item: QueueItem)
    ensures var blockers := UnresolvedBlockers(item);
      forall i, j :: 0 <= i < j < |blockers| ==> blockers[i] != blockers[j]
  {
    hide Unique;
    var listed := item.hardGateTriggers + item.escalationReasons;
    var named := if item.escalationReason.Some? && item.escalationReason.value != ""
      then listed + [item.escalationReason.value] else listed;
    UniqueExactly(if item.hardGateStatus && named == [] then ["hard_gate_active"] else named);
  }

  lemma BlockerExactly(request: Request, b: string)
    ensures var t := TriageTask(request.context);
      b in UnresolvedBlockers(ItemOf(BuildPacket(SummaryOf(request)))) <==>
        || (exists g :: g in t.gates && GateValue(g) == b)
        || (t.escalation != NoEscalation && b == EscalationValue(t.escalation))
        || (t.gates != {} && b == "hard_gate_triggered")
  {
    hide TriageTask, ValuesOf, SummaryOf, Unique, Text.Strip, EscalationReasons, GateValue, EscalationValue;
    var t := TriageTask(request.context);
    SummaryFacts(request);
    var packet := BuildPacket(SummaryOf(request));
    var item := ItemOf(packet);
    ReasonsStripped(request);
    forall v
      ensures v in packet.hardGateTriggers <==> exists g :: g in t.gates && GateValue(g) == v
      ensures v in packet.escalationReasons <==>
        || (t.escalation != NoEscalation && v == EscalationValue(t.escalation))
        || (t.gates != {} && v == "hard_gate_triggered")
    {
      ValuesExactly(t.gates, v);
      ReasonsExactly(request, v);
    }
    UniqueExactly(packet.hardGateTriggers);
    UniqueExactly(packet.escalationReasons);
    UniqueIsTrimmed(packet.hardGateTriggers);
    UniqueIsTrimmed(packet.escalationReasons);
    if packet.hardGateTriggers != [] {
      assert packet.hardGateTriggers[0] in packet.hardGateTriggers;
      assert packet.hardGateTriggers[0] in item.hardGateTriggers;
    }
    assert item.escalationReason.Some? ==> item.escalationReason.value in item.escalationReasons;
    BlockersOfItem(item, b);
  }

  /** All values that can block are trimmed and not blank. */
  lemma ReasonsStripped(request: Request)
    ensures var t := TriageTask(request.context);
      && (forall g :: g in t.gates ==> Text.Strip(GateValue(g)) == GateValue(g) != "")
      && Text.Strip(EscalationValue(t.escalation)) == EscalationValue(t.escalation) != ""
      && Text.Strip("hard_gate_triggered") == "hard_gate_triggered"
  {
    hide Text.Strip, GateValue, TriageTask;
    forall g: HardGate
      ensures Text.Strip(GateValue(g)) == GateValue(g) != ""
    {
      GateText(g);
    }
    EscalationText(TriageTask(request.context).escalation);
    EscalationText(HardGateTriggered);
  }

  /** For an item whose status goes with its triggers, the blockers are triggers and reasons. */
  lemma BlockersOfItem(item: QueueItem, b: string)
    requires item.escalationReason.Some? ==> item.escalationReason.value in item.escalationReasons
    requires item.hardGateStatus ==> item.hardGateTriggers != [] || item.escalationReasons != []
    requires AllTrimmed(item.hardGateTriggers) && AllTrimmed(item.escalationReasons)
    ensures b in UnresolvedBlockers(item) <==> b in item.hardGateTriggers || b in item.escalationReasons
  {
    hide Unique, Text.Strip;
    var listed := item.hardGateTriggers + item.escalationReasons;
    var named := if item.escalationReason.Some? && item.escalationReason.value != ""
      then listed + [item.escalationReason.value] else listed;
    UniqueExactly(named);
    forall v | v in named
      ensures v in item.hardGateTriggers || v in item.escalationReasons
      ensures v != "" && Text.Strip(v) == v
    {
      if v in item.hardGateTriggers {
        var i :| 0 <= i < |item.hardGateTriggers| && item.hardGateTriggers[i] == v;
      } else {
        var i :| 0 <= i < |item.escalationReasons| && item.escalationReasons[i] == v;
      }
    }
  }

  /** What is proposed where triage does not ask for a review. */
  ghost function Proposal(request: Request): string {
    var pausing := TriageTask(request.context).decision == Pause;
    if request.generateWorkOrder then
      if pausing then PAUSED_STEP
      else if OnlyHarmless(request.context)
      then SUPPORT_STEP
      else IMPLEMENTATION_STEP
    else if pausing then PAUSED_PROPOSAL
    else if request.trendAction.Some? then request.trendAction.value
    else request.proposedAction
  }

  lemma NextActionFor(context: Context)
    requires TriageTask(context).decision != Review
    ensures NextAction(TriageTask(context)) ==
      if TriageTask(context).decision == Pause
      then PAUSED_STEP
      else if OnlyHarmless(context)
      then SUPPORT_STEP
      else IMPLEMENTATION_STEP
  {
    hide TriageTask, OnlyHarmless, PAUSED_STEP, SUPPORT_STEP, IMPLEMENTATION_STEP;
    TriageTells(context);
  }

  lemma SummaryProposes(request: Request)
    requires TriageTask(request.context).decision != Review
    ensures SummaryOf(request).proposedAction == Proposal(request)
  {
    hide TriageTask, ValuesOf, OnlyHarmless, TaskOf, NextAction, EscalationValue;
    hide ManagementReviewRequired, PAUSED_STEP, SUPPORT_STEP, IMPLEMENTATION_STEP, PAUSED_PROPOSAL;
    NextActionFor(request.context);
  }

  /** The next step of an answered request; the review path for triggered gates alone is never announced. */
  lemma ProjectionExactly(request: Request)
    requires RunDryRun(request).Ok?
    ensures var triage := TriageTask(request.context).decision; var p := RunDryRun(request).value.projection;
      && p.decision == (if request.management.Some? then request.management.value.decision else triage)
      && p.nextStep == (match p.decision
                        case Review => EscalateToManagement
                        case Pause => ResolveBlockers
                        case Go => if triage == Review then AwaitReview else Proceed(
                          if request.management.Some? && request.management.value.approvedNextAction != ""
                          then request.management.value.approvedNextAction else Proposal(request)))
  {
    hide TriageTask, ProjectActivation, SummaryOf, Proposal;
    SummaryFacts(request);
    if TriageTask(request.context).decision != Review {
      SummaryProposes(request);
    }
  }

  lemma AutonomyOf(summary: Summary, management: Option<ManagementDecision>)
    ensures ProjectDecision(summary, management).autonomousContinuation <==>
      && (if management.Some? then management.value.decision else summary.decision) == Go
      && !summary.requiredReview && !summary.hardGateTriggered
  {
  }

  /** Autonomous continuation follows management's GO over every triage result but REVIEW,
      so it is wider than activation:
      the two part exactly when management says GO over a PAUSE. */
  lemma AutonomyExactly(request: Request)
    requires RunDryRun(request).Ok?
    ensures var triage := TriageTask(request.context).decision;
      var allowed := RunDryRun(request).value.projection.autonomousContinuation;
      var activated := RunDryRun(request).value.activation.recommendation == Go;
      && (allowed <==>
            if request.management.None? then triage == Go
            else request.management.value.decision == Go && triage != Review)
      && (activated ==> allowed)
      && (allowed && !activated <==>
            triage == Pause && request.management.Some? && request.management.value.decision == Go)
  {
    hide TriageTask, SummaryOf, ProjectActivation, ProjectDecision;
    SummaryFacts(request);
    ActivationExactly(request);
    AutonomyOf(SummaryOf(request), request.management);
  }
}
