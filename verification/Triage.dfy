/** Continuation checks and triage of a task by the areas it changes. */
module Triage {
  import Text

  datatype Decision = Go | Pause | Review

  datatype Risk = Low | Medium | High

  datatype HardGate =
    | AuthenticationBehavior | AuthorizationBehavior | ApprovalFlow | PolicyModel | StrictMode | ActorTrustModel
    | AuditSemantics | DatabaseSchema | ProviderContract | DependencyAddition | DestructiveRefactor
    | ProductionBehavior | ExternalWrite | EnvHandling | RoadmapPhase | ArchitectureDirection

  function GateValue(gate: HardGate): string {
    match gate
    case AuthenticationBehavior => "authentication_behavior_change"
    case AuthorizationBehavior => "authorization_behavior_change"
    case ApprovalFlow => "approval_flow_change"
    case PolicyModel => "policy_model_change"
    case StrictMode => "strict_mode_change"
    case ActorTrustModel => "actor_identity_trust_change"
    case AuditSemantics => "audit_logging_semantics_change"
    case DatabaseSchema => "database_schema_or_migration"
    case ProviderContract => "external_provider_contract_change"
    case DependencyAddition => "dependency_addition_required"
    case DestructiveRefactor => "destructive_refactor"
    case ProductionBehavior => "production_behavior_change"
    case ExternalWrite => "external_write_send_publish_action"
    case EnvHandling => "secrets_credentials_env_handling_change"
    case RoadmapPhase => "roadmap_phase_change_required"
    case ArchitectureDirection => "architecture_direction_change_required"
  }

  /** The gates in the order of their values. */
  const GATES_BY_VALUE := [
    ActorTrustModel, ApprovalFlow, ArchitectureDirection, AuditSemantics, AuthenticationBehavior, AuthorizationBehavior,
    DatabaseSchema, DependencyAddition, DestructiveRefactor, ProviderContract, ExternalWrite, PolicyModel,
    ProductionBehavior, RoadmapPhase, EnvHandling, StrictMode
  ]

  const AREA_TO_HARD_GATE: map<string, HardGate> := map[
    "auth" := AuthenticationBehavior,
    "authorization" := AuthorizationBehavior,
    "approval" := ApprovalFlow,
    "policy" := PolicyModel,
    "strict_mode" := StrictMode,
    "actor_trust" := ActorTrustModel,
    "audit" := AuditSemantics,
    "schema" := DatabaseSchema,
    "migration" := DatabaseSchema,
    "provider_contract" := ProviderContract,
    "dependency" := DependencyAddition,
    "destructive_refactor" := DestructiveRefactor,
    "production_behavior" := ProductionBehavior,
    "external_write" := ExternalWrite,
    "env" := EnvHandling,
    "phase_change" := RoadmapPhase,
    "architecture_change" := ArchitectureDirection
  ]

  const LOW_RISK_AREAS := {"docs", "formatting", "tests", "summary", "classification", "extraction"}

  const CROSS_DEPARTMENT_AREA := "cross_department"

  /** The areas that are not blank, trimmed and in lower case. */
  function NormalizedAreas(areas: set<string>): set<string> {
    set area | area in areas && Text.Strip(area) != "" :: Text.Normalize(area)
  }

  function DetectHardGates(areas: set<string>): set<HardGate> {
    set area | area in NormalizedAreas(areas) && area in AREA_TO_HARD_GATE :: AREA_TO_HARD_GATE[area]
  }

  datatype Assessment = Assessment(decision: Decision, risk: Risk)

  function AssessContinuation(inActivePhase: bool, nextStepClear: bool, verified: bool,
                              gates: set<HardGate>): Assessment {
    if gates != {} then Assessment(Review, High)
    else if !inActivePhase then Assessment(Review, High)
    else if !nextStepClear then Assessment(Pause, Medium)
    else if !verified then Assessment(Pause, Medium)
    else Assessment(Go, Low)
  }

  datatype Routing = ManagementDepartment | ProgressControl | ActionDepartment | Implementation | AuditReview

  datatype Escalation =
    | NoEscalation | HardGateTriggered | PhaseMismatch | VerificationUnstable | AmbiguousScope | CrossDepartment

  function EscalationValue(e: Escalation): string {
    match e
    case NoEscalation => "none"
    case HardGateTriggered => "hard_gate_triggered"
    case PhaseMismatch => "phase_mismatch"
    case VerificationUnstable => "verification_unstable"
    case AmbiguousScope => "ambiguous_scope"
    case CrossDepartment => "cross_department_routing"
  }

  datatype Context = Context(changedAreas: set<string>, inActivePhase: bool, verified: bool, ambiguous: bool)

  datatype TriageResult = TriageResult(
    risk: Risk, routing: Routing, escalation: Escalation, escalationLikely: bool, decision: Decision,
      gates: set<HardGate>)

  function TriageTask(context: Context): TriageResult {
    var areas := NormalizedAreas(context.changedAreas);
    var gates := DetectHardGates(areas);
    var continuation := AssessContinuation(context.inActivePhase, !context.ambiguous, context.verified, gates);
    if CROSS_DEPARTMENT_AREA in areas then TriageResult(High, ManagementDepartment, CrossDepartment, true, Review,
      gates)
    else if gates != {} then TriageResult(High, ManagementDepartment, HardGateTriggered, true, Review, gates)
    else if !context.inActivePhase then TriageResult(High, ManagementDepartment, PhaseMismatch, true, Review, gates)
    else if !context.verified then TriageResult(Medium, ProgressControl, VerificationUnstable, false, Pause, gates)
    else if context.ambiguous then TriageResult(Medium, ProgressControl, AmbiguousScope, false, Pause, gates)
    else if areas != {} && areas <= LOW_RISK_AREAS then TriageResult(Low, ActionDepartment, NoEscalation, false, Go,
      gates)
    else if continuation.decision == Go then TriageResult(Medium, Implementation, NoEscalation, false, Go, gates)
    else TriageResult(Medium, ProgressControl, AmbiguousScope, false, Pause, gates)
  }

  /** Some changed area names the text, up to case and surrounding space. */
  predicate Changes(context: Context, area: string) {
    exists written :: written in context.changedAreas && Text.Strip(written) != "" && Text.Normalize(written) == area
  }

  /** The words for the areas that a hard gate guards. */
  predicate Raises(area: string, gate: HardGate) {
    match gate
    case AuthenticationBehavior => area == "auth"
    case AuthorizationBehavior => area == "authorization"
    case ApprovalFlow => area == "approval"
    case PolicyModel => area == "policy"
    case StrictMode => area == "strict_mode"
    case ActorTrustModel => area == "actor_trust"
    case AuditSemantics => area == "audit"
    case DatabaseSchema => area == "schema" || area == "migration"
    case ProviderContract => area == "provider_contract"
    case DependencyAddition => area == "dependency"
    case DestructiveRefactor => area == "destructive_refactor"
    case ProductionBehavior => area == "production_behavior"
    case ExternalWrite => area == "external_write"
    case EnvHandling => area == "env"
    case RoadmapPhase => area == "phase_change"
    case ArchitectureDirection => area == "architecture_change"
  }

  /** Some changed area is guarded by a hard gate. */
  ghost predicate Guarded(context: Context) {
    exists gate, area :: Raises(area, gate) && Changes(context, area)
  }

  lemma TableRaises(area: string, gate: HardGate)
    ensures area in AREA_TO_HARD_GATE && AREA_TO_HARD_GATE[area] == gate <==> Raises(area, gate)
  {
  }

  lemma NormalizedTwice(areas: set<string>)
    ensures NormalizedAreas(NormalizedAreas(areas)) == NormalizedAreas(areas)
  {
    forall area | area in areas && Text.Strip(area) != ""
      ensures Text.Normalize(Text.Normalize(area)) == Text.Normalize(area) && Text.Strip(Text.Normalize(area)) != ""
    {
      Text.NormalizeIdempotent(area);
    }
    forall area
      ensures area in NormalizedAreas(NormalizedAreas(areas)) <==> area in NormalizedAreas(areas)
    {
      if area in NormalizedAreas(areas) {
        var written :| written in areas && Text.Strip(written) != "" && Text.Normalize(written) == area;
        assert Text.Normalize(area) == area && Text.Strip(area) != "";
      }
      if area in NormalizedAreas(NormalizedAreas(areas)) {
        var normal :| normal in NormalizedAreas(areas) && Text.Strip(normal) != "" && Text.Normalize(normal) == area;
        var written :| written in areas && Text.Strip(written) != "" && Text.Normalize(written) == normal;
        assert normal == area;
      }
    }
  }

  /** A gate is triggered exactly when one of its words is written among the changed areas. */
  lemma GateExactly(context: Context, gate: HardGate)
    ensures gate in DetectHardGates(context.changedAreas) <==>
      exists area :: Raises(area, gate) && Changes(context, area)
  {
    hide Text.Normalize, Text.Strip, AREA_TO_HARD_GATE, Raises;
    var areas := NormalizedAreas(context.changedAreas);
    if area :| Raises(area, gate) && Changes(context, area) {
      TableRaises(area, gate);
      assert area in areas;
    }
    if gate in DetectHardGates(context.changedAreas) {
      var area :| area in areas && area in AREA_TO_HARD_GATE && AREA_TO_HARD_GATE[area] == gate;
      TableRaises(area, gate);
      assert Changes(context, area);
    }
  }

  lemma GatesExactly(context: Context)
    ensures DetectHardGates(NormalizedAreas(context.changedAreas)) == DetectHardGates(context.changedAreas)
    ensures DetectHardGates(context.changedAreas) != {} <==> Guarded(context)
  {
    hide Text.Normalize, Text.Strip, AREA_TO_HARD_GATE, Raises, NormalizedAreas, Changes;
    NormalizedTwice(context.changedAreas);
    forall gate
      ensures gate in DetectHardGates(context.changedAreas) <==>
        exists area :: Raises(area, gate) && Changes(context, area)
    {
      GateExactly(context, gate);
    }
    if gate, area :| Raises(area, gate) && Changes(context, area) {
      assert gate in DetectHardGates(context.changedAreas);
    }
  }

  /** Triage in terms of what the caller wrote: which inputs are reviewed, which pause, and which go. */
  lemma TriageExactly(context: Context)
    ensures var reviewed := Changes(context, "cross_department") || Guarded(context) || !context.inActivePhase;
      TriageTask(context).decision ==
        if reviewed then Review else if !context.verified || context.ambiguous then Pause else Go
  {
    hide Text.Normalize;
    GatesExactly(context);
    var areas := NormalizedAreas(context.changedAreas);
    if CROSS_DEPARTMENT_AREA in areas {
      assert Changes(context, CROSS_DEPARTMENT_AREA);
    }
    if Changes(context, CROSS_DEPARTMENT_AREA) {
      assert CROSS_DEPARTMENT_AREA in areas;
    }
  }

  /** Away from cross-department work, triage and continuation agree, so the final fallback is never taken. */
  lemma TriageAgreesWithContinuation(context: Context)
    requires !Changes(context, "cross_department")
    ensures TriageTask(context).decision == AssessContinuation(
      context.inActivePhase, !context.ambiguous, context.verified, DetectHardGates(context.changedAreas)).decision
    ensures TriageTask(context).escalation == AmbiguousScope ==> context.ambiguous
    ensures TriageTask(context).routing == ProgressControl ==> !context.verified || context.ambiguous
  {
    hide Text.Normalize;
    NormalizedTwice(context.changedAreas);
    TriageExactly(context);
    GatesExactly(context);
  }

  predicate Harmless(area: string) {
    || area == "docs" || area == "formatting" || area == "tests" || area == "summary" || area == "classification"
    || area == "extraction"
  }

  /** Something is changed, and nothing but what is harmless. */
  predicate OnlyHarmless(context: Context) {
    && (exists written :: written in context.changedAreas && Text.Strip(written) != "")
    && forall written :: written in context.changedAreas && Text.Strip(written) != "" ==>
      Harmless(Text.Normalize(written))
  }

  lemma LowRiskExactly(context: Context)
    ensures var areas := NormalizedAreas(context.changedAreas);
      areas != {} && areas <= LOW_RISK_AREAS <==> OnlyHarmless(context)
  {
    hide Text.Normalize, Text.Strip;
    var areas := NormalizedAreas(context.changedAreas);
    forall area
      ensures area in LOW_RISK_AREAS <==> Harmless(area)
    {
    }
    forall written | written in context.changedAreas && Text.Strip(written) != ""
      ensures Text.Normalize(written) in areas
    {
    }
  }

  /** The reason for an escalation is the first of five that applies, and risk and routing follow the decision. */
  lemma TriageTells(context: Context)
    ensures var t := TriageTask(context); var crossing := Changes(context, "cross_department");
      && t.gates == DetectHardGates(context.changedAreas)
      && (t.escalation == CrossDepartment <==> crossing)
      && (t.escalation == HardGateTriggered <==> !crossing && Guarded(context))
      && (t.escalation == PhaseMismatch <==> !crossing && !Guarded(context) && !context.inActivePhase)
      && (t.escalation == VerificationUnstable <==> t.decision == Pause && !context.verified)
      && (t.escalation == AmbiguousScope <==> t.decision == Pause && context.verified)
      && (t.escalation == NoEscalation <==> t.decision == Go) && (t.escalationLikely <==> t.decision == Review)
      && t.risk == (if t.decision == Review then High
                    else if t.decision == Go && OnlyHarmless(context) then Low else Medium)
      && t.routing == (match t.decision
                       case Review => ManagementDepartment
                       case Pause => ProgressControl
                       case Go => if OnlyHarmless(context) then ActionDepartment else Implementation)
  {
    hide Text.Normalize, Changes, DetectHardGates, NormalizedAreas, Guarded, OnlyHarmless;
    GatesExactly(context);
    TriageExactly(context);
    LowRiskExactly(context);
    CrossingExactly(context);
  }

  lemma CrossingExactly(context: Context)
    ensures CROSS_DEPARTMENT_AREA in NormalizedAreas(context.changedAreas) <==> Changes(context, "cross_department")
  {
    hide Text.Normalize;
  }
}
