/** The approval policy as functions of its arguments. */
module ApprovalRules {
  import opened Prelude
  import opened Domain
  import Text

  datatype PolicySource = DefaultRbac | FromProjectPolicy | FromStrictPolicy | FromRuntimeOverride

  datatype EffectivePolicy = EffectivePolicy(
    roles: set<ActorRole>, actorIds: Option<set<string>>, source: PolicySource,
    strictMode: bool, overrideApplied: bool)

  datatype Decision = Decision(allowed: bool, effective: EffectivePolicy)

  function DefaultRoles(action: ActionType): set<ActorRole> {
    match action
    case ExternalApiSend => {Owner, Approver, Admin}
    case DestructiveChange => {Approver, Admin}
    case BulkModify => {Operator, Approver, Admin}
    case ProductionAffectingChange => {Admin}
  }

  predicate RequiresHumanApproval(action: ActionType) {
    action in {ExternalApiSend, DestructiveChange, BulkModify, ProductionAffectingChange}
  }

  /** The identities that a list of actor ids admits: trimmed, blanks dropped. */
  function NormalizedIds(ids: seq<string>): set<string> {
    set id | id in ids && Text.Strip(id) != "" :: Text.Strip(id)
  }

  predicate KeyMatches(key: string, action: string, exact: bool) {
    if exact then key == action else Text.Normalize(key) == action
  }

  /** The first entry whose key is `action` itself, or, unless `exact`, normalizes to it. */
  function FirstMatch<V>(mapping: Dictionary<V>, action: string, exact: bool): (found: Option<V>)
    ensures found.None? <==> forall i :: 0 <= i < |mapping| ==> !KeyMatches(mapping[i].0, action, exact)
  {
    if mapping == [] then None
    else if KeyMatches(mapping[0].0, action, exact) then Some(mapping[0].1)
    else FirstMatch(mapping[1..], action, exact)
  }

  /** The value found is that of the first matching entry. */
  lemma {:induction false} FirstMatchIsFirst<V>(mapping: Dictionary<V>, action: string, exact: bool, i: nat)
    requires i < |mapping| && KeyMatches(mapping[i].0, action, exact)
    requires forall j :: 0 <= j < i ==> !KeyMatches(mapping[j].0, action, exact)
    ensures FirstMatch(mapping, action, exact) == Some(mapping[i].1)
  {
    hide KeyMatches;
    if i > 0 {
      FirstMatchIsFirst(mapping[1..], action, exact, i - 1);
    }
  }

  lemma {:induction false} FoundIsEntry<V>(mapping: Dictionary<V>, action: string, exact: bool)
    ensures var found := FirstMatch(mapping, action, exact);
      found.Some? ==> exists i :: 0 <= i < |mapping| && mapping[i].1 == found.value
  {
    hide KeyMatches;
    if mapping != [] {
      FoundIsEntry(mapping[1..], action, exact);
    }
  }

  /** A key written exactly wins over keys that only normalize to the action. */
  function Lookup<V>(mapping: Dictionary<V>, action: string): Option<V> {
    var exact := FirstMatch(mapping, action, true);
    if exact.Some? then exact else FirstMatch(mapping, action, false)
  }

  function RuleFor(policy: ProjectPolicy, action: ActionType): Option<PolicyRule> {
    Lookup(policy.actionRules, ActionValue(action))
  }

  function RuntimeIdsFor(overrides: RuntimeOverride, action: ActionType): Option<seq<string>> {
    var found: Option<RuntimeIds> := Lookup(overrides, ActionValue(action));
    match found
    case None => None
    case Some(value) => Some(if value.IdList? then value.ids else [])
  }

  /** The roles that the project's policy admits for the action. */
  function RolesFor(policy: ProjectPolicy, action: ActionType): set<ActorRole> {
    match RuleFor(policy, action)
    case None => if policy.strictMode then {} else DefaultRoles(action)
    case Some(rule) =>
      if rule.allowedRoles != [] then set role | role in rule.allowedRoles else DefaultRoles(action)
  }

  /** The identities to which the action is restricted, if it is. */
  function IdsFor(policy: ProjectPolicy, overrides: RuntimeOverride, action: ActionType): Option<set<string>> {
    match RuntimeIdsFor(overrides, action)
    case Some(ids) => Some(NormalizedIds(ids))
    case None =>
      match RuleFor(policy, action)
      case Some(rule) => if rule.allowedActorIds != [] then Some(NormalizedIds(rule.allowedActorIds)) else None
      case None => None
  }

  function Resolve(action: ActionType, policy: ProjectPolicy, overrides: RuntimeOverride): EffectivePolicy {
    var rule := RuleFor(policy, action);
    if rule.None? && policy.strictMode then
      EffectivePolicy({}, Some({}), FromStrictPolicy, true, true)
    else
      var overridden := RuntimeIdsFor(overrides, action).Some?;
      EffectivePolicy(
        RolesFor(policy, action), IdsFor(policy, overrides, action),
        if overridden then FromRuntimeOverride else if rule.Some? then FromProjectPolicy else DefaultRbac,
        policy.strictMode, overridden || rule.Some?)
  }

  function RolesOf(actor: Actor, owner: Option<string>): set<ActorRole> {
    if owner.Some? && Text.Strip(owner.value) != "" && Text.Strip(owner.value) == Text.Strip(actor.id)
    then {actor.role, Owner} else {actor.role}
  }

  function Authorize(action: ActionType, actor: Actor, policy: ProjectPolicy, overrides: RuntimeOverride): Decision {
    if actor.role == Viewer then
      Decision(false, EffectivePolicy({}, None, DefaultRbac, false, false))
    else
      var effective := Resolve(action, policy, overrides);
      var roles := RolesOf(actor, policy.owner);
      Decision(
        && !(effective.strictMode && effective.roles == {})
        && roles * effective.roles != {}
        && (effective.actorIds.None? || Text.Strip(actor.id) in effective.actorIds.value),
        effective)
  }

  /** No actor is ever authorized for the action, whatever the runtime override says. */
  predicate Closed(policy: ProjectPolicy, action: ActionType) {
    RolesFor(policy, action) <= {Viewer}
  }

  lemma ActionValueIsNormal(action: ActionType)
    ensures Text.Normalize(ActionValue(action)) == ActionValue(action)
  {
    hide Text.Normalize, Text.Strip;
    Text.PlainStays(ActionValue(action));
  }

  /** Keys are found up to case and surrounding space, and only those. */
  lemma {:induction false} LookupFinds<V>(mapping: Dictionary<V>, action: ActionType)
    ensures Lookup(mapping, ActionValue(action)).None? <==>
      forall i :: 0 <= i < |mapping| ==> Text.Normalize(mapping[i].0) != ActionValue(action)
  {
    ActionValueIsNormal(action);
    var exact := FirstMatch(mapping, ActionValue(action), true);
    if exact.Some? {
      var i :| 0 <= i < |mapping| && KeyMatches(mapping[i].0, ActionValue(action), true);
      assert Text.Normalize(mapping[i].0) == ActionValue(action);
    } else if i :| 0 <= i < |mapping| && Text.Normalize(mapping[i].0) == ActionValue(action) {
      assert KeyMatches(mapping[i].0, ActionValue(action), false);
    }
  }

  /** The override dictionary `{action: [id]}` of one call. */
  function OnlyActor(action: ActionType, id: string): RuntimeOverride {
    [(ActionValue(action), IdList([id]))]
  }

  lemma OnlyActorAdmits(action: ActionType, id: string)
    requires Text.Strip(id) == id != ""
    ensures RuntimeIdsFor(OnlyActor(action, id), action) == Some([id])
    ensures id in NormalizedIds([id])
  {
  }

  /** Roles that admit viewers at most, as in strict mode without a rule, are the only way to lock an
      action for good. */
  lemma ClosedExactly(policy: ProjectPolicy, action: ActionType)
    ensures Closed(policy, action) <==>
      forall actor, overrides :: !Authorize(action, actor, policy, overrides).allowed
    ensures RolesFor(policy, action) == {} <==>
      && policy.strictMode
      && forall i :: 0 <= i < |policy.actionRules| ==> Text.Normalize(policy.actionRules[i].0) != ActionValue(action)
  {
    hide Authorize, ActionValue, Text.Normalize, Lookup;
    LookupFinds(policy.actionRules, action);
    RolesEmpty(policy, action);
    if !Closed(policy, action) {
      var role :| role in RolesFor(policy, action) && role != Viewer;
      ChosenActorAllowed(policy, action, role);
    } else {
      forall actor: Actor, overrides
        ensures !Authorize(action, actor, policy, overrides).allowed
      {
        ClosedDenies(policy, action, actor, overrides);
      }
    }
  }

  lemma RolesEmpty(policy: ProjectPolicy, action: ActionType)
    ensures RolesFor(policy, action) == {} <==> policy.strictMode && RuleFor(policy, action).None?
  {
    hide RuleFor;
    assert Admin in DefaultRoles(action);
    if RuleFor(policy, action).Some? && RuleFor(policy, action).value.allowedRoles != [] {
      assert RuleFor(policy, action).value.allowedRoles[0] in RolesFor(policy, action);
    }
  }

  /** An actor with an admitted role, named in the override of the call, is authorized. */
  lemma ChosenActorAllowed(policy: ProjectPolicy, action: ActionType, role: ActorRole)
    requires role in RolesFor(policy, action) && role != Viewer
    ensures Authorize(action, Actor("chosen", role, Human), policy, OnlyActor(action, "chosen")).allowed
  {
    hide Lookup, ActionValue, OnlyActor, NormalizedIds;
    var actor := Actor("chosen", role, Human);
    Text.PlainStays(actor.id);
    OnlyActorAdmits(action, actor.id);
    assert role in RolesOf(actor, policy.owner) * Resolve(action, policy, OnlyActor(action, actor.id)).roles;
  }

  lemma ClosedDenies(policy: ProjectPolicy, action: ActionType, actor: Actor, overrides: RuntimeOverride)
    requires Closed(policy, action)
    ensures !Authorize(action, actor, policy, overrides).allowed
  {
  }

  /** A runtime override narrows or replaces identities; it never admits a role that the policy does not. */
  lemma OverrideNeverAddsRoles(action: ActionType, actor: Actor, policy: ProjectPolicy, overrides: RuntimeOverride)
    requires Authorize(action, actor, policy, overrides).allowed
    ensures actor.role != Viewer
    ensures RolesOf(actor, policy.owner) * RolesFor(policy, action) != {}
    ensures RuntimeIdsFor(overrides, action).Some? ==>
      exists id :: id in RuntimeIdsFor(overrides, action).value && Text.Strip(id) == Text.Strip(actor.id)
  {
  }
}
