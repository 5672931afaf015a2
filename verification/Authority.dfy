/** Who may decide what, in the terms of the policy and the override as they are written, and what is
    logged about it. */
module Authority {
  import opened Prelude
  import opened Domain
  import opened Workflow
  import opened AuditLog
  import opened Loops
  import Rules = ApprovalRules
  import Text

  /******* One decision *******/

  /** One of the listed ids is the actor's own, up to surrounding space; blank ids are nobody's. */
  predicate Names(ids: seq<string>, actor: Actor) {
    exists i :: 0 <= i < |ids| && Text.Strip(ids[i]) == Text.Strip(actor.id) != ""
  }

  /** An override for the action has to list the actor; without one, a rule that lists anybody has to. */
  predicate Listed(action: ActionType, actor: Actor, policy: ProjectPolicy, overrides: RuntimeOverride) {
    var given: Option<RuntimeIds> := Rules.Lookup(overrides, ActionValue(action));
    match given
    case Some(value) => value.IdList? && Names(value.ids, actor)
    case None =>
      var rule: Option<PolicyRule> := Rules.Lookup(policy.actionRules, ActionValue(action));
      rule.Some? && rule.value.allowedActorIds != [] ==> Names(rule.value.allowedActorIds, actor)
  }

  /** The actor has the role, or is the owner of the project. */
  predicate HasRole(actor: Actor, policy: ProjectPolicy, role: ActorRole) {
    || role == actor.role
    || (role == Owner && policy.owner.Some? && Text.Strip(policy.owner.value) == Text.Strip(actor.id) != "")
  }

  /** What each role may decide where no rule says otherwise. */
  predicate Usual(role: ActorRole, action: ActionType) {
    match role
    case Admin => true
    case Approver => action != ProductionAffectingChange
    case Operator => action == BulkModify
    case Owner => action == ExternalApiSend
    case Viewer => false
  }

  /** A rule that names roles admits those; otherwise the usual ones are admitted, but in strict mode by a rule only. */
  predicate Admitted(role: ActorRole, action: ActionType, policy: ProjectPolicy) {
    var rule: Option<PolicyRule> := Rules.Lookup(policy.actionRules, ActionValue(action));
    match rule
    case Some(r) => if r.allowedRoles == [] then Usual(role, action) else role in r.allowedRoles
    case None => !policy.strictMode && Usual(role, action)
  }

  lemma UsualRoles(action: ActionType, role: ActorRole)
    ensures role in Rules.DefaultRoles(action) <==> Usual(role, action)
  {
  }

  lemma AdmittedRoles(action: ActionType, role: ActorRole, policy: ProjectPolicy)
    ensures role in Rules.RolesFor(policy, action) <==> Admitted(role, action, policy)
  {
    hide Rules.DefaultRoles, Usual, Rules.Lookup;
    UsualRoles(action, role);
  }

  lemma NormalizedNames(ids: seq<string>, actor: Actor)
    ensures Text.Strip(actor.id) in Rules.NormalizedIds(ids) <==> Names(ids, actor)
  {
    hide Text.Strip;
    if Text.Strip(actor.id) in Rules.NormalizedIds(ids) {
      var id :| id in ids && Text.Strip(id) != "" && Text.Strip(id) == Text.Strip(actor.id);
      var i :| 0 <= i < |ids| && ids[i] == id;
    }
  }

  lemma HeldRoles(actor: Actor, policy: ProjectPolicy, role: ActorRole)
    ensures role in Rules.RolesOf(actor, policy.owner) <==> HasRole(actor, policy, role)
  {
    hide Text.Strip;
  }

  lemma ListedIds(action: ActionType, actor: Actor, policy: ProjectPolicy, overrides: RuntimeOverride)
    ensures var ids := Rules.IdsFor(policy, overrides, action);
      (ids.None? || Text.Strip(actor.id) in ids.value) <==> Listed(action, actor, policy, overrides)
  {
    hide Rules.Lookup, Rules.NormalizedIds, Text.Strip, Names;
    var given: Option<RuntimeIds> := Rules.Lookup(overrides, ActionValue(action));
    var rule: Option<PolicyRule> := Rules.Lookup(policy.actionRules, ActionValue(action));
    if given.Some? {
      NormalizedNames(if given.value.IdList? then given.value.ids else [], actor);
      NobodyNamed(actor);
    } else if rule.Some? {
      NormalizedNames(rule.value.allowedActorIds, actor);
    }
  }

  lemma NobodyNamed(actor: Actor)
    ensures !Names([], actor)
  {
  }

  /** Whoever is no viewer, holds an admitted role and is listed where a list is given is authorized, and
      nobody else. */
  lemma AuthorizeExactly(action: ActionType, actor: Actor, policy: ProjectPolicy, overrides: RuntimeOverride)
    ensures Rules.Authorize(action, actor, policy, overrides).allowed <==>
      && actor.role != Viewer
      && (exists role :: HasRole(actor, policy, role) && Admitted(role, action, policy))
      && Listed(action, actor, policy, overrides)
  {
    hide Rules.Lookup, Rules.RolesFor, Rules.RolesOf, Rules.IdsFor, HasRole, Admitted, Listed, Text.Strip;
    forall role
      ensures role in Rules.RolesOf(actor, policy.owner) <==> HasRole(actor, policy, role)
      ensures role in Rules.RolesFor(policy, action) <==> Admitted(role, action, policy)
    {
      HeldRoles(actor, policy, role);
      AdmittedRoles(action, role, policy);
    }
    ListedIds(action, actor, policy, overrides);
    Rules.RolesEmpty(policy, action);
    var shared := Rules.RolesOf(actor, policy.owner) * Rules.RolesFor(policy, action);
    assert shared != {} <==> exists role :: HasRole(actor, policy, role) && Admitted(role, action, policy) by {
      if role :| HasRole(actor, policy, role) && Admitted(role, action, policy) {
        assert role in shared;
      }
    }
  }

  /** Which source decides: strict mode without a rule comes first, then the override, then the rule, then the defaults;
      all but the last are logged as an override of the policy. */
  lemma SourceExactly(action: ActionType, actor: Actor, policy: ProjectPolicy, overrides: RuntimeOverride)
    requires actor.role != Viewer
    ensures var effective := Rules.Authorize(action, actor, policy, overrides).effective;
      var rule: Option<PolicyRule> := Rules.Lookup(policy.actionRules, ActionValue(action));
      var given: Option<RuntimeIds> := Rules.Lookup(overrides, ActionValue(action));
      && (effective.source == Rules.FromStrictPolicy <==> rule.None? && policy.strictMode)
      && (effective.source == Rules.FromRuntimeOverride <==> given.Some? && !(rule.None? && policy.strictMode))
      && (effective.source == Rules.FromProjectPolicy <==> rule.Some? && given.None?)
      && (effective.overrideApplied <==> effective.source != Rules.DefaultRbac)
      && effective.strictMode == policy.strictMode
  {
    hide Rules.Lookup;
  }

  /** The entry that a lookup finds: the first one written exactly, or else the first one up to case and space. */
  lemma LookupChooses<V>(mapping: Dictionary<V>, action: ActionType, i: nat)
    requires i < |mapping|
    requires var value := ActionValue(action);
      || (mapping[i].0 == value && forall j :: 0 <= j < i ==> mapping[j].0 != value)
      || (&& Text.Normalize(mapping[i].0) == value && (forall j :: 0 <= j < |mapping| ==> mapping[j].0 != value)
          && forall j :: 0 <= j < i ==> Text.Normalize(mapping[j].0) != value)
    ensures Rules.Lookup(mapping, ActionValue(action)) == Some(mapping[i].1)
  {
    hide Text.Normalize, ActionValue;
    if mapping[i].0 == ActionValue(action) {
      Rules.FirstMatchIsFirst(mapping, ActionValue(action), true, i);
    } else {
      assert Rules.FirstMatch(mapping, ActionValue(action), true).None?;
      Rules.FirstMatchIsFirst(mapping, ActionValue(action), false, i);
    }
  }

  /******* Several decisions *******/

  /** The values of the actions differ in their first letters, which is how they are sorted. */
  predicate Precedes(a: ActionType, b: ActionType) {
    ActionValue(a)[0] < ActionValue(b)[0]
  }

  predicate Sorted(actions: seq<ActionType>) {
    forall i, j :: 0 <= i < j < |actions| ==> Precedes(actions[i], actions[j])
  }

  lemma {:induction false} SelectedSorted(all: seq<ActionType>, actions: set<ActionType>)
    requires Sorted(all)
    ensures Sorted(Selected(all, actions))
  {
    hide Precedes;
    if all != [] {
      SelectedSorted(all[1..], actions);
      var rest := Selected(all[1..], actions);
      forall j | 0 <= j < |rest|
        ensures Precedes(all[0], rest[j])
      {
        assert rest[j] in all[1..];
        var k :| 0 <= k < |all[1..]| && all[1..][k] == rest[j];
        assert all[k + 1] == rest[j];
      }
    }
  }

  lemma InOrderSorted(actions: set<ActionType>)
    ensures Sorted(ActionsInOrder(actions))
  {
    SelectedSorted(ACTIONS_BY_VALUE, actions);
  }

  /** What a log says about the authorization of one action, in order. */
  function Verdicts(es: seq<Event>, action: ActionType): seq<EventKind> {
    if es == [] then []
    else
      var kind := es[|es| - 1].kind;
      Verdicts(es[..|es| - 1], action) + if AuthorizationKind(kind) && kind.action == action then [kind] else []
  }

  lemma VerdictsSnoc(es: seq<Event>, e: Event, action: ActionType)
    ensures Verdicts(es + [e], action) ==
      Verdicts(es, action) + if AuthorizationKind(e.kind) && e.kind.action == action then [e.kind] else []
  {
    Snoc(es, e);
  }

  /** What is logged when the action is looked at. */
  function VerdictOn(action: ActionType, actor: Actor, policy: ProjectPolicy,
                     overrides: RuntimeOverride): seq<EventKind> {
    var decision := Rules.Authorize(action, actor, policy, overrides);
    (if decision.effective.overrideApplied then [PolicyOverrideApplied(action)] else []) +
    [if decision.allowed then AuthorizationGranted(action) else AuthorizationFailed(action)]
  }

  predicate Allowed(action: ActionType, actor: Actor, policy: ProjectPolicy, overrides: RuntimeOverride) {
    Rules.Authorize(action, actor, policy, overrides).allowed
  }

  /** The action is among the given ones, and none that precedes it is denied. */
  predicate LookedAt(actions: seq<ActionType>, action: ActionType, actor: Actor, policy: ProjectPolicy,
                     overrides: RuntimeOverride) {
    action in actions && forall b :: b in actions && Precedes(b, action) ==> Allowed(b, actor, policy, overrides)
  }

  lemma PrecedesStrictly(a: ActionType, b: ActionType)
    ensures Precedes(a, b) ==> !Precedes(b, a) && a != b
  {
  }

  lemma LookedAtLater(actions: seq<ActionType>, action: ActionType, actor: Actor, policy: ProjectPolicy,
                      overrides: RuntimeOverride)
    requires Sorted(actions) && actions != []
    ensures LookedAt(actions, action, actor, policy, overrides) <==>
      || action == actions[0]
      || (Allowed(actions[0], actor, policy, overrides) && LookedAt(actions[1..], action, actor, policy, overrides))
    ensures actions[0] !in actions[1..] && Sorted(actions[1..])
  {
    hide Allowed, Precedes;
    forall b | b in actions[1..]
      ensures Precedes(actions[0], b) && !Precedes(b, actions[0]) && b != actions[0]
    {
      var k :| 0 <= k < |actions[1..]| && actions[1..][k] == b;
      assert actions[k + 1] == b;
      PrecedesStrictly(actions[0], b);
    }
    PrecedesStrictly(actions[0], actions[0]);
    assert forall b :: b in actions <==> b == actions[0] || b in actions[1..];
  }

  /** The first step of an authorization logs its verdict. */
  lemma FirstVerdict(v: Record, first: ActionType, actor: Actor, overrides: RuntimeOverride, action: ActionType)
    ensures var w := Evaluated(v, first, actor, overrides);
      && w == v.(events := w.events)
      && var kind := if Allowed(first, actor, v.policy, overrides) then AuthorizationGranted(first)
                     else AuthorizationFailed(first);
         Verdicts(RecordEvent(w, kind, actor).events, action) ==
           Verdicts(v.events, action) + if action == first then VerdictOn(first, actor, v.policy, overrides) else []
  {
    hide Rules.Authorize, Verdicts;
    var w := Evaluated(v, first, actor, overrides);
    VerdictsSnoc(v.events, Event(PolicyOverrideApplied(first), actor), action);
    VerdictsSnoc(w.events, Event(AuthorizationGranted(first), actor), action);
    VerdictsSnoc(w.events, Event(AuthorizationFailed(first), actor), action);
  }

  lemma {:induction false} AuthorizeAllLogs(v: Record, actor: Actor, actions: seq<ActionType>,
                                            overrides: RuntimeOverride,
                                            action: ActionType)
    requires Sorted(actions)
    ensures Verdicts(AuthorizeAll(v, actor, actions, overrides).record.events, action) == Verdicts(v.events, action) +
      if LookedAt(actions, action, actor, v.policy, overrides) then VerdictOn(action, actor, v.policy, overrides)
        else []
    decreases |actions|
  {
    hide Rules.Authorize, Verdicts, LookedAt, Sorted, VerdictOn;
    if actions == [] {
      NothingLookedAt(action, actor, v.policy, overrides);
    } else {
      LookedAtLater(actions, action, actor, v.policy, overrides);
      FirstVerdict(v, actions[0], actor, overrides, action);
      NotLookedAtElsewhere(actions[1..], action, actor, v.policy, overrides);
      if Allowed(actions[0], actor, v.policy, overrides) {
        var granted := RecordEvent(Evaluated(v, actions[0], actor, overrides), AuthorizationGranted(actions[0]), actor);
        AuthorizeAllLogs(granted, actor, actions[1..], overrides, action);
      }
    }
  }

  lemma NothingLookedAt(action: ActionType, actor: Actor, policy: ProjectPolicy, overrides: RuntimeOverride)
    ensures !LookedAt([], action, actor, policy, overrides)
  {
  }

  lemma NotLookedAtElsewhere(actions: seq<ActionType>, action: ActionType, actor: Actor, policy: ProjectPolicy,
                             overrides: RuntimeOverride)
    ensures action !in actions ==> !LookedAt(actions, action, actor, policy, overrides)
  {
  }

  /** The authorization of a set of actions is denied at the first of them, by value, that is not allowed, and logs a
      verdict about every action up to there, as an override of the policy where one decided. */
  lemma AuthorizationExactly(v: Record, actor: Actor, actions: set<ActionType>, overrides: RuntimeOverride)
    ensures var r := AuthorizeAll(v, actor, ActionsInOrder(actions), overrides); var ordered := ActionsInOrder(actions);
      && OnlyAuthorizes(v, r.record)
      && (forall a :: a in ordered <==> a in actions)
      && (forall a :: r.denied == Some(a) <==>
            !Allowed(a, actor, v.policy, overrides) && LookedAt(ordered, a, actor, v.policy, overrides))
      && forall a :: Verdicts(r.record.events, a) == Verdicts(v.events, a) +
           if LookedAt(ordered, a, actor, v.policy, overrides) then VerdictOn(a, actor, v.policy, overrides) else []
  {
    hide Rules.Authorize, Verdicts, LookedAt, AuthorizeAll, ActionsInOrder, Sorted;
    InOrderExact(actions);
    InOrderSorted(actions);
    var ordered := ActionsInOrder(actions);
    AuthorizeAllEffect(v, actor, ordered, overrides);
    forall a
      ensures Verdicts(AuthorizeAll(v, actor, ordered, overrides).record.events, a) == Verdicts(v.events, a) +
        if LookedAt(ordered, a, actor, v.policy, overrides) then VerdictOn(a, actor, v.policy, overrides) else []
      ensures AuthorizeAll(v, actor, ordered, overrides).denied == Some(a) <==>
        !Allowed(a, actor, v.policy, overrides) && LookedAt(ordered, a, actor, v.policy, overrides)
    {
      AuthorizeAllLogs(v, actor, ordered, overrides, a);
      DeniedAt(v, actor, ordered, overrides, a);
    }
  }

  lemma {:induction false} DeniedAt(v: Record, actor: Actor, actions: seq<ActionType>, overrides: RuntimeOverride,
                                    a: ActionType)
    requires Sorted(actions)
    ensures AuthorizeAll(v, actor, actions, overrides).denied == Some(a) <==>
      !Allowed(a, actor, v.policy, overrides) && LookedAt(actions, a, actor, v.policy, overrides)
    decreases |actions|
  {
    hide Rules.Authorize, LookedAt, Sorted;
    if actions == [] {
      NothingLookedAt(a, actor, v.policy, overrides);
    } else {
      LookedAtLater(actions, a, actor, v.policy, overrides);
      var granted := RecordEvent(Evaluated(v, actions[0], actor, overrides), AuthorizationGranted(actions[0]), actor);
      DeniedAt(granted, actor, actions[1..], overrides, a);
    }
  }
}
