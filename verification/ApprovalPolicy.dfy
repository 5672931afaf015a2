/** The approval policy as the program runs it. */
module ApprovalPolicies {
  import opened Prelude
  import opened Domain
  import Rules = ApprovalRules
  import Text

  class ApprovalPolicy {

    constructor () {
    }

    method NormalizeActorIds(ids: seq<string>) returns (normalized: set<string>)
      ensures normalized == Rules.NormalizedIds(ids)
    {
      normalized := {};
      for i := 0 to |ids|
        invariant normalized == Rules.NormalizedIds(ids[..i])
      {
        assert ids[..i + 1] == ids[..i] + [ids[i]];
        var cleaned := Text.Strip(ids[i]);
        if cleaned != "" {
          normalized := normalized + {cleaned};
        }
      }
      assert ids[..|ids|] == ids;
    }

    method FindActionMappingValue<V>(mapping: Dictionary<V>, key: string) returns (found: Option<V>)
      ensures found == Rules.Lookup(mapping, key)
    {
      found := Rules.FirstMatch(mapping, key, true);
      if found.Some? {
        return;
      }
      for i := 0 to |mapping|
        invariant Rules.FirstMatch(mapping[i..], key, false) == Rules.FirstMatch(mapping, key, false)
      {
        if Text.Normalize(mapping[i].0) == key {
          return Some(mapping[i].1);
        }
      }
      return None;
    }

    method FindRuntimeActorIds(overrides: RuntimeOverride, action: ActionType) returns (found: Option<seq<string>>)
      ensures found == Rules.RuntimeIdsFor(overrides, action)
    {
      var value := FindActionMappingValue(overrides, ActionValue(action));
      match value
      case None => return None;
      case Some(raw) => return Some(if raw.IdList? then raw.ids else []);
    }

    method ResolveEffectivePolicy(action: ActionType, policy: ProjectPolicy, overrides: RuntimeOverride)
        returns (effective: Rules.EffectivePolicy)
      ensures effective == Rules.Resolve(action, policy, overrides)
    {
      var roles := Rules.DefaultRoles(action);
      var actorIds: Option<set<string>> := None;
      var source := Rules.DefaultRbac;
      var overrideApplied := false;

      var rule := FindActionMappingValue(policy.actionRules, ActionValue(action));
      if rule.Some? {
        source := Rules.FromProjectPolicy;
        overrideApplied := true;
        if rule.value.allowedRoles != [] {
          roles := set role | role in rule.value.allowedRoles;
        }
        if rule.value.allowedActorIds != [] {
          var ids := NormalizeActorIds(rule.value.allowedActorIds);
          actorIds := Some(ids);
        }
      } else if policy.strictMode {
        return Rules.EffectivePolicy({}, Some({}), Rules.FromStrictPolicy, true, true);
      }

      var raw := FindRuntimeActorIds(overrides, action);
      if raw.Some? {
        overrideApplied := true;
        var ids := NormalizeActorIds(raw.value);
        actorIds := Some(ids);
        source := Rules.FromRuntimeOverride;
      }
      return Rules.EffectivePolicy(roles, actorIds, source, policy.strictMode, overrideApplied);
    }

    method AuthorizeAction(action: ActionType, actor: Actor, policy: ProjectPolicy, overrides: RuntimeOverride)
        returns (decision: Rules.Decision)
      ensures decision == Rules.Authorize(action, actor, policy, overrides)
    {
      if actor.role == Viewer {
        return Rules.Decision(false, Rules.EffectivePolicy({}, None, Rules.DefaultRbac, false, false));
      }
      var effective := ResolveEffectivePolicy(action, policy, overrides);
      var actorId := Text.Strip(actor.id);
      var roles := {actor.role};
      var owner := if policy.owner.Some? then Text.Strip(policy.owner.value) else "";
      if owner != "" && owner == actorId {
        roles := roles + {Owner};
      }
      if effective.strictMode && effective.roles == {} {
        return Rules.Decision(false, effective);
      }
      if roles * effective.roles == {} {
        return Rules.Decision(false, effective);
      }
      if effective.actorIds.Some? && actorId !in effective.actorIds.value {
        return Rules.Decision(false, effective);
      }
      return Rules.Decision(true, effective);
    }

    /** Requests are made in the name of `orchestrator` unless someone else makes them. */
    method CreateRequest(action: ActionType, id: nat, requestedBy: Option<Actor>) returns (request: Approval)
      ensures request == Approval(id, action, Undecided,
        if requestedBy.Some? then requestedBy.value.id else "orchestrator", "")
    {
      var requester := if requestedBy.Some? then requestedBy.value else Actor("orchestrator", Admin, System);
      return Approval(id, action, Undecided, requester.id, "");
    }
  }
}
