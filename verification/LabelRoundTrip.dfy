/**
 The agent writes identities as labels and the server reads them back.

 Writer: `LabelSet` and `serviceLabels` (agent/internal/docker/spec.go and stack.go).
 Reader: `observedConfig` and `observedStack` (api/src/discovery/discovery.service.ts).
 */
module LabelRoundTrip {
  import opened Wrappers
  import opened AgentSpec
  import opened StackPlans
  import opened Discovery

  /** A container built for a configuration is read back as that container running that configuration. */
  lemma ConfigurationReadsBack(item: Item, own: map<string, string>, stack: string, containerId: string,
      configId: string)
    requires item.labels == LabelSet(own, stack, containerId, configId) && containerId != ""
    ensures Identity(item) == Some(containerId)
    ensures ObservedConfig(item) == if IsUuid(configId) then Some(configId) else None
  {
    LabelsDiffer();
  }

  /** A container built for a service is read back as that service, of that stack and revision. */
  lemma ServiceReadsBack(item: Item, plan: StackPlan, s: StackService)
    requires item.labels == ServiceLabels(plan, s) && s.member.identity != ""
    ensures Identity(item) == Some(s.member.identity) && ObservedConfig(item) == None
    ensures ObservedStack(item) ==
      if IsUuid(plan.stackId) && IsServiceName(s.member.name)
      then StackClaim(Some(plan.stackId), Some(s.member.name),
        if IsUuid(plan.revisionId) then Some(plan.revisionId) else None)
      else NOBODY
  {
    LabelsDiffer();
    ServiceLabelsCarry(plan, s);
  }

  /** A configuration is read exactly where a managed container carries its identifier. */
  lemma ConfigurationReadIff(item: Item, configId: string)
    ensures ObservedConfig(item) == Some(configId) <==>
      SaysManaged(item) && Label(item.labels, DESIRED_CONFIG_ID) == configId && IsUuid(configId)
  {
  }

  /** A service is read exactly where a managed container carries both halves of it; a revision only beside one. */
  lemma ServiceReadIff(item: Item, stackId: string, service: string)
    ensures KeyOf(ObservedStack(item)) == Some((stackId, service)) <==>
      && SaysManaged(item) && Label(item.labels, STACK_ID) == stackId && IsUuid(stackId)
      && Label(item.labels, STACK_SERVICE) == service && IsServiceName(service)
    ensures ObservedStack(item) == NOBODY || KeyOf(ObservedStack(item)).Some?
    ensures KeyOf(ObservedStack(item)).Some? ==>
      forall revision :: ObservedStack(item).revision == Some(revision) <==>
        Label(item.labels, STACK_REVISION_ID) == revision && IsUuid(revision)
  {
  }

  /** What a container says of itself by its user's labels is never taken for an identity. */
  lemma UsersCannotClaim(item: Item, own: map<string, string>, stack: string)
    requires item.labels == LabelSet(own, stack, "", "")
    ensures Identity(item) == None && ObservedConfig(item) == None
  {
    LabelsDiffer();
  }
}
