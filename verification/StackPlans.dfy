/**
 Plans for a stack (agent/internal/docker/stack.go and the request half of
 stack_lifecycle.go): what is asked for, what is refused before the host is
 touched, and the labels a service's container carries.
 */
module StackPlans {
  import opened AgentSpec
  import opened StartOrder

  const STACK_PLAN_VERSION := 2
  const LIFECYCLE_PLAN_VERSION := 1

  /** One expected service: who it is and what it waits for. */
  datatype Member = Member(name: string, identity: string, dependsOn: seq<string>)

  datatype LifecyclePlan = LifecyclePlan(version: int, stackId: string, revisionId: string, services: seq<Member>)

  datatype StackService = StackService(member: Member, containerName: string, spec: ContainerSpec)
  datatype StackNetwork = StackNetwork(name: string, dockerName: string, driver: string)
  datatype StackVolume = StackVolume(name: string, dockerName: string, driver: string, mustExist: bool)

  datatype StackPlan = StackPlan(
    version: int,
    stackId: string,
    revisionId: string,
    networks: seq<StackNetwork>,
    volumes: seq<StackVolume>,
    services: seq<StackService>)

  /** The services of a plan as a lifecycle request would name them. */
  function MembersOf(services: seq<StackService>): (r: seq<Member>)
    ensures |r| == |services|
    ensures forall i :: 0 <= i < |r| ==> r[i] == services[i].member
  {
    seq(|services|, i requires 0 <= i < |services| => services[i].member)
  }

  /** What waits for what; a name listed twice keeps its last entry. */
  function DependenciesOf(services: seq<Member>): (deps: Dependencies)
    ensures deps.Keys == set s | s in services :: s.name
    ensures NamesDistinct(services) ==> forall s :: s in services ==> deps[s.name] == s.dependsOn
  {
    if services == [] then map[]
    else
      var n := |services| - 1;
      var last := services[n];
      assert services == services[..n] + [last];
      assert NamesDistinct(services) ==> NamesDistinct(services[..n]);
      DependenciesOf(services[..n])[last.name := last.dependsOn]
  }

  /** The identity the server gave each service. */
  function IdentitiesOf(services: seq<Member>): (m: map<string, string>)
    ensures m.Keys == set s | s in services :: s.name
    ensures NamesDistinct(services) ==> forall s :: s in services ==> m[s.name] == s.identity
  {
    if services == [] then map[]
    else
      var n := |services| - 1;
      var last := services[n];
      assert services == services[..n] + [last];
      assert NamesDistinct(services) ==> NamesDistinct(services[..n]);
      IdentitiesOf(services[..n])[last.name := last.identity]
  }

  ghost predicate NamesDistinct(services: seq<Member>)
  {
    forall i, j :: 0 <= i < j < |services| ==> services[i].name != services[j].name
  }

  ghost predicate IdentitiesDistinct(services: seq<Member>)
  {
    forall i, j :: 0 <= i < j < |services| ==> services[i].identity != services[j].identity
  }

  ghost predicate Identified(services: seq<Member>)
  {
    forall i :: 0 <= i < |services| ==> services[i].name != "" && services[i].identity != ""
  }

  predicate CoveredBy(wanted: seq<string>, deps: Dependencies)
  {
    forall d :: d in wanted ==> d in deps
  }

  /** What both kinds of plan must say about their services. */
  ghost predicate MembersOk(services: seq<Member>)
  {
    && Identified(services)
    && NamesDistinct(services) && IdentitiesDistinct(services)
    && (forall s :: s in services ==> CoveredBy(s.dependsOn, DependenciesOf(services)))
    && !exists knot :: Knot(DependenciesOf(services), knot)
  }

  ghost predicate LifecyclePlanOk(plan: LifecyclePlan)
  {
    && plan.version == LIFECYCLE_PLAN_VERSION && plan.stackId != "" && plan.revisionId != ""
    && plan.services != [] && MembersOk(plan.services)
  }

  ghost predicate ServiceOk(s: StackService)
  {
    s.containerName != "" && Acceptable(s.spec.(name := s.containerName))
  }

  ghost predicate StackPlanOk(plan: StackPlan)
  {
    && plan.version == STACK_PLAN_VERSION && plan.stackId != "" && plan.revisionId != ""
    && plan.services != [] && MembersOk(MembersOf(plan.services))
    && (forall s :: s in plan.services ==> ServiceOk(s))
    && forall i, j :: 0 <= i < j < |plan.services| ==> plan.services[i].containerName != plan.services[j].containerName
  }

  method CheckMembers(services: seq<Member>) returns (v: Verdict)
    ensures v.Accepted? <==> MembersOk(services)
  {
    v := CheckIdentities(services);
    if v.Rejected? { return; }
    v := CheckDependencies(services);
    if v.Rejected? { return; }
    var order := OrderByDependencies(DependenciesOf(services));
    if order.Cyclic? { return Rejected("services depend on each other"); }
  }

  /** Names and identities: present, and each only once. */
  method CheckIdentities(services: seq<Member>) returns (v: Verdict)
    ensures v.Accepted? <==> Identified(services) && NamesDistinct(services) && IdentitiesDistinct(services)
  {
    var seen: set<string>, identities: set<string> := {}, {};
    for i := 0 to |services|
      invariant seen == set j | 0 <= j < i :: services[j].name
      invariant identities == set j | 0 <= j < i :: services[j].identity
      invariant Identified(services[..i]) && NamesDistinct(services[..i]) && IdentitiesDistinct(services[..i])
    {
      var service := services[i];
      if service.name == "" { return Rejected("a service has no name"); }
      if service.name in seen { return Rejected("a service is listed twice"); }
      seen := seen + {service.name};
      if service.identity == "" { return Rejected("a service has no identity"); }
      if service.identity in identities { return Rejected("two services claim one container"); }
      identities := identities + {service.identity};
    }
    assert services[..|services|] == services;
    return Accepted;
  }

  method CheckDependencies(services: seq<Member>) returns (v: Verdict)
    ensures v.Accepted? <==> forall s :: s in services ==> CoveredBy(s.dependsOn, DependenciesOf(services))
  {
    var known := DependenciesOf(services);
    for i := 0 to |services|
      invariant forall j :: 0 <= j < i ==> CoveredBy(services[j].dependsOn, known)
    {
      var wanted := services[i].dependsOn;
      for k := 0 to |wanted|
        invariant CoveredBy(wanted[..k], known)
      {
        if wanted[k] !in known {
          assert !CoveredBy(wanted, known) && services[i] in services;
          return Rejected("a dependency is not in the plan");
        }
      }
      assert wanted[..|wanted|] == wanted;
    }
    return Accepted;
  }

  method ValidateLifecyclePlan(plan: LifecyclePlan) returns (v: Verdict)
    ensures v.Accepted? <==> LifecyclePlanOk(plan)
  {
    if plan.version != LIFECYCLE_PLAN_VERSION { return Rejected("version"); }
    if plan.stackId == "" || plan.revisionId == "" { return Rejected("an operation names its stack and revision"); }
    if |plan.services| == 0 { return Rejected("an operation names its services"); }
    v := CheckMembers(plan.services);
  }

  method ValidateStackPlan(plan: StackPlan) returns (v: Verdict)
    ensures v.Accepted? <==> StackPlanOk(plan)
  {
    if plan.version != STACK_PLAN_VERSION { return Rejected("version"); }
    if plan.stackId == "" || plan.revisionId == "" { return Rejected("a plan names its stack and revision"); }
    if |plan.services| == 0 { return Rejected("a stack with no services deploys nothing"); }
    var names: set<string> := {};
    for i := 0 to |plan.services|
      invariant names == set j | 0 <= j < i :: plan.services[j].containerName
      invariant forall j :: 0 <= j < i ==> ServiceOk(plan.services[j])
      invariant forall j, k :: 0 <= j < k < i ==> plan.services[j].containerName != plan.services[k].containerName
    {
      var service := plan.services[i];
      assert service in plan.services;
      if service.containerName == "" { return Rejected("a service has no container name"); }
      if service.containerName in names { return Rejected("two services share a container name"); }
      names := names + {service.containerName};
      v := Validate(service.spec.(name := service.containerName));
      if v.Rejected? { return; }
    }
    v := CheckMembers(MembersOf(plan.services));
  }

  // ---- labels -----------------------------------------------------------

  /** A label that is not set reads as the empty string. */
  function Label(labels: map<string, string>, key: string): string
  {
    if key in labels then labels[key] else ""
  }

  predicate OfStack(labels: map<string, string>, stackId: string)
  {
    Label(labels, MANAGED) == "true" && Label(labels, STACK_ID) == stackId
  }

  /** Ownership of a network or volume is read from labels, never from a name. */
  predicate OwnedByStack(labels: map<string, string>, stackId: string, key: string, value: string)
  {
    OfStack(labels, stackId) && Label(labels, key) == value
  }

  function ServiceLabels(plan: StackPlan, s: StackService): map<string, string>
  {
    LabelSet(s.spec.labels, "", s.member.identity, "")
      [STACK_ID := plan.stackId][STACK_REVISION_ID := plan.revisionId][STACK_SERVICE := s.member.name]
  }

  /** A container whose labels say it is this service of this revision. */
  predicate Carries(labels: map<string, string>, stackId: string, revisionId: string, m: Member)
  {
    && OfStack(labels, stackId)
    && Label(labels, STACK_REVISION_ID) == revisionId
    && Label(labels, STACK_SERVICE) == m.name
    && Label(labels, CONTAINER_ID) == m.identity
  }

  /** The labels written at creation are the ones every later operation looks for. */
  lemma ServiceLabelsCarry(plan: StackPlan, s: StackService)
    requires s.member.identity != ""
    ensures Carries(ServiceLabels(plan, s), plan.stackId, plan.revisionId, s.member)
    ensures DESIRED_CONFIG_ID !in ServiceLabels(plan, s) && STACK !in ServiceLabels(plan, s)
    // The user's own labels are all kept.
    ensures forall key :: key !in RESERVED ==>
      && (key in ServiceLabels(plan, s) <==> key in s.spec.labels)
      && Label(ServiceLabels(plan, s), key) == Label(s.spec.labels, key)
  {
    LabelsDiffer();
  }
}
