/**
 From applying a revision to operating it: what an apply leaves on the host is
 what the next start, stop or removal of that revision finds.
 */
module StackHandover {
  import opened Wrappers
  import opened AgentSpec
  import opened StackPlans
  import opened DockerHost
  import opened StackPreflight
  import opened StackApply
  import opened StackLifecycle

  /** The request that operates the revision a plan describes. */
  function OperatingPlan(plan: StackPlan): LifecyclePlan
  {
    LifecyclePlan(LIFECYCLE_PLAN_VERSION, plan.stackId, plan.revisionId, MembersOf(plan.services))
  }

  /** The containers an apply reported, by service. */
  function Reported(services: seq<ServiceOutcome>): (m: map<string, Resolved>)
    requires forall o :: o in services ==> o.dockerId.Some?
    ensures m.Keys == set o | o in services :: o.service
    ensures forall n :: n in m ==>
      exists o :: o in services && o.service == n && m[n] == Resolved(o.dockerId.value, true)
  {
    if services == [] then map[]
    else
      var last := services[|services| - 1];
      assert services == services[..|services| - 1] + [last];
      Reported(services[..|services| - 1])[last.service := Resolved(last.dockerId.value, true)]
  }

  lemma ReportedIs(services: seq<ServiceOutcome>, o: ServiceOutcome)
    requires forall x :: x in services ==> x.dockerId.Some?
    requires forall i, j :: 0 <= i < j < |services| ==> services[i].service != services[j].service
    requires o in services
    ensures Reported(services)[o.service] == Resolved(o.dockerId.value, true)
  {
    hide Reported;
    var x :| x in services && x.service == o.service &&
      Reported(services)[o.service] == Resolved(x.dockerId.value, true);
    var i :| 0 <= i < |services| && services[i] == o;
    var j :| 0 <= j < |services| && services[j] == x;
  }

  lemma ReportedIds(services: seq<ServiceOutcome>)
    requires forall o :: o in services ==> o.dockerId.Some?
    requires forall i, j :: 0 <= i < j < |services| ==> services[i].service != services[j].service
    ensures IdsIn(Reported(services)) == NewIds(services)
  {
    hide Reported;
    var m := Reported(services);
    forall id | id in NewIds(services)
      ensures id in IdsIn(m)
    {
      var o :| o in services && o.dockerId == Some(id);
      ReportedIs(services, o);
      assert m[o.service].dockerId == id;
    }
    forall id | id in IdsIn(m)
      ensures id in NewIds(services)
    {
      var n :| n in m && m[n].dockerId == id;
      var o :| o in services && o.service == n && m[n] == Resolved(o.dockerId.value, true);
    }
  }

  lemma PlanCarriesOver(plan: StackPlan)
    requires StackPlanOk(plan)
    ensures LifecyclePlanOk(OperatingPlan(plan))
  {
  }

  /** A deployed service is found, under the labels it was created with. */
  lemma DeployedIsService(plan: StackPlan, services: seq<ServiceOutcome>, containers: map<Id, Container>, m: Member)
    returns (o: ServiceOutcome)
    requires StackPlanOk(plan) && Deployed(plan, services, containers) && m in MembersOf(plan.services)
    ensures o in services && o.service == m.name && o.dockerId.Some? && o.dockerId.value in containers
    ensures IsService(containers, OperatingPlan(plan), m, Resolved(o.dockerId.value, true))
  {
    hide DependenciesOf, Acceptable;
    var k :| 0 <= k < |plan.services| && MembersOf(plan.services)[k] == m;
    var s := plan.services[k];
    assert s in plan.services;
    assert ServedBy(plan, s, services, containers);
    o :| o in services && Up(plan, s, o, containers);
    ServiceLabelsCarry(plan, s);
  }

  lemma AllReported(plan: StackPlan, services: seq<ServiceOutcome>, containers: map<Id, Container>)
    requires Deployed(plan, services, containers)
    ensures forall o :: o in services ==> o.dockerId.Some? && o.service in IdentitiesOf(MembersOf(plan.services))
  {
    forall o | o in services
      ensures o.dockerId.Some? && o.service in IdentitiesOf(MembersOf(plan.services))
    {
      assert Expected(plan, o, containers);
      var s :| s in plan.services && Up(plan, s, o, containers);
      var k :| 0 <= k < |plan.services| && plan.services[k] == s;
      assert MembersOf(plan.services)[k] in MembersOf(plan.services);
    }
  }

  /** Once the old containers are gone, operating the revision finds exactly what was reported. */
  lemma AppliedResolves(plan: StackPlan, services: seq<ServiceOutcome>, containers: map<Id, Container>)
    requires StackPlanOk(plan) && Deployed(plan, services, containers)
    requires StackIds(containers, plan.stackId) == NewIds(services)
    requires forall o :: o in services ==> o.dockerId.Some?
    ensures Resolves(containers, OperatingPlan(plan), Reported(services))
  {
    hide Reported, Deployed, StackPlanOk, IsService, StackIds, Carries;
    var lp, m := OperatingPlan(plan), Reported(services);
    AllReported(plan, services, containers);
    ReportedDistinct(plan, services, containers);
    ReportedIds(services);
    forall s | s in lp.services
      ensures s.name in m && IsService(containers, lp, s, m[s.name])
    {
      var o := DeployedIsService(plan, services, containers, s);
      ReportedIs(services, o);
    }
    assert m.Keys == IdentitiesOf(lp.services).Keys;
  }

  lemma ReportedDistinct(plan: StackPlan, services: seq<ServiceOutcome>, containers: map<Id, Container>)
    requires Deployed(plan, services, containers)
    ensures forall i, j :: 0 <= i < j < |services| ==> services[i].service != services[j].service
  {
  }

  /** An old container left behind by a failed removal makes the revision impossible to operate. */
  lemma LeftoverUnresolvable(plan: StackPlan, services: seq<ServiceOutcome>, containers: map<Id, Container>, id: Id,
      m: map<string, Resolved>)
    requires StackPlanOk(plan) && Deployed(plan, services, containers)
    requires id in StackIds(containers, plan.stackId) && id !in NewIds(services)
    ensures !Resolves(containers, OperatingPlan(plan), m)
  {
    hide Resolves, Deployed, StackPlanOk;
    if Resolves(containers, OperatingPlan(plan), m) {
      var s := OwnerOf(containers, OperatingPlan(plan), m, id);
      var o := DeployedIsService(plan, services, containers, s);
      assert o.dockerId.value in NewIds(services);
      TwiceUnresolvable(containers, OperatingPlan(plan), id, o.dockerId.value, m);
    }
  }

  /**
   After an applied outcome the revision can be operated exactly when nothing of
   the stack but what was reported is left, and then it is found as reported.
   */
  lemma AppliedThenOperated(plan: StackPlan, services: seq<ServiceOutcome>, containers: map<Id, Container>,
      m: map<string, Resolved>)
    requires StackPlanOk(plan) && Deployed(plan, services, containers)
    ensures LifecyclePlanOk(OperatingPlan(plan)) && forall o :: o in services ==> o.dockerId.Some?
    ensures Resolves(containers, OperatingPlan(plan), m) <==>
      StackIds(containers, plan.stackId) <= NewIds(services) && m == Reported(services)
  {
    hide Resolves, Deployed, StackPlanOk, Reported, LifecyclePlanOk;
    PlanCarriesOver(plan);
    AllReported(plan, services, containers);
    NewOnesCarry(plan, services, containers);
    if StackIds(containers, plan.stackId) <= NewIds(services) {
      AppliedResolves(plan, services, containers);
      if Resolves(containers, OperatingPlan(plan), m) {
        ResolvesUnique(containers, OperatingPlan(plan), m, Reported(services));
      }
    } else {
      var id :| id in StackIds(containers, plan.stackId) && id !in NewIds(services);
      LeftoverUnresolvable(plan, services, containers, id, m);
    }
  }

  lemma NewOnesCarry(plan: StackPlan, services: seq<ServiceOutcome>, containers: map<Id, Container>)
    requires StackPlanOk(plan) && Deployed(plan, services, containers)
    ensures NewIds(services) <= StackIds(containers, plan.stackId)
  {
    hide StackPlanOk, Deployed, StackIds;
    forall id | id in NewIds(services)
      ensures id in StackIds(containers, plan.stackId)
    {
      NewOneCarries(plan, services, containers, id);
    }
  }

  /**
   Applying a revision and then finding it again. With no fault while looking, it is
   found exactly when every closing removal of the apply was done, and what is found
   is what the apply reported.
   */
  method ApplyThenFind(d: Docker, plan: StackPlan)
    returns (r: ApplyResult, error: Option<LifecycleError>, m: map<string, Resolved>, ghost looking: nat)
    requires d.Valid()
    modifies d
    ensures d.Valid() && old(d.trace) <= d.trace && looking <= |d.trace| && JustLooked(d.trace, looking, d.host)
    ensures r.Reported? && r.outcome.Applied? ==>
      && d.watch.phase.Committed? && d.watch.phase.at <= looking
      && (forall o :: o in r.services ==> o.dockerId.Some?)
      && (AllDone(d.trace[..looking], d.watch.phase.at) <==>
        StackIds(d.host.containers, plan.stackId) == NewIds(r.services))
      && (error.None? ==> m == Reported(r.services) && AllDone(d.trace[..looking], d.watch.phase.at))
      && (NoFault(d.trace, looking) && AllDone(d.trace[..looking], d.watch.phase.at) ==> error.None?)
  {
    hide Docker.Valid, Told, Resolves, NoFault, AllDone, StackPlanOk, LifecyclePlanOk, Reported, Unobjectionable,
      Provided, Flawless, Objects, StackIds;
    error, m := None, map[];
    ghost var turned, restoring;
    r, turned, restoring := ApplyStack(d, plan);
    looking := |d.trace|;
    if !r.Reported? || !r.outcome.Applied? { return; }
    d.IdentifiersGivenOut();
    ghost var applied := d.trace;
    ToldApplied(d.watch, d.trace, d.host, plan, r, turned, restoring);
    PlanCarriesOver(plan);
    OperatingNames(plan);
    error, m := ResolveStackServices(d, OperatingPlan(plan));
    assert d.trace[..looking] == applied;
    FoundAsReported(plan, r.services, d.host.containers, m);
    FoundAsReported(plan, r.services, d.host.containers, Reported(r.services));
  }

  lemma ToldApplied(w: Watch, trace: seq<Event>, h: Host, plan: StackPlan, r: ApplyResult, turned: nat, restoring: nat)
    requires r.Reported? && r.outcome.Applied? && Told(w, trace, h, plan, r, turned, restoring)
    ensures w.phase.Committed? && w.phase.at <= |trace| && Deployed(plan, r.services, h.containers)
    ensures AllDone(trace, w.phase.at) <==> StackIds(h.containers, plan.stackId) == NewIds(r.services)
  {
    hide Deployed, AllDone, StackIds;
  }

  lemma OperatingNames(plan: StackPlan)
    requires StackPlanOk(plan)
    ensures NamesDistinct(OperatingPlan(plan).services)
  {
  }

  lemma FoundAsReported(plan: StackPlan, services: seq<ServiceOutcome>, containers: map<Id, Container>, m: map<string,
      Resolved>)
    requires StackPlanOk(plan) && Deployed(plan, services, containers)
    ensures forall o :: o in services ==> o.dockerId.Some?
    ensures Resolves(containers, OperatingPlan(plan), m) <==>
      StackIds(containers, plan.stackId) == NewIds(services) && m == Reported(services)
  {
    hide Resolves, Deployed, StackPlanOk, Reported, LifecyclePlanOk, StackIds;
    AppliedThenOperated(plan, services, containers, m);
    NewOnesCarry(plan, services, containers);
  }
}
