/**
 Putting a revision of a stack on a host (agent/internal/docker/stack_apply.go).

 `ApplyStack` moves the old containers aside, starts the new ones, and then
 either removes the old ones or puts everything back. Its contract says what is
 true of the host afterwards for every outcome, and through the watch of every
 moment in between, whichever Docker calls fail.
 */
module StackApply {
  import opened Wrappers
  import opened Text
  import opened AgentSpec
  import opened StartOrder
  import opened StackPlans
  import opened Creation
  import opened DockerHost
  import opened StackPreflight
  import opened StackStaging

  datatype Outcome = Applied | RolledBack | RollbackIncomplete

  datatype ServiceError = NameConflict | OperationFailed | NotRunning

  datatype ServiceOutcome = ServiceOutcome(
    service: string, identity: string, dockerId: Option<Id>, error: Option<ServiceError>)

  datatype ApplyResult =
    | Failed(error: ApplyError)
    | Reported(outcome: Outcome, services: seq<ServiceOutcome>, failedService: string, complete: bool)

  // ---- starting one service ---------------------------------------------

  /** The container of a plan's service, as an applied revision leaves it. */
  ghost predicate Serves(plan: StackPlan, s: StackService, c: Container)
  {
    && c.running && c.name == s.containerName && c.labels == ServiceLabels(plan, s)
    && Attached(s, s.spec.networks, c) && BuiltFrom(s.spec, c)
  }

  /** On these networks, under the name its neighbours know it by. */
  ghost predicate Attached(s: StackService, networks: seq<string>, c: Container)
  {
    forall n :: n in networks ==> n in c.nets && c.nets[n] == [s.member.name]
  }

  /** Creates, attaches, starts and observes one service. */
  method StartService(d: Docker, plan: StackPlan, s: StackService) returns (o: ServiceOutcome)
    requires d.Valid() && !d.watch.phase.Surveying? && ServiceOk(s)
    modifies d`trace, d`host, d`minted
    ensures d.Valid() && old(d.trace) < d.trace && d.minted == old(d.minted) + 1
    ensures o.service == s.member.name && o.identity == s.member.identity
    ensures o.dockerId == None || o.dockerId == Some(old(d.minted))
    ensures o.dockerId.None? ==> d.host == old(d.host)
    ensures o.dockerId.Some? ==> o.dockerId.value in d.host.containers
    ensures o.dockerId.Some? ==> d.host == Put(old(d.host), o.dockerId.value, d.host.containers[o.dockerId.value])
    ensures o.error.None? ==> o.dockerId.Some? && Serves(plan, s, d.host.containers[o.dockerId.value])
    ensures o.error.Some? ==> !Flawless(d.trace, |old(d.trace)|)
    // What the error says: the name was held, everything was done and it went down, or a call was not done.
    ensures o.error == Some(NameConflict) <==> NameTaken(old(d.host), s.containerName)
    ensures o.error == Some(NotRunning) ==> AllDone(d.trace, |old(d.trace)|)
    ensures o.error == Some(OperationFailed) ==> !AllDone(d.trace, |old(d.trace)|)
    ensures KeptThrough(old(d.host).containers, d.trace, |old(d.trace)|)
    ensures AttachedFirst(s, old(d.minted), d.trace, |old(d.trace)|)
  {
    hide Docker.Valid, Flawless, KeptThrough, BuiltFrom, ServiceOk, AllDone, NameTaken, AttachedFirst, Attached;
    d.IdentifiersGivenOut();
    ghost var others := d.host.containers;
    NothingLost(others, d.trace);
    NothingSince(d.trace);
    o := ServiceOutcome(s.member.name, s.member.identity, None, None);
    var created, id := CreateService(d, plan, s);
    KeptOneMore(others, old(d.trace), d.trace, |old(d.trace)|);
    LastReply(old(d.trace), d.trace, |old(d.trace)|);
    CreatedDown(s, id, old(d.trace), d.trace, d.host);
    if !created.Done? {
      CallFailed(d.trace, |old(d.trace)|);
      return o.(error := Some(if created.Refused? then NameConflict else OperationFailed));
    }
    o := o.(dockerId := Some(id));
    ghost var sofar, made := d.trace, d.host.containers[id];
    var attached := AttachService(d, id, s, others);
    Appended(sofar, d.trace);
    RepliesSplit(d.trace, |old(d.trace)|, |sofar|);
    KeptBoth(others, others, d.trace, |old(d.trace)|, |sofar|);
    BothAttached(s, id, d.trace, |old(d.trace)|, |sofar|);
    if !attached {
      Flawed(d.trace, d.trace, |sofar|, |old(d.trace)|);
      return o.(error := Some(OperationFailed));
    }
    sofar := d.trace;
    var error := RunAndObserve(d, id, s, others);
    Appended(sofar, d.trace);
    RepliesSplit(d.trace, |old(d.trace)|, |sofar|);
    KeptBoth(others, others, d.trace, |old(d.trace)|, |sofar|);
    BothAttached(s, id, d.trace, |old(d.trace)|, |sofar|);
    StillBuilt(s.spec, made, d.host.containers[id]);
    if error.Some? { Flawed(d.trace, d.trace, |sofar|, |old(d.trace)|); }
    o := o.(error := error);
  }

  /** Builds the service's container, under the name the plan gives it. */
  method CreateService(d: Docker, plan: StackPlan, s: StackService) returns (reply: Reply, id: Id)
    requires d.Valid() && !d.watch.phase.Surveying? && ServiceOk(s)
    modifies d`trace, d`host, d`minted
    ensures d.Valid() && d.trace == old(d.trace) + [Event(Create(s.containerName), reply, d.host)]
    ensures id == old(d.minted) && d.minted == id + 1 && d.Mine(id) && !reply.AlreadyConnected?
    ensures reply.Refused? <==> NameTaken(old(d.host), s.containerName)
    ensures !reply.Done? ==> d.host == old(d.host)
    ensures reply.Done? ==>
      && id in d.host.containers && d.host == Put(old(d.host), id, d.host.containers[id])
      && d.host.containers[id].name == s.containerName && d.host.containers[id].labels == ServiceLabels(plan, s)
      && !d.host.containers[id].running
      && BuiltFrom(s.spec, d.host.containers[id])
  {
    hide Docker.Valid, Renders, EnvOk, MountsOk, MountsItsVolumes, NameTaken, ServiceLabels, ServiceOk;
    CanBeBuilt(s);
    var spec := s.spec.(name := s.containerName);
    var config := BuildConfig(spec);
    VolumesAreMounted(spec, config);
    NameDoesNotMatter(s.spec, s.containerName, config);
    reply, id := d.ContainerCreate(s.containerName, ServiceLabels(plan, s), config);
  }

  lemma CanBeBuilt(s: StackService)
    requires ServiceOk(s)
    ensures EnvOk(s.spec.env) && MountsOk(s.spec.mounts)
  {
  }

  lemma NameDoesNotMatter(spec: ContainerSpec, name: string, config: Config)
    requires Renders(spec.(name := name), config) && MountsItsVolumes(spec.(name := name), VolumesIn(config))
    ensures Renders(spec, config) && MountsItsVolumes(spec, VolumesIn(config))
  {
  }

  /** At no moment since then does the container run without being on its networks. */
  ghost predicate AttachedFirst(s: StackService, id: Id, trace: seq<Event>, from: nat)
  {
    forall i :: from <= i < |trace| && RunsAfter(trace[i], id) ==>
      Attached(s, s.spec.networks, trace[i].after.containers[id])
  }

  lemma CreatedDown(s: StackService, id: Id, before: seq<Event>, after: seq<Event>, h: Host)
    requires |after| == |before| + 1 && after[|before|].after == h
    requires id in h.containers ==> !h.containers[id].running
    ensures AttachedFirst(s, id, after, |before|)
  {
  }

  lemma BothAttached(s: StackService, id: Id, trace: seq<Event>, from: nat, mid: nat)
    requires from <= mid <= |trace| && AttachedFirst(s, id, trace[..mid], from) && AttachedFirst(s, id, trace, mid)
    ensures AttachedFirst(s, id, trace, from)
  {
    hide Attached;
    assert forall i :: 0 <= i < mid ==> trace[..mid][i] == trace[i];
  }

  lemma NothingLost(kept: map<Id, Container>, trace: seq<Event>)
    ensures KeptThrough(kept, trace, |trace|)
  {
  }

  lemma Appended(before: seq<Event>, after: seq<Event>)
    requires before <= after
    ensures after[..|before|] == before
  {
  }

  /** The last call was not done. */
  lemma CallFailed(trace: seq<Event>, from: nat)
    requires from < |trace| && !trace[|trace| - 1].reply.Done?
    ensures !Flawless(trace, from)
  {
    Spoilt(trace, from, |trace| - 1);
  }

  /** What was just started is not running any more. */
  lemma WentDown(trace: seq<Event>, from: nat, at: nat)
    requires from <= at < |trace| && trace[at].call.Exited? && !RunsAfter(trace[at], trace[at].call.id)
    ensures !Flawless(trace, from)
  {
  }

  /** Starts a container and looks whether it is still running. */
  method RunAndObserve(d: Docker, id: Id, ghost s: StackService, ghost others: map<Id, Container>)
    returns (error: Option<ServiceError>)
    requires d.Valid() && d.Mine(id) && id in d.host.containers && id !in others && Submap(others, d.host.containers)
    requires Attached(s, s.spec.networks, d.host.containers[id])
    modifies d`trace, d`host
    ensures d.Valid() && old(d.trace) < d.trace && id in d.host.containers
    ensures d.host == Put(old(d.host), id, old(d.host).containers[id].(running := d.host.containers[id].running))
    ensures error.None? ==> d.host.containers[id].running
    ensures Attached(s, s.spec.networks, d.host.containers[id])
    ensures error.Some? ==> !Flawless(d.trace, |old(d.trace)|)
    ensures error.None? || error == Some(NotRunning) || error == Some(OperationFailed)
    ensures error == Some(OperationFailed) <==> !AllDone(d.trace, |old(d.trace)|)
    ensures KeptThrough(others, d.trace, |old(d.trace)|) && AttachedFirst(s, id, d.trace, |old(d.trace)|)
  {
    hide Docker.Valid, Flawless;
    var started := d.ContainerStart(id);
    if !started.Done? {
      CallFailed(d.trace, |old(d.trace)|);
      return Some(OperationFailed);
    }
    ghost var at := |d.trace|;
    d.MayExit(id);
    var inspected, observed := d.ContainerInspect(id);
    if !inspected.Done? {
      CallFailed(d.trace, |old(d.trace)|);
      return Some(OperationFailed);
    }
    if !observed.running {
      WentDown(d.trace, |old(d.trace)|, at);
      return Some(NotRunning);
    }
    return None;
  }

  method AttachService(d: Docker, id: Id, s: StackService, ghost others: map<Id, Container>) returns (ok: bool)
    requires id in d.host.containers && !d.host.containers[id].running
    requires d.Valid() && d.Mine(id) && id in d.host.containers && id !in others && Submap(others, d.host.containers)
    modifies d`trace, d`host
    ensures d.Valid() && old(d.trace) <= d.trace && id in d.host.containers
    ensures d.host == Put(old(d.host), id, old(d.host).containers[id].(nets := d.host.containers[id].nets))
    ensures ok ==> Attached(s, s.spec.networks, d.host.containers[id])
    ensures !ok ==> !Flawless(d.trace, |old(d.trace)|)
    ensures ok <==> AllDone(d.trace, |old(d.trace)|)
    ensures KeptThrough(others, d.trace, |old(d.trace)|) && AttachedFirst(s, id, d.trace, |old(d.trace)|)
  {
    hide Docker.Valid, Flawless;
    for i := 0 to |s.spec.networks|
      invariant d.Valid() && old(d.trace) <= d.trace && id in d.host.containers
      invariant d.host == Put(old(d.host), id, old(d.host).containers[id].(nets := d.host.containers[id].nets))
      invariant Attached(s, s.spec.networks[..i], d.host.containers[id])
      invariant KeptThrough(others, d.trace, |old(d.trace)|) && AllDone(d.trace, |old(d.trace)|)
      invariant AttachedFirst(s, id, d.trace, |old(d.trace)|)
    {
      var joined := d.NetworkConnect(s.spec.networks[i], id, [s.member.name]);
      if !joined.Done? {
        CallFailed(d.trace, |old(d.trace)|);
        return false;
      }
    }
    assert s.spec.networks[..|s.spec.networks|] == s.spec.networks;
    return true;
  }

  // ---- all of the new containers ----------------------------------------

  function NewIds(started: seq<ServiceOutcome>): set<Id>
  {
    set o | o in started && o.dockerId.Some? :: o.dockerId.value
  }

  /** The services of a plan, by name; a name listed twice keeps its last entry. */
  function ServicesByName(services: seq<StackService>): (m: map<string, StackService>)
    ensures forall s :: s in services ==> s.member.name in m
    ensures forall n :: n in m ==> m[n] in services && m[n].member.name == n
  {
    if services == [] then map[]
    else
      var last := services[|services| - 1];
      assert services == services[..|services| - 1] + [last];
      ServicesByName(services[..|services| - 1])[last.member.name := last]
  }

  lemma NamedIsIt(services: seq<StackService>, s: StackService)
    requires NamesDistinct(MembersOf(services)) && s in services
    ensures ServicesByName(services)[s.member.name] == s
  {
    hide ServicesByName;
    var found := ServicesByName(services)[s.member.name];
    var i :| 0 <= i < |services| && services[i] == s;
    var j :| 0 <= j < |services| && services[j] == found;
    assert MembersOf(services)[i].name == MembersOf(services)[j].name;
  }

  /** An outcome that says its service is up, and a host where it is. */
  ghost predicate Up(plan: StackPlan, s: StackService, o: ServiceOutcome, containers: map<Id, Container>)
  {
    && o.service == s.member.name && o.identity == s.member.identity && o.error.None? && o.dockerId.Some?
    && o.dockerId.value in containers && Serves(plan, s, containers[o.dockerId.value])
  }

  /** The first outcomes say their services are up, and they are. */
  ghost predicate UpSoFar(plan: StackPlan, order: seq<string>, started: seq<ServiceOutcome>, containers: map<Id,
      Container>)
  {
    && |started| <= |order| && (forall n :: n in order ==> n in ServicesByName(plan.services))
    && forall i :: 0 <= i < |started| ==> Up(plan, ServicesByName(plan.services)[order[i]], started[i], containers)
  }

  lemma OneMoreUp(plan: StackPlan, order: seq<string>, started: seq<ServiceOutcome>, o: ServiceOutcome,
      before: map<Id, Container>, now: map<Id, Container>)
    requires UpSoFar(plan, order, started, before) && |started| < |order| && Submap(before, now)
    requires order[|started|] in order && Up(plan, ServicesByName(plan.services)[order[|started|]], o, now)
    ensures UpSoFar(plan, order, started + [o], now)
  {
  }

  /** Every container made since the floor was made by one of these outcomes, and nothing else changed. */
  ghost predicate Made(floor: Id, before: map<Id, Container>, started: seq<ServiceOutcome>, now: map<Id, Container>)
  {
    && (forall id :: id in NewIds(started) ==> id >= floor) && MadeOnce(started)
    && now.Keys == before.Keys + NewIds(started) && Submap(before, now)
  }

  ghost predicate MadeOnce(started: seq<ServiceOutcome>)
  {
    forall i, j :: 0 <= i < j < |started| && started[i].dockerId.Some? ==> started[i].dockerId != started[j].dockerId
  }

  lemma OneMoreMade(floor: Id, before: map<Id, Container>, started: seq<ServiceOutcome>, now: map<Id, Container>,
      o: ServiceOutcome, now': map<Id, Container>)
    requires Made(floor, before, started, now)
    requires o.dockerId.None? ==> now' == now
    requires o.dockerId.Some? ==>
      && o.dockerId.value !in now && o.dockerId.value >= floor && o.dockerId.value in now'
      && now' == now[o.dockerId.value := now'[o.dockerId.value]]
    ensures Made(floor, before, started + [o], now') && Submap(now, now')
  {
    assert NewIds(started + [o]) == NewIds(started) + (if o.dockerId.Some? then {o.dockerId.value} else {});
    forall i | 0 <= i < |started| && started[i].dockerId.Some?
      ensures started[i].dockerId != o.dockerId
    {
      assert started[i] in started && started[i].dockerId.value in NewIds(started);
    }
  }

  /** Everything before the last one worked, and that one is the service named. */
  ghost predicate Broke(started: seq<ServiceOutcome>, service: string)
  {
    && started != [] && started[|started| - 1].error.Some? && started[|started| - 1].service == service
    && forall i :: 0 <= i < |started| - 1 ==> started[i].error.None?
  }

  predicate RunsIn(o: ServiceOutcome, containers: map<Id, Container>)
  {
    o.dockerId.Some? && o.dockerId.value in containers && containers[o.dockerId.value].running
  }

  /** A new container runs only where those of the services it depends on run. */
  ghost predicate Supported(plan: StackPlan, services: seq<ServiceOutcome>, containers: map<Id, Container>)
  {
    forall o, s, n ::
      (&& o in services && RunsIn(o, containers) && s in plan.services && s.member.name == o.service
       && n in s.member.dependsOn) ==>
      exists p :: p in services && p.service == n && RunsIn(p, containers)
  }

  /** At every moment since then. */
  ghost predicate SupportedThrough(plan: StackPlan, services: seq<ServiceOutcome>, trace: seq<Event>, from: nat)
  {
    forall i :: from <= i < |trace| ==> Supported(plan, services, trace[i].after.containers)
  }

  /** At every moment since then a container runs only where those started before it run. */
  ghost predicate InTurn(started: seq<ServiceOutcome>, trace: seq<Event>, from: nat)
  {
    forall i :: from <= i < |trace| ==> InTurnAt(started, trace[i].after.containers)
  }

  ghost predicate InTurnAt(started: seq<ServiceOutcome>, containers: map<Id, Container>)
  {
    forall j, k :: 0 <= k < j < |started| && RunsIn(started[j], containers) ==> RunsIn(started[k], containers)
  }

  /** The same on the way back, for as long as every removal was done. */
  ghost predicate BackInTurn(started: seq<ServiceOutcome>, trace: seq<Event>, from: nat)
  {
    forall i :: from <= i < |trace| && Cleared(trace[..i + 1], from) ==> InTurnAt(started, trace[i].after.containers)
  }

  lemma OneMoreInTurn(plan: StackPlan, order: seq<string>, started: seq<ServiceOutcome>, o: ServiceOutcome,
      before: map<Id, Container>, sofar: seq<Event>, trace: seq<Event>, from: nat)
    requires InTurn(started, sofar, from) && from <= |sofar| && sofar <= trace
    requires UpSoFar(plan, order, started, before) && KeptThrough(before, trace, |sofar|)
    requires o.dockerId.Some? ==> SeenBelow(sofar, from, o.dockerId.value)
    ensures InTurn(started + [o], trace, from)
  {
    hide ServicesByName;
    assert forall n :: n in order ==> n in ServicesByName(plan.services);
    forall i, j, k | from <= i < |trace| && 0 <= k < j < |started| + 1
        && RunsIn((started + [o])[j], trace[i].after.containers)
      ensures RunsIn((started + [o])[k], trace[i].after.containers)
    {
      if i < |sofar| {
        assert trace[i] == sofar[i] && InTurnAt(started, sofar[i].after.containers);
      } else {
        assert order[k] in order;
        assert Up(plan, ServicesByName(plan.services)[order[k]], started[k], before);
      }
    }
  }

  /** On the networks the plan gives its service. */
  ghost predicate OnItsNetworks(plan: StackPlan, o: ServiceOutcome, c: Container)
  {
    exists s :: s in plan.services && s.member.name == o.service && Attached(s, s.spec.networks, c)
  }

  /** A new container runs only on its networks, and only while every old one is stopped. */
  ghost predicate Alone(plan: StackPlan, displaced: set<Id>, services: seq<ServiceOutcome>,
      containers: map<Id, Container>)
  {
    forall o :: o in services && RunsIn(o, containers) ==>
      OnItsNetworks(plan, o, containers[o.dockerId.value]) && AllStopped(displaced, containers)
  }

  ghost predicate AloneThrough(plan: StackPlan, displaced: set<Id>, services: seq<ServiceOutcome>, trace: seq<Event>,
      from: nat)
  {
    forall i :: from <= i < |trace| ==> Alone(plan, displaced, services, trace[i].after.containers)
  }

  lemma OneMoreAlone(plan: StackPlan, order: seq<string>, displaced: set<Id>, started: seq<ServiceOutcome>,
      o: ServiceOutcome, s: StackService, before: map<Id, Container>, sofar: seq<Event>, trace: seq<Event>, from: nat)
    requires AloneThrough(plan, displaced, started, sofar, from) && from <= |sofar| && sofar <= trace
    requires UpSoFar(plan, order, started, before) && KeptThrough(before, trace, |sofar|)
    requires displaced <= before.Keys && AllStopped(displaced, before)
    requires s in plan.services && o.service == s.member.name
    requires o.dockerId.Some? ==>
      SeenBelow(sofar, from, o.dockerId.value) && AttachedFirst(s, o.dockerId.value, trace, |sofar|)
    ensures AloneThrough(plan, displaced, started + [o], trace, from)
  {
    hide ServicesByName, OnItsNetworks, UpSoFar, AllStopped, Attached;
    forall i, p | from <= i < |trace| && p in started + [o] && RunsIn(p, trace[i].after.containers)
      ensures OnItsNetworks(plan, p, trace[i].after.containers[p.dockerId.value])
      ensures AllStopped(displaced, trace[i].after.containers)
    {
      if i < |sofar| {
        assert trace[i] == sofar[i];
        assert Alone(plan, displaced, started, sofar[i].after.containers);
      } else {
        StillStopped(displaced, before, trace[i].after.containers);
        if p in started {
          UpOnNetworks(plan, order, started, before, p);
        } else {
          assert Attached(s, s.spec.networks, trace[i].after.containers[p.dockerId.value]);
          NetworksOf(plan, s, o, trace[i].after.containers[o.dockerId.value]);
        }
      }
    }
  }

  lemma NetworksOf(plan: StackPlan, s: StackService, o: ServiceOutcome, c: Container)
    requires s in plan.services && o.service == s.member.name && Attached(s, s.spec.networks, c)
    ensures OnItsNetworks(plan, o, c)
  {
  }

  lemma StillStopped(ids: set<Id>, before: map<Id, Container>, now: map<Id, Container>)
    requires ids <= before.Keys && AllStopped(ids, before) && Submap(before, now)
    ensures AllStopped(ids, now)
  {
  }

  lemma UpOnNetworks(plan: StackPlan, order: seq<string>, started: seq<ServiceOutcome>,
      containers: map<Id, Container>, p: ServiceOutcome)
    requires UpSoFar(plan, order, started, containers) && p in started
    ensures p.dockerId.Some? && p.dockerId.value in containers
    ensures OnItsNetworks(plan, p, containers[p.dockerId.value])
  {
    hide Attached;
    var k :| 0 <= k < |started| && started[k] == p;
    assert order[k] in order;
    var s := ServicesByName(plan.services)[order[k]];
    assert Up(plan, s, p, containers);
  }

  /** These services in this order, as far as it got. */
  ghost predicate FollowsOrder(order: seq<string>, started: seq<ServiceOutcome>)
  {
    |started| <= |order| && forall i :: 0 <= i < |started| ==> started[i].service == order[i]
  }

  /** In turn, in an order that puts dependencies first, is with every dependency running. */
  lemma TurnsAreSupported(plan: StackPlan, order: seq<string>, started: seq<ServiceOutcome>, trace: seq<Event>,
      from: nat)
    requires StackPlanOk(plan) && StartsInOrder(DependenciesOf(MembersOf(plan.services)), order)
    requires FollowsOrder(order, started) && InTurn(started, trace, from)
    ensures SupportedThrough(plan, started, trace, from)
  {
    hide StackPlanOk, StartsInOrder, InTurnAt, Supported, FollowsOrder;
    forall i | from <= i < |trace|
      ensures Supported(plan, started, trace[i].after.containers)
    {
      InTurnIsSupported(plan, order, started, trace[i].after.containers);
    }
  }

  lemma InTurnIsSupported(plan: StackPlan, order: seq<string>, started: seq<ServiceOutcome>,
      containers: map<Id, Container>)
    requires StackPlanOk(plan) && StartsInOrder(DependenciesOf(MembersOf(plan.services)), order)
    requires FollowsOrder(order, started) && InTurnAt(started, containers)
    ensures Supported(plan, started, containers)
  {
    hide StackPlanOk;
    forall o, s, n | o in started && s in plan.services && RunsIn(o, containers) && s.member.name == o.service
        && n in s.member.dependsOn
      ensures exists p :: p in started && p.service == n && RunsIn(p, containers)
    {
      var j :| 0 <= j < |started| && started[j] == o;
      var k := StartedEarlier(plan, order, s, j, n);
      assert RunsIn(started[k], containers) && started[k] in started;
    }
  }

  /** Dependents go first on the way back, for as long as every removal was done. */
  ghost predicate SupportedBack(plan: StackPlan, services: seq<ServiceOutcome>, trace: seq<Event>, from: nat)
  {
    forall i :: from <= i < |trace| && Cleared(trace[..i + 1], from) ==>
      Supported(plan, services, trace[i].after.containers)
  }

  lemma TurnsBackSupported(plan: StackPlan, order: seq<string>, started: seq<ServiceOutcome>, trace: seq<Event>,
      from: nat)
    requires StackPlanOk(plan) && StartsInOrder(DependenciesOf(MembersOf(plan.services)), order)
    requires FollowsOrder(order, started) && BackInTurn(started, trace, from)
    ensures SupportedBack(plan, started, trace, from)
  {
    hide StackPlanOk, StartsInOrder, InTurnAt, Supported, FollowsOrder, Cleared;
    forall i | from <= i < |trace| && Cleared(trace[..i + 1], from)
      ensures Supported(plan, started, trace[i].after.containers)
    {
      InTurnIsSupported(plan, order, started, trace[i].after.containers);
    }
  }

  /** Stopping and removing the last one that is left keeps the others in turn. */
  lemma OneMoreBack(started: seq<ServiceOutcome>, i: nat, before: seq<Event>, after: seq<Event>, from: nat,
      was: map<Id, Container>)
    requires from <= |before| && |after| == |before| + 2 && after[..|before|] == before
    requires BackInTurn(started, before, from) && i < |started| && started[i].dockerId.Some?
    requires started[i].dockerId.value in was
    requires Cleared(before, from) ==>
      && InTurnAt(started, was)
      && forall j :: i < j < |started| && started[j].dockerId.Some? ==> started[j].dockerId.value !in was
    requires var mid := after[|before|].after.containers;
      mid == was || mid == was[started[i].dockerId.value := was[started[i].dockerId.value].(running := false)]
    requires after[|before| + 1].reply.Done? ==>
      after[|before| + 1].after.containers == was - {started[i].dockerId.value}
    requires !after[|before| + 1].call.Stop? && MadeOnce(started)
    ensures BackInTurn(started, after, from)
    ensures Cleared(after, from) ==> InTurnAt(started, after[|before| + 1].after.containers)
  {
    assert after[..|after|] == after && after[..|before| + 2] == after;
    forall t | from <= t < |after| && Cleared(after[..t + 1], from)
      ensures InTurnAt(started, after[t].after.containers)
    {
      if t < |before| {
        assert after[..t + 1] == before[..t + 1] && after[t] == before[t];
      } else {
        ShorterCleared(before, after[..t + 1], from);
        if t == |before| + 1 { assert after[..t + 1][t].reply.Done?; }
        LastGoesFirst(started, i, was, after[t].after.containers);
      }
    }
  }

  lemma ShorterCleared(before: seq<Event>, after: seq<Event>, from: nat)
    requires before <= after && Cleared(after, from)
    ensures Cleared(before, from)
  {
    assert forall i :: 0 <= i < |before| ==> before[i] == after[i];
  }

  lemma LastGoesFirst(started: seq<ServiceOutcome>, i: nat, was: map<Id, Container>, now: map<Id, Container>)
    requires i < |started| && started[i].dockerId.Some? && started[i].dockerId.value in was && MadeOnce(started)
    requires InTurnAt(started, was)
    requires forall j :: i < j < |started| && started[j].dockerId.Some? ==> started[j].dockerId.value !in was
    requires var id := started[i].dockerId.value;
      now == was || now == was[id := was[id].(running := false)] || now == was - {id}
    ensures InTurnAt(started, now)
  {
  }

  lemma StartedEarlier(plan: StackPlan, order: seq<string>, s: StackService, j: nat, n: string) returns (k: nat)
    requires StackPlanOk(plan) && StartsInOrder(DependenciesOf(MembersOf(plan.services)), order)
    requires s in plan.services && j < |order| && order[j] == s.member.name && n in s.member.dependsOn
    ensures k < j && order[k] == n
  {
    hide DependenciesOf, Acceptable;
    var members := MembersOf(plan.services);
    var deps := DependenciesOf(members);
    var at :| 0 <= at < |plan.services| && plan.services[at] == s;
    assert members[at] in members && CoveredBy(members[at].dependsOn, deps);
    assert n in order[..j];
    k :| k < j && order[k] == n;
  }

  /** Starts the services in order until one fails. */
  method StartServices(d: Docker, plan: StackPlan, order: seq<string>, ghost displaced: set<Id>)
    returns (started: seq<ServiceOutcome>, failed: Option<string>)
    requires d.Valid() && !d.watch.phase.Surveying?
    requires forall n :: n in order ==> n in ServicesByName(plan.services)
    requires forall s :: s in plan.services ==> ServiceOk(s)
    requires displaced <= d.host.containers.Keys && AllStopped(displaced, d.host.containers)
    modifies d`trace, d`host, d`minted
    ensures d.Valid() && old(d.trace) <= d.trace && (order != [] ==> |old(d.trace)| < |d.trace|)
    ensures Made(old(d.minted), old(d.host).containers, started, d.host.containers)
    ensures failed.None? ==> |started| == |order| && UpSoFar(plan, order, started, d.host.containers)
    ensures failed.Some? ==> Broke(started, failed.value) && !Flawless(d.trace, |old(d.trace)|)
    ensures FollowsOrder(order, started) && InTurn(started, d.trace, d.watch.from)
    ensures AloneThrough(plan, displaced, started, d.trace, d.watch.from)
    ensures AllStopped(displaced, d.host.containers)
  {
    hide Docker.Valid, Up, Serves, UpSoFar, Made, ServicesByName, Flawless, InTurn, SeenBelow, KeptThrough, ServiceOk,
      AloneThrough, AllStopped, AttachedFirst, AllDone, NameTaken;
    started, failed := [], None;
    var byName := ServicesByName(plan.services);
    NothingYet(d.minted, d.host.containers, plan, order, d.trace, d.watch.from, displaced);
    for i := 0 to |order|
      invariant d.Valid() && old(d.trace) <= d.trace && (i > 0 ==> |old(d.trace)| < |d.trace|)
      invariant |started| == i && d.minted >= old(d.minted)
      invariant Made(old(d.minted), old(d.host).containers, started, d.host.containers)
      invariant UpSoFar(plan, order, started, d.host.containers)
      invariant forall k :: 0 <= k < i ==> started[k].error.None?
      invariant FollowsOrder(order, started) && InTurn(started, d.trace, d.watch.from)
      invariant displaced <= d.host.containers.Keys && AllStopped(displaced, d.host.containers)
      invariant AloneThrough(plan, displaced, started, d.trace, d.watch.from)
    {
      assert order[i] in order;
      d.IdentifiersGivenOut();
      ghost var before, sofar := d.host.containers, d.trace;
      var outcome := StartService(d, plan, byName[order[i]]);
      OneMoreMade(old(d.minted), old(d.host).containers, started, before, outcome, d.host.containers);
      OneMoreInTurn(plan, order, started, outcome, before, sofar, d.trace, d.watch.from);
      OneMoreAlone(plan, order, displaced, started, outcome, byName[order[i]], before, sofar, d.trace, d.watch.from);
      StillStopped(displaced, before, d.host.containers);
      if outcome.error.Some? {
        Flawed(d.trace, d.trace, |sofar|, |old(d.trace)|);
        return started + [outcome], Some(order[i]);
      }
      IsUp(plan, byName[order[i]], outcome, d.host.containers);
      OneMoreUp(plan, order, started, outcome, before, d.host.containers);
      started := started + [outcome];
    }
  }

  lemma NothingYet(floor: Id, containers: map<Id, Container>, plan: StackPlan, order: seq<string>,
      trace: seq<Event>, from: nat, displaced: set<Id>)
    requires forall n :: n in order ==> n in ServicesByName(plan.services)
    ensures AloneThrough(plan, displaced, [], trace, from)
    ensures Made(floor, containers, [], containers) && UpSoFar(plan, order, [], containers)
    ensures InTurn([], trace, from)
  {
  }

  lemma IsUp(plan: StackPlan, s: StackService, o: ServiceOutcome, containers: map<Id, Container>)
    requires o.service == s.member.name && o.identity == s.member.identity && o.error.None? && o.dockerId.Some?
    requires o.dockerId.value in containers && Serves(plan, s, containers[o.dockerId.value])
    ensures Up(plan, s, o, containers)
  {
  }

  /** Every call since then was done, apart from stops, which do not count. */
  ghost predicate Cleared(trace: seq<Event>, from: nat)
  {
    forall i :: from <= i < |trace| ==> trace[i].call.Stop? || trace[i].reply.Done?
  }

  lemma LastCleared(before: seq<Event>, after: seq<Event>, from: nat)
    requires from <= |before| && |after| == |before| + 2 && after[..|before|] == before && after[|before|].call.Stop?
    requires !after[|before| + 1].call.Stop?
    ensures Cleared(after, from) <==> Cleared(before, from) && after[|before| + 1].reply.Done?
    ensures NoFault(after, from) ==> NoFault(before, from) && !after[|before| + 1].reply.Faulted?
  {
    assert forall i :: 0 <= i < |before| ==> after[i] == before[i];
  }

  lemma NothingCleared(trace: seq<Event>)
    ensures Cleared(trace, |trace|) && NoFault(trace, |trace|)
  {
  }

  lemma NothingBack(started: seq<ServiceOutcome>, trace: seq<Event>)
    ensures BackInTurn(started, trace, |trace|)
  {
  }

  /** Stops a container and removes it by force; whether the stop worked does not matter. */
  method StopAndRemove(d: Docker, id: Id) returns (removed: bool)
    requires d.Valid() && d.Mine(id) && d.Disposable(id) && id in d.host.containers
    modifies d`trace, d`host
    ensures d.Valid() && |d.trace| == |old(d.trace)| + 2 && d.trace[..|old(d.trace)|] == old(d.trace)
    ensures d.trace[|old(d.trace)|].call.Stop? && !d.trace[|old(d.trace)| + 1].call.Stop?
    ensures var mid, was := d.trace[|old(d.trace)|].after.containers, old(d.host).containers;
      mid == was || mid == was[id := was[id].(running := false)]
    ensures d.trace[|old(d.trace)| + 1].after == d.host
    ensures (removed ==> d.host.containers == old(d.host).containers - {id})
    ensures removed <==> d.trace[|old(d.trace)| + 1].reply.Done?
    ensures !removed ==> d.trace[|old(d.trace)| + 1].reply.Faulted? && id in d.host.containers
    ensures d.host == old(d.host).(containers := d.host.containers)
    ensures forall k :: k != id ==> (k in d.host.containers <==> k in old(d.host).containers)
    ensures forall k :: k != id && k in d.host.containers ==> d.host.containers[k] == old(d.host).containers[k]
    ensures removed ==> id !in d.host.containers
  {
    hide Docker.Valid;
    var _ := d.ContainerStop(id);
    var reply := d.ContainerRemove(id, true);
    removed := reply.Done?;
  }

  /** Every other container is as it was. */
  ghost predicate SameBut(ids: set<Id>, was: map<Id, Container>, now: map<Id, Container>)
  {
    && (forall id :: id !in ids ==> (id in now <==> id in was))
    && forall id :: id in now && id !in ids ==> now[id] == was[id]
  }

  lemma NothingElse(ids: set<Id>, was: map<Id, Container>)
    ensures SameBut(ids, was, was)
  {
  }

  lemma OneElse(ids: set<Id>, base: map<Id, Container>, was: map<Id, Container>, now: map<Id, Container>, id: Id)
    requires SameBut(ids, base, was) && id in ids
    requires forall k :: k != id ==> (k in now <==> k in was)
    requires forall k :: k != id && k in now ==> now[k] == was[k]
    ensures SameBut(ids, base, now)
  {
  }

  /** Removes the containers this attempt created, last one first. */
  method RemoveStarted(d: Docker, started: seq<ServiceOutcome>) returns (complete: bool)
    requires d.Valid() && (forall id :: id in NewIds(started) ==> d.Mine(id) && d.Disposable(id))
    requires MadeOnce(started) && NewIds(started) <= d.host.containers.Keys && InTurnAt(started, d.host.containers)
    modifies d`trace, d`host
    ensures d.Valid() && old(d.trace) <= d.trace && BackInTurn(started, d.trace, |old(d.trace)|)
    ensures SameBut(NewIds(started), old(d.host).containers, d.host.containers)
    ensures complete <==> Cleared(d.trace, |old(d.trace)|)
    ensures complete ==> forall id :: id in NewIds(started) ==> id !in d.host.containers
    ensures NoFault(d.trace, |old(d.trace)|) ==> complete
    ensures d.host == old(d.host).(containers := d.host.containers)
  {
    hide Docker.Valid, Cleared, NoFault, InTurnAt, BackInTurn, SameBut;
    complete := true;
    NothingElse(NewIds(started), d.host.containers);
    ghost var start := |d.trace|;
    NothingCleared(d.trace);
    NothingBack(started, d.trace);
    assert forall j :: 0 <= j < |started| && started[j].dockerId.Some? ==>
      started[j] in started && started[j].dockerId.value in NewIds(started);
    for i := |started| downto 0
      invariant d.Valid() && old(d.trace) <= d.trace
      invariant SameBut(NewIds(started), old(d.host).containers, d.host.containers)
      invariant complete <==> Cleared(d.trace, start)
      invariant BackInTurn(started, d.trace, start) && (complete ==> InTurnAt(started, d.host.containers))
      invariant NoFault(d.trace, start) ==> complete
      invariant d.host == old(d.host).(containers := d.host.containers)
      invariant forall j :: 0 <= j < i && started[j].dockerId.Some? ==> started[j].dockerId.value in d.host.containers
      invariant complete ==>
        forall j :: i <= j < |started| && started[j].dockerId.Some? ==> started[j].dockerId.value !in d.host.containers
    {
      var outcome := started[i];
      if outcome.dockerId.Some? {
        assert outcome in started;
        assert outcome.dockerId.value in NewIds(started);
        ghost var sofar, was := d.trace, d.host.containers;
        var removed := StopAndRemove(d, outcome.dockerId.value);
        LastCleared(sofar, d.trace, start);
        OneMoreBack(started, i, sofar, d.trace, start, was);
        OneElse(NewIds(started), old(d.host).containers, was, d.host.containers, outcome.dockerId.value);
        assert forall j :: 0 <= j < i && started[j].dockerId.Some? ==> started[j].dockerId != outcome.dockerId;
        if !removed { complete := false; }
      }
    }
  }

  // ---- the whole operation ----------------------------------------------

  /** Every service of the plan has its container, named, labelled, attached and running. */
  ghost predicate Deployed(plan: StackPlan, services: seq<ServiceOutcome>, containers: map<Id, Container>)
  {
    && (forall s {:trigger ServedBy(plan, s, services, containers)} :: s in plan.services ==>
      ServedBy(plan, s, services, containers))
    && (forall o {:trigger Expected(plan, o, containers)} :: o in services ==> Expected(plan, o, containers))
    && (forall i, j :: 0 <= i < j < |services| ==> services[i].service != services[j].service)
  }

  ghost predicate ServedBy(plan: StackPlan, s: StackService, services: seq<ServiceOutcome>, containers: map<Id,
      Container>)
  {
    exists o :: o in services && Up(plan, s, o, containers)
  }

  ghost predicate Expected(plan: StackPlan, o: ServiceOutcome, containers: map<Id, Container>)
  {
    exists s :: s in plan.services && Up(plan, s, o, containers)
  }

  lemma AllUp(plan: StackPlan, order: seq<string>, started: seq<ServiceOutcome>, containers: map<Id, Container>)
    requires NamesDistinct(MembersOf(plan.services)) && StartsInOrder(DependenciesOf(MembersOf(plan.services)), order)
    requires |started| == |order| && UpSoFar(plan, order, started, containers)
    ensures Deployed(plan, started, containers)
  {
    hide Serves, Up, UpSoFar, ServedBy, Expected;
    forall s | s in plan.services
      ensures ServedBy(plan, s, started, containers)
    {
      EachIsServed(plan, order, started, containers, s);
    }
    forall o | o in started
      ensures Expected(plan, o, containers)
    {
      EachIsExpected(plan, order, started, containers, o);
    }
    forall i, j | 0 <= i < j < |started|
      ensures started[i].service != started[j].service
    {
      NamedInOrder(plan, order, started, containers, i);
      NamedInOrder(plan, order, started, containers, j);
    }
  }

  lemma EachIsExpected(plan: StackPlan, order: seq<string>, started: seq<ServiceOutcome>, containers: map<Id,
      Container>, o: ServiceOutcome)
    requires |started| == |order| && UpSoFar(plan, order, started, containers) && o in started
    ensures Expected(plan, o, containers)
  {
    hide Serves;
    var i :| 0 <= i < |started| && started[i] == o;
    assert order[i] in order;
    assert Up(plan, ServicesByName(plan.services)[order[i]], o, containers);
  }

  lemma NamedInOrder(plan: StackPlan, order: seq<string>, started: seq<ServiceOutcome>, containers: map<Id,
      Container>, i: nat)
    requires UpSoFar(plan, order, started, containers) && i < |started|
    ensures started[i].service == order[i]
  {
    hide Serves;
    assert order[i] in order;
  }

  lemma EachIsServed(plan: StackPlan, order: seq<string>, started: seq<ServiceOutcome>, containers: map<Id,
      Container>, s: StackService)
    requires NamesDistinct(MembersOf(plan.services)) && Members(order) == DependenciesOf(MembersOf(plan.services)).Keys
    requires |started| == |order| && UpSoFar(plan, order, started, containers) && s in plan.services
    ensures ServedBy(plan, s, started, containers)
  {
    hide Serves;
    var k :| 0 <= k < |plan.services| && plan.services[k] == s;
    assert MembersOf(plan.services)[k] in MembersOf(plan.services);
    assert s.member.name in Members(order);
    var i :| 0 <= i < |order| && order[i] == s.member.name;
    NamedIsIt(plan.services, s);
    assert order[i] in order;
    assert Up(plan, s, started[i], containers) && started[i] in started;
  }

  /** Puts the host back the way it was found, and says whether all of it worked. */
  method Undo(d: Docker, started: seq<ServiceOutcome>, cs: seq<Candidate>)
    returns (outcome: Outcome, ghost restoring: nat)
    requires d.Valid() && d.watch.phase.Disturbing? && d.watch.touchable == IdsOf(cs) && IdsDistinct(cs)
    requires NamesUnique(d.watch.base.containers) && Plugged(d.watch.base)
    requires MadeOnce(started) && NewIds(started) <= d.host.containers.Keys
    requires forall id :: id in NewIds(started) ==> id >= d.watch.floor
    requires forall id :: id in d.host.containers && id >= d.watch.floor ==> id in NewIds(started)
    requires AllInHand(cs, d.watch.base.containers, d.host.containers) && OnNoNetwork(cs, d.host.containers)
    requires InTurnAt(started, d.host.containers)
    modifies d`trace, d`host
    ensures d.Valid() && old(d.trace) <= d.trace && |old(d.trace)| <= restoring <= |d.trace|
    ensures BackInTurn(started, d.trace[..restoring], |old(d.trace)|)
    ensures outcome.RolledBack? <==> Cleared(d.trace[..restoring], |old(d.trace)|) && AllDone(d.trace, restoring)
    ensures outcome.RolledBack? || outcome.RollbackIncomplete?
    ensures outcome.RolledBack? ==> d.host.containers == d.watch.base.containers
    // With no fault it works exactly when no candidate holds the name another one gave up.
    ensures Blocked(cs) ==> d.host.containers != d.watch.base.containers
    ensures NoFault(d.trace, |old(d.trace)|) && !Blocked(cs) ==> outcome.RolledBack?
  {
    hide Docker.Valid, InHand, Cleared, AllDone, Smooth, NoFault, Untouched, Blocked, Roomy, AllInHand, MadeOnce,
      Plugged, NamesUnique, InTurnAt, BackInTurn;
    d.IdentifiersGivenOut();
    assert forall c :: c in cs ==> c.id in IdsOf(cs);
    StartedAreOthers(cs, started, d.watch.base.containers, d.host.containers, d.watch.floor);
    ghost var first := d.host.containers;
    var cleared := RemoveStarted(d, started);
    LeftInHand(cs, d.watch.base.containers, first, d.host.containers, NewIds(started));
    ghost var sofar := d.trace;
    restoring := |d.trace|;
    if cleared { RoomToRestore(d, cs); }
    ghost var base := d.watch.base.containers;
    var complete := Restore(d, cs, base);
    assert d.trace[..restoring] == sofar;
    RepliesSplit(d.trace, |old(d.trace)|, restoring);
    if cleared && complete {
      DoneIsSmooth(d.trace, restoring);
      AllPutBack(d, cs);
    }
    d.IdentifiersGivenOut();
    AsFoundIsUntouched(cs, base, d.host.containers);
    outcome := if cleared && complete then RolledBack else RollbackIncomplete;
  }

  lemma StartedAreOthers(cs: seq<Candidate>, started: seq<ServiceOutcome>, base: map<Id, Container>, now: map<Id,
      Container>, floor: Id)
    requires AllInHand(cs, base, now) && (forall id :: id in base ==> id < floor)
    requires (forall id :: id in NewIds(started) ==> id >= floor)
    ensures NewIds(started) !! IdsOf(cs)
  {
    hide InHand;
  }

  lemma StillDeployed(plan: StackPlan, services: seq<ServiceOutcome>, before: map<Id, Container>, now: map<Id,
      Container>)
    requires Deployed(plan, services, before)
    requires forall id :: id in NewIds(services) && id in before ==> id in now && now[id] == before[id]
    ensures Deployed(plan, services, now)
  {
    hide Serves;
    forall s | s in plan.services
      ensures ServedBy(plan, s, services, now)
    {
      assert ServedBy(plan, s, services, before);
      var o :| o in services && Up(plan, s, o, before);
      assert o.dockerId.value in NewIds(services);
      assert Up(plan, s, o, now);
    }
    forall o | o in services
      ensures Expected(plan, o, now)
    {
      assert Expected(plan, o, before);
      var s :| s in plan.services && Up(plan, s, o, before);
      assert o.dockerId.value in NewIds(services);
      assert Up(plan, s, o, now);
    }
  }

  /** What carries the stack's labels is what was deployed, exactly when the old containers are gone. */
  lemma OnlyTheNewOnes(w: Watch, h: Host, plan: StackPlan, services: seq<ServiceOutcome>)
    requires Spared(w, h) && w.touchable == StackIds(w.base.containers, plan.stackId) && StackPlanOk(plan)
    requires forall id :: id in w.touchable && id in h.containers ==>
      h.containers[id].labels == w.base.containers[id].labels
    requires forall id :: id in w.touchable ==> id < w.floor
    requires forall id :: id in NewIds(services) ==> id >= w.floor
    requires forall id :: id in h.containers && id >= w.floor ==> id in NewIds(services)
    requires Deployed(plan, services, h.containers)
    ensures StackIds(h.containers, plan.stackId) == NewIds(services) <==>
      forall id :: id in w.touchable ==> id !in h.containers
  {
    forall id | id in NewIds(services)
      ensures id in StackIds(h.containers, plan.stackId)
    {
      NewOneCarries(plan, services, h.containers, id);
    }
    if id :| id in w.touchable && id in h.containers {
      assert id in StackIds(h.containers, plan.stackId);
    }
  }

  lemma NewOneCarries(plan: StackPlan, services: seq<ServiceOutcome>, containers: map<Id, Container>, id: Id)
    requires StackPlanOk(plan) && Deployed(plan, services, containers) && id in NewIds(services)
    ensures id in StackIds(containers, plan.stackId)
  {
    hide DependenciesOf, Acceptable;
    var o :| o in services && o.dockerId == Some(id);
    assert Expected(plan, o, containers);
    var s :| s in plan.services && Up(plan, s, o, containers);
    var k :| 0 <= k < |plan.services| && plan.services[k] == s;
    assert MembersOf(plan.services)[k].identity != "";
    ServiceLabelsCarry(plan, s);
  }

  /** What a reported attempt says of the host it left. */
  ghost predicate Told(w: Watch, trace: seq<Event>, h: Host, plan: StackPlan, r: ApplyResult, turned: nat,
      restoring: nat)
    requires r.Reported?
  {
    if r.outcome.Applied? then
      && w.phase.Committed? && w.from < w.phase.at <= |trace|
      && Deployed(plan, r.services, trace[w.phase.at - 1].after.containers)
      && Deployed(plan, r.services, h.containers)
      && SupportedThrough(plan, r.services, trace[..w.phase.at], w.from)
      && AloneThrough(plan, w.touchable, r.services, trace[..w.phase.at], w.from)
      && (AllDone(trace, w.phase.at) <==> StackIds(h.containers, plan.stackId) == NewIds(r.services))
      && (NoFault(trace, w.phase.at) ==> AllDone(trace, w.phase.at))
    else
      && w.phase.Disturbing? && turned <= restoring <= |trace|
      && Broke(r.services, r.failedService) && !Flawless(trace[..turned], w.from)
      && SupportedThrough(plan, r.services, trace[..turned], w.from)
      && AloneThrough(plan, w.touchable, r.services, trace[..turned], w.from)
      && SupportedBack(plan, r.services, trace[..restoring], turned)
      && (r.outcome.RolledBack? <==> Cleared(trace[..restoring], turned) && AllDone(trace, restoring))
      && (r.outcome.RolledBack? ==> h.containers == w.base.containers)
      // With no fault on the way back, exactly what could be put back was.
      && (!Restorable(w.base.containers, plan) ==> h.containers != w.base.containers)
      && (NoFault(trace, turned) && Restorable(w.base.containers, plan) ==> r.outcome.RolledBack?)
  }

  /** Starts the new containers over the staged ones, and either goes through with it or back. */
  method Launch(d: Docker, plan: StackPlan, order: seq<string>, cs: seq<Candidate>)
    returns (r: ApplyResult, ghost turned: nat, ghost restoring: nat)
    requires d.Valid() && d.watch.phase.Disturbing? && StackPlanOk(plan)
    requires StartsInOrder(DependenciesOf(MembersOf(plan.services)), order) && order != []
    requires d.watch.touchable == StackIds(d.watch.base.containers, plan.stackId) == IdsOf(cs) && IdsDistinct(cs)
    requires NamesUnique(d.watch.base.containers) && Plugged(d.watch.base)
    requires d.host.containers.Keys == d.watch.base.containers.Keys && OnNoNetwork(cs, d.host.containers)
    requires AllInHand(cs, d.watch.base.containers, d.host.containers)
    requires Blocked(cs) <==> !Restorable(d.watch.base.containers, plan)
    requires AllStopped(d.watch.touchable, d.host.containers)
    modifies d
    ensures d.Valid() && old(d.trace) <= d.trace
    ensures d.watch == old(d.watch).(phase := d.watch.phase) && !d.watch.phase.Surveying?
    ensures d.watch.phase.since == old(d.watch).phase.since
    ensures r.Reported? && (r.complete <==> r.outcome.Applied?)
    ensures Told(d.watch, d.trace, d.host, plan, r, turned, restoring)
  {
    hide Docker.Valid, Deployed, UpSoFar, StackPlanOk, ServiceOk, AllInHand, ServicesByName, Blocked, Restorable,
      Flawless,
      NamesUnique, Plugged, OnNoNetwork, Told, Broke, MadeOnce, InTurn, InTurnAt, SupportedThrough, StartsInOrder,
      FollowsOrder, AloneThrough, AllStopped;
    turned, restoring := 0, 0;
    d.IdentifiersGivenOut();
    OrderNamesServices(plan, order);
    PlanNames(plan);
    ghost var before, sofar := d.host.containers, d.trace;
    var started, failed := StartServices(d, plan, order, d.watch.touchable);
    StillInHand(cs, d.watch.base.containers, before, d.host.containers);
    TurnsAreSupported(plan, order, started, d.trace, d.watch.from);
    if failed.Some? {
      Flawed(d.trace, d.trace, |sofar|, d.watch.from);
      LastInTurn(d, started);
      r, turned, restoring := TurnBack(d, plan, order, started, failed.value, cs);
      return;
    }
    AllUp(plan, order, started, d.host.containers);
    LabelsKept(cs, d.watch.base.containers, d.host.containers);
    Finish(d, plan, started, cs);
    return Reported(Applied, started, "", true), 0, 0;
  }

  lemma LastInTurn(d: Docker, started: seq<ServiceOutcome>)
    requires d.Valid() && d.watch.from < |d.trace| && InTurn(started, d.trace, d.watch.from)
    ensures InTurnAt(started, d.host.containers)
  {
    hide Docker.Valid, InTurnAt;
    d.LastEvent();
  }

  /** One service did not come up: everything goes back, and the result says which one it was. */
  method TurnBack(d: Docker, plan: StackPlan, ghost order: seq<string>, started: seq<ServiceOutcome>, failed: string,
      cs: seq<Candidate>)
    returns (r: ApplyResult, ghost turned: nat, ghost restoring: nat)
    requires d.Valid() && d.watch.phase.Disturbing? && d.watch.touchable == IdsOf(cs) && IdsDistinct(cs)
    requires NamesUnique(d.watch.base.containers) && Plugged(d.watch.base)
    requires MadeOnce(started) && NewIds(started) <= d.host.containers.Keys
    requires forall id :: id in NewIds(started) ==> id >= d.watch.floor
    requires forall id :: id in d.host.containers && id >= d.watch.floor ==> id in NewIds(started)
    requires AllInHand(cs, d.watch.base.containers, d.host.containers) && OnNoNetwork(cs, d.host.containers)
    requires Blocked(cs) <==> !Restorable(d.watch.base.containers, plan)
    requires Broke(started, failed) && !Flawless(d.trace, d.watch.from)
    requires SupportedThrough(plan, started, d.trace, d.watch.from) && InTurnAt(started, d.host.containers)
    requires AloneThrough(plan, d.watch.touchable, started, d.trace, d.watch.from)
    requires StackPlanOk(plan) && StartsInOrder(DependenciesOf(MembersOf(plan.services)), order)
    requires FollowsOrder(order, started)
    modifies d`trace, d`host
    ensures d.Valid() && old(d.trace) <= d.trace
    ensures r.Reported? && !r.complete && !r.outcome.Applied?
    ensures Told(d.watch, d.trace, d.host, plan, r, turned, restoring)
  {
    hide Docker.Valid, AllInHand, Blocked, Restorable, Flawless, Cleared, NamesUnique, Plugged, OnNoNetwork, NoFault,
      AllDone, Broke, MadeOnce, SupportedThrough, SupportedBack, StackPlanOk, StartsInOrder, FollowsOrder, InTurnAt,
      BackInTurn, AloneThrough;
    turned := |d.trace|;
    ghost var broken := d.trace;
    var outcome;
    outcome, restoring := Undo(d, started, cs);
    assert d.trace[..turned] == broken;
    TurnsBackSupported(plan, order, started, d.trace[..restoring], turned);
    r := Reported(outcome, started, failed, false);
  }

  /** Goes through with it: from here the old containers may go. */
  method Finish(d: Docker, plan: StackPlan, started: seq<ServiceOutcome>, cs: seq<Candidate>)
    requires d.Valid() && d.watch.phase.Disturbing? && StackPlanOk(plan) && d.watch.from < |d.trace|
    requires d.watch.touchable == StackIds(d.watch.base.containers, plan.stackId) == IdsOf(cs) && IdsDistinct(cs)
    requires forall id :: id in IdsOf(cs) ==> id in d.host.containers && id in d.watch.base.containers
    requires forall id :: id in IdsOf(cs) ==> d.host.containers[id].labels == d.watch.base.containers[id].labels
    requires Deployed(plan, started, d.host.containers) && SupportedThrough(plan, started, d.trace, d.watch.from)
    requires AllStopped(d.watch.touchable, d.host.containers)
    requires AloneThrough(plan, d.watch.touchable, started, d.trace, d.watch.from)
    requires forall id :: id in NewIds(started) ==> id >= d.watch.floor
    requires forall id :: id in d.host.containers && id >= d.watch.floor ==> id in NewIds(started)
    modifies d
    ensures d.Valid() && old(d.trace) <= d.trace
    ensures d.watch == old(d.watch).(phase := Committed(old(d.watch).phase.since, |old(d.trace)|))
    ensures Told(d.watch, d.trace, d.host, plan, Reported(Applied, started, "", true), 0, 0)
  {
    hide Docker.Valid, Deployed, Up, StackPlanOk, ServicesByName, AllDone, StackIds, Restorable, SupportedThrough,
      AloneThrough, AllStopped, NoFault;
    ghost var up := d.trace;
    d.IdentifiersGivenOut();
    d.LastEvent();
    d.Commit();
    ghost var ready := d.host.containers;
    assert forall c :: c in cs ==> c.id in IdsOf(cs);
    RemoveOld(d, cs);
    StillDeployed(plan, started, ready, d.host.containers);
    d.StillSpared();
    assert d.trace[..|up|] == up;
    OnlyTheNewOnes(d.watch, d.host, plan, started);
  }

  lemma PlanNames(plan: StackPlan)
    requires StackPlanOk(plan)
    ensures NamesDistinct(MembersOf(plan.services)) && forall s :: s in plan.services ==> ServiceOk(s)
  {
  }

  lemma OrderNamesServices(plan: StackPlan, order: seq<string>)
    requires StartsInOrder(DependenciesOf(MembersOf(plan.services)), order)
    ensures forall n :: n in order ==> n in ServicesByName(plan.services)
  {
    forall n | n in order
      ensures n in ServicesByName(plan.services)
    {
      assert n in Members(order);
      var m :| m in MembersOf(plan.services) && m.name == n;
      var k :| 0 <= k < |plan.services| && MembersOf(plan.services)[k] == m;
      assert plan.services[k] in plan.services;
    }
  }

  /**
   Moves this stack to the revision the plan describes.

   The watch the contract speaks of is the one the operation ran under:
   `d.Valid()` says that no container outside this stack was changed at any
   moment, that no volume or network that was there went, that no container at
   all was touched while surveying, and that no old container of the stack was
   removed before the commit.

   `turned` is the moment the operation gave up and `restoring` the moment it
   began putting containers back.
   */
  method ApplyStack(d: Docker, plan: StackPlan) returns (r: ApplyResult, ghost turned: nat, ghost restoring: nat)
    requires d.Valid()
    modifies d
    // The watch is this operation's, and touches only containers of this stack.
    ensures d.Valid() && old(d.trace) <= d.trace
    ensures d.watch.base == old(d.host) && d.watch.from == |old(d.trace)| && d.watch.floor == old(d.minted)
    ensures !d.watch.phase.Surveying? ==>
      d.watch.touchable == StackIds(old(d.host).containers, plan.stackId) && d.watch.expendable == {}
    // Nothing is touched before the plan and the host passed every check and all it needs was there.
    ensures !d.watch.phase.Surveying? ==> StackPlanOk(plan) && Unobjectionable(old(d.host), plan)
    ensures !d.watch.phase.Surveying? ==>
      d.watch.from < d.watch.phase.since <= |d.trace| && Provided(d.trace[d.watch.phase.since - 1].after, plan)
    // What is refused before anything is touched, and why.
    ensures r == Failed(PlanInvalid) <==> !StackPlanOk(plan)
    ensures d.watch.phase.Surveying? ==> r.Failed? && d.host.containers == old(d.host).containers
    ensures d.watch.phase.Surveying? ==>
      restoring <= |d.trace| && (NoFault(d.trace, restoring) ==> d.host.networks == old(d.host).networks)
    ensures r.Failed? && r.error in {EngineFailed, ImageUnavailable} ==>
      restoring <= |d.trace| && !AllDone(d.trace[..restoring], |old(d.trace)|)
    ensures r.Failed? && r.error != EngineFailed ==> d.watch.phase.Surveying?
    ensures r == Failed(ImageUnavailable) ==> !ImagesThere(d.host, plan)
    ensures r.Failed? && r.error !in {PlanInvalid, EngineFailed, ImageUnavailable} ==>
      Objects(old(d.host), plan, r.error)
    // A failure while moving aside: what comes back, if no call faults, is all that no other container stands in the
    // way of.
    ensures r.Failed? && !d.watch.phase.Surveying? ==>
      && d.watch.phase.since <= restoring <= |d.trace| && !AllDone(d.trace[..restoring], d.watch.from)
      && PutBackFrom(d.watch, d.trace, d.host, plan, restoring)
    // Otherwise: committed with every service running, or turned back.
    ensures r.Reported? ==>
      Told(d.watch, d.trace, d.host, plan, r, turned, restoring) && (r.complete <==> r.outcome.Applied?)
    // With nothing going wrong an acceptable plan is applied.
    ensures StackPlanOk(plan) && Unobjectionable(old(d.host), plan) && Flawless(d.trace, |old(d.trace)|) ==>
      r.Reported? && r.outcome.Applied?
  {
    hide Docker.Valid, Told, StackPlanOk, AllInHand, Found, Unobjectionable, Passed, StartsInOrder, Provided,
      Restorable, Flawless, AllDone, NoFault, NamesUnique, Plugged, Blocked, OnNoNetwork, PutBackFrom, Clear,
      NamesFree, VolumesPresent, ImagesThere, Objects, AllStopped;
    turned, restoring := 0, 0;
    d.EngineRules();
    var error, order, found;
    error, order, found, restoring := Prepare(d, plan);
    ghost var ready := d.trace;
    if error.Some? {
      if error.value in {EngineFailed, ImageUnavailable} {
        StillSpoilt(d.trace[..restoring], d.trace, |old(d.trace)|, |old(d.trace)|);
        NotFlawless(d.trace, |old(d.trace)|);
      }
      return Failed(error.value), 0, restoring;
    }
    r, turned, restoring := Exchange(d, plan, order, found);
    assert d.trace[|ready| - 1] == ready[|ready| - 1];
  }

  /** From the first disturbance on: the old containers go aside, and the new ones are started over them. */
  method Exchange(d: Docker, plan: StackPlan, order: seq<string>, found: seq<Candidate>)
    returns (r: ApplyResult, ghost turned: nat, ghost restoring: nat)
    requires d.Valid() && d.watch.phase == Disturbing(|d.trace|) && StackPlanOk(plan) && d.watch.from < |d.trace|
    requires d.host.containers == d.watch.base.containers && Found(found, d.host.containers, plan.stackId)
    requires d.watch.touchable == StackIds(d.watch.base.containers, plan.stackId)
    requires NamesUnique(d.watch.base.containers) && Plugged(d.watch.base)
    requires StartsInOrder(DependenciesOf(MembersOf(plan.services)), order) && order != []
    modifies d
    ensures d.Valid() && old(d.trace) <= d.trace
    ensures d.watch == old(d.watch).(phase := d.watch.phase) && !d.watch.phase.Surveying?
    ensures d.watch.phase.since == old(d.watch).phase.since
    ensures r.Failed? ==>
      && r.error == EngineFailed && d.watch.phase.since <= restoring <= |d.trace|
      && !AllDone(d.trace[..restoring], d.watch.from) && PutBackFrom(d.watch, d.trace, d.host, plan, restoring)
    ensures r.Reported? ==>
      Told(d.watch, d.trace, d.host, plan, r, turned, restoring) && (r.complete <==> r.outcome.Applied?)
    ensures Flawless(d.trace, d.watch.from) ==> r.Reported? && r.outcome.Applied?
  {
    hide Docker.Valid, Told, StackPlanOk, AllInHand, Found, StartsInOrder, Restorable, Flawless, AllDone, NamesUnique,
      Plugged, Blocked, OnNoNetwork, PutBackFrom, AllStopped;
    ghost var ready := d.trace;
    var staged, cs;
    staged, cs, restoring := Displace(d, plan, found);
    if !staged {
      StillSpoilt(d.trace[..restoring], d.trace[..restoring], |ready|, d.watch.from);
      StillSpoilt(d.trace[..restoring], d.trace, |ready|, d.watch.from);
      NotFlawless(d.trace, d.watch.from);
      return Failed(EngineFailed), restoring, restoring;
    }
    r, turned, restoring := Launch(d, plan, order, cs);
    if !r.outcome.Applied? { ToldIsFlawed(d.watch, d.trace, d.host, plan, r, turned, restoring); }
  }

  lemma NotFlawless(trace: seq<Event>, from: nat)
    requires !AllDone(trace, from)
    ensures !Flawless(trace, from)
  {
  }

  lemma ToldIsFlawed(w: Watch, trace: seq<Event>, h: Host, plan: StackPlan, r: ApplyResult, turned: nat, restoring: nat)
    requires r.Reported? && !r.outcome.Applied? && Told(w, trace, h, plan, r, turned, restoring)
    ensures !Flawless(trace, w.from)
  {
    hide Flawless, Cleared, Restorable, Broke, NoFault, AllDone;
    Flawed(trace[..turned], trace, w.from, w.from);
  }

  /** Every check of the preflight passes. */
  ghost predicate Unobjectionable(h: Host, plan: StackPlan)
  {
    && Clear(h.containers, plan)
    && NamesFree(h, plan, StackIds(h.containers, plan.stackId))
    && VolumesPresent(h, plan, StackIds(h.containers, plan.stackId))
  }

  /** Everything before the stack is disturbed. */
  method Prepare(d: Docker, plan: StackPlan)
    returns (error: Option<ApplyError>, order: seq<string>, found: seq<Candidate>, ghost cleaning: nat)
    requires d.Valid()
    modifies d
    ensures d.Valid() && old(d.trace) <= d.trace && d.host.containers == old(d.host).containers
    ensures d.watch.base == old(d.host) && d.watch.from == |old(d.trace)| && d.watch.floor == old(d.minted)
    ensures error == Some(PlanInvalid) <==> !StackPlanOk(plan)
    ensures error.Some? ==> d.watch.phase.Surveying?
    ensures error == Some(ImageUnavailable) ==> !ImagesThere(d.host, plan)
    ensures error.Some? ==>
      cleaning <= |d.trace| && (NoFault(d.trace, cleaning) ==> d.host.networks == old(d.host).networks)
    ensures error.Some? && error.value !in {PlanInvalid, EngineFailed, ImageUnavailable} ==>
      Objects(old(d.host), plan, error.value)
    ensures error.Some? && error.value in {EngineFailed, ImageUnavailable} ==>
      !AllDone(d.trace[..cleaning], |old(d.trace)|)
    ensures error.None? ==>
      Unobjectionable(old(d.host), plan) && Found(found, d.host.containers, plan.stackId) && Provided(d.host, plan)
    ensures error.Some? && error.value !in {PlanInvalid, EngineFailed, ImageUnavailable} ==>
      !Unobjectionable(old(d.host), plan)
    ensures error.None? ==>
      d.watch.phase == Disturbing(|d.trace|) && d.watch.from < |d.trace| && d.trace[|d.trace| - 1].after == d.host
    ensures error.None? ==>
      d.watch.touchable == StackIds(old(d.host).containers, plan.stackId) && d.watch.expendable == {}
    ensures error.None? ==> order != [] && StartsInOrder(DependenciesOf(MembersOf(plan.services)), order)
  {
    hide Docker.Valid, Clear, NamesFree, VolumesPresent, Provided, StackPlanOk, StartsInOrder, DependenciesOf,
      AllDone, NoFault;
    order, found := [], [];
    d.Begin();
    cleaning := |d.trace|;
    var ok;
    ok, order := CheckPlan(plan);
    if !ok { return Some(PlanInvalid), [], [], cleaning; }
    error, found, cleaning := Preflight(d, plan);
    if error.Some? { return error, [], [], cleaning; }
    d.LastEvent();
    d.Disturb(IdsOf(found), {});
  }

  /** The plan is validated, and the order it is started in worked out. */
  method CheckPlan(plan: StackPlan) returns (ok: bool, order: seq<string>)
    ensures ok <==> StackPlanOk(plan)
    ensures ok ==> order != [] && StartsInOrder(DependenciesOf(MembersOf(plan.services)), order)
  {
    var verdict := ValidateStackPlan(plan);
    if verdict.Rejected? { return false, []; }
    var ordered := OrderByDependencies(DependenciesOf(MembersOf(plan.services)));
    order := ordered.order;
    assert order != [] by { assert MembersOf(plan.services)[0].name in Members(order); }
    return true, order;
  }

  // ---- a host an attempt cannot be undone on -----------------------------

  const SMALL_SPEC := ContainerSpec("web", "web", "", [], [], [], [], [], [], "", map[], None)

  lemma SmallSpecAcceptable()
    ensures Acceptable(SMALL_SPEC)
  {
  }

  lemma SmallPlanOk(plan: StackPlan)
    requires plan == StackPlan(STACK_PLAN_VERSION, "s", "rev", [], [],
      [StackService(Member("web", "i", []), "web", SMALL_SPEC)])
    ensures StackPlanOk(plan)
  {
    hide Acceptable;
    SmallSpecAcceptable();
    var members := MembersOf(plan.services);
    assert members == [Member("web", "i", [])];
    var deps := DependenciesOf(members);
    forall knot
      ensures !Knot(deps, knot)
    {
      assert members[0] in members && deps["web"] == [] && deps.Keys == {"web"};
      assert !NeedsOneOf(deps, "web", knot);
      assert forall n :: n in knot && n in deps ==> n == "web";
    }
  }

  function OldOne(service: string, name: string): Container
  {
    Container(name, map[MANAGED := "true", STACK_ID := "s", STACK_SERVICE := service], false, map[], {}, NO_CONFIG)
  }

  /**
   A plan that is accepted and a host that passes every check, on which an attempt
   that has moved everything aside and then fails cannot put everything back: the
   first container is called what the second one is moved to.
   */
  lemma NameGivenUp() returns (h: Host, plan: StackPlan)
    ensures StackPlanOk(plan) && Unobjectionable(h, plan) && NamesUnique(h.containers) && Plugged(h)
    ensures !Restorable(h.containers, plan)
  {
    hide StackPlanOk, StagedName;
    LabelsDiffer();
    plan := StackPlan(STACK_PLAN_VERSION, "s", "rev", [], [], [StackService(Member("web", "i", []), "web",
      SMALL_SPEC)]);
    SmallPlanOk(plan);
    var staged := StagedName("rev", "b");
    NotTheName();
    var first, second := OldOne("a", staged), OldOne("b", "x");
    h := Host(map[1 := first, 2 := second], map[], map[], {});
    assert MembersOf(plan.services) == [Member("web", "i", [])];
    assert IdentitiesOf(MembersOf(plan.services)).Keys == {"web"};
    assert Label(first.labels, STACK_SERVICE) == "a" && Label(second.labels, STACK_SERVICE) == "b";
    assert Clear(h.containers, plan);
    assert Below("a", "b");
    assert 1 in StackIds(h.containers, "s") && 2 in StackIds(h.containers, "s");
    assert InTheWay(first, second, "rev");
  }

  lemma NotTheName()
    ensures StagedName("rev", "b") != "x" && StagedName("rev", "b") != "web"
  {
    assert |StagedName("rev", "b")| > 3;
  }
}
