/**
 Everything an apply does before the first container is touched
 (agent/internal/docker/stack_apply.go): reading what the stack already has,
 checking that nothing it wants belongs to somebody else, and making the images,
 networks and volumes available.
 */
module StackPreflight {
  import opened Wrappers
  import opened Text
  import opened AgentSpec
  import opened StackPlans
  import opened DockerHost

  datatype ApplyError =
    PlanInvalid | StateAmbiguous | ResourceConflict | VolumeMissing | ImageUnavailable | EngineFailed

  /** A container of this stack as it was found, and the name it was moved to. */
  datatype Candidate = Candidate(
    id: Id, name: string, service: string, wasRunning: bool, networks: map<string, seq<string>>, stagedName: string)

  // ---- what is required and what is promised ----------------------------

  ghost predicate Describes(c: Candidate, found: Container)
  {
    && c.name == found.name && c.wasRunning == found.running && c.networks == found.nets
    && c.service == Label(found.labels, STACK_SERVICE)
  }

  function IdsOf(cs: seq<Candidate>): set<Id>
  {
    set c | c in cs :: c.id
  }

  /** The containers whose labels say they are this stack's. */
  function StackIds(containers: map<Id, Container>, stackId: string): set<Id>
  {
    set id | id in containers && OfStack(containers[id].labels, stackId)
  }

  /** The host says clearly which container is which service. */
  ghost predicate Clear(containers: map<Id, Container>, plan: StackPlan)
  {
    && (forall id :: id in StackIds(containers, plan.stackId) ==> ClearContainer(containers[id].labels, plan))
    && (forall a, b :: a in StackIds(containers, plan.stackId) && b in StackIds(containers, plan.stackId) && a != b ==>
          Label(containers[a].labels, STACK_SERVICE) != Label(containers[b].labels, STACK_SERVICE))
  }

  predicate ClearContainer(labels: map<string, string>, plan: StackPlan)
  {
    var service := Label(labels, STACK_SERVICE);
    var wanted := IdentitiesOf(MembersOf(plan.services));
    service != "" && (service in wanted ==> Label(labels, CONTAINER_ID) == wanted[service])
  }

  /** The candidates are exactly the stack's containers, as they are. */
  ghost predicate Found(cs: seq<Candidate>, containers: map<Id, Container>, stackId: string)
  {
    && IdsOf(cs) == StackIds(containers, stackId)
    && (forall c :: c in cs ==> c.id in containers && Describes(c, containers[c.id]) && c.stagedName == "")
    && (forall i, j :: 0 <= i < j < |cs| ==> cs[i].id != cs[j].id)
    && (forall i, j :: 0 <= i < j < |cs| ==> Below(cs[i].service, cs[j].service))
  }

  ghost predicate NamesFree(h: Host, plan: StackPlan, ours: set<Id>)
  {
    && (forall s, id :: s in plan.services && id in h.containers && h.containers[id].name == s.containerName ==>
      id in ours)
    && (forall n :: n in plan.networks ==> NetworkFree(h, plan.stackId, n))
    && (forall v :: v in plan.volumes ==> VolumeFree(h, plan.stackId, v))
  }

  predicate NetworkFree(h: Host, stackId: string, n: StackNetwork)
  {
    n.dockerName in h.networks ==> OwnedByStack(h.networks[n.dockerName], stackId, STACK_NETWORK, n.name)
  }

  predicate VolumeFree(h: Host, stackId: string, v: StackVolume)
  {
    v.dockerName in h.volumes ==> OwnedByStack(h.volumes[v.dockerName], stackId, STACK_VOLUME, v.name)
  }

  /** The labels of a network or volume the stack makes. */
  function ResourceLabels(stackId: string, key: string, name: string): map<string, string>
  {
    map[MANAGED := "true"][STACK_ID := stackId][key := name]
  }

  lemma MadeIsOwned(stackId: string, key: string, name: string)
    requires key == STACK_NETWORK || key == STACK_VOLUME
    ensures OwnedByStack(ResourceLabels(stackId, key, name), stackId, key, name)
  {
    assert |MANAGED| == 20 && |STACK_ID| == 21 && |STACK_NETWORK| == 26 && |STACK_VOLUME| == 25;
  }

  ghost predicate VolumesPresent(h: Host, plan: StackPlan, ours: set<Id>)
  {
    && (forall v :: v in plan.volumes && v.mustExist ==> v.dockerName in h.volumes)
    && (forall id :: id in ours && id in h.containers ==> h.containers[id].volumes <= h.volumes.Keys)
  }

  // ---- reading what is there --------------------------------------------

  method InsertCandidate(sorted: seq<Candidate>, c: Candidate) returns (r: seq<Candidate>)
    requires forall i, j :: 0 <= i < j < |sorted| ==> Below(sorted[i].service, sorted[j].service)
    requires forall x :: x in sorted ==> x.service != c.service
    ensures forall i, j :: 0 <= i < j < |r| ==> Below(r[i].service, r[j].service)
    ensures Members(r) == Members(sorted) + {c}
  {
    var k := 0;
    while k < |sorted| && Below(sorted[k].service, c.service)
      invariant 0 <= k <= |sorted|
      invariant forall i :: 0 <= i < k ==> Below(sorted[i].service, c.service)
    {
      k := k + 1;
    }
    r := sorted[..k] + [c] + sorted[k..];
    forall j | k <= j < |sorted|
      ensures Below(c.service, sorted[j].service)
    {
      BelowTotal(c.service, sorted[k].service);
      assert sorted[k] in sorted;
      if j > k { BelowTransitive(c.service, sorted[k].service, sorted[j].service); }
    }
  }

  /** Sorted by service, so two applies of one plan go through them alike. */
  method SortCandidates(cs: seq<Candidate>) returns (r: seq<Candidate>)
    requires forall i, j :: 0 <= i < j < |cs| ==> cs[i].service != cs[j].service
    ensures forall i, j :: 0 <= i < j < |r| ==> Below(r[i].service, r[j].service)
    ensures Members(r) == Members(cs)
  {
    r := [];
    for k := 0 to |cs|
      invariant forall i, j :: 0 <= i < j < |r| ==> Below(r[i].service, r[j].service)
      invariant Members(r) == Members(cs[..k])
    {
      forall x | x in r
        ensures x.service != cs[k].service
      {
        assert x in Members(cs[..k]);
      }
      r := InsertCandidate(r, cs[k]);
      assert cs[..k + 1] == cs[..k] + [cs[k]];
    }
    assert cs[..|cs|] == cs;
  }

  /** The candidates collected from the containers listed so far. */
  ghost predicate Collected(cs: seq<Candidate>, seen: set<Id>, containers: map<Id, Container>, plan: StackPlan)
  {
    && IdsOf(cs) == StackIds(containers, plan.stackId) * seen
    && (forall c :: c in cs ==> c.id in containers && Describes(c, containers[c.id]) && c.stagedName == "")
    && (forall id :: id in StackIds(containers, plan.stackId) * seen ==> ClearContainer(containers[id].labels, plan))
    && (forall i, j :: 0 <= i < j < |cs| ==> cs[i].service != cs[j].service)
  }

  lemma CollectedOneMore(cs: seq<Candidate>, seen: set<Id>, containers: map<Id, Container>, plan: StackPlan,
      c: Candidate)
    requires Collected(cs, seen, containers, plan) && c.id in StackIds(containers, plan.stackId)
    requires Describes(c, containers[c.id]) && c.stagedName == "" && ClearContainer(containers[c.id].labels, plan)
    requires forall x :: x in cs ==> x.service != c.service
    ensures Collected(cs + [c], seen + {c.id}, containers, plan)
  {
    assert IdsOf(cs + [c]) == IdsOf(cs) + {c.id};
    forall i, j | 0 <= i < j < |cs + [c]|
      ensures (cs + [c])[i].service != (cs + [c])[j].service
    {
      assert (cs + [c])[i] in cs;
    }
  }

  lemma CollectedNoMore(cs: seq<Candidate>, seen: set<Id>, containers: map<Id, Container>, plan: StackPlan, id: Id)
    requires Collected(cs, seen, containers, plan) && id !in StackIds(containers, plan.stackId)
    ensures Collected(cs, seen + {id}, containers, plan)
  {
  }

  lemma CollectedAll(cs: seq<Candidate>, containers: map<Id, Container>, plan: StackPlan, sorted: seq<Candidate>)
    requires Collected(cs, containers.Keys, containers, plan)
    requires Members(sorted) == Members(cs)
    requires forall i, j :: 0 <= i < j < |sorted| ==> Below(sorted[i].service, sorted[j].service)
    ensures Clear(containers, plan) && Found(sorted, containers, plan.stackId)
  {
    forall a, b | a in StackIds(containers, plan.stackId) && b in StackIds(containers, plan.stackId) && a != b
      ensures Label(containers[a].labels, STACK_SERVICE) != Label(containers[b].labels, STACK_SERVICE)
    {
      assert a in IdsOf(cs) && b in IdsOf(cs);
      var i :| 0 <= i < |cs| && cs[i].id == a;
      var j :| 0 <= j < |cs| && cs[j].id == b;
      assert cs[i] in cs && cs[j] in cs;
    }
    forall c
      ensures c in sorted <==> c in cs
    {
      assert c in Members(sorted) <==> c in Members(cs);
    }
    assert IdsOf(sorted) == IdsOf(cs);
    forall i, j | 0 <= i < j < |sorted|
      ensures sorted[i].id != sorted[j].id
    {
      BelowAsymmetric(sorted[i].service, sorted[j].service);
      assert sorted[i] in sorted && sorted[j] in sorted;
    }
  }

  lemma TwoClaims(containers: map<Id, Container>, plan: StackPlan, cs: seq<Candidate>, seen: set<Id>, id: Id)
    requires Collected(cs, seen, containers, plan) && id !in seen && id in StackIds(containers, plan.stackId)
    requires exists c :: c in cs && c.service == Label(containers[id].labels, STACK_SERVICE)
    ensures !Clear(containers, plan)
  {
    var c :| c in cs && c.service == Label(containers[id].labels, STACK_SERVICE);
    assert c.id in IdsOf(cs);
  }

  /** One listed container: skipped, refused, or taken down as a candidate. */
  method CollectOne(d: Docker, plan: StackPlan, id: Id, found: seq<Candidate>, ghost seen: set<Id>)
    returns (error: Option<ApplyError>, cs: seq<Candidate>)
    requires d.Valid() && id in d.host.containers && id !in seen && Collected(found, seen, d.host.containers, plan)
    modifies d`trace
    ensures d.Valid() && old(d.trace) <= d.trace
    ensures error.None? ==> Collected(cs, seen + {id}, d.host.containers, plan)
    ensures error.Some? ==>
      error.value == EngineFailed || (error.value == StateAmbiguous && !Clear(d.host.containers, plan))
    ensures error == Some(EngineFailed) ==> !AllDone(d.trace, |old(d.trace)|)
  {
    hide Docker.Valid;
    var containers, wanted := d.host.containers, IdentitiesOf(MembersOf(plan.services));
    var labels := containers[id].labels;
    if !OfStack(labels, plan.stackId) {
      CollectedNoMore(found, seen, containers, plan, id);
      return None, found;
    }
    assert id in StackIds(containers, plan.stackId);
    var service := Label(labels, STACK_SERVICE);
    if service == "" { return Some(StateAmbiguous), []; }
    if service in (set c | c in found :: c.service) {
      TwoClaims(containers, plan, found, seen, id);
      return Some(StateAmbiguous), [];
    }
    if service in wanted && Label(labels, CONTAINER_ID) != wanted[service] { return Some(StateAmbiguous), []; }
    var inspected, look := d.ContainerInspect(id);
    if !inspected.Done? {
      Spoilt(d.trace, |old(d.trace)|, |d.trace| - 1);
      return Some(EngineFailed), [];
    }
    var c := Candidate(id, look.name, service, look.running, look.nets, "");
    CollectedOneMore(found, seen, containers, plan, c);
    return None, found + [c];
  }

  method StackCandidates(d: Docker, plan: StackPlan) returns (error: Option<ApplyError>, cs: seq<Candidate>)
    requires d.Valid()
    modifies d`trace
    ensures d.Valid() && old(d.trace) < d.trace
    ensures error.None? ==> Clear(d.host.containers, plan) && Found(cs, d.host.containers, plan.stackId)
    ensures error.Some? ==>
      error.value == EngineFailed || (error.value == StateAmbiguous && !Clear(d.host.containers, plan))
    ensures error == Some(EngineFailed) ==> !AllDone(d.trace, |old(d.trace)|)
  {
    hide Docker.Valid;
    cs := [];
    error := None;
    var reply, listed := d.ContainerList();
    if !reply.Done? {
      Spoilt(d.trace, |old(d.trace)|, |d.trace| - 1);
      return Some(EngineFailed), [];
    }
    var found: seq<Candidate> := [];
    for i := 0 to |listed|
      invariant d.Valid() && old(d.trace) < d.trace
      invariant Collected(found, Members(listed[..i]), d.host.containers, plan)
    {
      var id := listed[i];
      assert id in Members(listed);
      assert Members(listed[..i + 1]) == Members(listed[..i]) + {id} by {
        assert listed[..i + 1] == listed[..i] + [id];
      }
      ghost var sofar := d.trace;
      error, found := CollectOne(d, plan, id, found, Members(listed[..i]));
      if error.Some? {
        if error == Some(EngineFailed) { StillSpoilt(d.trace, d.trace, |sofar|, |old(d.trace)|); }
        return;
      }
    }
    assert listed[..|listed|] == listed;
    cs := SortCandidates(found);
    CollectedAll(found, d.host.containers, plan, cs);
    return None, cs;
  }

  // ---- what belongs to somebody else ------------------------------------

  /** Which container holds each name; names are unique on a host. */
  method ByName(d: Docker, listed: seq<Id>) returns (byName: map<string, Id>)
    requires d.Valid() && Members(listed) == d.host.containers.Keys
    ensures forall n :: n in byName ==> byName[n] in d.host.containers && d.host.containers[byName[n]].name == n
    ensures forall id :: id in d.host.containers ==>
      d.host.containers[id].name in byName && byName[d.host.containers[id].name] == id
  {
    byName := map[];
    for i := 0 to |listed|
      invariant forall n :: n in byName ==> byName[n] in d.host.containers && d.host.containers[byName[n]].name == n
      invariant forall id :: id in listed[..i] && id in d.host.containers ==> d.host.containers[id].name in byName
    {
      assert listed[i] in Members(listed);
      assert listed[..i + 1] == listed[..i] + [listed[i]];
      byName := byName[d.host.containers[listed[i]].name := listed[i]];
    }
    assert listed[..|listed|] == listed;
    forall id | id in d.host.containers
      ensures d.host.containers[id].name in byName && byName[d.host.containers[id].name] == id
    {
      assert id in Members(listed);
    }
  }

  method CheckNamesAreFree(d: Docker, plan: StackPlan, cs: seq<Candidate>) returns (error: Option<ApplyError>)
    requires d.Valid()
    modifies d`trace
    ensures d.Valid() && old(d.trace) <= d.trace
    ensures error.None? ==> NamesFree(d.host, plan, IdsOf(cs))
    ensures error.Some? ==>
      error.value == EngineFailed || (error.value == ResourceConflict && !NamesFree(d.host, plan, IdsOf(cs)))
    ensures error == Some(EngineFailed) ==> !AllDone(d.trace, |old(d.trace)|)
  {
    hide Docker.Valid;
    var ours := IdsOf(cs);
    var reply, listed := d.ContainerList();
    if !reply.Done? {
      Spoilt(d.trace, |old(d.trace)|, |d.trace| - 1);
      return Some(EngineFailed);
    }
    var byName := ByName(d, listed);
    ghost var h := d.host;
    for i := 0 to |plan.services|
      invariant forall j, id :: 0 <= j < i && id in h.containers ==>
        h.containers[id].name == plan.services[j].containerName ==> id in ours
    {
      var wanted := plan.services[i].containerName;
      if wanted in byName && byName[wanted] !in ours {
        assert plan.services[i] in plan.services;
        return Some(ResourceConflict);
      }
    }
    var listedNetworks, networks := d.NetworkList();
    if !listedNetworks.Done? {
      Spoilt(d.trace, |old(d.trace)|, |d.trace| - 1);
      return Some(EngineFailed);
    }
    for i := 0 to |plan.networks|
      invariant forall j :: 0 <= j < i ==> NetworkFree(h, plan.stackId, plan.networks[j])
    {
      var wanted := plan.networks[i];
      if wanted.dockerName in networks &&
        !OwnedByStack(networks[wanted.dockerName], plan.stackId, STACK_NETWORK, wanted.name) {
        assert wanted in plan.networks;
        return Some(ResourceConflict);
      }
    }
    var listedVolumes, volumes := d.VolumeList();
    if !listedVolumes.Done? {
      Spoilt(d.trace, |old(d.trace)|, |d.trace| - 1);
      return Some(EngineFailed);
    }
    for i := 0 to |plan.volumes|
      invariant forall j :: 0 <= j < i ==> VolumeFree(h, plan.stackId, plan.volumes[j])
    {
      var wanted := plan.volumes[i];
      if wanted.dockerName in volumes &&
        !OwnedByStack(volumes[wanted.dockerName], plan.stackId, STACK_VOLUME, wanted.name) {
        assert wanted in plan.volumes;
        return Some(ResourceConflict);
      }
    }
    return None;
  }

  /** A volume the running stack mounts and Docker no longer has stops everything. */
  method CheckVolumesArePresent(d: Docker, plan: StackPlan, cs: seq<Candidate>) returns (error: Option<ApplyError>)
    requires d.Valid() && IdsOf(cs) <= d.host.containers.Keys
    modifies d`trace
    ensures d.Valid() && old(d.trace) <= d.trace
    ensures error.None? ==> VolumesPresent(d.host, plan, IdsOf(cs))
    ensures error.Some? ==>
      error.value == EngineFailed || (error.value == VolumeMissing && !VolumesPresent(d.host, plan, IdsOf(cs)))
    ensures error == Some(EngineFailed) ==> !AllDone(d.trace, |old(d.trace)|)
  {
    hide Docker.Valid;
    var reply, present := d.VolumeList();
    if !reply.Done? {
      Spoilt(d.trace, |old(d.trace)|, |d.trace| - 1);
      return Some(EngineFailed);
    }
    for i := 0 to |plan.volumes|
      invariant forall j :: 0 <= j < i && plan.volumes[j].mustExist ==> plan.volumes[j].dockerName in present
    {
      if plan.volumes[i].mustExist && plan.volumes[i].dockerName !in present {
        assert plan.volumes[i] in plan.volumes;
        return Some(VolumeMissing);
      }
    }
    for i := 0 to |cs|
      invariant d.Valid() && old(d.trace) <= d.trace
      invariant forall j :: 0 <= j < i ==>
        cs[j].id in d.host.containers && d.host.containers[cs[j].id].volumes <= present.Keys
    {
      assert cs[i] in cs;
      assert cs[i].id in IdsOf(cs);
      var inspected, found := d.ContainerInspect(cs[i].id);
      if !inspected.Done? {
        Spoilt(d.trace, |old(d.trace)|, |d.trace| - 1);
        return Some(EngineFailed);
      }
      if !(found.volumes <= present.Keys) { return Some(VolumeMissing); }
    }
    return None;
  }

  // ---- making available what the revision needs -------------------------

  predicate ImagesThere(h: Host, plan: StackPlan)
  {
    forall s :: s in plan.services ==> s.spec.image in h.images
  }

  method EnsureImages(d: Docker, plan: StackPlan) returns (error: Option<ApplyError>)
    requires d.Valid()
    modifies d`trace, d`host
    ensures d.Valid() && old(d.trace) <= d.trace && d.host == old(d.host).(images := d.host.images)
    ensures error == None || (error == Some(ImageUnavailable) && !AllDone(d.trace, |old(d.trace)|))
    ensures error.None? <==> ImagesThere(d.host, plan)
  {
    hide Docker.Valid;
    for i := 0 to |plan.services|
      invariant d.Valid() && old(d.trace) <= d.trace && d.host == old(d.host).(images := d.host.images)
      invariant forall j :: 0 <= j < i ==> plan.services[j].spec.image in d.host.images
    {
      var reply := d.ImageEnsure(plan.services[i].spec.image);
      if !reply.Done? {
        Spoilt(d.trace, |old(d.trace)|, |d.trace| - 1);
        assert plan.services[i] in plan.services;
        return Some(ImageUnavailable);
      }
    }
    return None;
  }

  /** The networks on the host are those of before and the ones made since, each made once. */
  ghost predicate MadeNetworks(before: Host, now: Host, created: seq<string>)
  {
    && now == before.(networks := now.networks) && Submap(before.networks, now.networks)
    && now.networks.Keys == before.networks.Keys + Members(created)
    && Members(created) !! before.networks.Keys && Distinct(created)
  }

  /** Creates the networks that are missing, and says which it made. */
  method EnsureNetworks(d: Docker, plan: StackPlan) returns (ok: bool, created: seq<string>)
    requires d.Valid() && d.watch.base.networks == d.host.networks
    requires forall n :: n in plan.networks ==> NetworkFree(d.host, plan.stackId, n)
    modifies d`trace, d`host
    ensures d.Valid() && old(d.trace) <= d.trace
    ensures MadeNetworks(old(d.host), d.host, created) && d.host == old(d.host).(networks := d.host.networks)
    ensures ok ==> forall n :: n in plan.networks ==> HasNetwork(d.host, plan.stackId, n)
    ensures !ok ==> !AllDone(d.trace, |old(d.trace)|)
  {
    hide Docker.Valid;
    created := [];
    var reply, present := d.NetworkList();
    if !reply.Done? {
      Spoilt(d.trace, |old(d.trace)|, |d.trace| - 1);
      return false, created;
    }
    for i := 0 to |plan.networks|
      invariant d.Valid() && old(d.trace) <= d.trace && MadeNetworks(old(d.host), d.host, created)
      invariant forall j :: 0 <= j < i ==> HasNetwork(d.host, plan.stackId, plan.networks[j])
    {
      var wanted := plan.networks[i];
      assert wanted in plan.networks;
      if wanted.dockerName !in present {
        var labels := ResourceLabels(plan.stackId, STACK_NETWORK, wanted.name);
        MadeIsOwned(plan.stackId, STACK_NETWORK, wanted.name);
        ghost var before := d.host;
        var made := d.NetworkCreate(wanted.dockerName, labels);
        if !made.Done? {
          Spoilt(d.trace, |old(d.trace)|, |d.trace| - 1);
          return false, created;
        }
        OneMoreNetwork(old(d.host), before, d.host, created, wanted.dockerName);
        created := created + [wanted.dockerName];
      }
    }
    return true, created;
  }

  lemma OneMoreNetwork(before: Host, was: Host, now: Host, created: seq<string>, name: string)
    requires MadeNetworks(before, was, created) && name !in was.networks
    requires name in now.networks && now == was.(networks := was.networks[name := now.networks[name]])
    ensures MadeNetworks(before, now, created + [name])
  {
    DistinctConcat(created, [name]);
    assert Members(created + [name]) == Members(created) + {name};
  }

  /**
   Removes networks this attempt made, and only those. No container is on one of
   them, so with no fault the networks are those there were.
   */
  method RemoveNetworks(d: Docker, names: seq<string>, ghost before: Host)
    requires d.Valid() && d.watch.base.networks == before.networks && MadeNetworks(before, d.host, names)
    requires Plugged(before)
    modifies d`trace, d`host
    ensures d.Valid() && old(d.trace) <= d.trace && d.host == old(d.host).(networks := d.host.networks)
    ensures Submap(before.networks, d.host.networks)
    ensures NoFault(d.trace, |old(d.trace)|) ==> d.host == before
  {
    hide Docker.Valid;
    ghost var clean := true;
    for i := 0 to |names|
      invariant d.Valid() && old(d.trace) <= d.trace && d.host == before.(networks := d.host.networks)
      invariant Submap(before.networks, d.host.networks)
      invariant clean <==> NoFault(d.trace, |old(d.trace)|)
      invariant clean ==> MadeNetworks(before, d.host, names[i..])
    {
      assert names[i] in Members(names);
      ghost var was, sofar := d.host, d.trace;
      var reply := d.NetworkRemove(names[i]);
      LastReply(sofar, d.trace, |old(d.trace)|);
      if clean {
        assert names[i..][0] == names[i] && names[i] in Members(names[i..]);
        NotInUse(before, was, names[i]);
        if reply.Done? { OneNetworkLess(before, was, d.host, names[i..]); }
      }
      clean := clean && !reply.Faulted?;
    }
    if clean { assert d.host.networks == before.networks; }
  }

  lemma NotInUse(before: Host, now: Host, name: string)
    requires Plugged(before) && now.containers == before.containers && name !in before.networks
    ensures !InUse(now, name)
  {
  }

  lemma OneNetworkLess(before: Host, was: Host, now: Host, names: seq<string>)
    requires names != [] && MadeNetworks(before, was, names) && now == was.(networks := was.networks - {names[0]})
    ensures MadeNetworks(before, now, names[1..])
  {
    assert names == [names[0]] + names[1..];
    assert names[0] in Members(names);
    assert Members(names) == {names[0]} + Members(names[1..]);
    assert names[0] !in Members(names[1..]) by {
      assert forall k :: 1 <= k < |names| ==> names[k] != names[0];
    }
  }

  method EnsureVolumes(d: Docker, plan: StackPlan) returns (ok: bool)
    requires d.Valid() && forall v :: v in plan.volumes ==> VolumeFree(d.host, plan.stackId, v)
    modifies d`trace, d`host
    ensures d.Valid() && old(d.trace) <= d.trace && d.host == old(d.host).(volumes := d.host.volumes)
    ensures ok ==> forall v :: v in plan.volumes ==> HasVolume(d.host, plan.stackId, v)
    ensures Submap(old(d.host).volumes, d.host.volumes)
    ensures forall n :: n in d.host.volumes && n !in old(d.host).volumes ==> VolumeOf(plan, n, d.host.volumes[n])
    ensures !ok ==> !AllDone(d.trace, |old(d.trace)|)
  {
    hide Docker.Valid;
    var reply, present := d.VolumeList();
    if !reply.Done? {
      Spoilt(d.trace, |old(d.trace)|, |d.trace| - 1);
      return false;
    }
    for i := 0 to |plan.volumes|
      invariant d.Valid() && old(d.trace) <= d.trace && d.host == old(d.host).(volumes := d.host.volumes)
      invariant Submap(present, d.host.volumes)
      invariant forall n :: n in d.host.volumes && n !in present ==> VolumeOf(plan, n, d.host.volumes[n])
      invariant forall j :: 0 <= j < i ==> HasVolume(d.host, plan.stackId, plan.volumes[j])
    {
      var wanted := plan.volumes[i];
      assert wanted in plan.volumes;
      if wanted.dockerName !in present {
        var labels := ResourceLabels(plan.stackId, STACK_VOLUME, wanted.name);
        MadeIsOwned(plan.stackId, STACK_VOLUME, wanted.name);
        var made := d.VolumeCreate(wanted.dockerName, labels);
        if !made.Done? {
          Spoilt(d.trace, |old(d.trace)|, |d.trace| - 1);
          return false;
        }
      }
    }
    return true;
  }

  /** A volume of the plan, and labelled as the one it is. */
  predicate VolumeOf(plan: StackPlan, dockerName: string, labels: map<string, string>)
  {
    exists v :: v in plan.volumes && v.dockerName == dockerName
      && OwnedByStack(labels, plan.stackId, STACK_VOLUME, v.name)
  }

  /** The read-only half: what is there, and whether the plan may be applied over it. */
  method Survey(d: Docker, plan: StackPlan) returns (error: Option<ApplyError>, cs: seq<Candidate>)
    requires d.Valid()
    modifies d`trace
    ensures d.Valid() && old(d.trace) < d.trace
    ensures error.None? ==> Passed(d.host, plan, cs)
    ensures error.Some? ==> error.value == EngineFailed || Objects(d.host, plan, error.value)
    ensures error == Some(EngineFailed) ==> !AllDone(d.trace, |old(d.trace)|)
  {
    hide Docker.Valid, Clear, NamesFree, VolumesPresent;
    error, cs := StackCandidates(d, plan);
    if error.Some? { return; }
    error := CheckNamesAreFree(d, plan, cs);
    if error.Some? { return; }
    error := CheckVolumesArePresent(d, plan, cs);
  }

  /** What the read-only half establishes. */
  ghost predicate Passed(h: Host, plan: StackPlan, cs: seq<Candidate>)
  {
    && Clear(h.containers, plan) && Found(cs, h.containers, plan.stackId)
    && NamesFree(h, plan, StackIds(h.containers, plan.stackId))
    && VolumesPresent(h, plan, StackIds(h.containers, plan.stackId))
  }

  /** A refusal names something that is so. */
  ghost predicate Objects(h: Host, plan: StackPlan, error: ApplyError)
  {
    match error
    case StateAmbiguous => !Clear(h.containers, plan)
    case ResourceConflict => !NamesFree(h, plan, StackIds(h.containers, plan.stackId))
    case VolumeMissing => !VolumesPresent(h, plan, StackIds(h.containers, plan.stackId))
    case _ => false
  }

  /**
   The other half: images, networks and volumes are made available. If that does
   not work the networks made here go again, from the moment `cleaning` on.
   */
  method Provide(d: Docker, plan: StackPlan) returns (error: Option<ApplyError>, ghost cleaning: nat)
    requires d.Valid() && d.watch.base.networks == d.host.networks
    requires NamesFree(d.host, plan, StackIds(d.host.containers, plan.stackId))
    modifies d`trace, d`host
    ensures d.Valid() && old(d.trace) <= d.trace && d.host.containers == old(d.host).containers
    ensures error.None? ==> Provided(d.host, plan)
    ensures error.Some? ==>
      && (error.value == EngineFailed || error.value == ImageUnavailable)
      && |old(d.trace)| <= cleaning <= |d.trace| && !AllDone(d.trace[..cleaning], |old(d.trace)|)
      && (error.value == ImageUnavailable <==> !ImagesThere(d.host, plan))
    ensures error.Some? ==>
      cleaning <= |d.trace| && (NoFault(d.trace, cleaning) ==> d.host.networks == old(d.host).networks)
  {
    hide Docker.Valid, AllDone, NoFault, Provided, MadeNetworks;
    error := EnsureImages(d, plan);
    cleaning := |d.trace|;
    assert d.trace[..cleaning] == d.trace;
    if error.Some? { return; }
    d.EngineRules();
    ghost var start, before := d.trace, d.host;
    var ok, created := EnsureNetworks(d, plan);
    if !ok {
      ghost var failed := d.trace;
      cleaning := |failed|;
      StillSpoilt(failed, failed, |start|, |old(d.trace)|);
      RemoveNetworks(d, created, before);
      assert d.trace[..cleaning] == failed;
      return Some(EngineFailed), cleaning;
    }
    ghost var middle, made := d.trace, d.host;
    ok := EnsureVolumes(d, plan);
    if !ok {
      ghost var failed := d.trace;
      cleaning := |failed|;
      MoreVolumes(before, made, d.host, created);
      RemoveNetworks(d, created, before.(volumes := d.host.volumes));
      StillSpoilt(failed, failed, |middle|, |old(d.trace)|);
      assert d.trace[..cleaning] == failed;
      return Some(EngineFailed), cleaning;
    }
    AllProvided(before, made, d.host, created, plan);
    return None, cleaning;
  }

  lemma MoreVolumes(before: Host, was: Host, now: Host, created: seq<string>)
    requires MadeNetworks(before, was, created) && now == was.(volumes := now.volumes)
    ensures MadeNetworks(before.(volumes := now.volumes), now, created)
  {
  }

  lemma AllProvided(before: Host, made: Host, now: Host, created: seq<string>, plan: StackPlan)
    requires MadeNetworks(before, made, created) && now == made.(volumes := now.volumes)
    requires ImagesThere(before, plan)
    requires forall n :: n in plan.networks ==> HasNetwork(made, plan.stackId, n)
    requires forall v :: v in plan.volumes ==> HasVolume(now, plan.stackId, v)
    ensures Provided(now, plan)
  {
  }

  ghost predicate Provided(h: Host, plan: StackPlan)
  {
    && ImagesThere(h, plan)
    && (forall n :: n in plan.networks ==> HasNetwork(h, plan.stackId, n))
    && (forall v :: v in plan.volumes ==> HasVolume(h, plan.stackId, v))
  }

  /** The network is there and says it is this one of the stack. */
  predicate HasNetwork(h: Host, stackId: string, n: StackNetwork)
  {
    n.dockerName in h.networks && OwnedByStack(h.networks[n.dockerName], stackId, STACK_NETWORK, n.name)
  }

  /** The volume is there and is the stack's; two entries may share one volume. */
  predicate HasVolume(h: Host, stackId: string, v: StackVolume)
  {
    v.dockerName in h.volumes && OfStack(h.volumes[v.dockerName], stackId)
  }

  /** The whole of it, in the order the source has it, while no container may be touched. */
  method Preflight(d: Docker, plan: StackPlan)
    returns (error: Option<ApplyError>, cs: seq<Candidate>, ghost cleaning: nat)
    requires d.Valid() && d.watch.phase.Surveying? && d.host == d.watch.base
    modifies d`trace, d`host
    ensures d.Valid() && old(d.trace) < d.trace && d.host.containers == old(d.host).containers
    ensures error != Some(PlanInvalid) && (error == Some(ImageUnavailable) ==> !ImagesThere(d.host, plan))
    ensures error.None? ==> Passed(old(d.host), plan, cs) && Provided(d.host, plan)
    ensures error.Some? && error.value !in {EngineFailed, ImageUnavailable} ==> Objects(old(d.host), plan, error.value)
    ensures error.Some? && error.value in {EngineFailed, ImageUnavailable} ==>
      cleaning <= |d.trace| && !AllDone(d.trace[..cleaning], |old(d.trace)|)
    ensures error.Some? ==>
      cleaning <= |d.trace| && (NoFault(d.trace, cleaning) ==> d.host.networks == old(d.host).networks)
  {
    hide Docker.Valid, AllDone, NoFault, Provided, Found, Clear, NamesFree, VolumesPresent;
    error, cs := Survey(d, plan);
    cleaning := |d.trace|;
    assert d.trace[..cleaning] == d.trace;
    if error.Some? { return; }
    ghost var looked := d.trace;
    error, cleaning := Provide(d, plan);
    if error.Some? { StillSpoilt(d.trace[..cleaning], d.trace[..cleaning], |looked|, |old(d.trace)|); }
  }
}
