/**
 Starting, stopping and restarting a stack that is already deployed
 (agent/internal/docker/stack_lifecycle.go).

 The containers are found by a proof of ownership that leaves no choice, and gone
 through in one order, forwards or backwards.
 */
module StackLifecycle {
  import opened Wrappers
  import opened Text
  import opened AgentSpec
  import opened StartOrder
  import opened StackPlans
  import opened DockerHost
  import opened StackPreflight

  datatype LifecycleError = PlanRejected | Ambiguous | ServiceMissing | Engine

  /** A service of the stack as it is on the host right now. */
  datatype Resolved = Resolved(dockerId: Id, running: bool)

  // ---- whose container is whose -----------------------------------------

  /**
   The containers behind the services: each carries the stack, the revision, the
   service and the identity, and no other container carries the stack's labels.
   */
  ghost predicate Resolves(containers: map<Id, Container>, plan: LifecyclePlan, m: map<string, Resolved>)
  {
    && m.Keys == IdentitiesOf(plan.services).Keys
    && (forall s :: s in plan.services ==> IsService(containers, plan, s, m[s.name]))
    && IdsIn(m) == StackIds(containers, plan.stackId)
  }

  function IdsIn(m: map<string, Resolved>): set<Id>
  {
    set n | n in m :: m[n].dockerId
  }

  ghost predicate IsService(containers: map<Id, Container>, plan: LifecyclePlan, s: Member, r: Resolved)
  {
    && r.dockerId in containers && r.running == containers[r.dockerId].running
    && Carries(containers[r.dockerId].labels, plan.stackId, plan.revisionId, s)
  }

  lemma NameOf(plan: LifecyclePlan, n: string) returns (s: Member)
    requires n in IdentitiesOf(plan.services)
    ensures s in plan.services && s.name == n
  {
    s :| s in plan.services && s.name == n;
  }

  /** Which container is which service is not a matter of choice. */
  lemma ResolvesUnique(containers: map<Id, Container>, plan: LifecyclePlan, a: map<string, Resolved>, b: map<string,
      Resolved>)
    requires Resolves(containers, plan, a) && Resolves(containers, plan, b)
    ensures a == b
  {
    forall n | n in a
      ensures n in b && a[n] == b[n]
    {
      var s := NameOf(plan, n);
      assert a[n].dockerId in StackIds(containers, plan.stackId);
      var k :| k in b && b[k].dockerId == a[n].dockerId;
      var t := NameOf(plan, k);
      assert IsService(containers, plan, s, a[n]) && IsService(containers, plan, t, b[k]);
    }
    assert a.Keys == b.Keys;
  }

  /** No two services share a container. */
  lemma ResolvesInjective(containers: map<Id, Container>, plan: LifecyclePlan, m: map<string, Resolved>)
    requires Resolves(containers, plan, m)
    ensures forall a, b :: a in m && b in m && a != b ==> m[a].dockerId != m[b].dockerId
    ensures forall n :: n in m ==> m[n].dockerId in containers && containers[m[n].dockerId].running == m[n].running
  {
    forall a, b | a in m && b in m && a != b
      ensures m[a].dockerId != m[b].dockerId
    {
      var s := NameOf(plan, a);
      var t := NameOf(plan, b);
      assert IsService(containers, plan, s, m[a]) && IsService(containers, plan, t, m[b]);
    }
    forall n | n in m
      ensures m[n].dockerId in containers && containers[m[n].dockerId].running == m[n].running
    {
      var s := NameOf(plan, n);
      assert IsService(containers, plan, s, m[n]);
    }
  }

  /** Since then the host was only looked at. */
  ghost predicate JustLooked(trace: seq<Event>, from: nat, h: Host)
  {
    forall i :: from <= i < |trace| ==> trace[i].after == h && (trace[i].call.List? || trace[i].call.Inspect?)
  }

  /** What the listed containers so far say. */
  ghost predicate ResolvedSoFar(containers: map<Id, Container>, plan: LifecyclePlan, seen: set<Id>, m: map<string,
      Resolved>)
  {
    && m.Keys <= IdentitiesOf(plan.services).Keys
    && (forall s :: s in plan.services && s.name in m ==> IsService(containers, plan, s, m[s.name]))
    && IdsIn(m) == StackIds(containers, plan.stackId) * seen
  }

  lemma ResolvedOneMore(containers: map<Id, Container>, plan: LifecyclePlan, seen: set<Id>, m: map<string, Resolved>,
      id: Id, s: Member)
    requires ResolvedSoFar(containers, plan, seen, m) && NamesDistinct(plan.services) && s in plan.services
    requires s.name !in m
    requires id in StackIds(containers, plan.stackId)
    requires Carries(containers[id].labels, plan.stackId, plan.revisionId, s)
    ensures ResolvedSoFar(containers, plan, seen + {id}, m[s.name := Resolved(id, containers[id].running)])
  {
    hide IdentitiesOf, Carries;
    var m' := m[s.name := Resolved(id, containers[id].running)];
    IdsInUpdate(m, s.name, Resolved(id, containers[id].running));
    forall t | t in plan.services && t.name in m'
      ensures IsService(containers, plan, t, m'[t.name])
    {
      if t.name == s.name { SameMember(plan.services, s, t); }
    }
  }

  lemma IdsInUpdate(m: map<string, Resolved>, n: string, r: Resolved)
    requires n !in m
    ensures IdsIn(m[n := r]) == IdsIn(m) + {r.dockerId}
  {
    var m' := m[n := r];
    forall x | x in IdsIn(m) + {r.dockerId}
      ensures x in IdsIn(m')
    {
      if x == r.dockerId {
        assert m'[n].dockerId == x;
      } else {
        var k :| k in m && m[k].dockerId == x;
        assert m'[k].dockerId == x;
      }
    }
  }

  lemma SameMember(services: seq<Member>, s: Member, t: Member)
    requires NamesDistinct(services) && s in services && t in services && s.name == t.name
    ensures s == t
  {
    var i :| 0 <= i < |services| && services[i] == s;
    var j :| 0 <= j < |services| && services[j] == t;
  }

  /** Every container of the stack is one expected service. */
  lemma OwnerOf(containers: map<Id, Container>, plan: LifecyclePlan, m: map<string, Resolved>, id: Id)
    returns (s: Member)
    requires Resolves(containers, plan, m) && id in StackIds(containers, plan.stackId)
    ensures s in plan.services && s.name in m && m[s.name].dockerId == id
    ensures Carries(containers[id].labels, plan.stackId, plan.revisionId, s)
  {
    assert id in IdsIn(m);
    var n :| n in m && m[n].dockerId == id;
    s := NameOf(plan, n);
    assert IsService(containers, plan, s, m[n]);
  }

  lemma TwiceUnresolvable(containers: map<Id, Container>, plan: LifecyclePlan, a: Id, b: Id, m: map<string, Resolved>)
    requires a in StackIds(containers, plan.stackId) && b in StackIds(containers, plan.stackId) && a != b
    requires Label(containers[a].labels, STACK_SERVICE) == Label(containers[b].labels, STACK_SERVICE)
    ensures !Resolves(containers, plan, m)
  {
    hide Resolves;
    if Resolves(containers, plan, m) {
      var s := OwnerOf(containers, plan, m, a);
      var t := OwnerOf(containers, plan, m, b);
    }
  }

  lemma ResolvedNoMore(containers: map<Id, Container>, plan: LifecyclePlan, seen: set<Id>, m: map<string, Resolved>,
      id: Id)
    requires ResolvedSoFar(containers, plan, seen, m) && id !in StackIds(containers, plan.stackId)
    ensures ResolvedSoFar(containers, plan, seen + {id}, m)
  {
  }

  lemma AlreadyFound(containers: map<Id, Container>, plan: LifecyclePlan, seen: set<Id>, m: map<string, Resolved>,
      s: Member)
    requires ResolvedSoFar(containers, plan, seen, m) && s in plan.services && s.name in m
    ensures m[s.name].dockerId in StackIds(containers, plan.stackId) * seen
    ensures Label(containers[m[s.name].dockerId].labels, STACK_SERVICE) == s.name
  {
    assert IsService(containers, plan, s, m[s.name]);
    assert m[s.name].dockerId in IdsIn(m);
  }

  /** The three labels that are compared are what a member carries. */
  lemma ComparedLabels(labels: map<string, string>, plan: LifecyclePlan, s: Member)
    requires OfStack(labels, plan.stackId) && NamesDistinct(plan.services) && s in plan.services
    ensures Carries(labels, plan.stackId, plan.revisionId, s) <==>
      Label(labels, STACK_SERVICE) == s.name && Label(labels, CONTAINER_ID) == IdentitiesOf(plan.services)[s.name] &&
      Label(labels, STACK_REVISION_ID) == plan.revisionId
  {
  }

  /** One listed container: not the stack's, refused, or the container of a service. */
  method ResolveOne(d: Docker, plan: LifecyclePlan, id: Id, found: map<string, Resolved>, ghost seen: set<Id>)
    returns (error: Option<LifecycleError>, m: map<string, Resolved>)
    requires d.Valid() && NamesDistinct(plan.services) && id in d.host.containers && id !in seen
    requires ResolvedSoFar(d.host.containers, plan, seen, found)
    modifies d`trace
    ensures d.Valid() && old(d.trace) <= d.trace && JustLooked(d.trace, |old(d.trace)|, d.host)
    ensures error.None? ==> ResolvedSoFar(d.host.containers, plan, seen + {id}, m)
    ensures error.Some? ==>
      error.value == Engine || (error.value == Ambiguous && Muddled(d.host.containers, plan))
    ensures error == Some(Engine) ==> old(d.trace) < d.trace && d.trace[|d.trace| - 1].reply.Faulted?
  {
    hide Docker.Valid, Resolves, ResolvedSoFar, Carries, NamesDistinct;
    m := found;
    var containers, expected := d.host.containers, IdentitiesOf(plan.services);
    var labels := containers[id].labels;
    if !OfStack(labels, plan.stackId) {
      ResolvedNoMore(containers, plan, seen, found, id);
      return None, m;
    }
    var service := Label(labels, STACK_SERVICE);
    var other := service !in expected || Label(labels, CONTAINER_ID) != expected[service];
    if other || Label(labels, STACK_REVISION_ID) != plan.revisionId {
      forall s | s in plan.services
        ensures !Carries(labels, plan.stackId, plan.revisionId, s)
      {
        ComparedLabels(labels, plan, s);
      }
      assert IsStranger(containers, plan, id);
      return Some(Ambiguous), m;
    }
    ghost var s := NameOf(plan, service);
    if service in found {
      AlreadyFound(containers, plan, seen, found, s);
      assert AreTwins(containers, plan, id, found[service].dockerId);
      return Some(Ambiguous), m;
    }
    var inspected, look := d.ContainerInspect(id);
    if !inspected.Done? { return Some(Engine), m; }
    ComparedLabels(labels, plan, s);
    ResolvedOneMore(containers, plan, seen, found, id, s);
    return None, found[service := Resolved(id, look.running)];
  }

  /** Finds the container behind every expected service, and refuses anything unclear. */
  method ResolveStackServices(d: Docker, plan: LifecyclePlan)
    returns (error: Option<LifecycleError>, m: map<string, Resolved>)
    requires d.Valid() && NamesDistinct(plan.services)
    modifies d`trace
    ensures d.Valid() && old(d.trace) <= d.trace && JustLooked(d.trace, |old(d.trace)|, d.host)
    ensures error.None? ==> Resolves(d.host.containers, plan, m)
    ensures error.Some? ==> error.value == Engine || !Resolvable(d.host.containers, plan)
    ensures error.Some? ==> Explains(error.value, d.host.containers, plan)
    ensures error == Some(Engine) ==> !NoFault(d.trace, |old(d.trace)|)
    ensures error != Some(PlanRejected) && |old(d.trace)| < |d.trace|
  {
    hide Docker.Valid, Resolves, ResolvedSoFar, Muddled, Lacking, Resolvable;
    m := map[];
    error := None;
    var reply, listed := d.ContainerList();
    if !reply.Done? {
      Faulty(d.trace, |old(d.trace)|, |d.trace| - 1);
      return Some(Engine), m;
    }
    ResolvedNone(d.host.containers, plan);
    for i := 0 to |listed|
      invariant d.Valid() && old(d.trace) < d.trace && JustLooked(d.trace, |old(d.trace)|, d.host)
      invariant ResolvedSoFar(d.host.containers, plan, Members(listed[..i]), m)
    {
      assert listed[i] in Members(listed);
      assert Members(listed[..i + 1]) == Members(listed[..i]) + {listed[i]} by {
        assert listed[..i + 1] == listed[..i] + [listed[i]];
      }
      error, m := ResolveOne(d, plan, listed[i], m, Members(listed[..i]));
      if error.Some? {
        if error == Some(Engine) { Faulty(d.trace, |old(d.trace)|, |d.trace| - 1); }
        ResolvableIff(d.host.containers, plan);
        return;
      }
    }
    assert listed[..|listed|] == listed;
    for i := 0 to |plan.services|
      invariant forall j :: 0 <= j < i ==> plan.services[j].name in m
    {
      if plan.services[i].name !in m {
        assert plan.services[i] in plan.services;
        NotMuddled(d.host.containers, plan, m);
        IsMissing(d.host.containers, plan, m, plan.services[i]);
        ResolvableIff(d.host.containers, plan);
        return Some(ServiceMissing), m;
      }
    }
    ResolvedWhole(d.host.containers, plan, m);
    return None, m;
  }

  lemma ResolvedNone(containers: map<Id, Container>, plan: LifecyclePlan)
    ensures ResolvedSoFar(containers, plan, {}, map[])
    ensures Members<Id>([][..0]) == {}
  {
  }

  lemma ResolvedWhole(containers: map<Id, Container>, plan: LifecyclePlan, m: map<string, Resolved>)
    requires ResolvedSoFar(containers, plan, containers.Keys, m)
    requires forall j :: 0 <= j < |plan.services| ==> plan.services[j].name in m
    ensures Resolves(containers, plan, m)
  {
    assert StackIds(containers, plan.stackId) * containers.Keys == StackIds(containers, plan.stackId);
  }

  /** A container of the stack that is no expected service of the revision. */
  ghost predicate IsStranger(containers: map<Id, Container>, plan: LifecyclePlan, id: Id)
  {
    && id in StackIds(containers, plan.stackId)
    && forall s :: s in plan.services ==> !Carries(containers[id].labels, plan.stackId, plan.revisionId, s)
  }

  /** Two containers of the stack that say they are one service. */
  ghost predicate AreTwins(containers: map<Id, Container>, plan: LifecyclePlan, a: Id, b: Id)
  {
    && a != b && a in StackIds(containers, plan.stackId) && b in StackIds(containers, plan.stackId)
    && Label(containers[a].labels, STACK_SERVICE) == Label(containers[b].labels, STACK_SERVICE)
  }

  ghost predicate Muddled(containers: map<Id, Container>, plan: LifecyclePlan)
  {
    || (exists id :: IsStranger(containers, plan, id))
    || exists a, b :: AreTwins(containers, plan, a, b)
  }

  ghost predicate Served(containers: map<Id, Container>, plan: LifecyclePlan, s: Member)
  {
    exists id :: id in StackIds(containers, plan.stackId) &&
      Carries(containers[id].labels, plan.stackId, plan.revisionId, s)
  }

  /** An expected service has no container. */
  ghost predicate Lacking(containers: map<Id, Container>, plan: LifecyclePlan)
  {
    exists s :: s in plan.services && !Served(containers, plan, s)
  }

  /** What a refusal says is so. */
  ghost predicate Explains(error: LifecycleError, containers: map<Id, Container>, plan: LifecyclePlan)
  {
    match error
    case Ambiguous => Muddled(containers, plan)
    case ServiceMissing => !Muddled(containers, plan) && Lacking(containers, plan)
    case _ => true
  }

  /** A revision can be operated if and only if nothing of the stack is muddled and no service is missing. */
  lemma ResolvableIff(containers: map<Id, Container>, plan: LifecyclePlan)
    requires NamesDistinct(plan.services)
    ensures Resolvable(containers, plan) <==> !Muddled(containers, plan) && !Lacking(containers, plan)
  {
    hide Resolves, Carries, Served;
    if m :| Resolves(containers, plan, m) {
      ResolvedIsClear(containers, plan, m);
    }
    if !Muddled(containers, plan) && !Lacking(containers, plan) {
      var m := ClearResolves(containers, plan);
    }
  }

  lemma ResolvedIsClear(containers: map<Id, Container>, plan: LifecyclePlan, m: map<string, Resolved>)
    requires Resolves(containers, plan, m)
    ensures !Muddled(containers, plan) && !Lacking(containers, plan)
  {
    hide Resolves, Carries;
    forall id
      ensures !IsStranger(containers, plan, id)
    {
      if id in StackIds(containers, plan.stackId) { var _ := OwnerOf(containers, plan, m, id); }
    }
    forall a, b
      ensures !AreTwins(containers, plan, a, b)
    {
      if AreTwins(containers, plan, a, b) { TwiceUnresolvable(containers, plan, a, b, m); }
    }
    forall s | s in plan.services
      ensures Served(containers, plan, s)
    {
      ItsContainer(containers, plan, m, s);
    }
  }

  lemma ItsContainer(containers: map<Id, Container>, plan: LifecyclePlan, m: map<string, Resolved>, s: Member)
    requires Resolves(containers, plan, m) && s in plan.services
    ensures Served(containers, plan, s)
  {
    hide Carries;
    assert IsService(containers, plan, s, m[s.name]);
    assert m[s.name].dockerId in IdsIn(m);
  }

  /** With one container per service and none besides, that is the resolution. */
  lemma ClearResolves(containers: map<Id, Container>, plan: LifecyclePlan) returns (m: map<string, Resolved>)
    requires NamesDistinct(plan.services) && !Muddled(containers, plan) && !Lacking(containers, plan)
    ensures Resolves(containers, plan, m)
  {
    hide Carries, IdentitiesOf, AreTwins, IsStranger, Served;
    m := map[];
    ghost var seen: set<Id> := {};
    assert ResolvedSoFar(containers, plan, {}, m) by { ResolvedNone(containers, plan); }
    var ours := StackIds(containers, plan.stackId);
    while seen != ours
      invariant seen <= ours && ResolvedSoFar(containers, plan, seen, m)
      decreases ours - seen
    {
      var id :| id in ours && id !in seen;
      m := OneMoreClear(containers, plan, seen, m, id);
      seen := seen + {id};
    }
    forall s | s in plan.services
      ensures s.name in m
    {
      FoundIfServed(containers, plan, seen, m, s);
    }
    assert m.Keys == IdentitiesOf(plan.services).Keys;
  }

  lemma OneMoreClear(containers: map<Id, Container>, plan: LifecyclePlan, seen: set<Id>, m: map<string, Resolved>,
      id: Id)
    returns (more: map<string, Resolved>)
    requires NamesDistinct(plan.services) && !Muddled(containers, plan) && id !in seen
    requires ResolvedSoFar(containers, plan, seen, m) && id in StackIds(containers, plan.stackId)
    ensures ResolvedSoFar(containers, plan, seen + {id}, more)
  {
    hide ResolvedSoFar;
    assert !IsStranger(containers, plan, id);
    var s :| s in plan.services && Carries(containers[id].labels, plan.stackId, plan.revisionId, s);
    if s.name in m {
      assert !AreTwins(containers, plan, id, m[s.name].dockerId);
      AlreadyFound(containers, plan, seen, m, s);
    }
    ResolvedOneMore(containers, plan, seen, m, id, s);
    more := m[s.name := Resolved(id, containers[id].running)];
  }

  lemma FoundIfServed(containers: map<Id, Container>, plan: LifecyclePlan, seen: set<Id>, m: map<string, Resolved>,
      s: Member)
    requires ResolvedSoFar(containers, plan, seen, m) && StackIds(containers, plan.stackId) <= seen
    requires s in plan.services && !Lacking(containers, plan)
    ensures s.name in m
  {
    assert Served(containers, plan, s);
    var id :| id in StackIds(containers, plan.stackId) &&
      Carries(containers[id].labels, plan.stackId, plan.revisionId, s);
    assert id in IdsIn(m);
    var n :| n in m && m[n].dockerId == id;
    var t := NameOf(plan, n);
    assert IsService(containers, plan, t, m[n]);
  }

  /** Once everything listed was taken for a service, nothing is muddled. */
  lemma NotMuddled(containers: map<Id, Container>, plan: LifecyclePlan, m: map<string, Resolved>)
    requires ResolvedSoFar(containers, plan, containers.Keys, m)
    ensures !Muddled(containers, plan)
  {
    forall id
      ensures !IsStranger(containers, plan, id)
    {
      if id in StackIds(containers, plan.stackId) { var _ := FoundAs(containers, plan, m, id); }
    }
    forall a, b
      ensures !AreTwins(containers, plan, a, b)
    {
      if a in StackIds(containers, plan.stackId) && b in StackIds(containers, plan.stackId) {
        var s := FoundAs(containers, plan, m, a);
        var t := FoundAs(containers, plan, m, b);
      }
    }
  }

  lemma IsMissing(containers: map<Id, Container>, plan: LifecyclePlan, m: map<string, Resolved>, s: Member)
    requires ResolvedSoFar(containers, plan, containers.Keys, m) && s in plan.services && s.name !in m
    ensures Lacking(containers, plan)
  {
    forall id | id in StackIds(containers, plan.stackId)
      ensures !Carries(containers[id].labels, plan.stackId, plan.revisionId, s)
    {
      var t := FoundAs(containers, plan, m, id);
    }
    assert !Served(containers, plan, s);
  }

  lemma FoundAs(containers: map<Id, Container>, plan: LifecyclePlan, m: map<string, Resolved>, id: Id)
    returns (t: Member)
    requires ResolvedSoFar(containers, plan, containers.Keys, m) && id in StackIds(containers, plan.stackId)
    ensures t in plan.services && t.name in m && m[t.name].dockerId == id
    ensures Carries(containers[id].labels, plan.stackId, plan.revisionId, t)
  {
    assert id in IdsIn(m);
    var n :| n in m && m[n].dockerId == id;
    t := NameOf(plan, n);
    assert IsService(containers, plan, t, m[n]);
  }

  // ---- running services stay closed under what they depend on -----------

  /** Where each service's container is; which container that is never changes. */
  function IdsOfServices(m: map<string, Resolved>): map<string, Id>
  {
    map n | n in m :: m[n].dockerId
  }

  /** The containers are there, and no two services share one. */
  ghost predicate Placed(deps: Dependencies, ids: map<string, Id>, containers: map<Id, Container>)
  {
    && ids.Keys == deps.Keys && (forall n :: n in ids ==> ids[n] in containers)
    && forall a, b :: a in ids && b in ids && a != b ==> ids[a] != ids[b]
  }

  ghost predicate Runs(ids: map<string, Id>, containers: map<Id, Container>, n: string)
  {
    n in ids && ids[n] in containers && containers[ids[n]].running
  }

  /** Whatever runs, everything it depends on runs too. */
  ghost predicate Closed(deps: Dependencies, ids: map<string, Id>, containers: map<Id, Container>)
  {
    forall n, d :: n in deps && d in deps[n] && d in deps && Runs(ids, containers, n) ==> Runs(ids, containers, d)
  }

  /** Same containers as before, differing at most in whether they run. */
  ghost predicate OnlyRunning(before: map<Id, Container>, now: map<Id, Container>)
  {
    now.Keys == before.Keys && forall id :: id in before ==> now[id] == before[id].(running := now[id].running)
  }

  /** What one start, stop or restart works with, fixed once the services are resolved. */
  datatype Course = Course(
    from: nat, deps: Dependencies, order: seq<string>, ids: map<string, Id>, base: map<Id, Container>)

  /** What every moment of it satisfies. */
  ghost predicate Proper(c: Course, now: map<Id, Container>)
  {
    OnlyRunning(c.base, now) && (Closed(c.deps, c.ids, c.base) ==> Closed(c.deps, c.ids, now))
  }

  ghost predicate ProperSince(c: Course, trace: seq<Event>)
  {
    forall i :: c.from <= i < |trace| ==> Proper(c, trace[i].after.containers)
  }

  lemma DependencyIsEarlier(deps: Dependencies, order: seq<string>, n: string, d: string) returns (j: nat, k: nat)
    requires StartsInOrder(deps, order) && n in deps && d in deps[n] && d in deps
    ensures j < k < |order| && order[j] == d && order[k] == n
  {
    assert n in Members(order);
    k :| k < |order| && order[k] == n;
    assert d in order[..k];
    j :| j < k && order[j] == d;
  }

  /** Stopping the last service still up leaves no dependent running. */
  lemma StopKeepsClosed(deps: Dependencies, order: seq<string>, p: nat, ids: map<string, Id>, before: map<Id,
      Container>, now: map<Id, Container>)
    requires StartsInOrder(deps, order) && p < |order| && Placed(deps, ids, before)
    requires order[p] in ids && now == before[ids[order[p]] := before[ids[order[p]]].(running := false)]
    requires forall q :: p < q < |order| ==> !Runs(ids, before, order[q])
    ensures Closed(deps, ids, before) ==> Closed(deps, ids, now)
  {
    if Closed(deps, ids, before) {
      forall n, d | n in deps && d in deps[n] && d in deps && Runs(ids, now, n)
        ensures Runs(ids, now, d)
      {
        var j, k := DependencyIsEarlier(deps, order, n, d);
        assert Runs(ids, before, n);
        assert Runs(ids, before, d);
      }
    }
  }

  /** Starting the first service not yet up comes after everything it needs. */
  lemma StartKeepsClosed(deps: Dependencies, order: seq<string>, p: nat, ids: map<string, Id>, before: map<Id,
      Container>, now: map<Id, Container>)
    requires StartsInOrder(deps, order) && p < |order| && Placed(deps, ids, before)
    requires order[p] in ids && now == before[ids[order[p]] := before[ids[order[p]]].(running := true)]
    requires forall q :: 0 <= q < p ==> Runs(ids, before, order[q])
    ensures Closed(deps, ids, before) ==> Closed(deps, ids, now)
  {
    if Closed(deps, ids, before) {
      forall n, d | n in deps && d in deps[n] && d in deps && Runs(ids, now, n)
        ensures Runs(ids, now, d)
      {
        if n == order[p] {
          assert d in order[..p];
          var j :| 0 <= j < p && order[j] == d;
          assert Runs(ids, before, d);
        } else {
          assert Runs(ids, before, n);
          assert Runs(ids, before, d);
        }
      }
    }
  }

  /** What the record says of each service is what the host says. */
  ghost predicate Truthful(m: map<string, Resolved>, ids: map<string, Id>, containers: map<Id, Container>)
  {
    m.Keys == ids.Keys && forall n :: n in m ==>
      m[n].dockerId == ids[n] && ids[n] in containers && containers[ids[n]].running == m[n].running
  }

  /** Whether any stop or start since then was done. */
  ghost predicate Changed(trace: seq<Event>, from: nat)
  {
    exists i :: from <= i < |trace| && Changes(trace[i])
  }

  predicate Changes(e: Event)
  {
    (e.call.Stop? || e.call.Start?) && e.reply.Done?
  }

  lemma ChangedStep(before: seq<Event>, after: seq<Event>, from: nat)
    requires from <= |before| && |after| == |before| + 1 && after[..|before|] == before
    ensures Changed(after, from) <==> Changed(before, from) || Changes(after[|before|])
  {
    assert forall i :: 0 <= i < |before| ==> after[i] == before[i];
    if Changed(before, from) {
      var i :| from <= i < |before| && Changes(before[i]);
      assert after[i] == before[i];
    }
  }

  /** Everything a pass over the services keeps true. */
  ghost predicate Going(c: Course, trace: seq<Event>, now: map<Id, Container>, m: map<string, Resolved>, changed: bool)
  {
    && c.from <= |trace| && StartsInOrder(c.deps, c.order)
    && Placed(c.deps, c.ids, now) && Truthful(m, c.ids, now)
    && Proper(c, now) && ProperSince(c, trace) && (changed <==> Changed(trace, c.from))
  }

  /** One call that left the host as it was. */
  lemma IdleStep(c: Course, before: seq<Event>, after: seq<Event>, now: map<Id, Container>, m: map<string, Resolved>,
      changed: bool)
    requires Going(c, before, now, m, changed)
    requires |after| == |before| + 1 && after[..|before|] == before && after[|before|].after.containers == now
    requires after[|before|].call.Stop? || after[|before|].call.Start? ==> !after[|before|].reply.Done?
    ensures Going(c, after, now, m, changed)
  {
    hide Closed, StartsInOrder, Changed, Placed, Truthful, OnlyRunning, ProperSince;
    ChangedStep(before, after, c.from);
    ProperStep(c, before, after);
  }

  /** One service stopped or started, in its turn. */
  lemma BusyStep(c: Course, before: seq<Event>, after: seq<Event>, was: map<Id, Container>, now: map<Id, Container>,
      m: map<string, Resolved>, changed: bool, p: nat, up: bool)
    requires Going(c, before, was, m, changed) && p < |c.order| && c.order[p] in c.ids && c.order[p] in m
    requires |after| == |before| + 1 && after[..|before|] == before && after[|before|].after.containers == now
    requires (after[|before|].call.Stop? || after[|before|].call.Start?) && after[|before|].reply.Done?
    requires c.ids[c.order[p]] in was && now == was[c.ids[c.order[p]] := was[c.ids[c.order[p]]].(running := up)]
    requires !up ==> forall q :: p < q < |c.order| ==> !Runs(c.ids, was, c.order[q])
    requires up ==> forall q :: 0 <= q < p ==> Runs(c.ids, was, c.order[q])
    ensures Going(c, after, now, m[c.order[p] := m[c.order[p]].(running := up)], true)
    ensures forall n :: n in c.ids && n != c.order[p] ==> (Runs(c.ids, now, n) <==> Runs(c.ids, was, n))
    ensures Runs(c.ids, now, c.order[p]) <==> up
  {
    hide Closed, StartsInOrder, Changed, Placed, Truthful, OnlyRunning, Runs, ProperSince;
    ChangedStep(before, after, c.from);
    RunningStep(c, was, now, m, p, up);
    if up {
      StartKeepsClosed(c.deps, c.order, p, c.ids, was, now);
    } else {
      StopKeepsClosed(c.deps, c.order, p, c.ids, was, now);
    }
    ProperStep(c, before, after);
  }

  lemma RunningStep(c: Course, was: map<Id, Container>, now: map<Id, Container>, m: map<string, Resolved>, p: nat,
      up: bool)
    requires Placed(c.deps, c.ids, was) && Truthful(m, c.ids, was) && OnlyRunning(c.base, was)
    requires p < |c.order| && c.order[p] in c.ids && c.order[p] in m && c.ids[c.order[p]] in was
    requires now == was[c.ids[c.order[p]] := was[c.ids[c.order[p]]].(running := up)]
    ensures Placed(c.deps, c.ids, now) && OnlyRunning(c.base, now)
    ensures Truthful(m[c.order[p] := m[c.order[p]].(running := up)], c.ids, now)
    ensures forall n :: n in c.ids && n != c.order[p] ==> (Runs(c.ids, now, n) <==> Runs(c.ids, was, n))
    ensures Runs(c.ids, now, c.order[p]) <==> up
  {
    hide OnlyRunning;
    OnlyRunningStep(c.base, was, now, c.ids[c.order[p]], up);
    forall n | n in c.ids && n != c.order[p]
      ensures c.ids[n] in now && now[c.ids[n]] == was[c.ids[n]]
    {
      assert c.ids[n] != c.ids[c.order[p]];
    }
  }

  lemma OnlyRunningStep(base: map<Id, Container>, was: map<Id, Container>, now: map<Id, Container>, id: Id, up: bool)
    requires OnlyRunning(base, was) && id in was && now == was[id := was[id].(running := up)]
    ensures OnlyRunning(base, now)
  {
  }

  lemma ProperStep(c: Course, before: seq<Event>, after: seq<Event>)
    requires c.from <= |before| && |after| == |before| + 1 && after[..|before|] == before
    requires ProperSince(c, before) && Proper(c, after[|before|].after.containers)
    ensures ProperSince(c, after)
  {
    hide Proper;
    forall i | c.from <= i < |after|
      ensures Proper(c, after[i].after.containers)
    {
      if i < |before| { assert after[i] == before[i]; }
    }
  }

  lemma InTurn(c: Course, trace: seq<Event>, now: map<Id, Container>, m: map<string, Resolved>, changed: bool, p: nat)
    requires Going(c, trace, now, m, changed) && p < |c.order|
    ensures c.order[p] in m && c.order[p] in c.ids && m[c.order[p]].dockerId == c.ids[c.order[p]]
    ensures c.ids[c.order[p]] in now
    ensures m[c.order[p]].running <==> Runs(c.ids, now, c.order[p])
  {
    assert c.order[p] in Members(c.order);
  }

  lemma EachInTurn(c: Course, trace: seq<Event>, now: map<Id, Container>, m: map<string, Resolved>, changed: bool,
      n: string)
    returns (p: nat)
    requires Going(c, trace, now, m, changed) && n in c.ids
    ensures p < |c.order| && c.order[p] == n
  {
    assert n in Members(c.order);
    p :| p < |c.order| && c.order[p] == n;
  }

  /** The last call was a stop or a start of this service's container, and it faulted. */
  ghost predicate FaultedAt(trace: seq<Event>, from: nat, ids: map<string, Id>, n: string)
  {
    && from < |trace| && n in ids && trace[|trace| - 1].reply.Faulted?
    && (trace[|trace| - 1].call == Stop(ids[n]) || trace[|trace| - 1].call == Start(ids[n]))
  }

  /** Stops what is running, dependents before what they depend on, until a stop fails. */
  method StopServices(d: Docker, order: seq<string>, m0: map<string, Resolved>, changed0: bool, ghost c: Course)
    returns (failed: Option<string>, m: map<string, Resolved>, changed: bool)
    requires d.Valid() && order == c.order && (forall n :: n in c.ids ==> d.Mine(c.ids[n]))
    requires Going(c, d.trace, d.host.containers, m0, changed0)
    modifies d`trace, d`host
    ensures d.Valid() && old(d.trace) <= d.trace && Going(c, d.trace, d.host.containers, m, changed)
    ensures failed.None? ==> AllDown(c.ids, d.host.containers)
    ensures failed.Some? ==> FaultedAt(d.trace, |old(d.trace)|, c.ids, failed.value)
    ensures forall i :: |old(d.trace)| <= i < |d.trace| ==> d.trace[i].call.Stop?
  {
    hide Docker.Valid, Going;
    m, changed := m0, changed0;
    var backwards := Reversed(order);
    for i := 0 to backwards.Length
      invariant backwards.Length == |order| && forall k :: 0 <= k < |order| ==> backwards[k] == order[|order| - 1 - k]
      invariant d.Valid() && old(d.trace) <= d.trace && Going(c, d.trace, d.host.containers, m, changed)
      invariant forall q :: |order| - i <= q < |order| ==> !Runs(c.ids, d.host.containers, order[q])
      invariant forall k :: |old(d.trace)| <= k < |d.trace| ==> d.trace[k].call.Stop?
    {
      ghost var p := |order| - 1 - i;
      var name := backwards[i];
      InTurn(c, d.trace, d.host.containers, m, changed, p);
      if m[name].running {
        ghost var before, was := d.trace, d.host.containers;
        var reply := d.ContainerStop(m[name].dockerId);
        if !reply.Done? {
          IdleStep(c, before, d.trace, was, m, changed);
          return Some(name), m, changed;
        }
        BusyStep(c, before, d.trace, was, d.host.containers, m, changed, p, false);
        m, changed := m[name := m[name].(running := false)], true;
      }
    }
    forall n | n in c.ids
      ensures !Runs(c.ids, d.host.containers, n)
    {
      var _ := EachInTurn(c, d.trace, d.host.containers, m, changed, n);
    }
    failed := None;
  }

  /** Starts what is not running, what is depended on first, until a start fails. */
  method StartServices(d: Docker, order: seq<string>, m0: map<string, Resolved>, changed0: bool, ghost c: Course)
    returns (failed: Option<string>, m: map<string, Resolved>, changed: bool)
    requires d.Valid() && order == c.order && (forall n :: n in c.ids ==> d.Mine(c.ids[n]))
    requires Going(c, d.trace, d.host.containers, m0, changed0)
    modifies d`trace, d`host
    ensures d.Valid() && old(d.trace) <= d.trace && Going(c, d.trace, d.host.containers, m, changed)
    ensures failed.None? ==> forall n :: n in c.ids ==> Runs(c.ids, d.host.containers, n)
    ensures failed.Some? ==> FaultedAt(d.trace, |old(d.trace)|, c.ids, failed.value)
    ensures forall i :: |old(d.trace)| <= i < |d.trace| ==> d.trace[i].call.Start?
  {
    hide Docker.Valid, Going;
    m, changed := m0, changed0;
    for i := 0 to |order|
      invariant d.Valid() && old(d.trace) <= d.trace && Going(c, d.trace, d.host.containers, m, changed)
      invariant forall q :: 0 <= q < i ==> Runs(c.ids, d.host.containers, order[q])
      invariant forall k :: |old(d.trace)| <= k < |d.trace| ==> d.trace[k].call.Start?
    {
      var name := order[i];
      InTurn(c, d.trace, d.host.containers, m, changed, i);
      if !m[name].running {
        ghost var before, was := d.trace, d.host.containers;
        var reply := d.ContainerStart(m[name].dockerId);
        if !reply.Done? {
          IdleStep(c, before, d.trace, was, m, changed);
          return Some(name), m, changed;
        }
        BusyStep(c, before, d.trace, was, d.host.containers, m, changed, i, true);
        m, changed := m[name := m[name].(running := true)], true;
      }
    }
    forall n | n in c.ids
      ensures Runs(c.ids, d.host.containers, n)
    {
      var _ := EachInTurn(c, d.trace, d.host.containers, m, changed, n);
    }
    failed := None;
  }

  // ---- the operations ---------------------------------------------------

  datatype Operation = Starting | Stopping | Restarting

  ghost predicate AllDown(ids: map<string, Id>, containers: map<Id, Container>)
  {
    forall n :: n in ids ==> !Runs(ids, containers, n)
  }

  /** Before this event there was a moment at which no service of the stack ran. */
  ghost predicate StoodStill(c: Course, trace: seq<Event>, before: nat)
    requires before <= |trace|
  {
    exists j :: c.from <= j < before && AllDown(c.ids, trace[j].after.containers)
  }

  /** A start stops nothing, a stop starts nothing, and a restart starts nothing before everything was down. */
  ghost predicate KeepsTo(op: Operation, c: Course, trace: seq<Event>)
  {
    forall i :: c.from <= i < |trace| ==>
      && (trace[i].call.Start? ==> op.Starting? || (op.Restarting? && StoodStill(c, trace, i)))
      && (trace[i].call.Stop? ==> !op.Starting?)
  }

  /** `Unchanged` and `Partial` are the failures before and after the first change. */
  datatype LifecycleResult =
    | TurnedAway(error: LifecycleError)
    | Unchanged(service: string)
    | Partial(service: string)
    | Completed

  lemma CourseBegins(plan: LifecyclePlan, order: seq<string>, trace: seq<Event>, from: nat, h: Host, m: map<string,
      Resolved>)
    requires Resolves(h.containers, plan, m) && StartsInOrder(DependenciesOf(plan.services), order) && from <= |trace|
    requires JustLooked(trace, from, h)
    ensures Going(Course(from, DependenciesOf(plan.services), order, IdsOfServices(m), h.containers),
      trace, h.containers, m, false)
    ensures forall n :: n in m ==> IdsOfServices(m)[n] in StackIds(h.containers, plan.stackId)
  {
    hide StartsInOrder, Resolves, DependenciesOf, Closed, StackIds;
    ResolvesInjective(h.containers, plan, m);
    ResolvesStack(h.containers, plan, m);
    var c := Course(from, DependenciesOf(plan.services), order, IdsOfServices(m), h.containers);
    assert Proper(c, h.containers);
  }

  lemma ResolvesStack(containers: map<Id, Container>, plan: LifecyclePlan, m: map<string, Resolved>)
    requires Resolves(containers, plan, m)
    ensures m.Keys == DependenciesOf(plan.services).Keys
    ensures forall n :: n in m ==> m[n].dockerId in StackIds(containers, plan.stackId)
  {
    assert forall n :: n in m ==> m[n].dockerId in IdsIn(m);
  }

  ghost predicate Resolvable(containers: map<Id, Container>, plan: LifecyclePlan)
  {
    exists m :: Resolves(containers, plan, m)
  }

  /**
   Starts, stops or restarts a stack. At every moment the containers are the same
   ones, differing at most in whether they run, and services that ran with
   everything they depend on still do. Nothing is undone when a call fails.
   */
  method RunLifecycle(d: Docker, plan: LifecyclePlan, op: Operation) returns (r: LifecycleResult, ghost c: Course)
    requires d.Valid()
    modifies d
    ensures d.Valid() && old(d.trace) <= d.trace && d.minted == old(d.minted)
    ensures d.watch.base == old(d.host) && d.watch.from == |old(d.trace)|
    ensures r == TurnedAway(PlanRejected) <==> !LifecyclePlanOk(plan)
    ensures r.TurnedAway? ==> d.watch.phase.Surveying? && d.host.containers == old(d.host).containers
    ensures r.TurnedAway? && r.error !in {PlanRejected, Engine} ==> !Resolvable(old(d.host).containers, plan)
    ensures r.TurnedAway? ==> Explains(r.error, old(d.host).containers, plan)
    ensures !r.TurnedAway? ==>
      && d.watch.phase.Disturbing? && d.watch.touchable == StackIds(old(d.host).containers, plan.stackId)
      && d.watch.expendable == {}
      && c.from == |old(d.trace)| && c.base == old(d.host).containers && c.deps == DependenciesOf(plan.services)
      && (exists m :: Resolves(old(d.host).containers, plan, m) && c.ids == IdsOfServices(m))
      && Proper(c, d.host.containers) && ProperSince(c, d.trace)
    ensures !r.TurnedAway? ==> KeepsTo(op, c, d.trace)
    ensures r.Completed? && op.Restarting? ==> StoodStill(c, d.trace, |d.trace|)
    ensures r.Unchanged? ==> !Changed(d.trace, c.from)
    ensures r.Partial? ==> Changed(d.trace, c.from)
    ensures r.Completed? ==> forall n :: n in c.ids ==> (Runs(c.ids, d.host.containers, n) <==> !op.Stopping?)
    // It fails only where a call faults, and names the service whose call that was.
    ensures r == TurnedAway(Engine) ==> !NoFault(d.trace, |old(d.trace)|)
    ensures r.Unchanged? || r.Partial? ==> FaultedAt(d.trace, |old(d.trace)|, c.ids, r.service)
    ensures LifecyclePlanOk(plan) && Resolvable(old(d.host).containers, plan) && NoFault(d.trace, |old(d.trace)|) ==>
      r.Completed?
  {
    hide Docker.Valid, Resolves, Going, Proper, ProperSince, LifecyclePlanOk, Changed, NoFault, KeepsTo, StoodStill,
      StartsInOrder, DependenciesOf, Runs;
    c := Course(0, map[], [], map[], map[]);
    d.Begin();
    var ok, order := CheckLifecyclePlan(plan);
    if !ok { return TurnedAway(PlanRejected), c; }
    var error, m := ResolveStackServices(d, plan);
    if error.Some? { return TurnedAway(error.value), c; }
    d.Disturb(StackIds(d.host.containers, plan.stackId), {});
    c := Course(d.watch.from, DependenciesOf(plan.services), order, IdsOfServices(m), d.host.containers);
    CourseBegins(plan, order, d.trace, d.watch.from, d.host, m);
    var failed, changed;
    failed, m, changed := Passes(d, order, m, op, c);
    GoingMeans(c, d.trace, d.host.containers, m, changed);
    if failed.Some? { Faulty(d.trace, |old(d.trace)|, |d.trace| - 1); }
    if failed.Some? { return if changed then Partial(failed.value) else Unchanged(failed.value), c; }
    return Completed, c;
  }

  method CheckLifecyclePlan(plan: LifecyclePlan) returns (ok: bool, order: seq<string>)
    ensures ok <==> LifecyclePlanOk(plan)
    ensures ok ==> NamesDistinct(plan.services) && StartsInOrder(DependenciesOf(plan.services), order)
  {
    var verdict := ValidateLifecyclePlan(plan);
    if verdict.Rejected? { return false, []; }
    var ordered := OrderByDependencies(DependenciesOf(plan.services));
    return true, ordered.order;
  }

  /** Down first for a restart, so nothing is started while what it needs is on its way out. */
  method Passes(d: Docker, order: seq<string>, m0: map<string, Resolved>, op: Operation, ghost c: Course)
    returns (failed: Option<string>, m: map<string, Resolved>, changed: bool)
    requires d.Valid() && order == c.order && (forall n :: n in c.ids ==> d.Mine(c.ids[n]))
    requires Going(c, d.trace, d.host.containers, m0, false)
    requires c.from == d.watch.from < |d.trace| && JustLooked(d.trace, c.from, d.host)
    modifies d`trace, d`host
    ensures d.Valid() && old(d.trace) <= d.trace && Going(c, d.trace, d.host.containers, m, changed)
    ensures failed.None? ==> forall n :: n in c.ids ==> (Runs(c.ids, d.host.containers, n) <==> !op.Stopping?)
    ensures failed.Some? ==> FaultedAt(d.trace, |old(d.trace)|, c.ids, failed.value)
    ensures KeepsTo(op, c, d.trace)
    ensures failed.None? && op.Restarting? ==> StoodStill(c, d.trace, |d.trace|)
  {
    hide Docker.Valid, Going, Runs;
    failed, m, changed := None, m0, false;
    if op.Stopping? || op.Restarting? { failed, m, changed := StopServices(d, order, m, changed, c); }
    ghost var down := d.trace;
    d.LastEvent();
    if failed.None? && (op.Starting? || op.Restarting?) {
      failed, m, changed := StartServices(d, order, m, changed, c);
      assert d.trace[|down| - 1] == down[|down| - 1];
    }
  }

  lemma GoingMeans(c: Course, trace: seq<Event>, now: map<Id, Container>, m: map<string, Resolved>, changed: bool)
    requires Going(c, trace, now, m, changed)
    ensures Proper(c, now) && ProperSince(c, trace) && (changed <==> Changed(trace, c.from))
  {
  }
}
