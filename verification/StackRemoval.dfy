/**
 Removing the containers of a deployed stack (agent/internal/docker/stack_remove.go).

 The containers are found by the same proof of ownership a start or a stop uses,
 all of them before the first is touched, and go in reverse start order.
 */
module StackRemoval {
  import opened Text
  import opened StartOrder
  import opened StackPlans
  import opened DockerHost
  import opened StackPreflight
  import opened StackLifecycle

  datatype Removed = Removed(service: string, identity: string, dockerId: Id)

  /** `Untaken` and `PartlyRemoved` are the failures before and after the first removal. */
  datatype RemoveResult =
    | RemoveRefused(error: LifecycleError)
    | Untaken(service: string)
    | PartlyRemoved(service: string, removed: seq<Removed>)
    | AllRemoved(removed: seq<Removed>)

  /** The last services of the order, last one first, each with its container. */
  ghost predicate RemovedInTurn(order: seq<string>, plan: LifecyclePlan, m: map<string, Resolved>,
      removed: seq<Removed>)
  {
    |removed| <= |order| && forall i :: 0 <= i < |removed| ==> ListedInTurn(order, plan, m, removed[i], i)
  }

  ghost predicate ListedInTurn(order: seq<string>, plan: LifecyclePlan, m: map<string, Resolved>, r: Removed, i: nat)
    requires i < |order|
  {
    && r.service == order[|order| - 1 - i] && r.service in m && r.service in IdentitiesOf(plan.services)
    && r.identity == IdentitiesOf(plan.services)[r.service] && r.dockerId == m[r.service].dockerId
  }

  function GoneIds(removed: seq<Removed>): set<Id>
  {
    set r | r in removed :: r.dockerId
  }

  /** What is gone is what the list says, and what is left may only have been stopped. */
  ghost predicate Taken(base: map<Id, Container>, removed: seq<Removed>, now: map<Id, Container>)
  {
    now.Keys == base.Keys - GoneIds(removed) && forall id :: id in now ==>
      now[id] == base[id].(running := now[id].running)
  }

  /** Each removal that was done was of a container not running the moment before. */
  ghost predicate StoppedFirst(trace: seq<Event>, from: nat)
  {
    forall i :: from <= i < |trace| && trace[i].call.Remove? && trace[i].reply.Done? ==>
      && i > 0 && trace[i].call.id in trace[i - 1].after.containers
      && !trace[i - 1].after.containers[trace[i].call.id].running
  }

  /** Whatever service is still there, everything it depends on is still there too. */
  ghost predicate Standing(c: Course, present: set<Id>)
  {
    forall n, d :: n in c.ids && n in c.deps && d in c.deps[n] && d in c.deps && d in c.ids && c.ids[n] in present ==>
      c.ids[d] in present
  }

  ghost predicate StandingSince(c: Course, trace: seq<Event>)
  {
    forall i :: c.from <= i < |trace| ==> Standing(c, trace[i].after.containers.Keys)
  }

  lemma GoneIdsStep(removed: seq<Removed>, r: Removed)
    ensures GoneIds(removed + [r]) == GoneIds(removed) + {r.dockerId}
  {
    assert forall x :: x in removed + [r] <==> x in removed || x == r;
  }

  /** Which services are gone is a matter of where the order has got to. */
  lemma WhoIsGone(c: Course, plan: LifecyclePlan, m: map<string, Resolved>, removed: seq<Removed>, k: nat)
    requires StartsInOrder(c.deps, c.order) && Placed(c.deps, c.ids, c.base) && c.ids == IdsOfServices(m)
    requires RemovedInTurn(c.order, plan, m, removed) && k < |c.order|
    ensures c.order[k] in m && c.order[k] in c.ids
    ensures m[c.order[k]].dockerId in GoneIds(removed) <==> |c.order| - 1 - k < |removed|
  {
    hide DependenciesFirst, IdentitiesOf;
    var n := c.order[k];
    assert n in Members(c.order);
    assert n in c.ids;
    if m[n].dockerId in GoneIds(removed) {
      var r :| r in removed && r.dockerId == m[n].dockerId;
      var i :| 0 <= i < |removed| && removed[i] == r;
      var n' := c.order[|c.order| - 1 - i];
      assert n' in m && n' in c.ids && c.ids[n'] == c.ids[n];
    }
    if |c.order| - 1 - k < |removed| {
      assert removed[|c.order| - 1 - k] in removed;
    }
  }

  /** Taking services away from the end of the order leaves nothing without what it needs. */
  lemma TakenInTurnStands(c: Course, plan: LifecyclePlan, m: map<string, Resolved>, removed: seq<Removed>,
      present: set<Id>)
    requires StartsInOrder(c.deps, c.order) && Placed(c.deps, c.ids, c.base) && c.ids == IdsOfServices(m)
    requires RemovedInTurn(c.order, plan, m, removed) && present == c.base.Keys - GoneIds(removed)
    ensures Standing(c, present)
  {
    hide StartsInOrder, RemovedInTurn, GoneIds;
    forall n, d | n in c.ids && n in c.deps && d in c.deps[n] && d in c.deps && d in c.ids && c.ids[n] in present
      ensures c.ids[d] in present
    {
      var j, k := DependencyIsEarlier(c.deps, c.order, n, d);
      WhoIsGone(c, plan, m, removed, j);
      WhoIsGone(c, plan, m, removed, k);
    }
  }

  /** Everything a removal keeps true after each service that went. */
  ghost predicate Tearing(c: Course, plan: LifecyclePlan, m: map<string, Resolved>, trace: seq<Event>, now: map<Id,
      Container>, removed: seq<Removed>)
  {
    && c.from < |trace| && StartsInOrder(c.deps, c.order) && Placed(c.deps, c.ids, c.base) && c.ids == IdsOfServices(m)
    && (forall n :: n in m ==> m[n].dockerId in c.base && c.base[m[n].dockerId].running == m[n].running)
    && RemovedInTurn(c.order, plan, m, removed) && GoneIds(removed) <= c.base.Keys && Taken(c.base, removed, now)
    && StandingSince(c, trace) && StoppedFirst(trace, c.from)
  }

  /** The last call was a stop or a removal of this container, and it faulted. */
  ghost predicate FailedOn(trace: seq<Event>, from: nat, id: Id)
  {
    && from < |trace| && trace[|trace| - 1].reply.Faulted?
    && (trace[|trace| - 1].call == Stop(id) || trace[|trace| - 1].call == Remove(id))
  }

  /** Stops one container if it runs, and removes it without force. */
  method TakeDown(d: Docker, id: Id, running: bool) returns (ok: bool)
    requires d.Valid() && d.Mine(id) && d.Disposable(id) && id in d.host.containers
    requires d.host.containers[id].running == running
    requires d.watch.from < |d.trace|
    modifies d`trace, d`host
    ensures d.Valid() && old(d.trace) <= d.trace && |old(d.trace)| < |d.trace|
    ensures forall i :: |old(d.trace)| <= i < |d.trace| && !(ok && i == |d.trace| - 1) ==>
      d.trace[i].after.containers.Keys == old(d.host).containers.Keys
    ensures d.trace[|d.trace| - 1].after == d.host
    ensures StoppedFirst(d.trace, |old(d.trace)|)
    ensures ok ==> d.host.containers == old(d.host).containers - {id}
    ensures !ok ==>
      d.host == old(d.host) || d.host == Put(old(d.host), id, old(d.host).containers[id].(running := false))
    ensures !ok ==> FailedOn(d.trace, |old(d.trace)|, id)
  {
    hide Docker.Valid;
    d.LastEvent();
    if running {
      var stopped := d.ContainerStop(id);
      if !stopped.Done? { return false; }
    }
    var reply := d.ContainerRemove(id, false);
    ok := reply.Done?;
  }

  lemma TearingFailed(c: Course, plan: LifecyclePlan, m: map<string, Resolved>, before: seq<Event>, after: seq<Event>,
      was: map<Id, Container>, now: map<Id, Container>, removed: seq<Removed>, id: Id)
    requires Tearing(c, plan, m, before, was, removed) && before <= after && StoppedFirst(after, |before|)
    requires forall i :: |before| <= i < |after| ==> after[i].after.containers.Keys == was.Keys
    requires id in was && (now == was || now == was[id := was[id].(running := false)])
    ensures Tearing(c, plan, m, after, now, removed)
  {
    hide RemovedInTurn, StartsInOrder, Placed, Standing;
    TakenInTurnStands(c, plan, m, removed, was.Keys);
    assert forall i :: 0 <= i < |before| ==> after[i] == before[i];
  }

  lemma TearingOneMore(c: Course, plan: LifecyclePlan, m: map<string, Resolved>, before: seq<Event>,
      after: seq<Event>, was: map<Id, Container>, now: map<Id, Container>, removed: seq<Removed>, r: Removed)
    requires Tearing(c, plan, m, before, was, removed) && before <= after && |before| < |after|
    requires StoppedFirst(after, |before|)
    requires forall i :: |before| <= i < |after| - 1 ==> after[i].after.containers.Keys == was.Keys
    requires after[|after| - 1].after.containers == now == was - {r.dockerId} && r.dockerId in was
    requires RemovedInTurn(c.order, plan, m, removed + [r])
    ensures Tearing(c, plan, m, after, now, removed + [r])
  {
    hide RemovedInTurn, StartsInOrder, Placed, Standing;
    GoneIdsStep(removed, r);
    TakenInTurnStands(c, plan, m, removed, was.Keys);
    assert now.Keys == c.base.Keys - GoneIds(removed + [r]);
    TakenInTurnStands(c, plan, m, removed + [r], now.Keys);
    assert forall i :: 0 <= i < |before| ==> after[i] == before[i];
  }

  /** The next service in turn is still there, stopped or running as it was found. */
  lemma NextToGo(c: Course, plan: LifecyclePlan, m: map<string, Resolved>, trace: seq<Event>, now: map<Id, Container>,
      removed: seq<Removed>, n: string)
    requires Tearing(c, plan, m, trace, now, removed) && |removed| < |c.order| && Submap(now, c.base)
    requires n == c.order[|c.order| - 1 - |removed|] && c.deps.Keys == IdentitiesOf(plan.services).Keys
    ensures c.from < |trace| && n in m && n in IdentitiesOf(plan.services)
    ensures m[n].dockerId in now && now[m[n].dockerId].running == m[n].running
    ensures RemovedInTurn(c.order, plan, m, removed + [Removed(n, IdentitiesOf(plan.services)[n], m[n].dockerId)])
  {
    hide Standing, StandingSince, StoppedFirst, StartsInOrder, GoneIds, IdentitiesOf, RemovedInTurn;
    WhoIsGone(c, plan, m, removed, |c.order| - 1 - |removed|);
    InOrderIsExpected(c, |c.order| - 1 - |removed|);
    InTurnStep(c.order, plan, m, removed, Removed(n, IdentitiesOf(plan.services)[n], m[n].dockerId));
  }

  lemma InTurnStep(order: seq<string>, plan: LifecyclePlan, m: map<string, Resolved>, removed: seq<Removed>, r: Removed)
    requires RemovedInTurn(order, plan, m, removed) && |removed| < |order|
    requires r.service == order[|order| - 1 - |removed|] && r.service in m && r.service in IdentitiesOf(plan.services)
    requires r == Removed(r.service, IdentitiesOf(plan.services)[r.service], m[r.service].dockerId)
    ensures RemovedInTurn(order, plan, m, removed + [r])
  {
    hide IdentitiesOf;
    forall i | 0 <= i < |removed + [r]|
      ensures ListedInTurn(order, plan, m, (removed + [r])[i], i)
    {
      if i < |removed| { assert ListedInTurn(order, plan, m, removed[i], i); }
    }
  }

  lemma InOrderIsExpected(c: Course, k: nat)
    requires StartsInOrder(c.deps, c.order) && k < |c.order|
    ensures c.order[k] in c.deps
  {
    assert c.order[k] in Members(c.order);
  }

  /** Dependents went before what they depend on. */
  lemma DependentsWentFirst(c: Course, plan: LifecyclePlan, m: map<string, Resolved>, removed: seq<Removed>, i: nat,
      n: string)
    requires StartsInOrder(c.deps, c.order) && RemovedInTurn(c.order, plan, m, removed)
    requires i < |removed| && n in c.deps && removed[i].service in c.deps[n] && removed[i].service in c.deps
    ensures exists j :: 0 <= j < i && removed[j].service == n
  {
    var d := removed[i].service;
    var j, k := DependencyIsEarlier(c.deps, c.order, n, d);
    assert c.order[|c.order| - 1 - i] == d;
    assert j == |c.order| - 1 - i;
    assert removed[|c.order| - 1 - k].service == n;
  }

  /**
   Stops and removes every service, dependents first, and says exactly what went.
   Volumes, networks and every container that is not the stack's stay as they are.
   */
  method RemoveStack(d: Docker, plan: LifecyclePlan)
    returns (r: RemoveResult, ghost c: Course, ghost m: map<string, Resolved>, ghost gone: seq<Removed>)
    requires d.Valid()
    modifies d
    ensures d.Valid() && old(d.trace) <= d.trace && d.minted == old(d.minted)
    ensures d.watch.base == old(d.host) && d.watch.from == |old(d.trace)|
    ensures r == RemoveRefused(PlanRejected) <==> !LifecyclePlanOk(plan)
    ensures r.RemoveRefused? ==> d.watch.phase.Surveying? && d.host.containers == old(d.host).containers
    ensures r.RemoveRefused? && r.error !in {PlanRejected, Engine} ==> !Resolvable(old(d.host).containers, plan)
    ensures r.RemoveRefused? ==> Explains(r.error, old(d.host).containers, plan)
    ensures !r.RemoveRefused? ==>
      && d.watch.touchable == StackIds(old(d.host).containers, plan.stackId) && d.watch.expendable == {}
      && Resolves(old(d.host).containers, plan, m) && c.base == old(d.host).containers
      && c.from == |old(d.trace)| && c.deps == DependenciesOf(plan.services)
      && Tearing(c, plan, m, d.trace, d.host.containers, gone)
    ensures r.Untaken? ==> gone == []
    ensures r.PartlyRemoved? ==> gone == r.removed != []
    ensures r.AllRemoved? ==>
      gone == r.removed && |gone| == |c.order| && StackIds(d.host.containers, plan.stackId) == {}
    // It fails only where a call faults, and names the service whose call that was.
    ensures r == RemoveRefused(Engine) ==> !NoFault(d.trace, |old(d.trace)|)
    ensures r.Untaken? || r.PartlyRemoved? ==>
      r.service in m && FailedOn(d.trace, |old(d.trace)|, m[r.service].dockerId)
    ensures LifecyclePlanOk(plan) && Resolvable(old(d.host).containers, plan) && NoFault(d.trace, |old(d.trace)|) ==>
      r.AllRemoved?
  {
    hide Docker.Valid, Resolves, Tearing, LifecyclePlanOk, NoFault;
    c, m, gone := Course(0, map[], [], map[], map[]), map[], [];
    d.Begin();
    var ok, order := CheckLifecyclePlan(plan);
    if !ok { return RemoveRefused(PlanRejected), c, m, gone; }
    var error, resolved := ResolveStackServices(d, plan);
    if error.Some? { return RemoveRefused(error.value), c, m, gone; }
    m := resolved;
    d.Disturb(StackIds(d.host.containers, plan.stackId), {});
    d.Commit();
    c := Course(d.watch.from, DependenciesOf(plan.services), order, IdsOfServices(m), d.host.containers);
    TearingBegins(plan, order, d.trace, d.watch.from, d.host, m);
    r, gone := TearDown(d, plan, order, resolved, c);
    if r.Untaken? || r.PartlyRemoved? { Faulty(d.trace, |old(d.trace)|, |d.trace| - 1); }
    if r.AllRemoved? { NothingLeft(c, plan, m, d.trace, d.host.containers, gone); }
  }

  method TearDown(d: Docker, plan: LifecyclePlan, order: seq<string>, resolved: map<string, Resolved>, ghost c: Course)
    returns (r: RemoveResult, ghost gone: seq<Removed>)
    requires d.Valid() && order == c.order && d.watch.from == c.from
    requires Tearing(c, plan, resolved, d.trace, d.host.containers, [])
    requires forall n :: n in resolved ==> d.Mine(resolved[n].dockerId) && d.Disposable(resolved[n].dockerId)
    requires c.deps == DependenciesOf(plan.services) && d.host.containers == c.base
    modifies d`trace, d`host
    ensures d.Valid() && old(d.trace) <= d.trace && Tearing(c, plan, resolved, d.trace, d.host.containers, gone)
    ensures !r.RemoveRefused?
    ensures r.Untaken? ==> gone == []
    ensures r.PartlyRemoved? ==> gone == r.removed != []
    ensures r.AllRemoved? ==> gone == r.removed && |gone| == |order|
    ensures r.Untaken? || r.PartlyRemoved? ==>
      r.service in resolved && FailedOn(d.trace, |old(d.trace)|, resolved[r.service].dockerId)
  {
    hide Docker.Valid, Tearing;
    var removed: seq<Removed> := [];
    var backwards := Reversed(order);
    for i := 0 to backwards.Length
      invariant backwards.Length == |order| && forall k :: 0 <= k < |order| ==> backwards[k] == order[|order| - 1 - k]
      invariant d.Valid() && old(d.trace) <= d.trace && |removed| == i
      invariant Tearing(c, plan, resolved, d.trace, d.host.containers, removed) && Submap(d.host.containers, c.base)
    {
      var went, now := TakeNext(d, plan, backwards[i], resolved, removed, c);
      if !went {
        return if removed == [] then Untaken(backwards[i]) else PartlyRemoved(backwards[i], removed), removed;
      }
      removed := now;
    }
    return AllRemoved(removed), removed;
  }

  /** One service in its turn: gone and listed, or the removal stops here. */
  method TakeNext(d: Docker, plan: LifecyclePlan, name: string, resolved: map<string, Resolved>,
      removed: seq<Removed>, ghost c: Course)
    returns (went: bool, now: seq<Removed>)
    requires d.Valid() && d.watch.from == c.from && c.deps == DependenciesOf(plan.services)
    requires |removed| < |c.order| && name == c.order[|c.order| - 1 - |removed|]
    requires forall n :: n in resolved ==> d.Mine(resolved[n].dockerId) && d.Disposable(resolved[n].dockerId)
    requires Tearing(c, plan, resolved, d.trace, d.host.containers, removed) && Submap(d.host.containers, c.base)
    modifies d`trace, d`host
    ensures d.Valid() && old(d.trace) <= d.trace
    ensures went ==> |now| == |removed| + 1 && Submap(d.host.containers, c.base)
    ensures !went ==> now == removed && name in resolved && FailedOn(d.trace, |old(d.trace)|, resolved[name].dockerId)
    ensures Tearing(c, plan, resolved, d.trace, d.host.containers, now)
  {
    hide Docker.Valid, Tearing, RemovedInTurn, StoppedFirst, DependenciesOf, FailedOn, IdentitiesOf;
    now := removed;
    NextToGo(c, plan, resolved, d.trace, d.host.containers, removed, name);
    ghost var before, was := d.trace, d.host.containers;
    went := TakeDown(d, resolved[name].dockerId, resolved[name].running);
    if went {
      var r := Removed(name, IdentitiesOf(plan.services)[name], resolved[name].dockerId);
      TearingOneMore(c, plan, resolved, before, d.trace, was, d.host.containers, removed, r);
      now := removed + [r];
    } else {
      TearingFailed(c, plan, resolved, before, d.trace, was, d.host.containers, removed, resolved[name].dockerId);
    }
  }

  lemma TearingBegins(plan: LifecyclePlan, order: seq<string>, trace: seq<Event>, from: nat, h: Host, m: map<string,
      Resolved>)
    requires Resolves(h.containers, plan, m) && StartsInOrder(DependenciesOf(plan.services), order) && from < |trace|
    requires JustLooked(trace, from, h)
    ensures Tearing(Course(from, DependenciesOf(plan.services), order, IdsOfServices(m), h.containers),
      plan, m, trace, h.containers, [])
    ensures forall n :: n in m ==> m[n].dockerId in StackIds(h.containers, plan.stackId)
  {
    hide StartsInOrder, Resolves, DependenciesOf, StackIds, Standing;
    ResolvesInjective(h.containers, plan, m);
    ResolvesStack(h.containers, plan, m);
    var c := Course(from, DependenciesOf(plan.services), order, IdsOfServices(m), h.containers);
    assert GoneIds([]) == {};
    TakenInTurnStands(c, plan, m, [], h.containers.Keys);
  }

  /** With every service gone, nothing on the host carries the stack's labels. */
  lemma NothingLeft(c: Course, plan: LifecyclePlan, m: map<string, Resolved>, trace: seq<Event>, now: map<Id,
      Container>, gone: seq<Removed>)
    requires Tearing(c, plan, m, trace, now, gone) && |gone| == |c.order|
    requires Resolves(c.base, plan, m) && c.deps == DependenciesOf(plan.services)
    ensures StackIds(now, plan.stackId) == {}
  {
    hide Standing, StandingSince, StoppedFirst, DependenciesOf, IdentitiesOf, IsService, RemovedInTurn,
      DependenciesFirst;
    forall id | id in StackIds(c.base, plan.stackId)
      ensures id in GoneIds(gone)
    {
      assert id in IdsIn(m);
      var n :| n in m && m[n].dockerId == id;
      assert n in c.ids && n in Members(c.order);
      var k :| 0 <= k < |c.order| && c.order[k] == n;
      WhoIsGone(c, plan, m, gone, k);
    }
  }
}
