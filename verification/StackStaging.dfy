/**
 Moving the containers of a stack aside and putting them back
 (agent/internal/docker/stack_apply.go).

 A container is stopped, renamed and disconnected, and can be put back from its
 record however far that got. Putting back works for every container nobody stands
 in the way of: a container moved aside may have taken the very name that another
 one was called. When that can happen is a property of the host and the plan.
 */
module StackStaging {
  import opened Text
  import opened AgentSpec
  import opened StackPlans
  import opened DockerHost
  import opened StackPreflight

  // ---- moving one container aside and putting it back --------------

  /** What a container may have lost while it was being moved aside. */
  ghost predicate Displaced(orig: Container, now: Container)
  {
    && now.labels == orig.labels && now.volumes == orig.volumes && now.config == orig.config
    && (now.running ==> orig.running) && Submap(now.nets, orig.nets)
  }

  /** A candidate that can be put back: displaced, and renamed exactly if its record says so. */
  ghost predicate InHand(c: Candidate, orig: Container, now: Container)
  {
    && Describes(c, orig) && Displaced(orig, now)
    && (c.stagedName == "" ==> now.name == orig.name)
    && (c.stagedName != "" ==> now.name == c.stagedName != orig.name)
  }

  const STAGED := "dockplane-staged-"

  /** The name a container is moved to: the start of the revision, and the service. */
  function StagedName(revisionId: string, service: string): (r: string)
    ensures r != ""
  {
    STAGED + (if |revisionId| > 8 then revisionId[..8] else revisionId) + "-" + service
  }

  /** A staged name says which revision was being applied, and to which service. */
  lemma StagedNameTells(revision: string, service: string, other: string, service': string)
    requires |revision| >= 8 && |other| >= 8 && StagedName(revision, service) == StagedName(other, service')
    ensures revision[..8] == other[..8] && service == service'
  {
    var name := StagedName(revision, service);
    assert |STAGED| == 17;
    assert name == STAGED + revision[..8] + "-" + service && name == STAGED + other[..8] + "-" + service';
    assert name[17..25] == revision[..8] && name[17..25] == other[..8];
    assert name[26..] == service && name[26..] == service';
  }

  /** Two services of one attempt are never moved to one name. */
  lemma StagedNamesDiffer(revisionId: string, a: string, b: string)
    requires StagedName(revisionId, a) == StagedName(revisionId, b)
    ensures a == b
  {
    var front := STAGED + (if |revisionId| > 8 then revisionId[..8] else revisionId) + "-";
    assert StagedName(revisionId, a)[|front|..] == a;
    assert StagedName(revisionId, b)[|front|..] == b;
  }

  /** Moved aside completely: under its staged name, stopped and on no network. */
  ghost predicate Aside(plan: StackPlan, c: Candidate, now: Container)
  {
    c.stagedName == now.name == StagedName(plan.revisionId, c.service) && !now.running && now.nets == map[]
  }

  /** The container was stopped before it was renamed or taken off a network. */
  ghost predicate StoppedWhenMoved(trace: seq<Event>, from: nat, id: Id)
  {
    forall i :: from <= i < |trace| && (trace[i].call.Rename? || trace[i].call.Disconnect?) ==> !RunsAfter(trace[i], id)
  }

  /** Stopped, renamed, disconnected from everything: in that order, stopping at the first failure. */
  method StageOne(d: Docker, plan: StackPlan, c: Candidate) returns (ok: bool, r: Candidate)
    requires d.Valid() && d.Mine(c.id)
    requires c.id in d.host.containers && Describes(c, d.host.containers[c.id]) && c.stagedName == ""
    modifies d`trace, d`host
    ensures d.Valid() && old(d.trace) <= d.trace
    ensures c.id in d.host.containers && d.host == Put(old(d.host), c.id, d.host.containers[c.id])
    ensures r == c.(stagedName := r.stagedName) && InHand(r, old(d.host).containers[c.id], d.host.containers[c.id])
    ensures r.stagedName != "" ==> r.stagedName == StagedName(plan.revisionId, c.service)
    ensures r.stagedName != "" ==> !NameTaken(old(d.host), r.stagedName)
    ensures ok ==> Aside(plan, r, d.host.containers[c.id])
    ensures !ok ==> !AllDone(d.trace, |old(d.trace)|)
    ensures StoppedWhenMoved(d.trace, |old(d.trace)|, c.id)
  {
    hide Docker.Valid, AllDone, StagedName, NameTaken, StoppedWhenMoved;
    ok, r := StopAndRename(d, plan, c);
    if !ok { return; }
    ghost var sofar := d.trace;
    ok := DisconnectAll(d, c);
    BothWhenMoved(sofar, d.trace, |old(d.trace)|, c.id);
    if !ok { StillSpoilt(d.trace, d.trace, |sofar|, |old(d.trace)|); }
  }

  lemma BothWhenMoved(sofar: seq<Event>, trace: seq<Event>, from: nat, id: Id)
    requires from <= |sofar| && sofar <= trace
    requires StoppedWhenMoved(sofar, from, id) && StoppedWhenMoved(trace, |sofar|, id)
    ensures StoppedWhenMoved(trace, from, id)
  {
    assert forall i :: 0 <= i < |sofar| ==> trace[i] == sofar[i];
  }

  /** The first two steps, after which the container is stopped and has its staged name. */
  method StopAndRename(d: Docker, plan: StackPlan, c: Candidate) returns (ok: bool, r: Candidate)
    requires d.Valid() && d.Mine(c.id)
    requires c.id in d.host.containers && Describes(c, d.host.containers[c.id]) && c.stagedName == ""
    modifies d`trace, d`host
    ensures d.Valid() && old(d.trace) <= d.trace
    ensures c.id in d.host.containers && d.host == Put(old(d.host), c.id, d.host.containers[c.id])
    ensures r == c.(stagedName := r.stagedName) && InHand(r, old(d.host).containers[c.id], d.host.containers[c.id])
    ensures r.stagedName == if ok then StagedName(plan.revisionId, c.service) else ""
    ensures ok ==> !NameTaken(old(d.host), r.stagedName)
    ensures ok ==>
      d.host.containers[c.id] == old(d.host).containers[c.id].(running := false, name := r.stagedName)
    ensures !ok ==> !AllDone(d.trace, |old(d.trace)|)
    ensures StoppedWhenMoved(d.trace, |old(d.trace)|, c.id)
  {
    hide Docker.Valid, AllDone, StagedName;
    r := c;
    if c.wasRunning {
      var stopped := d.ContainerStop(c.id);
      if !stopped.Done? {
        Spoilt(d.trace, |old(d.trace)|, |d.trace| - 1);
        return false, r;
      }
    }
    var staged := StagedName(plan.revisionId, c.service);
    SameNames(old(d.host), d.host, c.id, staged);
    var renamed := d.ContainerRename(c.id, staged);
    if !renamed.Done? {
      Spoilt(d.trace, |old(d.trace)|, |d.trace| - 1);
      return false, r;
    }
    return true, c.(stagedName := staged);
  }

  /** A change to a container that is not its name leaves every name as taken as it was. */
  lemma SameNames(before: Host, now: Host, id: Id, name: string)
    requires id in before.containers && id in now.containers && now.containers[id].name == before.containers[id].name
    requires now == Put(before, id, now.containers[id])
    ensures NameTaken(now, name) <==> NameTaken(before, name)
  {
    if k :| k in before.containers && before.containers[k].name == name {
      assert k in now.containers && now.containers[k].name == name;
    }
    if k :| k in now.containers && now.containers[k].name == name {
      assert k in before.containers && before.containers[k].name == name;
    }
  }

  method DisconnectAll(d: Docker, c: Candidate) returns (ok: bool)
    requires d.Valid() && d.Mine(c.id) && c.id in d.host.containers && c.networks == d.host.containers[c.id].nets
    modifies d`trace, d`host
    ensures d.Valid() && old(d.trace) <= d.trace && c.id in d.host.containers
    ensures d.host == Put(old(d.host), c.id, old(d.host).containers[c.id].(nets := d.host.containers[c.id].nets))
    ensures Submap(d.host.containers[c.id].nets, c.networks)
    ensures ok ==> d.host.containers[c.id].nets == map[]
    ensures !ok ==> !AllDone(d.trace, |old(d.trace)|)
    ensures !old(d.host).containers[c.id].running ==> StoppedWhenMoved(d.trace, |old(d.trace)|, c.id)
  {
    hide Docker.Valid, AllDone;
    var rest := c.networks.Keys;
    while rest != {}
      invariant d.Valid() && old(d.trace) <= d.trace && c.id in d.host.containers
      invariant d.host == Put(old(d.host), c.id, old(d.host).containers[c.id].(nets := d.host.containers[c.id].nets))
      invariant Submap(d.host.containers[c.id].nets, c.networks) && d.host.containers[c.id].nets.Keys == rest
      invariant !old(d.host).containers[c.id].running ==> StoppedWhenMoved(d.trace, |old(d.trace)|, c.id)
      decreases rest
    {
      var network :| network in rest;
      var cut := d.NetworkDisconnect(network, c.id);
      if !cut.Done? {
        Spoilt(d.trace, |old(d.trace)|, |d.trace| - 1);
        return false;
      }
      rest := rest - {network};
    }
    return true;
  }

  /** Every call since then was about this container. */
  ghost predicate OnlyAbout(trace: seq<Event>, from: nat, id: Id)
  {
    forall i :: from <= i < |trace| ==> About(trace[i].call, id)
  }

  /** What can be asked of a reconnection: the networks exist, and perhaps it is on none of them. */
  ghost predicate Reconnects(trace: seq<Event>, from: nat, c: Candidate, h: Host)
    requires c.id in h.containers
  {
    NoFault(trace, from) && c.networks.Keys <= h.networks.Keys ==>
      Smooth(trace, from) && (h.containers[c.id].nets == map[] ==> AllDone(trace, from))
  }

  /** Reconnects one candidate to every network it was on. */
  method Reconnect(d: Docker, c: Candidate) returns (complete: bool)
    requires d.Valid() && d.Mine(c.id) && c.id in d.host.containers && Submap(d.host.containers[c.id].nets, c.networks)
    modifies d`trace, d`host
    ensures d.Valid() && old(d.trace) <= d.trace && c.id in d.host.containers
    ensures d.host == Put(old(d.host), c.id, old(d.host).containers[c.id].(nets := d.host.containers[c.id].nets))
    ensures complete <==> AllDone(d.trace, |old(d.trace)|)
    ensures Smooth(d.trace, |old(d.trace)|) ==> d.host.containers[c.id].nets == c.networks
    ensures Reconnects(d.trace, |old(d.trace)|, c, old(d.host)) && OnlyAbout(d.trace, |old(d.trace)|, c.id)
    ensures forall i :: |old(d.trace)| <= i < |d.trace| ==> d.trace[i].call.Connect?
  {
    hide Docker.Valid, AllDone, Smooth, NoFault;
    complete := true;
    var rest := c.networks.Keys;
    ghost var smooth, from := true, |d.trace|;
    NothingSince(d.trace);
    while rest != {}
      invariant rest <= c.networks.Keys
      invariant d.Valid() && old(d.trace) <= d.trace && c.id in d.host.containers
      invariant d.host == Put(old(d.host), c.id, old(d.host).containers[c.id].(nets := d.host.containers[c.id].nets))
      invariant Submap(d.host.containers[c.id].nets, c.networks)
      invariant complete <==> AllDone(d.trace, from)
      invariant smooth <==> Smooth(d.trace, from)
      invariant smooth ==> c.networks.Keys - rest <= d.host.containers[c.id].nets.Keys
      invariant NoFault(d.trace, from) && c.networks.Keys <= d.host.networks.Keys ==> smooth
      invariant old(d.host).containers[c.id].nets == map[] ==>
        d.host.containers[c.id].nets.Keys !! rest && (smooth ==> complete)
      invariant OnlyAbout(d.trace, from, c.id)
      invariant forall i :: from <= i < |d.trace| ==> d.trace[i].call.Connect?
      decreases rest
    {
      var network :| network in rest;
      ghost var before := d.trace;
      var reply := d.NetworkConnect(network, c.id, c.networks[network]);
      LastReply(before, d.trace, from);
      if !reply.Done? { complete := false; }
      smooth := smooth && (reply.Done? || reply.AlreadyConnected?);
      rest := rest - {network};
    }
    if smooth { SubmapBoth(d.host.containers[c.id].nets, c.networks); }
  }

  lemma SubmapBoth<K, V>(a: map<K, V>, b: map<K, V>)
    requires Submap(a, b) && b.Keys <= a.Keys
    ensures a == b
  {
    assert a.Keys == b.Keys;
  }

  /** A start is the last of these calls. */
  ghost predicate StartedLast(trace: seq<Event>, from: nat)
  {
    forall i :: from <= i < |trace| - 1 ==> !trace[i].call.Start?
  }

  /** Gives one candidate its name back and starts it if it was running. */
  method Revive(d: Docker, c: Candidate) returns (complete: bool)
    requires d.Valid() && d.Mine(c.id) && c.id in d.host.containers
    requires d.host.containers[c.id].running ==> c.wasRunning
    requires c.stagedName == "" ==> d.host.containers[c.id].name == c.name
    modifies d`trace, d`host
    ensures d.Valid() && old(d.trace) <= d.trace
    ensures c.id in d.host.containers && d.host == Put(old(d.host), c.id, d.host.containers[c.id])
    ensures complete <==> AllDone(d.trace, |old(d.trace)|)
    ensures Smooth(d.trace, |old(d.trace)|) ==> complete
    ensures complete ==>
      d.host.containers[c.id] == old(d.host).containers[c.id].(name := c.name, running := c.wasRunning)
    ensures NoFault(d.trace, |old(d.trace)|) && (c.stagedName == "" || !NameTaken(old(d.host), c.name)) ==> complete
    ensures c.stagedName != "" && NameTaken(old(d.host), c.name) ==> d.host == old(d.host)
    ensures OnlyAbout(d.trace, |old(d.trace)|, c.id) && StartedLast(d.trace, |old(d.trace)|)
  {
    hide Docker.Valid, AllDone, Smooth, NoFault, NameTaken;
    complete := true;
    NothingSince(d.trace);
    if c.stagedName != "" {
      var renamed := d.ContainerRename(c.id, c.name);
      LastReply(old(d.trace), d.trace, |old(d.trace)|);
      if !renamed.Done? { return false; }
    }
    if c.wasRunning {
      ghost var before := d.trace;
      var started := d.ContainerStart(c.id);
      LastReply(before, d.trace, |old(d.trace)|);
      complete := started.Done?;
    }
  }

  /** Every call about this container since then was done, or asked for what was already so. */
  ghost predicate SmoothFor(trace: seq<Event>, from: nat, id: Id)
  {
    forall i :: from <= i < |trace| && About(trace[i].call, id) ==>
      trace[i].reply.Done? || trace[i].reply.AlreadyConnected?
  }

  /** The networks a candidate was on exist, and nobody holds the name it gave up. */
  predicate Unhindered(c: Candidate, h: Host)
  {
    c.networks.Keys <= h.networks.Keys && (c.stagedName == "" || !NameTaken(h, c.name))
  }

  /** Reconnects, renames and restarts one candidate. */
  method RestoreOne(d: Docker, c: Candidate, ghost orig: Container) returns (complete: bool)
    requires d.Valid() && d.Mine(c.id) && c.id in d.host.containers && InHand(c, orig, d.host.containers[c.id])
    modifies d`trace, d`host
    ensures d.Valid() && old(d.trace) <= d.trace
    ensures c.id in d.host.containers && d.host == Put(old(d.host), c.id, d.host.containers[c.id])
    ensures complete <==> AllDone(d.trace, |old(d.trace)|)
    ensures Smooth(d.trace, |old(d.trace)|) ==> d.host.containers[c.id] == orig
    // Refused only for a name somebody else holds, and then it stays under its staged name.
    ensures NoFault(d.trace, |old(d.trace)|) && Unhindered(c, old(d.host)) ==> Smooth(d.trace, |old(d.trace)|)
    ensures NoFault(d.trace, |old(d.trace)|) && Unhindered(c, old(d.host)) ==>
      old(d.host).containers[c.id].nets == map[] ==> complete
    ensures c.stagedName != "" && NameTaken(old(d.host), c.name) ==> d.host.containers[c.id].name == c.stagedName
    ensures OnlyAbout(d.trace, |old(d.trace)|, c.id) && StartedLast(d.trace, |old(d.trace)|)
  {
    hide Docker.Valid, AllDone, Smooth, NoFault, NameTaken, OnlyAbout;
    var reconnected := Reconnect(d, c);
    ghost var sofar := d.trace;
    SameNames(old(d.host), d.host, c.id, c.name);
    complete := Revive(d, c);
    RepliesSplit(d.trace, |old(d.trace)|, |sofar|);
    BothAbout(sofar, d.trace, |old(d.trace)|, c.id);
    assert d.trace[..|sofar|] == sofar;
    if AllDone(d.trace, |sofar|) { DoneIsSmooth(d.trace, |sofar|); }
    complete := complete && reconnected;
  }

  lemma BothAbout(sofar: seq<Event>, trace: seq<Event>, from: nat, id: Id)
    requires from <= |sofar| && sofar <= trace && OnlyAbout(sofar, from, id) && OnlyAbout(trace, |sofar|, id)
    ensures OnlyAbout(trace, from, id)
  {
    assert forall i :: 0 <= i < |sofar| ==> trace[i] == sofar[i];
  }

  lemma DoneIsSmooth(trace: seq<Event>, from: nat)
    requires AllDone(trace, from)
    ensures Smooth(trace, from)
  {
  }

  // ---- all of the old containers -----------------------------------

  ghost predicate IdsDistinct(cs: seq<Candidate>)
  {
    forall i, j :: 0 <= i < j < |cs| ==> cs[i].id != cs[j].id
  }

  /** Every candidate from an index on is still as it was found. */
  ghost predicate Untouched(cs: seq<Candidate>, from: nat, orig: map<Id, Container>, now: map<Id, Container>)
  {
    forall i :: from <= i < |cs| ==> cs[i].id in orig && cs[i].id in now && now[cs[i].id] == orig[cs[i].id]
  }

  /** Every candidate can be put back. */
  ghost predicate AllInHand(cs: seq<Candidate>, orig: map<Id, Container>, now: map<Id, Container>)
  {
    forall i :: 0 <= i < |cs| ==> cs[i].id in orig && cs[i].id in now && InHand(cs[i], orig[cs[i].id], now[cs[i].id])
  }

  /** The same candidates, with the names they were moved to filled in. */
  ghost predicate SameCandidates(cs: seq<Candidate>, r: seq<Candidate>)
  {
    |r| == |cs| && forall i :: 0 <= i < |cs| ==> r[i] == cs[i].(stagedName := r[i].stagedName)
  }

  /**
   How far staging got: each name taken was free, so no container still to be moved
   held it.
   */
  ghost predicate StagedInOrder(plan: StackPlan, cs: seq<Candidate>)
  {
    && (forall i :: 0 <= i < |cs| && cs[i].stagedName != "" ==>
      cs[i].stagedName == StagedName(plan.revisionId, cs[i].service))
    && (forall i, j :: 0 <= i < j < |cs| && cs[i].stagedName != "" ==> cs[i].stagedName != cs[j].name)
  }

  ghost predicate AllAside(plan: StackPlan, cs: seq<Candidate>, now: map<Id, Container>)
  {
    forall i :: 0 <= i < |cs| ==> cs[i].id in now && Aside(plan, cs[i], now[cs[i].id])
  }

  /** How far staging got: the first were moved aside, the others are as they were. */
  ghost predicate Staging(plan: StackPlan, cs: seq<Candidate>, r: seq<Candidate>, i: nat, orig: map<Id, Container>,
      now: map<Id, Container>)
  {
    && i <= |cs| && now.Keys == orig.Keys && IdsDistinct(cs)
    && (forall k :: 0 <= k < |cs| ==> cs[k].id in orig && Describes(cs[k], orig[cs[k].id]) && cs[k].stagedName == "")
    && SameCandidates(cs, r) && AllInHand(r, orig, now) && StagedInOrder(plan, r)
    && Untouched(cs, i, orig, now) && forall k :: i <= k < |cs| ==> r[k] == cs[k]
  }

  lemma StagingBegins(plan: StackPlan, cs: seq<Candidate>, orig: map<Id, Container>)
    requires IdsDistinct(cs) && forall c :: c in cs ==> c.id in orig && Describes(c, orig[c.id]) && c.stagedName == ""
    ensures Staging(plan, cs, cs, 0, orig, orig)
  {
    StartsInHand(cs, orig);
    assert forall i :: 0 <= i < |cs| ==> cs[i] in cs;
  }

  lemma NextToStage(plan: StackPlan, cs: seq<Candidate>, r: seq<Candidate>, i: nat, orig: map<Id, Container>,
      now: map<Id, Container>)
    requires Staging(plan, cs, r, i, orig, now) && i < |cs|
    ensures cs[i].id in now && Describes(cs[i], now[cs[i].id]) && cs[i].stagedName == ""
  {
    hide Describes, InHand, StagedInOrder;
  }

  /** One more was moved, or got as far as it could. */
  lemma StagedOneMore(plan: StackPlan, cs: seq<Candidate>, r: seq<Candidate>, i: nat, orig: map<Id, Container>,
      before: Host, now: Host, c: Candidate)
    requires Staging(plan, cs, r, i, orig, before.containers) && i < |cs|
    requires cs[i].id in now.containers && now == Put(before, cs[i].id, now.containers[cs[i].id])
    requires c == cs[i].(stagedName := c.stagedName) && InHand(c, before.containers[cs[i].id], now.containers[cs[i].id])
    requires c.stagedName != "" ==>
      c.stagedName == StagedName(plan.revisionId, c.service) && !NameTaken(before, c.stagedName)
    ensures Staging(plan, cs, r[i := c], i + 1, orig, now.containers)
    ensures forall k :: 0 <= k < i ==>
      cs[k].id in now.containers && now.containers[cs[k].id] == before.containers[cs[k].id]
  {
    hide InHand, Describes, StagedName, NameTaken, StagedInOrder;
    assert r[i := c][i := cs[i]] == r;
    NoneHoldsIt(cs, i, orig, before, c.stagedName);
    OthersInHand(cs, r[i := c], i, orig, before.containers, now.containers);
    OneMoreStaged(plan, cs, r[i := c], i, c);
  }

  /** `reached` is how many candidates were touched; the others are as they were. */
  method StageAside(d: Docker, plan: StackPlan, cs: seq<Candidate>)
    returns (ok: bool, r: seq<Candidate>, ghost reached: nat)
    requires d.Valid() && IdsDistinct(cs) && (forall c :: c in cs ==> d.Mine(c.id))
    requires forall c :: c in cs ==>
      c.id in d.host.containers && Describes(c, d.host.containers[c.id]) && c.stagedName == ""
    modifies d`trace, d`host
    ensures d.Valid() && old(d.trace) <= d.trace && d.host.containers.Keys == old(d.host).containers.Keys
    ensures SameCandidates(cs, r) && AllInHand(r, old(d.host).containers, d.host.containers) && StagedInOrder(plan, r)
    ensures reached <= |cs| && Untouched(cs, reached, old(d.host).containers, d.host.containers)
    ensures forall j :: reached <= j < |cs| ==> r[j] == cs[j]
    ensures ok ==> reached == |cs| && AllAside(plan, r, d.host.containers)
    ensures !ok ==> !AllDone(d.trace, |old(d.trace)|)
  {
    hide Docker.Valid, AllDone, InHand, Describes, StagedName, Staging, StagedInOrder, NameTaken, Put;
    r, reached := cs, 0;
    ghost var orig := d.host.containers;
    StagingBegins(plan, cs, orig);
    StagingMeans(plan, cs, r, 0, orig, orig);
    for i := 0 to |cs|
      invariant d.Valid() && old(d.trace) <= d.trace && reached == i && |r| == |cs|
      invariant Staging(plan, cs, r, i, orig, d.host.containers)
      invariant AllAside(plan, r[..i], d.host.containers) && forall k :: 0 <= k < |cs| ==> r[k].id == cs[k].id
    {
      assert cs[i] in cs;
      ghost var before, sofar := d.host, d.trace;
      NextToStage(plan, cs, r, i, orig, d.host.containers);
      var staged, c := StageOne(d, plan, cs[i]);
      StagedOneMore(plan, cs, r, i, orig, before, d.host, c);
      AsideStays(plan, r[..i], before.containers, d.host.containers, c);
      r := r[i := c];
      reached := i + 1;
      StagingMeans(plan, cs, r, i + 1, orig, d.host.containers);
      if !staged {
        StillSpoilt(d.trace, d.trace, |sofar|, |old(d.trace)|);
        return false, r, reached;
      }
      assert r[..i + 1] == r[..i] + [c];
    }
    assert r[..|cs|] == r;
    StagingMeans(plan, cs, r, |cs|, orig, d.host.containers);
    return true, r, reached;
  }

  lemma StagingMeans(plan: StackPlan, cs: seq<Candidate>, r: seq<Candidate>, i: nat, orig: map<Id, Container>,
      now: map<Id, Container>)
    requires Staging(plan, cs, r, i, orig, now)
    ensures now.Keys == orig.Keys && SameCandidates(cs, r) && AllInHand(r, orig, now) && StagedInOrder(plan, r)
    ensures i <= |cs| && Untouched(cs, i, orig, now) && forall k :: i <= k < |cs| ==> r[k] == cs[k]
  {
    hide InHand, Describes, StagedInOrder;
  }

  lemma AsideStays(plan: StackPlan, moved: seq<Candidate>, before: map<Id, Container>, now: map<Id, Container>,
      c: Candidate)
    requires AllAside(plan, moved, before)
    requires forall k :: 0 <= k < |moved| ==> moved[k].id in now && now[moved[k].id] == before[moved[k].id]
    ensures AllAside(plan, moved, now)
    ensures c.id in now && Aside(plan, c, now[c.id]) ==> AllAside(plan, moved + [c], now)
  {
    hide Aside;
  }

  lemma StartsInHand(cs: seq<Candidate>, orig: map<Id, Container>)
    requires forall c :: c in cs ==> c.id in orig && Describes(c, orig[c.id]) && c.stagedName == ""
    ensures AllInHand(cs, orig, orig) && Untouched(cs, 0, orig, orig)
  {
    forall i | 0 <= i < |cs|
      ensures cs[i].id in orig && InHand(cs[i], orig[cs[i].id], orig[cs[i].id])
    {
      assert cs[i] in cs;
    }
  }

  /** A name that was free is not the name of a candidate that has not been moved yet. */
  lemma NoneHoldsIt(cs: seq<Candidate>, i: nat, orig: map<Id, Container>, h: Host, name: string)
    requires i < |cs| && Untouched(cs, i, orig, h.containers) && (name == "" || !NameTaken(h, name))
    requires forall c :: c in cs ==> c.id in orig && Describes(c, orig[c.id])
    ensures name != "" ==> forall j :: i <= j < |cs| ==> cs[j].name != name
  {
    forall j | i <= j < |cs| && name != ""
      ensures cs[j].name != name
    {
      assert cs[j] in cs && h.containers[cs[j].id].name == cs[j].name;
    }
  }

  lemma OneMoreStaged(plan: StackPlan, cs: seq<Candidate>, r: seq<Candidate>, i: nat, c: Candidate)
    requires i < |cs| && SameCandidates(cs, r) && r[i] == c && StagedInOrder(plan, r[i := cs[i]])
    requires cs[i].stagedName == ""
    requires c.stagedName != "" ==> c.stagedName == StagedName(plan.revisionId, c.service)
    requires c.stagedName != "" ==> forall j :: i <= j < |cs| ==> cs[j].name != c.stagedName
    ensures StagedInOrder(plan, r)
  {
    hide StagedName;
    var was := r[i := cs[i]];
    forall k | 0 <= k < |r| && r[k].stagedName != ""
      ensures r[k].stagedName == StagedName(plan.revisionId, r[k].service)
      ensures forall j :: k < j < |r| ==> r[k].stagedName != r[j].name
    {
      assert k != i ==> was[k] == r[k];
      assert forall j :: 0 <= j < |r| ==> r[j].name == was[j].name;
    }
  }

  lemma OthersInHand(cs: seq<Candidate>, r: seq<Candidate>, i: nat, orig: map<Id, Container>, before: map<Id,
      Container>, now: map<Id, Container>)
    requires i < |cs| && IdsDistinct(cs) && SameCandidates(cs, r)
    requires cs[i].id in now && now == before[cs[i].id := now[cs[i].id]]
    requires cs[i].id in orig && InHand(r[i], orig[cs[i].id], now[cs[i].id])
    requires forall j :: 0 <= j < |cs| && j != i ==>
      cs[j].id in orig && cs[j].id in before && InHand(r[j], orig[cs[j].id], before[cs[j].id])
    requires Untouched(cs, i, orig, before)
    ensures AllInHand(r, orig, now) && Untouched(cs, i + 1, orig, now)
    ensures forall j :: 0 <= j < |cs| && j != i ==> cs[j].id in now && now[cs[j].id] == before[cs[j].id]
  {
  }

  /** A candidate holds the staged name that another, which comes back before it, was called. */
  ghost predicate Blocked(cs: seq<Candidate>)
  {
    exists i, j :: 0 <= i < j < |cs| && Blocks(cs[i], cs[j])
  }

  predicate Blocks(c: Candidate, later: Candidate)
  {
    c.stagedName != "" && later.stagedName != "" && later.stagedName == c.name
  }

  /** Whoever is not a candidate holds no name of one, no two share one, and their networks exist. */
  ghost predicate Roomy(cs: seq<Candidate>, h: Host)
  {
    && (forall i :: 0 <= i < |cs| ==> cs[i].networks.Keys <= h.networks.Keys)
    && (forall i, j :: 0 <= i < j < |cs| ==> cs[i].name != cs[j].name)
    && (forall id, i :: id in h.containers && id !in IdsOf(cs) && 0 <= i < |cs| ==> h.containers[id].name != cs[i].name)
  }

  ghost predicate OnNoNetwork(cs: seq<Candidate>, now: map<Id, Container>)
  {
    forall i :: 0 <= i < |cs| && cs[i].id in now ==> now[cs[i].id].nets == map[]
  }

  ghost predicate AllStopped(ids: set<Id>, now: map<Id, Container>)
  {
    forall id :: id in ids && id in now ==> !now[id].running
  }

  /**
   Puts every candidate back; a failure does not stop the others. With no fault the
   only thing that can keep one from coming back is a candidate further on that
   holds its name, and that one always does.
   */
  method Restore(d: Docker, cs: seq<Candidate>, ghost orig: map<Id, Container>) returns (complete: bool)
    requires d.Valid() && IdsDistinct(cs) && (forall c :: c in cs ==> d.Mine(c.id))
    requires AllInHand(cs, orig, d.host.containers)
    modifies d`trace, d`host
    ensures d.Valid() && old(d.trace) <= d.trace && d.host.containers.Keys == old(d.host).containers.Keys
    ensures complete <==> AllDone(d.trace, |old(d.trace)|)
    ensures Smooth(d.trace, |old(d.trace)|) ==> Untouched(cs, 0, orig, d.host.containers)
    ensures forall i :: 0 <= i < |cs| && SmoothFor(d.trace, |old(d.trace)|, cs[i].id) ==>
      d.host.containers[cs[i].id] == orig[cs[i].id]
    ensures Blocked(cs) ==> !Untouched(cs, 0, orig, d.host.containers)
    ensures Roomy(cs, old(d.host)) && !Blocked(cs) && NoFault(d.trace, |old(d.trace)|) ==>
      Smooth(d.trace, |old(d.trace)|) && (OnNoNetwork(cs, old(d.host).containers) ==> complete)
  {
    hide Docker.Valid, AllDone, Smooth, NoFault, InHand, Blocked, Roomy, SmoothFor, OnlyAbout, Unhindered, Put;
    complete := true;
    ghost var first, start := d.host, |d.trace|;
    NothingSince(d.trace);
    RestoringBegins(cs, d.host, orig, d.trace);
    for i := 0 to |cs|
      invariant d.Valid() && old(d.trace) <= d.trace
      invariant Restoring(cs, i, first, d.host, orig, d.trace, start)
      invariant complete <==> AllDone(d.trace, start)
      invariant Easy(cs, first, d.trace, start) ==>
        Smooth(d.trace, start) && (OnNoNetwork(cs, first.containers) ==> complete)
    {
      assert cs[i] in cs;
      ghost var before, sofar := d.host, d.trace;
      StillToCome(cs, i, first, before, orig, sofar, start);
      var restored := RestoreOne(d, cs[i], orig[cs[i].id]);
      RepliesSplit(d.trace, start, |sofar|);
      assert d.trace[..|sofar|] == sofar;
      if Easy(cs, first, d.trace, start) { NothingInTheWay(cs, i, first, before, orig, sofar, start); }
      OneMoreRestored(cs, i, first, before, d.host, orig, sofar, d.trace, start);
      complete := complete && restored;
    }
    RestoredAll(cs, first, d.host, orig, d.trace, start);
  }

  /** Nothing stands in the way of any of them, and no call faulted. */
  ghost predicate Easy(cs: seq<Candidate>, first: Host, trace: seq<Event>, start: nat)
  {
    Roomy(cs, first) && !Blocked(cs) && NoFault(trace, start)
  }

  /** What became of one candidate once its turn was over. */
  ghost predicate Came(cs: seq<Candidate>, k: nat, now: Container, orig: Container, trace: seq<Event>, start: nat)
    requires k < |cs|
  {
    && (SmoothFor(trace, start, cs[k].id) ==> now == orig)
    && ((exists j :: k < j < |cs| && Blocks(cs[k], cs[j])) ==> now.name != orig.name)
  }

  /** The first candidates had their turn, the others and everybody else are as they were. */
  ghost predicate Restoring(cs: seq<Candidate>, i: nat, first: Host, now: Host, orig: map<Id, Container>,
      trace: seq<Event>, start: nat)
  {
    && i <= |cs| && start <= |trace| && IdsDistinct(cs) && AllInHand(cs, orig, first.containers)
    && now.networks == first.networks && now.containers.Keys == first.containers.Keys
    && (forall id :: id in now.containers && id !in IdsOf(cs) ==> now.containers[id] == first.containers[id])
    && Untouched(cs, i, first.containers, now.containers)
    && forall k :: 0 <= k < i ==> Came(cs, k, now.containers[cs[k].id], orig[cs[k].id], trace, start)
  }

  lemma RestoringBegins(cs: seq<Candidate>, h: Host, orig: map<Id, Container>, trace: seq<Event>)
    requires IdsDistinct(cs) && AllInHand(cs, orig, h.containers)
    ensures Restoring(cs, 0, h, h, orig, trace, |trace|)
  {
    hide InHand;
  }

  lemma StillToCome(cs: seq<Candidate>, i: nat, first: Host, now: Host, orig: map<Id, Container>, trace: seq<Event>,
      start: nat)
    requires i < |cs| && Restoring(cs, i, first, now, orig, trace, start)
    ensures cs[i].id in orig && cs[i].id in now.containers && InHand(cs[i], orig[cs[i].id], now.containers[cs[i].id])
    ensures now.containers[cs[i].id] == first.containers[cs[i].id]
  {
    hide InHand, Came;
  }

  /** Those before it are back under their own names, those after it hold neither its name nor one that blocks it. */
  lemma NothingInTheWay(cs: seq<Candidate>, i: nat, first: Host, now: Host, orig: map<Id, Container>,
      trace: seq<Event>, start: nat)
    requires i < |cs| && Restoring(cs, i, first, now, orig, trace, start)
    requires Roomy(cs, first) && !Blocked(cs) && Smooth(trace, start)
    ensures Unhindered(cs[i], now)
  {
    if cs[i].stagedName != "" {
      forall id | id in now.containers
        ensures now.containers[id].name != cs[i].name
      {
        if id in IdsOf(cs) {
          var c :| c in cs && c.id == id;
          var k :| 0 <= k < |cs| && cs[k] == c;
          HoldsNoName(cs, i, k, first, now, orig, trace, start);
        }
      }
    }
  }

  lemma HoldsNoName(cs: seq<Candidate>, i: nat, k: nat, first: Host, now: Host, orig: map<Id, Container>,
      trace: seq<Event>, start: nat)
    requires i < |cs| && k < |cs| && Restoring(cs, i, first, now, orig, trace, start) && cs[i].stagedName != ""
    requires Roomy(cs, first) && !Blocked(cs) && Smooth(trace, start)
    ensures now.containers[cs[k].id].name != cs[i].name
  {
    assert InHand(cs[k], orig[cs[k].id], first.containers[cs[k].id]);
    if k < i {
      assert Came(cs, k, now.containers[cs[k].id], orig[cs[k].id], trace, start);
      assert SmoothFor(trace, start, cs[k].id);
    } else if i < k {
      assert !Blocks(cs[i], cs[k]);
    }
  }

  lemma OneMoreRestored(cs: seq<Candidate>, i: nat, first: Host, before: Host, now: Host, orig: map<Id, Container>,
                        sofar: seq<Event>, trace: seq<Event>, start: nat)
    requires i < |cs| && Restoring(cs, i, first, before, orig, sofar, start) && sofar <= trace
    requires cs[i].id in now.containers && now == Put(before, cs[i].id, now.containers[cs[i].id])
    requires OnlyAbout(trace, |sofar|, cs[i].id)
    requires Smooth(trace, |sofar|) ==> now.containers[cs[i].id] == orig[cs[i].id]
    requires cs[i].stagedName != "" && NameTaken(before, cs[i].name) ==>
      now.containers[cs[i].id].name == cs[i].stagedName
    ensures Restoring(cs, i + 1, first, now, orig, trace, start)
  {
    hide Smooth, SmoothFor, OnlyAbout, NameTaken, InHand;
    forall k | 0 <= k <= i
      ensures Came(cs, k, now.containers[cs[k].id], orig[cs[k].id], trace, start)
    {
      if k == i {
        LastOne(cs, i, first, before, now, orig, sofar, trace, start);
      } else {
        assert Came(cs, k, before.containers[cs[k].id], orig[cs[k].id], sofar, start);
        SmoothBefore(sofar, trace, start, cs[k].id);
      }
    }
    assert cs[i] in cs && cs[i].id in IdsOf(cs);
  }

  lemma SmoothBefore(sofar: seq<Event>, trace: seq<Event>, start: nat, id: Id)
    requires sofar <= trace
    ensures SmoothFor(trace, start, id) ==> SmoothFor(sofar, start, id)
  {
    assert forall i :: 0 <= i < |sofar| ==> trace[i] == sofar[i];
  }

  lemma LastOne(cs: seq<Candidate>, i: nat, first: Host, before: Host, now: Host, orig: map<Id, Container>,
                sofar: seq<Event>, trace: seq<Event>, start: nat)
    requires i < |cs| && Restoring(cs, i, first, before, orig, sofar, start) && sofar <= trace
    requires cs[i].id in now.containers && OnlyAbout(trace, |sofar|, cs[i].id)
    requires Smooth(trace, |sofar|) ==> now.containers[cs[i].id] == orig[cs[i].id]
    requires cs[i].stagedName != "" && NameTaken(before, cs[i].name) ==>
      now.containers[cs[i].id].name == cs[i].stagedName
    ensures Came(cs, i, now.containers[cs[i].id], orig[cs[i].id], trace, start)
  {
    hide Came;
    if SmoothFor(trace, start, cs[i].id) { assert Smooth(trace, |sofar|); }
    if j :| i < j < |cs| && Blocks(cs[i], cs[j]) {
      assert InHand(cs[j], orig[cs[j].id], before.containers[cs[j].id]);
      assert before.containers[cs[j].id].name == cs[i].name;
      assert InHand(cs[i], orig[cs[i].id], first.containers[cs[i].id]);
    }
    CameMeans(cs, i, now.containers[cs[i].id], orig[cs[i].id], trace, start);
  }

  lemma CameMeans(cs: seq<Candidate>, k: nat, now: Container, orig: Container, trace: seq<Event>, start: nat)
    requires k < |cs|
    requires SmoothFor(trace, start, cs[k].id) ==> now == orig
    requires (exists j :: k < j < |cs| && Blocks(cs[k], cs[j])) ==> now.name != orig.name
    ensures Came(cs, k, now, orig, trace, start)
  {
  }

  lemma RestoredAll(cs: seq<Candidate>, first: Host, now: Host, orig: map<Id, Container>, trace: seq<Event>, start: nat)
    requires Restoring(cs, |cs|, first, now, orig, trace, start)
    ensures forall i :: 0 <= i < |cs| && SmoothFor(trace, start, cs[i].id) ==>
      now.containers[cs[i].id] == orig[cs[i].id]
    ensures Smooth(trace, start) ==> Untouched(cs, 0, orig, now.containers)
    ensures Blocked(cs) ==> !Untouched(cs, 0, orig, now.containers)
  {
    hide InHand;
    forall i | 0 <= i < |cs|
      ensures Came(cs, i, now.containers[cs[i].id], orig[cs[i].id], trace, start)
      ensures cs[i].id in orig && cs[i].id in now.containers
      ensures Smooth(trace, start) ==> SmoothFor(trace, start, cs[i].id)
    {
    }
    if Blocked(cs) {
      var i, j :| 0 <= i < j < |cs| && Blocks(cs[i], cs[j]);
      assert Came(cs, i, now.containers[cs[i].id], orig[cs[i].id], trace, start);
    }
  }

  /** The old containers go, now that the new ones run; a failure is not reported, but leaves one behind. */
  method RemoveOld(d: Docker, cs: seq<Candidate>)
    requires d.Valid() && d.watch.phase.Committed? && (forall c :: c in cs ==> d.Disposable(c.id))
    requires IdsDistinct(cs) && IdsOf(cs) <= d.host.containers.Keys
    modifies d`trace, d`host
    ensures d.Valid() && old(d.trace) <= d.trace
    ensures forall id :: id !in IdsOf(cs) ==> (id in d.host.containers <==> id in old(d.host).containers)
    ensures Submap(d.host.containers, old(d.host).containers)
    ensures AllDone(d.trace, |old(d.trace)|) <==> forall id :: id in IdsOf(cs) ==> id !in d.host.containers
    ensures AllStopped(IdsOf(cs), old(d.host).containers) && NoFault(d.trace, |old(d.trace)|) ==>
      AllDone(d.trace, |old(d.trace)|)
  {
    hide Docker.Valid, AllDone, NoFault;
    ghost var gone := true;
    NothingSince(d.trace);
    for i := 0 to |cs|
      invariant d.Valid() && old(d.trace) <= d.trace
      invariant forall id :: id !in IdsOf(cs) ==> (id in d.host.containers <==> id in old(d.host).containers)
      invariant Submap(d.host.containers, old(d.host).containers)
      invariant gone <==> AllDone(d.trace, |old(d.trace)|)
      invariant AllStopped(IdsOf(cs), old(d.host).containers) && NoFault(d.trace, |old(d.trace)|) ==> gone
      invariant forall j :: i <= j < |cs| ==> cs[j].id in d.host.containers
      invariant gone <==> forall j :: 0 <= j < i ==> cs[j].id !in d.host.containers
    {
      assert cs[i] in cs;
      assert cs[i].id in IdsOf(cs);
      ghost var sofar := d.trace;
      var reply := d.ContainerRemove(cs[i].id, false);
      LastReply(sofar, d.trace, |old(d.trace)|);
      gone := gone && reply.Done?;
      assert forall j :: 0 <= j < |cs| && j != i ==> cs[j].id != cs[i].id;
    }
    if !gone {
      var j :| 0 <= j < |cs| && cs[j].id in d.host.containers;
      assert cs[j] in cs && cs[j].id in IdsOf(cs);
    }
  }

  /** With nothing of this attempt left, only a candidate can hold a candidate's name. */
  lemma RoomToRestore(d: Docker, cs: seq<Candidate>)
    requires d.Valid() && d.watch.touchable == IdsOf(cs) && IdsDistinct(cs)
    requires NamesUnique(d.watch.base.containers) && Plugged(d.watch.base)
    requires forall id :: id in d.host.containers ==> id < d.watch.floor
    requires AllInHand(cs, d.watch.base.containers, d.host.containers)
    ensures Roomy(cs, d.host)
  {
    hide Observed, UpToDate, InHand;
    d.StillSpared();
    forall i | 0 <= i < |cs|
      ensures cs[i] in cs && cs[i].id in IdsOf(cs) && cs[i].id in d.watch.base.containers
      ensures Describes(cs[i], d.watch.base.containers[cs[i].id])
      ensures cs[i].networks.Keys <= d.host.networks.Keys
    {
      assert cs[i] in cs && cs[i].id in IdsOf(cs);
      Described(cs[i], d.watch.base.containers[cs[i].id], d.host.containers[cs[i].id]);
    }
  }

  lemma Described(c: Candidate, orig: Container, now: Container)
    requires InHand(c, orig, now)
    ensures Describes(c, orig)
  {
  }

  lemma LeftInHand(cs: seq<Candidate>, base: map<Id, Container>, was: map<Id, Container>, now: map<Id, Container>,
      gone: set<Id>)
    requires AllInHand(cs, base, was) && gone !! IdsOf(cs)
    requires forall id :: id !in gone ==> (id in now <==> id in was) && (id in now ==> now[id] == was[id])
    ensures AllInHand(cs, base, now) && (OnNoNetwork(cs, was) ==> OnNoNetwork(cs, now))
  {
    hide InHand;
    assert forall i :: 0 <= i < |cs| ==> cs[i] in cs && cs[i].id in IdsOf(cs);
  }

  lemma AsFoundIsUntouched(cs: seq<Candidate>, base: map<Id, Container>, now: map<Id, Container>)
    requires IdsOf(cs) <= base.Keys
    ensures now == base ==> Untouched(cs, 0, base, now)
  {
    assert forall i :: 0 <= i < |cs| ==> cs[i] in cs && cs[i].id in IdsOf(cs);
  }

  lemma StillInHand(cs: seq<Candidate>, orig: map<Id, Container>, before: map<Id, Container>, now: map<Id, Container>)
    requires AllInHand(cs, orig, before) && Submap(before, now)
    ensures AllInHand(cs, orig, now) && (OnNoNetwork(cs, before) ==> OnNoNetwork(cs, now))
  {
  }

  lemma SameIds(cs: seq<Candidate>, r: seq<Candidate>)
    requires SameCandidates(cs, r) && IdsDistinct(cs)
    ensures IdsOf(r) == IdsOf(cs) && IdsDistinct(r)
  {
    forall i | 0 <= i < |cs|
      ensures cs[i].id == r[i].id && r[i].id in IdsOf(cs) && cs[i].id in IdsOf(r)
    {
      assert cs[i] in cs && r[i] in r;
    }
  }

  /** Every candidate restored, and nothing made left behind: the containers found. */
  lemma AllPutBack(d: Docker, cs: seq<Candidate>)
    requires d.Valid() && d.watch.touchable == IdsOf(cs)
    requires forall id :: id in d.host.containers ==> id < d.watch.floor
    requires Untouched(cs, 0, d.watch.base.containers, d.host.containers)
    ensures d.host.containers == d.watch.base.containers
  {
    forall id | id in d.watch.touchable
      ensures id in d.host.containers && d.host.containers[id] == d.watch.base.containers[id]
    {
      var i :| 0 <= i < |cs| && cs[i].id == id;
    }
    d.BackAsFound();
  }

  // ---- what can be put back at all ---------------------------------

  /**
   Whether everything could be put back once all of it was moved aside: no container
   of the stack is called what one of a later service is moved to.
   */
  ghost predicate Restorable(containers: map<Id, Container>, plan: StackPlan)
  {
    forall a, b :: a in StackIds(containers, plan.stackId) && b in StackIds(containers, plan.stackId) ==>
      !InTheWay(containers[a], containers[b], plan.revisionId)
  }

  predicate InTheWay(a: Container, b: Container, revisionId: string)
  {
    && Below(Label(a.labels, STACK_SERVICE), Label(b.labels, STACK_SERVICE))
    && a.name == StagedName(revisionId, Label(b.labels, STACK_SERVICE))
  }

  /** A container of the stack holds the name another one of it had. */
  ghost predicate Crossed(ids: set<Id>, base: map<Id, Container>, now: map<Id, Container>)
  {
    exists a, b :: a in ids && b in ids && a != b && a in base && b in now && now[b].name == base[a].name
  }

  /** Being in the way on the host is being in the way in the records, once everything was moved. */
  lemma BlockedIffUnrestorable(plan: StackPlan, found: seq<Candidate>, cs: seq<Candidate>, base: map<Id, Container>)
    requires Found(found, base, plan.stackId) && SameCandidates(found, cs) && StagedInOrder(plan, cs)
    ensures Restorable(base, plan) ==> !Blocked(cs)
    ensures (forall i :: 0 <= i < |cs| ==> cs[i].stagedName != "") && !Blocked(cs) ==> Restorable(base, plan)
  {
    hide StagedName, Below;
    assert forall i :: 0 <= i < |found| ==> found[i] in found && found[i].id in IdsOf(found);
    if Restorable(base, plan) {
      forall i, j | 0 <= i < j < |cs|
        ensures !Blocks(cs[i], cs[j])
      {
        assert !InTheWay(base[found[i].id], base[found[j].id], plan.revisionId);
      }
    }
    if (forall i :: 0 <= i < |cs| ==> cs[i].stagedName != "") && !Blocked(cs) {
      forall a, b | a in StackIds(base, plan.stackId) && b in StackIds(base, plan.stackId)
        ensures !InTheWay(base[a], base[b], plan.revisionId)
      {
        var i := PlaceOf(found, a);
        var j := PlaceOf(found, b);
        if Below(found[i].service, found[j].service) {
          InServiceOrder(found, i, j);
          assert !Blocks(cs[i], cs[j]);
        }
      }
    }
  }

  lemma PlaceOf(cs: seq<Candidate>, id: Id) returns (i: nat)
    requires id in IdsOf(cs)
    ensures i < |cs| && cs[i].id == id
  {
    var c :| c in cs && c.id == id;
    i :| 0 <= i < |cs| && cs[i] == c;
  }

  lemma InServiceOrder(cs: seq<Candidate>, i: nat, j: nat)
    requires forall k, m :: 0 <= k < m < |cs| ==> Below(cs[k].service, cs[m].service)
    requires i < |cs| && j < |cs| && Below(cs[i].service, cs[j].service)
    ensures i < j
  {
    BelowAsymmetric(cs[i].service, cs[j].service);
    if i == j { BelowAsymmetric(cs[i].service, cs[i].service); }
  }

  /** The records and the host say the same about who stands in whose way. */
  lemma BlockedIffCrossed(plan: StackPlan, cs: seq<Candidate>, base: map<Id, Container>, now: map<Id, Container>)
    requires AllInHand(cs, base, now) && StagedInOrder(plan, cs) && IdsDistinct(cs) && NamesUnique(base)
    requires NamesUnique(now)
    ensures Blocked(cs) <==> Crossed(IdsOf(cs), base, now)
  {
    hide InHand, StagedInOrder, NamesUnique, Blocks;
    assert forall i :: 0 <= i < |cs| ==> cs[i] in cs && cs[i].id in IdsOf(cs);
    if Blocked(cs) {
      var i, j :| 0 <= i < j < |cs| && Blocks(cs[i], cs[j]);
      BlocksOnHost(cs[i], cs[j], base, now);
    }
    if a, b :| a in IdsOf(cs) && b in IdsOf(cs) && a != b && a in base && b in now && now[b].name == base[a].name {
      var i := PlaceOf(cs, a);
      var j := PlaceOf(cs, b);
      CrossedInRecords(plan, cs, base, now, i, j);
    }
  }

  lemma BlocksOnHost(c: Candidate, later: Candidate, base: map<Id, Container>, now: map<Id, Container>)
    requires c.id in base && c.id in now && InHand(c, base[c.id], now[c.id]) && Blocks(c, later)
    requires later.id in base && later.id in now && InHand(later, base[later.id], now[later.id])
    ensures now[later.id].name == base[c.id].name
  {
  }

  lemma CrossedInRecords(plan: StackPlan, cs: seq<Candidate>, base: map<Id, Container>, now: map<Id, Container>, i: nat,
      j: nat)
    requires AllInHand(cs, base, now) && StagedInOrder(plan, cs) && NamesUnique(base) && NamesUnique(now)
    requires i < |cs| && j < |cs| && cs[i].id != cs[j].id && now[cs[j].id].name == base[cs[i].id].name
    ensures i < j && Blocks(cs[i], cs[j])
  {
    hide StagedName;
    assert InHand(cs[i], base[cs[i].id], now[cs[i].id]) && InHand(cs[j], base[cs[j].id], now[cs[j].id]);
  }

  lemma LabelsKept(cs: seq<Candidate>, base: map<Id, Container>, now: map<Id, Container>)
    requires AllInHand(cs, base, now)
    ensures forall id :: id in IdsOf(cs) ==> id in base && id in now && now[id].labels == base[id].labels
  {
    forall id | id in IdsOf(cs)
      ensures id in base && id in now && now[id].labels == base[id].labels
    {
      var i := PlaceOf(cs, id);
      assert InHand(cs[i], base[id], now[id]);
    }
  }

  /** What became of containers put back from a moment on. */
  ghost predicate PutBackFrom(w: Watch, trace: seq<Event>, h: Host, plan: StackPlan, restoring: nat)
    requires 0 < restoring <= |trace|
  {
    var crossed := Crossed(w.touchable, w.base.containers, trace[restoring - 1].after.containers);
    && (Smooth(trace, restoring) ==> h.containers == w.base.containers)
    && (crossed ==> h.containers != w.base.containers)
    && (NoFault(trace, restoring) && !crossed ==> h.containers == w.base.containers)
    && (Restorable(w.base.containers, plan) ==> !crossed)
  }

  /** Moves the old containers aside, or puts them back if that does not work. */
  method Displace(d: Docker, plan: StackPlan, found: seq<Candidate>)
    returns (ok: bool, cs: seq<Candidate>, ghost restoring: nat)
    requires d.Valid() && d.watch.phase.Disturbing? && d.host.containers == d.watch.base.containers
    requires d.watch.from < |d.trace|
    requires d.watch.touchable == StackIds(d.watch.base.containers, plan.stackId)
    requires Found(found, d.host.containers, plan.stackId)
    requires NamesUnique(d.watch.base.containers) && Plugged(d.watch.base)
    modifies d`trace, d`host
    ensures d.Valid() && old(d.trace) <= d.trace && d.host.containers.Keys == d.watch.base.containers.Keys
    ensures IdsOf(cs) == d.watch.touchable && IdsDistinct(cs)
    ensures ok ==> AllInHand(cs, d.watch.base.containers, d.host.containers) && OnNoNetwork(cs, d.host.containers)
    ensures ok ==> AllStopped(d.watch.touchable, d.host.containers)
    ensures ok ==> (Blocked(cs) <==> !Restorable(d.watch.base.containers, plan))
    // A call had failed by the moment it turned back, and from there on the containers are put back.
    ensures !ok ==>
      d.watch.from < restoring <= |d.trace| && |old(d.trace)| <= restoring
      && !AllDone(d.trace[..restoring], |old(d.trace)|)
    ensures !ok ==> PutBackFrom(d.watch, d.trace, d.host, plan, restoring)
  {
    hide Docker.Valid, AllInHand, StackIds, AllDone, Restorable, Blocked, NamesUnique, Plugged, StagedInOrder,
      PutBackFrom, AllAside, Untouched;
    restoring := 0;
    d.IdentifiersGivenOut();
    assert forall c :: c in found ==> c.id in IdsOf(found);
    ghost var base := d.watch.base.containers;
    ghost var reached;
    ok, cs, reached := StageAside(d, plan, found);
    SameIds(found, cs);
    BlockedIffUnrestorable(plan, found, cs, base);
    if ok {
      AsideMeans(plan, cs, d.host.containers);
      return;
    }
    ghost var failed := d.trace;
    restoring := GoBack(d, plan, cs);
    assert d.trace[..restoring] == failed;
  }

  /** Puts back whatever was moved before staging failed. */
  method GoBack(d: Docker, plan: StackPlan, cs: seq<Candidate>) returns (ghost restoring: nat)
    requires d.Valid() && d.watch.phase.Disturbing? && d.watch.from < |d.trace|
    requires d.watch.touchable == IdsOf(cs) && IdsDistinct(cs) && StagedInOrder(plan, cs)
    requires NamesUnique(d.watch.base.containers) && Plugged(d.watch.base)
    requires d.host.containers.Keys == d.watch.base.containers.Keys
    requires AllInHand(cs, d.watch.base.containers, d.host.containers)
    requires Restorable(d.watch.base.containers, plan) ==> !Blocked(cs)
    modifies d`trace, d`host
    ensures d.Valid() && old(d.trace) <= d.trace && d.host.containers.Keys == old(d.host).containers.Keys
    ensures restoring == |old(d.trace)| && PutBackFrom(d.watch, d.trace, d.host, plan, restoring)
  {
    hide Docker.Valid, AllInHand, NoFault, Smooth, AllDone, Restorable, Blocked, Roomy, NamesUnique, Plugged,
      StagedInOrder, Crossed, Untouched, SmoothFor;
    restoring := |d.trace|;
    ghost var base, failed := d.watch.base.containers, d.trace;
    d.LastEvent();
    d.EngineRules();
    d.IdentifiersGivenOut();
    BlockedIffCrossed(plan, cs, base, d.host.containers);
    RoomToRestore(d, cs);
    assert forall c :: c in cs ==> c.id in IdsOf(cs);
    var _ := Restore(d, cs, base);
    if Smooth(d.trace, restoring) { AllPutBack(d, cs); }
    AsFoundIsUntouched(cs, base, d.host.containers);
    assert d.trace[restoring - 1] == failed[restoring - 1];
  }

  lemma AsideMeans(plan: StackPlan, cs: seq<Candidate>, now: map<Id, Container>)
    requires AllAside(plan, cs, now)
    ensures OnNoNetwork(cs, now) && AllStopped(IdsOf(cs), now)
    ensures forall i :: 0 <= i < |cs| ==> cs[i].stagedName != ""
  {
    hide StagedName;
  }
}
