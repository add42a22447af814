/**
 A Docker host as the agent sees it, and a monitor over what is done to it.

 Every call either does what was asked, or is refused by one of the engine's own
 rules, or fails with no effect for a reason nobody controls. The three are kept
 apart in `Reply`, and each call is written to a ghost trace together with the
 host it left behind, so that a claim about "every moment of this operation" is a
 claim about the entries of the trace.

 Nothing else acts while an operation runs, with one exception: a container that
 was just started may already have exited when it is looked at (`MayExit`).

 An operation runs under a `Watch`. The watch says which of the containers that
 were there may be touched at all, and the operation moves through its phases:
 while surveying it may touch no container, while disturbing it may not remove
 one of those, and once committed it may. Each call demands the permission it
 needs, so an operation that verifies never makes a call outside its phase, and
 `Docker.Valid` carries the consequence for every entry of the trace.
 */
module DockerHost {
  import opened Wrappers
  import opened Text
  import opened AgentSpec
  import opened Creation

  type Id = nat

  datatype Container = Container(
    name: string,
    labels: map<string, string>,
    running: bool,
    nets: map<string, seq<string>>,
    volumes: set<string>,
    config: Config)

  const NO_CONFIG := Config("", [], "", [], [], {}, map[], [], "", None)

  /** Built as the specification says, and mounting the volumes it names. */
  ghost predicate BuiltFrom(spec: ContainerSpec, c: Container)
  {
    Renders(spec, c.config) && MountsItsVolumes(spec, c.volumes)
  }

  lemma StillBuilt(spec: ContainerSpec, was: Container, now: Container)
    requires BuiltFrom(spec, was) && now.config == was.config && now.volumes == was.volumes
    ensures BuiltFrom(spec, now)
  {
  }

  /** Networks and volumes are known by name and described by labels. */
  datatype Host = Host(
    containers: map<Id, Container>,
    networks: map<string, map<string, string>>,
    volumes: map<string, map<string, string>>,
    images: set<string>)

  datatype Reply = Done | AlreadyConnected | Refused | Faulted

  datatype Call =
    | List
    | Inspect(id: Id)
    | EnsureImage(image: string)
    | CreateNetwork(network: string)
    | RemoveNetwork(network: string)
    | CreateVolume(volume: string)
    | Create(name: string)
    | Start(id: Id)
    | Stop(id: Id)
    | Exited(id: Id)
    | Rename(id: Id, name: string)
    | Connect(network: string, id: Id)
    | Disconnect(network: string, id: Id)
    | Remove(id: Id)
    | RemoveNamed(name: string)

  datatype Event = Event(call: Call, reply: Reply, after: Host)

  datatype Phase = Surveying | Disturbing(since: nat) | Committed(since: nat, at: nat)

  /** What an operation started from, what it may touch, and which of that nobody wants back. */
  datatype Watch = Watch(base: Host, from: nat, touchable: set<Id>, expendable: set<Id>, floor: Id, phase: Phase)

  ghost predicate Submap<K, V>(a: map<K, V>, b: map<K, V>)
  {
    forall k :: k in a ==> k in b && b[k] == a[k]
  }

  /**
   Networks and volumes that were there still are, and so is every container that
   may not be touched, unchanged. Identifiers from the floor up are this operation's.
   */
  ghost predicate Spared(w: Watch, h: Host)
  {
    && Submap(w.base.networks, h.networks) && Submap(w.base.volumes, h.volumes)
    && forall k :: k < w.floor && k !in w.touchable ==>
         && (k in h.containers <==> k in w.base.containers)
         && (k in w.base.containers ==> h.containers[k] == w.base.containers[k])
  }

  /** What the watch says of the host after the i-th event. */
  ghost predicate Obeys(w: Watch, i: nat, h: Host)
  {
    && Spared(w, h)
    && (w.phase.Surveying? || i < w.phase.since ==> h.containers == w.base.containers)
    && (!w.phase.Committed? || i < w.phase.at ==> w.touchable - w.expendable <= h.containers.Keys)
  }

  /** At every moment since the operation began. */
  ghost predicate Observed(w: Watch, trace: seq<Event>)
  {
    && w.from <= |trace|
    && (!w.phase.Surveying? ==> w.from <= w.phase.since <= |trace|)
    && (w.phase.Committed? ==> w.phase.since <= w.phase.at <= |trace|)
    && forall i :: w.from <= i < |trace| ==> Obeys(w, i, trace[i].after)
  }

  /** The host is what the last call since the operation began left behind. */
  ghost predicate UpToDate(w: Watch, trace: seq<Event>, h: Host)
  {
    w.from < |trace| ==> trace[|trace| - 1].after == h
  }

  /** No container seen since then has an identifier from here up. */
  ghost predicate SeenBelow(trace: seq<Event>, from: nat, bound: Id)
  {
    forall i, id :: from <= i < |trace| && id in trace[i].after.containers ==> id < bound
  }

  ghost predicate NamesUnique(containers: map<Id, Container>)
  {
    forall a, b :: a in containers && b in containers && a != b ==> containers[a].name != containers[b].name
  }

  predicate NameTaken(h: Host, name: string)
  {
    exists id :: id in h.containers && h.containers[id].name == name
  }

  predicate InUse(h: Host, network: string)
  {
    exists id :: id in h.containers && network in h.containers[id].nets
  }

  function Put(h: Host, id: Id, c: Container): Host
  {
    h.(containers := h.containers[id := c])
  }

  /** A container is only on networks that exist. */
  ghost predicate Plugged(h: Host)
  {
    forall id :: id in h.containers ==> h.containers[id].nets.Keys <= h.networks.Keys
  }

  /** Every call since then did what it was asked. */
  ghost predicate AllDone(trace: seq<Event>, from: nat)
  {
    forall i :: from <= i < |trace| ==> trace[i].reply.Done?
  }

  /** Every call since then did what it was asked, or asked for what was already so. */
  ghost predicate Smooth(trace: seq<Event>, from: nat)
  {
    forall i :: from <= i < |trace| ==> trace[i].reply.Done? || trace[i].reply.AlreadyConnected?
  }

  /** No call since then failed for a reason nobody controls. */
  ghost predicate NoFault(trace: seq<Event>, from: nat)
  {
    forall i :: from <= i < |trace| ==> !trace[i].reply.Faulted?
  }

  /** Every container started since then was still running when it was looked at. */
  ghost predicate StayedUp(trace: seq<Event>, from: nat)
  {
    forall i :: from <= i < |trace| && trace[i].call.Exited? ==> RunsAfter(trace[i], trace[i].call.id)
  }

  /** Nothing went wrong since then: every call was done and whatever was started stayed up. */
  ghost predicate Flawless(trace: seq<Event>, from: nat)
  {
    AllDone(trace, from) && StayedUp(trace, from)
  }

  lemma Flawed(before: seq<Event>, after: seq<Event>, from: nat, earlier: nat)
    requires before <= after && earlier <= from && !Flawless(before, from)
    ensures !Flawless(after, earlier)
  {
    if !AllDone(before, from) {
      StillSpoilt(before, after, from, earlier);
    } else {
      var i :| from <= i < |before| && before[i].call.Exited? && !RunsAfter(before[i], before[i].call.id);
      assert after[i] == before[i];
    }
  }

  predicate RunsAfter(e: Event, id: Id)
  {
    id in e.after.containers && e.after.containers[id].running
  }

  /** The container a call is about, if it is about one. */
  predicate About(call: Call, id: Id)
  {
    match call
    case Inspect(k) => k == id
    case Start(k) => k == id
    case Stop(k) => k == id
    case Exited(k) => k == id
    case Rename(k, _) => k == id
    case Connect(_, k) => k == id
    case Disconnect(_, k) => k == id
    case Remove(k) => k == id
    case _ => false
  }

  /** One call that was not done is enough, wherever one began to count and whatever came after. */
  lemma Spoilt(trace: seq<Event>, from: nat, at: nat)
    requires from <= at < |trace| && !trace[at].reply.Done?
    ensures !AllDone(trace, from)
  {
  }

  lemma StillSpoilt(before: seq<Event>, after: seq<Event>, from: nat, earlier: nat)
    requires before <= after && earlier <= from && !AllDone(before, from)
    ensures !AllDone(after, earlier)
  {
    var i :| from <= i < |before| && !before[i].reply.Done?;
    assert after[i] == before[i];
  }

  lemma Faulty(trace: seq<Event>, from: nat, at: nat)
    requires from <= at < |trace| && trace[at].reply.Faulted?
    ensures !NoFault(trace, from)
  {
  }

  lemma NothingSince(trace: seq<Event>)
    ensures AllDone(trace, |trace|) && Smooth(trace, |trace|) && NoFault(trace, |trace|)
  {
  }

  lemma LastReply(before: seq<Event>, after: seq<Event>, from: nat)
    requires from <= |before| && |after| == |before| + 1 && after[..|before|] == before
    ensures NoFault(after, from) <==> NoFault(before, from) && !after[|before|].reply.Faulted?
    ensures AllDone(after, from) <==> AllDone(before, from) && after[|before|].reply.Done?
    ensures Smooth(after, from) <==>
      Smooth(before, from) && (after[|before|].reply.Done? || after[|before|].reply.AlreadyConnected?)
  {
    assert forall i :: 0 <= i < |before| ==> after[i] == before[i];
  }

  /** These containers are there unchanged at every moment since then. */
  ghost predicate KeptThrough(kept: map<Id, Container>, trace: seq<Event>, from: nat)
  {
    forall i :: from <= i < |trace| ==> Submap(kept, trace[i].after.containers)
  }

  lemma KeptOneMore(kept: map<Id, Container>, before: seq<Event>, after: seq<Event>, from: nat)
    requires KeptThrough(kept, before, from) && |after| == |before| + 1 && after[..|before|] == before
    requires Submap(kept, after[|before|].after.containers)
    ensures KeptThrough(kept, after, from)
  {
    assert forall i :: 0 <= i < |before| ==> after[i] == before[i];
  }

  lemma KeptBoth(kept: map<Id, Container>, fewer: map<Id, Container>, trace: seq<Event>, from: nat, mid: nat)
    requires from <= mid <= |trace| && KeptThrough(kept, trace[..mid], from) && KeptThrough(fewer, trace, mid)
    requires Submap(kept, fewer)
    ensures KeptThrough(kept, trace, from)
  {
    forall i | from <= i < |trace|
      ensures Submap(kept, trace[i].after.containers)
    {
      if i < mid { assert trace[..mid][i] == trace[i]; }
    }
  }

  lemma RepliesSplit(trace: seq<Event>, from: nat, mid: nat)
    requires from <= mid <= |trace|
    ensures AllDone(trace, from) <==> AllDone(trace[..mid], from) && AllDone(trace, mid)
    ensures Smooth(trace, from) <==> Smooth(trace[..mid], from) && Smooth(trace, mid)
    ensures NoFault(trace, from) <==> NoFault(trace[..mid], from) && NoFault(trace, mid)
  {
    assert forall i :: 0 <= i < mid ==> trace[..mid][i] == trace[i];
  }

  class Docker {
    var host: Host
    /** Identifiers below this one have been given out; no identifier is given out twice. */
    var minted: Id
    ghost var trace: seq<Event>
    ghost var watch: Watch

    ghost predicate Valid()
      reads this
    {
      && (forall id :: id in host.containers ==> id < minted) && NamesUnique(host.containers) && Plugged(host)
      && watch.floor <= minted && (forall id :: id in watch.base.containers ==> id < watch.floor)
      && watch.touchable <= watch.base.containers.Keys
      && Observed(watch, trace) && Obeys(watch, |trace|, host) && UpToDate(watch, trace, host)
      && SeenBelow(trace, watch.from, minted)
    }

    /** Whether the container may be started, stopped, renamed or moved between networks. */
    ghost predicate Mine(id: Id)
      reads this`watch
    {
      !watch.phase.Surveying? && (id in watch.touchable || id >= watch.floor)
    }

    /** Whether the container may be removed. */
    ghost predicate Disposable(id: Id)
      reads this`watch
    {
      && !watch.phase.Surveying?
      && (id >= watch.floor || (id in watch.touchable && (watch.phase.Committed? || id in watch.expendable)))
    }

    lemma IdentifiersGivenOut()
      requires Valid()
      ensures forall id :: id in host.containers ==> id < minted
      ensures SeenBelow(trace, watch.from, minted)
      ensures watch.from <= |trace| && watch.floor <= minted && watch.touchable <= watch.base.containers.Keys
      ensures forall id :: id in watch.base.containers ==> id < watch.floor
    {
    }

    lemma EngineRules()
      requires Valid()
      ensures NamesUnique(host.containers) && Plugged(host)
    {
    }

    lemma LastEvent()
      requires Valid() && watch.from < |trace|
      ensures trace[|trace| - 1].after == host
    {
    }

    lemma StillSpared()
      requires Valid()
      ensures Spared(watch, host)
    {
    }

    /** With nothing made left and everything touched put back, the containers are those found. */
    lemma BackAsFound()
      requires Valid()
      requires forall id :: id in host.containers ==> id < watch.floor
      requires forall id :: id in watch.touchable ==>
        id in host.containers && host.containers[id] == watch.base.containers[id]
      ensures host.containers == watch.base.containers
    {
      assert Spared(watch, host);
      assert host.containers.Keys == watch.base.containers.Keys;
    }

    /** An operation begins; whatever was watched before is over. */
    ghost method Begin()
      requires Valid()
      modifies this`watch
      ensures Valid() && watch == Watch(host, |trace|, {}, {}, minted, Surveying)
    {
      watch := Watch(host, |trace|, {}, {}, minted, Surveying);
    }

    /** From here on these containers may be touched, and the expendable ones removed. */
    ghost method Disturb(ids: set<Id>, expendable: set<Id>)
      requires Valid() && watch.phase.Surveying? && watch.touchable == {} && ids <= watch.base.containers.Keys
      modifies this`watch
      ensures Valid() && watch == old(watch).(touchable := ids, expendable := expendable, phase := Disturbing(|trace|))
    {
      watch := watch.(touchable := ids, expendable := expendable, phase := Disturbing(|trace|));
    }

    /** From here on they may be removed. */
    ghost method Commit()
      requires Valid() && watch.phase.Disturbing?
      modifies this`watch
      ensures Valid() && watch == old(watch).(phase := Committed(old(watch).phase.since, |trace|))
    {
      watch := watch.(phase := Committed(watch.phase.since, |trace|));
    }

    ghost method Record(call: Call, reply: Reply)
      requires (forall id :: id in host.containers ==> id < minted) && NamesUnique(host.containers) && Plugged(host)
      requires watch.floor <= minted && (forall id :: id in watch.base.containers ==> id < watch.floor)
      requires watch.touchable <= watch.base.containers.Keys
      requires Observed(watch, trace) && Obeys(watch, |trace|, host) && SeenBelow(trace, watch.from, minted)
      modifies this`trace
      ensures trace == old(trace) + [Event(call, reply, host)] && Valid()
    {
      trace := trace + [Event(call, reply, host)];
    }

    /** Everything on the host, running or not, in whatever order Docker lists it. */
    method ContainerList() returns (reply: Reply, listed: seq<Id>)
      requires Valid()
      modifies this`trace
      ensures Valid() && trace == old(trace) + [Event(List, reply, host)]
      ensures reply == Done || reply == Faulted
      ensures reply.Done? ==> Distinct(listed) && Members(listed) == host.containers.Keys
    {
      listed := [];
      if * {
        reply := Faulted;
      } else {
        reply := Done;
        var unseen := host.containers.Keys;
        while unseen != {}
          invariant unseen <= host.containers.Keys
          invariant Distinct(listed) && Members(listed) == host.containers.Keys - unseen
          decreases unseen
          modifies {}
        {
          var id :| id in unseen;
          DistinctConcat(listed, [id]);
          listed := listed + [id];
          unseen := unseen - {id};
        }
      }
      Record(List, reply);
    }

    method ContainerInspect(id: Id) returns (reply: Reply, found: Container)
      requires Valid()
      modifies this`trace
      ensures Valid() && trace == old(trace) + [Event(Inspect(id), reply, host)]
      ensures (reply.Refused? <==> id !in host.containers) && !reply.AlreadyConnected?
      ensures reply.Done? ==> found == host.containers[id]
    {
      found := Container("", map[], false, map[], {}, NO_CONFIG);
      if id !in host.containers {
        reply := Refused;
      } else if * {
        reply := Faulted;
      } else {
        reply, found := Done, host.containers[id];
      }
      Record(Inspect(id), reply);
    }

    method NetworkList() returns (reply: Reply, networks: map<string, map<string, string>>)
      requires Valid()
      modifies this`trace
      ensures Valid() && trace == old(trace) + [Event(List, reply, host)]
      ensures reply == Done || reply == Faulted
      ensures networks == host.networks
    {
      reply, networks := Done, host.networks;
      if * { reply := Faulted; }
      Record(List, reply);
    }

    method VolumeList() returns (reply: Reply, volumes: map<string, map<string, string>>)
      requires Valid()
      modifies this`trace
      ensures Valid() && trace == old(trace) + [Event(List, reply, host)]
      ensures reply == Done || reply == Faulted
      ensures volumes == host.volumes
    {
      reply, volumes := Done, host.volumes;
      if * { reply := Faulted; }
      Record(List, reply);
    }

    /** Looks for the image and pulls it if it is not there. */
    method ImageEnsure(image: string) returns (reply: Reply)
      requires Valid()
      modifies this`trace, this`host
      ensures Valid() && trace == old(trace) + [Event(EnsureImage(image), reply, host)]
      ensures reply == Done || reply == Faulted
      ensures reply.Faulted? ==> image !in host.images
      ensures host == if reply.Done? then old(host).(images := old(host).images + {image}) else old(host)
    {
      if image in host.images {
        reply := Done;
        assert host.images + {image} == host.images;
      } else if * {
        reply := Faulted;
      } else {
        reply := Done;
        host := host.(images := host.images + {image});
      }
      Record(EnsureImage(image), reply);
    }

    method NetworkCreate(name: string, labels: map<string, string>) returns (reply: Reply)
      requires Valid()
      modifies this`trace, this`host
      ensures Valid() && trace == old(trace) + [Event(CreateNetwork(name), reply, host)]
      ensures (reply.Refused? <==> name in old(host).networks) && !reply.AlreadyConnected?
      ensures host == if reply.Done? then old(host).(networks := old(host).networks[name := labels]) else old(host)
    {
      if name in host.networks {
        reply := Refused;
      } else if * {
        reply := Faulted;
      } else {
        reply := Done;
        host := host.(networks := host.networks[name := labels]);
      }
      Record(CreateNetwork(name), reply);
    }

    /** Only a network that was not there before; one that is in use is not removed. */
    method NetworkRemove(name: string) returns (reply: Reply)
      requires Valid() && name !in watch.base.networks
      modifies this`trace, this`host
      ensures Valid() && trace == old(trace) + [Event(RemoveNetwork(name), reply, host)] && !reply.AlreadyConnected?
      ensures reply.Refused? <==> name !in old(host).networks || InUse(old(host), name)
      ensures host == if reply.Done? then old(host).(networks := old(host).networks - {name}) else old(host)
    {
      if name !in host.networks || InUse(host, name) {
        reply := Refused;
      } else if * {
        reply := Faulted;
      } else {
        reply := Done;
        host := host.(networks := host.networks - {name});
      }
      Record(RemoveNetwork(name), reply);
    }

    /** Creating a volume that exists hands the existing one back. */
    method VolumeCreate(name: string, labels: map<string, string>) returns (reply: Reply)
      requires Valid()
      modifies this`trace, this`host
      ensures Valid() && trace == old(trace) + [Event(CreateVolume(name), reply, host)]
      ensures reply == Done || reply == Faulted
      ensures !reply.Done? || name in old(host).volumes ==> host == old(host)
      ensures reply.Done? && name !in old(host).volumes ==>
        host == old(host).(volumes := old(host).volumes[name := labels])
    {
      if * {
        reply := Faulted;
      } else {
        reply := Done;
        if name !in host.volumes { host := host.(volumes := host.volumes[name := labels]); }
      }
      Record(CreateVolume(name), reply);
    }

    /**
     A new container is stopped and mounts the volumes it is built with; which networks
     Docker first puts it on is left open.
     */
    method ContainerCreate(name: string, labels: map<string, string>, config: Config)
      returns (reply: Reply, id: Id)
      requires Valid() && !watch.phase.Surveying?
      modifies this`trace, this`host, this`minted
      ensures Valid() && trace == old(trace) + [Event(Create(name), reply, host)]
      ensures id == old(minted) && minted == id + 1 && Mine(id)
      ensures (reply.Refused? <==> NameTaken(old(host), name)) && !reply.AlreadyConnected?
      ensures !reply.Done? ==> host == old(host)
      ensures reply.Done? ==>
        && id in host.containers && host == Put(old(host), id, host.containers[id])
        && host.containers[id] == Container(name, labels, false, host.containers[id].nets, VolumesIn(config), config)
    {
      id := minted;
      minted := minted + 1;
      if NameTaken(host, name) {
        reply := Refused;
      } else if * {
        reply := Faulted;
      } else {
        reply := Done;
        var nets: map<string, seq<string>> := *;
        if !(nets.Keys <= host.networks.Keys) { nets := map[]; }
        host := Put(host, id, Container(name, labels, false, nets, VolumesIn(config), config));
      }
      Record(Create(name), reply);
    }

    /** Starting a container that runs already is not an error. */
    method ContainerStart(id: Id) returns (reply: Reply)
      requires Valid() && Mine(id)
      modifies this`trace, this`host
      ensures Valid() && trace == old(trace) + [Event(Start(id), reply, host)] && !reply.AlreadyConnected?
      ensures reply.Refused? <==> id !in old(host).containers
      ensures host == if reply.Done? then Put(old(host), id, old(host).containers[id].(running := true)) else old(host)
    {
      if id !in host.containers {
        reply := Refused;
      } else if * {
        reply := Faulted;
      } else {
        reply := Done;
        host := Put(host, id, host.containers[id].(running := true));
      }
      Record(Start(id), reply);
    }

    method ContainerStop(id: Id) returns (reply: Reply)
      requires Valid() && Mine(id)
      modifies this`trace, this`host
      ensures Valid() && trace == old(trace) + [Event(Stop(id), reply, host)] && !reply.AlreadyConnected?
      ensures reply.Refused? <==> id !in old(host).containers
      ensures host == if reply.Done? then Put(old(host), id, old(host).containers[id].(running := false)) else old(host)
    {
      if id !in host.containers {
        reply := Refused;
      } else if * {
        reply := Faulted;
      } else {
        reply := Done;
        host := Put(host, id, host.containers[id].(running := false));
      }
      Record(Stop(id), reply);
    }

    /** The process of a container just started may be gone by the time anybody looks. */
    method MayExit(id: Id)
      requires Valid() && Mine(id) && id in host.containers
      modifies this`trace, this`host
      ensures Valid() && trace == old(trace) + [Event(Exited(id), Done, host)]
      ensures host == old(host) || host == Put(old(host), id, old(host).containers[id].(running := false))
    {
      if * {
        host := Put(host, id, host.containers[id].(running := false));
      }
      Record(Exited(id), Done);
    }

    method ContainerRename(id: Id, name: string) returns (reply: Reply)
      requires Valid() && Mine(id)
      modifies this`trace, this`host
      ensures Valid() && trace == old(trace) + [Event(Rename(id, name), reply, host)] && !reply.AlreadyConnected?
      ensures reply.Refused? <==> id !in old(host).containers || NameTaken(old(host), name)
      ensures host == if reply.Done? then Put(old(host), id, old(host).containers[id].(name := name)) else old(host)
    {
      if id !in host.containers || NameTaken(host, name) {
        reply := Refused;
      } else if * {
        reply := Faulted;
      } else {
        reply := Done;
        host := Put(host, id, host.containers[id].(name := name));
      }
      Record(Rename(id, name), reply);
    }

    method NetworkConnect(network: string, id: Id, aliases: seq<string>) returns (reply: Reply)
      requires Valid() && Mine(id)
      modifies this`trace, this`host
      ensures Valid() && trace == old(trace) + [Event(Connect(network, id), reply, host)]
      ensures reply.AlreadyConnected? <==> id in old(host).containers && network in old(host).containers[id].nets
      ensures reply.Refused? <==>
        !reply.AlreadyConnected? && (id !in old(host).containers || network !in old(host).networks)
      ensures host ==
        if reply.Done? then
          Put(old(host), id, old(host).containers[id].(nets := old(host).containers[id].nets[network := aliases]))
        else old(host)
    {
      if id !in host.containers {
        reply := Refused;
      } else if network in host.containers[id].nets {
        reply := AlreadyConnected;
      } else if network !in host.networks {
        reply := Refused;
      } else if * {
        reply := Faulted;
      } else {
        reply := Done;
        host := Put(host, id, host.containers[id].(nets := host.containers[id].nets[network := aliases]));
      }
      Record(Connect(network, id), reply);
    }

    method NetworkDisconnect(network: string, id: Id) returns (reply: Reply)
      requires Valid() && Mine(id)
      modifies this`trace, this`host
      ensures Valid() && trace == old(trace) + [Event(Disconnect(network, id), reply, host)] && !reply.AlreadyConnected?
      ensures reply.Refused? <==> id !in old(host).containers || network !in old(host).containers[id].nets
      ensures host ==
        if reply.Done? then
          Put(old(host), id, old(host).containers[id].(nets := old(host).containers[id].nets - {network}))
        else old(host)
    {
      if id !in host.containers || network !in host.containers[id].nets {
        reply := Refused;
      } else if * {
        reply := Faulted;
      } else {
        reply := Done;
        host := Put(host, id, host.containers[id].(nets := host.containers[id].nets - {network}));
      }
      Record(Disconnect(network, id), reply);
    }

    /** The volumes of a removed container stay; a running one goes only by force. */
    method ContainerRemove(id: Id, force: bool) returns (reply: Reply)
      requires Valid() && Disposable(id)
      modifies this`trace, this`host
      ensures Valid() && trace == old(trace) + [Event(Remove(id), reply, host)] && !reply.AlreadyConnected?
      ensures reply.Refused? <==> id !in old(host).containers || (old(host).containers[id].running && !force)
      ensures host == if reply.Done? then old(host).(containers := old(host).containers - {id}) else old(host)
    {
      if id !in host.containers || (host.containers[id].running && !force) {
        reply := Refused;
      } else if * {
        reply := Faulted;
      } else {
        reply := Done;
        host := host.(containers := host.containers - {id});
      }
      Record(Remove(id), reply);
    }

    /** Removes by force whatever holds a name. */
    method ContainerRemoveNamed(name: string) returns (reply: Reply)
      requires Valid() && (forall id :: id in host.containers && host.containers[id].name == name ==> Disposable(id))
      modifies this`trace, this`host
      ensures Valid() && trace == old(trace) + [Event(RemoveNamed(name), reply, host)] && !reply.AlreadyConnected?
      ensures Submap(host.containers, old(host).containers) && host == old(host).(containers := host.containers)
      ensures forall id :: id in old(host).containers && id !in host.containers ==>
        old(host).containers[id].name == name
      ensures (reply.Refused? <==> !NameTaken(old(host), name)) && (reply.Done? ==> !NameTaken(host, name))
      ensures !reply.Done? ==> host == old(host)
    {
      if !NameTaken(host, name) {
        reply := Refused;
      } else if * {
        reply := Faulted;
      } else {
        reply := Done;
        var id :| id in host.containers && host.containers[id].name == name;
        host := host.(containers := host.containers - {id});
      }
      Record(RemoveNamed(name), reply);
    }
  }
}
