/**
 Replacing one container (agent/internal/docker/manage.go).

 The replacement is built under a temporary name, the original is stopped and
 renamed aside, and it is removed only after the replacement was observed
 running. A failure after the original was disturbed is compensated.

 Two names matter. The temporary names are cleared by name and by force before
 they are used, so a container that holds one of them is expendable, whoever it
 belongs to; and a compensated original comes back under the name of the
 specification, which is its own name only if it held that name before.
 */
module ContainerReplace {
  import opened Wrappers
  import opened AgentSpec
  import opened Creation
  import opened DockerHost

  datatype ReplaceError = SpecInvalid | ContainerMissing | ImageUnavailable | OperationFailed

  datatype ReplaceResult =
    | Replaced(id: Id)
    | NotReplaced(error: ReplaceError)
    | RolledBack

  const STAGING_SUFFIX := ".dockplane-new"
  const RETIRED_SUFFIX := ".dockplane-old"

  function StagingName(name: string): string { name + STAGING_SUFFIX }
  function RetiredName(name: string): string { name + RETIRED_SUFFIX }

  /** The three names are different names. */
  lemma NamesDiffer(name: string)
    ensures StagingName(name) != name && RetiredName(name) != name && StagingName(name) != RetiredName(name)
  {
    assert |StagingName(name)| == |name| + 14 && |RetiredName(name)| == |name| + 14;
    assert StagingName(name)[|name| + 11] == 'n' && RetiredName(name)[|name| + 11] == 'o';
  }

  predicate HoldsTemporary(c: Container, name: string)
  {
    c.name == StagingName(name) || c.name == RetiredName(name)
  }

  /** Whatever holds one of the temporary names. */
  function Leftovers(h: Host, name: string): set<Id>
  {
    set id | id in h.containers && HoldsTemporary(h.containers[id], name)
  }

  /** What the replacement is once it has taken over. */
  ghost predicate TakenOver(spec: ContainerSpec, labels: map<string, string>, c: Container)
  {
    && c.running && c.name == spec.name && c.labels == labels && BuiltFrom(spec, c)
    && forall n :: n in spec.networks ==> n in c.nets && c.nets[n] == []
  }

  /** The original back where a compensated failure leaves it. */
  ghost predicate PutBack(orig: Container, now: Container, name: string)
  {
    now == orig.(name := name)
  }

  /** The replacement is started only under its name and on its networks. */
  ghost predicate StartedInPlace(trace: seq<Event>, from: nat, id: Id, spec: ContainerSpec)
  {
    forall i :: from <= i < |trace| && trace[i].call.Start? ==>
      id in trace[i].after.containers && InPlace(trace[i].after.containers[id], spec)
  }

  predicate InPlace(c: Container, spec: ContainerSpec)
  {
    c.name == spec.name && forall n :: n in spec.networks ==> n in c.nets
  }

  /** A rollback is reported exactly when the replacement was started and then looked at. */
  ghost predicate SaysWhy(r: ReplaceResult, trace: seq<Event>, turned: nat)
  {
    0 < turned <= |trace| && (r == RolledBack <==> trace[turned - 1].call.Inspect?)
  }

  /** The original was given the name it is kept under while the replacement takes over. */
  ghost predicate Retired(trace: seq<Event>, from: nat, id: Id, name: string)
  {
    exists i :: from <= i < |trace| && trace[i].call == Rename(id, RetiredName(name)) && trace[i].reply.Done?
  }

  /** Whatever held this name was removed for holding it. */
  ghost predicate ClearedAway(trace: seq<Event>, from: nat, name: string)
  {
    exists i :: from <= i < |trace| && trace[i].call == RemoveNamed(name) && trace[i].reply.Done?
  }

  /** The call did what it was for; there may be nothing to clear, and what was started stayed up. */
  predicate Well(e: Event)
  {
    (e.call.RemoveNamed? || e.reply.Done?) && (e.call.Exited? ==> RunsAfter(e, e.call.id))
  }

  ghost predicate WentWell(trace: seq<Event>, from: nat)
  {
    forall i :: from <= i < |trace| ==> Well(trace[i])
  }

  lemma WentWrong(trace: seq<Event>, from: nat, at: nat)
    requires from <= at < |trace| && !Well(trace[at])
    ensures !WentWell(trace, from)
  {
  }

  lemma StillWrong(before: seq<Event>, after: seq<Event>, from: nat, earlier: nat)
    requires before <= after && earlier <= from && !WentWell(before, from)
    ensures !WentWell(after, earlier)
  {
    var i :| from <= i < |before| && !Well(before[i]);
    assert after[i] == before[i];
  }

  /** Neither clears a name nor renames the original. */
  ghost predicate Quiet(trace: seq<Event>, from: nat, original: Id)
  {
    forall i :: from <= i < |trace| ==>
      !trace[i].call.RemoveNamed? && !(trace[i].call.Rename? && trace[i].call.id == original)
  }

  ghost predicate NoClearing(trace: seq<Event>, from: nat)
  {
    forall i :: from <= i < |trace| ==> !trace[i].call.RemoveNamed?
  }

  /** Nothing made by this operation is there but the replacement. */
  ghost predicate OnlyMade(d: Docker, replacement: Id)
    reads d
  {
    forall id :: id in d.host.containers && id >= d.watch.floor ==> id == replacement
  }

  /** Nobody but these two could hold this name. */
  ghost predicate NobodyElse(h: Host, name: string, original: Id, replacement: Id)
  {
    forall id :: id in h.containers && id != original && id != replacement ==> h.containers[id].name != name
  }

  /** The compensation: the replacement goes, the original gets the name and is started if it ran. */
  method Compensate(d: Docker, replacement: Id, original: Id, name: string, wasRunning: bool, ghost orig: Container)
    requires d.Valid() && d.Disposable(replacement) && d.Mine(original) && original != replacement
    requires OnlyMade(d, replacement)
    requires original in d.host.containers
    requires d.host.containers[original] == orig.(name := d.host.containers[original].name, running := false)
    requires wasRunning == orig.running && replacement in d.host.containers && d.host.containers[original].name != name
    modifies d`trace, d`host
    ensures NoFault(d.trace, |old(d.trace)|) && NobodyElse(old(d.host), name, original, replacement) ==>
      AllDone(d.trace, |old(d.trace)|)
    ensures d.Valid() && old(d.trace) <= d.trace && OnlyMade(d, replacement)
    ensures original in d.host.containers && NoClearing(d.trace, |old(d.trace)|)
    ensures AllDone(d.trace, |old(d.trace)|) ==>
      replacement !in d.host.containers && PutBack(orig, d.host.containers[original], name)
  {
    hide Docker.Valid, AllDone, NoFault, Smooth;
    ghost var from := |d.trace|;
    NothingSince(d.trace);
    var removed := d.ContainerRemove(replacement, true);
    LastReply(old(d.trace), d.trace, from);
    ghost var sofar := d.trace;
    var renamed := d.ContainerRename(original, name);
    LastReply(sofar, d.trace, from);
    if wasRunning {
      sofar := d.trace;
      var started := d.ContainerStart(original);
      LastReply(sofar, d.trace, from);
    }
  }

  /** Joins every network the specification names. */
  method ConnectNetworks(d: Docker, id: Id, spec: ContainerSpec) returns (ok: bool)
    requires d.Valid() && d.Mine(id) && id in d.host.containers
    modifies d`trace, d`host
    ensures d.Valid() && old(d.trace) <= d.trace && id in d.host.containers
    ensures d.host == Put(old(d.host), id, old(d.host).containers[id].(nets := d.host.containers[id].nets))
    ensures ok ==>
      forall n :: n in spec.networks ==> n in d.host.containers[id].nets && d.host.containers[id].nets[n] == []
    ensures NoClearing(d.trace, |old(d.trace)|) && (!ok ==> !WentWell(d.trace, |old(d.trace)|))
    ensures !ok ==> |old(d.trace)| < |d.trace|
    ensures forall i :: |old(d.trace)| <= i < |d.trace| ==> d.trace[i].call.Connect?
  {
    hide Docker.Valid, WentWell;
    for i := 0 to |spec.networks|
      invariant d.Valid() && old(d.trace) <= d.trace && id in d.host.containers
      invariant d.host == Put(old(d.host), id, old(d.host).containers[id].(nets := d.host.containers[id].nets))
      invariant forall n :: n in spec.networks[..i] ==>
        n in d.host.containers[id].nets && d.host.containers[id].nets[n] == []
      invariant NoClearing(d.trace, |old(d.trace)|)
      invariant forall k :: |old(d.trace)| <= k < |d.trace| ==> d.trace[k].call.Connect?
    {
      var joined := d.NetworkConnect(spec.networks[i], id, []);
      if !joined.Done? {
        WentWrong(d.trace, |old(d.trace)|, |d.trace| - 1);
        return false;
      }
    }
    assert spec.networks[..|spec.networks|] == spec.networks;
    return true;
  }

  /** Gives the replacement its name, its networks and a start, and looks whether it stays up. */
  method BringUp(d: Docker, id: Id, spec: ContainerSpec) returns (failed: Option<ReplaceResult>)
    requires d.Valid() && d.Mine(id) && id in d.host.containers && BuiltFrom(spec, d.host.containers[id])
    modifies d`trace, d`host
    ensures d.Valid() && old(d.trace) < d.trace && id in d.host.containers
    ensures d.host == Put(old(d.host), id, d.host.containers[id])
    ensures failed.Some? ==> failed.value == RolledBack || failed.value == NotReplaced(OperationFailed)
    ensures failed.None? ==> TakenOver(spec, old(d.host).containers[id].labels, d.host.containers[id])
    ensures StartedInPlace(d.trace, |old(d.trace)|, id, spec)
    ensures failed.Some? ==> (failed.value == RolledBack <==> d.trace[|d.trace| - 1].call.Inspect?)
    ensures NoClearing(d.trace, |old(d.trace)|) && (failed.Some? ==> !WentWell(d.trace, |old(d.trace)|))
  {
    hide Docker.Valid, WentWell, TakenOver, NameTaken, BuiltFrom;
    var renamed := d.ContainerRename(id, spec.name);
    if !renamed.Done? {
      WentWrong(d.trace, |old(d.trace)|, |d.trace| - 1);
      return Some(NotReplaced(OperationFailed));
    }
    ghost var sofar := d.trace;
    var joined := ConnectNetworks(d, id, spec);
    if !joined {
      StillWrong(d.trace, d.trace, |sofar|, |old(d.trace)|);
      return Some(NotReplaced(OperationFailed));
    }
    sofar := d.trace;
    failed := StartAndLook(d, id, spec);
    StillBuilt(spec, old(d.host).containers[id], d.host.containers[id]);
    HasTakenOver(spec, old(d.host).containers[id].labels, d.host.containers[id]);
    if failed.Some? { StillWrong(d.trace, d.trace, |sofar|, |old(d.trace)|); }
  }

  lemma HasTakenOver(spec: ContainerSpec, labels: map<string, string>, c: Container)
    requires c.name == spec.name && c.labels == labels && BuiltFrom(spec, c)
    requires forall n :: n in spec.networks ==> n in c.nets && c.nets[n] == []
    ensures c.running ==> TakenOver(spec, labels, c)
  {
  }

  method StartAndLook(d: Docker, id: Id, ghost spec: ContainerSpec) returns (failed: Option<ReplaceResult>)
    requires d.Valid() && d.Mine(id) && id in d.host.containers && InPlace(d.host.containers[id], spec)
    modifies d`trace, d`host
    ensures d.Valid() && old(d.trace) < d.trace && id in d.host.containers
    ensures d.host == Put(old(d.host), id, old(d.host).containers[id].(running := d.host.containers[id].running))
    ensures failed.Some? ==> failed.value == RolledBack || failed.value == NotReplaced(OperationFailed)
    ensures failed.None? ==> d.host.containers[id].running
    ensures StartedInPlace(d.trace, |old(d.trace)|, id, spec)
    ensures failed.Some? ==> (failed.value == RolledBack <==> d.trace[|d.trace| - 1].call.Inspect?)
    ensures NoClearing(d.trace, |old(d.trace)|) && (failed.Some? ==> !WentWell(d.trace, |old(d.trace)|))
  {
    hide Docker.Valid, WentWell;
    var started := d.ContainerStart(id);
    if !started.Done? {
      WentWrong(d.trace, |old(d.trace)|, |d.trace| - 1);
      return Some(NotReplaced(OperationFailed));
    }
    d.MayExit(id);
    var inspected, observed := d.ContainerInspect(id);
    if !inspected.Done? || !observed.running {
      WentWrong(d.trace, |old(d.trace)|, if inspected.Done? then |d.trace| - 2 else |d.trace| - 1);
      return Some(RolledBack);
    }
    return None;
  }

  /** The original is gone exactly if the closing removal was done, and it is done unless it faults. */
  ghost predicate Replacing(trace: seq<Event>, at: nat, original: Id, now: map<Id, Container>)
  {
    && (AllDone(trace, at) <==> original !in now)
    && (NoFault(trace, at) ==> AllDone(trace, at))
  }

  /** What a swap leaves behind, once the replacement stands under its temporary name. */
  ghost predicate Swapped(w: Watch, trace: seq<Event>, now: map<Id, Container>, spec: ContainerSpec,
      labels: map<string, string>, replacement: Id, original: Id, orig: Container, r: ReplaceResult, turned: nat,
      back: string)
  {
    if r.Replaced? then
      && r.id == replacement && w.phase.Committed? && w.from < w.phase.at <= |trace|
      && replacement in now && TakenOver(spec, labels, now[replacement])
      && replacement in trace[w.phase.at - 1].after.containers
      && TakenOver(spec, labels, trace[w.phase.at - 1].after.containers[replacement])
      && Replacing(trace, w.phase.at, original, now)
    else
      && w.phase.Disturbing? && (r == RolledBack || r == NotReplaced(OperationFailed))
      && turned <= |trace| && original in now
      && (AllDone(trace, turned) ==> replacement !in now && PutBack(orig, now[original], back))
  }

  /** The replacement takes over from an original already moved aside, or the original goes back. */
  method TakeOver(d: Docker, replacement: Id, original: Id, spec: ContainerSpec, wasRunning: bool,
      ghost orig: Container)
    returns (r: ReplaceResult, ghost turned: nat, ghost back: string)
    requires d.Valid() && d.watch.phase.Disturbing? && d.Mine(original) && original < d.watch.floor
    requires d.watch.from <= |d.trace|
    requires replacement in d.host.containers && replacement >= d.watch.floor && OnlyMade(d, replacement)
    requires original in d.host.containers
    requires d.host.containers[original] == orig.(name := d.host.containers[original].name, running := false)
    requires wasRunning == orig.running && original in d.watch.touchable
    requires BuiltFrom(spec, d.host.containers[replacement])
    requires d.host.containers[original].name != spec.name
    modifies d
    ensures d.Valid() && old(d.trace) < d.trace && OnlyMade(d, replacement)
    ensures d.watch == old(d.watch).(phase := d.watch.phase)
    ensures Swapped(d.watch, d.trace, d.host.containers, spec, old(d.host).containers[replacement].labels,
      replacement, original, orig, r, turned, back)
    ensures back == spec.name && NoClearing(d.trace, |old(d.trace)|)
    ensures !r.Replaced? && NoFault(d.trace, turned) && NobodyElse(old(d.host), spec.name, original, replacement) ==>
      AllDone(d.trace, turned)
    ensures !r.Replaced? ==> turned <= |d.trace| && !WentWell(d.trace[..turned], |old(d.trace)|)
    ensures !r.Replaced? ==> SaysWhy(r, d.trace, turned)
  {
    hide Docker.Valid, TakenOver, WentWell, AllDone, NoFault, BuiltFrom;
    back := spec.name;
    var failed := BringUp(d, replacement, spec);
    turned := |d.trace|;
    if failed.Some? {
      ghost var sofar := d.trace;
      Compensate(d, replacement, original, spec.name, wasRunning, orig);
      assert d.trace[..turned] == sofar;
      return failed.value, turned, back;
    }
    d.LastEvent();
    d.Commit();
    ghost var at := |d.trace|;
    var _ := d.ContainerRemove(original, false);
    OnlyDone(d.trace, at);
    return Replaced(replacement), turned, back;
  }

  /** The original is moved aside and the replacement takes over, or both go back. */
  method Swap(d: Docker, replacement: Id, original: Id, spec: ContainerSpec, wasRunning: bool, ghost orig: Container)
    returns (r: ReplaceResult, ghost turned: nat, ghost back: string)
    requires d.Valid() && d.watch.phase.Disturbing? && original in d.watch.touchable && original < d.watch.floor
    requires replacement in d.host.containers && replacement >= d.watch.floor && OnlyMade(d, replacement)
    requires original in d.host.containers && d.host.containers[original] == orig && wasRunning == orig.running
    requires BuiltFrom(spec, d.host.containers[replacement])
    modifies d
    ensures d.Valid() && old(d.trace) < d.trace && OnlyMade(d, replacement)
    ensures d.watch == old(d.watch).(phase := d.watch.phase)
    ensures Swapped(d.watch, d.trace, d.host.containers, spec, old(d.host).containers[replacement].labels,
      replacement, original, orig, r, turned, back)
    ensures back == if Retired(d.trace, |old(d.trace)|, original, spec.name) then spec.name else orig.name
    ensures NoClearing(d.trace, |old(d.trace)|)
    ensures !r.Replaced? && NoFault(d.trace, turned) && NobodyElse(old(d.host), spec.name, original, replacement) ==>
      AllDone(d.trace, turned)
    ensures !r.Replaced? ==> turned <= |d.trace| && !WentWell(d.trace[..turned], |old(d.trace)|)
    ensures !r.Replaced? ==> SaysWhy(r, d.trace, turned)
    ensures orig.name == RetiredName(spec.name) ==> r == NotReplaced(OperationFailed)
  {
    hide Docker.Valid, TakenOver, WentWell, AllDone, NoFault, Retired, NoClearing, RetiredName, Swapped, NameTaken,
      BuiltFrom;
    d.IdentifiersGivenOut();
    NamesDiffer(spec.name);
    back := orig.name;
    ghost var at := |d.trace|;
    var moved := MoveAside(d, original, spec.name, orig);
    turned := |d.trace|;
    ghost var aside := d.trace;
    if moved == NotStopped {
      RemoveReplacement(d, replacement, original);
      assert d.trace[at] == aside[at] && d.trace[..turned] == aside;
      NotSwapped(d, spec, old(d.host).containers[replacement].labels, replacement, original, orig, turned, back, at);
      return NotReplaced(OperationFailed), turned, back;
    }
    if moved == NotRenamed {
      GiveUp(d, replacement, original, wasRunning, orig);
      assert d.trace[at] == aside[at] && d.trace[at + 1] == aside[at + 1] && d.trace[..turned] == aside;
      NotSwapped(d, spec, old(d.host).containers[replacement].labels, replacement, original, orig, turned, back, at);
      return NotReplaced(OperationFailed), turned, back;
    }
    r, turned, back := TakeOver(d, replacement, original, spec, wasRunning, orig);
    assert d.trace[at] == aside[at] && d.trace[at + 1] == aside[at + 1];
    RetiredThen(d.trace, at, original, spec.name);
    if !r.Replaced? { StillWrong(d.trace[..turned], d.trace[..turned], |aside|, at); }
  }

  datatype Moved = NotStopped | NotRenamed | MovedAside

  /** Stops the original and renames it, stopping at the first failure. */
  method MoveAside(d: Docker, original: Id, name: string, ghost orig: Container) returns (moved: Moved)
    requires d.Valid() && d.Mine(original) && original in d.host.containers && d.host.containers[original] == orig
    modifies d`trace, d`host
    ensures d.Valid() && old(d.trace) < d.trace && original in d.host.containers
    ensures d.host == Put(old(d.host), original, d.host.containers[original]) && d.trace[|old(d.trace)|].call.Stop?
    ensures moved == NotStopped ==>
      |d.trace| == |old(d.trace)| + 1 && !d.trace[|old(d.trace)|].reply.Done? && d.host.containers[original] == orig
    ensures moved != NotStopped ==>
      |d.trace| == |old(d.trace)| + 2 && d.trace[|old(d.trace)| + 1].call == Rename(original, RetiredName(name))
    ensures moved == NotRenamed ==>
      !d.trace[|old(d.trace)| + 1].reply.Done? && d.host.containers[original] == orig.(running := false)
    ensures moved == MovedAside ==>
      && d.trace[|old(d.trace)| + 1].reply.Done?
      && d.host.containers[original] == orig.(running := false, name := RetiredName(name))
    ensures orig.name == RetiredName(name) ==> moved != MovedAside
  {
    hide Docker.Valid, RetiredName;
    var stopped := d.ContainerStop(original);
    if !stopped.Done? { return NotStopped; }
    assert d.host.containers[original].name == orig.name;
    var renamed := d.ContainerRename(original, RetiredName(name));
    return if renamed.Done? then MovedAside else NotRenamed;
  }

  /** The original was never touched, so only the replacement has to go. */
  method RemoveReplacement(d: Docker, replacement: Id, original: Id)
    requires d.Valid() && d.Disposable(replacement) && original != replacement && OnlyMade(d, replacement)
    requires original in d.host.containers && replacement in d.host.containers
    modifies d`trace, d`host
    ensures d.Valid() && |d.trace| == |old(d.trace)| + 1 && old(d.trace) <= d.trace && OnlyMade(d, replacement)
    ensures original in d.host.containers && d.host.containers[original] == old(d.host).containers[original]
    ensures d.trace[|old(d.trace)|].call.Remove?
    ensures NoFault(d.trace, |old(d.trace)|) ==> AllDone(d.trace, |old(d.trace)|)
    ensures AllDone(d.trace, |old(d.trace)|) ==> replacement !in d.host.containers
  {
    hide Docker.Valid, AllDone, NoFault;
    var removed := d.ContainerRemove(replacement, true);
    OnlyDone(d.trace, |old(d.trace)|);
  }

  /** Nothing was renamed: the original is where it was, under its own name. */
  lemma NotSwapped(d: Docker, spec: ContainerSpec, labels: map<string, string>, replacement: Id, original: Id,
      orig: Container, turned: nat, back: string, at: nat)
    requires d.watch.phase.Disturbing? && turned <= |d.trace| && original in d.host.containers && back == orig.name
    requires AllDone(d.trace, turned) ==>
      replacement !in d.host.containers && PutBack(orig, d.host.containers[original], back)
    requires at + 2 <= |d.trace| && d.trace[at].call.Stop? && Quiet(d.trace, at + 2, original)
    requires (turned == at + 1 && !d.trace[at].reply.Done? && d.trace[at + 1].call.Remove?) ||
      (turned == at + 2 && d.trace[at + 1].call.Rename? && !d.trace[at + 1].reply.Done?)
    ensures Swapped(d.watch, d.trace, d.host.containers, spec, labels,
      replacement, original, orig, NotReplaced(OperationFailed), turned, back)
    ensures SaysWhy(NotReplaced(OperationFailed), d.trace, turned)
    ensures !Retired(d.trace, at, original, spec.name) && NoClearing(d.trace, at)
    ensures !WentWell(d.trace[..turned], at)
  {
    hide AllDone, WentWell, Retired, NoClearing;
    NeverRetired(d.trace, at, original, spec.name);
    WentWrong(d.trace[..turned], at, turned - 1);
  }

  lemma NeverRetired(trace: seq<Event>, at: nat, id: Id, name: string)
    requires at + 2 <= |trace| && trace[at].call.Stop? && Quiet(trace, at + 2, id)
    requires trace[at + 1].call.Remove? || (trace[at + 1].call.Rename? && !trace[at + 1].reply.Done?)
    ensures !Retired(trace, at, id, name) && NoClearing(trace, at)
  {
  }

  lemma RetiredThen(trace: seq<Event>, at: nat, id: Id, name: string)
    requires at + 2 <= |trace| && trace[at].call.Stop? && NoClearing(trace, at + 2)
    requires trace[at + 1].call == Rename(id, RetiredName(name)) && trace[at + 1].reply.Done?
    ensures Retired(trace, at, id, name) && NoClearing(trace, at)
  {
  }

  lemma OnlyDone(trace: seq<Event>, from: nat)
    requires |trace| == from + 1
    ensures AllDone(trace, from) <==> trace[from].reply.Done?
    ensures NoFault(trace, from) <==> !trace[from].reply.Faulted?
  {
  }

  /** The original could not be renamed: the replacement goes, and the original is started again. */
  method GiveUp(d: Docker, replacement: Id, original: Id, wasRunning: bool, ghost orig: Container)
    requires d.Valid() && d.Disposable(replacement) && d.Mine(original) && original != replacement
    requires OnlyMade(d, replacement)
    requires original in d.host.containers && d.host.containers[original] == orig.(running := false)
    requires wasRunning == orig.running
    requires replacement in d.host.containers
    modifies d`trace, d`host
    ensures d.Valid() && old(d.trace) < d.trace && OnlyMade(d, replacement)
    ensures original in d.host.containers && Quiet(d.trace, |old(d.trace)|, original)
    ensures NoFault(d.trace, |old(d.trace)|) ==> AllDone(d.trace, |old(d.trace)|)
    ensures AllDone(d.trace, |old(d.trace)|) ==>
      replacement !in d.host.containers && PutBack(orig, d.host.containers[original], orig.name)
  {
    hide Docker.Valid, AllDone, NoFault, Smooth;
    NothingSince(d.trace);
    var removed := d.ContainerRemove(replacement, true);
    LastReply(old(d.trace), d.trace, |old(d.trace)|);
    if wasRunning {
      ghost var sofar := d.trace;
      var started := d.ContainerStart(original);
      LastReply(sofar, d.trace, |old(d.trace)|);
    }
  }

  /**
   Where the original is after a replacement that did not happen. It is gone exactly
   if it was cleared away for holding a temporary name. Otherwise, with every call
   since `turned` done, it is as it was but for its name, which is the one of the
   specification exactly if the original had been renamed.
   */
  ghost predicate Kept(trace: seq<Event>, from: nat, now: map<Id, Container>, id: Id, orig: Container, name: string,
      turned: nat)
  {
    && (id in now <==> !ClearedAway(trace, from, orig.name))
    && (AllDone(trace, turned) && id in now ==>
      && PutBack(orig, now[id], if Retired(trace, from, id, name) then name else orig.name)
      && (now[id] == orig <==> orig.name == name || !Retired(trace, from, id, name)))
  }

  /**
   Replaces a container. While the operation is not committed, `d.Valid()` says
   the original is still there unless it held one of the temporary names, and the
   operation commits exactly when the replacement has been observed running. An
   original that held one of them is never replaced.
   */
  method Replace(d: Docker, currentId: Id, spec: ContainerSpec, stack: string, identity: string, configId: string)
    returns (r: ReplaceResult, ghost turned: nat)
    requires d.Valid()
    modifies d
    ensures d.Valid() && old(d.trace) <= d.trace && d.watch.base == old(d.host) && d.watch.from == |old(d.trace)|
    ensures r == NotReplaced(SpecInvalid) <==> !Acceptable(spec)
    ensures d.watch.phase.Surveying? ==> r.NotReplaced? && d.host.containers == old(d.host).containers
    ensures !d.watch.phase.Surveying? ==>
      && currentId in old(d.host).containers && d.watch.expendable == Leftovers(old(d.host), spec.name)
      && d.watch.touchable == {currentId} + Leftovers(old(d.host), spec.name)
    ensures d.watch.phase.Committed? <==> r.Replaced?
    ensures r.Replaced? ==>
      && d.watch.from < d.watch.phase.at <= |d.trace| && r.id >= d.watch.floor && r.id in d.host.containers
      && TakenOver(spec, LabelSet(spec.labels, stack, identity, configId), d.host.containers[r.id])
      && r.id in d.trace[d.watch.phase.at - 1].after.containers
      && TakenOver(spec, LabelSet(spec.labels, stack, identity, configId),
        d.trace[d.watch.phase.at - 1].after.containers[r.id])
      && Replacing(d.trace, d.watch.phase.at, currentId, d.host.containers)
    // What the result says of how far it got.
    ensures r == NotReplaced(ContainerMissing) ==>
      && d.watch.phase.Surveying? && |old(d.trace)| < |d.trace|
      && d.trace[|old(d.trace)|].call == Inspect(currentId) && !d.trace[|old(d.trace)|].reply.Done?
    ensures r == NotReplaced(ImageUnavailable) ==> d.watch.phase.Surveying? && spec.image !in d.host.images
    ensures r == NotReplaced(OperationFailed) || r == RolledBack ==>
      d.watch.phase.Disturbing? && SaysWhy(r, d.trace, turned)
    // What is left when it did not happen: something had gone wrong by the moment it turned back.
    ensures d.watch.phase.Disturbing? ==>
      && turned <= |d.trace| && !WentWell(d.trace[..turned], |old(d.trace)|)
      && (AllDone(d.trace, turned) ==> forall id :: id in d.host.containers ==> id < d.watch.floor)
      && Kept(d.trace, |old(d.trace)|, d.host.containers, currentId,
        old(d.host).containers[currentId], spec.name, turned)
    ensures d.watch.phase.Disturbing? && NoFault(d.trace, turned) ==>
      old(d.host).containers[currentId].name == spec.name ==>
      AllDone(d.trace, turned)
    ensures !d.watch.phase.Surveying? && currentId in Leftovers(old(d.host), spec.name) ==>
      r == NotReplaced(OperationFailed)
    // It fails only where something went wrong.
    ensures r == NotReplaced(SpecInvalid) || r.Replaced? || !WentWell(d.trace, |old(d.trace)|)
    ensures Acceptable(spec) && WentWell(d.trace, |old(d.trace)|) ==> r.Replaced?
  {
    hide Docker.Valid, TakenOver, Acceptable, WentWell, AllDone, NoFault, Kept, Swapped, NamesUnique;
    turned := 0;
    d.EngineRules();
    d.Begin();
    d.IdentifiersGivenOut();
    var verdict := Validate(spec);
    if verdict.Rejected? { return NotReplaced(SpecInvalid), turned; }
    var inspected, found := d.ContainerInspect(currentId);
    if !inspected.Done? {
      WentWrong(d.trace, |old(d.trace)|, |d.trace| - 1);
      return NotReplaced(ContainerMissing), turned;
    }
    var image := d.ImageEnsure(spec.image);
    if !image.Done? {
      WentWrong(d.trace, |old(d.trace)|, |d.trace| - 1);
      return NotReplaced(ImageUnavailable), turned;
    }
    d.Disturb({currentId} + Leftovers(d.watch.base, spec.name), Leftovers(d.watch.base, spec.name));
    r, turned := Exchange(d, currentId, spec, LabelSet(spec.labels, stack, identity, configId), found);
    KeptFrom(d.trace, |old(d.trace)|, d.host.containers, currentId, found, spec.name, turned);
    if !r.Replaced? {
      StillWrong(d.trace[..turned], d.trace[..turned], |old(d.trace)| + 2, |old(d.trace)|);
      StillWrong(d.trace[..turned], d.trace, |old(d.trace)|, |old(d.trace)|);
    }
  }

  /** The first two calls neither clear a name nor rename anything. */
  lemma KeptFrom(trace: seq<Event>, from: nat, now: map<Id, Container>, id: Id, orig: Container, name: string,
      turned: nat)
    requires from + 2 <= |trace| && trace[from].call.Inspect? && trace[from + 1].call.EnsureImage?
    ensures Kept(trace, from + 2, now, id, orig, name, turned) <==> Kept(trace, from, now, id, orig, name, turned)
  {
    assert Retired(trace, from, id, name) <==> Retired(trace, from + 2, id, name);
    assert ClearedAway(trace, from, orig.name) <==> ClearedAway(trace, from + 2, orig.name);
  }

  /** Builds the replacement and swaps it in, once everything it needs is there. */
  method Exchange(d: Docker, currentId: Id, spec: ContainerSpec, labels: map<string, string>, found: Container)
    returns (r: ReplaceResult, ghost turned: nat)
    requires d.Valid() && d.watch.phase.Disturbing? && d.host.containers == d.watch.base.containers
    requires d.watch.expendable == Leftovers(d.watch.base, spec.name)
    requires d.watch.touchable == {currentId} + d.watch.expendable
    requires currentId in d.host.containers && d.host.containers[currentId] == found && d.watch.floor == d.minted
    requires NamesUnique(d.watch.base.containers) && Acceptable(spec)
    modifies d
    ensures d.Valid() && old(d.trace) <= d.trace && d.watch == old(d.watch).(phase := d.watch.phase)
    ensures if r.Replaced? then d.watch.phase.Committed? else d.watch.phase.Disturbing?
    ensures r.Replaced? ==>
      && d.watch.from < d.watch.phase.at <= |d.trace| && r.id >= d.watch.floor && r.id in d.host.containers
      && TakenOver(spec, labels, d.host.containers[r.id])
      && r.id in d.trace[d.watch.phase.at - 1].after.containers
      && TakenOver(spec, labels, d.trace[d.watch.phase.at - 1].after.containers[r.id])
      && Replacing(d.trace, d.watch.phase.at, currentId, d.host.containers)
    ensures !r.Replaced? ==>
      && turned <= |d.trace|
      && (AllDone(d.trace, turned) ==> forall id :: id in d.host.containers ==> id < d.watch.floor)
      && Kept(d.trace, |old(d.trace)|, d.host.containers, currentId, found, spec.name, turned)
      && !WentWell(d.trace[..turned], |old(d.trace)|) && SaysWhy(r, d.trace, turned)
    ensures !r.Replaced? && found.name == spec.name && NoFault(d.trace, turned) ==> AllDone(d.trace, turned)
    ensures currentId in Leftovers(d.watch.base, spec.name) ==> r == NotReplaced(OperationFailed)
    ensures r.Replaced? || r == RolledBack || r == NotReplaced(OperationFailed)
  {
    hide Docker.Valid, TakenOver, WentWell, AllDone, NoFault, Retired, ClearedAway, Acceptable, BuiltFrom;
    d.IdentifiersGivenOut();
    NothingSince(d.trace);
    ghost var start := d.trace;
    var built, replacement := Build(d, spec, labels, currentId);
    ghost var ready := d.trace;
    turned := |d.trace|;
    assert d.trace[..turned] == ready;
    NothingSince(d.trace);
    if !built { return NotReplaced(OperationFailed), turned; }
    if currentId !in d.host.containers {
      // The original held a temporary name and went with it; stopping it is refused.
      r, turned := TooLate(d, replacement, currentId);
      StillQuiet(start, ready, d.trace, currentId, spec.name, found.name);
      StillWrong(d.trace[..turned], d.trace[..turned], |ready|, |start|);
      return;
    }
    assert found.name == spec.name ==> NobodyElse(d.host, spec.name, currentId, replacement);
    ghost var back;
    r, turned, back := Swap(d, replacement, currentId, spec, found.running, found);
    RetiredLater(start, ready, d.trace, currentId, spec.name, found.name);
    if !r.Replaced? { StillWrong(d.trace[..turned], d.trace[..turned], |ready|, |start|); }
  }

  /** With the original gone the stop is refused, and the replacement goes again. */
  method TooLate(d: Docker, replacement: Id, original: Id) returns (r: ReplaceResult, ghost turned: nat)
    requires d.Valid() && d.Mine(original) && d.Disposable(replacement) && OnlyMade(d, replacement)
    requires original !in d.host.containers && original < d.watch.floor && replacement in d.host.containers
    modifies d`trace, d`host
    ensures d.Valid() && old(d.trace) <= d.trace && r == NotReplaced(OperationFailed) && turned <= |d.trace|
    ensures AllDone(d.trace, turned) ==> forall id :: id in d.host.containers ==> id < d.watch.floor
    ensures NoFault(d.trace, turned) ==> AllDone(d.trace, turned)
    ensures original !in d.host.containers && Quiet(d.trace, |old(d.trace)|, original)
    ensures !WentWell(d.trace[..turned], |old(d.trace)|) && SaysWhy(r, d.trace, turned)
  {
    hide Docker.Valid, WentWell, AllDone, NoFault;
    var _ := d.ContainerStop(original);
    turned := |d.trace|;
    var removed := d.ContainerRemove(replacement, true);
    OnlyDone(d.trace, turned);
    WentWrong(d.trace[..turned], |old(d.trace)|, |old(d.trace)|);
    r := NotReplaced(OperationFailed);
  }

  lemma StillQuiet(start: seq<Event>, ready: seq<Event>, trace: seq<Event>, id: Id, name: string, held: string)
    requires start <= ready <= trace && Quiet(trace, |ready|, id)
    ensures Retired(trace, |start|, id, name) <==> Retired(ready, |start|, id, name)
    ensures ClearedAway(trace, |start|, held) <==> ClearedAway(ready, |start|, held)
  {
    assert forall i :: 0 <= i < |ready| ==> trace[i] == ready[i];
    if Retired(ready, |start|, id, name) {
      var i :| |start| <= i < |ready| && ready[i].call == Rename(id, RetiredName(name)) && ready[i].reply.Done?;
      assert trace[i] == ready[i];
    }
    if ClearedAway(ready, |start|, held) {
      var i :| |start| <= i < |ready| && ready[i].call == RemoveNamed(held) && ready[i].reply.Done?;
      assert trace[i] == ready[i];
    }
  }

  lemma RetiredLater(start: seq<Event>, ready: seq<Event>, trace: seq<Event>, id: Id, name: string, held: string)
    requires start <= ready <= trace && NoClearing(trace, |ready|) && !Retired(ready, |start|, id, name)
    ensures Retired(trace, |start|, id, name) <==> Retired(trace, |ready|, id, name)
    ensures ClearedAway(trace, |start|, held) <==> ClearedAway(ready, |start|, held)
  {
    assert forall i :: 0 <= i < |ready| ==> trace[i] == ready[i];
    if ClearedAway(ready, |start|, held) {
      var i :| |start| <= i < |ready| && ready[i].call == RemoveNamed(held) && ready[i].reply.Done?;
      assert trace[i] == ready[i];
    }
  }

  /** Clears the temporary names and creates the replacement under one of them. */
  method Build(d: Docker, spec: ContainerSpec, labels: map<string, string>, ghost original: Id)
    returns (ok: bool, replacement: Id)
    requires d.Valid() && d.watch.phase.Disturbing? && d.host.containers == d.watch.base.containers
    requires d.watch.expendable == Leftovers(d.watch.base, spec.name)
    requires d.watch.touchable == {original} + d.watch.expendable
    requires (forall id :: id in d.host.containers ==> id < d.watch.floor) && d.watch.floor == d.minted
    requires original in d.host.containers && Acceptable(spec)
    modifies d`trace, d`host, d`minted
    ensures d.Valid() && old(d.trace) < d.trace && OnlyMade(d, replacement)
    ensures original in d.host.containers ==> d.host.containers[original] == d.watch.base.containers[original]
    ensures original in d.host.containers <==>
      !ClearedAway(d.trace, |old(d.trace)|, d.watch.base.containers[original].name)
    ensures !Retired(d.trace, |old(d.trace)|, original, spec.name) && LeftAlone(d.watch, d.host.containers)
    ensures ok ==>
      && replacement in d.host.containers && replacement >= d.watch.floor
      && d.host.containers[replacement].labels == labels && BuiltFrom(spec, d.host.containers[replacement])
    ensures ok && original in d.host.containers ==> d.watch.base.containers[original].name != StagingName(spec.name)
    ensures !ok ==> (forall id :: id in d.host.containers ==> id < d.watch.floor) && !WentWell(d.trace, |old(d.trace)|)
    ensures !ok ==> d.trace[|d.trace| - 1].call.Create?
  {
    hide Docker.Valid, WentWell, ClearedAway, Retired, Leftovers, Acceptable, BuiltFrom;
    NamesDiffer(spec.name);
    ghost var start, name := d.trace, d.host.containers[original].name;
    var created;
    created, replacement := CreateStaging(d, spec, labels, original);
    if !created {
      WentWrong(d.trace, |start|, |d.trace| - 1);
      ClearedOnly(start, d.trace, original, spec.name, name);
      return false, replacement;
    }
    var _ := ClearName(d, RetiredName(spec.name), spec.name, original);
    ClearedOnly(start, d.trace, original, spec.name, name);
    return true, replacement;
  }

  /** What was there before is there unchanged, but for what was cleared away. */
  ghost predicate LeftAlone(w: Watch, now: map<Id, Container>)
  {
    forall id :: id in now && id < w.floor ==> id in w.base.containers && now[id] == w.base.containers[id]
  }

  lemma AcceptableParts(spec: ContainerSpec)
    requires Acceptable(spec)
    ensures EnvOk(spec.env) && MountsOk(spec.mounts)
  {
  }

  /** Clears the first temporary name and creates the replacement under it. */
  method CreateStaging(d: Docker, spec: ContainerSpec, labels: map<string, string>, ghost original: Id)
    returns (created: bool, replacement: Id)
    requires d.Valid() && d.watch.phase.Disturbing? && d.host.containers == d.watch.base.containers
    requires d.watch.expendable == Leftovers(d.watch.base, spec.name) && d.watch.expendable <= d.watch.touchable
    requires (forall id :: id in d.host.containers ==> id < d.watch.floor) && d.watch.floor == d.minted
    requires original in d.host.containers && Acceptable(spec)
    modifies d`trace, d`host, d`minted
    ensures d.Valid() && |d.trace| == |old(d.trace)| + 2 && old(d.trace) <= d.trace && OnlyMade(d, replacement)
    ensures LeftAlone(d.watch, d.host.containers)
    ensures d.trace[|old(d.trace)|].call == RemoveNamed(StagingName(spec.name))
    ensures d.trace[|old(d.trace)| + 1].call.Create?
    ensures created <==> d.trace[|old(d.trace)| + 1].reply.Done?
    ensures original in d.host.containers <==>
      !(d.trace[|old(d.trace)|].reply.Done? && d.watch.base.containers[original].name == StagingName(spec.name))
    ensures created ==> replacement in d.host.containers && replacement >= d.watch.floor && replacement != original
    ensures created ==>
      && d.host.containers[replacement].labels == labels && BuiltFrom(spec, d.host.containers[replacement])
      && d.host.containers[replacement].name == StagingName(spec.name)
    ensures created && original in d.host.containers ==>
      d.watch.base.containers[original].name != StagingName(spec.name)
    ensures !created ==> forall id :: id in d.host.containers ==> id < d.watch.floor
  {
    hide Docker.Valid, Leftovers, Acceptable, EnvOk, MountsOk, Renders, MountsItsVolumes;
    AcceptableParts(spec);
    var config := BuildConfig(spec);
    VolumesAreMounted(spec, config);
    var cleared := ClearName(d, StagingName(spec.name), spec.name, original);
    ghost var between := d.host;
    var reply;
    reply, replacement := d.ContainerCreate(StagingName(spec.name), labels, config);
    created := reply.Done?;
    assert original in between.containers && between.containers[original].name == StagingName(spec.name) ==>
      NameTaken(between, StagingName(spec.name));
  }

  /** Removes whatever holds a temporary name; what has another name stays as it is. */
  method ClearName(d: Docker, temporary: string, name: string, ghost original: Id) returns (reply: Reply)
    requires d.Valid() && d.watch.phase.Disturbing?
    requires (temporary == StagingName(name) || temporary == RetiredName(name))
    requires d.watch.expendable == Leftovers(d.watch.base, name) && d.watch.expendable <= d.watch.touchable
    requires LeftAlone(d.watch, d.host.containers)
    modifies d`trace, d`host
    ensures d.Valid() && d.trace == old(d.trace) + [Event(RemoveNamed(temporary), reply, d.host)]
    ensures Submap(d.host.containers, old(d.host).containers)
    ensures forall id :: id in old(d.host).containers && old(d.host).containers[id].name != temporary ==>
      id in d.host.containers
    ensures original in old(d.host).containers ==>
      (original in d.host.containers <==> !(reply.Done? && old(d.host).containers[original].name == temporary))
  {
    hide Docker.Valid;
    reply := d.ContainerRemoveNamed(temporary);
  }

  /** Two or three calls: the first and perhaps the last cleared a temporary name. */
  lemma ClearedOnly(start: seq<Event>, trace: seq<Event>, id: Id, name: string, held: string)
    requires |start| + 2 <= |trace| <= |start| + 3
    requires trace[|start|].call == RemoveNamed(StagingName(name)) && trace[|start| + 1].call.Create?
    requires |trace| == |start| + 3 ==> trace[|start| + 2].call == RemoveNamed(RetiredName(name))
    ensures !Retired(trace, |start|, id, name)
    ensures ClearedAway(trace, |start|, held) <==>
      (trace[|start|].reply.Done? && held == StagingName(name)) ||
      (|trace| == |start| + 3 && trace[|start| + 2].reply.Done? && held == RetiredName(name))
  {
  }
}
