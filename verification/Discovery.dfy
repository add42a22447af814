/**
 A discovery pass: what the host reported, written into the container rows
 (api/src/discovery/discovery.service.ts).

 Every statement may fail, and the database refuses a second row with the same
 Docker container or the same service of a stack; either ends the pass early. The
 contracts say what every row holds after any number of reported containers, so
 they hold at every step of the pass and not only at its end.
 */
module Discovery {
  import opened Wrappers
  import opened AgentSpec
  import opened Records

  /** A reported container, as far as identity, attribution and recovery read it. */
  datatype Item = Item(dockerId: string, name: string, labels: map<string, string>)

  // ---- reading labels -----------------------------------------------------

  /** A label that is missing or empty says nothing. */
  function Said(item: Item, key: string): Option<string>
  {
    if key in item.labels && item.labels[key] != "" then Some(item.labels[key]) else None
  }

  predicate Hex(c: char)
  {
    '0' <= c <= '9' || 'a' <= c <= 'f' || 'A' <= c <= 'F'
  }

  predicate IsUuid(s: string)
  {
    |s| == 36 && forall i :: 0 <= i < 36 ==> if i in {8, 13, 18, 23} then s[i] == '-' else Hex(s[i])
  }

  /** `^[a-zA-Z0-9][a-zA-Z0-9_.-]{0,63}$` */
  predicate IsServiceName(s: string)
  {
    NamePattern(s) && |s| <= 64
  }

  predicate SaysManaged(item: Item)
  {
    MANAGED in item.labels && item.labels[MANAGED] == "true"
  }

  function Identity(item: Item): Option<string>
  {
    Said(item, CONTAINER_ID)
  }

  /** The configuration a container claims to run; anything unreadable is recorded as none. */
  function ObservedConfig(item: Item): Option<string>
  {
    if !SaysManaged(item) then None
    else
      var claimed := Said(item, DESIRED_CONFIG_ID);
      if claimed.Some? && IsUuid(claimed.value) then claimed else None
  }

  datatype StackClaim = StackClaim(stackId: Option<string>, service: Option<string>, revision: Option<string>)

  const NOBODY := StackClaim(None, None, None)

  /** Both halves of a stack identity or neither. */
  function ObservedStack(item: Item): StackClaim
  {
    if !SaysManaged(item) then NOBODY
    else
      var stackId, service := Said(item, STACK_ID), Said(item, STACK_SERVICE);
      if stackId.None? || service.None? || !IsUuid(stackId.value) || !IsServiceName(service.value) then NOBODY
      else
        var revision := Said(item, STACK_REVISION_ID);
        StackClaim(stackId, service, if revision.Some? && IsUuid(revision.value) then revision else None)
  }

  // ---- what the database refuses -------------------------------------------

  function ServiceKey(row: Row): Option<(string, string)>
  {
    if row.stackId.Some? && row.stackService.Some? then Some((row.stackId.value, row.stackService.value)) else None
  }

  /** `containers_host_docker_id_unique` */
  predicate SameDocker(a: Row, b: Row)
  {
    a.host == b.host && a.dockerId.Some? && a.dockerId == b.dockerId
  }

  /** `containers_stack_service_unique` */
  predicate SameService(a: Row, b: Row)
  {
    ServiceKey(a).Some? && ServiceKey(a) == ServiceKey(b)
  }

  ghost predicate DockerOnce(rows: map<string, Row>)
  {
    forall r, s :: r in rows && s in rows && SameDocker(rows[r], rows[s]) ==> r == s
  }

  ghost predicate ServiceOnce(rows: map<string, Row>)
  {
    forall r, s :: r in rows && s in rows && SameService(rows[r], rows[s]) ==> r == s
  }

  predicate DockerTaken(rows: map<string, Row>, r: string, row: Row)
  {
    exists s :: s in rows && s != r && SameDocker(rows[s], row)
  }

  predicate ServiceTaken(rows: map<string, Row>, r: string, row: Row)
  {
    exists s :: s in rows && s != r && SameService(rows[s], row)
  }

  /** A row is attributed only to stacks of its own host. */
  ghost predicate Homed(rows: map<string, Row>, stacks: map<string, string>)
  {
    forall r :: r in rows && ServiceKey(rows[r]).Some? ==>
      rows[r].stackId.value in stacks && stacks[rows[r].stackId.value] == rows[r].host
  }

  /** A row that has a Docker container was stamped by the pass that gave it one. */
  ghost predicate Stamped(rows: map<string, Row>)
  {
    forall r :: r in rows && rows[r].dockerId.Some? ==> rows[r].snapshot.Some?
  }

  ghost predicate Consistent(rows: map<string, Row>, stacks: map<string, string>)
  {
    DockerOnce(rows) && ServiceOnce(rows) && Homed(rows, stacks) && Stamped(rows)
  }

  // ---- what a pass reads ----------------------------------------------------

  /**
   The rows when the pass began, what was reported, the resources being moved by
   somebody else, the stacks with their hosts, and how the database reads an
   identifier written in a label: as a row's, or not at all.
   */
  datatype View = View(
    start: Tables,
    host: string,
    reported: seq<Item>,
    inFlight: set<string>,
    snapshot: string,
    stacks: map<string, string>,
    parse: string -> Option<string>)

  predicate Existing(v: View, r: string)
  {
    r in v.start.containers && v.start.containers[r].host == v.host
  }

  /** The reported containers that carry an identity. */
  function Claimants(items: seq<Item>, identity: string): seq<string>
  {
    if items == [] then []
    else
      var last := items[|items| - 1];
      Claimants(items[..|items| - 1], identity) +
      if last.dockerId != "" && Identity(last) == Some(identity) then [last.dockerId] else []
  }

  predicate Moving(v: View, item: Item)
  {
    Identity(item).Some? && Identity(item).value in v.inFlight
  }

  predicate Contended(v: View, item: Item)
  {
    Identity(item).Some? && !Moving(v, item) && |Claimants(v.reported, Identity(item).value)| > 1
  }

  /** The row that had this Docker container when the pass began. */
  ghost predicate HadDocker(v: View, r: string, dockerId: string)
  {
    Existing(v, r) && v.start.containers[r].dockerId == Some(dockerId)
  }

  /** The row a container is written to: the one it names, else the one that had it. */
  ghost predicate Target(v: View, item: Item, r: string)
  {
    if Identity(item).Some? && Existing(v, Identity(item).value) then r == Identity(item).value
    else HadDocker(v, r, item.dockerId)
  }

  ghost predicate Keeps(v: View, item: Item, r: string)
  {
    item.dockerId != "" && (Moving(v, item) || Contended(v, item)) && v.parse(Identity(item).value) == Some(r)
  }

  /** Neither left to somebody else nor fought over. */
  predicate Followed(v: View, item: Item)
  {
    item.dockerId != "" && !Moving(v, item) && !Contended(v, item)
  }

  ghost predicate Matches(v: View, item: Item, r: string)
  {
    Followed(v, item) && Target(v, item, r)
  }

  // ---- what a row holds after some of the report ------------------------------

  /** Where in the report the container is that was written over the row last. */
  ghost function LastMatch(v: View, n: nat, r: string): (k: Option<nat>)
    requires n <= |v.reported|
    ensures k.Some? ==> k.value < n
  {
    if n == 0 then None
    else if Matches(v, v.reported[n - 1], r) then Some(n - 1) else LastMatch(v, n - 1, r)
  }

  ghost function LastConflict(v: View, n: nat, r: string): Option<seq<string>>
    requires n <= |v.reported|
  {
    if n == 0 then None
    else
      var item := v.reported[n - 1];
      if Keeps(v, item, r) && Contended(v, item) then Some(Claimants(v.reported, Identity(item).value))
      else LastConflict(v, n - 1, r)
  }

  ghost predicate Touched(v: View, n: nat, r: string)
    requires n <= |v.reported|
  {
    n > 0 && (Keeps(v, v.reported[n - 1], r) || Matches(v, v.reported[n - 1], r) || Touched(v, n - 1, r))
  }

  function Attribution(row: Row): StackClaim
  {
    StackClaim(row.stackId, row.stackService, row.stackRevision)
  }

  ghost predicate Expected(v: View, n: nat, r: string, row: Row)
    requires n <= |v.reported| && r in v.start.containers
  {
    var was := v.start.containers[r];
    && row.host == was.host
    && row.snapshot == (if Touched(v, n, r) then Some(v.snapshot) else was.snapshot)
    && row.conflict == (if LastConflict(v, n, r).Some? then LastConflict(v, n, r) else was.conflict)
    && match LastMatch(v, n, r)
       case None => row == was.(snapshot := row.snapshot, conflict := row.conflict)
       case Some(k) =>
         && row.dockerId == Some(v.reported[k].dockerId) && row.name == v.reported[k].name
         && row.observedConfig == ObservedConfig(v.reported[k]) && Attribution(row) == ClaimAt(v, k)
  }

  ghost predicate Written(v: View, n: nat, rows: map<string, Row>)
    requires n <= |v.reported|
  {
    && v.start.containers.Keys <= rows.Keys
    && forall r :: r in v.start.containers ==> Expected(v, n, r, rows[r])
  }

  /** A row written for this container, in this pass. */
  ghost predicate Describes(v: View, row: Row, k: nat)
    requires k < |v.reported|
  {
    && row.host == v.host && row.snapshot == Some(v.snapshot)
    && row.dockerId == Some(v.reported[k].dockerId) && row.name == v.reported[k].name
    && row.observedConfig == ObservedConfig(v.reported[k]) && Attribution(row) == ClaimAt(v, k)
  }

  ghost predicate IsReported(v: View, n: nat, row: Row)
    requires n <= |v.reported|
  {
    exists k :: 0 <= k < n && Newcomer(v, v.reported[k]) && Describes(v, row, k)
  }

  /** Rows that were not there are containers of this report nobody knew, stamped by this pass. */
  ghost predicate Discovered(v: View, n: nat, rows: map<string, Row>)
    requires n <= |v.reported|
  {
    forall r :: r in rows && r !in v.start.containers ==>
      r !in v.start.issued && IsReported(v, n, rows[r]) && Noted(v, r, rows[r].conflict)
  }

  /** A conflict is noted only where containers of the report contend for the row. */
  ghost predicate Noted(v: View, r: string, conflict: Option<seq<string>>)
  {
    conflict.Some? ==> exists k :: 0 <= k < |v.reported| && NotedFor(v, k, r, conflict.value)
  }

  ghost predicate NotedFor(v: View, k: nat, r: string, claimants: seq<string>)
    requires k < |v.reported|
  {
    && Keeps(v, v.reported[k], r) && Contended(v, v.reported[k])
    && claimants == Claimants(v.reported, Identity(v.reported[k]).value)
  }

  /** A container that is left to no one and belongs to no row. */
  ghost predicate Newcomer(v: View, item: Item)
  {
    Followed(v, item) && forall r :: !Target(v, item, r)
  }

  ghost predicate HasRow(v: View, rows: map<string, Row>, k: nat)
    requires k < |v.reported|
  {
    exists r :: r in rows && r !in v.start.containers && Describes(v, rows[r], k)
  }

  /** Every container nobody knew has a row of its own. */
  ghost predicate Inserted(v: View, n: nat, rows: map<string, Row>)
    requires n <= |v.reported|
  {
    forall k :: 0 <= k < n && Newcomer(v, v.reported[k]) ==> HasRow(v, rows, k)
  }

  // ---- who holds a service ----------------------------------------------------

  /** A row that existed, or a container first reported in this pass. */
  datatype Holder = HeldBy(row: string) | HeldNew(dockerId: string)

  type Holders = map<(string, string), Holder>

  predicate HeldAtStart(v: View, r: string, key: (string, string))
  {
    Existing(v, r) && ServiceKey(v.start.containers[r]) == Some(key)
  }

  ghost function TargetOf(v: View, item: Item): (r: Option<string>)
    ensures r.Some? ==> Target(v, item, r.value)
    ensures r.None? ==> forall s :: !Target(v, item, s)
  {
    if exists r :: Target(v, item, r) then
      var r :| Target(v, item, r);
      Some(r)
    else None
  }

  /** Who holds a service after some of the report: whoever had it, until a container of the report takes it. */
  ghost function HolderAt(v: View, n: nat, key: (string, string)): Option<Holder>
    requires n <= |v.reported|
    decreases n, 0
  {
    if n > 0 && Takes(v, n - 1, key) then
      var r := TargetOf(v, v.reported[n - 1]);
      Some(if r.Some? then HeldBy(r.value) else HeldNew(v.reported[n - 1].dockerId))
    else if n > 0 then HolderAt(v, n - 1, key)
    else if exists r :: HeldAtStart(v, r, key) then
      var r :| HeldAtStart(v, r, key);
      Some(HeldBy(r))
    else None
  }

  /** The attribution written for a reported container: what it says, if that stack is here and the service free. */
  ghost function ClaimAt(v: View, n: nat): StackClaim
    requires n < |v.reported|
    decreases n, 1
  {
    var claim := ObservedStack(v.reported[n]);
    if KeyOf(claim).None? then claim
    else
      var holder, r := HolderAt(v, n, KeyOf(claim).value), TargetOf(v, v.reported[n]);
      if IsHere(v, claim) && (holder.None? || (r.Some? && holder == Some(HeldBy(r.value)))) then claim else NOBODY
  }

  /** This container of the report is given the service. */
  ghost predicate Takes(v: View, n: nat, key: (string, string))
    requires n < |v.reported|
    decreases n, 2
  {
    Followed(v, v.reported[n]) && KeyOf(ClaimAt(v, n)) == Some(key)
  }

  /** The holders kept during the pass are those. */
  ghost predicate Mirrors(v: View, n: nat, held: Holders)
    requires n <= |v.reported|
  {
    forall key :: HolderAt(v, n, key) == if key in held then Some(held[key]) else None
  }

  ghost predicate Guards(v: View, held: Holders, r: string, row: Row)
  {
    ServiceKey(row).Some? && row.host == v.host ==>
      && ServiceKey(row).value in held
      && held[ServiceKey(row).value] ==
        if r in v.start.containers then HeldBy(r) else HeldNew(if row.dockerId.Some? then row.dockerId.value else "")
  }

  ghost predicate Guarded(v: View, rows: map<string, Row>, held: Holders)
  {
    forall r :: r in rows ==> Guards(v, held, r, rows[r])
  }

  /** Only configurations and actions stay exactly as they were. */
  ghost predicate SameElsewhere(v: View, t: Tables)
  {
    t.configs == v.start.configs && t.actions == v.start.actions && v.start.issued <= t.issued && Named(t)
  }

  ghost predicate Advanced(v: View, n: nat, t: Tables, held: Holders)
    requires n <= |v.reported|
  {
    && Written(v, n, t.containers) && Discovered(v, n, t.containers) && Inserted(v, n, t.containers)
    && Guarded(v, t.containers, held) && Mirrors(v, n, held)
    && Consistent(t.containers, v.stacks) && SameElsewhere(v, t)
  }

  /** The row has the Docker container of a reported one that belongs to it. */
  ghost predicate MovedTo(v: View, r: string, row: Row)
  {
    exists item :: item in v.reported && Matches(v, item, r) && row.dockerId == Some(item.dockerId)
  }

  /** A row that existed keeps its Docker container, or has one of the report that belongs to it. */
  ghost predicate Remains(v: View, r: string, was: Row, row: Row)
  {
    row.host == was.host && (row.dockerId == was.dockerId || MovedTo(v, r, row))
  }

  /** What holds however the pass ended: nothing lost, nothing held twice. */
  ghost predicate Harmless(v: View, t: Tables)
  {
    && Consistent(t.containers, v.stacks) && SameElsewhere(v, t)
    && v.start.containers.Keys <= t.containers.Keys
    && (forall r :: r in t.containers ==> r in v.start.containers || r !in v.start.issued)
    && forall r :: r in v.start.containers ==> Remains(v, r, v.start.containers[r], t.containers[r])
  }

  lemma AdvancedIsHarmless(v: View, n: nat, t: Tables, held: Holders)
    requires n <= |v.reported| && Advanced(v, n, t, held)
    ensures Harmless(v, t)
  {
    hide Consistent, SameElsewhere, IsReported, Guarded, Touched, LastConflict, LastMatch, ClaimAt, Matches,
      Inserted, Mirrors;
    forall r | r in v.start.containers
      ensures Remains(v, r, v.start.containers[r], t.containers[r])
    {
      assert Expected(v, n, r, t.containers[r]);
      if LastMatch(v, n, r).Some? { MatchTouches(v, n, r); }
    }
  }

  // ---- lemmas about single writes ---------------------------------------------

  /** A claim that the holders allow cannot meet the service index. */
  lemma ServiceIsFree(v: View, n: nat, rows: map<string, Row>, held: Holders, r: string, row: Row)
    requires n <= |v.reported| && Discovered(v, n, rows)
    requires Guarded(v, rows, held) && Homed(rows, v.stacks) && DockerOnce(rows)
    requires row.host == v.host && ServiceKey(row).Some?
    requires row.stackId.value in v.stacks && v.stacks[row.stackId.value] == v.host
    requires r in v.start.containers || r !in rows
    requires ServiceKey(row).value !in held || (r in rows && held[ServiceKey(row).value] == HeldBy(r))
    ensures !ServiceTaken(rows, r, row)
  {
    forall s | s in rows && s != r
      ensures !SameService(rows[s], row)
    {
      assert Guards(v, held, s, rows[s]);
    }
  }

  lemma WriteKeepsConsistent(rows: map<string, Row>, stacks: map<string, string>, r: string, row: Row)
    requires Consistent(rows, stacks)
    requires !DockerTaken(rows, r, row) && !ServiceTaken(rows, r, row)
    requires ServiceKey(row).Some? ==> row.stackId.value in stacks && stacks[row.stackId.value] == row.host
    requires row.dockerId.Some? ==> row.snapshot.Some?
    ensures Consistent(rows[r := row], stacks)
  {
    assert forall s :: s in rows && s != r ==> !SameDocker(rows[s], row) && !SameDocker(row, rows[s]);
    assert forall s :: s in rows && s != r ==> !SameService(rows[s], row) && !SameService(row, rows[s]);
  }

  /** The tables a pass may begin with. */
  ghost predicate Ready(v: View)
  {
    Consistent(v.start.containers, v.stacks) && Named(v.start) && FreshStamp(v)
  }

  /** No earlier pass stamped anything with the stamp of this one. */
  ghost predicate FreshStamp(v: View)
  {
    forall r :: r in v.start.containers ==> v.start.containers[r].snapshot != Some(v.snapshot)
  }

  lemma TargetIsOne(v: View, item: Item, r: string, s: string)
    requires DockerOnce(v.start.containers) && Target(v, item, r) && Target(v, item, s)
    ensures r == s
  {
    assert HadDocker(v, r, item.dockerId) && HadDocker(v, s, item.dockerId) ==>
      SameDocker(v.start.containers[r], v.start.containers[s]);
  }

  // ---- one reported container ---------------------------------------------------

  /** A container that names nobody and was nobody's leaves every row as it was. */
  lemma NothingMatched(v: View, n: nat, rows: map<string, Row>)
    requires n < |v.reported| && Written(v, n, rows)
    requires forall r :: r in v.start.containers ==> !Matches(v, v.reported[n], r) && !Keeps(v, v.reported[n], r)
    ensures Written(v, n + 1, rows)
  {
    hide Matches, Keeps, ClaimAt;
    forall r | r in v.start.containers
      ensures Expected(v, n + 1, r, rows[r])
    {
      assert Expected(v, n, r, rows[r]);
    }
  }

  /** What keeping a row writes. */
  function KeptRow(v: View, item: Item, row: Row): Row
    requires Identity(item).Some?
  {
    if Contended(v, item)
    then row.(snapshot := Some(v.snapshot), conflict := Some(Claimants(v.reported, Identity(item).value)))
    else row.(snapshot := Some(v.snapshot))
  }

  lemma KeptWritten(v: View, n: nat, rows: map<string, Row>, r: string)
    requires n < |v.reported| && Written(v, n, rows) && Keeps(v, v.reported[n], r) && r in rows
    ensures Written(v, n + 1, rows[r := KeptRow(v, v.reported[n], rows[r])])
  {
    hide ObservedStack, ObservedConfig, Claimants, Target, ClaimAt;
    var after := rows[r := KeptRow(v, v.reported[n], rows[r])];
    forall s | s in v.start.containers
      ensures Expected(v, n + 1, s, after[s])
    {
      assert Expected(v, n, s, rows[s]);
      assert !Matches(v, v.reported[n], s);
      assert Keeps(v, v.reported[n], s) <==> s == r;
    }
  }

  lemma KeptAdvances(v: View, n: nat, t: Tables, held: Holders, r: string)
    requires n < |v.reported| && Advanced(v, n, t, held) && Keeps(v, v.reported[n], r) && r in t.containers
    ensures Advanced(v, n + 1, t.(containers := t.containers[r := KeptRow(v, v.reported[n], t.containers[r])]), held)
  {
    hide Written, Claimants, ClaimAt, Mirrors, Discovered, Inserted;
    var rows, row := t.containers, KeptRow(v, v.reported[n], t.containers[r]);
    KeptWritten(v, n, rows, r);
    NobodyTakes(v, n, held);
    TouchKeepsConsistent(rows, v.stacks, r, row);
    assert Guards(v, held, r, rows[r]);
    assert Guarded(v, rows[r := row], held);
    KeptDiscovered(v, n, rows, r);
    KeptInserted(v, n, rows, r);
  }

  lemma KeptDiscovered(v: View, n: nat, rows: map<string, Row>, r: string)
    requires n < |v.reported| && Discovered(v, n, rows) && Keeps(v, v.reported[n], r) && r in rows
    ensures Discovered(v, n + 1, rows[r := KeptRow(v, v.reported[n], rows[r])])
  {
    hide Claimants, ClaimAt, Newcomer, ObservedConfig;
    DiscoveredStill(v, n, rows);
    var row := KeptRow(v, v.reported[n], rows[r]);
    if r !in v.start.containers {
      var k :| 0 <= k < n && Newcomer(v, v.reported[k]) && Describes(v, rows[r], k);
      assert Describes(v, row, k);
      if Contended(v, v.reported[n]) { assert NotedFor(v, n, r, row.conflict.value); }
    }
  }

  lemma KeptInserted(v: View, n: nat, rows: map<string, Row>, r: string)
    requires n < |v.reported| && Inserted(v, n, rows) && Keeps(v, v.reported[n], r) && r in rows
    ensures Inserted(v, n + 1, rows[r := KeptRow(v, v.reported[n], rows[r])])
  {
    hide Claimants, ClaimAt, Target, ObservedConfig;
    var row := KeptRow(v, v.reported[n], rows[r]);
    forall k | 0 <= k < n + 1 && Newcomer(v, v.reported[k])
      ensures HasRow(v, rows[r := row], k)
    {
      assert HasRow(v, rows, k);
      var s :| s in rows && s !in v.start.containers && Describes(v, rows[s], k);
      assert Describes(v, rows[r := row][s], k);
    }
  }

  /** Stamping a row or noting a conflict meets no index. */
  lemma TouchKeepsConsistent(rows: map<string, Row>, stacks: map<string, string>, r: string, row: Row)
    requires Consistent(rows, stacks) && r in rows
    requires row == rows[r].(snapshot := row.snapshot, conflict := row.conflict)
    requires (rows[r].snapshot.Some? ==> row.snapshot.Some?)
    ensures Consistent(rows[r := row], stacks)
  {
    assert forall s :: s in rows && s != r ==> SameDocker(rows[s], row) == SameDocker(rows[s], rows[r]);
    assert forall s :: s in rows && s != r ==> SameService(rows[s], row) == SameService(rows[s], rows[r]);
    WriteKeepsConsistent(rows, stacks, r, row);
  }

  lemma KeptByNobody(v: View, n: nat, t: Tables, held: Holders, r: string)
    requires n < |v.reported| && Advanced(v, n, t, held) && Keeps(v, v.reported[n], r) && r !in t.containers
    ensures Advanced(v, n + 1, t, held)
  {
    hide Consistent, Guarded, Discovered, Target, Claimants;
    NobodyTakes(v, n, held);
    DiscoveredStill(v, n, t.containers);
    WrittenKeys(v, n, t.containers);
    NothingMatched(v, n, t.containers);
  }

  lemma DiscoveredStill(v: View, n: nat, rows: map<string, Row>)
    requires n < |v.reported| && Discovered(v, n, rows)
    ensures Discovered(v, n + 1, rows)
  {
    hide Describes, Newcomer;
  }

  /** A container that is not followed takes nothing. */
  lemma NobodyTakes(v: View, n: nat, held: Holders)
    requires n < |v.reported| && Mirrors(v, n, held) && !Followed(v, v.reported[n])
    ensures Mirrors(v, n + 1, held)
  {
    hide Followed, ClaimAt;
    forall key
      ensures HolderAt(v, n + 1, key) == if key in held then Some(held[key]) else None
    {
      assert !Takes(v, n, key);
      assert HolderAt(v, n + 1, key) == HolderAt(v, n, key);
    }
  }

  /** A container that is followed is attributed as the holders decide, and may become one of them. */
  lemma OneTakes(v: View, n: nat, held: Holders, claim: StackClaim, after: Holders)
    requires n < |v.reported| && Mirrors(v, n, held) && Followed(v, v.reported[n])
    requires Attributes(v, v.reported[n], TargetOf(v, v.reported[n]), held, claim, after)
    ensures claim == ClaimAt(v, n) && Mirrors(v, n + 1, after)
  {
    hide Followed, ObservedStack, TargetOf;
    var said := KeyOf(ObservedStack(v.reported[n]));
    if said.Some? { assert HolderAt(v, n, said.value).None? <==> said.value !in held; }
    assert claim == ClaimAt(v, n);
    forall key
      ensures HolderAt(v, n + 1, key) == if key in after then Some(after[key]) else None
    {
      assert HolderAt(v, n, key) == if key in held then Some(held[key]) else None;
      assert Takes(v, n, key) <==> KeyOf(claim) == Some(key);
    }
  }

  lemma WrittenKeys(v: View, n: nat, rows: map<string, Row>)
    requires n <= |v.reported| && Written(v, n, rows)
    ensures v.start.containers.Keys <= rows.Keys
  {
  }

  /** The columns a pass writes for a reported container. */
  function ObservedRow(v: View, item: Item, claim: StackClaim, conflict: Option<seq<string>>): Row
  {
    Row(v.host, Some(item.dockerId), item.name, ObservedConfig(item),
        claim.stackId, claim.service, claim.revision, Some(v.snapshot), conflict)
  }

  function KeyOf(claim: StackClaim): Option<(string, string)>
  {
    if claim.stackId.Some? && claim.service.Some? then Some((claim.stackId.value, claim.service.value)) else None
  }

  predicate IsHere(v: View, claim: StackClaim)
  {
    claim.stackId.Some? && claim.stackId.value in v.stacks && v.stacks[claim.stackId.value] == v.host
  }

  /** The stack is this host's and nobody else holds the service. */
  predicate Admits(v: View, claim: StackClaim, rowId: Option<string>, held: Holders)
  {
    && KeyOf(claim).Some? && IsHere(v, claim)
    && (KeyOf(claim).value !in held || (rowId.Some? && held[KeyOf(claim).value] == HeldBy(rowId.value)))
  }

  /** An attribution the holders allow, and the holders after it. */
  ghost predicate Allowed(v: View, item: Item, rowId: Option<string>, held: Holders, claim: StackClaim, after: Holders)
  {
    && claim in {ObservedStack(item), NOBODY}
    && (KeyOf(claim).None? ==> after == held)
    && (KeyOf(claim).Some? ==>
      && Admits(v, claim, rowId, held)
      && after == held[KeyOf(claim).value := if rowId.Some? then HeldBy(rowId.value) else HeldNew(item.dockerId)])
  }

  /** The claim is written whenever the holders allow it. */
  ghost predicate Attributes(v: View, item: Item, rowId: Option<string>, held: Holders, claim: StackClaim,
      after: Holders)
  {
    && Allowed(v, item, rowId, held, claim, after)
    && (claim == ObservedStack(item) <==>
      KeyOf(ObservedStack(item)).None? || Admits(v, ObservedStack(item), rowId, held))
  }

  lemma MatchWritten(v: View, n: nat, rows: map<string, Row>, r: string, claim: StackClaim)
    requires n < |v.reported| && Ready(v) && Written(v, n, rows) && Matches(v, v.reported[n], r)
    requires claim == ClaimAt(v, n) && r in rows
    ensures Written(v, n + 1, rows[r := ObservedRow(v, v.reported[n], claim, rows[r].conflict)])
  {
    hide Consistent, Claimants, ObservedStack, ObservedConfig, ClaimAt;
    var after := rows[r := ObservedRow(v, v.reported[n], claim, rows[r].conflict)];
    forall s | s in v.start.containers
      ensures Expected(v, n + 1, s, after[s])
    {
      assert Expected(v, n, s, rows[s]);
      if Matches(v, v.reported[n], s) {
        ReadyIsOnce(v);
        TargetIsOne(v, v.reported[n], r, s);
      }
      assert !Keeps(v, v.reported[n], s);
    }
  }

  lemma ReadyIsOnce(v: View)
    requires Ready(v)
    ensures DockerOnce(v.start.containers)
  {
  }

  /** Who held which service stays true when one row moves within what is allowed. */
  lemma GuardedAfter(v: View, n: nat, rows: map<string, Row>, held: Holders, r: string, row: Row, item: Item,
      claim: StackClaim, after: Holders)
    requires n <= |v.reported| && Guarded(v, rows, held) && DockerOnce(rows) && Discovered(v, n, rows)
    requires row == ObservedRow(v, item, claim, row.conflict)
    requires r in v.start.containers || r !in rows
    requires Allowed(v, item, if r in v.start.containers then Some(r) else None, held, claim, after)
    ensures Guarded(v, rows[r := row], after)
  {
    hide ObservedStack, ObservedConfig, DockerOnce;
    var later := rows[r := row];
    forall s | s in later
      ensures Guards(v, after, s, later[s])
    {
      if s != r {
        assert Guards(v, held, s, rows[s]);
      }
    }
  }

  lemma WriteAdvances(v: View, n: nat, t: Tables, held: Holders, r: string, claim: StackClaim,
      conflict: Option<seq<string>>, after: Holders)
    requires n < |v.reported| && Ready(v) && Advanced(v, n, t, held)
    requires r in v.start.containers || (r !in t.containers && r !in t.issued)
    requires Allowed(v, v.reported[n], if r in v.start.containers then Some(r) else None, held, claim, after)
    ensures var row := ObservedRow(v, v.reported[n], claim, conflict);
      !ServiceTaken(t.containers, r, row) &&
      (!DockerTaken(t.containers, r, row) ==>
        Consistent(t.containers[r := row], v.stacks) && Guarded(v, t.containers[r := row], after))
  {
    hide Written, ObservedStack, ObservedConfig;
    var row := ObservedRow(v, v.reported[n], claim, conflict);
    WrittenKeys(v, n, t.containers);
    if ServiceKey(row).Some? {
      ServiceIsFree(v, n, t.containers, held, r, row);
    }
    if !DockerTaken(t.containers, r, row) {
      WriteKeepsConsistent(t.containers, v.stacks, r, row);
      GuardedAfter(v, n, t.containers, held, r, row, v.reported[n], claim, after);
    }
  }

  // ---- the pass -----------------------------------------------------------------

  datatype Outcome = Done | Faulted | UnreadableIdentity | DockerIdTaken | ServiceContested

  ghost predicate Indexed(v: View, byDockerId: map<string, string>)
  {
    forall d, r :: d in byDockerId && byDockerId[d] == r <==> HadDocker(v, r, d)
  }

  ghost predicate Counted(v: View, claimed: map<string, seq<string>>)
  {
    forall id :: Claimants(v.reported, id) == if id in claimed then claimed[id] else []
  }

  /** A row of the host that has a Docker container and the stamp of another pass. */
  predicate Unseen(row: Row, host: string, snapshot: string)
  {
    row.host == host && row.dockerId.Some? && row.snapshot.Some? && row.snapshot.value != snapshot
  }

  /** Without the rows a complete pass did not see, nor their configurations. */
  function Swept(t: Tables, host: string, snapshot: string): Tables
  {
    var gone := set r | r in t.containers && Unseen(t.containers[r], host, snapshot);
    t.(containers := t.containers - gone,
       configs := map c | c in t.configs && t.configs[c].container !in gone :: t.configs[c])
  }

  ghost predicate PassEnded(v: View, t: Tables)
  {
    && Written(v, |v.reported|, t.containers) && Discovered(v, |v.reported|, t.containers)
    && Inserted(v, |v.reported|, t.containers)
    && Harmless(v, t)
  }

  /** The Docker container of a row that existed, after some of the report. */
  ghost function DockerAfter(v: View, n: nat, r: string): Option<string>
    requires n <= |v.reported| && r in v.start.containers
  {
    match LastMatch(v, n, r)
    case None => v.start.containers[r].dockerId
    case Some(k) => Some(v.reported[k].dockerId)
  }

  ghost predicate HeldByRow(v: View, n: nat, r: string)
    requires n < |v.reported|
  {
    && Existing(v, r) && TargetOf(v, v.reported[n]) != Some(r)
    && DockerAfter(v, n, r) == Some(v.reported[n].dockerId)
  }

  /** Some other row has this Docker container, or an earlier one of the report got a new row under its identifier. */
  ghost predicate DockerHeld(v: View, n: nat)
    requires n < |v.reported|
  {
    || (exists r :: HeldByRow(v, n, r))
    || exists k :: 0 <= k < n && Newcomer(v, v.reported[k]) && v.reported[k].dockerId == v.reported[n].dockerId
  }

  /** A reported container that ends the pass: its identity is unreadable, or its Docker identifier is held. */
  ghost predicate Stuck(v: View, n: nat)
    requires n < |v.reported|
  {
    var item := v.reported[n];
    if Followed(v, item) then DockerHeld(v, n)
    else item.dockerId != "" && v.parse(Identity(item).value) == None
  }

  ghost predicate NoneStuck(v: View)
  {
    forall n :: 0 <= n < |v.reported| ==> !Stuck(v, n)
  }

  /** No Docker container is reported twice, and none is had by a row it does not belong to. */
  ghost predicate Undisputed(v: View)
  {
    && (forall j, k :: 0 <= j < k < |v.reported| ==> v.reported[j].dockerId != v.reported[k].dockerId)
    && forall n, r :: 0 <= n < |v.reported| && HadDocker(v, r, v.reported[n].dockerId) ==>
      TargetOf(v, v.reported[n]) == Some(r)
  }

  /** A pass over such a report, with readable identities, is never stuck. */
  lemma UndisputedIsNotStuck(v: View)
    requires Undisputed(v)
    requires forall n :: 0 <= n < |v.reported| && Identity(v.reported[n]).Some? ==>
      v.parse(Identity(v.reported[n]).value).Some?
    ensures NoneStuck(v)
  {
    hide TargetOf, Claimants, Identity;
    forall n | 0 <= n < |v.reported|
      ensures !Stuck(v, n)
    {
      forall r
        ensures !HeldByRow(v, n, r)
      {
        if Existing(v, r) && LastMatch(v, n, r).Some? { assert LastMatch(v, n, r).value < n; }
      }
    }
  }

  /** The unique index refuses exactly what the report so far says is held. */
  lemma DockerTakenIff(v: View, n: nat, t: Tables, held: Holders, r: string, row: Row)
    requires n < |v.reported| && Advanced(v, n, t, held)
    requires row.host == v.host && row.dockerId == Some(v.reported[n].dockerId)
    requires if r in v.start.containers then TargetOf(v, v.reported[n]) == Some(r)
      else r !in t.containers && TargetOf(v, v.reported[n]) == None
    ensures DockerTaken(t.containers, r, row) <==> DockerHeld(v, n)
  {
    hide Guarded, Mirrors, Consistent, SameElsewhere, Discovered, Inserted, Newcomer, TargetOf, Expected, SameDocker,
      HeldByRow;
    var rows := t.containers;
    if DockerTaken(rows, r, row) {
      var s :| s in rows && s != r && SameDocker(rows[s], row);
      if s in v.start.containers {
        RowHolds(v, n, s, rows[s], row);
        NotTheTarget(v, n, s);
      } else {
        var k := NewRowHolds(v, n, rows, s, row);
      }
    }
    if s :| HeldByRow(v, n, s) {
      NotTheTarget(v, n, s);
      RowHolds(v, n, s, rows[s], row);
    } else if k :| 0 <= k < n && Newcomer(v, v.reported[k]) && v.reported[k].dockerId == v.reported[n].dockerId {
      var s := NewRowOf(v, n, rows, k, row);
    }
  }

  lemma NotTheTarget(v: View, n: nat, r: string)
    requires n < |v.reported|
    ensures HeldByRow(v, n, r) <==>
      && Existing(v, r) && TargetOf(v, v.reported[n]) != Some(r)
      && DockerAfter(v, n, r) == Some(v.reported[n].dockerId)
  {
  }

  lemma RowHolds(v: View, n: nat, s: string, now: Row, row: Row)
    requires n < |v.reported| && s in v.start.containers && Expected(v, n, s, now)
    requires row.host == v.host && row.dockerId == Some(v.reported[n].dockerId)
    ensures SameDocker(now, row) <==> Existing(v, s) && DockerAfter(v, n, s) == Some(v.reported[n].dockerId)
  {
    hide LastMatch, LastConflict, Touched, ClaimAt, ObservedConfig;
  }

  lemma NewRowHolds(v: View, n: nat, rows: map<string, Row>, s: string, row: Row) returns (k: nat)
    requires n < |v.reported| && Discovered(v, n, rows) && s in rows && s !in v.start.containers
    requires SameDocker(rows[s], row) && row.dockerId == Some(v.reported[n].dockerId)
    ensures k < n && Newcomer(v, v.reported[k]) && v.reported[k].dockerId == v.reported[n].dockerId
  {
    hide Newcomer, ClaimAt, ObservedConfig, Noted;
    assert IsReported(v, n, rows[s]);
    k :| k < n && Newcomer(v, v.reported[k]) && Describes(v, rows[s], k);
  }

  lemma NewRowOf(v: View, n: nat, rows: map<string, Row>, k: nat, row: Row) returns (s: string)
    requires k < n < |v.reported| && Inserted(v, n, rows) && Newcomer(v, v.reported[k])
    requires row.host == v.host && row.dockerId == Some(v.reported[k].dockerId)
    ensures s in rows && s !in v.start.containers && SameDocker(rows[s], row)
  {
    hide Newcomer, ClaimAt, ObservedConfig;
    assert HasRow(v, rows, k);
    s :| s in rows && s !in v.start.containers && Describes(v, rows[s], k);
  }

  /** Every reported container was written, and then the rest was swept. */
  ghost predicate Settled(v: View, t: Tables)
  {
    exists mid: Tables :: PassEnded(v, mid) && t == Swept(mid, v.host, v.snapshot)
  }

  /** What the steps of a pass came to: inventory, metrics, receiving the list of containers, and projects. */
  datatype Answers = Answers(inventory: bool, metrics: bool, listed: bool, projects: bool)

  class Discoverer {
    const db: Database

    constructor (db: Database)
      ensures this.db == db
    {
      this.db := db;
    }

    /** An update or insert under both unique indexes; any statement may also fail by itself. */
    method Write(r: string, row: Row) returns (outcome: Outcome)
      modifies db
      ensures outcome in {Done, Faulted, DockerIdTaken, ServiceContested}
      ensures outcome == Done ==> !DockerTaken(old(db.tables).containers, r, row)
      ensures outcome == DockerIdTaken ==> DockerTaken(old(db.tables).containers, r, row)
      ensures outcome == Faulted ==> !db.faultless
      ensures outcome == Done ==>
        db.tables == old(db.tables).(containers := old(db.tables).containers[r := row],
          issued := old(db.tables).issued + {r})
      ensures outcome == ServiceContested ==> ServiceTaken(old(db.tables).containers, r, row)
      ensures outcome != Done ==> db.tables == old(db.tables)
    {
      var fault: bool := *;
      if fault && !db.faultless {
        return Faulted;
      }
      if DockerTaken(db.tables.containers, r, row) {
        return DockerIdTaken;
      }
      if ServiceTaken(db.tables.containers, r, row) {
        return ServiceContested;
      }
      db.tables := db.tables.(containers := db.tables.containers[r := row], issued := db.tables.issued + {r});
      return Done;
    }

    /** Two claimants: noted on the row they name, which then counts as seen. */
    method RecordAndKeep(v: View, n: nat, claimants: seq<string>, contended: bool, ghost held: Holders)
      returns (outcome: Outcome)
      requires n < |v.reported| && Advanced(v, n, db.tables, held)
      requires v.reported[n].dockerId != "" && Identity(v.reported[n]).Some?
      requires Moving(v, v.reported[n]) || Contended(v, v.reported[n])
      requires contended == Contended(v, v.reported[n])
      requires claimants == Claimants(v.reported, Identity(v.reported[n]).value)
      modifies db
      ensures outcome in {Done, Faulted, UnreadableIdentity} && (outcome == Faulted ==> !db.faultless)
      ensures outcome == UnreadableIdentity <==> v.parse(Identity(v.reported[n]).value).None?
      ensures outcome == Done ==> Advanced(v, n + 1, db.tables, held)
      ensures outcome != Done ==> Harmless(v, db.tables)
    {
      hide Advanced, Claimants, Harmless, Contended, Moving;
      AdvancedIsHarmless(v, n, db.tables, held);
      var parsed := v.parse(Identity(v.reported[n]).value);
      if parsed.None? {
        return UnreadableIdentity;
      }
      var r := parsed.value;
      var fault: bool := *;
      if fault && !db.faultless {
        return Faulted;
      }
      if r !in db.tables.containers {
        KeptByNobody(v, n, db.tables, held, r);
        return Done;
      }
      ghost var before := db.tables;
      KeptAdvances(v, n, db.tables, held, r);
      ConflictIsHarmless(v, db.tables, r, claimants);
      if contended {
        db.tables := db.tables.(containers :=
          db.tables.containers[r := db.tables.containers[r].(conflict := Some(claimants))]);
      }
      fault := *;
      if fault && !db.faultless {
        return Faulted;
      }
      db.tables := db.tables.(containers :=
        db.tables.containers[r := db.tables.containers[r].(snapshot := Some(v.snapshot))]);
      assert db.tables.containers == before.containers[r := KeptRow(v, v.reported[n], before.containers[r])];
      return Done;
    }

    static lemma ConflictIsHarmless(v: View, t: Tables, r: string, claimants: seq<string>)
      requires Harmless(v, t) && r in t.containers
      ensures Harmless(v, t.(containers := t.containers[r := t.containers[r].(conflict := Some(claimants))]))
    {
      hide Consistent, Matches;
      TouchKeepsConsistent(t.containers, v.stacks, r, t.containers[r].(conflict := Some(claimants)));
    }

    method AttributeToStack(v: View, item: Item, rowId: Option<string>, held: Holders)
      returns (claim: StackClaim, after: Holders)
      ensures Attributes(v, item, rowId, held, claim, after)
    {
      claim, after := ObservedStack(item), held;
      if claim.stackId.None? || claim.service.None? {
        return;
      }
      if claim.stackId.value !in v.stacks || v.stacks[claim.stackId.value] != v.host {
        return NOBODY, held;
      }
      var key := (claim.stackId.value, claim.service.value);
      if key in held && (rowId.None? || held[key] != HeldBy(rowId.value)) {
        return NOBODY, held;
      }
      after := held[key := if rowId.Some? then HeldBy(rowId.value) else HeldNew(item.dockerId)];
    }

    /** A container that belongs to a row is written over it. */
    method UpdateRow(v: View, n: nat, r: string, held: Holders) returns (outcome: Outcome, after: Holders)
      requires n < |v.reported| && Ready(v) && Advanced(v, n, db.tables, held) && Matches(v, v.reported[n], r)
      modifies db
      ensures outcome in {Done, Faulted, DockerIdTaken} && (outcome == Faulted ==> !db.faultless)
      ensures outcome != Faulted ==> (outcome == DockerIdTaken <==> DockerHeld(v, n))
      ensures outcome == Done ==> Advanced(v, n + 1, db.tables, after)
      ensures outcome != Done ==> Harmless(v, db.tables)
    {
      hide Guarded, Discovered, Consistent, Ready, Harmless, Expected, DockerTaken, ServiceTaken, Allowed, Keeps,
        Mirrors, ClaimAt;
      AdvancedIsHarmless(v, n, db.tables, held);
      var claim;
      claim, after := AttributeToStack(v, v.reported[n], Some(r), held);
      ghost var before := db.tables;
      var row := ObservedRow(v, v.reported[n], claim, db.tables.containers[r].conflict);
      WriteAdvances(v, n, db.tables, held, r, claim, row.conflict, after);
      ReadyIsOnce(v);
      TargetIsOne(v, v.reported[n], r, TargetOf(v, v.reported[n]).value);
      OneTakes(v, n, held, claim, after);
      MatchWritten(v, n, db.tables.containers, r, claim);
      DiscoveredAfter(v, n, db.tables.containers, r, row);
      DockerTakenIff(v, n, db.tables, held, r, row);
      outcome := Write(r, row);
    }

    static lemma DiscoveredAfter(v: View, n: nat, rows: map<string, Row>, r: string, row: Row)
      requires n < |v.reported| && Discovered(v, n, rows)
      requires r in v.start.containers || (r !in v.start.issued && IsReported(v, n + 1, row) && row.conflict == None)
      ensures Discovered(v, n + 1, rows[r := row])
    {
      hide Describes, Newcomer;
      DiscoveredStill(v, n, rows);
    }

    /** A container nobody knew becomes a row of its own. */
    method InsertRow(v: View, n: nat, held: Holders) returns (outcome: Outcome, after: Holders)
      requires n < |v.reported| && Ready(v) && Advanced(v, n, db.tables, held)
      requires Newcomer(v, v.reported[n])
      requires forall r :: !Matches(v, v.reported[n], r) && !Keeps(v, v.reported[n], r)
      modifies db
      ensures outcome in {Done, Faulted, DockerIdTaken} && (outcome == Faulted ==> !db.faultless)
      ensures outcome != Faulted ==> (outcome == DockerIdTaken <==> DockerHeld(v, n))
      ensures outcome == Done ==> Advanced(v, n + 1, db.tables, after)
      ensures outcome != Done ==> Harmless(v, db.tables)
    {
      hide Guarded, Discovered, Consistent, Ready, Harmless, Expected, DockerTaken, ServiceTaken, Allowed, Keeps,
        Matches, Mirrors, ClaimAt;
      AdvancedIsHarmless(v, n, db.tables, held);
      var claim;
      claim, after := AttributeToStack(v, v.reported[n], None, held);
      var r := NewIdentifier(db.tables.issued);
      NotStarted(v, db.tables, r);
      var row := ObservedRow(v, v.reported[n], claim, None);
      WriteAdvances(v, n, db.tables, held, r, claim, None, after);
      OneTakes(v, n, held, claim, after);
      assert Describes(v, row, n);
      DiscoveredAfter(v, n, db.tables.containers, r, row);
      DockerTakenIff(v, n, db.tables, held, r, row);
      NothingMatched(v, n, db.tables.containers);
      ghost var before := db.tables;
      outcome := Write(r, row);
      if outcome == Done {
        StillWritten(v, n + 1, before.containers, db.tables.containers);
      }
    }

    /** A random identifier, which has not been given out before. */
    static method NewIdentifier(issued: set<string>) returns (r: string)
      ensures r !in issued
    {
      r := *;
      if r !in issued {
        return;
      }
      r := "";
      ghost var tried: set<string> := {};
      while r in issued
        invariant tried <= issued && |tried| == |r| && forall s :: s in tried ==> |s| < |r|
        decreases |issued| - |r|
      {
        tried := tried + {r};
        FewerThan(tried, issued);
        r := r + "0";
      }
    }

    static lemma FewerThan(part: set<string>, whole: set<string>)
      requires part <= whole
      ensures |part| <= |whole|
    {
      assert whole == part + (whole - part);
    }

    static lemma NotStarted(v: View, t: Tables, r: string)
      requires Ready(v) && SameElsewhere(v, t) && r !in t.issued
      ensures r !in v.start.containers && r !in t.containers && r !in v.start.issued
    {
    }

    static lemma StillWritten(v: View, n: nat, rows: map<string, Row>, more: map<string, Row>)
      requires n <= |v.reported| && Written(v, n, rows)
      requires forall r :: r in v.start.containers ==> r in more && (r in rows ==> more[r] == rows[r])
      ensures Written(v, n, more)
    {
      hide Expected;
      forall r | r in v.start.containers
        ensures Expected(v, n, r, more[r])
      {
        assert Expected(v, n, r, rows[r]);
      }
    }

    method ApplyItem(v: View, n: nat, claimed: map<string, seq<string>>, byDockerId: map<string, string>, held: Holders)
      returns (outcome: Outcome, after: Holders)
      requires n < |v.reported| && Ready(v) && Advanced(v, n, db.tables, held)
      requires Counted(v, claimed) && Indexed(v, byDockerId)
      modifies db
      ensures outcome != ServiceContested && (outcome == Faulted ==> !db.faultless)
      ensures outcome != Faulted ==> (outcome == Done <==> !Stuck(v, n))
      ensures outcome == Done ==> Advanced(v, n + 1, db.tables, after)
      ensures outcome != Done ==> Harmless(v, db.tables)
    {
      hide Advanced, Harmless, Ready, Claimants;
      var item := v.reported[n];
      after := held;
      if item.dockerId == "" {
        SkippedAdvances(v, n, db.tables, held);
        return Done, held;
      }
      var identity := Identity(item);
      if identity.Some? {
        var claimants := if identity.value in claimed then claimed[identity.value] else [];
        var moving := identity.value in v.inFlight;
        if moving || |claimants| > 1 {
          outcome := RecordAndKeep(v, n, claimants, !moving, held);
          return;
        }
      }
      if identity.Some? && Existing(v, identity.value) {
        outcome, after := UpdateRow(v, n, identity.value, held);
      } else if item.dockerId in byDockerId {
        outcome, after := UpdateRow(v, n, byDockerId[item.dockerId], held);
      } else {
        outcome, after := InsertRow(v, n, held);
      }
    }

    static lemma SkippedAdvances(v: View, n: nat, t: Tables, held: Holders)
      requires n < |v.reported| && Advanced(v, n, t, held) && v.reported[n].dockerId == ""
      ensures Advanced(v, n + 1, t, held)
    {
      hide Guarded, Discovered, Consistent;
      NobodyTakes(v, n, held);
      DiscoveredStill(v, n, t.containers);
      NothingMatched(v, n, t.containers);
    }

    /** Which containers claim which identity. */
    method CountClaims(v: View) returns (claimed: map<string, seq<string>>)
      ensures Counted(v, claimed)
    {
      claimed := map[];
      for i := 0 to |v.reported|
        invariant forall id :: Claimants(v.reported[..i], id) == if id in claimed then claimed[id] else []
      {
        assert v.reported[..i + 1][..i] == v.reported[..i];
        var item := v.reported[i];
        var identity := Identity(item);
        if identity.Some? && item.dockerId != "" {
          claimed := claimed[identity.value :=
            (if identity.value in claimed then claimed[identity.value] else []) + [item.dockerId]];
        }
      }
      assert v.reported[..|v.reported|] == v.reported;
    }

    /** Which row holds which service when the pass begins. */
    method HoldersAtStart(v: View) returns (held: Holders)
      requires Ready(v)
      ensures Guarded(v, v.start.containers, held) && Mirrors(v, 0, held)
    {
      hide Homed, Stamped, DockerOnce;
      held := map[];
      var todo := set r | r in v.start.containers && Existing(v, r);
      while todo != {}
        invariant forall r :: r in todo ==> Existing(v, r)
        invariant forall r :: r in v.start.containers && r !in todo ==> Guards(v, held, r, v.start.containers[r])
        invariant forall key :: key in held ==> held[key].HeldBy? && HeldAtStart(v, held[key].row, key)
        decreases |todo|
      {
        var r :| r in todo;
        var row := v.start.containers[r];
        if row.stackId.Some? && row.stackService.Some? {
          forall s | s in v.start.containers && s !in todo
            ensures Guards(v, held[(row.stackId.value, row.stackService.value) := HeldBy(r)], s, v.start.containers[s])
          {
            assert Guards(v, held, s, v.start.containers[s]);
            assert !SameService(v.start.containers[s], row);
          }
          held := held[(row.stackId.value, row.stackService.value) := HeldBy(r)];
        }
        todo := todo - {r};
      }
      StartMirrored(v, held);
    }

    static lemma StartMirrored(v: View, held: Holders)
      requires ServiceOnce(v.start.containers) && Guarded(v, v.start.containers, held)
      requires forall key :: key in held ==> held[key].HeldBy? && HeldAtStart(v, held[key].row, key)
      ensures Mirrors(v, 0, held)
    {
      forall key
        ensures HolderAt(v, 0, key) == if key in held then Some(held[key]) else None
      {
        if r :| HeldAtStart(v, r, key) {
          assert Guards(v, held, r, v.start.containers[r]);
          forall s | HeldAtStart(v, s, key)
            ensures s == r
          {
            assert SameService(v.start.containers[r], v.start.containers[s]);
          }
        }
      }
    }

    method ApplyContainers(v: View) returns (outcome: Outcome)
      requires Ready(v) && db.tables == v.start
      modifies db
      ensures outcome != ServiceContested && (outcome == Faulted ==> !db.faultless)
      ensures outcome != Faulted ==> (outcome == Done <==> NoneStuck(v))
      ensures outcome == Done ==> PassEnded(v, db.tables)
      ensures Harmless(v, db.tables)
    {
      hide Ready, Consistent, Guarded, Counted, Indexed, Harmless, Touched, Written, Discovered, SameElsewhere, Mirrors;
      var byDockerId := IndexByDocker(v);
      var claimed := CountClaims(v);
      var held := HoldersAtStart(v);
      StartAdvances(v, held);
      for n := 0 to |v.reported|
        invariant Advanced(v, n, db.tables, held) && forall k :: 0 <= k < n ==> !Stuck(v, k)
      {
        outcome, held := ApplyItem(v, n, claimed, byDockerId, held);
        if outcome != Done {
          return;
        }
      }
      AdvancedIsHarmless(v, |v.reported|, db.tables, held);
      return Done;
    }

    static lemma StartAdvances(v: View, held: Holders)
      requires Ready(v) && Guarded(v, v.start.containers, held) && Mirrors(v, 0, held)
      ensures Advanced(v, 0, v.start, held)
    {
      hide Guarded, Consistent, Mirrors;
    }

    method IndexByDocker(v: View) returns (byDockerId: map<string, string>)
      requires Ready(v)
      ensures Indexed(v, byDockerId)
    {
      hide Homed, Stamped, ServiceOnce;
      forall d, r, s | HadDocker(v, r, d) && HadDocker(v, s, d)
        ensures r == s
      {
        assert SameDocker(v.start.containers[r], v.start.containers[s]);
      }
      byDockerId := map r | r in v.start.containers && Existing(v, r) && v.start.containers[r].dockerId.Some? ::
        v.start.containers[r].dockerId.value := r;
    }

    /** Removes what a complete pass did not see. */
    method Reconcile(host: string, snapshot: string)
      modifies db
      ensures db.tables == Swept(old(db.tables), host, snapshot)
    {
      var rows, configs := db.tables.containers, db.tables.configs;
      db.tables := db.tables.(
        containers := map r | r in rows && !Unseen(rows[r], host, snapshot) :: rows[r],
        configs := map c | c in configs &&
          !(configs[c].container in rows && Unseen(rows[configs[c].container], host, snapshot)) :: configs[c]);
    }

    /** Each step is attempted whatever became of the others; only a complete pass removes rows. */
    method Sync(v: View, answers: Answers) returns (complete: bool, applied: bool)
      requires Ready(v) && db.tables == v.start
      modifies db
      ensures complete <==> answers.inventory && answers.metrics && applied && answers.projects
      ensures applied ==> answers.listed && NoneStuck(v)
      ensures db.faultless ==> (applied <==> answers.listed && NoneStuck(v))
      ensures complete ==> Settled(v, db.tables)
      ensures !complete ==> Harmless(v, db.tables) && (applied ==> PassEnded(v, db.tables))
      ensures !answers.listed ==> db.tables == v.start
    {
      hide Ready, Harmless, Written, Discovered, Inserted, PassEnded, NoneStuck;
      complete := answers.inventory && answers.metrics;
      applied := false;
      StartIsHarmless(v);
      if answers.listed {
        var outcome := ApplyContainers(v);
        applied := outcome == Done;
      }
      if !applied || !answers.projects {
        complete := false;
      }
      PassEndedHarmless(v, db.tables);
      if complete {
        Reconcile(v.host, v.snapshot);
      }
    }

    static lemma PassEndedHarmless(v: View, t: Tables)
      ensures PassEnded(v, t) ==> Harmless(v, t)
    {
    }

    static lemma StartIsHarmless(v: View)
      requires Ready(v)
      ensures Harmless(v, v.start)
    {
      hide Consistent;
    }
  }

  // ---- what an attribution means -------------------------------------------------

  /** Whoever had the service or was given it since is this row. */
  ghost predicate OnlyFor(v: View, n: nat, key: (string, string), r: string)
    requires n <= |v.reported|
  {
    && (forall s :: HeldAtStart(v, s, key) ==> s == r)
    && forall k :: 0 <= k < n && Takes(v, k, key) ==> TargetOf(v, v.reported[k]) == Some(r)
  }

  ghost predicate Untaken(v: View, n: nat, key: (string, string))
    requires n <= |v.reported|
  {
    (forall r :: !HeldAtStart(v, r, key)) && forall k :: 0 <= k < n ==> !Takes(v, k, key)
  }

  /** A service is taken only from nobody, or by the row that has it. */
  lemma WasFree(v: View, n: nat, key: (string, string))
    requires n < |v.reported| && Takes(v, n, key)
    ensures var holder, r := HolderAt(v, n, key), TargetOf(v, v.reported[n]);
      holder.None? || (r.Some? && holder == Some(HeldBy(r.value)))
  {
    hide TargetOf, Followed;
    var claim := ObservedStack(v.reported[n]);
    assert ClaimAt(v, n) == claim;
  }

  lemma {:induction false} HolderTells(v: View, n: nat, key: (string, string))
    requires n <= |v.reported| && ServiceOnce(v.start.containers)
    ensures HolderAt(v, n, key).None? <==> Untaken(v, n, key)
    ensures forall r :: HolderAt(v, n, key) == Some(HeldBy(r)) ==> OnlyFor(v, n, key, r)
    ensures HolderAt(v, n, key).Some? && HolderAt(v, n, key).value.HeldNew? ==>
      exists k :: 0 <= k < n && Takes(v, k, key) && TargetOf(v, v.reported[k]).None?
  {
    hide ObservedStack, TargetOf, Followed;
    if n == 0 {
      forall r, s | HeldAtStart(v, r, key) && HeldAtStart(v, s, key)
        ensures r == s
      {
        assert SameService(v.start.containers[r], v.start.containers[s]);
      }
    } else {
      HolderTells(v, n - 1, key);
      if Takes(v, n - 1, key) { WasFree(v, n - 1, key); }
    }
  }

  /**
   A container that says it is a service of a stack is attributed to it if and only
   if the stack is this host's and no other row had the service when the pass began,
   nor was any earlier container of the report, unless it went to the same row, given it.
   */
  lemma AttributedIff(v: View, n: nat, key: (string, string))
    requires n < |v.reported| && ServiceOnce(v.start.containers) && KeyOf(ObservedStack(v.reported[n])) == Some(key)
    ensures var r := TargetOf(v, v.reported[n]);
      ClaimAt(v, n) == ObservedStack(v.reported[n]) <==>
        && IsHere(v, ObservedStack(v.reported[n]))
        && (Untaken(v, n, key) || (r.Some? && OnlyFor(v, n, key, r.value)))
  {
    hide ObservedStack, TargetOf;
    HolderTells(v, n, key);
  }

  // ---- what a complete pass means ---------------------------------------------

  /** After a complete pass a row with a Docker container is there exactly when the pass saw it. */
  lemma SurvivesIffSeen(v: View, t: Tables, r: string)
    requires Ready(v) && Settled(v, t) && Existing(v, r)
    ensures r in t.containers <==> v.start.containers[r].dockerId == None || Touched(v, |v.reported|, r)
  {
    hide DockerOnce, ServiceOnce, Homed, ClaimAt, Harmless, Discovered, Matches, Keeps;
    var mid: Tables :| PassEnded(v, mid) && t == Swept(mid, v.host, v.snapshot);
    assert Expected(v, |v.reported|, r, mid.containers[r]);
    if LastMatch(v, |v.reported|, r).Some? {
      MatchTouches(v, |v.reported|, r);
    }
  }

  lemma {:induction false} MatchTouches(v: View, n: nat, r: string)
    requires n <= |v.reported| && LastMatch(v, n, r).Some?
    ensures Touched(v, n, r) && Matches(v, v.reported[LastMatch(v, n, r).value], r)
  {
    hide Matches, Keeps;
    if !Matches(v, v.reported[n - 1], r) {
      MatchTouches(v, n - 1, r);
    }
  }

  /** Rows of other hosts and rows written by the pass itself are never swept. */
  lemma OthersSurvive(v: View, t: Tables, r: string)
    requires Ready(v) && Settled(v, t) && r in v.start.containers && !Existing(v, r)
    ensures r in t.containers && t.containers[r].dockerId == v.start.containers[r].dockerId
  {
    hide DockerOnce, ServiceOnce, Homed, ClaimAt, Harmless, Discovered, Keeps, Contended, Moving;
    var mid: Tables :| PassEnded(v, mid) && t == Swept(mid, v.host, v.snapshot);
    assert Expected(v, |v.reported|, r, mid.containers[r]);
    if LastMatch(v, |v.reported|, r).Some? {
      MatchTouches(v, |v.reported|, r);
    }
  }

  /** A configuration goes exactly when its row goes, and is otherwise as it was. */
  lemma ConfigurationsSurvive(v: View, t: Tables)
    requires Sound(v.start) && Settled(v, t)
    ensures forall c :: c in t.configs <==> c in v.start.configs && v.start.configs[c].container in t.containers
    ensures forall c :: c in t.configs ==> t.configs[c] == v.start.configs[c]
  {
    hide Consistent, Written, Discovered, Inserted, Remains, OneOfEach;
    var mid: Tables :| PassEnded(v, mid) && t == Swept(mid, v.host, v.snapshot);
    assert forall c :: c in v.start.configs ==> v.start.configs[c].container in mid.containers;
  }

  /** What the rows hold after a complete pass: those that stayed what the report says, and the new ones too. */
  lemma SettledRows(v: View, t: Tables)
    requires Settled(v, t)
    ensures forall r :: r in t.containers && r in v.start.containers ==>
      Expected(v, |v.reported|, r, t.containers[r])
    ensures Discovered(v, |v.reported|, t.containers) && Inserted(v, |v.reported|, t.containers)
  {
    hide Consistent, Harmless, Expected, IsReported, Noted, Newcomer, ClaimAt;
    var mid: Tables :| PassEnded(v, mid) && t == Swept(mid, v.host, v.snapshot);
    forall k | 0 <= k < |v.reported| && Newcomer(v, v.reported[k])
      ensures HasRow(v, t.containers, k)
    {
      var r :| r in mid.containers && r !in v.start.containers && Describes(v, mid.containers[r], k);
      assert r in t.containers && Describes(v, t.containers[r], k);
    }
  }

  /** The indexes hold after a complete pass too. */
  lemma SettledIsConsistent(v: View, t: Tables)
    requires Settled(v, t)
    ensures Consistent(t.containers, v.stacks)
  {
    var mid: Tables :| PassEnded(v, mid) && t == Swept(mid, v.host, v.snapshot);
  }
}
