/**
 What the control server accepts, stores and sends
 (api/src/containers/container-spec.ts and desired-config.ts).

 The server checks a request, stores its environment variable by variable, and
 later builds the specification for the agent from what it stored. The agent
 checks again with a validator written in another language. The main result is
 that the second check never refuses what the first one accepted, over every
 history of edits.
 */
module ServerSpec {
  import opened Wrappers
  import opened AgentSpec

  datatype PortRequest = PortRequest(containerPort: int, hostPort: int, protocol: string, hostIp: Option<string>)

  /** An environment variable, and what is being done to it. */
  datatype Entry =
    | Set(key: string, value: string)
    | SetSecret(key: string, value: string)
    | Unchanged(key: string)
    | Remove(key: string)

  datatype Request = Request(
    image: string,
    hostname: Option<string>,
    command: Option<seq<string>>,
    entrypoint: Option<seq<string>>,
    ports: seq<PortRequest>,
    mounts: seq<MountSpec>,
    environment: seq<Entry>,
    networks: seq<string>,
    restartPolicy: string,
    labels: map<string, string>,
    healthcheck: Option<Healthcheck>)

  /** An environment variable as stored: a plain value or a sealed one. */
  datatype Variable = Variable(key: string, value: Option<string>, sealed: Option<string>, secret: bool)

  /** The server's encryption; only that what was sealed opens again is used. */
  datatype SecretBox = SecretBox(encrypt: string -> string, decrypt: string -> string)

  ghost predicate Opens(box: SecretBox)
  {
    forall v :: box.decrypt(box.encrypt(v)) == v
  }

  // ---- the schema -------------------------------------------------------

  const FORBIDDEN_BIND_SOURCES_ON_SERVER := [
    "/var/run/docker.sock", "/run/docker.sock", "/var/lib/docker", "/proc", "/sys",
    "/dev", "/boot", "/etc/shadow", "/root/.ssh", "/var/lib/dockplane-agent"]

  predicate ForbiddenBind(source: string)
  {
    var clean := TrimSlashes(source);
    exists f :: f in FORBIDDEN_BIND_SOURCES_ON_SERVER && (clean == f || f + "/" <= clean)
  }

  predicate PortSchema(p: PortRequest)
  {
    && 1 <= p.containerPort <= 65535 && 0 <= p.hostPort <= 65535
    && (p.protocol == "tcp" || p.protocol == "udp")
    && (p.hostIp.Some? ==> Address(p.hostIp.value))
  }

  predicate MountSchema(m: MountSpec)
  {
    && (m.kind == "volume" || m.kind == "bind")
    && 1 <= |m.source| <= 4096 && 1 <= |m.target| <= 4096
    && StartsWithSlash(m.target) && !Climbs(m.target)
    && (m.kind == "volume" ==> NamePattern(m.source))
    && (m.kind == "bind" ==>
          StartsWithSlash(m.source) && !Climbs(m.source) && TrimSlashes(m.source) != "" && !ForbiddenBind(m.source))
  }

  predicate EntrySchema(e: Entry)
  {
    && EnvKeyPattern(e.key)
    && (e.Set? || e.SetSecret? ==> |e.value| <= 32768 && OneLine(e.value))
    && (e.SetSecret? ==> e.value != "")
  }

  predicate LabelsSchema(labels: map<string, string>)
  {
    forall key :: key in labels ==> NamePattern(key) && !(PREFIX <= key) && |labels[key]| <= 4096
  }

  predicate HealthcheckSchema(h: Healthcheck)
  {
    1 <= |h.test| <= 32 && (forall t :: t in h.test ==> |t| <= 1024) &&
    0 <= h.intervalMs <= 3600000 && 0 <= h.timeoutMs <= 3600000 && 0 <= h.startPeriodMs <= 3600000 &&
      0 <= h.retries <= 100
  }

  predicate Arguments(a: Option<seq<string>>)
  {
    a.Some? ==> |a.value| <= 128 && forall x :: x in a.value ==> |x| <= 4096
  }

  /** The fields one by one, before the refinement over the whole. */
  predicate FieldsAccepted(r: Request)
  {
    && ImagePattern(r.image)
    && (r.hostname.Some? ==> HostnamePattern(r.hostname.value))
    && Arguments(r.command) && Arguments(r.entrypoint)
    && |r.ports| <= 128 && (forall p :: p in r.ports ==> PortSchema(p))
    && |r.mounts| <= 64 && (forall m :: m in r.mounts ==> MountSchema(m))
    && |r.environment| <= 512 && (forall e :: e in r.environment ==> EntrySchema(e))
    && |r.networks| <= 16 && (forall n :: n in r.networks ==> NamePattern(n))
    && r.restartPolicy in ["no", "always", "unless-stopped", "on-failure"]
    && LabelsSchema(r.labels)
    && (r.healthcheck.Some? ==> HealthcheckSchema(r.healthcheck.value))
  }

  function HostBinding(p: PortRequest): (string, int, string)
  {
    (if p.hostIp.Some? then p.hostIp.value else "", p.hostPort, p.protocol)
  }

  ghost predicate PortsOnce(ports: seq<PortRequest>)
  {
    forall i, j :: 0 <= i < j < |ports| && ports[i].hostPort != 0 ==> HostBinding(ports[i]) != HostBinding(ports[j])
  }

  ghost predicate TargetsOnce(mounts: seq<MountSpec>)
  {
    forall i, j :: 0 <= i < j < |mounts| ==> mounts[i].target != mounts[j].target
  }

  ghost predicate KeysOnce(entries: seq<Entry>)
  {
    forall i, j :: 0 <= i < j < |entries| ==> entries[i].key != entries[j].key
  }

  ghost predicate NothingTwice(r: Request)
  {
    PortsOnce(r.ports) && TargetsOnce(r.mounts) && KeysOnce(r.environment)
  }

  ghost predicate SchemaAccepts(r: Request)
  {
    FieldsAccepted(r) && NothingTwice(r)
  }

  /** `refineConfiguration`: reports every repetition rather than stopping at one. */
  method Refine(r: Request) returns (issues: nat)
    ensures issues == 0 <==> NothingTwice(r)
  {
    var ports := RefinePorts(r.ports);
    var mounts := RefineMounts(r.mounts);
    var environment := RefineEnvironment(r.environment);
    issues := ports + mounts + environment;
  }

  method RefinePorts(ports: seq<PortRequest>) returns (issues: nat)
    ensures issues == 0 <==> PortsOnce(ports)
  {
    issues := 0;
    var bound: set<(string, int, string)> := {};
    for i := 0 to |ports|
      invariant bound == set j | 0 <= j < i && ports[j].hostPort != 0 :: HostBinding(ports[j])
      invariant issues == 0 <==> PortsOnce(ports[..i])
    {
      if ports[i].hostPort != 0 {
        if HostBinding(ports[i]) in bound {
          var j :| 0 <= j < i && ports[j].hostPort != 0 && HostBinding(ports[j]) == HostBinding(ports[i]);
          assert ports[..i + 1][j] == ports[j] && ports[..i + 1][i] == ports[i];
          issues := issues + 1;
        }
        bound := bound + {HostBinding(ports[i])};
      }
      assert ports[..i] == ports[..i + 1][..i];
    }
    assert ports[..|ports|] == ports;
  }

  method RefineMounts(mounts: seq<MountSpec>) returns (issues: nat)
    ensures issues == 0 <==> TargetsOnce(mounts)
  {
    issues := 0;
    var targets: set<string> := {};
    for i := 0 to |mounts|
      invariant targets == set j | 0 <= j < i :: mounts[j].target
      invariant issues == 0 <==> TargetsOnce(mounts[..i])
    {
      if mounts[i].target in targets {
        var j :| 0 <= j < i && mounts[j].target == mounts[i].target;
        assert mounts[..i + 1][j] == mounts[j] && mounts[..i + 1][i] == mounts[i];
        issues := issues + 1;
      }
      targets := targets + {mounts[i].target};
      assert mounts[..i] == mounts[..i + 1][..i];
    }
    assert mounts[..|mounts|] == mounts;
  }

  method RefineEnvironment(entries: seq<Entry>) returns (issues: nat)
    ensures issues == 0 <==> KeysOnce(entries)
  {
    issues := 0;
    var keys: set<string> := {};
    for i := 0 to |entries|
      invariant keys == set j | 0 <= j < i :: entries[j].key
      invariant issues == 0 <==> KeysOnce(entries[..i])
    {
      if entries[i].key in keys {
        var j :| 0 <= j < i && entries[j].key == entries[i].key;
        assert entries[..i + 1][j] == entries[j] && entries[..i + 1][i] == entries[i];
        issues := issues + 1;
      }
      keys := keys + {entries[i].key};
      assert entries[..i] == entries[..i + 1][..i];
    }
    assert entries[..|entries|] == entries;
  }

  // ---- storing the environment ------------------------------------------

  /** The row carried for a key; a table holds one row per key. */
  function Carried(previous: seq<Variable>, key: string): (v: Option<Variable>)
    ensures v.Some? ==> v.value in previous && v.value.key == key
    ensures v.None? ==> forall row :: row in previous ==> row.key != key
  {
    if previous == [] then None
    else if previous[|previous| - 1].key == key then Some(previous[|previous| - 1])
    else Carried(previous[..|previous| - 1], key)
  }

  /** What one entry adds to the new environment. */
  function ResolveEntry(e: Entry, previous: seq<Variable>, box: SecretBox): Option<seq<Variable>>
  {
    match e
    case Set(key, value) => Some([Variable(key, Some(value), None, false)])
    case SetSecret(key, value) => Some([Variable(key, None, Some(box.encrypt(value)), true)])
    case Unchanged(key) =>
      var existing := Carried(previous, key);
      if existing.None? then None else Some([existing.value])
    case Remove(_) => Some([])
  }

  function Resolve(entries: seq<Entry>, previous: seq<Variable>, box: SecretBox): Option<seq<Variable>>
  {
    if entries == [] then Some([])
    else
      var before := Resolve(entries[..|entries| - 1], previous, box);
      var last := ResolveEntry(entries[|entries| - 1], previous, box);
      if before.None? || last.None? then None else Some(before.value + last.value)
  }

  /** `resolveEnvironment`; `None` is the refusal of an `unchanged` that names nothing. */
  method ResolveEnvironment(entries: seq<Entry>, previous: seq<Variable>, box: SecretBox)
    returns (r: Option<seq<Variable>>)
    ensures r == Resolve(entries, previous, box)
    ensures r.None? <==> exists key :: Unchanged(key) in entries && forall row :: row in previous ==> row.key != key
  {
    var resolved: seq<Variable> := [];
    for i := 0 to |entries|
      invariant Resolve(entries[..i], previous, box) == Some(resolved)
      invariant forall key :: Unchanged(key) in entries[..i] ==> exists row :: row in previous && row.key == key
    {
      assert entries[..i + 1][..i] == entries[..i];
      match entries[i]
      case Set(key, value) =>
        resolved := resolved + [Variable(key, Some(value), None, false)];
      case SetSecret(key, value) =>
        resolved := resolved + [Variable(key, None, Some(box.encrypt(value)), true)];
      case Unchanged(key) =>
        var existing := Carried(previous, key);
        if existing.None? {
          ResolveStopsAt(entries, i, previous, box);
          assert Unchanged(key) in entries;
          return None;
        }
        resolved := resolved + [existing.value];
      case Remove(_) =>
        assert resolved + [] == resolved;
    }
    assert entries[..|entries|] == entries;
    return Some(resolved);
  }

  lemma {:induction false} ResolveStopsAt(entries: seq<Entry>, i: nat, previous: seq<Variable>, box: SecretBox)
    requires i < |entries| && ResolveEntry(entries[i], previous, box).None?
    ensures Resolve(entries, previous, box).None?
  {
    if i < |entries| - 1 {
      assert entries[..|entries| - 1][i] == entries[i];
      ResolveStopsAt(entries[..|entries| - 1], i, previous, box);
    }
  }

  /** The value an agent is told: opened if it was sealed. */
  function Reveal(v: Variable, box: SecretBox): string
  {
    if v.secret then (if v.sealed.Some? then box.decrypt(v.sealed.value) else "")
    else if v.value.Some? then v.value.value else ""
  }

  ghost predicate KeysDistinct(rows: seq<Variable>)
  {
    forall i, j :: 0 <= i < j < |rows| ==> rows[i].key != rows[j].key
  }

  /** What every stored environment satisfies. */
  ghost predicate StoredOk(rows: seq<Variable>, box: SecretBox)
  {
    KeysDistinct(rows) && forall v :: v in rows ==> EnvKeyPattern(v.key) && OneLine(Reveal(v, box))
  }

  /** Where each variable of a resolved environment came from. */
  ghost predicate ComesFrom(v: Variable, entries: seq<Entry>, previous: seq<Variable>, box: SecretBox)
  {
    exists i :: 0 <= i < |entries| && entries[i].key == v.key && ResolveEntry(entries[i], previous, box) == Some([v])
  }

  lemma {:induction false} ResolvedComesFrom(entries: seq<Entry>, previous: seq<Variable>, box: SecretBox)
    requires Resolve(entries, previous, box).Some?
    ensures forall v :: v in Resolve(entries, previous, box).value ==> ComesFrom(v, entries, previous, box)
    ensures forall i :: 0 <= i < |entries| && !entries[i].Remove? ==>
      ResolveEntry(entries[i], previous, box).Some? &&
      ResolveEntry(entries[i], previous, box).value[0] in Resolve(entries, previous, box).value
  {
    if entries != [] {
      var n := |entries| - 1;
      var before := entries[..n];
      ResolvedComesFrom(before, previous, box);
      var resolved := Resolve(entries, previous, box).value;
      forall v | v in resolved
        ensures ComesFrom(v, entries, previous, box)
      {
        if v in Resolve(before, previous, box).value {
          assert ComesFrom(v, before, previous, box);
          var i :| 0 <= i < |before| && before[i].key == v.key && ResolveEntry(before[i], previous, box) == Some([v]);
          assert entries[i] == before[i];
        } else {
          assert entries[n].key == v.key && ResolveEntry(entries[n], previous, box) == Some([v]);
        }
      }
      forall i | 0 <= i < |entries| && !entries[i].Remove?
        ensures ResolveEntry(entries[i], previous, box).Some?
        ensures ResolveEntry(entries[i], previous, box).value[0] in resolved
      {
        if i < n { assert before[i] == entries[i]; }
      }
    }
  }

  lemma {:induction false} ResolvedKeysDistinct(entries: seq<Entry>, previous: seq<Variable>, box: SecretBox)
    requires KeysOnce(entries)
    requires Resolve(entries, previous, box).Some?
    ensures KeysDistinct(Resolve(entries, previous, box).value)
  {
    if entries != [] {
      var n := |entries| - 1;
      var before := entries[..n];
      ResolvedKeysDistinct(before, previous, box);
      ResolvedComesFrom(before, previous, box);
      var rows := Resolve(before, previous, box).value;
      forall v | v in rows
        ensures v.key != entries[n].key
      {
        var i :| 0 <= i < |before| && before[i].key == v.key && ResolveEntry(before[i], previous, box) == Some([v]);
        assert entries[i].key != entries[n].key;
      }
    }
  }

  /** One edit keeps a stored environment valid. */
  lemma ResolvedIsStoredOk(r: Request, previous: seq<Variable>, box: SecretBox)
    requires SchemaAccepts(r) && Opens(box) && StoredOk(previous, box)
    requires Resolve(r.environment, previous, box).Some?
    ensures StoredOk(Resolve(r.environment, previous, box).value, box)
  {
    var rows := Resolve(r.environment, previous, box).value;
    ResolvedKeysDistinct(r.environment, previous, box);
    ResolvedComesFrom(r.environment, previous, box);
    forall v | v in rows
      ensures EnvKeyPattern(v.key) && OneLine(Reveal(v, box))
    {
      var i :| 0 <= i < |r.environment| && r.environment[i].key == v.key &&
        ResolveEntry(r.environment[i], previous, box) == Some([v]);
      assert r.environment[i] in r.environment;
      if r.environment[i].Unchanged? { assert v in previous; }
    }
  }

  /** How one entry is stored: plain, sealed and marked, or as the row it was. */
  ghost predicate StoredAs(e: Entry, previous: seq<Variable>, box: SecretBox, v: Variable)
  {
    && v.key == e.key
    && (e.Set? ==> v.value == Some(e.value) && v.sealed == None && !v.secret)
    && (e.SetSecret? ==> v.value == None && v.sealed == Some(box.encrypt(e.value)) && v.secret)
    && (e.Unchanged? ==> v in previous)
  }

  /** Each row of a resolved environment is stored as its entry says: a secret never in clear. */
  lemma StoredAsEntered(entries: seq<Entry>, previous: seq<Variable>, box: SecretBox, e: Entry, v: Variable)
    requires KeysOnce(entries) && Resolve(entries, previous, box).Some?
    requires e in entries && v in Resolve(entries, previous, box).value && v.key == e.key
    ensures !e.Remove? && StoredAs(e, previous, box, v)
  {
    ResolvedComesFrom(entries, previous, box);
    assert ComesFrom(v, entries, previous, box);
    var i :| 0 <= i < |entries| && entries[i].key == v.key && ResolveEntry(entries[i], previous, box) == Some([v]);
    var j :| 0 <= j < |entries| && entries[j] == e;
    assert i == j;
    assert [v][0] == v;
  }

  /** The keys an edit keeps, in the order it names them. */
  function KeptKeys(entries: seq<Entry>): seq<string>
  {
    if entries == [] then []
    else
      var last := entries[|entries| - 1];
      KeptKeys(entries[..|entries| - 1]) + if last.Remove? then [] else [last.key]
  }

  lemma {:induction false} ResolvedInOrder(entries: seq<Entry>, previous: seq<Variable>, box: SecretBox)
    requires Resolve(entries, previous, box).Some?
    ensures var rows := Resolve(entries, previous, box).value;
      |rows| == |KeptKeys(entries)| && forall i :: 0 <= i < |rows| ==> rows[i].key == KeptKeys(entries)[i]
  {
    if entries != [] {
      ResolvedInOrder(entries[..|entries| - 1], previous, box);
    }
  }

  /** What an accepted edit says the value of a variable is to be. */
  ghost predicate Says(entries: seq<Entry>, previous: seq<Variable>, box: SecretBox, key: string, value: string)
  {
    || Set(key, value) in entries
    || SetSecret(key, value) in entries
    || (Unchanged(key) in entries && Carried(previous, key).Some? && Reveal(Carried(previous, key).value, box) == value)
  }

  ghost predicate Holds(rows: seq<Variable>, box: SecretBox, key: string, value: string)
  {
    exists v :: v in rows && v.key == key && Reveal(v, box) == value
  }

  /**
   What an edit means: afterwards a variable is there with the value the entry
   set, or with the value it had when the entry left it alone, and a variable
   that was removed or not mentioned is not there.
   */
  lemma EditMeans(entries: seq<Entry>, previous: seq<Variable>, box: SecretBox, key: string, value: string)
    requires Opens(box) && Resolve(entries, previous, box).Some?
    ensures Holds(Resolve(entries, previous, box).value, box, key, value) <==> Says(entries, previous, box, key, value)
  {
    var rows := Resolve(entries, previous, box).value;
    ResolvedComesFrom(entries, previous, box);
    if Holds(rows, box, key, value) {
      var v :| v in rows && v.key == key && Reveal(v, box) == value;
      assert ComesFrom(v, entries, previous, box);
      var i :| 0 <= i < |entries| && entries[i].key == v.key && ResolveEntry(entries[i], previous, box) == Some([v]);
      EntrySays(entries, i, previous, box, v);
    }
    if Says(entries, previous, box, key, value) {
      var e :| e in entries && (e == Set(key, value) || e == SetSecret(key, value) ||
        (e == Unchanged(key) && Carried(previous, key).Some? && Reveal(Carried(previous, key).value, box) == value));
      var i :| 0 <= i < |entries| && entries[i] == e;
      var v := ResolveEntry(entries[i], previous, box).value[0];
      assert v in rows && v.key == key && Reveal(v, box) == value;
    }
  }

  lemma EntrySays(entries: seq<Entry>, i: nat, previous: seq<Variable>, box: SecretBox, v: Variable)
    requires Opens(box) && i < |entries| && entries[i].key == v.key
    requires ResolveEntry(entries[i], previous, box) == Some([v])
    ensures Says(entries, previous, box, v.key, Reveal(v, box))
  {
    assert entries[i] in entries;
    var rows := ResolveEntry(entries[i], previous, box).value;
    assert rows[0] == v;
    match entries[i]
    case Set(key, value) => assert entries[i] == Set(v.key, Reveal(v, box));
    case SetSecret(key, value) => assert entries[i] == SetSecret(v.key, Reveal(v, box));
    case Unchanged(key) => assert entries[i] == Unchanged(v.key);
    case Remove(_) =>
  }

  /** A table hands its rows back in any order. */
  lemma RearrangedIsStoredOk(rows: seq<Variable>, stored: seq<Variable>, box: SecretBox)
    requires StoredOk(rows, box) && multiset(stored) == multiset(rows)
    ensures StoredOk(stored, box)
  {
    forall v | v in stored
      ensures v in rows
    {
      assert v in multiset(stored);
    }
    forall i, j | 0 <= i < j < |stored|
      ensures stored[i].key != stored[j].key
    {
      assert stored[i] in rows && stored[j] in rows;
      if stored[i] == stored[j] {
        TwiceCountsTwice(stored, i, j);
        DistinctCountsOnce(rows, stored[i]);
      }
    }
  }

  lemma TwiceCountsTwice<T>(s: seq<T>, i: nat, j: nat)
    requires i < j < |s| && s[i] == s[j]
    ensures multiset(s)[s[i]] >= 2
  {
    assert s == s[..j] + s[j..];
    assert s[i] in s[..j] && s[i] in s[j..];
    assert s[i] in multiset(s[..j]) && s[i] in multiset(s[j..]);
  }

  lemma {:induction false} DistinctCountsOnce(rows: seq<Variable>, v: Variable)
    requires KeysDistinct(rows)
    ensures multiset(rows)[v] <= 1
  {
    if rows != [] {
      assert rows == [rows[0]] + rows[1..];
      DistinctCountsOnce(rows[1..], v);
      if v == rows[0] {
        assert v !in rows[1..];
        assert v !in multiset(rows[1..]);
      }
    }
  }

  // ---- what is sent -----------------------------------------------------

  function PortFor(p: PortRequest): PortSpec
    requires PortSchema(p)
  {
    PortSpec(p.containerPort, p.hostPort, p.protocol, if p.hostIp.Some? then p.hostIp.value else "")
  }

  /** `configurationOf` and `specFor`: the stored row, and the request built from it. */
  function SpecFor(name: string, r: Request, stored: seq<Variable>, box: SecretBox): ContainerSpec
    requires FieldsAccepted(r)
  {
    ContainerSpec(
      name, r.image,
      if r.hostname.Some? then r.hostname.value else "",
      if r.command.Some? then r.command.value else [],
      if r.entrypoint.Some? then r.entrypoint.value else [],
      seq(|stored|, i requires 0 <= i < |stored| => EnvVar(stored[i].key, Reveal(stored[i], box))),
      seq(|r.ports|, i requires 0 <= i < |r.ports| => assert r.ports[i] in r.ports; PortFor(r.ports[i])),
      r.mounts, r.networks, r.restartPolicy, r.labels, r.healthcheck)
  }

  lemma MountsAgree(m: MountSpec)
    requires MountSchema(m)
    ensures MountOk(m)
  {
    if m.kind == "bind" {
      assert FORBIDDEN_BIND_SOURCES == FORBIDDEN_BIND_SOURCES_ON_SERVER;
      forall f | f in FORBIDDEN_BIND_SOURCES
        ensures !Reaches(TrimSlashes(m.source), f)
      {
        assert f in FORBIDDEN_BIND_SOURCES_ON_SERVER;
      }
    }
  }

  lemma ReservedCarryPrefix(key: string)
    requires key in RESERVED
    ensures PREFIX <= key
  {
  }

  /** Everything but the environment: the two validators agree field by field. */
  lemma FieldsAgree(name: string, r: Request, stored: seq<Variable>, box: SecretBox)
    requires SchemaAccepts(r)
    ensures var s := SpecFor(name, r, stored, box);
      PortsOk(s.ports) && MountsOk(s.mounts) && RestartPolicy(s.restartPolicy) && forall key :: key in s.labels ==>
        LabelOk(key)
  {
    var s := SpecFor(name, r, stored, box);
    forall i | 0 <= i < |s.ports|
      ensures PortOk(s.ports[i])
    {
      assert r.ports[i] in r.ports;
    }
    forall i, j | 0 <= i < j < |s.ports| && s.ports[i].hostPort != 0
      ensures Binding(s.ports[i]) != Binding(s.ports[j])
    {
      assert HostBinding(r.ports[i]) != HostBinding(r.ports[j]);
    }
    forall m | m in s.mounts
      ensures MountOk(m)
    {
      MountsAgree(m);
    }
    forall key | key in s.labels
      ensures LabelOk(key)
    {
      if key in RESERVED { ReservedCarryPrefix(key); }
    }
  }

  /** One accepted edit becomes one acceptable specification. */
  lemma AcceptedBecomesAcceptable(name: string, r: Request, previous: seq<Variable>, stored: seq<Variable>,
      box: SecretBox)
    requires SchemaAccepts(r) && NamePattern(name) && Opens(box) && StoredOk(previous, box)
    requires Resolve(r.environment, previous, box).Some?
    requires multiset(stored) == multiset(Resolve(r.environment, previous, box).value)
    ensures Acceptable(SpecFor(name, r, stored, box))
  {
    ResolvedIsStoredOk(r, previous, box);
    RearrangedIsStoredOk(Resolve(r.environment, previous, box).value, stored, box);
    FieldsAgree(name, r, stored, box);
    var env := SpecFor(name, r, stored, box).env;
    forall v | v in env
      ensures EnvKeyPattern(v.key) && OneLine(v.value)
    {
      var i :| 0 <= i < |env| && env[i] == v;
      assert stored[i] in stored;
    }
    assert EnvOk(env);
  }

  /** Everything but the environment is sent as it was asked for. */
  lemma SentAsAsked(name: string, r: Request, stored: seq<Variable>, box: SecretBox)
    requires FieldsAccepted(r)
    ensures var s := SpecFor(name, r, stored, box);
      && s.name == name && s.image == r.image && s.mounts == r.mounts && s.networks == r.networks
      && s.restartPolicy == r.restartPolicy && s.labels == r.labels && s.healthcheck == r.healthcheck
      && (if r.hostname.Some? then s.hostname == r.hostname.value && s.hostname != "" else s.hostname == "")
      && (if r.command.Some? then s.command == r.command.value else s.command == [])
      && (if r.entrypoint.Some? then s.entrypoint == r.entrypoint.value else s.entrypoint == [])
      && |s.ports| == |r.ports| && forall i :: 0 <= i < |s.ports| ==> SamePort(s.ports[i], r.ports[i])
  {
    var s := SpecFor(name, r, stored, box);
    forall i | 0 <= i < |s.ports|
      ensures SamePort(s.ports[i], r.ports[i])
    {
      assert r.ports[i] in r.ports;
    }
  }

  predicate SamePort(p: PortSpec, asked: PortRequest)
  {
    && p.containerPort == asked.containerPort && p.hostPort == asked.hostPort && p.protocol == asked.protocol
    && (p.hostIp == "" <==> asked.hostIp.None?) && (asked.hostIp.Some? ==> p.hostIp == asked.hostIp.value)
  }

  // ---- histories --------------------------------------------------------

  /**
   One edit somebody asked for: the request, the order the table handed its rows
   back in, and whether the candidate became what the container is.
   */
  datatype Edit = Edit(request: Request, stored: seq<Variable>, promoted: bool)

  ghost predicate Possible(e: Edit, current: seq<Variable>, box: SecretBox)
  {
    && SchemaAccepts(e.request)
    && (Resolve(e.request.environment, current, box).Some? ==>
          multiset(e.stored) == multiset(Resolve(e.request.environment, current, box).value))
  }

  /** The environment of the current configuration after some edits. */
  ghost function Current(edits: seq<Edit>, box: SecretBox): seq<Variable>
  {
    if edits == [] then []
    else
      var before := Current(edits[..|edits| - 1], box);
      var last := edits[|edits| - 1];
      if Resolve(last.request.environment, before, box).Some? && last.promoted then last.stored else before
  }

  ghost predicate History(edits: seq<Edit>, box: SecretBox)
  {
    forall i :: 0 <= i < |edits| ==> Possible(edits[i], Current(edits[..i], box), box)
  }

  lemma {:induction false} HistoryStoredOk(edits: seq<Edit>, box: SecretBox)
    requires Opens(box) && History(edits, box)
    ensures StoredOk(Current(edits, box), box)
  {
    if edits != [] {
      var n := |edits| - 1;
      var before := edits[..n];
      EarlierHistory(edits, n, box);
      HistoryStoredOk(before, box);
      assert Possible(edits[n], Current(before, box), box);
      if Resolve(edits[n].request.environment, Current(before, box), box).Some? {
        ResolvedIsStoredOk(edits[n].request, Current(before, box), box);
        RearrangedIsStoredOk(Resolve(edits[n].request.environment, Current(before, box), box).value, edits[n].stored,
          box);
      }
    }
  }

  /**
   Over any history of edits, promoted or thrown away, whatever the server goes
   on to send is a specification the agent accepts.
   */
  lemma EveryDispatchIsAcceptable(edits: seq<Edit>, k: nat, name: string, box: SecretBox)
    requires Opens(box) && History(edits, box) && k < |edits| && NamePattern(name)
    requires Resolve(edits[k].request.environment, Current(edits[..k], box), box).Some?
    ensures Acceptable(SpecFor(name, edits[k].request, edits[k].stored, box))
  {
    EarlierHistory(edits, k, box);
    HistoryStoredOk(edits[..k], box);
    AcceptedBecomesAcceptable(name, edits[k].request, Current(edits[..k], box), edits[k].stored, box);
  }

  // ---- what an environment means, without storage and secrets ---------------------

  /** The variables an edit asks for, given those before it; nothing is sealed here. */
  function Meant(entries: seq<Entry>, before: map<string, string>): map<string, string>
  {
    if entries == [] then map[]
    else
      var rest, last := Meant(entries[..|entries| - 1], before), entries[|entries| - 1];
      match last
      case Set(key, value) => rest[key := value]
      case SetSecret(key, value) => rest[key := value]
      case Unchanged(key) => if key in before then rest[key := before[key]] else rest
      case Remove(key) => rest
  }

  predicate Refused(entries: seq<Entry>, before: map<string, string>)
  {
    exists e :: e in entries && e.Unchanged? && e.key !in before
  }

  /** The variables of the current configuration after some edits. */
  function MeantAfter(edits: seq<Edit>): map<string, string>
  {
    if edits == [] then map[]
    else
      var before, last := MeantAfter(edits[..|edits| - 1]), edits[|edits| - 1];
      if !Refused(last.request.environment, before) && last.promoted then Meant(last.request.environment, before)
      else before
  }

  /** The rows hold these variables and no others. */
  ghost predicate Stores(rows: seq<Variable>, box: SecretBox, meant: map<string, string>)
  {
    forall key, value :: Holds(rows, box, key, value) <==> key in meant && meant[key] == value
  }

  lemma {:induction false} MeantSays(entries: seq<Entry>, before: map<string, string>, key: string, value: string)
    requires KeysOnce(entries)
    ensures key in Meant(entries, before) && Meant(entries, before)[key] == value <==>
      || Set(key, value) in entries || SetSecret(key, value) in entries
      || (Unchanged(key) in entries && key in before && before[key] == value)
    ensures key in Meant(entries, before) ==> exists e :: e in entries && e.key == key
  {
    if entries != [] {
      var n := |entries| - 1;
      MeantSays(entries[..n], before, key, value);
      assert entries == entries[..n] + [entries[n]];
      forall e | e in entries[..n]
        ensures e.key != entries[n].key
      {
        var i :| 0 <= i < n && entries[i] == e;
      }
    }
  }

  /** One stored edit means what it says. */
  lemma EditStores(entries: seq<Entry>, previous: seq<Variable>, box: SecretBox, before: map<string, string>)
    requires Opens(box) && KeysOnce(entries) && KeysDistinct(previous) && Stores(previous, box, before)
    ensures Resolve(entries, previous, box).Some? <==> !Refused(entries, before)
    ensures Resolve(entries, previous, box).Some? ==>
      Stores(Resolve(entries, previous, box).value, box, Meant(entries, before))
  {
    hide Resolve, Meant;
    ResolvesIff(entries, previous, box, before);
    if Resolve(entries, previous, box).Some? {
      forall key, value
        ensures Holds(Resolve(entries, previous, box).value, box, key, value) <==>
          key in Meant(entries, before) && Meant(entries, before)[key] == value
      {
        EditMeans(entries, previous, box, key, value);
        MeantSays(entries, before, key, value);
        CarriedMeans(previous, box, before, key, value);
      }
    }
  }

  lemma CarriedMeans(previous: seq<Variable>, box: SecretBox, before: map<string, string>, key: string, value: string)
    requires KeysDistinct(previous) && Stores(previous, box, before)
    ensures Carried(previous, key).Some? && Reveal(Carried(previous, key).value, box) == value <==>
      key in before && before[key] == value
    ensures Carried(previous, key).Some? <==> key in before
  {
    hide Reveal;
    assert Holds(previous, box, key, value) <==> key in before && before[key] == value;
    assert key in before ==> Holds(previous, box, key, before[key]);
    var carried := Carried(previous, key);
    if carried.Some? {
      assert Holds(previous, box, key, Reveal(carried.value, box));
      if v :| v in previous && v.key == key && Reveal(v, box) == value {
        assert v == carried.value;
      }
    }
  }

  lemma {:induction false} ResolvesIff(entries: seq<Entry>, previous: seq<Variable>, box: SecretBox,
      before: map<string, string>)
    requires KeysDistinct(previous) && Stores(previous, box, before)
    ensures Resolve(entries, previous, box).Some? <==> !Refused(entries, before)
  {
    hide Stores, Reveal;
    if entries != [] {
      var n := |entries| - 1;
      ResolvesIff(entries[..n], previous, box, before);
      CarriedMeans(previous, box, before, entries[n].key, "");
      assert entries == entries[..n] + [entries[n]];
      if Refused(entries[..n], before) {
        var e :| e in entries[..n] && e.Unchanged? && e.key !in before;
        assert e in entries;
      }
      if entries[n].Unchanged? && entries[n].key !in before { assert entries[n] in entries; }
    }
  }

  lemma RearrangedStores(rows: seq<Variable>, stored: seq<Variable>, box: SecretBox, meant: map<string, string>)
    requires Stores(rows, box, meant) && multiset(stored) == multiset(rows)
    ensures Stores(stored, box, meant)
  {
    hide Reveal;
    assert forall v :: v in stored <==> v in multiset(rows);
    forall key, value
      ensures Holds(stored, box, key, value) <==> Holds(rows, box, key, value)
    {
      if Holds(rows, box, key, value) {
        var v :| v in rows && v.key == key && Reveal(v, box) == value;
        assert v in stored;
      }
    }
  }

  lemma {:induction false} HistoryStores(edits: seq<Edit>, box: SecretBox)
    requires Opens(box) && History(edits, box)
    ensures Stores(Current(edits, box), box, MeantAfter(edits))
  {
    hide Stores, Resolve, Meant, Refused;
    if edits == [] {
      NothingStored(box);
    } else {
      var n := |edits| - 1;
      EarlierHistory(edits, n, box);
      HistoryStores(edits[..n], box);
      HistoryStoredOk(edits[..n], box);
      var before, last := Current(edits[..n], box), edits[n];
      assert Possible(last, before, box);
      EditStores(last.request.environment, before, box, MeantAfter(edits[..n]));
      if Resolve(last.request.environment, before, box).Some? {
        RearrangedStores(Resolve(last.request.environment, before, box).value, last.stored, box,
          Meant(last.request.environment, MeantAfter(edits[..n])));
      }
    }
  }

  lemma NothingStored(box: SecretBox)
    ensures Stores([], box, map[])
  {
  }

  lemma EarlierHistory(edits: seq<Edit>, k: nat, box: SecretBox)
    requires History(edits, box) && k <= |edits|
    ensures History(edits[..k], box)
  {
    forall i | 0 <= i < k
      ensures Possible(edits[..k][i], Current(edits[..k][..i], box), box)
    {
      assert edits[..k][..i] == edits[..i];
    }
  }

  /**
   Over any history of edits the environment an agent is sent is the one the edits
   mean: storing, sealing, carrying over and reading back in any order change nothing.
   An edit is refused exactly when it leaves alone a variable that is not there.
   */
  lemma EveryDispatchMeans(edits: seq<Edit>, k: nat, name: string, box: SecretBox)
    requires Opens(box) && History(edits, box) && k < |edits|
    ensures var before, asked := MeantAfter(edits[..k]), edits[k].request;
      && (Resolve(asked.environment, Current(edits[..k], box), box).Some? <==> !Refused(asked.environment, before))
      && (!Refused(asked.environment, before) ==>
        forall key, value :: EnvVar(key, value) in SpecFor(name, asked, edits[k].stored, box).env <==>
          key in Meant(asked.environment, before) && Meant(asked.environment, before)[key] == value)
  {
    hide Resolve, Meant, Refused, Reveal;
    var before, asked, stored := MeantAfter(edits[..k]), edits[k].request, edits[k].stored;
    EarlierHistory(edits, k, box);
    HistoryStores(edits[..k], box);
    HistoryStoredOk(edits[..k], box);
    assert Possible(edits[k], Current(edits[..k], box), box);
    EditStores(asked.environment, Current(edits[..k], box), box, before);
    if !Refused(asked.environment, before) {
      RearrangedStores(Resolve(asked.environment, Current(edits[..k], box), box).value, stored, box,
        Meant(asked.environment, before));
      SentAsStored(name, asked, stored, box);
    }
  }

  lemma SentAsStored(name: string, r: Request, stored: seq<Variable>, box: SecretBox)
    requires FieldsAccepted(r)
    ensures forall key, value :: EnvVar(key, value) in SpecFor(name, r, stored, box).env <==>
      Holds(stored, box, key, value)
  {
    hide Reveal;
    var env := SpecFor(name, r, stored, box).env;
    forall key, value
      ensures EnvVar(key, value) in env <==> Holds(stored, box, key, value)
    {
      if Holds(stored, box, key, value) {
        var v :| v in stored && v.key == key && Reveal(v, box) == value;
        var i :| 0 <= i < |stored| && stored[i] == v;
        assert env[i] == EnvVar(key, value);
      }
    }
  }
}
