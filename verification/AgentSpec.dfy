/**
 What the agent will build a container from (agent/internal/docker/spec.go).

 The validator is written as the source writes it, field by field with a set of
 the keys seen so far, and is shown to accept exactly the specifications that
 `Acceptable` describes without any loop.
 */
module AgentSpec {
  import opened Wrappers

  /** A `uint16`. */
  type Port = p: int | 0 <= p < 0x1_0000

  datatype EnvVar = EnvVar(key: string, value: string)
  datatype PortSpec = PortSpec(containerPort: Port, hostPort: Port, protocol: string, hostIp: string)
  datatype MountSpec = MountSpec(kind: string, source: string, target: string, readOnly: bool)
  datatype Healthcheck = Healthcheck(
    test: seq<string>, intervalMs: int, timeoutMs: int, startPeriodMs: int, retries: int)

  datatype ContainerSpec = ContainerSpec(
    name: string,
    image: string,
    hostname: string,
    command: seq<string>,
    entrypoint: seq<string>,
    env: seq<EnvVar>,
    ports: seq<PortSpec>,
    mounts: seq<MountSpec>,
    networks: seq<string>,
    restartPolicy: string,
    labels: map<string, string>,
    healthcheck: Option<Healthcheck>)

  datatype Verdict = Accepted | Rejected(field: string)

  // ---- the patterns, which both validators write the same way ------------

  predicate Alphanumeric(c: char)
  {
    'a' <= c <= 'z' || 'A' <= c <= 'Z' || '0' <= c <= '9'
  }

  /** `^[a-zA-Z0-9][a-zA-Z0-9_.-]{0,127}$`: containers, volumes, networks, labels. */
  predicate NamePattern(s: string)
  {
    1 <= |s| <= 128 && Alphanumeric(s[0]) &&
    forall i :: 1 <= i < |s| ==> Alphanumeric(s[i]) || s[i] == '_' || s[i] == '.' || s[i] == '-'
  }

  /** `^[a-zA-Z0-9][a-zA-Z0-9._:/@-]{0,254}$` */
  predicate ImagePattern(s: string)
  {
    1 <= |s| <= 255 && Alphanumeric(s[0]) &&
    forall i :: 1 <= i < |s| ==>
      Alphanumeric(s[i]) || s[i] == '.' || s[i] == '_' || s[i] == ':' || s[i] == '/' || s[i] == '@' || s[i] == '-'
  }

  /** `^[A-Za-z_][A-Za-z0-9_]{0,254}$` */
  predicate EnvKeyPattern(s: string)
  {
    1 <= |s| <= 255 && (s[0] == '_' || (Alphanumeric(s[0]) && !('0' <= s[0] <= '9'))) &&
    forall i :: 1 <= i < |s| ==> Alphanumeric(s[i]) || s[i] == '_'
  }

  /** `^[a-zA-Z0-9]([a-zA-Z0-9-]{0,61}[a-zA-Z0-9])?$` */
  predicate HostnamePattern(s: string)
  {
    1 <= |s| <= 63 && Alphanumeric(s[0]) && Alphanumeric(s[|s| - 1]) &&
    forall i :: 0 <= i < |s| ==> Alphanumeric(s[i]) || s[i] == '-'
  }

  /** No null byte, newline or carriage return. */
  predicate OneLine(value: string)
  {
    forall c :: c in value ==> c != '\0' && c != '\n' && c != '\r'
  }

  predicate StartsWithSlash(s: string) { s != [] && s[0] == '/' }

  /** `strings.Contains(s, "..")` */
  predicate Climbs(s: string)
  {
    exists i :: 0 <= i < |s| - 1 && s[i] == '.' && s[i + 1] == '.'
  }

  /** `strings.TrimRight(s, "/")` */
  function TrimSlashes(s: string): (r: string)
    ensures r <= s && (r == [] || r[|r| - 1] != '/')
    ensures forall i :: |r| <= i < |s| ==> s[i] == '/'
  {
    if s != [] && s[|s| - 1] == '/' then TrimSlashes(s[..|s| - 1]) else s
  }

  // ---- labels -----------------------------------------------------------

  const PREFIX := "io.dockplane."
  const MANAGED := PREFIX + "managed"
  const STACK := PREFIX + "stack"
  const CONTAINER_ID := PREFIX + "container-id"
  const DESIRED_CONFIG_ID := PREFIX + "desired-config-id"
  const STACK_ID := PREFIX + "stack-id"
  const STACK_REVISION_ID := PREFIX + "stack-revision-id"
  const STACK_SERVICE := PREFIX + "stack-service"
  const STACK_VOLUME := PREFIX + "stack-volume"
  const STACK_NETWORK := PREFIX + "stack-network"

  const RESERVED := [MANAGED, STACK, CONTAINER_ID, DESIRED_CONFIG_ID, STACK_ID,
                     STACK_REVISION_ID, STACK_SERVICE, STACK_VOLUME, STACK_NETWORK]

  /** The keys the agent writes are different keys. */
  lemma LabelsDiffer()
    ensures MANAGED !in [STACK, CONTAINER_ID, DESIRED_CONFIG_ID, STACK_ID, STACK_REVISION_ID, STACK_SERVICE]
    ensures CONTAINER_ID !in [STACK, DESIRED_CONFIG_ID, STACK_ID, STACK_REVISION_ID, STACK_SERVICE]
    ensures STACK_ID !in [STACK, DESIRED_CONFIG_ID, STACK_REVISION_ID, STACK_SERVICE]
    ensures STACK_REVISION_ID !in [STACK, DESIRED_CONFIG_ID, STACK_SERVICE]
    ensures STACK_SERVICE !in [STACK, DESIRED_CONFIG_ID]
  {
    assert |MANAGED| == 20 && |STACK| == 18 && |CONTAINER_ID| == 25 && |DESIRED_CONFIG_ID| == 30;
    assert |STACK_ID| == 21 && |STACK_REVISION_ID| == 30 && |STACK_SERVICE| == 26;
    assert STACK_REVISION_ID[13] == 's' && DESIRED_CONFIG_ID[13] == 'd';
  }

  /** The labels a container is created with; the agent's own go last. */
  function LabelSet(labels: map<string, string>, stack: string, containerId: string,
      desiredConfigId: string): map<string, string>
  {
    var managed := labels[MANAGED := "true"];
    var identified := if containerId != "" then managed[CONTAINER_ID := containerId] else managed - {CONTAINER_ID};
    var configured := if desiredConfigId != "" then identified[DESIRED_CONFIG_ID := desiredConfigId]
      else identified - {DESIRED_CONFIG_ID};
    if stack != "" then configured[STACK := stack] else configured - {STACK}
  }

  /** A user's own labels are kept; the agent's say what it was told and nothing a user wrote. */
  lemma LabelSetSays(labels: map<string, string>, stack: string, containerId: string, desiredConfigId: string)
    ensures var made := LabelSet(labels, stack, containerId, desiredConfigId);
      && MANAGED in made && made[MANAGED] == "true"
      && (CONTAINER_ID in made <==> containerId != "") && (containerId != "" ==> made[CONTAINER_ID] == containerId)
      && (DESIRED_CONFIG_ID in made <==> desiredConfigId != "")
      && (desiredConfigId != "" ==> made[DESIRED_CONFIG_ID] == desiredConfigId)
      && (STACK in made <==> stack != "") && (stack != "" ==> made[STACK] == stack)
      && forall key :: key !in {MANAGED, CONTAINER_ID, DESIRED_CONFIG_ID, STACK} ==>
        (key in made <==> key in labels) && (key in labels ==> made[key] == labels[key])
  {
    LabelsDiffer();
  }

  // ---- what is acceptable, without loops --------------------------------

  const FORBIDDEN_BIND_SOURCES := [
    "/var/run/docker.sock", "/run/docker.sock", "/var/lib/docker", "/proc", "/sys",
    "/dev", "/boot", "/etc/shadow", "/root/.ssh", "/var/lib/dockplane-agent"]

  predicate Reaches(clean: string, forbidden: string)
  {
    clean == forbidden || forbidden + "/" <= clean
  }

  predicate BindSourceOk(source: string)
  {
    && StartsWithSlash(source) && !Climbs(source)
    && TrimSlashes(source) != ""
    && forall f :: f in FORBIDDEN_BIND_SOURCES ==> !Reaches(TrimSlashes(source), f)
  }

  predicate EnvOk(env: seq<EnvVar>)
  {
    && (forall v :: v in env ==> EnvKeyPattern(v.key) && OneLine(v.value))
    && forall i, j :: 0 <= i < j < |env| ==> env[i].key != env[j].key
  }

  predicate Address(value: string)
  {
    value == "127.0.0.1" || value == "0.0.0.0" || value == "::1" || value == "::"
  }

  predicate PortOk(p: PortSpec)
  {
    p.containerPort != 0 && (p.protocol == "tcp" || p.protocol == "udp") && (p.hostIp != "" ==> Address(p.hostIp))
  }

  /** What two published ports may not share. */
  function Binding(p: PortSpec): (string, Port, string)
  {
    (p.hostIp, p.hostPort, p.protocol)
  }

  predicate PortsOk(ports: seq<PortSpec>)
  {
    && (forall p :: p in ports ==> PortOk(p))
    && forall i, j :: 0 <= i < j < |ports| && ports[i].hostPort != 0 ==> Binding(ports[i]) != Binding(ports[j])
  }

  predicate MountOk(m: MountSpec)
  {
    && StartsWithSlash(m.target) && !Climbs(m.target)
    && (if m.kind == "volume" then NamePattern(m.source) else m.kind == "bind" && BindSourceOk(m.source))
  }

  predicate MountsOk(mounts: seq<MountSpec>)
  {
    && (forall m :: m in mounts ==> MountOk(m))
    && forall i, j :: 0 <= i < j < |mounts| ==> mounts[i].target != mounts[j].target
  }

  predicate RestartPolicy(policy: string)
  {
    policy in ["", "no", "always", "unless-stopped", "on-failure"]
  }

  predicate LabelOk(key: string)
  {
    NamePattern(key) && key !in RESERVED
  }

  ghost predicate Acceptable(s: ContainerSpec)
  {
    && NamePattern(s.name) && ImagePattern(s.image)
    && (s.hostname != "" ==> HostnamePattern(s.hostname))
    && RestartPolicy(s.restartPolicy)
    && EnvOk(s.env) && PortsOk(s.ports) && MountsOk(s.mounts)
    && (forall n :: n in s.networks ==> NamePattern(n))
    && (forall key :: key in s.labels ==> LabelOk(key))
    && (s.healthcheck.Some? ==> s.healthcheck.value.test != [])
  }

  // ---- the validator, as it is written ----------------------------------

  method ValidateEnv(env: seq<EnvVar>) returns (v: Verdict)
    ensures v.Accepted? <==> EnvOk(env)
  {
    var seen: set<string> := {};
    for i := 0 to |env|
      invariant EnvOk(env[..i]) && seen == set x | x in env[..i] :: x.key
    {
      var variable := env[i];
      assert variable in env;
      assert env[..i + 1] == env[..i] + [variable];
      if !EnvKeyPattern(variable.key) { return Rejected("environment key"); }
      if variable.key in seen {
        var j :| 0 <= j < i && env[..i][j].key == variable.key;
        assert env[j].key == env[i].key;
        return Rejected("environment key given twice");
      }
      if !OneLine(variable.value) { return Rejected("environment value"); }
      seen := seen + {variable.key};
    }
    assert env[..|env|] == env;
    return Accepted;
  }

  method ValidatePorts(ports: seq<PortSpec>) returns (v: Verdict)
    ensures v.Accepted? <==> PortsOk(ports)
  {
    var seen: set<(string, Port, string)> := {};
    for i := 0 to |ports|
      invariant PortsOk(ports[..i]) && seen == set x | x in ports[..i] && x.hostPort != 0 :: Binding(x)
    {
      var port := ports[i];
      assert port in ports;
      assert ports[..i + 1] == ports[..i] + [port];
      if port.containerPort == 0 { return Rejected("container port"); }
      if port.protocol != "tcp" && port.protocol != "udp" { return Rejected("protocol"); }
      if port.hostIp != "" && !Address(port.hostIp) { return Rejected("bind address"); }
      if port.hostPort != 0 {
        if Binding(port) in seen {
          var j :| 0 <= j < i && ports[..i][j].hostPort != 0 && Binding(ports[..i][j]) == Binding(port);
          assert Binding(ports[j]) == Binding(ports[i]);
          return Rejected("host port bound twice");
        }
        seen := seen + {Binding(port)};
      }
      assert PortsOk(ports[..i + 1]);
    }
    assert ports[..|ports|] == ports;
    return Accepted;
  }

  method ValidateMounts(mounts: seq<MountSpec>) returns (v: Verdict)
    ensures v.Accepted? <==> MountsOk(mounts)
  {
    var targets: set<string> := {};
    for i := 0 to |mounts|
      invariant MountsOk(mounts[..i]) && targets == set x | x in mounts[..i] :: x.target
    {
      var mount := mounts[i];
      assert mount in mounts;
      assert mounts[..i + 1] == mounts[..i] + [mount];
      if !StartsWithSlash(mount.target) || Climbs(mount.target) { return Rejected("mount target"); }
      if mount.target in targets {
        var j :| 0 <= j < i && mounts[..i][j].target == mount.target;
        assert mounts[j].target == mounts[i].target;
        return Rejected("mount target used twice");
      }
      targets := targets + {mount.target};
      if mount.kind == "volume" {
        if !NamePattern(mount.source) { return Rejected("volume name"); }
      } else if mount.kind == "bind" {
        var verdict := ValidateBindSource(mount.source);
        if verdict.Rejected? { return verdict; }
      } else {
        return Rejected("mount type");
      }
    }
    assert mounts[..|mounts|] == mounts;
    return Accepted;
  }

  method ValidateBindSource(source: string) returns (v: Verdict)
    ensures v.Accepted? <==> BindSourceOk(source)
  {
    if !StartsWithSlash(source) || Climbs(source) { return Rejected("bind source must be an absolute path"); }
    var clean := TrimSlashes(source);
    if clean == "" { return Rejected("bind source may not be the root filesystem"); }
    for i := 0 to |FORBIDDEN_BIND_SOURCES|
      invariant forall f :: f in FORBIDDEN_BIND_SOURCES[..i] ==> !Reaches(clean, f)
    {
      if Reaches(clean, FORBIDDEN_BIND_SOURCES[i]) { return Rejected("bind source is not permitted"); }
    }
    assert FORBIDDEN_BIND_SOURCES[..|FORBIDDEN_BIND_SOURCES|] == FORBIDDEN_BIND_SOURCES;
    return Accepted;
  }

  method Validate(s: ContainerSpec) returns (v: Verdict)
    ensures v.Accepted? <==> Acceptable(s)
  {
    if !NamePattern(s.name) { return Rejected("name"); }
    if !ImagePattern(s.image) { return Rejected("image"); }
    if s.hostname != "" && !HostnamePattern(s.hostname) { return Rejected("hostname"); }
    if !RestartPolicy(s.restartPolicy) { return Rejected("restartPolicy"); }
    v := ValidateEnv(s.env);
    if v.Rejected? { return; }
    v := ValidatePorts(s.ports);
    if v.Rejected? { return; }
    v := ValidateMounts(s.mounts);
    if v.Rejected? { return; }
    for i := 0 to |s.networks|
      invariant forall n :: n in s.networks[..i] ==> NamePattern(n)
    {
      if !NamePattern(s.networks[i]) { return Rejected("network"); }
    }
    assert s.networks[..|s.networks|] == s.networks;
    var unseen := s.labels.Keys;
    while unseen != {}
      invariant unseen <= s.labels.Keys
      invariant forall key :: key in s.labels && key !in unseen ==> LabelOk(key)
      decreases unseen
    {
      var key :| key in unseen;
      if !LabelOk(key) { return Rejected("label"); }
      unseen := unseen - {key};
    }
    if s.healthcheck.Some? && s.healthcheck.value.test == [] { return Rejected("healthcheck test"); }
    return Accepted;
  }
}
