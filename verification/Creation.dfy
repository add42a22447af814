/**
 What Docker is asked to build for a specification (`createWithLabels` in
 agent/internal/docker/manage.go and `SortedEnv` in spec.go).

 The configuration is put together piece by piece, as the source does. It is shown
 to say what the specification says and nothing else, and to be the same for two
 specifications exactly when they ask for the same container.
 */
module Creation {
  import opened Wrappers
  import opened Text
  import opened AgentSpec

  /** A port inside the container. */
  datatype Inner = Inner(protocol: string, port: Port)
  datatype Outer = Outer(hostIp: string, hostPort: Port)

  datatype Mount = Mount(bind: bool, source: string, target: string, readOnly: bool)

  /** Times in nanoseconds. */
  datatype Health = Health(test: seq<string>, interval: int, timeout: int, startPeriod: int, retries: int)

  datatype Config = Config(
    image: string,
    env: seq<string>,
    hostname: string,
    command: seq<string>,
    entrypoint: seq<string>,
    exposed: set<Inner>,
    bindings: map<Inner, seq<Outer>>,
    mounts: seq<Mount>,
    restartPolicy: string,
    healthcheck: Option<Health>)

  const MILLISECOND := 1_000_000

  // ---- what the configuration has to say -----------------------------------

  function Rendered(v: EnvVar): string
  {
    v.key + "=" + v.value
  }

  ghost predicate EnvRendered(env: seq<EnvVar>, rendered: seq<string>)
  {
    && Ascending(rendered) && (forall v :: v in env ==> Rendered(v) in rendered)
    && forall text :: text in rendered ==> exists v :: v in env && Rendered(v) == text
  }

  function InnerOf(p: PortSpec): Inner
  {
    Inner(p.protocol, p.containerPort)
  }

  /** The addresses a port is published on, in order; without a host port it is only exposed. */
  function Published(ports: seq<PortSpec>, inner: Inner): seq<Outer>
  {
    if ports == [] then []
    else
      var last := ports[|ports| - 1];
      Published(ports[..|ports| - 1], inner) + Adds(last, inner)
  }

  function Adds(p: PortSpec, inner: Inner): seq<Outer>
  {
    if InnerOf(p) == inner && p.hostPort != 0 then [Outer(p.hostIp, p.hostPort)] else []
  }

  predicate Exposes(ports: seq<PortSpec>, inner: Inner)
  {
    exists p :: p in ports && InnerOf(p) == inner
  }

  ghost predicate PortsRendered(ports: seq<PortSpec>, exposed: set<Inner>, bindings: map<Inner, seq<Outer>>)
  {
    && (forall inner :: inner in exposed <==> Exposes(ports, inner))
    && (forall inner :: Published(ports, inner) == if inner in bindings then bindings[inner] else [])
    && forall inner :: inner in bindings ==> bindings[inner] != []
  }

  ghost predicate MountRendered(m: MountSpec, mount: Mount)
  {
    && (mount.bind <==> m.kind == "bind")
    && mount.source == m.source && mount.target == m.target && mount.readOnly == m.readOnly
  }

  ghost predicate MountsRendered(mounts: seq<MountSpec>, rendered: seq<Mount>)
  {
    |rendered| == |mounts| && forall i :: 0 <= i < |mounts| ==> MountRendered(mounts[i], rendered[i])
  }

  ghost predicate HealthRendered(h: Healthcheck, rendered: Health)
  {
    && rendered.test == h.test && rendered.retries == h.retries && rendered.interval == h.intervalMs * MILLISECOND
    && rendered.timeout == h.timeoutMs * MILLISECOND && rendered.startPeriod == h.startPeriodMs * MILLISECOND
  }

  /** The configuration says what the specification says. */
  ghost predicate Renders(spec: ContainerSpec, config: Config)
  {
    && config.image == spec.image && config.hostname == spec.hostname && config.command == spec.command
    && config.entrypoint == spec.entrypoint && config.restartPolicy == spec.restartPolicy
    && EnvRendered(spec.env, config.env)
    && PortsRendered(spec.ports, config.exposed, config.bindings)
    && MountsRendered(spec.mounts, config.mounts)
    && (config.healthcheck.Some? <==> spec.healthcheck.Some?)
    && (spec.healthcheck.Some? ==> HealthRendered(spec.healthcheck.value, config.healthcheck.value))
  }

  /** The named volumes a container is built with. */
  function VolumesIn(config: Config): set<string>
  {
    set m | m in config.mounts && !m.bind :: m.source
  }

  // ---- putting it together ----------------------------------------------------

  lemma RenderedApart(v: EnvVar, w: EnvVar)
    requires EnvKeyPattern(v.key) && EnvKeyPattern(w.key) && Rendered(v) == Rendered(w)
    ensures v == w
  {
    var text := Rendered(v);
    assert text[|v.key|] == '=' && text[|w.key|] == '=';
    assert forall i :: 0 <= i < |v.key| ==> text[i] == v.key[i] && v.key[i] != '=';
    assert forall i :: 0 <= i < |w.key| ==> text[i] == w.key[i] && w.key[i] != '=';
    assert |v.key| == |w.key|;
    assert v.key == text[..|v.key|] == w.key;
    assert v.value == text[|v.key| + 1..] == w.value;
  }

  /** The environment the way Docker wants it, in an order that does not depend on how it was given. */
  method SortedEnv(env: seq<EnvVar>) returns (rendered: seq<string>)
    requires EnvOk(env)
    ensures EnvRendered(env, rendered)
  {
    var texts: seq<string> := [];
    for i := 0 to |env|
      invariant |texts| == i && forall k :: 0 <= k < i ==> texts[k] == Rendered(env[k])
    {
      texts := texts + [Rendered(env[i])];
    }
    forall i, j | 0 <= i < j < |texts|
      ensures texts[i] != texts[j]
    {
      assert env[i] in env && env[j] in env;
      if texts[i] == texts[j] { RenderedApart(env[i], env[j]); }
    }
    rendered := SortStrings(texts);
    forall v | v in env
      ensures Rendered(v) in rendered
    {
      var k :| 0 <= k < |env| && env[k] == v;
      assert texts[k] in Members(texts);
      assert Rendered(v) in Members(rendered);
    }
    forall text | text in rendered
      ensures exists v :: v in env && Rendered(v) == text
    {
      assert text in Members(rendered);
      var k :| 0 <= k < |texts| && texts[k] == text;
      assert env[k] in env && Rendered(env[k]) == text;
    }
  }

  lemma NoPorts()
    ensures PortsRendered([], {}, map[])
  {
  }

  lemma OnePortMore(ports: seq<PortSpec>, i: nat)
    requires i < |ports|
    ensures forall inner :: Exposes(ports[..i + 1], inner) <==> Exposes(ports[..i], inner) || inner == InnerOf(ports[i])
    ensures forall inner :: Published(ports[..i + 1], inner) == Published(ports[..i], inner) + Adds(ports[i], inner)
  {
    assert ports[..i + 1] == ports[..i] + [ports[i]] && ports[..i + 1][..i] == ports[..i];
    assert ports[i] in ports[..i + 1];
    forall inner
      ensures Exposes(ports[..i + 1], inner) <==> Exposes(ports[..i], inner) || inner == InnerOf(ports[i])
    {
      if Exposes(ports[..i], inner) {
        var p :| p in ports[..i] && InnerOf(p) == inner;
        assert p in ports[..i + 1];
      }
    }
  }

  /** Every port is exposed; those with a host port are published as well. */
  method PortConfiguration(ports: seq<PortSpec>) returns (exposed: set<Inner>, bindings: map<Inner, seq<Outer>>)
    ensures PortsRendered(ports, exposed, bindings)
  {
    hide Published, Exposes;
    NoPorts();
    exposed, bindings := {}, map[];
    for i := 0 to |ports|
      invariant PortsRendered(ports[..i], exposed, bindings)
    {
      OnePortMore(ports, i);
      var inner := InnerOf(ports[i]);
      exposed := exposed + {inner};
      if ports[i].hostPort == 0 {
        continue;
      }
      var sofar := if inner in bindings then bindings[inner] else [];
      bindings := bindings[inner := sofar + [Outer(ports[i].hostIp, ports[i].hostPort)]];
    }
    assert ports[..|ports|] == ports;
  }

  /** Mounts one for one; what is not a bind is a volume. */
  method MountConfiguration(mounts: seq<MountSpec>) returns (rendered: seq<Mount>)
    ensures MountsRendered(mounts, rendered)
  {
    rendered := [];
    for i := 0 to |mounts|
      invariant |rendered| == i && forall k :: 0 <= k < i ==> MountRendered(mounts[k], rendered[k])
    {
      var m := mounts[i];
      rendered := rendered + [Mount(m.kind == "bind", m.source, m.target, m.readOnly)];
    }
  }

  method BuildConfig(spec: ContainerSpec) returns (config: Config)
    requires EnvOk(spec.env)
    ensures Renders(spec, config)
  {
    hide EnvRendered, PortsRendered, MountsRendered;
    var env := SortedEnv(spec.env);
    var exposed, bindings := PortConfiguration(spec.ports);
    var health := None;
    if spec.healthcheck.Some? {
      var h := spec.healthcheck.value;
      health := Some(Health(h.test, h.intervalMs * MILLISECOND, h.timeoutMs * MILLISECOND,
        h.startPeriodMs * MILLISECOND, h.retries));
    }
    var mounts := MountConfiguration(spec.mounts);
    config := Config(spec.image, env, spec.hostname, spec.command, spec.entrypoint, exposed, bindings, mounts,
      spec.restartPolicy, health);
  }

  // ---- nothing is lost and nothing depends on order ------------------------------

  ghost predicate SamePorts(a: seq<PortSpec>, b: seq<PortSpec>)
  {
    && (forall inner :: Exposes(a, inner) <==> Exposes(b, inner))
    && forall inner :: Published(a, inner) == Published(b, inner)
  }

  /** Two specifications of the same container, whatever order their environments are in. */
  ghost predicate SameBuild(a: ContainerSpec, b: ContainerSpec)
  {
    && a.image == b.image && a.hostname == b.hostname && a.command == b.command && a.entrypoint == b.entrypoint
    && a.restartPolicy == b.restartPolicy && a.mounts == b.mounts && a.healthcheck == b.healthcheck
    && Members(a.env) == Members(b.env) && SamePorts(a.ports, b.ports)
  }

  lemma EnvTells(a: seq<EnvVar>, b: seq<EnvVar>, c: seq<string>, d: seq<string>)
    requires EnvOk(a) && EnvOk(b) && EnvRendered(a, c) && EnvRendered(b, d)
    ensures c == d <==> Members(a) == Members(b)
  {
    if c == d {
      EnvWithin(a, b, c);
      EnvWithin(b, a, c);
    }
    if Members(a) == Members(b) {
      assert forall v :: v in a <==> v in Members(b);
      assert Members(c) == Members(d);
      AscendingUnique(c, d);
    }
  }

  lemma EnvWithin(a: seq<EnvVar>, b: seq<EnvVar>, c: seq<string>)
    requires EnvOk(a) && EnvOk(b) && EnvRendered(a, c) && EnvRendered(b, c)
    ensures Members(a) <= Members(b)
  {
    forall v | v in Members(a)
      ensures v in Members(b)
    {
      assert Rendered(v) in c;
      var w :| w in b && Rendered(w) == Rendered(v);
      RenderedApart(v, w);
    }
  }

  lemma PortsTell(a: seq<PortSpec>, b: seq<PortSpec>, ea: set<Inner>, ba: map<Inner, seq<Outer>>, eb: set<Inner>,
      bb: map<Inner, seq<Outer>>)
    requires PortsRendered(a, ea, ba) && PortsRendered(b, eb, bb)
    ensures ea == eb && ba == bb <==> SamePorts(a, b)
  {
    hide Published, Exposes;
    if SamePorts(a, b) {
      forall inner
        ensures inner in ba <==> inner in bb
        ensures inner in ba ==> ba[inner] == bb[inner]
      {
        assert Published(a, inner) == Published(b, inner);
      }
      assert ba == bb;
      forall inner
        ensures inner in ea <==> inner in eb
      {
      }
    }
    if ea == eb && ba == bb {
      forall inner
        ensures Published(a, inner) == Published(b, inner)
        ensures Exposes(a, inner) <==> Exposes(b, inner)
      {
        assert inner in ea <==> inner in eb;
      }
    }
  }

  lemma MountsTell(a: seq<MountSpec>, b: seq<MountSpec>, c: seq<Mount>, d: seq<Mount>)
    requires MountsOk(a) && MountsOk(b) && MountsRendered(a, c) && MountsRendered(b, d)
    ensures c == d <==> a == b
  {
    hide BindSourceOk, NamePattern, Climbs;
    if c == d {
      forall i | 0 <= i < |a|
        ensures a[i] == b[i]
      {
        assert a[i] in a && b[i] in b;
        assert MountRendered(a[i], c[i]) && MountRendered(b[i], c[i]);
      }
    }
    if a == b {
      forall i | 0 <= i < |a|
        ensures c[i] == d[i]
      {
        assert MountRendered(a[i], c[i]) && MountRendered(b[i], d[i]);
      }
    }
  }

  /** Two accepted specifications give one configuration exactly when they ask for the same container. */
  lemma SameConfigIffSameBuild(a: ContainerSpec, b: ContainerSpec, c: Config, d: Config)
    requires Acceptable(a) && Acceptable(b) && Renders(a, c) && Renders(b, d)
    ensures c == d <==> SameBuild(a, b)
  {
    hide EnvOk, MountsOk, PortsOk, EnvRendered, PortsRendered, MountsRendered, SamePorts, NamePattern, ImagePattern,
      HostnamePattern, RestartPolicy, LabelOk;
    EnvTells(a.env, b.env, c.env, d.env);
    PortsTell(a.ports, b.ports, c.exposed, c.bindings, d.exposed, d.bindings);
    MountsTell(a.mounts, b.mounts, c.mounts, d.mounts);
  }

  /** A container mounts exactly the volumes its specification names. */
  ghost predicate MountsItsVolumes(spec: ContainerSpec, volumes: set<string>)
  {
    forall source :: source in volumes <==> exists m :: m in spec.mounts && m.kind == "volume" && m.source == source
  }

  lemma VolumesAreMounted(spec: ContainerSpec, config: Config)
    requires MountsOk(spec.mounts) && Renders(spec, config)
    ensures MountsItsVolumes(spec, VolumesIn(config))
  {
    hide BindSourceOk, NamePattern, Climbs, EnvRendered, PortsRendered, HealthRendered;
    forall source
      ensures source in VolumesIn(config) <==> exists m :: m in spec.mounts && m.kind == "volume" && m.source == source
    {
      if source in VolumesIn(config) {
        var mount :| mount in config.mounts && !mount.bind && mount.source == source;
        var i :| 0 <= i < |config.mounts| && config.mounts[i] == mount;
        assert MountRendered(spec.mounts[i], mount) && spec.mounts[i] in spec.mounts;
      }
      if m :| m in spec.mounts && m.kind == "volume" && m.source == source {
        var i :| 0 <= i < |spec.mounts| && spec.mounts[i] == m;
        assert MountRendered(m, config.mounts[i]) && config.mounts[i] in config.mounts;
      }
    }
  }
}
