/** The runtime adapter over the container engine (internal/runtime/docker.go):
    how a container record becomes an engine configuration, and how an
    inspection becomes a container state. */
module Runtime {
  import opened Basics
  import opened Models
  import opened Strconv
  import opened DockerEngine

  /** The engine's restart policy name for a record's restart policy. */
  function RestartPolicyName(policy: string): (name: string)
    ensures name == "always" || name == "on-failure" || name == "no"
    ensures name == "always" <==> policy == "Always"
    ensures name == "on-failure" <==> policy == "OnFailure"
  {
    if policy == "Always" then "always"
    else if policy == "OnFailure" then "on-failure"
    else "no"
  }

  /** The state reported for an inspected container. */
  function ClassifyState(running: bool, exitCode: int): (state: string)
    ensures state != Pending
    ensures state == Running <==> running
    ensures state == Succeeded <==> !running && exitCode == 0
    ensures state == Failed <==> !running && exitCode != 0
  {
    if running then Running
    else if exitCode == 0 then Succeeded
    else Failed
  }

  /** `GetContainerStatus`: an inspection error yields the empty state and an error. */
  method GetContainerStatus(engine: Engine, id: string, ok: bool) returns (state: string, err: bool)
    modifies engine
    ensures err == !(ok && id in old(engine.containers))
    ensures err ==> state == ""
    ensures !err ==> id in engine.containers && state == ClassifyState(engine.containers[id].running, engine.containers[id].exitCode)
    ensures engine.containers == old(engine.containers)
    ensures engine.calls == old(engine.calls) + [InspectCall(id)]
  {
    var r := engine.Inspect(id, ok);
    if r.None? {
      return "", true;
    }
    state, err := ClassifyState(r.value.running, r.value.exitCode), false;
  }

  // ----- port bindings -----

  /** The engine's port parser accepts a decimal port number of 16 bits. */
  predicate NatPortValid(p: int) { 0 <= p <= 65535 }

  /** The engine's key for a TCP container port, `"<port>/tcp"`. */
  function PortKey(p: int): string { Itoa(p) + "/tcp" }

  lemma PortKeyInjective(a: int, b: int)
    requires PortKey(a) == PortKey(b)
    ensures a == b
  {
    var ka, kb := Itoa(a), Itoa(b);
    assert |ka| == |kb|;
    assert ka == PortKey(a)[..|ka|] && kb == PortKey(b)[..|kb|];
    ItoaInjective(a, b);
  }

  /** No later mapping uses the same container port as mapping `i`. */
  predicate LastForPort(ports: seq<PortMapping>, i: int)
    requires 0 <= i < |ports|
  {
    forall j :: i < j < |ports| ==> ports[j].containerPort != ports[i].containerPort
  }

  /** The host port a mapping is published on; `zeroHost` asks the engine for an ephemeral one. */
  function HostPortFor(m: PortMapping, zeroHost: bool): int
  {
    if zeroHost then 0 else m.hostPort
  }

  /** Each mapping exposes its container port and binds it on 0.0.0.0 with exactly one
      binding; when two mappings share a container port the later one's binding is kept. */
  ghost predicate PortConfigOf(exposed: set<string>, bindings: map<string, seq<PortBinding>>,
                               ports: seq<PortMapping>, zeroHost: bool)
  {
    && exposed == (set p | p in ports :: PortKey(p.containerPort))
    && bindings.Keys == exposed
    && forall i :: 0 <= i < |ports| && LastForPort(ports, i) ==>
         PortKey(ports[i].containerPort) in bindings
         && bindings[PortKey(ports[i].containerPort)] == [PortBinding("0.0.0.0", Itoa(HostPortFor(ports[i], zeroHost)))]
  }

  function Binding(m: PortMapping, zeroHost: bool): seq<PortBinding>
  {
    [PortBinding("0.0.0.0", Itoa(HostPortFor(m, zeroHost)))]
  }

  /** The exposed-port set the port loop builds, mapping by mapping. */
  function ExposedOf(ports: seq<PortMapping>): set<string>
  {
    if ports == [] then {}
    else ExposedOf(ports[..|ports| - 1]) + {PortKey(ports[|ports| - 1].containerPort)}
  }

  /** The binding map the port loop builds, mapping by mapping. */
  function BindingsOf(ports: seq<PortMapping>, zeroHost: bool): map<string, seq<PortBinding>>
  {
    if ports == [] then map[]
    else
      var last := ports[|ports| - 1];
      BindingsOf(ports[..|ports| - 1], zeroHost)[PortKey(last.containerPort) := Binding(last, zeroHost)]
  }

  /** One more mapping adds its port key to the exposed set and rebinds that key. */
  lemma PortsStep(ports: seq<PortMapping>, n: int, zeroHost: bool)
    requires 0 <= n < |ports|
    ensures ExposedOf(ports[..n + 1]) == ExposedOf(ports[..n]) + {PortKey(ports[n].containerPort)}
    ensures BindingsOf(ports[..n + 1], zeroHost)
              == BindingsOf(ports[..n], zeroHost)[PortKey(ports[n].containerPort) := Binding(ports[n], zeroHost)]
  {
    assert ports[..n + 1][..n] == ports[..n];
  }

  lemma {:induction false} ExposedOfMeaning(ports: seq<PortMapping>)
    ensures ExposedOf(ports) == (set p | p in ports :: PortKey(p.containerPort))
  {
    if ports != [] {
      ExposedOfMeaning(ports[..|ports| - 1]);
      PortKeysSnoc(ports);
    }
  }

  /** The port keys of a list are those of all but its last mapping, and the last one's key. */
  lemma PortKeysSnoc(ports: seq<PortMapping>)
    requires ports != []
    ensures var pre, last := ports[..|ports| - 1], ports[|ports| - 1];
      (set p | p in ports :: PortKey(p.containerPort))
        == (set p | p in pre :: PortKey(p.containerPort)) + {PortKey(last.containerPort)}
  {
    var pre, last := ports[..|ports| - 1], ports[|ports| - 1];
    assert ports == pre + [last];
    var all := set p | p in ports :: PortKey(p.containerPort);
    var before := set p | p in pre :: PortKey(p.containerPort);
    forall k | k in all ensures k in before + {PortKey(last.containerPort)} {
      var p :| p in ports && PortKey(p.containerPort) == k;
      if p != last {
        assert p in pre;
      }
    }
    forall k | k in before ensures k in all {
      var p :| p in pre && PortKey(p.containerPort) == k;
      assert p in ports;
    }
    assert last in ports;
  }

  lemma {:induction false} BindingsOfKeys(ports: seq<PortMapping>, zeroHost: bool)
    ensures BindingsOf(ports, zeroHost).Keys == ExposedOf(ports)
  {
    if ports != [] {
      BindingsOfKeys(ports[..|ports| - 1], zeroHost);
    }
  }

  /** The binding kept for a container port is the one of its last mapping. */
  lemma {:induction false} BindingsOfLast(ports: seq<PortMapping>, zeroHost: bool, i: int)
    requires 0 <= i < |ports| && LastForPort(ports, i)
    ensures PortKey(ports[i].containerPort) in BindingsOf(ports, zeroHost)
    ensures BindingsOf(ports, zeroHost)[PortKey(ports[i].containerPort)] == Binding(ports[i], zeroHost)
  {
    var n := |ports| - 1;
    var pre, x := ports[..n], ports[n];
    var k := PortKey(ports[i].containerPort);
    assert BindingsOf(ports, zeroHost) == BindingsOf(pre, zeroHost)[PortKey(x.containerPort) := Binding(x, zeroHost)];
    if i < n {
      assert k in BindingsOf(pre, zeroHost) && BindingsOf(pre, zeroHost)[k] == Binding(ports[i], zeroHost) by {
        assert ports[i] == pre[i];
        LastForPortPrefix(ports, i);
        BindingsOfLast(pre, zeroHost, i);
      }
      assert k != PortKey(x.containerPort) by {
        DistinctPortKeys(ports[i].containerPort, x.containerPort);
      }
    }
  }

  /** A mapping that is last for its port stays last once the final mapping is dropped. */
  lemma LastForPortPrefix(ports: seq<PortMapping>, i: int)
    requires 0 <= i < |ports| - 1 && LastForPort(ports, i)
    ensures LastForPort(ports[..|ports| - 1], i)
  {
    var pre := ports[..|ports| - 1];
    forall j | i < j < |pre| ensures pre[j].containerPort != pre[i].containerPort {
      assert ports[j] == pre[j];
    }
  }

  lemma DistinctPortKeys(a: int, b: int)
    requires a != b
    ensures PortKey(a) != PortKey(b)
  {
    if PortKey(a) == PortKey(b) {
      PortKeyInjective(a, b);
    }
  }

  /** What the loop builds is what `PortConfigOf` describes. */
  lemma PortLoopMeaning(ports: seq<PortMapping>, zeroHost: bool)
    ensures PortConfigOf(ExposedOf(ports), BindingsOf(ports, zeroHost), ports, zeroHost)
  {
    ExposedOfMeaning(ports);
    BindingsOfKeys(ports, zeroHost);
    forall i | 0 <= i < |ports| && LastForPort(ports, i)
      ensures BindingsOf(ports, zeroHost)[PortKey(ports[i].containerPort)] == Binding(ports[i], zeroHost)
    {
      BindingsOfLast(ports, zeroHost, i);
    }
  }

  /** The port loop of `CreateContainer`: fails on the first unparsable container port. */
  method BuildPortBindings(ports: seq<PortMapping>)
    returns (exposed: set<string>, bindings: map<string, seq<PortBinding>>, ok: bool)
    ensures ok <==> forall i :: 0 <= i < |ports| ==> NatPortValid(ports[i].containerPort)
    ensures ok ==> PortConfigOf(exposed, bindings, ports, false)
  {
    exposed, bindings := {}, map[];
    for n := 0 to |ports|
      invariant forall i :: 0 <= i < n ==> NatPortValid(ports[i].containerPort)
      invariant exposed == ExposedOf(ports[..n])
      invariant bindings == BindingsOf(ports[..n], false)
    {
      var p := ports[n];
      if !NatPortValid(p.containerPort) {
        return exposed, bindings, false;
      }
      PortsStep(ports, n, false);
      var key := PortKey(p.containerPort);
      assert Binding(p, false) == [PortBinding("0.0.0.0", Itoa(p.hostPort))];
      bindings := bindings[key := [PortBinding("0.0.0.0", Itoa(p.hostPort))]];
      exposed := exposed + {key};
    }
    assert ports[..|ports|] == ports;
    PortLoopMeaning(ports, false);
    ok := true;
  }

  // ----- environment -----

  /** One `KEY=value` entry of a container environment. */
  function EnvEntry(k: string, v: string): string { k + "=" + v }

  /** `entries` holds one `k=v` entry per entry of `env`, in some order. */
  ghost predicate EnvListing(entries: seq<string>, env: map<string, string>)
  {
    exists keys: seq<string> :: EnvListedBy(entries, env, keys)
  }

  /** `entries` lists `env` in the order of `keys`. */
  ghost predicate EnvListedBy(entries: seq<string>, env: map<string, string>, keys: seq<string>)
  {
    && Enumerates(keys, env)
    && |keys| == |entries|
    && forall i :: 0 <= i < |keys| ==> entries[i] == EnvEntry(keys[i], env[keys[i]])
  }

  /** The environment loop: map iteration order is unspecified. */
  method BuildEnv(env: map<string, string>) returns (entries: seq<string>)
    ensures EnvListing(entries, env)
    ensures |entries| == |env|
  {
    var keys := EnumerateKeys(env);
    entries := [];
    var n := 0;
    while n < |keys|
      invariant 0 <= n <= |keys|
      invariant |entries| == n
      invariant forall i :: 0 <= i < n ==> entries[i] == EnvEntry(keys[i], env[keys[i]])
    {
      entries := entries + [EnvEntry(keys[n], env[keys[n]])];
      n := n + 1;
    }
    EnumeratesCard(keys, env);
    assert EnvListedBy(entries, env, keys);
  }

  // ----- create -----

  /** The only label the adapter sets. */
  const ContainerIdLabel: string := "podium.container.id"

  /** The memory limit is passed on only when positive. */
  function MemoryOf(r: ResourceRequirements): (m: int)
    ensures m >= 0
    ensures r.memoryLimit > 0 ==> m == r.memoryLimit
  {
    if r.memoryLimit > 0 then r.memoryLimit else 0
  }

  /** The configuration `CreateContainer` hands to the engine for a record. */
  ghost predicate RuntimeConfigOf(cfg: Config, spec: Container)
  {
    && cfg.image == spec.image
    && cfg.cmd == spec.command
    && EnvListing(cfg.env, spec.env)
    && PortConfigOf(cfg.exposedPorts, cfg.portBindings, spec.ports, false)
    && cfg.labels == map[ContainerIdLabel := spec.id]
    && cfg.restartPolicy == RestartPolicyName(spec.restartPolicy)
    && cfg.memory == MemoryOf(spec.resources)
    && !cfg.healthcheck
  }

  /** The engine container that a successful `CreateContainer` leaves: named by
      the record's ID, not started. */
  ghost predicate CreatedFrom(inst: Instance, spec: Container)
  {
    inst.name == spec.id && !inst.running && inst.exitCode == 0 && inst.health == None
    && RuntimeConfigOf(inst.config, spec)
  }

  predicate PortsValid(ports: seq<PortMapping>)
  {
    forall i :: 0 <= i < |ports| ==> NatPortValid(ports[i].containerPort)
  }

  /** `CreateContainer`: builds the configuration and creates the container under
      the record's ID. An invalid port aborts before the engine is called. */
  method CreateContainer(engine: Engine, spec: Container, ok: bool) returns (err: bool)
    modifies engine
    ensures err == (!PortsValid(spec.ports) || !ok || spec.id in old(engine.containers))
    ensures err ==> engine.containers == old(engine.containers)
    ensures !err ==> spec.id in engine.containers && engine.containers - {spec.id} == old(engine.containers)
                     && CreatedFrom(engine.containers[spec.id], spec)
    ensures engine.calls == old(engine.calls) + (if PortsValid(spec.ports) then [CreateCall(spec.id)] else [])
  {
    var cfg, portsOk := BuildRuntimeConfig(spec);
    if !portsOk {
      return true;
    }
    ghost var m0 := engine.containers;
    err := engine.Create(spec.id, spec.id, cfg, ok);
    if !err {
      assert m0[spec.id := Instance(spec.id, cfg, false, 0, None)] - {spec.id} == m0;
    }
  }

  /** The configuration part of `CreateContainer`: ports, environment, label,
      memory and restart policy; fails on an invalid container port. */
  method BuildRuntimeConfig(spec: Container) returns (cfg: Config, portsOk: bool)
    ensures portsOk == PortsValid(spec.ports)
    ensures portsOk ==> RuntimeConfigOf(cfg, spec)
  {
    var exposed, bindings;
    exposed, bindings, portsOk := BuildPortBindings(spec.ports);
    var env := BuildEnv(spec.env);
    cfg := Config(spec.image, spec.command, env, exposed, bindings, map[ContainerIdLabel := spec.id],
                  RestartPolicyName(spec.restartPolicy), MemoryOf(spec.resources), false);
  }

  // ----- lifecycle calls -----

  /** `StartContainer`: a direct engine start; the engine's error is passed on. */
  method StartContainer(engine: Engine, id: string, ok: bool) returns (err: bool)
    modifies engine
    ensures err == (!ok || id !in old(engine.containers))
    ensures engine.containers == if err then old(engine.containers)
                                 else old(engine.containers)[id := old(engine.containers)[id].(running := true)]
    ensures engine.calls == old(engine.calls) + [StartCall(id)]
  {
    err := engine.Start(id, ok);
  }

  /** `StopContainer`: a direct engine stop (with a grace period); the engine's error is passed on. */
  method StopContainer(engine: Engine, id: string, ok: bool) returns (err: bool)
    modifies engine
    ensures err == (!ok || id !in old(engine.containers))
    ensures engine.containers == if err then old(engine.containers)
                                 else old(engine.containers)[id := old(engine.containers)[id].(running := false)]
    ensures engine.calls == old(engine.calls) + [StopCall(id)]
  {
    err := engine.Stop(id, ok);
  }

  /** `DeleteContainer`: a forced engine removal. */
  method DeleteContainer(engine: Engine, id: string, ok: bool) returns (err: bool)
    modifies engine
    ensures err == (!ok || id !in old(engine.containers))
    ensures engine.containers == if err then old(engine.containers) else old(engine.containers) - {id}
    ensures engine.calls == old(engine.calls) + [RemoveCall(id)]
  {
    err := engine.Remove(id, ok);
  }
}
