/** The label-indexed service manager (internal/service/docker_manager.go): a
    service's replicas are the engine containers labelled with its ID, and a
    replica's position is its `podium.replica.index` label. The manager talks
    to the engine directly, not through the runtime adapter. */
module ServiceManager {
  import opened Basics
  import opened Models
  import opened Strconv
  import opened DockerEngine
  import opened Persistence
  import opened Runtime

  const ServiceIdLabel: string := "podium.service.id"
  const ServiceNameLabel: string := "podium.service.name"
  const ReplicaIndexLabel: string := "podium.replica.index"
  const ManagedLabel: string := "podium.managed"

  /** The engine restart policy for a service's restart policy object. */
  function ConvertRestartPolicy(policy: Option<RestartPolicy>): (name: string)
    ensures policy.None? ==> name == "no"
    ensures policy.Some? && policy.value.kind in {"always", "on-failure", "unless-stopped"} ==> name == policy.value.kind
    ensures policy.Some? && policy.value.kind !in {"always", "on-failure", "unless-stopped"} ==> name == "no"
  {
    match policy
    case None => "no"
    case Some(p) =>
      if p.kind == "always" then "always"
      else if p.kind == "on-failure" then "on-failure"
      else if p.kind == "unless-stopped" then "unless-stopped"
      else "no"
  }

  /** Replica `index` of service `name` is the engine container `"<name>-<index>"`. */
  function ReplicaName(name: string, index: int): string
  {
    name + "-" + Itoa(index)
  }

  /** Two replicas of one service never share a name. */
  lemma ReplicaNameInjective(name: string, i: int, j: int)
    requires ReplicaName(name, i) == ReplicaName(name, j)
    ensures i == j
  {
    var p := name + "-";
    assert ReplicaName(name, i)[|p|..] == Itoa(i);
    assert ReplicaName(name, j)[|p|..] == Itoa(j);
    ItoaInjective(i, j);
  }

  /** The environment of a replica: the service's entries in some order, then the three markers. */
  function ReplicaMarkers(s: Service, index: int): seq<string>
  {
    [EnvEntry("PODIUM_SERVICE_ID", s.id), EnvEntry("PODIUM_SERVICE_NAME", s.name),
     EnvEntry("PODIUM_REPLICA_INDEX", Itoa(index))]
  }

  function ReplicaLabels(s: Service, index: int): map<string, string>
  {
    map[ServiceIdLabel := s.id, ServiceNameLabel := s.name, ReplicaIndexLabel := Itoa(index), ManagedLabel := "true"]
  }

  /** The service's environment entries in some order, then the three markers. */
  ghost predicate ReplicaEnv(entries: seq<string>, s: Service, index: int)
  {
    exists base :: entries == base + ReplicaMarkers(s, index) && EnvListing(base, s.env)
  }

  /** The configuration of replica `index`: the image (no command, no memory
      limit), the service's environment plus markers, identifying labels, every
      port exposed with only replica 0 keeping the configured host port, and an
      engine health check exactly when the service has one. */
  ghost predicate ReplicaConfigOf(cfg: Config, s: Service, index: int)
  {
    && cfg.image == s.image
    && cfg.cmd == []
    && ReplicaEnv(cfg.env, s, index)
    && PortConfigOf(cfg.exposedPorts, cfg.portBindings, s.ports, index > 0)
    && cfg.labels == ReplicaLabels(s, index)
    && cfg.restartPolicy == ConvertRestartPolicy(s.policy)
    && cfg.memory == 0
    && cfg.healthcheck == s.healthCheck.Some?
  }

  /** The port loop of `createServiceContainer`: no port is validated. */
  method ReplicaPorts(ports: seq<PortMapping>, index: int)
    returns (exposed: set<string>, bindings: map<string, seq<PortBinding>>)
    ensures PortConfigOf(exposed, bindings, ports, index > 0)
  {
    exposed, bindings := {}, map[];
    for n := 0 to |ports|
      invariant exposed == ExposedOf(ports[..n])
      invariant bindings == BindingsOf(ports[..n], index > 0)
    {
      var p := ports[n];
      PortsStep(ports, n, index > 0);
      var key := PortKey(p.containerPort);
      var hostPort := p.hostPort;
      if index > 0 {
        hostPort := 0;
      }
      exposed := exposed + {key};
      bindings := bindings[key := [PortBinding("0.0.0.0", Itoa(hostPort))]];
    }
    assert ports[..|ports|] == ports;
    PortLoopMeaning(ports, index > 0);
  }

  method BuildReplicaConfig(s: Service, index: int) returns (cfg: Config)
    ensures ReplicaConfigOf(cfg, s, index)
  {
    var exposed, bindings := ReplicaPorts(s.ports, index);
    var env := BuildEnv(s.env);
    var all := env + ReplicaMarkers(s, index);
    cfg := Config(s.image, [], all, exposed, bindings, ReplicaLabels(s, index),
                  ConvertRestartPolicy(s.policy), 0, s.healthCheck.Some?);
  }

  /** Engine container `inst` is replica `index` of `s`, as created. */
  ghost predicate IsReplica(inst: Instance, s: Service, index: int)
  {
    inst.name == ReplicaName(s.name, index) && ReplicaConfigOf(inst.config, s, index)
    && inst.exitCode == 0 && inst.health == None
  }

  /** What the engine answers when replica `index` is created: the ID it assigns and
      whether the create and the start succeed. */
  datatype ReplicaOutcome = ReplicaOutcome(id: string, createOk: bool, startOk: bool)

  /** The engine after replica `index` of `s` is created as `o` says: when the
      create succeeds the replica is added under its ID, running exactly when
      the start succeeded; otherwise nothing changes. */
  ghost predicate ReplicaCreated(m: map<string, Instance>, m': map<string, Instance>, s: Service, index: int, o: ReplicaOutcome)
  {
    if o.createOk && o.id !in m then
      o.id in m' && m' - {o.id} == m && IsReplica(m'[o.id], s, index) && m'[o.id].running == o.startOk
    else m' == m
  }

  /** The engine calls creating one replica: the start only follows a successful create. */
  function ReplicaCalls(m: map<string, Instance>, o: ReplicaOutcome): seq<Call>
  {
    if o.createOk && o.id !in m then [CreateCall(o.id), StartCall(o.id)] else [CreateCall(o.id)]
  }

  /** `createServiceContainer`: create, then start under the assigned ID. */
  method CreateServiceContainer(engine: Engine, s: Service, index: int, o: ReplicaOutcome) returns (err: bool)
    modifies engine
    ensures err == !(o.createOk && o.id !in old(engine.containers) && o.startOk)
    ensures ReplicaCreated(old(engine.containers), engine.containers, s, index, o)
    ensures engine.calls == old(engine.calls) + ReplicaCalls(old(engine.containers), o)
  {
    var cfg := BuildReplicaConfig(s, index);
    err := engine.Create(o.id, ReplicaName(s.name, index), cfg, o.createOk);
    if err {
      return;
    }
    err := engine.Start(o.id, o.startOk);
  }

  /** `m'` is `m` plus replicas `from` to `to - 1` of `s`, each created under
      its assigned ID and started, both calls having succeeded; nothing else
      changed. */
  ghost predicate Launched(m: map<string, Instance>, m': map<string, Instance>, s: Service,
                           o: int -> ReplicaOutcome, from: int, to: int)
  {
    && (forall id :: id in m ==> id in m' && m'[id] == m[id])
    && (forall i :: from <= i < to ==>
          && o(i).createOk && o(i).startOk
          && o(i).id !in m && o(i).id in m' && IsReplica(m'[o(i).id], s, i) && m'[o(i).id].running)
    && m'.Keys <= m.Keys + LaunchIds(o, from, to)
  }

  /** Creating and starting the replica as `o` says fails on engine `m`. */
  predicate ReplicaFailed(m: map<string, Instance>, o: ReplicaOutcome)
  {
    !(o.createOk && o.id !in m && o.startOk)
  }

  /** Every replica `from` to `to - 1` is created and started, under an ID
      that is neither in `m` nor assigned to another of them. */
  ghost predicate FreshOutcomes(m: map<string, Instance>, o: int -> ReplicaOutcome, from: int, to: int)
  {
    && (forall i :: from <= i < to ==> o(i).createOk && o(i).startOk && o(i).id !in m)
    && (forall i, j :: from <= i < j < to ==> o(i).id != o(j).id)
  }

  /** An ID among those assigned to replicas `from` to `to - 1` is the ID of one of them. */
  lemma {:induction false} LaunchIdsMeaning(o: int -> ReplicaOutcome, from: int, to: int, id: string)
    decreases to - from
    ensures id in LaunchIds(o, from, to) ==> exists k :: from <= k < to && o(k).id == id
  {
    if from < to {
      LaunchIdsMeaning(o, from, to - 1, id);
    }
  }

  /** A launch that stops only at a failing replica runs to the end when every
      replica succeeds under a fresh ID: the replica it would stop at is already
      running under an ID no earlier replica has, so it cannot fail. */
  lemma LaunchCompletes(m: map<string, Instance>, mid: map<string, Instance>, s: Service,
                        o: int -> ReplicaOutcome, from: int, to: int, reached: int)
    requires FreshOutcomes(m, o, from, to) && from <= reached <= to
    requires Launched(m, mid, s, o, from, reached)
    requires reached < to ==> ReplicaFailed(mid, o(reached))
    ensures reached == to
  {
    if reached < to {
      var id := o(reached).id;
      assert id in mid;
      LaunchIdsMeaning(o, from, reached, id);
    }
  }

  /** The IDs assigned to replicas `from` to `to - 1`. */
  function LaunchIds(o: int -> ReplicaOutcome, from: int, to: int): set<string>
    decreases to - from
  {
    if to <= from then {} else LaunchIds(o, from, to - 1) + {o(to - 1).id}
  }

  /** The engine calls of replicas `from` to `to - 1` all succeeding. */
  function LaunchCalls(o: int -> ReplicaOutcome, from: int, to: int): seq<Call>
    decreases to - from
  {
    if to <= from then [] else LaunchCalls(o, from, to - 1) + [CreateCall(o(to - 1).id), StartCall(o(to - 1).id)]
  }

  /** The number of replicas `CreateService` aims for: at least one. */
  function TargetReplicas(replicas: int): (n: int)
    ensures n >= 1 && (replicas >= 1 ==> n == replicas)
  {
    if replicas <= 0 then 1 else replicas
  }

  lemma LaunchedStep(m: map<string, Instance>, before: map<string, Instance>, after: map<string, Instance>,
                     s: Service, o: int -> ReplicaOutcome, from: int, i: int)
    requires Launched(m, before, s, o, from, i) && from <= i
    requires ReplicaCreated(before, after, s, i, o(i)) && o(i).createOk && o(i).id !in before && o(i).startOk
    ensures Launched(m, after, s, o, from, i + 1)
  {
    assert LaunchIds(o, from, i + 1) == LaunchIds(o, from, i) + {o(i).id};
    assert after.Keys == before.Keys + {o(i).id};
    forall k | from <= k < i + 1
      ensures o(k).id !in m && o(k).id in after && IsReplica(after[o(k).id], s, k) && after[o(k).id].running
    {
      if k < i {
        assert o(k).id in before && o(k).id != o(i).id;
        assert after[o(k).id] == before[o(k).id];
      }
    }
  }

  /** Replicas `from` to `to - 1` in ascending order, stopping at the first
      failure; `reached` is the index that failed, or `to`. Earlier replicas
      are never removed. `s` is the service as the loop sees it. */
  method LaunchReplicas(engine: Engine, s: Service, o: int -> ReplicaOutcome, from: int, to: int)
    returns (err: bool, ghost reached: int, ghost mid: map<string, Instance>)
    requires from <= to
    modifies engine
    ensures from <= reached <= to && err == (reached < to)
    ensures Launched(old(engine.containers), mid, s, o, from, reached)
    ensures !err ==> engine.containers == mid && engine.calls == old(engine.calls) + LaunchCalls(o, from, to)
    ensures err ==> engine.calls == old(engine.calls) + LaunchCalls(o, from, reached) + ReplicaCalls(mid, o(reached))
    ensures err ==> ReplicaFailed(mid, o(reached)) && ReplicaCreated(mid, engine.containers, s, reached, o(reached))
  {
    reached := from;
    mid := engine.containers;
    var i := from;
    while i < to
      invariant from <= i <= to && reached == i && mid == engine.containers
      invariant LaunchState(old(engine.containers), old(engine.calls), engine.containers, engine.calls, s, o, from, i)
    {
      err := LaunchNext(engine, s, o, from, i, old(engine.containers), old(engine.calls));
      if err {
        return;
      }
      i := i + 1;
      reached := i;
      mid := engine.containers;
    }
    err := false;
  }

  /** Replicas `from` to `i - 1` of `s` have been launched over `m0`, with their calls logged after `c0`. */
  ghost predicate LaunchState(m0: map<string, Instance>, c0: seq<Call>, m: map<string, Instance>, calls: seq<Call>,
                              s: Service, o: int -> ReplicaOutcome, from: int, i: int)
  {
    Launched(m0, m, s, o, from, i) && calls == c0 + LaunchCalls(o, from, i)
  }

  /** One turn of `LaunchReplicas`: replica `i` is created and started, or the launch stops there. */
  method LaunchNext(engine: Engine, s: Service, o: int -> ReplicaOutcome, from: int, i: int,
                    ghost m0: map<string, Instance>, ghost c0: seq<Call>)
    returns (err: bool)
    requires from <= i
    requires LaunchState(m0, c0, engine.containers, engine.calls, s, o, from, i)
    modifies engine
    ensures err == !(o(i).createOk && o(i).id !in old(engine.containers) && o(i).startOk)
    ensures err ==> ReplicaCreated(old(engine.containers), engine.containers, s, i, o(i))
                    && engine.calls == c0 + LaunchCalls(o, from, i) + ReplicaCalls(old(engine.containers), o(i))
    ensures !err ==> LaunchState(m0, c0, engine.containers, engine.calls, s, o, from, i + 1)
  {
    ghost var before := engine.containers;
    err := CreateServiceContainer(engine, s, i, o(i));
    if !err {
      LaunchedStep(m0, before, engine.containers, s, o, from, i);
      CallsAssoc(c0, LaunchCalls(o, from, i), ReplicaCalls(before, o(i)));
    }
  }

  /** `CreateService`: replica count 0 or less becomes 1; no rollback on failure. */
  method CreateService(engine: Engine, s: Service, o: int -> ReplicaOutcome)
    returns (err: bool, ghost reached: int, ghost mid: map<string, Instance>)
    modifies engine
    ensures 0 <= reached <= TargetReplicas(s.replicas) && err == (reached < TargetReplicas(s.replicas))
    ensures Launched(old(engine.containers), mid, s.(replicas := TargetReplicas(s.replicas)), o, 0, reached)
    ensures !err ==> engine.containers == mid
                     && engine.calls == old(engine.calls) + LaunchCalls(o, 0, TargetReplicas(s.replicas))
    ensures err ==> engine.calls == old(engine.calls) + LaunchCalls(o, 0, reached) + ReplicaCalls(mid, o(reached))
    ensures err ==> ReplicaFailed(mid, o(reached))
                    && ReplicaCreated(mid, engine.containers, s.(replicas := TargetReplicas(s.replicas)), reached, o(reached))
    ensures FreshOutcomes(old(engine.containers), o, 0, TargetReplicas(s.replicas)) ==>
              !err && Launched(old(engine.containers), engine.containers, s.(replicas := TargetReplicas(s.replicas)),
                               o, 0, TargetReplicas(s.replicas))
  {
    var service := s;
    if service.replicas <= 0 {
      service := service.(replicas := 1);
    }
    err, reached, mid := LaunchReplicas(engine, service, o, 0, service.replicas);
    if FreshOutcomes(old(engine.containers), o, 0, service.replicas) {
      LaunchCompletes(old(engine.containers), mid, service, o, 0, service.replicas, reached);
    }
  }

  // ----- stop and remove -----

  /** What the engine answers when a replica is stopped and then removed. */
  datatype RemovalOutcome = RemovalOutcome(stopOk: bool, removeOk: bool)

  /** The result of stopping and removing a list of containers in order. */
  datatype Removal = Removal(containers: map<string, Instance>, calls: seq<Call>, ok: bool)

  /** Stop, then remove, each of `ids` in order; the first failing call ends the sweep. */
  function StopRemove(m: map<string, Instance>, ids: seq<string>, so: string -> RemovalOutcome): Removal
  {
    if ids == [] then Removal(m, [], true)
    else
      var id := ids[0];
      if !so(id).stopOk || id !in m then Removal(m, [StopCall(id)], false)
      else
        var stopped := m[id := m[id].(running := false)];
        if !so(id).removeOk then Removal(stopped, [StopCall(id), RemoveCall(id)], false)
        else
          var rest := StopRemove(stopped - {id}, ids[1..], so);
          Removal(rest.containers, [StopCall(id), RemoveCall(id)] + rest.calls, rest.ok)
  }

  /** A complete sweep removes exactly the listed containers, which were all
      present and pairwise distinct; a sweep, complete or not, changes no other entry. */
  lemma StopRemoveMeaning(m: map<string, Instance>, ids: seq<string>, so: string -> RemovalOutcome)
    ensures var r := StopRemove(m, ids, so);
      && r.containers.Keys <= m.Keys
      && (forall id :: id in m && id !in ids ==> id in r.containers && r.containers[id] == m[id])
      && (forall id :: id in r.containers ==> r.containers[id].config == m[id].config)
      && (r.ok ==> (forall i :: 0 <= i < |ids| ==> ids[i] in m)
                   && (forall i, j :: 0 <= i < j < |ids| ==> ids[i] != ids[j])
                   && r.containers == m - (set id | id in ids))
  {
    StopRemoveFrame(m, ids, so);
    StopRemoveComplete(m, ids, so);
  }

  /** A sweep only drops listed entries and changes no configuration. */
  lemma {:induction false} StopRemoveFrame(m: map<string, Instance>, ids: seq<string>, so: string -> RemovalOutcome)
    ensures var r := StopRemove(m, ids, so);
      && r.containers.Keys <= m.Keys
      && (forall id :: id in m && id !in ids ==> id in r.containers && r.containers[id] == m[id])
      && (forall id :: id in r.containers ==> r.containers[id].config == m[id].config)
  {
    if ids != [] {
      var id := ids[0];
      if so(id).stopOk && id in m && so(id).removeOk {
        StopRemoveFrame(m[id := m[id].(running := false)] - {id}, ids[1..], so);
      }
    }
  }

  /** A complete sweep found every listed ID present, once, and removed exactly those. */
  lemma {:induction false} StopRemoveComplete(m: map<string, Instance>, ids: seq<string>, so: string -> RemovalOutcome)
    ensures var r := StopRemove(m, ids, so);
      r.ok ==> && (forall i :: 0 <= i < |ids| ==> ids[i] in m)
               && (forall i, j :: 0 <= i < j < |ids| ==> ids[i] != ids[j])
               && r.containers == m - (set id | id in ids)
  {
    if ids != [] {
      var id := ids[0];
      if so(id).stopOk && id in m && so(id).removeOk {
        var stopped := m[id := m[id].(running := false)];
        StopRemoveComplete(stopped - {id}, ids[1..], so);
        if StopRemove(m, ids, so).ok {
          forall i, j | 0 <= i < j < |ids| ensures ids[i] != ids[j] {
            if i == 0 {
              assert ids[j] == ids[1..][j - 1];
            } else {
              assert ids[i] == ids[1..][i - 1] && ids[j] == ids[1..][j - 1];
            }
          }
          forall i | 0 <= i < |ids| ensures ids[i] in m {
            if i > 0 {
              assert ids[i] == ids[1..][i - 1];
            }
          }
          assert (set x | x in ids) == {id} + (set x | x in ids[1..]) by {
            assert ids == [id] + ids[1..];
          }
        }
      }
    }
  }

  /** The stop-then-remove loop shared by `UpdateService` and `DeleteService`. */
  method StopAndRemove(engine: Engine, ids: seq<string>, so: string -> RemovalOutcome) returns (err: bool)
    modifies engine
    ensures var r := StopRemove(old(engine.containers), ids, so);
      err == !r.ok && engine.containers == r.containers && engine.calls == old(engine.calls) + r.calls
  {
    ghost var full := StopRemove(engine.containers, ids, so);
    for i := 0 to |ids|
      invariant var r := StopRemove(engine.containers, ids[i..], so);
        r.containers == full.containers && r.ok == full.ok
        && old(engine.calls) + full.calls == engine.calls + r.calls
    {
      assert ids[i..][1..] == ids[i + 1..];
      var id := ids[i];
      ghost var before := engine.calls;
      err := engine.Stop(id, so(id).stopOk);
      if err {
        return;
      }
      err := engine.Remove(id, so(id).removeOk);
      if err {
        return;
      }
      AppendPair(before, StopCall(id), RemoveCall(id),
                 StopRemove(engine.containers, ids[i + 1..], so).calls);
    }
    err := false;
  }

  lemma AppendPair(c: seq<Call>, a: Call, b: Call, rest: seq<Call>)
    ensures c + [a] + [b] + rest == c + ([a, b] + rest)
  {
    assert c + [a] + [b] == c + [a, b];
  }

  /** The IDs of a listing, in order. */
  function IdsOfListing(listed: seq<Listed>): (ids: seq<string>)
    ensures |ids| == |listed| && forall i :: 0 <= i < |ids| ==> ids[i] == listed[i].id
  {
    seq(|listed|, i requires 0 <= i < |listed| => listed[i].id)
  }

  /** `DeleteService`: stop and remove every container labelled with the
      service's ID; the service record is not touched. */
  method DeleteService(engine: Engine, serviceId: string, listOk: bool, so: string -> RemovalOutcome)
    returns (err: bool, ghost listed: seq<Listed>)
    modifies engine
    ensures !listOk ==> err && engine.containers == old(engine.containers)
                        && engine.calls == old(engine.calls) + [ListCall(ServiceIdLabel, serviceId)]
    ensures listOk ==> Listing(listed, old(engine.containers), ServiceIdLabel, serviceId)
    ensures listOk ==> var r := StopRemove(old(engine.containers), IdsOfListing(listed), so);
      err == !r.ok && engine.containers == r.containers
      && engine.calls == old(engine.calls) + [ListCall(ServiceIdLabel, serviceId)] + r.calls
  {
    var containers := engine.List(ServiceIdLabel, serviceId, listOk);
    listed := [];
    if containers.None? {
      return true, listed;
    }
    var list := containers.value;
    listed := list;
    err := StopAndRemove(engine, IdsOfListing(list), so);
  }

  /** `UpdateService`: remove every labelled container, then create the
      replicas afresh from index 0 with the new definition. */
  method UpdateService(engine: Engine, s: Service, listOk: bool, so: string -> RemovalOutcome, o: int -> ReplicaOutcome)
    returns (err: bool, ghost listed: seq<Listed>, ghost removed: map<string, Instance>,
             ghost reached: int, ghost mid: map<string, Instance>)
    modifies engine
    ensures !listOk ==> err && engine.containers == old(engine.containers)
                        && engine.calls == old(engine.calls) + [ListCall(ServiceIdLabel, s.id)]
    ensures listOk ==> Listing(listed, old(engine.containers), ServiceIdLabel, s.id)
    ensures listOk ==> var r := StopRemove(old(engine.containers), IdsOfListing(listed), so);
      var swept := old(engine.calls) + [ListCall(ServiceIdLabel, s.id)] + r.calls;
      var n := TargetReplicas(s.replicas);
      && removed == r.containers
      && (!r.ok ==> err && engine.containers == r.containers && engine.calls == swept)
      && (r.ok ==> 0 <= reached <= n && err == (reached < n)
                   && Launched(removed, mid, s.(replicas := n), o, 0, reached)
                   && (!err ==> engine.containers == mid && engine.calls == swept + LaunchCalls(o, 0, n))
                   && (FreshOutcomes(removed, o, 0, n) ==> !err)
                   && (err ==> ReplicaFailed(mid, o(reached))
                               && ReplicaCreated(mid, engine.containers, s.(replicas := n), reached, o(reached))
                               && engine.calls == swept + LaunchCalls(o, 0, reached) + ReplicaCalls(mid, o(reached))))
  {
    var containers := engine.List(ServiceIdLabel, s.id, listOk);
    listed, removed, reached, mid := [], engine.containers, 0, engine.containers;
    if containers.None? {
      return true, listed, removed, reached, mid;
    }
    var list := containers.value;
    listed := list;
    err := StopAndRemove(engine, IdsOfListing(list), so);
    removed := engine.containers;
    if err {
      return;
    }
    err, reached, mid := CreateService(engine, s, o);
  }

  // ----- scale -----

  /** A replica's position as its label reads: a missing label reads as "",
      and the parse error is ignored, so an unparsable label counts as 0. */
  function LabelIndex(inst: Instance): int
  {
    var text := if ReplicaIndexLabel in inst.config.labels then inst.config.labels[ReplicaIndexLabel] else "";
    Atoi(text).value
  }

  /** A missing label, or one that is not a decimal number, reads as replica 0. */
  lemma UnparsableLabelIsZero(inst: Instance)
    requires ReplicaIndexLabel !in inst.config.labels || ParseDecimal(inst.config.labels[ReplicaIndexLabel]).None?
    ensures LabelIndex(inst) == 0
  {
  }

  /** The label a replica is created with reads back as its index. */
  lemma ReplicaLabelReadsBack(inst: Instance, s: Service, index: int)
    requires inst.config.labels == ReplicaLabels(s, index) && IsInt64(index)
    ensures LabelIndex(inst) == index
  {
    AtoiItoa(index);
  }

  /** The label values of a listing, in order. */
  function LabelValues(listed: seq<Listed>): (vs: seq<int>)
    ensures |vs| == |listed|
  {
    seq(|listed|, k requires 0 <= k < |listed| => LabelIndex(listed[k].instance))
  }

  /** The position of the first label value equal to `i`. */
  function FirstWithIndex(values: seq<int>, i: int): (r: Option<int>)
    ensures r.Some? ==> 0 <= r.value < |values| && values[r.value] == i
                        && forall k :: 0 <= k < r.value ==> values[k] != i
    ensures r.None? ==> forall k :: 0 <= k < |values| ==> values[k] != i
  {
    if values == [] then None
    else if values[0] == i then Some(0)
    else match FirstWithIndex(values[1..], i)
      case None => None
      case Some(k) => Some(k + 1)
  }

  /** The positions the scale-down loop removes, for label values `hi` down to `lo`:
      for each value, the first container carrying it, if any. Their values
      lie in the range and strictly decrease. */
  function VictimPositions(values: seq<int>, hi: int, lo: int): (ps: seq<int>)
    decreases hi - lo
    ensures forall a :: 0 <= a < |ps| ==>
              && 0 <= ps[a] < |values|
              && lo <= values[ps[a]] <= hi
              && forall k :: 0 <= k < ps[a] ==> values[k] != values[ps[a]]
    ensures forall a, b :: 0 <= a < b < |ps| ==> values[ps[a]] > values[ps[b]]
  {
    if hi < lo then []
    else
      var rest := VictimPositions(values, hi - 1, lo);
      match FirstWithIndex(values, hi)
      case None => rest
      case Some(k) => [k] + rest
  }

  /** Every label value from `hi` down to `lo` that some container carries has
      its first such container among the picks. */
  lemma {:induction false} VictimPositionsComplete(values: seq<int>, hi: int, lo: int, i: int)
    requires lo <= i <= hi && FirstWithIndex(values, i).Some?
    decreases hi - lo
    ensures FirstWithIndex(values, i).value in VictimPositions(values, hi, lo)
  {
    if i < hi {
      VictimPositionsComplete(values, hi - 1, lo, i);
    }
  }

  /** The ID the scale-down loop removes for label value `i`, if any. */
  function Pick(ids: seq<string>, values: seq<int>, i: int): seq<string>
  {
    match FirstWithIndex(values, i)
    case None => []
    case Some(k) => if k < |ids| then [ids[k]] else []
  }

  /** The picks for values `hi` down to `lo`, concatenated. */
  function Span(pick: int -> seq<string>, hi: int, lo: int): seq<string>
    decreases hi - lo
  {
    if hi < lo then [] else pick(hi) + Span(pick, hi - 1, lo)
  }

  /** The picks for `hi` down to `lo` are those above `mid` followed by those from `mid` down. */
  lemma {:induction false} SpanSplit(pick: int -> seq<string>, hi: int, mid: int, lo: int)
    requires lo - 1 <= mid <= hi
    decreases hi - mid
    ensures Span(pick, hi, lo) == Span(pick, hi, mid + 1) + Span(pick, mid, lo)
  {
    if mid < hi {
      SpanSplit(pick, hi - 1, mid, lo);
      assert pick(hi) + (Span(pick, hi - 1, mid + 1) + Span(pick, mid, lo))
          == (pick(hi) + Span(pick, hi - 1, mid + 1)) + Span(pick, mid, lo);
    }
  }

  function PickIn(ids: seq<string>, values: seq<int>): int -> seq<string>
  {
    i => Pick(ids, values, i)
  }

  /** The IDs the scale-down loop removes, in order. */
  function Victims(listed: seq<Listed>, hi: int, lo: int): seq<string>
  {
    Span(PickIn(IdsOfListing(listed), LabelValues(listed)), hi, lo)
  }

  /** The removed IDs are the IDs at `VictimPositions`. */
  lemma {:induction false} SpanAtPositions(ids: seq<string>, values: seq<int>, hi: int, lo: int)
    requires |ids| == |values|
    decreases hi - lo
    ensures var ps := VictimPositions(values, hi, lo); var v := Span(PickIn(ids, values), hi, lo);
      |v| == |ps| && forall a :: 0 <= a < |ps| ==> v[a] == ids[ps[a]]
  {
    if lo <= hi {
      var rest, later := Span(PickIn(ids, values), hi - 1, lo), VictimPositions(values, hi - 1, lo);
      SpanAtPositions(ids, values, hi - 1, lo);
      assert Span(PickIn(ids, values), hi, lo) == Pick(ids, values, hi) + rest;
      match FirstWithIndex(values, hi)
      case None =>
        assert Pick(ids, values, hi) + rest == rest;
      case Some(k) =>
        assert VictimPositions(values, hi, lo) == [k] + later;
        PrependPosition(ids, k, rest, later);
    }
  }

  /** Putting the ID at position `k` in front keeps IDs and positions in step. */
  lemma PrependPosition(ids: seq<string>, k: int, rest: seq<string>, later: seq<int>)
    requires 0 <= k < |ids| && |rest| == |later|
    requires forall a :: 0 <= a < |later| ==> 0 <= later[a] < |ids| && rest[a] == ids[later[a]]
    ensures var v, ps := [ids[k]] + rest, [k] + later;
      |v| == |ps| && forall a :: 0 <= a < |ps| ==> 0 <= ps[a] < |ids| && v[a] == ids[ps[a]]
  {
    var v, ps := [ids[k]] + rest, [k] + later;
    forall a | 0 <= a < |ps| ensures 0 <= ps[a] < |ids| && v[a] == ids[ps[a]] {
      if a > 0 {
        assert v[a] == rest[a - 1] && ps[a] == later[a - 1];
      }
    }
  }

  /** Scaling down removes, for each label value from `hi` down to `lo`, the
      first container carrying it, highest value first; it never removes a
      container whose label reads below `lo`, and removes no container twice. */
  lemma ScaleDownVictims(listed: seq<Listed>, hi: int, lo: int)
    requires forall i, j :: 0 <= i < j < |listed| ==> listed[i].id != listed[j].id
    ensures var v := Victims(listed, hi, lo); var ps := VictimPositions(LabelValues(listed), hi, lo);
      && |v| == |ps|
      && (forall a :: 0 <= a < |v| ==> v[a] == listed[ps[a]].id && lo <= LabelIndex(listed[ps[a]].instance) <= hi)
      && (forall a, b :: 0 <= a < b < |v| ==> LabelIndex(listed[ps[a]].instance) > LabelIndex(listed[ps[b]].instance))
      && (forall k :: 0 <= k < |listed| && LabelIndex(listed[k].instance) < lo ==> listed[k].id !in v)
      && (forall a, b :: 0 <= a < b < |v| ==> v[a] != v[b])
  {
    VictimsAtPositions(listed, hi, lo);
    VictimsAboveLow(listed, hi, lo);
    VictimsDistinct(listed, hi, lo);
  }

  /** The victims are the listed IDs at `VictimPositions`, in strictly decreasing label order. */
  lemma VictimsAtPositions(listed: seq<Listed>, hi: int, lo: int)
    ensures var v := Victims(listed, hi, lo); var ps := VictimPositions(LabelValues(listed), hi, lo);
      && |v| == |ps|
      && (forall a :: 0 <= a < |v| ==> 0 <= ps[a] < |listed| && v[a] == listed[ps[a]].id
                                       && lo <= LabelIndex(listed[ps[a]].instance) <= hi)
      && (forall a, b :: 0 <= a < b < |v| ==> LabelIndex(listed[ps[a]].instance) > LabelIndex(listed[ps[b]].instance))
  {
    var values := LabelValues(listed);
    SpanAtPositions(IdsOfListing(listed), values, hi, lo);
    assert forall k :: 0 <= k < |listed| ==> values[k] == LabelIndex(listed[k].instance);
  }

  /** A container labelled below `lo` is never a victim. */
  lemma VictimsAboveLow(listed: seq<Listed>, hi: int, lo: int)
    requires forall i, j :: 0 <= i < j < |listed| ==> listed[i].id != listed[j].id
    ensures forall k :: 0 <= k < |listed| && LabelIndex(listed[k].instance) < lo ==> listed[k].id !in Victims(listed, hi, lo)
  {
    var v := Victims(listed, hi, lo);
    var ps := VictimPositions(LabelValues(listed), hi, lo);
    VictimsAtPositions(listed, hi, lo);
    forall k | 0 <= k < |listed| && LabelIndex(listed[k].instance) < lo
      ensures listed[k].id !in v
    {
      forall a | 0 <= a < |v| ensures v[a] != listed[k].id {
        assert ps[a] != k;
        if ps[a] < k {
          assert listed[ps[a]].id != listed[k].id;
        } else {
          assert listed[k].id != listed[ps[a]].id;
        }
      }
    }
  }

  /** With distinct listed IDs, no container is a victim twice. */
  lemma VictimsDistinct(listed: seq<Listed>, hi: int, lo: int)
    requires forall i, j :: 0 <= i < j < |listed| ==> listed[i].id != listed[j].id
    ensures var v := Victims(listed, hi, lo); forall a, b :: 0 <= a < b < |v| ==> v[a] != v[b]
  {
    var v := Victims(listed, hi, lo);
    var ps := VictimPositions(LabelValues(listed), hi, lo);
    VictimsAtPositions(listed, hi, lo);
    forall a, b | 0 <= a < b < |v| ensures v[a] != v[b] {
      assert ps[a] != ps[b];
      if ps[a] < ps[b] {
        assert listed[ps[a]].id != listed[ps[b]].id;
      } else {
        assert listed[ps[b]].id != listed[ps[a]].id;
      }
    }
  }

  /** The inner search of the scale-down loop. */
  method FindReplica(listed: seq<Listed>, i: int) returns (found: Option<int>)
    ensures found == FirstWithIndex(LabelValues(listed), i)
  {
    ghost var values := LabelValues(listed);
    for j := 0 to |listed|
      invariant forall k :: 0 <= k < j ==> values[k] != i
    {
      var text := if ReplicaIndexLabel in listed[j].instance.config.labels
                  then listed[j].instance.config.labels[ReplicaIndexLabel] else "";
      var index := Atoi(text).value;
      assert index == values[j];
      if index == i {
        return Some(j);
      }
    }
    return None;
  }

  /** Sweeping `a + b` is sweeping `a`, then, if that completed, sweeping `b`. */
  lemma {:induction false} StopRemoveAppend(m: map<string, Instance>, a: seq<string>, b: seq<string>, so: string -> RemovalOutcome)
    ensures var ra := StopRemove(m, a, so);
      StopRemove(m, a + b, so) ==
        if ra.ok then
          var rb := StopRemove(ra.containers, b, so);
          Removal(rb.containers, ra.calls + rb.calls, rb.ok)
        else ra
  {
    if a != [] {
      var id := a[0];
      assert (a + b)[0] == id && (a + b)[1..] == a[1..] + b;
      if so(id).stopOk && id in m && so(id).removeOk {
        StopRemoveAppend(m[id := m[id].(running := false)] - {id}, a[1..], b, so);
      }
    } else {
      assert a + b == b;
    }
  }

  /** Stop, then remove, one container; the first failing call ends it. */
  method RemoveReplica(engine: Engine, id: string, so: string -> RemovalOutcome) returns (err: bool)
    modifies engine
    ensures var r := StopRemove(old(engine.containers), [id], so);
      err == !r.ok && engine.containers == r.containers && engine.calls == old(engine.calls) + r.calls
  {
    assert [id][1..] == [];
    err := engine.Stop(id, so(id).stopOk);
    if err {
      return;
    }
    err := engine.Remove(id, so(id).removeOk);
  }

  /** One turn of the countdown: stop and remove the first listed container
      labelled `i`, if there is one. */
  method RemoveIndex(engine: Engine, listed: seq<Listed>, i: int, so: string -> RemovalOutcome)
    returns (err: bool)
    modifies engine
    ensures var r := StopRemove(old(engine.containers), PickIn(IdsOfListing(listed), LabelValues(listed))(i), so);
      err == !r.ok && engine.containers == r.containers && engine.calls == old(engine.calls) + r.calls
  {
    var found := FindReplica(listed, i);
    PickFound(listed, i, found);
    if found.Some? {
      err := RemoveReplica(engine, listed[found.value].id, so);
    } else {
      err := false;
      assert engine.calls == old(engine.calls) + [];
    }
  }

  /** The countdown loop of `ScaleService`: for each value from `hi` down to
      `lo`, stop and remove the first listed container carrying it. */
  method RemoveDownTo(engine: Engine, listed: seq<Listed>, hi: int, lo: int, so: string -> RemovalOutcome)
    returns (err: bool)
    requires lo - 1 <= hi
    modifies engine
    ensures var r := StopRemove(old(engine.containers), Victims(listed, hi, lo), so);
      err == !r.ok && engine.containers == r.containers && engine.calls == old(engine.calls) + r.calls
  {
    ghost var m0, c0 := engine.containers, engine.calls;
    SweptNone(m0, c0, listed, hi, so);
    for i := hi + 1 downto lo
      invariant SweptDown(m0, c0, listed, hi, i, so, engine.containers, engine.calls)
    {
      err := RemoveTurn(engine, listed, hi, i, lo, so, m0, c0);
      if err {
        return;
      }
    }
    err := false;
  }

  /** The counter of the countdown loop of `ScaleService` as Go runs it:
      after `k` turns of `i--` from `start`, in 64-bit arithmetic. */
  function CountdownAsWritten(start: int, k: nat): (i: int)
    ensures IsInt64(i)
  {
    if k == 0 then Wrap64(start) else Wrap64(CountdownAsWritten(start, k - 1) - 1)
  }

  /** As long as the counter has not passed the most negative value, it is
      `start - k`. */
  lemma {:induction false} CountdownUnwrapped(start: int, k: nat)
    requires IsInt64(start) && MinInt64 <= start - k
    ensures CountdownAsWritten(start, k) == start - k
  {
    if k == 0 {
      Wrap64InRange(start);
    } else {
      CountdownUnwrapped(start, k - 1);
      Wrap64InRange(start - k);
    }
  }

  /** For a target above the most negative value, Go's guard `i >= lo` holds for
      exactly the turns `hi` down to `lo` and fails on the next, so the Go loop
      visits the values `RemoveDownTo` does. */
  lemma CountdownExits(hi: int, lo: int, k: nat)
    requires IsInt64(hi) && MinInt64 < lo && lo - 1 <= hi && k <= hi - lo + 1
    ensures CountdownAsWritten(hi, k) == hi - k
    ensures CountdownAsWritten(hi, k) >= lo <==> k <= hi - lo
  {
    CountdownUnwrapped(hi, k);
  }

  /** Scaling a service with no labelled container to the most negative
      replica count: the counter starts at -1, reaches the most negative value
      after 2^63 - 1 turns and wraps to the largest on the next, and the guard
      `i >= replicas` holds after every turn, so the Go loop never ends. */
  lemma CountdownNeverEnds()
    ensures CountdownAsWritten(-1, 0x7fff_ffff_ffff_ffff) == MinInt64
    ensures CountdownAsWritten(-1, 0x8000_0000_0000_0000) == MaxInt64
    ensures forall k: nat :: CountdownAsWritten(-1, k) >= MinInt64
  {
    CountdownUnwrapped(-1, 0x7fff_ffff_ffff_ffff);
    assert Wrap64(MinInt64 - 1) == MaxInt64 by {
      assert (MinInt64 - 1 - MinInt64) % 0x1_0000_0000_0000_0000 == 0xffff_ffff_ffff_ffff;
    }
  }

  /** Before the countdown nothing has been swept. */
  lemma SweptNone(m0: map<string, Instance>, c0: seq<Call>, listed: seq<Listed>, hi: int, so: string -> RemovalOutcome)
    ensures SweptDown(m0, c0, listed, hi, hi + 1, so, m0, c0)
  {
    assert c0 + [] == c0;
  }

  /** The countdown from `hi` has swept every index above `i - 1` without a failure. */
  ghost predicate SweptDown(m0: map<string, Instance>, c0: seq<Call>, listed: seq<Listed>, hi: int, i: int,
                            so: string -> RemovalOutcome, m: map<string, Instance>, calls: seq<Call>)
  {
    var d := StopRemove(m0, Victims(listed, hi, i), so);
    d.ok && m == d.containers && calls == c0 + d.calls
  }

  /** One turn of `RemoveDownTo`: a failure ends the whole countdown. */
  method RemoveTurn(engine: Engine, listed: seq<Listed>, hi: int, i: int, lo: int, so: string -> RemovalOutcome,
                    ghost m0: map<string, Instance>, ghost c0: seq<Call>)
    returns (err: bool)
    requires lo <= i <= hi
    requires SweptDown(m0, c0, listed, hi, i + 1, so, engine.containers, engine.calls)
    modifies engine
    ensures !err ==> SweptDown(m0, c0, listed, hi, i, so, engine.containers, engine.calls)
    ensures err ==> var r := StopRemove(m0, Victims(listed, hi, lo), so);
      !r.ok && engine.containers == r.containers && engine.calls == c0 + r.calls
  {
    ghost var pick := PickIn(IdsOfListing(listed), LabelValues(listed));
    ghost var e0, c1 := engine.containers, engine.calls;
    err := RemoveIndex(engine, listed, i, so);
    CountdownStep(m0, c0, pick, hi, i, so, e0, c1, engine.containers, engine.calls);
    if err {
      SpanRest(m0, pick, hi, i, lo, so);
    }
  }

  /** One turn of the countdown extends the sweep above `i` to the sweep down to `i`. */
  lemma CountdownStep(m0: map<string, Instance>, c0: seq<Call>, pick: int -> seq<string>, hi: int, i: int,
                      so: string -> RemovalOutcome,
                      e0: map<string, Instance>, c1: seq<Call>, e1: map<string, Instance>, c2: seq<Call>)
    requires i <= hi
    requires var d := StopRemove(m0, Span(pick, hi, i + 1), so);
      d.ok && e0 == d.containers && c1 == c0 + d.calls
    requires var r := StopRemove(e0, pick(i), so);
      e1 == r.containers && c2 == c1 + r.calls
    ensures var d := StopRemove(m0, Span(pick, hi, i), so);
      d.ok == StopRemove(e0, pick(i), so).ok && e1 == d.containers && c2 == c0 + d.calls
  {
    var d := StopRemove(m0, Span(pick, hi, i + 1), so);
    SpanStep(m0, pick, hi, i, so);
    CallsAssoc(c0, d.calls, StopRemove(e0, pick(i), so).calls);
  }

  /** Appending two stretches of the call log in turn is appending them together. */
  lemma CallsAssoc(a: seq<Call>, b: seq<Call>, c: seq<Call>)
    ensures a + b + c == a + (b + c)
  {
  }

  /** What the search finds is what the sweep picks. */
  lemma PickFound(listed: seq<Listed>, i: int, found: Option<int>)
    requires found == FirstWithIndex(LabelValues(listed), i)
    ensures found.Some? ==> 0 <= found.value < |listed|
    ensures PickIn(IdsOfListing(listed), LabelValues(listed))(i) ==
              if found.Some? then [listed[found.value].id] else []
  {
  }

  /** One step of the countdown: the sweep up to `i` is the sweep above `i`
      followed by the pick for `i`. */
  lemma SpanStep(m0: map<string, Instance>, pick: int -> seq<string>, hi: int, i: int, so: string -> RemovalOutcome)
    requires i <= hi
    ensures Span(pick, hi, i) == Span(pick, hi, i + 1) + pick(i)
    ensures var ra := StopRemove(m0, Span(pick, hi, i + 1), so);
      StopRemove(m0, Span(pick, hi, i), so) ==
        if ra.ok then
          var rb := StopRemove(ra.containers, pick(i), so);
          Removal(rb.containers, ra.calls + rb.calls, rb.ok)
        else ra
  {
    SpanSplit(pick, hi, i, i);
    assert Span(pick, i, i) == pick(i) + Span(pick, i - 1, i);
    StopRemoveAppend(m0, Span(pick, hi, i + 1), pick(i), so);
  }

  /** A failure at `i` ends the whole sweep down to `lo` with the same outcome. */
  lemma SpanRest(m0: map<string, Instance>, pick: int -> seq<string>, hi: int, i: int, lo: int, so: string -> RemovalOutcome)
    requires lo <= i <= hi && !StopRemove(m0, Span(pick, hi, i), so).ok
    ensures StopRemove(m0, Span(pick, hi, lo), so) == StopRemove(m0, Span(pick, hi, i), so)
  {
    SpanSplit(pick, hi, i - 1, lo);
    StopRemoveAppend(m0, Span(pick, hi, i), Span(pick, i - 1, lo), so);
  }

  /** Every container of `m` not labelled with service `serviceId` is in `m'` unchanged. */
  ghost predicate KeepsUnlabelled(m: map<string, Instance>, m': map<string, Instance>, serviceId: string)
  {
    forall id :: id in m && !HasLabel(m[id], ServiceIdLabel, serviceId) ==> id in m' && m'[id] == m[id]
  }

  /** `ScaleService`: the current count is the number of labelled containers.
      Growing creates indices `current` to `target - 1` and does not write the
      service; shrinking removes from the highest label down to `target` and then
      stores the service with the new replica count. */
  method ScaleService(store: Store, engine: Engine, serviceId: string, replicas: int, listOk: bool,
                      o: int -> ReplicaOutcome, so: string -> RemovalOutcome, storeOk: bool)
    returns (err: bool, ghost listed: seq<Listed>, ghost reached: int, ghost mid: map<string, Instance>,
             ghost added: seq<Call>)
    modifies store, engine
    ensures store.containers == old(store.containers)
    ensures engine.calls == old(engine.calls) + added
    ensures ScaleOutcome(old(store.services), store.services, old(engine.containers), engine.containers, added,
                         serviceId, replicas, listOk, o, so, storeOk, err, listed, reached, mid)
    ensures KeepsUnlabelled(old(engine.containers), engine.containers, serviceId)
  {
    listed, reached, mid, added := [], 0, engine.containers, [];
    var found := store.GetService(serviceId);
    if found.None? {
      return true, listed, reached, mid, added;
    }
    var service := found.value;
    var containers := engine.List(ServiceIdLabel, serviceId, listOk);
    added := [ListCall(ServiceIdLabel, serviceId)];
    if containers.None? {
      return true, listed, reached, mid, added;
    }
    listed := containers.value;
    ghost var more;
    err, reached, mid, more := ScaleListed(store, engine, serviceId, service, containers.value, replicas, o, so, storeOk);
    CallsAssoc(old(engine.calls), added, more);
    added := added + more;
    assert added[1..] == more;
  }

  /** What `ScaleService(serviceId, replicas)` does, with `added` the engine
      calls it makes: an unknown service is an error with no call; a failed
      label query is an error after that one call; otherwise the listing is
      the service's labelled containers and the rest is `Scaled`. */
  ghost predicate ScaleOutcome(services: map<string, Service>, services': map<string, Service>,
                               m: map<string, Instance>, m': map<string, Instance>, added: seq<Call>,
                               serviceId: string, replicas: int, listOk: bool,
                               o: int -> ReplicaOutcome, so: string -> RemovalOutcome, storeOk: bool,
                               err: bool, listed: seq<Listed>, reached: int, mid: map<string, Instance>)
  {
    && (serviceId !in services ==> err && services' == services && m' == m && added == [])
    && (serviceId in services && !listOk ==>
          err && services' == services && m' == m && added == [ListCall(ServiceIdLabel, serviceId)])
    && (serviceId in services && listOk ==>
          && Listing(listed, m, ServiceIdLabel, serviceId)
          && 1 <= |added| && added[0] == ListCall(ServiceIdLabel, serviceId)
          && Scaled(services, services', m, m', added[1..], services[serviceId], listed, replicas, o, so, storeOk,
                    err, reached, mid))
  }

  /** What scaling `s` from the `listed` replicas to `replicas` does to the
      services and the containers, with `calls` the engine calls after the
      listing. */
  ghost predicate Scaled(services: map<string, Service>, services': map<string, Service>,
                         m: map<string, Instance>, m': map<string, Instance>, calls: seq<Call>,
                         s: Service, listed: seq<Listed>, replicas: int,
                         o: int -> ReplicaOutcome, so: string -> RemovalOutcome, storeOk: bool,
                         err: bool, reached: int, mid: map<string, Instance>)
  {
    var current := |listed|;
    && (replicas > current ==>
          && services' == services
          && current <= reached <= replicas && err == (reached < replicas)
          && Launched(m, mid, s.(replicas := replicas), o, current, reached)
          && (!err ==> m' == mid && calls == LaunchCalls(o, current, replicas))
          && (err ==> ReplicaFailed(mid, o(reached)) && ReplicaCreated(mid, m', s.(replicas := replicas), reached, o(reached))
                      && calls == LaunchCalls(o, current, reached) + ReplicaCalls(mid, o(reached))))
    && (replicas < current ==>
          var r := StopRemove(m, Victims(listed, current - 1, replicas), so);
          && m' == r.containers
          && calls == r.calls
          && (!r.ok ==> err && services' == services)
          && (r.ok ==> err == !storeOk
                       && services' == if storeOk then services[s.id := s.(replicas := replicas)] else services))
    && (replicas == current ==> !err && services' == services && m' == m && calls == [])
  }

  /** Scaling up when every new replica is created and started under a fresh
      ID launches all of them, succeeds and leaves the stored services alone. */
  lemma ScaleUpCompletes(services: map<string, Service>, services': map<string, Service>,
                         m: map<string, Instance>, m': map<string, Instance>, calls: seq<Call>,
                         s: Service, listed: seq<Listed>, replicas: int,
                         o: int -> ReplicaOutcome, so: string -> RemovalOutcome, storeOk: bool,
                         err: bool, reached: int, mid: map<string, Instance>)
    requires Scaled(services, services', m, m', calls, s, listed, replicas, o, so, storeOk, err, reached, mid)
    requires replicas > |listed| && FreshOutcomes(m, o, |listed|, replicas)
    ensures !err && services' == services && calls == LaunchCalls(o, |listed|, replicas)
    ensures Launched(m, m', s.(replicas := replicas), o, |listed|, replicas)
  {
    LaunchCompletes(m, mid, s.(replicas := replicas), o, |listed|, replicas, reached);
  }

  /** The part of `ScaleService` after the label query answered `listed`. */
  method ScaleListed(store: Store, engine: Engine, serviceId: string, s: Service, listed: seq<Listed>, replicas: int,
                     o: int -> ReplicaOutcome, so: string -> RemovalOutcome, storeOk: bool)
    returns (err: bool, ghost reached: int, ghost mid: map<string, Instance>, ghost added: seq<Call>)
    requires Listing(listed, engine.containers, ServiceIdLabel, serviceId)
    modifies store, engine
    ensures store.containers == old(store.containers)
    ensures engine.calls == old(engine.calls) + added
    ensures Scaled(old(store.services), store.services, old(engine.containers), engine.containers, added,
                   s, listed, replicas, o, so, storeOk, err, reached, mid)
    ensures KeepsUnlabelled(old(engine.containers), engine.containers, serviceId)
  {
    err, reached, mid, added := false, 0, engine.containers, [];
    var current := |listed|;
    if replicas > current {
      err, reached, mid, added := GrowService(engine, s.(replicas := replicas), o, current, replicas);
    } else if replicas < current {
      err, added := ShrinkService(store, engine, serviceId, s, listed, replicas, so, storeOk);
    } else {
      assert engine.calls == old(engine.calls) + [];
    }
  }

  /** The grow branch of `ScaleService`: launch indices `current` to
      `replicas - 1`; only new containers appear. */
  method GrowService(engine: Engine, s: Service, o: int -> ReplicaOutcome, current: int, replicas: int)
    returns (err: bool, ghost reached: int, ghost mid: map<string, Instance>, ghost added: seq<Call>)
    requires current <= replicas
    modifies engine
    ensures engine.calls == old(engine.calls) + added
    ensures current <= reached <= replicas && err == (reached < replicas)
    ensures Launched(old(engine.containers), mid, s, o, current, reached)
    ensures !err ==> engine.containers == mid && added == LaunchCalls(o, current, replicas)
    ensures err ==> ReplicaFailed(mid, o(reached)) && ReplicaCreated(mid, engine.containers, s, reached, o(reached))
                    && added == LaunchCalls(o, current, reached) + ReplicaCalls(mid, o(reached))
    ensures FreshOutcomes(old(engine.containers), o, current, replicas) ==> !err
    ensures forall id :: id in old(engine.containers) ==> id in engine.containers && engine.containers[id] == old(engine.containers)[id]
  {
    err, reached, mid := LaunchReplicas(engine, s, o, current, replicas);
    if FreshOutcomes(old(engine.containers), o, current, replicas) {
      LaunchCompletes(old(engine.containers), mid, s, o, current, replicas, reached);
    }
    added := LaunchCalls(o, current, reached);
    if err {
      CallsAssoc(old(engine.calls), added, ReplicaCalls(mid, o(reached)));
      added := added + ReplicaCalls(mid, o(reached));
    }
  }

  /** Shrinking to `replicas` touches only containers labelled with the service. */
  lemma ShrinkKeepsUnlabelled(listed: seq<Listed>, m: map<string, Instance>, serviceId: string, replicas: int,
                              so: string -> RemovalOutcome)
    requires Listing(listed, m, ServiceIdLabel, serviceId)
    ensures KeepsUnlabelled(m, StopRemove(m, Victims(listed, |listed| - 1, replicas), so).containers, serviceId)
  {
    var victims := Victims(listed, |listed| - 1, replicas);
    assert forall id :: id in m && !HasLabel(m[id], ServiceIdLabel, serviceId) ==> id !in victims by {
      ScaleDownVictims(listed, |listed| - 1, replicas);
    }
    StopRemoveMeaning(m, victims, so);
  }

  /** The shrink branch of `ScaleService`: remove the victims from the
      highest label down to `replicas`; only after a complete sweep is the
      service stored with its new replica count. */
  method ShrinkService(store: Store, engine: Engine, serviceId: string, s: Service, listed: seq<Listed>, replicas: int,
                       so: string -> RemovalOutcome, storeOk: bool)
    returns (err: bool, ghost added: seq<Call>)
    requires replicas < |listed|
    requires Listing(listed, engine.containers, ServiceIdLabel, serviceId)
    modifies store, engine
    ensures var r := StopRemove(old(engine.containers), Victims(listed, |listed| - 1, replicas), so);
      && engine.containers == r.containers
      && engine.calls == old(engine.calls) + added && added == r.calls
      && (!r.ok ==> err && store.services == old(store.services))
      && (r.ok ==> err == !storeOk
                   && store.services == if storeOk then old(store.services)[s.id := s.(replicas := replicas)]
                                        else old(store.services))
    ensures store.containers == old(store.containers)
    ensures KeepsUnlabelled(old(engine.containers), engine.containers, serviceId)
  {
    ShrinkKeepsUnlabelled(listed, engine.containers, serviceId, replicas, so);
    err := RemoveDownTo(engine, listed, |listed| - 1, replicas, so);
    added := StopRemove(old(engine.containers), Victims(listed, |listed| - 1, replicas), so).calls;
    if err {
      return;
    }
    err := store.PutService(s.(replicas := replicas), storeOk);
  }
}
