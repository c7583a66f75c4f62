/** The container engine as the orchestrator sees it: a table of containers
    keyed by the reference the orchestrator uses for them. Every call takes the
    engine's answer as `ok`; a call on a reference the table does not hold fails
    as the engine would ("no such container"), and a create on a reference
    already in use fails as a name conflict. */
module DockerEngine {
  import opened Basics

  datatype PortBinding = PortBinding(hostIp: string, hostPort: string)

  /** What a create call hands to the engine (container and host configuration). */
  datatype Config = Config(
    image: string,
    cmd: seq<string>,
    env: seq<string>,
    exposedPorts: set<string>,
    portBindings: map<string, seq<PortBinding>>,
    labels: map<string, string>,
    restartPolicy: string,
    memory: int,
    healthcheck: bool)

  /** One engine container: its configuration, whether its process runs, the
      exit code of its last run and the health status the engine reports, if any. */
  datatype Instance = Instance(name: string, config: Config, running: bool, exitCode: int, health: Option<string>)

  /** The calls the orchestrator makes, kept in order in `Engine.calls`. */
  datatype Call =
    | CreateCall(id: string)
    | StartCall(id: string)
    | StopCall(id: string)
    | RemoveCall(id: string)
    | RestartCall(id: string)
    | InspectCall(id: string)
    | ListCall(labelKey: string, labelValue: string)

  /** One entry of a container listing: a snapshot taken when the list was made. */
  datatype Listed = Listed(id: string, instance: Instance)

  predicate HasLabel(inst: Instance, key: string, value: string)
  {
    key in inst.config.labels && inst.config.labels[key] == value
  }

  function ListedIds(s: seq<Listed>): set<string>
  {
    set i | 0 <= i < |s| :: s[i].id
  }

  /** `listed` is what a label query on `m` answers: every container carrying
      the label, each once, as it was. */
  ghost predicate Listing(listed: seq<Listed>, m: map<string, Instance>, key: string, value: string)
  {
    && (forall i, j :: 0 <= i < j < |listed| ==> listed[i].id != listed[j].id)
    && (forall i :: 0 <= i < |listed| ==>
          listed[i].id in m && m[listed[i].id] == listed[i].instance && HasLabel(listed[i].instance, key, value))
    && (forall id :: id in m && HasLabel(m[id], key, value) ==> id in ListedIds(listed))
  }

  /** The entries of `m` under `keys` that carry label `key=value`, in the order of `keys`. */
  function Select(keys: seq<string>, m: map<string, Instance>, key: string, value: string): (out: seq<Listed>)
    requires forall i :: 0 <= i < |keys| ==> keys[i] in m
    ensures forall i :: 0 <= i < |out| ==>
              out[i].id in keys && out[i].id in m && m[out[i].id] == out[i].instance && HasLabel(out[i].instance, key, value)
    ensures forall k :: k in keys && HasLabel(m[k], key, value) ==> k in ListedIds(out)
    ensures (forall i, j :: 0 <= i < j < |keys| ==> keys[i] != keys[j]) ==>
              forall i, j :: 0 <= i < j < |out| ==> out[i].id != out[j].id
  {
    if keys == [] then []
    else
      var rest := Select(keys[1..], m, key, value);
      if HasLabel(m[keys[0]], key, value) then
        ListedIdsCons(Listed(keys[0], m[keys[0]]), rest);
        [Listed(keys[0], m[keys[0]])] + rest
      else rest
  }

  lemma ListedIdsCons(x: Listed, rest: seq<Listed>)
    ensures ListedIds([x] + rest) == {x.id} + ListedIds(rest)
  {
    var s := [x] + rest;
    forall k | k in ListedIds(rest) ensures k in ListedIds(s) {
      var i :| 0 <= i < |rest| && rest[i].id == k;
      assert s[i + 1].id == k;
    }
    assert s[0].id == x.id;
  }

  class Engine {
    var containers: map<string, Instance>
    ghost var calls: seq<Call>

    constructor ()
      ensures containers == map[] && calls == []
    {
      containers := map[];
      calls := [];
    }

    /** A new container is created stopped, with exit code 0 and no health report. */
    method Create(id: string, name: string, config: Config, ok: bool) returns (err: bool)
      modifies this
      ensures err == (!ok || id in old(containers))
      ensures containers == if err then old(containers)
                            else old(containers)[id := Instance(name, config, false, 0, None)]
      ensures calls == old(calls) + [CreateCall(id)]
    {
      err := !ok || id in containers;
      if !err {
        containers := containers[id := Instance(name, config, false, 0, None)];
      }
      calls := calls + [CreateCall(id)];
    }

    method Start(id: string, ok: bool) returns (err: bool)
      modifies this
      ensures err == (!ok || id !in old(containers))
      ensures containers == if err then old(containers)
                            else old(containers)[id := old(containers)[id].(running := true)]
      ensures calls == old(calls) + [StartCall(id)]
    {
      err := !ok || id !in containers;
      if !err {
        containers := containers[id := containers[id].(running := true)];
      }
      calls := calls + [StartCall(id)];
    }

    method Stop(id: string, ok: bool) returns (err: bool)
      modifies this
      ensures err == (!ok || id !in old(containers))
      ensures containers == if err then old(containers)
                            else old(containers)[id := old(containers)[id].(running := false)]
      ensures calls == old(calls) + [StopCall(id)]
    {
      err := !ok || id !in containers;
      if !err {
        containers := containers[id := containers[id].(running := false)];
      }
      calls := calls + [StopCall(id)];
    }

    /** Removal is forced: a running container is removed as well. */
    method Remove(id: string, ok: bool) returns (err: bool)
      modifies this
      ensures err == (!ok || id !in old(containers))
      ensures containers == if err then old(containers) else old(containers) - {id}
      ensures calls == old(calls) + [RemoveCall(id)]
    {
      err := !ok || id !in containers;
      if !err {
        containers := containers - {id};
      }
      calls := calls + [RemoveCall(id)];
    }

    method Restart(id: string, ok: bool) returns (err: bool)
      modifies this
      ensures err == (!ok || id !in old(containers))
      ensures containers == if err then old(containers)
                            else old(containers)[id := old(containers)[id].(running := true)]
      ensures calls == old(calls) + [RestartCall(id)]
    {
      err := !ok || id !in containers;
      if !err {
        containers := containers[id := containers[id].(running := true)];
      }
      calls := calls + [RestartCall(id)];
    }

    method Inspect(id: string, ok: bool) returns (r: Option<Instance>)
      modifies this
      ensures r == if ok && id in containers then Some(containers[id]) else None
      ensures containers == old(containers)
      ensures calls == old(calls) + [InspectCall(id)]
    {
      r := if ok && id in containers then Some(containers[id]) else None;
      calls := calls + [InspectCall(id)];
    }

    /** Every container carrying label `key=value`, each once, in an unspecified order. */
    method List(key: string, value: string, ok: bool) returns (r: Option<seq<Listed>>)
      modifies this
      ensures r.Some? == ok
      ensures ok ==> Listing(r.value, containers, key, value)
      ensures containers == old(containers)
      ensures calls == old(calls) + [ListCall(key, value)]
    {
      calls := calls + [ListCall(key, value)];
      if !ok {
        return None;
      }
      var keys := EnumerateKeys(containers);
      r := Some(Select(keys, containers, key, value));
    }
  }
}
