/** The read side of the label-indexed service manager and the reconcile pass
    built on it: a service's status is read off a label query, and reconcile
    scales each service whose container count differs from its replica count,
    then restarts its containers the engine reports unhealthy. */
module Reconcile {
  import opened Basics
  import opened Models
  import opened DockerEngine
  import opened Persistence
  import opened ServiceManager
  import opened Runtime

  /** One container of a service as the status reports it. */
  datatype ContainerStatus = ContainerStatus(id: string, name: string, status: string, healthState: string)

  datatype ServiceStatus = ServiceStatus(
    serviceId: string,
    desiredReplicas: int,
    currentReplicas: int,
    healthyReplicas: int,
    containers: seq<ContainerStatus>)

  /** The health the engine reports, or "unknown" when it reports none. */
  function HealthStateOf(inst: Instance): string
  {
    match inst.health
    case None => HealthUnknown
    case Some(h) => h
  }

  /** The engine's state word for a container. */
  function EngineState(inst: Instance): string
  {
    if inst.running then "running" else "exited"
  }

  function StatusOf(l: Listed): ContainerStatus
  {
    ContainerStatus(l.id, l.instance.name, EngineState(l.instance), HealthStateOf(l.instance))
  }

  /** The per-container statuses of a listing, in listing order. */
  function Statuses(listed: seq<Listed>): (cs: seq<ContainerStatus>)
    ensures |cs| == |listed| && forall k :: 0 <= k < |cs| ==> cs[k] == StatusOf(listed[k])
  {
    seq(|listed|, k requires 0 <= k < |listed| => StatusOf(listed[k]))
  }

  /** The number of statuses whose health is "healthy". */
  function CountHealthy(cs: seq<ContainerStatus>): (n: nat)
    ensures n <= |cs|
  {
    if cs == [] then 0
    else CountHealthy(cs[..|cs| - 1]) + (if cs[|cs| - 1].healthState == HealthHealthy then 1 else 0)
  }

  function HealthStates(cs: seq<ContainerStatus>): (hs: seq<string>)
    ensures |hs| == |cs| && forall k :: 0 <= k < |cs| ==> hs[k] == cs[k].healthState
  {
    seq(|cs|, k requires 0 <= k < |cs| => cs[k].healthState)
  }

  /** The healthy count is the number of occurrences of "healthy" among the reported health states. */
  lemma {:induction false} CountHealthyExact(cs: seq<ContainerStatus>)
    ensures CountHealthy(cs) == multiset(HealthStates(cs))[HealthHealthy]
  {
    if cs != [] {
      var init := cs[..|cs| - 1];
      CountHealthyExact(init);
      assert HealthStates(cs) == HealthStates(init) + [cs[|cs| - 1].healthState];
    }
  }

  /** The current replica count of a status is the number of containers the
      engine holds with the service's label. */
  lemma CurrentIsLabelled(listed: seq<Listed>, m: map<string, Instance>, serviceId: string)
    requires Listing(listed, m, ServiceIdLabel, serviceId)
    ensures |listed| == |set id | id in m && HasLabel(m[id], ServiceIdLabel, serviceId)|
  {
    var ids := IdsOfListing(listed);
    DistinctCard(ids);
    var labelled := set id | id in m && HasLabel(m[id], ServiceIdLabel, serviceId);
    forall id | id in labelled ensures id in ids {
      assert id in ListedIds(listed);
      var i :| 0 <= i < |listed| && listed[i].id == id;
      assert ids[i] == id;
    }
    assert labelled == set k | k in ids;
  }

  /** `GetServiceStatus`: the label query comes first, then the stored record;
      either failing fails the whole read. */
  method GetServiceStatus(store: Store, engine: Engine, serviceId: string, listOk: bool)
    returns (r: Option<ServiceStatus>, ghost listed: seq<Listed>)
    modifies engine
    ensures engine.containers == old(engine.containers)
    ensures engine.calls == old(engine.calls) + [ListCall(ServiceIdLabel, serviceId)]
    ensures r.Some? <==> listOk && serviceId in store.services
    ensures listOk ==> Listing(listed, engine.containers, ServiceIdLabel, serviceId)
    ensures r.Some? ==>
              var cs := Statuses(listed);
              r.value == ServiceStatus(serviceId, store.services[serviceId].replicas, |listed|, CountHealthy(cs), cs)
  {
    listed := [];
    var containers := engine.List(ServiceIdLabel, serviceId, listOk);
    if containers.None? {
      return None, listed;
    }
    var list := containers.value;
    listed := list;
    var service := store.GetService(serviceId);
    if service.None? {
      return None, listed;
    }
    var statuses, healthy := BuildStatuses(list);
    r := Some(ServiceStatus(serviceId, service.value.replicas, |list|, healthy, statuses));
  }

  /** The status loop of `GetServiceStatus`: one status per listed container,
      counting the healthy ones on the way. */
  method BuildStatuses(list: seq<Listed>) returns (statuses: seq<ContainerStatus>, healthy: nat)
    ensures statuses == Statuses(list)
    ensures healthy == CountHealthy(statuses)
  {
    healthy := 0;
    statuses := [];
    for j := 0 to |list|
      invariant |statuses| == j && forall k :: 0 <= k < j ==> statuses[k] == StatusOf(list[k])
      invariant healthy == CountHealthy(statuses)
    {
      var healthState := HealthUnknown;
      if list[j].instance.health.Some? {
        healthState := list[j].instance.health.value;
      }
      if healthState == HealthHealthy {
        healthy := healthy + 1;
      }
      var st := ContainerStatus(list[j].id, list[j].instance.name, EngineState(list[j].instance), healthState);
      assert (statuses + [st])[..j] == statuses;
      statuses := statuses + [st];
    }
  }

  // ----- reconcile -----

  /** The IDs of the statuses whose health is "unhealthy", in status order. */
  function UnhealthyIds(cs: seq<ContainerStatus>): seq<string>
  {
    if cs == [] then []
    else UnhealthyIds(cs[..|cs| - 1]) + (if cs[|cs| - 1].healthState == HealthUnhealthy then [cs[|cs| - 1].id] else [])
  }

  /** An ID is restarted exactly when some status with that ID reports "unhealthy". */
  lemma {:induction false} UnhealthyIdsMeaning(cs: seq<ContainerStatus>, id: string)
    ensures id in UnhealthyIds(cs) <==> exists k :: 0 <= k < |cs| && cs[k].id == id && cs[k].healthState == HealthUnhealthy
  {
    if cs != [] {
      var init, last := cs[..|cs| - 1], cs[|cs| - 1];
      UnhealthyIdsMeaning(init, id);
      var tail := if last.healthState == HealthUnhealthy then [last.id] else [];
      assert UnhealthyIds(cs) == UnhealthyIds(init) + tail;
      if id in UnhealthyIds(cs) {
        if id in UnhealthyIds(init) {
          var k :| 0 <= k < |init| && init[k].id == id && init[k].healthState == HealthUnhealthy;
          assert cs[k] == init[k];
        } else {
          assert cs[|cs| - 1].id == id && cs[|cs| - 1].healthState == HealthUnhealthy;
        }
      } else {
        forall k | 0 <= k < |cs| ensures !(cs[k].id == id && cs[k].healthState == HealthUnhealthy) {
          if k < |init| {
            assert cs[k] == init[k];
          }
        }
      }
    }
  }

  /** The engine after restarting `ids` in order; a restart the engine refuses changes nothing. */
  function RestartAll(m: map<string, Instance>, ids: seq<string>, restartOk: string -> bool): map<string, Instance>
  {
    if ids == [] then m
    else
      var before := RestartAll(m, ids[..|ids| - 1], restartOk);
      var id := ids[|ids| - 1];
      if restartOk(id) && id in before then before[id := before[id].(running := true)] else before
  }

  function RestartCalls(ids: seq<string>): (calls: seq<Call>)
    ensures |calls| == |ids| && forall k :: 0 <= k < |ids| ==> calls[k] == RestartCall(ids[k])
  {
    seq(|ids|, k requires 0 <= k < |ids| => RestartCall(ids[k]))
  }

  /** Restarts add no container and remove none; a container outside `ids`
      is untouched, and one in `ids` changes at most in its running flag, which
      is set exactly when one of its restarts succeeds. */
  lemma {:induction false} RestartAllMeaning(m: map<string, Instance>, ids: seq<string>, restartOk: string -> bool)
    ensures var r := RestartAll(m, ids, restartOk);
      && r.Keys == m.Keys
      && (forall id :: id in m && id !in ids ==> r[id] == m[id])
      && (forall id :: id in m ==> r[id] == m[id].(running := r[id].running))
      && (forall id :: id in m && id in ids && restartOk(id) ==> r[id].running)
  {
    if ids != [] {
      var init := ids[..|ids| - 1];
      RestartAllMeaning(m, init, restartOk);
      forall id | id in m && id in init && restartOk(id)
        ensures RestartAll(m, ids, restartOk)[id].running
      {
      }
      forall id | id in ids ensures id in init || id == ids[|ids| - 1] {
        var k :| 0 <= k < |ids| && ids[k] == id;
        if k < |ids| - 1 {
          assert init[k] == id;
        }
      }
    }
  }

  /** The restart loop of reconcile: every "unhealthy" container, in status
      order; a failed restart only moves on to the next. */
  method RestartUnhealthy(engine: Engine, cs: seq<ContainerStatus>, restartOk: string -> bool)
    modifies engine
    ensures engine.containers == RestartAll(old(engine.containers), UnhealthyIds(cs), restartOk)
    ensures engine.calls == old(engine.calls) + RestartCalls(UnhealthyIds(cs))
  {
    for j := 0 to |cs|
      invariant engine.containers == RestartAll(old(engine.containers), UnhealthyIds(cs[..j]), restartOk)
      invariant engine.calls == old(engine.calls) + RestartCalls(UnhealthyIds(cs[..j]))
    {
      ghost var before := UnhealthyIds(cs[..j]);
      UnhealthyIdsStep(cs, j);
      if cs[j].healthState == HealthUnhealthy {
        RestartOneMore(old(engine.containers), before, cs[j].id, restartOk);
        var _ := engine.Restart(cs[j].id, restartOk(cs[j].id));
      } else {
        assert before + [] == before;
      }
    }
    assert cs[..|cs|] == cs;
  }

  /** The unhealthy IDs of one more status are those before it, followed by its
      own ID when it reports "unhealthy". */
  lemma UnhealthyIdsStep(cs: seq<ContainerStatus>, j: int)
    requires 0 <= j < |cs|
    ensures UnhealthyIds(cs[..j + 1]) ==
              UnhealthyIds(cs[..j]) + (if cs[j].healthState == HealthUnhealthy then [cs[j].id] else [])
  {
    assert cs[..j + 1][..j] == cs[..j];
  }

  /** Restarting one more ID extends the restart calls by one and restarts
      that container on top of the earlier restarts. */
  lemma RestartOneMore(m: map<string, Instance>, ids: seq<string>, id: string, restartOk: string -> bool)
    ensures RestartCalls(ids + [id]) == RestartCalls(ids) + [RestartCall(id)]
    ensures var before := RestartAll(m, ids, restartOk);
      RestartAll(m, ids + [id], restartOk) ==
        if restartOk(id) && id in before then before[id := before[id].(running := true)] else before
  {
    var all := ids + [id];
    assert all[..|all| - 1] == ids && all[|all| - 1] == id;
  }

  /** What the engine and the store answer during reconcile of one service. */
  datatype ServiceOutcomes = ServiceOutcomes(
    statusListOk: bool,
    scaleListOk: bool,
    launch: int -> ReplicaOutcome,
    removal: string -> RemovalOutcome,
    scaleStoreOk: bool,
    restartOk: string -> bool)

  /** The store's services, the engine's containers and the engine call log at one point of a pass. */
  datatype Snapshot = Snapshot(services: map<string, Service>, containers: map<string, Instance>, calls: seq<Call>)

  /** What one service's reconcile went through: the status read's label
      listing, then the scale's error, the engine once it is done, the calls it
      made, and its own listing and launch progress. */
  datatype ReconcileTrace = ReconcileTrace(
    listed: seq<Listed>,
    scaleErr: bool,
    afterScale: map<string, Instance>,
    scaleCalls: seq<Call>,
    scaleListed: seq<Listed>,
    reached: int,
    mid: map<string, Instance>)

  /** Reconcile of service `s` from `before` to `after`. When the status read
      (one label query) fails or finds no stored record, nothing else happens.
      Otherwise the service is scaled to `s.replicas` exactly when its labelled
      count differs from it, and unless that scale fails every container the
      status reports unhealthy is restarted, in listing order. */
  ghost predicate ReconciledOne(before: Snapshot, after: Snapshot, s: Service, out: ServiceOutcomes, t: ReconcileTrace)
  {
    var statusCall := [ListCall(ServiceIdLabel, s.id)];
    if !(out.statusListOk && s.id in before.services) then
      after == before.(calls := before.calls + statusCall)
    else
      var unhealthy := UnhealthyIds(Statuses(t.listed));
      && Listing(t.listed, before.containers, ServiceIdLabel, s.id)
      && (if |t.listed| == s.replicas then
            !t.scaleErr && t.afterScale == before.containers && t.scaleCalls == [] && after.services == before.services
          else
            ScaleOutcome(before.services, after.services, before.containers, t.afterScale, t.scaleCalls,
                         s.id, s.replicas, out.scaleListOk, out.launch, out.removal, out.scaleStoreOk,
                         t.scaleErr, t.scaleListed, t.reached, t.mid))
      && after.calls == before.calls + statusCall + t.scaleCalls + (if t.scaleErr then [] else RestartCalls(unhealthy))
      && after.containers == (if t.scaleErr then t.afterScale else RestartAll(t.afterScale, unhealthy, out.restartOk))
  }

  /** Reconcile scales a service exactly when the number of engine containers
      carrying its label differs from its replica count; without a scale, its
      stored record is left as it was. */
  lemma ReconcileScalesOnMismatch(before: Snapshot, after: Snapshot, s: Service, out: ServiceOutcomes, t: ReconcileTrace)
    requires ReconciledOne(before, after, s, out, t)
    requires out.statusListOk && s.id in before.services
    ensures var labelled := set id | id in before.containers && HasLabel(before.containers[id], ServiceIdLabel, s.id);
      && (t.scaleCalls == [] <==> |labelled| == s.replicas)
      && (|labelled| == s.replicas ==> after.services == before.services && !t.scaleErr)
  {
    CurrentIsLabelled(t.listed, before.containers, s.id);
  }

  /** After a scale that did not fail, a container of the service that the
      status read reported "unhealthy" is running once its restart succeeds,
      and a container it did not report so is left exactly as the scale left it. */
  lemma ReconcileRestartsUnhealthy(before: Snapshot, after: Snapshot, s: Service, out: ServiceOutcomes,
                                   t: ReconcileTrace, id: string)
    requires ReconciledOne(before, after, s, out, t)
    requires out.statusListOk && s.id in before.services && !t.scaleErr
    ensures after.containers.Keys == t.afterScale.Keys
    ensures id in t.afterScale && ReportedUnhealthy(t.listed, id) && out.restartOk(id) ==> after.containers[id].running
    ensures id in t.afterScale && !ReportedUnhealthy(t.listed, id) ==> after.containers[id] == t.afterScale[id]
  {
    assert after.containers == RestartAll(t.afterScale, UnhealthyIds(Statuses(t.listed)), out.restartOk);
    RestartListing(t.afterScale, t.listed, out.restartOk, id);
  }

  /** Some listed container with this ID reports "unhealthy". */
  ghost predicate ReportedUnhealthy(listed: seq<Listed>, id: string)
  {
    exists k :: 0 <= k < |listed| && listed[k].id == id && HealthStateOf(listed[k].instance) == HealthUnhealthy
  }

  lemma RestartListing(m: map<string, Instance>, listed: seq<Listed>, restartOk: string -> bool, id: string)
    ensures var r := RestartAll(m, UnhealthyIds(Statuses(listed)), restartOk);
      && r.Keys == m.Keys
      && (id in m && ReportedUnhealthy(listed, id) && restartOk(id) ==> r[id].running)
      && (id in m && !ReportedUnhealthy(listed, id) ==> r[id] == m[id])
  {
    var cs := Statuses(listed);
    UnhealthyIdsMeaning(cs, id);
    RestartAllMeaning(m, UnhealthyIds(cs), restartOk);
    if ReportedUnhealthy(listed, id) {
      var k :| 0 <= k < |listed| && listed[k].id == id && HealthStateOf(listed[k].instance) == HealthUnhealthy;
      assert cs[k].id == id && cs[k].healthState == HealthUnhealthy;
    }
  }

  /** Reconcile of one listed service `s`: read its status; if that fails, go on
      to the next service. Scale exactly when the current count differs from
      `s.replicas`, and skip the restarts when the scale fails. Otherwise restart
      every container the status reports unhealthy. */
  method ReconcileService(store: Store, engine: Engine, s: Service, out: ServiceOutcomes)
    returns (ghost t: ReconcileTrace)
    modifies store, engine
    ensures store.containers == old(store.containers)
    ensures ReconciledOne(Snapshot(old(store.services), old(engine.containers), old(engine.calls)),
                          Snapshot(store.services, engine.containers, engine.calls), s, out, t)
    ensures KeepsUnlabelled(old(engine.containers), engine.containers, s.id)
    ensures s.id in old(store.services) && old(store.services)[s.id] == s ==> store.services == old(store.services)
  {
    t := ReconcileTrace([], false, engine.containers, [], [], 0, engine.containers);
    var found, listed := GetServiceStatus(store, engine, s.id, out.statusListOk);
    if found.None? {
      return;
    }
    UnhealthyOnlyLabelled(listed, engine.containers, s.id);
    ghost var scaleErr, afterScale, scaleCalls, scaleListed, reached, mid;
    scaleErr, afterScale, scaleCalls, scaleListed, reached, mid := ScaleAndRestart(store, engine, s, found.value, out);
    t := ReconcileTrace(listed, scaleErr, afterScale, scaleCalls, scaleListed, reached, mid);
  }

  /** The part of reconcile after the status read: scale when the current
      count differs from `s.replicas`, then, unless the scale failed, restart
      the containers the status reports unhealthy, all of which carry the
      service's label. */
  method ScaleAndRestart(store: Store, engine: Engine, s: Service, st: ServiceStatus, out: ServiceOutcomes)
    returns (ghost scaleErr: bool, ghost afterScale: map<string, Instance>, ghost scaleCalls: seq<Call>,
             ghost scaleListed: seq<Listed>, ghost reached: int, ghost mid: map<string, Instance>)
    requires forall id :: id in engine.containers && !HasLabel(engine.containers[id], ServiceIdLabel, s.id) ==>
               id !in UnhealthyIds(st.containers)
    modifies store, engine
    ensures store.containers == old(store.containers)
    ensures st.currentReplicas == s.replicas ==>
              !scaleErr && afterScale == old(engine.containers) && scaleCalls == [] && store.services == old(store.services)
    ensures st.currentReplicas != s.replicas ==>
              ScaleOutcome(old(store.services), store.services, old(engine.containers), afterScale, scaleCalls,
                           s.id, s.replicas, out.scaleListOk, out.launch, out.removal, out.scaleStoreOk,
                           scaleErr, scaleListed, reached, mid)
    ensures engine.calls == old(engine.calls) + scaleCalls
                            + (if scaleErr then [] else RestartCalls(UnhealthyIds(st.containers)))
    ensures engine.containers == (if scaleErr then afterScale
                                  else RestartAll(afterScale, UnhealthyIds(st.containers), out.restartOk))
    ensures KeepsUnlabelled(old(engine.containers), engine.containers, s.id)
    ensures s.id in old(store.services) && old(store.services)[s.id] == s ==> store.services == old(store.services)
  {
    scaleErr, afterScale, scaleCalls, scaleListed, reached, mid := false, engine.containers, [], [], 0, engine.containers;
    ghost var m0 := engine.containers;
    if st.currentReplicas != s.replicas {
      var err;
      err, scaleCalls, scaleListed, reached, mid := ScaleTo(store, engine, s, out);
      scaleErr, afterScale := err, engine.containers;
      if err {
        return;
      }
    }
    RestartKeepsUnlabelled(m0, afterScale, UnhealthyIds(st.containers), out.restartOk, s.id);
    RestartUnhealthy(engine, st.containers, out.restartOk);
  }

  lemma RestartKeepsUnlabelled(m0: map<string, Instance>, m: map<string, Instance>, ids: seq<string>,
                               restartOk: string -> bool, serviceId: string)
    requires KeepsUnlabelled(m0, m, serviceId)
    requires forall id :: id in m0 && !HasLabel(m0[id], ServiceIdLabel, serviceId) ==> id !in ids
    ensures KeepsUnlabelled(m0, RestartAll(m, ids, restartOk), serviceId)
  {
    RestartAllMeaning(m, ids, restartOk);
  }

  /** The scale call of reconcile: `ScaleService(s.id, s.replicas)`. It touches
      only the service's own containers and the service's own record, and
      rewrites that record unchanged when asked for the replica count it
      already holds. */
  method ScaleTo(store: Store, engine: Engine, s: Service, out: ServiceOutcomes)
    returns (err: bool, ghost scaleCalls: seq<Call>, ghost listed: seq<Listed>, ghost reached: int,
             ghost mid: map<string, Instance>)
    modifies store, engine
    ensures store.containers == old(store.containers)
    ensures engine.calls == old(engine.calls) + scaleCalls
    ensures ScaleOutcome(old(store.services), store.services, old(engine.containers), engine.containers, scaleCalls,
                         s.id, s.replicas, out.scaleListOk, out.launch, out.removal, out.scaleStoreOk,
                         err, listed, reached, mid)
    ensures KeepsUnlabelled(old(engine.containers), engine.containers, s.id)
    ensures s.id in old(store.services) && old(store.services)[s.id] == s ==> store.services == old(store.services)
  {
    err, listed, reached, mid, scaleCalls := ScaleService(store, engine, s.id, s.replicas, out.scaleListOk,
                                                          out.launch, out.removal, out.scaleStoreOk);
  }

  /** The containers a status reports unhealthy all carry the service's label. */
  lemma UnhealthyOnlyLabelled(listed: seq<Listed>, m: map<string, Instance>, serviceId: string)
    requires Listing(listed, m, ServiceIdLabel, serviceId)
    ensures forall id :: id in m && !HasLabel(m[id], ServiceIdLabel, serviceId) ==> id !in UnhealthyIds(Statuses(listed))
  {
    forall id | id in m && !HasLabel(m[id], ServiceIdLabel, serviceId)
      ensures id !in UnhealthyIds(Statuses(listed))
    {
      UnhealthyIdsMeaning(Statuses(listed), id);
    }
  }

  /** Every stored service is keyed by its own ID. */
  ghost predicate KeyedById(services: map<string, Service>)
  {
    forall k :: k in services ==> services[k].id == k
  }

  /** No container without a service label is touched. */
  ghost predicate KeepsUnmanaged(m: map<string, Instance>, m': map<string, Instance>)
  {
    forall id :: id in m && ServiceIdLabel !in m[id].config.labels ==> id in m' && m'[id] == m[id]
  }

  /** Services `keys[0]` to `keys[n - 1]` of `services` were reconciled in that
      order, each on its own outcomes, passing through `states`. */
  ghost predicate ReconciledInOrder(services: map<string, Service>, keys: seq<string>, states: seq<Snapshot>,
                                    traces: seq<ReconcileTrace>, outs: string -> ServiceOutcomes, n: int)
  {
    && Enumerates(keys, services)
    && 0 <= n <= |keys| && |states| == n + 1 && |traces| == n
    && forall k :: 0 <= k < n ==>
         ReconciledOne(states[k], states[k + 1], services[keys[k]], outs(services[keys[k]].id), traces[k])
  }

  /** One more service's reconcile extends the sequence. */
  lemma ReconciledExtend(services: map<string, Service>, keys: seq<string>, states: seq<Snapshot>,
                         traces: seq<ReconcileTrace>, outs: string -> ServiceOutcomes, n: int,
                         next: Snapshot, t: ReconcileTrace)
    requires ReconciledInOrder(services, keys, states, traces, outs, n) && n < |keys|
    requires ReconciledOne(states[n], next, services[keys[n]], outs(services[keys[n]].id), t)
    ensures ReconciledInOrder(services, keys, states + [next], traces + [t], outs, n + 1)
  {
    var states', traces' := states + [next], traces + [t];
    forall k | 0 <= k < n + 1
      ensures ReconciledOne(states'[k], states'[k + 1], services[keys[k]], outs(services[keys[k]].id), traces'[k])
    {
      if k < n {
        assert states'[k] == states[k] && states'[k + 1] == states[k + 1] && traces'[k] == traces[k];
      } else {
        assert states'[k] == states[n] && states'[k + 1] == next && traces'[k] == t;
      }
    }
  }

  /** `ReconcileServices`: every stored service in turn, each on its own
      outcomes; only a failure to list the services is an error. The pass is
      the services' reconciles in listing order, and in particular containers
      without a service label are never touched, the stored containers never
      change, and when every service is keyed by its own ID the stored services
      do not change either (a scale-down writes back the replica count it was
      asked for, which is the stored one). */
  method ReconcileServices(store: Store, engine: Engine, listOk: bool, outs: string -> ServiceOutcomes)
    returns (err: bool, ghost keys: seq<string>, ghost states: seq<Snapshot>, ghost traces: seq<ReconcileTrace>)
    modifies store, engine
    ensures err == !listOk
    ensures !listOk ==> engine.containers == old(engine.containers) && engine.calls == old(engine.calls)
                        && store.services == old(store.services)
    ensures listOk ==>
              && ReconciledInOrder(old(store.services), keys, states, traces, outs, |keys|)
              && states[0] == Snapshot(old(store.services), old(engine.containers), old(engine.calls))
              && states[|keys|] == Snapshot(store.services, engine.containers, engine.calls)
    ensures store.containers == old(store.containers)
    ensures KeepsUnmanaged(old(engine.containers), engine.containers)
    ensures KeyedById(old(store.services)) ==> store.services == old(store.services)
  {
    var services;
    services, keys := store.ListServices(listOk);
    states, traces := [Snapshot(store.services, engine.containers, engine.calls)], [];
    if services.None? {
      return true, keys, states, traces;
    }
    var list := services.value;
    ghost var services0 := store.services;
    for i := 0 to |list|
      invariant ReconciledInOrder(services0, keys, states, traces, outs, i)
      invariant states[0] == Snapshot(old(store.services), old(engine.containers), old(engine.calls))
      invariant states[i] == Snapshot(store.services, engine.containers, engine.calls)
      invariant store.containers == old(store.containers)
      invariant KeepsUnmanaged(old(engine.containers), engine.containers)
      invariant KeyedById(old(store.services)) ==> store.services == old(store.services)
    {
      var s := list[i];
      ghost var t := ReconcileService(store, engine, s, outs(s.id));
      ghost var next := Snapshot(store.services, engine.containers, engine.calls);
      ReconciledExtend(services0, keys, states, traces, outs, i, next, t);
      states, traces := states + [next], traces + [t];
    }
    return false, keys, states, traces;
  }

  /** A container created through the runtime adapter (the container
      endpoints and the owned-list service endpoints) carries only the
      container-ID label, so no service label query ever lists it. */
  lemma AdapterContainersUnlabelled(inst: Instance, spec: Container, serviceId: string)
    requires CreatedFrom(inst, spec)
    ensures ServiceIdLabel !in inst.config.labels && !HasLabel(inst, ServiceIdLabel, serviceId)
  {
    assert inst.config.labels == map[ContainerIdLabel := spec.id];
  }

  /** Hence reconcile leaves such a container exactly as it found it. */
  lemma ReconcileSparesAdapterContainers(m: map<string, Instance>, m': map<string, Instance>, id: string, spec: Container)
    requires KeepsUnmanaged(m, m') && id in m && CreatedFrom(m[id], spec)
    ensures id in m' && m'[id] == m[id]
  {
    AdapterContainersUnlabelled(m[id], spec, "");
  }
}
