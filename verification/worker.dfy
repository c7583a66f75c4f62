/** The periodic health worker (internal/health/worker.go): one pass over the
    stored containers, restarting stopped ones and probing running ones. Each
    container's pass is specified by the pure function `Step` over the world
    the worker sees: the store's records, the engine's containers and the
    calls made to the engine. */
module HealthWorker {
  import opened Basics
  import opened Models
  import opened Checker
  import opened DockerEngine
  import opened Persistence
  import opened Runtime

  /** What the outside world answers during one container's pass: the status
      query, the probe, the stop and start calls, the two possible store writes,
      and the clock at the probe and at the restart. */
  datatype Outcomes = Outcomes(
    inspectOk: bool,
    probe: ProbeIo,
    stopOk: bool,
    startOk: bool,
    restartWriteOk: bool,
    healthWriteOk: bool,
    checkedAt: Time,
    restartedAt: Time)

  /** Everything a pass can change. */
  datatype World = World(stored: map<string, Container>, instances: map<string, Instance>, calls: seq<Call>)

  /** Only these two policy spellings lead to a restart. */
  predicate RestartAllowed(policy: string) { policy == "Always" || policy == "OnFailure" }

  /** With a positive limit, a container restarted that many times is left alone;
      a limit of zero or less means no limit. */
  predicate CapReached(maxRestarts: int, restartCount: int) { maxRestarts > 0 && restartCount >= maxRestarts }

  /** The record written after a successful restart. */
  function Restarted(c: Container, now: Time): (r: Container)
    ensures r.state == Running && r.restartCount == c.restartCount + 1 && r.startedAt == Some(now)
    ensures r.(state := c.state, restartCount := c.restartCount, startedAt := c.startedAt) == c
  {
    c.(state := Running, restartCount := c.restartCount + 1, startedAt := Some(now))
  }

  /** The record after a probe with result `res` at time `now`: only health data changes. */
  function AfterProbe(c: Container, res: CheckResult, now: Time): (r: Container)
    ensures r.(health := c.health) == c
    ensures r.health.lastChecked == now
    ensures res.err.Some? ==>
              && r.health.status == HealthUnhealthy && r.health.lastFailure == now
              && r.health.failureCount == c.health.failureCount + 1
              && r.health.consecutiveFail == c.health.consecutiveFail + 1
              && r.health.lastSuccess == c.health.lastSuccess && r.health.successCount == c.health.successCount
    ensures res.err.None? && res.status == HealthHealthy ==>
              && r.health.status == HealthHealthy && r.health.lastSuccess == now
              && r.health.successCount == c.health.successCount + 1
              && r.health.consecutiveFail == 0
              && r.health.lastFailure == c.health.lastFailure && r.health.failureCount == c.health.failureCount
    ensures res.err.None? && res.status != HealthHealthy ==>
              r.health == c.health.(status := res.status, lastChecked := now)
  {
    var h := c.health.(lastChecked := now);
    if res.err.Some? then
      c.(health := h.(status := HealthUnhealthy, lastFailure := now, failureCount := h.failureCount + 1,
                      consecutiveFail := h.consecutiveFail + 1))
    else if res.status == HealthHealthy then
      c.(health := h.(status := HealthHealthy, lastSuccess := now, successCount := h.successCount + 1,
                      consecutiveFail := 0))
    else
      c.(health := h.(status := res.status))
  }

  /** A failed probe leads to a restart once the run of failures reaches the
      check's threshold, and only under a restarting policy. */
  predicate ProbeRestarts(c: Container, res: CheckResult, probed: Container)
    requires c.healthCheck.Some?
  {
    res.err.Some? && probed.health.consecutiveFail >= c.healthCheck.value.failureThreshold
    && RestartAllowed(c.restartPolicy)
  }

  /** The state the status query reports, or `None` when the query fails. */
  function StatusOf(m: map<string, Instance>, id: string, ok: bool): Option<string>
  {
    if ok && id in m then Some(ClassifyState(m[id].running, m[id].exitCode)) else None
  }

  /** `restartContainer` for record `c`. */
  function RestartEffect(c: Container, w: World, o: Outcomes, maxRestarts: int): World
  {
    if CapReached(maxRestarts, c.restartCount) then w
    else
      var stopped := if o.stopOk && c.id in w.instances then w.instances[c.id := w.instances[c.id].(running := false)]
                     else w.instances;
      var started := o.startOk && c.id in stopped;
      var instances := if started then stopped[c.id := stopped[c.id].(running := true)] else stopped;
      var stored := if started && o.restartWriteOk then w.stored[c.id := Restarted(c, o.restartedAt)] else w.stored;
      World(stored, instances, w.calls + [StopCall(c.id), StartCall(c.id)])
  }

  /** The probe branch: probe, maybe restart, then write the probed record. */
  function ProbeEffect(c: Container, w: World, o: Outcomes, maxRestarts: int): World
    requires c.healthCheck.Some?
  {
    var res := Check(c, o.probe);
    var probed := AfterProbe(c, res, o.checkedAt);
    var w1 := if ProbeRestarts(c, res, probed) then RestartEffect(probed, w, o, maxRestarts) else w;
    w1.(stored := if o.healthWriteOk then w1.stored[c.id := probed] else w1.stored)
  }

  /** One container's pass of `checkContainers`. */
  function Step(c: Container, w: World, o: Outcomes, maxRestarts: int): World
  {
    if c.state != Running then w
    else
      var queried := w.(calls := w.calls + [InspectCall(c.id)]);
      match StatusOf(w.instances, c.id, o.inspectOk)
      case None => queried
      case Some(state) =>
        if state != Running then
          if RestartAllowed(c.restartPolicy) then RestartEffect(c, queried, o, maxRestarts) else queried
        else if c.healthCheck.None? then queried
        else ProbeEffect(c, queried, o, maxRestarts)
  }

  /** The passes over `cs` in order; `outs` gives each container's outcomes by ID. */
  function Sweep(cs: seq<Container>, w: World, outs: string -> Outcomes, maxRestarts: int): World
  {
    if cs == [] then w
    else Step(cs[|cs| - 1], Sweep(cs[..|cs| - 1], w, outs, maxRestarts), outs(cs[|cs| - 1].id), maxRestarts)
  }

  /** The calls a pass makes beyond those already made. */
  function NewCalls(w: World, w': World): seq<Call>
    requires |w.calls| <= |w'.calls|
  {
    w'.calls[|w.calls|..]
  }

  predicate NoLifecycleCalls(calls: seq<Call>)
  {
    forall i :: 0 <= i < |calls| ==> !calls[i].StopCall? && !calls[i].StartCall?
  }

  /** `w'` differs from `w` at most in `id`'s record and engine entry, and by
      calls about `id` appended at the end. */
  predicate OnlyTouches(id: string, w: World, w': World)
  {
    && w'.stored - {id} == w.stored - {id}
    && w'.instances - {id} == w.instances - {id}
    && (id in w'.instances <==> id in w.instances)
    && |w.calls| <= |w'.calls| && w'.calls[..|w.calls|] == w.calls
    && forall i :: |w.calls| <= i < |w'.calls| ==> !w'.calls[i].ListCall? && w'.calls[i].id == id
  }

  lemma OnlyTouchesTrans(id: string, w1: World, w2: World, w3: World)
    requires OnlyTouches(id, w1, w2) && OnlyTouches(id, w2, w3)
    ensures OnlyTouches(id, w1, w3)
  {
    assert w3.calls[..|w1.calls|] == w3.calls[..|w2.calls|][..|w1.calls|];
    forall i | |w1.calls| <= i < |w3.calls|
      ensures !w3.calls[i].ListCall? && w3.calls[i].id == id
    {
      if i < |w2.calls| {
        assert w3.calls[i] == w3.calls[..|w2.calls|][i];
      }
    }
  }

  lemma RestartEffectLocal(c: Container, w: World, o: Outcomes, maxRestarts: int)
    ensures OnlyTouches(c.id, w, RestartEffect(c, w, o, maxRestarts))
  {
  }

  lemma ProbeEffectLocal(c: Container, w: World, o: Outcomes, maxRestarts: int)
    requires c.healthCheck.Some?
    ensures OnlyTouches(c.id, w, ProbeEffect(c, w, o, maxRestarts))
  {
    var res := Check(c, o.probe);
    var probed := AfterProbe(c, res, o.checkedAt);
    RestartEffectLocal(probed, w, o, maxRestarts);
  }

  /** A pass touches only its own container's record and engine entry, and only appends calls about it. */
  lemma StepLocal(c: Container, w: World, o: Outcomes, maxRestarts: int)
    ensures OnlyTouches(c.id, w, Step(c, w, o, maxRestarts))
  {
    if c.state == Running {
      var queried := w.(calls := w.calls + [InspectCall(c.id)]);
      assert OnlyTouches(c.id, w, queried);
      match StatusOf(w.instances, c.id, o.inspectOk)
      case None =>
      case Some(state) =>
        if state != Running {
          if RestartAllowed(c.restartPolicy) {
            RestartEffectLocal(c, queried, o, maxRestarts);
            OnlyTouchesTrans(c.id, w, queried, RestartEffect(c, queried, o, maxRestarts));
          }
        } else if c.healthCheck.Some? {
          ProbeEffectLocal(c, queried, o, maxRestarts);
          OnlyTouchesTrans(c.id, w, queried, ProbeEffect(c, queried, o, maxRestarts));
        }
    }
  }

  /** The IDs of the records in a listing. */
  function IdsOf(cs: seq<Container>): set<string>
  {
    set i | 0 <= i < |cs| :: cs[i].id
  }

  lemma IdsOfSnoc(cs: seq<Container>)
    requires cs != []
    ensures IdsOf(cs) == IdsOf(cs[..|cs| - 1]) + {cs[|cs| - 1].id}
  {
    var init := cs[..|cs| - 1];
    assert forall i :: 0 <= i < |init| ==> init[i] == cs[i];
  }

  /** Agreement outside `ids`, then outside `id`, is agreement outside both. */
  lemma AgreeOutsideStep<V>(m0: map<string, V>, m1: map<string, V>, m2: map<string, V>, ids: set<string>, id: string)
    requires m1 - ids == m0 - ids
    requires m2 - {id} == m1 - {id}
    ensures m2 - (ids + {id}) == m0 - (ids + {id})
  {
    assert m2 - (ids + {id}) == (m2 - {id}) - ids;
    assert m1 - (ids + {id}) == (m1 - ids) - {id};
    assert m1 - (ids + {id}) == (m1 - {id}) - ids;
    assert m0 - (ids + {id}) == (m0 - ids) - {id};
  }

  lemma PrefixTrans(a: seq<Call>, b: seq<Call>, c: seq<Call>)
    requires |a| <= |b| && b[..|a|] == a
    requires |b| <= |c| && c[..|b|] == b
    ensures |a| <= |c| && c[..|a|] == a
  {
    assert c[..|a|] == c[..|b|][..|a|];
  }

  /** A sweep leaves alone every record and engine entry whose ID it was not given. */
  lemma {:induction false} SweepLocal(cs: seq<Container>, w: World, outs: string -> Outcomes, maxRestarts: int)
    ensures var w' := Sweep(cs, w, outs, maxRestarts);
      && w'.stored - IdsOf(cs) == w.stored - IdsOf(cs)
      && w'.instances - IdsOf(cs) == w.instances - IdsOf(cs)
      && |w.calls| <= |w'.calls| && w'.calls[..|w.calls|] == w.calls
  {
    if cs != [] {
      var init := cs[..|cs| - 1];
      var c := cs[|cs| - 1];
      SweepLocal(init, w, outs, maxRestarts);
      var mid := Sweep(init, w, outs, maxRestarts);
      StepLocal(c, mid, outs(c.id), maxRestarts);
      var w' := Step(c, mid, outs(c.id), maxRestarts);
      PrefixTrans(w.calls, mid.calls, w'.calls);
      IdsOfSnoc(cs);
      AgreeOutsideStep(w.stored, mid.stored, w'.stored, IdsOf(init), c.id);
      AgreeOutsideStep(w.instances, mid.instances, w'.instances, IdsOf(init), c.id);
    }
  }

  /** A record not stored as running is not looked at. */
  lemma StoppedRecordIgnored(c: Container, w: World, o: Outcomes, maxRestarts: int)
    requires c.state != Running
    ensures Step(c, w, o, maxRestarts) == w
  {
  }

  /** Under a policy other than "Always" and "OnFailure" a pass never stops or
      starts anything, and the engine is left as it was. */
  lemma NoRestartWithoutPolicy(c: Container, w: World, o: Outcomes, maxRestarts: int)
    requires !RestartAllowed(c.restartPolicy)
    ensures var w' := Step(c, w, o, maxRestarts);
      && w'.instances == w.instances
      && (w'.calls == w.calls || w'.calls == w.calls + [InspectCall(c.id)])
  {
  }

  /** Once the restart limit is reached a pass never stops or starts the
      container, and whatever it writes keeps the record's state and restart count. */
  lemma CapPreventsRestart(c: Container, w: World, o: Outcomes, maxRestarts: int)
    requires CapReached(maxRestarts, c.restartCount)
    ensures var w' := Step(c, w, o, maxRestarts);
      && w'.instances == w.instances
      && (w'.calls == w.calls || w'.calls == w.calls + [InspectCall(c.id)])
      && (w'.stored == w.stored
          || (c.id in w'.stored && w'.stored == w.stored[c.id := w'.stored[c.id]]
              && w'.stored[c.id].restartCount == c.restartCount && w'.stored[c.id].state == c.state))
  {
  }

  /** Every stored record is within a positive restart limit. */
  predicate WithinCap(stored: map<string, Container>, maxRestarts: int)
  {
    forall id :: id in stored ==> stored[id].restartCount <= maxRestarts
  }

  /** With a positive limit, any record a pass writes for a container read
      within the limit is within the limit too. */
  lemma StepRespectsCap(c: Container, w: World, o: Outcomes, maxRestarts: int)
    requires 0 < maxRestarts && c.restartCount <= maxRestarts
    ensures var s := Step(c, w, o, maxRestarts).stored;
      c.id in s ==> (c.id in w.stored && s[c.id] == w.stored[c.id]) || s[c.id].restartCount <= maxRestarts
  {
    if c.state == Running && StatusOf(w.instances, c.id, o.inspectOk).Some? {
      var queried := w.(calls := w.calls + [InspectCall(c.id)]);
      if StatusOf(w.instances, c.id, o.inspectOk).value != Running {
        if RestartAllowed(c.restartPolicy) {
          RestartWithinCap(c, queried, o, maxRestarts);
        }
      } else if c.healthCheck.Some? {
        var probed := AfterProbe(c, Check(c, o.probe), o.checkedAt);
        RestartWithinCap(probed, queried, o, maxRestarts);
      }
    }
  }

  /** A restart writes a record only below the limit, so the count it writes is at most the limit. */
  lemma RestartWithinCap(c: Container, w: World, o: Outcomes, maxRestarts: int)
    requires 0 < maxRestarts && c.restartCount <= maxRestarts
    ensures var s := RestartEffect(c, w, o, maxRestarts).stored;
      s == w.stored || (c.id in s && s == w.stored[c.id := s[c.id]] && s[c.id].restartCount <= maxRestarts)
  {
  }

  /** A pass over records read within a positive limit keeps every stored record within it. */
  lemma StepKeepsCap(c: Container, w: World, o: Outcomes, maxRestarts: int)
    requires 0 < maxRestarts && c.restartCount <= maxRestarts && WithinCap(w.stored, maxRestarts)
    ensures WithinCap(Step(c, w, o, maxRestarts).stored, maxRestarts)
  {
    var s := Step(c, w, o, maxRestarts).stored;
    StepRespectsCap(c, w, o, maxRestarts);
    StepLocal(c, w, o, maxRestarts);
    forall id | id in s ensures s[id].restartCount <= maxRestarts {
      if id != c.id {
        assert id in s - {c.id};
      }
    }
  }

  /** Lifted to a whole sweep: with a positive limit, a listing whose records
      are all within it leaves every stored record within it. */
  lemma {:induction false} SweepKeepsCap(cs: seq<Container>, w: World, outs: string -> Outcomes, maxRestarts: int)
    requires 0 < maxRestarts && WithinCap(w.stored, maxRestarts)
    requires forall k :: 0 <= k < |cs| ==> cs[k].restartCount <= maxRestarts
    ensures WithinCap(Sweep(cs, w, outs, maxRestarts).stored, maxRestarts)
  {
    if cs != [] {
      var init, c := cs[..|cs| - 1], cs[|cs| - 1];
      SweepKeepsCap(init, w, outs, maxRestarts);
      StepKeepsCap(c, Sweep(init, w, outs, maxRestarts), outs(c.id), maxRestarts);
    }
  }

  /** When the status query fails, the pass only records that query. */
  lemma InspectFailureSkips(c: Container, w: World, o: Outcomes, maxRestarts: int)
    requires !o.inspectOk || c.id !in w.instances
    ensures var w' := Step(c, w, o, maxRestarts);
      && w'.stored == w.stored && w'.instances == w.instances
      && w'.calls == w.calls + (if c.state == Running then [InspectCall(c.id)] else [])
  {
  }

  /** A record stored as running whose engine container has stopped is restarted
      under a restarting policy below the limit: stop, then start; after a
      successful start the record reads running, restarted once more, at the restart time. */
  lemma StoppedContainerRestarted(c: Container, w: World, o: Outcomes, maxRestarts: int)
    requires c.state == Running
    requires o.inspectOk && c.id in w.instances && !w.instances[c.id].running
    requires RestartAllowed(c.restartPolicy) && !CapReached(maxRestarts, c.restartCount)
    ensures var w' := Step(c, w, o, maxRestarts);
      && w'.calls == w.calls + [InspectCall(c.id), StopCall(c.id), StartCall(c.id)]
      && c.id in w'.instances
      && w'.instances[c.id].running == o.startOk
      && (o.startOk && o.restartWriteOk ==>
            c.id in w'.stored && w'.stored[c.id] == Restarted(c, o.restartedAt)
            && w'.stored[c.id].restartCount == c.restartCount + 1)
      && (!o.startOk || !o.restartWriteOk ==> w'.stored == w.stored)
  {
  }

  /** A probed record is always written back, whatever the probe found; the
      write carries the record's state and restart count as they were read, so a
      restart made because of the probe is not counted in the store. */
  lemma ProbeWriteKeepsRestartCount(c: Container, w: World, o: Outcomes, maxRestarts: int)
    requires c.state == Running && c.healthCheck.Some?
    requires o.inspectOk && c.id in w.instances && w.instances[c.id].running
    requires o.healthWriteOk
    ensures var w' := Step(c, w, o, maxRestarts);
      && c.id in w'.stored
      && w'.stored[c.id] == AfterProbe(c, Check(c, o.probe), o.checkedAt)
      && w'.stored[c.id].restartCount == c.restartCount
      && w'.stored[c.id].state == Running
  {
  }

  /** A failed probe restarts the container exactly when the run of failures,
      counting this one, reaches the threshold under a restarting policy and below the limit. */
  lemma ProbeFailureRestart(c: Container, w: World, o: Outcomes, maxRestarts: int)
    requires c.state == Running && c.healthCheck.Some?
    requires o.inspectOk && c.id in w.instances && w.instances[c.id].running
    requires Check(c, o.probe).err.Some?
    ensures var w' := Step(c, w, o, maxRestarts);
      var restarts := c.health.consecutiveFail + 1 >= c.healthCheck.value.failureThreshold
                      && RestartAllowed(c.restartPolicy) && !CapReached(maxRestarts, c.restartCount);
      && (restarts ==> w'.calls == w.calls + [InspectCall(c.id), StopCall(c.id), StartCall(c.id)])
      && (!restarts ==> w'.calls == w.calls + [InspectCall(c.id)] && w'.instances == w.instances)
  {
  }

  /** A healthy probe clears the run of failures and never restarts. */
  lemma HealthyProbeResets(c: Container, w: World, o: Outcomes, maxRestarts: int)
    requires c.state == Running && c.healthCheck.Some?
    requires o.inspectOk && c.id in w.instances && w.instances[c.id].running
    requires Check(c, o.probe).status == HealthHealthy
    ensures var w' := Step(c, w, o, maxRestarts);
      && w'.calls == w.calls + [InspectCall(c.id)]
      && w'.instances == w.instances
      && (o.healthWriteOk ==> c.id in w'.stored && w'.stored[c.id].health.consecutiveFail == 0
                              && w'.stored[c.id].health.status == HealthHealthy
                              && w'.stored[c.id].health.successCount == c.health.successCount + 1)
  {
  }

  class Worker {
    const store: Store
    const engine: Engine
    const maxRestarts: int

    constructor (store: Store, engine: Engine, maxRestarts: int)
      ensures this.store == store && this.engine == engine && this.maxRestarts == maxRestarts
    {
      this.store := store;
      this.engine := engine;
      this.maxRestarts := maxRestarts;
    }

    ghost function State(): World
      reads store, engine
    {
      World(store.containers, engine.containers, engine.calls)
    }

    /** `restartContainer`: the record is a copy; a stop error is ignored, a
        start error ends the attempt without a write. */
    method RestartContainer(c: Container, o: Outcomes)
      modifies store, engine
      ensures State() == RestartEffect(c, old(State()), o, maxRestarts)
      ensures store.services == old(store.services)
    {
      if maxRestarts > 0 && c.restartCount >= maxRestarts {
        return;
      }
      var _ := StopContainer(engine, c.id, o.stopOk);
      var err := StartContainer(engine, c.id, o.startOk);
      if err {
        return;
      }
      var container := c;
      container := container.(state := Running);
      container := container.(restartCount := container.restartCount + 1);
      container := container.(startedAt := Some(o.restartedAt));
      var _ := store.PutContainer(container, o.restartWriteOk);
    }

    /** The body of the loop in `checkContainers` for one listed record. */
    method CheckContainer(c: Container, o: Outcomes)
      modifies store, engine
      ensures State() == Step(c, old(State()), o, maxRestarts)
      ensures store.services == old(store.services)
    {
      if c.state != Running {
        return;
      }
      var state, err := GetContainerStatus(engine, c.id, o.inspectOk);
      if err {
        return;
      }
      if state != Running {
        if c.restartPolicy == "Always" || c.restartPolicy == "OnFailure" {
          RestartContainer(c, o);
        }
        return;
      }
      if c.healthCheck.Some? {
        var res := Check(c, o.probe);
        var container := c;
        container := container.(health := container.health.(lastChecked := o.checkedAt));
        if res.err.Some? {
          container := container.(health := container.health.(status := HealthUnhealthy));
          container := container.(health := container.health.(lastFailure := o.checkedAt));
          container := container.(health := container.health.(failureCount := container.health.failureCount + 1));
          container := container.(health := container.health.(consecutiveFail := container.health.consecutiveFail + 1));
          if container.health.consecutiveFail >= container.healthCheck.value.failureThreshold {
            if container.restartPolicy == "Always" || container.restartPolicy == "OnFailure" {
              RestartContainer(container, o);
            }
          }
        } else if res.status == HealthHealthy {
          container := container.(health := container.health.(status := HealthHealthy));
          container := container.(health := container.health.(lastSuccess := o.checkedAt));
          container := container.(health := container.health.(successCount := container.health.successCount + 1));
          container := container.(health := container.health.(consecutiveFail := 0));
        } else {
          container := container.(health := container.health.(status := res.status));
        }
        assert container == AfterProbe(c, res, o.checkedAt);
        var _ := store.PutContainer(container, o.healthWriteOk);
      }
    }

    /** `checkContainers`: a failed listing ends the pass; otherwise every listed
        record gets its pass, in listing order. `keys` says which key each
        listed record was read from. */
    method CheckContainers(listOk: bool, outs: string -> Outcomes) returns (ghost snapshot: seq<Container>, ghost keys: seq<string>)
      modifies store, engine
      ensures !listOk ==> State() == old(State())
      ensures listOk ==> Enumerates(keys, old(store.containers)) && |snapshot| == |keys|
      ensures listOk ==> forall i :: 0 <= i < |keys| ==> snapshot[i] == old(store.containers)[keys[i]]
      ensures listOk ==> State() == Sweep(snapshot, old(State()), outs, maxRestarts)
      ensures store.services == old(store.services)
    {
      var list;
      list, keys := store.ListContainers(listOk);
      snapshot := [];
      if list.None? {
        return;
      }
      var containers := list.value;
      snapshot := containers;
      ghost var start := State();
      for i := 0 to |containers|
        invariant State() == Sweep(containers[..i], start, outs, maxRestarts)
        invariant store.services == old(store.services)
      {
        assert containers[..i + 1][..i] == containers[..i];
        CheckContainer(containers[i], outs(containers[i].id));
      }
      assert containers[..|containers|] == containers;
    }
  }
}
