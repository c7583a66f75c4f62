/** The service endpoints, which track a service's containers through the
    owned list `Service.containerIds` (not through engine labels): create,
    scale, delete and update. Failures of individual container steps are
    mostly only logged; the contracts say which ones end the request. */
module ServiceHandlers {
  import opened Basics
  import opened Models
  import opened DockerEngine
  import opened Persistence
  import opened Runtime
  import opened ServiceManager

  /** The handler panicked (a slice out of range); the HTTP server drops the
      connection without an answer. */
  const NoResponse: int := 0

  // ----- growing the owned list -----

  /** What the engine and the store answer for one new replica: the ID it gets,
      whether its create, start and store write succeed, and the clock readings
      for its creation and start. */
  datatype ReplicaIo = ReplicaIo(id: string, createOk: bool, startOk: bool, storeOk: bool,
                                 createdAt: Time, startedAt: Time)

  /** Replica `i` of `s` as built from the service template, before it is started. */
  function PendingRecord(s: Service, i: int, io: ReplicaIo): Container
  {
    Container(io.id, ReplicaName(s.name, i), s.image, s.command, s.env, s.ports, s.resources,
              Pending, LocalNode, io.createdAt, None, None, s.restartPolicy, 0, NoHealth, None)
  }

  /** Replica `i` as stored: running from its start time when the start succeeded, pending otherwise. */
  function ReplicaRecord(s: Service, i: int, io: ReplicaIo): (c: Container)
    ensures c.id == io.id && c.name == ReplicaName(s.name, i) && c.image == s.image && c.nodeId == LocalNode
    ensures c.state == (if io.startOk then Running else Pending)
  {
    var c := PendingRecord(s, i, io);
    if io.startOk then c.(state := Running, startedAt := Some(io.startedAt)) else c
  }

  /** The IDs of replicas `from` to `to - 1`, in index order. */
  function ReplicaIds(io: int -> ReplicaIo, from: int, to: int): (ids: seq<string>)
    decreases to - from
    ensures |ids| == (if to <= from then 0 else to - from)
    ensures forall k :: 0 <= k < |ids| ==> ids[k] == io(from + k).id
  {
    if to <= from then [] else ReplicaIds(io, from, to - 1) + [io(to - 1).id]
  }

  /** The store after replicas `from` to `to - 1` are written; a failed write is skipped. */
  function StoredReplicas(sc: map<string, Container>, s: Service, io: int -> ReplicaIo, from: int, to: int)
    : map<string, Container>
    decreases to - from
  {
    if to <= from then sc
    else
      var before := StoredReplicas(sc, s, io, from, to - 1);
      if io(to - 1).storeOk then before[io(to - 1).id := ReplicaRecord(s, to - 1, io(to - 1))] else before
  }

  /** The engine calls of replicas `from` to `to - 1`: a create and a start each. */
  function GrowCalls(io: int -> ReplicaIo, from: int, to: int): seq<Call>
    decreases to - from
  {
    if to <= from then [] else GrowCalls(io, from, to - 1) + [CreateCall(io(to - 1).id), StartCall(io(to - 1).id)]
  }

  function IdSet(io: int -> ReplicaIo, from: int, to: int): set<string>
    decreases to - from
  {
    if to <= from then {} else IdSet(io, from, to - 1) + {io(to - 1).id}
  }

  /** An ID among those of replicas `from` to `to - 1` is the ID of one of them. */
  lemma {:induction false} IdSetMeaning(io: int -> ReplicaIo, from: int, to: int, id: string)
    decreases to - from
    ensures id in IdSet(io, from, to) ==> exists k :: from <= k < to && io(k).id == id
  {
    if from < to {
      IdSetMeaning(io, from, to - 1, id);
    }
  }

  /** The template's ports are valid and every replica `from` to `to - 1` is
      created under an ID that is neither in `m` nor given to another of them. */
  ghost predicate FreshCreates(m: map<string, Instance>, s: Service, io: int -> ReplicaIo, from: int, to: int)
  {
    && PortsValid(s.ports)
    && (forall i :: from <= i < to ==> io(i).createOk && io(i).id !in m)
    && (forall i, j :: from <= i < j < to ==> io(i).id != io(j).id)
  }

  /** `m'` is `m` plus replicas `from` to `to - 1`, each created from the
      template (whose ports are valid) under its own fresh ID by a create the
      engine accepted, and running exactly when its start succeeded; nothing
      else changed. */
  ghost predicate Grown(m: map<string, Instance>, m': map<string, Instance>, s: Service,
                        io: int -> ReplicaIo, from: int, to: int)
  {
    && (forall id :: id in m ==> id in m' && m'[id] == m[id])
    && (forall i :: from <= i < to ==>
          && PortsValid(s.ports) && io(i).createOk
          && io(i).id !in m && io(i).id in m'
          && CreatedFrom(m'[io(i).id].(running := false), PendingRecord(s, i, io(i)))
          && m'[io(i).id].running == io(i).startOk)
    && m'.Keys <= m.Keys + IdSet(io, from, to)
  }

  lemma GrownStep(m: map<string, Instance>, before: map<string, Instance>, after: map<string, Instance>,
                  s: Service, io: int -> ReplicaIo, from: int, i: int)
    requires Grown(m, before, s, io, from, i) && from <= i
    requires PortsValid(s.ports) && io(i).createOk
    requires io(i).id !in before && io(i).id in after && after - {io(i).id} == before
    requires CreatedFrom(after[io(i).id].(running := false), PendingRecord(s, i, io(i)))
    requires after[io(i).id].running == io(i).startOk
    ensures Grown(m, after, s, io, from, i + 1)
  {
    assert IdSet(io, from, i + 1) == IdSet(io, from, i) + {io(i).id};
    assert after.Keys == before.Keys + {io(i).id};
    forall k | from <= k < i + 1
      ensures PortsValid(s.ports) && io(k).createOk && io(k).id !in m && io(k).id in after
              && CreatedFrom(after[io(k).id].(running := false), PendingRecord(s, k, io(k)))
              && after[io(k).id].running == io(k).startOk
    {
      if k < i {
        assert io(k).id in before && io(k).id != io(i).id;
        assert after[io(k).id] == before[io(k).id];
      }
    }
  }

  /** A replica loop that stops only at a refused create runs to the end when
      every create is accepted under a fresh ID. */
  lemma GrowCompletes(m: map<string, Instance>, mid: map<string, Instance>, s: Service, io: int -> ReplicaIo,
                      from: int, to: int, reached: int)
    requires FreshCreates(m, s, io, from, to) && from <= reached <= to
    requires Grown(m, mid, s, io, from, reached)
    requires reached < to ==> !(PortsValid(s.ports) && io(reached).createOk && io(reached).id !in mid)
    ensures reached == to
  {
    if reached < to {
      IdSetMeaning(io, from, reached, io(reached).id);
    }
  }

  /** The replica loop of the create and scale handlers: replicas `from` to
      `to - 1` in index order. Each is created in the engine, started (a
      failed start leaves it pending) and stored (a failed write is only
      logged); its ID is appended either way. A failed create ends the loop at
      `reached` with no rollback. */
  method GrowReplicas(store: Store, engine: Engine, s: Service, from: int, to: int, io: int -> ReplicaIo)
    returns (added: seq<string>, err: bool, ghost reached: int, ghost mid: map<string, Instance>)
    modifies store, engine
    ensures store.services == old(store.services)
    ensures from <= reached && (reached <= to || reached == from) && err == (reached < to)
    ensures added == ReplicaIds(io, from, reached)
    ensures Grown(old(engine.containers), mid, s, io, from, reached) && engine.containers == mid
    ensures store.containers == StoredReplicas(old(store.containers), s, io, from, reached)
    ensures !err ==> engine.calls == old(engine.calls) + GrowCalls(io, from, reached)
    ensures err ==> !(PortsValid(s.ports) && io(reached).createOk && io(reached).id !in mid)
                    && engine.calls == old(engine.calls) + GrowCalls(io, from, reached)
                                       + (if PortsValid(s.ports) then [CreateCall(io(reached).id)] else [])
  {
    added, reached, mid := [], from, engine.containers;
    var i := from;
    while i < to
      invariant from <= i && (i <= to || i == from) && reached == i && mid == engine.containers
      invariant added == ReplicaIds(io, from, i)
      invariant GrowState(old(engine.containers), old(store.containers), old(engine.calls),
                          engine.containers, store.containers, engine.calls, s, io, from, i)
      invariant store.services == old(store.services)
    {
      var id;
      id, err := GrowNext(store, engine, s, from, i, io, old(engine.containers), old(store.containers),
                          old(engine.calls));
      if err {
        return;
      }
      added := added + [id];
      i := i + 1;
      reached, mid := i, engine.containers;
    }
    err := false;
  }

  /** Replicas `from` to `i - 1` have been grown on top of the engine
      containers `m0`, the stored records `sc0` and the calls `c0`. */
  ghost predicate GrowState(m0: map<string, Instance>, sc0: map<string, Container>, c0: seq<Call>,
                            m: map<string, Instance>, sc: map<string, Container>, calls: seq<Call>,
                            s: Service, io: int -> ReplicaIo, from: int, i: int)
  {
    && Grown(m0, m, s, io, from, i)
    && sc == StoredReplicas(sc0, s, io, from, i)
    && calls == c0 + GrowCalls(io, from, i)
  }

  lemma GrowStateStep(m0: map<string, Instance>, sc0: map<string, Container>, c0: seq<Call>,
                      m: map<string, Instance>, sc: map<string, Container>, calls: seq<Call>,
                      m': map<string, Instance>, sc': map<string, Container>, calls': seq<Call>,
                      s: Service, io: int -> ReplicaIo, from: int, i: int)
    requires from <= i
    requires GrowState(m0, sc0, c0, m, sc, calls, s, io, from, i)
    requires PortsValid(s.ports) && io(i).createOk
    requires io(i).id !in m && io(i).id in m' && m' - {io(i).id} == m
    requires CreatedFrom(m'[io(i).id].(running := false), PendingRecord(s, i, io(i)))
    requires m'[io(i).id].running == io(i).startOk
    requires sc' == if io(i).storeOk then sc[io(i).id := ReplicaRecord(s, i, io(i))] else sc
    requires calls' == calls + [CreateCall(io(i).id), StartCall(io(i).id)]
    ensures GrowState(m0, sc0, c0, m', sc', calls', s, io, from, i + 1)
  {
    GrownStep(m0, m, m', s, io, from, i);
    CallsAssoc(c0, GrowCalls(io, from, i), [CreateCall(io(i).id), StartCall(io(i).id)]);
  }

  /** Replica `i` of the loop. */
  method GrowNext(store: Store, engine: Engine, s: Service, from: int, i: int, io: int -> ReplicaIo,
                  ghost m0: map<string, Instance>, ghost sc0: map<string, Container>, ghost c0: seq<Call>)
    returns (id: string, err: bool)
    requires from <= i
    requires GrowState(m0, sc0, c0, engine.containers, store.containers, engine.calls, s, io, from, i)
    modifies store, engine
    ensures id == io(i).id && store.services == old(store.services)
    ensures err == !(PortsValid(s.ports) && io(i).createOk && io(i).id !in old(engine.containers))
    ensures err ==> engine.containers == old(engine.containers) && store.containers == old(store.containers)
                    && engine.calls == c0 + GrowCalls(io, from, i) + (if PortsValid(s.ports) then [CreateCall(io(i).id)] else [])
    ensures !err ==> GrowState(m0, sc0, c0, engine.containers, store.containers, engine.calls, s, io, from, i + 1)
  {
    ghost var before, scBefore, callsBefore := engine.containers, store.containers, engine.calls;
    id, err := GrowOne(store, engine, s, i, io(i));
    if !err {
      GrowStateStep(m0, sc0, c0, before, scBefore, callsBefore, engine.containers, store.containers, engine.calls,
                    s, io, from, i);
    } else {
      CallsAssoc(c0, GrowCalls(io, from, i), if PortsValid(s.ports) then [CreateCall(io(i).id)] else []);
    }
  }

  /** One pass of the replica loop: create, start, store. */
  method GrowOne(store: Store, engine: Engine, s: Service, i: int, io: ReplicaIo) returns (id: string, err: bool)
    modifies store, engine
    ensures id == io.id && store.services == old(store.services)
    ensures err == !(PortsValid(s.ports) && io.createOk && io.id !in old(engine.containers))
    ensures err ==> engine.containers == old(engine.containers) && store.containers == old(store.containers)
                    && engine.calls == old(engine.calls) + (if PortsValid(s.ports) then [CreateCall(io.id)] else [])
    ensures !err ==> && io.id in engine.containers && engine.containers - {io.id} == old(engine.containers)
                     && CreatedFrom(engine.containers[io.id].(running := false), PendingRecord(s, i, io))
                     && engine.containers[io.id].running == io.startOk
                     && store.containers == (if io.storeOk then old(store.containers)[io.id := ReplicaRecord(s, i, io)]
                                             else old(store.containers))
                     && engine.calls == old(engine.calls) + [CreateCall(io.id), StartCall(io.id)]
  {
    var container := PendingRecord(s, i, io);
    id := container.id;
    err := CreateContainer(engine, container, io.createOk);
    if err {
      return;
    }
    ghost var created := engine.containers;
    var startErr := StartContainer(engine, id, io.startOk);
    assert engine.containers[id].(running := false) == created[id];
    if !startErr {
      container := container.(state := Running, startedAt := Some(io.startedAt));
    }
    assert container == ReplicaRecord(s, i, io);
    var _ := store.PutContainer(container, io.storeOk);
  }

  // ----- sweeping owned containers -----

  /** What the engine and the store answer when one owned container is
      swept: its stop, its engine delete and its store delete. */
  datatype SweepIo = SweepIo(stopOk: bool, removeOk: bool, storeOk: bool)

  /** The engine after stopping and deleting each of `ids` in order; a refused
      call changes nothing and the sweep goes on. */
  function SweepEngine(m: map<string, Instance>, ids: seq<string>, so: string -> SweepIo): map<string, Instance>
  {
    if ids == [] then m
    else
      var before := SweepEngine(m, ids[..|ids| - 1], so);
      var id := ids[|ids| - 1];
      var stopped := if so(id).stopOk && id in before then before[id := before[id].(running := false)] else before;
      if so(id).removeOk && id in stopped then stopped - {id} else stopped
  }

  /** The stored containers after deleting each of `ids`; a failed delete is skipped. */
  function SweepStore(sc: map<string, Container>, ids: seq<string>, so: string -> SweepIo): map<string, Container>
  {
    if ids == [] then sc
    else
      var before := SweepStore(sc, ids[..|ids| - 1], so);
      var id := ids[|ids| - 1];
      if so(id).storeOk then before - {id} else before
  }

  function SweepCalls(ids: seq<string>): seq<Call>
  {
    if ids == [] then [] else SweepCalls(ids[..|ids| - 1]) + [StopCall(ids[|ids| - 1]), RemoveCall(ids[|ids| - 1])]
  }

  /** The store loses exactly the swept IDs whose delete succeeded. */
  lemma {:induction false} SweepStoreRemoves(sc: map<string, Container>, ids: seq<string>, so: string -> SweepIo)
    ensures SweepStore(sc, ids, so) == sc - (set x | x in ids && so(x).storeOk)
  {
    if ids != [] {
      var init := ids[..|ids| - 1];
      SweepStoreRemoves(sc, init, so);
      assert ids == init + [ids[|ids| - 1]];
      assert (set x | x in ids && so(x).storeOk)
          == (set x | x in init && so(x).storeOk) + (if so(ids[|ids| - 1]).storeOk then {ids[|ids| - 1]} else {});
    }
  }

  /** The engine loses exactly the swept IDs whose engine delete succeeded; a
      container outside the sweep is untouched, and one inside it that stays
      changes at most in its running flag. */
  lemma {:induction false} SweepEngineRemoves(m: map<string, Instance>, ids: seq<string>, so: string -> SweepIo)
    ensures var r := SweepEngine(m, ids, so);
      && r.Keys == m.Keys - (set x | x in ids && so(x).removeOk)
      && (forall x :: x in m && x !in ids ==> r[x] == m[x])
      && (forall x :: x in r ==> r[x] == m[x].(running := r[x].running))
  {
    if ids != [] {
      var init := ids[..|ids| - 1];
      SweepEngineRemoves(m, init, so);
      assert ids == init + [ids[|ids| - 1]];
      assert (set x | x in ids && so(x).removeOk)
          == (set x | x in init && so(x).removeOk) + (if so(ids[|ids| - 1]).removeOk then {ids[|ids| - 1]} else {});
    }
  }

  /** The sweep loop of the delete and scale handlers: stop, engine delete and
      store delete for every ID in order; no failure ends the loop. */
  method Sweep(store: Store, engine: Engine, ids: seq<string>, so: string -> SweepIo)
    modifies store, engine
    ensures engine.containers == SweepEngine(old(engine.containers), ids, so)
    ensures store.containers == SweepStore(old(store.containers), ids, so)
    ensures engine.calls == old(engine.calls) + SweepCalls(ids)
    ensures store.services == old(store.services)
  {
    for j := 0 to |ids|
      invariant engine.containers == SweepEngine(old(engine.containers), ids[..j], so)
      invariant store.containers == SweepStore(old(store.containers), ids[..j], so)
      invariant engine.calls == old(engine.calls) + SweepCalls(ids[..j])
      invariant store.services == old(store.services)
    {
      var id := ids[j];
      assert ids[..j + 1][..j] == ids[..j] && ids[..j + 1][j] == id;
      var _ := StopContainer(engine, id, so(id).stopOk);
      var _ := DeleteContainer(engine, id, so(id).removeOk);
      var _ := store.DeleteContainer(id, so(id).storeOk);
    }
    assert ids[..|ids|] == ids;
  }

  // ----- handlers -----

  /** A new service record: state Creating, an empty owned list, and the replica
      count as requested (not normalised). */
  function NewService(req: ServiceCreateRequest, id: string, now: Time): Service
  {
    Service(id, req.name, req.image, req.command, req.env, req.ports, req.resources, req.replicas,
            ServiceCreating, now, now, req.restartPolicy, [], None, None)
  }

  /** `HandleCreate`: 400 for a body that does not decode. The record is stored
      first; if that fails, 500 and nothing else happens. Then replicas 0 to
      `replicas - 1` are grown. A failed create answers 500 and leaves the
      stored record Creating with an empty owned list (the replicas grown so
      far stay). Otherwise the record becomes Running with the new IDs in
      index order and is written back; a failure of that write is only logged
      and the answer is 201 with the updated record. */
  method HandleCreate(store: Store, engine: Engine, body: Option<ServiceCreateRequest>, id: string, now: Time,
                      storeOk: bool, io: int -> ReplicaIo, doneAt: Time, updateOk: bool)
    returns (status: int, result: Option<Service>, ghost reached: int, ghost mid: map<string, Instance>)
    modifies store, engine
    ensures body.None? || !storeOk ==>
              && status == (if body.None? then StatusBadRequest else StatusInternalServerError) && result == None
              && store.services == old(store.services) && store.containers == old(store.containers)
              && engine.containers == old(engine.containers) && engine.calls == old(engine.calls)
    ensures body.Some? && storeOk ==>
              var s0 := NewService(body.value, id, now);
              var n := body.value.replicas;
              && 0 <= reached && (reached <= n || reached == 0)
              && Grown(old(engine.containers), mid, s0, io, 0, reached) && engine.containers == mid
              && store.containers == StoredReplicas(old(store.containers), s0, io, 0, reached)
              && (reached < n ==> status == StatusInternalServerError && result == None
                                  && store.services == old(store.services)[id := s0]
                                  && !(PortsValid(s0.ports) && io(reached).createOk && io(reached).id !in mid))
              && (FreshCreates(old(engine.containers), s0, io, 0, n) ==> reached >= n)
              && (reached >= n ==>
                    var s1 := s0.(containerIds := ReplicaIds(io, 0, n), state := ServiceRunning, updatedAt := doneAt);
                    && status == StatusCreated && result == Some(s1)
                    && store.services == old(store.services)[id := if updateOk then s1 else s0])
  {
    reached, mid := 0, engine.containers;
    if body.None? {
      return StatusBadRequest, None, reached, mid;
    }
    var service := NewService(body.value, id, now);
    var err := store.PutService(service, storeOk);
    if err {
      return StatusInternalServerError, None, reached, mid;
    }
    status, result, reached, mid := LaunchCreated(store, engine, service, io, doneAt, updateOk);
  }

  /** The part of `HandleCreate` after the new record is stored: grow the
      replicas, then write the record back as Running with their IDs. */
  method LaunchCreated(store: Store, engine: Engine, s0: Service, io: int -> ReplicaIo, doneAt: Time, updateOk: bool)
    returns (status: int, result: Option<Service>, ghost reached: int, ghost mid: map<string, Instance>)
    requires s0.containerIds == []
    modifies store, engine
    ensures var n := s0.replicas;
      && 0 <= reached && (reached <= n || reached == 0)
      && Grown(old(engine.containers), mid, s0, io, 0, reached) && engine.containers == mid
      && store.containers == StoredReplicas(old(store.containers), s0, io, 0, reached)
      && (reached < n ==> status == StatusInternalServerError && result == None
                          && store.services == old(store.services)
                          && !(PortsValid(s0.ports) && io(reached).createOk && io(reached).id !in mid))
      && (FreshCreates(old(engine.containers), s0, io, 0, n) ==> reached >= n)
      && (reached >= n ==>
            var s1 := s0.(containerIds := ReplicaIds(io, 0, n), state := ServiceRunning, updatedAt := doneAt);
            && status == StatusCreated && result == Some(s1)
            && store.services == if updateOk then old(store.services)[s0.id := s1] else old(store.services))
  {
    var added, err;
    added, err, reached, mid := GrowReplicas(store, engine, s0, 0, s0.replicas, io);
    if FreshCreates(old(engine.containers), s0, io, 0, s0.replicas) && reached <= s0.replicas {
      GrowCompletes(old(engine.containers), mid, s0, io, 0, s0.replicas, reached);
    }
    if err {
      return StatusInternalServerError, None, reached, mid;
    }
    assert s0.containerIds + added == ReplicaIds(io, 0, s0.replicas) by {
      assert s0.containerIds + added == added;
      if s0.replicas < 0 {
        assert reached == 0;
      }
    }
    var service := s0.(containerIds := s0.containerIds + added, state := ServiceRunning, updatedAt := doneAt);
    var _ := store.PutService(service, updateOk);
    return StatusCreated, Some(service), reached, mid;
  }

  /** A successful create owns `max(replicas, 0)` containers, replica `k`
      under the ID assigned to index `k`. */
  lemma CreatedOwnsReplicas(req: ServiceCreateRequest, id: string, now: Time, io: int -> ReplicaIo, doneAt: Time)
    ensures var s1 := NewService(req, id, now).(containerIds := ReplicaIds(io, 0, req.replicas),
                                                state := ServiceRunning, updatedAt := doneAt);
      && |s1.containerIds| == (if req.replicas <= 0 then 0 else req.replicas)
      && (forall k :: 0 <= k < |s1.containerIds| ==> s1.containerIds[k] == io(k).id)
      && s1.replicas == req.replicas
  {
  }

  /** `HandleScale`: 400 for a missing ID or a body that does not decode, 404
      for an unknown service, all with no effect. The current count is the
      length of the owned list. Growing appends one new ID per index from the
      current count up to the target; a failed create answers 500 before the
      record is written. Shrinking keeps the first `target` IDs and sweeps the
      rest; a negative target panics on the slice. Every other path stores the
      record with the new replica count and update time: 200, or 500 when
      that write fails. */
  method HandleScale(store: Store, engine: Engine, id: string, body: Option<int>, io: int -> ReplicaIo,
                     so: string -> SweepIo, now: Time, updateOk: bool)
    returns (status: int, result: Option<Service>, ghost reached: int, ghost mid: map<string, Instance>)
    modifies store, engine
    ensures id == "" || body.None? || id !in old(store.services) ==>
              && status == (if id == "" || body.None? then StatusBadRequest else StatusNotFound) && result == None
              && store.services == old(store.services) && store.containers == old(store.containers)
              && engine.containers == old(engine.containers) && engine.calls == old(engine.calls)
    ensures id != "" && body.Some? && id in old(store.services) ==>
              var s := old(store.services)[id];
              var owned := s.containerIds;
              var target := body.value;
              var current := |owned|;
              && (target > current ==>
                    && current <= reached <= target
                    && Grown(old(engine.containers), mid, s, io, current, reached) && engine.containers == mid
                    && store.containers == StoredReplicas(old(store.containers), s, io, current, reached)
                    && (reached < target ==> status == StatusInternalServerError && result == None
                                             && store.services == old(store.services)
                                             && !(PortsValid(s.ports) && io(reached).createOk && io(reached).id !in mid))
                    && (FreshCreates(old(engine.containers), s, io, current, target) ==> reached == target)
                    && (reached == target ==>
                          ScaleAnswered(old(store.services), store.services, status, result,
                                        s.(containerIds := owned + ReplicaIds(io, current, target),
                                           replicas := target, updatedAt := now), updateOk)))
              && (target < 0 ==>
                    status == NoResponse && result == None
                    && store.services == old(store.services) && store.containers == old(store.containers)
                    && engine.containers == old(engine.containers) && engine.calls == old(engine.calls))
              && (0 <= target < current ==>
                    && engine.containers == SweepEngine(old(engine.containers), owned[target..], so)
                    && store.containers == SweepStore(old(store.containers), owned[target..], so)
                    && engine.calls == old(engine.calls) + SweepCalls(owned[target..])
                    && ScaleAnswered(old(store.services), store.services, status, result,
                                     s.(containerIds := owned[..target], replicas := target, updatedAt := now),
                                     updateOk))
              && (target == current ==>
                    && store.containers == old(store.containers) && engine.containers == old(engine.containers)
                    && engine.calls == old(engine.calls)
                    && ScaleAnswered(old(store.services), store.services, status, result,
                                     s.(replicas := target, updatedAt := now), updateOk))
  {
    reached, mid := 0, engine.containers;
    if id == "" || body.None? {
      return StatusBadRequest, None, reached, mid;
    }
    var target := body.value;
    var found := store.GetService(id);
    if found.None? {
      return StatusNotFound, None, reached, mid;
    }
    var service := found.value;
    var current := |service.containerIds|;
    if target > current {
      var added, err;
      added, err, reached, mid := GrowReplicas(store, engine, service, current, target, io);
      if FreshCreates(old(engine.containers), service, io, current, target) {
        GrowCompletes(old(engine.containers), mid, service, io, current, target, reached);
      }
      if err {
        return StatusInternalServerError, None, reached, mid;
      }
      service := service.(containerIds := service.containerIds + added);
    } else if target < current {
      if target < 0 {
        return NoResponse, None, reached, mid;
      }
      var toRemove := service.containerIds[target..current];
      assert toRemove == found.value.containerIds[target..];
      service := service.(containerIds := service.containerIds[..target]);
      Sweep(store, engine, toRemove, so);
    }
    service := service.(replicas := target, updatedAt := now);
    var err := store.PutService(service, updateOk);
    if err {
      return StatusInternalServerError, None, reached, mid;
    }
    return StatusOK, Some(service), reached, mid;
  }

  /** The last step of a scale: `next` is written back under its own ID and
      returned with 200, or the write fails and the answer is 500. */
  ghost predicate ScaleAnswered(services: map<string, Service>, services': map<string, Service>,
                                status: int, result: Option<Service>, next: Service, updateOk: bool)
  {
    && services' == (if updateOk then services[next.id := next] else services)
    && status == (if updateOk then StatusOK else StatusInternalServerError)
    && result == (if updateOk then Some(next) else None)
  }

  /** Shrinking splits the owned list: the kept IDs are its first `target`
      entries, the swept ones exactly the rest, and together they are the
      whole list, in order. */
  lemma ShrinkSplitsOwned(owned: seq<string>, target: int)
    requires 0 <= target < |owned|
    ensures owned[..target] + owned[target..] == owned
    ensures |owned[..target]| == target && |owned[target..]| == |owned| - target
  {
  }

  /** `HandleDelete`: 400 for a missing ID and 404 for an unknown service,
      with no effect. Otherwise every owned ID is swept in list order, no
      failure ending the sweep, and only then is the record deleted: 200, or
      500 when that fails. IDs outside the owned list are never touched. */
  method HandleDelete(store: Store, engine: Engine, id: string, so: string -> SweepIo, deleteOk: bool)
    returns (status: int)
    modifies store, engine
    ensures id == "" || id !in old(store.services) ==>
              && status == (if id == "" then StatusBadRequest else StatusNotFound)
              && store.services == old(store.services) && store.containers == old(store.containers)
              && engine.containers == old(engine.containers) && engine.calls == old(engine.calls)
    ensures id != "" && id in old(store.services) ==>
              var owned := old(store.services)[id].containerIds;
              && engine.containers == SweepEngine(old(engine.containers), owned, so)
              && store.containers == SweepStore(old(store.containers), owned, so)
              && engine.calls == old(engine.calls) + SweepCalls(owned)
              && store.services == (if deleteOk then old(store.services) - {id} else old(store.services))
              && status == (if deleteOk then StatusOK else StatusInternalServerError)
  {
    if id == "" {
      return StatusBadRequest;
    }
    var found := store.GetService(id);
    if found.None? {
      return StatusNotFound;
    }
    Sweep(store, engine, found.value.containerIds, so);
    var err := store.DeleteService(id, deleteOk);
    if err {
      return StatusInternalServerError;
    }
    return StatusOK;
  }

  /** A delete leaves every container outside the owned list as it was, in
      the engine and in the store. */
  lemma DeleteTouchesOnlyOwned(m: map<string, Instance>, sc: map<string, Container>, owned: seq<string>,
                               so: string -> SweepIo, x: string)
    requires x !in owned
    ensures x in m ==> x in SweepEngine(m, owned, so) && SweepEngine(m, owned, so)[x] == m[x]
    ensures x in sc ==> x in SweepStore(sc, owned, so) && SweepStore(sc, owned, so)[x] == sc[x]
  {
    SweepEngineRemoves(m, owned, so);
    SweepStoreRemoves(sc, owned, so);
  }

  /** The record after an update: the template fields come from the request
      and the update time is refreshed; the ID, replica count, state, creation
      time and owned list are kept, so existing replicas keep the old template. */
  function ApplyTemplate(s: Service, req: ServiceCreateRequest, now: Time): (r: Service)
    ensures r.id == s.id && r.replicas == s.replicas && r.state == s.state
    ensures r.createdAt == s.createdAt && r.containerIds == s.containerIds
    ensures r.name == req.name && r.image == req.image && r.command == req.command && r.env == req.env
    ensures r.ports == req.ports && r.resources == req.resources && r.restartPolicy == req.restartPolicy
    ensures r.updatedAt == now
  {
    s.(name := req.name, image := req.image, command := req.command, env := req.env, ports := req.ports,
       resources := req.resources, restartPolicy := req.restartPolicy, updatedAt := now)
  }

  /** Updating twice with the same request at the same time is updating once. */
  lemma ApplyTemplateIdempotent(s: Service, req: ServiceCreateRequest, now: Time)
    ensures ApplyTemplate(ApplyTemplate(s, req, now), req, now) == ApplyTemplate(s, req, now)
  {
  }

  /** `HandleUpdate`: 400 for a missing ID or a body that does not decode (the
      body is read before the lookup), 404 for an unknown service. Otherwise the
      updated record is written back: 200, or 500 when that fails. The engine
      is not involved. */
  method HandleUpdate(store: Store, id: string, body: Option<ServiceCreateRequest>, now: Time, storeOk: bool)
    returns (status: int, result: Option<Service>)
    modifies store
    ensures store.containers == old(store.containers)
    ensures id == "" || body.None? || id !in old(store.services) ==>
              && status == (if id == "" || body.None? then StatusBadRequest else StatusNotFound)
              && result == None && store.services == old(store.services)
    ensures id != "" && body.Some? && id in old(store.services) ==>
              var r := ApplyTemplate(old(store.services)[id], body.value, now);
              && store.services == (if storeOk then old(store.services)[r.id := r] else old(store.services))
              && status == (if storeOk then StatusOK else StatusInternalServerError)
              && result == (if storeOk then Some(r) else None)
  {
    if id == "" || body.None? {
      return StatusBadRequest, None;
    }
    var req := body.value;
    var found := store.GetService(id);
    if found.None? {
      return StatusNotFound, None;
    }
    var service := found.value;
    service := service.(name := req.name, image := req.image, command := req.command, env := req.env);
    service := service.(ports := req.ports, resources := req.resources, restartPolicy := req.restartPolicy);
    service := service.(updatedAt := now);
    var err := store.PutService(service, storeOk);
    if err {
      return StatusInternalServerError, None;
    }
    return StatusOK, Some(service);
  }
}
