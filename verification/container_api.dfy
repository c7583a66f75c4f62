/** The container endpoints: create (with a compensating engine delete when
    the record cannot be stored), start, stop, patch and delete. Each handler
    answers an HTTP status code; a request body that does not decode is `None`. */
module ContainerHandlers {
  import opened Basics
  import opened Models
  import opened DockerEngine
  import opened Persistence
  import opened Runtime

  /** The record a create request describes, under the assigned ID and creation time. */
  function NewContainer(req: ContainerCreateRequest, id: string, now: Time): Container
  {
    Container(id, req.name, req.image, req.command, req.env, req.ports, req.resources,
              Pending, LocalNode, now, None, None, req.restartPolicy, 0, NoHealth, None)
  }

  /** A create request is accepted only with a name and an image. */
  predicate CreateRequestValid(req: ContainerCreateRequest)
  {
    req.name != "" && req.image != ""
  }

  /** The engine outcomes a create meets: the create itself, and the
      compensating delete should the store fail. */
  datatype CreateOutcomes = CreateOutcomes(createOk: bool, storeOk: bool, cleanupOk: bool)

  /** `HandleCreate`: 400 for a body that does not decode or lacks a name or an
      image, with no engine or store call. Otherwise the engine container is
      created first; if that fails, 500 and nothing is stored. If the store
      then fails, the engine container is deleted again (a failure there is
      only logged) and the answer is 500. On success the record, still
      pending (nothing starts it), is stored and 201 is returned. */
  method HandleCreate(store: Store, engine: Engine, body: Option<ContainerCreateRequest>, id: string, now: Time,
                      o: CreateOutcomes)
    returns (status: int, created: Option<Container>)
    modifies store, engine
    ensures store.services == old(store.services)
    ensures body.None? || !CreateRequestValid(body.value) ==>
              status == StatusBadRequest && created == None
              && store.containers == old(store.containers) && engine.containers == old(engine.containers)
              && engine.calls == old(engine.calls)
    ensures body.Some? && CreateRequestValid(body.value) ==>
              var c := NewContainer(body.value, id, now);
              var engineOk := PortsValid(c.ports) && o.createOk && id !in old(engine.containers);
              && (!engineOk ==>
                    status == StatusInternalServerError && created == None
                    && store.containers == old(store.containers) && engine.containers == old(engine.containers)
                    && engine.calls == old(engine.calls) + (if PortsValid(c.ports) then [CreateCall(id)] else []))
              && (engineOk && !o.storeOk ==>
                    status == StatusInternalServerError && created == None
                    && store.containers == old(store.containers)
                    && engine.calls == old(engine.calls) + [CreateCall(id), RemoveCall(id)]
                    && (o.cleanupOk ==> engine.containers == old(engine.containers))
                    && (!o.cleanupOk ==> id in engine.containers && engine.containers - {id} == old(engine.containers)))
              && (engineOk && o.storeOk ==>
                    status == StatusCreated && created == Some(c)
                    && store.containers == old(store.containers)[id := c]
                    && id in engine.containers && engine.containers - {id} == old(engine.containers)
                    && CreatedFrom(engine.containers[id], c)
                    && engine.calls == old(engine.calls) + [CreateCall(id)])
  {
    if body.None? {
      return StatusBadRequest, None;
    }
    var req := body.value;
    if req.name == "" || req.image == "" {
      return StatusBadRequest, None;
    }
    var container := NewContainer(req, id, now);
    var err := CreateContainer(engine, container, o.createOk);
    if err {
      return StatusInternalServerError, None;
    }
    err := store.PutContainer(container, o.storeOk);
    if err {
      ghost var withNew := engine.containers;
      var _ := DeleteContainer(engine, id, o.cleanupOk);
      assert o.cleanupOk ==> engine.containers == withNew - {id};
      return StatusInternalServerError, None;
    }
    return StatusCreated, Some(container);
  }

  /** A successful create leaves the record pending and its engine container
      stopped: nothing in the create path starts it. */
  lemma CreatedNotStarted(req: ContainerCreateRequest, id: string, now: Time, inst: Instance)
    requires CreatedFrom(inst, NewContainer(req, id, now))
    ensures NewContainer(req, id, now).state == Pending && !inst.running
    ensures NewContainer(req, id, now).startedAt.None? && NewContainer(req, id, now).finishedAt.None?
  {
  }

  /** The record after a successful start: only the state and the start time change. */
  function Started(c: Container, now: Time): (r: Container)
    ensures r.state == Running && r.startedAt == Some(now)
    ensures r.(state := c.state, startedAt := c.startedAt) == c
  {
    c.(state := Running, startedAt := Some(now))
  }

  /** The record after a successful stop: only the state and the finish time change. */
  function Stopped(c: Container, now: Time): (r: Container)
    ensures r.state == Succeeded && r.finishedAt == Some(now)
    ensures r.(state := c.state, finishedAt := c.finishedAt) == c
  {
    c.(state := Succeeded, finishedAt := Some(now))
  }

  /** A start followed by a stop keeps the start time and records the stop
      time, whatever state the record was in before: neither checks it. */
  lemma StartThenStop(c: Container, t1: Time, t2: Time)
    ensures var r := Stopped(Started(c, t1), t2);
      r.state == Succeeded && r.startedAt == Some(t1) && r.finishedAt == Some(t2)
      && r.(state := c.state, startedAt := c.startedAt, finishedAt := c.finishedAt) == c
  {
  }

  /** `HandleStart`: 404 for an unknown ID with no engine call; 500 when the
      engine refuses, with the record unchanged; otherwise the record becomes
      running from `now` and is written back, 500 if that write fails (the
      engine container is running all the same). There is no check of the
      state the record was in. */
  method HandleStart(store: Store, engine: Engine, id: string, now: Time, startOk: bool, storeOk: bool)
    returns (status: int, result: Option<Container>)
    modifies store, engine
    ensures store.services == old(store.services)
    ensures id !in old(store.containers) ==>
              status == StatusNotFound && result == None && store.containers == old(store.containers)
              && engine.containers == old(engine.containers) && engine.calls == old(engine.calls)
    ensures id in old(store.containers) ==>
              var c := Started(old(store.containers)[id], now);
              var engineOk := startOk && id in old(engine.containers);
              && engine.calls == old(engine.calls) + [StartCall(id)]
              && (!engineOk ==> status == StatusInternalServerError && result == None
                                && store.containers == old(store.containers)
                                && engine.containers == old(engine.containers))
              && (engineOk ==> engine.containers == old(engine.containers)[id := old(engine.containers)[id].(running := true)]
                               && store.containers == (if storeOk then old(store.containers)[c.id := c] else old(store.containers))
                               && status == (if storeOk then StatusOK else StatusInternalServerError)
                               && result == (if storeOk then Some(c) else None))
  {
    var found := store.GetContainer(id);
    if found.None? {
      return StatusNotFound, None;
    }
    var err := StartContainer(engine, id, startOk);
    if err {
      return StatusInternalServerError, None;
    }
    var container := found.value;
    container := container.(state := Running);
    container := container.(startedAt := Some(now));
    err := store.PutContainer(container, storeOk);
    if err {
      return StatusInternalServerError, None;
    }
    return StatusOK, Some(container);
  }

  /** `HandleStop`: as `HandleStart`, with a stop, state Succeeded and the finish time. */
  method HandleStop(store: Store, engine: Engine, id: string, now: Time, stopOk: bool, storeOk: bool)
    returns (status: int, result: Option<Container>)
    modifies store, engine
    ensures store.services == old(store.services)
    ensures id !in old(store.containers) ==>
              status == StatusNotFound && result == None && store.containers == old(store.containers)
              && engine.containers == old(engine.containers) && engine.calls == old(engine.calls)
    ensures id in old(store.containers) ==>
              var c := Stopped(old(store.containers)[id], now);
              var engineOk := stopOk && id in old(engine.containers);
              && engine.calls == old(engine.calls) + [StopCall(id)]
              && (!engineOk ==> status == StatusInternalServerError && result == None
                                && store.containers == old(store.containers)
                                && engine.containers == old(engine.containers))
              && (engineOk ==> engine.containers == old(engine.containers)[id := old(engine.containers)[id].(running := false)]
                               && store.containers == (if storeOk then old(store.containers)[c.id := c] else old(store.containers))
                               && status == (if storeOk then StatusOK else StatusInternalServerError)
                               && result == (if storeOk then Some(c) else None))
  {
    var found := store.GetContainer(id);
    if found.None? {
      return StatusNotFound, None;
    }
    var err := StopContainer(engine, id, stopOk);
    if err {
      return StatusInternalServerError, None;
    }
    var container := found.value;
    container := container.(state := Succeeded);
    container := container.(finishedAt := Some(now));
    err := store.PutContainer(container, storeOk);
    if err {
      return StatusInternalServerError, None;
    }
    return StatusOK, Some(container);
  }

  /** The record after a patch: the state is always taken from the patch, with
      no transition check; each time is taken only when the patch carries one. */
  function ApplyPatch(c: Container, p: ContainerPatch): (r: Container)
    ensures r.state == p.state
    ensures r.startedAt == (if p.startedAt.Some? then p.startedAt else c.startedAt)
    ensures r.finishedAt == (if p.finishedAt.Some? then p.finishedAt else c.finishedAt)
    ensures r.(state := c.state, startedAt := c.startedAt, finishedAt := c.finishedAt) == c
  {
    var r := c.(state := p.state);
    var r := if p.startedAt.Some? then r.(startedAt := p.startedAt) else r;
    if p.finishedAt.Some? then r.(finishedAt := p.finishedAt) else r
  }

  /** Applying the same patch twice is applying it once. */
  lemma ApplyPatchIdempotent(c: Container, p: ContainerPatch)
    ensures ApplyPatch(ApplyPatch(c, p), p) == ApplyPatch(c, p)
  {
  }

  /** A later patch wins over an earlier one on every field it carries, and the
      earlier one's times survive where the later one carries none. */
  lemma ApplyPatchTwice(c: Container, p: ContainerPatch, q: ContainerPatch)
    ensures ApplyPatch(ApplyPatch(c, p), q) ==
              ApplyPatch(c, ContainerPatch(q.state,
                                           if q.startedAt.Some? then q.startedAt else p.startedAt,
                                           if q.finishedAt.Some? then q.finishedAt else p.finishedAt))
  {
  }

  /** `HandleUpdate`: the record is looked up before the body is read, so an
      unknown ID answers 404 even for a body that does not decode; such a body
      answers 400. Otherwise the patched record is written back: 200, or 500
      when the write fails. No engine call is made. */
  method HandleUpdate(store: Store, id: string, body: Option<ContainerPatch>, storeOk: bool)
    returns (status: int, result: Option<Container>)
    modifies store
    ensures store.services == old(store.services)
    ensures id !in old(store.containers) ==>
              status == StatusNotFound && result == None && store.containers == old(store.containers)
    ensures id in old(store.containers) && body.None? ==>
              status == StatusBadRequest && result == None && store.containers == old(store.containers)
    ensures id in old(store.containers) && body.Some? ==>
              var c := ApplyPatch(old(store.containers)[id], body.value);
              && store.containers == (if storeOk then old(store.containers)[c.id := c] else old(store.containers))
              && status == (if storeOk then StatusOK else StatusInternalServerError)
              && result == (if storeOk then Some(c) else None)
  {
    var found := store.GetContainer(id);
    if found.None? {
      return StatusNotFound, None;
    }
    if body.None? {
      return StatusBadRequest, None;
    }
    var req := body.value;
    var container := found.value;
    container := container.(state := req.state);
    if req.startedAt.Some? {
      container := container.(startedAt := req.startedAt);
    }
    if req.finishedAt.Some? {
      container := container.(finishedAt := req.finishedAt);
    }
    var err := store.PutContainer(container, storeOk);
    if err {
      return StatusInternalServerError, None;
    }
    return StatusOK, Some(container);
  }

  /** `HandleDelete`: 404 for an unknown ID with no engine call. The engine
      container goes first: if that fails, 500 and the record stays. The
      record is deleted only after the engine succeeded: 204, or 500 when the
      store fails (the engine container is gone all the same). */
  method HandleDelete(store: Store, engine: Engine, id: string, removeOk: bool, storeOk: bool)
    returns (status: int)
    modifies store, engine
    ensures store.services == old(store.services)
    ensures id !in old(store.containers) ==>
              status == StatusNotFound && store.containers == old(store.containers)
              && engine.containers == old(engine.containers) && engine.calls == old(engine.calls)
    ensures id in old(store.containers) ==>
              var engineOk := removeOk && id in old(engine.containers);
              && engine.calls == old(engine.calls) + [RemoveCall(id)]
              && engine.containers == (if engineOk then old(engine.containers) - {id} else old(engine.containers))
              && (!engineOk ==> status == StatusInternalServerError && store.containers == old(store.containers))
              && (engineOk ==> store.containers == (if storeOk then old(store.containers) - {id} else old(store.containers))
                               && status == (if storeOk then StatusNoContent else StatusInternalServerError))
    ensures status == StatusNoContent <==> id in old(store.containers) && id !in store.containers
  {
    var found := store.GetContainer(id);
    if found.None? {
      return StatusNotFound;
    }
    var err := DeleteContainer(engine, id, removeOk);
    if err {
      return StatusInternalServerError;
    }
    err := store.DeleteContainer(id, storeOk);
    if err {
      return StatusInternalServerError;
    }
    return StatusNoContent;
  }
}
