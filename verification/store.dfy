/** The durable key-value store: two independent namespaces of records keyed by ID.
    Each write takes the outcome of the underlying transaction as `ok`. */
module Persistence {
  import opened Basics
  import opened Models

  class Store {
    var containers: map<string, Container>
    var services: map<string, Service>

    constructor ()
      ensures containers == map[] && services == map[]
    {
      containers := map[];
      services := map[];
    }

    method GetContainer(id: string) returns (r: Option<Container>)
      ensures r == if id in containers then Some(containers[id]) else None
    {
      r := if id in containers then Some(containers[id]) else None;
    }

    /** Both `CreateContainer` and `UpdateContainer` are a plain overwrite of the key. */
    method PutContainer(c: Container, ok: bool) returns (err: bool)
      modifies this
      ensures err == !ok
      ensures containers == if ok then old(containers)[c.id := c] else old(containers)
      ensures services == old(services)
    {
      err := !ok;
      if ok {
        containers := containers[c.id := c];
      }
    }

    /** Deleting an absent key is not an error. */
    method DeleteContainer(id: string, ok: bool) returns (err: bool)
      modifies this
      ensures err == !ok
      ensures containers == if ok then old(containers) - {id} else old(containers)
      ensures services == old(services)
    {
      err := !ok;
      if ok {
        containers := containers - {id};
      }
    }

    /** A full scan; `keys` says which key each listed record came from. */
    method ListContainers(ok: bool) returns (r: Option<seq<Container>>, ghost keys: seq<string>)
      ensures r.Some? == ok
      ensures ok ==> Enumerates(keys, containers) && |r.value| == |keys|
      ensures ok ==> forall i :: 0 <= i < |keys| ==> r.value[i] == containers[keys[i]]
    {
      keys := [];
      if !ok {
        return None, keys;
      }
      var ks := EnumerateKeys(containers);
      keys := ks;
      var m := containers;
      r := Some(seq(|ks|, i requires 0 <= i < |ks| => m[ks[i]]));
    }

    method GetService(id: string) returns (r: Option<Service>)
      ensures r == if id in services then Some(services[id]) else None
    {
      r := if id in services then Some(services[id]) else None;
    }

    /** Both `CreateService` and `UpdateService` are a plain overwrite of the key. */
    method PutService(s: Service, ok: bool) returns (err: bool)
      modifies this
      ensures err == !ok
      ensures services == if ok then old(services)[s.id := s] else old(services)
      ensures containers == old(containers)
    {
      err := !ok;
      if ok {
        services := services[s.id := s];
      }
    }

    method DeleteService(id: string, ok: bool) returns (err: bool)
      modifies this
      ensures err == !ok
      ensures services == if ok then old(services) - {id} else old(services)
      ensures containers == old(containers)
    {
      err := !ok;
      if ok {
        services := services - {id};
      }
    }

    method ListServices(ok: bool) returns (r: Option<seq<Service>>, ghost keys: seq<string>)
      ensures r.Some? == ok
      ensures ok ==> Enumerates(keys, services) && |r.value| == |keys|
      ensures ok ==> forall i :: 0 <= i < |keys| ==> r.value[i] == services[keys[i]]
    {
      keys := [];
      if !ok {
        return None, keys;
      }
      var ks := EnumerateKeys(services);
      keys := ks;
      var m := services;
      r := Some(seq(|ks|, i requires 0 <= i < |ks| => m[ks[i]]));
    }
  }
}
