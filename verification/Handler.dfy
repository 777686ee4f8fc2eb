/** internal/apiserver/handler/pdinferenceservice.go: the REST handlers that change the
    store. JSON decoding is not modelled; the arguments are the decoded bodies.
 */
module Handler {
  import opened Types
  import opened Scaling
  import opened Invariant
  import opened Controller
  import ApiServer
  import Protocol
  import Webhook

  datatype Code = Success200 | Created201 | BadRequest400 | NotFound404 | Failed500

  const DEFAULT_NAMESPACE := "default"

  /** What schema and webhook ask of a new service. */
  predicate Admitted(st: ApiServer.Store, ns: string, spec: ServiceSpec) {
    var full := Webhook.Defaulted(spec);
    ApiServer.SchemaValid(full) && Webhook.CreateAllowed(full, Key(ns, full.engineProfileRef) in st.profiles)
  }

  /** The server operation behind a PUT of an existing service. */
  function PutReply(st: ApiServer.Store, key: Key, req: PutRequest): (ApiServer.Store, ApiServer.Reply<Service>)
    requires key in st.services
  {
    var s := st.services[key];
    ApiServer.UpdateService(st, key, s.(spec := Scaled(s.spec, req)))
  }

  /** An accepted PUT changes at most the counts it names; a refused one nothing. */
  lemma PutStores(st: ApiServer.Store, key: Key, req: PutRequest)
    requires key in st.services
    ensures
      var (st', reply) := PutReply(st, key, req);
      && (!reply.Ok? ==> st' == st)
      && (reply.Ok? && key in st'.services ==>
            && st'.services[key] == st.services[key].(spec := st'.services[key].spec, rv := st'.services[key].rv)
            && OnlyNamedCounts(Webhook.Defaulted(st.services[key].spec), st'.services[key].spec, req))
  {
    var s := st.services[key];
    ApiServer.UpdateFacts(st, key, s.(spec := Scaled(s.spec, req)));
  }

  class RestHandler {
    const cluster: Cluster

    constructor (cluster: Cluster)
      ensures this.cluster == cluster
    {
      this.cluster := cluster;
    }

    /** 201 means stored: with a new uid, an empty status and a defaulted spec that keeps
        schema and creation rules. Anything else leaves the store as it was. */
    method Create(ns: string, name: string, spec: ServiceSpec, finalizers: seq<string>, now: int) returns (code: Code)
      modifies cluster
      ensures
        var st, key := old(cluster.store), Key(if ns == "" then DEFAULT_NAMESPACE else ns, name);
        var full := Webhook.Defaulted(spec);
        if code == Created201 then
          && key !in st.services && Admitted(st, key.ns, spec)
          && key in cluster.store.services
          && cluster.store.services[key] == Service(st.nextUid, st.nextRv, now, false, finalizers, full, EMPTY_STATUS)
          && ApiServer.OnlyService(st, cluster.store, key)
        else
          code == Failed500 && cluster.store == st && (key in st.services || !Admitted(st, key.ns, spec))
    {
      var space := ns;
      if space == "" {
        space := DEFAULT_NAMESPACE;
      }
      var (st, reply) :=
        ApiServer.CreateService(cluster.store, Key(space, name), spec, finalizers, cluster.store.profiles, now);
      cluster.store := st;
      code := if reply.Ok? then Created201 else Failed500;
    }

    /** Reads the service, assigns the named replica counts in place, writes it back. */
    method Update(name: string, req: PutRequest) returns (code: Code)
      modifies cluster
      ensures
        var st, key := old(cluster.store), Key(DEFAULT_NAMESPACE, name);
        if req.model != "" then
          code == BadRequest400 && cluster.store == st
        else if key !in st.services then
          code == NotFound404 && cluster.store == st
        else
          var (st', reply) := PutReply(st, key, req);
          cluster.store == st' && code == if reply.Ok? then Success200 else Failed500
      ensures code != Success200 ==> cluster.store == old(cluster.store)
      ensures
        var st, key := old(cluster.store), Key(DEFAULT_NAMESPACE, name);
        code == Success200 && key in cluster.store.services ==>
          && key in st.services
          && cluster.store.services[key] ==
             st.services[key].(spec := cluster.store.services[key].spec, rv := cluster.store.services[key].rv)
          && OnlyNamedCounts(Webhook.Defaulted(st.services[key].spec), cluster.store.services[key].spec, req)
    {
      if req.model != "" {
        return BadRequest400;
      }
      var obj := cluster.GetService(Key(DEFAULT_NAMESPACE, name));
      if obj == null {
        return NotFound404;
      }
      PutStores(cluster.store, obj.key, req);
      if req.prefill.Some? {
        obj.spec := obj.spec.(prefill := obj.spec.prefill.(replicas := req.prefill.value));
      }
      if req.decode.Some? {
        obj.spec := obj.spec.(decode := obj.spec.decode.(replicas := req.decode.value));
      }
      var ok := cluster.UpdateService(obj);
      code := if ok then Success200 else Failed500;
    }

    /** Deleting what is not there is a success. */
    method Delete(name: string) returns (code: Code)
      modifies cluster
      ensures cluster.store == ApiServer.DeleteService(old(cluster.store), Key(DEFAULT_NAMESPACE, name)).0
      ensures code == Success200
      ensures
        var st, key := old(cluster.store), Key(DEFAULT_NAMESPACE, name);
        && ApiServer.OnlyService(st, cluster.store, key)
        && (key !in st.services ==> cluster.store == st)
        && (key in cluster.store.services ==>
              && key in st.services
              && cluster.store.services[key] ==
                 st.services[key].(deleting := true, rv := cluster.store.services[key].rv))
        && (key in st.services && !st.services[key].deleting ==>
              (key !in cluster.store.services <==> st.services[key].finalizers == []))
    {
      var key := Key(DEFAULT_NAMESPACE, name);
      var obj := cluster.GetService(key);
      if obj == null {
        return Success200;
      }
      var (st, reply) := ApiServer.DeleteService(cluster.store, key);
      cluster.store := st;
      code := if reply.Ok? || reply.NotFound? then Success200 else Failed500;
    }
  }

  /** An undisturbed PUT on a stored service is accepted exactly when the counts it
      names are within the schema's bounds, and then only these counts change. */
  lemma PutAcceptedIff(st: ApiServer.Store, key: Key, req: PutRequest)
    requires key in st.services && ServiceOk(st.services[key])
    ensures
      var s := st.services[key];
      var (st', reply) := PutReply(st, key, req);
      && (reply.Ok? <==>
            && (req.prefill.Some? ==> 1 <= req.prefill.value <= 100)
            && (req.decode.Some? ==> 1 <= req.decode.value <= 100))
      && (!reply.Ok? ==> st' == st)
      && ApiServer.OnlyService(st, st', key)
      && key in st'.services
      && (reply.Ok? ==>
            && st'.services[key] == s.(spec := st'.services[key].spec, rv := st'.services[key].rv)
            && OnlyNamedCounts(s.spec, st'.services[key].spec, req))
  {
    var s := st.services[key];
    var obj := s.(spec := Scaled(s.spec, req));
    ApiServer.UpdateFacts(st, key, obj);
    ApiServer.CommitFacts(st, key, obj);
    ScaledIs(s.spec, obj.spec, req);
  }

  /** The two steps of a PUT in the protocol, with nothing in between, are the handler's Update. */
  lemma PutStepsAreUpdate(parse: Parser, w: Protocol.World, id: nat, key: Key, req: PutRequest)
    requires id !in w.puts && key in w.store.services && req.model == ""
    ensures
      Protocol.Next(parse, Protocol.Next(parse, w, Protocol.PutRead(id, key, req)), Protocol.PutWrite(id)).store ==
      PutReply(w.store, key, req).0
  {
    var read := Protocol.Next(parse, w, Protocol.PutRead(id, key, req));
    assert read.store == w.store && id in read.puts;
    assert read.puts[id] == Protocol.Put(key, req, w.store.services[key]);
  }

  /** A second delete of the same service changes nothing. */
  lemma DeleteIsIdempotent(st: ApiServer.Store, key: Key)
    requires key in st.services ==> ServiceOk(st.services[key])
    ensures
      var once := ApiServer.DeleteService(st, key).0;
      ApiServer.DeleteService(once, key).0 == once
  {
    if key in st.services {
      ApiServer.CommitFacts(st, key, st.services[key].(deleting := true));
    }
  }
}
