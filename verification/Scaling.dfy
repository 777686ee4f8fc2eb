/** What a PUT request of the REST API asks for. */
module Scaling {
  import opened Types

  datatype PutRequest = PutRequest(model: string, prefill: Option<int>, decode: Option<int>)

  function Scaled(spec: ServiceSpec, req: PutRequest): ServiceSpec {
    spec.(
      prefill := spec.prefill.(replicas := if req.prefill.Some? then req.prefill.value else spec.prefill.replicas),
      decode := spec.decode.(replicas := if req.decode.Some? then req.decode.value else spec.decode.replicas))
  }

  /** The two specs differ at most in the replica counts of prefill and decode, and each
      of these is the one asked for, or the old one when none is. */
  predicate OnlyNamedCounts(was: ServiceSpec, now: ServiceSpec, req: PutRequest) {
    && now == was.(prefill := was.prefill.(replicas := now.prefill.replicas),
                   decode := was.decode.(replicas := now.decode.replicas))
    && (req.prefill.Some? ==> now.prefill.replicas == req.prefill.value)
    && (req.prefill.None? ==> now.prefill.replicas == was.prefill.replicas)
    && (req.decode.Some? ==> now.decode.replicas == req.decode.value)
    && (req.decode.None? ==> now.decode.replicas == was.decode.replicas)
  }

  lemma ScaledIs(was: ServiceSpec, now: ServiceSpec, req: PutRequest)
    ensures now == Scaled(was, req) <==> OnlyNamedCounts(was, now, req)
  {
  }
}
