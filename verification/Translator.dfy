/** internal/translator/rbg_builder.go: a PDInferenceService and its merged
    configuration become a RoleBasedGroup with the roles router, prefill and decode.

    The functions give the value that is built; the methods are the loops of the
    source, proved against them. A quantity text that does not parse makes
    `resource.MustParse` panic: the methods return `None` there, and `Must` is only
    meaningful on texts that parse.
 */
module Translator {
  import opened Types
  import opened Config

  const GPU_RESOURCE := "nvidia.com/gpu"
  const STATEFUL_SET := Workload("apps/v1", "StatefulSet")
  const POD_IP := EnvVar("POD_IP", EnvFieldRef("status.podIP"))

  function Must(parse: Parser, text: string): Quantity {
    match parse(text)
    case Some(q) => q
    case None => Quantity(0)
  }

  // ----- Volumes and mounts -----

  predicate VolumeParses(parse: Parser, v: VolumeSpec) {
    v.hostPath.None? && v.emptyDir.Some? && v.emptyDir.value.sizeLimit != "" ==>
      parse(v.emptyDir.value.sizeLimit).Some?
  }

  function SourceOf(parse: Parser, v: VolumeSpec): VolumeSource {
    if v.hostPath.Some? then
      HostPathSource(v.hostPath.value.path,
                     if v.hostPath.value.hostType != "" then v.hostPath.value.hostType else "Directory")
    else if v.emptyDir.Some? then
      EmptyDirSource(v.emptyDir.value.medium,
                     if v.emptyDir.value.sizeLimit != "" then Some(Must(parse, v.emptyDir.value.sizeLimit)) else None)
    else if v.pvc.Some? then
      ClaimSource(v.pvc.value.claimName)
    else
      NoSource
  }

  predicate VolumesParse(parse: Parser, vs: seq<VolumeSpec>) {
    forall i :: 0 <= i < |vs| ==> VolumeParses(parse, vs[i])
  }

  function Volumes(parse: Parser, vs: seq<VolumeSpec>): seq<Volume> {
    seq(|vs|, i requires 0 <= i < |vs| => Volume(vs[i].name, SourceOf(parse, vs[i])))
  }

  method BuildVolumes(parse: Parser, vs: seq<VolumeSpec>) returns (r: Option<seq<Volume>>)
    ensures r == if VolumesParse(parse, vs) then Some(Volumes(parse, vs)) else None
  {
    var volumes: seq<Volume> := [];
    for i := 0 to |vs|
      invariant volumes == Volumes(parse, vs[..i])
      invariant VolumesParse(parse, vs[..i])
    {
      var v := vs[i];
      assert vs[..i + 1] == vs[..i] + [v];
      var source := NoSource;
      if v.hostPath.Some? {
        var hostType := "Directory";
        if v.hostPath.value.hostType != "" {
          hostType := v.hostPath.value.hostType;
        }
        source := HostPathSource(v.hostPath.value.path, hostType);
      } else if v.emptyDir.Some? {
        var limit := None;
        if v.emptyDir.value.sizeLimit != "" {
          limit := parse(v.emptyDir.value.sizeLimit);
          if limit.None? {
            assert !VolumeParses(parse, vs[i]);
            return None;
          }
        }
        source := EmptyDirSource(v.emptyDir.value.medium, limit);
      } else if v.pvc.Some? {
        source := ClaimSource(v.pvc.value.claimName);
      }
      volumes := volumes + [Volume(v.name, source)];
    }
    assert vs[..|vs|] == vs;
    return Some(volumes);
  }

  function Mounts(ms: seq<VolumeMountSpec>): seq<VolumeMount> {
    seq(|ms|, i requires 0 <= i < |ms| => VolumeMount(ms[i].name, ms[i].mountPath, ms[i].readOnly))
  }

  method BuildVolumeMounts(ms: seq<VolumeMountSpec>) returns (r: seq<VolumeMount>)
    ensures r == Mounts(ms)
  {
    r := [];
    for i := 0 to |ms|
      invariant r == Mounts(ms[..i])
    {
      assert ms[..i + 1] == ms[..i] + [ms[i]];
      r := r + [VolumeMount(ms[i].name, ms[i].mountPath, ms[i].readOnly)];
    }
    assert ms[..|ms|] == ms;
  }

  // ----- Resources -----

  predicate ListParses(parse: Parser, m: map<string, string>) {
    forall k :: k in m ==> parse(m[k]).Some?
  }

  function ParseList(parse: Parser, m: map<string, string>): map<string, Quantity> {
    map k | k in m :: Must(parse, m[k])
  }

  predicate ResourcesParse(parse: Parser, res: Option<RoleResources>, gpu: string) {
    && (res.Some? ==> ListParses(parse, res.value.requests) && ListParses(parse, res.value.limits))
    && (gpu != "" ==> parse(gpu).Some?)
  }

  function WithGpu(parse: Parser, list: map<string, Quantity>, gpu: string): map<string, Quantity> {
    if gpu == "" then list else list[GPU_RESOURCE := Must(parse, gpu)]
  }

  function Resources(parse: Parser, res: Option<RoleResources>, gpu: string): ResourceRequirements {
    var requests := if res.Some? then ParseList(parse, res.value.requests) else map[];
    var limits := if res.Some? then ParseList(parse, res.value.limits) else map[];
    ResourceRequirements(WithGpu(parse, requests, gpu), WithGpu(parse, limits, gpu))
  }

  /** One `range` loop over a Go map: the keys come in an order that is not fixed,
      so every choice of next key has to lead to the same list. */
  method ParseEntries(parse: Parser, m: map<string, string>) returns (r: Option<map<string, Quantity>>)
    ensures r == if ListParses(parse, m) then Some(ParseList(parse, m)) else None
  {
    var list: map<string, Quantity> := map[];
    var rest := m.Keys;
    while rest != {}
      invariant rest <= m.Keys
      invariant list == map k | k in m && k !in rest :: Must(parse, m[k])
      invariant forall k :: k in m && k !in rest ==> parse(m[k]).Some?
      decreases rest
    {
      var k :| k in rest;
      var q := parse(m[k]);
      if q.None? {
        return None;
      }
      list := list[k := q.value];
      rest := rest - {k};
    }
    assert list == ParseList(parse, m);
    return Some(list);
  }

  /** The GPU entry is written last, so it replaces a user entry of the same name. */
  method BuildResources(parse: Parser, res: Option<RoleResources>, gpu: string)
    returns (r: Option<ResourceRequirements>)
    ensures r == if ResourcesParse(parse, res, gpu) then Some(Resources(parse, res, gpu)) else None
    ensures r.Some? && gpu != "" ==>
              && GPU_RESOURCE in r.value.requests && GPU_RESOURCE in r.value.limits
              && Some(r.value.requests[GPU_RESOURCE]) == parse(gpu) == Some(r.value.limits[GPU_RESOURCE])
    ensures r.Some? ==>
              var requests := if res.Some? then res.value.requests else map[];
              var limits := if res.Some? then res.value.limits else map[];
              && r.value.requests.Keys == requests.Keys + (if gpu != "" then {"nvidia.com/gpu"} else {})
              && r.value.limits.Keys == limits.Keys + (if gpu != "" then {"nvidia.com/gpu"} else {})
              && (forall k :: k in requests && (gpu == "" || k != "nvidia.com/gpu") ==>
                    Some(r.value.requests[k]) == parse(requests[k]))
              && (forall k :: k in limits && (gpu == "" || k != "nvidia.com/gpu") ==>
                    Some(r.value.limits[k]) == parse(limits[k]))
  {
    var req: map<string, Quantity> := map[];
    var lim: map<string, Quantity> := map[];
    if res.Some? {
      var a := ParseEntries(parse, res.value.requests);
      if a.None? {
        return None;
      }
      var b := ParseEntries(parse, res.value.limits);
      if b.None? {
        return None;
      }
      req, lim := a.value, b.value;
    }
    if gpu != "" {
      var q := parse(gpu);
      if q.None? {
        return None;
      }
      req, lim := req[GPU_RESOURCE := q.value], lim[GPU_RESOURCE := q.value];
    }
    return Some(ResourceRequirements(req, lim));
  }

  // ----- Probes and sidecars -----

  function ProbeOf(spec: Option<ProbeSpec>): Option<Probe> {
    if spec.None? then None else
      var p := spec.value;
      Some(Probe(
        if p.httpPath == "" then "/health" else p.httpPath,
        if p.port == 0 then 8000 else p.port,
        p.initialDelaySeconds, p.periodSeconds, p.timeoutSeconds, p.failureThreshold))
  }

  function Sidecars(cs: seq<RuntimeContainer>): seq<SidecarContainer> {
    seq(|cs|, i requires 0 <= i < |cs| => SidecarContainer(cs[i].name, cs[i].args, cs[i].env))
  }

  function Runtimes(rts: seq<EngineRuntime>): (r: seq<GroupRuntime>) {
    seq(|rts|, i requires 0 <= i < |rts| => GroupRuntime(rts[i].profileName, Sidecars(rts[i].containers)))
  }

  method ConvertEngineRuntimes(rts: seq<EngineRuntime>) returns (r: seq<GroupRuntime>)
    ensures r == Runtimes(rts)
  {
    r := [];
    for i := 0 to |rts|
      invariant r == Runtimes(rts[..i])
    {
      assert rts[..i + 1] == rts[..i] + [rts[i]];
      var cs := rts[i].containers;
      var converted: seq<SidecarContainer> := [];
      for j := 0 to |cs|
        invariant converted == Sidecars(cs[..j])
      {
        assert cs[..j + 1] == cs[..j] + [cs[j]];
        converted := converted + [SidecarContainer(cs[j].name, cs[j].args, cs[j].env)];
      }
      assert cs[..|cs|] == cs;
      r := r + [GroupRuntime(rts[i].profileName, converted)];
    }
    assert rts[..|rts|] == rts;
  }

  // ----- Roles -----

  function RouterRuntimes(cfg: Merged): seq<EngineRuntime> {
    if cfg.engineRuntimes.Some? then cfg.engineRuntimes.value.router else []
  }

  function PrefillRuntimes(cfg: Merged): seq<EngineRuntime> {
    if cfg.engineRuntimes.Some? then cfg.engineRuntimes.value.prefill else []
  }

  function DecodeRuntimes(cfg: Merged): seq<EngineRuntime> {
    if cfg.engineRuntimes.Some? then cfg.engineRuntimes.value.decode else []
  }

  function RouterRole(parse: Parser, spec: ServiceSpec, cfg: Merged): RoleSpec {
    var router := spec.router;
    RoleSpec(
      "router",
      if router.replicas < 1 then 1 else router.replicas,
      STATEFUL_SET,
      Runtimes(RouterRuntimes(cfg)),
      PodSpec(
        Volumes(parse, spec.volumes),
        [Container("router", cfg.images.router, cfg.commands.router, cfg.args.router, [],
                   Resources(parse, router.resources, ""), Mounts(router.volumeMounts),
                   ProbeOf(router.readinessProbe), ProbeOf(router.livenessProbe))],
        map[]))
  }

  function InferenceRole(
    parse: Parser, name: string, volumes: seq<VolumeSpec>, role: InferenceRoleSpec,
    image: string, command: seq<string>, args: seq<string>, runtimes: seq<EngineRuntime>): RoleSpec
  {
    RoleSpec(
      name,
      role.replicas,
      STATEFUL_SET,
      Runtimes(Or(role.engineRuntimes, runtimes)),
      PodSpec(
        Volumes(parse, volumes),
        [Container(name, image, command, args, [POD_IP],
                   Resources(parse, role.resources, role.gpu), Mounts(role.volumeMounts),
                   ProbeOf(role.readinessProbe), ProbeOf(role.livenessProbe))],
        if role.gpuType != "" then map["accelerator" := role.gpuType] else map[]))
  }

  function Roles(parse: Parser, spec: ServiceSpec, cfg: Merged): (roles: seq<RoleSpec>)
    ensures |roles| == 3
  {
    [RouterRole(parse, spec, cfg),
     InferenceRole(parse, "prefill", spec.volumes, spec.prefill,
                   cfg.images.prefill, cfg.commands.prefill, cfg.args.prefill, PrefillRuntimes(cfg)),
     InferenceRole(parse, "decode", spec.volumes, spec.decode,
                   cfg.images.decode, cfg.commands.decode, cfg.args.decode, DecodeRuntimes(cfg))]
  }

  /** Every quantity text that the builder reads parses. */
  predicate QuantitiesParse(parse: Parser, spec: ServiceSpec) {
    && VolumesParse(parse, spec.volumes)
    && ResourcesParse(parse, spec.router.resources, "")
    && ResourcesParse(parse, spec.prefill.resources, spec.prefill.gpu)
    && ResourcesParse(parse, spec.decode.resources, spec.decode.gpu)
  }

  /** What the controller asks for: the group's owners and roles. */
  datatype Desired = Desired(owners: seq<OwnerRef>, roles: seq<RoleSpec>)

  function DesiredFor(parse: Parser, name: string, uid: nat, spec: ServiceSpec, cfg: Merged): Desired {
    Desired([OwnerRef(name, uid)], Roles(parse, spec, cfg))
  }

  method BuildRouterRole(parse: Parser, spec: ServiceSpec, cfg: Merged) returns (r: Option<RoleSpec>)
    ensures r == if VolumesParse(parse, spec.volumes) && ResourcesParse(parse, spec.router.resources, "")
                 then Some(RouterRole(parse, spec, cfg)) else None
  {
    var replicas := spec.router.replicas;
    if replicas < 1 {
      replicas := 1;
    }
    var volumes := BuildVolumes(parse, spec.volumes);
    if volumes.None? {
      return None;
    }
    var mounts := BuildVolumeMounts(spec.router.volumeMounts);
    var resources := BuildResources(parse, spec.router.resources, "");
    if resources.None? {
      return None;
    }
    var runtimes: seq<GroupRuntime> := [];
    assert Runtimes([]) == [];
    if cfg.engineRuntimes.Some? {
      runtimes := ConvertEngineRuntimes(cfg.engineRuntimes.value.router);
    }
    return Some(RoleSpec("router", replicas, STATEFUL_SET, runtimes,
                         PodSpec(volumes.value,
                                 [Container("router", cfg.images.router, cfg.commands.router, cfg.args.router, [],
                                            resources.value, mounts,
                                            ProbeOf(spec.router.readinessProbe), ProbeOf(spec.router.livenessProbe))],
                                 map[])));
  }

  method BuildInferenceRole(
    parse: Parser, name: string, volumeSpecs: seq<VolumeSpec>, role: InferenceRoleSpec,
    image: string, command: seq<string>, args: seq<string>, runtimes: seq<EngineRuntime>)
    returns (r: Option<RoleSpec>)
    ensures r == if VolumesParse(parse, volumeSpecs) && ResourcesParse(parse, role.resources, role.gpu)
                 then Some(InferenceRole(parse, name, volumeSpecs, role, image, command, args, runtimes)) else None
  {
    var sidecars: seq<GroupRuntime> := [];
    assert Runtimes([]) == [];
    if |role.engineRuntimes| > 0 {
      sidecars := ConvertEngineRuntimes(role.engineRuntimes);
    } else if |runtimes| > 0 {
      sidecars := ConvertEngineRuntimes(runtimes);
    }
    var volumes := BuildVolumes(parse, volumeSpecs);
    if volumes.None? {
      return None;
    }
    var mounts := BuildVolumeMounts(role.volumeMounts);
    var resources := BuildResources(parse, role.resources, role.gpu);
    if resources.None? {
      return None;
    }
    var pod := PodSpec(volumes.value,
                       [Container(name, image, command, args, [POD_IP], resources.value, mounts,
                                  ProbeOf(role.readinessProbe), ProbeOf(role.livenessProbe))],
                       map[]);
    if role.gpuType != "" {
      pod := pod.(nodeSelector := map["accelerator" := role.gpuType]);
    }
    return Some(RoleSpec(name, role.replicas, STATEFUL_SET, sidecars, pod));
  }

  /** `None` exactly when some quantity text does not parse: that is the only way
      in which Build can fail. */
  method Build(parse: Parser, name: string, uid: nat, spec: ServiceSpec, cfg: Merged) returns (r: Option<Desired>)
    ensures r == if QuantitiesParse(parse, spec) then Some(DesiredFor(parse, name, uid, spec, cfg)) else None
  {
    var router := BuildRouterRole(parse, spec, cfg);
    if router.None? {
      return None;
    }
    var prefill := BuildInferenceRole(parse, "prefill", spec.volumes, spec.prefill,
                                      cfg.images.prefill, cfg.commands.prefill, cfg.args.prefill,
                                      PrefillRuntimes(cfg));
    if prefill.None? {
      return None;
    }
    var decode := BuildInferenceRole(parse, "decode", spec.volumes, spec.decode,
                                     cfg.images.decode, cfg.commands.decode, cfg.args.decode,
                                     DecodeRuntimes(cfg));
    if decode.None? {
      return None;
    }
    return Some(Desired([OwnerRef(name, uid)], [router.value, prefill.value, decode.value]));
  }
}
