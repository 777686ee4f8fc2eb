/** What the translator builds from a service and its profile, field by field and in
    the API's own terms: where each part of a built role comes from.
 */
module Built {
  import opened Types
  import opened Config
  import opened Translator

  // ----- The parts of a pod -----

  /** The first source that is set, with the default type of a host path. */
  predicate VolumeFrom(parse: Parser, v: VolumeSpec, built: Volume) {
    && built.name == v.name
    && if v.hostPath.Some? then
         && built.source.HostPathSource? && built.source.path == v.hostPath.value.path
         && (v.hostPath.value.hostType != "" ==> built.source.hostType == v.hostPath.value.hostType)
         && (v.hostPath.value.hostType == "" ==> built.source.hostType == "Directory")
       else if v.emptyDir.Some? then
         && built.source.EmptyDirSource? && built.source.medium == v.emptyDir.value.medium
         && (v.emptyDir.value.sizeLimit == "" ==> built.source.sizeLimit.None?)
         && (v.emptyDir.value.sizeLimit != "" ==>
               built.source.sizeLimit.Some? && built.source.sizeLimit == parse(v.emptyDir.value.sizeLimit))
       else if v.pvc.Some? then
         built.source.ClaimSource? && built.source.claimName == v.pvc.value.claimName
       else
         built.source.NoSource?
  }

  predicate VolumesFrom(parse: Parser, vs: seq<VolumeSpec>, built: seq<Volume>) {
    |built| == |vs| && forall i :: 0 <= i < |vs| ==> VolumeFrom(parse, vs[i], built[i])
  }

  predicate MountsFrom(ms: seq<VolumeMountSpec>, built: seq<VolumeMount>) {
    && |built| == |ms|
    && forall i :: 0 <= i < |ms| ==>
         built[i].name == ms[i].name && built[i].mountPath == ms[i].mountPath && built[i].readOnly == ms[i].readOnly
  }

  /** Every entry of the user with its quantity, and the GPU count, which wins. */
  predicate ListFrom(parse: Parser, user: map<string, string>, gpu: string, built: map<string, Quantity>) {
    && built.Keys == user.Keys + (if gpu != "" then {"nvidia.com/gpu"} else {})
    && (forall k :: k in user && (gpu == "" || k != "nvidia.com/gpu") ==> Some(built[k]) == parse(user[k]))
    && (gpu != "" ==> Some(built["nvidia.com/gpu"]) == parse(gpu))
  }

  predicate ResourcesFrom(parse: Parser, res: Option<RoleResources>, gpu: string, built: ResourceRequirements) {
    && ListFrom(parse, if res.Some? then res.value.requests else map[], gpu, built.requests)
    && ListFrom(parse, if res.Some? then res.value.limits else map[], gpu, built.limits)
  }

  predicate ProbeFrom(spec: Option<ProbeSpec>, built: Option<Probe>) {
    && (spec.None? <==> built.None?)
    && (spec.Some? && built.Some? ==>
          var p, b := spec.value, built.value;
          && (p.httpPath != "" ==> b.path == p.httpPath) && (p.httpPath == "" ==> b.path == "/health")
          && (p.port != 0 ==> b.port == p.port) && (p.port == 0 ==> b.port == 8000)
          && b.initialDelaySeconds == p.initialDelaySeconds && b.periodSeconds == p.periodSeconds
          && b.timeoutSeconds == p.timeoutSeconds && b.failureThreshold == p.failureThreshold)
  }

  predicate SidecarFrom(rt: EngineRuntime, built: GroupRuntime) {
    && built.profileName == rt.profileName && |built.containers| == |rt.containers|
    && forall j :: 0 <= j < |rt.containers| ==>
         && built.containers[j].name == rt.containers[j].name
         && built.containers[j].args == rt.containers[j].args
         && built.containers[j].env == rt.containers[j].env
  }

  predicate SidecarsFrom(rts: seq<EngineRuntime>, built: seq<GroupRuntime>) {
    |built| == |rts| && forall i :: 0 <= i < |rts| ==> SidecarFrom(rts[i], built[i])
  }

  lemma VolumesAre(parse: Parser, vs: seq<VolumeSpec>)
    requires VolumesParse(parse, vs)
    ensures VolumesFrom(parse, vs, Volumes(parse, vs))
  {
  }

  lemma MountsAre(ms: seq<VolumeMountSpec>)
    ensures MountsFrom(ms, Mounts(ms))
  {
  }

  lemma ResourcesAre(parse: Parser, res: Option<RoleResources>, gpu: string)
    requires ResourcesParse(parse, res, gpu)
    ensures ResourcesFrom(parse, res, gpu, Resources(parse, res, gpu))
  {
  }

  lemma ProbeIs(spec: Option<ProbeSpec>)
    ensures ProbeFrom(spec, ProbeOf(spec))
  {
  }

  lemma SidecarsAre(rts: seq<EngineRuntime>)
    ensures SidecarsFrom(rts, Runtimes(rts))
  {
  }

  // ----- What has to parse -----

  /** The builder reads this quantity text of the service. */
  predicate ReadsText(spec: ServiceSpec, text: string) {
    || (exists v :: v in spec.volumes && v.hostPath.None? && v.emptyDir.Some? &&
                    v.emptyDir.value.sizeLimit == text && text != "")
    || InList(spec.router.resources, text)
    || InList(spec.prefill.resources, text)
    || InList(spec.decode.resources, text)
    || (spec.prefill.gpu == text && text != "") || (spec.decode.gpu == text && text != "")
  }

  predicate InList(res: Option<RoleResources>, text: string) {
    res.Some? && (text in res.value.requests.Values || text in res.value.limits.Values)
  }

  lemma ListParsesIff(parse: Parser, m: map<string, string>)
    ensures ListParses(parse, m) <==> forall text :: text in m.Values ==> parse(text).Some?
  {
    if forall text :: text in m.Values ==> parse(text).Some? {
      forall k | k in m ensures parse(m[k]).Some? {
        assert m[k] in m.Values;
      }
    }
  }

  /** Building succeeds exactly when every quantity text that it reads parses. */
  lemma BuildsIff(parse: Parser, spec: ServiceSpec)
    ensures QuantitiesParse(parse, spec) <==> forall text :: ReadsText(spec, text) ==> parse(text).Some?
  {
    forall res | res in [spec.router.resources, spec.prefill.resources, spec.decode.resources] && res.Some?
      ensures ListParses(parse, res.value.requests) && ListParses(parse, res.value.limits) <==>
              forall text :: InList(res, text) ==> parse(text).Some?
    {
      ListParsesIff(parse, res.value.requests);
      ListParsesIff(parse, res.value.limits);
      assert forall text :: InList(res, text) <==> text in res.value.requests.Values || text in res.value.limits.Values;
    }
    if forall text :: ReadsText(spec, text) ==> parse(text).Some? {
      forall i | 0 <= i < |spec.volumes| ensures VolumeParses(parse, spec.volumes[i]) {
        var v := spec.volumes[i];
        if v.hostPath.None? && v.emptyDir.Some? && v.emptyDir.value.sizeLimit != "" {
          assert v in spec.volumes && ReadsText(spec, v.emptyDir.value.sizeLimit);
        }
      }
    }
  }

  // ----- The roles -----

  /** The parts that all three roles take from their own section of the service. */
  predicate PodFrom(parse: Parser, spec: ServiceSpec, name: string, res: Option<RoleResources>, gpu: string,
                    mounts: seq<VolumeMountSpec>, readiness: Option<ProbeSpec>, liveness: Option<ProbeSpec>,
                    env: seq<EnvVar>, built: RoleSpec)
  {
    && built.name == name && built.workload == Workload("apps/v1", "StatefulSet")
    && VolumesFrom(parse, spec.volumes, built.pod.volumes)
    && |built.pod.containers| == 1
    && var c := built.pod.containers[0];
    && c.name == name && c.env == env
    && ResourcesFrom(parse, res, gpu, c.resources)
    && MountsFrom(mounts, c.volumeMounts)
    && ProbeFrom(readiness, c.readinessProbe) && ProbeFrom(liveness, c.livenessProbe)
  }

  /** A non-empty inline list, or else the profile's. */
  predicate InlineElse<T(==)>(inline: seq<T>, profile: seq<T>, built: seq<T>) {
    (inline != [] ==> built == inline) && (inline == [] ==> built == profile)
  }

  predicate RouterFrom(parse: Parser, spec: ServiceSpec, p: ProfileSpec, built: RoleSpec) {
    var r := spec.router;
    && PodFrom(parse, spec, "router", r.resources, "", r.volumeMounts, r.readinessProbe, r.livenessProbe, [], built)
    && (r.replicas >= 1 ==> built.replicas == r.replicas) && (r.replicas < 1 ==> built.replicas == 1)
    && built.pod.nodeSelector == map[]
    && InlineElse(r.image, p.images.router, built.pod.containers[0].image)
    && InlineElse(r.command, if p.roleCommands.Some? then p.roleCommands.value.router else [],
                  built.pod.containers[0].command)
    && InlineElse(r.args, if p.roleArgs.Some? then p.roleArgs.value.router else [], built.pod.containers[0].args)
    && SidecarsFrom(if p.engineRuntimes.Some? then p.engineRuntimes.value.router else [], built.engineRuntimes)
  }

  /** A prefill or decode role, with the profile's values for that role. */
  predicate InferenceFrom(parse: Parser, spec: ServiceSpec, name: string, r: InferenceRoleSpec, image: string,
                          command: seq<string>, args: seq<string>, runtimes: seq<EngineRuntime>, built: RoleSpec)
  {
    && PodFrom(parse, spec, name, r.resources, r.gpu, r.volumeMounts, r.readinessProbe, r.livenessProbe,
               [EnvVar("POD_IP", EnvFieldRef("status.podIP"))], built)
    && built.replicas == r.replicas
    && (r.gpuType == "" ==> built.pod.nodeSelector == map[])
    && (r.gpuType != "" ==> built.pod.nodeSelector == map["accelerator" := r.gpuType])
    && InlineElse(r.image, image, built.pod.containers[0].image)
    && InlineElse(r.command, command, built.pod.containers[0].command)
    && InlineElse(r.args, args, built.pod.containers[0].args)
    && (r.engineRuntimes != [] ==> SidecarsFrom(r.engineRuntimes, built.engineRuntimes))
    && (r.engineRuntimes == [] ==> SidecarsFrom(runtimes, built.engineRuntimes))
  }

  lemma RouterIs(parse: Parser, spec: ServiceSpec, p: ProfileSpec)
    requires QuantitiesParse(parse, spec)
    ensures RouterFrom(parse, spec, p, RouterRole(parse, spec, Merge(spec, Some(p))))
  {
    var r := spec.router;
    VolumesAre(parse, spec.volumes);
    MountsAre(r.volumeMounts);
    ResourcesAre(parse, r.resources, "");
    ProbeIs(r.readinessProbe);
    ProbeIs(r.livenessProbe);
    SidecarsAre(RouterRuntimes(Merge(spec, Some(p))));
    InlineWins(spec, Some(p));
    ProfileFills(spec, p);
  }

  lemma InferenceIs(parse: Parser, spec: ServiceSpec, name: string, r: InferenceRoleSpec, image: string,
                    command: seq<string>, args: seq<string>, runtimes: seq<EngineRuntime>)
    requires VolumesParse(parse, spec.volumes) && ResourcesParse(parse, r.resources, r.gpu)
    ensures InferenceFrom(parse, spec, name, r, image, command, args, runtimes,
                          InferenceRole(parse, name, spec.volumes, r,
                                        Or(r.image, image), Or(r.command, command), Or(r.args, args), runtimes))
  {
    VolumesAre(parse, spec.volumes);
    MountsAre(r.volumeMounts);
    ResourcesAre(parse, r.resources, r.gpu);
    ProbeIs(r.readinessProbe);
    ProbeIs(r.livenessProbe);
    SidecarsAre(r.engineRuntimes);
    SidecarsAre(runtimes);
  }

  /** Every field of the three roles comes from where the service and its profile have
      it: inline values before the profile's, each role from its own section, and
      nothing else. */
  lemma RolesAre(parse: Parser, spec: ServiceSpec, p: ProfileSpec)
    requires QuantitiesParse(parse, spec)
    ensures
      var roles := Roles(parse, spec, Merge(spec, Some(p)));
      && |roles| == 3
      && RouterFrom(parse, spec, p, roles[0])
      && InferenceFrom(parse, spec, "prefill", spec.prefill, p.images.prefill,
                       if p.roleCommands.Some? then p.roleCommands.value.prefill else [],
                       if p.roleArgs.Some? then p.roleArgs.value.prefill else [],
                       if p.engineRuntimes.Some? then p.engineRuntimes.value.prefill else [], roles[1])
      && InferenceFrom(parse, spec, "decode", spec.decode, p.images.decode,
                       if p.roleCommands.Some? then p.roleCommands.value.decode else [],
                       if p.roleArgs.Some? then p.roleArgs.value.decode else [],
                       if p.engineRuntimes.Some? then p.engineRuntimes.value.decode else [], roles[2])
  {
    RouterIs(parse, spec, p);
    InferenceIs(parse, spec, "prefill", spec.prefill, p.images.prefill,
                if p.roleCommands.Some? then p.roleCommands.value.prefill else [],
                if p.roleArgs.Some? then p.roleArgs.value.prefill else [],
                if p.engineRuntimes.Some? then p.engineRuntimes.value.prefill else []);
    InferenceIs(parse, spec, "decode", spec.decode, p.images.decode,
                if p.roleCommands.Some? then p.roleCommands.value.decode else [],
                if p.roleArgs.Some? then p.roleArgs.value.decode else [],
                if p.engineRuntimes.Some? then p.engineRuntimes.value.decode else []);
  }

  /** Without a profile the roles are those of a profile that has nothing. */
  lemma RolesWithoutProfile(parse: Parser, spec: ServiceSpec)
    ensures Roles(parse, spec, Merge(spec, None)) ==
            Roles(parse, spec, Merge(spec, Some(ProfileSpec(RoleImages("", "", ""), None, None, None))))
  {
    assert Merge(spec, None) == Merge(spec, Some(ProfileSpec(RoleImages("", "", ""), None, None, None)));
  }
}
