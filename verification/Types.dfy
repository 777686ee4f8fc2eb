/** The values that pd-manager passes around: the PDInferenceService and
    PDEngineProfile API types, the part of the RoleBasedGroup API that the
    translator fills in, and the objects as the API server stores them.

    Replica counts, ports and delays are int32 in the API; the modelled code only
    compares and copies them, so they are plain integers here.
 */
module Types {

  datatype Option<+T> = None | Some(value: T)

  // ----- PDInferenceService spec -----

  datatype HostPathVolume = HostPathVolume(path: string, hostType: string)
  datatype EmptyDirVolume = EmptyDirVolume(medium: string, sizeLimit: string)
  datatype PVCVolume = PVCVolume(claimName: string)

  datatype VolumeSpec = VolumeSpec(
    name: string,
    hostPath: Option<HostPathVolume>,
    emptyDir: Option<EmptyDirVolume>,
    pvc: Option<PVCVolume>)

  datatype VolumeMountSpec = VolumeMountSpec(name: string, mountPath: string, readOnly: bool)

  datatype RoleResources = RoleResources(requests: map<string, string>, limits: map<string, string>)

  datatype ProbeSpec = ProbeSpec(
    httpPath: string,
    port: int,
    initialDelaySeconds: int,
    periodSeconds: int,
    timeoutSeconds: int,
    failureThreshold: int)

  datatype EnvSource = EnvValue(text: string) | EnvFieldRef(fieldPath: string)
  datatype EnvVar = EnvVar(name: string, source: EnvSource)

  datatype RuntimeContainer = RuntimeContainer(name: string, args: seq<string>, env: seq<EnvVar>)
  datatype EngineRuntime = EngineRuntime(profileName: string, containers: seq<RuntimeContainer>)

  datatype RouterRoleSpec = RouterRoleSpec(
    image: string,
    replicas: int,
    resources: Option<RoleResources>,
    volumeMounts: seq<VolumeMountSpec>,
    command: seq<string>,
    args: seq<string>,
    readinessProbe: Option<ProbeSpec>,
    livenessProbe: Option<ProbeSpec>)

  datatype InferenceRoleSpec = InferenceRoleSpec(
    image: string,
    replicas: int,
    gpu: string,
    gpuType: string,
    resources: Option<RoleResources>,
    volumeMounts: seq<VolumeMountSpec>,
    command: seq<string>,
    args: seq<string>,
    readinessProbe: Option<ProbeSpec>,
    livenessProbe: Option<ProbeSpec>,
    engineRuntimes: seq<EngineRuntime>)

  datatype HPASpec = HPASpec(minReplicas: Option<int>, maxReplicas: int)
  datatype ScalingSpec = ScalingSpec(decode: Option<HPASpec>, prefill: Option<HPASpec>)

  datatype ServiceSpec = ServiceSpec(
    model: string,
    engine: string,
    volumes: seq<VolumeSpec>,
    router: RouterRoleSpec,
    prefill: InferenceRoleSpec,
    decode: InferenceRoleSpec,
    pdRatio: string,
    engineProfileRef: string,
    scaling: Option<ScalingSpec>)

  // ----- PDEngineProfile spec (the fields the merger reads) -----

  datatype RoleImages = RoleImages(router: string, prefill: string, decode: string)
  datatype RoleStrings = RoleStrings(router: seq<string>, prefill: seq<string>, decode: seq<string>)
  datatype RoleEngineRuntimes = RoleEngineRuntimes(
    router: seq<EngineRuntime>,
    prefill: seq<EngineRuntime>,
    decode: seq<EngineRuntime>)

  datatype ProfileSpec = ProfileSpec(
    images: RoleImages,
    roleCommands: Option<RoleStrings>,
    roleArgs: Option<RoleStrings>,
    engineRuntimes: Option<RoleEngineRuntimes>)

  // ----- PDInferenceService status -----

  datatype Phase = Unset | Pending | Initializing | Running | Failed | Terminating

  datatype ConditionStatus = True | False | Unknown

  datatype Condition = Condition(
    kind: string,
    status: ConditionStatus,
    reason: string,
    message: string,
    lastTransitionTime: int)

  datatype RoleStatus = RoleStatus(name: string, ready: int, total: int)

  datatype EventRecord = EventRecord(reason: string, message: string)

  datatype ServiceStatus = ServiceStatus(
    phase: Phase,
    conditions: seq<Condition>,
    roleStatuses: seq<RoleStatus>,
    lastEvent: Option<EventRecord>)

  const EMPTY_STATUS := ServiceStatus(Unset, [], [], None)

  // ----- RoleBasedGroup -----

  /** A parsed Kubernetes quantity. The parser itself is not part of this
      repository: every builder takes it as a parameter, and `None` stands for the
      texts on which `resource.MustParse` panics. */
  datatype Quantity = Quantity(nanos: int)
  type Parser = string -> Option<Quantity>

  datatype VolumeSource =
    | NoSource
    | HostPathSource(path: string, hostType: string)
    | EmptyDirSource(medium: string, sizeLimit: Option<Quantity>)
    | ClaimSource(claimName: string)

  datatype Volume = Volume(name: string, source: VolumeSource)
  datatype VolumeMount = VolumeMount(name: string, mountPath: string, readOnly: bool)
  datatype ResourceRequirements = ResourceRequirements(
    requests: map<string, Quantity>,
    limits: map<string, Quantity>)

  datatype Probe = Probe(
    path: string,
    port: int,
    initialDelaySeconds: int,
    periodSeconds: int,
    timeoutSeconds: int,
    failureThreshold: int)

  datatype Container = Container(
    name: string,
    image: string,
    command: seq<string>,
    args: seq<string>,
    env: seq<EnvVar>,
    resources: ResourceRequirements,
    volumeMounts: seq<VolumeMount>,
    readinessProbe: Option<Probe>,
    livenessProbe: Option<Probe>)

  datatype PodSpec = PodSpec(
    volumes: seq<Volume>,
    containers: seq<Container>,
    nodeSelector: map<string, string>)

  datatype SidecarContainer = SidecarContainer(name: string, args: seq<string>, env: seq<EnvVar>)
  datatype GroupRuntime = GroupRuntime(profileName: string, containers: seq<SidecarContainer>)

  datatype Workload = Workload(apiVersion: string, kind: string)

  datatype RoleSpec = RoleSpec(
    name: string,
    replicas: int,
    workload: Workload,
    engineRuntimes: seq<GroupRuntime>,
    pod: PodSpec)

  datatype GroupRoleStatus = GroupRoleStatus(name: string, replicas: int, readyReplicas: int)

  datatype GroupStatus = GroupStatus(
    roleStatuses: seq<GroupRoleStatus>,
    conditions: seq<Condition>)

  const NO_GROUP_STATUS := GroupStatus([], [])

  // ----- Stored objects -----

  datatype Key = Key(ns: string, name: string)

  datatype OwnerRef = OwnerRef(name: string, uid: nat)

  /** A stored PDInferenceService. `deleting` says whether the deletion timestamp is set. */
  datatype Service = Service(
    uid: nat,
    rv: nat,
    created: int,
    deleting: bool,
    finalizers: seq<string>,
    spec: ServiceSpec,
    status: ServiceStatus)

  /** A stored RoleBasedGroup. `otherSpec` stands for every spec field besides `roles`. */
  datatype Group = Group(
    uid: nat,
    rv: nat,
    owners: seq<OwnerRef>,
    roles: seq<RoleSpec>,
    otherSpec: string,
    status: GroupStatus)

  const FINALIZER := "pdai.io/finalizer"
}
