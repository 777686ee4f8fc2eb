/** What the translation preserves: inlining a profile into the service builds the
    same roles, and volume and resource lists lose nothing but their defaults.
 */
module Faithfulness {
  import opened Types
  import opened Config
  import opened Translator

  // ----- Profile inlining -----

  function ProfilePrefill(p: ProfileSpec): seq<EngineRuntime> {
    if p.engineRuntimes.Some? then p.engineRuntimes.value.prefill else []
  }

  function ProfileDecode(p: ProfileSpec): seq<EngineRuntime> {
    if p.engineRuntimes.Some? then p.engineRuntimes.value.decode else []
  }

  function ProfileRouter(p: ProfileSpec): seq<EngineRuntime> {
    if p.engineRuntimes.Some? then p.engineRuntimes.value.router else []
  }

  /** The service with the profile's values written into its empty fields and the
      profile reference dropped. The router has no inline sidecar field to write to. */
  function Flatten(spec: ServiceSpec, p: ProfileSpec): ServiceSpec {
    var commands, args := ProfileCommands(Some(p)), ProfileArgs(Some(p));
    spec.(
      engineProfileRef := "",
      router := spec.router.(
        image := Or(spec.router.image, p.images.router),
        command := Or(spec.router.command, commands.router),
        args := Or(spec.router.args, args.router)),
      prefill := spec.prefill.(
        image := Or(spec.prefill.image, p.images.prefill),
        command := Or(spec.prefill.command, commands.prefill),
        args := Or(spec.prefill.args, args.prefill),
        engineRuntimes := Or(spec.prefill.engineRuntimes, ProfilePrefill(p))),
      decode := spec.decode.(
        image := Or(spec.decode.image, p.images.decode),
        command := Or(spec.decode.command, commands.decode),
        args := Or(spec.decode.args, args.decode),
        engineRuntimes := Or(spec.decode.engineRuntimes, ProfileDecode(p))))
  }

  lemma FlattenKeepsConfig(spec: ServiceSpec, p: ProfileSpec)
    ensures Merge(Flatten(spec, p), None) == Merge(spec, Some(p)).(engineRuntimes := None)
  {
  }

  lemma FlattenKeepsRole(parse: Parser, name: string, volumes: seq<VolumeSpec>, role: InferenceRoleSpec,
                         flat: InferenceRoleSpec, image: string, command: seq<string>, args: seq<string>,
                         runtimes: seq<EngineRuntime>)
    requires flat == role.(image := flat.image, command := flat.command, args := flat.args,
                           engineRuntimes := Or(role.engineRuntimes, runtimes))
    ensures InferenceRole(parse, name, volumes, flat, image, command, args, []) ==
            InferenceRole(parse, name, volumes, role, image, command, args, runtimes)
  {
    assert Or(flat.engineRuntimes, []) == Or(role.engineRuntimes, runtimes);
  }

  /** Building with a profile and building the flattened service give the same
      roles exactly when the profile has no sidecars for the router. */
  lemma InliningPreservesMeaning(parse: Parser, spec: ServiceSpec, p: ProfileSpec)
    ensures
      var flat := Flatten(spec, p);
      && (QuantitiesParse(parse, flat) <==> QuantitiesParse(parse, spec))
      && (Roles(parse, flat, Merge(flat, None)) == Roles(parse, spec, Merge(spec, Some(p)))
          <==> ProfileRouter(p) == [])
  {
    var flat := Flatten(spec, p);
    var flatCfg, cfg := Merge(flat, None), Merge(spec, Some(p));
    FlattenKeepsConfig(spec, p);
    FlattenKeepsRole(parse, "prefill", spec.volumes, spec.prefill, flat.prefill,
                     cfg.images.prefill, cfg.commands.prefill, cfg.args.prefill, ProfilePrefill(p));
    FlattenKeepsRole(parse, "decode", spec.volumes, spec.decode, flat.decode,
                     cfg.images.decode, cfg.commands.decode, cfg.args.decode, ProfileDecode(p));
    var a, b := Roles(parse, flat, flatCfg), Roles(parse, spec, cfg);
    assert a[1] == b[1] && a[2] == b[2];
    assert a == b <==> a[0] == b[0];
    assert a[0] == b[0].(engineRuntimes := a[0].engineRuntimes);
    assert |a[0].engineRuntimes| == 0 && |b[0].engineRuntimes| == |ProfileRouter(p)|;
  }

  // ----- Volumes -----

  predicate OneSource(v: VolumeSpec) {
    || (v.hostPath.Some? && v.emptyDir.None? && v.pvc.None?)
    || (v.hostPath.None? && v.emptyDir.Some? && v.pvc.None?)
    || (v.hostPath.None? && v.emptyDir.None? && v.pvc.Some?)
  }

  function EffectiveHostType(h: HostPathVolume): string {
    if h.hostType == "" then "Directory" else h.hostType
  }

  predicate SameLimit(parse: Parser, a: string, b: string) {
    if a == "" || b == "" then a == b else parse(a) == parse(b)
  }

  /** Equal up to the default hostPath type and the spelling of the size limit. */
  predicate SameVolume(parse: Parser, a: VolumeSpec, b: VolumeSpec) {
    && a.name == b.name
    && a.pvc == b.pvc
    && match (a.hostPath, b.hostPath) {
         case (Some(x), Some(y)) => x.path == y.path && EffectiveHostType(x) == EffectiveHostType(y)
         case (x, y) => x == y
       }
    && match (a.emptyDir, b.emptyDir) {
         case (Some(x), Some(y)) => x.medium == y.medium && SameLimit(parse, x.sizeLimit, y.sizeLimit)
         case (x, y) => x == y
       }
  }

  lemma VolumeFaithful(parse: Parser, a: VolumeSpec, b: VolumeSpec)
    requires OneSource(a) && OneSource(b)
    requires VolumeParses(parse, a) && VolumeParses(parse, b)
    ensures a.name == b.name && SourceOf(parse, a) == SourceOf(parse, b) <==> SameVolume(parse, a, b)
  {
  }

  /** Two volume lists build the same list exactly when they agree entry by entry:
      names, order and sources can be read back from what was built. */
  lemma VolumesFaithful(parse: Parser, xs: seq<VolumeSpec>, ys: seq<VolumeSpec>)
    requires VolumesParse(parse, xs) && VolumesParse(parse, ys)
    requires forall v :: v in xs || v in ys ==> OneSource(v)
    ensures Volumes(parse, xs) == Volumes(parse, ys) <==>
            |xs| == |ys| && forall i :: 0 <= i < |xs| ==> SameVolume(parse, xs[i], ys[i])
  {
    if |xs| == |ys| {
      forall i | 0 <= i < |xs|
        ensures Volumes(parse, xs)[i] == Volumes(parse, ys)[i] <==> SameVolume(parse, xs[i], ys[i])
      {
        VolumeFaithful(parse, xs[i], ys[i]);
      }
    } else {
      assert |Volumes(parse, xs)| != |Volumes(parse, ys)|;
    }
  }

  // ----- Resources -----

  /** The same entries, each with the same parsed quantity, leaving out some keys. */
  predicate AgreeOff(parse: Parser, a: map<string, string>, b: map<string, string>, out: set<string>) {
    && a.Keys - out == b.Keys - out
    && forall k :: k in a && k in b && k !in out ==> parse(a[k]) == parse(b[k])
  }

  /** What the GPU count of a role overrides. */
  function Overridden(gpu: string): set<string> {
    if gpu == "" then {} else {GPU_RESOURCE}
  }

  function Requests(res: Option<RoleResources>): map<string, string> {
    if res.Some? then res.value.requests else map[]
  }

  function Limits(res: Option<RoleResources>): map<string, string> {
    if res.Some? then res.value.limits else map[]
  }

  lemma ListFaithful(parse: Parser, a: map<string, string>, b: map<string, string>, gpu: string)
    requires ListParses(parse, a) && ListParses(parse, b)
    ensures WithGpu(parse, ParseList(parse, a), gpu) == WithGpu(parse, ParseList(parse, b), gpu)
            <==> AgreeOff(parse, a, b, Overridden(gpu))
  {
    var x, y := WithGpu(parse, ParseList(parse, a), gpu), WithGpu(parse, ParseList(parse, b), gpu);
    var out := Overridden(gpu);
    assert x.Keys == a.Keys + out && y.Keys == b.Keys + out;
    if x == y {
      forall k | k in a && k in b && k !in out
        ensures parse(a[k]) == parse(b[k])
      {
        assert x[k] == y[k];
      }
      assert a.Keys - out == x.Keys - out && b.Keys - out == y.Keys - out;
    }
    if AgreeOff(parse, a, b, out) {
      assert x.Keys == (a.Keys - out) + out && y.Keys == (b.Keys - out) + out;
      forall k | k in x ensures x[k] == y[k] {
        if k !in out {
          assert k in a && k in b;
        }
      }
    }
  }

  /** The built resources forget exactly the user's own GPU entries, and these only when
      the role has a GPU count: everything else is kept up to the parsed quantity. */
  lemma ResourcesFaithful(parse: Parser, a: Option<RoleResources>, b: Option<RoleResources>, gpu: string)
    requires ResourcesParse(parse, a, gpu) && ResourcesParse(parse, b, gpu)
    ensures Resources(parse, a, gpu) == Resources(parse, b, gpu) <==>
            && AgreeOff(parse, Requests(a), Requests(b), Overridden(gpu))
            && AgreeOff(parse, Limits(a), Limits(b), Overridden(gpu))
  {
    ListFaithful(parse, Requests(a), Requests(b), gpu);
    ListFaithful(parse, Limits(a), Limits(b), gpu);
    assert ParseList(parse, map[]) == map[];
  }
}
