/** internal/webhook/v1alpha1/pdinferenceservice_webhook.go: defaulting, the checks on
    creation, the immutable fields on update, and what accepted volume mounts mean
    for the pods that are built.
 */
module Webhook {
  import opened Types
  import opened Config
  import opened Objects
  import opened Translator

  datatype FieldError =
    | ModelRequired
    | ReplicasTooSmall(role: string)
    | ProfileNotFound
    | ImageRequired(role: string)
    | ArgsRequired(role: string)
    | DanglingMount(role: string, index: nat, name: string)
    | RatioConflict
    | Immutable(name: string)

  // ----- Defaulting -----

  function Defaulted(spec: ServiceSpec): ServiceSpec {
    spec.(
      engine := if spec.engine == "" then "sglang" else spec.engine,
      router := spec.router.(replicas := if spec.router.replicas < 1 then 1 else spec.router.replicas))
  }

  method Default(obj: ServiceObject)
    modifies obj`spec
    ensures obj.spec == Defaulted(old(obj.spec))
    ensures obj.spec.engine == if old(obj.spec.engine) == "" then "sglang" else old(obj.spec.engine)
    ensures obj.spec.router.replicas ==
            if old(obj.spec.router.replicas) < 1 then 1 else old(obj.spec.router.replicas)
    ensures obj.spec == old(obj.spec).(
                          engine := obj.spec.engine,
                          router := old(obj.spec.router).(replicas := obj.spec.router.replicas))
  {
    if obj.spec.engine == "" {
      obj.spec := obj.spec.(engine := "sglang");
    }
    if obj.spec.router.replicas < 1 {
      obj.spec := obj.spec.(router := obj.spec.router.(replicas := 1));
    }
  }

  /** A spec needs no defaulting exactly when it names an engine and asks for at least
      one router; a missing engine becomes sglang, a router count below 1 becomes 1. */
  lemma DefaultedIs(spec: ServiceSpec)
    ensures Defaulted(spec) == spec <==> spec.engine != "" && spec.router.replicas >= 1
    ensures spec.engine == "" ==> Defaulted(spec).engine == "sglang"
    ensures spec.engine != "" ==> Defaulted(spec).engine == spec.engine
    ensures spec.router.replicas < 1 ==> Defaulted(spec).router.replicas == 1
    ensures Defaulted(spec).(engine := spec.engine, router := spec.router) == spec
    ensures Defaulted(spec).router.(replicas := spec.router.replicas) == spec.router
  {
  }

  // ----- Volume mounts -----

  /** The mounts of one role that name no volume, in order. */
  function DanglingIn(names: set<string>, ms: seq<VolumeMountSpec>, role: string): seq<FieldError> {
    if ms == [] then []
    else
      var i := |ms| - 1;
      DanglingIn(names, ms[..i], role) +
      (if ms[i].name in names then [] else [DanglingMount(role, i, ms[i].name)])
  }

  function VolumeNames(vs: seq<VolumeSpec>): set<string> {
    set v | v in vs :: v.name
  }

  function DanglingMounts(spec: ServiceSpec): seq<FieldError> {
    var names := VolumeNames(spec.volumes);
    DanglingIn(names, spec.router.volumeMounts, "router") +
    DanglingIn(names, spec.prefill.volumeMounts, "prefill") +
    DanglingIn(names, spec.decode.volumeMounts, "decode")
  }

  method CheckMounts(names: set<string>, ms: seq<VolumeMountSpec>, role: string, before: seq<FieldError>)
    returns (errs: seq<FieldError>)
    ensures errs == before + DanglingIn(names, ms, role)
  {
    errs := before;
    for i := 0 to |ms|
      invariant errs == before + DanglingIn(names, ms[..i], role)
    {
      assert ms[..i + 1][..i] == ms[..i];
      if ms[i].name !in names {
        errs := errs + [DanglingMount(role, i, ms[i].name)];
      }
    }
    assert ms[..|ms|] == ms;
  }

  /** This mount of this role names no volume of the service. */
  predicate IsDangling(spec: ServiceSpec, e: FieldError) {
    && e.DanglingMount?
    && (|| (e.role == "router" && e.index < |spec.router.volumeMounts| &&
            e.name == spec.router.volumeMounts[e.index].name)
        || (e.role == "prefill" && e.index < |spec.prefill.volumeMounts| &&
            e.name == spec.prefill.volumeMounts[e.index].name)
        || (e.role == "decode" && e.index < |spec.decode.volumeMounts| &&
            e.name == spec.decode.volumeMounts[e.index].name))
    && forall v :: v in spec.volumes ==> v.name != e.name
  }

  /** Router before prefill before decode, and within a role by index. */
  predicate MountBefore(a: FieldError, b: FieldError) {
    && a.DanglingMount? && b.DanglingMount?
    && (|| (a.role == b.role && a.index < b.index)
        || (a.role == "router" && (b.role == "prefill" || b.role == "decode"))
        || (a.role == "prefill" && b.role == "decode"))
  }

  /** The dangling mounts of one role. */
  predicate IsDanglingIn(spec: ServiceSpec, ms: seq<VolumeMountSpec>, role: string, e: FieldError) {
    && e.DanglingMount? && e.role == role && e.index < |ms| && e.name == ms[e.index].name
    && forall v :: v in spec.volumes ==> v.name != e.name
  }

  predicate OfRole(errs: seq<FieldError>, role: string) {
    forall i :: 0 <= i < |errs| ==> errs[i].DanglingMount? && errs[i].role == role
  }

  lemma RoleReport(spec: ServiceSpec, ms: seq<VolumeMountSpec>, role: string)
    ensures
      var errs := DanglingIn(VolumeNames(spec.volumes), ms, role);
      && (forall e :: e in errs <==> IsDanglingIn(spec, ms, role, e))
      && OfRole(errs, role)
      && (forall a, b :: 0 <= a < b < |errs| ==> MountBefore(errs[a], errs[b]))
  {
    var names := VolumeNames(spec.volumes);
    var errs := DanglingIn(names, ms, role);
    DanglingExact(names, ms, role);
    forall e ensures e in errs <==> IsDanglingIn(spec, ms, role, e) {
      assert e.DanglingMount? ==> (e.name !in names <==> forall v :: v in spec.volumes ==> v.name != e.name);
    }
    assert forall i :: 0 <= i < |errs| ==> errs[i] in errs;
  }

  lemma OrderedConcat(x: seq<FieldError>, y: seq<FieldError>, z: seq<FieldError>)
    requires OfRole(x, "router") && OfRole(y, "prefill") && OfRole(z, "decode")
    requires forall a, b :: 0 <= a < b < |x| ==> MountBefore(x[a], x[b])
    requires forall a, b :: 0 <= a < b < |y| ==> MountBefore(y[a], y[b])
    requires forall a, b :: 0 <= a < b < |z| ==> MountBefore(z[a], z[b])
    ensures forall a, b :: 0 <= a < b < |x + y + z| ==> MountBefore((x + y + z)[a], (x + y + z)[b])
  {
  }

  lemma OneOfThree(spec: ServiceSpec, e: FieldError)
    ensures IsDangling(spec, e) <==>
              || IsDanglingIn(spec, spec.router.volumeMounts, "router", e)
              || IsDanglingIn(spec, spec.prefill.volumeMounts, "prefill", e)
              || IsDanglingIn(spec, spec.decode.volumeMounts, "decode", e)
  {
  }

  /** The report is exactly the dangling mounts of all three roles, each once, in order. */
  lemma DanglingMountsAre(spec: ServiceSpec)
    ensures forall e :: e in DanglingMounts(spec) <==> IsDangling(spec, e)
    ensures forall a, b :: 0 <= a < b < |DanglingMounts(spec)| ==>
              MountBefore(DanglingMounts(spec)[a], DanglingMounts(spec)[b])
  {
    var names := VolumeNames(spec.volumes);
    RoleReport(spec, spec.router.volumeMounts, "router");
    RoleReport(spec, spec.prefill.volumeMounts, "prefill");
    RoleReport(spec, spec.decode.volumeMounts, "decode");
    var x, y, z :=
      DanglingIn(names, spec.router.volumeMounts, "router"),
      DanglingIn(names, spec.prefill.volumeMounts, "prefill"),
      DanglingIn(names, spec.decode.volumeMounts, "decode");
    OrderedConcat(x, y, z);
    forall e ensures e in DanglingMounts(spec) <==> IsDangling(spec, e) {
      assert e in DanglingMounts(spec) <==> e in x || e in y || e in z;
      OneOfThree(spec, e);
    }
  }

  method ValidateVolumeMounts(spec: ServiceSpec) returns (errs: seq<FieldError>)
    ensures errs == DanglingMounts(spec)
    ensures forall e :: e in errs <==> IsDangling(spec, e)
    ensures forall a, b :: 0 <= a < b < |errs| ==> MountBefore(errs[a], errs[b])
  {
    DanglingMountsAre(spec);
    var names: set<string> := {};
    for i := 0 to |spec.volumes|
      invariant names == VolumeNames(spec.volumes[..i])
    {
      names := names + {spec.volumes[i].name};
      assert spec.volumes[..i + 1] == spec.volumes[..i] + [spec.volumes[i]];
    }
    assert spec.volumes[..|spec.volumes|] == spec.volumes;
    errs := CheckMounts(names, spec.router.volumeMounts, "router", []);
    errs := CheckMounts(names, spec.prefill.volumeMounts, "prefill", errs);
    errs := CheckMounts(names, spec.decode.volumeMounts, "decode", errs);
  }

  /** The reported errors are exactly the dangling mounts of the role, each once, by
      increasing index. */
  lemma {:induction false} DanglingExact(names: set<string>, ms: seq<VolumeMountSpec>, role: string)
    ensures
      var errs := DanglingIn(names, ms, role);
      && (forall e :: e in errs <==>
            e.DanglingMount? && e.role == role && e.index < |ms| && e.name == ms[e.index].name && e.name !in names)
      && (forall a, b :: 0 <= a < b < |errs| ==> errs[a].index < errs[b].index)
  {
    if ms != [] {
      var i := |ms| - 1;
      DanglingExact(names, ms[..i], role);
      var init, errs := DanglingIn(names, ms[..i], role), DanglingIn(names, ms, role);
      assert forall e :: e in errs <==> e in init || (ms[i].name !in names && e == DanglingMount(role, i, ms[i].name));
      forall e: FieldError |
        e.DanglingMount? && e.role == role && e.index < |ms| && e.name == ms[e.index].name && e.name !in names
        ensures e in errs
      {
        if e.index < i {
          assert e in init;
        }
      }
      forall a, b | 0 <= a < b < |errs|
        ensures errs[a].index < errs[b].index
      {
        if b == |init| {
          assert init[a] in init;
        }
      }
    }
  }

  predicate MountsResolve(pod: PodSpec) {
    forall c, m :: c in pod.containers && m in c.volumeMounts ==> exists v :: v in pod.volumes && v.name == m.name
  }

  lemma MountsResolveIff(parse: Parser, volumes: seq<VolumeSpec>, ms: seq<VolumeMountSpec>, role: string, pod: PodSpec)
    requires pod.volumes == Volumes(parse, volumes)
    requires |pod.containers| == 1 && pod.containers[0].volumeMounts == Mounts(ms)
    ensures MountsResolve(pod) <==> DanglingIn(VolumeNames(volumes), ms, role) == []
  {
    var names := VolumeNames(volumes);
    var errs := DanglingIn(names, ms, role);
    DanglingExact(names, ms, role);
    var c := pod.containers[0];
    if errs == [] {
      forall d, m | d in pod.containers && m in d.volumeMounts
        ensures exists v :: v in pod.volumes && v.name == m.name
      {
        assert d == c;
        var i :| 0 <= i < |ms| && Mounts(ms)[i] == m;
        var e := DanglingMount(role, i, ms[i].name);
        assert e in errs <==> e.name !in names;
        var j :| 0 <= j < |volumes| && volumes[j].name == m.name;
        assert pod.volumes[j].name == m.name;
      }
    } else {
      var e := errs[0];
      assert e in errs;
      var m := Mounts(ms)[e.index];
      assert c in pod.containers && m in c.volumeMounts;
      forall v | v in pod.volumes ensures v.name != m.name {
        var j :| 0 <= j < |volumes| && pod.volumes[j] == v;
        assert volumes[j].name in names;
      }
    }
  }

  /** The mount check passes exactly when every container mount of all three built
      pods names a volume of its pod. */
  lemma MountIntegrity(parse: Parser, spec: ServiceSpec, cfg: Merged)
    ensures
      var roles := Roles(parse, spec, cfg);
      DanglingMounts(spec) == [] <==>
      MountsResolve(roles[0].pod) && MountsResolve(roles[1].pod) && MountsResolve(roles[2].pod)
  {
    var roles := Roles(parse, spec, cfg);
    MountsResolveIff(parse, spec.volumes, spec.router.volumeMounts, "router", roles[0].pod);
    MountsResolveIff(parse, spec.volumes, spec.prefill.volumeMounts, "prefill", roles[1].pod);
    MountsResolveIff(parse, spec.volumes, spec.decode.volumeMounts, "decode", roles[2].pod);
  }

  // ----- Creation -----

  /** What a service without a profile has to bring itself. */
  predicate InlineComplete(spec: ServiceSpec) {
    && spec.router.image != "" && spec.prefill.image != "" && spec.decode.image != ""
    && spec.router.args != [] && spec.prefill.args != [] && spec.decode.args != []
  }

  /** A fixed ratio and autoscaling of prefill exclude each other. */
  predicate RatioClashes(spec: ServiceSpec) {
    spec.pdRatio != "" && spec.scaling.Some? && spec.scaling.value.prefill.Some?
  }

  /** The creation rules. */
  predicate CreateAllowed(spec: ServiceSpec, profileExists: bool) {
    && spec.model != ""
    && spec.prefill.replicas >= 1
    && spec.decode.replicas >= 1
    && (spec.engineProfileRef != "" ==> profileExists)
    && (spec.engineProfileRef == "" ==> InlineComplete(spec))
    && DanglingMounts(spec) == []
    && !RatioClashes(spec)
  }

  /** Which rule each error reports. */
  predicate Violates(spec: ServiceSpec, profileExists: bool, e: FieldError) {
    var inline := spec.engineProfileRef == "";
    match e
    case ModelRequired => spec.model == ""
    case ReplicasTooSmall(role) =>
      || (role == "prefill" && spec.prefill.replicas < 1)
      || (role == "decode" && spec.decode.replicas < 1)
    case ProfileNotFound => !inline && !profileExists
    case ImageRequired(role) =>
      inline &&
      (|| (role == "router" && spec.router.image == "")
       || (role == "prefill" && spec.prefill.image == "")
       || (role == "decode" && spec.decode.image == ""))
    case ArgsRequired(role) =>
      inline &&
      (|| (role == "router" && spec.router.args == [])
       || (role == "prefill" && spec.prefill.args == [])
       || (role == "decode" && spec.decode.args == []))
    case DanglingMount(_, _, _) => e in DanglingMounts(spec)
    case RatioConflict => RatioClashes(spec)
    case Immutable(_) => false
  }

  function When(c: bool, e: FieldError): seq<FieldError> {
    if c then [e] else []
  }

  lemma DanglingMountsAreMounts(spec: ServiceSpec)
    ensures forall e :: e in DanglingMounts(spec) ==> e.DanglingMount?
  {
    var names := VolumeNames(spec.volumes);
    DanglingExact(names, spec.router.volumeMounts, "router");
    DanglingExact(names, spec.prefill.volumeMounts, "prefill");
    DanglingExact(names, spec.decode.volumeMounts, "decode");
  }

  method ValidateInlineRoles(spec: ServiceSpec) returns (errs: seq<FieldError>)
    requires spec.engineProfileRef == ""
    ensures forall e :: e in errs <==> (e.ImageRequired? || e.ArgsRequired?) && Violates(spec, true, e)
  {
    var images :=
      When(spec.router.image == "", ImageRequired("router")) +
      When(spec.prefill.image == "", ImageRequired("prefill")) +
      When(spec.decode.image == "", ImageRequired("decode"));
    var args :=
      When(|spec.router.args| == 0, ArgsRequired("router")) +
      When(|spec.prefill.args| == 0, ArgsRequired("prefill")) +
      When(|spec.decode.args| == 0, ArgsRequired("decode"));
    assert forall e :: e in images <==> e.ImageRequired? && Violates(spec, true, e);
    assert forall e :: e in args <==> e.ArgsRequired? && Violates(spec, true, e);
    errs := images + args;
  }

  /** Model, replica counts and profile. */
  method ValidateFields(spec: ServiceSpec, profileExists: bool) returns (errs: seq<FieldError>)
    ensures forall e :: e in errs <==>
              && (e.ModelRequired? || e.ReplicasTooSmall? || e.ProfileNotFound?)
              && Violates(spec, profileExists, e)
  {
    errs :=
      When(spec.model == "", ModelRequired) +
      When(spec.prefill.replicas < 1, ReplicasTooSmall("prefill")) +
      When(spec.decode.replicas < 1, ReplicasTooSmall("decode")) +
      When(spec.engineProfileRef != "" && !profileExists, ProfileNotFound);
  }

  lemma ReportedMountsAre(spec: ServiceSpec, profileExists: bool, errs: seq<FieldError>)
    requires forall e :: e in errs <==> Violates(spec, profileExists, e)
    ensures forall e :: e in errs && e.DanglingMount? <==> IsDangling(spec, e)
  {
    DanglingMountsAre(spec);
    forall e ensures e in errs && e.DanglingMount? <==> IsDangling(spec, e) {
      assert e in errs <==> Violates(spec, profileExists, e);
      if e.DanglingMount? {
        assert Violates(spec, profileExists, e) <==> e in DanglingMounts(spec);
      }
    }
  }

  /** The creation rules, each with its error. */
  lemma ReportedFieldsAre(spec: ServiceSpec, profileExists: bool, errs: seq<FieldError>)
    requires forall e :: e in errs <==> Violates(spec, profileExists, e)
    ensures ModelRequired in errs <==> spec.model == ""
    ensures ReplicasTooSmall("prefill") in errs <==> spec.prefill.replicas < 1
    ensures ReplicasTooSmall("decode") in errs <==> spec.decode.replicas < 1
    ensures ProfileNotFound in errs <==> spec.engineProfileRef != "" && !profileExists
    ensures ImageRequired("router") in errs <==> spec.engineProfileRef == "" && spec.router.image == ""
    ensures ImageRequired("prefill") in errs <==> spec.engineProfileRef == "" && spec.prefill.image == ""
    ensures ImageRequired("decode") in errs <==> spec.engineProfileRef == "" && spec.decode.image == ""
    ensures ArgsRequired("router") in errs <==> spec.engineProfileRef == "" && spec.router.args == []
    ensures ArgsRequired("prefill") in errs <==> spec.engineProfileRef == "" && spec.prefill.args == []
    ensures ArgsRequired("decode") in errs <==> spec.engineProfileRef == "" && spec.decode.args == []
    ensures RatioConflict in errs <==>
              spec.pdRatio != "" && spec.scaling.Some? && spec.scaling.value.prefill.Some?
  {
  }

  method ValidateCreate(spec: ServiceSpec, profileExists: bool) returns (errs: seq<FieldError>)
    ensures forall e :: e in errs <==> Violates(spec, profileExists, e)
    ensures errs == [] <==> CreateAllowed(spec, profileExists)
    ensures ModelRequired in errs <==> spec.model == ""
    ensures ReplicasTooSmall("prefill") in errs <==> spec.prefill.replicas < 1
    ensures ReplicasTooSmall("decode") in errs <==> spec.decode.replicas < 1
    ensures ProfileNotFound in errs <==> spec.engineProfileRef != "" && !profileExists
    ensures ImageRequired("router") in errs <==> spec.engineProfileRef == "" && spec.router.image == ""
    ensures ImageRequired("prefill") in errs <==> spec.engineProfileRef == "" && spec.prefill.image == ""
    ensures ImageRequired("decode") in errs <==> spec.engineProfileRef == "" && spec.decode.image == ""
    ensures ArgsRequired("router") in errs <==> spec.engineProfileRef == "" && spec.router.args == []
    ensures ArgsRequired("prefill") in errs <==> spec.engineProfileRef == "" && spec.prefill.args == []
    ensures ArgsRequired("decode") in errs <==> spec.engineProfileRef == "" && spec.decode.args == []
    ensures RatioConflict in errs <==>
              spec.pdRatio != "" && spec.scaling.Some? && spec.scaling.value.prefill.Some?
    ensures forall e :: e in errs && e.DanglingMount? <==> IsDangling(spec, e)
  {
    var fields := ValidateFields(spec, profileExists);
    var inline: seq<FieldError> := [];
    if spec.engineProfileRef == "" {
      inline := ValidateInlineRoles(spec);
    }
    var mounts := ValidateVolumeMounts(spec);
    var ratio := When(spec.pdRatio != "" && spec.scaling.Some? && spec.scaling.value.prefill.Some?, RatioConflict);
    errs := fields + inline + mounts + ratio;
    DanglingMountsAreMounts(spec);
    forall e ensures e in errs <==> Violates(spec, profileExists, e) {
      assert e in errs <==> e in fields || e in inline || e in mounts || e in ratio;
      assert e.ImageRequired? || e.ArgsRequired? ==>
          (e in inline <==> Violates(spec, profileExists, e)) && e !in fields && e !in mounts;
    }
    AllowedIffNoViolation(spec, profileExists);
    assert errs != [] ==> errs[0] in errs;
    ReportedFieldsAre(spec, profileExists, errs);
    ReportedMountsAre(spec, profileExists, errs);
  }

  lemma AllowedIffNoViolation(spec: ServiceSpec, profileExists: bool)
    ensures CreateAllowed(spec, profileExists) <==> forall e :: !Violates(spec, profileExists, e)
  {
    DanglingMountsAreMounts(spec);
    if CreateAllowed(spec, profileExists) {
    } else if DanglingMounts(spec) != [] {
      var e := DanglingMounts(spec)[0];
      assert e in DanglingMounts(spec) && Violates(spec, profileExists, e);
    } else {
      assert
        || Violates(spec, profileExists, ModelRequired)
        || Violates(spec, profileExists, ReplicasTooSmall("prefill"))
        || Violates(spec, profileExists, ReplicasTooSmall("decode"))
        || Violates(spec, profileExists, ProfileNotFound)
        || Violates(spec, profileExists, ImageRequired("router"))
        || Violates(spec, profileExists, ImageRequired("prefill"))
        || Violates(spec, profileExists, ImageRequired("decode"))
        || Violates(spec, profileExists, ArgsRequired("router"))
        || Violates(spec, profileExists, ArgsRequired("prefill"))
        || Violates(spec, profileExists, ArgsRequired("decode"))
        || Violates(spec, profileExists, RatioConflict);
    }
  }

  // ----- Update -----

  /** The only fields an update must leave alone; replicas, images, args, mounts and
      everything else may change, whatever the comment in the source says. */
  predicate UpdateAllowed(was: ServiceSpec, now: ServiceSpec) {
    was.model == now.model && was.engine == now.engine && was.engineProfileRef == now.engineProfileRef
  }

  method ValidateUpdate(was: ServiceSpec, now: ServiceSpec) returns (errs: seq<FieldError>)
    ensures errs == [] <==> UpdateAllowed(was, now)
    ensures forall e :: e in errs <==>
              || (e == Immutable("model") && was.model != now.model)
              || (e == Immutable("engine") && was.engine != now.engine)
              || (e == Immutable("engineProfileRef") && was.engineProfileRef != now.engineProfileRef)
  {
    errs := [];
    if was.model != now.model {
      errs := errs + [Immutable("model")];
    }
    if was.engine != now.engine {
      errs := errs + [Immutable("engine")];
    }
    if was.engineProfileRef != now.engineProfileRef {
      errs := errs + [Immutable("engineProfileRef")];
    }
  }

  /** An update that takes the volumes away but leaves a mount, and empties the router. */
  function Broken(spec: ServiceSpec): ServiceSpec {
    spec.(
      volumes := [],
      router := spec.router.(image := "", args := [], volumeMounts := [VolumeMountSpec("data", "/data", false)]))
  }

  lemma BrokenIsAdmitted(was: ServiceSpec)
    ensures UpdateAllowed(was, Broken(was)) && DanglingMount("router", 0, "data") in DanglingMounts(Broken(was))
  {
    var ms := [VolumeMountSpec("data", "/data", false)];
    DanglingExact({}, ms, "router");
    assert VolumeNames([]) == {};
    assert DanglingMount("router", 0, "data") in DanglingIn({}, ms, "router");
  }
}
