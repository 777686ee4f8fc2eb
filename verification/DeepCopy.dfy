/** api/v1alpha1/zz_generated.deepcopy.go on the heap: slices are nullable arrays,
    pointers and Go maps are objects, and a copied struct must hold equal content in
    storage of its own.
 */
module DeepCopy {
  import opened Types

  // ----- Storage -----

  /** What a pointer to a flat struct or number points at. */
  class Cell<T> {
    var content: T

    constructor (content: T)
      ensures this.content == content
    {
      this.content := content;
    }
  }

  /** A Go map from string to string. */
  class StringMap {
    var entries: map<string, string>

    constructor ()
      ensures entries == map[]
    {
      entries := map[];
    }
  }

  function Own<T>(a: array?<T>): set<object> {
    if a == null then {} else {a}
  }

  function OwnCell<T>(c: Cell?<T>): set<object> {
    if c == null then {} else {c}
  }

  function OwnMap(m: StringMap?): set<object> {
    if m == null then {} else {m}
  }

  twostate predicate Untouched(o: object)
    reads o
  {
    unchanged(o)
  }

  /** Nothing in this storage differs from before. */
  twostate predicate Kept(r: set<object>)
    reads r
  {
    forall o :: o in r ==> Untouched(o)
  }

  function Items<T>(a: array?<T>): Option<seq<T>>
    reads a
  {
    if a == null then None else Some(a[..])
  }

  function Pointee<T>(c: Cell?<T>): Option<T>
    reads c
  {
    if c == null then None else Some(c.content)
  }

  function Entries(m: StringMap?): Option<map<string, string>>
    reads m
  {
    if m == null then None else Some(m.entries)
  }

  /** Equal means both nil, or both there with the same elements or entries. */
  lemma LeavesAre<T>(a: array?<T>, b: array?<T>, c: Cell?<T>, d: Cell?<T>, m: StringMap?, n: StringMap?)
    ensures Items(a) == Items(b) <==> (a == null && b == null) || (a != null && b != null && a[..] == b[..])
    ensures Pointee(c) == Pointee(d) <==> (c == null && d == null) || (c != null && d != null && c.content == d.content)
    ensures Entries(m) == Entries(n) <==> (m == null && n == null) || (m != null && n != null && m.entries == n.entries)
  {
  }

  method CopyArray<T(0)>(a: array?<T>) returns (b: array?<T>)
    ensures Items(b) == Items(a) && fresh(Own(b))
  {
    if a == null {
      return null;
    }
    b := new T[a.Length];
    for i := 0 to a.Length
      invariant b[..i] == a[..i]
    {
      b[i] := a[i];
    }
    assert a[..] == a[..a.Length] && b[..] == b[..b.Length];
  }

  /** A slice with these elements; the elements are copied before it is made. */
  method Make<T>(items: seq<T>) returns (b: array<T>)
    ensures fresh(b) && b[..] == items
  {
    b := new T[|items|](i requires 0 <= i < |items| => items[i]);
    assert b[..] == items;
  }

  method CopyCell<T>(a: Cell?<T>) returns (b: Cell?<T>)
    ensures Pointee(b) == Pointee(a) && fresh(OwnCell(b))
  {
    if a == null {
      return null;
    }
    b := new Cell(a.content);
  }

  /** Copies the entries in whatever order the keys come. */
  method CopyMap(a: StringMap?) returns (b: StringMap?)
    ensures Entries(b) == Entries(a) && fresh(OwnMap(b))
  {
    if a == null {
      return null;
    }
    b := new StringMap();
    var rest := a.entries.Keys;
    while rest != {}
      invariant rest <= a.entries.Keys
      invariant fresh(b)
      invariant b.entries == map k | k in a.entries && k !in rest :: a.entries[k]
      decreases rest
    {
      var k :| k in rest;
      b.entries := b.entries[k := a.entries[k]];
      rest := rest - {k};
    }
    assert b.entries == a.entries;
  }

  // ----- Sidecars -----

  datatype ContainerRef = ContainerRef(name: string, args: array?<string>, env: array?<EnvVar>)

  ghost function ContainerRepr(c: ContainerRef): set<object> {
    Own(c.args) + Own(c.env)
  }

  datatype ContainerContent = ContainerContent(
    name: string, args: Option<seq<string>>, env: Option<seq<EnvVar>>)

  ghost function ContentOfContainer(c: ContainerRef): ContainerContent
    reads ContainerRepr(c)
  {
    ContainerContent(c.name, Items(c.args), Items(c.env))
  }

  lemma ContainerContentIs(a: ContainerRef, b: ContainerRef)
    ensures ContentOfContainer(a) == ContentOfContainer(b) <==>
            a.name == b.name && Items(a.args) == Items(b.args) && Items(a.env) == Items(b.env)
  {
  }

  twostate lemma ContainerFrame(a: ContainerRef)
    requires Kept(ContainerRepr(a))
    ensures ContentOfContainer(a) == old(ContentOfContainer(a))
  {
    assert a.args != null ==> a.args in ContainerRepr(a);
    assert a.env != null ==> a.env in ContainerRepr(a);
  }

  method CopyContainer(a: ContainerRef) returns (b: ContainerRef)
    ensures ContentOfContainer(b) == ContentOfContainer(a) && fresh(ContainerRepr(b))
  {
    var args := CopyArray(a.args);
    var env := CopyArray(a.env);
    b := ContainerRef(a.name, args, env);
  }

  ghost function ContainersRepr(cs: array<ContainerRef>): set<object>
    reads cs
  {
    set i, o | 0 <= i < cs.Length && o in ContainerRepr(cs[i]) :: o
  }

  ghost function ContentOfContainers(cs: array<ContainerRef>): (r: seq<ContainerContent>)
    reads cs, ContainersRepr(cs)
    ensures |r| == cs.Length
  {
    seq(cs.Length, i requires 0 <= i < cs.Length reads cs, ContainersRepr(cs) =>
      assert ContainerRepr(cs[i]) <= ContainersRepr(cs);
      ContentOfContainer(cs[i]))
  }

  method CopyContainerItems(a: array<ContainerRef>) returns (items: seq<ContainerRef>)
    ensures |items| == a.Length
    ensures forall j :: 0 <= j < a.Length ==>
        ContentOfContainer(items[j]) == ContentOfContainer(a[j]) && fresh(ContainerRepr(items[j]))
  {
    items := [];
    for i := 0 to a.Length
      invariant |items| == i
      invariant forall j :: 0 <= j < i ==>
          ContentOfContainer(items[j]) == ContentOfContainer(a[j]) && fresh(ContainerRepr(items[j]))
    {
      var c := CopyContainer(a[i]);
      items := items + [c];
    }
  }

  twostate lemma ContainersFrame(a: array<ContainerRef>)
    requires unchanged(a) && Kept(old(ContainersRepr(a)))
    ensures ContentOfContainers(a) == old(ContentOfContainers(a)) && ContainersRepr(a) == old(ContainersRepr(a))
  {
    forall i | 0 <= i < a.Length ensures ContentOfContainer(a[i]) == old(ContentOfContainer(a[i])) {
      assert old(ContainerRepr(a[i])) <= old(ContainersRepr(a));
      ContainerFrame(a[i]);
    }
  }

  method CopyContainers(a: array<ContainerRef>) returns (b: array<ContainerRef>)
    ensures ContentOfContainers(b) == ContentOfContainers(a) && fresh(b) && fresh(ContainersRepr(b))
  {
    var items := CopyContainerItems(a);
    b := Make(items);
    assert forall j :: 0 <= j < a.Length ==> b[j] == items[j];
    assert forall j :: 0 <= j < a.Length ==>
        ContentOfContainer(items[j]) == ContentOfContainer(a[j]) && fresh(ContainerRepr(items[j]));
  }

  datatype RuntimeRef = RuntimeRef(profileName: string, containers: array?<ContainerRef>)

  ghost function RuntimeRepr(r: RuntimeRef): set<object>
    reads r.containers
  {
    if r.containers == null then {} else {r.containers} + ContainersRepr(r.containers)
  }

  datatype RuntimeContent = RuntimeContent(profileName: string, containers: Option<seq<ContainerContent>>)

  ghost function ContentOfRuntime(r: RuntimeRef): RuntimeContent
    reads r.containers, RuntimeRepr(r)
  {
    RuntimeContent(r.profileName, if r.containers == null then None else Some(ContentOfContainers(r.containers)))
  }

  /** Sidecar specs agree in name and, one by one, in their containers. */
  lemma RuntimeContentIs(a: RuntimeRef, b: RuntimeRef)
    ensures ContentOfRuntime(a) == ContentOfRuntime(b) <==>
            && a.profileName == b.profileName
            && (a.containers == null <==> b.containers == null)
            && (a.containers != null && b.containers != null ==>
                  && a.containers.Length == b.containers.Length
                  && forall i :: 0 <= i < a.containers.Length ==>
                       ContentOfContainer(a.containers[i]) == ContentOfContainer(b.containers[i]))
  {
    if a.containers != null && b.containers != null {
      var x, y := ContentOfContainers(a.containers), ContentOfContainers(b.containers);
      assert forall i :: 0 <= i < |x| ==> x[i] == ContentOfContainer(a.containers[i]);
      assert forall i :: 0 <= i < |y| ==> y[i] == ContentOfContainer(b.containers[i]);
      assert x == y <==> |x| == |y| && forall i :: 0 <= i < |x| ==> x[i] == y[i];
    }
  }

  twostate lemma RuntimeFrame(a: RuntimeRef)
    requires Kept(old(RuntimeRepr(a)))
    ensures ContentOfRuntime(a) == old(ContentOfRuntime(a)) && RuntimeRepr(a) == old(RuntimeRepr(a))
  {
    if a.containers != null {
      assert a.containers in old(RuntimeRepr(a));
      assert old(ContainersRepr(a.containers)) <= old(RuntimeRepr(a));
      ContainersFrame(a.containers);
    }
  }

  method CopyRuntime(a: RuntimeRef) returns (b: RuntimeRef)
    ensures ContentOfRuntime(b) == ContentOfRuntime(a) && fresh(RuntimeRepr(b))
  {
    if a.containers == null {
      return RuntimeRef(a.profileName, null);
    }
    var containers := CopyContainers(a.containers);
    b := RuntimeRef(a.profileName, containers);
  }

  /** The arrays that hold the container lists of a slice of sidecar specs. */
  ghost function ContainerArrays(rs: array<RuntimeRef>): set<object>
    reads rs
  {
    set i | 0 <= i < rs.Length && rs[i].containers != null :: rs[i].containers as object
  }

  ghost function RuntimesRepr(rs: array<RuntimeRef>): set<object>
    reads rs, ContainerArrays(rs)
  {
    set i, o | 0 <= i < rs.Length && o in RuntimeRepr(rs[i]) :: o
  }

  ghost function ContentOfRuntimes(rs: array<RuntimeRef>): (r: seq<RuntimeContent>)
    reads rs, ContainerArrays(rs), RuntimesRepr(rs)
    ensures |r| == rs.Length
  {
    seq(rs.Length, i requires 0 <= i < rs.Length reads rs, ContainerArrays(rs), RuntimesRepr(rs) =>
      assert RuntimeRepr(rs[i]) <= RuntimesRepr(rs);
      ContentOfRuntime(rs[i]))
  }

  method CopyRuntimeItems(a: array<RuntimeRef>) returns (items: seq<RuntimeRef>)
    ensures |items| == a.Length
    ensures forall j :: 0 <= j < a.Length ==>
        ContentOfRuntime(items[j]) == ContentOfRuntime(a[j]) && fresh(RuntimeRepr(items[j]))
  {
    items := [];
    for i := 0 to a.Length
      invariant |items| == i
      invariant forall j :: 0 <= j < i ==>
          ContentOfRuntime(items[j]) == ContentOfRuntime(a[j]) && fresh(RuntimeRepr(items[j]))
    {
      label Before:
      var r := CopyRuntime(a[i]);
      forall j | 0 <= j < i
        ensures ContentOfRuntime(items[j]) == ContentOfRuntime(a[j]) && fresh(RuntimeRepr(items[j]))
      {
        RuntimeFrame@Before(items[j]);
        RuntimeFrame@Before(a[j]);
      }
      items := items + [r];
    }
  }

  method CopyRuntimes(a: array<RuntimeRef>) returns (b: array<RuntimeRef>)
    ensures ContentOfRuntimes(b) == ContentOfRuntimes(a) && fresh(b) && fresh(RuntimesRepr(b))
  {
    var items := CopyRuntimeItems(a);
    label Before:
    b := Make(items);
    forall j | 0 <= j < a.Length
      ensures ContentOfRuntime(b[j]) == ContentOfRuntime(a[j]) && fresh(RuntimeRepr(b[j]))
    {
      assert b[j] == items[j];
      RuntimeFrame@Before(items[j]);
      RuntimeFrame@Before(a[j]);
    }
  }

  ghost function SliceArrays(rs: array?<RuntimeRef>): set<object>
    reads rs
  {
    if rs == null then {} else ContainerArrays(rs)
  }

  ghost function RuntimeSliceRepr(rs: array?<RuntimeRef>): set<object>
    reads rs, SliceArrays(rs)
  {
    if rs == null then {} else {rs} + RuntimesRepr(rs)
  }

  ghost function ContentOfSlice(rs: array?<RuntimeRef>): Option<seq<RuntimeContent>>
    reads rs, SliceArrays(rs), RuntimeSliceRepr(rs)
  {
    if rs == null then None else Some(ContentOfRuntimes(rs))
  }

  lemma SliceContentIs(a: array?<RuntimeRef>, b: array?<RuntimeRef>)
    ensures ContentOfSlice(a) == ContentOfSlice(b) <==>
            && (a == null <==> b == null)
            && (a != null && b != null ==>
                  && a.Length == b.Length
                  && forall i :: 0 <= i < a.Length ==> ContentOfRuntime(a[i]) == ContentOfRuntime(b[i]))
  {
    if a != null && b != null {
      var x, y := ContentOfRuntimes(a), ContentOfRuntimes(b);
      assert forall i :: 0 <= i < |x| ==> x[i] == ContentOfRuntime(a[i]);
      assert forall i :: 0 <= i < |y| ==> y[i] == ContentOfRuntime(b[i]);
      assert x == y <==> |x| == |y| && forall i :: 0 <= i < |x| ==> x[i] == y[i];
    }
  }

  twostate lemma SliceFrame(a: array?<RuntimeRef>)
    requires Kept(old(RuntimeSliceRepr(a)))
    ensures ContentOfSlice(a) == old(ContentOfSlice(a)) && RuntimeSliceRepr(a) == old(RuntimeSliceRepr(a))
  {
    if a != null {
      assert a in old(RuntimeSliceRepr(a));
      forall i | 0 <= i < a.Length
        ensures ContentOfRuntime(a[i]) == old(ContentOfRuntime(a[i])) && RuntimeRepr(a[i]) == old(RuntimeRepr(a[i]))
      {
        assert old(RuntimeRepr(a[i])) <= old(RuntimeSliceRepr(a));
        RuntimeFrame(a[i]);
      }
      assert ContentOfRuntimes(a) == old(ContentOfRuntimes(a));
      assert RuntimesRepr(a) == old(RuntimesRepr(a));
    }
  }

  method CopyRuntimeSlice(a: array?<RuntimeRef>) returns (b: array?<RuntimeRef>)
    ensures ContentOfSlice(b) == ContentOfSlice(a) && fresh(RuntimeSliceRepr(b))
  {
    if a == null {
      return null;
    }
    b := CopyRuntimes(a);
  }

  /** When nothing that was there has changed but r, what is apart from r is as it was. */
  twostate lemma SliceStays(a: array?<RuntimeRef>, new r: set<object>)
    requires old(RuntimeSliceRepr(a)) !! r && forall o: object :: old(allocated(o)) && o !in r ==> Untouched(o)
    ensures ContentOfSlice(a) == old(ContentOfSlice(a)) && RuntimeSliceRepr(a) == old(RuntimeSliceRepr(a))
  {
    SliceFrame(a);
  }

  method CopyTwoSlices(a: array?<RuntimeRef>, c: array?<RuntimeRef>)
    returns (b: array?<RuntimeRef>, d: array?<RuntimeRef>)
    ensures ContentOfSlice(b) == ContentOfSlice(a) && fresh(RuntimeSliceRepr(b))
    ensures ContentOfSlice(d) == ContentOfSlice(c) && fresh(RuntimeSliceRepr(d))
  {
    b := CopyRuntimeSlice(a);
    label Before:
    d := CopyRuntimeSlice(c);
    SliceStays@Before(a, {});
    SliceStays@Before(b, {});
  }

  // ----- Resources -----

  class ResourcesRef {
    var requests: StringMap?
    var limits: StringMap?

    constructor (requests: StringMap?, limits: StringMap?)
      ensures this.requests == requests && this.limits == limits
    {
      this.requests, this.limits := requests, limits;
    }
  }

  ghost function ResourcesRepr(r: ResourcesRef?): set<object>
    reads r
  {
    if r == null then {} else {r} + OwnMap(r.requests) + OwnMap(r.limits)
  }

  datatype ResourcesContent = ResourcesContent(
    requests: Option<map<string, string>>, limits: Option<map<string, string>>)

  ghost function ContentOfResources(r: ResourcesRef?): Option<ResourcesContent>
    reads r, ResourcesRepr(r)
  {
    if r == null then None else Some(ResourcesContent(Entries(r.requests), Entries(r.limits)))
  }

  lemma ResourcesContentIs(a: ResourcesRef?, b: ResourcesRef?)
    ensures ContentOfResources(a) == ContentOfResources(b) <==>
            && (a == null <==> b == null)
            && (a != null && b != null ==>
                  Entries(a.requests) == Entries(b.requests) && Entries(a.limits) == Entries(b.limits))
  {
  }

  twostate lemma ResourcesFrame(a: ResourcesRef?)
    requires Kept(old(ResourcesRepr(a)))
    ensures ContentOfResources(a) == old(ContentOfResources(a)) && ResourcesRepr(a) == old(ResourcesRepr(a))
  {
    if a != null {
      assert a in old(ResourcesRepr(a));
      assert a.requests != null ==> a.requests in old(ResourcesRepr(a));
      assert a.limits != null ==> a.limits in old(ResourcesRepr(a));
    }
  }

  method CopyResources(a: ResourcesRef?) returns (b: ResourcesRef?)
    ensures ContentOfResources(b) == ContentOfResources(a) && fresh(ResourcesRepr(b))
  {
    if a == null {
      return null;
    }
    var requests := CopyMap(a.requests);
    var limits := CopyMap(a.limits);
    b := new ResourcesRef(requests, limits);
  }

  // ----- Volumes -----

  datatype VolumeRef = VolumeRef(
    name: string, hostPath: Cell?<HostPathVolume>, emptyDir: Cell?<EmptyDirVolume>, pvc: Cell?<PVCVolume>)

  ghost function VolumeRepr(v: VolumeRef): set<object> {
    OwnCell(v.hostPath) + OwnCell(v.emptyDir) + OwnCell(v.pvc)
  }

  datatype VolumeContent = VolumeContent(
    name: string, hostPath: Option<HostPathVolume>, emptyDir: Option<EmptyDirVolume>, pvc: Option<PVCVolume>)

  ghost function ContentOfVolume(v: VolumeRef): VolumeContent
    reads VolumeRepr(v)
  {
    VolumeContent(v.name, Pointee(v.hostPath), Pointee(v.emptyDir), Pointee(v.pvc))
  }

  twostate lemma VolumeFrame(a: VolumeRef)
    requires Kept(VolumeRepr(a))
    ensures ContentOfVolume(a) == old(ContentOfVolume(a))
  {
    assert a.hostPath != null ==> a.hostPath in VolumeRepr(a);
    assert a.emptyDir != null ==> a.emptyDir in VolumeRepr(a);
    assert a.pvc != null ==> a.pvc in VolumeRepr(a);
  }

  method CopyVolume(a: VolumeRef) returns (b: VolumeRef)
    ensures ContentOfVolume(b) == ContentOfVolume(a) && fresh(VolumeRepr(b))
  {
    var hostPath := CopyCell(a.hostPath);
    var emptyDir := CopyCell(a.emptyDir);
    var pvc := CopyCell(a.pvc);
    b := VolumeRef(a.name, hostPath, emptyDir, pvc);
  }

  ghost function VolumesRepr(vs: array<VolumeRef>): set<object>
    reads vs
  {
    set i, o | 0 <= i < vs.Length && o in VolumeRepr(vs[i]) :: o
  }

  ghost function ContentOfVolumes(vs: array<VolumeRef>): (r: seq<VolumeContent>)
    reads vs, VolumesRepr(vs)
    ensures |r| == vs.Length
  {
    seq(vs.Length, i requires 0 <= i < vs.Length reads vs, VolumesRepr(vs) =>
      assert VolumeRepr(vs[i]) <= VolumesRepr(vs);
      ContentOfVolume(vs[i]))
  }

  method CopyVolumeItems(a: array<VolumeRef>) returns (items: seq<VolumeRef>)
    ensures |items| == a.Length
    ensures forall j :: 0 <= j < a.Length ==>
        ContentOfVolume(items[j]) == ContentOfVolume(a[j]) && fresh(VolumeRepr(items[j]))
  {
    items := [];
    for i := 0 to a.Length
      invariant |items| == i
      invariant forall j :: 0 <= j < i ==>
          ContentOfVolume(items[j]) == ContentOfVolume(a[j]) && fresh(VolumeRepr(items[j]))
    {
      var v := CopyVolume(a[i]);
      items := items + [v];
    }
  }

  method CopyVolumes(a: array<VolumeRef>) returns (b: array<VolumeRef>)
    ensures ContentOfVolumes(b) == ContentOfVolumes(a) && fresh(b) && fresh(VolumesRepr(b))
  {
    var items := CopyVolumeItems(a);
    b := Make(items);
    assert forall j :: 0 <= j < a.Length ==> b[j] == items[j];
    assert forall j :: 0 <= j < a.Length ==>
        ContentOfVolume(items[j]) == ContentOfVolume(a[j]) && fresh(VolumeRepr(items[j]));
  }

  ghost function VolumeSliceRepr(vs: array?<VolumeRef>): set<object>
    reads vs
  {
    if vs == null then {} else {vs} + VolumesRepr(vs)
  }

  ghost function ContentOfVolumeSlice(vs: array?<VolumeRef>): Option<seq<VolumeContent>>
    reads vs, VolumeSliceRepr(vs)
  {
    if vs == null then None else Some(ContentOfVolumes(vs))
  }

  lemma VolumeSliceContentIs(a: array?<VolumeRef>, b: array?<VolumeRef>)
    ensures ContentOfVolumeSlice(a) == ContentOfVolumeSlice(b) <==>
            && (a == null <==> b == null)
            && (a != null && b != null ==>
                  && a.Length == b.Length
                  && forall i :: 0 <= i < a.Length ==>
                       && a[i].name == b[i].name && Pointee(a[i].hostPath) == Pointee(b[i].hostPath)
                       && Pointee(a[i].emptyDir) == Pointee(b[i].emptyDir) && Pointee(a[i].pvc) == Pointee(b[i].pvc))
  {
    if a != null && b != null {
      var x, y := ContentOfVolumes(a), ContentOfVolumes(b);
      assert forall i :: 0 <= i < |x| ==> x[i] == ContentOfVolume(a[i]);
      assert forall i :: 0 <= i < |y| ==> y[i] == ContentOfVolume(b[i]);
      assert x == y <==> |x| == |y| && forall i :: 0 <= i < |x| ==> x[i] == y[i];
    }
  }

  twostate lemma VolumeSliceFrame(a: array?<VolumeRef>)
    requires Kept(old(VolumeSliceRepr(a)))
    ensures ContentOfVolumeSlice(a) == old(ContentOfVolumeSlice(a)) && VolumeSliceRepr(a) == old(VolumeSliceRepr(a))
  {
    if a != null {
      assert a in old(VolumeSliceRepr(a));
      forall i | 0 <= i < a.Length ensures ContentOfVolume(a[i]) == old(ContentOfVolume(a[i])) {
        assert old(VolumeRepr(a[i])) <= old(VolumeSliceRepr(a));
        VolumeFrame(a[i]);
      }
      assert ContentOfVolumes(a) == old(ContentOfVolumes(a));
    }
  }

  method CopyVolumeSlice(a: array?<VolumeRef>) returns (b: array?<VolumeRef>)
    ensures ContentOfVolumeSlice(b) == ContentOfVolumeSlice(a) && fresh(VolumeSliceRepr(b))
  {
    if a == null {
      return null;
    }
    b := CopyVolumes(a);
  }

  // ----- Roles -----

  /** The reference fields that router and inference roles share. */
  datatype CommonRef = CommonRef(
    resources: ResourcesRef?,
    volumeMounts: array?<VolumeMountSpec>,
    command: array?<string>,
    args: array?<string>,
    readinessProbe: Cell?<ProbeSpec>,
    livenessProbe: Cell?<ProbeSpec>)

  datatype RouterRef = RouterRef(image: string, replicas: int, common: CommonRef)

  datatype InferenceRef = InferenceRef(
    image: string, replicas: int, gpu: string, gpuType: string, common: CommonRef,
    engineRuntimes: array?<RuntimeRef>)

  ghost function CommonRepr(r: CommonRef): set<object>
    reads r.resources
  {
    ResourcesRepr(r.resources) + Own(r.volumeMounts) + Own(r.command) + Own(r.args) +
    OwnCell(r.readinessProbe) + OwnCell(r.livenessProbe)
  }

  datatype CommonContent = CommonContent(
    resources: Option<ResourcesContent>,
    volumeMounts: Option<seq<VolumeMountSpec>>,
    command: Option<seq<string>>,
    args: Option<seq<string>>,
    readinessProbe: Option<ProbeSpec>,
    livenessProbe: Option<ProbeSpec>)

  ghost function ContentOfCommon(r: CommonRef): CommonContent
    reads r.resources, CommonRepr(r)
  {
    CommonContent(ContentOfResources(r.resources), Items(r.volumeMounts), Items(r.command), Items(r.args),
                  Pointee(r.readinessProbe), Pointee(r.livenessProbe))
  }

  method CopyLists(m: array?<VolumeMountSpec>, c: array?<string>, a: array?<string>)
    returns (volumeMounts: array?<VolumeMountSpec>, command: array?<string>, args: array?<string>)
    ensures Items(volumeMounts) == Items(m) && Items(command) == Items(c) && Items(args) == Items(a)
    ensures fresh(Own(volumeMounts)) && fresh(Own(command)) && fresh(Own(args))
  {
    volumeMounts := CopyArray(m);
    command := CopyArray(c);
    args := CopyArray(a);
  }

  method CopyProbes(r: Cell?<ProbeSpec>, l: Cell?<ProbeSpec>)
    returns (readiness: Cell?<ProbeSpec>, liveness: Cell?<ProbeSpec>)
    ensures Pointee(readiness) == Pointee(r) && Pointee(liveness) == Pointee(l)
    ensures fresh(OwnCell(readiness)) && fresh(OwnCell(liveness))
  {
    readiness := CopyCell(r);
    liveness := CopyCell(l);
  }

  lemma CommonContentIs(a: CommonRef, b: CommonRef)
    ensures ContentOfCommon(a) == ContentOfCommon(b) <==>
            && ContentOfResources(a.resources) == ContentOfResources(b.resources)
            && Items(a.volumeMounts) == Items(b.volumeMounts)
            && Items(a.command) == Items(b.command) && Items(a.args) == Items(b.args)
            && Pointee(a.readinessProbe) == Pointee(b.readinessProbe)
            && Pointee(a.livenessProbe) == Pointee(b.livenessProbe)
  {
  }

  twostate lemma CommonFrame(a: CommonRef)
    requires Kept(old(CommonRepr(a)))
    ensures ContentOfCommon(a) == old(ContentOfCommon(a)) && CommonRepr(a) == old(CommonRepr(a))
  {
    assert old(ResourcesRepr(a.resources)) <= old(CommonRepr(a));
    ResourcesFrame(a.resources);
    assert a.volumeMounts != null ==> a.volumeMounts in old(CommonRepr(a));
    assert a.command != null ==> a.command in old(CommonRepr(a));
    assert a.args != null ==> a.args in old(CommonRepr(a));
    assert a.readinessProbe != null ==> a.readinessProbe in old(CommonRepr(a));
    assert a.livenessProbe != null ==> a.livenessProbe in old(CommonRepr(a));
  }

  method CopyCommon(a: CommonRef) returns (b: CommonRef)
    ensures ContentOfCommon(b) == ContentOfCommon(a) && fresh(CommonRepr(b))
  {
    var resources := CopyResources(a.resources);
    var volumeMounts, command, args := CopyLists(a.volumeMounts, a.command, a.args);
    var readiness, liveness := CopyProbes(a.readinessProbe, a.livenessProbe);
    assert ContentOfResources(resources) == ContentOfResources(a.resources) && fresh(ResourcesRepr(resources));
    b := CommonRef(resources, volumeMounts, command, args, readiness, liveness);
  }

  ghost function InferenceRepr(r: InferenceRef): set<object>
    reads r.common.resources, r.engineRuntimes, SliceArrays(r.engineRuntimes)
  {
    CommonRepr(r.common) + RuntimeSliceRepr(r.engineRuntimes)
  }

  datatype InferenceContent = InferenceContent(
    image: string, replicas: int, gpu: string, gpuType: string, common: CommonContent,
    engineRuntimes: Option<seq<RuntimeContent>>)

  ghost function ContentOfInference(r: InferenceRef): InferenceContent
    reads r.common.resources, r.engineRuntimes, SliceArrays(r.engineRuntimes), InferenceRepr(r)
  {
    InferenceContent(r.image, r.replicas, r.gpu, r.gpuType, ContentOfCommon(r.common), ContentOfSlice(r.engineRuntimes))
  }

  lemma InferenceContentIs(a: InferenceRef, b: InferenceRef)
    ensures ContentOfInference(a) == ContentOfInference(b) <==>
            && a.image == b.image && a.replicas == b.replicas && a.gpu == b.gpu && a.gpuType == b.gpuType
            && ContentOfCommon(a.common) == ContentOfCommon(b.common)
            && ContentOfSlice(a.engineRuntimes) == ContentOfSlice(b.engineRuntimes)
  {
  }

  twostate lemma InferenceFrame(a: InferenceRef)
    requires Kept(old(InferenceRepr(a)))
    ensures ContentOfInference(a) == old(ContentOfInference(a)) && InferenceRepr(a) == old(InferenceRepr(a))
  {
    assert old(CommonRepr(a.common)) <= old(InferenceRepr(a));
    assert old(RuntimeSliceRepr(a.engineRuntimes)) <= old(InferenceRepr(a));
    CommonFrame(a.common);
    SliceFrame(a.engineRuntimes);
  }

  method CopyInference(a: InferenceRef) returns (b: InferenceRef)
    ensures ContentOfInference(b) == ContentOfInference(a) && fresh(InferenceRepr(b))
  {
    var common := CopyCommon(a.common);
    var runtimes := CopyRuntimeSlice(a.engineRuntimes);
    b := InferenceRef(a.image, a.replicas, a.gpu, a.gpuType, common, runtimes);
  }

  /** When nothing that was there has changed but r, what is apart from r is as it was. */
  twostate lemma CommonStays(a: CommonRef, new r: set<object>)
    requires old(CommonRepr(a)) !! r && forall o: object :: old(allocated(o)) && o !in r ==> Untouched(o)
    ensures ContentOfCommon(a) == old(ContentOfCommon(a)) && CommonRepr(a) == old(CommonRepr(a))
  {
    CommonFrame(a);
  }

  twostate lemma InferenceStays(a: InferenceRef, new r: set<object>)
    requires old(InferenceRepr(a)) !! r && forall o: object :: old(allocated(o)) && o !in r ==> Untouched(o)
    ensures ContentOfInference(a) == old(ContentOfInference(a)) && InferenceRepr(a) == old(InferenceRepr(a))
  {
    InferenceFrame(a);
  }

  method CopyTwoRoles(a: InferenceRef, c: InferenceRef) returns (b: InferenceRef, d: InferenceRef)
    ensures ContentOfInference(b) == ContentOfInference(a) && fresh(InferenceRepr(b))
    ensures ContentOfInference(d) == ContentOfInference(c) && fresh(InferenceRepr(d))
  {
    b := CopyInference(a);
    label Before:
    d := CopyInference(c);
    InferenceStays@Before(a, {});
    InferenceStays@Before(b, {});
  }

  method CopyThreeRoles(r: CommonRef, a: InferenceRef, c: InferenceRef)
    returns (q: CommonRef, b: InferenceRef, d: InferenceRef)
    ensures ContentOfCommon(q) == ContentOfCommon(r) && fresh(CommonRepr(q))
    ensures ContentOfInference(b) == ContentOfInference(a) && fresh(InferenceRepr(b))
    ensures ContentOfInference(d) == ContentOfInference(c) && fresh(InferenceRepr(d))
  {
    q := CopyCommon(r);
    label Before:
    b, d := CopyTwoRoles(a, c);
    CommonStays@Before(r, {});
    CommonStays@Before(q, {});
  }

  // ----- Scaling -----

  class HPARef {
    var minReplicas: Cell?<int>
    var maxReplicas: int

    constructor (minReplicas: Cell?<int>, maxReplicas: int)
      ensures this.minReplicas == minReplicas && this.maxReplicas == maxReplicas
    {
      this.minReplicas, this.maxReplicas := minReplicas, maxReplicas;
    }
  }

  ghost function HPARepr(h: HPARef?): set<object>
    reads h
  {
    if h == null then {} else {h} + OwnCell(h.minReplicas)
  }

  datatype HPAContent = HPAContent(minReplicas: Option<int>, maxReplicas: int)

  ghost function ContentOfHPA(h: HPARef?): Option<HPAContent>
    reads h, HPARepr(h)
  {
    if h == null then None else Some(HPAContent(Pointee(h.minReplicas), h.maxReplicas))
  }

  twostate lemma HPAFrame(a: HPARef?)
    requires Kept(old(HPARepr(a)))
    ensures ContentOfHPA(a) == old(ContentOfHPA(a)) && HPARepr(a) == old(HPARepr(a))
  {
    if a != null {
      assert a in old(HPARepr(a));
      assert a.minReplicas != null ==> a.minReplicas in old(HPARepr(a));
    }
  }

  method CopyHPA(a: HPARef?) returns (b: HPARef?)
    ensures ContentOfHPA(b) == ContentOfHPA(a) && fresh(HPARepr(b))
  {
    if a == null {
      return null;
    }
    var minReplicas := CopyCell(a.minReplicas);
    b := new HPARef(minReplicas, a.maxReplicas);
  }

  class ScalingRef {
    var decode: HPARef?
    var prefill: HPARef?

    constructor (decode: HPARef?, prefill: HPARef?)
      ensures this.decode == decode && this.prefill == prefill
    {
      this.decode, this.prefill := decode, prefill;
    }
  }

  ghost function ScalingParts(s: ScalingRef?): set<object>
    reads s
  {
    if s == null then {}
    else {s} + (if s.decode == null then {} else {s.decode}) + (if s.prefill == null then {} else {s.prefill})
  }

  ghost function ScalingRepr(s: ScalingRef?): set<object>
    reads s, ScalingParts(s)
  {
    if s == null then {} else {s} + HPARepr(s.decode) + HPARepr(s.prefill)
  }

  datatype ScalingContent = ScalingContent(decode: Option<HPAContent>, prefill: Option<HPAContent>)

  ghost function ContentOfScaling(s: ScalingRef?): Option<ScalingContent>
    reads s, ScalingParts(s), ScalingRepr(s)
  {
    if s == null then None else Some(ScalingContent(ContentOfHPA(s.decode), ContentOfHPA(s.prefill)))
  }

  lemma HPAContentIs(a: HPARef?, b: HPARef?)
    ensures ContentOfHPA(a) == ContentOfHPA(b) <==>
            && (a == null <==> b == null)
            && (a != null && b != null ==>
                  Pointee(a.minReplicas) == Pointee(b.minReplicas) && a.maxReplicas == b.maxReplicas)
  {
  }

  lemma ScalingContentIs(a: ScalingRef?, b: ScalingRef?)
    ensures ContentOfScaling(a) == ContentOfScaling(b) <==>
            && (a == null <==> b == null)
            && (a != null && b != null ==>
                  && ContentOfHPA(a.decode) == ContentOfHPA(b.decode)
                  && ContentOfHPA(a.prefill) == ContentOfHPA(b.prefill))
  {
  }

  twostate lemma ScalingFrame(a: ScalingRef?)
    requires Kept(old(ScalingRepr(a)))
    ensures ContentOfScaling(a) == old(ContentOfScaling(a)) && ScalingRepr(a) == old(ScalingRepr(a))
  {
    if a != null {
      assert a in old(ScalingRepr(a));
      assert old(HPARepr(a.decode)) <= old(ScalingRepr(a)) && old(HPARepr(a.prefill)) <= old(ScalingRepr(a));
      HPAFrame(a.decode);
      HPAFrame(a.prefill);
    }
  }

  method CopyScaling(a: ScalingRef?) returns (b: ScalingRef?)
    ensures ContentOfScaling(b) == ContentOfScaling(a) && fresh(ScalingRepr(b))
  {
    if a == null {
      return null;
    }
    var decode := CopyHPA(a.decode);
    var prefill := CopyHPA(a.prefill);
    b := new ScalingRef(decode, prefill);
  }

  // ----- The service spec -----

  datatype SpecRef = SpecRef(
    model: string,
    engine: string,
    volumes: array?<VolumeRef>,
    router: RouterRef,
    prefill: InferenceRef,
    decode: InferenceRef,
    pdRatio: string,
    engineProfileRef: string,
    scaling: ScalingRef?)

  /** Every object through which the content of the spec can change. */
  ghost function SpecRepr(s: SpecRef): set<object>
    reads *
  {
    VolumeSliceRepr(s.volumes) + CommonRepr(s.router.common) + InferenceRepr(s.prefill) + InferenceRepr(s.decode) +
    ScalingRepr(s.scaling)
  }

  datatype SpecContent = SpecContent(
    model: string,
    engine: string,
    volumes: Option<seq<VolumeContent>>,
    routerImage: string,
    routerReplicas: int,
    router: CommonContent,
    prefill: InferenceContent,
    decode: InferenceContent,
    pdRatio: string,
    engineProfileRef: string,
    scaling: Option<ScalingContent>)

  ghost function ContentOfSpec(s: SpecRef): SpecContent
    reads *
  {
    SpecContent(
      s.model, s.engine, ContentOfVolumeSlice(s.volumes),
      s.router.image, s.router.replicas, ContentOfCommon(s.router.common),
      ContentOfInference(s.prefill), ContentOfInference(s.decode),
      s.pdRatio, s.engineProfileRef, ContentOfScaling(s.scaling))
  }

  /** Two specs have the same content exactly when they agree in every field, through
      pointers, slices and maps. */
  lemma SpecContentIs(a: SpecRef, b: SpecRef)
    ensures ContentOfSpec(a) == ContentOfSpec(b) <==>
            && a.model == b.model && a.engine == b.engine
            && a.pdRatio == b.pdRatio && a.engineProfileRef == b.engineProfileRef
            && ContentOfVolumeSlice(a.volumes) == ContentOfVolumeSlice(b.volumes)
            && a.router.image == b.router.image && a.router.replicas == b.router.replicas
            && ContentOfCommon(a.router.common) == ContentOfCommon(b.router.common)
            && ContentOfInference(a.prefill) == ContentOfInference(b.prefill)
            && ContentOfInference(a.decode) == ContentOfInference(b.decode)
            && ContentOfScaling(a.scaling) == ContentOfScaling(b.scaling)
  {
  }

  twostate lemma VolumeSliceStays(a: array?<VolumeRef>, new r: set<object>)
    requires old(VolumeSliceRepr(a)) !! r && forall o: object :: old(allocated(o)) && o !in r ==> Untouched(o)
    ensures ContentOfVolumeSlice(a) == old(ContentOfVolumeSlice(a)) && VolumeSliceRepr(a) == old(VolumeSliceRepr(a))
  {
    VolumeSliceFrame(a);
  }

  twostate lemma ScalingStays(a: ScalingRef?, new r: set<object>)
    requires old(ScalingRepr(a)) !! r && forall o: object :: old(allocated(o)) && o !in r ==> Untouched(o)
    ensures ContentOfScaling(a) == old(ContentOfScaling(a)) && ScalingRepr(a) == old(ScalingRepr(a))
  {
    ScalingFrame(a);
  }

  method CopyVolumesAndRoles(vs: array?<VolumeRef>, r: CommonRef, a: InferenceRef, c: InferenceRef)
    returns (volumes: array?<VolumeRef>, q: CommonRef, b: InferenceRef, d: InferenceRef)
    ensures ContentOfVolumeSlice(volumes) == ContentOfVolumeSlice(vs) && fresh(VolumeSliceRepr(volumes))
    ensures ContentOfCommon(q) == ContentOfCommon(r) && fresh(CommonRepr(q))
    ensures ContentOfInference(b) == ContentOfInference(a) && fresh(InferenceRepr(b))
    ensures ContentOfInference(d) == ContentOfInference(c) && fresh(InferenceRepr(d))
  {
    volumes := CopyVolumeSlice(vs);
    label Before:
    q, b, d := CopyThreeRoles(r, a, c);
    VolumeSliceStays@Before(vs, {});
    VolumeSliceStays@Before(volumes, {});
  }

  method CopyParts(a: SpecRef) returns (b: SpecRef)
    ensures b == a.(volumes := b.volumes, router := a.router.(common := b.router.common),
                    prefill := b.prefill, decode := b.decode, scaling := b.scaling)
    ensures ContentOfVolumeSlice(b.volumes) == ContentOfVolumeSlice(a.volumes) && fresh(VolumeSliceRepr(b.volumes))
    ensures ContentOfScaling(b.scaling) == ContentOfScaling(a.scaling) && fresh(ScalingRepr(b.scaling))
    ensures ContentOfCommon(b.router.common) == ContentOfCommon(a.router.common) && fresh(CommonRepr(b.router.common))
    ensures ContentOfInference(b.prefill) == ContentOfInference(a.prefill) && fresh(InferenceRepr(b.prefill))
    ensures ContentOfInference(b.decode) == ContentOfInference(a.decode) && fresh(InferenceRepr(b.decode))
  {
    var scaling := CopyScaling(a.scaling);
    label Before:
    var volumes, router, prefill, decode :=
      CopyVolumesAndRoles(a.volumes, a.router.common, a.prefill, a.decode);
    ScalingStays@Before(a.scaling, {});
    ScalingStays@Before(scaling, {});
    b := a.(volumes := volumes, router := a.router.(common := router), prefill := prefill, decode := decode,
            scaling := scaling);
  }

  lemma SliceAllocated(a: array?<RuntimeRef>)
    ensures forall o :: o in RuntimeSliceRepr(a) ==> allocated(o)
  {
  }

  lemma CommonAllocated(a: CommonRef)
    ensures forall o :: o in CommonRepr(a) ==> allocated(o)
  {
  }

  lemma InferenceAllocated(a: InferenceRef)
    ensures forall o :: o in InferenceRepr(a) ==> allocated(o)
  {
    CommonAllocated(a.common);
    SliceAllocated(a.engineRuntimes);
  }

  lemma OthersAllocated(vs: array?<VolumeRef>, s: ScalingRef?)
    ensures forall o :: o in VolumeSliceRepr(vs) ==> allocated(o)
    ensures forall o :: o in ScalingRepr(s) ==> allocated(o)
  {
  }

  lemma SpecAllocated(a: SpecRef)
    ensures forall o :: o in SpecRepr(a) ==> allocated(o)
  {
    OthersAllocated(a.volumes, a.scaling);
    CommonAllocated(a.router.common);
    InferenceAllocated(a.prefill);
    InferenceAllocated(a.decode);
    forall o | o in SpecRepr(a) ensures allocated(o) {
      if o in VolumeSliceRepr(a.volumes) {
      } else if o in CommonRepr(a.router.common) {
      } else if o in InferenceRepr(a.prefill) {
      } else if o in InferenceRepr(a.decode) {
      }
    }
  }

  /** When nothing that was there has changed but r, a spec apart from r has kept its
      content and its storage. */
  twostate lemma SpecStays(a: SpecRef, new r: set<object>)
    requires old(SpecRepr(a)) !! r && forall o: object :: old(allocated(o)) && o !in r ==> Untouched(o)
    ensures ContentOfSpec(a) == old(ContentOfSpec(a)) && SpecRepr(a) == old(SpecRepr(a))
  {
    VolumeSliceStays(a.volumes, r);
    CommonStays(a.router.common, r);
    InferenceStays(a.prefill, r);
    InferenceStays(a.decode, r);
    ScalingStays(a.scaling, r);
  }

  method CopyFresh(a: SpecRef) returns (b: SpecRef)
    ensures ContentOfSpec(b) == ContentOfSpec(a) && fresh(SpecRepr(b))
  {
    b := CopyParts(a);
    forall o | o in SpecRepr(b) ensures fresh(o) {
      if o in VolumeSliceRepr(b.volumes) {
      } else if o in CommonRepr(b.router.common) {
      } else if o in InferenceRepr(b.prefill) {
      } else if o in InferenceRepr(b.decode) {
      }
    }
  }

  /** The copy has equal content and no storage in common with the original, through
      every nested slice, map and pointer. */
  method CopySpec(a: SpecRef) returns (b: SpecRef)
    ensures ContentOfSpec(a) == old(ContentOfSpec(a)) && ContentOfSpec(b) == old(ContentOfSpec(a))
    ensures SpecRepr(a) == old(SpecRepr(a))
    ensures fresh(SpecRepr(b)) && SpecRepr(a) !! SpecRepr(b)
  {
    SpecAllocated(a);
    b := CopyFresh(a);
    SpecStays(a, {});
  }

  /** Any change to the copy leaves the original as it was. */
  method ChangeTheCopy(a: SpecRef) returns (b: SpecRef)
    ensures ContentOfSpec(a) == old(ContentOfSpec(a))
  {
    b := CopySpec(a);
    label Copied:
    modify SpecRepr(b);
    SpecStays@Copied(a, old@Copied(SpecRepr(b)));
  }

  /** Any change to the original leaves the copy with the content it was made from. */
  method ChangeTheOriginal(a: SpecRef) returns (b: SpecRef)
    modifies SpecRepr(a)
    ensures ContentOfSpec(b) == old(ContentOfSpec(a)) && fresh(SpecRepr(b))
  {
    b := CopySpec(a);
    label Copied:
    modify SpecRepr(a);
    SpecStays@Copied(b, old@Copied(SpecRepr(a)));
  }

  // ----- The profile spec -----

  class StringsRef {
    var router: array?<string>
    var prefill: array?<string>
    var decode: array?<string>

    constructor (router: array?<string>, prefill: array?<string>, decode: array?<string>)
      ensures this.router == router && this.prefill == prefill && this.decode == decode
    {
      this.router, this.prefill, this.decode := router, prefill, decode;
    }
  }

  ghost function StringsRepr(s: StringsRef?): set<object>
    reads s
  {
    if s == null then {} else {s} + Own(s.router) + Own(s.prefill) + Own(s.decode)
  }

  datatype StringsContent = StringsContent(
    router: Option<seq<string>>, prefill: Option<seq<string>>, decode: Option<seq<string>>)

  ghost function ContentOfStrings(s: StringsRef?): Option<StringsContent>
    reads s, StringsRepr(s)
  {
    if s == null then None else Some(StringsContent(Items(s.router), Items(s.prefill), Items(s.decode)))
  }

  lemma StringsContentIs(a: StringsRef?, b: StringsRef?)
    ensures ContentOfStrings(a) == ContentOfStrings(b) <==>
            && (a == null <==> b == null)
            && (a != null && b != null ==>
                  && Items(a.router) == Items(b.router) && Items(a.prefill) == Items(b.prefill)
                  && Items(a.decode) == Items(b.decode))
  {
  }

  twostate lemma StringsFrame(a: StringsRef?)
    requires Kept(old(StringsRepr(a)))
    ensures ContentOfStrings(a) == old(ContentOfStrings(a)) && StringsRepr(a) == old(StringsRepr(a))
  {
    if a != null {
      assert a in old(StringsRepr(a));
      assert a.router != null ==> a.router in old(StringsRepr(a));
      assert a.prefill != null ==> a.prefill in old(StringsRepr(a));
      assert a.decode != null ==> a.decode in old(StringsRepr(a));
    }
  }

  method CopyStrings(a: StringsRef?) returns (b: StringsRef?)
    ensures ContentOfStrings(b) == ContentOfStrings(a) && fresh(StringsRepr(b))
  {
    if a == null {
      return null;
    }
    var router := CopyArray(a.router);
    var prefill := CopyArray(a.prefill);
    var decode := CopyArray(a.decode);
    b := new StringsRef(router, prefill, decode);
  }

  class RoleRuntimesRef {
    var router: array?<RuntimeRef>
    var prefill: array?<RuntimeRef>
    var decode: array?<RuntimeRef>

    constructor (router: array?<RuntimeRef>, prefill: array?<RuntimeRef>, decode: array?<RuntimeRef>)
      ensures this.router == router && this.prefill == prefill && this.decode == decode
    {
      this.router, this.prefill, this.decode := router, prefill, decode;
    }
  }

  datatype RoleRuntimesContent = RoleRuntimesContent(
    router: Option<seq<RuntimeContent>>, prefill: Option<seq<RuntimeContent>>, decode: Option<seq<RuntimeContent>>)

  ghost function RoleRuntimesRepr(r: RoleRuntimesRef?): set<object>
    reads *
  {
    if r == null then {}
    else {r} + RuntimeSliceRepr(r.router) + RuntimeSliceRepr(r.prefill) + RuntimeSliceRepr(r.decode)
  }

  ghost function ContentOfRoleRuntimes(r: RoleRuntimesRef?): Option<RoleRuntimesContent>
    reads *
  {
    if r == null then None
    else Some(RoleRuntimesContent(ContentOfSlice(r.router), ContentOfSlice(r.prefill), ContentOfSlice(r.decode)))
  }

  lemma RoleRuntimesContentIs(a: RoleRuntimesRef?, b: RoleRuntimesRef?)
    ensures ContentOfRoleRuntimes(a) == ContentOfRoleRuntimes(b) <==>
            && (a == null <==> b == null)
            && (a != null && b != null ==>
                  && ContentOfSlice(a.router) == ContentOfSlice(b.router)
                  && ContentOfSlice(a.prefill) == ContentOfSlice(b.prefill)
                  && ContentOfSlice(a.decode) == ContentOfSlice(b.decode))
  {
  }

  method CopyThreeSlices(x: array?<RuntimeRef>, y: array?<RuntimeRef>, z: array?<RuntimeRef>)
    returns (x': array?<RuntimeRef>, y': array?<RuntimeRef>, z': array?<RuntimeRef>)
    ensures ContentOfSlice(x') == ContentOfSlice(x) && fresh(RuntimeSliceRepr(x'))
    ensures ContentOfSlice(y') == ContentOfSlice(y) && fresh(RuntimeSliceRepr(y'))
    ensures ContentOfSlice(z') == ContentOfSlice(z) && fresh(RuntimeSliceRepr(z'))
  {
    x', y' := CopyTwoSlices(x, y);
    label Before:
    z' := CopyRuntimeSlice(z);
    SliceStays@Before(x', {});
    SliceStays@Before(y', {});
    SliceStays@Before(x, {});
    SliceStays@Before(y, {});
  }

  twostate lemma RoleRuntimesStays(a: RoleRuntimesRef?, new r: set<object>)
    requires old(RoleRuntimesRepr(a)) !! r && forall o: object :: old(allocated(o)) && o !in r ==> Untouched(o)
    ensures ContentOfRoleRuntimes(a) == old(ContentOfRoleRuntimes(a)) && RoleRuntimesRepr(a) == old(RoleRuntimesRepr(a))
  {
    if a != null {
      assert a in old(RoleRuntimesRepr(a));
      assert Untouched(a);
      assert old(RuntimeSliceRepr(a.router)) <= old(RoleRuntimesRepr(a));
      assert old(RuntimeSliceRepr(a.prefill)) <= old(RoleRuntimesRepr(a));
      assert old(RuntimeSliceRepr(a.decode)) <= old(RoleRuntimesRepr(a));
      SliceStays(a.router, r);
      SliceStays(a.prefill, r);
      SliceStays(a.decode, r);
    }
  }

  method CopyRoleRuntimes(a: RoleRuntimesRef?) returns (b: RoleRuntimesRef?)
    ensures ContentOfRoleRuntimes(b) == ContentOfRoleRuntimes(a) && fresh(RoleRuntimesRepr(b))
  {
    if a == null {
      return null;
    }
    var router, prefill, decode := CopyThreeSlices(a.router, a.prefill, a.decode);
    label Before:
    b := new RoleRuntimesRef(router, prefill, decode);
    SliceStays@Before(router, {});
    SliceStays@Before(prefill, {});
    SliceStays@Before(decode, {});
    RoleRuntimesStays@Before(a, {});
  }

  class ApplicabilityRef {
    var gpuTypes: array?<string>
    var minGpuMemoryGiB: Cell?<int>
    var tensorParallelSize: Cell?<int>
    var modelSizeRange: Cell?<(string, string)>
    var optimizedFor: string
    var sglangVersionRequired: string

    constructor (gpuTypes: array?<string>, minGpuMemoryGiB: Cell?<int>, tensorParallelSize: Cell?<int>,
                 modelSizeRange: Cell?<(string, string)>, optimizedFor: string, sglangVersionRequired: string)
      ensures this.gpuTypes == gpuTypes && this.minGpuMemoryGiB == minGpuMemoryGiB
      ensures this.tensorParallelSize == tensorParallelSize && this.modelSizeRange == modelSizeRange
      ensures this.optimizedFor == optimizedFor && this.sglangVersionRequired == sglangVersionRequired
    {
      this.gpuTypes, this.minGpuMemoryGiB, this.tensorParallelSize := gpuTypes, minGpuMemoryGiB, tensorParallelSize;
      this.modelSizeRange, this.optimizedFor := modelSizeRange, optimizedFor;
      this.sglangVersionRequired := sglangVersionRequired;
    }
  }

  ghost function ApplicabilityRepr(p: ApplicabilityRef?): set<object>
    reads p
  {
    if p == null then {}
    else {p} + Own(p.gpuTypes) + OwnCell(p.minGpuMemoryGiB) + OwnCell(p.tensorParallelSize) + OwnCell(p.modelSizeRange)
  }

  datatype ApplicabilityContent = ApplicabilityContent(
    gpuTypes: Option<seq<string>>,
    minGpuMemoryGiB: Option<int>,
    tensorParallelSize: Option<int>,
    modelSizeRange: Option<(string, string)>,
    optimizedFor: string,
    sglangVersionRequired: string)

  ghost function ContentOfApplicability(p: ApplicabilityRef?): Option<ApplicabilityContent>
    reads p, ApplicabilityRepr(p)
  {
    if p == null then None
    else
      Some(ApplicabilityContent(
        Items(p.gpuTypes), Pointee(p.minGpuMemoryGiB), Pointee(p.tensorParallelSize), Pointee(p.modelSizeRange),
        p.optimizedFor, p.sglangVersionRequired))
  }

  lemma ApplicabilityContentIs(a: ApplicabilityRef?, b: ApplicabilityRef?)
    ensures ContentOfApplicability(a) == ContentOfApplicability(b) <==>
            && (a == null <==> b == null)
            && (a != null && b != null ==>
                  && Items(a.gpuTypes) == Items(b.gpuTypes)
                  && Pointee(a.minGpuMemoryGiB) == Pointee(b.minGpuMemoryGiB)
                  && Pointee(a.tensorParallelSize) == Pointee(b.tensorParallelSize)
                  && Pointee(a.modelSizeRange) == Pointee(b.modelSizeRange)
                  && a.optimizedFor == b.optimizedFor && a.sglangVersionRequired == b.sglangVersionRequired)
  {
  }

  twostate lemma ApplicabilityFrame(a: ApplicabilityRef?)
    requires Kept(old(ApplicabilityRepr(a)))
    ensures ContentOfApplicability(a) == old(ContentOfApplicability(a))
    ensures ApplicabilityRepr(a) == old(ApplicabilityRepr(a))
  {
    if a != null {
      assert a in old(ApplicabilityRepr(a));
      assert a.gpuTypes != null ==> a.gpuTypes in old(ApplicabilityRepr(a));
      assert a.minGpuMemoryGiB != null ==> a.minGpuMemoryGiB in old(ApplicabilityRepr(a));
      assert a.tensorParallelSize != null ==> a.tensorParallelSize in old(ApplicabilityRepr(a));
      assert a.modelSizeRange != null ==> a.modelSizeRange in old(ApplicabilityRepr(a));
    }
  }

  method CopyApplicability(a: ApplicabilityRef?) returns (b: ApplicabilityRef?)
    ensures ContentOfApplicability(b) == ContentOfApplicability(a) && fresh(ApplicabilityRepr(b))
  {
    if a == null {
      return null;
    }
    var gpuTypes := CopyArray(a.gpuTypes);
    var memory := CopyCell(a.minGpuMemoryGiB);
    var parallel := CopyCell(a.tensorParallelSize);
    var size := CopyCell(a.modelSizeRange);
    b := new ApplicabilityRef(gpuTypes, memory, parallel, size, a.optimizedFor, a.sglangVersionRequired);
  }

  datatype ProfileRef = ProfileRef(
    description: string,
    applicability: ApplicabilityRef?,
    images: RoleImages,
    roleCommands: StringsRef?,
    roleArgs: StringsRef?,
    engineRuntimes: RoleRuntimesRef?)

  /** Everything but the role commands. */
  ghost function CopiedProfileRepr(p: ProfileRef): set<object>
    reads *
  {
    ApplicabilityRepr(p.applicability) + StringsRepr(p.roleArgs) + RoleRuntimesRepr(p.engineRuntimes)
  }

  ghost function ProfileRepr(p: ProfileRef): set<object>
    reads *
  {
    CopiedProfileRepr(p) + StringsRepr(p.roleCommands)
  }

  datatype ProfileContent = ProfileContent(
    description: string,
    applicability: Option<ApplicabilityContent>,
    images: RoleImages,
    roleCommands: Option<StringsContent>,
    roleArgs: Option<StringsContent>,
    engineRuntimes: Option<RoleRuntimesContent>)

  ghost function ContentOfProfile(p: ProfileRef): ProfileContent
    reads *
  {
    ProfileContent(
      p.description, ContentOfApplicability(p.applicability), p.images,
      ContentOfStrings(p.roleCommands), ContentOfStrings(p.roleArgs), ContentOfRoleRuntimes(p.engineRuntimes))
  }

  lemma ProfileContentIs(a: ProfileRef, b: ProfileRef)
    ensures ContentOfProfile(a) == ContentOfProfile(b) <==>
            && a.description == b.description && a.images == b.images
            && ContentOfApplicability(a.applicability) == ContentOfApplicability(b.applicability)
            && ContentOfStrings(a.roleCommands) == ContentOfStrings(b.roleCommands)
            && ContentOfStrings(a.roleArgs) == ContentOfStrings(b.roleArgs)
            && ContentOfRoleRuntimes(a.engineRuntimes) == ContentOfRoleRuntimes(b.engineRuntimes)
  {
  }

  method CopyFlatParts(p: ApplicabilityRef?, s: StringsRef?) returns (q: ApplicabilityRef?, t: StringsRef?)
    ensures ContentOfApplicability(q) == ContentOfApplicability(p) && fresh(ApplicabilityRepr(q))
    ensures ContentOfStrings(t) == ContentOfStrings(s) && fresh(StringsRepr(t))
  {
    q := CopyApplicability(p);
    t := CopyStrings(s);
    assert ContentOfApplicability(q) == ContentOfApplicability(p) && fresh(ApplicabilityRepr(q));
  }

  method CopyProfileParts(a: ProfileRef) returns (b: ProfileRef)
    ensures b == a.(applicability := b.applicability, roleArgs := b.roleArgs, engineRuntimes := b.engineRuntimes)
    ensures ContentOfApplicability(b.applicability) == ContentOfApplicability(a.applicability)
    ensures fresh(ApplicabilityRepr(b.applicability))
    ensures ContentOfStrings(b.roleArgs) == ContentOfStrings(a.roleArgs) && fresh(StringsRepr(b.roleArgs))
    ensures ContentOfRoleRuntimes(b.engineRuntimes) == ContentOfRoleRuntimes(a.engineRuntimes)
    ensures fresh(RoleRuntimesRepr(b.engineRuntimes))
  {
    var applicability, roleArgs := CopyFlatParts(a.applicability, a.roleArgs);
    var runtimes := CopyRoleRuntimes(a.engineRuntimes);
    assert ContentOfApplicability(applicability) == ContentOfApplicability(a.applicability);
    assert fresh(ApplicabilityRepr(applicability));
    assert ContentOfStrings(roleArgs) == ContentOfStrings(a.roleArgs) && fresh(StringsRepr(roleArgs));
    b := a.(applicability := applicability, roleArgs := roleArgs, engineRuntimes := runtimes);
  }

  method CopyProfileFresh(a: ProfileRef) returns (b: ProfileRef)
    ensures ContentOfProfile(b) == ContentOfProfile(a) && fresh(CopiedProfileRepr(b))
    ensures b.roleCommands == a.roleCommands
  {
    b := CopyProfileParts(a);
    assert ContentOfStrings(b.roleCommands) == ContentOfStrings(a.roleCommands);
    forall o | o in CopiedProfileRepr(b) ensures fresh(o) {
      if o in ApplicabilityRepr(b.applicability) {
      } else if o in StringsRepr(b.roleArgs) {
      }
    }
  }

  lemma RoleRuntimesAllocated(r: RoleRuntimesRef?)
    ensures forall o :: o in RoleRuntimesRepr(r) ==> allocated(o)
  {
    if r != null {
      SliceAllocated(r.router);
      SliceAllocated(r.prefill);
      SliceAllocated(r.decode);
    }
  }

  lemma FlatAllocated(p: ApplicabilityRef?, s: StringsRef?)
    ensures forall o :: o in ApplicabilityRepr(p) ==> allocated(o)
    ensures forall o :: o in StringsRepr(s) ==> allocated(o)
  {
  }

  lemma ProfileAllocated(p: ProfileRef)
    ensures forall o :: o in ProfileRepr(p) ==> allocated(o)
  {
    FlatAllocated(p.applicability, p.roleArgs);
    FlatAllocated(p.applicability, p.roleCommands);
    RoleRuntimesAllocated(p.engineRuntimes);
    forall o | o in ProfileRepr(p) ensures allocated(o) {
      if o in StringsRepr(p.roleCommands) {
      } else if o in ApplicabilityRepr(p.applicability) {
      } else if o in StringsRepr(p.roleArgs) {
      }
    }
  }

  twostate lemma StringsStays(a: StringsRef?, new r: set<object>)
    requires old(StringsRepr(a)) !! r && forall o: object :: old(allocated(o)) && o !in r ==> Untouched(o)
    ensures ContentOfStrings(a) == old(ContentOfStrings(a)) && StringsRepr(a) == old(StringsRepr(a))
  {
    StringsFrame(a);
  }

  twostate lemma ApplicabilityStays(a: ApplicabilityRef?, new r: set<object>)
    requires old(ApplicabilityRepr(a)) !! r && forall o: object :: old(allocated(o)) && o !in r ==> Untouched(o)
    ensures ContentOfApplicability(a) == old(ContentOfApplicability(a))
    ensures ApplicabilityRepr(a) == old(ApplicabilityRepr(a))
  {
    ApplicabilityFrame(a);
  }

  /** What a profile holds besides its role commands. */
  ghost function CopiedContent(p: ProfileRef): ProfileContent
    reads *
  {
    ContentOfProfile(p).(roleCommands := None)
  }

  twostate lemma CopiedContentStays(a: ProfileRef, new r: set<object>)
    requires old(CopiedProfileRepr(a)) !! r && forall o: object :: old(allocated(o)) && o !in r ==> Untouched(o)
    ensures CopiedContent(a) == old(CopiedContent(a)) && CopiedProfileRepr(a) == old(CopiedProfileRepr(a))
  {
    ApplicabilityStays(a.applicability, r);
    StringsStays(a.roleArgs, r);
    RoleRuntimesStays(a.engineRuntimes, r);
  }

  twostate lemma ProfileStays(a: ProfileRef, new r: set<object>)
    requires old(ProfileRepr(a)) !! r && forall o: object :: old(allocated(o)) && o !in r ==> Untouched(o)
    ensures ContentOfProfile(a) == old(ContentOfProfile(a)) && ProfileRepr(a) == old(ProfileRepr(a))
  {
    assert old(CopiedProfileRepr(a)) <= old(ProfileRepr(a)) && old(StringsRepr(a.roleCommands)) <= old(ProfileRepr(a));
    CopiedContentStays(a, r);
    StringsStays(a.roleCommands, r);
  }

  lemma SeparateIff(a: ProfileRef, b: ProfileRef)
    requires ProfileRepr(a) !! CopiedProfileRepr(b) && b.roleCommands == a.roleCommands
    ensures ProfileRepr(a) !! ProfileRepr(b) <==> a.roleCommands == null
  {
    if a.roleCommands == null {
      assert ProfileRepr(b) == CopiedProfileRepr(b);
    } else {
      assert a.roleCommands in ProfileRepr(a) && a.roleCommands in ProfileRepr(b);
    }
  }

  /** The generated code forgets RoleCommands: that pointer is shared with the
      original, and everything else is separate. So the two profiles are separate if
      and only if the original has no role commands. */
  method CopyProfile(a: ProfileRef) returns (b: ProfileRef)
    ensures ContentOfProfile(a) == old(ContentOfProfile(a)) && ContentOfProfile(b) == old(ContentOfProfile(a))
    ensures ProfileRepr(a) == old(ProfileRepr(a)) && b.roleCommands == a.roleCommands
    ensures fresh(CopiedProfileRepr(b)) && ProfileRepr(a) !! CopiedProfileRepr(b)
    ensures ProfileRepr(a) !! ProfileRepr(b) <==> a.roleCommands == null
  {
    ProfileAllocated(a);
    b := CopyProfileFresh(a);
    ProfileStays(a, {});
    SeparateIff(a, b);
  }

  /** Any change to the copied part of the copy leaves the original as it was. */
  method ChangeTheCopiedPart(a: ProfileRef) returns (b: ProfileRef)
    ensures ContentOfProfile(a) == old(ContentOfProfile(a))
  {
    b := CopyProfile(a);
    label Copied:
    modify CopiedProfileRepr(b);
    ProfileStays@Copied(a, old@Copied(CopiedProfileRepr(b)));
  }

  /** Any change to the original, role commands included, leaves the copied part of the
      copy with the content it was made from. */
  method ChangeTheOriginalProfile(a: ProfileRef) returns (b: ProfileRef)
    modifies ProfileRepr(a)
    ensures CopiedContent(b) == old(CopiedContent(a))
  {
    b := CopyProfile(a);
    label Copied:
    modify ProfileRepr(a);
    CopiedContentStays@Copied(b, old@Copied(ProfileRepr(a)));
  }

  /** Through the role commands, writing to the copy does change the original. */
  method WriteThroughTheCopy(a: ProfileRef, commands: array<string>) returns (b: ProfileRef)
    requires a.roleCommands != null && Items(a.roleCommands.router) != Some(commands[..])
    modifies a.roleCommands
    ensures ContentOfProfile(a) != old(ContentOfProfile(a))
  {
    b := CopyProfile(a);
    b.roleCommands.router := commands;
  }
}
