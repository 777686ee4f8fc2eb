/** The Kubernetes API server as pd-manager sees it. None of this is code of the
    repository: these functions are the environment the properties are stated in.

    - Every write of an existing object carries the uid and resourceVersion it was
      read with and is refused as a conflict when either has moved on.
    - A write that changes nothing keeps the resourceVersion.
    - Create and update pass through the admission webhook and the schema of the
      custom resource; writes of the status subresource change the status only and
      do not pass the webhook. The schema of the status is left out of the step, as no
      write of the controller breaks it (`Guarantees.StatusWritesFitSchema`).
    - A deleted object with finalizers is only marked; it takes no new finalizers and
      leaves the store with the write that empties them.
    - The garbage collector removes a group all of whose owners are gone.
 */
module ApiServer {
  import opened Types
  import Webhook

  datatype Store = Store(
    services: map<Key, Service>,
    groups: map<Key, Group>,
    profiles: map<Key, ProfileSpec>,
    nextUid: nat,
    nextRv: nat)

  datatype Reply<+T> = Ok(value: T) | NotFound | AlreadyExists | Conflict | Invalid

  /** The bounds in config/crd/bases/pdai.pdai.io_pdinferenceservices.yaml. */
  predicate SchemaValid(spec: ServiceSpec) {
    && spec.engine == "sglang"
    && 1 <= spec.router.replicas
    && 1 <= spec.prefill.replicas <= 100
    && 1 <= spec.decode.replicas <= 100
  }

  // ----- PDInferenceServices -----

  /** Stores the new content of an existing service: nothing happens when it is equal
      to the old one, and a marked service without finalizers is gone. */
  function CommitService(st: Store, key: Key, next: Service): (r: (Store, Reply<Service>))
    requires key in st.services
  {
    if next == st.services[key] then (st, Ok(next))
    else
      var stored := next.(rv := st.nextRv);
      var services :=
        if next.deleting && next.finalizers == [] then st.services - {key} else st.services[key := stored];
      (st.(services := services, nextRv := st.nextRv + 1), Ok(stored))
  }

  predicate Current(st: Store, key: Key, obj: Service) {
    key in st.services && st.services[key].uid == obj.uid && st.services[key].rv == obj.rv
  }

  predicate NoNewFinalizers(was: seq<string>, now: seq<string>) {
    forall f :: f in now ==> f in was
  }

  predicate UpdateAdmitted(was: Service, spec: ServiceSpec, finalizers: seq<string>) {
    && SchemaValid(spec)
    && Webhook.UpdateAllowed(was.spec, spec)
    && (was.deleting ==> NoNewFinalizers(was.finalizers, finalizers))
  }

  function UpdateService(st: Store, key: Key, obj: Service): (Store, Reply<Service>) {
    if key !in st.services then (st, NotFound)
    else if !Current(st, key, obj) then (st, Conflict)
    else
      var was, spec := st.services[key], Webhook.Defaulted(obj.spec);
      if !UpdateAdmitted(was, spec, obj.finalizers) then (st, Invalid)
      else CommitService(st, key, was.(spec := spec, finalizers := obj.finalizers))
  }

  function UpdateServiceStatus(st: Store, key: Key, obj: Service): (Store, Reply<Service>) {
    if key !in st.services then (st, NotFound)
    else if !Current(st, key, obj) then (st, Conflict)
    else CommitService(st, key, st.services[key].(status := obj.status))
  }

  /** `profiles` is what the webhook's cached client sees. */
  function CreateService(st: Store, key: Key, spec: ServiceSpec, finalizers: seq<string>,
                         profiles: map<Key, ProfileSpec>, now: int): (Store, Reply<Service>)
  {
    var full := Webhook.Defaulted(spec);
    if key in st.services then (st, AlreadyExists)
    else if !SchemaValid(full) || !Webhook.CreateAllowed(full, Key(key.ns, full.engineProfileRef) in profiles) then
      (st, Invalid)
    else
      var stored := Service(st.nextUid, st.nextRv, now, false, finalizers, full, EMPTY_STATUS);
      (st.(services := st.services[key := stored], nextUid := st.nextUid + 1, nextRv := st.nextRv + 1), Ok(stored))
  }

  function DeleteService(st: Store, key: Key): (Store, Reply<Service>) {
    if key !in st.services then (st, NotFound)
    else CommitService(st, key, st.services[key].(deleting := true))
  }

  // ----- RoleBasedGroups -----

  function CreateGroup(st: Store, key: Key, owners: seq<OwnerRef>, roles: seq<RoleSpec>): (Store, Reply<Group>) {
    if key in st.groups then (st, AlreadyExists)
    else
      var stored := Group(st.nextUid, st.nextRv, owners, roles, "", NO_GROUP_STATUS);
      (st.(groups := st.groups[key := stored], nextUid := st.nextUid + 1, nextRv := st.nextRv + 1), Ok(stored))
  }

  function CommitGroup(st: Store, key: Key, next: Group): (Store, Reply<Group>)
    requires key in st.groups
  {
    if next == st.groups[key] then (st, Ok(next))
    else
      var stored := next.(rv := st.nextRv);
      (st.(groups := st.groups[key := stored], nextRv := st.nextRv + 1), Ok(stored))
  }

  function UpdateGroup(st: Store, key: Key, obj: Group): (Store, Reply<Group>) {
    if key !in st.groups then (st, NotFound)
    else if st.groups[key].uid != obj.uid || st.groups[key].rv != obj.rv then (st, Conflict)
    else
      CommitGroup(st, key, st.groups[key].(owners := obj.owners, roles := obj.roles, otherSpec := obj.otherSpec))
  }

  // ----- Garbage collection -----

  predicate OwnerAlive(st: Store, ns: string, owner: OwnerRef) {
    Key(ns, owner.name) in st.services && st.services[Key(ns, owner.name)].uid == owner.uid
  }

  predicate Orphan(st: Store, key: Key)
    requires key in st.groups
  {
    var g := st.groups[key];
    g.owners != [] && forall i :: 0 <= i < |g.owners| ==> !OwnerAlive(st, key.ns, g.owners[i])
  }

  /** One collection of one group. */
  function Collect(st: Store, key: Key): Store {
    if key in st.groups && Orphan(st, key) then st.(groups := st.groups - {key}) else st
  }

  /** The collector has caught up. */
  function CollectAll(st: Store): Store {
    st.(groups := map k | k in st.groups && !Orphan(st, k) :: st.groups[k])
  }

  // ----- What a service write leaves alone -----

  predicate SameAt(st: Store, st': Store, k: Key) {
    (k in st'.services <==> k in st.services) && (k in st.services ==> st'.services[k] == st.services[k])
  }

  /** Nothing but the service under `key` differs. */
  ghost predicate OnlyService(st: Store, st': Store, key: Key) {
    && st'.groups == st.groups && st'.profiles == st.profiles
    && st.nextUid <= st'.nextUid
    && forall k :: k != key ==> SameAt(st, st', k)
  }

  lemma CommitFacts(st: Store, key: Key, next: Service)
    requires key in st.services
    ensures
      var (st', reply) := CommitService(st, key, next);
      && OnlyService(st, st', key) && st'.nextUid == st.nextUid && reply.Ok?
      && (key !in st'.services <==> next.deleting && next.finalizers == [] && next != st.services[key])
      && (key in st'.services ==>
            st'.services[key] == reply.value && reply.value == next.(rv := reply.value.rv))
  {
  }

  lemma UpdateFacts(st: Store, key: Key, obj: Service)
    ensures
      var (st', reply) := UpdateService(st, key, obj);
      && OnlyService(st, st', key) && st'.nextUid == st.nextUid
      && (!reply.Ok? ==> st' == st)
      && (reply.Ok? <==> Current(st, key, obj) &&
                         UpdateAdmitted(st.services[key], Webhook.Defaulted(obj.spec), obj.finalizers))
      && (reply.Ok? && key in st'.services ==>
            && st'.services[key] == reply.value
            && reply.value == st.services[key].(spec := Webhook.Defaulted(obj.spec), finalizers := obj.finalizers,
                                                rv := reply.value.rv))
  {
    if Current(st, key, obj) {
      CommitFacts(st, key, st.services[key].(spec := Webhook.Defaulted(obj.spec), finalizers := obj.finalizers));
    }
  }

  lemma StatusFacts(st: Store, key: Key, obj: Service)
    ensures
      var (st', reply) := UpdateServiceStatus(st, key, obj);
      && OnlyService(st, st', key) && st'.nextUid == st.nextUid
      && (!reply.Ok? ==> st' == st)
      && (reply.Ok? <==> Current(st, key, obj))
      && (reply.Ok? && key in st'.services ==>
            && st'.services[key] == reply.value
            && reply.value == st.services[key].(status := obj.status, rv := reply.value.rv))
  {
    if Current(st, key, obj) {
      CommitFacts(st, key, st.services[key].(status := obj.status));
    }
  }
}
