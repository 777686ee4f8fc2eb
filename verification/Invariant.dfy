/** The inductive invariant of the protocol. Its core is the resourceVersion argument:
    whatever anyone has read, be it stale, is either equal to what is stored or has
    a resourceVersion that the server will refuse.
 */
module Invariant {
  import opened Types
  import opened Status
  import opened ApiServer
  import opened Reconcile
  import opened Scaling
  import opened Protocol
  import Webhook

  // ----- Objects that were read -----

  predicate BornAt(w: World, key: Key, uid: nat) {
    uid in w.born && w.born[uid] == key
  }

  /** A service as it was read at some time under this key. */
  predicate Seen(w: World, key: Key, s: Service) {
    && s.rv < w.store.nextRv
    && BornAt(w, key, s.uid)
    && (key in w.store.services && w.store.services[key].rv == s.rv ==> w.store.services[key] == s)
  }

  predicate OwnedAtBirth(w: World, key: Key, owners: seq<OwnerRef>) {
    |owners| == 1 && owners[0].name == key.name && BornAt(w, key, owners[0].uid)
  }

  /** A group as it was read at some time under this key. */
  predicate SeenGroup(w: World, key: Key, g: Group) {
    && g.rv < w.store.nextRv
    && OwnedAtBirth(w, key, g.owners)
    && (key in w.store.groups && w.store.groups[key].rv == g.rv ==> w.store.groups[key] == g)
  }

  ghost predicate SeenStore(w: World, st: Store) {
    && (forall k :: k in st.services ==> Seen(w, k, st.services[k]))
    && (forall k :: k in st.groups ==> SeenGroup(w, k, st.groups[k]))
  }

  // ----- The invariant -----

  predicate SpecOk(spec: ServiceSpec) {
    Webhook.Defaulted(spec) == spec && SchemaValid(spec)
  }

  predicate ServiceOk(s: Service) {
    SpecOk(s.spec) && StatusOk(s.status) && (s.deleting ==> s.finalizers != [])
  }

  predicate WorkerOk(w: World, key: Key, worker: Worker) {
    worker.Done? ||
    (&& Seen(w, key, worker.base)
     && (worker.base.deleting <==> worker.RemovingFinalizer?)
     && (worker.GettingGroup? || worker.CreatingGroup? || worker.UpdatingGroup? ==>
           worker.desired.owners == [OwnerRef(key.name, worker.base.uid)])
     && (worker.UpdatingGroup? ==> SeenGroup(w, key, worker.group))
     && (worker.WritingStatus? && worker.ev.Sync? ==> !worker.ev.deleting)
     && (worker.WritingStatus? && worker.ev.Fail? ==> worker.ev.why == ProfileFailure(worker.base.spec)))
  }

  ghost predicate ServicesOk(st: Store) {
    forall k :: k in st.services ==> ServiceOk(st.services[k])
  }

  ghost predicate Inv(w: World) {
    && ServicesOk(w.store)
    && SeenStore(w, w.store)
    && (forall i :: 0 <= i < |w.past| ==> SeenStore(w, w.past[i]))
    && (forall k :: k in w.workers ==> WorkerOk(w, k, w.workers[k]))
    && (forall id :: id in w.puts ==> Seen(w, w.puts[id].key, w.puts[id].base))
    && (forall u :: u in w.born ==> u < w.store.nextUid)
  }

  // ----- What one step may do to the store -----

  /** Objects are kept, removed, or written with a new resourceVersion. */
  ghost predicate Evolves(w: World, w': World) {
    && w.store.nextRv <= w'.store.nextRv
    && w.store.nextUid <= w'.store.nextUid
    && (forall u :: u in w.born ==> u in w'.born && w'.born[u] == w.born[u])
    && (forall k :: k in w'.store.services ==>
          || (k in w.store.services && w.store.services[k] == w'.store.services[k])
          || w.store.nextRv <= w'.store.services[k].rv < w'.store.nextRv)
    && (forall k :: k in w'.store.groups ==>
          || (k in w.store.groups && w.store.groups[k] == w'.store.groups[k])
          || w.store.nextRv <= w'.store.groups[k].rv < w'.store.nextRv)
  }

  /** What is stored after the step is well formed and knows its birth. */
  ghost predicate StoreOk(w: World) {
    && ServicesOk(w.store)
    && (forall k :: k in w.store.services ==> BornAt(w, k, w.store.services[k].uid))
    && (forall k :: k in w.store.groups ==> OwnedAtBirth(w, k, w.store.groups[k].owners))
    && (forall u :: u in w.born ==> u < w.store.nextUid)
  }

  lemma SeenPersists(w: World, w': World, key: Key, s: Service)
    requires Evolves(w, w') && Seen(w, key, s)
    ensures Seen(w', key, s)
  {
  }

  lemma SeenGroupPersists(w: World, w': World, key: Key, g: Group)
    requires Evolves(w, w') && SeenGroup(w, key, g)
    ensures SeenGroup(w', key, g)
  {
  }

  lemma SeenStorePersists(w: World, w': World, st: Store)
    requires Evolves(w, w') && SeenStore(w, st)
    ensures SeenStore(w', st)
  {
    forall k | k in st.services ensures Seen(w', k, st.services[k]) {
      SeenPersists(w, w', k, st.services[k]);
    }
    forall k | k in st.groups ensures SeenGroup(w', k, st.groups[k]) {
      SeenGroupPersists(w, w', k, st.groups[k]);
    }
  }

  lemma WorkerPersists(w: World, w': World, key: Key, worker: Worker)
    requires Evolves(w, w') && WorkerOk(w, key, worker)
    ensures WorkerOk(w', key, worker)
  {
    if !worker.Done? {
      SeenPersists(w, w', key, worker.base);
      if worker.UpdatingGroup? {
        SeenGroupPersists(w, w', key, worker.group);
      }
    }
  }

  lemma CurrentIsSeen(w: World, w': World)
    requires Inv(w) && Evolves(w, w') && StoreOk(w')
    ensures SeenStore(w', w'.store)
  {
    forall k | k in w'.store.services ensures Seen(w', k, w'.store.services[k]) {
      if k in w.store.services && w.store.services[k] == w'.store.services[k] {
        assert Seen(w, k, w.store.services[k]);
      }
    }
    forall k | k in w'.store.groups ensures SeenGroup(w', k, w'.store.groups[k]) {
      if k in w.store.groups && w.store.groups[k] == w'.store.groups[k] {
        assert SeenGroup(w, k, w.store.groups[k]);
      }
    }
  }

  /** A step keeps the invariant when it evolves the store, leaves it well formed, and
      every worker and request is an old one or was checked in the new world. */
  lemma Assemble(w: World, w': World)
    requires Inv(w) && Evolves(w, w') && StoreOk(w')
    requires w'.past == w.past + [w.store]
    requires forall k :: k in w'.workers ==>
               (k in w.workers && w'.workers[k] == w.workers[k]) || WorkerOk(w', k, w'.workers[k])
    requires forall id :: id in w'.puts ==>
               (id in w.puts && w'.puts[id] == w.puts[id]) || Seen(w', w'.puts[id].key, w'.puts[id].base)
    ensures Inv(w')
  {
    CurrentIsSeen(w, w');
    forall i | 0 <= i < |w'.past| ensures SeenStore(w', w'.past[i]) {
      SeenStorePersists(w, w', w'.past[i]);
    }
    forall k | k in w'.workers ensures WorkerOk(w', k, w'.workers[k]) {
      if k in w.workers && w'.workers[k] == w.workers[k] {
        WorkerPersists(w, w', k, w.workers[k]);
      }
    }
    forall id | id in w'.puts ensures Seen(w', w'.puts[id].key, w'.puts[id].base) {
      if id in w.puts && w'.puts[id] == w.puts[id] {
        SeenPersists(w, w', w.puts[id].key, w.puts[id].base);
      }
    }
  }

  // ----- Service writes -----

  /** Only the service under `key` is written, if any, and only with a new version. */
  lemma ServiceReplaced(w: World, w': World, key: Key)
    requires Inv(w)
    requires w.store.nextRv <= w'.store.nextRv && w.store.nextUid <= w'.store.nextUid
    requires forall u :: u in w.born ==> u in w'.born && w'.born[u] == w.born[u]
    requires forall u :: u in w'.born ==> u < w'.store.nextUid
    requires w'.store.groups == w.store.groups
    requires forall k :: k in w'.store.services && k != key ==>
               k in w.store.services && w.store.services[k] == w'.store.services[k]
    requires key in w'.store.services ==>
               && ServiceOk(w'.store.services[key]) && BornAt(w', key, w'.store.services[key].uid)
               && w.store.nextRv <= w'.store.services[key].rv < w'.store.nextRv
    ensures Evolves(w, w') && StoreOk(w')
  {
    forall k | k in w'.store.services
      ensures ServiceOk(w'.store.services[k]) && BornAt(w', k, w'.store.services[k].uid)
    {
      if k != key {
        assert ServiceOk(w.store.services[k]) && Seen(w, k, w.store.services[k]);
      }
    }
    forall k | k in w'.store.groups ensures OwnedAtBirth(w', k, w'.store.groups[k].owners) {
      assert SeenGroup(w, k, w.store.groups[k]);
    }
  }

  lemma CommitStep(w: World, w': World, key: Key, next: Service)
    requires Inv(w) && key in w.store.services
    requires next.uid == w.store.services[key].uid && SpecOk(next.spec) && StatusOk(next.status)
    requires w'.store == CommitService(w.store, key, next).0 && w'.born == w.born
    ensures Evolves(w, w') && StoreOk(w')
  {
    assert Seen(w, key, w.store.services[key]);
    if next == w.store.services[key] {
      Unchanged(w, w');
    } else {
      ServiceReplaced(w, w', key);
    }
  }

  lemma UpdateStep(w: World, w': World, key: Key, obj: Service)
    requires Inv(w)
    requires w'.store == UpdateService(w.store, key, obj).0 && w'.born == w.born
    ensures Evolves(w, w') && StoreOk(w')
  {
    if UpdateService(w.store, key, obj).1.Ok? {
      var was := w.store.services[key];
      CommitStep(w, w', key, was.(spec := Webhook.Defaulted(obj.spec), finalizers := obj.finalizers));
    } else {
      Unchanged(w, w');
    }
  }

  lemma StatusStep(w: World, w': World, key: Key, base: Service, ev: StatusEvent)
    requires Inv(w) && Seen(w, key, base)
    requires ev.Sync? ==> !ev.deleting
    requires w'.store == UpdateServiceStatus(w.store, key, base.(status := ApplyStatus(base.status, ev))).0
    requires w'.born == w.born
    ensures Evolves(w, w') && StoreOk(w')
  {
    if Current(w.store, key, base) {
      assert w.store.services[key] == base;
      ApplyKeepsStatusOk(base.status, ev);
      CommitStep(w, w', key, base.(status := ApplyStatus(base.status, ev)));
    } else {
      Unchanged(w, w');
    }
  }

  lemma CreateStep(w: World, w': World, key: Key, spec: ServiceSpec, finalizers: seq<string>,
                   profiles: map<Key, ProfileSpec>)
    requires Inv(w)
    requires
      var (st, reply) := CreateService(w.store, key, spec, finalizers, profiles, w.clock);
      w'.store == st && w'.born == if reply.Ok? then w.born[reply.value.uid := key] else w.born
    ensures Evolves(w, w') && StoreOk(w')
  {
    if CreateService(w.store, key, spec, finalizers, profiles, w.clock).1.Ok? {
      StatusOkInitially();
      ServiceReplaced(w, w', key);
    } else {
      Unchanged(w, w');
    }
  }

  lemma Unchanged(w: World, w': World)
    requires Inv(w)
    requires w'.store.services == w.store.services && w'.born == w.born
    requires w'.store.nextRv == w.store.nextRv && w'.store.nextUid == w.store.nextUid
    requires forall k :: k in w'.store.groups ==> k in w.store.groups && w'.store.groups[k] == w.store.groups[k]
    ensures Evolves(w, w') && StoreOk(w')
  {
    assert forall k :: k in w.store.services ==> Seen(w, k, w.store.services[k]);
    assert forall k :: k in w.store.groups ==> SeenGroup(w, k, w.store.groups[k]);
  }

  // ----- Group writes -----

  /** Only the group under `key` is written, and only with a new version. */
  lemma GroupReplaced(w: World, w': World, key: Key)
    requires Inv(w) && w'.born == w.born && w'.store.services == w.store.services
    requires w.store.nextRv <= w'.store.nextRv && w.store.nextUid <= w'.store.nextUid
    requires forall k :: k in w'.store.groups && k != key ==>
               k in w.store.groups && w.store.groups[k] == w'.store.groups[k]
    requires key in w'.store.groups ==>
               && OwnedAtBirth(w, key, w'.store.groups[key].owners)
               && w.store.nextRv <= w'.store.groups[key].rv < w'.store.nextRv
    ensures Evolves(w, w') && StoreOk(w')
  {
    forall k | k in w'.store.services ensures BornAt(w', k, w'.store.services[k].uid) {
      assert Seen(w, k, w.store.services[k]);
    }
    forall k | k in w'.store.groups ensures OwnedAtBirth(w', k, w'.store.groups[k].owners) {
      if k != key {
        assert SeenGroup(w, k, w.store.groups[k]);
      }
    }
  }

  lemma GroupStep(w: World, w': World, key: Key, next: Group)
    requires Inv(w) && key in w.store.groups && OwnedAtBirth(w, key, next.owners)
    requires w'.store == CommitGroup(w.store, key, next).0 && w'.born == w.born
    ensures Evolves(w, w') && StoreOk(w')
  {
    if next == w.store.groups[key] {
      Unchanged(w, w');
    } else {
      GroupReplaced(w, w', key);
    }
  }

  lemma CreateGroupStep(w: World, w': World, key: Key, owners: seq<OwnerRef>, roles: seq<RoleSpec>)
    requires Inv(w) && OwnedAtBirth(w, key, owners)
    requires w'.store == CreateGroup(w.store, key, owners, roles).0 && w'.born == w.born
    ensures Evolves(w, w') && StoreOk(w')
  {
    if key in w.store.groups {
      Unchanged(w, w');
    } else {
      GroupReplaced(w, w', key);
    }
  }

  lemma UpdateGroupStep(w: World, w': World, key: Key, obj: Group)
    requires Inv(w) && OwnedAtBirth(w, key, obj.owners)
    requires w'.store == UpdateGroup(w.store, key, obj).0 && w'.born == w.born
    ensures Evolves(w, w') && StoreOk(w')
  {
    if UpdateGroup(w.store, key, obj).1.Ok? {
      GroupStep(w, w', key,
                w.store.groups[key].(owners := obj.owners, roles := obj.roles, otherSpec := obj.otherSpec));
    } else {
      Unchanged(w, w');
    }
  }

  // ----- Steps of a reconcile -----

  lemma ViewIsSeen(w: World, view: Option<nat>)
    requires Inv(w)
    ensures SeenStore(w, View(w, view))
  {
  }

  lemma ContinueEvolves(parse: Parser, w: World, w': World, key: Key, view: Store, lookupFails: bool)
    requires Inv(w) && key in w.workers
    requires w'.store == Advance(parse, view, w.store, key, w.clock, lookupFails, w.workers[key]).0
    requires w'.born == w.born
    ensures Evolves(w, w') && StoreOk(w')
  {
    var worker := w.workers[key];
    assert WorkerOk(w, key, worker);
    match worker
    case AddingFinalizer(_) => UpdateStep(w, w', key, WrittenBase(worker));
    case RemovingFinalizer(_) => UpdateStep(w, w', key, WrittenBase(worker));
    case CreatingGroup(_, desired) => CreateGroupStep(w, w', key, desired.owners, desired.roles);
    case UpdatingGroup(_, group, desired) => UpdateGroupStep(w, w', key, group.(roles := desired.roles));
    case WritingStatus(base, ev) => StatusStep(w, w', key, base, ev);
    case _ => Unchanged(w, w');
  }

  /** An admitted finalizer write hands back the stored service, which nobody had
      marked for deletion. */
  lemma AddedFinalizer(w: World, key: Key, base: Service)
    requires Inv(w) && Seen(w, key, base) && !base.deleting
    ensures
      var (st, reply) := UpdateService(w.store, key, base.(finalizers := base.finalizers + [FINALIZER]));
      reply.Ok? ==>
        && key in st.services && st.services[key] == reply.value
        && reply.value.uid == base.uid && !reply.value.deleting
        && FINALIZER in reply.value.finalizers
  {
  }

  lemma ContinueWorker(parse: Parser, w: World, w': World, key: Key, view: Option<nat>, lookupFails: bool)
    requires Inv(w) && key in w.workers && Evolves(w, w') && StoreOk(w')
    requires w'.store == Advance(parse, View(w, view), w.store, key, w.clock, lookupFails, w.workers[key]).0
    ensures WorkerOk(w', key, Advance(parse, View(w, view), w.store, key, w.clock, lookupFails, w.workers[key]).1)
  {
    var worker := w.workers[key];
    assert WorkerOk(w, key, worker);
    if !worker.Done? {
      SeenPersists(w, w', key, worker.base);
      match worker
      case AddingFinalizer(base) =>
        AddedFinalizer(w, key, base);
        CurrentIsSeen(w, w');
      case GettingGroup(_, _) =>
        ViewIsSeen(w, view);
        if key in View(w, view).groups {
          SeenGroupPersists(w, w', key, View(w, view).groups[key]);
        }
      case _ =>
    }
  }

  lemma ContinueKeepsInv(parse: Parser, w: World, key: Key, view: Option<nat>, lookupFails: bool)
    requires Inv(w)
    ensures Inv(Next(parse, w, Continue(key, view, lookupFails)))
  {
    var w' := Next(parse, w, Continue(key, view, lookupFails));
    if key in w.workers && !w.workers[key].Done? {
      ContinueEvolves(parse, w, w', key, View(w, view), lookupFails);
      ContinueWorker(parse, w, w', key, view, lookupFails);
    } else {
      Unchanged(w, w');
    }
    Assemble(w, w');
  }

  lemma BegunWorkerOk(w: World, view: Store, key: Key)
    requires SeenStore(w, view)
    ensures WorkerOk(w, key, Begin(view, key))
  {
    if key in view.services {
      assert Seen(w, key, view.services[key]);
    }
  }

  lemma StartKeepsInv(parse: Parser, w: World, key: Key, view: Option<nat>)
    requires Inv(w)
    ensures Inv(Next(parse, w, Start(key, view)))
  {
    var w' := Next(parse, w, Start(key, view));
    Unchanged(w, w');
    ViewIsSeen(w, view);
    SeenStorePersists(w, w', View(w, view));
    BegunWorkerOk(w', View(w, view), key);
    Assemble(w, w');
  }

  // ----- The other steps -----

  /** A world that differs by one request, based on what is stored now. */
  lemma RequestAdded(w: World, w': World, id: nat, put: Put)
    requires Inv(w)
    requires w' == w.(past := w.past + [w.store], puts := w.puts[id := put])
    requires put.key in w.store.services && w.store.services[put.key] == put.base
    ensures Inv(w')
  {
    Unchanged(w, w');
    assert Seen(w, put.key, put.base);
    SeenPersists(w, w', put.key, put.base);
    Assemble(w, w');
  }

  lemma NothingMoved(w: World, w': World)
    requires Inv(w) && w' == w.(past := w.past + [w.store])
    ensures Inv(w')
  {
    Unchanged(w, w');
    Assemble(w, w');
  }

  lemma PutReadKeepsInv(parse: Parser, w: World, id: nat, key: Key, req: PutRequest)
    requires Inv(w)
    ensures Inv(Next(parse, w, PutRead(id, key, req)))
  {
    var w' := Next(parse, w, PutRead(id, key, req));
    if req.model == "" && key in w.store.services && id !in w.puts {
      RequestAdded(w, w', id, Put(key, req, w.store.services[key]));
    } else {
      NothingMoved(w, w');
    }
  }

  lemma ServiceWriteEvolves(w: World, w': World, l: Label)
    requires Inv(w)
    requires l.EditSvc? || l.DeleteSvc? || l.PutWrite?
    requires w'.store == ServiceReply(w, l).0 && w'.born == w.born
    ensures Evolves(w, w') && StoreOk(w')
  {
    match l {
      case EditSvc(key, spec, finalizers) =>
        if w'.store == w.store {
          Unchanged(w, w');
        } else {
          UpdateStep(w, w', key, w.store.services[key].(spec := spec, finalizers := finalizers));
        }
      case DeleteSvc(key) =>
        if key in w.store.services {
          assert ServiceOk(w.store.services[key]);
          CommitStep(w, w', key, w.store.services[key].(deleting := true));
        } else {
          Unchanged(w, w');
        }
      case PutWrite(id) =>
        if id in w.puts {
          var p := w.puts[id];
          UpdateStep(w, w', p.key, p.base.(spec := Scaled(p.base.spec, p.req)));
        } else {
          Unchanged(w, w');
        }
    }
  }

  lemma ServiceWriteKeepsInv(parse: Parser, w: World, l: Label)
    requires Inv(w)
    requires l.CreateSvc? || l.EditSvc? || l.DeleteSvc? || l.PutWrite?
    ensures Inv(Next(parse, w, l))
  {
    var w' := Next(parse, w, l);
    if l.CreateSvc? {
      CreateStep(w, w', l.key, l.spec, l.finalizers, View(w, l.view).profiles);
    } else {
      ServiceWriteEvolves(w, w', l);
    }
    Assemble(w, w');
  }

  lemma EnvironmentEvolves(w: World, w': World, l: Label)
    requires Inv(w)
    requires w'.store == EnvironmentStore(w.store, l) && w'.born == w.born
    ensures Evolves(w, w') && StoreOk(w')
  {
    if (l.GroupReports? || l.GroupOverwritten?) && l.key in w.store.groups {
      var g := w.store.groups[l.key];
      assert SeenGroup(w, l.key, g);
      GroupStep(w, w', l.key,
                if l.GroupReports? then g.(status := l.status) else g.(roles := l.roles, otherSpec := l.otherSpec));
    } else {
      Unchanged(w, w');
    }
  }

  lemma EnvironmentKeepsInv(parse: Parser, w: World, l: Label)
    requires Inv(w)
    requires l.SetProfile? || l.DropProfile? || l.GroupReports? || l.GroupOverwritten? || l.GroupDeleted? ||
             l.CollectGroup? || l.Abort? || l.Restart? || l.Tick?
    ensures Inv(Next(parse, w, l))
  {
    EnvironmentEvolves(w, Next(parse, w, l), l);
    Assemble(w, Next(parse, w, l));
  }

  lemma NextKeepsInv(parse: Parser, w: World, l: Label)
    requires Inv(w)
    ensures Inv(Next(parse, w, l))
  {
    match l
    case PutRead(id, key, req) => PutReadKeepsInv(parse, w, id, key, req);
    case Start(key, view) => StartKeepsInv(parse, w, key, view);
    case Continue(key, view, lookupFails) => ContinueKeepsInv(parse, w, key, view, lookupFails);
    case _ =>
      if l.CreateSvc? || l.EditSvc? || l.DeleteSvc? || l.PutWrite? {
        ServiceWriteKeepsInv(parse, w, l);
      } else {
        EnvironmentKeepsInv(parse, w, l);
      }
  }

  /** Every world of every run satisfies the invariant, stale reads included. */
  lemma {:induction false} RunsKeepInv(parse: Parser, w: World, ls: seq<Label>)
    requires Inv(w)
    ensures Inv(Exec(parse, w, ls))
  {
    if ls != [] {
      RunsKeepInv(parse, w, ls[..|ls| - 1]);
      NextKeepsInv(parse, Exec(parse, w, ls[..|ls| - 1]), ls[|ls| - 1]);
    }
  }

  lemma InitialInv(profiles: map<Key, ProfileSpec>, clock: int)
    ensures Inv(Initial(profiles, clock))
  {
  }
}
