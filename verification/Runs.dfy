/** What holds over whole runs of the protocol, in every interleaving of reconciles,
    REST requests, user edits, deletions, profile and group changes, and with stale
    reads unless a lemma says otherwise.
 */
module Runs {
  import opened Types
  import opened Status
  import opened History
  import opened ApiServer
  import opened Reconcile
  import opened Scaling
  import opened Protocol
  import opened Invariant
  import Webhook

  // ----- Writes that succeeded -----

  datatype SpecWrite = Replace(spec: ServiceSpec) | Scale(req: PutRequest)

  function ApplySpec(spec: ServiceSpec, write: SpecWrite): ServiceSpec {
    match write
    case Replace(s) => s
    case Scale(req) => Scaled(spec, req)
  }

  function FoldSpec(spec: ServiceSpec, writes: seq<SpecWrite>): ServiceSpec {
    if writes == [] then spec else ApplySpec(FoldSpec(spec, writes[..|writes| - 1]), writes[|writes| - 1])
  }

  /** The spec write that this step makes to the service, if the server accepts it:
      a user's edit or a PUT request, and nothing else. */
  function SpecWriteOf(w: World, l: Label, key: Key): seq<SpecWrite> {
    match l
    case EditSvc(k, spec, _) =>
      if k == key && ServiceReply(w, l).1.Ok? then [Replace(Webhook.Defaulted(spec))] else []
    case PutWrite(id) =>
      if id in w.puts && w.puts[id].key == key && ServiceReply(w, l).1.Ok? then [Scale(w.puts[id].req)] else []
    case _ => []
  }

  /** The status write that this step makes to the service, if the server accepts it. */
  function StatusWriteOf(w: World, l: Label, key: Key): seq<StatusEvent> {
    match l
    case Continue(k, _, _) =>
      if && k == key && k in w.workers && w.workers[k].WritingStatus?
         && UpdateServiceStatus(w.store, k, WrittenBase(w.workers[k])).1.Ok?
      then [w.workers[k].ev] else []
    case _ => []
  }

  function SpecTrace(parse: Parser, w: World, ls: seq<Label>, key: Key): seq<SpecWrite> {
    if ls == [] then []
    else
      var init := ls[..|ls| - 1];
      SpecTrace(parse, w, init, key) + SpecWriteOf(Exec(parse, w, init), ls[|ls| - 1], key)
  }

  function StatusTrace(parse: Parser, w: World, ls: seq<Label>, key: Key): seq<StatusEvent> {
    if ls == [] then []
    else
      var init := ls[..|ls| - 1];
      StatusTrace(parse, w, init, key) + StatusWriteOf(Exec(parse, w, init), ls[|ls| - 1], key)
  }

  // ----- One step -----

  predicate SameService(st: Store, st': Store, key: Key) {
    key in st.services && key in st'.services && st.services[key].uid == st'.services[key].uid
  }

  /** The service differs only by these spec and status writes. */
  predicate WrittenBy(st: Store, st': Store, key: Key, specs: seq<SpecWrite>, events: seq<StatusEvent>)
    requires SameService(st, st', key)
  {
    var s, s' := st.services[key], st'.services[key];
    && s'.spec == FoldSpec(s.spec, specs)
    && s'.status == ApplyAll(s.status, events)
    && s'.created == s.created
    && Webhook.UpdateAllowed(s.spec, s'.spec)
  }

  lemma ApplyOne(s: ServiceStatus, ev: StatusEvent)
    ensures ApplyAll(s, [ev]) == ApplyStatus(s, ev)
  {
    assert ApplyAll(s, [ev][..0]) == s;
  }

  lemma FoldOne(spec: ServiceSpec, write: SpecWrite)
    ensures FoldSpec(spec, [write]) == ApplySpec(spec, write)
  {
    assert FoldSpec(spec, [write][..0]) == spec;
  }

  /** Steps that write no service at all. */
  predicate Quiet(w: World, l: Label) {
    match l
    case CreateSvc(_, _, _, _) => false
    case EditSvc(_, _, _) => false
    case DeleteSvc(_) => false
    case PutWrite(_) => false
    case Continue(key, _, _) =>
      key in w.workers ==>
        !w.workers[key].AddingFinalizer? && !w.workers[key].RemovingFinalizer? && !w.workers[key].WritingStatus?
    case _ => true
  }

  lemma QuietStep(parse: Parser, w: World, l: Label)
    requires Quiet(w, l)
    ensures Next(parse, w, l).store.services == w.store.services
    ensures w.store.nextUid <= Next(parse, w, l).store.nextUid
  {
  }

  /** The store after a step that writes a service. */
  function Written(w: World, l: Label): Store
    requires !Quiet(w, l)
  {
    if !l.Continue? then ServiceReply(w, l).0
    else if w.workers[l.key].WritingStatus? then
      UpdateServiceStatus(w.store, l.key, WrittenBase(w.workers[l.key])).0
    else
      UpdateService(w.store, l.key, WrittenBase(w.workers[l.key])).0
  }

  lemma WriteStep(parse: Parser, w: World, l: Label)
    requires !Quiet(w, l)
    ensures Next(parse, w, l).store == Written(w, l)
  {
  }

  /** An update writes the defaulted spec and leaves the status alone. */
  lemma UpdateHistory(st: Store, k: Key, obj: Service, key: Key)
    requires SameService(st, UpdateService(st, k, obj).0, key)
    ensures
      var (st', reply) := UpdateService(st, k, obj);
      WrittenBy(st, st', key, if k == key && reply.Ok? then [Replace(Webhook.Defaulted(obj.spec))] else [], [])
  {
    UpdateFacts(st, k, obj);
    FoldOne(st.services[key].spec, Replace(Webhook.Defaulted(obj.spec)));
    assert k != key ==> SameAt(st, UpdateService(st, k, obj).0, key);
  }

  /** What was read is, if the write is accepted, what is stored. */
  lemma AcceptedBase(w: World, k: Key, base: Service, obj: Service)
    requires Inv(w) && Seen(w, k, base) && obj.uid == base.uid && obj.rv == base.rv
    requires UpdateService(w.store, k, obj).1.Ok?
    ensures k in w.store.services && w.store.services[k] == base && SpecOk(base.spec)
  {
    assert ServiceOk(w.store.services[k]);
  }

  lemma FinalizerHistory(w: World, k: Key, key: Key)
    requires Inv(w) && k in w.workers && (w.workers[k].AddingFinalizer? || w.workers[k].RemovingFinalizer?)
    requires SameService(w.store, UpdateService(w.store, k, WrittenBase(w.workers[k])).0, key)
    ensures WrittenBy(w.store, UpdateService(w.store, k, WrittenBase(w.workers[k])).0, key, [], [])
  {
    var worker := w.workers[k];
    var obj := WrittenBase(worker);
    UpdateHistory(w.store, k, obj, key);
    if k == key && UpdateService(w.store, k, obj).1.Ok? {
      assert WorkerOk(w, k, worker);
      AcceptedBase(w, k, worker.base, obj);
      FoldOne(worker.base.spec, Replace(Webhook.Defaulted(obj.spec)));
    }
  }

  lemma StatusHistory(w: World, k: Key, key: Key)
    requires Inv(w) && k in w.workers && w.workers[k].WritingStatus?
    requires SameService(w.store, UpdateServiceStatus(w.store, k, WrittenBase(w.workers[k])).0, key)
    ensures
      var worker := w.workers[k];
      var (st, reply) := UpdateServiceStatus(w.store, k, WrittenBase(worker));
      WrittenBy(w.store, st, key, [], if k == key && reply.Ok? then [worker.ev] else [])
  {
    var worker := w.workers[k];
    assert WorkerOk(w, k, worker);
    StatusFacts(w.store, k, WrittenBase(worker));
    ApplyOne(worker.base.status, worker.ev);
  }

  lemma PutHistory(w: World, id: nat, key: Key)
    requires Inv(w) && id in w.puts && SameService(w.store, ServiceReply(w, PutWrite(id)).0, key)
    ensures
      var p := w.puts[id];
      var (st, reply) := ServiceReply(w, PutWrite(id));
      WrittenBy(w.store, st, key, if p.key == key && reply.Ok? then [Scale(p.req)] else [], [])
  {
    var p := w.puts[id];
    var obj := p.base.(spec := Scaled(p.base.spec, p.req));
    UpdateHistory(w.store, p.key, obj, key);
    if p.key == key && UpdateService(w.store, key, obj).1.Ok? {
      assert Seen(w, p.key, p.base);
      AcceptedBase(w, key, p.base, obj);
      FoldOne(p.base.spec, Replace(Webhook.Defaulted(obj.spec)));
      FoldOne(p.base.spec, Scale(p.req));
    }
  }

  lemma EditHistory(w: World, l: Label, key: Key)
    requires l.EditSvc? && SameService(w.store, ServiceReply(w, l).0, key)
    ensures
      var (st, reply) := ServiceReply(w, l);
      WrittenBy(w.store, st, key,
                if l.key == key && reply.Ok? then [Replace(Webhook.Defaulted(l.spec))] else [], [])
  {
    var (st, reply) := ServiceReply(w, l);
    if l.key in w.store.services && st != w.store {
      UpdateHistory(w.store, l.key, w.store.services[l.key].(spec := l.spec, finalizers := l.finalizers), key);
    } else if l.key == key && reply.Ok? {
      UpdateHistory(w.store, l.key, w.store.services[l.key].(spec := l.spec, finalizers := l.finalizers), key);
    }
  }

  lemma DeleteHistory(st: Store, k: Key, key: Key)
    requires SameService(st, DeleteService(st, k).0, key)
    ensures WrittenBy(st, DeleteService(st, k).0, key, [], [])
  {
    if k in st.services {
      CommitFacts(st, k, st.services[k].(deleting := true));
    }
  }

  lemma ContinueHistory(w: World, l: Label, key: Key)
    requires Inv(w) && l.Continue? && !Quiet(w, l) && SameService(w.store, Written(w, l), key)
    ensures WrittenBy(w.store, Written(w, l), key, [], StatusWriteOf(w, l, key))
  {
    if w.workers[l.key].WritingStatus? {
      StatusHistory(w, l.key, key);
    } else {
      FinalizerHistory(w, l.key, key);
    }
  }

  lemma RequestHistory(w: World, l: Label, key: Key)
    requires Inv(w) && !l.Continue? && !Quiet(w, l) && SameService(w.store, Written(w, l), key)
    ensures WrittenBy(w.store, Written(w, l), key, SpecWriteOf(w, l, key), [])
  {
    match l {
      case PutWrite(id) =>
        if id in w.puts {
          PutHistory(w, id, key);
        }
      case EditSvc(_, _, _) => EditHistory(w, l, key);
      case DeleteSvc(k) => DeleteHistory(w.store, k, key);
      case CreateSvc(_, _, _, _) =>
    }
  }

  lemma StepHistory(parse: Parser, w: World, l: Label, key: Key)
    requires Inv(w) && SameService(w.store, Next(parse, w, l).store, key)
    ensures WrittenBy(w.store, Next(parse, w, l).store, key, SpecWriteOf(w, l, key), StatusWriteOf(w, l, key))
  {
    if Quiet(w, l) {
      QuietStep(parse, w, l);
      assert SpecWriteOf(w, l, key) == [] && StatusWriteOf(w, l, key) == [];
    } else {
      WriteStep(parse, w, l);
      if l.Continue? {
        ContinueHistory(w, l, key);
      } else {
        RequestHistory(w, l, key);
      }
    }
  }

  /** This step creates the service. */
  predicate Creates(w: World, l: Label, key: Key) {
    l.CreateSvc? && l.key == key && ServiceReply(w, l).1.Ok?
  }

  /** What a new service starts with. */
  predicate JustCreated(w: World, s: Service) {
    s.uid == w.store.nextUid && s.status == EMPTY_STATUS && Webhook.CreateAllowed(s.spec, true)
  }

  lemma WriteKeepsUid(w: World, l: Label, key: Key)
    requires !Quiet(w, l)
    ensures w.store.nextUid <= Written(w, l).nextUid
    ensures key in Written(w, l).services ==>
              if Creates(w, l, key) then JustCreated(w, Written(w, l).services[key])
              else SameService(w.store, Written(w, l), key)
  {
    match l {
      case Continue(k, _, _) =>
        if w.workers[k].WritingStatus? {
          StatusFacts(w.store, k, WrittenBase(w.workers[k]));
        } else {
          UpdateFacts(w.store, k, WrittenBase(w.workers[k]));
        }
      case PutWrite(id) =>
        if id in w.puts {
          var p := w.puts[id];
          UpdateFacts(w.store, p.key, p.base.(spec := Scaled(p.base.spec, p.req)));
        }
      case EditSvc(k, spec, finalizers) =>
        if k in w.store.services {
          UpdateFacts(w.store, k, w.store.services[k].(spec := spec, finalizers := finalizers));
        }
      case DeleteSvc(k) =>
        if k in w.store.services {
          CommitFacts(w.store, k, w.store.services[k].(deleting := true));
        }
      case CreateSvc(_, _, _, _) =>
    }
  }

  /** A service that is there after a step was there before, unless the step created it
      with a uid never handed out before. */
  lemma StepKeepsUid(parse: Parser, w: World, l: Label, key: Key)
    ensures w.store.nextUid <= Next(parse, w, l).store.nextUid
    ensures key in Next(parse, w, l).store.services ==>
              if Creates(w, l, key) then JustCreated(w, Next(parse, w, l).store.services[key])
              else SameService(w.store, Next(parse, w, l).store, key)
  {
    if Quiet(w, l) {
      QuietStep(parse, w, l);
    } else {
      WriteStep(parse, w, l);
      WriteKeepsUid(w, l, key);
    }
  }

  // ----- No lost updates -----

  /** For the life of a uid, the stored spec is the result of exactly the accepted user
      edits and PUT requests, in order, each applied to what the previous one left,
      and the stored status that of the accepted status writes. No reconcile changes
      a spec, no PUT drops another writer's edit, and model, engine and profile
      reference never change. */
  lemma {:induction false} NoLostUpdates(parse: Parser, w: World, ls: seq<Label>, key: Key)
    requires Inv(w) && SameService(w.store, Exec(parse, w, ls).store, key)
    ensures WrittenBy(w.store, Exec(parse, w, ls).store, key,
                      SpecTrace(parse, w, ls, key), StatusTrace(parse, w, ls, key))
  {
    if ls != [] {
      var init, last := ls[..|ls| - 1], ls[|ls| - 1];
      var mid := Exec(parse, w, init);
      RunsKeepInv(parse, w, init);
      UidsGrow(parse, w, init);
      assert Seen(w, key, w.store.services[key]);
      WasThere(parse, mid, last, key, w.store.services[key].uid);
      NoLostUpdates(parse, w, init, key);
      StepExtendsHistory(parse, w.store, mid, last, key,
                         SpecTrace(parse, w, init, key), StatusTrace(parse, w, init, key));
    }
  }

  lemma WasThere(parse: Parser, w: World, l: Label, key: Key, uid: nat)
    requires uid < w.store.nextUid
    requires key in Next(parse, w, l).store.services && Next(parse, w, l).store.services[key].uid == uid
    ensures key in w.store.services && w.store.services[key].uid == uid
  {
    StepKeepsUid(parse, w, l, key);
  }

  lemma StepExtendsHistory(parse: Parser, st: Store, mid: World, l: Label, key: Key,
                           specs: seq<SpecWrite>, events: seq<StatusEvent>)
    requires Inv(mid) && SameService(st, mid.store, key) && SameService(st, Next(parse, mid, l).store, key)
    requires WrittenBy(st, mid.store, key, specs, events)
    ensures WrittenBy(st, Next(parse, mid, l).store, key,
                      specs + SpecWriteOf(mid, l, key), events + StatusWriteOf(mid, l, key))
  {
    StepHistory(parse, mid, l, key);
    HistoryExtends(st, mid.store, Next(parse, mid, l).store, key, specs, events,
                   SpecWriteOf(mid, l, key), StatusWriteOf(mid, l, key));
  }

  lemma HistoryExtends(st: Store, mid: Store, end: Store, key: Key, specs: seq<SpecWrite>, events: seq<StatusEvent>,
                       spec: seq<SpecWrite>, event: seq<StatusEvent>)
    requires SameService(st, mid, key) && WrittenBy(st, mid, key, specs, events)
    requires SameService(mid, end, key) && WrittenBy(mid, end, key, spec, event)
    requires |spec| <= 1 && |event| <= 1
    ensures WrittenBy(st, end, key, specs + spec, events + event)
  {
    AppendSpec(st.services[key].spec, specs, spec);
    AppendStatus(st.services[key].status, events, event);
  }

  lemma {:induction false} UidsGrow(parse: Parser, w: World, ls: seq<Label>)
    ensures w.store.nextUid <= Exec(parse, w, ls).store.nextUid
  {
    if ls != [] {
      UidsGrow(parse, w, ls[..|ls| - 1]);
      StepKeepsUid(parse, Exec(parse, w, ls[..|ls| - 1]), ls[|ls| - 1], Key("", ""));
    }
  }

  lemma AppendSpec(spec: ServiceSpec, a: seq<SpecWrite>, b: seq<SpecWrite>)
    requires |b| <= 1
    ensures FoldSpec(spec, a + b) == FoldSpec(FoldSpec(spec, a), b)
  {
    if b == [] {
      assert a + b == a;
    } else {
      FoldOne(FoldSpec(spec, a), b[0]);
      assert (a + b)[..|a|] == a && b == [b[0]];
    }
  }

  lemma AppendStatus(s: ServiceStatus, a: seq<StatusEvent>, b: seq<StatusEvent>)
    requires |b| <= 1
    ensures ApplyAll(s, a + b) == ApplyAll(ApplyAll(s, a), b)
  {
    if b == [] {
      assert a + b == a;
    } else {
      ApplyOne(ApplyAll(s, a), b[0]);
      assert (a + b)[..|a|] == a && b == [b[0]];
    }
  }

  lemma PutReplaces(w: World, id: nat)
    requires Inv(w) && id in w.puts && ServiceReply(w, PutWrite(id)).1.Ok?
    ensures
      var key, req := w.puts[id].key, w.puts[id].req;
      var after := ServiceReply(w, PutWrite(id)).0;
      && key in w.store.services && key in after.services
      && after.services[key] ==
         w.store.services[key].(spec := after.services[key].spec, rv := after.services[key].rv)
      && OnlyNamedCounts(w.store.services[key].spec, after.services[key].spec, req)
      && after.services - {key} == w.store.services - {key}
      && after.groups == w.store.groups && after.profiles == w.store.profiles
  {
    var p := w.puts[id];
    var obj := p.base.(spec := Scaled(p.base.spec, p.req));
    assert Seen(w, p.key, p.base);
    AcceptedBase(w, p.key, p.base, obj);
    assert ServiceOk(p.base);
    CommitFacts(w.store, p.key, obj);
    ScaledIs(p.base.spec, obj.spec, p.req);
  }

  /** A PUT that succeeds changes what is stored at the moment of the write only by the
      replica counts it names. */
  lemma PutChangesOnlyReplicas(parse: Parser, profiles: map<Key, ProfileSpec>, clock: int, ls: seq<Label>, id: nat)
    ensures
      var w := Exec(parse, Initial(profiles, clock), ls);
      id in w.puts && ServiceReply(w, PutWrite(id)).1.Ok? ==>
        var key, req := w.puts[id].key, w.puts[id].req;
        var after := Next(parse, w, PutWrite(id)).store;
        && key in w.store.services && key in after.services
        && after.services[key] ==
           w.store.services[key].(spec := after.services[key].spec, rv := after.services[key].rv)
        && OnlyNamedCounts(w.store.services[key].spec, after.services[key].spec, req)
        && after.services - {key} == w.store.services - {key}
        && after.groups == w.store.groups && after.profiles == w.store.profiles
  {
    var w := Exec(parse, Initial(profiles, clock), ls);
    InitialInv(profiles, clock);
    RunsKeepInv(parse, Initial(profiles, clock), ls);
    if id in w.puts && ServiceReply(w, PutWrite(id)).1.Ok? {
      WriteStep(parse, w, PutWrite(id));
      PutReplaces(w, id);
    }
  }

  lemma RolesUpdated(w: World, key: Key, group: Group, roles: seq<RoleSpec>)
    requires SeenGroup(w, key, group)
    ensures
      var (after, reply) := UpdateGroup(w.store, key, group.(roles := roles));
      reply.Ok? ==>
        && key in w.store.groups && key in after.groups
        && after.groups[key] == w.store.groups[key].(roles := roles, rv := after.groups[key].rv)
        && after.groups - {key} == w.store.groups - {key}
        && after.services == w.store.services && after.profiles == w.store.profiles
  {
  }

  /** The same for groups: an accepted update by a reconcile changes what is stored at
      that moment only in its roles, so whatever another writer did to the rest of
      the group since it was read survives. */
  lemma UpdateChangesOnlyRoles(parse: Parser, profiles: map<Key, ProfileSpec>, clock: int, ls: seq<Label>, l: Label)
    requires
      var w := Exec(parse, Initial(profiles, clock), ls);
      && l.Continue? && l.key in w.workers && w.workers[l.key].UpdatingGroup?
      && UpdateGroup(w.store, l.key, w.workers[l.key].group.(roles := w.workers[l.key].desired.roles)).1.Ok?
    ensures
      var w := Exec(parse, Initial(profiles, clock), ls);
      var st, after := w.store, Next(parse, w, l).store;
      && l.key in st.groups && l.key in after.groups
      && after.groups[l.key] ==
         st.groups[l.key].(roles := w.workers[l.key].desired.roles, rv := after.groups[l.key].rv)
      && after.groups - {l.key} == st.groups - {l.key}
      && after.services == st.services && after.profiles == st.profiles
  {
    var w := Exec(parse, Initial(profiles, clock), ls);
    InitialInv(profiles, clock);
    RunsKeepInv(parse, Initial(profiles, clock), ls);
    var worker := w.workers[l.key];
    assert WorkerOk(w, l.key, worker);
    RolesUpdated(w, l.key, worker.group, worker.desired.roles);
    assert Next(parse, w, l).store == UpdateGroup(w.store, l.key, worker.group.(roles := worker.desired.roles)).0;
  }
}
