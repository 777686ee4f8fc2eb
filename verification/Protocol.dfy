/** The whole system as a labelled state machine: reconciles split at their client
    calls, REST requests split between read and write, and everything else that can
    touch the store. A label carries every choice, so a run is a sequence of labels.

    Environment assumptions built into the steps: one reconcile per key at a time;
    only the controller writes a service's status and removes its finalizer; only the
    controller creates groups and sets their owners.
 */
module Protocol {
  import opened Types
  import opened ApiServer
  import opened Reconcile
  import opened Scaling

  /** A PUT request between its read and its write. */
  datatype Put = Put(key: Key, req: PutRequest, base: Service)

  /** `past` holds the earlier stores, which cached reads may still answer from, and
      `born` remembers the key of every service uid ever handed out. */
  datatype World = World(
    store: Store,
    past: seq<Store>,
    workers: map<Key, Worker>,
    puts: map<nat, Put>,
    clock: int,
    born: map<nat, Key>)

  /** `view` is `None` for a current read, or the position of an earlier store. A restart
      of the manager process loses every running reconcile and request. */
  datatype Label =
    | CreateSvc(key: Key, spec: ServiceSpec, finalizers: seq<string>, view: Option<nat>)
    | EditSvc(key: Key, spec: ServiceSpec, finalizers: seq<string>)
    | DeleteSvc(key: Key)
    | PutRead(id: nat, key: Key, req: PutRequest)
    | PutWrite(id: nat)
    | SetProfile(key: Key, profile: ProfileSpec)
    | DropProfile(key: Key)
    | GroupReports(key: Key, status: GroupStatus)
    | GroupOverwritten(key: Key, roles: seq<RoleSpec>, otherSpec: string)
    | GroupDeleted(key: Key)
    | CollectGroup(key: Key)
    | Start(key: Key, view: Option<nat>)
    | Continue(key: Key, view: Option<nat>, lookupFails: bool)
    | Abort(key: Key)
    | Restart
    | Tick(elapsed: nat)

  function View(w: World, view: Option<nat>): Store {
    if view.Some? && view.value < |w.past| then w.past[view.value] else w.store
  }

  /** The service write that a label attempts, with the server's answer. */
  function ServiceReply(w: World, l: Label): (Store, Reply<Service>) {
    match l
    case CreateSvc(key, spec, finalizers, view) =>
      CreateService(w.store, key, spec, finalizers, View(w, view).profiles, w.clock)
    case EditSvc(key, spec, finalizers) =>
      if key !in w.store.services then (w.store, NotFound)
      else
        var s := w.store.services[key];
        if FINALIZER in s.finalizers && FINALIZER !in finalizers then (w.store, Invalid)
        else UpdateService(w.store, key, s.(spec := spec, finalizers := finalizers))
    case DeleteSvc(key) => DeleteService(w.store, key)
    case PutWrite(id) =>
      if id !in w.puts then (w.store, NotFound)
      else
        var p := w.puts[id];
        UpdateService(w.store, p.key, p.base.(spec := Scaled(p.base.spec, p.req)))
    case _ => (w.store, NotFound)
  }

  /** The effect of a step of some other writer on groups and profiles. */
  function EnvironmentStore(st: Store, l: Label): Store {
    match l
    case SetProfile(key, profile) => st.(profiles := st.profiles[key := profile])
    case DropProfile(key) => st.(profiles := st.profiles - {key})
    case GroupReports(key, status) =>
      if key in st.groups then CommitGroup(st, key, st.groups[key].(status := status)).0 else st
    case GroupOverwritten(key, roles, otherSpec) =>
      if key in st.groups then CommitGroup(st, key, st.groups[key].(roles := roles, otherSpec := otherSpec)).0 else st
    case GroupDeleted(key) => st.(groups := st.groups - {key})
    case CollectGroup(key) => Collect(st, key)
    case _ => st
  }

  function Move(parse: Parser, w: World, l: Label): World {
    match l
    case CreateSvc(key, _, _, _) =>
      var (st, reply) := ServiceReply(w, l);
      w.(store := st, born := if reply.Ok? then w.born[reply.value.uid := key] else w.born)
    case EditSvc(_, _, _) => w.(store := ServiceReply(w, l).0)
    case DeleteSvc(_) => w.(store := ServiceReply(w, l).0)
    case PutRead(id, key, req) =>
      if req.model == "" && key in w.store.services && id !in w.puts
      then w.(puts := w.puts[id := Put(key, req, w.store.services[key])])
      else w
    case PutWrite(id) => w.(store := ServiceReply(w, l).0, puts := w.puts - {id})
    case Start(key, view) =>
      if key in w.workers then w else w.(workers := w.workers[key := Begin(View(w, view), key)])
    case Continue(key, view, lookupFails) =>
      if key !in w.workers then w
      else if w.workers[key].Done? then w.(workers := w.workers - {key})
      else
        var (st, worker) := Advance(parse, View(w, view), w.store, key, w.clock, lookupFails, w.workers[key]);
        w.(store := st, workers := w.workers[key := worker])
    case Abort(key) => w.(workers := w.workers - {key})
    case Restart => w.(workers := map[], puts := map[])
    case Tick(elapsed) => w.(clock := w.clock + elapsed)
    case _ => w.(store := EnvironmentStore(w.store, l))
  }

  function Next(parse: Parser, w: World, l: Label): World {
    Move(parse, w, l).(past := w.past + [w.store])
  }

  /** The world after a run, oldest label first. */
  function Exec(parse: Parser, w: World, ls: seq<Label>): World {
    if ls == [] then w else Next(parse, Exec(parse, w, ls[..|ls| - 1]), ls[|ls| - 1])
  }

  /** A run can be cut anywhere. */
  lemma {:induction false} ExecSplit(parse: Parser, w: World, a: seq<Label>, b: seq<Label>)
    ensures Exec(parse, w, a + b) == Exec(parse, Exec(parse, w, a), b)
  {
    if b == [] {
      assert a + b == a;
    } else {
      ExecSplit(parse, w, a, b[..|b| - 1]);
      assert (a + b)[..|a + b| - 1] == a + b[..|b| - 1];
    }
  }

  /** No services, no groups, nothing running; profiles and clock are arbitrary. */
  function Initial(profiles: map<Key, ProfileSpec>, clock: int): World {
    World(Store(map[], map[], profiles, 0, 0), [], map[], map[], clock, map[])
  }
}
