/** One reconcile of internal/controller/pdinferenceservice_controller.go, split at
    its client calls. Between two calls anything may happen to the store; a read may
    also answer with an older store, because the controller's client reads from a
    cache.
 */
module Reconcile {
  import opened Types
  import opened Config
  import opened Translator
  import opened Objects
  import opened Status
  import opened ApiServer
  import Webhook

  /** How a reconcile ended. */
  datatype Outcome =
    | Absent        // the service does not exist
    | Ignored       // it is being deleted and does not carry our finalizer
    | Released      // our finalizer was removed
    | Panicked      // a quantity text did not parse
    | MarkedFailed  // the profile could not be resolved
    | Synced        // group applied and status written
    | Errored       // a write was refused

  /** The next client call of a running reconcile, with what it holds in memory.
      `base` is the service as the server last returned it to this reconcile. */
  datatype Worker =
    | Done(outcome: Outcome)
    | AddingFinalizer(base: Service)
    | RemovingFinalizer(base: Service)
    | Resolving(base: Service)
    | GettingGroup(base: Service, desired: Desired)
    | CreatingGroup(base: Service, desired: Desired)
    | UpdatingGroup(base: Service, group: Group, desired: Desired)
    | ReadingGroup(base: Service)
    | WritingStatus(base: Service, ev: StatusEvent)

  function Rank(w: Worker): nat {
    match w
    case Done(_) => 0
    case AddingFinalizer(_) => 6
    case RemovingFinalizer(_) => 1
    case Resolving(_) => 5
    case GettingGroup(_, _) => 4
    case CreatingGroup(_, _) => 3
    case UpdatingGroup(_, _, _) => 3
    case ReadingGroup(_) => 2
    case WritingStatus(_, _) => 1
  }

  /** The first read of the service, and the branch on deletion and finalizer. */
  function Begin(view: Store, key: Key): Worker {
    if key !in view.services then Done(Absent)
    else
      var s := view.services[key];
      if s.deleting then
        if FINALIZER in s.finalizers then RemovingFinalizer(s) else Done(Ignored)
      else if FINALIZER in s.finalizers then Resolving(s)
      else AddingFinalizer(s)
  }

  function ProfileFailure(spec: ServiceSpec): EventRecord {
    EventRecord("ProfileResolveFailed", spec.engineProfileRef)
  }

  /** The profile lookup and, when it succeeds, the translation. */
  function AfterResolve(parse: Parser, view: Store, key: Key, lookupFails: bool, base: Service): Worker {
    var spec := base.spec;
    if !Resolvable(view.profiles, key.ns, spec) || (spec.engineProfileRef != "" && lookupFails) then
      WritingStatus(base, Fail(ProfileFailure(spec)))
    else if !QuantitiesParse(parse, spec) then
      Done(Panicked)
    else
      var cfg := Merge(spec, ProfileFor(view.profiles, key.ns, spec));
      GettingGroup(base, DesiredFor(parse, key.name, base.uid, spec, cfg))
  }

  function AfterGetGroup(view: Store, key: Key, base: Service, desired: Desired): Worker {
    if key in view.groups then UpdatingGroup(base, view.groups[key], desired) else CreatingGroup(base, desired)
  }

  function AfterReadGroup(view: Store, key: Key, now: int, base: Service): Worker {
    WritingStatus(base, Sync(now, base.created, base.deleting,
                             if key in view.groups then Some(view.groups[key].status) else None))
  }

  function WrittenBase(w: Worker): Service
    requires w.AddingFinalizer? || w.RemovingFinalizer? || w.WritingStatus?
  {
    match w
    case AddingFinalizer(base) => base.(finalizers := base.finalizers + [FINALIZER])
    case RemovingFinalizer(base) => base.(finalizers := Foreign(base.finalizers))
    case WritingStatus(base, ev) => base.(status := ApplyStatus(base.status, ev))
  }

  /** One client call. Reads see `view`, writes go to `st`. */
  function Advance(parse: Parser, view: Store, st: Store, key: Key, now: int, lookupFails: bool, w: Worker)
    : (r: (Store, Worker))
    ensures w.Done? ==> r == (st, w)
    ensures !w.Done? ==> Rank(r.1) < Rank(w)
  {
    match w
    case Done(_) => (st, w)
    case AddingFinalizer(base) =>
      var (next, reply) := UpdateService(st, key, WrittenBase(w));
      (next, if reply.Ok? then Resolving(reply.value) else Done(Errored))
    case RemovingFinalizer(base) =>
      var (next, reply) := UpdateService(st, key, WrittenBase(w));
      (next, Done(if reply.Ok? then Released else Errored))
    case Resolving(base) => (st, AfterResolve(parse, view, key, lookupFails, base))
    case GettingGroup(base, desired) => (st, AfterGetGroup(view, key, base, desired))
    case CreatingGroup(base, desired) =>
      var (next, reply) := CreateGroup(st, key, desired.owners, desired.roles);
      (next, if reply.Ok? then ReadingGroup(base) else Done(Errored))
    case UpdatingGroup(base, group, desired) =>
      var (next, reply) := UpdateGroup(st, key, group.(roles := desired.roles));
      (next, if reply.Ok? then ReadingGroup(base) else Done(Errored))
    case ReadingGroup(base) => (st, AfterReadGroup(view, key, now, base))
    case WritingStatus(base, ev) =>
      var (next, reply) := UpdateServiceStatus(st, key, WrittenBase(w));
      (next, Done(if !reply.Ok? then Errored else if ev.Fail? then MarkedFailed else Synced))
  }

  /** One client call makes at most one write, and only to the service or the group
      under its key. */
  lemma CallTouchesOnlyItsKey(parse: Parser, view: Store, st: Store, key: Key, now: int, lookupFails: bool, w: Worker)
    ensures
      var st' := Advance(parse, view, st, key, now, lookupFails, w).0;
      && (OnlyService(st, st', key) || (st'.services == st.services && st'.groups - {key} == st.groups - {key}))
      && st'.profiles == st.profiles
      && (st'.nextRv == st.nextRv ==> st' == st) && st.nextRv <= st'.nextRv <= st.nextRv + 1
  {
    if w.AddingFinalizer? || w.RemovingFinalizer? {
      UpdateFacts(st, key, WrittenBase(w));
    } else if w.WritingStatus? {
      StatusFacts(st, key, WrittenBase(w));
    }
  }

  /** The group that was read is not, or no longer, what is stored. */
  predicate GroupMoved(st: Store, key: Key, group: Group) {
    key !in st.groups || st.groups[key].uid != group.uid || st.groups[key].rv != group.rv
  }

  /** A refused write ends the reconcile with nothing changed: a group that moved on since
      it was read or that someone else created, a service that moved on. */
  lemma RefusedWriteEnds(parse: Parser, view: Store, st: Store, key: Key, now: int, lookupFails: bool, w: Worker)
    requires
      || (w.UpdatingGroup? && GroupMoved(st, key, w.group))
      || (w.CreatingGroup? && key in st.groups)
      || ((w.AddingFinalizer? || w.RemovingFinalizer? || w.WritingStatus?) && !Current(st, key, w.base))
    ensures Advance(parse, view, st, key, now, lookupFails, w) == (st, Done(Errored))
  {
  }

  /** An accepted group write leaves exactly the desired roles, and only then does the
      reconcile go on to the status. */
  lemma AcceptedGroupWrite(parse: Parser, view: Store, st: Store, key: Key, now: int, lookupFails: bool, w: Worker)
    requires
      || (w.UpdatingGroup? && !GroupMoved(st, key, w.group))
      || (w.CreatingGroup? && key !in st.groups)
    ensures
      var (st', w') := Advance(parse, view, st, key, now, lookupFails, w);
      && w' == ReadingGroup(w.base)
      && key in st'.groups && st'.groups[key].roles == w.desired.roles
      && (w.CreatingGroup? ==> st'.groups[key].owners == w.desired.owners)
      && st'.services == st.services
  {
  }

  /** An accepted service write stores what the reconcile holds in memory and decides how
      it goes on. */
  lemma AcceptedServiceWrite(parse: Parser, view: Store, st: Store, key: Key, now: int, lookupFails: bool, w: Worker)
    requires key in st.services && (w.AddingFinalizer? || w.RemovingFinalizer? || w.WritingStatus?)
    requires w.base == st.services[key] && Webhook.Defaulted(w.base.spec) == w.base.spec && SchemaValid(w.base.spec)
    requires w.base.deleting <==> w.RemovingFinalizer?
    ensures
      var (st', w') := Advance(parse, view, st, key, now, lookupFails, w);
      && (w.AddingFinalizer? ==>
            && key in st'.services && w' == Resolving(st'.services[key])
            && st'.services[key] ==
               w.base.(finalizers := w.base.finalizers + [FINALIZER], rv := st'.services[key].rv))
      && (w.RemovingFinalizer? ==>
            && w' == Done(Released)
            && (key in st'.services ==>
                  st'.services[key] ==
                  w.base.(finalizers := Foreign(w.base.finalizers), rv := st'.services[key].rv)))
      && (w.WritingStatus? ==>
            && w' == Done(if w.ev.Fail? then MarkedFailed else Synced)
            && key in st'.services
            && st'.services[key] ==
               w.base.(status := ApplyStatus(w.base.status, w.ev), rv := st'.services[key].rv))
  {
  }

  /** The first read decides: nothing to do for a service that is absent or deleted
      without our finalizer, the finalizer first where it has to come or go. */
  lemma FirstReadDecides(view: Store, key: Key)
    ensures Begin(view, key) == Done(Absent) <==> key !in view.services
    ensures
      key in view.services ==>
        var s := view.services[key];
        && (s.deleting && FINALIZER in s.finalizers ==> Begin(view, key) == RemovingFinalizer(s))
        && (s.deleting && FINALIZER !in s.finalizers ==> Begin(view, key) == Done(Ignored))
        && (!s.deleting && FINALIZER !in s.finalizers ==> Begin(view, key) == AddingFinalizer(s))
        && (!s.deleting && FINALIZER in s.finalizers ==> Begin(view, key) == Resolving(s))
  {
  }

  /** After the finalizer: a profile that cannot be read marks the service failed, a
      quantity that does not parse panics, and otherwise the roles built from spec and
      profile, owned by this service, are what the group is to have. */
  lemma ResolutionDecides(parse: Parser, view: Store, key: Key, lookupFails: bool, base: Service)
    ensures
      var spec := base.spec;
      var w := AfterResolve(parse, view, key, lookupFails, base);
      if spec.engineProfileRef != "" && (lookupFails || Key(key.ns, spec.engineProfileRef) !in view.profiles) then
        w == WritingStatus(base, Fail(EventRecord("ProfileResolveFailed", spec.engineProfileRef)))
      else if !QuantitiesParse(parse, spec) then
        w == Done(Panicked)
      else
        var profile :=
          if spec.engineProfileRef == "" then None else Some(view.profiles[Key(key.ns, spec.engineProfileRef)]);
        w == GettingGroup(base, Desired([OwnerRef(key.name, base.uid)], Roles(parse, spec, Merge(spec, profile))))
  {
  }

  /** The rest of a reconcile that nothing disturbs and whose reads are current. */
  function RunToEnd(parse: Parser, st: Store, key: Key, now: int, w: Worker): (Store, Outcome)
    decreases Rank(w)
  {
    if w.Done? then (st, w.outcome)
    else
      var (next, w') := Advance(parse, st, st, key, now, false, w);
      RunToEnd(parse, next, key, now, w')
  }

  /** One undisturbed reconcile. */
  function Once(parse: Parser, st: Store, key: Key, now: int): (Store, Outcome) {
    RunToEnd(parse, st, key, now, Begin(st, key))
  }
}
