/** internal/controller as the source writes it: methods that update the fetched
    service in place and write it back through a client. `Reconciler.Reconcile` is
    proved to be one undisturbed reconcile of the protocol.
 */
module Controller {
  import opened Types
  import opened Config
  import opened Translator
  import opened Objects
  import opened Status
  import opened Reconcile
  import ApiServer

  /** The client's view of the API server: every call is one server operation. */
  class Cluster {
    var store: ApiServer.Store

    constructor (st: ApiServer.Store)
      ensures store == st
    {
      store := st;
    }

    method GetService(key: Key) returns (obj: ServiceObject?)
      ensures obj == null <==> key !in store.services
      ensures obj != null ==> fresh(obj) && obj.key == key && obj.Value() == store.services[key]
    {
      if key !in store.services {
        return null;
      }
      obj := new ServiceObject(key, store.services[key]);
    }

    method UpdateService(obj: ServiceObject) returns (ok: bool)
      modifies this, obj
      ensures
        var (st, reply) := ApiServer.UpdateService(old(store), obj.key, old(obj.Value()));
        store == st && ok == reply.Ok? && obj.Value() == (if ok then reply.value else old(obj.Value()))
    {
      var (st, reply) := ApiServer.UpdateService(store, obj.key, obj.Value());
      store := st;
      ok := reply.Ok?;
      if ok {
        obj.Load(reply.value);
      }
    }

    method UpdateServiceStatus(obj: ServiceObject) returns (ok: bool)
      modifies this, obj
      ensures
        var (st, reply) := ApiServer.UpdateServiceStatus(old(store), obj.key, old(obj.Value()));
        store == st && ok == reply.Ok? && obj.Value() == (if ok then reply.value else old(obj.Value()))
    {
      var (st, reply) := ApiServer.UpdateServiceStatus(store, obj.key, obj.Value());
      store := st;
      ok := reply.Ok?;
      if ok {
        obj.Load(reply.value);
      }
    }
  }

  class Reconciler {
    const cluster: Cluster
    const parse: Parser

    constructor (cluster: Cluster, parse: Parser)
      ensures this.cluster == cluster && this.parse == parse
    {
      this.cluster := cluster;
      this.parse := parse;
    }

    /** The rest of a reconcile, as the protocol defines it. */
    ghost function Rest(st: ApiServer.Store, key: Key, now: int, w: Worker): (ApiServer.Store, Outcome) {
      RunToEnd(parse, st, key, now, w)
    }

    method EnsureFinalizer(obj: ServiceObject) returns (ok: bool)
      modifies cluster, obj
      ensures
        var was := old(obj.Value());
        if FINALIZER in was.finalizers then
          ok && cluster.store == old(cluster.store) && obj.Value() == was
        else
          var (st, reply) := ApiServer.UpdateService(old(cluster.store), obj.key, WrittenBase(AddingFinalizer(was)));
          && cluster.store == st && ok == reply.Ok?
          && obj.Value() == if ok then reply.value else WrittenBase(AddingFinalizer(was))
    {
      if FINALIZER in obj.finalizers {
        return true;
      }
      obj.AddFinalizer();
      ok := cluster.UpdateService(obj);
    }

    method HandleDeletion(obj: ServiceObject, ghost now: int) returns (outcome: Outcome)
      modifies cluster, obj
      ensures
        var was := old(obj.Value());
        (cluster.store, outcome) ==
        Rest(old(cluster.store), obj.key, now,
             if FINALIZER in was.finalizers then RemovingFinalizer(was) else Done(Ignored))
    {
      if FINALIZER !in obj.finalizers {
        return Ignored;
      }
      obj.RemoveFinalizer();
      var ok := cluster.UpdateService(obj);
      outcome := if ok then Released else Errored;
      assert Rest(cluster.store, obj.key, now, Done(outcome)) == (cluster.store, outcome);
    }

    method ApplyRBG(obj: ServiceObject, desired: Desired, ghost now: int) returns (ok: bool)
      modifies cluster
      ensures
        var was := old(obj.Value());
        var rest := Rest(old(cluster.store), obj.key, now, GettingGroup(was, desired));
        if ok then rest == Rest(cluster.store, obj.key, now, ReadingGroup(was)) else rest == (cluster.store, Errored)
      ensures ok ==> obj.key in cluster.store.groups && cluster.store.groups[obj.key].roles == desired.roles
      ensures !ok ==> cluster.store == old(cluster.store)
    {
      var st, key := cluster.store, obj.key;
      ghost var was := obj.Value();
      if key !in st.groups {
        var (next, reply) := ApiServer.CreateGroup(st, key, desired.owners, desired.roles);
        cluster.store := next;
        ok := reply.Ok?;
        assert Rest(st, key, now, GettingGroup(was, desired)) == Rest(st, key, now, CreatingGroup(was, desired));
      } else {
        var existing := st.groups[key];
        existing := existing.(roles := desired.roles);
        var (next, reply) := ApiServer.UpdateGroup(st, key, existing);
        cluster.store := next;
        ok := reply.Ok?;
        assert Rest(st, key, now, GettingGroup(was, desired)) ==
               Rest(st, key, now, UpdatingGroup(was, st.groups[key], desired));
      }
    }

    /** Touches the phase and the last event; the conditions stay as they are. */
    method SetFailedStatus(obj: ServiceObject, why: EventRecord, ghost now: int) returns (outcome: Outcome)
      modifies cluster, obj
      ensures
        (cluster.store, outcome) ==
        Rest(old(cluster.store), obj.key, now, WritingStatus(old(obj.Value()), Fail(why)))
    {
      obj.phase := Failed;
      obj.lastEvent := Some(why);
      var ok := cluster.UpdateServiceStatus(obj);
      outcome := if ok then MarkedFailed else Errored;
      assert Rest(cluster.store, obj.key, now, Done(outcome)) == (cluster.store, outcome);
    }

    /** The in-memory part of a sync: phase, role statuses and Ready condition. */
    method Observe(obj: ServiceObject, group: Option<GroupStatus>, now: int)
      modifies obj
      ensures
        var was := old(obj.Value());
        obj.Value() == was.(status := ApplyStatus(was.status, Sync(now, was.created, was.deleting, group)))
    {
      obj.phase := DerivePhase(now, obj.created, obj.deleting, group);
      if group.Some? {
        obj.roleStatuses := BuildRoleStatuses(group.value);
      }
      SetReadyCondition(obj, now);
    }

    method SyncStatus(obj: ServiceObject, now: int) returns (outcome: Outcome)
      modifies cluster, obj
      ensures (cluster.store, outcome) == Rest(old(cluster.store), obj.key, now, ReadingGroup(old(obj.Value())))
    {
      ghost var st, was := cluster.store, obj.Value();
      var group := if obj.key in cluster.store.groups then Some(cluster.store.groups[obj.key].status) else None;
      Observe(obj, group, now);
      var ok := cluster.UpdateServiceStatus(obj);
      outcome := if ok then Synced else Errored;
      ghost var writing := WritingStatus(was, Sync(now, was.created, was.deleting, group));
      assert Rest(cluster.store, obj.key, now, Done(outcome)) == (cluster.store, outcome);
      assert Rest(st, obj.key, now, writing) == (cluster.store, outcome);
      assert AfterReadGroup(st, obj.key, now, was) == writing;
    }

    /** From the resolved finalizer to the end. */
    method ReconcileLive(obj: ServiceObject, now: int) returns (outcome: Outcome)
      modifies cluster, obj
      ensures (cluster.store, outcome) == Rest(old(cluster.store), obj.key, now, Resolving(old(obj.Value())))
    {
      ghost var st, was := cluster.store, obj.Value();
      var merged := Resolve(cluster.store.profiles, obj.key.ns, obj.spec, false);
      if merged == null {
        outcome := SetFailedStatus(obj, ProfileFailure(obj.spec), now);
        return;
      }
      var desired := Build(parse, obj.key.name, obj.uid, obj.spec, merged.Value());
      if desired.None? {
        assert Rest(st, obj.key, now, Done(Panicked)) == (st, Panicked);
        return Panicked;
      }
      assert Rest(st, obj.key, now, Resolving(was)) == Rest(st, obj.key, now, GettingGroup(was, desired.value));
      var ok := ApplyRBG(obj, desired.value, now);
      if !ok {
        return Errored;
      }
      outcome := SyncStatus(obj, now);
    }

    method Reconcile(key: Key, now: int) returns (outcome: Outcome)
      modifies cluster
      ensures (cluster.store, outcome) == Once(parse, old(cluster.store), key, now)
    {
      ghost var st := cluster.store;
      var obj := cluster.GetService(key);
      if obj == null {
        return Absent;
      }
      ghost var was := obj.Value();
      if obj.deleting {
        outcome := HandleDeletion(obj, now);
        return;
      }
      var ok := EnsureFinalizer(obj);
      if !ok {
        assert Rest(cluster.store, key, now, Done(Errored)) == (cluster.store, Errored);
        return Errored;
      }
      assert Once(parse, st, key, now) == Rest(cluster.store, key, now, Resolving(obj.Value()));
      outcome := ReconcileLive(obj, now);
    }
  }
}
