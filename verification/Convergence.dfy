/** Where undisturbed reconciles lead: the group that the spec asks for, whatever was
    there before; no further writes once it is there; a clean end for a deleted
    service; and no damage when the profile is missing.
 */
module Convergence {
  import opened Types
  import opened Config
  import opened Translator
  import opened Objects
  import opened Status
  import opened ApiServer
  import opened Reconcile
  import opened Scaling
  import opened Protocol
  import opened Invariant
  import opened Guarantees
  import opened BigStep
  import Webhook

  // ----- Self-stabilisation -----

  predicate OwnedBy(g: Group, key: Key, uid: nat) {
    g.owners == [OwnerRef(key.name, uid)]
  }

  /** One undisturbed reconcile of a live, buildable service leaves a group with
      exactly the roles that spec and profile ask for. The group belongs to this
      service if and only if there was no group or it already did: an existing
      group is updated but never adopted. */
  lemma ReconcileStabilises(parse: Parser, st: Store, key: Key, now: int)
    requires Live(st, key) && ServiceOk(st.services[key]) && Buildable(parse, st, key)
    ensures
      var (st', outcome) := Once(parse, st, key, now);
      && outcome == Synced
      && key in st'.services && st'.services[key].uid == st.services[key].uid
      && st'.services[key].spec == st.services[key].spec
      && FINALIZER in st'.services[key].finalizers
      && key in st'.groups
      && st'.groups[key].roles == DesiredGroup(parse, st, key).roles
      && (OwnedBy(st'.groups[key], key, st.services[key].uid) <==>
          key !in st.groups || OwnedBy(st.groups[key], key, st.services[key].uid))
      && (forall k :: k != key ==> SameAt(st, st', k))
      && st'.groups - {key} == st.groups - {key} && st'.profiles == st.profiles
  {
    OnceOnLive(parse, st, key, now);
    FinalizerIsAdded(st, key);
    var st1 := WithFinalizer(st, key);
    var desired := DesiredGroup(parse, st1, key);
    GroupIsApplied(st1, key, desired);
    var st2 := ApplyGroup(st1, key, desired);
    StatusIsWritten(st2, key, SyncOf(st2, key, now));
    assert desired == DesiredGroup(parse, st, key);
  }

  /** From every reachable store, however it came about: once orphans are collected,
      one undisturbed reconcile leaves the group that the current spec and profile
      ask for, owned by the current service. */
  lemma SelfStabilises(parse: Parser, profiles: map<Key, ProfileSpec>, clock: int, ls: seq<Label>, key: Key, now: int)
    requires
      var st := Reached(parse, profiles, clock, ls).store;
      Live(st, key) && Buildable(parse, st, key)
    ensures
      var st := Reached(parse, profiles, clock, ls).store;
      var (st', outcome) := Once(parse, CollectAll(st), key, now);
      && outcome == Synced && key in st'.groups
      && st'.groups[key].roles == DesiredGroup(parse, st, key).roles
      && OwnedBy(st'.groups[key], key, st.services[key].uid)
  {
    var st := Reached(parse, profiles, clock, ls).store;
    ReachedInv(parse, profiles, clock, ls);
    assert ServiceOk(st.services[key]);
    NoGroupOutlivesItsOwner(parse, profiles, clock, ls, key);
    ReconcileStabilises(parse, CollectAll(st), key, now);
  }

  // ----- Bounded writes -----

  /** The state that a successful reconcile at time t leaves behind. */
  ghost predicate Settled(parse: Parser, st: Store, key: Key, t: int) {
    && Live(st, key) && ServiceOk(st.services[key]) && Buildable(parse, st, key)
    && FINALIZER in st.services[key].finalizers
    && key in st.groups
    && st.groups[key].roles == DesiredGroup(parse, st, key).roles
    && exists s :: st.services[key].status == ApplyStatus(s, SyncOf(st, key, t))
  }

  lemma ReconcileSettles(parse: Parser, st: Store, key: Key, now: int)
    requires Live(st, key) && ServiceOk(st.services[key])
    requires Once(parse, st, key, now).1 == Synced
    ensures Settled(parse, Once(parse, st, key, now).0, key, now)
  {
    OnceOnLive(parse, st, key, now);
    FinalizerIsAdded(st, key);
    var st1 := WithFinalizer(st, key);
    var desired := DesiredGroup(parse, st1, key);
    GroupIsApplied(st1, key, desired);
    var st2 := ApplyGroup(st1, key, desired);
    var ev := SyncOf(st2, key, now);
    StatusIsWritten(st2, key, ev);
    ApplyKeepsStatusOk(st2.services[key].status, ev);
    var st' := Once(parse, st, key, now).0;
    assert SyncOf(st', key, now) == ev;
    assert st'.services[key].status == ApplyStatus(st2.services[key].status, ev);
  }

  function GroupPhase(st: Store, key: Key, t: int): Phase
    requires key in st.services && key in st.groups
  {
    PhaseAt(st.groups[key].status, st.services[key].created, t)
  }

  /** On a settled state a reconcile can only rewrite the status. */
  lemma SettledReconcile(parse: Parser, st: Store, key: Key, t: int, now: int)
    requires Settled(parse, st, key, t)
    ensures Once(parse, st, key, now) == (WithStatus(st, key, SyncOf(st, key, now)), Synced)
  {
    OnceOnLive(parse, st, key, now);
    GroupIsApplied(st, key, DesiredGroup(parse, st, key));
  }

  lemma QuietWhilePhaseHolds(parse: Parser, st: Store, key: Key, t: int, now: int)
    requires Settled(parse, st, key, t) && GroupPhase(st, key, t) == GroupPhase(st, key, now)
    ensures Once(parse, st, key, now).0 == st && Settled(parse, st, key, now)
  {
    SettledReconcile(parse, st, key, t, now);
    var s :| st.services[key].status == ApplyStatus(s, SyncOf(st, key, t));
    SyncIsIdempotent(s, SyncOf(st, key, t), SyncOf(st, key, now));
    StatusIsWritten(st, key, SyncOf(st, key, now));
    assert st.services[key].status == ApplyStatus(st.services[key].status, SyncOf(st, key, now));
  }

  lemma PhaseOnlyTimesOut(st: Store, key: Key, t: int, now: int)
    requires key in st.services && key in st.groups && t <= now
    ensures GroupPhase(st, key, t) == GroupPhase(st, key, now) ||
            (GroupPhase(st, key, t) == Initializing && GroupPhase(st, key, now) == Failed)
  {
  }

  /** How many of a sequence of reconciles change the store. */
  function Changes(parse: Parser, st: Store, key: Key, ts: seq<int>): nat
    decreases |ts|
  {
    if ts == [] then 0
    else
      var st' := Once(parse, st, key, ts[0]).0;
      (if st' == st then 0 else 1) + Changes(parse, st', key, ts[1..])
  }

  lemma {:induction false} SettledChanges(parse: Parser, st: Store, key: Key, t: int, ts: seq<int>)
    requires Settled(parse, st, key, t)
    requires Nondecreasing([t] + ts)
    ensures Changes(parse, st, key, ts) <= if GroupPhase(st, key, t) == Initializing then 1 else 0
    decreases |ts|
  {
    if ts != [] {
      var now, rest := ts[0], ts[1..];
      var st' := Once(parse, st, key, now).0;
      assert ([t] + ts)[0] == t && ([t] + ts)[1] == now;
      assert [now] + rest == ([t] + ts)[1..];
      PhaseOnlyTimesOut(st, key, t, now);
      if GroupPhase(st, key, t) == GroupPhase(st, key, now) {
        QuietWhilePhaseHolds(parse, st, key, t, now);
        SettledChanges(parse, st, key, now, rest);
      } else {
        SettledReconcile(parse, st, key, t, now);
        ReconcileSettles(parse, st, key, now);
        StatusIsWritten(st, key, SyncOf(st, key, now));
        SettledChanges(parse, st', key, now, rest);
      }
    }
  }

  /** After one successful reconcile, with spec, profile and group status frozen, any
      number of further reconciles under a nondecreasing clock changes the store at
      most once, and only when the first one found the group initializing. */
  lemma BoundedWrites(parse: Parser, st: Store, key: Key, ts: seq<int>)
    requires Live(st, key) && ServiceOk(st.services[key])
    requires ts != [] && Nondecreasing(ts) && Once(parse, st, key, ts[0]).1 == Synced
    ensures
      var st' := Once(parse, st, key, ts[0]).0;
      && key in st'.services && key in st'.groups
      && Changes(parse, st', key, ts[1..]) <= (if GroupPhase(st', key, ts[0]) == Initializing then 1 else 0)
  {
    ReconcileSettles(parse, st, key, ts[0]);
    assert [ts[0]] + ts[1..] == ts;
    SettledChanges(parse, Once(parse, st, key, ts[0]).0, key, ts[0], ts[1..]);
  }

  // ----- Deletion -----

  /** A reconcile of a deleted service takes our finalizer off, whatever became of its
      profile, and keeps the others in order; the service is gone if and only if there
      are no others. The webhook never stands in the way. */
  lemma DeletionProgress(parse: Parser, st: Store, key: Key, now: int)
    requires key in st.services && st.services[key].deleting && ServiceOk(st.services[key])
    requires FINALIZER in st.services[key].finalizers
    ensures
      var s := st.services[key];
      var (st', outcome) := Once(parse, st, key, now);
      && outcome == Released
      && OnlyService(st, st', key)
      && (key !in st'.services <==> Foreign(s.finalizers) == [])
      && (key in st'.services ==>
            st'.services[key] == s.(finalizers := Foreign(s.finalizers), rv := st'.services[key].rv))
  {
    var s := st.services[key];
    var obj := s.(finalizers := Foreign(s.finalizers));
    UpdateFacts(st, key, obj);
    CommitFacts(st, key, s.(spec := Webhook.Defaulted(s.spec), finalizers := obj.finalizers));
    assert Begin(st, key) == RemovingFinalizer(s);
    assert UpdateAdmitted(s, Webhook.Defaulted(s.spec), obj.finalizers);
    assert Advance(parse, st, st, key, now, false, RemovingFinalizer(s)) ==
           (UpdateService(st, key, obj).0, Done(Released));
    var next := UpdateService(st, key, obj).0;
    assert RunToEnd(parse, next, key, now, Done(Released)) == (next, Released);
    assert RunToEnd(parse, st, key, now, RemovingFinalizer(s)) == (next, Released);
  }

  /** In every reachable world, a deleted service without foreign finalizers is gone
      after one undisturbed reconcile. */
  lemma DeletedServicesGo(
    parse: Parser, profiles: map<Key, ProfileSpec>, clock: int, ls: seq<Label>, key: Key, now: int)
    requires
      var st := Reached(parse, profiles, clock, ls).store;
      key in st.services && st.services[key].deleting && Foreign(st.services[key].finalizers) == []
    ensures
      var st := Reached(parse, profiles, clock, ls).store;
      key !in Once(parse, st, key, now).0.services
  {
    var st := Reached(parse, profiles, clock, ls).store;
    ReachedInv(parse, profiles, clock, ls);
    var s := st.services[key];
    assert ServiceOk(s);
    assert FINALIZER in s.finalizers;
    DeletionProgress(parse, st, key, now);
  }

  // ----- Failure isolation -----

  /** A reconcile whose profile is missing touches no group, no spec and no other
      service; it changes the phase and the last event and nothing else of the status. */
  lemma FailureIsIsolated(parse: Parser, st: Store, key: Key, now: int)
    requires Live(st, key) && ServiceOk(st.services[key])
    requires !Resolvable(st.profiles, key.ns, st.services[key].spec)
    ensures
      var s := st.services[key];
      var (st', outcome) := Once(parse, st, key, now);
      && outcome == MarkedFailed
      && OnlyService(st, st', key)
      && key in st'.services
      && st'.services[key] == s.(finalizers := st'.services[key].finalizers, rv := st'.services[key].rv,
                                 status := s.status.(
                                   phase := Failed,
                                   lastEvent := Some(EventRecord("ProfileResolveFailed", s.spec.engineProfileRef))))
      && Foreign(st'.services[key].finalizers) == Foreign(s.finalizers)
  {
    OnceOnLive(parse, st, key, now);
    FinalizerIsAdded(st, key);
    var st1 := WithFinalizer(st, key);
    StatusIsWritten(st1, key, Fail(ProfileFailure(st1.services[key].spec)));
    var fs := st.services[key].finalizers;
    assert (fs + [FINALIZER])[..|fs|] == fs;
  }

  /** Once the profile is back, the next reconcile computes the phase from the group
      alone: being marked failed is not absorbing. */
  lemma FailureIsNotAbsorbing(parse: Parser, st: Store, key: Key, now: int)
    requires Live(st, key) && ServiceOk(st.services[key]) && Buildable(parse, st, key)
    ensures
      var st' := Once(parse, st, key, now).0;
      && key in st'.services && key in st'.groups
      && st'.services[key].status.phase == GroupPhase(st', key, now)
      && (key in st.groups ==> st'.groups[key].status == st.groups[key].status)
  {
    ReconcileStabilises(parse, st, key, now);
    ReconcileSettles(parse, st, key, now);
    OnceOnLive(parse, st, key, now);
    FinalizerIsAdded(st, key);
    var st1 := WithFinalizer(st, key);
    GroupIsApplied(st1, key, DesiredGroup(parse, st1, key));
    var st2 := ApplyGroup(st1, key, DesiredGroup(parse, st1, key));
    StatusIsWritten(st2, key, SyncOf(st2, key, now));
  }

  // ----- Scaling -----

  lemma ScaledRoles(parse: Parser, was: ServiceSpec, now: ServiceSpec, req: PutRequest, profile: Option<ProfileSpec>)
    requires OnlyNamedCounts(was, now, req)
    ensures
      var before := Roles(parse, was, Merge(was, profile));
      Roles(parse, now, Merge(now, profile)) ==
      [before[0],
       before[1].(replicas := if req.prefill.Some? then req.prefill.value else before[1].replicas),
       before[2].(replicas := if req.decode.Some? then req.decode.value else before[2].replicas)]
  {
    assert Merge(now, profile) == Merge(was, profile);
  }

  /** PUT end to end: for a service whose group is in sync, an accepted PUT and the next
      undisturbed reconcile change the replica counts of the named roles in the
      group and in the spec, and nothing else of either. */
  lemma ScalingFrame(parse: Parser, st: Store, key: Key, req: PutRequest, asked: ServiceSpec, now: int)
    requires Live(st, key) && ServiceOk(st.services[key]) && Buildable(parse, st, key)
    requires key in st.groups && st.groups[key].roles == DesiredGroup(parse, st, key).roles
    requires OnlyNamedCounts(st.services[key].spec, asked, req)
    requires UpdateService(st, key, st.services[key].(spec := asked)).1.Ok?
    ensures
      var scaled := UpdateService(st, key, st.services[key].(spec := asked)).0;
      var (st', outcome) := Once(parse, scaled, key, now);
      var g := st.groups[key];
      && outcome == Synced
      && key in st'.services && OnlyNamedCounts(st.services[key].spec, st'.services[key].spec, req)
      && key in st'.groups
      && st'.groups[key] == g.(
           roles := [g.roles[0],
                     g.roles[1].(replicas := if req.prefill.Some? then req.prefill.value else g.roles[1].replicas),
                     g.roles[2].(replicas := if req.decode.Some? then req.decode.value else g.roles[2].replicas)],
           rv := st'.groups[key].rv)
      && st'.groups - {key} == st.groups - {key} && st'.profiles == st.profiles
      && (forall k :: k != key ==> SameAt(st, st', k))
  {
    var s := st.services[key];
    var obj := s.(spec := asked);
    UpdateFacts(st, key, obj);
    CommitFacts(st, key, obj.(spec := Webhook.Defaulted(obj.spec)));
    var scaled := UpdateService(st, key, obj).0;
    assert scaled.services[key].spec == asked;
    ScaledRoles(parse, s.spec, asked, req, ProfileFor(st.profiles, key.ns, s.spec));
    ReconcileStabilises(parse, scaled, key, now);
    GroupKept(parse, scaled, key, now);
    var st' := Once(parse, scaled, key, now).0;
    forall k | k != key ensures SameAt(st, st', k) {
      assert SameAt(st, scaled, k) && SameAt(scaled, st', k);
    }
  }

  lemma GroupKept(parse: Parser, st: Store, key: Key, now: int)
    requires Live(st, key) && ServiceOk(st.services[key]) && Buildable(parse, st, key) && key in st.groups
    ensures
      var st' := Once(parse, st, key, now).0;
      && key in st'.groups
      && st'.groups[key] == st.groups[key].(roles := DesiredGroup(parse, st, key).roles, rv := st'.groups[key].rv)
  {
    OnceOnLive(parse, st, key, now);
    FinalizerIsAdded(st, key);
    var st1 := WithFinalizer(st, key);
    GroupIsApplied(st1, key, DesiredGroup(parse, st1, key));
    var st2 := ApplyGroup(st1, key, DesiredGroup(parse, st1, key));
    StatusIsWritten(st2, key, SyncOf(st2, key, now));
  }
}
