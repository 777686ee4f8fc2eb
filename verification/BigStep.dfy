/** An undisturbed reconcile in closed form: which writes the chain of client calls
    adds up to.
 */
module BigStep {
  import opened Types
  import opened Config
  import opened Translator
  import opened Status
  import opened ApiServer
  import opened Reconcile
  import opened Invariant

  /** The service with our finalizer on it. */
  function WithFinalizer(st: Store, key: Key): Store
    requires key in st.services
  {
    var s := st.services[key];
    if FINALIZER in s.finalizers then st
    else UpdateService(st, key, s.(finalizers := s.finalizers + [FINALIZER])).0
  }

  /** The group created, or its roles overwritten. */
  function ApplyGroup(st: Store, key: Key, desired: Desired): Store {
    if key in st.groups then UpdateGroup(st, key, st.groups[key].(roles := desired.roles)).0
    else CreateGroup(st, key, desired.owners, desired.roles).0
  }

  /** The status after one more event. */
  function WithStatus(st: Store, key: Key, ev: StatusEvent): Store
    requires key in st.services
  {
    var s := st.services[key];
    CommitService(st, key, s.(status := ApplyStatus(s.status, ev))).0
  }

  /** What the group under this key should be. */
  function DesiredGroup(parse: Parser, st: Store, key: Key): Desired
    requires key in st.services && Resolvable(st.profiles, key.ns, st.services[key].spec)
  {
    var s := st.services[key];
    DesiredFor(parse, key.name, s.uid, s.spec, Merge(s.spec, ProfileFor(st.profiles, key.ns, s.spec)))
  }

  function SyncOf(st: Store, key: Key, now: int): StatusEvent
    requires key in st.services && key in st.groups
  {
    Sync(now, st.services[key].created, st.services[key].deleting, Some(st.groups[key].status))
  }

  predicate Live(st: Store, key: Key) {
    key in st.services && !st.services[key].deleting
  }

  /** A reconcile can get as far as the group. */
  predicate Buildable(parse: Parser, st: Store, key: Key)
    requires key in st.services
  {
    Resolvable(st.profiles, key.ns, st.services[key].spec) && QuantitiesParse(parse, st.services[key].spec)
  }

  lemma FinalizerIsAdded(st: Store, key: Key)
    requires Live(st, key) && ServiceOk(st.services[key])
    ensures
      var st' := WithFinalizer(st, key);
      && OnlyService(st, st', key) && Live(st', key) && ServiceOk(st'.services[key])
      && st'.services[key] == st.services[key].(finalizers := st'.services[key].finalizers, rv := st'.services[key].rv)
      && st'.services[key].finalizers ==
         (if FINALIZER in st.services[key].finalizers then st.services[key].finalizers
          else st.services[key].finalizers + [FINALIZER])
      && Begin(st', key) == Resolving(st'.services[key])
  {
    var s := st.services[key];
    UpdateFacts(st, key, s.(finalizers := s.finalizers + [FINALIZER]));
  }

  lemma GroupIsApplied(st: Store, key: Key, desired: Desired)
    ensures
      var st' := ApplyGroup(st, key, desired);
      && st'.services == st.services && st'.profiles == st.profiles
      && st'.groups - {key} == st.groups - {key}
      && key in st'.groups
      && (key in st.groups ==>
            st'.groups[key] == st.groups[key].(roles := desired.roles, rv := st'.groups[key].rv))
      && (key !in st.groups ==>
            st'.groups[key] == Group(st.nextUid, st.nextRv, desired.owners, desired.roles, "", NO_GROUP_STATUS))
      && (key in st.groups && st.groups[key].roles == desired.roles ==> st' == st)
  {
  }

  lemma StatusIsWritten(st: Store, key: Key, ev: StatusEvent)
    requires key in st.services && ServiceOk(st.services[key])
    ensures
      var s := st.services[key];
      var st' := WithStatus(st, key, ev);
      && UpdateServiceStatus(st, key, s.(status := ApplyStatus(s.status, ev))).0 == st'
      && UpdateServiceStatus(st, key, s.(status := ApplyStatus(s.status, ev))).1.Ok?
      && OnlyService(st, st', key)
      && key in st'.services
      && st'.services[key] == s.(status := ApplyStatus(s.status, ev), rv := st'.services[key].rv)
      && (ApplyStatus(s.status, ev) == s.status <==> st' == st)
  {
    var s := st.services[key];
    StatusFacts(st, key, s.(status := ApplyStatus(s.status, ev)));
    CommitFacts(st, key, s.(status := ApplyStatus(s.status, ev)));
  }

  lemma FromStatus(parse: Parser, st: Store, key: Key, now: int, ev: StatusEvent)
    requires key in st.services && ServiceOk(st.services[key])
    ensures RunToEnd(parse, st, key, now, WritingStatus(st.services[key], ev)) ==
            (WithStatus(st, key, ev), if ev.Fail? then MarkedFailed else Synced)
  {
    StatusIsWritten(st, key, ev);
  }

  lemma FromReading(parse: Parser, st: Store, key: Key, now: int)
    requires key in st.services && key in st.groups && ServiceOk(st.services[key])
    ensures RunToEnd(parse, st, key, now, ReadingGroup(st.services[key])) ==
            (WithStatus(st, key, SyncOf(st, key, now)), Synced)
  {
    FromStatus(parse, st, key, now, SyncOf(st, key, now));
  }

  lemma FromGetting(parse: Parser, st: Store, key: Key, now: int, desired: Desired)
    requires key in st.services && ServiceOk(st.services[key])
    ensures
      var applied := ApplyGroup(st, key, desired);
      && key in applied.services && key in applied.groups
      && RunToEnd(parse, st, key, now, GettingGroup(st.services[key], desired)) ==
         (WithStatus(applied, key, SyncOf(applied, key, now)), Synced)
  {
    GroupIsApplied(st, key, desired);
    var s, applied := st.services[key], ApplyGroup(st, key, desired);
    FromReading(parse, applied, key, now);
    var w := AfterGetGroup(st, key, s, desired);
    assert RunToEnd(parse, st, key, now, w) == RunToEnd(parse, applied, key, now, ReadingGroup(s));
  }

  /** What an undisturbed reconcile does to a live service. */
  function LiveResult(parse: Parser, st: Store, key: Key, now: int): (Store, Outcome)
    requires Live(st, key) && ServiceOk(st.services[key])
  {
    FinalizerIsAdded(st, key);
    var st1 := WithFinalizer(st, key);
    var s := st1.services[key];
    if !Resolvable(st1.profiles, key.ns, s.spec) then
      (WithStatus(st1, key, Fail(ProfileFailure(s.spec))), MarkedFailed)
    else if !QuantitiesParse(parse, s.spec) then
      (st1, Panicked)
    else
      var desired := DesiredGroup(parse, st1, key);
      GroupIsApplied(st1, key, desired);
      var st2 := ApplyGroup(st1, key, desired);
      (WithStatus(st2, key, SyncOf(st2, key, now)), Synced)
  }

  lemma FromResolving(parse: Parser, st: Store, key: Key, now: int)
    requires Live(st, key) && ServiceOk(st.services[key]) && FINALIZER in st.services[key].finalizers
    ensures RunToEnd(parse, st, key, now, Resolving(st.services[key])) == LiveResult(parse, st, key, now)
  {
    var s := st.services[key];
    if !Resolvable(st.profiles, key.ns, s.spec) {
      FromStatus(parse, st, key, now, Fail(ProfileFailure(s.spec)));
    } else if QuantitiesParse(parse, s.spec) {
      FromGetting(parse, st, key, now, DesiredGroup(parse, st, key));
    }
  }

  /** The chain of client calls on a live service adds up to the closed form. */
  lemma OnceOnLive(parse: Parser, st: Store, key: Key, now: int)
    requires Live(st, key) && ServiceOk(st.services[key])
    ensures Once(parse, st, key, now) == LiveResult(parse, st, key, now)
  {
    FinalizerIsAdded(st, key);
    var s, st1 := st.services[key], WithFinalizer(st, key);
    FromResolving(parse, st1, key, now);
    assert LiveResult(parse, st1, key, now) == LiveResult(parse, st, key, now);
    if FINALIZER !in s.finalizers {
      UpdateFacts(st, key, s.(finalizers := s.finalizers + [FINALIZER]));
      assert Advance(parse, st, st, key, now, false, AddingFinalizer(s)) == (st1, Resolving(st1.services[key]));
    }
  }
}
