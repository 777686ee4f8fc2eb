/** Concrete runs behind the findings: a cache that restarts with an old list, a
    service that is deleted and re-created while its group lingers, and an update that
    undoes what creation had checked.
 */
module Witnesses {
  import opened Types
  import opened ApiServer
  import opened Reconcile
  import opened Protocol
  import opened Invariant
  import opened Guarantees
  import opened Guard
  import opened BigStep
  import opened Convergence
  import Webhook

  const KEY := Key("default", "svc")

  const ROUTER := RouterRoleSpec("img", 1, None, [], [], ["run"], None, None)
  const WORKER := InferenceRoleSpec("img", 1, "", "", None, [], [], ["run"], None, None, [])
  const SPEC := ServiceSpec("model", "sglang", [], ROUTER, WORKER, WORKER, "", "", None)

  const CREATE := CreateSvc(KEY, SPEC, [], None)
  const START := Start(KEY, None)
  const STEP := Continue(KEY, None, false)

  /** Created and given its finalizer. */
  const BIRTH := [CREATE, START, STEP, Abort(KEY)]

  /** Reconciled as far as the creation of the group. */
  const BUILD := [START, STEP, STEP, STEP]

  /** Deleted and released. */
  const DEATH := [DeleteSvc(KEY), START, STEP, STEP]

  /** A reconcile that starts from the store in which the service was alive. */
  const REVENANT := [Start(KEY, Some(4)), STEP, STEP]

  lemma ExecOne(parse: Parser, w: World, l: Label)
    ensures Exec(parse, w, [l]) == Next(parse, w, l)
  {
    assert [l][..0] == [];
  }

  lemma ExecThree(parse: Parser, w: World, l1: Label, l2: Label, l3: Label)
    ensures Exec(parse, w, [l1, l2, l3]) == Next(parse, Next(parse, Next(parse, w, l1), l2), l3)
  {
    assert [l1, l2, l3] == [l1] + [l2] + [l3];
    ExecSplit(parse, w, [l1] + [l2], [l3]);
    ExecSplit(parse, w, [l1], [l2]);
    ExecOne(parse, w, l1);
    ExecOne(parse, Next(parse, w, l1), l2);
    ExecOne(parse, Next(parse, Next(parse, w, l1), l2), l3);
  }

  lemma ExecFour(parse: Parser, w: World, l1: Label, l2: Label, l3: Label, l4: Label)
    ensures Exec(parse, w, [l1, l2, l3, l4]) == Next(parse, Next(parse, Next(parse, Next(parse, w, l1), l2), l3), l4)
  {
    assert [l1, l2, l3, l4] == [l1, l2, l3] + [l4];
    ExecSplit(parse, w, [l1, l2, l3], [l4]);
    ExecThree(parse, w, l1, l2, l3);
    ExecOne(parse, Exec(parse, w, [l1, l2, l3]), l4);
  }

  lemma SpecIsAdmitted()
    ensures Webhook.Defaulted(SPEC) == SPEC && SchemaValid(SPEC) && Webhook.CreateAllowed(SPEC, false)
  {
    assert Webhook.DanglingIn({}, [], "router") == [];
  }

  // ----- Birth -----

  predicate Alive(s: Service) {
    s.uid == 0 && s.spec == SPEC && !s.deleting && s.finalizers == [FINALIZER]
  }

  const NEWBORN := Service(0, 0, 0, false, [], SPEC, EMPTY_STATUS)

  /** Nothing but services and reconciles is there. */
  predicate Calm(w: World, steps: nat) {
    w.store.groups == map[] && w.store.profiles == map[] && |w.past| == steps
  }

  lemma BirthCreates(parse: Parser)
    ensures
      var w := Next(parse, Initial(map[], 0), CREATE);
      Calm(w, 1) && w.store.services == map[KEY := NEWBORN] && w.workers == map[]
  {
    SpecIsAdmitted();
  }

  lemma BirthStarts(parse: Parser, w: World)
    requires Calm(w, 1) && w.store.services == map[KEY := NEWBORN] && w.workers == map[]
    ensures
      var w' := Next(parse, w, START);
      Calm(w', 2) && w'.store.services == map[KEY := NEWBORN] && w'.workers == map[KEY := AddingFinalizer(NEWBORN)]
  {
  }

  lemma BirthProtects(parse: Parser, w: World)
    requires Calm(w, 2) && w.store.services == map[KEY := NEWBORN] && w.workers == map[KEY := AddingFinalizer(NEWBORN)]
    ensures
      var w' := Next(parse, w, STEP);
      Calm(w', 3) && KEY in w'.store.services && Alive(w'.store.services[KEY]) && w'.workers.Keys == {KEY}
  {
    SpecIsAdmitted();
    UpdateFacts(w.store, KEY, WrittenBase(w.workers[KEY]));
  }

  lemma BirthAborts(parse: Parser, w: World)
    requires w.workers.Keys == {KEY}
    ensures
      var w' := Next(parse, w, Abort(KEY));
      w'.store == w.store && w'.workers == map[] && w'.past == w.past + [w.store]
  {
  }

  lemma AfterBirth(parse: Parser)
    ensures
      var w := Reached(parse, map[], 0, BIRTH);
      Calm(w, 4) && KEY in w.store.services && Alive(w.store.services[KEY]) && w.workers == map[]
  {
    var w0 := Initial(map[], 0);
    ExecFour(parse, w0, CREATE, START, STEP, Abort(KEY));
    BirthCreates(parse);
    var w1 := Next(parse, w0, CREATE);
    BirthStarts(parse, w1);
    var w2 := Next(parse, w1, START);
    BirthProtects(parse, w2);
    BirthAborts(parse, Next(parse, w2, STEP));
  }

  // ----- Building the group -----

  lemma BuildStarts(parse: Parser, w: World, view: Option<nat>)
    requires KEY in View(w, view).services && Alive(View(w, view).services[KEY]) && w.workers == map[]
    ensures
      var w' := Next(parse, w, Start(KEY, view));
      w'.workers == map[KEY := Resolving(View(w, view).services[KEY])] && w'.store == w.store
  {
  }

  lemma BuildResolves(parse: Parser, w: World, s: Service)
    requires w.workers == map[KEY := Resolving(s)] && Alive(s)
    ensures
      var w' := Next(parse, w, STEP);
      && w'.workers.Keys == {KEY} && w'.workers[KEY].GettingGroup? && w'.store == w.store
      && w'.workers[KEY].desired.owners == [OwnerRef(KEY.name, 0)]
  {
  }

  lemma BuildFindsNoGroup(parse: Parser, w: World)
    requires w.workers.Keys == {KEY} && w.workers[KEY].GettingGroup? && w.store.groups == map[]
    ensures
      var w' := Next(parse, w, STEP);
      && w'.workers.Keys == {KEY} && w'.workers[KEY].CreatingGroup? && w'.store == w.store
      && w'.workers[KEY].desired == w.workers[KEY].desired
  {
  }

  lemma BuildCreates(parse: Parser, w: World)
    requires w.workers.Keys == {KEY} && w.workers[KEY].CreatingGroup? && w.store.groups == map[]
    requires w.workers[KEY].desired.owners == [OwnerRef(KEY.name, 0)]
    ensures
      var w' := Next(parse, w, STEP);
      && KEY in w'.store.groups && w'.store.groups[KEY].owners == [OwnerRef(KEY.name, 0)]
      && w'.store.services == w.store.services && w'.store.profiles == w.store.profiles && w'.workers.Keys == {KEY}
  {
  }

  /** A reconcile of a living service, read from wherever, stands ready to create the group. */
  lemma ReadyToCreate(parse: Parser, w: World, view: Option<nat>)
    requires KEY in View(w, view).services && Alive(View(w, view).services[KEY]) && w.workers == map[]
    requires w.store.groups == map[]
    ensures
      var w' := Exec(parse, w, [Start(KEY, view), STEP, STEP]);
      && w'.workers.Keys == {KEY} && w'.workers[KEY].CreatingGroup? && w'.store == w.store
      && w'.workers[KEY].desired.owners == [OwnerRef(KEY.name, 0)]
  {
    ExecThree(parse, w, Start(KEY, view), STEP, STEP);
    BuildStarts(parse, w, view);
    var w1 := Next(parse, w, Start(KEY, view));
    BuildResolves(parse, w1, View(w, view).services[KEY]);
    BuildFindsNoGroup(parse, Next(parse, w1, STEP));
  }

  // ----- Death -----

  predicate Marked(s: Service) {
    s.uid == 0 && s.spec == SPEC && s.deleting && s.finalizers == [FINALIZER]
  }

  lemma DeathMarks(parse: Parser, w: World)
    requires KEY in w.store.services && Alive(w.store.services[KEY])
    ensures
      var w' := Next(parse, w, DeleteSvc(KEY));
      && KEY in w'.store.services && Marked(w'.store.services[KEY])
      && w'.store.groups == w.store.groups && w'.workers == w.workers
  {
  }

  lemma DeathStarts(parse: Parser, w: World)
    requires KEY in w.store.services && Marked(w.store.services[KEY]) && w.workers == map[]
    ensures
      var w' := Next(parse, w, START);
      w'.store == w.store && w'.workers == map[KEY := RemovingFinalizer(w.store.services[KEY])]
  {
  }

  lemma DeathReleases(parse: Parser, w: World)
    requires KEY in w.store.services && Marked(w.store.services[KEY])
    requires w.workers == map[KEY := RemovingFinalizer(w.store.services[KEY])]
    ensures
      var w' := Next(parse, w, STEP);
      && KEY !in w'.store.services && w'.store.groups == w.store.groups
      && w'.workers == map[KEY := Done(Released)]
  {
    SpecIsAdmitted();
    var obj := WrittenBase(w.workers[KEY]);
    assert [FINALIZER][..0] == [];
    assert obj.finalizers == [];
    UpdateFacts(w.store, KEY, obj);
    CommitFacts(w.store, KEY, obj);
  }

  lemma DeathEnds(parse: Parser, w: World)
    requires w.workers == map[KEY := Done(Released)]
    ensures Next(parse, w, STEP).store == w.store && Next(parse, w, STEP).workers == map[]
  {
  }

  lemma AfterDeath(parse: Parser, w: World)
    requires KEY in w.store.services && Alive(w.store.services[KEY]) && w.workers == map[]
    ensures
      var w' := Exec(parse, w, DEATH);
      && KEY !in w'.store.services && w'.workers == map[] && w'.store.groups == w.store.groups
      && |w'.past| == |w.past| + 4 && w'.past[..|w.past| + 1] == w.past + [w.store]
  {
    ExecFour(parse, w, DeleteSvc(KEY), START, STEP, STEP);
    DeathMarks(parse, w);
    var w1 := Next(parse, w, DeleteSvc(KEY));
    DeathStarts(parse, w1);
    var w2 := Next(parse, w1, START);
    DeathReleases(parse, w2);
    var w3 := Next(parse, w2, STEP);
    DeathEnds(parse, w3);
    assert Next(parse, w3, STEP).past == w.past + [w.store] + [w1.store, w2.store, w3.store];
  }

  // ----- A restart with an old list -----

  /** After the service is gone the manager restarts, and the cache of the new process
      begins with a list from before the deletion. */
  const RESTARTED := BIRTH + DEATH + [Restart]

  lemma AfterRestart(parse: Parser)
    ensures
      var w := Reached(parse, map[], 0, RESTARTED);
      && KEY !in w.store.services && w.store.groups == map[] && w.workers == map[]
      && |w.past| == 9 && KEY in w.past[4].services && Alive(w.past[4].services[KEY])
  {
    var w0 := Initial(map[], 0);
    ExecSplit(parse, w0, BIRTH + DEATH, [Restart]);
    ExecSplit(parse, w0, BIRTH, DEATH);
    AfterBirth(parse);
    var born := Exec(parse, w0, BIRTH);
    AfterDeath(parse, born);
    var dead := Exec(parse, born, DEATH);
    ExecOne(parse, dead, Restart);
    assert dead.past[4] == dead.past[..5][4] == born.store;
  }

  lemma RestartedIsOrdered(parse: Parser, restarts: bool)
    ensures Ordered(parse, Initial(map[], 0), RESTARTED, KEY, restarts)
    ensures restarts ==> Newest(parse, Initial(map[], 0), RESTARTED, KEY, restarts) == 0
  {
    CurrentReadsAreOrdered(parse, map[], 0, RESTARTED, KEY, restarts);
    OrderedAppend(parse, Initial(map[], 0), BIRTH + DEATH, Restart, KEY, restarts);
  }

  /** Before the restart a reconcile has started from the store with the deletion mark. */
  lemma DeathWasRead(parse: Parser)
    ensures 5 <= Newest(parse, Initial(map[], 0), RESTARTED, KEY, false)
  {
    var w0 := Initial(map[], 0);
    AfterBirth(parse);
    var born := Exec(parse, w0, BIRTH);
    DeathMarks(parse, born);
    ExecSplit(parse, w0, BIRTH, [DeleteSvc(KEY)]);
    ExecOne(parse, born, DeleteSvc(KEY));
    OrderedAppend(parse, w0, BIRTH + [DeleteSvc(KEY)], START, KEY, false);
    NewestGrows(parse, w0, BIRTH + [DeleteSvc(KEY)] + [START], [STEP, STEP, Restart], KEY);
    assert BIRTH + [DeleteSvc(KEY)] + [START] + [STEP, STEP, Restart] == RESTARTED;
  }

  lemma RevenantOrder(parse: Parser, restarts: bool)
    ensures Ordered(parse, Initial(map[], 0), RESTARTED + REVENANT, KEY, restarts) <==> restarts
  {
    var w0 := Initial(map[], 0);
    AfterRestart(parse);
    RestartedIsOrdered(parse, restarts);
    DeathWasRead(parse);
    OrderedAppend(parse, w0, RESTARTED, REVENANT[0], KEY, restarts);
    OrderedAppend(parse, w0, RESTARTED + [REVENANT[0]], STEP, KEY, restarts);
    OrderedAppend(parse, w0, RESTARTED + [REVENANT[0]] + [STEP], STEP, KEY, restarts);
    assert RESTARTED + [REVENANT[0]] + [STEP] + [STEP] == RESTARTED + REVENANT;
  }

  lemma OrphanIsCreated(parse: Parser, w: World)
    requires w.workers.Keys == {KEY} && w.workers[KEY].CreatingGroup? && w.store.groups == map[]
    requires w.workers[KEY].desired.owners == [OwnerRef(KEY.name, 0)] && KEY !in w.store.services
    ensures KEY in Next(parse, w, STEP).store.groups && Orphan(Next(parse, w, STEP).store, KEY)
  {
  }

  /** The cache never goes back while the process lives, but after the restart its list
      is behind what the process before had read: the controller stands ready to
      create a group for a service that no longer exists, and the next step creates
      it as an orphan. */
  lemma RestartBreaksGuard(parse: Parser)
    ensures Ordered(parse, Initial(map[], 0), RESTARTED + REVENANT, KEY, true)
    ensures !Ordered(parse, Initial(map[], 0), RESTARTED + REVENANT, KEY, false)
    ensures
      var w := Reached(parse, map[], 0, RESTARTED + REVENANT);
      && KEY in w.workers && w.workers[KEY].CreatingGroup? && !Guarded(w, KEY)
      && KEY !in w.store.services
      && KEY in Next(parse, w, STEP).store.groups && Orphan(Next(parse, w, STEP).store, KEY)
  {
    RevenantOrder(parse, true);
    RevenantOrder(parse, false);
    ExecSplit(parse, Initial(map[], 0), RESTARTED, REVENANT);
    AfterRestart(parse);
    var w := Reached(parse, map[], 0, RESTARTED);
    ReadyToCreate(parse, w, Some(4));
    OrphanIsCreated(parse, Exec(parse, w, REVENANT));
  }

  // ----- A lingering group -----

  /** Created, reconciled up to its group, deleted, and created again. */
  const REBORN := BIRTH + BUILD + [Abort(KEY)] + DEATH + [CREATE]

  lemma AfterBuild(parse: Parser)
    ensures
      var w := Reached(parse, map[], 0, BIRTH + BUILD + [Abort(KEY)]);
      && KEY in w.store.services && Alive(w.store.services[KEY]) && w.workers == map[]
      && w.store.profiles == map[]
      && KEY in w.store.groups && w.store.groups[KEY].owners == [OwnerRef(KEY.name, 0)]
  {
    var w0 := Initial(map[], 0);
    ExecSplit(parse, w0, BIRTH + BUILD, [Abort(KEY)]);
    ExecSplit(parse, w0, BIRTH, BUILD);
    AfterBirth(parse);
    var born := Exec(parse, w0, BIRTH);
    assert BUILD == [START, STEP, STEP] + [STEP];
    ExecSplit(parse, born, [START, STEP, STEP], [STEP]);
    ReadyToCreate(parse, born, None);
    var ready := Exec(parse, born, [START, STEP, STEP]);
    ExecOne(parse, ready, STEP);
    BuildCreates(parse, ready);
    var built := Next(parse, ready, STEP);
    ExecOne(parse, built, Abort(KEY));
    BirthAborts(parse, built);
  }

  /** A re-creation is accepted and takes a uid never handed out before. */
  lemma Recreated(parse: Parser, w: World)
    requires KEY !in w.store.services
    ensures
      var st := Next(parse, w, CREATE).store;
      && Live(st, KEY) && st.services[KEY].spec == SPEC && st.services[KEY].uid == w.store.nextUid
      && st.groups == w.store.groups && st.profiles == w.store.profiles
  {
    SpecIsAdmitted();
  }

  lemma AfterRebirth(parse: Parser)
    ensures
      var st := Reached(parse, map[], 0, REBORN).store;
      && Live(st, KEY) && st.services[KEY].spec == SPEC && ServiceOk(st.services[KEY]) && st.services[KEY].uid != 0
      && KEY in st.groups && st.groups[KEY].owners == [OwnerRef(KEY.name, 0)]
  {
    var w0 := Initial(map[], 0);
    ExecSplit(parse, w0, BIRTH + BUILD + [Abort(KEY)] + DEATH, [CREATE]);
    ExecSplit(parse, w0, BIRTH + BUILD + [Abort(KEY)], DEATH);
    AfterBuild(parse);
    var built := Reached(parse, map[], 0, BIRTH + BUILD + [Abort(KEY)]);
    AfterDeath(parse, built);
    var dead := Exec(parse, built, DEATH);
    ReachedInv(parse, map[], 0, BIRTH + BUILD + [Abort(KEY)] + DEATH);
    assert SeenGroup(dead, KEY, dead.store.groups[KEY]);
    ExecOne(parse, dead, CREATE);
    Recreated(parse, dead);
    ReachedInv(parse, map[], 0, REBORN);
    var w := Reached(parse, map[], 0, REBORN);
    assert ServiceOk(w.store.services[KEY]);
  }

  lemma NotAdopted(parse: Parser, st: Store, now: int)
    requires Live(st, KEY) && ServiceOk(st.services[KEY]) && Buildable(parse, st, KEY) && st.services[KEY].uid != 0
    requires KEY in st.groups && st.groups[KEY].owners == [OwnerRef(KEY.name, 0)]
    ensures
      var (st', outcome) := Once(parse, st, KEY, now);
      && outcome == Synced && KEY in st'.groups
      && st'.groups[KEY].roles == DesiredGroup(parse, st, KEY).roles
      && st'.groups[KEY].owners == [OwnerRef(KEY.name, 0)]
      && KEY !in CollectAll(st').groups
  {
    ReconcileStabilises(parse, st, KEY, now);
    GroupKept(parse, st, KEY, now);
  }

  /** A reached world in which the group of a deleted namesake lingers: a successful
      reconcile gives it the right roles but leaves it to its old owner, so that the
      collector will remove it. */
  lemma LingeringGroupIsNotAdopted(parse: Parser, now: int)
    ensures
      var st := Reached(parse, map[], 0, REBORN).store;
      && Live(st, KEY) && Buildable(parse, st, KEY)
      && KEY in st.groups && !OwnedBy(st.groups[KEY], KEY, st.services[KEY].uid)
      && var (st', outcome) := Once(parse, st, KEY, now);
      && outcome == Synced && KEY in st'.groups
      && st'.groups[KEY].roles == DesiredGroup(parse, st, KEY).roles
      && !OwnedBy(st'.groups[KEY], KEY, st.services[KEY].uid)
      && KEY !in CollectAll(st').groups
  {
    AfterRebirth(parse);
    NotAdopted(parse, Reached(parse, map[], 0, REBORN).store, now);
  }

  // ----- An accepted update -----

  /** A reached world whose stored service breaks the creation rules: created, then
      edited once. */
  lemma UpdateBreaksCreationRules(parse: Parser)
    ensures
      var st := Reached(parse, map[], 0, [CREATE, EditSvc(KEY, Webhook.Broken(SPEC), [])]).store;
      && KEY in st.services && st.services[KEY].spec == Webhook.Broken(SPEC)
      && !Webhook.CreateAllowed(st.services[KEY].spec, true)
  {
    var w0 := Initial(map[], 0);
    assert [CREATE, EditSvc(KEY, Webhook.Broken(SPEC), [])] == [CREATE] + [EditSvc(KEY, Webhook.Broken(SPEC), [])];
    ExecSplit(parse, w0, [CREATE], [EditSvc(KEY, Webhook.Broken(SPEC), [])]);
    ExecOne(parse, w0, CREATE);
    BirthCreates(parse);
    var w := Next(parse, w0, CREATE);
    EditCanBreakCreationRules(parse, map[], 0, [CREATE], KEY);
    ExecOne(parse, w, EditSvc(KEY, Webhook.Broken(SPEC), []));
  }
}
