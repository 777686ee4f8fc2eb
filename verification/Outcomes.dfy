/** What the state and the outcome of a reconcile say about the run behind it: it only
    gets to the status after its group write was accepted, and what it wrote is what
    spec and profile ask for.
 */
module Outcomes {
  import opened Types
  import opened Config
  import opened Translator
  import opened ApiServer
  import opened Reconcile
  import opened Protocol
  import opened Guarantees
  import opened Guard

  // ----- One step of a reconcile -----

  /** The client call that this step makes for this key. */
  function Call(parse: Parser, w: World, l: Label, key: Key): (Store, Worker)
    requires l.Continue? && key in w.workers
  {
    Advance(parse, View(w, l.view), w.store, key, w.clock, l.lookupFails, w.workers[key])
  }

  predicate Calls(w: World, l: Label, key: Key) {
    l.Continue? && l.key == key && key in w.workers && !w.workers[key].Done?
  }

  /** Where a running reconcile comes from: carried on, begun by a read, or moved by its
      own client call. */
  lemma WorkerComesFrom(parse: Parser, w: World, l: Label, key: Key)
    requires key in Next(parse, w, l).workers
    ensures
      || (key in w.workers && Next(parse, w, l).workers[key] == w.workers[key])
      || (Reads(w, l, key) && Next(parse, w, l).workers[key] == Begin(View(w, l.view), key))
      || (&& Calls(w, l, key)
          && Next(parse, w, l).workers[key] == Call(parse, w, l, key).1
          && Next(parse, w, l).store == Call(parse, w, l, key).0)
  {
  }

  // ----- What a reconcile wants -----

  predicate HasDesired(worker: Worker) {
    worker.GettingGroup? || worker.CreatingGroup? || worker.UpdatingGroup?
  }

  /** The desired group is built from the spec that was read and from the profiles of a
      store of this run. */
  predicate BuiltAt(parse: Parser, w: World, key: Key, worker: Worker, i: nat)
    requires HasDesired(worker)
  {
    var spec := worker.base.spec;
    && i <= |w.past|
    && Resolvable(StoreAt(w, i).profiles, key.ns, spec) && QuantitiesParse(parse, spec)
    && worker.desired.owners == [OwnerRef(key.name, worker.base.uid)]
    && worker.desired.roles == Roles(parse, spec, Merge(spec, ProfileFor(StoreAt(w, i).profiles, key.ns, spec)))
  }

  ghost predicate WantsBuilt(parse: Parser, w: World, key: Key) {
    key in w.workers && HasDesired(w.workers[key]) ==> exists i: nat :: BuiltAt(parse, w, key, w.workers[key], i)
  }

  /** Where a desired group comes from: carried on, or just built. */
  lemma DesiredComesFrom(parse: Parser, w: World, l: Label, key: Key)
    requires Calls(w, l, key) && HasDesired(Call(parse, w, l, key).1)
    ensures
      var worker, worker' := w.workers[key], Call(parse, w, l, key).1;
      if worker.Resolving? then
        worker'.GettingGroup? && worker' == AfterResolve(parse, View(w, l.view), key, l.lookupFails, worker.base)
      else
        HasDesired(worker) && worker'.base == worker.base && worker'.desired == worker.desired
  {
  }

  lemma NextWantsBuilt(parse: Parser, w: World, l: Label, key: Key)
    requires WantsBuilt(parse, w, key)
    ensures WantsBuilt(parse, Next(parse, w, l), key)
  {
    var w' := Next(parse, w, l);
    if key in w'.workers && HasDesired(w'.workers[key]) {
      WorkerComesFrom(parse, w, l, key);
      if w'.workers[key] != w.workers[key] {
        DesiredComesFrom(parse, w, l, key);
      }
      if HasDesired(w.workers[key]) {
        var i: nat :| BuiltAt(parse, w, key, w.workers[key], i);
        assert StoreAt(w', i) == StoreAt(w, i);
        assert BuiltAt(parse, w', key, w'.workers[key], i);
      } else {
        var i := ReadAt(w, l.view);
        ResolutionDecides(parse, View(w, l.view), key, l.lookupFails, w.workers[key].base);
        assert StoreAt(w', i) == StoreAt(w, i);
        assert BuiltAt(parse, w', key, w'.workers[key], i);
      }
    }
  }

  lemma {:induction false} RunsWantBuilt(
    parse: Parser, profiles: map<Key, ProfileSpec>, clock: int, ls: seq<Label>, key: Key)
    ensures WantsBuilt(parse, Reached(parse, profiles, clock, ls), key)
  {
    if ls != [] {
      RunsWantBuilt(parse, profiles, clock, ls[..|ls| - 1], key);
      NextWantsBuilt(parse, Reached(parse, profiles, clock, ls[..|ls| - 1]), ls[|ls| - 1], key);
    }
  }

  // ----- What a reconcile has written -----

  /** The reconcile is past its group write. */
  predicate PastGroup(worker: Worker, base: Service) {
    worker == ReadingGroup(base) || (worker.WritingStatus? && worker.base == base && worker.ev.Sync?)
  }

  /** This step is an accepted group write of a reconcile that had read `base`, and the
      group now has exactly the roles it wanted. */
  predicate WritesGroup(parse: Parser, w: World, l: Label, key: Key, base: Service) {
    && l.Continue? && l.key == key && key in w.workers
    && (w.workers[key].CreatingGroup? || w.workers[key].UpdatingGroup?) && w.workers[key].base == base
    && var st := Next(parse, w, l).store;
    && key in st.groups && st.groups[key].roles == w.workers[key].desired.roles
    && (w.workers[key].CreatingGroup? ==>
          key !in w.store.groups && st.groups[key].owners == w.workers[key].desired.owners)
    && (w.workers[key].UpdatingGroup? ==> !GroupMoved(w.store, key, w.workers[key].group))
  }

  /** The reconcile at the end of this run is past its group write. */
  predicate EndsPast(parse: Parser, w: World, ls: seq<Label>, key: Key, base: Service) {
    key in Exec(parse, w, ls).workers && PastGroup(Exec(parse, w, ls).workers[key], base)
  }

  /** Step n is this reconcile's group write, and it has been past it ever since. */
  ghost predicate WroteAt(parse: Parser, w: World, ls: seq<Label>, key: Key, base: Service, n: nat) {
    && n < |ls|
    && WritesGroup(parse, Exec(parse, w, ls[..n]), ls[n], key, base)
    && forall m :: n < m <= |ls| ==> EndsPast(parse, w, ls[..m], key, base)
  }

  /** How a reconcile gets past its group write. */
  lemma PastGroupComesFrom(parse: Parser, w: World, l: Label, key: Key, base: Service)
    requires key in Next(parse, w, l).workers && PastGroup(Next(parse, w, l).workers[key], base)
    ensures key in w.workers && (PastGroup(w.workers[key], base) || WritesGroup(parse, w, l, key, base))
  {
    WorkerComesFrom(parse, w, l, key);
    if Calls(w, l, key) && !PastGroup(w.workers[key], base) {
      CallGetsPast(parse, w, l, key, base);
    }
  }

  lemma CallGetsPast(parse: Parser, w: World, l: Label, key: Key, base: Service)
    requires Calls(w, l, key) && PastGroup(Call(parse, w, l, key).1, base) && !PastGroup(w.workers[key], base)
    ensures
      var worker, st := w.workers[key], Call(parse, w, l, key).0;
      && (worker.CreatingGroup? || worker.UpdatingGroup?) && worker.base == base
      && key in st.groups && st.groups[key].roles == worker.desired.roles
      && (worker.CreatingGroup? ==> key !in w.store.groups && st.groups[key].owners == worker.desired.owners)
      && (worker.UpdatingGroup? ==> !GroupMoved(w.store, key, worker.group))
  {
  }

  lemma StillWrote(parse: Parser, w: World, ls: seq<Label>, l: Label, key: Key, base: Service, n: nat)
    requires WroteAt(parse, w, ls, key, base, n) && EndsPast(parse, w, ls + [l], key, base)
    ensures WroteAt(parse, w, ls + [l], key, base, n)
  {
    var more := ls + [l];
    assert more[..n] == ls[..n] && more[n] == ls[n];
    forall m | n < m <= |more| ensures EndsPast(parse, w, more[..m], key, base) {
      assert more[..m] == if m <= |ls| then ls[..m] else more;
    }
  }

  lemma JustWrote(parse: Parser, w: World, ls: seq<Label>, l: Label, key: Key, base: Service)
    requires WritesGroup(parse, Exec(parse, w, ls), l, key, base) && EndsPast(parse, w, ls + [l], key, base)
    ensures WroteAt(parse, w, ls + [l], key, base, |ls|)
  {
    assert (ls + [l])[..|ls|] == ls;
    assert (ls + [l])[..|ls| + 1] == ls + [l];
  }

  /** A reconcile that is past its group write, in any run, had the write accepted. */
  lemma {:induction false} PastGroupMeansWritten(parse: Parser, w: World, ls: seq<Label>, key: Key, base: Service)
    requires w.workers == map[] && EndsPast(parse, w, ls, key, base)
    ensures exists n: nat :: WroteAt(parse, w, ls, key, base, n)
  {
    var init, last := ls[..|ls| - 1], ls[|ls| - 1];
    assert init + [last] == ls;
    PastGroupComesFrom(parse, Exec(parse, w, init), last, key, base);
    if EndsPast(parse, w, init, key, base) {
      PastGroupMeansWritten(parse, w, init, key, base);
      var n: nat :| WroteAt(parse, w, init, key, base, n);
      StillWrote(parse, w, init, last, key, base, n);
    } else {
      JustWrote(parse, w, init, last, key, base);
    }
  }

  // ----- Outcomes -----

  /** This step is the accepted write of a synced status, and ends the reconcile. */
  predicate WritesSync(parse: Parser, w: World, l: Label, key: Key, base: Service) {
    && l.Continue? && l.key == key && key in w.workers
    && w.workers[key].WritingStatus? && w.workers[key].base == base && w.workers[key].ev.Sync?
    && Current(w.store, key, base)
  }

  /** Step m ended the reconcile with its status write. */
  ghost predicate SyncedAt(parse: Parser, w: World, ls: seq<Label>, key: Key, base: Service, n: nat, m: nat) {
    && n < m < |ls|
    && WroteAt(parse, w, ls[..m], key, base, n)
    && WritesSync(parse, Exec(parse, w, ls[..m]), ls[m], key, base)
  }

  lemma CallSyncs(parse: Parser, w: World, l: Label, key: Key)
    requires Calls(w, l, key) && Call(parse, w, l, key).1 == Done(Synced)
    ensures WritesSync(parse, w, l, key, w.workers[key].base)
  {
  }

  lemma SyncedComesFrom(parse: Parser, w: World, l: Label, key: Key)
    requires key in Next(parse, w, l).workers && Next(parse, w, l).workers[key] == Done(Synced)
    ensures key in w.workers
    ensures w.workers[key] != Done(Synced) ==>
              !w.workers[key].Done? && WritesSync(parse, w, l, key, w.workers[key].base)
  {
    WorkerComesFrom(parse, w, l, key);
    if w.workers[key] != Done(Synced) {
      CallSyncs(parse, w, l, key);
    }
  }

  /** A reconcile that ends as synced, in any run, had its group write accepted with the
      desired roles and then its status write. */
  lemma {:induction false} SyncedMeansApplied(parse: Parser, w: World, ls: seq<Label>, key: Key)
    requires w.workers == map[]
    requires key in Exec(parse, w, ls).workers && Exec(parse, w, ls).workers[key] == Done(Synced)
    ensures exists base, n: nat, m: nat :: SyncedAt(parse, w, ls, key, base, n, m)
  {
    var init, last := ls[..|ls| - 1], ls[|ls| - 1];
    var before := Exec(parse, w, init);
    SyncedComesFrom(parse, before, last, key);
    if before.workers[key] == Done(Synced) {
      SyncedMeansApplied(parse, w, init, key);
      var base, n: nat, m: nat :| SyncedAt(parse, w, init, key, base, n, m);
      assert init[..m] == ls[..m];
      assert SyncedAt(parse, w, ls, key, base, n, m);
    } else {
      var base := before.workers[key].base;
      PastGroupMeansWritten(parse, w, init, key, base);
      var n: nat :| WroteAt(parse, w, init, key, base, n);
      assert SyncedAt(parse, w, ls, key, base, n, |init|);
    }
  }

  /** And what it applied was built from the spec it had read and from profiles of the
      run: a refused or a wrong group write never ends as synced. */
  lemma SyncedGroupWasBuilt(parse: Parser, profiles: map<Key, ProfileSpec>, clock: int, ls: seq<Label>, key: Key)
    requires
      var end := Reached(parse, profiles, clock, ls);
      key in end.workers && end.workers[key] == Done(Synced)
    ensures
      exists base, n: nat, m: nat, i: nat ::
        && SyncedAt(parse, Initial(profiles, clock), ls, key, base, n, m)
        && var w := Reached(parse, profiles, clock, ls[..m][..n]);
        && key in w.workers && HasDesired(w.workers[key]) && BuiltAt(parse, w, key, w.workers[key], i)
  {
    SyncedMeansApplied(parse, Initial(profiles, clock), ls, key);
    var base, n: nat, m: nat :| SyncedAt(parse, Initial(profiles, clock), ls, key, base, n, m);
    RunsWantBuilt(parse, profiles, clock, ls[..m][..n], key);
    var w := Reached(parse, profiles, clock, ls[..m][..n]);
    var i: nat :| BuiltAt(parse, w, key, w.workers[key], i);
  }
}
