/** The finalizer guard: when the controller may create a group, the service it names
    as owner is still stored and held by the finalizer. The first read of a reconcile
    comes from the informer cache, so what has to hold of these reads is the point.
 */
module Guard {
  import opened Types
  import opened ApiServer
  import opened Reconcile
  import opened Scaling
  import opened Protocol
  import opened Invariant
  import opened Runs
  import opened Guarantees
  import Webhook

  // ----- Protection -----

  /** The reconcile has passed its finalizer check. */
  predicate PastFinalizer(worker: Worker) {
    !worker.Done? && !worker.AddingFinalizer? && !worker.RemovingFinalizer?
  }

  predicate Protected(st: Store, key: Key, uid: nat) {
    key in st.services && st.services[key].uid == uid && FINALIZER in st.services[key].finalizers
  }

  /** A reconcile of this key past its finalizer check works for a service that is
      still stored. */
  predicate Guarded(w: World, key: Key) {
    key in w.workers && PastFinalizer(w.workers[key]) ==> Protected(w.store, key, w.workers[key].base.uid)
  }

  predicate RemovesFinalizer(w: World, l: Label, key: Key) {
    l.Continue? && l.key == key && key in w.workers && w.workers[key].RemovingFinalizer?
  }

  lemma UpdateKeepsProtection(st: Store, k: Key, obj: Service, key: Key, uid: nat)
    requires Protected(st, key, uid)
    requires k == key && Current(st, k, obj) ==> FINALIZER in obj.finalizers
    ensures Protected(UpdateService(st, k, obj).0, key, uid)
  {
    UpdateFacts(st, k, obj);
    if k == key && Current(st, k, obj) {
      CommitFacts(st, k, st.services[k].(spec := Webhook.Defaulted(obj.spec), finalizers := obj.finalizers));
    } else {
      assert SameAt(st, UpdateService(st, k, obj).0, key);
    }
  }

  lemma StatusKeepsProtection(st: Store, k: Key, obj: Service, key: Key, uid: nat)
    requires Protected(st, key, uid)
    ensures Protected(UpdateServiceStatus(st, k, obj).0, key, uid)
  {
    StatusFacts(st, k, obj);
    if k == key && Current(st, k, obj) {
      CommitFacts(st, k, st.services[k].(status := obj.status));
    } else {
      assert SameAt(st, UpdateServiceStatus(st, k, obj).0, key);
    }
  }

  lemma ReconcileKeepsProtection(w: World, l: Label, key: Key, uid: nat)
    requires Protected(w.store, key, uid) && l.Continue? && !Quiet(w, l) && !RemovesFinalizer(w, l, key)
    ensures Protected(Written(w, l), key, uid)
  {
    var worker := w.workers[l.key];
    if worker.WritingStatus? {
      StatusKeepsProtection(w.store, l.key, WrittenBase(worker), key, uid);
    } else {
      UpdateKeepsProtection(w.store, l.key, WrittenBase(worker), key, uid);
    }
  }

  lemma PutKeepsProtection(w: World, id: nat, key: Key, uid: nat)
    requires Inv(w) && Protected(w.store, key, uid) && id in w.puts
    ensures Protected(Written(w, PutWrite(id)), key, uid)
  {
    var p := w.puts[id];
    assert Seen(w, p.key, p.base);
    UpdateKeepsProtection(w.store, p.key, p.base.(spec := Scaled(p.base.spec, p.req)), key, uid);
  }

  lemma UserKeepsProtection(w: World, l: Label, key: Key, uid: nat)
    requires Protected(w.store, key, uid) && (l.CreateSvc? || l.EditSvc? || l.DeleteSvc?)
    ensures Protected(Written(w, l), key, uid)
  {
    if l.EditSvc? && l.key in w.store.services && Written(w, l) != w.store {
      UpdateKeepsProtection(w.store, l.key, w.store.services[l.key].(spec := l.spec, finalizers := l.finalizers),
                            key, uid);
    } else if l.DeleteSvc? && l.key in w.store.services {
      CommitFacts(w.store, l.key, w.store.services[l.key].(deleting := true));
      assert l.key != key ==> SameAt(w.store, Written(w, l), key);
    }
  }

  /** Only the removal of the finalizer by this key's own reconcile ends the protection. */
  lemma ProtectionHolds(parse: Parser, w: World, l: Label, key: Key, uid: nat)
    requires Inv(w) && Protected(w.store, key, uid) && !RemovesFinalizer(w, l, key)
    ensures Protected(Next(parse, w, l).store, key, uid)
  {
    if Quiet(w, l) {
      QuietStep(parse, w, l);
    } else {
      WriteStep(parse, w, l);
      if l.Continue? {
        ReconcileKeepsProtection(w, l, key, uid);
      } else if !l.PutWrite? {
        UserKeepsProtection(w, l, key, uid);
      } else if l.id in w.puts {
        PutKeepsProtection(w, l.id, key, uid);
      }
    }
  }

  // ----- The exact condition -----

  /** This step is the first read of a reconcile of this key. */
  predicate Reads(w: World, l: Label, key: Key) {
    l.Start? && l.key == key && key !in w.workers
  }

  /** A first read that finds the service alive and with our finalizer finds one that is
      protected in the store at that moment. */
  predicate ReadsProtected(w: World, l: Label, key: Key) {
    Reads(w, l, key) && Begin(View(w, l.view), key).Resolving? ==>
      Protected(w.store, key, Begin(View(w, l.view), key).base.uid)
  }

  lemma KeepsBase(parse: Parser, w: World, l: Label, key: Key)
    requires key in w.workers && PastFinalizer(w.workers[key])
    requires key in Next(parse, w, l).workers && PastFinalizer(Next(parse, w, l).workers[key])
    ensures Next(parse, w, l).workers[key].base == w.workers[key].base
  {
  }

  lemma BecomesProtected(parse: Parser, w: World, l: Label, key: Key)
    requires Inv(w) && ReadsProtected(w, l, key)
    requires !(key in w.workers && PastFinalizer(w.workers[key]))
    requires key in Next(parse, w, l).workers && PastFinalizer(Next(parse, w, l).workers[key])
    ensures Protected(Next(parse, w, l).store, key, Next(parse, w, l).workers[key].base.uid)
  {
    if l.Continue? {
      assert WorkerOk(w, key, w.workers[key]) && w.workers[key].AddingFinalizer?;
      AddedFinalizer(w, key, w.workers[key].base);
    } else {
      assert Reads(w, l, key) && Next(parse, w, l).store == w.store;
    }
  }

  lemma NextKeepsGuard(parse: Parser, w: World, l: Label, key: Key)
    requires Inv(w) && Guarded(w, key) && ReadsProtected(w, l, key)
    ensures Guarded(Next(parse, w, l), key)
  {
    var w' := Next(parse, w, l);
    if key in w'.workers && PastFinalizer(w'.workers[key]) {
      if key in w.workers && PastFinalizer(w.workers[key]) {
        ProtectionHolds(parse, w, l, key, w.workers[key].base.uid);
        KeepsBase(parse, w, l, key);
      } else {
        BecomesProtected(parse, w, l, key);
      }
    }
  }

  lemma GuardShowsRead(parse: Parser, w: World, l: Label, key: Key)
    requires Guarded(Next(parse, w, l), key)
    ensures ReadsProtected(w, l, key)
  {
    if Reads(w, l, key) {
      var w' := Next(parse, w, l);
      assert w'.store == w.store && w'.workers[key] == Begin(View(w, l.view), key);
    }
  }

  /** All first reads of this key in the run. */
  ghost predicate AllReadProtected(parse: Parser, w: World, ls: seq<Label>, key: Key) {
    forall n :: 0 <= n < |ls| ==> ReadsProtected(Exec(parse, w, ls[..n]), ls[n], key)
  }

  ghost predicate AlwaysGuarded(parse: Parser, w: World, ls: seq<Label>, key: Key) {
    forall n :: 0 <= n <= |ls| ==> Guarded(Exec(parse, w, ls[..n]), key)
  }

  lemma ExecStep(parse: Parser, w: World, ls: seq<Label>, n: nat)
    requires n < |ls|
    ensures Exec(parse, w, ls[..n + 1]) == Next(parse, Exec(parse, w, ls[..n]), ls[n])
  {
    assert ls[..n + 1][..n] == ls[..n];
  }

  lemma {:induction false} PrefixGuarded(
    parse: Parser, profiles: map<Key, ProfileSpec>, clock: int, ls: seq<Label>, key: Key, n: nat)
    requires AllReadProtected(parse, Initial(profiles, clock), ls, key) && n <= |ls|
    ensures Guarded(Reached(parse, profiles, clock, ls[..n]), key)
  {
    if n > 0 {
      PrefixGuarded(parse, profiles, clock, ls, key, n - 1);
      ReachedInv(parse, profiles, clock, ls[..n - 1]);
      NextKeepsGuard(parse, Reached(parse, profiles, clock, ls[..n - 1]), ls[n - 1], key);
      ExecStep(parse, Initial(profiles, clock), ls, n - 1);
    }
  }

  /** In any run, the guard holds throughout if and only if no first read mistakes an
      unprotected service for a live one. */
  lemma GuardedIff(parse: Parser, profiles: map<Key, ProfileSpec>, clock: int, ls: seq<Label>, key: Key)
    ensures AlwaysGuarded(parse, Initial(profiles, clock), ls, key) <==>
            AllReadProtected(parse, Initial(profiles, clock), ls, key)
  {
    var start := Initial(profiles, clock);
    if AllReadProtected(parse, start, ls, key) {
      forall n | 0 <= n <= |ls| ensures Guarded(Exec(parse, start, ls[..n]), key) {
        PrefixGuarded(parse, profiles, clock, ls, key, n);
      }
    }
    if AlwaysGuarded(parse, start, ls, key) {
      forall n | 0 <= n < |ls| ensures ReadsProtected(Exec(parse, start, ls[..n]), ls[n], key) {
        ExecStep(parse, start, ls, n);
        assert Guarded(Exec(parse, start, ls[..n + 1]), key);
        GuardShowsRead(parse, Exec(parse, start, ls[..n]), ls[n], key);
      }
    }
  }

  // ----- The order of cached reads -----

  /** The store at a position of the run; the last one is the current store. */
  function StoreAt(w: World, i: nat): Store
    requires i <= |w.past|
  {
    if i < |w.past| then w.past[i] else w.store
  }

  /** The position that a read answers from. */
  function ReadAt(w: World, view: Option<nat>): (i: nat)
    ensures i <= |w.past| && StoreAt(w, i) == View(w, view)
  {
    if view.Some? && view.value < |w.past| then view.value else |w.past|
  }

  /** The newest position that a reconcile of this key has started from. With
      `restarts`, only reads since the last restart are remembered: the cache of a new
      process begins with a list of its own, which may be older. */
  function Newest(parse: Parser, w: World, ls: seq<Label>, key: Key, restarts: bool): nat {
    if ls == [] then 0
    else
      var init, last := ls[..|ls| - 1], ls[|ls| - 1];
      var before, newest := Exec(parse, w, init), Newest(parse, w, init, key, restarts);
      if Reads(before, last, key) && newest < ReadAt(before, last.view) then ReadAt(before, last.view)
      else if restarts && last.Restart? then 0
      else newest
  }

  /** No first read of this key goes back behind an earlier one; with `restarts`, it may
      across a restart of the process. */
  predicate Ordered(parse: Parser, w: World, ls: seq<Label>, key: Key, restarts: bool) {
    ls != [] ==>
      var init, last := ls[..|ls| - 1], ls[|ls| - 1];
      var before := Exec(parse, w, init);
      && Ordered(parse, w, init, key, restarts)
      && (Reads(before, last, key) ==> Newest(parse, w, init, key, restarts) <= ReadAt(before, last.view))
  }

  lemma {:induction false} NewestIsPast(
    parse: Parser, profiles: map<Key, ProfileSpec>, clock: int, ls: seq<Label>, key: Key, restarts: bool)
    ensures |Reached(parse, profiles, clock, ls).past| == |ls|
    ensures Newest(parse, Initial(profiles, clock), ls, key, restarts) <= |ls|
  {
    if ls != [] {
      NewestIsPast(parse, profiles, clock, ls[..|ls| - 1], key, restarts);
    }
  }

  lemma {:induction false} OrderedAppend(parse: Parser, w: World, ls: seq<Label>, l: Label, key: Key, restarts: bool)
    ensures
      var before, newest := Exec(parse, w, ls), Newest(parse, w, ls, key, restarts);
      && (Ordered(parse, w, ls + [l], key, restarts) <==>
          Ordered(parse, w, ls, key, restarts) && (Reads(before, l, key) ==> newest <= ReadAt(before, l.view)))
      && Newest(parse, w, ls + [l], key, restarts) ==
         (if Reads(before, l, key) && newest < ReadAt(before, l.view) then ReadAt(before, l.view)
          else if restarts && l.Restart? then 0
          else newest)
  {
    assert (ls + [l])[..|ls|] == ls;
  }

  lemma {:induction false} NewestGrows(parse: Parser, w: World, a: seq<Label>, b: seq<Label>, key: Key)
    ensures Newest(parse, w, a, key, false) <= Newest(parse, w, a + b, key, false)
  {
    if b == [] {
      assert a + b == a;
    } else {
      var init, last := b[..|b| - 1], b[|b| - 1];
      NewestGrows(parse, w, a, init, key);
      assert (a + b)[..|a + b| - 1] == a + init;
    }
  }

  /** Reads that are all current are in order. */
  lemma {:induction false} CurrentReadsAreOrdered(
    parse: Parser, profiles: map<Key, ProfileSpec>, clock: int, ls: seq<Label>, key: Key, restarts: bool)
    requires forall l :: l in ls && l.Start? && l.key == key ==> l.view.None?
    ensures Ordered(parse, Initial(profiles, clock), ls, key, restarts)
  {
    if ls != [] {
      CurrentReadsAreOrdered(parse, profiles, clock, ls[..|ls| - 1], key, restarts);
      NewestIsPast(parse, profiles, clock, ls[..|ls| - 1], key, restarts);
      assert ls[|ls| - 1] in ls;
    }
  }

  /** Without a restart, a cache that never goes back is in order for good. */
  lemma {:induction false} OrderedWithoutRestart(parse: Parser, w: World, ls: seq<Label>, key: Key)
    requires Restart !in ls && Ordered(parse, w, ls, key, true)
    ensures Ordered(parse, w, ls, key, false)
    ensures Newest(parse, w, ls, key, false) == Newest(parse, w, ls, key, true)
  {
    if ls != [] {
      assert ls[|ls| - 1] in ls;
      OrderedWithoutRestart(parse, w, ls[..|ls| - 1], key);
    }
  }

  // ----- Reads in order keep the guard -----

  predicate AliveWithFinalizer(st: Store, key: Key) {
    key in st.services && !st.services[key].deleting && FINALIZER in st.services[key].finalizers
  }

  /** A deletion mark stays on for the life of a uid. */
  ghost predicate MarksLast(w: World, key: Key) {
    forall i, j ::
      && 0 <= i <= j <= |w.past|
      && key in StoreAt(w, i).services && key in StoreAt(w, j).services
      && StoreAt(w, i).services[key].uid == StoreAt(w, j).services[key].uid
      && StoreAt(w, i).services[key].deleting
      ==> StoreAt(w, j).services[key].deleting
  }

  /** Whatever a read from position n on finds alive and with our finalizer is
      protected now. */
  ghost predicate AliveIsProtected(w: World, key: Key, n: nat) {
    forall i :: n <= i <= |w.past| && AliveWithFinalizer(StoreAt(w, i), key) ==>
      Protected(w.store, key, StoreAt(w, i).services[key].uid)
  }

  /** A reconcile about to remove the finalizer does so for a service that no read from
      position n on finds alive. */
  ghost predicate ReleasesDead(w: World, key: Key, n: nat) {
    key in w.workers && w.workers[key].RemovingFinalizer? ==>
      forall i :: n <= i <= |w.past| && key in StoreAt(w, i).services && !StoreAt(w, i).services[key].deleting ==>
        StoreAt(w, i).services[key].uid != w.workers[key].base.uid
  }

  ghost predicate OrderInv(w: World, key: Key, n: nat) {
    MarksLast(w, key) && AliveIsProtected(w, key, n) && ReleasesDead(w, key, n)
  }

  /** A service that is still there with the same uid keeps its mark. */
  predicate MarkKept(st: Store, st': Store, key: Key) {
    && key in st.services && key in st'.services && st.services[key].uid == st'.services[key].uid
    && st.services[key].deleting
    ==> st'.services[key].deleting
  }

  lemma UpdateKeepsMark(st: Store, k: Key, obj: Service, key: Key)
    ensures MarkKept(st, UpdateService(st, k, obj).0, key)
  {
    UpdateFacts(st, k, obj);
    assert k != key ==> SameAt(st, UpdateService(st, k, obj).0, key);
  }

  lemma StatusKeepsMark(st: Store, k: Key, obj: Service, key: Key)
    ensures MarkKept(st, UpdateServiceStatus(st, k, obj).0, key)
  {
    StatusFacts(st, k, obj);
    assert k != key ==> SameAt(st, UpdateServiceStatus(st, k, obj).0, key);
  }

  lemma WriteKeepsMark(w: World, l: Label, key: Key)
    requires !Quiet(w, l)
    ensures MarkKept(w.store, Written(w, l), key)
  {
    match l {
      case Continue(k, _, _) =>
        if w.workers[k].WritingStatus? {
          StatusKeepsMark(w.store, k, WrittenBase(w.workers[k]), key);
        } else {
          UpdateKeepsMark(w.store, k, WrittenBase(w.workers[k]), key);
        }
      case PutWrite(id) =>
        if id in w.puts {
          var p := w.puts[id];
          UpdateKeepsMark(w.store, p.key, p.base.(spec := Scaled(p.base.spec, p.req)), key);
        }
      case EditSvc(k, spec, finalizers) =>
        if k in w.store.services {
          UpdateKeepsMark(w.store, k, w.store.services[k].(spec := spec, finalizers := finalizers), key);
        }
      case DeleteSvc(_) =>
      case CreateSvc(_, _, _, _) =>
    }
  }

  lemma StepKeepsMark(parse: Parser, w: World, l: Label, key: Key)
    ensures MarkKept(w.store, Next(parse, w, l).store, key)
  {
    if Quiet(w, l) {
      QuietStep(parse, w, l);
    } else {
      WriteStep(parse, w, l);
      WriteKeepsMark(w, l, key);
    }
  }

  lemma PastUidsAreOld(w: World, key: Key, i: nat)
    requires Inv(w) && i <= |w.past| && key in StoreAt(w, i).services
    ensures StoreAt(w, i).services[key].uid < w.store.nextUid
  {
    assert SeenStore(w, StoreAt(w, i));
    assert Seen(w, key, StoreAt(w, i).services[key]);
  }

  lemma MarksStillLast(parse: Parser, w: World, l: Label, key: Key)
    requires Inv(w) && MarksLast(w, key)
    ensures MarksLast(Next(parse, w, l), key)
  {
    var w' := Next(parse, w, l);
    forall i, j |
      && 0 <= i <= j <= |w'.past|
      && key in StoreAt(w', i).services && key in StoreAt(w', j).services
      && StoreAt(w', i).services[key].uid == StoreAt(w', j).services[key].uid
      && StoreAt(w', i).services[key].deleting
      ensures StoreAt(w', j).services[key].deleting
    {
      if j < |w'.past| {
        assert StoreAt(w', i) == StoreAt(w, i) && StoreAt(w', j) == StoreAt(w, j);
      } else if i < j {
        assert StoreAt(w', i) == StoreAt(w, i) && StoreAt(w, |w.past|) == w.store;
        PastUidsAreOld(w, key, i);
        StepKeepsUid(parse, w, l, key);
        assert SameService(w.store, w'.store, key);
        StepKeepsMark(parse, w, l, key);
      }
    }
  }

  /** The removal of the finalizer of one uid does not reach another. */
  lemma RemovalMissesOthers(parse: Parser, w: World, l: Label, key: Key)
    requires RemovesFinalizer(w, l, key)
    requires key in w.store.services && w.store.services[key].uid != w.workers[key].base.uid
    ensures Next(parse, w, l).store == w.store
  {
    assert !Current(w.store, key, WrittenBase(w.workers[key]));
  }

  lemma AliveStaysProtected(parse: Parser, w: World, l: Label, key: Key, n: nat)
    requires Inv(w) && OrderInv(w, key, n)
    ensures AliveIsProtected(Next(parse, w, l), key, n)
  {
    var w' := Next(parse, w, l);
    forall i | n <= i <= |w'.past| && AliveWithFinalizer(StoreAt(w', i), key)
      ensures Protected(w'.store, key, StoreAt(w', i).services[key].uid)
    {
      if i < |w'.past| {
        assert StoreAt(w', i) == StoreAt(w, i);
        var uid := StoreAt(w, i).services[key].uid;
        assert Protected(w.store, key, uid);
        if RemovesFinalizer(w, l, key) {
          RemovalMissesOthers(parse, w, l, key);
        } else {
          ProtectionHolds(parse, w, l, key, uid);
        }
      }
    }
  }

  /** Only a first read makes a reconcile remove the finalizer. */
  lemma RemovalBeginsWithRead(parse: Parser, w: World, l: Label, key: Key)
    requires key in Next(parse, w, l).workers && Next(parse, w, l).workers[key].RemovingFinalizer?
    ensures
      if Reads(w, l, key) then Next(parse, w, l).workers[key] == Begin(View(w, l.view), key)
      else key in w.workers && w.workers[key] == Next(parse, w, l).workers[key]
  {
  }

  lemma ReadReleasesDead(w: World, key: Key, n: nat)
    requires n <= |w.past| && MarksLast(w, key)
    requires key in w.workers && w.workers[key] == Begin(StoreAt(w, n), key)
    ensures ReleasesDead(w, key, n)
  {
    assert w.workers[key].RemovingFinalizer? ==> w.workers[key].base == StoreAt(w, n).services[key];
  }

  /** A step that leaves a reconcile about to remove the finalizer does not bring its
      service back to life. */
  lemma DeadStaysDead(parse: Parser, w: World, l: Label, key: Key, uid: nat)
    requires uid < w.store.nextUid
    requires key in w.store.services && w.store.services[key].uid == uid ==> w.store.services[key].deleting
    ensures
      var st := Next(parse, w, l).store;
      key in st.services && st.services[key].uid == uid ==> st.services[key].deleting
  {
    StepKeepsUid(parse, w, l, key);
    StepKeepsMark(parse, w, l, key);
  }

  lemma StillReleasesDead(parse: Parser, w: World, l: Label, key: Key, n: nat)
    requires Inv(w) && OrderInv(w, key, n) && n <= |w.past| && !Reads(w, l, key)
    ensures ReleasesDead(Next(parse, w, l), key, n)
  {
    var w' := Next(parse, w, l);
    if key in w'.workers && w'.workers[key].RemovingFinalizer? {
      RemovalBeginsWithRead(parse, w, l, key);
      var uid := w.workers[key].base.uid;
      assert WorkerOk(w, key, w.workers[key]);
      assert StoreAt(w, |w.past|) == w.store;
      DeadStaysDead(parse, w, l, key, uid);
      forall i | n <= i <= |w'.past| && key in StoreAt(w', i).services && !StoreAt(w', i).services[key].deleting
        ensures StoreAt(w', i).services[key].uid != uid
      {
        if i < |w'.past| {
          assert StoreAt(w', i) == StoreAt(w, i);
        }
      }
    }
  }

  lemma NextKeepsOrder(parse: Parser, w: World, l: Label, key: Key, n: nat, n': nat)
    requires Inv(w) && OrderInv(w, key, n) && n <= n' && n <= |w.past|
    requires Reads(w, l, key) ==> n' == ReadAt(w, l.view)
    ensures OrderInv(Next(parse, w, l), key, n')
  {
    MarksStillLast(parse, w, l, key);
    AliveStaysProtected(parse, w, l, key, n);
    if Reads(w, l, key) {
      assert StoreAt(Next(parse, w, l), n') == StoreAt(w, n') == View(w, l.view);
      ReadReleasesDead(Next(parse, w, l), key, n');
    } else {
      StillReleasesDead(parse, w, l, key, n);
    }
  }

  lemma {:induction false} OrderedRunsKeepOrder(
    parse: Parser, profiles: map<Key, ProfileSpec>, clock: int, ls: seq<Label>, key: Key)
    requires Ordered(parse, Initial(profiles, clock), ls, key, false)
    ensures OrderInv(Reached(parse, profiles, clock, ls), key, Newest(parse, Initial(profiles, clock), ls, key, false))
  {
    if ls != [] {
      var init, last := ls[..|ls| - 1], ls[|ls| - 1];
      OrderedRunsKeepOrder(parse, profiles, clock, init, key);
      ReachedInv(parse, profiles, clock, init);
      NewestIsPast(parse, profiles, clock, init, key, false);
      NextKeepsOrder(parse, Reached(parse, profiles, clock, init), last, key,
                     Newest(parse, Initial(profiles, clock), init, key, false),
                     Newest(parse, Initial(profiles, clock), ls, key, false));
    }
  }

  lemma {:induction false} OrderedPrefix(parse: Parser, w: World, ls: seq<Label>, key: Key, restarts: bool, n: nat)
    requires Ordered(parse, w, ls, key, restarts) && n <= |ls|
    ensures Ordered(parse, w, ls[..n], key, restarts)
    decreases |ls|
  {
    if n < |ls| {
      OrderedPrefix(parse, w, ls[..|ls| - 1], key, restarts, n);
      assert ls[..|ls| - 1][..n] == ls[..n];
    } else {
      assert ls[..n] == ls;
    }
  }

  /** However stale, first reads that never go back take no dead service for a live one. */
  lemma OrderedReadsAreProtected(parse: Parser, profiles: map<Key, ProfileSpec>, clock: int, ls: seq<Label>, key: Key)
    requires Ordered(parse, Initial(profiles, clock), ls, key, false)
    ensures AllReadProtected(parse, Initial(profiles, clock), ls, key)
  {
    var start := Initial(profiles, clock);
    forall n | 0 <= n < |ls| ensures ReadsProtected(Exec(parse, start, ls[..n]), ls[n], key) {
      OrderedPrefix(parse, start, ls, key, false, n + 1);
      assert ls[..n + 1][..n] == ls[..n];
      OrderedPrefix(parse, start, ls, key, false, n);
      OrderedRunsKeepOrder(parse, profiles, clock, ls[..n], key);
      var w := Exec(parse, start, ls[..n]);
      if Reads(w, ls[n], key) {
        assert StoreAt(w, ReadAt(w, ls[n].view)) == View(w, ls[n].view);
      }
    }
  }

  /** However stale the cache is, as long as no first read of this key goes back behind
      an earlier one: a group is only ever created while its owner, with exactly that
      uid, is stored and held by the finalizer. */
  lemma FinalizerGuard(parse: Parser, profiles: map<Key, ProfileSpec>, clock: int, ls: seq<Label>, key: Key)
    requires Ordered(parse, Initial(profiles, clock), ls, key, false)
    ensures
      var w := Reached(parse, profiles, clock, ls);
      key in w.workers && w.workers[key].CreatingGroup? ==>
        var owners := w.workers[key].desired.owners;
        && |owners| == 1
        && Protected(w.store, Key(key.ns, owners[0].name), owners[0].uid)
        && OwnerAlive(w.store, key.ns, owners[0])
  {
    var w := Reached(parse, profiles, clock, ls);
    OrderedReadsAreProtected(parse, profiles, clock, ls, key);
    GuardedIff(parse, profiles, clock, ls, key);
    assert ls[..|ls|] == ls;
    ReachedInv(parse, profiles, clock, ls);
    if key in w.workers && w.workers[key].CreatingGroup? {
      assert WorkerOk(w, key, w.workers[key]);
      assert Guarded(Exec(parse, Initial(profiles, clock), ls[..|ls|]), key);
      assert Key(key.ns, key.name) == key;
    }
  }
}
