/** The protocol's promises to users and operators, for every run from an empty
    cluster.
 */
module Guarantees {
  import opened Types
  import opened Config
  import opened Translator
  import opened Status
  import opened History
  import opened ApiServer
  import opened Reconcile
  import opened Scaling
  import opened Protocol
  import opened Invariant
  import opened Runs
  import Webhook

  function Reached(parse: Parser, profiles: map<Key, ProfileSpec>, clock: int, ls: seq<Label>): World {
    Exec(parse, Initial(profiles, clock), ls)
  }

  lemma ReachedInv(parse: Parser, profiles: map<Key, ProfileSpec>, clock: int, ls: seq<Label>)
    ensures Inv(Reached(parse, profiles, clock, ls))
  {
    InitialInv(profiles, clock);
    RunsKeepInv(parse, Initial(profiles, clock), ls);
  }

  // ----- Status -----

  /** The accepted status writes since the service under this key was created. */
  function StatusLog(parse: Parser, w: World, ls: seq<Label>, key: Key): seq<StatusEvent> {
    if ls == [] then []
    else
      var init, last := ls[..|ls| - 1], ls[|ls| - 1];
      var before := Exec(parse, w, init);
      if Creates(before, last, key) then [] else StatusLog(parse, w, init, key) + StatusWriteOf(before, last, key)
  }

  lemma {:induction false} StatusIsItsLog(
    parse: Parser, profiles: map<Key, ProfileSpec>, clock: int, ls: seq<Label>, key: Key)
    ensures
      var w := Reached(parse, profiles, clock, ls);
      key in w.store.services ==>
        w.store.services[key].status == ApplyAll(EMPTY_STATUS, StatusLog(parse, Initial(profiles, clock), ls, key))
  {
    var start := Initial(profiles, clock);
    if ls != [] && key in Exec(parse, start, ls).store.services {
      var init, last := ls[..|ls| - 1], ls[|ls| - 1];
      var mid := Exec(parse, start, init);
      StepKeepsUid(parse, mid, last, key);
      if !Creates(mid, last, key) {
        StatusIsItsLog(parse, profiles, clock, init, key);
        ReachedInv(parse, profiles, clock, init);
        StepHistory(parse, mid, last, key);
        AppendStatus(EMPTY_STATUS, StatusLog(parse, start, init, key), StatusWriteOf(mid, last, key));
      }
    }
  }

  /** In every reachable world the stored status is well formed, Terminating is never
      stored, the Ready condition dates from the first sync of its current block, and
      the last event is the most recent failure mark of this service's life. */
  lemma ReadyTellsHistory(parse: Parser, profiles: map<Key, ProfileSpec>, clock: int, ls: seq<Label>, key: Key)
    ensures
      var w := Reached(parse, profiles, clock, ls);
      var log := StatusLog(parse, Initial(profiles, clock), ls, key);
      key in w.store.services ==>
        var s := w.store.services[key].status;
        && StatusOk(s)
        && s.phase != Terminating
        && DatedFromBlock(ReadyCondition(s.conditions), Syncs(log))
        && Others(s.conditions) == []
        && s.lastEvent == LastFailure(None, log)
  {
    var w := Reached(parse, profiles, clock, ls);
    var log := StatusLog(parse, Initial(profiles, clock), ls, key);
    if key in w.store.services {
      ReachedInv(parse, profiles, clock, ls);
      assert ServiceOk(w.store.services[key]);
      StatusIsItsLog(parse, profiles, clock, ls, key);
      TransitionTime(EMPTY_STATUS, log);
      OthersSurvive(EMPTY_STATUS, log);
      LastEventIsLastFailure(EMPTY_STATUS, log);
    }
  }

  lemma ProfileFailureFits(spec: ServiceSpec)
    ensures ReasonFits(ProfileFailure(spec).reason)
  {
  }

  predicate ReasonsFit(evs: seq<StatusEvent>) {
    forall ev :: ev in evs && ev.Fail? ==> ReasonFits(ev.why.reason)
  }

  lemma WorkerReasonFits(w: World, key: Key)
    requires Inv(w) && key in w.workers && w.workers[key].WritingStatus?
    ensures ReasonsFit([w.workers[key].ev])
  {
    assert WorkerOk(w, key, w.workers[key]);
    ProfileFailureFits(w.workers[key].base.spec);
  }

  lemma {:induction false} LoggedReasonsFit(
    parse: Parser, profiles: map<Key, ProfileSpec>, clock: int, ls: seq<Label>, key: Key)
    ensures ReasonsFit(StatusLog(parse, Initial(profiles, clock), ls, key))
  {
    if ls != [] {
      var init, last := ls[..|ls| - 1], ls[|ls| - 1];
      LoggedReasonsFit(parse, profiles, clock, init, key);
      var before := Reached(parse, profiles, clock, init);
      var more := StatusWriteOf(before, last, key);
      if more != [] {
        ReachedInv(parse, profiles, clock, init);
        WorkerReasonFits(before, key);
      }
      assert ReasonsFit(StatusLog(parse, Initial(profiles, clock), init, key) + more);
    }
  }

  lemma NextWriteFits(log: seq<StatusEvent>, ev: StatusEvent)
    requires ReasonsFit(log) && ReasonsFit([ev])
    ensures StatusFits(ApplyStatus(ApplyAll(EMPTY_STATUS, log), ev))
  {
    assert (log + [ev])[..|log|] == log;
    assert ev in [ev];
    WritesFitSchema(log + [ev]);
  }

  /** No status that a reconcile writes is one that the schema would refuse. */
  lemma StatusWritesFitSchema(parse: Parser, profiles: map<Key, ProfileSpec>, clock: int, ls: seq<Label>, key: Key)
    ensures
      var w := Reached(parse, profiles, clock, ls);
      key in w.workers && w.workers[key].WritingStatus? && Current(w.store, key, w.workers[key].base) ==>
        StatusFits(WrittenBase(w.workers[key]).status)
  {
    var w := Reached(parse, profiles, clock, ls);
    if key in w.workers && w.workers[key].WritingStatus? && Current(w.store, key, w.workers[key].base) {
      var worker := w.workers[key];
      ReachedInv(parse, profiles, clock, ls);
      WorkerReasonFits(w, key);
      StatusIsItsLog(parse, profiles, clock, ls, key);
      LoggedReasonsFit(parse, profiles, clock, ls, key);
      NextWriteFits(StatusLog(parse, Initial(profiles, clock), ls, key), worker.ev);
      assert WorkerOk(w, key, worker);
    }
  }

  /** In every interleaving, the write of a reconcile whose profile lookup failed touches
      no group and no other service, and of its own service only phase and last event. */
  lemma FailureWriteIsIsolated(
    parse: Parser, profiles: map<Key, ProfileSpec>, clock: int, ls: seq<Label>, key: Key, l: Label)
    requires
      var w := Reached(parse, profiles, clock, ls);
      && key in w.workers && w.workers[key].WritingStatus? && w.workers[key].ev.Fail?
      && l.Continue? && l.key == key
    ensures
      var w := Reached(parse, profiles, clock, ls);
      var st := Next(parse, w, l).store;
      && OnlyService(w.store, st, key)
      && (key in st.services <==> key in w.store.services)
      && (key in st.services ==>
            var s := w.store.services[key];
            || st.services[key] == s
            || st.services[key] ==
               s.(rv := st.services[key].rv,
                  status := s.status.(
                    phase := Failed,
                    lastEvent := Some(EventRecord("ProfileResolveFailed", s.spec.engineProfileRef)))))
  {
    var w := Reached(parse, profiles, clock, ls);
    ReachedInv(parse, profiles, clock, ls);
    var worker := w.workers[key];
    assert WorkerOk(w, key, worker);
    StatusFacts(w.store, key, WrittenBase(worker));
    if Current(w.store, key, worker.base) {
      assert ServiceOk(w.store.services[key]) && w.store.services[key] == worker.base;
      CommitFacts(w.store, key, WrittenBase(worker));
    }
  }

  // ----- Owners -----

  lemma OwnersLived(w: World, key: Key)
    requires Inv(w) && key in w.store.groups
    ensures OwnedAtBirth(w, key, w.store.groups[key].owners)
    ensures key in CollectAll(w.store).groups ==>
              && key in w.store.services
              && w.store.groups[key].owners == [OwnerRef(key.name, w.store.services[key].uid)]
  {
    assert SeenGroup(w, key, w.store.groups[key]);
    assert Key(key.ns, key.name) == key;
  }

  /** Stale reads included: every group names one owner, a service that did live under
      its name, and once the collector has caught up that service is still there. */
  lemma NoGroupOutlivesItsOwner(parse: Parser, profiles: map<Key, ProfileSpec>, clock: int, ls: seq<Label>, key: Key)
    ensures
      var w := Reached(parse, profiles, clock, ls);
      && (key in w.store.groups ==> OwnedAtBirth(w, key, w.store.groups[key].owners))
      && (key in CollectAll(w.store).groups ==>
            && key in w.store.services
            && w.store.groups[key].owners == [OwnerRef(key.name, w.store.services[key].uid)])
  {
    var w := Reached(parse, profiles, clock, ls);
    ReachedInv(parse, profiles, clock, ls);
    if key in w.store.groups {
      OwnersLived(w, key);
    }
  }

  // ----- Admission over runs -----

  lemma PutKeepsCreationRules(spec: ServiceSpec, req: PutRequest)
    requires Webhook.CreateAllowed(spec, true) && SchemaValid(Scaled(spec, req))
    ensures Webhook.CreateAllowed(Scaled(spec, req), true)
  {
  }

  lemma StepStaysAdmitted(parse: Parser, w: World, l: Label, key: Key)
    requires Inv(w) && SameService(w.store, Next(parse, w, l).store, key) && !(l.EditSvc? && l.key == key)
    requires Webhook.CreateAllowed(w.store.services[key].spec, true)
    requires SchemaValid(Next(parse, w, l).store.services[key].spec)
    ensures Webhook.CreateAllowed(Next(parse, w, l).store.services[key].spec, true)
  {
    StepHistory(parse, w, l, key);
    var was := w.store.services[key].spec;
    var writes := SpecWriteOf(w, l, key);
    if writes != [] {
      FoldOne(was, writes[0]);
      assert writes == [writes[0]];
      PutKeepsCreationRules(was, writes[0].req);
    }
  }

  /** A service that nobody edits except through PUT keeps the creation rules. */
  lemma {:induction false} PutOnlyServicesStayAdmitted(
    parse: Parser, profiles: map<Key, ProfileSpec>, clock: int, ls: seq<Label>, key: Key)
    requires forall l :: l in ls ==> !(l.EditSvc? && l.key == key)
    ensures
      var w := Reached(parse, profiles, clock, ls);
      key in w.store.services ==>
        Webhook.CreateAllowed(w.store.services[key].spec, true) && SpecOk(w.store.services[key].spec)
  {
    var start := Initial(profiles, clock);
    var w := Reached(parse, profiles, clock, ls);
    ReachedInv(parse, profiles, clock, ls);
    if key in w.store.services {
      assert ServiceOk(w.store.services[key]);
      if ls != [] {
        var init, last := ls[..|ls| - 1], ls[|ls| - 1];
        assert last in ls;
        var mid := Exec(parse, start, init);
        StepKeepsUid(parse, mid, last, key);
        if !Creates(mid, last, key) {
          PutOnlyServicesStayAdmitted(parse, profiles, clock, init, key);
          ReachedInv(parse, profiles, clock, init);
          StepStaysAdmitted(parse, mid, last, key);
        }
      }
    }
  }

  /** What an edit did not check: the creation rules survive an accepted edit if and
      only if the new spec has the images and args that a service without a profile
      needs, no dangling mount and no clash of ratio and autoscaling. */
  lemma EditKeepsCreationRulesIff(
    parse: Parser, profiles: map<Key, ProfileSpec>, clock: int, ls: seq<Label>, key: Key, spec: ServiceSpec,
    finalizers: seq<string>)
    requires
      var w := Reached(parse, profiles, clock, ls);
      && key in w.store.services && Webhook.CreateAllowed(w.store.services[key].spec, true)
      && ServiceReply(w, EditSvc(key, spec, finalizers)).1.Ok?
    ensures
      var st := Next(parse, Reached(parse, profiles, clock, ls), EditSvc(key, spec, finalizers)).store;
      key in st.services ==>
        && st.services[key].spec == Webhook.Defaulted(spec)
        && (Webhook.CreateAllowed(st.services[key].spec, true) <==>
              && (spec.engineProfileRef == "" ==> Webhook.InlineComplete(spec))
              && Webhook.DanglingMounts(spec) == []
              && !Webhook.RatioClashes(spec))
  {
    var w := Reached(parse, profiles, clock, ls);
    UpdateFacts(w.store, key, w.store.services[key].(spec := spec, finalizers := finalizers));
  }

  /** In every reachable world the server accepts an edit of a service without a profile
      that leaves a mount without its volume and a role without image and args. */
  lemma EditCanBreakCreationRules(parse: Parser, profiles: map<Key, ProfileSpec>, clock: int, ls: seq<Label>, key: Key)
    requires
      var st := Reached(parse, profiles, clock, ls).store;
      key in st.services && st.services[key].spec.engineProfileRef == ""
    ensures
      var w := Reached(parse, profiles, clock, ls);
      var s := w.store.services[key];
      var now := Webhook.Broken(s.spec);
      var edit := EditSvc(key, now, s.finalizers);
      && ServiceReply(w, edit).1.Ok?
      && key in Next(parse, w, edit).store.services && Next(parse, w, edit).store.services[key].spec == now
      && !Webhook.CreateAllowed(now, true)
      && !RoleIsComplete(Roles(parse, now, Merge(now, None))[0])
      && Webhook.DanglingMount("router", 0, "data") in Webhook.DanglingMounts(now)
  {
    var w := Reached(parse, profiles, clock, ls);
    ReachedInv(parse, profiles, clock, ls);
    var s := w.store.services[key];
    assert ServiceOk(s);
    Webhook.BrokenIsAdmitted(s.spec);
    var obj := s.(spec := Webhook.Broken(s.spec));
    UpdateFacts(w.store, key, obj);
    CommitFacts(w.store, key, obj);
  }

  predicate RoleIsComplete(r: RoleSpec) {
    && |r.pod.containers| == 1
    && r.pod.containers[0].image != "" && r.pod.containers[0].args != []
    && Webhook.MountsResolve(r.pod)
  }

  predicate RolesAreComplete(parse: Parser, spec: ServiceSpec, cfg: Merged) {
    forall i :: 0 <= i < 3 ==> RoleIsComplete(Roles(parse, spec, cfg)[i])
  }

  /** What a configuration has to supply. */
  predicate ConfigIsComplete(cfg: Merged) {
    && cfg.images.router != "" && cfg.images.prefill != "" && cfg.images.decode != ""
    && cfg.args.router != [] && cfg.args.prefill != [] && cfg.args.decode != []
  }

  /** With any profile: every built container has an image, args and resolved mounts if
      and only if the merged configuration has them all and no mount is reported. */
  lemma RolesCompleteIff(parse: Parser, spec: ServiceSpec, cfg: Merged)
    ensures RolesAreComplete(parse, spec, cfg) <==> ConfigIsComplete(cfg) && Webhook.DanglingMounts(spec) == []
  {
    Webhook.MountIntegrity(parse, spec, cfg);
    var roles := Roles(parse, spec, cfg);
    assert RolesAreComplete(parse, spec, cfg) <==>
        RoleIsComplete(roles[0]) && RoleIsComplete(roles[1]) && RoleIsComplete(roles[2]);
  }

  /** For a stored service without a profile, the creation rules hold if and only if it
      has a model, no clash of ratio and autoscaling, and builds three complete
      roles. The replica counts are in bounds either way. */
  lemma AdmittedServicesBuild(parse: Parser, spec: ServiceSpec)
    requires SpecOk(spec) && spec.engineProfileRef == ""
    ensures Webhook.CreateAllowed(spec, true) <==>
              && spec.model != "" && !Webhook.RatioClashes(spec)
              && RolesAreComplete(parse, spec, Merge(spec, None))
    ensures
      var roles := Roles(parse, spec, Merge(spec, None));
      roles[0].replicas >= 1 && 1 <= roles[1].replicas <= 100 && 1 <= roles[2].replicas <= 100
  {
    RolesCompleteIff(parse, spec, Merge(spec, None));
  }
}
