/** What a status says about the whole sequence of status writes behind it: since
    when the Ready condition has its status, which failure it reports, and that
    other writers' conditions survive.
 */
module History {
  import opened Types
  import opened Status

  /** The status after a sequence of writes, oldest first. */
  function ApplyAll(s: ServiceStatus, evs: seq<StatusEvent>): ServiceStatus {
    if evs == [] then s else ApplyStatus(ApplyAll(s, evs[..|evs| - 1]), evs[|evs| - 1])
  }

  datatype SyncPoint = SyncPoint(now: int, ready: ConditionStatus)

  /** The syncs among the writes. */
  function Syncs(evs: seq<StatusEvent>): seq<SyncPoint> {
    if evs == [] then []
    else
      var last := evs[|evs| - 1];
      Syncs(evs[..|evs| - 1]) + (if last.Sync? then [SyncPoint(last.now, ReadyOf(SyncPhase(last)))] else [])
  }

  /** The most recent failure mark. */
  function LastFailure(before: Option<EventRecord>, evs: seq<StatusEvent>): Option<EventRecord> {
    if evs == [] then before
    else if evs[|evs| - 1].Fail? then Some(evs[|evs| - 1].why)
    else LastFailure(before, evs[..|evs| - 1])
  }

  /** Position i starts the unbroken block of equal Ready status that ends the list. */
  predicate StartsLastBlock(syncs: seq<SyncPoint>, i: nat) {
    && i < |syncs|
    && (forall j :: i <= j < |syncs| ==> syncs[j].ready == syncs[|syncs| - 1].ready)
    && (i > 0 ==> syncs[i - 1].ready != syncs[|syncs| - 1].ready)
  }

  ghost predicate DatedFromBlock(c: Option<Condition>, syncs: seq<SyncPoint>) {
    if syncs == [] then c.None?
    else
      && c.Some?
      && c.value.status == syncs[|syncs| - 1].ready
      && exists i: nat :: StartsLastBlock(syncs, i) && c.value.lastTransitionTime == syncs[i].now
  }

  lemma BlockGrows(c: Option<Condition>, syncs: seq<SyncPoint>, p: SyncPoint, why: EventRecord)
    requires DatedFromBlock(c, syncs)
    ensures DatedFromBlock(Some(NextReady(c, p.ready, why, p.now)), syncs + [p])
  {
    var more := syncs + [p];
    if c.Some? && c.value.status == p.ready {
      var i: nat :| StartsLastBlock(syncs, i) && c.value.lastTransitionTime == syncs[i].now;
      assert StartsLastBlock(more, i) && more[i] == syncs[i];
    } else {
      assert StartsLastBlock(more, |syncs|);
    }
  }

  /** LastTransitionTime is the time of the first sync of the current block of equal
      Ready status, however many writes of either kind came before. */
  lemma {:induction false} TransitionTime(s: ServiceStatus, evs: seq<StatusEvent>)
    requires ReadyCondition(s.conditions).None?
    ensures DatedFromBlock(ReadyCondition(ApplyAll(s, evs).conditions), Syncs(evs))
  {
    if evs != [] {
      var init, last := evs[..|evs| - 1], evs[|evs| - 1];
      TransitionTime(s, init);
      var before := ApplyAll(s, init);
      if last.Sync? {
        var phase := SyncPhase(last);
        var why := ReadyReason(phase, before.lastEvent);
        ReadyAfterSync(before.conditions, ReadyOf(phase), why, last.now);
        BlockGrows(ReadyCondition(before.conditions), Syncs(init), SyncPoint(last.now, ReadyOf(phase)), why);
      } else {
        assert Syncs(evs) == Syncs(init);
      }
    }
  }

  // ----- Stored timestamps -----

  const SECOND := 1_000_000_000

  /** Timestamps are stored in whole seconds. */
  function ToSeconds(t: int): int {
    t - t % SECOND
  }

  function StoredCondition(c: Condition): Condition {
    c.(lastTransitionTime := ToSeconds(c.lastTransitionTime))
  }

  function StoredConditions(cs: seq<Condition>): (r: seq<Condition>)
    ensures |r| == |cs| && forall i :: 0 <= i < |cs| ==> r[i] == StoredCondition(cs[i])
  {
    seq(|cs|, i requires 0 <= i < |cs| => StoredCondition(cs[i]))
  }

  function Stored(s: ServiceStatus): ServiceStatus {
    s.(conditions := StoredConditions(s.conditions))
  }

  /** The status when every write goes through the store, which cuts its timestamps,
      and the next write starts from what the store gives back. */
  function StoreAll(s: ServiceStatus, evs: seq<StatusEvent>): ServiceStatus {
    if evs == [] then Stored(s) else Stored(ApplyStatus(StoreAll(s, evs[..|evs| - 1]), evs[|evs| - 1]))
  }

  lemma StoredReady(cs: seq<Condition>)
    ensures FirstReady(StoredConditions(cs)) == FirstReady(cs)
  {
    assert forall i :: 0 <= i < |cs| ==> (IsReady(StoredConditions(cs)[i]) <==> IsReady(cs[i]));
    if FirstReady(cs) < |cs| {
      FirstReadyIs(StoredConditions(cs), FirstReady(cs));
    }
  }

  lemma StoredWithReady(cs: seq<Condition>, status: ConditionStatus, why: EventRecord, now: int)
    ensures StoredConditions(WithReady(StoredConditions(cs), status, why, now)) ==
            StoredConditions(WithReady(cs, status, why, now))
  {
    StoredReady(cs);
  }

  lemma StoredApply(s: ServiceStatus, ev: StatusEvent)
    ensures Stored(ApplyStatus(Stored(s), ev)) == Stored(ApplyStatus(s, ev))
  {
    if ev.Sync? {
      var phase := SyncPhase(ev);
      StoredWithReady(s.conditions, ReadyOf(phase), ReadyReason(phase, s.lastEvent), ev.now);
    } else {
      assert StoredConditions(StoredConditions(s.conditions)) == StoredConditions(s.conditions);
    }
  }

  /** Cutting the timestamps at every write comes to the same as cutting them once at
      the end. */
  lemma {:induction false} StoringCommutes(s: ServiceStatus, evs: seq<StatusEvent>)
    ensures StoreAll(s, evs) == Stored(ApplyAll(s, evs))
  {
    if evs != [] {
      var init, last := evs[..|evs| - 1], evs[|evs| - 1];
      StoringCommutes(s, init);
      StoredApply(ApplyAll(s, init), last);
    }
  }

  /** What is stored dates from the first sync of the current block, in whole seconds. */
  lemma StoredTransitionTime(s: ServiceStatus, evs: seq<StatusEvent>)
    requires ReadyCondition(s.conditions).None? && Syncs(evs) != []
    ensures
      var c := ReadyCondition(StoreAll(s, evs).conditions);
      && c.Some? && c.value.status == Syncs(evs)[|Syncs(evs)| - 1].ready
      && exists i: nat :: StartsLastBlock(Syncs(evs), i) && c.value.lastTransitionTime == ToSeconds(Syncs(evs)[i].now)
  {
    TransitionTime(s, evs);
    StoringCommutes(s, evs);
    var cs := ApplyAll(s, evs).conditions;
    StoredReady(cs);
    var c := cs[FirstReady(cs)];
    var i: nat :| StartsLastBlock(Syncs(evs), i) && c.lastTransitionTime == Syncs(evs)[i].now;
    assert ReadyCondition(StoredConditions(cs)) == Some(StoredCondition(c));
    assert StartsLastBlock(Syncs(evs), i) && StoredCondition(c).lastTransitionTime == ToSeconds(Syncs(evs)[i].now);
  }

  // ----- What else the writes keep -----

  /** The conditions that are not pd-manager's, in order. */
  function Others(cs: seq<Condition>): seq<Condition> {
    if cs == [] then []
    else (if IsReady(cs[0]) then [] else [cs[0]]) + Others(cs[1..])
  }

  lemma {:induction false} OthersSurviveSync(cs: seq<Condition>, next: Condition)
    requires IsReady(next)
    ensures
      var n := FirstReady(cs);
      Others(if n < |cs| then cs[n := next] else cs + [next]) == Others(cs)
  {
    if cs == [] {
      assert Others([next]) == [];
    } else if IsReady(cs[0]) {
      assert cs[0 := next][1..] == cs[1..];
    } else {
      OthersSurviveSync(cs[1..], next);
      var n := FirstReady(cs);
      if n < |cs| {
        assert cs[n := next][1..] == cs[1..][n - 1 := next];
      } else {
        assert (cs + [next])[1..] == cs[1..] + [next];
      }
    }
  }

  lemma {:induction false} OthersSurvive(s: ServiceStatus, evs: seq<StatusEvent>)
    ensures Others(ApplyAll(s, evs).conditions) == Others(s.conditions)
  {
    if evs != [] {
      var init, last := evs[..|evs| - 1], evs[|evs| - 1];
      OthersSurvive(s, init);
      var before := ApplyAll(s, init);
      if last.Sync? {
        var phase := SyncPhase(last);
        OthersSurviveSync(before.conditions,
                          NextReady(ReadyCondition(before.conditions), ReadyOf(phase),
                                    ReadyReason(phase, before.lastEvent), last.now));
      }
    }
  }

  lemma {:induction false} LastEventIsLastFailure(s: ServiceStatus, evs: seq<StatusEvent>)
    ensures ApplyAll(s, evs).lastEvent == LastFailure(s.lastEvent, evs)
  {
    if evs != [] {
      LastEventIsLastFailure(s, evs[..|evs| - 1]);
    }
  }

  /** After any sync the Ready condition reports its phase and the most recent failure. */
  lemma SyncReports(s: ServiceStatus, evs: seq<StatusEvent>)
    requires evs != [] && evs[|evs| - 1].Sync?
    ensures
      var c := ReadyCondition(ApplyAll(s, evs).conditions);
      && c.Some? && ApplyAll(s, evs).phase == SyncPhase(evs[|evs| - 1])
      && Reports(SyncPhase(evs[|evs| - 1]), LastFailure(s.lastEvent, evs),
                 c.value.status, c.value.reason, c.value.message)
  {
    var init, last := evs[..|evs| - 1], evs[|evs| - 1];
    var before := ApplyAll(s, init);
    LastEventIsLastFailure(s, init);
    var phase := SyncPhase(last);
    ReadyAfterSync(before.conditions, ReadyOf(phase), ReadyReason(phase, before.lastEvent), last.now);
  }

  /** A sync that finds the service failed reports the most recent failure mark, even
      one from long before: nothing ever clears it. */
  lemma FailedSyncReportsLastFailure(s: ServiceStatus, evs: seq<StatusEvent>)
    requires evs != [] && evs[|evs| - 1].Sync? && SyncPhase(evs[|evs| - 1]) == Failed
    ensures
      var c := ReadyCondition(ApplyAll(s, evs).conditions);
      var f := LastFailure(s.lastEvent, evs);
      && c.Some? && c.value.status == False
      && (f.Some? && f.value.reason != "" ==> c.value.reason == f.value.reason && c.value.message == f.value.message)
      && (f.None? || f.value.reason == "" ==>
            c.value.reason == "ServiceFailed" && c.value.message == "Service has entered a failed state")
  {
    SyncReports(s, evs);
  }

  /** Every status that writes can produce from a fresh one is well formed. */
  lemma {:induction false} WritesKeepStatusOk(s: ServiceStatus, evs: seq<StatusEvent>)
    requires StatusOk(s)
    requires forall ev :: ev in evs && ev.Sync? ==> !ev.deleting
    ensures StatusOk(ApplyAll(s, evs))
  {
    if evs != [] {
      WritesKeepStatusOk(s, evs[..|evs| - 1]);
      ApplyKeepsStatusOk(ApplyAll(s, evs[..|evs| - 1]), evs[|evs| - 1]);
    }
  }

  /** The conditions and the last event fit the schema. */
  predicate EntriesFit(s: ServiceStatus) {
    && (forall c :: c in s.conditions ==> IsReady(c) && ReasonFits(c.reason))
    && (s.lastEvent.Some? ==> ReasonFits(s.lastEvent.value.reason))
  }

  lemma WithReadyFits(cs: seq<Condition>, status: ConditionStatus, why: EventRecord, now: int)
    requires ReasonFits(why.reason) && forall c :: c in cs ==> IsReady(c) && ReasonFits(c.reason)
    ensures forall c :: c in WithReady(cs, status, why, now) ==> IsReady(c) && ReasonFits(c.reason)
  {
  }

  lemma ApplyFits(s: ServiceStatus, ev: StatusEvent)
    requires EntriesFit(s) && (ev.Fail? ==> ReasonFits(ev.why.reason))
    ensures EntriesFit(ApplyStatus(s, ev)) && ApplyStatus(s, ev).phase != Unset
  {
    if ev.Sync? {
      var phase := SyncPhase(ev);
      ReadyReasonFits(phase, s.lastEvent);
      WithReadyFits(s.conditions, ReadyOf(phase), ReadyReason(phase, s.lastEvent), ev.now);
    }
  }

  /** Whatever is written to a fresh status fits the schema, as long as the failure marks
      carry reasons that do. */
  lemma {:induction false} WritesFitSchema(evs: seq<StatusEvent>)
    requires forall ev :: ev in evs && ev.Fail? ==> ReasonFits(ev.why.reason)
    ensures
      var s := ApplyAll(EMPTY_STATUS, evs);
      EntriesFit(s) && (evs == [] || s.phase != Unset)
  {
    if evs != [] {
      var init, last := evs[..|evs| - 1], evs[|evs| - 1];
      WritesFitSchema(init);
      assert last in evs;
      ApplyFits(ApplyAll(EMPTY_STATUS, init), last);
    }
  }
}
