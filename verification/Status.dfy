/** internal/controller/status.go: the lifecycle phase with its 30-minute clock and
    the in-place update of the Ready condition.

    A status write is one of two events: a sync with what was observed of the
    group, or a failure mark. `ApplyStatus` says what either does to a status.
 */
module Status {
  import opened Types
  import opened Objects

  const THIRTY_MINUTES := 30 * 60 * 1_000_000_000

  // ----- The phase -----

  predicate AllRolesReady(g: GroupStatus) {
    |g.roleStatuses| > 0 &&
    forall i :: 0 <= i < |g.roleStatuses| ==> g.roleStatuses[i].readyReplicas >= g.roleStatuses[i].replicas
  }

  predicate IsCrash(c: Condition) {
    c.reason == "CrashLoopBackOff" || c.reason == "OOMKilled"
  }

  predicate HasCrashLoop(g: GroupStatus) {
    exists i :: 0 <= i < |g.conditions| && IsCrash(g.conditions[i])
  }

  predicate InitializingTooLong(g: GroupStatus, now: int, created: int) {
    !AllRolesReady(g) && now - created > THIRTY_MINUTES
  }

  function ComputePhase(now: int, created: int, deleting: bool, group: Option<GroupStatus>): Phase {
    if deleting then Terminating
    else if group.None? then Pending
    else if HasCrashLoop(group.value) then Failed
    else if InitializingTooLong(group.value, now, created) then Failed
    else if AllRolesReady(group.value) then Running
    else Initializing
  }

  /** Each phase by its own condition: deletion first, then a missing group, a crash
      reason, the time since creation, readiness. */
  lemma PhaseIs(now: int, created: int, deleting: bool, group: Option<GroupStatus>)
    ensures
      var phase := ComputePhase(now, created, deleting, group);
      if deleting then phase == Terminating
      else if group.None? then phase == Pending
      else
        var g := group.value;
        var crashed := exists c :: c in g.conditions && (c.reason == "CrashLoopBackOff" || c.reason == "OOMKilled");
        var ready := |g.roleStatuses| > 0 && forall r :: r in g.roleStatuses ==> r.readyReplicas >= r.replicas;
        && (phase == Failed <==> crashed || (!ready && now - created > 1_800_000_000_000))
        && (phase == Running <==> !crashed && ready)
        && (phase == Initializing <==> !crashed && !ready && now - created <= 1_800_000_000_000)
  {
    if group.Some? {
      var g := group.value;
      assert AllRolesReady(g) <==>
          |g.roleStatuses| > 0 && forall r :: r in g.roleStatuses ==> r.readyReplicas >= r.replicas;
      if HasCrashLoop(g) {
        var i :| 0 <= i < |g.conditions| && IsCrash(g.conditions[i]);
        assert g.conditions[i] in g.conditions;
      }
    }
  }

  method CheckAllRolesReady(g: GroupStatus) returns (r: bool)
    ensures r == AllRolesReady(g)
  {
    if |g.roleStatuses| == 0 {
      return false;
    }
    for i := 0 to |g.roleStatuses|
      invariant forall j :: 0 <= j < i ==> g.roleStatuses[j].readyReplicas >= g.roleStatuses[j].replicas
    {
      if g.roleStatuses[i].readyReplicas < g.roleStatuses[i].replicas {
        return false;
      }
    }
    return true;
  }

  method CheckCrashLoop(g: GroupStatus) returns (r: bool)
    ensures r == HasCrashLoop(g)
  {
    for i := 0 to |g.conditions|
      invariant forall j :: 0 <= j < i ==> !IsCrash(g.conditions[j])
    {
      if g.conditions[i].reason == "CrashLoopBackOff" || g.conditions[i].reason == "OOMKilled" {
        assert IsCrash(g.conditions[i]);
        return true;
      }
    }
    return false;
  }

  method DerivePhase(now: int, created: int, deleting: bool, group: Option<GroupStatus>) returns (phase: Phase)
    ensures phase == ComputePhase(now, created, deleting, group)
  {
    if deleting {
      return Terminating;
    }
    if group.None? {
      return Pending;
    }
    var crashed := CheckCrashLoop(group.value);
    if crashed {
      return Failed;
    }
    var ready := CheckAllRolesReady(group.value);
    if !ready && now - created > THIRTY_MINUTES {
      return Failed;
    }
    if ready {
      return Running;
    }
    return Initializing;
  }

  function RoleStatusesOf(g: GroupStatus): seq<RoleStatus> {
    seq(|g.roleStatuses|, i requires 0 <= i < |g.roleStatuses| =>
      RoleStatus(g.roleStatuses[i].name, g.roleStatuses[i].readyReplicas, g.roleStatuses[i].replicas))
  }

  method BuildRoleStatuses(g: GroupStatus) returns (r: seq<RoleStatus>)
    ensures r == RoleStatusesOf(g)
    ensures |r| == |g.roleStatuses|
    ensures forall i :: 0 <= i < |r| ==>
              && r[i].name == g.roleStatuses[i].name
              && r[i].ready == g.roleStatuses[i].readyReplicas
              && r[i].total == g.roleStatuses[i].replicas
  {
    r := [];
    for i := 0 to |g.roleStatuses|
      invariant |r| == i && forall j :: 0 <= j < i ==> r[j] == RoleStatusesOf(g)[j]
    {
      var rs := g.roleStatuses[i];
      r := r + [RoleStatus(rs.name, rs.readyReplicas, rs.replicas)];
    }
  }

  // ----- The Ready condition -----

  function ReadyOf(phase: Phase): ConditionStatus {
    match phase
    case Running => True
    case Unset => Unknown
    case _ => False
  }

  function ReadyReason(phase: Phase, lastEvent: Option<EventRecord>): EventRecord {
    match phase
    case Running => EventRecord("AllRolesReady", "All roles are ready")
    case Failed =>
      if lastEvent.Some? && lastEvent.value.reason != "" then lastEvent.value
      else EventRecord("ServiceFailed", "Service has entered a failed state")
    case Initializing => EventRecord("Initializing", "Service is initializing")
    case Pending => EventRecord("Pending", "Service is pending")
    case Terminating => EventRecord("Terminating", "Service is terminating")
    case Unset => EventRecord("Unknown", "Service state is unknown")
  }

  /** What the Ready condition says in each phase. A failed service reports its last
      event, if that has a reason. */
  predicate Reports(
    phase: Phase, lastEvent: Option<EventRecord>, status: ConditionStatus, reason: string, message: string)
  {
    match phase
    case Running => status == True && reason == "AllRolesReady" && message == "All roles are ready"
    case Initializing => status == False && reason == "Initializing" && message == "Service is initializing"
    case Pending => status == False && reason == "Pending" && message == "Service is pending"
    case Terminating => status == False && reason == "Terminating" && message == "Service is terminating"
    case Unset => status == Unknown && reason == "Unknown" && message == "Service state is unknown"
    case Failed =>
      && status == False
      && (lastEvent.Some? && lastEvent.value.reason != "" ==>
            reason == lastEvent.value.reason && message == lastEvent.value.message)
      && (lastEvent.None? || lastEvent.value.reason == "" ==>
            reason == "ServiceFailed" && message == "Service has entered a failed state")
  }

  predicate IsReady(c: Condition) { c.kind == "Ready" }

  /** The position of the first Ready condition, or the length when there is none. */
  function FirstReady(cs: seq<Condition>): (n: nat)
    ensures n <= |cs|
    ensures n < |cs| ==> IsReady(cs[n])
    ensures forall i :: 0 <= i < n ==> !IsReady(cs[i])
  {
    if cs == [] then 0 else if IsReady(cs[0]) then 0 else 1 + FirstReady(cs[1..])
  }

  function ReadyCondition(cs: seq<Condition>): Option<Condition> {
    if FirstReady(cs) < |cs| then Some(cs[FirstReady(cs)]) else None
  }

  /** The new Ready condition: its time moves only when its status changes. */
  function NextReady(was: Option<Condition>, status: ConditionStatus, why: EventRecord, now: int): Condition {
    if was.Some? && was.value.status == status
    then was.value.(reason := why.reason, message := why.message)
    else Condition("Ready", status, why.reason, why.message, now)
  }

  function WithReady(cs: seq<Condition>, status: ConditionStatus, why: EventRecord, now: int): seq<Condition> {
    var n := FirstReady(cs);
    var next := NextReady(ReadyCondition(cs), status, why, now);
    if n < |cs| then cs[n := next] else cs + [next]
  }

  /** The condition at n, which is the first Ready one or a new one at the end, reports the
      phase; its time moves only with its status, and every other condition is as it
      was. */
  predicate ReadyWrittenAt(was: seq<Condition>, now: seq<Condition>, phase: Phase, lastEvent: Option<EventRecord>,
                           time: int, n: nat)
  {
    && n < |now| && n <= |was|
    && (forall i :: 0 <= i < n ==> was[i].kind != "Ready")
    && (n < |was| ==> was[n].kind == "Ready")
    && now[..n] == was[..n] && now[n + 1..] == (if n < |was| then was[n + 1..] else [])
    && now[n].kind == "Ready" && Reports(phase, lastEvent, now[n].status, now[n].reason, now[n].message)
    && now[n].lastTransitionTime ==
       (if n < |was| && was[n].status == now[n].status then was[n].lastTransitionTime else time)
  }

  ghost predicate ReadyWritten(
    was: seq<Condition>, now: seq<Condition>, phase: Phase, lastEvent: Option<EventRecord>, time: int)
  {
    exists n: nat :: ReadyWrittenAt(was, now, phase, lastEvent, time, n)
  }

  lemma ReadyReasonReports(phase: Phase, lastEvent: Option<EventRecord>)
    ensures
      var why := ReadyReason(phase, lastEvent);
      Reports(phase, lastEvent, ReadyOf(phase), why.reason, why.message)
  {
  }

  lemma OneReplaced(cs: seq<Condition>, n: nat, next: Condition)
    requires n <= |cs|
    ensures
      var after := if n < |cs| then cs[n := next] else cs + [next];
      after[..n] == cs[..n] && after[n] == next && after[n + 1..] == if n < |cs| then cs[n + 1..] else []
  {
  }

  lemma WithReadyIs(cs: seq<Condition>, phase: Phase, lastEvent: Option<EventRecord>, now: int)
    ensures ReadyWritten(cs, WithReady(cs, ReadyOf(phase), ReadyReason(phase, lastEvent), now), phase, lastEvent, now)
  {
    var n := FirstReady(cs);
    var status, why := ReadyOf(phase), ReadyReason(phase, lastEvent);
    ReadyReasonReports(phase, lastEvent);
    OneReplaced(cs, n, NextReady(ReadyCondition(cs), status, why, now));
    assert ReadyWrittenAt(cs, WithReady(cs, status, why, now), phase, lastEvent, now, n);
  }

  lemma FirstReadyIs(cs: seq<Condition>, n: nat)
    requires n < |cs| && IsReady(cs[n])
    requires forall i :: 0 <= i < n ==> !IsReady(cs[i])
    ensures FirstReady(cs) == n
  {
  }

  method SetReadyCondition(obj: ServiceObject, now: int)
    modifies obj`conditions
    ensures obj.conditions ==
            WithReady(old(obj.conditions), ReadyOf(obj.phase), ReadyReason(obj.phase, obj.lastEvent), now)
    ensures ReadyWritten(old(obj.conditions), obj.conditions, obj.phase, obj.lastEvent, now)
  {
    var status, why := ReadyOf(obj.phase), ReadyReason(obj.phase, obj.lastEvent);
    WithReadyIs(obj.conditions, obj.phase, obj.lastEvent, now);
    for i := 0 to |obj.conditions|
      invariant obj.conditions == old(obj.conditions)
      invariant forall j :: 0 <= j < i ==> !IsReady(obj.conditions[j])
    {
      var c := obj.conditions[i];
      if c.kind == "Ready" {
        FirstReadyIs(obj.conditions, i);
        if c.status != status {
          obj.conditions := obj.conditions[i := Condition("Ready", status, why.reason, why.message, now)];
        } else {
          obj.conditions := obj.conditions[i := c.(reason := why.reason, message := why.message)];
        }
        return;
      }
    }
    obj.conditions := obj.conditions + [Condition("Ready", status, why.reason, why.message, now)];
  }

  // ----- Status writes -----

  datatype StatusEvent =
    | Sync(now: int, created: int, deleting: bool, group: Option<GroupStatus>)
    | Fail(why: EventRecord)

  function SyncPhase(ev: StatusEvent): Phase
    requires ev.Sync?
  {
    ComputePhase(ev.now, ev.created, ev.deleting, ev.group)
  }

  function ApplyStatus(s: ServiceStatus, ev: StatusEvent): ServiceStatus {
    match ev
    case Fail(why) => s.(phase := Failed, lastEvent := Some(why))
    case Sync(now, _, _, group) =>
      var phase := SyncPhase(ev);
      ServiceStatus(
        phase,
        WithReady(s.conditions, ReadyOf(phase), ReadyReason(phase, s.lastEvent), now),
        if group.Some? then RoleStatusesOf(group.value) else s.roleStatuses,
        s.lastEvent)
  }

  /** What a failure mark writes: the phase and the last event, no condition. */
  lemma FailWrites(s: ServiceStatus, why: EventRecord)
    ensures ApplyStatus(s, Fail(why)) == ServiceStatus(Failed, s.conditions, s.roleStatuses, Some(why))
  {
  }

  /** What a sync writes: the phase, the Ready condition, and the role statuses as the
      group reports them; without a group these stay, and the last event always does. */
  lemma SyncWrites(s: ServiceStatus, now: int, created: int, deleting: bool, group: Option<GroupStatus>)
    ensures
      var after := ApplyStatus(s, Sync(now, created, deleting, group));
      && after.phase == ComputePhase(now, created, deleting, group)
      && after.lastEvent == s.lastEvent
      && ReadyWritten(s.conditions, after.conditions, after.phase, s.lastEvent, now)
      && (group.None? ==> after.roleStatuses == s.roleStatuses)
      && (group.Some? ==>
            && |after.roleStatuses| == |group.value.roleStatuses|
            && forall i :: 0 <= i < |after.roleStatuses| ==>
                 && after.roleStatuses[i].name == group.value.roleStatuses[i].name
                 && after.roleStatuses[i].ready == group.value.roleStatuses[i].readyReplicas
                 && after.roleStatuses[i].total == group.value.roleStatuses[i].replicas)
  {
    WithReadyIs(s.conditions, ComputePhase(now, created, deleting, group), s.lastEvent, now);
  }

  lemma ReadyAfterSync(cs: seq<Condition>, status: ConditionStatus, why: EventRecord, now: int)
    ensures ReadyCondition(WithReady(cs, status, why, now)) == Some(NextReady(ReadyCondition(cs), status, why, now))
  {
    var n := FirstReady(cs);
    var after := WithReady(cs, status, why, now);
    FirstReadyIs(after, n);
  }

  // ----- The status invariant -----

  predicate AtMostOneReady(cs: seq<Condition>) {
    forall i, j :: 0 <= i < j < |cs| ==> !(IsReady(cs[i]) && IsReady(cs[j]))
  }

  predicate RolesReady(rs: seq<RoleStatus>) {
    |rs| > 0 && forall i :: 0 <= i < |rs| ==> rs[i].ready >= rs[i].total
  }

  /** What every stored status satisfies. Ready=True outside Running is only
      possible as Failed with a recorded event: a failure mark leaves the
      conditions alone. */
  predicate StatusOk(s: ServiceStatus) {
    var ready := ReadyCondition(s.conditions);
    && AtMostOneReady(s.conditions)
    && s.phase != Terminating
    && (ready.Some? ==> ready.value.status != Unknown)
    && (s.phase == Unset ==> ready.None?)
    && (s.phase in {Pending, Initializing} ==> ready.Some? && ready.value.status == False)
    && (s.phase == Initializing ==> !RolesReady(s.roleStatuses))
    && (s.phase == Running ==> ready.Some? && ready.value.status == True && RolesReady(s.roleStatuses))
    && (s.phase == Failed ==> s.lastEvent.Some? || (ready.Some? && ready.value.status == False))
    && (ready.Some? && ready.value.status == True && s.phase != Running ==> s.phase == Failed && s.lastEvent.Some?)
  }

  lemma StatusOkInitially()
    ensures StatusOk(EMPTY_STATUS)
  {
  }

  lemma ApplyKeepsStatusOk(s: ServiceStatus, ev: StatusEvent)
    requires StatusOk(s)
    requires ev.Sync? ==> !ev.deleting
    ensures StatusOk(ApplyStatus(s, ev))
  {
    if ev.Sync? {
      var phase := SyncPhase(ev);
      ReadyAfterSync(s.conditions, ReadyOf(phase), ReadyReason(phase, s.lastEvent), ev.now);
      if ev.group.Some? {
        RoleStatusesReadBack(ev.group.value);
      }
    }
  }

  lemma RoleStatusesReadBack(g: GroupStatus)
    ensures RolesReady(RoleStatusesOf(g)) <==> AllRolesReady(g)
  {
    var rs := RoleStatusesOf(g);
    assert |rs| == |g.roleStatuses|;
    if RolesReady(rs) {
      forall i | 0 <= i < |rs| ensures g.roleStatuses[i].readyReplicas >= g.roleStatuses[i].replicas {
        assert rs[i].ready >= rs[i].total;
      }
    }
  }

  /** A second sync of the same group writes nothing new as long as the phase is the same. */
  lemma SyncIsIdempotent(s: ServiceStatus, first: StatusEvent, second: StatusEvent)
    requires first.Sync? && second.Sync? && first.group.Some?
    requires second == first.(now := second.now) && SyncPhase(second) == SyncPhase(first)
    ensures ApplyStatus(ApplyStatus(s, first), second) == ApplyStatus(s, first)
  {
    var phase := SyncPhase(first);
    var why := ReadyReason(phase, s.lastEvent);
    ReadyAfterSync(s.conditions, ReadyOf(phase), why, first.now);
    var cs := WithReady(s.conditions, ReadyOf(phase), why, first.now);
    assert WithReady(cs, ReadyOf(phase), why, second.now) == cs;
  }

  // ----- The schema of the status -----

  predicate IsLetter(c: char) {
    'A' <= c <= 'Z' || 'a' <= c <= 'z'
  }

  predicate IsWordChar(c: char) {
    IsLetter(c) || '0' <= c <= '9' || c == '_'
  }

  /** The pattern of a condition's reason in
      config/crd/bases/pdai.pdai.io_pdinferenceservices.yaml. */
  predicate ReasonFits(r: string) {
    && 1 <= |r| <= 1024
    && IsLetter(r[0]) && IsWordChar(r[|r| - 1])
    && forall i :: 0 <= i < |r| ==> IsWordChar(r[i]) || r[i] == ',' || r[i] == ':'
  }

  /** What the schema asks of a written status, apart from the length of messages. */
  predicate StatusFits(s: ServiceStatus) {
    && s.phase != Unset
    && forall c :: c in s.conditions ==> IsReady(c) && ReasonFits(c.reason)
  }

  lemma ReadyReasonFits(phase: Phase, lastEvent: Option<EventRecord>)
    requires lastEvent.Some? && lastEvent.value.reason != "" ==> ReasonFits(lastEvent.value.reason)
    ensures ReasonFits(ReadyReason(phase, lastEvent).reason)
  {
  }

  // ----- The phase over time -----

  /** The phase while the startup limit has not passed. */
  function EarlyPhase(g: GroupStatus): Phase {
    if HasCrashLoop(g) then Failed else if AllRolesReady(g) then Running else Initializing
  }

  predicate Nondecreasing(ts: seq<int>) {
    forall i, j :: 0 <= i < j < |ts| ==> ts[i] <= ts[j]
  }

  function PhaseAt(g: GroupStatus, created: int, t: int): Phase {
    ComputePhase(t, created, false, Some(g))
  }

  /** The observed phases are `EarlyPhase` before position k and Failed from there
      on, and k is the first observation older than 30 minutes of a group that is
      neither ready nor crashed. */
  predicate SwitchesAt(g: GroupStatus, created: int, ts: seq<int>, k: nat) {
    && k <= |ts|
    && (forall i :: 0 <= i < k ==>
          PhaseAt(g, created, ts[i]) == EarlyPhase(g) &&
          (EarlyPhase(g) == Initializing ==> ts[i] - created <= THIRTY_MINUTES))
    && (forall i :: k <= i < |ts| ==>
          PhaseAt(g, created, ts[i]) == Failed && EarlyPhase(g) == Initializing && ts[i] - created > THIRTY_MINUTES)
  }

  lemma {:induction false} PhaseTimeline(g: GroupStatus, created: int, ts: seq<int>)
    requires Nondecreasing(ts)
    ensures exists k: nat :: SwitchesAt(g, created, ts, k)
  {
    if ts == [] {
      assert SwitchesAt(g, created, ts, 0);
    } else {
      var n := |ts| - 1;
      var init := ts[..n];
      PhaseTimeline(g, created, init);
      var k: nat :| SwitchesAt(g, created, init, k);
      assert forall i :: 0 <= i < n ==> ts[i] == init[i];
      if k < n || (EarlyPhase(g) == Initializing && ts[n] - created > THIRTY_MINUTES) {
        assert k < n ==> ts[k] <= ts[n];
        assert SwitchesAt(g, created, ts, k);
      } else {
        assert SwitchesAt(g, created, ts, k + 1);
      }
    }
  }
}
