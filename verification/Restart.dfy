/** functions/vshn-postgres-func/restart.go */
module Restart {
  import opened Base
  import opened Decimal
  import opened Calendar
  import opened DateTimes
  import opened Payload
  import opened Store
  import opened Desired
  import opened Runtime
  import opened Plan

  /** 30 days, in nanoseconds. */
  const RETENTION: int := 2_592_000 * 1_000_000_000

  const ON_RESTART: string := "OnRestart"

  // ---------- Which observed operations are kept ----------

  predicate IsRestartName(compName: string, name: string) {
    HasPrefix(name, compName + "-pg-restart")
  }

  /** The time an operation is due, when it is a restart whose runAt can be read. */
  function DueTime(op: Object): Option<Time>
    requires op.body.OpsBody?
  {
    if op.body.op != "restart" || op.body.runAt.None? then None else ParseTime(op.body.runAt.value)
  }

  predicate Recent(due: Time, now: int) { Instant(due) >= now - RETENTION }

  /** What the clock reads when the loop is at the i-th observed resource. */
  type Clock = nat -> int

  /** The operation to keep for an observed resource with the given name, at time `now`. */
  function KeptOp(o: Observed, compName: string, now: int, name: string): (r: Option<Object>)
    ensures r.Some? ==> r.value.body.OpsBody?
  {
    if !IsRestartName(compName, name) then None
    else
      match ObservedObject(o, Ops, name)
      case Err(_) => None
      case Ok(op) =>
        match DueTime(op)
        case None => None
        case Some(due) => if Recent(due, now) then Some(op) else None
  }

  function KeepRequests(o: Observed, compName: string, now: int, name: string): seq<Request> {
    match KeptOp(o, compName, now, name)
    case None => []
    case Some(op) => [Emit(op, name, [], None)]
  }

  /** The writes for the first n observed resources. */
  function KeepPlan(o: Observed, compName: string, clock: Clock, n: nat): seq<Request>
    requires n <= |o.resources|
  {
    if n == 0 then []
    else KeepPlan(o, compName, clock, n - 1) + KeepRequests(o, compName, clock(n - 1), o.resources[n - 1].name)
  }

  /** The body of keepRecentRestartOps for one observed resource. */
  method KeepOne(desired: DesiredResources, o: Observed, compName: string, now: int, name: string)
    returns (failure: Option<Message>)
    requires desired.Valid()
    modifies desired.Repr
    ensures desired.Valid() && fresh(desired.Repr - old(desired.Repr))
    ensures var c := Carry(old(desired.Contents.entries), KeepRequests(o, compName, now, name));
      desired.Contents == old(desired.Contents).(entries := c.entries) && failure == c.failure
  {
    hide ObservedObject, DueTime, Recent, IsRestartName, PutIntoObject;
    failure := None;
    if !IsRestartName(compName, name) {
      return;
    }
    var op := ObservedGetFromObject(o, Ops, name);
    if op.Err? {
      return;
    }
    var due := DueTime(op.value);
    if due.None? || !Recent(due.value, now) {
      return;
    }
    failure := CarryOut(desired, Emit(op.value, name, [], None));
  }

  method KeepRecentRestartOps(desired: DesiredResources, o: Observed, compName: string, clock: Clock)
    returns (failure: Option<Message>)
    requires desired.Valid()
    modifies desired.Repr
    ensures desired.Valid() && fresh(desired.Repr - old(desired.Repr))
    ensures var c := Carry(old(desired.Contents.entries), KeepPlan(o, compName, clock, |o.resources|));
      desired.Contents == old(desired.Contents).(entries := c.entries) && failure == c.failure
  {
    hide PutIntoObject, KeepRequests;
    ghost var s0 := desired.Contents;
    for i := 0 to |o.resources|
      invariant desired.Valid() && fresh(desired.Repr - old(desired.Repr))
      invariant var c := Carry(s0.entries, KeepPlan(o, compName, clock, i));
        c.failure.None? && desired.Contents == s0.(entries := c.entries)
    {
      CarryAppend(s0.entries, KeepPlan(o, compName, clock, i),
                  KeepRequests(o, compName, clock(i), o.resources[i].name));
      failure := KeepOne(desired, o, compName, clock(i), o.resources[i].name);
      if failure.Some? {
        FailureEndsKeepPlan(s0.entries, o, compName, clock, i + 1, |o.resources|);
        return;
      }
    }
    failure := None;
  }

  lemma {:induction false} FailureEndsKeepPlan(es: seq<Resource>, o: Observed, compName: string, clock: Clock,
      i: nat, n: nat)
    requires i <= n <= |o.resources|
    requires Carry(es, KeepPlan(o, compName, clock, i)).failure.Some?
    ensures Carry(es, KeepPlan(o, compName, clock, n)) == Carry(es, KeepPlan(o, compName, clock, i))
  {
    if i < n {
      FailureEndsKeepPlan(es, o, compName, clock, i, n - 1);
      CarryAppend(es, KeepPlan(o, compName, clock, n - 1),
                  KeepRequests(o, compName, clock(n - 1), o.resources[n - 1].name));
    }
  }

  // ---------- The pending restart ----------

  /** strconv.ParseBool, true only. */
  predicate ParsesTrue(s: string) { s in ["1", "t", "T", "TRUE", "true", "True"] }

  /** The transition time of a condition that says a restart is pending. */
  function PendingTime(c: Condition): (r: Option<Time>)
    ensures r.Some? ==> Printable(r.value)
  {
    if c.typ == Some("PendingRestart") && c.status.Some? && c.lastTransitionTime.Some? && ParsesTrue(c.status.value)
    then ParseTime(c.lastTransitionTime.value) else None
  }

  /** The condition says that a restart is pending since t. */
  ghost predicate IsPendingSince(c: Condition, t: Time) {
    && c.typ == Some("PendingRestart")
    && c.status.Some? && c.status.value in ["1", "t", "T", "TRUE", "true", "True"]
    && c.lastTransitionTime.Some? && IsDateTime(c.lastTransitionTime.value, t)
  }

  lemma PendingTimeMeans(c: Condition, t: Time)
    ensures PendingTime(c) == Some(t) <==> IsPendingSince(c, t)
  {
    hide ParseTime, IsDateTime;
    if c.lastTransitionTime.Some? {
      ParsesExactly(c.lastTransitionTime.value, t);
    }
  }

  /** Condition i is the first that says a restart is pending, and it says so since t. */
  ghost predicate PendingAt(cs: seq<Condition>, i: nat, t: Time) {
    i < |cs| && IsPendingSince(cs[i], t) && forall k, u :: 0 <= k < i ==> !IsPendingSince(cs[k], u)
  }

  /** The time of the first pending condition, and the zero time when there is none. */
  ghost predicate IsPendingRestart(cs: seq<Condition>, t: Time) {
    || (t == Time(-62135596800, 0, 0) && forall i, u :: 0 <= i < |cs| ==> !IsPendingSince(cs[i], u))
    || exists i: nat :: PendingAt(cs, i, t)
  }

  function FirstPending(cs: seq<Condition>): (t: Time)
    ensures Printable(t)
  {
    ZeroTimeIsYearOne();
    if cs == [] then ZERO_TIME
    else if PendingTime(cs[0]).Some? then PendingTime(cs[0]).value
    else FirstPending(cs[1..])
  }

  lemma {:induction false} FirstPendingIsPending(cs: seq<Condition>)
    ensures IsPendingRestart(cs, FirstPending(cs))
  {
    hide PendingTime, IsPendingSince;
    if cs != [] {
      forall u ensures PendingTime(cs[0]) == Some(u) <==> IsPendingSince(cs[0], u) {
        PendingTimeMeans(cs[0], u);
      }
      if PendingTime(cs[0]).Some? {
        assert PendingAt(cs, 0, FirstPending(cs));
      } else {
        var rest := cs[1..];
        FirstPendingIsPending(rest);
        if i: nat :| PendingAt(rest, i, FirstPending(rest)) {
          assert forall k :: 1 <= k < i + 1 ==> cs[k] == rest[k - 1];
          assert PendingAt(cs, i + 1, FirstPending(cs));
        } else {
          assert forall k :: 1 <= k < |cs| ==> cs[k] == rest[k - 1];
        }
      }
    }
  }

  /** The description has exactly one solution. */
  lemma PendingRestartUnique(cs: seq<Condition>, t: Time)
    ensures IsPendingRestart(cs, t) <==> t == FirstPending(cs)
  {
    FirstPendingIsPending(cs);
    var u := FirstPending(cs);
    if i: nat :| PendingAt(cs, i, t) {
      if j: nat :| PendingAt(cs, j, u) {
        assert i == j;
        PendingTimeMeans(cs[i], t);
        PendingTimeMeans(cs[i], u);
      }
    }
  }

  function ConditionsOf(cluster: Object): seq<Condition>
    requires cluster.body.ClusterBody?
  {
    match cluster.body.conditions case None => [] case Some(cs) => cs
  }

  function PendingRestart(o: Observed): (r: Fallible<Time>)
    ensures r.Ok? ==> Printable(r.value)
  {
    match ObservedObject(o, Cluster, "cluster")
    case Err(e) => Err(e)
    case Ok(cluster) => Ok(FirstPending(ConditionsOf(cluster)))
  }

  /** getPendingRestart. The time is that of the first condition that is a pending restart, has a true
      status and a readable time, every earlier one failing a test; without such a one it is zero. */
  method GetPendingRestart(o: Observed) returns (r: Fallible<Time>)
    ensures r == PendingRestart(o)
    ensures match ObservedObject(o, Cluster, "cluster")
      case Err(e) => r == Err(e)
      case Ok(cluster) => r.Ok? && match cluster.body.conditions
        case None => r.value == Time(-62135596800, 0, 0)
        case Some(cs) => IsPendingRestart(cs, r.value)
  {
    var cluster := ObservedGetFromObject(o, Cluster, "cluster");
    if cluster.Err? {
      return Err(cluster.error);
    }
    var cs := ConditionsOf(cluster.value);
    FirstPendingIsPending(cs);
    if cluster.value.body.conditions.None? {
      return Ok(ZERO_TIME);
    }
    for i := 0 to |cs|
      invariant FirstPending(cs[i..]) == FirstPending(cs)
    {
      var cond := cs[i];
      if cond.typ != Some("PendingRestart") || cond.status.None? || cond.lastTransitionTime.None? {
        continue;
      }
      if !ParsesTrue(cond.status.value) {
        continue;
      }
      var restartTime := ParseTime(cond.lastTransitionTime.value);
      if restartTime.None? {
        continue;
      }
      return Ok(restartTime.value);
    }
    r := Ok(ZERO_TIME);
  }

  // ---------- Scheduling ----------

  function OpName(unix: int): string { "pg-restart-" + PrintInt(unix) }

  function OpResource(compName: string, unix: int): string { compName + "-" + OpName(unix) }

  /** The operation scheduleRestart asks for. */
  function ScheduledOp(compName: string, t: Time): Object
    requires Printable(t)
  {
    Object(NoKind, Meta(OpName(t.unix), "vshn-postgresql-" + compName, map[], ""),
           OpsBody("restart", Some(PrintTime(t)), compName, Some(RestartSpec("InPlace", true)), ""))
  }

  function ScheduleRequests(o: Observed, comp: Object): seq<Request>
    requires comp.body.CompositeBody?
  {
    if comp.body.params.updateStrategy == ON_RESTART then []
    else
      match PendingRestart(o)
      case Err(_) => []
      case Ok(t) =>
        if IsZero(t) then [] else [Emit(ScheduledOp(comp.meta.name, t), OpResource(comp.meta.name, t.unix), [], None)]
  }

  function RestartPlan(o: Observed, composite: Raw, clock: Clock): seq<Request> {
    match DecodeJson(composite, Composite)
    case Err(e) => [Abort(ErrorText(e))]
    case Ok(comp) => KeepPlan(o, comp.meta.name, clock, |o.resources|) + ScheduleRequests(o, comp)
  }

  function RestartEnd(o: Observed, composite: Raw): Result {
    match DecodeJson(composite, Composite)
    case Err(_) => NORMAL
    case Ok(comp) =>
      if comp.body.params.updateStrategy == ON_RESTART then NORMAL
      else match PendingRestart(o) case Err(e) => Result(Warning, ErrorText(e)) case Ok(_) => NORMAL
  }

  function RestartOutcome(o: Observed, s: Store, clock: Clock): Outcome {
    Finish(s, Carry(s.entries, RestartPlan(o, s.composite, clock)), RestartEnd(o, s.composite))
  }

  method TransformRestart(iof: Runtime, clock: Clock) returns (r: Result)
    requires iof.Valid()
    modifies iof.desired.Repr
    ensures iof.Valid() && fresh(iof.desired.Repr - old(iof.desired.Repr))
    ensures Outcome(iof.desired.Contents, r) == RestartOutcome(iof.observed, old(iof.desired.Contents), clock)
  {
    hide PutIntoObject, KeepPlan, PendingRestart, OpResource, ScheduledOp, IsZero;
    var decoded := iof.desired.GetComposite();
    if decoded.Err? {
      return Result(Fatal, ErrorText(decoded.error));
    }
    var comp := decoded.value;
    CarryAppend(iof.desired.Contents.entries, KeepPlan(iof.observed, comp.meta.name, clock, |iof.observed.resources|),
                ScheduleRequests(iof.observed, comp));
    var failure := KeepRecentRestartOps(iof.desired, iof.observed, comp.meta.name, clock);
    if failure.Some? {
      return Result(Fatal, failure.value);
    }
    if comp.body.params.updateStrategy == ON_RESTART {
      return NORMAL;
    }
    var restartTime := GetPendingRestart(iof.observed);
    if restartTime.Err? {
      return Result(Warning, ErrorText(restartTime.error));
    }
    if IsZero(restartTime.value) {
      return NORMAL;
    }
    failure := CarryOut(iof.desired,
      Emit(ScheduledOp(comp.meta.name, restartTime.value),
           OpResource(comp.meta.name, restartTime.value.unix), [], None));
    if failure.Some? {
      return Result(Fatal, failure.value);
    }
    r := NORMAL;
  }
}
