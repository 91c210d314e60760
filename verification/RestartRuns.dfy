/** Restart operations: exactly which ones a run writes, and how long one lives over a series of
    reconciles of the whole pipeline. */
module RestartRuns {
  import opened Base
  import opened Decimal
  import opened Calendar
  import opened Payload
  import opened Store
  import opened Runtime
  import opened Plan
  import opened Writes
  import opened Url
  import opened Alerting
  import opened Restart
  import opened Schedule
  import opened Luks
  import opened Postgres
  import opened Idempotence
  import opened Ordering
  import opened OrderedMap

  // ---------- One run ----------

  /** The time a run schedules an operation for, if any. */
  function ScheduledTime(o: Observed, comp: Object): (r: Option<Time>)
    requires comp.body.CompositeBody?
    ensures r.Some? ==> Printable(r.value)
  {
    if comp.body.params.updateStrategy == ON_RESTART then None
    else match PendingRestart(o)
      case Err(_) => None
      case Ok(t) => if IsZero(t) then None else Some(t)
  }

  /** When a restart is scheduled, exactly: unless restarts are left to the user, for the time of the first
      condition of the observed cluster that says one is pending, if that time is not the zero time. */
  lemma WhenScheduled(o: Observed, comp: Object, t: Time)
    requires comp.body.CompositeBody?
    ensures ScheduledTime(o, comp) == Some(t) <==>
      && comp.body.params.updateStrategy != "OnRestart"
      && ObservedObject(o, Cluster, "cluster").Ok?
      && var cs := ObservedObject(o, Cluster, "cluster").value.body.conditions;
         cs.Some? && (exists i: nat :: PendingAt(cs.value, i, t)) && (t.unix, t.nanos) != (-62135596800, 0)
  {
    hide ObservedObject, IsPendingSince, FirstPending;
    if ObservedObject(o, Cluster, "cluster").Ok? {
      var cs := ConditionsOf(ObservedObject(o, Cluster, "cluster").value);
      assert FirstPending([]) == ZERO_TIME by { NoConditions(); }
      PendingRestartUnique(cs, t);
      var u := FirstPending(cs);
      FirstPendingIsPending(cs);
      assert 0 <= u.nanos < NANOS;
    }
  }

  lemma NoConditions()
    ensures FirstPending([]) == ZERO_TIME
  {
  }

  /** The i-th observed resource has the name, and the loop keeps the operation observed under it. */
  ghost predicate KeptHere(o: Observed, compName: string, clock: Clock, n: string, i: nat) {
    i < |o.resources| && o.resources[i].name == n && KeptOp(o, compName, clock(i), n).Some?
  }

  /** The operation the loop over the first k observed resources keeps under a name. */
  ghost function KeptAt(o: Observed, compName: string, clock: Clock, n: string, k: nat): (r: Option<Object>)
    ensures r.Some? ==> r.value.body.OpsBody?
  {
    match ObservedObject(o, Ops, n)
    case Err(_) => None
    case Ok(op) => if exists i: nat :: i < k && KeptHere(o, compName, clock, n, i) then Some(op) else None
  }

  /** The observed operation under the name is a restart, due no longer than 30 days ago when the loop
      is at it. */
  ghost predicate Retained(o: Observed, compName: string, clock: Clock, n: string, op: Object) {
    && compName + "-pg-restart" <= n
    && ObservedObject(o, Ops, n) == Ok(op)
    && op.body.OpsBody? && op.body.op == "restart" && op.body.runAt.Some?
    && ParseTime(op.body.runAt.value).Some?
    && var due := ParseTime(op.body.runAt.value).value;
    exists i: nat :: i < |o.resources| && o.resources[i].name == n
      && due.unix * 1_000_000_000 + due.nanos >= clock(i) - 30 * 24 * 3600 * 1_000_000_000
  }

  lemma RetainedIsKept(o: Observed, compName: string, clock: Clock, n: string, op: Object)
    ensures Retained(o, compName, clock, n, op) <==> KeptAt(o, compName, clock, n, |o.resources|) == Some(op)
  {
    hide ObservedObject, ParseTime;
    if Retained(o, compName, clock, n, op) {
      var i: nat :| i < |o.resources| && o.resources[i].name == n
        && Instant(ParseTime(op.body.runAt.value).value) >= clock(i) - 30 * 24 * 3600 * 1_000_000_000;
      assert KeptHere(o, compName, clock, n, i);
    }
  }

  lemma {:induction false} LastKept(o: Observed, compName: string, clock: Clock, k: nat, n: string)
    requires k <= |o.resources|
    ensures LastObject(KeepPlan(o, compName, clock, k), n) == KeptAt(o, compName, clock, n, k)
  {
    hide KeptOp, LastObject, KeepRequests, ObservedObject;
    if k == 0 {
      NothingLast(n);
    } else {
      var name := o.resources[k - 1].name;
      LastKept(o, compName, clock, k - 1, n);
      LastObjectAppend(KeepPlan(o, compName, clock, k - 1), KeepRequests(o, compName, clock(k - 1), name), n);
      LastOfKeep(o, compName, clock(k - 1), name, n);
      KeptIsObserved(o, compName, clock(k - 1), n);
      assert KeptHere(o, compName, clock, n, k - 1) <==> name == n && KeptOp(o, compName, clock(k - 1), n).Some?;
    }
  }

  lemma NothingLast(n: string)
    ensures LastObject([], n) == None
  {
  }

  lemma LastOfKeep(o: Observed, compName: string, now: int, name: string, n: string)
    ensures LastObject(KeepRequests(o, compName, now, name), n)
         == if name == n then KeptOp(o, compName, now, n) else None
  {
    hide KeptOp;
  }

  lemma KeptIsObserved(o: Observed, compName: string, now: int, n: string)
    ensures var kept := KeptOp(o, compName, now, n); kept.Some? ==> ObservedObject(o, Ops, n) == Ok(kept.value)
  {
    hide ObservedObject, DueTime, Recent, IsRestartName;
  }

  /** The object a run's plan leaves under a name: the one it schedules there, or the one it keeps. */
  lemma PlannedObject(o: Observed, c: Raw, clock: Clock, comp: Object, n: string)
    requires DecodeJson(c, Composite) == Ok(comp)
    ensures var t := ScheduledTime(o, comp);
      LastObject(RestartPlan(o, c, clock), n)
        == if t.Some? && OpResource(comp.meta.name, t.value.unix) == n then Some(ScheduledOp(comp.meta.name, t.value))
           else KeptAt(o, comp.meta.name, clock, n, |o.resources|)
  {
    hide KeepPlan, KeptAt, PendingRestart, OpResource, ScheduledOp;
    var keep := KeepPlan(o, comp.meta.name, clock, |o.resources|);
    LastKept(o, comp.meta.name, clock, |o.resources|, n);
    LastObjectAppend(keep, ScheduleRequests(o, comp), n);
  }

  /** An in-place restart of the cluster, of pending pods only, due at the whole second of t. */
  ghost predicate IsScheduledFor(op: Object, c: string, t: Time) {
    && op.gvk == OpsKind && op.body.OpsBody?
    && op.meta.name == "pg-restart-" + PrintInt(t.unix) && op.meta.namespace == "vshn-postgresql-" + c
    && op.body.op == "restart" && op.body.sgCluster == c
    && op.body.restart == Some(RestartSpec("InPlace", true))
    && op.body.runAt.Some? && ParseTime(op.body.runAt.value) == Some(t.(nanos := 0))
  }

  lemma ScheduledAsTold(c: string, t: Time)
    requires Printable(t)
    ensures IsScheduledFor(Typed(ScheduledOp(c, t)), c, t)
    ensures OpResource(c, t.unix) == c + "-pg-restart-" + PrintInt(t.unix)
  {
    hide ParseTime, PrintTime, PrintInt;
    ParsePrintTime(t);
    assert "-" + "pg-restart-" == "-pg-restart-";
  }

  /** What a run that does not fail leaves under the name n. */
  ghost predicate ExactAt(o: Observed, comp: Object, clock: Clock, before: seq<Resource>, after: seq<Resource>,
      n: string)
    requires comp.body.CompositeBody?
  {
    var c, t := comp.meta.name, ScheduledTime(o, comp);
    if t.Some? && n == c + "-pg-restart-" + PrintInt(t.value.unix) then
      DesiredObject(after, Ops, n).Ok? && IsScheduledFor(DesiredObject(after, Ops, n).value, c, t.value)
    else
      && (forall op :: Retained(o, c, clock, n, op) ==> DesiredObject(after, Ops, n) == Ok(Typed(op)))
      && ((forall op :: !Retained(o, c, clock, n, op)) ==> Lookup(after, n) == Lookup(before, n))
  }

  lemma ExactAtName(o: Observed, s: Store, clock: Clock, comp: Object, n: string)
    requires DecodeJson(s.composite, Composite) == Ok(comp)
    requires Effective(s.entries, RestartPlan(o, s.composite, clock)) == RestartPlan(o, s.composite, clock)
    ensures ExactAt(o, comp, clock, s.entries, Carry(s.entries, RestartPlan(o, s.composite, clock)).entries, n)
  {
    hide Carry, RestartPlan, Retained, KeptAt, Lookup, DesiredObject, ScheduledTime, Effective, OpResource,
         ScheduledOp, Typed, LastObject;
    var plan := RestartPlan(o, s.composite, clock);
    CarryShows(s.entries, plan, n);
    PlannedObject(o, s.composite, clock, comp, n);
    var t := ScheduledTime(o, comp);
    if t.Some? {
      ScheduledIsOp(comp.meta.name, t.value);
      ScheduledAsTold(comp.meta.name, t.value);
    }
    hide IsScheduledFor;
    forall op ensures Retained(o, comp.meta.name, clock, n, op)
                 <==> KeptAt(o, comp.meta.name, clock, n, |o.resources|) == Some(op) {
      RetainedIsKept(o, comp.meta.name, clock, n, op);
    }
  }

  /** Exact restart set: a run that does not fail leaves the operation for the pending time under its
      name, each retained observed operation under its own, and every other entry, the composite and
      the connection details as they were; entries keep their places, and one that hides behind an
      earlier entry of its name stays exactly as it was. */
  lemma ExactRestartSet(o: Observed, s: Store, clock: Clock, comp: Object)
    requires DecodeJson(s.composite, Composite) == Ok(comp)
    requires RestartOutcome(o, s, clock).result.severity != Fatal
    ensures var out := RestartOutcome(o, s, clock).store;
      && out.composite == s.composite && out.details == s.details
      && (forall n :: ExactAt(o, comp, clock, s.entries, out.entries, n))
      && |s.entries| <= |out.entries|
      && (forall k :: 0 <= k < |s.entries| ==>
            out.entries[k].name == s.entries[k].name && out.entries[k].rest == s.entries[k].rest)
      && (forall k :: 0 <= k < |s.entries| && k != Find(s.entries, s.entries[k].name) ==>
            out.entries[k] == s.entries[k])
  {
    var plan := RestartPlan(o, s.composite, clock);
    RestartSucceeds(o, s, clock);
    CarryIsWriteAll(s.entries, plan);
    NoFailureAllEffective(s.entries, plan);
    WriteAllKeepsPlaces(s.entries, Effective(s.entries, plan));
    hide Carry, RestartPlan, ExactAt, Effective, FailureOf, WriteAll, AllWork, Lookup, Find;
    forall n ensures ExactAt(o, comp, clock, s.entries, Carry(s.entries, plan).entries, n) {
      ExactAtName(o, s, clock, comp, n);
    }
  }

  // ---------- A run that fails ----------

  /** The loop keeps the operation of the i-th observed resource but cannot write to its entry. */
  ghost predicate Blocked(o: Observed, compName: string, clock: Clock, es: seq<Resource>, i: nat) {
    && i < |o.resources| && KeptOp(o, compName, clock(i), o.resources[i].name).Some?
    && CannotDecode(es, o.resources[i].name)
  }

  lemma {:induction false} KeptBeforeBlocked(o: Observed, compName: string, clock: Clock, es: seq<Resource>, n: nat)
    requires n <= |o.resources| && forall i: nat :: i < n ==> !Blocked(o, compName, clock, es, i)
    ensures FailureOf(es, KeepPlan(o, compName, clock, n)).None?
  {
    hide KeptOp, Works, CannotDecode, Lookup, FailureOf, Effective, Blocked, KeepRequests;
    if n == 0 {
      NothingFails(es);
    } else {
      assert !Blocked(o, compName, clock, es, n - 1);
      KeptBeforeBlocked(o, compName, clock, es, n - 1);
      OneKeepRequest(o, compName, clock, es, n - 1);
      EffectiveAppend(es, KeepPlan(o, compName, clock, n - 1),
                      KeepRequests(o, compName, clock(n - 1), o.resources[n - 1].name));
    }
  }

  lemma NothingFails(es: seq<Resource>)
    ensures FailureOf(es, []).None?
  {
  }

  lemma OneKeepRequest(o: Observed, compName: string, clock: Clock, es: seq<Resource>, i: nat)
    requires i < |o.resources|
    ensures var rs := KeepRequests(o, compName, clock(i), o.resources[i].name);
      && FailureOf(es, rs) == (if Blocked(o, compName, clock, es, i) then Some(ErrorText(Undecodable)) else None)
      && (Blocked(o, compName, clock, es, i) ==> Effective(es, rs) == [])
  {
    hide KeptOp, Lookup;
    var rs := KeepRequests(o, compName, clock(i), o.resources[i].name);
    if rs != [] {
      assert rs[1..] == [];
    }
  }

  /** From the first blocked resource on nothing is written. */
  lemma {:induction false} KeptUpToBlocked(o: Observed, compName: string, clock: Clock, es: seq<Resource>, k: nat,
      n: nat)
    requires k < n <= |o.resources| && Blocked(o, compName, clock, es, k)
    requires forall i: nat :: i < k ==> !Blocked(o, compName, clock, es, i)
    ensures Effective(es, KeepPlan(o, compName, clock, n)) == KeepPlan(o, compName, clock, k)
    ensures FailureOf(es, KeepPlan(o, compName, clock, n)) == Some(ErrorText(Undecodable))
    decreases n
  {
    hide KeptOp, Works, CannotDecode, Lookup, FailureOf, Effective, Blocked;
    var rs := KeepRequests(o, compName, clock(n - 1), o.resources[n - 1].name);
    EffectiveAppend(es, KeepPlan(o, compName, clock, n - 1), rs);
    if k == n - 1 {
      KeptBeforeBlocked(o, compName, clock, es, k);
      OneKeepRequest(o, compName, clock, es, k);
    } else {
      KeptUpToBlocked(o, compName, clock, es, k, n - 1);
    }
  }

  /** The first blocked resource, or the number of resources. */
  lemma {:induction false} FirstBlocked(o: Observed, compName: string, clock: Clock, es: seq<Resource>, n: nat)
      returns (k: nat)
    requires n <= |o.resources|
    ensures k <= n && (k < n ==> Blocked(o, compName, clock, es, k))
    ensures forall i: nat :: i < k ==> !Blocked(o, compName, clock, es, i)
  {
    hide Blocked;
    k := 0;
    if n > 0 {
      k := FirstBlocked(o, compName, clock, es, n - 1);
      if k == n - 1 && !Blocked(o, compName, clock, es, k) {
        k := n;
      }
    }
  }

  /** The entry for the pending restart, if there is one, cannot be written to. */
  ghost predicate ScheduleBlocked(o: Observed, comp: Object, es: seq<Resource>)
    requires comp.body.CompositeBody?
  {
    var t := ScheduledTime(o, comp);
    t.Some? && CannotDecode(es, OpResource(comp.meta.name, t.value.unix))
  }

  /** Without a composite that can be read the run fails and writes nothing. */
  lemma RestartNotReady(o: Observed, s: Store, clock: Clock)
    ensures match DecodeJson(s.composite, Composite)
      case Err(e) => RestartOutcome(o, s, clock) == Outcome(s, Result(Fatal, ErrorText(e)))
      case Ok(_) => true
  {
    hide DecodeJson;
  }

  /** The prefix on failure: a run fails exactly when it keeps an operation, or schedules one, whose entry
      cannot be decoded. It then leaves under its name each operation the loop kept before the first such
      one, at place k, and everything else, the scheduled operation included, as it was. A cluster that
      cannot be read is a warning, and none when restarts are left to the user. */
  lemma RestartUpToFailure(o: Observed, s: Store, clock: Clock, comp: Object) returns (k: nat)
    requires DecodeJson(s.composite, Composite) == Ok(comp)
    ensures k <= |o.resources| && (k < |o.resources| ==> Blocked(o, comp.meta.name, clock, s.entries, k))
    ensures forall i: nat :: i < k ==> !Blocked(o, comp.meta.name, clock, s.entries, i)
    ensures var out := RestartOutcome(o, s, clock);
      && out.store == s.(entries := out.store.entries)
      && out.result == (
           if k < |o.resources| || ScheduleBlocked(o, comp, s.entries) then Result(Fatal, ErrorText(Undecodable))
           else if comp.body.params.updateStrategy == "OnRestart" then Result(Normal, Success)
           else match ObservedObject(o, Cluster, "cluster")
             case Err(e) => Result(Warning, ErrorText(e))
             case Ok(_) => Result(Normal, Success))
      && (out.result.severity == Fatal ==>
            forall n :: LeftAt(s.entries, out.store.entries, n, KeptAt(o, comp.meta.name, clock, n, k)))
  {
    hide Carry, KeepPlan, ScheduleRequests, RestartPlan, FailureOf, Effective, Blocked, ScheduleBlocked, KeptAt, LeftAt,
         PendingRestart, DecodeJson;
    var c := comp.meta.name;
    k := FirstBlocked(o, c, clock, s.entries, |o.resources|);
    PlanUpToFailure(o, s, clock, comp, k);
    CarryIsWriteAll(s.entries, RestartPlan(o, s.composite, clock));
    RestartReports(o, s, clock, comp);
    if k < |o.resources| || ScheduleBlocked(o, comp, s.entries) {
      forall n ensures LeftAt(s.entries, Carry(s.entries, RestartPlan(o, s.composite, clock)).entries, n,
                              KeptAt(o, c, clock, n, k)) {
        KeptIsLeft(o, s, clock, c, k, n);
      }
    }
  }

  lemma RestartReports(o: Observed, s: Store, clock: Clock, comp: Object)
    requires DecodeJson(s.composite, Composite) == Ok(comp)
    ensures var c := Carry(s.entries, RestartPlan(o, s.composite, clock));
      && RestartOutcome(o, s, clock).store == s.(entries := c.entries)
      && RestartOutcome(o, s, clock).result == (
           if c.failure.Some? then Result(Fatal, c.failure.value)
           else if comp.body.params.updateStrategy == "OnRestart" then Result(Normal, Success)
           else match ObservedObject(o, Cluster, "cluster")
             case Err(e) => Result(Warning, ErrorText(e))
             case Ok(_) => Result(Normal, Success))
  {
    hide Carry, RestartPlan, ObservedObject, DecodeJson;
  }

  /** Under the name is the given operation, or what was there before when there is none. */
  ghost predicate LeftAt(before: seq<Resource>, after: seq<Resource>, n: string, op: Option<Object>) {
    match op
    case Some(op) => op.body.OpsBody? && DesiredObject(after, Ops, n) == Ok(Typed(op))
    case None => SameSlot(after, before, n)
  }

  lemma PlanUpToFailure(o: Observed, s: Store, clock: Clock, comp: Object, k: nat)
    requires DecodeJson(s.composite, Composite) == Ok(comp) && k <= |o.resources|
    requires k < |o.resources| ==> Blocked(o, comp.meta.name, clock, s.entries, k)
    requires forall i: nat :: i < k ==> !Blocked(o, comp.meta.name, clock, s.entries, i)
    ensures var plan := RestartPlan(o, s.composite, clock);
      && FailureOf(s.entries, plan) == (if k < |o.resources| || ScheduleBlocked(o, comp, s.entries)
                                        then Some(ErrorText(Undecodable)) else None)
      && (FailureOf(s.entries, plan).Some? ==>
            Effective(s.entries, plan) == KeepPlan(o, comp.meta.name, clock, k))
  {
    hide KeepPlan, ScheduleRequests, FailureOf, Effective, Blocked, ScheduleBlocked, DecodeJson;
    var keep := KeepPlan(o, comp.meta.name, clock, |o.resources|);
    EffectiveAppend(s.entries, keep, ScheduleRequests(o, comp));
    if k < |o.resources| {
      KeptUpToBlocked(o, comp.meta.name, clock, s.entries, k, |o.resources|);
    } else {
      KeptBeforeBlocked(o, comp.meta.name, clock, s.entries, k);
      OneScheduleRequest(o, comp, s.entries);
    }
  }

  lemma OneScheduleRequest(o: Observed, comp: Object, es: seq<Resource>)
    requires comp.body.CompositeBody?
    ensures var rs := ScheduleRequests(o, comp);
      && FailureOf(es, rs) == (if ScheduleBlocked(o, comp, es) then Some(ErrorText(Undecodable)) else None)
      && (ScheduleBlocked(o, comp, es) ==> Effective(es, rs) == [])
  {
    hide PendingRestart, OpResource, Lookup, PrintTime, OpName;
    var rs := ScheduleRequests(o, comp);
    if rs != [] {
      assert rs[1..] == [];
    }
  }

  lemma KeptIsLeft(o: Observed, s: Store, clock: Clock, c: string, k: nat, n: string)
    requires k <= |o.resources|
    requires Effective(s.entries, RestartPlan(o, s.composite, clock)) == KeepPlan(o, c, clock, k)
    ensures LeftAt(s.entries, Carry(s.entries, RestartPlan(o, s.composite, clock)).entries, n,
                   KeptAt(o, c, clock, n, k))
  {
    var kept := KeptAt(o, c, clock, n, k);
    assert kept.Some? ==> kept.value.body.OpsBody?;
    hide Carry, RestartPlan, KeepPlan, KeptAt, Effective, LastObject, Lookup, DesiredObject, Typed;
    LastKept(o, c, clock, k, n);
    CarryShows(s.entries, RestartPlan(o, s.composite, clock), n);
  }

  lemma RestartSucceeds(o: Observed, s: Store, clock: Clock)
    ensures RestartOutcome(o, s, clock).result.severity != Fatal
       <==> Carry(s.entries, RestartPlan(o, s.composite, clock)).failure.None?
  {
    hide Carry, RestartPlan, PendingRestart, DecodeJson;
  }

  lemma ScheduledIsOp(compName: string, t: Time)
    requires Printable(t)
    ensures ScheduledOp(compName, t).body.OpsBody?
  {
  }

  // ---------- What is due when ----------

  /** The operation is a restart due at the whole second u. */
  ghost predicate DueAt(op: Object, u: int) {
    op.body.OpsBody? && DueTime(op).Some? && DueTime(op).value.unix == u && DueTime(op).value.nanos == 0
  }

  lemma ScheduledIsDue(compName: string, t: Time)
    requires Printable(t)
    ensures DueAt(Typed(ScheduledOp(compName, t)), t.unix)
  {
    hide ParseTime, PrintTime;
    ParsePrintTime(t);
  }

  lemma OpResourceInjective(c: string, u: int, v: int)
    requires OpResource(c, u) == OpResource(c, v)
    ensures u == v
  {
    hide PrintInt;
    assert OpResource(c, u) == (c + "-pg-restart-") + PrintInt(u);
    assert OpResource(c, v) == (c + "-pg-restart-") + PrintInt(v);
    assert OpResource(c, u)[|c + "-pg-restart-"|..] == PrintInt(u);
    assert OpResource(c, v)[|c + "-pg-restart-"|..] == PrintInt(v);
    PrintIntInjective(u, v);
  }

  // ---------- A series of reconciles ----------

  /** One reconcile of the whole pipeline: its input, its clock, its draw and its fresh keys. */
  datatype Reconcile = Reconcile(io: FunctionIO, clock: Clock, draw: Draw, keys: Generator)

  function Output(r: Reconcile): FunctionIO { RunFive(r.io, r.clock, r.draw, r.keys) }

  /** The second for which a reconcile has a restart to schedule. */
  function PendingSecond(r: Reconcile): Option<int> {
    match DecodeJson(r.io.desired.composite, Composite)
    case Err(_) => None
    case Ok(comp) => match ScheduledTime(r.io.observed, comp) case None => None case Some(t) => Some(t.unix)
  }

  /** The restart transform of this reconcile does not fail. */
  ghost predicate Succeeds(r: Reconcile) {
    FinalResults(r.io.observed, r.io.desired, r.clock, r.draw, r.keys)[2].severity != Fatal
  }

  /** Same operation and due time, whatever else the cluster added to the object. */
  ghost predicate SameOrder(a: Object, b: Object) {
    a.body.OpsBody? && b.body.OpsBody? && a.body.op == b.body.op && a.body.runAt == b.body.runAt
  }

  /** If the composite decodes, its name is c. */
  ghost predicate Named(raw: Raw, c: string) {
    DecodeJson(raw, Composite).Ok? ==> DecodeJson(raw, Composite).value.meta.name == c
  }

  /** A reconcile of the composite named c whose input has no entry under the name n yet. */
  ghost predicate Fresh(r: Reconcile, c: string, n: string) {
    && Named(r.io.observed.composite, c) && Named(r.io.desired.composite, c)
    && Lookup(r.io.desired.entries, n).None?
  }

  /** If an operation is observed under the name, an earlier reconcile put it there. */
  ghost predicate Echo(h: seq<Reconcile>, j: nat, n: string)
    requires j < |h|
  {
    ObservedObject(h[j].io.observed, Ops, n).Ok? ==>
      exists i :: 0 <= i < j && Emitted(h[i], n).Ok?
        && SameOrder(ObservedObject(h[j].io.observed, Ops, n).value, Emitted(h[i], n).value)
  }

  /** The operation a reconcile leaves under a name. */
  function Emitted(r: Reconcile, n: string): Fallible<Object> {
    DesiredObject(Output(r).desired.entries, Ops, n)
  }

  /** A series of reconciles of composite c, and what is assumed of it about the name n. */
  ghost predicate History(h: seq<Reconcile>, c: string, n: string) {
    forall j :: 0 <= j < |h| ==> Fresh(h[j], c, n) && Echo(h, j, n)
  }

  /** In the whole pipeline a restart name holds what the restart transform alone would leave there. */
  lemma RestartSlot(io: FunctionIO, clock: Clock, draw: Draw, keys: Generator, c: string, n: string)
    requires Named(io.observed.composite, c) && Named(io.desired.composite, c) && IsRestartName(c, n)
    ensures Lookup(RunFive(io, clock, draw, keys).desired.entries, n)
         == Lookup(Carry(io.desired.entries, RestartPlan(io.observed, io.desired.composite, clock)).entries, n)
  {
    hide Carry, AlertPlan, RestartPlan, LuksPlan, Lookup, IsRestartName, DecodeJson, RunFive, Effective,
         WriteAll, SlotAfter, Works;
    var o, s := io.observed, io.desired;
    var p, q := AlertPlan(o), RestartPlan(o, s.composite, clock);
    var e2 := RestartEntries(o, s.composite, AlertEntries(o, s.entries), clock);
    var r := LuksPlan(o, e2, keys);
    RunFiveIs(io, clock, draw, keys);
    forall a | a in p && a.Emit? ensures a.kon != n { OthersAvoidRestart(o, c, n, a, e2, keys); }
    forall a | a in r && a.Emit? ensures a.kon != n { OthersAvoidRestart(o, c, n, a, e2, keys); }
    CarryAvoids(e2, r, n);
    CarryAvoids(s.entries, p, n);
    var e1 := AlertEntries(o, s.entries);
    CarryIsWriteAll(s.entries, p);
    EffectiveAfterWriteAll(s.entries, Effective(s.entries, p), q);
    CarryIsWriteAll(e1, q);
    CarryIsWriteAll(s.entries, q);
    LookupWriteAll(e1, Effective(s.entries, q), n);
    LookupWriteAll(s.entries, Effective(s.entries, q), n);
  }

  lemma OthersAvoidRestart(o: Observed, c: string, n: string, r: Request, es: seq<Resource>, keys: Generator)
    requires Named(o.composite, c) && IsRestartName(c, n)
    requires r.Emit? && (r in AlertPlan(o) || r in LuksPlan(o, es, keys))
    ensures r.kon != n
  {
    hide AlertPlan, LuksPlan, IsRestartName, DecodeJson, KeyResource, ConfigName, SecretName;
    RestartNameHasDash(c, n);
    if r in AlertPlan(o) {
      AlertNames(o, r);
      AlertMark(DecodeJson(o.composite, Composite).value, r.kon);
    } else {
      LuksNames(o, es, keys, r);
      if r.kon != "cluster" {
        var i: nat :| r.kon == KeyResource(DecodeJson(o.composite, Composite).value.meta.name, i);
        KeyMark(c, i);
      }
    }
  }

  lemma SucceedsMeans(r: Reconcile)
    ensures var es, plan := r.io.desired.entries, RestartPlan(r.io.observed, r.io.desired.composite, r.clock);
      Succeeds(r) <==> Effective(es, plan) == plan
  {
    hide Carry, AlertPlan, RestartPlan, LuksPlan, Effective, FailureOf, UrlOutcome, AlertOutcome,
         ScheduleOutcome, LuksOutcome, DecodeJson;
    var o, s := r.io.observed, r.io.desired;
    var e1 := AlertEntries(o, s.entries);
    var plan := RestartPlan(o, s.composite, r.clock);
    CarryIsWriteAll(s.entries, AlertPlan(o));
    EffectiveAfterWriteAll(s.entries, Effective(s.entries, AlertPlan(o)), plan);
    CarryIsWriteAll(e1, plan);
    NoFailureAllEffective(s.entries, plan);
    RestartSucceeds(o, s.(entries := e1), r.clock);
  }

  // ---------- The life of an operation ----------

  lemma {:induction false} KeepMember(o: Observed, compName: string, clock: Clock, k: nat, q: Request)
    requires k <= |o.resources| && q in KeepPlan(o, compName, clock, k)
    ensures q.Emit? && KeptAt(o, compName, clock, q.kon, k) == Some(q.obj)
  {
    hide KeptOp, ObservedObject;
    if k > 0 {
      KeptIsObserved(o, compName, clock(k - 1), o.resources[k - 1].name);
      assert KeptOp(o, compName, clock(k - 1), o.resources[k - 1].name).Some? ==>
        KeptHere(o, compName, clock, o.resources[k - 1].name, k - 1);
    }
    if q in KeepPlan(o, compName, clock, k - 1) {
      KeepMember(o, compName, clock, k - 1, q);
    }
  }

  /** A request of the restart plan is the scheduled operation or a kept one. */
  lemma RestartMember(o: Observed, s: Store, clock: Clock, comp: Object, q: Request)
    requires DecodeJson(s.composite, Composite) == Ok(comp) && q in RestartPlan(o, s.composite, clock)
    ensures q.Emit?
    ensures var t := ScheduledTime(o, comp);
      || (t.Some? && q.kon == OpResource(comp.meta.name, t.value.unix) && q.obj == ScheduledOp(comp.meta.name, t.value))
      || KeptAt(o, comp.meta.name, clock, q.kon, |o.resources|) == Some(q.obj)
  {
    hide KeptAt, KeepPlan, PendingRestart, OpResource, ScheduledOp;
    if q in KeepPlan(o, comp.meta.name, clock, |o.resources|) {
      KeepMember(o, comp.meta.name, clock, |o.resources|, q);
    }
  }

  /** The seconds some reconcile up to number j had to schedule a restart for. */
  function PendingSeconds(h: seq<Reconcile>, j: nat): set<int>
    requires j < |h|
  {
    (if j == 0 then {} else PendingSeconds(h, j - 1)) +
    (match PendingSecond(h[j]) case None => {} case Some(u) => {u})
  }

  lemma {:induction false} PendingSecondsGrow(h: seq<Reconcile>, i: nat, j: nat)
    requires i <= j < |h|
    ensures PendingSeconds(h, i) <= PendingSeconds(h, j)
  {
    hide PendingSecond;
    if i < j {
      PendingSecondsGrow(h, i, j - 1);
    }
  }

  /** The second is at most 30 days past when the retention loop is at an observed resource n. */
  ghost predicate StillRecent(o: Observed, clock: Clock, n: string, u: int) {
    exists i: nat :: i < |o.resources| && o.resources[i].name == n && clock(i) <= (u + 30 * 24 * 3600) * 1_000_000_000
  }

  ghost predicate Alive(r: Reconcile, n: string, u: int) {
    || PendingSecond(r) == Some(u)
    || (ObservedObject(r.io.observed, Ops, n).Ok? && StillRecent(r.io.observed, r.clock, n, u))
  }

  /** Under n reconcile j leaves the operation for second u, once pending, and alive now. */
  ghost predicate Traced(h: seq<Reconcile>, c: string, j: nat, n: string, u: int)
    requires j < |h|
  {
    && n == OpResource(c, u) && u in PendingSeconds(h, j)
    && Emitted(h[j], n).Ok? && DueAt(Emitted(h[j], n).value, u)
    && Alive(h[j], n, u)
  }

  /** What the reconcile leaves under a restart name comes from a request of its restart plan. */
  lemma EmittedRequest(r: Reconcile, c: string, n: string) returns (q: Request)
    requires Fresh(r, c, n) && IsRestartName(c, n) && Lookup(Output(r).desired.entries, n).Some?
    ensures DecodeJson(r.io.desired.composite, Composite).Ok?
    ensures q in RestartPlan(r.io.observed, r.io.desired.composite, r.clock) && q.Emit? && q.kon == n
    ensures q.obj.body.OpsBody? ==> Emitted(r, n) == Ok(Typed(q.obj))
  {
    hide Carry, RestartPlan, IsRestartName, Lookup, RunFive, DecodeJson, LastObject, DesiredObject, Effective,
         Typed;
    var es, plan := r.io.desired.entries, RestartPlan(r.io.observed, r.io.desired.composite, r.clock);
    RestartSlot(r.io, r.clock, r.draw, r.keys, c, n);
    CarryShows(es, plan, n);
    LastObjectIsRequested(Effective(es, plan), n);
    q :| q in Effective(es, plan) && q.Emit? && q.kon == n && LastObject(Effective(es, plan), n) == Some(q.obj);
    PrefixMembers(Effective(es, plan), plan);
    RestartNames(r.io.observed, r.io.desired.composite, r.clock, q);
    SameDesiredObject(Carry(es, plan).entries, Output(r).desired.entries, n);
  }

  lemma EmittedIsPresent(r: Reconcile, n: string)
    requires Emitted(r, n).Ok?
    ensures Lookup(Output(r).desired.entries, n).Some?
  {
    hide RunFive, Lookup, DecodeYaml;
  }

  /** A kept operation whose due time is the second u is observed while u is recent. */
  lemma KeptFacts(o: Observed, c: string, clock: Clock, n: string, op: Object)
    requires KeptAt(o, c, clock, n, |o.resources|) == Some(op)
    ensures ObservedObject(o, Ops, n) == Ok(op)
    ensures forall u :: DueAt(op, u) ==> StillRecent(o, clock, n, u)
  {
    hide ObservedObject, DueTime;
  }

  lemma SameOrderSameDue(a: Object, b: Object, u: int)
    requires SameOrder(a, b) && DueAt(b, u)
    ensures DueAt(a, u) && DueAt(Typed(a), u)
  {
    hide ParseTime;
  }

  /** Every operation ever emitted was once pending, keeps its due second, and is alive when emitted. */
  lemma {:induction false} EveryOpIsTraced(h: seq<Reconcile>, c: string, j: nat, n: string) returns (u: int)
    requires History(h, c, n) && j < |h| && IsRestartName(c, n)
    requires Lookup(Output(h[j]).desired.entries, n).Some?
    ensures Traced(h, c, j, n, u)
    decreases j
  {
    hide Output, RestartPlan, IsRestartName, Lookup, DesiredObject, ObservedObject, OpResource, ScheduledOp,
         PendingRestart, DueAt, KeptAt, StillRecent;
    var r := h[j];
    var q := EmittedRequest(r, c, n);
    var comp := DecodeJson(r.io.desired.composite, Composite).value;
    RestartMember(r.io.observed, r.io.desired, r.clock, comp, q);
    var t := ScheduledTime(r.io.observed, comp);
    if t.Some? && n == OpResource(c, t.value.unix) && q.obj == ScheduledOp(c, t.value) {
      u := t.value.unix;
      ScheduledIsOp(c, t.value);
      ScheduledIsDue(c, t.value);
    } else {
      KeptFacts(r.io.observed, c, r.clock, n, q.obj);
      assert Echo(h, j, n);
      var i :| 0 <= i < j && Emitted(h[i], n).Ok? && SameOrder(q.obj, Emitted(h[i], n).value);
      EmittedIsPresent(h[i], n);
      u := EveryOpIsTraced(h, c, i, n);
      SameOrderSameDue(q.obj, Emitted(h[i], n).value, u);
      PendingSecondsGrow(h, i, j);
    }
  }

  lemma PlannedIsPresent(r: Reconcile, c: string, n: string)
    requires Fresh(r, c, n) && IsRestartName(c, n) && Succeeds(r)
    requires LastObject(RestartPlan(r.io.observed, r.io.desired.composite, r.clock), n).Some?
    ensures Lookup(Output(r).desired.entries, n).Some?
  {
    hide Carry, RestartPlan, IsRestartName, Lookup, RunFive, DecodeJson, LastObject, DesiredObject, Effective,
         Typed, Succeeds;
    SucceedsMeans(r);
    RestartSlot(r.io, r.clock, r.draw, r.keys, c, n);
    CarryShows(r.io.desired.entries, RestartPlan(r.io.observed, r.io.desired.composite, r.clock), n);
  }

  lemma RecentIsKept(o: Observed, c: string, clock: Clock, n: string, op: Object, u: int)
    requires IsRestartName(c, n) && ObservedObject(o, Ops, n) == Ok(op) && DueAt(op, u) && StillRecent(o, clock, n, u)
    ensures KeptAt(o, c, clock, n, |o.resources|) == Some(op)
  {
    hide ObservedObject, IsRestartName, DueTime;
    var i: nat :| i < |o.resources| && o.resources[i].name == n && clock(i) <= (u + 30 * 24 * 3600) * 1_000_000_000;
    assert KeptHere(o, c, clock, n, i);
  }

  /** The restart transform of a run whose desired composite cannot be read fails. */
  lemma SuccessIsDecodable(r: Reconcile)
    requires Succeeds(r)
    ensures DecodeJson(r.io.desired.composite, Composite).Ok?
  {
    hide Succeeds, DecodeJson, KeepPlan, ScheduleRequests;
    SucceedsMeans(r);
  }

  lemma ObservedIsDue(h: seq<Reconcile>, c: string, j: nat, u: int)
    requires History(h, c, OpResource(c, u)) && j < |h|
    requires ObservedObject(h[j].io.observed, Ops, OpResource(c, u)).Ok?
    ensures DueAt(ObservedObject(h[j].io.observed, Ops, OpResource(c, u)).value, u)
  {
    hide Output, IsRestartName, Lookup, DesiredObject, ObservedObject, OpResource, DueTime, PendingSecond, Alive;
    var n := OpResource(c, u);
    OpResourceIsRestartName(c, u);
    assert Echo(h, j, n);
    var op := ObservedObject(h[j].io.observed, Ops, n).value;
    var i :| 0 <= i < j && Emitted(h[i], n).Ok? && SameOrder(op, Emitted(h[i], n).value);
    EmittedIsPresent(h[i], n);
    var v := EveryOpIsTraced(h, c, i, n);
    OpResourceInjective(c, u, v);
    SameOrderSameDue(op, Emitted(h[i], n).value, u);
  }

  /** Restart lifetime: in any history a successful reconcile leaves the operation for second u exactly
      when u is pending in it, or the operation is still observed and no more than 30 days past due,
      whatever the pending condition and the update strategy have become and whatever other operations
      are observed or desired. */
  lemma ExactlyTheLiving(h: seq<Reconcile>, c: string, j: nat, u: int)
    requires History(h, c, OpResource(c, u)) && j < |h| && Succeeds(h[j])
    ensures Lookup(Output(h[j]).desired.entries, OpResource(c, u)).Some? <==> Alive(h[j], OpResource(c, u), u)
  {
    hide Output, RestartPlan, IsRestartName, Lookup, DesiredObject, ObservedObject, OpResource, ScheduledOp,
         PendingRestart, DueTime, KeptAt, Succeeds, LastObject, PendingSeconds, StillRecent;
    var r, n := h[j], OpResource(c, u);
    OpResourceIsRestartName(c, u);
    SuccessIsDecodable(r);
    var comp := DecodeJson(r.io.desired.composite, Composite).value;
    if Lookup(Output(r).desired.entries, n).Some? {
      var v := EveryOpIsTraced(h, c, j, n);
      OpResourceInjective(c, u, v);
    }
    if Alive(r, n, u) {
      PlannedObject(r.io.observed, r.io.desired.composite, r.clock, comp, n);
      if PendingSecond(r) != Some(u) {
        ObservedIsDue(h, c, j, u);
        RecentIsKept(r.io.observed, c, r.clock, n, ObservedObject(r.io.observed, Ops, n).value, u);
      }
      PlannedIsPresent(r, c, n);
    }
  }

  /** Once more than 30 days past due and no longer pending, an operation never comes back, successful
      run or not, as long as no later reading of the clock is earlier. */
  lemma GoneForGood(h: seq<Reconcile>, c: string, j: nat, u: int, k: nat)
    requires History(h, c, OpResource(c, u)) && j <= k < |h|
    requires forall i :: j <= i < |h| ==> PendingSecond(h[i]) != Some(u)
    requires forall i, x: nat :: j <= i < |h| ==> h[i].clock(x) >= h[j].clock(0)
    requires h[j].clock(0) > (u + 30 * 24 * 3600) * 1_000_000_000
    ensures Lookup(Output(h[k]).desired.entries, OpResource(c, u)).None?
  {
    hide Output, IsRestartName, Lookup, DesiredObject, ObservedObject, OpResource, PendingSecond, DueTime,
         History, PendingSeconds;
    OpResourceIsRestartName(c, u);
    if Lookup(Output(h[k]).desired.entries, OpResource(c, u)).Some? {
      var v := EveryOpIsTraced(h, c, k, OpResource(c, u));
      OpResourceInjective(c, u, v);
      assert false;
    }
  }

  // ---------- Counting ----------

  /** The restart names present in what a reconcile leaves. */
  function RestartNamesIn(es: seq<Resource>, c: string): set<string> {
    set e | e in es && IsRestartName(c, e.name) :: e.name
  }

  /** Seconds that were pending in some reconcile up to j and are at most 30 days past at some reading
      of the clock during it. */
  ghost function RecentSeconds(h: seq<Reconcile>, j: nat): set<int>
    requires j < |h|
  {
    set u | u in PendingSeconds(h, j) && RecentIn(h[j], u)
  }

  ghost predicate RecentIn(r: Reconcile, u: int) {
    exists i: nat :: i < |r.io.observed.resources| && r.clock(i) <= (u + 30 * 24 * 3600) * 1_000_000_000
  }

  /** Names that each stand for a second of a set are no more than the set has members. */
  lemma {:induction false} CoveredSize(c: string, names: set<string>, us: set<int>)
    requires forall n :: n in names ==> exists u :: u in us && OpResource(c, u) == n
    ensures |names| <= |us|
    decreases names
  {
    hide OpResource;
    if names != {} {
      var n :| n in names;
      var u :| u in us && OpResource(c, u) == n;
      CoveredSize(c, names - {n}, us - {u});
    }
  }

  /** One operation per pending second: whatever the number of reconciles, a reconcile leaves at most one
      restart name for each distinct second in the retention window, and one more for what it has
      pending itself. */
  lemma OneOpPerSecond(h: seq<Reconcile>, c: string, j: nat)
    requires j < |h| && forall n :: IsRestartName(c, n) ==> History(h, c, n)
    ensures |RestartNamesIn(Output(h[j]).desired.entries, c)| <= |RecentSeconds(h, j)| + 1
  {
    hide Output, IsRestartName, Lookup, DesiredObject, ObservedObject, OpResource, PendingSecond, DueTime,
         History, PendingSeconds;
    var es := Output(h[j]).desired.entries;
    var us := RecentSeconds(h, j) + (match PendingSecond(h[j]) case None => {} case Some(u) => {u});
    forall n | n in RestartNamesIn(es, c) ensures exists u :: u in us && OpResource(c, u) == n {
      NamePresent(es, n);
      var u := EveryOpIsTraced(h, c, j, n);
      assert u in us;
    }
    CoveredSize(c, RestartNamesIn(es, c), us);
  }

  lemma NamePresent(es: seq<Resource>, n: string)
    requires exists e :: e in es && e.name == n
    ensures Lookup(es, n).Some?
  {
  }

  /** Names that are distinct stay so through the pipeline, so a restart name is one entry. */
  lemma NamesStayDistinct(r: Reconcile)
    requires DistinctEntries(r.io.desired.entries)
    ensures DistinctEntries(Output(r).desired.entries)
  {
    hide RunFive, DistinctEntries, Carry, AlertPlan, RestartPlan, LuksPlan;
    RunFiveIs(r.io, r.clock, r.draw, r.keys);
    var o, s := r.io.observed, r.io.desired;
    var e1 := AlertEntries(o, s.entries);
    var e2 := RestartEntries(o, s.composite, e1, r.clock);
    CarryKeepsDistinct(s.entries, AlertPlan(o));
    CarryKeepsDistinct(e1, RestartPlan(o, s.composite, r.clock));
    CarryKeepsDistinct(e2, LuksPlan(o, e2, r.keys));
  }

  lemma {:induction false} CarryKeepsDistinct(es: seq<Resource>, plan: seq<Request>)
    requires DistinctEntries(es)
    ensures DistinctEntries(Carry(es, plan).entries)
    decreases |plan|
  {
    hide PutIntoSlot, DistinctEntries, PutRaw;
    if plan != [] && plan[0].Emit? {
      var put := PutIntoSlot(Lookup(es, plan[0].kon), plan[0].obj, plan[0].kon, plan[0].refs);
      if put.Ok? {
        PutRawKeys(es, plan[0].kon, put.value);
        CarryKeepsDistinct(PutRaw(es, plan[0].kon, put.value), plan[1..]);
      }
    }
  }
}
