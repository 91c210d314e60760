/** When exactly the order of the five transforms does not matter: when no two of them write the same
    name. Only a restart operation can bear a name that another transform writes, and at a concrete
    input it does. */
module NameClash {
  import opened Base
  import opened Calendar
  import opened Payload
  import opened Store
  import opened Runtime
  import opened Plan
  import opened Writes
  import opened Alerting
  import opened Restart
  import opened Schedule
  import opened Luks
  import opened Pipeline
  import opened Postgres
  import opened Ordering

  // ---------- The last writer of a name ----------

  /** The writes of a list of transforms, in order. */
  function AllWrites(o: Observed, s: Store, ts: seq<Transform>): seq<Request>
    decreases |ts|
  {
    if ts == [] then [] else WritesOf(ts[0].func, o, s) + AllWrites(o, s, ts[1..])
  }

  lemma {:induction false} AllWritesKept(f: TransformFunc, o: Observed, s: Store, ts: seq<Transform>)
    requires !f.Custom? && forall t :: t in ts ==> !t.func.Custom? && KindOf(t.func) != KindOf(f)
    ensures AllWrites(o, Apply(f, o, s).store, ts) == AllWrites(o, s, ts)
    decreases |ts|
  {
    hide Apply, WritesOf, KindOf;
    if ts != [] {
      assert ts[0] in ts && forall t :: t in ts[1..] ==> t in ts;
      WritesKept(f, ts[0].func, o, s);
      AllWritesKept(f, o, s, ts[1..]);
    }
  }

  lemma OtherKinds(ts: seq<Transform>)
    requires ts != [] && DifferentKinds(ts)
    ensures DifferentKinds(ts[1..]) && !ts[0].func.Custom?
    ensures forall t :: t in ts[1..] ==> !t.func.Custom? && KindOf(t.func) != KindOf(ts[0].func)
  {
    hide KindOf;
  }

  /** A pipeline makes just these writes. */
  lemma {:induction false} RunWrites(o: Observed, s: Store, ts: seq<Transform>)
    requires DifferentKinds(ts)
    ensures AllWork(s.entries, AllWrites(o, s, ts))
    ensures RunStore(o, s, ts).entries == WriteAll(s.entries, AllWrites(o, s, ts))
    decreases |ts|
  {
    hide Apply, KindOf, DifferentKinds, PlanOf, EndOf, CompositeOf, DetailsOf, Carry, Effective, FailureOf, Works;
    if ts != [] {
      var f, next := ts[0].func, Apply(ts[0].func, o, s).store;
      OtherKinds(ts);
      ApplyParts(f, o, s);
      CarryIsWriteAll(s.entries, PlanOf(f, o, s));
      RunWrites(o, next, ts[1..]);
      AllWritesKept(f, o, s, ts[1..]);
      hide WriteAll;
      BackToStart(s.entries, WritesOf(f, o, s), AllWrites(o, s, ts[1..]));
    }
  }

  lemma BackToStart(es: seq<Resource>, a: seq<Request>, b: seq<Request>)
    requires AllWork(es, a) && AllWork(WriteAll(es, a), b)
    ensures AllWork(es, a + b) && WriteAll(es, a + b) == WriteAll(WriteAll(es, a), b)
  {
    hide WriteAll, Works;
    forall r | r in b ensures Works(Lookup(es, r.kon), r) {
      MalformedAfterAll(es, a, r.kon);
      WorksAlike(Lookup(es, r.kon), Lookup(WriteAll(es, a), r.kon), r);
    }
    WriteAllAppend(es, a, b);
  }

  lemma WorksAlike(slot: Option<Raw>, slot': Option<Raw>, r: Request)
    requires slot == Some(Malformed) <==> slot' == Some(Malformed)
    ensures Works(slot, r) <==> Works(slot', r)
  {
  }

  lemma {:induction false} AllAvoid(o: Observed, s: Store, ts: seq<Transform>, n: string)
    requires forall k :: 0 <= k < |ts| ==> Avoids(WritesOf(ts[k].func, o, s), n)
    ensures Avoids(AllWrites(o, s, ts), n)
    decreases |ts|
  {
    hide WritesOf;
    if ts != [] {
      AllAvoid(o, s, ts[1..], n);
    }
  }

  /** Transform j writes the name, and none after it does. */
  ghost predicate LastWriter(o: Observed, s: Store, ts: seq<Transform>, j: nat, n: string) {
    && j < |ts| && LastObject(WritesOf(ts[j].func, o, s), n).Some?
    && forall k :: j < k < |ts| ==> Avoids(WritesOf(ts[k].func, o, s), n)
  }

  lemma {:induction false} LastOfAll(o: Observed, s: Store, ts: seq<Transform>, j: nat, n: string)
    requires LastWriter(o, s, ts, j, n)
    ensures LastObject(AllWrites(o, s, ts), n) == LastObject(WritesOf(ts[j].func, o, s), n)
    decreases j
  {
    hide WritesOf, LastObject;
    LastObjectAppend(WritesOf(ts[0].func, o, s), AllWrites(o, s, ts[1..]), n);
    if j == 0 {
      AllAvoid(o, s, ts[1..], n);
      LastObjectAvoided(AllWrites(o, s, ts[1..]), n);
    } else {
      LastOfAll(o, s, ts[1..], j - 1, n);
    }
  }

  /** Under the name the pipeline leaves the last object of its last writer. */
  lemma LeftByLastWriter(o: Observed, s: Store, ts: seq<Transform>, j: nat, n: string)
    requires DifferentKinds(ts) && LastWriter(o, s, ts, j, n)
    ensures var left := LastObject(WritesOf(ts[j].func, o, s), n).value;
      DesiredObject(RunStore(o, s, ts).entries, ShapeOf(left.body), n) == Ok(Typed(left))
  {
    var writes := AllWrites(o, s, ts);
    RunWrites(o, s, ts);
    LastOfAll(o, s, ts, j, n);
    hide WritesOf, LastObject, WriteAll, AllWrites, RunStore, Lookup, DesiredObject, Typed, SlotAfter, Works,
         DifferentKinds;
    LookupWriteAll(s.entries, writes, n);
    assert forall q :: q in writes && q.Emit? && q.kon == n ==> Works(Lookup(s.entries, n), q);
    LastManifest(Lookup(s.entries, n), writes, n);
    DesiredObjectOf(RunStore(o, s, ts).entries, n, LastObject(writes, n).value);
  }

  // ---------- Who writes operations ----------

  lemma {:induction false} KeepsOps(o: Observed, c: string, clock: Clock, k: nat, r: Request)
    requires k <= |o.resources| && r in KeepPlan(o, c, clock, k)
    ensures r.Emit? && r.obj.body.OpsBody?
  {
    hide KeptOp;
    if r in KeepPlan(o, c, clock, k - 1) {
      KeepsOps(o, c, clock, k - 1, r);
    }
  }

  lemma RestartWritesOps(o: Observed, c: Raw, clock: Clock, r: Request)
    requires r in RestartPlan(o, c, clock) && r.Emit?
    ensures r.obj.body.OpsBody?
  {
    hide KeepPlan, PendingRestart, OpResource, PrintTime, OpName;
    var comp := DecodeJson(c, Composite);
    if comp.Ok? && r in KeepPlan(o, comp.value.meta.name, clock, |o.resources|) {
      KeepsOps(o, comp.value.meta.name, clock, |o.resources|, r);
    }
  }

  lemma AlertWritesNoOps(o: Observed, r: Request)
    requires r in AlertPlan(o) && r.Emit?
    ensures r.obj.body.AlertBody? || r.obj.body.SecretBody?
  {
    hide ConfigName, SecretName, PatchReference;
  }

  lemma LuksWritesNoOps(o: Observed, es: seq<Resource>, keys: Generator, r: Request)
    requires r in LuksPlan(o, es, keys) && r.Emit?
    ensures r.obj.body.ClusterBody? || r.obj.body.SecretBody?
  {
    hide DesiredObject, SecretRequest, SecretPlan;
    var comp := DecodeJson(o.composite, Composite);
    if comp.Ok? && comp.value.body.params.encryption {
      var cluster := DesiredObject(es, Cluster, "cluster").value;
      if r != ClusterRequest(cluster) {
        var plan := SecretPlan(o, comp.value, Pods(cluster), keys);
        var i :| 0 <= i < |plan| && plan[i] == r;
        SecretPlanAt(o, comp.value, Pods(cluster), keys, i);
        SecretRequestIsSecret(o, comp.value, i, keys);
      }
    }
  }

  lemma SecretRequestIsSecret(o: Observed, comp: Object, i: nat, keys: Generator)
    ensures var r := SecretRequest(o, comp, i, keys); r.Emit? ==> r.obj.body.SecretBody?
  {
    hide ObservedObject, KeyResource;
  }

  /** Only the restart transform writes operations, and it writes nothing else. */
  lemma WritesOps(f: TransformFunc, o: Observed, s: Store, n: string)
    requires !f.Custom? && LastObject(WritesOf(f, o, s), n).Some?
    ensures Typed(LastObject(WritesOf(f, o, s), n).value).gvk == OpsKind <==> f.RestartFunc?
  {
    hide AlertPlan, RestartPlan, LuksPlan, Effective, LastObject;
    LastObjectIsRequested(WritesOf(f, o, s), n);
    var r :| r in WritesOf(f, o, s) && r.Emit? && r.kon == n && LastObject(WritesOf(f, o, s), n) == Some(r.obj);
    PrefixMembers(WritesOf(f, o, s), PlanOf(f, o, s));
    match f {
      case AlertFunc => AlertWritesNoOps(o, r);
      case RestartFunc(clock) => RestartWritesOps(o, s.composite, clock, r);
      case PvcFunc(keys) => LuksWritesNoOps(o, s.entries, keys, r);
      case _ =>
    }
  }

  /** A manifest has one kind, whatever type it is read as. */
  lemma OneKind(es: seq<Resource>, fs: seq<Resource>, n: string, a: Shape, b: Shape)
    requires Lookup(es, n) == Lookup(fs, n) && DesiredObject(es, a, n).Ok? && DesiredObject(fs, b, n).Ok?
    ensures DesiredObject(es, a, n).value.gvk == DesiredObject(fs, b, n).value.gvk
  {
    hide Lookup, Overlay;
  }

  /** If the restart transform has the last word on a name in one order and another transform has it in
      another, the two orders leave different manifests. */
  lemma TwoLastWriters(o: Observed, s: Store, ts: seq<Transform>, i: nat, us: seq<Transform>, j: nat, n: string)
    requires DifferentKinds(ts) && DifferentKinds(us)
    requires LastWriter(o, s, ts, i, n) && LastWriter(o, s, us, j, n)
    requires ts[i].func.RestartFunc? && !us[j].func.RestartFunc?
    ensures !Same(RunStore(o, s, ts), RunStore(o, s, us))
  {
    NotCustomAt(us, j);
    hide DifferentKinds, WritesOf, LastObject, RunStore, DesiredObject, Lookup, Typed;
    LeftByLastWriter(o, s, ts, i, n);
    LeftByLastWriter(o, s, us, j, n);
    WritesOps(ts[i].func, o, s, n);
    WritesOps(us[j].func, o, s, n);
    var a, b := LastObject(WritesOf(ts[i].func, o, s), n).value, LastObject(WritesOf(us[j].func, o, s), n).value;
    if Same(RunStore(o, s, ts), RunStore(o, s, us)) {
      OneKind(RunStore(o, s, ts).entries, RunStore(o, s, us).entries, n, ShapeOf(a.body), ShapeOf(b.body));
      assert false;
    }
  }

  lemma NotCustomAt(us: seq<Transform>, j: nat)
    requires j < |us| && DifferentKinds(us)
    ensures !us[j].func.Custom?
  {
    hide KindOf;
  }

  // ---------- The exact condition ----------

  /** The table with the restart transform before the alerting, and with it at the end. */
  function RestartFirst(clock: Clock, draw: Draw, keys: Generator): seq<Transform> {
    var ts := PostgresFunctions(clock, draw, keys);
    [ts[0], ts[2], ts[1], ts[3], ts[4]]
  }

  function RestartLast(clock: Clock, draw: Draw, keys: Generator): seq<Transform> {
    var ts := PostgresFunctions(clock, draw, keys);
    [ts[0], ts[1], ts[3], ts[4], ts[2]]
  }

  lemma BothAreOrders(clock: Clock, draw: Draw, keys: Generator)
    ensures multiset(RestartFirst(clock, draw, keys)) == multiset(PostgresFunctions(clock, draw, keys))
    ensures multiset(RestartLast(clock, draw, keys)) == multiset(PostgresFunctions(clock, draw, keys))
  {
    SecondThirdSwapped(PostgresFunctions(clock, draw, keys));
    ThirdMovedLast(PostgresFunctions(clock, draw, keys));
  }

  lemma SecondThirdSwapped(ts: seq<Transform>)
    requires |ts| == 5
    ensures multiset([ts[0], ts[2], ts[1], ts[3], ts[4]]) == multiset(ts)
  {
    assert ts[..1] + [ts[1]] + [ts[2]] + ts[3..] == ts;
    assert ts[..1] + [ts[2]] + [ts[1]] + ts[3..] == [ts[0], ts[2], ts[1], ts[3], ts[4]];
  }

  lemma ThirdMovedLast(ts: seq<Transform>)
    requires |ts| == 5
    ensures multiset([ts[0], ts[1], ts[3], ts[4], ts[2]]) == multiset(ts)
  {
    assert ts[..2] + [ts[2]] + ts[3..] == ts;
    assert ts[..2] + ts[3..] + [ts[2]] == [ts[0], ts[1], ts[3], ts[4], ts[2]];
  }

  lemma {:induction false} Requested(rs: seq<Request>, r: Request)
    requires r in rs && r.Emit?
    ensures LastObject(rs, r.kon).Some?
    decreases |rs|
  {
    assert forall q :: q in rs <==> q == rs[0] || q in rs[1..];
    if r in rs[1..] {
      Requested(rs[1..], r);
    }
  }

  lemma AlertNeverMeetsLuks(o: Observed, s: Store, keys: Generator)
    ensures Disjoint(WritesOf(AlertFunc, o, s), WritesOf(PvcFunc(keys), o, s))
  {
    hide AlertPlan, LuksPlan, Effective;
    AlertMeetsLuks(o, s.entries, keys);
    PrefixMembers(WritesOf(AlertFunc, o, s), AlertPlan(o));
    PrefixMembers(WritesOf(PvcFunc(keys), o, s), LuksPlan(o, s.entries, keys));
  }

  /** Who has the last word, in the table and with restart before alerting. */
  lemma LastInBoth(o: Observed, s: Store, clock: Clock, draw: Draw, keys: Generator, n: string)
    requires LastObject(WritesOf(RestartFunc(clock), o, s), n).Some?
    requires LastObject(WritesOf(AlertFunc, o, s), n).Some?
    ensures LastWriter(o, s, PostgresFunctions(clock, draw, keys), 2, n)
    ensures LastWriter(o, s, RestartFirst(clock, draw, keys), 2, n)
  {
    hide WritesOf, LastObject;
    NoWrites(o, s, draw);
    AlertNeverMeetsLuks(o, s, keys);
    LastObjectIsRequested(WritesOf(AlertFunc, o, s), n);
  }

  /** A restart operation under a name that another transform writes makes some order leave another
      store than the table does. */
  lemma ClashMatters(o: Observed, s: Store, clock: Clock, draw: Draw, keys: Generator, other: TransformFunc,
      a: Request, b: Request) returns (us: seq<Transform>)
    requires other == AlertFunc || other == PvcFunc(keys)
    requires a in WritesOf(RestartFunc(clock), o, s) && b in WritesOf(other, o, s)
    requires a.Emit? && b.Emit? && a.kon == b.kon
    ensures multiset(us) == multiset(PostgresFunctions(clock, draw, keys))
    ensures !Same(RunStore(o, s, PostgresFunctions(clock, draw, keys)), RunStore(o, s, us))
  {
    hide PlanOf, Effective, LastObject, Same, RunStore, DifferentKinds, KindOf;
    var ts, n := PostgresFunctions(clock, draw, keys), a.kon;
    TableKinds(clock, draw, keys);
    BothAreOrders(clock, draw, keys);
    Requested(WritesOf(RestartFunc(clock), o, s), a);
    Requested(WritesOf(other, o, s), b);
    AlertNeverMeetsLuks(o, s, keys);
    NoWrites(o, s, draw);
    us := if other == AlertFunc then RestartFirst(clock, draw, keys) else RestartLast(clock, draw, keys);
    KindsOfPermutation(ts, us);
    hide WritesOf;
    if other == AlertFunc {
      LastInBoth(o, s, clock, draw, keys, n);
      TwoLastWriters(o, s, ts, 2, us, 2, n);
    } else {
      assert LastWriter(o, s, ts, 4, n) && LastWriter(o, s, us, 4, n);
      TwoLastWriters(o, s, us, 4, ts, 4, n);
      SameBack(RunStore(o, s, ts), RunStore(o, s, us));
    }
  }

  lemma NoWrites(o: Observed, s: Store, draw: Draw)
    ensures WritesOf(UrlFunc, o, s) == [] && WritesOf(ScheduleFunc(draw), o, s) == []
  {
  }

  lemma SameBack(s: Store, t: Store)
    ensures Same(s, t) ==> Same(t, s)
  {
    hide Lookup;
  }

  /** Two transforms of the table that write one name are the restart transform and another. */
  lemma WhoClashes(o: Observed, s: Store, clock: Clock, draw: Draw, keys: Generator)
      returns (other: TransformFunc, a: Request, b: Request)
    requires !NoClash(o, s, PostgresFunctions(clock, draw, keys))
    ensures other == AlertFunc || other == PvcFunc(keys)
    ensures a in WritesOf(RestartFunc(clock), o, s) && b in WritesOf(other, o, s)
    ensures a.Emit? && b.Emit? && a.kon == b.kon
  {
    hide WritesOf, PostgresFunctions;
    var ts := PostgresFunctions(clock, draw, keys);
    var t, u :| t in ts && u in ts && KindOf(t.func) != KindOf(u.func)
      && !Disjoint(WritesOf(t.func, o, s), WritesOf(u.func, o, s));
    a, b :| a in WritesOf(t.func, o, s) && b in WritesOf(u.func, o, s) && a.Emit? && b.Emit? && a.kon == b.kon;
    AlertNeverMeetsLuks(o, s, keys);
    Writers(o, s, clock, draw, keys, t);
    Writers(o, s, clock, draw, keys, u);
    if t.func.RestartFunc? {
      other := u.func;
    } else {
      other, a, b := t.func, b, a;
    }
  }

  lemma Writers(o: Observed, s: Store, clock: Clock, draw: Draw, keys: Generator, t: Transform)
    requires t in PostgresFunctions(clock, draw, keys) && WritesOf(t.func, o, s) != []
    ensures t.func in [AlertFunc, RestartFunc(clock), PvcFunc(keys)]
  {
    NoWrites(o, s, draw);
    hide WritesOf;
  }

  /** Exact order independence: every order of the table has the outcome of the table itself exactly on
      the inputs where no name is written by two of the transforms. */
  lemma AnyOrderExactly(io: FunctionIO, clock: Clock, draw: Draw, keys: Generator)
    ensures (forall us :: multiset(us) == multiset(PostgresFunctions(clock, draw, keys)) ==>
              SameOutcome(io, clock, draw, keys, us))
       <==> NoClash(io.observed, io.desired, PostgresFunctions(clock, draw, keys))
  {
    hide NoClash, PostgresFunctions, SameOutcome, WritesOf;
    var ts := PostgresFunctions(clock, draw, keys);
    if NoClash(io.observed, io.desired, ts) {
      forall us | multiset(us) == multiset(ts) ensures SameOutcome(io, clock, draw, keys, us) {
        PipelineInAnyOrder(io, clock, draw, keys, us);
      }
    } else {
      var other, a, b := WhoClashes(io.observed, io.desired, clock, draw, keys);
      var us := ClashMatters(io.observed, io.desired, clock, draw, keys, other, a, b);
      OutcomeIsStore(io, clock, draw, keys, us);
    }
  }

  lemma OutcomeIsStore(io: FunctionIO, clock: Clock, draw: Draw, keys: Generator, us: seq<Transform>)
    ensures RunFive(io, clock, draw, keys).desired
         == RunStore(io.observed, io.desired, PostgresFunctions(clock, draw, keys))
    ensures RunAll(Load(io), us).io.desired == RunStore(io.observed, io.desired, us)
    ensures SameOutcome(io, clock, draw, keys, us) ==>
      Same(RunStore(io.observed, io.desired, PostgresFunctions(clock, draw, keys)),
           RunStore(io.observed, io.desired, us))
  {
    hide PostgresFunctions, RunAll, RunStore, Load, Same;
    RunAllParts(io, us);
    RunAllParts(io, PostgresFunctions(clock, draw, keys));
  }

  // ---------- An input where it does ----------

  /** Observed and desired composite with different names; the alerting of the first and an observed
      restart operation of the second, due at t, meet under one name. */
  const OBSERVED_COMPOSITE: Object :=
    Object(CompositeKind, NO_META.(name := "a-pg-restart"),
           CompositeBody(Parameters("", "", "", "", false, "config", "secret", None), "namespace", ""))

  const DESIRED_COMPOSITE: Object :=
    Object(CompositeKind, NO_META.(name := "a"),
           CompositeBody(Parameters("", "", "", ON_RESTART, false, "", "", None), "", ""))

  const CLASH: string := ConfigName(OBSERVED_COMPOSITE)

  function ClashOp(t: Time): Object
    requires Printable(t)
  {
    Object(OpsKind, NO_META, OpsBody("restart", Some(PrintTime(t)), "a", None, ""))
  }

  function ClashInput(t: Time): FunctionIO
    requires Printable(t)
  {
    var seen := Encode(EMPTY_KUBE.(body := KubeBody("", [], Null, Encode(ClashOp(t)), "")));
    FunctionIO("", Observed([Resource(CLASH, seen, "")], Encode(OBSERVED_COMPOSITE), []),
               Store([], Encode(DESIRED_COMPOSITE), []), [])
  }

  lemma ClashIsRestartName()
    ensures IsRestartName("a", CLASH)
  {
    assert CLASH == ("a" + "-pg-restart") + "-alertmanagerconfig";
  }

  lemma ClashIsObserved(t: Time, n: string, c: Raw)
    requires Printable(t)
    ensures var seen := Encode(EMPTY_KUBE.(body := KubeBody("", [], Null, Encode(ClashOp(t)), "")));
      ObservedObject(Observed([Resource(n, seen, "")], c, []), Ops, n) == Ok(ClashOp(t))
  {
    hide PrintTime;
  }

  lemma ClashIsDue(t: Time)
    requires Printable(t)
    ensures var op := ClashOp(t); op.body.OpsBody? && op.gvk == OpsKind && DueTime(op) == Some(t.(nanos := 0))
  {
    ParsePrintTime(t);
    hide PrintTime, ParseTime;
  }

  lemma ClashKeep(t: Time, clock: Clock)
    requires Printable(t) && clock(0) <= t.unix * NANOS + RETENTION
    ensures RestartPlan(ClashInput(t).observed, Encode(DESIRED_COMPOSITE), clock) == [Emit(ClashOp(t), CLASH, [], None)]
  {
    var o, op := ClashInput(t).observed, ClashOp(t);
    ClashIsObserved(t, CLASH, Encode(OBSERVED_COMPOSITE));
    ClashIsDue(t);
    ClashIsRestartName();
    hide ObservedObject, DueTime, IsRestartName, ClashOp, CLASH;
    OneKept(o, DESIRED_COMPOSITE, clock, CLASH, op);
  }

  lemma OneKept(o: Observed, comp: Object, clock: Clock, n: string, op: Object)
    requires comp.body.CompositeBody? && comp.body.params.updateStrategy == ON_RESTART
    requires |o.resources| == 1 && o.resources[0].name == n && IsRestartName(comp.meta.name, n)
    requires ObservedObject(o, Ops, n) == Ok(op) && op.body.OpsBody?
    requires DueTime(op).Some? && Recent(DueTime(op).value, clock(0))
    ensures RestartPlan(o, Encode(comp), clock) == [Emit(op, n, [], None)]
  {
    hide ObservedObject, DueTime, IsRestartName, Recent, KeepPlan, PendingRestart, ScheduledOp, OpResource;
    OneInPlan(o, comp.meta.name, clock);
    assert KeptOp(o, comp.meta.name, clock(0), n) == Some(op);
    assert ScheduleRequests(o, comp) == [];
  }

  lemma OneInPlan(o: Observed, c: string, clock: Clock)
    requires |o.resources| == 1
    ensures KeepPlan(o, c, clock, 1) == KeepRequests(o, c, clock(0), o.resources[0].name)
  {
    hide KeepRequests;
    assert KeepPlan(o, c, clock, 0) == [];
  }

  lemma ClashAlert(o: Observed)
    requires o.composite == Encode(OBSERVED_COMPOSITE)
    ensures AlertPlan(o) == [FromRef(OBSERVED_COMPOSITE), FromSecret(OBSERVED_COMPOSITE)]
  {
    hide FromRef, FromSecret;
  }

  lemma AlertRequests(comp: Object)
    requires comp.body.CompositeBody?
    ensures var config, secret := FromRef(comp), FromSecret(comp);
      && config.Emit? && secret.Emit? && config.kon == ConfigName(comp) && secret.kon != ConfigName(comp)
      && config.obj.body.AlertBody? && secret.obj.body.SecretBody?
  {
    assert |ConfigName(comp)| < |SecretName(comp)|;
  }

  lemma ClashParts(t: Time)
    requires Printable(t)
    ensures OBSERVED_COMPOSITE.body.CompositeBody? && CLASH == ConfigName(OBSERVED_COMPOSITE)
    ensures ClashInput(t).observed.composite == Encode(OBSERVED_COMPOSITE)
    ensures ClashInput(t).desired.entries == [] && ClashInput(t).desired.composite == Encode(DESIRED_COMPOSITE)
  {
    hide ClashOp;
  }

  /** What a plan writes on an empty store. */
  lemma WritesOnNothing(plan: seq<Request>)
    requires forall r :: r in plan ==> r.Emit? && Registered(r.obj.body).Some?
    ensures Effective([], plan) == plan
  {
    assert forall n :: Lookup([], n) == None;
    AllRegisteredWorks([], plan);
  }

  lemma LastOfTwo(config: Request, secret: Request)
    requires config.Emit? && secret.Emit? && secret.kon != config.kon
    ensures LastObject([config, secret], config.kon) == Some(config.obj)
  {
    hide LastObject;
    LastOfOne(config, config.kon);
    LastOfOne(secret, config.kon);
    LastObjectAppend([config], [secret], config.kon);
    assert [config] + [secret] == [config, secret];
  }

  lemma LastOfOne(r: Request, n: string)
    requires r.Emit?
    ensures LastObject([r], n) == if r.kon == n then Some(r.obj) else None
  {
    assert LastObject([r][1..], n) == None;
  }

  lemma OpIsTyped(op: Object, config: Object)
    requires op.body.OpsBody? && op.gvk == OpsKind && config.body.AlertBody?
    ensures Typed(op) == op && ShapeOf(op.body) == Ops && ShapeOf(config.body) == Alert
  {
  }

  lemma WhatIsWritten(o: Observed, s: Store, clock: Clock, op: Request, config: Request, secret: Request)
    requires s.entries == [] && RestartPlan(o, s.composite, clock) == [op] && AlertPlan(o) == [config, secret]
    requires op.Emit? && config.Emit? && secret.Emit? && secret.kon != config.kon
    requires op.obj.body.OpsBody? && config.obj.body.AlertBody? && secret.obj.body.SecretBody?
    ensures LastObject(WritesOf(RestartFunc(clock), o, s), op.kon) == Some(op.obj)
    ensures LastObject(WritesOf(AlertFunc, o, s), config.kon) == Some(config.obj)
  {
    hide AlertPlan, RestartPlan, Effective, LastObject;
    WritesOnNothing([op]);
    WritesOnNothing([config, secret]);
    LastOfOne(op, op.kon);
    LastOfTwo(config, secret);
  }

  /** What the table and the order with restart before alerting leave under a name both write. */
  lemma BothOutcomes(o: Observed, s: Store, clock: Clock, draw: Draw, keys: Generator, n: string)
    requires LastObject(WritesOf(RestartFunc(clock), o, s), n).Some?
    requires LastObject(WritesOf(AlertFunc, o, s), n).Some?
    ensures var op := LastObject(WritesOf(RestartFunc(clock), o, s), n).value;
      var config := LastObject(WritesOf(AlertFunc, o, s), n).value;
      var ts, us := PostgresFunctions(clock, draw, keys), RestartFirst(clock, draw, keys);
      && DesiredObject(RunStore(o, s, ts).entries, ShapeOf(op.body), n) == Ok(Typed(op))
      && DesiredObject(RunStore(o, s, us).entries, ShapeOf(config.body), n) == Ok(Typed(config))
      && !Same(RunStore(o, s, ts), RunStore(o, s, us))
  {
    hide WritesOf, LastObject, RunStore, DesiredObject, Same, Typed, DifferentKinds, KindOf, LastWriter;
    var ts, us := PostgresFunctions(clock, draw, keys), RestartFirst(clock, draw, keys);
    TableKinds(clock, draw, keys);
    BothAreOrders(clock, draw, keys);
    KindsOfPermutation(ts, us);
    LastInBoth(o, s, clock, draw, keys, n);
    LeftByLastWriter(o, s, ts, 2, n);
    LeftByLastWriter(o, s, us, 2, n);
    TwoLastWriters(o, s, ts, 2, us, 2, n);
  }

  /** With two names the order can matter: here the table leaves the restart operation under the shared
      name, and with restart before alerting it leaves the alertmanager config there. */
  lemma OrderMatters(t: Time, clock: Clock, draw: Draw, keys: Generator)
    requires Printable(t) && clock(0) <= t.unix * NANOS + RETENTION
    ensures multiset(RestartFirst(clock, draw, keys)) == multiset(PostgresFunctions(clock, draw, keys))
    ensures var one := RunFive(ClashInput(t), clock, draw, keys).desired;
      var other := RunAll(Load(ClashInput(t)), RestartFirst(clock, draw, keys)).io.desired;
      && DesiredObject(one.entries, Ops, CLASH) == Ok(ClashOp(t))
      && DesiredObject(other.entries, Alert, CLASH) == Ok(Typed(FromRef(OBSERVED_COMPOSITE).obj))
      && !Same(one, other)
  {
    hide *;
    assert OBSERVED_COMPOSITE.body.CompositeBody? by { ClashParts(t); }
    var o, s := ClashInput(t).observed, ClashInput(t).desired;
    var op := Emit(ClashOp(t), CLASH, [], None);
    var config, secret := FromRef(OBSERVED_COMPOSITE), FromSecret(OBSERVED_COMPOSITE);
    ClashParts(t);
    ClashKeep(t, clock);
    ClashAlert(o);
    AlertRequests(OBSERVED_COMPOSITE);
    ClashIsDue(t);
    OpIsTyped(op.obj, config.obj);
    WhatIsWritten(o, s, clock, op, config, secret);
    OutcomeIsStore(ClashInput(t), clock, draw, keys, RestartFirst(clock, draw, keys));
    BothAreOrders(clock, draw, keys);
    BothOutcomes(o, s, clock, draw, keys, CLASH);
  }
}
