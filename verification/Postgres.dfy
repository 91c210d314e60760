/** The five PostgreSQL transforms run one after the other: whom each of them writes to, and what a
    second reconcile of the same world does. */
module Postgres {
  import opened Base
  import opened Decimal
  import opened Payload
  import opened Store
  import opened Runtime
  import opened Plan
  import opened Writes
  import opened Url
  import opened Alerting
  import opened Restart
  import opened Schedule
  import opened Luks
  import opened Pipeline

  /** The entries after each resource-writing transform. */
  function AlertEntries(o: Observed, es: seq<Resource>): seq<Resource> { Carry(es, AlertPlan(o)).entries }

  function RestartEntries(o: Observed, c: Raw, es: seq<Resource>, clock: Clock): seq<Resource> {
    Carry(es, RestartPlan(o, c, clock)).entries
  }

  function LuksEntries(o: Observed, es: seq<Resource>, keys: Generator): seq<Resource> {
    Carry(es, LuksPlan(o, es, keys)).entries
  }

  function AllEntries(o: Observed, s: Store, clock: Clock, keys: Generator): seq<Resource> {
    LuksEntries(o, RestartEntries(o, s.composite, AlertEntries(o, s.entries), clock), keys)
  }

  /** The store the five transforms leave. */
  function FinalStore(o: Observed, s: Store, clock: Clock, draw: Draw, keys: Generator): Store {
    Store(AllEntries(o, s, clock, keys), ScheduledComposite(s.composite, draw), UrlOutcome(o, s).store.details)
  }

  /** Their five results. */
  function FinalResults(o: Observed, s: Store, clock: Clock, draw: Draw, keys: Generator): seq<Result> {
    var e1 := AlertEntries(o, s.entries);
    var e2 := RestartEntries(o, s.composite, e1, clock);
    var ts := PostgresFunctions(clock, draw, keys);
    [ Reported(ts[0], UrlOutcome(o, s).result),
      Reported(ts[1], AlertOutcome(o, s).result),
      Reported(ts[2], RestartOutcome(o, s.(entries := e1), clock).result),
      Reported(ts[3], ScheduleOutcome(s, draw).result),
      Reported(ts[4], LuksOutcome(o, s.(entries := e2), keys).result) ]
  }

  /** The five reports: the severity of each transform, and its message under its name. */
  lemma FiveReports(o: Observed, s: Store, clock: Clock, draw: Draw, keys: Generator)
    ensures var rs := FinalResults(o, s, clock, draw, keys);
      var url, alert, schedule := UrlOutcome(o, s).result, AlertOutcome(o, s).result, ScheduleOutcome(s, draw).result;
      var e1 := AlertEntries(o, s.entries);
      var restart := RestartOutcome(o, s.(entries := e1), clock).result;
      var luks := LuksOutcome(o, s.(entries := RestartEntries(o, s.composite, e1, clock)), keys).result;
      && rs == [ Result(url.severity, FromFunction("url-connection-detail", url.message)),
                 Result(alert.severity, FromFunction("user-alerting", alert.message)),
                 Result(restart.severity, FromFunction("restart", restart.message)),
                 Result(schedule.severity, FromFunction("random-default-schedule", schedule.message)),
                 Result(luks.severity, FromFunction("encrypted-pvc-secret", luks.message)) ]
  {
    hide UrlOutcome, AlertOutcome, ScheduleOutcome, RestartOutcome, LuksOutcome;
  }

  function RunFive(io: FunctionIO, clock: Clock, draw: Draw, keys: Generator): FunctionIO {
    RunAll(Load(io), PostgresFunctions(clock, draw, keys)).io
  }

  lemma RunFiveIs(io: FunctionIO, clock: Clock, draw: Draw, keys: Generator)
    ensures RunFive(io, clock, draw, keys)
         == io.(desired := FinalStore(io.observed, io.desired, clock, draw, keys),
                results := io.results + FinalResults(io.observed, io.desired, clock, draw, keys))
  {
    hide Carry, AlertPlan, RestartPlan, LuksPlan, AlertEnd, RestartEnd, ScheduledComposite, DecodeJson,
         PutDetail, ObservedObject, PostgresUrl;
    var ts := PostgresFunctions(clock, draw, keys);
    var s0 := Load(io);
    var s1 := ExecState(s0, ts[0]);
    var s2 := ExecState(s1, ts[1]);
    var s3 := ExecState(s2, ts[2]);
    var s4 := ExecState(s3, ts[3]);
    var s5 := ExecState(s4, ts[4]);
    assert s1.store == io.desired.(details := UrlOutcome(io.observed, io.desired).store.details);
    assert s2.store == s1.store.(entries := AlertEntries(io.observed, io.desired.entries));
    assert s3.store.entries == RestartEntries(io.observed, io.desired.composite, s2.store.entries, clock);
    assert RunAll(s0, ts) == s5 by {
      assert ts[1..][1..] == ts[2..] && ts[2..][1..] == ts[3..] && ts[3..][1..] == ts[4..] && ts[4..][1..] == [];
      assert RunAll(s4, ts[4..]) == RunAll(s5, []);
      assert RunAll(s3, ts[3..]) == RunAll(s4, ts[4..]);
      assert RunAll(s2, ts[2..]) == RunAll(s3, ts[3..]);
      assert RunAll(s1, ts[1..]) == RunAll(s2, ts[2..]);
    }
  }

  // ---------- Who writes where ----------

  lemma HasDash(prefix: string, rest: string)
    requires rest != "" && rest[0] == '-'
    ensures prefix + rest != "cluster"
  {
    assert (prefix + rest)[|prefix|] == '-';
    assert forall k :: 0 <= k < |"cluster"| ==> "cluster"[k] != '-';
  }

  lemma AlertNames(o: Observed, r: Request)
    requires r in AlertPlan(o) && r.Emit?
    ensures DecodeJson(o.composite, Composite).Ok?
    ensures var comp := DecodeJson(o.composite, Composite).value; r.kon == ConfigName(comp) || r.kon == SecretName(comp)
  {
    hide ConfigName, SecretName;
  }

  lemma {:induction false} KeepNames(o: Observed, compName: string, clock: Clock, n: nat, r: Request)
    requires n <= |o.resources| && r in KeepPlan(o, compName, clock, n)
    ensures r.Emit? && IsRestartName(compName, r.kon)
  {
    hide ObservedObject, DueTime, Recent, IsRestartName;
    if r in KeepPlan(o, compName, clock, n - 1) {
      KeepNames(o, compName, clock, n - 1, r);
    }
  }

  lemma OpResourceIsRestartName(compName: string, unix: int)
    ensures IsRestartName(compName, OpResource(compName, unix))
  {
    hide PrintInt;
    var prefix := compName + "-pg-restart";
    assert OpResource(compName, unix) == prefix + ("-" + PrintInt(unix));
  }

  lemma RestartNames(o: Observed, c: Raw, clock: Clock, r: Request)
    requires r in RestartPlan(o, c, clock) && r.Emit?
    ensures DecodeJson(c, Composite).Ok? && IsRestartName(DecodeJson(c, Composite).value.meta.name, r.kon)
  {
    hide ObservedObject, IsRestartName, OpResource, ScheduledOp, PendingRestart, KeepPlan;
    var comp := DecodeJson(c, Composite);
    if comp.Ok? {
      if r in KeepPlan(o, comp.value.meta.name, clock, |o.resources|) {
        KeepNames(o, comp.value.meta.name, clock, |o.resources|, r);
      } else {
        assert r in ScheduleRequests(o, comp.value);
        OpResourceIsRestartName(comp.value.meta.name, PendingRestart(o).value.unix);
      }
    }
  }

  lemma {:induction false} SecretPlanAt(o: Observed, comp: Object, n: nat, keys: Generator, i: nat)
    requires i < n
    ensures SecretPlan(o, comp, n, keys)[i] == SecretRequest(o, comp, i, keys)
  {
    hide SecretRequest;
    if i < n - 1 {
      SecretPlanAt(o, comp, n - 1, keys, i);
    }
  }

  lemma SecretRequestName(o: Observed, comp: Object, i: nat, keys: Generator)
    ensures var r := SecretRequest(o, comp, i, keys); r.Emit? ==> r.kon == KeyResource(comp.meta.name, i)
  {
    hide ObservedObject, KeyResource;
  }

  lemma LuksNames(o: Observed, es: seq<Resource>, keys: Generator, r: Request)
    requires r in LuksPlan(o, es, keys) && r.Emit?
    ensures DecodeJson(o.composite, Composite).Ok?
    ensures var c := DecodeJson(o.composite, Composite).value.meta.name;
      r.kon == "cluster" || exists i: nat :: r.kon == KeyResource(c, i)
  {
    hide DesiredObject, SecretRequest, KeyResource;
    var comp := DecodeJson(o.composite, Composite);
    if comp.Ok? && comp.value.body.params.encryption {
      var cluster := DesiredObject(es, Cluster, "cluster").value;
      if r != ClusterRequest(cluster) {
        var plan := SecretPlan(o, comp.value, Pods(cluster), keys);
        var i :| 0 <= i < |plan| && plan[i] == r;
        SecretPlanAt(o, comp.value, Pods(cluster), keys, i);
        SecretRequestName(o, comp.value, i, keys);
      }
    }
  }

  /** Only the encryption transform writes the cluster. */
  lemma OthersAvoidCluster(o: Observed, c: Raw, clock: Clock)
    ensures Avoids(AlertPlan(o), "cluster") && Avoids(RestartPlan(o, c, clock), "cluster")
  {
    hide AlertPlan, RestartPlan;
    forall r | r in AlertPlan(o) && r.Emit? ensures r.kon != "cluster" {
      AlertNames(o, r);
      var comp := DecodeJson(o.composite, Composite).value;
      HasDash(comp.meta.name, "-alertmanagerconfig");
      HasDash(comp.meta.name, "-alertmanagerconfigsecret");
    }
    forall r | r in RestartPlan(o, c, clock) && r.Emit? ensures r.kon != "cluster" {
      RestartNames(o, c, clock, r);
      RestartNameHasDash(DecodeJson(c, Composite).value.meta.name, r.kon);
    }
  }

  lemma RestartNameHasDash(compName: string, n: string)
    requires IsRestartName(compName, n)
    ensures |n| > |compName| && n[..|compName|] == compName && n[|compName|..|compName| + 2] == "-p" && n != "cluster"
  {
    var prefix := compName + "-pg-restart";
    assert n == prefix + n[|prefix|..];
    assert n == compName + ("-pg-restart" + n[|prefix|..]);
    HasDash(compName, "-pg-restart" + n[|prefix|..]);
  }

  lemma ClusterSlot(o: Observed, s: Store, clock: Clock)
    ensures Lookup(RestartEntries(o, s.composite, AlertEntries(o, s.entries), clock), "cluster")
        == Lookup(s.entries, "cluster")
  {
    hide Carry, AlertPlan, RestartPlan, Lookup;
    OthersAvoidCluster(o, s.composite, clock);
    CarryAvoids(s.entries, AlertPlan(o), "cluster");
    CarryAvoids(AlertEntries(o, s.entries), RestartPlan(o, s.composite, clock), "cluster");
  }

  /** The encryption plan reads nothing of the store but the cluster. */
  lemma LuksReadsCluster(o: Observed, es: seq<Resource>, es': seq<Resource>, keys: Generator)
    requires Lookup(es, "cluster") == Lookup(es', "cluster")
    ensures LuksPlan(o, es, keys) == LuksPlan(o, es', keys)
  {
    hide Lookup, SecretPlan;
  }

  // ---------- Doing it all again ----------

  /** Pod k has its key secret observed, readable, and an entry that can be written to, or none. */
  ghost predicate Servable(o: Observed, es: seq<Resource>, c: string, k: nat) {
    ObservedObject(o, Secret, KeyResource(c, k)).Ok? && Lookup(es, KeyResource(c, k)) != Some(Malformed)
  }

  /** No pod before this one stops the loop, whatever the key generator gives. */
  ghost predicate Reached(o: Observed, es: seq<Resource>, c: string, i: nat) {
    forall k: nat :: k < i ==> Servable(o, es, c, k)
  }

  ghost predicate KeysNeeded(o: Observed, es: seq<Resource>, c: string, n: nat) {
    forall i: nat :: i < n && Reached(o, es, c, i) ==> ObservedObject(o, Secret, KeyResource(c, i)) != Err(NotFound)
  }

  /** The same, but for a pod whose entry cannot be written to: there the loop stops with any key. */
  ghost predicate KeysUsed(o: Observed, es: seq<Resource>, c: string, n: nat) {
    forall i: nat :: i < n && Reached(o, es, c, i) && ObservedObject(o, Secret, KeyResource(c, i)) == Err(NotFound) ==>
      CannotDecode(es, KeyResource(c, i))
  }

  /** The two generators make no difference to the pods below n: one that is reached without an observed
      secret has an entry that cannot be written to, and both give it a key or neither does. */
  ghost predicate NoDifference(o: Observed, es: seq<Resource>, c: string, n: nat, keys: Generator, later: Generator) {
    forall i: nat :: i < n && Reached(o, es, c, i) && ObservedObject(o, Secret, KeyResource(c, i)) == Err(NotFound) ==>
      CannotDecode(es, KeyResource(c, i)) && (keys(i).Some? <==> later(i).Some?)
  }

  /** The pods that the encryption transform is to serve, and the name of their composite. */
  ghost function PodsToServe(o: Observed, es: seq<Resource>): (string, nat) {
    match DecodeJson(o.composite, Composite)
    case Err(_) => ("", 0)
    case Ok(comp) =>
      if !comp.body.params.encryption then (comp.meta.name, 0)
      else
        match DesiredObject(es, Cluster, "cluster")
        case Err(_) => (comp.meta.name, 0)
        case Ok(cluster) => (comp.meta.name, if cluster.body.instances > 0 then cluster.body.instances else 0)
  }

  /** Every pod the encryption transform gets to has its key secret observed, readable or not. */
  ghost predicate KeysObserved(o: Observed, es: seq<Resource>) {
    KeysNeeded(o, es, PodsToServe(o, es).0, PodsToServe(o, es).1)
  }

  /** Every pod it gets to has its key secret observed or an entry that cannot be written to. */
  ghost predicate KeysObservedOrUnused(o: Observed, es: seq<Resource>) {
    KeysUsed(o, es, PodsToServe(o, es).0, PodsToServe(o, es).1)
  }

  ghost predicate Indifferent(o: Observed, es: seq<Resource>, keys: Generator, later: Generator) {
    NoDifference(o, es, PodsToServe(o, es).0, PodsToServe(o, es).1, keys, later)
  }

  /** Then what the pods' requests do, and how they end, does not depend on the generator. */
  lemma {:induction false} SameSecrets(o: Observed, es: seq<Resource>, comp: Object, n: nat, keys: Generator,
      later: Generator)
    requires NoDifference(o, es, comp.meta.name, n, keys, later)
    ensures var a, b := SecretPlan(o, comp, n, keys), SecretPlan(o, comp, n, later);
      && Effective(es, a) == Effective(es, b)
      && FailureOf(es, a) == FailureOf(es, b)
      && (FailureOf(es, a).None? ==> a == b && Reached(o, es, comp.meta.name, n))
  {
    hide ObservedObject, KeyResource, CannotDecode, Lookup, Effective, FailureOf, SecretRequest;
    if n == 0 {
      assert Reached(o, es, comp.meta.name, 0);
    } else {
      SameSecrets(o, es, comp, n - 1, keys, later);
      EffectiveAppend(es, SecretPlan(o, comp, n - 1, keys), [SecretRequest(o, comp, n - 1, keys)]);
      EffectiveAppend(es, SecretPlan(o, comp, n - 1, later), [SecretRequest(o, comp, n - 1, later)]);
      if FailureOf(es, SecretPlan(o, comp, n - 1, keys)).None? {
        if ObservedObject(o, Secret, KeyResource(comp.meta.name, n - 1)) == Err(NotFound) {
          StuckRequest(o, es, comp, n - 1, keys, later);
        } else {
          SameRequest(o, es, comp, n - 1, keys, later);
        }
      }
    }
  }

  /** Where the entry cannot be written to the request fails in the same way with any key. */
  lemma StuckRequest(o: Observed, es: seq<Resource>, comp: Object, i: nat, keys: Generator, later: Generator)
    requires ObservedObject(o, Secret, KeyResource(comp.meta.name, i)) == Err(NotFound)
    requires CannotDecode(es, KeyResource(comp.meta.name, i)) && (keys(i).Some? <==> later(i).Some?)
    ensures var a, b := [SecretRequest(o, comp, i, keys)], [SecretRequest(o, comp, i, later)];
      Effective(es, a) == Effective(es, b) == [] && FailureOf(es, a) == FailureOf(es, b) && FailureOf(es, a).Some?
  {
    hide ObservedObject, KeyResource, Lookup;
  }

  lemma SameRequest(o: Observed, es: seq<Resource>, comp: Object, i: nat, keys: Generator, later: Generator)
    requires ObservedObject(o, Secret, KeyResource(comp.meta.name, i)) != Err(NotFound)
    ensures SecretRequest(o, comp, i, keys) == SecretRequest(o, comp, i, later)
    ensures FailureOf(es, [SecretRequest(o, comp, i, keys)]).None? <==> Servable(o, es, comp.meta.name, i)
  {
    hide ObservedObject, KeyResource, Lookup;
    var r := SecretRequest(o, comp, i, keys);
    assert FailureOf(es, [r][1..]).None?;
  }

  lemma SecretPlanAvoidsCluster(o: Observed, comp: Object, n: nat, keys: Generator)
    ensures Avoids(SecretPlan(o, comp, n, keys), "cluster")
  {
    hide SecretPlan, SecretRequest;
    var plan := SecretPlan(o, comp, n, keys);
    forall r | r in plan && r.Emit? ensures r.kon != "cluster" {
      var i :| 0 <= i < |plan| && plan[i] == r;
      SecretPlanAt(o, comp, n, keys, i);
      SecretRequestName(o, comp, i, keys);
      assert KeyResource(comp.meta.name, i) == comp.meta.name + ("-luks-key-" + PrintNat(i));
      HasDash(comp.meta.name, "-luks-key-" + PrintNat(i));
    }
  }

  lemma {:induction false} LastObjectAvoided(rs: seq<Request>, n: string)
    requires Avoids(rs, n)
    ensures LastObject(rs, n) == None
    decreases |rs|
  {
    if rs != [] {
      assert rs[0] in rs && forall r :: r in rs[1..] ==> r in rs;
      LastObjectAvoided(rs[1..], n);
    }
  }

  /** After the encryption transform the cluster in the store is the encrypted one. */
  lemma ClusterAfter(o: Observed, es: seq<Resource>, keys: Generator, comp: Object, cluster: Object)
    requires DecodeJson(o.composite, Composite) == Ok(comp) && comp.body.params.encryption
    requires DesiredObject(es, Cluster, "cluster") == Ok(cluster)
    ensures DesiredObject(LuksEntries(o, es, keys), Cluster, "cluster") == Ok(Typed(Encrypted(cluster)))
  {
    var plan := LuksPlan(o, es, keys);
    var first, secrets := ClusterRequest(cluster), SecretPlan(o, comp, Pods(cluster), keys);
    assert plan == [first] + secrets;
    assert Works(Lookup(es, "cluster"), first) by { hide Lookup; }
    var rs := Effective(es, plan);
    assert plan[0] == first && plan[1..] == secrets;
    assert rs == [first] + Effective(es, secrets);
    hide Carry, WriteAll, Effective, Lookup, LuksPlan, SecretPlan, Works, DesiredObject;
    CarryIsWriteAll(es, plan);
    LookupWriteAll(es, rs, "cluster");
    assert forall q :: q in rs && q.Emit? && q.kon == "cluster" ==> Works(Lookup(es, "cluster"), q);
    LastManifest(Lookup(es, "cluster"), rs, "cluster");
    SecretPlanAvoidsCluster(o, comp, Pods(cluster), keys);
    PrefixMembers(Effective(es, secrets), secrets);
    LastObjectAvoided(Effective(es, secrets), "cluster");
    assert rs[1..] == Effective(es, secrets);
    assert LastObject(rs, "cluster") == Some(first.obj);
    assert Typed(first.obj) == Typed(Encrypted(cluster));
    DesiredObjectOf(LuksEntries(o, es, keys), "cluster", Encrypted(cluster));
  }
}
