/** Key secrets: what one run writes, and that a key, once observed, never changes. */
module LuksRuns {
  import opened Base
  import opened Decimal
  import opened Payload
  import opened Store
  import opened Runtime
  import opened Plan
  import opened Writes
  import opened Alerting
  import opened Restart
  import opened Luks
  import opened Postgres
  import opened Idempotence
  import opened RestartRuns

  lemma KeyResourceInjective(c: string, i: nat, j: nat)
    requires KeyResource(c, i) == KeyResource(c, j)
    ensures i == j
  {
    hide PrintNat;
    assert KeyResource(c, i) == (c + "-luks-key-") + PrintNat(i);
    assert KeyResource(c, j) == (c + "-luks-key-") + PrintNat(j);
    assert KeyResource(c, i)[|c + "-luks-key-"|..] == PrintNat(i);
    assert KeyResource(c, j)[|c + "-luks-key-"|..] == PrintNat(j);
    PrintNatInjective(i, j);
  }

  /** The key a run has for pod i: the observed one, or a fresh one when no secret is observed. */
  function KeyFor(o: Observed, c: string, i: nat, keys: Generator): Option<string> {
    match ObservedObject(o, Secret, c + "-luks-key-" + PrintNat(i))
    case Ok(secret) => Some(if "luksKey" in secret.body.data then secret.body.data["luksKey"] else "")
    case Err(NotFound) => keys(i)
    case Err(_) => None
  }

  /** What the run reports when it stops at pod i. */
  function WhyPodFails(o: Observed, c: string, i: nat, keys: Generator): Message {
    match ObservedObject(o, Secret, c + "-luks-key-" + PrintNat(i))
    case Ok(_) => CannotAddLuksSecret
    case Err(NotFound) => if keys(i).None? then CannotGenerateKey else CannotAddLuksSecret
    case Err(_) => NoLuksSecret
  }

  /** A pod's request is to write its secret with that key, and fails when there is none. */
  lemma RequestHasKey(o: Observed, comp: Object, i: nat, keys: Generator)
    ensures var r, key := SecretRequest(o, comp, i, keys), KeyFor(o, comp.meta.name, i, keys);
      if key.None? then r.Abort?
      else r == Emit(KeySecret(comp, i, key.value), KeyResource(comp.meta.name, i), [], Some(CannotAddLuksSecret))
  {
    hide ObservedObject, PrintNat;
  }

  /** A pod stops the loop when there is no key for it or its entry cannot be written to. */
  lemma PodFailure(o: Observed, es: seq<Resource>, comp: Object, i: nat, keys: Generator)
    ensures FailureOf(es, [SecretRequest(o, comp, i, keys)])
         == if KeyFor(o, comp.meta.name, i, keys).None? || CannotDecode(es, comp.meta.name + "-luks-key-" + PrintNat(i))
            then Some(WhyPodFails(o, comp.meta.name, i, keys)) else None
  {
    hide ObservedObject, PrintNat, Lookup;
    var rs := [SecretRequest(o, comp, i, keys)];
    assert rs[1..] == [];
  }

  lemma {:induction false} LastSecret(o: Observed, comp: Object, n: nat, keys: Generator, i: nat)
    requires forall k: nat :: k < n ==> SecretRequest(o, comp, k, keys).Emit?
    ensures LastObject(SecretPlan(o, comp, n, keys), KeyResource(comp.meta.name, i))
         == if i < n then Some(SecretRequest(o, comp, i, keys).obj) else None
  {
    hide SecretRequest, KeyResource;
    if n > 0 {
      var last := SecretRequest(o, comp, n - 1, keys);
      LastSecret(o, comp, n - 1, keys, i);
      SecretRequestName(o, comp, n - 1, keys);
      LastObjectAppend(SecretPlan(o, comp, n - 1, keys), [last], KeyResource(comp.meta.name, i));
      if last.kon == KeyResource(comp.meta.name, i) {
        KeyResourceInjective(comp.meta.name, n - 1, i);
      }
      assert LastObject([last][1..], KeyResource(comp.meta.name, i)) == None;
    }
  }

  lemma {:induction false} SecretPlanPrefix(o: Observed, comp: Object, j: nat, n: nat, keys: Generator)
    requires j <= n
    ensures SecretPlan(o, comp, n, keys)[..j] == SecretPlan(o, comp, j, keys)
    decreases n
  {
    hide SecretRequest;
    if j < n {
      SecretPlanPrefix(o, comp, j, n - 1, keys);
    }
  }

  /** How many pods a run gets to: all of them, or those before the first one that fails. */
  function PodsDone(o: Observed, es: seq<Resource>, comp: Object, cluster: Object, keys: Generator): nat
    requires cluster.body.ClusterBody?
  {
    |Effective(es, SecretPlan(o, comp, Pods(cluster), keys))|
  }

  /** The entry of pod i asks for a secret, named after pod i, whose luksKey is this key. */
  ghost predicate HoldsKey(es: seq<Resource>, comp: Object, i: nat, key: Option<string>) {
    var secret := DesiredObject(es, Secret, comp.meta.name + "-luks-key-" + PrintNat(i));
    var labels := comp.meta.labels;
    var owner := if "crossplane.io/composite" in labels then labels["crossplane.io/composite"] else "";
    && key.Some? && secret.Ok? && secret.value.gvk == SecretKind
    && secret.value.meta.name == owner + "-data-" + owner + "-" + PrintNat(i) + "-luks-key"
    && secret.value.meta.namespace == "vshn-postgresql-" + comp.meta.name
    && secret.value.body == SecretBody(map["luksKey" := key.value], "")
  }

  lemma KeySecretHolds(es: seq<Resource>, comp: Object, i: nat, key: string)
    requires DesiredObject(es, Secret, KeyResource(comp.meta.name, i)) == Ok(Typed(KeySecret(comp, i, key)))
    ensures HoldsKey(es, comp, i, Some(key))
  {
    hide DesiredObject, PrintNat;
  }

  lemma HeldKey(es: seq<Resource>, comp: Object, i: nat, key: Option<string>)
    requires HoldsKey(es, comp, i, key)
    ensures var secret := DesiredObject(es, Secret, KeyResource(comp.meta.name, i));
      secret.Ok? && key == Some(KeyIn(secret.value))
  {
    hide DesiredObject, Label, PrintNat;
  }

  /** Loop completeness, and the prefix on failure: the cluster is given the encrypted storage class;
      the secrets of the first j pods hold their keys and no higher one is touched, where j is the number
      of instances exactly when the run succeeds, and otherwise the first pod that has no key or whose
      entry cannot be decoded, which decides what is reported. */
  lemma SecretsUpToFailure(o: Observed, s: Store, keys: Generator, comp: Object, cluster: Object)
    requires DecodeJson(o.composite, Composite) == Ok(comp) && comp.body.params.encryption
    requires DesiredObject(s.entries, Cluster, "cluster") == Ok(cluster)
    ensures var out, j := LuksOutcome(o, s, keys), PodsDone(o, s.entries, comp, cluster, keys);
      && DesiredObject(out.store.entries, Cluster, "cluster")
         == Ok(Object(ClusterKind, cluster.meta, cluster.body.(storageClass := Some("ssd-encrypted"))))
      && out.store == s.(entries := out.store.entries)
      && (j > 0 ==> j <= cluster.body.instances)
      && out.result == (if j >= cluster.body.instances then Result(Normal, Success)
                        else Result(Fatal, WhyPodFails(o, comp.meta.name, j, keys)))
      && (j < cluster.body.instances ==> !PodServable(o, s.entries, comp.meta.name, j, keys))
      && (forall i: nat :: i < j ==>
            && PodServable(o, s.entries, comp.meta.name, i, keys)
            && HoldsKey(out.store.entries, comp, i, KeyFor(o, comp.meta.name, i, keys)))
      && (forall i: nat :: i >= j ==>
            SameSlot(out.store.entries, s.entries, comp.meta.name + "-luks-key-" + PrintNat(i)))
  {
    var j := PodsDone(o, s.entries, comp, cluster, keys);
    hide LuksPlan, Lookup, DesiredObject, Carry, KeyFor, Effective, PodsDone, FailureOf, DecodeJson, PrintNat,
         PodServable, HoldsKey, SameSlot, WhyPodFails, LuksOutcome;
    LuksReports(o, s, keys, comp, cluster);
    ClusterIsEncrypted(o, s, keys, comp, cluster);
    forall i: nat
      ensures i < j ==> PodServable(o, s.entries, comp.meta.name, i, keys)
      ensures i < j ==> HoldsKey(LuksEntries(o, s.entries, keys), comp, i, KeyFor(o, comp.meta.name, i, keys))
      ensures i >= j ==>
        SameSlot(LuksEntries(o, s.entries, keys), s.entries, comp.meta.name + "-luks-key-" + PrintNat(i))
    {
      SecretAfter(o, s.entries, keys, comp, cluster, i);
      if i < j {
        DonePod(o, s.entries, keys, comp, cluster, i);
      } else {
        UntouchedPod(LuksEntries(o, s.entries, keys), s.entries, comp.meta.name, i);
      }
    }
  }

  lemma UntouchedPod(es: seq<Resource>, fs: seq<Resource>, c: string, i: nat)
    requires Lookup(es, KeyResource(c, i)) == Lookup(fs, KeyResource(c, i))
    ensures SameSlot(es, fs, c + "-luks-key-" + PrintNat(i))
  {
    hide Lookup, PrintNat;
  }

  lemma ClusterIsEncrypted(o: Observed, s: Store, keys: Generator, comp: Object, cluster: Object)
    requires DecodeJson(o.composite, Composite) == Ok(comp) && comp.body.params.encryption
    requires DesiredObject(s.entries, Cluster, "cluster") == Ok(cluster)
    ensures DesiredObject(LuksEntries(o, s.entries, keys), Cluster, "cluster")
         == Ok(Object(ClusterKind, cluster.meta, cluster.body.(storageClass := Some("ssd-encrypted"))))
  {
    hide DesiredObject, LuksEntries, DecodeJson;
    ClusterAfter(o, s.entries, keys, comp, cluster);
  }

  lemma LuksReports(o: Observed, s: Store, keys: Generator, comp: Object, cluster: Object)
    requires DecodeJson(o.composite, Composite) == Ok(comp) && comp.body.params.encryption
    requires DesiredObject(s.entries, Cluster, "cluster") == Ok(cluster)
    ensures var out, j := LuksOutcome(o, s, keys), PodsDone(o, s.entries, comp, cluster, keys);
      && out.store == s.(entries := LuksEntries(o, s.entries, keys))
      && (j > 0 ==> j <= cluster.body.instances)
      && out.result == (if j >= cluster.body.instances then Result(Normal, Success)
                        else Result(Fatal, WhyPodFails(o, comp.meta.name, j, keys)))
      && (j < cluster.body.instances ==> !PodServable(o, s.entries, comp.meta.name, j, keys))
  {
    hide LuksPlan, DesiredObject, Carry, Effective, PodsDone, FailureOf, DecodeJson, PodServable, WhyPodFails,
         SecretPlan;
    LuksEffective(o, s.entries, keys, comp, cluster);
    FailingPod(o, s.entries, keys, comp, cluster);
    CarryIsWriteAll(s.entries, LuksPlan(o, s.entries, keys));
  }

  /** There is a key for the pod, and its entry can be written to. */
  ghost predicate PodServable(o: Observed, es: seq<Resource>, c: string, i: nat, keys: Generator) {
    KeyFor(o, c, i, keys).Some? && !CannotDecode(es, c + "-luks-key-" + PrintNat(i))
  }

  /** All pods: the run succeeds exactly when each pod below the number of instances can be served, and
      then each of their secrets holds its key and no other pod's entry is touched. */
  lemma AllPodsServed(o: Observed, s: Store, keys: Generator, comp: Object, cluster: Object)
    requires DecodeJson(o.composite, Composite) == Ok(comp) && comp.body.params.encryption
    requires DesiredObject(s.entries, Cluster, "cluster") == Ok(cluster)
    ensures var out, n := LuksOutcome(o, s, keys), cluster.body.instances;
      && (out.result == Result(Normal, Success) <==>
            forall i: nat :: i < n ==> PodServable(o, s.entries, comp.meta.name, i, keys))
      && (out.result != Result(Normal, Success) ==> out.result.severity == Fatal)
      && (out.result == Result(Normal, Success) ==>
            forall i: nat :: i < n ==> HoldsKey(out.store.entries, comp, i, KeyFor(o, comp.meta.name, i, keys)))
      && (forall i: nat :: i >= n ==>
            SameSlot(out.store.entries, s.entries, comp.meta.name + "-luks-key-" + PrintNat(i)))
  {
    hide LuksOutcome, DesiredObject, DecodeJson, PodServable, HoldsKey, SameSlot, KeyFor, PodsDone;
    SecretsUpToFailure(o, s, keys, comp, cluster);
  }

  /** Without a composite, without encryption or without a cluster nothing is written. */
  lemma EncryptionNotReady(o: Observed, s: Store, keys: Generator)
    ensures match DecodeJson(o.composite, Composite)
      case Err(_) => LuksOutcome(o, s, keys) == Outcome(s, Result(Fatal, NoComposite))
      case Ok(comp) =>
        if !comp.body.params.encryption then LuksOutcome(o, s, keys) == Outcome(s, Result(Normal, Success))
        else DesiredObject(s.entries, Cluster, "cluster").Err? ==>
          LuksOutcome(o, s, keys) == Outcome(s, Result(Fatal, NoCluster))
  {
    hide DesiredObject, DecodeJson, SecretPlan;
  }

  /** The effective part of the plan: the cluster and the secrets of the pods that are done. */
  lemma LuksEffective(o: Observed, es: seq<Resource>, keys: Generator, comp: Object, cluster: Object)
    requires DecodeJson(o.composite, Composite) == Ok(comp) && comp.body.params.encryption
    requires DesiredObject(es, Cluster, "cluster") == Ok(cluster)
    ensures var j := PodsDone(o, es, comp, cluster, keys);
      && j <= Pods(cluster)
      && Effective(es, LuksPlan(o, es, keys)) == [ClusterRequest(cluster)] + SecretPlan(o, comp, j, keys)
      && (FailureOf(es, LuksPlan(o, es, keys)).None? <==> j == Pods(cluster))
      && FailureOf(es, LuksPlan(o, es, keys)) == FailureOf(es, SecretPlan(o, comp, Pods(cluster), keys))
      && (forall k: nat :: k < j ==> SecretRequest(o, comp, k, keys).Emit?)
  {
    var plan, first := LuksPlan(o, es, keys), ClusterRequest(cluster);
    var secrets := SecretPlan(o, comp, Pods(cluster), keys);
    assert Works(Lookup(es, "cluster"), first) by { hide Lookup; }
    assert plan == [first] + secrets && plan[0] == first && plan[1..] == secrets;
    var j := PodsDone(o, es, comp, cluster, keys);
    hide SecretPlan, SecretRequest, Lookup, Works, LuksPlan, DesiredObject;
    assert Effective(es, plan) == [first] + Effective(es, secrets);
    assert FailureOf(es, plan) == FailureOf(es, secrets);
    SecretPlanPrefix(o, comp, j, Pods(cluster), keys);
    NoFailureAllEffective(es, secrets);
    assert Effective(es, secrets) == SecretPlan(o, comp, j, keys);
    forall k: nat | k < j ensures SecretRequest(o, comp, k, keys).Emit? {
      SecretPlanAt(o, comp, j, keys, k);
      assert Effective(es, secrets)[k] in Effective(es, secrets);
    }
  }

  /** Why the plan stopped where it did. */
  lemma FailingPod(o: Observed, es: seq<Resource>, keys: Generator, comp: Object, cluster: Object)
    requires cluster.body.ClusterBody?
    ensures var j, plan := PodsDone(o, es, comp, cluster, keys), SecretPlan(o, comp, Pods(cluster), keys);
      j < Pods(cluster) ==>
        && !PodServable(o, es, comp.meta.name, j, keys)
        && FailureOf(es, plan) == Some(WhyPodFails(o, comp.meta.name, j, keys))
  {
    hide KeyFor, SecretPlan, FailureOf, WhyPodFails, CannotDecode, SecretRequest;
    var plan, j := SecretPlan(o, comp, Pods(cluster), keys), PodsDone(o, es, comp, cluster, keys);
    if j < Pods(cluster) {
      FirstIneffective(es, plan);
      SecretPlanAt(o, comp, Pods(cluster), keys, j);
      PodFailure(o, es, comp, j, keys);
    }
  }

  lemma DonePod(o: Observed, es: seq<Resource>, keys: Generator, comp: Object, cluster: Object, i: nat)
    requires cluster.body.ClusterBody? && i < PodsDone(o, es, comp, cluster, keys)
    ensures PodServable(o, es, comp.meta.name, i, keys)
  {
    hide KeyFor, SecretPlan, FailureOf, WhyPodFails, CannotDecode, SecretRequest;
    var plan := SecretPlan(o, comp, Pods(cluster), keys);
    EffectiveOnes(es, plan, i);
    SecretPlanAt(o, comp, Pods(cluster), keys, i);
    PodFailure(o, es, comp, i, keys);
  }

  lemma {:induction false} EffectiveOnes(es: seq<Resource>, plan: seq<Request>, i: nat)
    requires i < |Effective(es, plan)|
    ensures i < |plan| && FailureOf(es, [plan[i]]).None?
    decreases |plan|
  {
    hide Works, Lookup;
    if i > 0 {
      EffectiveOnes(es, plan[1..], i - 1);
    } else {
      assert [plan[0]][1..] == [];
    }
  }

  lemma {:induction false} FirstIneffective(es: seq<Resource>, plan: seq<Request>)
    ensures var j := |Effective(es, plan)|;
      j < |plan| ==> FailureOf(es, plan) == FailureOf(es, [plan[j]]) && FailureOf(es, plan).Some?
    decreases |plan|
  {
    hide Works, Lookup;
    if plan != [] {
      FirstIneffective(es, plan[1..]);
    }
  }

  /** The entry of pod i after the run. */
  lemma SecretAfter(o: Observed, es: seq<Resource>, keys: Generator, comp: Object, cluster: Object, i: nat)
    requires DecodeJson(o.composite, Composite) == Ok(comp) && comp.body.params.encryption
    requires DesiredObject(es, Cluster, "cluster") == Ok(cluster)
    ensures var out, n := LuksEntries(o, es, keys), KeyResource(comp.meta.name, i);
      var key := KeyFor(o, comp.meta.name, i, keys);
      if i < PodsDone(o, es, comp, cluster, keys)
      then HoldsKey(out, comp, i, key)
      else Lookup(out, n) == Lookup(es, n)
  {
    assert cluster.body.ClusterBody?;
    hide *;
    var j := PodsDone(o, es, comp, cluster, keys);
    LuksEffective(o, es, keys, comp, cluster);
    LastInLuksPlan(o, comp, cluster, j, keys, i);
    ShownSecret(es, LuksPlan(o, es, keys), comp, i, if i < j then KeyFor(o, comp.meta.name, i, keys) else None);
    EntriesAreCarried(o, es, keys);
  }

  lemma EntriesAreCarried(o: Observed, es: seq<Resource>, keys: Generator)
    ensures LuksEntries(o, es, keys) == Carry(es, LuksPlan(o, es, keys)).entries
  {
  }

  /** A plan whose last object for pod i is its secret with a key, or nothing. */
  lemma ShownSecret(es: seq<Resource>, plan: seq<Request>, comp: Object, i: nat, key: Option<string>)
    requires LastObject(Effective(es, plan), KeyResource(comp.meta.name, i))
          == match key { case None => None case Some(k) => Some(KeySecret(comp, i, k)) }
    ensures var out := Carry(es, plan).entries;
      if key.Some? then HoldsKey(out, comp, i, key)
      else Lookup(out, KeyResource(comp.meta.name, i)) == Lookup(es, KeyResource(comp.meta.name, i))
  {
    hide Carry, Effective, LastObject, KeyResource, HoldsKey, Lookup, DesiredObject, SecretMeta;
    CarryShows(es, plan, KeyResource(comp.meta.name, i));
    if key.Some? {
      KeySecretHolds(Carry(es, plan).entries, comp, i, key.value);
    }
  }

  /** The last object for pod i among the cluster and the secrets of the pods below j. */
  lemma LastInLuksPlan(o: Observed, comp: Object, cluster: Object, j: nat, keys: Generator, i: nat)
    requires cluster.body.ClusterBody? && forall k: nat :: k < j ==> SecretRequest(o, comp, k, keys).Emit?
    ensures i < j ==> KeyFor(o, comp.meta.name, i, keys).Some?
    ensures LastObject([ClusterRequest(cluster)] + SecretPlan(o, comp, j, keys), KeyResource(comp.meta.name, i))
         == if i < j then Some(KeySecret(comp, i, KeyFor(o, comp.meta.name, i, keys).value)) else None
  {
    hide KeyResource, SecretPlan, SecretRequest, KeySecret, KeyFor, ClusterRequest;
    LastSecret(o, comp, j, keys, i);
    LastObjectAppend([ClusterRequest(cluster)], SecretPlan(o, comp, j, keys), KeyResource(comp.meta.name, i));
    KeyIsNotCluster(comp.meta.name, i);
    ClusterOnly(cluster, KeyResource(comp.meta.name, i));
    RequestHasKey(o, comp, i, keys);
  }

  lemma KeyIsNotCluster(c: string, i: nat)
    ensures KeyResource(c, i) != "cluster"
  {
    assert KeyResource(c, i) == c + ("-luks-key-" + PrintNat(i));
    HasDash(c, "-luks-key-" + PrintNat(i));
  }

  lemma ClusterOnly(cluster: Object, n: string)
    requires cluster.body.ClusterBody? && n != "cluster"
    ensures LastObject([ClusterRequest(cluster)], n) == None
  {
  }

  // ---------- A series of reconciles ----------

  /** The key observed for pod i of composite c, when its secret can be read. */
  function ObservedKey(r: Reconcile, c: string, i: nat): Option<string> {
    match ObservedObject(r.io.observed, Secret, KeyResource(c, i))
    case Ok(secret) => Some(KeyIn(secret))
    case Err(_) => None
  }

  /** The key a reconcile of composite c writes for pod i, if it gets to write it. */
  function WrittenKey(r: Reconcile, c: string, i: nat): Option<string> {
    match DecodeJson(r.io.observed.composite, Composite)
    case Err(_) => None
    case Ok(comp) =>
      if !comp.body.params.encryption || comp.meta.name != c then None
      else
        match DesiredObject(r.io.desired.entries, Cluster, "cluster")
        case Err(_) => None
        case Ok(cluster) =>
          if i < PodsDone(r.io.observed, r.io.desired.entries, comp, cluster,
              r.keys) then KeyFor(r.io.observed, c, i, r.keys)
          else None
  }

  /** The key the output of a reconcile asks the cluster to hold for pod i. */
  function DesiredKey(r: Reconcile, c: string, i: nat): Option<string> {
    match DesiredObject(Output(r).desired.entries, Secret, KeyResource(c, i))
    case Ok(secret) => Some(KeyIn(secret))
    case Err(_) => None
  }

  /** What a reconcile writes for pod i is what its output asks the cluster to hold. */
  lemma WrittenIsDesired(r: Reconcile, c: string, i: nat)
    requires WrittenKey(r, c, i).Some?
    ensures DesiredKey(r, c, i) == WrittenKey(r, c, i)
  {
    hide RunFive, Carry, LuksPlan, AlertPlan, RestartPlan, Lookup, DesiredObject, KeyFor, KeyResource, Effective;
    var o, s := r.io.observed, r.io.desired;
    var comp := DecodeJson(o.composite, Composite).value;
    var cluster := DesiredObject(s.entries, Cluster, "cluster").value;
    var e2 := RestartEntries(o, s.composite, AlertEntries(o, s.entries), r.clock);
    RunFiveIs(r.io, r.clock, r.draw, r.keys);
    ClusterSlot(o, s, r.clock);
    SameDesiredObject(s.entries, e2, "cluster");
    EffectiveLater(o, s, r.clock, SecretPlan(o, comp, Pods(cluster), r.keys));
    SecretAfter(o, e2, r.keys, comp, cluster, i);
    HeldKey(Output(r).desired.entries, comp, i, WrittenKey(r, c, i));
  }

  lemma EffectiveLater(o: Observed, s: Store, clock: Clock, plan: seq<Request>)
    ensures Effective(RestartEntries(o, s.composite, AlertEntries(o, s.entries), clock), plan)
        == Effective(s.entries, plan)
  {
    hide Carry, AlertPlan, RestartPlan, Effective, WriteAll, FailureOf, Works;
    var p, q := AlertPlan(o), RestartPlan(o, s.composite, clock);
    var e1 := AlertEntries(o, s.entries);
    CarryIsWriteAll(s.entries, p);
    CarryIsWriteAll(e1, q);
    EffectiveAfterWriteAll(s.entries, Effective(s.entries, p), plan);
    EffectiveAfterWriteAll(e1, Effective(e1, q), plan);
  }

  /** A reconcile that observes a key writes that key or nothing. */
  lemma ObservedIsWritten(r: Reconcile, c: string, i: nat)
    requires ObservedKey(r, c, i).Some?
    ensures WrittenKey(r, c, i).None? || WrittenKey(r, c, i) == ObservedKey(r, c, i)
  {
    hide ObservedObject, DesiredObject, PodsDone;
  }

  /** The last key written for pod i by the first n reconciles. */
  function LastWritten(h: seq<Reconcile>, c: string, i: nat, n: nat): Option<string>
    requires n <= |h|
  {
    if n == 0 then None
    else if WrittenKey(h[n - 1], c, i).Some? then WrittenKey(h[n - 1], c, i)
    else LastWritten(h, c, i, n - 1)
  }

  /** Between reconciles an observed key stays as it was, disappears, or becomes the last one written. */
  ghost predicate Environment(h: seq<Reconcile>, c: string, i: nat) {
    forall n :: 0 < n < |h| && ObservedKey(h[n], c, i).Some? ==>
      || ObservedKey(h[n], c, i) == ObservedKey(h[n - 1], c, i)
      || ObservedKey(h[n], c, i) == LastWritten(h, c, i, n)
  }

  /** An observed key never disagrees with the last one written. */
  lemma {:induction false} ObservedAgreesWithLast(h: seq<Reconcile>, c: string, i: nat, n: nat)
    requires Environment(h, c, i) && n < |h|
    ensures ObservedKey(h[n], c, i).Some? && LastWritten(h, c, i, n).Some? ==>
      ObservedKey(h[n], c, i) == LastWritten(h, c, i, n)
  {
    hide ObservedKey, WrittenKey;
    if n > 0 && ObservedKey(h[n], c, i).Some? && ObservedKey(h[n], c, i) != LastWritten(h, c, i, n) {
      ObservedAgreesWithLast(h, c, i, n - 1);
      ObservedIsWritten(h[n - 1], c, i);
    }
  }

  lemma {:induction false} ObservedKeyIsStable(h: seq<Reconcile>, c: string, i: nat, a: nat, b: nat)
    requires Environment(h, c, i) && a <= b < |h|
    requires forall n :: a <= n <= b ==> ObservedKey(h[n], c, i).Some?
    ensures ObservedKey(h[b], c, i) == ObservedKey(h[a], c, i)
    decreases b
  {
    hide ObservedKey, WrittenKey;
    if a < b {
      ObservedKeyIsStable(h, c, i, a, b - 1);
      ObservedAgreesWithLast(h, c, i, b - 1);
      ObservedIsWritten(h[b - 1], c, i);
    }
  }

  /** Key stability: from any reconcile that observes key k for pod i, as long as the secret stays
      observed every later one observes k, and every one that writes the secret asks for exactly k in
      its output; the other pods, their number and their keys are arbitrary. */
  lemma KeyIsStable(h: seq<Reconcile>, c: string, i: nat, a: nat, b: nat)
    requires Environment(h, c, i) && a <= b < |h|
    requires forall n :: a <= n <= b ==> ObservedKey(h[n], c, i).Some?
    ensures ObservedKey(h[b], c, i) == ObservedKey(h[a], c, i)
    ensures WrittenKey(h[b], c, i).Some? ==> DesiredKey(h[b], c, i) == ObservedKey(h[a], c, i)
  {
    hide ObservedKey, WrittenKey, DesiredKey;
    ObservedKeyIsStable(h, c, i, a, b);
    ObservedIsWritten(h[b], c, i);
    if WrittenKey(h[b], c, i).Some? {
      WrittenIsDesired(h[b], c, i);
    }
  }

  // ---------- A pod without an observed secret ----------

  lemma {:induction false} PodsBeforeAreServed(o: Observed, es: seq<Resource>, comp: Object, i: nat, keys: Generator)
    requires Reached(o, es, comp.meta.name, i)
    ensures FailureOf(es, SecretPlan(o, comp, i, keys)).None?
  {
    hide ObservedObject, KeyResource, Lookup, FailureOf, SecretRequest;
    if i == 0 {
      hide *;
      EmptyPlanDoesNotFail(es);
    } else {
      assert Servable(o, es, comp.meta.name, i - 1);
      PodsBeforeAreServed(o, es, comp, i - 1, keys);
      SameRequest(o, es, comp, i - 1, keys, keys);
      EffectiveAppend(es, SecretPlan(o, comp, i - 1, keys), [SecretRequest(o, comp, i - 1, keys)]);
    }
  }

  /** The loop gets to pod i, which has no observed secret: it goes on exactly with a key from the
      generator and an entry it can write to, and stops with one of two failures otherwise. */
  lemma ReachedPod(o: Observed, es: seq<Resource>, comp: Object, n: nat, keys: Generator, i: nat)
    requires i < n && Reached(o, es, comp.meta.name, i)
    requires ObservedObject(o, Secret, KeyResource(comp.meta.name, i)) == Err(NotFound)
    ensures var plan, broken := SecretPlan(o, comp, n, keys), CannotDecode(es, KeyResource(comp.meta.name, i));
      && (i < |Effective(es, plan)| <==> keys(i).Some? && !broken)
      && (keys(i).None? ==> FailureOf(es, plan) == Some(CannotGenerateKey))
      && (keys(i).Some? && broken ==> FailureOf(es, plan) == Some(CannotAddLuksSecret))
  {
    hide ObservedObject, KeyResource, CannotDecode, SecretPlan, Reached, KeySecret, FailureOf, Effective;
    var plan := SecretPlan(o, comp, n, keys);
    var rest := plan[i..];
    SecretPlanAt(o, comp, n, keys, i);
    assert rest[0] == SecretRequest(o, comp, i, keys);
    PodsBeforeAreServed(o, es, comp, i, keys);
    SecretPlanPrefix(o, comp, i, n, keys);
    assert plan == SecretPlan(o, comp, i, keys) + rest;
    EffectiveAppend(es, SecretPlan(o, comp, i, keys), rest);
    FirstSecret(es, rest, comp, i, keys(i));
  }

  lemma FirstSecret(es: seq<Resource>, rest: seq<Request>, comp: Object, i: nat, key: Option<string>)
    requires rest != []
    requires if key.None? then rest[0] == Abort(CannotGenerateKey)
      else rest[0] == Emit(KeySecret(comp, i, key.value), KeyResource(comp.meta.name, i), [], Some(CannotAddLuksSecret))
    ensures var broken := CannotDecode(es, KeyResource(comp.meta.name, i));
      && (|Effective(es, rest)| > 0 <==> key.Some? && !broken)
      && (key.None? ==> FailureOf(es, rest) == Some(CannotGenerateKey))
      && (key.Some? && broken ==> FailureOf(es, rest) == Some(CannotAddLuksSecret))
  {
    hide KeyResource, Lookup, KeySecret;
    SecretIsRegistered(comp, i);
  }

  lemma EmptyPlanDoesNotFail(es: seq<Resource>)
    ensures FailureOf(es, []).None?
  {
  }

  lemma SecretIsRegistered(comp: Object, i: nat)
    ensures forall key :: Registered(KeySecret(comp, i, key).body).Some?
  {
  }

  /** A pod that is reached without an observed secret gets whatever the generator gives: that key is
      what the output of the pipeline asks for, and nothing is written when there is none. */
  lemma UnobservedKeyIsFresh(r: Reconcile, comp: Object, cluster: Object, i: nat)
    requires DecodeJson(r.io.observed.composite, Composite) == Ok(comp) && comp.body.params.encryption
    requires DesiredObject(r.io.desired.entries, Cluster, "cluster") == Ok(cluster)
    requires i < cluster.body.instances && Reached(r.io.observed, r.io.desired.entries, comp.meta.name, i)
    requires ObservedObject(r.io.observed, Secret, KeyResource(comp.meta.name, i)) == Err(NotFound)
    requires !CannotDecode(r.io.desired.entries, KeyResource(comp.meta.name, i))
    ensures WrittenKey(r, comp.meta.name, i) == r.keys(i)
    ensures r.keys(i).Some? ==> DesiredKey(r, comp.meta.name, i) == r.keys(i)
  {
    hide ObservedObject, DesiredObject, RunFive, PrintNat, Lookup, DecodeJson, CannotDecode, SecretPlan, Reached,
         DesiredKey;
    ReachedPod(r.io.observed, r.io.desired.entries, comp, Pods(cluster), r.keys, i);
    if r.keys(i).Some? {
      WrittenIsDesired(r, comp.meta.name, i);
    }
  }
}
