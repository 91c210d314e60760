/** functions/vshn-postgres-func/encrypted_pvc.go */
module Luks {
  import opened Base
  import opened Decimal
  import opened Payload
  import opened Store
  import opened Runtime
  import opened Plan

  const COMPOSITE_LABEL: string := "crossplane.io/composite"
  const KEY: string := "luksKey"

  /** What the password generator gives for each pod; None is a failure of the generator. */
  type Generator = nat -> Option<string>

  function KeyResource(compName: string, i: nat): string { compName + "-luks-key-" + PrintNat(i) }

  function KeyIn(secret: Object): string
    requires secret.body.SecretBody?
  {
    if KEY in secret.body.data then secret.body.data[KEY] else ""
  }

  function SecretMeta(comp: Object, i: nat): Meta {
    var owner := Label(comp.meta, COMPOSITE_LABEL);
    Meta(owner + "-data-" + owner + "-" + PrintNat(i) + "-luks-key", "vshn-postgresql-" + comp.meta.name, map[], "")
  }

  function KeySecret(comp: Object, i: nat, key: string): Object {
    Object(NoKind, SecretMeta(comp, i), SecretBody(map[KEY := key], ""))
  }

  /** What writeLuksSecret does for pod i: the observed key again, or a fresh one when none is seen. */
  function SecretRequest(o: Observed, comp: Object, i: nat, keys: Generator): Request {
    var name := KeyResource(comp.meta.name, i);
    match ObservedObject(o, Secret, name)
    case Ok(secret) => Emit(KeySecret(comp, i, KeyIn(secret)), name, [], Some(CannotAddLuksSecret))
    case Err(NotFound) =>
      (match keys(i)
       case None => Abort(CannotGenerateKey)
       case Some(key) => Emit(KeySecret(comp, i, key), name, [], Some(CannotAddLuksSecret)))
    case Err(_) => Abort(NoLuksSecret)
  }

  /** The requests for the pods below n. */
  function SecretPlan(o: Observed, comp: Object, n: nat, keys: Generator): (plan: seq<Request>)
    ensures |plan| == n
  {
    if n == 0 then [] else SecretPlan(o, comp, n - 1, keys) + [SecretRequest(o, comp, n - 1, keys)]
  }

  function Encrypted(cluster: Object): Object
    requires cluster.body.ClusterBody?
  {
    cluster.(body := cluster.body.(storageClass := Some("ssd-encrypted")))
  }

  /** The cluster to put back; PutIntoObject sets its kind before it stores it. */
  function ClusterRequest(cluster: Object): Request
    requires cluster.body.ClusterBody?
  {
    Emit(Typed(Encrypted(cluster)), "cluster", [], Some(CannotEditCluster))
  }

  function Pods(cluster: Object): nat
    requires cluster.body.ClusterBody?
  {
    if cluster.body.instances > 0 then cluster.body.instances else 0
  }

  function LuksPlan(o: Observed, es: seq<Resource>, keys: Generator): seq<Request> {
    match DecodeJson(o.composite, Composite)
    case Err(_) => [Abort(NoComposite)]
    case Ok(comp) =>
      if !comp.body.params.encryption then []
      else
        match DesiredObject(es, Cluster, "cluster")
        case Err(_) => [Abort(NoCluster)]
        case Ok(cluster) => [ClusterRequest(cluster)] + SecretPlan(o, comp, Pods(cluster), keys)
  }

  function LuksOutcome(o: Observed, s: Store, keys: Generator): Outcome {
    Finish(s, Carry(s.entries, LuksPlan(o, s.entries, keys)), NORMAL)
  }

  method WriteLuksSecret(iof: Runtime, comp: Object, i: nat, keys: Generator) returns (failure: Option<Message>)
    requires iof.Valid()
    modifies iof.desired.Repr
    ensures iof.Valid() && fresh(iof.desired.Repr - old(iof.desired.Repr))
    ensures var c := Carry(old(iof.desired.Contents.entries), [SecretRequest(iof.observed, comp, i, keys)]);
      iof.desired.Contents == old(iof.desired.Contents).(entries := c.entries) && failure == c.failure
  {
    var name := KeyResource(comp.meta.name, i);
    var secret := ObservedGetFromObject(iof.observed, Secret, name);
    var luksKey := "";
    if secret == Err(NotFound) {
      var generated := keys(i);
      if generated.None? {
        return Some(CannotGenerateKey);
      }
      luksKey := generated.value;
    } else if secret.Ok? {
      luksKey := KeyIn(secret.value);
    } else {
      return Some(NoLuksSecret);
    }
    failure := CarryOut(iof.desired, Emit(KeySecret(comp, i, luksKey), name, [], Some(CannotAddLuksSecret)));
  }

  method WriteLuksSecrets(iof: Runtime, comp: Object, pods: nat, keys: Generator) returns (failure: Option<Message>)
    requires iof.Valid()
    modifies iof.desired.Repr
    ensures iof.Valid() && fresh(iof.desired.Repr - old(iof.desired.Repr))
    ensures var c := Carry(old(iof.desired.Contents.entries), SecretPlan(iof.observed, comp, pods, keys));
      iof.desired.Contents == old(iof.desired.Contents).(entries := c.entries) && failure == c.failure
  {
    hide PutIntoObject, SecretRequest;
    ghost var s0 := iof.desired.Contents;
    for i := 0 to pods
      invariant iof.Valid() && fresh(iof.desired.Repr - old(iof.desired.Repr))
      invariant var c := Carry(s0.entries, SecretPlan(iof.observed, comp, i, keys));
        c.failure.None? && iof.desired.Contents == s0.(entries := c.entries)
    {
      CarryAppend(s0.entries, SecretPlan(iof.observed, comp, i, keys), [SecretRequest(iof.observed, comp, i, keys)]);
      failure := WriteLuksSecret(iof, comp, i, keys);
      if failure.Some? {
        FailureEndsSecretPlan(s0.entries, iof.observed, comp, i + 1, pods, keys);
        return;
      }
    }
    failure := None;
  }

  lemma {:induction false} FailureEndsSecretPlan(es: seq<Resource>, o: Observed, comp: Object, i: nat, n: nat,
      keys: Generator)
    requires i <= n && Carry(es, SecretPlan(o, comp, i, keys)).failure.Some?
    ensures Carry(es, SecretPlan(o, comp, n, keys)) == Carry(es, SecretPlan(o, comp, i, keys))
    decreases n
  {
    hide SecretRequest;
    if i < n {
      FailureEndsSecretPlan(es, o, comp, i, n - 1, keys);
      CarryAppend(es, SecretPlan(o, comp, n - 1, keys), [SecretRequest(o, comp, n - 1, keys)]);
    }
  }

  lemma KindIsSetAnyway(es: seq<Resource>, r: Request, o: Object)
    requires r.Emit? && r.obj == Typed(o)
    ensures Carry(es, [r.(obj := o)]) == Carry(es, [r])
  {
    assert Typed(r.obj) == Typed(o);
    assert PutIntoSlot(Lookup(es, r.kon), r.obj, r.kon, r.refs) == PutIntoSlot(Lookup(es, r.kon), o, r.kon, r.refs) by {
      hide DecodeYaml, Lookup;
    }
  }

  method AddPvcSecret(iof: Runtime, keys: Generator) returns (r: Result)
    requires iof.Valid()
    modifies iof.desired.Repr
    ensures iof.Valid() && fresh(iof.desired.Repr - old(iof.desired.Repr))
    ensures Outcome(iof.desired.Contents, r) == LuksOutcome(iof.observed, old(iof.desired.Contents), keys)
  {
    var comp := DecodeJson(iof.observed.composite, Composite);
    if comp.Err? {
      return Result(Fatal, NoComposite);
    }
    if !comp.value.body.params.encryption {
      return NORMAL;
    }
    var cluster := iof.desired.GetFromObject(Cluster, "cluster");
    if cluster.Err? {
      return Result(Fatal, NoCluster);
    }
    CarryAppend(iof.desired.Contents.entries, [ClusterRequest(cluster.value)],
                SecretPlan(iof.observed, comp.value, Pods(cluster.value), keys));
    KindIsSetAnyway(iof.desired.Contents.entries, ClusterRequest(cluster.value), Encrypted(cluster.value));
    var failure := CarryOut(iof.desired, ClusterRequest(cluster.value).(obj := Encrypted(cluster.value)));
    if failure.Some? {
      return Result(Fatal, failure.value);
    }
    failure := WriteLuksSecrets(iof, comp.value, Pods(cluster.value), keys);
    if failure.Some? {
      return Result(Fatal, failure.value);
    }
    r := NORMAL;
  }
}
