/** Raw payloads as document trees, the Kubernetes objects they decode to, and the two decoders the
    runtime uses. A field written with its zero value is the same as an absent field. */
module Payload {
  import opened Base

  /** runtime.RawExtension. Null is a nil Raw; Malformed cannot be decoded; otherwise the document
      holds an object and `unknown`, whatever fields the Go type of the object does not have. */
  datatype Raw = Null | Malformed | Doc(obj: Object, unknown: string)

  datatype Meta = Meta(name: string, namespace: string, labels: map<string, string>, rest: string)

  /** apiVersion and kind: unset, one of those the scheme has registered, or some other. */
  datatype Kind =
    | NoKind | KubeKind | ClusterKind | OpsKind | SecretKind | AlertKind | CompositeKind | OtherKind(text: string)

  /** client.Object: type meta, object meta, and a body whose constructor is the Go type. In each
      body `rest` stands for the fields of that type that the program never looks at. */
  datatype Object = Object(gvk: Kind, meta: Meta, body: Body)

  datatype Body =
    | KubeBody(providerConfig: string, references: seq<Reference>, manifest: Raw, observed: Raw, rest: string)
    | ClusterBody(instances: int, storageClass: Option<string>, conditions: Option<seq<Condition>>, rest: string)
    | OpsBody(op: string, runAt: Option<string>, sgCluster: string, restart: Option<RestartSpec>, rest: string)
    | SecretBody(data: map<string, string>, rest: string)
    | AlertBody(spec: string)
    | CompositeBody(params: Parameters, instanceNamespace: string, rest: string)
    | OtherBody(rest: string)

  datatype Target = Target(apiVersion: string, kind: string, namespace: string, name: string)
  datatype Patch = Patch(target: Target, fieldPath: string)
  datatype Reference = Reference(dependsOn: Option<Target>, patchesFrom: Option<Patch>, toFieldPath: string)
  datatype Condition = Condition(typ: Option<string>, status: Option<string>, lastTransitionTime: Option<string>)
  datatype RestartSpec = RestartSpec(mode: string, onlyPendingRestart: bool)

  /** spec.parameters of the composite. */
  datatype Parameters = Parameters(
    backupSchedule: string,
    timeOfDay: string,
    dayOfWeek: string,
    updateStrategy: string,
    encryption: bool,
    alertRef: string,
    alertSecretRef: string,
    alertTemplate: Option<string>)

  /** The Go types the scheme may know. */
  datatype Shape = Kube | Cluster | Ops | Secret | Alert | Composite | Other

  function ShapeOf(b: Body): Shape {
    match b
    case KubeBody(_, _, _, _, _) => Kube
    case ClusterBody(_, _, _, _) => Cluster
    case OpsBody(_, _, _, _, _) => Ops
    case SecretBody(_, _) => Secret
    case AlertBody(_) => Alert
    case CompositeBody(_, _, _) => Composite
    case OtherBody(_) => Other
  }

  function ZeroBody(shape: Shape): (b: Body)
    ensures ShapeOf(b) == shape
  {
    match shape
    case Kube => KubeBody("", [], Null, Null, "")
    case Cluster => ClusterBody(0, None, None, "")
    case Ops => OpsBody("", None, "", None, "")
    case Secret => SecretBody(map[], "")
    case Alert => AlertBody("")
    case Composite => CompositeBody(Parameters("", "", "", "", false, "", "", None), "", "")
    case Other => OtherBody("")
  }

  /** The zero value of a type has nothing in it: no name, no number, no list element. */
  lemma ZeroIsEmpty()
    ensures ZeroBody(Kube) == KubeBody("", [], Null, Null, "") && ZeroBody(Secret) == SecretBody(map[], "")
    ensures ZeroBody(Cluster) == ClusterBody(0, None, None, "") && ZeroBody(Ops) == OpsBody("", None, "", None, "")
    ensures ZeroBody(Alert) == AlertBody("") && ZeroBody(Other) == OtherBody("")
    ensures ZeroBody(Composite) == CompositeBody(Parameters("", "", "", "", false, "", "", None), "", "")
  {
  }

  const NO_META: Meta := Meta("", "", map[], "")

  function Label(m: Meta, key: string): string {
    if key in m.labels then m.labels[key] else ""
  }

  /** The kind the scheme has registered for a Go type; OtherBody is not registered. */
  function Registered(b: Body): Option<Kind> {
    match b
    case KubeBody(_, _, _, _, _) => Some(KubeKind)
    case ClusterBody(_, _, _, _) => Some(ClusterKind)
    case OpsBody(_, _, _, _, _) => Some(OpsKind)
    case SecretBody(_, _) => Some(SecretKind)
    case AlertBody(_) => Some(AlertKind)
    case CompositeBody(_, _, _) => Some(CompositeKind)
    case OtherBody(_) => None
  }

  /** SetGroupVersionKind(kind[0]). */
  function Typed(o: Object): Object {
    match Registered(o.body)
    case None => o
    case Some(kind) => o.(gvk := kind)
  }

  /** json.Marshal. */
  function Encode(o: Object): Raw { Doc(o, "") }

  /** What a value of the given Go type picks up from a document: fields of other types are unknown. */
  function Fields(o: Object, shape: Shape): (r: Object)
    ensures ShapeOf(r.body) == shape
  {
    if ShapeOf(o.body) == shape then o else o.(body := ZeroBody(shape))
  }

  /** json.Unmarshal into a zero value of the given type; no bytes at all are an error. */
  function DecodeJson(raw: Raw, shape: Shape): (r: Fallible<Object>)
    ensures r.Ok? ==> ShapeOf(r.value.body) == shape
  {
    match raw
    case Null => Err(NoBytes)
    case Malformed => Err(Undecodable)
    case Doc(o, _) => Ok(Fields(o, shape))
  }

  /** yaml.Unmarshal into `pre`: what the document has wins, what it lacks keeps the value of `pre`,
      and no bytes at all leave `pre` as it is. */
  function DecodeYaml(raw: Raw, pre: Object): (r: Fallible<Object>)
    ensures r.Ok? ==> ShapeOf(r.value.body) == ShapeOf(pre.body)
  {
    match raw
    case Null => Ok(pre)
    case Malformed => Err(Undecodable)
    case Doc(o, _) => Ok(Overlay(Fields(o, ShapeOf(pre.body)), pre))
  }

  function Or(a: string, b: string): string { if a != "" then a else b }

  /** Only kube objects are ever decoded into anything but an empty body. */
  function Overlay(doc: Object, pre: Object): Object {
    Object(
      if doc.gvk.NoKind? then pre.gvk else doc.gvk,
      Meta(Or(doc.meta.name, pre.meta.name), Or(doc.meta.namespace, pre.meta.namespace),
           pre.meta.labels + doc.meta.labels, Or(doc.meta.rest, pre.meta.rest)),
      if doc.body.KubeBody? && pre.body.KubeBody? then OverlayKube(doc.body, pre.body) else doc.body)
  }

  function OverlayKube(doc: Body, pre: Body): Body
    requires doc.KubeBody? && pre.KubeBody?
  {
    KubeBody(
      Or(doc.providerConfig, pre.providerConfig),
      OverlayReferences(doc.references, pre.references),
      if doc.manifest.Null? then pre.manifest else doc.manifest,
      if doc.observed.Null? then pre.observed else doc.observed,
      Or(doc.rest, pre.rest))
  }

  /** Go decodes a JSON array into the elements the slice already has, so elements merge by position. */
  function OverlayReferences(doc: seq<Reference>, pre: seq<Reference>): (r: seq<Reference>)
    ensures |r| == if doc == [] then |pre| else |doc|
  {
    if doc == [] then pre
    else seq(|doc|, i requires 0 <= i < |doc| => if i < |pre| then OverlayReference(doc[i], pre[i]) else doc[i])
  }

  function OverlayReference(doc: Reference, pre: Reference): Reference {
    Reference(
      match (doc.dependsOn, pre.dependsOn) {
        case (None, _) => pre.dependsOn
        case (_, None) => doc.dependsOn
        case (Some(d), Some(p)) => Some(OverlayTarget(d, p))
      },
      match (doc.patchesFrom, pre.patchesFrom) {
        case (None, _) => pre.patchesFrom
        case (_, None) => doc.patchesFrom
        case (Some(d), Some(p)) => Some(Patch(OverlayTarget(d.target, p.target), Or(d.fieldPath, p.fieldPath)))
      },
      Or(doc.toFieldPath, pre.toFieldPath))
  }

  function OverlayTarget(doc: Target, pre: Target): Target {
    Target(Or(doc.apiVersion, pre.apiVersion), Or(doc.kind, pre.kind),
           Or(doc.namespace, pre.namespace), Or(doc.name, pre.name))
  }

  // ---------- Overlaying is absorbing ----------

  /** Overlaying `doc` on `pre` again changes nothing. */
  ghost predicate Absorbs(doc: seq<Reference>, pre: seq<Reference>) {
    OverlayReferences(doc, pre) == doc
  }

  lemma OverlayAbsorbs(doc: seq<Reference>, pre: seq<Reference>)
    ensures Absorbs(OverlayReferences(doc, pre), pre)
  {
    var r := OverlayReferences(doc, pre);
    if r != [] {
      forall i | 0 <= i < |r| ensures OverlayReferences(r, pre)[i] == r[i] {}
    }
  }

  /** What was absorbed stays absorbed under any later overlay. */
  lemma AbsorbsKept(doc: seq<Reference>, pre: seq<Reference>, later: seq<Reference>)
    requires Absorbs(doc, pre)
    ensures Absorbs(OverlayReferences(doc, later), pre)
  {
    var r := OverlayReferences(doc, later);
    if doc == [] {
      assert pre == [];
      if r != [] {
        forall i | 0 <= i < |r| ensures OverlayReferences(r, pre)[i] == r[i] {}
      }
    } else {
      forall i | 0 <= i < |r| ensures OverlayReferences(r, pre)[i] == r[i] {
        assert OverlayReferences(doc, pre)[i] == doc[i];
      }
    }
  }
}
