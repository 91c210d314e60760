/** The values behind runtime.DesiredResources: what its operations do, said on sequences. */
module Store {
  import opened Base
  import opened Payload

  /** A desired or observed resource: name, payload, and `rest` for the fields of the
      FunctionIO entry that no operation touches. */
  datatype Resource = Resource(name: string, raw: Raw, rest: string)

  datatype Detail = Detail(name: string, value: string)

  datatype Store = Store(entries: seq<Resource>, composite: Raw, details: seq<Detail>)

  datatype Observed = Observed(resources: seq<Resource>, composite: Raw, details: seq<Detail>)

  /** The index of the first resource with the name, or the length when there is none. */
  function Find(es: seq<Resource>, name: string): (i: nat)
    ensures i <= |es|
    ensures i < |es| ==> es[i].name == name
    ensures forall k :: 0 <= k < i ==> es[k].name != name
  {
    if es == [] || es[0].name == name then 0 else 1 + Find(es[1..], name)
  }

  function Lookup(es: seq<Resource>, name: string): (r: Option<Raw>)
    ensures r.None? <==> forall e :: e in es ==> e.name != name
  {
    var i := Find(es, name);
    if i < |es| then Some(es[i].raw) else None
  }

  function PutRaw(es: seq<Resource>, name: string, raw: Raw): seq<Resource> {
    var i := Find(es, name);
    if i < |es| then es[i := es[i].(raw := raw)] else es + [Resource(name, raw, "")]
  }

  function Remove(es: seq<Resource>, name: string): Fallible<seq<Resource>> {
    var i := Find(es, name);
    if i < |es| then Ok(es[..i] + es[i + 1..]) else Err(NotFound)
  }

  /** Decodes the first resource with the name. The program's check that the kind matches compares
      an object with itself, so it never rejects anything. */
  function GetFrom(es: seq<Resource>, pre: Object, name: string): (r: Fallible<Object>)
    ensures r.Ok? ==> ShapeOf(r.value.body) == ShapeOf(pre.body)
  {
    match Lookup(es, name)
    case None => Err(NotFound)
    case Some(raw) => DecodeYaml(raw, pre)
  }

  const PROVIDER_CONFIG: string := "kubernetes"

  /** The kube object getKubeObjectFrom decodes into. */
  const EMPTY_KUBE: Object := Object(KubeKind, NO_META, ZeroBody(Kube))

  /** The kube object PutIntoObject decodes into. */
  function Wrapper(kon: string, refs: seq<Reference>): Object {
    Object(KubeKind, NO_META.(name := kon), KubeBody(PROVIDER_CONFIG, refs, Null, Null, ""))
  }

  /** ObservedResources.GetFromObject: the manifest the provider saw. */
  function ObservedObject(o: Observed, shape: Shape, kon: string): (r: Fallible<Object>)
    ensures r.Ok? ==> ShapeOf(r.value.body) == shape
  {
    match GetFrom(o.resources, EMPTY_KUBE, kon)
    case Err(e) => Err(e)
    case Ok(ko) => if ko.body.observed.Null? then Err(NotFound) else DecodeJson(ko.body.observed, shape)
  }

  /** DesiredResources.GetFromObject: the manifest to be applied. A missing resource is reported as a
      plain failure here, because the error is wrapped by its text. */
  function DesiredObject(es: seq<Resource>, shape: Shape, kon: string): (r: Fallible<Object>)
    ensures r.Ok? ==> ShapeOf(r.value.body) == shape
  {
    match GetFrom(es, EMPTY_KUBE, kon)
    case Err(e) => Err(Wrapped(e))
    case Ok(ko) => if ko.body.manifest.Null? then Err(NotFound) else DecodeJson(ko.body.manifest, shape)
  }

  /** put: the object, with its registered kind set, becomes the payload of the named entry. */
  function PutEntry(es: seq<Resource>, o: Object, name: string): Fallible<seq<Resource>> {
    if Registered(o.body).None? then Err(Unregistered)
    else Ok(PutRaw(es, name, Encode(Typed(o))))
  }

  /** The payload PutIntoObject leaves under kon, given the one it finds. */
  function PutIntoSlot(slot: Option<Raw>, o: Object, kon: string, refs: seq<Reference>): Fallible<Raw> {
    match (match slot case None => Ok(Wrapper(kon, refs)) case Some(raw) => DecodeYaml(raw, Wrapper(kon, refs)))
    case Err(e) => Err(e)
    case Ok(ko) =>
      if Registered(o.body).None? then Err(Unregistered)
      else Ok(Encode(Typed(ko.(body := ko.body.(manifest := Encode(Typed(o)))))))
  }

  function PutIntoObject(es: seq<Resource>, o: Object, kon: string, refs: seq<Reference>): Fallible<seq<Resource>> {
    match PutIntoSlot(Lookup(es, kon), o, kon, refs)
    case Err(e) => Err(e)
    case Ok(raw) => Ok(PutRaw(es, kon, raw))
  }

  function FindDetail(ds: seq<Detail>, name: string): (i: nat)
    ensures i <= |ds|
    ensures i < |ds| ==> ds[i].name == name
    ensures forall k :: 0 <= k < i ==> ds[k].name != name
  {
    if ds == [] || ds[0].name == name then 0 else 1 + FindDetail(ds[1..], name)
  }

  function PutDetail(ds: seq<Detail>, cd: Detail): seq<Detail> {
    var i := FindDetail(ds, cd.name);
    if i < |ds| then ds[i := cd] else ds + [cd]
  }

  function RemoveDetail(ds: seq<Detail>, cd: Detail): Fallible<seq<Detail>> {
    var i := FindDetail(ds, cd.name);
    if i < |ds| then Ok(ds[..i] + ds[i + 1..]) else Err(NotFound)
  }

  // ---------- One call of the store's interface ----------

  datatype Op =
    | PutOp(obj: Object)
    | PutIntoObjectOp(obj: Object, kon: string, refs: seq<Reference>)
    | RemoveOp(name: string)
    | SetCompositeOp(obj: Object)
    | PutDetailOp(cd: Detail)
    | RemoveDetailOp(cd: Detail)

  function WithEntries(s: Store, r: Fallible<seq<Resource>>): (Store, Option<Error>) {
    match r
    case Ok(es) => (s.(entries := es), None)
    case Err(e) => (s, Some(e))
  }

  function WithDetails(s: Store, r: Fallible<seq<Detail>>): (Store, Option<Error>) {
    match r
    case Ok(ds) => (s.(details := ds), None)
    case Err(e) => (s, Some(e))
  }

  /** The store after one call, and the error the call reports. */
  function Step(s: Store, op: Op): (Store, Option<Error>) {
    match op
    case PutOp(obj) => WithEntries(s, PutEntry(s.entries, obj, obj.meta.name))
    case PutIntoObjectOp(obj, kon, refs) => WithEntries(s, PutIntoObject(s.entries, obj, kon, refs))
    case RemoveOp(name) => WithEntries(s, Remove(s.entries, name))
    case SetCompositeOp(obj) => (s.(composite := Encode(obj)), None)
    case PutDetailOp(cd) => (s.(details := PutDetail(s.details, cd)), None)
    case RemoveDetailOp(cd) => WithDetails(s, RemoveDetail(s.details, cd))
  }

  /** A sequence of calls; callers may go on after an error. */
  function Steps(s: Store, ops: seq<Op>): Store
    decreases |ops|
  {
    if ops == [] then s else Steps(Step(s, ops[0]).0, ops[1..])
  }

  /** The connection details just before the first call that makes them outgrow their room, if one does. */
  function BeforeOutgrown(s: Store, ops: seq<Op>, room: nat): (r: Option<seq<Detail>>)
    requires |s.details| <= room
    ensures r.Some? ==> |r.value| == room
    decreases |ops|
  {
    if ops == [] then None
    else if |Step(s, ops[0]).0.details| > room then Some(s.details)
    else BeforeOutgrown(Step(s, ops[0]).0, ops[1..], room)
  }

  /** The call updates a connection detail that is there. */
  predicate UpdatesDetail(s: Store, op: Op) {
    op.PutDetailOp? && FindDetail(s.details, op.cd.name) < |s.details|
  }

  // ---------- Facts about lookups ----------

  lemma FindUnique(es: seq<Resource>, name: string, i: nat)
    requires i <= |es| && (i < |es| ==> es[i].name == name)
    requires forall k :: 0 <= k < i ==> es[k].name != name
    ensures Find(es, name) == i
  {
  }

  lemma FindDetailUnique(ds: seq<Detail>, name: string, i: nat)
    requires i <= |ds| && (i < |ds| ==> ds[i].name == name)
    requires forall k :: 0 <= k < i ==> ds[k].name != name
    ensures FindDetail(ds, name) == i
  {
  }

  /** A write is seen under its own name and under no other. */
  lemma LookupPut(es: seq<Resource>, name: string, raw: Raw, other: string)
    ensures Lookup(PutRaw(es, name, raw), other) == if other == name then Some(raw) else Lookup(es, other)
  {
    var i, j := Find(es, name), Find(es, other);
    var es' := PutRaw(es, name, raw);
    if j < |es| || other == name {
      FindUnique(es', other, j);
    } else {
      FindUnique(es', other, |es'|);
    }
  }

  /** Puts keep every entry where it is, with its name and its untouched fields, and append at most one. */
  lemma PutKeepsPlaces(es: seq<Resource>, name: string, raw: Raw)
    ensures var es' := PutRaw(es, name, raw);
      && |es| <= |es'| <= |es| + 1
      && (forall k :: 0 <= k < |es| ==> es'[k].name == es[k].name && es'[k].rest == es[k].rest)
      && (forall k :: 0 <= k < |es| && k != Find(es, name) ==> es'[k] == es[k])
      && (Lookup(es, name).Some? ==> |es'| == |es|)
  {
  }

  /** After PutIntoObject(o, kon) reading kon back gives o with its registered kind; no other name
      changes; and of a payload that was there only the manifest is replaced. */
  lemma PutGetRoundTrip(es: seq<Resource>, o: Object, kon: string, refs: seq<Reference>)
    requires PutIntoObject(es, o, kon, refs).Ok?
    ensures var es' := PutIntoObject(es, o, kon, refs).value;
      && DesiredObject(es', ShapeOf(o.body), kon) == Ok(Typed(o))
      && (forall n :: n != kon ==> Lookup(es', n) == Lookup(es, n))
      && ReplacesManifest(Lookup(es, kon), Lookup(es', kon), o, kon, refs)
  {
    var slot := Lookup(es, kon);
    var raw := PutIntoSlot(slot, o, kon, refs).value;
    forall n ensures Lookup(PutRaw(es, kon, raw), n) == if n == kon then Some(raw) else Lookup(es, n) {
      LookupPut(es, kon, raw, n);
    }
    assert raw.obj.body.manifest == Encode(Typed(o));
    if slot.Some? && slot.value.Doc? {
      KeepsFields(slot.value.obj, kon, refs, Encode(Typed(o)));
    }
  }

  /** `now` holds a kube object for o: the fields of `was` where it set them, and the wrapper's elsewhere. */
  ghost predicate ReplacesManifest(was: Option<Raw>, now: Option<Raw>, o: Object, kon: string, refs: seq<Reference>) {
    && now.Some? && now.value.Doc? && now.value.unknown == "" && now.value.obj.body.KubeBody?
    && now.value.obj.gvk == KubeKind && now.value.obj.body.manifest == Encode(Typed(o))
    && match was {
         case Some(Malformed) => false
         case Some(Doc(before, _)) => KeepsKubeFields(before, now.value.obj, kon, refs)
         case _ =>
           && now.value.obj.meta == Meta(kon, "", map[], "")
           && now.value.obj.body == KubeBody("kubernetes", refs, Encode(Typed(o)), Null, "")
       }
  }

  /** Every field of `ko` outside kind and manifest is that of `was`, or the wrapper's where `was` has none. */
  ghost predicate KeepsKubeFields(was: Object, ko: Object, kon: string, refs: seq<Reference>)
    requires ko.body.KubeBody?
  {
    && ko.meta == Meta(if was.meta.name == "" then kon else was.meta.name, was.meta.namespace, was.meta.labels,
                       was.meta.rest)
    && if was.body.KubeBody? then
         && ko.body.providerConfig == (if was.body.providerConfig == "" then "kubernetes" else was.body.providerConfig)
         && MergedByPosition(was.body.references, refs, ko.body.references)
         && ko.body.observed == was.body.observed && ko.body.rest == was.body.rest
       else
         ko.body.providerConfig == "kubernetes" && ko.body.references == refs && ko.body.observed.Null?
         && ko.body.rest == ""
  }

  /** A list of references over another: the list that is there says how many there are, and each of its
      elements is filled in from the one at the same place. */
  ghost predicate MergedByPosition(was: seq<Reference>, refs: seq<Reference>, now: seq<Reference>) {
    if was == [] then now == refs
    else
      && |now| == |was|
      && forall i :: 0 <= i < |was| ==>
           if i < |refs| then MergedReference(was[i], refs[i], now[i]) else now[i] == was[i]
  }

  ghost predicate MergedReference(was: Reference, add: Reference, now: Reference) {
    && (was.dependsOn.None? ==> now.dependsOn == add.dependsOn)
    && (add.dependsOn.None? ==> now.dependsOn == was.dependsOn)
    && (was.dependsOn.Some? && add.dependsOn.Some? ==>
          now.dependsOn.Some? && MergedTarget(was.dependsOn.value, add.dependsOn.value, now.dependsOn.value))
    && (was.patchesFrom.None? ==> now.patchesFrom == add.patchesFrom)
    && (add.patchesFrom.None? ==> now.patchesFrom == was.patchesFrom)
    && (was.patchesFrom.Some? && add.patchesFrom.Some? ==>
          && now.patchesFrom.Some?
          && MergedTarget(was.patchesFrom.value.target, add.patchesFrom.value.target, now.patchesFrom.value.target)
          && Filled(was.patchesFrom.value.fieldPath, add.patchesFrom.value.fieldPath, now.patchesFrom.value.fieldPath))
    && Filled(was.toFieldPath, add.toFieldPath, now.toFieldPath)
  }

  ghost predicate MergedTarget(was: Target, add: Target, now: Target) {
    && Filled(was.apiVersion, add.apiVersion, now.apiVersion) && Filled(was.kind, add.kind, now.kind)
    && Filled(was.namespace, add.namespace, now.namespace) && Filled(was.name, add.name, now.name)
  }

  ghost predicate Filled(was: string, add: string, now: string) {
    (was != "" ==> now == was) && (was == "" ==> now == add)
  }

  lemma OverlayMerges(was: seq<Reference>, refs: seq<Reference>)
    ensures MergedByPosition(was, refs, OverlayReferences(was, refs))
  {
    hide OverlayReference, MergedReference;
    forall a: Reference, b: Reference ensures MergedReference(a, b, OverlayReference(a, b)) {
      ReferencesMerge(a, b);
    }
  }

  lemma ReferencesMerge(was: Reference, add: Reference)
    ensures MergedReference(was, add, OverlayReference(was, add))
  {
  }

  lemma KeepsFields(was: Object, kon: string, refs: seq<Reference>, m: Raw)
    requires m.Doc?
    ensures var ko := Overlay(Fields(was, Kube), Wrapper(kon, refs));
      KeepsKubeFields(was, Object(KubeKind, ko.meta, ko.body.(manifest := m)), kon, refs)
  {
    OverlayMerges(Fields(was, Kube).body.references, refs);
    hide OverlayReferences, MergedByPosition;
    assert map[] + was.meta.labels == was.meta.labels;
    assert MergedByPosition([], refs, OverlayReferences([], refs)) && OverlayReferences([], refs) == refs by {
      NothingMerged(refs);
    }
  }

  lemma NothingMerged(refs: seq<Reference>)
    ensures MergedByPosition([], refs, OverlayReferences([], refs)) && OverlayReferences([], refs) == refs
  {
  }

  // ---------- Reading back ----------

  /** The observed side reads what the provider saw, whatever the spec beside it asks for. */
  lemma ObservedIsStatus(o: Observed, kon: string, ko: Object, unknown: string)
    requires Lookup(o.resources, kon) == Some(Doc(ko, unknown)) && ko.body.KubeBody?
    ensures forall obj, u :: ko.body.observed == Doc(obj, u) ==> ObservedObject(o, ShapeOf(obj.body), kon) == Ok(obj)
    ensures ko.body.observed.Malformed? ==> forall shape :: ObservedObject(o, shape, kon) == Err(Undecodable)
    ensures ko.body.observed.Null? ==> forall shape :: ObservedObject(o, shape, kon) == Err(NotFound)
  {
    hide Lookup, OverlayReferences;
  }

  /** The desired side reads what the spec asks for, whatever the provider saw. */
  lemma DesiredIsSpec(es: seq<Resource>, kon: string, ko: Object, unknown: string)
    requires Lookup(es, kon) == Some(Doc(ko, unknown)) && ko.body.KubeBody?
    ensures forall obj, u :: ko.body.manifest == Doc(obj, u) ==> DesiredObject(es, ShapeOf(obj.body), kon) == Ok(obj)
    ensures ko.body.manifest.Malformed? ==> forall shape :: DesiredObject(es, shape, kon) == Err(Undecodable)
    ensures ko.body.manifest.Null? ==> forall shape :: DesiredObject(es, shape, kon) == Err(NotFound)
  {
    hide Lookup, OverlayReferences;
  }

  /** What a missing, empty, undecodable or foreign entry reads as: a missing one is "not found" on the
      observed side only. */
  lemma NothingToRead(es: seq<Resource>, o: Observed, kon: string, shape: Shape)
    requires o.resources == es
    ensures match Lookup(es, kon)
      case None =>
        && ObservedObject(o, shape, kon) == Err(NotFound)
        && DesiredObject(es, shape, kon) == Err(Wrapped(NotFound))
      case Some(Null) =>
        && ObservedObject(o, shape, kon) == Err(NotFound)
        && DesiredObject(es, shape, kon) == Err(NotFound)
      case Some(Malformed) =>
        && ObservedObject(o, shape, kon) == Err(Undecodable)
        && DesiredObject(es, shape, kon) == Err(Wrapped(Undecodable))
      case Some(Doc(ko, _)) => !ko.body.KubeBody? ==>
        ObservedObject(o, shape, kon) == Err(NotFound) && DesiredObject(es, shape, kon) == Err(NotFound)
  {
    hide Lookup, OverlayReferences;
  }

  /** Get decodes the first entry with the name into an empty object: the entry's own object, with the kind
      of the empty one where it has none itself. */
  lemma GetReads(es: seq<Resource>, name: string, obj: Object, unknown: string, kind: Kind)
    requires Lookup(es, name) == Some(Doc(obj, unknown))
    ensures GetFrom(es, Object(kind, Meta("", "", map[], ""), ZeroBody(ShapeOf(obj.body))), name)
         == Ok(if obj.gvk.NoKind? then obj.(gvk := kind) else obj)
  {
    hide Lookup, OverlayReference;
    assert map[] + obj.meta.labels == obj.meta.labels;
    if obj.body.KubeBody? {
      assert OverlayReferences(obj.body.references, []) == obj.body.references;
    }
  }

  /** A composite without bytes is an error, one that cannot be decoded another; a document of another
      type keeps kind and metadata and has that type's empty body. */
  lemma DecodeCases(raw: Raw, shape: Shape)
    ensures match raw
      case Null => DecodeJson(raw, shape) == Err(NoBytes)
      case Malformed => DecodeJson(raw, shape) == Err(Undecodable)
      case Doc(obj, _) =>
        DecodeJson(raw, shape)
          == Ok(if ShapeOf(obj.body) == shape then obj else Object(obj.gvk, obj.meta, ZeroBody(shape)))
  {
  }

  /** Put leaves the object under its name, with the kind the scheme knows its Go type by; reading it back
      into an empty object of that type gives it. */
  lemma PutReadsBack(es: seq<Resource>, o: Object, name: string)
    ensures match o.body
      case OtherBody(_) => PutEntry(es, o, name) == Err(Unregistered)
      case _ =>
        && PutEntry(es, o, name).Ok?
        && Lookup(PutEntry(es, o, name).value, name) == Some(Doc(o.(gvk := KindOfType(ShapeOf(o.body))), ""))
  {
    LookupPut(es, name, Encode(Typed(o)), name);
    hide Lookup, PutRaw;
  }

  function KindOfType(shape: Shape): Kind {
    match shape
    case Kube => KubeKind
    case Cluster => ClusterKind
    case Ops => OpsKind
    case Secret => SecretKind
    case Alert => AlertKind
    case Composite => CompositeKind
    case Other => NoKind
  }
}
