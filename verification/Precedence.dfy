/** Alerting: validation before any write, and who wins when both a reference and a template are set. */
module Precedence {
  import opened Base
  import opened Payload
  import opened Store
  import opened Runtime
  import opened Plan
  import opened Writes
  import opened Alerting

  /** A missing secret reference is fatal and leaves the store untouched, for every combination of
      reference and template; without either, nothing is asked of it. */
  lemma ValidationIsAllOrNothing(o: Observed, s: Store, comp: Object)
    requires DecodeJson(o.composite, Composite) == Ok(comp)
    requires comp.body.instanceNamespace != "" && comp.body.params.alertSecretRef == ""
    ensures AlertOutcome(o, s)
         == Outcome(s, if comp.body.params.alertRef == "" && comp.body.params.alertTemplate.None?
                       then Result(Normal, Success) else Result(Fatal, NoSecretRef))
  {
    var plan := AlertPlan(o);
    assert plan == RefPart(comp) + TemplatePart(comp);
    if comp.body.params.alertRef != "" {
      assert plan[0] == Abort(NoSecretRef);
    }
  }

  /** Without a composite the run fails, without its instance namespace it warns and waits; in both cases
      nothing is written. */
  lemma AlertingNotReady(o: Observed, s: Store)
    ensures match DecodeJson(o.composite, Composite)
      case Err(_) => AlertOutcome(o, s) == Outcome(s, Result(Fatal, NoComposite))
      case Ok(comp) =>
        comp.body.instanceNamespace == "" ==> AlertOutcome(o, s) == Outcome(s, Result(Warning, NoNamespace))
  {
    hide DecodeJson;
  }

  /** An object of the instance namespace, as a manifest. */
  function Manifest(kind: Kind, comp: Object, name: string, body: Body): Raw
    requires comp.body.CompositeBody?
  {
    Doc(Object(kind, Meta(name, comp.body.instanceNamespace, map[], ""), body), "")
  }

  /** The references of the kube object an entry holds. */
  function ReferencesIn(slot: Option<Raw>): seq<Reference> {
    match slot
    case Some(Doc(o, _)) => if o.body.KubeBody? then o.body.references else []
    case _ => []
  }

  /** The namespace of the claim, from the composite's label. */
  function ClaimNamespace(comp: Object): string {
    var labels := comp.meta.labels;
    if "crossplane.io/claim-namespace" in labels then labels["crossplane.io/claim-namespace"] else ""
  }

  /** A reference that takes one field of an object in the claim's namespace over into the same field. */
  function TakenOver(apiVersion: string, kind: string, comp: Object, name: string, field: string): Reference {
    Reference(None, Some(Patch(Target(apiVersion, kind, ClaimNamespace(comp), name), field)), field)
  }

  /** The reference to the config the user points to, when there is one. */
  function UserReference(comp: Object): seq<Reference>
    requires comp.body.CompositeBody?
  {
    var ref := comp.body.params.alertRef;
    if ref == "" then [] else [TakenOver("monitoring.coreos.com/v1alpha1", "AlertmanagerConfig", comp, ref, "spec")]
  }

  function SecretReference(comp: Object): seq<Reference>
    requires comp.body.CompositeBody?
  {
    [TakenOver("v1", "Secret", comp, comp.body.params.alertSecretRef, "data")]
  }

  lemma ReferencesAsTold(comp: Object)
    requires comp.body.CompositeBody?
    ensures FromSecret(comp).refs == SecretReference(comp)
    ensures comp.body.params.alertRef != "" ==> FromRef(comp).refs == UserReference(comp)
  {
  }

  /** What the run leaves under the name of the alertmanager config: these references over those that were
      there, and the manifest of the template when there is one. */
  ghost predicate ConfigWritten(comp: Object, es: seq<Resource>, was: seq<Reference>)
    requires comp.body.CompositeBody?
  {
    var p, raw := comp.body.params, Lookup(es, comp.meta.name + "-alertmanagerconfig");
    && raw.Some? && raw.value.Doc? && raw.value.obj.body.KubeBody?
    && MergedByPosition(was, UserReference(comp), raw.value.obj.body.references)
    && raw.value.obj.body.manifest == (match p.alertTemplate {
         case Some(spec) => Manifest(AlertKind, comp, p.alertSecretRef, AlertBody(spec))
         case None => Manifest(AlertKind, comp, "postgresql-alertmanagerconfig", AlertBody(""))
       })
  }

  ghost predicate SecretWritten(comp: Object, es: seq<Resource>, was: seq<Reference>)
    requires comp.body.CompositeBody?
  {
    var p, raw := comp.body.params, Lookup(es, comp.meta.name + "-alertmanagerconfigsecret");
    && raw.Some? && raw.value.Doc? && raw.value.obj.body.KubeBody?
    && MergedByPosition(was, SecretReference(comp), raw.value.obj.body.references)
    && raw.value.obj.body.manifest == Manifest(SecretKind, comp, p.alertSecretRef, SecretBody(map[], ""))
  }

  lemma NamesDiffer(comp: Object)
    ensures ConfigName(comp) != SecretName(comp)
  {
    assert |ConfigName(comp)| < |SecretName(comp)|;
  }

  /** A write merges its references with those it finds, by position, and replaces the manifest. */
  lemma WriteMerges(slot: Option<Raw>, r: Request)
    requires r.Emit? && Registered(r.obj.body).Some? && slot != Some(Malformed)
    ensures Works(slot, r)
    ensures var raw := WriteSlot(slot, r);
      && raw.Doc? && raw.obj.body.KubeBody? && raw.obj.body.manifest == Encode(Typed(r.obj))
      && ReferencesIn(Some(raw)) == OverlayReferences(ReferencesIn(slot), r.refs)
  {
  }

  lemma NoNewReferences(was: seq<Reference>)
    ensures OverlayReferences(was, []) == was
  {
  }

  /** The config's slot: the template replaces the manifest and leaves the references. */
  lemma ConfigAfter(slot: Option<Raw>, comp: Object)
    requires comp.body.CompositeBody? && comp.body.params.alertSecretRef != "" && slot != Some(Malformed)
    requires comp.body.params.alertRef != "" || comp.body.params.alertTemplate.Some?
    ensures var p := comp.body.params; var raw := SlotAfter(slot, RefPart(comp) + TemplatePart(comp), ConfigName(comp));
      && raw.Some? && raw.value.Doc? && raw.value.obj.body.KubeBody?
      && raw.value.obj.body.references == OverlayReferences(ReferencesIn(slot), UserReference(comp))
      && raw.value.obj.body.manifest
         == Encode(Typed(if p.alertTemplate.Some? then FromTemplate(comp).obj else FromRef(comp).obj))
  {
    hide WriteSlot, ConfigName, OverlayReferences, FromRef, FromTemplate, UserReference;
    WritesToConfig(comp);
    ReferencesAsTold(comp);
    var p, n := comp.body.params, ConfigName(comp);
    SlotAfterAppend(slot, RefPart(comp), TemplatePart(comp), n);
    var first := SlotAfter(slot, RefPart(comp), n);
    if p.alertRef != "" {
      WriteMerges(slot, FromRef(comp));
      OneWrite(slot, FromRef(comp), n);
    }
    NoNewReferences(ReferencesIn(first));
    NoUserReference(comp);
    if p.alertTemplate.Some? {
      WriteMerges(first, FromTemplate(comp));
      OneWrite(first, FromTemplate(comp), n);
    }
    NoNewReferences(ReferencesIn(slot));
  }

  lemma NoUserReference(comp: Object)
    requires comp.body.CompositeBody?
    ensures comp.body.params.alertRef == "" ==> UserReference(comp) == []
  {
  }

  lemma WritesToConfig(comp: Object)
    requires comp.body.CompositeBody?
    ensures var r := FromRef(comp); r.Emit? && r.kon == ConfigName(comp) && Registered(r.obj.body).Some?
    ensures comp.body.params.alertTemplate.Some? ==>
      var r := FromTemplate(comp); r.Emit? && r.kon == ConfigName(comp) && Registered(r.obj.body).Some? && r.refs == []
  {
    hide ConfigName;
  }

  lemma OneWrite(slot: Option<Raw>, r: Request, n: string)
    requires r.Emit?
    ensures r.kon == n && Works(slot, r) ==> SlotAfter(slot, [r], n) == Some(WriteSlot(slot, r))
    ensures r.kon != n ==> SlotAfter(slot, [r], n) == slot
  {
    hide WriteSlot;
    assert forall s: Option<Raw> :: SlotAfter(s, [r][1..], n) == s;
  }

  /** The user asks for a config, by a reference or by a template. */
  predicate WantsConfig(comp: Object)
    requires comp.body.CompositeBody?
  {
    comp.body.params.alertRef != "" || comp.body.params.alertTemplate.Some?
  }

  /** The config has an entry that can be written to, or is not asked for. */
  ghost predicate ConfigWritable(comp: Object, es: seq<Resource>)
    requires comp.body.CompositeBody?
  {
    WantsConfig(comp) ==> !CannotDecode(es, comp.meta.name + "-alertmanagerconfig")
  }

  /** What is written to the config, on top of the references found there. */
  ghost predicate ConfigMerged(comp: Object, was: seq<Resource>, es: seq<Resource>)
    requires comp.body.CompositeBody?
  {
    if WantsConfig(comp) then
      ConfigWritten(comp, es, ReferencesIn(Lookup(was, comp.meta.name + "-alertmanagerconfig")))
    else SameSlot(es, was, comp.meta.name + "-alertmanagerconfig")
  }

  ghost predicate SecretMerged(comp: Object, was: seq<Resource>, es: seq<Resource>)
    requires comp.body.CompositeBody?
  {
    SecretWritten(comp, es, ReferencesIn(Lookup(was, comp.meta.name + "-alertmanagerconfigsecret")))
  }

  /** Precedence: with a secret reference the run succeeds exactly when the secret's entry can be written
      to, and the config's too where a config is asked for. The config entry then carries the manifest of
      the template when there is one and of the reference otherwise, and the patch reference exactly when
      a reference is set, merged with what was there; the secret entry is beside it. A run that fails at
      the config leaves the store as it was, and one that fails at the secret leaves the config alone; no
      other name is ever touched. */
  lemma TemplateWinsAnywhere(o: Observed, s: Store, comp: Object)
    requires DecodeJson(o.composite, Composite) == Ok(comp)
    requires comp.body.instanceNamespace != "" && comp.body.params.alertSecretRef != ""
    ensures var out, es := AlertOutcome(o, s), AlertOutcome(o, s).store.entries;
      var secretName := comp.meta.name + "-alertmanagerconfigsecret";
      && out.result == (
           if !ConfigWritable(comp, s.entries) then
             Result(Fatal, CannotDeploy(if comp.body.params.alertRef != "" then "ref" else "template"))
           else if CannotDecode(s.entries, secretName) then Result(Fatal, CannotDeploy("secret"))
           else Result(Normal, Success))
      && out.store == s.(entries := es)
      && (!ConfigWritable(comp, s.entries) ==> es == s.entries)
      && (ConfigWritable(comp, s.entries) ==>
            && ConfigMerged(comp, s.entries, es)
            && if CannotDecode(s.entries, secretName) then SameSlot(es, s.entries, secretName)
               else SecretMerged(comp, s.entries, es))
      && (forall n :: n != comp.meta.name + "-alertmanagerconfig" && n != secretName ==> SameSlot(es, s.entries, n))
  {
    assert ConfigName(comp) == comp.meta.name + "-alertmanagerconfig";
    assert SecretName(comp) == comp.meta.name + "-alertmanagerconfigsecret";
    var config := RefPart(comp) + TemplatePart(comp);
    assert AlertPlan(o) == config + SecretPart(comp);
    assert AlertEnd(o) == Result(Normal, Success);
    hide AlertPlan, AlertEnd, Carry, Lookup, Effective, WriteAll, SlotAfter, ConfigName, SecretName, DecodeJson,
         RefPart, TemplatePart, SecretPart, FailureOf, Works, CannotDecode, ConfigMerged, SecretMerged, ConfigWritable;
    CarryIsWriteAll(s.entries, config + SecretPart(comp));
    EffectiveAppend(s.entries, config, SecretPart(comp));
    WhatConfigDoes(s.entries, comp);
    WhatSecretDoes(s.entries, comp);
    var rs := Effective(s.entries, config + SecretPart(comp));
    var es := WriteAll(s.entries, rs);
    PlanNames(comp);
    PrefixMembers(rs, config + SecretPart(comp));
    forall n | n != ConfigName(comp) && n != SecretName(comp) ensures SameSlot(es, s.entries, n) {
      LookupWriteAll(s.entries, rs, n);
      SlotAvoided(Lookup(s.entries, n), rs, n);
    }
    LookupWriteAll(s.entries, rs, ConfigName(comp));
    LookupWriteAll(s.entries, rs, SecretName(comp));
    if ConfigWritable(comp, s.entries) {
      TwoSlots(comp, s.entries, es);
    } else {
      NothingWritten(s.entries);
    }
  }

  lemma NothingWritten(es: seq<Resource>)
    ensures WriteAll(es, []) == es
  {
  }

  /** The config's part of the plan is carried out as a whole or not at all. */
  lemma WhatConfigDoes(es: seq<Resource>, comp: Object)
    requires comp.body.CompositeBody? && comp.body.params.alertSecretRef != ""
    ensures var plan := RefPart(comp) + TemplatePart(comp);
      if ConfigWritable(comp, es) then Effective(es, plan) == plan && FailureOf(es, plan).None?
      else
        && Effective(es, plan) == []
        && FailureOf(es, plan) == Some(CannotDeploy(if comp.body.params.alertRef != "" then "ref" else "template"))
  {
    assert ConfigName(comp) == comp.meta.name + "-alertmanagerconfig";
    hide Lookup, ConfigName, PatchReference;
    var plan := RefPart(comp) + TemplatePart(comp);
    if ConfigWritable(comp, es) {
      AllRegisteredWorks(es, plan);
      NoFailureAllEffective(es, plan);
    }
  }

  lemma WhatSecretDoes(es: seq<Resource>, comp: Object)
    requires comp.body.CompositeBody? && comp.body.params.alertSecretRef != ""
    ensures var plan := SecretPart(comp);
      if CannotDecode(es, SecretName(comp))
      then Effective(es, plan) == [] && FailureOf(es, plan) == Some(CannotDeploy("secret"))
      else Effective(es, plan) == plan && FailureOf(es, plan).None?
  {
    hide Lookup, SecretName, PatchReference;
    assert SecretPart(comp)[1..] == [];
  }

  /** With no entries under the two names before, the references are just those of the run. */
  lemma TemplateWinsReferenceStays(o: Observed, s: Store, comp: Object)
    requires DecodeJson(o.composite, Composite) == Ok(comp)
    requires comp.body.instanceNamespace != "" && comp.body.params.alertSecretRef != ""
    requires Lookup(s.entries, comp.meta.name + "-alertmanagerconfig").None?
    requires Lookup(s.entries, comp.meta.name + "-alertmanagerconfigsecret").None?
    ensures var out := AlertOutcome(o, s);
      && out.result == Result(Normal, Success)
      && (WantsConfig(comp) ==>
            var config := Lookup(out.store.entries, comp.meta.name + "-alertmanagerconfig");
            && ConfigWritten(comp, out.store.entries, [])
            && ReferencesIn(config) == UserReference(comp))
      && var secret := Lookup(out.store.entries, comp.meta.name + "-alertmanagerconfigsecret");
      && SecretWritten(comp, out.store.entries, [])
      && ReferencesIn(secret) == SecretReference(comp)
  {
    hide AlertOutcome, Lookup, UserReference, SecretReference, DecodeJson;
    TemplateWinsAnywhere(o, s, comp);
  }

  lemma PlanNames(comp: Object)
    requires comp.body.CompositeBody? && comp.body.params.alertSecretRef != ""
    ensures forall r :: r in RefPart(comp) + TemplatePart(comp) + SecretPart(comp) ==>
      r.Emit? && Registered(r.obj.body).Some? && (r.kon == ConfigName(comp) || r.kon == SecretName(comp))
  {
    hide ConfigName, SecretName;
  }

  /** The two entries. */
  lemma TwoSlots(comp: Object, was: seq<Resource>, es: seq<Resource>)
    requires comp.body.CompositeBody? && comp.body.params.alertSecretRef != "" && ConfigWritable(comp, was)
    requires var config := RefPart(comp) + TemplatePart(comp);
      var rs := if CannotDecode(was, SecretName(comp)) then config else config + SecretPart(comp);
      && Lookup(es, ConfigName(comp)) == SlotAfter(Lookup(was, ConfigName(comp)), rs, ConfigName(comp))
      && Lookup(es, SecretName(comp)) == SlotAfter(Lookup(was, SecretName(comp)), rs, SecretName(comp))
    ensures ConfigMerged(comp, was, es)
    ensures if CannotDecode(was, SecretName(comp)) then Lookup(es, SecretName(comp)) == Lookup(was, SecretName(comp))
      else SecretMerged(comp, was, es)
  {
    hide Lookup, ConfigName, SecretName, WriteSlot, Works, SlotAfter, ConfigMerged, SecretMerged, FromSecret, FromRef,
         FromTemplate, ConfigWritable, WantsConfig, TemplatePart, RefPart;
    NamesDiffer(comp);
    PlanAvoids(comp);
    var config := RefPart(comp) + TemplatePart(comp);
    var slot, secret := Lookup(was, ConfigName(comp)), Lookup(was, SecretName(comp));
    SlotAfterAppend(slot, config, SecretPart(comp), ConfigName(comp));
    SlotAfterAppend(secret, config, SecretPart(comp), SecretName(comp));
    SlotAvoided(secret, config, SecretName(comp));
    SlotAvoided(SlotAfter(slot, config, ConfigName(comp)), SecretPart(comp), ConfigName(comp));
    if !CannotDecode(was, SecretName(comp)) {
      SecretSlot(comp, was, es);
    }
    ConfigSlot(comp, was, es);
  }

  lemma PlanAvoids(comp: Object)
    requires comp.body.CompositeBody?
    ensures Avoids(RefPart(comp) + TemplatePart(comp), SecretName(comp)) && Avoids(SecretPart(comp), ConfigName(comp))
  {
    NamesDiffer(comp);
    hide ConfigName, SecretName, PatchReference;
  }

  lemma SecretSlot(comp: Object, was: seq<Resource>, es: seq<Resource>)
    requires comp.body.CompositeBody? && comp.body.params.alertSecretRef != ""
    requires Lookup(es, SecretName(comp))
          == SlotAfter(Lookup(was, SecretName(comp)), SecretPart(comp), SecretName(comp))
    ensures !CannotDecode(was, SecretName(comp)) ==> SecretMerged(comp, was, es)
  {
    assert SecretName(comp) == comp.meta.name + "-alertmanagerconfigsecret";
    hide Lookup, SecretName, WriteSlot, Works, OverlayReferences, MergedByPosition, SecretReference, PatchReference;
    var secret := Lookup(was, SecretName(comp));
    ReferencesAsTold(comp);
    OverlayMerges(ReferencesIn(secret), SecretReference(comp));
    OneWrite(secret, FromSecret(comp), SecretName(comp));
    if secret != Some(Malformed) {
      WriteMerges(secret, FromSecret(comp));
    }
  }

  lemma ConfigSlot(comp: Object, was: seq<Resource>, es: seq<Resource>)
    requires comp.body.CompositeBody? && comp.body.params.alertSecretRef != "" && ConfigWritable(comp, was)
    requires Lookup(es, ConfigName(comp))
          == SlotAfter(Lookup(was, ConfigName(comp)), RefPart(comp) + TemplatePart(comp), ConfigName(comp))
    ensures ConfigMerged(comp, was, es)
  {
    assert ConfigName(comp) == comp.meta.name + "-alertmanagerconfig";
    hide Lookup, ConfigName, WriteSlot, Works, OverlayReferences, MergedByPosition, UserReference, PatchReference;
    var slot := Lookup(was, ConfigName(comp));
    OverlayMerges(ReferencesIn(slot), UserReference(comp));
    if WantsConfig(comp) {
      ConfigAfter(slot, comp);
    } else {
      assert RefPart(comp) + TemplatePart(comp) == [];
    }
  }
}
