/** functions/vshn-postgres-func/alerting.go */
module Alerting {
  import opened Base
  import opened Payload
  import opened Store
  import opened Desired
  import opened Runtime
  import opened Plan

  const CLAIM_NAMESPACE: string := "crossplane.io/claim-namespace"

  /** A reference that patches one field of the kube object from another object. */
  function PatchReference(apiVersion: string, kind: string, comp: Object, name: string, path: string): Reference {
    Reference(None, Some(Patch(Target(apiVersion, kind, Label(comp.meta, CLAIM_NAMESPACE), name), path)), path)
  }

  function ConfigName(comp: Object): string { comp.meta.name + "-alertmanagerconfig" }
  function SecretName(comp: Object): string { comp.meta.name + "-alertmanagerconfigsecret" }

  function NamedIn(comp: Object, name: string): Meta
    requires comp.body.CompositeBody?
  {
    Meta(name, comp.body.instanceNamespace, map[], "")
  }

  /** deployAlertmanagerFromRef */
  function FromRef(comp: Object): Request
    requires comp.body.CompositeBody?
  {
    Emit(Object(NoKind, NamedIn(comp, "postgresql-alertmanagerconfig"), AlertBody("")),
         ConfigName(comp),
         [PatchReference("monitoring.coreos.com/v1alpha1", "AlertmanagerConfig", comp,
             comp.body.params.alertRef, "spec")],
         Some(CannotDeploy("ref")))
  }

  /** deployAlertmanagerFromTemplate */
  function FromTemplate(comp: Object): Request
    requires comp.body.CompositeBody? && comp.body.params.alertTemplate.Some?
  {
    Emit(Object(NoKind, NamedIn(comp, comp.body.params.alertSecretRef),
        AlertBody(comp.body.params.alertTemplate.value)),
         ConfigName(comp), [], Some(CannotDeploy("template")))
  }

  /** deploySecretRef */
  function FromSecret(comp: Object): Request
    requires comp.body.CompositeBody?
  {
    Emit(Object(NoKind, NamedIn(comp, comp.body.params.alertSecretRef), SecretBody(map[], "")),
         SecretName(comp),
         [PatchReference("v1", "Secret", comp, comp.body.params.alertSecretRef, "data")],
         Some(CannotDeploy("secret")))
  }

  function RefPart(comp: Object): seq<Request>
    requires comp.body.CompositeBody?
  {
    if comp.body.params.alertRef == "" then []
    else if comp.body.params.alertSecretRef == "" then [Abort(NoSecretRef)]
    else [FromRef(comp)]
  }

  function TemplatePart(comp: Object): seq<Request>
    requires comp.body.CompositeBody?
  {
    if comp.body.params.alertTemplate.None? then []
    else if comp.body.params.alertSecretRef == "" then [Abort(NoSecretRef)]
    else [FromTemplate(comp)]
  }

  function SecretPart(comp: Object): seq<Request>
    requires comp.body.CompositeBody?
  {
    if comp.body.params.alertSecretRef == "" then [] else [FromSecret(comp)]
  }

  function AlertPlan(o: Observed): seq<Request> {
    match DecodeJson(o.composite, Composite)
    case Err(_) => [Abort(NoComposite)]
    case Ok(comp) =>
      if comp.body.instanceNamespace == "" then []
      else RefPart(comp) + TemplatePart(comp) + SecretPart(comp)
  }

  function AlertEnd(o: Observed): Result {
    match DecodeJson(o.composite, Composite)
    case Err(_) => NORMAL
    case Ok(comp) =>
      if comp.body.instanceNamespace == ""
      then Result(Warning, NoNamespace) else NORMAL
  }

  function AlertOutcome(o: Observed, s: Store): Outcome {
    Finish(s, Carry(s.entries, AlertPlan(o)), AlertEnd(o))
  }

  /** The checks and writes on the monitoring parameters, in order. */
  method Deploy(desired: DesiredResources, comp: Object) returns (failure: Option<Message>)
    requires desired.Valid() && comp.body.CompositeBody?
    modifies desired.Repr
    ensures desired.Valid() && fresh(desired.Repr - old(desired.Repr))
    ensures var plan := RefPart(comp) + TemplatePart(comp) + SecretPart(comp);
      var c := Carry(old(desired.Contents.entries), plan);
      desired.Contents == old(desired.Contents).(entries := c.entries) && failure == c.failure
  {
    hide PutIntoObject;
    AlertSteps(desired.Contents.entries, comp);
    if comp.body.params.alertRef != "" {
      if comp.body.params.alertSecretRef == "" {
        return Some(NoSecretRef);
      }
      failure := CarryOut(desired, FromRef(comp));
      if failure.Some? {
        return;
      }
    }
    if comp.body.params.alertTemplate.Some? {
      if comp.body.params.alertSecretRef == "" {
        return Some(NoSecretRef);
      }
      failure := CarryOut(desired, FromTemplate(comp));
      if failure.Some? {
        return;
      }
    }
    failure := None;
    if comp.body.params.alertSecretRef != "" {
      failure := CarryOut(desired, FromSecret(comp));
    }
  }

  method AddUserAlerting(iof: Runtime) returns (r: Result)
    requires iof.Valid()
    modifies iof.desired.Repr
    ensures iof.Valid() && fresh(iof.desired.Repr - old(iof.desired.Repr))
    ensures Outcome(iof.desired.Contents, r) == AlertOutcome(iof.observed, old(iof.desired.Contents))
  {
    var decoded := DecodeJson(iof.observed.composite, Composite);
    if decoded.Err? {
      return Result(Fatal, NoComposite);
    }
    var comp := decoded.value;
    if comp.body.instanceNamespace == "" {
      return Result(Warning, NoNamespace);
    }
    var failure := Deploy(iof.desired, comp);
    if failure.Some? {
      return Result(Fatal, failure.value);
    }
    r := NORMAL;
  }

  /** The plan, part by part. */
  lemma AlertSteps(es: seq<Resource>, comp: Object)
    requires comp.body.CompositeBody?
    ensures var c1 := Carry(es, RefPart(comp));
      var c2 := if c1.failure.Some? then c1 else Carry(c1.entries, TemplatePart(comp));
      Carry(es, RefPart(comp) + TemplatePart(comp) + SecretPart(comp))
        == if c2.failure.Some? then c2 else Carry(c2.entries, SecretPart(comp))
  {
    CarryAppend(es, RefPart(comp), TemplatePart(comp));
    CarryAppend(es, RefPart(comp) + TemplatePart(comp), SecretPart(comp));
  }
}
