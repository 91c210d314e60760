/** runtime/desired.go and the search loop of runtime/runtime.go, on Go slices: an array, of which the
    first `count` elements are the slice. */
module Desired {
  import opened Base
  import opened Payload
  import opened Store

  /** getFrom: the search loop over a list of resources. */
  method SearchFrom(resources: seq<Resource>, obj: Object, resName: string) returns (r: Fallible<Object>)
    ensures r == GetFrom(resources, obj, resName)
  {
    for i := 0 to |resources|
      invariant forall k :: 0 <= k < i ==> resources[k].name != resName
    {
      if resources[i].name == resName {
        FindUnique(resources, resName, i);
        r := DecodeYaml(resources[i].raw, obj);
        return;
      }
    }
    FindUnique(resources, resName, |resources|);
    r := Err(NotFound);
  }

  /** The wrapper desiredResource, which the store holds by pointer. */
  class Entry {
    const name: string
    const rest: string
    var raw: Raw

    constructor (r: Resource)
      ensures Value() == r
    {
      name, rest, raw := r.name, r.rest, r.raw;
    }

    /** GetDesiredResource: a copy of the wrapped struct. */
    function Value(): Resource
      reads this
    {
      Resource(name, raw, rest)
    }

    method SetRaw(raw: Raw)
      modifies this
      ensures Value() == old(Value()).(raw := raw)
    {
      this.raw := raw;
    }
  }

  /** desiredResources: one fresh wrapper for each entry of the FunctionIO. */
  method WrapAll(entries: seq<Resource>) returns (wrapped: array<Entry>)
    ensures fresh(wrapped) && wrapped.Length == |entries|
    ensures forall k :: 0 <= k < |entries| ==> fresh(wrapped[k]) && wrapped[k].Value() == entries[k]
    ensures forall j, k :: 0 <= j < k < |entries| ==> wrapped[j] != wrapped[k]
  {
    if entries == [] {
      return new Entry[0];
    }
    var first := new Entry(entries[0]);
    wrapped := new Entry[|entries|](i => first);
    for i := 1 to |entries|
      invariant forall k :: 0 <= k < i ==> fresh(wrapped[k]) && wrapped[k].Value() == entries[k]
      invariant forall j, k :: 0 <= j < k < i ==> wrapped[j] != wrapped[k]
    {
      var r := new Entry(entries[i]);
      wrapped[i] := r;
    }
  }

  class DesiredResources {
    /** The value this object stands for, and the objects it is made of. */
    ghost var Contents: Store
    ghost var Repr: set<object>

    var resources: array<Entry>
    var count: nat
    var composite: Raw
    var details: array<Detail>
    var detailCount: nat

    ghost predicate Valid()
      reads this, Repr
      ensures Valid() ==> this in Repr
    {
      && this in Repr && resources in Repr && details in Repr
      && resources as object != details
      && count == |Contents.entries| <= resources.Length
      && detailCount <= details.Length
      && (forall i :: 0 <= i < count ==> resources[i] in Repr && resources[i].Value() == Contents.entries[i])
      && (forall i, j :: 0 <= i < j < count ==> resources[i] != resources[j])
      && composite == Contents.composite
      && details[..detailCount] == Contents.details
    }

    constructor (entries: seq<Resource>, composite: Raw, details: array<Detail>, detailCount: nat)
      requires detailCount <= details.Length
      ensures Valid() && fresh(Repr - {details})
      ensures this.details == details && this.detailCount == detailCount
      ensures Contents == Store(entries, composite, details[..detailCount])
    {
      var wrapped := WrapAll(entries);
      resources, count := wrapped, |entries|;
      this.composite, this.details, this.detailCount := composite, details, detailCount;
      Contents := Store(entries, composite, details[..detailCount]);
      Repr := {this, wrapped, details} + set i | 0 <= i < |entries| :: wrapped[i];
    }

    /** What the resources show through GetName and GetRaw. */
    function Entries(): (es: seq<Resource>)
      requires Valid()
      reads this, Repr
      ensures es == Contents.entries
    {
      seq(count, i requires 0 <= i < count && Valid() reads this, Repr => resources[i].Value())
    }

    function Snapshot(): (s: Store)
      requires Valid()
      reads this, Repr
      ensures s == Contents
    {
      Store(Entries(), composite, details[..detailCount])
    }

    method Get(obj: Object, resName: string) returns (r: Fallible<Object>)
      requires Valid()
      ensures r == GetFrom(Contents.entries, obj, resName)
    {
      r := SearchFrom(Entries(), obj, resName);
    }

    method GetFromObject(shape: Shape, kon: string) returns (r: Fallible<Object>)
      requires Valid()
      ensures r == DesiredObject(Contents.entries, shape, kon)
    {
      var ko := Get(EMPTY_KUBE, kon);
      if ko.Err? {
        return Err(Wrapped(ko.error));
      }
      if ko.value.body.manifest.Null? {
        return Err(NotFound);
      }
      r := DecodeJson(ko.value.body.manifest, shape);
    }

    method GetComposite() returns (r: Fallible<Object>)
      requires Valid()
      ensures r == DecodeJson(Contents.composite, Composite)
    {
      r := DecodeJson(composite, Composite);
    }

    method SetComposite(obj: Object)
      requires Valid()
      modifies Repr
      ensures Valid() && fresh(Repr - old(Repr))
      ensures Contents == old(Contents).(composite := Encode(obj))
      ensures detailCount <= old(details.Length) ==> details == old(details)
    {
      composite := Encode(obj);
      Contents := Contents.(composite := composite);
    }

    /** Appending to the slice: in place while the array has room, into a larger copy otherwise. */
    method AppendEntry(e: Entry)
      requires Valid() && e !in Repr
      modifies Repr
      ensures Valid() && fresh(Repr - old(Repr) - {e})
      ensures Contents == old(Contents).(entries := old(Contents.entries) + [e.Value()])
      ensures detailCount <= old(details.Length) ==> details == old(details)
    {
      if count == resources.Length {
        var full := resources;
        resources := new Entry[2 * count + 1](i reads this, full => if 0 <= i < full.Length then full[i] else e);
      } else {
        resources[count] := e;
      }
      count := count + 1;
      Contents := Contents.(entries := Contents.entries + [e.Value()]);
      Repr := Repr + {resources, e};
    }

    /** put */
    method PutNamed(obj: Object, resName: string) returns (err: Option<Error>)
      requires Valid()
      modifies Repr
      ensures Valid() && fresh(Repr - old(Repr))
      ensures (Contents, err) == WithEntries(old(Contents), PutEntry(old(Contents.entries), obj, resName))
      ensures detailCount <= old(details.Length) ==> details == old(details)
    {
      if Registered(obj.body).None? {
        return Some(Unregistered);
      }
      var raw := Encode(Typed(obj));
      for i := 0 to count
        invariant forall k :: 0 <= k < i ==> Contents.entries[k].name != resName
        invariant unchanged(Repr) && Valid()
      {
        if resources[i].name == resName {
          FindUnique(Contents.entries, resName, i);
          resources[i].SetRaw(raw);
          Contents := Contents.(entries := Contents.entries[i := Contents.entries[i].(raw := raw)]);
          return None;
        }
      }
      FindUnique(Contents.entries, resName, count);
      var dr := new Entry(Resource(resName, raw, ""));
      AppendEntry(dr);
      err := None;
    }

    method Put(obj: Object) returns (err: Option<Error>)
      requires Valid()
      modifies Repr
      ensures Valid() && fresh(Repr - old(Repr))
      ensures (Contents, err) == Step(old(Contents), PutOp(obj))
      ensures detailCount <= old(details.Length) ==> details == old(details)
    {
      err := PutNamed(obj, obj.meta.name);
    }

    method PutIntoObject(o: Object, kon: string, refs: seq<Reference>) returns (err: Option<Error>)
      requires Valid()
      modifies Repr
      ensures Valid() && fresh(Repr - old(Repr))
      ensures (Contents, err) == Step(old(Contents), PutIntoObjectOp(o, kon, refs))
      ensures detailCount <= old(details.Length) ==> details == old(details)
    {
      var ko := Wrapper(kon, refs);
      var found := Get(ko, kon);
      if found.Err? && found.error != NotFound {
        return Some(found.error);
      }
      if found.Ok? {
        ko := found.value;
      }
      if Registered(o.body).None? {
        return Some(Unregistered);
      }
      ko := ko.(body := ko.body.(manifest := Encode(Typed(o))));
      err := PutNamed(ko, kon);
    }

    /** append(x[:i], x[i+1:]...): the slice is shifted down in its own array. */
    method DropEntry(i: nat)
      requires Valid() && i < count
      modifies Repr
      ensures Valid() && Repr == old(Repr)
      ensures Contents == old(Contents).(entries := old(Contents.entries[..i] + Contents.entries[i + 1..]))
      ensures detailCount <= old(details.Length) ==> details == old(details)
    {
      ghost var was, cells := Contents.entries, resources[..count];
      forall k | i <= k < count - 1 {
        resources[k] := resources[k + 1];
      }
      count := count - 1;
      Contents := Contents.(entries := was[..i] + was[i + 1..]);
      assert forall k :: 0 <= k < count ==> Contents.entries[k] == was[if k < i then k else k + 1];
      assert forall k :: 0 <= k < count ==> resources[k] == cells[if k < i then k else k + 1];
      assert forall k :: 0 <= k < |cells| ==> cells[k].Value() == was[k];
    }

    method Remove(name: string) returns (err: Option<Error>)
      requires Valid()
      modifies Repr
      ensures Valid() && Repr == old(Repr)
      ensures (Contents, err) == Step(old(Contents), RemoveOp(name))
      ensures detailCount <= old(details.Length) ==> details == old(details)
    {
      for i := 0 to count
        invariant forall k :: 0 <= k < i ==> Contents.entries[k].name != name
        invariant unchanged(Repr) && Valid()
      {
        if resources[i].name == name {
          FindUnique(Contents.entries, name, i);
          DropEntry(i);
          return None;
        }
      }
      FindUnique(Contents.entries, name, count);
      err := Some(NotFound);
    }

    /** Appending writes behind the slice, or to a larger copy of it when its array has no room left; a
        sharer's slice of the old length stays as it is, and a copy is shared with nobody. */
    method AppendDetail(cd: Detail)
      requires Valid()
      modifies this, details
      ensures Valid() && Repr == old(Repr) - {old(details)} + {details}
      ensures Contents == old(Contents).(details := old(Contents.details) + [cd])
      ensures if old(detailCount) < old(details.Length) then details == old(details) else fresh(details)
      ensures old(details)[..old(detailCount)] == old(details[..detailCount])
    {
      if detailCount == details.Length {
        var full := details;
        details := new Detail[2 * detailCount + 1](i reads this, full => if 0 <= i < full.Length then full[i] else cd);
      } else {
        details[detailCount] := cd;
      }
      detailCount := detailCount + 1;
      Contents := Contents.(details := Contents.details + [cd]);
      Repr := Repr - {old(details)} + {details};
    }

    /** An update is written through the array, which whoever shares it sees; an append leaves a sharer's
        slice of the old length as it is. */
    method PutCompositeConnectionDetail(cd: Detail)
      requires Valid()
      modifies this, details
      ensures Valid() && Repr == old(Repr) - {old(details)} + {details}
      ensures Contents == Step(old(Contents), PutDetailOp(cd)).0
      ensures if detailCount <= old(details.Length) then details == old(details) else fresh(details)
      ensures FindDetail(old(Contents.details), cd.name) < old(detailCount) ==>
        detailCount == old(detailCount) && details[..old(detailCount)] == Contents.details
      ensures FindDetail(old(Contents.details), cd.name) == old(detailCount) ==>
        detailCount == old(detailCount) + 1 && old(details)[..old(detailCount)] == old(details[..detailCount])
    {
      for i := 0 to detailCount
        invariant forall k :: 0 <= k < i ==> Contents.details[k].name != cd.name
        invariant unchanged(this, details) && Valid()
      {
        assert details[i] == Contents.details[i];
        if cd.name == details[i].name {
          FindDetailUnique(Contents.details, cd.name, i);
          details[i] := cd;
          Contents := Contents.(details := Contents.details[i := cd]);
          return;
        }
      }
      FindDetailUnique(Contents.details, cd.name, detailCount);
      AppendDetail(cd);
    }

    /** The shift happens in the shared array: a slice of the old length over it then shows the last
        detail twice. */
    method DropDetail(i: nat)
      requires Valid() && i < detailCount
      modifies Repr
      ensures Valid() && Repr == old(Repr) && details == old(details)
      ensures Contents == old(Contents).(details := old(Contents.details[..i] + Contents.details[i + 1..]))
      ensures details[..old(detailCount)] == Contents.details + [old(details[detailCount - 1])]
    {
      forall k | i <= k < detailCount - 1 {
        details[k] := details[k + 1];
      }
      detailCount := detailCount - 1;
      Contents := Contents.(details := Contents.details[..i] + Contents.details[i + 1..]);
    }

    method RemoveCompositeConnectionDetail(cd: Detail) returns (err: Option<Error>)
      requires Valid()
      modifies Repr
      ensures Valid() && Repr == old(Repr) && details == old(details)
      ensures (Contents, err) == Step(old(Contents), RemoveDetailOp(cd))
      ensures err.Some? ==> detailCount == old(detailCount)
      ensures err.None? ==> old(detailCount) > 0
      ensures err.None? ==> details[..old(detailCount)] == Contents.details + [old(details[detailCount - 1])]
    {
      for i := 0 to detailCount
        invariant forall k :: 0 <= k < i ==> Contents.details[k].name != cd.name
        invariant unchanged(Repr) && Valid()
      {
        assert details[i] == Contents.details[i];
        if cd.name == details[i].name {
          FindDetailUnique(Contents.details, cd.name, i);
          DropDetail(i);
          return None;
        }
      }
      FindDetailUnique(Contents.details, cd.name, detailCount);
      err := Some(NotFound);
    }

    /** Any one call of the interface. */
    method Do(op: Op) returns (err: Option<Error>)
      requires Valid()
      modifies Repr
      ensures Valid() && fresh(Repr - old(Repr))
      ensures (Contents, err) == Step(old(Contents), op)
      ensures detailCount <= old(details.Length) ==> details == old(details)
      ensures detailCount > old(details.Length) ==>
        old(details) !in Repr && old(details)[..old(detailCount)] == old(Contents.details)
    {
      err := None;
      match op
      case PutOp(obj) => err := Put(obj);
      case PutIntoObjectOp(obj, kon, refs) => err := PutIntoObject(obj, kon, refs);
      case RemoveOp(name) => err := Remove(name);
      case SetCompositeOp(obj) => SetComposite(obj);
      case PutDetailOp(cd) => PutCompositeConnectionDetail(cd);
      case RemoveDetailOp(cd) => err := RemoveCompositeConnectionDetail(cd);
    }

    /** Any calls. The details stay in their array until a call makes them outgrow it, and from then on that
        array is left as it was. */
    method DoAll(ops: seq<Op>)
      requires Valid()
      modifies Repr
      ensures Valid() && fresh(Repr - old(Repr))
      ensures Contents == Steps(old(Contents), ops)
      ensures match BeforeOutgrown(old(Contents), ops, old(details.Length))
        case None => details == old(details)
        case Some(ds) => old(details) !in Repr && old(details)[..] == ds
      decreases |ops|
    {
      if ops != [] {
        var _ := Do(ops[0]);
        assert detailCount == |details[..detailCount]| == |Contents.details|;
        DoAll(ops[1..]);
      }
    }
  }
}
