/** The store as what it is meant to be: two insertion-ordered maps. Every sequence of calls on the
    slices does to them what it says on the maps. */
module OrderedMap {
  import opened Base
  import opened Payload
  import opened Store

  /** Keys in insertion order, each with one value. */
  datatype OrderedMap<V> = OrderedMap(keys: seq<string>, values: map<string, V>)

  ghost predicate Valid<V>(m: OrderedMap<V>) {
    && (forall i, j :: 0 <= i < j < |m.keys| ==> m.keys[i] != m.keys[j])
    && (forall k :: k in m.keys <==> k in m.values)
  }

  function Insert<V>(m: OrderedMap<V>, k: string, v: V): OrderedMap<V> {
    OrderedMap(if k in m.values then m.keys else m.keys + [k], m.values[k := v])
  }

  function Without(keys: seq<string>, k: string): seq<string> {
    if keys == [] then []
    else if keys[0] == k then Without(keys[1..], k)
    else [keys[0]] + Without(keys[1..], k)
  }

  function Delete<V>(m: OrderedMap<V>, k: string): OrderedMap<V> {
    OrderedMap(Without(m.keys, k), m.values - {k})
  }

  /** What an entry holds besides its name. */
  datatype Slot = Slot(raw: Raw, rest: string)

  datatype MapStore = MapStore(entries: OrderedMap<Slot>, composite: Raw, details: OrderedMap<string>)

  function PutSlot(m: OrderedMap<Slot>, name: string, raw: Raw): OrderedMap<Slot> {
    Insert(m, name, if name in m.values then m.values[name].(raw := raw) else Slot(raw, ""))
  }

  /** One call, on the maps: NotFound exactly when the key is absent, and nothing changes on an error. */
  function MapStep(m: MapStore, op: Op): (MapStore, Option<Error>) {
    match op
    case PutOp(obj) =>
      if Registered(obj.body).None? then (m, Some(Unregistered))
      else (m.(entries := PutSlot(m.entries, obj.meta.name, Encode(Typed(obj)))), None)
    case PutIntoObjectOp(obj, kon, refs) =>
      var was := if kon in m.entries.values then Some(m.entries.values[kon].raw) else None;
      (match PutIntoSlot(was, obj, kon, refs)
       case Err(e) => (m, Some(e))
       case Ok(raw) => (m.(entries := PutSlot(m.entries, kon, raw)), None))
    case RemoveOp(name) =>
      if name in m.entries.values then (m.(entries := Delete(m.entries, name)), None) else (m, Some(NotFound))
    case SetCompositeOp(obj) => (m.(composite := Encode(obj)), None)
    case PutDetailOp(cd) => (m.(details := Insert(m.details, cd.name, cd.value)), None)
    case RemoveDetailOp(cd) =>
      if cd.name in m.details.values then (m.(details := Delete(m.details, cd.name)), None) else (m, Some(NotFound))
  }

  function MapSteps(m: MapStore, ops: seq<Op>): MapStore
    decreases |ops|
  {
    if ops == [] then m else MapSteps(MapStep(m, ops[0]).0, ops[1..])
  }

  // ---------- The abstraction ----------

  ghost predicate DistinctEntries(es: seq<Resource>) {
    forall i, j :: 0 <= i < j < |es| ==> es[i].name != es[j].name
  }

  ghost predicate DistinctDetails(ds: seq<Detail>) {
    forall i, j :: 0 <= i < j < |ds| ==> ds[i].name != ds[j].name
  }

  ghost predicate Distinct(s: Store) { DistinctEntries(s.entries) && DistinctDetails(s.details) }

  function Names(es: seq<Resource>): (ns: seq<string>)
    ensures |ns| == |es| && forall i :: 0 <= i < |es| ==> ns[i] == es[i].name
  {
    seq(|es|, i requires 0 <= i < |es| => es[i].name)
  }

  function DetailNames(ds: seq<Detail>): (ns: seq<string>)
    ensures |ns| == |ds| && forall i :: 0 <= i < |ds| ==> ns[i] == ds[i].name
  {
    seq(|ds|, i requires 0 <= i < |ds| => ds[i].name)
  }

  function SlotAt(es: seq<Resource>, name: string): (r: Option<Slot>)
    ensures r.Some? <==> name in Names(es)
  {
    var i := Find(es, name);
    if i < |es| then
      assert Names(es)[i] == name;
      Some(Slot(es[i].raw, es[i].rest))
    else None
  }

  function ValueAt(ds: seq<Detail>, name: string): (r: Option<string>)
    ensures r.Some? <==> name in DetailNames(ds)
  {
    var i := FindDetail(ds, name);
    if i < |ds| then
      assert DetailNames(ds)[i] == name;
      Some(ds[i].value)
    else None
  }

  function AbsEntries(es: seq<Resource>): OrderedMap<Slot> {
    OrderedMap(Names(es), map n | n in Names(es) :: SlotAt(es, n).value)
  }

  function AbsDetails(ds: seq<Detail>): OrderedMap<string> {
    OrderedMap(DetailNames(ds), map n | n in DetailNames(ds) :: ValueAt(ds, n).value)
  }

  function Abs(s: Store): MapStore {
    MapStore(AbsEntries(s.entries), s.composite, AbsDetails(s.details))
  }

  // ---------- Refinement ----------

  lemma {:induction false} WithoutDistinct(keys: seq<string>, i: nat)
    requires i < |keys| && forall a, b :: 0 <= a < b < |keys| ==> keys[a] != keys[b]
    ensures Without(keys, keys[i]) == keys[..i] + keys[i + 1..]
  {
    if i == 0 {
      WithoutAbsent(keys[1..], keys[0]);
    } else {
      WithoutDistinct(keys[1..], i - 1);
      assert keys[..i] + keys[i + 1..] == [keys[0]] + (keys[1..][..i - 1] + keys[1..][i..]);
    }
  }

  lemma {:induction false} WithoutAbsent(keys: seq<string>, k: string)
    requires k !in keys
    ensures Without(keys, k) == keys
  {
    if keys != [] {
      WithoutAbsent(keys[1..], k);
    }
  }

  lemma SlotPut(es: seq<Resource>, name: string, raw: Raw, n: string)
    ensures SlotAt(PutRaw(es, name, raw), n)
         == if n != name then SlotAt(es, n)
            else Some(match SlotAt(es, name) case None => Slot(raw, "") case Some(slot) => slot.(raw := raw))
  {
    hide Names;
    var i, es' := Find(es, n), PutRaw(es, name, raw);
    FindUnique(es', n, if n == name || i < |es| then i else |es'|);
  }

  lemma SlotRemove(es: seq<Resource>, name: string, n: string)
    requires DistinctEntries(es) && Remove(es, name).Ok?
    ensures SlotAt(Remove(es, name).value, n) == if n == name then None else SlotAt(es, n)
  {
    hide Names;
    var i, j, es' := Find(es, name), Find(es, n), Remove(es, name).value;
    FindUnique(es', n, if n == name || j == |es| then |es'| else if j < i then j else j - 1);
  }

  lemma PutRawKeys(es: seq<Resource>, name: string, raw: Raw)
    requires DistinctEntries(es)
    ensures DistinctEntries(PutRaw(es, name, raw))
    ensures Names(PutRaw(es, name, raw)) == if SlotAt(es, name).Some? then Names(es) else Names(es) + [name]
  {
  }

  lemma RemoveKeys(es: seq<Resource>, name: string)
    requires DistinctEntries(es) && Remove(es, name).Ok?
    ensures DistinctEntries(Remove(es, name).value)
    ensures Names(Remove(es, name).value) == Without(Names(es), name)
  {
    var i, names := Find(es, name), Names(es);
    WithoutDistinct(names, i);
    assert Names(Remove(es, name).value) == names[..i] + names[i + 1..];
  }

  /** The values of an abstraction are the slots, so equal slots make equal maps. */
  lemma SameValues(es: seq<Resource>, want: map<string, Slot>)
    requires forall n :: (SlotAt(es, n).Some? <==> n in want) && (n in want ==> SlotAt(es, n) == Some(want[n]))
    ensures AbsEntries(es).values == want
  {
    hide SlotAt;
    assert forall n :: n in AbsEntries(es).values <==> n in want;
  }

  lemma PutRawRefines(es: seq<Resource>, name: string, raw: Raw)
    requires DistinctEntries(es)
    ensures DistinctEntries(PutRaw(es, name, raw))
    ensures AbsEntries(PutRaw(es, name, raw)) == PutSlot(AbsEntries(es), name, raw)
  {
    hide SlotAt, PutRaw, Names;
    var want := PutSlot(AbsEntries(es), name, raw).values;
    forall n ensures (SlotAt(PutRaw(es, name, raw), n).Some? <==> n in want)
                  && (n in want ==> SlotAt(PutRaw(es, name, raw), n) == Some(want[n])) {
      SlotPut(es, name, raw, n);
    }
    SameValues(PutRaw(es, name, raw), want);
    PutRawKeys(es, name, raw);
  }

  lemma RemoveRefines(es: seq<Resource>, name: string)
    requires DistinctEntries(es) && Remove(es, name).Ok?
    ensures DistinctEntries(Remove(es, name).value)
    ensures AbsEntries(Remove(es, name).value) == Delete(AbsEntries(es), name)
  {
    hide SlotAt, Remove, Names, Without;
    var want := Delete(AbsEntries(es), name).values;
    forall n ensures (SlotAt(Remove(es, name).value, n).Some? <==> n in want)
                  && (n in want ==> SlotAt(Remove(es, name).value, n) == Some(want[n])) {
      SlotRemove(es, name, n);
    }
    SameValues(Remove(es, name).value, want);
    RemoveKeys(es, name);
  }

  lemma ValuePut(ds: seq<Detail>, cd: Detail, n: string)
    ensures ValueAt(PutDetail(ds, cd), n) == if n == cd.name then Some(cd.value) else ValueAt(ds, n)
  {
    hide DetailNames;
    var i, ds' := FindDetail(ds, n), PutDetail(ds, cd);
    FindDetailUnique(ds', n, if n == cd.name || i < |ds| then i else |ds'|);
  }

  lemma ValueRemove(ds: seq<Detail>, cd: Detail, n: string)
    requires DistinctDetails(ds) && RemoveDetail(ds, cd).Ok?
    ensures ValueAt(RemoveDetail(ds, cd).value, n) == if n == cd.name then None else ValueAt(ds, n)
  {
    hide DetailNames;
    var i, j, ds' := FindDetail(ds, cd.name), FindDetail(ds, n), RemoveDetail(ds, cd).value;
    FindDetailUnique(ds', n, if n == cd.name || j == |ds| then |ds'| else if j < i then j else j - 1);
  }

  lemma PutDetailKeys(ds: seq<Detail>, cd: Detail)
    requires DistinctDetails(ds)
    ensures DistinctDetails(PutDetail(ds, cd))
    ensures DetailNames(PutDetail(ds, cd))
        == if ValueAt(ds, cd.name).Some? then DetailNames(ds) else DetailNames(ds) + [cd.name]
  {
  }

  lemma RemoveDetailKeys(ds: seq<Detail>, cd: Detail)
    requires DistinctDetails(ds) && RemoveDetail(ds, cd).Ok?
    ensures DistinctDetails(RemoveDetail(ds, cd).value)
    ensures DetailNames(RemoveDetail(ds, cd).value) == Without(DetailNames(ds), cd.name)
  {
    hide Without;
    var i, names := FindDetail(ds, cd.name), DetailNames(ds);
    WithoutDistinct(names, i);
    assert DetailNames(RemoveDetail(ds, cd).value) == names[..i] + names[i + 1..];
  }

  lemma SameDetailValues(ds: seq<Detail>, want: map<string, string>)
    requires forall n :: (ValueAt(ds, n).Some? <==> n in want) && (n in want ==> ValueAt(ds, n) == Some(want[n]))
    ensures AbsDetails(ds).values == want
  {
    hide ValueAt;
    assert forall n :: n in AbsDetails(ds).values <==> n in want;
  }

  lemma PutDetailRefines(ds: seq<Detail>, cd: Detail)
    requires DistinctDetails(ds)
    ensures DistinctDetails(PutDetail(ds, cd))
    ensures AbsDetails(PutDetail(ds, cd)) == Insert(AbsDetails(ds), cd.name, cd.value)
  {
    hide ValueAt, PutDetail, DetailNames;
    var want := Insert(AbsDetails(ds), cd.name, cd.value).values;
    forall n ensures (ValueAt(PutDetail(ds, cd), n).Some? <==> n in want)
                  && (n in want ==> ValueAt(PutDetail(ds, cd), n) == Some(want[n])) {
      ValuePut(ds, cd, n);
    }
    SameDetailValues(PutDetail(ds, cd), want);
    PutDetailKeys(ds, cd);
  }

  lemma RemoveDetailRefines(ds: seq<Detail>, cd: Detail)
    requires DistinctDetails(ds) && RemoveDetail(ds, cd).Ok?
    ensures DistinctDetails(RemoveDetail(ds, cd).value)
    ensures AbsDetails(RemoveDetail(ds, cd).value) == Delete(AbsDetails(ds), cd.name)
  {
    hide ValueAt, RemoveDetail, DetailNames, Without;
    var want := Delete(AbsDetails(ds), cd.name).values;
    forall n ensures (ValueAt(RemoveDetail(ds, cd).value, n).Some? <==> n in want)
                  && (n in want ==> ValueAt(RemoveDetail(ds, cd).value, n) == Some(want[n])) {
      ValueRemove(ds, cd, n);
    }
    SameDetailValues(RemoveDetail(ds, cd).value, want);
    RemoveDetailKeys(ds, cd);
  }

  /** One call on the slices is the same call on the maps, with the same error. */
  lemma StepRefines(s: Store, op: Op)
    requires Distinct(s)
    ensures Distinct(Step(s, op).0)
    ensures (Abs(Step(s, op).0), Step(s, op).1) == MapStep(Abs(s), op)
  {
    hide PutIntoSlot, Registered, Typed, Without;
    match op
    case PutOp(obj) =>
      PutRawRefines(s.entries, obj.meta.name, Encode(Typed(obj)));
    case PutIntoObjectOp(obj, kon, refs) =>
      assert kon in AbsEntries(s.entries).values <==> SlotAt(s.entries, kon).Some?;
      var put := PutIntoSlot(Lookup(s.entries, kon), obj, kon, refs);
      if put.Ok? {
        PutRawRefines(s.entries, kon, put.value);
      }
    case RemoveOp(name) =>
      assert name in AbsEntries(s.entries).values <==> SlotAt(s.entries, name).Some?;
      if Remove(s.entries, name).Ok? {
        RemoveRefines(s.entries, name);
      }
    case SetCompositeOp(_) =>
    case PutDetailOp(cd) =>
      PutDetailRefines(s.details, cd);
    case RemoveDetailOp(cd) =>
      assert cd.name in AbsDetails(s.details).values <==> ValueAt(s.details, cd.name).Some?;
      if RemoveDetail(s.details, cd).Ok? {
        RemoveDetailRefines(s.details, cd);
      }
  }

  /** Every sequence of calls refines the ordered maps, and distinct names stay distinct. */
  lemma {:induction false} StepsRefine(s: Store, ops: seq<Op>)
    requires Distinct(s)
    ensures Distinct(Steps(s, ops)) && Abs(Steps(s, ops)) == MapSteps(Abs(s), ops)
    ensures Valid(Abs(Steps(s, ops)).entries) && Valid(Abs(Steps(s, ops)).details)
    decreases |ops|
  {
    hide Step, MapStep;
    if ops != [] {
      StepRefines(s, ops[0]);
      StepsRefine(Step(s, ops[0]).0, ops[1..]);
    }
  }
}
