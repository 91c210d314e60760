/** What no pipeline does to the desired resources. */
module Frames {
  import opened Payload
  import opened Store
  import opened Runtime
  import opened Plan
  import opened Pipeline

  /** Name and untouched fields, in order, of the entries whose names are not in `gone`. */
  function Places(es: seq<Resource>, gone: set<string>): seq<(string, string)> {
    if es == [] then []
    else (if es[0].name in gone then [] else [(es[0].name, es[0].rest)]) + Places(es[1..], gone)
  }

  lemma {:induction false} PlacesAppend(a: seq<Resource>, b: seq<Resource>, gone: set<string>)
    ensures Places(a + b, gone) == Places(a, gone) + Places(b, gone)
  {
    if a == [] {
      assert a + b == b;
    } else {
      assert (a + b)[1..] == a[1..] + b;
      PlacesAppend(a[1..], b, gone);
    }
  }

  /** Taking the sequence apart at one entry. */
  lemma PlacesAround(a: seq<Resource>, e: Resource, b: seq<Resource>, gone: set<string>)
    ensures Places(a + [e] + b, gone)
         == Places(a, gone) + (if e.name in gone then [] else [(e.name, e.rest)]) + Places(b, gone)
  {
    PlacesAppend(a, [e] + b, gone);
    assert a + [e] + b == a + ([e] + b);
    assert ([e] + b)[1..] == b;
  }

  lemma PlacesPut(es: seq<Resource>, name: string, raw: Raw, gone: set<string>)
    ensures Places(es, gone) <= Places(PutRaw(es, name, raw), gone)
  {
    var i := Find(es, name);
    if i < |es| {
      var e := es[i].(raw := raw);
      assert es == es[..i] + [es[i]] + es[i + 1..] && es[i := e] == es[..i] + [e] + es[i + 1..];
      PlacesAround(es[..i], es[i], es[i + 1..], gone);
      PlacesAround(es[..i], e, es[i + 1..], gone);
    } else {
      PlacesAppend(es, [Resource(name, raw, "")], gone);
    }
  }

  lemma PlacesRemove(es: seq<Resource>, name: string, gone: set<string>)
    requires Find(es, name) < |es| && name in gone
    ensures Places(Remove(es, name).value, gone) == Places(es, gone)
  {
    var i := Find(es, name);
    assert es == es[..i] + [es[i]] + es[i + 1..];
    PlacesAround(es[..i], es[i], es[i + 1..], gone);
    PlacesAppend(es[..i], es[i + 1..], gone);
  }

  lemma {:induction false} PlacesCarry(es: seq<Resource>, plan: seq<Request>, gone: set<string>)
    ensures Places(es, gone) <= Places(Carry(es, plan).entries, gone)
    decreases |plan|
  {
    hide PutIntoSlot;
    if plan != [] && plan[0].Emit? {
      match PutIntoSlot(Lookup(es, plan[0].kon), plan[0].obj, plan[0].kon, plan[0].refs)
      case Err(_) =>
      case Ok(raw) =>
        PlacesPut(es, plan[0].kon, raw, gone);
        PlacesCarry(PutRaw(es, plan[0].kon, raw), plan[1..], gone);
    }
  }

  function RemovedNames(ops: seq<Op>): set<string> {
    set op | op in ops && op.RemoveOp? :: op.name
  }

  lemma PlacesStep(s: Store, op: Op, gone: set<string>)
    requires op.RemoveOp? ==> op.name in gone
    ensures Places(s.entries, gone) <= Places(Step(s, op).0.entries, gone)
  {
    hide PutIntoSlot, Registered;
    match op
    case PutOp(obj) => PlacesPut(s.entries, obj.meta.name, Encode(Typed(obj)), gone);
    case PutIntoObjectOp(obj, kon, refs) =>
      if PutIntoSlot(Lookup(s.entries, kon), obj, kon, refs).Ok? {
        PlacesPut(s.entries, kon, PutIntoSlot(Lookup(s.entries, kon), obj, kon, refs).value, gone);
      }
    case RemoveOp(name) =>
      if Find(s.entries, name) < |s.entries| {
        PlacesRemove(s.entries, name, gone);
      }
    case _ =>
  }

  lemma {:induction false} PlacesSteps(s: Store, ops: seq<Op>, gone: set<string>)
    requires RemovedNames(ops) <= gone
    ensures Places(s.entries, gone) <= Places(Steps(s, ops).entries, gone)
    decreases |ops|
  {
    hide Step;
    if ops != [] {
      assert ops[0] in ops && forall op :: op in ops[1..] ==> op in ops;
      PlacesStep(s, ops[0], gone);
      PlacesSteps(Step(s, ops[0]).0, ops[1..], gone);
    }
  }

  /** The names a transform asks to remove. None of the five PostgreSQL transforms removes any. */
  function Removals(f: TransformFunc, o: Observed, s: Store): set<string> {
    if f.Custom? then RemovedNames(f.program(o, s).0) else {}
  }

  lemma PlacesApply(f: TransformFunc, o: Observed, s: Store, gone: set<string>)
    requires Removals(f, o, s) <= gone
    ensures Places(s.entries, gone) <= Places(Apply(f, o, s).store.entries, gone)
  {
    hide Carry, Places;
    match f
    case UrlFunc =>
    case AlertFunc => PlacesCarry(s.entries, Alerting.AlertPlan(o), gone);
    case RestartFunc(clock) => PlacesCarry(s.entries, Restart.RestartPlan(o, s.composite, clock), gone);
    case ScheduleFunc(_) =>
    case PvcFunc(keys) => PlacesCarry(s.entries, Luks.LuksPlan(o, s.entries, keys), gone);
    case Custom(program) => PlacesSteps(s, program(o, s).0, gone);
  }

  /** Along any pipeline the desired resources that are not removed keep their order, their names and
      every field other than the payload; new ones come after them. */
  lemma {:induction false} EntriesKeepTheirPlaces(io: FunctionIO, ts: seq<Transform>, gone: set<string>)
    requires forall i :: 0 <= i < |ts| ==> Removals(ts[i].func, io.observed, RunAll(Load(io), ts[..i]).store) <= gone
    ensures Places(io.desired.entries, gone) <= Places(RunAll(Load(io), ts).io.desired.entries, gone)
    decreases |ts|
  {
    hide Apply, Places, Removals;
    if ts != [] {
      var n := |ts| - 1;
      var before := ts[..n];
      forall i | 0 <= i < n ensures before[..i] == ts[..i] && before[i] == ts[i] {}
      EntriesKeepTheirPlaces(io, before, gone);
      RunSynced(io, before);
      RunSnoc(Load(io), ts, n);
      assert ts[..n + 1] == ts;
      PlacesApply(ts[n].func, io.observed, RunAll(Load(io), before).store, gone);
    }
  }
}
