/** The five transforms do not interfere: when no two of them write the same name, as when the observed
    and the desired composite have one name, any order of them leaves the same store and reports the
    same results. */
module Ordering {
  import opened Decimal
  import opened Payload
  import opened Store
  import opened Runtime
  import opened Plan
  import opened Writes
  import opened Url
  import opened Alerting
  import opened Restart
  import opened Schedule
  import opened Luks
  import opened Pipeline
  import opened Postgres
  import opened Idempotence

  /** Stores that agree on every name, on the composite and on the connection details. */
  ghost predicate Same(s: Store, t: Store) {
    && (forall n :: Lookup(s.entries, n) == Lookup(t.entries, n))
    && s.composite == t.composite
    && s.details == t.details
  }

  /** What a transform writes to the resources. */
  function PlanOf(f: TransformFunc, o: Observed, s: Store): seq<Request> {
    match f
    case AlertFunc => AlertPlan(o)
    case RestartFunc(clock) => RestartPlan(o, s.composite, clock)
    case PvcFunc(keys) => LuksPlan(o, s.entries, keys)
    case _ => []
  }

  /** The writes a transform gets to make. */
  function WritesOf(f: TransformFunc, o: Observed, s: Store): seq<Request> { Effective(s.entries, PlanOf(f, o, s)) }

  function EndOf(f: TransformFunc, o: Observed, s: Store): Result {
    match f
    case UrlFunc => UrlOutcome(o, s).result
    case AlertFunc => AlertEnd(o)
    case RestartFunc(_) => RestartEnd(o, s.composite)
    case ScheduleFunc(draw) => ScheduleOutcome(s, draw).result
    case _ => NORMAL
  }

  function CompositeOf(f: TransformFunc, s: Store): Raw {
    if f.ScheduleFunc? then ScheduledComposite(s.composite, f.draw) else s.composite
  }

  function DetailsOf(f: TransformFunc, o: Observed, s: Store): seq<Detail> {
    if f.UrlFunc? then UrlOutcome(o, s).store.details else s.details
  }

  lemma ApplyParts(f: TransformFunc, o: Observed, s: Store)
    requires !f.Custom?
    ensures var c := Carry(s.entries, PlanOf(f, o, s));
      Apply(f, o, s) == Outcome(Store(c.entries, CompositeOf(f, s), DetailsOf(f, o, s)),
                                match c.failure case None => EndOf(f, o, s) case Some(text) => Result(Fatal, text))
  {
    hide AlertPlan, RestartPlan, LuksPlan, AlertEnd, RestartEnd, ScheduledComposite, PutDetail, ObservedObject,
         PostgresUrl, DecodeJson;
  }

  // ---------- Same stores, same behaviour ----------

  lemma {:induction false} EffectiveSame(es: seq<Resource>, fs: seq<Resource>, plan: seq<Request>)
    requires forall n :: Lookup(es, n) == Lookup(fs, n)
    ensures Effective(es, plan) == Effective(fs, plan) && FailureOf(es, plan) == FailureOf(fs, plan)
    decreases |plan|
  {
    hide Lookup, Works;
    if plan != [] {
      EffectiveSame(es, fs, plan[1..]);
    }
  }

  lemma CarrySame(es: seq<Resource>, fs: seq<Resource>, plan: seq<Request>)
    requires forall n :: Lookup(es, n) == Lookup(fs, n)
    ensures Carry(es, plan).failure == Carry(fs, plan).failure
    ensures forall n :: Lookup(Carry(es, plan).entries, n) == Lookup(Carry(fs, plan).entries, n)
  {
    hide Carry, Effective, FailureOf, WriteAll, Lookup, SlotAfter;
    CarryIsWriteAll(es, plan);
    CarryIsWriteAll(fs, plan);
    EffectiveSame(es, fs, plan);
    var rs := Effective(es, plan);
    forall n ensures Lookup(WriteAll(es, rs), n) == Lookup(WriteAll(fs, rs), n) {
      LookupWriteAll(es, rs, n);
      LookupWriteAll(fs, rs, n);
    }
  }

  lemma UrlSame(o: Observed, s: Store, t: Store)
    requires s.composite == t.composite && s.details == t.details
    ensures UrlOutcome(o, s).store.details == UrlOutcome(o, t).store.details
        && UrlOutcome(o, s).result == UrlOutcome(o, t).result
  {
    hide DecodeJson, ObservedObject, PostgresUrl, PutDetail;
  }

  lemma ApplySame(f: TransformFunc, o: Observed, s: Store, t: Store)
    requires !f.Custom? && Same(s, t)
    ensures Same(Apply(f, o, s).store, Apply(f, o, t).store)
    ensures Apply(f, o, s).result == Apply(f, o, t).result
  {
    hide Carry, Lookup, LuksPlan, AlertPlan, RestartPlan, UrlOutcome, ScheduledComposite, DecodeJson, Apply;
    ApplyParts(f, o, s);
    ApplyParts(f, o, t);
    UrlSame(o, s, t);
    if f.PvcFunc? {
      LuksReadsCluster(o, s.entries, t.entries, f.keys);
    }
    CarrySame(s.entries, t.entries, PlanOf(f, o, s));
  }

  // ---------- Names ----------

  /** The composite that is observed and the one that is desired are the same object. */
  ghost predicate OneName(o: Observed, s: Store) {
    var a, b := DecodeJson(o.composite, Composite), DecodeJson(s.composite, Composite);
    a.Ok? && b.Ok? ==> a.value.meta.name == b.value.meta.name
  }

  ghost predicate Disjoint(p: seq<Request>, q: seq<Request>) {
    forall a, b :: a in p && b in q && a.Emit? && b.Emit? ==> a.kon != b.kon
  }

  /** The two characters after the composite's name tell the writers apart. */
  lemma Mark(c: string, rest: string)
    requires |rest| >= 2 && rest[0] == '-'
    ensures |c + rest| >= |c| + 2 && (c + rest)[|c|..|c| + 2] == rest[..2] && c + rest != "cluster"
  {
    HasDash(c, rest);
  }

  lemma AlertMark(comp: Object, n: string)
    requires n == ConfigName(comp) || n == SecretName(comp)
    ensures var c := comp.meta.name; |n| >= |c| + 2 && n[|c|..|c| + 2] == "-a" && n != "cluster"
  {
    Mark(comp.meta.name, "-alertmanagerconfig");
    Mark(comp.meta.name, "-alertmanagerconfigsecret");
  }

  lemma KeyMark(c: string, i: nat)
    ensures |KeyResource(c, i)| >= |c| + 2 && KeyResource(c, i)[|c|..|c| + 2] == "-l" && KeyResource(c, i) != "cluster"
  {
    hide PrintNat;
    assert KeyResource(c, i) == c + ("-luks-key-" + PrintNat(i));
    Mark(c, "-luks-key-" + PrintNat(i));
  }

  lemma AlertMeetsRestart(o: Observed, s: Store, clock: Clock)
    requires OneName(o, s)
    ensures Disjoint(AlertPlan(o), RestartPlan(o, s.composite, clock))
  {
    hide AlertPlan, RestartPlan, IsRestartName, DecodeJson, ConfigName, SecretName;
    forall a, b | a in AlertPlan(o) && b in RestartPlan(o, s.composite, clock) && a.Emit? && b.Emit?
        ensures a.kon != b.kon {
      AlertNames(o, a);
      AlertMark(DecodeJson(o.composite, Composite).value, a.kon);
      RestartNames(o, s.composite, clock, b);
      RestartNameHasDash(DecodeJson(s.composite, Composite).value.meta.name, b.kon);
    }
  }

  lemma AlertMeetsLuks(o: Observed, es: seq<Resource>, keys: Generator)
    ensures Disjoint(AlertPlan(o), LuksPlan(o, es, keys))
  {
    hide AlertPlan, LuksPlan, DecodeJson, KeyResource, ConfigName, SecretName;
    forall a, b | a in AlertPlan(o) && b in LuksPlan(o, es, keys) && a.Emit? && b.Emit? ensures a.kon != b.kon {
      AlertNames(o, a);
      AlertMark(DecodeJson(o.composite, Composite).value, a.kon);
      LuksNames(o, es, keys, b);
      if b.kon != "cluster" {
        var i: nat :| b.kon == KeyResource(DecodeJson(o.composite, Composite).value.meta.name, i);
        KeyMark(DecodeJson(o.composite, Composite).value.meta.name, i);
      }
    }
  }

  lemma RestartMeetsLuks(o: Observed, s: Store, clock: Clock, es: seq<Resource>, keys: Generator)
    requires OneName(o, s)
    ensures Disjoint(RestartPlan(o, s.composite, clock), LuksPlan(o, es, keys))
  {
    hide RestartPlan, LuksPlan, IsRestartName, DecodeJson, KeyResource;
    forall a, b | a in RestartPlan(o, s.composite, clock) && b in LuksPlan(o, es, keys) && a.Emit?
        && b.Emit? ensures a.kon != b.kon {
      RestartNames(o, s.composite, clock, a);
      RestartNameHasDash(DecodeJson(s.composite, Composite).value.meta.name, a.kon);
      LuksNames(o, es, keys, b);
      if b.kon != "cluster" {
        var i: nat :| b.kon == KeyResource(DecodeJson(o.composite, Composite).value.meta.name, i);
        KeyMark(DecodeJson(o.composite, Composite).value.meta.name, i);
      }
    }
  }

  // ---------- Two transforms ----------

  function KindOf(f: TransformFunc): nat {
    match f
    case UrlFunc => 0
    case AlertFunc => 1
    case RestartFunc(_) => 2
    case ScheduleFunc(_) => 3
    case PvcFunc(_) => 4
    case Custom(_) => 5
  }

  /** No transform reads what another one changes. */
  lemma ReadsNothingOf(f: TransformFunc, g: TransformFunc, o: Observed, s: Store)
    requires !f.Custom? && !g.Custom? && KindOf(f) != KindOf(g)
    ensures var t := Apply(g, o, s).store;
      && PlanOf(f, o, t) == PlanOf(f, o, s)
      && EndOf(f, o, t) == EndOf(f, o, s)
      && (f.UrlFunc? ==> DetailsOf(f, o, t) == DetailsOf(f, o, s))
      && (f.ScheduleFunc? ==> CompositeOf(f, t) == CompositeOf(f, s))
  {
    ApplyParts(g, o, s);
    var t := Apply(g, o, s).store;
    if g.ScheduleFunc? {
      if f.RestartFunc? {
        RestartIgnoresSchedule(o, s.composite, f.clock, g.draw);
      }
      if f.UrlFunc? {
        UrlIgnoresSchedule(o, s, g.draw);
      }
    }
    hide Carry, Lookup, LuksPlan, AlertPlan, RestartPlan, UrlOutcome, ScheduledComposite, DecodeJson, Apply,
         AlertEnd, RestartEnd;
    if f.UrlFunc? && !g.ScheduleFunc? {
      UrlSame(o, s, t);
    }
    if f.PvcFunc? {
      OthersAvoidCluster(o, s.composite, if g.RestartFunc? then g.clock else (_ => 0));
      CarryAvoids(s.entries, PlanOf(g, o, s), "cluster");
      LuksReadsCluster(o, s.entries, t.entries, f.keys);
    }
  }

  lemma UrlIgnoresSchedule(o: Observed, s: Store, draw: Draw)
    ensures var t := s.(composite := ScheduledComposite(s.composite, draw));
      UrlOutcome(o, t).store.details == UrlOutcome(o, s).store.details
          && UrlOutcome(o, t).result == UrlOutcome(o, s).result
  {
    hide FillBlanks, ObservedObject, PostgresUrl, PutDetail;
  }

  /** What a transform gets to write does not depend on another one having run. */
  lemma WritesKept(f: TransformFunc, g: TransformFunc, o: Observed, s: Store)
    requires !f.Custom? && !g.Custom? && KindOf(f) != KindOf(g)
    ensures WritesOf(g, o, Apply(f, o, s).store) == WritesOf(g, o, s)
  {
    hide Carry, PlanOf, EndOf, Apply, UrlOutcome, ScheduledComposite, Effective, FailureOf, WriteAll;
    ApplyParts(f, o, s);
    ReadsNothingOf(g, f, o, s);
    CarryIsWriteAll(s.entries, PlanOf(f, o, s));
    EffectiveAfterWriteAll(s.entries, WritesOf(f, o, s), PlanOf(g, o, s));
  }

  /** No name is written by two different transforms of the list. */
  ghost predicate NoClash(o: Observed, s: Store, ts: seq<Transform>) {
    forall t, u :: t in ts && u in ts && KindOf(t.func) != KindOf(u.func) ==>
      Disjoint(WritesOf(t.func, o, s), WritesOf(u.func, o, s))
  }

  lemma NoClashAmong(o: Observed, s: Store, ts: seq<Transform>, us: seq<Transform>)
    requires NoClash(o, s, ts) && forall u :: u in us ==> u in ts
    ensures NoClash(o, s, us)
  {
    hide WritesOf, KindOf, Disjoint;
  }

  lemma NoClashKept(o: Observed, s: Store, ts: seq<Transform>)
    requires ts != [] && DifferentKinds(ts) && NoClash(o, s, ts)
    ensures NoClash(o, Apply(ts[0].func, o, s).store, ts[1..])
  {
    hide WritesOf, KindOf, Disjoint, Apply;
    forall t | t in ts[1..]
      ensures t in ts && WritesOf(t.func, o, Apply(ts[0].func, o, s).store) == WritesOf(t.func, o, s)
    {
      WritesKept(ts[0].func, t.func, o, s);
    }
  }

  /** With one name there is no clash. */
  lemma OneNameNoClash(o: Observed, s: Store, ts: seq<Transform>)
    requires OneName(o, s) && DifferentKinds(ts)
    ensures NoClash(o, s, ts)
  {
    hide OneName, PlanOf, KindOf, Effective, Apply;
    forall t, u | t in ts && u in ts && KindOf(t.func) != KindOf(u.func)
      ensures Disjoint(WritesOf(t.func, o, s), WritesOf(u.func, o, s))
    {
      PlansDisjoint(t.func, u.func, o, s);
      PrefixMembers(WritesOf(t.func, o, s), PlanOf(t.func, o, s));
      PrefixMembers(WritesOf(u.func, o, s), PlanOf(u.func, o, s));
    }
  }

  lemma PlansDisjoint(f: TransformFunc, g: TransformFunc, o: Observed, s: Store)
    requires !f.Custom? && !g.Custom? && KindOf(f) != KindOf(g) && OneName(o, s)
    ensures Disjoint(PlanOf(f, o, s), PlanOf(g, o, s))
  {
    hide LuksPlan, AlertPlan, RestartPlan, OneName;
    match (f, g) {
      case (AlertFunc, RestartFunc(clock)) => AlertMeetsRestart(o, s, clock);
      case (RestartFunc(clock), AlertFunc) => AlertMeetsRestart(o, s, clock);
      case (AlertFunc, PvcFunc(keys)) => AlertMeetsLuks(o, s.entries, keys);
      case (PvcFunc(keys), AlertFunc) => AlertMeetsLuks(o, s.entries, keys);
      case (RestartFunc(clock), PvcFunc(keys)) => RestartMeetsLuks(o, s, clock, s.entries, keys);
      case (PvcFunc(keys), RestartFunc(clock)) => RestartMeetsLuks(o, s, clock, s.entries, keys);
      case _ =>
    }
  }

  /** Plans that get to write disjoint names can be carried out in either order. */
  lemma CarriesCommute(es: seq<Resource>, p: seq<Request>, q: seq<Request>)
    requires Disjoint(Effective(es, p), Effective(es, q))
    ensures Carry(Carry(es, p).entries, q).failure == Carry(es, q).failure
    ensures forall n ::
      Lookup(Carry(Carry(es, p).entries, q).entries, n) == Lookup(Carry(Carry(es, q).entries, p).entries, n)
  {
    hide Carry, Effective, FailureOf, WriteAll, Lookup, SlotAfter, Works;
    ThreePlans(es, p, q, []);
    ThreePlans(es, q, p, []);
    EmptyPlan(Carry(Carry(es, p).entries, q).entries, es);
    EmptyPlan(Carry(Carry(es, q).entries, p).entries, es);
    ThreePlans(es, q, [], []);
    var a, b := Effective(es, p), Effective(es, q);
    assert a + b + [] == a + b && b + a + [] == b + a;
    forall n ensures SlotAfter(Lookup(es, n), a + b, n) == SlotAfter(Lookup(es, n), b + a, n) {
      SlotAfterAppend(Lookup(es, n), a, b, n);
      SlotAfterAppend(Lookup(es, n), b, a, n);
      if Avoids(a, n) {
        SlotAvoided(Lookup(es, n), a, n);
        SlotAvoided(SlotAfter(Lookup(es, n), b, n), a, n);
      } else {
        assert Avoids(b, n);
        SlotAvoided(Lookup(es, n), b, n);
        SlotAvoided(SlotAfter(Lookup(es, n), a, n), b, n);
      }
    }
    forall n ensures Lookup(WriteAll(es, a + b), n) == Lookup(WriteAll(es, b + a), n) {
      LookupWriteAll(es, a + b, n);
      LookupWriteAll(es, b + a, n);
    }
  }

  lemma EmptyPlan(es: seq<Resource>, fs: seq<Resource>)
    ensures Carry(es, []).entries == es && Effective(fs, []) == []
  {
  }

  /** Two different transforms that write no common name commute, and neither notices whether the other
      has run. */
  lemma Commute(f: TransformFunc, g: TransformFunc, o: Observed, s: Store)
    requires !f.Custom? && !g.Custom? && KindOf(f) != KindOf(g)
    requires Disjoint(WritesOf(f, o, s), WritesOf(g, o, s))
    ensures Same(Apply(g, o, Apply(f, o, s).store).store, Apply(f, o, Apply(g, o, s).store).store)
    ensures Apply(g, o, Apply(f, o, s).store).result == Apply(g, o, s).result
  {
    hide Carry, Lookup, PlanOf, EndOf, UrlOutcome, ScheduledComposite, Apply, Disjoint, Effective;
    var sf, sg := Apply(f, o, s).store, Apply(g, o, s).store;
    ApplyParts(f, o, s);
    ApplyParts(g, o, s);
    ApplyParts(g, o, sf);
    ApplyParts(f, o, sg);
    ReadsNothingOf(f, g, o, s);
    ReadsNothingOf(g, f, o, s);
    CarriesCommute(s.entries, PlanOf(f, o, s), PlanOf(g, o, s));
  }

  // ---------- Any order ----------

  function RunStore(o: Observed, s: Store, ts: seq<Transform>): Store
    decreases |ts|
  {
    if ts == [] then s else RunStore(o, Apply(ts[0].func, o, s).store, ts[1..])
  }

  function Reports(o: Observed, s: Store, ts: seq<Transform>): seq<Result>
    decreases |ts|
  {
    if ts == [] then []
    else [Reported(ts[0], Apply(ts[0].func, o, s).result)] + Reports(o, Apply(ts[0].func, o, s).store, ts[1..])
  }

  lemma {:induction false} RunAllParts(io: FunctionIO, ts: seq<Transform>)
    ensures RunAll(Load(io), ts).io
         == io.(desired := RunStore(io.observed, io.desired, ts),
                results := io.results + Reports(io.observed, io.desired, ts))
    decreases |ts|
  {
    hide Apply;
    if ts != [] {
      var next := ExecState(Load(io), ts[0]);
      assert next == Load(next.io);
      RunAllParts(next.io, ts[1..]);
    } else {
      assert io.results + [] == io.results;
    }
  }

  /** Transforms of this program, no two of the same kind. */
  ghost predicate DifferentKinds(ts: seq<Transform>) {
    && (forall i :: 0 <= i < |ts| ==> !ts[i].func.Custom?)
    && (forall i, j :: 0 <= i < j < |ts| ==> KindOf(ts[i].func) != KindOf(ts[j].func))
  }

  lemma {:induction false} RunSame(o: Observed, s: Store, t: Store, ts: seq<Transform>)
    requires DifferentKinds(ts) && Same(s, t)
    ensures Same(RunStore(o, s, ts), RunStore(o, t, ts)) && Reports(o, s, ts) == Reports(o, t, ts)
    decreases |ts|
  {
    hide Apply, Same, KindOf;
    if ts != [] {
      ApplySame(ts[0].func, o, s, t);
      RunSame(o, Apply(ts[0].func, o, s).store, Apply(ts[0].func, o, t).store, ts[1..]);
    }
  }

  lemma FirstTwoKinds(a: Transform, b: Transform, rest: seq<Transform>)
    requires DifferentKinds([a, b] + rest)
    ensures !a.func.Custom? && !b.func.Custom? && KindOf(a.func) != KindOf(b.func) && DifferentKinds(rest)
  {
    hide KindOf;
    var ts := [a, b] + rest;
    assert ts[0] == a && ts[1] == b && ts[2..] == rest;
  }

  lemma SwapFirst(o: Observed, s: Store, a: Transform, b: Transform, rest: seq<Transform>)
    requires DifferentKinds([a, b] + rest) && NoClash(o, s, [a, b] + rest)
    ensures Same(RunStore(o, s, [a, b] + rest), RunStore(o, s, [b, a] + rest))
    ensures multiset(Reports(o, s, [a, b] + rest)) == multiset(Reports(o, s, [b, a] + rest))
  {
    hide Apply, Same, KindOf, DifferentKinds, RunStore, Reports, WritesOf, Disjoint;
    FirstTwoKinds(a, b, rest);
    assert a in [a, b] + rest && b in [a, b] + rest;
    Commute(a.func, b.func, o, s);
    Commute(b.func, a.func, o, s);
    var sa, sb := Apply(a.func, o, s), Apply(b.func, o, s);
    RunSame(o, Apply(b.func, o, sa.store).store, Apply(a.func, o, sb.store).store, rest);
    UnfoldTwo(o, s, a, b, rest);
    UnfoldTwo(o, s, b, a, rest);
    SwappedTwo(Reported(a, sa.result), Reported(b, sb.result), Reports(o, Apply(b.func, o, sa.store).store, rest));
  }

  lemma SwappedTwo(q: Result, r: Result, rest: seq<Result>)
    ensures multiset([q, r] + rest) == multiset([r, q] + rest)
  {
  }

  lemma UnfoldTwo(o: Observed, s: Store, a: Transform, b: Transform, rest: seq<Transform>)
    ensures var sa := Apply(a.func, o, s).store;
      var sab := Apply(b.func, o, sa).store;
      && RunStore(o, s, [a, b] + rest) == RunStore(o, sab, rest)
      && Reports(o, s, [a, b] + rest)
         == [Reported(a, Apply(a.func, o, s).result), Reported(b, Apply(b.func, o, sa).result)] + Reports(o, sab, rest)
  {
    hide Apply;
    var sa := Apply(a.func, o, s).store;
    assert ([a, b] + rest)[1..] == [b] + rest && ([b] + rest)[1..] == rest;
    assert RunStore(o, sa, [b] + rest) == RunStore(o, Apply(b.func, o, sa).store, rest);
    assert Reports(o, sa, [b] + rest)
        == [Reported(b, Apply(b.func, o, sa).result)] + Reports(o, Apply(b.func, o, sa).store, rest);
  }

  lemma UnfoldOne(o: Observed, s: Store, a: Transform, rest: seq<Transform>)
    ensures var sa := Apply(a.func, o, s).store;
      && RunStore(o, s, [a] + rest) == RunStore(o, sa, rest)
      && Reports(o, s, [a] + rest) == [Reported(a, Apply(a.func, o, s).result)] + Reports(o, sa, rest)
  {
    hide Apply;
    assert ([a] + rest)[1..] == rest;
  }

  /** The list without the transform at j. */
  function Omitting(ts: seq<Transform>, j: nat): seq<Transform>
    requires j < |ts|
  {
    ts[..j] + ts[j + 1..]
  }

  lemma OmittingKinds(ts: seq<Transform>, j: nat)
    requires j < |ts| && DifferentKinds(ts)
    ensures DifferentKinds(Omitting(ts, j))
  {
    hide KindOf;
    assert forall i :: 0 <= i < |ts| - 1 ==> Omitting(ts, j)[i] == ts[if i < j then i else i + 1];
  }

  lemma OmittingMembers(ts: seq<Transform>, j: nat)
    requires j < |ts|
    ensures multiset(Omitting(ts, j)) == multiset(ts) - multiset{ts[j]}
  {
    assert ts == ts[..j] + [ts[j]] + ts[j + 1..];
  }

  lemma TailKinds(ts: seq<Transform>)
    requires ts != [] && DifferentKinds(ts)
    ensures DifferentKinds(ts[1..]) && ts == [ts[0]] + ts[1..]
  {
    hide KindOf;
  }

  lemma RearrangedKinds(ts: seq<Transform>, us: seq<Transform>, at: seq<nat>)
    requires DifferentKinds(ts) && |us| == |at|
    requires forall i :: 0 <= i < |us| ==> at[i] < |ts| && us[i] == ts[at[i]]
    requires forall i, k :: 0 <= i < k < |us| ==> at[i] != at[k]
    ensures DifferentKinds(us)
  {
    hide KindOf;
    forall i, k | 0 <= i < k < |us| ensures KindOf(us[i].func) != KindOf(us[k].func) {
      assert at[i] < at[k] || at[k] < at[i];
    }
  }

  lemma TakeApart(ts: seq<Transform>, j: nat)
    requires 0 < j < |ts|
    ensures var rest := Omitting(ts[1..], j - 1);
      && ts[1..][j - 1] == ts[j]
      && [ts[j]] + Omitting(ts, j) == [ts[j], ts[0]] + rest
      && [ts[0]] + ([ts[j]] + rest) == [ts[0], ts[j]] + rest
  {
  }

  lemma FrontTwoKinds(ts: seq<Transform>, j: nat)
    requires 0 < j < |ts| && DifferentKinds(ts)
    ensures DifferentKinds([ts[0], ts[j]] + Omitting(ts[1..], j - 1))
  {
    hide DifferentKinds;
    var us := [ts[0], ts[j]] + Omitting(ts[1..], j - 1);
    var at := seq(|ts|, i => if i <= 0 then 0 else if i == 1 then j else if i <= j then i - 1 else i);
    assert forall i :: 0 <= i < |us| ==> us[i] == ts[at[i]];
    RearrangedKinds(ts, us, at);
  }

  lemma FrontTwoMembers(ts: seq<Transform>, j: nat)
    requires 0 < j < |ts|
    ensures forall u :: u in [ts[0], ts[j]] + Omitting(ts[1..], j - 1) ==> u in ts
  {
  }

  /** Any transform can be moved to the front. */
  lemma {:induction false} MoveToFront(o: Observed, s: Store, ts: seq<Transform>, j: nat)
    requires j < |ts| && DifferentKinds(ts) && NoClash(o, s, ts)
    ensures var us := [ts[j]] + Omitting(ts, j);
      && Same(RunStore(o, s, ts), RunStore(o, s, us))
      && multiset(Reports(o, s, ts)) == multiset(Reports(o, s, us))
    decreases j
  {
    hide Apply, KindOf, NoClash, Lookup, Omitting, RunStore, Reports, DifferentKinds;
    if j == 0 {
      assert [ts[0]] + Omitting(ts, 0) == ts by { FrontFirst(ts); }
    } else {
      var tail := ts[1..];
      TailKinds(ts);
      TakeApart(ts, j);
      FrontTwoKinds(ts, j);
      var rest, head := Omitting(tail, j - 1), ts[0];
      NotCustom(ts);
      NoClashKept(o, s, ts);
      MoveToFront(o, Apply(head.func, o, s).store, tail, j - 1);
      UnfoldOne(o, s, head, tail);
      UnfoldOne(o, s, head, [ts[j]] + rest);
      var next := Apply(head.func, o, s);
      OneMore(Reported(head, next.result), Reports(o, next.store, tail), Reports(o, next.store, [ts[j]] + rest));
      NotCustom([head, ts[j]] + rest);
      FrontTwoMembers(ts, j);
      NoClashAmong(o, s, ts, [head, ts[j]] + rest);
      SwapFirst(o, s, head, ts[j], rest);
    }
  }

  lemma SameChain(s: Store, t: Store, u: Store)
    requires Same(s, t) && Same(u, t)
    ensures Same(s, u)
  {
    hide Lookup;
  }

  lemma OneMore(r: Result, x: seq<Result>, y: seq<Result>)
    requires multiset(x) == multiset(y)
    ensures multiset([r] + x) == multiset([r] + y)
  {
  }

  lemma NotCustom(ts: seq<Transform>)
    requires DifferentKinds(ts) && ts != []
    ensures !ts[0].func.Custom?
  {
  }

  lemma FrontFirst(ts: seq<Transform>)
    requires ts != []
    ensures [ts[0]] + Omitting(ts, 0) == ts
  {
  }

  lemma FrontRest(ts: seq<Transform>)
    requires ts != []
    ensures Omitting(ts, 0) == ts[1..]
  {
  }

  lemma SameMembers(ts: seq<Transform>, us: seq<Transform>)
    requires multiset(ts) == multiset(us)
    ensures forall u :: u in us ==> u in ts
  {
    assert forall u :: u in us ==> u in multiset(us);
  }

  lemma SameSelf(s: Store)
    ensures Same(s, s)
  {
  }

  /** Where the first transform of one list is in another with the same members. */
  lemma HeadIn(ts: seq<Transform>, us: seq<Transform>) returns (j: nat)
    requires ts != [] && multiset(ts) == multiset(us) && DifferentKinds(ts) && DifferentKinds(us)
    ensures j < |us| && us[j] == ts[0] && [ts[0]] + Omitting(ts, 0) == ts
    ensures multiset(Omitting(ts, 0)) == multiset(Omitting(us, j))
    ensures DifferentKinds(Omitting(ts, 0)) && DifferentKinds(Omitting(us, j))
  {
    hide KindOf, Omitting, DifferentKinds;
    assert ts[0] in multiset(us);
    j :| 0 <= j < |us| && us[j] == ts[0];
    OmittingKinds(us, j);
    OmittingKinds(ts, 0);
    FrontFirst(ts);
    OmittingMembers(ts, 0);
    OmittingMembers(us, j);
  }

  /** Every ordering of the transforms gives the same name-to-payload map, the same composite, the
      same connection details and the same results. */
  lemma {:induction false} AnyOrder(o: Observed, s: Store, ts: seq<Transform>, us: seq<Transform>)
    requires multiset(ts) == multiset(us) && DifferentKinds(ts) && DifferentKinds(us) && NoClash(o, s, ts)
    ensures Same(RunStore(o, s, ts), RunStore(o, s, us))
    ensures multiset(Reports(o, s, ts)) == multiset(Reports(o, s, us))
    decreases |ts|
  {
    hide Apply, KindOf, NoClash, Same, Omitting, RunStore, Reports, DifferentKinds;
    if ts == [] {
      assert us == [] by { assert |multiset(us)| == 0; }
      SameSelf(RunStore(o, s, ts));
    } else {
      var t := ts[0];
      var j := HeadIn(ts, us);
      var next := Apply(t.func, o, s);
      var ts', us' := Omitting(ts, 0), Omitting(us, j);
      NotCustom(ts);
      NoClashKept(o, s, ts);
      assert ts' == ts[1..] by { hide DifferentKinds; FrontRest(ts); }
      SameMembers(ts, us);
      NoClashAmong(o, s, ts, us);
      AnyOrder(o, next.store, ts', us');
      UnfoldOne(o, s, t, ts');
      UnfoldOne(o, s, t, us');
      OneMore(Reported(t, next.result), Reports(o, next.store, ts'), Reports(o, next.store, us'));
      MoveToFront(o, s, us, j);
      SameChain(RunStore(o, s, ts), RunStore(o, s, [t] + us'), RunStore(o, s, us));
    }
  }

  lemma Twice(us: seq<Transform>, i: nat, j: nat)
    requires i < j < |us| && us[i] == us[j]
    ensures multiset(us)[us[i]] >= 2
  {
    assert us == us[..j] + us[j..];
    assert us[i] in us[..j] && us[j] in us[j..];
    assert multiset(us) == multiset(us[..j]) + multiset(us[j..]);
  }

  lemma SameKindSame(ts: seq<Transform>, t: Transform, u: Transform)
    requires DifferentKinds(ts) && t in ts && u in ts && KindOf(t.func) == KindOf(u.func)
    ensures t == u
  {
    hide KindOf;
    var a, b :| 0 <= a < |ts| && 0 <= b < |ts| && ts[a] == t && ts[b] == u;
  }

  /** A list with the same members as one of different kinds has different kinds too. */
  lemma KindsOfPermutation(ts: seq<Transform>, us: seq<Transform>)
    requires multiset(ts) == multiset(us) && DifferentKinds(ts)
    ensures DifferentKinds(us)
  {
    hide KindOf;
    forall i | 0 <= i < |us| ensures us[i] in ts && !us[i].func.Custom? {
      assert us[i] in multiset(us);
    }
    forall i, j | 0 <= i < j < |us| ensures KindOf(us[i].func) != KindOf(us[j].func) {
      if KindOf(us[i].func) == KindOf(us[j].func) {
        SameKindSame(ts, us[i], us[j]);
        Twice(us, i, j);
        var a :| 0 <= a < |ts| && ts[a] == us[i];
        OnlyOnce(ts, a);
      }
    }
  }

  lemma OnlyOnce(ts: seq<Transform>, a: nat)
    requires a < |ts| && DifferentKinds(ts)
    ensures multiset(ts)[ts[a]] == 1
  {
    hide KindOf;
    assert ts == ts[..a] + [ts[a]] + ts[a + 1..];
    assert ts[a] !in ts[..a] && ts[a] !in ts[a + 1..];
  }

  lemma TableKinds(clock: Clock, draw: Draw, keys: Generator)
    ensures DifferentKinds(PostgresFunctions(clock, draw, keys))
  {
  }

  /** The outcome of the transforms in another order is that of the table. */
  ghost predicate SameOutcome(io: FunctionIO, clock: Clock, draw: Draw, keys: Generator, us: seq<Transform>) {
    var one, other := RunFive(io, clock, draw, keys), RunAll(Load(io), us).io;
    && Same(one.desired, other.desired)
    && multiset(one.results) == multiset(other.results)
    && other.observed == one.observed
  }

  /** The PostgreSQL pipeline in any order. */
  lemma PipelineInAnyOrder(io: FunctionIO, clock: Clock, draw: Draw, keys: Generator, us: seq<Transform>)
    requires multiset(us) == multiset(PostgresFunctions(clock, draw, keys))
    requires NoClash(io.observed, io.desired, PostgresFunctions(clock, draw, keys))
    ensures SameOutcome(io, clock, draw, keys, us)
  {
    hide RunAll, RunStore, Reports, NoClash, DifferentKinds, Same, PostgresFunctions, Load;
    var ts := PostgresFunctions(clock, draw, keys);
    TableKinds(clock, draw, keys);
    KindsOfPermutation(ts, us);
    AnyOrder(io.observed, io.desired, ts, us);
    RunAllParts(io, ts);
    RunAllParts(io, us);
  }

  /** One name is enough for the order not to matter. */
  lemma OneNameAnyOrder(io: FunctionIO, clock: Clock, draw: Draw, keys: Generator, us: seq<Transform>)
    requires multiset(us) == multiset(PostgresFunctions(clock, draw, keys)) && OneName(io.observed, io.desired)
    ensures SameOutcome(io, clock, draw, keys, us)
  {
    TableKinds(clock, draw, keys);
    hide SameOutcome, NoClash, OneName, DifferentKinds, PostgresFunctions;
    OneNameNoClash(io.observed, io.desired, PostgresFunctions(clock, draw, keys));
    PipelineInAnyOrder(io, clock, draw, keys, us);
  }
}
