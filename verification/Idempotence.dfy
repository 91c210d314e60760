/** Reconciling twice: a second run on the output of the first, in the same world, changes nothing. */
module Idempotence {
  import opened Payload
  import opened Store
  import opened Runtime
  import opened Plan
  import opened Writes
  import opened Url
  import opened Alerting
  import opened Restart
  import opened Schedule
  import opened Luks
  import opened Postgres

  /** Three plans in a row write their effective parts, each found on the first entries. */
  lemma ThreePlans(es: seq<Resource>, p: seq<Request>, q: seq<Request>, r: seq<Request>)
    ensures var e1, e2 := Carry(es, p).entries, Carry(Carry(es, p).entries, q).entries;
      var writes := Effective(es, p) + Effective(es, q) + Effective(es, r);
      && AllWork(es, writes)
      && Carry(e2, r).entries == WriteAll(es, writes)
      && Carry(es, p).failure == FailureOf(es, p)
      && Carry(e1, q).failure == FailureOf(es, q)
      && Carry(e2, r).failure == FailureOf(es, r)
  {
    hide Carry, Effective, FailureOf, WriteAll, Works;
    var a, b, c := Effective(es, p), Effective(es, q), Effective(es, r);
    CarryIsWriteAll(es, p);
    var e1 := WriteAll(es, a);
    EffectiveAfterWriteAll(es, a, q);
    CarryIsWriteAll(e1, q);
    WriteAllAppend(es, a, b);
    EffectiveAfterWriteAll(es, a + b, r);
    CarryIsWriteAll(WriteAll(es, a + b), r);
    WriteAllAppend(es, a + b, c);
  }

  /** The same plans on their own output change no entry and fail in the same places; the last may be
      another plan, as long as it does the same. */
  lemma ThreePlansTwice(es: seq<Resource>, p: seq<Request>, q: seq<Request>, r: seq<Request>, r': seq<Request>)
    requires Effective(es, r') == Effective(es, r) && FailureOf(es, r') == FailureOf(es, r)
    ensures var out := Carry(Carry(Carry(es, p).entries, q).entries, r).entries;
      var e1, e2 := Carry(out, p).entries, Carry(Carry(out, p).entries, q).entries;
      && Carry(e2, r').entries == out
      && Carry(out, p).failure == Carry(es, p).failure
      && Carry(e1, q).failure == Carry(Carry(es, p).entries, q).failure
      && Carry(e2, r').failure == Carry(Carry(Carry(es, p).entries, q).entries, r).failure
  {
    hide Carry, Effective, FailureOf, WriteAll, Works;
    var writes := Effective(es, p) + Effective(es, q) + Effective(es, r);
    ThreePlans(es, p, q, r);
    var out := WriteAll(es, writes);
    ThreePlans(out, p, q, r');
    EffectiveAfterWriteAll(es, writes, p);
    EffectiveAfterWriteAll(es, writes, q);
    EffectiveAfterWriteAll(es, writes, r');
    WriteAllTwice(es, writes);
  }

  /** The restart plan reads nothing that filling in a schedule changes. */
  lemma RestartIgnoresSchedule(o: Observed, c: Raw, clock: Clock, draw: Draw)
    ensures RestartPlan(o, ScheduledComposite(c, draw), clock) == RestartPlan(o, c, clock)
    ensures RestartEnd(o, ScheduledComposite(c, draw)) == RestartEnd(o, c)
  {
    hide KeepPlan, PendingRestart, FillBlanks, ScheduledOp, OpResource;
    var comp := DecodeJson(c, Composite);
    if comp.Ok? {
      FillKeepsStrategy(comp.value.body.params, draw);
    }
  }

  lemma FillKeepsStrategy(p: Parameters, draw: Draw)
    ensures FillBlanks(p, draw).updateStrategy == p.updateStrategy
  {
  }

  /** After the run the encryption plan is that of before the run. */
  lemma LuksPlanAgain(o: Observed, es: seq<Resource>, es': seq<Resource>, keys: Generator, later: Generator)
    requires Lookup(es', "cluster") == Lookup(LuksEntries(o, es, keys), "cluster")
    ensures LuksPlan(o, es', later) == LuksPlan(o, es, later)
  {
    hide Lookup, Carry, SecretPlan, ObservedObject, KeyResource, DesiredObject;
    var decoded := DecodeJson(o.composite, Composite);
    if decoded.Ok? && decoded.value.body.params.encryption {
      var comp := decoded.value;
      var found := DesiredObject(es, Cluster, "cluster");
      SameDesiredObject(LuksEntries(o, es, keys), es', "cluster");
      if found.Ok? {
        var cluster := found.value;
        ClusterAfter(o, es, keys, comp, cluster);
        assert Typed(Encrypted(Typed(Encrypted(cluster)))) == Typed(Encrypted(cluster));
      } else {
        AbortedPlan(es, NoCluster);
        assert LuksEntries(o, es, keys) == es;
      }
    }
  }

  /** Where the generators make no difference the plan does the same with both. */
  lemma LuksPlanDoesTheSame(o: Observed, es: seq<Resource>, keys: Generator, later: Generator)
    requires Indifferent(o, es, keys, later)
    ensures Effective(es, LuksPlan(o, es, later)) == Effective(es, LuksPlan(o, es, keys))
    ensures FailureOf(es, LuksPlan(o, es, later)) == FailureOf(es, LuksPlan(o, es, keys))
  {
    hide Lookup, SecretPlan, NoDifference, DesiredObject, Effective, FailureOf;
    var decoded := DecodeJson(o.composite, Composite);
    if decoded.Ok? && decoded.value.body.params.encryption {
      var comp := decoded.value;
      var found := DesiredObject(es, Cluster, "cluster");
      if found.Ok? {
        var cluster := found.value;
        var first, n := [ClusterRequest(cluster)], Pods(cluster);
        EffectiveAppend(es, first, SecretPlan(o, comp, n, keys));
        EffectiveAppend(es, first, SecretPlan(o, comp, n, later));
        SameSecrets(o, es, comp, n, keys, later);
      }
    }
  }

  lemma AbortedPlan(es: seq<Resource>, m: Message)
    ensures Carry(es, [Abort(m)]).entries == es
  {
  }

  lemma SameDesiredObject(es: seq<Resource>, es': seq<Resource>, n: string)
    requires Lookup(es, n) == Lookup(es', n)
    ensures forall shape :: DesiredObject(es, shape, n) == DesiredObject(es', shape, n)
  {
    hide Lookup, Overlay, DecodeJson;
  }

  /** In the second run the encryption transform has the plan it would have on the first entries. */
  lemma LaterPlan(o: Observed, s: Store, clock: Clock, draw: Draw, keys: Generator, later: Generator)
    ensures var once := FinalStore(o, s, clock, draw, keys);
      var e2 := RestartEntries(o, s.composite, AlertEntries(o, s.entries), clock);
      var f2 := RestartEntries(o, once.composite, AlertEntries(o, once.entries), clock);
      && LuksPlan(o, e2, keys) == LuksPlan(o, s.entries, keys)
      && LuksPlan(o, once.entries, later) == LuksPlan(o, s.entries, later)
      && LuksPlan(o, f2, later) == LuksPlan(o, s.entries, later)
  {
    hide Carry, AlertPlan, RestartPlan, LuksPlan, ScheduledComposite, Lookup;
    var once := FinalStore(o, s, clock, draw, keys);
    var e2 := RestartEntries(o, s.composite, AlertEntries(o, s.entries), clock);
    var f2 := RestartEntries(o, once.composite, AlertEntries(o, once.entries), clock);
    ClusterSlot(o, s, clock);
    ClusterSlot(o, once, clock);
    LuksReadsCluster(o, s.entries, e2, keys);
    LuksReadsCluster(o, s.entries, e2, later);
    LuksReadsCluster(o, once.entries, f2, later);
    LuksPlanAgain(o, e2, once.entries, keys, later);
  }

  /** The resource side of a second run. */
  lemma EntriesTwice(o: Observed, s: Store, clock: Clock, draw: Draw, keys: Generator, later: Generator)
    requires Indifferent(o, s.entries, keys, later)
    ensures var once := FinalStore(o, s, clock, draw, keys);
      var e1, e2 := AlertEntries(o, s.entries), RestartEntries(o, s.composite, AlertEntries(o, s.entries), clock);
      var f1 := AlertEntries(o, once.entries);
      var f2 := RestartEntries(o, once.composite, f1, clock);
      && AllEntries(o, once, clock, later) == once.entries
      && Carry(once.entries, AlertPlan(o)).failure == Carry(s.entries, AlertPlan(o)).failure
      && Carry(f1, RestartPlan(o, once.composite, clock)).failure
         == Carry(e1, RestartPlan(o, s.composite, clock)).failure
      && Carry(f2, LuksPlan(o, f2, later)).failure == Carry(e2, LuksPlan(o, e2, keys)).failure
  {
    hide Carry, AlertPlan, RestartPlan, LuksPlan, ScheduledComposite, UrlOutcome, Indifferent, Lookup,
         Effective, FailureOf;
    RestartIgnoresSchedule(o, s.composite, clock, draw);
    LaterPlan(o, s, clock, draw, keys, later);
    LuksPlanDoesTheSame(o, s.entries, keys, later);
    ThreePlansTwice(s.entries, AlertPlan(o), RestartPlan(o, s.composite, clock), LuksPlan(o, s.entries, keys),
      LuksPlan(o, s.entries, later));
  }

  lemma DetailTwice(ds: seq<Detail>, cd: Detail)
    ensures PutDetail(PutDetail(ds, cd), cd) == PutDetail(ds, cd)
  {
    var once := PutDetail(ds, cd);
    FindDetailUnique(once, cd.name, FindDetail(ds, cd.name));
  }

  /** The connection-detail side of a second run; the schedule does not change what it reads. */
  lemma UrlTwice(o: Observed, s: Store, once: Store, draw: Draw)
    requires once.composite == ScheduledComposite(s.composite, draw)
    requires once.details == UrlOutcome(o, s).store.details
    ensures UrlOutcome(o, once).store.details == once.details
    ensures UrlOutcome(o, once).result == UrlOutcome(o, s).result
  {
    hide FillBlanks, ObservedObject, PostgresUrl, PutDetail;
    forall cd ensures PutDetail(PutDetail(s.details, cd), cd) == PutDetail(s.details, cd) {
      DetailTwice(s.details, cd);
    }
  }

  lemma ScheduleResultAgain(c: Raw, draw: Draw)
    ensures DecodeJson(ScheduledComposite(c, draw), Composite).Err? <==> DecodeJson(c, Composite).Err?
  {
    hide FillBlanks;
  }

  /** Whole-pipeline idempotence: after the five transforms have run once on any FunctionIO, running
      them on the result with the same observed state and clock leaves composite, connection details
      and resources as they are and reports the same five results again, whatever the schedule draws
      and the key generator would give; provided every key secret the loop gets to was observed. That
      nothing less will do is Repetition.RepeatsExactly. */
  lemma PipelineIdempotent(io: FunctionIO, clock: Clock, draw: Draw, keys: Generator, laterDraw: Draw,
      laterKeys: Generator)
    requires KeysObserved(io.observed, io.desired.entries)
    ensures var once := RunFive(io, clock, draw, keys);
      var results := FinalResults(io.observed, io.desired, clock, draw, keys);
      && once.results == io.results + results
      && RunFive(once, clock, laterDraw, laterKeys) == once.(results := once.results + results)
  {
    hide RunFive, FinalResults, ObservedObject, CannotDecode, Reached, PodsToServe;
    PipelineRepeats(io, clock, draw, keys, laterDraw, laterKeys);
  }

  /** The same for two generators that make no difference to the pods. */
  lemma PipelineRepeats(io: FunctionIO, clock: Clock, draw: Draw, keys: Generator, laterDraw: Draw,
      laterKeys: Generator)
    requires Indifferent(io.observed, io.desired.entries, keys, laterKeys)
    ensures var once := RunFive(io, clock, draw, keys);
      var results := FinalResults(io.observed, io.desired, clock, draw, keys);
      && once.results == io.results + results
      && RunFive(once, clock, laterDraw, laterKeys) == once.(results := once.results + results)
  {
    hide Carry, AlertPlan, RestartPlan, LuksPlan, ScheduledComposite, DecodeJson, UrlOutcome, AlertEnd,
         RestartEnd, RunFive, Indifferent, FinalResults;
    var o, s := io.observed, io.desired;
    RunFiveIs(io, clock, draw, keys);
    var once := RunFive(io, clock, draw, keys);
    RunFiveIs(once, clock, laterDraw, laterKeys);
    EntriesTwice(o, s, clock, draw, keys, laterKeys);
    UrlTwice(o, s, once.desired, draw);
    ScheduleIsStable(s.composite, draw, laterDraw);
    ResultsTwice(o, s, clock, draw, keys, laterDraw, laterKeys);
  }

  lemma ResultsTwice(o: Observed, s: Store, clock: Clock, draw: Draw, keys: Generator, laterDraw: Draw,
      laterKeys: Generator)
    requires Indifferent(o, s.entries, keys, laterKeys)
    ensures FinalResults(o, FinalStore(o, s, clock, draw, keys), clock, laterDraw, laterKeys)
        == FinalResults(o, s, clock, draw, keys)
  {
    hide Carry, AlertPlan, RestartPlan, LuksPlan, ScheduledComposite, DecodeJson, UrlOutcome, AlertEnd,
         RestartEnd, Indifferent, AllEntries;
    EntriesTwice(o, s, clock, draw, keys, laterKeys);
    UrlTwice(o, s, FinalStore(o, s, clock, draw, keys), draw);
    ScheduleResultAgain(s.composite, draw);
    RestartIgnoresSchedule(o, s.composite, clock, draw);
  }
}
