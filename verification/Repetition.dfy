/** Exactly when the pipeline repeats itself: a second run on the output of the first changes nothing,
    whatever it draws, if and only if every key secret the loop gets to was observed. */
module Repetition {
  import opened Base
  import opened Payload
  import opened Store
  import opened Runtime
  import opened Plan
  import opened Writes
  import opened Url
  import opened Alerting
  import opened Restart
  import opened Schedule
  import opened Luks
  import opened Pipeline
  import opened Postgres
  import opened Idempotence
  import opened RestartRuns
  import opened LuksRuns

  /** Run on its own output, with the same observed state and clock, the pipeline leaves the desired
      state as it is and reports the same results again. */
  ghost predicate Repeats(io: FunctionIO, clock: Clock, draw: Draw, keys: Generator, laterDraw: Draw,
      laterKeys: Generator)
  {
    var once := RunFive(io, clock, draw, keys);
    var twice := RunFive(once, clock, laterDraw, laterKeys);
    exists five: seq<Result> ::
      twice.desired == once.desired && once.results == io.results + five && twice.results == once.results + five
  }

  /** Pod i of the composite is the first for which the generator is asked. */
  ghost predicate Unserved(o: Observed, es: seq<Resource>, comp: Object, cluster: Object, i: nat) {
    && DecodeJson(o.composite, Composite) == Ok(comp) && comp.body.CompositeBody? && comp.body.params.encryption
    && DesiredObject(es, Cluster, "cluster") == Ok(cluster) && cluster.body.ClusterBody?
    && i < cluster.body.instances && Reached(o, es, comp.meta.name, i)
    && ObservedObject(o, Secret, KeyResource(comp.meta.name, i)) == Err(NotFound)
  }

  /** The run leaves its own input to the second run: the same pod is unserved there, and its entry can
      be decoded exactly when it could before. */
  lemma UnservedAgain(o: Observed, s: Store, clock: Clock, draw: Draw, keys: Generator, comp: Object,
      cluster: Object, i: nat)
    requires Unserved(o, s.entries, comp, cluster, i)
    ensures var once := FinalStore(o, s, clock, draw, keys).entries;
      && Unserved(o, once, comp, Typed(Encrypted(cluster)), i)
      && (forall n :: Lookup(once, n) == Some(Malformed) <==> Lookup(s.entries, n) == Some(Malformed))
  {
    hide Carry, AlertPlan, RestartPlan, LuksPlan, ScheduledComposite, Lookup, DesiredObject, DecodeJson,
         ObservedObject, KeyResource, Effective, WriteAll, UrlOutcome;
    var e2 := RestartEntries(o, s.composite, AlertEntries(o, s.entries), clock);
    var p, q, r := AlertPlan(o), RestartPlan(o, s.composite, clock), LuksPlan(o, e2, keys);
    var once := LuksEntries(o, e2, keys);
    ThreePlans(s.entries, p, q, r);
    var writes := Effective(s.entries, p) + Effective(s.entries, q) + Effective(s.entries, r);
    forall n ensures Lookup(once, n) == Some(Malformed) <==> Lookup(s.entries, n) == Some(Malformed) {
      MalformedAfterAll(s.entries, writes, n);
    }
    ClusterSlot(o, s, clock);
    SameDesiredObject(s.entries, e2, "cluster");
    ClusterAfter(o, e2, keys, comp, cluster);
    assert DesiredObject(once, Cluster, "cluster") == Ok(Typed(Encrypted(cluster)));
    assert Typed(Encrypted(cluster)).body.instances == cluster.body.instances;
    assert Reached(o, once, comp.meta.name, i) by {
      forall k: nat | k < i ensures Servable(o, once, comp.meta.name, k) {
        assert Servable(o, s.entries, comp.meta.name, k);
      }
    }
  }

  /** Another key than the one asked for by the first run is not what the first run left. */
  lemma AnotherKey(io: FunctionIO, clock: Clock, draw: Draw, keys: Generator, laterDraw: Draw,
      laterKeys: Generator, comp: Object, cluster: Object, i: nat)
    requires Unserved(io.observed, io.desired.entries, comp, cluster, i)
    requires !CannotDecode(io.desired.entries, KeyResource(comp.meta.name, i)) && laterKeys(i).Some?
    requires laterKeys(i) != DesiredKey(Reconcile(io, clock, draw, keys), comp.meta.name, i)
    ensures !Repeats(io, clock, draw, keys, laterDraw, laterKeys)
  {
    hide RunFive, Lookup, DesiredObject, DecodeJson, ObservedObject, KeyResource, FinalStore, FinalResults, Reached;
    RunFiveIs(io, clock, draw, keys);
    UnservedAgain(io.observed, io.desired, clock, draw, keys, comp, cluster, i);
    var again := Reconcile(RunFive(io, clock, draw, keys), clock, laterDraw, laterKeys);
    UnobservedKeyIsFresh(again, comp, Typed(Encrypted(cluster)), i);
  }

  /** How a run fails at an unserved pod whose entry cannot be written to. */
  lemma FailsAt(o: Observed, s: Store, clock: Clock, draw: Draw, keys: Generator, comp: Object, cluster: Object, i: nat)
    requires Unserved(o, s.entries, comp, cluster, i) && CannotDecode(s.entries, KeyResource(comp.meta.name, i))
    ensures |FinalResults(o, s, clock, draw, keys)| == 5
    ensures FinalResults(o, s, clock, draw, keys)[4]
         == Reported(PostgresFunctions(clock, draw, keys)[4],
              Result(Fatal, if keys(i).Some? then CannotAddLuksSecret else CannotGenerateKey))
  {
    var first, secrets := ClusterRequest(cluster), SecretPlan(o, comp, Pods(cluster), keys);
    assert LuksPlan(o, s.entries, keys) == [first] + secrets;
    assert FailureOf(s.entries, [first]).None? by {
      hide Lookup;
      assert [first][1..] == [];
    }
    hide Carry, AlertPlan, RestartPlan, LuksPlan, Lookup, DesiredObject, DecodeJson, ObservedObject, KeyResource,
         Effective, FailureOf, WriteAll, UrlOutcome, AlertOutcome, RestartOutcome, ScheduleOutcome, SecretPlan,
         CannotDecode, Reached;
    ReachedPod(o, s.entries, comp, Pods(cluster), keys, i);
    EffectiveAppend(s.entries, [first], secrets);
    var e2 := RestartEntries(o, s.composite, AlertEntries(o, s.entries), clock);
    ClusterSlot(o, s, clock);
    LuksReadsCluster(o, s.entries, e2, keys);
    ThreePlans(s.entries, AlertPlan(o), RestartPlan(o, s.composite, clock), LuksPlan(o, s.entries, keys));
  }

  /** Where the generator decides which of two failures is reported, it can decide otherwise next time. */
  lemma AnotherFailure(io: FunctionIO, clock: Clock, draw: Draw, keys: Generator, laterDraw: Draw,
      laterKeys: Generator, comp: Object, cluster: Object, i: nat)
    requires Unserved(io.observed, io.desired.entries, comp, cluster, i)
    requires CannotDecode(io.desired.entries, KeyResource(comp.meta.name, i))
    requires laterKeys(i).None? <==> keys(i).Some?
    ensures !Repeats(io, clock, draw, keys, laterDraw, laterKeys)
  {
    hide RunFive, Lookup, DesiredObject, DecodeJson, ObservedObject, KeyResource, FinalStore, FinalResults, Reached;
    var once := RunFive(io, clock, draw, keys);
    var twice := RunFive(once, clock, laterDraw, laterKeys);
    RunFiveIs(io, clock, draw, keys);
    RunFiveIs(once, clock, laterDraw, laterKeys);
    UnservedAgain(io.observed, io.desired, clock, draw, keys, comp, cluster, i);
    FailsAt(io.observed, io.desired, clock, draw, keys, comp, cluster, i);
    FailsAt(io.observed, once.desired, clock, laterDraw, laterKeys, comp, Typed(Encrypted(cluster)), i);
    var a := FinalResults(io.observed, io.desired, clock, draw, keys);
    var b := FinalResults(io.observed, once.desired, clock, laterDraw, laterKeys);
    forall five | once.results == io.results + five ensures five == a {
      assert five == once.results[|io.results|..] && a == once.results[|io.results|..];
    }
    assert twice.results[|once.results| + 4] == b[4];
  }

  lemma UnservedPod(o: Observed, es: seq<Resource>) returns (comp: Object, cluster: Object, i: nat)
    requires !KeysObserved(o, es)
    ensures Unserved(o, es, comp, cluster, i)
  {
    hide Lookup, DesiredObject, DecodeJson, ObservedObject, KeyResource, Reached;
    comp, cluster := Served(o, es);
    i :| i < Pods(cluster) && Reached(o, es, comp.meta.name, i)
      && ObservedObject(o, Secret, KeyResource(comp.meta.name, i)) == Err(NotFound);
  }

  lemma UnservedWritablePod(o: Observed, es: seq<Resource>) returns (comp: Object, cluster: Object, i: nat)
    requires !KeysObservedOrUnused(o, es)
    ensures Unserved(o, es, comp, cluster, i) && !CannotDecode(es, KeyResource(comp.meta.name, i))
  {
    hide Lookup, DesiredObject, DecodeJson, ObservedObject, KeyResource, Reached, CannotDecode;
    comp, cluster := Served(o, es);
    i :| i < Pods(cluster) && Reached(o, es, comp.meta.name, i)
      && ObservedObject(o, Secret, KeyResource(comp.meta.name, i)) == Err(NotFound)
      && !CannotDecode(es, KeyResource(comp.meta.name, i));
  }

  lemma Served(o: Observed, es: seq<Resource>) returns (comp: Object, cluster: Object)
    requires PodsToServe(o, es).1 > 0
    ensures DecodeJson(o.composite, Composite) == Ok(comp) && comp.body.CompositeBody? && comp.body.params.encryption
    ensures DesiredObject(es, Cluster, "cluster") == Ok(cluster) && cluster.body.ClusterBody?
    ensures PodsToServe(o, es) == (comp.meta.name, Pods(cluster))
  {
    hide DesiredObject, DecodeJson;
    comp := DecodeJson(o.composite, Composite).value;
    cluster := DesiredObject(es, Cluster, "cluster").value;
  }

  /** When a pod is reached without an observed secret, some later generator makes a difference: by its
      key, or, where the entry cannot be written to, by having a key or none. */
  lemma SomeGeneratorDiffers(io: FunctionIO, clock: Clock, draw: Draw, keys: Generator) returns (later: Generator)
    requires !KeysObserved(io.observed, io.desired.entries)
    ensures !Repeats(io, clock, draw, keys, draw, later)
  {
    hide KeysObserved, Unserved, Repeats, CannotDecode, DesiredKey;
    var comp, cluster, i := UnservedPod(io.observed, io.desired.entries);
    if CannotDecode(io.desired.entries, KeyResource(comp.meta.name, i)) {
      later := (p: nat) => if keys(p).Some? then None else Some("");
      AnotherFailure(io, clock, draw, keys, draw, later, comp, cluster, i);
    } else {
      var key := DesiredKey(Reconcile(io, clock, draw, keys), comp.meta.name, i);
      later := (p: nat) => if key == Some("a") then Some("b") else Some("a");
      AnotherKey(io, clock, draw, keys, draw, later, comp, cluster, i);
    }
  }

  /** Exact idempotence: the pipeline repeats itself, whatever is drawn and generated the second time,
      exactly on the inputs where each pod the loop gets to has its key secret observed. */
  lemma RepeatsExactly(io: FunctionIO, clock: Clock, draw: Draw, keys: Generator)
    ensures (forall laterDraw: Draw, laterKeys: Generator :: Repeats(io, clock, draw, keys, laterDraw, laterKeys))
       <==> KeysObserved(io.observed, io.desired.entries)
  {
    hide KeysObserved, RunFive, FinalResults;
    if KeysObserved(io.observed, io.desired.entries) {
      forall laterDraw: Draw, laterKeys: Generator
        ensures Repeats(io, clock, draw, keys, laterDraw, laterKeys)
      {
        PipelineIdempotent(io, clock, draw, keys, laterDraw, laterKeys);
      }
    } else {
      var later := SomeGeneratorDiffers(io, clock, draw, keys);
    }
  }

  /** The generator never fails. */
  ghost predicate AlwaysGives(keys: Generator) { forall i :: keys(i).Some? }

  /** Exact idempotence for generators that never fail: the pipeline repeats itself with every later draw
      and every such generator exactly on the inputs where each pod the loop gets to has its key secret
      observed or an entry that cannot be written to, where the loop stops in both runs. */
  lemma RepeatsExactlyWithKeys(io: FunctionIO, clock: Clock, draw: Draw, keys: Generator)
    requires AlwaysGives(keys)
    ensures (forall laterDraw: Draw, laterKeys: Generator :: AlwaysGives(laterKeys) ==>
              Repeats(io, clock, draw, keys, laterDraw, laterKeys))
       <==> KeysObservedOrUnused(io.observed, io.desired.entries)
  {
    hide RunFive, FinalResults, ObservedObject, CannotDecode, Reached, PodsToServe, Unserved, DesiredKey;
    if KeysObservedOrUnused(io.observed, io.desired.entries) {
      forall laterDraw: Draw, laterKeys: Generator | AlwaysGives(laterKeys)
        ensures Repeats(io, clock, draw, keys, laterDraw, laterKeys)
      {
        PipelineRepeats(io, clock, draw, keys, laterDraw, laterKeys);
      }
    } else {
      var comp, cluster, i := UnservedWritablePod(io.observed, io.desired.entries);
      var key := DesiredKey(Reconcile(io, clock, draw, keys), comp.meta.name, i);
      var later: Generator := p => if key == Some("a") then Some("b") else Some("a");
      AnotherKey(io, clock, draw, keys, draw, later, comp, cluster, i);
      assert AlwaysGives(later);
    }
  }

  // ---------- A first reconcile ----------

  /** The first reconcile of an encrypted instance with one pod, which has no key secret yet. */
  const FIRST_COMPOSITE: Object :=
    Object(CompositeKind, NO_META.(name := "pg"),
           CompositeBody(Parameters("", "", "", "", true, "", "", None), "", ""))

  const ONE_POD: Object := Object(ClusterKind, NO_META, ClusterBody(1, None, None, ""))

  const ONE_POD_ENTRY: Resource :=
    Resource("cluster", Encode(Wrapper("cluster", []).(body := KubeBody("", [], Encode(ONE_POD), Null, ""))), "")

  const FIRST_INPUT: FunctionIO :=
    FunctionIO("", Observed([], Encode(FIRST_COMPOSITE), []), Store([ONE_POD_ENTRY], Encode(FIRST_COMPOSITE), []), [])

  lemma FirstPodIsUnserved()
    ensures Unserved(FIRST_INPUT.observed, FIRST_INPUT.desired.entries, FIRST_COMPOSITE, ONE_POD, 0)
    ensures !CannotDecode(FIRST_INPUT.desired.entries, KeyResource("pg", 0))
  {
    KeyIsNotCluster("pg", 0);
    hide KeyResource;
  }

  /** There the key of the first run is lost in the second, which asks for another one. */
  lemma FirstKeyIsReplaced(clock: Clock, draw: Draw, keys: Generator, laterDraw: Draw, laterKeys: Generator)
    requires keys(0) == Some("a") && laterKeys(0) == Some("b")
    ensures !KeysObserved(FIRST_INPUT.observed, FIRST_INPUT.desired.entries)
    ensures var first := Reconcile(FIRST_INPUT, clock, draw, keys);
      var second := Reconcile(Output(first), clock, laterDraw, laterKeys);
      DesiredKey(first, "pg", 0) == Some("a") && DesiredKey(second, "pg", 0) == Some("b")
    ensures !Repeats(FIRST_INPUT, clock, draw, keys, laterDraw, laterKeys)
  {
    var io, comp, cluster := FIRST_INPUT, FIRST_COMPOSITE, ONE_POD;
    FirstPodIsUnserved();
    hide Lookup, DesiredObject, ObservedObject, KeyResource, RunFive, FinalStore, FinalResults, Reached,
         FIRST_INPUT, DesiredKey, Repeats;
    RunFiveIs(io, clock, draw, keys);
    UnservedAgain(io.observed, io.desired, clock, draw, keys, comp, cluster, 0);
    UnobservedKeyIsFresh(Reconcile(io, clock, draw, keys), comp, cluster, 0);
    UnobservedKeyIsFresh(Reconcile(RunFive(io, clock, draw, keys), clock, laterDraw, laterKeys), comp,
        Typed(Encrypted(cluster)), 0);
    AnotherKey(io, clock, draw, keys, laterDraw, laterKeys, comp, cluster, 0);
    UnservedMeans(io.observed, io.desired.entries, comp, cluster, 0);
  }

  lemma UnservedMeans(o: Observed, es: seq<Resource>, comp: Object, cluster: Object, i: nat)
    requires Unserved(o, es, comp, cluster, i)
    ensures !KeysObserved(o, es)
  {
    hide Lookup, DesiredObject, DecodeJson, ObservedObject, KeyResource, Reached;
  }
}
