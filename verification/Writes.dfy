/** Plans as writes. Whether a write works never depends on the writes before it, and carrying out the
    same writes a second time changes nothing. */
module Writes {
  import opened Base
  import opened Payload
  import opened Store
  import opened Runtime
  import opened Plan

  /** PutIntoObject fails exactly on an unregistered type and on a payload that cannot be decoded. */
  predicate Works(slot: Option<Raw>, r: Request) {
    r.Emit? && Registered(r.obj.body).Some? && slot != Some(Malformed)
  }

  predicate CannotDecode(es: seq<Resource>, n: string) { Lookup(es, n) == Some(Malformed) }

  predicate SameSlot(es: seq<Resource>, fs: seq<Resource>, n: string) { Lookup(es, n) == Lookup(fs, n) }

  ghost predicate AllWork(es: seq<Resource>, rs: seq<Request>) {
    forall r :: r in rs ==> r.Emit? && Works(Lookup(es, r.kon), r)
  }

  function WriteSlot(slot: Option<Raw>, r: Request): Raw
    requires Works(slot, r)
  {
    PutIntoSlot(slot, r.obj, r.kon, r.refs).value
  }

  function Write(es: seq<Resource>, r: Request): seq<Resource>
    requires r.Emit? && Works(Lookup(es, r.kon), r)
  {
    PutRaw(es, r.kon, WriteSlot(Lookup(es, r.kon), r))
  }

  lemma WriteIsPut(es: seq<Resource>, r: Request)
    requires r.Emit?
    ensures PutIntoObject(es, r.obj, r.kon, r.refs).Ok? <==> Works(Lookup(es, r.kon), r)
    ensures Works(Lookup(es, r.kon), r) ==> PutIntoObject(es, r.obj, r.kon, r.refs) == Ok(Write(es, r))
  {
  }

  /** A write leaves every slot as decodable or undecodable as it was. */
  lemma WriteKeepsMalformed(es: seq<Resource>, r: Request, n: string)
    requires r.Emit? && Works(Lookup(es, r.kon), r)
    ensures Lookup(Write(es, r), n) == if n == r.kon then Some(WriteSlot(Lookup(es, n), r)) else Lookup(es, n)
    ensures Lookup(Write(es, r), n) == Some(Malformed) <==> Lookup(es, n) == Some(Malformed)
  {
    LookupPut(es, r.kon, WriteSlot(Lookup(es, r.kon), r), n);
  }

  lemma AllWorkAfterWrite(es: seq<Resource>, r: Request, rs: seq<Request>)
    requires r.Emit? && Works(Lookup(es, r.kon), r) && AllWork(es, rs)
    ensures AllWork(Write(es, r), rs)
  {
    hide Write;
    forall q | q in rs ensures Works(Lookup(Write(es, r), q.kon), q) {
      WriteKeepsMalformed(es, r, q.kon);
    }
  }

  function WriteAll(es: seq<Resource>, rs: seq<Request>): seq<Resource>
    requires AllWork(es, rs)
    decreases |rs|
  {
    if rs == [] then es
    else
      assert rs[0] in rs && forall r :: r in rs[1..] ==> r in rs;
      AllWorkAfterWrite(es, rs[0], rs[1..]);
      WriteAll(Write(es, rs[0]), rs[1..])
  }

  /** The requests of a plan that are carried out: those before the first that does not work. */
  function Effective(es: seq<Resource>, plan: seq<Request>): (rs: seq<Request>)
    ensures AllWork(es, rs) && rs <= plan
    decreases |plan|
  {
    if plan == [] || plan[0].Abort? || !Works(Lookup(es, plan[0].kon), plan[0]) then []
    else [plan[0]] + Effective(es, plan[1..])
  }

  /** The failure a plan ends with, seen from the entries it starts on. */
  function FailureOf(es: seq<Resource>, plan: seq<Request>): Option<Message>
    decreases |plan|
  {
    if plan == [] then None
    else if plan[0].Abort? then Some(plan[0].message)
    else
      var slot := Lookup(es, plan[0].kon);
      if !Works(slot, plan[0])
      then Some(FailureText(plan[0], if slot == Some(Malformed) then Undecodable else Unregistered))
      else FailureOf(es, plan[1..])
  }

  lemma {:induction false} EffectiveAfterWrite(es: seq<Resource>, r: Request, plan: seq<Request>)
    requires r.Emit? && Works(Lookup(es, r.kon), r)
    ensures Effective(Write(es, r), plan) == Effective(es, plan)
    ensures FailureOf(Write(es, r), plan) == FailureOf(es, plan)
    decreases |plan|
  {
    hide Write, WriteSlot;
    if plan != [] {
      if plan[0].Emit? {
        WriteKeepsMalformed(es, r, plan[0].kon);
      }
      EffectiveAfterWrite(es, r, plan[1..]);
    }
  }

  /** Carrying out a plan is writing its effective part. */
  lemma {:induction false} CarryIsWriteAll(es: seq<Resource>, plan: seq<Request>)
    ensures Carry(es, plan) == Carried(WriteAll(es, Effective(es, plan)), FailureOf(es, plan))
    decreases |plan|
  {
    hide Write, PutIntoSlot;
    if plan != [] && plan[0].Emit? {
      WriteIsPut(es, plan[0]);
      if Works(Lookup(es, plan[0].kon), plan[0]) {
        EffectiveAfterWrite(es, plan[0], plan[1..]);
        CarryIsWriteAll(Write(es, plan[0]), plan[1..]);
        assert Effective(es, plan)[1..] == Effective(es, plan[1..]);
      } else {
        assert PutIntoObject(es, plan[0].obj, plan[0].kon, plan[0].refs).error
            == if Lookup(es, plan[0].kon) == Some(Malformed) then Undecodable else Unregistered by {
          WriteError(Lookup(es, plan[0].kon), plan[0]);
        }
      }
    }
  }

  lemma WriteError(slot: Option<Raw>, r: Request)
    requires r.Emit? && !Works(slot, r)
    ensures PutIntoSlot(slot, r.obj, r.kon, r.refs)
         == Err(if slot == Some(Malformed) then Undecodable else Unregistered)
  {
  }

  lemma {:induction false} WriteAllAppend(es: seq<Resource>, a: seq<Request>, b: seq<Request>)
    requires AllWork(es, a) && AllWork(es, b)
    ensures AllWork(es, a + b) && AllWork(WriteAll(es, a), b)
    ensures WriteAll(es, a + b) == WriteAll(WriteAll(es, a), b)
    decreases |a|
  {
    hide Write, Works;
    if a == [] {
      assert a + b == b;
    } else {
      assert a[0] in a && (forall r :: r in a[1..] ==> r in a);
      assert (a + b)[1..] == a[1..] + b;
      AllWorkAfterWrite(es, a[0], b);
      AllWorkAfterWrite(es, a[0], a[1..]);
      WriteAllAppend(Write(es, a[0]), a[1..], b);
    }
  }

  /** Writing keeps which plans and requests work. */
  lemma {:induction false} EffectiveAfterWriteAll(es: seq<Resource>, rs: seq<Request>, plan: seq<Request>)
    requires AllWork(es, rs)
    ensures Effective(WriteAll(es, rs), plan) == Effective(es, plan)
    ensures FailureOf(WriteAll(es, rs), plan) == FailureOf(es, plan)
    decreases |rs|
  {
    hide Write, Works, Effective, FailureOf;
    if rs != [] {
      assert rs[0] in rs && forall r :: r in rs[1..] ==> r in rs;
      AllWorkAfterWrite(es, rs[0], rs[1..]);
      EffectiveAfterWriteAll(Write(es, rs[0]), rs[1..], plan);
      EffectiveAfterWrite(es, rs[0], plan);
    }
  }

  /** A plan after another: the second is begun when the first does not fail. */
  lemma {:induction false} EffectiveAppend(es: seq<Resource>, a: seq<Request>, b: seq<Request>)
    ensures Effective(es, a + b) == if FailureOf(es, a).Some? then Effective(es, a) else a + Effective(es, b)
    ensures FailureOf(es, a + b) == if FailureOf(es, a).Some? then FailureOf(es, a) else FailureOf(es, b)
    decreases |a|
  {
    hide Works, Lookup;
    if a == [] {
      assert a + b == b;
    } else {
      assert (a + b)[1..] == a[1..] + b;
      EffectiveAppend(es, a[1..], b);
    }
  }

  lemma {:induction false} MalformedAfterAll(es: seq<Resource>, rs: seq<Request>, n: string)
    requires AllWork(es, rs)
    ensures Lookup(WriteAll(es, rs), n) == Some(Malformed) <==> Lookup(es, n) == Some(Malformed)
    decreases |rs|
  {
    hide Write, Works, Lookup;
    if rs != [] {
      assert rs[0] in rs && forall r :: r in rs[1..] ==> r in rs;
      WriteKeepsMalformed(es, rs[0], n);
      AllWorkAfterWrite(es, rs[0], rs[1..]);
      MalformedAfterAll(Write(es, rs[0]), rs[1..], n);
    }
  }

  // ---------- One slot ----------

  /** What the writes under the name n make of its slot. */
  function SlotAfter(slot: Option<Raw>, rs: seq<Request>, n: string): Option<Raw>
    decreases |rs|
  {
    if rs == [] then slot
    else if rs[0].Emit? && rs[0].kon == n && Works(slot, rs[0]) then SlotAfter(Some(WriteSlot(slot, rs[0])), rs[1..], n)
    else SlotAfter(slot, rs[1..], n)
  }

  /** A lookup after the writes depends on nothing but the slot before and the writes to it. */
  lemma {:induction false} LookupWriteAll(es: seq<Resource>, rs: seq<Request>, n: string)
    requires AllWork(es, rs)
    ensures Lookup(WriteAll(es, rs), n) == SlotAfter(Lookup(es, n), rs, n)
    decreases |rs|
  {
    hide Write, WriteSlot;
    if rs != [] {
      assert rs[0] in rs && forall r :: r in rs[1..] ==> r in rs;
      AllWorkAfterWrite(es, rs[0], rs[1..]);
      WriteKeepsMalformed(es, rs[0], n);
      LookupWriteAll(Write(es, rs[0]), rs[1..], n);
    }
  }

  /** The payload already holds everything the wrapper of r would add. */
  ghost predicate Settled(raw: Raw, r: Request) {
    && r.Emit? && Registered(r.obj.body).Some?
    && raw.Doc? && raw.unknown == "" && raw.obj.gvk == KubeKind && raw.obj.body.KubeBody?
    && DecodeYaml(raw, Wrapper(r.kon, r.refs)) == Ok(raw.obj)
  }

  function WithManifest(raw: Raw, o: Object): Raw
    requires raw.Doc? && raw.obj.body.KubeBody?
  {
    Doc(raw.obj.(body := raw.obj.body.(manifest := Encode(Typed(o)))), "")
  }

  lemma OverlayTwice(doc: Object, pre: Object)
    requires doc.body.KubeBody? && pre.body.KubeBody? && pre.meta.labels == map[]
    ensures Overlay(Overlay(doc, pre), pre) == Overlay(doc, pre)
  {
    OverlayAbsorbs(doc.body.references, pre.body.references);
    hide OverlayReferences;
    var once := Overlay(doc, pre);
    assert OverlayKube(once.body, pre.body) == once.body;
    assert pre.meta.labels + once.meta.labels == once.meta.labels;
  }

  lemma OverlayAfter(doc: Object, pre: Object, later: Object)
    requires doc.body.KubeBody? && pre.body.KubeBody? && later.body.KubeBody?
    requires pre.meta.labels == map[] && later.meta.labels == map[]
    requires pre.meta == later.meta && pre.gvk == later.gvk && pre.body.providerConfig == later.body.providerConfig
    requires pre.body.manifest.Null? && pre.body.observed.Null? && pre.body.rest == ""
    requires later.body.manifest.Null? && later.body.observed.Null? && later.body.rest == ""
    requires Overlay(doc, pre) == doc
    ensures Overlay(Overlay(doc, later), pre) == Overlay(doc, later)
  {
    assert doc.body == OverlayKube(doc.body, pre.body);
    AbsorbsKept(doc.body.references, pre.body.references, later.body.references);
    hide OverlayReferences;
    var once := Overlay(doc, later);
    assert OverlayKube(once.body, pre.body) == once.body;
  }

  lemma OverlayWithManifest(doc: Object, pre: Object, m: Raw)
    requires doc.body.KubeBody? && pre.body.KubeBody? && Overlay(doc, pre) == doc && m.Doc?
    ensures var doc' := doc.(body := doc.body.(manifest := m)); Overlay(doc', pre) == doc'
  {
    hide OverlayReferences;
    assert doc.body == OverlayKube(doc.body, pre.body);
  }

  lemma SettledAfterWrite(slot: Option<Raw>, r: Request)
    requires r.Emit? && Works(slot, r)
    ensures Settled(WriteSlot(slot, r), r)
    ensures WriteSlot(slot, r).obj.body.manifest == Encode(Typed(r.obj))
  {
    var pre := Wrapper(r.kon, r.refs);
    var was := match slot case None => pre case Some(Null) => pre case Some(Doc(o, _)) => Overlay(Fields(o, Kube), pre);
    var base := match slot case Some(Doc(o, _)) => Fields(o, Kube) case _ => Object(NoKind, NO_META, ZeroBody(Kube));
    assert was == Overlay(base, pre) by { hide OverlayReference; }
    OverlayTwice(base, pre);
    OverlayWithManifest(was, pre, Encode(Typed(r.obj)));
    hide Overlay, OverlayReferences;
    var ko := was.(body := was.body.(manifest := Encode(Typed(r.obj))));
    assert WriteSlot(slot, r) == Encode(Typed(ko));
    assert DecodeYaml(Encode(ko), pre) == Ok(ko);
    assert ko.gvk == KubeKind ==> Typed(ko) == ko;
  }

  /** What is settled stays settled under any later write to the slot. */
  lemma SettledKept(raw: Raw, r: Request, later: Request)
    requires Settled(raw, r) && later.Emit? && later.kon == r.kon && Works(Some(raw), later)
    ensures Settled(WriteSlot(Some(raw), later), r)
  {
    var pre, pre' := Wrapper(r.kon, r.refs), Wrapper(r.kon, later.refs);
    var was := Overlay(raw.obj, pre');
    OverlayAfter(raw.obj, pre, pre');
    OverlayWithManifest(was, pre, Encode(Typed(later.obj)));
    hide Overlay;
    assert WriteSlot(Some(raw), later) == Encode(Typed(was.(body := was.body.(manifest := Encode(Typed(later.obj))))));
  }

  lemma SettledWrite(raw: Raw, r: Request)
    requires Settled(raw, r)
    ensures Works(Some(raw), r) && WriteSlot(Some(raw), r) == WithManifest(raw, r.obj)
  {
    hide Overlay;
  }

  /** After the writes every one of them is settled, and so is whatever was settled before. */
  lemma {:induction false} SettledAfterAll(slot: Option<Raw>, rs: seq<Request>, n: string, r: Request)
    requires forall q :: q in rs && q.Emit? && q.kon == n ==> Works(slot, q)
    requires r.Emit? && r.kon == n
    requires r in rs || (slot.Some? && Settled(slot.value, r))
    ensures SlotAfter(slot, rs, n).Some? && Settled(SlotAfter(slot, rs, n).value, r)
    decreases |rs|
  {
    hide WriteSlot, Settled;
    if rs != [] {
      var rest := rs[1..];
      assert forall q :: q in rs <==> q == rs[0] || q in rest;
      if rs[0].Emit? && rs[0].kon == n {
        var next := WriteSlot(slot, rs[0]);
        SettledAfterWrite(slot, rs[0]);
        SettledIsDoc(next, rs[0]);
        if slot.Some? && Settled(slot.value, r) {
          SettledKept(slot.value, r, rs[0]);
        }
        SettledAfterAll(Some(next), rest, n, r);
      } else {
        SettledAfterAll(slot, rest, n, r);
      }
    }
  }

  lemma SettledIsDoc(raw: Raw, r: Request)
    requires Settled(raw, r)
    ensures raw.Doc? && raw.obj.body.KubeBody? && raw.unknown == "" && Works(Some(raw), r)
  {
  }

  /** The object of the last request under the name. */
  function LastObject(rs: seq<Request>, n: string): Option<Object>
    decreases |rs|
  {
    if rs == [] then None
    else if LastObject(rs[1..], n).Some? then LastObject(rs[1..], n)
    else if rs[0].Emit? && rs[0].kon == n then Some(rs[0].obj)
    else None
  }

  lemma {:induction false} LastManifest(slot: Option<Raw>, rs: seq<Request>, n: string)
    requires forall q :: q in rs && q.Emit? && q.kon == n ==> Works(slot, q)
    ensures match LastObject(rs, n)
      case None => SlotAfter(slot, rs, n) == slot
      case Some(o) =>
        && SlotAfter(slot, rs, n).Some? && SlotAfter(slot, rs, n).value.Doc?
        && SlotAfter(slot, rs, n).value.obj.body.KubeBody?
        && SlotAfter(slot, rs, n).value.obj.body.manifest == Encode(Typed(o))
    decreases |rs|
  {
    hide WriteSlot, Settled, Typed;
    if rs != [] {
      assert forall q :: q in rs <==> q == rs[0] || q in rs[1..];
      if rs[0].Emit? && rs[0].kon == n {
        SettledAfterWrite(slot, rs[0]);
        SettledIsDoc(WriteSlot(slot, rs[0]), rs[0]);
        LastManifest(Some(WriteSlot(slot, rs[0])), rs[1..], n);
      } else {
        LastManifest(slot, rs[1..], n);
      }
    }
  }

  /** Writing to a settled slot only moves its manifest to that of the last write. */
  lemma {:induction false} SettledSlotAfter(raw: Raw, rs: seq<Request>, n: string)
    requires forall q :: q in rs && q.Emit? && q.kon == n ==> Settled(raw, q)
    ensures match LastObject(rs, n)
      case None => SlotAfter(Some(raw), rs, n) == Some(raw)
      case Some(o) => raw.Doc? && raw.obj.body.KubeBody? && SlotAfter(Some(raw), rs, n) == Some(WithManifest(raw, o))
    decreases |rs|
  {
    hide WriteSlot, Settled, Typed;
    if rs != [] {
      assert forall q :: q in rs <==> q == rs[0] || q in rs[1..];
      if rs[0].Emit? && rs[0].kon == n {
        SettledIsDoc(raw, rs[0]);
        SettledWrite(raw, rs[0]);
        var next := WithManifest(raw, rs[0].obj);
        forall q | q in rs[1..] && q.Emit? && q.kon == n ensures Settled(next, q) {
          SettledKept(raw, q, rs[0]);
        }
        SettledSlotAfter(next, rs[1..], n);
      } else {
        SettledSlotAfter(raw, rs[1..], n);
      }
    }
  }

  lemma SlotAfterTwice(slot: Option<Raw>, rs: seq<Request>, n: string)
    requires forall q :: q in rs && q.Emit? && q.kon == n ==> Works(slot, q)
    ensures SlotAfter(SlotAfter(slot, rs, n), rs, n) == SlotAfter(slot, rs, n)
  {
    hide Settled, SlotAfter, Typed, LastObject;
    var once := SlotAfter(slot, rs, n);
    LastManifest(slot, rs, n);
    if LastObject(rs, n).Some? {
      forall q | q in rs && q.Emit? && q.kon == n ensures Settled(once.value, q) {
        SettledAfterAll(slot, rs, n, q);
      }
      SettledSlotAfter(once.value, rs, n);
      LastObjectIsRequested(rs, n);
      var q :| q in rs && q.Emit? && q.kon == n;
      SettledIsDoc(once.value, q);
    }
  }

  lemma {:induction false} LastObjectIsRequested(rs: seq<Request>, n: string)
    requires LastObject(rs, n).Some?
    ensures exists q :: q in rs && q.Emit? && q.kon == n && LastObject(rs, n) == Some(q.obj)
    decreases |rs|
  {
    assert forall q :: q in rs <==> q == rs[0] || q in rs[1..];
    if LastObject(rs[1..], n).Some? {
      LastObjectIsRequested(rs[1..], n);
    }
  }

  /** Writes to a slot, one list after the other. */
  lemma {:induction false} SlotAfterAppend(slot: Option<Raw>, a: seq<Request>, b: seq<Request>, n: string)
    ensures SlotAfter(slot, a + b, n) == SlotAfter(SlotAfter(slot, a, n), b, n)
    decreases |a|
  {
    hide WriteSlot, Works;
    if a == [] {
      assert a + b == b;
    } else {
      assert (a + b)[1..] == a[1..] + b;
      if a[0].Emit? && a[0].kon == n && Works(slot, a[0]) {
        SlotAfterAppend(Some(WriteSlot(slot, a[0])), a[1..], b, n);
      } else {
        SlotAfterAppend(slot, a[1..], b, n);
      }
    }
  }

  // ---------- The whole list ----------

  /** Writes keep every entry at its place, and leave alone those that a first match does not reach. */
  lemma {:induction false} WriteAllKeepsPlaces(es: seq<Resource>, rs: seq<Request>)
    requires AllWork(es, rs)
    ensures var es' := WriteAll(es, rs);
      && |es| <= |es'|
      && (forall k :: 0 <= k < |es| ==> es'[k].name == es[k].name && es'[k].rest == es[k].rest)
      && (forall k :: 0 <= k < |es| && k != Find(es, es[k].name) ==> es'[k] == es[k])
      && ((forall r :: r in rs ==> Lookup(es, r.kon).Some?) ==> |es'| == |es|)
    decreases |rs|
  {
    hide WriteSlot, Works, Find, Lookup;
    if rs != [] {
      assert rs[0] in rs && forall r :: r in rs[1..] ==> r in rs;
      var next := Write(es, rs[0]);
      AllWorkAfterWrite(es, rs[0], rs[1..]);
      PutKeepsPlaces(es, rs[0].kon, WriteSlot(Lookup(es, rs[0].kon), rs[0]));
      WriteAllKeepsPlaces(next, rs[1..]);
      forall k | 0 <= k < |es| ensures (k == Find(es, es[k].name)) == (k == Find(next, next[k].name)) {
        FirstMatchKept(es, next, k);
      }
      forall r | r in rs[1..] ensures Lookup(es, r.kon).Some? ==> Lookup(next, r.kon).Some? {
        WriteKeepsMalformed(es, rs[0], r.kon);
      }
      assert forall k :: 0 <= k < |es| && k != Find(es, es[k].name) ==> k != Find(es, rs[0].kon) by {
        FindName(es, rs[0].kon);
      }
    }
  }

  lemma FindName(es: seq<Resource>, n: string)
    ensures Find(es, n) < |es| ==> es[Find(es, n)].name == n
  {
  }

  lemma FirstMatchKept(es: seq<Resource>, es': seq<Resource>, k: nat)
    requires k < |es| <= |es'| && forall i :: 0 <= i < |es| ==> es'[i].name == es[i].name
    ensures Find(es, es[k].name) == Find(es', es'[k].name)
  {
    FindUnique(es', es'[k].name, Find(es, es[k].name));
  }

  /** Doing the same writes again changes nothing at all. */
  lemma WriteAllTwice(es: seq<Resource>, rs: seq<Request>)
    requires AllWork(es, rs)
    ensures AllWork(WriteAll(es, rs), rs)
    ensures WriteAll(WriteAll(es, rs), rs) == WriteAll(es, rs)
  {
    hide SlotAfter, WriteAll, Find, Works;
    assert rs + [] == rs;
    WriteAllAppend(es, rs, rs);
    var once, twice := WriteAll(es, rs), WriteAll(WriteAll(es, rs), rs);
    forall n ensures Lookup(twice, n) == Lookup(once, n)
             ensures (exists r :: r in rs && r.kon == n) ==> Lookup(once, n).Some? {
      LookupWriteAll(es, rs, n);
      LookupWriteAll(once, rs, n);
      SlotAfterTwice(Lookup(es, n), rs, n);
      forall r | r in rs && r.kon == n ensures Lookup(once, n).Some? {
        SettledAfterAll(Lookup(es, n), rs, n, r);
      }
    }
    WriteAllKeepsPlaces(once, rs);
    forall k | 0 <= k < |once| ensures twice[k] == once[k] {
      if k == Find(once, once[k].name) {
        FirstMatchKept(once, twice, k);
        assert Lookup(twice, once[k].name) == Lookup(once, once[k].name);
      }
    }
  }

  // ---------- What a carried plan shows ----------

  lemma {:induction false} NoFailureAllEffective(es: seq<Resource>, plan: seq<Request>)
    ensures FailureOf(es, plan).None? <==> Effective(es, plan) == plan
    decreases |plan|
  {
    hide Works, Lookup;
    if plan != [] {
      NoFailureAllEffective(es, plan[1..]);
    }
  }

  /** A manifest read back through the slot it was written to. */
  lemma DesiredObjectOf(es: seq<Resource>, n: string, o: Object)
    requires Lookup(es, n).Some? && Lookup(es, n).value.Doc? && Lookup(es, n).value.obj.body.KubeBody?
    requires Lookup(es, n).value.obj.body.manifest == Encode(Typed(o))
    ensures DesiredObject(es, ShapeOf(o.body), n) == Ok(Typed(o))
  {
    hide Lookup, OverlayReferences;
  }

  /** Under each name a carried plan leaves the last object written there, or what was there before. */
  lemma CarryShows(es: seq<Resource>, plan: seq<Request>, n: string)
    ensures var out := Carry(es, plan).entries;
      match LastObject(Effective(es, plan), n)
      case None => Lookup(out, n) == Lookup(es, n)
      case Some(o) => Lookup(out, n).Some? && DesiredObject(out, ShapeOf(o.body), n) == Ok(Typed(o))
  {
    hide Carry, WriteAll, Effective, Lookup, Works, DesiredObject, LastObject, SlotAfter, Typed;
    var rs := Effective(es, plan);
    CarryIsWriteAll(es, plan);
    LookupWriteAll(es, rs, n);
    assert forall q :: q in rs && q.Emit? && q.kon == n ==> Works(Lookup(es, n), q);
    LastManifest(Lookup(es, n), rs, n);
    if LastObject(rs, n).Some? {
      DesiredObjectOf(WriteAll(es, rs), n, LastObject(rs, n).value);
    }
  }

  lemma {:induction false} LastObjectAppend(a: seq<Request>, b: seq<Request>, n: string)
    ensures LastObject(a + b, n) == if LastObject(b, n).Some? then LastObject(b, n) else LastObject(a, n)
    decreases |a|
  {
    if a == [] {
      assert a + b == b;
    } else {
      assert (a + b)[1..] == a[1..] + b;
      LastObjectAppend(a[1..], b, n);
    }
  }

  // ---------- What a plan leaves alone ----------

  ghost predicate Avoids(plan: seq<Request>, n: string) {
    forall r :: r in plan && r.Emit? ==> r.kon != n
  }

  /** Slots that no write names stay as they are. */
  lemma {:induction false} SlotAvoided(slot: Option<Raw>, rs: seq<Request>, n: string)
    requires Avoids(rs, n)
    ensures SlotAfter(slot, rs, n) == slot
    decreases |rs|
  {
    hide WriteSlot, Works;
    if rs != [] {
      assert rs[0] in rs && forall r :: r in rs[1..] ==> r in rs;
      SlotAvoided(slot, rs[1..], n);
    }
  }

  lemma CarryAvoids(es: seq<Resource>, plan: seq<Request>, n: string)
    requires Avoids(plan, n)
    ensures Lookup(Carry(es, plan).entries, n) == Lookup(es, n)
  {
    hide Carry, WriteAll, Effective, Lookup;
    CarryIsWriteAll(es, plan);
    var rs := Effective(es, plan);
    assert forall r :: r in rs ==> r in plan by { PrefixMembers(rs, plan); }
    LookupWriteAll(es, rs, n);
    SlotAvoided(Lookup(es, n), rs, n);
  }

  lemma PrefixMembers(a: seq<Request>, b: seq<Request>)
    requires a <= b
    ensures forall r :: r in a ==> r in b
  {
  }

  /** Plans of registered objects under decodable slots are carried out to the end. */
  lemma {:induction false} AllRegisteredWorks(es: seq<Resource>, plan: seq<Request>)
    requires forall r :: r in plan ==> r.Emit? && Registered(r.obj.body).Some? && Lookup(es, r.kon) != Some(Malformed)
    ensures Effective(es, plan) == plan
    decreases |plan|
  {
    hide Lookup;
    if plan != [] {
      assert plan[0] in plan && forall r :: r in plan[1..] ==> r in plan;
      AllRegisteredWorks(es, plan[1..]);
      assert [plan[0]] + plan[1..] == plan;
    }
  }
}
