/** runtime/run.go, and the table of PostgreSQL transforms in main.go. */
module Pipeline {
  import opened Base
  import opened Store
  import opened Desired
  import opened Runtime
  import opened Url
  import opened Alerting
  import opened Restart
  import opened Schedule
  import opened Luks

  /** A transform function: one of the five of this program with the clock, draw or keys it meets, or
      any other deterministic one. Whatever such a function does through the store's interface is a
      sequence of calls that its inputs determine, followed by a result. */
  datatype TransformFunc =
    | UrlFunc
    | AlertFunc
    | RestartFunc(clock: Clock)
    | ScheduleFunc(draw: Draw)
    | PvcFunc(keys: Generator)
    | Custom(program: (Observed, Store) -> (seq<Op>, Result))

  datatype Transform = Transform(name: string, func: TransformFunc)

  function PostgresFunctions(clock: Clock, draw: Draw, keys: Generator): seq<Transform> {
    [ Transform("url-connection-detail", UrlFunc),
      Transform("user-alerting", AlertFunc),
      Transform("restart", RestartFunc(clock)),
      Transform("random-default-schedule", ScheduleFunc(draw)),
      Transform("encrypted-pvc-secret", PvcFunc(keys)) ]
  }

  function Apply(f: TransformFunc, o: Observed, s: Store): Outcome {
    match f
    case UrlFunc => UrlOutcome(o, s)
    case AlertFunc => AlertOutcome(o, s)
    case RestartFunc(clock) => RestartOutcome(o, s, clock)
    case ScheduleFunc(draw) => ScheduleOutcome(s, draw)
    case PvcFunc(keys) => LuksOutcome(o, s, keys)
    case Custom(program) => Outcome(Steps(s, program(o, s).0), program(o, s).1)
  }

  /** A runtime as a value: its FunctionIO and its working store. */
  datatype State = State(io: FunctionIO, store: Store)

  function Load(io: FunctionIO): State { State(io, io.desired) }

  function Reported(t: Transform, r: Result): Result { Result(r.severity, FromFunction(t.name, r.message)) }

  function ExecState(st: State, t: Transform): State {
    var out := Apply(t.func, st.io.observed, st.store);
    State(st.io.(desired := out.store, results := st.io.results + [Reported(t, out.result)]), out.store)
  }

  function RunAll(st: State, ts: seq<Transform>): State
    decreases |ts|
  {
    if ts == [] then st else RunAll(ExecState(st, ts[0]), ts[1..])
  }

  function RunOutput(input: Input, ts: seq<Transform>): Fallible<Input> {
    match input
    case Unparsable => Err(Undecodable)
    case Document(io) => Ok(Document(RunAll(Load(io), ts).io))
  }

  // ---------- The imperative pipeline ----------

  /** Calls a transform. It may write through arrays that io shares, but resources that were copied out
      stay as they are. */
  method Call(iof: Runtime, f: TransformFunc) returns (r: Result)
    requires iof.Valid()
    modifies iof.desired.Repr
    ensures iof.Valid() && fresh(iof.desired.Repr - old(iof.desired.Repr))
    ensures Outcome(iof.desired.Contents, r) == Apply(f, iof.observed, old(iof.desired.Contents))
    ensures iof.ioResources[..] == old(iof.ioResources[..])
  {
    match f
    case UrlFunc => r := AddUrlToConnectionDetails(iof);
    case AlertFunc => r := AddUserAlerting(iof);
    case RestartFunc(clock) => r := TransformRestart(iof, clock);
    case ScheduleFunc(draw) => r := TransformSchedule(iof, draw);
    case PvcFunc(keys) => r := AddPvcSecret(iof, keys);
    case Custom(program) => r := RunProgram(iof, program);
  }

  method RunProgram(iof: Runtime, program: (Observed, Store) -> (seq<Op>, Result)) returns (r: Result)
    requires iof.Valid()
    modifies iof.desired.Repr
    ensures iof.Valid() && fresh(iof.desired.Repr - old(iof.desired.Repr))
    ensures Outcome(iof.desired.Contents, r) == Apply(Custom(program), iof.observed, old(iof.desired.Contents))
    ensures var (calls, result) := program(iof.observed, old(iof.desired.Contents));
      iof.desired.Contents == Steps(old(iof.desired.Contents), calls) && r == result
  {
    var calls := program(iof.observed, iof.desired.Snapshot());
    iof.desired.DoAll(calls.0);
    r := calls.1;
  }

  method CopyOut(desired: DesiredResources) returns (copied: array<Resource>)
    requires desired.Valid()
    ensures fresh(copied) && copied[..] == desired.Contents.entries
  {
    copied := new Resource[desired.count];
    for i := 0 to desired.count
      invariant forall k :: 0 <= k < i ==> copied[k] == desired.Contents.entries[k]
    {
      copied[i] := desired.resources[i].Value();
    }
  }

  /** Exec: call, append the result, copy the store out. Afterwards io shows exactly the store. */
  method Exec(iof: Runtime, t: Transform)
    requires iof.Valid()
    modifies iof, iof.desired.Repr
    ensures iof.InStep() && fresh(iof.desired.Repr - old(iof.desired.Repr))
    ensures var out := Apply(t.func, iof.observed, old(iof.desired.Contents));
      && iof.desired.Contents == out.store
      && iof.Io() == FunctionIO(iof.config, iof.observed, out.store,
           old(iof.results) + [Result(out.result.severity, FromFunction(t.name, out.result.message))])
  {
    var res := Call(iof, t.func);
    iof.results := iof.results + [Reported(t, res)];
    iof.ioComposite := iof.desired.composite;
    iof.ioDetails, iof.ioDetailCount := iof.desired.details, iof.desired.detailCount;
    iof.ioResources := CopyOut(iof.desired);
  }

  /** The output is the same whatever room the decoder leaves behind the connection details. */
  method RunCommand(input: Input, transforms: seq<Transform>, spare: nat) returns (output: Fallible<Input>)
    ensures output == RunOutput(input, transforms)
    ensures match input
      case Unparsable => output == Err(Undecodable)
      case Document(io) => output == Ok(Document(RunAll(Load(io), transforms).io))
  {
    if input.Unparsable? {
      return Err(Undecodable);
    }
    var iof := new Runtime(input.io, spare);
    ghost var start := Load(input.io);
    for i := 0 to |transforms|
      invariant iof.Valid() && fresh(iof) && fresh(iof.desired.Repr)
      invariant State(iof.Io(), iof.desired.Contents) == RunAll(start, transforms[..i])
    {
      RunSnoc(start, transforms, i);
      Exec(iof, transforms[i]);
    }
    assert transforms[..|transforms|] == transforms;
    output := Ok(Document(iof.Io()));
  }

  lemma {:induction false} RunAppend(st: State, a: seq<Transform>, b: seq<Transform>)
    ensures RunAll(st, a + b) == RunAll(RunAll(st, a), b)
    decreases |a|
  {
    hide Apply;
    if a == [] {
      assert a + b == b;
    } else {
      assert (a + b)[1..] == a[1..] + b;
      RunAppend(ExecState(st, a[0]), a[1..], b);
    }
  }

  lemma RunSnoc(st: State, ts: seq<Transform>, i: nat)
    requires i < |ts|
    ensures RunAll(st, ts[..i + 1]) == ExecState(RunAll(st, ts[..i]), ts[i])
  {
    hide Apply;
    assert ts[..i + 1] == ts[..i] + [ts[i]];
    RunAppend(st, ts[..i], [ts[i]]);
    var mid := RunAll(st, ts[..i]);
    assert RunAll(mid, [ts[i]]) == RunAll(ExecState(mid, ts[i]), []);
  }

  // ---------- Inside a transform ----------

  /** A call inside a transform, from any point where io and store are in step. Then io shows the store
      exactly when the call changed nothing or updated a connection detail that was there. */
  method CallInside(iof: Runtime, op: Op)
    requires iof.InStep()
    modifies iof.desired.Repr
    ensures iof.Valid() && fresh(iof.desired.Repr - old(iof.desired.Repr))
    ensures iof.desired.Contents == Step(old(iof.desired.Contents), op).0
    ensures iof.Io().desired == iof.desired.Contents
       <==> iof.desired.Contents == old(iof.desired.Contents) || UpdatesDetail(old(iof.desired.Contents), op)
  {
    ghost var was := iof.desired.Contents;
    match op
    case PutOp(obj) => var _ := iof.desired.Put(obj);
    case PutIntoObjectOp(obj, kon, refs) => var _ := iof.desired.PutIntoObject(obj, kon, refs);
    case RemoveOp(name) => var _ := iof.desired.Remove(name);
    case SetCompositeOp(obj) => iof.desired.SetComposite(obj);
    case PutDetailOp(cd) => iof.desired.PutCompositeConnectionDetail(cd);
    case RemoveDetailOp(cd) => var _ := iof.desired.RemoveCompositeConnectionDetail(cd);
  }

  /** Any calls inside a transform, with any room in the shared array. */
  method CallsInside(iof: Runtime, ops: seq<Op>)
    requires iof.InStep()
    modifies iof.desired.Repr
    ensures iof.Valid() && fresh(iof.desired.Repr - old(iof.desired.Repr))
    ensures iof.desired.Contents == Steps(old(iof.desired.Contents), ops)
    ensures InsideView(old(iof.desired.Contents), ops, old(iof.desired.details.Length), iof.Io().desired,
                       iof.desired.Contents)
  {
    iof.desired.DoAll(ops);
  }

  /** What io shows after calls that led the store from `was` to `left`: resources and composite as they
      were, and as many details as there were. While the calls keep to the room of the shared array, the
      shorter of the two lists of details is a prefix of the longer one, so the lists agree exactly when
      they are as long; once a call outgrows it, io goes on showing what it showed just before. */
  ghost predicate InsideView(was: Store, ops: seq<Op>, room: nat, shown: Store, left: Store)
    requires |was.details| <= room
  {
    && shown.entries == was.entries && shown.composite == was.composite && |shown.details| == |was.details|
    && match BeforeOutgrown(was, ops, room)
       case None =>
         && (shown.details <= left.details || left.details <= shown.details)
         && (shown == left <==>
               left.entries == was.entries && left.composite == was.composite && |left.details| == |was.details|)
       case Some(ds) => shown.details == ds[..|was.details|]
  }

  /** The same on values: what io shows and what the store holds after one call on a loaded document. */
  method OneCall(io: FunctionIO, spare: nat, op: Op) returns (shown: Store, left: Store)
    ensures left == Step(io.desired, op).0
    ensures shown == left <==> left == io.desired || UpdatesDetail(io.desired, op)
  {
    var iof := new Runtime(io, spare);
    CallInside(iof, op);
    shown, left := iof.Io().desired, iof.desired.Snapshot();
  }

  method ManyCalls(io: FunctionIO, spare: nat, ops: seq<Op>) returns (shown: Store, left: Store)
    ensures left == Steps(io.desired, ops)
    ensures InsideView(io.desired, ops, |io.desired.details| + spare, shown, left)
  {
    var iof := new Runtime(io, spare);
    CallsInside(iof, ops);
    shown, left := iof.Io().desired, iof.desired.Snapshot();
  }

  /** A removal: io shows the shortened list and the old last detail once more, so not the store's list. */
  method DetailsBeforeWriteBack(io: FunctionIO, spare: nat, cd: Detail) returns (seen: seq<Detail>)
    ensures match RemoveDetail(io.desired.details, cd)
      case Err(_) => seen == io.desired.details
      case Ok(left) => seen == left + [io.desired.details[|io.desired.details| - 1]] && seen != left
  {
    var iof := new Runtime(io, spare);
    var err := iof.desired.RemoveCompositeConnectionDetail(cd);
    seen := iof.ioDetails[..iof.ioDetailCount];
  }

  /** What io shows depends on the room the decoder happened to leave: after a new detail, an update of an
      old one shows exactly when the array had room for the new one. */
  method AppendThenUpdate(io: FunctionIO, spare: nat, a: Detail, b: Detail) returns (seen: seq<Detail>)
    requires FindDetail(io.desired.details, a.name) == |io.desired.details|
    requires FindDetail(io.desired.details, b.name) < |io.desired.details|
    ensures seen == if spare == 0 then io.desired.details else PutDetail(io.desired.details, b)
  {
    hide FindDetail;
    var ds := io.desired.details;
    var iof := new Runtime(io, spare);
    iof.desired.PutCompositeConnectionDetail(a);
    assert iof.ioDetails[..|ds|] == ds;
    UpdateBehind(ds, a, b);
    iof.desired.PutCompositeConnectionDetail(b);
    assert spare > 0 ==> iof.ioDetails[..|ds|] == (iof.ioDetails[..|ds| + 1])[..|ds|];
    seen := iof.ioDetails[..iof.ioDetailCount];
  }

  lemma UpdateBehind(ds: seq<Detail>, a: Detail, b: Detail)
    requires FindDetail(ds, a.name) == |ds| && FindDetail(ds, b.name) < |ds|
    ensures PutDetail(ds, a) == ds + [a]
    ensures FindDetail(ds + [a], b.name) == FindDetail(ds, b.name)
    ensures PutDetail(ds + [a], b) == PutDetail(ds, b) + [a]
  {
    hide FindDetail;
    FindDetailUnique(ds + [a], b.name, FindDetail(ds, b.name));
  }

  // ---------- Properties of every pipeline ----------

  /** After every Exec the working store is what io says, so a reload changes nothing. */
  lemma {:induction false} RunSynced(io: FunctionIO, ts: seq<Transform>)
    ensures RunAll(Load(io), ts).store == RunAll(Load(io), ts).io.desired
    ensures RunAll(Load(io), ts).io.observed == io.observed && RunAll(Load(io), ts).io.config == io.config
    decreases |ts|
  {
    hide Apply;
    if ts != [] {
      var n := |ts| - 1;
      RunSynced(io, ts[..n]);
      RunSnoc(Load(io), ts, n);
      assert ts[..n + 1] == ts;
    }
  }

  /** Running A, printing, reading back and running B is running A followed by B. */
  lemma PipelineSplits(input: Input, a: seq<Transform>, b: seq<Transform>)
    ensures RunOutput(input, a + b)
         == match RunOutput(input, a) case Err(e) => Err(e) case Ok(middle) => RunOutput(middle, b)
  {
    if input.Document? {
      RunAppend(Load(input.io), a, b);
      RunSynced(input.io, a);
    }
  }

  /** One result for each transform, in order, with the severity it reported and its message under its
      name, after the results that were there; each transform runs on what the ones before it left, fatal
      results or not. */
  lemma {:induction false} OneResultEach(io: FunctionIO, ts: seq<Transform>)
    ensures var out := RunAll(Load(io), ts).io.results;
      && |out| == |io.results| + |ts|
      && out[..|io.results|] == io.results
      && forall i :: 0 <= i < |ts| ==>
           var r := Apply(ts[i].func, io.observed, RunAll(Load(io), ts[..i]).store).result;
           out[|io.results| + i] == Result(r.severity, FromFunction(ts[i].name, r.message))
    decreases |ts|
  {
    hide Apply;
    if ts != [] {
      var n := |ts| - 1;
      OneResultEach(io, ts[..n]);
      RunSynced(io, ts[..n]);
      RunSnoc(Load(io), ts, n);
      assert ts[..n + 1] == ts;
      forall i | 0 <= i < n ensures ts[..n][..i] == ts[..i] {}
    }
  }
}
