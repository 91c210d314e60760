/** What the resource-writing transforms have in common: a list of kube objects to put, in order,
    stopping at the first failure. */
module Plan {
  import opened Base
  import opened Payload
  import opened Store
  import opened Desired
  import opened Runtime

  /** Emit asks for PutIntoObject(obj, kon, refs); if that fails the transform reports `context`, or
      the text of the error when there is none. Abort is a failure that comes before any write. */
  datatype Request =
    | Emit(obj: Object, kon: string, refs: seq<Reference>, context: Option<Message>)
    | Abort(message: Message)

  function FailureText(r: Request, e: Error): Message
    requires r.Emit?
  {
    match r.context
    case Some(text) => text
    case None => ErrorText(e)
  }

  datatype Carried = Carried(entries: seq<Resource>, failure: Option<Message>)

  function Carry(es: seq<Resource>, plan: seq<Request>): Carried
    decreases |plan|
  {
    if plan == [] then Carried(es, None)
    else if plan[0].Abort? then Carried(es, Some(plan[0].message))
    else
      match PutIntoObject(es, plan[0].obj, plan[0].kon, plan[0].refs)
      case Err(e) => Carried(es, Some(FailureText(plan[0], e)))
      case Ok(es') => Carry(es', plan[1..])
  }

  /** The outcome of a transform that carries out a plan and ends with `end` when nothing fails. */
  function Finish(s: Store, c: Carried, end: Result): Outcome {
    Outcome(s.(entries := c.entries), match c.failure case None => end case Some(text) => Result(Fatal, text))
  }

  lemma {:induction false} CarryAppend(es: seq<Resource>, a: seq<Request>, b: seq<Request>)
    ensures Carry(es, a + b)
         == if Carry(es, a).failure.Some? then Carry(es, a) else Carry(Carry(es, a).entries, b)
    decreases |a|
  {
    if a == [] {
      assert a + b == b;
    } else {
      assert (a + b)[1..] == a[1..] + b;
      if a[0].Emit? {
        match PutIntoObject(es, a[0].obj, a[0].kon, a[0].refs)
        case Err(_) =>
        case Ok(es') => CarryAppend(es', a[1..], b);
      }
    }
  }

  /** One request of a plan, carried out on the store. */
  method CarryOut(desired: DesiredResources, q: Request) returns (failure: Option<Message>)
    requires desired.Valid() && q.Emit?
    modifies desired.Repr
    ensures desired.Valid() && fresh(desired.Repr - old(desired.Repr))
    ensures desired.Contents == old(desired.Contents).(entries := Carry(old(desired.Contents.entries), [q]).entries)
    ensures failure == Carry(old(desired.Contents.entries), [q]).failure
  {
    var err := desired.PutIntoObject(q.obj, q.kon, q.refs);
    if err.None? {
      return None;
    }
    failure := Some(FailureText(q, err.value));
  }
}
