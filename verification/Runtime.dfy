/** runtime/runtime.go, runtime/observed.go and runtime/result.go: the FunctionIO and the state a
    transform works on. */
module Runtime {
  import opened Base
  import opened Payload
  import opened Store
  import opened Desired

  datatype Severity = Normal | Warning | Fatal

  /** Result messages, by what they say. FromFunction is the form "Function NAME result: TEXT". */
  datatype Message =
    | Success
    | NoComposite
    | NoNamespace
    | NoConnectionSecret
    | IncompleteSecret
    | NoSecretRef
    | CannotDeploy(what: string)
    | NoCluster
    | CannotEditCluster
    | CannotGenerateKey
    | NoLuksSecret
    | CannotAddLuksSecret
    | ErrorText(error: Error)
    | FromFunction(name: string, text: Message)

  datatype Result = Result(severity: Severity, message: Message)

  const NORMAL: Result := Result(Normal, Success)

  /** The document a composition function receives and returns. */
  datatype FunctionIO = FunctionIO(config: string, observed: Observed, desired: Store, results: seq<Result>)

  /** The bytes on the wire: either they parse to a FunctionIO or they do not. */
  datatype Input = Unparsable | Document(io: FunctionIO)

  /** What a transform leaves in the store, and the result it reports. */
  datatype Outcome = Outcome(store: Store, result: Result)

  /** ObservedResources.GetFromObject. */
  method ObservedGetFromObject(o: Observed, shape: Shape, kon: string) returns (r: Fallible<Object>)
    ensures r == ObservedObject(o, shape, kon)
  {
    var ko := SearchFrom(o.resources, EMPTY_KUBE, kon);
    if ko.Err? {
      return Err(ko.error);
    }
    if ko.value.body.observed.Null? {
      return Err(NotFound);
    }
    r := DecodeJson(ko.value.body.observed, shape);
  }

  /** The struct Runtime. The fields of its io that change are `results` and the three `io...` fields;
      the desired store starts on the same connection-detail array as io. */
  class Runtime {
    const config: string
    const observed: Observed
    const desired: DesiredResources
    var results: seq<Result>
    var ioResources: array<Resource>
    var ioComposite: Raw
    var ioDetails: array<Detail>
    var ioDetailCount: nat

    ghost predicate Valid()
      reads this, desired, desired.Repr
    {
      && desired.Valid()
      && this as object !in desired.Repr
      && ioResources as object !in desired.Repr
      && ioDetailCount <= ioDetails.Length
    }

    /** io as a value; this is what is printed. */
    function Io(): FunctionIO
      requires ioDetailCount <= ioDetails.Length
      reads this, ioResources, ioDetails
    {
      FunctionIO(config, observed, Store(ioResources[..], ioComposite, ioDetails[..ioDetailCount]), results)
    }

    /** io shows what the store holds, and both use one slice of connection details. */
    ghost predicate InStep()
      reads this, ioResources, ioDetails, desired, desired.Repr
    {
      && Valid()
      && ioDetails == desired.details && ioDetailCount == desired.detailCount
      && Io().desired == desired.Contents
    }

    /** NewRuntime on a parsed document; `spare` is the room the decoder leaves behind the connection
        details. */
    constructor (io: FunctionIO, spare: nat)
      ensures InStep() && fresh(desired) && fresh(desired.Repr) && fresh(ioDetails) && fresh(ioResources)
      ensures Io() == io && observed == io.observed && ioDetails.Length == |io.desired.details| + spare
    {
      config, observed, results := io.config, io.observed, io.results;
      var entries, details := io.desired.entries, io.desired.details;
      var resources := new Resource[|entries|](i requires 0 <= i < |entries| => entries[i]);
      var shared := new Detail[|details| + spare](i => if 0 <= i < |details| then details[i] else Detail("", ""));
      assert resources[..] == entries && shared[..|details|] == details;
      var store := new DesiredResources(entries, io.desired.composite, shared, |details|);
      desired, ioResources, ioComposite := store, resources, io.desired.composite;
      ioDetails, ioDetailCount := shared, |details|;
    }
  }
}
