# Verified model of the appcat composition functions

This project models the Crossplane composition-function runtime of appcat-comp-functions and the five
PostgreSQL transforms that run on it, and proves what they promise over every input and every series of
reconciles.

- **Payloads** (`Payload.dfy`): a raw payload is nil, undecodable, or a document holding an object. Decoding
  into a value that already has content is an overlay: what the document has wins, what it lacks stays, and
  list elements merge by position, as Go decodes JSON. That an encoded object decodes to itself is a
  modelling assumption, built into these trees: the JSON and YAML text is not modelled.
- **Desired store** (`Store.dfy`, `Desired.dfy`, `OrderedMap.dfy`): the Go slices are arrays with a length;
  appends reuse room in the array, removals shift it down in place, entries are separate heap cells. The
  class is proved against functions on sequences, and those against two insertion-ordered maps.
- **Runtime and pipeline** (`Runtime.dfy`, `Pipeline.dfy`, `Frames.dfy`): the FunctionIO and the store start
  on the same connection-detail array. `Exec` and `RunCommand` run any list of transforms: the five of this
  program, or any other function that decides on calls of the store's interface.
- **Transforms** (`Url.dfy`, `Alerting.dfy`, `Restart.dfy`, `Schedule.dfy`, `Luks.dfy`): each is a method on the
  heap proved equal to an outcome function. The three that write resources have a plan, a list of objects to
  put that stops at the first failure (`Plan.dfy`, `Writes.dfy`).
- **The world over time** (`Postgres.dfy`, `Idempotence.dfy`, `Repetition.dfy`, `Ordering.dfy`, `NameClash.dfy`,
  `RestartRuns.dfy`, `LuksRuns.dfy`, `Precedence.dfy`): a second reconcile, reordered transforms, and whole
  histories of reconciles with a clock, a schedule draw, fresh keys and an environment between them.
- **Text** (`Decimal.dfy`, `Calendar.dfy`, `DateTimes.dfy`): decimal printing, the Gregorian calendar, and
  date-times after section 5.6 of RFC 3339. What is read is proved to be exactly the texts of a grammar, with
  the time they mean, and what is printed is characterised in the same terms.

The clock (one reading for each observed operation the retention loop looks at), the random schedule
offset, the generated passwords and the room the decoder leaves behind the connection details are
parameters. Where the code and its
comments or documentation differ, the model follows the code: the kind check in `runtime/runtime.go:105-109`
compares an object with itself and rejects nothing, so a lookup is the first match by name; an error of the
inner lookup loses its identity in `DesiredResources.GetFromObject`, so a missing resource there is not
"not found"; the documented key `POSTGRES_URL` is `POSTGRESQL_URL` in the code.

A history is any series of reconciles of the whole pipeline, each with its own input, clock, draw and keys.
What the lifetime of the restart operation for a second assumes is about that operation's name only: the
composition itself has no entry under it, and whatever is observed under it has the op and due time of one
an earlier reconcile emitted; whether and when it is observed, and what is observed or desired under other
names, is free. Observed and desired composite, as far as they can be decoded, have the same name. For key
secrets a history assumes of the pod in question only that an observed key stays as it was, disappears, or
becomes the last one written.

Three things one might expect of the pipeline do not hold of the code on every input. For each the exact
condition is proved, with an input that fails it.

- A second run on the output of the first does not always repeat it. `Repetition.RepeatsExactly`: it does,
  whatever is drawn and generated the second time, if and only if each pod the encryption loop gets to has
  its key secret observed. A pod stops the loop when its secret cannot be read or its entry cannot be
  decoded, so pods beyond it do not count. For generators that never fail `Repetition.RepeatsExactlyWithKeys`
  has the weaker condition: a reached pod without an observed secret may also have an entry that cannot be
  decoded, where both runs stop alike. `Repetition.FirstKeyIsReplaced` is the first reconcile of an
  encrypted instance with one pod: its key is replaced by another one in the second.
- The order of the transforms is not always free. `NameClash.AnyOrderExactly`: all orders agree if and only if
  no two transforms get to write the same name. `Ordering.OneNameNoClash`: that is so when observed and
  desired composite share their name. `NameClash.OrderMatters` is an input where an operation of one composite
  bears the name of the alertmanager config of another, and two orders leave different manifests.
- Inside a transform the FunctionIO does not always show the store. `Pipeline.CallInside`: from a point where it
  does, it still does after a call if and only if the call changed nothing or updated a connection detail that
  was there. `Pipeline.CallsInside`: after any calls that keep to the room of the shared array, the shorter
  of the two lists of details is a prefix of the longer, and the FunctionIO shows the store if and only if
  resources, composite and the number of details are as they were; from the first call that outgrows the
  array on it keeps showing what it showed just before. `Pipeline.DetailsBeforeWriteBack` is the failing case
  of a removal; `Pipeline.AppendThenUpdate` is a case where the room decides.

`dafny verify dfyconfig.toml` checks everything.

## Model

| member | source | states |
|---|---|---|
| Desired.SearchFrom | runtime/runtime.go:93-115 | the search loop decodes the first resource with the name and reports "not found" exactly when there is none; a decode failure of that first match is the result |
| Desired.WrapAll | runtime/runtime.go:117-126 | one fresh, distinct cell for each entry, showing the same value |
| Desired.Entry.SetRaw | runtime/desired.go:217-219 | replaces the payload and keeps the name and every other field |
| Desired.DesiredResources.constructor | runtime/runtime.go:68-71 | the new store holds the given entries and composite, and the very array of connection details it is given |
| Desired.DesiredResources.Get | runtime/desired.go:33-35 | the first desired resource with the name, decoded |
| Desired.DesiredResources.GetFromObject | runtime/desired.go:59-65 | the manifest to be applied; "not found" only for a kube object without manifest, a plain failure for a missing one |
| Desired.DesiredResources.GetComposite | runtime/desired.go:103-109 | the decoded composite; no bytes are an error |
| Desired.DesiredResources.SetComposite | runtime/desired.go:112-119 | only the composite changes |
| Desired.DesiredResources.AppendEntry | runtime/desired.go:199 | the slice grows by one at its end, whether or not the array has room |
| Desired.DesiredResources.AppendDetail | runtime/desired.go:138 | the details grow by one, behind the slice while its array has room and in a fresh copy otherwise; a slice of the old length keeps its content |
| Desired.DesiredResources.PutNamed | runtime/desired.go:167-201 | an existing entry gets the payload in place, a new one is appended, an unregistered type changes nothing |
| Desired.DesiredResources.Put | runtime/desired.go:39-41 | the same under the object's own name |
| Desired.DesiredResources.PutIntoObject | runtime/desired.go:68-100 | the kube object under the name gets the manifest; an undecodable payload or an unregistered type is an error and changes nothing |
| Desired.DesiredResources.DropEntry | runtime/desired.go:50 | the in-place shift removes one element and keeps the order of the others |
| Desired.DesiredResources.Remove | runtime/desired.go:45-55 | removes the first match; without one reports "not found" and changes nothing |
| Desired.DesiredResources.PutCompositeConnectionDetail | runtime/desired.go:128-139 | updates the first match through the shared array; a new detail is appended and leaves the slice of whoever shares the array as it was, in a fresh array exactly when there is no room |
| Desired.DesiredResources.DropDetail | runtime/desired.go:149 | shifts inside the shared array: a slice of the old length over it then ends with the last detail twice |
| Desired.DesiredResources.RemoveCompositeConnectionDetail | runtime/desired.go:143-154 | removes the first match and says what the shared array looks like afterwards; "not found" changes nothing |
| Desired.DesiredResources.Do | runtime/desired.go:39-154 | every call of the interface does to the heap what it does to the value of the store |
| Desired.DesiredResources.DoAll | runtime/desired.go:39-154 | any calls do to the heap what they do to the value; the details stay in their array until they outgrow it, and that array is left alone afterwards |
| Store.LookupPut | runtime/desired.go:181-199 | a write is seen under its own name and under no other |
| Store.ObservedIsStatus | runtime/observed.go:55-64 | the observed side reads the manifest of the status, whatever the spec beside it holds; without one it is "not found", and one that cannot be decoded is an error |
| Store.DesiredIsSpec | runtime/desired.go:156-165 | the desired side reads the manifest of the spec, whatever the status beside it holds |
| Store.NothingToRead | runtime/runtime.go:76-115 | a missing entry is "not found" on the observed side and a plain failure on the desired one; an entry without bytes or of another kind has no manifest; an undecodable one is an error |
| Store.GetReads | runtime/runtime.go:93-115 | Get into an empty object gives the entry's own object, with the empty one's kind where it has none |
| Store.DecodeCases | runtime/desired.go:103-109 | no bytes are one error, undecodable ones another; a document of another type keeps kind and metadata only |
| Store.PutReadsBack | runtime/desired.go:167-201 | put leaves the object under the name with the kind the scheme knows its type by; an unregistered type is an error |
| Store.PutGetRoundTrip | runtime/desired.go:59-100 | after PutIntoObject(o, n), GetFromObject(n) gives o with its registered kind, other names are unchanged, and each field of the kube object but kind and manifest is that of the entry before or, where it had none, that of the wrapper named n with provider "kubernetes" and the given references |
| OrderedMap.StepRefines | runtime/desired.go:45-201 | one call on the slices is the same call on two insertion-ordered maps, with the same error |
| OrderedMap.StepsRefine | runtime/desired.go:45-201 | so is every sequence of calls, and distinct names stay distinct |
| Runtime.ObservedGetFromObject | runtime/observed.go:33-64 | the manifest the provider saw; "not found" for a missing resource and for one without that manifest |
| Runtime.Runtime.constructor | runtime/runtime.go:55-74 | a new runtime shows the document it was given and is in step: its store has the same value, and both use one slice of connection details, whatever room is behind it |
| Pipeline.Call | runtime/run.go:16 | a transform does what its outcome function says and leaves resources that were copied out as they are |
| Pipeline.CopyOut | runtime/run.go:24-27 | the copied-out resources are the store's, in a fresh array |
| Pipeline.Exec | runtime/run.go:13-30 | afterwards the FunctionIO is in step with the store, shows exactly its value, and has one more result with the severity of the transform and its message under its name |
| Pipeline.RunCommand | runtime/run.go:43-61 | the heap pipeline computes the fold over the transforms, whatever room the decoder left; an input that does not parse is an error |
| Pipeline.CallInside | runtime/desired.go:39-154 | after one call from a point in step the FunctionIO shows the store exactly when the call changed nothing or updated a detail that was there |
| Pipeline.CallsInside | runtime/desired.go:39-154 | after any calls within the room of the shared array the shorter list of details is a prefix of the longer, and the FunctionIO shows the store exactly when resources, composite and number of details are as before; once a call outgrows it the FunctionIO keeps what it showed |
| Pipeline.OneCall | runtime/desired.go:39-154 | the same for one call on a loaded document, as values |
| Pipeline.ManyCalls | runtime/desired.go:39-154 | the same for many calls on a loaded document |
| Pipeline.AppendThenUpdate | runtime/desired.go:128-139 | after an append, the update of an old detail shows exactly when the array had room |
| Pipeline.DetailsBeforeWriteBack | runtime/desired.go:143-154 | what the FunctionIO shows after a removal and before the write-back: the shortened list and the old last detail, so never the store's list |
| Pipeline.RunSynced | runtime/run.go:21-27 | after every pipeline the store is what the FunctionIO says; observed state and config are unchanged |
| Pipeline.PipelineSplits | runtime/run.go:13-61 | running A, printing, reading back and running B is running A followed by B |
| Pipeline.OneResultEach | runtime/run.go:16-19 | results are the old ones and then one for each transform in order, with its severity and its message under its name; each transform runs on what those before it left, fatal results or not |
| Frames.EntriesKeepTheirPlaces | runtime/desired.go:181-223 | along any pipeline the entries that are not removed keep order, names and every field but the payload; new ones come after them |
| Url.AddUrlToConnectionDetails | functions/vshn-postgres-func/url.go:34-67 | the method computes the URL outcome |
| Url.UrlIsTheOnlyDetail | functions/vshn-postgres-func/url.go:37-67 | what is reported in each case; on success exactly POSTGRESQL_URL is set, to the five parts of the secret joined, otherwise nothing changes |
| Url.UrlNeedsEveryPart | functions/vshn-postgres-func/url.go:69-79 | the URL is empty exactly when one of the five parts is missing or empty |
| Url.UrlReadsBack | functions/vshn-postgres-func/url.go:81 | the five parts can be read back from the URL, in order, exactly when none holds the separator that ends it |
| Alerting.Deploy | functions/vshn-postgres-func/alerting.go:38-77 | the checks and writes on the monitoring parameters carry out the alerting plan |
| Alerting.AddUserAlerting | functions/vshn-postgres-func/alerting.go:17-80 | the method computes the alerting outcome |
| Precedence.AlertingNotReady | functions/vshn-postgres-func/alerting.go:27-36 | no composite is fatal, no instance namespace a warning, with the store untouched |
| Precedence.ValidationIsAllOrNothing | functions/vshn-postgres-func/alerting.go:40-67 | a missing secret reference is fatal with the store untouched, for every combination of reference and template |
| Precedence.TemplateWinsAnywhere | functions/vshn-postgres-func/alerting.go:38-138 | with a secret reference the run succeeds exactly when the secret entry can be decoded and, where a config is asked for, the config entry too; the config entry carries the manifest of the template if there is one and of the reference otherwise, the reference to the object in the claim's namespace is merged by position with those found, the secret entry is beside it; a failing run leaves nothing, or the config alone, and says which part failed; no other name is touched |
| Precedence.TemplateWinsReferenceStays | functions/vshn-postgres-func/alerting.go:38-138 | with no entries there before, the references are exactly those to the config and the secret in the namespace of the claim |
| Restart.KeepOne | functions/vshn-postgres-func/restart.go:114-140 | one observed resource is put back exactly when it passes the filters |
| Restart.KeepRecentRestartOps | functions/vshn-postgres-func/restart.go:111-143 | the loop carries out the keep plan, each operation judged by its own reading of the clock, and stops at the first failing write |
| Restart.GetPendingRestart | functions/vshn-postgres-func/restart.go:57-89 | the time of the first condition of type PendingRestart with a true status and a date-time, every earlier one failing a test; the zero time without one |
| Restart.PendingRestartUnique | functions/vshn-postgres-func/restart.go:66-88 | that description has exactly one solution |
| RestartRuns.WhenScheduled | functions/vshn-postgres-func/restart.go:40-54 | a restart is scheduled for t exactly when restarts are not left to the user and t is the non-zero time of the first pending condition |
| Restart.TransformRestart | functions/vshn-postgres-func/restart.go:25-55 | the method computes the restart outcome |
| Calendar.DayNumberInjective | functions/vshn-postgres-func/restart.go:81-105 | two valid dates with one day number are the same, so a printed date is the date of the instant |
| Calendar.ParsePrintTime | functions/vshn-postgres-func/restart.go:105 | a printed date-time reads back to the same time without its fraction of a second, in the same zone |
| DateTimes.ParsesExactly | functions/vshn-postgres-func/restart.go:81 | a text is read as a time if and only if it is a date-time meaning it: fraction after a period or comma, to nine digits, and zone included |
| DateTimes.PrintsExactly | functions/vshn-postgres-func/restart.go:105 | what is printed is the date-time of the whole second, with two-digit hour, no fraction, and Z exactly for the offset zero |
| DateTimes.TransitionTime | functions/vshn-postgres-func/restart_test.go:58-61 | the transition time 2023-04-27T09:22:22.226244Z is second 1682587342 and is printed without its fraction |
| Decimal.ParsePrintNat | functions/vshn-postgres-func/schedule.go:35 | a printed number reads back |
| Decimal.NoLeadingZero | functions/vshn-postgres-func/schedule.go:35 | numbers are printed without leading zeros |
| Decimal.PrintIntInjective | functions/vshn-postgres-func/restart.go:92 | distinct Unix seconds, negative ones included, print differently |
| RestartRuns.ExactAtName | functions/vshn-postgres-func/restart.go:91-143 | under each name: the scheduled operation, else the retained one, else what was there |
| RestartRuns.ExactRestartSet | functions/vshn-postgres-func/restart.go:18-55 | a run that does not fail adds or updates exactly the retained observed operations and the one for the pending time; all else is untouched and keeps its place, entries that hide behind one of their name included |
| RestartRuns.RestartUpToFailure | functions/vshn-postgres-func/restart.go:35-143 | what a run reports; it fails exactly when the entry of a kept operation or of the scheduled one cannot be decoded, and leaves the operations kept before the first such one and nothing else, so no scheduled one |
| RestartRuns.RestartNotReady | functions/vshn-postgres-func/restart.go:30-34 | without a composite that can be read the run is fatal and writes nothing |
| RestartRuns.ScheduledAsTold | functions/vshn-postgres-func/restart.go:91-109 | the scheduled operation is an in-place restart of pending pods of this cluster, due at the whole second of the pending time |
| RestartRuns.OpResourceInjective | functions/vshn-postgres-func/restart.go:92-108 | distinct pending seconds have distinct resource names |
| RestartRuns.RestartSlot | main.go:31-52 | in the whole pipeline a restart name holds what the restart transform alone leaves there, as long as the composites that decode have one name |
| RestartRuns.EveryOpIsTraced | functions/vshn-postgres-func/restart.go:91-143 | in any history of that name an emitted operation was pending once, keeps its due second, and is alive when emitted |
| RestartRuns.ExactlyTheLiving | functions/vshn-postgres-func/restart.go:91-143 | a successful reconcile emits the operation for second u exactly when u is pending in it or the operation is still observed and at most 30 days past due when the loop is at it, whatever the condition and strategy are by then and whatever other operations there are |
| RestartRuns.GoneForGood | functions/vshn-postgres-func/restart.go:133-135 | past 30 days and no longer pending, an operation is never emitted again, successful run or not, while no later reading of the clock is earlier |
| RestartRuns.OneOpPerSecond | functions/vshn-postgres-func/restart.go:91-143 | if every restart name has such a history, there is at most one restart name per distinct second in the retention window, and one for the pending second |
| RestartRuns.NamesStayDistinct | runtime/desired.go:181-199 | distinct names stay distinct through the pipeline, so a name is one entry |
| Schedule.TransformSchedule | functions/vshn-postgres-func/schedule.go:22-56 | the method computes the schedule outcome |
| Schedule.ScheduleReports | functions/vshn-postgres-func/schedule.go:24-55 | fatal exactly without a composite, and nothing but the composite changes |
| Schedule.GeneratedMaintenance | functions/vshn-postgres-func/schedule.go:31-48 | for every draw the generated time reads back to the drawn one, between 21:00 and 05:00, and the day is tuesday exactly before midnight |
| Schedule.GeneratedBackup | functions/vshn-postgres-func/schedule.go:32-36 | the generated cron entry is minute, hour and three stars in plain decimals, and fires in the minute that holds the drawn time minus one hour, across midnight |
| Schedule.WholeWindow | functions/vshn-postgres-func/schedule.go:14-31 | every second from 21:00 up to 05:00 can be drawn |
| Schedule.BackupBeforeMaintenance | functions/vshn-postgres-func/schedule.go:19-40 | with both blank the backup fires 3600 to 3659 seconds before maintenance |
| Schedule.ScheduleIsStable | functions/vshn-postgres-func/schedule.go:34-50 | user settings are kept, no field stays blank, no other field of the Go type changes, fields it does not have are dropped, and later runs with any draw change nothing |
| Luks.WriteLuksSecret | functions/vshn-postgres-func/encrypted_pvc.go:69-106 | one pod's secret is written with the observed key or a fresh one, or the run fails with nothing written |
| Luks.WriteLuksSecrets | functions/vshn-postgres-func/encrypted_pvc.go:57-64 | the loop carries out the secret plan and stops at the first failure |
| Luks.AddPvcSecret | functions/vshn-postgres-func/encrypted_pvc.go:21-67 | the method computes the encryption outcome |
| LuksRuns.SecretsUpToFailure | functions/vshn-postgres-func/encrypted_pvc.go:44-105 | the cluster gets the encrypted storage class; the secrets below the first failing pod hold their keys, no higher one is touched; that pod is the number of instances exactly on success, and otherwise decides what is reported |
| LuksRuns.AllPodsServed | functions/vshn-postgres-func/encrypted_pvc.go:55-105 | the run succeeds exactly when each pod below the number of instances has a key and a decodable entry; then all their secrets hold their keys, and no pod from that number on is touched |
| LuksRuns.EncryptionNotReady | functions/vshn-postgres-func/encrypted_pvc.go:23-47 | no composite or no cluster is fatal, no encryption is a normal end, with nothing written |
| LuksRuns.KeyResourceInjective | functions/vshn-postgres-func/encrypted_pvc.go:74 | distinct pods have distinct resource names |
| LuksRuns.WrittenIsDesired | functions/vshn-postgres-func/encrypted_pvc.go:92-105 | the key a reconcile writes is the one the output of the whole pipeline asks for |
| LuksRuns.ObservedAgreesWithLast | functions/vshn-postgres-func/encrypted_pvc.go:76-87 | over any history an observed key never disagrees with the last one written |
| LuksRuns.KeyIsStable | functions/vshn-postgres-func/encrypted_pvc.go:57-106 | from the first reconcile that observes key k, as long as the secret stays observed every reconcile that writes it writes k |
| LuksRuns.UnobservedKeyIsFresh | functions/vshn-postgres-func/encrypted_pvc.go:57-105 | a pod the loop gets to without an observed secret gets exactly what the generator gives, and the output of the pipeline asks for it; without a generated key nothing is written |
| Writes.CarryIsWriteAll | runtime/desired.go:88-99 | which writes of a plan happen and with which failure it ends is fixed by the entries it starts on |
| Writes.LookupWriteAll | runtime/desired.go:181-199 | a lookup after many writes depends only on that slot and the writes to it |
| Writes.WriteAllTwice | runtime/desired.go:68-100 | doing the same writes again changes nothing at all |
| Postgres.OthersAvoidCluster | functions/vshn-postgres-func/encrypted_pvc.go:45-51 | only the encryption transform writes the cluster entry |
| Postgres.RunFiveIs | main.go:31-52 | what the table of five transforms leaves, part by part |
| Postgres.FiveReports | main.go:31-52 | the five reports in order, each with the severity of its transform and its message under the name in the table |
| Idempotence.PipelineIdempotent | main.go:31-52 | if each pod the encryption loop gets to has its key secret observed, running the table on its own output, with the same observed state and clock and any draws, changes nothing and repeats the five results |
| Idempotence.PipelineRepeats | main.go:31-52 | so it does with two generators that make no difference to any reached pod |
| Postgres.SameSecrets | functions/vshn-postgres-func/encrypted_pvc.go:57-106 | where two generators make no difference to a reached pod, neither what the loop over the pods writes nor how it ends depends on which of them is used |
| Repetition.RepeatsExactly | functions/vshn-postgres-func/encrypted_pvc.go:57-106 | the pipeline repeats itself for every later draw and generator if and only if each pod the loop gets to has its key secret observed |
| Repetition.RepeatsExactlyWithKeys | functions/vshn-postgres-func/encrypted_pvc.go:57-106 | among generators that never fail it repeats itself if and only if each reached pod has its key secret observed or an entry that cannot be decoded |
| Repetition.FirstKeyIsReplaced | functions/vshn-postgres-func/encrypted_pvc.go:79-84 | an input where it does not: one pod, no secret yet, another key in the second run |
| Ordering.Commute | main.go:31-52 | two different transforms that get to write no common name commute and neither notices the other |
| Ordering.PipelineInAnyOrder | main.go:31-52 | if no two transforms get to write one name, every ordering of the table gives the same name-to-payload map, composite, connection details and results |
| Ordering.OneNameNoClash | functions/vshn-postgres-func/restart.go:92-139 | no two transforms get to write one name when observed and desired composite share theirs |
| Ordering.OneNameAnyOrder | main.go:31-52 | so with one name every ordering of the table gives the outcome of the table |
| NameClash.AnyOrderExactly | main.go:31-52 | all orderings of the table agree if and only if no two transforms get to write one name |
| NameClash.OrderMatters | functions/vshn-postgres-func/restart.go:117-139 | an input with two names where two orders leave different manifests under one name |

## Left out

- The gRPC server, socket clean-up, image switch, test client and logger: process plumbing.
- JSON and YAML text: payloads are document trees; marshalling never fails, a field written with its zero value counts as absent, and a document that does not fit the type it is first decoded to is undecodable for every type.
- A document of one kind decoded as another gives the metadata and an empty body; fields that two kinds have in common by accident are not modelled.
- Generated API types: only the fields the transforms look at are records; the others are one opaque value per object.
- Scheme registration: all kinds the transforms use are registered from the start.
- ObservedResources: a value, since nothing writes to it; SetRaw of an observed resource changes a copy and has no counterpart.
- Result texts: messages are named by what they say; the prefix that names the transform is kept.
- Calendar.ParsePrintTime: zone offsets are those of RFC 3339, below 24 hours and 60 minutes; Go versions differ on what lies beyond, which the model does not read. A one-digit hour and a comma before the fraction are read, as Go does.
- Luks.WriteLuksSecrets: the generator is a function of the pod; the order of random draws is not modelled.
- Passwords: any string the generator gives; their length and character mix are not modelled.
- Transforms outside the table: any deterministic choice of store calls and a result, made from what the transform can see; random or blocking ones are not modelled.
- DesiredResources.List and the lists of connection details handed out to callers: they expose the slices themselves; no transform of this program uses them.
