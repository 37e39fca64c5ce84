# The KernelManager system, modelled in Dafny

Jupyter kernels run on Kubernetes as `KernelManager` resources. Three programs share each resource:

- the **controller** (Go) reconciles it: it writes the connection file into a ConfigMap, generates the kernel's
  pod, mirrors the pod's status into the resource, and deletes the resource once it carries the idle label;
- the **monitor** (Python), a sidecar of the pod, records kernel activity in an annotation and sets the idle
  label when the kernel was idle for too long;
- the **apiserver** (Python) creates, lists, reads and deletes the resources for its clients.

This project models what is hard about them and proves it: how they interleave on one versioned store, what the
controller's Go code does to memory it shares with its argument, and whether the encoders of one program agree
with the decoders of another.

## How it is built

| files | subject |
|---|---|
| `Protocol`, `ProtocolMerges`, `ProtocolStatus`, `ProtocolCulls`, `ProtocolSchedules`, `ProtocolReuse`, `ProtocolActivity`, `IdleDetection` | the three programs as one state machine of API calls, and what holds in every run of it |
| `ClusterStore`, `Reconciler`, `StatusMirror`, `PodGeneration`, `ConfigMapSync` | the store, and one reconcile as imperative code on Go slices, maps and pointers, proved equal to functions on values |
| `MonitorProgram` | the monitor's program as a class |
| `KernelClient`, `BulkDelete` | the apiserver's client: lookup, create with compensation, delete, shutdown, bulk delete |
| `Deserializer`, `TypeExpressions`, `KernelPayloads`, `KernelSchema` | the client's type-directed decoder, its type expressions, its schema tables, and the way of a request into the cluster and back |
| `ConnectionAgreement`, `SnakeCase`, `ActivityTime`, `Numerals` | encodings that two of the programs must agree on |
| `KernelResource`, `Outcomes` | shared types |

A run of `Protocol` starts from an empty store. Each action is one API call of a reconcile, one step of one of a
monitor's two threads, or something done by clients, users, the kubelet or the garbage collector; calls may fail.
Reads see the stored state. Every write of a resource takes a fresh version, a write that names an old version is
refused with a conflict, and the status is a subresource (API Conventions of Kubernetes, "Concurrency Control and
Consistency"; status code 409 is section 15.5.10 of RFC 9110).

Imperative code is proved against functions on values: `PodGeneration.GeneratePod`, `StatusMirror.CreateStatus`
and `ConfigMapSync.CopyConfigMapFields` work on shared arrays, pointers and maps; `Reconciler.Reconcile` calls all
three on copies it decodes; `ProtocolStatus.UninterruptedReconcile` shows that the small steps of the protocol do
the same as that method when nobody interferes.

## Where the code does not keep what it promises

- A pod's unset probe times are replaced by the current time at every reconcile, so status only settles within one
  second of the clock; and a container whose state is empty can make the mirrored state flip. `Reconciler.Converges`
  gives the exact condition.
- A label or annotation that is only added to a resource does not update its ConfigMap
  (`ConfigMapSync.AddedKeyIsMissed`); `OverlookedDifference` says exactly which differences are overlooked.
- An activity time whose microseconds are zero is printed without a fraction and then refused by the apiserver
  (`ActivityTime.PrintedTimeParsesBack`).
- The comment on `_wait_for_kernel_ready` says that it returns False on a timeout; it raises `KernelRetrieveError`
  (`KernelClient.WaitForReady`).
- `to_dict` leaves models as they are when they are nested in two containers; decoding and encoding is projection
  exactly when the data has none there (`Deserializer.DecodeThenEncodeProjects`).
- After a failed wait, the client deletes by kernel id. It is sure to delete the kernel just created exactly when that
  one decodes and no other kernel of the namespace has its id (`KernelClient.CleanupHitsTheRightKernel`).
- An idle verdict is about a name, in the monitor as well as in the controller, which deletes by name after it has read
  the label. So if a name is freed and given away again, the new resource can be culled without having been idle
  (`ProtocolSchedules.ReuseCullsUnjudged`). `ProtocolReuse.ReuseIsUnsafeIff` says exactly when this threatens: when a
  verdict on the free name is under way, a monitor of the name still runs, a pod of the name could still start one, or a
  reconcile could still add such a pod. Which states have a verdict under way is `ProtocolSchedules.CullMayComeIffArmed`.
- The monitor keeps the timeout it was started with, so after an edit of the spec it may cull too early for the new one.
  That can happen exactly when the edit raises the timeout (`ProtocolSchedules.EarlyCullIffRaised`); without such edits
  every cull is late enough for the spec of its time (`ProtocolCulls.CullsFollowTheSpec`), and whatever users edit, for a
  timeout the spec had before (`ProtocolCulls.CullsAreJustified`).
- The monitor prints its local time, and the apiserver reads the same fields as UTC: what is shown are the fields of the
  recorded time, not its instant, unless the monitor's zone is UTC (`ProtocolActivity.ShownActivityWasRecorded`).
- Connection fields that are empty, zero or missing in the document are missing from the kernel's file but not from the
  apiserver's answer, which fills in defaults (`ConnectionAgreement.OneConnection`).

## Model

| member | source | states |
|---|---|---|
| ProtocolMerges.RunKeepsSnapshots | monitor/main.py:38-44 | in every reachable state, a resource held by a reconcile or a monitor thread equals the stored one as long as the versions agree |
| ProtocolMerges.LabelReplaceIsAMerge | monitor/main.py:46-70 | in every run, the main thread's replace is one atomic merge of the idle label into the version current at that moment, or leaves the store alone; it goes through exactly when nobody wrote since the read |
| ProtocolMerges.AnnotationReplaceIsAMerge | monitor/main.py:54-70 | the same for the activity thread's annotation; so it never undoes a label, a spec or a status |
| ProtocolMerges.NothingIsLost | monitor/main.py:46-60 | over any stretch of a run in which no user edits it, a resource that is still the same object keeps its spec, labels and annotations, only the two monitored entries get new values, and an idle label stays |
| ProtocolMerges.ThereInBetween | controller/api/v1/kernelmanager_types.go:114-115 | an object found again under the same uid was there in every state in between |
| ProtocolStatus.UninterruptedReconcile | controller/internal/controller/kernelmanager_controller.go:96-193 | the protocol's steps of one reconcile, with nothing in between, change the store exactly as one reconcile does |
| ProtocolStatus.AddedPod | controller/internal/controller/kernelmanager_controller.go:161-172 | pods appear only by a reconcile that found none, generated from the resource it had read |
| ProtocolStatus.PodsAreReproduced | controller/internal/controller/kernelmanager_controller.go:251-298 | every pod that is added has the spec generated from the resource as stored when it was read; and that stays the stored spec in every state, before or after, from which no user edit of that object lies between |
| ProtocolStatus.PhasesWereRead | controller/internal/controller/kernelmanager_controller.go:373-378 | in every reachable state, a nonempty stored phase was the phase of the same-named pod when a reconcile read it earlier in the run |
| ProtocolStatus.ReadyIsNeverInvented | apiserver/km_apiserver/jupyter_kernel_client/schema.py:123-124 | if the apiserver's model of a stored resource is ready, a reconcile read its pod in the phase Running before |
| ProtocolStatus.JustAddedWritesNoPhase | controller/internal/controller/kernelmanager_controller.go:167-190 | a reconcile that has just created the pod writes the empty phase or nothing, whatever happens between its calls |
| ProtocolCulls.ArmedBefore | controller/internal/controller/kernelmanager_controller.go:112-116 | unless a user sets the label, only a new verdict puts a name into a state from which it can be culled |
| ProtocolCulls.CullsFollowAVerdict | controller/internal/controller/kernelmanager_controller.go:112-123 | if only monitors set the idle label of a name, its cull comes after a monitor iteration that found that name idle for longer than the monitor's timeout |
| ProtocolCulls.OnlyTheSidecar | controller/internal/controller/kernelmanager_controller.go:303-340 | in a generated pod, only the sidecar runs the monitor's image, and its environment names the resource and its timeout |
| ProtocolCulls.TimeoutsAreCarried | monitor/main.py:148-151 | every monitor's target and timeout, parsed from its environment, are those the spec of that resource held earlier in the run |
| ProtocolCulls.CullsAreJustified | controller/internal/controller/kernelmanager_controller.go:112-123 | if moreover the name is given once and the monitor's image left to the controller, every culled object was itself found idle for longer than a timeout that its own spec held by then, whatever users edit |
| ProtocolCulls.CullsFollowTheSpec | controller/internal/controller/kernelmanager_controller.go:319-322 | and if no edit raises its timeout, for longer than the timeout in its spec at the time of the cull |
| ProtocolSchedules.CullMayComeIffArmed | controller/internal/controller/kernelmanager_controller.go:112-116 | from every reachable state, whether or not the resource is there, a resource of a name can be culled without a new verdict on the name exactly when the stored one is idle-labelled, a reconcile has read that label, or a monitor is about to write it against the stored version |
| ProtocolSchedules.NewcomerIsCulled | monitor/main.py:135-140 | every run that frees such a name can go on to cull the next resource of that name, whatever its spec and the only one to have the name since, which no monitor iteration of the whole run ever found idle |
| ProtocolSchedules.ReuseCullsUnjudged | monitor/main.py:135-140 | and for every resource with a monitor there is a run that does so |
| ProtocolSchedules.EditedTimeoutIsIgnored | controller/internal/controller/kernelmanager_controller.go:168-172 | for every resource with a monitor and every longer timeout there is a run that edits the spec to it and culls the resource before it was idle for that long |
| ProtocolSchedules.EarlyCullIffRaised | controller/internal/controller/kernelmanager_controller.go:319-325 | for every resource with a monitor whose name is given once: if users create it with one timeout and edit it to another only, some run culls it too early for its spec exactly when the second timeout is the longer one |
| ProtocolSchedules.EarlyVerdictIffStale | monitor/main.py:131-135 | of a single waiting monitor: its next verdict can be too early for the spec stored now exactly when the timeout it was started with is shorter; nothing is said of verdicts already under way |
| ProtocolReuse.StaysUnwatched | controller/internal/controller/kernelmanager_controller.go:167-184 | while a name is free, no monitor of it, pod that could start one, or reconcile that could add such a pod appears if there was none when it became free |
| ProtocolReuse.ReuseIsUnsafeIff | controller/internal/controller/kernelmanager_controller.go:112-123 | for every run whose users leave the label and the monitor's image alone and whose last state has the name free: some continuation culls the next resource of that name, of whatever given spec, without any monitor iteration ever having found it idle exactly if in that state a verdict on the name is under way, or a monitor of it runs, or its pod has a container that starts one, or its reconcile holds a monitored spec and has not come past adding the pod |
| ProtocolCulls.CounterCountsCulls | controller/internal/controller/kernelmanager_controller.go:116-120 | the culling counter is the number of steps in which the controller deleted a resource |
| IdleDetection.DecisionIsOnTime | monitor/main.py:131-143 | the first decision to label after activity at T comes at a clock reading t with timeout < t - T <= max(timeout, 0) + interval + overhead |
| IdleDetection.DecisionComes | monitor/main.py:131-143 | once that bound has passed and the loop is on time, a decision has been taken since the last activity |
| IdleDetection.BusyKernelsAreLeftAlone | monitor/main.py:102-104 | if the gaps between recorded activities never exceed the timeout, the monitor never decides to label |
| ProtocolActivity.ActivityWasRecorded | monitor/main.py:105-110 | if only monitors write the activity annotation, every stored text prints the time at which a monitor of that resource recorded activity earlier in the run |
| ProtocolActivity.ShownActivityWasRecorded | apiserver/km_apiserver/jupyter_kernel_client/schema.py:160-169 | and the apiserver shows exactly the fields of that time, under the offset of UTC, or refuses the document exactly when the time has no microseconds |
| MonitorProgram.UpdateCrResource | monitor/main.py:18-71 | merges both patches into the stored resource exactly when it was not written since the read; otherwise not found or conflict, and nothing written |
| MonitorProgram.KernelMonitor.UpdateLastActivity | monitor/main.py:102-110 | records the time in every case, and merges the annotation exactly when nobody wrote in between |
| MonitorProgram.KernelMonitor.CheckIdle | monitor/main.py:131-143 | sets out to label exactly when more than the timeout has passed, and then merges the idle label or, on any error, changes nothing |
| MonitorProgram.ActivityThread | monitor/main.py:102-110 | the protocol's steps after an activity, with any writes of others between read and replace, change store and monitor exactly as `UpdateLastActivity` does |
| MonitorProgram.MainThread | monitor/main.py:131-143 | and its steps from the reading of the clock on exactly as `CheckIdle` does |
| Reconciler.Reconcile | controller/internal/controller/kernelmanager_controller.go:96-193 | for every set of failing calls, the store and the outcome after a reconcile, through decoded copies of the objects |
| Reconciler.EnsureConfigMap | controller/internal/controller/kernelmanager_controller.go:126-159 | created if missing, updated exactly when the copied fields ask for it, untouched without a connection |
| Reconciler.Assemble | controller/internal/controller/kernelmanager_controller.go:162-162 | the pod generated from a private copy of the resource, and what that copy has become |
| Reconciler.EnsurePod | controller/internal/controller/kernelmanager_controller.go:167-184 | the status of the pod found, or the empty one after creating it |
| Reconciler.ReconcileKeeps | controller/internal/controller/kernelmanager_controller.go:112-190 | a reconcile either culls an idle-labelled resource and changes nothing else, or leaves every stored label, annotation and spec as it was and other resources untouched |
| Reconciler.MainEndpointWouldDrift | controller/internal/controller/kernelmanager_controller.go:362-363 | sent to the status endpoint, the changed instance leaves the stored spec; sent to the main endpoint it would keep it only without a connection and with container 0 already named |
| Reconciler.OnlyTheStatus | controller/internal/controller/kernelmanager_controller.go:186-192 | with ConfigMap and pod in place, a reconcile writes the mirrored status and nothing else |
| Reconciler.Converges | controller/internal/controller/kernelmanager_controller.go:125-190 | after two undisturbed reconciles a third changes nothing exactly when the first container named after the resource has a state or none has, and unset times are filled in the same second |
| StatusMirror.ConvertCondition | controller/internal/controller/kernelmanager_controller.go:430-469 | keeps the condition, with the current time for unset times |
| StatusMirror.CreateStatus | controller/internal/controller/kernelmanager_controller.go:366-428 | conditions in order, and the first same-named container whose state is another pointer than before, else empty |
| StatusMirror.PickByValue | controller/internal/controller/kernelmanager_controller.go:398-398 | for states decoded apart, comparing pointers comes to asking whether both are empty |
| StatusMirror.StatusFromCopies | controller/internal/controller/kernelmanager_controller.go:356-363 | the status depends on the values of resource and pod alone |
| StatusMirror.StateSettles | controller/internal/controller/kernelmanager_controller.go:393-409 | picking the state again gives the same exactly when the first same-named container has a state or none has |
| StatusMirror.SameConditions | controller/internal/controller/kernelmanager_controller.go:452-466 | two mirrors of the same conditions are equal exactly when unset times are filled alike |
| StatusMirror.StatusSettles | controller/internal/controller/kernelmanager_controller.go:366-428 | both together: when the next status of an unchanged pod is the same |
| StatusMirror.StatusMirrorsPod | controller/internal/controller/kernelmanager_controller.go:393-427 | phase, IP and conditions are the pod's in order; the state is that of the only container named after the resource, empty if there is none |
| PodGeneration.Append | controller/internal/controller/kernelmanager_controller.go:275-278 | appending writes into spare capacity of the shared array or into a new one, and leaves the old slice reading as before |
| PodGeneration.NewSidecar | controller/internal/controller/kernelmanager_controller.go:303-339 | the sidecar's environment and mount, on arrays of its own |
| PodGeneration.AppendContainer | controller/internal/controller/kernelmanager_controller.go:340-340 | the pod gets the sidecar, the argument's container list keeps its length and contents |
| PodGeneration.PointAtConnection | controller/internal/controller/kernelmanager_controller.go:263-291 | the writes to container 0, visible through every header of the array |
| PodGeneration.AddMonitor | controller/internal/controller/kernelmanager_controller.go:303-349 | sidecar and default service account exactly when image, timeout and connection are given |
| PodGeneration.AssembleSpec | controller/internal/controller/kernelmanager_controller.go:259-349 | the pod holds the generated spec and the argument the spec with container 0 rewritten |
| PodGeneration.CopyLabels | controller/internal/controller/kernelmanager_controller.go:295-298 | the loop over the shared label map changes nothing |
| PodGeneration.GeneratePod | controller/internal/controller/kernelmanager_controller.go:251-351 | both of these for every input, and null (the index panic) exactly for a template without containers |
| PodGeneration.ReuseShows | controller/internal/controller/kernelmanager_controller.go:259-291 | generating again from a used object gives the same pod exactly when no connection is configured |
| ConfigMapSync.ScanOldKeys | controller/internal/reconcilehelper/util.go:30-34 | in every iteration order, true exactly when some stored key should read differently |
| ConfigMapSync.CopyConfigMapFields | controller/internal/reconcilehelper/util.go:28-57 | true exactly when the fields are out of date in that sense; afterwards all four equal the desired ones |
| ConfigMapSync.CopyTwice | controller/internal/reconcilehelper/util.go:28-57 | a second copy never asks for an update |
| ConfigMapSync.OverlookedDifference | controller/internal/reconcilehelper/util.go:30-34 | exactly which differences of labels or annotations do not ask for an update |
| ConfigMapSync.AddedKeyIsMissed | controller/internal/reconcilehelper/util.go:30-35 | a desired ConfigMap that differs from the stored one in added labels alone asks for no update, so they are not written before some other difference asks for one |
| ConnectionAgreement.TagToAttribute | controller/api/v1/kernelmanager_types.go:61-81 | every Go tag is camelCase, and its snake_case form is the Python field name |
| ConnectionAgreement.FileContents | controller/internal/reconcilehelper/util.go:86-90 | in every iteration order, the connection file holds the nonempty fields under their Python names |
| ConnectionAgreement.GenerateConfigFile | controller/internal/controller/kernelmanager_controller.go:222-239 | the conversion of the connection yields that file |
| ConnectionAgreement.FieldDecodes | controller/api/v1/kernelmanager_types.go:59-82 | for every connection document that Go and the apiserver can both decode, Go's tag and the apiserver's alias read the same entry |
| ConnectionAgreement.FieldsAgree | apiserver/km_apiserver/jupyter_kernel_client/schema.py:129-133 | for every such resource document, a field is in Go's file exactly when the document gives it and it is not empty, and then equals what the apiserver dumps of its model, except for an IP that the status replaces |
| ConnectionAgreement.OneConnection | apiserver/km_apiserver/kernel_manager.py:67-67 | file and dump of such a document agree on every key but the IP exactly when the document gives every other field, not empty |
| ConnectionAgreement.StoredConnectionDecodes | apiserver/km_apiserver/jupyter_kernel_client/client.py:168-168 | Go decodes from what is stored of a request exactly the requested connection |
| ConnectionAgreement.RequestHasOneConnection | apiserver/km_apiserver/jupyter_kernel_client/schema.py:129-133 | so for every request with int32 ports and every later version of its document, file and dump agree on every key but the IP exactly when no other requested field is empty |
| ConnectionAgreement.KernelReadsTheConfigMap | controller/internal/controller/kernelmanager_controller.go:266-291 | without clashing user volumes, the path in the kernel's environment resolves through its mounts to the file in the resource's ConfigMap |
| ConnectionAgreement.MonitorReadsTheConfigMap | monitor/main.py:164-165 | and so does the path the monitor opens |
| ConnectionAgreement.MonitorReads | monitor/main.py:148-151 | the values the monitor looks up in its environment |
| SnakeCase.ConvertToSnakeCase | controller/internal/reconcilehelper/util.go:60-70 | the loop computes the snake_case form |
| SnakeCase.SnakeLength | controller/internal/reconcilehelper/util.go:60-70 | it is longer by the number of capitals after the first character |
| SnakeCase.SnakeIdempotent | controller/internal/reconcilehelper/util.go:60-70 | converting twice is converting once |
| SnakeCase.CamelInvertsSnake | controller/internal/reconcilehelper/util.go:60-70 | on camelCase names it has an inverse |
| SnakeCase.ToSnakeCaseKeys | controller/internal/reconcilehelper/util.go:86-90 | the loop renames the keys in some order |
| SnakeCase.OrderIndependence | controller/internal/reconcilehelper/util.go:86-90 | the order matters exactly when two keys with different values convert to the same name |
| SnakeCase.NothingLost | controller/internal/reconcilehelper/util.go:86-90 | on camelCase keys every pair survives and can be read back |
| Numerals.ParsePrintedInt | controller/internal/controller/kernelmanager_controller.go:321-325 | a number printed into the environment is parsed back unchanged |
| ActivityTime.PrintedTimeParsesBack | apiserver/km_apiserver/jupyter_kernel_client/schema.py:164-167 | a printed activity time is read back to the same fields exactly when its microseconds are not zero; otherwise it is refused |
| ActivityTime.EmittedTimeIsRfc3339 | apiserver/km_apiserver/jupyter_kernel_client/schema.py:169-169 | what is emitted is a date-time of section 5.6 of RFC 3339 |
| ActivityTime.EmittedFromPrinted | apiserver/km_apiserver/jupyter_kernel_client/schema.py:164-169 | the emitted text is the printed one with a T between date and time and the UTC offset after it |
| ActivityTime.PrintedOrder | monitor/main.py:105-107 | printed activity times are ordered as strings exactly as in time |
| TypeExpressions.PeelPrintedList | apiserver/km_apiserver/jupyter_kernel_client/client.py:450-451 | the greedy expression recovers the element type |
| TypeExpressions.PeelPrintedDict | apiserver/km_apiserver/jupyter_kernel_client/client.py:454-455 | the greedy expression recovers both types of a dict whose key type has no comma |
| TypeExpressions.PrintedTypesParseBack | apiserver/km_apiserver/jupyter_kernel_client/client.py:449-465 | peeling recovers the printed tree exactly when keys have no comma, names do not pose as containers and nothing nested breaks a line |
| Deserializer.FillKwargs | apiserver/km_apiserver/jupyter_kernel_client/client.py:584-589 | in every iteration order, the decoded attributes that are present, or the exception of one of them |
| Deserializer.ToDictLoop | apiserver/km_apiserver/jupyter_kernel_client/models/v1_kernel.py:180-202 | in every iteration order, the converted properties |
| Deserializer.WellTypedDecodes | apiserver/km_apiserver/jupyter_kernel_client/client.py:433-476 | well-typed data decodes without an exception, model types to instances of their class |
| Deserializer.PropertyReadsBack | apiserver/km_apiserver/jupyter_kernel_client/models/v1_kernel.py:184-200 | a converted property reads back as the projection of its data exactly when it buries no model |
| Deserializer.DecodeThenEncodeProjects | apiserver/km_apiserver/jupyter_kernel_client/client.py:571-597 | for every injective schema and well-typed data of any depth, decoding, to_dict and renaming back give the data restricted to declared keys, exactly when no model is buried |
| Deserializer.ProjectionRestricts | apiserver/km_apiserver/jupyter_kernel_client/client.py:586-589 | the restriction has exactly the declared keys with non-null values |
| Deserializer.CleanIffUnchanged | apiserver/km_apiserver/jupyter_kernel_client/client.py:586-589 | the restriction is the data itself exactly when the data has no undeclared key, no null property and no value of another type |
| Deserializer.ShallowNeverBuries | apiserver/km_apiserver/jupyter_kernel_client/models/v1_kernel.py:23-29 | with tables like the repository's, no data buries a model |
| KernelPayloads.RequestFits | apiserver/km_apiserver/jupyter_kernel_client/client.py:153-188 | the document built for a request fits the schema whenever its volumes and mounts do |
| KernelPayloads.ConnectionReadsBack | apiserver/km_apiserver/jupyter_kernel_client/schema.py:129-130 | the stored connection is read back as requested, under the Python aliases |
| KernelPayloads.PayloadRoundTrip | apiserver/km_apiserver/jupyter_kernel_client/schema.py:112-171 | every such request is stored under spec name, hyphen and id, and read back with the same id, namespace, image, directory, volumes, mounts, timeout and connection, the IP replaced by the status's |
| KernelPayloads.VolumesUnchanged | apiserver/km_apiserver/jupyter_kernel_client/client.py:182-182 | volumes come back as sent exactly when none has undeclared keys, nulls or values of another type |
| KernelPayloads.ReadyMeansRunning | apiserver/km_apiserver/jupyter_kernel_client/schema.py:123-124 | a model is ready exactly when the document's phase is Running |
| KernelSchema.TablesAreKernelTables | apiserver/km_apiserver/jupyter_kernel_client/models/v1_kernel_spec.py:18-44 | the tables of the repository's models, with what a request needs of the Kubernetes client's, are ones for which the round trip of a request holds |
| KernelClient.DecodedHasId | apiserver/km_apiserver/jupyter_kernel_client/schema.py:126-127 | a document that decodes gives the id that its label carries, by which lookups find it |
| KernelClient.RequestDecodes | apiserver/km_apiserver/jupyter_kernel_client/client.py:153-188 | every later version of a stored request whose status and annotations are readable is a kernel of the requested id that decodes |
| KernelClient.RequestIsCreated | apiserver/km_apiserver/jupyter_kernel_client/client.py:190-199 | just stored, it is such a kernel that is not ready, which is what the client's store then holds |
| KernelClient.GetById | apiserver/km_apiserver/jupyter_kernel_client/client.py:280-335 | some matching kernel that decodes, or the exception for each way of failing |
| KernelClient.DeleteById | apiserver/km_apiserver/jupyter_kernel_client/client.py:338-385 | deletes the kernel the lookup found; silent if the lookup fails, an error if the delete does |
| KernelClient.RemoveKernel | apiserver/km_apiserver/kernel_manager.py:101-111 | leaves what deleting by id leaves, swallows a failed delete, and raises exactly when the kernel found does not decode |
| KernelClient.WaitForReady | apiserver/km_apiserver/jupyter_kernel_client/client.py:388-431 | at most 10 * timeout + 2 polls; returns only after a poll that found the kernel running, and raises only KernelRetrieveError |
| KernelClient.Create | apiserver/km_apiserver/jupyter_kernel_client/client.py:190-229 | a refusal writes and deletes nothing; after a creation, KernelCreationError means the resource is gone unless the cleanup's lookup failed; whatever others do that leaves it the only kernel of its id |
| KernelClient.CleanupHitsTheRightKernel | apiserver/km_apiserver/jupyter_kernel_client/client.py:219-225 | undisturbed, deleting by id is sure to remove the kernel just created and nothing else exactly when that kernel decodes and no other one of the namespace has its id |
| KernelClient.ListKernelIds | apiserver/km_apiserver/kernel_manager.py:72-82 | one id for each kernel in scope, unless one does not decode |
| KernelClient.ListingCounts | apiserver/km_apiserver/kernel_manager.py:81-82 | every id is listed as often as kernels bear it |
| KernelClient.ShutdownAll | apiserver/km_apiserver/kernel_manager.py:141-149 | leaves no kernel in scope and all others, also when kernels share an id; raises, and deletes nothing, exactly when some kernel in scope does not decode |
| BulkDelete.UninterruptedTask | apiserver/km_apiserver/kernel_manager.py:108-111 | undisturbed, the two calls of a task come to exactly the outcomes and stores that removing a kernel may come to |
| BulkDelete.AdvanceKeeps | apiserver/km_apiserver/kernel_manager.py:108-111 | what each call of each task keeps |
| BulkDelete.BulkDeleteIsConfluent | apiserver/km_apiserver/handlers/kernel_handlers.py:80-92 | with unique ids, every schedule of the tasks ends in the initial store without the requested kernels that decode, and a task raises exactly when its kernel does not |
| BulkDelete.BulkDeleteSucceeds | apiserver/km_apiserver/handlers/kernel_handlers.py:90-92 | if the requested kernels decode, no task raises and exactly they are gone |

## Left out

- The Kubernetes client, the controller's cache and queue, the kubelet, the garbage collector and the kernel's message
  channels are represented by the store and by steps of the environment; reads of a stale cache are not modelled.
- Calls whose effect happens although an error is returned: every failing call fails before it has an effect.
- Re-emission of events in `Reconcile`: it writes no resource, ConfigMap or pod, and requests that name an event are not modelled.
- The version check of the ConfigMap update, and its read and write as separate steps of the protocol: only the reconcile
  of the same key writes it.
- Pods that others create under a resource's name, and user-defined owners of pods and ConfigMaps.
- Metrics other than the culling counter, logging, event recording, HTTP, websockets, authentication and startup code.
- `acheck_kernel_id`, `aget_kernel` and the container methods of the kernel manager: thin readings of one lookup.
- ProtocolCulls.CullsAreJustified: assumes that the name is given once and user containers do not run the monitor's image;
  `CullsFollowAVerdict` says what is left without either.
- ProtocolCulls.CullsFollowTheSpec: assumes that no edit raises the timeout of the resource, which is the exact condition
  by `EarlyCullIffRaised`; `CullsAreJustified` holds without it.
- ProtocolSchedules.EarlyVerdictIffStale: speaks of the next verdict of one waiting monitor, not of culls;
  `EarlyCullIffRaised` speaks of culls.
- ProtocolMerges.NothingIsLost: assumes no user edit of that resource in the stretch, because an edit may remove what it likes.
- ProtocolActivity.ShownActivityWasRecorded: assumes that users do not write the activity annotation themselves; times
  are calendar fields, so the offset of the monitor's local zone from UTC is not modelled.
- IdleDetection.DecisionIsOnTime: assumes a clock that does not go back, and `overhead` as a bound on one iteration beyond its sleep.
- KernelClient.Create: its compensation clause assumes that no other kernel of the namespace has the same id;
  `CleanupHitsTheRightKernel` gives the exact condition.
- KernelClient.ShutdownAll: assumes that no call fails and nobody else writes, as the operation has no handling for either.
- KernelPayloads.ReadModel: a function of the document; that `model_validate` also writes its findings into the dict it is
  given is not modelled (the list and get calls that decode a response drop that dict).
- The text of JSON: the connection file and the documents stand for the objects their text encodes.
- Conversions of a primitive to another type are one parameter of the schema registry; of them only those a request needs are fixed.
- Iterating a string or a dict where the schema says `list[...]`, files, dates, and the decoding of `V1KernelStatus`.
- The generated client's own serialisation is represented by `to_dict` with attributes renamed by `attribute_map`.
- The monitor's `int()` is modelled on plain decimal numerals; non-ASCII names and Go's float formatting are left out.
- The full schemas of pods, volumes and affinities: opaque values with equality.
