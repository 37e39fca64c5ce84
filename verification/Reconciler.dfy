/** One reconcile of a KernelManager (kernelmanager_controller.go:96-193): cull it, or bring its
    ConfigMap, its pod and its status up to date. */
module Reconciler {
  import opened Outcomes
  import opened KernelResource
  import opened ConfigMapSync
  import opened ClusterStore
  import opened PodGeneration
  import opened StatusMirror
  import ConnectionAgreement

  /** The calls of a reconcile to the API server. */
  datatype Call = ReadCr | Cull | ReadConfigMap | AddConfigMap | WriteConfigMap | ReadPod | AddPod | WriteStatus

  /** `Failed` returns the error and asks for another run; `Panicked` is the index panic. */
  datatype Outcome = Done | Failed(call: Call, error: ApiError) | Panicked

  type Faults = Call -> bool

  // ---- what a reconcile does ------------------------------------------------

  function GoMapOf<V>(m: map<string, V>): GoMap<V> { if m == map[] then None else Some(m) }

  function DesiredConfigMap(key: Key, cr: Cr): Files {
    Fields(GoMapOf(cr.labels), GoMapOf(cr.annotations),
           Some(map[key.name + ".json" := ConnectionAgreement.ConfigFile(cr.spec.connection)]), None)
  }

  function DesiredPod(key: Key, cr: Cr, monitorImage: string): Pod
    requires cr.spec.template.containers != []
  {
    Pod(cr.labels, cr.annotations, GeneratedSpec(key, cr.spec, monitorImage), NO_POD_STATUS)
  }

  /** What is sent to the status endpoint: the instance as `generatePod` left it, with the new status. */
  function StatusBody(key: Key, cr: Cr, pod: PodStatus, clock: Clock): Cr
    requires cr.spec.template.containers != []
  {
    cr.(spec := SpecAfter(key.name, cr.spec), status := StatusOf(key.name, cr.status.containerState, pod, clock))
  }

  ghost function SyncConfigMap(c: Cluster, key: Key, cr: Cr, faults: Faults): (Cluster, Outcome) {
    var desired := DesiredConfigMap(key, cr);
    var stored := c.(configMaps := c.configMaps[key := desired]);
    if cr.spec.connection == NO_CONNECTION then (c, Done)
    else if faults(ReadConfigMap) then (c, Failed(ReadConfigMap, Unavailable))
    else if key !in c.configMaps then
      if faults(AddConfigMap) then (c, Failed(AddConfigMap, Unavailable)) else (stored, Done)
    else if !OutOfDate(desired, c.configMaps[key]) then (c, Done)
    else if faults(WriteConfigMap) then (c, Failed(WriteConfigMap, Unavailable))
    else (stored, Done)
  }

  function SyncPod(c: Cluster, key: Key, cr: Cr, monitorImage: string, faults: Faults): (Cluster, Result<PodStatus, Outcome>)
    requires cr.spec.template.containers != []
  {
    if faults(ReadPod) then (c, Err(Failed(ReadPod, Unavailable)))
    else if key in c.pods then (c, Ok(c.pods[key].status))
    else if faults(AddPod) then (c, Err(Failed(AddPod, Unavailable)))
    else match CreatePod(c, key, DesiredPod(key, cr, monitorImage))
      case Ok(next) => (next, Ok(NO_POD_STATUS))
      case Err(e) => (c, Err(Failed(AddPod, e)))
  }

  function SyncStatus(c: Cluster, key: Key, body: Cr, faults: Faults): (Cluster, Outcome) {
    if faults(WriteStatus) then (c, Failed(WriteStatus, Unavailable))
    else match UpdateStatus(c, key, body)
      case Ok(next) => (next, Done)
      case Err(e) => (c, Failed(WriteStatus, e))
  }

  ghost function Synced(c: Cluster, key: Key, cr: Cr, monitorImage: string, faults: Faults, clock: Clock): (Cluster, Outcome) {
    var (c1, synced) := SyncConfigMap(c, key, cr, faults);
    if synced != Done then (c1, synced)
    else if cr.spec.template.containers == [] then (c1, Panicked)
    else
      var (c2, pod) := SyncPod(c1, key, cr, monitorImage, faults);
      match pod
      case Err(outcome) => (c2, outcome)
      case Ok(podStatus) => SyncStatus(c2, key, StatusBody(key, cr, podStatus, clock), faults)
  }

  ghost function Reconciled(c: Cluster, key: Key, monitorImage: string, faults: Faults, clock: Clock): (Cluster, Outcome) {
    if faults(ReadCr) then (c, Failed(ReadCr, Unavailable))
    else if key !in c.crs then (c, Done)
    else if !IdleLabelled(c.crs[key].labels) then Synced(c, key, c.crs[key], monitorImage, faults, clock)
    else if faults(Cull) then (c, Failed(Cull, Unavailable))
    else match DeleteCr(c, key)
      case Ok(next) => (next.(culls := next.culls + 1), Done)
      case Err(e) => (c, Failed(Cull, e))
  }

  // ---- the controller ------------------------------------------------

  /** The client of the API server. A faulty call fails before it has an effect. */
  class ApiServer {
    var cluster: Cluster
    const faults: Faults

    constructor (cluster: Cluster, faults: Faults)
      ensures this.cluster == cluster && this.faults == faults
    {
      this.cluster, this.faults := cluster, faults;
    }

    method GetCr(key: Key) returns (r: Result<Cr, ApiError>)
      ensures r == if faults(ReadCr) then Err(Unavailable) else if key in cluster.crs then Ok(cluster.crs[key]) else Err(NotFound)
    {
      if faults(ReadCr) {
        return Err(Unavailable);
      }
      r := if key in cluster.crs then Ok(cluster.crs[key]) else Err(NotFound);
    }

    method Delete(key: Key) returns (error: Option<ApiError>)
      modifies this
      ensures error == if faults(Cull) then Some(Unavailable) else if DeleteCr(old(cluster), key).Ok? then None
          else Some(NotFound)
      ensures cluster == if error.None? then DeleteCr(old(cluster), key).value else old(cluster)
    {
      if faults(Cull) {
        return Some(Unavailable);
      }
      match DeleteCr(cluster, key)
      case Ok(next) =>
        cluster := next;
        error := None;
      case Err(e) =>
        error := Some(e);
    }

    method GetConfigMap(key: Key) returns (r: Result<Files, ApiError>)
      ensures r == if faults(ReadConfigMap) then Err(Unavailable)
                   else if key in cluster.configMaps then Ok(cluster.configMaps[key]) else Err(NotFound)
    {
      if faults(ReadConfigMap) {
        return Err(Unavailable);
      }
      r := if key in cluster.configMaps then Ok(cluster.configMaps[key]) else Err(NotFound);
    }

    method StoreConfigMap(key: Key, call: Call, files: Files) returns (error: Option<ApiError>)
      requires call in {AddConfigMap, WriteConfigMap}
      modifies this
      ensures error == if faults(call) then Some(Unavailable) else None
      ensures cluster == if faults(call) then old(cluster) else old(cluster).(configMaps := old(cluster).configMaps[key := files])
    {
      if faults(call) {
        return Some(Unavailable);
      }
      cluster := cluster.(configMaps := cluster.configMaps[key := files]);
      error := None;
    }

    method GetPod(key: Key) returns (r: Result<Pod, ApiError>)
      ensures r == if faults(ReadPod) then Err(Unavailable) else if key in cluster.pods then Ok(cluster.pods[key])
          else Err(NotFound)
    {
      if faults(ReadPod) {
        return Err(Unavailable);
      }
      r := if key in cluster.pods then Ok(cluster.pods[key]) else Err(NotFound);
    }

    method AddPod(key: Key, pod: Pod) returns (error: Option<ApiError>)
      modifies this
      ensures error == if faults(Call.AddPod) then Some(Unavailable)
                       else if CreatePod(old(cluster), key, pod).Ok? then None else Some(AlreadyExists)
      ensures cluster == if error.None? then CreatePod(old(cluster), key, pod).value else old(cluster)
    {
      if faults(Call.AddPod) {
        return Some(Unavailable);
      }
      match CreatePod(cluster, key, pod)
      case Ok(next) =>
        cluster := next;
        error := None;
      case Err(e) =>
        error := Some(e);
    }

    method WriteStatus(key: Key, body: Cr) returns (outcome: Outcome)
      modifies this
      ensures (cluster, outcome) == SyncStatus(old(cluster), key, body, faults)
    {
      if faults(Call.WriteStatus) {
        return Failed(Call.WriteStatus, Unavailable);
      }
      match UpdateStatus(cluster, key, body)
      case Ok(next) =>
        cluster := next;
        outcome := Done;
      case Err(e) =>
        outcome := Failed(Call.WriteStatus, e);
    }

    method CountCull()
      modifies this
      ensures cluster == old(cluster).(culls := old(cluster).culls + 1)
    {
      cluster := cluster.(culls := cluster.culls + 1);
    }
  }

  /** kernelmanager_controller.go:126-159 */
  method EnsureConfigMap(api: ApiServer, key: Key, cr: Cr) returns (outcome: Outcome)
    modifies api
    ensures (api.cluster, outcome) == SyncConfigMap(old(api.cluster), key, cr, api.faults)
  {
    if cr.spec.connection == NO_CONNECTION {
      return Done;
    }
    var file := ConnectionAgreement.GenerateConfigFile(cr.spec.connection);
    var data := map[key.name + ".json" := file];
    var desired := new ConfigMap(Fields(GoMapOf(cr.labels), GoMapOf(cr.annotations), Some(data), None));
    var got := api.GetConfigMap(key);
    var error: Option<ApiError>;
    match got
    case Err(NotFound) =>
      error := api.StoreConfigMap(key, AddConfigMap, desired.Value());
      outcome := if error.Some? then Failed(AddConfigMap, error.value) else Done;
    case Err(e) =>
      outcome := Failed(ReadConfigMap, e);
    case Ok(files) =>
      var found := new ConfigMap(files);
      outcome := Done;
      var requireUpdate := CopyConfigMapFields(desired, found);
      if requireUpdate {
        error := api.StoreConfigMap(key, WriteConfigMap, found.Value());
        outcome := if error.Some? then Failed(WriteConfigMap, error.value) else Done;
      }
  }

  method EncodeContainers(cs: Slice<GoContainer>, ghost v: seq<Container>) returns (r: seq<Container>)
    requires ContainersAre(cs, v)
    ensures r == v
  {
    r := [];
    for i := 0 to cs.len
      invariant r == v[..i]
    {
      var c := cs.arr[i];
      assert ContainerIs(c, v[i]);
      r := r + [Container(c.name, c.image, c.env.arr[..c.env.len], c.mounts.arr[..c.mounts.len], c.rest)];
    }
  }

  method EncodePodSpec(p: GoPodSpec, ghost v: PodSpec) returns (r: PodSpec)
    requires PodSpecIs(p, v)
    ensures r == v
  {
    var containers := EncodeContainers(p.containers, v.containers);
    r := PodSpec(containers, p.volumes.arr[..p.volumes.len], p.serviceAccount, p.rest);
  }

  /** The instance and its pod as they are sent, after the generation. */
  method EncodeBoth(instance: Instance, generated: PodObject, monitorImage: string, ghost spec: Spec)
    returns (podSpec: PodSpec, left: Spec)
    requires spec.template.containers != []
    requires InstanceIs(instance, SpecAfter(instance.key.name, spec))
    requires PodSpecIs(generated.spec, GeneratedSpec(instance.key, spec, monitorImage))
    ensures podSpec == GeneratedSpec(instance.key, spec, monitorImage) && left == SpecAfter(instance.key.name, spec)
  {
    podSpec := EncodePodSpec(generated.spec, GeneratedSpec(instance.key, spec, monitorImage));
    var template := EncodePodSpec(instance.template, SpecAfter(instance.key.name, spec).template);
    left := Spec(template, instance.idleTimeoutSeconds, instance.cullingIntervalSeconds, instance.connection, instance.mountPath);
  }

  method GenerateAndEncode(instance: Instance, monitorImage: string, ghost cr: Cr) returns (r: Option<(Pod, Spec)>)
    requires InstanceIs(instance, cr.spec)
    requires instance.labels != null && instance.labels.entries == cr.labels
    requires instance.annotations != null && instance.annotations.entries == cr.annotations
        && instance.annotations != instance.labels
    modifies instance.template.containers.arr, instance.template.volumes.arr, Backing(instance.template.containers),
        instance.labels
    ensures r.None? <==> cr.spec.template.containers == []
    ensures r.Some? ==> r.value == (DesiredPod(instance.key, cr, monitorImage), SpecAfter(instance.key.name, cr.spec))
  {
    var generated := GeneratePod(instance, monitorImage, cr.spec);
    if generated == null {
      return None;
    }
    var podSpec, spec := EncodeBoth(instance, generated, monitorImage, cr.spec);
    r := Some((Pod(generated.labels.entries, generated.annotations.entries, podSpec, NO_POD_STATUS), spec));
  }

  /** Generates the pod from a decoded copy of the resource, and gives back the copy as it is then;
      `None` is the panic. */
  method Assemble(key: Key, cr: Cr, monitorImage: string) returns (r: Option<(Pod, Cr)>)
    ensures r.None? <==> cr.spec.template.containers == []
    ensures r.Some? ==> r.value == (DesiredPod(key, cr, monitorImage), cr.(spec := SpecAfter(key.name, cr.spec)))
  {
    var instance := Decode(key, cr.spec, cr.labels, cr.annotations);
    var both := GenerateAndEncode(instance, monitorImage, cr);
    r := if both.None? then None else Some((both.value.0, cr.(spec := both.value.1)));
  }

  method EnsurePod(api: ApiServer, key: Key, cr: Cr, pod: Pod, ghost monitorImage: string) returns (r: Result<PodStatus, Outcome>)
    requires cr.spec.template.containers != [] && pod == DesiredPod(key, cr, monitorImage)
    modifies api
    ensures (api.cluster, r) == SyncPod(old(api.cluster), key, cr, monitorImage, api.faults)
  {
    var got := api.GetPod(key);
    match got
    case Err(NotFound) =>
      var error := api.AddPod(key, pod);
      r := if error.Some? then Err(Failed(AddPod, error.value)) else Ok(NO_POD_STATUS);
    case Err(e) =>
      r := Err(Failed(ReadPod, e));
    case Ok(found) =>
      r := Ok(found.status);
  }

  method Reconcile(api: ApiServer, key: Key, monitorImage: string, clock: Clock) returns (outcome: Outcome)
    modifies api
    ensures (api.cluster, outcome) == Reconciled(old(api.cluster), key, monitorImage, api.faults, clock)
  {
    var got := api.GetCr(key);
    if got == Err(NotFound) {
      return Done;
    }
    if got.Err? {
      return Failed(ReadCr, got.error);
    }
    var cr := got.value;
    if IdleLabelled(cr.labels) {
      var error := api.Delete(key);
      if error.Some? {
        return Failed(Cull, error.value);
      }
      api.CountCull();
      return Done;
    }
    outcome := EnsureConfigMap(api, key, cr);
    if outcome != Done {
      return;
    }
    var assembled := Assemble(key, cr, monitorImage);
    if assembled.None? {
      return Panicked;
    }
    var (pod, instance) := assembled.value;
    var found := EnsurePod(api, key, cr, pod, monitorImage);
    if found.Err? {
      return found.error;
    }
    var status := StatusFromCopies(key.name, instance.status.containerState, found.value, clock);
    outcome := api.WriteStatus(key, instance.(status := status));
  }

  // ---- what every reconcile keeps ------------------------------------------------

  /** `d` is `c` with at most the status of one resource written, and pods and ConfigMaps added or synced for it. */
  ghost predicate OnlyStatusWritten(c: Cluster, d: Cluster, key: Key) {
    && d.crs.Keys == c.crs.Keys
    && (forall k :: k in c.crs && k != key ==> d.crs[k] == c.crs[k])
    && (key in c.crs ==> d.crs[key] == c.crs[key].(status := d.crs[key].status, version := d.crs[key].version))
    && (forall k :: k in c.pods ==> k in d.pods && d.pods[k] == c.pods[k])
    && (forall k :: k in d.pods && k !in c.pods ==> k == key)
    && (forall k :: k != key ==> (k in d.configMaps <==> k in c.configMaps))
    && (forall k :: k != key && k in c.configMaps ==> d.configMaps[k] == c.configMaps[k])
    && d.culls == c.culls && d.nextUid == c.nextUid
  }

  lemma StatusWrittenTwice(c: Cluster, d: Cluster, e: Cluster, key: Key)
    requires OnlyStatusWritten(c, d, key) && OnlyStatusWritten(d, e, key)
    ensures OnlyStatusWritten(c, e, key)
  {
  }

  lemma SameCluster(c: Cluster, key: Key)
    ensures OnlyStatusWritten(c, c, key)
  {
  }

  lemma ConfigMapStored(c: Cluster, key: Key, files: Files)
    ensures OnlyStatusWritten(c, c.(configMaps := c.configMaps[key := files]), key)
  {
  }

  lemma ConfigMapStep(c: Cluster, key: Key, cr: Cr, faults: Faults)
    ensures OnlyStatusWritten(c, SyncConfigMap(c, key, cr, faults).0, key)
    ensures SyncConfigMap(c, key, cr, faults).0.pods == c.pods && SyncConfigMap(c, key, cr, faults).0.crs == c.crs
  {
    var d := SyncConfigMap(c, key, cr, faults).0;
    if d == c {
      SameCluster(c, key);
    } else {
      ConfigMapStored(c, key, DesiredConfigMap(key, cr));
    }
  }

  lemma PodStored(c: Cluster, key: Key, pod: Pod)
    requires key !in c.pods
    ensures OnlyStatusWritten(c, c.(pods := c.pods[key := pod]), key)
  {
  }

  lemma PodStep(c: Cluster, key: Key, cr: Cr, monitorImage: string, faults: Faults)
    requires cr.spec.template.containers != []
    ensures OnlyStatusWritten(c, SyncPod(c, key, cr, monitorImage, faults).0, key)
    ensures var d := SyncPod(c, key, cr, monitorImage, faults).0;
            d.crs == c.crs && d.configMaps == c.configMaps
            && (key !in d.pods || key in c.pods || d.pods[key] == DesiredPod(key, cr, monitorImage).(status := PENDING))
  {
    SameCluster(c, key);
    if key !in c.pods {
      PodStored(c, key, DesiredPod(key, cr, monitorImage).(status := PENDING));
    }
  }

  lemma StatusStep(c: Cluster, key: Key, body: Cr, faults: Faults)
    ensures OnlyStatusWritten(c, SyncStatus(c, key, body, faults).0, key)
    ensures SyncStatus(c, key, body, faults).0.pods == c.pods && SyncStatus(c, key, body, faults).0.configMaps == c.configMaps
  {
  }

  lemma SyncedKeeps(c: Cluster, key: Key, cr: Cr, monitorImage: string, faults: Faults, clock: Clock)
    ensures var d := Synced(c, key, cr, monitorImage, faults, clock).0;
            && OnlyStatusWritten(c, d, key)
            && (key in d.pods && key !in c.pods ==>
                  cr.spec.template.containers != [] && d.pods[key] == DesiredPod(key, cr, monitorImage).(status := PENDING))
  {
    var (c1, synced) := SyncConfigMap(c, key, cr, faults);
    ConfigMapStep(c, key, cr, faults);
    if synced == Done && cr.spec.template.containers != [] {
      var (c2, pod) := SyncPod(c1, key, cr, monitorImage, faults);
      PodStep(c1, key, cr, monitorImage, faults);
      StatusWrittenTwice(c, c1, c2, key);
      if pod.Ok? {
        var body := StatusBody(key, cr, pod.value, clock);
        StatusStep(c2, key, body, faults);
        StatusWrittenTwice(c, c2, SyncStatus(c2, key, body, faults).0, key);
      }
    }
  }

  /** Whatever calls fail, a reconcile either culls an idle-labelled resource, and then changes nothing
      else, or leaves every stored label, annotation and spec as it was. A pod it adds is generated
      from the stored resource. */
  lemma ReconcileKeeps(c: Cluster, key: Key, monitorImage: string, faults: Faults, clock: Clock)
    ensures var d := Reconciled(c, key, monitorImage, faults, clock).0;
            || (key in c.crs && IdleLabelled(c.crs[key].labels) && d == c.(crs := c.crs - {key}, culls := c.culls + 1))
            || OnlyStatusWritten(c, d, key)
    ensures var d := Reconciled(c, key, monitorImage, faults, clock).0;
            key in d.pods && key !in c.pods ==>
              && key in c.crs && c.crs[key].spec.template.containers != []
              && d.pods[key] == DesiredPod(key, c.crs[key], monitorImage).(status := PENDING)
  {
    if key in c.crs {
      SyncedKeeps(c, key, c.crs[key], monitorImage, faults, clock);
    }
  }

  /** Sent to the main endpoint, the same body would rewrite the stored spec, except when container 0
      already has the resource's name and no connection is configured. */
  lemma MainEndpointWouldDrift(c: Cluster, key: Key, pod: PodStatus, clock: Clock)
    requires key in c.crs && c.crs[key].spec.template.containers != []
    ensures var body, spec := StatusBody(key, c.crs[key], pod, clock), c.crs[key].spec;
            && UpdateStatus(c, key, body).Ok? && UpdateStatus(c, key, body).value.crs[key].spec == spec
            && ReplaceCr(c, key, body).Ok?
            && (ReplaceCr(c, key, body).value.crs[key].spec == spec
                <==> spec.connection == NO_CONNECTION && spec.template.containers[0].name == key.name)
  {
    var spec := c.crs[key].spec;
    var first := spec.template.containers[0];
    var after := SpecAfter(key.name, spec);
    assert after.template.containers[0] == MainContainer(key.name, spec);
    if spec.connection != NO_CONNECTION {
      assert |after.template.containers[0].env| == |first.env| + 1;
    } else if first.name == key.name {
      assert after.template.containers == spec.template.containers;
    }
  }

  // ---- convergence ------------------------------------------------

  /** Everything a reconcile of `key` looks for is in place. */
  ghost predicate InPlace(c: Cluster, key: Key, monitorImage: string) {
    && key in c.crs && !IdleLabelled(c.crs[key].labels) && c.crs[key].spec.template.containers != []
    && key in c.pods
    && (c.crs[key].spec.connection != NO_CONNECTION ==>
          key in c.configMaps && !OutOfDate(DesiredConfigMap(key, c.crs[key]), c.configMaps[key]))
  }

  lemma DesiredIsCurrent(f: Files)
    ensures !OutOfDate(f, f)
  {
  }

  lemma ConfigMapInPlace(c: Cluster, key: Key, cr: Cr, faults: Faults)
    requires forall call :: !faults(call)
    ensures var (d, outcome) := SyncConfigMap(c, key, cr, faults);
            outcome == Done && (cr.spec.connection != NO_CONNECTION ==>
              key in d.configMaps && !OutOfDate(DesiredConfigMap(key, cr), d.configMaps[key]))
  {
    DesiredIsCurrent(DesiredConfigMap(key, cr));
  }

  lemma SameDesire(key: Key, cr: Cr, later: Cr)
    requires later == cr.(status := later.status, version := later.version)
    ensures DesiredConfigMap(key, later) == DesiredConfigMap(key, cr)
  {
  }

  lemma PutInPlace(c: Cluster, key: Key, monitorImage: string, faults: Faults, clock: Clock)
    requires key in c.crs && !IdleLabelled(c.crs[key].labels) && c.crs[key].spec.template.containers != []
    requires forall call :: !faults(call)
    ensures var (d, outcome) := Reconciled(c, key, monitorImage, faults, clock);
            outcome == Done && InPlace(d, key, monitorImage)
  {
    var cr := c.crs[key];
    ConfigMapInPlace(c, key, cr, faults);
    ConfigMapStep(c, key, cr, faults);
    var c1 := SyncConfigMap(c, key, cr, faults).0;
    PodStep(c1, key, cr, monitorImage, faults);
    var (c2, pod) := SyncPod(c1, key, cr, monitorImage, faults);
    var body := StatusBody(key, cr, pod.value, clock);
    StatusStep(c2, key, body, faults);
    SameDesire(key, cr, SyncStatus(c2, key, body, faults).0.crs[key]);
  }

  /** With everything in place, a reconcile writes the status and nothing else. */
  lemma OnlyTheStatus(c: Cluster, key: Key, monitorImage: string, faults: Faults, clock: Clock)
    requires InPlace(c, key, monitorImage) && forall call :: !faults(call)
    ensures Reconciled(c, key, monitorImage, faults, clock) ==
              var status := StatusOf(key.name, c.crs[key].status.containerState, c.pods[key].status, clock);
              (Put(c, key, c.crs[key].(status := status)), Done)
  {
  }

  /** If nothing else writes and no call fails, two reconciles put everything in place with the status
      mirroring the pod, and a third changes nothing at all exactly when the first container named
      after the resource has a state or none does, and unset condition times are filled in the same
      second as before. */
  lemma Converges(c: Cluster, key: Key, monitorImage: string, faults: Faults, first: Clock, second: Clock, third: Clock)
    requires key in c.crs && !IdleLabelled(c.crs[key].labels) && c.crs[key].spec.template.containers != []
    requires forall call :: !faults(call)
    ensures var (c1, done1) := Reconciled(c, key, monitorImage, faults, first);
            var (c2, done2) := Reconciled(c1, key, monitorImage, faults, second);
            var (c3, done3) := Reconciled(c2, key, monitorImage, faults, third);
            && done1 == done2 == done3 == Done
            && InPlace(c2, key, monitorImage) && c2.pods == c1.pods && c2.configMaps == c1.configMaps
            && c2.crs[key].spec == c.crs[key].spec
            && c2.crs[key].status == StatusOf(key.name, c1.crs[key].status.containerState, c2.pods[key].status, second)
            && (c3 == c2 <==> Steady(key.name, c2.pods[key].status.containerStatuses)
                              && SameFill(c2.pods[key].status.conditions, second, third))
  {
    PutInPlace(c, key, monitorImage, faults, first);
    var c1 := Reconciled(c, key, monitorImage, faults, first).0;
    OnlyTheStatus(c1, key, monitorImage, faults, second);
    var c2 := Reconciled(c1, key, monitorImage, faults, second).0;
    ReconcileKeeps(c, key, monitorImage, faults, first);
    OnlyTheStatus(c2, key, monitorImage, faults, third);
    StatusSettles(key.name, c1.crs[key].status.containerState, c1.pods[key].status, second, third);
  }
}
