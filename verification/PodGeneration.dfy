/** `generatePod` (kernelmanager_controller.go:251-351) over Go slices and maps: the pod it returns
    shares the container array and the label map with its argument, and writes through to it. */
module PodGeneration {
  import opened KernelResource
  import opened Numerals

  // ---- the pod as a value ------------------------------------------------

  function MountPath(spec: Spec): string {
    if spec.mountPath == "" then "/tmp" else spec.mountPath
  }

  function ConnectionEnv(name: string, spec: Spec): EnvVar {
    EnvVar("KERNEL_CONNECTION_FILE_PATH", MountPath(spec) + "/" + name + ".json")
  }

  /** Container 0 after generation: renamed, and pointed at the connection file if there is one. */
  function MainContainer(name: string, spec: Spec): Container
    requires spec.template.containers != []
  {
    var c := spec.template.containers[0].(name := name);
    if spec.connection == NO_CONNECTION then c
    else c.(env := c.env + [ConnectionEnv(name, spec)],
            mounts := c.mounts + [VolumeMount("connection-file-volume", MountPath(spec))])
  }

  predicate Monitored(spec: Spec, monitorImage: string) {
    monitorImage != "" && spec.idleTimeoutSeconds != 0 && spec.connection != NO_CONNECTION
  }

  function CullingInterval(spec: Spec): int32 {
    if spec.cullingIntervalSeconds == 0 then DEFAULT_CULLING_INTERVAL else spec.cullingIntervalSeconds
  }

  function MonitorEnv(key: Key, spec: Spec): seq<EnvVar> {
    [EnvVar("NAME", key.name), EnvVar("NAMESPACE", key.namespace),
     EnvVar("IDLE_TIMEOUT", PrintInt(spec.idleTimeoutSeconds as int)),
     EnvVar("CULLING_INTERVAL", PrintInt(CullingInterval(spec) as int))]
  }

  function Sidecar(key: Key, spec: Spec, monitorImage: string): Container {
    Container("monitor", monitorImage, MonitorEnv(key, spec), [VolumeMount("connection-file-volume", "/tmp")], "")
  }

  function GeneratedSpec(key: Key, spec: Spec, monitorImage: string): PodSpec
    requires spec.template.containers != []
  {
    var t := spec.template;
    PodSpec(
      [MainContainer(key.name, spec)] + t.containers[1..] +
        (if Monitored(spec, monitorImage) then [Sidecar(key, spec, monitorImage)] else []),
      t.volumes + (if spec.connection == NO_CONNECTION then [] else [Volume("connection-file-volume", FromConfigMap(key.name))]),
      if Monitored(spec, monitorImage) && t.serviceAccount == "" then DEFAULT_SERVICE_ACCOUNT else t.serviceAccount,
      t.rest)
  }

  /** What generation leaves behind in its argument: container 0 is the generated one. */
  function SpecAfter(name: string, spec: Spec): Spec
    requires spec.template.containers != []
  {
    spec.(template := spec.template.(containers := [MainContainer(name, spec)] + spec.template.containers[1..]))
  }

  // ---- the heap ------------------------------------------------

  /** A slice header; the capacity is the length of the backing array. */
  datatype Slice<T> = Slice(arr: array<T>, len: nat)

  ghost predicate Fits<T>(s: Slice<T>) { s.len <= s.arr.Length }

  ghost function Elements<T>(s: Slice<T>): seq<T>
    requires Fits(s)
    reads s.arr
  {
    s.arr[..s.len]
  }

  /** Go's `append`: into spare capacity if there is some, else into a new array. */
  method Append<T>(s: Slice<T>, x: T) returns (r: Slice<T>)
    requires Fits(s)
    modifies s.arr
    ensures Fits(r) && Elements(r) == old(Elements(s)) + [x] && Elements(s) == old(Elements(s))
    ensures r.len == s.len + 1 && r.arr[s.len] == x
    ensures forall i :: 0 <= i < s.len ==> r.arr[i] == old(s.arr[i]) && s.arr[i] == old(s.arr[i])
    ensures r.arr == s.arr || fresh(r.arr)
  {
    if s.len < s.arr.Length {
      s.arr[s.len] := x;
      r := Slice(s.arr, s.len + 1);
    } else {
      var grown := new T[s.len + 1](i requires 0 <= i <= s.len reads s.arr => if i < s.len then s.arr[i] else x);
      r := Slice(grown, s.len + 1);
      assert grown[..] == s.arr[..s.len] + [x];
    }
  }

  /** A container as a Go struct value: its env and mounts are slice headers. */
  datatype GoContainer = GoContainer(name: string, image: string, env: Slice<EnvVar>, mounts: Slice<VolumeMount>, rest: Opaque)

  class StringMap {
    var entries: map<string, string>

    constructor (m: map<string, string>)
      ensures entries == m
    {
      entries := m;
    }
  }

  /** `instance.Spec.Template.Spec`, `pod.Spec`: assigning one to the other copies the headers only. */
  datatype GoPodSpec = GoPodSpec(containers: Slice<GoContainer>, volumes: Slice<Volume>, serviceAccount: string, rest: Opaque)

  /** The KernelManager object a reconcile works on. */
  class Instance {
    var key: Key
    var labels: StringMap?
    var annotations: StringMap?
    var template: GoPodSpec
    var idleTimeoutSeconds: int32
    var cullingIntervalSeconds: int32
    var connection: ConnectionConfig
    var mountPath: string

    constructor (key: Key, labels: StringMap?, annotations: StringMap?, template: GoPodSpec, spec: Spec)
      ensures this.key == key && this.labels == labels && this.annotations == annotations && this.template == template
      ensures this.idleTimeoutSeconds == spec.idleTimeoutSeconds && this.cullingIntervalSeconds == spec.cullingIntervalSeconds
      ensures this.connection == spec.connection && this.mountPath == spec.mountPath
    {
      this.key, this.labels, this.annotations, this.template := key, labels, annotations, template;
      idleTimeoutSeconds, cullingIntervalSeconds := spec.idleTimeoutSeconds, spec.cullingIntervalSeconds;
      connection, mountPath := spec.connection, spec.mountPath;
    }
  }

  class PodObject {
    var key: Key
    var labels: StringMap?
    var annotations: StringMap?
    var spec: GoPodSpec

    constructor (key: Key, labels: StringMap?, annotations: StringMap?, spec: GoPodSpec)
      ensures this.key == key && this.labels == labels && this.annotations == annotations && this.spec == spec
    {
      this.key, this.labels, this.annotations, this.spec := key, labels, annotations, spec;
    }
  }

  ghost predicate ContainerIs(c: GoContainer, v: Container)
    reads c.env.arr, c.mounts.arr
  {
    && Fits(c.env) && Fits(c.mounts)
    && v == Container(c.name, c.image, Elements(c.env), Elements(c.mounts), c.rest)
  }

  /** The arrays behind the containers' env and mounts. */
  ghost function Backing(cs: Slice<GoContainer>): set<object>
    requires Fits(cs)
    reads cs.arr
  {
    (set i | 0 <= i < cs.len :: cs.arr[i].env.arr as object) + (set i | 0 <= i < cs.len :: cs.arr[i].mounts.arr as object)
  }

  /** No two slices of the object share an array, as in an object that was just decoded. */
  ghost predicate Separate(cs: Slice<GoContainer>)
    requires Fits(cs)
    reads cs.arr
  {
    forall i, j :: 0 <= i < j < cs.len ==> cs.arr[i].env.arr != cs.arr[j].env.arr && cs.arr[i].mounts.arr != cs.arr[j].mounts.arr
  }

  ghost predicate ContainersAre(cs: Slice<GoContainer>, vs: seq<Container>)
    reads cs.arr, if Fits(cs) then Backing(cs) else {}
  {
    && Fits(cs) && Separate(cs) && |vs| == cs.len
    && forall i :: 0 <= i < cs.len ==> ContainerIs(cs.arr[i], vs[i])
  }

  /** `p` holds exactly the pod spec `v`. */
  ghost predicate PodSpecIs(p: GoPodSpec, v: PodSpec)
    reads p.containers.arr, p.volumes.arr, if Fits(p.containers) then Backing(p.containers) else {}
  {
    && ContainersAre(p.containers, v.containers)
    && Fits(p.volumes) && v.volumes == Elements(p.volumes) && v.serviceAccount == p.serviceAccount && v.rest == p.rest
  }

  ghost predicate InstanceIs(o: Instance, spec: Spec)
    reads o, o.template.containers.arr, o.template.volumes.arr
    reads if Fits(o.template.containers) then Backing(o.template.containers) else {}
  {
    && PodSpecIs(o.template, spec.template)
    && o.idleTimeoutSeconds == spec.idleTimeoutSeconds && o.cullingIntervalSeconds == spec.cullingIntervalSeconds
    && o.connection == spec.connection && o.mountPath == spec.mountPath
  }

  /** `containers[0].Name = name`, seen through every header of the same array. */
  method RenameFirst(cs: Slice<GoContainer>, name: string, ghost vs: seq<Container>)
    requires ContainersAre(cs, vs) && vs != []
    modifies cs.arr
    ensures ContainersAre(cs, vs[0 := vs[0].(name := name)])
    ensures Backing(cs) == old(Backing(cs))
  {
    cs.arr[0] := cs.arr[0].(name := name);
    assert forall i :: 0 <= i < cs.len ==> cs.arr[i].env == old(cs.arr[i].env) && cs.arr[i].mounts == old(cs.arr[i].mounts);
  }

  /** `containers[0].Env = append(containers[0].Env, e)` */
  method AppendEnv(cs: Slice<GoContainer>, e: EnvVar, ghost vs: seq<Container>)
    requires ContainersAre(cs, vs) && vs != []
    modifies cs.arr, cs.arr[0].env.arr
    ensures ContainersAre(cs, vs[0 := vs[0].(env := vs[0].env + [e])])
    ensures fresh(Backing(cs) - old(Backing(cs))) && cs.arr[0].mounts == old(cs.arr[0].mounts)
  {
    var env := Append(cs.arr[0].env, e);
    cs.arr[0] := cs.arr[0].(env := env);
  }

  /** `containers[0].VolumeMounts = append(containers[0].VolumeMounts, m)` */
  method AppendMount(cs: Slice<GoContainer>, m: VolumeMount, ghost vs: seq<Container>)
    requires ContainersAre(cs, vs) && vs != []
    modifies cs.arr, cs.arr[0].mounts.arr
    ensures ContainersAre(cs, vs[0 := vs[0].(mounts := vs[0].mounts + [m])])
    ensures fresh(Backing(cs) - old(Backing(cs)))
  {
    var mounts := Append(cs.arr[0].mounts, m);
    cs.arr[0] := cs.arr[0].(mounts := mounts);
  }

  /** The sidecar of kernelmanager_controller.go:310-339, on arrays of its own. */
  method NewSidecar(key: Key, idleTimeout: int32, interval: int32, monitorImage: string, ghost spec: Spec)
      returns (c: GoContainer)
    requires idleTimeout == spec.idleTimeoutSeconds && interval == CullingInterval(spec)
    ensures fresh(c.env.arr) && fresh(c.mounts.arr)
    ensures ContainerIs(c, Sidecar(key, spec, monitorImage))
  {
    var envs := new EnvVar[4](_ => EnvVar("", ""));
    envs[0] := EnvVar("NAME", key.name);
    envs[1] := EnvVar("NAMESPACE", key.namespace);
    envs[2] := EnvVar("IDLE_TIMEOUT", PrintInt(idleTimeout as int));
    envs[3] := EnvVar("CULLING_INTERVAL", PrintInt(interval as int));
    var mounts := new VolumeMount[1](_ => VolumeMount("connection-file-volume", "/tmp"));
    c := GoContainer("monitor", monitorImage, Slice(envs, 4), Slice(mounts, 1), "");
    assert envs[..4] == MonitorEnv(key, spec);
    assert mounts[..1] == [VolumeMount("connection-file-volume", "/tmp")];
  }

  /** `pod.Spec.Containers = append(pod.Spec.Containers, c)`: in spare capacity the new container
      lands in the shared array, past the length of the argument's header. */
  method AppendContainer(cs: Slice<GoContainer>, c: GoContainer, ghost vs: seq<Container>, ghost v: Container)
    returns (r: Slice<GoContainer>)
    requires ContainersAre(cs, vs) && ContainerIs(c, v)
    requires forall i :: 0 <= i < cs.len ==> cs.arr[i].env.arr != c.env.arr && cs.arr[i].mounts.arr != c.mounts.arr
    modifies cs.arr
    ensures ContainersAre(cs, vs)
    ensures ContainersAre(r, vs + [v])
  {
    r := Append(cs, c);
  }

  /** The loop of kernelmanager_controller.go:295-298; the pod's label map is the argument's own. */
  method CopyLabels(labels: StringMap?)
    modifies labels
    ensures labels != null ==> labels.entries == old(labels.entries)
  {
    if labels != null {
      var todo := labels.entries.Keys;
      while todo != {}
        invariant todo <= labels.entries.Keys && labels.entries == old(labels.entries)
        decreases |todo|
      {
        var k :| k in todo;
        labels.entries := labels.entries[k := labels.entries[k]];
        todo := todo - {k};
      }
    }
  }

  /** The three writes to container 0, one after the other. */
  lemma MainContainerSteps(name: string, spec: Spec, path: string)
    requires spec.template.containers != [] && spec.connection != NO_CONNECTION && path == MountPath(spec)
    ensures var v := spec.template.containers[0];
            SpecAfter(name, spec).template.containers == spec.template.containers
              [0 := v.(name := name)]
              [0 := v.(name := name, env := v.env + [EnvVar("KERNEL_CONNECTION_FILE_PATH", path + "/" + name + ".json")])]
              [0 := v.(name := name, env := v.env + [EnvVar("KERNEL_CONNECTION_FILE_PATH", path + "/" + name + ".json")],
                       mounts := v.mounts + [VolumeMount("connection-file-volume", path)])]
  {
  }

  /** Container 0 (kernelmanager_controller.go:263-278 and 288-291), changed in place. */
  method PointAtConnection(cs: Slice<GoContainer>, name: string, mountPathField: string, ghost spec: Spec)
    requires ContainersAre(cs, spec.template.containers) && spec.template.containers != []
    requires mountPathField == spec.mountPath && spec.connection != NO_CONNECTION
    modifies cs.arr, Backing(cs)
    ensures ContainersAre(cs, SpecAfter(name, spec).template.containers)
  {
    var mountPath := mountPathField;
    if mountPath == "" {
      mountPath := "/tmp";
    }
    var env := EnvVar("KERNEL_CONNECTION_FILE_PATH", mountPath + "/" + name + ".json");
    var mount := VolumeMount("connection-file-volume", mountPath);
    ghost var vs := spec.template.containers;
    RenameFirst(cs, name, vs);
    vs := vs[0 := vs[0].(name := name)];
    AppendEnv(cs, env, vs);
    vs := vs[0 := vs[0].(env := vs[0].env + [env])];
    AppendMount(cs, mount, vs);
    MainContainerSteps(name, spec, mountPath);
  }

  /** kernelmanager_controller.go:263-292: the containers are changed in place, the volumes only
      behind the pod's own header. */
  method PrepareTemplate(t: GoPodSpec, name: string, configured: bool, mountPathField: string, ghost spec: Spec)
    returns (volumes: Slice<Volume>)
    requires PodSpecIs(t, spec.template) && spec.template.containers != []
    requires configured == (spec.connection != NO_CONNECTION) && mountPathField == spec.mountPath
    modifies t.containers.arr, t.volumes.arr, Backing(t.containers)
    ensures PodSpecIs(t, SpecAfter(name, spec).template)
    ensures Fits(volumes) && Elements(volumes) == spec.template.volumes +
              if configured then [Volume("connection-file-volume", FromConfigMap(name))] else []
  {
    volumes := t.volumes;
    if configured {
      PointAtConnection(t.containers, name, mountPathField, spec);
      volumes := Append(volumes, Volume("connection-file-volume", FromConfigMap(name)));
    } else {
      RenameFirst(t.containers, name, spec.template.containers);
      assert SpecAfter(name, spec).template.containers
          == spec.template.containers[0 := spec.template.containers[0].(name := name)];
    }
  }

  /** kernelmanager_controller.go:303-349 */
  method AddMonitor(instance: Instance, cs: Slice<GoContainer>, account: string, monitorImage: string,
                    ghost spec: Spec, ghost vs: seq<Container>)
    returns (containers: Slice<GoContainer>, serviceAccount: string)
    requires ContainersAre(cs, vs)
    requires instance.idleTimeoutSeconds == spec.idleTimeoutSeconds && instance.connection == spec.connection
    requires instance.cullingIntervalSeconds == spec.cullingIntervalSeconds
    modifies cs.arr
    ensures ContainersAre(cs, vs)
    ensures ContainersAre(containers,
              vs + if Monitored(spec, monitorImage) then [Sidecar(instance.key, spec, monitorImage)] else [])
    ensures serviceAccount == if Monitored(spec, monitorImage) && account == "" then DEFAULT_SERVICE_ACCOUNT else account
  {
    containers, serviceAccount := cs, account;
    if monitorImage != "" && instance.idleTimeoutSeconds != 0 && instance.connection != NO_CONNECTION {
      var interval := instance.cullingIntervalSeconds;
      if interval == 0 {
        interval := DEFAULT_CULLING_INTERVAL;
      }
      var sidecar := NewSidecar(instance.key, instance.idleTimeoutSeconds, interval, monitorImage, spec);
      containers := AppendContainer(cs, sidecar, vs, Sidecar(instance.key, spec, monitorImage));
      if serviceAccount == "" {
        serviceAccount := DEFAULT_SERVICE_ACCOUNT;
      }
    } else {
      assert vs + [] == vs;
    }
  }

  /** The pod's spec: a copy of the argument's headers, then the writes above. */
  method AssembleSpec(instance: Instance, monitorImage: string, ghost spec: Spec) returns (podSpec: GoPodSpec)
    requires InstanceIs(instance, spec) && spec.template.containers != []
    modifies instance.template.containers.arr, instance.template.volumes.arr, Backing(instance.template.containers)
    ensures PodSpecIs(podSpec, GeneratedSpec(instance.key, spec, monitorImage))
    ensures InstanceIs(instance, SpecAfter(instance.key.name, spec))
  {
    var t := instance.template;
    var volumes := PrepareTemplate(t, instance.key.name, instance.connection != NO_CONNECTION, instance.mountPath, spec);
    var containers, serviceAccount := AddMonitor(instance, t.containers, t.serviceAccount, monitorImage, spec,
                                                 SpecAfter(instance.key.name, spec).template.containers);
    podSpec := GoPodSpec(containers, volumes, serviceAccount, t.rest);
    assert PodSpecIs(t, SpecAfter(instance.key.name, spec).template);
  }

  /** The pod object, with the argument's own label and annotation maps. */
  method BuildPod(instance: Instance, monitorImage: string, ghost spec: Spec) returns (pod: PodObject)
    requires InstanceIs(instance, spec) && spec.template.containers != []
    modifies instance.template.containers.arr, instance.template.volumes.arr, Backing(instance.template.containers)
    ensures InstanceIs(instance, SpecAfter(instance.key.name, spec))
    ensures fresh(pod) && pod.key == instance.key && pod.labels == instance.labels && pod.annotations == instance.annotations
    ensures PodSpecIs(pod.spec, GeneratedSpec(instance.key, spec, monitorImage))
  {
    var podSpec := AssembleSpec(instance, monitorImage, spec);
    pod := new PodObject(instance.key, instance.labels, instance.annotations, podSpec);
  }

  /** The loop changes neither the pod nor the instance. */
  method CopyPodLabels(pod: PodObject, instance: Instance, ghost spec: Spec, ghost podSpec: PodSpec)
    requires InstanceIs(instance, spec) && PodSpecIs(pod.spec, podSpec)
    modifies pod.labels
    ensures InstanceIs(instance, spec) && PodSpecIs(pod.spec, podSpec)
    ensures pod.labels != null ==> pod.labels.entries == old(pod.labels.entries)
  {
    CopyLabels(pod.labels);
  }

  /** `generatePod`; null stands for the index panic on a template without containers. The pod holds
      the generated spec, and the argument the spec left after the writes through shared memory. */
  method GeneratePod(instance: Instance, monitorImage: string, ghost spec: Spec) returns (pod: PodObject?)
    requires InstanceIs(instance, spec)
    modifies instance.template.containers.arr, instance.template.volumes.arr, Backing(instance.template.containers),
        instance.labels
    ensures pod == null <==> spec.template.containers == []
    ensures instance.labels != null ==> instance.labels.entries == old(instance.labels.entries)
    ensures InstanceIs(instance, if pod == null then spec else SpecAfter(instance.key.name, spec))
    ensures pod != null ==> fresh(pod) && pod.key == instance.key
    ensures pod != null ==> pod.labels == instance.labels && pod.annotations == instance.annotations
    ensures pod != null ==> PodSpecIs(pod.spec, GeneratedSpec(instance.key, spec, monitorImage))
  {
    if instance.template.containers.len == 0 {
      pod := null;
    } else {
      pod := BuildPod(instance, monitorImage, spec);
      CopyPodLabels(pod, instance, SpecAfter(instance.key.name, spec), GeneratedSpec(instance.key, spec, monitorImage));
    }
  }

  // ---- fresh copies ------------------------------------------------

  /** Decodes a slice: a new array per slice, as deep copies have. */
  method NewSlice<T(0)>(v: seq<T>) returns (s: Slice<T>)
    ensures Fits(s) && Elements(s) == v && fresh(s.arr)
  {
    var arr := new T[|v|](i requires 0 <= i < |v| => v[i]);
    s := Slice(arr, |v|);
  }

  method NewContainers(vs: seq<Container>) returns (cs: Slice<GoContainer>)
    ensures ContainersAre(cs, vs) && fresh(cs.arr) && fresh(Backing(cs))
  {
    var built: seq<GoContainer> := [];
    for i := 0 to |vs|
      invariant |built| == i
      invariant forall j :: 0 <= j < i ==> ContainerIs(built[j], vs[j]) && fresh(built[j].env.arr) && fresh(built[j].mounts.arr)
      invariant forall j, k :: 0 <= j < k < i ==>
          built[j].env.arr != built[k].env.arr && built[j].mounts.arr != built[k].mounts.arr
    {
      var env := NewSlice(vs[i].env);
      var mounts := NewSlice(vs[i].mounts);
      built := built + [GoContainer(vs[i].name, vs[i].image, env, mounts, vs[i].rest)];
    }
    var arr := new GoContainer[|vs|](i requires 0 <= i < |built| => built[i]);
    cs := Slice(arr, |vs|);
  }

  /** What the client hands to a reconcile: a private copy of the stored object. */
  method Decode(key: Key, spec: Spec, labels: map<string, string>, annotations: map<string, string>) returns (o: Instance)
    ensures fresh(o) && o.key == key && InstanceIs(o, spec)
    ensures fresh(o.template.containers.arr) && fresh(o.template.volumes.arr) && fresh(Backing(o.template.containers))
    ensures o.labels != null && fresh(o.labels) && o.labels.entries == labels
    ensures o.annotations != null && fresh(o.annotations) && o.annotations != o.labels && o.annotations.entries == annotations
  {
    var labelMap := new StringMap(labels);
    var annotationMap := new StringMap(annotations);
    var containers := NewContainers(spec.template.containers);
    var volumes := NewSlice(spec.template.volumes);
    o := new Instance(key, labelMap, annotationMap,
                      GoPodSpec(containers, volumes, spec.template.serviceAccount, spec.template.rest), spec);
  }

  /** Generating again from an object that was already used gives another pod exactly when a
      connection is configured: the connection variable and mount would be appended twice. */
  lemma ReuseShows(key: Key, spec: Spec, monitorImage: string)
    requires spec.template.containers != []
    ensures GeneratedSpec(key, SpecAfter(key.name, spec), monitorImage) == GeneratedSpec(key, spec, monitorImage)
            <==> spec.connection == NO_CONNECTION
  {
    var again := SpecAfter(key.name, spec);
    assert again.template.containers[1..] == spec.template.containers[1..];
    if spec.connection != NO_CONNECTION {
      assert |MainContainer(key.name, again).env| == |MainContainer(key.name, spec).env| + 1;
      assert GeneratedSpec(key, again, monitorImage).containers[0] == MainContainer(key.name, again);
      assert GeneratedSpec(key, spec, monitorImage).containers[0] == MainContainer(key.name, spec);
    } else {
      assert MainContainer(key.name, again) == MainContainer(key.name, spec);
    }
  }
}
