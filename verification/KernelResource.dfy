/** The KernelManager resource (kernelmanager_types.go) and the parts of a pod the controller touches.
    What the controller never looks into is kept as an opaque text with equality. */
module KernelResource {
  import opened Outcomes

  newtype int32 = x: int | -0x8000_0000 <= x < 0x8000_0000

  type Opaque = string

  /** A namespaced name. */
  datatype Key = Key(namespace: string, name: string)

  datatype EnvVar = EnvVar(name: string, value: string)

  datatype VolumeMount = VolumeMount(name: string, mountPath: string)

  datatype VolumeSource = FromConfigMap(configMap: string) | OtherSource(source: Opaque)

  datatype Volume = Volume(name: string, source: VolumeSource)

  datatype Container = Container(name: string, image: string, env: seq<EnvVar>, mounts: seq<VolumeMount>, rest: Opaque)

  datatype PodSpec = PodSpec(containers: seq<Container>, volumes: seq<Volume>, serviceAccount: string, rest: Opaque)

  datatype ConnectionConfig = ConnectionConfig(
    ip: string, shellPort: int32, iopubPort: int32, stdinPort: int32, controlPort: int32, hbPort: int32,
    kernelId: string, kernelName: string, key: string, transport: string, signatureScheme: string)

  /** The Go zero value, which means that no connection was configured. */
  const NO_CONNECTION := ConnectionConfig("", 0, 0, 0, 0, 0, "", "", "", "", "")

  datatype Spec = Spec(template: PodSpec, idleTimeoutSeconds: int32, cullingIntervalSeconds: int32,
                       connection: ConnectionConfig, mountPath: string)

  /** A time as Go holds it: the zero time, or a second. */
  datatype Time = ZeroTime | At(second: int)

  /** At most one part is set; the zero value has none. */
  datatype ContainerState = ContainerState(waiting: Option<Opaque>, running: Option<Opaque>, terminated: Option<Opaque>)

  const NO_STATE := ContainerState(None, None, None)

  datatype Condition = Condition(ctype: string, status: string, probed: Time, changed: Time, reason: string, message: string)

  datatype Status = Status(conditions: seq<Condition>, containerState: ContainerState, phase: string, ip: string)

  const NO_STATUS := Status([], NO_STATE, "", "")

  datatype ContainerStatus = ContainerStatus(name: string, state: ContainerState)

  /** A pod's status as the kubelet reports it. */
  datatype PodStatus = PodStatus(phase: string, ip: string, conditions: seq<Condition>,
                                 containerStatuses: seq<ContainerStatus>, rest: Opaque)

  const NO_POD_STATUS := PodStatus("", "", [], [], "")

  /** A KernelManager as stored: identity, version, metadata, spec and status. */
  datatype Cr = Cr(uid: nat, version: nat, labels: map<string, string>, annotations: map<string, string>,
                   spec: Spec, status: Status)

  datatype Pod = Pod(labels: map<string, string>, annotations: map<string, string>, spec: PodSpec, status: PodStatus)

  const IDLE_LABEL := "jupyrator.org/kernelmanager-idle"
  const ACTIVITY_ANNOTATION := "jupyrator.org/lastActivityTime"

  /** `instance.Labels[KernelManagerIdleLabel] == "true"` */
  predicate IdleLabelled(labels: map<string, string>) {
    IDLE_LABEL in labels && labels[IDLE_LABEL] == "true"
  }

  const DEFAULT_SERVICE_ACCOUNT := "default-editor"
  const DEFAULT_CULLING_INTERVAL: int32 := 60
}
