/** The three programs around one store, as a machine of small steps: the controller's reconciles
    call by call (kernelmanager_controller.go:96-193), the two threads of every monitor
    (monitor/main.py:37-143), and clients, users and the cluster around them. */
module Protocol {
  import opened Outcomes
  import opened KernelResource
  import opened ClusterStore
  import opened Reconciler
  import opened PodGeneration
  import StatusMirror
  import ConnectionAgreement
  import ActivityTime
  import Numerals

  /** A resource whose template has containers, so that generating its pod does not panic. */
  type Runnable = cr: Cr | cr.spec.template.containers != []
    witness Cr(0, 0, map[], map[], Spec(PodSpec([Container("", "", [], [], "")], [], "", ""), 0, 0, NO_CONNECTION, ""), NO_STATUS)

  /** How far a reconcile has come, with the resource as it read it. */
  datatype Worker =
    | WillCull(cr: Cr)
    | HasCr(cr: Cr)
    | HasConfigMap(runnable: Runnable)
    | WillAddPod(runnable: Runnable)
    | WillWriteStatus(runnable: Runnable, pod: PodStatus)

  /** The main thread of a monitor (monitor/main.py:131-143). */
  datatype Main = Sleeping | HasClock(now: real) | WillLabel | HasSnapshot(cr: Cr)

  /** The activity thread (monitor/main.py:102-127). */
  datatype Activity = Listening | Touched(text: string) | HasRead(cr: Cr, text: string)

  datatype Monitor = Monitor(target: Key, timeout: int, interval: int, last: real, main: Main, activity: Activity)

  /** At most one reconcile of a key is under way. */
  datatype State = State(image: string, cluster: Cluster, workers: map<Key, Worker>, monitors: map<nat, Monitor>, clock: real)

  datatype Action =
    | Create(key: Key, labels: map<string, string>, annotations: map<string, string>, spec: Spec)
    | Edit(key: Key, labels: map<string, string>, annotations: map<string, string>, spec: Spec)
    | Delete(key: Key)
    | Work(key: Key, faults: Faults, readings: StatusMirror.Clock)
    | StartMonitor(id: nat, key: Key, container: nat)
    | StopMonitor(id: nat)
    | Watch(id: nat, fails: bool)
    | Busy(id: nat, time: ActivityTime.Moment)
    | Act(id: nat, fails: bool)
    | SetClock(now: real)
    | PodReports(key: Key, podStatus: PodStatus)
    | PodGone(key: Key)
    | ConfigMapGone(key: Key)

  // ---- the controller ------------------------------------------------

  function Leave(s: State, key: Key): State { s.(workers := s.workers - {key}) }

  function Enter(s: State, key: Key, w: Worker): State { s.(workers := s.workers[key := w]) }

  function StartWork(s: State, key: Key, faults: Faults): State {
    if faults(ReadCr) || key !in s.cluster.crs then s
    else if IdleLabelled(s.cluster.crs[key].labels) then Enter(s, key, WillCull(s.cluster.crs[key]))
    else Enter(s, key, HasCr(s.cluster.crs[key]))
  }

  function CullStep(s: State, key: Key, faults: Faults): State {
    if faults(Cull) then Leave(s, key)
    else match DeleteCr(s.cluster, key)
      case Err(_) => Leave(s, key)
      case Ok(c) => Leave(s, key).(cluster := c.(culls := c.culls + 1))
  }

  ghost function ConfigMapStep(s: State, key: Key, cr: Cr, faults: Faults): State {
    var (c, outcome) := SyncConfigMap(s.cluster, key, cr, faults);
    if outcome == Done && cr.spec.template.containers != [] then Enter(s.(cluster := c), key, HasConfigMap(cr))
    else Leave(s.(cluster := c), key)
  }

  function ReadPodStep(s: State, key: Key, cr: Runnable, faults: Faults): State {
    if faults(ReadPod) then Leave(s, key)
    else if key in s.cluster.pods then Enter(s, key, WillWriteStatus(cr, s.cluster.pods[key].status))
    else Enter(s, key, WillAddPod(cr))
  }

  function AddPodStep(s: State, key: Key, cr: Runnable, faults: Faults): State {
    if faults(AddPod) then Leave(s, key)
    else match CreatePod(s.cluster, key, DesiredPod(key, cr, s.image))
      case Err(_) => Leave(s, key)
      case Ok(c) => Enter(s.(cluster := c), key, WillWriteStatus(cr, NO_POD_STATUS))
  }

  function StatusStep(s: State, key: Key, cr: Runnable, pod: PodStatus, faults: Faults, readings: StatusMirror.Clock): State {
    Leave(s.(cluster := SyncStatus(s.cluster, key, StatusBody(key, cr, pod, readings), faults).0), key)
  }

  /** The next call of the reconcile of `key`. */
  ghost function WorkStep(s: State, key: Key, faults: Faults, readings: StatusMirror.Clock): State {
    if key !in s.workers then StartWork(s, key, faults)
    else match s.workers[key]
      case WillCull(_) => CullStep(s, key, faults)
      case HasCr(cr) => ConfigMapStep(s, key, cr, faults)
      case HasConfigMap(cr) => ReadPodStep(s, key, cr, faults)
      case WillAddPod(cr) => AddPodStep(s, key, cr, faults)
      case WillWriteStatus(cr, pod) => StatusStep(s, key, cr, pod, faults, readings)
  }

  // ---- the monitors ------------------------------------------------

  /** monitor/main.py:148-157 */
  function MonitorFor(env: seq<EnvVar>, now: real): Option<Monitor> {
    var name :- ConnectionAgreement.LookupEnv(env, "NAME");
    var namespace :- ConnectionAgreement.LookupEnv(env, "NAMESPACE");
    var timeout :- IntOr(ConnectionAgreement.LookupEnv(env, "IDLE_TIMEOUT"), 3600);
    var interval :- IntOr(ConnectionAgreement.LookupEnv(env, "CULLING_INTERVAL"), 60);
    Some(Monitor(Key(namespace, name), timeout, interval, now, Sleeping, Listening))
  }

  function IntOr(text: Option<string>, default: int): Option<int> {
    if text.None? then Some(default) else Numerals.ParseInt(text.value)
  }

  function StartMonitorStep(s: State, id: nat, key: Key, container: nat): State {
    if id !in s.monitors && key in s.cluster.pods && container < |s.cluster.pods[key].spec.containers|
       && s.cluster.pods[key].spec.containers[container].image == s.image then
      match MonitorFor(s.cluster.pods[key].spec.containers[container].env, s.clock)
      case None => s
      case Some(m) => s.(monitors := s.monitors[id := m])
    else s
  }

  function IdleTooLong(m: Monitor): bool
    requires m.main.HasClock?
  {
    m.main.now - m.last > m.timeout as real
  }

  const IDLE_PATCH: map<string, string> := map[IDLE_LABEL := "true"]

  function ActivityPatch(text: string): map<string, string> { map[ACTIVITY_ANNOTATION := text] }

  /** The replace call; the monitor goes on whatever comes of it. */
  function Replaced(c: Cluster, key: Key, body: Cr, fails: bool): Cluster {
    if fails || ReplaceCr(c, key, body).Err? then c else ReplaceCr(c, key, body).value
  }

  function WatchStep(s: State, id: nat, fails: bool): State {
    if id !in s.monitors then s
    else
      var m := s.monitors[id];
      match m.main
      case Sleeping => s.(monitors := s.monitors[id := m.(main := HasClock(s.clock))])
      case HasClock(_) => s.(monitors := s.monitors[id := m.(main := if IdleTooLong(m) then WillLabel else Sleeping)])
      case WillLabel =>
        var next := if fails || m.target !in s.cluster.crs then Sleeping else HasSnapshot(s.cluster.crs[m.target]);
        s.(monitors := s.monitors[id := m.(main := next)])
      case HasSnapshot(cr) =>
        s.(cluster := Replaced(s.cluster, m.target, cr.(labels := cr.labels + IDLE_PATCH), fails),
           monitors := s.monitors[id := m.(main := Sleeping)])
  }

  function BusyStep(s: State, id: nat, time: ActivityTime.Moment): State {
    if id in s.monitors && s.monitors[id].activity.Listening? then
      s.(monitors := s.monitors[id := s.monitors[id].(last := s.clock, activity := Touched(ActivityTime.Print(time)))])
    else s
  }

  function ActStep(s: State, id: nat, fails: bool): State {
    if id !in s.monitors then s
    else
      var m := s.monitors[id];
      match m.activity
      case Listening => s
      case Touched(text) =>
        var next := if fails || m.target !in s.cluster.crs then Listening else HasRead(s.cluster.crs[m.target], text);
        s.(monitors := s.monitors[id := m.(activity := next)])
      case HasRead(cr, text) =>
        s.(cluster := Replaced(s.cluster, m.target, cr.(annotations := cr.annotations + ActivityPatch(text)), fails),
           monitors := s.monitors[id := m.(activity := Listening)])
  }

  // ---- everyone ------------------------------------------------

  function OtherStep(s: State, a: Action): State {
    match a
    case Create(key, labels, annotations, spec) =>
      (match CreateCr(s.cluster, key, labels, annotations, spec)
       case Ok(c) => s.(cluster := c)
       case Err(_) => s)
    case Edit(key, labels, annotations, spec) =>
      if key in s.cluster.crs then
        s.(cluster := Put(s.cluster, key, s.cluster.crs[key].(labels := labels, annotations := annotations, spec := spec)))
      else s
    case Delete(key) =>
      (match DeleteCr(s.cluster, key)
       case Ok(c) => s.(cluster := c)
       case Err(_) => s)
    case StopMonitor(id) => s.(monitors := s.monitors - {id})
    case SetClock(now) => s.(clock := now)
    case PodReports(key, podStatus) =>
      if key in s.cluster.pods
          then s.(cluster := s.cluster.(pods := s.cluster.pods[key := s.cluster.pods[key].(status := podStatus)]))
      else s
    case PodGone(key) => s.(cluster := s.cluster.(pods := s.cluster.pods - {key}))
    case ConfigMapGone(key) => s.(cluster := s.cluster.(configMaps := s.cluster.configMaps - {key}))
    case _ => s
  }

  ghost function Step(s: State, a: Action): State {
    match a
    case Work(key, faults, readings) => WorkStep(s, key, faults, readings)
    case StartMonitor(id, key, container) => StartMonitorStep(s, id, key, container)
    case Watch(id, fails) => WatchStep(s, id, fails)
    case Busy(id, time) => BusyStep(s, id, time)
    case Act(id, fails) => ActStep(s, id, fails)
    case _ => OtherStep(s, a)
  }

  predicate Initial(s: State) {
    s.cluster == Cluster(map[], map[], map[], 0, 0, 0) && s.workers == map[] && s.monitors == map[]
  }

  ghost predicate Follows(states: seq<State>, actions: seq<Action>, i: nat)
    requires i < |actions| < |states|
  {
    states[i + 1] == Step(states[i], actions[i])
  }

  /** A run: the states it goes through, and the action that leads from each to the next. */
  ghost predicate Run(states: seq<State>, actions: seq<Action>) {
    && |states| == |actions| + 1
    && Initial(states[0])
    && forall i :: 0 <= i < |actions| ==> Follows(states, actions, i)
  }
}
