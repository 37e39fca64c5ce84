/** Why a resource is culled: in runs where only monitors write the idle label, a monitor saw it idle
    for longer than its timeout. */
module ProtocolCulls {
  import opened Outcomes
  import opened KernelResource
  import opened ClusterStore
  import opened Reconciler
  import opened Protocol
  import opened ProtocolMerges
  import opened ProtocolStatus
  import opened PodGeneration
  import opened ConnectionAgreement
  import StatusMirror
  import Numerals

  // ---- what is assumed of users and clients ------------------------------------------------

  /** Nobody but a monitor sets the idle label of the resource to true. */
  ghost predicate LabelIsTheMonitors(states: seq<State>, actions: seq<Action>, key: Key)
    requires |states| == |actions| + 1
  {
    forall n :: 0 <= n < |actions| ==> LeavesLabel(states[n], actions[n], key)
  }

  ghost predicate LeavesLabel(s: State, a: Action, key: Key) {
    && (a.Create? && a.key == key ==> !IdleLabelled(a.labels))
    && (Edits(a, key) && key in s.cluster.crs && IdleLabelled(a.labels) ==> IdleLabelled(s.cluster.crs[key].labels))
  }

  /** No user container runs the monitor's image. */
  predicate OwnContainers(spec: Spec, image: string) {
    forall c :: c in spec.template.containers ==> c.image != image
  }

  ghost predicate ImageIsTheControllers(states: seq<State>, actions: seq<Action>)
    requires |states| == |actions| + 1
  {
    forall n :: 0 <= n < |actions| && (actions[n].Create? || actions[n].Edit?) ==> OwnContainers(actions[n].spec, states[n].image)
  }

  /** The name is given to one resource only. */
  ghost predicate NameIsNotReused(states: seq<State>, actions: seq<Action>, key: Key)
    requires |states| == |actions| + 1
  {
    forall n, i :: 0 <= i <= n < |actions| && actions[n].Create? && actions[n].key == key ==> key !in states[i].cluster.crs
  }

  /** No user edit raises the timeout of the resource. */
  ghost predicate TimeoutIsNotRaised(states: seq<State>, actions: seq<Action>, key: Key)
    requires |states| == |actions| + 1
  {
    forall n :: 0 <= n < |actions| && Edits(actions[n], key) && key in states[n].cluster.crs ==>
      actions[n].spec.idleTimeoutSeconds <= states[n].cluster.crs[key].spec.idleTimeoutSeconds
  }

  // ---- a verdict comes before every cull ------------------------------------------------

  /** In this step a monitor of `key` finds that the kernel was idle for longer than the monitor's timeout. */
  ghost predicate FindsIdle(s: State, a: Action, key: Key) {
    && a.Watch? && a.id in s.monitors && s.monitors[a.id].target == key
    && s.monitors[a.id].main.HasClock? && IdleTooLong(s.monitors[a.id])
  }

  ghost predicate FoundIdle(states: seq<State>, actions: seq<Action>, n: nat, key: Key)
    requires n <= |actions| < |states|
  {
    exists i :: 0 <= i < n && FindsIdle(states[i], actions[i], key)
  }

  /** The controller deletes the resource in this step. */
  ghost predicate Culls(states: seq<State>, actions: seq<Action>, n: nat, key: Key)
    requires n < |actions| < |states|
  {
    actions[n].Work? && key in states[n].cluster.crs && key !in states[n + 1].cluster.crs
  }

  /** A verdict that can still take effect: the label is still to be written, and the resource was not
      written since it was read. */
  ghost predicate Pending(c: Cluster, m: Monitor) {
    m.main.WillLabel? || (m.main.HasSnapshot? && m.target in c.crs && c.crs[m.target].version == m.main.cr.version)
  }

  ghost predicate PendingFor(s: State, key: Key, id: nat) {
    id in s.monitors && s.monitors[id].target == key && Pending(s.cluster, s.monitors[id])
  }

  predicate HasIdleLabel(c: Cluster, key: Key) { key in c.crs && IdleLabelled(c.crs[key].labels) }

  predicate WorkerWillCull(s: State, key: Key) { key in s.workers && s.workers[key].WillCull? }

  /** A verdict on the name is under way: in a monitor, in the label, or in a reconcile that has read the label. */
  ghost predicate Armed(s: State, key: Key) {
    HasIdleLabel(s.cluster, key) || WorkerWillCull(s, key) || exists id :: PendingFor(s, key, id)
  }

  lemma PendingBefore(s: State, a: Action, key: Key, id: nat)
    requires Snapshots(s) && PendingFor(Step(s, a), key, id) && !FindsIdle(s, a, key)
    ensures Armed(s, key)
  {
    StepAdvances(s, a);
    if a.Work? {
      WorkLeavesMonitors(s, a.key, a.faults, a.readings);
    }
    var m := Step(s, a).monitors[id];
    assert id in s.monitors && s.monitors[id].target == key;
    assert HoldsReads(s.cluster, s.monitors[id]);
    if s.monitors[id].main == m.main {
      assert PendingFor(s, key, id);
    } else {
      assert s.monitors[id].main.WillLabel?;
      assert PendingFor(s, key, id);
    }
  }

  lemma CullsAreChosen(s: State, a: Action, key: Key)
    requires WorkerWillCull(Step(s, a), key)
    ensures WorkerWillCull(s, key) || HasIdleLabel(s.cluster, key)
  {
    if a.Work? {
      if a.key in s.workers {
        match s.workers[a.key]
        case _ =>
      }
    } else {
      WorkersLeftAlone(s, a);
    }
  }

  lemma ReplaceLabels(s: State, id: nat, fails: bool, key: Key)
    requires Snapshots(s) && HasIdleLabel(WatchStep(s, id, fails).cluster, key)
    ensures HasIdleLabel(s.cluster, key) || PendingFor(s, key, id)
  {
  }

  lemma ReplaceAnnotations(s: State, id: nat, fails: bool, key: Key)
    requires Snapshots(s) && key in ActStep(s, id, fails).cluster.crs
    ensures key in s.cluster.crs && ActStep(s, id, fails).cluster.crs[key].labels == s.cluster.crs[key].labels
  {
    assert id in s.monitors ==> HoldsReads(s.cluster, s.monitors[id]);
  }

  lemma LabelsAreEarned(s: State, a: Action, key: Key)
    requires Snapshots(s) && LeavesLabel(s, a, key) && HasIdleLabel(Step(s, a).cluster, key)
    ensures Armed(s, key)
  {
    match a
    case Work(k, faults, readings) =>
      WorkWritesPhase(s, k, faults, readings, key);
      WorkWritesStatus(s, k, faults, readings, key);
    case Watch(id, fails) => ReplaceLabels(s, id, fails, key);
    case Act(id, fails) => ReplaceAnnotations(s, id, fails, key);
    case _ =>
  }

  /** Only a new verdict arms a name. */
  lemma ArmedBefore(s: State, a: Action, key: Key)
    requires Snapshots(s) && LeavesLabel(s, a, key) && !FindsIdle(s, a, key) && Armed(Step(s, a), key)
    ensures Armed(s, key)
  {
    if HasIdleLabel(Step(s, a).cluster, key) {
      LabelsAreEarned(s, a, key);
    } else if WorkerWillCull(Step(s, a), key) {
      CullsAreChosen(s, a, key);
    } else {
      var id :| PendingFor(Step(s, a), key, id);
      PendingBefore(s, a, key, id);
    }
  }

  lemma {:induction false} ArmedAfterVerdict(states: seq<State>, actions: seq<Action>, n: nat, key: Key)
    requires Run(states, actions) && LabelIsTheMonitors(states, actions, key) && n < |states| && Armed(states[n], key)
    ensures FoundIdle(states, actions, n, key)
    decreases n
  {
    if n > 0 && !FindsIdle(states[n - 1], actions[n - 1], key) {
      RunStep(states, actions, n - 1);
      RunKeepsSnapshots(states, actions, n - 1);
      ArmedBefore(states[n - 1], actions[n - 1], key);
      ArmedAfterVerdict(states, actions, n - 1, key);
    }
  }

  /** This step of the reconcile of `key` deletes the resource. */
  predicate CullsNow(s: State, key: Key, faults: Faults) {
    key in s.workers && s.workers[key].WillCull? && !faults(Cull) && key in s.cluster.crs
  }

  lemma SyncsKeepKeys(c: Cluster, key: Key, cr: Cr, faults: Faults, k: Key)
    ensures SyncConfigMap(c, key, cr, faults).0.crs == c.crs
    ensures k in SyncStatus(c, key, cr, faults).0.crs <==> k in c.crs
  {
  }

  lemma WorkKeepsOrCulls(s: State, key: Key, faults: Faults, readings: StatusMirror.Clock, k: Key)
    ensures k in WorkStep(s, key, faults, readings).cluster.crs <==> k in s.cluster.crs && !(k == key && CullsNow(s, key, faults))
  {
    if key in s.workers {
      match s.workers[key]
      case HasCr(cr) => SyncsKeepKeys(s.cluster, key, cr, faults, k);
      case WillWriteStatus(cr, pod) => SyncsKeepKeys(s.cluster, key, StatusBody(key, cr, pod, readings), faults, k);
      case _ =>
    }
  }

  lemma SyncsLeaveTheRest(c: Cluster, key: Key, cr: Cr, faults: Faults)
    ensures SyncConfigMap(c, key, cr, faults).0.culls == SyncStatus(c, key, cr, faults).0.culls == c.culls
    ensures SyncConfigMap(c, key, cr, faults).0.pods == SyncStatus(c, key, cr, faults).0.pods == c.pods
  {
  }

  lemma WorkCounts(s: State, key: Key, faults: Faults, readings: StatusMirror.Clock)
    ensures WorkStep(s, key, faults, readings).cluster.culls == s.cluster.culls + if CullsNow(s, key, faults) then 1 else 0
  {
    if key in s.workers {
      match s.workers[key]
      case HasCr(cr) => SyncsLeaveTheRest(s.cluster, key, cr, faults);
      case WillWriteStatus(cr, pod) => SyncsLeaveTheRest(s.cluster, key, StatusBody(key, cr, pod, readings), faults);
      case _ =>
    }
  }

  lemma CullsAreCulls(s: State, a: Action, key: Key)
    requires a.Work? && key in s.cluster.crs && key !in Step(s, a).cluster.crs
    ensures a.key == key && key in s.workers && s.workers[key].WillCull?
  {
    WorkKeepsOrCulls(s, a.key, a.faults, a.readings, key);
  }

  /** If only monitors set the idle label of the resource, its cull follows a monitor iteration that found this
      name idle for longer than the monitor's timeout. */
  lemma CullsFollowAVerdict(states: seq<State>, actions: seq<Action>, n: nat, key: Key)
    requires Run(states, actions) && LabelIsTheMonitors(states, actions, key)
    requires n < |actions| && Culls(states, actions, n, key)
    ensures FoundIdle(states, actions, n, key)
  {
    RunStep(states, actions, n);
    CullsAreCulls(states[n], actions[n], key);
    ArmedAfterVerdict(states, actions, n, key);
  }

  // ---- the monitor's timeout ------------------------------------------------

  /** Up to now, the resource asked for this timeout. */
  ghost predicate HadTimeout(states: seq<State>, n: nat, key: Key, t: int)
    requires n < |states|
  {
    exists i :: 0 <= i <= n && key in states[i].cluster.crs && states[i].cluster.crs[key].spec.idleTimeoutSeconds as int == t
  }

  ghost predicate CarriesTimeout(c: Container, key: Key, t: int) {
    && LookupEnv(c.env, "NAME") == Some(key.name) && LookupEnv(c.env, "NAMESPACE") == Some(key.namespace)
    && LookupEnv(c.env, "IDLE_TIMEOUT") == Some(Numerals.PrintInt(t))
    && IntOr(LookupEnv(c.env, "CULLING_INTERVAL"), 60).Some?
  }

  predicate MonitorContainer(s: State, key: Key, c: Container) {
    key in s.cluster.pods && c in s.cluster.pods[key].spec.containers && c.image == s.image
  }

  ghost predicate TimeoutsCarried(states: seq<State>, n: nat)
    requires n < |states|
  {
    && (forall key :: key in states[n].cluster.crs ==> OwnContainers(states[n].cluster.crs[key].spec, states[n].image))
    && (forall key, c :: MonitorContainer(states[n], key, c) ==>
        exists t :: HadTimeout(states, n, key, t) && CarriesTimeout(c, key, t))
    && (forall id :: id in states[n].monitors ==>
          HadTimeout(states, n, states[n].monitors[id].target, states[n].monitors[id].timeout))
  }

  lemma OnlyTheSidecar(key: Key, spec: Spec, image: string, c: Container)
    requires spec.template.containers != [] && OwnContainers(spec, image)
    requires c in GeneratedSpec(key, spec, image).containers && c.image == image
    ensures CarriesTimeout(c, key, spec.idleTimeoutSeconds as int)
  {
    var cs := spec.template.containers;
    assert cs[0] in cs;
    assert MainContainer(key.name, spec).image == cs[0].image;
    assert forall d :: d in cs[1..] ==> d in cs;
    assert c == Sidecar(key, spec, image);
    MonitorReads(key, spec);
    Numerals.ParsePrintedInt(CullingInterval(spec) as int);
  }

  lemma StepKeepsContainers(s: State, a: Action, key: Key)
    requires Snapshots(s) && (a.Create? || a.Edit? ==> OwnContainers(a.spec, s.image))
    requires key in s.cluster.crs ==> OwnContainers(s.cluster.crs[key].spec, s.image)
    ensures key in Step(s, a).cluster.crs ==> OwnContainers(Step(s, a).cluster.crs[key].spec, s.image)
  {
    if key in Step(s, a).cluster.crs && key in s.cluster.crs && !Edits(a, key) {
      StepLosesNothing(s, a, key);
    } else if key in Step(s, a).cluster.crs && key !in s.cluster.crs {
      OnlyCreated(s, a, key);
    }
  }

  /** Resources appear by creation. */
  lemma OnlyCreated(s: State, a: Action, key: Key)
    requires Snapshots(s) && key !in s.cluster.crs && key in Step(s, a).cluster.crs
    ensures a.Create? && a.key == key && Step(s, a).cluster.crs[key].spec == a.spec
  {
    if a.Work? {
      WorkWritesPhase(s, a.key, a.faults, a.readings, key);
    }
  }

  lemma WorkLeavesPods(s: State, key: Key, faults: Faults, readings: StatusMirror.Clock, k: Key)
    requires k in s.cluster.pods
    ensures var d := WorkStep(s, key, faults, readings).cluster; k in d.pods && d.pods[k] == s.cluster.pods[k]
  {
    if key in s.workers {
      match s.workers[key]
      case HasCr(cr) => SyncsLeaveTheRest(s.cluster, key, cr, faults);
      case WillWriteStatus(cr, pod) => SyncsLeaveTheRest(s.cluster, key, StatusBody(key, cr, pod, readings), faults);
      case _ =>
    }
  }

  lemma PodsComeAlong(s: State, a: Action, key: Key)
    requires key in s.cluster.pods && key in Step(s, a).cluster.pods
    ensures Step(s, a).cluster.pods[key].spec == s.cluster.pods[key].spec
  {
    if a.Work? {
      WorkLeavesPods(s, a.key, a.faults, a.readings, key);
    }
  }

  lemma MonitorsComeAlong(s: State, a: Action, id: nat)
    requires id in Step(s, a).monitors
    ensures var m := Step(s, a).monitors[id];
            || (id in s.monitors && s.monitors[id].target == m.target && s.monitors[id].timeout == m.timeout)
            || (a.StartMonitor? && StartedBy(s, a, m))
  {
    if a.Work? {
      WorkLeavesMonitors(s, a.key, a.faults, a.readings);
    }
  }

  /** The monitor was started from a container of the pod with the monitor's image. */
  ghost predicate StartedBy(s: State, a: Action, m: Monitor)
    requires a.StartMonitor?
  {
    && a.key in s.cluster.pods && a.container < |s.cluster.pods[a.key].spec.containers|
    && s.cluster.pods[a.key].spec.containers[a.container].image == s.image
    && MonitorFor(s.cluster.pods[a.key].spec.containers[a.container].env, s.clock) == Some(m)
  }

  lemma StartedWithTimeout(c: Container, key: Key, t: int, now: real, m: Monitor)
    requires CarriesTimeout(c, key, t) && MonitorFor(c.env, now) == Some(m)
    ensures m.target == key && m.timeout == t
  {
    Numerals.ParsePrintedInt(t);
  }

  lemma TimeoutStays(states: seq<State>, n: nat, key: Key, t: int)
    requires 0 < n < |states| && HadTimeout(states, n - 1, key, t)
    ensures HadTimeout(states, n, key, t)
  {
  }

  lemma PodCarries(states: seq<State>, actions: seq<Action>, n: nat, key: Key, c: Container)
    requires Run(states, actions) && 0 < n < |states|
    requires forall i :: 0 <= i < n ==> TimeoutsCarried(states, i)
    requires MonitorContainer(states[n], key, c)
    ensures exists t :: HadTimeout(states, n, key, t) && CarriesTimeout(c, key, t)
  {
    var s, a := states[n - 1], actions[n - 1];
    RunStep(states, actions, n - 1);
    StepKeepsImage(s, a);
    if key in s.cluster.pods {
      PodsComeAlong(s, a, key);
      assert TimeoutsCarried(states, n - 1) && MonitorContainer(s, key, c);
      var t :| HadTimeout(states, n - 1, key, t) && CarriesTimeout(c, key, t);
      TimeoutStays(states, n, key, t);
    } else {
      AddedPod(s, a, key);
      var i := WorkerHasRead(states, actions, n - 1, key);
      ImageStays(states, actions, i);
      ImageStays(states, actions, n);
      assert TimeoutsCarried(states, i);
      var spec := states[i].cluster.crs[key].spec;
      OnlyTheSidecar(key, spec, s.image, c);
      assert HadTimeout(states, n, key, spec.idleTimeoutSeconds as int);
    }
  }

  lemma MonitorCarries(states: seq<State>, actions: seq<Action>, n: nat, id: nat)
    requires Run(states, actions) && 0 < n < |states| && TimeoutsCarried(states, n - 1)
    requires id in states[n].monitors
    ensures HadTimeout(states, n, states[n].monitors[id].target, states[n].monitors[id].timeout)
  {
    var s, a, m := states[n - 1], actions[n - 1], states[n].monitors[id];
    RunStep(states, actions, n - 1);
    MonitorsComeAlong(s, a, id);
    if id in s.monitors && s.monitors[id].target == m.target && s.monitors[id].timeout == m.timeout {
      TimeoutStays(states, n, m.target, m.timeout);
    } else {
      var c := s.cluster.pods[a.key].spec.containers[a.container];
      assert MonitorContainer(s, a.key, c);
      var t :| HadTimeout(states, n - 1, a.key, t) && CarriesTimeout(c, a.key, t);
      StartedWithTimeout(c, a.key, t, s.clock, m);
      TimeoutStays(states, n, a.key, t);
    }
  }

  lemma {:induction false} TimeoutsAreCarried(states: seq<State>, actions: seq<Action>, n: nat)
    requires Run(states, actions) && ImageIsTheControllers(states, actions) && n < |states|
    ensures forall i :: 0 <= i <= n ==> TimeoutsCarried(states, i)
    decreases n
  {
    if n > 0 {
      TimeoutsAreCarried(states, actions, n - 1);
      RunKeepsSnapshots(states, actions, n - 1);
      RunStep(states, actions, n - 1);
      StepKeepsImage(states[n - 1], actions[n - 1]);
      assert TimeoutsCarried(states, n - 1);
      forall key | key in states[n].cluster.crs ensures OwnContainers(states[n].cluster.crs[key].spec, states[n].image) {
        StepKeepsContainers(states[n - 1], actions[n - 1], key);
      }
      forall key, c | MonitorContainer(states[n], key, c)
        ensures exists t :: HadTimeout(states, n, key, t) && CarriesTimeout(c, key, t)
      {
        PodCarries(states, actions, n, key, c);
      }
      forall id | id in states[n].monitors
        ensures HadTimeout(states, n, states[n].monitors[id].target, states[n].monitors[id].timeout)
      {
        MonitorCarries(states, actions, n, id);
      }
    }
  }

  // ---- the same resource ------------------------------------------------

  ghost predicate IsObject(c: Cluster, key: Key, uid: nat) { key in c.crs && c.crs[key].uid == uid }

  /** A name that is given once names one object as long as it names any. */
  lemma {:induction false} OneObject(states: seq<State>, actions: seq<Action>, i: nat, j: nat, n: nat, key: Key)
    requires Run(states, actions) && NameIsNotReused(states, actions, key)
    requires i <= j <= n < |states| && key in states[i].cluster.crs && key in states[n].cluster.crs
    ensures IsObject(states[j].cluster, key, states[n].cluster.crs[key].uid)
    decreases n
  {
    if j < n {
      ObjectBefore(states, actions, i, n, key);
      OneObject(states, actions, i, j, n - 1, key);
    }
  }

  lemma ObjectBefore(states: seq<State>, actions: seq<Action>, i: nat, n: nat, key: Key)
    requires Run(states, actions) && NameIsNotReused(states, actions, key)
    requires i < n < |states| && key in states[i].cluster.crs && key in states[n].cluster.crs
    ensures IsObject(states[n - 1].cluster, key, states[n].cluster.crs[key].uid)
  {
    var s, a := states[n - 1], actions[n - 1];
    RunStep(states, actions, n - 1);
    RunKeepsSnapshots(states, actions, n - 1);
    assert !(a.Create? && a.key == key);
    assert key in s.cluster.crs by {
      if key !in s.cluster.crs {
        OnlyCreated(s, a, key);
      }
    }
    StepKeepsUid(s, a, key);
  }

  lemma StepKeepsUid(s: State, a: Action, key: Key)
    requires Snapshots(s) && key in s.cluster.crs && key in Step(s, a).cluster.crs
    ensures Step(s, a).cluster.crs[key].uid == s.cluster.crs[key].uid
    ensures Edits(a, key) || Step(s, a).cluster.crs[key].spec == s.cluster.crs[key].spec
    ensures Edits(a, key) ==> Step(s, a).cluster.crs[key].spec == a.spec
  {
    if !Edits(a, key) {
      StepLosesNothing(s, a, key);
    }
  }

  /** In state `i` a monitor finds this object idle for longer than the timeout its spec held in state `j`. */
  ghost predicate FindsObjectIdle(states: seq<State>, actions: seq<Action>, i: nat, j: nat, key: Key, uid: nat)
    requires j < |states| && i < |actions| < |states|
  {
    && FindsIdle(states[i], actions[i], key) && IsObject(states[i].cluster, key, uid) && IsObject(states[j].cluster, key, uid)
    && var m := states[i].monitors[actions[i].id];
       m.main.now - m.last > states[j].cluster.crs[key].spec.idleTimeoutSeconds as int as real
  }

  /** If moreover the name is not reused and the monitor's image is left to the controller, every culled
      object was found idle, itself, for longer than a timeout that its spec held by then. */
  lemma CullsAreJustified(states: seq<State>, actions: seq<Action>, n: nat, key: Key)
    requires Run(states, actions) && LabelIsTheMonitors(states, actions, key) && ImageIsTheControllers(states, actions)
    requires NameIsNotReused(states, actions, key) && n < |actions| && Culls(states, actions, n, key)
    ensures exists i, j :: 0 <= j <= i < n && FindsObjectIdle(states, actions, i, j, key, states[n].cluster.crs[key].uid)
  {
    CullsFollowAVerdict(states, actions, n, key);
    var i :| 0 <= i < n && FindsIdle(states[i], actions[i], key);
    TimeoutsAreCarried(states, actions, i);
    var m := states[i].monitors[actions[i].id];
    assert TimeoutsCarried(states, i);
    assert HadTimeout(states, i, key, m.timeout);
    var j :| 0 <= j <= i && key in states[j].cluster.crs
        && states[j].cluster.crs[key].spec.idleTimeoutSeconds as int == m.timeout;
    OneObject(states, actions, j, j, n, key);
    OneObject(states, actions, j, i, n, key);
    assert FindsObjectIdle(states, actions, i, j, key, states[n].cluster.crs[key].uid);
  }

  lemma {:induction false} TimeoutOnlyShrinks(states: seq<State>, actions: seq<Action>, j: nat, i: nat, key: Key)
    requires Run(states, actions) && TimeoutIsNotRaised(states, actions, key) && j <= i < |states|
    requires key in states[j].cluster.crs && key in states[i].cluster.crs
    requires states[j].cluster.crs[key].uid == states[i].cluster.crs[key].uid
    ensures states[i].cluster.crs[key].spec.idleTimeoutSeconds <= states[j].cluster.crs[key].spec.idleTimeoutSeconds
    decreases i
  {
    if j < i {
      ThereJustBefore(states, actions, j, i, key);
      TimeoutOnlyShrinks(states, actions, j, i - 1, key);
      RunStep(states, actions, i - 1);
      RunKeepsSnapshots(states, actions, i - 1);
      StepKeepsUid(states[i - 1], actions[i - 1], key);
    }
  }

  /** So if no edit raises its timeout, for longer than the timeout in its spec at the time of the cull. */
  lemma CullsFollowTheSpec(states: seq<State>, actions: seq<Action>, n: nat, key: Key)
    requires Run(states, actions) && LabelIsTheMonitors(states, actions, key) && ImageIsTheControllers(states, actions)
    requires NameIsNotReused(states, actions, key) && TimeoutIsNotRaised(states, actions, key)
    requires n < |actions| && Culls(states, actions, n, key)
    ensures exists i :: 0 <= i < n && FindsObjectIdle(states, actions, i, n, key, states[n].cluster.crs[key].uid)
  {
    CullsAreJustified(states, actions, n, key);
    var i, j :| 0 <= j <= i < n && FindsObjectIdle(states, actions, i, j, key, states[n].cluster.crs[key].uid);
    TimeoutOnlyShrinks(states, actions, j, n, key);
    assert FindsObjectIdle(states, actions, i, n, key, states[n].cluster.crs[key].uid);
  }

  // ---- the counter ------------------------------------------------

  ghost function CountCulls(states: seq<State>, actions: seq<Action>, n: nat): nat
    requires n <= |actions| < |states|
  {
    if n == 0 then 0
    else CountCulls(states, actions, n - 1) + if Culls(states, actions, n - 1, CulledKey(actions[n - 1])) then 1 else 0
  }

  function CulledKey(a: Action): Key {
    if a.Work? then a.key else Key("", "")
  }

  lemma StepCounts(s: State, a: Action)
    ensures Step(s, a).cluster.culls == s.cluster.culls +
              if a.Work? && a.key in s.cluster.crs && a.key !in Step(s, a).cluster.crs then 1 else 0
  {
    if a.Work? {
      WorkKeepsOrCulls(s, a.key, a.faults, a.readings, a.key);
      WorkCounts(s, a.key, a.faults, a.readings);
    }
  }

  /** The culling counter is the number of resources the controller deleted. */
  lemma {:induction false} CounterCountsCulls(states: seq<State>, actions: seq<Action>, n: nat)
    requires Run(states, actions) && n < |states|
    ensures states[n].cluster.culls == CountCulls(states, actions, n)
    decreases n
  {
    if n > 0 {
      CounterCountsCulls(states, actions, n - 1);
      RunStep(states, actions, n - 1);
      StepCounts(states[n - 1], actions[n - 1]);
    }
  }
}
