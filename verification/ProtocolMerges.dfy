/** What concurrent writers do to each other's labels, annotations and specs: the monitors' replaces
    are atomic merges, and no run without user edits loses anything that was committed. */
module ProtocolMerges {
  import opened Outcomes
  import opened KernelResource
  import opened ClusterStore
  import opened Reconciler
  import opened Protocol
  import StatusMirror

  // ---- versions ------------------------------------------------

  ghost predicate Stamped(c: Cluster) {
    forall k :: k in c.crs ==> c.crs[k].version < c.nextVersion && c.crs[k].uid < c.nextUid
  }

  /** `cr` was read from `key`: while its version is the stored one, the stored resource is `cr`. */
  ghost predicate ReadFrom(c: Cluster, key: Key, cr: Cr) {
    cr.version < c.nextVersion && (key in c.crs && c.crs[key].version == cr.version ==> c.crs[key] == cr)
  }

  /** `d` comes after `c`: what is not as it was has a new version, and who was not there a new uid. */
  ghost predicate Advances(c: Cluster, d: Cluster) {
    && c.nextVersion <= d.nextVersion && c.nextUid <= d.nextUid && Stamped(d)
    && (forall k :: k in d.crs ==> (k in c.crs && d.crs[k] == c.crs[k]) || c.nextVersion <= d.crs[k].version)
    && (forall k :: k in d.crs ==> (k in c.crs && d.crs[k].uid == c.crs[k].uid) || c.nextUid <= d.crs[k].uid)
  }

  lemma PutAdvances(c: Cluster, key: Key, cr: Cr)
    requires Stamped(c) && key in c.crs && cr.uid == c.crs[key].uid
    ensures Advances(c, Put(c, key, cr))
  {
  }

  lemma CreateAdvances(c: Cluster, key: Key, labels: map<string, string>, annotations: map<string, string>, spec: Spec)
    requires Stamped(c)
    ensures CreateCr(c, key, labels, annotations, spec).Ok? ==> Advances(c, CreateCr(c, key, labels, annotations, spec).value)
  {
  }

  lemma SameResources(c: Cluster, d: Cluster)
    requires Stamped(c) && d.crs == c.crs && d.nextVersion == c.nextVersion && d.nextUid == c.nextUid
    ensures Advances(c, d)
  {
  }

  lemma ReplaceAdvances(c: Cluster, key: Key, body: Cr, fails: bool)
    requires Stamped(c)
    ensures Advances(c, Replaced(c, key, body, fails))
  {
    if ReplaceCr(c, key, body).Ok? {
      PutAdvances(c, key, c.crs[key].(labels := body.labels, annotations := body.annotations, spec := body.spec));
    }
  }

  lemma CullAdvances(c: Cluster, key: Key)
    requires Stamped(c) && DeleteCr(c, key).Ok?
    ensures var d := DeleteCr(c, key).value; Advances(c, d.(culls := d.culls + 1))
  {
  }

  lemma StatusAdvances(c: Cluster, key: Key, body: Cr, faults: Faults)
    requires Stamped(c)
    ensures Advances(c, SyncStatus(c, key, body, faults).0)
  {
    if UpdateStatus(c, key, body).Ok? {
      PutAdvances(c, key, c.crs[key].(status := body.status));
    }
  }

  lemma ConfigMapAdvances(c: Cluster, key: Key, cr: Cr, faults: Faults)
    requires Stamped(c)
    ensures Advances(c, SyncConfigMap(c, key, cr, faults).0)
  {
    SameResources(c, SyncConfigMap(c, key, cr, faults).0);
  }

  lemma WorkAdvances(s: State, key: Key, faults: Faults, readings: StatusMirror.Clock)
    requires Stamped(s.cluster)
    ensures Advances(s.cluster, WorkStep(s, key, faults, readings).cluster)
  {
    var d := WorkStep(s, key, faults, readings).cluster;
    if key !in s.workers {
      SameResources(s.cluster, d);
    } else {
      match s.workers[key]
      case WillCull(_) =>
        if DeleteCr(s.cluster, key).Ok? {
          CullAdvances(s.cluster, key);
        }
        SameResources(s.cluster, s.cluster);
      case HasCr(cr) => ConfigMapAdvances(s.cluster, key, cr, faults);
      case WillWriteStatus(cr, pod) => StatusAdvances(s.cluster, key, StatusBody(key, cr, pod, readings), faults);
      case _ => SameResources(s.cluster, d);
    }
  }

  lemma OtherAdvances(s: State, a: Action)
    requires Stamped(s.cluster)
    ensures Advances(s.cluster, OtherStep(s, a).cluster)
  {
    match a
    case Create(key, labels, annotations, spec) => CreateAdvances(s.cluster, key, labels, annotations, spec);
    case Edit(key, labels, annotations, spec) =>
      if key in s.cluster.crs {
        PutAdvances(s.cluster, key, s.cluster.crs[key].(labels := labels, annotations := annotations, spec := spec));
      }
    case _ =>
  }

  lemma WatchAdvances(s: State, id: nat, fails: bool)
    requires Stamped(s.cluster)
    ensures Advances(s.cluster, WatchStep(s, id, fails).cluster)
  {
    if id in s.monitors && s.monitors[id].main.HasSnapshot? {
      var m := s.monitors[id];
      ReplaceAdvances(s.cluster, m.target, m.main.cr.(labels := m.main.cr.labels + IDLE_PATCH), fails);
    }
  }

  lemma ActAdvances(s: State, id: nat, fails: bool)
    requires Stamped(s.cluster)
    ensures Advances(s.cluster, ActStep(s, id, fails).cluster)
  {
    if id in s.monitors && s.monitors[id].activity.HasRead? {
      var m := s.monitors[id];
      ReplaceAdvances(s.cluster, m.target,
                      m.activity.cr.(annotations := m.activity.cr.annotations + ActivityPatch(m.activity.text)), fails);
    }
  }

  lemma StepAdvances(s: State, a: Action)
    requires Stamped(s.cluster)
    ensures Advances(s.cluster, Step(s, a).cluster)
  {
    match a
    case Work(key, faults, readings) => WorkAdvances(s, key, faults, readings);
    case Watch(id, fails) => WatchAdvances(s, id, fails);
    case Act(id, fails) => ActAdvances(s, id, fails);
    case _ => OtherAdvances(s, a);
  }

  // ---- snapshots ------------------------------------------------

  function WorkerCr(w: Worker): Cr {
    if w.HasConfigMap? || w.WillAddPod? || w.WillWriteStatus? then w.runnable else w.cr
  }

  ghost predicate HoldsReads(c: Cluster, m: Monitor) {
    && (m.main.HasSnapshot? ==> ReadFrom(c, m.target, m.main.cr))
    && (m.activity.HasRead? ==> ReadFrom(c, m.target, m.activity.cr))
  }

  /** Everything that is held was read from where it will be written. */
  ghost predicate Snapshots(s: State) {
    && Stamped(s.cluster)
    && (forall k :: k in s.workers ==> ReadFrom(s.cluster, k, WorkerCr(s.workers[k])))
    && (forall id :: id in s.monitors ==> HoldsReads(s.cluster, s.monitors[id]))
  }

  lemma SnapshotsAge(s: State, d: Cluster)
    requires Snapshots(s) && Advances(s.cluster, d)
    ensures Snapshots(s.(cluster := d))
  {
  }

  /** A worker goes on with the resource it has, or has just read it. */
  lemma WorkersAfter(s: State, key: Key, faults: Faults, readings: StatusMirror.Clock, k: Key)
    requires k in WorkStep(s, key, faults, readings).workers
    ensures var t := WorkStep(s, key, faults, readings);
            || (k in s.workers && WorkerCr(t.workers[k]) == WorkerCr(s.workers[k]))
            || (k in s.cluster.crs && WorkerCr(t.workers[k]) == s.cluster.crs[k] && t.cluster == s.cluster)
  {
    if k == key && key in s.workers {
      match s.workers[key]
      case _ =>
    }
  }

  lemma WorkLeavesMonitors(s: State, key: Key, faults: Faults, readings: StatusMirror.Clock)
    ensures WorkStep(s, key, faults, readings).monitors == s.monitors
  {
  }

  lemma WorkKeepsSnapshots(s: State, key: Key, faults: Faults, readings: StatusMirror.Clock)
    requires Snapshots(s)
    ensures Snapshots(WorkStep(s, key, faults, readings))
  {
    var t := WorkStep(s, key, faults, readings);
    WorkAdvances(s, key, faults, readings);
    SnapshotsAge(s, t.cluster);
    WorkLeavesMonitors(s, key, faults, readings);
    forall k | k in t.workers ensures ReadFrom(t.cluster, k, WorkerCr(t.workers[k])) {
      WorkersAfter(s, key, faults, readings, k);
    }
  }

  lemma WatchHolds(s: State, id: nat, fails: bool, k: nat)
    requires Snapshots(s) && k in WatchStep(s, id, fails).monitors
    ensures HoldsReads(s.cluster, WatchStep(s, id, fails).monitors[k])
  {
    assert k in s.monitors && HoldsReads(s.cluster, s.monitors[k]);
  }

  lemma ActHolds(s: State, id: nat, fails: bool, k: nat)
    requires Snapshots(s) && k in ActStep(s, id, fails).monitors
    ensures HoldsReads(s.cluster, ActStep(s, id, fails).monitors[k])
  {
    assert k in s.monitors && HoldsReads(s.cluster, s.monitors[k]);
  }

  /** A monitor thread goes on with the resource it has, or has just read it. */
  lemma MonitorsAfter(s: State, a: Action, k: nat)
    requires Snapshots(s) && (a.Watch? || a.Act? || a.Busy? || a.StartMonitor?) && k in Step(s, a).monitors
    ensures HoldsReads(s.cluster, Step(s, a).monitors[k])
  {
    match a
    case Watch(id, fails) => WatchHolds(s, id, fails, k);
    case Act(id, fails) => ActHolds(s, id, fails, k);
    case Busy(_, _) => assert k in s.monitors ==> HoldsReads(s.cluster, s.monitors[k]);
    case StartMonitor(_, _, _) => assert k in s.monitors ==> HoldsReads(s.cluster, s.monitors[k]);
    case _ =>
  }

  lemma MonitorsKeepSnapshots(s: State, a: Action)
    requires Snapshots(s) && (a.Watch? || a.Act? || a.Busy? || a.StartMonitor?)
    ensures Snapshots(Step(s, a))
  {
    var t := Step(s, a);
    forall k | k in t.monitors ensures HoldsReads(s.cluster, t.monitors[k]) { MonitorsAfter(s, a, k); }
    MonitorsLeaveWorkers(s, a);
    StepAdvances(s, a);
    assert Snapshots(t.(cluster := s.cluster));
    SnapshotsAge(t.(cluster := s.cluster), t.cluster);
  }

  lemma MonitorsLeaveWorkers(s: State, a: Action)
    requires a.Watch? || a.Act? || a.Busy? || a.StartMonitor?
    ensures Step(s, a).workers == s.workers
  {
  }

  lemma StepKeepsSnapshots(s: State, a: Action)
    requires Snapshots(s)
    ensures Snapshots(Step(s, a))
  {
    match a
    case Work(key, faults, readings) => WorkKeepsSnapshots(s, key, faults, readings);
    case StartMonitor(_, _, _) => MonitorsKeepSnapshots(s, a);
    case Watch(_, _) => MonitorsKeepSnapshots(s, a);
    case Busy(_, _) => MonitorsKeepSnapshots(s, a);
    case Act(_, _) => MonitorsKeepSnapshots(s, a);
    case _ =>
      OtherAdvances(s, a);
      SnapshotsAge(s, Step(s, a).cluster);
  }

  lemma RunStep(states: seq<State>, actions: seq<Action>, n: nat)
    requires Run(states, actions) && n < |actions|
    ensures states[n + 1] == Step(states[n], actions[n])
  {
    assert Follows(states, actions, n);
  }

  lemma {:induction false} RunKeepsSnapshots(states: seq<State>, actions: seq<Action>, n: nat)
    requires Run(states, actions) && n < |states|
    ensures Snapshots(states[n])
    decreases n
  {
    if n > 0 {
      RunKeepsSnapshots(states, actions, n - 1);
      RunStep(states, actions, n - 1);
      StepKeepsSnapshots(states[n - 1], actions[n - 1]);
    }
  }

  // ---- the merges are atomic ------------------------------------------------

  /** Merging into the resource that is stored now. */
  function MergeLabels(c: Cluster, key: Key, patch: map<string, string>): Cluster
    requires key in c.crs
  {
    Put(c, key, c.crs[key].(labels := c.crs[key].labels + patch))
  }

  function MergeAnnotations(c: Cluster, key: Key, patch: map<string, string>): Cluster
    requires key in c.crs
  {
    Put(c, key, c.crs[key].(annotations := c.crs[key].annotations + patch))
  }

  /** In every run, a monitor's replace of a body it built from an earlier read either leaves the store
      alone or is one atomic merge into the version current at that moment; it goes through exactly
      when that is still the version it read. */
  lemma LabelReplaceIsAMerge(states: seq<State>, actions: seq<Action>, n: nat, id: nat, fails: bool)
    requires Run(states, actions) && n < |actions| && actions[n] == Watch(id, fails)
    requires id in states[n].monitors && states[n].monitors[id].main.HasSnapshot?
    ensures var c, m := states[n].cluster, states[n].monitors[id];
            states[n + 1].cluster ==
              if !fails && m.target in c.crs && c.crs[m.target].version == m.main.cr.version
              then MergeLabels(c, m.target, IDLE_PATCH) else c
  {
    RunKeepsSnapshots(states, actions, n);
    RunStep(states, actions, n);
    assert HoldsReads(states[n].cluster, states[n].monitors[id]);
  }

  lemma AnnotationReplaceIsAMerge(states: seq<State>, actions: seq<Action>, n: nat, id: nat, fails: bool)
    requires Run(states, actions) && n < |actions| && actions[n] == Act(id, fails)
    requires id in states[n].monitors && states[n].monitors[id].activity.HasRead?
    ensures var c, m := states[n].cluster, states[n].monitors[id];
            states[n + 1].cluster ==
              if !fails && m.target in c.crs && c.crs[m.target].version == m.activity.cr.version
              then MergeAnnotations(c, m.target, ActivityPatch(m.activity.text)) else c
  {
    RunKeepsSnapshots(states, actions, n);
    RunStep(states, actions, n);
    assert HoldsReads(states[n].cluster, states[n].monitors[id]);
  }

  // ---- nothing is lost ------------------------------------------------

  /** Every entry but the one a monitor writes is still there, and that one is not taken away. */
  ghost predicate KeepsEntries(m: map<string, string>, n: map<string, string>, written: string) {
    && (forall k :: k in m ==> k in n)
    && (forall k :: k in m && k != written ==> n[k] == m[k])
  }

  ghost predicate NotLost(cr: Cr, later: Cr) {
    && later.uid == cr.uid && later.spec == cr.spec
    && KeepsEntries(cr.labels, later.labels, IDLE_LABEL)
    && KeepsEntries(cr.annotations, later.annotations, ACTIVITY_ANNOTATION)
    && (IdleLabelled(cr.labels) ==> IdleLabelled(later.labels))
  }

  lemma PatchKeeps(m: map<string, string>, key: string, value: string)
    ensures KeepsEntries(m, m + map[key := value], key)
    ensures key in m + map[key := value] && (m + map[key := value])[key] == value
  {
  }

  lemma WorkLosesNothing(s: State, key: Key, faults: Faults, readings: StatusMirror.Clock, k: Key)
    requires k in s.cluster.crs && k in WorkStep(s, key, faults, readings).cluster.crs
    ensures NotLost(s.cluster.crs[k], WorkStep(s, key, faults, readings).cluster.crs[k])
  {
    var c, d := s.cluster, WorkStep(s, key, faults, readings).cluster;
    assert d.crs[k] == c.crs[k].(status := d.crs[k].status, version := d.crs[k].version) by {
      WorkWritesStatus(s, key, faults, readings, k);
    }
  }

  lemma SyncsWriteStatus(c: Cluster, key: Key, cr: Cr, faults: Faults, k: Key)
    requires k in c.crs
    ensures SyncConfigMap(c, key, cr, faults).0.crs == c.crs
    ensures var d := SyncStatus(c, key, cr, faults).0;
            k in d.crs && d.crs[k] == c.crs[k].(status := d.crs[k].status, version := d.crs[k].version)
  {
  }

  lemma WorkWritesStatus(s: State, key: Key, faults: Faults, readings: StatusMirror.Clock, k: Key)
    requires k in s.cluster.crs && k in WorkStep(s, key, faults, readings).cluster.crs
    ensures var c, d := s.cluster, WorkStep(s, key, faults, readings).cluster;
            d.crs[k] == c.crs[k].(status := d.crs[k].status, version := d.crs[k].version)
  {
    if key in s.workers {
      match s.workers[key]
      case HasCr(cr) => SyncsWriteStatus(s.cluster, key, cr, faults, k);
      case WillWriteStatus(cr, pod) => SyncsWriteStatus(s.cluster, key, StatusBody(key, cr, pod, readings), faults, k);
      case _ =>
    }
  }

  lemma WatchLosesNothing(s: State, id: nat, fails: bool, k: Key)
    requires Snapshots(s) && k in s.cluster.crs && k in WatchStep(s, id, fails).cluster.crs
    ensures NotLost(s.cluster.crs[k], WatchStep(s, id, fails).cluster.crs[k])
  {
    if id in s.monitors && s.monitors[id].main.HasSnapshot? {
      var m := s.monitors[id];
      assert HoldsReads(s.cluster, m);
      PatchKeeps(m.main.cr.labels, IDLE_LABEL, "true");
    }
  }

  lemma ActLosesNothing(s: State, id: nat, fails: bool, k: Key)
    requires Snapshots(s) && k in s.cluster.crs && k in ActStep(s, id, fails).cluster.crs
    ensures NotLost(s.cluster.crs[k], ActStep(s, id, fails).cluster.crs[k])
  {
    if id in s.monitors && s.monitors[id].activity.HasRead? {
      var m := s.monitors[id];
      assert HoldsReads(s.cluster, m);
      PatchKeeps(m.activity.cr.annotations, ACTIVITY_ANNOTATION, m.activity.text);
    }
  }

  /** A user's edit of the resource. */
  predicate Edits(a: Action, key: Key) { a.Edit? && a.key == key }

  lemma OthersLoseNothing(s: State, a: Action, k: Key)
    requires !Edits(a, k) && k in s.cluster.crs && k in OtherStep(s, a).cluster.crs
    ensures NotLost(s.cluster.crs[k], OtherStep(s, a).cluster.crs[k])
  {
  }

  lemma StepLosesNothing(s: State, a: Action, k: Key)
    requires Snapshots(s) && !Edits(a, k)
    requires k in s.cluster.crs && k in Step(s, a).cluster.crs
    ensures NotLost(s.cluster.crs[k], Step(s, a).cluster.crs[k])
  {
    match a
    case Work(key, faults, readings) => WorkLosesNothing(s, key, faults, readings, k);
    case Watch(id, fails) => WatchLosesNothing(s, id, fails, k);
    case Act(id, fails) => ActLosesNothing(s, id, fails, k);
    case StartMonitor(_, _, _) =>
    case Busy(_, _) =>
    case _ => OthersLoseNothing(s, a, k);
  }

  lemma NotLostChain(a: Cr, b: Cr, c: Cr)
    requires NotLost(a, b) && NotLost(b, c)
    ensures NotLost(a, c)
  {
  }

  lemma {:induction false} UidsGrow(states: seq<State>, actions: seq<Action>, i: nat, j: nat)
    requires Run(states, actions) && i <= j < |states|
    ensures states[i].cluster.nextUid <= states[j].cluster.nextUid
    decreases j
  {
    if i < j {
      UidsGrow(states, actions, i, j - 1);
      RunKeepsSnapshots(states, actions, j - 1);
      StepAdvances(states[j - 1], actions[j - 1]);
      RunStep(states, actions, j - 1);
    }
  }

  lemma ThereJustBefore(states: seq<State>, actions: seq<Action>, i: nat, j: nat, key: Key)
    requires Run(states, actions) && i < j < |states|
    requires key in states[i].cluster.crs && key in states[j].cluster.crs
    requires states[i].cluster.crs[key].uid == states[j].cluster.crs[key].uid
    ensures key in states[j - 1].cluster.crs && states[j - 1].cluster.crs[key].uid == states[i].cluster.crs[key].uid
  {
    RunKeepsSnapshots(states, actions, i);
    UidsGrow(states, actions, i, j - 1);
    RunKeepsSnapshots(states, actions, j - 1);
    StepAdvances(states[j - 1], actions[j - 1]);
    RunStep(states, actions, j - 1);
  }

  /** Uids are not handed out again: an object that is there now and was there before was there all along. */
  lemma {:induction false} ThereInBetween(states: seq<State>, actions: seq<Action>, i: nat, m: nat, j: nat, key: Key)
    requires Run(states, actions) && i <= m <= j < |states|
    requires key in states[i].cluster.crs && key in states[j].cluster.crs
    requires states[i].cluster.crs[key].uid == states[j].cluster.crs[key].uid
    ensures key in states[m].cluster.crs && states[m].cluster.crs[key].uid == states[i].cluster.crs[key].uid
    decreases j
  {
    if m < j {
      ThereJustBefore(states, actions, i, j, key);
      ThereInBetween(states, actions, i, m, j - 1, key);
    }
  }

  /** Over any stretch of a run in which no user edits it, a resource that is still the same object
      keeps its spec, every label and every annotation, whoever wrote them; the only entries with a new
      value are the ones the monitors write, and an idle label stays. */
  lemma {:induction false} NothingIsLost(states: seq<State>, actions: seq<Action>, i: nat, j: nat, key: Key)
    requires Run(states, actions) && i <= j < |states|
    requires forall n :: i <= n < j ==> !Edits(actions[n], key)
    requires key in states[i].cluster.crs && key in states[j].cluster.crs
    requires states[i].cluster.crs[key].uid == states[j].cluster.crs[key].uid
    ensures NotLost(states[i].cluster.crs[key], states[j].cluster.crs[key])
    decreases j
  {
    if i < j {
      ThereJustBefore(states, actions, i, j, key);
      NothingIsLost(states, actions, i, j - 1, key);
      RunKeepsSnapshots(states, actions, j - 1);
      RunStep(states, actions, j - 1);
      StepLosesNothing(states[j - 1], actions[j - 1], key);
      NotLostChain(states[i].cluster.crs[key], states[j - 1].cluster.crs[key], states[j].cluster.crs[key]);
    }
  }
}
