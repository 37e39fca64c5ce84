/** What the reconciles of a run write: pods that the stored spec determines, and phases that a pod had. */
module ProtocolStatus {
  import opened Outcomes
  import opened KernelResource
  import opened ClusterStore
  import opened Reconciler
  import opened Protocol
  import opened ProtocolMerges
  import StatusMirror
  import PodGeneration
  import Deserializer
  import KernelPayloads

  // ---- a reconcile that nobody interrupts ------------------------------------------------

  ghost function RunOff(s: State, key: Key, faults: Faults, readings: StatusMirror.Clock, steps: nat): State
    decreases steps
  {
    if steps == 0 || key !in s.workers then s
    else RunOff(WorkStep(s, key, faults, readings), key, faults, readings, steps - 1)
  }

  lemma RunOffStatus(s: State, key: Key, faults: Faults, readings: StatusMirror.Clock, cr: Runnable, pod: PodStatus, steps: nat)
    requires steps > 0 && key in s.workers && s.workers[key] == WillWriteStatus(cr, pod)
    ensures RunOff(s, key, faults, readings, steps) ==
              s.(cluster := SyncStatus(s.cluster, key, StatusBody(key, cr, pod, readings), faults).0,
                  workers := s.workers - {key})
  {
    var t := WorkStep(s, key, faults, readings);
    assert RunOff(t, key, faults, readings, steps - 1) == t;
  }

  lemma RunOffAdd(s: State, key: Key, faults: Faults, readings: StatusMirror.Clock, cr: Runnable)
    requires key in s.workers && s.workers[key] == WillAddPod(cr) && key !in s.cluster.pods
    ensures var (c, pod) := SyncPod(s.cluster, key, cr, s.image, faults);
            var d := if pod.Err? then c else SyncStatus(c, key, StatusBody(key, cr, pod.value, readings), faults).0;
            !faults(ReadPod) ==> RunOff(s, key, faults, readings, 2) == s.(cluster := d, workers := s.workers - {key})
  {
    var u := WorkStep(s, key, faults, readings);
    assert RunOff(s, key, faults, readings, 2) == RunOff(u, key, faults, readings, 1);
    if key in u.workers {
      RunOffStatus(u, key, faults, readings, cr, NO_POD_STATUS, 1);
      assert u.workers - {key} == s.workers - {key};
    }
  }

  /** From the pod on. */
  lemma RunOffPod(s: State, key: Key, faults: Faults, readings: StatusMirror.Clock, cr: Runnable)
    requires key in s.workers && s.workers[key] == HasConfigMap(cr)
    ensures var (c, pod) := SyncPod(s.cluster, key, cr, s.image, faults);
            var d := if pod.Err? then c else SyncStatus(c, key, StatusBody(key, cr, pod.value, readings), faults).0;
            RunOff(s, key, faults, readings, 3) == s.(cluster := d, workers := s.workers - {key})
  {
    var t := WorkStep(s, key, faults, readings);
    if key in t.workers {
      assert t.workers - {key} == s.workers - {key};
      if t.workers[key].WillWriteStatus? {
        RunOffStatus(t, key, faults, readings, cr, s.cluster.pods[key].status, 2);
      } else {
        RunOffAdd(t, key, faults, readings, cr);
      }
    }
  }

  /** The steps of one reconcile, with nothing in between, do what `Reconcile` does. */
  lemma UninterruptedReconcile(s: State, key: Key, faults: Faults, readings: StatusMirror.Clock)
    requires key !in s.workers
    ensures RunOff(WorkStep(s, key, faults, readings), key, faults, readings, 4)
              == s.(cluster := Reconciled(s.cluster, key, s.image, faults, readings).0)
  {
    var t := WorkStep(s, key, faults, readings);
    if key in t.workers {
      assert t.workers - {key} == s.workers;
      var u := WorkStep(t, key, faults, readings);
      assert RunOff(t, key, faults, readings, 4) == RunOff(u, key, faults, readings, 3);
      if key in u.workers {
        assert u.workers - {key} == s.workers;
        RunOffPod(u, key, faults, readings, s.cluster.crs[key]);
      }
    }
  }

  // ---- pods ------------------------------------------------

  /** Whatever a reconcile holds was stored at some point of the run. */
  lemma {:induction false} WorkerHasRead(states: seq<State>, actions: seq<Action>, n: nat, key: Key) returns (i: nat)
    requires Run(states, actions) && n < |states| && key in states[n].workers
    ensures i <= n && key in states[i].cluster.crs && states[i].cluster.crs[key] == WorkerCr(states[n].workers[key])
    decreases n
  {
    assert n > 0;
    RunStep(states, actions, n - 1);
    var s, a := states[n - 1], actions[n - 1];
    if a.Work? {
      WorkersAfter(s, a.key, a.faults, a.readings, key);
      if key in s.workers && WorkerCr(states[n].workers[key]) == WorkerCr(s.workers[key]) {
        i := WorkerHasRead(states, actions, n - 1, key);
      } else {
        i := n - 1;
      }
    } else {
      WorkersLeftAlone(s, a);
      i := WorkerHasRead(states, actions, n - 1, key);
    }
  }

  lemma WorkersLeftAlone(s: State, a: Action)
    requires !a.Work?
    ensures Step(s, a).workers == s.workers
  {
    match a
    case StartMonitor(_, _, _) => MonitorsLeaveWorkers(s, a);
    case Watch(_, _) => MonitorsLeaveWorkers(s, a);
    case Busy(_, _) => MonitorsLeaveWorkers(s, a);
    case Act(_, _) => MonitorsLeaveWorkers(s, a);
    case _ =>
  }

  ghost predicate AddsPod(states: seq<State>, actions: seq<Action>, n: nat, key: Key)
    requires |states| == |actions| + 1 && n < |actions|
  {
    key !in states[n].cluster.pods && key in states[n + 1].cluster.pods
  }

  lemma PodAddedByWork(s: State, key: Key, faults: Faults, readings: StatusMirror.Clock, k: Key)
    requires k !in s.cluster.pods && k in WorkStep(s, key, faults, readings).cluster.pods
    ensures k == key && key in s.workers && s.workers[key].WillAddPod?
    ensures WorkStep(s, key, faults, readings).cluster.pods[key]
              == DesiredPod(key, s.workers[key].runnable, s.image).(status := PENDING)
  {
    if key in s.workers && !s.workers[key].WillAddPod? {
      match s.workers[key]
      case _ =>
    }
  }

  /** Pods are added by reconciles alone, and generated from the resource the reconcile read. */
  lemma AddedPod(s: State, a: Action, key: Key)
    requires key !in s.cluster.pods && key in Step(s, a).cluster.pods
    ensures a.Work? && a.key == key && key in s.workers && s.workers[key].WillAddPod?
    ensures Step(s, a).cluster.pods[key] == DesiredPod(key, s.workers[key].runnable, s.image).(status := PENDING)
  {
    if a.Work? {
      PodAddedByWork(s, a.key, a.faults, a.readings, key);
    }
  }

  lemma {:induction false} ImageStays(states: seq<State>, actions: seq<Action>, n: nat)
    requires Run(states, actions) && n < |states|
    ensures states[n].image == states[0].image
    decreases n
  {
    if n > 0 {
      ImageStays(states, actions, n - 1);
      RunStep(states, actions, n - 1);
      StepKeepsImage(states[n - 1], actions[n - 1]);
    }
  }

  lemma StepKeepsImage(s: State, a: Action)
    ensures Step(s, a).image == s.image
  {
  }

  /** No user edits the resource between the two states, whichever comes first. */
  ghost predicate NoEditBetween(actions: seq<Action>, i: nat, m: nat, key: Key)
    requires i <= |actions| && m <= |actions|
  {
    forall n :: (i <= n < m || m <= n < i) ==> !Edits(actions[n], key)
  }

  /** The resource is still, or already, this object, and no user edits it in between. */
  ghost predicate Unedited(states: seq<State>, actions: seq<Action>, i: nat, m: nat, key: Key, uid: nat)
    requires |states| == |actions| + 1 && i < |states| && m < |states|
  {
    NoEditBetween(actions, i, m, key) && key in states[m].cluster.crs && states[m].cluster.crs[key].uid == uid
  }

  /** A pod is generated from the resource as it was stored when the reconcile read it, in state `i`. So
      however often it is lost and added again, and however many reconciles changed their copies in
      between: as long as no user edits that object, the pod has the spec generated from the stored one. */
  lemma PodsAreReproduced(states: seq<State>, actions: seq<Action>, n: nat, key: Key) returns (i: nat)
    requires Run(states, actions) && n < |actions| && AddsPod(states, actions, n, key)
    ensures i <= n && key in states[i].cluster.crs && states[i].cluster.crs[key].spec.template.containers != []
    ensures states[n + 1].cluster.pods[key].spec
              == PodGeneration.GeneratedSpec(key, states[i].cluster.crs[key].spec, states[0].image)
    ensures forall m :: 0 <= m < |states| && Unedited(states, actions, i, m, key, states[i].cluster.crs[key].uid) ==>
              states[m].cluster.crs[key].spec == states[i].cluster.crs[key].spec
  {
    RunStep(states, actions, n);
    AddedPod(states[n], actions[n], key);
    ImageStays(states, actions, n);
    i := WorkerHasRead(states, actions, n, key);
    forall m | 0 <= m < |states| && Unedited(states, actions, i, m, key, states[i].cluster.crs[key].uid)
      ensures states[m].cluster.crs[key].spec == states[i].cluster.crs[key].spec
    {
      NothingIsLost(states, actions, if i <= m then i else m, if i <= m then m else i, key);
    }
  }

  // ---- phases ------------------------------------------------

  /** At this step a reconcile reads the pod of `key`, and it has this phase. */
  ghost predicate ReadsPhase(s: State, a: Action, key: Key, phase: string) {
    && a.Work? && a.key == key && !a.faults(ReadPod)
    && key in s.workers && s.workers[key].HasConfigMap?
    && key in s.cluster.pods && s.cluster.pods[key].status.phase == phase
  }

  ghost predicate PhaseRead(states: seq<State>, actions: seq<Action>, n: nat, key: Key, phase: string)
    requires n <= |actions| < |states|
  {
    phase == "" || exists i :: 0 <= i < n && ReadsPhase(states[i], actions[i], key, phase)
  }

  /** The phase a reconcile is about to write. */
  function PendingPhase(w: Worker): string {
    if w.WillWriteStatus? then w.pod.phase else ""
  }

  lemma SyncWritesPhase(c: Cluster, key: Key, body: Cr, faults: Faults, k: Key)
    requires k in SyncStatus(c, key, body, faults).0.crs
    ensures k in c.crs
    ensures var phase := SyncStatus(c, key, body, faults).0.crs[k].status.phase;
            phase == c.crs[k].status.phase || (k == key && phase == body.status.phase)
  {
  }

  lemma WorkLeavesResources(s: State, key: Key, faults: Faults, readings: StatusMirror.Clock)
    requires key !in s.workers || !s.workers[key].WillWriteStatus?
    ensures var d := WorkStep(s, key, faults, readings).cluster; d.crs == s.cluster.crs || d.crs == s.cluster.crs - {key}
  {
    if key in s.workers {
      match s.workers[key]
      case HasCr(cr) => assert SyncConfigMap(s.cluster, key, cr, faults).0.crs == s.cluster.crs;
      case _ =>
    }
  }

  lemma WorkWritesPhase(s: State, key: Key, faults: Faults, readings: StatusMirror.Clock, k: Key)
    requires k in WorkStep(s, key, faults, readings).cluster.crs
    ensures k in s.cluster.crs
    ensures var phase := WorkStep(s, key, faults, readings).cluster.crs[k].status.phase;
            phase == s.cluster.crs[k].status.phase || (k in s.workers && phase == PendingPhase(s.workers[k]))
  {
    if key in s.workers && s.workers[key].WillWriteStatus? {
      SyncWritesPhase(s.cluster, key, StatusBody(key, s.workers[key].runnable, s.workers[key].pod, readings), faults, k);
    } else {
      WorkLeavesResources(s, key, faults, readings);
    }
  }

  lemma WorkReadsPhase(s: State, key: Key, faults: Faults, readings: StatusMirror.Clock, k: Key)
    requires k in WorkStep(s, key, faults, readings).workers
    ensures var phase := PendingPhase(WorkStep(s, key, faults, readings).workers[k]);
            || phase == "" || (k in s.workers && phase == PendingPhase(s.workers[k]))
            || ReadsPhase(s, Work(key, faults, readings), k, phase)
  {
    if key in s.workers {
      match s.workers[key]
      case _ =>
    }
  }

  lemma OtherPhases(s: State, a: Action, k: Key)
    requires !a.Work?
    ensures k in Step(s, a).cluster.crs ==>
              || Step(s, a).cluster.crs[k].status.phase == ""
              || (k in s.cluster.crs && Step(s, a).cluster.crs[k].status.phase == s.cluster.crs[k].status.phase)
  {
  }

  lemma {:induction false} PhasesWereRead(states: seq<State>, actions: seq<Action>, n: nat, key: Key)
    requires Run(states, actions) && n < |states|
    ensures key in states[n].cluster.crs ==> PhaseRead(states, actions, n, key, states[n].cluster.crs[key].status.phase)
    ensures key in states[n].workers ==> PhaseRead(states, actions, n, key, PendingPhase(states[n].workers[key]))
    decreases n
  {
    if n > 0 {
      var s, a := states[n - 1], actions[n - 1];
      RunStep(states, actions, n - 1);
      PhasesWereRead(states, actions, n - 1, key);
      assert forall phase :: PhaseRead(states, actions, n - 1, key, phase) ==> PhaseRead(states, actions, n, key, phase);
      if a.Work? {
        if key in states[n].cluster.crs {
          WorkWritesPhase(s, a.key, a.faults, a.readings, key);
        }
        if key in states[n].workers {
          WorkReadsPhase(s, a.key, a.faults, a.readings, key);
        }
      } else {
        OtherPhases(s, a, key);
        WorkersLeftAlone(s, a);
      }
    }
  }

  /** The phase that a resource document carries; an empty one is left out of it. */
  predicate CarriesPhase(doc: Deserializer.Json, phase: string) {
    match KernelPayloads.Get(doc, "status")
    case None => phase == ""
    case Some(status) => KernelPayloads.Get(status, "phase") == if phase == "" then None else Some(Deserializer.Str(phase))
  }

  /** A kernel that the apiserver reports ready was seen running: some reconcile read its pod in the
      phase `Running` before. */
  lemma ReadyIsNeverInvented(states: seq<State>, actions: seq<Action>, n: nat, key: Key,
                             doc: Deserializer.Json, gen: KernelPayloads.Generated)
    requires Run(states, actions) && n < |states| && key in states[n].cluster.crs
    requires CarriesPhase(doc, states[n].cluster.crs[key].status.phase) && KernelPayloads.Get(doc, "ready") == None
    ensures var model := KernelPayloads.ReadModel(doc, gen);
            model.Some? && model.value.ready ==> exists i :: 0 <= i < n && ReadsPhase(states[i], actions[i], key, "Running")
  {
    var model := KernelPayloads.ReadModel(doc, gen);
    if model.Some? && model.value.ready {
      KernelPayloads.ReadyMeansRunning(doc, gen);
      PhasesWereRead(states, actions, n, key);
    }
  }

  /** The steps after `i` and before `j` leave the reconcile of `key` alone. */
  ghost predicate NoWorkBetween(actions: seq<Action>, i: nat, j: nat, key: Key) {
    i < j <= |actions| && forall n :: i < n < j ==> !(actions[n].Work? && actions[n].key == key)
  }

  lemma {:induction false} WorkerWaits(states: seq<State>, actions: seq<Action>, i: nat, j: nat, key: Key)
    requires Run(states, actions) && NoWorkBetween(actions, i, j, key) && key in states[i + 1].workers
    ensures key in states[j].workers && states[j].workers[key] == states[i + 1].workers[key]
    decreases j
  {
    if i + 1 < j {
      WorkerWaits(states, actions, i, j - 1, key);
      var s, a := states[j - 1], actions[j - 1];
      RunStep(states, actions, j - 1);
      if !a.Work? {
        WorkersLeftAlone(s, a);
      } else {
        assert a.key != key;
        OtherWorkersWait(s, a, key);
      }
    }
  }

  lemma OtherWorkersWait(s: State, a: Action, key: Key)
    requires a.Work? && a.key != key
    ensures key in Step(s, a).workers <==> key in s.workers
    ensures key in s.workers ==> Step(s, a).workers[key] == s.workers[key]
  {
    if a.key in s.workers {
      match s.workers[a.key]
      case _ =>
    }
  }

  /** A reconcile that has just added the pod writes the empty phase, if it writes at all, whatever
      happens to the pod in between. */
  lemma JustAddedWritesNoPhase(states: seq<State>, actions: seq<Action>, i: nat, j: nat, key: Key)
    requires Run(states, actions) && NoWorkBetween(actions, i, j, key) && j < |actions|
    requires AddsPod(states, actions, i, key) && actions[j].Work? && actions[j].key == key
    ensures key in states[j + 1].cluster.crs ==>
              key in states[j].cluster.crs
              && (states[j + 1].cluster == states[j].cluster || states[j + 1].cluster.crs[key].status.phase == "")
  {
    RunStep(states, actions, i);
    AddedPod(states[i], actions[i], key);
    WorkerWaits(states, actions, i, j, key);
    RunStep(states, actions, j);
  }
}
