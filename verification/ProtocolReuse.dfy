/** A name that is given again: from which states the next resource of a freed name can be culled though it
    was never found idle. */
module ProtocolReuse {
  import opened Outcomes
  import opened KernelResource
  import opened Reconciler
  import opened Protocol
  import opened ProtocolMerges
  import opened ProtocolStatus
  import opened ProtocolCulls
  import opened ProtocolSchedules
  import opened PodGeneration
  import StatusMirror
  import ConnectionAgreement
  import Numerals

  // ---- what a resource leaves behind ------------------------------------------------

  ghost predicate MonitorLives(s: State, key: Key) {
    exists id :: id in s.monitors && s.monitors[id].target == key
  }

  ghost predicate ContainerLives(s: State, key: Key) {
    exists c :: MonitorContainer(s, key, c)
  }

  /** A reconcile that has not looked for the pod yet, or has found none, and would give it a monitor. */
  predicate WorkerWillMonitor(s: State, key: Key) {
    && key in s.workers && (s.workers[key].HasCr? || s.workers[key].HasConfigMap? || s.workers[key].WillAddPod?)
    && WorkerCr(s.workers[key]).spec.template.containers != [] && Monitored(WorkerCr(s.workers[key]).spec, s.image)
  }

  /** There is a monitor of the name, or there may yet be one. */
  ghost predicate Watched(s: State, key: Key) {
    MonitorLives(s, key) || ContainerLives(s, key) || WorkerWillMonitor(s, key)
  }

  // ---- a name that is free and not watched stays so ------------------------------------------------

  ghost predicate CarriedHere(s: State) {
    forall key, c :: MonitorContainer(s, key, c) ==> exists t :: CarriesTimeout(c, key, t)
  }

  lemma ContainersCarry(states: seq<State>, actions: seq<Action>, n: nat)
    requires Run(states, actions) && ImageIsTheControllers(states, actions) && n < |states|
    ensures CarriedHere(states[n])
  {
    TimeoutsAreCarried(states, actions, n);
    assert TimeoutsCarried(states, n);
    forall key, c | MonitorContainer(states[n], key, c) ensures exists t :: CarriesTimeout(c, key, t) {
      var t :| HadTimeout(states, n, key, t) && CarriesTimeout(c, key, t);
    }
  }

  lemma MonitorsComeFromPods(s: State, a: Action, key: Key)
    requires CarriedHere(s) && MonitorLives(Step(s, a), key)
    ensures MonitorLives(s, key) || ContainerLives(s, key)
  {
    var id :| id in Step(s, a).monitors && Step(s, a).monitors[id].target == key;
    MonitorsComeAlong(s, a, id);
    if !(id in s.monitors && s.monitors[id].target == key) {
      var m := Step(s, a).monitors[id];
      var c := s.cluster.pods[a.key].spec.containers[a.container];
      assert MonitorContainer(s, a.key, c);
      var t :| CarriesTimeout(c, a.key, t);
      StartedWithTimeout(c, a.key, t, s.clock, m);
    }
  }

  /** Only the sidecar runs the monitor's image. */
  lemma OnlyMonitoredCarry(key: Key, spec: Spec, image: string, c: Container)
    requires spec.template.containers != [] && OwnContainers(spec, image)
    requires c in GeneratedSpec(key, spec, image).containers && c.image == image
    ensures Monitored(spec, image)
  {
    var cs := spec.template.containers;
    assert cs[0] in cs && MainContainer(key.name, spec).image == cs[0].image;
    assert forall d :: d in cs[1..] ==> d in cs;
  }

  lemma ContainersComeFromWorkers(s: State, a: Action, key: Key)
    requires ContainerLives(Step(s, a), key)
    requires key in s.workers ==> OwnContainers(WorkerCr(s.workers[key]).spec, s.image)
    ensures ContainerLives(s, key) || WorkerWillMonitor(s, key)
  {
    var c :| MonitorContainer(Step(s, a), key, c);
    StepKeepsImage(s, a);
    if key in s.cluster.pods {
      PodsComeAlong(s, a, key);
      assert MonitorContainer(s, key, c);
    } else {
      AddedPod(s, a, key);
      OnlyMonitoredCarry(key, s.workers[key].runnable.spec, s.image, c);
    }
  }

  lemma WorkersGoOn(s: State, a: Action, key: Key)
    requires key !in s.cluster.crs && WorkerWillMonitor(Step(s, a), key)
    ensures WorkerWillMonitor(s, key)
  {
    StepKeepsImage(s, a);
    if a.Work? {
      WorkersAfter(s, a.key, a.faults, a.readings, key);
      WorkersMove(s, a.key, a.faults, a.readings, key);
    } else {
      WorkersLeftAlone(s, a);
    }
  }

  lemma WorkersMove(s: State, key: Key, faults: Faults, readings: StatusMirror.Clock, k: Key)
    requires k in s.workers && k in WorkStep(s, key, faults, readings).workers
    ensures var w := WorkStep(s, key, faults, readings).workers[k];
            w == s.workers[k] || ((s.workers[k].HasCr? || s.workers[k].HasConfigMap? || s.workers[k].WillAddPod?)
                                  && (w.HasConfigMap? || w.WillAddPod? || w.WillWriteStatus?))
  {
    if k == key {
      match s.workers[key]
      case _ =>
    }
  }

  lemma WorkersOwnContainers(states: seq<State>, actions: seq<Action>, n: nat, key: Key)
    requires Run(states, actions) && ImageIsTheControllers(states, actions) && n < |states| && key in states[n].workers
    ensures OwnContainers(WorkerCr(states[n].workers[key]).spec, states[n].image)
  {
    var i := WorkerHasRead(states, actions, n, key);
    TimeoutsAreCarried(states, actions, i);
    assert TimeoutsCarried(states, i);
    ImageStays(states, actions, i);
    ImageStays(states, actions, n);
  }

  lemma WatchedBefore(states: seq<State>, actions: seq<Action>, n: nat, key: Key)
    requires Tame(states, actions, key) && n < |actions|
    requires key !in states[n].cluster.crs && Watched(states[n + 1], key)
    ensures Watched(states[n], key)
  {
    var s, a := states[n], actions[n];
    RunStep(states, actions, n);
    if MonitorLives(Step(s, a), key) {
      ContainersCarry(states, actions, n);
      MonitorsComeFromPods(s, a, key);
    } else if ContainerLives(Step(s, a), key) {
      if key in s.workers {
        WorkersOwnContainers(states, actions, n, key);
      }
      ContainersComeFromWorkers(s, a, key);
    } else {
      WorkersGoOn(s, a, key);
    }
  }

  // ---- the safe half ------------------------------------------------

  /** While the name is free and was not watched when it became free, it is not watched. */
  lemma {:induction false} StaysUnwatched(states: seq<State>, actions: seq<Action>, k: nat, i: nat, n: nat, key: Key)
    requires Tame(states, actions, key) && k <= i <= n < |states| && key in states[n].cluster.crs
    requires NamesOne(states, k, n, key) && key !in states[i].cluster.crs && !Watched(states[k], key)
    ensures !Watched(states[i], key)
    decreases i
  {
    if k < i {
      if key in states[i - 1].cluster.crs {
        ThereInBetween(states, actions, i - 1, i, n, key);
      } else {
        StaysUnwatched(states, actions, k, i - 1, n, key);
        if Watched(states[i], key) {
          WatchedBefore(states, actions, i - 1, key);
        }
      }
    }
  }

  /** Unless a verdict comes after state `k`, the name was armed in it. */
  lemma {:induction false} ArmedSince(states: seq<State>, actions: seq<Action>, k: nat, n: nat, key: Key)
    requires Tame(states, actions, key) && k <= n < |states| && Armed(states[n], key)
    requires forall i :: k <= i < n ==> !FindsIdle(states[i], actions[i], key)
    ensures Armed(states[k], key)
    decreases n
  {
    if k < n {
      RunStep(states, actions, n - 1);
      RunKeepsSnapshots(states, actions, n - 1);
      ArmedBefore(states[n - 1], actions[n - 1], key);
      ArmedSince(states, actions, k, n - 1, key);
    }
  }

  /** A name that is free can give an unjudged resource away only if it is armed or watched. */
  lemma UnjudgedNeedsThreat(states: seq<State>, actions: seq<Action>, k: nat, key: Key)
    requires Tame(states, actions, key) && k < |actions| && CullsUnjudged(states, actions, key)
    requires NamesOne(states, k, |actions| - 1, key)
    ensures Armed(states[k], key) || Watched(states[k], key)
  {
    var n := |actions| - 1;
    if !Watched(states[k], key) {
      forall i | k <= i < n ensures !FindsIdle(states[i], actions[i], key) {
        if key !in states[i].cluster.crs {
          StaysUnwatched(states, actions, k, i, n, key);
        }
      }
      RunStep(states, actions, n);
      CullsAreCulls(states[n], actions[n], key);
      ArmedSince(states, actions, k, n, key);
    }
  }

  // ---- the unsafe half ------------------------------------------------

  /** From state `k` on, the name is free. */
  ghost predicate FreeSince(states: seq<State>, k: nat, key: Key) {
    forall i :: k <= i < |states| ==> key !in states[i].cluster.crs
  }

  /** A tame run in which the name is still free, and nothing was created since. */
  ghost predicate StillFree(states: seq<State>, actions: seq<Action>, ss: seq<State>, all: seq<Action>, key: Key) {
    && Tame(ss, all, key) && states <= ss && actions <= all && |states| == |actions| + 1
    && FreeSince(ss, |actions|, key) && forall n :: |actions| <= n < |all| ==> !all[n].Create?
  }

  lemma OneMore(states: seq<State>, actions: seq<Action>, ss: seq<State>, all: seq<Action>, a: Action, key: Key)
    returns (tt: seq<State>, more: seq<Action>)
    requires StillFree(states, actions, ss, all, key) && !a.Create? && !a.Edit?
    requires key !in Step(Last(ss), a).cluster.crs
    ensures StillFree(states, actions, tt, more, key) && Last(tt) == Step(Last(ss), a)
  {
    tt, more := Then(ss, all, a, key);
  }

  /** A waiting monitor comes to a verdict when the time is over. */
  lemma FromSleeping(states: seq<State>, actions: seq<Action>, ss: seq<State>, all: seq<Action>, id: nat, key: Key)
    returns (tt: seq<State>, more: seq<Action>)
    requires StillFree(states, actions, ss, all, key) && id in Last(ss).monitors
    requires Last(ss).monitors[id].target == key && Last(ss).monitors[id].main.Sleeping?
    ensures StillFree(states, actions, tt, more, key) && Armed(Last(tt), key)
  {
    var s := Last(ss);
    var due := s.monitors[id].last + s.monitors[id].timeout as real;
    var now := (if due < s.clock then s.clock else due) + 1.0;
    Verdict(s, id, now);
    tt, more := OneMore(states, actions, ss, all, SetClock(now), key);
    tt, more := OneMore(states, actions, tt, more, Watch(id, false), key);
    tt, more := OneMore(states, actions, tt, more, Watch(id, false), key);
    assert PendingFor(Last(tt), key, id);
  }

  lemma FromMonitor(states: seq<State>, actions: seq<Action>, ss: seq<State>, all: seq<Action>, key: Key)
    returns (tt: seq<State>, more: seq<Action>)
    requires StillFree(states, actions, ss, all, key) && MonitorLives(Last(ss), key)
    ensures StillFree(states, actions, tt, more, key) && Armed(Last(tt), key)
  {
    var s := Last(ss);
    var id :| id in s.monitors && s.monitors[id].target == key;
    tt, more := ss, all;
    if s.monitors[id].main.WillLabel? {
      assert PendingFor(s, key, id);
    } else {
      if !s.monitors[id].main.Sleeping? {
        tt, more := OneMore(states, actions, ss, all, Watch(id, false), key);
      }
      if Last(tt).monitors[id].main.WillLabel? {
        assert PendingFor(Last(tt), key, id);
      } else {
        tt, more := FromSleeping(states, actions, tt, more, id, key);
      }
    }
  }

  lemma AboveAll(ids: set<nat>) returns (id: nat)
    ensures forall i :: i in ids ==> i < id
  {
    if ids == {} {
      id := 0;
    } else {
      var i :| i in ids;
      var above := AboveAll(ids - {i});
      id := if above <= i then i + 1 else above;
      assert ids == ids - {i} + {i};
    }
  }

  lemma StartsHere(c: Container, key: Key, t: int, now: real)
    requires CarriesTimeout(c, key, t)
    ensures var m := MonitorFor(c.env, now); m.Some? && m.value.target == key
  {
    Numerals.ParsePrintedInt(t);
    var interval := IntOr(ConnectionAgreement.LookupEnv(c.env, "CULLING_INTERVAL"), 60).value;
    assert MonitorFor(c.env, now) == Some(Monitor(key, t, interval, now, Sleeping, Listening));
  }

  lemma FromContainer(states: seq<State>, actions: seq<Action>, ss: seq<State>, all: seq<Action>, key: Key)
    returns (tt: seq<State>, more: seq<Action>)
    requires StillFree(states, actions, ss, all, key) && ContainerLives(Last(ss), key)
    ensures StillFree(states, actions, tt, more, key) && Armed(Last(tt), key)
  {
    var s := Last(ss);
    var c :| MonitorContainer(s, key, c);
    ContainersCarry(ss, all, |all|);
    var t :| CarriesTimeout(c, key, t);
    StartsHere(c, key, t, s.clock);
    var i :| 0 <= i < |s.cluster.pods[key].spec.containers| && s.cluster.pods[key].spec.containers[i] == c;
    var id := AboveAll(s.monitors.Keys);
    tt, more := OneMore(states, actions, ss, all, StartMonitor(id, key, i), key);
    assert id in Last(tt).monitors && Last(tt).monitors[id].target == key;
    tt, more := FromMonitor(states, actions, tt, more, key);
  }

  lemma AddsMonitor(s: State, key: Key)
    requires key !in s.cluster.crs && key !in s.cluster.pods && WorkerWillMonitor(s, key) && s.workers[key].WillAddPod?
    ensures var t := Step(s, Work(key, NO_FAULTS, READINGS)); t.cluster.crs == s.cluster.crs && ContainerLives(t, key)
  {
    var t := Step(s, Work(key, NO_FAULTS, READINGS));
    var cs := t.cluster.pods[key].spec.containers;
    assert cs[|cs| - 1] == Sidecar(key, s.workers[key].runnable.spec, s.image);
    assert MonitorContainer(t, key, cs[|cs| - 1]);
  }

  /** One more call of a reconcile that will give the pod a monitor. */
  lemma WorkerProceeds(s: State, key: Key)
    requires key !in s.cluster.crs && key !in s.cluster.pods && WorkerWillMonitor(s, key) && !s.workers[key].WillAddPod?
    ensures var t := Step(s, Work(key, NO_FAULTS, READINGS));
            && t.cluster.crs == s.cluster.crs && key !in t.cluster.pods && WorkerWillMonitor(t, key)
            && ToGo(t, key) < ToGo(s, key)
  {
    if s.workers[key].HasCr? {
      SyncsLeaveTheRest(s.cluster, key, s.workers[key].cr, NO_FAULTS);
      assert SyncConfigMap(s.cluster, key, s.workers[key].cr, NO_FAULTS).1 == Done;
    }
  }

  /** The calls up to the pod. */
  function ToGo(s: State, key: Key): nat {
    if key !in s.workers then 0 else if s.workers[key].HasCr? then 3 else if s.workers[key].HasConfigMap? then 2 else 1
  }

  lemma FromReconcile(states: seq<State>, actions: seq<Action>, ss: seq<State>, all: seq<Action>, key: Key)
    returns (tt: seq<State>, more: seq<Action>)
    requires StillFree(states, actions, ss, all, key) && WorkerWillMonitor(Last(ss), key)
    ensures StillFree(states, actions, tt, more, key) && Armed(Last(tt), key)
    decreases key in Last(ss).cluster.pods, ToGo(Last(ss), key)
  {
    var s := Last(ss);
    if key in s.cluster.pods {
      tt, more := OneMore(states, actions, ss, all, PodGone(key), key);
      tt, more := FromReconcile(states, actions, tt, more, key);
    } else {
      if s.workers[key].WillAddPod? {
        AddsMonitor(s, key);
        tt, more := OneMore(states, actions, ss, all, Work(key, NO_FAULTS, READINGS), key);
        tt, more := FromContainer(states, actions, tt, more, key);
      } else {
        WorkerProceeds(s, key);
        tt, more := OneMore(states, actions, ss, all, Work(key, NO_FAULTS, READINGS), key);
        tt, more := FromReconcile(states, actions, tt, more, key);
      }
    }
  }

  // ---- both ------------------------------------------------

  /** A longer tame run whose last step culls the next resource of the name, created with the spec `next`, which
      no monitor iteration ever found idle. */
  ghost predicate GoesOnToCull(states: seq<State>, actions: seq<Action>, ss: seq<State>, all: seq<Action>, key: Key, next: Spec) {
    && Tame(ss, all, key) && states <= ss && actions <= all && |actions| < |all|
    && CullsUnjudged(ss, all, key) && NamesOne(ss, |actions|, |all| - 1, key) && CreatedWith(all, |actions|, key, next)
  }

  lemma FromArmedLater(states: seq<State>, actions: seq<Action>, ss: seq<State>, all: seq<Action>, key: Key, next: Spec)
    returns (tt: seq<State>, more: seq<Action>)
    requires StillFree(states, actions, ss, all, key) && |ss| == |all| + 1 && Armed(Last(ss), key)
    requires OwnContainers(next, Last(ss).image)
    ensures GoesOnToCull(states, actions, tt, more, key, next)
  {
    tt, more := NewcomerIsCulled(ss, all, key, next);
    forall n | |actions| <= n < |all| ensures !more[n].Create? {
      assert more[n] == all[n];
    }
    var n := |more| - 1;
    forall i | |actions| <= i < |ss| ensures key !in tt[i].cluster.crs {
      assert tt[i] == ss[i];
    }
  }

  lemma ArmsItself(states: seq<State>, actions: seq<Action>, key: Key) returns (ss: seq<State>, all: seq<Action>)
    requires Tame(states, actions, key) && key !in Last(states).cluster.crs
    requires Armed(Last(states), key) || Watched(Last(states), key)
    ensures StillFree(states, actions, ss, all, key) && Armed(Last(ss), key)
  {
    ss, all := states, actions;
    if !Armed(Last(states), key) {
      if MonitorLives(Last(states), key) {
        ss, all := FromMonitor(states, actions, states, actions, key);
      } else if ContainerLives(Last(states), key) {
        ss, all := FromContainer(states, actions, states, actions, key);
      } else {
        ss, all := FromReconcile(states, actions, states, actions, key);
      }
    }
  }

  /** When a name is free, its next resource, whatever its spec, may be culled without ever having been found
      idle exactly if a verdict on the name is under way, a monitor of the name runs, a pod could still start
      one, or a reconcile could still add such a pod. */
  lemma ReuseIsUnsafeIff(states: seq<State>, actions: seq<Action>, key: Key, next: Spec)
    requires Tame(states, actions, key) && key !in Last(states).cluster.crs && OwnContainers(next, Last(states).image)
    ensures (exists ss, all :: GoesOnToCull(states, actions, ss, all, key, next))
            <==> Armed(Last(states), key) || Watched(Last(states), key)
  {
    var s, k := Last(states), |actions|;
    if ss, all :| GoesOnToCull(states, actions, ss, all, key, next) {
      assert ss[k] == s;
      UnjudgedNeedsThreat(ss, all, k, key);
    }
    if Armed(s, key) || Watched(s, key) {
      var ss, all := ArmsItself(states, actions, key);
      ImageStays(states, actions, k);
      ImageStays(ss, all, |all|);
      ss, all := FromArmedLater(states, actions, ss, all, key, next);
    }
  }
}
