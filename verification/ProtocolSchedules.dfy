/** When a verdict outlives the resource it was about: the exact condition under which a name can still be
    culled without a new verdict, and runs in which the wrong resource is culled, or a right one too early. */
module ProtocolSchedules {
  import opened KernelResource
  import opened ClusterStore
  import opened Reconciler
  import opened Protocol
  import opened ProtocolMerges
  import opened ProtocolStatus
  import opened ProtocolCulls
  import opened PodGeneration
  import ConnectionAgreement
  import StatusMirror
  import Numerals

  // ---- schedules ------------------------------------------------

  /** The actions are taken one after the other, and no monitor of the key comes to a verdict in them; nor do
      users set its idle label. */
  ghost predicate WithoutVerdict(s: State, actions: seq<Action>, key: Key)
    decreases |actions|
  {
    actions == [] || (LeavesLabel(s, actions[0], key) && !FindsIdle(s, actions[0], key)
                      && WithoutVerdict(Step(s, actions[0]), actions[1..], key))
  }

  /** In this step the controller deletes the resource. */
  ghost predicate CulledBy(s: State, a: Action, key: Key) {
    a.Work? && key in s.cluster.crs && key !in Step(s, a).cluster.crs
  }

  ghost predicate EndsInCull(s: State, actions: seq<Action>, key: Key)
    decreases |actions|
  {
    actions != [] && if |actions| == 1 then CulledBy(s, actions[0], key) else EndsInCull(Step(s, actions[0]), actions[1..], key)
  }

  ghost predicate CullMayCome(s: State, key: Key) {
    exists actions :: WithoutVerdict(s, actions, key) && EndsInCull(s, actions, key)
  }

  const NO_FAULTS: Faults := _ => false
  const ALL_FAULTS: Faults := _ => true
  const READINGS: StatusMirror.Clock := _ => 0

  /** Steps of the controller and the monitors, and if need be the creation of a resource of that name with the
      spec `next`. */
  ghost predicate Plain(actions: seq<Action>, key: Key, next: Spec, create: bool) {
    forall a :: a in actions ==> a.Work? || a.Watch? || (create && a == Create(key, map[], map[], next))
  }

  /** A resource of that name, once there, is there until the last of the actions. */
  ghost predicate KeepsTheName(s: State, actions: seq<Action>, key: Key)
    decreases |actions|
  {
    || |actions| <= 1
    || ((key in s.cluster.crs ==> key in Step(s, actions[0]).cluster.crs)
        && KeepsTheName(Step(s, actions[0]), actions[1..], key))
  }

  ghost predicate Leads(s: State, actions: seq<Action>, key: Key, next: Spec) {
    && WithoutVerdict(s, actions, key) && EndsInCull(s, actions, key) && KeepsTheName(s, actions, key)
    && Plain(actions, key, next, key !in s.cluster.crs)
  }

  /** One more action in front. */
  lemma First(s: State, a: Action, rest: seq<Action>, key: Key, next: Spec) returns (actions: seq<Action>)
    requires LeavesLabel(s, a, key) && !FindsIdle(s, a, key) && Leads(Step(s, a), rest, key, next)
    requires a.Work? || a.Watch? || (key !in s.cluster.crs && a == Create(key, map[], map[], next))
    requires key in s.cluster.crs ==> key in Step(s, a).cluster.crs
    ensures Leads(s, actions, key, next)
  {
    actions := [a] + rest;
    assert actions[1..] == rest;
  }

  // ---- from an armed name to a cull ------------------------------------------------

  lemma FromWorker(s: State, key: Key, next: Spec) returns (actions: seq<Action>)
    requires WorkerWillCull(s, key)
    ensures Leads(s, actions, key, next)
    decreases key !in s.cluster.crs
  {
    var cull := Work(key, NO_FAULTS, READINGS);
    if key in s.cluster.crs {
      actions := [cull];
      assert CulledBy(s, cull, key);
      assert WithoutVerdict(Step(s, cull), actions[1..], key);
    } else {
      var create := Create(key, map[], map[], next);
      actions := FromWorker(Step(s, create), key, next);
      actions := First(s, create, actions, key, next);
    }
  }

  /** The calls a reconcile that will not cull still has to fail to be over. */
  function Calls(s: State, key: Key): nat {
    if key !in s.workers then 0 else if s.workers[key].HasCr? then 2 else 1
  }

  lemma FailedCall(s: State, key: Key)
    requires key in s.workers && !WorkerWillCull(s, key)
    ensures var t := Step(s, Work(key, ALL_FAULTS, READINGS));
            t.cluster.crs == s.cluster.crs && !WorkerWillCull(t, key) && Calls(t, key) < Calls(s, key)
  {
    match s.workers[key]
    case _ =>
  }

  lemma FromLabel(s: State, key: Key, next: Spec) returns (actions: seq<Action>)
    requires HasIdleLabel(s.cluster, key)
    ensures Leads(s, actions, key, next)
    decreases Calls(s, key)
  {
    if WorkerWillCull(s, key) {
      actions := FromWorker(s, key, next);
    } else {
      var a := Work(key, if key in s.workers then ALL_FAULTS else NO_FAULTS, READINGS);
      if key in s.workers {
        FailedCall(s, key);
        actions := FromLabel(Step(s, a), key, next);
      } else {
        actions := FromWorker(Step(s, a), key, next);
      }
      actions := First(s, a, actions, key, next);
    }
  }

  lemma FromSnapshot(s: State, key: Key, id: nat, next: Spec) returns (actions: seq<Action>)
    requires PendingFor(s, key, id) && s.monitors[id].main.HasSnapshot?
    ensures Leads(s, actions, key, next)
  {
    var a := Watch(id, false);
    PatchKeeps(s.monitors[id].main.cr.labels, IDLE_LABEL, "true");
    actions := FromLabel(Step(s, a), key, next);
    actions := First(s, a, actions, key, next);
  }

  lemma FromDecision(s: State, key: Key, id: nat, next: Spec) returns (actions: seq<Action>)
    requires PendingFor(s, key, id) && s.monitors[id].main.WillLabel?
    ensures Leads(s, actions, key, next)
    decreases key !in s.cluster.crs
  {
    if key in s.cluster.crs {
      var a := Watch(id, false);
      actions := FromSnapshot(Step(s, a), key, id, next);
      actions := First(s, a, actions, key, next);
    } else {
      var create := Create(key, map[], map[], next);
      actions := FromDecision(Step(s, create), key, id, next);
      actions := First(s, create, actions, key, next);
    }
  }

  lemma FromArmed(s: State, key: Key, next: Spec) returns (actions: seq<Action>)
    requires Armed(s, key)
    ensures Leads(s, actions, key, next)
  {
    if HasIdleLabel(s.cluster, key) {
      actions := FromLabel(s, key, next);
    } else if WorkerWillCull(s, key) {
      actions := FromWorker(s, key, next);
    } else {
      var id :| PendingFor(s, key, id);
      if s.monitors[id].main.WillLabel? {
        actions := FromDecision(s, key, id, next);
      } else {
        actions := FromSnapshot(s, key, id, next);
      }
    }
  }

  // ---- and back ------------------------------------------------

  lemma {:induction false} ArmedForCull(s: State, actions: seq<Action>, key: Key)
    requires Snapshots(s) && WithoutVerdict(s, actions, key) && EndsInCull(s, actions, key)
    ensures Armed(s, key)
    decreases |actions|
  {
    if |actions| == 1 {
      CullsAreCulls(s, actions[0], key);
    } else {
      StepKeepsSnapshots(s, actions[0]);
      ArmedForCull(Step(s, actions[0]), actions[1..], key);
      ArmedBefore(s, actions[0], key);
    }
  }

  /** From a reachable state, whether or not a resource of the name is there, a resource of that name may be
      culled without any new verdict on the name exactly when the name is armed. */
  lemma CullMayComeIffArmed(states: seq<State>, actions: seq<Action>, n: nat, key: Key)
    requires Run(states, actions) && n < |states|
    ensures CullMayCome(states[n], key) <==> Armed(states[n], key)
  {
    var s := states[n];
    RunKeepsSnapshots(states, actions, n);
    if CullMayCome(s, key) {
      var schedule :| WithoutVerdict(s, schedule, key) && EndsInCull(s, schedule, key);
      ArmedForCull(s, schedule, key);
    }
    if Armed(s, key) {
      var schedule := FromArmed(s, key, Spec(PodSpec([], [], "", ""), 0, 0, NO_CONNECTION, ""));
    }
  }

  // ---- building runs ------------------------------------------------

  /** A run in which no user sets the idle label of the key or starts the monitor's image. */
  ghost predicate Tame(states: seq<State>, actions: seq<Action>, key: Key) {
    Run(states, actions) && LabelIsTheMonitors(states, actions, key) && ImageIsTheControllers(states, actions)
  }

  function Last(states: seq<State>): State
    requires states != []
  {
    states[|states| - 1]
  }

  ghost predicate IsTame(s: State, a: Action, key: Key) {
    LeavesLabel(s, a, key) && (a.Create? || a.Edit? ==> OwnContainers(a.spec, s.image))
  }

  lemma Then(states: seq<State>, actions: seq<Action>, a: Action, key: Key) returns (ss: seq<State>, all: seq<Action>)
    requires Tame(states, actions, key) && IsTame(Last(states), a, key)
    ensures Tame(ss, all, key) && all == actions + [a] && ss == states + [Step(Last(states), a)]
  {
    ss, all := states + [Step(Last(states), a)], actions + [a];
    forall i | 0 <= i < |all| ensures Follows(ss, all, i) {
      if i < |actions| {
        assert Follows(states, actions, i);
      }
    }
    forall n | 0 <= n < |all| ensures LeavesLabel(ss[n], all[n], key) {}
  }

  ghost predicate NoVerdictSince(states: seq<State>, actions: seq<Action>, n: nat, key: Key)
    requires |states| == |actions| + 1
  {
    forall i :: n <= i < |actions| ==> !FindsIdle(states[i], actions[i], key)
  }

  /** From state `k` on, the name names nothing but the resource that has it in state `n`. */
  ghost predicate NamesOne(states: seq<State>, k: nat, n: nat, key: Key)
    requires n < |states| && key in states[n].cluster.crs
  {
    forall i :: k <= i <= n && key in states[i].cluster.crs ==> IsObject(states[i].cluster, key, states[n].cluster.crs[key].uid)
  }

  lemma NamesOneMore(states: seq<State>, actions: seq<Action>, k: nat, n: nat, key: Key)
    requires Run(states, actions) && k < n < |states| && key in states[n].cluster.crs && NamesOne(states, k + 1, n, key)
    requires key in states[k].cluster.crs ==> key in states[k + 1].cluster.crs
    ensures NamesOne(states, k, n, key)
  {
    RunStep(states, actions, k);
    RunKeepsSnapshots(states, actions, k);
    if key in states[k].cluster.crs {
      StepKeepsUid(states[k], actions[k], key);
    }
  }

  /** Goes on with a schedule that ends in a cull. */
  lemma {:induction false} GoOn(states: seq<State>, actions: seq<Action>, rest: seq<Action>, key: Key, next: Spec, create: bool)
    returns (ss: seq<State>, all: seq<Action>)
    requires Tame(states, actions, key) && OwnContainers(next, Last(states).image)
    requires WithoutVerdict(Last(states), rest, key) && EndsInCull(Last(states), rest, key)
    requires KeepsTheName(Last(states), rest, key) && Plain(rest, key, next, create)
    ensures Tame(ss, all, key) && states <= ss && all == actions + rest && rest != []
    ensures Culls(ss, all, |all| - 1, key) && NoVerdictSince(ss, all, |actions|, key)
    ensures NamesOne(ss, |actions|, |all| - 1, key)
    decreases |rest|
  {
    var s, a := Last(states), rest[0];
    assert a in rest;
    ss, all := Then(states, actions, a, key);
    if |rest| > 1 {
      var longer := ss;
      StepKeepsImage(s, a);
      ss, all := GoOn(ss, all, rest[1..], key, next, create);
      Rejoin(actions, a, rest);
      assert ss[|actions|] == longer[|actions|] == s && all[|actions|] == a;
      assert ss[|actions| + 1] == longer[|actions| + 1] == Step(s, a);
      NamesOneMore(ss, all, |actions|, |all| - 1, key);
    } else {
      Rejoin(actions, a, rest);
    }
  }

  lemma Rejoin(front: seq<Action>, a: Action, rest: seq<Action>)
    requires rest != [] && a == rest[0]
    ensures front + rest == (front + [a]) + rest[1..] && (front + rest)[|front|] == a
  {
  }

  // ---- a cull of a resource that nobody found idle ------------------------------------------------

  /** Whatever has the name after it was free has a uid that was not handed out before. */
  lemma {:induction false} NewUid(states: seq<State>, actions: seq<Action>, k: nat, n: nat, key: Key)
    requires Run(states, actions) && k <= n < |states| && key !in states[k].cluster.crs
    ensures key in states[n].cluster.crs ==> states[k].cluster.nextUid <= states[n].cluster.crs[key].uid
    decreases n
  {
    if k < n {
      NewUid(states, actions, k, n - 1, key);
      UidsGrow(states, actions, k, n - 1);
      RunKeepsSnapshots(states, actions, n - 1);
      RunStep(states, actions, n - 1);
      StepAdvances(states[n - 1], actions[n - 1]);
    }
  }

  lemma OldUid(states: seq<State>, actions: seq<Action>, i: nat, k: nat, key: Key)
    requires Run(states, actions) && i <= k < |states|
    ensures key in states[i].cluster.crs ==> states[i].cluster.crs[key].uid < states[k].cluster.nextUid
  {
    RunKeepsSnapshots(states, actions, i);
    UidsGrow(states, actions, i, k);
  }

  /** The last step culls an object that no monitor iteration of the run ever found idle. */
  ghost predicate CullsUnjudged(states: seq<State>, actions: seq<Action>, key: Key)
    requires 0 < |actions| < |states|
  {
    && Culls(states, actions, |actions| - 1, key)
    && forall i :: 0 <= i < |actions| && FindsIdle(states[i], actions[i], key) ==>
         !IsObject(states[i].cluster, key, states[|actions| - 1].cluster.crs[key].uid)
  }

  /** From step `k` on, resources of that name are created with this spec. */
  ghost predicate CreatedWith(actions: seq<Action>, k: nat, key: Key, spec: Spec) {
    forall n :: k <= n < |actions| && actions[n].Create? && actions[n].key == key ==> actions[n].spec == spec
  }

  /** A run that frees an armed name can go on to cull the next resource of that name, whatever its spec, and
      though no monitor ever found it idle. */
  lemma NewcomerIsCulled(states: seq<State>, actions: seq<Action>, key: Key, next: Spec)
    returns (ss: seq<State>, all: seq<Action>)
    requires Tame(states, actions, key) && key !in Last(states).cluster.crs && Armed(Last(states), key)
    requires OwnContainers(next, Last(states).image)
    ensures Tame(ss, all, key) && states <= ss && actions <= all && all != [] && CullsUnjudged(ss, all, key)
    ensures |actions| < |all| && NamesOne(ss, |actions|, |all| - 1, key) && CreatedWith(all, |actions|, key, next)
  {
    var k := |actions|;
    var rest := FromArmed(states[k], key, next);
    ss, all := GoOn(states, actions, rest, key, next, true);
    forall n | k <= n < |all| ensures all[n].Create? ==> all[n].spec == next {
      assert all[n] == rest[n - k] && all[n] in rest;
    }
    var n := |all| - 1;
    assert ss[k] == states[k];
    NewUid(ss, all, k, n, key);
    forall i | 0 <= i < |all| && FindsIdle(ss[i], all[i], key)
      ensures !IsObject(ss[i].cluster, key, ss[n].cluster.crs[key].uid)
    {
      OldUid(ss, all, i, k, key);
    }
  }

  // ---- a monitor at work ------------------------------------------------

  /** A spec that gets a monitor, and whose own containers do not run the monitor's image. */
  predicate Watchable(spec: Spec, image: string) {
    spec.template.containers != [] && Monitored(spec, image) && OwnContainers(spec, image)
  }

  /** The resource is there, and monitor 0 of it has just started. */
  ghost predicate Watching(s: State, key: Key, spec: Spec, image: string) {
    && s.image == image && s.clock == 0.0
    && key in s.cluster.crs && s.cluster.crs[key].spec == spec && !IdleLabelled(s.cluster.crs[key].labels)
    && 0 in s.monitors
    && s.monitors[0] == Monitor(key, spec.idleTimeoutSeconds as int, CullingInterval(spec) as int, 0.0, Sleeping, Listening)
  }

  function Start(image: string): State { State(image, Cluster(map[], map[], map[], 0, 0, 0), map[], map[], 0.0) }

  /** The first actions of a run: the resource is created, and a reconcile adds its pod. */
  lemma Created(image: string, key: Key, spec: Spec)
    requires Watchable(spec, image)
    ensures var work := Work(key, NO_FAULTS, READINGS);
            var s1 := Step(Start(image), Create(key, map[], map[], spec));
            var s2 := Step(s1, work);
            && key in s1.cluster.crs && s1.cluster.crs[key] == Cr(0, 0, map[], map[], spec, NO_STATUS)
            && s2 == s1.(workers := map[key := HasCr(s1.cluster.crs[key])])
            && s1.workers == map[] && s1.monitors == map[] && s1.cluster.pods == map[] && s1.cluster.configMaps == map[]
            && s1.image == image && s1.clock == 0.0
  {
  }

  lemma Reconciling(s: State, key: Key, cr: Runnable)
    requires key in s.workers && s.workers[key] == HasCr(cr) && key !in s.cluster.pods && key !in s.cluster.configMaps
    ensures var work := Work(key, NO_FAULTS, READINGS);
            var t := Step(Step(Step(s, work), work), work);
            && t.cluster.crs == s.cluster.crs && t.monitors == s.monitors && t.image == s.image && t.clock == s.clock
            && key in t.cluster.pods
            && t.cluster.pods[key].spec == GeneratedSpec(key, cr.spec, s.image)
  {
    var work := Work(key, NO_FAULTS, READINGS);
    var s1 := Step(s, work);
    assert s1.workers[key] == HasConfigMap(cr) && s1.cluster.pods == s.cluster.pods;
    var s2 := Step(s1, work);
    assert s2.workers[key] == WillAddPod(cr);
  }

  /** The resource and its pod are there, and no monitor yet. */
  ghost predicate PodAdded(s: State, key: Key, spec: Spec, image: string) {
    && s.image == image && s.clock == 0.0 && s.monitors == map[]
    && key in s.cluster.crs && s.cluster.crs[key].spec == spec && !IdleLabelled(s.cluster.crs[key].labels)
    && spec.template.containers != [] && key in s.cluster.pods && s.cluster.pods[key].spec == GeneratedSpec(key, spec, image)
  }

  lemma Starting(s: State, key: Key, spec: Spec)
    requires Watchable(spec, s.image) && PodAdded(s, key, spec, s.image)
    ensures var sidecar := |GeneratedSpec(key, spec, s.image).containers| - 1;
            Watching(Step(s, StartMonitor(0, key, sidecar)), key, spec, s.image)
  {
    var cs := GeneratedSpec(key, spec, s.image).containers;
    assert cs[|cs| - 1] == Sidecar(key, spec, s.image);
    ConnectionAgreement.MonitorReads(key, spec);
    Numerals.ParsePrintedInt(spec.idleTimeoutSeconds as int);
    Numerals.ParsePrintedInt(CullingInterval(spec) as int);
  }

  /** Users ask for the timeout `from` when they create the resource, and for `to` when they edit it. */
  ghost predicate AsksFor(a: Action, key: Key, from: int32, to: int32) {
    && (a.Create? && a.key == key ==> a.spec.idleTimeoutSeconds == from)
    && (Edits(a, key) ==> a.spec.idleTimeoutSeconds == to)
  }

  ghost predicate TimeoutsAsked(actions: seq<Action>, key: Key, from: int32, to: int32) {
    forall n :: 0 <= n < |actions| ==> AsksFor(actions[n], key, from, to)
  }

  /** No monitor has come to a verdict, the name was given once, and users asked for these timeouts. */
  ghost predicate Fresh(states: seq<State>, actions: seq<Action>, key: Key, from: int32, to: int32) {
    && Tame(states, actions, key) && NameIsNotReused(states, actions, key) && NoVerdictSince(states, actions, 0, key)
    && TimeoutsAsked(actions, key, from, to)
  }

  lemma ThenFresh(states: seq<State>, actions: seq<Action>, a: Action, key: Key, from: int32, to: int32)
    returns (ss: seq<State>, all: seq<Action>)
    requires Fresh(states, actions, key, from, to) && IsTame(Last(states), a, key) && !FindsIdle(Last(states), a, key)
    requires (a.Create? && a.key == key ==> actions == []) && AsksFor(a, key, from, to)
    ensures Fresh(ss, all, key, from, to) && ss == states + [Step(Last(states), a)] && all == actions + [a]
  {
    ss, all := Then(states, actions, a, key);
    forall n, i | 0 <= i <= n < |all| && all[n].Create? && all[n].key == key ensures key !in ss[i].cluster.crs {
      if n < |actions| {
        assert actions[n] == all[n] && states[i] == ss[i];
      } else {
        assert Initial(states[0]);
      }
    }
  }

  lemma ThenWork(states: seq<State>, actions: seq<Action>, key: Key, from: int32, to: int32)
    returns (ss: seq<State>, all: seq<Action>)
    requires Fresh(states, actions, key, from, to)
    ensures Fresh(ss, all, key, from, to) && Last(ss) == Step(Last(states), Work(key, NO_FAULTS, READINGS))
  {
    ss, all := ThenFresh(states, actions, Work(key, NO_FAULTS, READINGS), key, from, to);
  }

  /** A run up to the pod. */
  lemma Podded(image: string, key: Key, spec: Spec, to: int32) returns (states: seq<State>, actions: seq<Action>)
    requires Watchable(spec, image)
    ensures Fresh(states, actions, key, spec.idleTimeoutSeconds, to) && PodAdded(Last(states), key, spec, image)
  {
    var from := spec.idleTimeoutSeconds;
    Created(image, key, spec);
    states, actions := ThenFresh([Start(image)], [], Create(key, map[], map[], spec), key, from, to);
    states, actions := ThenWork(states, actions, key, from, to);
    Reconciling(Last(states), key, Last(states).cluster.crs[key]);
    states, actions := ThenWork(states, actions, key, from, to);
    states, actions := ThenWork(states, actions, key, from, to);
    states, actions := ThenWork(states, actions, key, from, to);
  }

  /** A run up to the start of a monitor. */
  lemma Launched(image: string, key: Key, spec: Spec, to: int32) returns (states: seq<State>, actions: seq<Action>)
    requires Watchable(spec, image)
    ensures Fresh(states, actions, key, spec.idleTimeoutSeconds, to) && Watching(Last(states), key, spec, image)
  {
    states, actions := Podded(image, key, spec, to);
    Starting(Last(states), key, spec);
    states, actions := ThenFresh(states, actions, StartMonitor(0, key, |GeneratedSpec(key, spec, image).containers| - 1), key,
                                 spec.idleTimeoutSeconds, to);
  }

  /** A waiting monitor looks at the clock when its timeout is over, and comes to a verdict. */
  lemma Verdict(s: State, id: nat, now: real)
    requires id in s.monitors && s.monitors[id].main.Sleeping?
    requires now - s.monitors[id].last > s.monitors[id].timeout as real
    ensures var m := s.monitors[id];
            var s1 := Step(s, SetClock(now));
            var s2 := Step(s1, Watch(id, false));
            var s3 := Step(s2, Watch(id, false));
            && s1.cluster == s2.cluster == s3.cluster == s.cluster && s1.image == s2.image == s3.image == s.image
            && id in s2.monitors && s2.monitors[id].main == HasClock(now) && s2.monitors[id].last == m.last
            && !FindsIdle(s, SetClock(now), m.target) && !FindsIdle(s1, Watch(id, false), m.target)
            && FindsIdle(s2, Watch(id, false), m.target)
            && id in s3.monitors && s3.monitors[id].target == m.target && s3.monitors[id].main.WillLabel?
  {
  }

  /** A name that is used again: for every resource with a monitor there is a run in which the one that
      takes its name is culled, though no monitor iteration ever found that one idle. */
  lemma ReuseCullsUnjudged(image: string, key: Key, spec: Spec) returns (states: seq<State>, actions: seq<Action>)
    requires Watchable(spec, image)
    ensures Tame(states, actions, key) && actions != [] && CullsUnjudged(states, actions, key)
  {
    states, actions := Launched(image, key, spec, 0);
    Verdict(Last(states), 0, (spec.idleTimeoutSeconds as int + 1) as real);
    states, actions := Then(states, actions, SetClock((spec.idleTimeoutSeconds as int + 1) as real), key);
    states, actions := Then(states, actions, Watch(0, false), key);
    states, actions := Then(states, actions, Watch(0, false), key);
    states, actions := Then(states, actions, Delete(key), key);
    assert PendingFor(Last(states), key, 0);
    states, actions := NewcomerIsCulled(states, actions, key, spec);
  }

  lemma NameStaysOnce(states: seq<State>, actions: seq<Action>, ss: seq<State>, all: seq<Action>, rest: seq<Action>,
                      key: Key, next: Spec)
    requires |states| == |actions| + 1 && |ss| == |all| + 1 && states <= ss && all == actions + rest
    requires Plain(rest, key, next, false)
    requires NameIsNotReused(states, actions, key)
    ensures NameIsNotReused(ss, all, key)
  {
    forall n | |actions| <= n < |all| ensures !all[n].Create? {
      assert all[n] == rest[n - |actions|] && all[n] in rest;
    }
    forall n, i | 0 <= i <= n < |actions| && all[n].Create? && all[n].key == key ensures key !in ss[i].cluster.crs {
      assert actions[n] == all[n] && states[i] == ss[i];
    }
  }

  /** The last step culls an object that no monitor iteration found idle for as long as its spec then says. */
  ghost predicate CullsTooEarly(states: seq<State>, actions: seq<Action>, key: Key)
    requires 0 < |actions| < |states|
  {
    var n := |actions| - 1;
    && Culls(states, actions, n, key)
    && forall i :: 0 <= i < n ==> !FindsObjectIdle(states, actions, i, n, key, states[n].cluster.crs[key].uid)
  }

  /** Verdict `v` is the only one, and not past the timeout that the spec has held since state `k`. */
  ghost predicate JudgedOnce(states: seq<State>, actions: seq<Action>, k: nat, v: nat, key: Key)
    requires |states| == |actions| + 1
  {
    && k <= v < |actions| && key in states[k].cluster.crs && FindsIdle(states[v], actions[v], key)
    && (forall i :: k <= i < |actions| ==> !Edits(actions[i], key))
    && (forall i :: 0 <= i < |actions| && FindsIdle(states[i], actions[i], key) ==> i == v)
    && var m := states[v].monitors[actions[v].id];
       m.main.now - m.last <= states[k].cluster.crs[key].spec.idleTimeoutSeconds as int as real
  }

  lemma TooEarly(states: seq<State>, actions: seq<Action>, k: nat, v: nat, key: Key)
    requires Run(states, actions) && NameIsNotReused(states, actions, key) && JudgedOnce(states, actions, k, v, key)
    requires Culls(states, actions, |actions| - 1, key)
    ensures CullsTooEarly(states, actions, key)
  {
    var n := |actions| - 1;
    OneObject(states, actions, k, k, n, key);
    NothingIsLost(states, actions, k, n, key);
  }

  /** Up to the edit: the spec is edited while the monitor waits. */
  lemma Edited(image: string, key: Key, spec: Spec, longer: int32) returns (states: seq<State>, actions: seq<Action>)
    requires Watchable(spec, image)
    ensures Fresh(states, actions, key, spec.idleTimeoutSeconds, longer)
    ensures var s := Last(states);
            && s.image == image && key in s.cluster.crs && s.cluster.crs[key].spec.idleTimeoutSeconds == longer
            && 0 in s.monitors && s.monitors[0].target == key && s.monitors[0].timeout == spec.idleTimeoutSeconds as int
            && s.monitors[0].last == 0.0 && s.monitors[0].main.Sleeping?
  {
    states, actions := Launched(image, key, spec, longer);
    var edit := Edit(key, map[], map[], spec.(idleTimeoutSeconds := longer));
    states, actions := ThenFresh(states, actions, edit, key, spec.idleTimeoutSeconds, longer);
  }

  /** Up to the verdict. */
  lemma JudgedAfterEdit(image: string, key: Key, spec: Spec, longer: int32)
    returns (states: seq<State>, actions: seq<Action>, k: nat, v: nat)
    requires Watchable(spec, image) && spec.idleTimeoutSeconds < longer
    ensures Tame(states, actions, key) && NameIsNotReused(states, actions, key) && JudgedOnce(states, actions, k, v, key)
    ensures key in Last(states).cluster.crs && Armed(Last(states), key) && Last(states).image == image
    ensures TimeoutsAsked(actions, key, spec.idleTimeoutSeconds, longer)
  {
    var from := spec.idleTimeoutSeconds;
    states, actions := Edited(image, key, spec, longer);
    k := |actions|;
    Verdict(Last(states), 0, (from as int + 1) as real);
    states, actions := ThenFresh(states, actions, SetClock((from as int + 1) as real), key, from, longer);
    states, actions := ThenFresh(states, actions, Watch(0, false), key, from, longer);
    v := |actions|;
    var earlier, before := states, actions;
    states, actions := Then(states, actions, Watch(0, false), key);
    forall i | 0 <= i < v ensures !FindsIdle(states[i], actions[i], key) {
      assert before[i] == actions[i] && earlier[i] == states[i];
    }
    assert PendingFor(Last(states), key, 0);
  }

  lemma StillJudgedOnce(states: seq<State>, actions: seq<Action>, ss: seq<State>, all: seq<Action>, rest: seq<Action>,
                        k: nat, v: nat, key: Key, next: Spec)
    requires |states| == |actions| + 1 && |ss| == |all| + 1 && states <= ss && all == actions + rest
    requires Plain(rest, key, next, false)
    requires JudgedOnce(states, actions, k, v, key) && NoVerdictSince(ss, all, |actions|, key)
    ensures JudgedOnce(ss, all, k, v, key)
  {
    forall i | 0 <= i < |all| ensures i < |actions| ==> all[i] == actions[i] && ss[i] == states[i]
      ensures i >= |actions| ==> !Edits(all[i], key)
    {
      assert i >= |actions| ==> all[i] == rest[i - |actions|] && all[i] in rest;
    }
  }

  lemma StillAsked(actions: seq<Action>, rest: seq<Action>, key: Key, next: Spec, from: int32, to: int32)
    requires TimeoutsAsked(actions, key, from, to) && Plain(rest, key, next, false)
    ensures TimeoutsAsked(actions + rest, key, from, to)
  {
    forall n | 0 <= n < |rest| ensures AsksFor(rest[n], key, from, to) {
      assert rest[n] in rest;
    }
  }

  /** A tame run without reuse of the name, in which users create the resource with one timeout and edit it to
      another. */
  ghost predicate TwoTimeouts(states: seq<State>, actions: seq<Action>, image: string, key: Key, from: int32, to: int32) {
    && Tame(states, actions, key) && NameIsNotReused(states, actions, key) && states[0].image == image
    && TimeoutsAsked(actions, key, from, to)
  }

  /** A timeout that is edited: the pod keeps its monitor, and the monitor its timeout. For every resource
      with a monitor and every longer timeout there is a run, without reuse of the name, in which the spec
      is edited to that timeout and the resource is still culled on the old one. */
  lemma EditedTimeoutIsIgnored(image: string, key: Key, spec: Spec, longer: int32)
    returns (states: seq<State>, actions: seq<Action>)
    requires Watchable(spec, image) && spec.idleTimeoutSeconds < longer
    ensures TwoTimeouts(states, actions, image, key, spec.idleTimeoutSeconds, longer)
    ensures actions != [] && CullsTooEarly(states, actions, key)
  {
    var k, v;
    states, actions, k, v := JudgedAfterEdit(image, key, spec, longer);
    ImageStays(states, actions, |actions|);
    var rest := FromArmed(Last(states), key, spec);
    var ss, all := GoOn(states, actions, rest, key, spec, false);
    NameStaysOnce(states, actions, ss, all, rest, key, spec);
    StillAsked(actions, rest, key, spec, spec.idleTimeoutSeconds, longer);
    StillJudgedOnce(states, actions, ss, all, rest, k, v, key, spec);
    TooEarly(ss, all, k, v, key);
    states, actions := ss, all;
  }

  lemma {:induction false} TimeoutIsOneOfTwo(states: seq<State>, actions: seq<Action>, key: Key, from: int32, to: int32, n: nat)
    requires Run(states, actions) && TimeoutsAsked(actions, key, from, to) && n < |states| && key in states[n].cluster.crs
    ensures var timeout := states[n].cluster.crs[key].spec.idleTimeoutSeconds; timeout == from || timeout == to
    decreases n
  {
    assert n > 0;
    var s, a := states[n - 1], actions[n - 1];
    RunStep(states, actions, n - 1);
    RunKeepsSnapshots(states, actions, n - 1);
    assert AsksFor(a, key, from, to);
    if key in s.cluster.crs {
      TimeoutIsOneOfTwo(states, actions, key, from, to, n - 1);
      StepKeepsUid(s, a, key);
    } else {
      OnlyCreated(s, a, key);
    }
  }

  lemma ShorterIsNotRaised(states: seq<State>, actions: seq<Action>, key: Key, from: int32, to: int32)
    requires Run(states, actions) && TimeoutsAsked(actions, key, from, to) && to <= from
    ensures TimeoutIsNotRaised(states, actions, key)
  {
    forall n | 0 <= n < |actions| && Edits(actions[n], key) && key in states[n].cluster.crs
      ensures actions[n].spec.idleTimeoutSeconds <= states[n].cluster.crs[key].spec.idleTimeoutSeconds
    {
      assert AsksFor(actions[n], key, from, to);
      TimeoutIsOneOfTwo(states, actions, key, from, to, n);
    }
  }

  /** For every resource with a monitor: a cull that is too early for the spec can come exactly when users
      edit the timeout to a longer one. */
  lemma EarlyCullIffRaised(image: string, key: Key, spec: Spec, to: int32)
    requires Watchable(spec, image)
    ensures (exists states, actions :: && TwoTimeouts(states, actions, image, key, spec.idleTimeoutSeconds, to)
                                       && actions != [] && CullsTooEarly(states, actions, key))
            <==> spec.idleTimeoutSeconds < to
  {
    var from := spec.idleTimeoutSeconds;
    if from < to {
      var states, actions := EditedTimeoutIsIgnored(image, key, spec, to);
    } else if states: seq<State>, actions: seq<Action> :|
              TwoTimeouts(states, actions, image, key, from, to) && actions != [] && CullsTooEarly(states, actions, key) {
      ShorterIsNotRaised(states, actions, key, from, to);
      CullsFollowTheSpec(states, actions, |actions| - 1, key);
    }
  }

  /** If the clock shows `t` at the next look of the monitor, it comes to a verdict. */
  ghost predicate DecidesAt(s: State, id: nat, t: real)
    requires id in s.monitors
  {
    FindsIdle(Step(Step(s, SetClock(t)), Watch(id, false)), Watch(id, false), s.monitors[id].target)
  }

  /** So the next verdict of a waiting monitor can come before the spec stored now says so exactly when the
      timeout it was started with is shorter. */
  lemma EarlyVerdictIffStale(s: State, id: nat)
    requires id in s.monitors && s.monitors[id].main.Sleeping? && s.monitors[id].target in s.cluster.crs
    ensures var m := s.monitors[id];
            var timeout := s.cluster.crs[m.target].spec.idleTimeoutSeconds as int;
            (exists t :: DecidesAt(s, id, t) && t - m.last <= timeout as real) <==> m.timeout < timeout
  {
    var m := s.monitors[id];
    var timeout := s.cluster.crs[m.target].spec.idleTimeoutSeconds as int;
    forall t ensures DecidesAt(s, id, t) <==> t - m.last > m.timeout as real {}
    if m.timeout < timeout {
      assert DecidesAt(s, id, m.last + timeout as real);
    }
  }
}
