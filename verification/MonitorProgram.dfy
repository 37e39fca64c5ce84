/** The monitor's program (monitor/main.py:18-143): the read-modify-replace of the resource, and the two
    uses its threads make of it. */
module MonitorProgram {
  import opened Outcomes
  import opened KernelResource
  import opened ClusterStore
  import opened ProtocolMerges
  import ActivityTime
  import Protocol

  /** The custom-objects API, as the monitor calls it. */
  class Store {
    var cluster: Cluster

    constructor (cluster: Cluster)
      ensures this.cluster == cluster
    {
      this.cluster := cluster;
    }

    method Get(key: Key) returns (r: Result<Cr, ApiError>)
      ensures r == if key in cluster.crs then Ok(cluster.crs[key]) else Err(NotFound)
    {
      r := if key in cluster.crs then Ok(cluster.crs[key]) else Err(NotFound);
    }

    method Replace(key: Key, body: Cr) returns (error: Option<ApiError>)
      modifies this
      ensures error == match ReplaceCr(old(cluster), key, body) case Ok(_) => None case Err(e) => Some(e)
      ensures cluster == Protocol.Replaced(old(cluster), key, body, false)
    {
      match ReplaceCr(cluster, key, body)
      case Ok(next) =>
        cluster := next;
        error := None;
      case Err(e) =>
        error := Some(e);
    }

    /** Others write between two calls. */
    method Others(next: Cluster)
      modifies this
      ensures cluster == next
    {
      cluster := next;
    }
  }

  /** The merge of both patches into what is stored. */
  function Merged(c: Cluster, key: Key, labels: map<string, string>, annotations: map<string, string>): Cluster
    requires key in c.crs
  {
    Put(c, key, c.crs[key].(labels := c.crs[key].labels + labels, annotations := c.crs[key].annotations + annotations))
  }

  /** What the store becomes when the resource is read from `c` and its replace arrives at `between`. */
  function Updated(c: Cluster, between: Cluster, key: Key, labels: map<string, string>, annotations: map<string, string>)
    : Cluster
  {
    if key !in c.crs then c
    else if key in between.crs && between.crs[key].version == c.crs[key].version then Merged(between, key, labels, annotations)
    else between
  }

  function ActivityUpdated(c: Cluster, between: Cluster, key: Key, time: ActivityTime.Moment): Cluster {
    Updated(c, between, key, map[], Protocol.ActivityPatch(ActivityTime.Print(time)))
  }

  function LabelUpdated(c: Cluster, between: Cluster, key: Key): Cluster {
    Updated(c, between, key, Protocol.IDLE_PATCH, map[])
  }

  /** `update_cr_resource`, with `between` as what the store has become when the replace arrives. It merges
      into the stored resource exactly when nobody wrote it since it was read; else it changes nothing. */
  method UpdateCrResource(store: Store, key: Key, labels: map<string, string>, annotations: map<string, string>, between: Cluster)
    returns (error: Option<ApiError>)
    requires Stamped(store.cluster) && Advances(store.cluster, between)
    modifies store
    ensures labels == annotations == map[] ==> error.None? && store.cluster == old(store.cluster)
    ensures labels != map[] || annotations != map[] ==>
              if key !in old(store.cluster).crs then error == Some(NotFound) && store.cluster == old(store.cluster)
              else if key !in between.crs then error == Some(NotFound) && store.cluster == between
              else if between.crs[key].version != old(store.cluster).crs[key].version then
                error == Some(Conflict) && store.cluster == between
              else error.None? && store.cluster == Merged(between, key, labels, annotations)
  {
    error := None;
    if labels == map[] && annotations == map[] {
      return;
    }
    var got := store.Get(key);
    if got.Err? {
      return Some(got.error);
    }
    var crd := got.value;
    if labels != map[] {
      crd := crd.(labels := crd.labels + labels);
    } else {
      assert crd.labels + labels == crd.labels;
    }
    if annotations != map[] {
      crd := crd.(annotations := crd.annotations + annotations);
    } else {
      assert crd.annotations + annotations == crd.annotations;
    }
    store.Others(between);
    error := store.Replace(key, crd);
  }

  class KernelMonitor {
    const target: Key
    const idleTimeout: int
    var lastActivity: real

    constructor (target: Key, idleTimeout: int, now: real)
      ensures this.target == target && this.idleTimeout == idleTimeout && lastActivity == now
    {
      this.target, this.idleTimeout, lastActivity := target, idleTimeout, now;
    }

    /** `update_last_activity`: the time is recorded first, then the annotation is merged; the caller
        swallows any error. */
    method UpdateLastActivity(store: Store, now: real, time: ActivityTime.Moment, between: Cluster)
        returns (error: Option<ApiError>)
      requires Stamped(store.cluster) && Advances(store.cluster, between)
      modifies this, store
      ensures lastActivity == now && store.cluster == ActivityUpdated(old(store.cluster), between, target, time)
      ensures error.None? ==> && target in between.crs
                              && store.cluster == MergeAnnotations(between, target,
                                  Protocol.ActivityPatch(ActivityTime.Print(time)))
      ensures error.Some? ==> store.cluster == between || store.cluster == old(store.cluster)
      ensures error.None? <==> && target in old(store.cluster).crs && target in between.crs
                               && between.crs[target].version == old(store.cluster).crs[target].version
    {
      lastActivity := now;
      assert ACTIVITY_ANNOTATION in Protocol.ActivityPatch(ActivityTime.Print(time));
      error := UpdateCrResource(store, target, map[], Protocol.ActivityPatch(ActivityTime.Print(time)), between);
      if target in between.crs {
        assert between.crs[target].labels + map[] == between.crs[target].labels;
      }
    }

    /** One iteration of `start`, from the reading of the clock to the sleep. `lastActivity` is what the
        other thread has recorded by the time the lock is taken. */
    method CheckIdle(store: Store, now: real, between: Cluster) returns (decided: bool)
      requires Stamped(store.cluster) && Advances(store.cluster, between)
      modifies store
      ensures decided <==> now - lastActivity > idleTimeout as real
      ensures store.cluster == if decided then LabelUpdated(old(store.cluster), between, target) else old(store.cluster)
      ensures decided ==>
                if target in old(store.cluster).crs && target in between.crs
                   && between.crs[target].version == old(store.cluster).crs[target].version
                then store.cluster == MergeLabels(between, target, Protocol.IDLE_PATCH)
                else store.cluster == between || store.cluster == old(store.cluster)
    {
      var idleTime := now - lastActivity;
      decided := false;
      if idleTime > idleTimeout as real {
        decided := true;
        assert IDLE_LABEL in Protocol.IDLE_PATCH;
        var error := UpdateCrResource(store, target, Protocol.IDLE_PATCH, map[], between);
        if target in between.crs {
          assert between.crs[target].annotations + map[] == between.crs[target].annotations;
        }
      }
    }
  }

  // ---- the same, in the steps of the protocol ------------------------------------------------

  /** The steps that follow a recorded activity, with `between` as what others make of the store meanwhile. */
  function ActivitySteps(s: Protocol.State, id: nat, time: ActivityTime.Moment, between: Cluster): Protocol.State {
    var read := Protocol.ActStep(Protocol.BusyStep(s, id, time), id, false);
    if id in read.monitors && read.monitors[id].activity.HasRead?
      then Protocol.ActStep(read.(cluster := between), id, false) else read
  }

  /** The activity thread of the protocol does what `UpdateLastActivity` does. */
  lemma ActivityThread(s: Protocol.State, id: nat, time: ActivityTime.Moment, between: Cluster)
    requires Stamped(s.cluster) && Advances(s.cluster, between)
    requires id in s.monitors && s.monitors[id].activity.Listening?
    ensures var m := s.monitors[id];
            ActivitySteps(s, id, time, between)
              == s.(cluster := ActivityUpdated(s.cluster, between, m.target, time),
                    monitors := s.monitors[id := m.(last := s.clock)])
  {
    var m := s.monitors[id];
    if m.target in between.crs {
      assert between.crs[m.target].labels + map[] == between.crs[m.target].labels;
    }
  }

  /** The steps that follow a verdict. */
  function LabelSteps(s: Protocol.State, id: nat, between: Cluster): Protocol.State {
    var read := Protocol.WatchStep(s, id, false);
    if id in read.monitors && read.monitors[id].main.HasSnapshot?
      then Protocol.WatchStep(read.(cluster := between), id, false) else read
  }

  lemma LabelThread(s: Protocol.State, id: nat, between: Cluster)
    requires Stamped(s.cluster) && Advances(s.cluster, between)
    requires id in s.monitors && s.monitors[id].main.WillLabel?
    ensures var m := s.monitors[id];
            LabelSteps(s, id, between)
              == s.(cluster := LabelUpdated(s.cluster, between, m.target),
                    monitors := s.monitors[id := m.(main := Protocol.Sleeping)])
  {
    var m := s.monitors[id];
    if m.target in between.crs {
      assert between.crs[m.target].annotations + map[] == between.crs[m.target].annotations;
    }
  }

  /** The steps of an iteration of the main thread from the reading of the clock on. */
  function IdleSteps(s: Protocol.State, id: nat, between: Cluster): Protocol.State {
    var decided := Protocol.WatchStep(s, id, false);
    if id in decided.monitors && decided.monitors[id].main.WillLabel? then LabelSteps(decided, id, between) else decided
  }

  /** The main thread of the protocol does what `CheckIdle` does. */
  lemma MainThread(s: Protocol.State, id: nat, between: Cluster)
    requires Stamped(s.cluster) && Advances(s.cluster, between)
    requires id in s.monitors && s.monitors[id].main.HasClock?
    ensures var m := s.monitors[id];
            IdleSteps(s, id, between)
              == s.(cluster := if Protocol.IdleTooLong(m) then LabelUpdated(s.cluster, between, m.target) else s.cluster,
                    monitors := s.monitors[id := m.(main := Protocol.Sleeping)])
  {
    if Protocol.IdleTooLong(s.monitors[id]) {
      LabelThread(Protocol.WatchStep(s, id, false), id, between);
    }
  }
}
