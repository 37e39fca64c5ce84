/** The activity annotation on its way from a monitor (monitor/main.py:102-110) to the apiserver
    (schema.py:160-169). */
module ProtocolActivity {
  import opened Outcomes
  import opened KernelResource
  import opened ClusterStore
  import opened Reconciler
  import opened Protocol
  import opened ProtocolMerges
  import opened ProtocolStatus
  import ActivityTime
  import Deserializer
  import KernelPayloads

  predicate HasActivity(c: Cluster, key: Key, text: string) {
    key in c.crs && ACTIVITY_ANNOTATION in c.crs[key].annotations && c.crs[key].annotations[ACTIVITY_ANNOTATION] == text
  }

  /** Users and clients do not write the annotation. */
  ghost predicate LeavesActivity(s: State, a: Action, key: Key) {
    && (a.Create? && a.key == key ==> ACTIVITY_ANNOTATION !in a.annotations)
    && (Edits(a, key) && ACTIVITY_ANNOTATION in a.annotations ==> HasActivity(s.cluster, key, a.annotations[ACTIVITY_ANNOTATION]))
  }

  ghost predicate ActivityIsTheMonitors(states: seq<State>, actions: seq<Action>, key: Key)
    requires |states| == |actions| + 1
  {
    forall n :: 0 <= n < |actions| ==> LeavesActivity(states[n], actions[n], key)
  }

  /** In this step a monitor of the key records activity, at the time that this text prints. */
  ghost predicate RecordsText(s: State, a: Action, key: Key, text: string) {
    && a.Busy? && a.id in s.monitors && s.monitors[a.id].target == key && s.monitors[a.id].activity.Listening?
    && ActivityTime.Print(a.time) == text
  }

  ghost predicate TextRecorded(states: seq<State>, actions: seq<Action>, n: nat, key: Key, text: string)
    requires n <= |actions| < |states|
  {
    exists i :: 0 <= i < n && RecordsText(states[i], actions[i], key, text)
  }

  /** A monitor of the key is about to write this text. */
  ghost predicate WillWrite(s: State, key: Key, id: nat, text: string) {
    && id in s.monitors && s.monitors[id].target == key && !s.monitors[id].activity.Listening?
    && s.monitors[id].activity.text == text
  }

  lemma WrittenBefore(s: State, a: Action, key: Key, id: nat, text: string)
    requires WillWrite(Step(s, a), key, id, text)
    ensures WillWrite(s, key, id, text) || RecordsText(s, a, key, text)
  {
    if a.Work? {
      WorkLeavesMonitors(s, a.key, a.faults, a.readings);
    }
  }

  lemma LabelsLeaveActivity(s: State, id: nat, fails: bool, key: Key)
    requires Snapshots(s) && key in WatchStep(s, id, fails).cluster.crs
    ensures key in s.cluster.crs && WatchStep(s, id, fails).cluster.crs[key].annotations == s.cluster.crs[key].annotations
  {
    assert id in s.monitors ==> HoldsReads(s.cluster, s.monitors[id]);
  }

  lemma MergedActivity(s: State, id: nat, fails: bool, key: Key, text: string)
    requires Snapshots(s) && HasActivity(ActStep(s, id, fails).cluster, key, text)
    ensures HasActivity(s.cluster, key, text) || WillWrite(s, key, id, text)
  {
    assert id in s.monitors ==> HoldsReads(s.cluster, s.monitors[id]);
  }

  lemma ActivityBefore(s: State, a: Action, key: Key, text: string)
    requires Snapshots(s) && LeavesActivity(s, a, key) && HasActivity(Step(s, a).cluster, key, text)
    ensures HasActivity(s.cluster, key, text) || exists id :: WillWrite(s, key, id, text)
  {
    match a
    case Work(k, faults, readings) =>
      WorkWritesPhase(s, k, faults, readings, key);
      WorkWritesStatus(s, k, faults, readings, key);
    case Watch(id, fails) => LabelsLeaveActivity(s, id, fails, key);
    case Act(id, fails) => MergedActivity(s, id, fails, key, text);
    case _ =>
  }

  /** The text is stored, or about to be. */
  ghost predicate Carried(s: State, key: Key, text: string) {
    HasActivity(s.cluster, key, text) || exists id :: WillWrite(s, key, id, text)
  }

  lemma CarriedBefore(s: State, a: Action, key: Key, text: string)
    requires Snapshots(s) && LeavesActivity(s, a, key) && Carried(Step(s, a), key, text)
    ensures Carried(s, key, text) || RecordsText(s, a, key, text)
  {
    if HasActivity(Step(s, a).cluster, key, text) {
      ActivityBefore(s, a, key, text);
    } else {
      var id :| WillWrite(Step(s, a), key, id, text);
      WrittenBefore(s, a, key, id, text);
    }
  }

  lemma {:induction false} ActivityWasRecorded(states: seq<State>, actions: seq<Action>, n: nat, key: Key, text: string)
    requires Run(states, actions) && ActivityIsTheMonitors(states, actions, key) && n < |states|
    requires Carried(states[n], key, text)
    ensures TextRecorded(states, actions, n, key, text)
    decreases n
  {
    if n > 0 && !RecordsText(states[n - 1], actions[n - 1], key, text) {
      RunStep(states, actions, n - 1);
      RunKeepsSnapshots(states, actions, n - 1);
      CarriedBefore(states[n - 1], actions[n - 1], key, text);
      ActivityWasRecorded(states, actions, n - 1, key, text);
    }
  }

  /** The metadata of a document carries the stored annotation. */
  predicate CarriesActivity(metadata: Deserializer.Json, text: string) {
    match KernelPayloads.Get(metadata, "annotations")
    case None => false
    case Some(annotations) => KernelPayloads.Get(annotations, ACTIVITY_ANNOTATION) == Some(Deserializer.Str(text))
  }

  /** If only monitors write the annotation, what the apiserver shows of a stored one is a time at which a
      monitor of that resource recorded activity earlier in the run, with the same fields and the offset of UTC; it refuses the
      document exactly when that time has no microseconds. */
  lemma ShownActivityWasRecorded(states: seq<State>, actions: seq<Action>, n: nat, key: Key, text: string,
                                 metadata: Deserializer.Json)
    requires Run(states, actions) && ActivityIsTheMonitors(states, actions, key) && n < |states|
    requires HasActivity(states[n].cluster, key, text) && CarriesActivity(metadata, text)
    ensures exists i :: 0 <= i < n && RecordsText(states[i], actions[i], key, text)
              && KernelPayloads.ReadActivity(metadata) ==
                   if actions[i].time.micro == 0 then None else Some(Some(ActivityTime.IsoUtc(actions[i].time)))
  {
    ActivityWasRecorded(states, actions, n, key, text);
    var i :| 0 <= i < n && RecordsText(states[i], actions[i], key, text);
    ActivityTime.PrintedTimeParsesBack(actions[i].time);
  }
}
