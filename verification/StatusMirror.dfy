/** The status the controller derives from a pod (kernelmanager_controller.go:366-469). Container
    states are compared as Go structs of pointers, so the proof keeps the pointers. */
module StatusMirror {
  import opened Outcomes
  import opened KernelResource

  // ---- the status as a value ------------------------------------------------

  /** The readings of `metav1.Now()`: number `2i` for the probe time of condition `i`, `2i + 1` for
      its transition time. */
  type Clock = nat -> int

  function Mirrored(c: Condition, probedNow: int, changedNow: int): Condition {
    c.(probed := if c.probed == ZeroTime then At(probedNow) else c.probed,
       changed := if c.changed == ZeroTime then At(changedNow) else c.changed)
  }

  function Mirror(cs: seq<Condition>, clock: Clock): seq<Condition> {
    seq(|cs|, i requires 0 <= i < |cs| => Mirrored(cs[i], clock(2 * i), clock(2 * i + 1)))
  }

  /** The first container of that name whose state is not pointer-equal to the previous one. States
      decoded separately are pointer-equal only if both are empty. */
  function PickState(name: string, previous: ContainerState, cs: seq<ContainerStatus>): ContainerState {
    if cs == [] then NO_STATE
    else if cs[0].name == name && !(cs[0].state == NO_STATE && previous == NO_STATE) then cs[0].state
    else PickState(name, previous, cs[1..])
  }

  function StatusOf(name: string, previous: ContainerState, pod: PodStatus, clock: Clock): Status {
    Status(Mirror(pod.conditions, clock), PickState(name, previous, pod.containerStatuses), pod.phase, pod.ip)
  }

  // ---- the heap ------------------------------------------------

  class StateCell {
    const value: Opaque

    constructor (value: Opaque)
      ensures this.value == value
    {
      this.value := value;
    }
  }

  /** Go's `==` on this struct compares the three pointers. */
  datatype GoState = GoState(waiting: StateCell?, running: StateCell?, terminated: StateCell?)

  datatype GoContainerStatus = GoContainerStatus(name: string, state: GoState)

  datatype GoPodStatus = GoPodStatus(phase: string, ip: string, conditions: seq<Condition>,
                                     containerStatuses: seq<GoContainerStatus>, rest: Opaque)

  datatype GoStatus = GoStatus(conditions: seq<Condition>, containerState: GoState, phase: string, ip: string)

  function PickPointers(name: string, previous: GoState, cs: seq<GoContainerStatus>): GoState {
    if cs == [] then GoState(null, null, null)
    else if cs[0].name == name && cs[0].state != previous then cs[0].state
    else PickPointers(name, previous, cs[1..])
  }

  /** `PodCondToKernelManagerCond` */
  method ConvertCondition(c: Condition, probedNow: int, changedNow: int) returns (r: Condition)
    ensures r == Mirrored(c, probedNow, changedNow)
  {
    r := Condition("", "", ZeroTime, ZeroTime, "", "");
    if |c.ctype| > 0 {
      r := r.(ctype := c.ctype);
    }
    if |c.status| > 0 {
      r := r.(status := c.status);
    }
    if |c.message| > 0 {
      r := r.(message := c.message);
    }
    if |c.reason| > 0 {
      r := r.(reason := c.reason);
    }
    if c.probed != ZeroTime {
      r := r.(probed := c.probed);
    } else {
      r := r.(probed := At(probedNow));
    }
    if c.changed != ZeroTime {
      r := r.(changed := c.changed);
    } else {
      r := r.(changed := At(changedNow));
    }
  }

  /** `createKernelManagerStatus` */
  method CreateStatus(name: string, previous: GoState, pod: GoPodStatus, clock: Clock) returns (status: GoStatus)
    ensures status == GoStatus(Mirror(pod.conditions, clock), PickPointers(name, previous, pod.containerStatuses), pod.phase,
        pod.ip)
  {
    status := GoStatus([], GoState(null, null, null), pod.phase, pod.ip);
    if pod == GoPodStatus("", "", [], [], "") {
      return;
    }
    var cs := pod.containerStatuses;
    for i := 0 to |cs|
      invariant status == GoStatus([], GoState(null, null, null), pod.phase, pod.ip)
      invariant PickPointers(name, previous, cs[i..]) == PickPointers(name, previous, cs)
    {
      assert cs[i..][1..] == cs[i + 1..];
      if cs[i].name != name {
        continue;
      }
      if cs[i].state == previous {
        continue;
      }
      status := status.(containerState := cs[i].state);
      break;
    }
    var mirrored: seq<Condition> := [];
    for i := 0 to |pod.conditions|
      invariant |mirrored| == i
      invariant forall j :: 0 <= j < i ==> mirrored[j] == Mirrored(pod.conditions[j], clock(2 * j), clock(2 * j + 1))
    {
      var condition := ConvertCondition(pod.conditions[i], clock(2 * i), clock(2 * i + 1));
      mirrored := mirrored + [condition];
    }
    status := status.(conditions := mirrored);
  }

  ghost predicate CellIs(c: StateCell?, v: Option<Opaque>) {
    (c == null <==> v.None?) && (c != null ==> v == Some(c.value))
  }

  ghost predicate StateIs(s: GoState, v: ContainerState) {
    CellIs(s.waiting, v.waiting) && CellIs(s.running, v.running) && CellIs(s.terminated, v.terminated)
  }

  /** Two states share no cell, as when they come from two objects. */
  ghost predicate Unshared(s: GoState, t: GoState) {
    && (s.waiting != null ==> s.waiting != t.waiting)
    && (s.running != null ==> s.running != t.running)
    && (s.terminated != null ==> s.terminated != t.terminated)
  }

  lemma {:induction false} PickByValue(name: string, previous: GoState, previousValue: ContainerState,
                                       cs: seq<GoContainerStatus>, values: seq<ContainerStatus>)
    requires StateIs(previous, previousValue) && |cs| == |values|
    requires forall i :: 0 <= i < |cs| ==> cs[i].name == values[i].name && StateIs(cs[i].state, values[i].state)
    requires forall i :: 0 <= i < |cs| ==> Unshared(previous, cs[i].state)
    ensures StateIs(PickPointers(name, previous, cs), PickState(name, previousValue, values))
  {
    if cs != [] {
      assert cs[0].state == previous <==> values[0].state == NO_STATE && previousValue == NO_STATE;
      PickByValue(name, previous, previousValue, cs[1..], values[1..]);
    }
  }

  method DecodeCell(v: Option<Opaque>) returns (c: StateCell?)
    ensures CellIs(c, v) && (c != null ==> fresh(c))
  {
    if v.None? {
      c := null;
    } else {
      c := new StateCell(v.value);
    }
  }

  method DecodeState(v: ContainerState) returns (s: GoState)
    ensures StateIs(s, v)
    ensures (s.waiting != null ==> fresh(s.waiting)) && (s.running != null ==> fresh(s.running))
    ensures s.terminated != null ==> fresh(s.terminated)
  {
    var waiting := DecodeCell(v.waiting);
    var running := DecodeCell(v.running);
    var terminated := DecodeCell(v.terminated);
    s := GoState(waiting, running, terminated);
  }

  function EncodeCell(c: StateCell?): (v: Option<Opaque>)
    ensures CellIs(c, v)
  {
    if c == null then None else Some(c.value)
  }

  function EncodeState(s: GoState): (v: ContainerState)
    ensures StateIs(s, v)
  {
    ContainerState(EncodeCell(s.waiting), EncodeCell(s.running), EncodeCell(s.terminated))
  }

  /** The resource and the pod are decoded from two responses, so the status depends on their values. */
  method StatusFromCopies(name: string, previous: ContainerState, pod: PodStatus, clock: Clock) returns (status: Status)
    ensures status == StatusOf(name, previous, pod, clock)
  {
    var last := DecodeState(previous);
    var decoded: seq<GoContainerStatus> := [];
    for i := 0 to |pod.containerStatuses|
      invariant |decoded| == i
      invariant forall j :: 0 <= j < i ==>
                  decoded[j].name == pod.containerStatuses[j].name && StateIs(decoded[j].state, pod.containerStatuses[j].state)
      invariant forall j :: 0 <= j < i ==> Unshared(last, decoded[j].state)
    {
      var state := DecodeState(pod.containerStatuses[i].state);
      decoded := decoded + [GoContainerStatus(pod.containerStatuses[i].name, state)];
    }
    var s := CreateStatus(name, last, GoPodStatus(pod.phase, pod.ip, pod.conditions, decoded, pod.rest), clock);
    PickByValue(name, last, previous, decoded, pod.containerStatuses);
    status := Status(s.conditions, EncodeState(s.containerState), s.phase, s.ip);
  }

  // ---- what the status says ------------------------------------------------

  function FirstState(name: string, cs: seq<ContainerStatus>): Option<ContainerState> {
    if cs == [] then None else if cs[0].name == name then Some(cs[0].state) else FirstState(name, cs[1..])
  }

  /** The first container of that name has a state, or none of that name has. */
  ghost predicate Steady(name: string, cs: seq<ContainerStatus>) {
    FirstState(name, cs) == Some(NO_STATE) ==> forall c :: c in cs && c.name == name ==> c.state == NO_STATE
  }

  lemma {:induction false} AfterSomeState(name: string, previous: ContainerState, cs: seq<ContainerStatus>)
    requires previous != NO_STATE
    ensures PickState(name, previous, cs) == match FirstState(name, cs) case None => NO_STATE case Some(s) => s
  {
    if cs != [] {
      AfterSomeState(name, previous, cs[1..]);
    }
  }

  lemma {:induction false} AfterNoState(name: string, cs: seq<ContainerStatus>)
    ensures PickState(name, NO_STATE, cs) == NO_STATE <==> forall c :: c in cs && c.name == name ==> c.state == NO_STATE
    ensures FirstState(name, cs).Some? && FirstState(name, cs).value != NO_STATE ==>
              PickState(name, NO_STATE, cs) == FirstState(name, cs).value
    ensures FirstState(name, cs).None? ==> forall c :: c in cs ==> c.name != name
  {
    if cs != [] {
      AfterNoState(name, cs[1..]);
    }
  }

  /** Picking again from the picked state gives the same state exactly when the pod is steady;
      otherwise the state flips between empty and not. */
  lemma StateSettles(name: string, previous: ContainerState, cs: seq<ContainerStatus>)
    ensures PickState(name, PickState(name, previous, cs), cs) == PickState(name, previous, cs) <==> Steady(name, cs)
  {
    AfterNoState(name, cs);
    if previous != NO_STATE {
      AfterSomeState(name, previous, cs);
    }
    var picked := PickState(name, previous, cs);
    if picked != NO_STATE {
      AfterSomeState(name, picked, cs);
    }
  }

  /** Both clocks fill the unset times of the conditions alike. */
  ghost predicate SameFill(cs: seq<Condition>, clock: Clock, later: Clock) {
    forall i :: 0 <= i < |cs| ==>
      && (cs[i].probed == ZeroTime ==> clock(2 * i) == later(2 * i))
      && (cs[i].changed == ZeroTime ==> clock(2 * i + 1) == later(2 * i + 1))
  }

  lemma SameConditions(cs: seq<Condition>, clock: Clock, later: Clock)
    ensures Mirror(cs, clock) == Mirror(cs, later) <==> SameFill(cs, clock, later)
  {
    var a, b := Mirror(cs, clock), Mirror(cs, later);
    assert forall i :: 0 <= i < |cs| ==> a[i] == Mirrored(cs[i], clock(2 * i), clock(2 * i + 1));
    assert forall i :: 0 <= i < |cs| ==> b[i] == Mirrored(cs[i], later(2 * i), later(2 * i + 1));
    if SameFill(cs, clock, later) {
      forall i | 0 <= i < |cs| ensures a[i] == b[i] {}
    } else {
      var i :| 0 <= i < |cs| && !((cs[i].probed == ZeroTime ==> clock(2 * i) == later(2 * i))
                                 && (cs[i].changed == ZeroTime ==> clock(2 * i + 1) == later(2 * i + 1)));
      assert a[i] != b[i];
    }
  }

  /** With the pod unchanged, the next status is the same exactly when the pod is steady and unset
      times are filled in the same second. */
  lemma StatusSettles(name: string, previous: ContainerState, pod: PodStatus, clock: Clock, later: Clock)
    ensures var status := StatusOf(name, previous, pod, clock);
            StatusOf(name, status.containerState, pod, later) == status
            <==> Steady(name, pod.containerStatuses) && SameFill(pod.conditions, clock, later)
  {
    StateSettles(name, previous, pod.containerStatuses);
    SameConditions(pod.conditions, clock, later);
  }

  /** A mirrored condition keeps everything but times that were not set. */
  ghost predicate Keeps(r: Condition, c: Condition) {
    && r.ctype == c.ctype && r.status == c.status && r.reason == c.reason && r.message == c.message
    && (c.probed != ZeroTime ==> r.probed == c.probed) && (c.changed != ZeroTime ==> r.changed == c.changed)
    && r.probed != ZeroTime && r.changed != ZeroTime
  }

  /** The status is what the pod says: its conditions in order and with their set times, and the state
      of the container with the resource's name if there is exactly one such container. */
  lemma StatusMirrorsPod(name: string, previous: ContainerState, pod: PodStatus, clock: Clock)
    ensures var status := StatusOf(name, previous, pod, clock);
            && status.phase == pod.phase && status.ip == pod.ip && |status.conditions| == |pod.conditions|
            && forall i :: 0 <= i < |pod.conditions| ==> Keeps(status.conditions[i], pod.conditions[i])
    ensures forall i :: 0 <= i < |pod.containerStatuses| && pod.containerStatuses[i].name == name
              && (forall j :: 0 <= j < |pod.containerStatuses| && j != i ==> pod.containerStatuses[j].name != name)
              ==> StatusOf(name, previous, pod, clock).containerState == pod.containerStatuses[i].state
    ensures (forall c :: c in pod.containerStatuses ==> c.name != name) ==>
              StatusOf(name, previous, pod, clock).containerState == NO_STATE
  {
    forall i | 0 <= i < |pod.conditions| ensures Keeps(Mirror(pod.conditions, clock)[i], pod.conditions[i]) {
      assert Mirror(pod.conditions, clock)[i] == Mirrored(pod.conditions[i], clock(2 * i), clock(2 * i + 1));
    }
    var cs := pod.containerStatuses;
    forall i | 0 <= i < |cs| && cs[i].name == name && (forall j :: 0 <= j < |cs| && j != i ==> cs[j].name != name)
      ensures PickState(name, previous, cs) == cs[i].state
    {
      OnlyMatch(name, previous, cs, i);
    }
    if forall c :: c in cs ==> c.name != name {
      NoMatch(name, previous, cs);
    }
  }

  lemma {:induction false} NoMatch(name: string, previous: ContainerState, cs: seq<ContainerStatus>)
    requires forall c :: c in cs ==> c.name != name
    ensures PickState(name, previous, cs) == NO_STATE
  {
    if cs != [] {
      NoMatch(name, previous, cs[1..]);
    }
  }

  lemma {:induction false} OnlyMatch(name: string, previous: ContainerState, cs: seq<ContainerStatus>, i: nat)
    requires i < |cs| && cs[i].name == name
    requires forall j :: 0 <= j < |cs| && j != i ==> cs[j].name != name
    ensures PickState(name, previous, cs) == cs[i].state
  {
    if i > 0 {
      assert cs[1..][i - 1] == cs[i];
      OnlyMatch(name, previous, cs[1..], i - 1);
    } else {
      NoMatch(name, previous, cs[1..]);
    }
  }
}
