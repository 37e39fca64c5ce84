/** When a monitor finds its kernel idle (monitor/main.py:99-104 and 131-143), in the runs of the protocol. */
module IdleDetection {
  import opened KernelResource
  import opened Protocol
  import opened ProtocolMerges
  import opened ProtocolCulls

  /** The main thread reads the clock. */
  ghost predicate Looks(s: State, a: Action, id: nat) {
    a.Watch? && a.id == id && id in s.monitors && s.monitors[id].main.Sleeping?
  }

  /** The main thread finds the kernel idle and sets out to label the resource. */
  ghost predicate Decides(s: State, a: Action, id: nat) {
    a.Watch? && a.id == id && id in s.monitors && s.monitors[id].main.HasClock? && IdleTooLong(s.monitors[id])
  }

  /** The activity thread records activity. */
  ghost predicate Records(s: State, a: Action, id: nat) {
    a.Busy? && a.id == id && id in s.monitors && s.monitors[id].activity.Listening?
  }

  /** The monitor is there from state `start` to state `end`. */
  ghost predicate Lives(states: seq<State>, id: nat, start: nat, end: nat) {
    start <= end < |states| && forall i :: start <= i <= end ==> id in states[i].monitors
  }

  /** It was started in the step that leads to state `start`. */
  ghost predicate Starts(states: seq<State>, id: nat, start: nat) {
    0 < start < |states| && id !in states[start - 1].monitors && id in states[start].monitors
  }

  ghost predicate ClockRuns(states: seq<State>) {
    forall i, j :: 0 <= i <= j < |states| ==> states[i].clock <= states[j].clock
  }

  /** The time of the last look before state `n`, or of the start. */
  ghost function LastLook(states: seq<State>, actions: seq<Action>, id: nat, start: nat, n: nat): real
    requires start <= n < |states| <= |actions| + 1
    decreases n
  {
    if n == start then states[start].clock
    else if Looks(states[n - 1], actions[n - 1], id) then states[n - 1].clock
    else LastLook(states, actions, id, start, n - 1)
  }

  /** No iteration of the main loop takes longer than the interval it sleeps plus `overhead`. */
  ghost predicate Timely(states: seq<State>, actions: seq<Action>, id: nat, start: nat, end: nat, overhead: real)
    requires start <= end < |states| <= |actions| + 1 && Lives(states, id, start, end)
  {
    forall i :: start <= i < end && Looks(states[i], actions[i], id) ==>
      states[i].clock - LastLook(states, actions, id, start, i) <= states[start].monitors[id].interval as real + overhead
  }

  /** Every decision before state `n` was followed by recorded activity. */
  ghost predicate Undecided(states: seq<State>, actions: seq<Action>, id: nat, start: nat, n: nat)
    requires n < |states| <= |actions| + 1
  {
    forall i :: start <= i < n && Decides(states[i], actions[i], id) ==>
      exists r :: i < r < n && Records(states[r], actions[r], id)
  }

  function Max0(t: int): real { if t < 0 then 0.0 else t as real }

  lemma MonitorMoves(s: State, a: Action, id: nat)
    requires id in s.monitors && id in Step(s, a).monitors
    ensures var m, n := s.monitors[id], Step(s, a).monitors[id];
            && n.timeout == m.timeout && n.interval == m.interval
            && (n.last == if Records(s, a, id) then s.clock else m.last)
            && (Looks(s, a, id) ==> n.main == HasClock(s.clock))
            && (n.main.HasClock? ==> Looks(s, a, id) || n.main == m.main)
            && (m.main.HasClock? && !n.main.HasClock? ==> Decides(s, a, id) || m.main.now - m.last <= m.timeout as real)
            && (m.main.HasClock? && !n.main.HasClock? ==> !Records(s, a, id))
  {
    if a.Work? {
      WorkLeavesMonitors(s, a.key, a.faults, a.readings);
    }
  }

  lemma {:induction false} ParametersStay(states: seq<State>, actions: seq<Action>, id: nat, start: nat, n: nat)
    requires Run(states, actions) && Lives(states, id, start, n)
    ensures states[n].monitors[id].timeout == states[start].monitors[id].timeout
    ensures states[n].monitors[id].interval == states[start].monitors[id].interval
    decreases n
  {
    if start < n {
      ParametersStay(states, actions, id, start, n - 1);
      RunStep(states, actions, n - 1);
      MonitorMoves(states[n - 1], actions[n - 1], id);
    }
  }

  lemma StartsSleeping(states: seq<State>, actions: seq<Action>, id: nat, start: nat)
    requires Run(states, actions) && Starts(states, id, start)
    ensures var m := states[start].monitors[id]; m.main.Sleeping? && m.last == states[start].clock
  {
    var s, a := states[start - 1], actions[start - 1];
    RunStep(states, actions, start - 1);
    if a.Work? {
      WorkLeavesMonitors(s, a.key, a.faults, a.readings);
    }
  }

  /** While undecided, the last look is not later than the timeout after the last activity; a look that
      was not judged yet may be one iteration later. */
  ghost predicate OnTime(states: seq<State>, actions: seq<Action>, id: nat, start: nat, n: nat, overhead: real)
    requires start <= n < |states| <= |actions| + 1 && id in states[n].monitors && id in states[start].monitors
  {
    var m := states[n].monitors[id];
    var look := LastLook(states, actions, id, start, n);
    && look <= states[n].clock
    && (m.main.HasClock? ==> m.main.now == look && m.interval as real + overhead >= 0.0)
    && (Undecided(states, actions, id, start, n) ==>
          look <= m.last + Max0(m.timeout) + if m.main.HasClock? then m.interval as real + overhead else 0.0)
  }

  lemma StillUndecided(states: seq<State>, actions: seq<Action>, id: nat, start: nat, n: nat)
    requires start < n < |states| <= |actions| + 1 && Undecided(states, actions, id, start, n)
    requires !Records(states[n - 1], actions[n - 1], id)
    ensures Undecided(states, actions, id, start, n - 1) && !Decides(states[n - 1], actions[n - 1], id)
  {
  }

  lemma OnTimeStep(states: seq<State>, actions: seq<Action>, id: nat, start: nat, n: nat, overhead: real)
    requires Run(states, actions) && ClockRuns(states) && overhead >= 0.0
    requires start < n && Lives(states, id, start, n) && Timely(states, actions, id, start, n, overhead)
    requires OnTime(states, actions, id, start, n - 1, overhead)
    ensures OnTime(states, actions, id, start, n, overhead)
  {
    var s, a := states[n - 1], actions[n - 1];
    RunStep(states, actions, n - 1);
    MonitorMoves(s, a, id);
    ParametersStay(states, actions, id, start, n);
    assert s.clock <= states[n].clock;
    if Undecided(states, actions, id, start, n) && !Records(s, a, id) {
      StillUndecided(states, actions, id, start, n);
    }
  }

  lemma {:induction false} RunIsOnTime(states: seq<State>, actions: seq<Action>, id: nat, start: nat, n: nat, overhead: real)
    requires Run(states, actions) && ClockRuns(states) && overhead >= 0.0 && Starts(states, id, start)
    requires Lives(states, id, start, n) && Timely(states, actions, id, start, n, overhead)
    ensures OnTime(states, actions, id, start, n, overhead)
    decreases n
  {
    if n == start {
      StartsSleeping(states, actions, id, start);
    } else {
      RunIsOnTime(states, actions, id, start, n - 1, overhead);
      OnTimeStep(states, actions, id, start, n, overhead);
    }
  }

  /** The first decision after an activity comes later than the timeout, but at most one iteration later
      (a negative timeout counts as none for the upper bound). */
  lemma DecisionIsOnTime(states: seq<State>, actions: seq<Action>, id: nat, start: nat, n: nat, overhead: real)
    requires Run(states, actions) && ClockRuns(states) && overhead >= 0.0 && Starts(states, id, start)
    requires Lives(states, id, start, n) && Timely(states, actions, id, start, n, overhead) && n < |actions|
    requires Undecided(states, actions, id, start, n) && Decides(states[n], actions[n], id)
    ensures var m := states[n].monitors[id];
            m.timeout as real < m.main.now - m.last <= Max0(m.timeout) + m.interval as real + overhead
  {
    RunIsOnTime(states, actions, id, start, n, overhead);
  }

  /** And the decision comes: when the main loop is still on time and the last activity is longer ago than
      that bound, a decision has been taken since that activity, or the last look is about to be judged. */
  lemma DecisionComes(states: seq<State>, actions: seq<Action>, id: nat, start: nat, n: nat, overhead: real)
    requires Run(states, actions) && ClockRuns(states) && overhead >= 0.0 && Starts(states, id, start)
    requires Lives(states, id, start, n) && Timely(states, actions, id, start, n, overhead)
    requires var m := states[n].monitors[id];
             && states[n].clock - LastLook(states, actions, id, start, n) <= m.interval as real + overhead
             && states[n].clock - m.last > Max0(m.timeout) + m.interval as real + overhead
             && !m.main.HasClock?
    ensures exists i :: start <= i < n && Decides(states[i], actions[i], id)
              && forall r :: i < r < n ==> !Records(states[r], actions[r], id)
  {
    RunIsOnTime(states, actions, id, start, n, overhead);
    assert !Undecided(states, actions, id, start, n);
    var i :| start <= i < n && Decides(states[i], actions[i], id)
        && forall r :: i < r < n ==> !Records(states[r], actions[r], id);
  }

  lemma {:induction false} LooksAreNotAhead(states: seq<State>, actions: seq<Action>, id: nat, start: nat, n: nat)
    requires Run(states, actions) && ClockRuns(states) && Starts(states, id, start) && Lives(states, id, start, n)
    ensures states[n].monitors[id].main.HasClock? ==> states[n].monitors[id].main.now <= states[n].clock
    decreases n
  {
    if n == start {
      StartsSleeping(states, actions, id, start);
    } else {
      LooksAreNotAhead(states, actions, id, start, n - 1);
      RunStep(states, actions, n - 1);
      MonitorMoves(states[n - 1], actions[n - 1], id);
      assert states[n - 1].clock <= states[n].clock;
    }
  }

  /** No activity is recorded later than the timeout after the one before it, and at the end the last one
      is not longer ago than that. */
  ghost predicate GapsWithinTimeout(states: seq<State>, actions: seq<Action>, id: nat, start: nat, end: nat)
    requires start <= end < |states| <= |actions| + 1 && Lives(states, id, start, end)
  {
    && (forall i :: start <= i < end && Records(states[i], actions[i], id) ==>
          states[i].clock - states[i].monitors[id].last <= states[i].monitors[id].timeout as real)
    && states[end].clock - states[end].monitors[id].last <= states[end].monitors[id].timeout as real
  }

  lemma {:induction false} NeverTooLongAgo(states: seq<State>, actions: seq<Action>, id: nat, start: nat, end: nat, i: nat)
    requires Run(states, actions) && ClockRuns(states) && start <= i <= end && Lives(states, id, start, end)
    requires GapsWithinTimeout(states, actions, id, start, end)
    ensures states[i].clock - states[i].monitors[id].last <= states[i].monitors[id].timeout as real
    decreases end - i
  {
    if i < end && !Records(states[i], actions[i], id) {
      NeverTooLongAgo(states, actions, id, start, end, i + 1);
      RunStep(states, actions, i);
      MonitorMoves(states[i], actions[i], id);
      assert states[i].clock <= states[i + 1].clock;
    }
  }

  /** If the gaps between recorded activities never exceed the timeout, the monitor never decides to label. */
  lemma BusyKernelsAreLeftAlone(states: seq<State>, actions: seq<Action>, id: nat, start: nat, end: nat)
    requires Run(states, actions) && ClockRuns(states) && Starts(states, id, start) && Lives(states, id, start, end)
    requires GapsWithinTimeout(states, actions, id, start, end)
    ensures forall i :: start <= i <= end && i < |actions| ==> !Decides(states[i], actions[i], id)
  {
    forall i | start <= i <= end && i < |actions| ensures !Decides(states[i], actions[i], id) {
      LooksAreNotAhead(states, actions, id, start, i);
      NeverTooLongAgo(states, actions, id, start, end, i);
    }
  }
}
