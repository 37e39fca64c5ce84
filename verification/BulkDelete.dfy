/** Deleting many kernels at once (kernel_handlers.py:83-92): one task per requested id, each a lookup
    and then a delete, interleaved in any way. */
module BulkDelete {
  import opened Outcomes
  import opened KernelResource
  import opened KernelClient

  /** How far `aremove_kernel` has come. */
  datatype Task = Started | Found(key: Key) | Returned | Raised(error: Exn)

  datatype State = State(store: Store, tasks: seq<Task>)

  /** The next call of task `i`: the lookup finds a kernel `pick` that matches, if there is one; a delete that
      finds nothing raises `KernelDeleteError`, which the task swallows. */
  function Advance(s: State, ids: seq<string>, i: nat, pick: Key): State
    requires i < |ids| == |s.tasks|
  {
    match s.tasks[i]
    case Started =>
      s.(tasks := s.tasks[i :=
        if !Matches(s.store, ids[i], None, pick) then Returned
        else if Readable(s.store[pick]) then Found(pick)
        else Raised(OtherError)])
    case Found(key) => State(s.store - {key}, s.tasks[i := Returned])
    case _ => s
  }

  /** The choice is open to the API: only if nothing matches does the lookup come back empty. */
  ghost predicate MayPick(s: State, ids: seq<string>, i: nat, pick: Key)
    requires i < |ids| == |s.tasks|
  {
    s.tasks[i].Started? && (exists key :: Matches(s.store, ids[i], None, key)) ==> Matches(s.store, ids[i], None, pick)
  }

  function Outcome(error: Option<Exn>): Task { if error.None? then Returned else Raised(error.value) }

  /** Task `i`, its lookup finding `pick`, runs to its end without a break. */
  ghost predicate RunsThrough(s: State, ids: seq<string>, i: nat, pick: Key, error: Option<Exn>, left: Store)
    requires i < |ids| == |s.tasks|
  {
    && MayPick(s, ids, i, pick)
    && Advance(Advance(s, ids, i, pick), ids, i, pick) == State(left, s.tasks[i := Outcome(error)])
  }

  /** Undisturbed, the calls of a task come to what `aremove_kernel` may come to, and to nothing else. */
  lemma UninterruptedTask(s: State, ids: seq<string>, i: nat, error: Option<Exn>, left: Store)
    requires i < |ids| == |s.tasks| && s.tasks[i].Started?
    ensures (exists pick :: RunsThrough(s, ids, i, pick, error, left)) <==> MayDelete(s.store, ids[i], None, error, left)
  {
    if pick :| RunsThrough(s, ids, i, pick, error, left) {
      TaskDeletes(s, ids, i, pick, error, left);
    }
    if MayDelete(s.store, ids[i], None, error, left) {
      var found :| DeletesById(s.store, None, s.store, None, ids[i], None, found, error, left);
      var pick := TaskFollows(s, ids, i, found, error, left);
    }
  }

  lemma TaskDeletes(s: State, ids: seq<string>, i: nat, pick: Key, error: Option<Exn>, left: Store)
    requires i < |ids| == |s.tasks| && s.tasks[i].Started? && RunsThrough(s, ids, i, pick, error, left)
    ensures MayDelete(s.store, ids[i], None, error, left)
  {
    var t := Advance(s, ids, i, pick);
    assert Advance(t, ids, i, pick).tasks[i] == Outcome(error);
    if !Matches(s.store, ids[i], None, pick) {
      assert DeletesById(s.store, None, s.store, None, ids[i], None, Err(KernelNotFoundError), error, left);
    } else if Readable(s.store[pick]) {
      assert DeletesById(s.store, None, s.store, None, ids[i], None, Ok(pick), error, left);
    } else {
      assert DeletesById(s.store, None, s.store, None, ids[i], None, Err(OtherError), error, left);
    }
  }

  lemma TaskFollows(s: State, ids: seq<string>, i: nat, found: Result<Key, Exn>, error: Option<Exn>, left: Store)
    returns (pick: Key)
    requires i < |ids| == |s.tasks| && s.tasks[i].Started?
    requires DeletesById(s.store, None, s.store, None, ids[i], None, found, error, left)
    ensures RunsThrough(s, ids, i, pick, error, left)
  {
    match found
    case Ok(key) =>
      pick := key;
    case Err(e) =>
      if e.OtherError? {
        pick :| Matches(s.store, ids[i], None, pick) && !Readable(s.store[pick]);
      } else {
        pick := Key("", "");
        assert !Matches(s.store, ids[i], None, pick);
      }
  }

  predicate Finished(t: Task) { t.Returned? || t.Raised? }

  /** A run of the gathered tasks: any schedule, until all are finished. */
  ghost predicate Gather(states: seq<State>, ids: seq<string>, schedule: seq<nat>, picks: seq<Key>) {
    && |states| == |schedule| + 1 && |picks| == |schedule|
    && (forall n :: 0 <= n < |states| ==> |states[n].tasks| == |ids|)
    && (forall i :: 0 <= i < |ids| ==> states[0].tasks[i] == Started)
    && (forall n :: 0 <= n < |schedule| ==> schedule[n] < |ids|)
    && (forall n :: 0 <= n < |schedule| ==> MayPick(states[n], ids, schedule[n], picks[n]))
    && (forall n :: 0 <= n < |schedule| ==> states[n + 1] == Advance(states[n], ids, schedule[n], picks[n]))
    && AllFinished(states[|states| - 1])
  }

  ghost predicate AllFinished(s: State) { forall t :: t in s.tasks ==> Finished(t) }

  ghost predicate AllReturned(s: State) { forall t :: t in s.tasks ==> t.Returned? }

  ghost predicate UniqueIds(s: Store) {
    forall j, k :: j in s && k in s && s[j].id.Some? && s[j].id == s[k].id ==> j == k
  }

  /** The kernel is asked for, and decodes. */
  predicate Goes(s: Store, ids: seq<string>, key: Key) {
    key in s && Readable(s[key]) && s[key].id.value in ids
  }

  function Without(s: Store, ids: seq<string>): Store {
    map k | k in s && !Goes(s, ids, k) :: s[k]
  }

  /** What holds all along: only kernels that go have gone; a task that found one found the right one; a task
      that is finished left no kernel of its id that decodes, and raised only because of one that does not. */
  ghost predicate OnTheWay(s: State, initial: Store, ids: seq<string>) {
    && |s.tasks| == |ids|
    && (forall k :: k in s.store ==> k in initial && s.store[k] == initial[k])
    && (forall k :: k in initial && k !in s.store ==> Goes(initial, ids, k))
    && forall i :: 0 <= i < |ids| ==> TaskRight(s, initial, ids[i], s.tasks[i])
  }

  ghost predicate TaskRight(s: State, initial: Store, id: string, t: Task) {
    match t
    case Started => true
    case Found(key) => key in initial && Readable(initial[key]) && initial[key].id == Some(id)
    case Returned => forall k :: k in s.store ==> s.store[k].id != Some(id)
    case Raised(e) => e == OtherError && exists k :: k in s.store && s.store[k].id == Some(id) && !Readable(s.store[k])
  }

  lemma AdvancedTask(s: State, initial: Store, ids: seq<string>, i: nat, pick: Key)
    requires OnTheWay(s, initial, ids) && UniqueIds(initial)
    requires i < |ids| && MayPick(s, ids, i, pick)
    ensures var t := Advance(s, ids, i, pick); TaskRight(t, initial, ids[i], t.tasks[i])
  {
    assert TaskRight(s, initial, ids[i], s.tasks[i]);
    var t := Advance(s, ids, i, pick);
    match s.tasks[i]
    case Started =>
      if !Matches(s.store, ids[i], None, pick) {
        forall k | k in s.store ensures s.store[k].id != Some(ids[i]) { assert !Matches(s.store, ids[i], None, k); }
      }
    case Found(key) =>
      forall k | k in t.store ensures t.store[k].id != Some(ids[i]) {
        assert k in initial && initial[k] == t.store[k] && k != key;
      }
    case _ =>
  }

  lemma AdvanceKeeps(s: State, initial: Store, ids: seq<string>, i: nat, pick: Key)
    requires OnTheWay(s, initial, ids) && UniqueIds(initial)
    requires i < |ids| && MayPick(s, ids, i, pick)
    ensures OnTheWay(Advance(s, ids, i, pick), initial, ids)
  {
    var t := Advance(s, ids, i, pick);
    assert TaskRight(s, initial, ids[i], s.tasks[i]);
    assert ids[i] in ids;
    AdvancedTask(s, initial, ids, i, pick);
    forall j | 0 <= j < |ids| && j != i ensures TaskRight(t, initial, ids[j], t.tasks[j]) {
      assert TaskRight(s, initial, ids[j], s.tasks[j]);
      if s.tasks[j].Raised? {
        var k :| k in s.store && s.store[k].id == Some(ids[j]) && !Readable(s.store[k]);
        assert k in t.store;
      }
    }
  }

  lemma {:induction false} StaysOnTheWay(states: seq<State>, ids: seq<string>, schedule: seq<nat>, picks: seq<Key>, n: nat)
    requires Gather(states, ids, schedule, picks) && UniqueIds(states[0].store) && n < |states|
    ensures OnTheWay(states[n], states[0].store, ids)
    decreases n
  {
    if n > 0 {
      StaysOnTheWay(states, ids, schedule, picks, n - 1);
      AdvanceKeeps(states[n - 1], states[0].store, ids, schedule[n - 1], picks[n - 1]);
    }
  }

  /** When all tasks are finished, what is still there was not asked for or does not decode. */
  lemma LeftBehind(end: State, initial: Store, ids: seq<string>, k: Key)
    requires OnTheWay(end, initial, ids) && UniqueIds(initial) && AllFinished(end) && k in end.store
    ensures !Goes(initial, ids, k)
  {
    forall i | 0 <= i < |ids| ensures Readable(initial[k]) ==> initial[k].id != Some(ids[i]) {
      assert TaskRight(end, initial, ids[i], end.tasks[i]) && end.tasks[i] in end.tasks;
      assert end.store[k] == initial[k];
    }
  }

  /** With ids unique in the store, every schedule ends in the same store, the initial one without the
      requested kernels that decode, duplicates in the request or not; and a task raises exactly when
      the kernel of its id does not decode. */
  lemma BulkDeleteIsConfluent(states: seq<State>, ids: seq<string>, schedule: seq<nat>, picks: seq<Key>)
    requires Gather(states, ids, schedule, picks) && UniqueIds(states[0].store)
    ensures var initial, end := states[0].store, states[|states| - 1];
            && end.store == Without(initial, ids)
            && forall i :: 0 <= i < |ids| ==>
                 (end.tasks[i].Raised? <==> exists k :: k in initial && initial[k].id == Some(ids[i]) && !Readable(initial[k]))
  {
    var initial, end := states[0].store, states[|states| - 1];
    StaysOnTheWay(states, ids, schedule, picks, |states| - 1);
    forall k | k in end.store ensures !Goes(initial, ids, k) {
      LeftBehind(end, initial, ids, k);
    }
    forall i | 0 <= i < |ids|
      ensures end.tasks[i].Raised? <==> exists k :: k in initial && initial[k].id == Some(ids[i]) && !Readable(initial[k])
    {
      assert TaskRight(end, initial, ids[i], end.tasks[i]) && end.tasks[i] in end.tasks && ids[i] in ids;
    }
  }

  /** So if every requested kernel decodes, no exception reaches the response, and exactly the requested
      kernels are gone. */
  lemma BulkDeleteSucceeds(states: seq<State>, ids: seq<string>, schedule: seq<nat>, picks: seq<Key>)
    requires Gather(states, ids, schedule, picks) && UniqueIds(states[0].store)
    requires forall k :: k in states[0].store && states[0].store[k].id.Some? && states[0].store[k].id.value in ids ==>
               Readable(states[0].store[k])
    ensures AllReturned(states[|states| - 1])
    ensures forall k :: k in states[|states| - 1].store <==>
              k in states[0].store && (states[0].store[k].id.Some? ==> states[0].store[k].id.value !in ids)
  {
    BulkDeleteIsConfluent(states, ids, schedule, picks);
    var initial, end := states[0].store, states[|states| - 1];
    forall t | t in end.tasks ensures t.Returned? {
      var i :| 0 <= i < |end.tasks| && end.tasks[i] == t;
      assert ids[i] in ids && Finished(t);
    }
  }
}
