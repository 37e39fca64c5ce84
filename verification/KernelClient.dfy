/** The apiserver's client (client.py:130-431) and the operations of its kernel manager that write
    (kernel_manager.py:72-149), against an API whose calls may fail and whose store others write too. */
module KernelClient {
  import opened Outcomes
  import opened KernelResource
  import KernelPayloads
  import Deserializer

  /** What the client sees of a KernelManager: its kernel-id label, whether the document decodes
      (schema.py:112-171 raises otherwise), and whether it is then ready. */
  datatype Kernel = Kernel(id: Option<string>, decodes: bool, running: bool)

  function KernelOf(doc: Deserializer.Json, gen: KernelPayloads.Generated): Kernel {
    var model := KernelPayloads.ReadModel(doc, gen);
    Kernel(IdLabel(doc), model.Some?, model.Some? && model.value.ready)
  }

  function IdLabel(doc: Deserializer.Json): Option<string> {
    var metadata :- KernelPayloads.Get(doc, "metadata");
    var labels :- KernelPayloads.Get(metadata, "labels");
    var id :- KernelPayloads.Get(labels, KernelPayloads.KERNEL_ID);
    KernelPayloads.AsStr(id)
  }

  /** Whatever decodes has an id: the label that the lookups ask for. */
  lemma DecodedHasId(doc: Deserializer.Json, gen: KernelPayloads.Generated)
    ensures var model := KernelPayloads.ReadModel(doc, gen); model.Some? ==> IdLabel(doc) == Some(model.value.id)
  {
    if KernelPayloads.ReadModel(doc, gen).Some? {
      var identity := KernelPayloads.ReadIdentity(doc, KernelPayloads.Get(doc, "metadata").value);
      assert identity.Some? && IdLabel(doc) == Some(identity.value.0);
    }
  }

  /** A stored request is a kernel of the requested id that decodes, in every later version whose status and
      annotations can be read. */
  lemma RequestDecodes(reg: Deserializer.Registry, p: KernelPayloads.Payload, dump: seq<(string, Deserializer.Json)>,
                       doc: Deserializer.Json, gen: KernelPayloads.Generated)
    requires KernelPayloads.KernelTables(reg) && KernelPayloads.Requestable(reg, p)
    requires forall i :: 0 <= i < |p.volumes| ==> p.volumes[i].Dict?
    requires forall i :: 0 <= i < |p.volumeMounts| ==> p.volumeMounts[i].Dict?
    requires var stored := KernelPayloads.Stored(reg, KernelPayloads.KernelDoc(p, dump));
             stored.Some? ==> KernelPayloads.SameRequest(doc, stored.value)
    requires KernelPayloads.ReadableExtras(doc)
    ensures KernelOf(doc, gen) == Kernel(Some(p.id), true, KernelPayloads.ReadStatus(doc).value.0)
  {
    KernelPayloads.PayloadRoundTrip(reg, p, dump, doc, gen);
    DecodedHasId(doc, gen);
  }

  /** Just after it was stored, it is not ready: it is what `CreateKernel` puts into the store. */
  lemma RequestIsCreated(reg: Deserializer.Registry, p: KernelPayloads.Payload, dump: seq<(string, Deserializer.Json)>,
                         gen: KernelPayloads.Generated)
    requires KernelPayloads.KernelTables(reg) && KernelPayloads.Requestable(reg, p)
    requires forall i :: 0 <= i < |p.volumes| ==> p.volumes[i].Dict?
    requires forall i :: 0 <= i < |p.volumeMounts| ==> p.volumeMounts[i].Dict?
    ensures var stored := KernelPayloads.Stored(reg, KernelPayloads.KernelDoc(p, dump));
            stored.Some? && KernelOf(stored.value, gen) == Kernel(Some(p.id), true, false)
  {
    KernelPayloads.FreshExtras(reg, p, dump);
    RequestDecodes(reg, p, dump, KernelPayloads.Stored(reg, KernelPayloads.KernelDoc(p, dump)).value, gen);
  }

  type Store = map<Key, Kernel>

  predicate Readable(k: Kernel) { k.id.Some? && k.decodes }

  /** No namespace means all of them. */
  predicate InScope(key: Key, namespace: Option<string>) { namespace.None? || key.namespace == namespace.value }

  predicate Matches(s: Store, id: string, namespace: Option<string>, key: Key) {
    key in s && InScope(key, namespace) && s[key].id == Some(id)
  }

  /** Error responses, as far as the client tells them apart. */
  datatype Fault = Conflict | QuotaExceeded | OtherStatus

  /** `OtherError` is an error that no handler here catches, such as one raised while decoding. */
  datatype Exn =
    | KernelCreationError | KernelExistsError | KernelResourceQuotaExceededError
    | KernelRetrieveError | KernelNotFoundError | KernelDeleteError | KernelWaitReadyTimeoutError | OtherError

  /** `KernelNotFoundError` is a `KernelRetrieveError` (excs.py:23). */
  predicate IsRetrieveError(e: Exn) { e.KernelRetrieveError? || e.KernelNotFoundError? }

  datatype Call =
    | Creation(key: Key, ok: bool)
    | Lookup(id: string, found: Result<Key, Exn>)
    | Deletion(key: Key, ok: bool)

  type Lag = r: real | r >= 0.0 witness 0.0

  /** The API and the world around it: at turn `n` others turn the store `s` into `others(n, s)`, `lag(n)`
      passes, and the call fails if `fault(n)` says so. The log holds the calls of this client. */
  class Api {
    var store: Store
    var clock: real
    var log: seq<Call>
    var turns: nat
    const fault: nat -> Option<Fault>
    const others: (nat, Store) -> Store
    const lag: nat -> Lag

    constructor (store: Store, fault: nat -> Option<Fault>, others: (nat, Store) -> Store, lag: nat -> Lag)
      ensures this.store == store && this.fault == fault && this.others == others && log == [] && turns == 0
    {
      this.store, this.fault, this.others, this.lag := store, fault, others, lag;
      clock, log, turns := 0.0, [], 0;
    }

    method Turn() returns (f: Option<Fault>)
      modifies this`store, this`clock, this`turns
      ensures f == fault(old(turns)) && store == others(old(turns), old(store)) && turns == old(turns) + 1
      ensures clock >= old(clock)
    {
      f := fault(turns);
      store := others(turns, store);
      clock := clock + lag(turns);
      turns := turns + 1;
    }

    /** `asyncio.sleep` sleeps at least as long as it is asked to. */
    method Sleep(seconds: Lag)
      modifies this`clock, this`turns
      ensures clock >= old(clock) + seconds && turns == old(turns) + 1
    {
      clock := clock + seconds + lag(turns);
      turns := turns + 1;
    }

    method Record(call: Call)
      modifies this`log
      ensures log == old(log) + [call]
    {
      log := log + [call];
    }
  }

  // ---- one call ------------------------------------------------

  method CreateKernel(api: Api, key: Key, id: string) returns (f: Option<Fault>)
    modifies api
    ensures api.turns == old(api.turns) + 1 && api.clock >= old(api.clock)
    ensures api.log == old(api.log) + [Creation(key, f.None?)]
    ensures var s := api.others(old(api.turns), old(api.store));
            && f == (if api.fault(old(api.turns)).Some? then api.fault(old(api.turns))
                     else if key in s then Some(Conflict) else None)
            && api.store == if f.None? then s[key := Kernel(Some(id), true, false)] else s
  {
    f := api.Turn();
    if f.None? && key in api.store {
      f := Some(Conflict);
    } else if f.None? {
      api.store := api.store[key := Kernel(Some(id), true, false)];
    }
    api.Record(Creation(key, f.None?));
  }

  method DeleteKernel(api: Api, key: Key) returns (ok: bool)
    modifies api
    ensures api.turns == old(api.turns) + 1 && api.clock >= old(api.clock)
    ensures api.log == old(api.log) + [Deletion(key, ok)]
    ensures var s := api.others(old(api.turns), old(api.store));
            && (ok <==> api.fault(old(api.turns)).None? && key in s)
            && api.store == if ok then s - {key} else s
  {
    var f := api.Turn();
    ok := f.None? && key in api.store;
    if ok {
      api.store := api.store - {key};
    }
    api.Record(Deletion(key, ok));
  }

  function KeyOf(r: Result<(Key, Kernel), Exn>): Result<Key, Exn> {
    match r case Ok(found) => Ok(found.0) case Err(e) => Err(e)
  }

  /** What a lookup in the store `s` may come to. With `limit=1`, any matching kernel may be the one. */
  ghost predicate MayFind(s: Store, f: Option<Fault>, id: string, namespace: Option<string>, r: Result<(Key, Kernel), Exn>) {
    match r
    case Ok((key, kernel)) => f.None? && Matches(s, id, namespace, key) && kernel == s[key] && Readable(kernel)
    case Err(KernelRetrieveError) => f.Some?
    case Err(KernelNotFoundError) => f.None? && forall key :: !Matches(s, id, namespace, key)
    case Err(e) => e.OtherError? && f.None? && exists key :: Matches(s, id, namespace, key) && !Readable(s[key])
  }

  /** `aget_kernel_by_id` */
  method GetById(api: Api, id: string, namespace: Option<string>) returns (r: Result<(Key, Kernel), Exn>)
    modifies api
    ensures api.turns == old(api.turns) + 1 && api.clock >= old(api.clock)
    ensures api.store == api.others(old(api.turns), old(api.store))
    ensures api.log == old(api.log) + [Lookup(id, KeyOf(r))]
    ensures MayFind(api.store, api.fault(old(api.turns)), id, namespace, r)
  {
    var f := api.Turn();
    var items := set key | key in api.store && Matches(api.store, id, namespace, key);
    if f.Some? {
      r := Err(KernelRetrieveError);
    } else if items == {} {
      assert forall key :: Matches(api.store, id, namespace, key) ==> key in items;
      r := Err(KernelNotFoundError);
    } else {
      var key :| key in items;
      r := if Readable(api.store[key]) then Ok((key, api.store[key])) else Err(OtherError);
    }
    api.Record(Lookup(id, KeyOf(r)));
  }

  // ---- deleting by id ------------------------------------------------

  /** No call fails, and nobody else writes. */
  ghost predicate Quiet(api: Api) {
    (forall n :: api.fault(n).None?) && forall n, s :: api.others(n, s) == s
  }

  /** A lookup in `s` with fault `f` comes to `found`; if that is a kernel, its delete arrives in `t` with fault `g`.
      What `adelete_by_kernel_id` then raises, and what it leaves behind. */
  ghost predicate DeletesById(s: Store, f: Option<Fault>, t: Store, g: Option<Fault>, id: string, namespace: Option<string>,
                              found: Result<Key, Exn>, error: Option<Exn>, left: Store) {
    match found
    case Ok(key) =>
      && f.None? && Matches(s, id, namespace, key) && Readable(s[key])
      && error == (if g.None? && key in t then None else Some(KernelDeleteError))
      && left == if error.None? then t - {key} else t
    case Err(e) =>
      && (IsRetrieveError(e) || e.OtherError?)
      && error == (if IsRetrieveError(e) then None else Some(e))
      && left == s
      && (e.KernelRetrieveError? <==> f.Some?)
      && (e.KernelNotFoundError? ==> forall key :: !Matches(s, id, namespace, key))
      && (e.OtherError? ==> exists key :: Matches(s, id, namespace, key) && !Readable(s[key]))
  }

  /** The calls of deleting by id. */
  function CallsOf(id: string, found: Result<Key, Exn>, error: Option<Exn>): seq<Call> {
    if found.Ok? then [Lookup(id, found), Deletion(found.value, error.None?)] else [Lookup(id, found)]
  }

  /** What deleting by id may raise and leave when no call fails and nobody else writes. */
  ghost predicate MayDelete(s: Store, id: string, namespace: Option<string>, error: Option<Exn>, left: Store) {
    exists found :: DeletesById(s, None, s, None, id, namespace, found, error, left)
  }

  /** `adelete_by_kernel_id`: silent if the lookup fails in the API or finds nothing. */
  method DeleteById(api: Api, id: string, namespace: Option<string>) returns (error: Option<Exn>)
    modifies api
    ensures api.clock >= old(api.clock) && |api.log| > |old(api.log)|
    ensures var call := api.log[|old(api.log)|];
            && call.Lookup? && call.id == id
            && api.log == old(api.log) + CallsOf(id, call.found, error)
            && var s := api.others(old(api.turns), old(api.store));
               DeletesById(s, api.fault(old(api.turns)), api.others(old(api.turns) + 1, s), api.fault(old(api.turns) + 1),
                           id, namespace, call.found, error, api.store)
    ensures Quiet(api) ==> MayDelete(old(api.store), id, namespace, error, api.store)
  {
    var r := GetById(api, id, namespace);
    match r {
      case Err(e) =>
        error := if IsRetrieveError(e) then None else Some(e);
      case Ok((key, _)) =>
        var ok := DeleteKernel(api, key);
        error := if ok then None else Some(KernelDeleteError);
    }
    assert Quiet(api) ==> DeletesById(old(api.store), None, old(api.store), None, id, namespace, KeyOf(r), error, api.store);
  }

  /** `aremove_kernel`: the same, but a failed delete is swallowed. */
  method RemoveKernel(api: Api, id: string, namespace: Option<string>) returns (error: Option<Exn>)
    modifies api
    ensures |api.log| > |old(api.log)|
    ensures var call := api.log[|old(api.log)|];
            && call.Lookup? && call.id == id
            && (error == if call.found == Err(OtherError) then Some(OtherError) else None)
            && exists raised: Option<Exn> ::
                 && api.log == old(api.log) + CallsOf(id, call.found, raised)
                 && var s := api.others(old(api.turns), old(api.store));
                    DeletesById(s, api.fault(old(api.turns)), api.others(old(api.turns) + 1, s), api.fault(old(api.turns) + 1),
                                id, namespace, call.found, raised, api.store)
    ensures Quiet(api) ==> MayDelete(old(api.store), id, namespace, error, api.store)
  {
    error := DeleteById(api, id, namespace);
    if error == Some(KernelDeleteError) {
      error := None;
    }
  }

  // ---- waiting ------------------------------------------------

  /** The key holds the only kernel of that id in the namespace, if there is one. */
  ghost predicate Lone(s: Store, key: Key, id: string) {
    && (forall k :: Matches(s, id, Some(key.namespace), k) ==> k == key)
    && (key in s ==> s[key].id == Some(id))
  }

  /** Others never make a second kernel of that id there, and do not change the label. */
  ghost predicate LeftAlone(others: (nat, Store) -> Store, key: Key, id: string) {
    forall n, s :: Lone(s, key, id) ==> Lone(others(n, s), key, id)
  }

  function MaxPolls(timeout: int): nat { if timeout < 0 then 1 else 10 * timeout + 2 }

  /** `_wait_for_kernel_ready`: it returns only when a poll found the kernel running. The timeout error it
      raises is caught by its own handler, so every failure is a `KernelRetrieveError`. */
  method WaitForReady(api: Api, key: Key, id: string, timeout: int) returns (error: Option<Exn>)
    modifies api
    ensures |old(api.log)| < |api.log| <= |old(api.log)| + MaxPolls(timeout)
    ensures old(api.log) <= api.log && forall i :: |old(api.log)| <= i < |api.log| ==> api.log[i].Lookup?
    ensures error == None || error == Some(KernelRetrieveError)
    ensures var last := api.log[|api.log| - 1].found;
            && (error.None? ==> last.Ok? && Matches(api.store, id, Some(key.namespace), last.value))
            && (error.None? ==> api.store[last.value].running)
            && (error.Some? && last.Ok? ==> api.clock - old(api.clock) > timeout as real)
    ensures LeftAlone(api.others, key, id) && Lone(old(api.store), key, id) ==> Lone(api.store, key, id)
  {
    var start := api.clock;
    ghost var polls: nat := 0;
    while true
      invariant |api.log| == |old(api.log)| + polls && old(api.log) <= api.log
      invariant forall i :: |old(api.log)| <= i < |api.log| ==> api.log[i].Lookup?
      invariant api.clock - start >= 0.1 * polls as real
      invariant polls > 0 ==> 0.1 * (polls - 1) as real <= timeout as real
      invariant LeftAlone(api.others, key, id) && Lone(old(api.store), key, id) ==> Lone(api.store, key, id)
      decreases MaxPolls(timeout) - polls
    {
      var r := GetById(api, id, Some(key.namespace));
      polls := polls + 1;
      var raised: Option<Exn> := None;
      if r.Err? {
        raised := Some(r.error);
      } else if r.value.1.running {
        return None;
      } else if api.clock - start > timeout as real {
        raised := Some(KernelWaitReadyTimeoutError);
      } else {
        api.Sleep(0.1);
      }
      if raised.Some? {
        return Some(KernelRetrieveError);
      }
    }
  }

  // ---- creating ------------------------------------------------

  /** The creation went through, and what came after it failed. */
  ghost predicate CreatedThenFailed(before: seq<Call>, log: seq<Call>, key: Key) {
    |before| + 1 < |log| && log[|before|] == Creation(key, true)
  }

  /** `acreate`, for a payload of this name, id and namespace, once its document is built. */
  method Create(api: Api, key: Key, id: string, timeout: int, waitForReady: bool) returns (r: Result<(Key, Kernel), Exn>)
    modifies api
    ensures old(api.log) <= api.log && |api.log| > |old(api.log)|
    ensures api.log[|old(api.log)|]
        == Creation(key, !(api.fault(old(api.turns)).Some? || key in api.others(old(api.turns), old(api.store))))
    // Refused: nothing was written, and nothing deleted.
    ensures api.fault(old(api.turns)).None? && key in api.others(old(api.turns), old(api.store)) ==> r == Err(KernelExistsError)
    ensures r == Err(KernelExistsError) || r == Err(KernelResourceQuotaExceededError) ==>
              && api.log == old(api.log) + [Creation(key, false)]
              && api.store == api.others(old(api.turns), old(api.store))
    // Compensated: the resource is gone, unless the lookup of the cleanup failed.
    ensures && r == Err(KernelCreationError) && CreatedThenFailed(old(api.log), api.log, key)
            && LeftAlone(api.others, key, id) && Lone(old(api.store), key, id)
            ==> key !in api.store || api.log[|api.log| - 1] == Lookup(id, Err(KernelRetrieveError))
    ensures r == Err(KernelCreationError) && !CreatedThenFailed(old(api.log), api.log, key) ==>
              && api.log == old(api.log) + [Creation(key, false)]
              && api.store == api.others(old(api.turns), old(api.store))
    ensures |api.log| <= |old(api.log)| + MaxPolls(timeout) + 3
    ensures r.Ok? ==> Matches(api.store, id, Some(key.namespace), r.value.0) && api.store[r.value.0] == r.value.1
    ensures r.Ok? && waitForReady ==>
              exists i :: |old(api.log)| < i < |api.log| - 1 && api.log[i].Lookup? && api.log[i].found.Ok?
    ensures r.Err? ==> !r.error.KernelWaitReadyTimeoutError?
  {
    var f := CreateKernel(api, key, id);
    if f.Some? {
      match f.value
      case Conflict => return Err(KernelExistsError);
      case QuotaExceeded => return Err(KernelResourceQuotaExceededError);
      case OtherStatus => return Err(KernelCreationError);
    }
    ghost var others := api.others(old(api.turns), old(api.store));
    assert LeftAlone(api.others, key, id) && Lone(old(api.store), key, id) ==> Lone(others, key, id);
    assert forall k :: Matches(api.store, id, Some(key.namespace), k) ==> k == key || Matches(others, id, Some(key.namespace), k);
    if waitForReady {
      var error := WaitForReady(api, key, id, timeout);
      if error.Some? {
        ghost var waited, turn := api.store, api.turns;
        var deleting := DeleteById(api, id, Some(key.namespace));
        if deleting.Some? {
          return Err(deleting.value);
        }
        assert LeftAlone(api.others, key, id) && Lone(old(api.store), key, id) ==> Lone(api.others(turn, waited), key, id);
        assert key in api.others(turn, waited) && Lone(api.others(turn, waited), key, id) ==>
            Matches(api.others(turn, waited), id, Some(key.namespace), key);
        return Err(KernelCreationError);
      }
    }
    ghost var seen := |api.log| - 1;
    r := GetById(api, id, Some(key.namespace));
    assert waitForReady ==> api.log[seen].Lookup? && api.log[seen].found.Ok?;
  }

  /** The cleanup deletes whichever kernel its lookup finds. With no failing call and nobody else writing, it
      is sure to delete the kernel just created, and only that, exactly when that kernel decodes and no
      other one of the namespace has its id. */
  lemma CleanupHitsTheRightKernel(s: Store, key: Key, id: string)
    requires Matches(s, id, Some(key.namespace), key)
    ensures (forall error, left :: MayDelete(s, id, Some(key.namespace), error, left) ==> error == None && left == s - {key})
            <==> Readable(s[key]) && forall k :: Matches(s, id, Some(key.namespace), k) ==> k == key
  {
    forall k | Matches(s, id, Some(key.namespace), k)
      ensures if Readable(s[k]) then MayDelete(s, id, Some(key.namespace), None, s - {k})
              else MayDelete(s, id, Some(key.namespace), Some(OtherError), s)
    {
      if Readable(s[k]) {
        assert DeletesById(s, None, s, None, id, Some(key.namespace), Ok(k), None, s - {k});
      } else {
        assert DeletesById(s, None, s, None, id, Some(key.namespace), Err(OtherError), Some(OtherError), s);
      }
    }
    if forall error, left :: MayDelete(s, id, Some(key.namespace), error, left) ==> error == None && left == s - {key} {
      forall k | Matches(s, id, Some(key.namespace), k) ensures k == key {
        assert k !in s - {k};
      }
    }
  }

  // ---- shutting down ------------------------------------------------

  /** `keys` lists the kernels in scope, each once. */
  ghost predicate Lists(keys: seq<Key>, s: Store, namespace: Option<string>) {
    && (forall k :: k in keys <==> k in s && InScope(k, namespace))
    && forall i, j :: 0 <= i < j < |keys| ==> keys[i] != keys[j]
  }

  predicate ListedAs(s: Store, key: Key, id: string) { key in s && Readable(s[key]) && s[key].id == Some(id) }

  method Enumerate(todo: set<Key>) returns (keys: seq<Key>)
    ensures forall k :: k in keys <==> k in todo
    ensures forall i, j :: 0 <= i < j < |keys| ==> keys[i] != keys[j]
  {
    keys := [];
    var rest := todo;
    while rest != {}
      invariant rest <= todo && forall k :: k in keys <==> k in todo - rest
      invariant forall i, j :: 0 <= i < j < |keys| ==> keys[i] != keys[j]
      decreases |rest|
    {
      var k :| k in rest;
      keys := keys + [k];
      rest := rest - {k};
    }
  }

  /** `alist_kernel_ids`: in no particular order, one id per kernel; one kernel that does not decode spoils it. */
  method ListKernelIds(api: Api, namespace: Option<string>) returns (r: Result<seq<string>, Exn>, ghost keys: seq<Key>)
    modifies api
    ensures api.turns == old(api.turns) + 1 && api.log == old(api.log)
    ensures api.store == api.others(old(api.turns), old(api.store)) && Lists(keys, api.store, namespace)
    ensures match r
            case Ok(ids) =>
              && api.fault(old(api.turns)).None? && |ids| == |keys|
              && forall i :: 0 <= i < |keys| ==> ListedAs(api.store, keys[i], ids[i])
            case Err(e) =>
              if api.fault(old(api.turns)).Some? then e == KernelRetrieveError
              else e == OtherError && exists k :: k in keys && k in api.store && !Readable(api.store[k])
  {
    var f := api.Turn();
    var listed := Enumerate(set k | k in api.store && InScope(k, namespace));
    keys := listed;
    if f.Some? {
      return Err(KernelRetrieveError), keys;
    }
    var ids: seq<string> := [];
    for i := 0 to |listed|
      invariant |ids| == i
      invariant forall j :: 0 <= j < i ==> ListedAs(api.store, keys[j], ids[j])
    {
      assert listed[i] in listed;
      if !Readable(api.store[listed[i]]) {
        return Err(OtherError), keys;
      }
      ids := ids + [api.store[listed[i]].id.value];
    }
    r := Ok(ids);
  }

  function Bearers(s: Store, namespace: Option<string>, id: string): set<Key> {
    set k | k in s && Matches(s, id, namespace, k)
  }

  function BearersAmong(keys: seq<Key>, s: Store, id: string): set<Key> {
    set k | k in keys && k in s && s[k].id == Some(id)
  }

  lemma {:induction false} ListedBearers(keys: seq<Key>, ids: seq<string>, s: Store, id: string)
    requires |keys| == |ids| && forall i :: 0 <= i < |keys| ==> ListedAs(s, keys[i], ids[i])
    requires forall i, j :: 0 <= i < j < |keys| ==> keys[i] != keys[j]
    ensures |BearersAmong(keys, s, id)| == multiset(ids)[id]
  {
    if keys != [] {
      var n := |keys| - 1;
      var front, last := keys[..n], keys[n];
      ListedBearers(front, ids[..n], s, id);
      assert multiset(ids)[id] == multiset(ids[..n])[id] + if ids[n] == id then 1 else 0 by { assert ids == ids[..n] + [ids[n]]; }
      LastBearer(front, last, s, id);
      assert keys == front + [last];
      assert last !in front;
    }
  }

  lemma LastBearer(front: seq<Key>, last: Key, s: Store, id: string)
    requires last in s
    ensures BearersAmong(front + [last], s, id) == BearersAmong(front, s, id) + if s[last].id == Some(id) then {last} else {}
  {
  }

  /** Every id is listed as often as it has bearers. */
  lemma ListingCounts(keys: seq<Key>, ids: seq<string>, s: Store, namespace: Option<string>, id: string)
    requires Lists(keys, s, namespace) && |keys| == |ids| && forall i :: 0 <= i < |keys| ==> ListedAs(s, keys[i], ids[i])
    ensures |Bearers(s, namespace, id)| == multiset(ids)[id]
  {
    ListedBearers(keys, ids, s, id);
    assert Bearers(s, namespace, id) == BearersAmong(keys, s, id);
  }

  /** `t` is `s` without some kernels in scope. */
  ghost predicate Fewer(t: Store, s: Store, namespace: Option<string>) {
    && (forall k :: k in t ==> k in s && t[k] == s[k])
    && forall k :: k in s && !InScope(k, namespace) ==> k in t
  }

  lemma OneBearerLess(s: Store, namespace: Option<string>, key: Key, id: string, ids: seq<string>, i: nat, other: string)
    requires Matches(s, id, namespace, key) && i < |ids| && ids[i] == id
    requires |Bearers(s, namespace, other)| == multiset(ids[i..])[other]
    ensures |Bearers(s - {key}, namespace, other)| == multiset(ids[i + 1..])[other]
  {
    assert ids[i..] == [id] + ids[i + 1..];
    if other == id {
      assert Bearers(s - {key}, namespace, id) == Bearers(s, namespace, id) - {key};
    } else {
      assert Bearers(s - {key}, namespace, other) == Bearers(s, namespace, other);
    }
  }

  lemma BearerOf(s: Store, namespace: Option<string>, key: Key, id: string)
    requires key in s && s[key].id == Some(id)
    ensures InScope(key, namespace) ==> |Bearers(s, namespace, id)| > 0
  {
    assert InScope(key, namespace) ==> key in Bearers(s, namespace, id);
  }

  lemma NoBearersLeft(s: Store, namespace: Option<string>)
    requires forall k :: k in s && InScope(k, namespace) ==> Readable(s[k])
    requires forall id :: |Bearers(s, namespace, id)| == 0
    ensures forall k :: k in s ==> !InScope(k, namespace)
  {
    forall k | k in s ensures !InScope(k, namespace) {
      assert s[k].id.Some? ==> Bearers(s, namespace, s[k].id.value) == {};
      if s[k].id.Some? {
        BearerOf(s, namespace, k, s[k].id.value);
      }
    }
  }

  /** `ashutdown_all` empties its scope, even when kernels share an id and each lookup may find any of
      them: the id is listed once for each. If some kernel in scope does not decode, it raises and
      deletes nothing. */
  method ShutdownAll(api: Api, namespace: Option<string>) returns (error: Option<Exn>)
    requires Quiet(api)
    modifies api
    ensures error.None? <==> forall k :: k in old(api.store) && InScope(k, namespace) ==> Readable(old(api.store)[k])
    ensures error.None? ==> Fewer(api.store, old(api.store), namespace) && forall k :: k in api.store ==> !InScope(k, namespace)
    ensures error.Some? ==> error.value == OtherError && api.store == old(api.store)
  {
    var r, keys := ListKernelIds(api, namespace);
    if r.Err? {
      return Some(r.error);
    }
    var ids := r.value;
    forall id ensures |Bearers(api.store, namespace, id)| == multiset(ids)[id] {
      ListingCounts(keys, ids, api.store, namespace, id);
    }
    assert forall k :: k in api.store && InScope(k, namespace) ==> k in keys;
    assert ids[0..] == ids;
    for i := 0 to |ids|
      invariant Fewer(api.store, old(api.store), namespace)
      invariant forall k :: k in api.store && InScope(k, namespace) ==> Readable(api.store[k])
      invariant forall id :: |Bearers(api.store, namespace, id)| == multiset(ids[i..])[id]
    {
      var id, s := ids[i], api.store;
      assert ids[i] in ids[i..];
      assert Bearers(s, namespace, id) != {};
      ghost var bearer :| bearer in Bearers(s, namespace, id);
      ghost var entry := |api.log|;
      error := DeleteById(api, id, namespace);
      assert Matches(s, id, namespace, bearer);
      ghost var found := api.log[entry].found;
      assert found.Ok? && error.None? && api.store == s - {found.value};
      forall other ensures |Bearers(api.store, namespace, other)| == multiset(ids[i + 1..])[other] {
        OneBearerLess(s, namespace, found.value, id, ids, i, other);
      }
    }
    assert ids[|ids|..] == [];
    NoBearersLeft(api.store, namespace);
    error := None;
  }
}
