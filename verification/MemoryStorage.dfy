/** The in-memory storage used instead of etcd by a single replica, and where it agrees
    with etcd. */
module MemoryStorage {
  import opened Wrappers
  import opened EtcdStore
  import opened StorageApi
  import opened EtcdClient
  import opened Layers
  import opened TypedStorage

  /** getValueDataForKey: the first update entry for the key. */
  function FirstFor(key: string, update: seq<KeyValueData>): (r: Option<KeyValueData>)
    ensures r.Some? ==> r.value in update && r.value.key == key
    ensures r.None? ==> forall i :: 0 <= i < |update| ==> update[i].key != key
  {
    if update == [] then None
    else if update[0].key == key then Some(update[0])
    else FirstFor(key, update[1..])
  }

  datatype Outcome = Outcome(ok: bool, data: map<string, string>)

  /** The pass over the condition values that CompleteTransaction makes. */
  function Complete(data: map<string, string>, values: seq<KeyValueData>, update: seq<KeyValueData>): Outcome
    decreases |values|
  {
    if values == [] then Outcome(true, data)
    else
      var v, u := values[0], FirstFor(values[0].key, update);
      if v.present then
        if v.key !in data then Outcome(false, data)
        else
          Complete(if data[v.key] == v.value && u.Some? then data[v.key := u.value.value] else data, values[1..], update)
      else if u.Some? then
        if v.key in data then Outcome(false, data) else Complete(data[v.key := u.value.value], values[1..], update)
      else Complete(data, values[1..], update)
  }

  function Snapshot(data: map<string, string>, keys: seq<string>): (r: seq<KeyValueData>)
    ensures |r| == |keys| && forall i :: 0 <= i < |r| ==> r[i] == Lookup(keys[i], data)
  {
    seq(|keys|, i requires 0 <= i < |keys| => Lookup(keys[i], data))
  }

  /** The retry loop; the condition values are never read again. */
  function Attempts(data: map<string, string>, values: seq<KeyValueData>, request: CASRequest, left: nat): (TxResult, map<string, string>)
    decreases left
  {
    if left == 0 then (Done(false), data)
    else
      match request.update(values)
      case UpdateError => (UpdateFailed, data)
      case Refused =>
        if request.retryTillSuccessOrError then Attempts(data, values, request, left - 1) else (Done(false), data)
      case Proceed(update) =>
        var out := Complete(data, values, update);
        if out.ok then (Done(true), out.data)
        else if request.retryTillSuccessOrError then Attempts(out.data, values, request, left - 1)
        else (Done(false), out.data)
  }

  const MAX_RETRIES: nat := 100

  class MemoryStorage {
    var data: map<string, string>

    constructor ()
      ensures data == map[]
    {
      data := map[];
    }

    method Put(key: string, value: string)
      modifies this
      ensures data == old(data)[key := value]
    {
      data := data[key := value];
    }

    method Get(key: string) returns (value: string, ok: bool)
      ensures ok <==> key in data
      ensures value == if ok then data[key] else ""
    {
      if key in data {
        value, ok := data[key], true;
      } else {
        value, ok := "", false;
      }
    }

    method PutIfAbsent(key: string, value: string) returns (ok: bool)
      modifies this
      ensures ok <==> key !in old(data)
      ensures data == if ok then old(data)[key := value] else old(data)
    {
      ok := key !in data;
      if ok {
        data := data[key := value];
      }
    }

    method CompareAndSwap(key: string, prevValue: string, newValue: string) returns (ok: bool)
      modifies this
      ensures ok <==> key in old(data) && old(data)[key] == prevValue
      ensures data == if ok then old(data)[key := newValue] else old(data)
    {
      ok := key in data && data[key] == prevValue;
      if ok {
        data := data[key := newValue];
      }
    }

    method Delete(key: string)
      modifies this
      ensures data == old(data) - {key}
    {
      data := data - {key};
    }

    method StartTransaction(keys: seq<string>) returns (values: seq<KeyValueData>)
      ensures values == Snapshot(data, keys)
    {
      values := [];
      for i := 0 to |keys|
        invariant values == Snapshot(data, keys)[..i]
      {
        var value, ok := Get(keys[i]);
        values := values + [KeyValueData(keys[i], value, ok)];
      }
    }

    method CompleteTransaction(values: seq<KeyValueData>, update: seq<KeyValueData>) returns (ok: bool)
      modifies this
      ensures Outcome(ok, data) == Complete(old(data), values, update)
    {
      for i := 0 to |values|
        invariant Complete(data, values[i..], update) == Complete(old(data), values, update)
      {
        var v := values[i];
        assert values[i..][0] == v && values[i..][1..] == values[i + 1..];
        var u := FirstFor(v.key, update);
        if v.present {
          var current, found := Get(v.key);
          if !found {
            return false;
          }
          if current == v.value && u.Some? {
            Put(u.value.key, u.value.value);
          }
        } else if u.Some? {
          var put := PutIfAbsent(u.value.key, u.value.value);
          if !put {
            return false;
          }
        }
      }
      ok := true;
    }

    method ExecuteTransaction(request: CASRequest) returns (r: TxResult)
      modifies this
      ensures (r, data) == Attempts(old(data), Snapshot(old(data), request.conditionKeys), request, MAX_RETRIES)
    {
      var values := StartTransaction(request.conditionKeys);
      for n := 0 to MAX_RETRIES
        invariant Attempts(data, values, request, MAX_RETRIES - n)
               == Attempts(old(data), Snapshot(old(data), request.conditionKeys), request, MAX_RETRIES)
      {
        var u := request.update(values);
        if u.UpdateError? {
          return UpdateFailed;
        }
        if u.Refused? {
          if request.retryTillSuccessOrError {
            continue;
          }
          return Done(false);
        }
        var ok := CompleteTransaction(values, u.update);
        if ok {
          return Done(true);
        }
        if !request.retryTillSuccessOrError {
          return Done(false);
        }
      }
      r := Done(false);
    }
  }

  predicate Distinct(keys: seq<string>) {
    forall i, j :: 0 <= i < j < |keys| ==> keys[i] != keys[j]
  }

  /** The update entries that survive: the first one for each condition key. */
  function Applied(keys: seq<string>, update: seq<KeyValueData>): map<string, string> {
    map k | k in keys && FirstFor(k, update).Some? :: FirstFor(k, update).value.value
  }

  // ---------------------------------------------------------------------------
  // What a commit does: data is what the transaction read, now is what is there

  /** The condition key ends the commit: it was there and is gone, or it was not there, is
      to be written, and has appeared. */
  predicate Blocked(data: map<string, string>, now: map<string, string>, update: seq<KeyValueData>, k: string) {
    if k in data then k !in now else FirstFor(k, update).Some? && k in now
  }

  /** The condition key is written: its value has not changed, or it was not there. */
  predicate IsWritten(data: map<string, string>, now: map<string, string>, update: seq<KeyValueData>, k: string) {
    FirstFor(k, update).Some? && (k in data ==> k in now && now[k] == data[k])
  }

  function Written(data: map<string, string>, now: map<string, string>, keys: seq<string>, update: seq<KeyValueData>): map<string, string> {
    map k | k in keys && IsWritten(data, now, update, k) :: FirstFor(k, update).value.value
  }

  function FirstBlocked(data: map<string, string>, now: map<string, string>, keys: seq<string>, update: seq<KeyValueData>): (n: nat)
    ensures n <= |keys|
    ensures forall i :: 0 <= i < n ==> !Blocked(data, now, update, keys[i])
    ensures n < |keys| ==> Blocked(data, now, update, keys[n])
  {
    if keys == [] || Blocked(data, now, update, keys[0]) then 0 else 1 + FirstBlocked(data, now, keys[1..], update)
  }

  ghost predicate AgreeOn(m: map<string, string>, n: map<string, string>, keys: seq<string>) {
    forall k :: k in keys ==> (k in m <==> k in n) && (k in m ==> m[k] == n[k])
  }

  lemma WrittenCons(data: map<string, string>, now: map<string, string>, keys: seq<string>, update: seq<KeyValueData>)
    requires keys != []
    ensures
      var rest := Written(data, now, keys[1..], update);
      Written(data, now, keys, update) ==
        if IsWritten(data, now, update, keys[0]) then rest[keys[0] := FirstFor(keys[0], update).value.value] else rest
  {
    assert forall k :: k in keys <==> k == keys[0] || k in keys[1..];
  }

  lemma PutBeforeMerge(m: map<string, string>, n: map<string, string>, k: string, v: string)
    requires k !in n
    ensures m[k := v] + n == m + n[k := v]
  {
  }

  lemma DistinctHead(keys: seq<string>)
    requires Distinct(keys) && keys != []
    ensures keys[0] !in keys[1..] && Distinct(keys[1..])
  {
    assert forall i :: 0 < i < |keys| ==> keys[i] != keys[0];
  }

  lemma WrittenFirst(data: map<string, string>, first: map<string, string>, now: map<string, string>,
                     next: map<string, string>, keys: seq<string>, update: seq<KeyValueData>)
    requires keys != [] && keys[0] !in keys[1..]
    requires next == if IsWritten(data, first, update, keys[0]) then now[keys[0] := FirstFor(keys[0], update).value.value] else now
    ensures next + Written(data, first, keys[1..], update) == now + Written(data, first, keys, update)
  {
    WrittenCons(data, first, keys, update);
    if IsWritten(data, first, update, keys[0]) {
      PutBeforeMerge(now, Written(data, first, keys[1..], update), keys[0], FirstFor(keys[0], update).value.value);
    }
  }

  /** The first key, if it does not end the commit. */
  lemma CompleteHead(data: map<string, string>, first: map<string, string>, now: map<string, string>,
                     keys: seq<string>, update: seq<KeyValueData>, next: map<string, string>)
    requires keys != [] && AgreeOn(first, now, keys) && !Blocked(data, first, update, keys[0])
    requires next == if IsWritten(data, first, update, keys[0]) then now[keys[0] := FirstFor(keys[0], update).value.value] else now
    ensures Complete(now, Snapshot(data, keys), update) == Complete(next, Snapshot(data, keys[1..]), update)
  {
    var values := Snapshot(data, keys);
    assert keys[0] in keys;
    assert values[0] == Lookup(keys[0], data) && values[1..] == Snapshot(data, keys[1..]);
  }

  lemma {:induction false} PassIs(data: map<string, string>, first: map<string, string>, now: map<string, string>,
                                  keys: seq<string>, update: seq<KeyValueData>)
    requires Distinct(keys) && AgreeOn(first, now, keys)
    ensures
      var n := FirstBlocked(data, first, keys, update);
      Complete(now, Snapshot(data, keys), update) == Outcome(n == |keys|, now + Written(data, first, keys[..n], update))
    decreases |keys|
  {
    var n := FirstBlocked(data, first, keys, update);
    if n == 0 {
      PassEnds(data, first, now, keys, update);
    } else {
      var k := keys[0];
      var next := if IsWritten(data, first, update, k) then now[k := FirstFor(k, update).value.value] else now;
      DistinctHead(keys);
      CompleteHead(data, first, now, keys, update, next);
      PassIs(data, first, next, keys[1..], update);
      assert FirstBlocked(data, first, keys[1..], update) == n - 1;
      WrittenPrefix(data, first, now, next, keys, n, update);
    }
  }

  lemma PassEnds(data: map<string, string>, first: map<string, string>, now: map<string, string>,
                 keys: seq<string>, update: seq<KeyValueData>)
    requires AgreeOn(first, now, keys) && (keys == [] || Blocked(data, first, update, keys[0]))
    ensures Complete(now, Snapshot(data, keys), update) == Outcome(keys == [], now + Written(data, first, keys[..0], update))
  {
    assert now + Written(data, first, keys[..0], update) == now;
    assert keys != [] ==> keys[0] in keys && Snapshot(data, keys)[0] == Lookup(keys[0], data);
  }

  lemma WrittenPrefix(data: map<string, string>, first: map<string, string>, now: map<string, string>,
                      next: map<string, string>, keys: seq<string>, n: nat, update: seq<KeyValueData>)
    requires 0 < n <= |keys| && keys[0] !in keys[1..]
    requires next == if IsWritten(data, first, update, keys[0]) then now[keys[0] := FirstFor(keys[0], update).value.value] else now
    ensures next + Written(data, first, keys[1..][..n - 1], update) == now + Written(data, first, keys[..n], update)
  {
    assert keys[..n][1..] == keys[1..][..n - 1];
    WrittenFirst(data, first, now, next, keys[..n], update);
  }

  /** Everything about a commit with distinct condition keys: it walks along the keys until
      the first blocked one, writes the keys whose value is still the one read or that were
      absent, skips the others, and answers true exactly when no key is blocked. */
  lemma CompleteExactly(data: map<string, string>, now: map<string, string>, keys: seq<string>, update: seq<KeyValueData>)
    requires Distinct(keys)
    ensures
      var n := FirstBlocked(data, now, keys, update);
      var out := Complete(now, Snapshot(data, keys), update);
      && out.data == now + Written(data, now, keys[..n], update)
      && (out.ok <==> forall k :: k in keys ==> !Blocked(data, now, update, k))
  {
    PassIs(data, now, now, keys, update);
  }

  /** On an unchanged store a transaction with distinct condition keys succeeds and writes
      its updates, except that updates to other keys are silently dropped. */
  lemma UnchangedStoreCompletes(data: map<string, string>, now: map<string, string>, keys: seq<string>,
                                update: seq<KeyValueData>)
    requires Distinct(keys) && AgreeOn(data, now, keys)
    ensures Complete(now, Snapshot(data, keys), update) == Outcome(true, now + Applied(keys, update))
  {
    var n := FirstBlocked(data, now, keys, update);
    PassIs(data, now, now, keys, update);
    assert forall i :: 0 <= i < |keys| ==> keys[i] in keys && !Blocked(data, now, update, keys[i]);
    assert keys[..|keys|] == keys;
    UnchangedIsWritten(data, now, keys, update);
  }

  lemma UnchangedIsWritten(data: map<string, string>, now: map<string, string>, keys: seq<string>, update: seq<KeyValueData>)
    requires AgreeOn(data, now, keys)
    ensures Written(data, now, keys, update) == Applied(keys, update)
  {
    assert forall k :: k in keys ==> (IsWritten(data, now, update, k) <==> FirstFor(k, update).Some?);
  }

  /** When this answer is etcd's, for a snapshot of s that is committed in t: exactly when
      no condition key was written in between, or one is blocked. */
  lemma AnswersAgreeIff(s: Store<string>, t: Store<string>, keys: seq<string>, cv: seq<Versioned<string>>, update: seq<KeyValueData>)
    requires Valid(s) && Valid(t) && Evolves(s, t) && IsSnapshot(s, keys, cv) && Distinct(keys)
    ensures
      var data, now := Contents(s), Contents(t);
      var ok := Complete(now, Snapshot(data, keys), update).ok;
      && (Matches(t, cv) ==> ok)
      && ((ok <==> Matches(t, cv))
          <==> (forall k :: k in keys ==> SameAt(s, t, k)) || exists k :: k in keys && Blocked(data, now, update, k))
  {
    MatchingSnapshotIsCurrent(s, t, keys, cv);
    CompleteExactly(Contents(s), Contents(t), keys, update);
    if Matches(t, cv) {
      forall k | k in keys ensures !Blocked(Contents(s), Contents(t), update, k) {
        assert SameAt(s, t, k);
      }
    }
  }

  /** Unlike etcd it does not notice a changed value: when no key is blocked, the answer is
      true where etcd's is false, and the changed key is simply not written. */
  lemma ChangedValueGoesUnnoticed(s: Store<string>, t: Store<string>, keys: seq<string>, cv: seq<Versioned<string>>,
                                  update: seq<KeyValueData>, k: string)
    requires Valid(s) && Valid(t) && Evolves(s, t) && IsSnapshot(s, keys, cv) && Distinct(keys)
    requires k in keys && k in s.kv && k in t.kv && s.kv[k].value != t.kv[k].value
    requires forall j :: j in keys ==> !Blocked(Contents(s), Contents(t), update, j)
    ensures !Matches(t, cv)
    ensures
      var out := Complete(Contents(t), Snapshot(Contents(s), keys), update);
      out.ok && k in out.data && out.data[k] == t.kv[k].value
  {
    MatchingSnapshotIsCurrent(s, t, keys, cv);
    assert !SameAt(s, t, k);
    CompleteExactly(Contents(s), Contents(t), keys, update);
    assert !IsWritten(Contents(s), Contents(t), update, k);
  }

  // ---------------------------------------------------------------------------
  // Agreement with etcd

  /** The update function does not care in which order it gets the condition values. */
  ghost predicate OrderInsensitive(request: CASRequest) {
    forall a, b, M :: Reflects(a, request.conditionKeys, M) && Reflects(b, request.conditionKeys, M)
      ==> request.update(a) == request.update(b)
  }

  /** It writes each key at most once, and only condition keys. */
  ghost predicate WritesConditionKeys(request: CASRequest) {
    forall values :: request.update(values).Proceed? ==>
      var update := request.update(values).update;
      DistinctKeys(update) && forall i :: 0 <= i < |update| ==> update[i].key in request.conditionKeys
  }

  lemma SnapshotReflects(data: map<string, string>, keys: seq<string>)
    ensures Reflects(Snapshot(data, keys), keys, data)
  {
    var r := Snapshot(data, keys);
    forall k | k in keys ensures Lookup(k, data) in r {
      var i :| 0 <= i < |keys| && keys[i] == k;
      assert r[i] == Lookup(k, data);
    }
  }

  lemma FirstIsOnly(update: seq<KeyValueData>, i: nat)
    requires DistinctKeys(update) && i < |update|
    ensures FirstFor(update[i].key, update) == Some(update[i])
  {
    var r := FirstFor(update[i].key, update);
    assert update[i] in update && r.Some?;
    var j :| 0 <= j < |update| && update[j] == r.value;
    assert i == j;
  }

  lemma AppliedIsUpdate(keys: seq<string>, update: seq<KeyValueData>)
    requires DistinctKeys(update) && forall i :: 0 <= i < |update| ==> update[i].key in keys
    ensures Applied(keys, update) == UpdateMap(update)
  {
    UpdateMapKeys(update);
    forall k ensures k in Applied(keys, update) <==> k in UpdateMap(update) {
      if k in UpdateMap(update) {
        var i :| 0 <= i < |update| && update[i].key == k;
        FirstIsOnly(update, i);
      }
    }
    forall k | k in UpdateMap(update) ensures Applied(keys, update)[k] == UpdateMap(update)[k] {
      var i :| 0 <= i < |update| && update[i].key == k;
      FirstIsOnly(update, i);
      UpdateMapValue(update, i);
    }
  }

  lemma {:induction false} RefusedToTheEnd(data: map<string, string>, values: seq<KeyValueData>, request: CASRequest, left: nat)
    requires request.update(values) == Refused
    ensures Attempts(data, values, request, left) == (Done(false), data)
  {
    if left > 0 && request.retryTillSuccessOrError {
      RefusedToTheEnd(data, values, request, left - 1);
    }
  }

  /** What the memory storage does with such a request. */
  lemma MemoryOutcome(data: map<string, string>, request: CASRequest)
    requires Distinct(request.conditionKeys) && WritesConditionKeys(request)
    ensures
      var values := Snapshot(data, request.conditionKeys);
      Attempts(data, values, request, MAX_RETRIES) ==
        match request.update(values)
        case UpdateError => (UpdateFailed, data)
        case Refused => (Done(false), data)
        case Proceed(update) => (Done(true), data + UpdateMap(update))
  {
    var values := Snapshot(data, request.conditionKeys);
    match request.update(values)
    case UpdateError =>
    case Refused => RefusedToTheEnd(data, values, request, MAX_RETRIES);
    case Proceed(update) =>
      UnchangedStoreCompletes(data, data, request.conditionKeys, update);
      AppliedIsUpdate(request.conditionKeys, update);
  }

  /** Run side by side on equal contents, with nobody interfering, the two stores give the
      same answer and end with equal contents. */
  method RunBoth(server: Server, memory: MemoryStorage, request: CASRequest) returns (r: TxResult, r': TxResult)
    requires Valid(server.store) && server.schedule == [] && Contents(server.store) == memory.data
    requires Distinct(request.conditionKeys) && OrderInsensitive(request) && WritesConditionKeys(request)
    modifies server, memory
    ensures r == r' && Contents(server.store) == memory.data
  {
    ghost var data, s := memory.data, server.store;
    ghost var used, cv, attempts;
    r, used, cv, attempts := ExecuteTransaction(server, request);
    r' := memory.ExecuteTransaction(request);
    assert used == [] && ApplyAll(s, Foreign(used)) == s;
    MemoryOutcome(data, request);
    SnapshotReflects(data, request.conditionKeys);
    ghost var values := Snapshot(data, request.conditionKeys);
    assert r != ReadFailed;
    if IsSnapshot(s, request.conditionKeys, cv) {
      ValuesReflect(s, request.conditionKeys, cv);
      assert request.update(Values(cv)) == request.update(values);
    }
    if r == Done(true) {
      PutAllContents(s, UpdateMap(request.update(values).update));
    }
  }

  // ---------------------------------------------------------------------------
  // Typed requests, which are all that the daemon makes

  lemma {:induction false} SameTyped<K, V>(c: Codec<K, V>, keys: seq<K>, all: seq<K>, M: map<string, string>,
                                           a: seq<KeyValueData>, b: seq<KeyValueData>)
    requires Reflects(a, KeyStrings(c, all), M) && Reflects(b, KeyStrings(c, all), M)
    requires forall i :: 0 <= i < |keys| ==> keys[i] in all
    ensures ToTyped(c, keys, a) == ToTyped(c, keys, b)
    decreases |keys|
  {
    if keys != [] {
      var n := |keys| - 1;
      SameTyped(c, keys[..n], all, M, a, b);
      var j :| 0 <= j < |all| && all[j] == keys[n];
      assert KeyStrings(c, all)[j] == c.key(keys[n]);
      FindIs(a, KeyStrings(c, all), M, c.key(keys[n]));
      FindIs(b, KeyStrings(c, all), M, c.key(keys[n]));
    }
  }

  /** The typed layer looks its condition values up by key, so their order does not matter,
      whatever the typed update function does with them. */
  lemma TypedIsOrderInsensitive<K, V>(c: Codec<K, V>, request: TypedRequest<K, V>)
    ensures OrderInsensitive(StringRequest(c, request))
  {
    var r := StringRequest(c, request);
    forall a, b, M | Reflects(a, r.conditionKeys, M) && Reflects(b, r.conditionKeys, M)
      ensures r.update(a) == r.update(b)
    {
      SameTyped(c, request.conditionKeys, request.conditionKeys, M, a, b);
    }
  }

  lemma LayersAreOrderInsensitive(ps: seq<string>, request: CASRequest)
    requires SlashFree(ps) && OrderInsensitive(request)
    ensures OrderInsensitive(Through(ps, request))
  {
    var r := Through(ps, request);
    ThroughRequest(ps, request, []);
    forall a, b, M | Reflects(a, r.conditionKeys, M) && Reflects(b, r.conditionKeys, M)
      ensures r.update(a) == r.update(b)
    {
      ThroughRequest(ps, request, a);
      ThroughRequest(ps, request, b);
      ThroughReflects(ps, request.conditionKeys, M, a);
      ThroughReflects(ps, request.conditionKeys, M, b);
    }
  }

  /** A typed update function that writes condition keys only, each at most once. */
  ghost predicate TypedWritesConditionKeys<K(!new), V(!new)>(request: TypedRequest<K, V>) {
    forall values :: request.update(values).TypedProceed? ==>
      var update := request.update(values).update;
      && (forall i, j :: 0 <= i < j < |update| ==> update[i].key != update[j].key)
      && (forall i :: 0 <= i < |update| ==> update[i].key in request.conditionKeys)
  }

  lemma StackDistinct<K(!new), V(!new)>(ps: seq<string>, c: Codec<K, V>, keys: seq<K>)
    requires Faithful(c) && forall i, j :: 0 <= i < j < |keys| ==> keys[i] != keys[j]
    ensures Distinct(UnderKeys(ps, KeyStrings(c, keys)))
  {
    forall i, j | 0 <= i < j < |keys| ensures Under(ps, c.key(keys[i])) != Under(ps, c.key(keys[j])) {
      UnderInjective(ps, c.key(keys[i]), c.key(keys[j]));
      assert keys[i] != keys[j];
    }
  }

  lemma StackWritesConditionKeys<K(!new), V(!new)>(ps: seq<string>, c: Codec<K, V>, request: TypedRequest<K, V>)
    requires Faithful(c) && TypedWritesConditionKeys(request)
    ensures WritesConditionKeys(StackRequest(ps, c, request))
  {
    var r, inner := StackRequest(ps, c, request), StringRequest(c, request);
    ThroughRequest(ps, inner, []);
    forall values | r.update(values).Proceed?
      ensures
        var update := r.update(values).update;
        DistinctKeys(update) && forall i :: 0 <= i < |update| ==> update[i].key in r.conditionKeys
    {
      ThroughRequest(ps, inner, values);
      var typed := ToTyped(c, request.conditionKeys, RemoveThrough(ps, values));
      var update := request.update(typed.value).update;
      StackUpdateKeys(ps, c, update, request.conditionKeys);
    }
  }

  lemma StackUpdateKeys<K(!new), V(!new)>(ps: seq<string>, c: Codec<K, V>, update: seq<TypedKeyValue<K, V>>, keys: seq<K>)
    requires Faithful(c)
    requires forall i, j :: 0 <= i < j < |update| ==> update[i].key != update[j].key
    requires forall i :: 0 <= i < |update| ==> update[i].key in keys
    ensures
      var out := ThroughUpdate(ps, ToStrings(c, update));
      DistinctKeys(out) && forall i :: 0 <= i < |out| ==> out[i].key in UnderKeys(ps, KeyStrings(c, keys))
  {
    var out := ThroughUpdate(ps, ToStrings(c, update));
    ThroughUpdateKeys(ps, ToStrings(c, update));
    forall i, j | 0 <= i < j < |out| ensures out[i].key != out[j].key {
      UnderInjective(ps, c.key(update[i].key), c.key(update[j].key));
    }
    forall i | 0 <= i < |out| ensures out[i].key in UnderKeys(ps, KeyStrings(c, keys)) {
      var j :| 0 <= j < |keys| && keys[j] == update[i].key;
      assert UnderKeys(ps, KeyStrings(c, keys))[j] == out[i].key;
    }
  }

  /** A typed transaction through any layers, on etcd and on memory with equal contents and
      nobody interfering, gives the same answer and leaves equal contents, whatever order
      etcd returns the condition values in. */
  method RunBothTyped<K(!new), V(!new)>(server: Server, memory: MemoryStorage, ps: seq<string>, c: Codec<K, V>,
                                        request: TypedRequest<K, V>) returns (r: TxResult, r': TxResult)
    requires Valid(server.store) && server.schedule == [] && Contents(server.store) == memory.data
    requires SlashFree(ps) && Faithful(c)
    requires forall i, j :: 0 <= i < j < |request.conditionKeys| ==> request.conditionKeys[i] != request.conditionKeys[j]
    requires TypedWritesConditionKeys(request)
    modifies server, memory
    ensures r == r' && Contents(server.store) == memory.data
  {
    ThroughRequest(ps, StringRequest(c, request), []);
    TypedIsOrderInsensitive(c, request);
    LayersAreOrderInsensitive(ps, StringRequest(c, request));
    StackDistinct(ps, c, request.conditionKeys);
    StackWritesConditionKeys(ps, c, request);
    r, r' := RunBoth(server, memory, StackRequest(ps, c, request));
  }
}
