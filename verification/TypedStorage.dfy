/** The typed layer on top of any number of prefixing layers on top of etcd: every
    operation of the stack is that operation on a private typed map. */
module TypedStorage {
  import opened Wrappers
  import opened EtcdStore
  import opened StorageApi
  import opened EtcdClient
  import opened Layers

  /** Key serializer, value serializer and value deserializer. */
  datatype Codec<!K, !V> = Codec(key: K -> string, encode: V -> string, decode: string -> Option<V>)

  /** Distinct keys print differently, decoding undoes encoding, and the empty string is
      no encoding of anything. */
  ghost predicate Faithful<K(!new), V(!new)>(c: Codec<K, V>) {
    && (forall k, k' :: c.key(k) == c.key(k') ==> k == k')
    && (forall v :: c.decode(c.encode(v)) == Some(v))
    && c.decode("") == None
  }

  /** A typed condition value or update; None is Present == false. */
  datatype TypedKeyValue<+K, +V> = TypedKeyValue(key: K, value: Option<V>)

  datatype TypedResult<+K, +V> = TypedError | TypedRefused | TypedProceed(update: seq<TypedKeyValue<K, V>>)

  datatype TypedRequest<!K, !V> = TypedRequest(
    retryTillSuccessOrError: bool,
    conditionKeys: seq<K>,
    update: seq<TypedKeyValue<K, V>> -> TypedResult<K, V>)

  /** findKeyValueByKey */
  function Find(vals: seq<KeyValueData>, key: string): (r: Option<KeyValueData>)
    ensures r.Some? ==> r.value in vals && r.value.key == key
    ensures r.None? ==> forall i :: 0 <= i < |vals| ==> vals[i].key != key
  {
    if vals == [] then None
    else if vals[0].key == key then Some(vals[0])
    else Find(vals[1..], key)
  }

  function ToTyped<K, V>(c: Codec<K, V>, keys: seq<K>, vals: seq<KeyValueData>): Option<seq<TypedKeyValue<K, V>>> {
    if keys == [] then Some([])
    else
      var n := |keys| - 1;
      var rest := ToTyped(c, keys[..n], vals);
      var found := Find(vals, c.key(keys[n]));
      if rest.None? then None
      else if found.None? || !found.value.present then Some(rest.value + [TypedKeyValue(keys[n], None)])
      else
        var v := c.decode(found.value.value);
        if v.None? then None else Some(rest.value + [TypedKeyValue(keys[n], v)])
  }

  /** convertKeyValueDataToTyped: one typed value per condition key, in the order of the
      condition keys, whatever order the values came in. */
  method ConvertToTyped<K, V>(c: Codec<K, V>, keys: seq<K>, vals: seq<KeyValueData>)
    returns (r: Option<seq<TypedKeyValue<K, V>>>)
    ensures r == ToTyped(c, keys, vals)
  {
    var result: seq<TypedKeyValue<K, V>> := [];
    for i := 0 to |keys|
      invariant ToTyped(c, keys[..i], vals) == Some(result)
    {
      assert keys[..i + 1][..i] == keys[..i];
      var found := Find(vals, c.key(keys[i]));
      if found.None? || !found.value.present {
        result := result + [TypedKeyValue(keys[i], None)];
      } else {
        var v := c.decode(found.value.value);
        if v.None? {
          ErrorSticks(c, keys, vals, i + 1);
          return None;
        }
        result := result + [TypedKeyValue(keys[i], v)];
      }
    }
    assert keys[..|keys|] == keys;
    r := Some(result);
  }

  lemma {:induction false} ErrorSticks<K, V>(c: Codec<K, V>, keys: seq<K>, vals: seq<KeyValueData>, i: nat)
    requires i <= |keys| && ToTyped(c, keys[..i], vals) == None
    ensures ToTyped(c, keys, vals) == None
    decreases |keys|
  {
    if i == |keys| {
      assert keys[..i] == keys;
    } else {
      assert keys[..|keys| - 1][..i] == keys[..i];
      ErrorSticks(c, keys[..|keys| - 1], vals, i);
    }
  }

  function ToStrings<K, V>(c: Codec<K, V>, update: seq<TypedKeyValue<K, V>>): (r: seq<KeyValueData>)
    ensures |r| == |update| && forall i :: 0 <= i < |r| ==> r[i] == ToString(c, update[i])
  {
    seq(|update|, i requires 0 <= i < |update| => ToString(c, update[i]))
  }

  function ToString<K, V>(c: Codec<K, V>, u: TypedKeyValue<K, V>): KeyValueData {
    KeyValueData(c.key(u.key), if u.value.Some? then c.encode(u.value.value) else "", u.value.Some?)
  }

  function KeyStrings<K, V>(c: Codec<K, V>, keys: seq<K>): (r: seq<string>)
    ensures |r| == |keys| && forall i :: 0 <= i < |r| ==> r[i] == c.key(keys[i])
  {
    seq(|keys|, i requires 0 <= i < |keys| => c.key(keys[i]))
  }

  /** What TypedAtomicStorageImpl.ExecuteTransaction hands to its delegate. */
  function StringRequest<K, V>(c: Codec<K, V>, request: TypedRequest<K, V>): CASRequest {
    CASRequest(request.retryTillSuccessOrError, KeyStrings(c, request.conditionKeys),
               (vals: seq<KeyValueData>) => StringResult(c, request, ToTyped(c, request.conditionKeys, vals)))
  }

  function StringResult<K, V>(c: Codec<K, V>, request: TypedRequest<K, V>,
                              typed: Option<seq<TypedKeyValue<K, V>>>): UpdateResult {
    if typed.None? then UpdateError
    else
      match request.update(typed.value)
      case TypedError => UpdateError
      case TypedRefused => Refused
      case TypedProceed(update) => Proceed(ToStrings(c, update))
  }

  /** M holds the typed map T and nothing else. */
  ghost predicate Represents<K(!new), V>(c: Codec<K, V>, M: map<string, string>, T: map<K, V>) {
    && (forall k {:trigger c.key(k)} {:trigger k in T} :: k in T ==> c.key(k) in M && M[c.key(k)] == c.encode(T[k]))
    && (forall x :: x in M ==> exists k :: k in T && c.key(k) == x)
  }

  lemma KeyRepresented<K(!new), V(!new)>(c: Codec<K, V>, M: map<string, string>, T: map<K, V>, k: K)
    requires Faithful(c) && Represents(c, M, T)
    ensures k in T <==> c.key(k) in M
  {
    if c.key(k) in M {
      var k' :| k' in T && c.key(k') == c.key(k);
    }
  }

  function TypedReads<K, V>(T: map<K, V>, keys: seq<K>): (r: seq<TypedKeyValue<K, V>>)
    ensures |r| == |keys|
  {
    seq(|keys|, i requires 0 <= i < |keys| =>
      TypedKeyValue(keys[i], if keys[i] in T then Some(T[keys[i]]) else None))
  }

  lemma FindIs(vals: seq<KeyValueData>, keys: seq<string>, M: map<string, string>, k: string)
    requires Reflects(vals, keys, M) && k in keys
    ensures Find(vals, k) == Some(Lookup(k, M))
  {
    var found := Find(vals, k);
    assert Lookup(k, M) in vals;
    var i :| 0 <= i < |vals| && vals[i] == Lookup(k, M);
    assert found.Some?;
  }

  /** What the update function is given for one condition key. */
  function TypedRead<K, V>(T: map<K, V>, k: K): TypedKeyValue<K, V> {
    TypedKeyValue(k, if k in T then Some(T[k]) else None)
  }

  lemma FoundIsRead<K(!new), V(!new)>(c: Codec<K, V>, k: K, M: map<string, string>, T: map<K, V>)
    requires Faithful(c) && Represents(c, M, T)
    ensures Lookup(c.key(k), M).present <==> k in T
    ensures k in T ==> c.decode(Lookup(c.key(k), M).value) == Some(T[k])
  {
    KeyRepresented(c, M, T, k);
  }

  lemma FoundTyped<K(!new), V(!new)>(c: Codec<K, V>, k: K, all: seq<K>, M: map<string, string>, vals: seq<KeyValueData>)
    requires Reflects(vals, KeyStrings(c, all), M) && k in all
    ensures Find(vals, c.key(k)) == Some(Lookup(c.key(k), M))
  {
    var j :| 0 <= j < |all| && all[j] == k;
    assert KeyStrings(c, all)[j] == c.key(k);
    FindIs(vals, KeyStrings(c, all), M, c.key(k));
  }

  lemma TypedReadsNext<K, V>(T: map<K, V>, keys: seq<K>)
    requires keys != []
    ensures TypedReads(T, keys) == TypedReads(T, keys[..|keys| - 1]) + [TypedRead(T, keys[|keys| - 1])]
  {
  }

  /** The update function sees the typed map, in the order of its own condition keys. */
  lemma {:induction false} TypedValuesAreReads<K(!new), V(!new)>(c: Codec<K, V>, keys: seq<K>, all: seq<K>,
      M: map<string, string>, T: map<K, V>, vals: seq<KeyValueData>)
    requires Faithful(c) && Represents(c, M, T) && Reflects(vals, KeyStrings(c, all), M)
    requires forall i :: 0 <= i < |keys| ==> keys[i] in all
    ensures ToTyped(c, keys, vals) == Some(TypedReads(T, keys))
    decreases |keys|
  {
    if keys != [] {
      var n := |keys| - 1;
      TypedValuesAreReads(c, keys[..n], all, M, T, vals);
      FoundTyped(c, keys[n], all, M, vals);
      FoundIsRead(c, keys[n], M, T);
      TypedReadsNext(T, keys);
    }
  }

  function TypedMap<K, V>(update: seq<TypedKeyValue<K, V>>): map<K, V>
    requires forall i :: 0 <= i < |update| ==> update[i].value.Some?
  {
    if update == [] then map[]
    else
      var last := update[|update| - 1];
      TypedMap(update[..|update| - 1])[last.key := last.value.value]
  }

  ghost predicate AllPresent<K, V>(update: seq<TypedKeyValue<K, V>>) {
    forall i :: 0 <= i < |update| ==> update[i].value.Some?
  }

  lemma {:induction false} TypedUpdateRepresents<K(!new), V(!new)>(c: Codec<K, V>, M: map<string, string>, T: map<K, V>,
      update: seq<TypedKeyValue<K, V>>)
    requires Faithful(c) && Represents(c, M, T) && AllPresent(update)
    ensures Represents(c, M + UpdateMap(ToStrings(c, update)), T + TypedMap(update))
    decreases |update|
  {
    var out := ToStrings(c, update);
    if update == [] {
      assert M + UpdateMap(out) == M && T + TypedMap(update) == T;
    } else {
      var n := |update| - 1;
      var e := update[n];
      TypedUpdateRepresents(c, M, T, update[..n]);
      assert ToStrings(c, update[..n]) == out[..n];
      var M', T' := M + UpdateMap(out[..n]), T + TypedMap(update[..n]);
      MergeLast(M, UpdateMap(out[..n]), c.key(e.key), c.encode(e.value.value));
      MergeLast(T, TypedMap(update[..n]), e.key, e.value.value);
      TypedPut(c, M', T', e.key, e.value.value);
    }
  }

  lemma TypedPut<K(!new), V(!new)>(c: Codec<K, V>, M: map<string, string>, T: map<K, V>, key: K, v: V)
    requires Faithful(c) && Represents(c, M, T)
    ensures Represents(c, M[c.key(key) := c.encode(v)], T[key := v])
  {
    var M', T' := M[c.key(key) := c.encode(v)], T[key := v];
    forall k {:trigger c.key(k)} ensures c.key(k) == c.key(key) <==> k == key {}
    forall x | x in M' ensures exists k :: k in T' && c.key(k) == x {
      if x == c.key(key) {
        assert key in T';
      } else {
        var k :| k in T && c.key(k) == x;
        assert k in T';
      }
    }
  }

  lemma TypedDelete<K(!new), V(!new)>(c: Codec<K, V>, M: map<string, string>, T: map<K, V>, key: K)
    requires Faithful(c) && Represents(c, M, T)
    ensures Represents(c, M - {c.key(key)}, T - {key})
  {
    var M', T' := M - {c.key(key)}, T - {key};
    forall k {:trigger c.key(k)} ensures c.key(k) == c.key(key) <==> k == key {}
    forall x | x in M' ensures exists k :: k in T' && c.key(k) == x {
      var k :| k in T && c.key(k) == x;
      assert k in T';
    }
  }

  /** Comparing serialized values is comparing values. */
  lemma EncodedEqual<K(!new), V(!new)>(c: Codec<K, V>, v: V, v': V)
    requires Faithful(c)
    ensures c.encode(v) == c.encode(v') <==> v == v'
  {
    assert c.decode(c.encode(v)) == Some(v) && c.decode(c.encode(v')) == Some(v');
  }

  /** An update entry that is not present cannot delete: it leaves an entry behind that
      no value decodes from, and the store represents no typed map any more. */
  lemma AbsentUpdateCorrupts<K(!new), V(!new)>(c: Codec<K, V>, M: map<string, string>,
      update: seq<TypedKeyValue<K, V>>, i: nat, T: map<K, V>)
    requires Faithful(c) && i < |update| && update[i].value.None? && DistinctKeys(ToStrings(c, update))
    ensures !Represents(c, M + UpdateMap(ToStrings(c, update)), T)
  {
    UpdateMapValue(ToStrings(c, update), i);
    var k := update[i].key;
    var M' := M + UpdateMap(ToStrings(c, update));
    assert M'[c.key(k)] == "";
    assert c.decode(M'[c.key(k)]) == None;
    if Represents(c, M', T) {
      KeyRepresented(c, M', T, k);
    }
  }

  // ---------------------------------------------------------------------------
  // The whole stack

  function StackRequest<K, V>(ps: seq<string>, c: Codec<K, V>, request: TypedRequest<K, V>): CASRequest {
    Through(ps, StringRequest(c, request))
  }

  function StackKey<K, V>(ps: seq<string>, c: Codec<K, V>, key: K): string {
    Under(ps, c.key(key))
  }

  /** The typed map behind the prefixes ps of the store. */
  ghost predicate Holding<K(!new), V>(ps: seq<string>, c: Codec<K, V>, s: Store<string>, T: map<K, V>) {
    Represents(c, PrivateIn(ps, Contents(s)), T)
  }

  lemma ValuesReflect(s: Store<string>, keys: seq<string>, cv: seq<Versioned<string>>)
    requires IsSnapshot(s, keys, cv)
    ensures Reflects(Values(cv), keys, Contents(s))
  {
    SnapshotContents(s, keys, cv);
    forall k | k in keys ensures Lookup(k, Contents(s)) in Values(cv) {
      var i :| 0 <= i < |cv| && cv[i] == Read(s, k);
      assert Values(cv)[i] == Lookup(k, Contents(s));
    }
    forall i | 0 <= i < |cv| ensures Values(cv)[i].key in keys && Values(cv)[i] == Lookup(Values(cv)[i].key, Contents(s)) {
      assert cv[i] in cv;
    }
  }

  /** Whatever the order in which etcd returned the condition values, the caller's typed
      update function is applied to the typed map as it is. */
  lemma StackSeesTypedMap<K(!new), V(!new)>(ps: seq<string>, c: Codec<K, V>, request: TypedRequest<K, V>,
      s: Store<string>, T: map<K, V>, cv: seq<Versioned<string>>)
    requires SlashFree(ps) && Faithful(c) && Holding(ps, c, s, T)
    requires IsSnapshot(s, StackRequest(ps, c, request).conditionKeys, cv)
    ensures StackRequest(ps, c, request).update(Values(cv))
         == ThroughResult(ps, StringResult(c, request, Some(TypedReads(T, request.conditionKeys))))
  {
    var inner := StringRequest(c, request);
    var M := Contents(s);
    ThroughRequest(ps, inner, Values(cv));
    ValuesReflect(s, UnderKeys(ps, inner.conditionKeys), cv);
    ThroughReflects(ps, inner.conditionKeys, M, Values(cv));
    TypedValuesAreReads(c, request.conditionKeys, request.conditionKeys, PrivateIn(ps, M), T, RemoveThrough(ps, Values(cv)));
  }

  lemma PutAllContents(s: Store<string>, update: map<string, string>)
    ensures Contents(PutAll(s, update)) == Contents(s) + update
  {
  }

  lemma HoldingAfterWrite<K(!new), V(!new)>(ps: seq<string>, c: Codec<K, V>, s: Store<string>, T: map<K, V>,
      update: seq<TypedKeyValue<K, V>>)
    requires Faithful(c) && Holding(ps, c, s, T) && AllPresent(update)
    ensures Holding(ps, c, PutAll(s, UpdateMap(ThroughUpdate(ps, ToStrings(c, update)))), T + TypedMap(update))
  {
    var out := ToStrings(c, update);
    PutAllContents(s, UpdateMap(ThroughUpdate(ps, out)));
    ThroughWrites(ps, Contents(s), out);
    TypedUpdateRepresents(c, PrivateIn(ps, Contents(s)), T, update);
  }

  /** The layering theorem for transactions: one linearized transaction of the stack is
      one transaction of the typed update function on the private typed map. */
  lemma StackRefinesTypedMap<K(!new), V(!new)>(ps: seq<string>, c: Codec<K, V>, request: TypedRequest<K, V>,
      before: Store<string>, T: map<K, V>, cv: seq<Versioned<string>>, after: Store<string>)
    requires SlashFree(ps) && Faithful(c) && Holding(ps, c, before, T)
    requires Linearized(StackRequest(ps, c, request), before, cv, after)
    ensures
      var u := request.update(TypedReads(T, request.conditionKeys));
      u.TypedProceed? && (AllPresent(u.update) ==> Holding(ps, c, after, T + TypedMap(u.update)))
  {
    StackSeesTypedMap(ps, c, request, before, T, cv);
    var u := request.update(TypedReads(T, request.conditionKeys));
    assert u.TypedProceed?;
    if AllPresent(u.update) {
      HoldingAfterWrite(ps, c, before, T, u.update);
    }
  }

  // ---------------------------------------------------------------------------
  // The other operations, against a server to which others write

  lemma PutOne(s: Store<string>, k: string, v: string)
    ensures Contents(PutAll(s, map[k := v])) == Contents(s)[k := v]
  {
    PutAllContents(s, map[k := v]);
    assert Contents(s) + map[k := v] == Contents(s)[k := v];
  }

  lemma DeleteOne(s: Store<string>, k: string)
    ensures Contents(Delete(s, k)) == Contents(s) - {k}
  {
  }

  /** Writing one key of the store is writing one key of the typed map. */
  lemma HoldingAfterPut<K(!new), V(!new)>(ps: seq<string>, c: Codec<K, V>, s: Store<string>, T: map<K, V>, key: K, v: V)
    requires Faithful(c) && Holding(ps, c, s, T)
    ensures Holding(ps, c, PutAll(s, map[StackKey(ps, c, key) := c.encode(v)]), T[key := v])
  {
    PutOne(s, StackKey(ps, c, key), c.encode(v));
    ThroughPut(ps, Contents(s), c.key(key), c.encode(v));
    TypedPut(c, PrivateIn(ps, Contents(s)), T, key, v);
  }

  lemma HoldingAfterDelete<K(!new), V(!new)>(ps: seq<string>, c: Codec<K, V>, s: Store<string>, T: map<K, V>, key: K)
    requires Faithful(c) && Holding(ps, c, s, T)
    ensures Holding(ps, c, Delete(s, StackKey(ps, c, key)), T - {key})
  {
    DeleteOne(s, StackKey(ps, c, key));
    ThroughDelete(ps, Contents(s), c.key(key));
    TypedDelete(c, PrivateIn(ps, Contents(s)), T, key);
  }

  /** What one key of the store says about the typed map. */
  lemma HoldingAt<K(!new), V(!new)>(ps: seq<string>, c: Codec<K, V>, s: Store<string>, T: map<K, V>, key: K)
    requires Faithful(c) && Holding(ps, c, s, T)
    ensures key in T <==> StackKey(ps, c, key) in s.kv
    ensures key in T ==> s.kv[StackKey(ps, c, key)].value == c.encode(T[key])
  {
    InPrivate(ps, Contents(s), c.key(key));
    KeyRepresented(c, PrivateIn(ps, Contents(s)), T, key);
  }

  datatype GetResult<+V> = GetError | Missing | Got(value: V)

  /** The typed map is read; nothing is written. */
  method StackGet<K(!new), V(!new)>(server: Server, ps: seq<string>, c: Codec<K, V>, key: K)
    returns (r: GetResult<V>, ghost used: seq<Slot>)
    requires Faithful(c)
    modifies server
    ensures old(server.schedule) == used + server.schedule
    ensures server.store == ApplyAll(old(server.store), Foreign(used))
    ensures forall T | Holding(ps, c, server.store, T) ::
      r == if Faulty(used) then GetError else if key in T then Got(T[key]) else Missing
  {
    var ok, found, value;
    ok, found, value, used := server.Get(StackKey(ps, c, key));
    forall T | Holding(ps, c, server.store, T)
      ensures (key in T <==> StackKey(ps, c, key) in server.store.kv)
           && (key in T ==> c.decode(server.store.kv[StackKey(ps, c, key)].value) == Some(T[key]))
    {
      HoldingAt(ps, c, server.store, T, key);
    }
    if !ok {
      r := GetError;
    } else if !found {
      r := Missing;
    } else {
      var v := c.decode(value);
      r := if v.None? then GetError else Got(v.value);
    }
  }

  /** A put puts one entry into the typed map, and an unanswered one may. */
  method StackPut<K(!new), V(!new)>(server: Server, ps: seq<string>, c: Codec<K, V>, key: K, v: V)
    returns (ok: bool, ghost used: seq<Slot>)
    requires Faithful(c)
    modifies server
    ensures old(server.schedule) == used + server.schedule
    ensures ok <==> !Faulty(used)
    ensures
      var before := ApplyAll(old(server.store), Foreign(used));
      forall T | Holding(ps, c, before, T) ::
        Holding(ps, c, server.store, T[key := v]) || (!ok && Holding(ps, c, server.store, T))
  {
    ok, used := server.Write(OpPut(map[StackKey(ps, c, key) := c.encode(v)]));
    ghost var before := ApplyAll(old(server.store), Foreign(used));
    forall T | Holding(ps, c, before, T)
      ensures Holding(ps, c, server.store, T[key := v]) || (!ok && Holding(ps, c, server.store, T))
    {
      HoldingAfterPut(ps, c, before, T, key, v);
    }
  }

  method StackDelete<K(!new), V(!new)>(server: Server, ps: seq<string>, c: Codec<K, V>, key: K)
    returns (ok: bool, ghost used: seq<Slot>)
    requires Faithful(c)
    modifies server
    ensures old(server.schedule) == used + server.schedule
    ensures ok <==> !Faulty(used)
    ensures
      var before := ApplyAll(old(server.store), Foreign(used));
      forall T | Holding(ps, c, before, T) ::
        Holding(ps, c, server.store, T - {key}) || (!ok && Holding(ps, c, server.store, T))
  {
    ok, used := server.Write(OpDelete(StackKey(ps, c, key)));
    ghost var before := ApplyAll(old(server.store), Foreign(used));
    forall T | Holding(ps, c, before, T)
      ensures Holding(ps, c, server.store, T - {key}) || (!ok && Holding(ps, c, server.store, T))
    {
      HoldingAfterDelete(ps, c, before, T, key);
    }
  }

  /** What the answer to a conditional write says about the typed map T that was there:
      true means that the condition held and the entry was written in the same step. */
  ghost predicate Conditional<K(!new), V(!new)>(ps: seq<string>, c: Codec<K, V>, r: TxResult, T: map<K, V>,
      key: K, expected: Option<V>, v: V, after: Store<string>) {
    match r
    case Done(true) => LookUp(T, key) == expected && Holding(ps, c, after, T[key := v])
    case CommitFailed =>
      Holding(ps, c, after, T) || (LookUp(T, key) == expected && Holding(ps, c, after, T[key := v]))
    case _ => Holding(ps, c, after, T)
  }

  ghost function LookUp<K, V>(T: map<K, V>, key: K): Option<V> {
    if key in T then Some(T[key]) else None
  }

  method StackPutIfAbsent<K(!new), V(!new)>(server: Server, ps: seq<string>, c: Codec<K, V>, key: K, v: V)
    returns (r: TxResult, ghost used: seq<Slot>)
    requires Valid(server.store) && Faithful(c)
    modifies server
    ensures Valid(server.store) && old(server.schedule) == used + server.schedule
    ensures
      var before := ApplyAll(old(server.store), Foreign(used));
      forall T | Holding(ps, c, before, T) :: Conditional(ps, c, r, T, key, None, v, server.store)
    ensures forall T | Holding(ps, c, server.store, T) :: r == Done(false) ==>
      LookUp(T, key) != None || Interference(Foreign(Tail(used)), [StackKey(ps, c, key)]) > 0
  {
    r, used := PutIfAbsent(server, StackKey(ps, c, key), c.encode(v));
    ghost var before := ApplyAll(old(server.store), Foreign(used));
    forall T | Holding(ps, c, before, T) ensures Conditional(ps, c, r, T, key, None, v, server.store) {
      HoldingAt(ps, c, before, T, key);
      HoldingAfterPut(ps, c, before, T, key, v);
    }
    forall T | Holding(ps, c, server.store, T) && StackKey(ps, c, key) in server.store.kv ensures key in T {
      HoldingAt(ps, c, server.store, T, key);
    }
  }

  method StackCompareAndSwap<K(!new), V(!new)>(server: Server, ps: seq<string>, c: Codec<K, V>, key: K, prev: V, v: V)
    returns (r: TxResult, ghost used: seq<Slot>)
    requires Valid(server.store) && Faithful(c)
    modifies server
    ensures Valid(server.store) && old(server.schedule) == used + server.schedule
    ensures
      var before := ApplyAll(old(server.store), Foreign(used));
      forall T | Holding(ps, c, before, T) :: Conditional(ps, c, r, T, key, Some(prev), v, server.store)
    ensures forall T | Holding(ps, c, server.store, T) :: r == Done(false) ==>
      LookUp(T, key) != Some(prev) || Interference(Foreign(Tail(used)), [StackKey(ps, c, key)]) > 0
  {
    r, used := CompareAndSwap(server, StackKey(ps, c, key), c.encode(prev), c.encode(v));
    ghost var before := ApplyAll(old(server.store), Foreign(used));
    forall T | Holding(ps, c, before, T)
      ensures Conditional(ps, c, r, T, key, Some(prev), v, server.store)
    {
      SwapGuard(ps, c, before, T, key, prev);
      HoldingAfterPut(ps, c, before, T, key, v);
    }
    forall T | Holding(ps, c, server.store, T)
      ensures HasValue(server.store, StackKey(ps, c, key), c.encode(prev)) <==> LookUp(T, key) == Some(prev)
    {
      SwapGuard(ps, c, server.store, T, key, prev);
    }
  }

  lemma SwapGuard<K(!new), V(!new)>(ps: seq<string>, c: Codec<K, V>, s: Store<string>, T: map<K, V>, key: K, prev: V)
    requires Faithful(c) && Holding(ps, c, s, T)
    ensures HasValue(s, StackKey(ps, c, key), c.encode(prev)) <==> LookUp(T, key) == Some(prev)
  {
    HoldingAt(ps, c, s, T, key);
    if key in T {
      EncodedEqual(c, T[key], prev);
    }
  }

  // ---------------------------------------------------------------------------
  // Listings

  function DecodeAll<K, V>(c: Codec<K, V>, values: seq<string>): Option<seq<V>> {
    if values == [] then Some([])
    else
      var n := |values| - 1;
      var rest, v := DecodeAll(c, values[..n]), c.decode(values[n]);
      if rest.None? || v.None? then None else Some(rest.value + [v.value])
  }

  /** Every value of the typed map, once for each key. */
  ghost predicate AllValues<K(!new), V>(T: map<K, V>, keys: seq<K>, values: seq<V>) {
    && |keys| == |values|
    && (forall i, j :: 0 <= i < j < |keys| ==> keys[i] != keys[j])
    && (forall k :: k in keys <==> k in T)
    && (forall i :: 0 <= i < |keys| ==> values[i] == T[keys[i]])
  }

  lemma {:induction false} DecodeEncoded<K(!new), V(!new)>(c: Codec<K, V>, vs: seq<V>, values: seq<string>)
    requires Faithful(c) && |vs| == |values| && forall i :: 0 <= i < |vs| ==> values[i] == c.encode(vs[i])
    ensures DecodeAll(c, values) == Some(vs)
  {
    if values != [] {
      var n := |values| - 1;
      DecodeEncoded(c, vs[..n], values[..n]);
      assert vs == vs[..n] + [vs[n]];
      assert c.decode(c.encode(vs[n])) == Some(vs[n]);
    }
  }

  /** The values that a listing of the represented map decodes to are the typed map's. */
  lemma ListingDecodes<K(!new), V(!new)>(c: Codec<K, V>, M: map<string, string>, T: map<K, V>, own: seq<string>,
      values: seq<string>) returns (keys: seq<K>, vs: seq<V>)
    requires Faithful(c) && Represents(c, M, T) && IsListing(M, "", own, values)
    ensures DecodeAll(c, values) == Some(vs) && AllValues(T, keys, vs)
  {
    keys, vs := [], [];
    while |keys| < |own|
      invariant |keys| == |vs| <= |own|
      invariant forall i :: 0 <= i < |keys| ==> keys[i] in T && c.key(keys[i]) == own[i] && vs[i] == T[keys[i]]
    {
      assert own[|keys|] in own && own[|keys|] in M;
      var k :| k in T && c.key(k) == own[|keys|];
      keys, vs := keys + [k], vs + [T[k]];
    }
    DecodeEncoded(c, vs, values);
    forall k | k in T ensures k in keys {
      assert c.key(k) in M && "" <= c.key(k);
      var i :| 0 <= i < |own| && own[i] == c.key(k);
      assert keys[i] == k;
    }
  }

  /** GetAll returns every value of the typed map, once for each of its keys. */
  method StackGetAll<K(!new), V(!new)>(server: Server, ps: seq<string>, c: Codec<K, V>)
    returns (r: Option<seq<V>>, ghost used: seq<Slot>)
    requires Faithful(c)
    modifies server
    ensures old(server.schedule) == used + server.schedule
    ensures server.store == ApplyAll(old(server.store), Foreign(used))
    ensures Faulty(used) ==> r == None
    ensures forall T | Holding(ps, c, server.store, T) :: !Faulty(used) ==>
      r.Some? && exists keys :: AllValues(T, keys, r.value)
  {
    var ok, values;
    ghost var stored;
    ok, values, stored, used := server.Range(Under(ps, ""));
    if !ok {
      return None, used;
    }
    r := DecodeValues(c, values);
    ghost var own := ListingThrough(ps, Contents(server.store), "", stored, values);
    forall T | Holding(ps, c, server.store, T) ensures r.Some? && exists keys :: AllValues(T, keys, r.value) {
      var keys, vs := ListingDecodes(c, PrivateIn(ps, Contents(server.store)), T, own, values);
    }
  }

  method DecodeValues<K, V>(c: Codec<K, V>, values: seq<string>) returns (r: Option<seq<V>>)
    ensures r == DecodeAll(c, values)
  {
    var result: seq<V> := [];
    for i := 0 to |values|
      invariant DecodeAll(c, values[..i]) == Some(result)
    {
      assert values[..i + 1][..i] == values[..i];
      var v := c.decode(values[i]);
      if v.None? {
        UndecodableSticks(c, values, i + 1);
        return None;
      }
      result := result + [v.value];
    }
    assert values[..|values|] == values;
    r := Some(result);
  }

  lemma {:induction false} UndecodableSticks<K, V>(c: Codec<K, V>, values: seq<string>, i: nat)
    requires i <= |values| && DecodeAll(c, values[..i]) == None
    ensures DecodeAll(c, values) == None
    decreases |values|
  {
    if i == |values| {
      assert values[..i] == values;
    } else {
      assert values[..|values| - 1][..i] == values[..i];
      UndecodableSticks(c, values[..|values| - 1], i);
    }
  }

  // ---------------------------------------------------------------------------
  // Other storages

  /** The operation stays behind the prefixes qs. */
  ghost predicate Within(qs: seq<string>, op: Op<string>) {
    forall x :: Touches(op, x) ==> Under(qs, "") <= x
  }

  /** Storages that are apart never see each other's writes: no put or delete behind one
      of them changes what the other holds, and so what any of its operations returns. */
  lemma Isolation(ps: seq<string>, qs: seq<string>, s: Store<string>, op: Op<string>)
    requires Apart(ps, qs) && Within(qs, op)
    ensures PrivateIn(ps, Contents(Apply(s, op))) == PrivateIn(ps, Contents(s))
  {
    var M, N := Contents(s), Contents(Apply(s, op));
    forall x | Under(ps, "") <= x ensures (x in M <==> x in N) && (x in M ==> M[x] == N[x]) {
      ApartKeys(ps, qs, x);
      assert !Touches(op, x);
    }
    PrivateDependsOn(ps, N, M);
  }

  /** The writes of the stack behind qs stay within qs. */
  lemma {:induction false} UpdatesStayWithin(qs: seq<string>, update: seq<KeyValueData>)
    ensures Within(qs, OpPut(UpdateMap(ThroughUpdate(qs, update))))
  {
    var out := ThroughUpdate(qs, update);
    UpdateMapKeys(out);
    ThroughUpdateKeys(qs, update);
    forall x | x in UpdateMap(out) ensures Under(qs, "") <= x {
      var i :| 0 <= i < |out| && out[i].key == x;
      UnderIs(qs, update[i].key);
    }
  }

  lemma {:induction false} ThroughUpdateKeys(qs: seq<string>, update: seq<KeyValueData>)
    ensures |ThroughUpdate(qs, update)| == |update|
    ensures forall i :: 0 <= i < |update| ==>
      ThroughUpdate(qs, update)[i] == update[i].(key := Under(qs, update[i].key))
  {
    if qs != [] {
      ThroughUpdateKeys(qs[1..], update);
    }
  }

  /** The operation belongs to a storage that is apart. */
  ghost predicate IsBeside(ps: seq<string>, op: Op<string>) {
    exists qs :: Apart(ps, qs) && Within(qs, op)
  }

  /** Any number of operations of other storages leave the typed map alone. */
  lemma {:induction false} ForeignWritesElsewhere<K(!new), V>(ps: seq<string>, c: Codec<K, V>, s: Store<string>,
      T: map<K, V>, ops: seq<Op<string>>)
    requires Holding(ps, c, s, T)
    requires forall i :: 0 <= i < |ops| ==> IsBeside(ps, ops[i])
    ensures Holding(ps, c, ApplyAll(s, ops), T)
    decreases |ops|
  {
    if ops != [] {
      assert IsBeside(ps, ops[0]);
      var qs :| Apart(ps, qs) && Within(qs, ops[0]);
      Isolation(ps, qs, s, ops[0]);
      ForeignWritesElsewhere(ps, c, Apply(s, ops[0]), T, ops[1..]);
    }
  }
}
