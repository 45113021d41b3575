/** The vocabulary every storage layer shares: condition values, update functions
    and compare-and-swap requests over string keys and values. */
module StorageApi {

  datatype KeyValueData = KeyValueData(key: string, value: string, present: bool)

  datatype UpdateResult = UpdateError | Refused | Proceed(update: seq<KeyValueData>)

  type UpdateFunc = seq<KeyValueData> -> UpdateResult

  datatype CASRequest = CASRequest(retryTillSuccessOrError: bool, conditionKeys: seq<string>, update: UpdateFunc)

  predicate DistinctKeys(update: seq<KeyValueData>) {
    forall i, j :: 0 <= i < j < |update| ==> update[i].key != update[j].key
  }

  /** The writes of an update list; a later entry for the same key wins. The
      present flag plays no part: an update is always a put. */
  function UpdateMap(update: seq<KeyValueData>): map<string, string> {
    if update == [] then map[]
    else
      var last := update[|update| - 1];
      UpdateMap(update[..|update| - 1])[last.key := last.value]
  }

  lemma {:induction false} UpdateMapKeys(update: seq<KeyValueData>)
    ensures forall k :: k in UpdateMap(update) <==> exists i :: 0 <= i < |update| && update[i].key == k
  {
    if update != [] {
      var n := |update| - 1;
      UpdateMapKeys(update[..n]);
      forall k ensures k in UpdateMap(update) <==> exists i :: 0 <= i < |update| && update[i].key == k {
        if k in UpdateMap(update[..n]) {
          var i :| 0 <= i < n && update[..n][i].key == k;
          assert update[i].key == k;
        } else if i :| 0 <= i < |update| && update[i].key == k {
          assert i < n ==> update[..n][i].key == k;
        }
      }
    }
  }

  lemma {:induction false} UpdateMapValue(update: seq<KeyValueData>, i: nat)
    requires DistinctKeys(update) && i < |update|
    ensures update[i].key in UpdateMap(update)
    ensures UpdateMap(update)[update[i].key] == update[i].value
  {
    var n := |update| - 1;
    if i < n {
      UpdateMapValue(update[..n], i);
    }
  }

  /** keys are all keys of M that begin with the prefix, each once, and vals their values. */
  ghost predicate IsListing(M: map<string, string>, prefix: string, keys: seq<string>, vals: seq<string>) {
    && |keys| == |vals|
    && (forall i, j :: 0 <= i < j < |keys| ==> keys[i] != keys[j])
    && (forall k :: k in keys <==> k in M && prefix <= k)
    && (forall i :: 0 <= i < |keys| ==> vals[i] == M[keys[i]])
  }
}
