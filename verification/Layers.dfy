/** The two layers above the store: keys get a prefix, and keys and values get types.
    Both are shown to give each storage a private map of its own. */
module Layers {
  import opened StorageApi

  /** vals answers for exactly the given keys out of the map M, in any order. */
  ghost predicate Reflects(vals: seq<KeyValueData>, keys: seq<string>, M: map<string, string>) {
    && (forall k :: k in keys ==> Lookup(k, M) in vals)
    && (forall i :: 0 <= i < |vals| ==> vals[i].key in keys && vals[i] == Lookup(vals[i].key, M))
  }

  function Lookup(k: string, M: map<string, string>): KeyValueData {
    if k in M then KeyValueData(k, M[k], true) else KeyValueData(k, "", false)
  }

  // ---------------------------------------------------------------------------
  // The prefixing layer

  function AddPrefix(p: string, k: string): string {
    p + "/" + k
  }

  function TrimRight(p: string): string {
    if p != [] && p[|p| - 1] == '/' then TrimRight(p[..|p| - 1]) else p
  }

  function TrimPrefix(k: string, p: string): string {
    if p <= k then k[|p|..] else k
  }

  function RemovePrefix(p: string, k: string): string {
    TrimPrefix(k, TrimRight(p) + "/")
  }

  predicate EndsInSlash(p: string) {
    p != [] && p[|p| - 1] == '/'
  }

  lemma {:induction false} TrimRightShorter(p: string)
    ensures |TrimRight(p)| <= |p| && TrimRight(p) <= p
    ensures EndsInSlash(p) ==> |TrimRight(p)| < |p|
  {
    if EndsInSlash(p) {
      TrimRightShorter(p[..|p| - 1]);
    }
  }

  /** Removing undoes adding for every key or for none: exactly when the prefix does not
      end in a slash. */
  lemma RemoveUndoesAddIff(p: string, k: string)
    ensures RemovePrefix(p, AddPrefix(p, k)) == k <==> !EndsInSlash(p)
  {
    TrimRightShorter(p);
    var t := TrimRight(p) + "/";
    assert AddPrefix(p, k) == p + ("/" + k);
    if !EndsInSlash(p) {
      assert t <= AddPrefix(p, k);
    } else {
      assert |t| <= |p|;
    }
  }

  function Slashes(n: nat): string {
    if n == 0 then "" else Slashes(n - 1) + "/"
  }

  lemma {:induction false} TrimmedSlashes(q: string, n: nat)
    requires !EndsInSlash(q)
    ensures TrimRight(q + Slashes(n)) == q
  {
    if n == 0 {
      assert q + Slashes(0) == q;
    } else {
      var p := q + Slashes(n);
      assert p[..|p| - 1] == q + Slashes(n - 1);
      TrimmedSlashes(q, n - 1);
    }
  }

  lemma {:induction false} SlashFirst(n: nat)
    ensures Slashes(n) + "/" == "/" + Slashes(n)
  {
    if n > 0 {
      SlashFirst(n - 1);
      assert Slashes(n) + "/" == "/" + Slashes(n - 1) + "/";
      assert "/" + Slashes(n) == "/" + (Slashes(n - 1) + "/");
    } else {
      assert Slashes(0) == "";
    }
  }

  /** What is left of a key under a prefix that ends in n slashes: the n slashes stay. */
  lemma RemoveLeavesSlashes(q: string, n: nat, k: string)
    requires !EndsInSlash(q)
    ensures RemovePrefix(q + Slashes(n), AddPrefix(q + Slashes(n), k)) == Slashes(n) + k
  {
    TrimmedSlashes(q, n);
    SlashFirst(n);
    var full := AddPrefix(q + Slashes(n), k);
    assert full == q + (Slashes(n) + "/") + k;
    assert full == (q + "/") + (Slashes(n) + k);
  }

  lemma AddPrefixInjective(p: string, k: string, k': string)
    ensures AddPrefix(p, k) == AddPrefix(p, k') <==> k == k'
  {
    assert AddPrefix(p, k)[|p| + 1..] == k && AddPrefix(p, k')[|p| + 1..] == k';
  }

  function AddToKeys(p: string, keys: seq<string>): (r: seq<string>)
    ensures |r| == |keys| && forall i :: 0 <= i < |r| ==> r[i] == AddPrefix(p, keys[i])
  {
    seq(|keys|, i requires 0 <= i < |keys| => AddPrefix(p, keys[i]))
  }

  function AddToUpdate(p: string, update: seq<KeyValueData>): (r: seq<KeyValueData>)
    ensures |r| == |update| && forall i :: 0 <= i < |r| ==> r[i] == update[i].(key := AddPrefix(p, update[i].key))
  {
    seq(|update|, i requires 0 <= i < |update| => update[i].(key := AddPrefix(p, update[i].key)))
  }

  function RemoveFromValues(p: string, vals: seq<KeyValueData>): (r: seq<KeyValueData>)
    ensures |r| == |vals| && forall i :: 0 <= i < |r| ==> r[i] == vals[i].(key := RemovePrefix(p, vals[i].key))
  {
    seq(|vals|, i requires 0 <= i < |vals| => vals[i].(key := RemovePrefix(p, vals[i].key)))
  }

  /** appendKeyPrefix: a copy of the slice, rewritten in place. */
  method AppendKeyPrefix(p: string, keys: seq<string>) returns (prefixed: seq<string>)
    ensures prefixed == AddToKeys(p, keys)
  {
    prefixed := keys;
    for i := 0 to |prefixed|
      invariant |prefixed| == |keys|
      invariant forall j :: 0 <= j < i ==> prefixed[j] == AddPrefix(p, keys[j])
      invariant forall j :: i <= j < |keys| ==> prefixed[j] == keys[j]
    {
      prefixed := prefixed[i := AddPrefix(p, prefixed[i])];
    }
  }

  /** removeKeyValuePrefix */
  method RemoveKeyValuePrefix(p: string, vals: seq<KeyValueData>) returns (out: seq<KeyValueData>)
    ensures out == RemoveFromValues(p, vals)
  {
    out := vals;
    for i := 0 to |out|
      invariant |out| == |vals|
      invariant forall j :: 0 <= j < i ==> out[j] == vals[j].(key := RemovePrefix(p, vals[j].key))
      invariant forall j :: i <= j < |vals| ==> out[j] == vals[j]
    {
      out := out[i := out[i].(key := RemovePrefix(p, out[i].key))];
    }
  }

  /** What PrefixedAtomicStorage.ExecuteTransaction hands to its delegate. */
  function PrefixRequest(p: string, request: CASRequest): CASRequest {
    CASRequest(request.retryTillSuccessOrError, AddToKeys(p, request.conditionKeys),
               (vals: seq<KeyValueData>) => PrefixResult(p, request.update(RemoveFromValues(p, vals))))
  }

  function PrefixResult(p: string, r: UpdateResult): UpdateResult {
    if r.Proceed? then Proceed(AddToUpdate(p, r.update)) else r
  }

  /** T is the private map of the storage with prefix p inside M. */
  ghost predicate Sees(p: string, M: map<string, string>, T: map<string, string>) {
    forall k {:trigger AddPrefix(p, k)} ::
      (k in T <==> AddPrefix(p, k) in M) && (k in T ==> T[k] == M[AddPrefix(p, k)])
  }

  lemma SeesAnswer(p: string, M: map<string, string>, T: map<string, string>, k: string)
    requires Sees(p, M, T)
    ensures Lookup(AddPrefix(p, k), M) == Lookup(k, T).(key := AddPrefix(p, k))
  {
  }

  /** What comes back through the prefix layer answers for the private map. */
  lemma PrefixedValuesReflect(p: string, keys: seq<string>, M: map<string, string>, T: map<string, string>,
                              vals: seq<KeyValueData>)
    requires !EndsInSlash(p) && Sees(p, M, T) && Reflects(vals, AddToKeys(p, keys), M)
    ensures Reflects(RemoveFromValues(p, vals), keys, T)
  {
    var out := RemoveFromValues(p, vals);
    forall k | k in keys ensures Lookup(k, T) in out {
      var j :| 0 <= j < |keys| && keys[j] == k;
      assert AddToKeys(p, keys)[j] == AddPrefix(p, k);
      assert Lookup(AddPrefix(p, k), M) in vals;
      var i :| 0 <= i < |vals| && vals[i] == Lookup(AddPrefix(p, k), M);
      SeesAnswer(p, M, T, k);
      RemoveUndoesAddIff(p, k);
      assert out[i] == Lookup(k, T);
    }
    forall i | 0 <= i < |out| ensures out[i].key in keys && out[i] == Lookup(out[i].key, T) {
      assert vals[i].key in AddToKeys(p, keys);
      var j :| 0 <= j < |keys| && vals[i].key == AddPrefix(p, keys[j]);
      RemoveUndoesAddIff(p, keys[j]);
      SeesAnswer(p, M, T, keys[j]);
      assert out[i].key == keys[j];
    }
  }

  /** A put through the layer is a put on the private map. */
  lemma PrefixedPut(p: string, M: map<string, string>, T: map<string, string>, k: string, v: string)
    requires Sees(p, M, T)
    ensures Sees(p, M[AddPrefix(p, k) := v], T[k := v])
  {
    forall k' {:trigger AddPrefix(p, k')} ensures AddPrefix(p, k) == AddPrefix(p, k') <==> k == k' {
      AddPrefixInjective(p, k, k');
    }
  }

  lemma MergeLast<A, B>(m: map<A, B>, n: map<A, B>, k: A, v: B)
    ensures m + n[k := v] == (m + n)[k := v]
  {
  }

  lemma {:induction false} PrefixedUpdate(p: string, M: map<string, string>, T: map<string, string>,
                                          update: seq<KeyValueData>)
    requires Sees(p, M, T)
    ensures Sees(p, M + UpdateMap(AddToUpdate(p, update)), T + UpdateMap(update))
  {
    var out := AddToUpdate(p, update);
    if update == [] {
      assert M + UpdateMap(out) == M && T + UpdateMap(update) == T;
    } else {
      var n := |update| - 1;
      var e := update[n];
      PrefixedUpdate(p, M, T, update[..n]);
      assert AddToUpdate(p, update[..n]) == out[..n];
      PrefixedPut(p, M + UpdateMap(out[..n]), T + UpdateMap(update[..n]), e.key, e.value);
      MergeLast(M, UpdateMap(out[..n]), AddPrefix(p, e.key), e.value);
      MergeLast(T, UpdateMap(update[..n]), e.key, e.value);
    }
  }

  /** The entries behind prefix p, with the prefix taken off. */
  ghost function Private(p: string, M: map<string, string>): (T: map<string, string>)
    ensures Sees(p, M, T)
  {
    var keys := set x | x in M && AddPrefix(p, "") <= x :: x[|p| + 1..];
    assert forall x :: x in M && AddPrefix(p, "") <= x ==> AddPrefix(p, x[|p| + 1..]) == x;
    assert forall k {:trigger AddPrefix(p, k)} :: AddPrefix(p, k) in M ==> k in keys by {
      forall k {:trigger AddPrefix(p, k)} | AddPrefix(p, k) in M ensures k in keys {
        assert AddPrefix(p, "") <= AddPrefix(p, k) && AddPrefix(p, k)[|p| + 1..] == k;
      }
    }
    map k | k in keys && AddPrefix(p, k) in M :: M[AddPrefix(p, k)]
  }

  lemma PrivateUnique(p: string, M: map<string, string>, A: map<string, string>, B: map<string, string>)
    requires Sees(p, M, A) && Sees(p, M, B)
    ensures A == B
  {
    assert forall k :: k in A <==> AddPrefix(p, k) in M;
    assert forall k :: k in B <==> AddPrefix(p, k) in M;
    assert A.Keys == B.Keys;
    forall k | k in A ensures A[k] == B[k] {
      assert A[k] == M[AddPrefix(p, k)];
    }
  }

  // ---------------------------------------------------------------------------
  // Prefixing layers on top of each other, the one next to the store first

  predicate SlashFree(ps: seq<string>) {
    forall i :: 0 <= i < |ps| ==> !EndsInSlash(ps[i])
  }

  /** The key that reaches the store. */
  function Under(ps: seq<string>, k: string): string {
    if ps == [] then k else AddPrefix(ps[0], Under(ps[1..], k))
  }

  function UnderKeys(ps: seq<string>, keys: seq<string>): (r: seq<string>)
    ensures |r| == |keys| && forall i :: 0 <= i < |r| ==> r[i] == Under(ps, keys[i])
  {
    seq(|keys|, i requires 0 <= i < |keys| => Under(ps, keys[i]))
  }

  /** The request that reaches the store. */
  function Through(ps: seq<string>, request: CASRequest): CASRequest {
    if ps == [] then request else PrefixRequest(ps[0], Through(ps[1..], request))
  }

  function ThroughUpdate(ps: seq<string>, update: seq<KeyValueData>): seq<KeyValueData> {
    if ps == [] then update else AddToUpdate(ps[0], ThroughUpdate(ps[1..], update))
  }

  function ThroughResult(ps: seq<string>, r: UpdateResult): UpdateResult {
    if r.Proceed? then Proceed(ThroughUpdate(ps, r.update)) else r
  }

  /** The values that reach the caller's update function. */
  function RemoveThrough(ps: seq<string>, vals: seq<KeyValueData>): seq<KeyValueData> {
    if ps == [] then vals else RemoveThrough(ps[1..], RemoveFromValues(ps[0], vals))
  }

  /** The private map of a storage inside the map of the store. */
  ghost function PrivateIn(ps: seq<string>, M: map<string, string>): map<string, string> {
    if ps == [] then M else PrivateIn(ps[1..], Private(ps[0], M))
  }

  /** All that the layers do to a key is to put one string before it. */
  lemma {:induction false} UnderIs(ps: seq<string>, k: string)
    ensures Under(ps, k) == Under(ps, "") + k
  {
    if ps != [] {
      UnderIs(ps[1..], k);
    }
  }

  lemma UnderInjective(ps: seq<string>, k: string, k': string)
    ensures Under(ps, k) == Under(ps, k') <==> k == k'
  {
    UnderIs(ps, k);
    UnderIs(ps, k');
    assert Under(ps, k)[|Under(ps, "")|..] == k && Under(ps, k')[|Under(ps, "")|..] == k';
  }

  lemma {:induction false} InPrivate(ps: seq<string>, M: map<string, string>, k: string)
    ensures k in PrivateIn(ps, M) <==> Under(ps, k) in M
    ensures k in PrivateIn(ps, M) ==> PrivateIn(ps, M)[k] == M[Under(ps, k)]
    decreases |ps|
  {
    if ps != [] {
      InPrivate(ps[1..], Private(ps[0], M), k);
    }
  }

  /** The private map depends on nothing but the entries behind the prefixes. */
  lemma PrivateDependsOn(ps: seq<string>, M: map<string, string>, N: map<string, string>)
    requires forall x :: Under(ps, "") <= x ==> (x in M <==> x in N) && (x in M ==> M[x] == N[x])
    ensures PrivateIn(ps, M) == PrivateIn(ps, N)
  {
    var A, B := PrivateIn(ps, M), PrivateIn(ps, N);
    forall k ensures (k in A <==> k in B) && (k in A ==> A[k] == B[k]) {
      InPrivate(ps, M, k);
      InPrivate(ps, N, k);
      UnderIs(ps, k);
    }
  }

  lemma ThroughPut(ps: seq<string>, M: map<string, string>, k: string, v: string)
    ensures PrivateIn(ps, M[Under(ps, k) := v]) == PrivateIn(ps, M)[k := v]
  {
    var A, B := PrivateIn(ps, M[Under(ps, k) := v]), PrivateIn(ps, M)[k := v];
    forall x ensures (x in A <==> x in B) && (x in A ==> A[x] == B[x]) {
      InPrivate(ps, M, x);
      InPrivate(ps, M[Under(ps, k) := v], x);
      UnderInjective(ps, k, x);
    }
  }

  lemma ThroughDelete(ps: seq<string>, M: map<string, string>, k: string)
    ensures PrivateIn(ps, M - {Under(ps, k)}) == PrivateIn(ps, M) - {k}
  {
    var A, B := PrivateIn(ps, M - {Under(ps, k)}), PrivateIn(ps, M) - {k};
    forall x ensures (x in A <==> x in B) && (x in A ==> A[x] == B[x]) {
      InPrivate(ps, M, x);
      InPrivate(ps, M - {Under(ps, k)}, x);
      UnderInjective(ps, k, x);
    }
  }

  lemma {:induction false} ThroughWrites(ps: seq<string>, M: map<string, string>, update: seq<KeyValueData>)
    ensures PrivateIn(ps, M + UpdateMap(ThroughUpdate(ps, update))) == PrivateIn(ps, M) + UpdateMap(update)
    decreases |ps|
  {
    if ps != [] {
      var inner := ThroughUpdate(ps[1..], update);
      var after := M + UpdateMap(AddToUpdate(ps[0], inner));
      PrefixedUpdate(ps[0], M, Private(ps[0], M), inner);
      PrivateUnique(ps[0], after, Private(ps[0], after), Private(ps[0], M) + UpdateMap(inner));
      ThroughWrites(ps[1..], Private(ps[0], M), update);
    }
  }

  /** What a request through the layers asks of the store, and how its update function
      answers there. */
  lemma {:induction false} ThroughRequest(ps: seq<string>, request: CASRequest, vals: seq<KeyValueData>)
    ensures
      var r := Through(ps, request);
      && r.retryTillSuccessOrError == request.retryTillSuccessOrError
      && r.conditionKeys == UnderKeys(ps, request.conditionKeys)
      && r.update(vals) == ThroughResult(ps, request.update(RemoveThrough(ps, vals)))
    decreases |ps|
  {
    if ps != [] {
      ThroughRequest(ps[1..], request, RemoveFromValues(ps[0], vals));
    }
  }

  /** Whatever the order of the values in the store's answer, the caller's update function
      gets an answer for its private map. */
  lemma {:induction false} ThroughReflects(ps: seq<string>, keys: seq<string>, M: map<string, string>,
                                           vals: seq<KeyValueData>)
    requires SlashFree(ps) && Reflects(vals, UnderKeys(ps, keys), M)
    ensures Reflects(RemoveThrough(ps, vals), keys, PrivateIn(ps, M))
    decreases |ps|
  {
    if ps == [] {
      assert UnderKeys(ps, keys) == keys;
    } else {
      assert UnderKeys(ps, keys) == AddToKeys(ps[0], UnderKeys(ps[1..], keys));
      PrefixedValuesReflect(ps[0], UnderKeys(ps[1..], keys), M, Private(ps[0], M), vals);
      ThroughReflects(ps[1..], keys, Private(ps[0], M), RemoveFromValues(ps[0], vals));
    }
  }

  // ---------------------------------------------------------------------------
  // Listings

  lemma PrefixUnder(ps: seq<string>, prefix: string, k: string)
    ensures Under(ps, prefix) <= Under(ps, k) <==> prefix <= k
  {
    UnderIs(ps, prefix);
    UnderIs(ps, k);
    var n := |Under(ps, "")|;
    assert Under(ps, prefix)[n..] == prefix && Under(ps, k)[n..] == k;
    if Under(ps, prefix) <= Under(ps, k) {
      assert Under(ps, k)[..n + |prefix|] == Under(ps, prefix);
      assert k[..|prefix|] == Under(ps, k)[n..n + |prefix|] == prefix;
    }
    if prefix <= k {
      assert Under(ps, k) == Under(ps, prefix) + k[|prefix|..];
    }
  }

  /** A listing through the layers returns the values of a listing of the private map:
      the same values, in the same order. */
  lemma ListingThrough(ps: seq<string>, M: map<string, string>, prefix: string, keys: seq<string>, vals: seq<string>)
    returns (own: seq<string>)
    requires IsListing(M, Under(ps, prefix), keys, vals)
    ensures keys == UnderKeys(ps, own) && IsListing(PrivateIn(ps, M), prefix, own, vals)
  {
    var n := |Under(ps, "")|;
    forall i | 0 <= i < |keys| ensures n <= |keys[i]| && keys[i] == Under(ps, keys[i][n..]) {
      assert keys[i] in keys && Under(ps, prefix) <= keys[i];
      UnderIs(ps, prefix);
      assert keys[i][..n] == Under(ps, prefix)[..n] == Under(ps, "");
      UnderIs(ps, keys[i][n..]);
    }
    own := seq(|keys|, i requires 0 <= i < |keys| => keys[i][n..]);
    forall k ensures k in own <==> k in PrivateIn(ps, M) && prefix <= k {
      InPrivate(ps, M, k);
      PrefixUnder(ps, prefix, k);
      if k in own {
        var i :| 0 <= i < |own| && own[i] == k;
        assert keys[i] == Under(ps, k);
      }
      if Under(ps, k) in keys {
        var i :| 0 <= i < |keys| && keys[i] == Under(ps, k);
        UnderInjective(ps, own[i], k);
      }
    }
    forall i | 0 <= i < |own| ensures vals[i] == PrivateIn(ps, M)[own[i]] {
      InPrivate(ps, M, own[i]);
    }
  }

  // ---------------------------------------------------------------------------
  // Storages side by side

  /** Two storages can reach a common key exactly when the string that one puts before
      its keys begins the string of the other. */
  lemma KeySpacesMeetIff(ps: seq<string>, qs: seq<string>)
    ensures (exists k, k' :: Under(ps, k) == Under(qs, k'))
       <==> (Under(ps, "") <= Under(qs, "") || Under(qs, "") <= Under(ps, ""))
  {
    if k, k' :| Under(ps, k) == Under(qs, k') {
      UnderIs(ps, k);
      UnderIs(qs, k');
      CommonPrefixes(Under(ps, k), Under(ps, ""), Under(qs, ""));
    }
    if Under(ps, "") <= Under(qs, "") {
      var k := Reach(ps, Under(qs, ""));
    } else if Under(qs, "") <= Under(ps, "") {
      var k := Reach(qs, Under(ps, ""));
    }
  }

  lemma CommonPrefixes(x: string, p: string, q: string)
    requires p <= x && q <= x
    ensures p <= q || q <= p
  {
    if |p| <= |q| {
      assert p == x[..|q|][..|p|];
    } else {
      assert q == x[..|p|][..|q|];
    }
  }

  lemma Reach(ps: seq<string>, x: string) returns (k: string)
    requires Under(ps, "") <= x
    ensures Under(ps, k) == x
  {
    k := x[|Under(ps, "")|..];
    UnderIs(ps, k);
  }

  predicate Apart(ps: seq<string>, qs: seq<string>) {
    !(Under(ps, "") <= Under(qs, "")) && !(Under(qs, "") <= Under(ps, ""))
  }

  lemma ApartKeys(ps: seq<string>, qs: seq<string>, x: string)
    requires Apart(ps, qs)
    ensures !(Under(ps, "") <= x && Under(qs, "") <= x)
  {
  }

  /** Prefixes that are the same up to a place where both have a character, and different
      ones, keep storages apart. */
  lemma ApartBecause(base: seq<string>, ps: seq<string>, qs: seq<string>, i: nat)
    requires i < |Under(ps, "")| && i < |Under(qs, "")| && Under(ps, "")[i] != Under(qs, "")[i]
    ensures Apart(base + ps, base + qs)
  {
    UnderConcat(base, ps);
    UnderConcat(base, qs);
    var n := |Under(base, "")|;
    assert Under(base + ps, "")[n + i] == Under(ps, "")[i];
    assert Under(base + qs, "")[n + i] == Under(qs, "")[i];
  }

  lemma {:induction false} UnderConcat(ps: seq<string>, qs: seq<string>)
    ensures Under(ps + qs, "") == Under(ps, "") + Under(qs, "")
  {
    if ps == [] {
      assert ps + qs == qs;
    } else {
      assert (ps + qs)[1..] == ps[1..] + qs;
      UnderConcat(ps[1..], qs);
    }
  }

  const CONTRACT_PREFIXES := ["/payment-channel/storage", "/payment/storage", "/payment-channel/lock"]

  const NETWORK_PREFIXES := ["/PrePaid/storage", "/free-call-user/storage", "/freecall/lock",
                             "/model-user/userModelStorage", "/model-user/modelStorage",
                             "/model-user/pendingModelStorage", "/model-user/publicModelStorage",
                             "LicenseDetails/storage", "LicenseUsageTracker/storage"]

  const STORAGES: nat := |CONTRACT_PREFIXES| + |NETWORK_PREFIXES|

  /** What the daemon puts between the network's storage and each of its storages. Those
      of the payment channels are behind the address of the contract. */
  function Path(mpe: string, i: nat): seq<string>
    requires i < STORAGES
  {
    if i < |CONTRACT_PREFIXES| then [mpe, CONTRACT_PREFIXES[i]] else [NETWORK_PREFIXES[i - |CONTRACT_PREFIXES|]]
  }

  /** Where two prefixes of one list first differ. */
  function ContractDifferAt(i: nat, j: nat): nat {
    if i == 0 && j == 2 then 17 else 8
  }

  function NetworkDifferAt(i: nat, j: nat): nat {
    if j >= 7 then (if i == 7 then 7 else 0)
    else if i == 0 then 1
    else if i == 1 && j == 2 then 5
    else if i <= 2 then 1
    else if i <= 4 then 12
    else 13
  }

  predicate DifferAt(p: string, q: string, d: nat) {
    d < |p| && d < |q| && p[d] != q[d]
  }

  lemma ContractPrefixesDiffer(i: nat, j: nat)
    requires i < j < |CONTRACT_PREFIXES|
    ensures DifferAt(CONTRACT_PREFIXES[i], CONTRACT_PREFIXES[j], ContractDifferAt(i, j))
  {
  }

  lemma NetworkPrefixesDiffer(i: nat, j: nat)
    requires i < j < |NETWORK_PREFIXES|
    ensures DifferAt(NETWORK_PREFIXES[i], NETWORK_PREFIXES[j], NetworkDifferAt(i, j))
  {
  }

  lemma NetworkPrefixBegins(i: nat)
    requires i < |NETWORK_PREFIXES|
    ensures NETWORK_PREFIXES[i] != "" && (NETWORK_PREFIXES[i][0] == '/' || NETWORK_PREFIXES[i][0] == 'L')
  {
  }

  lemma UnderOne(p: string)
    ensures Under([p], "") == p + "/"
  {
    assert [p][1..] == [];
  }

  lemma UnderTwo(p: string, q: string)
    ensures Under([p, q], "") == p + "/" + q + "/"
  {
    assert [p, q][1..] == [q];
    UnderOne(q);
  }

  /** A place at which the strings before the keys of two storages differ. */
  lemma PathsDiffer(mpe: string, i: nat, j: nat) returns (d: nat)
    requires mpe != "" && mpe[0] != '/' && mpe[0] != 'L' && i < j < STORAGES
    ensures DifferAt(Under(Path(mpe, i), ""), Under(Path(mpe, j), ""), d)
  {
    var n := |CONTRACT_PREFIXES|;
    if j < n {
      ContractPathsDiffer(mpe, i, j);
      d := |mpe| + 1 + ContractDifferAt(i, j);
    } else if i < n {
      NetworkPrefixBegins(j - n);
      UnderTwo(mpe, CONTRACT_PREFIXES[i]);
      UnderOne(NETWORK_PREFIXES[j - n]);
      d := 0;
    } else {
      NetworkPathsDiffer(i - n, j - n);
      d := NetworkDifferAt(i - n, j - n);
    }
  }

  lemma ContractPathsDiffer(mpe: string, i: nat, j: nat)
    requires i < j < |CONTRACT_PREFIXES|
    ensures DifferAt(Under([mpe, CONTRACT_PREFIXES[i]], ""), Under([mpe, CONTRACT_PREFIXES[j]], ""),
                     |mpe| + 1 + ContractDifferAt(i, j))
  {
    ContractPrefixesDiffer(i, j);
    var p, q := CONTRACT_PREFIXES[i], CONTRACT_PREFIXES[j];
    UnderTwo(mpe, p);
    UnderTwo(mpe, q);
    DifferBehind(mpe + "/", p, q, "/", ContractDifferAt(i, j));
  }

  lemma NetworkPathsDiffer(i: nat, j: nat)
    requires i < j < |NETWORK_PREFIXES|
    ensures DifferAt(Under([NETWORK_PREFIXES[i]], ""), Under([NETWORK_PREFIXES[j]], ""), NetworkDifferAt(i, j))
  {
    NetworkPrefixesDiffer(i, j);
    var p, q := NETWORK_PREFIXES[i], NETWORK_PREFIXES[j];
    UnderOne(p);
    UnderOne(q);
    DifferBehind("", p, q, "/", NetworkDifferAt(i, j));
  }

  lemma DifferBehind(base: string, p: string, q: string, tail: string, d: nat)
    requires DifferAt(p, q, d)
    ensures DifferAt(base + p + tail, base + q + tail, |base| + d)
  {
    assert (base + p + tail)[|base| + d] == p[d] && (base + q + tail)[|base| + d] == q[d];
  }

  /** All storages of the daemon are pairwise apart, under whatever they share. The
      address of a contract begins with a digit. */
  lemma StoragesAreApart(base: seq<string>, mpe: string, i: nat, j: nat)
    requires mpe != "" && mpe[0] != '/' && mpe[0] != 'L'
    requires i < STORAGES && j < STORAGES && i != j
    ensures Apart(base + Path(mpe, i), base + Path(mpe, j))
  {
    if i < j {
      var d := PathsDiffer(mpe, i, j);
      ApartBecause(base, Path(mpe, i), Path(mpe, j), d);
    } else {
      var d := PathsDiffer(mpe, j, i);
      ApartBecause(base, Path(mpe, j), Path(mpe, i), d);
    }
  }

  /** None of their prefixes ends in a slash, if the network's and the contract's do not. */
  lemma StoragesAreSlashFree(base: seq<string>, mpe: string, i: nat)
    requires SlashFree(base) && !EndsInSlash(mpe) && i < STORAGES
    ensures SlashFree(base + Path(mpe, i))
  {
    assert forall j :: 0 <= j < |CONTRACT_PREFIXES| ==> !EndsInSlash(CONTRACT_PREFIXES[j]);
    assert forall j :: 0 <= j < |NETWORK_PREFIXES| ==> !EndsInSlash(NETWORK_PREFIXES[j]);
  }
}
