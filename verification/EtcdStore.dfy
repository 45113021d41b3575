/** The etcd key-value server as its clients observe it: every key carries the
    revision that created it and the revision that last wrote it, and one global
    counter numbers the writes. */
module EtcdStore {

  datatype Entry<+V> = Entry(value: V, create: nat, mod: nat)

  datatype Store<+V> = Store(rev: nat, kv: map<string, Entry<V>>)

  ghost predicate Valid<V>(s: Store<V>) {
    forall k :: k in s.kv ==> 0 < s.kv[k].create <= s.kv[k].mod <= s.rev
  }

  /** Revision comparisons treat a missing key as having revision 0. */
  function ModRevision<V>(s: Store<V>, k: string): nat {
    if k in s.kv then s.kv[k].mod else 0
  }

  function CreateRevision<V>(s: Store<V>, k: string): nat {
    if k in s.kv then s.kv[k].create else 0
  }

  /** One transaction's puts: all of them get the same, next, revision. */
  function PutAll<V>(s: Store<V>, update: map<string, V>): Store<V> {
    if update == map[] then s
    else
      Store(s.rev + 1,
            map k | k in s.kv.Keys + update.Keys ::
              if k in update
              then Entry(update[k], if k in s.kv then s.kv[k].create else s.rev + 1, s.rev + 1)
              else s.kv[k])
  }

  function Delete<V>(s: Store<V>, k: string): Store<V> {
    if k in s.kv then Store(s.rev + 1, s.kv - {k}) else s
  }

  /** What the store holds, without the revisions. */
  function Contents<V>(s: Store<V>): map<string, V> {
    map k | k in s.kv :: s.kv[k].value
  }

  datatype Op<+V> = OpPut(update: map<string, V>) | OpDelete(key: string)

  function Apply<V>(s: Store<V>, op: Op<V>): Store<V> {
    match op
    case OpPut(update) => PutAll(s, update)
    case OpDelete(key) => Delete(s, key)
  }

  function ApplyAll<V>(s: Store<V>, ops: seq<Op<V>>): Store<V>
    decreases |ops|
  {
    if ops == [] then s else ApplyAll(Apply(s, ops[0]), ops[1..])
  }

  predicate Touches<V>(op: Op<V>, k: string) {
    match op
    case OpPut(update) => k in update
    case OpDelete(key) => key == k
  }

  predicate TouchesAny<V>(op: Op<V>, keys: seq<string>) {
    exists k :: k in keys && Touches(op, k)
  }

  /** How many of the operations write or delete one of the keys. */
  function Interference<V>(ops: seq<Op<V>>, keys: seq<string>): nat {
    if ops == [] then 0
    else (if TouchesAny(ops[0], keys) then 1 else 0) + Interference(ops[1..], keys)
  }

  ghost predicate SameAt<V>(s: Store<V>, t: Store<V>, k: string) {
    (k in s.kv <==> k in t.kv) && (k in s.kv ==> s.kv[k] == t.kv[k])
  }

  /** t may have been reached from s by writes of anybody: an entry whose last write
      is not newer than s is the entry s had. */
  ghost predicate Evolves<V>(s: Store<V>, t: Store<V>) {
    && s.rev <= t.rev
    && forall k :: k in t.kv && t.kv[k].mod <= s.rev ==> k in s.kv && s.kv[k] == t.kv[k]
  }

  lemma EvolvesTransitive<V>(s: Store<V>, t: Store<V>, u: Store<V>)
    requires Evolves(s, t) && Evolves(t, u)
    ensures Evolves(s, u)
  {
  }

  lemma {:induction false} ApplyAllEvolves<V>(s: Store<V>, ops: seq<Op<V>>)
    requires Valid(s)
    ensures Valid(ApplyAll(s, ops))
    ensures Evolves(s, ApplyAll(s, ops))
    decreases |ops|
  {
    if ops != [] {
      var t := Apply(s, ops[0]);
      ApplyAllEvolves(t, ops[1..]);
      EvolvesTransitive(s, t, ApplyAll(t, ops[1..]));
    }
  }

  lemma {:induction false} ApplyAllConcat<V>(s: Store<V>, a: seq<Op<V>>, b: seq<Op<V>>)
    ensures ApplyAll(s, a + b) == ApplyAll(ApplyAll(s, a), b)
    decreases |a|
  {
    if a == [] {
      assert a + b == b;
    } else {
      assert (a + b)[1..] == a[1..] + b;
      ApplyAllConcat(Apply(s, a[0]), a[1..], b);
    }
  }

  lemma {:induction false} InterferenceConcat<V>(a: seq<Op<V>>, b: seq<Op<V>>, keys: seq<string>)
    ensures Interference(a + b, keys) == Interference(a, keys) + Interference(b, keys)
  {
    if a == [] {
      assert a + b == b;
    } else {
      assert (a + b)[1..] == a[1..] + b;
      InterferenceConcat(a[1..], b, keys);
    }
  }

  lemma {:induction false} UntouchedKeysAgree<V>(s: Store<V>, ops: seq<Op<V>>, keys: seq<string>, k: string)
    requires Interference(ops, keys) == 0
    requires k in keys
    ensures SameAt(s, ApplyAll(s, ops), k)
    decreases |ops|
  {
    if ops != [] {
      assert !Touches(ops[0], k);
      UntouchedKeysAgree(Apply(s, ops[0]), ops[1..], keys, k);
    }
  }

  // ---------------------------------------------------------------------------
  // Snapshots of a set of condition keys

  datatype Versioned<+V> = Present(key: string, value: V, version: nat) | Absent(key: string)

  function Read<V>(s: Store<V>, k: string): Versioned<V> {
    if k in s.kv then Present(k, s.kv[k].value, s.kv[k].mod) else Absent(k)
  }

  /** The keys that exist, in request order. */
  function PresentReads<V>(s: Store<V>, keys: seq<string>): seq<Versioned<V>> {
    if keys == [] then []
    else (if keys[0] in s.kv then [Read(s, keys[0])] else []) + PresentReads(s, keys[1..])
  }

  /** Every missing key once, in any order. */
  ghost predicate IsAbsentTail<V>(s: Store<V>, keys: seq<string>, tail: seq<Versioned<V>>) {
    && (forall i :: 0 <= i < |tail| ==> tail[i].Absent? && tail[i].key in keys && tail[i].key !in s.kv)
    && (forall i, j :: 0 <= i < j < |tail| ==> tail[i].key != tail[j].key)
    && (forall k :: k in keys && k !in s.kv ==> Absent(k) in tail)
  }

  /** cv is what a read of the keys can return when the store is s. */
  ghost predicate IsSnapshot<V>(s: Store<V>, keys: seq<string>, cv: seq<Versioned<V>>) {
    var n := |PresentReads(s, keys)|;
    n <= |cv| && cv[..n] == PresentReads(s, keys) && IsAbsentTail(s, keys, cv[n..])
  }

  datatype Compare = ModRevisionIs(key: string, rev: nat) | CreateRevisionIs(key: string, rev: nat)

  predicate Holds<V>(s: Store<V>, cmp: Compare) {
    match cmp
    case ModRevisionIs(k, rev) => ModRevision(s, k) == rev
    case CreateRevisionIs(k, rev) => CreateRevision(s, k) == rev
  }

  function CompareFor<V>(c: Versioned<V>): Compare {
    match c
    case Present(k, _, version) => ModRevisionIs(k, version)
    case Absent(k) => CreateRevisionIs(k, 0)
  }

  /** The compare part of a commit. */
  predicate Matches<V>(s: Store<V>, cv: seq<Versioned<V>>) {
    forall i :: 0 <= i < |cv| ==> Holds(s, CompareFor(cv[i]))
  }

  lemma {:induction false} PresentReadsContents<V>(s: Store<V>, keys: seq<string>)
    ensures forall k :: k in keys && k in s.kv ==> Read(s, k) in PresentReads(s, keys)
    ensures forall c :: c in PresentReads(s, keys) ==> c.key in keys && c.key in s.kv && c == Read(s, c.key)
  {
    if keys != [] {
      PresentReadsContents(s, keys[1..]);
    }
  }

  lemma {:induction false} PresentReadsSnoc<V>(s: Store<V>, keys: seq<string>, k: string)
    ensures PresentReads(s, keys + [k]) == PresentReads(s, keys) + (if k in s.kv then [Read(s, k)] else [])
  {
    if keys == [] {
      assert keys + [k] == [k];
    } else {
      assert (keys + [k])[1..] == keys[1..] + [k];
      PresentReadsSnoc(s, keys[1..], k);
    }
  }

  lemma {:induction false} PresentReadsAgree<V>(s: Store<V>, t: Store<V>, keys: seq<string>)
    requires forall k :: k in keys ==> SameAt(s, t, k)
    ensures PresentReads(s, keys) == PresentReads(t, keys)
  {
    if keys != [] {
      assert SameAt(s, t, keys[0]);
      PresentReadsAgree(s, t, keys[1..]);
    }
  }

  /** A snapshot holds exactly one kind of answer for every condition key. */
  lemma SnapshotContents<V>(s: Store<V>, keys: seq<string>, cv: seq<Versioned<V>>)
    requires IsSnapshot(s, keys, cv)
    ensures forall k :: k in keys ==> Read(s, k) in cv
    ensures forall c :: c in cv ==> c.key in keys && c == Read(s, c.key)
  {
    var n := |PresentReads(s, keys)|;
    PresentReadsContents(s, keys);
    assert cv == cv[..n] + cv[n..];
    forall k | k in keys ensures Read(s, k) in cv {
      if k !in s.kv {
        assert Absent(k) in cv[n..];
      } else {
        assert Read(s, k) in cv[..n];
      }
    }
  }

  lemma SnapshotTransfers<V>(s: Store<V>, t: Store<V>, keys: seq<string>, cv: seq<Versioned<V>>)
    requires IsSnapshot(s, keys, cv)
    requires forall k :: k in keys ==> SameAt(s, t, k)
    ensures IsSnapshot(t, keys, cv)
  {
    PresentReadsAgree(s, t, keys);
  }

  /** The revisions are enough: if the compares of an old snapshot still hold, the
      snapshot describes the store as it is now, whatever happened in between
      (including deletes and re-creations). */
  lemma MatchingSnapshotIsCurrent<V>(s: Store<V>, t: Store<V>, keys: seq<string>, cv: seq<Versioned<V>>)
    requires Valid(s) && Valid(t) && Evolves(s, t)
    requires IsSnapshot(s, keys, cv)
    ensures Matches(t, cv) <==> forall k :: k in keys ==> SameAt(s, t, k)
    ensures Matches(t, cv) ==> IsSnapshot(t, keys, cv)
  {
    SnapshotContents(s, keys, cv);
    if Matches(t, cv) {
      forall k | k in keys ensures SameAt(s, t, k) {
        var i :| 0 <= i < |cv| && cv[i] == Read(s, k);
      }
      SnapshotTransfers(s, t, keys, cv);
    }
  }

  /** A commit can only be refused because somebody wrote a condition key. */
  lemma RefusalNeedsInterference<V>(s: Store<V>, ops: seq<Op<V>>, keys: seq<string>, cv: seq<Versioned<V>>)
    requires Valid(s)
    requires IsSnapshot(s, keys, cv)
    requires !Matches(ApplyAll(s, ops), cv)
    ensures Interference(ops, keys) > 0
  {
    ApplyAllEvolves(s, ops);
    MatchingSnapshotIsCurrent(s, ApplyAll(s, ops), keys, cv);
    if Interference(ops, keys) == 0 {
      forall k | k in keys ensures SameAt(s, ApplyAll(s, ops), k) {
        UntouchedKeysAgree(s, ops, keys, k);
      }
    }
  }

  /** The other way round: a current snapshot passes the compares. */
  lemma SnapshotMatches<V>(s: Store<V>, keys: seq<string>, cv: seq<Versioned<V>>)
    requires IsSnapshot(s, keys, cv)
    ensures Matches(s, cv)
  {
    SnapshotContents(s, keys, cv);
    forall i | 0 <= i < |cv| ensures Holds(s, CompareFor(cv[i])) {
      assert cv[i] in cv;
    }
  }

  /** A key that is present is what it was exactly when nobody wrote or deleted it. */
  lemma {:induction false} PresentKeyUntouchedIff<V>(s: Store<V>, ops: seq<Op<V>>, k: string)
    requires Valid(s) && k in s.kv
    ensures SameAt(s, ApplyAll(s, ops), k) <==> Interference(ops, [k]) == 0
    decreases |ops|
  {
    if ops != [] {
      var t := Apply(s, ops[0]);
      ApplyAllEvolves(t, ops[1..]);
      assert TouchesAny(ops[0], [k]) <==> Touches(ops[0], k) by {
        assert k in [k];
      }
      if Touches(ops[0], k) {
        assert k in t.kv ==> t.kv[k].mod == s.rev + 1;
      } else {
        assert SameAt(s, t, k);
        PresentKeyUntouchedIff(t, ops[1..], k);
      }
    }
  }
}
