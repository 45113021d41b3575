/** The lists of pending and public model ids. Adding or removing an id is a retrying
    transaction on the list's key whose update function does not use the snapshot it is
    given: it reads the key once more. Any number of daemons run these transactions,
    interleaved at every request. */
module ModelLists {
  import opened Wrappers
  import opened EtcdStore
  import EtcdClient

  type Ids = seq<string>

  predicate NoDuplicates(s: Ids) {
    forall i, j :: 0 <= i < j < |s| ==> s[i] != s[j]
  }

  /** The list without the first occurrence of an id. */
  function Without(s: Ids, id: string): Ids {
    if s == [] then [] else if s[0] == id then s[1..] else [s[0]] + Without(s[1..], id)
  }

  method Remove(s: Ids, id: string) returns (r: Ids)
    ensures r == Without(s, id)
  {
    for i := 0 to |s|
      invariant id !in s[..i]
    {
      if s[i] == id {
        WithoutSplit(s, id, i);
        return s[..i] + s[i + 1..];
      }
    }
    WithoutMissing(s, id);
    r := s;
  }

  lemma {:induction false} WithoutSplit(s: Ids, id: string, i: nat)
    requires i < |s| && s[i] == id && id !in s[..i]
    ensures Without(s, id) == s[..i] + s[i + 1..]
  {
    if i > 0 {
      assert s[0] in s[..i];
      assert s[1..][..i - 1] == s[..i][1..];
      WithoutSplit(s[1..], id, i - 1);
    }
  }

  lemma {:induction false} WithoutMissing(s: Ids, id: string)
    requires id !in s
    ensures Without(s, id) == s
  {
    if s != [] {
      WithoutMissing(s[1..], id);
    }
  }

  /** On a list without duplicates the id is gone afterwards, and nothing else is. */
  lemma {:induction false} WithoutContents(s: Ids, id: string)
    requires NoDuplicates(s)
    ensures NoDuplicates(Without(s, id))
    ensures forall x :: x in Without(s, id) <==> x in s && x != id
  {
    if s != [] {
      WithoutContents(s[1..], id);
      assert forall x :: x in s <==> x == s[0] || x in s[1..];
      assert s[0] !in s[1..];
    }
  }

  // ---------------------------------------------------------------------------
  // The interleaved transactions

  datatype ListOp = Add(id: string) | Drop(id: string)

  datatype Phase =
    | Idle
    | Snapped(op: ListOp, cv: Versioned<Ids>)                          // the update function is to run
    | Reread(op: ListOp, cv: Versioned<Ids>, seen: Option<Ids>)        // it ran, the commit is to come

  datatype State = State(store: Store<Ids>, procs: map<nat, Phase>, log: seq<ListOp>)

  datatype Label =
    | Begin(p: nat, op: ListOp, fault: EtcdClient.Fault)
    | Update(p: nat, fault: EtcdClient.Fault)
    | Commit(p: nat, fault: EtcdClient.Fault)
    | Foreign(write: Op<Ids>)         // writes of other keys, deletes of any key

  function Current(store: Store<Ids>, key: string): Option<Ids> {
    if key in store.kv then Some(store.kv[key].value) else None
  }

  function OrEmpty(list: Option<Ids>): Ids {
    match list case Some(ids) => ids case None => []
  }

  /** The update functions decline to add a known id, and to remove from no list. */
  predicate Agrees(op: ListOp, seen: Option<Ids>) {
    match op
    case Add(id) => id !in OrEmpty(seen)
    case Drop(_) => seen.Some?
  }

  function Updated(op: ListOp, seen: Option<Ids>): Ids {
    match op
    case Add(id) => OrEmpty(seen) + [id]
    case Drop(id) => Without(OrEmpty(seen), id)
  }

  function CommitStep(key: string, s: State, p: nat, fault: EtcdClient.Fault): State
    requires p in s.procs && s.procs[p].Reread?
  {
    var Reread(op, cv, seen) := s.procs[p];
    if fault == EtcdClient.LostRequest then s.(procs := s.procs[p := Idle])
    else if Matches(s.store, [cv]) then
      State(PutAll(s.store, map[key := Updated(op, seen)]), s.procs[p := Idle], s.log + [op])
    else
      s.(procs := s.procs[p := if fault == EtcdClient.Delivered then Snapped(op, Read(s.store, key)) else Idle])
  }

  function Next(key: string, s: State, l: Label): State {
    match l
    case Begin(p, op, fault) =>
      if p in s.procs && s.procs[p] == Idle && fault == EtcdClient.Delivered
      then s.(procs := s.procs[p := Snapped(op, Read(s.store, key))]) else s
    case Update(p, fault) =>
      if p in s.procs && s.procs[p].Snapped? then
        var Snapped(op, cv) := s.procs[p];
        var seen := Current(s.store, key);
        s.(procs := s.procs[p := if fault == EtcdClient.Delivered && Agrees(op, seen) then Reread(op, cv, seen) else Idle])
      else s
    case Commit(p, fault) =>
      if p in s.procs && s.procs[p].Reread? then CommitStep(key, s, p, fault) else s
    case Foreign(write) =>
      if write.OpPut? && Touches(write, key) then s else s.(store := Apply(s.store, write))
  }

  function Run(key: string, s: State, labels: seq<Label>): State
    decreases |labels|
  {
    if labels == [] then s else Run(key, Next(key, s, labels[0]), labels[1..])
  }

  ghost predicate Init(key: string, s: State) {
    && Valid(s.store)
    && NoDuplicates(OrEmpty(Current(s.store, key)))
    && (forall p :: p in s.procs ==> s.procs[p] == Idle)
    && s.log == []
  }

  // ---------------------------------------------------------------------------
  // What every step keeps

  /** cv is a past reading, and at any time since at which its revision was still
      current, the list was the one that it holds. */
  ghost predicate OldRead(store: Store<Ids>, key: string, cv: Versioned<Ids>) {
    && cv.key == key
    && (cv.Present? ==>
          && 0 < cv.version <= store.rev
          && (ModRevision(store, key) == cv.version ==> Current(store, key) == Some(cv.value)))
  }

  ghost predicate PhaseInv(store: Store<Ids>, key: string, ph: Phase) {
    match ph
    case Idle => true
    case Snapped(_, cv) => OldRead(store, key, cv)
    case Reread(op, cv, seen) =>
      && OldRead(store, key, cv)
      && Agrees(op, seen)
      && NoDuplicates(OrEmpty(seen))
      && (cv.Present? && ModRevision(store, key) == cv.version ==> seen == Some(cv.value))
  }

  ghost predicate Inv(key: string, s: State) {
    && Valid(s.store)
    && NoDuplicates(OrEmpty(Current(s.store, key)))
    && forall p :: p in s.procs ==> PhaseInv(s.store, key, s.procs[p])
  }

  /** A write of the key or of other keys, or a delete, leaves past readings past. */
  lemma WriteKeepsPhase(store: Store<Ids>, key: string, write: Op<Ids>, ph: Phase)
    requires Valid(store) && PhaseInv(store, key, ph)
    ensures Valid(Apply(store, write)) && PhaseInv(Apply(store, write), key, ph)
  {
    if !Touches(write, key) {
      assert SameAt(store, Apply(store, write), key);
    } else if write.OpPut? {
      assert key in write.update && ModRevision(Apply(store, write), key) == store.rev + 1;
    }
  }

  lemma UpdatedContents(op: ListOp, seen: Option<Ids>)
    requires Agrees(op, seen) && NoDuplicates(OrEmpty(seen))
    ensures NoDuplicates(Updated(op, seen))
    ensures op.id in Updated(op, seen) <==> op.Add?
    ensures forall x :: x != op.id ==> (x in Updated(op, seen) <==> x in OrEmpty(seen))
  {
    if op.Drop? {
      WithoutContents(OrEmpty(seen), op.id);
    }
  }

  lemma CommitKeeps(key: string, s: State, p: nat, fault: EtcdClient.Fault)
    requires Inv(key, s) && p in s.procs && s.procs[p].Reread?
    ensures Inv(key, CommitStep(key, s, p, fault))
  {
    var Reread(op, cv, seen) := s.procs[p];
    var t := CommitStep(key, s, p, fault);
    assert PhaseInv(s.store, key, s.procs[p]);
    if t.store != s.store {
      var write := OpPut(map[key := Updated(op, seen)]);
      assert key in write.update && t.store == Apply(s.store, write);
      UpdatedContents(op, seen);
      forall q | q in t.procs ensures PhaseInv(t.store, key, t.procs[q]) {
        WriteKeepsPhase(s.store, key, write, s.procs[q]);
      }
      WriteKeepsPhase(s.store, key, write, Idle);
    }
  }

  lemma StepKeeps(key: string, s: State, l: Label)
    requires Inv(key, s)
    ensures Inv(key, Next(key, s, l))
  {
    var t := Next(key, s, l);
    match l
    case Begin(p, op, fault) =>
    case Update(p, fault) =>
      assert p in s.procs ==> PhaseInv(s.store, key, s.procs[p]);
    case Commit(p, fault) =>
      if p in s.procs && s.procs[p].Reread? {
        CommitKeeps(key, s, p, fault);
      }
    case Foreign(write) =>
      if t != s {
        forall q | q in t.procs ensures PhaseInv(t.store, key, t.procs[q]) {
          WriteKeepsPhase(s.store, key, write, s.procs[q]);
        }
        WriteKeepsPhase(s.store, key, write, Idle);
        assert Touches(write, key) || SameAt(s.store, t.store, key);
      }
  }

  lemma {:induction false} RunKeeps(key: string, s: State, labels: seq<Label>)
    requires Inv(key, s)
    ensures Inv(key, Run(key, s, labels))
    decreases |labels|
  {
    if labels != [] {
      StepKeeps(key, s, labels[0]);
      RunKeeps(key, Next(key, s, labels[0]), labels[1..]);
    }
  }

  /** In every run, deletes included, the list never holds an id twice, and right after
      its commit an added id is on the list and a removed one is not. */
  lemma ListsStayClean(key: string, s: State, labels: seq<Label>, p: nat, fault: EtcdClient.Fault)
    requires Init(key, s)
    ensures
      var t := Run(key, s, labels);
      var u := Next(key, t, Commit(p, fault));
      && NoDuplicates(OrEmpty(Current(t.store, key)))
      && (u.log != t.log ==>
            && p in t.procs && t.procs[p].Reread?
            && (t.procs[p].op.id in OrEmpty(Current(u.store, key)) <==> t.procs[p].op.Add?))
  {
    RunKeeps(key, s, labels);
    var t := Run(key, s, labels);
    if Next(key, t, Commit(p, fault)).log != t.log {
      var Reread(op, _, seen) := t.procs[p];
      assert PhaseInv(t.store, key, t.procs[p]);
      UpdatedContents(op, seen);
      assert key in map[key := Updated(op, seen)];
    }
  }

  /** What an operation makes of a list when it is left alone: an id that is not listed is
      appended, the first occurrence of an id is cut out, and no list is made by a drop. */
  ghost predicate Performed(op: ListOp, list: Option<Ids>, after: Option<Ids>) {
    match op
    case Add(id) => after == if id in OrEmpty(list) then list else Some(OrEmpty(list) + [id])
    case Drop(id) =>
      && (list.None? || id !in list.value ==> after == list)
      && (forall i :: list.Some? && 0 <= i < |list.value| && list.value[i] == id && id !in list.value[..i] ==>
            after == Some(list.value[..i] + list.value[i + 1..]))
  }

  lemma UpdatedPerforms(op: ListOp, list: Option<Ids>)
    requires Agrees(op, list)
    ensures Performed(op, list, Some(Updated(op, list)))
  {
    if op.Drop? {
      if op.id !in list.value {
        WithoutMissing(list.value, op.id);
      }
      forall i | 0 <= i < |list.value| && list.value[i] == op.id && op.id !in list.value[..i]
        ensures Updated(op, list) == list.value[..i] + list.value[i + 1..]
      {
        WithoutSplit(list.value, op.id, i);
      }
    }
  }

  function AloneLabels(p: nat, op: ListOp): seq<Label> {
    [Begin(p, op, EtcdClient.Delivered), Update(p, EtcdClient.Delivered), Commit(p, EtcdClient.Delivered)]
  }

  lemma AloneRun(key: string, s: State, p: nat, op: ListOp)
    requires p in s.procs && s.procs[p] == Idle
    ensures
      var list := Current(s.store, key);
      Run(key, s, AloneLabels(p, op)) ==
        if Agrees(op, list) then State(PutAll(s.store, map[key := Updated(op, list)]), s.procs, s.log + [op]) else s
  {
    var l := AloneLabels(p, op);
    var s1 := Next(key, s, l[0]);
    var s2 := Next(key, s1, l[1]);
    assert l[1..] == [l[1], l[2]] && l[1..][1..] == [l[2]] && l[1..][1..][1..] == [];
    assert Run(key, s, l) == Run(key, s1, l[1..]) == Run(key, s2, [l[2]]) == Next(key, s2, l[2]);
    assert s.procs[p := Idle] == s.procs;
    if Agrees(op, Current(s.store, key)) {
      assert Holds(s.store, CompareFor([Read(s.store, key)][0]));
    }
  }

  lemma PutOne(store: Store<Ids>, key: string, ids: Ids)
    ensures
      var t := PutAll(store, map[key := ids]);
      Current(t, key) == Some(ids) && forall k :: k != key ==> SameAt(store, t, k)
  {
    assert key in map[key := ids];
  }

  /** An add or a remove that is left alone does what it is asked for, on its own key; it
      is committed unless it adds a known id or finds no list to remove from. */
  lemma OperationAlone(key: string, s: State, p: nat, op: ListOp)
    requires p in s.procs && s.procs[p] == Idle
    ensures
      var t, list := Run(key, s, AloneLabels(p, op)), Current(s.store, key);
      && Performed(op, list, Current(t.store, key))
      && (op.Add? ==> t.log == if op.id in OrEmpty(list) then s.log else s.log + [op])
      && (op.Drop? ==> t.log == if list.None? then s.log else s.log + [op])
      && t.procs == s.procs && (forall k :: k != key ==> SameAt(s.store, t.store, k))
  {
    var list := Current(s.store, key);
    AloneRun(key, s, p, op);
    if Agrees(op, list) {
      UpdatedPerforms(op, list);
      PutOne(s.store, key, Updated(op, list));
    }
  }

  /** Exactly when the second reading is the list that the commit replaces: unless the
      snapshot found no list and the second reading did. Nothing else can go wrong, not
      even deletes and re-creations, because revisions never repeat. */
  lemma SecondReadingIsCurrentIff(key: string, s: State, labels: seq<Label>, p: nat)
    requires Init(key, s)
    requires
      var t := Run(key, s, labels);
      p in t.procs && t.procs[p].Reread? && Matches(t.store, [t.procs[p].cv])
    ensures
      var t := Run(key, s, labels);
      t.procs[p].seen == Current(t.store, key) <==> t.procs[p].cv.Present? || t.procs[p].seen.None?
  {
    RunKeeps(key, s, labels);
    var t := Run(key, s, labels);
    var cv := t.procs[p].cv;
    assert PhaseInv(t.store, key, t.procs[p]);
    assert Holds(t.store, CompareFor([cv][0]));
    assert cv.Absent? <==> key !in t.store.kv;
  }

  // ---------------------------------------------------------------------------
  // Without deletes of the key the operations are atomic

  predicate KeepsKey(l: Label, key: string) {
    l.Foreign? ==> l.write != OpDelete(key)
  }

  /** The list after a history of operations, each applied to the list it found. */
  function Replay(list: Option<Ids>, log: seq<ListOp>): Option<Ids> {
    if log == [] then list else Some(Updated(log[|log| - 1], Replay(list, log[..|log| - 1])))
  }

  /** Every operation of the history was in order when it was applied. */
  predicate Legal(list: Option<Ids>, log: seq<ListOp>) {
    log != [] ==> Legal(list, log[..|log| - 1]) && Agrees(log[|log| - 1], Replay(list, log[..|log| - 1]))
  }

  ghost predicate Atomic(key: string, first: Option<Ids>, s: State) {
    && Inv(key, s)
    && (forall p :: p in s.procs && s.procs[p].Reread? && s.procs[p].seen.Some? ==> key in s.store.kv)
    && Current(s.store, key) == Replay(first, s.log)
    && Legal(first, s.log)
  }

  lemma AtomicCommit(key: string, first: Option<Ids>, s: State, p: nat, fault: EtcdClient.Fault)
    requires Atomic(key, first, s) && p in s.procs && s.procs[p].Reread?
    ensures
      var t := CommitStep(key, s, p, fault);
      && Current(t.store, key) == Replay(first, t.log) && Legal(first, t.log)
      && (key in s.store.kv ==> key in t.store.kv)
  {
    var Reread(op, cv, seen) := s.procs[p];
    var t := CommitStep(key, s, p, fault);
    if t.log != s.log {
      assert PhaseInv(s.store, key, s.procs[p]);
      assert Holds(s.store, CompareFor([cv][0]));
      assert seen == Current(s.store, key);
      assert t.log[..|t.log| - 1] == s.log;
      assert key in map[key := Updated(op, seen)];
    }
  }

  lemma AtomicStep(key: string, first: Option<Ids>, s: State, l: Label)
    requires Atomic(key, first, s) && KeepsKey(l, key)
    ensures Atomic(key, first, Next(key, s, l))
  {
    StepKeeps(key, s, l);
    var t := Next(key, s, l);
    if l.Foreign? {
      assert t != s ==> !Touches(l.write, key) && SameAt(s.store, t.store, key);
    } else if l.Commit? && l.p in s.procs && s.procs[l.p].Reread? {
      AtomicCommit(key, first, s, l.p, l.fault);
    }
  }

  lemma {:induction false} AtomicRun(key: string, first: Option<Ids>, s: State, labels: seq<Label>)
    requires Atomic(key, first, s)
    requires forall i :: 0 <= i < |labels| ==> KeepsKey(labels[i], key)
    ensures Atomic(key, first, Run(key, s, labels))
    decreases |labels|
  {
    if labels != [] {
      AtomicStep(key, first, s, labels[0]);
      AtomicRun(key, first, Next(key, s, labels[0]), labels[1..]);
    }
  }

  /** The list is the result of the committed operations, one after the other in the
      order of their commits, each on the list its predecessors left. */
  lemma CommittedOperationsAreAtomic(key: string, s: State, labels: seq<Label>)
    requires Init(key, s)
    requires forall i :: 0 <= i < |labels| ==> KeepsKey(labels[i], key)
    ensures
      var t, first := Run(key, s, labels), Current(s.store, key);
      Current(t.store, key) == Replay(first, t.log) && Legal(first, t.log)
  {
    AtomicRun(key, Current(s.store, key), s, labels);
  }

  /** Was the last operation on this id an add? Without one, what was the case at first. */
  function LastIsAdd(first: Ids, log: seq<ListOp>, id: string): bool {
    if log == [] then id in first
    else if log[|log| - 1].id == id then log[|log| - 1].Add?
    else LastIsAdd(first, log[..|log| - 1], id)
  }

  lemma {:induction false} ReplayMembers(first: Option<Ids>, log: seq<ListOp>, id: string)
    requires NoDuplicates(OrEmpty(first)) && Legal(first, log)
    ensures NoDuplicates(OrEmpty(Replay(first, log)))
    ensures id in OrEmpty(Replay(first, log)) <==> LastIsAdd(OrEmpty(first), log, id)
  {
    if log != [] {
      var before := log[..|log| - 1];
      ReplayMembers(first, before, id);
      UpdatedContents(log[|log| - 1], Replay(first, before));
    }
  }

  /** An id is on the list if and only if the last committed operation on it was an add. */
  lemma ListedIff(key: string, s: State, labels: seq<Label>, id: string)
    requires Init(key, s)
    requires forall i :: 0 <= i < |labels| ==> KeepsKey(labels[i], key)
    ensures
      var t := Run(key, s, labels);
      id in OrEmpty(Current(t.store, key)) <==> LastIsAdd(OrEmpty(Current(s.store, key)), t.log, id)
  {
    CommittedOperationsAreAtomic(key, s, labels);
    ReplayMembers(Current(s.store, key), Run(key, s, labels).log, id);
  }

  /** b came onto the list after a: with a later add, or it stood behind a at first. */
  ghost predicate CameLater(first: Ids, log: seq<ListOp>, a: string, b: string) {
    if log == [] then exists i, j :: 0 <= i < j < |first| && first[i] == a && first[j] == b
    else
      var last := log[|log| - 1];
      if last.id == b then last.Add? && a != b
      else last.id != a && CameLater(first, log[..|log| - 1], a, b)
  }

  ghost predicate InOrder(first: Ids, log: seq<ListOp>, list: Ids) {
    forall i, j :: 0 <= i < j < |list| ==> CameLater(first, log, list[i], list[j])
  }

  lemma WithoutOrder(s: Ids, id: string, i: nat, j: nat)
    requires i < j < |Without(s, id)|
    ensures exists k, l :: 0 <= k < l < |s| && s[k] == Without(s, id)[i] && s[l] == Without(s, id)[j]
  {
    if id in s {
      FirstOccurrence(s, id);
      var n :| 0 <= n < |s| && s[n] == id && id !in s[..n];
      WithoutSplit(s, id, n);
      var k, l := if i < n then i else i + 1, if j < n then j else j + 1;
      assert s[k] == Without(s, id)[i] && s[l] == Without(s, id)[j];
    } else {
      WithoutMissing(s, id);
      assert s[i] == Without(s, id)[i] && s[j] == Without(s, id)[j];
    }
  }

  lemma {:induction false} FirstOccurrence(s: Ids, id: string)
    requires id in s
    ensures exists n :: 0 <= n < |s| && s[n] == id && id !in s[..n]
  {
    var last := |s| - 1;
    if id in s[..last] {
      FirstOccurrence(s[..last], id);
      var n :| 0 <= n < last && s[..last][n] == id && id !in s[..last][..n];
      assert s[..last][..n] == s[..n];
    } else {
      assert s[last] == id;
    }
  }

  lemma UpdatedOrder(first: Ids, log: seq<ListOp>, op: ListOp, seen: Option<Ids>)
    requires Agrees(op, seen) && NoDuplicates(OrEmpty(seen)) && InOrder(first, log, OrEmpty(seen))
    ensures InOrder(first, log + [op], Updated(op, seen))
  {
    var list, t := OrEmpty(seen), Updated(op, seen);
    assert (log + [op])[..|log|] == log;
    UpdatedContents(op, seen);
    forall i, j | 0 <= i < j < |t| ensures CameLater(first, log + [op], t[i], t[j]) {
      if op.Drop? {
        WithoutOrder(list, op.id, i, j);
        var k, l :| 0 <= k < l < |list| && list[k] == t[i] && list[l] == t[j];
        assert t[i] in t && t[j] in t;
      }
    }
  }

  lemma {:induction false} ReplayOrder(first: Option<Ids>, log: seq<ListOp>)
    requires NoDuplicates(OrEmpty(first)) && Legal(first, log)
    ensures InOrder(OrEmpty(first), log, OrEmpty(Replay(first, log)))
  {
    if log != [] {
      var before, op := log[..|log| - 1], log[|log| - 1];
      ReplayOrder(first, before);
      ReplayMembers(first, before, op.id);
      UpdatedOrder(OrEmpty(first), before, op, Replay(first, before));
      assert before + [op] == log;
    }
  }

  /** The list is in the order in which its ids were last added. */
  lemma ListedInOrder(key: string, s: State, labels: seq<Label>)
    requires Init(key, s)
    requires forall i :: 0 <= i < |labels| ==> KeepsKey(labels[i], key)
    ensures
      var t := Run(key, s, labels);
      InOrder(OrEmpty(Current(s.store, key)), t.log, OrEmpty(Current(t.store, key)))
  {
    CommittedOperationsAreAtomic(key, s, labels);
    ReplayOrder(Current(s.store, key), Run(key, s, labels).log);
  }

  // ---------------------------------------------------------------------------
  // With a delete they are not

  const START := State(Store(0, map[]), map[0 := Idle, 1 := Idle], [])

  const OK := EtcdClient.Delivered

  /** Daemon 0 begins to add "a", and daemon 1 meanwhile adds "b". */
  function FirstAdd(): seq<Label> {
    [Begin(0, Add("a"), OK), Begin(1, Add("b"), OK), Update(1, OK), Commit(1, OK)]
  }

  lemma AfterFirstAdd(key: string)
    ensures
      var t := Run(key, START, FirstAdd());
      && t.log == [Add("b")] && t.procs == map[0 := Snapped(Add("a"), Absent(key)), 1 := Idle]
      && Current(t.store, key) == Some(["b"])
  {
    var l := FirstAdd();
    var s1 := Next(key, START, l[0]);
    var s2 := Next(key, s1, l[1]);
    var s3 := Next(key, s2, l[2]);
    RunTake(key, START, l, 1);
    RunTake(key, START, l, 2);
    RunTake(key, START, l, 3);
    RunTake(key, START, l, 4);
    assert l[..4] == l && l[..0] == [];
    assert s3 == START.(procs := map[0 := Snapped(Add("a"), Absent(key)), 1 := Reread(Add("b"), Absent(key), None)]);
    assert Matches(s3.store, [Absent(key)]);
    assert Updated(Add("b"), None) == ["b"] && key in map[key := ["b"]];
  }

  /** The list is deleted between daemon 0's second reading and its commit. */
  function SecondAdd(key: string): seq<Label> {
    [Update(0, OK), Foreign(OpDelete(key)), Commit(0, OK)]
  }

  /** An add begun on the missing list reads a list that is deleted before its commit,
      and writes the deleted ids back. */
  lemma DeletedIdsComeBack(key: string)
    ensures
      var s := Run(key, START, FirstAdd());
      var t := Run(key, s, SecondAdd(key));
      && Current(Run(key, s, SecondAdd(key)[..2]).store, key) == None
      && t.log == [Add("b"), Add("a")]
      && Current(t.store, key) == Some(["b", "a"])
  {
    AfterFirstAdd(key);
    var s, l := Run(key, START, FirstAdd()), SecondAdd(key);
    var s1 := Next(key, s, l[0]);
    var s2 := Next(key, s1, l[1]);
    RunTake(key, s, l, 1);
    RunTake(key, s, l, 2);
    RunTake(key, s, l, 3);
    assert l[..3] == l && l[..0] == [];
    assert s2.procs[0] == Reread(Add("a"), Absent(key), Some(["b"]));
    assert key !in s2.store.kv && Matches(s2.store, [Absent(key)]);
    assert Updated(Add("a"), Some(["b"])) == ["b", "a"] && key in map[key := ["b", "a"]];
  }

  lemma {:induction false} RunTake(key: string, s: State, labels: seq<Label>, n: nat)
    requires 0 < n <= |labels|
    ensures Run(key, s, labels[..n]) == Next(key, Run(key, s, labels[..n - 1]), labels[n - 1])
    decreases |labels|
  {
    if n > 1 {
      assert labels[..n][1..] == labels[1..][..n - 1];
      assert labels[..n - 1][1..] == labels[1..][..n - 2];
      RunTake(key, Next(key, s, labels[0]), labels[1..], n - 1);
    } else {
      assert labels[..1][1..] == [] && labels[..0] == [];
    }
  }
}
