/** The etcd based locks: any number of daemons run Lock and Unlock on one lock name,
    interleaved at every request they send. Lock is a read followed by a two-request
    swap or insert; Unlock is a two-request swap. */
module Locking {
  import opened EtcdStore
  import opened StorageApi
  import opened EtcdClient

  const LOCKED := "locked"
  const UNLOCKED := "unlocked"

  // ---------------------------------------------------------------------------
  // The two operations, run by one daemon against a server that others write to

  datatype LockReply = Acquired | Taken | LockError

  ghost predicate Wrote(before: Store<string>, after: Store<string>, name: string, v: string) {
    after == PutAll(before, map[name := v])
  }

  /** The lock is acquired by one atomic write of a key that did not say locked. It is
      refused without a trace; and if nobody else wrote the key meanwhile, then only
      because the key held something other than unlocked. */
  method Lock(server: Server, name: string) returns (r: LockReply, ghost used: seq<Slot>)
    requires Valid(server.store)
    modifies server
    ensures Valid(server.store) && old(server.schedule) == used + server.schedule
    ensures
      var before := ApplyAll(old(server.store), Foreign(used));
      var acquired := !HasValue(before, name, LOCKED) && Wrote(before, server.store, name, LOCKED);
      match r
      case Acquired => acquired
      case Taken => server.store == before
      case LockError => Faulty(used) && (server.store == before || acquired)
    ensures r == Taken && Interference(Foreign(Tail(used)), [name]) == 0 ==>
      name in server.store.kv && server.store.kv[name].value != UNLOCKED
  {
    var ok, found, value;
    ok, found, value, used := server.Get(name);
    ApplyAllEvolves(old(server.store), Foreign(used));
    if !ok {
      return LockError, used;
    }
    if found && value == LOCKED {
      return Taken, used;
    }
    var swap;
    ghost var more;
    label Read:
    if found {
      swap, more := CompareAndSwap(server, name, UNLOCKED, LOCKED);
    } else {
      swap, more := PutIfAbsent(server, name, LOCKED);
    }
    UsedExtends(old(server.store), used, more, [name]);
    FaultyConcat(used, more);
    ConcatAssociates(used, more, server.schedule);
    if swap == Done(false) && Interference(Foreign(more), [name]) == 0 {
      UntouchedKeysAgree(old@Read(server.store), Foreign(more), [name], name);
      InterferenceOfTail(more, [name]);
    }
    used := used + more;
    r := match swap case Done(won) => (if won then Acquired else Taken) case _ => LockError;
  }

  lemma InterferenceOfTail(slots: seq<Slot>, keys: seq<string>)
    ensures Interference(Foreign(Tail(slots)), keys) <= Interference(Foreign(slots), keys)
  {
    if slots != [] {
      InterferenceConcat(slots[0].foreign, Foreign(slots[1..]), keys);
    }
  }

  /** Only a lost message makes Unlock fail; a swap that finds the key unlocked is merely
      logged. */
  method Unlock(server: Server, name: string) returns (ok: bool, ghost used: seq<Slot>)
    requires Valid(server.store)
    modifies server
    ensures Valid(server.store) && old(server.schedule) == used + server.schedule
    ensures
      var before := ApplyAll(old(server.store), Foreign(used));
      server.store == before || (HasValue(before, name, LOCKED) && Wrote(before, server.store, name, UNLOCKED))
    ensures ok && Interference(Foreign(Tail(used)), [name]) == 0 ==> !HasValue(server.store, name, LOCKED)
    ensures !ok ==> Faulty(used)
  {
    var swap;
    swap, used := CompareAndSwap(server, name, LOCKED, UNLOCKED);
    assert name in map[name := UNLOCKED];
    ok := swap.Done?;
  }

  // ---------------------------------------------------------------------------
  // Any number of daemons

  datatype Kind = Swap | Insert

  datatype Phase =
    | Idle
    | Seen(kind: Kind)                                            // Get has answered
    | Acquiring(kind: Kind, cv: seq<Versioned<string>>)           // snapshot taken, commit to come
    | Holding
    | Releasing(cv: seq<Versioned<string>>)
    | Orphan                                                      // gave up with an error, the key still says locked
    | LostSwap                                                    // Unlock found the lock already unlocked

  datatype State = State(store: Store<string>, procs: map<nat, Phase>)

  datatype Label =
    | Get(p: nat, fault: Fault)
    | Snapshot(p: nat, fault: Fault)
    | Commit(p: nat, fault: Fault)
    | StartUnlock(p: nat, fault: Fault)
    | CommitUnlock(p: nat, fault: Fault)
    | Other(op: Op<string>)                                       // any write that is not to this lock's key

  function AcquireUpdate(name: string, kind: Kind): UpdateFunc {
    match kind
    case Swap => SwapUpdate(name, UNLOCKED, LOCKED)
    case Insert => InsertUpdate(name, LOCKED)
  }

  function AfterGet(s: Store<string>, name: string): Phase {
    if name !in s.kv then Seen(Insert)
    else if s.kv[name].value == LOCKED then Idle
    else Seen(Swap)
  }

  /** The commit request of a non-retrying transaction, and the phase it leads to. */
  function CommitStep(s: Store<string>, cv: seq<Versioned<string>>, u: UpdateResult, fault: Fault,
                      won: Phase, unanswered: Phase, lost: Phase, undelivered: Phase): (Store<string>, Phase) {
    if !u.Proceed? then (s, lost)
    else if fault == LostRequest then (s, undelivered)
    else if Matches(s, cv) then (PutAll(s, UpdateMap(u.update)), if fault == Delivered then won else unanswered)
    else (s, lost)
  }

  function Next(name: string, s: State, l: Label): State {
    match l
    case Other(op) => if Touches(op, name) then s else s.(store := Apply(s.store, op))
    case Get(p, fault) =>
      if p in s.procs && s.procs[p] == Idle && fault == Delivered
      then s.(procs := s.procs[p := AfterGet(s.store, name)]) else s
    case Snapshot(p, fault) =>
      if p in s.procs && s.procs[p].Seen?
      then
        s.(procs := s.procs[p := if fault == Delivered then Acquiring(s.procs[p].kind, [Read(s.store, name)])
                                 else Idle])
      else s
    case Commit(p, fault) =>
      if p in s.procs && s.procs[p].Acquiring? then
        var u := AcquireUpdate(name, s.procs[p].kind)(Values(s.procs[p].cv));
        var (store, phase) := CommitStep(s.store, s.procs[p].cv, u, fault, Holding, Orphan, Idle, Idle);
        State(store, s.procs[p := phase])
      else s
    case StartUnlock(p, fault) =>
      if p in s.procs && s.procs[p] == Holding
      then s.(procs := s.procs[p := if fault == Delivered then Releasing([Read(s.store, name)]) else Orphan])
      else s
    case CommitUnlock(p, fault) =>
      if p in s.procs && s.procs[p].Releasing? then
        var u := SwapUpdate(name, LOCKED, UNLOCKED)(Values(s.procs[p].cv));
        var (store, phase) := CommitStep(s.store, s.procs[p].cv, u, fault, Idle, Idle, LostSwap, Orphan);
        State(store, s.procs[p := phase])
      else s
  }

  function Run(name: string, s: State, labels: seq<Label>): State
    decreases |labels|
  {
    if labels == [] then s else Run(name, Next(name, s, labels[0]), labels[1..])
  }

  ghost predicate Init(name: string, s: State) {
    && Valid(s.store)
    && (name in s.store.kv ==> s.store.kv[name].value == UNLOCKED)
    && forall p :: p in s.procs ==> s.procs[p] == Idle
  }

  /** The lock is taken on behalf of this process. */
  predicate Owner(ph: Phase) {
    ph.Holding? || ph.Releasing? || ph.Orphan?
  }

  predicate Locked(name: string, s: State) {
    name in s.store.kv && s.store.kv[name].value == LOCKED
  }

  /** cv was read at some time in the past: the same revision means the same value. */
  ghost predicate OldRead(store: Store<string>, name: string, cv: seq<Versioned<string>>) {
    && |cv| == 1 && cv[0].key == name
    && (cv[0].Present? ==>
          && 0 < cv[0].version <= store.rev
          && (name in store.kv && store.kv[name].mod == cv[0].version ==> store.kv[name].value == cv[0].value))
  }

  ghost predicate PhaseInv(name: string, store: Store<string>, ph: Phase) {
    match ph
    case Acquiring(_, cv) => OldRead(store, name, cv)
    case Releasing(cv) => cv == [Read(store, name)]
    case LostSwap => false
    case _ => true
  }

  ghost predicate Inv(name: string, s: State) {
    && Valid(s.store)
    && (name in s.store.kv ==> s.store.kv[name].value in {LOCKED, UNLOCKED})
    && (forall p :: p in s.procs ==> PhaseInv(name, s.store, s.procs[p]))
    && (forall p, q :: p in s.procs && q in s.procs && Owner(s.procs[p]) && Owner(s.procs[q]) ==> p == q)
    && (Locked(name, s) <==> exists p :: p in s.procs && Owner(s.procs[p]))
  }

  /** Writing the key makes every earlier read of it stale, and keeps reads old. */
  lemma WriteKeepsOldReads(name: string, store: Store<string>, v: string, cv: seq<Versioned<string>>)
    requires Valid(store) && OldRead(store, name, cv)
    ensures OldRead(PutAll(store, map[name := v]), name, cv)
  {
    assert name in map[name := v];
  }

  /** What a successful commit of one of the three swaps means. */
  lemma CommitWins(name: string, store: Store<string>, cv: seq<Versioned<string>>)
    requires Valid(store) && OldRead(store, name, cv) && Matches(store, cv)
    ensures cv == [Read(store, name)]
  {
    assert Holds(store, CompareFor(cv[0]));
  }

  lemma WinningPreserves(name: string, s: State, p: nat, ph: Phase)
    requires Inv(name, s) && p in s.procs && !Locked(name, s) && (ph == Holding || ph == Orphan)
    ensures Inv(name, State(PutAll(s.store, map[name := LOCKED]), s.procs[p := ph]))
  {
    var t := State(PutAll(s.store, map[name := LOCKED]), s.procs[p := ph]);
    assert name in map[name := LOCKED];
    forall q | q in t.procs ensures PhaseInv(name, t.store, t.procs[q]) && (q != p ==> !Owner(t.procs[q])) {
      if q != p {
        assert PhaseInv(name, s.store, s.procs[q]);
        if t.procs[q].Acquiring? {
          WriteKeepsOldReads(name, s.store, LOCKED, t.procs[q].cv);
        }
      }
    }
    assert Owner(t.procs[p]);
  }

  lemma CommitPreserves(name: string, s: State, p: nat, fault: Fault)
    requires Inv(name, s) && p in s.procs && s.procs[p].Acquiring?
    ensures Inv(name, Next(name, s, Commit(p, fault)))
  {
    var cv, t := s.procs[p].cv, Next(name, s, Commit(p, fault));
    var u := AcquireUpdate(name, s.procs[p].kind)(Values(cv));
    assert PhaseInv(name, s.store, s.procs[p]);
    if u.Proceed? && fault != LostRequest && Matches(s.store, cv) {
      CommitWins(name, s.store, cv);
      SingleWrite(name, LOCKED);
      assert u.update == [KeyValueData(name, LOCKED, false)];
      assert !Locked(name, s);
      WinningPreserves(name, s, p, if fault == Delivered then Holding else Orphan);
    } else {
      BystanderPreserves(name, s, p, Idle);
    }
  }

  /** A process that neither owned the lock nor comes to own it moves on. */
  lemma BystanderPreserves(name: string, s: State, p: nat, ph: Phase)
    requires Inv(name, s) && p in s.procs && (Owner(s.procs[p]) <==> Owner(ph))
    requires PhaseInv(name, s.store, ph)
    ensures Inv(name, s.(procs := s.procs[p := ph]))
  {
    var t := s.(procs := s.procs[p := ph]);
    forall q | q in t.procs ensures PhaseInv(name, t.store, t.procs[q]) {
      if q != p {
        assert PhaseInv(name, s.store, s.procs[q]);
      }
    }
    assert forall q :: q in s.procs ==> (Owner(t.procs[q]) <==> Owner(s.procs[q]));
  }

  lemma UnlockPreserves(name: string, s: State, p: nat, fault: Fault)
    requires Inv(name, s) && p in s.procs && s.procs[p].Releasing?
    ensures Inv(name, Next(name, s, CommitUnlock(p, fault)))
    ensures fault == Delivered ==> Next(name, s, CommitUnlock(p, fault)).procs[p] == Idle
    ensures fault != LostRequest ==> !Locked(name, Next(name, s, CommitUnlock(p, fault)))
  {
    var cv, t := s.procs[p].cv, Next(name, s, CommitUnlock(p, fault));
    var u := SwapUpdate(name, LOCKED, UNLOCKED)(Values(cv));
    assert PhaseInv(name, s.store, s.procs[p]);
    assert Owner(s.procs[p]) && Locked(name, s);
    assert Matches(s.store, cv);
    assert u == Proceed([KeyValueData(name, UNLOCKED, false)]);
    if fault != LostRequest {
      SingleWrite(name, UNLOCKED);
      assert t.store == PutAll(s.store, map[name := UNLOCKED]);
      assert name in map[name := UNLOCKED];
      forall q | q in t.procs ensures PhaseInv(name, t.store, t.procs[q]) && !Owner(t.procs[q]) {
        if q != p {
          assert PhaseInv(name, s.store, s.procs[q]);
          if t.procs[q].Acquiring? {
            WriteKeepsOldReads(name, s.store, UNLOCKED, t.procs[q].cv);
          }
        }
      }
    } else {
      BystanderPreserves(name, s, p, Orphan);
    }
  }

  lemma OtherPreserves(name: string, s: State, op: Op<string>)
    requires Inv(name, s) && !Touches(op, name)
    ensures Inv(name, Next(name, s, Other(op)))
  {
    var t := Next(name, s, Other(op));
    assert SameAt(s.store, t.store, name);
    forall q | q in t.procs ensures PhaseInv(name, t.store, t.procs[q]) {
      assert PhaseInv(name, s.store, s.procs[q]);
    }
  }

  lemma QuietStepPreserves(name: string, s: State, l: Label)
    requires Inv(name, s) && (l.Get? || l.Snapshot? || l.StartUnlock?)
    ensures Inv(name, Next(name, s, l))
  {
    var t := Next(name, s, l);
    if t != s {
      assert PhaseInv(name, s.store, s.procs[l.p]);
      BystanderPreserves(name, s, l.p, t.procs[l.p]);
    }
  }

  lemma StepPreserves(name: string, s: State, l: Label)
    requires Inv(name, s)
    ensures Inv(name, Next(name, s, l))
  {
    match l
    case Other(op) => if !Touches(op, name) { OtherPreserves(name, s, op); }
    case Commit(p, fault) => if p in s.procs && s.procs[p].Acquiring? { CommitPreserves(name, s, p, fault); }
    case CommitUnlock(p, fault) => if p in s.procs && s.procs[p].Releasing? { UnlockPreserves(name, s, p, fault); }
    case _ => QuietStepPreserves(name, s, l);
  }

  lemma {:induction false} RunPreserves(name: string, s: State, labels: seq<Label>)
    requires Inv(name, s)
    ensures Inv(name, Run(name, s, labels))
    decreases |labels|
  {
    if labels != [] {
      StepPreserves(name, s, labels[0]);
      RunPreserves(name, Next(name, s, labels[0]), labels[1..]);
    }
  }

  /** Mutual exclusion over every run, with messages lost anywhere: at most one
      process owns the lock, the key says locked exactly while one does, and no Unlock
      ever finds its lock taken away. */
  lemma MutualExclusion(name: string, s: State, labels: seq<Label>)
    requires Init(name, s)
    ensures
      var t := Run(name, s, labels);
      && (forall p, q :: p in t.procs && q in t.procs && Owner(t.procs[p]) && Owner(t.procs[q]) ==> p == q)
      && (Locked(name, t) <==> exists p :: p in t.procs && Owner(t.procs[p]))
      && (forall p :: p in t.procs ==> t.procs[p] != LostSwap)
  {
    RunPreserves(name, s, labels);
    var t := Run(name, s, labels);
    forall p | p in t.procs ensures t.procs[p] != LostSwap {
      assert PhaseInv(name, t.store, t.procs[p]);
    }
  }

  predicate Faultless(l: Label) {
    l.Other? || l.fault == Delivered
  }

  lemma {:induction false} NoOrphansWithoutFaults(name: string, s: State, labels: seq<Label>)
    requires Inv(name, s)
    requires forall p :: p in s.procs ==> s.procs[p] != Orphan
    requires forall i :: 0 <= i < |labels| ==> Faultless(labels[i])
    ensures forall p :: p in Run(name, s, labels).procs ==> Run(name, s, labels).procs[p] != Orphan
    decreases |labels|
  {
    if labels != [] {
      StepPreserves(name, s, labels[0]);
      assert Faultless(labels[0]);
      NoOrphansWithoutFaults(name, Next(name, s, labels[0]), labels[1..]);
    }
  }

  /** When no message is lost, "locked" means that a live process holds the lock. */
  lemma LockedExactlyWhileHeld(name: string, s: State, labels: seq<Label>)
    requires Init(name, s)
    requires forall i :: 0 <= i < |labels| ==> Faultless(labels[i])
    ensures
      var t := Run(name, s, labels);
      Locked(name, t) <==> exists p :: p in t.procs && (t.procs[p].Holding? || t.procs[p].Releasing?)
  {
    MutualExclusion(name, s, labels);
    NoOrphansWithoutFaults(name, s, labels);
    var t := Run(name, s, labels);
    if Locked(name, t) {
      var p :| p in t.procs && Owner(t.procs[p]);
      assert t.procs[p] != Orphan;
    }
    if p :| p in t.procs && (t.procs[p].Holding? || t.procs[p].Releasing?) {
      assert Owner(t.procs[p]);
    }
  }

  /** A free lock can be taken: the three requests of Lock, undisturbed, end in
      possession from every reachable state in which nobody owns the lock. */
  lemma FreeLockCanBeTaken(name: string, s: State, p: nat)
    requires Inv(name, s) && p in s.procs && s.procs[p] == Idle && !Locked(name, s)
    ensures
      var t := Run(name, s, [Get(p, Delivered), Snapshot(p, Delivered), Commit(p, Delivered)]);
      p in t.procs && t.procs[p] == Holding
  {
    var l := [Get(p, Delivered), Snapshot(p, Delivered), Commit(p, Delivered)];
    var s1 := Next(name, s, l[0]);
    var s2 := Next(name, s1, l[1]);
    var s3 := Next(name, s2, l[2]);
    assert l[1..] == [l[1], l[2]] && l[1..][1..] == [l[2]] && l[1..][1..][1..] == [];
    assert Run(name, s, l) == Run(name, s1, l[1..]) == Run(name, s2, l[1..][1..]) == Run(name, s3, []);
    assert Matches(s.store, [Read(s.store, name)]);
  }
}
