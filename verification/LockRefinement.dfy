/** The lock of the payment-channel protocol is a single step; the lock of the daemon is a
    read, a snapshot and a commit, each of which can be lost. Both are the same abstract
    lock, so the protocol may use the one for the other. */
module LockRefinement {
  import opened Wrappers
  import opened EtcdClient
  import Locking
  import Channel
  import Protocol

  /** Nobody has the lock, a process has it, or a process has it and will not give it back
      because it lost an answer or a request. */
  datatype Abstract = Free | Held(p: nat) | Abandoned(p: nat)

  datatype Visible =
    | Silent
    | Took(p: nat)                // and knows it
    | TookUnanswered(p: nat)
    | Gave(p: nat)                // whether or not it is told so
    | FailedToGive(p: nat)

  predicate Enabled(a: Abstract, v: Visible) {
    match v
    case Silent => true
    case Took(_) => a == Free
    case TookUnanswered(_) => a == Free
    case Gave(p) => a == Held(p)
    case FailedToGive(p) => a == Held(p)
  }

  function After(a: Abstract, v: Visible): Abstract {
    match v
    case Silent => a
    case Took(p) => Held(p)
    case TookUnanswered(p) => Abandoned(p)
    case Gave(_) => Free
    case FailedToGive(p) => Abandoned(p)
  }

  // ---------------------------------------------------------------------------
  // The daemon's lock

  ghost function OfLocking(s: Locking.State): Abstract {
    if exists p :: p in s.procs && Locking.Owner(s.procs[p]) then
      var p :| p in s.procs && Locking.Owner(s.procs[p]);
      if s.procs[p].Orphan? then Abandoned(p) else Held(p)
    else Free
  }

  lemma OfLockingIs(name: string, s: Locking.State, p: nat)
    requires Locking.Inv(name, s) && p in s.procs && Locking.Owner(s.procs[p])
    ensures OfLocking(s) == if s.procs[p].Orphan? then Abandoned(p) else Held(p)
  {
  }

  lemma NobodyOwns(name: string, s: Locking.State)
    requires Locking.Inv(name, s)
    ensures OfLocking(s) == Free <==> !Locking.Locked(name, s)
  {
  }

  /** What a request amounts to. */
  function VisibleIn(name: string, s: Locking.State, l: Locking.Label): Visible {
    var t := Locking.Next(name, s, l);
    if l.Other? || l.p !in s.procs || l.p !in t.procs then Silent
    else
      var before, after := s.procs[l.p], t.procs[l.p];
      if !Locking.Owner(before) then
        if after.Holding? then Took(l.p) else if after.Orphan? then TookUnanswered(l.p) else Silent
      else if !Locking.Owner(after) then Gave(l.p)
      else if !before.Orphan? && after.Orphan? then FailedToGive(l.p)
      else Silent
  }

  lemma OthersStay(name: string, s: Locking.State, l: Locking.Label)
    ensures Locking.Next(name, s, l).procs.Keys == s.procs.Keys
    ensures forall q :: q in s.procs && (l.Other? || q != l.p) ==> Locking.Next(name, s, l).procs[q] == s.procs[q]
  {
  }

  /** A process becomes an owner only by a won commit, and then it has the lock. */
  lemma BecomesOwner(name: string, s: Locking.State, l: Locking.Label)
    requires Locking.Inv(name, s) && !l.Other? && l.p in s.procs && !Locking.Owner(s.procs[l.p])
    requires Locking.Owner(Locking.Next(name, s, l).procs[l.p])
    ensures !Locking.Locked(name, s)
    ensures
      var after := Locking.Next(name, s, l).procs[l.p];
      after.Holding? || after.Orphan?
  {
    assert Locking.PhaseInv(name, s.store, s.procs[l.p]);
    Locking.CommitWins(name, s.store, s.procs[l.p].cv);
  }

  /** Every request of Lock and Unlock, in every reachable state, is a step of the abstract
      lock or none. */
  lemma RequestIsOneStep(name: string, s: Locking.State, l: Locking.Label)
    requires Locking.Inv(name, s)
    ensures
      var v := VisibleIn(name, s, l);
      Enabled(OfLocking(s), v) && OfLocking(Locking.Next(name, s, l)) == After(OfLocking(s), v)
  {
    var t := Locking.Next(name, s, l);
    Locking.StepPreserves(name, s, l);
    OthersStay(name, s, l);
    if l.Other? || l.p !in s.procs {
      SameOwners(name, s, t);
    } else if !Locking.Owner(s.procs[l.p]) {
      if Locking.Owner(t.procs[l.p]) {
        BecomesOwner(name, s, l);
        NobodyOwns(name, s);
        OfLockingIs(name, t, l.p);
      } else {
        SameOwners(name, s, t);
      }
    } else {
      OfLockingIs(name, s, l.p);
      if Locking.Owner(t.procs[l.p]) {
        OfLockingIs(name, t, l.p);
        assert s.procs[l.p].Orphan? ==> t.procs[l.p].Orphan?;
      } else {
        assert s.procs[l.p].Releasing?;
        assert forall q :: q in t.procs ==> !Locking.Owner(t.procs[q]);
      }
    }
  }

  lemma SameOwners(name: string, s: Locking.State, t: Locking.State)
    requires Locking.Inv(name, s) && Locking.Inv(name, t) && t.procs.Keys == s.procs.Keys
    requires forall q :: q in s.procs ==>
      t.procs[q] == s.procs[q] || (!Locking.Owner(s.procs[q]) && !Locking.Owner(t.procs[q]))
    ensures OfLocking(t) == OfLocking(s)
  {
    if q :| q in s.procs && Locking.Owner(s.procs[q]) {
      OfLockingIs(name, s, q);
      OfLockingIs(name, t, q);
    }
  }

  // ---------------------------------------------------------------------------
  // The protocol's lock

  predicate Holds(pc: Protocol.Pc) {
    pc.PayLocked? || pc.PayRead? || pc.PayReady? || pc.ClaimLocked? || pc.ClaimRead? || pc.ClaimMoved? || pc.Releasing?
  }

  function OfProtocol(c: Protocol.Core): Abstract {
    match c.lock
    case None => Free
    case Some(p) => if p in c.procs && Holds(c.procs[p]) then Held(p) else Abandoned(p)
  }

  /** The process is where the code calls Lock: at the beginning of a payment or a claim,
      or when a token request has found its amount eligible. */
  predicate AboutToLock(c: Protocol.Core, p: nat) {
    p in c.procs && (c.procs[p] == Protocol.Idle || c.procs[p].TokenEligible?)
  }

  /** What a step of the protocol does with the lock. */
  function VisibleOf(c: Protocol.Core, l: Protocol.Label): Visible {
    match l
    case LockUnanswered(p) => if c.lock.None? && AboutToLock(c, p) then TookUnanswered(p) else Silent
    case Release(p, fault) =>
      if p in c.procs && c.procs[p].Releasing? then (if fault == LostRequest then FailedToGive(p) else Gave(p)) else Silent
    case AddFunds(_) => Silent
    case Extend(_) => Silent
    case Settle(_) => Silent
    case _ => if c.lock.None? && WantsLock(c, l) then Took(l.p) else Silent
  }

  predicate WantsLock(c: Protocol.Core, l: Protocol.Label) {
    match l
    case Acquire(p, payment, price) => Protocol.At(c, p, Protocol.Idle)
    case TokenAcquire(p) => p in c.procs && c.procs[p].TokenEligible?
    case ClaimAcquire(p) => Protocol.At(c, p, Protocol.Idle)
    case _ => false
  }

  /** Of the labels that take the lock, the ones that are in order. */
  predicate InOrder(cfg: Channel.Config, l: Protocol.Label) {
    l.Acquire? ==> Protocol.Addressed(cfg, l.payment) && l.price >= 0
  }

  /** All other steps leave the lock and the holding of it alone. */
  lemma OthersKeepHolding(cfg: Channel.Config, c: Protocol.Core, l: Protocol.Label, q: nat)
    requires !l.Release? && !l.LockUnanswered? && !l.Acquire? && !l.TokenAcquire? && !l.ClaimAcquire?
    ensures
      var d := Protocol.NextCore(cfg, c, l);
      && d.lock == c.lock && (q in d.procs <==> q in c.procs)
      && (q in c.procs ==> (Holds(d.procs[q]) <==> Holds(c.procs[q])))
  {
  }

  lemma TakingIsOneStep(cfg: Channel.Config, c: Protocol.Core, l: Protocol.Label)
    requires InOrder(cfg, l) && (l.LockUnanswered? || l.Acquire? || l.TokenAcquire? || l.ClaimAcquire?)
    ensures
      var v := VisibleOf(c, l);
      Enabled(OfProtocol(c), v) && OfProtocol(Protocol.NextCore(cfg, c, l)) == After(OfProtocol(c), v)
  {
  }

  lemma ReleasingIsOneStep(cfg: Channel.Config, c: Protocol.Core, p: nat, fault: Fault)
    requires p in c.procs && c.procs[p].Releasing? ==> c.lock == Some(p)
    ensures
      var l := Protocol.Release(p, fault);
      var v := VisibleOf(c, l);
      Enabled(OfProtocol(c), v) && OfProtocol(Protocol.NextCore(cfg, c, l)) == After(OfProtocol(c), v)
  {
  }

  /** Every step of the protocol is a step of the same abstract lock, or none. */
  lemma StepIsOneStep(cfg: Channel.Config, s: Protocol.State, l: Protocol.Label)
    requires Protocol.Inv(cfg, s) && InOrder(cfg, l)
    ensures
      var v := VisibleOf(s.core, l);
      Enabled(OfProtocol(s.core), v) && OfProtocol(Protocol.Next(cfg, s, l).core) == After(OfProtocol(s.core), v)
  {
    if l.Release? {
      assert l.p in s.core.procs ==> Protocol.PcInv(cfg, s, l.p, s.core.procs[l.p]);
      ReleasingIsOneStep(cfg, s.core, l.p, l.fault);
    } else if l.LockUnanswered? || l.Acquire? || l.TokenAcquire? || l.ClaimAcquire? {
      TakingIsOneStep(cfg, s.core, l);
    } else if s.core.lock.Some? {
      OthersKeepHolding(cfg, s.core, l, s.core.lock.value);
    } else {
      OthersKeepHolding(cfg, s.core, l, 0);
    }
  }

  /** The step with which the protocol answers a visible request of the daemon's lock; take
      says what the lock is wanted for. */
  function Answer(v: Visible, take: Protocol.Label): Protocol.Label {
    match v
    case TookUnanswered(p) => Protocol.LockUnanswered(p)
    case Gave(p) => Protocol.Release(p, Delivered)
    case FailedToGive(p) => Protocol.Release(p, LostRequest)
    case _ => take
  }

  /** The process is where the code calls Lock or Unlock. */
  predicate Calls(c: Protocol.Core, v: Visible, take: Protocol.Label) {
    match v
    case Silent => false
    case Took(p) => WantsLock(c, take) && take.p == p
    case TookUnanswered(p) => AboutToLock(c, p)
    case Gave(p) => p in c.procs && c.procs[p].Releasing?
    case FailedToGive(p) => p in c.procs && c.procs[p].Releasing?
  }

  /** The refinement: whatever visible step the requests of the daemon's lock make, a
      protocol in the same abstract state can make it in one step, and then the two are in
      the same abstract state again. */
  lemma ProtocolFollows(name: string, s: Locking.State, l: Locking.Label, cfg: Channel.Config, t: Protocol.State,
                        take: Protocol.Label)
    requires Locking.Inv(name, s) && Protocol.Inv(cfg, t) && OfLocking(s) == OfProtocol(t.core)
    requires InOrder(cfg, take) && Calls(t.core, VisibleIn(name, s, l), take)
    ensures
      var answer := Answer(VisibleIn(name, s, l), take);
      && VisibleOf(t.core, answer) == VisibleIn(name, s, l)
      && OfLocking(Locking.Next(name, s, l)) == OfProtocol(Protocol.Next(cfg, t, answer).core)
  {
    var v := VisibleIn(name, s, l);
    RequestIsOneStep(name, s, l);
    AnswerShows(t.core, v, take);
    StepIsOneStep(cfg, t, Answer(v, take));
  }

  lemma AnswerShows(c: Protocol.Core, v: Visible, take: Protocol.Label)
    requires Calls(c, v, take) && Enabled(OfProtocol(c), v)
    ensures VisibleOf(c, Answer(v, take)) == v
  {
  }

  /** A whole run of requests, as the abstract lock sees it. */
  function Seen(name: string, s: Locking.State, labels: seq<Locking.Label>): seq<Visible>
    decreases |labels|
  {
    if labels == [] then []
    else [VisibleIn(name, s, labels[0])] + Seen(name, Locking.Next(name, s, labels[0]), labels[1..])
  }

  predicate Allowed(a: Abstract, vs: seq<Visible>)
    decreases |vs|
  {
    vs == [] || (Enabled(a, vs[0]) && Allowed(After(a, vs[0]), vs[1..]))
  }

  function AfterAll(a: Abstract, vs: seq<Visible>): Abstract
    decreases |vs|
  {
    if vs == [] then a else AfterAll(After(a, vs[0]), vs[1..])
  }

  /** Every run of the requests is a run of the abstract lock. */
  lemma {:induction false} RunIsAbstract(name: string, s: Locking.State, labels: seq<Locking.Label>)
    requires Locking.Inv(name, s)
    ensures Allowed(OfLocking(s), Seen(name, s, labels))
    ensures OfLocking(Locking.Run(name, s, labels)) == AfterAll(OfLocking(s), Seen(name, s, labels))
    decreases |labels|
  {
    if labels != [] {
      RequestIsOneStep(name, s, labels[0]);
      Locking.StepPreserves(name, s, labels[0]);
      var t := Locking.Next(name, s, labels[0]);
      RunIsAbstract(name, t, labels[1..]);
      assert Seen(name, s, labels)[1..] == Seen(name, t, labels[1..]);
    }
  }
}
