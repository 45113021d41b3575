/** The shared stores and the chain, for all channels at once, as one daemon process uses
    them: it sends one request at a time, and before each of them any other processes
    and the chain may have moved. Every request of the process is a step of the
    payment-channel protocol. */
module SharedWorld {
  import opened Wrappers
  import opened Channel
  import opened Protocol
  import opened ProtocolTheorems
  import opened ClaimTheorems
  import EtcdClient

  datatype Event = Event(id: int, step: Label)

  /** The step is taken by process p; chain steps are taken by no process. */
  predicate By(l: Label, p: nat) {
    match l
    case AddFunds(_) => false
    case Extend(_) => false
    case Settle(_) => false
    case _ => l.p == p
  }

  predicate AllAlien(events: seq<Event>, p: nat) {
    forall i :: 0 <= i < |events| ==> !By(events[i].step, p)
  }

  function For(template: Config, id: int): Config {
    template.(id := id)
  }

  function Step(template: Config, m: map<int, State>, e: Event): map<int, State> {
    if e.id in m then m[e.id := Next(For(template, e.id), m[e.id], e.step)] else m
  }

  function Replay(template: Config, m: map<int, State>, events: seq<Event>): map<int, State> {
    if events == [] then m
    else Step(template, Replay(template, m, events[..|events| - 1]), events[|events| - 1])
  }

  /** The steps on one channel. */
  function On(events: seq<Event>, id: int): seq<Label> {
    if events == [] then []
    else
      var e := events[|events| - 1];
      On(events[..|events| - 1], id) + if e.id == id then [e.step] else []
  }

  lemma {:induction false} ReplayConcat(template: Config, m: map<int, State>, a: seq<Event>, b: seq<Event>)
    ensures Replay(template, m, a + b) == Replay(template, Replay(template, m, a), b)
  {
    if b == [] {
      assert a + b == a;
    } else {
      assert (a + b)[..|a + b| - 1] == a + b[..|b| - 1];
      ReplayConcat(template, m, a, b[..|b| - 1]);
    }
  }

  /** Channels do not influence each other: each sees a run of the protocol. */
  lemma {:induction false} ReplayIsRun(template: Config, m: map<int, State>, events: seq<Event>, id: int)
    requires id in m
    ensures id in Replay(template, m, events)
    ensures Replay(template, m, events)[id] == Run(For(template, id), m[id], On(events, id))
  {
    if events != [] {
      var before, e := events[..|events| - 1], events[|events| - 1];
      ReplayIsRun(template, m, before, id);
      if e.id == id {
        RunConcat(For(template, id), m[id], On(before, id), [e.step]);
        RunOne(For(template, id), Run(For(template, id), m[id], On(before, id)), e.step);
      } else {
        assert On(events, id) == On(before, id);
      }
    }
  }

  lemma {:induction false} ReplayKeys(template: Config, m: map<int, State>, events: seq<Event>)
    ensures Replay(template, m, events).Keys == m.Keys
  {
    if events != [] {
      ReplayKeys(template, m, events[..|events| - 1]);
    }
  }

  // ---------------------------------------------------------------------------
  // What a process has done

  datatype Tally = Tally(
    nameonly acquired: nat := 0, nameonly released: nat := 0, nameonly orphaned: nat := 0,
    nameonly committed: nat := 0, nameonly rolledBack: nat := 0,
    nameonly moved: nat := 0, nameonly stored: nat := 0, nameonly deleted: nat := 0)

  /** Between before and after, exactly this was done. */
  predicate Grew(before: Tally, after: Tally, d: Tally) {
    && after.acquired == before.acquired + d.acquired && after.released == before.released + d.released
    && after.orphaned == before.orphaned + d.orphaned
    && after.committed == before.committed + d.committed && after.rolledBack == before.rolledBack + d.rolledBack
    && after.moved == before.moved + d.moved && after.stored == before.stored + d.stored
    && after.deleted == before.deleted + d.deleted
  }

  function Bump(t: Tally, l: Label): Tally {
    match l
    case Acquire(_, _, _) => t.(acquired := t.acquired + 1)
    case ClaimAcquire(_) => t.(acquired := t.acquired + 1)
    case LockUnanswered(_) => t.(orphaned := t.orphaned + 1)
    case Release(_, _) => t.(released := t.released + 1)
    case CommitPayment(_, _) => t.(committed := t.committed + 1)
    case RollbackPayment(_) => t.(rolledBack := t.rolledBack + 1)
    case ClaimMove(_, _) => t.(moved := t.moved + 1)
    case ClaimStore(_, _) => t.(stored := t.stored + 1)
    case FinishDelete(_, _) => t.(deleted := t.deleted + 1)
    case _ => t
  }

  function Work(events: seq<Event>, p: nat): Tally {
    if events == [] then Tally()
    else
      var t, l := Work(events[..|events| - 1], p), events[|events| - 1].step;
      if By(l, p) then Bump(t, l) else t
  }

  lemma {:induction false} AlienWork(a: seq<Event>, b: seq<Event>, p: nat)
    requires AllAlien(b, p)
    ensures Work(a + b, p) == Work(a, p)
  {
    if b == [] {
      assert a + b == a;
    } else {
      assert (a + b)[..|a + b| - 1] == a + b[..|b| - 1];
      AlienWork(a, b[..|b| - 1], p);
    }
  }

  // ---------------------------------------------------------------------------
  // What others cannot do to a process

  /** What p can rely on while others move from s to t: its own place, the parties of
      the channel and the direction of the chain's nonce; and as long as it holds the
      lock, the lock and the record. */
  ghost predicate Protected(s: State, t: State, p: nat) {
    && (p in s.core.procs ==> p in t.core.procs && t.core.procs[p] == s.core.procs[p])
    && t.core.chain.signer == s.core.chain.signer && t.core.chain.sender == s.core.chain.sender
    && t.core.chain.recipient == s.core.chain.recipient
    && s.core.chain.nonce <= t.core.chain.nonce
    && (s.core.lock == Some(p) ==> t.core.lock == Some(p) && t.core.record == s.core.record)
  }

  lemma AlienStep(cfg: Config, s: State, l: Label, p: nat)
    requires Inv(cfg, s) && !By(l, p)
    ensures Protected(s, Next(cfg, s, l), p)
  {
    if !l.AddFunds? && !l.Extend? && !l.Settle? && l.p in s.core.procs {
      AlienProcess(cfg, s, l, p);
    }
  }

  /** Only the holder of the lock is in a position to release it or to write the record. */
  lemma AlienProcess(cfg: Config, s: State, l: Label, p: nat)
    requires ProcsInv(cfg, s) && !By(l, p) && !l.AddFunds? && !l.Extend? && !l.Settle? && l.p in s.core.procs
    ensures Protected(s, State(NextCore(cfg, s.core, l), s.hist), p)
  {
    var q := l.p;
    assert PcInv(cfg, s, q, s.core.procs[q]);
    assert s.core.lock == Some(p) ==> s.core.lock.value != q;
  }

  ghost predicate AllInv(template: Config, m: map<int, State>) {
    forall id :: id in m ==> Inv(For(template, id), m[id])
  }

  lemma {:induction false} AlienReplay(template: Config, m: map<int, State>, events: seq<Event>, p: nat)
    requires AllInv(template, m) && AllAlien(events, p)
    ensures
      var t := Replay(template, m, events);
      && AllInv(template, t) && t.Keys == m.Keys
      && (forall id :: id in m ==> Protected(m[id], t[id], p))
  {
    if events != [] {
      var before, e := events[..|events| - 1], events[|events| - 1];
      AlienReplay(template, m, before, p);
      var s := Replay(template, m, before);
      if e.id in s {
        StepKeeps(For(template, e.id), s[e.id], e.step);
        AlienStep(For(template, e.id), s[e.id], e.step, p);
      }
    }
  }

  predicate AlienLabels(labels: seq<Label>, p: nat) {
    forall i :: 0 <= i < |labels| ==> !By(labels[i], p)
  }

  lemma {:induction false} AlienRun(cfg: Config, s: State, labels: seq<Label>, p: nat)
    requires Inv(cfg, s) && AlienLabels(labels, p)
    ensures Inv(cfg, Run(cfg, s, labels)) && Protected(s, Run(cfg, s, labels), p)
    decreases |labels|
  {
    if labels != [] {
      StepKeeps(cfg, s, labels[0]);
      AlienStep(cfg, s, labels[0], p);
      AlienRun(cfg, Next(cfg, s, labels[0]), labels[1..], p);
    }
  }

  /** p holds the lock at pc, and others go on. */
  lemma LockedAmongOthers(cfg: Config, s: State, labels: seq<Label>, p: nat, pc: Pc)
    requires Inv(cfg, s) && AlienLabels(labels, p) && Protocol.At(s.core, p, pc) && s.core.lock == Some(p)
    ensures
      var t := Run(cfg, s, labels);
      Inv(cfg, t) && Protocol.At(t.core, p, pc) && t.core.lock == Some(p) && t.core.record == s.core.record
  {
    AlienRun(cfg, s, labels, p);
  }

  /** A payment whose process holds the lock, with anything that others and the chain do
      before each of its steps: it is judged on the record as it was when the lock was
      taken and on the chain as it is at the check; if it is good there, it becomes the
      record, and then the lock is free. */
  lemma PaymentAmongOthers(cfg: Config, s: State, p: nat, payment: Payment, purpose: Purpose, block: Option<int>,
                           a: seq<Label>, b: seq<Label>, c: seq<Label>, d: seq<Label>)
    requires Inv(cfg, s) && Protocol.At(s.core, p, PayLocked(payment, purpose))
    requires AlienLabels(a, p) && AlienLabels(b, p) && AlienLabels(c, p) && AlienLabels(d, p)
    ensures
      var read := Next(cfg, Run(cfg, s, a), LoadRecord(p, EtcdClient.Delivered));
      BecomesRecord(cfg, Run(cfg, read, b), p, payment, purpose, s.core.record, block, c, d)
  {
    assert PcInv(cfg, s, p, s.core.procs[p]);
    LockedAmongOthers(cfg, s, a, p, PayLocked(payment, purpose));
    LoadedAmongOthers(cfg, Run(cfg, s, a), p, payment, purpose, b);
    var read := Next(cfg, Run(cfg, s, a), LoadRecord(p, EtcdClient.Delivered));
    JudgedAmongOthers(cfg, Run(cfg, read, b), p, payment, purpose, s.core.record, block, c, d);
  }

  lemma LoadedAmongOthers(cfg: Config, s: State, p: nat, payment: Payment, purpose: Purpose, b: seq<Label>)
    requires Inv(cfg, s) && Protocol.At(s.core, p, PayLocked(payment, purpose)) && s.core.lock == Some(p)
    requires AlienLabels(b, p)
    ensures
      var t := Run(cfg, Next(cfg, s, LoadRecord(p, EtcdClient.Delivered)), b);
      Inv(cfg, t) && Protocol.At(t.core, p, PayRead(payment, purpose, s.core.record)) && t.core.lock == Some(p)
  {
    StepKeeps(cfg, s, LoadRecord(p, EtcdClient.Delivered));
    LoadIs(cfg, s, p, payment, purpose);
    LockedAmongOthers(cfg, Next(cfg, s, LoadRecord(p, EtcdClient.Delivered)), b, p, PayRead(payment, purpose, s.core.record));
  }

  /** From the check in s on: a payment that is good on the record that was read and the
      chain as it is becomes the record, whatever others do before its write (c) and before
      its unlock (d), and then the lock is free. */
  ghost predicate BecomesRecord(cfg: Config, s: State, p: nat, payment: Payment, purpose: Purpose,
                                stored: Option<ChannelData>, block: Option<int>, c: seq<Label>, d: seq<Label>) {
    var ready := Next(cfg, s, CheckPayment(p, NodeCurrent, block));
    var written := Next(cfg, Run(cfg, ready, c), CommitPayment(p, EtcdClient.Delivered));
    var done := Next(cfg, Run(cfg, written, d), Release(p, EtcdClient.Delivered));
    var view := View(cfg, stored, Found(s.core.chain));
    view.Channel? && Acceptable(cfg, payment, view.data, block) && IncomeExact(payment, purpose, view.data) ==>
      && done.core.record.Some? && IsPaid(view.data, done.core.record.value, payment.amount, payment.signature)
      && done.core.lock == None
      && Protocol.At(done.core, p, AfterRelease(payment, purpose))
  }

  lemma JudgedAmongOthers(cfg: Config, s: State, p: nat, payment: Payment, purpose: Purpose, stored: Option<ChannelData>,
                          block: Option<int>, c: seq<Label>, d: seq<Label>)
    requires Inv(cfg, s) && Protocol.At(s.core, p, PayRead(payment, purpose, stored)) && s.core.lock == Some(p)
    requires AlienLabels(c, p) && AlienLabels(d, p)
    ensures BecomesRecord(cfg, s, p, payment, purpose, stored, block, c, d)
  {
    var view := View(cfg, stored, Found(s.core.chain));
    if view.Channel? && Acceptable(cfg, payment, view.data, block) && IncomeExact(payment, purpose, view.data) {
      var ready := Next(cfg, s, CheckPayment(p, NodeCurrent, block));
      StepKeeps(cfg, s, CheckPayment(p, NodeCurrent, block));
      CheckIs(cfg, s, p, payment, purpose, stored, block);
      WrittenAmongOthers(cfg, ready, p, payment, purpose, view.data, c, d);
    }
  }

  lemma LoadIs(cfg: Config, s: State, p: nat, payment: Payment, purpose: Purpose)
    requires Protocol.At(s.core, p, PayLocked(payment, purpose))
    ensures
      var t := Next(cfg, s, LoadRecord(p, EtcdClient.Delivered));
      Protocol.At(t.core, p, PayRead(payment, purpose, s.core.record)) && t.core.lock == s.core.lock
  {
  }

  lemma CheckIs(cfg: Config, s: State, p: nat, payment: Payment, purpose: Purpose, stored: Option<ChannelData>, block: Option<int>)
    requires Protocol.At(s.core, p, PayRead(payment, purpose, stored))
    requires
      var view := View(cfg, stored, Found(s.core.chain));
      view.Channel? && Acceptable(cfg, payment, view.data, block) && IncomeExact(payment, purpose, view.data)
    ensures
      var t := Next(cfg, s, CheckPayment(p, NodeCurrent, block));
      && Protocol.At(t.core, p, PayReady(payment, purpose, View(cfg, stored, Found(s.core.chain)).data))
      && t.core.lock == s.core.lock
  {
    ValidateExactly(cfg, payment, View(cfg, stored, Found(s.core.chain)).data, block);
  }

  lemma WrittenAmongOthers(cfg: Config, s: State, p: nat, payment: Payment, purpose: Purpose, channel: ChannelData,
                           c: seq<Label>, d: seq<Label>)
    requires Inv(cfg, s) && Protocol.At(s.core, p, PayReady(payment, purpose, channel)) && s.core.lock == Some(p)
    requires AlienLabels(c, p) && AlienLabels(d, p)
    ensures
      var written := Next(cfg, Run(cfg, s, c), CommitPayment(p, EtcdClient.Delivered));
      var done := Next(cfg, Run(cfg, written, d), Release(p, EtcdClient.Delivered));
      && done.core.record.Some? && IsPaid(channel, done.core.record.value, payment.amount, payment.signature)
      && done.core.lock == None
      && Protocol.At(done.core, p, AfterRelease(payment, purpose))
  {
    RecordUpdates(payment, channel);
    LockedAmongOthers(cfg, s, c, p, PayReady(payment, purpose, channel));
    var s1 := Run(cfg, s, c);
    var written := Next(cfg, s1, CommitPayment(p, EtcdClient.Delivered));
    StepKeeps(cfg, s1, CommitPayment(p, EtcdClient.Delivered));
    CommitIs(cfg, s1, p, payment, purpose, channel);
    LockedAmongOthers(cfg, written, d, p, Releasing(PlanAfter(payment, purpose)));
    ReleaseIs(cfg, Run(cfg, written, d), p, PlanAfter(payment, purpose));
  }

  function PlanAfter(payment: Payment, purpose: Purpose): Option<int> {
    if purpose.Token? then Some(payment.amount - purpose.before) else None
  }

  lemma CommitIs(cfg: Config, s: State, p: nat, payment: Payment, purpose: Purpose, channel: ChannelData)
    requires Protocol.At(s.core, p, PayReady(payment, purpose, channel))
    ensures
      var t := Next(cfg, s, CommitPayment(p, EtcdClient.Delivered));
      && Protocol.At(t.core, p, Releasing(PlanAfter(payment, purpose))) && t.core.lock == s.core.lock
      && t.core.record == Some(Committed(payment, channel))
  {
  }

  lemma ReleaseIs(cfg: Config, s: State, p: nat, plan: Option<int>)
    requires Protocol.At(s.core, p, Releasing(plan))
    ensures
      var t := Next(cfg, s, Release(p, EtcdClient.Delivered));
      && Protocol.At(t.core, p, if plan.Some? then Planning(plan.value) else Idle)
      && t.core.lock == None && t.core.record == s.core.record
  {
  }

  /** Over any events, of whatever process, each channel moves onward. */
  lemma ReplayOnward(template: Config, m: map<int, State>, events: seq<Event>, id: int)
    requires id in m && Reachable(For(template, id), m[id])
    ensures id in Replay(template, m, events) && Onward(m[id], Replay(template, m, events)[id])
  {
    ReplayIsRun(template, m, events, id);
    ReachableExclusive(For(template, id), m[id]);
    OnwardRun(For(template, id), m[id], On(events, id));
  }

  // ---------------------------------------------------------------------------
  // The requests of one process

  /** What happens around one request: the steps of others that come first, the fate of
      the request, and what an Ethereum node would answer. */
  datatype Slot = Slot(events: seq<Event>, fault: EtcdClient.Fault, contended: bool, node: Node, block: Option<int>)

  /** Nobody else moves, the request is answered, and so is a node's block number. */
  function Calm(block: Option<int>): Slot {
    Slot([], EtcdClient.Delivered, false, NodeCurrent, block)
  }

  /** What surrounds the next request. */
  function Upcoming(schedule: seq<Slot>, block: Option<int>): Slot {
    if schedule == [] then Calm(block) else schedule[0]
  }

  function Rest(schedule: seq<Slot>): seq<Slot> {
    if schedule == [] then [] else schedule[1..]
  }

  /** No step of anybody changes whom a channel pays. */
  ghost predicate SameRecipients(m: map<int, State>, t: map<int, State>) {
    m.Keys == t.Keys && forall j :: j in m ==> t[j].core.chain.recipient == m[j].core.chain.recipient
  }

  /** No channel but id has changed. */
  ghost predicate Only(m: map<int, State>, t: map<int, State>, id: int) {
    m.Keys == t.Keys && forall j :: j in m && j != id ==> t[j] == m[j]
  }

  /** Record and chain are what they were. */
  predicate SameStores(s: State, t: State) {
    t.core.record == s.core.record && t.core.chain == s.core.chain
  }

  /** The claim at nonce n is in the list, under its own name. */
  ghost predicate Listed(s: State, id: int, n: int, claims: seq<Payment>) {
    n in s.core.claims ==> s.core.claims[n] in claims && s.core.claims[n].channelID == id && s.core.claims[n].nonce == n
  }

  ghost predicate AllListed(m: map<int, State>, claims: seq<Payment>) {
    forall id, n :: id in m && n in m[id].core.claims ==> Listed(m[id], id, n, claims)
  }

  method Pick<T>(s: set<T>) returns (x: T)
    requires s != {}
    ensures x in s
  {
    x :| x in s;
  }

  lemma FinishSteps(cfg: Config, s: State, p: nat, nonce: int, fault: EtcdClient.Fault)
    requires p in s.core.procs && s.core.procs[p] == Idle && nonce < s.core.chain.nonce
    ensures Next(cfg, Next(cfg, s, FinishCheck(p, nonce)), FinishDelete(p, fault))
         == AfterDelete(s, nonce, fault)
  {
    var s1 := Next(cfg, s, FinishCheck(p, nonce));
    assert s1 == s.(core := Goto(s.core, p, Finishing(nonce)));
    assert Goto(s1.core, p, Idle).procs == s.core.procs;
  }

  function AfterDelete(s: State, nonce: int, fault: EtcdClient.Fault): State {
    if fault == EtcdClient.LostRequest then s else WithoutClaim(s, nonce)
  }

  lemma LastWriteCounts(m: map<int, State>, id: int, a: State, b: State)
    ensures m[id := a][id := b] == m[id := b]
  {
  }

  function WithoutClaim(s: State, nonce: int): State {
    s.(core := s.core.(claims := s.core.claims - {nonce}))
  }

  /** The claim is written, unless the request is lost. */
  function Sent(c: Core, p: nat, claim: Payment, fault: EtcdClient.Fault): Core {
    Goto(c, p, Releasing(None)).(claims := if fault == EtcdClient.LostRequest then c.claims else c.claims[claim.nonce := claim])
  }

  datatype LockReply = Locked | Busy | LockFailed

  predicate AlienSchedule(schedule: seq<Slot>, p: nat) {
    forall i :: 0 <= i < |schedule| ==> AllAlien(schedule[i].events, p)
  }

  /** Always true. Valid() keeps the history behind it, so that the verifier unfolds the
      history only in the proofs that name it, which they do by calling Recall. */
  ghost predicate HistoryIsNeeded(n: int) {
    true
  }

  /** channels has an entry for every id that anybody mentions, existing on the chain or
      not; past the end of the schedule nothing interferes, and block is the block number
      that is then answered. */
  class World {
    const template: Config
    const block: Option<int>
    var channels: map<int, State>
    var schedule: seq<Slot>
    ghost const origin: map<int, State>
    ghost var trace: seq<Event>
    ghost var tally: nat -> Tally

    constructor (template: Config, origin: map<int, State>, schedule: seq<Slot>, block: Option<int>)
      requires forall id :: id in origin ==> Init(origin[id])
      ensures Valid() && channels == origin && this.schedule == schedule && this.template == template
      ensures this.block == block
    {
      this.template, this.channels, this.schedule, this.block := template, origin, schedule, block;
      this.origin, this.trace := origin, [];
      tally := (q: nat) => Tally();
    }

    /** The stores are what the steps so far have made of untouched channels, and the
        tallies count those steps. */
    ghost predicate Valid()
      reads this
    {
      channels.Keys == origin.Keys && forall n :: HistoryIsNeeded(n) ==> Replayed()
    }

    ghost predicate Replayed()
      reads this
    {
      && (forall id :: id in origin ==> Init(origin[id]))
      && channels == Replay(template, origin, trace)
      && (forall q :: tally(q) == Work(trace, q))
    }

    lemma Recall()
      requires Valid()
      ensures Replayed()
    {
      assert HistoryIsNeeded(0);
    }

    ghost function Did(p: nat): Tally
      reads this
    {
      tally(p)
    }

    function Cfg(id: int): Config {
      For(template, id)
    }

    /** Process p is at pc on channel id and idle on all others. */
    ghost predicate At(p: nat, id: int, pc: Pc)
      reads this
    {
      && Valid() && AlienSchedule(schedule, p) && id in channels
      && (forall j :: j in channels ==>
            p in channels[j].core.procs && channels[j].core.procs[p] == if j == id then pc else Idle)
    }

    /** Whatever is in the stores can be reached by the protocol, so everything proved of
        reachable states holds of them. */
    lemma StoresAreReachable(id: int)
      requires Valid() && id in channels
      ensures Reachable(Cfg(id), channels[id]) && Inv(Cfg(id), channels[id])
    {
      Recall();
      ReplayIsRun(template, origin, trace, id);
      assert Reachable(Cfg(id), channels[id]);
      ReachableInv(Cfg(id), channels[id]);
    }

    /** Everything since an earlier moment has moved each channel onward. */
    lemma HasMovedOnward(events: seq<Event>, id: int)
      requires Valid() && events <= trace && id in channels
      ensures id in Replay(template, origin, events)
      ensures Onward(Replay(template, origin, events)[id], channels[id])
    {
      Recall();
      ReplayIsRun(template, origin, events, id);
      var m := Replay(template, origin, events);
      assert Reachable(Cfg(id), m[id]);
      assert trace == events + trace[|events|..];
      ReplayConcat(template, origin, events, trace[|events|..]);
      ReplayOnward(template, m, trace[|events|..], id);
    }

    method Arrive(p: nat) returns (slot: Slot)
      requires Valid() && AlienSchedule(schedule, p)
      modifies this
      ensures Valid() && AlienSchedule(schedule, p)
      ensures channels.Keys == old(channels.Keys) && Did(p) == old(Did(p))
      ensures forall j :: j in channels ==> Protected(old(channels)[j], channels[j], p)
      ensures old(schedule) == [] ==> schedule == [] && slot == Calm(block) && channels == old(channels)
      ensures slot == Upcoming(old(schedule), block) && schedule == Rest(old(schedule))
      ensures old(trace) <= trace
    {
      slot := Calm(block);
      if schedule != [] {
        slot := schedule[0];
        Recall();
        forall id | id in channels ensures Inv(Cfg(id), channels[id]) {
          StoresAreReachable(id);
        }
        AlienReplay(template, channels, slot.events, p);
        ReplayConcat(template, origin, trace, slot.events);
        AlienWork(trace, slot.events, p);
        channels := Replay(template, channels, slot.events);
        schedule := schedule[1..];
        trace := trace + slot.events;
        ghost var now := trace;
        tally := (q: nat) => Work(now, q);
      }
    }

    method Act(p: nat, id: int, l: Label)
      requires Valid() && AlienSchedule(schedule, p) && id in channels && By(l, p)
      modifies this
      ensures Valid() && AlienSchedule(schedule, p)
      ensures channels == old(channels)[id := Next(Cfg(id), old(channels)[id], l)]
      ensures Did(p) == Bump(old(Did(p)), l)
      ensures schedule == old(schedule) && old(trace) <= trace
    {
      Recall();
      assert (trace + [Event(id, l)])[..|trace + [Event(id, l)]| - 1] == trace;
      channels := channels[id := Next(Cfg(id), channels[id], l)];
      trace := trace + [Event(id, l)];
      ghost var now := trace;
      tally := (q: nat) => Work(now, q);
    }

    /** Others move, p stays where it is. */
    method Await(p: nat, id: int, ghost pc: Pc) returns (slot: Slot)
      requires At(p, id, pc)
      modifies this
      ensures At(p, id, pc) && Did(p) == old(Did(p))
      ensures Protected(old(channels)[id], channels[id], p)
      ensures old(schedule) == [] ==> schedule == [] && slot == Calm(block) && channels == old(channels)
      ensures old(trace) <= trace
    {
      slot := Arrive(p);
    }

    /** p takes a step on the channel. */
    method Move(p: nat, id: int, l: Label, ghost from: Pc, ghost to: Pc)
      requires At(p, id, from) && By(l, p)
      requires
        var t := Next(Cfg(id), channels[id], l);
        p in t.core.procs && t.core.procs[p] == to
      modifies this
      ensures At(p, id, to) && Did(p) == Bump(old(Did(p)), l)
      ensures channels[id] == Next(Cfg(id), old(channels)[id], l) && Only(old(channels), channels, id)
      ensures schedule == old(schedule) && old(trace) <= trace
    {
      Act(p, id, l);
    }

    /** Locker.Lock on the channel's key, by a process that is about to take step l. */
    method Lock(p: nat, id: int, l: Label) returns (r: LockReply, ghost left: bool)
      requires At(p, id, Idle)
      requires l == ClaimAcquire(p) || (l.Acquire? && l.p == p && Addressed(Cfg(id), l.payment) && l.price >= 0)
      modifies this
      ensures At(p, id, if r != Locked then Idle else if l.Acquire? then PayLocked(l.payment, Call(l.price)) else ClaimLocked)
      ensures Grew(old(Did(p)), Did(p), Tally(acquired := if r == Locked then 1 else 0, orphaned := if left then 1 else 0))
      ensures left ==> r == LockFailed
      ensures old(trace) <= trace
      ensures old(schedule) == [] ==>
        && schedule == [] && r == (if old(channels)[id].core.lock.None? then Locked else Busy)
        && SameStores(old(channels)[id], channels[id]) && Only(old(channels), channels, id)
    {
      var slot := Await(p, id, Idle);
      left := false;
      if slot.fault == EtcdClient.LostRequest {
        r := LockFailed;
      } else if slot.fault == EtcdClient.LostReply {
        if channels[id].core.lock.None? {
          Move(p, id, LockUnanswered(p), Idle, Idle);
          left := true;
        }
        r := LockFailed;
      } else if slot.contended || channels[id].core.lock.Some? {
        r := Busy;
      } else {
        TakeLock(p, id, l);
        r := Locked;
      }
    }

    method TakeLock(p: nat, id: int, l: Label)
      requires At(p, id, Idle) && channels[id].core.lock.None?
      requires l == ClaimAcquire(p) || (l.Acquire? && l.p == p && Addressed(Cfg(id), l.payment) && l.price >= 0)
      modifies this
      ensures At(p, id, if l.Acquire? then PayLocked(l.payment, Call(l.price)) else ClaimLocked)
      ensures SameStores(old(channels)[id], channels[id]) && Only(old(channels), channels, id)
      ensures Grew(old(Did(p)), Did(p), Tally(acquired := 1))
      ensures schedule == old(schedule) && old(trace) <= trace
    {
      Move(p, id, l, Idle, if l.Acquire? then PayLocked(l.payment, Call(l.price)) else ClaimLocked);
    }

    /** storage.Get of the channel's record, by the holder of the lock. */
    method GetRecord(p: nat, id: int, pc: Pc) returns (ok: bool, record: Option<ChannelData>)
      requires At(p, id, pc) && (pc.PayLocked? || pc.ClaimLocked?)
      modifies this
      ensures !ok ==> At(p, id, Releasing(None))
      ensures ok && pc.PayLocked? ==> At(p, id, PayRead(pc.payment, pc.purpose, record))
      ensures ok && pc.ClaimLocked? ==> At(p, id, if record.Some? then ClaimRead(record.value) else Releasing(None))
      ensures Did(p) == old(Did(p)) && old(trace) <= trace
      ensures old(schedule) == [] ==>
        && schedule == [] && ok && record == old(channels)[id].core.record
        && SameStores(old(channels)[id], channels[id]) && Only(old(channels), channels, id)
    {
      var slot := Await(p, id, pc);
      var l := if pc.PayLocked? then LoadRecord(p, slot.fault) else ClaimLoad(p, slot.fault);
      ok, record := slot.fault == EtcdClient.Delivered, channels[id].core.record;
      Move(p, id, l, pc, Next(Cfg(id), channels[id], l).core.procs[p]);
    }

    /** The chain's state and block number, for the check of a payment. */
    method ReadChain(p: nat, id: int, pc: Pc) returns (reply: ChainReply, block: Option<int>)
      requires At(p, id, pc) && pc.PayRead?
      modifies this
      ensures At(p, id, PaymentVerdict(Cfg(id), pc, reply, block))
      ensures reply.Found? ==> reply.chain == channels[id].core.chain
      ensures Did(p) == old(Did(p))
      ensures old(schedule) == [] ==>
        && schedule == [] && reply == Found(old(channels)[id].core.chain) && block == this.block
        && SameStores(old(channels)[id], channels[id]) && Only(old(channels), channels, id)
    {
      var slot := Await(p, id, pc);
      reply, block := Reply(channels[id].core, slot.node), slot.block;
      Move(p, id, CheckPayment(p, slot.node, slot.block), pc, PaymentVerdict(Cfg(id), pc, reply, block));
    }

    /** A process in the middle of a write holds the lock. */
    lemma WriterHoldsLock(p: nat, id: int, pc: Pc)
      requires At(p, id, pc) && (pc.PayReady? || pc.ClaimRead? || pc.ClaimMoved?)
      ensures channels[id].core.lock == Some(p)
    {
      StoresAreReachable(id);
      assert PcInv(Cfg(id), channels[id], p, channels[id].core.procs[p]);
    }

    /** storage.Put of the channel's record: the record of a payment, or the next record
        of a channel whose claim is started. */
    method PutRecord(p: nat, id: int, data: ChannelData, pc: Pc) returns (ok: bool)
      requires At(p, id, pc)
      requires (pc.PayReady? && pc.purpose.Call? && data == Committed(pc.payment, pc.channel))
            || (pc.ClaimRead? && data == IncrementNonce(pc.channel))
      modifies this
      ensures At(p, id, if pc.PayReady? || !ok then Releasing(None) else ClaimMoved(ClaimOf(pc.channel)))
      ensures ok ==> channels[id].core.record == Some(data) && channels[id].core.lock == Some(p)
      ensures Grew(old(Did(p)), Did(p), if pc.PayReady? then Tally(committed := 1) else Tally(moved := 1))
      ensures old(trace) <= trace
      ensures old(schedule) == [] ==> schedule == [] && ok && Only(old(channels), channels, id)
    {
      var slot := Await(p, id, pc);
      WriterHoldsLock(p, id, pc);
      ok := slot.fault == EtcdClient.Delivered;
      SendRecord(p, id, data, pc, slot.fault);
    }

    method SendRecord(p: nat, id: int, data: ChannelData, pc: Pc, fault: EtcdClient.Fault)
      requires At(p, id, pc)
      requires (pc.PayReady? && pc.purpose.Call? && data == Committed(pc.payment, pc.channel))
            || (pc.ClaimRead? && data == IncrementNonce(pc.channel))
      modifies this
      ensures At(p, id, if pc.PayReady? || fault != EtcdClient.Delivered then Releasing(None) else ClaimMoved(ClaimOf(pc.channel)))
      ensures channels[id].core.lock == old(channels)[id].core.lock && Only(old(channels), channels, id)
      ensures fault == EtcdClient.Delivered ==> channels[id].core.record == Some(data)
      ensures Grew(old(Did(p)), Did(p), if pc.PayReady? then Tally(committed := 1) else Tally(moved := 1))
      ensures schedule == old(schedule) && old(trace) <= trace
    {
      Move(p, id, if pc.PayReady? then CommitPayment(p, fault) else ClaimMove(p, fault), pc,
           if pc.PayReady? || fault != EtcdClient.Delivered then Releasing(None) else ClaimMoved(ClaimOf(pc.channel)));
    }

    /** A claim on its way carries a good signature for its amount. */
    lemma ClaimIsGood(p: nat, id: int, claim: Payment)
      requires At(p, id, ClaimMoved(claim))
      ensures claim.channelID == id
      ensures Collectable(Cfg(id), channels[id].core.chain.signer, channels[id].core.chain.sender, claim.nonce,
                          claim.amount, claim.signature)
    {
      StoresAreReachable(id);
      assert PcInv(Cfg(id), channels[id], p, channels[id].core.procs[p]);
    }

    /** paymentStorage.Put: what is stored can be collected. */
    method PutClaim(p: nat, id: int, claim: Payment) returns (ok: bool)
      requires At(p, id, ClaimMoved(claim))
      modifies this
      ensures At(p, id, Releasing(None))
      ensures ok ==> claim.nonce in channels[id].core.claims && channels[id].core.claims[claim.nonce] == claim
      ensures claim.channelID == id
      ensures Collectable(Cfg(id), channels[id].core.chain.signer, channels[id].core.chain.sender, claim.nonce,
                          claim.amount, claim.signature)
      ensures Grew(old(Did(p)), Did(p), Tally(stored := 1))
      ensures channels[id].core.record == old(channels)[id].core.record && channels[id].core.lock == Some(p)
      ensures old(trace) <= trace
      ensures old(schedule) == [] ==> schedule == [] && ok && Only(old(channels), channels, id)
    {
      WriterHoldsLock(p, id, ClaimMoved(claim));
      var slot := Await(p, id, ClaimMoved(claim));
      ClaimIsGood(p, id, claim);
      SendClaim(p, id, claim, slot.fault);
      ok := slot.fault == EtcdClient.Delivered;
    }

    method SendClaim(p: nat, id: int, claim: Payment, fault: EtcdClient.Fault)
      requires At(p, id, ClaimMoved(claim))
      modifies this
      ensures At(p, id, Releasing(None))
      ensures channels[id].core == Sent(old(channels)[id].core, p, claim, fault) && Only(old(channels), channels, id)
      ensures Grew(old(Did(p)), Did(p), Tally(stored := 1))
      ensures schedule == old(schedule) && old(trace) <= trace
    {
      Move(p, id, ClaimStore(p, fault), ClaimMoved(claim), Releasing(None));
    }

    /** Lock.Unlock */
    method Unlock(p: nat, id: int) returns (ok: bool)
      requires At(p, id, Releasing(None))
      modifies this
      ensures At(p, id, Idle)
      ensures ok ==> channels[id].core.lock.None?
      ensures channels[id].core.chain.signer == old(channels[id].core.chain.signer)
           && channels[id].core.chain.sender == old(channels[id].core.chain.sender)
      ensures old(channels[id].core.lock) == Some(p) ==> channels[id].core.record == old(channels[id].core.record)
      ensures Grew(old(Did(p)), Did(p), Tally(released := 1))
      ensures old(trace) <= trace
      ensures old(schedule) == [] ==>
        schedule == [] && ok && SameStores(old(channels)[id], channels[id]) && Only(old(channels), channels, id)
    {
      var slot := Await(p, id, Releasing(None));
      SendRelease(p, id, slot.fault);
      ok := slot.fault == EtcdClient.Delivered;
    }

    method SendRelease(p: nat, id: int, fault: EtcdClient.Fault)
      requires At(p, id, Releasing(None))
      modifies this
      ensures At(p, id, Idle)
      ensures channels[id].core.lock == if fault == EtcdClient.LostRequest then old(channels)[id].core.lock else None
      ensures SameStores(old(channels)[id], channels[id]) && Only(old(channels), channels, id)
      ensures Grew(old(Did(p)), Did(p), Tally(released := 1))
      ensures schedule == old(schedule) && old(trace) <= trace
    {
      Move(p, id, Release(p, fault), Releasing(None), Idle);
    }

    /** Unlocking without having written anything. */
    method RollbackAndUnlock(p: nat, id: int, ghost pc: Pc) returns (ok: bool)
      requires At(p, id, pc) && pc.PayReady? && pc.purpose.Call?
      modifies this
      ensures At(p, id, Idle)
      ensures ok ==> channels[id].core.lock.None?
      ensures channels[id].core.record == old(channels[id].core.record)
      ensures Grew(old(Did(p)), Did(p), Tally(rolledBack := 1, released := 1))
      ensures old(schedule) == [] ==> schedule == [] && ok && Only(old(channels), channels, id)
    {
      WriterHoldsLock(p, id, pc);
      Move(p, id, RollbackPayment(p), pc, Releasing(None));
      ok := Unlock(p, id);
    }

    // Requests made without the lock

    /** Process p is idle on all channels. */
    ghost predicate Resting(p: nat)
      reads this
    {
      && Valid() && AlienSchedule(schedule, p)
      && (forall j :: j in channels ==> p in channels[j].core.procs && channels[j].core.procs[p] == Idle)
    }

    method PeekRecord(p: nat, id: int) returns (ok: bool, record: Option<ChannelData>)
      requires Resting(p) && id in channels
      modifies this
      ensures Resting(p) && channels.Keys == old(channels.Keys) && Did(p) == old(Did(p))
      ensures ok ==> record == channels[id].core.record
      ensures old(trace) <= trace
      ensures old(schedule) == [] ==> schedule == [] && channels == old(channels) && ok
    {
      var slot := Arrive(p);
      ok, record := slot.fault == EtcdClient.Delivered, channels[id].core.record;
    }

    method PeekChain(p: nat, id: int) returns (reply: ChainReply)
      requires Resting(p) && id in channels
      modifies this
      ensures Resting(p) && channels.Keys == old(channels.Keys) && Did(p) == old(Did(p))
      ensures reply == Reply(channels[id].core, Upcoming(old(schedule), block).node) && schedule == Rest(old(schedule))
      ensures SameRecipients(old(channels), channels)
      ensures old(trace) <= trace
      ensures old(schedule) == [] ==> schedule == [] && channels == old(channels) && reply.Found?
    {
      var slot := Arrive(p);
      reply := Reply(channels[id].core, slot.node);
    }

    /** Claims are stored under their own channel and nonce. */
    lemma ClaimsKnowTheirKey(id: int, n: int)
      requires Valid() && id in channels && n in channels[id].core.claims
      ensures channels[id].core.claims[n].channelID == id && channels[id].core.claims[n].nonce == n
    {
      StoresAreReachable(id);
      assert ClaimInv(Cfg(id), channels[id], n, channels[id].core.claims[n]);
    }

    /** paymentStorage.GetAll: every pending claim of every channel, in no fixed order. */
    method ListClaims(p: nat) returns (ok: bool, claims: seq<Payment>)
      requires Resting(p)
      modifies this
      ensures Resting(p) && channels.Keys == old(channels.Keys) && Did(p) == old(Did(p))
      ensures forall c :: c in claims ==> c.channelID in channels
      ensures ok ==> forall c :: c in claims <==> Pending(c)
      ensures ok ==> AllListed(channels, claims)
      ensures ok <==> Upcoming(old(schedule), block).fault == EtcdClient.Delivered
      ensures schedule == Rest(old(schedule)) && SameRecipients(old(channels), channels)
      ensures old(trace) <= trace
      ensures old(schedule) == [] ==> schedule == [] && channels == old(channels) && ok
    {
      var slot := Arrive(p);
      if slot.fault != EtcdClient.Delivered {
        return false, [];
      }
      claims := AllPending();
      forall id, n | id in channels && n in channels[id].core.claims ensures Listed(channels[id], id, n, claims) {
        ClaimsKnowTheirKey(id, n);
      }
      ok := true;
    }

    method AllPending() returns (claims: seq<Payment>)
      requires Valid()
      ensures forall c :: c in claims <==> Pending(c)
    {
      var ids := channels.Keys;
      claims := [];
      while ids != {}
        invariant ids <= channels.Keys
        invariant forall c :: c in claims <==> Pending(c) && c.channelID !in ids
        decreases ids
      {
        var id := Pick(ids);
        var found := ClaimsOf(id);
        claims, ids := claims + found, ids - {id};
      }
    }

    predicate Pending(c: Payment)
      reads this
    {
      c.channelID in channels && c.nonce in channels[c.channelID].core.claims
      && channels[c.channelID].core.claims[c.nonce] == c
    }

    method ClaimsOf(id: int) returns (found: seq<Payment>)
      requires Valid() && id in channels
      ensures forall c :: c in found <==> Pending(c) && c.channelID == id
    {
      var claims := channels[id].core.claims;
      var nonces := claims.Keys;
      found := [];
      while nonces != {}
        invariant nonces <= claims.Keys
        invariant forall c :: c in found <==> Pending(c) && c.channelID == id && c.nonce !in nonces
        decreases nonces
      {
        var n := Pick(nonces);
        ClaimsKnowTheirKey(id, n);
        found, nonces := found + [claims[n]], nonces - {n};
      }
    }

    method CheckAndDelete(p: nat, id: int, nonce: int, fault: EtcdClient.Fault)
      requires Resting(p) && id in channels && nonce < channels[id].core.chain.nonce
      modifies this
      ensures Valid() && AlienSchedule(schedule, p) && schedule == old(schedule)
      ensures Grew(old(Did(p)), Did(p), Tally(deleted := 1))
      ensures channels == old(channels)[id := AfterDelete(old(channels)[id], nonce, fault)]
      ensures old(trace) <= trace
    {
      FinishSteps(Cfg(id), channels[id], p, nonce, fault);
      LastWriteCounts(channels, id, Next(Cfg(id), channels[id], FinishCheck(p, nonce)),
                      AfterDelete(channels[id], nonce, fault));
      Act(p, id, FinishCheck(p, nonce));
      Act(p, id, FinishDelete(p, fault));
    }

    /** claimImpl.Finish of a claim that the chain was seen to have settled. */
    method Finish(p: nat, id: int, nonce: int) returns (ok: bool)
      requires Resting(p) && id in channels && nonce < channels[id].core.chain.nonce
      modifies this
      ensures Resting(p) && channels.Keys == old(channels.Keys)
      ensures Grew(old(Did(p)), Did(p), Tally(deleted := 1))
      ensures ok ==> nonce !in channels[id].core.claims
      ensures ok <==> Upcoming(old(schedule), block).fault == EtcdClient.Delivered
      ensures schedule == Rest(old(schedule)) && SameRecipients(old(channels), channels)
      ensures old(trace) <= trace
      ensures old(schedule) == [] ==>
        && schedule == [] && ok
        && channels == old(channels)[id := WithoutClaim(old(channels)[id], nonce)]
    {
      var slot := Arrive(p);
      CheckAndDelete(p, id, nonce, slot.fault);
      ok := slot.fault == EtcdClient.Delivered;
    }
  }
}
