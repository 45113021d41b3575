/** The payment-channel service, the payment handler above it and the interceptors above
    that, as code that runs in a world where everybody else keeps moving. Whatever the
    interleaving and whatever requests are lost, each of these methods is a sequence of
    protocol steps of its process and leaves the process idle with its lock given back. */
module EscrowService {
  import opened Wrappers
  import opened Channel
  import opened Protocol
  import opened SharedWorld
  import ProtocolTheorems
  import ClaimTheorems
  import Encoding
  import EtcdClient

  datatype StartResult = NotStarted(code: PaymentErrorCode) | Started(channel: ChannelData)

  /** Where a process is after the check of its payment. */
  function Checked(payment: Payment, price: int, channel: ChannelData): Pc {
    if payment.amount - channel.authorizedAmount == price then PayReady(payment, Call(price), channel) else Releasing(None)
  }

  /** How a process got on: no lock; a lock left behind by a lost reply; a lock given
      back before any write; a payment committed or rolled back; a claim that got as far
      as the record's write, or as its own. */
  datatype Progress =
    | Unlocked | Orphaned | NothingWritten
    | PaymentCommitted | PaymentRolledBack
    | RecordWritten | ClaimWritten

  /** The work this takes. In each case but the second, what was locked is unlocked,
      once. */
  function Effort(done: Progress): Tally {
    match done
    case Unlocked => Tally()
    case Orphaned => Tally(orphaned := 1)
    case NothingWritten => Tally(acquired := 1, released := 1)
    case PaymentCommitted => Tally(acquired := 1, committed := 1, released := 1)
    case PaymentRolledBack => Tally(acquired := 1, rolledBack := 1, released := 1)
    case RecordWritten => Tally(acquired := 1, moved := 1, released := 1)
    case ClaimWritten => Tally(acquired := 1, moved := 1, stored := 1, released := 1)
  }

  predicate GaveUp(done: Progress) {
    done.Unlocked? || done.Orphaned? || done.NothingWritten?
  }

  /** The protocol's verdict on a payment is that of the service and its validator,
      together with the handler's income check. */
  lemma VerdictIs(cfg: Config, payment: Payment, price: int, stored: Option<ChannelData>, reply: ChainReply, block: Option<int>)
    ensures
      var view := View(cfg, stored, reply);
      var verdict := PaymentVerdict(cfg, PayRead(payment, Call(price), stored), reply, block);
      verdict == if view.Channel? && Acceptable(cfg, payment, view.data, block)
                 then Checked(payment, price, view.data) else Releasing(None)
  {
    var view := View(cfg, stored, reply);
    if view.Channel? {
      ValidateExactly(cfg, payment, view.data, block);
    }
  }

  // ---------------------------------------------------------------------------
  // What a payment is judged on when nothing interferes, in terms of the stores

  /** There is a record, or the chain has the channel for this daemon and its group. */
  predicate IsKnown(cfg: Config, s: State) {
    s.core.record.Some? || (s.core.chain.recipient == cfg.recipient && s.core.chain.groupID == cfg.groupID)
  }

  /** The chain's amount and date count as long as no claim is outstanding. */
  predicate ChainCounts(cfg: Config, s: State) {
    s.core.record.None? || (s.core.record.value.nonce == s.core.chain.nonce && s.core.chain.recipient == cfg.recipient)
  }

  function FullNow(cfg: Config, s: State): int {
    if ChainCounts(cfg, s) then s.core.chain.value else s.core.record.value.fullAmount
  }

  function ExpirationNow(cfg: Config, s: State): int {
    if ChainCounts(cfg, s) then s.core.chain.expiration else s.core.record.value.expiration
  }

  function AuthorizedNow(s: State): int {
    if s.core.record.Some? then s.core.record.value.authorizedAmount else 0
  }

  /** The channel a payment is judged on. */
  predicate IsMerged(cfg: Config, s: State, channel: ChannelData) {
    && channel.channelID == cfg.id && channel.nonce == StoredNonce(s.core)
    && channel.signer == s.core.chain.signer && channel.sender == s.core.chain.sender
    && channel.fullAmount == FullNow(cfg, s) && channel.expiration == ExpirationNow(cfg, s)
    && channel.authorizedAmount == AuthorizedNow(s)
    && channel.signature == if s.core.record.Some? then s.core.record.value.signature else None
  }

  lemma MergedIs(cfg: Config, s: State)
    requires Inv(cfg, s)
    ensures
      var view := View(cfg, s.core.record, Found(s.core.chain));
      && !view.Missing? && (view.Channel? <==> IsKnown(cfg, s)) && (view.Channel? ==> IsMerged(cfg, s, view.data))
  {
  }

  predicate IsSigned(cfg: Config, s: State, payment: Payment) {
    SignedFor(cfg, payment, s.core.chain.signer, s.core.chain.sender)
  }

  /** The channel has not expired and holds the amount. */
  predicate HasRoom(cfg: Config, s: State, payment: Payment, block: Option<int>) {
    Unexpired(cfg, ExpirationNow(cfg, s), block) && payment.amount <= FullNow(cfg, s)
  }

  /** All that a payment needs, apart from the lock. */
  predicate IsGood(cfg: Config, s: State, payment: Payment, block: Option<int>) {
    && IsKnown(cfg, s) && payment.nonce == StoredNonce(s.core) && IsSigned(cfg, s, payment)
    && HasRoom(cfg, s, payment, block)
  }

  /** A payment that can be started now. */
  predicate Startable(cfg: Config, s: State, payment: Payment, block: Option<int>) {
    s.core.lock.None? && IsGood(cfg, s, payment, block)
  }

  /** A call that can be paid for now: its payment can be started and pays exactly the
      price on top of what is authorized. */
  predicate Payable(cfg: Config, s: State, payment: Payment, price: int, block: Option<int>) {
    Startable(cfg, s, payment, block) && payment.amount - AuthorizedNow(s) == price
  }

  /** The judgement under the lock: started exactly if good, on the merged channel; and
      which error each failing clause gives. */
  predicate Judged(cfg: Config, s: State, payment: Payment, block: Option<int>, r: StartResult) {
    && (r.Started? <==> IsGood(cfg, s, payment, block))
    && (r.Started? ==> IsMerged(cfg, s, r.channel))
    && (r == NotStarted(IncorrectNonce) <==> IsKnown(cfg, s) && payment.nonce != StoredNonce(s.core))
    && (r == NotStarted(Internal) <==>
          !IsKnown(cfg, s) || (payment.nonce == StoredNonce(s.core) && IsSigned(cfg, s, payment) && block.None?))
    && (r == NotStarted(Unauthenticated) <==>
          && IsKnown(cfg, s) && payment.nonce == StoredNonce(s.core)
          && (!IsSigned(cfg, s, payment) || (block.Some? && !HasRoom(cfg, s, payment, block))))
  }

  /** The verdict depends on record and chain only. */
  lemma JudgedAlike(cfg: Config, s: State, t: State, payment: Payment, block: Option<int>, r: StartResult)
    requires SameStores(s, t) && Judged(cfg, t, payment, block, r)
    ensures Judged(cfg, s, payment, block, r)
  {
  }

  /** What the service makes of the merged channel. */
  function Verdict(cfg: Config, view: ChannelRead, payment: Payment, block: Option<int>): StartResult {
    match view
    case ReadError => NotStarted(Internal)
    case Missing => NotStarted(Unauthenticated)
    case Channel(data) =>
      var v := Validate(cfg, payment, data, block);
      if v.Rejected? then NotStarted(v.code) else Started(data)
  }

  lemma VerdictIsJudged(cfg: Config, s: State, payment: Payment, block: Option<int>)
    requires Inv(cfg, s)
    ensures Judged(cfg, s, payment, block, Verdict(cfg, View(cfg, s.core.record, Found(s.core.chain)), payment, block))
  {
    MergedIs(cfg, s);
    var view := View(cfg, s.core.record, Found(s.core.chain));
    if view.Channel? {
      ValidateExactly(cfg, payment, view.data, block);
    }
  }

  /** A payment on channel id left records and chain as they were, here and elsewhere. */
  ghost predicate LeftAlone(m: map<int, State>, t: map<int, State>, id: int) {
    id in m && Only(m, t, id) && SameStores(m[id], t[id])
  }

  lemma LeftAloneTwice(m: map<int, State>, n: map<int, State>, t: map<int, State>, id: int)
    requires LeftAlone(m, n, id) && LeftAlone(n, t, id)
    ensures LeftAlone(m, t, id)
  {
  }

  /** The part of StartPaymentTransaction under the lock. The price only marks what the
      process is for: nothing here depends on it. */
  method JudgePayment(w: World, p: nat, payment: Payment, price: int) returns (r: StartResult, ghost block: Option<int>)
    requires w.At(p, payment.channelID, PayLocked(payment, Call(price)))
    modifies w
    ensures r.Started? ==>
      && w.At(p, payment.channelID, Checked(payment, price, r.channel))
      && Acceptable(w.Cfg(payment.channelID), payment, r.channel, block)
    ensures r.NotStarted? ==> w.At(p, payment.channelID, Releasing(None)) && r.code != FailedPrecondition
    ensures w.Did(p) == old(w.Did(p))
    ensures old(w.schedule) == [] ==>
      && w.schedule == [] && LeftAlone(old(w.channels), w.channels, payment.channelID)
      && Judged(w.Cfg(payment.channelID), old(w.channels)[payment.channelID], payment, w.block, r)
  {
    var id := payment.channelID;
    var ok, stored := w.GetRecord(p, id, PayLocked(payment, Call(price)));
    if !ok {
      return NotStarted(Internal), None;
    }
    ghost var loaded := w.channels;
    r, block := JudgeOn(w, p, payment, price, stored);
    if old(w.schedule) == [] {
      JudgedAlike(w.Cfg(id), old(w.channels)[id], loaded[id], payment, w.block, r);
      LeftAloneTwice(old(w.channels), loaded, w.channels, id);
    }
  }

  method JudgeOn(w: World, p: nat, payment: Payment, price: int, stored: Option<ChannelData>)
    returns (r: StartResult, ghost block: Option<int>)
    requires w.At(p, payment.channelID, PayRead(payment, Call(price), stored))
    modifies w
    ensures r.Started? ==>
      && w.At(p, payment.channelID, Checked(payment, price, r.channel))
      && Acceptable(w.Cfg(payment.channelID), payment, r.channel, block)
    ensures r.NotStarted? ==> w.At(p, payment.channelID, Releasing(None)) && r.code != FailedPrecondition
    ensures w.Did(p) == old(w.Did(p))
    ensures old(w.schedule) == [] && stored == old(w.channels)[payment.channelID].core.record ==>
      && w.schedule == [] && LeftAlone(old(w.channels), w.channels, payment.channelID)
      && Judged(w.Cfg(payment.channelID), old(w.channels)[payment.channelID], payment, w.block, r)
  {
    var id := payment.channelID;
    w.StoresAreReachable(id);
    VerdictIsJudged(w.Cfg(id), w.channels[id], payment, w.block);
    var reply, read := w.ReadChain(p, id, PayRead(payment, Call(price), stored));
    block := read;
    VerdictIs(w.Cfg(id), payment, price, stored, reply, read);
    r := Examine(w.Cfg(id), View(w.Cfg(id), stored, reply), payment, read);
  }

  /** The checks on the merged channel, in the order of the service and its validator. */
  method Examine(cfg: Config, view: ChannelRead, payment: Payment, block: Option<int>) returns (r: StartResult)
    ensures r == Verdict(cfg, view, payment, block)
    ensures r.Started? <==> view.Channel? && Acceptable(cfg, payment, view.data, block)
    ensures r.Started? ==> r.channel == view.data
    ensures r.NotStarted? ==> r.code != FailedPrecondition
  {
    if !view.Channel? {
      return NotStarted(if view.Missing? then Unauthenticated else Internal);
    }
    ValidateExactly(cfg, payment, view.data, block);
    var validation := Validate(cfg, payment, view.data, block);
    if validation.Rejected? {
      return NotStarted(validation.code);
    }
    r := Started(view.data);
  }

  method StartPaymentTransaction(w: World, p: nat, payment: Payment, price: int)
    returns (r: StartResult, ghost done: Progress, ghost block: Option<int>)
    requires w.At(p, payment.channelID, Idle) && Addressed(w.Cfg(payment.channelID), payment) && price >= 0
    modifies w
    // Started means acceptable on the channel returned, at the block number that was read.
    ensures r.Started? ==>
      && w.At(p, payment.channelID, Checked(payment, price, r.channel))
      && Grew(old(w.Did(p)), w.Did(p), Tally(acquired := 1))
      && Acceptable(w.Cfg(payment.channelID), payment, r.channel, block)
    ensures r.NotStarted? ==>
      w.At(p, payment.channelID, Idle) && GaveUp(done) && Grew(old(w.Did(p)), w.Did(p), Effort(done))
    // The error tells what happened to the lock, unless it is the internal one.
    ensures r.NotStarted? && r.code == FailedPrecondition ==> done.Unlocked?
    ensures r.NotStarted? && (r.code == Unauthenticated || r.code == IncorrectNonce) ==> done.NothingWritten?
    // Left alone, it succeeds exactly when the payment is startable, and the error says why
    // it is not.
    ensures old(w.schedule) == [] ==>
      var cfg, s := w.Cfg(payment.channelID), old(w.channels)[payment.channelID];
      && w.schedule == [] && LeftAlone(old(w.channels), w.channels, payment.channelID)
      && (r.Started? <==> Startable(cfg, s, payment, w.block))
      && (r == NotStarted(FailedPrecondition) <==> s.core.lock.Some?)
      && (s.core.lock.None? ==> Judged(cfg, s, payment, w.block, r))
  {
    var lock;
    ghost var left;
    lock, left := w.Lock(p, payment.channelID, Acquire(p, payment, price));
    done, block := NothingWritten, None;
    if lock != Locked {
      return NotStarted(if lock == Busy then FailedPrecondition else Internal), if left then Orphaned else Unlocked, None;
    }
    ghost var locked := w.channels;
    r, block := JudgePayment(w, p, payment, price);
    if old(w.schedule) == [] {
      var id := payment.channelID;
      JudgedAlike(w.Cfg(id), old(w.channels)[id], locked[id], payment, w.block, r);
      LeftAloneTwice(old(w.channels), locked, w.channels, id);
    }
    if r.NotStarted? {
      var _ := w.Unlock(p, payment.channelID);
    }
  }

  datatype Transaction = Transaction(payment: Payment, channel: ChannelData)

  datatype PaymentResult = NotPaid(code: PaymentErrorCode) | Paid(transaction: Transaction)

  /** The call pays exactly its price on top of what is authorized, within the channel. */
  predicate Pays(t: Transaction, id: int, nonce: int, amount: int, signature: Bytes, price: int) {
    && t.payment.channelID == id && t.payment.nonce == nonce == t.channel.nonce && t.payment.amount == amount
    && t.payment.signature == Some(signature)
    && t.channel.authorizedAmount + price == amount <= t.channel.fullAmount
  }

  /** getPaymentFromContext */
  function Headers(w: World, id: int, nonce: int, amount: int, signature: Bytes): Payment {
    Payment(w.template.mpe, id, nonce, amount, Some(signature))
  }

  /** paymentChannelPaymentHandler.Payment, given the call's headers and its price. */
  method HandlePayment(w: World, p: nat, id: int, nonce: int, amount: int, signature: Bytes, price: int)
    returns (r: PaymentResult, ghost done: Progress, ghost block: Option<int>)
    requires w.At(p, id, Idle) && price >= 0
    modifies w
    ensures r.Paid? ==>
      && Pays(r.transaction, id, nonce, amount, signature, price)
      && Acceptable(w.Cfg(id), r.transaction.payment, r.transaction.channel, block)
      && w.At(p, id, PayReady(r.transaction.payment, Call(price), r.transaction.channel))
      && Grew(old(w.Did(p)), w.Did(p), Tally(acquired := 1))
    ensures r.NotPaid? ==> w.At(p, id, Idle) && GaveUp(done) && Grew(old(w.Did(p)), w.Did(p), Effort(done))
    // Left alone, it accepts exactly the payments of payable calls.
    ensures old(w.schedule) == [] ==>
      && w.schedule == [] && LeftAlone(old(w.channels), w.channels, id)
      && var cfg, s, payment := w.Cfg(id), old(w.channels)[id], Headers(w, id, nonce, amount, signature);
         && (r.Paid? <==> Payable(cfg, s, payment, price, w.block))
         && (Startable(cfg, s, payment, w.block) ==> r.Paid? || r == NotPaid(Unauthenticated))
         && (r == NotPaid(FailedPrecondition) <==> s.core.lock.Some?)
         && (!Startable(cfg, s, payment, w.block) && s.core.lock.None? ==>
               r.NotPaid? && Judged(cfg, s, payment, w.block, NotStarted(r.code)))
  {
    var payment := Headers(w, id, nonce, amount, signature);
    var start;
    start, done, block := StartPaymentTransaction(w, p, payment, price);
    if start.NotStarted? {
      return NotPaid(start.code), done, block;
    }
    var income := amount - start.channel.authorizedAmount;
    if income != price {
      var _ := w.Unlock(p, id);
      return NotPaid(Unauthenticated), NothingWritten, block;
    }
    r := Paid(Transaction(payment, start.channel));
  }

  /** Commit: afterwards the payment is the channel's record, unless the write failed;
      the lock is given back in either case. */
  method Complete(w: World, p: nat, t: Transaction, price: int) returns (ok: bool)
    requires w.At(p, t.payment.channelID, PayReady(t.payment, Call(price), t.channel))
    modifies w
    ensures w.At(p, t.payment.channelID, Idle)
    ensures Grew(old(w.Did(p)), w.Did(p), Tally(committed := 1, released := 1))
    ensures ok ==>
      var record := w.channels[t.payment.channelID].core.record;
      record.Some? && IsPaid(t.channel, record.value, t.payment.amount, t.payment.signature)
    ensures old(w.schedule) == [] ==> ok && w.schedule == [] && Only(old(w.channels), w.channels, t.payment.channelID)
  {
    var id := t.payment.channelID;
    RecordUpdates(t.payment, t.channel);
    ok := w.PutRecord(p, id, Committed(t.payment, t.channel), PayReady(t.payment, Call(price), t.channel));
    var _ := w.Unlock(p, id);
  }

  /** Rollback: nothing but the lock. */
  method CompleteAfterError(w: World, p: nat, t: Transaction, price: int)
    requires w.At(p, t.payment.channelID, PayReady(t.payment, Call(price), t.channel))
    modifies w
    ensures w.At(p, t.payment.channelID, Idle)
    ensures Grew(old(w.Did(p)), w.Did(p), Tally(rolledBack := 1, released := 1))
    ensures w.channels[t.payment.channelID].core.record == old(w.channels)[t.payment.channelID].core.record
    ensures old(w.schedule) == [] ==> w.schedule == [] && Only(old(w.channels), w.channels, t.payment.channelID)
  {
    var _ := w.RollbackAndUnlock(p, t.payment.channelID, PayReady(t.payment, Call(price), t.channel));
  }

  /** What the called service does. */
  datatype Outcome = Succeeds | Fails | Panics

  datatype CallResult = Refused(code: PaymentErrorCode) | Served | NotStored | ServiceError | Repanicked

  /** The balance of a call: a lock that was obtained is given back exactly once, and a
      payment that was accepted is either committed or rolled back, exactly once and as
      the service's outcome demands. */
  predicate Balanced(before: Tally, after: Tally, r: CallResult, outcome: Outcome, done: Progress) {
    && Grew(before, after, Effort(done))
    && (if r.Refused? then GaveUp(done) else done == if outcome == Succeeds then PaymentCommitted else PaymentRolledBack)
  }

  lemma PaidThenCompleted(before: Tally, paid: Tally, after: Tally)
    requires Grew(before, paid, Tally(acquired := 1))
    ensures Grew(paid, after, Tally(committed := 1, released := 1)) ==> Grew(before, after, Effort(PaymentCommitted))
    ensures Grew(paid, after, Tally(rolledBack := 1, released := 1)) ==> Grew(before, after, Effort(PaymentRolledBack))
  {
  }

  /** What becomes of a call that is paid for and not disturbed. */
  function Reported(outcome: Outcome): CallResult {
    match outcome
    case Succeeds => Served
    case Fails => ServiceError
    case Panics => Repanicked
  }

  /** streamIntercept from the payment on: the deferred completion runs whether the
      service returns or panics. */
  method StreamIntercept(w: World, p: nat, id: int, nonce: int, amount: int, signature: Bytes, price: int,
                         outcome: Outcome) returns (r: CallResult, ghost done: Progress, ghost block: Option<int>)
    requires w.At(p, id, Idle) && price >= 0
    modifies w
    ensures w.At(p, id, Idle)
    ensures Balanced(old(w.Did(p)), w.Did(p), r, outcome, done)
    ensures r.Served? || r.NotStored? ==> outcome == Succeeds
    ensures r.ServiceError? ==> outcome == Fails
    ensures r.Repanicked? ==> outcome == Panics
    ensures r.Served? ==>
      var record := w.channels[id].core.record;
      record.Some? && record.value.nonce == nonce && record.value.authorizedAmount == amount
      && record.value.signature == Some(signature) && amount <= record.value.fullAmount
      && Unexpired(w.Cfg(id), record.value.expiration, block)
    // Left alone, a call is refused exactly when it is not payable; otherwise the caller
    // learns the service's outcome, and only success changes the record.
    ensures old(w.schedule) == [] ==>
      && w.schedule == [] && Only(old(w.channels), w.channels, id)
      && (if Payable(w.Cfg(id), old(w.channels)[id], Headers(w, id, nonce, amount, signature), price, w.block)
          then r == Reported(outcome) else r.Refused?)
      && (!r.Served? ==> w.channels[id].core.record == old(w.channels)[id].core.record)
  {
    var payment;
    payment, done, block := HandlePayment(w, p, id, nonce, amount, signature, price);
    if payment.NotPaid? {
      return Refused(payment.code), done, block;
    }
    done := if outcome == Succeeds then PaymentCommitted else PaymentRolledBack;
    ghost var paid := w.Did(p);
    match outcome {
      case Panics =>
        CompleteAfterError(w, p, payment.transaction, price);
        r := Repanicked;
      case Succeeds =>
        var ok := Complete(w, p, payment.transaction, price);
        r := if ok then Served else NotStored;
      case Fails =>
        CompleteAfterError(w, p, payment.transaction, price);
        r := ServiceError;
    }
    PaidThenCompleted(old(w.Did(p)), paid, w.Did(p));
  }

  /** unaryIntercept: only two methods are paid for, all others pass untouched. */
  method UnaryIntercept(w: World, p: nat, methodName: string, id: int, nonce: int, amount: int, signature: Bytes,
                        price: int, outcome: Outcome) returns (r: Option<CallResult>, ghost done: Progress)
    requires w.At(p, id, Idle) && price >= 0
    modifies w
    ensures w.At(p, id, Idle)
    ensures r.Some? <==> methodName in {"validate_model", "train_model"}
    ensures r.None? ==> w.Did(p) == old(w.Did(p)) && w.channels == old(w.channels)
    ensures r.Some? ==> Balanced(old(w.Did(p)), w.Did(p), r.value, outcome, done)
    ensures r.Some? && old(w.schedule) == [] ==>
      if Payable(w.Cfg(id), old(w.channels)[id], Headers(w, id, nonce, amount, signature), price, w.block)
      then r.value == Reported(outcome) else r.value.Refused?
  {
    if methodName != "validate_model" && methodName != "train_model" {
      return None, Unlocked;
    }
    var call;
    ghost var block;
    call, done, block := StreamIntercept(w, p, id, nonce, amount, signature, price, outcome);
    r := Some(call);
  }

  // ---------------------------------------------------------------------------
  // Claims

  datatype ClaimResult = ClaimError | Claimed(claim: Payment)

  /** The claim is one the contract will honour. */
  ghost predicate Honoured(cfg: Config, chain: ChainChannel, claim: Payment) {
    && claim.channelID == cfg.id
    && Collectable(cfg, chain.signer, chain.sender, claim.nonce, claim.amount, claim.signature)
  }

  /** The authorized amount of the channel has moved into the claim: the record is at the
      next nonce with the rest, and the claim is on record, unless it is already settled. */
  ghost predicate MovedInto(s: State, channel: ChannelData, claim: Payment) {
    && IsClaimOn(channel, claim) && s.core.record.Some? && IsClaimed(channel, s.core.record.value, claim.amount)
    && (claim.nonce < s.core.chain.nonce || (claim.nonce in s.core.claims && s.core.claims[claim.nonce] == claim))
  }

  predicate ForClaim(done: Progress) {
    GaveUp(done) || done.RecordWritten? || done.ClaimWritten?
  }

  function Writes(done: Progress): Tally {
    match done
    case RecordWritten => Tally(moved := 1)
    case ClaimWritten => Tally(moved := 1, stored := 1)
    case _ => Tally()
  }

  lemma BothWrites(before: Tally, moved: Tally, after: Tally)
    requires Grew(before, moved, Writes(RecordWritten)) && Grew(moved, after, Tally(stored := 1))
    ensures Grew(before, after, Writes(ClaimWritten))
  {
  }

  lemma WritesUnderLock(before: Tally, locked: Tally, written: Tally, after: Tally, done: Progress)
    requires done.NothingWritten? || done.RecordWritten? || done.ClaimWritten?
    requires Grew(before, locked, Tally(acquired := 1)) && Grew(locked, written, Writes(done))
    requires Grew(written, after, Tally(released := 1))
    ensures Grew(before, after, Effort(done))
  {
  }

  /** The two writes of StartClaim, under the lock. */
  method WriteClaim(w: World, p: nat, id: int, channel: ChannelData) returns (r: ClaimResult, ghost done: Progress)
    requires w.At(p, id, ClaimRead(channel))
    modifies w
    ensures w.At(p, id, Releasing(None)) && old(w.trace) <= w.trace
    ensures r.Claimed? ==>
      && done == ClaimWritten && Honoured(w.Cfg(id), w.channels[id].core.chain, r.claim)
      && IsClaimOn(channel, r.claim) && w.channels[id].core.lock == Some(p)
      && w.channels[id].core.record.Some? && IsClaimed(channel, w.channels[id].core.record.value, r.claim.amount)
      && r.claim.nonce in w.channels[id].core.claims && w.channels[id].core.claims[r.claim.nonce] == r.claim
    ensures done.RecordWritten? || done.ClaimWritten?
    ensures Grew(old(w.Did(p)), w.Did(p), Writes(done))
    ensures old(w.schedule) == [] ==> w.schedule == [] && r.Claimed? && Only(old(w.channels), w.channels, id)
  {
    RecordUpdates(ClaimOf(channel), channel);
    var ok := w.PutRecord(p, id, IncrementNonce(channel), ClaimRead(channel));
    if !ok {
      return ClaimError, RecordWritten;
    }
    ghost var moved := w.Did(p);
    ok := w.PutClaim(p, id, ClaimOf(channel));
    BothWrites(old(w.Did(p)), moved, w.Did(p));
    r := if ok then Claimed(ClaimOf(channel)) else ClaimError;
    done := ClaimWritten;
  }

  method MoveToClaim(w: World, p: nat, id: int)
    returns (r: ClaimResult, ghost done: Progress, ghost channel: Option<ChannelData>)
    requires w.At(p, id, ClaimLocked)
    modifies w
    ensures w.At(p, id, Releasing(None)) && old(w.trace) <= w.trace
    ensures r.Claimed? ==>
      && done == ClaimWritten && Honoured(w.Cfg(id), w.channels[id].core.chain, r.claim)
      && channel.Some? && IsClaimOn(channel.value, r.claim) && w.channels[id].core.lock == Some(p)
      && w.channels[id].core.record.Some? && IsClaimed(channel.value, w.channels[id].core.record.value, r.claim.amount)
      && r.claim.nonce in w.channels[id].core.claims && w.channels[id].core.claims[r.claim.nonce] == r.claim
    ensures done.NothingWritten? || done.RecordWritten? || done.ClaimWritten?
    ensures Grew(old(w.Did(p)), w.Did(p), Writes(done))
    ensures old(w.schedule) == [] ==>
      && w.schedule == [] && Only(old(w.channels), w.channels, id)
      && channel == old(w.channels)[id].core.record && (r.Claimed? <==> channel.Some?)
  {
    var ok, stored := w.GetRecord(p, id, ClaimLocked);
    channel := stored;
    if !ok || stored.None? {
      return ClaimError, NothingWritten, stored;
    }
    r, done := WriteClaim(w, p, id, stored.value);
  }

  /** lockingPaymentChannelService.StartClaim with IncrementChannelNonce. A claim that is
      returned holds exactly what the record authorized under the lock. */
  method StartClaim(w: World, p: nat, id: int)
    returns (r: ClaimResult, ghost done: Progress, ghost channel: Option<ChannelData>)
    requires w.At(p, id, Idle)
    modifies w
    ensures w.At(p, id, Idle)
    ensures ForClaim(done) && Grew(old(w.Did(p)), w.Did(p), Effort(done))
    ensures r.Claimed? ==>
      && done == ClaimWritten && Honoured(w.Cfg(id), w.channels[id].core.chain, r.claim)
      && channel.Some? && MovedInto(w.channels[id], channel.value, r.claim)
    // Left alone, it succeeds exactly when the lock is free and there is a record.
    ensures old(w.schedule) == [] ==>
      && w.schedule == [] && Only(old(w.channels), w.channels, id)
      && (r.Claimed? <==> old(w.channels)[id].core.lock.None? && old(w.channels)[id].core.record.Some?)
      && (r.Claimed? ==> channel == old(w.channels)[id].core.record && w.channels[id].core.lock.None?)
  {
    channel := None;
    var lock;
    ghost var left;
    lock, left := w.Lock(p, id, ClaimAcquire(p));
    if lock != Locked {
      return ClaimError, if left then Orphaned else Unlocked, None;
    }
    ghost var locked := w.Did(p);
    r, done, channel := MoveToClaim(w, p, id);
    ghost var written, before := w.Did(p), w.trace;
    w.Recall();
    var _ := w.Unlock(p, id);
    w.HasMovedOnward(before, id);
    WritesUnderLock(old(w.Did(p)), locked, written, w.Did(p), done);
  }

  /** The customer can go on: in every reachable state after a claim, settled or not, each
      payment for the next nonce that is signed, not expired on the record that was claimed
      and within what the claim has left of it can be started. */
  lemma ClaimLeavesTheRest(cfg: Config, s: State, channel: ChannelData, claim: Payment, payment: Payment, block: Option<int>)
    requires ProtocolTheorems.Reachable(cfg, s) && MovedInto(s, channel, claim) && s.core.lock.None?
    requires payment.nonce == channel.nonce + 1 && SignedFor(cfg, payment, channel.signer, channel.sender)
    requires Unexpired(cfg, channel.expiration, block) && payment.amount <= channel.fullAmount - claim.amount
    ensures Startable(cfg, s, payment, block)
  {
    ProtocolTheorems.RecordIsNeverBehind(cfg, s, NodeCurrent);
    ProtocolTheorems.ReachableInv(cfg, s);
  }

  /** There is something to claim and nobody is at it. The amount is compared with zero
      after truncation to 64 bits. */
  predicate Claimable(s: State) {
    s.core.lock.None? && s.core.record.Some? && s.core.record.value.authorizedAmount % Encoding.TWO64 != 0
  }

  /** What beginClaimOnChannel reads before it locks, when nothing interferes. */
  lemma PeekedAmount(cfg: Config, s: State, reply: ChainReply)
    requires Inv(cfg, s) && (reply.Found? ==> reply.chain == s.core.chain)
    ensures
      var view := View(cfg, s.core.record, reply);
      && (s.core.record.Some? ==> view.Channel? && view.data.authorizedAmount == s.core.record.value.authorizedAmount)
      && (s.core.record.None? && view.Channel? ==> view.data.authorizedAmount == 0)
  {
  }

  method BeginClaimOnChannel(w: World, p: nat, id: int)
    returns (r: ClaimResult, ghost done: Progress, ghost channel: Option<ChannelData>)
    requires w.At(p, id, Idle)
    modifies w
    ensures w.At(p, id, Idle)
    ensures ForClaim(done) && Grew(old(w.Did(p)), w.Did(p), Effort(done))
    ensures r.Claimed? ==>
      && done == ClaimWritten && Honoured(w.Cfg(id), w.channels[id].core.chain, r.claim)
      && channel.Some? && MovedInto(w.channels[id], channel.value, r.claim)
    // Left alone, it succeeds exactly when the channel is claimable.
    ensures old(w.schedule) == [] ==>
      && w.schedule == [] && Only(old(w.channels), w.channels, id)
      && (r.Claimed? <==> Claimable(old(w.channels)[id]))
      && (r.Claimed? ==> channel == old(w.channels)[id].core.record && w.channels[id].core.lock.None?)
  {
    channel := None;
    w.StoresAreReachable(id);
    ghost var s := w.channels[id];
    var ok, stored := w.PeekRecord(p, id);
    if !ok {
      return ClaimError, Unlocked, None;
    }
    var reply := w.PeekChain(p, id);
    if old(w.schedule) == [] {
      PeekedAmount(w.Cfg(id), s, reply);
    }
    var view := View(w.Cfg(id), stored, reply);
    if !view.Channel? || view.data.authorizedAmount % Encoding.TWO64 == 0 {
      return ClaimError, Unlocked, None;
    }
    r, done, channel := StartClaim(w, p, id);
  }

  /** One claim for each of the first n channels, in the order asked for. */
  predicate Answers(claims: seq<Payment>, ids: seq<int>, n: nat) {
    |claims| == n <= |ids| && forall i :: 0 <= i < n ==> claims[i].channelID == ids[i]
  }

  lemma NothingIsLeft(s: State, channel: ChannelData, claim: Payment)
    requires MovedInto(s, channel, claim)
    ensures !Claimable(s)
  {
  }

  /** The first n channels of the request are claimable, and no two of them are the same. */
  predicate ClaimableUpTo(m: map<int, State>, ids: seq<int>, n: nat) {
    && n <= |ids|
    && (forall i :: 0 <= i < n ==> ids[i] in m && Claimable(m[ids[i]]))
    && (forall i, j :: 0 <= i < j < n ==> ids[i] != ids[j])
  }

  lemma NotClaimableFurther(m: map<int, State>, ids: seq<int>, k: nat, n: nat)
    requires !ClaimableUpTo(m, ids, k) && k <= n <= |ids|
    ensures !ClaimableUpTo(m, ids, n)
  {
  }

  /** The request names its first channel twice. */
  predicate Repeats(ids: seq<int>) {
    |ids| > 1 && ids[0] == ids[1]
  }

  /** After i claims, started in m: they were all claimable, none of them is any more, and
      no other channel has changed. */
  ghost predicate ClaimedUpTo(m: map<int, State>, t: map<int, State>, ids: seq<int>, i: nat) {
    && ClaimableUpTo(m, ids, i) && m.Keys == t.Keys
    && (forall k :: 0 <= k < i ==> !Claimable(t[ids[k]]))
    && (forall j :: j in m && j !in ids[..i] ==> t[j] == m[j])
  }

  lemma ClaimedNext(m: map<int, State>, now: map<int, State>, t: map<int, State>, ids: seq<int>, i: nat)
    requires ClaimedUpTo(m, now, ids, i) && i < |ids| && ids[i] in m && Only(now, t, ids[i])
    requires Claimable(now[ids[i]]) && !Claimable(t[ids[i]])
    ensures ClaimedUpTo(m, t, ids, i + 1)
  {
    assert ids[i] !in ids[..i] by {
      assert forall k :: 0 <= k < i ==> ids[..i][k] == ids[k] && !Claimable(now[ids[k]]);
    }
    assert ids[..i + 1] == ids[..i] + [ids[i]];
    forall k | 0 <= k < i ensures !Claimable(t[ids[k]]) {
      assert ids[k] == ids[..i][k];
    }
  }

  lemma ClaimsFromNext(m: map<int, State>, now: map<int, State>, ids: seq<int>, i: nat, claims: seq<Payment>, more: seq<Payment>)
    requires ClaimedUpTo(m, now, ids, i) && i < |ids| && ids[i] in m && Claimable(now[ids[i]])
    requires ClaimsFrom(m, ids, claims) && |claims| == i
    requires exists claim :: more == claims + [claim] && IsClaimOn(now[ids[i]].core.record.value, claim)
    ensures ClaimsFrom(m, ids, more)
  {
    var j := ids[i];
    assert j !in ids[..i] by {
      assert forall k :: 0 <= k < i ==> ids[..i][k] == ids[k] && !Claimable(now[ids[k]]);
    }
    assert j in m && now[j] == m[j];
  }

  lemma ClaimedNoFurther(m: map<int, State>, now: map<int, State>, ids: seq<int>, i: nat)
    requires ClaimedUpTo(m, now, ids, i) && i < |ids| && ids[i] in m && !Claimable(now[ids[i]])
    ensures !ClaimableUpTo(m, ids, i + 1)
  {
    var j := ids[i];
    if j in ids[..i] {
      var k :| 0 <= k < i && ids[..i][k] == j;
      assert ids[k] == j;
    } else {
      assert j in m && now[j] == m[j];
    }
  }

  /** From the request and the stores before the call: the reply is complete exactly when
      all channels are claimable and different, and made is how far that goes. */
  ghost predicate MadeExactly(m: map<int, State>, ids: seq<int>, ok: bool, made: nat) {
    && (ok <==> ClaimableUpTo(m, ids, |ids|))
    && ClaimableUpTo(m, ids, made) && (made < |ids| ==> !ClaimableUpTo(m, ids, made + 1))
    && (!ok && made > 0 <==>
          |ids| > 0 && ids[0] in m && Claimable(m[ids[0]]) && !ClaimableUpTo(m, ids, |ids|))
  }

  lemma StoppedAt(m: map<int, State>, now: map<int, State>, ids: seq<int>, i: nat)
    requires ClaimedUpTo(m, now, ids, i) && i < |ids| && ids[i] in m && !Claimable(now[ids[i]])
    ensures MadeExactly(m, ids, false, i)
  {
    ClaimedNoFurther(m, now, ids, i);
    NotClaimableFurther(m, ids, i + 1, |ids|);
    assert i > 0 ==> ids[0] in m && Claimable(m[ids[0]]);
    assert i == 0 ==> !Claimable(m[ids[0]]);
  }

  lemma RepeatedIsNotClaimable(m: map<int, State>, ids: seq<int>, ok: bool, made: nat)
    requires MadeExactly(m, ids, ok, made) && made <= |ids| && Repeats(ids) && ids[0] in m && Claimable(m[ids[0]])
    ensures !ok && made == 1
  {
    assert ClaimableUpTo(m, ids, 1) && !ClaimableUpTo(m, ids, 2);
    NotClaimableFurther(m, ids, 2, |ids|);
    assert forall n: nat :: 2 <= n <= |ids| ==> !ClaimableUpTo(m, ids, n) by {
      forall n: nat | 2 <= n <= |ids| ensures !ClaimableUpTo(m, ids, n) {
        NotClaimableFurther(m, ids, 2, n);
      }
    }
  }

  /** What startClaims has done after i channels. */
  ghost predicate StartedUpTo(first: Tally, now: Tally, ids: seq<int>, i: nat, payments: seq<Payment>) {
    i <= |ids| && Grew(first, now, Efforts(i)) && Answers(payments, ids, i)
  }

  /** Each claim of the reply holds what the record of its channel authorized in m. */
  ghost predicate ClaimsFrom(m: map<int, State>, ids: seq<int>, claims: seq<Payment>) {
    && |claims| <= |ids|
    && forall k :: 0 <= k < |claims| ==>
         ids[k] in m && m[ids[k]].core.record.Some? && IsClaimOn(m[ids[k]].core.record.value, claims[k])
  }

  /** One round of startClaims. */
  method ClaimNext(w: World, p: nat, ids: seq<int>, i: nat, payments: seq<Payment>, ghost first: Tally)
    returns (ok: bool, more: seq<Payment>, ghost done: Progress)
    requires i < |ids| && ids[i] in w.channels && w.Resting(p) && StartedUpTo(first, w.Did(p), ids, i, payments)
    modifies w
    ensures w.Resting(p) && w.channels.Keys == old(w.channels.Keys)
    ensures if ok then StartedUpTo(first, w.Did(p), ids, i + 1, more)
            else Grew(first, w.Did(p), Plus(Efforts(i), Effort(done)))
    ensures old(w.schedule) == [] ==>
      && w.schedule == [] && Only(old(w.channels), w.channels, ids[i])
      && (ok <==> Claimable(old(w.channels)[ids[i]])) && (ok ==> !Claimable(w.channels[ids[i]]))
      && (ok ==> exists claim ::
            more == payments + [claim] && IsClaimOn(old(w.channels)[ids[i]].core.record.value, claim))
  {
    ghost var before, channel := w.Did(p), None;
    var r;
    r, done, channel := BeginClaimOnChannel(w, p, ids[i]);
    OneMoreEffort(first, before, w.Did(p), i, done);
    ok, more := r.Claimed?, payments;
    if r.Claimed? {
      NothingIsLeft(w.channels[ids[i]], channel.value, r.claim);
      more := payments + [r.claim];
    }
  }

  /** startClaims. All claims are started in order until one fails; after a failure the
      reply is empty, although the claims before it have been started. */
  method StartClaims(w: World, p: nat, ids: seq<int>)
    returns (ok: bool, reply: seq<Payment>, ghost made: nat, ghost last: Progress)
    requires w.Resting(p)
    requires forall i :: 0 <= i < |ids| ==> ids[i] in w.channels
    modifies w
    ensures w.Resting(p)
    ensures made <= |ids| && (ok <==> made == |ids|)
    ensures if ok then Answers(reply, ids, |ids|) else reply == []
    ensures Grew(old(w.Did(p)), w.Did(p), if ok then Efforts(made) else Plus(Efforts(made), Effort(last)))
    // Left alone: when the reply is complete, and when it hides claims that were started.
    ensures old(w.schedule) == [] ==> MadeExactly(old(w.channels), ids, ok, made) && ClaimsFrom(old(w.channels), ids, reply)
    ensures old(w.schedule) == [] && Repeats(ids) && Claimable(old(w.channels)[ids[0]]) ==>
      !ok && reply == [] && made == 1
  {
    var payments: seq<Payment> := [];
    made, last := 0, ClaimWritten;
    NothingStarted(w.Did(p), ids);
    ghost var first, calm := w.channels, w.schedule == [];
    for i := 0 to |ids|
      invariant w.Resting(p) && w.channels.Keys == first.Keys
      invariant i == made && StartedUpTo(old(w.Did(p)), w.Did(p), ids, i, payments)
      invariant calm ==> w.schedule == [] && ClaimedUpTo(first, w.channels, ids, i) && ClaimsFrom(first, ids, payments)
    {
      ghost var now, answered := w.channels, payments;
      ok, payments, last := ClaimNext(w, p, ids, i, payments, old(w.Did(p)));
      if !ok {
        if calm {
          StoppedAt(first, now, ids, i);
          ShowRepeats(first, ids, false, i);
        }
        return false, [], made, last;
      }
      if calm {
        ClaimedNext(first, now, w.channels, ids, i);
        ClaimsFromNext(first, now, ids, i, answered, payments);
      }
      made := made + 1;
    }
    ok, reply := true, payments;
    if calm {
      ShowRepeats(first, ids, true, made);
    }
  }

  lemma ShowRepeats(m: map<int, State>, ids: seq<int>, ok: bool, made: nat)
    requires MadeExactly(m, ids, ok, made) && made <= |ids|
    ensures Repeats(ids) && ids[0] in m && Claimable(m[ids[0]]) ==> !ok && made == 1
  {
    if Repeats(ids) && ids[0] in m && Claimable(m[ids[0]]) {
      RepeatedIsNotClaimable(m, ids, ok, made);
    }
  }

  lemma NothingStarted(t: Tally, ids: seq<int>)
    ensures StartedUpTo(t, t, ids, 0, [])
  {
  }

  function Plus(a: Tally, b: Tally): Tally {
    Tally(acquired := a.acquired + b.acquired, released := a.released + b.released, orphaned := a.orphaned + b.orphaned,
          committed := a.committed + b.committed, rolledBack := a.rolledBack + b.rolledBack,
          moved := a.moved + b.moved, stored := a.stored + b.stored, deleted := a.deleted + b.deleted)
  }

  lemma OneMoreEffort(first: Tally, before: Tally, after: Tally, n: nat, last: Progress)
    requires Grew(first, before, Efforts(n)) && Grew(before, after, Effort(last))
    ensures Grew(first, after, Plus(Efforts(n), Effort(last)))
    ensures last == ClaimWritten ==> Grew(first, after, Efforts(n + 1))
  {
  }

  /** The work of n claims. */
  function Efforts(n: nat): Tally {
    Tally(acquired := n, moved := n, stored := n, released := n)
  }

  predicate OnlyDeletes(before: Tally, after: Tally) {
    && after.acquired == before.acquired && after.released == before.released && after.orphaned == before.orphaned
    && after.committed == before.committed && after.rolledBack == before.rolledBack
    && after.moved == before.moved && after.stored == before.stored
  }

  predicate Upset(slot: Slot) {
    slot.fault != EtcdClient.Delivered || slot.node != NodeCurrent
  }

  predicate Missed(slot: Slot) {
    slot.node == NodeMissing
  }

  /** Requests were lost, or a node did not answer with the channel, among the first slots
      of before, of which after are left. */
  ghost predicate Disturbed(before: seq<Slot>, after: seq<Slot>) {
    exists i :: 0 <= i < |before| - |after| && Upset(before[i])
  }

  /** A node said that there is no such channel. */
  ghost predicate SaidMissing(before: seq<Slot>, after: seq<Slot>) {
    exists i :: 0 <= i < |before| - |after| && Missed(before[i])
  }

  predicate IsTailOf(after: seq<Slot>, before: seq<Slot>) {
    |after| <= |before| && after == before[|before| - |after|..]
  }

  lemma SlotOfTail(a: seq<Slot>, b: seq<Slot>, i: nat)
    requires IsTailOf(b, a) && i < |b|
    ensures a[|a| - |b| + i] == b[i]
  {
  }

  lemma TailsCompose(a: seq<Slot>, b: seq<Slot>, c: seq<Slot>)
    requires IsTailOf(b, a) && IsTailOf(c, b)
    ensures IsTailOf(c, a)
  {
    var k, j := |a| - |b|, |b| - |c|;
    assert a[k..][j..] == a[k + j..];
  }

  lemma DisturbedBefore(a: seq<Slot>, b: seq<Slot>, c: seq<Slot>)
    requires IsTailOf(b, a) && |c| <= |b| && Disturbed(b, c)
    ensures Disturbed(a, c)
  {
    var i :| 0 <= i < |b| - |c| && Upset(b[i]);
    SlotOfTail(a, b, i);
  }

  lemma MissingBefore(a: seq<Slot>, b: seq<Slot>, c: seq<Slot>)
    requires IsTailOf(b, a) && |c| <= |b| && SaidMissing(b, c)
    ensures SaidMissing(a, c)
  {
    var i :| 0 <= i < |b| - |c| && Missed(b[i]);
    SlotOfTail(a, b, i);
  }

  lemma TailOfTail(a: seq<Slot>, b: seq<Slot>, c: seq<Slot>)
    requires IsTailOf(b, a) && IsTailOf(c, b)
    ensures IsTailOf(c, a)
    ensures Disturbed(b, c) ==> Disturbed(a, c)
    ensures SaidMissing(b, c) ==> SaidMissing(a, c)
  {
    TailsCompose(a, b, c);
    if Disturbed(b, c) {
      DisturbedBefore(a, b, c);
    }
    if SaidMissing(b, c) {
      MissingBefore(a, b, c);
    }
  }

  /** One request used up the next slot. */
  lemma OneSlot(a: seq<Slot>, block: Option<int>)
    ensures IsTailOf(Rest(a), a)
    ensures Upset(Upcoming(a, block)) ==> Disturbed(a, Rest(a))
    ensures Missed(Upcoming(a, block)) ==> SaidMissing(a, Rest(a))
  {
    if a != [] {
      assert a[0] == Upcoming(a, block) && |a| - |Rest(a)| == 1;
    }
  }

  /** Why the clean-up stopped before its end: it was disturbed, or it came to a channel of
      somebody else; and without an error only when a node said that there is no such
      channel. */
  ghost predicate StoppedBecause(ok: bool, before: seq<Slot>, after: seq<Slot>, foreign: bool) {
    && (Disturbed(before, after) || foreign)
    && (ok ==> SaidMissing(before, after))
  }

  predicate IsForeign(cfg: Config, s: State) {
    s.core.chain.recipient != cfg.recipient
  }

  /** Whether the chain has settled the claim: it has, it has not, or it did not say. */
  datatype SettleReply = Unsaid(ok: bool) | Settled | Unsettled

  method AskSettled(w: World, p: nat, claim: Payment) returns (r: SettleReply)
    requires w.Resting(p) && claim.channelID in w.channels
    modifies w
    ensures w.Resting(p) && old(w.trace) <= w.trace && w.Did(p) == old(w.Did(p))
    ensures r.Settled? ==> claim.nonce < w.channels[claim.channelID].core.chain.nonce
    ensures r.Unsettled? ==> old(w.channels)[claim.channelID].core.chain.nonce <= claim.nonce
    ensures r.Unsaid? ==>
      StoppedBecause(r.ok, old(w.schedule), w.schedule, IsForeign(w.Cfg(claim.channelID), old(w.channels)[claim.channelID]))
    ensures !r.Unsaid? ==> !IsForeign(w.Cfg(claim.channelID), old(w.channels)[claim.channelID])
    ensures IsTailOf(w.schedule, old(w.schedule)) && SameRecipients(old(w.channels), w.channels)
    ensures old(w.schedule) == [] ==> w.channels == old(w.channels)
  {
    var id := claim.channelID;
    OneSlot(w.schedule, w.block);
    w.Recall();
    var reply := w.PeekChain(p, id);
    w.HasMovedOnward(old(w.trace), id);
    var blockchain := FromBlockchain(w.Cfg(id), reply);
    if !blockchain.Channel? {
      r := Unsaid(blockchain.Missing?);
    } else {
      r := if blockchain.data.nonce > claim.nonce then Settled else Unsettled;
    }
  }

  method DeleteSettled(w: World, p: nat, claim: Payment) returns (ok: bool)
    requires w.Resting(p) && claim.channelID in w.channels
    requires claim.nonce < w.channels[claim.channelID].core.chain.nonce
    modifies w
    ensures w.Resting(p) && old(w.trace) <= w.trace && OnlyDeletes(old(w.Did(p)), w.Did(p))
    ensures IsTailOf(w.schedule, old(w.schedule)) && SameRecipients(old(w.channels), w.channels)
    ensures ok ==> claim.nonce !in w.channels[claim.channelID].core.claims
    ensures !ok ==> Disturbed(old(w.schedule), w.schedule)
    ensures old(w.schedule) == [] ==>
      w.channels == old(w.channels)[claim.channelID := WithoutClaim(old(w.channels)[claim.channelID], claim.nonce)]
  {
    OneSlot(w.schedule, w.block);
    ok := w.Finish(p, claim.channelID, claim.nonce);
    assert OnlyDeletes(old(w.Did(p)), w.Did(p));
    assert !ok ==> Disturbed(old(w.schedule), w.schedule);
  }

  lemma RecipientsStay(a: map<int, State>, b: map<int, State>, c: map<int, State>)
    requires SameRecipients(a, b) && SameRecipients(b, c)
    ensures SameRecipients(a, c)
  {
  }

  method RemoveIfSettled(w: World, p: nat, claim: Payment) returns (ok: bool, complete: bool)
    requires w.Resting(p) && claim.channelID in w.channels
    modifies w
    ensures w.Resting(p) && old(w.trace) <= w.trace
    ensures OnlyDeletes(old(w.Did(p)), w.Did(p))
    ensures complete ==> ok && !IsForeign(w.Cfg(claim.channelID), old(w.channels)[claim.channelID])
    ensures complete && claim.nonce < old(w.channels)[claim.channelID].core.chain.nonce ==>
      claim.nonce !in w.channels[claim.channelID].core.claims
    ensures IsTailOf(w.schedule, old(w.schedule)) && SameRecipients(old(w.channels), w.channels)
    ensures !complete ==>
      StoppedBecause(ok, old(w.schedule), w.schedule, IsForeign(w.Cfg(claim.channelID), old(w.channels)[claim.channelID]))
    ensures old(w.schedule) == [] && complete ==> w.channels == WithoutSettled(old(w.channels), claim)
  {
    var r := AskSettled(w, p, claim);
    if r.Unsaid? {
      return r.ok, false;
    }
    ok := true;
    if r.Settled? {
      ghost var left, peeked := w.schedule, w.channels;
      ok := DeleteSettled(w, p, claim);
      TailOfTail(old(w.schedule), left, w.schedule);
      RecipientsStay(old(w.channels), peeked, w.channels);
    }
    complete := ok;
  }

  /** The channels without this claim, if it is settled. */
  function WithoutSettled(m: map<int, State>, claim: Payment): map<int, State>
    requires claim.channelID in m
  {
    var s := m[claim.channelID];
    if claim.nonce < s.core.chain.nonce then m[claim.channelID := WithoutClaim(s, claim.nonce)] else m
  }

  /** If the claim was settled in m, it is removed in t. */
  ghost predicate RemovedIfSettled(m: map<int, State>, t: map<int, State>, claim: Payment) {
    claim.channelID in m && claim.channelID in t && claim.nonce < m[claim.channelID].core.chain.nonce ==>
      ClaimTheorems.Removed(t[claim.channelID], claim.nonce)
  }

  ghost predicate RemovedOf(m: map<int, State>, t: map<int, State>, claims: seq<Payment>) {
    forall i :: 0 <= i < |claims| ==> RemovedIfSettled(m, t, claims[i])
  }

  ghost predicate AllOnward(m: map<int, State>, t: map<int, State>) {
    m.Keys == t.Keys && forall id :: id in m ==> ClaimTheorems.Onward(m[id], t[id])
  }

  /** A claim that is dealt with in between is removed and stays so. */
  lemma RemovedOne(m: State, now: State, t: State, n: int)
    requires ClaimTheorems.Onward(m, now) && ClaimTheorems.Onward(now, t) && n in m.core.claims
    requires n !in t.core.claims
    ensures ClaimTheorems.Removed(t, n)
  {
    ClaimTheorems.OnwardTransitive(m, now, t);
  }

  lemma RemovedStays(now: State, t: State, n: int)
    requires ClaimTheorems.Onward(now, t) && ClaimTheorems.Removed(now, n)
    ensures ClaimTheorems.Removed(t, n)
  {
  }

  /** One more claim has been dealt with; what was removed before stays removed. */
  lemma RemovedNext(m: map<int, State>, now: map<int, State>, t: map<int, State>, claims: seq<Payment>, i: nat)
    requires i < |claims| && AllOnward(m, now) && AllOnward(now, t) && RemovedOf(m, now, claims[..i])
    requires claims[i].channelID in m && claims[i].nonce in m[claims[i].channelID].core.claims
    requires claims[i].nonce < now[claims[i].channelID].core.chain.nonce ==>
      claims[i].nonce !in t[claims[i].channelID].core.claims
    ensures RemovedOf(m, t, claims[..i + 1])
  {
    forall j | 0 <= j < i + 1 ensures RemovedIfSettled(m, t, claims[j]) {
      if j < i {
        assert RemovedIfSettled(m, now, claims[..i][j]);
        RemovedLater(m, now, t, claims[j]);
      } else {
        RemovedNow(m, now, t, claims[j]);
      }
    }
  }

  lemma RemovedLater(m: map<int, State>, now: map<int, State>, t: map<int, State>, claim: Payment)
    requires AllOnward(m, now) && AllOnward(now, t) && RemovedIfSettled(m, now, claim)
    ensures RemovedIfSettled(m, t, claim)
  {
    var id := claim.channelID;
    if id in m && claim.nonce < m[id].core.chain.nonce {
      RemovedStays(now[id], t[id], claim.nonce);
    }
  }

  lemma RemovedNow(m: map<int, State>, now: map<int, State>, t: map<int, State>, claim: Payment)
    requires AllOnward(m, now) && AllOnward(now, t) && claim.channelID in m
    requires claim.nonce in m[claim.channelID].core.claims
    requires claim.nonce < now[claim.channelID].core.chain.nonce ==> claim.nonce !in t[claim.channelID].core.claims
    ensures RemovedIfSettled(m, t, claim)
  {
    var id := claim.channelID;
    assert ClaimTheorems.Onward(m[id], now[id]);
    if claim.nonce < m[id].core.chain.nonce {
      RemovedOne(m[id], now[id], t[id], claim.nonce);
    }
  }

  lemma OnwardFrom(w: World, m: map<int, State>, events: seq<Event>)
    requires w.Valid() && events <= w.trace && m == Replay(w.template, w.origin, events)
    ensures AllOnward(m, w.channels)
  {
    ReplayKeys(w.template, w.origin, events);
    forall id | id in m ensures ClaimTheorems.Onward(m[id], w.channels[id]) {
      w.HasMovedOnward(events, id);
    }
  }

  /** One of the claims is on a channel that pays somebody else. */
  ghost predicate SomeForeign(template: Config, m: map<int, State>, claims: seq<Payment>) {
    exists i :: 0 <= i < |claims| && claims[i].channelID in m && IsForeign(For(template, claims[i].channelID), m[claims[i].channelID])
  }

  lemma NoForeignNext(template: Config, m: map<int, State>, claims: seq<Payment>, i: nat)
    requires i < |claims| && !SomeForeign(template, m, claims[..i])
    requires claims[i].channelID in m && !IsForeign(For(template, claims[i].channelID), m[claims[i].channelID])
    ensures !SomeForeign(template, m, claims[..i + 1])
  {
    assert forall k :: 0 <= k < i ==> claims[..i + 1][k] == claims[..i][k];
    assert claims[..i + 1][i] == claims[i];
  }

  /** A channel with a claim on record pays somebody else. */
  ghost predicate ForeignClaims(template: Config, m: map<int, State>) {
    exists id, n :: id in m && n in m[id].core.claims && IsForeign(For(template, id), m[id])
  }

  lemma PendingIsOnRecord(template: Config, m: map<int, State>, claims: seq<Payment>)
    requires SomeForeign(template, m, claims)
    requires forall i :: 0 <= i < |claims| ==> claims[i].channelID in m && claims[i].nonce in m[claims[i].channelID].core.claims
    ensures ForeignClaims(template, m)
  {
    var i :| 0 <= i < |claims| && claims[i].channelID in m && IsForeign(For(template, claims[i].channelID), m[claims[i].channelID]);
    assert claims[i].nonce in m[claims[i].channelID].core.claims;
  }

  lemma ListedForeign(template: Config, m: map<int, State>, claims: seq<Payment>)
    requires AllListed(m, claims) && !SomeForeign(template, m, claims)
    ensures !ForeignClaims(template, m)
  {
    forall id, n | id in m && n in m[id].core.claims ensures !IsForeign(For(template, id), m[id]) {
      assert Listed(m[id], id, n, claims);
      var i :| 0 <= i < |claims| && claims[i] == m[id].core.claims[n];
    }
  }

  /** The loop of removeClaimedPayments. Stops with an error when the chain cannot be
      read, and without one when the chain does not know the channel. */
  method RemoveSettled(w: World, p: nat, claims: seq<Payment>) returns (ok: bool, complete: bool)
    requires w.Resting(p)
    requires forall i :: 0 <= i < |claims| ==> w.Pending(claims[i])
    modifies w
    ensures w.Resting(p) && old(w.trace) <= w.trace
    ensures OnlyDeletes(old(w.Did(p)), w.Did(p))
    ensures complete ==> ok
    ensures complete ==> RemovedOf(old(w.channels), w.channels, claims)
    ensures IsTailOf(w.schedule, old(w.schedule))
    ensures !complete ==> StoppedBecause(ok, old(w.schedule), w.schedule, SomeForeign(w.template, old(w.channels), claims))
    ensures complete ==> !SomeForeign(w.template, old(w.channels), claims)
    ensures old(w.schedule) == [] && complete ==> CleanedUpTo(old(w.channels), w.channels, claims)
  {
    CleanedStart(w.channels);
    w.Recall();
    OnwardFrom(w, w.channels, w.trace);
    assert claims[..0] == [];
    for i := 0 to |claims|
      invariant w.Resting(p) && old(w.trace) <= w.trace
      invariant OnlyDeletes(old(w.Did(p)), w.Did(p))
      invariant AllOnward(old(w.channels), w.channels)
      invariant RemovedOf(old(w.channels), w.channels, claims[..i])
      invariant IsTailOf(w.schedule, old(w.schedule)) && SameRecipients(old(w.channels), w.channels)
      invariant !SomeForeign(w.template, old(w.channels), claims[..i])
      invariant old(w.schedule) == [] ==> CleanedUpTo(old(w.channels), w.channels, claims[..i])
    {
      ghost var now, past, left := w.channels, w.trace, w.schedule;
      w.Recall();
      ok, complete := RemoveIfSettled(w, p, claims[i]);
      TailOfTail(old(w.schedule), left, w.schedule);
      if !complete {
        assert IsForeign(w.Cfg(claims[i].channelID), now[claims[i].channelID]) ==>
          SomeForeign(w.template, old(w.channels), claims);
        return;
      }
      NoForeignNext(w.template, old(w.channels), claims, i);
      OnwardFrom(w, now, past);
      OnwardFrom(w, old(w.channels), old(w.trace));
      RemovedNext(old(w.channels), now, w.channels, claims, i);
      if old(w.schedule) == [] {
        CleanedNext(old(w.channels), now, claims, i);
      }
    }
    assert claims[..|claims|] == claims;
    ok, complete := true, true;
  }

  /** The claims that were on record and settled in m are gone, and those that are not
      settled in t are still there. */
  ghost predicate SettledGone(m: map<int, State>, t: map<int, State>) {
    m.Keys == t.Keys && forall id, n :: id in m && n in m[id].core.claims ==>
      && (n < m[id].core.chain.nonce ==> n !in t[id].core.claims)
      && (t[id].core.chain.nonce <= n ==> n in t[id].core.claims && t[id].core.claims[n] == m[id].core.claims[n])
  }

  lemma ListedAreGone(m: map<int, State>, listed: map<int, State>, t: map<int, State>, claims: seq<Payment>)
    requires AllOnward(m, listed) && AllOnward(listed, t) && AllListed(listed, claims) && RemovedOf(listed, t, claims)
    ensures SettledGone(m, t)
  {
    forall id, n | id in m && n in m[id].core.claims
      ensures n < m[id].core.chain.nonce ==> n !in t[id].core.claims
      ensures t[id].core.chain.nonce <= n ==> n in t[id].core.claims && t[id].core.claims[n] == m[id].core.claims[n]
    {
      assert ClaimTheorems.Onward(m[id], listed[id]) && ClaimTheorems.Onward(listed[id], t[id]);
      ClaimTheorems.OnwardTransitive(m[id], listed[id], t[id]);
      if n in listed[id].core.claims {
        assert Listed(listed[id], id, n, claims);
        var i :| 0 <= i < |claims| && claims[i] == listed[id].core.claims[n];
        assert RemovedIfSettled(listed, t, claims[i]);
      }
    }
  }

  /** Whatever others do meanwhile: if it comes to its end, the claims that were settled
      when it began are gone; and no claim is gone that is not settled when it returns. It
      comes to its end unless a request was lost, a node did not answer with the channel, or
      a channel among those listed pays somebody else. */
  method RemoveClaimedPayments(w: World, p: nat) returns (ok: bool, complete: bool, ghost listed: map<int, State>)
    requires w.Resting(p)
    modifies w
    ensures w.Resting(p)
    ensures OnlyDeletes(old(w.Did(p)), w.Did(p))
    ensures complete ==> ok
    ensures complete ==> SettledGone(old(w.channels), w.channels)
    ensures IsTailOf(w.schedule, old(w.schedule)) && SameRecipients(old(w.channels), listed)
    ensures !complete ==> StoppedBecause(ok, old(w.schedule), w.schedule, ForeignClaims(w.template, listed))
    // Left alone, it comes to its end exactly when no claim is on somebody else's channel;
    // then it removes exactly the settled claims, and touches nothing else.
    ensures complete ==> !ForeignClaims(w.template, listed)
    ensures old(w.schedule) == [] ==> listed == old(w.channels) && (complete <==> !ForeignClaims(w.template, listed))
    ensures old(w.schedule) == [] && complete ==> AllCleaned(old(w.channels), w.channels)
  {
    w.Recall();
    OneSlot(w.schedule, w.block);
    var found, claims := w.ListClaims(p);
    listed := w.channels;
    if !found {
      return false, false, listed;
    }
    OnwardFrom(w, old(w.channels), old(w.trace));
    ghost var past, left := w.trace, w.schedule;
    w.Recall();
    ok, complete := RemoveSettled(w, p, claims);
    TailOfTail(old(w.schedule), left, w.schedule);
    if SomeForeign(w.template, listed, claims) {
      PendingIsOnRecord(w.template, listed, claims);
    }
    if complete {
      ListedForeign(w.template, listed, claims);
      OnwardFrom(w, listed, past);
      ListedAreGone(old(w.channels), listed, w.channels, claims);
    }
    if old(w.schedule) == [] && complete {
      EverythingCleaned(old(w.channels), w.channels, claims);
    }
  }

  ghost predicate SameButClaims(s: State, t: State) {
    t == s.(core := s.core.(claims := t.core.claims))
  }

  ghost predicate Cleaned(s: State, t: State) {
    && SameButClaims(s, t)
    && (forall n :: n in t.core.claims <==> n in s.core.claims && s.core.chain.nonce <= n)
    && (forall n :: n in t.core.claims ==> t.core.claims[n] == s.core.claims[n])
  }

  ghost predicate Gone(s: State, id: int, claims: seq<Payment>, n: int) {
    n < s.core.chain.nonce && exists c :: c in claims && c.channelID == id && c.nonce == n
  }

  /** The settled ones among the given claims are gone, and no others. */
  ghost predicate CleanedOf(s: State, t: State, id: int, claims: seq<Payment>) {
    && SameButClaims(s, t)
    && (forall n :: n in t.core.claims <==> n in s.core.claims && !Gone(s, id, claims, n))
    && (forall n :: n in t.core.claims ==> t.core.claims[n] == s.core.claims[n])
  }

  /** What the loop has done after the first i claims. */
  ghost predicate CleanedUpTo(m: map<int, State>, t: map<int, State>, claims: seq<Payment>) {
    m.Keys == t.Keys && forall id :: id in m ==> CleanedOf(m[id], t[id], id, claims)
  }

  ghost predicate AllCleaned(m: map<int, State>, t: map<int, State>) {
    m.Keys == t.Keys && forall id :: id in m ==> Cleaned(m[id], t[id])
  }

  lemma EverythingCleaned(m: map<int, State>, t: map<int, State>, claims: seq<Payment>)
    requires CleanedUpTo(m, t, claims) && AllListed(m, claims)
    ensures AllCleaned(m, t)
  {
    forall id | id in m ensures Cleaned(m[id], t[id]) {
      assert CleanedOf(m[id], t[id], id, claims);
      forall n | n in m[id].core.claims ensures Gone(m[id], id, claims, n) <==> n < m[id].core.chain.nonce {
        assert Listed(m[id], id, n, claims);
      }
    }
  }

  lemma CleanedStart(m: map<int, State>)
    ensures CleanedUpTo(m, m, [])
  {
  }

  lemma CleanedNext(m: map<int, State>, t: map<int, State>, claims: seq<Payment>, i: nat)
    requires i < |claims| && claims[i].channelID in m && CleanedUpTo(m, t, claims[..i])
    ensures CleanedUpTo(m, WithoutSettled(t, claims[i]), claims[..i + 1])
  {
    var u, c := WithoutSettled(t, claims[i]), claims[i];
    assert claims[..i + 1] == claims[..i] + [c];
    forall id | id in m ensures CleanedOf(m[id], u[id], id, claims[..i + 1]) {
      assert CleanedOf(m[id], t[id], id, claims[..i]);
      forall n ensures n in u[id].core.claims <==> n in m[id].core.claims && !Gone(m[id], id, claims[..i + 1], n) {
        assert Gone(m[id], id, claims[..i + 1], n)
          <==> Gone(m[id], id, claims[..i], n) || (n < m[id].core.chain.nonce && c.channelID == id && c.nonce == n) by {
          assert c in claims[..i + 1];
        }
      }
    }
  }
}
