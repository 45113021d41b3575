/** The payment-channel protocol on one channel: any number of daemon processes
    (paid calls, token requests, claims, clean-up of settled claims) interleaved with
    each other and with the chain at every read and write they make. */
module Protocol {
  import opened Wrappers
  import opened Channel
  import opened EtcdClient

  /** Why a payment is made: a call at a price, or a token request that saw the given
      authorized amount before it took the lock. */
  datatype Purpose = Call(price: int) | Token(before: int)

  /** Where a process is. */
  datatype Pc =
    | Idle
    | TokenRead(payment: Payment, stored: Option<ChannelData>)
    | TokenEligible(payment: Payment, before: int)
    | PayLocked(payment: Payment, purpose: Purpose)
    | PayRead(payment: Payment, purpose: Purpose, stored: Option<ChannelData>)
    | PayReady(payment: Payment, purpose: Purpose, channel: ChannelData)
    | ClaimLocked
    | ClaimRead(channel: ChannelData)
    | ClaimMoved(claim: Payment)
    | Releasing(plan: Option<int>)
    | Planning(amount: int)
    | Finishing(nonce: int)

  /** What exists: the chain, the stored record, the pending claims by nonce, the
      channel lock, and the processes. */
  datatype Core = Core(
    chain: ChainChannel,
    record: Option<ChannelData>,
    claims: map<int, Payment>,
    lock: Option<nat>,
    procs: map<nat, Pc>)

  /** What happened: the nonce the record began with, the amount of every claim ever
      started, the claims whose second write was lost, and three running totals. */
  datatype History = History(
    base: int,
    started: map<int, int>,
    lost: set<int>,
    callRevenue: int,
    tokenGrowth: int,
    planned: int)

  datatype State = State(core: Core, hist: History)

  /** What an Ethereum node answers when asked for the channel. */
  datatype Node = NodeError | NodeMissing | NodeCurrent

  datatype Label =
    | Acquire(p: nat, payment: Payment, price: int)
    | LockUnanswered(p: nat)
    | TokenLoad(p: nat, payment: Payment)
    | TokenCheck(p: nat, node: Node, block: Option<int>, authentic: bool)
    | TokenAcquire(p: nat)
    | LoadRecord(p: nat, fault: Fault)
    | CheckPayment(p: nat, node: Node, block: Option<int>)
    | CommitPayment(p: nat, fault: Fault)
    | RollbackPayment(p: nat)
    | Release(p: nat, fault: Fault)
    | Plan(p: nat, fault: Fault)
    | ClaimAcquire(p: nat)
    | ClaimLoad(p: nat, fault: Fault)
    | ClaimMove(p: nat, fault: Fault)
    | ClaimStore(p: nat, fault: Fault)
    | FinishCheck(p: nat, nonce: int)
    | FinishDelete(p: nat, fault: Fault)
    | AddFunds(amount: int)
    | Extend(expiration: int)
    | Settle(amount: int)

  function Reply(c: Core, node: Node): ChainReply {
    match node
    case NodeError => Unreachable
    case NodeMissing => NotFound
    case NodeCurrent => Found(c.chain)
  }

  /** The payment is addressed to this channel and contract. */
  predicate Addressed(cfg: Config, payment: Payment) {
    payment.channelID == cfg.id && payment.mpe == cfg.mpe && payment.signature.Some?
  }

  function Goto(c: Core, p: nat, pc: Pc): Core {
    c.(procs := c.procs[p := pc])
  }

  /** verifySignatureAndSignedAmountEligibility up to its lock. */
  function TokenVerdict(cfg: Config, pc: Pc, reply: ChainReply, block: Option<int>, authentic: bool): Pc
    requires pc.TokenRead?
  {
    var view := View(cfg, pc.stored, reply);
    if !view.Channel? then Idle
    else
      var channel, payment := view.data, pc.payment;
      if channel.authorizedAmount > payment.amount || channel.fullAmount < payment.amount || !authentic
         || Validate(cfg, payment, channel, block) != Accepted || payment.amount <= channel.authorizedAmount
      then Idle
      else TokenEligible(payment, channel.authorizedAmount)
  }

  /** StartPaymentTransaction after its lock, and for calls the exact income check. */
  function PaymentVerdict(cfg: Config, pc: Pc, reply: ChainReply, block: Option<int>): Pc
    requires pc.PayRead?
  {
    var view := View(cfg, pc.stored, reply);
    if !view.Channel? || Validate(cfg, pc.payment, view.data, block) != Accepted then Releasing(None)
    else if pc.purpose.Call? && pc.payment.amount - view.data.authorizedAmount != pc.purpose.price then Releasing(None)
    else PayReady(pc.payment, pc.purpose, view.data)
  }

  function AfterCommit(pc: Pc, fault: Fault): Pc
    requires pc.PayReady?
  {
    if fault == Delivered && pc.purpose.Token?
    then Releasing(Some(pc.payment.amount - pc.purpose.before)) else Releasing(None)
  }

  predicate At(c: Core, p: nat, pc: Pc) {
    p in c.procs && c.procs[p] == pc
  }

  /** One step of the things that exist; a label that does not apply changes nothing. */
  function NextCore(cfg: Config, c: Core, l: Label): Core {
    match l
    case Acquire(p, payment, price) =>
      if At(c, p, Idle) && c.lock.None? && Addressed(cfg, payment) && price >= 0
      then Goto(c, p, PayLocked(payment, Call(price))).(lock := Some(p)) else c
    case LockUnanswered(p) =>
      if (At(c, p, Idle) || (p in c.procs && c.procs[p].TokenEligible?)) && c.lock.None?
      then Goto(c, p, Idle).(lock := Some(p)) else c
    case TokenLoad(p, payment) =>
      if At(c, p, Idle) && Addressed(cfg, payment) && payment.amount >= 0
      then Goto(c, p, TokenRead(payment, c.record)) else c
    case TokenCheck(p, node, block, authentic) =>
      if p in c.procs && c.procs[p].TokenRead?
      then Goto(c, p, TokenVerdict(cfg, c.procs[p], Reply(c, node), block, authentic)) else c
    case TokenAcquire(p) =>
      if p in c.procs && c.procs[p].TokenEligible? then
        if c.lock.None?
        then Goto(c, p, PayLocked(c.procs[p].payment, Token(c.procs[p].before))).(lock := Some(p))
        else Goto(c, p, Idle)
      else c
    case LoadRecord(p, fault) =>
      if p in c.procs && c.procs[p].PayLocked?
      then Goto(c, p, if fault == Delivered then PayRead(c.procs[p].payment, c.procs[p].purpose, c.record)
                      else Releasing(None))
      else c
    case CheckPayment(p, node, block) =>
      if p in c.procs && c.procs[p].PayRead?
      then Goto(c, p, PaymentVerdict(cfg, c.procs[p], Reply(c, node), block)) else c
    case CommitPayment(p, fault) =>
      if p in c.procs && c.procs[p].PayReady? then
        var pc := c.procs[p];
        var c' := Goto(c, p, AfterCommit(pc, fault));
        if fault == LostRequest then c' else c'.(record := Some(Committed(pc.payment, pc.channel)))
      else c
    case RollbackPayment(p) =>
      if p in c.procs && c.procs[p].PayReady? && c.procs[p].purpose.Call? then Goto(c, p, Releasing(None)) else c
    case Release(p, fault) =>
      if p in c.procs && c.procs[p].Releasing? then
        var plan := c.procs[p].plan;
        var c' := Goto(c, p, if plan.Some? then Planning(plan.value) else Idle);
        if fault == LostRequest then c' else c'.(lock := None)
      else c
    case Plan(p, fault) =>
      if p in c.procs && c.procs[p].Planning? then Goto(c, p, Idle) else c
    case ClaimAcquire(p) =>
      if At(c, p, Idle) && c.lock.None? then Goto(c, p, ClaimLocked).(lock := Some(p)) else c
    case ClaimLoad(p, fault) =>
      if At(c, p, ClaimLocked)
      then Goto(c, p, if fault == Delivered && c.record.Some? then ClaimRead(c.record.value) else Releasing(None))
      else c
    case ClaimMove(p, fault) =>
      if p in c.procs && c.procs[p].ClaimRead? then
        var channel := c.procs[p].channel;
        var c' := Goto(c, p, if fault == Delivered then ClaimMoved(ClaimOf(channel)) else Releasing(None));
        if fault == LostRequest then c' else c'.(record := Some(IncrementNonce(channel)))
      else c
    case ClaimStore(p, fault) =>
      if p in c.procs && c.procs[p].ClaimMoved? then
        var claim := c.procs[p].claim;
        var c' := Goto(c, p, Releasing(None));
        if fault == LostRequest then c' else c'.(claims := c.claims[claim.nonce := claim])
      else c
    case FinishCheck(p, nonce) =>
      if At(c, p, Idle) && c.chain.nonce > nonce then Goto(c, p, Finishing(nonce)) else c
    case FinishDelete(p, fault) =>
      if p in c.procs && c.procs[p].Finishing? then
        var c' := Goto(c, p, Idle);
        if fault == LostRequest then c' else c'.(claims := c.claims - {c.procs[p].nonce})
      else c
    case AddFunds(amount) => if amount >= 0 then c.(chain := c.chain.(value := c.chain.value + amount)) else c
    case Extend(expiration) =>
      if expiration >= c.chain.expiration then c.(chain := c.chain.(expiration := expiration)) else c
    case Settle(amount) =>
      c.(chain := c.chain.(value := c.chain.value - amount, nonce := c.chain.nonce + 1))
  }

  function NextHistory(c: Core, h: History, l: Label): History {
    match l
    case CommitPayment(p, fault) =>
      if p in c.procs && c.procs[p].PayReady? && fault != LostRequest then
        var pc := c.procs[p];
        var h' := if c.record.None? then h.(base := pc.channel.nonce) else h;
        if pc.purpose.Call? then h'.(callRevenue := h.callRevenue + pc.purpose.price)
        else h'.(tokenGrowth := h.tokenGrowth + (pc.payment.amount - pc.channel.authorizedAmount))
      else h
    case ClaimMove(p, fault) =>
      if p in c.procs && c.procs[p].ClaimRead? && fault != LostRequest then
        var channel := c.procs[p].channel;
        h.(started := h.started[channel.nonce := channel.authorizedAmount],
           lost := if fault == LostReply then h.lost + {channel.nonce} else h.lost)
      else h
    case ClaimStore(p, fault) =>
      if p in c.procs && c.procs[p].ClaimMoved? && fault == LostRequest
      then h.(lost := h.lost + {c.procs[p].claim.nonce}) else h
    case Plan(p, fault) =>
      if p in c.procs && c.procs[p].Planning? && fault != LostRequest
      then h.(planned := h.planned + c.procs[p].amount) else h
    case _ => h
  }

  /** The assumption on the chain: what is settled at a nonce is a claim the daemon
      started at that nonce (whether or not its record was lost), for at most its
      signed amount, and without paying the rest back. */
  predicate Admissible(s: State, l: Label) {
    l.Settle? ==> s.core.chain.nonce in s.hist.started && 0 <= l.amount <= s.hist.started[s.core.chain.nonce]
  }

  function Next(cfg: Config, s: State, l: Label): State {
    if Admissible(s, l) then State(NextCore(cfg, s.core, l), NextHistory(s.core, s.hist, l)) else s
  }

  function Run(cfg: Config, s: State, labels: seq<Label>): State
    decreases |labels|
  {
    if labels == [] then s else Run(cfg, Next(cfg, s, labels[0]), labels[1..])
  }

  /** A channel nobody has paid on yet. */
  ghost predicate Init(s: State) {
    && s.core.chain.value >= 0
    && s.core.record.None? && s.core.claims == map[] && s.core.lock.None?
    && (forall p :: p in s.core.procs ==> s.core.procs[p] == Idle)
    && s.hist == History(s.core.chain.nonce, map[], {}, 0, 0, 0)
  }

  // ---------------------------------------------------------------------------
  // Sums over nonces

  function AmountAt(started: map<int, int>, n: int): int {
    if n in started then started[n] else 0
  }

  /** Total of the claims started at the nonces lo, lo + 1, ..., hi - 1. */
  function Total(started: map<int, int>, lo: int, hi: int): int
    decreases hi - lo
  {
    if hi <= lo then 0 else Total(started, lo, hi - 1) + AmountAt(started, hi - 1)
  }

  lemma {:induction false} TotalFirst(started: map<int, int>, lo: int, hi: int)
    requires lo < hi
    ensures Total(started, lo, hi) == AmountAt(started, lo) + Total(started, lo + 1, hi)
    decreases hi - lo
  {
    if lo < hi - 1 {
      TotalFirst(started, lo, hi - 1);
    }
  }

  lemma {:induction false} TotalUpdate(started: map<int, int>, n: int, v: int, lo: int, hi: int)
    requires n >= hi
    ensures Total(started[n := v], lo, hi) == Total(started, lo, hi)
    decreases hi - lo
  {
    if lo < hi {
      TotalUpdate(started, n, v, lo, hi - 1);
    }
  }

  lemma {:induction false} TotalNonNegative(started: map<int, int>, lo: int, hi: int)
    requires forall n :: n in started ==> started[n] >= 0
    ensures Total(started, lo, hi) >= 0
    decreases hi - lo
  {
    if lo < hi {
      TotalNonNegative(started, lo, hi - 1);
    }
  }

  // ---------------------------------------------------------------------------
  // The invariant

  /** The claim at nonce n has been moved out of the record and is about to be stored. */
  predicate InFlight(c: Core, n: int) {
    && c.lock.Some? && c.lock.value in c.procs
    && c.procs[c.lock.value].ClaimMoved? && c.procs[c.lock.value].claim.nonce == n
  }

  /** Money: all started and unsettled claims together with everything the record may
      still authorize are covered by what the chain holds. */
  ghost predicate Solvent(chain: ChainChannel, started: map<int, int>, nonce: int, full: int) {
    chain.nonce <= nonce && Total(started, chain.nonce, nonce) + full <= chain.value
  }

  ghost predicate RecordInv(cfg: Config, s: State) {
    var chain, h := s.core.chain, s.hist;
    match s.core.record
    case None =>
      h.started == map[] && s.core.claims == map[] && h.lost == {} && h.callRevenue == 0 && h.tokenGrowth == 0
    case Some(r) =>
      && r.channelID == cfg.id && r.signer == chain.signer && r.sender == chain.sender
      && r.expiration <= chain.expiration
      && h.base <= chain.nonce
      && 0 <= r.authorizedAmount <= r.fullAmount
      && Solvent(chain, h.started, r.nonce, r.fullAmount)
      && (forall n :: n in h.started <==> h.base <= n < r.nonce)
      && Collectable(cfg, r.signer, r.sender, r.nonce, r.authorizedAmount, r.signature)
  }

  /** Revenue: everything calls and tokens ever added is either in a started claim or
      still authorized. */
  ghost predicate LedgerInv(s: State) {
    s.core.record.Some? ==>
      s.hist.callRevenue + s.hist.tokenGrowth
        == Total(s.hist.started, s.hist.base, s.core.record.value.nonce) + s.core.record.value.authorizedAmount
  }

  ghost predicate ClaimInv(cfg: Config, s: State, n: int, claim: Payment) {
    && n in s.hist.started && claim.nonce == n && claim.amount == s.hist.started[n] && claim.channelID == cfg.id
    && Collectable(cfg, s.core.chain.signer, s.core.chain.sender, n, claim.amount, claim.signature)
  }

  ghost predicate ClaimsInv(cfg: Config, s: State) {
    && (forall n :: n in s.hist.started ==> s.hist.started[n] >= 0)
    && (forall n :: n in s.core.claims ==> ClaimInv(cfg, s, n, s.core.claims[n]))
    && (forall n :: n in s.hist.started && s.core.chain.nonce <= n ==>
          n in s.core.claims || n in s.hist.lost || InFlight(s.core, n))
  }

  function StoredNonce(c: Core): int {
    if c.record.Some? then c.record.value.nonce else c.chain.nonce
  }

  /** The channel a process validated against is still the channel. */
  ghost predicate Agrees(cfg: Config, s: State, channel: ChannelData) {
    && channel.channelID == cfg.id
    && channel.signer == s.core.chain.signer && channel.sender == s.core.chain.sender
    && channel.expiration <= s.core.chain.expiration
    && channel.nonce == StoredNonce(s.core)
    && Solvent(s.core.chain, s.hist.started, channel.nonce, channel.fullAmount)
    && match s.core.record
       case None => channel.authorizedAmount == 0
       case Some(r) => channel.authorizedAmount == r.authorizedAmount
  }

  ghost predicate PurposeInv(payment: Payment, purpose: Purpose) {
    match purpose
    case Call(price) => price >= 0
    case Token(before) => payment.amount >= 0 && before < payment.amount
  }

  ghost predicate PcInv(cfg: Config, s: State, p: nat, pc: Pc) {
    var holds := s.core.lock == Some(p);
    match pc
    case Idle => true
    case TokenRead(payment, _) => Addressed(cfg, payment) && payment.amount >= 0
    case TokenEligible(payment, before) => Addressed(cfg, payment) && payment.amount >= 0 && before < payment.amount
    case PayLocked(payment, purpose) => holds && Addressed(cfg, payment) && PurposeInv(payment, purpose)
    case PayRead(payment, purpose, stored) =>
      holds && Addressed(cfg, payment) && PurposeInv(payment, purpose) && stored == s.core.record
    case PayReady(payment, purpose, channel) =>
      && holds && Addressed(cfg, payment) && PurposeInv(payment, purpose) && Agrees(cfg, s, channel)
      && payment.nonce == channel.nonce && 0 <= payment.amount <= channel.fullAmount
      && (purpose.Call? ==> payment.amount == channel.authorizedAmount + purpose.price)
      && Collectable(cfg, channel.signer, channel.sender, channel.nonce, payment.amount, payment.signature)
    case ClaimLocked => holds
    case ClaimRead(channel) => holds && s.core.record == Some(channel)
    case ClaimMoved(claim) => holds && ClaimInv(cfg, s, claim.nonce, claim)
    case Releasing(plan) => holds && (plan.Some? ==> plan.value > 0)
    case Planning(amount) => amount > 0
    case Finishing(nonce) => nonce < s.core.chain.nonce
  }

  ghost predicate ProcsInv(cfg: Config, s: State) {
    forall p :: p in s.core.procs ==> PcInv(cfg, s, p, s.core.procs[p])
  }

  ghost predicate Inv(cfg: Config, s: State) {
    && RecordInv(cfg, s) && LedgerInv(s) && ClaimsInv(cfg, s) && ProcsInv(cfg, s)
    && s.core.chain.value >= 0
  }

  // ---------------------------------------------------------------------------
  // Every step keeps it

  /** Steps that start no claim: recorded claims may only go away once settled. */
  lemma ClaimsKept(cfg: Config, s: State, t: State)
    requires ClaimsInv(cfg, s)
    requires t.hist.started == s.hist.started && t.hist.lost >= s.hist.lost
    requires t.core.chain.signer == s.core.chain.signer && t.core.chain.sender == s.core.chain.sender
    requires t.core.chain.nonce >= s.core.chain.nonce
    requires forall n :: n in t.core.claims ==> n in s.core.claims && t.core.claims[n] == s.core.claims[n]
    requires forall n :: n in s.core.claims && t.core.chain.nonce <= n ==> n in t.core.claims
    requires forall n :: InFlight(s.core, n) ==> InFlight(t.core, n)
    ensures ClaimsInv(cfg, t)
  {
    forall n | n in t.core.claims ensures ClaimInv(cfg, t, n, t.core.claims[n]) {
      assert ClaimInv(cfg, s, n, s.core.claims[n]);
    }
  }

  /** Whoever does not hold the lock is not disturbed by the holder's writes. */
  lemma OthersUndisturbed(cfg: Config, s: State, t: State, p: nat)
    requires ProcsInv(cfg, s)
    requires s.core.lock.None? || s.core.lock == Some(p)
    requires t.core.lock.None? || t.core.lock == Some(p)
    requires s.core.chain == t.core.chain
    requires t.core.procs.Keys == s.core.procs.Keys
    requires forall q :: q in s.core.procs && q != p ==> t.core.procs[q] == s.core.procs[q]
    requires p in t.core.procs ==> PcInv(cfg, t, p, t.core.procs[p])
    ensures ProcsInv(cfg, t)
  {
    forall q | q in t.core.procs ensures PcInv(cfg, t, q, t.core.procs[q]) {
      if q != p {
        assert PcInv(cfg, s, q, s.core.procs[q]);
      }
    }
  }

  /** A step that only moves process p, without touching lock, stores or chain. */
  lemma OnlyMoves(cfg: Config, s: State, t: State, p: nat, pc: Pc)
    requires Inv(cfg, s) && p in s.core.procs
    requires t == s.(core := Goto(s.core, p, pc))
    requires PcInv(cfg, t, p, pc)
    requires !s.core.procs[p].ClaimMoved?
    ensures Inv(cfg, t)
  {
    forall q | q in t.core.procs ensures PcInv(cfg, t, q, t.core.procs[q]) {
      if q != p {
        assert PcInv(cfg, s, q, s.core.procs[q]);
      }
    }
    ClaimsKept(cfg, s, t);
  }

  /** What the merged view of record and chain is, while the record stands still. */
  lemma ViewAgrees(cfg: Config, s: State, reply: ChainReply)
    requires Inv(cfg, s)
    requires reply.Found? ==> reply.chain == s.core.chain
    ensures
      var view := View(cfg, s.core.record, reply);
      view.Channel? ==> Agrees(cfg, s, view.data) && view.data.authorizedAmount >= 0
  {
  }

  lemma AcquireStep(cfg: Config, s: State, l: Label)
    requires Inv(cfg, s) && (l.Acquire? || l.LockUnanswered? || l.TokenAcquire? || l.ClaimAcquire?)
    ensures Inv(cfg, Next(cfg, s, l))
  {
    var t := Next(cfg, s, l);
    if t.core.lock != s.core.lock {
      assert PcInv(cfg, s, l.p, s.core.procs[l.p]);
      OthersUndisturbed(cfg, s, t, l.p);
      ClaimsKept(cfg, s, t);
    } else if t != s {
      OnlyMoves(cfg, s, t, l.p, Idle);
    }
  }

  /** Steps that only read take their process where its promise still holds. */
  lemma TokenReadStep(cfg: Config, s: State, l: Label)
    requires Inv(cfg, s) && (l.TokenLoad? || l.TokenCheck?)
    ensures Inv(cfg, Next(cfg, s, l))
  {
    var t := Next(cfg, s, l);
    if t != s {
      assert PcInv(cfg, s, l.p, s.core.procs[l.p]);
      OnlyMoves(cfg, s, t, l.p, t.core.procs[l.p]);
    }
  }

  lemma CheckStep(cfg: Config, s: State, p: nat, node: Node, block: Option<int>)
    requires Inv(cfg, s)
    ensures Inv(cfg, Next(cfg, s, CheckPayment(p, node, block)))
  {
    var t := Next(cfg, s, CheckPayment(p, node, block));
    if t != s {
      assert PcInv(cfg, s, p, s.core.procs[p]);
      ViewAgrees(cfg, s, Reply(s.core, node));
      OnlyMoves(cfg, s, t, p, t.core.procs[p]);
    }
  }

  lemma LoadStep(cfg: Config, s: State, l: Label)
    requires Inv(cfg, s) && (l.LoadRecord? || l.RollbackPayment? || l.ClaimLoad? || l.FinishCheck?)
    ensures Inv(cfg, Next(cfg, s, l))
  {
    var t := Next(cfg, s, l);
    if t != s {
      assert PcInv(cfg, s, l.p, s.core.procs[l.p]);
      OnlyMoves(cfg, s, t, l.p, t.core.procs[l.p]);
    }
  }

  /** A payment becomes the record: the books stay balanced. */
  lemma CommitRecord(cfg: Config, s: State, p: nat, fault: Fault)
    requires Inv(cfg, s) && p in s.core.procs && s.core.procs[p].PayReady? && fault != LostRequest
    ensures
      var t := Next(cfg, s, CommitPayment(p, fault));
      RecordInv(cfg, t) && LedgerInv(t)
  {
    assert PcInv(cfg, s, p, s.core.procs[p]);
  }

  lemma CommitStep(cfg: Config, s: State, p: nat, fault: Fault)
    requires Inv(cfg, s)
    ensures Inv(cfg, Next(cfg, s, CommitPayment(p, fault)))
  {
    var t := Next(cfg, s, CommitPayment(p, fault));
    if p in s.core.procs && s.core.procs[p].PayReady? {
      assert PcInv(cfg, s, p, s.core.procs[p]);
      if fault == LostRequest {
        OnlyMoves(cfg, s, t, p, t.core.procs[p]);
      } else {
        CommitRecord(cfg, s, p, fault);
        OthersUndisturbed(cfg, s, t, p);
        ClaimsKept(cfg, s, t);
      }
    }
  }

  lemma ReleaseStep(cfg: Config, s: State, p: nat, fault: Fault)
    requires Inv(cfg, s)
    ensures Inv(cfg, Next(cfg, s, Release(p, fault)))
  {
    var t := Next(cfg, s, Release(p, fault));
    if t != s {
      assert PcInv(cfg, s, p, s.core.procs[p]);
      OthersUndisturbed(cfg, s, t, p);
      ClaimsKept(cfg, s, t);
    }
  }

  /** No process's promise speaks of the recorded claims or of the running totals. */
  lemma ProcsFrame(cfg: Config, s: State, t: State)
    requires ProcsInv(cfg, s)
    requires t.core == s.core.(claims := t.core.claims)
    requires t.hist.started == s.hist.started
    ensures ProcsInv(cfg, t)
  {
    forall q | q in t.core.procs ensures PcInv(cfg, t, q, t.core.procs[q]) {
      assert PcInv(cfg, s, q, s.core.procs[q]);
    }
  }

  lemma PlanStep(cfg: Config, s: State, p: nat, fault: Fault)
    requires Inv(cfg, s)
    ensures Inv(cfg, Next(cfg, s, Plan(p, fault)))
  {
    var t := Next(cfg, s, Plan(p, fault));
    if t != s {
      var u := s.(core := Goto(s.core, p, Idle));
      OnlyMoves(cfg, s, u, p, Idle);
      ProcsFrame(cfg, u, t);
      ClaimsKept(cfg, u, t);
    }
  }

  lemma TotalExtend(started: map<int, int>, lo: int, n: int, v: int)
    requires lo <= n
    ensures Total(started[n := v], lo, n + 1) == Total(started, lo, n) + v
  {
    TotalUpdate(started, n, v, lo, n);
    assert AmountAt(started[n := v], n) == v;
  }

  /** Bumping the nonce moves the authorized amount from the record into a claim. */
  lemma MoveRecord(cfg: Config, s: State, t: State, r: ChannelData)
    requires RecordInv(cfg, s) && LedgerInv(s) && s.core.record == Some(r)
    requires t.core.chain == s.core.chain && t.core.record == Some(IncrementNonce(r))
    requires t.hist.(lost := s.hist.lost) == s.hist.(started := s.hist.started[r.nonce := r.authorizedAmount])
    ensures RecordInv(cfg, t) && LedgerInv(t)
  {
    TotalExtend(s.hist.started, s.core.chain.nonce, r.nonce, r.authorizedAmount);
    TotalExtend(s.hist.started, s.hist.base, r.nonce, r.authorizedAmount);
  }

  lemma MoveClaims(cfg: Config, s: State, t: State, r: ChannelData, p: nat, fault: Fault)
    requires RecordInv(cfg, s) && ClaimsInv(cfg, s) && s.core.record == Some(r) && fault != LostRequest
    requires p in s.core.procs && s.core.procs[p] == ClaimRead(r) && s.core.lock == Some(p)
    requires t == Next(cfg, s, ClaimMove(p, fault))
    ensures ClaimsInv(cfg, t)
  {
    forall n | n in t.core.claims ensures ClaimInv(cfg, t, n, t.core.claims[n]) {
      assert ClaimInv(cfg, s, n, s.core.claims[n]);
    }
    assert forall n :: !InFlight(s.core, n);
    assert fault == Delivered ==> InFlight(t.core, r.nonce);
  }

  lemma MoveStep(cfg: Config, s: State, p: nat, fault: Fault)
    requires Inv(cfg, s)
    ensures Inv(cfg, Next(cfg, s, ClaimMove(p, fault)))
  {
    var t := Next(cfg, s, ClaimMove(p, fault));
    if p in s.core.procs && s.core.procs[p].ClaimRead? {
      assert PcInv(cfg, s, p, s.core.procs[p]);
      if fault == LostRequest {
        OnlyMoves(cfg, s, t, p, t.core.procs[p]);
      } else {
        MoveRecord(cfg, s, t, s.core.procs[p].channel);
        MoveClaims(cfg, s, t, s.core.procs[p].channel, p, fault);
        OthersUndisturbed(cfg, s, t, p);
      }
    }
  }

  lemma StoreClaims(cfg: Config, s: State, p: nat, fault: Fault)
    requires Inv(cfg, s) && p in s.core.procs && s.core.procs[p].ClaimMoved?
    ensures ClaimsInv(cfg, Next(cfg, s, ClaimStore(p, fault)))
  {
    var t := Next(cfg, s, ClaimStore(p, fault));
    assert PcInv(cfg, s, p, s.core.procs[p]);
    var n := s.core.procs[p].claim.nonce;
    assert forall m :: m in s.core.claims ==> ClaimInv(cfg, s, m, s.core.claims[m]);
    assert forall m :: m in t.core.claims ==> ClaimInv(cfg, t, m, t.core.claims[m]);
    assert forall m :: InFlight(s.core, m) ==> m == n;
  }

  lemma StoreStep(cfg: Config, s: State, p: nat, fault: Fault)
    requires Inv(cfg, s)
    ensures Inv(cfg, Next(cfg, s, ClaimStore(p, fault)))
  {
    var t := Next(cfg, s, ClaimStore(p, fault));
    if p in s.core.procs && s.core.procs[p].ClaimMoved? {
      assert PcInv(cfg, s, p, s.core.procs[p]);
      OthersUndisturbed(cfg, s, t, p);
      StoreClaims(cfg, s, p, fault);
    }
  }

  lemma FinishStep(cfg: Config, s: State, p: nat, fault: Fault)
    requires Inv(cfg, s)
    ensures Inv(cfg, Next(cfg, s, FinishDelete(p, fault)))
  {
    var t := Next(cfg, s, FinishDelete(p, fault));
    if p in s.core.procs && s.core.procs[p].Finishing? {
      assert PcInv(cfg, s, p, s.core.procs[p]);
      var u := s.(core := Goto(s.core, p, Idle));
      OnlyMoves(cfg, s, u, p, Idle);
      ProcsFrame(cfg, u, t);
      ClaimsKept(cfg, u, t);
    }
  }

  /** Payments in the middle of a step survive what the chain does meanwhile. */
  lemma ChainKeepsProcs(cfg: Config, s: State, t: State)
    requires ProcsInv(cfg, s)
    requires t == s.(core := s.core.(chain := t.core.chain))
    requires t.core.chain.signer == s.core.chain.signer && t.core.chain.sender == s.core.chain.sender
    requires t.core.chain.nonce >= s.core.chain.nonce && t.core.chain.expiration >= s.core.chain.expiration
    requires s.core.record.None? ==> t.core.chain.nonce == s.core.chain.nonce
    requires forall full :: Solvent(s.core.chain, s.hist.started, StoredNonce(s.core), full)
                        ==> Solvent(t.core.chain, t.hist.started, StoredNonce(s.core), full)
    ensures ProcsInv(cfg, t)
  {
    forall q | q in t.core.procs ensures PcInv(cfg, t, q, t.core.procs[q]) {
      assert PcInv(cfg, s, q, s.core.procs[q]);
    }
  }

  lemma FundsStep(cfg: Config, s: State, l: Label)
    requires Inv(cfg, s) && (l.AddFunds? || l.Extend?)
    ensures Inv(cfg, Next(cfg, s, l))
  {
    var t := Next(cfg, s, l);
    ChainKeepsProcs(cfg, s, t);
    ClaimsKept(cfg, s, t);
  }

  lemma SettleStep(cfg: Config, s: State, amount: int)
    requires Inv(cfg, s) && Admissible(s, Settle(amount))
    ensures Inv(cfg, Next(cfg, s, Settle(amount)))
  {
    var t, r := Next(cfg, s, Settle(amount)), s.core.record.value;
    TotalFirst(s.hist.started, s.core.chain.nonce, r.nonce);
    TotalNonNegative(s.hist.started, t.core.chain.nonce, r.nonce);
    ChainKeepsProcs(cfg, s, t);
    ClaimsKept(cfg, s, t);
  }

  lemma StepKeeps(cfg: Config, s: State, l: Label)
    requires Inv(cfg, s)
    ensures Inv(cfg, Next(cfg, s, l))
  {
    match l
    case Acquire(_, _, _) => AcquireStep(cfg, s, l);
    case LockUnanswered(_) => AcquireStep(cfg, s, l);
    case TokenAcquire(_) => AcquireStep(cfg, s, l);
    case ClaimAcquire(_) => AcquireStep(cfg, s, l);
    case CommitPayment(p, fault) => CommitStep(cfg, s, p, fault);
    case Release(p, fault) => ReleaseStep(cfg, s, p, fault);
    case Plan(p, fault) => PlanStep(cfg, s, p, fault);
    case ClaimMove(p, fault) => MoveStep(cfg, s, p, fault);
    case ClaimStore(p, fault) => StoreStep(cfg, s, p, fault);
    case FinishDelete(p, fault) => FinishStep(cfg, s, p, fault);
    case AddFunds(_) => FundsStep(cfg, s, l);
    case Extend(_) => FundsStep(cfg, s, l);
    case Settle(amount) => if Admissible(s, l) { SettleStep(cfg, s, amount); }
    case CheckPayment(p, node, block) => CheckStep(cfg, s, p, node, block);
    case TokenLoad(_, _) => TokenReadStep(cfg, s, l);
    case TokenCheck(_, _, _, _) => TokenReadStep(cfg, s, l);
    case _ => LoadStep(cfg, s, l);
  }

  lemma {:induction false} RunKeeps(cfg: Config, s: State, labels: seq<Label>)
    requires Inv(cfg, s)
    ensures Inv(cfg, Run(cfg, s, labels))
    decreases |labels|
  {
    if labels != [] {
      StepKeeps(cfg, s, labels[0]);
      RunKeeps(cfg, Next(cfg, s, labels[0]), labels[1..]);
    }
  }

  lemma InitInv(cfg: Config, s: State)
    requires Init(s)
    ensures Inv(cfg, s)
  {
  }
}
