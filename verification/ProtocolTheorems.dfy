/** What the payment-channel protocol guarantees over every run. */
module ProtocolTheorems {
  import opened Channel
  import opened Protocol

  ghost predicate Reachable(cfg: Config, s: State) {
    exists start, labels :: Init(start) && Run(cfg, start, labels) == s
  }

  lemma ReachableInv(cfg: Config, s: State)
    requires Reachable(cfg, s)
    ensures Inv(cfg, s)
  {
    var start, labels :| Init(start) && Run(cfg, start, labels) == s;
    InitInv(cfg, start);
    RunKeeps(cfg, start, labels);
  }

  /** Solvency. The stored nonce is never behind the chain; what is authorized is
      within the channel; and the chain covers every claim that was started and not yet
      settled on top of all that the record may still authorize. Claims whose second
      write was lost are included. */
  lemma Solvency(cfg: Config, start: State, labels: seq<Label>)
    requires Init(start)
    ensures
      var s := Run(cfg, start, labels);
      s.core.record.Some? ==>
        var r := s.core.record.value;
        && s.core.chain.nonce <= r.nonce
        && 0 <= r.authorizedAmount <= r.fullAmount
        && Total(s.hist.started, s.core.chain.nonce, r.nonce) + r.fullAmount <= s.core.chain.value
        && (forall n :: n in s.core.claims ==> n < r.nonce && s.core.claims[n].amount == AmountAt(s.hist.started, n))
  {
    InitInv(cfg, start);
    RunKeeps(cfg, start, labels);
    var s := Run(cfg, start, labels);
    forall n | n in s.core.claims ensures ClaimInv(cfg, s, n, s.core.claims[n]) {}
  }

  /** The ledger. In runs without token requests, the prices of the calls whose payment
      was written add up to all claims ever started plus what is still authorized. */
  lemma RevenueLedger(cfg: Config, start: State, labels: seq<Label>)
    requires Init(start)
    requires forall i :: 0 <= i < |labels| ==> !labels[i].TokenLoad?
    ensures
      var s := Run(cfg, start, labels);
      s.core.record.Some? ==>
        s.hist.callRevenue
          == Total(s.hist.started, s.hist.base, s.core.record.value.nonce) + s.core.record.value.authorizedAmount
  {
    InitInv(cfg, start);
    RunKeeps(cfg, start, labels);
    NoTokenRuns(cfg, start, labels);
  }

  predicate TokenPhase(pc: Pc) {
    || pc.TokenRead? || pc.TokenEligible?
    || (pc.PayLocked? && pc.purpose.Token?) || (pc.PayRead? && pc.purpose.Token?) || (pc.PayReady? && pc.purpose.Token?)
  }

  ghost predicate Tokenless(s: State) {
    && s.hist.tokenGrowth == 0
    && forall p :: p in s.core.procs ==> !TokenPhase(s.core.procs[p])
  }

  lemma {:induction false} NoTokenRuns(cfg: Config, s: State, labels: seq<Label>)
    requires Tokenless(s)
    requires forall i :: 0 <= i < |labels| ==> !labels[i].TokenLoad?
    ensures Tokenless(Run(cfg, s, labels))
    decreases |labels|
  {
    if labels != [] {
      NoTokenStep(cfg, s, labels[0]);
      NoTokenRuns(cfg, Next(cfg, s, labels[0]), labels[1..]);
    }
  }

  lemma NoTokenStep(cfg: Config, s: State, l: Label)
    requires Tokenless(s) && !l.TokenLoad?
    ensures Tokenless(Next(cfg, s, l))
  {
    var t := Next(cfg, s, l);
    forall q | q in t.core.procs ensures !TokenPhase(t.core.procs[q]) {
      assert q in s.core.procs && !TokenPhase(s.core.procs[q]);
    }
  }

  /** The merged channel in every reachable state. A stored record is never behind the
      chain, so the channel is the record; but when the two are at the same nonce, full
      amount and expiration are those of the chain, if the node knows the channel and it is
      the daemon's. Nothing else of the chain is taken over. */
  lemma RecordIsNeverBehind(cfg: Config, s: State, node: Node)
    requires Reachable(cfg, s) && s.core.record.Some?
    ensures
      var view, r, chain := View(cfg, s.core.record, Reply(s.core, node)), s.core.record.value, s.core.chain;
      && view.Channel? && chain.nonce <= r.nonce
      && var seen := node == NodeCurrent && chain.recipient == cfg.recipient && r.nonce == chain.nonce;
         && view.data.nonce == r.nonce && view.data.authorizedAmount == r.authorizedAmount
         && view.data.signature == r.signature && SameParties(r, view.data)
         && view.data.fullAmount == (if seen then chain.value else r.fullAmount) >= r.fullAmount
         && view.data.expiration == (if seen then chain.expiration else r.expiration) >= r.expiration
  {
    ReachableInv(cfg, s);
  }

  /** Without a record the channel is the chain's, with nothing authorized, if the node
      knows it and it is this group's; otherwise there is none. */
  lemma UnpaidChannelIsTheChains(cfg: Config, s: State, node: Node)
    requires s.core.record.None?
    ensures
      var view, chain := View(cfg, s.core.record, Reply(s.core, node)), s.core.chain;
      && (view.Missing? <==> node == NodeMissing)
      && (view.Channel? <==> node == NodeCurrent && chain.recipient == cfg.recipient && chain.groupID == cfg.groupID)
      && (view.Channel? ==>
            && view.data.channelID == cfg.id && view.data.nonce == chain.nonce && view.data.state == Open
            && view.data.sender == chain.sender && view.data.recipient == chain.recipient
            && view.data.groupID == chain.groupID && view.data.signer == chain.signer
            && view.data.fullAmount == chain.value && view.data.expiration == chain.expiration
            && view.data.authorizedAmount == 0 && view.data.signature.None?)
  {
  }

  /** Funds and extensions arrive: with no claim outstanding, the next payment is judged on
      the new amount and the new date. With one outstanding it is judged on the record. */
  lemma FundsAndExtensionsArrive(cfg: Config, s: State, amount: int, expiration: int)
    requires Reachable(cfg, s) && s.core.record.Some? && s.core.chain.recipient == cfg.recipient
    requires amount >= 0 && expiration >= s.core.chain.expiration
    ensures
      var t := Next(cfg, Next(cfg, s, AddFunds(amount)), Extend(expiration));
      var view, r := View(cfg, t.core.record, Found(t.core.chain)), s.core.record.value;
      && view.Channel?
      && (r.nonce == s.core.chain.nonce ==>
            view.data.fullAmount == s.core.chain.value + amount && view.data.expiration == expiration)
      && (r.nonce > s.core.chain.nonce ==> view.data == r)
  {
    ReachableInv(cfg, s);
  }

  // ---------------------------------------------------------------------------
  // Runs

  lemma RunOne(cfg: Config, s: State, l: Label)
    ensures Run(cfg, s, [l]) == Next(cfg, s, l)
  {
    assert [l][1..] == [];
  }

  lemma {:induction false} RunConcat(cfg: Config, s: State, a: seq<Label>, b: seq<Label>)
    ensures Run(cfg, s, a + b) == Run(cfg, Run(cfg, s, a), b)
    decreases |a|
  {
    if a == [] {
      assert a + b == b;
    } else {
      assert (a + b)[1..] == a[1..] + b;
      RunConcat(cfg, Next(cfg, s, a[0]), a[1..], b);
    }
  }

  lemma RunThen(cfg: Config, s: State, l: Label, rest: seq<Label>)
    ensures Run(cfg, s, [l] + rest) == Run(cfg, Next(cfg, s, l), rest)
  {
    assert ([l] + rest)[1..] == rest;
  }

  // What a payment needs and where it leads

  predicate IncomeExact(payment: Payment, purpose: Purpose, channel: ChannelData) {
    purpose.Call? ==> payment.amount - channel.authorizedAmount == purpose.price
  }

  function AfterRelease(payment: Payment, purpose: Purpose): Pc {
    if purpose.Token? then Planning(payment.amount - purpose.before) else Idle
  }
}
