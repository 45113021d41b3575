/** Claims over every run: when they are on record, when they go, and what a caller who
    asks for the state of a channel is told about them. */
module ClaimTheorems {
  import opened Wrappers
  import opened Channel
  import opened EtcdClient
  import opened Protocol
  import opened ProtocolTheorems

  /** A claim that was lost or is on its way is not on record. */
  ghost predicate Exclusive(s: State) {
    && (forall n :: n in s.hist.lost ==> n in s.hist.started && n !in s.core.claims)
    && (forall n :: InFlight(s.core, n) ==> n !in s.core.claims && n !in s.hist.lost)
  }

  lemma ExclusiveMove(cfg: Config, s: State, p: nat, fault: Fault)
    requires Inv(cfg, s) && Exclusive(s) && p in s.core.procs && s.core.procs[p].ClaimRead?
    ensures Exclusive(Next(cfg, s, ClaimMove(p, fault)))
  {
    assert PcInv(cfg, s, p, s.core.procs[p]);
    var n := s.core.procs[p].channel.nonce;
    assert n !in s.hist.started;
    assert n in s.core.claims ==> ClaimInv(cfg, s, n, s.core.claims[n]);
  }

  lemma ExclusiveStore(cfg: Config, s: State, p: nat, fault: Fault)
    requires Inv(cfg, s) && Exclusive(s) && p in s.core.procs && s.core.procs[p].ClaimMoved?
    ensures Exclusive(Next(cfg, s, ClaimStore(p, fault)))
  {
    assert PcInv(cfg, s, p, s.core.procs[p]);
    assert InFlight(s.core, s.core.procs[p].claim.nonce);
    assert forall n :: !InFlight(Next(cfg, s, ClaimStore(p, fault)).core, n);
  }

  /** The other steps lose no claim, and at most take some off the record. */
  lemma ExclusiveOtherwise(cfg: Config, s: State, l: Label)
    requires !(l.ClaimMove? && l.p in s.core.procs && s.core.procs[l.p].ClaimRead?)
    requires !(l.ClaimStore? && l.p in s.core.procs && s.core.procs[l.p].ClaimMoved?)
    ensures
      var t := Next(cfg, s, l);
      t.hist.lost == s.hist.lost && t.hist.started == s.hist.started && t.core.claims.Keys <= s.core.claims.Keys
  {
  }

  lemma ExclusiveStep(cfg: Config, s: State, l: Label)
    requires Inv(cfg, s) && Exclusive(s)
    ensures Exclusive(Next(cfg, s, l))
  {
    if l.ClaimMove? && l.p in s.core.procs && s.core.procs[l.p].ClaimRead? {
      ExclusiveMove(cfg, s, l.p, l.fault);
    } else if l.ClaimStore? && l.p in s.core.procs && s.core.procs[l.p].ClaimMoved? {
      ExclusiveStore(cfg, s, l.p, l.fault);
    } else {
      OthersInFlight(cfg, s, l);
      ExclusiveOtherwise(cfg, s, l);
    }
  }

  lemma OnlyMovesMove(cfg: Config, c: Core, l: Label, q: nat)
    requires !(l.ClaimMove? && l.p in c.procs && c.procs[l.p].ClaimRead?)
    requires q in NextCore(cfg, c, l).procs && NextCore(cfg, c, l).procs[q].ClaimMoved?
    ensures q in c.procs && c.procs[q] == NextCore(cfg, c, l).procs[q]
  {
  }

  /** Only the move of a record puts a claim on its way. */
  lemma OthersInFlight(cfg: Config, s: State, l: Label)
    requires Inv(cfg, s)
    requires !(l.ClaimMove? && l.p in s.core.procs && s.core.procs[l.p].ClaimRead?)
    ensures forall n :: InFlight(Next(cfg, s, l).core, n) ==> InFlight(s.core, n)
  {
    var t := Next(cfg, s, l);
    forall n | InFlight(t.core, n) ensures InFlight(s.core, n) {
      var q := t.core.lock.value;
      if Admissible(s, l) {
        OnlyMovesMove(cfg, s.core, l, q);
      }
      assert PcInv(cfg, s, q, s.core.procs[q]);
    }
  }

  lemma {:induction false} ExclusiveRun(cfg: Config, s: State, labels: seq<Label>)
    requires Inv(cfg, s) && Exclusive(s)
    ensures Exclusive(Run(cfg, s, labels))
    decreases |labels|
  {
    if labels != [] {
      StepKeeps(cfg, s, labels[0]);
      ExclusiveStep(cfg, s, labels[0]);
      ExclusiveRun(cfg, Next(cfg, s, labels[0]), labels[1..]);
    }
  }

  lemma ReachableExclusive(cfg: Config, s: State)
    requires Reachable(cfg, s)
    ensures Inv(cfg, s) && Exclusive(s)
  {
    ReachableInv(cfg, s);
    var start, labels :| Init(start) && Run(cfg, start, labels) == s;
    InitInv(cfg, start);
    ExclusiveRun(cfg, start, labels);
  }

  /** A started claim that the chain has not settled is on record exactly when its loss was
      not reported and it is not about to be written; and what is on record is signed for
      exactly its nonce and amount. */
  lemma ClaimLifeCycle(cfg: Config, s: State, n: int)
    requires Reachable(cfg, s) && s.core.record.Some?
    requires s.core.chain.nonce <= n < s.core.record.value.nonce
    ensures n in s.core.claims <==> n !in s.hist.lost && !InFlight(s.core, n)
    ensures n in s.core.claims ==>
      var claim := s.core.claims[n];
      && n in s.hist.started && claim.amount == s.hist.started[n]
      && Collectable(cfg, s.core.chain.signer, s.core.chain.sender, n, claim.amount, claim.signature)
  {
    ReachableExclusive(cfg, s);
    assert n in s.core.claims ==> ClaimInv(cfg, s, n, s.core.claims[n]);
  }

  /** The claim was started and is neither on record nor on its way. */
  ghost predicate Removed(s: State, n: int) {
    n in s.hist.started && n !in s.core.claims && !InFlight(s.core, n)
  }

  /** What every step does to claims: it never undoes a start, never changes a claim on
      record, takes it away only when the chain has settled it, and never brings it back. */
  ghost predicate Onward(s: State, t: State) {
    && s.core.chain.nonce <= t.core.chain.nonce
    && (forall n :: n in s.hist.started ==> n in t.hist.started && t.hist.started[n] == s.hist.started[n])
    && (forall n :: n in s.core.claims ==>
          n < t.core.chain.nonce || (n in t.core.claims && t.core.claims[n] == s.core.claims[n]))
    && (forall n :: Removed(s, n) ==> Removed(t, n))
    && (forall n :: n in s.core.claims ==> n in t.core.claims || Removed(t, n))
  }

  lemma RecordedIsStarted(cfg: Config, s: State, n: int)
    requires Inv(cfg, s) && n in s.core.claims
    ensures n in s.hist.started
  {
    assert ClaimInv(cfg, s, n, s.core.claims[n]);
  }

  lemma OnwardMove(cfg: Config, s: State, p: nat, fault: Fault)
    requires Inv(cfg, s) && p in s.core.procs && s.core.procs[p].ClaimRead?
    ensures Onward(s, Next(cfg, s, ClaimMove(p, fault)))
  {
    var t := Next(cfg, s, ClaimMove(p, fault));
    assert PcInv(cfg, s, p, s.core.procs[p]);
    assert forall n :: InFlight(t.core, n) ==> n !in s.hist.started;
  }

  lemma OnwardStore(cfg: Config, s: State, p: nat, fault: Fault)
    requires Inv(cfg, s) && Exclusive(s) && p in s.core.procs && s.core.procs[p].ClaimMoved?
    ensures Onward(s, Next(cfg, s, ClaimStore(p, fault)))
  {
    var t := Next(cfg, s, ClaimStore(p, fault));
    assert PcInv(cfg, s, p, s.core.procs[p]);
    assert InFlight(s.core, s.core.procs[p].claim.nonce);
    assert forall n :: !InFlight(t.core, n);
  }

  lemma OnwardDelete(cfg: Config, s: State, p: nat, fault: Fault)
    requires Inv(cfg, s) && Exclusive(s) && p in s.core.procs && s.core.procs[p].Finishing?
    ensures Onward(s, Next(cfg, s, FinishDelete(p, fault)))
  {
    var t := Next(cfg, s, FinishDelete(p, fault));
    assert PcInv(cfg, s, p, s.core.procs[p]);
    OthersInFlight(cfg, s, FinishDelete(p, fault));
    forall n | n in s.core.claims ensures n in t.core.claims || Removed(t, n) {
      RecordedIsStarted(cfg, s, n);
    }
  }

  lemma OnwardQuiet(s: State, t: State)
    requires s.core.chain.nonce <= t.core.chain.nonce
    requires t.core.claims == s.core.claims && t.hist.started == s.hist.started
    requires forall n :: InFlight(t.core, n) ==> InFlight(s.core, n)
    ensures Onward(s, t)
  {
  }

  /** Claims are touched by three steps only. */
  lemma QuietSteps(cfg: Config, s: State, l: Label)
    requires !(l.ClaimMove? && l.p in s.core.procs && s.core.procs[l.p].ClaimRead?)
    requires !(l.ClaimStore? && l.p in s.core.procs && s.core.procs[l.p].ClaimMoved?)
    requires !(l.FinishDelete? && l.p in s.core.procs && s.core.procs[l.p].Finishing?)
    ensures
      var t := Next(cfg, s, l);
      s.core.chain.nonce <= t.core.chain.nonce && t.core.claims == s.core.claims && t.hist.started == s.hist.started
  {
  }

  lemma OnwardStep(cfg: Config, s: State, l: Label)
    requires Inv(cfg, s) && Exclusive(s)
    ensures Onward(s, Next(cfg, s, l))
  {
    if l.ClaimMove? && l.p in s.core.procs && s.core.procs[l.p].ClaimRead? {
      OnwardMove(cfg, s, l.p, l.fault);
    } else if l.ClaimStore? && l.p in s.core.procs && s.core.procs[l.p].ClaimMoved? {
      OnwardStore(cfg, s, l.p, l.fault);
    } else if l.FinishDelete? && l.p in s.core.procs && s.core.procs[l.p].Finishing? {
      OnwardDelete(cfg, s, l.p, l.fault);
    } else {
      QuietSteps(cfg, s, l);
      OthersInFlight(cfg, s, l);
      OnwardQuiet(s, Next(cfg, s, l));
    }
  }

  lemma OnwardTransitive(s: State, t: State, u: State)
    requires Onward(s, t) && Onward(t, u)
    ensures Onward(s, u)
  {
  }

  lemma {:induction false} OnwardRun(cfg: Config, s: State, labels: seq<Label>)
    requires Inv(cfg, s) && Exclusive(s)
    ensures Onward(s, Run(cfg, s, labels))
    decreases |labels|
  {
    if labels != [] {
      var t := Next(cfg, s, labels[0]);
      StepKeeps(cfg, s, labels[0]);
      ExclusiveStep(cfg, s, labels[0]);
      OnwardStep(cfg, s, labels[0]);
      OnwardRun(cfg, t, labels[1..]);
      OnwardTransitive(s, t, Run(cfg, t, labels[1..]));
    }
  }

  /** Clean-up removes settled claims only. */
  lemma OnlySettledClaimsAreRemoved(cfg: Config, s: State, l: Label, n: int)
    requires Reachable(cfg, s)
    requires n in s.core.claims && n !in Next(cfg, s, l).core.claims
    ensures l.FinishDelete? && n < s.core.chain.nonce
  {
    ReachableInv(cfg, s);
    assert l.FinishDelete?;
    assert PcInv(cfg, s, l.p, s.core.procs[l.p]);
  }

  /** Settling everything that is outstanding, in nonce order. */
  function SettleLabels(started: map<int, int>, lo: int, hi: int): seq<Label>
    decreases hi - lo
  {
    if hi <= lo then [] else [Settle(AmountAt(started, lo))] + SettleLabels(started, lo + 1, hi)
  }

  /** The provider can always collect: from every reachable state the outstanding claims
      can all be settled in full, and what remains on the chain still covers the record. */
  lemma OutstandingClaimsCanBeCollected(cfg: Config, s: State)
    requires Inv(cfg, s) && s.core.record.Some?
    ensures
      var r := s.core.record.value;
      var t := Run(cfg, s, SettleLabels(s.hist.started, s.core.chain.nonce, r.nonce));
      && t == s.(core := s.core.(chain := t.core.chain))
      && t.core.chain.nonce == r.nonce
      && t.core.chain.value == s.core.chain.value - Total(s.hist.started, s.core.chain.nonce, r.nonce)
      && t.core.chain.value >= r.fullAmount
    decreases s.core.record.value.nonce - s.core.chain.nonce
  {
    var lo, hi := s.core.chain.nonce, s.core.record.value.nonce;
    if lo < hi {
      var labels := SettleLabels(s.hist.started, lo, hi);
      assert labels[0] == Settle(AmountAt(s.hist.started, lo)) && labels[1..] == SettleLabels(s.hist.started, lo + 1, hi);
      StepKeeps(cfg, s, labels[0]);
      TotalFirst(s.hist.started, lo, hi);
      OutstandingClaimsCanBeCollected(cfg, Next(cfg, s, labels[0]));
    }
  }

  // ---------------------------------------------------------------------------
  // The channel state service

  datatype StateReply =
    | StateError
    | Fresh(nonce: int)
    | Signed(nonce: int, amount: int, signature: Option<Bytes>)
    | WithOld(nonce: int, amount: int, signature: Option<Bytes>, oldAmount: int, oldSignature: Option<Bytes>)

  /** GetChannelState: the merged channel, the checks on the caller, the chain once
      more, and the pending claim below the channel's nonce. */
  function GetChannelState(view: ChannelRead, admitted: bool, again: ChannelRead, claims: map<int, Payment>): StateReply {
    if !view.Channel? || !admitted || !again.Channel? then StateError
    else
      var channel := view.data;
      if channel.nonce != again.data.nonce then
        if channel.nonce - 1 !in claims then StateError
        else
          var claim := claims[channel.nonce - 1];
          WithOld(channel.nonce, channel.authorizedAmount, channel.signature, claim.amount, claim.signature)
      else if channel.signature.None? then Fresh(channel.nonce)
      else Signed(channel.nonce, channel.authorizedAmount, channel.signature)
  }

  /** With no claim lost or in flight, an admitted caller always gets an answer, and it
      never makes the channel look poorer than it is: what the reply leaves unspent is
      at least what the daemon will still accept, also when several claims are pending. */
  lemma ChannelStateIsAnswered(cfg: Config, s: State)
    requires Reachable(cfg, s) && s.core.record.Some? && s.core.chain.recipient == cfg.recipient
    requires s.hist.lost == {} && forall n :: !InFlight(s.core, n)
    ensures
      var reply := Found(s.core.chain);
      var r := s.core.record.value;
      var view := View(cfg, s.core.record, reply);
      var answer := GetChannelState(view, true, FromBlockchain(cfg, reply), s.core.claims);
      && !answer.StateError? && answer.nonce == r.nonce
      && (answer.WithOld? <==> r.nonce != s.core.chain.nonce)
      && (answer.Fresh? <==> r.nonce == s.core.chain.nonce && r.signature.None?)
      && (answer.Fresh? ==> r.authorizedAmount == 0)
      && (!answer.Fresh? ==>
            && answer.amount == r.authorizedAmount && answer.signature == r.signature
            && Collectable(cfg, s.core.chain.signer, s.core.chain.sender, answer.nonce, answer.amount, answer.signature))
      && (answer.WithOld? ==>
            && answer.oldAmount == AmountAt(s.hist.started, r.nonce - 1)
            && Collectable(cfg, s.core.chain.signer, s.core.chain.sender, r.nonce - 1, answer.oldAmount, answer.oldSignature)
            && view.data.fullAmount - r.authorizedAmount <= s.core.chain.value - answer.oldAmount - answer.amount)
      && (!answer.WithOld? ==> view.data.fullAmount - r.authorizedAmount <= s.core.chain.value - r.authorizedAmount)
      // A caller who is not admitted learns nothing.
      && GetChannelState(view, false, FromBlockchain(cfg, reply), s.core.claims) == StateError
  {
    ReachableInv(cfg, s);
    var r := s.core.record.value;
    if r.nonce != s.core.chain.nonce {
      ClaimLifeCycle(cfg, s, r.nonce - 1);
      TotalNonNegative(s.hist.started, s.core.chain.nonce, r.nonce - 1);
    }
  }

  /** The cover of a record that was read stays while the chain has not passed its nonce:
      whatever happens meanwhile, also claims and payments that replace the record. */
  lemma CoverStep(cfg: Config, s: State, l: Label, nonce: int, full: int)
    requires Inv(cfg, s) && Solvent(s.core.chain, s.hist.started, nonce, full)
    requires s.core.record.Some? && nonce <= s.core.record.value.nonce
    requires Next(cfg, s, l).core.chain.nonce <= nonce
    ensures Solvent(Next(cfg, s, l).core.chain, Next(cfg, s, l).hist.started, nonce, full)
  {
    if l.Settle? && Admissible(s, l) {
      TotalFirst(s.hist.started, s.core.chain.nonce, nonce);
    } else if l.ClaimMove? && l.p in s.core.procs && s.core.procs[l.p].ClaimRead? {
      assert PcInv(cfg, s, l.p, s.core.procs[l.p]);
      var r := s.core.procs[l.p].channel;
      TotalUpdate(s.hist.started, r.nonce, r.authorizedAmount, s.core.chain.nonce, nonce);
    }
  }

  lemma RecordMovesOn(cfg: Config, s: State, l: Label)
    requires Inv(cfg, s) && s.core.record.Some?
    ensures
      var t := Next(cfg, s, l);
      t.core.record.Some? && s.core.record.value.nonce <= t.core.record.value.nonce
  {
    if (l.CommitPayment? || l.ClaimMove?) && l.p in s.core.procs {
      assert PcInv(cfg, s, l.p, s.core.procs[l.p]);
    }
  }

  lemma {:induction false} CoverRun(cfg: Config, s: State, labels: seq<Label>, nonce: int, full: int)
    requires Inv(cfg, s) && Exclusive(s) && Solvent(s.core.chain, s.hist.started, nonce, full)
    requires s.core.record.Some? && nonce <= s.core.record.value.nonce
    requires Run(cfg, s, labels).core.chain.nonce <= nonce
    ensures Solvent(Run(cfg, s, labels).core.chain, Run(cfg, s, labels).hist.started, nonce, full)
    decreases |labels|
  {
    if labels != [] {
      var t := Next(cfg, s, labels[0]);
      StepKeeps(cfg, s, labels[0]);
      ExclusiveStep(cfg, s, labels[0]);
      OnwardRun(cfg, t, labels[1..]);
      RecordMovesOn(cfg, s, labels[0]);
      CoverStep(cfg, s, labels[0], nonce, full);
      CoverRun(cfg, t, labels[1..], nonce, full);
    }
  }

  lemma {:induction false} RecordRuns(cfg: Config, s: State, labels: seq<Label>)
    requires Inv(cfg, s) && s.core.record.Some?
    ensures
      var t := Run(cfg, s, labels);
      Inv(cfg, t) && t.core.record.Some? && s.core.record.value.nonce <= t.core.record.value.nonce
    decreases |labels|
  {
    if labels != [] {
      StepKeeps(cfg, s, labels[0]);
      RecordMovesOn(cfg, s, labels[0]);
      RecordRuns(cfg, Next(cfg, s, labels[0]), labels[1..]);
    }
  }

  /** What is answered when the record is read in s0, the chain in s1 and again in s2, and
      the claims in s3:
      - an error exactly when the chain's nonce at the second reading is not the channel's
        and the claim below is no longer on record;
      - which cannot be as long as the chain has not settled that claim at the last read;
      - and if the chain had not settled it at the first, the reply leaves at least as
        much unspent on the chain as the daemon would still accept on that record. */
  ghost predicate Answered(cfg: Config, s0: State, s1: State, s2: State, s3: State) {
    var read := View(cfg, s0.core.record, Found(s1.core.chain));
    && read.Channel?
    && var view := read.data;
       var answer := GetChannelState(read, true, FromBlockchain(cfg, Found(s2.core.chain)), s3.core.claims);
       && (answer.StateError? <==> s2.core.chain.nonce != view.nonce && view.nonce - 1 !in s3.core.claims)
       && (s3.core.chain.nonce < view.nonce ==> !answer.StateError?)
       && (!answer.StateError? ==> answer.nonce == view.nonce)
       && (answer.Fresh? ==> view.signature.None?)
       && (answer.Signed? || answer.WithOld? ==> answer.amount == view.authorizedAmount && answer.signature == view.signature)
       && (answer.WithOld? ==>
             && view.nonce - 1 in s3.core.claims
             && answer.oldAmount == s3.core.claims[view.nonce - 1].amount
             && answer.oldSignature == s3.core.claims[view.nonce - 1].signature)
       && (s1.core.chain.nonce < view.nonce && answer.WithOld? ==>
             view.fullAmount - view.authorizedAmount <= s1.core.chain.value - answer.oldAmount - answer.amount)
  }

  /** The four reads of GetChannelState one after the other, with anything happening in
      between, and no claim lost or in flight at the end. */
  lemma ChannelStateInterleaved(cfg: Config, s0: State, a: seq<Label>, b: seq<Label>, c: seq<Label>)
    requires Reachable(cfg, s0) && s0.core.record.Some?
    requires
      var s1 := Run(cfg, s0, a);
      var s2 := Run(cfg, s1, b);
      var s3 := Run(cfg, s2, c);
      && s1.core.chain.recipient == cfg.recipient == s2.core.chain.recipient
      && s3.hist.lost == {} && forall n :: !InFlight(s3.core, n)
    ensures
      var s1 := Run(cfg, s0, a);
      var s2 := Run(cfg, s1, b);
      Answered(cfg, s0, s1, s2, Run(cfg, s2, c))
  {
    var s1 := Run(cfg, s0, a);
    var s2 := Run(cfg, s1, b);
    var s3 := Run(cfg, s2, c);
    ReachableExclusive(cfg, s0);
    RunFacts(cfg, s0, a);
    RunFacts(cfg, s1, b);
    RunFacts(cfg, s2, c);
    OnwardTransitive(s1, s2, s3);
    var r := s0.core.record.value;
    if s1.core.chain.nonce <= r.nonce {
      CoverRun(cfg, s0, a, r.nonce, r.fullAmount);
    }
    AnsweredWhen(cfg, s0, s1, s2, s3);
  }

  lemma AnsweredWhen(cfg: Config, s0: State, s1: State, s2: State, s3: State)
    requires Inv(cfg, s0) && Inv(cfg, s1) && Inv(cfg, s3) && Onward(s1, s3)
    requires s0.core.record.Some? && s1.core.record.Some? && s3.core.record.Some?
    requires s0.core.record.value.nonce <= s1.core.record.value.nonce <= s3.core.record.value.nonce
    requires s1.core.chain.recipient == cfg.recipient == s2.core.chain.recipient
    requires s3.hist.lost == {} && forall n :: !InFlight(s3.core, n)
    requires
      var r := s0.core.record.value;
      s1.core.chain.nonce <= r.nonce ==> Solvent(s1.core.chain, s1.hist.started, r.nonce, r.fullAmount)
    ensures Answered(cfg, s0, s1, s2, s3)
  {
    var view := ViewOf(cfg, s0, s1);
    AnswerIs(cfg, view, s2, s3);
    OutstandingIsRecorded(cfg, s3, view.nonce);
    if s1.core.chain.nonce < view.nonce && view.nonce - 1 in s3.core.claims {
      RoomIsCovered(cfg, s1, s3, view);
    }
  }

  lemma RoomIsCovered(cfg: Config, s1: State, s3: State, view: ChannelData)
    requires Inv(cfg, s1) && Inv(cfg, s3) && s1.core.record.Some? && view.nonce <= s1.core.record.value.nonce
    requires s1.core.chain.nonce < view.nonce && view.nonce - 1 in s3.core.claims && Onward(s1, s3)
    requires Solvent(s1.core.chain, s1.hist.started, view.nonce, view.fullAmount)
    ensures view.fullAmount <= s1.core.chain.value - s3.core.claims[view.nonce - 1].amount
  {
    OldClaimIsCovered(cfg, s1, s3, view.nonce);
  }

  lemma RunFacts(cfg: Config, s: State, labels: seq<Label>)
    requires Inv(cfg, s) && Exclusive(s) && s.core.record.Some?
    ensures
      var t := Run(cfg, s, labels);
      && Inv(cfg, t) && Exclusive(t) && Onward(s, t)
      && t.core.record.Some? && s.core.record.value.nonce <= t.core.record.value.nonce
  {
    RecordRuns(cfg, s, labels);
    ExclusiveRun(cfg, s, labels);
    OnwardRun(cfg, s, labels);
  }

  /** The merged channel, when the record was read in s0 and the chain later, in s1. */
  lemma ViewOf(cfg: Config, s0: State, s1: State) returns (view: ChannelData)
    requires Inv(cfg, s0) && Inv(cfg, s1) && s0.core.record.Some? && s1.core.record.Some?
    requires s0.core.record.value.nonce <= s1.core.record.value.nonce && s1.core.chain.recipient == cfg.recipient
    ensures View(cfg, s0.core.record, Found(s1.core.chain)) == Channel(view)
    ensures view.nonce <= s1.core.record.value.nonce
    ensures s1.core.chain.nonce < view.nonce ==> view == s0.core.record.value
  {
    view := View(cfg, s0.core.record, Found(s1.core.chain)).data;
  }

  lemma AnswerIs(cfg: Config, view: ChannelData, s2: State, s3: State)
    requires s2.core.chain.recipient == cfg.recipient
    ensures
      var answer := GetChannelState(Channel(view), true, FromBlockchain(cfg, Found(s2.core.chain)), s3.core.claims);
      && (answer.StateError? <==> s2.core.chain.nonce != view.nonce && view.nonce - 1 !in s3.core.claims)
      && (!answer.StateError? ==> answer.nonce == view.nonce)
      && (answer.Fresh? ==> view.signature.None?)
      && (answer.Signed? || answer.WithOld? ==> answer.amount == view.authorizedAmount && answer.signature == view.signature)
      && (answer.WithOld? ==>
            && view.nonce - 1 in s3.core.claims && answer.oldAmount == s3.core.claims[view.nonce - 1].amount
            && answer.oldSignature == s3.core.claims[view.nonce - 1].signature)
  {
  }

  lemma OutstandingIsRecorded(cfg: Config, s: State, nonce: int)
    requires Inv(cfg, s) && s.core.record.Some? && nonce <= s.core.record.value.nonce
    requires s.hist.lost == {} && forall n :: !InFlight(s.core, n)
    ensures s.core.chain.nonce < nonce ==> nonce - 1 in s.core.claims
  {
    assert s.core.chain.nonce < nonce ==> nonce - 1 in s.hist.started;
  }

  /** The claim below the nonce is part of what the chain has to cover. */
  lemma OldClaimIsCovered(cfg: Config, s1: State, s3: State, nonce: int)
    requires Inv(cfg, s1) && Inv(cfg, s3) && s1.core.record.Some? && nonce <= s1.core.record.value.nonce
    requires s1.core.chain.nonce < nonce && nonce - 1 in s3.core.claims
    requires forall n :: n in s1.hist.started ==> n in s3.hist.started && s3.hist.started[n] == s1.hist.started[n]
    ensures Total(s1.hist.started, s1.core.chain.nonce, nonce) >= s3.core.claims[nonce - 1].amount
  {
    var n := nonce - 1;
    assert n in s1.hist.started;
    assert ClaimInv(cfg, s3, n, s3.core.claims[n]);
    TotalNonNegative(s1.hist.started, s1.core.chain.nonce, n);
  }

  /** The failing case: between the second reading of the chain and the reading of the
      claims the claim is settled and cleaned up, and an admitted caller gets an error. */
  lemma CleanUpBeforeTheLastRead(cfg: Config, s: State, p: nat)
    requires Reachable(cfg, s) && s.core.record.Some? && s.core.chain.recipient == cfg.recipient
    requires s.core.chain.nonce + 1 == s.core.record.value.nonce && s.core.chain.nonce in s.core.claims
    requires p in s.core.procs && s.core.procs[p] == Idle
    ensures
      var n := s.core.chain.nonce;
      var t := Run(cfg, s, [Settle(0), FinishCheck(p, n), FinishDelete(p, Delivered)]);
      var chain := Found(s.core.chain);
      GetChannelState(View(cfg, s.core.record, chain), true, FromBlockchain(cfg, chain), t.core.claims) == StateError
  {
    ReachableInv(cfg, s);
    var n := s.core.chain.nonce;
    RecordedIsStarted(cfg, s, n);
    SettledAndCleanedUp(cfg, s, p, n);
  }

  lemma SettledAndCleanedUp(cfg: Config, s: State, p: nat, n: int)
    requires n == s.core.chain.nonce && n in s.hist.started && s.hist.started[n] >= 0
    requires p in s.core.procs && s.core.procs[p] == Idle
    ensures Run(cfg, s, [Settle(0), FinishCheck(p, n), FinishDelete(p, Delivered)]).core.claims == s.core.claims - {n}
  {
    var l := [Settle(0), FinishCheck(p, n), FinishDelete(p, Delivered)];
    var s1 := Next(cfg, s, l[0]);
    var s2 := Next(cfg, s1, l[1]);
    assert s2.core.procs[p] == Finishing(n);
    RunThen(cfg, s, l[0], [l[1], l[2]]);
    RunThen(cfg, s1, l[1], [l[2]]);
    RunOne(cfg, s2, l[2]);
    assert l == [l[0]] + [l[1], l[2]] && [l[1], l[2]] == [l[1]] + [l[2]];
  }
}
