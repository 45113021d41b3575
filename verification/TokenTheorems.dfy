/** Token requests over every run: what they plan against what they sign for. */
module TokenTheorems {
  import opened Wrappers
  import opened Channel
  import opened EtcdClient
  import opened Protocol
  import opened ProtocolTheorems
  import opened Sums

  /** A token request goes on to sign for its amount exactly when the channel exists, the
      request itself is authentic, its payment is acceptable on the channel, and it signs
      for more than is authorized; it then remembers what was authorized. */
  lemma TokenIsEligibleIff(cfg: Config, payment: Payment, stored: Option<ChannelData>, reply: ChainReply, block: Option<int>,
                           authentic: bool)
    ensures
      var view := View(cfg, stored, reply);
      TokenVerdict(cfg, TokenRead(payment, stored), reply, block, authentic) ==
        if view.Channel? && authentic && Acceptable(cfg, payment, view.data, block)
           && view.data.authorizedAmount < payment.amount
        then TokenEligible(payment, view.data.authorizedAmount) else Idle
  {
    var view := View(cfg, stored, reply);
    if view.Channel? {
      ValidateExactly(cfg, payment, view.data, block);
    }
  }

  function PlanOf(pc: Pc): int {
    if pc.Releasing? && pc.plan.Some? then pc.plan.value
    else if pc.Planning? then pc.amount
    else 0
  }

  /** What token requests in progress are about to add to the planned amount. */
  ghost function PendingPlans(procs: map<nat, Pc>): int {
    SumOver(procs, PlanOf)
  }

  predicate WritesPayment(s: State, l: Label) {
    l.CommitPayment? && l.p in s.core.procs && s.core.procs[l.p].PayReady? && l.fault != LostRequest
  }

  predicate WritesToken(s: State, l: Label) {
    WritesPayment(s, l) && s.core.procs[l.p].purpose.Token?
  }

  /** By how much the authorized amount has moved since the token request read it, when
      the request writes its own. */
  function OvertakenBy(s: State, l: Label): int {
    if WritesToken(s, l) then s.core.procs[l.p].channel.authorizedAmount - s.core.procs[l.p].purpose.before else 0
  }

  /** What a token request never gets to plan, because a reply or its planning is lost. */
  function DroppedBy(s: State, l: Label): int {
    if WritesToken(s, l) && l.fault == LostReply then s.core.procs[l.p].payment.amount - s.core.procs[l.p].purpose.before
    else if l.Plan? && l.p in s.core.procs && s.core.procs[l.p].Planning? && l.fault == LostRequest then s.core.procs[l.p].amount
    else 0
  }

  function Overtaken(cfg: Config, s: State, labels: seq<Label>): int
    decreases |labels|
  {
    if labels == [] then 0 else OvertakenBy(s, labels[0]) + Overtaken(cfg, Next(cfg, s, labels[0]), labels[1..])
  }

  function Dropped(cfg: Config, s: State, labels: seq<Label>): int
    decreases |labels|
  {
    if labels == [] then 0 else DroppedBy(s, labels[0]) + Dropped(cfg, Next(cfg, s, labels[0]), labels[1..])
  }

  ghost function Plans(s: State): int {
    s.hist.planned + PendingPlans(s.core.procs)
  }

  /** Only token commits and the planning step move the two totals or the plans. */
  lemma PlansStandStill(cfg: Config, s: State, l: Label)
    requires !l.CommitPayment? && !l.Plan?
    ensures
      var t := Next(cfg, s, l);
      && t.hist.planned == s.hist.planned && t.hist.tokenGrowth == s.hist.tokenGrowth
      && (t.core.procs == s.core.procs
          || (l.p in s.core.procs && l.p in t.core.procs
              && t.core.procs == s.core.procs[l.p := t.core.procs[l.p]]
              && PlanOf(t.core.procs[l.p]) == PlanOf(s.core.procs[l.p])))
  {
  }

  lemma AccountingStep(cfg: Config, s: State, l: Label)
    ensures
      var t := Next(cfg, s, l);
      Plans(t) + DroppedBy(s, l) == Plans(s) + (t.hist.tokenGrowth - s.hist.tokenGrowth) + OvertakenBy(s, l)
  {
    var t := Next(cfg, s, l);
    if l.CommitPayment? || l.Plan? {
      if l.p in s.core.procs && (s.core.procs[l.p].PayReady? || s.core.procs[l.p].Planning?) {
        assert l.p in t.core.procs;
        assert t.core.procs == s.core.procs[l.p := t.core.procs[l.p]];
        SumUpdate(s.core.procs, PlanOf, l.p, t.core.procs[l.p]);
      }
    } else {
      PlansStandStill(cfg, s, l);
      if t.core.procs != s.core.procs {
        SumUpdate(s.core.procs, PlanOf, l.p, t.core.procs[l.p]);
      }
    }
  }

  lemma {:induction false} AccountingRun(cfg: Config, s: State, labels: seq<Label>)
    ensures
      var t := Run(cfg, s, labels);
      Plans(t) + Dropped(cfg, s, labels)
        == Plans(s) + (t.hist.tokenGrowth - s.hist.tokenGrowth) + Overtaken(cfg, s, labels)
    decreases |labels|
  {
    if labels != [] {
      AccountingStep(cfg, s, labels[0]);
      AccountingRun(cfg, Next(cfg, s, labels[0]), labels[1..]);
    }
  }

  /** The books of token requests, in every run: what they have planned, are about to plan
      or failed to plan is the growth they signed for, plus the amounts by which they were
      overtaken. So all that calls earned and token requests planned is signed for if and
      only if they were not overtaken on balance. */
  lemma PlanAccounting(cfg: Config, start: State, labels: seq<Label>)
    requires Init(start)
    ensures
      var s := Run(cfg, start, labels);
      var plans := Plans(s) + Dropped(cfg, start, labels);
      && plans == s.hist.tokenGrowth + Overtaken(cfg, start, labels)
      && (s.core.record.Some? ==>
            (plans + s.hist.callRevenue
               <= Total(s.hist.started, s.hist.base, s.core.record.value.nonce) + s.core.record.value.authorizedAmount
             <==> Overtaken(cfg, start, labels) <= 0))
  {
    InitInv(cfg, start);
    RunKeeps(cfg, start, labels);
    SumZero(start.core.procs, PlanOf);
    AccountingRun(cfg, start, labels);
  }

  // What keeps a token request from being overtaken

  /** No other payment is written while a token request is between its first read and its
      own write. */
  predicate NoOverlap(s: State, l: Label) {
    WritesPayment(s, l) ==> forall q :: q in s.core.procs && q != l.p ==> !TokenPhase(s.core.procs[q])
  }

  predicate NoOverlapRun(cfg: Config, s: State, labels: seq<Label>)
    decreases |labels|
  {
    labels == [] || (NoOverlap(s, labels[0]) && NoOverlapRun(cfg, Next(cfg, s, labels[0]), labels[1..]))
  }

  function AuthorizedNow(c: Core): int {
    if c.record.Some? then c.record.value.authorizedAmount else 0
  }

  /** Claims may have moved the record on since, but then nothing is authorized yet. */
  ghost predicate StillSeen(c: Core, stored: Option<ChannelData>) {
    match stored
    case None => c.record.None?
    case Some(r) =>
      && c.record.Some? && r.nonce <= c.record.value.nonce
      && if r.nonce == c.record.value.nonce then r == c.record.value else c.record.value.authorizedAmount == 0
  }

  /** At the payment's nonce, the authorized amount is still the one that was read. */
  ghost predicate StillAuthorized(c: Core, payment: Payment, before: int) {
    payment.nonce <= StoredNonce(c) && (payment.nonce == StoredNonce(c) ==> before == AuthorizedNow(c))
  }

  ghost predicate TokenInv(c: Core, pc: Pc) {
    match pc
    case TokenRead(_, stored) => StillSeen(c, stored)
    case TokenEligible(payment, before) => StillAuthorized(c, payment, before)
    case PayLocked(payment, Token(before)) => StillAuthorized(c, payment, before)
    case PayRead(payment, Token(before), _) => StillAuthorized(c, payment, before)
    case PayReady(payment, Token(before), _) => StillAuthorized(c, payment, before)
    case _ => true
  }

  ghost predicate TokensInv(s: State) {
    forall q :: q in s.core.procs ==> TokenInv(s.core, s.core.procs[q])
  }

  lemma TokenChecked(cfg: Config, s: State, pc: Pc, node: Node, block: Option<int>, authentic: bool)
    requires Inv(cfg, s) && pc.TokenRead? && TokenInv(s.core, pc)
    ensures TokenInv(s.core, TokenVerdict(cfg, pc, Reply(s.core, node), block, authentic))
  {
    ViewAgrees(cfg, s, Reply(s.core, node));
  }

  /** Apart from payments, only the move of a claim touches the record. */
  lemma RecordStands(cfg: Config, s: State, l: Label)
    requires !WritesPayment(s, l) && !(l.ClaimMove? && l.p in s.core.procs && s.core.procs[l.p].ClaimRead?)
    ensures
      var t := Next(cfg, s, l);
      t.core.record == s.core.record && (!l.Settle? ==> t.core.chain.nonce == s.core.chain.nonce)
  {
  }

  lemma MoveKeepsToken(cfg: Config, s: State, p: nat, fault: Fault, pc: Pc)
    requires Inv(cfg, s) && TokenInv(s.core, pc) && p in s.core.procs && s.core.procs[p].ClaimRead?
    ensures TokenInv(Next(cfg, s, ClaimMove(p, fault)).core, pc)
  {
    assert PcInv(cfg, s, p, s.core.procs[p]);
  }

  /** A step that leaves record and chain nonce alone, or bumps the record's nonce. */
  lemma OthersKeepToken(cfg: Config, s: State, l: Label, pc: Pc)
    requires Inv(cfg, s) && TokenInv(s.core, pc) && !WritesPayment(s, l)
    ensures TokenInv(Next(cfg, s, l).core, pc)
  {
    if l.ClaimMove? && l.p in s.core.procs && s.core.procs[l.p].ClaimRead? {
      MoveKeepsToken(cfg, s, l.p, l.fault, pc);
    } else {
      RecordStands(cfg, s, l);
    }
  }

  /** Where a step takes its process, as far as token requests are concerned. */
  lemma TokenMoves(cfg: Config, c: Core, l: Label)
    requires !l.AddFunds? && !l.Extend? && !l.Settle? && l.p in c.procs
    requires !(l.TokenCheck? && c.procs[l.p].TokenRead?)
    requires TokenInv(c, c.procs[l.p])
    ensures l.p in NextCore(cfg, c, l).procs && TokenInv(c, NextCore(cfg, c, l).procs[l.p])
  {
  }

  lemma OwnStepKeepsToken(cfg: Config, s: State, l: Label)
    requires Inv(cfg, s) && TokensInv(s) && !l.AddFunds? && !l.Extend? && !l.Settle?
    requires l.p in s.core.procs && !WritesPayment(s, l)
    ensures l.p in Next(cfg, s, l).core.procs
    ensures TokenInv(s.core, Next(cfg, s, l).core.procs[l.p])
  {
    var pc := s.core.procs[l.p];
    assert TokenInv(s.core, pc);
    if l.TokenCheck? && pc.TokenRead? {
      TokenChecked(cfg, s, pc, l.node, l.block, l.authentic);
    } else {
      TokenMoves(cfg, s.core, l);
    }
  }

  lemma OnlyActorMoves(cfg: Config, s: State, l: Label, q: nat)
    requires q in s.core.procs && (l.AddFunds? || l.Extend? || l.Settle? || q != l.p)
    ensures q in Next(cfg, s, l).core.procs && Next(cfg, s, l).core.procs[q] == s.core.procs[q]
  {
  }

  lemma SameProcesses(cfg: Config, s: State, l: Label)
    ensures Next(cfg, s, l).core.procs.Keys == s.core.procs.Keys
  {
  }

  lemma TokenStep(cfg: Config, s: State, l: Label)
    requires Inv(cfg, s) && TokensInv(s) && NoOverlap(s, l)
    ensures TokensInv(Next(cfg, s, l)) && OvertakenBy(s, l) == 0
  {
    var t := Next(cfg, s, l);
    SameProcesses(cfg, s, l);
    if WritesPayment(s, l) {
      assert PcInv(cfg, s, l.p, s.core.procs[l.p]);
      assert TokenInv(s.core, s.core.procs[l.p]);
      assert !TokenPhase(t.core.procs[l.p]);
    }
    forall q | q in t.core.procs ensures TokenInv(t.core, t.core.procs[q]) {
      assert TokenInv(s.core, s.core.procs[q]);
      if l.AddFunds? || l.Extend? || l.Settle? || q != l.p {
        OnlyActorMoves(cfg, s, l, q);
        if !WritesPayment(s, l) {
          OthersKeepToken(cfg, s, l, s.core.procs[q]);
        }
      } else if !WritesPayment(s, l) {
        OwnStepKeepsToken(cfg, s, l);
        OthersKeepToken(cfg, s, l, t.core.procs[q]);
      }
    }
  }

  lemma {:induction false} NotOvertaken(cfg: Config, s: State, labels: seq<Label>)
    requires Inv(cfg, s) && TokensInv(s) && NoOverlapRun(cfg, s, labels)
    ensures Overtaken(cfg, s, labels) == 0
    decreases |labels|
  {
    if labels != [] {
      StepKeeps(cfg, s, labels[0]);
      TokenStep(cfg, s, labels[0]);
      NotOvertaken(cfg, Next(cfg, s, labels[0]), labels[1..]);
    }
  }

  lemma {:induction false} DroppedIsPositive(cfg: Config, s: State, labels: seq<Label>)
    requires Inv(cfg, s)
    ensures Dropped(cfg, s, labels) >= 0
    decreases |labels|
  {
    if labels != [] {
      if labels[0].CommitPayment? || labels[0].Plan? {
        assert labels[0].p in s.core.procs ==> PcInv(cfg, s, labels[0].p, s.core.procs[labels[0].p]);
      }
      StepKeeps(cfg, s, labels[0]);
      DroppedIsPositive(cfg, Next(cfg, s, labels[0]), labels[1..]);
    }
  }

  predicate AllDelivered(labels: seq<Label>) {
    forall i :: 0 <= i < |labels| && (labels[i].CommitPayment? || labels[i].Plan?) ==> labels[i].fault == Delivered
  }

  /** Without lost messages every token request plans. */
  lemma {:induction false} NothingIsDropped(cfg: Config, s: State, labels: seq<Label>)
    requires AllDelivered(labels)
    ensures Dropped(cfg, s, labels) == 0
    decreases |labels|
  {
    if labels != [] {
      NothingIsDropped(cfg, Next(cfg, s, labels[0]), labels[1..]);
    }
  }

  lemma PlansArePositive(cfg: Config, s: State)
    requires Inv(cfg, s)
    ensures PendingPlans(s.core.procs) >= 0
  {
    forall p | p in s.core.procs ensures PlanOf(s.core.procs[p]) >= 0 {
      assert PcInv(cfg, s, p, s.core.procs[p]);
    }
    SumAtLeast(s.core.procs, PlanOf);
  }

  /** If token requests do not overlap other payments, the planned amount is at most the
      growth of the authorized amount that token requests made; and together with what
      calls earned it is in a started claim or still authorized. Claims may overlap. */
  lemma PlannedIsSigned(cfg: Config, start: State, labels: seq<Label>)
    requires Init(start) && NoOverlapRun(cfg, start, labels)
    ensures
      var s := Run(cfg, start, labels);
      && s.hist.planned <= s.hist.tokenGrowth
      && (s.core.record.Some? ==>
            s.hist.planned + s.hist.callRevenue
              <= Total(s.hist.started, s.hist.base, s.core.record.value.nonce) + s.core.record.value.authorizedAmount)
  {
    InitInv(cfg, start);
    RunKeeps(cfg, start, labels);
    NotOvertaken(cfg, start, labels);
    DroppedIsPositive(cfg, start, labels);
    PlansArePositive(cfg, Run(cfg, start, labels));
    PlanAccounting(cfg, start, labels);
  }

  // ---------------------------------------------------------------------------
  // What goes wrong when a token request overlaps a paid call

  /** The steps of a payment from the moment its process holds the lock. */
  function PaymentLabels(p: nat, block: int): seq<Label> {
    [LoadRecord(p, Delivered), CheckPayment(p, NodeCurrent, Some(block)), CommitPayment(p, Delivered), Release(p, Delivered)]
  }

  /** The channel that a payment made now would be judged against. */
  function CurrentView(cfg: Config, s: State): ChannelRead {
    View(cfg, s.core.record, Found(s.core.chain))
  }

  /** A good payment whose process holds the lock goes through, whoever else is around:
      the record becomes the committed channel and the lock is free again. */
  lemma LockedPayment(cfg: Config, s: State, p: nat, payment: Payment, purpose: Purpose, channel: ChannelData, block: int)
    requires p in s.core.procs && s.core.procs[p] == PayLocked(payment, purpose)
    requires CurrentView(cfg, s) == Channel(channel)
    requires Validate(cfg, payment, channel, Some(block)) == Accepted && IncomeExact(payment, purpose, channel)
    ensures
      var t := Run(cfg, s, PaymentLabels(p, block));
      var ready := s.(core := Goto(s.core, p, PayReady(payment, purpose, channel)));
      && t.core == Goto(s.core, p, AfterRelease(payment, purpose)).(record := Some(Committed(payment, channel)), lock := None)
      && t.hist == NextHistory(ready.core, s.hist, CommitPayment(p, Delivered))
  {
    var l := PaymentLabels(p, block);
    var ready := s.(core := Goto(s.core, p, PayReady(payment, purpose, channel)));
    PaymentChecked(cfg, s, p, payment, purpose, channel, block);
    var done := CommitAndRelease(cfg, ready, p);
    assert l == [l[0], l[1]] + [l[2], l[3]];
    RunConcat(cfg, s, [l[0], l[1]], [l[2], l[3]]);
  }

  lemma PaymentChecked(cfg: Config, s: State, p: nat, payment: Payment, purpose: Purpose, channel: ChannelData, block: int)
    requires p in s.core.procs && s.core.procs[p] == PayLocked(payment, purpose)
    requires CurrentView(cfg, s) == Channel(channel)
    requires Validate(cfg, payment, channel, Some(block)) == Accepted && IncomeExact(payment, purpose, channel)
    ensures Run(cfg, s, [LoadRecord(p, Delivered), CheckPayment(p, NodeCurrent, Some(block))])
         == s.(core := Goto(s.core, p, PayReady(payment, purpose, channel)))
  {
    var l := [LoadRecord(p, Delivered), CheckPayment(p, NodeCurrent, Some(block))];
    var s1 := Next(cfg, s, l[0]);
    assert s1 == s.(core := Goto(s.core, p, PayRead(payment, purpose, s.core.record)));
    assert l[1..] == [l[1]] && l[1..][1..] == [];
    assert Run(cfg, s, l) == Run(cfg, s1, l[1..]) == Run(cfg, Next(cfg, s1, l[1]), []);
  }

  lemma CommitAndRelease(cfg: Config, s: State, p: nat) returns (t: State)
    requires p in s.core.procs && s.core.procs[p].PayReady?
    ensures t == Run(cfg, s, [CommitPayment(p, Delivered), Release(p, Delivered)])
    ensures
      var pc := s.core.procs[p];
      && t.core == Goto(s.core, p, AfterRelease(pc.payment, pc.purpose)).(record := Some(Committed(pc.payment, pc.channel)), lock := None)
      && t.hist == NextHistory(s.core, s.hist, CommitPayment(p, Delivered))
  {
    var l := [CommitPayment(p, Delivered), Release(p, Delivered)];
    var s1 := Next(cfg, s, l[0]);
    t := Next(cfg, s1, l[1]);
    assert l[1..] == [l[1]] && l[1..][1..] == [];
    assert Run(cfg, s, l) == Run(cfg, s1, l[1..]) == Run(cfg, t, l[1..][1..]);
  }

  /** A token request that is left alone. */
  function TokenLabels(p: nat, payment: Payment, block: int, authentic: bool): seq<Label> {
    [TokenLoad(p, payment), TokenCheck(p, NodeCurrent, Some(block), authentic), TokenAcquire(p)]
    + (PaymentLabels(p, block) + [Plan(p, Delivered)])
  }

  /** The token request can be granted now. */
  predicate Grantable(cfg: Config, s: State, payment: Payment, block: int, authentic: bool) {
    var view := CurrentView(cfg, s);
    && s.core.lock.None? && view.Channel? && authentic && Acceptable(cfg, payment, view.data, Some(block))
    && view.data.authorizedAmount < payment.amount
  }

  lemma TokenBegins(cfg: Config, s: State, p: nat, payment: Payment, block: int, authentic: bool)
    requires At(s.core, p, Idle) && Addressed(cfg, payment) && payment.amount >= 0
    ensures
      var t := Run(cfg, s, TokenLabels(p, payment, block, authentic)[..3]);
      if Grantable(cfg, s, payment, block, authentic)
      then t == s.(core := Goto(s.core, p, PayLocked(payment, Token(CurrentView(cfg, s).data.authorizedAmount))).(lock := Some(p)))
      else t == s
  {
    var l := TokenLabels(p, payment, block, authentic)[..3];
    var s1 := Next(cfg, s, l[0]);
    var s2 := Next(cfg, s1, l[1]);
    TokenIsEligibleIff(cfg, payment, s.core.record, Found(s.core.chain), Some(block), authentic);
    assert s.core.procs[p := Idle] == s.core.procs;
    assert l[1..] == [l[1], l[2]] && l[2..] == [l[2]];
    RunConcat(cfg, s, [l[0]], [l[1], l[2]]);
    RunConcat(cfg, s1, [l[1]], [l[2]]);
    RunOne(cfg, s, l[0]);
    RunOne(cfg, s1, l[1]);
    RunOne(cfg, s2, l[2]);
    assert l == [l[0]] + [l[1], l[2]] && [l[1], l[2]] == [l[1]] + [l[2]];
  }

  lemma {:induction false} StaysPut(cfg: Config, s: State, labels: seq<Label>)
    requires forall i :: 0 <= i < |labels| ==> Next(cfg, s, labels[i]) == s
    ensures Run(cfg, s, labels) == s
    decreases |labels|
  {
    if labels != [] {
      StaysPut(cfg, s, labels[1..]);
    }
  }

  /** Left alone, a token request changes something exactly when it can be granted. Then its
      payment is the record, the planned amount grows by what it signs for on top of what
      was authorized, the lock is free and all processes are where they were. */
  lemma TokenRequestAlone(cfg: Config, s: State, p: nat, payment: Payment, block: int, authentic: bool)
    requires At(s.core, p, Idle) && Addressed(cfg, payment) && payment.amount >= 0
    ensures
      var t, view := Run(cfg, s, TokenLabels(p, payment, block, authentic)), CurrentView(cfg, s);
      if Grantable(cfg, s, payment, block, authentic) then
        && t.core.record.Some? && IsPaid(view.data, t.core.record.value, payment.amount, payment.signature)
        && t.hist.planned == s.hist.planned + payment.amount - view.data.authorizedAmount
        && t.hist.tokenGrowth == s.hist.tokenGrowth + payment.amount - view.data.authorizedAmount
        && t.core == s.core.(record := t.core.record)
      else t == s
  {
    var l := TokenLabels(p, payment, block, authentic);
    var rest := PaymentLabels(p, block) + [Plan(p, Delivered)];
    assert l == l[..3] + rest;
    RunConcat(cfg, s, l[..3], rest);
    TokenBegins(cfg, s, p, payment, block, authentic);
    if Grantable(cfg, s, payment, block, authentic) {
      TokenGranted(cfg, s, p, payment, CurrentView(cfg, s).data, block);
    } else {
      StaysPut(cfg, s, rest);
    }
  }

  lemma TokenGranted(cfg: Config, s: State, p: nat, payment: Payment, channel: ChannelData, block: int)
    requires At(s.core, p, Idle) && s.core.lock.None? && CurrentView(cfg, s) == Channel(channel)
    requires Acceptable(cfg, payment, channel, Some(block))
    ensures
      var before := channel.authorizedAmount;
      var locked := s.(core := Goto(s.core, p, PayLocked(payment, Token(before))).(lock := Some(p)));
      var t := Run(cfg, locked, PaymentLabels(p, block) + [Plan(p, Delivered)]);
      && t.core == s.core.(record := Some(Committed(payment, channel)))
      && IsPaid(channel, Committed(payment, channel), payment.amount, payment.signature)
      && t.hist.planned == s.hist.planned + payment.amount - before
      && t.hist.tokenGrowth == s.hist.tokenGrowth + payment.amount - before
  {
    var locked := s.(core := Goto(s.core, p, PayLocked(payment, Token(channel.authorizedAmount))).(lock := Some(p)));
    var paid := Run(cfg, locked, PaymentLabels(p, block));
    RunConcat(cfg, locked, PaymentLabels(p, block), [Plan(p, Delivered)]);
    RunOne(cfg, paid, Plan(p, Delivered));
    ValidateExactly(cfg, payment, channel, Some(block));
    RecordUpdates(payment, channel);
    LockedPayment(cfg, locked, p, payment, Token(channel.authorizedAmount), channel, block);
    assert Goto(paid.core, p, Idle).procs == s.core.procs;
  }

  /** Everything is signed by one address and every signature is good. */
  function ExampleConfig(): Config {
    Config(7, ZERO_ADDRESS, ZERO_ADDRESS, [], 0, (message: Bytes, signature: Bytes) => Some(ZERO_ADDRESS))
  }

  function ExamplePayment(amount: int): Payment {
    Payment(ZERO_ADDRESS, 7, 0, amount, Some([]))
  }

  const EXAMPLE_CHAIN := ChainChannel(0, 10, 100, ZERO_ADDRESS, ZERO_ADDRESS, ZERO_ADDRESS, [])

  function ExampleStart(): State {
    State(Core(EXAMPLE_CHAIN, None, map[], None, map[0 := Idle, 1 := Idle]), History(0, map[], {}, 0, 0, 0))
  }

  function TokenPrelude(): seq<Label> {
    [TokenLoad(0, ExamplePayment(3)), TokenCheck(0, NodeCurrent, Some(1), true)]
  }

  /** Process 0 asks for a token on a signed amount of 3 and sees nothing authorized;
      process 1 then pays 5 for a call; then process 0 takes the lock and commits. */
  function ExampleRun(): seq<Label> {
    TokenPrelude()
    + ([Acquire(1, ExamplePayment(5), 5)] + PaymentLabels(1, 1))
    + ([TokenAcquire(0)] + PaymentLabels(0, 1))
    + [Plan(0, Delivered)]
  }

  function ExampleChannel(authorized: int, signature: Option<Bytes>): ChannelData {
    ChannelData(7, 0, Open, ZERO_ADDRESS, ZERO_ADDRESS, [], 10, 100, ZERO_ADDRESS, authorized, signature)
  }

  function ExampleState(record: Option<ChannelData>, token: Pc, callRevenue: int, tokenGrowth: int, planned: int): State {
    State(Core(EXAMPLE_CHAIN, record, map[], None, map[0 := token, 1 := Idle]),
          History(0, map[], {}, callRevenue, tokenGrowth, planned))
  }

  lemma ExampleToken()
    ensures Run(ExampleConfig(), ExampleStart(), TokenPrelude())
         == ExampleState(None, TokenEligible(ExamplePayment(3), 0), 0, 0, 0)
  {
    var cfg, s, l := ExampleConfig(), ExampleStart(), TokenPrelude();
    var s1 := Next(cfg, s, l[0]);
    assert s1.core.procs == map[0 := TokenRead(ExamplePayment(3), None), 1 := Idle];
    assert View(cfg, None, Found(EXAMPLE_CHAIN)) == Channel(ExampleChannel(0, None));
    var s2 := Next(cfg, s1, l[1]);
    assert s2.core.procs == map[0 := TokenEligible(ExamplePayment(3), 0), 1 := Idle];
    assert l[1..] == [l[1]] && l[1..][1..] == [];
    assert Run(cfg, s, l) == Run(cfg, s1, l[1..]) == Run(cfg, s2, l[1..][1..]);
  }

  lemma ExampleAccepts(amount: int, channel: ChannelData, authorized: int, signature: Option<Bytes>)
    requires amount <= 10 && channel == ExampleChannel(authorized, signature)
    ensures Validate(ExampleConfig(), ExamplePayment(amount), channel, Some(1)) == Accepted
    ensures View(ExampleConfig(), Some(channel), Found(EXAMPLE_CHAIN)) == Channel(channel)
    ensures View(ExampleConfig(), None, Found(EXAMPLE_CHAIN)) == Channel(ExampleChannel(0, None))
  {
  }

  /** A process that holds the lock pays; the other process stays where it is. */
  lemma ExamplePays(s: State, p: nat, amount: int, purpose: Purpose, channel: ChannelData)
    requires p in s.core.procs && s.core.procs[p] == PayLocked(ExamplePayment(amount), purpose)
    requires s.core.chain == EXAMPLE_CHAIN && amount <= 10
    requires channel == ExampleChannel(channel.authorizedAmount, channel.signature)
    requires s.core.record == Some(channel) || (s.core.record.None? && channel == ExampleChannel(0, None))
    requires IncomeExact(ExamplePayment(amount), purpose, channel)
    ensures
      var t := Run(ExampleConfig(), s, PaymentLabels(p, 1));
      && t.core == Goto(s.core, p, AfterRelease(ExamplePayment(amount), purpose))
                   .(record := Some(ExampleChannel(amount, Some([]))), lock := None)
      && t.hist == NextHistory(Goto(s.core, p, PayReady(ExamplePayment(amount), purpose, channel)), s.hist,
                               CommitPayment(p, Delivered))
  {
    ExampleAccepts(amount, channel, channel.authorizedAmount, channel.signature);
    LockedPayment(ExampleConfig(), s, p, ExamplePayment(amount), purpose, channel, 1);
  }

  /** Process 1 has taken the lock for a call at 5. */
  function ExampleCalling(token: Pc): State {
    State(Core(EXAMPLE_CHAIN, None, map[], Some(1), map[0 := token, 1 := PayLocked(ExamplePayment(5), Call(5))]),
          History(0, map[], {}, 0, 0, 0))
  }

  lemma ExampleCallAcquires(token: Pc)
    ensures Next(ExampleConfig(), ExampleState(None, token, 0, 0, 0), Acquire(1, ExamplePayment(5), 5)) == ExampleCalling(token)
  {
  }

  lemma ExampleCallPays(token: Pc)
    ensures Run(ExampleConfig(), ExampleCalling(token), PaymentLabels(1, 1))
         == ExampleState(Some(ExampleChannel(5, Some([]))), token, 5, 0, 0)
  {
    ExamplePays(ExampleCalling(token), 1, 5, Call(5), ExampleChannel(0, None));
    ExampleCallEarns(token);
  }

  lemma ExampleCallEarns(token: Pc)
    ensures NextHistory(Goto(ExampleCalling(token).core, 1, PayReady(ExamplePayment(5), Call(5), ExampleChannel(0, None))),
                        ExampleCalling(token).hist, CommitPayment(1, Delivered)) == History(0, map[], {}, 5, 0, 0)
    ensures Goto(ExampleCalling(token).core, 1, Idle).(record := Some(ExampleChannel(5, Some([]))), lock := None)
         == ExampleState(Some(ExampleChannel(5, Some([]))), token, 5, 0, 0).core
  {
  }

  lemma ExampleCall(token: Pc)
    ensures Run(ExampleConfig(), ExampleState(None, token, 0, 0, 0), [Acquire(1, ExamplePayment(5), 5)] + PaymentLabels(1, 1))
         == ExampleState(Some(ExampleChannel(5, Some([]))), token, 5, 0, 0)
  {
    var s := ExampleState(None, token, 0, 0, 0);
    RunThen(ExampleConfig(), s, Acquire(1, ExamplePayment(5), 5), PaymentLabels(1, 1));
    ExampleCallAcquires(token);
    ExampleCallPays(token);
  }

  /** The state in which process 0 has just taken the lock. */
  function ExampleLocked(): State {
    var s := ExampleState(Some(ExampleChannel(5, Some([]))), PayLocked(ExamplePayment(3), Token(0)), 5, 0, 0);
    s.(core := s.core.(lock := Some(0)))
  }

  lemma ExampleAcquire()
    ensures Next(ExampleConfig(), ExampleState(Some(ExampleChannel(5, Some([]))), TokenEligible(ExamplePayment(3), 0), 5, 0, 0),
                 TokenAcquire(0)) == ExampleLocked()
  {
  }

  lemma ExampleTokenPays()
    ensures Run(ExampleConfig(), ExampleLocked(), PaymentLabels(0, 1))
         == ExampleState(Some(ExampleChannel(3, Some([]))), Planning(3), 5, -2, 0)
  {
    ExamplePays(ExampleLocked(), 0, 3, Token(0), ExampleChannel(5, Some([])));
    ExampleTokenEarns();
  }

  lemma ExampleTokenEarns()
    ensures NextHistory(Goto(ExampleLocked().core, 0, PayReady(ExamplePayment(3), Token(0), ExampleChannel(5, Some([])))),
                        ExampleLocked().hist, CommitPayment(0, Delivered)) == History(0, map[], {}, 5, -2, 0)
    ensures Goto(ExampleLocked().core, 0, Planning(3)).(record := Some(ExampleChannel(3, Some([]))), lock := None)
         == ExampleState(Some(ExampleChannel(3, Some([]))), Planning(3), 5, -2, 0).core
  {
  }

  lemma ExampleCommit()
    ensures Run(ExampleConfig(), ExampleState(Some(ExampleChannel(5, Some([]))), TokenEligible(ExamplePayment(3), 0), 5, 0, 0),
                [TokenAcquire(0)] + PaymentLabels(0, 1))
         == ExampleState(Some(ExampleChannel(3, Some([]))), Planning(3), 5, -2, 0)
  {
    var s := ExampleState(Some(ExampleChannel(5, Some([]))), TokenEligible(ExamplePayment(3), 0), 5, 0, 0);
    RunThen(ExampleConfig(), s, TokenAcquire(0), PaymentLabels(0, 1));
    ExampleAcquire();
    ExampleTokenPays();
  }

  lemma ExamplePlan()
    ensures Run(ExampleConfig(), ExampleState(Some(ExampleChannel(3, Some([]))), Planning(3), 5, -2, 0), [Plan(0, Delivered)])
         == ExampleState(Some(ExampleChannel(3, Some([]))), Idle, 5, -2, 3)
  {
    RunOne(ExampleConfig(), ExampleState(Some(ExampleChannel(3, Some([]))), Planning(3), 5, -2, 0), Plan(0, Delivered));
  }

  lemma RunConcat4(cfg: Config, s: State, a: seq<Label>, b: seq<Label>, c: seq<Label>, d: seq<Label>)
    ensures Run(cfg, s, a + b + c + d) == Run(cfg, Run(cfg, Run(cfg, Run(cfg, s, a), b), c), d)
  {
    RunConcat(cfg, s, a, b);
    RunConcat(cfg, s, a + b, c);
    RunConcat(cfg, s, a + b + c, d);
  }

  lemma ExampleRuns()
    ensures Run(ExampleConfig(), ExampleStart(), ExampleRun())
         == ExampleState(Some(ExampleChannel(3, Some([]))), Idle, 5, -2, 3)
  {
    RunConcat4(ExampleConfig(), ExampleStart(), TokenPrelude(), [Acquire(1, ExamplePayment(5), 5)] + PaymentLabels(1, 1),
               [TokenAcquire(0)] + PaymentLabels(0, 1), [Plan(0, Delivered)]);
    ExampleToken();
    ExampleCall(TokenEligible(ExamplePayment(3), 0));
    ExampleCommit();
    ExamplePlan();
  }

  /** The commit overwrites the higher authorized amount, because the validation under
      the lock does not compare with it: calls worth 5 were served and 3 more were
      planned, but only 3 are signed for. */
  lemma OverlappingTokenRequestLosesRevenue()
    ensures Init(ExampleStart())
    ensures Run(ExampleConfig(), ExampleStart(), ExampleRun())
         == ExampleState(Some(ExampleChannel(3, Some([]))), Idle, 5, -2, 3)
    ensures Overtaken(ExampleConfig(), ExampleStart(), ExampleRun()) == 5
  {
    ExampleRuns();
    ExampleIsDelivered();
    ExampleEnds();
    OvertakenIs(ExampleConfig(), ExampleStart(), ExampleRun(), ExampleState(Some(ExampleChannel(3, Some([]))), Idle, 5, -2, 3));
  }

  /** The example starts fresh and ends with nothing left to do. */
  lemma ExampleEnds()
    ensures Init(ExampleStart())
    ensures AllIdle(ExampleState(Some(ExampleChannel(3, Some([]))), Idle, 5, -2, 3))
  {
  }

  ghost predicate AllIdle(t: State) {
    forall p :: p in t.core.procs ==> t.core.procs[p] == Idle
  }

  /** When everything is delivered and done, the books give the overtaken amount. */
  lemma OvertakenIs(cfg: Config, start: State, labels: seq<Label>, t: State)
    requires Init(start) && Run(cfg, start, labels) == t && AllDelivered(labels)
    requires AllIdle(t)
    ensures Overtaken(cfg, start, labels) == t.hist.planned - t.hist.tokenGrowth
  {
    NothingIsDropped(cfg, start, labels);
    SumZero(t.core.procs, PlanOf);
    PlanAccounting(cfg, start, labels);
  }

  lemma DeliveredConcat(a: seq<Label>, b: seq<Label>)
    requires AllDelivered(a) && AllDelivered(b)
    ensures AllDelivered(a + b)
  {
  }

  lemma ExampleIsDelivered()
    ensures AllDelivered(ExampleRun())
  {
    var a, b, c, d := TokenPrelude(), [Acquire(1, ExamplePayment(5), 5)] + PaymentLabels(1, 1),
                      [TokenAcquire(0)] + PaymentLabels(0, 1), [Plan(0, Delivered)];
    DeliveredConcat([Acquire(1, ExamplePayment(5), 5)], PaymentLabels(1, 1));
    DeliveredConcat([TokenAcquire(0)], PaymentLabels(0, 1));
    DeliveredConcat(a, b);
    DeliveredConcat(a + b, c);
    DeliveredConcat(a + b + c, d);
  }
}
