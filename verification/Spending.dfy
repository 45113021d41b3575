/** The channel protocol and the prepaid counters of one channel as one system: the last
    step of a token request raises the planned amount that prepaid calls are charged
    against. */
module Spending {
  import opened EtcdClient
  import Protocol
  import ProtocolTheorems
  import TokenTheorems
  import Channel
  import Prepaid

  datatype System = System(channel: Protocol.State, prepaid: Prepaid.State)

  /** A step of the channel protocol, or of a prepaid call. */
  datatype Step = OnChannel(l: Protocol.Label) | OnCall(c: Prepaid.Label)

  predicate Plans(s: Protocol.State, l: Protocol.Label) {
    l.Plan? && l.p in s.core.procs && s.core.procs[l.p].Planning? && l.fault != LostRequest
  }

  /** Nobody but token requests raises the planned amount. */
  function Next(cfg: Channel.Config, s: System, step: Step): System {
    match step
    case OnChannel(l) =>
      System(Protocol.Next(cfg, s.channel, l),
             if Plans(s.channel, l)
             then Prepaid.Next(s.prepaid, Prepaid.PlanMore(s.channel.core.procs[l.p].amount)) else s.prepaid)
    case OnCall(c) =>
      if c.PlanMore? then s else s.(prepaid := Prepaid.Next(s.prepaid, c))
  }

  function Run(cfg: Channel.Config, s: System, steps: seq<Step>): System
    decreases |steps|
  {
    if steps == [] then s else Run(cfg, Next(cfg, s, steps[0]), steps[1..])
  }

  ghost predicate Init(s: System) {
    Protocol.Init(s.channel) && Prepaid.Init(s.prepaid)
  }

  /** The steps of the channel. */
  function ChannelSteps(steps: seq<Step>): seq<Protocol.Label> {
    if steps == [] then []
    else (if steps[0].OnChannel? then [steps[0].l] else []) + ChannelSteps(steps[1..])
  }

  /** The steps of the counters, planning included. */
  function CounterSteps(cfg: Channel.Config, s: System, steps: seq<Step>): seq<Prepaid.Label>
    decreases |steps|
  {
    if steps == [] then []
    else
      var rest := CounterSteps(cfg, Next(cfg, s, steps[0]), steps[1..]);
      match steps[0]
      case OnChannel(l) =>
        if Plans(s.channel, l) then [Prepaid.PlanMore(s.channel.core.procs[l.p].amount)] + rest else rest
      case OnCall(c) => if c.PlanMore? then rest else [c] + rest
  }

  /** Each half of the system runs as it would alone. */
  lemma {:induction false} HalvesRun(cfg: Channel.Config, s: System, steps: seq<Step>)
    ensures Run(cfg, s, steps).channel == Protocol.Run(cfg, s.channel, ChannelSteps(steps))
    ensures Run(cfg, s, steps).prepaid == Prepaid.Run(s.prepaid, CounterSteps(cfg, s, steps))
    decreases |steps|
  {
    if steps != [] {
      var t := Next(cfg, s, steps[0]);
      HalvesRun(cfg, t, steps[1..]);
      var rest, more := ChannelSteps(steps[1..]), CounterSteps(cfg, t, steps[1..]);
      if steps[0].OnChannel? {
        ProtocolTheorems.RunThen(cfg, s.channel, steps[0].l, rest);
      } else {
        assert [] + rest == rest;
      }
      assert forall c: Prepaid.Label :: ([c] + more)[1..] == more;
    }
  }

  /** The planned amount that the counters show is what token requests have planned. */
  ghost predicate Agrees(cfg: Channel.Config, s: System) {
    Protocol.Inv(cfg, s.channel) && s.prepaid.usage.planned == s.channel.hist.planned
  }

  lemma StepAgrees(cfg: Channel.Config, s: System, step: Step)
    requires Agrees(cfg, s)
    ensures Agrees(cfg, Next(cfg, s, step))
  {
    if step.OnChannel? {
      Protocol.StepKeeps(cfg, s.channel, step.l);
      if Plans(s.channel, step.l) {
        assert Protocol.PcInv(cfg, s.channel, step.l.p, s.channel.core.procs[step.l.p]);
      }
    }
  }

  lemma {:induction false} RunAgrees(cfg: Channel.Config, s: System, steps: seq<Step>)
    requires Agrees(cfg, s)
    ensures Agrees(cfg, Run(cfg, s, steps))
    decreases |steps|
  {
    if steps != [] {
      StepAgrees(cfg, s, steps[0]);
      RunAgrees(cfg, Next(cfg, s, steps[0]), steps[1..]);
    }
  }

  /** Everything that was served on the channel, at a price per call or out of prepaid
      usage, net of refunds, is signed for: it is in a started claim or still authorized.
      This holds in every run in which no payment is written during a token request. */
  lemma ServedIsSigned(cfg: Channel.Config, start: System, steps: seq<Step>)
    requires Init(start) && TokenTheorems.NoOverlapRun(cfg, start.channel, ChannelSteps(steps))
    ensures
      var t := Run(cfg, start, steps);
      var spent, s := t.prepaid.usage.used - t.prepaid.usage.refund, t.channel;
      && t.prepaid.usage.planned == s.hist.planned && spent <= s.hist.tokenGrowth
      && (s.core.record.Some? ==>
            spent + s.hist.callRevenue
              <= Protocol.Total(s.hist.started, s.hist.base, s.core.record.value.nonce)
                 + s.core.record.value.authorizedAmount)
  {
    HalvesRun(cfg, start, steps);
    Protocol.InitInv(cfg, start.channel);
    RunAgrees(cfg, start, steps);
    TokenTheorems.PlannedIsSigned(cfg, start.channel, ChannelSteps(steps));
    Prepaid.PrepaidConservation(start.prepaid, CounterSteps(cfg, start, steps));
  }
}
