/** Retransmission: how long and how often a flow is sent again
    (section 8.1.1 of RFC 6887). */
module Retransmission {
  import opened Types
  import opened FlowMachine

  /** The longest time a flow waits for a reply after its r-th retransmission, in ms. */
  function LongestWait(r: nat): nat {
    if r == 0 then 3000 else if r == 1 then 6750 else 15187
  }

  const SHORTEST_WAIT := 2625

  ghost predicate WaitBounded(f: Flow) { f.resend <= LongestWait(f.retry) }

  /** The invariant that links state, retry_count and resend_timeout, and bounds the
      retransmissions since the last reset of retry_count. */
  ghost predicate RetxOk(f: Flow) {
    && f.hist.resent <= f.retry
    && f.hist.resent <= PCP_RETX_MRC - 1
    && (f.state == WaitResp ==> WaitBounded(f))
  }

  /** Up to the longest wait the 32-bit product of PCP_RT does not wrap: the new time is
      the doubled old one, raised to IRT, times a factor from 7/8 to 9/8. */
  lemma RetransmissionTimeExact(rt: u32, rnd: nat)
    requires rt <= 15187
    ensures var doubled := Max(2 * rt, PCP_RETX_IRT);
            var r := RetransmissionTime(rt, rnd);
            && r == (9216 - rnd % 2048) * doubled / 8192
            && 7 * doubled - 7 <= 8 * r <= 9 * doubled
            && SHORTEST_WAIT <= r
  {
    var doubled := Max(2 * rt, PCP_RETX_IRT);
    assert rt * 2 % U32 == 2 * rt;
    assert Min(Max(2 * rt, PCP_RETX_IRT), PCP_RETX_MRT) == doubled;
    var factor := 9216 - rnd % 2048;
    MulBounds(factor, doubled);
    assert factor * doubled % U32 == factor * doubled;
  }

  lemma MulBounds(factor: int, d: int)
    requires 7169 <= factor <= 9216 && 0 <= d <= 30374
    ensures 7169 * d <= factor * d <= 9216 * d <= 9216 * 30374 < U32
  {
    MulMonotone(7169, factor, d);
    MulMonotone(factor, 9216, d);
  }

  lemma MulMonotone(a: int, b: int, d: int)
    requires a <= b && 0 <= d
    ensures a * d <= b * d
  {
  }

  lemma WaitGrows(retry: nat, rt: u32, rnd: nat)
    requires rt <= LongestWait(retry) && retry + 1 < PCP_RETX_MRC
    ensures SHORTEST_WAIT <= RetransmissionTime(rt, rnd) <= LongestWait(retry + 1)
  {
    RetransmissionTimeExact(rt, rnd);
  }

  /** Far above the longest wait the product does wrap, and the wait can fall to zero:
      the invariant is what keeps the code away from it. */
  lemma ProductWrapsBeyond()
    ensures exists rnd: nat :: RetransmissionTime(1000000, rnd) < SHORTEST_WAIT
  {
    assert 2 * 1000000 % U32 == 2000000;
    assert Min(Max(2000000, PCP_RETX_IRT), PCP_RETX_MRT) == 1024000;
    var rnd: nat := 827;
    assert (8192 + (1024 - rnd % 2048)) * 1024000 == 8389 * 1024000;
    assert 8389 * 1024000 - 2 * U32 == 401408;
    assert RetransmissionTime(1000000, rnd) == 401408 / 8192;
    assert RetransmissionTime(1000000, rnd) == 49;
  }

  /** What is pending when a chain is at the event e: a message just sent. */
  ghost predicate JustSent(f: Flow, e: FlowEvent) {
    f.state == Send && e == MsgSent ==> WaitBounded(f) && SHORTEST_WAIT <= f.resend
  }

  lemma HandlerKeepsRetx(h: Handler, f: Flow, link: Link, msg: Option<Msg>, sys: Sys)
    requires h == HShortLife || h == HSuccess ==> msg.Some?
    requires f.hist.resent <= f.retry && f.hist.resent <= PCP_RETX_MRC - 1
    requires h == HResend ==> WaitBounded(f)
    ensures var (f1, e1) := Handle(h, f, link, msg, sys);
            && f1.hist.resent <= f1.retry && f1.hist.resent <= PCP_RETX_MRC - 1
            && (f.state == Send && (h == HSend || h == HResend) ==> JustSent(f1, e1))
            && (h == HWaitResp ==> f1 == f)
  {
    if h == HResend && f.retry + 1 < PCP_RETX_MRC {
      WaitGrows(f.retry, f.resend, sys.rnd);
    }
  }

  /** Every chain keeps the invariant, for every clock, send outcome and random value;
      a flow that the chain brought to wait_resp waits at least 2625 ms. */
  lemma {:induction false} ChainKeepsRetx(env: Env, k: nat, f: Flow, link: Link, e: FlowEvent, msg: Option<Msg>)
    requires EventOk(e, msg)
    requires RetxOk(f) && JustSent(f, e)
    ensures var f' := RunFlow(env, k, f, link, e, msg).0;
            && RetxOk(f')
            && (f'.state == WaitResp && NextState(f.state, e).Some? ==> SHORTEST_WAIT <= f'.resend)
    decreases Rank(f.state, e)
  {
    hide Handle;
    match NextState(f.state, e)
    case None =>
    case Some(next) =>
      match HandlerFor(f.state, next)
      case None =>
      case Some(h) =>
        var (f1, e1) := Handle(h, f.(state := next), link, msg, env(k));
        HandlerKeepsRetx(h, f.(state := next), link, msg, env(k));
        if e1 != NoEvent {
          ChainKeepsRetx(env, k + 1, f1, link, e1, msg);
        }
  }

  /** Where a flow comes from that is reported as succeeded. */
  lemma {:induction false} RenewHasCause(env: Env, k: nat, f: Flow, link: Link, e: FlowEvent, msg: Option<Msg>)
    requires EventOk(e, msg)
    ensures RunFlow(env, k, f, link, e, msg).0.state == WaitForLifetimeRenew
            ==> || f.state == WaitForLifetimeRenew || f.state == SendRenew
                || (f.state == WaitResp && e == Result(RES_SUCCESS))
                || link.isRestart || e == Ignored
    decreases Rank(f.state, e)
  {
    hide Handle;
    match NextState(f.state, e)
    case None =>
    case Some(next) =>
      match HandlerFor(f.state, next)
      case None =>
      case Some(h) =>
        var (f1, e1) := Handle(h, f.(state := next), link, msg, env(k));
        IgnoredOnlyAtRestart(h, f.(state := next), link, msg, env(k));
        if e1 != NoEvent {
          RenewHasCause(env, k + 1, f1, link, e1, msg);
        }
  }

  lemma IgnoredOnlyAtRestart(h: Handler, f: Flow, link: Link, msg: Option<Msg>, sys: Sys)
    requires h == HShortLife || h == HSuccess ==> msg.Some?
    ensures Handle(h, f, link, msg, sys).1 == Ignored ==> link.isRestart
  {
  }

  /** The two outcomes of an attempt to send while the clock stands at t: one message went
      out and the timer is ahead, or none went out and the flow failed. */
  ghost predicate SentOrFailed(f: Flow, f': Flow, t: int) {
    || (f'.state == WaitResp && f'.hist.sent == f.hist.sent + 1
        && SHORTEST_WAIT <= f'.resend && f'.timeout == t + f'.resend * 1000)
    || (f'.state == Failed && f'.hist.sent == f.hist.sent && f'.timeout == 0)
  }

  /** An event that leads to the send state, the clock held still: one message or failure. */
  lemma SendingChain(env: Env, k: nat, f: Flow, link: Link, e: FlowEvent, msg: Option<Msg>, t: int)
    requires EventOk(e, msg) && Still(env, t) && RetxOk(f)
    requires NextState(f.state, e) == Some(Send)
    requires !link.isRestart || f.state == WaitResp
    ensures SentOrFailed(f, RunFlow(env, k, f, link, e, msg).0, t)
  {
    var h := HandlerFor(f.state, Send).value;
    var f0 := f.(state := Send);
    var (f1, e1) := Handle(h, f0, link, msg, env(k));
    if h == HResend && f.retry + 1 < PCP_RETX_MRC {
      WaitGrows(f.retry, f.resend, env(k).rnd);
    }
    assert RunFlow(env, k, f, link, e, msg) == RunFlow(env, k + 1, f1, link, e1, msg);
    if e1 == MsgSent {
      assert SHORTEST_WAIT <= f1.resend && f1.timeout == t + f1.resend * 1000 && f1.hist.sent == f.hist.sent + 1;
      hide RetransmissionTime, HandleResend, HandleSend;
      SentChain(env, k + 1, f1, link, msg, t);
    } else {
      assert f1.hist.sent == f.hist.sent;
      hide RetransmissionTime, HandleResend, HandleSend;
      FailedChain(env, k + 1, f1, link, msg);
    }
  }

  /** A message whose reply is overdue before it is waited for is a failure; exactly then. */
  lemma OverdueFails(env: Env, k: nat, f: Flow, link: Link, msg: Option<Msg>)
    requires f.state == Send
    ensures RunFlow(env, k, f, link, MsgSent, msg).0.state == if f.timeout < env(k).now then Failed else WaitResp
  {
    var (f1, e1) := Handle(HWaitResp, f.(state := WaitResp), link, msg, env(k));
    if e1 == NoEvent {
      assert RunFlow(env, k, f, link, MsgSent, msg) == (f1, k + 1);
    } else {
      assert RunFlow(env, k, f, link, MsgSent, msg) == RunFlow(env, k + 1, f1, link, SendFailed, msg);
    }
  }

  /** The first message of a flow: the wait is the initial one, and no retransmission is counted. */
  lemma FirstWaitIsInitial(env: Env, k: nat, f: Flow, link: Link, e: FlowEvent, msg: Option<Msg>)
    requires EventOk(e, msg) && NextState(f.state, e) == Some(Send) && f.state != WaitResp
    ensures var f' := RunFlow(env, k, f, link, e, msg).0;
            && f'.retry == f.retry && f'.hist.resent == f.hist.resent
            && (f'.state == WaitResp ==> f'.resend == PCP_RETX_IRT)
  {
    var (f1, e1) := Handle(HSend, f.(state := Send), link, msg, env(k));
    assert RunFlow(env, k, f, link, e, msg) == RunFlow(env, k + 1, f1, link, e1, msg);
    if e1 == MsgSent {
      AfterSending(env, k + 1, f1, link, msg);
    } else if e1 == SendFailed {
      FailedChain(env, k + 1, f1, link, msg);
      FailedKeeps(env, k + 1, f1, link, msg);
    } else {
      assert HandlerFor(Send, WaitForLifetimeRenew) == None;
    }
  }

  /** The next ones: each counts, and waits from 7/8 to 9/8 of twice the wait before, until the third
      would be due and the flow fails. */
  lemma NextWaitDoubles(env: Env, k: nat, f: Flow, link: Link, e: FlowEvent, msg: Option<Msg>)
    requires EventOk(e, msg) && NextState(f.state, e) == Some(Send) && f.state == WaitResp && RetxOk(f)
    ensures var f' := RunFlow(env, k, f, link, e, msg).0;
            && f'.retry == f.retry + (if link.hasServer then 1 else 0)
            && (f'.state == WaitResp ==>
                  && f.retry + 1 < PCP_RETX_MRC && f'.hist.resent == f.hist.resent + 1
                  && var doubled := Max(2 * f.resend, PCP_RETX_IRT);
                     7 * doubled - 7 <= 8 * f'.resend <= 9 * doubled)
  {
    RetransmissionTimeExact(f.resend, env(k).rnd);
    hide RetransmissionTime;
    var (f1, e1) := Handle(HResend, f.(state := Send), link, msg, env(k));
    assert RunFlow(env, k, f, link, e, msg) == RunFlow(env, k + 1, f1, link, e1, msg);
    if e1 == MsgSent {
      AfterSending(env, k + 1, f1, link, msg);
    } else {
      FailedChain(env, k + 1, f1, link, msg);
      FailedKeeps(env, k + 1, f1, link, msg);
    }
  }

  lemma AfterSending(env: Env, k: nat, f: Flow, link: Link, msg: Option<Msg>)
    requires f.state == Send
    ensures var f' := RunFlow(env, k, f, link, MsgSent, msg).0;
            f'.retry == f.retry && f'.resend == f.resend && f'.hist == f.hist
  {
    var (f1, e1) := Handle(HWaitResp, f.(state := WaitResp), link, msg, env(k));
    assert f1 == f.(state := WaitResp);
    if e1 != NoEvent {
      assert RunFlow(env, k, f, link, MsgSent, msg) == RunFlow(env, k + 1, f1, link, SendFailed, msg);
    }
  }

  lemma FailedKeeps(env: Env, k: nat, f: Flow, link: Link, msg: Option<Msg>)
    requires f.state == Send
    ensures RunFlow(env, k, f, link, SendFailed, msg).0.retry == f.retry
  {
  }

  lemma SentChain(env: Env, k: nat, f: Flow, link: Link, msg: Option<Msg>, t: int)
    requires f.state == Send && Still(env, t) && f.timeout >= t
    ensures RunFlow(env, k, f, link, MsgSent, msg) == (f.(state := WaitResp), k + 1)
  {
    assert Handle(HWaitResp, f.(state := WaitResp), link, msg, env(k)).1 == NoEvent;
  }

  lemma FailedChain(env: Env, k: nat, f: Flow, link: Link, msg: Option<Msg>)
    requires f.state == Send
    ensures var f' := RunFlow(env, k, f, link, SendFailed, msg).0;
            f'.state == Failed && f'.timeout == 0 && f'.hist == f.hist
  {
  }

  /** The flow whose message announced the restart is not sent again: it goes straight back
      to waiting for renewal. */
  lemma RestartFlowSkipped(env: Env, k: nat, f: Flow, e: FlowEvent, msg: Option<Msg>)
    requires EventOk(e, msg)
    requires NextState(f.state, e) == Some(Send) && f.state != WaitResp
    ensures RunFlow(env, k, f, Link(true, true), e, msg) == (f.(state := WaitForLifetimeRenew), k + 1)
  {
    var f0 := f.(state := Send);
    assert Handle(HSend, f0, Link(true, true), msg, env(k)) == (f0, Ignored);
    assert HandlerFor(Send, WaitForLifetimeRenew) == None;
    assert RunFlow(env, k + 1, f0, Link(true, true), Ignored, msg)
        == (f0.(state := WaitForLifetimeRenew), k + 1);
  }
}
