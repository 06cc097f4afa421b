/** What was received for a flow changes by a message only: every handler that runs on a timeout, and
    so every pulse without a message, leaves it alone. */
module Silence {
  import opened Types
  import opened FlowMachine
  import opened Retransmission
  import opened ServerMachine
  import opened Invariant
  import opened Handlers
  import opened Recovery
  import opened Pump
  import opened Runs

  /** What the flow is, what was asked for it and what was received for it. */
  ghost predicate SameAnswer(a: Flow, b: Flow) {
    && SameIdentity(a, b)
    && b.ext == a.ext && b.recvLifetime == a.recvLifetime && b.recvResult == a.recvResult
  }

  ghost predicate Silent(w: World, w': World) {
    |w.flows| <= |w'.flows| && forall id :: 0 <= id < |w.flows| ==> SameAnswer(w.flows[id], w'.flows[id])
  }

  lemma HandlerIsSilent(h: Handler, f: Flow, link: Link, msg: Option<Msg>, sys: Sys)
    requires h != HShortLife && h != HSuccess && msg.None?
    ensures SameAnswer(f, Handle(h, f, link, msg, sys).0)
  {
  }

  /** Without a message no chain reaches a handler that reads one. */
  lemma {:induction false} ChainsAreSilent(env: Env, k: nat, f: Flow, link: Link, e: FlowEvent, msg: Option<Msg>)
    requires EventOk(e, msg) && msg.None?
    ensures SameAnswer(f, RunFlow(env, k, f, link, e, msg).0)
    decreases Rank(f.state, e)
  {
    hide Handle, SameAnswer;
    MovedAnswer(f, f.state);
    match NextState(f.state, e)
    case None =>
    case Some(next) =>
      MovedAnswer(f, next);
      match HandlerFor(f.state, next)
      case None =>
      case Some(h) =>
        var f0 := f.(state := next);
        var (f1, e1) := Handle(h, f0, link, msg, env(k));
        HandlerIsSilent(h, f0, link, msg, env(k));
        SameAnswerTwice(f, f0, f1);
        if e1 != NoEvent {
          ChainsAreSilent(env, k + 1, f1, link, e1, msg);
          SameAnswerTwice(f, f1, RunFlow(env, k + 1, f1, link, e1, msg).0);
        }
  }

  lemma ChainIsSilent(env: Env, k: nat, f: Flow, link: Link, e: FlowEvent)
    requires EventOk(e, None)
    ensures SameAnswer(f, RunFlow(env, k, f, link, e, None).0)
  {
    hide RunFlow, SameAnswer;
    ChainsAreSilent(env, k, f, link, e, None);
  }

  lemma MovedAnswer(f: Flow, s: FlowState)
    ensures SameAnswer(f, f.(state := s))
  {
  }

  lemma SameAnswerTwice(a: Flow, b: Flow, c: Flow)
    requires SameAnswer(a, b) && SameAnswer(b, c)
    ensures SameAnswer(a, c)
  {
  }

  lemma EventIsSilent(env: Env, w: World, id: nat, e: FlowEvent)
    requires id < |w.flows| && EventOk(e, None)
    ensures Silent(w, FlowEventAt(env, w, id, e, None))
  {
    hide RunFlow;
    ChainIsSilent(env, w.calls, w.flows[id], LinkOf(w, id), e);
  }

  lemma CheckIsSilent(env: Env, w: World, id: nat, tout: int)
    requires id < |w.flows|
    ensures Silent(w, CheckFlowTimeout(env, w, id, tout).0)
  {
    hide FlowEventAt;
    EventIsSilent(env, Looked(w), id, FlowTimedOut);
  }

  lemma {:induction false} CheckAllIsSilent(env: Env, w: World, ids: seq<nat>, tout: int)
    requires InRange(ids, |w.flows|)
    ensures Silent(w, CheckAll(env, w, ids, tout).0)
    decreases |ids|
  {
    hide CheckFlowTimeout, SameAnswer;
    if ids == [] {
      Unchanged(w);
    } else {
      CheckIsSilent(env, w, ids[0], tout);
      var (w1, tout1) := CheckFlowTimeout(env, w, ids[0], tout);
      CheckAllIsSilent(env, w1, ids[1..], tout1);
      SilentTwice(w, w1, CheckAll(env, w, ids, tout).0);
    }
  }

  lemma Unchanged(w: World)
    ensures Silent(w, w)
  {
  }

  lemma SilentTwice(w: World, w1: World, w': World)
    requires Silent(w, w1) && Silent(w1, w')
    ensures Silent(w, w')
  {
  }

  lemma SendEventIsSilent(env: Env, w: World, i: nat, id: nat, e: FlowEvent)
    requires i < |w.servers| && id < |w.flows| && EventOk(e, None)
    ensures Silent(w, SendEventTo(env, w, i, id, e))
  {
    hide FlowEventAt, CheckFlowTimeout, SameAnswer;
    Unchanged(w);
    if w.flows[id].server == i {
      EventIsSilent(env, w, id, e);
      EventKeepsLength(env, w, id, e);
      var w1 := FlowEventAt(env, w, id, e, None);
      CheckIsSilent(env, w1, id, w.servers[i].nextTimeout);
      SilentTwice(w, w1, CheckFlowTimeout(env, w1, id, w.servers[i].nextTimeout).0);
    }
  }

  lemma EventKeepsLength(env: Env, w: World, id: nat, e: FlowEvent)
    requires id < |w.flows| && EventOk(e, None)
    ensures var w' := FlowEventAt(env, w, id, e, None);
            |w'.flows| == |w.flows| && w'.servers == w.servers && w'.order == w.order
  {
    hide RunFlow;
  }

  lemma {:induction false} SendEventsIsSilent(env: Env, w: World, i: nat, ids: seq<nat>, e: FlowEvent)
    requires i < |w.servers| && InRange(ids, |w.flows|) && EventOk(e, None)
    ensures Silent(w, SendEvents(env, w, i, ids, e))
    decreases |ids|
  {
    hide SendEventTo, SameAnswer;
    if ids == [] {
      Unchanged(w);
    } else {
      SendEventIsSilent(env, w, i, ids[0], e);
      var w1 := SendEventTo(env, w, i, ids[0], e);
      SendEventsIsSilent(env, w1, i, ids[1..], e);
      SilentTwice(w, w1, SendEvents(env, w, i, ids, e));
    }
  }

  /** A flow prepared in one of the fields that no message writes. */
  lemma PreparedIsSilent(w: World, id: nat, f: Flow)
    requires id < |w.flows| && SameAnswer(w.flows[id], f)
    ensures Silent(w, SetFlow(w, id, f))
  {
  }

  lemma TryPingIsSilent(env: Env, w: World, i: nat, id: nat)
    requires i < |w.servers| && id < |w.flows|
    ensures Silent(w, TryPing(env, w, i, id))
  {
    hide FlowEventAt;
    var w1 := SetServer(w, i, w.servers[i].(pingFlow := Some(id)));
    var w2 := SetFlow(w1, id, ResetRetry(w1.flows[id]));
    EventIsSilent(env, w2, id, DoSend);
    SilentTwice(w, w2, TryPing(env, w, i, id));
  }

  lemma {:induction false} PingLoopIsSilent(env: Env, w: World, i: nat)
    requires i < |w.servers| && InRange(w.order, |w.flows|)
    ensures Silent(w, PingLoop(env, w, i))
    decreases NumPingable(w.flows, w.order, i)
  {
    hide TryPing, PingLoop, FirstPingable, NumPingable, SameAnswer, Pingable;
    PingLoopUnfold(env, w, i);
    Unchanged(w);
    var found := FirstPingable(w.flows, w.order, i);
    if found.Some? {
      TryPingIsSilent(env, w, i, found.value);
      var w1 := TryPing(env, w, i, found.value);
      if w1.flows[found.value].state == Failed {
        PingLoopIsSilent(env, w1, i);
        SilentTwice(w, w1, PingLoop(env, w1, i));
      }
    }
  }

  lemma WaitPingIsSilent(env: Env, w: World, i: nat)
    requires i < |w.servers| && RefOk(w.servers[i].pingFlow, |w.flows|)
    ensures Silent(w, WaitPingTimeout(env, w, i))
  {
    hide FlowEventAt, SameAnswer;
    Unchanged(w);
    var s := w.servers[i].(pingCount := w.servers[i].pingCount + 1);
    if s.pingFlow.Some? {
      EventKeepsLength(env, SetServer(w, i, s), s.pingFlow.value, FlowTimedOut);
      EventIsSilent(env, SetServer(w, i, s), s.pingFlow.value, FlowTimedOut);
    }
  }

  lemma NegotiatePingIsSilent(env: Env, w: World, i: nat, id: nat)
    requires i < |w.servers| && id < |w.flows|
    ensures Silent(w, NegotiatePing(env, w, i, id))
  {
    hide FlowEventAt;
    var w1 := SetFlow(w, id, ResetRetry(w.flows[id]).(resend := 0));
    EventIsSilent(env, w1, id, DoSend);
    EventKeepsLength(env, w1, id, DoSend);
    hide SameAnswer;
    SilentTwice(w, w1, FlowEventAt(env, w1, id, DoSend, None));
  }

  lemma NatPmpIsSilent(w: World, i: nat)
    requires i < |w.servers| && InRange(w.order, |w.flows|) && RefOk(w.servers[i].pingFlow, |w.flows|)
    ensures Silent(w, StartNatPmp(w, i))
    ensures RefOk(StartNatPmp(w, i).servers[i].pingFlow, |StartNatPmp(w, i).flows|)
  {
    hide InsertByBucket;
  }

  lemma NegotiateIsSilent(env: Env, w: World, i: nat)
    requires i < |w.servers| && InRange(w.order, |w.flows|) && RefOk(w.servers[i].pingFlow, |w.flows|)
    ensures Silent(w, Negotiate(env, w, i))
  {
    hide StartNatPmp, NegotiatePing, FirstPingable, SameAnswer;
    Unchanged(w);
    var s := w.servers[i];
    if s.version != 0 {
      var w1 := SetServer(w, i, AdoptVersion(s));
      var w2 := if NextVersion(s) == 0 then StartNatPmp(w1, i) else w1;
      NatPmpIsSilent(w1, i);
      if w2.servers[i].pingFlow.Some? {
        NegotiatePingIsSilent(env, w2, i, w2.servers[i].pingFlow.value);
        SilentTwice(w, w2, NegotiatePing(env, w2, i, w2.servers[i].pingFlow.value));
      } else {
        var found := FirstPingable(w2.flows, w2.order, i);
        if found.Some? {
          var w3 := SetServer(w2, i, w2.servers[i].(pingFlow := found));
          NegotiatePingIsSilent(env, w3, i, found.value);
          SilentTwice(w, w2, NegotiatePing(env, w3, i, found.value));
        }
      }
    }
  }

  lemma WalksAreSilent(env: Env, w: World, i: nat)
    requires i < |w.servers| && InRange(w.order, |w.flows|)
    ensures Silent(w, SendAll(env, w, i)) && Silent(w, HandleRestart(env, w, i)) && Silent(w, FailAll(env, w, i))
    ensures Silent(w, WaitIoTimeout(env, w, i))
  {
    hide SendEvents, CheckAll, SameAnswer;
    SendEventsIsSilent(env, w, i, w.order, ServerInitialized);
    SendEventsIsSilent(env, w, i, w.order, ServerRestarted);
    SendEventsIsSilent(env, w, i, w.order, SendFailed);
    CheckAllIsSilent(env, SetServer(w, i, w.servers[i].(nextTimeout := 0)), w.order, 0);
  }

  /** Every handler that a due timer of a server runs. */
  lemma TimeoutIsSilent(env: Env, w: World, i: nat, msg: Msg, t: int)
    requires Wf(w) && i < |w.servers| && Still(env, t) && Due(w.servers[i], t)
    ensures Silent(w, RunServer(env, w, i, Timeout, msg))
  {
    assert InRange(w.order, |w.flows|) && RefOk(w.servers[i].pingFlow, |w.flows|);
    hide WaitPingTimeout, Negotiate, SendAll, WaitIoTimeout, HandleRestart, FailAll, PingLoop;
    hide ReceiveMsg, WaitPingRecv, Wf, SameAnswer, ProcessReceived;
    Unchanged(w);
    match ServerHandlerFor(w.servers[i].state, Timeout) {
      case HPing => PingLoopIsSilent(env, SetServer(w, i, w.servers[i].(pingCount := 0)), i);
      case HWaitPingTimeout => WaitPingIsSilent(env, w, i);
      case HNegotiate => NegotiateIsSilent(env, w, i);
      case HSendAll => WalksAreSilent(env, w, i);
      case HRestart => WalksAreSilent(env, w, i);
      case HSetNotWorking => WalksAreSilent(env, w, i);
      case HWaitIoTimeout => WalksAreSilent(env, w, i);
      case HNotWorking =>
      case HReping =>
      case HIgnore =>
      case HUnexpected =>
      case _ => assert false;
    }
  }

  lemma {:induction false} PumpIsSilent(env: Env, t: int, w: World, i: nat, msg: Msg)
    requires Inv(w) && i < |w.servers| && Still(env, t) && msg.version <= PCP_MAX_SUPPORTED_VERSION
    ensures Silent(w, PumpLoop(env, t, w, i, msg))
    decreases if Due(w.servers[i], t) then 1 + ServerRank(w.servers[i]) else 0
  {
    hide RunServer, SameAnswer, Inv;
    Unchanged(w);
    if Due(w.servers[i], t) {
      InvIsWf(w);
      RunServerKeeps(env, w, i, Timeout, msg);
      StepProgress(env, w, i, msg, t);
      TimeoutIsSilent(env, w, i, msg, t);
      var w1 := RunServer(env, w, i, Timeout, msg);
      PumpIsSilent(env, t, w1, i, msg);
      SilentTwice(w, w1, PumpLoop(env, t, w, i, msg));
    }
  }

  lemma {:induction false} TimeoutsAreSilent(env: Env, t: int, w: World, n: nat, wait: int)
    requires Inv(w) && AtRest(w) && Still(env, t) && n <= |w.servers|
    ensures Silent(w, TimeoutsFrom(env, t, w, n, wait).0)
    decreases |w.servers| - n
  {
    hide HandleServer, TimeoutsFrom, SameAnswer, Inv, AtRest, PumpLoop;
    TimeoutsUnfold(env, t, w, n, wait);
    Unchanged(w);
    if n < |w.servers| {
      RestOf(w, n);
      PumpEnd(env, t, w, n, NO_MSG);
      PumpIsSilent(env, t, w, n, NO_MSG);
      var w1 := HandleServer(env, t, w, n, Timeout, NO_MSG);
      TimeoutsAreSilent(env, t, w1, n + 1, WaitWith(wait, w1.servers[n], t));
      SilentTwice(w, w1, TimeoutsFrom(env, t, w, n, wait).0);
    }
  }

  /** A pulse without a message changes nothing that was received, for any flow. */
  lemma PulseWithoutMessageIsSilent(env: Env, t: int, w: World, wait: int)
    requires Inv(w) && AtRest(w) && Still(env, t)
    ensures Silent(w, Pulse(env, t, w, None, wait).0)
  {
    TimeoutsAreSilent(env, t, w, 0, wait);
  }
}
