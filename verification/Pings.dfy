/** Pinging a server, with the clock held still: what an unanswered ping and a negotiated version do. */
module Pings {
  import opened Types
  import opened FlowMachine
  import opened Retransmission
  import opened Renewal
  import opened ServerMachine
  import opened Invariant
  import opened Handlers
  import opened Recovery
  import opened Timers
  import opened Pump
  import opened Consequences

  /** A message went out for flow id and the server i waits for the reply as long as the flow does; or
      the flow failed and the server is given up. No other flow changed. */
  ghost predicate Pinged(w: World, w': World, i: nat, id: nat, t: int) {
    && i < |w'.servers| == |w.servers| && id < |w.flows| == |w'.flows|
    && SentOrFailed(w.flows[id], w'.flows[id], t)
    && w'.servers[i].pingFlow == Some(id)
    && (w'.flows[id].state == WaitResp ==>
          w'.servers[i].state == WaitPingResp && w'.servers[i].nextTimeout == w'.flows[id].timeout > t)
    && (w'.flows[id].state == Failed ==> w'.servers[i].state == SetNotWorking)
    && forall x :: 0 <= x < |w.flows| && x != id ==> w'.flows[x] == w.flows[x]
  }

  lemma EventOfOne(env: Env, w: World, id: nat, e: FlowEvent, t: int)
    requires id < |w.flows| && FlowOk(w.flows[id]) && Still(env, t) && EventOk(e, None)
    requires NextState(w.flows[id].state, e) == Some(Send) && !LinkOf(w, id).isRestart
    ensures var w' := FlowEventAt(env, w, id, e, None);
            && |w'.flows| == |w.flows| && w'.servers == w.servers && w'.order == w.order
            && SentOrFailed(w.flows[id], w'.flows[id], t)
            && forall x :: 0 <= x < |w.flows| && x != id ==> w'.flows[x] == w.flows[x]
  {
    hide RunFlow;
    SendingChain(env, w.calls, w.flows[id], LinkOf(w, id), e, None, t);
  }

  /** An unanswered ping below the limit: the flow is sent again, and the server waits for its new
      timer; or the flow has used up its retransmissions, or the socket fails, and the server is given up. */
  lemma PingIsRetried(env: Env, w: World, i: nat, id: nat, t: int)
    requires Inv(w) && Wf(w) && i < |w.servers| && Still(env, t) && PingGoesOn(w, i) && w.servers[i].pingFlow == Some(id)
    ensures var w' := WaitPingTimeout(env, w, i);
            Pinged(w, w', i, id, t) && w'.servers[i].pingCount == w.servers[i].pingCount + 1
  {
    assert ServerOk(w, i) && FlowOk(w.flows[id]);
    hide FlowEventAt, Inv, Wf, SentOrFailed, ServerOk;
    var w1 := SetServer(w, i, w.servers[i].(pingCount := w.servers[i].pingCount + 1));
    EventOfOne(env, w1, id, FlowTimedOut, t);
    SentStates(w.flows[id], FlowEventAt(env, w1, id, FlowTimedOut, None).flows[id], t);
  }

  /** The guard of the lemma: there is a ping flow that its timer sends again. */
  predicate PingGoesOn(w: World, i: nat)
    requires i < |w.servers|
  {
    var s := w.servers[i];
    && s.state == WaitPingResp && s.pingCount + 1 < PCP_MAX_PING_COUNT && s.pingFlow.Some?
    && s.pingFlow.value < |w.flows| && NextState(w.flows[s.pingFlow.value].state, FlowTimedOut) == Some(Send)
  }

  lemma SentStates(f: Flow, f': Flow, t: int)
    requires SentOrFailed(f, f', t)
    ensures (f'.state == WaitResp && f'.timeout > t) || f'.state == Failed
  {
  }

  /** At the limit nothing is sent any more. */
  lemma LastPingGivesUp(env: Env, w: World, i: nat, t: int)
    requires i < |w.servers| && RefOk(w.servers[i].pingFlow, |w.flows|) && Still(env, t)
    requires w.servers[i].pingCount + 1 >= PCP_MAX_PING_COUNT
    ensures var w' := WaitPingTimeout(env, w, i);
            && w'.flows == w.flows && i < |w'.servers|
            && w'.servers[i].state == SetNotWorking && w'.servers[i].nextTimeout == t
  {
  }

  /** Without a ping flow, because it was deleted, the server looks for another one. */
  lemma LostPingSearches(env: Env, w: World, i: nat, t: int)
    requires i < |w.servers| && w.servers[i].pingFlow == None && Still(env, t)
    requires w.servers[i].pingCount + 1 < PCP_MAX_PING_COUNT
    ensures var w' := WaitPingTimeout(env, w, i);
            && w'.flows == w.flows && i < |w'.servers|
            && w'.servers[i].state == Ping && w'.servers[i].nextTimeout == t
  {
  }

  lemma TimedOutIsAhead(env: Env, k: nat, f: Flow, link: Link, t: int)
    requires Still(env, t) && FlowOk(f) && !link.isRestart && !Deaf(f) && !Overdrawn(f, t)
    ensures !Stale(RunFlow(env, k, f, link, FlowTimedOut, None).0, t)
  {
    if f.state == WaitForLifetimeRenew {
      RenewalStale(env, k, f, link, t);
    } else {
      hide RunFlow;
      SendingChain(env, k, f, link, FlowTimedOut, None, t);
    }
  }

  lemma PingCountedOnce(env: Env, w: World, i: nat, t: int)
    requires Inv(w) && Wf(w) && i < |w.servers| && Still(env, t) && w.servers[i].state == WaitPingResp
    requires w.servers[i].pingFlow.Some? ==>
               var f := w.flows[w.servers[i].pingFlow.value]; f.state == Failed || (!Deaf(f) && !Overdrawn(f, t))
    ensures var w' := WaitPingTimeout(env, w, i);
            && i < |w'.servers| && w'.servers[i].pingCount == w.servers[i].pingCount + 1
            && (|| (w'.servers[i].state == WaitPingResp && !Due(w'.servers[i], t))
                || (w'.servers[i].state == SetNotWorking && w'.servers[i].nextTimeout == t)
                || (w'.servers[i].state == Ping && w'.servers[i].pingFlow == None && w.servers[i].pingFlow == None))
  {
    assert ServerOk(w, i);
    var s := w.servers[i].(pingCount := w.servers[i].pingCount + 1);
    if s.pingFlow.Some? {
      var id := s.pingFlow.value;
      var f, w1 := w.flows[id], SetServer(w, i, s);
      assert FlowOk(f) && !LinkOf(w1, id).isRestart;
      if f.state != Failed {
        TimedOutIsAhead(env, w1.calls, f, LinkOf(w1, id), t);
      } else {
        assert RunFlow(env, w1.calls, f, LinkOf(w1, id), FlowTimedOut, None).0 == f;
      }
      hide RunFlow, Inv, Wf, ServerOk, LinkOf;
    }
  }

  /** One call of hserver_iter counts one unanswered ping and no more, unless the ping flow is one
      whose stale timer stays: without a transition, or granted beyond its lifetime. */
  lemma OnePingPerCall(env: Env, t: int, w: World, i: nat, msg: Msg)
    requires Inv(w) && i < |w.servers| && Still(env, t) && msg.version <= PCP_MAX_SUPPORTED_VERSION
    requires w.servers[i].state == WaitPingResp && Due(w.servers[i], t)
    requires w.servers[i].pingFlow.Some? && w.servers[i].pingFlow.value < |w.flows|
    requires var f := w.flows[w.servers[i].pingFlow.value]; f.state == Failed || (!Deaf(f) && !Overdrawn(f, t))
    ensures var w' := HandleServer(env, t, w, i, Timeout, msg);
            && i < |w'.servers| && w'.servers[i].pingCount == w.servers[i].pingCount + 1
            && (w'.servers[i].state == WaitPingResp || w'.servers[i].state == NotWorking)
  {
    hide Inv, RunServer, PumpLoop, HandleServer, WaitPingTimeout, FailAll, Overdrawn;
    PumpEnd(env, t, w, i, msg);
    PumpStep(env, t, w, i, msg);
    var w1 := RunServer(env, w, i, Timeout, msg);
    RunsPingTimeout(env, w, i, msg);
    PingCountedOnce(env, w, i, t);
    if w1.servers[i].state == SetNotWorking {
      PumpStep(env, t, w1, i, msg);
      RunsFailAll(env, w1, i, msg);
      FailAllServer(env, w1, i, t);
      PumpEnd(env, t, FailAll(env, w1, i), i, msg);
    } else {
      PumpEnd(env, t, w1, i, msg);
    }
  }

  lemma RunsPingTimeout(env: Env, w: World, i: nat, msg: Msg)
    requires Wf(w) && i < |w.servers|
    ensures w.servers[i].state == WaitPingResp ==> RunServer(env, w, i, Timeout, msg) == WaitPingTimeout(env, w, i)
  {
    hide ServerPing, WaitPingTimeout, Negotiate, SendAll, WaitIoTimeout, HandleRestart, FailAll;
    hide ReceiveMsg, WaitPingRecv, HandleNotWorking, Reping;
  }

  lemma RunsFailAll(env: Env, w: World, i: nat, msg: Msg)
    requires Wf(w) && i < |w.servers|
    ensures w.servers[i].state == SetNotWorking ==> RunServer(env, w, i, Timeout, msg) == FailAll(env, w, i)
  {
    hide ServerPing, WaitPingTimeout, Negotiate, SendAll, WaitIoTimeout, HandleRestart, FailAll;
    hide ReceiveMsg, WaitPingRecv, HandleNotWorking, Reping;
  }

  lemma FailAllServer(env: Env, w: World, i: nat, t: int)
    requires Inv(w) && i < |w.servers| && Still(env, t)
    ensures var s' := FailAll(env, w, i).servers[i];
            && s'.pingCount == w.servers[i].pingCount && s'.state == NotWorking
            && s'.nextTimeout == t + PCP_SERVER_DISCOVERY_RETRY_DELAY * SECOND
  {
    hide SendEvents;
    SendEventsKeeps(env, w, i, w.order, SendFailed);
  }

  // ----- negotiation -----------------------------------------------------------------

  /** What pinging with a new version does: retransmissions are counted anew. */
  lemma NegotiationPings(env: Env, w: World, i: nat, id: nat, t: int)
    requires Inv(w) && i < |w.servers| && Still(env, t) && Owned(w, i, id)
    requires w.servers[i].restartFlow == None && w.servers[i].pingFlow == Some(id)
    ensures Pinged(w, NegotiatePing(env, w, i, id), i, id, t)
    ensures NegotiatePing(env, w, i, id).flows[id].retry <= 1
  {
    var f := ResetRetry(w.flows[id]).(resend := 0);
    assert FlowOk(w.flows[id]);
    var w1 := SetFlow(w, id, f);
    hide RunFlow, FlowOk, Inv, SentOrFailed;
    FreshIsRetxOk(w.flows[id]);
    SendingChain(env, w1.calls, f, LinkOf(w1, id), DoSend, None, t);
    if f.state == WaitResp {
      NextWaitDoubles(env, w1.calls, f, LinkOf(w1, id), DoSend, None);
    } else {
      FirstWaitIsInitial(env, w1.calls, f, LinkOf(w1, id), DoSend, None);
    }
    SameSent(w.flows[id], f, FlowEventAt(env, w1, id, DoSend, None).flows[id], t);
    SentStates(f, FlowEventAt(env, w1, id, DoSend, None).flows[id], t);
  }

  lemma FreshIsRetxOk(f: Flow)
    requires FlowOk(f)
    ensures RetxOk(ResetRetry(f).(resend := 0))
  {
  }

  lemma SameSent(f: Flow, g: Flow, f': Flow, t: int)
    requires g.hist.sent == f.hist.sent && SentOrFailed(g, f', t)
    ensures SentOrFailed(f, f', t)
  {
  }

  /** The context once the version is adopted: at version 0 with the announcement as the ping flow. */
  function Adopted(w: World, i: nat): (r: World)
    requires i < |w.servers| && InRange(w.order, |w.flows|) && RefOk(w.servers[i].pingFlow, |w.flows|)
    ensures |r.servers| == |w.servers| && InRange(r.order, |r.flows|)
  {
    var w1 := SetServer(w, i, AdoptVersion(w.servers[i]));
    if NextVersion(w.servers[i]) == 0 then StartNatPmp(w1, i) else w1
  }

  lemma AdoptedIsSound(w: World, i: nat)
    requires Inv(w) && Wf(w) && i < |w.servers| && w.servers[i].state == VersionNegotiation && w.servers[i].version != 0
    ensures Inv(Adopted(w, i)) && Wf(Adopted(w, i))
    ensures Adopted(w, i).servers[i].restartFlow == None
    ensures NextVersion(w.servers[i]) == 0 ==>
              var w2 := Adopted(w, i);
              w2.servers[i].pingFlow == Some(|w.flows|) && |w.flows| < |w2.flows|
              && w2.flows[|w.flows|].key.op == OP_ANNOUNCE
  {
    assert ServerOk(w, i);
    var s := w.servers[i];
    var w1 := SetServer(w, i, AdoptVersion(s));
    SetServerStep(w, i, w1.servers[i], w1);
    StepKeepsInv(w, w1, i);
    InvIsWf(w1);
    hide Inv, StartNatPmp, Wf;
    if NextVersion(s) == 0 {
      StartNatPmpKeeps(w1, i);
      StepKeepsInv(w1, StartNatPmp(w1, i), i);
      NatPmpFlow(w1, i);
    }
    InvIsWf(Adopted(w, i));
  }

  lemma NatPmpFlow(w: World, i: nat)
    requires i < |w.servers| && InRange(w.order, |w.flows|) && RefOk(w.servers[i].pingFlow, |w.flows|)
    ensures StartNatPmp(w, i).flows[|w.flows|] == AnnounceFlow(w, i)
  {
    hide InsertByBucket;
  }

  /** A negotiation above version 0 ends with a ping in the new version, of the ping flow there is or of the
      first flow that can be pinged, or with no flow to ping. */
  lemma NegotiationEnds(env: Env, w: World, i: nat, t: int)
    requires Inv(w) && Wf(w) && i < |w.servers| && Still(env, t)
    requires w.servers[i].state == VersionNegotiation && w.servers[i].version != 0
    ensures var w2, w' := Adopted(w, i), Negotiate(env, w, i);
            var found := if w2.servers[i].pingFlow.Some? then w2.servers[i].pingFlow else FirstPingable(w2.flows, w2.order, i);
            if found.Some? then Pinged(w2, w', i, found.value, t)
            else w'.flows == w2.flows && w'.servers[i].state == Ping && w'.servers[i].nextTimeout == 0
  {
    AdoptedIsSound(w, i);
    var w2 := Adopted(w, i);
    assert ServerOk(w2, i);
    hide StartNatPmp, NegotiatePing, FirstPingable, Inv, Pinged, Owned;
    if w2.servers[i].pingFlow.Some? {
      NegotiationPings(env, w2, i, w2.servers[i].pingFlow.value, t);
    } else {
      var found := FirstPingable(w2.flows, w2.order, i);
      if found.Some? {
        var w3 := SetServer(w2, i, w2.servers[i].(pingFlow := found));
        FoundIsOwned(w2, i, found.value);
        PingRefStep(w2, i, found.value);
        StepKeepsInv(w2, w3, i);
        NegotiationPings(env, w3, i, found.value, t);
        PingedFrom(w2, w3, NegotiatePing(env, w3, i, found.value), i, found.value, t);
      }
    }
  }

  lemma FoundIsOwned(w: World, i: nat, id: nat)
    requires InRange(w.order, |w.flows|) && FirstPingable(w.flows, w.order, i) == Some(id)
    ensures Owned(w, i, id)
  {
  }

  lemma PingedFrom(w: World, w1: World, w': World, i: nat, id: nat, t: int)
    requires Pinged(w1, w', i, id, t) && w1.flows == w.flows && |w1.servers| == |w.servers|
    ensures Pinged(w, w', i, id, t)
  {
  }
}
