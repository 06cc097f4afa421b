/** hserver_iter and the timeout part of pcp_pulse with the clock held still: the loop ends, and
    leaves every server in a state in which it waits. */
module Pump {
  import opened Types
  import opened FlowMachine
  import opened Retransmission
  import opened ServerMachine
  import opened Invariant
  import opened Handlers
  import opened Recovery

  /** The states that the loop is to pass through and not to stop in. */
  predicate Transient(s: ServerState) {
    s in {VersionNegotiation, SendAllMsgs, WaitIoCalcNearestTimeout, ServerRestart, ServerReping, SetNotWorking}
  }

  /** The loop condition of hserver_iter. */
  predicate Due(s: Server, t: int) { s.nextTimeout != 0 && s.nextTimeout <= t }

  /** A server that waits, or whose handler is yet to run. */
  predicate RestOrDue(s: Server, t: int) { Transient(s.state) ==> Due(s, t) }

  ghost predicate AtRest(w: World) {
    forall i :: 0 <= i < |w.servers| ==> !Transient(w.servers[i].state)
  }

  /** Phase of the server, and within the wait for a ping the pings that are left. */
  function ServerRank(s: Server): nat {
    match s.state
    case WaitIo => 1
    case SetNotWorking => 1
    case Allocated => 1
    case Ping => 2
    case WaitIoCalcNearestTimeout => 2
    case Uninitialized => 2
    case ServerReping => 3
    case SendAllMsgs => 3
    case ServerRestart => 3
    case NotWorking => 4
    case WaitPingResp => 3 + (if s.pingCount < PCP_MAX_PING_COUNT then PCP_MAX_PING_COUNT - s.pingCount else 0)
    case VersionNegotiation => 9
  }

  /** Progress of one step from s to s': it waits, or it is due and lower. */
  ghost predicate Progress(s: Server, s': Server, t: int) {
    RestOrDue(s', t) && (Due(s', t) ==> ServerRank(s') < ServerRank(s))
  }

  lemma PingProgress(env: Env, w: World, i: nat, t: int)
    requires Inv(w) && i < |w.servers| && Still(env, t) && w.servers[i].state == Ping
    ensures var s' := ServerPing(env, w, i).servers[i];
            !Transient(s'.state) && !Due(s', t) && Progress(w.servers[i], s', t)
  {
    assert ServerOk(w, i);
    var w1 := SetServer(w, i, w.servers[i].(pingCount := 0));
    SetServerStep(w, i, w1.servers[i], w1);
    StepKeepsInv(w, w1, i);
    PingLoopStill(env, w1, i, t);
  }

  lemma WaitPingProgress(env: Env, w: World, i: nat, t: int)
    requires Inv(w) && Wf(w) && i < |w.servers| && Still(env, t) && w.servers[i].state == WaitPingResp
    ensures Progress(w.servers[i], WaitPingTimeout(env, w, i).servers[i], t)
  {
    hide RunFlow;
  }

  lemma NegotiatePingProgress(env: Env, w: World, i: nat, id: nat)
    requires i < |w.servers| && id < |w.flows|
    ensures var s' := NegotiatePing(env, w, i, id).servers[i];
            s'.state == WaitPingResp || (s'.state == SetNotWorking && s'.nextTimeout == w.servers[i].nextTimeout)
  {
    hide RunFlow;
  }

  /** The part of a negotiation that follows the adoption of a version. */
  lemma NegotiateRestProgress(env: Env, s: Server, w: World, i: nat, t: int)
    requires i < |w.servers| && InRange(w.order, |w.flows|) && RefOk(w.servers[i].pingFlow, |w.flows|)
    requires s.state == VersionNegotiation && Due(s, t) && w.servers[i].nextTimeout == s.nextTimeout
    ensures w.servers[i].pingFlow.Some?
            ==> Progress(s, NegotiatePing(env, w, i, w.servers[i].pingFlow.value).servers[i], t)
    ensures var found := FirstPingable(w.flows, w.order, i);
            var w3 := SetServer(w, i, w.servers[i].(pingFlow := found));
            && (found.None? ==> Progress(s, GoUntimed(w3, i, Ping).servers[i], t))
            && (found.Some? ==> Progress(s, NegotiatePing(env, w3, i, found.value).servers[i], t))
  {
    hide NegotiatePing;
    if w.servers[i].pingFlow.Some? {
      NegotiatePingProgress(env, w, i, w.servers[i].pingFlow.value);
    }
    var found := FirstPingable(w.flows, w.order, i);
    if found.Some? {
      NegotiatePingProgress(env, SetServer(w, i, w.servers[i].(pingFlow := found)), i, found.value);
    }
  }

  lemma NegotiateProgress(env: Env, w: World, i: nat, t: int)
    requires Inv(w) && Wf(w) && i < |w.servers| && Still(env, t) && w.servers[i].state == VersionNegotiation
    requires Due(w.servers[i], t)
    ensures Progress(w.servers[i], Negotiate(env, w, i).servers[i], t)
  {
    assert InRange(w.order, |w.flows|) && RefOk(w.servers[i].pingFlow, |w.flows|);
    hide StartNatPmp, NegotiatePing, FirstPingable, Inv, Wf, InRange;
    var s := w.servers[i];
    if s.version != 0 {
      var w1 := SetServer(w, i, AdoptVersion(s));
      if NextVersion(s) == 0 {
        NatPmpKeepsTimer(w1, i);
        hide Progress;
        NegotiateRestProgress(env, s, StartNatPmp(w1, i), i, t);
      } else {
        hide Progress;
        NegotiateRestProgress(env, s, w1, i, t);
      }
    }
  }

  lemma NatPmpKeepsTimer(w: World, i: nat)
    requires i < |w.servers| && InRange(w.order, |w.flows|) && RefOk(w.servers[i].pingFlow, |w.flows|)
    ensures var s' := StartNatPmp(w, i).servers[i];
            s'.nextTimeout == w.servers[i].nextTimeout && s'.pingFlow == Some(|w.flows|)
  {
    hide InsertByBucket;
  }

  lemma WaitIoProgress(env: Env, w: World, i: nat, t: int)
    requires Inv(w) && i < |w.servers| && Still(env, t)
    ensures Progress(w.servers[i], WaitIoTimeout(env, w, i).servers[i], t)
  {
    hide CheckAll;
    TimerIsNearestAfterStale(env, w, i, t);
  }

  lemma WalkProgress(env: Env, w: World, i: nat, t: int)
    requires i < |w.servers| && InRange(w.order, |w.flows|) && Still(env, t)
    ensures w.servers[i].state == SendAllMsgs ==> Progress(w.servers[i], SendAll(env, w, i).servers[i], t)
    ensures w.servers[i].state == ServerRestart ==> Progress(w.servers[i], HandleRestart(env, w, i).servers[i], t)
    ensures w.servers[i].state == SetNotWorking ==> Progress(w.servers[i], FailAll(env, w, i).servers[i], t)
  {
    hide SendEvents;
  }

  lemma SimpleProgress(env: Env, w: World, i: nat, t: int)
    requires i < |w.servers| && Still(env, t)
    ensures w.servers[i].state == ServerReping ==> Progress(w.servers[i], Reping(env, w, i).servers[i], t)
    ensures w.servers[i].state == Allocated
            ==> Progress(w.servers[i], GoUntimed(w, i, w.servers[i].state).servers[i], t)
  {
  }

  /** Where a received message can take a server. */
  lemma ReceiveGoesNow(env: Env, w: World, i: nat, msg: Msg, t: int)
    requires Inv(w) && Wf(w) && i < |w.servers| && Still(env, t)
    ensures ReceiveMsg(env, w, i, msg).servers[i].nextTimeout == t
    ensures WaitPingRecv(env, w, i, msg).servers[i].nextTimeout == t
  {
    hide ProcessReceived;
  }

  lemma NotWorkingProgress(env: Env, w: World, i: nat, msg: Msg, t: int)
    requires Inv(w) && Wf(w) && i < |w.servers| && Still(env, t) && w.servers[i].state == NotWorking
    ensures var s' := HandleNotWorking(env, w, i, msg).servers[i];
            if Due(w.servers[i], t) then Progress(w.servers[i], s', t) else RestOrDue(s', t)
  {
    hide ProcessReceived;
  }

  /** Every handler that the loop of hserver_iter runs brings its server nearer to rest. */
  lemma StepProgress(env: Env, w: World, i: nat, msg: Msg, t: int)
    requires Inv(w) && Wf(w) && i < |w.servers| && Still(env, t) && Due(w.servers[i], t)
    ensures Progress(w.servers[i], RunServer(env, w, i, Timeout, msg).servers[i], t)
  {
    assert ServerOk(w, i);
    hide ServerPing, WaitPingTimeout, Negotiate, SendAll, WaitIoTimeout, HandleRestart, FailAll;
    hide ReceiveMsg, WaitPingRecv, HandleNotWorking, Inv, Wf, ServerOk;
    hide Progress, Reping, GoUntimed;
    var w' := RunServer(env, w, i, Timeout, msg);
    match ServerHandlerFor(w.servers[i].state, Timeout) {
      case HPing => PingProgress(env, w, i, t);
      case HWaitPingTimeout => WaitPingProgress(env, w, i, t);
      case HNegotiate => NegotiateProgress(env, w, i, t);
      case HSendAll => WalkProgress(env, w, i, t);
      case HRestart => WalkProgress(env, w, i, t);
      case HSetNotWorking => WalkProgress(env, w, i, t);
      case HWaitIoTimeout => WaitIoProgress(env, w, i, t);
      case HNotWorking => NotWorkingProgress(env, w, i, msg, t);
      case HReping => SimpleProgress(env, w, i, t);
      case HIgnore => SimpleProgress(env, w, i, t);
      case _ => assert false;
    }
  }

  /** A message handled by a waiting server leaves it waiting, or due. */
  lemma ReceiveProgress(env: Env, w: World, i: nat, msg: Msg, t: int)
    requires Inv(w) && Wf(w) && i < |w.servers| && Still(env, t) && !Transient(w.servers[i].state)
    requires msg.version <= PCP_MAX_SUPPORTED_VERSION
    ensures RestOrDue(RunServer(env, w, i, IoEvent, msg).servers[i], t)
  {
    assert ServerOk(w, i);
    hide ServerPing, WaitPingTimeout, Negotiate, SendAll, WaitIoTimeout, HandleRestart, FailAll;
    hide ReceiveMsg, WaitPingRecv, HandleNotWorking, Reping, Inv, Wf, ServerOk;
    match ServerHandlerFor(w.servers[i].state, IoEvent) {
      case HPing => PingProgress(env, w, i, t);
      case HWaitPingRecv => ReceiveGoesNow(env, w, i, msg, t);
      case HReceive => ReceiveGoesNow(env, w, i, msg, t);
      case HNotWorking => NotWorkingProgress(env, w, i, msg, t);
      case HIgnore =>
      case _ => assert false;
    }
  }

  /** A terminated server is allocated only, without a timer, and no further event moves it or any
      flow. */
  lemma TerminatedServerIsStill(env: Env, w: World, i: nat, e: ServerEvent, msg: Msg)
    requires Wf(w) && i < |w.servers|
    requires e == Terminate || w.servers[i].state == Allocated
    ensures RunServer(env, w, i, e, msg) == w.(servers := w.servers[i := w.servers[i].(state := Allocated, nextTimeout := 0)])
  {
    hide ServerPing, WaitPingTimeout, WaitPingRecv, Negotiate, SendAll, ReceiveMsg;
    hide WaitIoTimeout, HandleRestart, FailAll, HandleNotWorking, Reping;
  }

  // ----- the loop --------------------------------------------------------------------

  /** The while loop of hserver_iter. */
  ghost function PumpLoop(env: Env, t: int, w: World, i: nat, msg: Msg): World
    requires Inv(w) && i < |w.servers| && Still(env, t)
    requires msg.version <= PCP_MAX_SUPPORTED_VERSION
    decreases if Due(w.servers[i], t) then 1 + ServerRank(w.servers[i]) else 0
  {
    if !Due(w.servers[i], t) then w
    else
      InvIsWf(w);
      RunServerKeeps(env, w, i, Timeout, msg);
      StepProgress(env, w, i, msg, t);
      PumpLoop(env, t, RunServer(env, w, i, Timeout, msg), i, msg)
  }

  /** hserver_iter on a used server slot. */
  ghost function HandleServer(env: Env, t: int, w: World, i: nat, e: ServerEvent, msg: Msg): World
    requires Inv(w) && i < |w.servers| && Still(env, t) && !Transient(w.servers[i].state)
    requires msg.version <= PCP_MAX_SUPPORTED_VERSION
  {
    InvIsWf(w);
    var w1 := if e == Timeout then w else RunServer(env, w, i, e, msg);
    RunServerKeeps(env, w, i, e, msg);
    PumpLoop(env, t, w1, i, msg)
  }

  /** What a call leaves behind: the invariant, a server at rest whose timer is off or ahead,
      and the other servers as they were. */
  ghost predicate Settled(w: World, w': World, i: nat, t: int) {
    && Inv(w')
    && i < |w'.servers| == |w.servers|
    && !Transient(w'.servers[i].state)
    && (w'.servers[i].nextTimeout == 0 || w'.servers[i].nextTimeout > t)
    && w'.servers[i].restartFlow == None
    && (forall j :: 0 <= j < |w.servers| && j != i ==> w'.servers[j] == w.servers[j])
  }

  lemma {:induction false} PumpLoopSettles(env: Env, t: int, w: World, i: nat, msg: Msg)
    requires Inv(w) && i < |w.servers| && Still(env, t) && RestOrDue(w.servers[i], t)
    requires msg.version <= PCP_MAX_SUPPORTED_VERSION
    ensures Settled(w, PumpLoop(env, t, w, i, msg), i, t)
    ensures FlowsEvolved(w, PumpLoop(env, t, w, i, msg))
    decreases if Due(w.servers[i], t) then 1 + ServerRank(w.servers[i]) else 0
  {
    assert ServerOk(w, i);
    if Due(w.servers[i], t) {
      hide RunServer;
      InvIsWf(w);
      RunServerKeeps(env, w, i, Timeout, msg);
      StepProgress(env, w, i, msg, t);
      var w1 := RunServer(env, w, i, Timeout, msg);
      PumpLoopSettles(env, t, w1, i, msg);
    }
  }

  /** Termination and rest: from every context that satisfies the invariant, for every event
      and message and every outcome of the sends, one call of hserver_iter returns; then the
      server waits, its timer is off or ahead, and it remembers no restart. */
  lemma HandleServerSettles(env: Env, t: int, w: World, i: nat, e: ServerEvent, msg: Msg)
    requires Inv(w) && i < |w.servers| && Still(env, t) && !Transient(w.servers[i].state)
    requires msg.version <= PCP_MAX_SUPPORTED_VERSION
    ensures Settled(w, HandleServer(env, t, w, i, e, msg), i, t)
    ensures FlowsEvolved(w, HandleServer(env, t, w, i, e, msg))
  {
    assert ServerOk(w, i);
    InvIsWf(w);
    RunServerKeeps(env, w, i, e, msg);
    var w1 := if e == Timeout then w else RunServer(env, w, i, e, msg);
    if e == IoEvent {
      ReceiveProgress(env, w, i, msg, t);
    }
    PumpLoopSettles(env, t, w1, i, msg);
  }

  /** One round of the loop of hserver_iter ... */
  lemma PumpStep(env: Env, t: int, w: World, i: nat, msg: Msg)
    requires Inv(w) && i < |w.servers| && Still(env, t) && msg.version <= PCP_MAX_SUPPORTED_VERSION
    requires Due(w.servers[i], t)
    ensures Wf(w) && Inv(RunServer(env, w, i, Timeout, msg))
    ensures PumpLoop(env, t, w, i, msg) == PumpLoop(env, t, RunServer(env, w, i, Timeout, msg), i, msg)
  {
    InvIsWf(w);
    RunServerKeeps(env, w, i, Timeout, msg);
    StepProgress(env, w, i, msg, t);
    hide RunServer, Inv;
  }

  /** ... its end, and the call without a message. */
  lemma PumpEnd(env: Env, t: int, w: World, i: nat, msg: Msg)
    requires Inv(w) && i < |w.servers| && Still(env, t) && msg.version <= PCP_MAX_SUPPORTED_VERSION
    ensures !Due(w.servers[i], t) ==> PumpLoop(env, t, w, i, msg) == w
    ensures !Transient(w.servers[i].state) ==> HandleServer(env, t, w, i, Timeout, msg) == PumpLoop(env, t, w, i, msg)
  {
    hide RunServer, Inv;
  }
}
