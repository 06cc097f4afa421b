/** What the application asks for goes out with the next pulse: new flows, changed lifetimes and
    closed flows of libpcp/src/pcp_api.c. */
module Outgoing {
  import opened Types
  import opened FlowMachine
  import opened Retransmission
  import opened ServerMachine
  import opened Invariant
  import opened Handlers
  import opened Recovery
  import opened Timers
  import opened Pump
  import opened Runs
  import opened Api
  import opened Silence

  // ----- a due flow on its way -------------------------------------------------------

  ghost predicate SameRequest(f0: Flow, f: Flow) {
    f.key == f0.key && f.lifetime == f0.lifetime && f.ext == f0.ext
  }

  /** The flow f0, due at t, is yet to be sent ... */
  ghost predicate Pending(f0: Flow, f: Flow, t: int) {
    f.state == Send && f.timeout == t && SameRequest(f0, f) && f.hist == f0.hist
  }

  /** ... or a message went out for it, exactly one, or it failed. */
  ghost predicate Released(f0: Flow, f: Flow, t: int) {
    SameRequest(f0, f) && SentOrFailed(f0, f, t)
  }

  /** A step does not lose a due flow. */
  ghost predicate Carries(f0: Flow, f: Flow, f': Flow, t: int) {
    && (Pending(f0, f, t) ==> Pending(f0, f', t) || Released(f0, f', t))
    && (Released(f0, f, t) ==> Released(f0, f', t))
  }

  /** No restart is under way at the server of the flow. */
  ghost predicate NotAnnouncing(w: World, id: nat)
    requires id < |w.flows|
  {
    w.flows[id].server < |w.servers| ==> w.servers[w.flows[id].server].restartFlow == None
  }

  /** The timer of a flow fires if it is due. */
  lemma CheckedFlow(env: Env, w: World, id: nat, tout: int, t: int)
    requires id < |w.flows| && Still(env, t)
    ensures CheckFlowTimeout(env, w, id, tout).0.flows[id]
         == if Stale(w.flows[id], t) then RunFlow(env, w.calls + 1, w.flows[id], LinkOf(w, id), FlowTimedOut, None).0
            else w.flows[id]
  {
    hide RunFlow;
    assert LinkOf(Looked(w), id) == LinkOf(w, id);
  }

  lemma ChainCarries(env: Env, k: nat, f0: Flow, f: Flow, link: Link, t: int)
    requires Still(env, t) && RetxOk(f) && !link.isRestart && Stale(f, t)
    ensures !Released(f0, f, t)
    ensures Pending(f0, f, t) ==> Released(f0, RunFlow(env, k, f, link, FlowTimedOut, None).0, t)
  {
    hide RunFlow;
    if Pending(f0, f, t) {
      SendingChain(env, k, f, link, FlowTimedOut, None, t);
      ChainIsSilent(env, k, f, link, FlowTimedOut);
    }
  }

  lemma CheckOneCarries(env: Env, w: World, f0: Flow, id: nat, tout: int, t: int)
    requires FlowsOk(w) && id < |w.flows| && NotAnnouncing(w, id) && Still(env, t)
    ensures var f' := CheckFlowTimeout(env, w, id, tout).0.flows[id];
            && Carries(f0, w.flows[id], f', t)
            && (Pending(f0, w.flows[id], t) ==> Released(f0, f', t))
  {
    var f, link := w.flows[id], LinkOf(w, id);
    assert FlowOk(f) && !link.isRestart;
    PendingIsStale(f0, f, t);
    hide RunFlow, FlowsOk, CheckFlowTimeout, LinkOf, Pending, Released, Stale;
    CheckedFlow(env, w, id, tout, t);
    if Stale(f, t) {
      ChainCarries(env, w.calls + 1, f0, f, link, t);
    }
  }

  lemma PendingIsStale(f0: Flow, f: Flow, t: int)
    requires t > 0
    ensures Pending(f0, f, t) ==> Stale(f, t)
  {
  }

  lemma {:induction false} CheckAllCarries(env: Env, w: World, f0: Flow, ids: seq<nat>, tout: int, id: nat, t: int)
    requires FlowsOk(w) && id < |w.flows| && NotAnnouncing(w, id) && Still(env, t) && tout >= 0
    requires InRange(ids, |w.flows|) && Distinct(ids)
    ensures var f' := CheckAll(env, w, ids, tout).0.flows[id];
            && Carries(f0, w.flows[id], f', t)
            && (Pending(f0, w.flows[id], t) && id in ids ==> Released(f0, f', t))
    decreases |ids|
  {
    hide CheckFlowTimeout, FlowsOk, Pending, Released;
    if ids != [] {
      assert ids == [ids[0]] + ids[1..] && ids[0] !in ids[1..];
      CheckOneStill(env, w, ids[0], tout, t);
      CheckFlowTimeoutKeeps(env, w, ids[0], tout);
      var (w1, tout1) := CheckFlowTimeout(env, w, ids[0], tout);
      FoldedNonNegative(w1.flows[ids[0]], tout, t);
      if id == ids[0] {
        CheckOneCarries(env, w, f0, id, tout, t);
      }
      CheckAllCarries(env, w1, f0, ids[1..], tout1, id, t);
    }
  }

  lemma WaitIoCarries(env: Env, w: World, i: nat, f0: Flow, id: nat, t: int)
    requires Inv(w) && i < |w.servers| && id < |w.flows| && NotAnnouncing(w, id) && Still(env, t)
    ensures id < |WaitIoTimeout(env, w, i).flows|
    ensures var f' := WaitIoTimeout(env, w, i).flows[id];
            && Carries(f0, w.flows[id], f', t)
            && (Pending(f0, w.flows[id], t) && id in w.order ==> Released(f0, f', t))
  {
    var w0 := SetServer(w, i, w.servers[i].(nextTimeout := 0));
    TimerKeepsFlows(w, i, w0);
    assert InRange(w.order, |w.flows|);
    hide CheckAll, FlowsOk, Pending, Released, Carries, Arranged;
    CheckAllCarries(env, w0, f0, w.order, 0, id, t);
  }

  // ----- other servers ---------------------------------------------------------------

  lemma {:induction false} PingSpares(env: Env, w: World, j: nat, id: nat)
    requires j < |w.servers| && InRange(w.order, |w.flows|) && id < |w.flows| && w.flows[id].server != j
    ensures PingLoop(env, w, j).flows[id] == w.flows[id]
    decreases NumPingable(w.flows, w.order, j)
  {
    hide TryPing, PingLoop, FirstPingable, NumPingable;
    PingLoopUnfold(env, w, j);
    var found := FirstPingable(w.flows, w.order, j);
    if found.Some? {
      var w1 := TryPing(env, w, j, found.value);
      if w1.flows[found.value].state == Failed {
        PingSpares(env, w1, j, id);
      }
    }
  }

  lemma EventSpares(env: Env, w: World, id: nat, e: FlowEvent)
    requires id < |w.flows| && EventOk(e, None)
    ensures var w' := FlowEventAt(env, w, id, e, None);
            |w'.flows| == |w.flows| && forall x :: 0 <= x < |w.flows| && x != id ==> w'.flows[x] == w.flows[x]
  {
    hide RunFlow;
  }

  lemma WaitPingSpares(env: Env, w: World, j: nat, id: nat)
    requires Inv(w) && Wf(w) && j < |w.servers| && id < |w.flows| && w.flows[id].server != j
    ensures id < |WaitPingTimeout(env, w, j).flows| && WaitPingTimeout(env, w, j).flows[id] == w.flows[id]
  {
    assert ServerOk(w, j);
    hide FlowEventAt, Inv, Wf, ServerOk;
    var s := w.servers[j].(pingCount := w.servers[j].pingCount + 1);
    if s.pingFlow.Some? {
      EventSpares(env, SetServer(w, j, s), s.pingFlow.value, FlowTimedOut);
    }
  }

  lemma NegotiatePingSpares(env: Env, w: World, j: nat, p: nat, id: nat)
    requires j < |w.servers| && p < |w.flows| && id < |w.flows| && id != p
    ensures id < |NegotiatePing(env, w, j, p).flows| && NegotiatePing(env, w, j, p).flows[id] == w.flows[id]
  {
    hide FlowEventAt;
    EventSpares(env, SetFlow(w, p, ResetRetry(w.flows[p]).(resend := 0)), p, DoSend);
  }

  lemma NatPmpSpares(w: World, j: nat, id: nat)
    requires Inv(w) && Wf(w) && j < |w.servers| && id < |w.flows| && w.flows[id].server != j
    ensures var w' := StartNatPmp(w, j);
            w'.flows[id] == w.flows[id] && w'.servers[j].pingFlow == Some(|w.flows|)
  {
    assert ServerOk(w, j);
    hide InsertByBucket;
  }

  lemma NegotiateSpares(env: Env, w: World, j: nat, id: nat)
    requires Inv(w) && Wf(w) && j < |w.servers| && id < |w.flows| && w.flows[id].server != j
    requires w.servers[j].state == VersionNegotiation
    ensures id < |Negotiate(env, w, j).flows| && Negotiate(env, w, j).flows[id] == w.flows[id]
  {
    assert ServerOk(w, j);
    hide StartNatPmp, NegotiatePing, FirstPingable, Arranged, FlowsOk, Distinct;
    var s := w.servers[j];
    if s.version != 0 {
      var w1 := SetServer(w, j, AdoptVersion(s));
      SetServerStep(w, j, w1.servers[j], w1);
      StepKeepsInv(w, w1, j);
      InvIsWf(w1);
      var w2 := if NextVersion(s) == 0 then StartNatPmp(w1, j) else w1;
      if NextVersion(s) == 0 {
        NatPmpSpares(w1, j, id);
      }
      if w2.servers[j].pingFlow.Some? {
        NegotiatePingSpares(env, w2, j, w2.servers[j].pingFlow.value, id);
      } else {
        var found := FirstPingable(w2.flows, w2.order, j);
        if found.Some? {
          NegotiatePingSpares(env, SetServer(w2, j, w2.servers[j].(pingFlow := found)), j, found.value, id);
        }
      }
    }
  }

  lemma BroadcastSpares(env: Env, w: World, j: nat, id: nat, t: int)
    requires Inv(w) && j < |w.servers| && id < |w.flows| && w.flows[id].server != j && Still(env, t)
    ensures id < |SendAll(env, w, j).flows| && SendAll(env, w, j).flows[id] == w.flows[id]
    ensures id < |HandleRestart(env, w, j).flows| && HandleRestart(env, w, j).flows[id] == w.flows[id]
    ensures id < |FailAll(env, w, j).flows| && FailAll(env, w, j).flows[id] == w.flows[id]
  {
    hide SendAll, HandleRestart, FailAll, Reached, Inv;
    Serving(env, w, j, t);
    RestartRecovery(env, w, j, t);
    GivingUp(env, w, j, t);
  }

  /** A handler of a server touches a flow of another server through its timer only. */
  lemma OtherServerCarries(env: Env, w: World, j: nat, msg: Msg, f0: Flow, id: nat, t: int)
    requires Inv(w) && Wf(w) && j < |w.servers| && Still(env, t) && Due(w.servers[j], t)
    requires id < |w.flows| && w.flows[id].server != j && NotAnnouncing(w, id)
    ensures var w' := RunServer(env, w, j, Timeout, msg);
            id < |w'.flows| && Carries(f0, w.flows[id], w'.flows[id], t)
  {
    assert ServerOk(w, j) && InRange(w.order, |w.flows|);
    hide WaitPingTimeout, Negotiate, SendAll, WaitIoTimeout, HandleRestart, FailAll;
    hide ReceiveMsg, WaitPingRecv, Inv, Wf, ServerOk, Pending, Released, PingLoop;
    match ServerHandlerFor(w.servers[j].state, Timeout) {
      case HPing => PingSpares(env, SetServer(w, j, w.servers[j].(pingCount := 0)), j, id);
      case HWaitPingTimeout => WaitPingSpares(env, w, j, id);
      case HNegotiate => NegotiateSpares(env, w, j, id);
      case HSendAll => BroadcastSpares(env, w, j, id, t);
      case HRestart => BroadcastSpares(env, w, j, id, t);
      case HSetNotWorking => BroadcastSpares(env, w, j, id, t);
      case HWaitIoTimeout => WaitIoCarries(env, w, j, f0, id, t);
      case HNotWorking =>
      case HReping =>
      case HIgnore =>
      case _ => assert false;
    }
  }

  /** What the walk over the servers keeps, seen from flow id of server i. */
  ghost predicate Undisturbed(w: World, w': World, i: nat, f0: Flow, id: nat, t: int) {
    && i < |w.servers| == |w'.servers| && id < |w.flows| && id < |w'.flows|
    && w'.servers[i] == w.servers[i]
    && w'.flows[id].server == w.flows[id].server && (id in w.order ==> id in w'.order)
    && Carries(f0, w.flows[id], w'.flows[id], t)
  }

  lemma {:induction false} PumpCarries(env: Env, t: int, w: World, j: nat, msg: Msg, i: nat, f0: Flow, id: nat)
    requires Inv(w) && j < |w.servers| && Still(env, t) && msg.version <= PCP_MAX_SUPPORTED_VERSION
    requires i < |w.servers| && i != j && w.servers[i].restartFlow == None
    requires id < |w.flows| && w.flows[id].server == i
    ensures Undisturbed(w, PumpLoop(env, t, w, j, msg), i, f0, id, t)
    decreases if Due(w.servers[j], t) then 1 + ServerRank(w.servers[j]) else 0
  {
    if Due(w.servers[j], t) {
      hide RunServer, Pending, Released, Inv, FlowsOk, Arranged, Distinct, ServerOk;
      InvIsWf(w);
      RunServerKeeps(env, w, j, Timeout, msg);
      StepProgress(env, w, j, msg, t);
      OtherServerCarries(env, w, j, msg, f0, id, t);
      var w1 := RunServer(env, w, j, Timeout, msg);
      assert Evolved(w.flows[id], w1.flows[id]);
      PumpCarries(env, t, w1, j, msg, i, f0, id);
    }
  }

  // ----- its own server --------------------------------------------------------------

  lemma WaitIoRuns(env: Env, w: World, i: nat, msg: Msg)
    requires Wf(w) && i < |w.servers| && w.servers[i].state == WaitIo
    ensures RunServer(env, w, i, Timeout, msg) == WaitIoTimeout(env, w, i)
  {
    hide ServerPing, WaitPingTimeout, Negotiate, SendAll, WaitIoTimeout, HandleRestart, FailAll;
    hide ReceiveMsg, WaitPingRecv, HandleNotWorking, Reping;
  }

  /** A server that waits for messages and is due looks at the timers, once. */
  lemma WaitIoOnce(env: Env, t: int, w: World, i: nat, msg: Msg)
    requires Inv(w) && i < |w.servers| && Still(env, t) && msg.version <= PCP_MAX_SUPPORTED_VERSION
    requires w.servers[i].state == WaitIo && Due(w.servers[i], t)
    ensures InRange(w.order, |w.flows|) && HandleServer(env, t, w, i, Timeout, msg) == WaitIoTimeout(env, w, i)
  {
    assert InRange(w.order, |w.flows|);
    hide Inv, RunServer, WaitIoTimeout, PumpLoop, HandleServer, InRange;
    PumpEnd(env, t, w, i, msg);
    PumpStep(env, t, w, i, msg);
    WaitIoRuns(env, w, i, msg);
    TimerIsNearestAfterStale(env, w, i, t);
    PumpEnd(env, t, WaitIoTimeout(env, w, i), i, msg);
  }

  /** One server of the walk: its own sends the message, another one does not lose it. */
  lemma ServerReleases(env: Env, t: int, w: World, n: nat, i: nat, f0: Flow, id: nat)
    requires Inv(w) && AtRest(w) && Still(env, t) && n < |w.servers| && i < |w.servers|
    requires id < |w.flows| && id in w.order && w.flows[id].server == i
    requires n == i ==> w.servers[i].state == WaitIo && Due(w.servers[i], t)
    ensures var w1 := HandleServer(env, t, w, n, Timeout, NO_MSG);
            && id < |w1.flows| && id in w1.order && w1.flows[id].server == i && |w1.servers| == |w.servers|
            && Carries(f0, w.flows[id], w1.flows[id], t)
            && (n != i ==> w1.servers[i] == w.servers[i])
            && (n == i && Pending(f0, w.flows[id], t) ==> Released(f0, w1.flows[id], t))
  {
    assert ServerOk(w, i) && w.servers[i].restartFlow == None && !Transient(w.servers[n].state);
    hide Inv, AtRest, HandleServer, PumpLoop, Pending, Released, Carries, WaitIoTimeout, ServerOk;
    if n == i {
      WaitIoOnce(env, t, w, i, NO_MSG);
      WaitIoCarries(env, w, i, f0, id, t);
      HandleServerSettles(env, t, w, i, Timeout, NO_MSG);
      TimerIsNearestAfterStale(env, w, i, t);
      assert Evolved(w.flows[id], HandleServer(env, t, w, n, Timeout, NO_MSG).flows[id]);
    } else {
      PumpEnd(env, t, w, n, NO_MSG);
      PumpCarries(env, t, w, n, NO_MSG, i, f0, id);
    }
  }

  /** The servers from slot n on: if the flow's own is among them, it sends the message. */
  lemma {:induction false} WalkReleases(env: Env, t: int, w: World, n: nat, wait: int, i: nat, f0: Flow, id: nat)
    requires Inv(w) && AtRest(w) && Still(env, t) && n <= |w.servers| && i < |w.servers|
    requires id < |w.flows| && id in w.order && w.flows[id].server == i
    requires n <= i ==> w.servers[i].state == WaitIo && Due(w.servers[i], t)
    requires Released(f0, w.flows[id], t) || (n <= i && Pending(f0, w.flows[id], t))
    ensures var w' := TimeoutsFrom(env, t, w, n, wait).0;
            id < |w'.flows| && Released(f0, w'.flows[id], t)
    decreases |w.servers| - n
  {
    hide HandleServer, Pending, Released, TimeoutsFrom, Inv, AtRest;
    TimeoutsUnfold(env, t, w, n, wait);
    if n < |w.servers| {
      RestOf(w, n);
      ServerReleases(env, t, w, n, i, f0, id);
      var w1 := HandleServer(env, t, w, n, Timeout, NO_MSG);
      WalkReleases(env, t, w1, n + 1, WaitWith(wait, w1.servers[n], t), i, f0, id);
    }
  }

  /** A due flow at a server that waits for messages: a pulse with no message waiting sends exactly
      one message for it, with the key, lifetime and external address it has, or the flow
      fails. Other servers and flows may be in any state. */
  lemma DueFlowIsSent(env: Env, w: World, id: nat, t: int, wait: int)
    requires Inv(w) && AtRest(w) && Still(env, t)
    requires id in w.order && id < |w.flows| && w.flows[id].state == Send && w.flows[id].timeout == t
    requires w.flows[id].server < |w.servers|
    requires w.servers[w.flows[id].server].state == WaitIo && Due(w.servers[w.flows[id].server], t)
    ensures var w' := Pulse(env, t, w, None, wait).0;
            id < |w'.flows| && Released(w.flows[id], w'.flows[id], t)
  {
    hide Inv, AtRest;
    WalkReleases(env, t, w, 0, wait, w.flows[id].server, w.flows[id], id);
  }

  /** Closing a flow that is under way sends one message with the lifetime 0 for it, or the flow
      fails (section 15 of RFC 6887). */
  lemma ClosedFlowIsReleased(env: Env, w: World, id: nat, t: int, wait: int)
    requires Inv(w) && AtRest(w) && Still(env, t)
    requires id in w.order && id < |w.flows| && !Deaf(w.flows[id])
    requires w.flows[id].server < |w.servers| && w.servers[w.flows[id].server].state == WaitIo
    ensures Inv(Close(w, id, t)) && AtRest(Close(w, id, t))
    ensures var w' := Pulse(env, t, Close(w, id, t), None, wait).0;
            id < |w'.flows| && w'.flows[id].lifetime == 0 && w'.flows[id].key == w.flows[id].key
            && SentOrFailed(w.flows[id], w'.flows[id], t)
  {
    CloseKeeps(w, id, t);
    hide Inv, AtRest;
    DueFlowIsSent(env, Close(w, id, t), id, t, wait);
  }

  /** A closed flow that the server cannot know of fails at once. */
  lemma ClosedFlowFails(w: World, id: nat, t: int)
    requires id < |w.flows| && Deaf(w.flows[id])
    ensures Close(w, id, t) == w.(flows := w.flows[id := w.flows[id].(state := Failed)])
  {
  }

  /** A changed lifetime is asked for at once, whatever it is. */
  lemma ChangedLifetimeIsSent(env: Env, w: World, id: nat, lifetime: u32, t: int, wait: int)
    requires Inv(w) && AtRest(w) && Still(env, t)
    requires id in w.order && id < |w.flows| && !Deaf(w.flows[id])
    requires w.flows[id].server < |w.servers| && w.servers[w.flows[id].server].state == WaitIo
    ensures Inv(SetLifetime(w, id, lifetime, t)) && AtRest(SetLifetime(w, id, lifetime, t))
    ensures var w' := Pulse(env, t, SetLifetime(w, id, lifetime, t), None, wait).0;
            id < |w'.flows| && w'.flows[id].lifetime == lifetime && w'.flows[id].key == w.flows[id].key
            && SentOrFailed(w.flows[id], w'.flows[id], t)
  {
    SetLifetimeKeeps(w, id, lifetime, t);
    hide Inv, AtRest;
    DueFlowIsSent(env, SetLifetime(w, id, lifetime, t), id, t, wait);
  }

  /** A flow that waits for its server keeps the lifetime for when the server answers. */
  lemma ChangedLifetimeIsKept(w: World, id: nat, lifetime: u32, t: int)
    requires id < |w.flows| && Deaf(w.flows[id])
    ensures var w' := SetLifetime(w, id, lifetime, t);
            |w'.flows| == |w.flows| && w'.flows[id] == w.flows[id].(lifetime := lifetime, timeout := t)
  {
  }

  /** What becomes of a child f, just made for server s. At a server that waits for messages the next
      pulse sends one message for it, as asked, or it fails. At a server without a ping it
      can be pinged. Anywhere else it waits for its server, as does the child to be pinged. */
  ghost predicate ChildGoesOut(env: Env, w: World, a: NewFlowArgs, id: nat, i: nat, t: int, wait: int)
    requires Inv(w) && AtRest(w) && Still(env, t)
  {
    && i < |w.servers| && id < |w.flows| && id in w.order && w.flows[id].server == i
    && (w.servers[i].state == WaitIo ==>
          var w' := Pulse(env, t, w, None, wait).0;
          && id < |w'.flows| && SentOrFailed(w.flows[id], w'.flows[id], t)
          && w'.flows[id].key == w.flows[id].key
          && w'.flows[id].lifetime == a.lifetime && w'.flows[id].ext == a.ext)
    && (w.servers[i].state == Ping ==> Pingable(w.flows[id], i))
    && (w.servers[i].state != WaitIo ==> w.flows[id].state == WaitForServerInit)
  }

  lemma ChildIsSent(env: Env, w: World, a: NewFlowArgs, s: Server, id: nat, i: nat, t: int, wait: int)
    requires Inv(w) && AtRest(w) && Still(env, t) && a.now == t
    requires i < |w.servers| && id < |w.flows| && id in w.order
    requires IsChild(w.flows[id], a, s, i) && w.servers[i].state == s.state && w.servers[i].nextTimeout == t
    ensures ChildGoesOut(env, w, a, id, i, t, wait)
  {
    hide Inv, AtRest, Pulse;
    if s.state == WaitIo {
      DueFlowIsSent(env, w, id, t, wait);
    }
  }

  /** Creation and the pulse that follows, for every child. */
  lemma CreatedFlowsGoOut(env: Env, w: World, a: NewFlowArgs, alloc: nat -> bool, t: int, wait: int)
    requires Inv(w) && AtRest(w) && Still(env, t) && a.now == t
    ensures var c := CreateFlow(w, a, alloc);
            && Inv(c.world) && AtRest(c.world)
            && var served := EligibleFrom(w.servers, 0, a.key);
               c.ok ==> && |c.children| == |served|
                        && forall k :: 0 <= k < |served| ==>
                             ChildGoesOut(env, c.world, a, c.children[k], served[k], t, wait)
  {
    CreateFlowKeeps(w, a, alloc);
    CreateAllOrNothing(w, a, alloc);
    hide Inv, AtRest, CreateFlow, ChildGoesOut, EligibleFrom;
    var c := CreateFlow(w, a, alloc);
    if c.ok {
      var served := EligibleFrom(w.servers, 0, a.key);
      forall k | 0 <= k < |served|
        ensures ChildGoesOut(env, c.world, a, c.children[k], served[k], t, wait)
      {
        MadeChildIsSent(env, w, c.world, a, c.children, served, k, t, wait);
      }
    }
  }

  lemma MadeChildIsSent(env: Env, w0: World, w: World, a: NewFlowArgs, children: seq<nat>, served: seq<nat>, k: nat,
                        t: int, wait: int)
    requires Inv(w) && AtRest(w) && Still(env, t) && a.now == t && k < |served|
    requires ChainMade(w, |w0.flows|, children, served, a, w0.servers) && SameButTimers(w0.servers, w.servers)
    ensures k < |children| && ChildGoesOut(env, w, a, children[k], served[k], t, wait)
  {
    hide Inv, AtRest, Pulse, ChildGoesOut, IsChild;
    ChildIsSent(env, w, a, w0.servers[served[k]], children[k], served[k], t, wait);
  }

  lemma ReachedOf(w: World, w': World, i: nat, id: nat, t: int)
    requires i < |w.servers| && AllReached(w, w', i, ServerInitialized, t)
    requires Owned(w, i, id) && w.servers[i].restartFlow != Some(id) && w.flows[id].state == WaitForServerInit
    ensures id < |w'.flows| && SentOrFailed(w.flows[id], w'.flows[id], t)
  {
    assert Addressed(w, i, id);
  }

  /** A flow that waits for its server is sent once the server answers, as asked for. */
  lemma WaitingFlowIsServed(env: Env, w: World, i: nat, id: nat, t: int)
    requires Inv(w) && i < |w.servers| && Still(env, t) && w.servers[i].restartFlow != Some(id)
    requires Owned(w, i, id) && w.flows[id].state == WaitForServerInit
    ensures id < |SendAll(env, w, i).flows| && Released(w.flows[id], SendAll(env, w, i).flows[id], t)
  {
    assert InRange(w.order, |w.flows|);
    hide SendAll, Inv, HandleRestart, FailAll, WaitIoTimeout, SentOrFailed, AllReached;
    Serving(env, w, i, t);
    ReachedOf(w, SendAll(env, w, i), i, id, t);
    WalksAreSilent(env, w, i);
  }

  /** At a server that does not work the close ends the delay: the server is pinged again, from
      the highest version on. */
  lemma ClosedFlowRepings(env: Env, w: World, id: nat, t: int, msg: Msg)
    requires Inv(w) && AtRest(w) && Still(env, t) && msg.version <= PCP_MAX_SUPPORTED_VERSION
    requires id in w.order && id < |w.flows| && !Deaf(w.flows[id])
    requires w.flows[id].server < |w.servers| && w.servers[w.flows[id].server].state == NotWorking
    ensures Inv(Close(w, id, t)) && AtRest(Close(w, id, t)) && |Close(w, id, t).servers| == |w.servers|
    ensures var i := w.flows[id].server;
            var w' := HandleServer(env, t, Close(w, id, t), i, Timeout, msg);
            && i < |w'.servers| && PingResult(w', i)
            && w'.servers[i].version == PCP_MAX_SUPPORTED_VERSION
  {
    CloseKeeps(w, id, t);
    var i, w1 := w.flows[id].server, Close(w, id, t);
    assert w1.servers[i].state == NotWorking && w1.servers[i].nextTimeout == t;
    hide Close, AtRest, Inv;
    RepingFollows(env, w1, i, t, msg);
  }

  /** Elsewhere the close only makes the server due. While a reply to a ping is awaited that counts
      as a ping without one, and the fifth gives the server up; a server with nothing to ping
      looks again for a flow, and the closed one is such a flow. */
  lemma ClosedFlowElsewhere(env: Env, w: World, id: nat, t: int, msg: Msg)
    requires Inv(w) && AtRest(w) && Still(env, t)
    requires id in w.order && id < |w.flows| && !Deaf(w.flows[id]) && w.flows[id].server < |w.servers|
    ensures var i, w1 := w.flows[id].server, Close(w, id, t);
            && |w1.servers| == |w.servers| && Due(w1.servers[i], t) && Wf(w1)
            && id < |w1.flows| && Pingable(w1.flows[id], i)
            && var w' := RunServer(env, w1, i, Timeout, msg);
               && (w.servers[i].state == WaitPingResp ==>
                     && w'.servers[i].pingCount == w.servers[i].pingCount + 1
                     && (w'.servers[i].pingCount >= PCP_MAX_PING_COUNT ==> w'.servers[i].state == SetNotWorking))
               && (w.servers[i].state == Ping ==> PingResult(w', i))
  {
    CloseKeeps(w, id, t);
    var i, w1 := w.flows[id].server, Close(w, id, t);
    assert ServerOk(w, i);
    assert w1.servers[i] == w.servers[i].(nextTimeout := t);
    assert Pingable(w1.flows[id], i);
    InvIsWf(w1);
    hide Close, AtRest, Inv;
    PingCounted(env, w1, i, msg);
    if w.servers[i].state == Ping {
      NotWorkingRuns(env, w1, i, t, msg);
      hide PingResult, ServerPing, RunServer;
      PingSelection(env, w1, i);
    }
  }

  lemma PingCounted(env: Env, w: World, i: nat, msg: Msg)
    requires Wf(w) && i < |w.servers|
    ensures w.servers[i].state == WaitPingResp ==>
              var s' := RunServer(env, w, i, Timeout, msg).servers[i];
              && s' == WaitPingTimeout(env, w, i).servers[i]
              && s'.pingCount == w.servers[i].pingCount + 1
              && (s'.pingCount >= PCP_MAX_PING_COUNT ==> s'.state == SetNotWorking)
  {
    hide ServerPing, Negotiate, SendAll, WaitIoTimeout, HandleRestart, FailAll, RunFlow;
    hide ReceiveMsg, WaitPingRecv, HandleNotWorking, Reping;
  }

  lemma NotWorkingRuns(env: Env, w: World, i: nat, t: int, msg: Msg)
    requires Wf(w) && i < |w.servers| && Still(env, t) && w.servers[i].nextTimeout == t
    ensures var s, s' := w.servers[i], RunServer(env, w, i, Timeout, msg).servers[i];
            && (s.state == NotWorking ==> s'.state == ServerReping && s'.nextTimeout == t)
            && (s.state == ServerReping ==> s'.state == Ping && s'.nextTimeout == t && s'.version == PCP_MAX_SUPPORTED_VERSION)
            && (s.state == Ping ==> RunServer(env, w, i, Timeout, msg) == ServerPing(env, w, i))
  {
    hide ServerPing, WaitPingTimeout, Negotiate, SendAll, WaitIoTimeout, HandleRestart, FailAll;
    hide ReceiveMsg, WaitPingRecv, ProcessReceived;
  }

  lemma RepingFollows(env: Env, w1: World, i: nat, t: int, msg: Msg)
    requires Inv(w1) && i < |w1.servers| && Still(env, t) && msg.version <= PCP_MAX_SUPPORTED_VERSION
    requires w1.servers[i].state == NotWorking && w1.servers[i].nextTimeout == t
    ensures var w' := HandleServer(env, t, w1, i, Timeout, msg);
            i < |w'.servers| && PingResult(w', i) && w'.servers[i].version == PCP_MAX_SUPPORTED_VERSION
  {
    hide Inv, RunServer, PumpLoop, HandleServer, PingResult, ServerPing;
    PumpEnd(env, t, w1, i, msg);
    PumpStep(env, t, w1, i, msg);
    NotWorkingRuns(env, w1, i, t, msg);
    var w2 := RunServer(env, w1, i, Timeout, msg);
    PumpStep(env, t, w2, i, msg);
    NotWorkingRuns(env, w2, i, t, msg);
    var w3 := RunServer(env, w2, i, Timeout, msg);
    PumpStep(env, t, w3, i, msg);
    NotWorkingRuns(env, w3, i, t, msg);
    PingSelection(env, w3, i);
    PingProgress(env, w3, i, t);
    PingVersion(env, w3, i);
    PumpEnd(env, t, ServerPing(env, w3, i), i, msg);
  }

  lemma PingVersion(env: Env, w: World, i: nat)
    requires i < |w.servers| && Wf(w)
    ensures ServerPing(env, w, i).servers[i].version == w.servers[i].version
  {
    hide PingLoop;
    PingKeepsServerVersion(env, SetServer(w, i, w.servers[i].(pingCount := 0)), i);
  }

  lemma {:induction false} PingKeepsServerVersion(env: Env, w: World, i: nat)
    requires i < |w.servers| && InRange(w.order, |w.flows|)
    ensures PingLoop(env, w, i).servers[i].version == w.servers[i].version
    decreases NumPingable(w.flows, w.order, i)
  {
    hide TryPing, PingLoop, FirstPingable, NumPingable;
    PingLoopUnfold(env, w, i);
    var found := FirstPingable(w.flows, w.order, i);
    if found.Some? {
      var w1 := TryPing(env, w, i, found.value);
      if w1.flows[found.value].state == Failed {
        PingKeepsServerVersion(env, w1, i);
      }
    }
  }
}
