/** What single handlers achieve while the clock is held still: recovery after a server
    restart, the choice of a ping flow, and the timer minimum. */
module Recovery {
  import opened Types
  import opened FlowMachine
  import opened Retransmission
  import opened ServerMachine
  import opened Invariant
  import Handlers

  // ----- events for all flows of a server --------------------------------------------

  /** A timer that has passed and was not rearmed. */
  predicate Stale(f: Flow, t: int) { f.timeout != 0 && f.timeout <= t }

  /** A flow whose state has no transition for a timeout. */
  predicate Deaf(f: Flow) { f.state == Idle || f.state == WaitForServerInit || f.state == Failed }

  /** A renewal timer fired: the renewal went out, or a plain message after it or in its place,
      or the flow failed. */
  ghost predicate RenewalTried(f: Flow, f': Flow, t: int) {
    || (f'.state == WaitForLifetimeRenew && f'.hist.sent == f.hist.sent + 1)
    || (f'.state == WaitResp && f'.timeout > t && f.hist.sent < f'.hist.sent <= f.hist.sent + 2)
    || (f'.state == Failed && f'.timeout == 0)
  }

  /** What an event for all flows of a server does to one that announced no restart. After a
      restart: one message, or failure. When the server is given up: failure, but for a granted
      flow, which is sent once more. When it answers: one message, or failure, for a flow that
      waited for it; a timer that is due fires; else nothing. */
  ghost predicate Reached(e: FlowEvent, f: Flow, f': Flow, t: int)
    requires Broadcast(e)
  {
    if e == ServerRestarted then SentOrFailed(f, f', t)
    else if e == SendFailed then
      if f.state == WaitForLifetimeRenew then SentOrFailed(f, f', t)
      else f'.state == Failed && f'.timeout == 0 && f'.hist == f.hist
    else if f.state == WaitForServerInit || f.state == WaitResp || f.state == Send then SentOrFailed(f, f', t)
    else if !Stale(f, t) || Deaf(f) then f' == f
    else if f.state == WaitAfterShortLifeError then SentOrFailed(f, f', t)
    else RenewalTried(f, f', t)
  }

  lemma RenewalIsTried(env: Env, k: nat, f: Flow, link: Link, t: int)
    requires Still(env, t) && RetxOk(f) && f.state == WaitForLifetimeRenew && !link.isRestart
    ensures RenewalTried(f, RunFlow(env, k, f, link, FlowTimedOut, None).0, t)
  {
    var (f1, e1) := Handle(HSendRenew, f.(state := SendRenew), link, None, env(k));
    assert RunFlow(env, k, f, link, FlowTimedOut, None) == RunFlow(env, k + 1, f1, link, e1, None);
    if e1 == MsgSent {
      assert HandlerFor(SendRenew, WaitForLifetimeRenew) == None;
      assert RunFlow(env, k + 1, f1, link, e1, None).0 == f1.(state := WaitForLifetimeRenew);
    } else {
      assert RetxOk(f1) && e1 == SendFailed;
      hide RunFlow;
      SendingChain(env, k + 1, f1, link, SendFailed, None, t);
    }
  }

  /** The event itself, with the timer that fires behind it left out. */
  lemma EventReached(env: Env, k: nat, f: Flow, link: Link, e: FlowEvent, t: int)
    requires Still(env, t) && FlowOk(f) && !link.isRestart && Broadcast(e)
    ensures var f' := RunFlow(env, k, f, link, e, None).0;
            if NextState(f.state, e) == None then f' == f
            else Reached(e, f, f', t) && !Stale(f', t)
  {
    var next := NextState(f.state, e);
    if next == Some(Send) {
      hide RunFlow;
      SendingChain(env, k, f, link, e, None, t);
    }
  }

  /** The timer that fires behind an event without a transition. */
  lemma TimerReached(env: Env, k: nat, f: Flow, link: Link, t: int)
    requires Still(env, t) && FlowOk(f) && !link.isRestart && Stale(f, t)
    requires NextState(f.state, ServerInitialized) == None
    ensures Reached(ServerInitialized, f, RunFlow(env, k, f, link, FlowTimedOut, None).0, t)
  {
    if f.state == WaitForLifetimeRenew {
      RenewalIsTried(env, k, f, link, t);
    } else if f.state == WaitAfterShortLifeError {
      hide RunFlow;
      SendingChain(env, k, f, link, FlowTimedOut, None, t);
    }
  }

  ghost predicate Affected(w: World, w': World, i: nat, id: nat, e: FlowEvent, t: int)
    requires i < |w.servers| && id < |w.flows| == |w'.flows| && Broadcast(e)
  {
    && (w.flows[id].server != i ==> w'.flows[id] == w.flows[id])
    && (w.flows[id].server == i && w.servers[i].restartFlow != Some(id)
        ==> Reached(e, w.flows[id], w'.flows[id], t))
  }

  /** The event, then the timer if it is due. */
  lemma EventThenTimer(env: Env, w: World, i: nat, id: nat, e: FlowEvent, t: int)
    requires i < |w.servers| && id < |w.flows| && w.flows[id].server == i && Still(env, t) && EventOk(e, None)
    ensures var link := LinkOf(w, id);
            var (f1, k) := RunFlow(env, w.calls, w.flows[id], link, e, None);
            SendEventTo(env, w, i, id, e).flows[id]
            == if Stale(f1, t) then RunFlow(env, k + 1, f1, link, FlowTimedOut, None).0 else f1
  {
    hide RunFlow;
    ChainFrame(env, w.calls, w.flows[id], LinkOf(w, id), e, None);
    var w1 := FlowEventAt(env, w, id, e, None);
    assert LinkOf(Looked(w1), id) == LinkOf(w, id);
  }

  lemma EventAndTimerReached(env: Env, k: nat, f: Flow, link: Link, e: FlowEvent, t: int)
    requires Still(env, t) && FlowOk(f) && !link.isRestart && Broadcast(e)
    ensures var (f1, k1) := RunFlow(env, k, f, link, e, None);
            Reached(e, f, if Stale(f1, t) then RunFlow(env, k1 + 1, f1, link, FlowTimedOut, None).0 else f1, t)
  {
    hide RunFlow, Reached, FlowOk, NextState, Stale;
    EventReached(env, k, f, link, e, t);
    if NextState(f.state, e) == None {
      OnlyInitialized(f.state, e);
      if Stale(f, t) {
        TimerReached(env, RunFlow(env, k, f, link, e, None).1 + 1, f, link, t);
      } else {
        UntouchedReached(f, t);
      }
    }
  }

  lemma EventForOne(env: Env, w: World, i: nat, id: nat, e: FlowEvent, t: int)
    requires FlowsOk(w) && i < |w.servers| && id < |w.flows| && Still(env, t) && Broadcast(e)
    ensures Affected(w, SendEventTo(env, w, i, id, e), i, id, e, t)
  {
    hide RunFlow, Reached, FlowOk, FlowsOk, SendEventTo, LinkOf, Stale;
    FlowIsOk(w, id);
    NotRestarting(w, i, id);
    OtherServersFlow(env, w, i, id, e);
    if w.flows[id].server == i && w.servers[i].restartFlow != Some(id) {
      EventThenTimer(env, w, i, id, e, t);
      EventAndTimerReached(env, w.calls, w.flows[id], LinkOf(w, id), e, t);
    }
  }

  lemma FlowIsOk(w: World, id: nat)
    requires FlowsOk(w) && id < |w.flows|
    ensures FlowOk(w.flows[id])
  {
  }

  lemma NotRestarting(w: World, i: nat, id: nat)
    requires i < |w.servers| && id < |w.flows|
    ensures w.flows[id].server == i && w.servers[i].restartFlow != Some(id) ==> !LinkOf(w, id).isRestart
  {
  }

  lemma OtherServersFlow(env: Env, w: World, i: nat, id: nat, e: FlowEvent)
    requires i < |w.servers| && id < |w.flows| && EventOk(e, None)
    ensures w.flows[id].server != i ==> SendEventTo(env, w, i, id, e) == w
  {
    hide CheckFlowTimeout, FlowEventAt;
  }

  lemma OnlyInitialized(s: FlowState, e: FlowEvent)
    requires Broadcast(e) && NextState(s, e) == None
    ensures e == ServerInitialized
  {
  }

  lemma UntouchedReached(f: Flow, t: int)
    requires !Stale(f, t) && NextState(f.state, ServerInitialized) == None
    ensures Reached(ServerInitialized, f, f, t)
  {
  }

  lemma OthersUntouched(env: Env, w: World, i: nat, id: nat, e: FlowEvent)
    requires i < |w.servers| && id < |w.flows| && Broadcast(e)
    ensures var w' := SendEventTo(env, w, i, id, e);
            forall j :: 0 <= j < |w.flows| && j != id ==> w'.flows[j] == w.flows[j]
  {
    hide RunFlow;
  }

  lemma {:induction false} EventForAll(env: Env, w: World, i: nat, ids: seq<nat>, e: FlowEvent, t: int)
    requires FlowsOk(w) && i < |w.servers| && Still(env, t) && Broadcast(e)
    requires InRange(ids, |w.flows|) && Distinct(ids)
    ensures var w' := SendEvents(env, w, i, ids, e);
            && (forall id :: id in ids ==> Affected(w, w', i, id, e, t))
            && (forall id :: 0 <= id < |w.flows| && id !in ids ==> w'.flows[id] == w.flows[id])
    decreases |ids|
  {
    if ids != [] {
      hide SendEventTo, FlowsOk, Reached, Broadcast, Affected, FlowsEvolved;
      var w1 := SendEventTo(env, w, i, ids[0], e);
      EventForOne(env, w, i, ids[0], e, t);
      OthersUntouched(env, w, i, ids[0], e);
      SendEventToKeeps(env, w, i, ids[0], e);
      EventForAll(env, w1, i, ids[1..], e, t);
      assert ids == [ids[0]] + ids[1..] && ids[0] !in ids[1..];
      var w' := SendEvents(env, w, i, ids, e);
      forall id | id in ids
        ensures Affected(w, w', i, id, e, t)
      {
        AffectedOnce(w, w1, w', i, id, e, t);
      }
    }
  }

  /** A flow is affected by one of two steps, if the other leaves it alone. */
  lemma AffectedOnce(w: World, w1: World, w': World, i: nat, id: nat, e: FlowEvent, t: int)
    requires i < |w.servers| == |w1.servers| && id < |w.flows| == |w1.flows| == |w'.flows| && Broadcast(e)
    requires w1.servers[i].restartFlow == w.servers[i].restartFlow
    requires || (Affected(w, w1, i, id, e, t) && w'.flows[id] == w1.flows[id])
             || (w1.flows[id] == w.flows[id] && Affected(w1, w', i, id, e, t))
    ensures Affected(w, w', i, id, e, t)
  {
  }

  /** A registered flow of the server that did not bring the news of a restart. */
  ghost predicate Addressed(w: World, i: nat, id: nat)
    requires i < |w.servers|
  {
    Owned(w, i, id) && w.servers[i].restartFlow != Some(id)
  }

  /** The event reached every registered flow of the server, and no other flow. */
  ghost predicate AllReached(w: World, w': World, i: nat, e: FlowEvent, t: int)
    requires i < |w.servers| && Broadcast(e)
  {
    && |w'.flows| == |w.flows| && |w'.servers| == |w.servers| && w'.order == w.order
    && (forall id :: 0 <= id < |w.flows| && Addressed(w, i, id) ==> Reached(e, w.flows[id], w'.flows[id], t))
    && (forall id :: 0 <= id < |w.flows| && (id !in w.order || w.flows[id].server != i) ==> w'.flows[id] == w.flows[id])
  }

  lemma WalkReachesAll(env: Env, w: World, i: nat, e: FlowEvent, t: int)
    requires Inv(w) && i < |w.servers| && Still(env, t) && Broadcast(e)
    ensures InRange(w.order, |w.flows|) && AllReached(w, SendEvents(env, w, i, w.order, e), i, e, t)
  {
    assert InRange(w.order, |w.flows|);
    hide SendEvents, FlowsOk, Reached, Arranged;
    EventForAll(env, w, i, w.order, e, t);
    var w1 := SendEvents(env, w, i, w.order, e);
    forall id | 0 <= id < |w.flows| && (id !in w.order || w.flows[id].server != i)
      ensures w1.flows[id] == w.flows[id]
    {
      assert id in w.order ==> Affected(w, w1, i, id, e, t);
    }
    forall id | 0 <= id < |w.flows| && Addressed(w, i, id)
      ensures Reached(e, w.flows[id], w1.flows[id], t)
    {
      assert Affected(w, w1, i, id, e, t);
    }
  }

  ghost predicate Recovered(w: World, w': World, i: nat, t: int)
    requires i < |w.servers|
  {
    && AllReached(w, w', i, ServerRestarted, t)
    && w'.servers[i].restartFlow == None
    && w'.servers[i].state == WaitIoCalcNearestTimeout && w'.servers[i].nextTimeout == t
  }

  /** Restart recovery: every registered flow of the server but the one whose message
      announced the restart, whatever its state was, has sent exactly one message and waits for
      the reply with its timer ahead, or it has failed; no other flow changed; and
      the announcing flow is forgotten. */
  lemma RestartRecovery(env: Env, w: World, i: nat, t: int)
    requires Inv(w) && i < |w.servers| && Still(env, t)
    ensures Recovered(w, HandleRestart(env, w, i), i, t)
  {
    hide SendEvents, Inv, Reached;
    WalkReachesAll(env, w, i, ServerRestarted, t);
  }

  ghost predicate GivenUp(w: World, w': World, i: nat, t: int)
    requires i < |w.servers|
  {
    && AllReached(w, w', i, SendFailed, t)
    && w'.servers[i].state == NotWorking
    && w'.servers[i].nextTimeout == t + PCP_SERVER_DISCOVERY_RETRY_DELAY * SECOND
  }

  /** A server is given up: every registered flow of it has failed, its timer off, except that a
      granted flow is sent once more, or failed; no other flow changed. */
  lemma GivingUp(env: Env, w: World, i: nat, t: int)
    requires Inv(w) && i < |w.servers| && Still(env, t)
    ensures GivenUp(w, FailAll(env, w, i), i, t)
  {
    hide SendEvents, Inv, Reached;
    WalkReachesAll(env, w, i, SendFailed, t);
  }

  ghost predicate Served(w: World, w': World, i: nat, t: int)
    requires i < |w.servers|
  {
    && AllReached(w, w', i, ServerInitialized, t)
    && w'.servers[i].state == WaitIoCalcNearestTimeout && w'.servers[i].nextTimeout == t
  }

  /** A server has answered: every registered flow that waited for it, or for a reply, has sent
      one message, or failed; of the others only those with a due timer acted. */
  lemma Serving(env: Env, w: World, i: nat, t: int)
    requires Inv(w) && i < |w.servers| && Still(env, t)
    ensures Served(w, SendAll(env, w, i), i, t)
  {
    hide SendEvents, Inv, Reached;
    WalkReachesAll(env, w, i, ServerInitialized, t);
  }

  // ----- ping ------------------------------------------------------------------------

  /** What handle_server_ping returns. Without a ping flow: no flow of the server is left to
      ping, and no timer is armed. With one: it is registered, of this server, not failed,
      and its timer is the server's. */
  ghost predicate PingResult(w: World, i: nat) {
    && i < |w.servers|
    && match w.servers[i].state
       case Ping =>
         w.servers[i].pingFlow == None && w.servers[i].nextTimeout == 0
         && forall id :: id in w.order ==>
              0 <= id < |w.flows|
              && (w.flows[id].server == i ==>
                    w.flows[id].state != Idle && w.flows[id].state != WaitForServerInit && w.flows[id].state != Send)
       case WaitPingResp =>
         w.servers[i].pingFlow.Some?
         && var id := w.servers[i].pingFlow.value;
            Owned(w, i, id) && w.flows[id].state != Failed && w.servers[i].nextTimeout == w.flows[id].timeout
            && w.flows[id].retry == 0
       case _ => false
  }

  lemma NoPing(w: World, i: nat)
    requires i < |w.servers| && InRange(w.order, |w.flows|) && FirstPingable(w.flows, w.order, i) == None
    ensures PingResult(GoUntimed(SetServer(w, i, w.servers[i].(pingFlow := None)), i, Ping), i)
  {
  }

  lemma PingTaken(env: Env, w: World, i: nat, id: nat)
    requires Inv(w) && i < |w.servers| && FirstPingable(w.flows, w.order, i) == Some(id)
    requires TryPing(env, w, i, id).flows[id].state != Failed
    ensures var w1 := TryPing(env, w, i, id);
            PingResult(SetServer(w1, i, w1.servers[i].(nextTimeout := w1.flows[id].timeout, state := WaitPingResp)), i)
  {
    TryPingFrame(env, w, i, id);
    TryPingStartsAnew(env, w, i, id);
    hide TryPing, Inv;
  }

  /** A ping is a first message: no retransmission is counted. */
  lemma TryPingStartsAnew(env: Env, w: World, i: nat, id: nat)
    requires i < |w.servers| && id < |w.flows| && Pingable(w.flows[id], i)
    ensures TryPing(env, w, i, id).flows[id].retry == 0
  {
    var w1 := SetServer(w, i, w.servers[i].(pingFlow := Some(id)));
    var w2 := SetFlow(w1, id, ResetRetry(w1.flows[id]));
    hide RunFlow;
    FirstWaitIsInitial(env, w2.calls, w2.flows[id], LinkOf(w2, id), DoSend, None);
  }

  lemma {:induction false} PingLoopResult(env: Env, w: World, i: nat)
    requires Inv(w) && i < |w.servers| && w.servers[i].state == Ping
    ensures PingResult(PingLoop(env, w, i), i)
    ensures PingLoop(env, w, i).servers[i].pingCount == w.servers[i].pingCount
    decreases NumPingable(w.flows, w.order, i)
  {
    assert InRange(w.order, |w.flows|);
    hide TryPing, PingLoop, Inv, Pingable, FirstPingable, NumPingable, PingResult;
    Handlers.PingLoopUnfold(env, w, i);
    var found := FirstPingable(w.flows, w.order, i);
    if found.None? {
      NoPing(w, i);
    } else {
      var id := found.value;
      var w1 := TryPing(env, w, i, id);
      TryPingFrame(env, w, i, id);
      if w1.flows[id].state == Failed {
        PingLoopResult(env, w1, i);
      } else {
        PingTaken(env, w, i, id);
      }
    }
  }

  lemma TryPingFrame(env: Env, w: World, i: nat, id: nat)
    requires Inv(w) && i < |w.servers|
    requires FirstPingable(w.flows, w.order, i) == Some(id)
    ensures Inv(TryPing(env, w, i, id)) && TryPing(env, w, i, id).flows[id].server == i
  {
    hide TryPing;
    Handlers.TryPingKeeps(env, w, i, id);
    StepKeepsInv(w, TryPing(env, w, i, id), i);
  }

  /** The selection loop ends for every socket and clock, and returns with a ping under way
      exactly when some flow of the server took its message. */
  lemma PingSelection(env: Env, w: World, i: nat)
    requires Inv(w) && i < |w.servers| && w.servers[i].state == Ping
    ensures PingResult(ServerPing(env, w, i), i) && ServerPing(env, w, i).servers[i].pingCount == 0
  {
    var w1 := SetServer(w, i, w.servers[i].(pingCount := 0));
    assert ServerOk(w, i);
    SetServerStep(w, i, w1.servers[i], w1);
    StepKeepsInv(w, w1, i);
    PingLoopResult(env, w1, i);
  }

  /** With the clock held still a flow pinged is one that waits, its timer ahead. */
  lemma {:induction false} PingLoopStill(env: Env, w: World, i: nat, t: int)
    requires Inv(w) && i < |w.servers| && w.servers[i].state == Ping && Still(env, t)
    ensures var s := PingLoop(env, w, i).servers[i];
            (s.state == Ping && s.nextTimeout == 0) || (s.state == WaitPingResp && s.nextTimeout > t)
    decreases NumPingable(w.flows, w.order, i)
  {
    assert ServerOk(w, i) && InRange(w.order, |w.flows|);
    hide TryPing, PingLoop, Inv, FirstPingable, NumPingable, ServerOk;
    Handlers.PingLoopUnfold(env, w, i);
    var found := FirstPingable(w.flows, w.order, i);
    if found.Some? {
      var id := found.value;
      TryPingFrame(env, w, i, id);
      TryPingStill(env, w, i, id, t);
      if TryPing(env, w, i, id).flows[id].state == Failed {
        PingLoopStill(env, TryPing(env, w, i, id), i, t);
      }
    }
  }

  lemma TryPingStill(env: Env, w: World, i: nat, id: nat, t: int)
    requires Inv(w) && i < |w.servers| && w.servers[i].state == Ping && Still(env, t)
    requires id < |w.flows| && Pingable(w.flows[id], i)
    ensures var f := TryPing(env, w, i, id).flows[id];
            f.state == Failed || (f.state == WaitResp && f.timeout > t)
  {
    assert ServerOk(w, i);
    var w1 := SetServer(w, i, w.servers[i].(pingFlow := Some(id)));
    var f := ResetRetry(w.flows[id]);
    var w2 := SetFlow(w1, id, f);
    hide RunFlow;
    SendingChain(env, w2.calls, f, LinkOf(w2, id), DoSend, None, t);
  }

  // ----- the timer minimum -----------------------------------------------------------

  /** The smaller of two remaining times, where 0 is none. */
  function MinLeft(a: int, b: int): int {
    if a == 0 then b else if b == 0 then a else Min(a, b)
  }

  /** The smallest remaining time among the armed timers of some flows, 0 without one. */
  function NearestTimer(flows: seq<Flow>, ids: seq<nat>, t: int): int
    requires InRange(ids, |flows|)
  {
    if ids == [] then 0
    else
      var timeout := flows[ids[0]].timeout;
      MinLeft(if timeout == 0 then 0 else timeout - t, NearestTimer(flows, ids[1..], t))
  }

  /** The flows of a walk that come after the last one with a stale timer. */
  function AfterStale(flows: seq<Flow>, ids: seq<nat>, t: int): (r: seq<nat>)
    requires InRange(ids, |flows|)
    ensures InRange(r, |flows|) && |r| <= |ids|
  {
    if ids == [] then []
    else
      var rest := AfterStale(flows, ids[1..], t);
      if |rest| < |ids| - 1 || Stale(flows[ids[0]], t) then rest else ids
  }

  /** The running minimum after a flow was looked at: a stale timer sets it back to "none". */
  function Folded(f: Flow, tout: int, t: int): int {
    if f.timeout == 0 then tout else if f.timeout <= t then 0 else MinLeft(tout, f.timeout - t)
  }

  /** What the walk should return, from the flows as they are in the end. */
  ghost predicate WalkResult(flows: seq<Flow>, ids: seq<nat>, tout: int, t: int, tout': int)
    requires InRange(ids, |flows|)
  {
    var last := AfterStale(flows, ids, t);
    var nearest := NearestTimer(flows, last, t);
    tout' == if |last| == |ids| then MinLeft(tout, nearest) else nearest
  }

  lemma WalkResultStep(flows: seq<Flow>, ids: seq<nat>, tout: int, t: int, tout': int)
    requires ids != [] && InRange(ids, |flows|) && tout >= 0
    requires WalkResult(flows, ids[1..], Folded(flows[ids[0]], tout, t), t, tout')
    ensures WalkResult(flows, ids, tout, t, tout')
  {
    var rest := AfterStale(flows, ids[1..], t);
    AfterStaleHasNone(flows, ids[1..], t);
    NearestNonNegative(flows, rest, t);
  }

  lemma CheckOneStill(env: Env, w: World, id: nat, tout: int, t: int)
    requires id < |w.flows| && Still(env, t) && tout >= 0
    ensures var (w', tout') := CheckFlowTimeout(env, w, id, tout);
            && (forall j :: 0 <= j < |w.flows| && j != id ==> w'.flows[j] == w.flows[j])
            && tout' == Folded(w'.flows[id], tout, t)
  {
    hide RunFlow;
  }

  /** The walk computes the smallest remaining time of the flows after the last stale one,
      measured when the walk is over. */
  lemma {:induction false} CheckAllStill(env: Env, w: World, ids: seq<nat>, tout: int, t: int)
    requires InRange(ids, |w.flows|) && Distinct(ids) && Still(env, t) && tout >= 0
    ensures var (w', tout') := CheckAll(env, w, ids, tout);
            && (forall j :: 0 <= j < |w.flows| && j !in ids ==> w'.flows[j] == w.flows[j])
            && tout' >= 0 && WalkResult(w'.flows, ids, tout, t, tout')
    decreases |ids|
  {
    if ids != [] {
      hide CheckFlowTimeout, WalkResult;
      CheckOneStill(env, w, ids[0], tout, t);
      var (w1, tout1) := CheckFlowTimeout(env, w, ids[0], tout);
      CheckAllStill(env, w1, ids[1..], tout1, t);
      assert ids[0] !in ids[1..] && ids == [ids[0]] + ids[1..];
      var (w', tout') := CheckAll(env, w1, ids[1..], tout1);
      WalkResultStep(w'.flows, ids, tout, t, tout');
    }
  }

  lemma {:induction false} AfterStaleHasNone(flows: seq<Flow>, ids: seq<nat>, t: int)
    requires InRange(ids, |flows|)
    ensures forall j :: j in AfterStale(flows, ids, t) ==> !Stale(flows[j], t)
    ensures |AfterStale(flows, ids, t)| == |ids| ==> AfterStale(flows, ids, t) == ids
    decreases |ids|
  {
    if ids != [] {
      AfterStaleHasNone(flows, ids[1..], t);
      assert ids == [ids[0]] + ids[1..];
    }
  }

  lemma {:induction false} NearestNonNegative(flows: seq<Flow>, ids: seq<nat>, t: int)
    requires InRange(ids, |flows|)
    requires forall j :: j in ids ==> !Stale(flows[j], t)
    ensures NearestTimer(flows, ids, t) >= 0
    decreases |ids|
  {
    if ids != [] {
      assert forall j :: j in ids[1..] ==> j in ids;
      NearestNonNegative(flows, ids[1..], t);
      assert ids[0] in ids;
    }
  }

  /** handle_wait_io_timeout with the clock held still: next_timeout becomes the nearest timer
      among the flows after the last stale one, measured once the due timers have fired. */
  lemma TimerIsNearestAfterStale(env: Env, w: World, i: nat, t: int)
    requires Inv(w) && i < |w.servers| && Still(env, t)
    ensures var w' := WaitIoTimeout(env, w, i);
            && |w'.flows| == |w.flows| && |w'.servers| == |w.servers| && w'.order == w.order
            && InRange(w.order, |w.flows|)
            && w'.servers[i].nextTimeout
               == Absolute(NearestTimer(w'.flows, AfterStale(w'.flows, w.order, t), t), t)
            && (w'.servers[i].nextTimeout == 0 || w'.servers[i].nextTimeout > t)
  {
    var w0 := SetServer(w, i, w.servers[i].(nextTimeout := 0));
    hide CheckAll, AfterStale;
    CheckAllStill(env, w0, w.order, 0, t);
  }

  function Absolute(left: int, t: int): int { if left == 0 then 0 else t + left }

  /** The earliest armed timer of some flows, 0 without one. */
  function EarliestTimer(flows: seq<Flow>, ids: seq<nat>): int
    requires InRange(ids, |flows|)
  {
    if ids == [] then 0 else MinLeft(flows[ids[0]].timeout, EarliestTimer(flows, ids[1..]))
  }

  ghost predicate NoneStale(w: World, t: int) {
    forall id :: 0 <= id < |w.flows| && id in w.order ==> !Stale(w.flows[id], t)
  }

  /** Where the walk leaves no stale timer, next_timeout is the earliest armed timer of all. */
  lemma TimerIsEarliest(env: Env, w: World, i: nat, t: int)
    requires Inv(w) && i < |w.servers| && Still(env, t)
    requires NoneStale(WaitIoTimeout(env, w, i), t)
    ensures var w' := WaitIoTimeout(env, w, i);
            && |w'.flows| == |w.flows| && |w'.servers| == |w.servers| && InRange(w.order, |w.flows|)
            && w'.servers[i].nextTimeout == EarliestTimer(w'.flows, w.order)
  {
    hide WaitIoTimeout;
    TimerIsNearestAfterStale(env, w, i, t);
    var w' := WaitIoTimeout(env, w, i);
    NothingDropped(w'.flows, w.order, t);
    NearestIsEarliest(w'.flows, w.order, t);
  }

  /** ... and only there: otherwise the earliest timer is a stale one, which is never taken over. */
  lemma TimerIsEarliestOnlyIf(env: Env, w: World, i: nat, t: int)
    requires Inv(w) && i < |w.servers| && Still(env, t)
    requires InRange(w.order, |w.flows|) && |WaitIoTimeout(env, w, i).flows| == |w.flows|
    requires WaitIoTimeout(env, w, i).servers[i].nextTimeout == EarliestTimer(WaitIoTimeout(env, w, i).flows, w.order)
    ensures NoneStale(WaitIoTimeout(env, w, i), t)
  {
    hide WaitIoTimeout, EarliestTimer, Stale;
    TimerIsNearestAfterStale(env, w, i, t);
    var w' := WaitIoTimeout(env, w, i);
    if id :| 0 <= id < |w'.flows| && id in w'.order && Stale(w'.flows[id], t) {
      StaleIsEarliest(w'.flows, w.order, t, id);
    }
  }

  lemma {:induction false} StaleIsEarliest(flows: seq<Flow>, ids: seq<nat>, t: int, id: nat)
    requires InRange(ids, |flows|) && id in ids && id < |flows| && Stale(flows[id], t)
    ensures EarliestTimer(flows, ids) != 0 && EarliestTimer(flows, ids) <= t
    decreases |ids|
  {
    assert ids == [ids[0]] + ids[1..];
    if id != ids[0] {
      StaleIsEarliest(flows, ids[1..], t, id);
    }
  }

  lemma {:induction false} NothingDropped(flows: seq<Flow>, ids: seq<nat>, t: int)
    requires InRange(ids, |flows|)
    requires forall id :: 0 <= id < |flows| && id in ids ==> !Stale(flows[id], t)
    ensures AfterStale(flows, ids, t) == ids
    decreases |ids|
  {
    if ids != [] {
      assert ids == [ids[0]] + ids[1..] && ids[0] in ids;
      NothingDropped(flows, ids[1..], t);
    }
  }

  lemma {:induction false} NearestIsEarliest(flows: seq<Flow>, ids: seq<nat>, t: int)
    requires InRange(ids, |flows|) && t > 0
    requires forall id :: 0 <= id < |flows| && id in ids ==> !Stale(flows[id], t)
    ensures Absolute(NearestTimer(flows, ids, t), t) == EarliestTimer(flows, ids)
    ensures NearestTimer(flows, ids, t) >= 0
    decreases |ids|
  {
    if ids != [] {
      assert ids == [ids[0]] + ids[1..] && ids[0] in ids;
      NearestIsEarliest(flows, ids[1..], t);
    }
  }

  // A stale timer does stay behind: a flow that waits for its own server to be initialised
  // has the time of its creation as a timer, and no transition for it.

  /** A flow whose state knows no timeout is left alone by the walk. */
  lemma {:induction false} DeafFlowUntouched(env: Env, w: World, ids: seq<nat>, tout: int, id: nat)
    requires InRange(ids, |w.flows|) && id < |w.flows|
    requires NextState(w.flows[id].state, FlowTimedOut) == None
    ensures CheckAll(env, w, ids, tout).0.flows[id] == w.flows[id]
    decreases |ids|
  {
    if ids != [] {
      var (w1, tout1) := CheckFlowTimeout(env, w, ids[0], tout);
      assert w1.flows[id] == w.flows[id] by {
        hide RunFlow;
        if ids[0] == id {
          ChainEndsAtRest(env, w.calls + 1, w.flows[id], LinkOf(Looked(w), id), FlowTimedOut, None);
        }
      }
      hide CheckFlowTimeout;
      DeafFlowUntouched(env, w1, ids[1..], tout1, id);
    }
  }

  lemma {:induction false} StaleLastDropsAll(flows: seq<Flow>, ids: seq<nat>, t: int)
    requires InRange(ids, |flows|) && ids != [] && Stale(flows[ids[|ids| - 1]], t)
    ensures AfterStale(flows, ids, t) == []
    decreases |ids|
  {
    if |ids| > 1 {
      StaleLastDropsAll(flows, ids[1..], t);
    }
  }

  /** So the minimum over all timers can be lost: when the flow at the end of the walk is
      such a flow, no timer is armed at all, whatever the flows of server i wait for. */
  lemma StaleTimerDisarms(env: Env, w: World, i: nat, t: int)
    requires Inv(w) && i < |w.servers| && Still(env, t) && w.order != []
    requires var last := w.order[|w.order| - 1];
             last < |w.flows| && w.flows[last].state == WaitForServerInit && Stale(w.flows[last], t)
    ensures WaitIoTimeout(env, w, i).servers[i].nextTimeout == 0
  {
    var last := w.order[|w.order| - 1];
    var w0 := SetServer(w, i, w.servers[i].(nextTimeout := 0));
    assert InRange(w.order, |w.flows|);
    hide CheckAll;
    DeafFlowUntouched(env, w0, w.order, 0, last);
    TimerIsNearestAfterStale(env, w, i, t);
    StaleLastDropsAll(WaitIoTimeout(env, w, i).flows, w.order, t);
  }
}
