/** When the walk of handle_wait_io_timeout leaves a stale timer behind, and so loses the minimum:
    the condition, as it can be read off the flows before the call. */
module Timers {
  import opened Types
  import opened FlowMachine
  import opened Retransmission
  import opened Renewal
  import opened ServerMachine
  import opened Invariant
  import opened Recovery

  /** A granted flow whose lifetime is over: its next renewal would be planned for a time that
      has passed (and is not 0, which would be no timer). */
  predicate Overdrawn(f: Flow, t: int) {
    && f.state == WaitForLifetimeRenew && Left(f.recvLifetime, t) < 0
    && t + HalfLeft(f.recvLifetime, t) * SECOND != 0
  }

  predicate StaysStale(f: Flow, hasServer: bool, t: int) {
    Stale(f, t) && (Deaf(f) || (hasServer && Overdrawn(f, t)))
  }

  ghost predicate AllSent(env: Env) { forall k: nat :: env(k).ok }

  ghost predicate NoRestart(w: World) {
    forall j :: 0 <= j < |w.servers| ==> w.servers[j].restartFlow == None
  }

  /** A due timer that fires in the still clock is stale afterwards only for such a flow, and
      always for such a flow while the socket works. */
  lemma FiredStale(env: Env, k: nat, f: Flow, link: Link, t: int)
    requires Still(env, t) && RetxOk(f) && f.state != SendRenew && !link.isRestart && Stale(f, t)
    ensures var f' := RunFlow(env, k, f, link, FlowTimedOut, None).0;
            && (Stale(f', t) ==> StaysStale(f, link.hasServer, t))
            && (AllSent(env) && StaysStale(f, link.hasServer, t) ==> Stale(f', t))
  {
    if Deaf(f) {
      assert RunFlow(env, k, f, link, FlowTimedOut, None).0 == f;
    } else if f.state == WaitForLifetimeRenew {
      RenewalStale(env, k, f, link, t);
    } else {
      hide RunFlow;
      SendingChain(env, k, f, link, FlowTimedOut, None, t);
    }
  }

  lemma RenewalStale(env: Env, k: nat, f: Flow, link: Link, t: int)
    requires Still(env, t) && RetxOk(f) && f.state == WaitForLifetimeRenew && !link.isRestart
    ensures var f' := RunFlow(env, k, f, link, FlowTimedOut, None).0;
            Stale(f', t) <==> link.hasServer && env(k).ok && Overdrawn(f, t)
  {
    var (f1, e1) := Handle(HSendRenew, f.(state := SendRenew), link, None, env(k));
    assert RunFlow(env, k, f, link, FlowTimedOut, None) == RunFlow(env, k + 1, f1, link, e1, None);
    if e1 == MsgSent {
      assert HandlerFor(SendRenew, WaitForLifetimeRenew) == None;
      assert RunFlow(env, k + 1, f1, link, e1, None).0 == f1.(state := WaitForLifetimeRenew);
    } else {
      assert RetxOk(f1) && e1 == SendFailed;
      hide RunFlow;
      SendingChain(env, k + 1, f1, link, SendFailed, None, t);
    }
  }

  /** What the walk does to one flow. */
  ghost predicate StaleAsSaid(env: Env, w: World, w': World, id: nat, t: int)
    requires id < |w.flows| == |w'.flows|
  {
    var stays := StaysStale(w.flows[id], LinkOf(w, id).hasServer, t);
    && (Stale(w'.flows[id], t) ==> stays)
    && (AllSent(env) && stays ==> Stale(w'.flows[id], t))
  }

  lemma CheckOneStale(env: Env, w: World, id: nat, tout: int, t: int)
    requires FlowsOk(w) && NoRestart(w) && Still(env, t) && id < |w.flows|
    ensures var w' := CheckFlowTimeout(env, w, id, tout).0;
            StaleAsSaid(env, w, w', id, t)
  {
    hide RunFlow;
    var f := w.flows[id];
    if Stale(f, t) {
      assert FlowOk(f);
      FiredStale(env, w.calls + 1, f, LinkOf(Looked(w), id), t);
    }
  }

  lemma {:induction false} CheckAllStale(env: Env, w: World, ids: seq<nat>, tout: int, t: int)
    requires FlowsOk(w) && NoRestart(w) && Still(env, t) && tout >= 0
    requires InRange(ids, |w.flows|) && Distinct(ids)
    ensures var w' := CheckAll(env, w, ids, tout).0;
            forall id :: id in ids ==> StaleAsSaid(env, w, w', id, t)
    decreases |ids|
  {
    if ids != [] {
      hide CheckFlowTimeout, FlowsOk, StaysStale, Stale;
      CheckOneStale(env, w, ids[0], tout, t);
      CheckOneStill(env, w, ids[0], tout, t);
      CheckFlowTimeoutKeeps(env, w, ids[0], tout);
      var (w1, tout1) := CheckFlowTimeout(env, w, ids[0], tout);
      FoldedNonNegative(w1.flows[ids[0]], tout, t);
      CheckAllStale(env, w1, ids[1..], tout1, t);
      CheckAllStill(env, w1, ids[1..], tout1, t);
      assert ids == [ids[0]] + ids[1..] && ids[0] !in ids[1..];
      var w' := CheckAll(env, w, ids, tout).0;
      forall id | id in ids
        ensures StaleAsSaid(env, w, w', id, t)
      {
        if id != ids[0] {
          assert StaleAsSaid(env, w1, w', id, t);
        }
      }
    }
  }

  lemma FoldedNonNegative(f: Flow, tout: int, t: int)
    requires tout >= 0
    ensures Folded(f, tout, t) >= 0
  {
  }

  /** No registered flow is one whose stale timer stays. */
  ghost predicate NoneStays(w: World, t: int) {
    forall id :: 0 <= id < |w.flows| && id in w.order
                 ==> !StaysStale(w.flows[id], LinkOf(w, id).hasServer, t)
  }

  /** The walk leaves no stale timer if none of the flows before it is such a flow, whatever the
      socket does; and only if, when the socket works. */
  lemma StaleTimersExactly(env: Env, w: World, i: nat, t: int)
    requires Inv(w) && NoRestart(w) && i < |w.servers| && Still(env, t)
    ensures NoneStays(w, t) ==> NoneStale(WaitIoTimeout(env, w, i), t)
    ensures AllSent(env) && NoneStale(WaitIoTimeout(env, w, i), t) ==> NoneStays(w, t)
  {
    var w0 := SetServer(w, i, w.servers[i].(nextTimeout := 0));
    TimerKeepsFlows(w, i, w0);
    assert InRange(w.order, |w.flows|);
    hide CheckAll, FlowsOk, Inv, StaysStale, Stale;
    CheckAllStale(env, w0, w.order, 0, t);
    var w' := WaitIoTimeout(env, w, i);
    assert w'.flows == CheckAll(env, w0, w.order, 0).0.flows && w'.order == w.order;
    forall id | 0 <= id < |w.flows| && id in w.order
      ensures StaleAsSaid(env, w, w', id, t)
    {
      assert StaleAsSaid(env, w0, CheckAll(env, w0, w.order, 0).0, id, t);
      assert LinkOf(w0, id).hasServer == LinkOf(w, id).hasServer;
    }
  }

  /** The timer minimum, with its condition on the flows before the call. */
  lemma TimerIsEarliestBefore(env: Env, w: World, i: nat, t: int)
    requires Inv(w) && NoRestart(w) && i < |w.servers| && Still(env, t) && NoneStays(w, t)
    ensures var w' := WaitIoTimeout(env, w, i);
            && |w'.flows| == |w.flows| && |w'.servers| == |w.servers| && InRange(w.order, |w.flows|)
            && w'.servers[i].nextTimeout == EarliestTimer(w'.flows, w.order)
  {
    hide WaitIoTimeout, EarliestTimer, NoneStays, NoneStale;
    StaleTimersExactly(env, w, i, t);
    TimerIsEarliest(env, w, i, t);
  }
}
