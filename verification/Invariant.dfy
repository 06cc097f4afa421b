/** What every handler of the server state machine keeps, whatever the clock shows, the socket
    does and rand() returns: the retransmission bound, no invented success, the version range
    and sound back-references from servers to flows. */
module Invariant {
  import opened Types
  import opened FlowMachine
  import opened Retransmission
  import opened ServerMachine
  import opened FlowHash
  import opened EpochModel

  // ----- the invariant ---------------------------------------------------------------

  /** A flow that may be reported as succeeded: a message was matched to it, and a message
      with result success unless the flow itself announced a restart by one without. */
  ghost predicate Credited(f: Flow) {
    f.hist.matched && (f.hist.succeeded || f.hist.spared)
  }

  ghost predicate FlowOk(f: Flow) {
    && RetxOk(f)
    && (f.state == WaitResp ==> SHORTEST_WAIT <= f.resend)
    && (f.state == WaitForLifetimeRenew ==> Credited(f))
    && f.state != SendRenew
  }

  ghost predicate RestartsCredited(w: World) {
    forall i :: 0 <= i < |w.servers| && w.servers[i].restartFlow.Some? ==>
      var r := w.servers[i].restartFlow.value;
      r < |w.flows| && Credited(w.flows[r])
  }

  ghost predicate FlowsOk(w: World) {
    && InRange(w.order, |w.flows|)
    && RestartsCredited(w)
    && forall id :: 0 <= id < |w.flows| ==> FlowOk(w.flows[id])
  }

  /** A registered flow of server i. */
  ghost predicate Owned(w: World, i: nat, id: nat) {
    id < |w.flows| && id in w.order && w.flows[id].server == i
  }

  /** rounds counts the versions adopted since the version was set; while none of them went up,
      each lowered the version. */
  ghost predicate VersionOk(s: Server) {
    && s.version <= PCP_MAX_SUPPORTED_VERSION
    && (s.state == VersionNegotiation ==> s.nextVersion <= PCP_MAX_SUPPORTED_VERSION)
    && (!s.raised ==> s.version + s.rounds <= PCP_MAX_SUPPORTED_VERSION)
  }

  ghost predicate ServerOk(w: World, i: nat)
    requires i < |w.servers|
  {
    var s := w.servers[i];
    && VersionOk(s)
    && s.state != Uninitialized
    && (s.pingFlow.Some? ==> Owned(w, i, s.pingFlow.value))
    && (s.restartFlow.Some? ==> s.state == ServerRestart && Owned(w, i, s.restartFlow.value))
  }

  /** The walk meets x before y: x is in an earlier chain, or in the same one and older. */
  ghost predicate Precedes(flows: seq<Flow>, x: nat, y: nat) {
    && x < |flows| && y < |flows|
    && var b, c := Bucket(flows[x].key), Bucket(flows[y].key);
       b < c || (b == c && x < y)
  }

  /** The registered flows stand chain by chain, and in each chain by age. */
  ghost predicate Ordered(flows: seq<Flow>, ids: seq<nat>) {
    forall a, b :: 0 <= a < b < |ids| ==> Precedes(flows, ids[a], ids[b])
  }

  /** Children are made after their predecessors. */
  ghost predicate ChildrenForward(flows: seq<Flow>) {
    forall id :: 0 <= id < |flows| && flows[id].nextChild.Some? ==> id < flows[id].nextChild.value < |flows|
  }

  ghost predicate Arranged(flows: seq<Flow>, ids: seq<nat>) {
    Ordered(flows, ids) && ChildrenForward(flows)
  }

  ghost predicate Inv(w: World) {
    && FlowsOk(w)
    && Distinct(w.order)
    && Arranged(w.flows, w.order)
    && (forall i :: 0 <= i < |w.servers| ==> ServerOk(w, i))
  }

  /** The lookup finds the earliest created flow of those registered with a key and server: flows
      of one key are in one chain, and there by age. */
  lemma {:induction false} LookupFindsEarliest(flows: seq<Flow>, ids: seq<nat>, i: nat, key: FlowKey)
    requires InRange(ids, |flows|) && Ordered(flows, ids)
    ensures var r := Lookup(flows, ids, i, key);
            r.Some? ==> forall id :: id in ids && flows[id].server == i && flows[id].key == key ==> r.value <= id
    decreases |ids|
  {
    hide Bucket;
    if ids != [] {
      assert ids == [ids[0]] + ids[1..];
      if flows[ids[0]].server == i && flows[ids[0]].key == key {
        forall id | id in ids && flows[id].server == i && flows[id].key == key
          ensures ids[0] <= id
        {
          var k :| 0 <= k < |ids| && ids[k] == id;
          assert k > 0 ==> Precedes(flows, ids[0], ids[k]);
        }
      } else {
        LookupFindsEarliest(flows, ids[1..], i, key);
      }
    }
  }

  lemma InvIsWf(w: World)
    requires Inv(w)
    ensures Wf(w)
  {
    forall i | 0 <= i < |w.servers|
      ensures RefOk(w.servers[i].pingFlow, |w.flows|) && RefOk(w.servers[i].restartFlow, |w.flows|)
    {
      assert ServerOk(w, i);
    }
  }

  // ----- how a step may change the context -------------------------------------------

  /** Flows keep their identity and what they have received. */
  ghost predicate Evolved(a: Flow, b: Flow) {
    && b.server == a.server && b.key == a.key && b.nextChild == a.nextChild
    && (a.hist.matched ==> b.hist.matched)
    && (a.hist.succeeded ==> b.hist.succeeded)
    && (a.hist.spared ==> b.hist.spared)
  }

  ghost predicate FlowsEvolved(w: World, w': World) {
    && |w.flows| <= |w'.flows|
    && (forall id :: 0 <= id < |w.flows| ==> Evolved(w.flows[id], w'.flows[id]))
  }

  /** The arrangement depends on keys and child links only. */
  lemma ArrangedKept(w: World, w': World)
    requires Arranged(w.flows, w.order) && FlowsEvolved(w, w') && |w'.flows| == |w.flows| && w'.order == w.order
    ensures Arranged(w'.flows, w'.order)
  {
    hide Bucket;
    forall a, b | 0 <= a < b < |w'.order|
      ensures Precedes(w'.flows, w'.order[a], w'.order[b])
    {
      assert Precedes(w.flows, w.order[a], w.order[b]);
      assert Evolved(w.flows[w.order[a]], w'.flows[w.order[a]]) && Evolved(w.flows[w.order[b]], w'.flows[w.order[b]]);
    }
    forall id | 0 <= id < |w'.flows| && w'.flows[id].nextChild.Some?
      ensures id < w'.flows[id].nextChild.value < |w'.flows|
    {
      assert Evolved(w.flows[id], w'.flows[id]);
    }
  }

  /** Nothing but flows, the clock and the running minimum of server i changed. */
  ghost predicate FlowStep(w: World, w': World) {
    && FlowsEvolved(w, w') && |w'.flows| == |w.flows|
    && w'.order == w.order
  }

  /** Server i kept everything but its timer. */
  ghost predicate OnlyTimer(w: World, w': World, i: nat) {
    && i < |w.servers| && |w'.servers| == |w.servers|
    && w'.servers == w.servers[i := w.servers[i].(nextTimeout := w'.servers[i].nextTimeout)]
  }

  // ----- flow events -----------------------------------------------------------------

  /** The events that reach a flow from outside its chain, and what they presuppose. */
  ghost predicate Admissible(f: Flow, e: FlowEvent) {
    && e != MsgSent && e != Ignored
    && RetxOk(f)
    && (f.state == WaitResp && NextState(f.state, e).None? ==> SHORTEST_WAIT <= f.resend)
    && (f.state == WaitForLifetimeRenew ==> Credited(f))
    && (e == Result(RES_SUCCESS) ==> Credited(f))
    && f.state != SendRenew
  }

  lemma FlowEventKeeps(env: Env, w: World, id: nat, e: FlowEvent, msg: Option<Msg>)
    requires id < |w.flows| && EventOk(e, msg)
    requires InRange(w.order, |w.flows|) && RestartsCredited(w)
    requires Admissible(w.flows[id], e)
    requires forall j :: 0 <= j < |w.flows| && j != id ==> FlowOk(w.flows[j])
    ensures var w' := FlowEventAt(env, w, id, e, msg);
            FlowsOk(w') && FlowStep(w, w') && w'.servers == w.servers
  {
    hide RunFlow, NextState;
    var f, link := w.flows[id], LinkOf(w, id);
    assert link.isRestart ==> Credited(f);
    ChainKeepsFit(env, w.calls, f, link, e, msg);
    hide FlowOk, Admissible;
  }

  lemma ChainKeepsFit(env: Env, k: nat, f: Flow, link: Link, e: FlowEvent, msg: Option<Msg>)
    requires EventOk(e, msg) && Admissible(f, e) && (link.isRestart ==> Credited(f))
    ensures var f' := RunFlow(env, k, f, link, e, msg).0;
            FlowOk(f') && Evolved(f, f')
  {
    hide RunFlow, NextState;
    ChainFrame(env, k, f, link, e, msg);
    ChainEndsAtRest(env, k, f, link, e, msg);
    ChainKeepsRetx(env, k, f, link, e, msg);
    RenewHasCause(env, k, f, link, e, msg);
  }

  lemma CheckFlowTimeoutKeeps(env: Env, w: World, id: nat, tout: int)
    requires FlowsOk(w) && id < |w.flows|
    ensures var w' := CheckFlowTimeout(env, w, id, tout).0;
            FlowsOk(w') && FlowStep(w, w') && w'.servers == w.servers
  {
    assert FlowsOk(Looked(w));
    if w.flows[id].timeout != 0 && w.flows[id].timeout <= Now(env, w) {
      FlowEventKeeps(env, Looked(w), id, FlowTimedOut, None);
    }
  }

  lemma {:induction false} CheckAllKeeps(env: Env, w: World, ids: seq<nat>, tout: int)
    requires FlowsOk(w) && InRange(ids, |w.flows|)
    ensures var w' := CheckAll(env, w, ids, tout).0;
            FlowsOk(w') && FlowStep(w, w') && w'.servers == w.servers
    decreases |ids|
  {
    if ids != [] {
      hide CheckFlowTimeout;
      CheckFlowTimeoutKeeps(env, w, ids[0], tout);
      var (w1, tout1) := CheckFlowTimeout(env, w, ids[0], tout);
      CheckAllKeeps(env, w1, ids[1..], tout1);
    }
  }

  /** Events with which a server addresses all its flows. */
  predicate Broadcast(e: FlowEvent) {
    e == ServerInitialized || e == ServerRestarted || e == SendFailed
  }

  lemma SendEventToKeeps(env: Env, w: World, i: nat, id: nat, e: FlowEvent)
    requires FlowsOk(w) && i < |w.servers| && id < |w.flows| && Broadcast(e)
    ensures var w' := SendEventTo(env, w, i, id, e);
            FlowsOk(w') && FlowStep(w, w') && OnlyTimer(w, w', i)
  {
    if w.flows[id].server == i {
      hide CheckFlowTimeout, RunFlow;
      FlowEventKeeps(env, w, id, e, None);
      var w1 := FlowEventAt(env, w, id, e, None);
      CheckFlowTimeoutKeeps(env, w1, id, w.servers[i].nextTimeout);
      var w2 := CheckFlowTimeout(env, w1, id, w.servers[i].nextTimeout).0;
      assert FlowStep(w, w2);
      TimerKeepsFlows(w2, i, SendEventTo(env, w, i, id, e));
    }
  }

  lemma TimerKeepsFlows(w: World, i: nat, w': World)
    requires FlowsOk(w) && OnlyTimer(w, w', i) && w'.flows == w.flows && w'.order == w.order
    ensures FlowsOk(w')
  {
    forall j | 0 <= j < |w'.servers| && w'.servers[j].restartFlow.Some?
      ensures w'.servers[j].restartFlow.value < |w'.flows|
      ensures Credited(w'.flows[w'.servers[j].restartFlow.value])
    {
      assert w'.servers[j].restartFlow == w.servers[j].restartFlow;
    }
  }

  lemma {:induction false} SendEventsKeeps(env: Env, w: World, i: nat, ids: seq<nat>, e: FlowEvent)
    requires FlowsOk(w) && i < |w.servers| && InRange(ids, |w.flows|) && Broadcast(e)
    ensures var w' := SendEvents(env, w, i, ids, e);
            FlowsOk(w') && FlowStep(w, w') && OnlyTimer(w, w', i)
    decreases |ids|
  {
    hide SendEventTo, FlowsOk;
    if ids != [] {
      SendEventToKeeps(env, w, i, ids[0], e);
      SendEventsKeeps(env, SendEventTo(env, w, i, ids[0], e), i, ids[1..], e);
    }
  }

  // ----- handlers --------------------------------------------------------------------

  /** The claim for one step of server i. */
  ghost predicate StepOk(w: World, w': World, i: nat) {
    && FlowsOk(w') && FlowsEvolved(w, w') && Distinct(w'.order) && Arranged(w'.flows, w'.order)
    && (forall x :: x in w.order ==> x in w'.order)
    && i < |w'.servers| == |w.servers|
    && (forall j :: 0 <= j < |w.servers| && j != i ==> w'.servers[j] == w.servers[j])
    && ServerOk(w', i)
  }

  lemma StepKeepsInv(w: World, w': World, i: nat)
    requires Inv(w) && StepOk(w, w', i)
    ensures Inv(w')
  {
    forall j | 0 <= j < |w'.servers|
      ensures ServerOk(w', j)
    {
      if j != i {
        assert ServerOk(w, j);
      }
    }
  }

  /** Changing server i alone, without naming a new flow in it. */
  lemma SetServerStep(w: World, i: nat, s: Server, w': World)
    requires Inv(w) && i < |w.servers|
    requires w' == w.(servers := w.servers[i := s], calls := w'.calls)
    requires s.pingFlow == w.servers[i].pingFlow || s.pingFlow == None
    requires s.restartFlow == None || (s.restartFlow == w.servers[i].restartFlow && s.state == ServerRestart)
    requires VersionOk(s) && s.state != Uninitialized
    ensures StepOk(w, w', i)
  {
    assert ServerOk(w, i);
    forall j | 0 <= j < |w'.servers| && w'.servers[j].restartFlow.Some?
      ensures w'.servers[j].restartFlow.value < |w'.flows|
      ensures Credited(w'.flows[w'.servers[j].restartFlow.value])
    {
      assert w'.servers[j].restartFlow == w.servers[j].restartFlow;
    }
  }

  /** Two steps of the same server in a row. */
  lemma StepsCompose(w: World, w1: World, w2: World, i: nat)
    requires Inv(w) && StepOk(w, w1, i) && StepOk(w1, w2, i)
    ensures StepOk(w, w2, i)
  {
  }

  lemma FlowStepIsStep(w: World, w': World, i: nat)
    requires Inv(w) && i < |w.servers| && FlowsOk(w') && FlowStep(w, w') && OnlyTimer(w, w', i)
    ensures StepOk(w, w', i)
  {
    ArrangedKept(w, w');
    hide Arranged;
    assert ServerOk(w, i);
  }
}
