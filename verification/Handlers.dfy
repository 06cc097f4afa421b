/** Every handler of the server state machine keeps the invariant. */
module Handlers {
  import opened Types
  import opened FlowMachine
  import opened Retransmission
  import opened ServerMachine
  import opened FlowHash
  import opened EpochModel
  import opened Invariant

  /** The last part of a handler that only sets fields of server i. */
  lemma FinishServer(w: World, w1: World, i: nat, s: Server, w': World)
    requires Inv(w) && StepOk(w, w1, i)
    requires w' == w1.(servers := w1.servers[i := s], calls := w'.calls)
    requires s.pingFlow == w1.servers[i].pingFlow
    requires s.restartFlow == None || (s.restartFlow == w1.servers[i].restartFlow && s.state == ServerRestart)
    requires VersionOk(s) && s.state != Uninitialized
    ensures StepOk(w, w', i)
  {
    StepKeepsInv(w, w1, i);
    SetServerStep(w1, i, s, w');
    StepsCompose(w, w1, w', i);
  }

  /** An event for one flow, the rest of the context untouched. */
  lemma EventStep(env: Env, w: World, w1: World, i: nat, id: nat, e: FlowEvent, msg: Option<Msg>)
    requires Inv(w) && i < |w.servers| && id < |w.flows| && EventOk(e, msg)
    requires |w1.flows| == |w.flows| && w1 == w.(flows := w.flows[id := w1.flows[id]])
    requires Evolved(w.flows[id], w1.flows[id]) && Admissible(w1.flows[id], e)
    ensures var w' := FlowEventAt(env, w1, id, e, msg);
            StepOk(w, w', i) && w'.servers == w.servers && w'.order == w.order && |w'.flows| == |w.flows|
           
  {
    hide FlowEventAt;
    assert w1.flows == w.flows[id := w1.flows[id]];
    FlowEventKeeps(env, w1, id, e, msg);
    var w' := FlowEventAt(env, w1, id, e, msg);
    assert FlowsEvolved(w, w1) && FlowsEvolved(w1, w');
    ArrangedKept(w, w');
    hide Arranged;
    assert ServerOk(w, i);
  }

  // ----- ping ------------------------------------------------------------------------

  lemma TryPingKeeps(env: Env, w: World, i: nat, id: nat)
    requires Inv(w) && i < |w.servers|
    requires FirstPingable(w.flows, w.order, i) == Some(id)
    ensures StepOk(w, TryPing(env, w, i, id), i)
  {
    var w1 := SetServer(w, i, w.servers[i].(pingFlow := Some(id)));
    PingRefStep(w, i, id);
    StepKeepsInv(w, w1, i);
    var w2 := SetFlow(w1, id, ResetRetry(w1.flows[id]));
    EventStep(env, w1, w2, i, id, DoSend, None);
    StepsCompose(w, w1, FlowEventAt(env, w2, id, DoSend, None), i);
  }

  /** Making a registered flow of the server its ping flow. */
  lemma PingRefStep(w: World, i: nat, id: nat)
    requires Inv(w) && i < |w.servers| && Owned(w, i, id)
    ensures StepOk(w, SetServer(w, i, w.servers[i].(pingFlow := Some(id))), i)
  {
    var w' := SetServer(w, i, w.servers[i].(pingFlow := Some(id)));
    assert ServerOk(w, i);
    forall j | 0 <= j < |w'.servers| && w'.servers[j].restartFlow.Some?
      ensures w'.servers[j].restartFlow.value < |w'.flows|
      ensures Credited(w'.flows[w'.servers[j].restartFlow.value])
    {
      assert w'.servers[j].restartFlow == w.servers[j].restartFlow;
    }
  }

  /** One round of the ping loop. */
  lemma PingLoopUnfold(env: Env, w: World, i: nat)
    requires i < |w.servers| && InRange(w.order, |w.flows|)
    ensures var found := FirstPingable(w.flows, w.order, i);
            if found.None? then
              PingLoop(env, w, i) == GoUntimed(SetServer(w, i, w.servers[i].(pingFlow := None)), i, Ping)
            else
              var id := found.value;
              var w1 := TryPing(env, w, i, id);
              if w1.flows[id].state != Failed then
                PingLoop(env, w, i) == SetServer(w1, i, w1.servers[i].(nextTimeout := w1.flows[id].timeout, state := WaitPingResp))
              else
                && PingLoop(env, w, i) == PingLoop(env, w1, i)
                && NumPingable(w1.flows, w1.order, i) < NumPingable(w.flows, w.order, i)
  {
    hide TryPing;
    var found := FirstPingable(w.flows, w.order, i);
    if found.Some? {
      var w1 := TryPing(env, w, i, found.value);
      if w1.flows[found.value].state == Failed {
        FewerPingable(w.flows, w.order, i, found.value, w1.flows[found.value]);
        assert w1.flows == w.flows[found.value := w1.flows[found.value]];
      }
    }
  }

  lemma {:induction false} PingLoopKeeps(env: Env, w: World, i: nat)
    requires Inv(w) && i < |w.servers| && w.servers[i].state == Ping
    ensures StepOk(w, PingLoop(env, w, i), i)
    decreases NumPingable(w.flows, w.order, i)
  {
    assert ServerOk(w, i);
    var found := FirstPingable(w.flows, w.order, i);
    if found.None? {
      var s := w.servers[i].(pingFlow := None, nextTimeout := 0, state := Ping);
      assert PingLoop(env, w, i) == w.(servers := w.servers[i := s]);
      SetServerStep(w, i, s, PingLoop(env, w, i));
    } else {
      var id := found.value;
      PingLoopUnfold(env, w, i);
      hide TryPing, PingLoop, FlowsOk, FlowsEvolved, Distinct;
      TryPingKeeps(env, w, i, id);
      var w1 := TryPing(env, w, i, id);
      StepKeepsInv(w, w1, i);
      if w1.flows[id].state != Failed {
        var s := w1.servers[i].(nextTimeout := w1.flows[id].timeout, state := WaitPingResp);
        FinishServer(w, w1, i, s, PingLoop(env, w, i));
      } else {
        PingLoopKeeps(env, w1, i);
        StepsCompose(w, w1, PingLoop(env, w1, i), i);
      }
    }
  }

  lemma ServerPingKeeps(env: Env, w: World, i: nat)
    requires Inv(w) && i < |w.servers| && w.servers[i].state == Ping
    ensures StepOk(w, ServerPing(env, w, i), i)
  {
    assert ServerOk(w, i);
    var w1 := SetServer(w, i, w.servers[i].(pingCount := 0));
    SetServerStep(w, i, w1.servers[i], w1);
    StepKeepsInv(w, w1, i);
    PingLoopKeeps(env, w1, i);
    StepsCompose(w, w1, PingLoop(env, w1, i), i);
  }

  lemma TimeoutIsAdmissible(w: World, id: nat)
    requires Inv(w) && id < |w.flows|
    ensures Admissible(w.flows[id], FlowTimedOut)
  {
    assert FlowOk(w.flows[id]);
  }

  lemma WaitPingTimeoutKeeps(env: Env, w: World, i: nat)
    requires Inv(w) && Wf(w) && i < |w.servers| && w.servers[i].state == WaitPingResp
    ensures StepOk(w, WaitPingTimeout(env, w, i), i)
  {
    assert ServerOk(w, i);
    hide FlowEventAt, Inv, FlowsOk, FlowsEvolved, Distinct, Admissible;
    var s := w.servers[i].(pingCount := w.servers[i].pingCount + 1);
    var w1 := SetServer(w, i, s);
    SetServerStep(w, i, s, w1);
    var w' := WaitPingTimeout(env, w, i);
    if s.pingCount >= PCP_MAX_PING_COUNT || s.pingFlow.None? {
      SetServerStep(w, i, w'.servers[i], w');
    } else {
      var id := s.pingFlow.value;
      StepKeepsInv(w, w1, i);
      TimeoutIsAdmissible(w1, id);
      EventStep(env, w1, w1, i, id, FlowTimedOut, None);
      var w2 := FlowEventAt(env, w1, id, FlowTimedOut, None);
      StepsCompose(w, w1, w2, i);
      FinishServer(w, w2, i, w'.servers[i], w');
    }
  }

  // ----- received messages -----------------------------------------------------------

  /** The flow a message was matched to, if any, is one of the server's and has its credit. */
  ghost predicate FoundOk(w: World, i: nat, msg: Msg, found: Option<nat>) {
    found.None? || (Owned(w, i, found.value)
                    && w.flows[found.value].hist.matched
                    && (msg.result == RES_SUCCESS ==> w.flows[found.value].hist.succeeded))
  }

  lemma ProcessReceivedKeeps(env: Env, w: World, i: nat, msg: Msg)
    requires Inv(w) && Wf(w) && i < |w.servers|
    ensures var (w', found) := ProcessReceived(env, w, i, msg);
            && StepOk(w, w', i)
            && w'.order == w.order && |w'.flows| == |w.flows|
            && w'.servers == w.servers[i := w.servers[i].(natpmpExt := w'.servers[i].natpmpExt)]
            && FoundOk(w', i, msg, found)
  {
    assert ServerOk(w, i);
    hide FlowEventAt;
    var (found, msg', ext) := Match(w, i, msg);
    var s := w.servers[i].(natpmpExt := ext);
    var w1 := SetServer(w, i, s);
    SetServerStep(w, i, s, w1);
    StepKeepsInv(w, w1, i);
    if found.Some? {
      var id := found.value;
      assert Owned(w, i, id);
      var f := w1.flows[id];
      var w2 := SetFlow(w1, id, Matched(f, msg.result));
      assert FlowOk(f);
      EventStep(env, w1, w2, i, id, Result(msg.result), Some(msg'));
      var w3 := FlowEventAt(env, w2, id, Result(msg.result), Some(msg'));
      StepsCompose(w, w1, w3, i);
      EventKeepsHistory(env, w2, id, Result(msg.result), Some(msg'));
    }
  }

  lemma EventKeepsHistory(env: Env, w: World, id: nat, e: FlowEvent, msg: Option<Msg>)
    requires id < |w.flows| && EventOk(e, msg)
    ensures var w' := FlowEventAt(env, w, id, e, msg);
            && w'.flows[id].hist.matched == w.flows[id].hist.matched
            && w'.flows[id].hist.succeeded == w.flows[id].hist.succeeded
            && w'.flows[id].server == w.flows[id].server
  {
    hide RunFlow;
    ChainFrame(env, w.calls, w.flows[id], LinkOf(w, id), e, msg);
  }

  lemma MarkedKept(w: World, w1: World, msg: Msg, found: Option<nat>, w': World)
    requires FlowsEvolved(w, w1) && Arranged(w1.flows, w1.order) && RefOk(found, |w1.flows|)
    requires w'.flows == MarkSpared(w1, msg, found).flows && w'.order == w1.order
    ensures FlowsEvolved(w, w') && FlowsEvolved(w1, w') && Arranged(w'.flows, w'.order)
  {
    hide Arranged;
    ArrangedKept(w1, w');
  }

  lemma MarkedFlowsOk(w1: World, i: nat, msg: Msg, found: Option<nat>, w': World)
    requires FlowsOk(w1) && i < |w1.servers| == |w'.servers| && FoundOk(w1, i, msg, found)
    requires RefOk(found, |w1.flows|)
    requires w'.flows == MarkSpared(w1, msg, found).flows && w'.order == w1.order
    requires forall j :: 0 <= j < |w1.servers| && j != i ==> w'.servers[j] == w1.servers[j]
    requires w'.servers[i].restartFlow == found
    ensures FlowsOk(w')
  {
    forall j | 0 <= j < |w'.servers| && w'.servers[j].restartFlow.Some?
      ensures w'.servers[j].restartFlow.value < |w'.flows|
      ensures Credited(w'.flows[w'.servers[j].restartFlow.value])
    {
      if j != i {
        assert w'.servers[j] == w1.servers[j];
      }
    }
  }

  lemma BeginRestartKeeps(env: Env, w: World, w1: World, i: nat, msg: Msg, found: Option<nat>)
    requires Inv(w) && i < |w.servers| && StepOk(w, w1, i)
    requires VersionOk(w1.servers[i].(state := ServerRestart))
    requires FoundOk(w1, i, msg, found)
    ensures RefOk(found, |w1.flows|)
    ensures StepOk(w, BeginRestart(env, w1, i, msg, found), i)
  {
    hide Arranged, FlowsEvolved, FlowsOk, Inv, Distinct;
    var w' := BeginRestart(env, w1, i, msg, found);
    MarkedKept(w, w1, msg, found, w');
    MarkedFlowsOk(w1, i, msg, found, w');
    MarkedOwned(w1, msg, found);
  }

  lemma MarkedOwned(w1: World, msg: Msg, found: Option<nat>)
    requires RefOk(found, |w1.flows|)
    ensures forall id :: 0 <= id < |w1.flows| ==> MarkSpared(w1, msg, found).flows[id].server == w1.flows[id].server
  {
  }

  lemma ReceiveMsgKeeps(env: Env, w: World, i: nat, msg: Msg)
    requires Inv(w) && Wf(w) && i < |w.servers|
    requires w.servers[i].state == WaitIo || w.servers[i].state == WaitPingResp
    requires msg.version <= PCP_MAX_SUPPORTED_VERSION
    ensures var w' := ReceiveMsg(env, w, i, msg);
            StepOk(w, w', i)
            && w'.servers[i].state in {VersionNegotiation, SetNotWorking, ServerRestart, WaitIoCalcNearestTimeout}
  {
    assert ServerOk(w, i);
    var w' := ReceiveMsg(env, w, i, msg);
    if msg.result == RES_UNSUPP_VERSION || msg.result == RES_ADDRESS_MISMATCH {
      SetServerStep(w, i, w'.servers[i], w');
    } else {
      hide ReceiveMsg;
      ReceiveRest(env, w, i, msg);
    }
  }

  lemma ReceiveRest(env: Env, w: World, i: nat, msg: Msg)
    requires Inv(w) && Wf(w) && i < |w.servers|
    requires w.servers[i].state == WaitIo || w.servers[i].state == WaitPingResp
    requires msg.result != RES_UNSUPP_VERSION && msg.result != RES_ADDRESS_MISMATCH
    ensures var w' := ReceiveMsg(env, w, i, msg);
            StepOk(w, w', i) && (w'.servers[i].state == ServerRestart || w'.servers[i].state == WaitIoCalcNearestTimeout)
  {
    hide ProcessReceived, Restarted, Learn, FlowsOk, FlowsEvolved, Distinct;
    ProcessReceivedKeeps(env, w, i, msg);
    var w' := ReceiveMsg(env, w, i, msg);
    var (w1, found) := ProcessReceived(env, w, i, msg);
    if w'.servers[i].state == ServerRestart {
      BeginRestartKeeps(env, w, w1, i, msg, found);
    } else {
      FinishServer(w, w1, i, w'.servers[i], w');
    }
  }

  lemma WaitPingRecvKeeps(env: Env, w: World, i: nat, msg: Msg)
    requires Inv(w) && Wf(w) && i < |w.servers| && w.servers[i].state == WaitPingResp
    requires msg.version <= PCP_MAX_SUPPORTED_VERSION
    ensures var w' := WaitPingRecv(env, w, i, msg);
            StepOk(w, w', i) && w'.servers[i].state in {VersionNegotiation, SetNotWorking, ServerRestart, SendAllMsgs}
  {
    hide ReceiveMsg;
    ReceiveMsgKeeps(env, w, i, msg);
    var w1 := ReceiveMsg(env, w, i, msg);
    var w' := WaitPingRecv(env, w, i, msg);
    if w1.servers[i].state == WaitIoCalcNearestTimeout {
      FinishServer(w, w1, i, w'.servers[i], w');
    }
  }

  lemma HandleNotWorkingKeeps(env: Env, w: World, i: nat, msg: Msg)
    requires Inv(w) && Wf(w) && i < |w.servers| && w.servers[i].state == NotWorking
    ensures StepOk(w, HandleNotWorking(env, w, i, msg), i)
  {
    assert ServerOk(w, i);
    var w' := HandleNotWorking(env, w, i, msg);
    var w0 := Looked(w);
    SetServerStep(w, i, w.servers[i], w0);
    if Now(env, w) < w.servers[i].nextTimeout
       && msg.result != RES_UNSUPP_VERSION && msg.result != RES_ADDRESS_MISMATCH {
      StepKeepsInv(w, w0, i);
      InvIsWf(w0);
      hide ProcessReceived;
      ProcessReceivedKeeps(env, w0, i, msg);
      var (w1, found) := ProcessReceived(env, w0, i, msg);
      StepsCompose(w, w0, w1, i);
      BeginRestartKeeps(env, w, w1, i, msg, found);
    } else {
      SetServerStep(w, i, w'.servers[i], w');
    }
  }

  // ----- version negotiation ---------------------------------------------------------

  lemma {:induction false} InsertDistinct(flows: seq<Flow>, ids: seq<nat>, id: nat, b: nat)
    requires InRange(ids, |flows|) && Distinct(ids) && id !in ids
    ensures Distinct(InsertByBucket(flows, ids, id, b))
    decreases |ids|
  {
    hide Bucket;
    if ids != [] {
      assert forall x :: x in ids[1..] ==> x in ids;
      InsertDistinct(flows, ids[1..], id, b);
      var rest := InsertByBucket(flows, ids[1..], id, b);
      assert ids[0] !in ids[1..];
      assert forall j :: 0 <= j < |rest| ==> rest[j] in rest;
    }
  }

  /** The place of a new flow in the walk is behind the flows whose chain is not a later one. */
  lemma {:induction false} InsertSplits(flows: seq<Flow>, ids: seq<nat>, id: nat, b: nat, k: nat)
    requires InRange(ids, |flows|) && k <= |ids|
    requires forall j :: 0 <= j < k ==> Bucket(flows[ids[j]].key) <= b
    requires k < |ids| ==> Bucket(flows[ids[k]].key) > b
    ensures InsertByBucket(flows, ids, id, b) == ids[..k] + [id] + ids[k..]
    decreases |ids|
  {
    hide Bucket;
    if k > 0 {
      InsertSplits(flows, ids[1..], id, b, k - 1);
      assert ids[..k] == [ids[0]] + ids[1..][..k - 1] && ids[k..] == ids[1..][k - 1..];
    }
  }

  /** In an ordered walk the flows behind the first of a later chain are all of later chains. */
  lemma {:induction false} LaterChains(flows: seq<Flow>, ids: seq<nat>, b: nat) returns (k: nat)
    requires InRange(ids, |flows|) && Ordered(flows, ids)
    ensures k <= |ids|
    ensures forall j :: 0 <= j < k ==> Bucket(flows[ids[j]].key) <= b
    ensures forall j :: k <= j < |ids| ==> Bucket(flows[ids[j]].key) > b
    decreases |ids|
  {
    hide Bucket;
    if ids == [] || Bucket(flows[ids[0]].key) > b {
      k := 0;
      forall j | 0 <= j < |ids|
        ensures Bucket(flows[ids[j]].key) > b
      {
        assert j > 0 ==> Precedes(flows, ids[0], ids[j]);
      }
    } else {
      k := LaterChains(flows, ids[1..], b);
      k := k + 1;
      assert forall j :: 0 < j < |ids| ==> ids[j] == ids[1..][j - 1];
    }
  }

  /** A flow is registered behind all flows of its own and of earlier chains, and before all of
      later ones. */
  lemma RegisterPlace(w: World, f: Flow) returns (k: nat)
    requires Inv(w)
    ensures k <= |w.order| && InRange(w.order, |w.flows|)
    ensures Register(w, f).order == w.order[..k] + [|w.flows|] + w.order[k..]
    ensures forall j :: 0 <= j < k ==> Bucket(w.flows[w.order[j]].key) <= Bucket(f.key)
    ensures forall j :: k <= j < |w.order| ==> Bucket(w.flows[w.order[j]].key) > Bucket(f.key)
  {
    hide Bucket;
    k := LaterChains(w.flows, w.order, Bucket(f.key));
    InsertSplits(w.flows, w.order, |w.flows|, Bucket(f.key), k);
  }

  lemma RegisterArranged(w: World, f: Flow)
    requires Inv(w) && f.nextChild == None
    ensures Arranged(Register(w, f).flows, Register(w, f).order)
  {
    hide Bucket;
    var k := RegisterPlace(w, f);
    var n, w' := |w.flows|, Register(w, f);
    assert forall x :: 0 <= x < n ==> w'.flows[x] == w.flows[x];
    hide Register;
    forall a, b | 0 <= a < b < |w'.order|
      ensures Precedes(w'.flows, w'.order[a], w'.order[b])
    {
      var a', b' := if a < k then a else a - 1, if b < k then b else b - 1;
      assert a != k ==> w'.order[a] == w.order[a'] && w.order[a'] < n;
      assert b != k ==> w'.order[b] == w.order[b'] && w.order[b'] < n;
      if a != k && b != k {
        assert Precedes(w.flows, w.order[a'], w.order[b']);
      }
    }
  }

  /** Registering a flow that is fit to be one. */
  lemma RegisterKeeps(w: World, f: Flow)
    requires Inv(w) && FlowOk(f) && f.nextChild == None
    ensures var w' := Register(w, f);
            && FlowsOk(w') && FlowsEvolved(w, w') && Distinct(w'.order) && Arranged(w'.flows, w'.order)
            && (forall x :: x in w.order ==> x in w'.order)
            && w'.servers == w.servers
            && |w'.flows| == |w.flows| + 1 && w'.flows[|w.flows|] == f && |w.flows| in w'.order
  {
    hide Bucket;
    var n, w' := |w.flows|, Register(w, f);
    assert n !in w.order;
    InsertDistinct(w.flows, w.order, n, Bucket(f.key));
    RegisterArranged(w, f);
    hide Arranged;
    forall j | 0 <= j < |w'.order|
      ensures w'.order[j] < |w'.flows|
    {
      assert w'.order[j] in w'.order;
    }
    forall j | 0 <= j < |w'.servers| && w'.servers[j].restartFlow.Some?
      ensures w'.servers[j].restartFlow.value < |w'.flows|
      ensures Credited(w'.flows[w'.servers[j].restartFlow.value])
    {
      assert w'.servers[j].restartFlow == w.servers[j].restartFlow;
    }
  }

  /** The flow that was pinging goes back to waiting for its server. */
  lemma ParkPingFlow(w: World, i: nat, w1: World)
    requires Inv(w) && Wf(w) && i < |w.servers|
    requires var p := w.servers[i].pingFlow;
             w1 == if p.Some? then SetFlow(w, p.value, w.flows[p.value].(state := WaitForServerInit, timeout := 0))
                   else w
    ensures Inv(w1) && StepOk(w, w1, i)
  {
    assert ServerOk(w, i);
    ArrangedKept(w, w1);
    hide Arranged;
    forall j | 0 <= j < |w1.servers|
      ensures ServerOk(w1, j)
    {
      assert ServerOk(w, j);
    }
  }

  lemma RegisteredStep(w: World, w1: World, w2: World, i: nat)
    requires Inv(w) && Inv(w1) && StepOk(w, w1, i)
    requires FlowsOk(w2) && FlowsEvolved(w1, w2) && Distinct(w2.order) && Arranged(w2.flows, w2.order)
    requires (forall x :: x in w1.order ==> x in w2.order) && w2.servers == w1.servers
    ensures StepOk(w, w2, i)
  {
    assert ServerOk(w1, i);
    assert StepOk(w1, w2, i);
    StepsCompose(w, w1, w2, i);
  }

  lemma StartNatPmpKeeps(w: World, i: nat)
    requires Inv(w) && Wf(w) && i < |w.servers|
    ensures StepOk(w, StartNatPmp(w, i), i)
    ensures StartNatPmp(w, i).servers[i] == w.servers[i].(pingFlow := Some(|w.flows|))
  {
    assert ServerOk(w, i);
    hide Register, InsertByBucket;
    var p := w.servers[i].pingFlow;
    var w1 := if p.Some? then SetFlow(w, p.value, w.flows[p.value].(state := WaitForServerInit, timeout := 0)) else w;
    ParkPingFlow(w, i, w1);
    hide FlowsOk, FlowsEvolved, ServerOk, Distinct;
    var f := AnnounceFlow(w1, i);
    assert FlowOk(f);
    RegisterKeeps(w1, f);
    var w2 := Register(w1, f);
    RegisteredStep(w, w1, w2, i);
    StepKeepsInv(w, w2, i);
    PingRefStep(w2, i, |w.flows|);
    StepsCompose(w, w2, StartNatPmp(w, i), i);
  }

  lemma NegotiatePingKeeps(env: Env, w: World, i: nat, id: nat)
    requires Inv(w) && i < |w.servers| && id < |w.flows|
    requires w.servers[i].state == VersionNegotiation
    ensures StepOk(w, NegotiatePing(env, w, i, id), i)
  {
    assert ServerOk(w, i);
    hide FlowEventAt;
    var w1 := SetFlow(w, id, ResetRetry(w.flows[id]).(resend := 0));
    assert FlowOk(w.flows[id]);
    EventStep(env, w, w1, i, id, DoSend, None);
    var w' := NegotiatePing(env, w, i, id);
    FinishServer(w, FlowEventAt(env, w1, id, DoSend, None), i, w'.servers[i], w');
  }

  lemma NegotiateKeeps(env: Env, w: World, i: nat)
    requires Inv(w) && Wf(w) && i < |w.servers| && w.servers[i].state == VersionNegotiation
    ensures StepOk(w, Negotiate(env, w, i), i)
  {
    assert ServerOk(w, i);
    var s := w.servers[i];
    if s.version == 0 {
      var s' := s.(nextVersion := NextVersion(s), state := SetNotWorking);
      SetServerStep(w, i, s', Negotiate(env, w, i));
    } else {
      hide StartNatPmp, NegotiatePing;
      var w1 := SetServer(w, i, AdoptVersion(s));
      SetServerStep(w, i, w1.servers[i], w1);
      StepKeepsInv(w, w1, i);
      InvIsWf(w1);
      var w2 := if NextVersion(s) == 0 then StartNatPmp(w1, i) else w1;
      if NextVersion(s) == 0 {
        StartNatPmpKeeps(w1, i);
        StepsCompose(w, w1, w2, i);
      }
      StepKeepsInv(w, w2, i);
      if w2.servers[i].pingFlow.Some? {
        NegotiateKnown(env, w, w2, i);
      } else {
        NegotiateSearch(env, w, w2, i);
      }
    }
  }

  /** The rest of a negotiation with the ping flow there is ... */
  lemma NegotiateKnown(env: Env, w: World, w2: World, i: nat)
    requires Inv(w) && i < |w.servers| && StepOk(w, w2, i) && Inv(w2)
    requires w2.servers[i].state == VersionNegotiation && w2.servers[i].pingFlow.Some?
    ensures RefOk(w2.servers[i].pingFlow, |w2.flows|)
    ensures StepOk(w, NegotiatePing(env, w2, i, w2.servers[i].pingFlow.value), i)
  {
    assert ServerOk(w2, i);
    var id := w2.servers[i].pingFlow.value;
    hide NegotiatePing, FlowsOk, FlowsEvolved, Distinct, ServerOk;
    NegotiatePingKeeps(env, w2, i, id);
    StepsCompose(w, w2, NegotiatePing(env, w2, i, id), i);
  }

  /** ... and with one that has to be found. */
  lemma NegotiateSearch(env: Env, w: World, w2: World, i: nat)
    requires Inv(w) && i < |w.servers| && StepOk(w, w2, i) && Inv(w2)
    requires w2.servers[i].state == VersionNegotiation
    ensures var found := FirstPingable(w2.flows, w2.order, i);
            var w3 := SetServer(w2, i, w2.servers[i].(pingFlow := found));
            && (found.None? ==> StepOk(w, GoUntimed(w3, i, Ping), i))
            && (found.Some? ==> StepOk(w, NegotiatePing(env, w3, i, found.value), i))
  {
    assert ServerOk(w2, i);
    var found := FirstPingable(w2.flows, w2.order, i);
    var w3 := SetServer(w2, i, w2.servers[i].(pingFlow := found));
    assert found.Some? ==> Owned(w2, i, found.value);
    hide NegotiatePing, FlowsOk, FlowsEvolved, Distinct, FirstPingable;
    if found.None? {
      var w' := GoUntimed(w3, i, Ping);
      SetServerStep(w2, i, w'.servers[i], w');
      StepsCompose(w, w2, w', i);
    } else {
      PingRefStep(w2, i, found.value);
      StepKeepsInv(w2, w3, i);
      StepsCompose(w, w2, w3, i);
      NegotiatePingKeeps(env, w3, i, found.value);
      StepsCompose(w, w3, NegotiatePing(env, w3, i, found.value), i);
    }
  }

  // ----- walks over all flows --------------------------------------------------------

  lemma SendEventsStep(env: Env, w: World, i: nat, e: FlowEvent)
    requires Inv(w) && i < |w.servers| && Broadcast(e)
    ensures var w' := SendEvents(env, w, i, w.order, e);
            && StepOk(w, w', i)
            && w'.servers[i] == w.servers[i].(nextTimeout := w'.servers[i].nextTimeout)
  {
    hide SendEvents;
    SendEventsKeeps(env, w, i, w.order, e);
    FlowStepIsStep(w, SendEvents(env, w, i, w.order, e), i);
  }

  lemma SendAllKeeps(env: Env, w: World, i: nat)
    requires Inv(w) && i < |w.servers| && w.servers[i].state == SendAllMsgs
    ensures StepOk(w, SendAll(env, w, i), i)
  {
    assert ServerOk(w, i);
    hide SendEvents;
    SendEventsStep(env, w, i, ServerInitialized);
    var w' := SendAll(env, w, i);
    FinishServer(w, SendEvents(env, w, i, w.order, ServerInitialized), i, w'.servers[i], w');
  }

  lemma HandleRestartKeeps(env: Env, w: World, i: nat)
    requires Inv(w) && i < |w.servers| && w.servers[i].state == ServerRestart
    ensures StepOk(w, HandleRestart(env, w, i), i)
  {
    assert ServerOk(w, i);
    hide SendEvents;
    SendEventsStep(env, w, i, ServerRestarted);
    var w' := HandleRestart(env, w, i);
    FinishServer(w, SendEvents(env, w, i, w.order, ServerRestarted), i, w'.servers[i], w');
  }

  lemma FailAllKeeps(env: Env, w: World, i: nat)
    requires Inv(w) && i < |w.servers| && w.servers[i].state == SetNotWorking
    ensures StepOk(w, FailAll(env, w, i), i)
  {
    assert ServerOk(w, i);
    hide SendEvents;
    SendEventsStep(env, w, i, SendFailed);
    var w' := FailAll(env, w, i);
    FinishServer(w, SendEvents(env, w, i, w.order, SendFailed), i, w'.servers[i], w');
  }

  lemma CheckAllStep(env: Env, w: World, i: nat)
    requires Inv(w) && i < |w.servers|
    requires w.servers[i].state == WaitIo || w.servers[i].state == WaitIoCalcNearestTimeout
    ensures var w1 := CheckAll(env, SetServer(w, i, w.servers[i].(nextTimeout := 0)), w.order, 0).0;
            StepOk(w, w1, i) && w1.servers[i] == w.servers[i].(nextTimeout := 0)
  {
    assert ServerOk(w, i);
    hide CheckAll;
    var w0 := SetServer(w, i, w.servers[i].(nextTimeout := 0));
    SetServerStep(w, i, w0.servers[i], w0);
    StepKeepsInv(w, w0, i);
    CheckAllKeeps(env, w0, w.order, 0);
    var w1 := CheckAll(env, w0, w.order, 0).0;
    FlowStepIsStep(w0, w1, i);
    StepsCompose(w, w0, w1, i);
  }

  lemma WaitIoTimeoutKeeps(env: Env, w: World, i: nat)
    requires Inv(w) && i < |w.servers|
    requires w.servers[i].state == WaitIo || w.servers[i].state == WaitIoCalcNearestTimeout
    ensures StepOk(w, WaitIoTimeout(env, w, i), i)
  {
    assert ServerOk(w, i);
    CheckAllStep(env, w, i);
    hide CheckAll, FlowsOk, FlowsEvolved, Distinct;
    var w1 := CheckAll(env, SetServer(w, i, w.servers[i].(nextTimeout := 0)), w.order, 0).0;
    var w' := WaitIoTimeout(env, w, i);
    FinishServer(w, w1, i, w'.servers[i], w');
  }

  // ----- the step --------------------------------------------------------------------

  lemma RestKeeps(env: Env, w: World, i: nat, h: ServerHandler, w': World)
    requires Inv(w) && i < |w.servers|
    requires || (h == HTerminate && w' == GoUntimed(w, i, Allocated) && w.servers[i].restartFlow == None)
             || (h == HReping && w' == Reping(env, w, i) && w.servers[i].state == ServerReping)
             || (h == HIgnore && w' == GoUntimed(w, i, w.servers[i].state) && w.servers[i].state == Allocated)
    ensures StepOk(w, w', i)
  {
    assert ServerOk(w, i);
    SetServerStep(w, i, w'.servers[i], w');
  }

  /** One run of the server state machine keeps the invariant: for every state, event and
      message, every clock, every outcome of every send and every random value. A server
      is terminated only while no restart is being handled. */
  lemma RunServerKeeps(env: Env, w: World, i: nat, e: ServerEvent, msg: Msg)
    requires Inv(w) && Wf(w) && i < |w.servers|
    requires msg.version <= PCP_MAX_SUPPORTED_VERSION
    requires e == Terminate ==> w.servers[i].state != ServerRestart
    ensures StepOk(w, RunServer(env, w, i, e, msg), i)
    ensures Inv(RunServer(env, w, i, e, msg))
  {
    assert ServerOk(w, i);
    hide ServerPing, WaitPingTimeout, WaitPingRecv, Negotiate, SendAll, ReceiveMsg;
    hide WaitIoTimeout, HandleRestart, FailAll, HandleNotWorking, Reping, GoUntimed;
    hide StepOk, FlowsOk, Distinct, Wf;
    var h := ServerHandlerFor(w.servers[i].state, e);
    var w' := RunServer(env, w, i, e, msg);
    match h {
      case HPing => ServerPingKeeps(env, w, i);
      case HWaitPingTimeout => WaitPingTimeoutKeeps(env, w, i);
      case HWaitPingRecv => WaitPingRecvKeeps(env, w, i, msg);
      case HNegotiate => NegotiateKeeps(env, w, i);
      case HSendAll => SendAllKeeps(env, w, i);
      case HReceive => ReceiveMsgKeeps(env, w, i, msg);
      case HWaitIoTimeout => WaitIoTimeoutKeeps(env, w, i);
      case HRestart => HandleRestartKeeps(env, w, i);
      case HSetNotWorking => FailAllKeeps(env, w, i);
      case HNotWorking => HandleNotWorkingKeeps(env, w, i, msg);
      case HTerminate => RestKeeps(env, w, i, h, w');
      case HReping => RestKeeps(env, w, i, h, w');
      case HIgnore => RestKeeps(env, w, i, h, w');
      case HUnexpected => assert false;
    }
    StepKeepsInv(w, w', i);
  }
}
