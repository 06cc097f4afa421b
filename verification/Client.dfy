/** The context as an object: the loops and updates of libpcp/src/pcp_event_handler.c and
    libpcp/src/pcp_api.c, each proved to do what the functions on contexts say. */
module Client {
  import opened Types
  import opened FlowMachine
  import opened EpochModel
  import opened FlowHash
  import opened ServerMachine
  import opened Invariant
  import opened Handlers
  import opened Recovery
  import opened Pump
  import opened Consequences
  import opened Pings
  import opened Incoming
  import opened Message
  import opened Response
  import opened Api
  import opened Runs

  class Context {
    /** The outside world: one entry for each look at the clock and each attempt to send. */
    const env: Env
    var flows: seq<Flow>
    var order: seq<nat>
    var servers: seq<Server>
    var calls: nat

    constructor (env: Env)
      ensures this.env == env && W() == EMPTY
    {
      this.env := env;
      flows, order, servers := [], [], [];
      calls := 0;
    }

    ghost function W(): World
      reads this
    {
      World(flows, order, servers, calls)
    }

    // ----- flows ---------------------------------------------------------------------

    method GetTime() returns (now: int)
      modifies this`calls
      ensures now == Now(env, old(W())) && W() == Looked(old(W()))
    {
      now := env(calls).now;
      calls := calls + 1;
    }

    method FindEventRow(s: FlowState, e: FlowEvent) returns (r: Option<FlowState>)
      ensures r == NextState(s, e)
    {
      var i := 0;
      while i < EVENT_ROWS && !EventMatches(i, s, e)
        invariant 0 <= i <= EVENT_ROWS
        invariant forall j: nat :: j < i ==> !EventMatches(j, s, e)
      {
        i := i + 1;
      }
      EventTableFirstMatch(s, e, i);
      r := if i < EVENT_ROWS then Some(EventTable(i).next) else None;
    }

    method FindTransRow(from: FlowState, to: FlowState) returns (r: Option<Handler>)
      ensures r == HandlerFor(from, to)
    {
      var i := 0;
      while i < TRANS_ROWS && !TransMatches(i, from, to)
        invariant 0 <= i <= TRANS_ROWS
        invariant forall j: nat :: j < i ==> !TransMatches(j, from, to)
      {
        i := i + 1;
      }
      TransTableFirstMatch(from, to, i);
      r := if i < TRANS_ROWS then Some(TransTable(i).handler) else None;
    }

    /** handle_flow_event: table lookups and handlers until no further event comes back. At most four
        handlers run, a flow that took a transition rests, its identity stays, and a success is stored. */
    method HandleFlowEvent(id: nat, e: FlowEvent, msg: Option<Msg>) returns (state: FlowState)
      requires id < |flows| && EventOk(e, msg)
      modifies this`flows, this`calls
      ensures W() == FlowEventAt(env, old(W()), id, e, msg) && state == flows[id].state
      ensures calls <= old(calls) + 4 && SameIdentity(old(flows)[id], flows[id])
      ensures if NextState(old(flows)[id].state, e).Some? then Resting(state) else flows == old(flows)
      ensures e == Result(RES_SUCCESS) && old(flows)[id].state in {WaitResp, WaitForLifetimeRenew} ==>
                state == WaitForLifetimeRenew && Stored(flows[id], msg.value)
    {
      hide Handle, NextState, HandlerFor, RunFlow, Rank, SameIdentity, Stored, Resting;
      EventFacts(env, W(), id, e, msg);
      var link := LinkOf(World(flows, order, servers, calls), id);
      ghost var f0, k0 := flows[id], calls;
      var f, ev := flows[id], e;
      while true
        invariant EventOk(ev, msg) && flows == old(flows)
        invariant RunFlow(env, calls, f, link, ev, msg) == RunFlow(env, k0, f0, link, e, msg)
        decreases Rank(f.state, ev)
      {
        RunFlowUnfold(env, calls, f, link, ev, msg);
        var next := FindEventRow(f.state, ev);
        if next.None? {
          break;
        }
        var handler := FindTransRow(f.state, next.value);
        f := f.(state := next.value);
        if handler.None? {
          flows := flows[id := f];
          return f.state;
        }
        var (f1, e1) := Handle(handler.value, f, link, msg, env(calls));
        f := f1;
        calls := calls + 1;
        if e1 == NoEvent {
          flows := flows[id := f];
          return f.state;
        }
        ev := e1;
      }
      flows := flows[id := f];
      state := f.state;
    }

    /** check_flow_timeout: no other flow is touched, the flow stays sound, and with the clock held
        still the running minimum is brought up to date with the timer that the flow now has. */
    method CheckTimeout(id: nat, tout: int) returns (r: int)
      requires id < |flows|
      modifies this`flows, this`calls
      ensures (W(), r) == CheckFlowTimeout(env, old(W()), id, tout)
      ensures |flows| == |old(flows)| && forall j :: 0 <= j < |flows| && j != id ==> flows[j] == old(flows)[j]
      ensures FlowsOk(old(W())) ==> FlowsOk(W()) && FlowStep(old(W()), W())
      ensures forall t :: Still(env, t) && tout >= 0 ==> r == Folded(flows[id], tout, t)
    {
      hide RunFlow, FlowsOk, FlowsEvolved, Folded;
      ghost var w := W();
      if FlowsOk(w) {
        CheckFlowTimeoutKeeps(env, w, id, tout);
      }
      forall t | Still(env, t) && tout >= 0
        ensures var (w', r') := CheckFlowTimeout(env, w, id, tout);
                r' == Folded(w'.flows[id], tout, t)
      {
        CheckOneStill(env, w, id, tout, t);
      }
      if flows[id].timeout == 0 {
        return tout;
      }
      var now := GetTime();
      if flows[id].timeout <= now {
        var _ := HandleFlowEvent(id, FlowTimedOut, None);
      }
      if flows[id].timeout == 0 {
        return tout;
      }
      var left := if flows[id].timeout <= now then 0 else flows[id].timeout - now;
      r := if tout == 0 || left < tout then left else tout;
    }

    /** flow_send_event_iter */
    method SendEventOne(i: nat, id: nat, e: FlowEvent)
      requires i < |servers| && id < |flows| && EventOk(e, None)
      modifies this`flows, this`calls, this`servers
      ensures W() == SendEventTo(env, old(W()), i, id, e)
    {
      hide RunFlow, CheckFlowTimeout, FlowEventAt;
      if flows[id].server == i {
        ghost var w := W();
        var _ := HandleFlowEvent(id, e, None);
        EventFrame(env, w, id, e, None);
        var tout := CheckTimeout(id, servers[i].nextTimeout);
        servers := servers[i := servers[i].(nextTimeout := tout)];
      }
    }

    /** The walk with it over all flows. */
    method SendEventToAll(i: nat, e: FlowEvent)
      requires i < |servers| && InRange(order, |flows|) && EventOk(e, None)
      modifies this`flows, this`calls, this`servers
      ensures W() == SendEvents(env, old(W()), i, old(order), e)
    {
      hide SendEventTo;
      var k := 0;
      assert order[0..] == order;
      while k < |order|
        invariant 0 <= k <= |order| && i < |servers| && InRange(order, |flows|)
        invariant SendEvents(env, W(), i, order[k..], e) == SendEvents(env, old(W()), i, order, e)
      {
        assert order[k..][1..] == order[k + 1..];
        SendEventOne(i, order[k], e);
        k := k + 1;
      }
    }

    /** handle_wait_io_timeout */
    method HandleWaitIoTimeout(i: nat)
      requires i < |servers| && InRange(order, |flows|)
      modifies this`flows, this`calls, this`servers
      ensures W() == WaitIoTimeout(env, old(W()), i)
    {
      hide CheckFlowTimeout;
      servers := servers[i := servers[i].(nextTimeout := 0)];
      ghost var w0 := W();
      var tout, k := 0, 0;
      assert order[0..] == order;
      while k < |order|
        invariant 0 <= k <= |order| && InRange(order, |flows|)
        invariant order == old(order) && servers == w0.servers
        invariant CheckAll(env, W(), order[k..], tout) == CheckAll(env, w0, order, 0)
      {
        ghost var w := W();
        assert order[k..][1..] == order[k + 1..];
        tout := CheckTimeout(order[k], tout);
        k := k + 1;
      }
      if tout != 0 {
        var now := GetTime();
        servers := servers[i := servers[i].(nextTimeout := now + tout, state := WaitIo)];
      } else {
        servers := servers[i := servers[i].(nextTimeout := 0, state := WaitIo)];
      }
    }

    // ----- ping ----------------------------------------------------------------------

    /** get_ping_msg */
    method GetPingMsg(i: nat) returns (r: Option<nat>)
      requires i < |servers| && InRange(order, |flows|)
      modifies this`servers
      ensures r == FirstPingable(flows, order, i)
      ensures W() == SetServer(old(W()), i, old(servers)[i].(pingFlow := r))
    {
      hide FirstPingable, Pingable;
      var k := 0;
      assert order[0..] == order;
      FirstPingableStep(flows, order, i);
      while k < |order| && !Pingable(flows[order[k]], i)
        invariant 0 <= k <= |order|
        invariant FirstPingable(flows, order[k..], i) == FirstPingable(flows, order, i)
        modifies {}
      {
        FirstPingableStep(flows, order[k..], i);
        assert order[k..][1..] == order[k + 1..];
        k := k + 1;
      }
      FirstPingableStep(flows, order[k..], i);
      r := if k < |order| then Some(order[k]) else None;
      servers := servers[i := servers[i].(pingFlow := r)];
    }

    /** One round of the loop of handle_server_ping. */
    method PingOnce(i: nat) returns (found: Option<nat>)
      requires i < |servers| && InRange(order, |flows|)
      modifies this`flows, this`calls, this`servers
      ensures found == FirstPingable(old(flows), order, i)
      ensures W() == if found.None? then SetServer(old(W()), i, old(servers)[i].(pingFlow := None))
                     else TryPing(env, old(W()), i, found.value)
    {
      hide FlowEventAt, FirstPingable;
      found := GetPingMsg(i);
      if found.Some? {
        flows := flows[found.value := ResetRetry(flows[found.value])];
        var _ := HandleFlowEvent(found.value, DoSend, None);
      }
    }

    /** handle_server_ping */
    method HandleServerPing(i: nat)
      requires i < |servers| && InRange(order, |flows|)
      modifies this`flows, this`calls, this`servers
      ensures W() == ServerPing(env, old(W()), i)
    {
      hide TryPing, FirstPingable, PingLoop;
      servers := servers[i := servers[i].(pingCount := 0)];
      ghost var w0 := W();
      while true
        invariant i < |servers| && InRange(order, |flows|)
        invariant PingLoop(env, W(), i) == PingLoop(env, w0, i)
        decreases NumPingable(flows, order, i)
      {
        ghost var w := W();
        PingLoopUnfold(env, w, i);
        var found := PingOnce(i);
        if found.None? {
          servers := servers[i := servers[i].(nextTimeout := 0, state := Ping)];
          return;
        }
        if flows[found.value].state != Failed {
          servers := servers[i := servers[i].(nextTimeout := flows[found.value].timeout, state := WaitPingResp)];
          return;
        }
      }
    }

    // ----- the handlers without loops ------------------------------------------------

    method SetTimerNow(i: nat, state: ServerState)
      requires i < |servers|
      modifies this`calls, this`servers
      ensures W() == GoNow(env, old(W()), i, state)
    {
      var now := GetTime();
      servers := servers[i := servers[i].(nextTimeout := now, state := state)];
    }

    /** handle_wait_ping_resp_timeout: one more ping is counted, and at the limit the server is given
        up; below it the ping flow is sent again, and the server waits as long as the flow, or both have
        failed; the invariant is kept, and with the clock held still the server is nearer to rest. */
    method HandleWaitPingRespTimeout(i: nat)
      requires i < |servers| && RefOk(servers[i].pingFlow, |flows|)
      modifies this`flows, this`calls, this`servers
      ensures W() == WaitPingTimeout(env, old(W()), i)
      ensures PingTimedOut(env, old(W()), W(), i)
    {
      hide RunFlow, PingTimedOut;
      PingFacts(env, W(), i);
      servers := servers[i := servers[i].(pingCount := servers[i].pingCount + 1)];
      if servers[i].pingCount >= PCP_MAX_PING_COUNT {
        SetTimerNow(i, SetNotWorking);
        return;
      }
      if servers[i].pingFlow.None? {
        SetTimerNow(i, Ping);
        return;
      }
      var id := servers[i].pingFlow.value;
      var state := HandleFlowEvent(id, FlowTimedOut, None);
      if state == Failed {
        SetTimerNow(i, SetNotWorking);
        return;
      }
      servers := servers[i := servers[i].(nextTimeout := flows[id].timeout, state := WaitPingResp)];
    }

    /** pcp_get_flow, as a walk over the registered flows. */
    method GetFlow(i: nat, key: FlowKey) returns (r: Option<nat>)
      requires InRange(order, |flows|)
      ensures r == Lookup(flows, order, i, key)
    {
      hide Lookup;
      var k := 0;
      assert order[0..] == order;
      while k < |order|
        invariant 0 <= k <= |order|
        invariant Lookup(flows, order[k..], i, key) == Lookup(flows, order, i, key)
      {
        LookupStep(flows, order[k..], i, key);
        if flows[order[k]].server == i && flows[order[k]].key == key {
          return Some(order[k]);
        }
        assert order[k..][1..] == order[k + 1..];
        k := k + 1;
      }
      LookupStep(flows, order[k..], i, key);
      return None;
    }

    /** server_process_rcvd_pcp_msg */
    method ProcessMsg(i: nat, msg: Msg) returns (found: Option<nat>)
      requires i < |servers| && InRange(order, |flows|) && RefOk(servers[i].pingFlow, |flows|)
      modifies this`flows, this`calls, this`servers
      ensures (W(), found) == ProcessReceived(env, old(W()), i, msg)
    {
      hide RunFlow, Lookup;
      var msg' := msg;
      if msg.version == 0 && msg.key.op == OP_ANNOUNCE {
        servers := servers[i := servers[i].(natpmpExt := msg.ext.ip[12..16])];
        var ping := servers[i].pingFlow;
        if servers[i].version == 0 && ping.Some? && flows[ping.value].key.op == OP_ANNOUNCE {
          found := ping;
        } else {
          found := None;
        }
      } else {
        if msg.version == 0 {
          msg' := msg.(ext := msg.ext.(ip := V4Mapped(servers[i].natpmpExt)));
        }
        found := GetFlow(i, msg.key);
        assert servers == servers[i := servers[i].(natpmpExt := servers[i].natpmpExt)];
      }
      if found.Some? {
        flows := flows[found.value := Matched(flows[found.value], msg.result)];
        var _ := HandleFlowEvent(found.value, Result(msg.result), Some(msg'));
      }
    }

    method EnterRestart(i: nat, msg: Msg, found: Option<nat>)
      requires i < |servers| && RefOk(found, |flows|)
      modifies this`flows, this`calls, this`servers
      ensures W() == BeginRestart(env, old(W()), i, msg, found)
    {
      servers := servers[i := servers[i].(epoch := msg.epoch, cepoch := msg.received)];
      SetTimerNow(i, ServerRestart);
      servers := servers[i := servers[i].(restartFlow := found)];
      if found.Some? && msg.result != RES_SUCCESS {
        flows := flows[found.value := Spared(flows[found.value])];
      }
    }

    /** compare_epochs */
    method CompareEpochs(i: nat, msg: Msg) returns (restarted: bool)
      requires i < |servers|
      modifies this`servers
      ensures var base := Baseline(old(servers[i].epoch), old(servers[i].cepoch));
              var learned := Learn(base, msg.epoch, msg.received);
              && restarted == Restarted(base, msg.epoch, msg.received)
              && servers == old(servers)[i := old(servers[i]).(epoch := learned.epoch, cepoch := learned.clientTime)]
    {
      hide Diverged, Wrap;
      if servers[i].epoch == NO_EPOCH {
        servers := servers[i := servers[i].(epoch := msg.epoch, cepoch := msg.received)];
      }
      var clientDelta := Wrap(msg.received - servers[i].cepoch);
      var serverDelta := Wrap(msg.epoch - servers[i].epoch);
      restarted := Diverged(clientDelta, serverDelta);
    }

    /** handle_wait_io_receive_msg: the invariant is kept, the server goes on to one of four states
        by result and epoch, and the epoch of the message is not taken for another restart. */
    method HandleReceive(i: nat, msg: Msg)
      requires i < |servers| && InRange(order, |flows|) && RefOk(servers[i].pingFlow, |flows|)
      modifies this`flows, this`calls, this`servers
      ensures W() == ReceiveMsg(env, old(W()), i, msg) && |servers| == |old(servers)|
      ensures Inv(old(W())) && old(servers[i].state) in {WaitIo, WaitPingResp} && msg.version <= PCP_MAX_SUPPORTED_VERSION ==>
                && StepOk(old(W()), W(), i)
                && servers[i].state in {VersionNegotiation, SetNotWorking, ServerRestart, WaitIoCalcNearestTimeout}
      ensures servers[i].state == StateAfter(old(servers[i]), msg)
      ensures msg.result == RES_UNSUPP_VERSION || msg.result == RES_ADDRESS_MISMATCH ==> flows == old(flows) && order == old(order)
      ensures msg.result != RES_UNSUPP_VERSION && msg.result != RES_ADDRESS_MISMATCH ==>
                !Restarted(BaselineOf(servers[i]), msg.epoch, msg.received)
    {
      hide ProcessReceived, Restarted, Learn, Inv, StepOk, StateAfter, GoNow, BeginRestart;
      ReceiveFacts(env, W(), i, msg);
      if msg.result == RES_UNSUPP_VERSION {
        SetTimerNow(i, VersionNegotiation);
        servers := servers[i := servers[i].(nextVersion := msg.version)];
        return;
      }
      if msg.result == RES_ADDRESS_MISMATCH {
        SetTimerNow(i, SetNotWorking);
        return;
      }
      var found := ProcessMsg(i, msg);
      ghost var w1 := W();
      var restarted := CompareEpochs(i, msg);
      LearnedFirst(env, w1, i, msg, found, servers[i].epoch, servers[i].cepoch);
      if restarted {
        EnterRestart(i, msg, found);
      } else {
        SetTimerNow(i, WaitIoCalcNearestTimeout);
      }
    }

    /** handle_wait_ping_resp_recv: a reply to a ping leads to the messages of all flows where it
        leads to the timers otherwise; the invariant is kept. */
    method HandleWaitPingRespRecv(i: nat, msg: Msg)
      requires i < |servers| && InRange(order, |flows|) && RefOk(servers[i].pingFlow, |flows|)
      modifies this`flows, this`calls, this`servers
      ensures W() == WaitPingRecv(env, old(W()), i, msg) && |servers| == |old(servers)|
      ensures Inv(old(W())) && old(servers[i].state) == WaitPingResp && msg.version <= PCP_MAX_SUPPORTED_VERSION ==>
                && StepOk(old(W()), W(), i)
                && servers[i].state in {VersionNegotiation, SetNotWorking, ServerRestart, SendAllMsgs}
      ensures servers[i].state == (if StateAfter(old(servers[i]), msg) == WaitIoCalcNearestTimeout then SendAllMsgs
                                   else StateAfter(old(servers[i]), msg))
    {
      hide ReceiveMsg, Inv, StepOk, StateAfter;
      ghost var w := W();
      PingReplyLeadsTo(env, w, i, msg);
      if Inv(w) && w.servers[i].state == WaitPingResp && msg.version <= PCP_MAX_SUPPORTED_VERSION {
        InvIsWf(w);
        WaitPingRecvKeeps(env, w, i, msg);
      }
      HandleReceive(i, msg);
      if servers[i].state == WaitIoCalcNearestTimeout {
        servers := servers[i := servers[i].(state := SendAllMsgs)];
      } else if servers[i].state == WaitIo {
        servers := servers[i := servers[i].(state := WaitPingResp)];
      }
    }

    /** create_natpmp_ann_msg and the lines before its call: a new, registered announcement of this
        server is its ping flow, the old ping flow waits for the server; the invariant is kept. */
    method BeginNatPmp(i: nat)
      requires i < |servers| && InRange(order, |flows|) && RefOk(servers[i].pingFlow, |flows|)
      modifies this`flows, this`order, this`servers
      ensures W() == StartNatPmp(old(W()), i)
      ensures |servers| == |old(servers)| && servers[i].pingFlow == Some(|old(flows)|)
      ensures Owned(W(), i, |old(flows)|) && flows[|old(flows)|].key.op == OP_ANNOUNCE
      ensures var s, k := old(servers[i]), flows[|old(flows)|].key;
              k.src == s.src && k.serverIp == s.ip && k.nonce == s.nonce && flows[|old(flows)|].state == Idle
      ensures old(servers[i].pingFlow).Some? ==>
                var f := flows[old(servers[i].pingFlow).value]; f.state == WaitForServerInit && f.timeout == 0
      ensures Inv(old(W())) ==> StepOk(old(W()), W(), i)
    {
      hide Bucket, Inv, StepOk;
      ghost var w := W();
      if Inv(w) {
        InvIsWf(w);
        StartNatPmpKeeps(w, i);
      }
      var ping := servers[i].pingFlow;
      if ping.Some? {
        flows := flows[ping.value := flows[ping.value].(state := WaitForServerInit, timeout := 0)];
      }
      var s := servers[i];
      var key := FlowKey(OP_ANNOUNCE, s.src, s.ip, Zeros(4), s.nonce, 0, Zeros(2), Zeros(16), Zeros(2));
      var id := AddFlow(ServerMachine.NewFlow(key, i, Idle, 0, 0, NO_ENDPOINT));
      servers := servers[i := servers[i].(pingFlow := Some(id))];
    }

    /** pcp_db_add_flow, as its place in the walk */
    method AddFlow(f: Flow) returns (id: nat)
      requires InRange(order, |flows|)
      modifies this`flows, this`order
      ensures W() == Register(old(W()), f) && id == |old(flows)|
    {
      hide Bucket, InsertByBucket;
      id := |flows|;
      var b := Bucket(f.key);
      var k := 0;
      while k < |order| && Bucket(flows[order[k]].key) <= b
        invariant 0 <= k <= |order|
        invariant forall j :: 0 <= j < k ==> Bucket(flows[order[j]].key) <= b
      {
        k := k + 1;
      }
      InsertSplits(flows, order, id, b, k);
      order := order[..k] + [id] + order[k..];
      flows := flows + [f];
    }

    method PingAgain(i: nat, id: nat)
      requires i < |servers| && id < |flows|
      modifies this`flows, this`calls, this`servers
      ensures W() == NegotiatePing(env, old(W()), i, id)
    {
      hide RunFlow;
      flows := flows[id := ResetRetry(flows[id]).(resend := 0)];
      var state := HandleFlowEvent(id, DoSend, None);
      if state == Failed {
        servers := servers[i := servers[i].(state := SetNotWorking)];
        return;
      }
      servers := servers[i := servers[i].(nextTimeout := flows[id].timeout, state := WaitPingResp)];
    }

    /** handle_version_negotiation: at version 0 the server is given up, else the version named by
        the server is adopted, or the next lower one if it named the current one; a supported
        version stays one, and the invariant is kept. */
    method HandleVersionNegotiation(i: nat)
      requires i < |servers| && InRange(order, |flows|) && RefOk(servers[i].pingFlow, |flows|)
      modifies this`flows, this`calls, this`servers, this`order
      ensures W() == Negotiate(env, old(W()), i) && |servers| == |old(servers)|
      ensures var s := old(servers[i]);
              if s.version == 0 then servers[i].state == SetNotWorking && servers[i].version == 0
              else if s.nextVersion != s.version then servers[i].version == s.nextVersion
              else s.version <= 255 ==> servers[i].version == s.version - 1
      ensures Inv(old(W())) && old(servers[i].state) == VersionNegotiation ==>
                StepOk(old(W()), W(), i) && servers[i].version <= PCP_MAX_SUPPORTED_VERSION
    {
      hide StartNatPmp, NegotiatePing, FirstPingable, Inv, StepOk;
      NegotiateFacts(env, W(), i);
      var s := servers[i];
      if s.version == 0 {
        servers := servers[i := s.(nextVersion := NextVersion(s), state := SetNotWorking)];
        return;
      }
      servers := servers[i := AdoptVersion(s)];
      if servers[i].version == 0 {
        ghost var w := W();
        BeginNatPmp(i);
        NatPmpFrame(w, i);
      }
      var ping := servers[i].pingFlow;
      if ping.None? {
        ping := GetPingMsg(i);
        if ping.None? {
          servers := servers[i := servers[i].(nextTimeout := 0, state := Ping)];
          return;
        }
      }
      PingAgain(i, ping.value);
    }

    /** handle_server_not_working: within the delay a message other than the two that say "still not"
        begins a restart, which its epoch does not announce again; after the delay the
        server is pinged anew; the invariant is kept. */
    method HandleServerNotWorking(i: nat, msg: Msg)
      requires i < |servers| && InRange(order, |flows|) && RefOk(servers[i].pingFlow, |flows|)
      modifies this`flows, this`calls, this`servers
      ensures W() == HandleNotWorking(env, old(W()), i, msg) && |servers| == |old(servers)|
      ensures Now(env, old(W())) >= old(servers[i].nextTimeout) ==> servers[i].state == ServerReping && flows == old(flows)
      ensures Now(env, old(W())) < old(servers[i].nextTimeout) ==>
                if msg.result == RES_UNSUPP_VERSION || msg.result == RES_ADDRESS_MISMATCH
                then servers == old(servers) && flows == old(flows)
                else servers[i].state == ServerRestart && !Restarted(BaselineOf(servers[i]), msg.epoch, msg.received)
      ensures Inv(old(W())) && old(servers[i].state) == NotWorking ==> StepOk(old(W()), W(), i)
    {
      hide ProcessReceived, Inv, StepOk, Restarted;
      NotWorkingFacts(env, W(), i, msg);
      var now := GetTime();
      if now < servers[i].nextTimeout {
        if msg.result == RES_UNSUPP_VERSION || msg.result == RES_ADDRESS_MISMATCH {
          return;
        }
        var found := ProcessMsg(i, msg);
        EnterRestart(i, msg, found);
        return;
      }
      servers := servers[i := servers[i].(nextTimeout := now, state := ServerReping)];
    }

    /** handle_send_all_msgs: every flow that waited for the server has sent one message, or failed. */
    method HandleSendAllMsgs(i: nat)
      requires i < |servers| && InRange(order, |flows|)
      modifies this`flows, this`calls, this`servers
      ensures W() == SendAll(env, old(W()), i)
      ensures forall t :: Inv(old(W())) && Still(env, t) ==> Served(old(W()), W(), i, t)
      ensures Inv(old(W())) && old(servers[i].state) == SendAllMsgs ==> StepOk(old(W()), W(), i)
    {
      hide SendEvents, Inv, StepOk, Served;
      ghost var w := W();
      forall t | Inv(w) && Still(env, t)
        ensures Served(w, SendAll(env, w, i), i, t)
      {
        Serving(env, w, i, t);
      }
      if Inv(w) && w.servers[i].state == SendAllMsgs {
        SendAllKeeps(env, w, i);
      }
      SendEventToAll(i, ServerInitialized);
      SetTimerNow(i, WaitIoCalcNearestTimeout);
    }

    /** handle_server_restart: every flow but the announcing one has sent one message, or failed. */
    method HandleServerRestart(i: nat)
      requires i < |servers| && InRange(order, |flows|)
      modifies this`flows, this`calls, this`servers
      ensures W() == HandleRestart(env, old(W()), i)
      ensures forall t :: Inv(old(W())) && Still(env, t) ==> Recovered(old(W()), W(), i, t)
      ensures Inv(old(W())) && old(servers[i].state) == ServerRestart ==> StepOk(old(W()), W(), i)
    {
      hide SendEvents, Inv, StepOk, Recovered;
      ghost var w := W();
      forall t | Inv(w) && Still(env, t)
        ensures Recovered(w, HandleRestart(env, w, i), i, t)
      {
        RestartRecovery(env, w, i, t);
      }
      if Inv(w) && w.servers[i].state == ServerRestart {
        HandleRestartKeeps(env, w, i);
      }
      SendEventToAll(i, ServerRestarted);
      servers := servers[i := servers[i].(restartFlow := None)];
      SetTimerNow(i, WaitIoCalcNearestTimeout);
    }

    /** handle_server_set_not_working: every flow has failed, but for granted ones, sent once more. */
    method HandleSetNotWorking(i: nat)
      requires i < |servers| && InRange(order, |flows|)
      modifies this`flows, this`calls, this`servers
      ensures W() == FailAll(env, old(W()), i)
      ensures forall t :: Inv(old(W())) && Still(env, t) ==> GivenUp(old(W()), W(), i, t)
      ensures Inv(old(W())) && old(servers[i].state) == SetNotWorking ==> StepOk(old(W()), W(), i)
    {
      hide SendEvents, Inv, StepOk, GivenUp;
      ghost var w := W();
      forall t | Inv(w) && Still(env, t)
        ensures GivenUp(w, FailAll(env, w, i), i, t)
      {
        GivingUp(env, w, i, t);
      }
      if Inv(w) && w.servers[i].state == SetNotWorking {
        FailAllKeeps(env, w, i);
      }
      SendEventToAll(i, SendFailed);
      var now := GetTime();
      servers := servers[i := servers[i].(nextTimeout := now + PCP_SERVER_DISCOVERY_RETRY_DELAY * SECOND,
                                          state := NotWorking)];
    }

    // ----- dispatch and loop ---------------------------------------------------------

    method FindServerRow(s: ServerState, e: ServerEvent) returns (h: ServerHandler)
      ensures h == ServerHandlerFor(s, e)
    {
      var n := 0;
      while n < SERVER_ROWS && !ServerRowMatches(n, s, e)
        invariant 0 <= n <= SERVER_ROWS
        invariant forall j: nat :: j < n ==> !ServerRowMatches(j, s, e)
      {
        n := n + 1;
      }
      ServerTableFirstMatch(s, e, n);
      h := ServerTable(n).handler;
    }

    /** run_server_state_machine */
    method RunServerStateMachine(i: nat, e: ServerEvent, msg: Msg)
      requires i < |servers| && Wf(W())
      modifies this`flows, this`calls, this`servers, this`order
      ensures W() == RunServer(env, old(W()), i, e, msg)
    {
      hide ServerPing, WaitPingTimeout, WaitPingRecv, Negotiate, SendAll, ReceiveMsg;
      hide WaitIoTimeout, HandleRestart, FailAll, HandleNotWorking;
      var h := FindServerRow(servers[i].state, e);
      match h {
        case HTerminate => servers := servers[i := servers[i].(nextTimeout := 0, state := Allocated)];
        case HPing => HandleServerPing(i);
        case HWaitPingTimeout => HandleWaitPingRespTimeout(i);
        case HWaitPingRecv => HandleWaitPingRespRecv(i, msg);
        case HNegotiate => HandleVersionNegotiation(i);
        case HSendAll => HandleSendAllMsgs(i);
        case HReceive => HandleReceive(i, msg);
        case HWaitIoTimeout => HandleWaitIoTimeout(i);
        case HRestart => HandleServerRestart(i);
        case HReping =>
          servers := servers[i := servers[i].(version := PCP_MAX_SUPPORTED_VERSION, rounds := 0, raised := false)];
          SetTimerNow(i, Ping);
        case HSetNotWorking => HandleSetNotWorking(i);
        case HNotWorking => HandleServerNotWorking(i, msg);
        case HIgnore => servers := servers[i := servers[i].(nextTimeout := 0)];
        case HUnexpected => SetTimerNow(i, SetNotWorking);
      }
    }

    /** hserver_iter: the event, then handlers for as long as the timer is due. It returns, from
        every context that satisfies the invariant. */
    method HServerIter(i: nat, e: ServerEvent, msg: Msg, ghost t: int)
      requires Inv(W()) && i < |servers| && Still(env, t) && !Transient(servers[i].state)
      requires msg.version <= PCP_MAX_SUPPORTED_VERSION
      modifies this`flows, this`calls, this`servers, this`order
      ensures W() == HandleServer(env, t, old(W()), i, e, msg)
      ensures Settled(old(W()), W(), i, t) && FlowsEvolved(old(W()), W())
    {
      hide RunServer, Inv, Settled, FlowsEvolved, Wf;
      ghost var w0 := W();
      InvIsWf(w0);
      HandleServerSettles(env, t, w0, i, e, msg);
      if e != Timeout {
        RunServerKeeps(env, w0, i, e, msg);
        RunServerStateMachine(i, e, msg);
      }
      ghost var w1 := W();
      while true
        invariant Inv(W()) && i < |servers| && PumpLoop(env, t, W(), i, msg) == PumpLoop(env, t, w1, i, msg)
        decreases if Due(servers[i], t) then 1 + ServerRank(servers[i]) else 0
      {
        var now := env(calls).now;
        if servers[i].nextTimeout == 0 || servers[i].nextTimeout > now {
          break;
        }
        ghost var w := W();
        InvIsWf(w);
        RunServerKeeps(env, w, i, Timeout, msg);
        StepProgress(env, w, i, msg, t);
        RunServerStateMachine(i, Timeout, msg);
      }
    }

    // ----- pcp_pulse -----------------------------------------------------------------

    /** pcp_pulse: a message if there is one, then the timers of all servers. */
    method PcpPulse(p: Option<Packet>, wait: int, ghost t: int) returns (r: int)
      requires Inv(W()) && AtRest(W()) && Still(env, t)
      requires p.Some? ==> PacketOk(p.value)
      modifies this`flows, this`calls, this`servers, this`order
      ensures (W(), r) == Pulse(env, t, old(W()), p, wait)
    {
      hide HandleServer, TimeoutsFrom, Inv, Settled, Receive;
      ghost var w0 := W();
      if p.Some? {
        var received := Receive(servers, p.value);
        if received.Some? {
          HServerIter(received.value.0, IoEvent, received.value.1, t);
          SettledIsAtRest(w0, W(), received.value.0, t);
        }
      }
      ghost var w1 := W();
      assert w1 == Deliver(env, t, w0, p);
      r := ServerTimeouts(wait, t);
    }

    /** The walk of pcp_pulse over the servers. */
    method ServerTimeouts(wait: int, ghost t: int) returns (r: int)
      requires Inv(W()) && AtRest(W()) && Still(env, t)
      modifies this`flows, this`calls, this`servers, this`order
      ensures (W(), r) == TimeoutsFrom(env, t, old(W()), 0, wait)
    {
      hide HandleServer, TimeoutsFrom, Inv, AtRest;
      r := wait;
      var n := 0;
      while n < |servers|
        invariant 0 <= n <= |servers| == |old(servers)| && Inv(W()) && AtRest(W())
        invariant TimeoutsFrom(env, t, W(), n, r) == TimeoutsFrom(env, t, old(W()), 0, wait)
      {
        ghost var w := W();
        RestOf(w, n);
        TimeoutsUnfold(env, t, w, n, r);
        HServerIter(n, Timeout, NO_MSG, t);
        SettledIsAtRest(w, W(), n, t);
        r := WaitWith(r, servers[n], env(calls).now);
        n := n + 1;
      }
      TimeoutsUnfold(env, t, W(), n, r);
    }

    // ----- flows of the application --------------------------------------------------

    /** pcp_delete_flow_intern: the flow is not registered any more, the others are as they were,
        and from a sound context no server refers to the flow. */
    method DeleteFlowIntern(id: nat)
      requires id < |flows|
      modifies this`order, this`servers
      ensures W() == DeleteFlow(old(W()), id)
      ensures id !in order && forall x :: x != id ==> (x in order <==> x in old(order))
      ensures Inv(old(W())) && AtRest(old(W())) ==>
                && Inv(W()) && AtRest(W())
                && forall j :: 0 <= j < |servers| ==> servers[j].pingFlow != Some(id) && servers[j].restartFlow != Some(id)
    {
      ghost var w := W();
      hide Inv, AtRest;
      if Inv(w) && AtRest(w) {
        DeleteKeeps(w, id);
      }
      order := Without(order, {id});
      var n := flows[id].server;
      if n < |servers| && servers[n].state != Uninitialized && servers[n].pingFlow == Some(id) {
        servers := servers[n := servers[n].(pingFlow := None)];
      }
    }

    /** chain_and_assign_src_ip for a server that gets a child. */
    method CreateChild(n: nat, a: NewFlowArgs, prev: Option<nat>) returns (id: nat)
      requires n < |servers| && InRange(order, |flows|) && RefOk(prev, |flows|)
      modifies this`flows, this`order, this`servers
      ensures W() == AddChild(old(W()), n, a, prev) && id == |old(flows)|
    {
      hide Bucket, InsertByBucket, ChildFlow;
      var f := ChildFlow(a, servers[n], n);
      servers := servers[n := servers[n].(nextTimeout := a.now)];
      id := AddFlow(f);
      if prev.Some? {
        flows := flows[prev.value := flows[prev.value].(nextChild := Some(id))];
      }
    }

    /** pcp_new_flow from the walk over the servers on: alloc says which allocations succeed. All
        children are made, as asked for, or none; the flows registered before stay registered. */
    method PcpNewFlow(a: NewFlowArgs, alloc: nat -> bool) returns (ok: bool, children: seq<nat>)
      requires InRange(order, |flows|)
      modifies this`flows, this`order, this`servers
      ensures Created(W(), ok, children) == CreateFlow(old(W()), a, alloc)
      ensures ok ==> && ChainMade(W(), |old(flows)|, children, EligibleFrom(old(servers), 0, a.key), a, old(servers))
                     && Without(order, SetOf(children)) == old(order)
      ensures !ok ==> order == old(order) && children == []
    {
      hide AddChild, Eligible, DeleteFlow, ChainMade, Without, EligibleFrom;
      CreateAllOrNothing(W(), a, alloc);
      ok, children := true, [];
      var n := 0;
      while n < |servers|
        invariant 0 <= n <= |servers| && InRange(order, |flows|) && InRange(children, |flows|) && ok
        invariant CreateFrom(W(), n, a, alloc, children) == CreateFrom(old(W()), 0, a, alloc, [])
      {
        if Eligible(a.key, servers[n]) {
          if !alloc(n) {
            ok := false;
            break;
          }
          var prev := LastOf(children);
          var id := CreateChild(n, a, prev);
          children := children + [id];
        }
        n := n + 1;
      }
      if !ok {
        ghost var w := W();
        var k := 0;
        assert children[0..] == children;
        while k < |children|
          invariant 0 <= k <= |children| && flows == w.flows
          invariant DeleteChain(W(), children[k..]) == DeleteChain(w, children)
        {
          assert children[k..][1..] == children[k + 1..];
          DeleteFlowIntern(children[k]);
          k := k + 1;
        }
        children := [];
      }
    }

    /** pcp_eval_flow_state on the chain that starts at a flow: how many of its flows are in a
        final state, and what that makes of the whole. */
    method EvalFlowState(head: Option<nat>) returns (exits: nat, state: ChainState)
      requires RefOk(head, |flows|) && ChildrenForward(flows)
      ensures var states := ChainStates(flows, head);
              && exits == CountFinal(states)
              && (state == Succeeded <==> WaitForLifetimeRenew in states && forall s :: s in states ==> Final(s))
              && (state == PartialResult <==> WaitForLifetimeRenew in states && exists s :: s in states && !Final(s))
              && (state == Processing <==> WaitForLifetimeRenew !in states && exists s :: s in states && !Final(s))
              && (state == ChainFailed <==> WaitForLifetimeRenew !in states && Failed in states
                                            && forall s :: s in states ==> Final(s))
    {
      exits := 0;
      var success, failed, open := false, false, false;
      var iter := head;
      ghost var seen := [];
      while iter.Some?
        invariant RefOk(iter, |flows|)
        invariant seen + ChainStates(flows, iter) == ChainStates(flows, head)
        invariant exits == CountFinal(seen)
        invariant success == (WaitForLifetimeRenew in seen) && failed == (Failed in seen)
        invariant open == exists s :: s in seen && !Final(s)
        decreases if iter.Some? then |flows| - iter.value else 0
      {
        var s := flows[iter.value].state;
        CountAppend(seen, s);
        ghost var rest := ChainStates(flows, flows[iter.value].nextChild);
        assert seen + ([s] + rest) == (seen + [s]) + rest;
        if s == WaitForLifetimeRenew {
          success := true;
          exits := exits + 1;
        } else if s == Failed {
          failed := true;
          exits := exits + 1;
        } else if s == WaitAfterShortLifeError {
          exits := exits + 1;
        } else {
          open := true;
        }
        assert forall x :: x in seen + [s] <==> x in seen || x == s;
        seen := seen + [s];
        iter := flows[iter.value].nextChild;
      }
      assert seen + [] == seen;
      state := if open then (if success then PartialResult else Processing)
               else if success then Succeeded
               else if failed then ChainFailed
               else ShortLifetimeError;
    }
  }

  /** pcp_fstate_e */
  datatype ChainState = Processing | Succeeded | PartialResult | ShortLifetimeError | ChainFailed

  predicate Final(s: FlowState) {
    s == WaitForLifetimeRenew || s == Failed || s == WaitAfterShortLifeError
  }

  ghost function ChainStates(flows: seq<Flow>, head: Option<nat>): seq<FlowState>
    requires RefOk(head, |flows|) && ChildrenForward(flows)
    decreases if head.Some? then |flows| - head.value else 0
  {
    if head.None? then [] else [flows[head.value].state] + ChainStates(flows, flows[head.value].nextChild)
  }

  function CountFinal(states: seq<FlowState>): nat {
    if states == [] then 0
    else CountFinal(states[..|states| - 1]) + (if Final(states[|states| - 1]) then 1 else 0)
  }

  lemma CountAppend(states: seq<FlowState>, s: FlowState)
    ensures CountFinal(states + [s]) == CountFinal(states) + (if Final(s) then 1 else 0)
  {
    assert (states + [s])[..|states|] == states;
  }

  lemma EventFacts(env: Env, w: World, id: nat, e: FlowEvent, msg: Option<Msg>)
    requires id < |w.flows| && EventOk(e, msg)
    ensures var w' := FlowEventAt(env, w, id, e, msg);
            && |w'.flows| == |w.flows| && w'.calls <= w.calls + 4 && SameIdentity(w.flows[id], w'.flows[id])
            && (if NextState(w.flows[id].state, e).Some? then Resting(w'.flows[id].state) else w'.flows == w.flows)
            && (e == Result(RES_SUCCESS) && w.flows[id].state in {WaitResp, WaitForLifetimeRenew} ==>
                  w'.flows[id].state == WaitForLifetimeRenew && Stored(w'.flows[id], msg.value))
  {
    hide RunFlow, NextState, LinkOf;
    var f, link := w.flows[id], LinkOf(w, id);
    ChainEndsAtRest(env, w.calls, f, link, e, msg);
    ChainFrame(env, w.calls, f, link, e, msg);
    if e == Result(RES_SUCCESS) && f.state in {WaitResp, WaitForLifetimeRenew} {
      SuccessIsStored(env, w.calls, f, link, msg.value);
    }
  }

  ghost predicate PingTimedOut(env: Env, w: World, w': World, i: nat) {
    && i < |w'.servers| == |w.servers|
    && w'.servers[i].pingCount == w.servers[i].pingCount + 1
    && (w'.servers[i].pingCount >= PCP_MAX_PING_COUNT ==> w'.servers[i].state == SetNotWorking)
    && (Inv(w) && w.servers[i].state == WaitPingResp ==>
          && StepOk(w, w', i)
          && forall t :: Still(env, t) ==>
               && Progress(w.servers[i], w'.servers[i], t)
               && (PingGoesOn(w, i) ==> Pinged(w, w', i, w.servers[i].pingFlow.value, t)))
  }

  lemma PingFacts(env: Env, w: World, i: nat)
    requires i < |w.servers| && RefOk(w.servers[i].pingFlow, |w.flows|)
    ensures PingTimedOut(env, w, WaitPingTimeout(env, w, i), i)
  {
    var w' := WaitPingTimeout(env, w, i);
    PingCounts(env, w, i);
    hide WaitPingTimeout, Inv, StepOk, Progress, Pinged;
    if Inv(w) && w.servers[i].state == WaitPingResp {
      InvIsWf(w);
      WaitPingTimeoutKeeps(env, w, i);
      forall t | Still(env, t)
        ensures Progress(w.servers[i], w'.servers[i], t)
        ensures PingGoesOn(w, i) ==> Pinged(w, w', i, w.servers[i].pingFlow.value, t)
      {
        WaitPingProgress(env, w, i, t);
        if PingGoesOn(w, i) {
          PingIsRetried(env, w, i, w.servers[i].pingFlow.value, t);
        }
      }
    }
  }

  lemma PingCounts(env: Env, w: World, i: nat)
    requires i < |w.servers| && RefOk(w.servers[i].pingFlow, |w.flows|)
    ensures var s' := WaitPingTimeout(env, w, i).servers[i];
            s'.pingCount == w.servers[i].pingCount + 1 && (s'.pingCount >= PCP_MAX_PING_COUNT ==> s'.state == SetNotWorking)
  {
    hide RunFlow;
  }

  /** The epoch may be learned before the clock is read as well as after, and before a restart in vain. */
  lemma LearnedFirst(env: Env, w: World, i: nat, msg: Msg, found: Option<nat>, epoch: u32, cepoch: int)
    requires i < |w.servers| && RefOk(found, |w.flows|)
    ensures var w1 := SetServer(w, i, w.servers[i].(epoch := epoch, cepoch := cepoch));
            && BeginRestart(env, w1, i, msg, found) == BeginRestart(env, w, i, msg, found)
            && GoNow(env, w1, i, WaitIoCalcNearestTimeout)
               == var w2 := GoNow(env, w, i, WaitIoCalcNearestTimeout);
                  SetServer(w2, i, w2.servers[i].(epoch := epoch, cepoch := cepoch))
  {
  }

  lemma ReceiveFacts(env: Env, w: World, i: nat, msg: Msg)
    requires i < |w.servers| && InRange(w.order, |w.flows|) && RefOk(w.servers[i].pingFlow, |w.flows|)
    ensures var w' := ReceiveMsg(env, w, i, msg);
            && (Inv(w) && w.servers[i].state in {WaitIo, WaitPingResp} && msg.version <= PCP_MAX_SUPPORTED_VERSION ==>
                  && StepOk(w, w', i)
                  && w'.servers[i].state in {VersionNegotiation, SetNotWorking, ServerRestart, WaitIoCalcNearestTimeout})
            && (msg.result != RES_UNSUPP_VERSION && msg.result != RES_ADDRESS_MISMATCH ==>
                  !Restarted(BaselineOf(w'.servers[i]), msg.epoch, msg.received))
            && w'.servers[i].state == StateAfter(w.servers[i], msg)
            && (msg.result == RES_UNSUPP_VERSION || msg.result == RES_ADDRESS_MISMATCH ==> w'.flows == w.flows && w'.order == w.order)
  {
    hide ReceiveMsg, Inv, StepOk, Restarted, StateAfter;
    ReceivedLeadsTo(env, w, i, msg);
    if Inv(w) && w.servers[i].state in {WaitIo, WaitPingResp} && msg.version <= PCP_MAX_SUPPORTED_VERSION {
      InvIsWf(w);
      ReceiveMsgKeeps(env, w, i, msg);
    }
    if msg.result != RES_UNSUPP_VERSION && msg.result != RES_ADDRESS_MISMATCH {
      EpochSettled(env, w, i, msg);
    }
  }

  lemma NegotiateFacts(env: Env, w: World, i: nat)
    requires i < |w.servers| && InRange(w.order, |w.flows|) && RefOk(w.servers[i].pingFlow, |w.flows|)
    ensures var s, s' := w.servers[i], Negotiate(env, w, i).servers[i];
            && (if s.version == 0 then s'.state == SetNotWorking && s'.version == 0
                else if s.nextVersion != s.version then s'.version == s.nextVersion
                else s.version <= 255 ==> s'.version == s.version - 1)
            && (Inv(w) && s.state == VersionNegotiation ==>
                  StepOk(w, Negotiate(env, w, i), i) && s'.version <= PCP_MAX_SUPPORTED_VERSION)
  {
    hide Negotiate, Inv;
    NegotiateVersion(env, w, i);
    if Inv(w) && w.servers[i].state == VersionNegotiation {
      InvIsWf(w);
      NegotiateKeeps(env, w, i);
      assert ServerOk(Negotiate(env, w, i), i);
    }
  }

  lemma NotWorkingFacts(env: Env, w: World, i: nat, msg: Msg)
    requires i < |w.servers| && InRange(w.order, |w.flows|) && RefOk(w.servers[i].pingFlow, |w.flows|)
    ensures var w' := HandleNotWorking(env, w, i, msg);
            && (Inv(w) && w.servers[i].state == NotWorking ==> StepOk(w, w', i))
            && (msg.result != RES_UNSUPP_VERSION && msg.result != RES_ADDRESS_MISMATCH
                && Now(env, w) < w.servers[i].nextTimeout ==>
                  !Restarted(BaselineOf(w'.servers[i]), msg.epoch, msg.received))
  {
    hide HandleNotWorking, Inv, StepOk, Restarted;
    if Inv(w) && w.servers[i].state == NotWorking {
      InvIsWf(w);
      HandleNotWorkingKeeps(env, w, i, msg);
    }
    if msg.result != RES_UNSUPP_VERSION && msg.result != RES_ADDRESS_MISMATCH {
      EpochSettled(env, w, i, msg);
    }
  }

  lemma NatPmpFrame(w: World, i: nat)
    requires i < |w.servers| && InRange(w.order, |w.flows|) && RefOk(w.servers[i].pingFlow, |w.flows|)
    ensures var w' := StartNatPmp(w, i);
            w'.servers[i].pingFlow == Some(|w.flows|) && |w'.flows| == |w.flows| + 1
  {
    hide InsertByBucket;
  }

  lemma FirstPingableStep(flows: seq<Flow>, ids: seq<nat>, i: nat)
    requires InRange(ids, |flows|)
    ensures FirstPingable(flows, ids, i)
         == if ids == [] then None
            else if Pingable(flows[ids[0]], i) then Some(ids[0]) else FirstPingable(flows, ids[1..], i)
  {
  }

  lemma LookupStep(flows: seq<Flow>, ids: seq<nat>, i: nat, key: FlowKey)
    requires InRange(ids, |flows|)
    ensures Lookup(flows, ids, i, key)
         == if ids == [] then None
            else if flows[ids[0]].server == i && flows[ids[0]].key == key then Some(ids[0])
            else Lookup(flows, ids[1..], i, key)
  {
  }

  lemma EventFrame(env: Env, w: World, id: nat, e: FlowEvent, msg: Option<Msg>)
    requires id < |w.flows| && EventOk(e, msg)
    ensures var w' := FlowEventAt(env, w, id, e, msg);
            |w'.flows| == |w.flows| && w'.servers == w.servers && w'.order == w.order
  {
    hide RunFlow;
  }
}
