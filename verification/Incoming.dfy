/** What a received message does, to the end of the call and of the pulse: where it leads the server,
    and what the flow stores that it is matched to. */
module Incoming {
  import opened Types
  import opened FlowMachine
  import opened Retransmission
  import opened EpochModel
  import opened ServerMachine
  import opened Invariant
  import opened Handlers
  import opened Recovery
  import opened Pump
  import opened Runs
  import opened Response
  import opened Message
  import opened MockServer
  import opened EndToEnd
  import opened Silence
  import opened Pings
  import opened Consequences

  // ----- the server ------------------------------------------------------------------

  /** The state that follows, by result and epoch. */
  function StateAfter(s: Server, msg: Msg): ServerState {
    if msg.result == 1 then VersionNegotiation
    else if msg.result == 12 then SetNotWorking
    else if Restarted(Baseline(s.epoch, s.cepoch), msg.epoch, msg.received) then ServerRestart
    else WaitIoCalcNearestTimeout
  }

  /** A message leads a server that waits to exactly that state, due at once. A message that refuses the
      version or the address touches no flow, and a refused version is the one the server named. */
  lemma ReceivedLeadsTo(env: Env, w: World, i: nat, msg: Msg)
    requires i < |w.servers| && InRange(w.order, |w.flows|) && RefOk(w.servers[i].pingFlow, |w.flows|)
    ensures var w' := ReceiveMsg(env, w, i, msg);
            && w'.servers[i].state == StateAfter(w.servers[i], msg)
            && (msg.result == 1 || msg.result == 12 ==>
                  && w'.flows == w.flows && w'.order == w.order
                  && w'.servers[i].restartFlow == w.servers[i].restartFlow
                  && w'.servers[i].nextTimeout == Now(env, w))
            && (msg.result == 1 ==> w'.servers[i].nextVersion == msg.version)
  {
    hide RunFlow, Restarted, Match;
  }

  /** A server's first epoch is kept, with the second it came in, and so is that of every restart; no other
      message moves them, so that what is compared later are the deltas since then. */
  lemma EpochIsKept(env: Env, w: World, i: nat, msg: Msg)
    requires i < |w.servers| && InRange(w.order, |w.flows|) && RefOk(w.servers[i].pingFlow, |w.flows|)
    ensures var s, s' := w.servers[i], ReceiveMsg(env, w, i, msg).servers[i];
            if msg.result == 1 || msg.result == 12 then s'.epoch == s.epoch && s'.cepoch == s.cepoch
            else if s.epoch == 0xFFFF_FFFF || s'.state == ServerRestart then s'.epoch == msg.epoch && s'.cepoch == msg.received
            else s'.epoch == s.epoch && s'.cepoch == s.cepoch
  {
    hide RunFlow, Restarted, Match;
  }

  /** ... and a server that awaits the reply to a ping goes on to the messages of all its flows. */
  lemma PingReplyLeadsTo(env: Env, w: World, i: nat, msg: Msg)
    requires i < |w.servers| && InRange(w.order, |w.flows|) && RefOk(w.servers[i].pingFlow, |w.flows|)
    ensures var next := StateAfter(w.servers[i], msg);
            WaitPingRecv(env, w, i, msg).servers[i].state == if next == WaitIoCalcNearestTimeout then SendAllMsgs else next
    ensures msg.result == 12 ==> WaitPingRecv(env, w, i, msg) == ReceiveMsg(env, w, i, msg)
  {
    hide ReceiveMsg, StateAfter;
    ReceivedLeadsTo(env, w, i, msg);
    StatesAfter(w.servers[i], msg);
  }

  lemma StatesAfter(s: Server, msg: Msg)
    ensures StateAfter(s, msg) in {VersionNegotiation, SetNotWorking, ServerRestart, WaitIoCalcNearestTimeout}
    ensures msg.result == 12 ==> StateAfter(s, msg) == SetNotWorking
  {
  }

  lemma IoRuns(env: Env, w: World, i: nat, msg: Msg)
    requires Wf(w) && i < |w.servers|
    ensures w.servers[i].state == WaitIo ==> RunServer(env, w, i, IoEvent, msg) == ReceiveMsg(env, w, i, msg)
    ensures w.servers[i].state == WaitPingResp ==> RunServer(env, w, i, IoEvent, msg) == WaitPingRecv(env, w, i, msg)
    ensures w.servers[i].state == NotWorking ==> RunServer(env, w, i, IoEvent, msg) == HandleNotWorking(env, w, i, msg)
  {
    hide ServerPing, WaitPingTimeout, Negotiate, SendAll, WaitIoTimeout, HandleRestart, FailAll;
    hide ReceiveMsg, WaitPingRecv, HandleNotWorking, Reping;
  }

  /** A server that refuses the client's address is given up at once: after the call it is not working
      for the retry delay, and its flows have failed, but for granted ones, sent once more. */
  lemma MismatchGivesUp(env: Env, t: int, w: World, i: nat, msg: Msg)
    requires Inv(w) && i < |w.servers| && Still(env, t) && msg.version <= PCP_MAX_SUPPORTED_VERSION
    requires w.servers[i].state == WaitIo || w.servers[i].state == WaitPingResp
    requires msg.result == 12
    ensures GivenUp(w, HandleServer(env, t, w, i, IoEvent, msg), i, t)
  {
    InvIsWf(w);
    assert InRange(w.order, |w.flows|) && RefOk(w.servers[i].pingFlow, |w.flows|);
    hide Inv, RunServer, PumpLoop, ReceiveMsg, WaitPingRecv, FailAll, GivenUp, StateAfter, InRange;
    IoRuns(env, w, i, msg);
    RunServerKeeps(env, w, i, IoEvent, msg);
    ReceivedLeadsTo(env, w, i, msg);
    PingReplyLeadsTo(env, w, i, msg);
    StatesAfter(w.servers[i], msg);
    var w1 := RunServer(env, w, i, IoEvent, msg);
    assert w1 == ReceiveMsg(env, w, i, msg);
    HandleIo(env, t, w, i, msg);
    PumpStep(env, t, w1, i, msg);
    RunsFailAll(env, w1, i, msg);
    FailAllServer(env, w1, i, t);
    PumpEnd(env, t, FailAll(env, w1, i), i, msg);
    GivingUp(env, w1, i, t);
    GivenUpFrom(w, w1, FailAll(env, w1, i), i, t);
  }

  lemma HandleIo(env: Env, t: int, w: World, i: nat, msg: Msg)
    requires Inv(w) && i < |w.servers| && Still(env, t) && !Transient(w.servers[i].state)
    requires msg.version <= PCP_MAX_SUPPORTED_VERSION
    ensures Wf(w) && Inv(RunServer(env, w, i, IoEvent, msg))
    ensures i < |RunServer(env, w, i, IoEvent, msg).servers|
    ensures HandleServer(env, t, w, i, IoEvent, msg) == PumpLoop(env, t, RunServer(env, w, i, IoEvent, msg), i, msg)
  {
    InvIsWf(w);
    hide RunServer, Inv, PumpLoop;
    RunServerKeeps(env, w, i, IoEvent, msg);
  }

  lemma GivenUpFrom(w: World, w1: World, w': World, i: nat, t: int)
    requires i < |w.servers| == |w1.servers| && w1.flows == w.flows && w1.order == w.order
    requires w1.servers[i].restartFlow == w.servers[i].restartFlow && GivenUp(w1, w', i, t)
    ensures GivenUp(w, w', i, t)
  {
    hide Reached;
    forall id | 0 <= id < |w.flows| && Addressed(w, i, id)
      ensures Reached(SendFailed, w.flows[id], w'.flows[id], t)
    {
      assert Addressed(w1, i, id);
    }
  }

  // ----- the flow --------------------------------------------------------------------

  /** What a flow stores of a message that grants it a lifetime. */
  ghost predicate Stored(f: Flow, msg: Msg) {
    && f.recvResult == msg.result
    && f.recvLifetime == (if msg.received + msg.lifetime <= LONG_MAX then msg.received + msg.lifetime else LONG_MAX)
    && (f.key.op == OP_MAP || f.key.op == OP_PEER ==> f.ext == msg.ext)
  }

  /** A success: the flow is granted, stores what was assigned, and renews half-way through the lifetime
      that is left, never if that is 0. */
  lemma SuccessIsStored(env: Env, k: nat, f: Flow, link: Link, msg: Msg)
    requires f.state == WaitResp || f.state == WaitForLifetimeRenew
    ensures var f' := RunFlow(env, k, f, link, Result(RES_SUCCESS), Some(msg)).0;
            && f'.state == WaitForLifetimeRenew && Stored(f', msg)
            && (f.key.op != OP_MAP && f.key.op != OP_PEER ==> f'.ext == f.ext)
            && (msg.lifetime == 0 ==> f'.timeout == 0)
            && (msg.lifetime > 0 ==>
                  var half := (f'.timeout - env(k).now) / SECOND;
                  var left := f'.recvLifetime - env(k).now / SECOND;
                  f'.timeout == env(k).now + half * SECOND && left - 1 <= 2 * half <= left)
  {
    var half := HalfLeft(LifetimeEnd(msg), env(k).now);
    assert half * SECOND / SECOND == half;
  }

  /** A short-lived error: the flow waits as long as the message says and is then sent again. */
  lemma ShortErrorIsStored(env: Env, k: nat, f: Flow, link: Link, code: u32, msg: Msg)
    requires f.state == WaitResp && (code == 7 || code == 8 || code == 10 || code == 13)
    ensures var f' := RunFlow(env, k, f, link, Result(code), Some(msg)).0;
            && f' == f.(state := WaitAfterShortLifeError, recvResult := msg.result,
                        timeout := env(k).now + msg.lifetime * SECOND)
            && NextState(f'.state, FlowTimedOut) == Some(Send)
  {
  }

  /** A long-lived error: the flow fails, with the result for the application and without a timer. */
  lemma LongErrorIsStored(env: Env, k: nat, f: Flow, link: Link, code: u32, msg: Msg)
    requires f.state == WaitResp || f.state == WaitForLifetimeRenew
    requires 2 <= code <= 5 || code == 9 || code == 11 || code == 12
    ensures RunFlow(env, k, f, link, Result(code), Some(msg)).0 == f.(state := Failed, recvResult := msg.result, timeout := 0)
  {
  }

  /** A refused version: the flow waits for the server that is found with another one. */
  lemma RefusedVersionIsStored(env: Env, k: nat, f: Flow, link: Link, msg: Msg)
    requires f.state == WaitResp || f.state == WaitForLifetimeRenew
    ensures RunFlow(env, k, f, link, Result(1), Some(msg)).0
         == f.(state := WaitForServerInit, recvResult := msg.result, timeout := 0)
  {
  }

  /** Any other result, and any result for a flow that expects none, is not even stored. */
  lemma OtherResultsAreIgnored(env: Env, k: nat, f: Flow, link: Link, code: u32, msg: Msg)
    requires || (f.state != WaitResp && f.state != WaitForLifetimeRenew)
             || code == 6 || code > 13
    ensures RunFlow(env, k, f, link, Result(code), Some(msg)).0 == f
  {
  }

  // ----- the grant, to the end of the pulse ------------------------------------------

  /** Where a server listens: to any message, or to one that ends its delay. */
  predicate Listens(s: Server, t: int) {
    s.state == WaitIo || s.state == WaitPingResp || (s.state == NotWorking && t < s.nextTimeout)
  }

  lemma ProcessedIsStored(env: Env, w: World, i: nat, msg: Msg, id: nat)
    requires i < |w.servers| && InRange(w.order, |w.flows|) && RefOk(w.servers[i].pingFlow, |w.flows|)
    requires Match(w, i, msg).0 == Some(id) && msg.result == RES_SUCCESS
    requires w.flows[id].state == WaitResp || w.flows[id].state == WaitForLifetimeRenew
    ensures var (w1, found) := ProcessReceived(env, w, i, msg);
            found == Some(id) && Stored(w1.flows[id], Match(w, i, msg).1) && w1.flows[id].key == w.flows[id].key
  {
    var (found, msg', ext) := Match(w, i, msg);
    var w1 := SetServer(w, i, w.servers[i].(natpmpExt := ext));
    var w2 := SetFlow(w1, id, Matched(w1.flows[id], msg.result));
    MatchKeeps(w, i, msg);
    hide RunFlow, Match;
    SuccessIsStored(env, w.calls, w2.flows[id], LinkOf(w2, id), msg');
    ChainFrame(env, w.calls, w2.flows[id], LinkOf(w2, id), Result(RES_SUCCESS), Some(msg'));
  }

  lemma MatchKeeps(w: World, i: nat, msg: Msg)
    requires i < |w.servers| && InRange(w.order, |w.flows|) && RefOk(w.servers[i].pingFlow, |w.flows|)
    ensures Match(w, i, msg).1 == msg.(ext := Match(w, i, msg).1.ext)
  {
  }

  lemma ReceivedIsStored(env: Env, w: World, i: nat, msg: Msg, id: nat, t: int)
    requires Inv(w) && Wf(w) && i < |w.servers| && Still(env, t) && Listens(w.servers[i], t)
    requires Match(w, i, msg).0 == Some(id) && msg.result == RES_SUCCESS
    requires w.flows[id].state == WaitResp || w.flows[id].state == WaitForLifetimeRenew
    ensures var w1 := RunServer(env, w, i, IoEvent, msg);
            id < |w1.flows| && Stored(w1.flows[id], Match(w, i, msg).1) && w1.flows[id].key == w.flows[id].key
  {
    IoRuns(env, w, i, msg);
    var w0 := if w.servers[i].state == NotWorking then Looked(w) else w;
    assert Match(w0, i, msg) == Match(w, i, msg);
    hide Match, ProcessReceived, Restarted, Learn, Stored, RunServer;
    ProcessedIsStored(env, w0, i, msg, id);
    SuccessHandled(env, w, i, msg, t);
  }

  /** A success changes flows by its processing only. */
  lemma SuccessHandled(env: Env, w: World, i: nat, msg: Msg, t: int)
    requires Wf(w) && i < |w.servers| && Still(env, t) && msg.result == RES_SUCCESS
    ensures w.servers[i].state == NotWorking && t < w.servers[i].nextTimeout ==>
              HandleNotWorking(env, w, i, msg).flows == ProcessReceived(env, Looked(w), i, msg).0.flows
    ensures ReceiveMsg(env, w, i, msg).flows == ProcessReceived(env, w, i, msg).0.flows
    ensures WaitPingRecv(env, w, i, msg).flows == ProcessReceived(env, w, i, msg).0.flows
  {
    hide ProcessReceived, Restarted, Learn;
  }

  lemma StoredStays(w: World, w': World, id: nat, msg: Msg)
    requires Silent(w, w') && id < |w.flows| && Stored(w.flows[id], msg)
    ensures Stored(w'.flows[id], msg) && w'.flows[id].key == w.flows[id].key
  {
  }

  /** To the end of the call of hserver_iter ... */
  lemma GrantIsStored(env: Env, t: int, w: World, i: nat, msg: Msg, id: nat)
    requires Inv(w) && Wf(w) && i < |w.servers| && Still(env, t) && Listens(w.servers[i], t)
    requires msg.version <= PCP_MAX_SUPPORTED_VERSION
    requires Match(w, i, msg).0 == Some(id) && msg.result == RES_SUCCESS
    requires w.flows[id].state == WaitResp || w.flows[id].state == WaitForLifetimeRenew
    ensures var w' := HandleServer(env, t, w, i, IoEvent, msg);
            id < |w'.flows| && Stored(w'.flows[id], Match(w, i, msg).1) && w'.flows[id].key == w.flows[id].key
  {
    ReceivedIsStored(env, w, i, msg, id, t);
    hide Inv, RunServer, PumpLoop, Match, Stored, Silent;
    HandleIo(env, t, w, i, msg);
    var w1 := RunServer(env, w, i, IoEvent, msg);
    PumpIsSilent(env, t, w1, i, msg);
    StoredStays(w1, PumpLoop(env, t, w1, i, msg), id, Match(w, i, msg).1);
  }

  /** ... and of the pulse: whatever else happens in it, to this and to other servers and flows, the
      flow that a success was for has stored what was assigned. */
  lemma PulseStoresGrant(env: Env, t: int, w: World, p: Packet, wait: int, id: nat)
    requires Inv(w) && AtRest(w) && Still(env, t) && PacketOk(p)
    requires var r := Receive(w.servers, p);
             && r.Some? && Listens(w.servers[r.value.0], t) && r.value.1.result == RES_SUCCESS
             && Wf(w) && Match(w, r.value.0, r.value.1).0 == Some(id)
    requires w.flows[id].state == WaitResp || w.flows[id].state == WaitForLifetimeRenew
    ensures var (i, msg) := Receive(w.servers, p).value;
            var w' := Pulse(env, t, w, Some(p), wait).0;
            id < |w'.flows| && Stored(w'.flows[id], Match(w, i, msg).1) && w'.flows[id].key == w.flows[id].key
  {
    var (i, msg) := Receive(w.servers, p).value;
    hide Inv, Receive, HandleServer, Match, Stored, Silent, TimeoutsFrom;
    GrantIsStored(env, t, w, i, msg, id);
    var w1 := Deliver(env, t, w, Some(p));
    assert w1 == HandleServer(env, t, w, i, IoEvent, msg);
    TimeoutsAreSilent(env, t, w1, 0, wait);
    StoredStays(w1, TimeoutsFrom(env, t, w1, 0, wait).0, id, Match(w, i, msg).1);
  }

  /** A flow in flight: what was sent for it, and the packet that answers. */
  ghost predicate InFlight(w: World, i: nat, id: nat, version: byte, ext: Endpoint, o: OptionFields,
                           buf: seq<byte>, epoch: u32, extIp: Ip, serverVersion: byte, p: Packet)
    requires i < |w.servers| && id < |w.flows|
  {
    var f := w.flows[id];
    && (version == 1 || version == 2) && KeyOf(f.key, w.servers[i]) && f.server == i
    && |buf| == PCP_MAX_LEN && InBuffer(buf, Request(version, f.key, f.lifetime, ext, o).value)
    && PacketOk(p) && AnswersRequest(p, w.servers[i], f.key)
    && p.len == |Request(version, f.key, f.lifetime, ext, o).value|
    && p.buf == Reply(buf, p.len, 0, epoch, extIp, serverVersion)
    && ServerByIp(w.servers, 0, p.fromIp, p.fromScope) == Some(i)
  }

  /** From the request to the flow: after the pulse that receives the server's success, the flow has the
      address that the server wrote and the port that was asked for (for a peering the endpoint as asked), its
      lifetime runs from the second of arrival, and its result is success. */
  lemma ReplyIsStored(env: Env, t: int, w: World, i: nat, id: nat, version: byte, ext: Endpoint, o: OptionFields,
                      buf: seq<byte>, epoch: u32, extIp: Ip, serverVersion: byte, p: Packet, wait: int)
    requires Inv(w) && AtRest(w) && Wf(w) && Still(env, t) && i < |w.servers| && Listens(w.servers[i], t)
    requires id in w.order && id < |w.flows| && OldestOfKey(w, id)
    requires w.flows[id].state == WaitResp || w.flows[id].state == WaitForLifetimeRenew
    requires InFlight(w, i, id, version, ext, o, buf, epoch, extIp, serverVersion, p)
    ensures var w' := Pulse(env, t, w, Some(p), wait).0;
            && id < |w'.flows| && w'.flows[id].key == w.flows[id].key
            && w'.flows[id].ext == Assigned(w.flows[id].key.op, ext, extIp)
            && w'.flows[id].recvResult == RES_SUCCESS
            && w'.flows[id].recvLifetime == if p.received + w.flows[id].lifetime <= LONG_MAX
                                            then p.received + w.flows[id].lifetime else LONG_MAX
  {
    hide Request, Reply, AnswersRequest, Receive, OldestOfKey, Inv, Pulse;
    ReplyFindsFlow(w, i, id, version, ext, o, buf, 0, epoch, extIp, serverVersion, p);
    hide Match, InFlight;
    var msg := Receive(w.servers, p).value.1;
    PulseStoresGrant(env, t, w, p, wait, id);
    PcpIsNotCompleted(w, i, msg);
  }

  lemma PcpIsNotCompleted(w: World, i: nat, msg: Msg)
    requires i < |w.servers| && InRange(w.order, |w.flows|) && RefOk(w.servers[i].pingFlow, |w.flows|)
    requires msg.version > 0
    ensures Match(w, i, msg).1 == msg
  {
  }

  // ----- NAT-PMP ---------------------------------------------------------------------

  /** A NAT-PMP announcement gives the server its external address, and counts for the ping flow exactly
      where that is an announcement at version 0. */
  lemma AnnouncementIsKept(env: Env, w: World, i: nat, msg: Msg)
    requires i < |w.servers| && InRange(w.order, |w.flows|) && RefOk(w.servers[i].pingFlow, |w.flows|)
    requires msg.version == 0 && msg.key.op == OP_ANNOUNCE
    ensures var (w1, found) := ProcessReceived(env, w, i, msg);
            var ping := w.servers[i].pingFlow;
            && w1.servers[i].natpmpExt == msg.ext.ip[12..16]
            && (found == if ping.Some? && w.servers[i].version == 0 && w.flows[ping.value].key.op == OP_ANNOUNCE
                         then ping else None)
  {
    hide RunFlow;
  }

  /** A mapping granted by a NAT-PMP server has the port of the reply and, as an IPv4-mapped one, the address
      that the server announced. */
  lemma NatPmpGrantIsStored(env: Env, t: int, w: World, i: nat, msg: Msg, id: nat)
    requires Inv(w) && Wf(w) && i < |w.servers| && Still(env, t) && Listens(w.servers[i], t)
    requires msg.version == 0 && msg.key.op != OP_ANNOUNCE
    requires Match(w, i, msg).0 == Some(id) && msg.result == RES_SUCCESS && w.flows[id].key.op == OP_MAP
    requires w.flows[id].state == WaitResp || w.flows[id].state == WaitForLifetimeRenew
    ensures var w' := HandleServer(env, t, w, i, IoEvent, msg);
            && id < |w'.flows| && w'.flows[id].ext.port == msg.ext.port
            && w'.flows[id].ext.ip == Zeros(10) + [255, 255] + w.servers[i].natpmpExt
  {
    hide Inv, HandleServer, RunServer;
    GrantIsStored(env, t, w, i, msg, id);
  }
}
