/** Consequences that span several handlers: version negotiation comes to an end, and exactly when
    a success is reported that no server granted. */
module Consequences {
  import opened Types
  import opened FlowMachine
  import opened Retransmission
  import opened Renewal
  import opened EpochModel
  import opened ServerMachine
  import opened Invariant
  import opened Handlers
  import opened Recovery

  // ----- version negotiation ---------------------------------------------------------

  /** One round: the server answers "unsupported version", and the client reacts. */
  function Round(env: Env, w: World, i: nat, msg: Msg): (r: World)
    requires i < |w.servers| && InRange(w.order, |w.flows|) && RefOk(w.servers[i].pingFlow, |w.flows|)
    requires msg.result == RES_UNSUPP_VERSION
    ensures |r.servers| == |w.servers|
  {
    Negotiate(env, ReceiveMsg(env, w, i, msg), i)
  }

  lemma NegotiateVersion(env: Env, w: World, i: nat)
    requires i < |w.servers| && InRange(w.order, |w.flows|) && RefOk(w.servers[i].pingFlow, |w.flows|)
    ensures var s, s' := w.servers[i], Negotiate(env, w, i).servers[i];
            if s.version == 0 then s'.state == SetNotWorking && s'.version == 0 && s'.rounds == s.rounds
            else s'.version == NextVersion(s) && s'.rounds == s.rounds + 1
                 && s'.raised == (s.raised || NextVersion(s) > s.version)
  {
    hide StartNatPmp, NegotiatePing, FirstPingable;
    var s := w.servers[i];
    if s.version != 0 {
      var w1 := SetServer(w, i, AdoptVersion(s));
      var w2 := if NextVersion(s) == 0 then StartNatPmp(w1, i) else w1;
      NatPmpKeepsVersion(w1, i);
      if w2.servers[i].pingFlow.Some? {
        PingKeepsVersion(env, w2, i, w2.servers[i].pingFlow.value);
      } else {
        var found := FirstPingable(w2.flows, w2.order, i);
        if found.Some? {
          PingKeepsVersion(env, SetServer(w2, i, w2.servers[i].(pingFlow := found)), i, found.value);
        }
      }
    }
  }

  ghost predicate SameVersion(s: Server, s': Server) {
    s'.version == s.version && s'.rounds == s.rounds && s'.raised == s.raised
  }

  lemma NatPmpKeepsVersion(w: World, i: nat)
    requires i < |w.servers| && InRange(w.order, |w.flows|) && RefOk(w.servers[i].pingFlow, |w.flows|)
    ensures SameVersion(w.servers[i], StartNatPmp(w, i).servers[i])
    ensures RefOk(StartNatPmp(w, i).servers[i].pingFlow, |StartNatPmp(w, i).flows|)
  {
    hide InsertByBucket;
  }

  lemma PingKeepsVersion(env: Env, w: World, i: nat, id: nat)
    requires i < |w.servers| && id < |w.flows|
    ensures SameVersion(w.servers[i], NegotiatePing(env, w, i, id).servers[i])
  {
    hide RunFlow;
  }

  /** An answer that names a version not above the current one lowers the version by a round, or,
      at version 0, ends the server; an answer that names a higher one raises it. */
  lemma RoundLowersVersion(env: Env, w: World, i: nat, msg: Msg)
    requires Inv(w) && Wf(w) && i < |w.servers| && msg.result == RES_UNSUPP_VERSION
    requires msg.version <= PCP_MAX_SUPPORTED_VERSION
    ensures var s, s' := w.servers[i], Round(env, w, i, msg).servers[i];
            && (s.version == 0 ==> s'.state == SetNotWorking)
            && (s.version > 0 && msg.version <= s.version ==> s'.version < s.version)
            && (s.version > 0 && msg.version > s.version ==> s'.version == msg.version && s'.raised)
  {
    assert ServerOk(w, i);
    hide Inv, ServerOk, Negotiate, ReceiveMsg, NextVersion;
    UnsupportedReceived(env, w, i, msg);
    var w1 := ReceiveMsg(env, w, i, msg);
    NegotiateVersion(env, w1, i);
    VersionNamed(w1.servers[i]);
  }

  lemma VersionNamed(s: Server)
    requires s.version <= 255
    ensures s.version > 0 ==> NextVersion(s) == if s.nextVersion == s.version then s.version - 1 else s.nextVersion
  {
  }

  lemma UnsupportedReceived(env: Env, w: World, i: nat, msg: Msg)
    requires Wf(w) && i < |w.servers| && msg.result == RES_UNSUPP_VERSION
    ensures var w1 := ReceiveMsg(env, w, i, msg);
            && |w1.servers| == |w.servers| && InRange(w1.order, |w1.flows|)
            && RefOk(w1.servers[i].pingFlow, |w1.flows|)
            && w1.servers[i].version == w.servers[i].version && w1.servers[i].nextVersion == msg.version
            && w1.servers[i].raised == w.servers[i].raised
  {
  }

  /** So while no answer names a higher version, a server that took part in two rounds since its
      version was set is at version 0, and its third round sets it not working. */
  lemma ThirdRoundEnds(env: Env, w: World, i: nat, msg: Msg)
    requires Inv(w) && Wf(w) && i < |w.servers| && msg.result == RES_UNSUPP_VERSION
    requires msg.version <= PCP_MAX_SUPPORTED_VERSION
    requires !w.servers[i].raised && w.servers[i].rounds >= 2
    ensures w.servers[i].version == 0 && w.servers[i].rounds == 2
    ensures Round(env, w, i, msg).servers[i].state == SetNotWorking
  {
    assert ServerOk(w, i);
    hide Round;
    RoundLowersVersion(env, w, i, msg);
  }

  // ----- epochs ----------------------------------------------------------------------

  ghost function BaselineOf(s: Server): Baseline { Baseline(s.epoch, s.cepoch) }

  /** Right after a message was handled, by a working server or by one that was not, the same
      epoch at the same time is not reported as another restart. */
  lemma EpochSettled(env: Env, w: World, i: nat, msg: Msg)
    requires i < |w.servers| && InRange(w.order, |w.flows|) && RefOk(w.servers[i].pingFlow, |w.flows|)
    requires msg.result != RES_UNSUPP_VERSION && msg.result != RES_ADDRESS_MISMATCH
    ensures !Restarted(BaselineOf(ReceiveMsg(env, w, i, msg).servers[i]), msg.epoch, msg.received)
    ensures Now(env, w) < w.servers[i].nextTimeout ==>
              !Restarted(BaselineOf(HandleNotWorking(env, w, i, msg).servers[i]), msg.epoch, msg.received)
  {
    hide RunFlow, Restarted, Match;
    NotReportedTwice(BaselineOf(w.servers[i]), msg.epoch, msg.received);
    SameNowIsNoRestart(Baseline(msg.epoch, msg.received));
  }

  lemma SameNowIsNoRestart(b: Baseline)
    ensures !Restarted(b, b.epoch, b.clientTime)
  {
  }

  // ----- success without a grant -----------------------------------------------------

  /** A flow that announced the restart being handled stays in renewal when its timer fires. */
  lemma SparedStays(env: Env, k: nat, f: Flow)
    requires f.state == WaitForLifetimeRenew
    ensures RunFlow(env, k, f, Link(true, true), FlowTimedOut, None).0.state == WaitForLifetimeRenew
  {
    var link := Link(true, true);
    var (f1, e1) := Handle(HSendRenew, f.(state := SendRenew), link, None, env(k));
    assert RunFlow(env, k, f, link, FlowTimedOut, None) == RunFlow(env, k + 1, f1, link, e1, None);
    if e1 == MsgSent {
      assert HandlerFor(SendRenew, WaitForLifetimeRenew) == None;
    } else {
      hide RunFlow;
      RestartFlowSkipped(env, k + 1, f1, SendFailed, None);
    }
  }

  /** What the restart makes of the flow f that announced it. */
  ghost predicate SparedExactly(f: Flow, f': Flow) {
    && (f'.state == WaitForLifetimeRenew <==> f.state != WaitResp)
    && f'.hist.succeeded == f.hist.succeeded
  }

  /** The chains of the two transitions an announcing flow can take. */
  lemma AnnouncerChains(env: Env, k: nat, f: Flow, t: int)
    requires RetxOk(f) && Still(env, t)
    ensures var link := Link(true, true);
            var (f1, k1) := RunFlow(env, k, f, link, ServerRestarted, None);
            && SparedExactly(f, f1)
            && (f.state == WaitResp ==> !Stale(f1, t))
            && (f.state != WaitResp ==> SparedExactly(f, RunFlow(env, k1 + 1, f1, link, FlowTimedOut, None).0))
  {
    hide RunFlow;
    var link := Link(true, true);
    ChainFrame(env, k, f, link, ServerRestarted, None);
    var (f1, k1) := RunFlow(env, k, f, link, ServerRestarted, None);
    if f.state == WaitResp {
      SendingChain(env, k, f, link, ServerRestarted, None, t);
    } else {
      RestartFlowSkipped(env, k, f, ServerRestarted, None);
      SparedStays(env, k1 + 1, f1);
      ChainFrame(env, k1 + 1, f1, link, FlowTimedOut, None);
    }
  }

  lemma AnnouncerEvent(env: Env, w: World, i: nat, id: nat, t: int)
    requires FlowsOk(w) && i < |w.servers| && id < |w.flows| && w.flows[id].server == i && Still(env, t)
    requires w.servers[i].restartFlow == Some(id) && w.servers[i].state != Uninitialized
    ensures SparedExactly(w.flows[id], SendEventTo(env, w, i, id, ServerRestarted).flows[id])
  {
    assert FlowOk(w.flows[id]) && LinkOf(w, id) == Link(true, true);
    hide RunFlow, FlowsOk, SendEventTo, LinkOf, SparedExactly, Stale;
    EventThenTimer(env, w, i, id, ServerRestarted, t);
    AnnouncerChains(env, w.calls, w.flows[id], t);
  }

  lemma {:induction false} AnnouncerWalk(env: Env, w: World, i: nat, ids: seq<nat>, id: nat, t: int)
    requires FlowsOk(w) && i < |w.servers| && id < |w.flows| && w.flows[id].server == i && Still(env, t)
    requires w.servers[i].restartFlow == Some(id) && w.servers[i].state != Uninitialized
    requires InRange(ids, |w.flows|) && Distinct(ids) && id in ids
    ensures SparedExactly(w.flows[id], SendEvents(env, w, i, ids, ServerRestarted).flows[id])
    decreases |ids|
  {
    hide SendEventTo, FlowsOk, SparedExactly, FlowsEvolved, Affected;
    assert ids == [ids[0]] + ids[1..] && ids[0] !in ids[1..];
    SendEventToKeeps(env, w, i, ids[0], ServerRestarted);
    var w1 := SendEventTo(env, w, i, ids[0], ServerRestarted);
    if ids[0] == id {
      AnnouncerEvent(env, w, i, id, t);
      EventForAll(env, w1, i, ids[1..], ServerRestarted, t);
    } else {
      OthersUntouched(env, w, i, ids[0], ServerRestarted);
      AnnouncerWalk(env, w1, i, ids[1..], id, t);
    }
  }

  /** The flow that announced a restart is among the succeeded ones after it, if and only if it
      was not waiting for a reply. */
  lemma RestartSparesExactly(env: Env, w: World, i: nat, id: nat, t: int)
    requires Inv(w) && i < |w.servers| && Still(env, t) && w.servers[i].restartFlow == Some(id)
    ensures id < |w.flows| && InRange(w.order, |w.flows|)
    ensures id < |HandleRestart(env, w, i).flows|
    ensures SparedExactly(w.flows[id], HandleRestart(env, w, i).flows[id])
  {
    assert ServerOk(w, i);
    hide SendEvents, FlowsOk, SparedExactly, Arranged;
    AnnouncerWalk(env, w, i, w.order, id, t);
  }

  /** The flows that a message with some result leaves waiting for a reply: those that waited, when
      no row of the table is for the result; and granted flows that the result makes renew, when the
      renewal fails, or comes with at most a second left, and the plain message in its place goes out. */
  predicate LeftWaiting(env: Env, k: nat, f: Flow, code: u32, t: int) {
    || (f.state == WaitResp && NextState(WaitResp, Result(code)) == None)
    || (f.state == WaitForLifetimeRenew && IsShortLived(code)
        && (!env(k).ok || 0 <= Left(f.recvLifetime, t) <= 1) && env(k + 1).ok)
  }

  lemma ResultTransition(env: Env, k: nat, f: Flow, code: u32, msg: Msg, t: int)
    requires FlowOk(f) && Still(env, t)
    ensures RunFlow(env, k, f, Link(true, false), Result(code), Some(msg)).0.state == WaitResp
            <==> LeftWaiting(env, k, f, code, t)
  {
    if f.state == WaitForLifetimeRenew && IsShortLived(code) {
      RenewalForced(env, k, f, code, msg, t);
    } else {
      OneTransition(env, k, f, code, msg);
    }
  }

  lemma OneTransition(env: Env, k: nat, f: Flow, code: u32, msg: Msg)
    requires f.state != SendRenew && !(f.state == WaitForLifetimeRenew && IsShortLived(code))
    ensures var next := NextState(f.state, Result(code));
            RunFlow(env, k, f, Link(true, false), Result(code), Some(msg)).0.state
            == if next.Some? then next.value else f.state
  {
  }

  lemma RenewalForced(env: Env, k: nat, f: Flow, code: u32, msg: Msg, t: int)
    requires f.state == WaitForLifetimeRenew && IsShortLived(code) && Still(env, t)
    ensures RunFlow(env, k, f, Link(true, false), Result(code), Some(msg)).0.state == WaitResp
            <==> (!env(k).ok || 0 <= Left(f.recvLifetime, t) <= 1) && env(k + 1).ok
  {
    var link, m := Link(true, false), Some(msg);
    var (f1, e1) := Handle(HSendRenew, f.(state := SendRenew), link, m, env(k));
    assert RunFlow(env, k, f, link, Result(code), m) == RunFlow(env, k + 1, f1, link, e1, m);
    if e1 == MsgSent {
      assert HandlerFor(SendRenew, WaitForLifetimeRenew) == None;
    } else {
      var (f2, e2) := Handle(HSend, f1.(state := Send), link, m, env(k + 1));
      assert RunFlow(env, k + 1, f1, link, SendFailed, m) == RunFlow(env, k + 2, f2, link, e2, m);
      hide RunFlow;
      if e2 == MsgSent {
        SentChain(env, k + 2, f2, link, m, t);
      } else {
        FailedChain(env, k + 2, f2, link, m);
      }
    }
  }

  lemma ProcessedState(env: Env, w: World, i: nat, msg: Msg, id: nat, t: int)
    requires Inv(w) && Wf(w) && i < |w.servers| && Still(env, t) && w.servers[i].state != ServerRestart
    requires Match(w, i, msg).0 == Some(id)
    ensures var (w1, found) := ProcessReceived(env, w, i, msg);
            var f, f1 := w.flows[id], w1.flows[id];
            && found == Some(id)
            && (f1.state == WaitResp <==> LeftWaiting(env, w.calls, f, msg.result, t))
            && f1.hist.succeeded == (f.hist.succeeded || msg.result == RES_SUCCESS)
  {
    assert ServerOk(w, i);
    var (found, msg', ext) := Match(w, i, msg);
    assert w.flows[id].server == i && FlowOk(w.flows[id]);
    hide Match, Lookup, Inv, Wf, ServerOk;
    var w1 := SetServer(w, i, w.servers[i].(natpmpExt := ext));
    var w2 := SetFlow(w1, id, Matched(w1.flows[id], msg.result));
    assert LinkOf(w2, id) == Link(true, false);
    hide RunFlow, LinkOf;
    ResultTransition(env, w.calls, w2.flows[id], msg.result, msg', t);
    EventKeepsHistory(env, w2, id, Result(msg.result), Some(msg'));
  }

  /** Where a message that announces a restart leaves the flow it is matched to. */
  ghost predicate AnnouncerOutcome(env: Env, k: nat, f: Flow, code: u32, f': Flow, t: int) {
    && (f'.state == WaitForLifetimeRenew <==> !LeftWaiting(env, k, f, code, t))
    && f'.hist.succeeded == (f.hist.succeeded || code == RES_SUCCESS)
  }

  lemma AnnouncementFollowed(env: Env, w: World, w1: World, i: nat, msg: Msg, id: nat, t: int)
    requires Inv(w) && Wf(w) && i < |w.servers| && Still(env, t)
    requires Match(w, i, msg).0 == Some(id) && w.servers[i].state != ServerRestart
    requires w1 == BeginRestart(env, ProcessReceived(env, w, i, msg).0, i, msg, Some(id)) && Inv(w1)
    ensures id < |HandleRestart(env, w1, i).flows|
    ensures AnnouncerOutcome(env, w.calls, w.flows[id], msg.result, HandleRestart(env, w1, i).flows[id], t)
  {
    assert InRange(w1.order, |w1.flows|) && w1.servers[i].restartFlow == Some(id);
    hide ProcessReceived, HandleRestart, Inv, Match;
    ProcessedState(env, w, i, msg, id, t);
    var w2 := ProcessReceived(env, w, i, msg).0;
    assert w1.flows[id].state == w2.flows[id].state && w1.flows[id].hist.succeeded == w2.flows[id].hist.succeeded;
    hide BeginRestart;
    RestartSparesExactly(env, w1, i, id, t);
  }

  /** A reply that announces a restart through its epoch, and what the restart makes of the flow
      it is matched to, whatever other flows there are: unless the flow waited for a reply and
      the result is one that the table does not know, it is among the succeeded ones, in whatever
      state it was, with the one exception for a granted flow that LeftWaiting states. A success was
      matched to it only if there had been one, or this result is one. So, for a flow without a
      success, success is reported and not granted exactly for an error result and outside
      LeftWaiting. */
  lemma ErrorAtRestartReportedAsSuccess(env: Env, w: World, i: nat, msg: Msg, id: nat, t: int)
    requires Inv(w) && Wf(w) && i < |w.servers| && Still(env, t)
    requires w.servers[i].state == WaitIo || w.servers[i].state == WaitPingResp
    requires msg.result != RES_UNSUPP_VERSION && msg.result != RES_ADDRESS_MISMATCH
    requires msg.version <= PCP_MAX_SUPPORTED_VERSION
    requires Match(w, i, msg).0 == Some(id)
    requires Restarted(BaselineOf(w.servers[i]), msg.epoch, msg.received)
    ensures var w1 := ReceiveMsg(env, w, i, msg);
            && w1.servers[i].state == ServerRestart && InRange(w1.order, |w1.flows|)
            && id < |HandleRestart(env, w1, i).flows|
            && AnnouncerOutcome(env, w.calls, w.flows[id], msg.result, HandleRestart(env, w1, i).flows[id], t)
  {
    ReceiveMsgKeeps(env, w, i, msg);
    StepKeepsInv(w, ReceiveMsg(env, w, i, msg), i);
    hide Restarted, Match, HandleRestart, AnnouncerOutcome, Inv;
    AnnouncedThere(env, w, i, msg, id);
    AnnouncementFollowed(env, w, ReceiveMsg(env, w, i, msg), i, msg, id, t);
  }

  lemma AnnouncedThere(env: Env, w: World, i: nat, msg: Msg, id: nat)
    requires i < |w.servers| && InRange(w.order, |w.flows|) && RefOk(w.servers[i].pingFlow, |w.flows|)
    requires msg.result != RES_UNSUPP_VERSION && msg.result != RES_ADDRESS_MISMATCH
    requires Match(w, i, msg).0 == Some(id)
    ensures var (w1, found) := ProcessReceived(env, w, i, msg);
            && found == Some(id)
            && (Restarted(BaselineOf(w.servers[i]), msg.epoch, msg.received)
                ==> ReceiveMsg(env, w, i, msg) == BeginRestart(env, w1, i, msg, found))
  {
    hide RunFlow, Restarted, Match, BeginRestart;
  }

  /** The same for a server that is not working: there every reply announces a restart. */
  lemma ErrorRevivesAsSuccess(env: Env, w: World, i: nat, msg: Msg, id: nat, t: int)
    requires Inv(w) && Wf(w) && i < |w.servers| && Still(env, t)
    requires w.servers[i].state == NotWorking && t < w.servers[i].nextTimeout
    requires msg.result != RES_UNSUPP_VERSION && msg.result != RES_ADDRESS_MISMATCH
    requires Match(w, i, msg).0 == Some(id)
    ensures var w1 := HandleNotWorking(env, w, i, msg);
            && w1.servers[i].state == ServerRestart && InRange(w1.order, |w1.flows|)
            && id < |HandleRestart(env, w1, i).flows|
            && AnnouncerOutcome(env, w.calls + 1, w.flows[id], msg.result, HandleRestart(env, w1, i).flows[id], t)
  {
    hide Match, HandleRestart, AnnouncerOutcome, Inv, HandleNotWorking, ProcessReceived, BeginRestart;
    NotWorkingSound(env, w, i, msg);
    RevivedThere(env, w, i, msg, id);
    AnnouncementFollowed(env, Looked(w), HandleNotWorking(env, w, i, msg), i, msg, id, t);
  }

  lemma NotWorkingSound(env: Env, w: World, i: nat, msg: Msg)
    requires Inv(w) && Wf(w) && i < |w.servers| && w.servers[i].state == NotWorking
    ensures Inv(Looked(w)) && Wf(Looked(w))
    ensures Inv(HandleNotWorking(env, w, i, msg))
    ensures InRange(HandleNotWorking(env, w, i, msg).order, |HandleNotWorking(env, w, i, msg).flows|)
  {
    assert ServerOk(w, i);
    var w0 := Looked(w);
    SetServerStep(w, i, w.servers[i], w0);
    StepKeepsInv(w, w0, i);
    InvIsWf(w0);
    hide HandleNotWorking, StepOk;
    HandleNotWorkingKeeps(env, w, i, msg);
    StepKeepsInv(w, HandleNotWorking(env, w, i, msg), i);
    InvIsWf(HandleNotWorking(env, w, i, msg));
  }

  lemma RevivedThere(env: Env, w: World, i: nat, msg: Msg, id: nat)
    requires Wf(w) && Wf(Looked(w)) && i < |w.servers| && Now(env, w) < w.servers[i].nextTimeout
    requires msg.result != RES_UNSUPP_VERSION && msg.result != RES_ADDRESS_MISMATCH
    requires Match(w, i, msg).0 == Some(id)
    ensures Match(Looked(w), i, msg).0 == Some(id)
    ensures var w1 := HandleNotWorking(env, w, i, msg);
            && w1 == BeginRestart(env, ProcessReceived(env, Looked(w), i, msg).0, i, msg, Some(id))
            && w1.servers[i].state == ServerRestart
  {
    assert Match(Looked(w), i, msg) == Match(w, i, msg);
    hide Match, RunFlow;
  }
}
