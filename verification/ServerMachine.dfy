/** The server state machine of libpcp/src/pcp_event_handler.c as functions on the context.
    Each handler's result contains the state that the handler returns. */
module ServerMachine {
  import opened Types
  import opened FlowMachine
  import opened EpochModel
  import opened FlowHash

  // ----- the context -----------------------------------------------------------------

  ghost predicate Distinct(ids: seq<nat>) {
    forall a, b :: 0 <= a < b < |ids| ==> ids[a] != ids[b]
  }

  ghost predicate InRange(ids: seq<nat>, n: nat) {
    forall j :: 0 <= j < |ids| ==> ids[j] < n
  }

  predicate RefOk(r: Option<nat>, n: nat) { r.Some? ==> r.value < n }

  /** Flow numbers mean flows, and no flow is registered twice. */
  ghost predicate Wf(w: World) {
    && InRange(w.order, |w.flows|)
    && Distinct(w.order)
    && forall i :: 0 <= i < |w.servers| ==>
         RefOk(w.servers[i].pingFlow, |w.flows|) && RefOk(w.servers[i].restartFlow, |w.flows|)
  }

  function SetServer(w: World, i: nat, s: Server): (r: World)
    requires i < |w.servers|
    ensures |r.servers| == |w.servers|
  {
    w.(servers := w.servers[i := s])
  }

  function SetFlow(w: World, id: nat, f: Flow): World
    requires id < |w.flows|
  {
    w.(flows := w.flows[id := f])
  }

  /** gettimeofday: the reading, and the context after it. */
  function Now(env: Env, w: World): int { env(w.calls).now }

  function Looked(w: World): World { w.(calls := w.calls + 1) }

  /** A handler's last act: read the clock into next_timeout and return a state. */
  function GoNow(env: Env, w: World, i: nat, state: ServerState): (r: World)
    requires i < |w.servers|
    ensures |r.servers| == |w.servers|
  {
    SetServer(Looked(w), i, w.servers[i].(nextTimeout := Now(env, w), state := state))
  }

  /** ... or clear next_timeout and return a state. */
  function GoUntimed(w: World, i: nat, state: ServerState): (r: World)
    requires i < |w.servers|
    ensures |r.servers| == |w.servers|
  {
    SetServer(w, i, w.servers[i].(nextTimeout := 0, state := state))
  }

  function GoState(w: World, i: nat, state: ServerState): (r: World)
    requires i < |w.servers|
    ensures |r.servers| == |w.servers|
  {
    SetServer(w, i, w.servers[i].(state := state))
  }

  // ----- flows in the context --------------------------------------------------------

  /** get_pcp_server finds no server for an unused slot or an index out of range. */
  function LinkOf(w: World, id: nat): Link
    requires id < |w.flows|
  {
    var n := w.flows[id].server;
    if n < |w.servers| && w.servers[n].state != Uninitialized
    then Link(true, w.servers[n].restartFlow == Some(id))
    else Link(false, false)
  }

  function FlowEventAt(env: Env, w: World, id: nat, e: FlowEvent, msg: Option<Msg>): World
    requires id < |w.flows| && EventOk(e, msg)
  {
    var (f, k) := RunFlow(env, w.calls, w.flows[id], LinkOf(w, id), e, msg);
    SetFlow(w, id, f).(calls := k)
  }

  /** check_flow_timeout: fire the timer of one flow if it is due, then bring the running
      minimum tout of remaining times up to date; 0 stands for "none yet". */
  function CheckFlowTimeout(env: Env, w: World, id: nat, tout: int): (r: (World, int))
    requires id < |w.flows|
    ensures |r.0.flows| == |w.flows| && r.0.servers == w.servers && r.0.order == w.order
  {
    if w.flows[id].timeout == 0 then (w, tout)
    else
      var now := Now(env, w);
      var w0 := Looked(w);
      var w1 := if w.flows[id].timeout <= now then FlowEventAt(env, w0, id, FlowTimedOut, None) else w0;
      var timeout := w1.flows[id].timeout;
      if timeout == 0 then (w1, tout)
      else
        var left := if timeout <= now then 0 else timeout - now;
        (w1, if tout == 0 || left < tout then left else tout)
  }

  /** The walk of handle_wait_io_timeout over the flows of all servers. */
  function CheckAll(env: Env, w: World, ids: seq<nat>, tout: int): (r: (World, int))
    requires InRange(ids, |w.flows|)
    ensures |r.0.flows| == |w.flows| && r.0.servers == w.servers && r.0.order == w.order
    decreases |ids|
  {
    if ids == [] then (w, tout)
    else
      var (w1, tout1) := CheckFlowTimeout(env, w, ids[0], tout);
      CheckAll(env, w1, ids[1..], tout1)
  }

  /** flow_send_event_iter on one flow. */
  function SendEventTo(env: Env, w: World, i: nat, id: nat, e: FlowEvent): (r: World)
    requires i < |w.servers| && id < |w.flows| && EventOk(e, None)
    ensures |r.flows| == |w.flows| && |r.servers| == |w.servers| && r.order == w.order
  {
    if w.flows[id].server != i then w
    else
      var (w1, tout) := CheckFlowTimeout(env, FlowEventAt(env, w, id, e, None), id, w.servers[i].nextTimeout);
      SetServer(w1, i, w1.servers[i].(nextTimeout := tout))
  }

  /** The walk that sends an event to every flow of server i. */
  function SendEvents(env: Env, w: World, i: nat, ids: seq<nat>, e: FlowEvent): (r: World)
    requires i < |w.servers| && InRange(ids, |w.flows|) && EventOk(e, None)
    ensures |r.flows| == |w.flows| && |r.servers| == |w.servers| && r.order == w.order
    decreases |ids|
  {
    if ids == [] then w
    else SendEvents(env, SendEventTo(env, w, i, ids[0], e), i, ids[1..], e)
  }

  // ----- registration ----------------------------------------------------------------

  /** Where pcp_db_add_flow puts a flow in the order of the walk: after the flows of its own
      and of earlier chains. */
  function InsertByBucket(flows: seq<Flow>, ids: seq<nat>, id: nat, b: nat): (r: seq<nat>)
    requires InRange(ids, |flows|)
    ensures |r| == |ids| + 1
    ensures forall x :: x in r <==> x in ids || x == id
  {
    if ids == [] then [id]
    else if Bucket(flows[ids[0]].key) > b then [id] + ids
    else
      var rest := InsertByBucket(flows, ids[1..], id, b);
      assert ids == [ids[0]] + ids[1..];
      [ids[0]] + rest
  }

  function Register(w: World, f: Flow): World
    requires InRange(w.order, |w.flows|)
  {
    w.(flows := w.flows + [f],
       order := InsertByBucket(w.flows, w.order, |w.flows|, Bucket(f.key)))
  }

  function NewFlow(key: FlowKey, server: nat, state: FlowState, timeout: int, lifetime: u32, ext: Endpoint): Flow {
    Flow(key, server, state, timeout, 0, 0, lifetime, 0, 0, ext, None, NO_HISTORY)
  }

  /** create_natpmp_ann_msg, without its registration. */
  function AnnounceFlow(w: World, i: nat): Flow
    requires i < |w.servers|
  {
    var s := w.servers[i];
    NewFlow(FlowKey(OP_ANNOUNCE, s.src, s.ip, Zeros(4), s.nonce, 0, Zeros(2), Zeros(16), Zeros(2)),
            i, Idle, 0, 0, NO_ENDPOINT)
  }

  // ----- ping ------------------------------------------------------------------------

  /** The flows that get_first_flow_iter accepts. */
  predicate Pingable(f: Flow, i: nat) {
    f.server == i && (f.state == Idle || f.state == WaitForServerInit || f.state == Send)
  }

  function FirstPingable(flows: seq<Flow>, ids: seq<nat>, i: nat): (r: Option<nat>)
    requires InRange(ids, |flows|)
    ensures r.Some? ==> r.value in ids && r.value < |flows| && Pingable(flows[r.value], i)
    ensures r.None? ==> forall id :: id in ids ==> !Pingable(flows[id], i)
  {
    if ids == [] then None
    else if Pingable(flows[ids[0]], i) then Some(ids[0])
    else
      assert ids == [ids[0]] + ids[1..];
      FirstPingable(flows, ids[1..], i)
  }

  ghost function NumPingable(flows: seq<Flow>, ids: seq<nat>, i: nat): nat
    requires InRange(ids, |flows|)
  {
    if ids == [] then 0
    else (if Pingable(flows[ids[0]], i) then 1 else 0) + NumPingable(flows, ids[1..], i)
  }

  /** Making a flow unpingable strictly lowers the number of the rest. */
  lemma {:induction false} FewerPingable(flows: seq<Flow>, ids: seq<nat>, i: nat, id: nat, f: Flow)
    requires InRange(ids, |flows|) && id < |flows| && !Pingable(f, i)
    ensures NumPingable(flows[id := f], ids, i) <= NumPingable(flows, ids, i)
    ensures id in ids && Pingable(flows[id], i)
            ==> NumPingable(flows[id := f], ids, i) < NumPingable(flows, ids, i)
    decreases |ids|
  {
    if ids != [] {
      FewerPingable(flows, ids[1..], i, id, f);
    }
  }

  /** Preparing a flow for a ping: retry_count starts anew, and with it its history. */
  function ResetRetry(f: Flow): Flow {
    f.(retry := 0, hist := f.hist.(resent := 0))
  }

  /** One round of the ping loop: get_ping_msg, and the first message to the flow found. */
  function TryPing(env: Env, w: World, i: nat, id: nat): (r: World)
    requires i < |w.servers| && id < |w.flows|
    ensures |r.flows| == |w.flows| && |r.servers| == |w.servers| && r.order == w.order
    ensures r.servers == w.servers[i := w.servers[i].(pingFlow := Some(id))]
    ensures forall j :: 0 <= j < |w.flows| && j != id ==> r.flows[j] == w.flows[j]
  {
    var w1 := SetServer(w, i, w.servers[i].(pingFlow := Some(id)));
    FlowEventAt(env, SetFlow(w1, id, ResetRetry(w1.flows[id])), id, DoSend, None)
  }

  /** The loop of handle_server_ping. */
  function PingLoop(env: Env, w: World, i: nat): (r: World)
    requires i < |w.servers| && InRange(w.order, |w.flows|)
    ensures |r.flows| == |w.flows| && |r.servers| == |w.servers| && r.order == w.order
    decreases NumPingable(w.flows, w.order, i)
  {
    match FirstPingable(w.flows, w.order, i)
    case None => GoUntimed(SetServer(w, i, w.servers[i].(pingFlow := None)), i, Ping)
    case Some(id) =>
      var w1 := TryPing(env, w, i, id);
      if w1.flows[id].state != Failed then
        SetServer(w1, i, w1.servers[i].(nextTimeout := w1.flows[id].timeout, state := WaitPingResp))
      else
        FewerPingable(w.flows, w.order, i, id, w1.flows[id]);
        assert w1.flows == w.flows[id := w1.flows[id]];
        PingLoop(env, w1, i)
  }

  /** handle_server_ping */
  function ServerPing(env: Env, w: World, i: nat): (r: World)
    requires i < |w.servers| && InRange(w.order, |w.flows|)
    ensures |r.servers| == |w.servers|
  {
    PingLoop(env, SetServer(w, i, w.servers[i].(pingCount := 0)), i)
  }

  /** handle_wait_ping_resp_timeout */
  function WaitPingTimeout(env: Env, w: World, i: nat): (r: World)
    requires i < |w.servers| && RefOk(w.servers[i].pingFlow, |w.flows|)
    ensures |r.servers| == |w.servers|
  {
    var s := w.servers[i].(pingCount := w.servers[i].pingCount + 1);
    var w1 := SetServer(w, i, s);
    if s.pingCount >= PCP_MAX_PING_COUNT then GoNow(env, w1, i, SetNotWorking)
    else if s.pingFlow.None? then GoNow(env, w1, i, Ping)
    else
      var id := s.pingFlow.value;
      var w2 := FlowEventAt(env, w1, id, FlowTimedOut, None);
      if w2.flows[id].state == Failed then GoNow(env, w2, i, SetNotWorking)
      else SetServer(w2, i, w2.servers[i].(nextTimeout := w2.flows[id].timeout, state := WaitPingResp))
  }

  // ----- received messages -----------------------------------------------------------

  /** pcp_get_flow: the first registered flow with this server and key. */
  function Lookup(flows: seq<Flow>, ids: seq<nat>, i: nat, key: FlowKey): (r: Option<nat>)
    requires InRange(ids, |flows|)
    ensures r.Some? ==> r.value in ids && r.value < |flows|
                        && flows[r.value].server == i && flows[r.value].key == key
    ensures r.None? ==> forall id :: id in ids ==> !(flows[id].server == i && flows[id].key == key)
  {
    if ids == [] then None
    else if flows[ids[0]].server == i && flows[ids[0]].key == key then Some(ids[0])
    else
      assert ids == [ids[0]] + ids[1..];
      Lookup(flows, ids[1..], i, key)
  }

  function V4Mapped(a: Word): Ip { Zeros(10) + [255, 255] + a }

  /** The flow that a message is for, the message as completed for NAT-PMP, and the external
      address that a NAT-PMP announcement carries. */
  function Match(w: World, i: nat, msg: Msg): (r: (Option<nat>, Msg, Word))
    requires i < |w.servers| && InRange(w.order, |w.flows|) && RefOk(w.servers[i].pingFlow, |w.flows|)
    ensures RefOk(r.0, |w.flows|) && r.1.result == msg.result
  {
    var s := w.servers[i];
    if msg.version == 0 && msg.key.op == OP_ANNOUNCE then
      (if s.version == 0 && s.pingFlow.Some? && w.flows[s.pingFlow.value].key.op == OP_ANNOUNCE
       then s.pingFlow else None,
       msg, msg.ext.ip[12..16])
    else if msg.version == 0 then
      (Lookup(w.flows, w.order, i, msg.key),
       msg.(ext := msg.ext.(ip := V4Mapped(s.natpmpExt))), s.natpmpExt)
    else
      (Lookup(w.flows, w.order, i, msg.key), msg, s.natpmpExt)
  }

  function Matched(f: Flow, result: u32): Flow {
    f.(hist := f.hist.(matched := true, succeeded := f.hist.succeeded || result == RES_SUCCESS))
  }

  /** server_process_rcvd_pcp_msg */
  function ProcessReceived(env: Env, w: World, i: nat, msg: Msg): (r: (World, Option<nat>))
    requires i < |w.servers| && InRange(w.order, |w.flows|) && RefOk(w.servers[i].pingFlow, |w.flows|)
    ensures |r.0.flows| == |w.flows| && |r.0.servers| == |w.servers| && r.0.order == w.order
    ensures RefOk(r.1, |w.flows|)
  {
    var (found, msg', ext) := Match(w, i, msg);
    var w1 := SetServer(w, i, w.servers[i].(natpmpExt := ext));
    if found.None? then (w1, None)
    else
      var w2 := SetFlow(w1, found.value, Matched(w1.flows[found.value], msg.result));
      (FlowEventAt(env, w2, found.value, Result(msg.result), Some(msg')), found)
  }

  function Spared(f: Flow): Flow { f.(hist := f.hist.(spared := true)) }

  /** History: a message without success announces a restart. */
  function MarkSpared(w: World, msg: Msg, found: Option<nat>): (r: World)
    requires RefOk(found, |w.flows|)
    ensures |r.flows| == |w.flows| && r.order == w.order && r.servers == w.servers && r.calls == w.calls
  {
    if found.Some? && msg.result != RES_SUCCESS then SetFlow(w, found.value, Spared(w.flows[found.value])) else w
  }

  /** Entry into the restart state: remember the flow that brought the news. */
  function BeginRestart(env: Env, w: World, i: nat, msg: Msg, found: Option<nat>): (r: World)
    requires i < |w.servers| && RefOk(found, |w.flows|)
    ensures |r.servers| == |w.servers| && |r.flows| == |w.flows| && r.order == w.order
  {
    var w1 := GoNow(env, MarkSpared(w, msg, found), i, ServerRestart);
    SetServer(w1, i, w1.servers[i].(epoch := msg.epoch, cepoch := msg.received, restartFlow := found))
  }

  /** handle_wait_io_receive_msg */
  function ReceiveMsg(env: Env, w: World, i: nat, msg: Msg): (r: World)
    requires i < |w.servers| && InRange(w.order, |w.flows|) && RefOk(w.servers[i].pingFlow, |w.flows|)
    ensures |r.servers| == |w.servers|
  {
    if msg.result == RES_UNSUPP_VERSION then
      var w1 := GoNow(env, w, i, VersionNegotiation);
      SetServer(w1, i, w1.servers[i].(nextVersion := msg.version))
    else if msg.result == RES_ADDRESS_MISMATCH then GoNow(env, w, i, SetNotWorking)
    else
      var (w1, found) := ProcessReceived(env, w, i, msg);
      var base := Baseline(w1.servers[i].epoch, w1.servers[i].cepoch);
      if Restarted(base, msg.epoch, msg.received) then BeginRestart(env, w1, i, msg, found)
      else
        var learned := Learn(base, msg.epoch, msg.received);
        var w2 := GoNow(env, w1, i, WaitIoCalcNearestTimeout);
        SetServer(w2, i, w2.servers[i].(epoch := learned.epoch, cepoch := learned.clientTime))
  }

  /** handle_wait_ping_resp_recv */
  function WaitPingRecv(env: Env, w: World, i: nat, msg: Msg): (r: World)
    requires i < |w.servers| && InRange(w.order, |w.flows|) && RefOk(w.servers[i].pingFlow, |w.flows|)
    ensures |r.servers| == |w.servers|
  {
    var w1 := ReceiveMsg(env, w, i, msg);
    if w1.servers[i].state == WaitIoCalcNearestTimeout then GoState(w1, i, SendAllMsgs)
    else if w1.servers[i].state == WaitIo then GoState(w1, i, WaitPingResp)
    else w1
  }

  // ----- version negotiation ---------------------------------------------------------

  /** The version tried next; the subtraction is on an unsigned byte. */
  function NextVersion(s: Server): nat {
    if s.nextVersion == s.version then (s.version + 255) % 256 else s.nextVersion
  }

  function AdoptVersion(s: Server): Server {
    s.(version := NextVersion(s), nextVersion := NextVersion(s),
       rounds := s.rounds + 1, raised := s.raised || NextVersion(s) > s.version)
  }

  /** At version 0 the old ping flow goes back to waiting and a NAT-PMP announcement takes its place. */
  function StartNatPmp(w: World, i: nat): (r: World)
    requires i < |w.servers| && InRange(w.order, |w.flows|) && RefOk(w.servers[i].pingFlow, |w.flows|)
    ensures |r.flows| == |w.flows| + 1 && |r.servers| == |w.servers|
    ensures InRange(r.order, |r.flows|)
  {
    var p := w.servers[i].pingFlow;
    var w1 := if p.Some? then SetFlow(w, p.value, w.flows[p.value].(state := WaitForServerInit, timeout := 0)) else w;
    var w2 := Register(w1, AnnounceFlow(w1, i));
    assert forall j :: 0 <= j < |w2.order| ==> w2.order[j] in w2.order;
    SetServer(w2, i, w2.servers[i].(pingFlow := Some(|w.flows|)))
  }

  function NegotiatePing(env: Env, w: World, i: nat, id: nat): (r: World)
    requires i < |w.servers| && id < |w.flows|
    ensures |r.servers| == |w.servers|
  {
    var w1 := FlowEventAt(env, SetFlow(w, id, ResetRetry(w.flows[id]).(resend := 0)), id, DoSend, None);
    if w1.flows[id].state == Failed then GoState(w1, i, SetNotWorking)
    else SetServer(w1, i, w1.servers[i].(nextTimeout := w1.flows[id].timeout, state := WaitPingResp))
  }

  /** handle_version_negotiation */
  function Negotiate(env: Env, w: World, i: nat): (r: World)
    requires i < |w.servers| && InRange(w.order, |w.flows|) && RefOk(w.servers[i].pingFlow, |w.flows|)
    ensures |r.servers| == |w.servers|
  {
    var s := w.servers[i];
    if s.version == 0 then SetServer(w, i, s.(nextVersion := NextVersion(s), state := SetNotWorking))
    else
      var w1 := SetServer(w, i, AdoptVersion(s));
      var w2 := if NextVersion(s) == 0 then StartNatPmp(w1, i) else w1;
      if w2.servers[i].pingFlow.Some? then NegotiatePing(env, w2, i, w2.servers[i].pingFlow.value)
      else
        var found := FirstPingable(w2.flows, w2.order, i);
        var w3 := SetServer(w2, i, w2.servers[i].(pingFlow := found));
        if found.None? then GoUntimed(w3, i, Ping) else NegotiatePing(env, w3, i, found.value)
  }

  // ----- the other handlers ----------------------------------------------------------

  /** handle_send_all_msgs */
  function SendAll(env: Env, w: World, i: nat): (r: World)
    requires i < |w.servers| && InRange(w.order, |w.flows|)
    ensures |r.servers| == |w.servers|
  {
    GoNow(env, SendEvents(env, w, i, w.order, ServerInitialized), i, WaitIoCalcNearestTimeout)
  }

  /** handle_server_restart */
  function HandleRestart(env: Env, w: World, i: nat): (r: World)
    requires i < |w.servers| && InRange(w.order, |w.flows|)
    ensures |r.servers| == |w.servers|
  {
    var w1 := SendEvents(env, w, i, w.order, ServerRestarted);
    GoNow(env, SetServer(w1, i, w1.servers[i].(restartFlow := None)), i, WaitIoCalcNearestTimeout)
  }

  /** handle_wait_io_timeout */
  function WaitIoTimeout(env: Env, w: World, i: nat): (r: World)
    requires i < |w.servers| && InRange(w.order, |w.flows|)
    ensures |r.servers| == |w.servers|
  {
    var (w1, tout) := CheckAll(env, SetServer(w, i, w.servers[i].(nextTimeout := 0)), w.order, 0);
    if tout == 0 then GoUntimed(w1, i, WaitIo)
    else SetServer(Looked(w1), i, w1.servers[i].(nextTimeout := Now(env, w1) + tout, state := WaitIo))
  }

  /** handle_server_set_not_working */
  function FailAll(env: Env, w: World, i: nat): (r: World)
    requires i < |w.servers| && InRange(w.order, |w.flows|)
    ensures |r.servers| == |w.servers|
  {
    var w1 := SendEvents(env, w, i, w.order, SendFailed);
    SetServer(Looked(w1), i,
              w1.servers[i].(nextTimeout := Now(env, w1) + PCP_SERVER_DISCOVERY_RETRY_DELAY * SECOND,
                             state := NotWorking))
  }

  /** handle_server_not_working */
  function HandleNotWorking(env: Env, w: World, i: nat, msg: Msg): (r: World)
    requires i < |w.servers| && InRange(w.order, |w.flows|) && RefOk(w.servers[i].pingFlow, |w.flows|)
    ensures |r.servers| == |w.servers|
  {
    var now := Now(env, w);
    var w0 := Looked(w);
    if now < w.servers[i].nextTimeout then
      if msg.result == RES_UNSUPP_VERSION || msg.result == RES_ADDRESS_MISMATCH then w0
      else
        var (w1, found) := ProcessReceived(env, w0, i, msg);
        BeginRestart(env, w1, i, msg, found)
    else SetServer(w0, i, w0.servers[i].(nextTimeout := now, state := ServerReping))
  }

  /** handle_server_reping */
  function Reping(env: Env, w: World, i: nat): (r: World)
    requires i < |w.servers|
    ensures |r.servers| == |w.servers|
  {
    var w1 := GoNow(env, w, i, Ping);
    SetServer(w1, i, w1.servers[i].(version := PCP_MAX_SUPPORTED_VERSION, rounds := 0, raised := false))
  }

  // ----- dispatch --------------------------------------------------------------------

  datatype ServerHandler =
    | HTerminate | HPing | HWaitPingTimeout | HWaitPingRecv | HNegotiate | HSendAll
    | HReceive | HWaitIoTimeout | HRestart | HReping | HSetNotWorking | HNotWorking
    | HIgnore | HUnexpected

  datatype ServerRow = ServerRow(state: Option<ServerState>, event: Option<ServerEvent>, handler: ServerHandler)

  const SERVER_ROWS := 15

  /** server_sm; None is pss_any or pcpe_any. */
  function ServerTable(n: nat): ServerRow
    requires n < SERVER_ROWS
  {
    match n
    case 0 => ServerRow(None, Some(Terminate), HTerminate)
    case 1 => ServerRow(Some(Ping), None, HPing)
    case 2 => ServerRow(Some(WaitPingResp), Some(Timeout), HWaitPingTimeout)
    case 3 => ServerRow(Some(WaitPingResp), Some(IoEvent), HWaitPingRecv)
    case 4 => ServerRow(Some(VersionNegotiation), None, HNegotiate)
    case 5 => ServerRow(Some(SendAllMsgs), None, HSendAll)
    case 6 => ServerRow(Some(WaitIo), Some(IoEvent), HReceive)
    case 7 => ServerRow(Some(WaitIo), Some(Timeout), HWaitIoTimeout)
    case 8 => ServerRow(Some(WaitIoCalcNearestTimeout), None, HWaitIoTimeout)
    case 9 => ServerRow(Some(ServerRestart), None, HRestart)
    case 10 => ServerRow(Some(ServerReping), None, HReping)
    case 11 => ServerRow(Some(SetNotWorking), None, HSetNotWorking)
    case 12 => ServerRow(Some(NotWorking), None, HNotWorking)
    case 13 => ServerRow(Some(Allocated), None, HIgnore)
    case 14 => ServerRow(None, None, HUnexpected)
  }

  predicate ServerRowMatches(n: nat, s: ServerState, e: ServerEvent)
    requires n < SERVER_ROWS
  {
    var row := ServerTable(n);
    (row.state == Some(s) || row.state == None) && (row.event == Some(e) || row.event == None)
  }

  function ServerHandlerFor(s: ServerState, e: ServerEvent): ServerHandler {
    if e == Terminate then HTerminate
    else match s
    case Uninitialized => HUnexpected
    case Allocated => HIgnore
    case Ping => HPing
    case WaitPingResp => if e == Timeout then HWaitPingTimeout else HWaitPingRecv
    case VersionNegotiation => HNegotiate
    case SendAllMsgs => HSendAll
    case WaitIo => if e == Timeout then HWaitIoTimeout else HReceive
    case WaitIoCalcNearestTimeout => HWaitIoTimeout
    case ServerRestart => HRestart
    case ServerReping => HReping
    case SetNotWorking => HSetNotWorking
    case NotWorking => HNotWorking
  }

  ghost function FirstServerRow(s: ServerState, e: ServerEvent): (n: nat)
    ensures n < SERVER_ROWS && ServerRowMatches(n, s, e) && ServerTable(n).handler == ServerHandlerFor(s, e)
  {
    assert e.Timeout? || e.IoEvent? || e.Terminate?;
    if e == Terminate then 0
    else match s
    case Uninitialized => 14
    case Allocated => 13
    case Ping => 1
    case WaitPingResp => if e == Timeout then 2 else 3
    case VersionNegotiation => 4
    case SendAllMsgs => 5
    case WaitIo => if e == Timeout then 7 else 6
    case WaitIoCalcNearestTimeout => 8
    case ServerRestart => 9
    case ServerReping => 10
    case SetNotWorking => 11
    case NotWorking => 12
  }

  lemma ServerRowAgrees(s: ServerState, e: ServerEvent, n: nat)
    requires n < SERVER_ROWS && ServerRowMatches(n, s, e)
    ensures ServerTable(n).handler == ServerHandlerFor(s, e) || FirstServerRow(s, e) < n
  {
  }

  /** Some row always matches, and the first one gives the handler. */
  lemma ServerTableFirstMatch(s: ServerState, e: ServerEvent, n: nat)
    requires n <= SERVER_ROWS
    requires forall j: nat :: j < n ==> !ServerRowMatches(j, s, e)
    requires n < SERVER_ROWS ==> ServerRowMatches(n, s, e)
    ensures n < SERVER_ROWS && ServerTable(n).handler == ServerHandlerFor(s, e)
  {
    assert ServerRowMatches(FirstServerRow(s, e), s, e);
    if n < SERVER_ROWS {
      ServerRowAgrees(s, e, n);
    }
  }

  /** run_server_state_machine: one handler of server i. msg is the receive record. */
  function RunServer(env: Env, w: World, i: nat, e: ServerEvent, msg: Msg): (r: World)
    requires i < |w.servers| && Wf(w)
    ensures |r.servers| == |w.servers|
  {
    match ServerHandlerFor(w.servers[i].state, e)
    case HTerminate => GoUntimed(w, i, Allocated)
    case HPing => ServerPing(env, w, i)
    case HWaitPingTimeout => WaitPingTimeout(env, w, i)
    case HWaitPingRecv => WaitPingRecv(env, w, i, msg)
    case HNegotiate => Negotiate(env, w, i)
    case HSendAll => SendAll(env, w, i)
    case HReceive => ReceiveMsg(env, w, i, msg)
    case HWaitIoTimeout => WaitIoTimeout(env, w, i)
    case HRestart => HandleRestart(env, w, i)
    case HReping => Reping(env, w, i)
    case HSetNotWorking => FailAll(env, w, i)
    case HNotWorking => HandleNotWorking(env, w, i, msg)
    case HIgnore => GoUntimed(w, i, w.servers[i].state)
    case HUnexpected => GoNow(env, w, i, SetNotWorking)
  }
}
