/** Whole runs of the library: any sequence of API calls and pulses, each under a clock held
    still, starting from an empty context. */
module Runs {
  import opened Types
  import opened FlowMachine
  import opened Retransmission
  import opened FlowHash
  import opened ServerMachine
  import opened Invariant
  import opened Handlers
  import opened Recovery
  import opened Pump
  import opened Message
  import opened Response
  import opened Api
  import EpochModel

  // ----- pcp_pulse -------------------------------------------------------------------

  /** The receive record of a pulse without a message. No timeout handler reads it: a server
      that is not working is due only once its delay is over. */
  const NO_MSG := Msg(0, 0, 0, 0, 0, EmptyKey(0), NO_ENDPOINT)

  /** The wait that a pulse returns is brought up to date with one server's timer. */
  function WaitWith(wait: int, s: Server, t: int): int {
    if s.nextTimeout == 0 then wait
    else
      var left := s.nextTimeout - t;
      if wait == 0 || left < wait then left else wait
  }

  /** The walk over the servers from slot n on. */
  ghost function TimeoutsFrom(env: Env, t: int, w: World, n: nat, wait: int): (r: (World, int))
    requires Inv(w) && AtRest(w) && Still(env, t) && n <= |w.servers|
    ensures Inv(r.0) && AtRest(r.0) && |r.0.servers| == |w.servers|
    decreases |w.servers| - n
  {
    if n == |w.servers| then (w, wait)
    else
      HandleServerSettles(env, t, w, n, Timeout, NO_MSG);
      var w1 := HandleServer(env, t, w, n, Timeout, NO_MSG);
      SettledIsAtRest(w, w1, n, t);
      TimeoutsFrom(env, t, w1, n + 1, WaitWith(wait, w1.servers[n], t))
  }

  lemma SettledIsAtRest(w: World, w': World, i: nat, t: int)
    requires AtRest(w) && Settled(w, w', i, t)
    ensures AtRest(w')
  {
  }

  lemma RestOf(w: World, n: nat)
    requires AtRest(w) && n < |w.servers|
    ensures !Transient(w.servers[n].state)
  {
  }

  /** One server of the walk. */
  lemma TimeoutsUnfold(env: Env, t: int, w: World, n: nat, wait: int)
    requires Inv(w) && AtRest(w) && Still(env, t) && n <= |w.servers|
    ensures n == |w.servers| ==> TimeoutsFrom(env, t, w, n, wait) == (w, wait)
    ensures n < |w.servers| ==>
              var w1 := HandleServer(env, t, w, n, Timeout, NO_MSG);
              && |w1.servers| == |w.servers| && Inv(w1) && AtRest(w1)
              && TimeoutsFrom(env, t, w, n, wait) == TimeoutsFrom(env, t, w1, n + 1, WaitWith(wait, w1.servers[n], t))
  {
    if n < |w.servers| {
      HandleServerSettles(env, t, w, n, Timeout, NO_MSG);
      hide HandleServer;
      SettledIsAtRest(w, HandleServer(env, t, w, n, Timeout, NO_MSG), n, t);
    }
  }

  /** The first part of pcp_pulse: a message, if there is one and it makes sense. */
  ghost function Deliver(env: Env, t: int, w: World, p: Option<Packet>): (r: World)
    requires Inv(w) && AtRest(w) && Still(env, t)
    requires p.Some? ==> PacketOk(p.value)
    ensures Inv(r) && AtRest(r) && |r.servers| == |w.servers|
  {
    if p.None? then w
    else match Receive(w.servers, p.value)
      case None => w
      case Some((i, msg)) =>
        HandleServerSettles(env, t, w, i, IoEvent, msg);
        SettledIsAtRest(w, HandleServer(env, t, w, i, IoEvent, msg), i, t);
        HandleServer(env, t, w, i, IoEvent, msg)
  }

  /** pcp_pulse: the context after it, and the time to wait, from the caller's own on. */
  ghost function Pulse(env: Env, t: int, w: World, p: Option<Packet>, wait: int): (World, int)
    requires Inv(w) && AtRest(w) && Still(env, t)
    requires p.Some? ==> PacketOk(p.value)
  {
    TimeoutsFrom(env, t, Deliver(env, t, w, p), 0, wait)
  }

  function ServerLeft(s: Server, t: int): int { if s.nextTimeout == 0 then 0 else s.nextTimeout - t }

  /** The timer is off or ahead. */
  predicate Ahead(s: Server, t: int) { s.nextTimeout == 0 || s.nextTimeout > t }

  /** The smallest remaining time of the armed servers from slot n on, 0 without one. */
  function NearestServer(servers: seq<Server>, n: nat, t: int): int
    requires n <= |servers|
    decreases |servers| - n
  {
    if n == |servers| then 0 else MinLeft(ServerLeft(servers[n], t), NearestServer(servers, n + 1, t))
  }

  lemma WaitStep(wait: int, s: Server, rest: int, t: int)
    requires Ahead(s, t) && wait >= 0 && rest >= 0
    ensures MinLeft(WaitWith(wait, s, t), rest) == MinLeft(wait, MinLeft(ServerLeft(s, t), rest))
    ensures WaitWith(wait, s, t) >= 0 && MinLeft(ServerLeft(s, t), rest) >= 0
  {
  }

  lemma {:induction false} TimeoutsWait(env: Env, t: int, w: World, n: nat, wait: int)
    requires Inv(w) && AtRest(w) && Still(env, t) && n <= |w.servers| && wait >= 0
    ensures var (w', wait') := TimeoutsFrom(env, t, w, n, wait);
            && w'.servers[..n] == w.servers[..n]
            && (forall j :: n <= j < |w'.servers| ==> Ahead(w'.servers[j], t))
            && wait' == MinLeft(wait, NearestServer(w'.servers, n, t))
            && NearestServer(w'.servers, n, t) >= 0
    decreases |w.servers| - n
  {
    if n < |w.servers| {
      var w1 := TimeoutsStep(env, t, w, n, wait);
      hide TimeoutsFrom, Inv, AtRest, WaitWith, MinLeft, Ahead;
      WaitStep(wait, w1.servers[n], 0, t);
      var wait1 := WaitWith(wait, w1.servers[n], t);
      TimeoutsWait(env, t, w1, n + 1, wait1);
      var w' := TimeoutsFrom(env, t, w1, n + 1, wait1).0;
      assert w'.servers[n] == w'.servers[..n + 1][n] == w1.servers[..n + 1][n] == w1.servers[n];
      assert w'.servers[..n] == w'.servers[..n + 1][..n] == w1.servers[..n + 1][..n] == w1.servers[..n];
      WaitStep(wait, w1.servers[n], NearestServer(w'.servers, n + 1, t), t);
    }
  }

  lemma TimeoutsStep(env: Env, t: int, w: World, n: nat, wait: int) returns (w1: World)
    requires Inv(w) && AtRest(w) && Still(env, t) && n < |w.servers|
    ensures Inv(w1) && AtRest(w1) && |w1.servers| == |w.servers|
    ensures Ahead(w1.servers[n], t) && w1.servers[..n] == w.servers[..n]
    ensures TimeoutsFrom(env, t, w, n, wait) == TimeoutsFrom(env, t, w1, n + 1, WaitWith(wait, w1.servers[n], t))
  {
    HandleServerSettles(env, t, w, n, Timeout, NO_MSG);
    w1 := HandleServer(env, t, w, n, Timeout, NO_MSG);
    hide HandleServer;
    SettledIsAtRest(w, w1, n, t);
  }

  /** A pulse returns the smallest of the caller's non-zero wait and the remaining times of all
      servers whose timer is armed, and all of these lie ahead. */
  lemma PulseWait(env: Env, t: int, w: World, p: Option<Packet>, wait: int)
    requires Inv(w) && AtRest(w) && Still(env, t) && wait >= 0
    requires p.Some? ==> PacketOk(p.value)
    ensures var (w', wait') := Pulse(env, t, w, p, wait);
            && wait' == MinLeft(wait, NearestServer(w'.servers, 0, t))
            && (forall j :: 0 <= j < |w'.servers| ==> Ahead(w'.servers[j], t))
  {
    TimeoutsWait(env, t, Deliver(env, t, w, p), 0, wait);
  }

  // ----- the other calls -------------------------------------------------------------

  /** pcp_flow_updated */
  function Updated(w: World, id: nat, now: int): World
    requires id < |w.flows|
  {
    var f := w.flows[id];
    var w1 := if f.server < |w.servers| && w.servers[f.server].state != Uninitialized
              then SetServer(w, f.server, w.servers[f.server].(nextTimeout := now)) else w;
    var keep := f.state == WaitForServerInit || f.state == Idle || f.state == Failed;
    SetFlow(w1, id, f.(timeout := now, state := if keep then f.state else Send))
  }

  /** pcp_flow_set_lifetime on one flow; the other setters differ in the field they write. */
  function SetLifetime(w: World, id: nat, lifetime: u32, now: int): World
    requires id < |w.flows|
  {
    Updated(SetFlow(w, id, w.flows[id].(lifetime := lifetime)), id, now)
  }

  /** pcp_close_flow_intern */
  function Close(w: World, id: nat, now: int): World
    requires id < |w.flows|
  {
    var s := w.flows[id].state;
    if s == WaitForServerInit || s == Idle || s == Failed
    then SetFlow(w, id, w.flows[id].(state := Failed))
    else SetLifetime(w, id, 0, now)
  }

  datatype ServerArgs = ServerArgs(ip: Ip, scope: Word, src: Ip, nonce: Nonce, version: nat)

  function FreshServer(a: ServerArgs): Server {
    Server(Ping, 0, 0, None, None, a.version, 0, EpochModel.NO_EPOCH, 0, Zeros(4),
           a.ip, if IsLinkLocal(a.ip) then a.scope else Zeros(4), a.src, a.nonce, 0, false)
  }

  /** pcp_add_server, where its address can be used: a new slot, or the known server again. */
  function AddServer(w: World, a: ServerArgs): World {
    if a.version > PCP_MAX_SUPPORTED_VERSION then w
    else match ServerByIp(w.servers, 0, a.ip, a.scope)
      case None => w.(servers := w.servers + [FreshServer(a)])
      case Some(i) =>
        SetServer(w, i, w.servers[i].(version := a.version, state := Ping, nextTimeout := 0, src := a.src,
                                      rounds := 0, raised := false))
  }

  /** A server that the application adds is found under its address from then on: it is to be pinged, has
      the version and source address given, and no other slot changed. Of the slots that were there the first
      one known under the address is taken, and keeps its flows, its nonce and its epoch. A version that
      the client does not speak changes nothing. */
  lemma AddedServerIsFound(w: World, a: ServerArgs)
    requires forall j :: 0 <= j < |w.servers| ==> w.servers[j].state != Uninitialized
    ensures var w' := AddServer(w, a);
            if a.version > 2 then w' == w
            else
              var i := ServerByIp(w'.servers, 0, a.ip, a.scope);
              && w'.flows == w.flows && w'.order == w.order
              && i.Some? && |w.servers| <= |w'.servers|
              && (i.value < |w.servers| ==> i == ServerByIp(w.servers, 0, a.ip, a.scope) && |w'.servers| == |w.servers|)
              && (i.value >= |w.servers| ==> i.value == |w.servers| && |w'.servers| == |w.servers| + 1
                                             && w'.servers[i.value].nonce == a.nonce && w'.servers[i.value].epoch == 0xFFFF_FFFF)
              && (forall j :: 0 <= j < |w.servers| && j != i.value ==> w'.servers[j] == w.servers[j])
              && var s := w'.servers[i.value];
                 && s.state == Ping && s.nextTimeout == 0 && s.version == a.version && s.src == a.src
                 && (i.value < |w.servers| ==>
                       var s0 := w.servers[i.value];
                       s.nonce == s0.nonce && s.epoch == s0.epoch && s.cepoch == s0.cepoch && s.pingFlow == s0.pingFlow
                       && s.scope == s0.scope)
  {
    hide IsLinkLocal;
    var w' := AddServer(w, a);
    if a.version <= PCP_MAX_SUPPORTED_VERSION {
      var i := ServerByIp(w.servers, 0, a.ip, a.scope);
      var j := ServerByIp(w'.servers, 0, a.ip, a.scope);
      assert if i.Some? then ServerMatches(w'.servers[i.value], a.ip, a.scope)
             else ServerMatches(w'.servers[|w.servers|], a.ip, a.scope);
      assert j.Some?;
    }
  }

  /** Handles of flows that the application may pass are those of registered flows. */
  datatype Op =
    | DoPulse(packet: Option<Packet>, wait: int)
    | DoAddServer(server: ServerArgs)
    | DoNewFlow(args: NewFlowArgs, alloc: nat -> bool)
    | DoSetLifetime(id: nat, lifetime: u32)
    | DoClose(closed: nat)
    | DoDelete(deleted: nat)

  /** One call, at the time t, in its outside world. */
  datatype Call = Call(env: Env, t: int, op: Op)

  ghost predicate CallOk(w: World, c: Call) {
    && Still(c.env, c.t)
    && match c.op
       case DoPulse(p, wait) => wait >= 0 && (p.Some? ==> PacketOk(p.value))
       case DoAddServer(a) => true
       case DoNewFlow(a, alloc) => a.now == c.t
       case DoSetLifetime(id, _) => id in w.order
       case DoClose(id) => id in w.order
       case DoDelete(id) => id in w.order
  }

  ghost function Apply(w: World, c: Call): World
    requires Inv(w) && AtRest(w) && CallOk(w, c)
  {
    match c.op
    case DoPulse(p, wait) => Pulse(c.env, c.t, w, p, wait).0
    case DoAddServer(a) => AddServer(w, a)
    case DoNewFlow(a, alloc) => CreateFlow(w, a, alloc).world
    case DoSetLifetime(id, lifetime) => SetLifetime(w, id, lifetime, c.t)
    case DoClose(id) => Close(w, id, c.t)
    case DoDelete(id) => DeleteFlow(w, id)
  }

  // ----- every call keeps the invariant ----------------------------------------------

  /** A change of one flow and of timers that leaves every flow fit. */
  lemma TouchKeeps(w: World, w': World)
    requires Inv(w) && AtRest(w)
    requires FlowsEvolved(w, w') && |w'.flows| == |w.flows| && w'.order == w.order
    requires SameButTimers(w.servers, w'.servers)
    requires forall id :: 0 <= id < |w.flows| ==> FlowOk(w'.flows[id])
    ensures Inv(w') && AtRest(w')
  {
    ArrangedKept(w, w');
    hide Arranged;
    forall j | 0 <= j < |w'.servers|
      ensures ServerOk(w', j) && w'.servers[j].restartFlow == None
    {
      assert ServerOk(w, j);
    }
  }

  lemma SetLifetimeKeeps(w: World, id: nat, lifetime: u32, now: int)
    requires Inv(w) && AtRest(w) && id < |w.flows|
    ensures Inv(SetLifetime(w, id, lifetime, now)) && AtRest(SetLifetime(w, id, lifetime, now))
  {
    assert FlowOk(w.flows[id]);
    var w' := SetLifetime(w, id, lifetime, now);
    assert FlowOk(w'.flows[id]);
    hide RetxOk, FlowOk;
    assert SameButTimers(w.servers, w'.servers);
    TouchKeeps(w, w');
  }

  lemma CloseKeeps(w: World, id: nat, now: int)
    requires Inv(w) && AtRest(w) && id < |w.flows|
    ensures Inv(Close(w, id, now)) && AtRest(Close(w, id, now))
  {
    assert FlowOk(w.flows[id]);
    var s := w.flows[id].state;
    if s == WaitForServerInit || s == Idle || s == Failed {
      TouchKeeps(w, Close(w, id, now));
    } else {
      SetLifetimeKeeps(w, id, 0, now);
    }
  }

  lemma AddServerKeeps(w: World, a: ServerArgs)
    requires Inv(w) && AtRest(w)
    ensures Inv(AddServer(w, a)) && AtRest(AddServer(w, a))
  {
    var w' := AddServer(w, a);
    hide ServerByIp;
    forall j | 0 <= j < |w'.servers|
      ensures ServerOk(w', j) && !Transient(w'.servers[j].state) && w'.servers[j].restartFlow == None
    {
      if j < |w.servers| {
        assert ServerOk(w, j);
      }
    }
  }

  lemma OrderWithout(w: World, id: nat)
    requires Inv(w)
    ensures var ids := Without(w.order, {id});
            InRange(ids, |w.flows|) && Distinct(ids) && Arranged(w.flows, ids)
  {
    hide Distinct, Ordered, ChildrenForward;
    WithoutDistinct(w.order, {id});
    WithoutOrdered(w.flows, w.order, {id});
    var ids := Without(w.order, {id});
    assert forall j :: 0 <= j < |ids| ==> ids[j] in ids;
  }

  /** Deletion leaves no server with a reference to the flow. */
  lemma DeleteKeeps(w: World, id: nat)
    requires Inv(w) && AtRest(w) && id < |w.flows|
    ensures var w' := DeleteFlow(w, id);
            && Inv(w') && AtRest(w') && id !in w'.order
            && forall j :: 0 <= j < |w'.servers| ==> w'.servers[j].pingFlow != Some(id)
                                                      && w'.servers[j].restartFlow != Some(id)
  {
    var w' := DeleteFlow(w, id);
    OrderWithout(w, id);
    forall j | 0 <= j < |w'.servers|
      ensures ServerOk(w', j) && !Transient(w'.servers[j].state) && w'.servers[j].restartFlow == None
      ensures w'.servers[j].pingFlow != Some(id)
    {
      ServerLetsGo(w, id, j);
    }
    hide Without, Arranged, FlowOk, Distinct, ServerOk;
  }

  lemma ServerLetsGo(w: World, id: nat, j: nat)
    requires Inv(w) && AtRest(w) && id < |w.flows| && j < |w.servers|
    ensures var w' := DeleteFlow(w, id);
            && |w'.servers| == |w.servers|
            && ServerOk(w', j) && !Transient(w'.servers[j].state) && w'.servers[j].restartFlow == None
            && w'.servers[j].pingFlow != Some(id)
  {
    assert ServerOk(w, j) && !Transient(w.servers[j].state);
    hide Without, Arranged, FlowsOk, Distinct, Inv, AtRest;
  }

  lemma {:induction false} DeleteChainKeeps(w: World, ids: seq<nat>)
    requires Inv(w) && AtRest(w) && InRange(ids, |w.flows|)
    ensures Inv(DeleteChain(w, ids)) && AtRest(DeleteChain(w, ids))
    decreases |ids|
  {
    if ids != [] {
      DeleteKeeps(w, ids[0]);
      DeleteChainKeeps(DeleteFlow(w, ids[0]), ids[1..]);
    }
  }

  /** Linking a flow to a next child. */
  lemma LinkChildKeeps(w: World, prev: Option<nat>, next: nat)
    requires Inv(w) && AtRest(w) && RefOk(prev, |w.flows|) && next < |w.flows|
    requires prev.Some? ==> prev.value < next
    ensures Inv(LinkChild(w, prev, next)) && AtRest(LinkChild(w, prev, next))
  {
    var w0 := LinkChild(w, prev, next);
    forall j | 0 <= j < |w0.servers|
      ensures ServerOk(w0, j) && w0.servers[j].restartFlow == None
    {
      assert ServerOk(w, j);
    }
    LinkArranged(w, prev, next);
    hide Arranged;
  }

  lemma LinkArranged(w: World, prev: Option<nat>, next: nat)
    requires Inv(w) && RefOk(prev, |w.flows|) && next < |w.flows| && (prev.Some? ==> prev.value < next)
    ensures Arranged(LinkChild(w, prev, next).flows, w.order)
  {
    hide Bucket;
    var w0 := LinkChild(w, prev, next);
    forall a, b | 0 <= a < b < |w.order|
      ensures Precedes(w0.flows, w.order[a], w.order[b])
    {
      assert Precedes(w.flows, w.order[a], w.order[b]);
    }
  }

  lemma AddChildKeeps(w: World, n: nat, a: NewFlowArgs, prev: Option<nat>)
    requires Inv(w) && AtRest(w) && n < |w.servers| && RefOk(prev, |w.flows|)
    ensures Inv(AddChild(w, n, a, prev)) && AtRest(AddChild(w, n, a, prev))
  {
    assert ServerOk(w, n);
    var w0 := SetServer(w, n, w.servers[n].(nextTimeout := a.now));
    SetServerStep(w, n, w0.servers[n], w0);
    StepKeepsInv(w, w0, n);
    var f := ChildFlow(a, w.servers[n], n);
    FreshFlowIsFit(a, w.servers[n], n);
    RegisterKeeps(w0, f);
    hide Register, ChildFlow, FlowOk;
    RegisteredIsSound(w0, Register(w0, f));
    LinkChildKeeps(Register(w0, f), prev, |w.flows|);
  }

  lemma FreshFlowIsFit(a: NewFlowArgs, s: Server, n: nat)
    ensures FlowOk(ChildFlow(a, s, n)) && ChildFlow(a, s, n).nextChild == None
  {
  }

  lemma RegisteredIsSound(w: World, w1: World)
    requires Inv(w) && AtRest(w)
    requires FlowsOk(w1) && FlowsEvolved(w, w1) && Distinct(w1.order) && Arranged(w1.flows, w1.order)
    requires (forall x :: x in w.order ==> x in w1.order) && w1.servers == w.servers
    ensures Inv(w1) && AtRest(w1)
  {
    hide FlowOk, Arranged;
    forall j | 0 <= j < |w1.servers|
      ensures ServerOk(w1, j)
    {
      assert ServerOk(w, j);
    }
  }

  lemma {:induction false} CreateFromKeeps(w: World, n: nat, a: NewFlowArgs, alloc: nat -> bool, children: seq<nat>)
    requires Inv(w) && AtRest(w) && n <= |w.servers| && InRange(children, |w.flows|)
    ensures var c := CreateFrom(w, n, a, alloc, children);
            Inv(c.world) && AtRest(c.world)
    decreases |w.servers| - n
  {
    if n < |w.servers| {
      CreateFromStep(w, n, a, alloc, children);
      hide Eligible, AddChild, AtRest, CreateFrom;
      if !Eligible(a.key, w.servers[n]) {
        CreateFromKeeps(w, n + 1, a, alloc, children);
      } else if alloc(n) {
        var prev := LastOf(children);
        AddChildKeeps(w, n, a, prev);
        CreateFromKeeps(AddChild(w, n, a, prev), n + 1, a, alloc, children + [|w.flows|]);
      }
    }
  }

  lemma CreateFlowKeeps(w: World, a: NewFlowArgs, alloc: nat -> bool)
    requires Inv(w) && AtRest(w)
    ensures Inv(CreateFlow(w, a, alloc).world) && AtRest(CreateFlow(w, a, alloc).world)
  {
    assert InRange(w.order, |w.flows|);
    hide CreateFrom, DeleteFlow, Inv, AtRest;
    CreateFromKeeps(w, 0, a, alloc, []);
    var made := CreateFrom(w, 0, a, alloc, []);
    DeleteChainKeeps(made.world, made.children);
  }

  /** Every call keeps the invariant and leaves every server at rest. */
  lemma ApplyKeeps(w: World, c: Call)
    requires Inv(w) && AtRest(w) && CallOk(w, c)
    ensures Inv(Apply(w, c)) && AtRest(Apply(w, c))
  {
    assert forall x :: x in w.order ==> x < |w.flows|;
    hide Close, SetLifetime, DeleteFlow, CreateFrom, AddServer, Inv, AtRest;
    match c.op
    case DoPulse(p, wait) =>
    case DoAddServer(a) => AddServerKeeps(w, a);
    case DoNewFlow(a, alloc) =>
      CreateFlowKeeps(w, a, alloc);
    case DoSetLifetime(id, lifetime) => SetLifetimeKeeps(w, id, lifetime, c.t);
    case DoClose(id) => CloseKeeps(w, id, c.t);
    case DoDelete(id) => DeleteKeeps(w, id);
  }

  // ----- runs ------------------------------------------------------------------------

  const EMPTY := World([], [], [], 0)

  /** A run whose every call is made with valid handles. */
  ghost predicate RunOk(w: World, calls: seq<Call>)
    requires Inv(w) && AtRest(w)
    decreases |calls|
  {
    calls == [] || (CallOk(w, calls[0]) && (ApplyKeeps(w, calls[0]); RunOk(Apply(w, calls[0]), calls[1..])))
  }

  ghost function Run(w: World, calls: seq<Call>): World
    requires Inv(w) && AtRest(w) && RunOk(w, calls)
    decreases |calls|
  {
    if calls == [] then w else ApplyKeeps(w, calls[0]); Run(Apply(w, calls[0]), calls[1..])
  }

  lemma {:induction false} RunKeeps(w: World, calls: seq<Call>)
    requires Inv(w) && AtRest(w) && RunOk(w, calls)
    ensures Inv(Run(w, calls)) && AtRest(Run(w, calls))
    decreases |calls|
  {
    if calls != [] {
      hide Apply, Inv, AtRest;
      ApplyKeeps(w, calls[0]);
      RunKeeps(Apply(w, calls[0]), calls[1..]);
    }
  }

  /** What is true of a flow after every run: retransmitted at most twice since the last reset,
      waiting within the bounds, and reported as succeeded only if a message was matched to it,
      one with result success unless it announced a restart by one without. */
  ghost predicate SafeFlow(f: Flow) {
    && f.hist.resent <= PCP_RETX_MRC - 1
    && (f.state == WaitResp ==> 2625 <= f.resend <= 15187)
    && (f.state == WaitForLifetimeRenew ==> f.hist.matched && (f.hist.succeeded || f.hist.spared))
    && f.state != SendRenew
  }

  /** ... and of a server: it waits, speaks a supported version, and refers to no flow but a
      registered one of its own. */
  ghost predicate SafeServer(w: World, i: nat)
    requires i < |w.servers|
  {
    var s := w.servers[i];
    && !Transient(s.state)
    && s.version <= PCP_MAX_SUPPORTED_VERSION
    && (s.raised || s.version + s.rounds <= PCP_MAX_SUPPORTED_VERSION)
    && (s.pingFlow.Some? ==> Owned(w, i, s.pingFlow.value))
    && s.restartFlow == None
  }

  lemma InvIsSafe(w: World)
    requires Inv(w) && AtRest(w)
    ensures forall id :: 0 <= id < |w.flows| ==> SafeFlow(w.flows[id])
    ensures forall i :: 0 <= i < |w.servers| ==> SafeServer(w, i)
  {
    forall id | 0 <= id < |w.flows|
      ensures SafeFlow(w.flows[id])
    {
      assert FlowOk(w.flows[id]);
    }
    forall i | 0 <= i < |w.servers|
      ensures SafeServer(w, i)
    {
      assert ServerOk(w, i);
    }
  }

  lemma EmptyIsSound()
    ensures Inv(EMPTY) && AtRest(EMPTY)
  {
  }

  /** Safety of all runs: for every sequence of calls, every outcome of every send, every message
      received and every random value. */
  lemma EveryRunIsSafe(calls: seq<Call>)
    requires Inv(EMPTY) && AtRest(EMPTY) && RunOk(EMPTY, calls)
    ensures var w := Run(EMPTY, calls);
            && (forall id :: 0 <= id < |w.flows| ==> SafeFlow(w.flows[id]))
            && (forall i :: 0 <= i < |w.servers| ==> SafeServer(w, i))
  {
    RunKeeps(EMPTY, calls);
    InvIsSafe(Run(EMPTY, calls));
  }

  // ----- any clock -------------------------------------------------------------------

  /** One run of the server state machine: which server, which event, which message. */
  datatype Step = Step(server: nat, event: ServerEvent, msg: Msg)

  /** Handlers run one after the other in an outside world whose clock may do anything; a
      server is terminated only while it handles no restart. */
  ghost predicate StepsOk(env: Env, w: World, steps: seq<Step>)
    decreases |steps|
  {
    steps == [] ||
    (&& Wf(w) && steps[0].server < |w.servers| && steps[0].msg.version <= PCP_MAX_SUPPORTED_VERSION
     && (steps[0].event == Terminate ==> w.servers[steps[0].server].state != ServerRestart)
     && StepsOk(env, RunServer(env, w, steps[0].server, steps[0].event, steps[0].msg), steps[1..]))
  }

  function Steps(env: Env, w: World, steps: seq<Step>): World
    requires StepsOk(env, w, steps)
    decreases |steps|
  {
    if steps == [] then w
    else Steps(env, RunServer(env, w, steps[0].server, steps[0].event, steps[0].msg), steps[1..])
  }

  /** Whatever the clock does, and however often the loop of hserver_iter goes round: the
      retransmission bound, the rule for success, the versions and the back-references hold after
      every handler. */
  lemma {:induction false} EveryStepIsSafe(env: Env, w: World, steps: seq<Step>)
    requires Inv(w) && StepsOk(env, w, steps)
    ensures var w' := Steps(env, w, steps);
            && Inv(w')
            && (forall id :: 0 <= id < |w'.flows| ==> SafeFlow(w'.flows[id]))
    decreases |steps|
  {
    if steps == [] {
      forall id | 0 <= id < |w.flows|
        ensures SafeFlow(w.flows[id])
      {
        assert FlowOk(w.flows[id]);
      }
    } else {
      hide RunServer, Inv, SafeFlow, Wf;
      var w1 := RunServer(env, w, steps[0].server, steps[0].event, steps[0].msg);
      RunServerKeeps(env, w, steps[0].server, steps[0].event, steps[0].msg);
      EveryStepIsSafe(env, w1, steps[1..]);
    }
  }
}
