/** The operations of libpcp/src/pcp_api.c that create, change and delete flows, with the parts
    of libpcp/src/pcp_client_db.c that they use. */
module Api {
  import opened Types
  import opened FlowHash
  import opened FlowMachine
  import opened Retransmission
  import opened ServerMachine
  import opened Invariant
  import opened Response
  import Handlers
  import EndToEnd

  // ----- deletion --------------------------------------------------------------------

  /** A walk order without some flows. */
  function Without(ids: seq<nat>, gone: set<nat>): (r: seq<nat>)
    ensures forall x :: x in r <==> x in ids && x !in gone
    ensures |r| <= |ids|
  {
    if ids == [] then []
    else
      var rest := Without(ids[1..], gone);
      assert ids == [ids[0]] + ids[1..];
      if ids[0] in gone then rest else [ids[0]] + rest
  }

  /** pcp_delete_flow_intern: unregister the flow, and let go of it as a ping flow. */
  function DeleteFlow(w: World, id: nat): World
    requires id < |w.flows|
  {
    var w1 := w.(order := Without(w.order, {id}));
    var n := w.flows[id].server;
    if n < |w.servers| && w.servers[n].state != Uninitialized && w.servers[n].pingFlow == Some(id)
    then SetServer(w1, n, w.servers[n].(pingFlow := None))
    else w1
  }

  /** pcp_delete_flow on a chain of children. */
  function DeleteChain(w: World, ids: seq<nat>): (r: World)
    requires InRange(ids, |w.flows|)
    ensures r.flows == w.flows && |r.servers| == |w.servers|
    decreases |ids|
  {
    if ids == [] then w else DeleteChain(DeleteFlow(w, ids[0]), ids[1..])
  }

  lemma {:induction false} WithoutTwice(ids: seq<nat>, a: set<nat>, b: set<nat>)
    ensures Without(Without(ids, a), b) == Without(ids, a + b)
    decreases |ids|
  {
    if ids != [] {
      WithoutTwice(ids[1..], a, b);
      if ids[0] !in a {
        assert Without(ids, a)[1..] == Without(ids[1..], a);
      }
    }
  }

  lemma {:induction false} WithoutStrangers(ids: seq<nat>, gone: set<nat>)
    requires forall x :: x in ids ==> x !in gone
    ensures Without(ids, gone) == ids
    decreases |ids|
  {
    if ids != [] {
      assert forall x :: x in ids[1..] ==> x in ids;
      WithoutStrangers(ids[1..], gone);
      assert ids[0] in ids;
    }
  }

  lemma {:induction false} WithoutInserted(flows: seq<Flow>, ids: seq<nat>, id: nat, b: nat, gone: set<nat>)
    requires InRange(ids, |flows|) && id in gone
    ensures Without(InsertByBucket(flows, ids, id, b), gone) == Without(ids, gone)
    decreases |ids|
  {
    hide Bucket;
    var r := InsertByBucket(flows, ids, id, b);
    if ids == [] || Bucket(flows[ids[0]].key) > b {
      assert r[1..] == ids;
    } else {
      WithoutInserted(flows, ids[1..], id, b, gone);
      assert r[1..] == InsertByBucket(flows, ids[1..], id, b);
    }
  }

  lemma {:induction false} WithoutDistinct(ids: seq<nat>, gone: set<nat>)
    requires Distinct(ids)
    ensures Distinct(Without(ids, gone))
    decreases |ids|
  {
    if ids != [] {
      WithoutDistinct(ids[1..], gone);
      var rest := Without(ids[1..], gone);
      assert forall j :: 0 <= j < |rest| ==> rest[j] in rest;
      assert ids[0] !in ids[1..];
    }
  }

  lemma {:induction false} WithoutOrdered(flows: seq<Flow>, ids: seq<nat>, gone: set<nat>)
    requires Ordered(flows, ids)
    ensures Ordered(flows, Without(ids, gone))
    decreases |ids|
  {
    hide Precedes;
    if ids != [] {
      WithoutOrdered(flows, ids[1..], gone);
      var rest := Without(ids[1..], gone);
      forall j | 0 <= j < |rest|
        ensures Precedes(flows, ids[0], rest[j])
      {
        assert rest[j] in ids[1..];
        var k :| 0 <= k < |ids[1..]| && ids[1..][k] == rest[j];
        assert Precedes(flows, ids[0], ids[k + 1]);
      }
    }
  }

  function SetOf(ids: seq<nat>): set<nat> { set x | x in ids }

  lemma SetOfSplit(ids: seq<nat>)
    requires ids != []
    ensures SetOf(ids) == {ids[0]} + SetOf(ids[1..])
  {
    assert ids == [ids[0]] + ids[1..];
  }

  lemma {:induction false} DeleteChainOrder(w: World, ids: seq<nat>)
    requires InRange(ids, |w.flows|)
    ensures DeleteChain(w, ids).order == Without(w.order, SetOf(ids))
    decreases |ids|
  {
    if ids == [] {
      WithoutStrangers(w.order, SetOf(ids));
    } else {
      DeleteChainOrder(DeleteFlow(w, ids[0]), ids[1..]);
      WithoutTwice(w.order, {ids[0]}, SetOf(ids[1..]));
      SetOfSplit(ids);
    }
  }

  // ----- creation --------------------------------------------------------------------

  /** What pcp_new_flow passes to chain_and_assign_src_ip. */
  datatype NewFlowArgs = NewFlowArgs(key: FlowKey, lifetime: u32, ext: Endpoint, now: int)

  predicate SameFamily(a: Ip, b: Ip) { IsV4Mapped(a) == IsV4Mapped(b) }

  /** The key of the child for a server, before the family and scope are compared. */
  function ChildKey(key: FlowKey, s: Server): FlowKey {
    var k := if IsAny(key.src) then key.(src := s.src, scope := s.scope) else key;
    k.(serverIp := s.ip, nonce := s.nonce)
  }

  /** A working server whose address family and scope fit. */
  predicate Eligible(key: FlowKey, s: Server) {
    && s.state != Uninitialized && s.state != NotWorking
    && SameFamily(ChildKey(key, s).src, s.src) && ChildKey(key, s).scope == s.scope
  }

  /** The eligible servers from slot n on, in the order of their slots. */
  function EligibleFrom(servers: seq<Server>, n: nat, key: FlowKey): seq<nat>
    requires n <= |servers|
    decreases |servers| - n
  {
    if n == |servers| then []
    else (if Eligible(key, servers[n]) then [n] else []) + EligibleFrom(servers, n + 1, key)
  }

  function ChildFlow(a: NewFlowArgs, s: Server, n: nat): Flow {
    ServerMachine.NewFlow(ChildKey(a.key, s), n, if s.state == WaitIo then Send else WaitForServerInit,
                          a.now, a.lifetime, a.ext)
  }

  /** The effect of chain_and_assign_src_ip where it creates a child: init_flow, registration and
      the link from the child before. */
  function AddChild(w: World, n: nat, a: NewFlowArgs, prev: Option<nat>): (r: World)
    requires n < |w.servers| && InRange(w.order, |w.flows|) && RefOk(prev, |w.flows|)
    ensures |r.flows| == |w.flows| + 1 && |r.servers| == |w.servers| && InRange(r.order, |r.flows|)
  {
    var w1 := Register(SetServer(w, n, w.servers[n].(nextTimeout := a.now)), ChildFlow(a, w.servers[n], n));
    assert forall j :: 0 <= j < |w1.order| ==> w1.order[j] in w1.order;
    LinkChild(w1, prev, |w.flows|)
  }

  function LinkChild(w: World, prev: Option<nat>, next: nat): (r: World)
    requires RefOk(prev, |w.flows|)
    ensures |r.flows| == |w.flows| && r.order == w.order && r.servers == w.servers && r.calls == w.calls
  {
    if prev.Some? then SetFlow(w, prev.value, w.flows[prev.value].(nextChild := Some(next))) else w
  }

  datatype Created = Created(world: World, ok: bool, children: seq<nat>)

  function LastOf(children: seq<nat>): Option<nat> {
    if children == [] then None else Some(children[|children| - 1])
  }

  /** The walk over the servers: every eligible one gets a child, until an allocation fails. */
  function CreateFrom(w: World, n: nat, a: NewFlowArgs, alloc: nat -> bool, children: seq<nat>): (r: Created)
    requires n <= |w.servers| && InRange(w.order, |w.flows|) && InRange(children, |w.flows|)
    ensures InRange(r.children, |r.world.flows|) && InRange(r.world.order, |r.world.flows|)
    ensures |r.world.servers| == |w.servers|
    decreases |w.servers| - n
  {
    if n == |w.servers| then Created(w, true, children)
    else if !Eligible(a.key, w.servers[n]) then CreateFrom(w, n + 1, a, alloc, children)
    else if !alloc(n) then Created(w, false, children)
    else
      CreateFrom(AddChild(w, n, a, LastOf(children)), n + 1, a, alloc, children + [|w.flows|])
  }

  /** pcp_new_flow from the walk over the servers on. */
  function CreateFlow(w: World, a: NewFlowArgs, alloc: nat -> bool): Created
    requires InRange(w.order, |w.flows|)
  {
    var c := CreateFrom(w, 0, a, alloc, []);
    if c.ok then c else Created(DeleteChain(c.world, c.children), false, [])
  }

  // ----- creation is all or nothing --------------------------------------------------

  /** Field by field: the flow that the application asked for, at the server s in slot n. It is to
      be sent at once if the server waits for messages, else it waits for the server. */
  ghost predicate IsChild(f: Flow, a: NewFlowArgs, s: Server, n: nat) {
    && f.server == n && f.lifetime == a.lifetime && f.ext == a.ext && f.timeout == a.now
    && f.state == (if s.state == WaitIo then Send else WaitForServerInit)
    && f.key.op == a.key.op && f.key.protocol == a.key.protocol && f.key.srcPort == a.key.srcPort
    && f.key.dst == a.key.dst && f.key.dstPort == a.key.dstPort
    && f.key.serverIp == s.ip && f.key.scope == s.scope && f.key.nonce == s.nonce
    && f.key.src == (if IsAny(a.key.src) then s.src else a.key.src)
    && f.retry == 0 && f.resend == 0 && f.recvLifetime == 0 && f.recvResult == 0 && f.hist == NO_HISTORY
  }

  /** The children made so far: numbered one after the other from first on, linked in that
      order, registered, each for its server, which is due. */
  ghost predicate ChainMade(w: World, first: nat, children: seq<nat>, forServers: seq<nat>, a: NewFlowArgs, servers: seq<Server>) {
    && |children| == |forServers| && first + |children| == |w.flows|
    && forall k :: 0 <= k < |children| ==>
         && children[k] == first + k && first + k in w.order
         && forServers[k] < |servers| == |w.servers|
         && IsChild(w.flows[first + k], a, servers[forServers[k]], forServers[k])
         && w.flows[first + k].nextChild == (if k + 1 < |children| then Some(first + k + 1) else None)
         && w.servers[forServers[k]].nextTimeout == a.now
  }

  /** Servers differ in nothing but their timers. */
  ghost predicate SameButTimers(a: seq<Server>, b: seq<Server>) {
    |a| == |b| && forall j :: 0 <= j < |a| ==> b[j] == a[j].(nextTimeout := b[j].nextTimeout)
  }

  /** What the walk has kept of the context w0 it started from. */
  ghost predicate Extends(w0: World, w: World) {
    && |w0.flows| <= |w.flows| && w.flows[..|w0.flows|] == w0.flows
    && SameButTimers(w0.servers, w.servers)
   
  }

  /** What the creation of one child changes. */
  lemma AddChildChanges(w: World, n: nat, a: NewFlowArgs, prev: Option<nat>)
    requires n < |w.servers| && InRange(w.order, |w.flows|) && RefOk(prev, |w.flows|)
    ensures var w', id := AddChild(w, n, a, prev), |w.flows|;
            && w'.flows[id] == ChildFlow(a, w.servers[n], n)
            && (forall x :: 0 <= x < id ==>
                  w'.flows[x] == if prev == Some(x) then w.flows[x].(nextChild := Some(id)) else w.flows[x])
            && w'.servers == w.servers[n := w.servers[n].(nextTimeout := a.now)]
            && (forall x :: x in w'.order <==> x in w.order || x == id)
  {
    hide InsertByBucket, ChildFlow, Bucket;
  }

  lemma AddChildMade(w0: World, w: World, n: nat, a: NewFlowArgs, children: seq<nat>, made: seq<nat>)
    requires InRange(w.order, |w.flows|) && n < |w.servers| && Extends(w0, w) && Eligible(a.key, w.servers[n])
    requires ChainMade(w, |w0.flows|, children, made, a, w0.servers)
    ensures var prev := LastOf(children);
            && RefOk(prev, |w.flows|)
            && var w' := AddChild(w, n, a, prev);
               && Extends(w0, w')
               && ChainMade(w', |w0.flows|, children + [|w.flows|], made + [n], a, w0.servers)
               && (forall x :: x in w'.order <==> x in w.order || x == |w.flows|)
  {
    hide ChildFlow, AddChild, IsChild, Eligible;
    var first, id, prev := |w0.flows|, |w.flows|, LastOf(children);
    var w', children', made' := AddChild(w, n, a, prev), children + [id], made + [n];
    AddChildChanges(w, n, a, prev);
    ChildIgnoresTimer(a, w0.servers[n], w.servers[n], n);
    ChildIsAsAsked(a, w0.servers[n], n);
    assert w'.flows[..first] == w0.flows;
    forall k | 0 <= k < |children'|
      ensures children'[k] == first + k && first + k in w'.order && made'[k] < |w0.servers| == |w'.servers|
      ensures IsChild(w'.flows[first + k], a, w0.servers[made'[k]], made'[k])
      ensures w'.flows[first + k].nextChild == if k + 1 < |children'| then Some(first + k + 1) else None
      ensures w'.servers[made'[k]].nextTimeout == a.now
    {
      if k < |children| {
        assert IsChild(w.flows[first + k], a, w0.servers[made[k]], made[k]);
        LinkedIsChild(w.flows[first + k], id, a, w0.servers[made[k]], made[k]);
      }
    }
  }

  lemma ChildIsAsAsked(a: NewFlowArgs, s: Server, n: nat)
    requires Eligible(a.key, s)
    ensures IsChild(ChildFlow(a, s, n), a, s, n)
  {
  }

  lemma LinkedIsChild(f: Flow, next: nat, a: NewFlowArgs, s: Server, n: nat)
    requires IsChild(f, a, s, n)
    ensures IsChild(f.(nextChild := Some(next)), a, s, n)
  {
  }

  /** The servers that get a child: those in use and not given up whose source address is of the
      family of the client's, IPv4 or not, and which have the scope asked for. An application
      that names no address takes any family and scope. */
  lemma EligibleExactly(key: FlowKey, s: Server)
    ensures Eligible(key, s) <==>
              && s.state != Uninitialized && s.state != NotWorking
              && (IsAny(key.src) || (key.scope == s.scope && (key.src[..12] == Zeros(10) + [255, 255] <==> s.src[..12] == Zeros(10) + [255, 255])))
  {
  }

  /** Each of them once, in the order of the slots. */
  lemma {:induction false} EligibleFromExactly(servers: seq<Server>, n: nat, key: FlowKey)
    requires n <= |servers|
    ensures var r := EligibleFrom(servers, n, key);
            && (forall k :: 0 <= k < |r| ==> n <= r[k])
            && (forall j, k :: 0 <= j < k < |r| ==> r[j] < r[k])
            && (forall i :: i in r <==> n <= i < |servers| && Eligible(key, servers[i]))
    decreases |servers| - n
  {
    hide Eligible;
    if n < |servers| {
      EligibleFromExactly(servers, n + 1, key);
    }
  }

  /** One slot of the walk. */
  lemma CreateFromStep(w: World, n: nat, a: NewFlowArgs, alloc: nat -> bool, children: seq<nat>)
    requires n < |w.servers| && InRange(w.order, |w.flows|) && InRange(children, |w.flows|)
    ensures CreateFrom(w, n, a, alloc, children)
         == if !Eligible(a.key, w.servers[n]) then CreateFrom(w, n + 1, a, alloc, children)
            else if !alloc(n) then Created(w, false, children)
            else CreateFrom(AddChild(w, n, a, LastOf(children)), n + 1, a, alloc, children + [|w.flows|])
  {
    hide Eligible, AddChild;
  }

  lemma ChildIgnoresTimer(a: NewFlowArgs, s: Server, s': Server, n: nat)
    requires s' == s.(nextTimeout := s'.nextTimeout)
    ensures ChildFlow(a, s', n) == ChildFlow(a, s, n) && Eligible(a.key, s') == Eligible(a.key, s)
    ensures ChildFlow(a, s, n).nextChild == None
  {
  }

  /** From slot n on, made being the servers served before; served are those served in the end. */
  lemma {:induction false} CreateFromMakes(w0: World, w: World, n: nat, a: NewFlowArgs, alloc: nat -> bool,
                                           children: seq<nat>, made: seq<nat>)
    returns (served: seq<nat>)
    requires InRange(w.order, |w.flows|) && InRange(children, |w.flows|) && n <= |w.servers| && Extends(w0, w)
    requires ChainMade(w, |w0.flows|, children, made, a, w0.servers)
    ensures var c := CreateFrom(w, n, a, alloc, children);
            && Extends(w0, c.world)
            && ChainMade(c.world, |w0.flows|, c.children, served, a, w0.servers)
            && (c.ok ==> served == made + EligibleFrom(w0.servers, n, a.key))
    decreases |w.servers| - n
  {
    hide ChainMade, AddChild, ChildFlow, Eligible;
    served := made;
    if n == |w.servers| {
      assert made + EligibleFrom(w0.servers, n, a.key) == made;
    } else {
      ChildIgnoresTimer(a, w0.servers[n], w.servers[n], n);
      EligibleSplit(w0.servers, n, a.key, made);
      CreateFromStep(w, n, a, alloc, children);
      hide Eligible, ChildFlow, AddChild, ChainMade, EligibleFrom, CreateFrom;
      if !Eligible(a.key, w.servers[n]) {
        served := CreateFromMakes(w0, w, n + 1, a, alloc, children, made);
      } else if alloc(n) {
        var prev := LastOf(children);
        AddChildMade(w0, w, n, a, children, made);
        hide Extends;
        served := CreateFromMakes(w0, AddChild(w, n, a, prev), n + 1, a, alloc, children + [|w.flows|], made + [n]);
      }
    }
  }

  lemma EligibleSplit(servers: seq<Server>, n: nat, key: FlowKey, made: seq<nat>)
    requires n < |servers|
    ensures made + EligibleFrom(servers, n, key)
         == if Eligible(key, servers[n]) then made + [n] + EligibleFrom(servers, n + 1, key)
            else made + EligibleFrom(servers, n + 1, key)
  {
  }

  /** Taking all children out again leaves the walk order that was. */
  lemma {:induction false} CreateFromOrder(w: World, n: nat, a: NewFlowArgs, alloc: nat -> bool, children: seq<nat>)
    requires InRange(w.order, |w.flows|) && InRange(children, |w.flows|) && n <= |w.servers|
    ensures var c := CreateFrom(w, n, a, alloc, children);
            Without(c.world.order, SetOf(c.children)) == Without(w.order, SetOf(c.children))
    decreases |w.servers| - n
  {
    if n < |w.servers| {
      CreateFromStep(w, n, a, alloc, children);
      hide Eligible, AddChild, Without, CreateFrom;
      if !Eligible(a.key, w.servers[n]) {
        CreateFromOrder(w, n + 1, a, alloc, children);
      } else if alloc(n) {
        var prev := LastOf(children);
        var w1 := AddChild(w, n, a, prev);
        CreateFromOrder(w1, n + 1, a, alloc, children + [|w.flows|]);
        ChildAmong(w1, n + 1, a, alloc, children + [|w.flows|], |w.flows|);
        AddChildOrder(w, n, a, prev, SetOf(CreateFrom(w1, n + 1, a, alloc, children + [|w.flows|]).children));
      }
    }
  }

  /** Children made stay in the list. */
  lemma {:induction false} ChildAmong(w: World, n: nat, a: NewFlowArgs, alloc: nat -> bool, children: seq<nat>, id: nat)
    requires InRange(w.order, |w.flows|) && InRange(children, |w.flows|) && n <= |w.servers| && id in children
    ensures id in CreateFrom(w, n, a, alloc, children).children
    decreases |w.servers| - n
  {
    if n < |w.servers| {
      CreateFromStep(w, n, a, alloc, children);
      hide Eligible, AddChild, CreateFrom;
      if !Eligible(a.key, w.servers[n]) {
        ChildAmong(w, n + 1, a, alloc, children, id);
      } else if alloc(n) {
        var prev := LastOf(children);
        ChildAmong(AddChild(w, n, a, prev), n + 1, a, alloc, children + [|w.flows|], id);
      }
    }
  }

  lemma AddChildOrder(w: World, n: nat, a: NewFlowArgs, prev: Option<nat>, gone: set<nat>)
    requires n < |w.servers| && InRange(w.order, |w.flows|) && RefOk(prev, |w.flows|) && |w.flows| in gone
    ensures Without(AddChild(w, n, a, prev).order, gone) == Without(w.order, gone)
  {
    hide Bucket, ChildFlow;
    WithoutInserted(w.flows, w.order, |w.flows|, Bucket(ChildFlow(a, w.servers[n], n).key), gone);
  }

  /** Creation is all or nothing. It succeeds with exactly one registered child for each working
      server of matching family and scope, linked in the order of the servers, and the
      flows registered before still are, in the same order; or, wherever an allocation failed,
      the registered flows are just those of before, in the same order. */
  lemma CreateAllOrNothing(w: World, a: NewFlowArgs, alloc: nat -> bool)
    requires InRange(w.order, |w.flows|)
    ensures var c := CreateFlow(w, a, alloc);
            && |w.flows| <= |c.world.flows| && c.world.flows[..|w.flows|] == w.flows
            && (c.ok ==> ChainMade(c.world, |w.flows|, c.children, EligibleFrom(w.servers, 0, a.key), a, w.servers)
                         && Without(c.world.order, SetOf(c.children)) == w.order
                         && SameButTimers(w.servers, c.world.servers))
            && (!c.ok ==> c.world.order == w.order && c.children == [])
  {
    hide CreateFrom;
    var served := CreateFromMakes(w, w, 0, a, alloc, [], []);
    var c := CreateFrom(w, 0, a, alloc, []);
    assert [] + EligibleFrom(w.servers, 0, a.key) == EligibleFrom(w.servers, 0, a.key);
    CreateFromOrder(w, 0, a, alloc, []);
    forall x | x in w.order
      ensures x !in SetOf(c.children)
    {
      assert x < |w.flows|;
    }
    WithoutStrangers(w.order, SetOf(c.children));
    if !c.ok {
      DeleteChainOrder(c.world, c.children);
    }
  }

  lemma AddChildServers(w: World, n: nat, a: NewFlowArgs, prev: Option<nat>)
    requires n < |w.servers| && InRange(w.order, |w.flows|) && RefOk(prev, |w.flows|)
    ensures var w1 := AddChild(w, n, a, prev);
            forall j :: 0 <= j < |w.servers| && j != n ==> w1.servers[j] == w.servers[j]
  {
    hide InsertByBucket, ChildFlow;
  }

  /** It fails only where an allocation for an eligible server does. */
  lemma {:induction false} CreateFailsOnlyOnAllocation(w: World, n: nat, a: NewFlowArgs, alloc: nat -> bool, children: seq<nat>)
    requires InRange(w.order, |w.flows|) && InRange(children, |w.flows|) && n <= |w.servers|
    requires forall j :: n <= j < |w.servers| && Eligible(a.key, w.servers[j]) ==> alloc(j)
    ensures CreateFrom(w, n, a, alloc, children).ok
    decreases |w.servers| - n
  {
    if n < |w.servers| {
      CreateFromStep(w, n, a, alloc, children);
      hide CreateFrom, Eligible;
      if Eligible(a.key, w.servers[n]) {
        var prev := LastOf(children);
        var w1 := AddChild(w, n, a, prev);
        AddChildServers(w, n, a, prev);
        hide AddChild;
        CreateFailsOnlyOnAllocation(w1, n + 1, a, alloc, children + [|w.flows|]);
      } else {
        CreateFailsOnlyOnAllocation(w, n + 1, a, alloc, children);
      }
    }
  }

  /** The children have the keys that replies are matched with. */
  lemma ChildrenHaveKeys(a: NewFlowArgs, s: Server, n: nat)
    requires Eligible(a.key, s)
    requires a.key.op == OP_PEER || (a.key.op == OP_MAP && a.key.dst == Zeros(16) && a.key.dstPort == Zeros(2))
    ensures EndToEnd.KeyOf(ChildFlow(a, s, n).key, s)
  {
  }
}
