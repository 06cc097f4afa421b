/** The order of the context is the walk over the chains of the database: for the same flows, added
    and removed in step. */
module WalkOrder {
  import opened Types
  import opened FlowHash
  import opened FlowDb
  import ServerMachine
  import Invariant
  import Handlers
  import Api

  /** The flows of the list, by their numbers in the context. */
  function Numbers(list: seq<Node>, number: Node -> nat): (r: seq<nat>)
    ensures |r| == |list|
  {
    seq(|list|, k requires 0 <= k < |list| => number(list[k]))
  }

  /** Older flows come first. */
  ghost predicate Increasing(list: seq<Node>, number: Node -> nat) {
    forall a, b :: 0 <= a < b < |list| ==> number(list[a]) < number(list[b])
  }

  /** The list of the database holds exactly the registered flows of the context. */
  ghost predicate SameFlows(list: seq<Node>, number: Node -> nat, flows: seq<Flow>, ids: seq<nat>) {
    && Increasing(list, number)
    && (forall n :: n in list ==> number(n) in ids && number(n) < |flows| && flows[number(n)].key == n.key)
    && (forall id :: id in ids ==> exists n :: n in list && number(n) == id)
  }

  lemma {:induction false} ChainIncreasing(list: seq<Node>, number: Node -> nat, b: nat)
    requires Increasing(list, number)
    ensures Increasing(Chain(list, b), number)
    decreases |list|
  {
    hide Bucket;
    if list != [] {
      var init, last := list[..|list| - 1], list[|list| - 1];
      ChainIncreasing(init, number, b);
      var c := Chain(init, b);
      forall k | 0 <= k < |c|
        ensures number(c[k]) < number(last)
      {
        assert c[k] in init;
        var j :| 0 <= j < |init| && init[j] == c[k];
        assert list[j] == c[k];
      }
    }
  }

  /** Chain by chain, and in each chain by age. */
  ghost predicate NodesOrdered(c: seq<Node>, number: Node -> nat) {
    forall a, b :: 0 <= a < b < |c| ==>
      || Bucket(c[a].key) < Bucket(c[b].key)
      || (Bucket(c[a].key) == Bucket(c[b].key) && number(c[a]) < number(c[b]))
  }

  lemma {:induction false} WalkIsOrdered(list: seq<Node>, number: Node -> nat, b: nat)
    requires Increasing(list, number)
    ensures NodesOrdered(Walk(list, b), number)
    decreases FLOW_HASH_SIZE - b
  {
    hide Bucket, Chain, Walk;
    WalkUnfold(list, b);
    if b < FLOW_HASH_SIZE {
      ChainIncreasing(list, number, b);
      WalkIsOrdered(list, number, b + 1);
      LaterBuckets(list, b + 1);
      var c, w := Chain(list, b), Walk(list, b + 1);
      assert forall k :: 0 <= k < |c| ==> c[k] in c;
      assert forall k :: 0 <= k < |w| ==> w[k] in w;
    }
  }

  /** There is one way to stand in order. */
  lemma {:induction false} OrderIsUnique(flows: seq<Flow>, xs: seq<nat>, ys: seq<nat>)
    requires Invariant.Ordered(flows, xs) && Invariant.Ordered(flows, ys)
    requires forall x :: x in xs <==> x in ys
    ensures xs == ys
    decreases |xs|
  {
    hide Bucket;
    assert |xs| > 0 ==> xs[0] in xs;
    assert |ys| > 0 ==> ys[0] in ys;
    if xs != [] {
      assert xs[0] in xs && xs[0] in ys && ys[0] in ys && ys[0] in xs;
      var a :| 0 <= a < |xs| && xs[a] == ys[0];
      var b :| 0 <= b < |ys| && ys[b] == xs[0];
      assert a > 0 ==> Invariant.Precedes(flows, xs[0], xs[a]);
      assert b > 0 ==> Invariant.Precedes(flows, ys[0], ys[b]);
      TailWithoutHead(flows, xs);
      TailWithoutHead(flows, ys);
      OrderIsUnique(flows, xs[1..], ys[1..]);
      assert xs == [xs[0]] + xs[1..] && ys == [ys[0]] + ys[1..];
    }
  }

  lemma TailWithoutHead(flows: seq<Flow>, xs: seq<nat>)
    requires Invariant.Ordered(flows, xs) && xs != []
    ensures forall x :: x in xs[1..] <==> x in xs && x != xs[0]
  {
    hide Bucket;
    assert xs == [xs[0]] + xs[1..];
    forall k | 0 < k < |xs|
      ensures xs[k] != xs[0]
    {
      assert Invariant.Precedes(flows, xs[0], xs[k]);
    }
  }

  /** The walk over the chains meets the flows in the order of the context. */
  lemma WalkIsOrder(list: seq<Node>, number: Node -> nat, flows: seq<Flow>, ids: seq<nat>)
    requires SameFlows(list, number, flows, ids) && Invariant.Ordered(flows, ids)
    ensures Numbers(Walk(list, 0), number) == ids
  {
    hide Bucket, Walk;
    var w, r := Walk(list, 0), Numbers(Walk(list, 0), number);
    WalkIsOrdered(list, number, 0);
    WalkMeetsAllOnce(list);
    WalkMembers(list);
    forall a, b | 0 <= a < b < |r|
      ensures Invariant.Precedes(flows, r[a], r[b])
    {
      assert w[a] in w && w[b] in w;
    }
    forall x
      ensures x in r <==> x in ids
    {
      if x in r {
        var k :| 0 <= k < |r| && r[k] == x;
        assert w[k] in w;
      }
      if x in ids {
        var n :| n in list && number(n) == x;
        var k :| 0 <= k < |w| && w[k] == n;
        assert r[k] == x;
      }
    }
    OrderIsUnique(flows, r, ids);
  }

  lemma WalkMembers(list: seq<Node>)
    ensures forall n :: n in Walk(list, 0) <==> n in list
  {
    WalkMeetsAllOnce(list);
    hide Walk;
    assert forall n :: n in Walk(list, 0) <==> n in multiset(Walk(list, 0));
    assert forall n :: n in list <==> n in multiset(list);
  }

  /** Both add a flow: the database at the end of its list, the context with the next number. */
  lemma AddedInStep(list: seq<Node>, number: Node -> nat, w: Types.World, n: Node, f: Flow)
    requires Invariant.Inv(w) && SameFlows(list, number, w.flows, w.order)
    requires number(n) == |w.flows| && f.key == n.key && f.nextChild == None
    ensures var w' := ServerMachine.Register(w, f);
            && SameFlows(list + [n], number, w'.flows, w'.order)
            && Numbers(Walk(list + [n], 0), number) == w'.order
  {
    hide Bucket, Walk;
    var w' := ServerMachine.Register(w, f);
    Handlers.RegisterArranged(w, f);
    var list' := list + [n];
    assert forall m :: m in list' <==> m in list || m == n;
    assert forall k :: 0 <= k < |list| ==> list[k] in list;
    forall id | id in w'.order
      ensures exists m :: m in list' && number(m) == id
    {
      if id in w.order {
        var m :| m in list && number(m) == id;
        assert m in list';
      } else {
        assert n in list';
      }
    }
    WalkIsOrder(list', number, w'.flows, w'.order);
  }

  lemma RemovedMembers(list: seq<Node>, number: Node -> nat, i: nat)
    requires Increasing(list, number) && i < |list|
    ensures Increasing(Removed(list, i), number)
    ensures forall m :: m in Removed(list, i) <==> m in list && number(m) != number(list[i])
  {
    RemovedIncreasing(list, number, i);
    NumbersDiffer(list, number, i);
    RemovedKeeps(list, i);
    hide Increasing, Distinct;
    assert forall m :: m in Removed(list, i) ==> m in list;
  }

  lemma NumbersDiffer(list: seq<Node>, number: Node -> nat, i: nat)
    requires Increasing(list, number) && i < |list|
    ensures Distinct(list)
    ensures forall m :: m in list && number(m) == number(list[i]) ==> m == list[i]
  {
    forall m | m in list && number(m) == number(list[i])
      ensures m == list[i]
    {
      var j :| 0 <= j < |list| && list[j] == m;
    }
  }

  lemma RemovedIncreasing(list: seq<Node>, number: Node -> nat, i: nat)
    requires Increasing(list, number) && i < |list|
    ensures Increasing(Removed(list, i), number)
  {
    RemovedAt(list, i);
    hide Removed;
    var r := Removed(list, i);
    forall a, b | 0 <= a < b < |r|
      ensures number(r[a]) < number(r[b])
    {
      var a', b' := if a < i then a else a + 1, if b < i then b else b + 1;
      assert r[a] == list[a'] && r[b] == list[b'];
    }
  }

  lemma SameWithout(list: seq<Node>, number: Node -> nat, flows: seq<Flow>, ids: seq<nat>, list': seq<Node>, id: nat)
    requires SameFlows(list, number, flows, ids) && Increasing(list', number)
    requires forall m :: m in list' <==> m in list && number(m) != id
    ensures SameFlows(list', number, flows, Api.Without(ids, {id}))
  {
    hide Increasing;
    forall x | x in Api.Without(ids, {id})
      ensures exists m :: m in list' && number(m) == x
    {
      var m :| m in list && number(m) == x;
      assert m in list';
    }
  }

  /** Both remove a flow. */
  lemma RemovedInStep(list: seq<Node>, number: Node -> nat, w: Types.World, i: nat)
    requires Invariant.Inv(w) && SameFlows(list, number, w.flows, w.order)
    requires i < |list|
    ensures number(list[i]) < |w.flows|
    ensures var w' := Api.DeleteFlow(w, number(list[i]));
            && SameFlows(Removed(list, i), number, w'.flows, w'.order)
            && Numbers(Walk(Removed(list, i), 0), number) == w'.order
  {
    assert list[i] in list && Increasing(list, number);
    hide Bucket, Walk, Removed, SameFlows, Increasing;
    var id := number(list[i]);
    var w' := Api.DeleteFlow(w, id);
    Api.WithoutOrdered(w.flows, w.order, {id});
    assert w'.flows == w.flows && w'.order == Api.Without(w.order, {id});
    RemovedMembers(list, number, i);
    SameWithout(list, number, w.flows, w.order, Removed(list, i), id);
    WalkIsOrder(Removed(list, i), number, w.flows, w'.order);
  }
}
