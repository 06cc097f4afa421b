/** The flow database of libpcp/src/pcp_client_db.c: chains of linked flows, one for each hash
    value, that together stand for one list of flows in the order of their insertion. */
module FlowDb {
  import opened Types
  import opened FlowHash

  /** key_bucket of a flow that is in no chain. */
  const NO_BUCKET: nat := 0xFFFF_FFFF

  method HashOf(key: FlowKey) returns (b: nat)
    ensures b == Bucket(key)
  {
    b := ComputeFlowKey(KeyBytes(key));
  }

  /** A flow as the database sees it. */
  class Node {
    const key: FlowKey
    const server: nat
    var bucket: nat
    var next: Node?

    constructor (key: FlowKey, server: nat)
      ensures this.key == key && this.server == server && bucket == NO_BUCKET && next == null
    {
      this.key, this.server := key, server;
      bucket, next := NO_BUCKET, null;
    }
  }

  // ----- the list and its chains -----------------------------------------------------

  /** The flows of a list whose key hashes to b, in the order of the list. */
  ghost function Chain(list: seq<Node>, b: nat): (r: seq<Node>)
    ensures forall n :: n in r ==> n in list && Bucket(n.key) == b
    ensures forall n :: n in list ==> Bucket(n.key) == b ==> n in r
    ensures |r| <= |list|
  {
    if list == [] then []
    else
      var rest := Chain(list[..|list| - 1], b);
      var last := list[|list| - 1];
      assert list == list[..|list| - 1] + [last];
      if Bucket(last.key) == b then rest + [last] else rest
  }

  /** The flow that a scan of a list for key and server finds first. */
  ghost function Scan(list: seq<Node>, key: FlowKey, server: nat): (r: Node?)
    ensures r != null ==> r in list && r.key == key && r.server == server
    ensures r == null ==> forall n :: n in list ==> !(n.key == key && n.server == server)
  {
    if list == [] then null
    else
      assert list == [list[0]] + list[1..];
      if list[0].key == key && list[0].server == server then list[0] else Scan(list[1..], key, server)
  }

  ghost predicate Distinct(list: seq<Node>) {
    forall i, j :: 0 <= i < j < |list| ==> list[i] != list[j]
  }

  lemma ChainAppend(list: seq<Node>, n: Node, b: nat)
    ensures Chain(list + [n], b) == Chain(list, b) + (if Bucket(n.key) == b then [n] else [])
  {
    hide Bucket;
    assert (list + [n])[..|list|] == list;
  }

  lemma {:induction false} ChainConcat(x: seq<Node>, y: seq<Node>, b: nat)
    ensures Chain(x + y, b) == Chain(x, b) + Chain(y, b)
    decreases |y|
  {
    hide Bucket, Chain;
    if y == [] {
      assert x + y == x;
      EmptyChain(b);
    } else {
      var y0, last := y[..|y| - 1], y[|y| - 1];
      ChainConcat(x, y0, b);
      assert x + y == (x + y0) + [last] && y == y0 + [last];
      ChainAppend(x + y0, last, b);
      ChainAppend(y0, last, b);
    }
  }

  lemma EmptyChain(b: nat)
    ensures Chain([], b) == []
  {
  }

  lemma {:induction false} ChainDistinct(list: seq<Node>, b: nat)
    requires Distinct(list)
    ensures Distinct(Chain(list, b))
    decreases |list|
  {
    hide Bucket;
    if list != [] {
      var init, last := list[..|list| - 1], list[|list| - 1];
      ChainDistinct(init, b);
      var c := Chain(init, b);
      assert forall j :: 0 <= j < |c| ==> c[j] in c;
      assert last !in init;
    }
  }

  lemma {:induction false} ScanConcat(x: seq<Node>, y: seq<Node>, key: FlowKey, server: nat)
    ensures Scan(x + y, key, server) == if Scan(x, key, server) != null then Scan(x, key, server) else Scan(y, key, server)
    decreases |x|
  {
    if x == [] {
      assert x + y == y;
    } else {
      assert (x + y)[1..] == x[1..] + y;
      ScanConcat(x[1..], y, key, server);
    }
  }

  /** Index refines list: to look into the chain of the key's hash is to look into the list. */
  lemma {:induction false} ScanChain(list: seq<Node>, key: FlowKey, server: nat)
    ensures Scan(Chain(list, Bucket(key)), key, server) == Scan(list, key, server)
    decreases |list|
  {
    hide Bucket;
    if list != [] {
      var init, last := list[..|list| - 1], list[|list| - 1];
      assert list == init + [last];
      ScanChain(init, key, server);
      ChainAppend(init, last, Bucket(key));
      ScanConcat(init, [last], key, server);
      ScanConcat(Chain(init, Bucket(key)), if Bucket(last.key) == Bucket(key) then [last] else [], key, server);
    }
  }

  /** A list without the element at a position. */
  ghost function Removed(list: seq<Node>, i: nat): seq<Node>
    requires i < |list|
  {
    list[..i] + list[i + 1..]
  }

  /** The chains of a list without one element: one of them lost it, at k. */
  lemma ChainRemoved(list: seq<Node>, i: nat, b: nat) returns (k: nat)
    requires i < |list|
    ensures if Bucket(list[i].key) == b then
              k < |Chain(list, b)| && Chain(list, b)[k] == list[i]
              && Chain(Removed(list, i), b) == Removed(Chain(list, b), k)
            else Chain(Removed(list, i), b) == Chain(list, b)
  {
    hide Bucket, Chain;
    var x, n, y := list[..i], list[i], list[i + 1..];
    assert list == (x + [n]) + y;
    ChainConcat(x + [n], y, b);
    ChainAppend(x, n, b);
    ChainConcat(x, y, b);
    k := |Chain(x, b)|;
    if Bucket(n.key) == b {
      assert Chain(list, b) == Chain(x, b) + [n] + Chain(y, b);
    } else {
      assert Chain(x, b) + [] == Chain(x, b);
    }
  }

  /** What follows the k-th flow of a chain. */
  ghost function After(c: seq<Node>, k: nat): Node?
    requires k < |c|
  {
    if k + 1 < |c| then c[k + 1] else null
  }

  lemma AfterIs(c: seq<Node>, k: nat)
    requires k < |c|
    ensures After(c, k) == if k + 1 < |c| then c[k + 1] else null
  {
  }

  lemma AfterAppend(c: seq<Node>, n: Node)
    ensures forall k :: 0 <= k < |c| - 1 ==> After(c + [n], k) == After(c, k)
    ensures |c| > 0 ==> After(c + [n], |c| - 1) == n
    ensures After(c + [n], |c|) == null
  {
  }

  lemma AfterRemoved(c: seq<Node>, i: nat)
    requires i < |c|
    ensures forall k :: 0 <= k < i - 1 ==> After(Removed(c, i), k) == After(c, k)
    ensures i > 0 ==> After(Removed(c, i), i - 1) == After(c, i)
    ensures forall k :: i <= k < |c| - 1 ==> After(Removed(c, i), k) == After(c, k + 1)
  {
  }

  ghost predicate Within(c: seq<Node>, list: seq<Node>) {
    forall k :: 0 <= k < |c| ==> c[k] in list
  }

  /** A chain runs from its head through next to null, its flows carry its number, and no
      flow is in it twice. */
  ghost predicate ChainOk(b: nat, head: Node?, c: seq<Node>)
    reads c
  {
    && Distinct(c)
    && head == (if c == [] then null else c[0])
    && (forall k :: 0 <= k < |c| ==> c[k].bucket == b)
    && (forall k :: 0 <= k < |c| ==> c[k].next == After(c, k))
  }

  // ----- the database ----------------------------------------------------------------

  class Db {
    const heads: array<Node?>
    var count: nat
    /** All flows, oldest first, and the chains that the pointers make of them. */
    ghost var list: seq<Node>
    ghost var chains: seq<seq<Node>>

    /** The pointers: each chain is made of flows of the list. */
    ghost predicate Shape()
      reads this, heads, list
    {
      && heads.Length == FLOW_HASH_SIZE == |chains|
      && forall b :: 0 <= b < FLOW_HASH_SIZE ==> Within(chains[b], list) && ChainOk(b, heads[b], chains[b])
    }

    ghost predicate Valid()
      reads this, heads, list
    {
      && Shape()
      && Distinct(list) && count == |list|
      && forall b :: 0 <= b < FLOW_HASH_SIZE ==> chains[b] == Chain(list, b)
    }

    constructor ()
      ensures Valid() && list == [] && fresh(heads)
    {
      heads := new Node?[FLOW_HASH_SIZE](_ => null);
      count := 0;
      list := [];
      chains := seq(FLOW_HASH_SIZE, _ => []);
    }

    /** pcp_get_flow: the earliest added flow present with this key and server, as a scan of
        the whole list would find. */
    method Get(key: FlowKey, server: nat) returns (r: Node?)
      requires Valid()
      ensures r == Scan(list, key, server)
    {
      hide Bucket, Chain, After;
      var b := HashOf(key);
      ScanChain(list, key, server);
      assert ChainOk(b, heads[b], chains[b]);
      ghost var c := chains[b];
      r := heads[b];
      ghost var k := 0;
      assert c[0..] == c;
      while r != null
        invariant 0 <= k <= |c| && r == (if k < |c| then c[k] else null)
        invariant Scan(c[k..], key, server) == Scan(list, key, server)
        decreases |c| - k
      {
        assert c[k..][0] == c[k] && c[k..][1..] == c[k + 1..];
        if r.server == server && r.key == key {
          return;
        }
        AfterIs(c, k);
        r := r.next;
        k := k + 1;
      }
    }

    /** The walk of pcp_db_add_flow to the end of a chain. */
    method Last(b: nat) returns (p: Node?)
      requires Shape() && b < FLOW_HASH_SIZE
      ensures var c := chains[b];
              p == if c == [] then null else c[|c| - 1]
    {
      hide After;
      ghost var c := chains[b];
      assert ChainOk(b, heads[b], c);
      p := heads[b];
      if p == null {
        return;
      }
      ghost var k := 0;
      AfterIs(c, k);
      while p.next != null
        invariant 0 <= k < |c| && p == c[k] && After(c, k) == if k + 1 < |c| then c[k + 1] else null
        decreases |c| - k
      {
        p := p.next;
        k := k + 1;
        AfterIs(c, k);
      }
    }

    /** The pointer work of pcp_db_add_flow: link the flow at the end of chain b. */
    method Link(n: Node, b: nat)
      requires Shape() && b < FLOW_HASH_SIZE && n !in list
      modifies this, heads, list, n
      ensures Shape() && count == old(count)
      ensures list == old(list) + [n] && chains == old(chains)[b := old(chains)[b] + [n]]
    {
      hide After;
      ghost var c := chains[b];
      AfterAppend(c, n);
      var p := Last(b);
      assert ChainOk(b, heads[b], c) && Within(c, list) && n !in c && (p != null ==> p == c[|c| - 1] && p in list);
      forall d | 0 <= d < FLOW_HASH_SIZE && d != b
        ensures n !in chains[d] && p !in chains[d]
      {
        assert ChainOk(d, heads[d], chains[d]);
      }
      n.bucket := b;
      if p == null {
        heads[b] := n;
      } else {
        p.next := n;
      }
      n.next := null;
      list := list + [n];
      chains := chains[b := c + [n]];
      assert ChainOk(b, heads[b], c + [n]);
      forall d | 0 <= d < FLOW_HASH_SIZE
        ensures ChainOk(d, heads[d], chains[d]) && Within(chains[d], list)
      {
        assert old(ChainOk(d, heads[d], chains[d]) && Within(chains[d], list));
      }
    }

    /** pcp_db_add_flow on a flow that is in no chain. */
    method Add(n: Node)
      requires Valid() && n !in list
      modifies this, heads, list, n
      ensures Valid() && list == old(list) + [n] && n.bucket == Bucket(n.key)
    {
      hide Bucket, Chain, After;
      var b := HashOf(n.key);
      ghost var was := list;
      forall d | 0 <= d < FLOW_HASH_SIZE
        ensures Chain(was + [n], d) == if d == b then chains[d] + [n] else chains[d]
      {
        ChainAppend(was, n, d);
      }
      Link(n, b);
      count := count + 1;
      assert chains[b][|chains[b]| - 1] == n;
    }

    /** The walk of pcp_db_rem_flow to the flow before the one to remove; null if that is the head. */
    method Before(n: Node, b: nat, ghost k: nat) returns (p: Node?)
      requires Shape() && b < FLOW_HASH_SIZE && k < |chains[b]| && chains[b][k] == n
      ensures p == if k == 0 then null else chains[b][k - 1]
    {
      hide After;
      ghost var c := chains[b];
      assert ChainOk(b, heads[b], c);
      if heads[b] == n {
        return null;
      }
      p := heads[b];
      ghost var j := 0;
      AfterIs(c, j);
      while p.next != n
        invariant 0 <= j < k && p == c[j] && After(c, j) == c[j + 1]
        decreases k - j
      {
        p := p.next;
        j := j + 1;
        AfterIs(c, j);
      }
    }

    /** The pointer work of pcp_db_rem_flow: link around the flow. Only its chain is touched. */
    method Bypass(n: Node, b: nat, ghost k: nat)
      requires Shape() && b < FLOW_HASH_SIZE && k < |chains[b]| && chains[b][k] == n
      modifies heads, list
      ensures ChainOk(b, heads[b], Removed(chains[b], k)) && n.bucket == NO_BUCKET
      ensures forall d :: 0 <= d < FLOW_HASH_SIZE && d != b ==> heads[d] == old(heads[d])
      ensures forall m :: m in list && old(m.bucket) != b ==> m.next == old(m.next) && m.bucket == old(m.bucket)
    {
      hide After, Removed;
      ghost var c, r := chains[b], Removed(chains[b], k);
      assert ChainOk(b, heads[b], c) && Within(c, list);
      AfterRemoved(c, k);
      AfterIs(c, k);
      RemovedAt(c, k);
      RemovedKeeps(c, k);
      var p := Before(n, b, k);
      assert p != null ==> p == c[k - 1] && p in list && p.bucket == b;
      if p == null {
        heads[b] := n.next;
      } else {
        p.next := n.next;
      }
      n.bucket := NO_BUCKET;
      assert forall j :: 0 <= j < k ==> r[j].bucket == b && r[j].next == After(r, j);
      assert forall j :: k <= j < |r| ==> r[j].bucket == b && r[j].next == After(r, j);
    }

    method Unlink(n: Node, b: nat, ghost k: nat, ghost i: nat)
      requires Shape() && b < FLOW_HASH_SIZE && k < |chains[b]| && chains[b][k] == n
      requires i < |list| && list[i] == n && Distinct(list)
      modifies this, heads, list
      ensures Shape() && count == old(count) && n.bucket == NO_BUCKET
      ensures list == Removed(old(list), i) && chains == old(chains)[b := Removed(old(chains)[b], k)]
    {
      hide After, Removed;
      ghost var was, r := list, Removed(chains[b], k);
      RemovedAt(chains[b], k);
      RemovedKeeps(chains[b], k);
      forall d | 0 <= d < FLOW_HASH_SIZE
        ensures Within(if d == b then r else chains[d], Removed(list, i))
      {
        assert ChainOk(d, heads[d], chains[d]) && Within(chains[d], list) && Within(chains[b], list);
        WithinRemoved(if d == b then r else chains[d], list, i);
      }
      Bypass(n, b, k);
      forall d | 0 <= d < FLOW_HASH_SIZE && d != b
        ensures ChainOk(d, heads[d], chains[d])
      {
        assert old(ChainOk(d, heads[d], chains[d])) && Within(chains[d], was);
      }
      list := Removed(list, i);
      chains := chains[b := r];
    }

    /** pcp_db_rem_flow: takes the flow out of its chain, wherever it is in it; false for a
        flow that is in none. */
    method Remove(n: Node) returns (found: bool)
      requires Valid() && (n.bucket != NO_BUCKET ==> n in list)
      modifies this, heads, list
      ensures Valid() && found == (n in old(list))
      ensures found ==> n.bucket == NO_BUCKET
                        && exists i :: 0 <= i < |old(list)| && old(list)[i] == n && list == Removed(old(list), i)
      ensures found ==> var b := Bucket(n.key);
                        exists k :: 0 <= k < |old(chains)[b]| && old(chains)[b][k] == n
                                    && chains == old(chains)[b := Removed(old(chains)[b], k)]
      ensures !found ==> list == old(list)
    {
      hide Bucket, Chain, After;
      assert n in list ==> n in Chain(list, Bucket(n.key));
      assert ChainOk(Bucket(n.key), heads[Bucket(n.key)], chains[Bucket(n.key)]);
      if n.bucket == NO_BUCKET {
        return false;
      }
      var b := n.bucket;
      ghost var i :| 0 <= i < |list| && list[i] == n;
      ghost var was := list;
      ghost var k := ChainRemoved(was, i, b);
      assert b == Bucket(n.key);
      forall d | 0 <= d < FLOW_HASH_SIZE && d != b
        ensures Chain(Removed(was, i), d) == chains[d]
      {
        var _ := ChainRemoved(was, i, d);
      }
      Unlink(n, b, k, i);
      count := count - 1;
      RemovedKeeps(was, i);
      found := true;
    }

    /** The inner loop of pcp_db_foreach_flow. */
    method VisitChain(b: nat) returns (visited: seq<Node>)
      requires Valid() && b < FLOW_HASH_SIZE
      ensures visited == chains[b]
    {
      hide After, Bucket, Chain;
      ghost var c := chains[b];
      assert ChainOk(b, heads[b], c);
      visited := [];
      var n := heads[b];
      while n != null
        invariant |visited| <= |c| && visited == c[..|visited|]
        invariant n == (if |visited| < |c| then c[|visited|] else null)
        decreases |c| - |visited|
      {
        AfterIs(c, |visited|);
        visited := visited + [n];
        n := n.next;
      }
    }

    /** pcp_db_foreach_flow with a function that never stops the walk. */
    method ForEach() returns (visited: seq<Node>)
      requires Valid()
      ensures visited == Walk(list, 0)
    {
      visited := VisitFrom(0);
    }

    /** Its outer loop, from chain first on. */
    method VisitFrom(first: nat) returns (visited: seq<Node>)
      requires Valid() && first <= FLOW_HASH_SIZE
      ensures visited == Walk(list, first)
    {
      hide After, Bucket, Chain, Walk, ChainOk, Within;
      visited := [];
      var b := first;
      while b < FLOW_HASH_SIZE
        invariant first <= b <= FLOW_HASH_SIZE
        invariant visited + Walk(list, b) == Walk(list, first)
      {
        var c := VisitChain(b);
        WalkUnfold(list, b);
        Reassociate(visited, c, Walk(list, b + 1));
        visited := visited + c;
        b := b + 1;
      }
      WalkUnfold(list, b);
    }

    /** pcp_terminate: the same walk with a function that deletes the flow it is given. The
        successor is read before the call, and so every flow is met, once, and removed. */
    method DeleteAll()
      requires Valid()
      modifies this, heads, list
      ensures Valid() && list == [] && count == 0
      ensures forall n :: n in old(list) ==> n.bucket == NO_BUCKET
    {
      hide After, Bucket, Chain, Removed, ChainOk, Within;
      ghost var all := list;
      var b := 0;
      while b < FLOW_HASH_SIZE
        invariant 0 <= b <= FLOW_HASH_SIZE && Valid()
        invariant forall d :: 0 <= d < b ==> chains[d] == []
        invariant Remaining(all, list)
        invariant forall n :: n in all && n !in list ==> n.bucket == NO_BUCKET
        modifies this, heads, all
      {
        DeleteChain(b, all);
        b := b + 1;
      }
      if list != [] {
        SomeChain(list);
      }
    }

    /** The inner loop of that walk. */
    method DeleteChain(b: nat, ghost all: seq<Node>)
      requires Valid() && b < FLOW_HASH_SIZE && Remaining(all, list)
      requires forall m :: m in all && m !in list ==> m.bucket == NO_BUCKET
      modifies this, heads, all
      ensures Valid() && chains == old(chains)[b := []] && Remaining(all, list)
      ensures forall m :: m in all && m !in list ==> m.bucket == NO_BUCKET
    {
      hide After, Bucket, Chain, Removed;
      var n := heads[b];
      while n != null
        invariant Valid() && n == heads[b] && chains == old(chains)[b := chains[b]]
        invariant Remaining(all, list)
        invariant forall m :: m in all && m !in list ==> m.bucket == NO_BUCKET
        decreases |list|
      {
        var next := n.next;
        ghost var c, was := chains[b], list;
        assert ChainOk(b, heads[b], c) && Within(c, list);
        AfterIs(c, 0);
        assert n == c[0] && n in list && n.bucket != NO_BUCKET;
        assert n in Chain(list, b);
        var _ := Remove(n);
        HeadRemoved(c, n, chains[b]);
        ListRemoved(all, was, n, list);
        assert ChainOk(b, heads[b], chains[b]);
        n := next;
      }
      assert ChainOk(b, heads[b], chains[b]);
    }
  }

  /** What is left of a list of flows. */
  ghost predicate Remaining(all: seq<Node>, list: seq<Node>) {
    forall k :: 0 <= k < |list| ==> list[k] in all
  }

  lemma SomeChain(list: seq<Node>)
    requires list != []
    ensures Chain(list, Bucket(list[0].key)) != []
  {
    hide Bucket;
    assert list[0] in list;
  }

  lemma HeadRemoved(c: seq<Node>, n: Node, c': seq<Node>)
    requires Distinct(c) && c != [] && c[0] == n
    requires exists k :: 0 <= k < |c| && c[k] == n && c' == Removed(c, k)
    ensures c' == c[1..]
  {
  }

  lemma ListRemoved(all: seq<Node>, list: seq<Node>, n: Node, list': seq<Node>)
    requires Distinct(list) && Remaining(all, list)
    requires exists i :: 0 <= i < |list| && list[i] == n && list' == Removed(list, i)
    ensures Remaining(all, list') && |list'| == |list| - 1
    ensures forall m :: m in list && m != n ==> m in list'
  {
    var i :| 0 <= i < |list| && list[i] == n && list' == Removed(list, i);
    RemovedKeeps(list, i);
  }

  // ----- the order of the walk -------------------------------------------------------

  /** The order in which the flows of a list are met from chain b on. */
  ghost function Walk(list: seq<Node>, b: nat): seq<Node>
    decreases FLOW_HASH_SIZE - b
  {
    if b >= FLOW_HASH_SIZE then [] else Chain(list, b) + Walk(list, b + 1)
  }

  lemma Reassociate(a: seq<Node>, b: seq<Node>, c: seq<Node>)
    ensures a + b + c == a + (b + c)
  {
  }

  lemma WalkUnfold(list: seq<Node>, b: nat)
    ensures Walk(list, b) == if b >= FLOW_HASH_SIZE then [] else Chain(list, b) + Walk(list, b + 1)
  {
  }

  /** A flow added is met after all flows of its own and of earlier chains, and before all of
      later ones; the others are met in the order they were. */
  lemma {:induction false} AddedWalk(list: seq<Node>, n: Node, b: nat) returns (x: seq<Node>, y: seq<Node>)
    requires b <= Bucket(n.key)
    ensures Walk(list, b) == x + y && Walk(list + [n], b) == x + [n] + y
    ensures forall m :: m in x ==> Bucket(m.key) <= Bucket(n.key)
    ensures forall m :: m in y ==> Bucket(m.key) > Bucket(n.key)
    decreases FLOW_HASH_SIZE - b
  {
    hide Bucket, Chain;
    ChainAppend(list, n, b);
    if b == Bucket(n.key) {
      x, y := Chain(list, b), Walk(list, b + 1);
      LaterUntouched(list, n, b + 1);
    } else {
      x, y := AddedWalk(list, n, b + 1);
      x := Chain(list, b) + x;
      assert Chain(list, b) + [] == Chain(list, b);
    }
  }

  lemma {:induction false} LaterUntouched(list: seq<Node>, n: Node, b: nat)
    requires b > Bucket(n.key)
    ensures Walk(list + [n], b) == Walk(list, b)
    ensures forall m :: m in Walk(list, b) ==> Bucket(m.key) >= b
    decreases FLOW_HASH_SIZE - b
  {
    hide Bucket, Chain;
    if b < FLOW_HASH_SIZE {
      ChainAppend(list, n, b);
      LaterUntouched(list, n, b + 1);
    }
  }

  lemma RemovedAt(list: seq<Node>, i: nat)
    requires i < |list|
    ensures |Removed(list, i)| == |list| - 1
    ensures forall j :: 0 <= j < i ==> Removed(list, i)[j] == list[j]
    ensures forall j :: i <= j < |list| - 1 ==> Removed(list, i)[j] == list[j + 1]
  {
  }

  lemma WithinRemoved(c: seq<Node>, list: seq<Node>, i: nat)
    requires i < |list| && Distinct(list) && Within(c, list) && list[i] !in c
    ensures Within(c, Removed(list, i))
  {
    RemovedKeeps(list, i);
  }

  lemma RemovedKeeps(list: seq<Node>, i: nat)
    requires i < |list| && Distinct(list)
    ensures Distinct(Removed(list, i)) && list[i] !in Removed(list, i)
    ensures forall n :: n in list && n != list[i] ==> n in Removed(list, i)
  {
    forall n | n in list && n != list[i]
      ensures n in Removed(list, i)
    {
      var j :| 0 <= j < |list| && list[j] == n;
      assert Removed(list, i)[if j < i then j else j - 1] == n;
    }
  }

  lemma {:induction false} EmptyWalk(b: nat)
    ensures Walk([], b) == []
    decreases FLOW_HASH_SIZE - b
  {
    if b < FLOW_HASH_SIZE {
      EmptyWalk(b + 1);
    }
  }

  /** The walk meets every flow of the list exactly once: the chains together hold as many flows
      as the list, and flow_cnt is their number. */
  lemma {:induction false} WalkMeetsAllOnce(list: seq<Node>)
    ensures multiset(Walk(list, 0)) == multiset(list) && |Walk(list, 0)| == |list|
    decreases |list|
  {
    hide Walk, Bucket, Chain;
    if list == [] {
      EmptyWalk(0);
    } else {
      var init, last := list[..|list| - 1], list[|list| - 1];
      assert list == init + [last];
      WalkMeetsAllOnce(init);
      var x, y := AddedWalk(init, last, 0);
    }
  }

  lemma {:induction false} LaterBuckets(list: seq<Node>, b: nat)
    ensures forall m :: m in Walk(list, b) ==> Bucket(m.key) >= b
    decreases FLOW_HASH_SIZE - b
  {
    hide Bucket, Chain;
    if b < FLOW_HASH_SIZE {
      LaterBuckets(list, b + 1);
    }
  }

  /** The first flow that the walk meets with a key and server is the earliest added one: flows of
      the same key are in one chain. */
  lemma {:induction false} WalkFindsEarliest(list: seq<Node>, key: FlowKey, server: nat, b: nat)
    requires b <= Bucket(key)
    ensures Scan(Walk(list, b), key, server) == Scan(list, key, server)
    decreases FLOW_HASH_SIZE - b
  {
    assert Bucket(key) < FLOW_HASH_SIZE;
    hide Bucket, Chain, Walk;
    WalkUnfold(list, b);
    ScanConcat(Chain(list, b), Walk(list, b + 1), key, server);
    if b < Bucket(key) {
      WalkFindsEarliest(list, key, server, b + 1);
    } else {
      ScanChain(list, key, server);
      LaterBuckets(list, b + 1);
    }
  }

  /** Removing a flow takes it out of the walk and leaves the others in their order. */
  lemma {:induction false} RemovedWalk(list: seq<Node>, i: nat, b: nat) returns (x: seq<Node>, y: seq<Node>)
    requires i < |list| && b <= Bucket(list[i].key)
    ensures Walk(list, b) == x + [list[i]] + y && Walk(Removed(list, i), b) == x + y
    decreases FLOW_HASH_SIZE - b
  {
    assert Bucket(list[i].key) < FLOW_HASH_SIZE;
    hide Bucket, Chain, Walk, Removed;
    WalkUnfold(list, b);
    WalkUnfold(Removed(list, i), b);
    var k := ChainRemoved(list, i, b);
    if b == Bucket(list[i].key) {
      var c := Chain(list, b);
      LaterChainsKept(list, i, b + 1);
      x, y := c[..k], c[k + 1..] + Walk(list, b + 1);
      RemovedIs(c, k);
      SplitAround(c, k, Walk(list, b + 1));
    } else {
      x, y := RemovedWalk(list, i, b + 1);
      Reassociate(Chain(list, b), x + [list[i]], y);
      Reassociate(Chain(list, b), x, [list[i]]);
      Reassociate(Chain(list, b), x, y);
      x := Chain(list, b) + x;
    }
  }

  lemma SplitAround(c: seq<Node>, k: nat, w: seq<Node>)
    requires k < |c|
    ensures c + w == c[..k] + [c[k]] + (c[k + 1..] + w)
    ensures c[..k] + c[k + 1..] + w == c[..k] + (c[k + 1..] + w)
  {
  }

  lemma RemovedIs(list: seq<Node>, i: nat)
    requires i < |list|
    ensures Removed(list, i) == list[..i] + list[i + 1..]
  {
  }

  lemma {:induction false} LaterChainsKept(list: seq<Node>, i: nat, b: nat)
    requires i < |list| && b > Bucket(list[i].key)
    ensures Walk(Removed(list, i), b) == Walk(list, b)
    decreases FLOW_HASH_SIZE - b
  {
    hide Bucket, Chain, Removed;
    if b < FLOW_HASH_SIZE {
      var _ := ChainRemoved(list, i, b);
      LaterChainsKept(list, i, b + 1);
    }
  }
}
