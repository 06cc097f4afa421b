/** The growable array of servers of libpcp/src/pcp_client_db.c. Flows refer to servers by index,
    so what matters is that an index keeps meaning the same server while the array moves. */
module ServerArray {
  import opened Types
  import opened EpochModel
  import opened Response

  const PCP_INIT_SERVER_COUNT := 5

  /** A slot of zeroed memory. */
  const UNUSED := Server(Uninitialized, 0, 0, None, None, 0, 0, 0, 0, Zeros(4),
                         Zeros(16), Zeros(4), Zeros(16), Zeros(12), 0, false)

  /** The fields that pcp_new_server sets; the rest is what the slot held. */
  function Occupied(s: Server, ip: Ip, scope: Word, nonce: Nonce): Server {
    s.(epoch := NO_EPOCH, ip := ip, scope := if IsLinkLocal(ip) then scope else Zeros(4),
       state := Allocated, version := PCP_MAX_SUPPORTED_VERSION, nonce := nonce)
  }

  /** The first unused slot from n on, or the length. */
  function FirstUnused(s: seq<Server>, n: nat): (r: nat)
    requires n <= |s|
    ensures n <= r <= |s| && (r < |s| ==> s[r].state == Uninitialized)
    ensures forall k :: n <= k < r ==> s[k].state != Uninitialized
    decreases |s| - n
  {
    if n == |s| || s[n].state == Uninitialized then n else FirstUnused(s, n + 1)
  }

  class Servers {
    /** Of length 0 until the first server. */
    var slots: array<Server>

    constructor ()
      ensures slots.Length == 0 && fresh(slots)
    {
      slots := new Server[0];
    }

    /** The server of an index, as get_pcp_server gives it. */
    function Lookup(i: int): (r: Option<Server>)
      reads this, slots
      ensures r.Some? <==> 0 <= i < slots.Length && slots[i].state != Uninitialized
    {
      if i < 0 || i >= slots.Length then None
      else if slots[i].state == Uninitialized then None
      else Some(slots[i])
    }

    /** The same memory, longer: realloc. */
    method Grow(length: nat)
      requires length >= slots.Length
      modifies this
      ensures slots.Length == length && fresh(slots)
      ensures slots[..] == old(slots[..]) + seq(length - old(slots.Length), _ => UNUSED)
    {
      var from := slots;
      var bigger := new Server[length](_ => UNUSED);
      var k := 0;
      while k < from.Length
        invariant 0 <= k <= from.Length
        invariant bigger[..k] == from[..k]
        invariant forall j :: k <= j < length ==> bigger[j] == UNUSED
        modifies bigger
      {
        bigger[k] := from[k];
        k := k + 1;
      }
      assert bigger[..] == bigger[..from.Length] + bigger[from.Length..];
      slots := bigger;
    }

    /** pcp_new_server: the index of a slot that was unused, the first of them. No other index
        changes its meaning, whether the array had to be doubled or not. */
    method NewServer(ip: Ip, scope: Word, nonce: Nonce) returns (index: nat)
      modifies this, slots
      ensures index < slots.Length
      ensures index == FirstUnused(old(slots[..]), 0)
      ensures Lookup(index) == Some(Occupied(if index < old(slots.Length) then old(slots[..])[index] else UNUSED,
                                             ip, scope, nonce))
      ensures var s := slots[index];
              && s.ip == ip && s.nonce == nonce && s.scope == (if IsLinkLocal(ip) then scope else Zeros(4))
              && s.state == Allocated && s.version == 2 && s.epoch == 0xFFFF_FFFF
      ensures forall i :: i != index ==> Lookup(i) == old(Lookup(i))
      ensures slots.Length == if index < old(slots.Length) then old(slots.Length)
                              else if old(slots.Length) == 0 then PCP_INIT_SERVER_COUNT else 2 * old(slots.Length)
    {
      if slots.Length == 0 {
        Grow(PCP_INIT_SERVER_COUNT);
      }
      ghost var before := slots[..];
      index := 0;
      while index < slots.Length && slots[index].state != Uninitialized
        invariant 0 <= index <= slots.Length
        invariant FirstUnused(before, index) == FirstUnused(before, 0)
      {
        index := index + 1;
      }
      if index == slots.Length {
        Grow(2 * slots.Length);
      }
      slots[index] := Occupied(slots[index], ip, scope, nonce);
    }

    /** get_pcp_server_by_ip */
    method FindByIp(ip: Ip, scope: Word) returns (r: Option<nat>)
      ensures r == ServerByIp(slots[..], 0, ip, scope)
    {
      var wanted := if IsLinkLocal(ip) then scope else Zeros(4);
      var k := 0;
      while k < slots.Length
        invariant 0 <= k <= slots.Length
        invariant ServerByIp(slots[..], k, ip, scope) == ServerByIp(slots[..], 0, ip, scope)
      {
        if slots[k].state != Uninitialized && slots[k].ip == ip && slots[k].scope == wanted {
          return Some(k);
        }
        k := k + 1;
      }
      return None;
    }
  }
}
