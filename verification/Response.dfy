/** Received messages: validate_pcp_msg and parse_response of libpcp/src/pcp_msg.c, and what
    pcp_pulse adds to the key before the flow is looked up. */
module Response {
  import opened Types
  import opened Message

  /** A datagram in the receive record: the buffer, zeroed before the receive, the length, the
      second of arrival, and the two addresses. */
  datatype Packet = Packet(buf: seq<byte>, len: nat, received: int,
                           fromIp: Ip, fromScope: Word, toIp: Ip, toScope: Word)

  ghost predicate PacketOk(p: Packet) {
    |p.buf| == PCP_MAX_LEN && p.len <= PCP_MAX_LEN
  }

  /** validate_pcp_msg */
  predicate Valid(p: Packet)
    requires |p.buf| == PCP_MAX_LEN
  {
    && p.len % 4 == 0 && 4 <= p.len <= PCP_MAX_LEN
    && (p.buf[0] == 0 || p.buf[1] >= 128)
    && p.buf[0] as int <= PCP_MAX_SUPPORTED_VERSION
  }

  function Opcode(b: byte): byte { b % 128 }

  function EmptyKey(op: byte): FlowKey {
    FlowKey(op, Zeros(16), Zeros(16), Zeros(4), Zeros(12), 0, Zeros(2), Zeros(16), Zeros(2))
  }

  /** parse_v0_resp: NAT-PMP replies are told apart by their exact size. */
  function ParseV0(buf: seq<byte>, len: nat, received: int): Option<Msg>
    requires |buf| == PCP_MAX_LEN
  {
    var op := Opcode(buf[1]);
    if op == 0 && len == 12 then
      Some(Msg(0, buf[3] as int, 0, Read32(buf[4..8]), received, EmptyKey(0),
               Endpoint(Zeros(10) + [255, 255] + buf[8..12], Zeros(2))))
    else if (op == 1 || op == 2) && len == 16 then
      Some(Msg(0, Read16(buf[2..4]), Read32(buf[12..16]), Read32(buf[4..8]), received,
               EmptyKey(OP_MAP).(protocol := if op == 2 then IPPROTO_TCP else IPPROTO_UDP, srcPort := buf[8..10]),
               Endpoint(Zeros(16), buf[10..12])))
    else if len == 8 then
      Some(Msg(0, Read16(buf[2..4]), 0, Read32(buf[4..8]), received, EmptyKey(op), NO_ENDPOINT))
    else None
  }

  /** parse_v1_resp and parse_v2_resp, which differ by the nonce before the body. */
  function ParseBody(buf: seq<byte>, len: nat, received: int): Option<Msg>
    requires |buf| == PCP_MAX_LEN && (buf[0] == 1 || buf[0] == 2)
  {
    var op := Opcode(buf[1]);
    var at := if buf[0] == 2 then 36 else 24;
    if len < HEADER_SIZE then None
    else
      var msg := Msg(buf[0] as int, buf[3] as int, Read32(buf[4..8]), Read32(buf[8..12]), received, EmptyKey(op), NO_ENDPOINT);
      if op == OP_ANNOUNCE then Some(msg)
      else if op != OP_MAP && op != OP_PEER then None
      else if len < HEADER_SIZE + BodySize(buf[0], op) then None
      else
        var key := EmptyKey(op).(protocol := buf[at], srcPort := buf[at + 4..at + 6],
                                 nonce := if buf[0] == 2 then buf[24..36] else Zeros(12));
        var ext := Endpoint(buf[at + 8..at + 24], buf[at + 6..at + 8]);
        if op == OP_MAP then Some(msg.(key := key, ext := ext))
        else Some(msg.(key := key.(dstPort := buf[at + 24..at + 26], dst := buf[at + 28..at + 44]), ext := ext))
  }

  /** parse_response */
  function Parse(buf: seq<byte>, len: nat, received: int): Option<Msg>
    requires |buf| == PCP_MAX_LEN
  {
    if buf[0] == 0 then ParseV0(buf, len, received)
    else if buf[0] == 1 || buf[0] == 2 then ParseBody(buf, len, received)
    else None
  }

  // ----- addresses -------------------------------------------------------------------

  predicate IsV4Mapped(a: Ip) { a[..12] == Zeros(10) + [255, 255] }

  predicate IsAny(a: Ip) { a == Zeros(16) || (IsV4Mapped(a) && a[12..] == Zeros(4)) }

  predicate IsLinkLocal(a: Ip) { a[0] == 0xfe && 0x80 <= a[1] < 0xc0 }

  /** A used slot with the address, and for a link-local address the scope, for any other none. */
  predicate ServerMatches(s: Server, ip: Ip, scope: Word) {
    s.state != Uninitialized && s.ip == ip && s.scope == (if IsLinkLocal(ip) then scope else Zeros(4))
  }

  /** get_pcp_server_by_ip: the first such slot. */
  function ServerByIp(servers: seq<Server>, n: nat, ip: Ip, scope: Word): (r: Option<nat>)
    requires n <= |servers|
    ensures r.Some? ==> n <= r.value < |servers| && servers[r.value].state != Uninitialized
                        && servers[r.value].ip == ip && ServerMatches(servers[r.value], ip, scope)
                        && forall k :: n <= k < r.value ==> !ServerMatches(servers[k], ip, scope)
    ensures r.None? ==> forall k :: n <= k < |servers| ==> !ServerMatches(servers[k], ip, scope)
    decreases |servers| - n
  {
    if n == |servers| then None
    else if servers[n].state != Uninitialized && servers[n].ip == ip
            && servers[n].scope == (if IsLinkLocal(ip) then scope else Zeros(4)) then Some(n)
    else ServerByIp(servers, n + 1, ip, scope)
  }

  /** The part of pcp_pulse that completes the key of a parsed message. */
  function FillKey(msg: Msg, s: Server, p: Packet): Msg {
    var any := IsAny(p.toIp);
    msg.(key := msg.key.(serverIp := s.ip,
                         src := if any then s.src else p.toIp,
                         scope := if any then p.fromScope else p.toScope,
                         nonce := if msg.version < 2 then s.nonce else msg.key.nonce))
  }

  /** What a packet says and to which server: None where pcp_pulse drops it. */
  function Receive(servers: seq<Server>, p: Packet): (r: Option<(nat, Msg)>)
    requires |p.buf| == PCP_MAX_LEN
    ensures r.Some? ==> r.value.0 < |servers| && servers[r.value.0].state != Uninitialized
                        && r.value.1.version <= PCP_MAX_SUPPORTED_VERSION
  {
    if !Valid(p) then None
    else match Parse(p.buf, p.len, p.received)
      case None => None
      case Some(msg) =>
        match ServerByIp(servers, 0, p.fromIp, p.fromScope)
        case None => None
        case Some(i) => Some((i, FillKey(msg, servers[i], p)))
  }

  /** Exactly which packets count: a PCP message is a reply of version 1 or 2 to an opcode that is known, as
      long as its header and body at least, and a whole number of words; a NAT-PMP message has
      one of three sizes; and a known server sent it. */
  lemma ReceivedExactly(servers: seq<Server>, p: Packet)
    requires PacketOk(p)
    ensures Receive(servers, p).Some? <==>
              && (exists i :: 0 <= i < |servers| && ServerMatches(servers[i], p.fromIp, p.fromScope))
              && var op := p.buf[1] as int % 128;
                 match p.buf[0]
                 case 0 => p.len == 8 || (p.len == 12 && op == 0) || (p.len == 16 && (op == 1 || op == 2))
                 case 1 => p.buf[1] >= 128 && p.len % 4 == 0
                           && ((op == 0 && p.len >= 24) || (op == 1 && p.len >= 48) || (op == 2 && p.len >= 68))
                 case 2 => p.buf[1] >= 128 && p.len % 4 == 0
                           && ((op == 0 && p.len >= 24) || (op == 1 && p.len >= 60) || (op == 2 && p.len >= 80))
                 case _ => false
  {
    var _ := ServerByIp(servers, 0, p.fromIp, p.fromScope);
    hide ServerByIp, ServerMatches;
  }

  /** An announcement of a NAT-PMP server carries its IPv4 address (section 3.2 of RFC 6886). */
  lemma AnnouncementParsed(p: Packet)
    requires PacketOk(p) && p.buf[0] == 0 && p.buf[1] as int % 128 == 0 && p.len == 12
    ensures var msg := Parse(p.buf, p.len, p.received);
            && msg.Some? && msg.value.version == 0 && msg.value.key.op == OP_ANNOUNCE
            && msg.value.ext.ip[12..16] == p.buf[8..12] && msg.value.epoch == Read32(p.buf[4..8])
            && msg.value.result == p.buf[3] as int
  {
    hide Read32;
    var ip := Zeros(10) + [255, 255] + p.buf[8..12];
    assert ip[12..16] == p.buf[8..12];
  }

  /** A NAT-PMP server's refusal is a header alone (section 3.5 of RFC 6886): it carries a result, such as
      "unsupported version", for no mapping. */
  lemma NatPmpRefusalParsed(p: Packet)
    requires PacketOk(p) && p.buf[0] == 0 && p.len == 8
    ensures var msg := Parse(p.buf, p.len, p.received);
            && msg.Some? && msg.value.version == 0 && msg.value.lifetime == 0
            && msg.value.result == p.buf[2] as int * 256 + p.buf[3] as int
            && msg.value.epoch == Read32(p.buf[4..8])
            && msg.value.key.op as int == p.buf[1] as int % 128
  {
    hide Read32;
  }
}
