/** A request, answered by the server, finds its way back to its flow. */
module EndToEnd {
  import opened Types
  import opened Message
  import opened MockServer
  import opened Response
  import opened ServerMachine
  import opened Invariant

  /** The key of a flow made by pcp_new_flow for server s: the server's address, scope and nonce,
      and no destination for MAP. */
  predicate KeyOf(key: FlowKey, s: Server) {
    && key.serverIp == s.ip && key.nonce == s.nonce && key.scope == s.scope
    && (key.op == OP_PEER || (key.op == OP_MAP && key.dst == Zeros(16) && key.dstPort == Zeros(2)))
  }

  /** The server receives a request at the start of its buffer and sends back as many bytes. */
  function Reply(buf: seq<byte>, n: nat, code: byte, epoch: u32, ext: Ip, serverVersion: byte): (r: seq<byte>)
    requires |buf| == PCP_MAX_LEN && n <= PCP_MAX_LEN
    ensures |r| == PCP_MAX_LEN
  {
    Respond(buf, code, epoch, ext, serverVersion)[..n] + Zeros(PCP_MAX_LEN - n)
  }

  /** The packet carries the answer to a request from the server back to where it was sent from;
      a socket that does not report the local address gives the server's source address. */
  ghost predicate AnswersRequest(p: Packet, s: Server, key: FlowKey) {
    && p.fromIp == s.ip
    && if IsAny(p.toIp) then s.src == key.src && p.fromScope == key.scope
       else p.toIp == key.src && p.toScope == key.scope
  }

  /** The bytes of a request that its reply must keep, by position. */
  ghost predicate KeepsIdentity(r: seq<byte>, version: byte, key: FlowKey) {
    && |r| == PCP_MAX_LEN
    && r[0] == version && r[1] == key.op + 128
    && var at := if version == 2 then 36 else 24;
       && (version == 2 ==> r[24..36] == key.nonce)
       && r[at] == key.protocol && r[at + 4..at + 6] == key.srcPort
       && (key.op == OP_PEER ==> r[at + 24..at + 26] == key.dstPort && r[at + 28..at + 44] == key.dst)
  }

  lemma BodyBytes(version: byte, key: FlowKey, ext: Endpoint)
    requires (version == 1 || version == 2) && (key.op == OP_MAP || key.op == OP_PEER)
    ensures var b := Body(version, key, ext).value;
            var at := if version == 2 then 12 else 0;
            && |b| == BodySize(version, key.op)
            && (version == 2 ==> b[..12] == key.nonce)
            && b[at] == key.protocol && b[at + 4..at + 6] == key.srcPort
            && b[at + 6..at + 8] == ext.port && b[at + 8..at + 24] == ext.ip
            && (key.op == OP_PEER ==> b[at + 24..at + 26] == key.dstPort && b[at + 28..at + 44] == key.dst)
  {
    var b := Body(version, key, ext).value;
    var at := if version == 2 then 12 else 0;
    assert b[at + 4..at + 6] == key.srcPort && b[at + 6..at + 8] == ext.port && b[at + 8..at + 24] == ext.ip;
    if key.op == OP_PEER {
      assert b[at + 24..at + 26] == key.dstPort;
      assert b[at + 28..at + 44] == key.dst;
    }
  }

  /** A slice of the body seen as a slice of the message. */
  lemma BodySlice(buf: seq<byte>, body: seq<byte>, i: nat, j: nat)
    requires i <= j <= |body| && Holds(buf, HEADER_SIZE, body)
    ensures buf[HEADER_SIZE + i..HEADER_SIZE + j] == body[i..j]
  {
    assert buf[HEADER_SIZE + i..HEADER_SIZE + j] == buf[HEADER_SIZE..HEADER_SIZE + |body|][i..j];
  }

  lemma ThreeParts(a: seq<byte>, b: seq<byte>, c: seq<byte>)
    ensures (a + b + c)[..|a|] == a && (a + b + c)[|a|..|a| + |b|] == b
  {
  }

  lemma RequestParts(buf: seq<byte>, version: byte, key: FlowKey, lifetime: u32, ext: Endpoint, o: OptionFields)
    requires Request(version, key, lifetime, ext, o).Some?
    requires InBuffer(buf, Request(version, key, lifetime, ext, o).value)
    ensures Holds(buf, HEADER_SIZE, Body(version, key, ext).value)
    ensures buf[..HEADER_SIZE] == Header(version, key, lifetime)
  {
    BodyHasItsSize(version, key, ext);
    hide AllOpts, EncodeOpts, Header, Body, BodySize;
    var req := Request(version, key, lifetime, ext, o).value;
    var body := Body(version, key, ext).value;
    var rest := EncodeOpts(AllOpts(HEADER_SIZE + |body|, o));
    assert req == Header(version, key, lifetime) + body + rest;
    ThreeParts(Header(version, key, lifetime), body, rest);
    PrefixSlice(buf, |req|, 0, HEADER_SIZE);
    PrefixSlice(buf, |req|, HEADER_SIZE, HEADER_SIZE + |body|);
  }

  lemma PrefixSlice(s: seq<byte>, n: nat, i: nat, j: nat)
    requires i <= j <= n <= |s|
    ensures s[..n][i..j] == s[i..j]
    ensures i == 0 ==> s[..n][..j] == s[..j]
  {
  }

  lemma HeaderStart(version: byte, key: FlowKey, lifetime: u32)
    requires key.op < 128
    ensures Header(version, key, lifetime)[0] == version && Header(version, key, lifetime)[1] == key.op
  {
  }

  /** The request as the server has it in its buffer keeps all that identifies the flow. */
  lemma RequestIdentifies(buf: seq<byte>, version: byte, key: FlowKey, lifetime: u32, ext: Endpoint, o: OptionFields)
    requires |buf| == PCP_MAX_LEN && (version == 1 || version == 2) && (key.op == OP_MAP || key.op == OP_PEER)
    requires InBuffer(buf, Request(version, key, lifetime, ext, o).value)
    ensures KeepsIdentity(buf[1 := key.op + 128], version, key) && buf[1] == key.op && buf[0] == version
  {
    RequestParts(buf, version, key, lifetime, ext, o);
    BodyBytes(version, key, ext);
    HeaderStart(version, key, lifetime);
    hide Body, Header, Request, BodySize, Holds;
    var body := Body(version, key, ext).value;
    assert buf[0] == buf[..HEADER_SIZE][0] && buf[1] == buf[..HEADER_SIZE][1];
    var at := if version == 2 then 12 else 0;
    BodySlice(buf, body, at, at + 1);
    assert buf[24 + at] == buf[24 + at..24 + at + 1][0] == body[at..at + 1][0];
    BodySlice(buf, body, at + 4, at + 6);
    if version == 2 {
      BodySlice(buf, body, 0, 12);
    }
    if key.op == OP_PEER {
      BodySlice(buf, body, at + 24, at + 26);
      BodySlice(buf, body, at + 28, at + 44);
    }
    var r := buf[1 := key.op + 128];
    assert r[2..] == buf[2..];
    SubSlice(r, buf, 2, |buf|, 24 + at + 4, 24 + at + 6);
    SubSlice(r, buf, 2, |buf|, 24, 24 + at);
    if key.op == OP_PEER {
      SubSlice(r, buf, 2, |buf|, 24 + at + 24, 24 + at + 26);
      SubSlice(r, buf, 2, |buf|, 24 + at + 28, 24 + at + 44);
    }
  }

  /** Answering changes none of it. */
  lemma RespondKeepsIdentity(buf: seq<byte>, version: byte, key: FlowKey, code: byte, epoch: u32, ext: Ip, serverVersion: byte)
    requires |buf| == PCP_MAX_LEN && (version == 1 || version == 2) && (key.op == OP_MAP || key.op == OP_PEER)
    requires KeepsIdentity(buf[1 := key.op + 128], version, key) && buf[1] == key.op && buf[0] == version
    requires code as int != RES_UNSUPP_VERSION
    ensures KeepsIdentity(Respond(buf, code, epoch, ext, serverVersion), version, key)
  {
    var b := buf[1 := key.op + 128];
    var r := Respond(buf, code, epoch, ext, serverVersion);
    var at := if version == 2 then 36 else 24;
    RespondKeepsTail(buf, version, key.op, code, epoch, ext, serverVersion);
    hide Respond;
    assert b[24..] == buf[24..];
    SubSlice(b, buf, 24, |buf|, 24, at + 8);
    SubSlice(r, b, 24, at + 8, at, at + 1);
    assert r[at] == r[at..at + 1][0] == b[at..at + 1][0] == b[at];
    SubSlice(r, b, 24, at + 8, at + 4, at + 6);
    SubSlice(r, b, 24, at + 8, 24, at);
    if key.op == OP_PEER {
      SubSlice(r, b, 24, |buf|, at + 24, at + 26);
      SubSlice(r, b, 24, |buf|, at + 28, at + 44);
    }
  }

  lemma SubSlice(x: seq<byte>, y: seq<byte>, a: nat, c: nat, i: nat, j: nat)
    requires a <= i <= j <= c <= |x| == |y| && x[a..c] == y[a..c]
    ensures x[i..j] == y[i..j]
  {
    forall k | i <= k < j
      ensures x[k] == y[k]
    {
      assert x[k] == x[a..c][k - a] && y[k] == y[a..c][k - a];
    }
  }

  /** What create_response leaves alone: the body up to the ports, for PEER all of it. */
  lemma RespondKeepsTail(buf: seq<byte>, version: byte, op: byte, code: byte, epoch: u32, ext: Ip, serverVersion: byte)
    requires |buf| == PCP_MAX_LEN && (version == 1 || version == 2) && (op == OP_MAP || op == OP_PEER)
    requires buf[0] == version && buf[1] == op && code as int != RES_UNSUPP_VERSION
    ensures var r := Respond(buf, code, epoch, ext, serverVersion);
            var at := if version == 2 then 36 else 24;
            && r[0] == version && r[1] == op + 128 && r[3] == code
            && r[4..8] == buf[4..8] && r[8..12] == BE32(epoch)
            && r[24..at + 8] == buf[24..at + 8]
            && (op == OP_PEER ==> r[24..] == buf[24..])
  {
    var r0 := RespondHeader(buf, code, epoch);
    assert r0[0] == version && r0[1] == op + 128 && r0[3] == code;
    assert r0[4..8] == buf[4..8] && r0[8..12] == BE32(epoch) && r0[24..] == buf[24..];
    hide RespondHeader;
    var at := if version == 2 then 36 else 24;
    var r := Respond(buf, code, epoch, ext, serverVersion);
    if op == OP_MAP {
      assert r == Splice(r0, at + 8, ext);
      assert r[..at + 8] == r0[..at + 8];
      SubSlice(r, r0, 0, at + 8, 4, 8);
      SubSlice(r, r0, 0, at + 8, 8, 12);
      SubSlice(r, r0, 0, at + 8, 24, at + 8);
      assert r[0] == r[..at + 8][0] && r[1] == r[..at + 8][1] && r[3] == r[..at + 8][3];
    } else {
      assert r == r0;
    }
    SubSlice(r0, buf, 24, |buf|, 24, at + 8);
  }

  /** Cutting the reply to the length of the request keeps it, too. */
  lemma TruncationKeepsIdentity(r: seq<byte>, n: nat, version: byte, key: FlowKey)
    requires |r| == PCP_MAX_LEN && (version == 1 || version == 2) && (key.op == OP_MAP || key.op == OP_PEER)
    requires KeepsIdentity(r, version, key) && HEADER_SIZE + BodySize(version, key.op) <= n <= PCP_MAX_LEN
    ensures KeepsIdentity(r[..n] + Zeros(PCP_MAX_LEN - n), version, key)
  {
    var c := r[..n] + Zeros(PCP_MAX_LEN - n);
    var at := if version == 2 then 36 else 24;
    assert c[..n] == r[..n];
    SubSlice(c, r, 0, n, at + 4, at + 6);
    SubSlice(c, r, 0, n, 24, at);
    if key.op == OP_PEER {
      SubSlice(c, r, 0, n, at + 24, at + 26);
      SubSlice(c, r, 0, n, at + 28, at + 44);
    }
  }

  /** A message with the identity of a key parses to that key, once pcp_pulse has filled in
      what the wire does not carry. */
  lemma ParsedKey(p: Packet, version: byte, key: FlowKey, s: Server)
    requires PacketOk(p) && (version == 1 || version == 2) && KeyOf(key, s) && AnswersRequest(p, s, key)
    requires KeepsIdentity(p.buf, version, key) && HEADER_SIZE + BodySize(version, key.op) <= p.len
    ensures Parse(p.buf, p.len, p.received).Some?
    ensures FillKey(Parse(p.buf, p.len, p.received).value, s, p).key == key
    ensures Parse(p.buf, p.len, p.received).value.result == p.buf[3] as int
  {
  }

  // ----- the external address --------------------------------------------------------

  /** Where a message carries the external endpoint. */
  ghost predicate CarriesEndpoint(r: seq<byte>, version: byte, ext: Endpoint) {
    && |r| == PCP_MAX_LEN
    && var at := if version == 2 then 36 else 24;
       r[at + 6..at + 8] == ext.port && r[at + 8..at + 24] == ext.ip
  }

  lemma RequestEndpoint(buf: seq<byte>, version: byte, key: FlowKey, lifetime: u32, ext: Endpoint, o: OptionFields)
    requires |buf| == PCP_MAX_LEN && (version == 1 || version == 2) && (key.op == OP_MAP || key.op == OP_PEER)
    requires InBuffer(buf, Request(version, key, lifetime, ext, o).value)
    ensures CarriesEndpoint(buf, version, ext)
  {
    RequestParts(buf, version, key, lifetime, ext, o);
    BodyBytes(version, key, ext);
    hide Body, Header, Request, BodySize, Holds;
    var body, at := Body(version, key, ext).value, if version == 2 then 12 else 0;
    BodySlice(buf, body, at + 6, at + 8);
    BodySlice(buf, body, at + 8, at + 24);
  }

  /** The server assigns its address to a mapping and the port that was suggested; it leaves the endpoint
      of a peering alone. */
  function Assigned(op: byte, suggested: Endpoint, address: Ip): Endpoint {
    if op == OP_MAP then Endpoint(address, suggested.port) else suggested
  }

  lemma RespondEndpoint(buf: seq<byte>, version: byte, op: byte, suggested: Endpoint, code: byte, epoch: u32, address: Ip,
                        serverVersion: byte)
    requires |buf| == PCP_MAX_LEN && (version == 1 || version == 2) && (op == OP_MAP || op == OP_PEER)
    requires buf[0] == version && buf[1] == op && code as int != RES_UNSUPP_VERSION
    requires CarriesEndpoint(buf, version, suggested)
    ensures CarriesEndpoint(Respond(buf, code, epoch, address, serverVersion), version, Assigned(op, suggested, address))
  {
    var at := if version == 2 then 36 else 24;
    var r0 := RespondHeader(buf, code, epoch);
    RespondIs(buf, code, epoch, address, serverVersion);
    HeaderBytes(buf, code, epoch);
    assert r0[24..] == buf[24..];
    hide RespondHeader, Respond;
    SubSlice(r0, buf, 24, |buf|, at + 6, at + 8);
    SubSlice(r0, buf, 24, |buf|, at + 8, at + 24);
    if op == OP_MAP {
      var r := Splice(r0, at + 8, address);
      assert r[..at + 8] == r0[..at + 8] && r[at + 8..at + 24] == address;
      SubSlice(r, r0, 0, at + 8, at + 6, at + 8);
    }
  }

  lemma TruncationKeepsEndpoint(r: seq<byte>, n: nat, version: byte, ext: Endpoint)
    requires CarriesEndpoint(r, version, ext) && (version == 1 || version == 2)
    requires (if version == 2 then 60 else 48) <= n <= PCP_MAX_LEN
    ensures CarriesEndpoint(r[..n] + Zeros(PCP_MAX_LEN - n), version, ext)
  {
    var c, at := r[..n] + Zeros(PCP_MAX_LEN - n), if version == 2 then 36 else 24;
    assert c[..n] == r[..n];
    SubSlice(c, r, 0, n, at + 6, at + 8);
    SubSlice(c, r, 0, n, at + 8, at + 24);
  }

  lemma ParsedEndpoint(p: Packet, version: byte, op: byte, ext: Endpoint)
    requires PacketOk(p) && (version == 1 || version == 2) && (op == OP_MAP || op == OP_PEER)
    requires p.buf[0] == version && Opcode(p.buf[1]) == op && CarriesEndpoint(p.buf, version, ext)
    requires HEADER_SIZE + BodySize(version, op) <= p.len
    ensures Parse(p.buf, p.len, p.received).Some? && Parse(p.buf, p.len, p.received).value.ext == ext
  {
  }

  lemma FirstBytes(r: seq<byte>, n: nat, buf: seq<byte>)
    requires |r| == PCP_MAX_LEN && 24 <= n <= PCP_MAX_LEN && buf == r[..n] + Zeros(PCP_MAX_LEN - n)
    ensures buf[0] == r[0] && buf[1] == r[1] && buf[3] == r[3]
    ensures buf[4..8] == r[4..8] && buf[8..12] == r[8..12]
  {
    assert buf[..n] == r[..n];
    SubSlice(buf, r, 0, n, 4, 8);
    SubSlice(buf, r, 0, n, 8, 12);
  }

  /** The requested lifetime stands where a response has its own. */
  lemma RequestLifetime(buf: seq<byte>, version: byte, key: FlowKey, lifetime: u32, ext: Endpoint, o: OptionFields)
    requires Request(version, key, lifetime, ext, o).Some?
    requires InBuffer(buf, Request(version, key, lifetime, ext, o).value)
    ensures |buf| >= HEADER_SIZE && buf[4..8] == BE32(lifetime)
  {
    RequestParts(buf, version, key, lifetime, ext, o);
    hide Request, Body, BE32;
    assert Header(version, key, lifetime)[4..8] == BE32(lifetime);
    assert buf[4..8] == buf[..HEADER_SIZE][4..8];
  }

  lemma ParsedVersion(p: Packet, s: Server)
    requires PacketOk(p) && Parse(p.buf, p.len, p.received).Some?
    ensures var msg := Parse(p.buf, p.len, p.received).value;
            && FillKey(msg, s, p).version == msg.version == p.buf[0] as int
            && FillKey(msg, s, p).result == msg.result && FillKey(msg, s, p).ext == msg.ext
            && FillKey(msg, s, p).received == p.received
            && (p.buf[0] > 0 ==> FillKey(msg, s, p).lifetime == Read32(p.buf[4..8])
                                 && FillKey(msg, s, p).epoch == Read32(p.buf[8..12]))
  {
  }

  /** The reply carries the endpoint that the server assigned. */
  lemma ReplyEndpoint(key: FlowKey, version: byte, lifetime: u32, ext: Endpoint, o: OptionFields,
                      buf: seq<byte>, code: byte, epoch: u32, extIp: Ip, serverVersion: byte, p: Packet)
    requires (version == 1 || version == 2) && (key.op == OP_MAP || key.op == OP_PEER)
    requires |buf| == PCP_MAX_LEN && InBuffer(buf, Request(version, key, lifetime, ext, o).value)
    requires code as int != RES_UNSUPP_VERSION && PacketOk(p)
    requires p.len == |Request(version, key, lifetime, ext, o).value|
    requires p.buf == Reply(buf, p.len, code, epoch, extIp, serverVersion)
    ensures Parse(p.buf, p.len, p.received).Some?
    ensures Parse(p.buf, p.len, p.received).value.ext == Assigned(key.op, ext, extIp)
  {
    RequestLength(version, key, lifetime, ext, o);
    EndpointFits(version, key.op);
    hide Request, KeepsIdentity, CarriesEndpoint, Parse, Respond, BodySize, Assigned, Reply, InBuffer, Opcode;
    RequestIdentifies(buf, version, key, lifetime, ext, o);
    RequestEndpoint(buf, version, key, lifetime, ext, o);
    RespondEndpoint(buf, version, key.op, ext, code, epoch, extIp, serverVersion);
    ReplyHead(buf, p.len, version, key.op, code, epoch, extIp, serverVersion);
    TruncationKeepsEndpoint(Respond(buf, code, epoch, extIp, serverVersion), p.len, version, Assigned(key.op, ext, extIp));
    ParsedEndpoint(p, version, key.op, Assigned(key.op, ext, extIp));
  }

  lemma ReplyHead(buf: seq<byte>, n: nat, version: byte, op: byte, code: byte, epoch: u32, extIp: Ip, serverVersion: byte)
    requires |buf| == PCP_MAX_LEN && 24 <= n <= PCP_MAX_LEN && (version == 1 || version == 2) && (op == OP_MAP || op == OP_PEER)
    requires buf[0] == version && buf[1] == op && code as int != RES_UNSUPP_VERSION
    ensures var b := Reply(buf, n, code, epoch, extIp, serverVersion);
            && b[0] == version && Opcode(b[1]) == op
            && b == Respond(buf, code, epoch, extIp, serverVersion)[..n] + Zeros(PCP_MAX_LEN - n)
  {
    RespondKeepsTail(buf, version, op, code, epoch, extIp, serverVersion);
    hide Respond;
    FirstBytes(Respond(buf, code, epoch, extIp, serverVersion), n, Reply(buf, n, code, epoch, extIp, serverVersion));
  }

  lemma EndpointFits(version: byte, op: byte)
    ensures HEADER_SIZE + BodySize(version, op) >= if version == 2 then 60 else 48
  {
  }

  /** End to end: for every flow of version 1 or 2 that maps or peers, with any options, any
      rest in the server's buffer and any result code but "unsupported version", the reply to its
      request passes the validation, parses, and gives back exactly the key of the flow. */
  lemma ReplyFindsKey(key: FlowKey, s: Server, version: byte, lifetime: u32, ext: Endpoint, o: OptionFields,
                      buf: seq<byte>, code: byte, epoch: u32, extIp: Ip, serverVersion: byte, p: Packet)
    requires (version == 1 || version == 2) && KeyOf(key, s)
    requires |buf| == PCP_MAX_LEN && InBuffer(buf, Request(version, key, lifetime, ext, o).value)
    requires code as int != RES_UNSUPP_VERSION
    requires PacketOk(p) && AnswersRequest(p, s, key)
    requires p.len == |Request(version, key, lifetime, ext, o).value|
    requires p.buf == Reply(buf, p.len, code, epoch, extIp, serverVersion)
    ensures Valid(p)
    ensures Parse(p.buf, p.len, p.received).Some?
    ensures var msg := FillKey(Parse(p.buf, p.len, p.received).value, s, p);
            && msg.key == key && msg.result == code as int && msg.version == version as int
            && msg.lifetime == lifetime && msg.epoch == epoch
            && msg.received == p.received && msg.ext == Assigned(key.op, ext, extIp)
  {
    ReplyEndpoint(key, version, lifetime, ext, o, buf, code, epoch, extIp, serverVersion, p);
    RequestLength(version, key, lifetime, ext, o);
    RequestIdentifies(buf, version, key, lifetime, ext, o);
    RequestLifetime(buf, version, key, lifetime, ext, o);
    hide Request, KeepsIdentity, BodySize;
    var r := Respond(buf, code, epoch, extIp, serverVersion);
    RespondKeepsIdentity(buf, version, key, code, epoch, extIp, serverVersion);
    RespondKeepsTail(buf, version, key.op, code, epoch, extIp, serverVersion);
    hide Respond;
    TruncationKeepsIdentity(r, p.len, version, key);
    assert p.buf == r[..p.len] + Zeros(PCP_MAX_LEN - p.len);
    FirstBytes(r, p.len, p.buf);
    ReadBack32(lifetime);
    ReadBack32(epoch);
    hide Parse, Reply, FillKey, Read32, BE32;
    ParsedKey(p, version, key, s);
    ParsedVersion(p, s);
  }

  /** A server that does not speak the version of the request answers with its own. The client reads
      the refusal, and the version it names, exactly where the reply is long enough for a body of that
      version; a server of version 0 is not understood at all. */
  lemma RefusalIsRead(key: FlowKey, version: byte, lifetime: u32, ext: Endpoint, o: OptionFields,
                      buf: seq<byte>, epoch: u32, extIp: Ip, serverVersion: byte, p: Packet)
    requires (version == 1 || version == 2) && (key.op == OP_MAP || key.op == OP_PEER) && serverVersion <= 2
    requires |buf| == PCP_MAX_LEN && InBuffer(buf, Request(version, key, lifetime, ext, o).value)
    requires PacketOk(p) && p.len == |Request(version, key, lifetime, ext, o).value|
    requires p.buf == Reply(buf, p.len, 1, epoch, extIp, serverVersion)
    ensures var msg := Parse(p.buf, p.len, p.received);
            && (msg.Some? <==> serverVersion > 0 && HEADER_SIZE + BodySize(serverVersion, key.op) <= p.len)
            && (msg.Some? ==> msg.value.result == 1 && msg.value.version == serverVersion as int)
  {
    RequestLength(version, key, lifetime, ext, o);
    RequestIdentifies(buf, version, key, lifetime, ext, o);
    hide Request, KeepsIdentity, Parse, BodySize;
    RefusalBytes(buf, epoch, extIp, serverVersion);
    FirstBytes(Respond(buf, 1, epoch, extIp, serverVersion), p.len, p.buf);
    EndpointFits(version, key.op);
    RefusalParsed(p, serverVersion, key.op);
  }

  lemma RefusalBytes(buf: seq<byte>, epoch: u32, extIp: Ip, serverVersion: byte)
    requires |buf| == PCP_MAX_LEN && buf[1] < 128
    ensures var r := Respond(buf, 1, epoch, extIp, serverVersion);
            r[0] == serverVersion && r[1] == buf[1] + 128 && r[3] == 1
  {
    RespondIs(buf, 1, epoch, extIp, serverVersion);
    HeaderBytes(buf, 1, epoch);
    hide Respond;
    assert RespondHeader(buf, 1, epoch)[3] == 1;
  }

  lemma RefusalParsed(p: Packet, version: byte, op: byte)
    requires PacketOk(p) && version <= 2 && (op == OP_MAP || op == OP_PEER) && p.len >= 48
    requires p.buf[0] == version && p.buf[1] == op + 128 && p.buf[3] == 1
    ensures var msg := Parse(p.buf, p.len, p.received);
            && (msg.Some? <==> version > 0 && HEADER_SIZE + BodySize(version, op) <= p.len)
            && (msg.Some? ==> msg.value.result == 1 && msg.value.version == version as int)
  {
    hide Read32, Read16;
  }

  /** A request that comes back as it was sent is no reply. */
  lemma EchoIsDropped(servers: seq<Server>, key: FlowKey, version: byte, lifetime: u32, ext: Endpoint, o: OptionFields, p: Packet)
    requires (version == 1 || version == 2) && (key.op == OP_MAP || key.op == OP_PEER)
    requires PacketOk(p) && InBuffer(p.buf, Request(version, key, lifetime, ext, o).value)
    ensures Receive(servers, p) == None
  {
    RequestIdentifies(p.buf, version, key, lifetime, ext, o);
    hide Request, KeepsIdentity;
  }

  /** A reply of a NAT-PMP server to a mapping request (section 3.3 of RFC 6886): the opcode of the
      request with the top bit set, result, epoch, and the internal port of the request. */
  function NatPmpReply(req: seq<byte>, code: u16, epoch: u32, extPort: Port, lifetime: u32): (r: seq<byte>)
    requires |req| == 12 && req[1] < 128
    ensures |r| == PCP_MAX_LEN
  {
    [0, req[1] + 128] + BE16(code) + BE32(epoch) + req[4..6] + extPort + BE32(lifetime) + Zeros(PCP_MAX_LEN - 16)
  }

  lemma NatPmpReplyBytes(req: seq<byte>, code: u16, epoch: u32, extPort: Port, lifetime: u32)
    requires |req| == 12 && req[1] < 128
    ensures var r := NatPmpReply(req, code, epoch, extPort, lifetime);
            && r[0] == 0 && r[1] == req[1] + 128 && r[2..4] == BE16(code) && r[4..8] == BE32(epoch)
            && r[8..10] == req[4..6] && r[10..12] == extPort && r[12..16] == BE32(lifetime)
  {
    hide BE16, BE32;
  }

  /** End to end for NAT-PMP: the reply to a mapping request parses, and gives back the key of the
      flow, although the wire carries the port and the protocol only. */
  lemma NatPmpReplyFindsKey(key: FlowKey, s: Server, lifetime: u32, ext: Endpoint,
                            code: u16, epoch: u32, extPort: Port, granted: u32, p: Packet)
    requires KeyOf(key, s) && key.op == OP_MAP && (key.protocol == IPPROTO_TCP || key.protocol == IPPROTO_UDP)
    requires PacketOk(p) && AnswersRequest(p, s, key) && p.len == 16
    requires p.buf == NatPmpReply(NatPmpRequest(key, lifetime, ext), code, epoch, extPort, granted)
    ensures Valid(p)
    ensures Parse(p.buf, p.len, p.received).Some?
    ensures var msg := FillKey(Parse(p.buf, p.len, p.received).value, s, p);
            && msg.key == key && msg.version == 0 && msg.result == code
            && msg.lifetime == granted && msg.epoch == epoch && msg.ext.port == extPort
  {
    var req := NatPmpRequest(key, lifetime, ext);
    assert req[1] == NatPmpOpcode(key) && req[4..6] == key.srcPort;
    hide NatPmpRequest, BE16, BE32, Read16, Read32;
    NatPmpReplyBytes(req, code, epoch, extPort, granted);
    hide NatPmpReply;
    ReadBack16(code);
    ReadBack32(epoch);
    ReadBack32(granted);
  }

  /** The flow is the oldest of the registered flows of its server with its key. */
  ghost predicate OldestOfKey(w: World, id: nat)
    requires id < |w.flows| && InRange(w.order, |w.flows|)
  {
    forall x :: x in w.order && w.flows[x].server == w.flows[id].server && w.flows[x].key == w.flows[id].key ==> id <= x
  }

  /** ... so that the client hands the message to the oldest registered flow of the server with
      that key; to the very flow that sent the request if and only if it is the oldest, as it is
      where keys are unique. */
  lemma ReplyFindsFlow(w: World, i: nat, id: nat, version: byte, ext: Endpoint, o: OptionFields,
                       buf: seq<byte>, code: byte, epoch: u32, extIp: Ip, serverVersion: byte, p: Packet)
    requires i < |w.servers| && Inv(w) && Wf(w)
    requires id in w.order && id < |w.flows| && w.flows[id].server == i
    requires var f := w.flows[id];
             && (version == 1 || version == 2) && KeyOf(f.key, w.servers[i])
             && |buf| == PCP_MAX_LEN && InBuffer(buf, Request(version, f.key, f.lifetime, ext, o).value)
             && PacketOk(p) && AnswersRequest(p, w.servers[i], f.key)
             && p.len == |Request(version, f.key, f.lifetime, ext, o).value|
    requires code as int != RES_UNSUPP_VERSION
    requires p.buf == Reply(buf, p.len, code, epoch, extIp, serverVersion)
    requires ServerByIp(w.servers, 0, p.fromIp, p.fromScope) == Some(i)
    ensures var r := Receive(w.servers, p);
            && r.Some? && r.value.0 == i
            && r.value.1.result == code as int && r.value.1.version == version as int
            && r.value.1.lifetime == w.flows[id].lifetime && r.value.1.received == p.received
            && r.value.1.ext == Assigned(w.flows[id].key.op, ext, extIp)
            && var found := Match(w, i, r.value.1).0;
               && found.Some? && found.value in w.order && w.flows[found.value].key == w.flows[id].key
               && OldestOfKey(w, found.value) && w.flows[found.value].server == i
               && (found == Some(id) <==> OldestOfKey(w, id))
  {
    var f := w.flows[id];
    assert Ordered(w.flows, w.order) && InRange(w.order, |w.flows|);
    hide Request, Reply, Parse, InBuffer, AnswersRequest, Valid, Ordered, Inv;
    ReplyFindsKey(f.key, w.servers[i], version, f.lifetime, ext, o, buf, code, epoch, extIp, serverVersion, p);
    var msg := Receive(w.servers, p).value.1;
    assert msg.key == f.key && msg.version == version as int;
    LookupFindsEarliest(w.flows, w.order, i, f.key);
    hide Lookup;
    var found := Lookup(w.flows, w.order, i, f.key);
    assert found.Some?;
  }
}
