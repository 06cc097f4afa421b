/** A request as a server reads it: every field at the offset that sections 7, 7.3, 11.1 and 12.1 of
    RFC 6887 give it, and the options one by one. Reading undoes building. */
module Reader {
  import opened Types
  import opened Message
  import opened MockServer
  import opened EndToEnd

  /** The opcode data of MAP and PEER; a remote peer with PEER only, a nonce from version 2 on. */
  datatype BodyView = BodyView(nonce: Option<Nonce>, protocol: byte, srcPort: Port, ext: Endpoint,
                               remote: Option<Endpoint>)

  datatype RequestView = RequestView(version: byte, op: byte, lifetime: u32, client: Ip,
                                     body: Option<BodyView>, opts: seq<Opt>)

  /** One option from its code and its data. */
  function ReadOpt(code: byte, data: seq<byte>): Option<Opt> {
    match code
    case 1 => if |data| == 16 then Some(ThirdParty(data)) else None
    case 2 => if |data| == 0 then Some(PreferFailure) else None
    case 3 => if |data| == 20 then Some(Filter(data[1], data[2..4], data[4..20])) else None
    case 96 => if |data| == 32 then Some(DeviceId(data)) else None
    case 97 => if |data| == 32 then Some(Location(data)) else None
    case 98 => if |data| == 512 then Some(UserId(data)) else None
    case 99 => if |data| == 4 then Some(FlowPriority(data[0], data[1])) else None
    case 100 =>
      if 4 <= |data| <= 28 && Read32(data[..4]) < 0x1_0000
      then Some(MetadataOpt(Metadata(Read32(data[..4]), data[4..]))) else None
    case _ => None
  }

  /** Options one behind the other: code, reserved byte, length of the data, data. */
  function ReadOpts(b: seq<byte>): Option<seq<Opt>>
    decreases |b|
  {
    if b == [] then Some([])
    else if |b| < 4 then None
    else
      var end := 4 + Read16(b[2..4]);
      if end > |b| then None
      else
        match ReadOpt(b[0], b[4..end])
        case None => None
        case Some(o) =>
          match ReadOpts(b[end..])
          case None => None
          case Some(rest) => Some([o] + rest)
  }

  function ReadBody(version: byte, op: byte, b: seq<byte>): BodyView
    requires |b| == BodySize(version, op)
  {
    var at := if version == 2 then 12 else 0;
    BodyView(if version == 2 then Some(b[..12]) else None,
             b[at], b[at + 4..at + 6], Endpoint(b[at + 8..at + 24], b[at + 6..at + 8]),
             if op == OP_PEER then Some(Endpoint(b[at + 28..at + 44], b[at + 24..at + 26])) else None)
  }

  function ReadRequest(m: seq<byte>): Option<RequestView> {
    if |m| < HEADER_SIZE || (m[0] != 1 && m[0] != 2) then None
    else
      var view := RequestView(m[0], m[1], Read32(m[4..8]), m[8..24], None, []);
      if m[1] == OP_ANNOUNCE then Some(view)
      else if m[1] != OP_MAP && m[1] != OP_PEER then None
      else
        var end := HEADER_SIZE + BodySize(m[0], m[1]);
        if |m| < end then None
        else
          match ReadOpts(m[end..])
          case None => None
          case Some(opts) => Some(view.(body := Some(ReadBody(m[0], m[1], m[HEADER_SIZE..end])), opts := opts))
  }

  // ----- options ---------------------------------------------------------------------

  /** A metadata value arrives with its padding: the wire has no length of its own for it. */
  function Padded(o: Opt): Opt {
    match o
    case MetadataOpt(md) =>
      MetadataFits(|md.value|);
      MetadataOpt(Metadata(md.id, md.value + Zeros(Padding(|md.value|))))
    case _ => o
  }

  lemma MetadataFits(n: nat)
    requires n <= 24
    ensures n + Padding(n) <= 24
  {
  }

  function AllPadded(os: seq<Opt>): seq<Opt> {
    if os == [] then [] else [Padded(os[0])] + AllPadded(os[1..])
  }

  lemma OptIsRead(o: Opt)
    ensures ReadOpt(OptCode(o), OptData(o)) == Some(Padded(o))
  {
    match o
    case Filter(prefix, port, ip) =>
      var d := OptData(o);
      assert d[1] == prefix && d[2..4] == port && d[4..20] == ip;
    case MetadataOpt(md) =>
      MetadataIsRead(md);
    case _ =>
  }

  lemma MetadataIsRead(md: Metadata)
    ensures ReadOpt(100, OptData(MetadataOpt(md))) == Some(Padded(MetadataOpt(md)))
  {
    hide BE32, Read32, Padding;
    MetadataFits(|md.value|);
    ReadBack32(md.id);
    var tail := md.value + Zeros(Padding(|md.value|));
    var d := OptData(MetadataOpt(md));
    assert d == BE32(md.id) + tail;
    assert d[..4] == BE32(md.id) && d[4..] == tail;
  }

  /** Reading the options undoes writing them. */
  lemma {:induction false} OptsAreRead(os: seq<Opt>)
    ensures ReadOpts(EncodeOpts(os)) == Some(AllPadded(os))
  {
    if os != [] {
      OptsAreRead(os[1..]);
      OptIsRead(os[0]);
      HeaderOfOpt(os[0], EncodeOpts(os[1..]));
      hide OptData, OptHeader, EncodeOpt, OptSize, OptCode, ReadOpt, Padded;
      var b := EncodeOpts(os);
      assert b == EncodeOpt(os[0]) + EncodeOpts(os[1..]);
    }
  }

  lemma HeaderOfOpt(o: Opt, rest: seq<byte>)
    ensures var b := EncodeOpt(o) + rest;
            && |b| >= 4 && b[0] == OptCode(o) && 4 + Read16(b[2..4]) == OptSize(o) <= |b|
            && b[4..OptSize(o)] == OptData(o) && b[OptSize(o)..] == rest
  {
    hide OptData, OptCode, OptSize, BE16, Read16;
    ReadBack16(OptSize(o) - 4);
    var h, d := OptHeader(OptCode(o), OptSize(o) - 4), OptData(o);
    var b := EncodeOpt(o) + rest;
    assert b == h + d + rest;
    assert b[2..4] == h[2..4] == BE16(OptSize(o) - 4);
  }

  // ----- requests --------------------------------------------------------------------

  /** What was asked for, as the server should see it. */
  function Asked(version: byte, key: FlowKey, lifetime: u32, ext: Endpoint, o: OptionFields): RequestView
    requires (version == 1 || version == 2) && (key.op == OP_ANNOUNCE || key.op == OP_MAP || key.op == OP_PEER)
  {
    var view := RequestView(version, key.op, lifetime, key.src, None, []);
    if key.op == OP_ANNOUNCE then view
    else
      view.(body := Some(BodyView(if version == 2 then Some(key.nonce) else None, key.protocol, key.srcPort, ext,
                                  if key.op == OP_PEER then Some(Endpoint(key.dst, key.dstPort)) else None)),
            opts := AllPadded(AllOpts(HEADER_SIZE + BodySize(version, key.op), o)))
  }

  lemma HeaderIsRead(version: byte, key: FlowKey, lifetime: u32)
    requires key.op < 128
    ensures var h := Header(version, key, lifetime);
            h[0] == version && h[1] == key.op && Read32(h[4..8]) == lifetime && h[8..24] == key.src
  {
    hide BE32, Read32;
    ReadBack32(lifetime);
    var h := Header(version, key, lifetime);
    assert h[4..8] == BE32(lifetime) && h[8..24] == key.src;
  }

  lemma BodyIsRead(version: byte, key: FlowKey, ext: Endpoint)
    requires (version == 1 || version == 2) && (key.op == OP_MAP || key.op == OP_PEER)
    ensures var b := Body(version, key, ext).value;
            && |b| == BodySize(version, key.op)
            && ReadBody(version, key.op, b)
               == BodyView(if version == 2 then Some(key.nonce) else None, key.protocol, key.srcPort, ext,
                           if key.op == OP_PEER then Some(Endpoint(key.dst, key.dstPort)) else None)
  {
    BodyBytes(version, key, ext);
  }

  /** Every field of every request reads back as what was asked for, the options in their order. */
  lemma RequestIsRead(version: byte, key: FlowKey, lifetime: u32, ext: Endpoint, o: OptionFields)
    requires (version == 1 || version == 2) && (key.op == OP_ANNOUNCE || key.op == OP_MAP || key.op == OP_PEER)
    ensures Built(version, key, lifetime, ext, o).Some?
    ensures ReadRequest(Built(version, key, lifetime, ext, o).value) == Some(Asked(version, key, lifetime, ext, o))
  {
    HeaderIsRead(version, key, lifetime);
    if key.op != OP_ANNOUNCE {
      BodyIsRead(version, key, ext);
      hide Header, Body, ReadBody, ReadOpts, AllOpts, EncodeOpts, BodySize, Read32, AllPadded;
      var h, b := Header(version, key, lifetime), Body(version, key, ext).value;
      var os := AllOpts(HEADER_SIZE + BodySize(version, key.op), o);
      OptsAreRead(os);
      MessageParts(h, b, EncodeOpts(os));
      assert Request(version, key, lifetime, ext, o).value == h + b + EncodeOpts(os);
    }
  }

  lemma MessageParts(h: seq<byte>, b: seq<byte>, c: seq<byte>)
    requires |h| == HEADER_SIZE
    ensures var m := h + b + c;
            && m[0] == h[0] && m[1] == h[1] && m[4..8] == h[4..8] && m[8..24] == h[8..24]
            && m[HEADER_SIZE..HEADER_SIZE + |b|] == b && m[HEADER_SIZE + |b|..] == c
  {
  }

  predicate SwitchedOn(o: OptionFields, p: Opt) {
    match p
    case FlowPriority(up, down) => o.flowp == Some((up, down))
    case Filter(prefix, port, ip) => o.filter == Some((prefix, port, ip))
    case PreferFailure => o.preferFailure
    case ThirdParty(ip) => o.thirdParty == Some(ip)
    case DeviceId(text) => text == o.device && text[0] != 0
    case UserId(text) => text == o.user && text[0] != 0
    case Location(text) => text == o.location && text[0] != 0
    case MetadataOpt(_) => false
  }

  lemma FixedAsSwitchedOn(o: OptionFields, p: Opt)
    ensures p in FixedOpts(o) <==> SwitchedOn(o, p)
  {
  }

  /** Which options a request carries: each of the seven exactly where the application switched it on,
      the text fields by their first byte; and metadata only of those the flow has. */
  lemma OptionsAsSwitchedOn(len: nat, o: OptionFields, p: Opt)
    ensures !p.MetadataOpt? ==> (p in AllOpts(len, o) <==> SwitchedOn(o, p))
    ensures p.MetadataOpt? && p in AllOpts(len, o) ==> p.md in o.mds && p.md.value != []
  {
    var fixed := FixedOpts(o);
    FixedAsSwitchedOn(o, p);
    OnlyMetadata(len + OptsSize(fixed), o.mds);
    hide MdOpts, OptsSize, FixedOpts;
  }

  lemma {:induction false} OnlyMetadata(len: nat, mds: seq<Metadata>)
    ensures forall p :: p in MdOpts(len, mds) ==> p.MetadataOpt? && p.md in mds && p.md.value != []
    decreases |mds|
  {
    if mds != [] {
      assert mds == [mds[0]] + mds[1..];
      OnlyMetadata(len + OptSize(MetadataOpt(mds[0])), mds[1..]);
      OnlyMetadata(len, mds[1..]);
    }
  }

  // ----- NAT-PMP ---------------------------------------------------------------------

  datatype NatPmpView = Announcement | Mapping(tcp: bool, intPort: Port, extPort: Port, lifetime: u32)

  /** Sections 3.2 and 3.3 of RFC 6886. */
  function ReadNatPmp(m: seq<byte>): Option<NatPmpView> {
    if m == [0, 0] then Some(Announcement)
    else if |m| == 12 && m[0] == 0 && (m[1] == 1 || m[1] == 2)
    then Some(Mapping(m[1] == 2, m[4..6], m[6..8], Read32(m[8..12])))
    else None
  }

  function NatPmpAsked(key: FlowKey, lifetime: u32, ext: Endpoint): Option<NatPmpView> {
    if key.op == OP_ANNOUNCE then Some(Announcement)
    else if key.op == OP_MAP && key.protocol == 6 then Some(Mapping(true, key.srcPort, ext.port, lifetime))
    else if key.op == OP_MAP && key.protocol == 17 then Some(Mapping(false, key.srcPort, ext.port, lifetime))
    else None
  }

  /** A NAT-PMP request reads back as the announcement or the mapping asked for; for anything else
      that a flow may ask there is nothing to read. */
  lemma NatPmpIsRead(key: FlowKey, lifetime: u32, ext: Endpoint)
    ensures ReadNatPmp(NatPmpRequest(key, lifetime, ext)) == NatPmpAsked(key, lifetime, ext)
  {
    hide BE32, Read32;
    ReadBack32(lifetime);
    var m := NatPmpRequest(key, lifetime, ext);
    if |m| == 12 {
      assert m[4..6] == key.srcPort && m[6..8] == ext.port && m[8..12] == BE32(lifetime);
    }
  }
}
