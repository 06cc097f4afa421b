/** Requests of the client: libpcp/src/pcp_msg.c, layouts of libpcp/src/pcp_msg_structs.h
    (sections 7.1, 11.1 and 12.1 of RFC 6887). */
module Message {
  import opened Types

  const PCP_MAX_LEN := 1100
  const HEADER_SIZE := 24

  type u16 = x: int | 0 <= x < 0x1_0000

  function BE16(n: u16): (r: seq<byte>)
    ensures |r| == 2
  {
    var hi: byte := n / 256;
    var lo: byte := n % 256;
    [hi, lo]
  }

  function BE32(n: u32): (r: seq<byte>)
    ensures |r| == 4
  {
    BE16(n / 0x1_0000) + BE16(n % 0x1_0000)
  }

  function Read16(s: seq<byte>): u16
    requires |s| == 2
  {
    (s[0] as int) * 256 + s[1] as int
  }

  function Read32(s: seq<byte>): u32
    requires |s| == 4
  {
    (Read16(s[..2]) as int) * 0x1_0000 + Read16(s[2..]) as int
  }

  /** Network order: the most significant byte first. */
  lemma NetworkOrder(n: u32)
    ensures var b := BE32(n); n == b[0] as int * 0x100_0000 + b[1] as int * 0x1_0000 + b[2] as int * 256 + b[3] as int
    ensures n < 0x1_0000 ==> var b := BE16(n); n == b[0] as int * 256 + b[1] as int
  {
    assert n == n / 0x1_0000 * 0x1_0000 + n % 0x1_0000;
  }

  lemma ReadBack16(n: u16)
    ensures Read16(BE16(n)) == n
  {
  }

  lemma ReadBack32(n: u32)
    ensures Read32(BE32(n)) == n
  {
    hide Read16, BE16;
    ReadBack16(n / 0x1_0000);
    ReadBack16(n % 0x1_0000);
    assert BE32(n)[..2] == BE16(n / 0x1_0000) && BE32(n)[2..] == BE16(n % 0x1_0000);
  }

  // ----- options ---------------------------------------------------------------------

  type Text32 = s: seq<byte> | |s| == 32 witness Zeros(32)
  type Text512 = s: seq<byte> | |s| == 512 witness Zeros(512)
  type MdValue = s: seq<byte> | |s| <= 24 witness []

  datatype Metadata = Metadata(id: u16, value: MdValue)

  datatype Opt =
    | FlowPriority(up: byte, down: byte)
    | Filter(prefix: byte, port: Port, ip: Ip)
    | PreferFailure
    | ThirdParty(tpIp: Ip)
    | DeviceId(device: Text32)
    | UserId(user: Text512)
    | Location(location: Text32)
    | MetadataOpt(md: Metadata)

  /** The option fields of a flow: what the application switched on. */
  datatype OptionFields = OptionFields(
    flowp: Option<(byte, byte)>, filter: Option<(byte, Port, Ip)>, preferFailure: bool,
    thirdParty: Option<Ip>, device: Text32, user: Text512, location: Text32, mds: seq<Metadata>)

  function Padding(n: nat): nat { (4 - n % 4) % 4 }

  function OptCode(o: Opt): byte {
    match o
    case FlowPriority(_, _) => 99
    case Filter(_, _, _) => 3
    case PreferFailure => 2
    case ThirdParty(_) => 1
    case DeviceId(_) => 96
    case UserId(_) => 98
    case Location(_) => 97
    case MetadataOpt(_) => 100
  }

  /** Size of the option on the wire; that of the metadata option depends on its value. */
  function OptSize(o: Opt): (n: nat)
    ensures 4 <= n <= 516
  {
    match o
    case FlowPriority(_, _) => 8
    case Filter(_, _, _) => 24
    case PreferFailure => 4
    case ThirdParty(_) => 20
    case DeviceId(_) => 36
    case UserId(_) => 516
    case Location(_) => 36
    case MetadataOpt(md) => 8 + |md.value| + Padding(|md.value|)
  }

  function OptData(o: Opt): (r: seq<byte>)
    ensures |r| == OptSize(o) - 4
  {
    match o
    case FlowPriority(up, down) => [up, down, 0, 0]
    case Filter(prefix, port, ip) => [0, prefix] + port + ip
    case PreferFailure => []
    case ThirdParty(ip) => ip
    case DeviceId(text) => text
    case UserId(text) => text
    case Location(text) => text
    case MetadataOpt(md) => BE32(md.id) + md.value + Zeros(Padding(|md.value|))
  }

  function OptHeader(code: byte, len: u16): (r: seq<byte>)
    ensures |r| == 4
  {
    [code, 0] + BE16(len)
  }

  /** An option on the wire: code, reserved, length of the data, data. */
  function EncodeOpt(o: Opt): (r: seq<byte>)
    ensures |r| == OptSize(o)
  {
    OptHeader(OptCode(o), OptSize(o) - 4) + OptData(o)
  }

  function OptsSize(os: seq<Opt>): nat {
    if os == [] then 0 else OptSize(os[0]) + OptsSize(os[1..])
  }

  lemma {:induction false} OptsAreWords(os: seq<Opt>)
    ensures OptsSize(os) % 4 == 0
  {
    if os != [] {
      OptsAreWords(os[1..]);
      OptIsWords(os[0]);
      hide OptSize;
      WordsAdd(OptSize(os[0]), OptsSize(os[1..]));
    }
  }

  lemma OptIsWords(o: Opt)
    ensures OptSize(o) % 4 == 0
  {
  }

  function EncodeOpts(os: seq<Opt>): (r: seq<byte>)
    ensures |r| == OptsSize(os)
  {
    if os == [] then [] else EncodeOpt(os[0]) + EncodeOpts(os[1..])
  }

  lemma {:induction false} EncodeOptsAppend(a: seq<Opt>, b: seq<Opt>)
    ensures EncodeOpts(a + b) == EncodeOpts(a) + EncodeOpts(b)
    ensures OptsSize(a + b) == OptsSize(a) + OptsSize(b)
    decreases |a|
  {
    if a == [] {
      assert a + b == b;
    } else {
      assert (a + b)[1..] == a[1..] + b;
      EncodeOptsAppend(a[1..], b);
    }
  }

  /** The options of fixed size, in the order in which they are written. */
  function FixedOpts(o: OptionFields): seq<Opt> {
    (if o.flowp.Some? then [FlowPriority(o.flowp.value.0, o.flowp.value.1)] else [])
    + (if o.filter.Some? then [Filter(o.filter.value.0, o.filter.value.1, o.filter.value.2)] else [])
    + (if o.preferFailure then [PreferFailure] else [])
    + (if o.thirdParty.Some? then [ThirdParty(o.thirdParty.value)] else [])
    + (if o.device[0] != 0 then [DeviceId(o.device)] else [])
    + (if o.user[0] != 0 then [UserId(o.user)] else [])
    + (if o.location[0] != 0 then [Location(o.location)] else [])
  }

  /** Whether a metadata value still goes into a message of length len. */
  predicate Fits(len: nat, md: Metadata) {
    len + OptSize(MetadataOpt(md)) <= PCP_MAX_LEN
  }

  /** The metadata written behind len bytes: each non-empty value that still fits. */
  function MdOpts(len: nat, mds: seq<Metadata>): seq<Opt>
    decreases |mds|
  {
    if mds == [] then []
    else if mds[0].value != [] && Fits(len, mds[0]) then
      [MetadataOpt(mds[0])] + MdOpts(len + OptSize(MetadataOpt(mds[0])), mds[1..])
    else MdOpts(len, mds[1..])
  }

  /** Every option of a request whose fixed part takes len bytes. */
  function AllOpts(len: nat, o: OptionFields): seq<Opt> {
    var fixed := FixedOpts(o);
    fixed + MdOpts(len + OptsSize(fixed), o.mds)
  }

  // ----- requests --------------------------------------------------------------------

  function Header(version: byte, key: FlowKey, lifetime: u32): (r: seq<byte>)
    ensures |r| == HEADER_SIZE
  {
    [version, key.op % 128] + Zeros(2) + BE32(lifetime) + key.src
  }

  /** The opcode data of a MAP or PEER request; None for another version or opcode. */
  function Body(version: byte, key: FlowKey, ext: Endpoint): Option<seq<byte>> {
    var common := (if version == 2 then key.nonce else []) + CommonBody(key, ext);
    if version != 1 && version != 2 then None
    else if key.op == OP_MAP then Some(common)
    else if key.op == OP_PEER then Some(common + PeerBody(key))
    else None
  }

  function CommonBody(key: FlowKey, ext: Endpoint): (r: seq<byte>)
    ensures |r| == 24
  {
    [key.protocol, 0, 0, 0] + key.srcPort + ext.port + ext.ip
  }

  function PeerBody(key: FlowKey): (r: seq<byte>)
    ensures |r| == 20
  {
    key.dstPort + Zeros(2) + key.dst
  }

  function BodySize(version: byte, op: byte): nat {
    (if version == 2 then 12 else 0) + (if op == OP_PEER then 44 else 24)
  }

  /** build_pcp_msg for versions 1 and 2 of MAP and PEER. */
  function Request(version: byte, key: FlowKey, lifetime: u32, ext: Endpoint, o: OptionFields): (r: Option<seq<byte>>)
    ensures r.Some? == Body(version, key, ext).Some?
    ensures r.Some? ==> var len := HEADER_SIZE + |Body(version, key, ext).value|;
                        |r.value| == len + OptsSize(AllOpts(len, o))
  {
    match Body(version, key, ext)
    case None => None
    case Some(body) =>
      var fixed := Header(version, key, lifetime) + body;
      Some(fixed + EncodeOpts(AllOpts(|fixed|, o)))
  }

  /** build_natpmp_msg; for what NAT-PMP does not know a message without a byte. */
  function NatPmpRequest(key: FlowKey, lifetime: u32, ext: Endpoint): (r: seq<byte>)
    ensures |r| == 0 || |r| == 2 || |r| == 12
  {
    if key.op == OP_ANNOUNCE then [0, 0]
    else if key.op == OP_MAP && (key.protocol == IPPROTO_TCP || key.protocol == IPPROTO_UDP) then
      [0, NatPmpOpcode(key), 0, 0] + key.srcPort + ext.port + BE32(lifetime)
    else []
  }

  function NatPmpOpcode(key: FlowKey): byte { if key.protocol == IPPROTO_TCP then 2 else 1 }

  /** build_pcp_msg: NAT-PMP at version 0, the header alone for ANNOUNCE, else a MAP or PEER request. */
  function Built(version: byte, key: FlowKey, lifetime: u32, ext: Endpoint, o: OptionFields): Option<seq<byte>> {
    if version == 0 then Some(NatPmpRequest(key, lifetime, ext))
    else if key.op == OP_ANNOUNCE then Some(Header(version, key, lifetime))
    else Request(version, key, lifetime, ext, o)
  }

  /** Every PCP message is a whole number of words, from the header alone up to the limit. */
  lemma BuiltLength(version: byte, key: FlowKey, lifetime: u32, ext: Endpoint, o: OptionFields)
    requires Built(version, key, lifetime, ext, o).Some?
    ensures var n := |Built(version, key, lifetime, ext, o).value|;
            n <= PCP_MAX_LEN && (version > 0 ==> n % 4 == 0 && HEADER_SIZE <= n)
  {
    hide Request, Header;
    if version > 0 && key.op != OP_ANNOUNCE {
      RequestLength(version, key, lifetime, ext, o);
    }
  }

  lemma BodyHasItsSize(version: byte, key: FlowKey, ext: Endpoint)
    requires Body(version, key, ext).Some?
    ensures |Body(version, key, ext).value| == BodySize(version, key.op)
    ensures HEADER_SIZE + BodySize(version, key.op) <= 80 && BodySize(version, key.op) % 4 == 0
  {
  }

  /** At most one option each of 8, 24, 4, 20, 36, 516 and 36 bytes. */
  lemma FixedOptsSize(o: OptionFields)
    ensures OptsSize(FixedOpts(o)) <= 644
  {
    NoOpts();
    hide OptsSize;
    var a := if o.flowp.Some? then [FlowPriority(o.flowp.value.0, o.flowp.value.1)] else [];
    var b := if o.filter.Some? then [Filter(o.filter.value.0, o.filter.value.1, o.filter.value.2)] else [];
    var c := if o.preferFailure then [PreferFailure] else [];
    var d := if o.thirdParty.Some? then [ThirdParty(o.thirdParty.value)] else [];
    var e := if o.device[0] != 0 then [DeviceId(o.device)] else [];
    var f := if o.user[0] != 0 then [UserId(o.user)] else [];
    var g := if o.location[0] != 0 then [Location(o.location)] else [];
    assert [] + a == a;
    AtMostOne(a, 8, [], 0);
    AtMostOne(b, 24, a, 8);
    AtMostOne(c, 4, a + b, 32);
    AtMostOne(d, 20, a + b + c, 36);
    AtMostOne(e, 36, a + b + c + d, 56);
    AtMostOne(f, 516, a + b + c + d + e, 92);
    AtMostOne(g, 36, a + b + c + d + e + f, 608);
  }

  lemma NoOpts()
    ensures OptsSize([]) == 0
  {
  }

  lemma FixedHasNoMetadata(o: OptionFields, k: nat)
    requires k < |FixedOpts(o)|
    ensures !FixedOpts(o)[k].MetadataOpt?
  {
  }

  lemma AtMostOne(os: seq<Opt>, n: nat, before: seq<Opt>, m: nat)
    requires |os| <= 1 && (os != [] ==> OptSize(os[0]) == n) && OptsSize(before) <= m
    ensures OptsSize(before + os) <= m + n
  {
    EncodeOptsAppend(before, os);
    if os != [] {
      assert os[1..] == [];
    }
  }

  lemma {:induction false} MdOptsStayInside(len: nat, mds: seq<Metadata>)
    requires len <= PCP_MAX_LEN
    ensures len + OptsSize(MdOpts(len, mds)) <= PCP_MAX_LEN
    decreases |mds|
  {
    if mds != [] {
      if mds[0].value != [] && Fits(len, mds[0]) {
        var size := OptSize(MetadataOpt(mds[0]));
        MdOptsStayInside(len + size, mds[1..]);
        assert MdOpts(len, mds)[1..] == MdOpts(len + size, mds[1..]);
      } else {
        MdOptsStayInside(len, mds[1..]);
      }
    }
  }

  /** Every request is a whole number of words and fits the message limit, whatever options are
      switched on and however much metadata there is (section 7 of RFC 6887). */
  lemma RequestLength(version: byte, key: FlowKey, lifetime: u32, ext: Endpoint, o: OptionFields)
    requires Request(version, key, lifetime, ext, o).Some?
    ensures var n := |Request(version, key, lifetime, ext, o).value|;
            n % 4 == 0 && HEADER_SIZE + BodySize(version, key.op) <= n <= PCP_MAX_LEN
  {
    BodyHasItsSize(version, key, ext);
    AllOptsSize(HEADER_SIZE + BodySize(version, key.op), o);
    hide Request, AllOpts, Header, Body, BodySize, EncodeOpts, OptsSize;
    var len := HEADER_SIZE + BodySize(version, key.op);
    OptsAreWords(AllOpts(len, o));
    WordsAdd(len, OptsSize(AllOpts(len, o)));
  }

  lemma WordsAdd(a: nat, b: nat)
    requires a % 4 == 0 && b % 4 == 0
    ensures (a + b) % 4 == 0
  {
  }

  lemma AllOptsSize(len: nat, o: OptionFields)
    requires len <= 80
    ensures len + OptsSize(AllOpts(len, o)) <= PCP_MAX_LEN
  {
    hide FixedOpts, MdOpts, EncodeOpts, OptsSize;
    FixedOptsSize(o);
    var fixed := FixedOpts(o);
    MdOptsStayInside(len + OptsSize(fixed), o.mds);
    EncodeOptsAppend(fixed, MdOpts(len + OptsSize(fixed), o.mds));
  }

  /** Metadata is written whole or not at all: what is written are the values themselves, in
      order and without gaps in their bytes, and a non-empty value is missing only if the message
      was too full for it at its turn. */
  ghost predicate WholeOrNot(len: nat, mds: seq<Metadata>, os: seq<Opt>)
    decreases |mds|
  {
    if mds == [] then os == []
    else if os != [] && os[0] == MetadataOpt(mds[0]) && mds[0].value != [] then
      len + OptSize(os[0]) <= PCP_MAX_LEN && WholeOrNot(len + OptSize(os[0]), mds[1..], os[1..])
    else
      (mds[0].value == [] || len + OptSize(MetadataOpt(mds[0])) > PCP_MAX_LEN)
      && WholeOrNot(len, mds[1..], os)
  }

  lemma {:induction false} MetadataWholeOrNot(len: nat, mds: seq<Metadata>)
    ensures WholeOrNot(len, mds, MdOpts(len, mds))
    decreases |mds|
  {
    if mds != [] {
      var os := MdOpts(len, mds);
      if mds[0].value != [] && Fits(len, mds[0]) {
        var size := OptSize(MetadataOpt(mds[0]));
        MetadataWholeOrNot(len + size, mds[1..]);
        assert os[1..] == MdOpts(len + size, mds[1..]);
      } else {
        MetadataWholeOrNot(len, mds[1..]);
        if os != [] && os[0] == MetadataOpt(mds[0]) && mds[0].value != [] {
          MdOptsFit(len, mds[1..]);
        }
      }
    }
  }

  lemma {:induction false} MdOptsFit(len: nat, mds: seq<Metadata>)
    ensures forall k :: 0 <= k < |MdOpts(len, mds)| ==> len + OptSize(MdOpts(len, mds)[k]) <= PCP_MAX_LEN
    decreases |mds|
  {
    if mds != [] {
      if mds[0].value != [] && Fits(len, mds[0]) {
        MdOptsFit(len + OptSize(MetadataOpt(mds[0])), mds[1..]);
      } else {
        MdOptsFit(len, mds[1..]);
      }
    }
  }

  // ----- the builder -----------------------------------------------------------------

  /** The message buffer of a flow and the cursor that the builders advance. The buffer starts
      zeroed, and reserved fields and padding are skipped, not written. */
  class Buffer {
    const data: array<byte>
    var len: nat

    ghost predicate Valid()
      reads this, data
    {
      && data.Length == PCP_MAX_LEN
      && len <= PCP_MAX_LEN
      && forall j :: len <= j < PCP_MAX_LEN ==> data[j] == 0
    }

    ghost function Contents(): seq<byte>
      reads this, data
      requires Valid()
    {
      data[..len]
    }

    constructor ()
      ensures Valid() && Contents() == [] && fresh(data)
    {
      data := new byte[PCP_MAX_LEN](_ => 0);
      len := 0;
    }

    /** memcpy to the cursor. */
    method Put(bytes: seq<byte>)
      requires Valid() && len + |bytes| <= PCP_MAX_LEN
      modifies this, data
      ensures Valid() && Contents() == old(Contents()) + bytes
    {
      var k := 0;
      ghost var before := data[..len];
      while k < |bytes|
        invariant 0 <= k <= |bytes| && len == old(len)
        invariant data[..len] == before
        invariant forall j :: 0 <= j < k ==> data[len + j] == bytes[j]
        invariant forall j :: len + k <= j < PCP_MAX_LEN ==> data[j] == 0
      {
        data[len + k] := bytes[k];
        k := k + 1;
      }
      len := len + |bytes|;
      assert data[..len] == before + bytes;
    }

    /** A reserved field or padding: the buffer is zero already. */
    method Skip(n: nat)
      requires Valid() && len + n <= PCP_MAX_LEN
      modifies this
      ensures Valid() && Contents() == old(Contents()) + Zeros(n)
    {
      len := len + n;
    }

    /** The common part of every option. */
    method PutOptHeader(code: byte, dataLen: u16)
      requires Valid() && len + 4 <= PCP_MAX_LEN
      modifies this, data
      ensures Valid() && Contents() == old(Contents()) + OptHeader(code, dataLen)
    {
      Put([code]);
      Skip(1);
      Put(BE16(dataLen));
    }

    /** add_filter_option */
    method AddFilter(prefix: byte, port: Port, ip: Ip)
      requires Valid() && len + 24 <= PCP_MAX_LEN
      modifies this, data
      ensures Valid() && Contents() == old(Contents()) + EncodeOpt(Filter(prefix, port, ip))
    {
      hide OptHeader;
      ghost var before := Contents();
      PutOptHeader(3, 20);
      Put([0, prefix]);
      Put(port);
      Put(ip);
      ghost var header := before + OptHeader(3, 20);
      Reassociate(header, [0, prefix], port);
      Reassociate(header, [0, prefix] + port, ip);
      Reassociate(before, OptHeader(3, 20), [0, prefix] + port + ip);
    }

    /** add_flowp_option */
    method AddFlowPriority(up: byte, down: byte)
      requires Valid() && len + 8 <= PCP_MAX_LEN
      modifies this, data
      ensures Valid() && Contents() == old(Contents()) + EncodeOpt(FlowPriority(up, down))
    {
      PutOptHeader(99, 4);
      Put([up, down]);
      Skip(2);
    }

    /** The option builders whose data is one field: add_prefer_failure_option,
        add_third_party_option, add_deviceid_option, add_userid_option and
        add_location_option. */
    method AddPlain(o: Opt)
      requires Valid() && len + OptSize(o) <= PCP_MAX_LEN
      requires !o.FlowPriority? && !o.Filter? && !o.MetadataOpt?
      modifies this, data
      ensures Valid() && Contents() == old(Contents()) + EncodeOpt(o)
    {
      PutOptHeader(OptCode(o), OptSize(o) - 4);
      Put(OptData(o));
    }

    method AddFixed(o: Opt)
      requires Valid() && !o.MetadataOpt? && len + OptSize(o) <= PCP_MAX_LEN
      modifies this, data
      ensures Valid() && Contents() == old(Contents()) + EncodeOpt(o)
    {
      if o.FlowPriority? {
        AddFlowPriority(o.up, o.down);
      } else if o.Filter? {
        AddFilter(o.prefix, o.port, o.ip);
      } else {
        AddPlain(o);
      }
    }

    /** add_md_option: a value that does not fit any more is left out as a whole. */
    method AddMetadata(md: Metadata)
      requires Valid()
      modifies this, data
      ensures Valid()
      ensures Contents() == if Fits(old(len), md) then old(Contents()) + EncodeOpt(MetadataOpt(md)) else old(Contents())
    {
      var padding := Padding(|md.value|);
      if len + (8 + |md.value| + padding) > PCP_MAX_LEN {
        return;
      }
      MetadataIs(md);
      hide OptData, OptHeader, Padding, EncodeOpt, OptSize;
      ghost var before := Contents();
      PutOptHeader(100, 8 - 4 + |md.value| + padding);
      PutMetadataData(md);
      Reassociate(before, OptHeader(100, OptSize(MetadataOpt(md)) - 4), OptData(MetadataOpt(md)));
    }

    method PutMetadataData(md: Metadata)
      requires Valid() && len + 4 + |md.value| + Padding(|md.value|) <= PCP_MAX_LEN
      modifies this, data
      ensures Valid() && Contents() == old(Contents()) + OptData(MetadataOpt(md))
    {
      hide BE32, Padding, OptSize;
      ghost var before := Contents();
      Put(BE32(md.id));
      Put(md.value);
      Skip(Padding(|md.value|));
      Reassociate(before, BE32(md.id), md.value);
      Reassociate(before, BE32(md.id) + md.value, Zeros(Padding(|md.value|)));
    }

    /** add_md_options: the loop over the metadata of the flow. */
    method AddAllMetadata(mds: seq<Metadata>)
      requires Valid()
      modifies this, data
      ensures Valid() && Contents() == old(Contents()) + EncodeOpts(MdOpts(old(len), mds))
    {
      hide MdOpts, EncodeOpts, EncodeOpt, OptSize, Fits;
      var k := 0;
      ghost var before := Contents();
      while k < |mds|
        invariant 0 <= k <= |mds| && Valid()
        invariant Contents() + EncodeOpts(MdOpts(len, mds[k..])) == before + EncodeOpts(MdOpts(|before|, mds))
      {
        MetadataTurn(len, mds[k..]);
        ghost var here := Contents();
        assert mds[k..][1..] == mds[k + 1..];
        if |mds[k].value| != 0 {
          AddMetadata(mds[k]);
        }
        Reassociate(here, EncodeOpt(MetadataOpt(mds[k])), EncodeOpts(MdOpts(len, mds[k + 1..])));
        k := k + 1;
      }
      NoMetadata(len);
      assert mds[k..] == [];
    }

    /** build_pcp_options */
    method AddOptions(o: OptionFields)
      requires Valid() && len <= 80
      modifies this, data
      ensures Valid() && Contents() == old(Contents()) + EncodeOpts(AllOpts(old(len), o))
    {
      hide FixedOpts, MdOpts, EncodeOpt, OptSize;
      var fixed := FixedOpts(o);
      FixedOptsSize(o);
      ghost var before := Contents();
      var k := 0;
      while k < |fixed|
        invariant 0 <= k <= |fixed| && Valid()
        invariant len + OptsSize(fixed[k..]) <= 80 + 644
        invariant Contents() + EncodeOpts(fixed[k..]) == before + EncodeOpts(fixed)
      {
        ghost var here := Contents();
        assert fixed[k..][1..] == fixed[k + 1..];
        FixedHasNoMetadata(o, k);
        AddFixed(fixed[k]);
        Reassociate(here, EncodeOpt(fixed[k]), EncodeOpts(fixed[k + 1..]));
        k := k + 1;
      }
      assert Contents() == before + EncodeOpts(fixed);
      ghost var md := MdOpts(len, o.mds);
      AddAllMetadata(o.mds);
      EncodeOptsAppend(fixed, md);
      Reassociate(before, EncodeOpts(fixed), EncodeOpts(md));
    }

    /** The common request header of build_pcp_msg. */
    method PutHeader(version: byte, key: FlowKey, lifetime: u32)
      requires Valid() && len == 0
      modifies this, data
      ensures Valid() && Contents() == Header(version, key, lifetime)
    {
      Put([version]);
      Put([key.op % 128]);
      Skip(2);
      Put(BE32(lifetime));
      Put(key.src);
    }

    /** build_natpmp_msg */
    method PutNatPmp(key: FlowKey, lifetime: u32, ext: Endpoint)
      requires Valid() && len == 0
      modifies this, data
      ensures Valid() && Contents() == NatPmpRequest(key, lifetime, ext)
    {
      hide BE32;
      if key.op == OP_ANNOUNCE {
        Put([0, 0]);
      } else if key.op == OP_MAP && (key.protocol == IPPROTO_TCP || key.protocol == IPPROTO_UDP) {
        Put([0, NatPmpOpcode(key)]);
        Skip(2);
        assert Contents() == [0, NatPmpOpcode(key), 0, 0];
        Put(key.srcPort);
        Put(ext.port);
        Put(BE32(lifetime));
      }
    }

    /** build_pcp_map and build_pcp_peer up to the options. */
    method PutBody(version: byte, key: FlowKey, ext: Endpoint)
      requires Valid() && len == HEADER_SIZE && Body(version, key, ext).Some?
      modifies this, data
      ensures Valid() && Contents() == old(Contents()) + Body(version, key, ext).value
    {
      hide CommonBody;
      ghost var before := Contents();
      if version == 2 {
        Put(key.nonce);
      }
      PutCommon(key, ext);
      Reassociate(before, if version == 2 then key.nonce else [], CommonBody(key, ext));
      if key.op == OP_PEER {
        PutPeer(key);
        Reassociate(before, (if version == 2 then key.nonce else []) + CommonBody(key, ext), PeerBody(key));
      }
    }

    method PutPeer(key: FlowKey)
      requires Valid() && len <= 60
      modifies this, data
      ensures Valid() && Contents() == old(Contents()) + PeerBody(key)
    {
      ghost var before := Contents();
      Put(key.dstPort);
      Skip(2);
      Put(key.dst);
      Reassociate(before, key.dstPort, Zeros(2));
      Reassociate(before, key.dstPort + Zeros(2), key.dst);
    }

    method PutCommon(key: FlowKey, ext: Endpoint)
      requires Valid() && len <= 36
      modifies this, data
      ensures Valid()
      ensures Contents() == old(Contents()) + CommonBody(key, ext)
    {
      ghost var before := Contents();
      Put([key.protocol]);
      Skip(3);
      assert Contents() == before + [key.protocol, 0, 0, 0];
      Put(key.srcPort);
      Put(ext.port);
      Put(ext.ip);
      ghost var first := [key.protocol, 0, 0, 0];
      Reassociate(before, first, key.srcPort);
      Reassociate(before, first + key.srcPort, ext.port);
      Reassociate(before, first + key.srcPort + ext.port, ext.ip);
    }
  }

  lemma Reassociate(a: seq<byte>, b: seq<byte>, c: seq<byte>)
    ensures a + b + c == a + (b + c)
  {
  }

  lemma MetadataIs(md: Metadata)
    ensures OptSize(MetadataOpt(md)) == 8 + |md.value| + Padding(|md.value|)
    ensures EncodeOpt(MetadataOpt(md)) == OptHeader(100, OptSize(MetadataOpt(md)) - 4) + OptData(MetadataOpt(md))
  {
  }

  lemma NoMetadata(len: nat)
    ensures MdOpts(len, []) == [] && EncodeOpts([]) == []
  {
  }

  /** One turn of the metadata loop. */
  lemma MetadataTurn(len: nat, mds: seq<Metadata>)
    requires mds != []
    ensures EncodeOpts(MdOpts(len, mds))
         == if mds[0].value != [] && Fits(len, mds[0])
            then EncodeOpt(MetadataOpt(mds[0])) + EncodeOpts(MdOpts(len + OptSize(MetadataOpt(mds[0])), mds[1..]))
            else EncodeOpts(MdOpts(len, mds[1..]))
  {
    if mds[0].value != [] && Fits(len, mds[0]) {
      assert MdOpts(len, mds)[1..] == MdOpts(len + OptSize(MetadataOpt(mds[0])), mds[1..]);
    }
  }

  lemma BodyExists(version: byte, key: FlowKey, ext: Endpoint)
    ensures Body(version, key, ext).Some? <==> (version == 1 || version == 2) && (key.op == OP_MAP || key.op == OP_PEER)
  {
  }
}
