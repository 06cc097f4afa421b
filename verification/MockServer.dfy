/** The mock server of pcp_server/pcp_server.c, printing stripped: the option walk and size
    arithmetic of printPCPreq, and create_response. */
module MockServer {
  import opened Types
  import opened Message

  const RES_MALFORMED_REQUEST: u32 := 3
  const RES_MALFORMED_OPTION: u32 := 6

  // ----- the option walk -------------------------------------------------------------

  /** The receive buffer; a read past its end gives 0. */
  function At(buf: seq<byte>, k: nat): byte {
    if k < |buf| then buf[k] else 0
  }

  /** Which of the options that may occur once have occurred. */
  datatype Occurrence = Occurrence(third: bool, preferFailure: bool)

  /** An option header that the walk looked at. */
  datatype Visit = Visit(offset: nat, code: byte)

  /** The size that the walk takes an option to have; None for an unknown code. */
  function StepSize(buf: seq<byte>, p: nat): Option<nat> {
    match At(buf, p)
    case 1 => Some(20)
    case 2 => Some(4)
    case 3 => Some(24)
    case 99 => Some(8)
    case 100 => Some(4 + Read16([At(buf, p + 2), At(buf, p + 3)]))
    case 97 => Some(36)
    case 98 => Some(516)
    case 96 => Some(36)
    case _ => None
  }

  function StepResult(code: byte, opcode: byte, occ: Occurrence): u32 {
    if code == 1 && occ.third then RES_MALFORMED_OPTION
    else if code == 2 && occ.preferFailure then RES_MALFORMED_OPTION
    else if (code == 2 || code == 3) && opcode != OP_MAP then RES_MALFORMED_REQUEST
    else RES_SUCCESS
  }

  function Occurred(code: byte, occ: Occurrence): Occurrence {
    Occurrence(occ.third || code == 1, occ.preferFailure || code == 2)
  }

  /** The sizes remaining and processed, the occurrences, the result of the last option and
      the headers visited. */
  datatype Walk = Walk(remain: int, processed: nat, occ: Occurrence, result: u32, visits: seq<Visit>)

  /** print_PCP_options */
  function WalkStep(buf: seq<byte>, opcode: byte, s: Walk): (r: Walk)
    requires s.remain > 0
    ensures r.remain < s.remain
  {
    var code := At(buf, s.processed);
    var size := StepSize(buf, s.processed);
    Walk(if size.Some? then s.remain - size.value else 0,
         if size.Some? then s.processed + size.value else s.processed,
         Occurred(code, s.occ), StepResult(code, opcode, s.occ),
         s.visits + [Visit(s.processed, code)])
  }

  /** The while loop around it. */
  function WalkOptions(buf: seq<byte>, opcode: byte, s: Walk): Walk
    decreases if s.remain > 0 then s.remain else 0
  {
    if s.remain <= 0 then s else WalkOptions(buf, opcode, WalkStep(buf, opcode, s))
  }

  /** The loop as it runs over the buffer. */
  method RunWalk(buf: array<byte>, opcode: byte, start: Walk) returns (s: Walk)
    ensures s == WalkOptions(buf[..], opcode, start) && s.remain <= 0
  {
    s := start;
    while s.remain > 0
      invariant WalkOptions(buf[..], opcode, s) == WalkOptions(buf[..], opcode, start)
      decreases if s.remain > 0 then s.remain else 0
    {
      s := WalkStep(buf[..], opcode, s);
    }
  }

  /** Where the walk starts: the remaining size of a PEER request of version 1 is reduced
      by the size of a MAP body, the processed size by that of the PEER body. */
  function StartWalk(version: byte, op: byte, size: nat): Walk {
    var reduced := if version == 1 then BodySize(1, OP_MAP) else BodySize(version, op);
    Walk(size - HEADER_SIZE - reduced, HEADER_SIZE + BodySize(version, op), Occurrence(false, false), RES_SUCCESS, [])
  }

  /** The headers of options written one after the other from an offset on. */
  function Headers(os: seq<Opt>, offset: nat): seq<Visit> {
    if os == [] then [] else [Visit(offset, OptCode(os[0]))] + Headers(os[1..], offset + OptSize(os[0]))
  }

  /** The bytes are in the buffer at an offset. */
  ghost predicate Holds(buf: seq<byte>, offset: nat, bytes: seq<byte>) {
    offset + |bytes| <= |buf| && buf[offset..offset + |bytes|] == bytes
  }

  /** The walk reads off an encoded option its code and its whole size. */
  lemma StepReadsOption(buf: seq<byte>, p: nat, o: Opt)
    requires Holds(buf, p, EncodeOpt(o))
    ensures At(buf, p) == OptCode(o) && StepSize(buf, p) == Some(OptSize(o))
  {
    var e := EncodeOpt(o);
    assert forall k :: 0 <= k < 4 ==> buf[p + k] == buf[p..p + |e|][k] == e[k];
    assert e[0] == OptCode(o) && [e[2], e[3]] == BE16(OptSize(o) - 4);
    if o.MetadataOpt? {
      hide OptSize, BE16, EncodeOpt;
      ReadBack16(OptSize(o) - 4);
      assert [At(buf, p + 2), At(buf, p + 3)] == BE16(OptSize(o) - 4);
    }
  }

  lemma HoldsSplit(buf: seq<byte>, p: nat, a: seq<byte>, b: seq<byte>)
    requires Holds(buf, p, a + b)
    ensures Holds(buf, p, a) && Holds(buf, p + |a|, b)
  {
    var both := buf[p..p + |a + b|];
    assert buf[p..p + |a|] == both[..|a|] == a;
    assert buf[p + |a|..p + |a| + |b|] == both[|a|..] == b;
  }

  /** Build and walk undo each other: over encoded options the walk visits exactly their
      headers, in order, and uses up exactly their size. */
  lemma {:induction false} WalkVisitsOptions(buf: seq<byte>, opcode: byte, os: seq<Opt>, s: Walk)
    returns (s': Walk)
    requires Holds(buf, s.processed, EncodeOpts(os)) && s.remain >= OptsSize(os)
    ensures WalkOptions(buf, opcode, s) == WalkOptions(buf, opcode, s')
    ensures s'.remain == s.remain - OptsSize(os)
    ensures s'.processed == s.processed + OptsSize(os)
    ensures s'.visits == s.visits + Headers(os, s.processed)
    decreases |os|
  {
    hide EncodeOpt, OptSize, WalkStep, Holds, WalkOptions;
    s' := s;
    if os != [] {
      HoldsSplit(buf, s.processed, EncodeOpt(os[0]), EncodeOpts(os[1..]));
      StepOverOption(buf, opcode, os[0], s);
      var s1 := WalkStep(buf, opcode, s);
      s' := WalkVisitsOptions(buf, opcode, os[1..], s1);
      assert s1.visits + Headers(os[1..], s1.processed) == s.visits + Headers(os, s.processed);
    }
  }

  lemma StepOverOption(buf: seq<byte>, opcode: byte, o: Opt, s: Walk)
    requires Holds(buf, s.processed, EncodeOpt(o)) && s.remain > 0
    ensures var s1 := WalkStep(buf, opcode, s);
            && s1.remain == s.remain - OptSize(o) && s1.processed == s.processed + OptSize(o)
            && s1.visits == s.visits + [Visit(s.processed, OptCode(o))]
            && WalkOptions(buf, opcode, s) == WalkOptions(buf, opcode, s1)
  {
    StepReadsOption(buf, s.processed, o);
    hide StepSize, OptSize, EncodeOpt, Holds;
  }

  /** A request in a buffer with anything behind it. */
  ghost predicate InBuffer(buf: seq<byte>, req: seq<byte>) {
    |req| <= |buf| && buf[..|req|] == req
  }

  lemma OptionsBehindBody(buf: seq<byte>, version: byte, key: FlowKey, lifetime: u32, ext: Endpoint, o: OptionFields)
    requires Request(version, key, lifetime, ext, o).Some?
    requires InBuffer(buf, Request(version, key, lifetime, ext, o).value)
    ensures var len := HEADER_SIZE + BodySize(version, key.op);
            && Holds(buf, len, EncodeOpts(AllOpts(len, o)))
            && |Request(version, key, lifetime, ext, o).value| == len + OptsSize(AllOpts(len, o))
  {
    BodyHasItsSize(version, key, ext);
    hide AllOpts, EncodeOpts, Header, Body, BodySize;
    var req := Request(version, key, lifetime, ext, o).value;
    var len := HEADER_SIZE + BodySize(version, key.op);
    var os := EncodeOpts(AllOpts(len, o));
    assert req == Header(version, key, lifetime) + Body(version, key, ext).value + os;
    assert buf[len..len + |os|] == buf[..|req|][len..] == os;
  }

  /** For MAP and PEER of version 2 and MAP of version 1, whatever the options and whatever lies
      behind the request in the buffer: the walk visits exactly the written options, in order,
      and ends with nothing remaining. */
  lemma ServerWalksRequest(buf: seq<byte>, version: byte, key: FlowKey, lifetime: u32, ext: Endpoint, o: OptionFields)
    requires Request(version, key, lifetime, ext, o).Some?
    requires InBuffer(buf, Request(version, key, lifetime, ext, o).value)
    requires version == 2 || key.op == OP_MAP
    ensures var n := |Request(version, key, lifetime, ext, o).value|;
            var len := HEADER_SIZE + BodySize(version, key.op);
            var end := WalkOptions(buf, key.op, StartWalk(version, key.op, n));
            && end.visits == Headers(AllOpts(len, o), len)
            && end.remain == 0 && end.processed == n
  {
    OptionsBehindBody(buf, version, key, lifetime, ext, o);
    hide AllOpts, EncodeOpts, Request;
    var len := HEADER_SIZE + BodySize(version, key.op);
    var n := |Request(version, key, lifetime, ext, o).value|;
    var start := StartWalk(version, key.op, n);
    var s' := WalkVisitsOptions(buf, key.op, AllOpts(len, o), start);
    assert start.visits + Headers(AllOpts(len, o), len) == Headers(AllOpts(len, o), len);
  }

  lemma UnknownEndsWalk(buf: seq<byte>, opcode: byte, s: Walk)
    requires s.remain > 0 && At(buf, s.processed) == 0
    ensures var end := WalkOptions(buf, opcode, s);
            end.visits == s.visits + [Visit(s.processed, 0)] && end.processed == s.processed
  {
    var s1 := WalkStep(buf, opcode, s);
    assert s1.remain == 0;
    assert WalkOptions(buf, opcode, s1) == s1;
  }

  /** A PEER request of version 1 is walked past its end: after the written options twenty more
      bytes count as remaining, and the walk looks at whatever the buffer holds there. */
  lemma ServerOverrunsV1Peer(buf: seq<byte>, key: FlowKey, lifetime: u32, ext: Endpoint, o: OptionFields)
    requires key.op == OP_PEER
    requires InBuffer(buf, Request(1, key, lifetime, ext, o).value)
    requires At(buf, |Request(1, key, lifetime, ext, o).value|) == 0
    ensures var n := |Request(1, key, lifetime, ext, o).value|;
            var end := WalkOptions(buf, key.op, StartWalk(1, key.op, n));
            end.visits == Headers(AllOpts(68, o), 68) + [Visit(n, 0)] && end.processed == n
  {
    OptionsBehindBody(buf, 1, key, lifetime, ext, o);
    hide AllOpts, EncodeOpts, Request;
    var n := |Request(1, key, lifetime, ext, o).value|;
    var start := StartWalk(1, key.op, n);
    var s' := WalkVisitsOptions(buf, key.op, AllOpts(68, o), start);
    assert s'.remain == 20 && s'.processed == n;
    UnknownEndsWalk(buf, key.op, s');
    hide WalkOptions, Headers;
    assert start.visits + Headers(AllOpts(68, o), 68) == Headers(AllOpts(68, o), 68);
  }

  /** What the walk thinks of an option, given what occurred before it: a second third-party or
      prefer-failure option is malformed, and prefer-failure and filter are for MAP only. */
  function Judged(o: Opt, opcode: byte, third: bool, preferFailure: bool): u32 {
    match o
    case ThirdParty(_) => if third then RES_MALFORMED_OPTION else RES_SUCCESS
    case PreferFailure =>
      if preferFailure then RES_MALFORMED_OPTION else if opcode != OP_MAP then RES_MALFORMED_REQUEST else RES_SUCCESS
    case Filter(_, _, _) => if opcode != OP_MAP then RES_MALFORMED_REQUEST else RES_SUCCESS
    case _ => RES_SUCCESS
  }

  ghost predicate SomeThird(os: seq<Opt>) { exists k :: 0 <= k < |os| && os[k].ThirdParty? }

  ghost predicate SomePreferFailure(os: seq<Opt>) { exists k :: 0 <= k < |os| && os[k].PreferFailure? }

  lemma StepJudges(buf: seq<byte>, opcode: byte, o: Opt, s: Walk)
    requires Holds(buf, s.processed, EncodeOpt(o)) && s.remain > 0
    ensures var s1 := WalkStep(buf, opcode, s);
            && s1.result == Judged(o, opcode, s.occ.third, s.occ.preferFailure)
            && s1.occ == Occurrence(s.occ.third || o.ThirdParty?, s.occ.preferFailure || o.PreferFailure?)
  {
    StepReadsOption(buf, s.processed, o);
    hide StepSize, OptSize, EncodeOpt, Holds;
  }

  /** The walk reports the last option only: an error found at an earlier one is forgotten. */
  lemma {:induction false} WalkReportsLast(buf: seq<byte>, opcode: byte, os: seq<Opt>, s: Walk)
    requires os != [] && Holds(buf, s.processed, EncodeOpts(os)) && s.remain == OptsSize(os)
    ensures var before := os[..|os| - 1];
            WalkOptions(buf, opcode, s).result
            == Judged(os[|os| - 1], opcode, s.occ.third || SomeThird(before), s.occ.preferFailure || SomePreferFailure(before))
    decreases |os|
  {
    hide EncodeOpt, OptSize, WalkStep, Holds, WalkOptions, Judged;
    HoldsSplit(buf, s.processed, EncodeOpt(os[0]), EncodeOpts(os[1..]));
    StepOverOption(buf, opcode, os[0], s);
    StepJudges(buf, opcode, os[0], s);
    var s1 := WalkStep(buf, opcode, s);
    if |os| == 1 {
      assert OptsSize(os[1..]) == 0;
      WalkDone(buf, opcode, s1);
    } else {
      WalkReportsLast(buf, opcode, os[1..], s1);
      SomeSplit(os);
    }
  }

  lemma SomeSplit(os: seq<Opt>)
    requires |os| > 1
    ensures var before, rest := os[..|os| - 1], os[1..][..|os[1..]| - 1];
            && (SomeThird(before) <==> os[0].ThirdParty? || SomeThird(rest))
            && (SomePreferFailure(before) <==> os[0].PreferFailure? || SomePreferFailure(rest))
  {
    var before, rest := os[..|os| - 1], os[1..][..|os[1..]| - 1];
    assert before == [os[0]] + rest;
    assert before[0] == os[0] && forall k :: 0 <= k < |rest| ==> before[k + 1] == rest[k];
  }

  lemma WalkDone(buf: seq<byte>, opcode: byte, s: Walk)
    requires s.remain <= 0
    ensures WalkOptions(buf, opcode, s) == s
  {
  }

  lemma {:induction false} WalkGrows(buf: seq<byte>, opcode: byte, s: Walk)
    ensures |WalkOptions(buf, opcode, s).visits| >= |s.visits| + (if s.remain > 0 then 1 else 0)
    decreases if s.remain > 0 then s.remain else 0
  {
    if s.remain > 0 {
      WalkGrows(buf, opcode, WalkStep(buf, opcode, s));
    }
  }

  /** Whatever the options and the rest of the buffer: the walk visits exactly the written options
      if and only if the request is not a PEER request of version 1. */
  lemma WalkIsExactUnlessV1Peer(buf: seq<byte>, version: byte, key: FlowKey, lifetime: u32, ext: Endpoint, o: OptionFields)
    requires Request(version, key, lifetime, ext, o).Some?
    requires InBuffer(buf, Request(version, key, lifetime, ext, o).value)
    ensures var n := |Request(version, key, lifetime, ext, o).value|;
            var len := HEADER_SIZE + BodySize(version, key.op);
            WalkOptions(buf, key.op, StartWalk(version, key.op, n)).visits == Headers(AllOpts(len, o), len)
            <==> !(version == 1 && key.op == OP_PEER)
  {
    if version == 1 && key.op == OP_PEER {
      OptionsBehindBody(buf, 1, key, lifetime, ext, o);
      hide AllOpts, EncodeOpts, Request;
      var n := |Request(1, key, lifetime, ext, o).value|;
      var start := StartWalk(1, key.op, n);
      var s' := WalkVisitsOptions(buf, key.op, AllOpts(68, o), start);
      hide WalkOptions, Headers;
      assert start.visits + Headers(AllOpts(68, o), 68) == Headers(AllOpts(68, o), 68);
      WalkGrows(buf, key.op, s');
    } else {
      ServerWalksRequest(buf, version, key, lifetime, ext, o);
    }
  }

  // ----- the response ----------------------------------------------------------------

  /** Bytes written over part of a buffer. */
  function Splice(s: seq<byte>, at: nat, b: seq<byte>): (r: seq<byte>)
    requires at + |b| <= |s|
    ensures |r| == |s|
  {
    s[..at] + b + s[at + |b|..]
  }

  lemma SpliceAt(was: seq<byte>, at: nat, bytes: seq<byte>, r: seq<byte>)
    requires at + |bytes| <= |was| == |r|
    requires forall j :: 0 <= j < |r| && !(at <= j < at + |bytes|) ==> r[j] == was[j]
    requires forall j :: at <= j < at + |bytes| ==> r[j] == bytes[j - at]
    ensures r == Splice(was, at, bytes)
  {
  }

  /** Where the external address of a MAP response is; None where none is written. */
  function ExtOffset(version: byte, op: byte): Option<nat> {
    if op != OP_MAP then None
    else if version == 1 then Some(32)
    else if version == 2 then Some(44)
    else None
  }

  /** create_response on the receive buffer. */
  function Respond(buf: seq<byte>, code: byte, epoch: u32, ext: Ip, serverVersion: byte): (r: seq<byte>)
    requires |buf| == PCP_MAX_LEN
    ensures |r| == |buf|
  {
    var opcode: byte := if buf[1] < 128 then buf[1] + 128 else buf[1];
    var r0 := RespondHeader(buf, code, epoch);
    if code as int == RES_UNSUPP_VERSION then [serverVersion] + r0[1..]
    else match ExtOffset(buf[0], opcode - 128)
      case None => r0
      case Some(at) => Splice(r0, at, ext)
  }

  /** The response header that create_response makes of the request header. */
  function RespondHeader(buf: seq<byte>, code: byte, epoch: u32): (r: seq<byte>)
    requires |buf| == PCP_MAX_LEN
    ensures |r| == |buf|
  {
    var opcode: byte := if buf[1] < 128 then buf[1] + 128 else buf[1];
    [buf[0], opcode, 0, code] + buf[4..8] + BE32(epoch) + Zeros(12) + buf[24..]
  }

  lemma HeaderBytes(buf: seq<byte>, code: byte, epoch: u32)
    requires |buf| == PCP_MAX_LEN
    ensures var r := RespondHeader(buf, code, epoch);
            r[0] == buf[0] && r[1] == if buf[1] < 128 then buf[1] + 128 else buf[1]
  {
  }

  method WriteHeader(buf: array<byte>, code: byte, epoch: u32)
    requires buf.Length == PCP_MAX_LEN
    modifies buf
    ensures buf[..] == RespondHeader(old(buf[..]), code, epoch)
  {
    ghost var was := buf[..];
    buf[2] := 0;
    assert buf[..] == was[2 := 0];
    WriteAt(buf, 12, Zeros(12));
    ghost var cleared := buf[..];
    if buf[1] < 128 {
      buf[1] := buf[1] + 128;
    }
    buf[3] := code;
    ghost var opcode: byte := if was[1] < 128 then was[1] + 128 else was[1];
    assert cleared[1] == was[1] && buf[..] == cleared[1 := opcode][3 := code];
    hide BE32, RespondHeader;
    WriteAt(buf, 8, BE32(epoch));
    HeaderWritten(was, code, epoch, opcode);
  }

  /** Field after field gives the response header. */
  lemma HeaderWritten(was: seq<byte>, code: byte, epoch: u32, opcode: byte)
    requires |was| == PCP_MAX_LEN && opcode == if was[1] < 128 then was[1] + 128 else was[1]
    ensures Splice(Splice(was[2 := 0], 12, Zeros(12))[1 := opcode][3 := code], 8, BE32(epoch))
         == RespondHeader(was, code, epoch)
  {
    hide BE32;
    var z := Zeros(12);
    var b := BE32(epoch);
    var cleared := Splice(was[2 := 0], 12, z);
    var marked := cleared[1 := opcode][3 := code];
    var r := Splice(marked, 8, b);
    assert cleared[12..24] == z && cleared[24..] == was[24..] && cleared[4..8] == was[4..8];
    assert marked[..4] == [was[0], opcode, 0, code] && marked[4..] == cleared[4..];
    assert r == marked[..4] + marked[4..8] + b + marked[12..24] + marked[24..];
    assert marked[4..8] == marked[4..][..4] && marked[12..24] == marked[4..][8..20] && marked[24..] == marked[4..][20..];
    assert cleared[4..8] == cleared[4..][..4] && cleared[12..24] == cleared[4..][8..20] && cleared[24..] == cleared[4..][20..];
  }

  lemma RespondIs(was: seq<byte>, code: byte, epoch: u32, ext: Ip, serverVersion: byte)
    requires |was| == PCP_MAX_LEN
    ensures var r0 := RespondHeader(was, code, epoch);
            Respond(was, code, epoch, ext, serverVersion)
            == if code as int == RES_UNSUPP_VERSION then r0[0 := serverVersion]
               else if r0[1] == OP_MAP + 128 && r0[0] == 1 then Splice(r0, 32, ext)
               else if r0[1] == OP_MAP + 128 && r0[0] == 2 then Splice(r0, 44, ext)
               else r0
  {
    HeaderBytes(was, code, epoch);
    hide RespondHeader, Splice;
    var r0 := RespondHeader(was, code, epoch);
    assert [serverVersion] + r0[1..] == r0[0 := serverVersion];
  }

  /** The in-place code: field after field of the response header, then the address. */
  method CreateResponse(buf: array<byte>, code: byte, epoch: u32, ext: Ip, serverVersion: byte)
    requires buf.Length == PCP_MAX_LEN
    modifies buf
    ensures buf[..] == Respond(old(buf[..]), code, epoch, ext, serverVersion)
  {
    ghost var was := buf[..];
    HeaderBytes(was, code, epoch);
    RespondIs(was, code, epoch, ext, serverVersion);
    hide RespondHeader, Splice, Respond, ExtOffset;
    WriteHeader(buf, code, epoch);
    ghost var r0 := buf[..];
    assert r0 == RespondHeader(was, code, epoch) && buf[0] == r0[0] && buf[1] == r0[1];
    if code as int == RES_UNSUPP_VERSION {
      buf[0] := serverVersion;
      assert buf[..] == r0[0 := serverVersion];
      return;
    }
    if buf[1] - 128 == OP_MAP {
      if buf[0] == 1 {
        WriteAt(buf, 32, ext);
      } else if buf[0] == 2 {
        WriteAt(buf, 44, ext);
      }
    }
  }

  method WriteAt(buf: array<byte>, at: nat, bytes: seq<byte>)
    requires at + |bytes| <= buf.Length
    modifies buf
    ensures buf[..] == Splice(old(buf[..]), at, bytes)
  {
    ghost var was := buf[..];
    var k := 0;
    while k < |bytes|
      invariant 0 <= k <= |bytes|
      invariant forall j :: 0 <= j < buf.Length && !(at <= j < at + k) ==> buf[j] == was[j]
      invariant forall j :: at <= j < at + k ==> buf[j] == bytes[j - at]
    {
      buf[at + k] := bytes[k];
      k := k + 1;
    }
    SpliceAt(was, at, bytes, buf[..]);
  }
}
