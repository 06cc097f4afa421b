/** build_pcp_msg of libpcp/src/pcp_msg.c as a whole. */
module Builder {
  import opened Types
  import opened Message
  import opened Reader

  /** build_pcp_msg: a fresh buffer holding exactly the message, within the limit; null for an
      opcode or version that there is no message for. A server reads in it what was asked for. */
  method BuildPcpMsg(version: byte, key: FlowKey, lifetime: u32, ext: Endpoint, o: OptionFields)
    returns (buf: Buffer?)
    ensures (buf == null) == Built(version, key, lifetime, ext, o).None?
    ensures buf != null ==> buf.Valid() && fresh(buf)
                            && buf.Contents() == Built(version, key, lifetime, ext, o).value
                            && (version > 0 ==> |buf.Contents()| % 4 == 0)
    ensures (version == 1 || version == 2) && (key.op == OP_ANNOUNCE || key.op == OP_MAP || key.op == OP_PEER) ==>
              buf != null && ReadRequest(buf.Contents()) == Some(Asked(version, key, lifetime, ext, o))
    ensures version == 0 ==> buf != null && ReadNatPmp(buf.Contents()) == NatPmpAsked(key, lifetime, ext)
  {
    if (version == 1 || version == 2) && (key.op == OP_ANNOUNCE || key.op == OP_MAP || key.op == OP_PEER) {
      RequestIsRead(version, key, lifetime, ext, o);
    }
    NatPmpIsRead(key, lifetime, ext);
    hide Body, Header, AllOpts, NatPmpRequest, ReadRequest, ReadNatPmp, Asked, NatPmpAsked;
    if Built(version, key, lifetime, ext, o).Some? {
      BuiltLength(version, key, lifetime, ext, o);
    }
    if version == 0 {
      buf := new Buffer();
      buf.PutNatPmp(key, lifetime, ext);
      return;
    }
    if key.op == OP_ANNOUNCE {
      buf := new Buffer();
      buf.PutHeader(version, key, lifetime);
      return;
    }
    BodyExists(version, key, ext);
    if (version != 1 && version != 2) || (key.op != OP_MAP && key.op != OP_PEER) {
      return null;
    }
    BodyHasItsSize(version, key, ext);
    buf := new Buffer();
    buf.PutHeader(version, key, lifetime);
    buf.PutBody(version, key, ext);
    buf.AddOptions(o);
  }
}
