/** The flow key as memory and its hash: compute_flow_key of libpcp/src/pcp_client_db.c. */
module FlowHash {
  import opened Types

  const KEY_SIZE := 76
  /** Length of the bucket array, 2 << FLOW_HASH_BITS. */
  const FLOW_HASH_SIZE := 64

  /** The bytes of struct flow_key_data up to the scope, with the padding, which is zero ... */
  function AddressBytes(k: FlowKey): (r: seq<byte>)
    ensures |r| == 40
  {
    [k.op, 0, 0, 0] + k.src + k.serverIp + k.scope
  }

  /** ... and the rest of them. */
  function OpcodeBytes(k: FlowKey): (r: seq<byte>)
    ensures |r| == 36
  {
    k.nonce + [k.protocol, 0] + k.srcPort + k.dst + k.dstPort + [0, 0]
  }

  function KeyBytes(k: FlowKey): (r: seq<byte>)
    ensures |r| == KEY_SIZE
  {
    AddressBytes(k) + OpcodeBytes(k)
  }

  lemma AddressParts(k: FlowKey)
    ensures var r := AddressBytes(k);
            r[0] == k.op && r[4..20] == k.src && r[20..36] == k.serverIp && r[36..40] == k.scope
  {
  }

  lemma OpcodeParts(k: FlowKey)
    ensures var r := OpcodeBytes(k);
            && r[..12] == k.nonce && r[12] == k.protocol && r[14..16] == k.srcPort
            && r[16..32] == k.dst && r[32..34] == k.dstPort
  {
  }

  /** memcmp on the whole record decides equality of the fields. */
  lemma KeyBytesInjective(a: FlowKey, b: FlowKey)
    ensures KeyBytes(a) == KeyBytes(b) <==> a == b
  {
    AddressParts(a);
    AddressParts(b);
    OpcodeParts(a);
    OpcodeParts(b);
    hide AddressBytes, OpcodeBytes;
    var x, y := KeyBytes(a), KeyBytes(b);
    if x == y {
      assert AddressBytes(a) == x[..40] == y[..40] == AddressBytes(b);
      assert OpcodeBytes(a) == x[40..] == y[40..] == OpcodeBytes(b);
    }
  }

  /** One round of the loop: shift left by a byte, fold the lost byte back in, add the next. */
  function HashStep(h: bv32, b: bv32): bv32 {
    ((h << 8) ^ ((h & 0xff00_0000) >> 24)) ^ b
  }

  /** The loop runs from the last byte to the first. */
  function HashBytes(s: seq<byte>): bv32 {
    if s == [] then 0 else HashStep(HashBytes(s[1..]), s[0] as bv32)
  }

  function Scatter(h: bv32): (b: nat)
    ensures b < 32
  {
    var r := (h * 0x9E37_79B9) >> 27;
    assert r < 32;
    r as nat
  }

  /** The chain of a flow. The multiplicative hash keeps five bits, so only the first half
      of the bucket array is ever used. */
  function Bucket(k: FlowKey): (b: nat)
    ensures b < 32 < FLOW_HASH_SIZE
  {
    Scatter(HashBytes(KeyBytes(k)))
  }

  /** compute_flow_key */
  method ComputeFlowKey(kd: seq<byte>) returns (h: nat)
    ensures h == Scatter(HashBytes(kd)) && h < 32
  {
    hide HashStep, Scatter;
    var acc: bv32 := 0;
    var k := |kd|;
    while k != 0
      invariant 0 <= k <= |kd|
      invariant acc == HashBytes(kd[k..])
    {
      k := k - 1;
      assert kd[k..][1..] == kd[k + 1..];
      acc := HashStep(acc, kd[k] as bv32);
    }
    assert kd[0..] == kd;
    h := Scatter(acc);
  }

  // ----- a simpler form of the loop --------------------------------------------------

  /** Four bytes as one little-endian word. */
  function LittleEndian(a: bv32, b: bv32, c: bv32, d: bv32): bv32 {
    a ^ (b << 8) ^ (c << 16) ^ (d << 24)
  }

  function XorWords(s: seq<byte>): bv32
    requires |s| % 4 == 0
  {
    if s == [] then 0
    else XorWords(s[4..]) ^ LittleEndian(s[0] as bv32, s[1] as bv32, s[2] as bv32, s[3] as bv32)
  }

  /** Four rounds bring every byte to its place and the old value back to where it was. */
  lemma FourSteps(h: bv32, a: bv32, b: bv32, c: bv32, d: bv32)
    requires a < 256 && b < 256 && c < 256 && d < 256
    ensures HashStep(HashStep(HashStep(HashStep(h, d), c), b), a) == h ^ LittleEndian(a, b, c, d)
  {
  }

  lemma ByteIsSmall(b: byte)
    ensures b as bv32 < 256
  {
  }

  lemma FourBytes(s: seq<byte>)
    requires |s| >= 4
    ensures HashBytes(s) == HashStep(HashStep(HashStep(HashStep(HashBytes(s[4..]),
                              s[3] as bv32), s[2] as bv32), s[1] as bv32), s[0] as bv32)
  {
    hide HashStep;
    assert s[1..][1..] == s[2..] && s[2..][1..] == s[3..] && s[3..][1..] == s[4..];
    assert HashBytes(s[3..]) == HashStep(HashBytes(s[4..]), s[3] as bv32);
    assert HashBytes(s[2..]) == HashStep(HashBytes(s[3..]), s[2] as bv32);
    assert HashBytes(s[1..]) == HashStep(HashBytes(s[2..]), s[1] as bv32);
  }

  /** On records made of words the byte loop is the exclusive or of the words: the rotation
      comes full circle every four bytes. */
  lemma {:induction false} HashIsXorOfWords(s: seq<byte>)
    requires |s| % 4 == 0
    ensures HashBytes(s) == XorWords(s)
  {
    hide HashStep, LittleEndian;
    if s != [] {
      HashIsXorOfWords(s[4..]);
      FourBytes(s);
      ByteIsSmall(s[0]);
      ByteIsSmall(s[1]);
      ByteIsSmall(s[2]);
      ByteIsSmall(s[3]);
      FourSteps(HashBytes(s[4..]), s[0] as bv32, s[1] as bv32, s[2] as bv32, s[3] as bv32);
    }
  }
}
