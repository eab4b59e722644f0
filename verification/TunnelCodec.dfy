/**
 * The frame format of the reverse tunnel: a 16-octet big-endian header followed by the payload
 * (`tunnel_protocol.h`, `tunnel_protocol.cpp`).
 */
module TunnelCodec {
  import opened Results
  import opened Bytes
  import opened Addresses
  import opened Decimal

  type u16 = x: int | 0 <= x < 0x1_0000
  type u32 = x: int | 0 <= x < 0x1_0000_0000

  const MAGIC: u32 := 0x544E4C50
  const HEADER_SIZE: nat := 16
  const MAX_PAYLOAD: u32 := 65536

  const HELLO: byte := 1
  const HELLO_ACK: byte := 2
  const OPEN: byte := 3
  const OPEN_ACK: byte := 4
  const DATA: byte := 5
  const CLOSE: byte := 6
  const HEARTBEAT: byte := 7
  const HEARTBEAT_ACK: byte := 8

  const NO_FLAGS: byte := 0
  const FIN: byte := 1
  const SYN: byte := 2
  const ACK: byte := 4

  /** A frame; the type field is a raw octet because the parser does not check it. */
  datatype Frame = Frame(magic: u32, kind: byte, flags: byte, reserved: u16,
                         sessionId: u32, length: u32, payload: seq<byte>)
  {
    /** The frames that `serialize` is documented for and the receiver accepts. */
    predicate Valid() {
      magic == MAGIC && length == |payload| && length <= MAX_PAYLOAD
    }
  }

  datatype Error = ShortHeader | BadMagic | TooLong | ShortPayload
                 | IdTooLong | BadAddress | EmptyHello | TruncatedHello | ShortOpen

  // ---- serialization ----------------------------------------------------------------------

  function Header(f: Frame): (s: seq<byte>)
    ensures |s| == HEADER_SIZE
  {
    Be(f.magic, 4) + [f.kind, f.flags] + Be(f.reserved, 2) + Be(f.sessionId, 4) + Be(f.length, 4)
  }

  /** The octets of a frame on the wire. */
  function Wire(f: Frame): seq<byte> { Header(f) + f.payload }

  /** `serialize`: fills the buffer field by field. */
  method Serialize(frame: Frame) returns (buf: seq<byte>)
    ensures buf == Wire(frame)
  {
    buf := [];
    buf := buf + Be(frame.magic, 4);
    buf := buf + [frame.kind];
    buf := buf + [frame.flags];
    buf := buf + Be(frame.reserved, 2);
    buf := buf + Be(frame.sessionId, 4);
    buf := buf + Be(frame.length, 4);
    buf := buf + frame.payload;
  }

  // ---- parsing ----------------------------------------------------------------------------

  function U16(s: seq<byte>): u16
    requires |s| == 2
  {
    BeOfBeValue(s); Pow256Values();
    BeValue(s)
  }

  function U32(s: seq<byte>): u32
    requires |s| == 4
  {
    BeOfBeValue(s); Pow256Values();
    BeValue(s)
  }

  /** `parse_header`: the checks in their order, then the fields with an empty payload. */
  function ParseHeader(buf: seq<byte>): Result<Frame, Error> {
    if |buf| < HEADER_SIZE then Err(ShortHeader)
    else if U32(buf[0..4]) != MAGIC then Err(BadMagic)
    else if U32(buf[12..16]) > MAX_PAYLOAD then Err(TooLong)
    else Ok(Frame(U32(buf[0..4]), buf[4], buf[5], U16(buf[6..8]),
                  U32(buf[8..12]), U32(buf[12..16]), []))
  }

  /** `parse_frame`: the header, then as many payload octets as it declares. */
  function ParseFrame(header: seq<byte>, payload: seq<byte>): Result<Frame, Error>
  {
    match ParseHeader(header)
    case Err(e) => Err(e)
    case Ok(f) =>
      if |payload| < f.length then Err(ShortPayload)
      else Ok(f.(payload := payload[..f.length]))
  }

  lemma FieldsOfHeader(f: Frame)
    ensures var h := Header(f);
            && h[0..4] == Be(f.magic, 4) && h[4] == f.kind && h[5] == f.flags
            && h[6..8] == Be(f.reserved, 2) && h[8..12] == Be(f.sessionId, 4)
            && h[12..16] == Be(f.length, 4)
  {
  }

  /** The header octet by octet: magic, type, flags, two reserved octets, session id, payload length. */
  lemma HeaderOctets(f: Frame)
    requires f.magic == MAGIC
    ensures Header(f) == [0x54, 0x4E, 0x4C, 0x50, f.kind, f.flags, f.reserved / 0x100, f.reserved % 0x100,
                          f.sessionId / 0x100_0000, f.sessionId / 0x1_0000 % 0x100,
                          f.sessionId / 0x100 % 0x100, f.sessionId % 0x100,
                          f.length / 0x100_0000, f.length / 0x1_0000 % 0x100, f.length / 0x100 % 0x100, f.length % 0x100]
  {
    MagicOctets();
    BeOctets(f.reserved);
    BeOctets(f.sessionId);
    BeOctets(f.length);
    hide Be;
    JoinOctets(Be(f.magic, 4), f.kind, f.flags, Be(f.reserved, 2), Be(f.sessionId, 4), Be(f.length, 4));
  }

  lemma MagicOctets()
    ensures Be(MAGIC, 4) == [0x54, 0x4E, 0x4C, 0x50]
  {
    BeOctets(MAGIC);
  }

  lemma JoinOctets(a: seq<byte>, k: byte, f: byte, b: seq<byte>, c: seq<byte>, d: seq<byte>)
    requires |a| == 4 && |b| == 2 && |c| == 4 && |d| == 4
    ensures a + [k, f] + b + c + d ==
            [a[0], a[1], a[2], a[3], k, f, b[0], b[1], c[0], c[1], c[2], c[3], d[0], d[1], d[2], d[3]]
  {
  }

  lemma U16OfBe(v: u16)
    ensures U16(Be(v, 2)) == v
  {
    Pow256Values();
    BeValueOfBe(v, 2);
  }

  lemma U32OfBe(v: u32)
    ensures U32(Be(v, 4)) == v
  {
    Pow256Values();
    BeValueOfBe(v, 4);
  }

  /** The header parser accepts a header exactly when its magic and its length are in order. */
  lemma HeaderRoundTrip(f: Frame)
    ensures ParseHeader(Header(f)) ==
            if f.magic != 0x544E4C50 then Err(BadMagic)
            else if f.length > 65536 then Err(TooLong)
            else Ok(f.(payload := []))
  {
    FieldsOfHeader(f);
    U32OfBe(f.magic); U16OfBe(f.reserved); U32OfBe(f.sessionId); U32OfBe(f.length);
  }

  /** Parsing what was serialized gives the frame back, whatever follows it in the buffer. */
  lemma ParseOfSerialize(f: Frame, rest: seq<byte>)
    requires f.Valid()
    ensures var w := Wire(f) + rest;
            |w| >= HEADER_SIZE && ParseFrame(w[..HEADER_SIZE], w[HEADER_SIZE..]) == Ok(f)
  {
    var w := Wire(f) + rest;
    assert w[..HEADER_SIZE] == Header(f);
    assert w[HEADER_SIZE..] == f.payload + rest;
    HeaderRoundTrip(f);
  }

  /** Serializing what was parsed gives back the octets that were read: nothing is normalized. */
  lemma SerializeOfParse(header: seq<byte>, payload: seq<byte>)
    requires |header| == HEADER_SIZE
    requires ParseFrame(header, payload).Ok?
    ensures var f := ParseFrame(header, payload).value;
            && f.Valid()
            && Wire(f) == header + payload[..f.length]
  {
    var f := ParseFrame(header, payload).value;
    BeOfBeValue(header[0..4]); BeOfBeValue(header[6..8]);
    BeOfBeValue(header[8..12]); BeOfBeValue(header[12..16]);
    assert Header(f) == header[0..4] + [header[4], header[5]] + header[6..8] + header[8..12] + header[12..16];
    assert Header(f) == header;
  }

  // ---- frames with a structured payload ---------------------------------------------------

  function Make(kind: byte, sessionId: u32, payload: seq<byte>, flags: byte): Frame
    requires |payload| < 0x1_0000_0000
  {
    Frame(MAGIC, kind, flags, 0, sessionId, |payload|, payload)
  }

  function MakeHelloAck(): Frame { Make(HELLO_ACK, 0, [], ACK) }

  function MakeOpenAck(sessionId: u32): Frame { Make(OPEN_ACK, sessionId, [], ACK) }

  function MakeData(sessionId: u32, data: seq<byte>): Frame
    requires |data| < 0x1_0000_0000
  {
    Make(DATA, sessionId, data, NO_FLAGS)
  }

  function MakeClose(sessionId: u32): Frame { Make(CLOSE, sessionId, [], FIN) }

  function MakeHeartbeat(): Frame { Make(HEARTBEAT, 0, [], NO_FLAGS) }

  function MakeHeartbeatAck(): Frame { Make(HEARTBEAT_ACK, 0, [], ACK) }

  /** Type and flags of each frame as they stand in its header. */
  lemma TypeOctets(sessionId: u32, data: seq<byte>)
    requires |data| < 0x1_0000_0000
    ensures Header(MakeHelloAck())[4..6] == [2, 4] && Header(MakeOpenAck(sessionId))[4..6] == [4, 4]
    ensures Header(MakeData(sessionId, data))[4..6] == [5, 0] && Header(MakeClose(sessionId))[4..6] == [6, 1]
    ensures Header(MakeHeartbeat())[4..6] == [7, 0] && Header(MakeHeartbeatAck())[4..6] == [8, 4]
    ensures MakeHelloAck().sessionId == MakeHeartbeat().sessionId == MakeHeartbeatAck().sessionId == 0
  {
    TypeAndFlags(MakeHelloAck());
    TypeAndFlags(MakeOpenAck(sessionId));
    TypeAndFlags(MakeData(sessionId, data));
    TypeAndFlags(MakeClose(sessionId));
    TypeAndFlags(MakeHeartbeat());
    TypeAndFlags(MakeHeartbeatAck());
  }

  lemma TypeAndFlags(f: Frame)
    ensures Header(f)[4..6] == [f.kind, f.flags]
  {
    FieldsOfHeader(f);
  }

  /** `make_hello`: one length octet, then the agent id. */
  function MakeHello(agentId: seq<byte>): Result<Frame, Error> {
    if |agentId| > 255 then Err(IdTooLong)
    else Ok(Make(HELLO, 0, [|agentId|] + agentId, SYN))
  }

  function ParseHello(payload: seq<byte>): Result<seq<byte>, Error> {
    if payload == [] then Err(EmptyHello)
    else if |payload| < 1 + (payload[0] as int) then Err(TruncatedHello)
    else Ok(payload[1..1 + (payload[0] as int)])
  }

  lemma HelloRoundTrip(agentId: seq<byte>)
    ensures MakeHello(agentId).Ok? <==> |agentId| <= 255
    ensures MakeHello(agentId).Ok? ==>
              && MakeHello(agentId).value.Valid()
              && ParseHello(MakeHello(agentId).value.payload) == Ok(agentId)
              && Header(MakeHello(agentId).value)[4..6] == [1, 2] && MakeHello(agentId).value.sessionId == 0
              && MakeHello(agentId).value.payload == [|agentId|] + agentId
  {
    if |agentId| <= 255 {
      assert ([|agentId|] + agentId)[1..1 + |agentId|] == agentId;
      TypeAndFlags(MakeHello(agentId).value);
    }
  }

  /** `make_open`: the target address in network order, then the port. */
  function MakeOpen(sessionId: u32, targetIp: string, targetPort: u16): Result<Frame, Error> {
    match FromText(targetIp)
    case None => Err(BadAddress)
    case Some(ip) => Ok(Make(OPEN, sessionId, [ip.a, ip.b, ip.c, ip.d] + Be(targetPort, 2), SYN))
  }

  function ParseOpen(payload: seq<byte>): Result<(string, u16), Error> {
    if |payload| < 6 then Err(ShortOpen)
    else Ok((Text(Ipv4(payload[0], payload[1], payload[2], payload[3])), U16(payload[4..6])))
  }

  /** The address goes out in the order in which it is written, then the port, high octet first. */
  lemma OpenOctets(sessionId: u32, ip: Ipv4, targetPort: u16)
    ensures MakeOpen(sessionId, Text(ip), targetPort) ==
            Ok(Frame(MAGIC, 3, 2, 0, sessionId, 6, [ip.a, ip.b, ip.c, ip.d, targetPort / 0x100, targetPort % 0x100]))
    ensures Text(Ipv4(192, 168, 0, 1)) == "192.168.0.1"
  {
    hide FromText, Be;
    FromTextOfText(ip);
    BeOctets(targetPort);
    assert [ip.a, ip.b, ip.c, ip.d] + [targetPort / 0x100, targetPort % 0x100] ==
           [ip.a, ip.b, ip.c, ip.d, targetPort / 0x100, targetPort % 0x100];
    Numeral192();
  }

  lemma Numeral192()
    ensures Text(Ipv4(192, 168, 0, 1)) == "192.168.0.1"
  {
    assert Digits(19) == "19" && Digits(16) == "16";
    assert Digits(192) == "192" && Digits(168) == "168";
  }

  /**
   * The agent is told the text, up to any NUL, and the port that the server was asked for, and reads
   * the same address from it.
   */
  lemma OpenRoundTrip(sessionId: u32, targetIp: string, targetPort: u16)
    ensures MakeOpen(sessionId, targetIp, targetPort).Ok? <==> exists ip :: CString(targetIp) == Text(ip)
    ensures MakeOpen(sessionId, targetIp, targetPort).Ok? ==>
              && MakeOpen(sessionId, targetIp, targetPort).value.Valid()
              && ParseOpen(MakeOpen(sessionId, targetIp, targetPort).value.payload) == Ok((CString(targetIp), targetPort))
              && FromText(CString(targetIp)) == FromText(targetIp)
  {
    hide FromText, Text, CString;
    forall ip ensures FromText(targetIp) == Some(ip) <==> CString(targetIp) == Text(ip) { FromTextExactly(targetIp, ip); }
    if FromText(targetIp).Some? {
      var ip := FromText(targetIp).value;
      var payload := [ip.a, ip.b, ip.c, ip.d] + Be(targetPort, 2);
      assert payload[4..6] == Be(targetPort, 2);
      U16OfBe(targetPort);
      FromTextOfText(ip);
    }
  }
}
