/**
 * WebSocket framing (sections 5.2 and 5.3 of RFC 6455) as the gateway and its Chromium client do it:
 * `send_ws_frame` and `read_ws_frame` in `guac_websocket.cpp`, `cdp_send` and `cdp_recv` in
 * `guac_web.cpp`.
 */
module WsFrames {
  import opened Results
  import opened Bytes
  import opened Masking
  import opened Sockets

  // ---- frames ---------------------------------------------------------------------------------------------

  const TEXT: byte := 1
  const CLOSE: byte := 8
  const PING: byte := 9
  const PONG: byte := 10

  const MAX_LENGTH: nat := 0x1_0000_0000_0000_0000

  /** The seven-bit length and its extension. */
  function LengthField(n: nat): (f: (byte, seq<byte>))
    ensures f.0 < 128
  {
    if n < 126 then (n, []) else if n < 65536 then (126, Be(n, 2)) else (127, Be(n, 8))
  }

  /** A frame from the gateway to a browser. */
  function PlainFrame(p: seq<byte>): seq<byte> {
    [0x80 + TEXT, LengthField(|p|).0] + LengthField(|p|).1 + p
  }

  /** A frame from a client; its payload is masked. */
  function MaskedFrame(mask: Mask, p: seq<byte>): seq<byte> {
    [0x80 + TEXT, 0x80 + LengthField(|p|).0] + LengthField(|p|).1 + mask + Masked(mask, p)
  }

  /** What a receiver learns from one frame. */
  datatype Frame = Frame(opcode: byte, payload: seq<byte>)

  datatype Head = Head(opcode: byte, masked: bool, length: nat, size: nat)

  /** The header without the masking key, if all of it is there; its size is 2, 4 or 10. */
  function ReadHead(s: seq<byte>): (h: Option<Head>)
    ensures h.Some? ==> h.value.size <= |s|
  {
    if |s| < 2 then None
    else
      var opcode, masked, short := s[0] % 16, s[1] >= 128, s[1] % 128;
      if short < 126 then Some(Head(opcode, masked, short, 2))
      else
        var k := if short == 126 then 2 else 8;
        if |s| < 2 + k then None else Some(Head(opcode, masked, BeValue(s[2..2 + k]), 2 + k))
  }

  /** One frame from the front of a stream, and the rest of the stream. */
  function ReadFrame(s: seq<byte>): (r: Option<(Frame, seq<byte>)>)
    ensures r.Some? ==> |r.value.1| < |s|
  {
    match ReadHead(s)
    case None => None
    case Some(h) =>
      var start := h.size + if h.masked then 4 else 0;
      if |s| < start + h.length then None
      else
        var body := s[start..start + h.length];
        var payload := if h.masked then Masked(s[h.size..start], body) else body;
        Some((Frame(h.opcode, payload), s[start + h.length..]))
  }

  /** A frame octet by octet, as section 5.2 of RFC 6455 lays it out: f is at the front of s, and rest is left. */
  ghost predicate IsFrame(s: seq<byte>, f: Frame, rest: seq<byte>) {
    && |s| >= 2
    && f.opcode == s[0] % 16
    && var ext := match s[1] % 128 case 126 => 2 case 127 => 8 case _ => 0;
       var start := 2 + ext + if s[1] >= 128 then 4 else 0;
       && start + |f.payload| <= |s|
       && |f.payload| == (if ext == 0 then s[1] % 128 else BeValue(s[2..2 + ext]))
       && rest == s[start + |f.payload|..]
       && var body := s[start..start + |f.payload|];
          if s[1] < 128 then f.payload == body
          else var key: Mask := s[2 + ext..start]; Flipped(key, body, f.payload)
  }

  lemma HeadIsAtFront(s: seq<byte>)
    ensures |s| < 2 ==> ReadHead(s).None?
    ensures |s| >= 2 ==>
            var ext := match s[1] % 128 case 126 => 2 case 127 => 8 case _ => 0;
            ReadHead(s) == if |s| < 2 + ext then None
                           else Some(Head(s[0] % 16, s[1] >= 128, if ext == 0 then s[1] % 128 else BeValue(s[2..2 + ext]), 2 + ext))
  {
  }

  /** What the receivers read is the frame at the front, and there is no other. */
  lemma ReadsTheFrame(s: seq<byte>, f: Frame, rest: seq<byte>)
    ensures ReadFrame(s) == Some((f, rest)) <==> IsFrame(s, f, rest)
  {
    hide ReadHead, Masked, Flipped;
    if |s| >= 2 {
      HeadIsAtFront(s);
      if ReadHead(s).Some? {
        var h := ReadHead(s).value;
        var start := h.size + if h.masked then 4 else 0;
        if h.masked && start + h.length <= |s| {
          MaskedFlips(s[h.size..start], s[start..start + h.length], f.payload);
        }
      }
    } else {
      NoHead(s);
    }
  }

  lemma NoHead(s: seq<byte>)
    requires |s| < 2
    ensures ReadFrame(s).None?
  {
  }

  /** The octets of a text frame that carries p in the shortest form; `key` is the masking key or nothing. */
  ghost predicate TextFrame(f: seq<byte>, key: seq<byte>, p: seq<byte>)
    requires |key| == 0 || |key| == 4
  {
    var short := if |p| < 126 then |p| else if |p| < 0x1_0000 then 126 else 127;
    var ext := if |p| < 126 then 0 else if |p| < 0x1_0000 then 2 else 8;
    var start := 2 + ext + |key|;
    && |f| == start + |p|
    && f[0] == 0x81
    && f[1] == short + (if key == [] then 0 else 0x80)
    && (ext > 0 ==> BeValue(f[2..2 + ext]) == |p|)
    && f[2 + ext..start] == key
    && if key == [] then f[start..] == p else Flipped(key, p, f[start..])
  }

  lemma LengthReads(n: nat)
    requires n < MAX_LENGTH
    ensures n >= 126 ==> BeValue(LengthField(n).1) == n
  {
    Pow256Values();
    if n >= 126 { BeValueOfBe(n, |LengthField(n).1|); }
  }

  lemma PlainOctets(p: seq<byte>)
    requires |p| < MAX_LENGTH
    ensures TextFrame(PlainFrame(p), [], p)
  {
    LengthReads(|p|);
    var (short, ext) := LengthField(|p|);
    hide Flipped, BeValue;
    assert PlainFrame(p)[2..2 + |ext|] == ext;
  }

  lemma MaskedOctets(mask: Mask, p: seq<byte>)
    requires |p| < MAX_LENGTH
    ensures TextFrame(MaskedFrame(mask, p), mask, p)
  {
    LengthReads(|p|);
    var (short, ext) := LengthField(|p|);
    var f, body := MaskedFrame(mask, p), Masked(mask, p);
    MaskedFlips(mask, p, body);
    hide Flipped, BeValue, Masked;
    Window([0x81, 0x80 + short], ext, mask + body);
    Regroup([0x81, 0x80 + short], ext, mask, body);
    assert f[2 + |ext|..6 + |ext|] == mask && f[6 + |ext|..] == body;
  }

  /** The unmasked examples of section 5.7 of RFC 6455: "Hello" in a text frame, a Ping and its Pong. */
  lemma ExamplesOfTheStandard()
    ensures var hello: seq<byte> := [0x48, 0x65, 0x6C, 0x6C, 0x6F];
            && PlainFrame(hello) == [0x81, 0x05] + hello
            && ReadFrame([0x89, 0x05] + hello) == Some((Frame(PING, hello), []))
            && PongFrame(hello) == [0x8A, 0x05] + hello
  {
    var hello: seq<byte> := [0x48, 0x65, 0x6C, 0x6C, 0x6F];
    var s := [0x89, 0x05] + hello;
    assert s[2..7] == hello && s[7..] == [];
  }

  /** A Close frame ends the reading, and an empty payload is no message. */
  lemma NothingIsReceived(rest: seq<byte>)
    ensures Receive([0x88, 0x00] + rest) == ([], [], rest)
    ensures Payloads([0x88, 0x00] + rest) == [] && Payloads([0x81, 0x00] + rest) == []
  {
    EmptyFrame(0x88, rest);
    EmptyFrame(0x81, rest);
    hide ReadFrame;
  }

  lemma EmptyFrame(first: byte, rest: seq<byte>)
    ensures ReadFrame([first, 0x00] + rest) == Some((Frame(first % 16, []), rest))
  {
    HeadReads(first, 0, [], rest);
    hide ReadHead;
    assert [first, 0x00] + [] + rest == [first, 0x00] + rest;
    assert ([first, 0x00] + rest)[2..] == rest;
  }

  lemma HeadOfLength(first: byte, n: nat, masked: bool, rest: seq<byte>)
    requires n < MAX_LENGTH
    ensures var (short, ext) := LengthField(n);
            ReadHead([first, (if masked then 128 else 0) + short] + ext + rest) == Some(Head(first % 16, masked, n, 2 + |ext|))
  {
    var (short, ext) := LengthField(n);
    LengthReads(n);
    hide Be, BeValue;
    HeadReads(first, (if masked then 128 else 0) + short, ext, rest);
  }

  lemma HeadReads(first: byte, second: byte, ext: seq<byte>, rest: seq<byte>)
    requires |ext| == if second % 128 < 126 then 0 else if second % 128 == 126 then 2 else 8
    ensures ReadHead([first, second] + ext + rest) ==
            Some(Head(first % 16, second >= 128, if ext == [] then second % 128 else BeValue(ext), 2 + |ext|))
  {
    var s := [first, second] + ext + rest;
    assert s[0] == first && s[1] == second && s[2..2 + |ext|] == ext;
  }

  /** A plain frame is read back, whatever follows it. */
  lemma PlainRoundTrip(p: seq<byte>, rest: seq<byte>)
    requires |p| < MAX_LENGTH
    ensures ReadFrame(PlainFrame(p) + rest) == Some((Frame(TEXT, p), rest))
  {
    var (short, ext) := LengthField(|p|);
    var s := PlainFrame(p) + rest;
    assert s == [0x81, short] + ext + (p + rest);
    HeadOfLength(0x81, |p|, false, p + rest);
    Window([0x81, short] + ext, p, rest);
  }

  lemma Window(a: seq<byte>, b: seq<byte>, c: seq<byte>)
    ensures (a + (b + c))[|a|..|a| + |b|] == b && (a + (b + c))[|a| + |b|..] == c
  {
  }

  lemma MaskedBody(head: seq<byte>, opcode: byte, mask: Mask, body: seq<byte>, rest: seq<byte>)
    requires ReadHead(head + (mask + (body + rest))) == Some(Head(opcode, true, |body|, |head|))
    ensures ReadFrame(head + (mask + (body + rest))) == Some((Frame(opcode, Masked(mask, body)), rest))
  {
    hide ReadHead, Masked;
    Window(head, mask, body + rest);
    Window(head + mask, body, rest);
    Regroup(head, mask, body, rest);
  }

  /** A masked frame is read back, whatever the key and whatever follows it. */
  lemma MaskedRoundTrip(mask: Mask, p: seq<byte>, rest: seq<byte>)
    requires |p| < MAX_LENGTH
    ensures ReadFrame(MaskedFrame(mask, p) + rest) == Some((Frame(TEXT, p), rest))
  {
    hide LengthField, ReadHead, Masked, ReadFrame;
    var (short, ext) := LengthField(|p|);
    var head, body := [0x81, 0x80 + short] + ext, Masked(mask, p);
    Regroup(head, mask, body, rest);
    HeadOfLength(0x81, |p|, true, mask + (body + rest));
    MaskedBody(head, TEXT, mask, body, rest);
    MaskedTwice(mask, p);
  }

  lemma Regroup(a: seq<byte>, b: seq<byte>, c: seq<byte>, d: seq<byte>)
    ensures a + b + c + d == a + (b + (c + d)) == (a + b) + (c + d)
  {
  }

  /** No other way of writing the length is shorter. */
  lemma ShortestLength(n: nat, s: seq<byte>)
    requires n < MAX_LENGTH && ReadHead(s).Some? && ReadHead(s).value.length == n
    ensures 2 + |LengthField(n).1| <= ReadHead(s).value.size
  {
    if |s| >= 4 { BeOfBeValue(s[2..4]); }
    Pow256Values();
  }

  // ---- the methods ------------------------------------------------------------------------------------------

  /** The buffers that have been handed to `send` or `write`, one per call. */
  class Outbox {
    var calls: seq<seq<byte>>

    constructor ()
      ensures calls == []
    {
      calls := [];
    }

    method Write(buf: seq<byte>)
      modifies this
      ensures calls == old(calls) + [buf]
    {
      calls := calls + [buf];
    }
  }

  /** The bytes of len from `count` down to the lowest, by shifting. */
  method PushLength(frame: seq<byte>, len: nat, count: nat) returns (out: seq<byte>)
    ensures out == frame + Be(len, count)
  {
    out := frame;
    var i := count;
    while i > 0
      invariant 0 <= i <= count
      invariant frame + Be(len, count) == out + Be(len, i)
    {
      i := i - 1;
      BeFromTop(len, i);
      out := out + [(len / Pow256(i)) % 256];
    }
  }

  lemma {:induction false} BeFromTop(v: nat, k: nat)
    ensures Be(v, k + 1) == [(v / Pow256(k)) % 256] + Be(v, k)
  {
    if k > 0 {
      BeFromTop(v / 256, k - 1);
      Quotients(v, k);
    } else {
      assert Be(v, 1) == Be(v / 256, 0) + [v % 256];
    }
  }

  lemma Quotients(v: nat, k: nat)
    requires k > 0
    ensures v / 256 / Pow256(k - 1) == v / Pow256(k)
  {
    var p := Pow256(k - 1);
    var q := v / 256 / p;
    assert v / 256 == q * p + (v / 256) % p;
    assert v == 256 * (v / 256) + v % 256;
    assert q * Pow256(k) == 256 * (q * p);
    QuotientUnique(v, Pow256(k), q, 256 * ((v / 256) % p) + v % 256);
  }

  method SendWsFrame(text: seq<byte>, out: Outbox)
    modifies out
    ensures out.calls == old(out.calls) + [PlainFrame(text)]
    ensures |text| < MAX_LENGTH ==> TextFrame(out.calls[|old(out.calls)|], [], text)
  {
    var frame: seq<byte> := [0x81];
    var len := |text|;
    if len < 126 {
      frame := frame + [len];
    } else if len < 65536 {
      frame := frame + [126];
      frame := PushLength(frame, len, 2);
    } else {
      frame := frame + [127];
      frame := PushLength(frame, len, 8);
    }
    frame := frame + text;
    assert frame == PlainFrame(text);
    out.Write(frame);
    if len < MAX_LENGTH { PlainOctets(text); }
  }

  /** The key comes from the system's random numbers. */
  method CdpSend(payload: seq<byte>, mask: Mask, out: Outbox)
    modifies out
    ensures out.calls == old(out.calls) + [MaskedFrame(mask, payload)]
    ensures |payload| < MAX_LENGTH ==> TextFrame(out.calls[|old(out.calls)|], mask, payload)
  {
    hide TextFrame;
    var frame: seq<byte> := [0x81];
    var len := |payload|;
    if len < 126 {
      frame := frame + [0x80 + len];
    } else if len < 65536 {
      frame := frame + [0x80 + 126];
      frame := PushLength(frame, len, 2);
    } else {
      frame := frame + [0x80 + 127];
      frame := PushLength(frame, len, 8);
    }
    frame := frame + mask;
    ghost var head := frame;
    for i := 0 to len
      invariant frame == head + Masked(mask, payload)[..i]
    {
      frame := frame + [Xor(payload[i], mask[i % 4])];
      assert Masked(mask, payload)[..i + 1] == Masked(mask, payload)[..i] + [Xor(payload[i], mask[i % 4])];
    }
    assert frame == MaskedFrame(mask, payload);
    out.Write(frame);
    if len < MAX_LENGTH { MaskedOctets(mask, payload); }
  }

  /** The header as both receivers read it. */
  method ReceiveHead(source: Source) returns (h: Option<Head>)
    modifies source
    ensures h == ReadHead(old(source.pending))
    ensures h.Some? ==> h.value.size <= |old(source.pending)| && source.pending == old(source.pending)[h.value.size..]
  {
    ghost var s := source.pending;
    var ok, hdr := source.RecvExact(2);
    if !ok { return None; }
    var opcode := hdr[0] % 16;
    var masked := hdr[1] >= 128;
    var length: nat := hdr[1] % 128;
    var size := 2;
    if length == 126 {
      var got, ext := source.RecvExact(2);
      if !got { return None; }
      assert ext == s[2..4];
      length := (ext[0] as int) * 256 + ext[1];
      TwoBytes(ext);
      size := 4;
    } else if length == 127 {
      var got, ext := source.RecvExact(8);
      if !got { return None; }
      assert ext == s[2..10];
      length := 0;
      for i := 0 to 8
        invariant length == BeValue(ext[..i])
      {
        assert ext[..i + 1][..i] == ext[..i];
        length := length * 256 + ext[i];
      }
      assert ext[..8] == ext;
      size := 10;
    }
    return Some(Head(opcode, masked, length, size));
  }

  lemma TwoBytes(s: seq<byte>)
    requires |s| == 2
    ensures BeValue(s) == (s[0] as int) * 256 + s[1]
  {
    assert s[..1][..0] == [] && BeValue(s[..1]) == s[0];
  }

  /** The rest of the frame, unmasked in place. */
  method ReceiveBody(source: Source, h: Head) returns (p: Option<seq<byte>>)
    modifies source
    ensures var s := old(source.pending); var key := if h.masked then 4 else 0;
            if |s| < key + h.length then p.None?
            else && source.pending == s[key + h.length..]
                 && p == Some(if h.masked then Masked(s[..4], s[4..4 + h.length]) else s[..h.length])
  {
    ghost var s := source.pending;
    var mask: Mask := [0, 0, 0, 0];
    if h.masked {
      var got, key := source.RecvExact(4);
      if !got { return None; }
      mask := key;
    }
    ghost var t := source.pending;
    var got, body := source.RecvExact(h.length);
    if !got { return None; }
    assert h.masked ==> t[..h.length] == s[4..4 + h.length] && t[h.length..] == s[4 + h.length..];
    if h.masked {
      var payload := new byte[h.length](i requires 0 <= i < |body| => body[i]);
      for i := 0 to h.length
        invariant source.pending == t[h.length..]
        invariant forall k :: 0 <= k < i ==> payload[k] == Masked(mask, body)[k]
        invariant forall k :: i <= k < h.length ==> payload[k] == body[k]
      {
        payload[i] := Xor(payload[i], mask[i % 4]);
      }
      assert payload[..] == Masked(s[..4], s[4..4 + h.length]);
      return Some(payload[..]);
    }
    return Some(body);
  }

  /** The payload of the next frame; nothing at a Close frame, at the end of the stream, or for an empty payload. */
  method ReadWsFrame(source: Source) returns (payload: seq<byte>)
    modifies source
    ensures var s := old(source.pending); var r := ReadFrame(s);
            if r.None? || r.value.0.opcode == CLOSE then payload == []
            else payload == r.value.0.payload && source.pending == r.value.1
    ensures payload != [] ==> |old(source.pending)| >= 2 && old(source.pending)[0] % 16 != CLOSE &&
                              IsFrame(old(source.pending), Frame(old(source.pending)[0] % 16, payload), source.pending)
  {
    hide IsFrame, Masked;
    ghost var s := source.pending;
    var h := ReceiveHead(source);
    if h.None? || h.value.opcode == CLOSE { return []; }
    var p := ReceiveBody(source, h.value);
    BodyIsFrame(s, h.value);
    if p.None? { return []; }
    HeadIsAtFront(s);
    ReadsTheFrame(s, Frame(h.value.opcode, p.value), source.pending);
    return p.value;
  }

  lemma NoHeadNoFrame(s: seq<byte>)
    ensures ReadHead(s).None? ==> ReadFrame(s).None?
  {
  }

  /** Header and body together are the frame. */
  lemma BodyIsFrame(s: seq<byte>, h: Head)
    requires ReadHead(s) == Some(h)
    ensures var t := s[h.size..]; var key := if h.masked then 4 else 0;
            ReadFrame(s) == if |t| < key + h.length then None
                            else Some((Frame(h.opcode, if h.masked then Masked(t[..4], t[4..4 + h.length]) else t[..h.length]),
                                       t[key + h.length..]))
  {
    hide ReadHead, Masked;
    var t := s[h.size..]; var key := if h.masked then 4 else 0;
    if |t| >= key + h.length {
      assert t[key..key + h.length] == s[h.size + key..h.size + key + h.length];
      assert t[key + h.length..] == s[h.size + key + h.length..];
      assert h.masked ==> t[..4] == s[h.size..h.size + 4];
    }
  }

  // ---- cdp_recv -----------------------------------------------------------------------------------------------

  /** The answer to a Ping; the length is written as one octet, whatever it is. */
  function PongFrame(p: seq<byte>): seq<byte> { [0x80 + PONG, |p| % 256] + p }

  /** What a receiver of messages makes of a stream: the payload, the Pongs sent on the way, what is left. */
  function Receive(s: seq<byte>): (seq<byte>, seq<seq<byte>>, seq<byte>)
    decreases |s|
  {
    match ReadFrame(s)
    case None => ([], [], [])
    case Some((frame, rest)) =>
      if frame.opcode == CLOSE then ([], [], rest)
      else if frame.opcode == PING then
        var (payload, pongs, left) := Receive(rest);
        (payload, [PongFrame(frame.payload)] + pongs, left)
      else (frame.payload, [], rest)
  }

  /** One round of that. */
  lemma ReceiveStep(s: seq<byte>)
    ensures ReadFrame(s).None? ==> Receive(s) == ([], [], [])
    ensures ReadFrame(s).Some? ==>
              var (frame, rest) := ReadFrame(s).value;
              && (frame.opcode == CLOSE ==> Receive(s) == ([], [], rest))
              && (frame.opcode == PING ==>
                    && Receive(s).0 == Receive(rest).0 && Receive(s).2 == Receive(rest).2
                    && Receive(s).1 == [PongFrame(frame.payload)] + Receive(rest).1)
              && (frame.opcode != CLOSE && frame.opcode != PING ==> Receive(s) == (frame.payload, [], rest))
  {
    hide ReadFrame;
  }

  method CdpRecv(source: Source, out: Outbox) returns (payload: seq<byte>)
    modifies source, out
    ensures payload == Receive(old(source.pending)).0
    ensures out.calls == old(out.calls) + Receive(old(source.pending)).1
    ensures payload != [] ==> source.pending == Receive(old(source.pending)).2
  {
    hide Receive, ReadFrame, ReadHead, Masked;
    ghost var s0 := source.pending;
    ghost var pongs: seq<seq<byte>> := [];
    while true
      invariant out.calls == old(out.calls) + pongs
      invariant Receive(s0).0 == Receive(source.pending).0 && Receive(s0).2 == Receive(source.pending).2
      invariant Receive(s0).1 == pongs + Receive(source.pending).1
      decreases |source.pending|
    {
      ghost var s := source.pending;
      ReceiveStep(s);
      var h := ReceiveHead(source);
      NoHeadNoFrame(s);
      if h.None? { return []; }
      var p := ReceiveBody(source, h.value);
      BodyIsFrame(s, h.value);
      if p.None? { return []; }
      if h.value.opcode == CLOSE { return []; }
      if h.value.opcode != PING { return p.value; }
      out.Write([0x80 + PONG] + [|p.value| % 256] + p.value);
      assert [0x80 + PONG] + [|p.value| % 256] + p.value == PongFrame(p.value);
      assert pongs + ([PongFrame(p.value)] + Receive(source.pending).1) ==
             pongs + [PongFrame(p.value)] + Receive(source.pending).1;
      pongs := pongs + [PongFrame(p.value)];
    }
  }

  /** A frame as any conforming server may send it: with any length form and any key. */
  ghost predicate Carries(wire: seq<byte>, f: Frame) {
    forall rest :: ReadFrame(wire + rest) == Some((f, rest))
  }

  function Concat(wires: seq<seq<byte>>): seq<byte> {
    if wires == [] then [] else wires[0] + Concat(wires[1..])
  }

  function Pongs(pings: seq<seq<byte>>): seq<seq<byte>> {
    if pings == [] then [] else [PongFrame(pings[0])] + Pongs(pings[1..])
  }

  /** The first message after any number of Pings is returned, and each Ping is answered once, in order. */
  lemma {:induction false} AnswersPings(wires: seq<seq<byte>>, pings: seq<seq<byte>>, wire: seq<byte>, f: Frame,
                                        rest: seq<byte>)
    requires |wires| == |pings| && forall k :: 0 <= k < |wires| ==> Carries(wires[k], Frame(PING, pings[k]))
    requires Carries(wire, f) && f.opcode != PING && f.opcode != CLOSE
    ensures Receive(Concat(wires) + (wire + rest)) == (f.payload, Pongs(pings), rest)
    decreases |wires|
  {
    hide ReadFrame, Receive;
    ReceiveStep(Concat(wires) + (wire + rest));
    if wires == [] {
      assert Concat(wires) + (wire + rest) == wire + rest;
      assert ReadFrame(wire + rest) == Some((f, rest));
    } else {
      var later := Concat(wires[1..]) + (wire + rest);
      assert Concat(wires) + (wire + rest) == wires[0] + later;
      assert ReadFrame(wires[0] + later) == Some((Frame(PING, pings[0]), later));
      assert forall k :: 0 <= k < |wires[1..]| ==> wires[1..][k] == wires[k + 1];
      AnswersPings(wires[1..], pings[1..], wire, f, rest);
    }
  }

  /** The Pong is what RFC 6455 asks for if and only if the Ping's payload keeps to the 125 octets it allows. */
  lemma PongIsValid(p: seq<byte>)
    requires |p| < MAX_LENGTH
    ensures Carries(PongFrame(p), Frame(PONG, p)) <==> |p| <= 125
  {
    if |p| <= 125 {
      forall rest ensures ReadFrame(PongFrame(p) + rest) == Some((Frame(PONG, p), rest)) {
        var s := PongFrame(p) + rest;
        assert s == [0x8A, |p|] + (p + rest);
        Window([0x8A, |p|], p, rest);
      }
    } else if Carries(PongFrame(p), Frame(PONG, p)) {
      var s := PongFrame(p) + [];
      assert ReadFrame(s) == Some((Frame(PONG, p), []));
      FrameSize(s);
    }
  }

  /** The size of a frame that takes up the whole stream. */
  lemma FrameSize(s: seq<byte>)
    requires ReadFrame(s).Some? && ReadFrame(s).value.1 == []
    ensures var h := ReadHead(s).value;
            && ReadHead(s).Some? && |ReadFrame(s).value.0.payload| == h.length
            && |s| == h.size + (if h.masked then 4 else 0) + h.length
  {
  }

  lemma PlainCarries(p: seq<byte>)
    requires |p| < MAX_LENGTH
    ensures Carries(PlainFrame(p), Frame(TEXT, p))
  {
    forall rest ensures ReadFrame(PlainFrame(p) + rest) == Some((Frame(TEXT, p), rest)) { PlainRoundTrip(p, rest); }
  }

  lemma MaskedCarries(mask: Mask, p: seq<byte>)
    requires |p| < MAX_LENGTH
    ensures Carries(MaskedFrame(mask, p), Frame(TEXT, p))
  {
    forall rest ensures ReadFrame(MaskedFrame(mask, p) + rest) == Some((Frame(TEXT, p), rest)) {
      MaskedRoundTrip(mask, p, rest);
    }
  }

  // ---- streams of messages --------------------------------------------------------------------------------------

  /** The payloads that repeated reading finds before it gets nothing. */
  function Payloads(s: seq<byte>): seq<seq<byte>>
    decreases |s|
  {
    match ReadFrame(s)
    case None => []
    case Some((frame, rest)) =>
      if frame.opcode == CLOSE || frame.payload == [] then [] else [frame.payload] + Payloads(rest)
  }

  method ReadAllFrames(source: Source) returns (payloads: seq<seq<byte>>)
    modifies source
    ensures payloads == Payloads(old(source.pending))
  {
    payloads := [];
    while true
      invariant Payloads(old(source.pending)) == payloads + Payloads(source.pending)
      decreases |source.pending|
    {
      ghost var s := source.pending;
      var p := ReadWsFrame(source);
      if p == [] { return; }
      payloads := payloads + [p];
    }
  }

  lemma NoFrame()
    ensures ReadFrame([]).None?
  {
  }

  /** Any sequence of non-empty messages arrives as it was sent, whatever key masks each of them. */
  lemma {:induction false} MessagesArrive(messages: seq<seq<byte>>, wires: seq<seq<byte>>)
    requires |messages| == |wires|
    requires forall k :: 0 <= k < |wires| ==> messages[k] != [] && Carries(wires[k], Frame(TEXT, messages[k]))
    ensures Payloads(Concat(wires)) == messages
    decreases |wires|
  {
    hide ReadFrame;
    if wires == [] {
      NoFrame();
    } else {
      var later := Concat(wires[1..]);
      assert ReadFrame(wires[0] + later) == Some((Frame(TEXT, messages[0]), later));
      assert forall k :: 0 <= k < |wires[1..]| ==> wires[1..][k] == wires[k + 1];
      MessagesArrive(messages[1..], wires[1..]);
    }
  }

  function PlainFrames(messages: seq<seq<byte>>): (wires: seq<seq<byte>>)
    ensures |wires| == |messages| && forall k :: 0 <= k < |wires| ==> wires[k] == PlainFrame(messages[k])
  {
    seq(|messages|, k requires 0 <= k < |messages| => PlainFrame(messages[k]))
  }

  function MaskedFrames(masks: seq<Mask>, messages: seq<seq<byte>>): (wires: seq<seq<byte>>)
    requires |masks| == |messages|
    ensures |wires| == |messages| && forall k :: 0 <= k < |wires| ==> wires[k] == MaskedFrame(masks[k], messages[k])
  {
    seq(|messages|, k requires 0 <= k < |messages| => MaskedFrame(masks[k], messages[k]))
  }

  /** In both directions, whatever the keys and whatever the lengths: what is read is what was sent. */
  lemma MessagesRoundTrip(masks: seq<Mask>, messages: seq<seq<byte>>)
    requires |masks| == |messages|
    requires forall k :: 0 <= k < |messages| ==> messages[k] != [] && |messages[k]| < MAX_LENGTH
    ensures Payloads(Concat(MaskedFrames(masks, messages))) == messages
    ensures Payloads(Concat(PlainFrames(messages))) == messages
  {
    hide Payloads, Concat, Carries, PlainFrame, MaskedFrame;
    forall k | 0 <= k < |messages|
      ensures Carries(MaskedFrames(masks, messages)[k], Frame(TEXT, messages[k]))
      ensures Carries(PlainFrames(messages)[k], Frame(TEXT, messages[k]))
    {
      MaskedCarries(masks[k], messages[k]);
      PlainCarries(messages[k]);
    }
    MessagesArrive(messages, MaskedFrames(masks, messages));
    MessagesArrive(messages, PlainFrames(messages));
  }
}
