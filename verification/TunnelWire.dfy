/**
 * One direction of a tunnel connection: many threads send frames under one lock, each in as many
 * pieces as the kernel likes, and one thread at the far end cuts the octets into frames again.
 */
module TunnelWire {
  import opened Results
  import opened Bytes
  import opened TunnelCodec
  import opened Sockets

  /** The octets of a list of frames sent one after the other. */
  function Stream(fs: seq<Frame>): seq<byte> {
    if fs == [] then [] else Wire(fs[0]) + Stream(fs[1..])
  }

  predicate AllValid(fs: seq<Frame>) { forall i :: 0 <= i < |fs| ==> fs[i].Valid() }

  // ---- the receiving end ------------------------------------------------------------------

  /** What `recv_frame` makes of the octets that are still to come: a frame, or failure. */
  function NextFrame(s: seq<byte>): Option<Frame> {
    if |s| < HEADER_SIZE then None
    else match ParseFrame(s[..HEADER_SIZE], s[HEADER_SIZE..])
      case Err(_) => None
      case Ok(f) => Some(f)
  }

  lemma NextFrameSize(s: seq<byte>)
    requires NextFrame(s).Some?
    ensures var f := NextFrame(s).value; f.Valid() && HEADER_SIZE <= |Wire(f)| <= |s| && s[..|Wire(f)|] == Wire(f)
  {
    var f := NextFrame(s).value;
    SerializeOfParse(s[..HEADER_SIZE], s[HEADER_SIZE..]);
    assert s[..HEADER_SIZE + f.length] == s[..HEADER_SIZE] + s[HEADER_SIZE..][..f.length];
  }

  /** The frames that repeated `recv_frame` calls deliver, and the octets they leave over. */
  function Deframe(s: seq<byte>): (seq<Frame>, seq<byte>)
    decreases |s|
  {
    match NextFrame(s)
    case None => ([], s)
    case Some(f) =>
      NextFrameSize(s);
      var (fs, rest) := Deframe(s[|Wire(f)|..]);
      ([f] + fs, rest)
  }

  /** `recv_frame`: the header, its checks, then exactly the declared number of payload octets. */
  method RecvFrame(source: Source) returns (r: Option<Frame>)
    modifies source
    ensures r == NextFrame(old(source.pending))
    ensures r.Some? ==> |Wire(r.value)| <= |old(source.pending)|
                        && source.pending == old(source.pending)[|Wire(r.value)|..]
  {
    ghost var s := source.pending;
    var ok, header := source.RecvExact(HEADER_SIZE);
    if !ok {
      return None;
    }
    var parsed := ParseHeader(header);
    if parsed.Err? {
      return None;
    }
    var frame := parsed.value;
    if frame.length > 0 {
      var got, payload := source.RecvExact(frame.length);
      if !got {
        return None;
      }
      frame := frame.(payload := payload);
    }
    assert s[HEADER_SIZE..][..frame.length] == frame.payload;
    NextFrameSize(s);
    r := Some(frame);
  }

  /** The receive loop of both nodes: frames in arrival order until `recv_frame` fails. */
  method RecvLoop(source: Source) returns (frames: seq<Frame>)
    modifies source
    ensures frames == Deframe(old(source.pending)).0
  {
    frames := [];
    var next := RecvFrame(source);
    while next.Some?
      invariant next.Some? ==> Deframe(old(source.pending)).0 == frames + [next.value] + Deframe(source.pending).0
      invariant next.None? ==> Deframe(old(source.pending)).0 == frames
      decreases next.Some?, |source.pending|
    {
      frames := frames + [next.value];
      ghost var before := source.pending;
      next := RecvFrame(source);
      if next.Some? {
        NextFrameSize(before);
      }
    }
  }

  /** A thread's locked section: the whole frame goes out, or a proper prefix of it. */
  method SendFrame(sink: Sink, frame: Frame) returns (ok: bool, n: nat)
    modifies sink
    ensures n <= |Wire(frame)| && sink.sent == old(sink.sent) + Wire(frame)[..n]
    ensures ok <==> n == |Wire(frame)|
  {
    var buf := Serialize(frame);
    ok, n := sink.SendAll(buf);
  }

  // ---- cutting a stream into frames inverts joining frames into a stream --------------------

  lemma NextFrameOfWire(f: Frame, rest: seq<byte>)
    requires f.Valid()
    ensures NextFrame(Wire(f) + rest) == Some(f)
  {
    ParseOfSerialize(f, rest);
  }

  /** A proper prefix of a frame never yields a frame. */
  lemma NoFrameInPrefix(f: Frame, n: nat)
    requires f.Valid() && n < |Wire(f)|
    ensures NextFrame(Wire(f)[..n]).None?
  {
    var s := Wire(f)[..n];
    if n >= HEADER_SIZE {
      assert s[..HEADER_SIZE] == Header(f);
      HeaderRoundTrip(f);
    }
  }

  lemma ConsConcat<T>(s: seq<T>, t: seq<T>)
    requires s != []
    ensures [s[0]] + (s[1..] + t) == s + t
  {
  }

  lemma DeframeFirst(s: seq<byte>, f: Frame, tail: seq<byte>)
    requires f.Valid() && s == Wire(f) + tail
    ensures Deframe(s) == ([f] + Deframe(tail).0, Deframe(tail).1)
  {
    NextFrameOfWire(f, tail);
    assert s[|Wire(f)|..] == tail;
  }

  /** The receiver gets exactly the frames that were sent, in order, whatever is still arriving. */
  lemma {:induction false} DeframeOfStream(fs: seq<Frame>, rest: seq<byte>)
    requires AllValid(fs)
    ensures Deframe(Stream(fs) + rest).0 == fs + Deframe(rest).0
    ensures Deframe(Stream(fs) + rest).1 == Deframe(rest).1
  {
    if fs == [] {
      assert Stream(fs) + rest == rest;
    } else {
      var tail := Stream(fs[1..]) + rest;
      DeframeOfStream(fs[1..], rest);
      assert Stream(fs) + rest == Wire(fs[0]) + tail;
      DeframeFirst(Stream(fs) + rest, fs[0], tail);
      ConsConcat(fs, Deframe(rest).0);
    }
  }

  lemma DeframeNext(s: seq<byte>)
    requires NextFrame(s).Some?
    ensures var f := NextFrame(s).value;
            && f.Valid() && 0 < |Wire(f)| <= |s| && s == Wire(f) + s[|Wire(f)|..]
            && Deframe(s) == ([f] + Deframe(s[|Wire(f)|..]).0, Deframe(s[|Wire(f)|..]).1)
  {
    NextFrameSize(s);
    hide Wire, NextFrame;
  }

  lemma StreamCons(f: Frame, fs: seq<Frame>)
    ensures Stream([f] + fs) == Wire(f) + Stream(fs)
    ensures f.Valid() && AllValid(fs) ==> AllValid([f] + fs)
  {
    assert ([f] + fs)[1..] == fs;
  }

  lemma DeframeEnd(s: seq<byte>)
    requires NextFrame(s).None?
    ensures Deframe(s) == ([], s)
  {
  }

  /** Conversely, the octets that came in are the octets of the frames delivered plus the rest. */
  lemma {:induction false} StreamOfDeframe(s: seq<byte>)
    ensures AllValid(Deframe(s).0)
    ensures Stream(Deframe(s).0) + Deframe(s).1 == s
    ensures NextFrame(Deframe(s).1).None?
    decreases |s|
  {
    hide Wire, NextFrame, Deframe;
    if NextFrame(s).None? {
      DeframeEnd(s);
      assert Stream([]) + s == s;
    } else {
      var f := NextFrame(s).value;
      DeframeNext(s);
      var tail := s[|Wire(f)|..];
      StreamOfDeframe(tail);
      StreamCons(f, Deframe(tail).0);
      assert Wire(f) + Stream(Deframe(tail).0) + Deframe(tail).1 == Wire(f) + (Stream(Deframe(tail).0) + Deframe(tail).1);
    }
  }

  lemma {:induction false} StreamAppend(fs: seq<Frame>, f: Frame)
    ensures Stream(fs + [f]) == Stream(fs) + Wire(f)
  {
    if fs != [] {
      assert (fs + [f])[1..] == fs[1..] + [f];
      StreamAppend(fs[1..], f);
    }
  }

  // ---- concurrent senders -------------------------------------------------------------------

  /** A frame whose sender holds the lock and has got n of its octets out. */
  datatype Partial = Partial(frame: Frame, n: nat)

  /**
   * A direction of a connection: the octets accepted so far, the frames completed so far, the
   * lock holder, and whether some sender failed in the middle of a frame.
   */
  datatype Link = Link(sent: seq<byte>, done: seq<Frame>, holder: Option<Partial>, torn: bool)

  const IDLE := Link([], [], None, false)

  ghost predicate Lock(l: Link, l': Link, f: Frame) {
    l.holder.None? && f.Valid() && l' == l.(holder := Some(Partial(f, 0)))
  }

  ghost predicate Push(l: Link, l': Link, k: nat) {
    && l.holder.Some?
    && var p := l.holder.value;
       0 < k && p.n + k <= |Wire(p.frame)|
       && l' == l.(sent := l.sent + Wire(p.frame)[p.n..p.n + k], holder := Some(Partial(p.frame, p.n + k)))
  }

  ghost predicate Unlock(l: Link, l': Link) {
    && l.holder.Some? && l.holder.value.n == |Wire(l.holder.value.frame)|
    && l' == l.(done := l.done + [l.holder.value.frame], holder := None)
  }

  ghost predicate Fail(l: Link, l': Link) {
    && l.holder.Some? && l.holder.value.n < |Wire(l.holder.value.frame)|
    && l' == l.(holder := None, torn := l.torn || l.holder.value.n > 0)
  }

  ghost predicate Next(l: Link, l': Link) {
    || (exists f :: Lock(l, l', f))
    || (exists k :: Push(l, l', k))
    || Unlock(l, l')
    || Fail(l, l')
  }

  ghost predicate Run(t: seq<Link>) {
    && |t| > 0 && t[0] == IDLE
    && forall i :: 0 <= i < |t| - 1 ==> Next(t[i], t[i + 1])
  }

  /** The octets of the lock holder's frame that are already out. */
  function Part(l: Link): seq<byte> {
    match l.holder
    case None => []
    case Some(p) => if p.n <= |Wire(p.frame)| then Wire(p.frame)[..p.n] else []
  }

  ghost predicate Framed(l: Link) {
    && AllValid(l.done)
    && (l.holder.Some? ==> l.holder.value.frame.Valid() && l.holder.value.n <= |Wire(l.holder.value.frame)|)
    && (!l.torn ==> l.sent == Stream(l.done) + Part(l))
  }

  lemma PushKeepsFramed(l: Link, l': Link, k: nat)
    requires Framed(l) && Push(l, l', k)
    ensures Framed(l')
  {
    hide Wire, Stream;
    var p := l.holder.value;
    assert Wire(p.frame)[..p.n + k] == Wire(p.frame)[..p.n] + Wire(p.frame)[p.n..p.n + k];
    assert Stream(l.done) + Wire(p.frame)[..p.n] + Wire(p.frame)[p.n..p.n + k] ==
           Stream(l.done) + (Wire(p.frame)[..p.n] + Wire(p.frame)[p.n..p.n + k]);
  }

  lemma UnlockKeepsFramed(l: Link, l': Link)
    requires Framed(l) && Unlock(l, l')
    ensures Framed(l')
  {
    hide Wire;
    StreamAppend(l.done, l.holder.value.frame);
    assert Part(l) == Wire(l.holder.value.frame);
    assert Stream(l'.done) + [] == Stream(l'.done);
  }

  lemma LockKeepsFramed(l: Link, l': Link)
    requires Framed(l) && ((exists f :: Lock(l, l', f)) || Fail(l, l'))
    ensures Framed(l')
  {
    hide Stream;
    if Fail(l, l') && l.holder.value.n == 0 { assert Part(l) == []; }
  }

  lemma NextKeepsFramed(l: Link, l': Link)
    requires Framed(l) && Next(l, l')
    ensures Framed(l')
  {
    hide Framed, Lock, Push, Unlock, Fail;
    if k :| Push(l, l', k) { PushKeepsFramed(l, l', k); }
    else if Unlock(l, l') { UnlockKeepsFramed(l, l'); }
    else { LockKeepsFramed(l, l'); }
  }

  /** In every run the octets sent are whole frames plus at most a prefix of the holder's frame. */
  lemma {:induction false} RunsAreFramed(t: seq<Link>)
    requires Run(t)
    ensures Framed(t[|t| - 1])
  {
    if |t| > 1 {
      RunsAreFramed(t[..|t| - 1]);
      NextKeepsFramed(t[|t| - 2], t[|t| - 1]);
    }
  }

  /** The holder gives up after some of its octets, but not all of them, have gone out. */
  ghost predicate TornAt(t: seq<Link>, i: nat) {
    && i + 1 < |t| && t[i].holder.Some? && t[i + 1].holder.None?
    && 0 < t[i].holder.value.n < |Wire(t[i].holder.value.frame)|
  }

  /** A link is torn if and only if that has happened. */
  lemma {:induction false} TornExactly(t: seq<Link>)
    requires Run(t)
    ensures t[|t| - 1].torn <==> exists i :: TornAt(t, i)
  {
    hide Framed;
    if |t| > 1 {
      var n := |t| - 2;
      var init := t[..n + 1];
      TornExactly(init);
      assert Next(t[n], t[n + 1]);
      TornStep(t[n], t[n + 1]);
      forall i: nat | i != n ensures TornAt(t, i) <==> TornAt(init, i) {}
      assert TornAt(t, n) <==> t[n].holder.Some? && t[n + 1].holder.None?
                               && 0 < t[n].holder.value.n < |Wire(t[n].holder.value.frame)|;
      assert forall i: nat :: TornAt(init, i) ==> TornAt(t, i);
    }
  }

  lemma TornStep(l: Link, l': Link)
    requires Next(l, l')
    ensures l'.torn <==> l.torn || (l.holder.Some? && l'.holder.None? && 0 < l.holder.value.n < |Wire(l.holder.value.frame)|)
  {
    hide Wire;
    if k :| Push(l, l', k) {
    } else if Unlock(l, l') {
    } else if Fail(l, l') {
    } else {
      var f :| Lock(l, l', f);
    }
  }

  lemma DeframeOfFramed(l: Link)
    requires Framed(l) && !l.torn
    ensures Deframe(l.sent).0 ==
            if l.holder.Some? && l.holder.value.n == |Wire(l.holder.value.frame)|
            then l.done + [l.holder.value.frame] else l.done
  {
    DeframeOfStream(l.done, Part(l));
    if l.holder.Some? {
      var p := l.holder.value;
      if p.n == |Wire(p.frame)| {
        assert Part(l) == Wire(p.frame) + [];
        NextFrameOfWire(p.frame, []);
        assert NextFrame([]).None?;
        assert Wire(p.frame)[|Wire(p.frame)|..] == [];
      } else {
        NoFrameInPrefix(p.frame, p.n);
      }
    }
  }

  /**
   * So at every moment of every run, while no sender has failed inside a frame, the far end can
   * deliver exactly the completed frames, in order; the one frame more it may see is the holder's,
   * once all of its octets are out.
   */
  lemma ReceiverGetsSentFrames(t: seq<Link>)
    requires Run(t) && !t[|t| - 1].torn
    ensures var l := t[|t| - 1];
            Deframe(l.sent).0 ==
            if l.holder.Some? && l.holder.value.n == |Wire(l.holder.value.frame)|
            then l.done + [l.holder.value.frame] else l.done
  {
    hide Framed;
    RunsAreFramed(t);
    DeframeOfFramed(t[|t| - 1]);
  }

  const BEAT := MakeHeartbeat()

  /** A sender fails after four octets of a heartbeat; the next heartbeat goes out whole. */
  function TornTrace(): seq<Link> {
    var w := Wire(BEAT);
    [ IDLE,
      Link([], [], Some(Partial(BEAT, 0)), false),
      Link(w[0..4], [], Some(Partial(BEAT, 4)), false),
      Link(w[0..4], [], None, true),
      Link(w[0..4], [], Some(Partial(BEAT, 0)), true),
      Link(w[0..4] + w, [], Some(Partial(BEAT, 16)), true),
      Link(w[0..4] + w, [BEAT], None, true) ]
  }

  lemma TornTraceIsRun()
    ensures Run(TornTrace())
  {
    var t := TornTrace();
    assert Lock(t[0], t[1], BEAT);
    assert IDLE.sent + Wire(BEAT)[0..4] == Wire(BEAT)[0..4];
    assert Push(t[1], t[2], 4);
    assert Lock(t[3], t[4], BEAT);
    assert Wire(BEAT)[0..16] == Wire(BEAT);
    assert Push(t[4], t[5], 16);
  }

  /** The heartbeat's octets that matter when they are read four places too late. */
  lemma BeatOctets()
    ensures var w := Wire(BEAT);
            |w| == 16 && w[0..4] == Be(MAGIC, 4) && w[0] == 0x54 && w[8..12] == Be(0, 4)
  {
    FieldsOfHeader(BEAT);
    BeOfMagic();
    assert Wire(BEAT) == Header(BEAT);
    assert Wire(BEAT)[0..4][0] == Wire(BEAT)[0];
  }

  lemma TornOctets(s: seq<byte>)
    requires s == Wire(BEAT)[0..4] + Wire(BEAT)
    ensures NextFrame(s).Some? && NextFrame(s).value.kind != HEARTBEAT
  {
    BeatOctets();
    hide Wire, Header, Be;
    var w, head := Wire(BEAT), s[..HEADER_SIZE];
    assert head[0..4] == w[0..4];
    assert head[4] == w[0];
    assert head[12..16] == w[8..12];
    U32OfBe(MAGIC);
    U32OfBe(0);
    assert ParseHeader(head).Ok? && ParseHeader(head).value.kind == 0x54 && ParseHeader(head).value.length == 0;
  }

  /**
   * The proviso is needed: neither node closes the connection when a send fails inside a frame, so
   * if a later send succeeds, the frame it completes is not what the far end reads.
   */
  lemma TornFrameDesynchronizes()
    ensures Run(TornTrace())
    ensures var l := TornTrace()[6];
            l.torn && l.done == [BEAT] && Deframe(l.sent).0 != [] && Deframe(l.sent).0[0].kind != HEARTBEAT
  {
    TornTraceIsRun();
    TornOctets(TornTrace()[6].sent);
  }

  lemma BeOfMagic()
    ensures Be(MAGIC, 4)[0] == 0x54
  {
    assert Be(MAGIC, 4) == Be(0x544E4C, 3) + [0x50];
    assert Be(0x544E4C, 3) == Be(0x544E, 2) + [0x4C];
    assert Be(0x544E, 2) == Be(0x54, 1) + [0x4E];
    assert Be(0x54, 1) == Be(0, 0) + [0x54];
  }
}
