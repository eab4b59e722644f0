/**
 * One direction of a tunnel connection with both its ends: many threads send octets at one end and a
 * receive loop takes frames at the other. To the protocol it is a queue of frames.
 */
module TunnelChannel {
  import opened Results
  import opened Bytes
  import opened TunnelCodec
  import opened TunnelWire
  import opened TunnelSystem

  /** The sending end, and the frames that the receive loop has taken so far. */
  datatype Channel = Channel(link: Link, taken: seq<Frame>)

  /** The octets that are on their way. */
  function Coming(ch: Channel): seq<byte> {
    if |Stream(ch.taken)| <= |ch.link.sent| then ch.link.sent[|Stream(ch.taken)|..] else []
  }

  /** The frames that the receive loop would get if nothing more were sent. */
  function Queue(ch: Channel): seq<Frame> { Deframe(Coming(ch)).0 }

  ghost predicate Sends(ch: Channel, ch': Channel) { ch'.taken == ch.taken && TunnelWire.Next(ch.link, ch'.link) }

  /** `recv_frame` has succeeded. */
  ghost predicate Receives(ch: Channel, ch': Channel) {
    && NextFrame(Coming(ch)).Some?
    && ch' == ch.(taken := ch.taken + [NextFrame(Coming(ch)).value])
  }

  ghost predicate ChannelRun(t: seq<Channel>) {
    && |t| > 0 && t[0] == Channel(IDLE, [])
    && forall i :: 0 <= i < |t| - 1 ==> Sends(t[i], t[i + 1]) || Receives(t[i], t[i + 1])
  }

  /** The frames that have gone out whole: the completed ones, and the holder's once all of it is out. */
  function Whole(l: Link): seq<Frame> {
    l.done + match l.holder case Some(p) => if p.n == |Wire(p.frame)| then [p.frame] else [] case None => []
  }

  // ---- what is kept ---------------------------------------------------------------------------------------------

  /** What has been taken and what is coming make up what was sent, and is made of the frames that went out whole. */
  ghost predicate Consistent(ch: Channel) {
    && Framed(ch.link) && AllValid(ch.taken)
    && (!ch.link.torn ==> Stream(ch.taken) <= ch.link.sent && ch.taken + Queue(ch) == Whole(ch.link))
  }

  /** Once the taken frames are a prefix of the octets, the queue is the rest of what went out whole. */
  lemma QueueIsRest(ch: Channel)
    requires Framed(ch.link) && AllValid(ch.taken) && !ch.link.torn && Stream(ch.taken) <= ch.link.sent
    ensures ch.taken + Queue(ch) == Whole(ch.link)
  {
    hide Framed, Wire, Deframe, Stream;
    DeframeOfFramed(ch.link);
    assert ch.link.done + [] == ch.link.done;
    var n := |Stream(ch.taken)|;
    assert ch.link.sent[..n] == Stream(ch.taken) && ch.link.sent[n..] == Coming(ch);
    assert ch.link.sent == Stream(ch.taken) + Coming(ch);
    DeframeOfStream(ch.taken, Coming(ch));
    assert Deframe(ch.link.sent).0 == Whole(ch.link);
  }

  lemma SendsExtend(l: Link, l': Link)
    requires TunnelWire.Next(l, l')
    ensures l.sent <= l'.sent && (l.torn ==> l'.torn)
  {
    hide Wire, Frame.Valid;
  }

  lemma SendsKeep(ch: Channel, ch': Channel)
    requires Consistent(ch) && Sends(ch, ch')
    ensures Consistent(ch')
  {
    hide TunnelWire.Next, Framed, Queue, Whole, Deframe;
    NextKeepsFramed(ch.link, ch'.link);
    SendsExtend(ch.link, ch'.link);
    if !ch'.link.torn { QueueIsRest(ch'); }
  }

  lemma ReceivesKeep(ch: Channel, ch': Channel)
    requires Consistent(ch) && Receives(ch, ch')
    ensures Consistent(ch')
  {
    hide Framed, Queue, Whole, Deframe, Wire;
    var f := NextFrame(Coming(ch)).value;
    DeframeNext(Coming(ch));
    StreamAppend(ch.taken, f);
    if !ch.link.torn {
      assert ch.link.sent == Stream(ch.taken) + (Wire(f) + Coming(ch)[|Wire(f)|..]);
      assert ch.link.sent == Stream(ch'.taken) + Coming(ch)[|Wire(f)|..];
      QueueIsRest(ch');
    }
  }

  lemma {:induction false} RunsAreConsistent(t: seq<Channel>, n: nat)
    requires ChannelRun(t) && n < |t|
    ensures Consistent(t[n])
  {
    if n == 0 {
      assert t[0].link.sent == [];
    } else {
      RunsAreConsistent(t, n - 1);
      hide Consistent, Sends, Receives;
      assert Sends(t[n - 1], t[n - 1 + 1]) || Receives(t[n - 1], t[n - 1 + 1]);
      if Sends(t[n - 1], t[n]) { SendsKeep(t[n - 1], t[n]); } else { ReceivesKeep(t[n - 1], t[n]); }
    }
  }

  // ---- a queue of frames ------------------------------------------------------------------------------------------

  /** The frame whose last octet a sending step gets out, if any. */
  function Completed(ch: Channel, ch': Channel): (fs: seq<Frame>)
    ensures |fs| <= 1
  {
    match (ch.link.holder, ch'.link.holder)
    case (Some(p), Some(q)) => if p.n < |Wire(p.frame)| && q.n == |Wire(q.frame)| then [q.frame] else []
    case _ => []
  }

  lemma WholeGrows(ch: Channel, ch': Channel)
    requires Sends(ch, ch') && Framed(ch.link)
    ensures Whole(ch'.link) == Whole(ch.link) + Completed(ch, ch')
  {
    hide Wire, Stream, Frame.Valid, Part;
    var l, l' := ch.link, ch'.link;
    assert l.done + [] == l.done && Whole(l) + [] == Whole(l);
    if f :| Lock(l, l', f) { assert |Wire(f)| > 0 by { WireIsLong(f); } }
  }

  lemma WireIsLong(f: Frame)
    ensures |Wire(f)| > 0
  {
  }

  lemma SamePrefix(a: seq<Frame>, p: seq<Frame>, q: seq<Frame>)
    requires a + p == a + q
    ensures p == q
  {
    assert (a + p)[|a|..] == p && (a + q)[|a|..] == q;
  }

  lemma SendingIsEnqueuing(a: Channel, b: Channel)
    requires Consistent(a) && Consistent(b) && Sends(a, b) && !a.link.torn && !b.link.torn
    ensures Queue(b) == Queue(a) + Completed(a, b)
  {
    WholeGrows(a, b);
    hide TunnelWire.Next, Framed, Queue, Whole, Wire, Stream, Completed;
    assert a.taken + Queue(a) + Completed(a, b) == a.taken + (Queue(a) + Completed(a, b));
    SamePrefix(a.taken, Queue(a) + Completed(a, b), Queue(b));
  }

  lemma ReceivingIsDequeuing(a: Channel, b: Channel)
    requires Consistent(a) && Consistent(b) && Receives(a, b) && !a.link.torn
    ensures Queue(a) == [NextFrame(Coming(a)).value] + Queue(b)
  {
    hide Framed, Queue, Whole, Wire, Stream, Coming;
    var f := NextFrame(Coming(a)).value;
    assert a.taken + [f] + Queue(b) == a.taken + ([f] + Queue(b));
    SamePrefix(a.taken, Queue(a), [f] + Queue(b));
  }

  /**
   * While no sender has failed inside a frame, a direction of a connection is a queue: a sending step
   * appends the frame whose last octet it gets out, and changes nothing otherwise; a receiving step
   * takes the first frame.
   */
  lemma ChannelIsQueue(t: seq<Channel>, n: nat)
    requires ChannelRun(t) && n + 1 < |t| && !t[n + 1].link.torn
    ensures !t[n].link.torn
    ensures Sends(t[n], t[n + 1]) ==> Queue(t[n + 1]) == Queue(t[n]) + Completed(t[n], t[n + 1])
    ensures Receives(t[n], t[n + 1]) ==> Queue(t[n]) == [NextFrame(Coming(t[n])).value] + Queue(t[n + 1])
  {
    hide TunnelWire.Next, Consistent, Completed, Queue, Coming;
    RunsAreConsistent(t, n);
    RunsAreConsistent(t, n + 1);
    assert Sends(t[n], t[n + 1]) || Receives(t[n], t[n + 1]);
    if Sends(t[n], t[n + 1]) {
      SendsExtend(t[n].link, t[n + 1].link);
      SendingIsEnqueuing(t[n], t[n + 1]);
    }
    if Receives(t[n], t[n + 1]) { ReceivingIsDequeuing(t[n], t[n + 1]); }
  }

  // ---- the queues of the protocol -----------------------------------------------------------------------------------

  /** The frame that a message of the protocol stands for; the origins of octets are not on the wire. */
  predicate Encodes(m: Msg, f: Frame) {
    match m
    case Control => f.kind in {HELLO, HELLO_ACK, HEARTBEAT, HEARTBEAT_ACK}
    case OpenMsg(sid) => f.kind == OPEN && f.sessionId == sid
    case OpenAckMsg(sid) => f.kind == OPEN_ACK && f.sessionId == sid
    case DataMsg(sid, payload) =>
      f.kind == DATA && f.sessionId == sid && |f.payload| == |payload|
      && forall i :: 0 <= i < |payload| ==> f.payload[i] == payload[i].value
    case CloseMsg(sid) => f.kind == CLOSE && f.sessionId == sid
  }

  /** A queue of the protocol and the frames that the channel would deliver. */
  ghost predicate Carries(ch: Channel, q: seq<Msg>) {
    |q| == |Queue(ch)| && forall i :: 0 <= i < |q| ==> Encodes(q[i], Queue(ch)[i])
  }

  /**
   * Each step of a channel is a step of the protocol's queue: getting out the last octet of a message
   * appends it, receiving one removes the first, and every other step leaves the queue alone.
   */
  lemma ChannelCarriesQueue(t: seq<Channel>, n: nat, q: seq<Msg>, m: Msg)
    requires ChannelRun(t) && n + 1 < |t| && !t[n + 1].link.torn && Carries(t[n], q)
    ensures Sends(t[n], t[n + 1]) ==>
              var frames := Completed(t[n], t[n + 1]);
              && (frames != [] && Encodes(m, frames[0]) ==> Carries(t[n + 1], q + [m]))
              && (frames == [] ==> Carries(t[n + 1], q))
    ensures Receives(t[n], t[n + 1]) ==>
              q != [] && Encodes(q[0], NextFrame(Coming(t[n])).value) && Carries(t[n + 1], q[1..])
  {
    hide ChannelRun, Carries, Queue, Completed, TunnelWire.Next, Coming;
    ChannelIsQueue(t, n);
    if Sends(t[n], t[n + 1]) {
      var frames := Completed(t[n], t[n + 1]);
      if frames == [] { SameQueueCarries(t[n], t[n + 1], q); }
      else if Encodes(m, frames[0]) { CarriesOneMore(t[n], t[n + 1], q, m, frames[0]); }
    }
    if Receives(t[n], t[n + 1]) { CarriesOneLess(t[n], t[n + 1], q, NextFrame(Coming(t[n])).value); }
  }

  lemma SameQueueCarries(ch: Channel, ch': Channel, q: seq<Msg>)
    requires Carries(ch, q) && Queue(ch') == Queue(ch) + []
    ensures Carries(ch', q)
  {
    hide Queue, Encodes;
    assert Queue(ch') == Queue(ch);
  }

  lemma CarriesOneMore(ch: Channel, ch': Channel, q: seq<Msg>, m: Msg, f: Frame)
    requires Carries(ch, q) && Queue(ch') == Queue(ch) + [f] && Encodes(m, f)
    ensures Carries(ch', q + [m])
  {
    hide Queue, Encodes;
  }

  lemma CarriesOneLess(ch: Channel, ch': Channel, q: seq<Msg>, f: Frame)
    requires Carries(ch, q) && Queue(ch) == [f] + Queue(ch')
    ensures q != [] && Encodes(q[0], f) && Carries(ch', q[1..])
  {
    hide Queue, Encodes;
    assert Queue(ch)[0] == f;
    forall i | 0 <= i < |q[1..]| ensures Encodes(q[1..][i], Queue(ch')[i]) { assert Queue(ch)[i + 1] == Queue(ch')[i]; }
  }
}
