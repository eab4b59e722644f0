/** What the server does with the frames it receives keeps the invariant. */
module TunnelReceiveSteps {
  import opened Results
  import opened Bytes
  import opened TunnelCodec
  import opened TunnelTables
  import opened TunnelSystem
  import opened TunnelSafety
  import opened TunnelSteps
  import opened TunnelHandlerSteps
  import TunnelServerSteps

  // ---- the first frame of a queue -------------------------------------------------------------------------

  /** The view after the server has taken its next frame and moved its receiver for that session. */
  lemma TakenView(k: Conn, r: Receiver, y: Sid)
    requires k.toServer != [] && !k.receiver.Forwarding?
    ensures var m := k.toServer[0]; var v := ViewOf(k, y); var w := ViewOf(k.(toServer := k.toServer[1..], receiver := r), y);
            && v.outbox == (if About(m, y) then [m] else []) + w.outbox
            && v.receiver == Listening
            && w == v.(outbox := w.outbox, receiver := if ReceiverMentions(r, y) then r else Listening)
  {
  }

  lemma TakenOnly(k: Conn, r: Receiver, sid: Sid)
    requires k.toServer != [] && !k.receiver.Forwarding?
    requires k.toServer[0].Control? || k.toServer[0].sid == sid
    requires r.Forwarding? ==> r.sid == sid
    ensures ConnOnly(k, k.(toServer := k.toServer[1..], receiver := r), sid)
  {
    hide ViewOf;
    forall y | y != sid ensures Aged(ViewOf(k, y), ViewOf(k.(toServer := k.toServer[1..], receiver := r), y)) {
      TakenView(k, r, y);
    }
  }

  /** A step that takes a frame about sid off c and changes sid. */
  lemma Takes(s: State, sid: Sid, f: Flow, table: Sessions, waiting: set<Sid>, c: ConnId, r: Receiver, w: View)
    requires Inv(s) && Fit(s, sid, f, table, waiting) == true && c in s.conns
    requires s.conns[c].toServer != [] && About(s.conns[c].toServer[0], sid) && !s.conns[c].receiver.Forwarding?
    requires r.Forwarding? ==> r.sid == sid
    requires w == ViewOf(s.conns[c].(toServer := s.conns[c].toServer[1..], receiver := r), sid)
    requires Pair(NewContext(s, sid, f, table, waiting), c, w)
    requires forall d :: d in s.conns && d != c ==> Pair(NewContext(s, sid, f, table, waiting), d, ViewOf(s.conns[d], sid))
    ensures Inv(AfterConn(s, sid, f, table, waiting, c, s.conns[c].(toServer := s.conns[c].toServer[1..], receiver := r)))
  {
    hide Single, Related, ViewOf, NewContext, SameElsewhere, Reaches;
    TakenOnly(s.conns[c], r, sid);
    ConnStep(s, sid, f, table, waiting, c, s.conns[c].(toServer := s.conns[c].toServer[1..], receiver := r));
  }

  // ---- local steps --------------------------------------------------------------------------------------------

  /** An OPEN_ACK or CLOSE frame leaves the queue. */
  lemma PlainTaken(x: Context, c: ConnId, v: View, m: Msg, rest: seq<Msg>)
    requires Pair(x, c, v) && v.outbox == [m] + rest && !m.DataMsg?
    ensures Pair(x, c, v.(outbox := rest))
  {
    hide From, NoOpen, Split, Delivered;
    assert Payload(v.outbox) == Payload(rest) by { assert v.outbox[1..] == rest; }
    RestOf(m, rest);
  }

  lemma RestOf(m: Msg, rest: seq<Msg>)
    ensures NoAck([m] + rest) ==> NoAck(rest)
    ensures NoDataIn([m] + rest) ==> NoDataIn(rest) && !m.DataMsg?
  {
    assert ([m] + rest)[0] == m;
    assert forall i :: 0 <= i < |rest| ==> ([m] + rest)[i + 1] == rest[i];
  }

  /** A waiter whose OPEN_ACK has come. */
  lemma Resolved(x: Context, d: ConnId, v: View)
    requires Pair(x, d, v) && Solo(x) && x.flow.acked && x.flow.promise == Unresolved && x.pending
    ensures Pair(x.(flow := x.flow.(promise := Success), pending := false), d, v)
    ensures Solo(x.(flow := x.flow.(promise := Success), pending := false))
  {
    hide From, Split, Delivered, Payload;
  }

  lemma AckSeen(x: Context, c: ConnId, v: View)
    requires Pair(x, c, v) && v.outbox != [] && v.outbox[0].OpenAckMsg?
    ensures x.flow.acked
  {
    hide From, Split, Delivered, Payload;
  }

  lemma OpenAckKeeps(s: State, c: ConnId, sid: Sid)
    requires Inv(s) && c in s.conns && s.conns[c].receiver == Listening && s.conns[c].toServer != []
    requires s.conns[c].toServer[0] == OpenAckMsg(sid)
    requires sid in s.flows && sid in s.pending && s.flows[sid].promise == Unresolved
    ensures Inv(AfterConn(s, sid, s.flows[sid].(promise := Success), s.sessions, s.pending - {sid}, c,
                          s.conns[c].(toServer := s.conns[c].toServer[1..], receiver := Listening)))
  {
    hide Holds, Single, Related, ViewOf;
    Here(s, sid);
    Views(s, sid);
    var x, f := ContextOf(s, sid), s.flows[sid].(promise := Success);
    TakenView(s.conns[c], Listening, sid);
    var v, w := ViewOf(s.conns[c], sid), ViewOf(s.conns[c].(toServer := s.conns[c].toServer[1..], receiver := Listening), sid);
    AckSeen(x, c, v);
    PlainTaken(x, c, v, OpenAckMsg(sid), w.outbox);
    Resolved(x, c, w);
    forall d | d in s.conns && d != c ensures Pair(x.(flow := f, pending := false), d, ViewOf(s.conns[d], sid)) {
      Resolved(x, d, ViewOf(s.conns[d], sid));
    }
    Takes(s, sid, f, s.sessions, s.pending - {sid}, c, Listening, w);
  }

  lemma PlainKeeps(s: State, c: ConnId, sid: Sid)
    requires Inv(s) && c in s.conns && s.conns[c].receiver == Listening && s.conns[c].toServer != []
    requires About(s.conns[c].toServer[0], sid) && !s.conns[c].toServer[0].DataMsg? && sid in s.flows
    ensures Inv(s.(conns := s.conns[c := s.conns[c].(toServer := s.conns[c].toServer[1..])]))
  {
    hide Holds, Single, Related, ViewOf;
    Here(s, sid);
    Views(s, sid);
    var x := ContextOf(s, sid);
    SameFlow(s, sid, s.sessions, c, s.conns[c].(toServer := s.conns[c].toServer[1..], receiver := Listening));
    TakenView(s.conns[c], Listening, sid);
    var v, w := ViewOf(s.conns[c], sid), ViewOf(s.conns[c].(toServer := s.conns[c].toServer[1..], receiver := Listening), sid);
    PlainTaken(x, c, v, s.conns[c].toServer[0], w.outbox);
    Takes(s, sid, s.flows[sid], s.sessions, s.pending, c, Listening, w);
  }

  // ---- DATA frames ----------------------------------------------------------------------------------------------

  /** Octets go from the front of the queue into the receiver's hand. */
  lemma TakeUp(dropped: seq<Octet>, w: seq<Octet>, p: seq<Octet>, q: seq<Octet>, k: seq<Octet>, r: seq<Octet>)
    requires Split(dropped, w, [], p + q, k, r)
    ensures Split(dropped, w, p, q, k, r)
  {
    assert dropped + w + [] == dropped + w;
    Associate(dropped + w, p, q);
  }

  /** Octets go from the front of the queue to the dropped ones, nothing having been written yet. */
  lemma Drop(dropped: seq<Octet>, p: seq<Octet>, q: seq<Octet>, k: seq<Octet>, r: seq<Octet>)
    requires Split(dropped, [], [], p + q, k, r)
    ensures Split(dropped + p, [], [], q, k, r)
  {
    assert dropped + [] + [] == dropped && dropped + p + [] + [] == dropped + p;
    Associate(dropped, p, q);
  }

  /** Octets go from the receiver's hand to the client. */
  lemma WriteOut(dropped: seq<Octet>, w: seq<Octet>, h: seq<Octet>, q: seq<Octet>, k: seq<Octet>, r: seq<Octet>, n: nat)
    requires Split(dropped, w, h, q, k, r) && n <= |h|
    ensures Split(dropped, w + h[..n], h[n..], q, k, r)
  {
    assert h == h[..n] + h[n..];
    Associate(dropped, w, h[..n]);
    Associate(dropped + w, h[..n], h[n..]);
  }

  lemma DataTaken(x: Context, c: ConnId, v: View, p: seq<Octet>, rest: seq<Msg>)
    requires Pair(x, c, v) && v.outbox == [DataMsg(x.sid, p)] + rest && v.receiver == Listening && x.flow.fdSet
    ensures Pair(x, c, v.(outbox := rest, receiver := Forwarding(x.sid, x.sid, p)))
  {
    hide From, NoOpen, Split, Delivered;
    var f := x.flow;
    assert v.outbox[1..] == rest;
    RestOf(DataMsg(x.sid, p), rest);
    FromConcat(p, Payload(rest), Target(x.sid));
    if f.home == Some(c) && !f.skipped {
      TakeUp(f.dropped, f.clientWritten, p, Payload(rest), ReaderData(f), f.targetRead);
    }
  }

  lemma DataDropped(x: Context, c: ConnId, v: View, p: seq<Octet>, rest: seq<Msg>)
    requires Pair(x, c, v) && Solo(x) && v.outbox == [DataMsg(x.sid, p)] + rest && v.receiver == Listening && !x.flow.fdSet
    ensures Pair(x.(flow := x.flow.(dropped := x.flow.dropped + p)), c, v.(outbox := rest))
    ensures x.flow.skipped || x.flow.home == Some(c)
  {
    hide From, NoOpen, Split, Delivered;
    var f := x.flow;
    assert v.outbox[1..] == rest;
    RestOf(DataMsg(x.sid, p), rest);
    FromConcat(p, Payload(rest), Target(x.sid));
    if f.home == Some(c) && !f.skipped {
      Drop(f.dropped, p, Payload(rest), ReaderData(f), f.targetRead);
    }
  }

  /** Dropping is recorded only for sessions that have a home. */
  lemma DroppedSolo(x: Context, p: seq<Octet>)
    requires Solo(x) && x.flow.home.Some?
    ensures Solo(x.(flow := x.flow.(dropped := x.flow.dropped + p)))
  {
    hide From;
  }

  lemma DroppedElsewhere(x: Context, d: ConnId, v: View, p: seq<Octet>)
    requires Pair(x, d, v) && (x.flow.skipped || x.flow.home != Some(d))
    ensures Pair(x.(flow := x.flow.(dropped := x.flow.dropped + p)), d, v)
  {
    hide From, NoOpen, NoAck, Split, Delivered, Payload;
  }

  /** Octets are lost because the session is gone from the table. */
  lemma DataSkipped(x: Context, c: ConnId, v: View, p: seq<Octet>, rest: seq<Msg>)
    requires Pair(x, c, v) && v.outbox == [DataMsg(x.sid, p)] + rest && x.entry.None?
    ensures Pair(x.(flow := x.flow.(skipped := true)), c, v.(outbox := rest))
  {
    hide From, NoOpen, Split, Delivered;
    assert v.outbox[1..] == rest;
    RestOf(DataMsg(x.sid, p), rest);
    FromConcat(p, Payload(rest), Target(x.sid));
  }

  lemma SkippedElsewhere(x: Context, d: ConnId, v: View)
    requires Pair(x, d, v) && x.entry.None?
    ensures Pair(x.(flow := x.flow.(skipped := true)), d, v)
  {
    hide From, NoOpen, NoAck, Split, Delivered, Payload;
  }

  lemma SkippedSolo(x: Context)
    requires Solo(x) && x.flow.home.Some?
    ensures Solo(x.(flow := x.flow.(skipped := true)))
  {
    hide From;
  }

  /** A session with a frame under way has a home. */
  lemma DataHasHome(x: Context, c: ConnId, v: View)
    requires Solo(x) && Pair(x, c, v) && v.outbox != [] && v.outbox[0].DataMsg?
    ensures x.flow.home.Some?
  {
    hide From, Split, Delivered, Payload;
  }

  lemma DataForwardKeeps(s: State, c: ConnId, sid: Sid, p: seq<Octet>, fd: Socket)
    requires Inv(s) && c in s.conns && s.conns[c].receiver == Listening && s.conns[c].toServer != []
    requires s.conns[c].toServer[0] == DataMsg(sid, p) && sid in s.flows && ExternalOf(s.sessions, sid) == Some(fd)
    ensures Inv(AfterConn(s, sid, s.flows[sid], s.sessions, s.pending, c,
                          s.conns[c].(toServer := s.conns[c].toServer[1..], receiver := Forwarding(fd, sid, p))))
  {
    hide Holds, Related, ViewOf;
    Here(s, sid);
    Views(s, sid);
    var x, r := ContextOf(s, sid), Forwarding(sid, sid, p);
    assert fd == sid;
    TakenView(s.conns[c], r, sid);
    var v, w := ViewOf(s.conns[c], sid), ViewOf(s.conns[c].(toServer := s.conns[c].toServer[1..], receiver := r), sid);
    DataTaken(x, c, v, p, w.outbox);
    Takes(s, sid, s.flows[sid], s.sessions, s.pending, c, r, w);
  }

  lemma DataDropKeeps(s: State, c: ConnId, sid: Sid, p: seq<Octet>)
    requires Inv(s) && c in s.conns && s.conns[c].receiver == Listening && s.conns[c].toServer != []
    requires s.conns[c].toServer[0] == DataMsg(sid, p) && sid in s.flows && sid in s.sessions && s.sessions[sid].external.None?
    ensures Inv(AfterConn(s, sid, s.flows[sid].(dropped := s.flows[sid].dropped + p), s.sessions, s.pending, c,
                          s.conns[c].(toServer := s.conns[c].toServer[1..], receiver := Listening)))
  {
    hide Holds, Related, ViewOf;
    Here(s, sid);
    Views(s, sid);
    var x, f := ContextOf(s, sid), s.flows[sid].(dropped := s.flows[sid].dropped + p);
    TakenView(s.conns[c], Listening, sid);
    var v, w := ViewOf(s.conns[c], sid), ViewOf(s.conns[c].(toServer := s.conns[c].toServer[1..], receiver := Listening), sid);
    DataHasHome(x, c, v);
    DroppedSolo(x, p);
    DataDropped(x, c, v, p, w.outbox);
    forall d | d in s.conns && d != c ensures Pair(x.(flow := f), d, ViewOf(s.conns[d], sid)) {
      DroppedElsewhere(x, d, ViewOf(s.conns[d], sid), p);
    }
    Takes(s, sid, f, s.sessions, s.pending, c, Listening, w);
  }

  lemma DataSkipKeeps(s: State, c: ConnId, sid: Sid, p: seq<Octet>)
    requires Inv(s) && c in s.conns && s.conns[c].receiver == Listening && s.conns[c].toServer != []
    requires s.conns[c].toServer[0] == DataMsg(sid, p) && sid in s.flows && sid !in s.sessions
    ensures Inv(AfterConn(s, sid, s.flows[sid].(skipped := true), s.sessions, s.pending, c,
                          s.conns[c].(toServer := s.conns[c].toServer[1..], receiver := Listening)))
  {
    hide Holds, Related, ViewOf, Single;
    Here(s, sid);
    Views(s, sid);
    var x, f := ContextOf(s, sid), s.flows[sid].(skipped := true);
    TakenView(s.conns[c], Listening, sid);
    var v, w := ViewOf(s.conns[c], sid), ViewOf(s.conns[c].(toServer := s.conns[c].toServer[1..], receiver := Listening), sid);
    DataHasHome(x, c, v);
    SkippedSolo(x);
    DataSkipped(x, c, v, p, w.outbox);
    forall d | d in s.conns && d != c ensures Pair(x.(flow := f), d, ViewOf(s.conns[d], sid)) {
      SkippedElsewhere(x, d, ViewOf(s.conns[d], sid));
    }
    Takes(s, sid, f, s.sessions, s.pending, c, Listening, w);
  }

  // ---- CLOSE, and frames that say nothing about a session -------------------------------------------------------

  lemma EntryErased(x: Context, d: ConnId, v: View)
    requires Pair(x, d, v)
    ensures Pair(x.(entry := None), d, v)
  {
    TunnelServerSteps.ReroutedPair(x, x.(entry := None), d, v, v);
  }

  lemma CloseKeeps(s: State, c: ConnId, sid: Sid)
    requires Inv(s) && c in s.conns && s.conns[c].receiver == Listening && s.conns[c].toServer != []
    requires s.conns[c].toServer[0] == CloseMsg(sid) && sid in s.flows
    ensures Inv(s.(conns := s.conns[c := s.conns[c].(toServer := s.conns[c].toServer[1..])],
                   sessions := Erase(s.sessions, sid)))
  {
    hide Holds, Related, ViewOf, Single;
    SameFlow(s, sid, Erase(s.sessions, sid), c, s.conns[c].(toServer := s.conns[c].toServer[1..], receiver := Listening));
    Here(s, sid);
    Views(s, sid);
    var x := ContextOf(s, sid);
    TakenView(s.conns[c], Listening, sid);
    var v, w := ViewOf(s.conns[c], sid), ViewOf(s.conns[c].(toServer := s.conns[c].toServer[1..], receiver := Listening), sid);
    PlainTaken(x, c, v, CloseMsg(sid), w.outbox);
    EntryErased(x, c, w);
    TunnelServerSteps.ReroutedSolo(x, x.(entry := None));
    forall d | d in s.conns && d != c ensures Pair(x.(entry := None), d, ViewOf(s.conns[d], sid)) {
      EntryErased(x, d, ViewOf(s.conns[d], sid));
    }
    Takes(s, sid, s.flows[sid], Erase(s.sessions, sid), s.pending, c, Listening, w);
  }

  lemma ControlKeeps(s: State, c: ConnId)
    requires Inv(s) && c in s.conns && s.conns[c].receiver == Listening
    requires s.conns[c].toServer != [] && s.conns[c].toServer[0].Control?
    ensures Inv(s.(conns := s.conns[c := s.conns[c].(toServer := s.conns[c].toServer[1..])]))
  {
    hide Holds, ViewOf;
    var k := s.conns[c]; var k' := k.(toServer := k.toServer[1..]);
    forall y ensures Aged(ViewOf(k, y), ViewOf(k', y)) == true {
      assert k' == k.(toServer := k.toServer[1..], receiver := Listening);
      TakenView(k, Listening, y);
    }
    TunnelServerSteps.ConnAges(s, c, k');
  }

  lemma NotSilentIsKnown(s: State, c: ConnId, sid: Sid)
    requires Inv(s) && c in s.conns && !Silent(ViewOf(s.conns[c], sid))
    ensures sid in s.flows
  {
    hide Wired, SoloAt, PairAt, ViewOf, Silent;
    var v := ViewOf(s.conns[c], sid);
    assert sid !in s.flows ==> Silent(v);
  }

  /** Only frames of known sessions are under way. */
  lemma FrameIsKnown(s: State, c: ConnId)
    requires Inv(s) && c in s.conns
    ensures s.conns[c].toServer != [] && !s.conns[c].toServer[0].Control? ==> s.conns[c].toServer[0].sid in s.flows
    ensures s.conns[c].toAgent != [] && !s.conns[c].toAgent[0].Control? ==> s.conns[c].toAgent[0].sid in s.flows
  {
    hide Holds;
    if s.conns[c].toServer != [] && !s.conns[c].toServer[0].Control? {
      NotSilentIsKnown(s, c, s.conns[c].toServer[0].sid);
    }
    if s.conns[c].toAgent != [] && !s.conns[c].toAgent[0].Control? {
      NotSilentIsKnown(s, c, s.conns[c].toAgent[0].sid);
    }
  }

  lemma PendingIsUnresolved(s: State, sid: Sid)
    requires Inv(s) && sid in s.pending
    ensures sid in s.flows && s.flows[sid].promise == Unresolved
  {
    hide Wired, PairAt;
    assert SoloAt(s, sid);
  }

  lemma ServerReceiveKeeps(s: State, s': State, c: ConnId)
    requires Inv(s) && ServerReceive(s, s', c)
    ensures Inv(s')
  {
    hide Holds;
    FrameIsKnown(s, c);
    var k := s.conns[c];
    match k.toServer[0]
    case OpenAckMsg(sid) =>
      if sid in s.pending {
        PendingIsUnresolved(s, sid);
        OpenAckKeeps(s, c, sid);
      } else {
        PlainKeeps(s, c, sid);
      }
    case DataMsg(sid, p) =>
      var fd := ExternalOf(s.sessions, sid);
      if fd.Some? {
        DataForwardKeeps(s, c, sid, p, fd.value);
        SameFlow(s, sid, s.sessions, c, s'.conns[c]);
      } else if sid in s.sessions {
        DataDropKeeps(s, c, sid, p);
      } else {
        DataSkipKeeps(s, c, sid, p);
      }
    case CloseMsg(sid) => CloseKeeps(s, c, sid);
    case OpenMsg(sid) => PlainKeeps(s, c, sid);
    case Control => ControlKeeps(s, c);
  }

  // ---- writing to the client --------------------------------------------------------------------------------------

  lemma ReceiverView(k: Conn, r: Receiver, y: Sid)
    requires k.receiver.Forwarding? && (r.Forwarding? ==> r.sid == k.receiver.sid)
    ensures var v := ViewOf(k, y);
            ViewOf(k.(receiver := r), y) == v.(receiver := if y == k.receiver.sid && r.Forwarding? then r else Listening)
    ensures y != k.receiver.sid ==> ViewOf(k.(receiver := r), y) == ViewOf(k, y)
    ensures y == k.receiver.sid ==> ViewOf(k, y).receiver == k.receiver
  {
  }

  lemma ReceiverOnly(k: Conn, r: Receiver)
    requires k.receiver.Forwarding? && (r.Forwarding? ==> r.sid == k.receiver.sid)
    ensures ConnOnly(k, k.(receiver := r), k.receiver.sid)
  {
    hide ViewOf;
    forall y | y != k.receiver.sid ensures Aged(ViewOf(k, y), ViewOf(k.(receiver := r), y)) { ReceiverView(k, r, y); }
  }

  lemma WrittenPair(x: Context, c: ConnId, v: View, n: nat, r: Receiver)
    requires Pair(x, c, v) && Solo(x) && v.receiver.Forwarding? && v.receiver.sid == x.sid && 0 < n <= |v.receiver.data|
    requires r == if n == |v.receiver.data| then Listening else v.receiver.(data := v.receiver.data[n..])
    ensures var y := x.(flow := x.flow.(clientWritten := x.flow.clientWritten + v.receiver.data[..n]));
            Pair(y, c, v.(receiver := r)) && Solo(y)
    ensures x.flow.skipped || x.flow.home == Some(c)
  {
    hide NoOpen, NoAck, Split, Delivered, Payload, NoDataIn;
    var f := x.flow; var h := v.receiver.data;
    assert h == h[..n] + h[n..];
    FromConcat(h[..n], h[n..], Target(x.sid));
    FromConcat(f.clientWritten, h[..n], Target(x.sid));
    if f.home == Some(c) && !f.skipped {
      WriteOut(f.dropped, f.clientWritten, h, Payload(v.outbox), ReaderData(f), f.targetRead, n);
      assert n == |h| ==> h[n..] == [];
    }
    hide From;
  }

  lemma WrittenElsewhere(x: Context, d: ConnId, v: View, data: seq<Octet>)
    requires Pair(x, d, v) && (x.flow.skipped || x.flow.home != Some(d))
    ensures Pair(x.(flow := x.flow.(clientWritten := x.flow.clientWritten + data)), d, v)
  {
    hide From, NoOpen, NoAck, Split, Delivered, Payload;
  }

  lemma ReceiverKnown(s: State, c: ConnId)
    requires Inv(s) && c in s.conns && s.conns[c].receiver.Forwarding?
    ensures s.conns[c].receiver.sid in s.flows && s.conns[c].receiver.fd == s.conns[c].receiver.sid
  {
    hide Wired, SoloAt, Forward, Reverse, Closed;
    var sid := s.conns[c].receiver.sid;
    NotSilentIsKnown(s, c, sid);
    assert PairAt(s, sid, c);
  }

  lemma WriteClientKeeps(s: State, s': State, c: ConnId, n: nat)
    requires Inv(s) && WriteClient(s, s', c, n)
    ensures Inv(s')
  {
    hide Holds, Related, ViewOf, Single;
    ReceiverKnown(s, c);
    var k := s.conns[c]; var sid := k.receiver.sid; var k' := s'.conns[c]; var f := s'.flows[sid];
    Here(s, sid);
    Views(s, sid);
    var x := ContextOf(s, sid);
    ReceiverView(k, k'.receiver, sid);
    ReceiverOnly(k, k'.receiver);
    WrittenPair(x, c, ViewOf(k, sid), n, k'.receiver);
    forall d | d in s.conns && d != c ensures Pair(x.(flow := f), d, ViewOf(s.conns[d], sid)) {
      WrittenElsewhere(x, d, ViewOf(s.conns[d], sid), k.receiver.data[..n]);
    }
    ConnStep(s, sid, f, s.sessions, s.pending, c, k');
  }

  lemma WriteLost(x: Context, c: ConnId, v: View)
    requires Pair(x, c, v)
    ensures Pair(x.(flow := x.flow.(skipped := true), entry := None), c, v.(receiver := Listening))
    ensures Pair(x.(flow := x.flow.(skipped := true), entry := None), c, v)
  {
    hide NoOpen, NoAck, Split, Delivered, Payload, NoDataIn;
  }

  lemma ReceiverHasHome(x: Context, c: ConnId, v: View)
    requires Solo(x) && Pair(x, c, v) && v.receiver.Forwarding?
    ensures x.flow.home.Some?
  {
    hide From, Split, Delivered, Payload;
  }

  lemma WriteClientFailsKeeps(s: State, s': State, c: ConnId)
    requires Inv(s) && WriteClientFails(s, s', c)
    ensures Inv(s')
  {
    hide Holds, Related, ViewOf, Single;
    ReceiverKnown(s, c);
    var k := s.conns[c]; var sid := k.receiver.sid; var k' := k.(receiver := Listening);
    Here(s, sid);
    Views(s, sid);
    var x, f := ContextOf(s, sid), s.flows[sid].(skipped := true);
    ReceiverView(k, Listening, sid);
    ReceiverOnly(k, Listening);
    ReceiverHasHome(x, c, ViewOf(k, sid));
    SkippedSolo(x);
    TunnelServerSteps.ReroutedSolo(x.(flow := f), x.(flow := f, entry := None));
    forall d | d in s.conns
      ensures Pair(x.(flow := f, entry := None), d, ViewOf(if d == c then k' else s.conns[d], sid))
    {
      WriteLost(x, d, ViewOf(s.conns[d], sid));
    }
    ConnStep(s, sid, f, Erase(s.sessions, sid), s.pending, c, k');
  }

  // ---- stop ---------------------------------------------------------------------------------------------------------

  lemma FailedPair(x: Context, d: ConnId, v: View)
    requires Pair(x, d, v) && x.flow.promise != Success
    ensures Pair(x.(flow := x.flow.(promise := Failed), pending := false), d, v)
  {
    hide From, NoOpen, NoAck, Split, Delivered, Payload, NoDataIn;
  }

  lemma FailedSolo(x: Context)
    requires Solo(x) && x.pending
    ensures Solo(x.(flow := x.flow.(promise := Failed), pending := false)) && x.flow.promise == Unresolved
  {
    hide From;
  }

  lemma StopPendingWires(s: State, s': State)
    requires Wired(s) && Closed(s) && StopPending(s, s')
    ensures Wired(s') && Closed(s')
  {
    hide ViewOf;
  }

  lemma StopPendingKeeps(s: State, s': State)
    requires Inv(s) && StopPending(s, s')
    ensures Inv(s')
  {
    hide Single, Related, ViewOf, Wired, Closed;
    StopPendingWires(s, s');
    forall y | y in s'.flows
      ensures SoloAt(s', y)
      ensures forall d :: d in s'.conns ==> PairAt(s', y, d)
    {
      assert SoloAt(s, y);
      var x := ContextOf(s, y);
      if y in s.pending {
        FailedSolo(x);
        assert ContextOf(s', y) == x.(flow := x.flow.(promise := Failed), pending := false);
      } else {
        assert ContextOf(s', y) == x;
      }
      forall d | d in s'.conns ensures PairAt(s', y, d) {
        assert PairAt(s, y, d);
        if y in s.pending { FailedPair(x, d, ViewOf(s.conns[d], y)); }
      }
    }
  }
}
