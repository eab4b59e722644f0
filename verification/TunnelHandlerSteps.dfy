/** The steps of the server's per-client threads keep the invariant. */
module TunnelHandlerSteps {
  import opened Results
  import opened Bytes
  import opened TunnelCodec
  import opened TunnelTables
  import opened TunnelSystem
  import opened TunnelSafety
  import opened TunnelSteps

  // ---- the thread moves without touching a connection ---------------------------------------------------

  /** The same session with its handler elsewhere and its table entries possibly changed. */
  predicate Moved(x: Context, y: Context) {
    && y == x.(flow := x.flow.(handler := y.flow.handler, lost := y.flow.lost, fdSet := y.flow.fdSet),
               entry := y.entry, pending := y.pending)
    && (x.flow.lost ==> y.flow.lost) && (x.flow.fdSet ==> y.flow.fdSet)
    && (x.flow.skipped && x.entry.None? ==> y.entry.None?)
  }

  /** What the new position demands of a connection. */
  predicate MoveAllowed(x: Context, y: Context, c: ConnId, v: View) {
    && (Via(y.flow.handler, c) ==> v.agent == x.flow.agent && v.registered)
    && (x.flow.home == Some(c) ==>
          && (y.flow.lost || HandlerData(y.flow) == HandlerData(x.flow))
          && (y.flow.lost && !x.flow.lost ==> x.route != Some(c) || !v.fdOpen || v.jammedA)
          && (y.flow.lost && y.flow.handler.Sending? && y.flow.handler.via == c ==>
                !v.fdOpen || v.jammedA || (x.flow.lost && x.route == Some(c))))
  }

  lemma MovedPair(x: Context, y: Context, c: ConnId, v: View)
    requires Pair(x, c, v) && Solo(x) && Moved(x, y) == true && MoveAllowed(x, y, c, v) == true
    ensures Pair(y, c, v)
  {
    hide From, Payload, NoOpen, NoAck, NoDataIn, Split;
    assert Placed(y, c, v) by { hide Forward, Reverse; }
    assert Reverse(y, c, v) by { hide Placed, Forward; }
  }

  lemma HandlerMoves(s: State, sid: Sid, f: Flow, table: Sessions, waiting: set<Sid>)
    requires Inv(s) && Fit(s, sid, f, table, waiting) == true
    requires Moved(ContextOf(s, sid), NewContext(s, sid, f, table, waiting)) == true
    requires forall d :: d in s.conns ==>
               MoveAllowed(ContextOf(s, sid), NewContext(s, sid, f, table, waiting), d, ViewOf(s.conns[d], sid)) == true
    ensures Inv(AfterFlow(s, sid, f, table, waiting))
  {
    hide Single, Related, ViewOf, ContextOf, NewContext, Moved, MoveAllowed;
    var y := NewContext(s, sid, f, table, waiting);
    assert SoloAt(s, sid);
    forall d | d in s.conns ensures Pair(y, d, ViewOf(s.conns[d], sid)) {
      assert PairAt(s, sid, d);
      MovedPair(ContextOf(s, sid), y, d, ViewOf(s.conns[d], sid));
    }
    FlowStep(s, sid, f, table, waiting);
  }

  /** The facts about one session that its own steps start from. */
  lemma Here(s: State, sid: Sid)
    requires Inv(s) && sid in s.flows
    ensures Solo(ContextOf(s, sid)) && Reaches(s, s.flows[sid])
    ensures Route(s, s.flows[sid]).Some? ==>
              var c := Route(s, s.flows[sid]).value;
              c in s.conns && s.conns[c].agent == s.flows[sid].agent && s.conns[c].registered
  {
    hide Single, Related;
    assert SoloAt(s, sid);
  }

  lemma Views(s: State, sid: Sid)
    requires Inv(s) && sid in s.flows
    ensures forall d :: d in s.conns ==> Pair(ContextOf(s, sid), d, ViewOf(s.conns[d], sid))
  {
    hide Related;
    forall d | d in s.conns ensures Pair(ContextOf(s, sid), d, ViewOf(s.conns[d], sid)) { assert PairAt(s, sid, d); }
  }

  lemma ListKeeps(s: State, s': State, sid: Sid)
    requires Inv(s) && List(s, s', sid)
    ensures Inv(s')
  {
    hide Holds;
    Here(s, sid);
    HandlerMoves(s, sid, s'.flows[sid], s'.sessions, s'.pending);
  }

  lemma LookupOpenKeeps(s: State, s': State, sid: Sid)
    requires Inv(s) && LookupOpen(s, s', sid)
    ensures Inv(s')
  {
    hide Holds;
    Here(s, sid);
    HandlerMoves(s, sid, s'.flows[sid], s.sessions, s.pending);
  }

  lemma RegisterPromiseKeeps(s: State, s': State, sid: Sid)
    requires Inv(s) && RegisterPromise(s, s', sid)
    ensures Inv(s')
  {
    hide Holds;
    Here(s, sid);
    HandlerMoves(s, sid, s'.flows[sid], s'.sessions, s'.pending);
  }

  lemma TimeOutKeeps(s: State, s': State, sid: Sid)
    requires Inv(s) && TimeOut(s, s', sid)
    ensures Inv(s')
  {
    hide Holds;
    Here(s, sid);
    HandlerMoves(s, sid, s'.flows[sid], s'.sessions, s'.pending);
  }

  lemma UnpendKeeps(s: State, s': State, sid: Sid)
    requires Inv(s) && Unpend(s, s', sid)
    ensures Inv(s')
  {
    hide Holds;
    Here(s, sid);
    HandlerMoves(s, sid, s'.flows[sid], s'.sessions, s'.pending);
  }

  lemma GiveUpKeeps(s: State, s': State, sid: Sid)
    requires Inv(s) && GiveUp(s, s', sid)
    ensures Inv(s')
  {
    hide Holds;
    Here(s, sid);
    HandlerMoves(s, sid, s'.flows[sid], s'.sessions, s'.pending);
  }

  lemma WakeKeeps(s: State, s': State, sid: Sid)
    requires Inv(s) && Wake(s, s', sid)
    ensures Inv(s')
  {
    hide Holds;
    Here(s, sid);
    HandlerMoves(s, sid, s'.flows[sid], s'.sessions, s'.pending);
  }

  lemma SetFdFound(s: State, sid: Sid)
    requires Inv(s) && sid in s.flows && s.flows[sid].handler == Acked && sid in s.sessions
    ensures Inv(AfterFlow(s, sid, s.flows[sid].(handler := Relaying, fdSet := true),
                          SetExternal(s.sessions, sid, sid), s.pending))
  {
    hide Holds;
    Here(s, sid);
    HandlerMoves(s, sid, s.flows[sid].(handler := Relaying, fdSet := true), SetExternal(s.sessions, sid, sid), s.pending);
  }

  lemma SetFdKeeps(s: State, s': State, sid: Sid)
    requires Inv(s) && SetFd(s, s', sid)
    ensures Inv(s')
  {
    hide Holds;
    if sid in s.sessions {
      SetFdFound(s, sid);
    } else {
      Here(s, sid);
      HandlerMoves(s, sid, s.flows[sid].(handler := Done(false)), s.sessions, s.pending);
    }
  }

  lemma ClientEofKeeps(s: State, s': State, sid: Sid)
    requires Inv(s) && ClientEof(s, s', sid)
    ensures Inv(s')
  {
    hide Holds;
    Here(s, sid);
    HandlerMoves(s, sid, s'.flows[sid], s'.sessions, s'.pending);
  }

  lemma LookupCloseKeeps(s: State, s': State, sid: Sid)
    requires Inv(s) && LookupClose(s, s', sid)
    ensures Inv(s')
  {
    hide Holds;
    Here(s, sid);
    HandlerMoves(s, sid, s'.flows[sid], s'.sessions, s'.pending);
  }

  lemma EraseSessionKeeps(s: State, s': State, sid: Sid)
    requires Inv(s) && EraseSession(s, s', sid)
    ensures Inv(s')
  {
    hide Holds;
    Here(s, sid);
    HandlerMoves(s, sid, s'.flows[sid], s'.sessions, s'.pending);
  }

  lemma CloseClientKeeps(s: State, s': State, sid: Sid)
    requires Inv(s) && CloseClient(s, s', sid)
    ensures Inv(s')
  {
    hide Holds;
    Here(s, sid);
    HandlerMoves(s, sid, s'.flows[sid], s'.sessions, s'.pending);
  }

  lemma LookupDataKeeps(s: State, s': State, sid: Sid)
    requires Inv(s) && LookupData(s, s', sid)
    ensures Inv(s')
  {
    hide Holds;
    Here(s, sid);
    HandlerMoves(s, sid, s'.flows[sid], s'.sessions, s'.pending);
  }

  // ---- the thread sends a frame ---------------------------------------------------------------------------

  lemma PushToAgent(k: Conn, m: Msg, y: Sid)
    ensures ViewOf(k.(toAgent := k.toAgent + [m]), y) ==
            if About(m, y) then ViewOf(k, y).(inbox := ViewOf(k, y).inbox + [m]) else ViewOf(k, y)
  {
    FilterPush(k.toAgent, m, y);
  }

  lemma PushOnly(k: Conn, m: Msg, sid: Sid)
    requires m.Control? || m.sid == sid
    ensures ConnOnly(k, k.(toAgent := k.toAgent + [m]), sid)
  {
    hide ViewOf;
    var k' := k.(toAgent := k.toAgent + [m]);
    forall y | y != sid ensures Aged(ViewOf(k, y), ViewOf(k', y)) {
      PushToAgent(k, m, y);
    }
  }

  lemma HandlerSends(s: State, sid: Sid, f: Flow, c: ConnId, m: Msg)
    requires Inv(s) && Fit(s, sid, f, s.sessions, s.pending) == true && c in s.conns && About(m, sid)
    requires forall d :: d in s.conns && d != c ==>
               Pair(NewContext(s, sid, f, s.sessions, s.pending), d, ViewOf(s.conns[d], sid))
    requires var v := ViewOf(s.conns[c], sid);
             Pair(NewContext(s, sid, f, s.sessions, s.pending), c, v.(inbox := v.inbox + [m]))
    ensures Inv(AfterConn(s, sid, f, s.sessions, s.pending, c, s.conns[c].(toAgent := s.conns[c].toAgent + [m])))
  {
    hide Single, Related, ViewOf, ContextOf, NewContext;
    PushToAgent(s.conns[c], m, sid);
    PushOnly(s.conns[c], m, sid);
    ConnStep(s, sid, f, s.sessions, s.pending, c, s.conns[c].(toAgent := s.conns[c].toAgent + [m]));
  }

  /** Octets leave the handler's hand for the end of the queue. */
  lemma Queue(w: seq<Octet>, a: seq<Octet>, q: seq<Octet>, d: seq<Octet>, r: seq<Octet>, held: bool)
    requires Delivered(w, a, q, d, r, held, false)
    ensures Delivered(w, a, q + d, [], r, held, false)
  {
    Associate(w + a, q, d);
  }

  lemma DataQueued(x: Context, c: ConnId, v: View)
    requires Solo(x) && Pair(x, c, v) && x.flow.handler.Sending? && x.flow.handler.via == c
    requires v.fdOpen && !v.jammedA
    ensures Pair(x.(flow := x.flow.(handler := Relaying)), c, v.(inbox := v.inbox + [DataMsg(x.sid, x.flow.handler.data)]))
  {
    hide From, Payload, NoAck, NoDataIn, Split, Delivered;
    var f := x.flow; var d := f.handler.data;
    PayloadPush(v.inbox, DataMsg(x.sid, d));
    FromConcat(Payload(v.inbox), d, Client(x.sid));
    if f.home == Some(c) {
      Queue(f.targetWritten, AgentHand(v), Payload(v.inbox), d, f.clientRead, v.held.Some?);
    }
  }

  lemma CloseQueued(x: Context, c: ConnId, v: View)
    requires Solo(x) && Pair(x, c, v) && x.flow.handler.SendingClose? && x.flow.handler.via == c
    ensures Pair(x.(flow := x.flow.(handler := CloseSent)), c, v.(inbox := v.inbox + [CloseMsg(x.sid)]))
  {
    hide From, Payload, NoAck, NoDataIn, Split, Delivered;
    PayloadPush(v.inbox, CloseMsg(x.sid));
    assert Payload(v.inbox) + [] == Payload(v.inbox);
  }

  lemma OpenQueued(x: Context, c: ConnId, v: View)
    requires Solo(x) && Pair(x, c, v) && x.flow.handler.SendingOpen? && x.flow.handler.via == c
    ensures Pair(x.(flow := x.flow.(handler := OpenSent, home := Some(c))), c, v.(inbox := v.inbox + [OpenMsg(x.sid)]))
  {
    hide From, NoAck;
    PayloadPush(v.inbox, OpenMsg(x.sid));
    PayloadNone(v.outbox);
  }

  /** For the other connections nothing changes when the session finds its home. */
  lemma OpenElsewhere(x: Context, c: ConnId, d: ConnId, v: View)
    requires Solo(x) && Pair(x, d, v) && x.flow.handler.SendingOpen? && x.flow.handler.via == c && d != c
    ensures Pair(x.(flow := x.flow.(handler := OpenSent, home := Some(c))), d, v)
  {
    hide From, NoAck, Payload;
  }

  lemma SendOpenOut(s: State, sid: Sid, c: ConnId)
    requires Inv(s) && sid in s.flows && s.flows[sid].handler == SendingOpen(c) && c in s.conns
    ensures var k := s.conns[c];
            Inv(AfterConn(s, sid, s.flows[sid].(handler := OpenSent, home := Some(c)), s.sessions, s.pending,
                          c, k.(toAgent := k.toAgent + [OpenMsg(sid)])))
  {
    hide Holds, Related, ViewOf;
    Here(s, sid);
    Views(s, sid);
    var x := ContextOf(s, sid);
    var f := s.flows[sid].(handler := OpenSent, home := Some(c));
    forall d | d in s.conns && d != c ensures Pair(x.(flow := f), d, ViewOf(s.conns[d], sid)) {
      OpenElsewhere(x, c, d, ViewOf(s.conns[d], sid));
    }
    OpenQueued(x, c, ViewOf(s.conns[c], sid));
    HandlerSends(s, sid, f, c, OpenMsg(sid));
  }

  lemma SendDataOut(s: State, sid: Sid, c: ConnId, data: seq<Octet>)
    requires Inv(s) && sid in s.flows && s.flows[sid].handler == Sending(c, data) && c in s.conns
    requires s.conns[c].fdOpen && !s.conns[c].jammedA
    ensures var k := s.conns[c];
            Inv(AfterConn(s, sid, s.flows[sid].(handler := Relaying), s.sessions, s.pending,
                          c, k.(toAgent := k.toAgent + [DataMsg(sid, data)])))
  {
    hide Holds, Related;
    Here(s, sid);
    Views(s, sid);
    var x, f := ContextOf(s, sid), s.flows[sid].(handler := Relaying);
    forall d | d in s.conns && d != c ensures Pair(x.(flow := f), d, ViewOf(s.conns[d], sid)) {
      MovedPair(x, x.(flow := f), d, ViewOf(s.conns[d], sid));
    }
    DataQueued(x, c, ViewOf(s.conns[c], sid));
    HandlerSends(s, sid, f, c, DataMsg(sid, data));
  }

  lemma SendCloseOut(s: State, sid: Sid, c: ConnId)
    requires Inv(s) && sid in s.flows && s.flows[sid].handler == SendingClose(c) && c in s.conns
    ensures var k := s.conns[c];
            Inv(AfterConn(s, sid, s.flows[sid].(handler := CloseSent), s.sessions, s.pending,
                          c, k.(toAgent := k.toAgent + [CloseMsg(sid)])))
  {
    hide Holds, Related, ViewOf;
    Here(s, sid);
    Views(s, sid);
    var x, f := ContextOf(s, sid), s.flows[sid].(handler := CloseSent);
    forall d | d in s.conns && d != c ensures Pair(x.(flow := f), d, ViewOf(s.conns[d], sid)) {
      MovedPair(x, x.(flow := f), d, ViewOf(s.conns[d], sid));
    }
    CloseQueued(x, c, ViewOf(s.conns[c], sid));
    HandlerSends(s, sid, f, c, CloseMsg(sid));
  }

  /** A failed send jams the direction; the thread moves on. */
  lemma HandlerJams(s: State, sid: Sid, f: Flow, table: Sessions, c: ConnId)
    requires Inv(s) && Fit(s, sid, f, table, s.pending) == true && c in s.conns
    requires Moved(ContextOf(s, sid), NewContext(s, sid, f, table, s.pending)) == true
    requires forall d :: d in s.conns ==>
               MoveAllowed(ContextOf(s, sid), NewContext(s, sid, f, table, s.pending), d,
                           ViewOf(s.conns[d], sid).(jammedA := d == c || s.conns[d].jammedA)) == true
    ensures Inv(AfterConn(s, sid, f, table, s.pending, c, s.conns[c].(jammedA := true)))
  {
    hide Holds, Single, Related, ContextOf, NewContext, Moved, MoveAllowed;
    Here(s, sid);
    Views(s, sid);
    var x, y := ContextOf(s, sid), NewContext(s, sid, f, table, s.pending);
    var k := s.conns[c].(jammedA := true);
    forall d | d in s.conns ensures Pair(y, d, ViewOf(if d == c then k else s.conns[d], sid)) {
      var v := ViewOf(s.conns[d], sid);
      var v' := v.(jammedA := d == c || s.conns[d].jammedA);
      AgedKeeps(x, d, v, v');
      MovedPair(x, y, d, v');
      assert v' == ViewOf(if d == c then k else s.conns[d], sid);
    }
    ConnStep(s, sid, f, table, s.pending, c, k);
  }

  lemma SendOpenKeeps(s: State, s': State, sid: Sid)
    requires Inv(s) && SendOpen(s, s', sid)
    ensures Inv(s')
  {
    hide Holds;
    var c := s.flows[sid].handler.via;
    if s.conns[c].fdOpen {
      SendOpenOut(s, sid, c);
    } else {
      Here(s, sid);
      HandlerMoves(s, sid, s.flows[sid].(handler := OpenSent), s.sessions, s.pending);
    }
  }

  lemma SendDataKeeps(s: State, s': State, sid: Sid)
    requires Inv(s) && SendData(s, s', sid)
    ensures Inv(s')
  {
    hide Holds;
    var c := s.flows[sid].handler.via;
    if s.conns[c].fdOpen {
      SendDataOut(s, sid, c, s.flows[sid].handler.data);
    } else {
      Here(s, sid);
      HandlerMoves(s, sid, s.flows[sid].(handler := Relaying, lost := true), s.sessions, s.pending);
    }
  }

  lemma SendOpenFailsKeeps(s: State, s': State, sid: Sid)
    requires Inv(s) && SendOpenFails(s, s', sid)
    ensures Inv(s')
  {
    hide Holds;
    Here(s, sid);
    HandlerJams(s, sid, s.flows[sid].(handler := Done(false)), Erase(s.sessions, sid), s.flows[sid].handler.via);
  }

  lemma SendDataFailsKeeps(s: State, s': State, sid: Sid)
    requires Inv(s) && SendDataFails(s, s', sid)
    ensures Inv(s')
  {
    hide Holds;
    Here(s, sid);
    HandlerJams(s, sid, s.flows[sid].(handler := Closing, lost := true), s.sessions, s.flows[sid].handler.via);
  }

  lemma SendCloseSwallowed(s: State, sid: Sid)
    requires Inv(s) && sid in s.flows && s.flows[sid].handler.SendingClose?
    ensures Inv(AfterFlow(s, sid, s.flows[sid].(handler := CloseSent), s.sessions, s.pending))
  {
    hide Holds;
    Here(s, sid);
    HandlerMoves(s, sid, s.flows[sid].(handler := CloseSent), s.sessions, s.pending);
  }

  lemma SendCloseJams(s: State, sid: Sid, c: ConnId)
    requires Inv(s) && sid in s.flows && s.flows[sid].handler.SendingClose? && c in s.conns
    ensures Inv(AfterConn(s, sid, s.flows[sid].(handler := CloseSent), s.sessions, s.pending,
                          c, s.conns[c].(jammedA := true)))
  {
    hide Holds;
    Here(s, sid);
    HandlerJams(s, sid, s.flows[sid].(handler := CloseSent), s.sessions, c);
  }

  lemma SendCloseKeeps(s: State, s': State, sid: Sid, fails: bool)
    requires Inv(s) && SendClose(s, s', sid, fails)
    ensures Inv(s')
  {
    hide Holds;
    var c := s.flows[sid].handler.via;
    if !s.conns[c].fdOpen {
      SendCloseSwallowed(s, sid);
    } else if fails || s.conns[c].jammedA {
      SendCloseJams(s, sid, c);
    } else {
      SendCloseOut(s, sid, c);
    }
  }

  // ---- the thread reads, and a new session begins -----------------------------------------------------------

  lemma ReadMore(w: seq<Octet>, a: seq<Octet>, q: seq<Octet>, r: seq<Octet>, held: bool, lost: bool, data: seq<Octet>)
    requires Delivered(w, a, q, [], r, held, lost)
    ensures Delivered(w, a, q, data, r + data, held, lost)
  {
    assert w + a + q + [] == w + a + q;
  }

  lemma ReadPair(x: Context, c: ConnId, v: View, data: seq<Octet>)
    requires Pair(x, c, v) && x.flow.handler == Relaying
    ensures Pair(x.(flow := x.flow.(handler := Holding(data), clientRead := x.flow.clientRead + data)), c, v)
  {
    hide From, Payload, NoOpen, NoAck, NoDataIn, Split, Delivered;
    var f := x.flow;
    if f.home == Some(c) {
      ReadMore(f.targetWritten, AgentHand(v), Payload(v.inbox), f.clientRead, v.held.Some?, f.lost, data);
    }
  }

  lemma ReadSolo(x: Context, data: seq<Octet>)
    requires Solo(x) && x.flow.handler == Relaying && From(data, Client(x.sid))
    ensures Solo(x.(flow := x.flow.(handler := Holding(data), clientRead := x.flow.clientRead + data)))
  {
    FromConcat(x.flow.clientRead, data, Client(x.sid));
  }

  lemma ReadClientKeeps(s: State, s': State, sid: Sid, data: seq<Octet>)
    requires Inv(s) && ReadClient(s, s', sid, data)
    ensures Inv(s')
  {
    hide Holds, Single, Related;
    Here(s, sid);
    Views(s, sid);
    var x, f := ContextOf(s, sid), s'.flows[sid];
    ReadSolo(x, data);
    forall d | d in s.conns ensures Pair(x.(flow := f), d, ViewOf(s.conns[d], sid)) {
      ReadPair(x, d, ViewOf(s.conns[d], sid), data);
    }
    FlowStep(s, sid, f, s.sessions, s.pending);
  }

  lemma FreshPair(x: Context, c: ConnId, v: View)
    requires x.flow == NewFlow(x.flow.agent) && Silent(v)
    ensures Pair(x, c, v)
  {
  }

  lemma UnusedIsSilent(s: State, sid: Sid, c: ConnId)
    requires IdUnused(s, sid) && c in s.conns
    ensures Silent(ViewOf(s.conns[c], sid))
  {
    FilterNone(s.conns[c].toAgent, sid);
    FilterNone(s.conns[c].toServer, sid);
  }

  lemma GenerateCloses(s: State, s': State, sid: Sid, agent: AgentId)
    requires Wired(s) && Closed(s) && Generate(s, s', sid, agent)
    ensures Wired(s') && Closed(s')
  {
    hide IdUnused, ViewOf;
  }

  lemma GenerateKeeps(s: State, s': State, sid: Sid, agent: AgentId)
    requires Inv(s) && Generate(s, s', sid, agent)
    ensures Inv(s')
  {
    hide Single, Related, ViewOf, Wired, Closed;
    GenerateCloses(s, s', sid, agent);
    forall y | y in s'.flows
      ensures SoloAt(s', y)
      ensures forall d :: d in s'.conns ==> PairAt(s', y, d)
    {
      if y == sid {
        FreshSolo(ContextOf(s', sid));
        forall d | d in s'.conns ensures PairAt(s', sid, d) {
          UnusedIsSilent(s, sid, d);
          FreshPair(ContextOf(s', sid), d, ViewOf(s.conns[d], sid));
        }
      } else {
        assert SoloAt(s, y) && ContextOf(s', y) == ContextOf(s, y);
        forall d | d in s'.conns ensures PairAt(s', y, d) { assert PairAt(s, y, d); }
      }
    }
  }

  lemma FreshSolo(x: Context)
    requires x.flow == NewFlow(x.flow.agent) && x.entry.None? && !x.pending
    ensures Solo(x)
  {
  }

  lemma HandlerStepKeeps(s: State, s': State, sid: Sid)
    requires Inv(s) && HandlerStep(s, s', sid)
    ensures Inv(s')
  {
    hide Holds, Generate, List, LookupOpen, SendOpen, SendOpenFails, RegisterPromise, TimeOut, Unpend, GiveUp, Wake,
         SetFd, ReadClient, LookupData, SendData, SendDataFails, ClientEof, LookupClose, SendClose, EraseSession, CloseClient;
    if agent :| Generate(s, s', sid, agent) { GenerateKeeps(s, s', sid, agent); }
    else if data :| ReadClient(s, s', sid, data) { ReadClientKeeps(s, s', sid, data); }
    else if List(s, s', sid) { ListKeeps(s, s', sid); }
    else if LookupOpen(s, s', sid) { LookupOpenKeeps(s, s', sid); }
    else if SendOpen(s, s', sid) { SendOpenKeeps(s, s', sid); }
    else if SendOpenFails(s, s', sid) { SendOpenFailsKeeps(s, s', sid); }
    else if RegisterPromise(s, s', sid) { RegisterPromiseKeeps(s, s', sid); }
    else if TimeOut(s, s', sid) { TimeOutKeeps(s, s', sid); }
    else if Unpend(s, s', sid) { UnpendKeeps(s, s', sid); }
    else if GiveUp(s, s', sid) { GiveUpKeeps(s, s', sid); }
    else if Wake(s, s', sid) { WakeKeeps(s, s', sid); }
    else if SetFd(s, s', sid) { SetFdKeeps(s, s', sid); }
    else if LookupData(s, s', sid) { LookupDataKeeps(s, s', sid); }
    else if SendData(s, s', sid) { SendDataKeeps(s, s', sid); }
    else if SendDataFails(s, s', sid) { SendDataFailsKeeps(s, s', sid); }
    else if ClientEof(s, s', sid) { ClientEofKeeps(s, s', sid); }
    else if LookupClose(s, s', sid) { LookupCloseKeeps(s, s', sid); }
    else if SendClose(s, s', sid, false) { SendCloseKeeps(s, s', sid, false); }
    else if SendClose(s, s', sid, true) { SendCloseKeeps(s, s', sid, true); }
    else if EraseSession(s, s', sid) { EraseSessionKeeps(s, s', sid); }
    else { CloseClientKeeps(s, s', sid); }
  }
}
