/** The steps of the agents' reader threads keep the invariant. */
module TunnelReaderSteps {
  import opened Results
  import opened Bytes
  import opened TunnelCodec
  import opened TunnelTables
  import opened TunnelSystem
  import opened TunnelSafety
  import opened TunnelSteps
  import opened TunnelHandlerSteps
  import TunnelAgentSteps
  import TunnelReceiveSteps

  // ---- the thread moves or reads ----------------------------------------------------------------------------

  lemma ReaderMoved(x: Context, d: ConnId, v: View, r: Reader)
    requires Pair(x, d, v) && x.flow.reader != NotStarted && !x.flow.reader.Carrying? && !r.Carrying?
    ensures Pair(x.(flow := x.flow.(reader := r)), d, v)
  {
    hide From, NoOpen, NoAck, NoDataIn, Delivered, Split, Payload;
  }

  lemma ReaderMoveSolo(x: Context, r: Reader)
    requires Solo(x) && x.flow.reader != NotStarted && !x.flow.reader.Carrying? && !r.Carrying?
    ensures Solo(x.(flow := x.flow.(reader := r)))
  {
    hide From;
  }

  lemma ReaderMoveKeeps(s: State, sid: Sid, r: Reader)
    requires Inv(s) && sid in s.flows && s.flows[sid].reader != NotStarted && !s.flows[sid].reader.Carrying? && !r.Carrying?
    ensures Inv(AfterFlow(s, sid, s.flows[sid].(reader := r), s.sessions, s.pending))
  {
    hide Holds, Related, ViewOf, Single;
    Here(s, sid);
    Views(s, sid);
    var x, f := ContextOf(s, sid), s.flows[sid].(reader := r);
    ReaderMoveSolo(x, r);
    forall d | d in s.conns ensures Pair(x.(flow := f), d, ViewOf(s.conns[d], sid)) {
      ReaderMoved(x, d, ViewOf(s.conns[d], sid), r);
    }
    FlowStep(s, sid, f, s.sessions, s.pending);
  }

  lemma TargetEofKeeps(s: State, s': State, sid: Sid)
    requires Inv(s) && TargetEof(s, s', sid)
    ensures Inv(s')
  {
    hide Holds;
    ReaderMoveKeeps(s, sid, AtEof);
  }

  lemma TakeIn(dropped: seq<Octet>, w: seq<Octet>, h: seq<Octet>, q: seq<Octet>, r: seq<Octet>, data: seq<Octet>)
    requires Split(dropped, w, h, q, [], r)
    ensures Split(dropped, w, h, q, data, r + data)
  {
    assert dropped + w + h + q + [] == dropped + w + h + q;
  }

  lemma TargetReadPair(x: Context, d: ConnId, v: View, data: seq<Octet>)
    requires Pair(x, d, v) && x.flow.reader == Reading
    ensures Pair(x.(flow := x.flow.(reader := Carrying(data), targetRead := x.flow.targetRead + data)), d, v)
  {
    hide From, NoOpen, NoAck, NoDataIn, Delivered, Split, Payload;
    var f := x.flow;
    if f.home == Some(d) && !f.skipped {
      TakeIn(f.dropped, f.clientWritten, ServerHand(v), Payload(v.outbox), f.targetRead, data);
    }
  }

  lemma TargetReadSolo(x: Context, data: seq<Octet>)
    requires Solo(x) && x.flow.reader == Reading && x.flow.home.Some? && From(data, Target(x.sid))
    ensures Solo(x.(flow := x.flow.(reader := Carrying(data), targetRead := x.flow.targetRead + data)))
  {
    FromConcat(x.flow.targetRead, data, Target(x.sid));
  }

  lemma ReadTargetKeeps(s: State, s': State, sid: Sid, data: seq<Octet>)
    requires Inv(s) && ReadTarget(s, s', sid, data)
    ensures Inv(s')
  {
    hide Holds, Related, ViewOf, Single;
    Here(s, sid);
    Views(s, sid);
    var x, f := ContextOf(s, sid), s'.flows[sid];
    TargetReadSolo(x, data);
    forall d | d in s.conns ensures Pair(x.(flow := f), d, ViewOf(s.conns[d], sid)) {
      TargetReadPair(x, d, ViewOf(s.conns[d], sid), data);
    }
    FlowStep(s, sid, f, s.sessions, s.pending);
  }

  // ---- the thread sends -----------------------------------------------------------------------------------------

  lemma SendUp(dropped: seq<Octet>, w: seq<Octet>, h: seq<Octet>, q: seq<Octet>, k: seq<Octet>, r: seq<Octet>)
    requires Split(dropped, w, h, q, k, r)
    ensures Split(dropped, w, h, q + k, [], r)
  {
    Associate(dropped + w + h, q, k);
  }

  /** A frame sent home leaves the split as it was; any other frame makes the session skip. */
  lemma DataSent(x: Context, c: ConnId, v: View)
    requires Pair(x, c, v) && Solo(x) && x.flow.reader.Carrying?
    ensures var f := x.flow;
            Pair(x.(flow := f.(reader := Reading, skipped := f.skipped || f.home != Some(c))), c,
                 v.(outbox := v.outbox + [DataMsg(x.sid, f.reader.data)]))
  {
    hide From, NoOpen, Delivered, Split, Payload;
    var f := x.flow; var p := f.reader.data;
    PayloadPush(v.outbox, DataMsg(x.sid, p));
    FromConcat(Payload(v.outbox), p, Target(x.sid));
    if f.home == Some(c) && !f.skipped {
      SendUp(f.dropped, f.clientWritten, ServerHand(v), Payload(v.outbox), p, f.targetRead);
    }
  }

  /** The connections that the frame does not go out on. */
  lemma DataSentElsewhere(x: Context, d: ConnId, v: View, skipped: bool, r: Reader)
    requires Pair(x, d, v) && !r.Carrying?
    requires x.flow.home == Some(d) ==> skipped && !v.up
    requires x.flow.skipped ==> skipped
    ensures Pair(x.(flow := x.flow.(reader := r, skipped := skipped)), d, v)
  {
    hide From, NoOpen, NoAck, NoDataIn, Delivered, Split, Payload;
  }

  lemma SentSolo(x: Context, skipped: bool, r: Reader)
    requires Solo(x) && x.flow.reader.Carrying? && !r.Carrying? && x.flow.home.Some?
    ensures Solo(x.(flow := x.flow.(reader := r, skipped := skipped)))
  {
    hide From;
    NoOctets(Target(x.sid));
  }

  lemma NoOctets(origin: Origin)
    ensures From([], origin)
  {
  }

  lemma ReaderHasHome(x: Context)
    requires Solo(x) && x.flow.reader != NotStarted
    ensures x.flow.home.Some?
  {
    hide From;
  }

  /** An agent has one connection at a time. */
  lemma HomeIsCurrent(s: State, sid: Sid)
    requires Inv(s) && sid in s.flows && s.flows[sid].home.Some?
    ensures s.flows[sid].home.value in s.conns
    ensures s.conns[s.flows[sid].home.value].agent == s.flows[sid].agent
    ensures s.conns[s.flows[sid].home.value].up ==>
              s.flows[sid].agent in s.current && s.current[s.flows[sid].agent] == s.flows[sid].home.value
  {
    hide Closed, SoloAt, Forward, Reverse;
    assert PairAt(s, sid, s.flows[sid].home.value);
  }

  lemma PushUpOnly(k: Conn, m: Msg, sid: Sid)
    requires m.Control? || m.sid == sid
    ensures ConnOnly(k, k.(toServer := k.toServer + [m]), sid)
  {
    hide ViewOf;
    forall y | y != sid ensures Aged(ViewOf(k, y), ViewOf(k.(toServer := k.toServer + [m]), y)) {
      TunnelAgentSteps.ServerPushView(k, m, y);
    }
  }

  /** What the connections that do not carry the frame make of it. */
  lemma SentElsewhere(s: State, sid: Sid, c: ConnId)
    requires Inv(s) && sid in s.flows && s.flows[sid].reader.Carrying?
    requires s.flows[sid].agent in s.current && s.current[s.flows[sid].agent] == c && c in s.conns
    ensures s.flows[sid].home.Some?
    ensures var f := s.flows[sid];
            forall d :: d in s.conns && d != c ==>
              Pair(ContextOf(s, sid).(flow := f.(reader := Reading, skipped := f.skipped || f.home != Some(c))), d,
                   ViewOf(s.conns[d], sid))
  {
    hide Holds, Related, ViewOf, Single;
    Here(s, sid);
    Views(s, sid);
    var x := ContextOf(s, sid);
    ReaderHasHome(x);
    HomeIsCurrent(s, sid);
    var skipped := x.flow.skipped || x.flow.home != Some(c);
    forall d | d in s.conns && d != c
      ensures Pair(x.(flow := x.flow.(reader := Reading, skipped := skipped)), d, ViewOf(s.conns[d], sid))
    {
      TunnelAgentSteps.HeldView(s.conns[d], sid);
      DataSentElsewhere(x, d, ViewOf(s.conns[d], sid), skipped, Reading);
    }
  }

  lemma ReaderSendKeeps(s: State, s': State, sid: Sid)
    requires Inv(s) && ReaderSend(s, s', sid)
    ensures Inv(s')
  {
    hide Holds, Related, ViewOf, Single;
    Here(s, sid);
    Views(s, sid);
    var x := ContextOf(s, sid);
    var c := s.current[x.flow.agent]; var m := DataMsg(sid, x.flow.reader.data);
    var f := x.flow.(reader := Reading, skipped := x.flow.skipped || x.flow.home != Some(c));
    SentElsewhere(s, sid, c);
    SentSolo(x, f.skipped, Reading);
    TunnelAgentSteps.ServerPushView(s.conns[c], m, sid);
    PushUpOnly(s.conns[c], m, sid);
    DataSent(x, c, ViewOf(s.conns[c], sid));
    ConnStep(s, sid, f, s.sessions, s.pending, c, s.conns[c].(toServer := s.conns[c].toServer + [m]));
  }

  lemma SendFailed(x: Context, d: ConnId, v: View)
    requires Pair(x, d, v) && (x.flow.home == Some(d) ==> !v.up || v.jammedS)
    ensures Pair(x.(flow := x.flow.(reader := AtEof, skipped := true)), d, v)
  {
    hide From, NoOpen, NoAck, NoDataIn, Delivered, Split, Payload;
    NoOctets(Target(x.sid));
  }

  lemma JamUpOnly(k: Conn, sid: Sid)
    ensures ConnOnly(k, k.(jammedS := true), sid)
    ensures ViewOf(k.(jammedS := true), sid) == ViewOf(k, sid).(jammedS := true)
  {
  }

  lemma ReaderSendFailsKeeps(s: State, s': State, sid: Sid)
    requires Inv(s) && ReaderSendFails(s, s', sid)
    ensures Inv(s')
  {
    hide Holds, Related, ViewOf, Single;
    Here(s, sid);
    Views(s, sid);
    var x, f := ContextOf(s, sid), s'.flows[sid];
    ReaderHasHome(x);
    HomeIsCurrent(s, sid);
    SentSolo(x, true, AtEof);
    if x.flow.agent in s.current && s.current[x.flow.agent] in s.conns {
      var c := s.current[x.flow.agent];
      JamUpOnly(s.conns[c], sid);
      forall d | d in s.conns
        ensures Pair(x.(flow := f), d, ViewOf(if d == c then s.conns[c].(jammedS := true) else s.conns[d], sid))
      {
        var v := ViewOf(s.conns[d], sid);
        TunnelAgentSteps.HeldView(s.conns[d], sid);
        AgedKeeps(x, d, v, if d == c then v.(jammedS := true) else v);
        SendFailed(x, d, if d == c then v.(jammedS := true) else v);
      }
      ConnStep(s, sid, f, s.sessions, s.pending, c, s.conns[c].(jammedS := true));
    } else {
      forall d | d in s.conns ensures Pair(x.(flow := f), d, ViewOf(s.conns[d], sid)) {
        TunnelAgentSteps.HeldView(s.conns[d], sid);
        SendFailed(x, d, ViewOf(s.conns[d], sid));
      }
      FlowStep(s, sid, f, s.sessions, s.pending);
    }
  }

  lemma CloseSentUp(x: Context, c: ConnId, v: View)
    requires Pair(x, c, v)
    ensures Pair(x, c, v.(outbox := v.outbox + [CloseMsg(x.sid)]))
  {
    hide From, NoAck, NoOpen, Split, Delivered, Payload, NoDataIn;
    TunnelAgentSteps.PlainPushed(v.outbox, CloseMsg(x.sid));
  }

  lemma ReaderClosesOut(s: State, sid: Sid, c: ConnId)
    requires Inv(s) && sid in s.flows && s.flows[sid].reader == AtEof && c in s.conns
    ensures Inv(AfterConn(s, sid, s.flows[sid].(reader := ReaderErasing), s.sessions, s.pending, c,
                          s.conns[c].(toServer := s.conns[c].toServer + [CloseMsg(sid)])))
  {
    hide Holds, Related, ViewOf, Single;
    Here(s, sid);
    Views(s, sid);
    var x, f := ContextOf(s, sid), s.flows[sid].(reader := ReaderErasing);
    ReaderMoveSolo(x, ReaderErasing);
    forall d | d in s.conns ensures Pair(x.(flow := f), d, ViewOf(s.conns[d], sid)) {
      ReaderMoved(x, d, ViewOf(s.conns[d], sid), ReaderErasing);
    }
    CloseSentUp(x.(flow := f), c, ViewOf(s.conns[c], sid));
    TunnelAgentSteps.ServerPushView(s.conns[c], CloseMsg(sid), sid);
    PushUpOnly(s.conns[c], CloseMsg(sid), sid);
    ConnStep(s, sid, f, s.sessions, s.pending, c, s.conns[c].(toServer := s.conns[c].toServer + [CloseMsg(sid)]));
  }

  lemma ReaderCloseKeeps(s: State, s': State, sid: Sid, goesOut: bool)
    requires Inv(s) && ReaderClose(s, s', sid, goesOut)
    ensures Inv(s')
  {
    hide Holds;
    var a := s.flows[sid].agent;
    if goesOut && a in s.current && s.current[a] in s.conns && !s.conns[s.current[a]].jammedS {
      ReaderClosesOut(s, sid, s.current[a]);
    } else {
      ReaderMoveKeeps(s, sid, ReaderErasing);
    }
  }

  // ---- the session leaves the agent's table ---------------------------------------------------------------------

  lemma HeldErased(x: Context, c: ConnId, v: View)
    requires Pair(x, c, v)
    ensures Pair(x, c, v.(held := None))
  {
    hide From, NoAck, NoOpen, Split, Payload, NoDataIn;
  }

  lemma HeldErasedOnly(k: Conn, sid: Sid)
    ensures ConnOnly(k, k.(held := k.held - {sid}), sid)
    ensures ViewOf(k.(held := k.held - {sid}), sid) == ViewOf(k, sid).(held := None)
  {
  }

  lemma ReaderErases(s: State, sid: Sid, c: ConnId)
    requires Inv(s) && sid in s.flows && s.flows[sid].reader == ReaderErasing && c in s.conns
    ensures Inv(AfterConn(s, sid, s.flows[sid].(reader := Ended), s.sessions, s.pending, c,
                          s.conns[c].(held := s.conns[c].held - {sid})))
  {
    hide Holds, Related, ViewOf, Single;
    Here(s, sid);
    Views(s, sid);
    var x, f := ContextOf(s, sid), s.flows[sid].(reader := Ended);
    ReaderMoveSolo(x, Ended);
    forall d | d in s.conns ensures Pair(x.(flow := f), d, ViewOf(s.conns[d], sid)) {
      ReaderMoved(x, d, ViewOf(s.conns[d], sid), Ended);
    }
    HeldErased(x.(flow := f), c, ViewOf(s.conns[c], sid));
    HeldErasedOnly(s.conns[c], sid);
    ConnStep(s, sid, f, s.sessions, s.pending, c, s.conns[c].(held := s.conns[c].held - {sid}));
  }

  lemma ReaderEraseKeeps(s: State, s': State, sid: Sid)
    requires Inv(s) && ReaderErase(s, s', sid)
    ensures Inv(s')
  {
    hide Holds;
    var a := s.flows[sid].agent;
    if a in s.current && s.current[a] in s.conns {
      ReaderErases(s, sid, s.current[a]);
    } else {
      ReaderMoveKeeps(s, sid, Ended);
    }
  }

  lemma ReaderStepKeeps(s: State, s': State, sid: Sid)
    requires Inv(s) && ReaderStep(s, s', sid)
    ensures Inv(s')
  {
    hide Holds, ReadTarget, ReaderSend, ReaderSendFails, TargetEof, ReaderClose, ReaderErase;
    if data :| ReadTarget(s, s', sid, data) { ReadTargetKeeps(s, s', sid, data); }
    else if ReaderSend(s, s', sid) { ReaderSendKeeps(s, s', sid); }
    else if ReaderSendFails(s, s', sid) { ReaderSendFailsKeeps(s, s', sid); }
    else if TargetEof(s, s', sid) { TargetEofKeeps(s, s', sid); }
    else if ReaderClose(s, s', sid, false) { ReaderCloseKeeps(s, s', sid, false); }
    else if ReaderClose(s, s', sid, true) { ReaderCloseKeeps(s, s', sid, true); }
    else { ReaderEraseKeeps(s, s', sid); }
  }
}
