/** The steps of the agents' main threads keep the invariant. */
module TunnelAgentSteps {
  import opened Results
  import opened Bytes
  import opened TunnelCodec
  import opened TunnelTables
  import opened TunnelSystem
  import opened TunnelSafety
  import opened TunnelSteps
  import opened TunnelHandlerSteps
  import TunnelServerSteps
  import TunnelReceiveSteps

  // ---- a step of the main thread of a connection that concerns one session ----------------------------------

  predicate Idle(m: Main) { m.Greeting? || m.Serving? }

  /** What such a step may change in the connection. */
  predicate MainOnly(k: Conn, k': Conn, sid: Sid) {
    && k' == k.(toAgent := k'.toAgent, toServer := k'.toServer, jammedS := k'.jammedS, held := k'.held, main := k'.main)
    && (k.jammedS ==> k'.jammedS)
    && (k'.toAgent == k.toAgent
        || (k.toAgent != [] && (k.toAgent[0].Control? || k.toAgent[0].sid == sid) && k'.toAgent == k.toAgent[1..]))
    && (|| k'.toServer == k.toServer
        || k'.toServer == k.toServer + [OpenAckMsg(sid)] || k'.toServer == k.toServer + [CloseMsg(sid)])
    && (k'.held == k.held || k'.held == k.held - {sid} || k'.held == k.held[sid := sid])
    && (Idle(k.main) || k.main.sid == sid) && (Idle(k'.main) || k'.main.sid == sid)
  }

  lemma MainConnOnly(k: Conn, k': Conn, sid: Sid)
    requires MainOnly(k, k', sid)
    ensures ConnOnly(k, k', sid)
  {
    forall y | y != sid ensures Aged(ViewOf(k, y), ViewOf(k', y)) {
      FilterPush(k.toServer, OpenAckMsg(sid), y);
      FilterPush(k.toServer, CloseMsg(sid), y);
    }
  }

  lemma MainStep(s: State, sid: Sid, f: Flow, c: ConnId, k: Conn)
    requires Inv(s) && Fit(s, sid, f, s.sessions, s.pending) == true && c in s.conns && MainOnly(s.conns[c], k, sid) == true
    requires Pair(NewContext(s, sid, f, s.sessions, s.pending), c, ViewOf(k, sid))
    requires forall d :: d in s.conns && d != c ==>
               Pair(NewContext(s, sid, f, s.sessions, s.pending), d, ViewOf(s.conns[d], sid))
    ensures Inv(AfterConn(s, sid, f, s.sessions, s.pending, c, k))
  {
    hide Single, Related, ViewOf, NewContext, SameElsewhere, Reaches;
    MainConnOnly(s.conns[c], k, sid);
    ConnStep(s, sid, f, s.sessions, s.pending, c, k);
  }

  /** The view after the agent has taken its next frame. */
  lemma ReceivedView(k: Conn, k': Conn, sid: Sid)
    requires k.toAgent != [] && About(k.toAgent[0], sid) && Idle(k.main)
    requires k' == k.(toAgent := k.toAgent[1..], held := k'.held, main := k'.main)
    requires Idle(k'.main) || k'.main.sid == sid
    ensures var v := ViewOf(k, sid); var w := ViewOf(k', sid);
            && v.inbox == [k.toAgent[0]] + w.inbox && v.main == Serving
            && w == v.(inbox := w.inbox, held := if sid in k'.held then Some(k'.held[sid]) else None,
                       main := if Idle(k'.main) then Serving else k'.main)
  {
  }

  // ---- local steps: OPEN ----------------------------------------------------------------------------------------

  lemma OpenTaken(x: Context, c: ConnId, v: View, rest: seq<Msg>, accepted: bool)
    requires Pair(x, c, v) && Solo(x) && v.inbox == [OpenMsg(x.sid)] + rest && v.main == Serving
    ensures var f := x.flow.(popped := true, reader := if accepted then Reading else x.flow.reader);
            && Pair(x.(flow := f), c, v.(inbox := rest, main := if accepted then Opening(x.sid) else Refusing(x.sid)))
            && Solo(x.(flow := f))
    ensures x.flow.home == Some(c)
  {
    hide From, NoAck, NoDataIn;
    assert v.inbox[0] == OpenMsg(x.sid);
    assert rest == [] by { assert |v.inbox| == 1; }
    assert v.inbox[1..] == rest;
  }

  lemma OpenTakenElsewhere(x: Context, d: ConnId, v: View, accepted: bool)
    requires Pair(x, d, v) && x.flow.home.Some? && x.flow.home != Some(d)
    ensures Pair(x.(flow := x.flow.(popped := true, reader := if accepted then Reading else x.flow.reader)), d, v)
  {
    hide From, NoAck, NoDataIn, NoOpen, Delivered, Split, Payload;
  }

  lemma OpenKeeps(s: State, c: ConnId, sid: Sid, accepted: bool)
    requires Inv(s) && c in s.conns && Idle(s.conns[c].main) && s.conns[c].toAgent != []
    requires s.conns[c].toAgent[0] == OpenMsg(sid) && sid in s.flows
    ensures Inv(AfterConn(s, sid, s.flows[sid].(popped := true, reader := if accepted then Reading else s.flows[sid].reader),
                          s.sessions, s.pending, c,
                          s.conns[c].(toAgent := s.conns[c].toAgent[1..],
                                      main := if accepted then Opening(sid) else Refusing(sid))))
  {
    hide Holds, Related, ViewOf, Single;
    Here(s, sid);
    Views(s, sid);
    var x := ContextOf(s, sid);
    var f := s.flows[sid].(popped := true, reader := if accepted then Reading else s.flows[sid].reader);
    var k := s.conns[c];
    var k' := k.(toAgent := k.toAgent[1..], main := if accepted then Opening(sid) else Refusing(sid));
    ReceivedView(k, k', sid);
    HeldView(k, sid);
    OpenTaken(x, c, ViewOf(k, sid), ViewOf(k', sid).inbox, accepted);
    forall d | d in s.conns && d != c ensures Pair(x.(flow := f), d, ViewOf(s.conns[d], sid)) {
      OpenTakenElsewhere(x, d, ViewOf(s.conns[d], sid), accepted);
    }
    MainStep(s, sid, f, c, k');
  }

  // ---- local steps: DATA and CLOSE --------------------------------------------------------------------------------

  lemma TakeDown(w: seq<Octet>, p: seq<Octet>, q: seq<Octet>, k: seq<Octet>, r: seq<Octet>, lost: bool)
    requires Delivered(w, [], p + q, k, r, true, lost)
    ensures Delivered(w, p, q, k, r, true, lost)
  {
    assert w + [] == w;
    Associate(w, p, q);
    assert w + p <= w + p + q;
  }

  lemma DataReceived(x: Context, c: ConnId, v: View, p: seq<Octet>, rest: seq<Msg>)
    requires Pair(x, c, v) && v.inbox == [DataMsg(x.sid, p)] + rest && v.main == Serving && v.held.Some?
    ensures v.held == Some(x.sid)
    ensures Pair(x, c, v.(inbox := rest, main := Writing(x.sid, x.sid, p)))
  {
    hide From, NoAck, NoDataIn, Split, Delivered;
    assert v.inbox[0] == DataMsg(x.sid, p) && v.inbox[1..] == rest;
    assert forall i :: 0 <= i < |rest| ==> v.inbox[i + 1] == rest[i];
    FromConcat(p, Payload(rest), Client(x.sid));
    TakeDown(x.flow.targetWritten, p, Payload(rest), HandlerData(x.flow), x.flow.clientRead, x.flow.lost);
  }

  /** Frames that the agent takes without using them: for unknown sessions, or CLOSE. */
  lemma FrameDiscarded(x: Context, c: ConnId, v: View, m: Msg, rest: seq<Msg>, main: Main)
    requires Pair(x, c, v) && v.inbox == [m] + rest && (m.DataMsg? || m.CloseMsg?) && v.main == Serving
    requires m.DataMsg? ==> v.held.None?
    requires main == Serving || main.Joining?
    ensures Pair(x, c, v.(inbox := rest, held := None, main := main))
  {
    hide From, NoAck, NoDataIn, Split;
    assert v.inbox[0] == m && v.inbox[1..] == rest;
    assert forall i :: 0 <= i < |rest| ==> v.inbox[i + 1] == rest[i];
    FromConcat(if m.DataMsg? then m.payload else [], Payload(rest), Client(x.sid));
  }

  lemma DataKeeps(s: State, c: ConnId, sid: Sid, p: seq<Octet>)
    requires Inv(s) && c in s.conns && Idle(s.conns[c].main) && s.conns[c].toAgent != []
    requires s.conns[c].toAgent[0] == DataMsg(sid, p) && sid in s.flows && sid in s.conns[c].held
    ensures Inv(AfterConn(s, sid, s.flows[sid], s.sessions, s.pending, c,
                          s.conns[c].(toAgent := s.conns[c].toAgent[1..], main := Writing(s.conns[c].held[sid], sid, p))))
  {
    hide Holds, Related, ViewOf;
    Here(s, sid);
    Views(s, sid);
    var x := ContextOf(s, sid);
    var k, k' := s.conns[c], s.conns[c].(toAgent := s.conns[c].toAgent[1..], main := Writing(s.conns[c].held[sid], sid, p));
    ReceivedView(k, k', sid);
    assert ViewOf(k, sid).held == Some(k.held[sid]) by { HeldView(k, sid); }
    DataReceived(x, c, ViewOf(k, sid), p, ViewOf(k', sid).inbox);
    MainStep(s, sid, s.flows[sid], c, k');
  }

  lemma HeldView(k: Conn, sid: Sid)
    ensures ViewOf(k, sid).held == if sid in k.held then Some(k.held[sid]) else None
    ensures ViewOf(k, sid).main == if MainMentions(k.main, sid) then k.main else Serving
    ensures ViewOf(k, sid).up == k.up && ViewOf(k, sid).jammedS == k.jammedS && ViewOf(k, sid).agent == k.agent
  {
  }

  lemma DiscardKeeps(s: State, c: ConnId, sid: Sid)
    requires Inv(s) && c in s.conns && Idle(s.conns[c].main) && s.conns[c].toAgent != []
    requires About(s.conns[c].toAgent[0], sid) && sid in s.flows
    requires s.conns[c].toAgent[0].CloseMsg? || (s.conns[c].toAgent[0].DataMsg? && sid !in s.conns[c].held)
    ensures Inv(AfterConn(s, sid, s.flows[sid], s.sessions, s.pending, c,
                          s.conns[c].(toAgent := s.conns[c].toAgent[1..], held := s.conns[c].held - {sid},
                                      main := if sid in s.conns[c].held then Joining(sid) else Serving)))
  {
    hide Holds, Related, ViewOf, Single;
    Here(s, sid);
    Views(s, sid);
    var x := ContextOf(s, sid);
    var k := s.conns[c];
    var main := if sid in k.held then Joining(sid) else Serving;
    var k' := k.(toAgent := k.toAgent[1..], held := k.held - {sid}, main := main);
    ReceivedView(k, k', sid);
    HeldView(k, sid);
    FrameDiscarded(x, c, ViewOf(k, sid), k.toAgent[0], ViewOf(k', sid).inbox, main);
    MainStep(s, sid, s.flows[sid], c, k');
  }

  // ---- installing the session and answering ------------------------------------------------------------------------

  /** The view after the main thread has moved without taking a frame. */
  lemma MainView(k: Conn, k': Conn, sid: Sid)
    requires k' == k.(jammedS := k'.jammedS, held := k'.held, main := k'.main)
    requires (Idle(k.main) || k.main.sid == sid) && (Idle(k'.main) || k'.main.sid == sid)
    ensures var v := ViewOf(k, sid); var w := ViewOf(k', sid);
            && v.main == (if Idle(k.main) then Serving else k.main)
            && w == v.(jammedS := k'.jammedS, held := if sid in k'.held then Some(k'.held[sid]) else None,
                       main := if Idle(k'.main) then Serving else k'.main)
  {
  }

  lemma Installed(x: Context, c: ConnId, v: View)
    requires Pair(x, c, v) && Solo(x) && v.main == Opening(x.sid) && v.up
    ensures var f := x.flow.(installed := true);
            Pair(x.(flow := f), c, v.(held := Some(x.sid), main := Acking(x.sid))) && Solo(x.(flow := f))
    ensures x.flow.home == Some(c)
  {
    hide From, NoAck, NoDataIn, NoOpen, Split;
    assert Payload([]) == [];
  }

  lemma InstalledElsewhere(x: Context, d: ConnId, v: View)
    requires Pair(x, d, v) && x.flow.home.Some? && x.flow.home != Some(d)
    ensures Pair(x.(flow := x.flow.(installed := true)), d, v)
  {
    hide From, NoAck, NoDataIn, NoOpen, Split, Delivered, Payload;
  }

  lemma InstallKeeps(s: State, s': State, c: ConnId)
    requires Inv(s) && Install(s, s', c)
    ensures Inv(s')
  {
    hide Holds, Related, ViewOf, Single;
    var sid := s.conns[c].main.sid;
    Here(s, sid);
    Views(s, sid);
    var x, f := ContextOf(s, sid), s.flows[sid].(installed := true);
    var k, k' := s.conns[c], s'.conns[c];
    MainView(k, k', sid);
    HeldView(k, sid);
    Installed(x, c, ViewOf(k, sid));
    forall d | d in s.conns && d != c ensures Pair(x.(flow := f), d, ViewOf(s.conns[d], sid)) {
      InstalledElsewhere(x, d, ViewOf(s.conns[d], sid));
    }
    MainStep(s, sid, f, c, k');
  }

  lemma Acknowledged(x: Context, c: ConnId, v: View)
    requires Pair(x, c, v) && Solo(x) && v.main == Acking(x.sid)
    ensures var f := x.flow.(acked := true);
            Pair(x.(flow := f), c, v.(outbox := v.outbox + [OpenAckMsg(x.sid)], main := Serving)) && Solo(x.(flow := f))
  {
    hide From, NoAck, NoOpen, Split, Delivered, Payload;
    PlainPushed(v.outbox, OpenAckMsg(x.sid));
  }

  lemma PlainPushed(q: seq<Msg>, m: Msg)
    requires !m.DataMsg?
    ensures Payload(q + [m]) == Payload(q)
    ensures NoDataIn(q) ==> NoDataIn(q + [m])
    ensures m.CloseMsg? && NoAck(q) ==> NoAck(q + [m])
  {
    PayloadPush(q, m);
    assert Payload(q) + [] == Payload(q);
  }

  lemma AcknowledgedElsewhere(x: Context, d: ConnId, v: View)
    requires Pair(x, d, v)
    ensures Pair(x.(flow := x.flow.(acked := true)), d, v)
  {
    hide From, NoAck, NoDataIn, NoOpen, Split, Delivered, Payload;
  }

  lemma SendAckKeeps(s: State, s': State, c: ConnId)
    requires Inv(s) && SendAck(s, s', c)
    ensures Inv(s')
  {
    hide Holds, Related, ViewOf, Single;
    var sid := s.conns[c].main.sid;
    Here(s, sid);
    Views(s, sid);
    var x, f := ContextOf(s, sid), s.flows[sid].(acked := true);
    var k, k' := s.conns[c], s'.conns[c];
    var k1 := k.(main := Serving);
    MainView(k, k1, sid);
    HeldView(k, sid);
    ServerPushView(k1, OpenAckMsg(sid), sid);
    Acknowledged(x, c, ViewOf(k, sid));
    forall d | d in s.conns && d != c ensures Pair(x.(flow := f), d, ViewOf(s.conns[d], sid)) {
      AcknowledgedElsewhere(x, d, ViewOf(s.conns[d], sid));
    }
    MainStep(s, sid, f, c, k');
  }

  lemma ServerPushView(k: Conn, m: Msg, y: Sid)
    ensures ViewOf(k.(toServer := k.toServer + [m]), y) ==
            if About(m, y) then ViewOf(k, y).(outbox := ViewOf(k, y).outbox + [m]) else ViewOf(k, y)
  {
    FilterPush(k.toServer, m, y);
  }

  // ---- moves of the main thread alone --------------------------------------------------------------------------------

  lemma NothingInHand(w: seq<Octet>, h: seq<Octet>, q: seq<Octet>, k: seq<Octet>, r: seq<Octet>,
                      held: bool, lost: bool, origin: Origin)
    requires Delivered(w, h, q, k, r, held, lost)
    ensures Delivered(w, [], q, k, r, false, lost)
    ensures From([], origin)
  {
    assert w + [] == w && w <= w + h;
  }

  /** The thread goes idle or waits for a reader; the session may leave the table; a send may have failed. */
  lemma MainMoved(x: Context, c: ConnId, v: View, w: View)
    requires Pair(x, c, v)
    requires w == v.(jammedS := w.jammedS, held := w.held, main := w.main) && (v.jammedS ==> w.jammedS)
    requires (w.held == v.held || w.held.None?) && (w.main == Serving || w.main.Joining?)
    requires v.main.Writing? ==> w.held.None?
    ensures Pair(x, c, w)
  {
    hide From, NoAck, NoDataIn, NoOpen, Split, Payload, Delivered;
    var f := x.flow;
    if f.home == Some(c) {
      NothingInHand(f.targetWritten, AgentHand(v), Payload(v.inbox), HandlerData(f), f.clientRead,
                    v.held.Some?, f.lost, Client(x.sid));
    }
  }

  lemma MainMoveKeeps(s: State, c: ConnId, sid: Sid, k': Conn)
    requires Inv(s) && c in s.conns && sid in s.flows && !Idle(s.conns[c].main) && s.conns[c].main.sid == sid
    requires k' == s.conns[c].(jammedS := k'.jammedS, held := k'.held, main := k'.main) && (s.conns[c].jammedS ==> k'.jammedS)
    requires k'.held == s.conns[c].held - {sid} || (k'.held == s.conns[c].held && !s.conns[c].main.Writing?)
    requires k'.main == Serving || k'.main == Joining(sid)
    ensures Inv(AfterConn(s, sid, s.flows[sid], s.sessions, s.pending, c, k'))
  {
    hide Holds, Related, ViewOf, Single;
    Here(s, sid);
    Views(s, sid);
    MainView(s.conns[c], k', sid);
    HeldView(s.conns[c], sid);
    MainMoved(ContextOf(s, sid), c, ViewOf(s.conns[c], sid), ViewOf(k', sid));
    MainStep(s, sid, s.flows[sid], c, k');
  }

  lemma MainIsKnown(s: State, c: ConnId)
    requires Inv(s) && c in s.conns && !Idle(s.conns[c].main)
    ensures s.conns[c].main.sid in s.flows
    ensures s.conns[c].main.Writing? ==> s.conns[c].main.fd == s.conns[c].main.sid
  {
    hide Wired, SoloAt, Forward, Reverse, Closed;
    var sid := s.conns[c].main.sid;
    TunnelReceiveSteps.NotSilentIsKnown(s, c, sid);
    assert PairAt(s, sid, c);
  }

  lemma SendAckFailsKeeps(s: State, s': State, c: ConnId)
    requires Inv(s) && SendAckFails(s, s', c)
    ensures Inv(s')
  {
    hide Holds;
    MainIsKnown(s, c);
    MainMoveKeeps(s, c, s.conns[c].main.sid, s'.conns[c]);
    SameFlow(s, s.conns[c].main.sid, s.sessions, c, s'.conns[c]);
  }

  lemma WriteTargetFailsKeeps(s: State, s': State, c: ConnId)
    requires Inv(s) && WriteTargetFails(s, s', c)
    ensures Inv(s')
  {
    hide Holds;
    MainIsKnown(s, c);
    MainMoveKeeps(s, c, s.conns[c].main.sid, s'.conns[c]);
    SameFlow(s, s.conns[c].main.sid, s.sessions, c, s'.conns[c]);
  }

  lemma JoinKeeps(s: State, s': State, c: ConnId)
    requires Inv(s) && Join(s, s', c)
    ensures Inv(s')
  {
    hide Holds;
    MainMoveKeeps(s, c, s.conns[c].main.sid, s'.conns[c]);
    SameFlow(s, s.conns[c].main.sid, s.sessions, c, s'.conns[c]);
  }

  lemma Refused(x: Context, c: ConnId, v: View)
    requires Pair(x, c, v) && v.main == Refusing(x.sid)
    ensures Pair(x, c, v.(outbox := v.outbox + [CloseMsg(x.sid)], main := Serving))
  {
    hide From, NoAck, NoOpen, Split, Delivered, Payload, NoDataIn;
    PlainPushed(v.outbox, CloseMsg(x.sid));
  }

  lemma RefusalOut(s: State, c: ConnId, sid: Sid)
    requires Inv(s) && c in s.conns && s.conns[c].main == Refusing(sid) && sid in s.flows
    ensures Inv(AfterConn(s, sid, s.flows[sid], s.sessions, s.pending, c,
                          s.conns[c].(toServer := s.conns[c].toServer + [CloseMsg(sid)], main := Serving)))
  {
    hide Holds, Related, ViewOf, Single;
    Here(s, sid);
    Views(s, sid);
    var k := s.conns[c]; var k1 := k.(main := Serving);
    MainView(k, k1, sid);
    HeldView(k, sid);
    ServerPushView(k1, CloseMsg(sid), sid);
    Refused(ContextOf(s, sid), c, ViewOf(k, sid));
    MainStep(s, sid, s.flows[sid], c, k.(toServer := k.toServer + [CloseMsg(sid)], main := Serving));
  }

  lemma SendRefusalKeeps(s: State, s': State, c: ConnId, fails: bool)
    requires Inv(s) && SendRefusal(s, s', c, fails)
    ensures Inv(s')
  {
    hide Holds;
    MainIsKnown(s, c);
    var sid := s.conns[c].main.sid;
    if fails || s.conns[c].jammedS {
      MainMoveKeeps(s, c, sid, s'.conns[c]);
    } else {
      RefusalOut(s, c, sid);
    }
    SameFlow(s, sid, s.sessions, c, s'.conns[c]);
  }

  // ---- writing to the target -------------------------------------------------------------------------------------------

  lemma WriteDown(w: seq<Octet>, h: seq<Octet>, q: seq<Octet>, k: seq<Octet>, r: seq<Octet>, held: bool, lost: bool, n: nat)
    requires Delivered(w, h, q, k, r, held, lost) && n <= |h|
    ensures Delivered(w + h[..n], h[n..], q, k, r, held, lost)
    ensures w + h[..n] <= r
  {
    assert h == h[..n] + h[n..];
    Associate(w, h[..n], h[n..]);
    assert w + h[..n] <= w + h;
  }

  lemma TargetWritten(x: Context, c: ConnId, v: View, n: nat, main: Main)
    requires Pair(x, c, v) && Solo(x) && v.main.Writing? && v.main.sid == x.sid && n <= |v.main.data|
    requires main == if n == |v.main.data| then Serving else v.main.(data := v.main.data[n..])
    ensures var y := x.(flow := x.flow.(targetWritten := x.flow.targetWritten + v.main.data[..n]));
            Pair(y, c, v.(main := main)) && Solo(y)
    ensures x.flow.home == Some(c)
  {
    hide NoOpen, NoAck, Split, Delivered, Payload, NoDataIn;
    var f := x.flow; var h := v.main.data;
    assert h == h[..n] + h[n..];
    FromConcat(h[..n], h[n..], Client(x.sid));
    FromConcat(f.targetWritten, h[..n], Client(x.sid));
    WriteDown(f.targetWritten, h, Payload(v.inbox), HandlerData(f), f.clientRead, v.held.Some?, f.lost, n);
    assert n == |h| ==> h[n..] == [];
    hide From;
  }

  lemma TargetWrittenElsewhere(x: Context, d: ConnId, v: View, data: seq<Octet>)
    requires Pair(x, d, v) && x.flow.home != Some(d)
    ensures Pair(x.(flow := x.flow.(targetWritten := x.flow.targetWritten + data)), d, v)
  {
    hide From, NoOpen, NoAck, Split, Delivered, Payload;
  }

  lemma WriteTargetKeeps(s: State, s': State, c: ConnId, n: nat)
    requires Inv(s) && WriteTarget(s, s', c, n)
    ensures Inv(s')
  {
    hide Holds, Related, ViewOf, Single;
    MainIsKnown(s, c);
    var k := s.conns[c]; var sid := k.main.sid; var k' := s'.conns[c]; var f := s'.flows[sid];
    Here(s, sid);
    Views(s, sid);
    var x := ContextOf(s, sid);
    MainView(k, k', sid);
    HeldView(k, sid);
    TargetWritten(x, c, ViewOf(k, sid), n, ViewOf(k', sid).main);
    forall d | d in s.conns && d != c ensures Pair(x.(flow := f), d, ViewOf(s.conns[d], sid)) {
      TargetWrittenElsewhere(x, d, ViewOf(s.conns[d], sid), k.main.data[..n]);
    }
    MainStep(s, sid, f, c, k');
  }

  // ---- frames, and giving the connection up ------------------------------------------------------------------------------

  lemma AgentControlKeeps(s: State, c: ConnId)
    requires Inv(s) && c in s.conns && Idle(s.conns[c].main) && s.conns[c].toAgent != [] && s.conns[c].toAgent[0].Control?
    ensures Inv(s.(conns := s.conns[c := s.conns[c].(toAgent := s.conns[c].toAgent[1..], main := Serving)]))
  {
    hide Holds;
    var k := s.conns[c];
    TunnelServerSteps.ConnAges(s, c, k.(toAgent := k.toAgent[1..], main := Serving));
  }

  /** The agent ignores frames that only the server understands. */
  lemma FrameIgnored(x: Context, c: ConnId, v: View, m: Msg, rest: seq<Msg>)
    requires Pair(x, c, v) && v.inbox == [m] + rest && m.OpenAckMsg? && v.main == Serving
    ensures Pair(x, c, v.(inbox := rest))
  {
    hide From, NoAck, NoDataIn, Split, Delivered;
    assert v.inbox[0] == m && v.inbox[1..] == rest;
    assert forall i :: 0 <= i < |rest| ==> v.inbox[i + 1] == rest[i];
    assert Payload(v.inbox) == Payload(rest);
  }

  lemma IgnoredKeeps(s: State, c: ConnId, sid: Sid)
    requires Inv(s) && c in s.conns && Idle(s.conns[c].main) && s.conns[c].toAgent != []
    requires s.conns[c].toAgent[0] == OpenAckMsg(sid) && sid in s.flows
    ensures Inv(s.(conns := s.conns[c := s.conns[c].(toAgent := s.conns[c].toAgent[1..], main := Serving)]))
  {
    hide Holds, Related, ViewOf, Single;
    Here(s, sid);
    Views(s, sid);
    var k := s.conns[c];
    var k' := k.(toAgent := k.toAgent[1..], main := Serving);
    ReceivedView(k, k', sid);
    HeldView(k, sid);
    FrameIgnored(ContextOf(s, sid), c, ViewOf(k, sid), k.toAgent[0], ViewOf(k', sid).inbox);
    MainStep(s, sid, s.flows[sid], c, k');
    SameFlow(s, sid, s.sessions, c, k');
  }

  lemma NotHeld<T>(m: map<Sid, T>, sid: Sid)
    requires sid !in m
    ensures m - {sid} == m
  {
  }

  lemma DataFrameKeeps(s: State, s': State, c: ConnId, accepted: bool)
    requires Inv(s) && AgentReceive(s, s', c, accepted)
    requires s.conns[c].toAgent[0].DataMsg? && s.conns[c].toAgent[0].sid in s.flows
    ensures Inv(s')
  {
    hide Holds;
    var sid := s.conns[c].toAgent[0].sid;
    SameFlow(s, sid, s.sessions, c, s'.conns[c]);
    if sid in s.conns[c].held {
      DataKeeps(s, c, sid, s.conns[c].toAgent[0].payload);
    } else {
      DiscardKeeps(s, c, sid);
      NotHeld(s.conns[c].held, sid);
    }
  }

  lemma CloseFrameKeeps(s: State, s': State, c: ConnId, accepted: bool)
    requires Inv(s) && AgentReceive(s, s', c, accepted)
    requires s.conns[c].toAgent[0].CloseMsg? && s.conns[c].toAgent[0].sid in s.flows
    ensures Inv(s')
  {
    hide Holds;
    var sid := s.conns[c].toAgent[0].sid;
    SameFlow(s, sid, s.sessions, c, s'.conns[c]);
    DiscardKeeps(s, c, sid);
    if sid !in s.conns[c].held { NotHeld(s.conns[c].held, sid); }
  }

  lemma AgentReceiveKeeps(s: State, s': State, c: ConnId, accepted: bool)
    requires Inv(s) && AgentReceive(s, s', c, accepted)
    ensures Inv(s')
  {
    hide Holds;
    TunnelReceiveSteps.FrameIsKnown(s, c);
    match s.conns[c].toAgent[0]
    case OpenMsg(sid) => OpenKeeps(s, c, sid, accepted);
    case DataMsg(sid, p) => DataFrameKeeps(s, s', c, accepted);
    case CloseMsg(sid) => CloseFrameKeeps(s, s', c, accepted);
    case OpenAckMsg(sid) => IgnoredKeeps(s, c, sid);
    case Control => AgentControlKeeps(s, c);
  }

  lemma DownPair(x: Context, c: ConnId, v: View)
    requires Pair(x, c, v) && v.main == Serving
    ensures Pair(x, c, v.(up := false, held := None))
  {
    hide From, NoAck, NoDataIn, NoOpen, Split, Payload;
  }

  lemma AgentDownWires(s: State, s': State, c: ConnId)
    requires Wired(s) && AgentDown(s, s', c)
    ensures Wired(s')
  {
  }

  lemma DownView(k: Conn, y: Sid)
    requires Idle(k.main)
    ensures ViewOf(k.(up := false, held := map[]), y) == ViewOf(k, y).(up := false, held := None)
    ensures ViewOf(k, y).main == Serving
  {
  }

  lemma AgentDownCloses(s: State, s': State, c: ConnId)
    requires Closed(s) && AgentDown(s, s', c)
    ensures Closed(s')
  {
    hide ViewOf;
    forall y, d | y !in s'.flows && d in s'.conns ensures Silent(ViewOf(s'.conns[d], y)) {
      assert Silent(ViewOf(s.conns[d], y));
      DownView(s.conns[c], y);
    }
  }

  lemma AgentDownKeeps(s: State, s': State, c: ConnId)
    requires Inv(s) && AgentDown(s, s', c)
    ensures Inv(s')
  {
    hide Single, Related, ViewOf, Closed, Wired;
    AgentDownWires(s, s', c);
    AgentDownCloses(s, s', c);
    forall y | y in s'.flows
      ensures SoloAt(s', y)
      ensures forall d :: d in s'.conns ==> PairAt(s', y, d)
    {
      assert ContextOf(s', y) == ContextOf(s, y);
      assert SoloAt(s, y);
      forall d | d in s'.conns ensures PairAt(s', y, d) {
        assert PairAt(s, y, d);
        if d == c {
          DownView(s.conns[c], y);
          DownPair(ContextOf(s, y), c, ViewOf(s.conns[c], y));
        }
      }
    }
  }

  lemma AgentStepKeeps(s: State, s': State, c: ConnId)
    requires Inv(s) && AgentStep(s, s', c)
    ensures Inv(s')
  {
    hide Holds, AgentReceive, Install, SendAck, SendAckFails, SendRefusal, WriteTarget, WriteTargetFails, Join, AgentDown;
    if AgentReceive(s, s', c, false) { AgentReceiveKeeps(s, s', c, false); }
    else if AgentReceive(s, s', c, true) { AgentReceiveKeeps(s, s', c, true); }
    else if Install(s, s', c) { InstallKeeps(s, s', c); }
    else if SendAck(s, s', c) { SendAckKeeps(s, s', c); }
    else if SendAckFails(s, s', c) { SendAckFailsKeeps(s, s', c); }
    else if SendRefusal(s, s', c, false) { SendRefusalKeeps(s, s', c, false); }
    else if SendRefusal(s, s', c, true) { SendRefusalKeeps(s, s', c, true); }
    else if n :| WriteTarget(s, s', c, n) { WriteTargetKeeps(s, s', c, n); }
    else if WriteTargetFails(s, s', c) { WriteTargetFailsKeeps(s, s', c); }
    else if Join(s, s', c) { JoinKeeps(s, s', c); }
    else { AgentDownKeeps(s, s', c); }
  }
}
