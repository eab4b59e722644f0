/**
 * An OPEN_ACK that the server takes before the waiter has registered itself is lost: nobody sends
 * another one, and the session never opens.
 */
module TunnelLostAck {
  import opened Results
  import opened Bytes
  import opened TunnelCodec
  import opened TunnelTables
  import opened TunnelSystem
  import opened TunnelSafety
  import opened TunnelTheorems
  import opened TunnelHistory
  import TunnelReceiveSteps

  // ---- OPEN_ACK frames in a queue ---------------------------------------------------------------------------

  function Acks(q: seq<Msg>, sid: Sid): nat {
    if q == [] then 0 else Acks(q[..|q| - 1], sid) + if q[|q| - 1] == OpenAckMsg(sid) then 1 else 0
  }

  lemma AcksPush(q: seq<Msg>, m: Msg, sid: Sid)
    ensures Acks(q + [m], sid) == Acks(q, sid) + if m == OpenAckMsg(sid) then 1 else 0
  {
    assert (q + [m])[..|q|] == q;
  }

  lemma {:induction false} AcksPop(q: seq<Msg>, sid: Sid)
    requires q != []
    ensures Acks(q, sid) == Acks(q[1..], sid) + if q[0] == OpenAckMsg(sid) then 1 else 0
  {
    var init := q[..|q| - 1];
    if init != [] {
      AcksPop(init, sid);
      assert q[1..][..|q| - 2] == init[1..];
    } else {
      assert q[1..] == [] && q == [q[0]];
    }
  }

  lemma {:induction false} NoAcks(q: seq<Msg>, sid: Sid)
    requires OpenAckMsg(sid) !in q
    ensures Acks(q, sid) == 0
  {
    if q != [] { NoAcks(q[..|q| - 1], sid); }
  }

  // ---- steps that neither answer nor prepare to answer ----------------------------------------------------------

  /** The queue to the server loses its first frame or gains a frame that is no OPEN_ACK. */
  predicate QuietConn(k: Conn, k': Conn) {
    && (k'.main == k.main || !k'.main.Acking?)
    && (|| k'.toServer == k.toServer
        || (k.toServer != [] && k'.toServer == k.toServer[1..])
        || (k'.toServer != [] && k'.toServer[..|k'.toServer| - 1] == k.toServer && !k'.toServer[|k'.toServer| - 1].OpenAckMsg?))
  }

  ghost predicate Quiet(s: State, s': State) {
    forall c :: c in s'.conns ==>
      if c in s.conns then QuietConn(s.conns[c], s'.conns[c]) else s'.conns[c].toServer == [] && !s'.conns[c].main.Acking?
  }

  lemma OneConn(s: State, s': State, c: ConnId)
    requires s'.conns.Keys == s.conns.Keys && c in s.conns && s'.conns == s.conns[c := s'.conns[c]]
    requires QuietConn(s.conns[c], s'.conns[c]) == true
    ensures Quiet(s, s')
  {
  }

  lemma SameConns(s: State, s': State)
    requires s'.conns == s.conns
    ensures Quiet(s, s')
  {
  }

  lemma HandlerIsQuiet(s: State, s': State, sid: Sid)
    requires HandlerStep(s, s', sid)
    ensures Quiet(s, s')
  {
    hide Generate, List, LookupOpen, SendOpen, SendOpenFails, RegisterPromise, TimeOut, Unpend, GiveUp, Wake,
         SetFd, ReadClient, LookupData, SendData, SendDataFails, ClientEof, LookupClose, SendClose, EraseSession, CloseClient, Quiet;
    if SendOpen(s, s', sid) || SendOpenFails(s, s', sid) { OpenSendIsQuiet(s, s', sid); }
    else if SendData(s, s', sid) || SendDataFails(s, s', sid) { DataSendIsQuiet(s, s', sid); }
    else if SendClose(s, s', sid, false) { CloseSendIsQuiet(s, s', sid, false); }
    else if SendClose(s, s', sid, true) { CloseSendIsQuiet(s, s', sid, true); }
    else if TimeOut(s, s', sid) || Unpend(s, s', sid) || GiveUp(s, s', sid) || Wake(s, s', sid) || EraseSession(s, s', sid) {
      WaitingIsQuiet(s, s', sid);
    } else if (exists data :: ReadClient(s, s', sid, data)) || LookupData(s, s', sid) || ClientEof(s, s', sid)
              || LookupClose(s, s', sid) || CloseClient(s, s', sid) {
      LocalIsQuiet(s, s', sid);
    } else { BeginningIsQuiet(s, s', sid); }
  }

  lemma OpenSendIsQuiet(s: State, s': State, sid: Sid)
    requires SendOpen(s, s', sid) || SendOpenFails(s, s', sid)
    ensures Quiet(s, s')
  {
    var c := s.flows[sid].handler.via;
    if s'.conns != s.conns { OneConn(s, s', c); }
  }

  lemma DataSendIsQuiet(s: State, s': State, sid: Sid)
    requires SendData(s, s', sid) || SendDataFails(s, s', sid)
    ensures Quiet(s, s')
  {
    var c := s.flows[sid].handler.via;
    if s'.conns != s.conns { OneConn(s, s', c); }
  }

  lemma CloseSendIsQuiet(s: State, s': State, sid: Sid, fails: bool)
    requires SendClose(s, s', sid, fails)
    ensures Quiet(s, s')
  {
    var c := s.flows[sid].handler.via;
    if s'.conns != s.conns { OneConn(s, s', c); }
  }

  lemma BeginningIsQuiet(s: State, s': State, sid: Sid)
    requires || (exists agent :: Generate(s, s', sid, agent)) || List(s, s', sid) || LookupOpen(s, s', sid)
             || RegisterPromise(s, s', sid) || SetFd(s, s', sid)
    ensures Quiet(s, s')
  {
    hide IdUnused, Quiet, Route, SetExternal;
    SameConns(s, s');
  }

  lemma WaitingIsQuiet(s: State, s': State, sid: Sid)
    requires TimeOut(s, s', sid) || Unpend(s, s', sid) || GiveUp(s, s', sid) || Wake(s, s', sid) || EraseSession(s, s', sid)
    ensures Quiet(s, s')
  {
    hide Quiet, Erase;
    SameConns(s, s');
  }

  lemma LocalIsQuiet(s: State, s': State, sid: Sid)
    requires || (exists data :: ReadClient(s, s', sid, data)) || LookupData(s, s', sid) || ClientEof(s, s', sid)
             || LookupClose(s, s', sid) || CloseClient(s, s', sid)
    ensures Quiet(s, s')
  {
    hide Quiet, Route, From;
    SameConns(s, s');
  }

  lemma ServerIsQuiet(s: State, s': State, c: ConnId)
    requires ServerStep(s, s', c)
    ensures Quiet(s, s')
  {
    hide Connect, Register, ServerReceive, SendControl, Jam, WriteClient, WriteClientFails, Leave, DropSessions,
         StopPending, StopAgents, StopSessions, Quiet;
    if ServerReceive(s, s', c) { ReceiveIsQuiet(s, s', c); }
    else if SendControl(s, s', c, false) || Jam(s, s', c, false) { LinkIsQuiet(s, s', c, false); }
    else if SendControl(s, s', c, true) || Jam(s, s', c, true) { LinkIsQuiet(s, s', c, true); }
    else if n :| WriteClient(s, s', c, n) { WriteIsQuiet(s, s', c, n); }
    else if agent :| Connect(s, s', c, agent) { NewConnIsQuiet(s, s', c, agent); }
    else if Register(s, s', c) { RegisterIsQuiet(s, s', c); }
    else if WriteClientFails(s, s', c) || Leave(s, s', c) || DropSessions(s, s', c) { LeavingIsQuiet(s, s', c); }
    else { StopIsQuiet(s, s'); }
  }

  lemma ReceiveIsQuiet(s: State, s': State, c: ConnId)
    requires ServerReceive(s, s', c)
    ensures Quiet(s, s')
  {
    hide Quiet;
    ReceiveChanges(s, s', c);
    hide ServerReceive;
    OneConn(s, s', c);
  }

  /** Taking a frame changes no more of a connection than its queue and its receiver. */
  lemma ReceiveChanges(s: State, s': State, c: ConnId)
    requires ServerReceive(s, s', c)
    ensures c in s.conns && c in s'.conns && s'.conns == s.conns[c := s'.conns[c]] && s'.conns.Keys == s.conns.Keys
    ensures s.conns[c].toServer != [] && s'.conns[c].toServer == s.conns[c].toServer[1..] && s'.conns[c].main == s.conns[c].main
  {
    ReceiveConns(s, s', c);
    hide ServerReceive;
  }

  lemma ReceiveConns(s: State, s': State, c: ConnId)
    requires ServerReceive(s, s', c)
    ensures c in s.conns && s.conns[c].toServer != []
    ensures exists r: Receiver :: s'.conns == s.conns[c := s.conns[c].(toServer := s.conns[c].toServer[1..], receiver := r)]
  {
    hide Erase, ExternalOf;
    var k := s.conns[c];
    assert k.(toServer := k.toServer[1..]) == k.(toServer := k.toServer[1..], receiver := k.receiver);
  }

  lemma LinkIsQuiet(s: State, s': State, c: ConnId, toServer: bool)
    requires SendControl(s, s', c, toServer) || Jam(s, s', c, toServer)
    ensures Quiet(s, s')
  {
    OneConn(s, s', c);
  }

  lemma WriteIsQuiet(s: State, s': State, c: ConnId, n: nat)
    requires WriteClient(s, s', c, n)
    ensures Quiet(s, s')
  {
    OneConn(s, s', c);
  }

  lemma NewConnIsQuiet(s: State, s': State, c: ConnId, agent: AgentId)
    requires Connect(s, s', c, agent)
    ensures Quiet(s, s')
  {
  }

  lemma RegisterIsQuiet(s: State, s': State, c: ConnId)
    requires Register(s, s', c)
    ensures Quiet(s, s')
  {
  }

  lemma LeavingIsQuiet(s: State, s': State, c: ConnId)
    requires WriteClientFails(s, s', c) || Leave(s, s', c) || DropSessions(s, s', c)
    ensures Quiet(s, s')
  {
    hide Erase, WithoutAgent, Quiet;
    OneConn(s, s', c);
  }

  lemma StopIsQuiet(s: State, s': State)
    requires StopPending(s, s') || StopAgents(s, s') || StopSessions(s, s')
    ensures Quiet(s, s')
  {
  }

  lemma AgentIsQuiet(s: State, s': State, c: ConnId)
    requires AgentStep(s, s', c) && !Install(s, s', c) && !SendAck(s, s', c)
    ensures Quiet(s, s')
  {
    hide AgentReceive, Install, SendAck, SendAckFails, SendRefusal, WriteTarget, WriteTargetFails, Join, AgentDown, Quiet;
    if AgentReceive(s, s', c, false) { TakeIsQuiet(s, s', c, false); }
    else if AgentReceive(s, s', c, true) { TakeIsQuiet(s, s', c, true); }
    else if n :| WriteTarget(s, s', c, n) { TargetIsQuiet(s, s', c, n); }
    else if SendRefusal(s, s', c, true) { MainIsQuiet(s, s', c, true); }
    else if SendRefusal(s, s', c, false) { MainIsQuiet(s, s', c, false); }
    else if Join(s, s', c) || AgentDown(s, s', c) { EndingIsQuiet(s, s', c); }
    else { FailingIsQuiet(s, s', c); }
  }

  lemma OpenIsQuiet(s: State, s': State, c: ConnId, accepted: bool)
    requires AgentReceive(s, s', c, accepted) && s.conns[c].toAgent[0].OpenMsg?
    ensures Quiet(s, s')
  {
    hide Quiet;
    OneConn(s, s', c);
  }

  lemma DataIsQuiet(s: State, s': State, c: ConnId, accepted: bool)
    requires AgentReceive(s, s', c, accepted) && s.conns[c].toAgent[0].DataMsg?
    ensures Quiet(s, s')
  {
    hide Quiet;
    OneConn(s, s', c);
  }

  lemma CloseIsQuiet(s: State, s': State, c: ConnId, accepted: bool)
    requires AgentReceive(s, s', c, accepted) && s.conns[c].toAgent[0].CloseMsg?
    ensures Quiet(s, s')
  {
    hide Quiet;
    OneConn(s, s', c);
  }

  lemma OtherIsQuiet(s: State, s': State, c: ConnId, accepted: bool)
    requires AgentReceive(s, s', c, accepted) && (s.conns[c].toAgent[0].Control? || s.conns[c].toAgent[0].OpenAckMsg?)
    ensures Quiet(s, s')
  {
    hide Quiet;
    OneConn(s, s', c);
  }

  lemma TakeIsQuiet(s: State, s': State, c: ConnId, accepted: bool)
    requires AgentReceive(s, s', c, accepted)
    ensures Quiet(s, s')
  {
    TakesFrame(s, s', c, accepted);
    hide AgentReceive, Quiet;
    match s.conns[c].toAgent[0]
    case OpenMsg(_) => OpenIsQuiet(s, s', c, accepted);
    case DataMsg(_, _) => DataIsQuiet(s, s', c, accepted);
    case CloseMsg(_) => CloseIsQuiet(s, s', c, accepted);
    case _ => OtherIsQuiet(s, s', c, accepted);
  }

  lemma TakesFrame(s: State, s': State, c: ConnId, accepted: bool)
    requires AgentReceive(s, s', c, accepted)
    ensures c in s.conns && s.conns[c].toAgent != []
  {
  }

  lemma TargetIsQuiet(s: State, s': State, c: ConnId, n: nat)
    requires WriteTarget(s, s', c, n)
    ensures Quiet(s, s')
  {
    OneConn(s, s', c);
  }

  lemma MainIsQuiet(s: State, s': State, c: ConnId, fails: bool)
    requires SendRefusal(s, s', c, fails)
    ensures Quiet(s, s')
  {
    hide Quiet;
    OneConn(s, s', c);
  }

  lemma FailingIsQuiet(s: State, s': State, c: ConnId)
    requires SendAckFails(s, s', c) || WriteTargetFails(s, s', c)
    ensures Quiet(s, s')
  {
    hide Quiet;
    OneConn(s, s', c);
  }

  lemma EndingIsQuiet(s: State, s': State, c: ConnId)
    requires Join(s, s', c) || AgentDown(s, s', c)
    ensures Quiet(s, s')
  {
    hide Quiet;
    OneConn(s, s', c);
  }

  lemma ReaderIsQuiet(s: State, s': State, sid: Sid)
    requires ReaderStep(s, s', sid)
    ensures Quiet(s, s')
  {
    hide ReadTarget, ReaderSend, ReaderSendFails, TargetEof, ReaderClose, ReaderErase, Quiet;
    if ReaderSend(s, s', sid) || ReaderSendFails(s, s', sid) { ReaderSendIsQuiet(s, s', sid); }
    else if ReaderClose(s, s', sid, false) || ReaderErase(s, s', sid) { ReaderEndIsQuiet(s, s', sid, false); }
    else if ReaderClose(s, s', sid, true) { ReaderEndIsQuiet(s, s', sid, true); }
    else { ReaderReadIsQuiet(s, s', sid); }
  }

  lemma ReaderSendIsQuiet(s: State, s': State, sid: Sid)
    requires ReaderSend(s, s', sid) || ReaderSendFails(s, s', sid)
    ensures Quiet(s, s')
  {
    if s'.conns != s.conns { OneConn(s, s', s.current[s.flows[sid].agent]); }
  }

  lemma ReaderEndIsQuiet(s: State, s': State, sid: Sid, goesOut: bool)
    requires ReaderClose(s, s', sid, goesOut) || ReaderErase(s, s', sid)
    ensures Quiet(s, s')
  {
    if s'.conns != s.conns { OneConn(s, s', s.current[s.flows[sid].agent]); }
  }

  lemma ReaderReadIsQuiet(s: State, s': State, sid: Sid)
    requires TargetEof(s, s', sid) || exists data :: ReadTarget(s, s', sid, data)
    ensures Quiet(s, s')
  {
    hide From;
    SameConns(s, s');
  }

  lemma StepIsQuiet(s: State, s': State)
    requires Next(s, s')
    requires forall c :: !Install(s, s', c) && !SendAck(s, s', c)
    ensures Quiet(s, s')
  {
    hide HandlerStep, ServerStep, AgentStep, ReaderStep, Quiet, Install, SendAck;
    if sid :| HandlerStep(s, s', sid) { HandlerIsQuiet(s, s', sid); }
    else if c :| ServerStep(s, s', c) { ServerIsQuiet(s, s', c); }
    else if c :| AgentStep(s, s', c) { AgentIsQuiet(s, s', c); }
    else if sid :| ReaderStep(s, s', sid) { ReaderIsQuiet(s, s', sid); }
  }

  // ---- one OPEN_ACK for each session ------------------------------------------------------------------------------

  /** OPEN_ACK goes out at most once, on the home connection, and only after the thread was about to send it. */
  predicate AckedOnce(f: Flow, c: ConnId, k: Conn, sid: Sid) {
    && Acks(k.toServer, sid) <= (if f.acked && f.home == Some(c) then 1 else 0)
    && (k.main == Acking(sid) ==> !f.acked)
  }

  ghost predicate AckOnce(s: State, sid: Sid) {
    sid in s.flows ==> forall c :: c in s.conns ==> AckedOnce(s.flows[sid], c, s.conns[c], sid)
  }

  lemma QuietAcks(k: Conn, k': Conn, sid: Sid)
    requires QuietConn(k, k')
    ensures Acks(k'.toServer, sid) <= Acks(k.toServer, sid)
    ensures k'.main == Acking(sid) ==> k.main == Acking(sid)
  {
    if k.toServer != [] { AcksPop(k.toServer, sid); }
  }

  lemma UnusedHasNoAcks(s: State, sid: Sid, c: ConnId)
    requires IdUnused(s, sid) && c in s.conns
    ensures Acks(s.conns[c].toServer, sid) == 0 && s.conns[c].main != Acking(sid)
  {
    NoAcks(s.conns[c].toServer, sid);
  }

  lemma QuietKeepsAckOnce(s: State, s': State, sid: Sid)
    requires AckOnce(s, sid) && Quiet(s, s') && (Continues(s, s', sid) || Restarts(s, s', sid))
    requires forall c :: !SendAck(s, s', c)
    ensures AckOnce(s', sid)
  {
    hide IdUnused, QuietConn, SendAck, Install, SetFd, ServerReceive;
    if sid in s'.flows {
      forall c | c in s'.conns ensures AckedOnce(s'.flows[sid], c, s'.conns[c], sid) {
        if c in s.conns {
          QuietAcks(s.conns[c], s'.conns[c], sid);
          if Restarts(s, s', sid) { UnusedHasNoAcks(s, sid, c); }
        }
      }
    }
  }

  lemma InstallKeepsAckOnce(s: State, s': State, c: ConnId, sid: Sid)
    requires Inv(s) && AckOnce(s, sid) && Install(s, s', c)
    ensures AckOnce(s', sid)
  {
    hide Holds;
    if sid in s.flows {
      At(s, sid, c);
      hide Forward, Reverse, Recorded, Tabled, Tagged, Filter, Payload, From, Acks;
    }
  }

  lemma SendAckKeepsAckOnce(s: State, s': State, c: ConnId, sid: Sid)
    requires Inv(s) && AckOnce(s, sid) && SendAck(s, s', c)
    ensures AckOnce(s', sid)
  {
    hide Holds;
    AcksPush(s.conns[c].toServer, OpenAckMsg(s.conns[c].main.sid), sid);
    if sid in s.flows && s.conns[c].main.sid == sid {
      forall d | d in s.conns && s.conns[d].main == Acking(sid) ensures s.flows[sid].home == Some(d) { AckingIsAtHome(s, d, sid); }
    }
    hide Acks;
  }

  lemma AckingIsAtHome(s: State, c: ConnId, sid: Sid)
    requires Inv(s) && c in s.conns && sid in s.flows && s.conns[c].main == Acking(sid)
    ensures s.flows[sid].home == Some(c)
  {
    hide Holds;
    At(s, sid, c);
    hide Single, Forward, Reverse;
  }

  lemma StepKeepsAckOnce(s: State, s': State, sid: Sid)
    requires Inv(s) && AckOnce(s, sid) && Next(s, s')
    ensures AckOnce(s', sid)
  {
    hide Holds, Next, AckOnce, Install, SendAck, Quiet, Continues, Restarts;
    if c :| SendAck(s, s', c) { SendAckKeepsAckOnce(s, s', c, sid); }
    else if c :| Install(s, s', c) { InstallKeepsAckOnce(s, s', c, sid); }
    else {
      StepIsQuiet(s, s');
      StepHistory(s, s', sid);
      QuietKeepsAckOnce(s, s', sid);
    }
  }

  lemma {:induction false} RunKeepsAckOnce(t: seq<State>, n: nat, sid: Sid)
    requires Run(t) && n < |t|
    ensures AckOnce(t[n], sid)
  {
    if n == 0 {
      StartIsEmpty(t, sid);
    } else {
      hide Run, Holds, Next, AckOnce;
      RunKeepsAckOnce(t, n - 1, sid);
      RunStep(t, n - 1, sid);
      StepKeepsAckOnce(t[n - 1], t[n - 1 + 1], sid);
    }
  }

  // ---- a lost OPEN_ACK ------------------------------------------------------------------------------------------------

  /** The OPEN_ACK has been sent and taken, and the waiter has not got it. */
  ghost predicate Missed(s: State, sid: Sid) {
    && sid in s.flows && s.flows[sid].acked && s.flows[sid].promise != Success
    && forall c :: c in s.conns ==> Acks(s.conns[c].toServer, sid) == 0
  }

  /** The server takes the session's OPEN_ACK on connection c. */
  ghost predicate Takes(s: State, s': State, c: ConnId, sid: Sid) {
    ServerReceive(s, s', c) && s.conns[c].toServer[0] == OpenAckMsg(sid)
  }

  /** A waiter is woken if and only if it is registered when its OPEN_ACK is taken. */
  lemma AckDecides(s: State, s': State, c: ConnId, sid: Sid)
    requires Inv(s) && Takes(s, s', c, sid) && sid in s.flows && s.flows[sid].promise != Success
    ensures sid in s'.flows && (s'.flows[sid].promise == Success <==> sid in s.pending)
  {
    if sid in s.pending { TunnelReceiveSteps.PendingIsUnresolved(s, sid); }
    hide Holds;
  }

  lemma IgnoredIsMissed(s: State, s': State, c: ConnId, sid: Sid)
    requires Inv(s) && AckOnce(s, sid) && Takes(s, s', c, sid) && sid !in s.pending
    requires sid in s.flows && s.flows[sid].promise != Success
    ensures Missed(s', sid)
  {
    AcksPop(s.conns[c].toServer, sid);
    ReceiveChanges(s, s', c);
    AckDecides(s, s', c, sid);
    assert s'.flows == s.flows;
    hide Holds, ServerReceive, Acks;
  }

  lemma AckInQueue(s: State, s': State, sid: Sid)
    requires TakesAck(s, s', sid)
    ensures exists c :: c in s.conns && Acks(s.conns[c].toServer, sid) > 0
  {
    var c :| ServerReceive(s, s', c) && s.conns[c].toServer[0] == OpenAckMsg(sid);
    AcksPop(s.conns[c].toServer, sid);
  }

  lemma AcksStayGone(s: State, s': State, sid: Sid)
    requires Inv(s) && AckOnce(s, sid) && Missed(s, sid) && Next(s, s')
    ensures forall c :: c in s'.conns ==> Acks(s'.conns[c].toServer, sid) == 0
  {
    hide Holds, Next, Install, QuietConn;
    if c :| SendAck(s, s', c) {
      AcksPush(s.conns[c].toServer, OpenAckMsg(s.conns[c].main.sid), sid);
      hide Acks;
    } else if c :| Install(s, s', c) {
      InstallChanges(s, s', c);
    } else {
      StepIsQuiet(s, s');
      forall c | c in s'.conns ensures Acks(s'.conns[c].toServer, sid) == 0 {
        if c in s.conns { QuietAcks(s.conns[c], s'.conns[c], sid); }
      }
    }
  }

  lemma InstallChanges(s: State, s': State, c: ConnId)
    requires Install(s, s', c)
    ensures forall d :: d in s'.conns ==> d in s.conns && s'.conns[d].toServer == s.conns[d].toServer
  {
  }

  lemma MissedStays(s: State, s': State, sid: Sid)
    requires Inv(s) && AckOnce(s, sid) && Missed(s, sid) && Next(s, s') && !Restarts(s, s', sid)
    ensures Missed(s', sid)
  {
    AcksStayGone(s, s', sid);
    hide Holds, Next, Restarts, AckOnce, Acks, TakesAck, Installs, Acknowledges, Attaches;
    StepHistory(s, s', sid);
    if TakesAck(s, s', sid) { AckInQueue(s, s', sid); }
  }

  lemma {:induction false} MissedForever(t: seq<State>, m: nat, n: nat, sid: Sid)
    requires Run(t) && m <= n < |t| && Missed(t[m], sid)
    requires forall i :: m <= i < n ==> !Restarts(t[i], t[i + 1], sid)
    ensures Missed(t[n], sid)
    decreases n - m
  {
    hide Run, Next, Holds, Missed, AckOnce, Restarts;
    if m < n {
      RunStep(t, m, sid);
      RunKeepsAckOnce(t, m, sid);
      assert !Restarts(t[m], t[m + 1], sid);
      MissedStays(t[m], t[m + 1], sid);
      MissedForever(t, m + 1, n, sid);
    }
  }

  /**
   * If the OPEN_ACK comes before the waiter has registered itself, the session never opens: until
   * its id is given out again, its waiter is never woken, no client octet is read, none reaches the
   * target, and no client is attached.
   */
  lemma LostAckIsForever(t: seq<State>, m: nat, n: nat, c: ConnId, sid: Sid)
    requires Run(t) && m < n < |t| && Takes(t[m], t[m + 1], c, sid) && sid !in t[m].pending
    requires sid in t[m].flows && t[m].flows[sid].promise != Success
    requires forall i :: m < i < n ==> !Restarts(t[i], t[i + 1], sid)
    ensures sid in t[n].flows
    ensures var f := t[n].flows[sid]; f.promise != Success && f.clientRead == [] && f.targetWritten == [] && !f.fdSet
  {
    hide Run, Next, Holds, AckOnce, Restarts, Takes;
    RunKeepsInv(t, m);
    RunKeepsAckOnce(t, m, sid);
    IgnoredIsMissed(t[m], t[m + 1], c, sid);
    MissedForever(t, m + 1, n, sid);
    RunKeepsInv(t, n);
    NotYetOpen(t[n], sid);
  }

  lemma NotYetOpen(s: State, sid: Sid)
    requires Inv(s) && sid in s.flows && s.flows[sid].promise != Success
    ensures var f := s.flows[sid]; f.clientRead == [] && f.targetWritten == [] && !f.fdSet
  {
    hide Holds;
    At(s, sid, 0);
  }
}
