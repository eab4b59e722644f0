/** How a session's record grows along a run, and the order in which its events happen. */
module TunnelHistory {
  import opened Results
  import opened Bytes
  import opened TunnelCodec
  import opened TunnelTables
  import opened TunnelSystem
  import opened TunnelSafety
  import opened TunnelTheorems
  import TunnelReceiveSteps

  // ---- one step ---------------------------------------------------------------------------------------------

  /**
   * A session's record only grows: histories are extended at the end, flags stay up, a promise is
   * resolved at most once, the home connection is chosen once, and nothing more is dropped once the
   * client is attached.
   */
  predicate Evolves(f: Flow, g: Flow) {
    && g.agent == f.agent
    && (f.home.Some? ==> g.home == f.home)
    && (f.promise != Unresolved ==> g.promise == f.promise)
    && (f.popped ==> g.popped) && (f.installed ==> g.installed) && (f.acked ==> g.acked) && (f.fdSet ==> g.fdSet)
    && f.clientRead <= g.clientRead && f.targetWritten <= g.targetWritten
    && f.targetRead <= g.targetRead && f.clientWritten <= g.clientWritten && f.dropped <= g.dropped
    && (f.fdSet ==> g.dropped == f.dropped)
  }

  /** The agent puts the session into its table. */
  ghost predicate Installs(s: State, s': State, sid: Sid) {
    exists c :: Install(s, s', c) && s.conns[c].main.sid == sid
  }

  /** The agent sends OPEN_ACK. */
  ghost predicate Acknowledges(s: State, s': State, sid: Sid) {
    exists c :: SendAck(s, s', c) && s.conns[c].main.sid == sid
  }

  /** The server takes the session's OPEN_ACK while its waiter is registered. */
  ghost predicate TakesAck(s: State, s': State, sid: Sid) {
    sid in s.pending && exists c :: ServerReceive(s, s', c) && s.conns[c].toServer[0] == OpenAckMsg(sid)
  }

  /** The client's thread attaches its socket. */
  ghost predicate Attaches(s: State, s': State, sid: Sid) {
    SetFd(s, s', sid) && sid in s.sessions
  }

  /** The flags of a session change only by the corresponding events. */
  ghost predicate Caused(s: State, s': State, y: Sid, f: Flow, g: Flow) {
    && (g.installed && !f.installed ==> Installs(s, s', y))
    && (g.acked && !f.acked ==> Acknowledges(s, s', y))
    && (g.promise == Success && f.promise != Success ==> TakesAck(s, s', y))
    && (g.fdSet && !f.fdSet ==> Attaches(s, s', y))
  }

  /** What a step can do to the record of a session: keep its identity, or start it afresh. */
  ghost predicate Continues(s: State, s': State, y: Sid) {
    && (y in s'.flows <==> y in s.flows)
    && (y in s.flows ==> Evolves(s.flows[y], s'.flows[y]) && Caused(s, s', y, s.flows[y], s'.flows[y]))
  }

  ghost predicate Restarts(s: State, s': State, y: Sid) {
    IdUnused(s, y) && y in s'.flows && s'.flows[y] == NewFlow(s'.flows[y].agent)
  }

  /** A step without any of the four events. */
  predicate Plain(f: Flow, g: Flow) {
    Evolves(f, g) && g.installed == f.installed && g.acked == f.acked && g.fdSet == f.fdSet
    && (g.promise == Success ==> f.promise == Success)
  }

  ghost predicate PlainAt(s: State, s': State, y: Sid) {
    (y in s'.flows <==> y in s.flows) && (y in s.flows ==> Plain(s.flows[y], s'.flows[y]))
  }

  /** Only the positions of the two threads and the loss marks change. */
  predicate Moves(f: Flow, g: Flow) {
    g == f.(handler := g.handler, reader := g.reader, lost := g.lost, skipped := g.skipped, popped := f.popped || g.popped)
  }

  ghost predicate MovesAt(s: State, s': State, y: Sid) {
    (y in s'.flows <==> y in s.flows) && (y in s.flows ==> Moves(s.flows[y], s'.flows[y]))
  }

  lemma MovesIsPlain(s: State, s': State, y: Sid)
    requires MovesAt(s, s', y)
    ensures PlainAt(s, s', y)
  {
  }

  lemma OpeningMoves(s: State, s': State, sid: Sid, y: Sid)
    requires List(s, s', sid) || LookupOpen(s, s', sid) || RegisterPromise(s, s', sid)
    ensures MovesAt(s, s', y) == true
  {
    hide Route;
  }

  lemma SendOpenIsPlain(s: State, s': State, sid: Sid, y: Sid)
    requires SendOpen(s, s', sid) || SendOpenFails(s, s', sid)
    requires y in s.flows ==> Staged(ContextOf(s, y))
    ensures PlainAt(s, s', y)
  {
    hide Route, Erase;
  }

  lemma WaitingMoves(s: State, s': State, sid: Sid, y: Sid)
    requires TimeOut(s, s', sid) || Unpend(s, s', sid) || GiveUp(s, s', sid) || Wake(s, s', sid)
    ensures MovesAt(s, s', y) == true
  {
    hide Erase;
  }

  lemma ReadingIsPlain(s: State, s': State, sid: Sid, data: seq<Octet>, y: Sid)
    requires ReadClient(s, s', sid, data) || ReadTarget(s, s', sid, data)
    ensures PlainAt(s, s', y)
  {
    hide From;
  }

  lemma RelayingMoves(s: State, s': State, sid: Sid, y: Sid)
    requires LookupData(s, s', sid) || ClientEof(s, s', sid)
    ensures MovesAt(s, s', y) == true
  {
    hide Route;
  }

  lemma SendDataMoves(s: State, s': State, sid: Sid, y: Sid)
    requires SendData(s, s', sid) || SendDataFails(s, s', sid)
    ensures MovesAt(s, s', y) == true
  {
  }

  lemma SendCloseFlows(s: State, s': State, sid: Sid, fails: bool)
    requires SendClose(s, s', sid, fails)
    ensures sid in s.flows && s'.flows == s.flows[sid := s.flows[sid].(handler := CloseSent)]
  {
  }

  lemma SendCloseMoves(s: State, s': State, sid: Sid, y: Sid, fails: bool)
    requires SendClose(s, s', sid, fails)
    ensures MovesAt(s, s', y) == true
  {
    SendCloseFlows(s, s', sid, fails);
    hide SendClose;
  }

  lemma ClosingMoves(s: State, s': State, sid: Sid, y: Sid)
    requires LookupClose(s, s', sid) || EraseSession(s, s', sid) || CloseClient(s, s', sid)
    ensures MovesAt(s, s', y) == true
  {
    hide Route, Erase;
  }

  lemma AttachHistory(s: State, s': State, sid: Sid, y: Sid)
    requires SetFd(s, s', sid)
    ensures Continues(s, s', y)
  {
    hide SetExternal, Installs, Acknowledges, TakesAck;
  }

  lemma MoveHistory(s: State, s': State, sid: Sid, y: Sid)
    requires HandlerMove(s, s', sid)
    requires y in s.flows ==> Staged(ContextOf(s, y)) == true
    ensures Continues(s, s', y)
  {
    hide Staged, List, LookupOpen, SendOpen, SendOpenFails, RegisterPromise, TimeOut, Unpend, GiveUp, Wake,
         SetFd, ReadClient, LookupData, SendData, SendDataFails, ClientEof, LookupClose, SendClose, EraseSession, CloseClient,
         PlainAt, MovesAt, Caused, ContextOf, Continues;
    if SetFd(s, s', sid) { AttachHistory(s, s', sid, y); }
    else {
      if SendOpen(s, s', sid) || SendOpenFails(s, s', sid) { SendOpenIsPlain(s, s', sid, y); }
      else if data :| ReadClient(s, s', sid, data) { ReadingIsPlain(s, s', sid, data, y); }
      else {
        if List(s, s', sid) || LookupOpen(s, s', sid) || RegisterPromise(s, s', sid) { OpeningMoves(s, s', sid, y); }
        else if TimeOut(s, s', sid) || Unpend(s, s', sid) || GiveUp(s, s', sid) || Wake(s, s', sid) { WaitingMoves(s, s', sid, y); }
        else if LookupData(s, s', sid) || ClientEof(s, s', sid) { RelayingMoves(s, s', sid, y); }
        else if SendData(s, s', sid) || SendDataFails(s, s', sid) { SendDataMoves(s, s', sid, y); }
        else if SendClose(s, s', sid, true) { SendCloseMoves(s, s', sid, y, true); }
        else if SendClose(s, s', sid, false) { SendCloseMoves(s, s', sid, y, false); }
        else { ClosingMoves(s, s', sid, y); }
        MovesIsPlain(s, s', y);
      }
      PlainContinues(s, s', y);
    }
  }

  lemma HandlerHistory(s: State, s': State, sid: Sid, y: Sid)
    requires HandlerStep(s, s', sid)
    requires y in s.flows ==> Staged(ContextOf(s, y)) == true
    ensures Continues(s, s', y) || Restarts(s, s', y)
  {
    hide Staged, Generate, HandlerMove, ContextOf, Continues, Restarts;
    if agent :| Generate(s, s', sid, agent) { GenerateHistory(s, s', sid, agent, y); }
    else { MoveHistory(s, s', sid, y); }
  }

  lemma PlainContinues(s: State, s': State, y: Sid)
    requires PlainAt(s, s', y)
    ensures Continues(s, s', y)
  {
    hide Evolves;
  }

  lemma GenerateHistory(s: State, s': State, sid: Sid, agent: AgentId, y: Sid)
    requires Generate(s, s', sid, agent)
    ensures Continues(s, s', y) || Restarts(s, s', y)
  {
    hide IdUnused;
  }

  lemma LinkIsPlain(s: State, s': State, c: ConnId, y: Sid, toServer: bool)
    requires (exists agent :: Connect(s, s', c, agent)) || SendControl(s, s', c, toServer) || Jam(s, s', c, toServer)
    ensures PlainAt(s, s', y) == true
  {
    hide PlainAt;
    SameRecord(s, s', y);
  }

  lemma RoutesArePlain(s: State, s': State, c: ConnId, y: Sid)
    requires Register(s, s', c) || Leave(s, s', c) || DropSessions(s, s', c) || StopAgents(s, s') || StopSessions(s, s')
    ensures PlainAt(s, s', y) == true
  {
    hide WithoutAgent, PlainAt;
    SameRecord(s, s', y);
  }

  lemma SameRecord(s: State, s': State, y: Sid)
    ensures s'.flows == s.flows ==> PlainAt(s, s', y) == true
  {
  }

  lemma ClientFailsIsPlain(s: State, s': State, c: ConnId, y: Sid)
    requires WriteClientFails(s, s', c) || StopPending(s, s')
    ensures PlainAt(s, s', y)
  {
    hide Erase;
  }

  /** A frame other than an awaited OPEN_ACK; octets are dropped only while no client is attached. */
  lemma FrameIsPlain(s: State, s': State, c: ConnId, y: Sid)
    requires ServerReceive(s, s', c)
    requires y in s.flows ==> Tabled(ContextOf(s, y))
    requires !(s.conns[c].toServer[0] == OpenAckMsg(y) && y in s.pending)
    ensures PlainAt(s, s', y)
  {
    hide Erase;
    var m := s.conns[c].toServer[0];
    if m.OpenAckMsg? && m.sid == y {
      assert s'.flows == s.flows;
    } else if m.DataMsg? && m.sid == y {
      if y in s.flows && y in s.sessions && s.flows[y].fdSet { assert ExternalOf(s.sessions, y).Some?; }
    }
  }

  lemma AckHistory(s: State, s': State, c: ConnId, y: Sid)
    requires ServerReceive(s, s', c) && s.conns[c].toServer[0] == OpenAckMsg(y) && y in s.pending
    ensures Continues(s, s', y)
  {
    hide Installs, Acknowledges, Attaches;
    assert TakesAck(s, s', y);
    hide ServerReceive;
  }

  lemma FrameHistory(s: State, s': State, c: ConnId, y: Sid)
    requires ServerReceive(s, s', c)
    requires y in s.flows ==> Tabled(ContextOf(s, y)) == true
    ensures Continues(s, s', y)
  {
    hide PlainAt, Continues, Tabled, ContextOf;
    if s.conns[c].toServer[0] == OpenAckMsg(y) && y in s.pending {
      AckHistory(s, s', c, y);
    } else {
      FrameIsPlain(s, s', c, y);
      PlainContinues(s, s', y);
    }
  }

  lemma ServerHistory(s: State, s': State, c: ConnId, y: Sid)
    requires ServerStep(s, s', c)
    requires y in s.flows ==> Tabled(ContextOf(s, y)) == true
    ensures Continues(s, s', y)
  {
    hide Connect, Register, ServerReceive, SendControl, Jam, WriteClient, WriteClientFails, Leave, DropSessions,
         StopPending, StopAgents, StopSessions, PlainAt, Continues, Tabled, ContextOf;
    if ServerReceive(s, s', c) {
      FrameHistory(s, s', c, y);
    } else {
      if n :| WriteClient(s, s', c, n) { WritingIsPlain(s, s', c, n, y); }
      else if WriteClientFails(s, s', c) || StopPending(s, s') { ClientFailsIsPlain(s, s', c, y); }
      else if SendControl(s, s', c, true) || Jam(s, s', c, true) { LinkIsPlain(s, s', c, y, true); }
      else if (exists agent :: Connect(s, s', c, agent)) || SendControl(s, s', c, false) || Jam(s, s', c, false) {
        LinkIsPlain(s, s', c, y, false);
      } else { RoutesArePlain(s, s', c, y); }
      PlainContinues(s, s', y);
    }
  }

  lemma ReceivingMoves(s: State, s': State, c: ConnId, y: Sid, accepted: bool)
    requires AgentReceive(s, s', c, accepted)
    ensures MovesAt(s, s', y) == true
  {
  }

  lemma AnsweringMoves(s: State, s': State, c: ConnId, y: Sid, fails: bool)
    requires SendAckFails(s, s', c) || SendRefusal(s, s', c, fails)
    ensures MovesAt(s, s', y) == true
  {
  }

  lemma EndingMoves(s: State, s': State, c: ConnId, y: Sid)
    requires WriteTargetFails(s, s', c) || Join(s, s', c) || AgentDown(s, s', c)
    ensures MovesAt(s, s', y) == true
  {
  }

  lemma WritingIsPlain(s: State, s': State, c: ConnId, n: nat, y: Sid)
    requires WriteTarget(s, s', c, n) || WriteClient(s, s', c, n)
    ensures PlainAt(s, s', y)
  {
  }

  lemma InstallHistory(s: State, s': State, c: ConnId, y: Sid)
    requires Install(s, s', c) || SendAck(s, s', c)
    ensures Continues(s, s', y)
  {
    hide TakesAck, Attaches;
  }

  lemma AgentHistory(s: State, s': State, c: ConnId, y: Sid)
    requires AgentStep(s, s', c)
    ensures Continues(s, s', y)
  {
    hide AgentReceive, Install, SendAck, SendAckFails, SendRefusal, WriteTarget, WriteTargetFails, Join, AgentDown,
         PlainAt, MovesAt, Caused, Continues;
    if Install(s, s', c) || SendAck(s, s', c) {
      InstallHistory(s, s', c, y);
    } else {
      if n :| WriteTarget(s, s', c, n) { WritingIsPlain(s, s', c, n, y); }
      else {
        if AgentReceive(s, s', c, false) { ReceivingMoves(s, s', c, y, false); }
        else if AgentReceive(s, s', c, true) { ReceivingMoves(s, s', c, y, true); }
        else if SendRefusal(s, s', c, true) { AnsweringMoves(s, s', c, y, true); }
        else if SendAckFails(s, s', c) || SendRefusal(s, s', c, false) { AnsweringMoves(s, s', c, y, false); }
        else { EndingMoves(s, s', c, y); }
        MovesIsPlain(s, s', y);
      }
      PlainContinues(s, s', y);
    }
  }

  lemma ReaderSendMoves(s: State, s': State, sid: Sid, y: Sid)
    requires ReaderSend(s, s', sid) || ReaderSendFails(s, s', sid)
    ensures MovesAt(s, s', y) == true
  {
  }

  lemma ReaderEndMoves(s: State, s': State, sid: Sid, y: Sid, goesOut: bool)
    requires TargetEof(s, s', sid) || ReaderClose(s, s', sid, goesOut) || ReaderErase(s, s', sid)
    ensures MovesAt(s, s', y) == true
  {
  }

  lemma ReaderHistory(s: State, s': State, sid: Sid, y: Sid)
    requires ReaderStep(s, s', sid)
    ensures Continues(s, s', y)
  {
    hide ReadTarget, ReaderSend, ReaderSendFails, TargetEof, ReaderClose, ReaderErase, PlainAt, MovesAt, Continues;
    if data :| ReadTarget(s, s', sid, data) { ReadingIsPlain(s, s', sid, data, y); }
    else {
      if ReaderSend(s, s', sid) || ReaderSendFails(s, s', sid) { ReaderSendMoves(s, s', sid, y); }
      else if ReaderClose(s, s', sid, true) { ReaderEndMoves(s, s', sid, y, true); }
      else { ReaderEndMoves(s, s', sid, y, false); }
      MovesIsPlain(s, s', y);
    }
    PlainContinues(s, s', y);
  }

  lemma Parts(s: State, y: Sid)
    requires Inv(s) && y in s.flows
    ensures Staged(ContextOf(s, y)) == true && Tabled(ContextOf(s, y)) == true
  {
    hide Holds, Staged, Tabled, Recorded, Tagged;
    At(s, y, 0);
  }

  /** Across any step but the beginning of a session, every session's record continues. */
  lemma ProceedHistory(s: State, s': State, y: Sid)
    requires Inv(s) && Proceeds(s, s')
    ensures Continues(s, s', y)
  {
    hide Holds, HandlerMove, ServerStep, AgentStep, ReaderStep, Single, Related, Continues;
    if y in s.flows { Parts(s, y); }
    if sid :| HandlerMove(s, s', sid) { MoveHistory(s, s', sid, y); }
    else if c :| ServerStep(s, s', c) { ServerHistory(s, s', c, y); }
    else if c :| AgentStep(s, s', c) { AgentHistory(s, s', c, y); }
    else if sid :| ReaderStep(s, s', sid) { ReaderHistory(s, s', sid, y); }
  }

  /** Across any step, a session's record continues, or its id was unused and has been given out again. */
  lemma StepHistory(s: State, s': State, y: Sid)
    requires Inv(s) && Next(s, s')
    ensures Continues(s, s', y) || Restarts(s, s', y)
  {
    hide Holds, HandlerStep, ServerStep, AgentStep, ReaderStep, Single, Related, Continues, Restarts;
    if y in s.flows { Parts(s, y); }
    if sid :| HandlerStep(s, s', sid) { HandlerHistory(s, s', sid, y); }
    else if c :| ServerStep(s, s', c) { ServerHistory(s, s', c, y); }
    else if c :| AgentStep(s, s', c) { AgentHistory(s, s', c, y); }
    else if sid :| ReaderStep(s, s', sid) { ReaderHistory(s, s', sid, y); }
  }

  // ---- whole runs -------------------------------------------------------------------------------------------

  lemma RunStep(t: seq<State>, i: nat, sid: Sid)
    requires Run(t) && i + 1 < |t|
    ensures Inv(t[i]) && Next(t[i], t[i + 1])
    ensures Continues(t[i], t[i + 1], sid) || Restarts(t[i], t[i + 1], sid)
  {
    RunKeepsInv(t, i);
    hide Holds, Next, Continues, Restarts;
    StepHistory(t[i], t[i + 1], sid);
  }

  lemma EvolvesOn(f: Flow, g: Flow, h: Flow)
    requires Evolves(f, g) && Evolves(g, h)
    ensures Evolves(f, h)
  {
  }

  /** As long as an id is not given out again, the session's record only grows. */
  lemma {:induction false} RecordGrows(t: seq<State>, m: nat, n: nat, sid: Sid)
    requires Run(t) && m <= n < |t| && sid in t[m].flows
    requires forall i :: m <= i < n ==> !Restarts(t[i], t[i + 1], sid)
    ensures sid in t[n].flows && Evolves(t[m].flows[sid], t[n].flows[sid])
    decreases n - m
  {
    if m < n {
      RunStep(t, m, sid);
      hide Run, Restarts, Next, Holds, Caused;
      assert !Restarts(t[m], t[m + 1], sid);
      RecordGrows(t, m + 1, n, sid);
      hide Evolves;
      EvolvesOn(t[m].flows[sid], t[m + 1].flows[sid], t[n].flows[sid]);
    }
  }

  lemma StartIsEmpty(t: seq<State>, sid: Sid)
    requires Run(t)
    ensures sid !in t[0].flows
  {
  }

  /** Every change to a session's flags has its cause, unless the session has just been generated. */
  ghost predicate Explained(s: State, s': State, y: Sid) {
    y in s'.flows ==>
      || (y in s.flows && Caused(s, s', y, s.flows[y], s'.flows[y]))
      || s'.flows[y] == NewFlow(s'.flows[y].agent)
  }

  lemma StepExplained(t: seq<State>, i: nat, sid: Sid)
    requires Run(t) && i + 1 < |t|
    ensures Explained(t[i], t[i + 1], sid)
  {
    RunStep(t, i, sid);
    hide Run, Next, Holds, IdUnused, Evolves, Caused;
  }

  /** Where a flag that is up at n was raised. */
  lemma {:induction false} InstalledSince(t: seq<State>, n: nat, sid: Sid) returns (k: nat)
    requires Run(t) && n < |t| && sid in t[n].flows && t[n].flows[sid].installed
    ensures k < n && Installs(t[k], t[k + 1], sid)
    ensures forall m :: k < m <= n ==> sid in t[m].flows && t[m].flows[sid].installed
  {
    hide Run, Next, Installs, Acknowledges, TakesAck, Attaches;
    StartIsEmpty(t, sid);
    StepExplained(t, n - 1, sid);
    if t[n - 1].flows[sid].installed { k := InstalledSince(t, n - 1, sid); } else { k := n - 1; }
  }

  lemma {:induction false} AckedSince(t: seq<State>, n: nat, sid: Sid) returns (k: nat)
    requires Run(t) && n < |t| && sid in t[n].flows && t[n].flows[sid].acked
    ensures k < n && Acknowledges(t[k], t[k + 1], sid)
    ensures forall m :: k < m <= n ==> sid in t[m].flows && t[m].flows[sid].acked
  {
    hide Run, Next, Installs, Acknowledges, TakesAck, Attaches;
    StartIsEmpty(t, sid);
    StepExplained(t, n - 1, sid);
    if t[n - 1].flows[sid].acked { k := AckedSince(t, n - 1, sid); } else { k := n - 1; }
  }

  lemma {:induction false} SuccessSince(t: seq<State>, n: nat, sid: Sid) returns (k: nat)
    requires Run(t) && n < |t| && sid in t[n].flows && t[n].flows[sid].promise == Success
    ensures k < n && TakesAck(t[k], t[k + 1], sid)
    ensures forall m :: k < m <= n ==> sid in t[m].flows && t[m].flows[sid].promise == Success
  {
    hide Run, Next, Installs, Acknowledges, TakesAck, Attaches;
    StartIsEmpty(t, sid);
    StepExplained(t, n - 1, sid);
    if t[n - 1].flows[sid].promise == Success { k := SuccessSince(t, n - 1, sid); } else { k := n - 1; }
  }

  lemma {:induction false} AttachedSince(t: seq<State>, n: nat, sid: Sid) returns (k: nat)
    requires Run(t) && n < |t| && sid in t[n].flows && t[n].flows[sid].fdSet
    ensures k < n && Attaches(t[k], t[k + 1], sid)
    ensures forall m :: k < m <= n ==> sid in t[m].flows && t[m].flows[sid].fdSet
  {
    hide Run, Next, Installs, Acknowledges, TakesAck, Attaches;
    StartIsEmpty(t, sid);
    StepExplained(t, n - 1, sid);
    if t[n - 1].flows[sid].fdSet { k := AttachedSince(t, n - 1, sid); } else { k := n - 1; }
  }

  lemma AttachNeedsSuccess(s: State, s': State, sid: Sid)
    requires Inv(s) && Attaches(s, s', sid)
    ensures sid in s.flows && s.flows[sid].promise == Success
  {
    hide Holds;
    At(s, sid, 0);
  }

  lemma AckNeedsAcknowledge(s: State, s': State, sid: Sid)
    requires Inv(s) && TakesAck(s, s', sid)
    ensures sid in s.flows && s.flows[sid].acked
  {
    hide Holds;
    var c :| ServerReceive(s, s', c) && s.conns[c].toServer[0] == OpenAckMsg(sid);
    TunnelReceiveSteps.FrameIsKnown(s, c);
    At(s, sid, c);
    hide Single, Forward, Reverse, From;
    assert ViewOf(s.conns[c], sid).outbox[0] == OpenAckMsg(sid);
  }

  lemma AcknowledgeNeedsInstall(s: State, s': State, sid: Sid)
    requires Inv(s) && Acknowledges(s, s', sid)
    ensures sid in s.flows && s.flows[sid].installed
  {
    hide Holds;
    var c :| SendAck(s, s', c) && s.conns[c].main.sid == sid;
    At(s, sid, c);
    hide Single, Forward, Reverse, From;
  }

  /** Four events of one session in their order. */
  ghost predicate InOrder(t: seq<State>, i: nat, j: nat, k: nat, n: nat, sid: Sid) {
    && i < j < k < n < |t|
    && Installs(t[i], t[i + 1], sid) && Acknowledges(t[j], t[j + 1], sid) && TakesAck(t[k], t[k + 1], sid)
    && forall m :: i < m <= n ==> sid in t[m].flows && t[m].flows[sid].installed
  }

  /**
   * The handshake in every run: before the client's thread may relay, the agent has installed the
   * session, has then sent OPEN_ACK, and the server has then taken that OPEN_ACK for the waiter.
   */
  lemma OpeningOrder(t: seq<State>, n: nat, sid: Sid) returns (i: nat, j: nat, k: nat)
    requires Run(t) && n < |t| && sid in t[n].flows && t[n].flows[sid].promise == Success
    ensures InOrder(t, i, j, k, n, sid)
  {
    hide Run, Holds, Next, Installs, Acknowledges, TakesAck;
    k := SuccessSince(t, n, sid);
    RunKeepsInv(t, k);
    AckNeedsAcknowledge(t[k], t[k + 1], sid);
    j := AckedSince(t, k, sid);
    RunKeepsInv(t, j);
    AcknowledgeNeedsInstall(t[j], t[j + 1], sid);
    i := InstalledSince(t, j, sid);
    SuccessIsInstalled(t, i, j, k, n, sid);
  }

  /** The session stays installed in the record from the first event to the last. */
  lemma SuccessIsInstalled(t: seq<State>, i: nat, j: nat, k: nat, n: nat, sid: Sid)
    requires Run(t) && i < j < k < n < |t|
    requires forall m :: i < m <= j ==> sid in t[m].flows && t[m].flows[sid].installed
    requires forall m :: j < m <= k ==> sid in t[m].flows && t[m].flows[sid].acked
    requires forall m :: k < m <= n ==> sid in t[m].flows && t[m].flows[sid].promise == Success
    ensures forall m :: i < m <= n ==> sid in t[m].flows && t[m].flows[sid].installed
  {
    hide Run;
    forall m | j < m <= n ensures sid in t[m].flows && t[m].flows[sid].installed { RecordIsStaged(t, m, sid); }
  }

  lemma RecordIsStaged(t: seq<State>, m: nat, sid: Sid)
    requires Run(t) && m < |t| && sid in t[m].flows
    ensures t[m].flows[sid].promise == Success ==> t[m].flows[sid].acked
    ensures t[m].flows[sid].acked ==> t[m].flows[sid].installed
  {
    RunKeepsInv(t, m);
    hide Run, Holds;
    At(t[m], sid, 0);
  }

  /** A client socket that is attached was attached by its own thread, after the OPEN_ACK had come. */
  lemma AttachOrder(t: seq<State>, n: nat, sid: Sid) returns (k: nat, l: nat)
    requires Run(t) && n < |t| && sid in t[n].sessions && t[n].sessions[sid].external.Some?
    ensures k < l < n && TakesAck(t[k], t[k + 1], sid) && Attaches(t[l], t[l + 1], sid)
    ensures forall m :: l < m <= n ==> sid in t[m].flows && t[m].flows[sid].fdSet
  {
    hide Run, Holds, Next, TakesAck, Attaches;
    AttachFollowsAck(t, n, sid);
    TableIsAttached(t, n, sid);
    l := AttachedSince(t, n, sid);
    RunKeepsInv(t, l);
    AttachNeedsSuccess(t[l], t[l + 1], sid);
    k := SuccessSince(t, l, sid);
  }

  lemma TableIsAttached(t: seq<State>, n: nat, sid: Sid)
    requires Run(t) && n < |t| && sid in t[n].sessions && sid in t[n].flows
    ensures t[n].sessions[sid].external.Some? <==> t[n].flows[sid].fdSet
  {
    RunKeepsInv(t, n);
    hide Run, Holds;
    At(t[n], sid, 0);
  }
}
