/** What happens to a connection's descriptor at the server and to its agent's table of sessions, step by step. */
module TunnelLinks {
  import opened Results
  import opened Bytes
  import opened TunnelCodec
  import opened TunnelTables
  import opened TunnelSystem

  /** A newcomer for the same agent takes the connection's place, or the server stops while it is registered. */
  ghost predicate Shuts(s: State, s': State, d: ConnId) {
    || (exists c :: Replaces(s, s', c, d))
    || (StopAgents(s, s') && d in s.agents.Values)
  }

  ghost predicate Replaces(s: State, s': State, c: ConnId, d: ConnId) {
    Register(s, s', c) && c != d && s.conns[c].agent in s.agents && s.agents[s.conns[c].agent] == d
  }

  /** The main thread of the agent takes the session out: for a CLOSE, a failed OPEN_ACK or a failed write. */
  ghost predicate TakesOut(s: State, s': State, d: ConnId, sid: Sid) {
    || ((AgentReceive(s, s', d, false) || AgentReceive(s, s', d, true)) && s.conns[d].toAgent[0] == CloseMsg(sid))
    || FailsFor(s, s', d, sid)
  }

  ghost predicate FailsFor(s: State, s': State, d: ConnId, sid: Sid) {
    (SendAckFails(s, s', d) || WriteTargetFails(s, s', d)) && s.conns[d].main.sid == sid
  }

  /** The session's reader takes it out of the table of the agent's current connection. */
  ghost predicate ReaderTakesOut(s: State, s': State, d: ConnId, sid: Sid) {
    ReaderErase(s, s', sid) && s.flows[sid].agent in s.current && s.current[s.flows[sid].agent] == d
  }

  ghost predicate Installs(s: State, s': State, d: ConnId, sid: Sid) {
    Install(s, s', d) && s.conns[d].main.sid == sid
  }

  /** The descriptor is closed exactly by such steps. */
  ghost predicate FdFollows(s: State, s': State, d: ConnId) {
    d in s.conns ==>
      && d in s'.conns
      && (s'.conns[d].fdOpen <==> s.conns[d].fdOpen && !Shuts(s, s', d))
  }

  /** The entry comes and goes exactly by such steps; whoever of the main thread takes it out waits for its reader. */
  ghost predicate HeldFollows(s: State, s': State, d: ConnId, sid: Sid) {
    d in s.conns ==>
      && d in s'.conns
      && var k, k' := s.conns[d], s'.conns[d];
         && (sid !in k.held ==> (sid in k'.held <==> Installs(s, s', d, sid)))
         && (sid in k.held ==>
               (sid !in k'.held <==> TakesOut(s, s', d, sid) || ReaderTakesOut(s, s', d, sid) || AgentDown(s, s', d)))
         && (k.main != Joining(sid) ==> (k'.main == Joining(sid) <==> sid in k.held && TakesOut(s, s', d, sid)))
         && (k.main == Joining(sid) && k'.main != k.main ==> sid in s.flows && s.flows[sid].reader == Ended)
  }

  predicate SameLink(s: State, s': State, d: ConnId) {
    d in s.conns ==>
      d in s'.conns && s'.conns[d].fdOpen == s.conns[d].fdOpen && s'.conns[d].held == s.conns[d].held
      && s'.conns[d].main == s.conns[d].main
  }

  ghost predicate LinkFollows(s: State, s': State, d: ConnId, sid: Sid) {
    FdFollows(s, s', d) && HeldFollows(s, s', d, sid)
  }

  // ---- single steps of an agent -----------------------------------------------------------------------------

  lemma ReceivingOpen(s: State, s': State, c: ConnId, accepted: bool)
    requires AgentReceive(s, s', c, accepted) && s.conns[c].toAgent[0].OpenMsg?
    ensures c in s'.conns && s'.conns[c].fdOpen == s.conns[c].fdOpen
    ensures s'.conns[c].held == s.conns[c].held && !s'.conns[c].main.Joining?
  {
  }

  lemma ReceivingControl(s: State, s': State, c: ConnId, accepted: bool)
    requires AgentReceive(s, s', c, accepted) && (s.conns[c].toAgent[0].Control? || s.conns[c].toAgent[0].OpenAckMsg?)
    ensures c in s'.conns && s'.conns[c].fdOpen == s.conns[c].fdOpen
    ensures s'.conns[c].held == s.conns[c].held && !s'.conns[c].main.Joining?
  {
  }

  lemma ReceivingData(s: State, s': State, c: ConnId, accepted: bool)
    requires AgentReceive(s, s', c, accepted) && s.conns[c].toAgent[0].DataMsg?
    ensures c in s'.conns && s'.conns[c].fdOpen == s.conns[c].fdOpen
    ensures s'.conns[c].held == s.conns[c].held && !s'.conns[c].main.Joining?
  {
  }

  lemma ReceivingClose(s: State, s': State, c: ConnId, accepted: bool)
    requires AgentReceive(s, s', c, accepted) && s.conns[c].toAgent[0].CloseMsg?
    ensures c in s'.conns && s'.conns[c].fdOpen == s.conns[c].fdOpen
    ensures var k, k', sid := s.conns[c], s'.conns[c], s.conns[c].toAgent[0].sid;
            if sid in k.held then k'.held == k.held - {sid} && k'.main == Joining(sid)
            else k'.held == k.held && !k'.main.Joining?
  {
  }

  /** Taking a frame: a CLOSE for a session in the table takes it out, and the main thread waits for its reader. */
  lemma Receiving(s: State, s': State, c: ConnId, accepted: bool)
    requires AgentReceive(s, s', c, accepted)
    ensures c in s.conns && s.conns[c].toAgent != [] && c in s'.conns && s'.conns[c].fdOpen == s.conns[c].fdOpen
    ensures !s.conns[c].main.Joining?
    ensures var k, k', m := s.conns[c], s'.conns[c], s.conns[c].toAgent[0];
            if m.CloseMsg? && m.sid in k.held then k'.held == k.held - {m.sid} && k'.main == Joining(m.sid)
            else k'.held == k.held && !k'.main.Joining?
  {
    ReceivingStarts(s, s', c, accepted);
    hide AgentReceive;
    if s.conns[c].toAgent[0].CloseMsg? { ReceivingClose(s, s', c, accepted); }
    else if s.conns[c].toAgent[0].DataMsg? { ReceivingData(s, s', c, accepted); }
    else if s.conns[c].toAgent[0].OpenMsg? { ReceivingOpen(s, s', c, accepted); }
    else { ReceivingControl(s, s', c, accepted); }
  }

  lemma ReceivingStarts(s: State, s': State, c: ConnId, accepted: bool)
    requires AgentReceive(s, s', c, accepted)
    ensures c in s.conns && s.conns[c].toAgent != [] && !s.conns[c].main.Joining?
  {
  }

  /** A failed OPEN_ACK or write does the same. */
  lemma Failing(s: State, s': State, c: ConnId)
    requires SendAckFails(s, s', c) || WriteTargetFails(s, s', c)
    ensures c in s.conns && c in s'.conns && s'.conns[c].fdOpen == s.conns[c].fdOpen
    ensures var k, k' := s.conns[c], s'.conns[c];
            && (k.main.Acking? || k.main.Writing?)
            && k'.held == k.held - {k.main.sid}
            && k'.main == if k.main.sid in k.held then Joining(k.main.sid) else Serving
  {
  }

  lemma Installing(s: State, s': State, c: ConnId)
    requires Install(s, s', c)
    ensures c in s.conns && c in s'.conns && s'.conns[c].fdOpen == s.conns[c].fdOpen
    ensures var k, k' := s.conns[c], s'.conns[c];
            k.main.Opening? && k'.held == k.held[k.main.sid := k.main.sid] && !k'.main.Joining?
  {
  }

  lemma Ending(s: State, s': State, c: ConnId)
    requires Join(s, s', c) || AgentDown(s, s', c)
    ensures c in s.conns && c in s'.conns && s'.conns[c].fdOpen == s.conns[c].fdOpen
    ensures var k, k' := s.conns[c], s'.conns[c];
            if AgentDown(s, s', c) then k'.held == map[] && k'.main == k.main && !k.main.Joining?
            else && k'.held == k.held && k.main.Joining? && k'.main == Serving
                 && k.main.sid in s.flows && s.flows[k.main.sid].reader == Ended
  {
  }

  lemma Sending(s: State, s': State, c: ConnId)
    requires SendAck(s, s', c) || SendRefusal(s, s', c, false) || SendRefusal(s, s', c, true)
    ensures c in s.conns && c in s'.conns && s'.conns[c].fdOpen == s.conns[c].fdOpen && s'.conns[c].held == s.conns[c].held
    ensures !s.conns[c].main.Joining? && !s'.conns[c].main.Joining?
  {
  }

  lemma Writing(s: State, s': State, c: ConnId, n: nat)
    requires WriteTarget(s, s', c, n)
    ensures c in s.conns && c in s'.conns && s'.conns[c].fdOpen == s.conns[c].fdOpen && s'.conns[c].held == s.conns[c].held
    ensures !s.conns[c].main.Joining? && !s'.conns[c].main.Joining?
  {
  }

  lemma Erasing(s: State, s': State, x: Sid, d: ConnId)
    requires ReaderErase(s, s', x) && d in s.conns
    ensures d in s'.conns && s'.conns[d].fdOpen == s.conns[d].fdOpen && s'.conns[d].main == s.conns[d].main
    ensures x in s.flows && s'.conns[d].held ==
            if s.flows[x].agent in s.current && s.current[s.flows[x].agent] == d then s.conns[d].held - {x} else s.conns[d].held
  {
  }

  // ---- what the named steps do ------------------------------------------------------------------------------

  lemma ShutsShut(s: State, s': State, d: ConnId)
    requires d in s.conns && Shuts(s, s', d)
    ensures d in s'.conns && s'.conns[d] == s.conns[d].(fdOpen := false)
  {
  }

  lemma TakesOutTakes(s: State, s': State, d: ConnId, sid: Sid)
    requires d in s.conns && TakesOut(s, s', d, sid)
    ensures d in s'.conns && s'.conns[d].fdOpen == s.conns[d].fdOpen && !s.conns[d].main.Joining?
    ensures sid !in s'.conns[d].held && (s'.conns[d].main == Joining(sid) <==> sid in s.conns[d].held)
  {
    hide AgentReceive, SendAckFails, WriteTargetFails;
    if FailsFor(s, s', d, sid) { Failing(s, s', d); }
    else if AgentReceive(s, s', d, false) { Receiving(s, s', d, false); }
    else { Receiving(s, s', d, true); }
  }

  lemma OthersTake(s: State, s': State, d: ConnId, sid: Sid)
    requires d in s.conns
    ensures ReaderTakesOut(s, s', d, sid) ==> d in s'.conns && sid !in s'.conns[d].held
    ensures AgentDown(s, s', d) ==> d in s'.conns && sid !in s'.conns[d].held
    ensures Installs(s, s', d, sid) ==> d in s'.conns && sid in s'.conns[d].held
  {
    hide ReaderErase, AgentDown, Install, Join;
    if ReaderTakesOut(s, s', d, sid) { Erasing(s, s', sid, d); }
    if AgentDown(s, s', d) { Ending(s, s', d); }
    if Installs(s, s', d, sid) { Installing(s, s', d); }
  }

  /** What remains to be shown of a step: that it changes nothing that the named steps do not. */
  ghost predicate Explained(s: State, s': State, d: ConnId, sid: Sid) {
    d in s.conns ==>
      && d in s'.conns
      && var k, k' := s.conns[d], s'.conns[d];
         && (k'.fdOpen != k.fdOpen ==> k.fdOpen && Shuts(s, s', d))
         && (sid !in k.held && sid in k'.held ==> Installs(s, s', d, sid))
         && (sid in k.held && sid !in k'.held ==> TakesOut(s, s', d, sid) || ReaderTakesOut(s, s', d, sid) || AgentDown(s, s', d))
         && (k.main != Joining(sid) && k'.main == Joining(sid) ==> TakesOut(s, s', d, sid))
         && (k.main == Joining(sid) && k'.main != k.main ==> sid in s.flows && s.flows[sid].reader == Ended)
  }

  lemma ExplainedFollows(s: State, s': State, d: ConnId, sid: Sid)
    requires Explained(s, s', d, sid)
    ensures LinkFollows(s, s', d, sid)
  {
    hide Shuts, TakesOut, ReaderTakesOut, AgentDown, Installs;
    if d in s.conns {
      OthersTake(s, s', d, sid);
      if Shuts(s, s', d) { ShutsShut(s, s', d); }
      if TakesOut(s, s', d, sid) { TakesOutTakes(s, s', d, sid); }
    }
  }

  lemma SameLinkFollows(s: State, s': State, d: ConnId, sid: Sid)
    requires SameLink(s, s', d)
    ensures LinkFollows(s, s', d, sid)
  {
    hide Shuts, TakesOut, ReaderTakesOut, AgentDown, Installs, LinkFollows;
    ExplainedFollows(s, s', d, sid);
  }

  // ---- the threads of clients -------------------------------------------------------------------------------

  lemma ListingKeepsLinks(s: State, s': State, x: Sid)
    requires (exists agent :: Generate(s, s', x, agent)) || List(s, s', x) || LookupOpen(s, s', x) || SetFd(s, s', x)
    ensures s'.conns == s.conns
  {
    hide Route, IdUnused, SetExternal;
  }

  lemma WaitingKeepsLinks(s: State, s': State, x: Sid)
    requires || RegisterPromise(s, s', x) || TimeOut(s, s', x) || Unpend(s, s', x) || GiveUp(s, s', x) || Wake(s, s', x)
    ensures s'.conns == s.conns
  {
  }

  lemma RelayingKeepsLinks(s: State, s': State, x: Sid)
    requires || (exists data :: ReadClient(s, s', x, data)) || LookupData(s, s', x) || ClientEof(s, s', x)
             || LookupClose(s, s', x) || EraseSession(s, s', x) || CloseClient(s, s', x)
    ensures s'.conns == s.conns
  {
    hide Route, From;
  }

  lemma OpeningKeepsLinks(s: State, s': State, x: Sid, d: ConnId)
    requires SendOpen(s, s', x) || SendOpenFails(s, s', x)
    ensures SameLink(s, s', d)
  {
  }

  lemma DataKeepsLinks(s: State, s': State, x: Sid, d: ConnId)
    requires SendData(s, s', x) || SendDataFails(s, s', x)
    ensures SameLink(s, s', d)
  {
  }

  lemma ClosingKeepsLinks(s: State, s': State, x: Sid, d: ConnId, fails: bool)
    requires SendClose(s, s', x, fails)
    ensures SameLink(s, s', d)
  {
  }

  lemma HandlerKeepsLinks(s: State, s': State, x: Sid, d: ConnId)
    requires HandlerStep(s, s', x)
    ensures SameLink(s, s', d)
  {
    hide Generate, List, LookupOpen, SendOpen, SendOpenFails, RegisterPromise, TimeOut, Unpend, GiveUp, Wake,
         SetFd, ReadClient, LookupData, SendData, SendDataFails, ClientEof, LookupClose, SendClose, EraseSession, CloseClient;
    if SendOpen(s, s', x) || SendOpenFails(s, s', x) { OpeningKeepsLinks(s, s', x, d); }
    else if SendData(s, s', x) || SendDataFails(s, s', x) { DataKeepsLinks(s, s', x, d); }
    else if SendClose(s, s', x, false) { ClosingKeepsLinks(s, s', x, d, false); }
    else if SendClose(s, s', x, true) { ClosingKeepsLinks(s, s', x, d, true); }
    else if || (exists data :: ReadClient(s, s', x, data)) || LookupData(s, s', x) || ClientEof(s, s', x)
            || LookupClose(s, s', x) || EraseSession(s, s', x) || CloseClient(s, s', x)
    { RelayingKeepsLinks(s, s', x); }
    else if (exists agent :: Generate(s, s', x, agent)) || List(s, s', x) || LookupOpen(s, s', x) || SetFd(s, s', x)
    { ListingKeepsLinks(s, s', x); }
    else { WaitingKeepsLinks(s, s', x); }
  }

  // ---- the server -------------------------------------------------------------------------------------------

  lemma ConnectingKeepsLinks(s: State, s': State, c: ConnId, d: ConnId)
    requires exists agent :: Connect(s, s', c, agent)
    ensures SameLink(s, s', d)
  {
  }

  lemma LeavingKeepsLinks(s: State, s': State, c: ConnId, d: ConnId)
    requires Leave(s, s', c) || DropSessions(s, s', c)
    ensures SameLink(s, s', d)
  {
    hide WithoutAgent;
  }

  lemma ControlKeepsLinks(s: State, s': State, c: ConnId, d: ConnId, toServer: bool)
    requires SendControl(s, s', c, toServer) || Jam(s, s', c, toServer)
    ensures SameLink(s, s', d)
  {
  }

  lemma WritingKeepsLinks(s: State, s': State, c: ConnId, d: ConnId)
    requires (exists n :: WriteClient(s, s', c, n)) || WriteClientFails(s, s', c)
    ensures SameLink(s, s', d)
  {
  }

  lemma StoppingKeepsLinks(s: State, s': State, d: ConnId)
    requires StopPending(s, s') || StopSessions(s, s')
    ensures SameLink(s, s', d)
  {
  }

  lemma DataArrives(s: State, s': State, c: ConnId, d: ConnId)
    requires ServerReceive(s, s', c) && s.conns[c].toServer[0].DataMsg?
    requires ExternalOf(s.sessions, s.conns[c].toServer[0].sid).Some?
    ensures SameLink(s, s', d)
  {
    hide ExternalOf;
  }

  lemma DataIsDropped(s: State, s': State, c: ConnId, d: ConnId)
    requires ServerReceive(s, s', c) && s.conns[c].toServer[0].DataMsg?
    requires ExternalOf(s.sessions, s.conns[c].toServer[0].sid).None?
    ensures SameLink(s, s', d)
  {
    hide ExternalOf;
  }

  lemma OthersArrive(s: State, s': State, c: ConnId, d: ConnId)
    requires ServerReceive(s, s', c) && !s.conns[c].toServer[0].DataMsg?
    ensures SameLink(s, s', d)
  {
    hide ExternalOf;
  }

  lemma ReceivingKeepsLinks(s: State, s': State, c: ConnId, d: ConnId)
    requires ServerReceive(s, s', c)
    ensures SameLink(s, s', d)
  {
    assert c in s.conns && s.conns[c].toServer != [];
    hide ServerReceive, SameLink, ExternalOf;
    var m := s.conns[c].toServer[0];
    if m.DataMsg? {
      if ExternalOf(s.sessions, m.sid).Some? { DataArrives(s, s', c, d); } else { DataIsDropped(s, s', c, d); }
    } else {
      OthersArrive(s, s', c, d);
    }
  }

  /** Registration and stop close the descriptors of `Shuts` and nothing else. */
  lemma ShuttingExplained(s: State, s': State, c: ConnId, d: ConnId, sid: Sid)
    requires Register(s, s', c) || StopAgents(s, s')
    ensures Explained(s, s', d, sid)
  {
    if d in s.conns && Register(s, s', c) && s'.conns[d].fdOpen != s.conns[d].fdOpen { assert Replaces(s, s', c, d); }
    hide TakesOut, ReaderTakesOut, AgentDown, Installs;
  }

  lemma ServerFollows(s: State, s': State, c: ConnId, d: ConnId, sid: Sid)
    requires ServerStep(s, s', c)
    ensures LinkFollows(s, s', d, sid)
  {
    hide Connect, Register, ServerReceive, SendControl, Jam, WriteClient, WriteClientFails, Leave, DropSessions,
         StopPending, StopAgents, StopSessions, LinkFollows, SameLink, Explained;
    if Register(s, s', c) || StopAgents(s, s') {
      ShuttingExplained(s, s', c, d, sid);
      ExplainedFollows(s, s', d, sid);
    } else {
      if ServerReceive(s, s', c) { ReceivingKeepsLinks(s, s', c, d); }
      else if SendControl(s, s', c, false) || Jam(s, s', c, false) { ControlKeepsLinks(s, s', c, d, false); }
      else if SendControl(s, s', c, true) || Jam(s, s', c, true) { ControlKeepsLinks(s, s', c, d, true); }
      else if (exists n :: WriteClient(s, s', c, n)) || WriteClientFails(s, s', c) { WritingKeepsLinks(s, s', c, d); }
      else if exists agent :: Connect(s, s', c, agent) { ConnectingKeepsLinks(s, s', c, d); }
      else if Leave(s, s', c) || DropSessions(s, s', c) { LeavingKeepsLinks(s, s', c, d); }
      else { StoppingKeepsLinks(s, s', d); }
      SameLinkFollows(s, s', d, sid);
    }
  }

  // ---- the agent --------------------------------------------------------------------------------------------

  lemma OthersOpen(s: State, s': State, c: ConnId, accepted: bool, d: ConnId)
    requires AgentReceive(s, s', c, accepted) && d != c && s.conns[c].toAgent[0].OpenMsg?
    ensures SameLink(s, s', d)
  {
  }

  lemma OthersTakeIn(s: State, s': State, c: ConnId, accepted: bool, d: ConnId)
    requires AgentReceive(s, s', c, accepted) && d != c && !s.conns[c].toAgent[0].OpenMsg?
    ensures SameLink(s, s', d)
  {
  }

  lemma OthersReceive(s: State, s': State, c: ConnId, accepted: bool, d: ConnId)
    requires AgentReceive(s, s', c, accepted) && d != c
    ensures SameLink(s, s', d)
  {
    ReceivingStarts(s, s', c, accepted);
    hide AgentReceive, SameLink;
    if s.conns[c].toAgent[0].OpenMsg? { OthersOpen(s, s', c, accepted, d); } else { OthersTakeIn(s, s', c, accepted, d); }
  }

  lemma OthersWork(s: State, s': State, c: ConnId, d: ConnId)
    requires (Install(s, s', c) || SendAck(s, s', c) || SendAckFails(s, s', c)) && d != c
    ensures SameLink(s, s', d)
  {
  }

  lemma OthersEnd(s: State, s': State, c: ConnId, d: ConnId)
    requires (Join(s, s', c) || AgentDown(s, s', c)) && d != c
    ensures SameLink(s, s', d)
  {
  }

  lemma OthersRefuse(s: State, s': State, c: ConnId, d: ConnId)
    requires (SendRefusal(s, s', c, false) || SendRefusal(s, s', c, true)) && d != c
    ensures SameLink(s, s', d)
  {
  }

  lemma OthersWrite(s: State, s': State, c: ConnId, d: ConnId)
    requires ((exists n :: WriteTarget(s, s', c, n)) || WriteTargetFails(s, s', c)) && d != c
    ensures SameLink(s, s', d)
  {
  }

  lemma OtherAgents(s: State, s': State, c: ConnId, d: ConnId)
    requires AgentStep(s, s', c) && d != c
    ensures SameLink(s, s', d)
  {
    hide AgentReceive, Install, SendAck, SendAckFails, SendRefusal, WriteTarget, WriteTargetFails, Join, AgentDown, SameLink;
    if AgentReceive(s, s', c, false) { OthersReceive(s, s', c, false, d); }
    else if AgentReceive(s, s', c, true) { OthersReceive(s, s', c, true, d); }
    else if Install(s, s', c) || SendAck(s, s', c) || SendAckFails(s, s', c) { OthersWork(s, s', c, d); }
    else if Join(s, s', c) || AgentDown(s, s', c) { OthersEnd(s, s', c, d); }
    else if SendRefusal(s, s', c, false) || SendRefusal(s, s', c, true) { OthersRefuse(s, s', c, d); }
    else { OthersWrite(s, s', c, d); }
  }

  lemma AgentExplained(s: State, s': State, c: ConnId, sid: Sid)
    requires AgentStep(s, s', c)
    ensures Explained(s, s', c, sid)
  {
    hide AgentReceive, Install, SendAck, SendAckFails, SendRefusal, WriteTarget, WriteTargetFails, Join, AgentDown,
         Shuts, ReaderTakesOut;
    if AgentReceive(s, s', c, false) { Receiving(s, s', c, false); }
    else if AgentReceive(s, s', c, true) { Receiving(s, s', c, true); }
    else if Install(s, s', c) { Installing(s, s', c); }
    else if SendAckFails(s, s', c) || WriteTargetFails(s, s', c) { Failing(s, s', c); }
    else if Join(s, s', c) || AgentDown(s, s', c) { Ending(s, s', c); }
    else if n :| WriteTarget(s, s', c, n) { Writing(s, s', c, n); }
    else { Sending(s, s', c); }
  }

  lemma AgentFollows(s: State, s': State, c: ConnId, d: ConnId, sid: Sid)
    requires AgentStep(s, s', c)
    ensures LinkFollows(s, s', d, sid)
  {
    hide LinkFollows, SameLink, AgentStep, Explained;
    if d != c {
      OtherAgents(s, s', c, d);
      SameLinkFollows(s, s', d, sid);
    } else {
      AgentExplained(s, s', d, sid);
      ExplainedFollows(s, s', d, sid);
    }
  }

  // ---- the readers ------------------------------------------------------------------------------------------

  lemma ReadersKeepLinks(s: State, s': State, x: Sid, d: ConnId)
    requires || (exists data :: ReadTarget(s, s', x, data)) || ReaderSend(s, s', x) || TargetEof(s, s', x)
    ensures SameLink(s, s', d)
  {
    hide From;
  }

  lemma ReadersEndKeepsLinks(s: State, s': State, x: Sid, d: ConnId)
    requires ReaderSendFails(s, s', x) || ReaderClose(s, s', x, false) || ReaderClose(s, s', x, true)
    ensures SameLink(s, s', d)
  {
  }

  lemma ErasingExplained(s: State, s': State, x: Sid, d: ConnId, sid: Sid)
    requires ReaderErase(s, s', x)
    ensures Explained(s, s', d, sid)
  {
    if d in s.conns { Erasing(s, s', x, d); }
    hide ReaderErase, Shuts, TakesOut, AgentDown, Installs;
  }

  lemma ReaderFollows(s: State, s': State, x: Sid, d: ConnId, sid: Sid)
    requires ReaderStep(s, s', x)
    ensures LinkFollows(s, s', d, sid)
  {
    hide ReadTarget, ReaderSend, ReaderSendFails, TargetEof, ReaderClose, ReaderErase, LinkFollows, SameLink, Explained;
    if ReaderErase(s, s', x) {
      ErasingExplained(s, s', x, d, sid);
      ExplainedFollows(s, s', d, sid);
    } else {
      if ReaderSendFails(s, s', x) || ReaderClose(s, s', x, false) || ReaderClose(s, s', x, true)
      { ReadersEndKeepsLinks(s, s', x, d); }
      else { ReadersKeepLinks(s, s', x, d); }
      SameLinkFollows(s, s', d, sid);
    }
  }

  // ---- in every run -----------------------------------------------------------------------------------------

  lemma StepFollows(s: State, s': State, d: ConnId, sid: Sid)
    requires TunnelSystem.Next(s, s')
    ensures LinkFollows(s, s', d, sid)
  {
    hide HandlerStep, ServerStep, AgentStep, ReaderStep, LinkFollows, SameLink;
    if x :| HandlerStep(s, s', x) {
      HandlerKeepsLinks(s, s', x, d);
      SameLinkFollows(s, s', d, sid);
    } else if c :| ServerStep(s, s', c) {
      ServerFollows(s, s', c, d, sid);
    } else if c :| AgentStep(s, s', c) {
      AgentFollows(s, s', c, d, sid);
    } else {
      var x :| ReaderStep(s, s', x);
      ReaderFollows(s, s', x, d, sid);
    }
  }

  /**
   * A connection's descriptor is closed at the server exactly when a newcomer for the same agent
   * registers or the server stops while the connection is registered, and it is never open again.
   */
  lemma DescriptorsClose(t: seq<State>, n: nat, d: ConnId)
    requires Run(t) && n + 1 < |t| && d in t[n].conns
    ensures d in t[n + 1].conns
    ensures t[n + 1].conns[d].fdOpen <==> t[n].conns[d].fdOpen && !Shuts(t[n], t[n + 1], d)
  {
    hide TunnelSystem.Next, Shuts, HeldFollows;
    StepFollows(t[n], t[n + 1], d, 1);
  }

  /**
   * A session comes into an agent's table by its installation alone and leaves it exactly by a CLOSE, a
   * failed OPEN_ACK or write, its own reader's end or the loss of the connection; the main thread
   * waits for the reader exactly of the session it has taken out, and until that reader has ended.
   */
  lemma SessionsAreJoined(t: seq<State>, n: nat, d: ConnId, sid: Sid)
    requires Run(t) && n + 1 < |t|
    ensures HeldFollows(t[n], t[n + 1], d, sid)
  {
    hide TunnelSystem.Next, FdFollows, HeldFollows;
    StepFollows(t[n], t[n + 1], d, sid);
  }
}
