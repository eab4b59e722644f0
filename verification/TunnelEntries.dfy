/** What happens to the entries of the server's three tables, `sessions_`, `pending_open_` and `agents_`, in each step. */
module TunnelEntries {
  import opened Results
  import opened Bytes
  import opened TunnelCodec
  import opened TunnelTables
  import opened TunnelSystem

  // ---- what changes an entry ------------------------------------------------------------------------------------

  ghost predicate TakesFrame(s: State, s': State, m: Msg) {
    exists c :: ServerReceive(s, s', c) && s.conns[c].toServer[0] == m
  }

  ghost predicate WriteFails(s: State, s': State, sid: Sid) {
    exists c :: WriteClientFails(s, s', c) && s.conns[c].receiver.sid == sid
  }

  /** `unregister_agent` reaches the sessions of this agent. */
  ghost predicate Unregisters(s: State, s': State, agent: AgentId) {
    exists c :: DropSessions(s, s', c) && s.conns[c].agent == agent
  }

  /**
   * The steps that take a session out of `sessions_`: its own thread, a CLOSE for it, a failed write to
   * its client, the unregistration of its own agent, and stop.
   */
  ghost predicate Removes(s: State, s': State, sid: Sid) {
    || SendOpenFails(s, s', sid) || GiveUp(s, s', sid) || EraseSession(s, s', sid)
    || TakesFrame(s, s', CloseMsg(sid)) || WriteFails(s, s', sid)
    || (sid in s.sessions && Unregisters(s, s', s.sessions[sid].agent))
    || StopSessions(s, s')
  }

  /** An entry of `sessions_` is put in and changed by its own thread only. */
  ghost predicate EntryFollows(s: State, s': State, sid: Sid) {
    && (sid in s.sessions && sid !in s'.sessions ==> Removes(s, s', sid))
    && (sid !in s.sessions && sid in s'.sessions ==> List(s, s', sid))
    && (sid in s.sessions && sid in s'.sessions && s'.sessions[sid] != s.sessions[sid] ==>
          List(s, s', sid) || SetFd(s, s', sid))
  }

  /** An id is put into `pending_open_` by its own thread, and taken out by it, by its OPEN_ACK and by stop. */
  ghost predicate PendingFollows(s: State, s': State, sid: Sid) {
    && (sid !in s.pending && sid in s'.pending ==> RegisterPromise(s, s', sid))
    && (sid in s.pending && sid !in s'.pending ==>
          Unpend(s, s', sid) || TakesFrame(s, s', OpenAckMsg(sid)) || StopPending(s, s'))
  }

  ghost predicate Registers(s: State, s': State, a: AgentId) {
    exists c :: Register(s, s', c) && s.conns[c].agent == a && a in s'.agents && s'.agents[a] == c
  }

  ghost predicate Leaves(s: State, s': State, a: AgentId) {
    exists c :: Leave(s, s', c) && s.conns[c].agent == a
  }

  /** An agent's route is set by its own registration, and taken out by a connection of that agent and by stop. */
  ghost predicate RouteFollows(s: State, s': State, a: AgentId) {
    && (a in s'.agents && !(a in s.agents && s.agents[a] == s'.agents[a]) ==> Registers(s, s', a))
    && (a in s.agents && a !in s'.agents ==> Leaves(s, s', a) || StopAgents(s, s'))
  }

  ghost predicate Follows(s: State, s': State, sid: Sid, a: AgentId) {
    EntryFollows(s, s', sid) && PendingFollows(s, s', sid) && RouteFollows(s, s', a)
  }

  predicate SameTables(s: State, s': State) {
    s'.sessions == s.sessions && s'.pending == s.pending && s'.agents == s.agents
  }

  lemma SameFollows(s: State, s': State, sid: Sid, a: AgentId)
    requires SameTables(s, s')
    ensures Follows(s, s', sid, a)
  {
    hide Removes, List, SetFd, RegisterPromise, Unpend, TakesFrame, StopPending, Registers, Leaves, StopAgents;
  }

  // ---- the steps that change a table ----------------------------------------------------------------------------

  lemma OwnRemovals(s: State, s': State, sid: Sid)
    requires SendOpenFails(s, s', sid) || GiveUp(s, s', sid) || EraseSession(s, s', sid)
    ensures s'.sessions == s.sessions - {sid} && s'.pending == s.pending && s'.agents == s.agents
  {
  }

  lemma ListAdds(s: State, s': State, sid: Sid)
    requires List(s, s', sid)
    ensures sid in s.flows && s'.sessions == s.sessions[sid := Session(s.flows[sid].agent, None)]
    ensures s'.pending == s.pending && s'.agents == s.agents
  {
  }

  lemma SetFdSets(s: State, s': State, sid: Sid)
    requires SetFd(s, s', sid)
    ensures sid !in s.sessions ==> s'.sessions == s.sessions
    ensures sid in s.sessions ==> s'.sessions == s.sessions[sid := Session(s.sessions[sid].agent, Some(sid))]
    ensures s'.pending == s.pending && s'.agents == s.agents
  {
  }

  lemma WaiterSteps(s: State, s': State, sid: Sid)
    requires RegisterPromise(s, s', sid) || Unpend(s, s', sid)
    ensures s'.sessions == s.sessions && s'.agents == s.agents
    ensures s'.pending == if RegisterPromise(s, s', sid) then s.pending + {sid} else s.pending - {sid}
  {
  }

  /** A received frame takes out at most the session that it closes, and at most the waiter that it answers. */
  lemma ReceiveRemoves(s: State, s': State, c: ConnId)
    requires ServerReceive(s, s', c)
    ensures c in s.conns && s.conns[c].toServer != []
    ensures var m := s.conns[c].toServer[0];
            && s'.sessions == (if m.CloseMsg? then s.sessions - {m.sid} else s.sessions)
            && (if m.OpenAckMsg? then s.pending - {m.sid} <= s'.pending <= s.pending else s'.pending == s.pending)
            && s'.agents == s.agents
  {
    hide ExternalOf;
  }

  lemma FailedWriteRemoves(s: State, s': State, c: ConnId)
    requires WriteClientFails(s, s', c)
    ensures c in s.conns && s.conns[c].receiver.Forwarding?
    ensures s'.sessions == s.sessions - {s.conns[c].receiver.sid} && s'.pending == s.pending && s'.agents == s.agents
  {
  }

  /** Unregistering a connection's agent takes out exactly that agent's sessions, and leaves the others as they were. */
  lemma DropSessionsExactly(s: State, s': State, c: ConnId)
    requires DropSessions(s, s', c)
    ensures c in s.conns && s'.pending == s.pending && s'.agents == s.agents
    ensures forall sid :: sid in s'.sessions <==> sid in s.sessions && s.sessions[sid].agent != s.conns[c].agent
    ensures forall sid :: sid in s'.sessions ==> s'.sessions[sid] == s.sessions[sid]
  {
    WithoutAgentIsTheRest(s.sessions, s.conns[c].agent);
    hide WithoutAgent;
  }

  lemma RouteSteps(s: State, s': State, c: ConnId)
    requires Register(s, s', c) || Leave(s, s', c)
    ensures c in s.conns && s'.sessions == s.sessions && s'.pending == s.pending
    ensures s'.agents == if Register(s, s', c) then s.agents[s.conns[c].agent := c] else s.agents - {s.conns[c].agent}
  {
  }

  lemma StopSteps(s: State, s': State)
    requires StopPending(s, s') || StopAgents(s, s') || StopSessions(s, s')
    ensures StopPending(s, s') || s'.pending == s.pending
    ensures StopAgents(s, s') || s'.agents == s.agents
    ensures StopSessions(s, s') || s'.sessions == s.sessions
    ensures s'.pending <= s.pending && s'.agents.Keys <= s.agents.Keys && s'.sessions.Keys <= s.sessions.Keys
    ensures forall a :: a in s'.agents ==> s'.agents[a] == s.agents[a]
    ensures forall k :: k in s'.sessions ==> s'.sessions[k] == s.sessions[k]
  {
  }

  // ---- and after them the entry is gone ---------------------------------------------------------------------------

  lemma FrameRemoves(s: State, s': State, sid: Sid)
    requires TakesFrame(s, s', CloseMsg(sid)) || WriteFails(s, s', sid)
    ensures sid !in s'.sessions
  {
    if TakesFrame(s, s', CloseMsg(sid)) {
      var c :| ServerReceive(s, s', c) && s.conns[c].toServer[0] == CloseMsg(sid);
      ReceiveRemoves(s, s', c);
    } else {
      var c :| WriteClientFails(s, s', c) && s.conns[c].receiver.sid == sid;
      FailedWriteRemoves(s, s', c);
    }
  }

  lemma UnregisteringRemoves(s: State, s': State, sid: Sid)
    requires sid in s.sessions && Unregisters(s, s', s.sessions[sid].agent)
    ensures sid !in s'.sessions
  {
    var c :| DropSessions(s, s', c) && s.conns[c].agent == s.sessions[sid].agent;
    DropSessionsExactly(s, s', c);
  }

  lemma RemovesRemoves(s: State, s': State, sid: Sid)
    requires Removes(s, s', sid) && sid in s.sessions
    ensures sid !in s'.sessions
  {
    hide SendOpenFails, GiveUp, EraseSession, TakesFrame, WriteFails, Unregisters;
    if SendOpenFails(s, s', sid) || GiveUp(s, s', sid) || EraseSession(s, s', sid) { OwnRemovals(s, s', sid); }
    else if TakesFrame(s, s', CloseMsg(sid)) || WriteFails(s, s', sid) { FrameRemoves(s, s', sid); }
    else if Unregisters(s, s', s.sessions[sid].agent) { UnregisteringRemoves(s, s', sid); }
  }

  // ---- step by step ----------------------------------------------------------------------------------------------

  lemma OpeningKeepsTables(s: State, s': State, sid: Sid)
    requires || (exists agent :: Generate(s, s', sid, agent)) || LookupOpen(s, s', sid) || SendOpen(s, s', sid)
             || TimeOut(s, s', sid) || Wake(s, s', sid)
    ensures SameTables(s, s')
  {
    hide Route, IdUnused;
  }

  lemma RelayingKeepsTables(s: State, s': State, sid: Sid)
    requires || (exists data :: ReadClient(s, s', sid, data)) || LookupData(s, s', sid) || SendData(s, s', sid)
             || SendDataFails(s, s', sid)
    ensures SameTables(s, s')
  {
    hide Route, From;
  }

  lemma ClosingKeepsTables(s: State, s': State, sid: Sid)
    requires || ClientEof(s, s', sid) || LookupClose(s, s', sid)
             || SendClose(s, s', sid, false) || SendClose(s, s', sid, true) || CloseClient(s, s', sid)
    ensures SameTables(s, s')
  {
    hide Route;
  }

  lemma HandlerFollows(s: State, s': State, x: Sid, sid: Sid, a: AgentId)
    requires HandlerStep(s, s', x)
    ensures Follows(s, s', sid, a)
  {
    hide Generate, List, LookupOpen, SendOpen, SendOpenFails, RegisterPromise, TimeOut, Unpend, GiveUp, Wake,
         SetFd, ReadClient, LookupData, SendData, SendDataFails, ClientEof, LookupClose, SendClose, EraseSession, CloseClient,
         TakesFrame, WriteFails, Unregisters, Registers, Leaves, StopPending, StopAgents;
    if List(s, s', x) { ListAdds(s, s', x); }
    else if SetFd(s, s', x) { SetFdSets(s, s', x); }
    else if SendOpenFails(s, s', x) || GiveUp(s, s', x) || EraseSession(s, s', x) { OwnRemovals(s, s', x); }
    else if RegisterPromise(s, s', x) || Unpend(s, s', x) { WaiterSteps(s, s', x); }
    else {
      if || (exists agent :: Generate(s, s', x, agent)) || LookupOpen(s, s', x) || SendOpen(s, s', x)
         || TimeOut(s, s', x) || Wake(s, s', x)
      { OpeningKeepsTables(s, s', x); }
      else if || (exists data :: ReadClient(s, s', x, data)) || LookupData(s, s', x) || SendData(s, s', x)
              || SendDataFails(s, s', x)
      { RelayingKeepsTables(s, s', x); }
      else { ClosingKeepsTables(s, s', x); }
      hide SameTables, Follows;
      SameFollows(s, s', sid, a);
    }
  }

  lemma LinksKeepTables(s: State, s': State, c: ConnId)
    requires || (exists agent :: Connect(s, s', c, agent)) || (exists n :: WriteClient(s, s', c, n))
             || SendControl(s, s', c, false) || SendControl(s, s', c, true) || Jam(s, s', c, false) || Jam(s, s', c, true)
    ensures SameTables(s, s')
  {
  }

  lemma ReceiveFollows(s: State, s': State, c: ConnId, sid: Sid, a: AgentId)
    requires ServerReceive(s, s', c)
    ensures Follows(s, s', sid, a)
  {
    ReceiveRemoves(s, s', c);
    hide ServerReceive, List, SetFd, SendOpenFails, GiveUp, EraseSession, RegisterPromise, Unpend, StopPending, StopAgents,
         WriteFails, Unregisters, Registers, Leaves;
    var m := s.conns[c].toServer[0];
    if m == CloseMsg(sid) || m == OpenAckMsg(sid) { assert TakesFrame(s, s', m); }
  }

  lemma FailedWriteFollows(s: State, s': State, c: ConnId, sid: Sid, a: AgentId)
    requires WriteClientFails(s, s', c)
    ensures Follows(s, s', sid, a)
  {
    FailedWriteRemoves(s, s', c);
    hide WriteClientFails, List, SetFd, SendOpenFails, GiveUp, EraseSession, RegisterPromise, Unpend, StopPending, StopAgents,
         TakesFrame, Unregisters, Registers, Leaves;
  }

  lemma DropFollows(s: State, s': State, c: ConnId, sid: Sid, a: AgentId)
    requires DropSessions(s, s', c)
    ensures Follows(s, s', sid, a)
  {
    DropSessionsExactly(s, s', c);
    hide DropSessions, List, SetFd, SendOpenFails, GiveUp, EraseSession, RegisterPromise, Unpend, StopPending, StopAgents,
         TakesFrame, WriteFails, Registers, Leaves;
  }

  lemma RouteStepFollows(s: State, s': State, c: ConnId, sid: Sid, a: AgentId)
    requires Register(s, s', c) || Leave(s, s', c)
    ensures Follows(s, s', sid, a)
  {
    RouteSteps(s, s', c);
    hide Register, Leave, List, SetFd, Removes, RegisterPromise, Unpend, StopPending, StopAgents, TakesFrame;
  }

  lemma StopFollows(s: State, s': State, sid: Sid, a: AgentId)
    requires StopPending(s, s') || StopAgents(s, s') || StopSessions(s, s')
    ensures Follows(s, s', sid, a)
  {
    StopSteps(s, s');
    hide StopPending, StopAgents, StopSessions, List, SetFd, SendOpenFails, GiveUp, EraseSession, RegisterPromise, Unpend,
         TakesFrame, WriteFails, Unregisters, Registers, Leaves;
  }

  lemma ServerFollows(s: State, s': State, c: ConnId, sid: Sid, a: AgentId)
    requires ServerStep(s, s', c)
    ensures Follows(s, s', sid, a)
  {
    hide Connect, Register, ServerReceive, SendControl, Jam, WriteClient, WriteClientFails, Leave, DropSessions,
         StopPending, StopAgents, StopSessions, Follows, SameTables;
    if ServerReceive(s, s', c) { ReceiveFollows(s, s', c, sid, a); }
    else if WriteClientFails(s, s', c) { FailedWriteFollows(s, s', c, sid, a); }
    else if DropSessions(s, s', c) { DropFollows(s, s', c, sid, a); }
    else if Register(s, s', c) || Leave(s, s', c) { RouteStepFollows(s, s', c, sid, a); }
    else if StopPending(s, s') || StopAgents(s, s') || StopSessions(s, s') { StopFollows(s, s', sid, a); }
    else {
      LinksKeepTables(s, s', c);
      SameFollows(s, s', sid, a);
    }
  }

  lemma AgentKeepsTables(s: State, s': State, c: ConnId)
    requires AgentStep(s, s', c)
    ensures SameTables(s, s')
  {
    hide AgentReceive;
    if AgentReceive(s, s', c, false) { TakingKeepsTables(s, s', c, false); }
    else if AgentReceive(s, s', c, true) { TakingKeepsTables(s, s', c, true); }
  }

  lemma TakingKeepsTables(s: State, s': State, c: ConnId, accepted: bool)
    requires AgentReceive(s, s', c, accepted)
    ensures SameTables(s, s')
  {
  }

  lemma ReaderKeepsTables(s: State, s': State, sid: Sid)
    requires ReaderStep(s, s', sid)
    ensures SameTables(s, s')
  {
    hide From;
  }

  lemma StepFollows(s: State, s': State, sid: Sid, a: AgentId)
    requires TunnelSystem.Next(s, s')
    ensures Follows(s, s', sid, a)
  {
    hide HandlerStep, ServerStep, AgentStep, ReaderStep, Follows, SameTables;
    if x :| HandlerStep(s, s', x) { HandlerFollows(s, s', x, sid, a); }
    else if c :| ServerStep(s, s', c) { ServerFollows(s, s', c, sid, a); }
    else {
      if c :| AgentStep(s, s', c) { AgentKeepsTables(s, s', c); }
      else if x :| ReaderStep(s, s', x) { ReaderKeepsTables(s, s', x); }
      SameFollows(s, s', sid, a);
    }
  }

  // ---- in every run ------------------------------------------------------------------------------------------------

  /**
   * A session's entry leaves the table exactly by one of the steps that remove it; it comes in by its
   * own thread alone, and is changed by its own thread alone.
   */
  lemma EntriesLeave(t: seq<State>, n: nat, sid: Sid)
    requires Run(t) && n + 1 < |t|
    ensures sid in t[n].sessions ==> (sid !in t[n + 1].sessions <==> Removes(t[n], t[n + 1], sid))
    ensures sid !in t[n].sessions && sid in t[n + 1].sessions ==> List(t[n], t[n + 1], sid)
    ensures sid in t[n].sessions && sid in t[n + 1].sessions && t[n + 1].sessions[sid] != t[n].sessions[sid] ==>
              List(t[n], t[n + 1], sid) || SetFd(t[n], t[n + 1], sid)
  {
    hide TunnelSystem.Next, Removes, SetFd, List, PendingFollows, RouteFollows;
    StepFollows(t[n], t[n + 1], sid, "");
    if sid in t[n].sessions && Removes(t[n], t[n + 1], sid) { RemovesRemoves(t[n], t[n + 1], sid); }
  }

  /** Waiters and routes come and go by their own threads and connections, by the awaited frame, and by stop. */
  lemma WaitersAndRoutesFollow(t: seq<State>, n: nat, sid: Sid, a: AgentId)
    requires Run(t) && n + 1 < |t|
    ensures PendingFollows(t[n], t[n + 1], sid) && RouteFollows(t[n], t[n + 1], a)
  {
    hide TunnelSystem.Next, EntryFollows, PendingFollows, RouteFollows;
    StepFollows(t[n], t[n + 1], sid, a);
  }
}
