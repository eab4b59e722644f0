/**
 * The reverse tunnel as a state machine: one server, any number of agents, any number of sessions
 * multiplexed over each agent's connection, any number of reconnections. A step is one locked
 * section or one socket call of one thread (`tunnel_server.cpp`, `tunnel_agent.cpp`); clients,
 * targets and the scheduler choose freely among the steps that are possible.
 */
module TunnelSystem {
  import opened Results
  import opened Bytes
  import opened TunnelCodec
  import opened TunnelTables

  type Sid = u32
  type ConnId = nat

  /** Where an octet was read: from a session's external client or from its target. */
  datatype Origin = Client(sid: Sid) | Target(sid: Sid)
  datatype Octet = Octet(value: byte, origin: Origin)

  /** The frames the two nodes exchange; Control stands for HELLO_ACK, HEARTBEAT and its answer. */
  datatype Msg = Control
               | OpenMsg(sid: Sid)
               | OpenAckMsg(sid: Sid)
               | DataMsg(sid: Sid, payload: seq<Octet>)
               | CloseMsg(sid: Sid)

  // ---- threads ------------------------------------------------------------------------------

  /** The thread of one external client (`handle_external_connection`, `connect_via_tunnel`). */
  datatype Handler = Generated                 // has an id, not yet in sessions_
                   | Listed                    // in sessions_
                   | SendingOpen(via: ConnId)  // has looked up the connection
                   | OpenSent
                   | Waiting                   // promise registered
                   | TimedOut                  // wait_for gave up
                   | Unpended                  // and the promise has been erased
                   | Acked                     // the future is ready
                   | Relaying                  // about to recv from the client
                   | Holding(data: seq<Octet>)               // has read from the client
                   | Sending(via: ConnId, data: seq<Octet>)  // and has looked up the connection
                   | Closing
                   | SendingClose(via: ConnId)
                   | CloseSent
                   | Erased
                   | Done(timedOut: bool)

  /** The thread of one target (`target_reader`). */
  datatype Reader = NotStarted | Reading | Carrying(data: seq<Octet>) | AtEof | ReaderErasing | Ended

  /** The agent's main thread while it serves one connection. */
  datatype Main = Greeting                     // waiting for HELLO_ACK
                | Serving
                | Opening(sid: Sid)            // target connected and reader started, not yet in sessions_
                | Refusing(sid: Sid)           // target refused
                | Acking(sid: Sid)             // in sessions_
                | Writing(fd: Socket, sid: Sid, data: seq<Octet>)
                | Joining(sid: Sid)            // waiting for the reader thread

  /** The server's thread for one agent connection. */
  datatype Receiver = Listening
                    | Forwarding(fd: Socket, sid: Sid, data: seq<Octet>)
                    | Leaving                  // agent erased from agents_
                    | Left

  // ---- state --------------------------------------------------------------------------------

  /** A TCP connection between an agent and the server, with both directions' undelivered frames. */
  datatype Conn = Conn(agent: AgentId,
                       toAgent: seq<Msg>, toServer: seq<Msg>,
                       jammedA: bool, jammedS: bool,  // a send in that direction has failed
                       registered: bool,              // has been put into agents_
                       fdOpen: bool,                  // the server's conn->fd is not -1
                       up: bool,                      // the agent still serves it
                       held: map<Sid, Socket>,        // the agent's sessions_ meanwhile
                       main: Main, receiver: Receiver)

  /** Everything that belongs to one session; the last eight fields are histories. */
  datatype Flow = Flow(agent: AgentId, handler: Handler, promise: Outcome, reader: Reader,
                       home: Option<ConnId>,  // the connection that carried OPEN
                       popped: bool, installed: bool, acked: bool, fdSet: bool,
                       clientRead: seq<Octet>, targetWritten: seq<Octet>, lost: bool,
                       targetRead: seq<Octet>, dropped: seq<Octet>, clientWritten: seq<Octet>, skipped: bool)

  datatype State = State(sessions: Sessions, pending: set<Sid>,
                         agents: map<AgentId, ConnId>,   // the server's agents_
                         current: map<AgentId, ConnId>,  // each agent's server_fd_
                         conns: map<ConnId, Conn>,
                         flows: map<Sid, Flow>)

  const START := State(map[], {}, map[], map[], map[], map[])

  function NewFlow(agent: AgentId): Flow {
    Flow(agent, Generated, Unresolved, NotStarted, None, false, false, false, false,
         [], [], false, [], [], [], false)
  }

  function NewConn(agent: AgentId): Conn {
    Conn(agent, [], [], false, false, false, true, true, map[], Greeting, Listening)
  }

  function WithFlow(s: State, sid: Sid, f: Flow): State { s.(flows := s.flows[sid := f]) }

  function WithConn(s: State, c: ConnId, k: Conn): State { s.(conns := s.conns[c := k]) }

  /** The connection that `send_to_agent` finds for the session's agent. */
  function Route(s: State, f: Flow): Option<ConnId> {
    if f.agent in s.agents then Some(s.agents[f.agent]) else None
  }

  // ---- steps of the external client's thread ------------------------------------------------

  /** Nothing that is still alive carries the id. The program makes no such check; see `TunnelIds`. */
  ghost predicate IdUnused(s: State, sid: Sid) {
    && sid !in s.sessions && sid !in s.pending
    && (sid in s.flows ==> s.flows[sid].handler.Done? && s.flows[sid].reader in {NotStarted, Ended})
    && forall c :: c in s.conns ==>
         && sid !in s.conns[c].held
         && !Mentions(s.conns[c].toAgent, sid) && !Mentions(s.conns[c].toServer, sid)
         && !MainMentions(s.conns[c].main, sid)
         && !ReceiverMentions(s.conns[c].receiver, sid)
  }

  predicate Mentions(q: seq<Msg>, sid: Sid) {
    exists i :: 0 <= i < |q| && !q[i].Control? && q[i].sid == sid
  }

  predicate MainMentions(m: Main, sid: Sid) {
    !m.Greeting? && !m.Serving? && m.sid == sid
  }

  predicate ReceiverMentions(r: Receiver, sid: Sid) {
    r.Forwarding? && r.sid == sid
  }

  ghost predicate Generate(s: State, s': State, sid: Sid, agent: AgentId) {
    sid != 0 && IdUnused(s, sid) && s' == WithFlow(s, sid, NewFlow(agent))
  }

  ghost predicate List(s: State, s': State, sid: Sid) {
    && sid in s.flows && s.flows[sid].handler == Generated
    && s' == WithFlow(s, sid, s.flows[sid].(handler := Listed))
             .(sessions := s.sessions[sid := Session(s.flows[sid].agent, None)])
  }

  ghost predicate LookupOpen(s: State, s': State, sid: Sid) {
    && sid in s.flows && s.flows[sid].handler == Listed
    && var f := s.flows[sid];
       s' == WithFlow(s, sid, f.(handler := if Route(s, f).Some? then SendingOpen(Route(s, f).value) else OpenSent))
  }

  /** A closed connection swallows the frame without an error. */
  ghost predicate SendOpen(s: State, s': State, sid: Sid) {
    && sid in s.flows && s.flows[sid].handler.SendingOpen? && s.flows[sid].handler.via in s.conns
    && var f := s.flows[sid]; var c := f.handler.via; var k := s.conns[c];
       if !k.fdOpen then s' == WithFlow(s, sid, f.(handler := OpenSent))
       else && !k.jammedA
            && s' == WithConn(WithFlow(s, sid, f.(handler := OpenSent, home := Some(c))),
                              c, k.(toAgent := k.toAgent + [OpenMsg(sid)]))
  }

  ghost predicate SendOpenFails(s: State, s': State, sid: Sid) {
    && sid in s.flows && s.flows[sid].handler.SendingOpen? && s.flows[sid].handler.via in s.conns
    && var f := s.flows[sid]; var c := f.handler.via; var k := s.conns[c];
       && k.fdOpen
       && s' == WithConn(WithFlow(s, sid, f.(handler := Done(false))), c, k.(jammedA := true))
                .(sessions := Erase(s.sessions, sid))
  }

  ghost predicate RegisterPromise(s: State, s': State, sid: Sid) {
    && sid in s.flows && s.flows[sid].handler == OpenSent
    && s' == WithFlow(s, sid, s.flows[sid].(handler := Waiting)).(pending := s.pending + {sid})
  }

  ghost predicate TimeOut(s: State, s': State, sid: Sid) {
    && sid in s.flows && s.flows[sid].handler == Waiting && s.flows[sid].promise == Unresolved
    && s' == WithFlow(s, sid, s.flows[sid].(handler := TimedOut))
  }

  ghost predicate Unpend(s: State, s': State, sid: Sid) {
    && sid in s.flows && s.flows[sid].handler == TimedOut
    && s' == WithFlow(s, sid, s.flows[sid].(handler := Unpended)).(pending := s.pending - {sid})
  }

  ghost predicate GiveUp(s: State, s': State, sid: Sid) {
    && sid in s.flows && s.flows[sid].handler == Unpended
    && s' == WithFlow(s, sid, s.flows[sid].(handler := Done(true))).(sessions := Erase(s.sessions, sid))
  }

  ghost predicate Wake(s: State, s': State, sid: Sid) {
    && sid in s.flows && s.flows[sid].handler == Waiting && s.flows[sid].promise != Unresolved
    && s' == WithFlow(s, sid, s.flows[sid].(handler := if s.flows[sid].promise == Success then Acked else Done(false)))
  }

  /** `set_session_external_fd`; the client socket carries the session's own number. */
  ghost predicate SetFd(s: State, s': State, sid: Sid) {
    && sid in s.flows && s.flows[sid].handler == Acked
    && var f := s.flows[sid];
       if sid in s.sessions
       then s' == WithFlow(s, sid, f.(handler := Relaying, fdSet := true)).(sessions := SetExternal(s.sessions, sid, sid))
       else s' == WithFlow(s, sid, f.(handler := Done(false)))
  }

  ghost predicate ReadClient(s: State, s': State, sid: Sid, data: seq<Octet>) {
    && sid in s.flows && s.flows[sid].handler == Relaying
    && data != [] && From(data, Client(sid))
    && var f := s.flows[sid];
       s' == WithFlow(s, sid, f.(handler := Holding(data), clientRead := f.clientRead + data))
  }

  predicate From(data: seq<Octet>, origin: Origin) {
    forall i :: 0 <= i < |data| ==> data[i].origin == origin
  }

  /** Without a registered agent the data is silently dropped. */
  ghost predicate LookupData(s: State, s': State, sid: Sid) {
    && sid in s.flows && s.flows[sid].handler.Holding?
    && var f := s.flows[sid]; var to := Route(s, f);
       s' == WithFlow(s, sid, f.(handler := if to.Some? then Sending(to.value, f.handler.data) else Relaying,
                                 lost := f.lost || to != f.home))
  }

  ghost predicate SendData(s: State, s': State, sid: Sid) {
    && sid in s.flows && s.flows[sid].handler.Sending? && s.flows[sid].handler.via in s.conns
    && var f := s.flows[sid]; var c := f.handler.via; var k := s.conns[c];
       if !k.fdOpen then s' == WithFlow(s, sid, f.(handler := Relaying, lost := true))
       else && !k.jammedA
            && s' == WithConn(WithFlow(s, sid, f.(handler := Relaying)),
                              c, k.(toAgent := k.toAgent + [DataMsg(sid, f.handler.data)]))
  }

  ghost predicate SendDataFails(s: State, s': State, sid: Sid) {
    && sid in s.flows && s.flows[sid].handler.Sending? && s.flows[sid].handler.via in s.conns
    && var f := s.flows[sid]; var c := f.handler.via; var k := s.conns[c];
       && k.fdOpen
       && s' == WithConn(WithFlow(s, sid, f.(handler := Closing, lost := true)), c, k.(jammedA := true))
  }

  ghost predicate ClientEof(s: State, s': State, sid: Sid) {
    && sid in s.flows && s.flows[sid].handler == Relaying
    && s' == WithFlow(s, sid, s.flows[sid].(handler := Closing))
  }

  ghost predicate LookupClose(s: State, s': State, sid: Sid) {
    && sid in s.flows && s.flows[sid].handler == Closing
    && var f := s.flows[sid];
       s' == WithFlow(s, sid, f.(handler := if Route(s, f).Some? then SendingClose(Route(s, f).value) else CloseSent))
  }

  /** The CLOSE frame goes out, or is swallowed, or fails; the thread goes on in every case. */
  ghost predicate SendClose(s: State, s': State, sid: Sid, fails: bool) {
    && sid in s.flows && s.flows[sid].handler.SendingClose? && s.flows[sid].handler.via in s.conns
    && var f := s.flows[sid]; var c := f.handler.via; var k := s.conns[c];
       var after := WithFlow(s, sid, f.(handler := CloseSent));
       if !k.fdOpen then s' == after
       else if fails || k.jammedA then s' == WithConn(after, c, k.(jammedA := true))
       else s' == WithConn(after, c, k.(toAgent := k.toAgent + [CloseMsg(sid)]))
  }

  ghost predicate EraseSession(s: State, s': State, sid: Sid) {
    && sid in s.flows && s.flows[sid].handler == CloseSent
    && s' == WithFlow(s, sid, s.flows[sid].(handler := Erased)).(sessions := Erase(s.sessions, sid))
  }

  ghost predicate CloseClient(s: State, s': State, sid: Sid) {
    && sid in s.flows && s.flows[sid].handler == Erased
    && s' == WithFlow(s, sid, s.flows[sid].(handler := Done(false)))
  }

  // ---- steps of the server's thread for a connection ------------------------------------------

  /** An agent connects; it has no other connection at the time. */
  ghost predicate Connect(s: State, s': State, c: ConnId, agent: AgentId) {
    && c !in s.conns && agent !in s.current
    && s' == WithConn(s, c, NewConn(agent)).(current := s.current[agent := c])
  }

  /** After HELLO: the newcomer replaces an older connection, whose descriptor is closed. */
  ghost predicate Register(s: State, s': State, c: ConnId) {
    && c in s.conns && !s.conns[c].registered && s.conns[c].receiver == Listening
    && var a := s.conns[c].agent;
       s' == s.(agents := s.agents[a := c],
                conns := map d | d in s.conns ::
                           if d == c then s.conns[d].(registered := true)
                           else if a in s.agents && s.agents[a] == d then s.conns[d].(fdOpen := false)
                           else s.conns[d])
  }

  /** HELLO_ACK and HEARTBEAT_ACK, or HEARTBEAT in the other direction. */
  ghost predicate SendControl(s: State, s': State, c: ConnId, toServer: bool) {
    && c in s.conns
    && var k := s.conns[c];
       if toServer then !k.jammedS && s' == WithConn(s, c, k.(toServer := k.toServer + [Control]))
       else !k.jammedA && k.fdOpen && s' == WithConn(s, c, k.(toAgent := k.toAgent + [Control]))
  }

  /** Such a send may fail as well. */
  ghost predicate Jam(s: State, s': State, c: ConnId, toServer: bool) {
    && c in s.conns
    && var k := s.conns[c];
       s' == WithConn(s, c, if toServer then k.(jammedS := true) else k.(jammedA := true))
  }

  /** `recv_frame` and `handle_agent_frame`, up to the first `send` to the external client. */
  ghost predicate ServerReceive(s: State, s': State, c: ConnId) {
    && c in s.conns && s.conns[c].receiver == Listening && s.conns[c].registered && s.conns[c].toServer != []
    && var k := s.conns[c]; var m := k.toServer[0];
       var s1 := WithConn(s, c, k.(toServer := k.toServer[1..]));
       match m
       case OpenAckMsg(sid) =>
         if sid in s.pending && sid in s.flows
         then s' == WithFlow(s1, sid, s.flows[sid].(promise := if s.flows[sid].promise == Unresolved then Success
                                                               else s.flows[sid].promise))
                    .(pending := s.pending - {sid})
         else s' == s1
       case DataMsg(sid, payload) =>
         var fd := ExternalOf(s.sessions, sid);
         if fd.Some? then s' == WithConn(s, c, k.(toServer := k.toServer[1..], receiver := Forwarding(fd.value, sid, payload)))
         else if sid in s.flows
         then s' == WithFlow(s1, sid, if sid in s.sessions then s.flows[sid].(dropped := s.flows[sid].dropped + payload)
                                      else s.flows[sid].(skipped := true))
         else s' == s1
       case CloseMsg(sid) => s' == s1.(sessions := Erase(s.sessions, sid))
       case _ => s' == s1
  }

  /** One `send` to the client socket that the lookup found; the socket must still be open. */
  ghost predicate WriteClient(s: State, s': State, c: ConnId, n: nat) {
    && c in s.conns && s.conns[c].receiver.Forwarding?
    && var k := s.conns[c]; var r := k.receiver;
       && r.fd in s.flows && !s.flows[r.fd].handler.Done? && 0 < n <= |r.data|
       && var f := s.flows[r.fd];
          s' == WithConn(WithFlow(s, r.fd, f.(clientWritten := f.clientWritten + r.data[..n])),
                         c, k.(receiver := if n == |r.data| then Listening else r.(data := r.data[n..])))
  }

  ghost predicate WriteClientFails(s: State, s': State, c: ConnId) {
    && c in s.conns && s.conns[c].receiver.Forwarding?
    && var k := s.conns[c]; var r := k.receiver;
       && r.sid in s.flows
       && s' == WithConn(WithFlow(s, r.sid, s.flows[r.sid].(skipped := true)), c, k.(receiver := Listening))
                .(sessions := Erase(s.sessions, r.sid))
  }

  /** The receive loop ends: `unregister_agent` forgets the agent id, whoever holds it now. */
  ghost predicate Leave(s: State, s': State, c: ConnId) {
    && c in s.conns && s.conns[c].receiver == Listening && s.conns[c].registered
    && s' == WithConn(s, c, s.conns[c].(receiver := Leaving)).(agents := s.agents - {s.conns[c].agent})
  }

  ghost predicate DropSessions(s: State, s': State, c: ConnId) {
    && c in s.conns && s.conns[c].receiver == Leaving
    && s' == WithConn(s, c, s.conns[c].(receiver := Left)).(sessions := WithoutAgent(s.sessions, s.conns[c].agent))
  }

  // ---- steps of an agent's main thread ----------------------------------------------------------

  /** `recv_frame` and the frame handlers, up to their first further blocking call. */
  ghost predicate AgentReceive(s: State, s': State, c: ConnId, accepted: bool) {
    && c in s.conns && s.conns[c].up && s.conns[c].toAgent != []
    && (s.conns[c].main == Serving || (s.conns[c].main == Greeting && s.conns[c].toAgent[0] == Control))
    && var k := s.conns[c]; var m := k.toAgent[0]; var k1 := k.(toAgent := k.toAgent[1..], main := Serving);
       match m
       case OpenMsg(sid) =>
         && sid in s.flows
         && s' == if accepted
                  then WithConn(WithFlow(s, sid, s.flows[sid].(popped := true, reader := Reading)),
                                c, k1.(main := Opening(sid)))
                  else WithConn(WithFlow(s, sid, s.flows[sid].(popped := true)), c, k1.(main := Refusing(sid)))
       case DataMsg(sid, payload) =>
         s' == WithConn(s, c, if sid in k.held then k1.(main := Writing(k.held[sid], sid, payload)) else k1)
       case CloseMsg(sid) =>
         s' == WithConn(s, c, if sid in k.held then k1.(held := k.held - {sid}, main := Joining(sid)) else k1)
       case _ => s' == WithConn(s, c, k1)
  }

  /** `sessions_[sid] = session`; the target socket carries the session's own number. */
  ghost predicate Install(s: State, s': State, c: ConnId) {
    && c in s.conns && s.conns[c].up && s.conns[c].main.Opening?
    && var k := s.conns[c]; var sid := k.main.sid;
       && sid in s.flows
       && s' == WithConn(WithFlow(s, sid, s.flows[sid].(installed := true)),
                         c, k.(held := k.held[sid := sid], main := Acking(sid)))
  }

  ghost predicate SendAck(s: State, s': State, c: ConnId) {
    && c in s.conns && s.conns[c].up && s.conns[c].main.Acking? && !s.conns[c].jammedS
    && var k := s.conns[c]; var sid := k.main.sid;
       && sid in s.flows
       && s' == WithConn(WithFlow(s, sid, s.flows[sid].(acked := true)),
                         c, k.(toServer := k.toServer + [OpenAckMsg(sid)], main := Serving))
  }

  ghost predicate SendAckFails(s: State, s': State, c: ConnId) {
    && c in s.conns && s.conns[c].up && s.conns[c].main.Acking?
    && var k := s.conns[c]; var sid := k.main.sid;
       s' == WithConn(s, c, k.(jammedS := true, held := k.held - {sid},
                               main := if sid in k.held then Joining(sid) else Serving))
  }

  /** CLOSE after a refused target; a failure is swallowed. */
  ghost predicate SendRefusal(s: State, s': State, c: ConnId, fails: bool) {
    && c in s.conns && s.conns[c].up && s.conns[c].main.Refusing?
    && var k := s.conns[c];
       s' == WithConn(s, c, if fails || k.jammedS then k.(jammedS := true, main := Serving)
                            else k.(toServer := k.toServer + [CloseMsg(k.main.sid)], main := Serving))
  }

  /** One `send` to the target socket that the lookup found; the socket must still be open. */
  ghost predicate WriteTarget(s: State, s': State, c: ConnId, n: nat) {
    && c in s.conns && s.conns[c].up && s.conns[c].main.Writing?
    && var k := s.conns[c]; var m := k.main;
       && m.fd in s.flows && m.fd in k.held && 0 < n <= |m.data|
       && var f := s.flows[m.fd];
          s' == WithConn(WithFlow(s, m.fd, f.(targetWritten := f.targetWritten + m.data[..n])),
                         c, k.(main := if n == |m.data| then Serving else m.(data := m.data[n..])))
  }

  ghost predicate WriteTargetFails(s: State, s': State, c: ConnId) {
    && c in s.conns && s.conns[c].up && s.conns[c].main.Writing?
    && var k := s.conns[c]; var sid := k.main.sid;
       s' == WithConn(s, c, k.(held := k.held - {sid}, main := if sid in k.held then Joining(sid) else Serving))
  }

  ghost predicate Join(s: State, s': State, c: ConnId) {
    && c in s.conns && s.conns[c].up && s.conns[c].main.Joining?
    && var sid := s.conns[c].main.sid;
       && sid in s.flows && s.flows[sid].reader == Ended
       && s' == WithConn(s, c, s.conns[c].(main := Serving))
  }

  /** The agent gives the connection up: `cleanup_connection`. */
  ghost predicate AgentDown(s: State, s': State, c: ConnId) {
    && c in s.conns && s.conns[c].up && s.conns[c].main in {Serving, Greeting}
    && s' == WithConn(s, c, s.conns[c].(up := false, held := map[])).(current := s.current - {s.conns[c].agent})
  }

  // ---- steps of a target's reader thread ----------------------------------------------------------

  /** The target socket is open until the session leaves the agent's table. */
  ghost predicate ReadTarget(s: State, s': State, sid: Sid, data: seq<Octet>) {
    && sid in s.flows && s.flows[sid].reader == Reading && data != [] && From(data, Target(sid))
    && var f := s.flows[sid];
       && f.home.Some? && f.home.value in s.conns
       && (f.installed ==> sid in s.conns[f.home.value].held)
       && s' == WithFlow(s, sid, f.(reader := Carrying(data), targetRead := f.targetRead + data))
  }

  /** `send_frame` uses whatever connection the agent has by now. */
  ghost predicate ReaderSend(s: State, s': State, sid: Sid) {
    && sid in s.flows && s.flows[sid].reader.Carrying? && s.flows[sid].agent in s.current
    && var f := s.flows[sid]; var c := s.current[f.agent];
       && c in s.conns && !s.conns[c].jammedS
       && s' == WithConn(WithFlow(s, sid, f.(reader := Reading, skipped := f.skipped || f.home != Some(c))),
                         c, s.conns[c].(toServer := s.conns[c].toServer + [DataMsg(sid, f.reader.data)]))
  }

  ghost predicate ReaderSendFails(s: State, s': State, sid: Sid) {
    && sid in s.flows && s.flows[sid].reader.Carrying?
    && var f := s.flows[sid]; var s1 := WithFlow(s, sid, f.(reader := AtEof, skipped := true));
       s' == if f.agent in s.current && s.current[f.agent] in s.conns
             then WithConn(s1, s.current[f.agent], s.conns[s.current[f.agent]].(jammedS := true)) else s1
  }

  ghost predicate TargetEof(s: State, s': State, sid: Sid) {
    && sid in s.flows && s.flows[sid].reader == Reading
    && s' == WithFlow(s, sid, s.flows[sid].(reader := AtEof))
  }

  /** CLOSE goes out on the current connection, or fails, or is skipped after stop. */
  ghost predicate ReaderClose(s: State, s': State, sid: Sid, goesOut: bool) {
    && sid in s.flows && s.flows[sid].reader == AtEof
    && var f := s.flows[sid]; var s1 := WithFlow(s, sid, f.(reader := ReaderErasing));
       if goesOut && f.agent in s.current && s.current[f.agent] in s.conns && !s.conns[s.current[f.agent]].jammedS
       then var c := s.current[f.agent];
            s' == WithConn(s1, c, s.conns[c].(toServer := s.conns[c].toServer + [CloseMsg(sid)]))
       else s' == s1
  }

  ghost predicate ReaderErase(s: State, s': State, sid: Sid) {
    && sid in s.flows && s.flows[sid].reader == ReaderErasing
    && var f := s.flows[sid]; var s1 := WithFlow(s, sid, f.(reader := Ended));
       if f.agent in s.current && s.current[f.agent] in s.conns
       then var c := s.current[f.agent];
            s' == WithConn(s1, c, s.conns[c].(held := s.conns[c].held - {sid}))
       else s' == s1
  }

  // ---- stop() of the server ---------------------------------------------------------------------

  ghost predicate StopPending(s: State, s': State) {
    s' == s.(pending := {},
             flows := map sid | sid in s.flows ::
                        if sid in s.pending && s.flows[sid].promise == Unresolved
                        then s.flows[sid].(promise := Failed) else s.flows[sid])
  }

  ghost predicate StopAgents(s: State, s': State) {
    s' == s.(agents := map[],
             conns := map c | c in s.conns ::
                        if c in s.agents.Values then s.conns[c].(fdOpen := false) else s.conns[c])
  }

  ghost predicate StopSessions(s: State, s': State) {
    s' == s.(sessions := map[])
  }

  // ---- runs ---------------------------------------------------------------------------------------

  /** Any step of a client's thread but taking an id. */
  ghost predicate HandlerMove(s: State, s': State, sid: Sid) {
    || List(s, s', sid) || LookupOpen(s, s', sid) || SendOpen(s, s', sid) || SendOpenFails(s, s', sid)
    || RegisterPromise(s, s', sid) || TimeOut(s, s', sid) || Unpend(s, s', sid) || GiveUp(s, s', sid)
    || Wake(s, s', sid) || SetFd(s, s', sid)
    || (exists data :: ReadClient(s, s', sid, data))
    || LookupData(s, s', sid) || SendData(s, s', sid) || SendDataFails(s, s', sid)
    || ClientEof(s, s', sid) || LookupClose(s, s', sid)
    || SendClose(s, s', sid, false) || SendClose(s, s', sid, true)
    || EraseSession(s, s', sid) || CloseClient(s, s', sid)
  }

  ghost predicate HandlerStep(s: State, s': State, sid: Sid) {
    (exists agent :: Generate(s, s', sid, agent)) || HandlerMove(s, s', sid)
  }

  ghost predicate ServerStep(s: State, s': State, c: ConnId) {
    || (exists agent :: Connect(s, s', c, agent))
    || Register(s, s', c) || ServerReceive(s, s', c)
    || SendControl(s, s', c, false) || SendControl(s, s', c, true)
    || Jam(s, s', c, false) || Jam(s, s', c, true)
    || (exists n :: WriteClient(s, s', c, n))
    || WriteClientFails(s, s', c) || Leave(s, s', c) || DropSessions(s, s', c)
    || StopPending(s, s') || StopAgents(s, s') || StopSessions(s, s')
  }

  ghost predicate AgentStep(s: State, s': State, c: ConnId) {
    || AgentReceive(s, s', c, false) || AgentReceive(s, s', c, true)
    || Install(s, s', c) || SendAck(s, s', c) || SendAckFails(s, s', c)
    || SendRefusal(s, s', c, false) || SendRefusal(s, s', c, true)
    || (exists n :: WriteTarget(s, s', c, n))
    || WriteTargetFails(s, s', c) || Join(s, s', c) || AgentDown(s, s', c)
  }

  ghost predicate ReaderStep(s: State, s': State, sid: Sid) {
    || (exists data :: ReadTarget(s, s', sid, data))
    || ReaderSend(s, s', sid) || ReaderSendFails(s, s', sid) || TargetEof(s, s', sid)
    || ReaderClose(s, s', sid, false) || ReaderClose(s, s', sid, true) || ReaderErase(s, s', sid)
  }

  /** Any step in which no session is begun. */
  ghost predicate Proceeds(s: State, s': State) {
    || (exists sid :: HandlerMove(s, s', sid))
    || (exists c :: ServerStep(s, s', c))
    || (exists c :: AgentStep(s, s', c))
    || (exists sid :: ReaderStep(s, s', sid))
  }

  ghost predicate Next(s: State, s': State) {
    || (exists sid :: HandlerStep(s, s', sid))
    || (exists c :: ServerStep(s, s', c))
    || (exists c :: AgentStep(s, s', c))
    || (exists sid :: ReaderStep(s, s', sid))
  }

  ghost predicate Run(t: seq<State>) {
    && |t| > 0 && t[0] == START
    && forall i :: 0 <= i < |t| - 1 ==> Next(t[i], t[i + 1])
  }
}
