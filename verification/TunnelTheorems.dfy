/** What the two-node protocol guarantees in every reachable state. */
module TunnelTheorems {
  import opened Results
  import opened Bytes
  import opened TunnelCodec
  import opened TunnelTables
  import opened TunnelSystem
  import opened TunnelSafety
  import opened TunnelSteps
  import TunnelHandlerSteps
  import TunnelServerSteps
  import TunnelReceiveSteps
  import TunnelAgentSteps
  import TunnelReaderSteps

  // ---- every reachable state satisfies the invariant ----------------------------------------------------------

  lemma ServerStepKeeps(s: State, s': State, c: ConnId)
    requires Inv(s) && ServerStep(s, s', c)
    ensures Inv(s')
  {
    hide Holds, Connect, Register, ServerReceive, SendControl, Jam, WriteClient, WriteClientFails, Leave, DropSessions,
         StopPending, StopAgents, StopSessions;
    if agent :| Connect(s, s', c, agent) { TunnelServerSteps.ConnectKeeps(s, s', c, agent); }
    else if n :| WriteClient(s, s', c, n) { TunnelReceiveSteps.WriteClientKeeps(s, s', c, n); }
    else if Register(s, s', c) { TunnelServerSteps.RegisterKeeps(s, s', c); }
    else if ServerReceive(s, s', c) { TunnelReceiveSteps.ServerReceiveKeeps(s, s', c); }
    else if SendControl(s, s', c, false) { TunnelServerSteps.SendControlKeeps(s, s', c, false); }
    else if SendControl(s, s', c, true) { TunnelServerSteps.SendControlKeeps(s, s', c, true); }
    else if Jam(s, s', c, false) { TunnelServerSteps.JamKeeps(s, s', c, false); }
    else if Jam(s, s', c, true) { TunnelServerSteps.JamKeeps(s, s', c, true); }
    else if WriteClientFails(s, s', c) { TunnelReceiveSteps.WriteClientFailsKeeps(s, s', c); }
    else if Leave(s, s', c) { TunnelServerSteps.LeaveKeeps(s, s', c); }
    else if DropSessions(s, s', c) { TunnelServerSteps.DropSessionsKeeps(s, s', c); }
    else if StopPending(s, s') { TunnelReceiveSteps.StopPendingKeeps(s, s'); }
    else if StopAgents(s, s') { TunnelServerSteps.StopAgentsKeeps(s, s'); }
    else { TunnelServerSteps.StopSessionsKeeps(s, s'); }
  }

  lemma StepKeeps(s: State, s': State)
    requires Inv(s) && Next(s, s')
    ensures Inv(s')
  {
    hide Holds, HandlerStep, ServerStep, AgentStep, ReaderStep;
    if sid :| HandlerStep(s, s', sid) { TunnelHandlerSteps.HandlerStepKeeps(s, s', sid); }
    else if c :| ServerStep(s, s', c) { ServerStepKeeps(s, s', c); }
    else if c :| AgentStep(s, s', c) { TunnelAgentSteps.AgentStepKeeps(s, s', c); }
    else if sid :| ReaderStep(s, s', sid) { TunnelReaderSteps.ReaderStepKeeps(s, s', sid); }
  }

  lemma {:induction false} RunKeepsInv(t: seq<State>, n: nat)
    requires Run(t) && n < |t|
    ensures Inv(t[n])
  {
    if n > 0 {
      RunKeepsInv(t, n - 1);
      hide Holds, Next;
      assert Next(t[n - 1], t[n - 1 + 1]);
      StepKeeps(t[n - 1], t[n]);
    }
  }

  /** All that the invariant says about one session and one connection. */
  lemma At(s: State, sid: Sid, c: ConnId)
    requires Inv(s) && sid in s.flows
    ensures Single(ContextOf(s, sid))
    ensures c in s.conns ==> Related(ContextOf(s, sid), c, ViewOf(s.conns[c], sid))
  {
    hide Single, Related;
    assert SoloAt(s, sid);
    if c in s.conns { assert PairAt(s, sid, c); }
  }

  // ---- conservation, client to target ---------------------------------------------------------------------------

  /** The octets of a session that have been read from its client and not yet written to its target. */
  function ForwardInFlight(s: State, sid: Sid, c: ConnId): seq<Octet>
    requires sid in s.flows && c in s.conns
  {
    AgentHand(ViewOf(s.conns[c], sid)) + Payload(Filter(s.conns[c].toAgent, sid)) + HandlerData(s.flows[sid])
  }

  /** A target receives a prefix of what its session's client sent, as long as no send succeeds after one that failed. */
  lemma TargetGetsPrefix(t: seq<State>, n: nat, sid: Sid)
    requires Run(t) && n < |t| && sid in t[n].flows
    ensures t[n].flows[sid].targetWritten <= t[n].flows[sid].clientRead
  {
    RunKeepsInv(t, n);
    hide Run, Holds;
    At(t[n], sid, 0);
  }

  /**
   * While the agent stays registered on the connection that carried OPEN, that connection has not
   * failed and the agent holds the session, no octet is missing: written, in flight and read agree.
   */
  lemma ForwardConserves(t: seq<State>, n: nat, sid: Sid, c: ConnId)
    requires Run(t) && n < |t| && sid in t[n].flows && c in t[n].conns
    requires t[n].flows[sid].home == Some(c) && Route(t[n], t[n].flows[sid]) == Some(c)
    requires t[n].conns[c].fdOpen && !t[n].conns[c].jammedA && sid in t[n].conns[c].held
    ensures t[n].flows[sid].targetWritten + ForwardInFlight(t[n], sid, c) == t[n].flows[sid].clientRead
  {
    RunKeepsInv(t, n);
    hide Run, Holds;
    At(t[n], sid, c);
    var f, v := t[n].flows[sid], ViewOf(t[n].conns[c], sid);
    hide Single, Placed, Reverse, Payload, Filter;
    Concat4(f.targetWritten, AgentHand(v), Payload(v.inbox), HandlerData(f));
  }

  lemma Concat4<T>(a: seq<T>, b: seq<T>, c: seq<T>, d: seq<T>)
    ensures a + b + c + d == a + (b + c + d)
  {
  }

  // ---- conservation, target to client ---------------------------------------------------------------------------

  /** The octets of a session that have been read from its target and not yet written to its client. */
  function ReverseInFlight(s: State, sid: Sid, c: ConnId): seq<Octet>
    requires sid in s.flows && c in s.conns
  {
    ServerHand(ViewOf(s.conns[c], sid)) + Payload(Filter(s.conns[c].toServer, sid)) + ReaderData(s.flows[sid])
  }

  /**
   * While the session lives at both ends, what its target sent is: what arrived before the client
   * was connected (dropped), what the client has got, and what is in flight.
   */
  lemma ReverseConserves(t: seq<State>, n: nat, sid: Sid, c: ConnId)
    requires Run(t) && n < |t| && sid in t[n].flows && c in t[n].conns
    requires t[n].flows[sid].home == Some(c) && sid in t[n].sessions
    requires t[n].conns[c].up && !t[n].conns[c].jammedS
    ensures var f := t[n].flows[sid];
            f.dropped + f.clientWritten + ReverseInFlight(t[n], sid, c) == f.targetRead
    ensures t[n].sessions[sid].external.None? ==> t[n].flows[sid].clientWritten == []
  {
    RunKeepsInv(t, n);
    hide Run, Holds;
    At(t[n], sid, c);
    var f, v := t[n].flows[sid], ViewOf(t[n].conns[c], sid);
    hide Placed, Forward, Payload, Filter, From;
    Concat4(f.dropped + f.clientWritten, ServerHand(v), Payload(v.outbox), ReaderData(f));
  }

  // ---- isolation --------------------------------------------------------------------------------------------------

  /** No octet of one session is ever written to another session's target or client. */
  lemma SessionsAreIsolated(t: seq<State>, n: nat, sid: Sid, o: Octet)
    requires Run(t) && n < |t| && sid in t[n].flows
    ensures o in t[n].flows[sid].targetWritten ==> o.origin == Client(sid)
    ensures o in t[n].flows[sid].clientWritten ==> o.origin == Target(sid)
  {
    RunKeepsInv(t, n);
    hide Run, Holds;
    At(t[n], sid, 0);
  }

  // ---- causality --------------------------------------------------------------------------------------------------

  lemma {:induction false} FilterKeeps(q: seq<Msg>, i: nat, sid: Sid)
    requires i < |q| && About(q[i], sid)
    ensures q[i] in Filter(q, sid)
  {
    if i > 0 { FilterKeeps(q[1..], i - 1, sid); }
  }

  /**
   * A frame for a session can be on its way to an agent only if the session is known; a DATA frame
   * only if the server has seen the OPEN_ACK that the agent sent after installing the session.
   */
  lemma DataFollowsInstall(t: seq<State>, n: nat, c: ConnId, i: nat)
    requires Run(t) && n < |t| && c in t[n].conns && i < |t[n].conns[c].toAgent|
    requires t[n].conns[c].toAgent[i].DataMsg?
    ensures var sid := t[n].conns[c].toAgent[i].sid;
            sid in t[n].flows && t[n].flows[sid].installed && t[n].flows[sid].acked && t[n].flows[sid].promise == Success
  {
    RunKeepsInv(t, n);
    hide Run, Holds;
    var sid := t[n].conns[c].toAgent[i].sid;
    FilterKeeps(t[n].conns[c].toAgent, i, sid);
    TunnelReceiveSteps.NotSilentIsKnown(t[n], c, sid);
    At(t[n], sid, c);
    hide Forward, Reverse, From, NoAck, Payload, Filter;
  }

  /** A client is attached to a session only after the session's OPEN_ACK has arrived. */
  lemma AttachFollowsAck(t: seq<State>, n: nat, sid: Sid)
    requires Run(t) && n < |t| && sid in t[n].sessions && t[n].sessions[sid].external.Some?
    ensures sid in t[n].flows && t[n].flows[sid].promise == Success && t[n].flows[sid].acked && t[n].flows[sid].installed
    ensures t[n].sessions[sid].external.value == sid
  {
    RunKeepsInv(t, n);
    hide Run;
    assert sid in t[n].flows;
    hide Holds;
    At(t[n], sid, 0);
  }

  /**
   * The agent never puts a session into its table over another one, so no joinable thread is
   * destroyed there.
   */
  lemma InstallReplacesNothing(t: seq<State>, n: nat, c: ConnId)
    requires Run(t) && n + 1 < |t| && Install(t[n], t[n + 1], c)
    ensures t[n].conns[c].main.sid !in t[n].conns[c].held
  {
    RunKeepsInv(t, n);
    var sid := t[n].conns[c].main.sid;
    assert sid in t[n].flows && MainMentions(t[n].conns[c].main, sid);
    hide Run, Holds, Install;
    At(t[n], sid, c);
    hide Single, Forward, Reverse, From, NoAck, NoOpen, Payload, Filter;
  }

  // ---- waiters ----------------------------------------------------------------------------------------------------

  /** A registered waiter is still unresolved; a waiter that gave up is in neither table. */
  lemma WaitersAndTables(t: seq<State>, n: nat, sid: Sid)
    requires Run(t) && n < |t| && sid in t[n].flows
    ensures var f := t[n].flows[sid];
            && (sid in t[n].pending ==> f.promise == Unresolved && (f.handler == Waiting || f.handler == TimedOut))
            && (f.handler == Waiting && f.promise == Unresolved ==> sid in t[n].pending)
            && (f.handler == Done(true) ==> sid !in t[n].pending && sid !in t[n].sessions)
  {
    RunKeepsInv(t, n);
    hide Run, Holds;
    At(t[n], sid, 0);
  }
}
