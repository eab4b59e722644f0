/** The steps of the server's per-connection threads, and stop, keep the invariant. */
module TunnelServerSteps {
  import opened Results
  import opened Bytes
  import opened TunnelCodec
  import opened TunnelTables
  import opened TunnelSystem
  import opened TunnelSafety
  import opened TunnelSteps

  // ---- steps that every session sees alike --------------------------------------------------------------

  /** A connection changes in ways that no session notices, except for a failed send. */
  lemma ConnAges(s: State, c: ConnId, k: Conn)
    requires Inv(s) && c in s.conns
    requires k.agent == s.conns[c].agent && k.registered == s.conns[c].registered && k.up == s.conns[c].up
    requires forall y :: Aged(ViewOf(s.conns[c], y), ViewOf(k, y)) == true
    ensures Inv(s.(conns := s.conns[c := k]))
  {
    hide Single, Related, ViewOf, Aged, Wired, Closed;
    var s' := s.(conns := s.conns[c := k]);
    ConnStaysWired(s, c, k);
    AgedStaysClosed(s, c, k);
    forall y | y in s'.flows
      ensures SoloAt(s', y)
      ensures forall d :: d in s'.conns ==> PairAt(s', y, d)
    {
      assert ContextOf(s', y) == ContextOf(s, y);
      assert SoloAt(s, y);
      forall d | d in s'.conns ensures PairAt(s', y, d) {
        assert PairAt(s, y, d);
        if d == c {
          AgedKeeps(ContextOf(s, y), c, ViewOf(s.conns[c], y), ViewOf(k, y));
        }
      }
    }
  }

  lemma AgedStaysClosed(s: State, c: ConnId, k: Conn)
    requires Closed(s) && c in s.conns
    requires forall y :: Aged(ViewOf(s.conns[c], y), ViewOf(k, y)) == true
    ensures Closed(s.(conns := s.conns[c := k]))
  {
    hide ViewOf;
    var s' := s.(conns := s.conns[c := k]);
    forall y, d | y !in s'.flows && d in s'.conns
      ensures Silent(ViewOf(s'.conns[d], y))
    {
      assert Silent(ViewOf(s.conns[d], y));
      assert Aged(ViewOf(s.conns[c], y), ViewOf(k, y)) == true;
    }
  }

  lemma PushToAgent(k: Conn, m: Msg, y: Sid)
    requires m.Control?
    ensures ViewOf(k.(toAgent := k.toAgent + [m]), y) == ViewOf(k, y)
    ensures ViewOf(k.(toServer := k.toServer + [m]), y) == ViewOf(k, y)
  {
    FilterPush(k.toAgent, m, y);
    FilterPush(k.toServer, m, y);
  }

  lemma SendControlKeeps(s: State, s': State, c: ConnId, toServer: bool)
    requires Inv(s) && SendControl(s, s', c, toServer)
    ensures Inv(s')
  {
    hide Holds, ViewOf;
    var k := s.conns[c];
    forall y ensures Aged(ViewOf(k, y), ViewOf(s'.conns[c], y)) == true { PushToAgent(k, Control, y); }
    ConnAges(s, c, s'.conns[c]);
  }

  lemma JamKeeps(s: State, s': State, c: ConnId, toServer: bool)
    requires Inv(s) && Jam(s, s', c, toServer)
    ensures Inv(s')
  {
    hide Holds;
    ConnAges(s, c, s'.conns[c]);
  }

  lemma NewConnPair(x: Context, c: ConnId, v: View)
    requires Solo(x) && Silent(v) && x.flow.home != Some(c) && !Via(x.flow.handler, c)
    ensures Pair(x, c, v)
  {
    assert Payload([]) == [];
  }

  lemma ConnectWires(s: State, s': State, c: ConnId, agent: AgentId)
    requires Wired(s) && Connect(s, s', c, agent)
    ensures Wired(s')
  {
  }

  lemma ConnectCloses(s: State, s': State, c: ConnId, agent: AgentId)
    requires Closed(s) && Connect(s, s', c, agent)
    ensures Closed(s')
    ensures forall y :: Silent(ViewOf(s'.conns[c], y))
  {
    hide ViewOf;
    forall y ensures Silent(ViewOf(s'.conns[c], y)) { NewConnSilent(agent, y); }
  }

  lemma NewConnSilent(agent: AgentId, y: Sid)
    ensures Silent(ViewOf(NewConn(agent), y))
  {
  }

  lemma ConnectKeeps(s: State, s': State, c: ConnId, agent: AgentId)
    requires Inv(s) && Connect(s, s', c, agent)
    ensures Inv(s')
  {
    hide Single, Related, ViewOf, Closed;
    ConnectWires(s, s', c, agent);
    ConnectCloses(s, s', c, agent);
    forall y | y in s'.flows
      ensures SoloAt(s', y)
      ensures forall d :: d in s'.conns ==> PairAt(s', y, d)
    {
      assert ContextOf(s', y) == ContextOf(s, y);
      assert SoloAt(s, y);
      forall d | d in s'.conns ensures PairAt(s', y, d) {
        if d == c {
          NewConnPair(ContextOf(s, y), c, ViewOf(s'.conns[c], y));
        } else {
          assert PairAt(s, y, d);
        }
      }
    }
  }

  /** Routes, table entries and descriptors change; everything else stays. */
  predicate Rerouted(x: Context, y: Context, d: ConnId, v: View, w: View) {
    && y == x.(route := y.route, entry := y.entry) && w == v.(fdOpen := w.fdOpen, registered := w.registered)
    && (y.entry == x.entry || y.entry.None?)
    && (w.fdOpen ==> v.fdOpen) && (v.registered ==> w.registered)
    && (x.flow.home == Some(d) ==> y.route == x.route || y.route != Some(d))
  }

  lemma ReroutedPair(x: Context, y: Context, d: ConnId, v: View, w: View)
    requires Pair(x, d, v) && Rerouted(x, y, d, v, w)
    ensures Pair(y, d, w)
  {
    hide From, Payload, NoOpen, NoAck, NoDataIn, Split, Delivered;
  }

  lemma ReroutedSolo(x: Context, y: Context)
    requires Solo(x) && y == x.(route := y.route, entry := y.entry) && (y.entry == x.entry || y.entry.None?)
    ensures Solo(y)
  {
    hide From;
  }

  /** A step that is a re-routing for every session and every connection. */
  lemma Reroutes(s: State, s': State)
    requires Inv(s) && Wired(s') && Closed(s') && s'.flows == s.flows && s'.conns.Keys == s.conns.Keys
    requires forall y, d :: y in s.flows && d in s.conns ==>
               Rerouted(ContextOf(s, y), ContextOf(s', y), d, ViewOf(s.conns[d], y), ViewOf(s'.conns[d], y)) == true
    requires forall y :: y in s.flows ==>
               ContextOf(s', y) == ContextOf(s, y).(route := Route(s', s.flows[y]), entry := ContextOf(s', y).entry)
               && (ContextOf(s', y).entry == ContextOf(s, y).entry || ContextOf(s', y).entry.None?)
    ensures Inv(s')
  {
    hide Single, Related, ViewOf, Wired, Closed, Rerouted, ContextOf;
    forall y | y in s'.flows
      ensures SoloAt(s', y)
      ensures forall d :: d in s'.conns ==> PairAt(s', y, d)
    {
      assert SoloAt(s, y);
      ReroutedSolo(ContextOf(s, y), ContextOf(s', y));
      forall d | d in s'.conns ensures PairAt(s', y, d) {
        assert PairAt(s, y, d);
        ReroutedPair(ContextOf(s, y), ContextOf(s', y), d, ViewOf(s.conns[d], y), ViewOf(s'.conns[d], y));
      }
    }
  }

  lemma RegisterConn(s: State, s': State, c: ConnId, d: ConnId)
    requires Register(s, s', c) && d in s.conns
    ensures d in s'.conns && s'.conns[d].agent == s.conns[d].agent && s'.conns[d].up == s.conns[d].up
    ensures s'.conns[d].registered == (s.conns[d].registered || d == c)
  {
  }

  lemma RegisterTables(s: State, s': State, c: ConnId)
    requires Register(s, s', c)
    ensures s'.flows == s.flows && s'.current == s.current && s'.conns.Keys == s.conns.Keys
    ensures c in s.conns && s'.agents == s.agents[s.conns[c].agent := c]
  {
  }

  lemma RegisterWires(s: State, s': State, c: ConnId)
    requires Wired(s) && Register(s, s', c)
    ensures Wired(s')
  {
    hide Register;
    RegisterTables(s, s', c);
    forall d | d in s.conns
      ensures s'.conns[d].agent == s.conns[d].agent && s'.conns[d].up == s.conns[d].up
      ensures s'.conns[d].registered == (s.conns[d].registered || d == c)
    {
      RegisterConn(s, s', c, d);
    }
  }

  /** Connections change in their flags only. */
  lemma FlagsStayClosed(s: State, s': State)
    requires Closed(s) && s'.flows == s.flows && s'.conns.Keys == s.conns.Keys
    requires s'.sessions.Keys <= s.sessions.Keys && s'.pending == s.pending
    requires forall d, y :: d in s.conns ==>
               ViewOf(s'.conns[d], y) == ViewOf(s.conns[d], y).(fdOpen := s'.conns[d].fdOpen, registered := s'.conns[d].registered)
    ensures Closed(s')
  {
    hide ViewOf;
    forall y, d | y !in s'.flows && d in s'.conns ensures Silent(ViewOf(s'.conns[d], y)) {
      assert Silent(ViewOf(s.conns[d], y));
    }
  }

  /** The flags of a connection and the position of its receiver are all that changes. */
  predicate FlagsOnly(k: Conn, k': Conn) {
    k' == k.(fdOpen := k'.fdOpen, registered := k'.registered, receiver := k'.receiver)
    && (k'.receiver == k.receiver || (!k.receiver.Forwarding? && !k'.receiver.Forwarding?))
  }

  lemma FlagsView(k: Conn, k': Conn, y: Sid)
    requires FlagsOnly(k, k')
    ensures ViewOf(k', y) == ViewOf(k, y).(fdOpen := k'.fdOpen, registered := k'.registered)
  {
  }

  /** What a step that only re-routes has to show, without views. */
  ghost predicate Reroute(s: State, s': State) {
    && s'.flows == s.flows && s'.conns.Keys == s.conns.Keys && s'.pending == s.pending
    && (forall sid :: sid in s'.sessions ==> sid in s.sessions && s'.sessions[sid] == s.sessions[sid])
    && (forall d :: d in s.conns ==>
          && FlagsOnly(s.conns[d], s'.conns[d])
          && (s'.conns[d].fdOpen ==> s.conns[d].fdOpen) && (s.conns[d].registered ==> s'.conns[d].registered))
    && (forall a :: a in s'.agents ==>
          || (a in s.agents && s'.agents[a] == s.agents[a])
          || (s'.agents[a] in s.conns && !s.conns[s'.agents[a]].registered))
  }

  lemma RerouteContext(s: State, s': State, y: Sid, d: ConnId)
    requires Inv(s) && Reroute(s, s') == true && y in s.flows && d in s.conns
    ensures Rerouted(ContextOf(s, y), ContextOf(s', y), d, ViewOf(s.conns[d], y), ViewOf(s'.conns[d], y)) == true
  {
    hide Single, Forward, Reverse, Payload, From;
    FlagsView(s.conns[d], s'.conns[d], y);
    assert PairAt(s, y, d);
  }

  lemma RerouteKeeps(s: State, s': State)
    requires Inv(s) && Wired(s') && Reroute(s, s') == true
    ensures Inv(s')
  {
    hide Single, Related, Rerouted, Wired, ViewOf;
    forall d, y | d in s.conns
      ensures ViewOf(s'.conns[d], y) == ViewOf(s.conns[d], y).(fdOpen := s'.conns[d].fdOpen, registered := s'.conns[d].registered)
    {
      FlagsView(s.conns[d], s'.conns[d], y);
    }
    FlagsStayClosed(s, s');
    forall y, d | y in s.flows && d in s.conns
      ensures Rerouted(ContextOf(s, y), ContextOf(s', y), d, ViewOf(s.conns[d], y), ViewOf(s'.conns[d], y)) == true
    {
      RerouteContext(s, s', y, d);
    }
    Reroutes(s, s');
  }

  lemma RegisterReroutes(s: State, s': State, c: ConnId)
    requires Register(s, s', c)
    ensures Reroute(s, s')
  {
    forall d | d in s.conns
      ensures FlagsOnly(s.conns[d], s'.conns[d])
      ensures (s'.conns[d].fdOpen ==> s.conns[d].fdOpen) && (s.conns[d].registered ==> s'.conns[d].registered)
    {
      if d == c {
        assert s'.conns[d] == s.conns[d].(registered := true);
      } else if s.conns[c].agent in s.agents && s.agents[s.conns[c].agent] == d {
        assert s'.conns[d] == s.conns[d].(fdOpen := false);
      } else {
        assert s'.conns[d] == s.conns[d];
      }
    }
    hide FlagsOnly;
  }

  lemma RegisterKeeps(s: State, s': State, c: ConnId)
    requires Inv(s) && Register(s, s', c)
    ensures Inv(s')
  {
    hide Single, Related, Closed, SoloAt, PairAt, Reroute;
    RegisterReroutes(s, s', c);
    RegisterWires(s, s', c);
    RerouteKeeps(s, s');
  }

  lemma LeaveWires(s: State, s': State, c: ConnId)
    requires Wired(s) && Leave(s, s', c)
    ensures Wired(s')
  {
  }

  lemma LeaveReroutes(s: State, s': State, c: ConnId)
    requires Leave(s, s', c)
    ensures Reroute(s, s')
  {
  }

  lemma LeaveKeeps(s: State, s': State, c: ConnId)
    requires Inv(s) && Leave(s, s', c)
    ensures Inv(s')
  {
    hide Single, Related, Closed, SoloAt, PairAt, Reroute;
    LeaveReroutes(s, s', c);
    LeaveWires(s, s', c);
    RerouteKeeps(s, s');
  }

  lemma DropSessionsWires(s: State, s': State, c: ConnId)
    requires Wired(s) && DropSessions(s, s', c)
    ensures Wired(s')
  {
  }

  lemma DropSessionsReroutes(s: State, s': State, c: ConnId)
    requires DropSessions(s, s', c)
    ensures Reroute(s, s')
  {
  }

  lemma DropSessionsKeeps(s: State, s': State, c: ConnId)
    requires Inv(s) && DropSessions(s, s', c)
    ensures Inv(s')
  {
    hide Single, Related, Closed, SoloAt, PairAt, Reroute;
    DropSessionsReroutes(s, s', c);
    DropSessionsWires(s, s', c);
    RerouteKeeps(s, s');
  }

  lemma StopAgentsWires(s: State, s': State)
    requires Wired(s) && StopAgents(s, s')
    ensures Wired(s')
  {
  }

  lemma StopAgentsReroutes(s: State, s': State)
    requires StopAgents(s, s')
    ensures Reroute(s, s')
  {
  }

  lemma StopAgentsKeeps(s: State, s': State)
    requires Inv(s) && StopAgents(s, s')
    ensures Inv(s')
  {
    hide Single, Related, Closed, SoloAt, PairAt, Reroute;
    StopAgentsReroutes(s, s');
    StopAgentsWires(s, s');
    RerouteKeeps(s, s');
  }

  lemma StopSessionsWires(s: State, s': State)
    requires Wired(s) && StopSessions(s, s')
    ensures Wired(s')
  {
  }

  lemma StopSessionsReroutes(s: State, s': State)
    requires StopSessions(s, s')
    ensures Reroute(s, s')
  {
  }

  lemma StopSessionsKeeps(s: State, s': State)
    requires Inv(s) && StopSessions(s, s')
    ensures Inv(s')
  {
    hide Single, Related, Closed, SoloAt, PairAt, Reroute;
    StopSessionsReroutes(s, s');
    StopSessionsWires(s, s');
    RerouteKeeps(s, s');
  }
}
