/** Steps that concern one session, and at most one connection, keep the invariant. */
module TunnelSteps {
  import opened Results
  import opened Bytes
  import opened TunnelCodec
  import opened TunnelTables
  import opened TunnelSystem
  import opened TunnelSafety

  // ---- what other sessions see ------------------------------------------------------------------------

  /** The view has changed at most by a send having failed. */
  predicate Aged(v: View, v': View) {
    v' == v.(jammedA := v.jammedA || v'.jammedA, jammedS := v.jammedS || v'.jammedS)
  }

  lemma AgedKeeps(x: Context, c: ConnId, v: View, v': View)
    requires Pair(x, c, v) && Aged(v, v')
    ensures Pair(x, c, v')
  {
  }

  ghost predicate ConnOnly(k: Conn, k': Conn, sid: Sid) {
    && k'.agent == k.agent && k'.registered == k.registered && k'.up == k.up
    && forall y :: y != sid ==> Aged(ViewOf(k, y), ViewOf(k', y))
  }

  ghost predicate Reaches(s: State, f: Flow) {
    && (f.home.Some? ==> f.home.value in s.conns)
    && forall c :: Via(f.handler, c) ==> c in s.conns
  }

  ghost predicate SameElsewhere(s: State, sid: Sid, table: Sessions, waiting: set<Sid>) {
    forall y :: y != sid ==>
      && (y in table <==> y in s.sessions) && (y in waiting <==> y in s.pending)
      && (y in s.sessions ==> table[y] == s.sessions[y])
  }

  // ---- one session changes ----------------------------------------------------------------------------

  /** The state after session sid has become f and the tables have changed at most at sid. */
  function AfterFlow(s: State, sid: Sid, f: Flow, table: Sessions, waiting: set<Sid>): State {
    s.(flows := s.flows[sid := f], sessions := table, pending := waiting)
  }

  /** The state after connection c has become k as well. */
  function AfterConn(s: State, sid: Sid, f: Flow, table: Sessions, waiting: set<Sid>, c: ConnId, k: Conn): State {
    s.(flows := s.flows[sid := f], sessions := table, pending := waiting, conns := s.conns[c := k])
  }

  function NewContext(s: State, sid: Sid, f: Flow, table: Sessions, waiting: set<Sid>): Context {
    Context(sid, f, if sid in table then Some(table[sid]) else None, sid in waiting, Route(s, f))
  }

  ghost predicate Fit(s: State, sid: Sid, f: Flow, table: Sessions, waiting: set<Sid>) {
    && sid in s.flows && f.agent == s.flows[sid].agent && Reaches(s, f)
    && SameElsewhere(s, sid, table, waiting)
    && Solo(NewContext(s, sid, f, table, waiting))
  }

  lemma OtherSolo(s: State, sid: Sid, f: Flow, table: Sessions, waiting: set<Sid>, y: Sid)
    requires Inv(s) && Fit(s, sid, f, table, waiting) == true && y in s.flows && y != sid
    ensures Solo(ContextOf(s, y))
    ensures ContextOf(s, y) == ContextOf(AfterFlow(s, sid, f, table, waiting), y)
  {
    hide Single;
    assert SoloAt(s, y);
  }

  lemma TablesClosed(s: State, sid: Sid, f: Flow, table: Sessions, waiting: set<Sid>)
    requires Wired(s) && Closed(s) && Fit(s, sid, f, table, waiting) == true
    ensures Wired(AfterFlow(s, sid, f, table, waiting)) && Closed(AfterFlow(s, sid, f, table, waiting))
  {
    hide ViewOf, Single;
  }

  lemma FlowStep(s: State, sid: Sid, f: Flow, table: Sessions, waiting: set<Sid>)
    requires Inv(s) && Fit(s, sid, f, table, waiting) == true
    requires forall d :: d in s.conns ==> Pair(NewContext(s, sid, f, table, waiting), d, ViewOf(s.conns[d], sid))
    ensures Inv(AfterFlow(s, sid, f, table, waiting))
  {
    hide Single, Related, ViewOf, Wired, Closed;
    var s' := AfterFlow(s, sid, f, table, waiting);
    TablesClosed(s, sid, f, table, waiting);
    forall y | y in s'.flows
      ensures SoloAt(s', y)
      ensures forall d :: d in s'.conns ==> PairAt(s', y, d)
    {
      if y == sid {
        assert ContextOf(s', sid) == NewContext(s, sid, f, table, waiting);
      } else {
        OtherSolo(s, sid, f, table, waiting, y);
        forall d | d in s'.conns ensures PairAt(s', y, d) { assert PairAt(s, y, d); }
      }
    }
  }

  lemma ConnStaysWired(s: State, c: ConnId, k: Conn)
    requires Wired(s) && c in s.conns
    requires k.agent == s.conns[c].agent && k.registered == s.conns[c].registered && k.up == s.conns[c].up
    ensures Wired(s.(conns := s.conns[c := k]))
  {
  }

  lemma ConnStaysClosed(s: State, sid: Sid, c: ConnId, k: Conn)
    requires Closed(s) && sid in s.flows && c in s.conns && ConnOnly(s.conns[c], k, sid) == true
    ensures Closed(s.(conns := s.conns[c := k]))
  {
    hide ViewOf;
    var s' := s.(conns := s.conns[c := k]);
    forall y, d | y !in s'.flows && d in s'.conns
      ensures Silent(ViewOf(s'.conns[d], y))
    {
      assert Silent(ViewOf(s.conns[d], y));
      if d == c {
        assert Aged(ViewOf(s.conns[c], y), ViewOf(k, y));
      }
    }
  }

  lemma OtherPair(s: State, sid: Sid, c: ConnId, k: Conn, y: Sid, d: ConnId)
    requires Inv(s) && c in s.conns && ConnOnly(s.conns[c], k, sid) == true
    requires y in s.flows && y != sid && d in s.conns
    ensures Pair(ContextOf(s, y), d, ViewOf(if d == c then k else s.conns[d], y))
  {
    hide Related, ViewOf, Aged;
    assert PairAt(s, y, d);
    if d == c {
      AgedKeeps(ContextOf(s, y), c, ViewOf(s.conns[c], y), ViewOf(k, y));
    }
  }

  lemma ConnStep(s: State, sid: Sid, f: Flow, table: Sessions, waiting: set<Sid>, c: ConnId, k: Conn)
    requires Inv(s) && Fit(s, sid, f, table, waiting) == true
    requires c in s.conns && ConnOnly(s.conns[c], k, sid) == true
    requires forall d :: d in s.conns ==>
               Pair(NewContext(s, sid, f, table, waiting), d, ViewOf(if d == c then k else s.conns[d], sid))
    ensures Inv(AfterConn(s, sid, f, table, waiting, c, k))
  {
    hide Single, Related, ViewOf, Wired, Closed;
    var s1 := AfterFlow(s, sid, f, table, waiting);
    var s' := AfterConn(s, sid, f, table, waiting, c, k);
    assert s' == s1.(conns := s1.conns[c := k]);
    TablesClosed(s, sid, f, table, waiting);
    ConnStaysClosed(s1, sid, c, k);
    ConnStaysWired(s1, c, k);
    forall y | y in s'.flows
      ensures SoloAt(s', y)
      ensures forall d :: d in s'.conns ==> PairAt(s', y, d)
    {
      if y == sid {
        assert ContextOf(s', sid) == NewContext(s, sid, f, table, waiting);
      } else {
        OtherSolo(s, sid, f, table, waiting, y);
        forall d | d in s'.conns ensures PairAt(s', y, d) { OtherPair(s, sid, c, k, y, d); }
      }
    }
  }

  /** Putting back the flow that was there changes nothing. */
  lemma SameFlow(s: State, sid: Sid, table: Sessions, c: ConnId, k: Conn)
    requires sid in s.flows
    ensures AfterConn(s, sid, s.flows[sid], table, s.pending, c, k) == s.(sessions := table, conns := s.conns[c := k])
  {
    assert s.flows[sid := s.flows[sid]] == s.flows;
  }
}
