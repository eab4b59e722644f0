/**
 * Session ids come from a 32-bit counter that skips zero and looks at no table
 * (`generate_session_id`). The state machine's guard on new ids is discharged here: it holds in every
 * run in which no session outlives the 2^32 - 2 sessions begun after it.
 */
module TunnelIds {
  import opened Results
  import opened Bytes
  import opened TunnelCodec
  import opened TunnelTables
  import opened TunnelSystem
  import opened TunnelSafety
  import opened TunnelTheorems
  import opened TunnelHistory

  /** The state, and how many ids have been handed out. */
  datatype Counted = Counted(state: State, calls: nat)

  /** A thread takes the next id, whoever may still use it. */
  ghost predicate TakeId(x: Counted, y: Counted, agent: AgentId) {
    y == Counted(WithFlow(x.state, IdOfCall(x.calls), NewFlow(agent)), x.calls + 1)
  }

  ghost predicate CountedStep(x: Counted, y: Counted) {
    (exists agent :: TakeId(x, y, agent)) || (y.calls == x.calls && Proceeds(x.state, y.state))
  }

  ghost predicate CountedRun(t: seq<Counted>) {
    && |t| > 0 && t[0] == Counted(START, 0)
    && forall i :: 0 <= i < |t| - 1 ==> CountedStep(t[i], t[i + 1])
  }

  /** When an id comes round again, nothing carries it any more. */
  ghost predicate NoneOutlives(t: seq<Counted>) {
    forall i :: 0 <= i < |t| - 1 && t[i + 1].calls > t[i].calls >= IDS ==> IdUnused(t[i].state, IdOfCall(t[i].calls - IDS))
  }

  function States(t: seq<Counted>): seq<State> { seq(|t|, i requires 0 <= i < |t| => t[i].state) }

  // ---- ids that have not been given out ---------------------------------------------------------------------

  lemma SilentIsUnused(k: Conn, sid: Sid)
    requires Silent(ViewOf(k, sid))
    ensures sid !in k.held && !Mentions(k.toAgent, sid) && !Mentions(k.toServer, sid)
    ensures !MainMentions(k.main, sid) && !ReceiverMentions(k.receiver, sid)
  {
    if i :| 0 <= i < |k.toAgent| && About(k.toAgent[i], sid) { FilterKeeps(k.toAgent, i, sid); }
    if i :| 0 <= i < |k.toServer| && About(k.toServer[i], sid) { FilterKeeps(k.toServer, i, sid); }
  }

  lemma NewIdIsUnused(s: State, sid: Sid)
    requires Inv(s) && sid !in s.flows
    ensures IdUnused(s, sid)
  {
    forall c | c in s.conns
      ensures sid !in s.conns[c].held && !Mentions(s.conns[c].toAgent, sid) && !Mentions(s.conns[c].toServer, sid)
              && !MainMentions(s.conns[c].main, sid) && !ReceiverMentions(s.conns[c].receiver, sid)
    {
      assert Silent(ViewOf(s.conns[c], sid));
      SilentIsUnused(s.conns[c], sid);
    }
  }

  /** Every session has the id of some call. */
  ghost predicate Numbered(x: Counted) {
    forall sid :: sid in x.state.flows ==> exists k: nat :: k < x.calls && sid == IdOfCall(k)
  }

  /** In the first 2^32 - 1 calls the id is new; afterwards it has come round. */
  lemma NextIdIsUnused(x: Counted)
    requires Inv(x.state) && Numbered(x)
    requires x.calls >= IDS ==> IdUnused(x.state, IdOfCall(x.calls - IDS))
    ensures IdUnused(x.state, IdOfCall(x.calls))
  {
    hide Holds, IdUnused;
    var sid := IdOfCall(x.calls);
    if x.calls >= IDS {
      IdsDistinctInWindow(x.calls - IDS, x.calls);
    } else {
      forall k: nat | k < x.calls ensures IdOfCall(k) != sid { IdsDistinctInWindow(k, x.calls); }
      NewIdIsUnused(x.state, sid);
    }
  }

  lemma TakeIdKeepsNumbered(x: Counted, y: Counted, agent: AgentId)
    requires Numbered(x) && TakeId(x, y, agent)
    ensures Numbered(y)
  {
    forall sid | sid in y.state.flows ensures exists k: nat :: k < y.calls && sid == IdOfCall(k) {
      if sid == IdOfCall(x.calls) {
        assert x.calls < y.calls;
      } else {
        var k: nat :| k < x.calls && sid == IdOfCall(k);
        assert k < y.calls;
      }
    }
  }

  lemma ProceedKeepsNumbered(x: Counted, y: Counted)
    requires Inv(x.state) && Numbered(x) && y.calls == x.calls && Proceeds(x.state, y.state)
    ensures Numbered(y)
  {
    hide Holds, Proceeds;
    forall sid | sid in y.state.flows ensures sid in x.state.flows { ProceedHistory(x.state, y.state, sid); }
  }

  lemma ProceedsIsNext(s: State, s': State)
    requires Proceeds(s, s')
    ensures Next(s, s')
  {
    hide HandlerMove, ServerStep, AgentStep, ReaderStep, Generate;
    if sid :| HandlerMove(s, s', sid) { assert HandlerStep(s, s', sid); }
  }

  lemma TakeIdIsNext(x: Counted, y: Counted, agent: AgentId)
    requires TakeId(x, y, agent) && IdUnused(x.state, IdOfCall(x.calls))
    ensures Next(x.state, y.state)
  {
    hide IdUnused, HandlerMove, ServerStep, AgentStep, ReaderStep;
    assert Generate(x.state, y.state, IdOfCall(x.calls), agent);
    assert HandlerStep(x.state, y.state, IdOfCall(x.calls));
  }

  lemma StepIsNext(x: Counted, y: Counted)
    requires Inv(x.state) && Numbered(x) && CountedStep(x, y)
    requires y.calls > x.calls >= IDS ==> IdUnused(x.state, IdOfCall(x.calls - IDS))
    ensures Next(x.state, y.state) && Numbered(y)
  {
    hide Holds, Proceeds, IdUnused, TunnelSystem.Next, Numbered;
    if y.calls == x.calls {
      assert Proceeds(x.state, y.state);
      ProceedsIsNext(x.state, y.state);
      ProceedKeepsNumbered(x, y);
    } else {
      var agent :| TakeId(x, y, agent);
      NextIdIsUnused(x);
      TakeIdIsNext(x, y, agent);
      TakeIdKeepsNumbered(x, y, agent);
    }
  }

  // ---- runs ---------------------------------------------------------------------------------------------------

  lemma {:induction false} CountedPrefixIsRun(t: seq<Counted>, n: nat)
    requires CountedRun(t) && NoneOutlives(t) && n < |t|
    ensures Run(States(t[..n + 1])) && Numbered(t[n])
  {
    hide TunnelSystem.Next, CountedStep, IdUnused, Holds;
    var r := States(t[..n + 1]);
    if n == 0 {
      assert t[0].state.flows == map[];
    } else {
      CountedPrefixIsRun(t, n - 1);
      var q := States(t[..n]);
      assert t[..n - 1 + 1] == t[..n];
      RunKeepsInv(q, n - 1);
      assert CountedStep(t[n - 1], t[n - 1 + 1]);
      StepIsNext(t[n - 1], t[n]);
      forall i | 0 <= i < |r| - 1 ensures TunnelSystem.Next(r[i], r[i + 1]) {
        if i < n - 1 { assert r[i] == q[i] && r[i + 1] == q[i + 1]; }
      }
    }
  }

  /** As long as no session outlives a whole round of ids, the counter's ids satisfy the guard throughout. */
  lemma CounterSatisfiesGuard(t: seq<Counted>)
    requires CountedRun(t) && NoneOutlives(t)
    ensures Run(States(t))
  {
    CountedPrefixIsRun(t, |t| - 1);
    assert t[..|t| - 1 + 1] == t;
  }

  lemma {:induction false} CallsOnlyRise(t: seq<Counted>, m: nat, n: nat)
    requires CountedRun(t) && m <= n < |t|
    ensures t[m].calls <= t[n].calls
    decreases n - m
  {
    hide Proceeds;
    if m < n {
      assert CountedStep(t[m], t[m + 1]);
      CallsOnlyRise(t, m + 1, n);
    }
  }

  /** Nothing needs to be said about runs that begin at most 2^32 - 1 sessions. */
  lemma ShortRunsNeedNothing(t: seq<Counted>)
    requires CountedRun(t) && t[|t| - 1].calls <= IDS
    ensures NoneOutlives(t)
  {
    hide CountedStep, IdUnused;
    forall i | 0 <= i < |t| - 1 && t[i + 1].calls > t[i].calls >= IDS ensures false { CallsOnlyRise(t, i + 1, |t| - 1); }
  }

  // ---- what follows from the counter ----------------------------------------------------------------------------

  /** No octet of one session reaches another session's target or client. */
  lemma CounterIsolates(t: seq<Counted>, n: nat, sid: Sid, o: Octet)
    requires CountedRun(t) && (t[|t| - 1].calls <= IDS || NoneOutlives(t)) && n < |t| && sid in t[n].state.flows
    ensures o in t[n].state.flows[sid].targetWritten ==> o.origin == Client(sid)
    ensures o in t[n].state.flows[sid].clientWritten ==> o.origin == Target(sid)
  {
    hide CountedRun, NoneOutlives, Run;
    if t[|t| - 1].calls <= IDS { ShortRunsNeedNothing(t); }
    CounterSatisfiesGuard(t);
    SessionsAreIsolated(States(t), n, sid, o);
  }

  /** Nor is an octet missing or out of order, in either direction, under the conditions of conservation. */
  lemma CounterConserves(t: seq<Counted>, n: nat, sid: Sid, c: ConnId)
    requires CountedRun(t) && (t[|t| - 1].calls <= IDS || NoneOutlives(t)) && n < |t|
    requires sid in t[n].state.flows && c in t[n].state.conns && t[n].state.flows[sid].home == Some(c)
    ensures var s := t[n].state; var f, k := s.flows[sid], s.conns[c];
            && f.targetWritten <= f.clientRead
            && (Route(s, f) == Some(c) && k.fdOpen && !k.jammedA && sid in k.held ==>
                  f.targetWritten + ForwardInFlight(s, sid, c) == f.clientRead)
            && (sid in s.sessions && k.up && !k.jammedS ==>
                  f.dropped + f.clientWritten + ReverseInFlight(s, sid, c) == f.targetRead)
  {
    hide CountedRun, NoneOutlives, Run, ForwardInFlight, ReverseInFlight;
    if t[|t| - 1].calls <= IDS { ShortRunsNeedNothing(t); }
    CounterSatisfiesGuard(t);
    var s := t[n].state; var f, k := s.flows[sid], s.conns[c];
    var r := States(t);
    TargetGetsPrefix(r, n, sid);
    if Route(s, f) == Some(c) && k.fdOpen && !k.jammedA && sid in k.held { ForwardConserves(r, n, sid, c); }
    if sid in s.sessions && k.up && !k.jammedS { ReverseConserves(r, n, sid, c); }
  }
}
