/**
 * What every reachable state of the two-node protocol satisfies. The proof looks at one session
 * and one connection at a time: a View is all that a connection holds about a session, and the
 * invariant relates a session's context to the views that the connections give of it.
 */
module TunnelSafety {
  import opened Results
  import opened Bytes
  import opened TunnelCodec
  import opened TunnelTables
  import opened TunnelSystem

  // ---- views --------------------------------------------------------------------------------------

  predicate About(m: Msg, sid: Sid) { !m.Control? && m.sid == sid }

  /** The frames of one session in a queue of frames. */
  function Filter(q: seq<Msg>, sid: Sid): seq<Msg> {
    if q == [] then [] else (if About(q[0], sid) then [q[0]] else []) + Filter(q[1..], sid)
  }

  /** The octets that a queue carries. */
  function Payload(q: seq<Msg>): seq<Octet> {
    if q == [] then [] else (if q[0].DataMsg? then q[0].payload else []) + Payload(q[1..])
  }

  lemma Associate<T>(a: seq<T>, b: seq<T>, c: seq<T>)
    ensures a + (b + c) == (a + b) + c
  {
  }

  lemma {:induction false} FilterPush(q: seq<Msg>, m: Msg, sid: Sid)
    ensures Filter(q + [m], sid) == if About(m, sid) then Filter(q, sid) + [m] else Filter(q, sid)
  {
    if q == [] {
      assert (q + [m])[1..] == [];
    } else {
      assert (q + [m])[1..] == q[1..] + [m];
      FilterPush(q[1..], m, sid);
      Associate(if About(q[0], sid) then [q[0]] else [], Filter(q[1..], sid), [m]);
    }
  }

  lemma {:induction false} PayloadPush(q: seq<Msg>, m: Msg)
    ensures Payload(q + [m]) == Payload(q) + (if m.DataMsg? then m.payload else [])
  {
    if q == [] {
      assert (q + [m])[1..] == [];
    } else {
      assert (q + [m])[1..] == q[1..] + [m];
      PayloadPush(q[1..], m);
      Associate(if q[0].DataMsg? then q[0].payload else [], Payload(q[1..]), if m.DataMsg? then m.payload else []);
    }
  }

  lemma {:induction false} PayloadNone(q: seq<Msg>)
    requires NoDataIn(q)
    ensures Payload(q) == []
  {
    if q != [] {
      assert forall i :: 0 <= i < |q[1..]| ==> q[1..][i] == q[i + 1];
      PayloadNone(q[1..]);
    }
  }

  lemma {:induction false} FilterNone(q: seq<Msg>, sid: Sid)
    requires !Mentions(q, sid)
    ensures Filter(q, sid) == []
  {
    if q != [] {
      assert !q[0].Control? ==> q[0].sid != sid;
      assert forall i :: 0 <= i < |q[1..]| ==> q[1..][i] == q[i + 1];
      FilterNone(q[1..], sid);
    }
  }

  lemma FromConcat(a: seq<Octet>, b: seq<Octet>, origin: Origin)
    ensures From(a + b, origin) <==> From(a, origin) && From(b, origin)
  {
    if From(a + b, origin) {
      assert forall i :: 0 <= i < |a| ==> a[i] == (a + b)[i];
      assert forall i :: 0 <= i < |b| ==> b[i] == (a + b)[|a| + i];
    }
  }

  /** All that one connection holds about one session. */
  datatype View = View(agent: AgentId, inbox: seq<Msg>, outbox: seq<Msg>,
                       jammedA: bool, jammedS: bool, registered: bool, fdOpen: bool, up: bool,
                       held: Option<Socket>, main: Main, receiver: Receiver)

  function ViewOf(k: Conn, sid: Sid): View {
    View(k.agent, Filter(k.toAgent, sid), Filter(k.toServer, sid),
         k.jammedA, k.jammedS, k.registered, k.fdOpen, k.up,
         if sid in k.held then Some(k.held[sid]) else None,
         if MainMentions(k.main, sid) then k.main else Serving,
         if ReceiverMentions(k.receiver, sid) then k.receiver else Listening)
  }

  /** All that the rest of the state holds about one session. */
  datatype Context = Context(sid: Sid, flow: Flow, entry: Option<Session>, pending: bool, route: Option<ConnId>)

  function ContextOf(s: State, sid: Sid): Context
    requires sid in s.flows
  {
    Context(sid, s.flows[sid], if sid in s.sessions then Some(s.sessions[sid]) else None,
            sid in s.pending, Route(s, s.flows[sid]))
  }

  /** What the two main threads still have to write for the session. */
  function AgentHand(v: View): seq<Octet> { if v.main.Writing? then v.main.data else [] }

  function ServerHand(v: View): seq<Octet> { if v.receiver.Forwarding? then v.receiver.data else [] }

  /** What the session's own two threads have read and not yet sent. */
  function HandlerData(f: Flow): seq<Octet> {
    if f.handler.Holding? || f.handler.Sending? then f.handler.data else []
  }

  function ReaderData(f: Flow): seq<Octet> { if f.reader.Carrying? then f.reader.data else [] }

  // ---- the invariant --------------------------------------------------------------------------------

  predicate Opens(h: Handler) { h == Generated || h == Listed || h.SendingOpen? }

  predicate Relays(h: Handler) {
    || h == Acked || h == Relaying || h == Closing || h == CloseSent || h == Erased
    || h.Holding? || h.Sending? || h.SendingClose?
  }

  predicate Via(h: Handler, c: ConnId) {
    (h.SendingOpen? || h.Sending? || h.SendingClose?) && h.via == c
  }

  predicate NoOpen(q: seq<Msg>) { forall i :: 0 <= i < |q| ==> !q[i].OpenMsg? }

  predicate NoAck(q: seq<Msg>) { forall i :: 0 <= i < |q| ==> !q[i].OpenAckMsg? }

  /** The stages of a session's life come in order. */
  predicate Staged(x: Context) {
    var f := x.flow;
    && (Opens(f.handler) ==> f.home.None?)
    && (Opens(f.handler) || f.handler == OpenSent ==> f.promise == Unresolved)
    && (f.popped ==> f.home.Some?) && (f.installed ==> f.popped) && (f.acked ==> f.installed)
    && (f.reader != NotStarted ==> f.popped)
    && (f.promise == Success ==> f.acked)
    && (Relays(f.handler) ==> f.promise == Success)
    && (f.fdSet ==> f.promise == Success)
  }

  /** The server's tables agree with the thread that owns the session. */
  predicate Tabled(x: Context) {
    var f := x.flow;
    && (x.pending ==> f.promise == Unresolved && (f.handler == Waiting || f.handler == TimedOut))
    && (f.handler == Waiting && f.promise == Unresolved ==> x.pending)
    && (x.entry.Some? ==>
          && f.handler != Generated && f.handler != Done(true)
          && x.entry.value.agent == f.agent
          && (x.entry.value.external.Some? <==> f.fdSet)
          && (x.entry.value.external.Some? ==> x.entry.value.external.value == x.sid))
  }

  /** The histories that do not depend on a connection. */
  predicate Recorded(x: Context) {
    var f := x.flow;
    && (f.promise != Success ==> f.clientRead == [])
    && f.targetWritten <= f.clientRead
    && (!f.fdSet ==> f.clientWritten == [])
    && (f.home.None? ==> f.targetRead == [] && f.dropped == [] && f.clientWritten == [] && !f.skipped && !f.lost)
    && (f.handler.Sending? && !f.lost ==> f.home == Some(f.handler.via))
  }

  predicate Tagged(x: Context) {
    var f := x.flow;
    && From(f.clientRead, Client(x.sid)) && From(f.targetWritten, Client(x.sid)) && From(HandlerData(f), Client(x.sid))
    && From(f.targetRead, Target(x.sid)) && From(f.clientWritten, Target(x.sid)) && From(ReaderData(f), Target(x.sid))
  }

  predicate Single(x: Context) { Staged(x) && Tabled(x) && Recorded(x) && Tagged(x) }

  /** Writing "== true" makes the verifier treat the invariant as one fact where it is passed on. */
  predicate Solo(x: Context) { Single(x) == true }

  /** Which frames and which thread states can occur where. */
  predicate Placed(x: Context, c: ConnId, v: View) {
    var f := x.flow;
    && (f.home == Some(c) || Via(f.handler, c) ==> v.agent == f.agent && v.registered)
    && (f.promise != Success ==> v.inbox == if f.home == Some(c) && !f.popped then [OpenMsg(x.sid)] else [])
    && (f.promise == Success ==> NoOpen(v.inbox))
    && (!f.acked ==> NoAck(v.outbox))
    && (v.held.Some? ==> v.held == Some(x.sid) && f.home == Some(c) && f.installed && v.up)
    && (v.main.Opening? ==> f.home == Some(c) && f.popped && !f.installed)
    && (v.main.Acking? ==> f.home == Some(c) && f.installed)
    && (v.main.Writing? ==> f.home == Some(c) && f.promise == Success && v.main.fd == x.sid)
    && (v.receiver.Forwarding? ==> f.fdSet && v.receiver.fd == x.sid)
    && From(Payload(v.inbox), Client(x.sid)) && From(AgentHand(v), Client(x.sid))
    && From(Payload(v.outbox), Target(x.sid)) && From(ServerHand(v), Target(x.sid))
  }

  /**
   * Octets on their way to a target: written, in the main thread's hand, queued, in the handler's
   * hand, read. What has been written is a prefix of what was read; nothing in between is missing
   * while the agent holds the session and the handler has lost nothing.
   */
  predicate Delivered(written: seq<Octet>, hand: seq<Octet>, queued: seq<Octet>, kept: seq<Octet>,
                      read: seq<Octet>, held: bool, lost: bool)
  {
    && written + hand <= read
    && (held ==> written + hand + queued <= read)
    && (held && !lost ==> written + hand + queued + kept == read)
  }

  /** Octets on their way to a client, the first of them dropped while it was not yet connected. */
  predicate Split(dropped: seq<Octet>, written: seq<Octet>, hand: seq<Octet>, queued: seq<Octet>,
                  kept: seq<Octet>, read: seq<Octet>)
  {
    dropped + written + hand + queued + kept == read
  }

  /** Client to target, over the home connection. */
  predicate Forward(x: Context, c: ConnId, v: View) {
    var f := x.flow;
    f.home == Some(c) ==>
      && Delivered(f.targetWritten, AgentHand(v), Payload(v.inbox), HandlerData(f), f.clientRead, v.held.Some?, f.lost)
      && (f.lost ==> x.route != Some(c) || !v.fdOpen || v.jammedA)
      && (f.lost && f.handler.Sending? && f.handler.via == c ==> !v.fdOpen || v.jammedA)
  }

  /** Target to client, over the home connection and over the others. */
  predicate Reverse(x: Context, c: ConnId, v: View) {
    var f := x.flow;
    if f.home == Some(c) then
      && (!f.skipped ==> Split(f.dropped, f.clientWritten, ServerHand(v), Payload(v.outbox), ReaderData(f), f.targetRead))
      && (f.skipped ==> x.entry.None? || !v.up || v.jammedS)
    else
      !f.skipped ==> NoDataIn(v.outbox) && !v.receiver.Forwarding?
  }

  predicate NoDataIn(q: seq<Msg>) { forall i :: 0 <= i < |q| ==> !q[i].DataMsg? }

  predicate Related(x: Context, c: ConnId, v: View) { Placed(x, c, v) && Forward(x, c, v) && Reverse(x, c, v) }

  predicate Pair(x: Context, c: ConnId, v: View) { Related(x, c, v) == true }

  predicate Silent(v: View) {
    v.inbox == [] && v.outbox == [] && v.held.None? && v.main == Serving && v.receiver == Listening
  }

  /** Routing tables and connections agree. */
  ghost predicate Wired(s: State) {
    && (forall a :: a in s.agents ==>
          s.agents[a] in s.conns && s.conns[s.agents[a]].registered && s.conns[s.agents[a]].agent == a)
    && (forall a :: a in s.current ==> s.current[a] in s.conns)
    && (forall c :: c in s.conns && s.conns[c].up ==>
          s.conns[c].agent in s.current && s.current[s.conns[c].agent] == c)
    && (forall sid :: sid in s.flows && s.flows[sid].home.Some? ==> s.flows[sid].home.value in s.conns)
    && (forall sid, c :: sid in s.flows && Via(s.flows[sid].handler, c) ==> c in s.conns)
  }

  /** An id that has no session occurs nowhere. */
  ghost predicate Closed(s: State) {
    && (forall sid :: sid in s.sessions ==> sid in s.flows)
    && (forall sid :: sid in s.pending ==> sid in s.flows)
    && (forall sid, c :: sid !in s.flows && c in s.conns ==> Silent(ViewOf(s.conns[c], sid)))
  }

  ghost predicate SoloAt(s: State, sid: Sid)
    requires sid in s.flows
  {
    Solo(ContextOf(s, sid))
  }

  ghost predicate PairAt(s: State, sid: Sid, c: ConnId)
    requires sid in s.flows && c in s.conns
  {
    Pair(ContextOf(s, sid), c, ViewOf(s.conns[c], sid))
  }

  ghost predicate Holds(s: State) {
    && Wired(s) && Closed(s)
    && (forall sid :: sid in s.flows ==> SoloAt(s, sid))
    && (forall sid, c :: sid in s.flows && c in s.conns ==> PairAt(s, sid, c))
  }

  ghost predicate Inv(s: State) { Holds(s) == true }
}
