/**
 * Two runs of the reverse tunnel, step by step: one in which an octet gets from a client to its
 * target, and one in which the OPEN_ACK comes before its waiter has registered itself.
 */
module TunnelExamples {
  import opened Results
  import opened Bytes
  import opened TunnelCodec
  import opened TunnelTables
  import opened TunnelSystem
  import opened TunnelHistory
  import TunnelLostAck

  const AGENT: AgentId := "agent"
  const SID: Sid := 1
  const LINK: ConnId := 0

  const OCTET := Octet(65, Client(SID))

  // ---- states with one connection and at most one session ------------------------------------------------------

  /** The agent is registered and has no session. */
  function Quiescent(k: Conn): State { State(map[], {}, map[AGENT := LINK], map[AGENT := LINK], map[LINK := k], map[]) }

  function Single(k: Conn, f: Flow, entry: Session, waiting: set<Sid>): State {
    State(map[SID := entry], waiting, map[AGENT := LINK], map[AGENT := LINK], map[LINK := k], map[SID := f])
  }

  const LISTED := Session(AGENT, None)
  const IDLE_CONN := NewConn(AGENT).(registered := true, main := Serving)
  const OPENED := NewFlow(AGENT).(handler := OpenSent, home := Some(LINK))
  const POPPED := OPENED.(popped := true, reader := Reading)
  const HELD := IDLE_CONN.(held := map[SID := SID])

  lemma HandlerIsNext(s: State, s': State, sid: Sid)
    requires HandlerStep(s, s', sid)
    ensures TunnelSystem.Next(s, s')
  {
    hide HandlerStep;
  }

  lemma ServerIsNext(s: State, s': State, c: ConnId)
    requires ServerStep(s, s', c)
    ensures TunnelSystem.Next(s, s')
  {
    hide ServerStep;
  }

  lemma AgentIsNext(s: State, s': State, c: ConnId)
    requires AgentStep(s, s', c)
    ensures TunnelSystem.Next(s, s')
  {
    hide AgentStep;
  }

  lemma SingleUpdates(k: Conn, k1: Conn, f: Flow, f1: Flow, e: Session, w: set<Sid>)
    ensures WithFlow(Single(k, f, e, w), SID, f1) == Single(k, f1, e, w)
    ensures WithConn(Single(k, f, e, w), LINK, k1) == Single(k1, f, e, w)
    ensures WithConn(WithFlow(Single(k, f, e, w), SID, f1), LINK, k1) == Single(k1, f1, e, w)
  {
    assert map[SID := f][SID := f1] == map[SID := f1] && map[LINK := k][LINK := k1] == map[LINK := k1];
  }

  // ---- single steps in such states -------------------------------------------------------------------------------

  lemma Greets(k: Conn)
    requires k.fdOpen && !k.jammedA && k.up && k.main == Greeting && k.toAgent == []
    ensures TunnelSystem.Next(Quiescent(k), Quiescent(k.(toAgent := [Control])))
    ensures TunnelSystem.Next(Quiescent(k.(toAgent := [Control])), Quiescent(k.(main := Serving)))
  {
    var k1 := k.(toAgent := [Control]);
    var s, s1, s2 := Quiescent(k), Quiescent(k1), Quiescent(k.(main := Serving));
    assert k.toAgent + [Control] == [Control] && k1.toAgent[1..] == k.toAgent;
    assert map[LINK := k][LINK := k1] == map[LINK := k1];
    assert map[LINK := k1][LINK := k.(main := Serving)] == map[LINK := k.(main := Serving)];
    assert SendControl(s, s1, LINK, false);
    ServerIsNext(s, s1, LINK);
    assert k.(main := Serving) == k1.(toAgent := k1.toAgent[1..], main := Serving);
    assert AgentReceive(s1, s2, LINK, false);
    AgentIsNext(s1, s2, LINK);
  }

  lemma Opens(k: Conn, f: Flow, e: Session)
    requires f.handler == Listed && f.agent == AGENT && k.fdOpen && !k.jammedA && k.toAgent == []
    ensures var g := f.(handler := SendingOpen(LINK));
            && TunnelSystem.Next(Single(k, f, e, {}), Single(k, g, e, {}))
            && TunnelSystem.Next(Single(k, g, e, {}),
                                 Single(k.(toAgent := [OpenMsg(SID)]), f.(handler := OpenSent, home := Some(LINK)), e, {}))
  {
    var g, h := f.(handler := SendingOpen(LINK)), f.(handler := OpenSent, home := Some(LINK));
    var k1 := k.(toAgent := [OpenMsg(SID)]);
    SingleUpdates(k, k, f, g, e, {});
    SingleUpdates(k, k1, g, h, e, {});
    assert k.toAgent + [OpenMsg(SID)] == [OpenMsg(SID)];
    hide WithFlow, WithConn;
    assert LookupOpen(Single(k, f, e, {}), Single(k, g, e, {}), SID);
    HandlerIsNext(Single(k, f, e, {}), Single(k, g, e, {}), SID);
    assert SendOpen(Single(k, g, e, {}), Single(k1, h, e, {}), SID);
    HandlerIsNext(Single(k, g, e, {}), Single(k1, h, e, {}), SID);
  }

  lemma Takes(k: Conn, f: Flow, e: Session, w: set<Sid>)
    requires k.up && k.main == Serving && k.toAgent == [OpenMsg(SID)]
    ensures TunnelSystem.Next(Single(k, f, e, w),
                              Single(k.(toAgent := [], main := Opening(SID)), f.(popped := true, reader := Reading), e, w))
  {
    var k1, g := k.(toAgent := [], main := Opening(SID)), f.(popped := true, reader := Reading);
    SingleUpdates(k, k1, f, g, e, w);
    assert k.toAgent[1..] == [];
    hide WithFlow, WithConn;
    assert AgentReceive(Single(k, f, e, w), Single(k1, g, e, w), LINK, true);
    AgentIsNext(Single(k, f, e, w), Single(k1, g, e, w), LINK);
  }

  lemma Installs(k: Conn, f: Flow, e: Session, w: set<Sid>)
    requires k.up && k.main == Opening(SID) && k.held == map[]
    ensures TunnelSystem.Next(Single(k, f, e, w),
                              Single(k.(held := map[SID := SID], main := Acking(SID)), f.(installed := true), e, w))
  {
    var k1, g := k.(held := map[SID := SID], main := Acking(SID)), f.(installed := true);
    SingleUpdates(k, k1, f, g, e, w);
    assert k.held[SID := SID] == map[SID := SID];
    hide WithFlow, WithConn;
    assert Install(Single(k, f, e, w), Single(k1, g, e, w), LINK);
    AgentIsNext(Single(k, f, e, w), Single(k1, g, e, w), LINK);
  }

  lemma Acknowledges(k: Conn, f: Flow, e: Session, w: set<Sid>)
    requires k.up && k.main == Acking(SID) && !k.jammedS && k.toServer == []
    ensures TunnelSystem.Next(Single(k, f, e, w),
                              Single(k.(toServer := [OpenAckMsg(SID)], main := Serving), f.(acked := true), e, w))
  {
    var k1, g := k.(toServer := [OpenAckMsg(SID)], main := Serving), f.(acked := true);
    SingleUpdates(k, k1, f, g, e, w);
    assert k.toServer + [OpenAckMsg(SID)] == [OpenAckMsg(SID)];
    hide WithFlow, WithConn;
    assert SendAck(Single(k, f, e, w), Single(k1, g, e, w), LINK);
    AgentIsNext(Single(k, f, e, w), Single(k1, g, e, w), LINK);
  }

  /** The waiter is woken if it is registered. */
  lemma TakesAck(k: Conn, f: Flow, e: Session, w: set<Sid>)
    requires k.registered && k.receiver == Listening && k.toServer == [OpenAckMsg(SID)] && f.promise == Unresolved
    requires w == {} || w == {SID}
    ensures var g := if w == {} then f else f.(promise := Success);
            && TunnelLostAck.Takes(Single(k, f, e, w), Single(k.(toServer := []), g, e, {}), LINK, SID)
            && TunnelSystem.Next(Single(k, f, e, w), Single(k.(toServer := []), g, e, {}))
  {
    var k1, g := k.(toServer := []), if w == {} then f else f.(promise := Success);
    SingleUpdates(k, k1, f, f, e, w);
    SingleUpdates(k1, k1, f, g, e, w);
    assert k.toServer[1..] == [];
    assert {SID} - {SID} == {};
    hide WithFlow, WithConn;
    assert ServerReceive(Single(k, f, e, w), Single(k1, g, e, {}), LINK);
    ServerIsNext(Single(k, f, e, w), Single(k1, g, e, {}), LINK);
  }

  lemma RegistersPromise(k: Conn, f: Flow, e: Session)
    requires f.handler == OpenSent
    ensures TunnelSystem.Next(Single(k, f, e, {}), Single(k, f.(handler := Waiting), e, {SID}))
  {
    var g := f.(handler := Waiting);
    SingleUpdates(k, k, f, g, e, {});
    assert {} + {SID} == {SID};
    hide WithFlow;
    assert RegisterPromise(Single(k, f, e, {}), Single(k, g, e, {SID}), SID);
    HandlerIsNext(Single(k, f, e, {}), Single(k, g, e, {SID}), SID);
  }

  /** The steps of the client's thread that touch nothing but its own record. */
  lemma HandlerGoesOn(k: Conn, f: Flow, e: Session, w: set<Sid>, g: Flow)
    requires || (f.handler == Waiting && f.promise == Unresolved && g == f.(handler := TimedOut))
             || (f.handler == Waiting && f.promise == Success && g == f.(handler := Acked))
             || (f.handler == Relaying && f.clientRead == [] && g == f.(handler := Holding([OCTET]), clientRead := [OCTET]))
             || (f.handler == Holding([OCTET]) && f.agent == AGENT && f.home == Some(LINK)
                 && g == f.(handler := Sending(LINK, [OCTET])))
    ensures TunnelSystem.Next(Single(k, f, e, w), Single(k, g, e, w))
  {
    var s, s' := Single(k, f, e, w), Single(k, g, e, w);
    SingleUpdates(k, k, f, g, e, w);
    assert f.clientRead == [] ==> f.clientRead + [OCTET] == [OCTET];
    hide WithFlow;
    assert TimeOut(s, s', SID) || Wake(s, s', SID) || ReadClient(s, s', SID, [OCTET]) || LookupData(s, s', SID);
    HandlerIsNext(s, s', SID);
  }

  lemma AttachesClient(k: Conn, f: Flow)
    requires f.handler == Acked
    ensures TunnelSystem.Next(Single(k, f, LISTED, {}), Single(k, f.(handler := Relaying, fdSet := true), ATTACHED, {}))
  {
    var g := f.(handler := Relaying, fdSet := true);
    SingleUpdates(k, k, f, g, LISTED, {});
    assert map[SID := LISTED][SID := ATTACHED] == map[SID := ATTACHED];
    hide WithFlow;
    assert SetFd(Single(k, f, LISTED, {}), Single(k, g, ATTACHED, {}), SID);
    HandlerIsNext(Single(k, f, LISTED, {}), Single(k, g, ATTACHED, {}), SID);
  }

  lemma SendsOctet(k: Conn, f: Flow, e: Session)
    requires f.handler == Sending(LINK, [OCTET]) && k.fdOpen && !k.jammedA && k.toAgent == []
    ensures TunnelSystem.Next(Single(k, f, e, {}),
                              Single(k.(toAgent := [DataMsg(SID, [OCTET])]), f.(handler := Relaying), e, {}))
  {
    var k1, g := k.(toAgent := [DataMsg(SID, [OCTET])]), f.(handler := Relaying);
    SingleUpdates(k, k1, f, g, e, {});
    assert k.toAgent + [DataMsg(SID, [OCTET])] == [DataMsg(SID, [OCTET])];
    hide WithFlow, WithConn;
    assert SendData(Single(k, f, e, {}), Single(k1, g, e, {}), SID);
    HandlerIsNext(Single(k, f, e, {}), Single(k1, g, e, {}), SID);
  }

  lemma TakesOctet(k: Conn, f: Flow, e: Session)
    requires k.up && k.main == Serving && k.toAgent == [DataMsg(SID, [OCTET])] && k.held == map[SID := SID]
    ensures TunnelSystem.Next(Single(k, f, e, {}), Single(k.(toAgent := [], main := Writing(SID, SID, [OCTET])), f, e, {}))
  {
    var k1 := k.(toAgent := [], main := Writing(SID, SID, [OCTET]));
    SingleUpdates(k, k1, f, f, e, {});
    assert k.toAgent[1..] == [];
    hide WithFlow, WithConn;
    assert AgentReceive(Single(k, f, e, {}), Single(k1, f, e, {}), LINK, true);
    AgentIsNext(Single(k, f, e, {}), Single(k1, f, e, {}), LINK);
  }

  lemma WritesOctet(k: Conn, f: Flow, e: Session)
    requires k.up && k.main == Writing(SID, SID, [OCTET]) && SID in k.held && f.targetWritten == []
    ensures TunnelSystem.Next(Single(k, f, e, {}), Single(k.(main := Serving), f.(targetWritten := [OCTET]), e, {}))
  {
    var k1, g := k.(main := Serving), f.(targetWritten := [OCTET]);
    SingleUpdates(k, k1, f, g, e, {});
    assert f.targetWritten + [OCTET][..1] == [OCTET];
    hide WithFlow, WithConn;
    assert WriteTarget(Single(k, f, e, {}), Single(k1, g, e, {}), LINK, 1);
    AgentIsNext(Single(k, f, e, {}), Single(k1, g, e, {}), LINK);
  }

  // ---- the beginning of both runs --------------------------------------------------------------------------------

  /** The agent connects, registers and is greeted; a client's thread gets an id and sends OPEN. */
  function Beginning(): seq<State> {
    [ START,
      START.(conns := map[LINK := NewConn(AGENT)], current := map[AGENT := LINK]),
      Quiescent(NewConn(AGENT).(registered := true)),
      Quiescent(NewConn(AGENT).(registered := true, toAgent := [Control])),
      Quiescent(IDLE_CONN),
      Quiescent(IDLE_CONN).(flows := map[SID := NewFlow(AGENT)]),
      Single(IDLE_CONN, NewFlow(AGENT).(handler := Listed), LISTED, {}),
      Single(IDLE_CONN, NewFlow(AGENT).(handler := SendingOpen(LINK)), LISTED, {}),
      Single(IDLE_CONN.(toAgent := [OpenMsg(SID)]), OPENED, LISTED, {}) ]
  }

  lemma Connects()
    ensures TunnelSystem.Next(Beginning()[0], Beginning()[1])
    ensures TunnelSystem.Next(Beginning()[1], Beginning()[2])
  {
    assert Connect(Beginning()[0], Beginning()[1], LINK, AGENT);
    ServerIsNext(Beginning()[0], Beginning()[1], LINK);
    assert Register(Beginning()[1], Beginning()[2], LINK);
    ServerIsNext(Beginning()[1], Beginning()[2], LINK);
  }

  lemma Begins()
    ensures TunnelSystem.Next(Beginning()[4], Beginning()[5])
  {
    assert Generate(Beginning()[4], Beginning()[5], SID, AGENT);
    assert HandlerStep(Beginning()[4], Beginning()[5], SID);
    HandlerIsNext(Beginning()[4], Beginning()[5], SID);
  }

  lemma Lists()
    ensures TunnelSystem.Next(Beginning()[5], Beginning()[6])
  {
    assert List(Beginning()[5], Beginning()[6], SID);
    HandlerIsNext(Beginning()[5], Beginning()[6], SID);
  }

  lemma BeginningIsRun()
    ensures TunnelSystem.Run(Beginning())
  {
    hide TunnelSystem.Next;
    Connects();
    Greets(NewConn(AGENT).(registered := true));
    Begins();
    Lists();
    Opens(IDLE_CONN, NewFlow(AGENT).(handler := Listed), LISTED);
  }

  lemma RunsJoin(a: seq<State>, b: seq<State>)
    requires TunnelSystem.Run(a) && |b| > 0 && TunnelSystem.Next(a[|a| - 1], b[0])
    requires forall i :: 0 <= i < |b| - 1 ==> TunnelSystem.Next(b[i], b[i + 1])
    ensures TunnelSystem.Run(a + b)
  {
    hide TunnelSystem.Next;
    var t := a + b;
    forall i | 0 <= i < |t| - 1 ensures TunnelSystem.Next(t[i], t[i + 1]) {
      if i >= |a| { assert t[i] == b[i - |a|] && t[i + 1] == b[i - |a| + 1]; }
    }
  }

  // ---- a lost OPEN_ACK --------------------------------------------------------------------------------------------

  const UNHEARD := POPPED.(installed := true, acked := true)

  /** The agent is faster than the thread: it has installed the session and answered before the promise is registered. */
  function LostAck(): seq<State> {
    [ Single(IDLE_CONN.(main := Opening(SID)), POPPED, LISTED, {}),
      Single(HELD.(main := Acking(SID)), POPPED.(installed := true), LISTED, {}),
      Single(HELD.(toServer := [OpenAckMsg(SID)]), UNHEARD, LISTED, {}),
      Single(HELD, UNHEARD, LISTED, {}),
      Single(HELD, UNHEARD.(handler := Waiting), LISTED, {SID}),
      Single(HELD, UNHEARD.(handler := TimedOut), LISTED, {SID}) ]
  }

  lemma LostAckSteps()
    ensures TunnelSystem.Next(Beginning()[8], LostAck()[0])
    ensures forall i :: 0 <= i < 5 ==> TunnelSystem.Next(LostAck()[i], LostAck()[i + 1])
    ensures TunnelLostAck.Takes(LostAck()[2], LostAck()[3], LINK, SID)
  {
    hide TunnelSystem.Next, TunnelLostAck.Takes;
    Takes(IDLE_CONN.(toAgent := [OpenMsg(SID)]), OPENED, LISTED, {});
    Installs(IDLE_CONN.(main := Opening(SID)), POPPED, LISTED, {});
    Acknowledges(HELD.(main := Acking(SID)), POPPED.(installed := true), LISTED, {});
    TakesAck(HELD.(toServer := [OpenAckMsg(SID)]), UNHEARD, LISTED, {});
    RegistersPromise(HELD, UNHEARD, LISTED);
    HandlerGoesOn(HELD, UNHEARD.(handler := Waiting), LISTED, {SID}, UNHEARD.(handler := TimedOut));
  }

  /** A run in which the server takes an OPEN_ACK that nobody waits for yet, and the wait then times out. */
  lemma AckCanBeLost()
    ensures var t := Beginning() + LostAck();
            && TunnelSystem.Run(t) && |t| == 15
            && TunnelLostAck.Takes(t[11], t[12], LINK, SID) && SID !in t[11].pending
            && SID in t[11].flows && t[11].flows[SID].promise != Success
            && (forall i :: 11 < i < 14 ==> !Restarts(t[i], t[i + 1], SID))
            && t[14].flows[SID].handler == TimedOut
  {
    hide TunnelSystem.Next, TunnelLostAck.Takes;
    BeginningIsRun();
    LostAckSteps();
    RunsJoin(Beginning(), LostAck());
    NoRestart();
  }

  lemma NoRestart()
    ensures !Restarts(LostAck()[3], LostAck()[4], SID) && !Restarts(LostAck()[4], LostAck()[5], SID)
  {
  }

  // ---- an octet that arrives ----------------------------------------------------------------------------------------

  const WAITED := OPENED.(handler := Waiting)
  const ANSWERED := WAITED.(popped := true, reader := Reading, installed := true, acked := true)
  const RELAYED := ANSWERED.(promise := Success, fdSet := true, clientRead := [OCTET], handler := Relaying)
  const ATTACHED := Session(AGENT, Some(SID))

  function Delivery(): seq<State> {
    [ Single(IDLE_CONN.(toAgent := [OpenMsg(SID)]), WAITED, LISTED, {SID}),
      Single(IDLE_CONN.(main := Opening(SID)), WAITED.(popped := true, reader := Reading), LISTED, {SID}),
      Single(HELD.(main := Acking(SID)), WAITED.(popped := true, reader := Reading, installed := true), LISTED, {SID}),
      Single(HELD.(toServer := [OpenAckMsg(SID)]), ANSWERED, LISTED, {SID}),
      Single(HELD, ANSWERED.(promise := Success), LISTED, {}),
      Single(HELD, ANSWERED.(promise := Success, handler := Acked), LISTED, {}),
      Single(HELD, ANSWERED.(promise := Success, handler := Relaying, fdSet := true), ATTACHED, {}),
      Single(HELD, RELAYED.(handler := Holding([OCTET])), ATTACHED, {}),
      Single(HELD, RELAYED.(handler := Sending(LINK, [OCTET])), ATTACHED, {}),
      Single(HELD.(toAgent := [DataMsg(SID, [OCTET])]), RELAYED, ATTACHED, {}),
      Single(HELD.(main := Writing(SID, SID, [OCTET])), RELAYED, ATTACHED, {}),
      Single(HELD, RELAYED.(targetWritten := [OCTET]), ATTACHED, {}) ]
  }

  lemma SessionOpens()
    ensures TunnelSystem.Next(Beginning()[8], Delivery()[0])
    ensures forall i :: 0 <= i < 6 ==> TunnelSystem.Next(Delivery()[i], Delivery()[i + 1])
  {
    hide TunnelSystem.Next, TunnelLostAck.Takes;
    RegistersPromise(IDLE_CONN.(toAgent := [OpenMsg(SID)]), OPENED, LISTED);
    Takes(IDLE_CONN.(toAgent := [OpenMsg(SID)]), WAITED, LISTED, {SID});
    Installs(IDLE_CONN.(main := Opening(SID)), WAITED.(popped := true, reader := Reading), LISTED, {SID});
    Acknowledges(HELD.(main := Acking(SID)), WAITED.(popped := true, reader := Reading, installed := true), LISTED, {SID});
    TakesAck(HELD.(toServer := [OpenAckMsg(SID)]), ANSWERED, LISTED, {SID});
    HandlerGoesOn(HELD, ANSWERED.(promise := Success), LISTED, {}, ANSWERED.(promise := Success, handler := Acked));
    AttachesClient(HELD, ANSWERED.(promise := Success, handler := Acked));
  }

  lemma OctetTravels()
    ensures forall i :: 6 <= i < 11 ==> TunnelSystem.Next(Delivery()[i], Delivery()[i + 1])
  {
    hide TunnelSystem.Next;
    HandlerGoesOn(HELD, ANSWERED.(promise := Success, handler := Relaying, fdSet := true), ATTACHED, {},
                  RELAYED.(handler := Holding([OCTET])));
    HandlerGoesOn(HELD, RELAYED.(handler := Holding([OCTET])), ATTACHED, {}, RELAYED.(handler := Sending(LINK, [OCTET])));
    SendsOctet(HELD, RELAYED.(handler := Sending(LINK, [OCTET])), ATTACHED);
    TakesOctet(HELD.(toAgent := [DataMsg(SID, [OCTET])]), RELAYED, ATTACHED);
    WritesOctet(HELD.(main := Writing(SID, SID, [OCTET])), RELAYED, ATTACHED);
  }

  /** A run in which what the client has sent is written to the target. */
  lemma AnOctetArrives()
    ensures var t := Beginning() + Delivery();
            TunnelSystem.Run(t) && t[|t| - 1].flows[SID].clientRead == [OCTET] == t[|t| - 1].flows[SID].targetWritten
  {
    hide TunnelSystem.Next;
    BeginningIsRun();
    SessionOpens();
    OctetTravels();
    RunsJoin(Beginning(), Delivery());
  }
}
