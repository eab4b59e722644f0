/**
 * The server's shared tables and the sections of code that run under their locks
 * (`tunnel_server.cpp`). Each method is one locked section; the functions beside the class say
 * what the section does to the table, and the two-node protocol is built from those functions.
 */
module TunnelTables {
  import opened Results
  import opened TunnelCodec

  type AgentId = string
  type Socket = u32

  /** An entry of `sessions_`; `external` is None while `external_fd` is -1. */
  datatype Session = Session(agent: AgentId, external: Option<Socket>)

  type Sessions = map<u32, Session>

  // ---- session ids --------------------------------------------------------------------------

  const IDS: nat := 0xFFFF_FFFF

  /** The wrap-around of the 32-bit counter. */
  function Increment(counter: u32): u32 { (counter + 1) % 0x1_0000_0000 }

  /** The id that the k-th call of `generate_session_id` returns, counting from zero. */
  function IdOfCall(k: nat): u32 { (k % IDS) + 1 }

  /** The counter before the k-th call, when nothing but these calls advances it. */
  function CounterOfCall(k: nat): u32 {
    if k > 0 && k % IDS == 0 then 0 else IdOfCall(k)
  }

  /** The first id is 1, and each is the one before plus 1 except that 1 follows 2^32 - 1. */
  lemma IdsCountUp(k: nat)
    ensures IdOfCall(0) == 1
    ensures IdOfCall(k + 1) == if IdOfCall(k) == 0xFFFF_FFFF then 1 else IdOfCall(k) + 1
  {
    if k % IDS == IDS - 1 {
      QuotientUnique(k + 1, k / IDS + 1, 0);
    } else {
      QuotientUnique(k + 1, k / IDS, k % IDS + 1);
    }
  }

  /** Ids are never zero, repeat with period 2^32 - 1, and are distinct within a period. */
  lemma IdsDistinctInWindow(j: nat, k: nat)
    requires j < k
    ensures IdOfCall(j) != 0
    ensures IdOfCall(j) == IdOfCall(k) <==> (k - j) % IDS == 0
    ensures k - j < IDS ==> IdOfCall(j) != IdOfCall(k)
  {
    var q, r := (k - j) / IDS, (k - j) % IDS;
    assert k - j == q * IDS + r;
    var a, b := j / IDS, j % IDS;
    assert j == a * IDS + b;
    if b + r < IDS {
      QuotientUnique(k, a + q, b + r);
    } else {
      QuotientUnique(k, a + q + 1, b + r - IDS);
    }
  }

  lemma QuotientUnique(n: nat, q: nat, r: nat)
    requires n == q * IDS + r && r < IDS
    ensures n % IDS == r && n / IDS == q
  {
  }

  // ---- what the locked sections do ------------------------------------------------------------

  function Erase(m: Sessions, sid: u32): Sessions { m - {sid} }

  /** The sessions that are left when an agent is unregistered: those of the other agents. */
  function WithoutAgent(m: Sessions, agent: AgentId): Sessions {
    map sid | sid in m && m[sid].agent != agent :: m[sid]
  }

  /** Exactly the departed agent's entries are gone; the others are as they were. */
  lemma WithoutAgentIsTheRest(m: Sessions, agent: AgentId)
    ensures forall sid :: sid in WithoutAgent(m, agent) <==> sid in m && m[sid].agent != agent
    ensures forall sid :: sid in WithoutAgent(m, agent) ==> WithoutAgent(m, agent)[sid] == m[sid]
  {
  }

  function SetExternal(m: Sessions, sid: u32, fd: Socket): Sessions {
    if sid in m then m[sid := m[sid].(external := Some(fd))] else m
  }

  function ExternalOf(m: Sessions, sid: u32): Option<Socket> {
    if sid in m then m[sid].external else None
  }

  // ---- promises -------------------------------------------------------------------------------

  datatype Outcome = Unresolved | Success | Failed

  /** The promise behind an OPEN_ACK waiter; a second resolution throws and is swallowed. */
  class Promise {
    var outcome: Outcome

    constructor ()
      ensures outcome == Unresolved
    {
      outcome := Unresolved;
    }

    method Resolve(result: Outcome)
      requires result != Unresolved
      modifies this
      ensures outcome == if old(outcome) == Unresolved then result else old(outcome)
    {
      if outcome == Unresolved {
        outcome := result;
      }
    }
  }

  /** An entry of `agents_`; fd is None once the connection has been closed by a replacement. */
  class AgentConn {
    var fd: Option<nat>

    constructor (f: nat)
      ensures fd == Some(f)
    {
      fd := Some(f);
    }
  }

  class TunnelServer {
    var nextSessionId: u32
    var sessions: Sessions
    var pendingOpen: map<u32, Promise>
    var agents: map<AgentId, AgentConn>
    ghost var generated: nat  // how many ids have been handed out

    /** Different waiters have different promises and different agents different connections. */
    ghost predicate Valid()
      reads this
    {
      && nextSessionId == CounterOfCall(generated)
      && (forall i, j :: i in pendingOpen && j in pendingOpen && i != j ==> pendingOpen[i] != pendingOpen[j])
      && (forall a, b :: a in agents && b in agents && a != b ==> agents[a] != agents[b])
    }

    constructor ()
      ensures Valid() && generated == 0 && sessions == map[] && pendingOpen == map[] && agents == map[]
    {
      nextSessionId := 1;
      sessions := map[];
      pendingOpen := map[];
      agents := map[];
      generated := 0;
    }

    /** `generate_session_id`: fetch-and-add until the value fetched is not zero. */
    method GenerateSessionId() returns (id: u32)
      requires Valid()
      modifies this`nextSessionId, this`generated
      ensures Valid()
      ensures generated == old(generated) + 1 && id == IdOfCall(old(generated))
    {
      var k := generated;
      id := nextSessionId;
      nextSessionId := Increment(nextSessionId);
      while id == 0
        invariant generated == k
        invariant if id == 0 then nextSessionId == 1 && k > 0 && k % IDS == 0
                  else id == IdOfCall(k) && nextSessionId == Increment(id)
        decreases id == 0
      {
        id := nextSessionId;
        nextSessionId := Increment(nextSessionId);
      }
      CounterAfterCall(k);
      generated := generated + 1;
    }

    method CloseSession(sid: u32)
      modifies this`sessions
      ensures sessions == Erase(old(sessions), sid)
      ensures sid !in sessions && forall k :: k in sessions <==> k in old(sessions) && k != sid
      ensures forall k :: k in sessions ==> sessions[k] == old(sessions)[k]
    {
      sessions := sessions - {sid};
    }

    /** `set_session_external_fd`. */
    method SetSessionExternalFd(sid: u32, fd: Socket) returns (found: bool)
      modifies this`sessions
      ensures found <==> sid in old(sessions)
      ensures sessions == SetExternal(old(sessions), sid, fd)
      ensures sessions.Keys == old(sessions).Keys
      ensures found ==> sessions[sid] == Session(old(sessions)[sid].agent, Some(fd))
      ensures forall k :: k in sessions && k != sid ==> sessions[k] == old(sessions)[k]
    {
      if sid !in sessions {
        return false;
      }
      sessions := sessions[sid := sessions[sid].(external := Some(fd))];
      found := true;
    }

    /** The OPEN_ACK case of `handle_agent_frame`: resolve the promise of this id, if it waits. */
    method HandleOpenAck(sid: u32)
      requires Valid()
      modifies this`pendingOpen, pendingOpen.Values
      ensures Valid() && pendingOpen == old(pendingOpen) - {sid}
      ensures sid in old(pendingOpen) ==>
                old(pendingOpen)[sid].outcome ==
                if old(pendingOpen[sid].outcome) == Unresolved then Success else old(pendingOpen[sid].outcome)
      ensures forall other :: other in pendingOpen ==> pendingOpen[other].outcome == old(pendingOpen[other].outcome)
    {
      if sid in pendingOpen {
        pendingOpen[sid].Resolve(Success);
        pendingOpen := pendingOpen - {sid};
      }
    }

    /** The registration section of `handle_agent_connection`: an older connection is closed. */
    method RegisterAgent(agent: AgentId, conn: AgentConn)
      requires Valid() && conn !in agents.Values
      modifies this`agents, agents.Values
      ensures Valid() && agents == old(agents)[agent := conn]
      ensures agent in old(agents) ==> old(agents)[agent].fd == None
      ensures forall a :: a in old(agents) && a != agent ==> old(agents)[a].fd == old(agents[a].fd)
    {
      if agent in agents {
        agents[agent].fd := None;
      }
      agents := agents[agent := conn];
    }

    /** The first loop of `unregister_agent`: the ids of an agent's sessions. */
    method SessionsOf(agent: AgentId) returns (ids: seq<u32>)
      ensures forall sid :: sid in ids <==> sid in sessions && sessions[sid].agent == agent
    {
      ids := [];
      var unvisited := sessions.Keys;
      while unvisited != {}
        invariant unvisited <= sessions.Keys
        invariant forall sid :: sid in ids <==> sid in sessions && sid !in unvisited && sessions[sid].agent == agent
        decreases unvisited
      {
        var sid :| sid in unvisited;
        if sessions[sid].agent == agent {
          ids := ids + [sid];
        }
        unvisited := unvisited - {sid};
      }
    }

    /** The second one: they are erased one by one. */
    method EraseSessions(ids: seq<u32>)
      modifies this`sessions
      ensures forall sid :: sid in sessions <==> sid in old(sessions) && sid !in ids
      ensures forall sid :: sid in sessions ==> sessions[sid] == old(sessions)[sid]
    {
      for i := 0 to |ids|
        invariant forall sid :: sid in sessions <==> sid in old(sessions) && sid !in ids[..i]
        invariant forall sid :: sid in sessions ==> sessions[sid] == old(sessions)[sid]
      {
        sessions := sessions - {ids[i]};
        assert ids[..i + 1] == ids[..i] + [ids[i]];
      }
      assert ids[..|ids|] == ids;
    }

    /**
     * `unregister_agent`: forget the agent, then its sessions. Exactly the sessions of that agent
     * disappear, and the entry disappears even when it belongs to a newer connection than the caller's.
     */
    method UnregisterAgent(agent: AgentId)
      requires Valid()
      modifies this`agents, this`sessions
      ensures Valid() && agents == old(agents) - {agent}
      ensures forall sid :: sid in sessions <==> sid in old(sessions) && old(sessions)[sid].agent != agent
      ensures forall sid :: sid in sessions ==> sessions[sid] == old(sessions)[sid]
      ensures sessions == WithoutAgent(old(sessions), agent)
    {
      agents := agents - {agent};
      var ids := SessionsOf(agent);
      EraseSessions(ids);
      WithoutAgentIsTheRest(old(sessions), agent);
    }

    /** The first part of `stop`: every waiter gets an exception and the table is emptied. */
    method FailPending()
      requires Valid()
      modifies this`pendingOpen, pendingOpen.Values
      ensures Valid() && pendingOpen == map[]
      ensures forall sid :: sid in old(pendingOpen) ==>
                old(pendingOpen)[sid].outcome ==
                if old(pendingOpen[sid].outcome) == Unresolved then Failed else old(pendingOpen[sid].outcome)
    {
      var unvisited := pendingOpen.Keys;
      while unvisited != {}
        invariant unvisited <= pendingOpen.Keys
        invariant pendingOpen == old(pendingOpen)
        invariant forall sid :: sid in pendingOpen ==>
                    pendingOpen[sid].outcome ==
                    if old(pendingOpen[sid].outcome) == Unresolved && sid !in unvisited
                    then Failed else old(pendingOpen[sid].outcome)
        decreases |unvisited|
      {
        var sid :| sid in unvisited;
        pendingOpen[sid].Resolve(Failed);
        unvisited := unvisited - {sid};
      }
      pendingOpen := map[];
    }
  }

  lemma CounterAfterCall(k: nat)
    ensures Increment(IdOfCall(k)) == CounterOfCall(k + 1)
  {
    if k % IDS == IDS - 1 {
      QuotientUnique(k + 1, k / IDS + 1, 0);
    } else {
      QuotientUnique(k + 1, k / IDS, k % IDS + 1);
    }
  }
}
