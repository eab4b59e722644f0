/**
 * The agent's session table (`tunnel_agent.cpp`) and the target sockets it owns: the sections of
 * code that run under `sessions_mutex_`, and who closes which socket.
 */
module AgentSessions {
  import opened Results
  import opened Bytes
  import opened Descriptors
  import opened TunnelCodec

  /** `sessions_`: the target socket of each session. */
  type Table = map<u32, Fd>

  /** Every session owns its own open socket, and every open target socket is owned. */
  predicate Owned(t: Table, open: set<Fd>) {
    && (forall sid :: sid in t ==> t[sid] in open)
    && (forall a, b :: a in t && b in t && a != b ==> t[a] != t[b])
    && (forall fd :: fd in open ==> fd in t.Values)
  }

  lemma InstalledIsOwned(t: Table, open: set<Fd>, sid: u32, fd: Fd)
    requires Owned(t, open) && fd !in open
    ensures Owned(t[sid := fd], (if sid in t then open - {t[sid]} else open) + {fd})
  {
    var u := t[sid := fd];
    var after := (if sid in t then open - {t[sid]} else open) + {fd};
    forall k | k in after ensures k in u.Values {
      if k == fd {
        assert u[sid] == fd;
      } else {
        var s :| s in t && t[s] == k;
        assert s != sid && u[s] == k;
      }
    }
  }

  lemma ErasedIsOwned(t: Table, open: set<Fd>, sid: u32)
    requires Owned(t, open) && sid in t
    ensures t[sid] in open && Owned(t - {sid}, open - {t[sid]})
  {
    var u := t - {sid};
    forall k | k in open - {t[sid]} ensures k in u.Values {
      var s :| s in t && t[s] == k;
      assert s != sid && u[s] == k;
    }
  }

  class TunnelAgent {
    var sessions: Table
    var open: set<Fd>   // open target sockets

    ghost predicate Valid()
      reads this
    {
      Owned(sessions, open)
    }

    constructor ()
      ensures Valid() && sessions == map[] && open == {}
    {
      sessions, open := map[], {};
    }

    /** Closing a socket that is not open would be an error. */
    method Close(fd: Fd)
      requires fd in open
      modifies this`open
      ensures open == old(open) - {fd}
    {
      open := open - {fd};
    }

    /**
     * The end of `handle_open`. An entry that is replaced closes its socket; its reader thread is
     * still joinable, and destroying such a thread ends the process.
     */
    method Install(sid: u32, fd: Fd) returns (terminated: bool)
      requires Valid() && fd !in open
      modifies this
      ensures terminated <==> sid in old(sessions)
      ensures Valid() && sessions == old(sessions)[sid := fd]
      ensures open == (if terminated then old(open) - {old(sessions)[sid]} else old(open)) + {fd}
    {
      InstalledIsOwned(sessions, open, sid, fd);
      hide Owned;
      open := open + {fd};
      terminated := sid in sessions;
      if terminated {
        OwnedIsOpen(old(sessions), old(open), sid);
        Close(sessions[sid]);
      }
      sessions := sessions[sid := fd];
    }

    /** The lookup of `handle_data`; data for an unknown session goes nowhere. */
    method TargetOf(sid: u32) returns (fd: Option<Fd>)
      requires Valid()
      ensures fd.Some? <==> sid in sessions
      ensures fd.Some? ==> fd.value == sessions[sid] && fd.value in open
      ensures fd.Some? ==> forall other :: other in sessions && sessions[other] == fd.value ==> other == sid
    {
      if sid !in sessions { return None; }
      return Some(sessions[sid]);
    }

    /** `close_session` on the main thread and the end of `target_reader`: whoever comes first closes. */
    method CloseSession(sid: u32)
      requires Valid()
      modifies this
      ensures Valid() && sessions == old(sessions) - {sid}
      ensures open == if sid in old(sessions) then old(open) - {old(sessions)[sid]} else old(open)
    {
      if sid !in sessions {
        assert sessions == old(sessions) - {sid};
        return;
      }
      ErasedIsOwned(sessions, open, sid);
      hide Owned;
      var fd := sessions[sid];
      sessions := sessions - {sid};
      Close(fd);
    }

    /** `cleanup_connection`: no session and no target socket is left. */
    method CleanupConnection()
      requires Valid()
      modifies this
      ensures Valid() && sessions == map[] && open == {}
    {
      var copy := sessions;
      sessions := map[];
      var rest := copy;
      while rest.Keys != {}
        invariant Owned(rest, open) && sessions == map[]
        decreases rest.Keys
      {
        var sid: u32 :| sid in rest.Keys;
        ErasedIsOwned(rest, open, sid);
        var fd := rest[sid];
        rest := rest - {sid};
        Close(fd);
      }
      NothingOpen(rest, open);
    }
  }

  lemma OwnedIsOpen(t: Table, open: set<Fd>, sid: u32)
    requires Owned(t, open) && sid in t
    ensures t[sid] in open
  {
  }

  lemma NothingOpen(t: Table, open: set<Fd>)
    requires Owned(t, open) && t.Keys == {}
    ensures t == map[] && open == {}
  {
    assert t.Values == {};
  }
}
