/** The TLS-terminating proxy itself (`tls_proxy.cpp`), proved against its tables. */
module TlsProxy {
  import opened Results
  import opened Bytes
  import opened Descriptors
  import opened TlsTables
  import opened TlsOrder
  import opened TlsEvents

  /** How a series of writes ended. */
  datatype Stop = AllWritten | WouldBlock | Broken

  /**
   * How a round of forwarding ended: with more to come, nothing to read, a peer that takes no more, a
   * TLS connection that has to read first, or a descriptor that has failed or ended.
   */
  datatype Round = More | Idle | Blocked | Starved | Dead

  class TlsProxy {
    var pending: map<Fd, Ssl>
    var connections: map<Fd, ConnState>
    var armed: map<Fd, Interest>   // the kernel's epoll set
    var live: set<Ssl>             // allocated SSL objects
    var sockets: SocketTable       // open sockets; for a TLS socket the plain octets
    ghost var log: Histories       // what has been taken for each descriptor
    ghost var idle: set<Fd>        // descriptors on which the last read found nothing
    ghost var full: set<Fd>        // those on which the last write did not go through
    ghost var broken: set<Fd>      // those that have failed or ended
    ghost var starved: set<Fd>     // and those on which TLS has to read before it can write

    function Contents(): Tables
      reads this
    {
      Tables(pending, connections, armed, live, sockets.Keys)
    }

    ghost function Whole(): World
      reads this
    {
      World(Contents(), sockets, idle, full, broken, starved)
    }

    ghost predicate Valid()
      reads this
    {
      Consistent(Contents())
    }

    ghost predicate InOrder()
      reads this
    {
      Ordered(Contents(), sockets, log)
    }

    constructor ()
      ensures Valid() && InOrder() && Contents() == EMPTY
    {
      pending, connections, armed, live, sockets, log := map[], map[], map[], {}, map[], map[];
      idle, full, broken, starved := {}, {}, {}, {};
    }

    // ---- system and library calls ---------------------------------------------------------------------------

    /** Closing a descriptor that is not open would be an error. */
    method Close(fd: Fd)
      requires fd in sockets
      modifies this`sockets
      ensures sockets == old(sockets) - {fd}
    {
      sockets := sockets - {fd};
    }

    /** So would be freeing an object twice. */
    method SslFree(ssl: Ssl)
      requires ssl in live
      modifies this`live
      ensures live == old(live) - {ssl}
    {
      live := live - {ssl};
    }

    /** `read` or `SSL_read`: some octets, or none and whether more may come. */
    method Read(fd: Fd) returns (data: seq<byte>, again: bool)
      requires fd in sockets
      modifies this`sockets, this`idle, this`broken
      ensures idle == if data == [] && again then old(idle) + {fd} else old(idle)
      ensures broken == if data == [] && !again then old(broken) + {fd} else old(broken)
      ensures fd in sockets && old(sockets)[fd].pending == data + sockets[fd].pending && |data| <= 16384
      ensures sockets == old(sockets)[fd := old(sockets)[fd].(pending := sockets[fd].pending)]
      ensures data == [] ==> sockets == old(sockets)
    {
      var t := sockets[fd];
      assert t.pending[0..] == t.pending;
      var n: nat :| n <= |t.pending| && n <= 16384;
      data := t.pending[..n];
      again :| true;
      if data == [] {
        if again { idle := idle + {fd}; } else { broken := broken + {fd}; }
      }
      sockets := sockets[fd := t.(pending := t.pending[n..])];
    }

    method AppendTo(fd: Fd, data: seq<byte>)
      requires fd in sockets
      modifies this`sockets
      ensures sockets == old(sockets)[fd := old(sockets)[fd].(delivered := old(sockets)[fd].delivered + data)]
    {
      sockets := sockets[fd := sockets[fd].(delivered := sockets[fd].delivered + data)];
    }

    /** `write`: some octets, or none and whether that is for lack of room. */
    method Write(fd: Fd, data: seq<byte>) returns (w: int, again: bool)
      requires fd in sockets && data != []
      modifies this`sockets, this`full, this`broken
      ensures -1 <= w <= |data|
      ensures full == if w < 0 && again then old(full) + {fd} else old(full)
      ensures broken == if w == 0 || (w < 0 && !again) then old(broken) + {fd} else old(broken)
      ensures sockets == if w <= 0 then old(sockets)
                         else old(sockets)[fd := old(sockets)[fd].(delivered := old(sockets)[fd].delivered + data[..w])]
    {
      w :| -1 <= w <= |data|;
      again :| true;
      if w < 0 && again { full := full + {fd}; }
      if w == 0 || (w < 0 && !again) { broken := broken + {fd}; }
      if w > 0 { AppendTo(fd, data[..w]); }
    }

    /** The loop around `write`: as much of the data as the kernel takes. */
    method WriteAll(fd: Fd, data: seq<byte>) returns (total: nat, stop: Stop)
      requires fd in sockets
      modifies this`sockets, this`full, this`broken
      ensures total <= |data| && (stop == AllWritten <==> total == |data|)
      ensures full == if stop == WouldBlock then old(full) + {fd} else old(full)
      ensures broken == if stop == Broken then old(broken) + {fd} else old(broken)
      ensures sockets == old(sockets)[fd := old(sockets)[fd].(delivered := old(sockets)[fd].delivered + data[..total])]
    {
      ghost var d := sockets[fd].delivered;
      total := 0;
      assert d + data[..0] == d;
      while total < |data|
        invariant 0 <= total <= |data|
        invariant full == old(full) && broken == old(broken)
        invariant sockets == old(sockets)[fd := old(sockets)[fd].(delivered := d + data[..total])]
      {
        var w, again := Write(fd, data[total..]);
        if w < 0 && again { return total, WouldBlock; }
        if w <= 0 { return total, Broken; }
        assert d + data[..total] + data[total..][..w] == d + (data[..total] + data[total..][..w]);
        assert data[..total] + data[total..][..w] == data[..total + w];
        total := total + w;
      }
      stop := AllWritten;
    }

    /** `SSL_write`: everything, or nothing and the reason. */
    method SslWrite(fd: Fd, data: seq<byte>) returns (r: Option<SslError>)
      requires fd in sockets
      modifies this`sockets, this`full, this`broken, this`starved
      ensures full == if r == Some(WantWrite) then old(full) + {fd} else old(full)
      ensures broken == if r == Some(Fatal) then old(broken) + {fd} else old(broken)
      ensures starved == if r == Some(WantRead) then old(starved) + {fd} else old(starved)
      ensures r.None? ==> sockets == old(sockets)[fd := old(sockets)[fd].(delivered := old(sockets)[fd].delivered + data)]
      ensures r.Some? ==> sockets == old(sockets)
    {
      r :| true;
      match r
      case Some(WantWrite) => full := full + {fd};
      case Some(Fatal) => broken := broken + {fd};
      case Some(WantRead) => starved := starved + {fd};
      case None =>
      if r.None? { AppendTo(fd, data); }
    }

    // ---- opening and closing ----------------------------------------------------------------------------------

    /** One turn of the accept loop; the SSL object may not be had. */
    method AcceptOne(fd: Fd, ssl: Option<Ssl>, arriving: seq<byte>)
      requires Valid() && fd !in sockets && (ssl.Some? ==> ssl.value !in live)
      modifies this
      ensures Valid()
      ensures Contents() == if ssl.Some? then Accepted(old(Contents()), fd, ssl.value) else old(Contents())
      ensures sockets == if ssl.Some? then old(sockets)[fd := Traffic(arriving, [])] else old(sockets)
      ensures log == old(log) && idle == old(idle) && full == old(full) && broken == old(broken) && starved == old(starved)
    {
      hide Consistent;
      sockets := sockets[fd := Traffic(arriving, [])];
      if ssl.None? {
        Close(fd);
        assert sockets == old(sockets);
        return;
      }
      AcceptedIsConsistent(old(Contents()), fd, ssl.value);
      live := live + {ssl.value};
      pending := pending[fd := ssl.value];
      armed := armed[fd := Interest(true, false)];
      assert sockets.Keys == old(sockets.Keys) + {fd};
    }

    method ClosePending(fd: Fd)
      requires Valid()
      modifies this
      ensures Valid()
      ensures Contents() == if fd in old(pending) then DroppedPending(old(Contents()), fd) else old(Contents())
      ensures sockets == if fd in old(pending) then old(sockets) - {fd} else old(sockets)
      ensures log == old(log) && idle == old(idle) && full == old(full) && broken == old(broken) && starved == old(starved)
    {
      if fd !in pending { return; }
      DroppedPendingIsConsistent(Contents(), fd);
      hide Owned, Armed, Paired;
      armed := armed - {fd};
      SslFree(pending[fd]);
      Close(fd);
      pending := pending - {fd};
      assert sockets.Keys == old(sockets.Keys) - {fd};
      assert Contents() == DroppedPending(old(Contents()), fd);
    }

    method CloseConnection(fd: Fd)
      requires Valid()
      modifies this
      ensures Valid()
      ensures fd !in old(connections) ==> Contents() == old(Contents()) && sockets == old(sockets)
      ensures fd in old(connections) ==>
                && Contents() == Dropped(old(Contents()), fd)
                && sockets == old(sockets) - {fd, old(connections)[fd].peer}
      ensures log == old(log) && idle == old(idle) && full == old(full) && broken == old(broken) && starved == old(starved)
    {
      hide Consistent, Paired;
      if fd !in connections { return; }
      var peer := connections[fd].peer;
      IsPaired(Contents());
      PairSslIsOwned(Contents(), fd);
      DroppedIsConsistent(Contents(), fd);
      var ssl: Option<Ssl> := None;
      if connections[fd].isClient {
        ssl := connections[fd].ssl;
      } else if peer in connections {
        ssl := connections[peer].ssl;
      }
      armed := armed - {fd};
      armed := armed - {peer};
      if ssl.Some? { SslFree(ssl.value); }
      Close(fd);
      Close(peer);
      connections := connections - {fd};
      connections := connections - {peer};
      RemoveTwo(old(armed), fd, peer);
      RemoveTwo(old(connections), fd, peer);
      RemoveTwo(old(sockets), fd, peer);
      assert Contents() == Dropped(old(Contents()), fd);
    }

    /** The handshake is over and the target is reached: the two become a pair. */
    method Establish(fd: Fd, target: Fd, arriving: seq<byte>)
      requires Valid() && fd in pending && target !in sockets
      modifies this`pending, this`connections, this`armed, this`sockets, this`log
      ensures Valid() && Contents() == Established(old(Contents()), fd, target)
      ensures sockets == old(sockets)[target := Traffic(arriving, [])]
      ensures old(InOrder()) ==> InOrder()
    {
      hide Consistent, Ordered, Owned, Paired, Armed, SslOf;
      PendingIsOpen(Contents());
      if InOrder() { EstablishKeepsOrder(Contents(), sockets, log, fd, target, arriving); }
      EstablishedIsConsistent(Contents(), fd, target);
      var ssl := pending[fd];
      sockets := sockets[target := Traffic(arriving, [])];
      pending := pending - {fd};
      connections := connections[fd := ConnState(target, true, Some(ssl), [])];
      connections := connections[target := ConnState(fd, false, None, [])];
      armed := armed[target := Interest(true, false)];
      log := log[fd := History([], true)][target := History([], true)];
      assert sockets.Keys == old(sockets.Keys) + {target};
    }

    /** A step of the handshake; once it is complete the target is contacted, which may fail. */
    method ContinueHandshake(fd: Fd, result: Handshake, target: Option<Fd>, arriving: seq<byte>)
      requires Valid() && fd in pending && (target.Some? ==> target.value !in sockets)
      modifies this
      ensures Valid()
      ensures var t := old(Contents());
              Contents() == match result
                            case Complete => if target.Some? then Established(t, fd, target.value) else DroppedPending(t, fd)
                            case Failed(WantRead) => t
                            case Failed(WantWrite) => Rearmed(t, fd, Interest(false, true))
                            case Failed(Fatal) => DroppedPending(t, fd)
      ensures sockets == match result
                         case Complete =>
                           if target.Some? then old(sockets)[target.value := Traffic(arriving, [])] else old(sockets) - {fd}
                         case Failed(Fatal) => old(sockets) - {fd}
                         case _ => old(sockets)
      ensures idle == old(idle) && full == old(full) && broken == old(broken) && starved == old(starved)
      ensures old(InOrder()) ==> InOrder()
    {
      hide Consistent, Ordered, Owned, Paired, Armed, SslOf;
      if InOrder() { DropPendingKeepsOrder(Contents(), sockets, log, fd); }
      match result
      case Complete =>
        if target.None? {
          ClosePending(fd);
          return;
        }
        Establish(fd, target.value, arriving);
      case Failed(WantRead) =>
      case Failed(WantWrite) =>
        if InOrder() { RearmKeepsOrder(Contents(), sockets, log, fd, Interest(false, true)); }
        RearmedIsConsistent(Contents(), fd, Interest(false, true));
        armed := armed[fd := Interest(false, true)];
      case Failed(Fatal) =>
        ClosePending(fd);
    }

    // ---- forwarding ---------------------------------------------------------------------------------------------

    /** Data that could not be written goes to the end of the backlog, and the descriptor waits for EPOLLOUT. */
    method Queue(fd: Fd, data: seq<byte>)
      requires Valid() && fd in connections && data != []
      modifies this`connections, this`armed
      ensures Valid()
      ensures Contents() == Backlog(old(Contents()), fd, old(connections)[fd].writeBuf + data)
    {
      hide Consistent;
      BacklogIsConsistent(Contents(), fd, connections[fd].writeBuf + data);
      connections := connections[fd := connections[fd].(writeBuf := connections[fd].writeBuf + data)];
      armed := armed[fd := Interest(true, true)];
    }

    /** One round of `forward_client_to_target`: a read, and writes until the target has it or takes no more. */
    method PumpToTarget(client: Fd, target: Fd) returns (round: Round, ghost taken: seq<byte>, rest: seq<byte>)
      requires client in sockets && target in sockets && client != target
      requires client !in broken && target !in broken && client !in idle
      modifies this`sockets, this`idle, this`full, this`broken
      ensures client in sockets && taken <= old(sockets)[client].pending && |rest| <= |taken|
      ensures sockets == Transferred(old(sockets), client, target, taken, |taken| - |rest|) && rest == taken[|taken| - |rest|..]
      ensures sockets[client].pending == old(sockets)[client].pending[|taken|..]
      ensures round == More ==> taken != [] && idle == old(idle)
      ensures round != Blocked && round != Dead ==> rest == []
      ensures round == Idle ==> taken == [] && idle == old(idle) + {client}
      ensures round == Blocked ==> rest != [] && target in full && idle == old(idle)
      ensures if round == Dead then client in broken || target in broken else broken == old(broken)
      ensures round != Starved
    {
      ghost var s0 := sockets;
      taken, rest := [], [];
      NothingTransferred(s0, client, target);
      var data, again := Read(client);
      if data == [] { return if again then Idle else Dead, taken, rest; }
      assert data == s0[client].pending[..|data|] && sockets[client].pending == s0[client].pending[|data|..];
      assert [] + data == data;
      TakenIn(s0, client, target, [], 0, |data|);
      taken := data;
      var total, stop := WriteAll(target, data);
      PutOut(s0, client, target, data, 0, total);
      assert data[0..] == data;
      rest := data[total..];
      round := match stop case AllWritten => More case WouldBlock => Blocked case Broken => Dead;
    }

    /** Round after round, until the client has nothing more or something stops it. */
    method ReadClient(client: Fd, target: Fd) returns (round: Round, ghost taken: seq<byte>, rest: seq<byte>)
      requires client in sockets && target in sockets && client != target && client !in idle
      requires client !in broken && target !in broken
      modifies this`sockets, this`idle, this`full, this`broken
      ensures round != More && sockets.Keys == old(sockets.Keys)
      ensures taken <= old(sockets)[client].pending && |rest| <= |taken| && rest == taken[|taken| - |rest|..]
      ensures sockets == Transferred(old(sockets), client, target, taken, |taken| - |rest|)
      ensures round == Idle ==> rest == [] && client in idle
      ensures round == Blocked ==> rest != [] && target in full
      ensures round == Starved ==> rest != []
      ensures if round == Dead then client in broken || target in broken else broken == old(broken)
      ensures round != Starved
    {
      hide Transferred;
      ghost var before := sockets;
      NothingTransferred(before, client, target);
      taken, rest := [], [];
      round := More;
      while round == More
        invariant sockets.Keys == before.Keys
        invariant taken <= before[client].pending && |rest| <= |taken| && rest == taken[|taken| - |rest|..]
        invariant sockets == Transferred(before, client, target, taken, |taken| - |rest|)
        invariant sockets[client].pending == before[client].pending[|taken|..]
        invariant if round == Dead then client in broken || target in broken else broken == old(broken)
        invariant round != Starved
        invariant round == More ==> rest == [] && idle == old(idle)
        invariant (round == Idle ==> rest == [] && client in idle) && (round == Blocked ==> rest != [] && target in full)
        invariant round == Starved ==> rest != []
        decreases |sockets[client].pending|, round == More
      {
        ghost var s0, more := sockets, [];
        round, more, rest := PumpToTarget(client, target);
        TransferredTwice(before, client, target, taken, more, |more| - |rest|);
        assert sockets.Keys == s0.Keys by { TransferredKeys(s0, client, target, more, |more| - |rest|); }
        Tail(taken, more, rest);
        taken := taken + more;
      }
    }

    /**
     * `forward_client_to_target`: what has been read has been written or, from the first octet that
     * the target does not take, appended to its backlog. The result is the number of octets written.
     */
    method ForwardClientToTarget(client: Fd, target: Fd)
        returns (closed: bool, ghost taken: seq<byte>, ghost written: nat)
      requires Valid() && InOrder()
      requires client in connections && connections[client].peer == target && connections[client].isClient && client !in idle
      requires client !in broken && target !in broken
      modifies this
      ensures Valid() && InOrder()
      ensures closed ==> Contents() == Dropped(old(Contents()), client) && Untouched(old(sockets), sockets, {client, target})
      ensures starved == old(starved) && if closed then client in broken || target in broken else broken == old(broken)
      ensures !closed ==>
                && (written == |taken| ==> client in idle) && (written < |taken| ==> target in full)
                && taken <= old(sockets)[client].pending && written <= |taken|
                && sockets == Transferred(old(sockets), client, target, taken, written)
                && Contents() == Forwarded(old(Contents()), target, taken, written)
                && log == Noted(old(log), target, taken, old(connections)[target].writeBuf == [])
      ensures !closed && old(connections)[target].writeBuf == [] ==>
                Promised(sockets, connections, target) == Promised(old(sockets), old(connections), target) + taken
    {
      hide Consistent, Transferred, Backlog, Dropped, Ordered, Promised, Forwarded, Noted;
      PairIsOpen(Contents(), client);
      ghost var before := sockets;
      var round, all, rest := ReadClient(client, target);
      taken, written := all, |all| - |rest|;
      closed := round == Dead;
      if closed {
        Elsewhere(before, client, target, taken, written);
        DropKeepsOrder(old(Contents()), before, sockets, log, client);
        CloseConnection(client);
        return;
      }
      if round == Blocked { Queue(target, rest); }
      ForwardedIs(old(Contents()), target, taken, written);
      ForwardInOrder(old(Contents()), before, log, client, target, taken, written);
      log := Noted(log, target, taken, old(connections)[target].writeBuf == []);
    }

    /** One round of `forward_target_to_client`: a read and an `SSL_write`. */
    method PumpToClient(target: Fd, client: Fd) returns (round: Round, ghost taken: seq<byte>, rest: seq<byte>)
      requires client in sockets && target in sockets && client != target
      requires client !in broken && target !in broken && target !in idle
      modifies this`sockets, this`idle, this`full, this`broken, this`starved
      ensures target in sockets && taken <= old(sockets)[target].pending && |rest| <= |taken|
      ensures sockets == Transferred(old(sockets), target, client, taken, |taken| - |rest|) && rest == taken[|taken| - |rest|..]
      ensures sockets[target].pending == old(sockets)[target].pending[|taken|..]
      ensures round == More ==> taken != [] && idle == old(idle)
      ensures round == More || round == Idle ==> rest == []
      ensures round == Idle ==> taken == [] && idle == old(idle) + {target}
      ensures round == Blocked || round == Starved ==> rest != [] && idle == old(idle)
      ensures round == Blocked ==> client in full
      ensures if round == Dead then client in broken || target in broken else broken == old(broken)
      ensures starved == if round == Starved then old(starved) + {client} else old(starved)
    {
      ghost var s0 := sockets;
      taken, rest := [], [];
      NothingTransferred(s0, target, client);
      var data, again := Read(target);
      if data == [] { return if again then Idle else Dead, taken, rest; }
      assert data == s0[target].pending[..|data|] && sockets[target].pending == s0[target].pending[|data|..];
      assert [] + data == data;
      TakenIn(s0, target, client, [], 0, |data|);
      taken := data;
      assert data[0..] == data && data[|data|..] == [] && data[..|data|] == data;
      var r := SslWrite(client, data);
      match r
      case None =>
        PutOut(s0, target, client, data, 0, |data|);
        round := More;
      case Some(error) =>
        rest := data;
        round := match error case WantWrite => Blocked case WantRead => Starved case Fatal => Dead;
    }

    /** The same from the target. */
    method ReadTarget(target: Fd, client: Fd) returns (round: Round, ghost taken: seq<byte>, rest: seq<byte>)
      requires target in sockets && client in sockets && target != client && target !in idle
      requires target !in broken && client !in broken
      modifies this`sockets, this`idle, this`full, this`broken, this`starved
      ensures round != More && sockets.Keys == old(sockets.Keys)
      ensures taken <= old(sockets)[target].pending && |rest| <= |taken| && rest == taken[|taken| - |rest|..]
      ensures sockets == Transferred(old(sockets), target, client, taken, |taken| - |rest|)
      ensures round == Idle ==> rest == [] && target in idle
      ensures round == Blocked ==> rest != [] && client in full
      ensures round == Starved ==> rest != []
      ensures if round == Dead then target in broken || client in broken else broken == old(broken)
      ensures starved == if round == Starved then old(starved) + {client} else old(starved)
    {
      hide Transferred;
      ghost var before := sockets;
      NothingTransferred(before, target, client);
      taken, rest := [], [];
      round := More;
      while round == More
        invariant sockets.Keys == before.Keys
        invariant taken <= before[target].pending && |rest| <= |taken| && rest == taken[|taken| - |rest|..]
        invariant sockets == Transferred(before, target, client, taken, |taken| - |rest|)
        invariant sockets[target].pending == before[target].pending[|taken|..]
        invariant if round == Dead then target in broken || client in broken else broken == old(broken)
        invariant starved == if round == Starved then old(starved) + {client} else old(starved)
        invariant round == More ==> rest == [] && idle == old(idle)
        invariant (round == Idle ==> rest == [] && target in idle) && (round == Blocked ==> rest != [] && client in full)
        invariant round == Starved ==> rest != []
        decreases |sockets[target].pending|, round == More
      {
        ghost var s0, more := sockets, [];
        round, more, rest := PumpToClient(target, client);
        TransferredTwice(before, target, client, taken, more, |more| - |rest|);
        assert sockets.Keys == s0.Keys by { TransferredKeys(s0, target, client, more, |more| - |rest|); }
        Tail(taken, more, rest);
        taken := taken + more;
      }
    }

    /**
     * `forward_target_to_client`: a record that TLS cannot write now is kept for later, except when
     * TLS has to read first: then it is lost.
     */
    method ForwardTargetToClient(target: Fd, client: Fd)
        returns (round: Round, ghost taken: seq<byte>, ghost written: nat)
      requires Valid() && InOrder()
      requires target in connections && connections[target].peer == client && !connections[target].isClient && target !in idle
      requires client !in broken && target !in broken
      modifies this
      ensures Valid() && InOrder() && round != More
      ensures round == Dead ==>
                Contents() == Dropped(old(Contents()), target) && Untouched(old(sockets), sockets, {target, client})
      ensures if round == Dead then client in broken || target in broken else broken == old(broken)
      ensures starved == if round == Starved then old(starved) + {client} else old(starved)
      ensures round != Dead ==>
                && (round == Idle ==> target in idle) && (round == Blocked ==> client in full)
                && taken <= old(sockets)[target].pending && written <= |taken|
                && sockets == Transferred(old(sockets), target, client, taken, written)
                && Contents() == (if round == Blocked
                                  then Backlog(old(Contents()), client, old(connections)[client].writeBuf + taken[written..])
                                  else old(Contents()))
                && (round == Idle <==> written == |taken|)
                && log == Noted(old(log), client, taken, old(connections)[client].writeBuf == [] && round != Starved)
      ensures (round == Idle || round == Blocked) && old(connections)[client].writeBuf == [] ==>
                Promised(sockets, connections, client) == Promised(old(sockets), old(connections), client) + taken
    {
      hide Consistent, Transferred, Backlog, Dropped, Ordered, Promised;
      PairIsOpen(Contents(), target);
      ghost var before := sockets;
      var end, all, rest := ReadTarget(target, client);
      round, taken, written := end, all, |all| - |rest|;
      if round == Dead {
        Elsewhere(before, target, client, taken, written);
        DropKeepsOrder(old(Contents()), before, sockets, log, target);
        CloseConnection(target);
        return;
      }
      if round == Blocked { Queue(client, rest); }
      ForwardInOrder(old(Contents()), before, log, target, client, taken, written);
      log := Noted(log, client, taken, old(connections)[client].writeBuf == [] && round != Starved);
    }

    /** `flush_write_buf`: what goes out and what stays make up the old backlog. */
    method FlushWriteBuf(fd: Fd) returns (closed: bool, ghost sent: seq<byte>)
      requires Valid() && InOrder() && fd in connections && fd !in full
      modifies this
      ensures Valid() && InOrder() && log == old(log) && idle == old(idle)
      ensures closed ==>
                Contents() == Dropped(old(Contents()), fd) && Untouched(old(sockets), sockets, {fd, old(connections)[fd].peer})
      ensures if closed then fd in broken || fd in starved else broken == old(broken) && starved == old(starved)
      ensures !closed ==>
                && (sent != old(connections)[fd].writeBuf ==> fd in full)
                && sent <= old(connections)[fd].writeBuf
                && Contents() == Backlog(old(Contents()), fd, old(connections)[fd].writeBuf[|sent|..])
                && sockets == old(sockets)[fd := old(sockets)[fd].(delivered := old(sockets)[fd].delivered + sent)]
                && Promised(sockets, connections, fd) == Promised(old(sockets), old(connections), fd)
    {
      hide Consistent, Backlog, Dropped, Ordered, Promised;
      PairIsOpen(Contents(), fd);
      var buf := connections[fd].writeBuf;
      ghost var d := sockets[fd].delivered;
      assert buf[|buf|..] == [] && buf[..|buf|] == buf;
      if buf == [] {
        Clear(fd);
        assert buf[0..] == [];
        assert sockets == old(sockets)[fd := old(sockets)[fd].(delivered := d + [])] by { assert d + [] == d; }
        FlushInOrder(old(Contents()), old(sockets), log, fd, []);
        return false, [];
      }
      if !connections[fd].isClient {
        var written, stop := WriteAll(fd, buf);
        assert sockets.Keys == old(sockets.Keys);
        assert Contents() == old(Contents());
        if stop == Broken {
          DropKeepsOrder(old(Contents()), old(sockets), sockets, log, fd);
          CloseConnection(fd);
          return true, [];
        }
        if stop == WouldBlock {
          Shrink(fd, written);
        } else {
          Clear(fd);
        }
        FlushInOrder(old(Contents()), old(sockets), log, fd, buf[..written]);
        return false, buf[..written];
      } else {
        var r := SslWrite(fd, buf);
        assert sockets.Keys == old(sockets.Keys);
        assert Contents() == old(Contents());
        if r == Some(WantWrite) {
          assert buf[0..] == buf;
          assert sockets == old(sockets)[fd := old(sockets)[fd].(delivered := d + [])] by { assert d + [] == d; }
          Shrink(fd, 0);
          FlushInOrder(old(Contents()), old(sockets), log, fd, []);
          return false, [];
        }
        if r.Some? {
          assert r.value.Fatal? || r.value.WantRead?;
          DropKeepsOrder(old(Contents()), old(sockets), sockets, log, fd);
          CloseConnection(fd);
          return true, [];
        }
        Clear(fd);
        FlushInOrder(old(Contents()), old(sockets), log, fd, buf);
        return false, buf;
      }
    }

    /** What has gone out leaves the backlog; EPOLLOUT stays. */
    method Shrink(fd: Fd, n: nat)
      requires Valid() && fd in connections && n < |connections[fd].writeBuf|
      modifies this`connections
      ensures Valid()
      ensures Contents() == Backlog(old(Contents()), fd, old(connections)[fd].writeBuf[n..])
    {
      hide Consistent;
      BacklogIsConsistent(Contents(), fd, connections[fd].writeBuf[n..]);
      WaitsForOutput(Contents(), fd);
      connections := connections[fd := connections[fd].(writeBuf := connections[fd].writeBuf[n..])];
    }

    /** The backlog is gone, and EPOLLOUT with it. */
    method Clear(fd: Fd)
      requires Valid() && fd in connections
      modifies this`connections, this`armed
      ensures Valid()
      ensures Contents() == Backlog(old(Contents()), fd, [])
    {
      hide Consistent;
      BacklogIsConsistent(Contents(), fd, []);
      connections := connections[fd := connections[fd].(writeBuf := [])];
      armed := armed[fd := Interest(true, false)];
    }

    // ---- the event loop, and the end ----------------------------------------------------------------------------

    /** An event says that there is something to read, or room to write; what has failed is seen anew. */
    ghost method Wake(event: Event)
      modifies this`idle, this`full, this`broken, this`starved
      ensures idle == (if event.Ready? && event.readable then old(idle) - {event.fd} else old(idle))
      ensures full == (if event.Ready? && event.writable then old(full) - {event.fd} else old(full))
      ensures broken == starved == {}
    {
      if event.Ready? && event.readable { idle := idle - {event.fd}; }
      if event.Ready? && event.writable { full := full - {event.fd}; }
      broken, starved := {}, {};
    }

    /** The middle world is the one after the backlog has been flushed. */
    method HandleEvent(fd: Fd, failed: bool, writable: bool, readable: bool) returns (ghost middle: World)
      requires Valid() && InOrder()
      requires (readable ==> fd !in idle) && (writable ==> fd !in full) && broken == starved == {}
      modifies this
      ensures Valid() && InOrder()
      ensures fd !in old(connections) ==> Whole() == old(Whole())
      ensures failed && fd in old(connections) ==> Closes(old(Whole()), Whole(), fd)
      ensures !failed && fd in old(connections) ==> Handles(old(Whole()), middle, Whole(), fd, writable, readable)
    {
      hide Consistent, Dropped, Backlog, Transferred, Ordered, Promised, Forwarded, Noted, Paired;
      middle := Whole();
      if failed {
        if fd in connections {
          DropKeepsOrder(Contents(), sockets, sockets, log, fd);
          IsPaired(Contents());
        }
        CloseConnection(fd);
        return;
      }
      if fd !in connections { return; }
      IsPaired(Contents());
      PairIsOpen(Contents(), fd);
      if writable {
        var closed, sent := FlushWriteBuf(fd);
        assert closed || Flushed(middle, Whole(), fd, sent);
      }
      middle := Whole();
      if !readable || fd !in connections { return; }
      IsPaired(Contents());
      PairIsOpen(Contents(), fd);
      if connections[fd].isClient {
        var closed, taken, written := ForwardClientToTarget(fd, connections[fd].peer);
        assert closed || Relayed(middle, Whole(), fd, taken, written);
      } else {
        var round, taken, written := ForwardTargetToClient(fd, connections[fd].peer);
        RelayedToClient(middle, Whole(), fd, round, taken, written);
      }
    }

    /** A new client, or whatever has happened to a descriptor. */
    method Dispatch(event: Event)
      requires Valid() && InOrder()
      requires event.Ready? ==> (event.readable ==> event.fd !in idle) && (event.writable ==> event.fd !in full)
      requires broken == starved == {}
      modifies this
      ensures Valid() && InOrder()
      ensures Follows(old(Whole()), Whole(), event)
    {
      hide Consistent, Ordered, Closes, Handles;
      match event
      case Arrival(made, arriving) =>
        ghost var f := UnusedFd(sockets.Keys);
        var fd: Fd :| fd !in sockets;
        ghost var g := UnusedFd(live);
        var ssl: Ssl :| ssl !in live;
        AcceptKeepsOrder(Contents(), sockets, log, fd, ssl, arriving);
        AcceptOne(fd, if made then Some(ssl) else None, arriving);
        assert made ==> Accepts(old(Whole()), Whole(), fd, arriving);
      case Ready(fd, failed, writable, readable, step) =>
        PendingIsOpen(Contents());
        if fd in pending {
          ghost var f := UnusedFd(sockets.Keys);
          var target: Fd :| target !in sockets;
          var reached := step.target.Some?;
          var arriving := if reached then step.target.value else [];
          ContinueHandshake(fd, step.result, if reached then Some(target) else None, arriving);
          assert step.result.Complete? && reached ==> Completes(old(Whole()), Whole(), fd, target, arriving);
        } else {
          ghost var middle := HandleEvent(fd, failed, writable, readable);
        }
    }

    /** One descriptor with the SSL object it is responsible for. */
    method Release(fd: Fd, ssl: Option<Ssl>, ghost t: Tables, ghost rest: set<Fd>)
      requires Owned(t) && fd in rest && rest == sockets.Keys && rest == armed.Keys
      requires live == OwnedBy(t, rest) && SslOf(t, fd) == ssl
      modifies this`armed, this`live, this`sockets
      ensures sockets.Keys == rest - {fd} && armed.Keys == rest - {fd} && live == OwnedBy(t, rest - {fd})
    {
      OwnedByOneLess(t, rest, fd);
      hide Owned, OwnedBy;
      armed := armed - {fd};
      if ssl.Some? { SslFree(ssl.value); }
      Close(fd);
    }

    /** The first loop of the destructor: handshakes under way. */
    method DestroyPending(ghost t: Tables)
      requires Consistent(t) && Contents() == t
      modifies this
      ensures pending == map[] && connections == t.connections
      ensures sockets.Keys == armed.Keys == connections.Keys && live == OwnedBy(t, connections.Keys)
    {
      hide Consistent, Owned, OwnedBy, Armed, Paired, SslOf;
      AllIsOwned(t);
      OpenIsTabled(t);
      var fds := pending.Keys;
      ghost var rest := t.open;
      while fds != {}
        invariant pending == t.pending && connections == t.connections
        invariant fds <= pending.Keys && fds !! connections.Keys
        invariant rest == fds + connections.Keys && rest == sockets.Keys && rest == armed.Keys
        invariant live == OwnedBy(t, rest)
        decreases fds
      {
        var fd :| fd in fds;
        PendingOwns(t, fd);
        Release(fd, Some(pending[fd]), t, rest);
        fds, rest := fds - {fd}, rest - {fd};
      }
      assert rest == connections.Keys;
      pending := map[];
    }

    /** The second loop: established pairs; only the client side frees. */
    method DestroyConnections(ghost t: Tables)
      requires Consistent(t) && pending == map[] && connections == t.connections
      requires sockets.Keys == armed.Keys == connections.Keys && live == OwnedBy(t, connections.Keys)
      modifies this
      ensures Contents() == EMPTY
    {
      hide Consistent, Owned, OwnedBy, Armed, Paired, SslOf;
      OpenIsTabled(t);
      var fds := connections.Keys;
      while fds != {}
        invariant pending == map[] && connections == t.connections
        invariant fds <= connections.Keys && fds == sockets.Keys && fds == armed.Keys
        invariant live == OwnedBy(t, fds)
        decreases fds
      {
        var fd :| fd in fds;
        OnlyClientsOwn(t, fd);
        Release(fd, if connections[fd].isClient then connections[fd].ssl else None, t, fds);
        fds := fds - {fd};
      }
      connections := map[];
      NobodyOwns(t);
      NoKeys(sockets);
      NoKeys(armed);
    }

    /** The destructor: every SSL object is freed and every descriptor closed, each exactly once. */
    method Destroy()
      requires Valid()
      modifies this
      ensures Contents() == EMPTY
    {
      hide Consistent, OwnedBy;
      ghost var t := Contents();
      DestroyPending(t);
      DestroyConnections(t);
    }

    /**
     * The event loop. Each event moves octets as it should, and after any events, for every descriptor
     * of a pair for which no call has found a backlog and no record has been lost, what was taken from
     * its peer is what has been written to it followed by its backlog.
     */
    method Loop(events: seq<Event>) returns (ghost worlds: seq<World>, ghost woken: seq<World>)
      requires Valid() && InOrder()
      modifies this
      ensures Valid() && InOrder()
      ensures |worlds| == |events| + 1 && |woken| == |events| && worlds[0] == old(Whole()) && worlds[|events|] == Whole()
      ensures forall i :: 0 <= i < |events| ==> Turns(worlds[i], woken[i], worlds[i + 1], events[i])
    {
      hide Consistent, Ordered, Turns;
      worlds, woken := [Whole()], [];
      for i := 0 to |events|
        invariant Valid() && InOrder()
        invariant |worlds| == i + 1 && |woken| == i && worlds[0] == old(Whole()) && worlds[i] == Whole()
        invariant forall j :: 0 <= j < i ==> Turns(worlds[j], woken[j], worlds[j + 1], events[j])
      {
        ghost var m := Turn(events[i]);
        worlds, woken := worlds + [Whole()], woken + [m];
      }
    }

    /** One event, as the kernel reports it. */
    method Turn(event: Event) returns (ghost woken: World)
      requires Valid() && InOrder()
      modifies this
      ensures Valid() && InOrder() && Turns(old(Whole()), woken, Whole(), event)
    {
      hide Consistent, Ordered, Follows;
      Wake(event);
      woken := Whole();
      Dispatch(event);
    }

    /** A whole run of the proxy, from nothing to nothing. */
    method Run(events: seq<Event>)
      requires Contents() == EMPTY && Valid() && InOrder()
      modifies this
      ensures Contents() == EMPTY
    {
      hide Consistent, Ordered;
      ghost var worlds, woken := Loop(events);
      Destroy();
    }
  }

  lemma RelayedToClient(a: World, b: World, fd: Fd, round: Round, taken: seq<byte>, written: nat)
    requires Paired(a.t.connections) && fd in a.t.connections && !a.t.connections[fd].isClient && round != More
    requires var peer := a.t.connections[fd].peer;
             && (round == Dead ==>
                   && b.t == Dropped(a.t, fd) && Untouched(a.s, b.s, {fd, peer}) && (fd in b.broken || peer in b.broken))
             && (round != Dead ==>
                   && fd in a.s && peer in a.s && taken <= a.s[fd].pending && written <= |taken|
                   && b.s == Transferred(a.s, fd, peer, taken, written)
                   && b.t == (if round == Blocked
                              then Backlog(a.t, peer, a.t.connections[peer].writeBuf + taken[written..]) else a.t)
                   && (round == Idle <==> written == |taken|) && b.broken == a.broken
                   && (round == Starved ==> peer in b.starved)
                   && (round == Idle ==> fd in b.idle) && (round == Blocked ==> peer in b.full))
    ensures Relays(a, b, fd)
  {
    hide Transferred, Dropped, Backlog;
    assert round.Dead? || round.Idle? || round.Blocked? || round.Starved?;
    assert round != Dead ==> Relayed(a, b, fd, taken, written);
  }

  lemma ForwardedIs(t: Tables, to: Fd, taken: seq<byte>, written: nat)
    requires to in t.connections && written <= |taken|
    ensures Forwarded(t, to, taken, written) ==
            if written == |taken| then t else Backlog(t, to, t.connections[to].writeBuf + taken[written..])
  {
  }

  lemma Tail(taken: seq<byte>, more: seq<byte>, rest: seq<byte>)
    requires |rest| <= |more| && rest == more[|more| - |rest|..]
    ensures rest == (taken + more)[|taken + more| - |rest|..]
  {
  }

  lemma OpenIsTabled(t: Tables)
    requires Consistent(t)
    ensures Owned(t) && t.armed.Keys == t.open && t.open == t.pending.Keys + t.connections.Keys
    ensures t.pending.Keys !! t.connections.Keys
  {
    hide Owned, Paired;
  }

  lemma PendingOwns(t: Tables, fd: Fd)
    requires fd in t.pending
    ensures SslOf(t, fd) == Some(t.pending[fd])
  {
  }

  lemma NoKeys<T>(m: map<Fd, T>)
    requires m.Keys == {}
    ensures m == map[]
  {
  }

  lemma NobodyOwns(t: Tables)
    ensures OwnedBy(t, {}) == {}
  {
  }

  lemma OnlyClientsOwn(t: Tables, fd: Fd)
    requires Consistent(t) && fd in t.connections
    ensures fd !in t.pending && SslOf(t, fd) == t.connections[fd].ssl
    ensures t.connections[fd].ssl.Some? <==> t.connections[fd].isClient
  {
  }

  // ---- the order of octets --------------------------------------------------------------------------------------

  lemma IsPaired(t: Tables)
    requires Consistent(t)
    ensures Paired(t.connections)
  {
    hide Owned, Armed, Paired;
  }

  lemma PendingIsOpen(t: Tables)
    requires Consistent(t)
    ensures t.pending.Keys <= t.open
  {
    hide Owned, Armed, Paired;
  }

  lemma Elsewhere(s: SocketTable, from: Fd, to: Fd, taken: seq<byte>, written: nat)
    requires from in s && to in s && taken <= s[from].pending && written <= |taken|
    ensures forall k :: k in s && k != from && k != to ==>
              k in Transferred(s, from, to, taken, written) && Transferred(s, from, to, taken, written)[k] == s[k]
  {
  }

  lemma ForwardInOrder(t: Tables, s: SocketTable, h: Histories, from: Fd, to: Fd, taken: seq<byte>, written: nat)
    requires Consistent(t) && Ordered(t, s, h) && from in t.connections && t.connections[from].peer == to
    requires from in s && taken <= s[from].pending && written <= |taken|
    ensures to in t.connections && to in s && to in h
    ensures var u, s1 := Forwarded(t, to, taken, written), Transferred(s, from, to, taken, written);
            && Ordered(u, s1, Noted(h, to, taken, t.connections[to].writeBuf == []))
            && Ordered(t, s1, Noted(h, to, taken, false))
            && (t.connections[to].writeBuf == [] ==>
                  Promised(s1, u.connections, to) == Promised(s, t.connections, to) + taken)
  {
    PairIsOpen(t, from);
    hide Owned, Armed, Paired, Forwarded, Noted, Transferred, Promised;
    ForwardKeepsOrder(t, s, h, from, to, taken, written);
    LossKeepsOrder(t, s, h, from, to, taken, written);
  }

  lemma FlushInOrder(t: Tables, s: SocketTable, h: Histories, fd: Fd, sent: seq<byte>)
    requires Consistent(t) && Ordered(t, s, h) && fd in t.connections && fd in s && sent <= t.connections[fd].writeBuf
    ensures var u := Backlog(t, fd, t.connections[fd].writeBuf[|sent|..]);
            var s1 := s[fd := s[fd].(delivered := s[fd].delivered + sent)];
            Promised(s1, u.connections, fd) == Promised(s, t.connections, fd) && Ordered(u, s1, h)
  {
    hide Owned, Armed, Paired, Ordered, Promised, Backlog;
    FlushKeepsOrder(t, s, h, fd, sent);
  }

  lemma WaitsForOutput(t: Tables, fd: Fd)
    requires Consistent(t) && fd in t.connections && t.connections[fd].writeBuf != []
    ensures fd in t.armed && t.armed[fd := Interest(true, true)] == t.armed
  {
  }

  lemma RemoveTwo<T>(m: map<Fd, T>, a: Fd, b: Fd)
    ensures m - {a} - {b} == m - {a, b}
    ensures (m - {a} - {b}).Keys == m.Keys - {a, b}
  {
  }

  lemma PairIsOpen(t: Tables, fd: Fd)
    requires Consistent(t) && fd in t.connections
    ensures fd in t.open && t.connections[fd].peer in t.connections && t.connections[fd].peer in t.open
    ensures t.connections[fd].peer != fd
  {
    PairSslIsOwned(t, fd);
  }
}
