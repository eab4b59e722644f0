/**
 * The event-loop TCP proxy (`epoll_proxy.cpp`): a table that pairs each client socket with its
 * target socket, and zero-copy forwarding through pooled pipes.
 */
module EpollProxy {
  import opened Bytes
  import opened Descriptors

  // ---- the connection table --------------------------------------------------------------------------------

  datatype ConnState = ConnState(peer: Fd, isClient: bool)

  type Table = map<Fd, ConnState>

  /** Every entry has a partner, another descriptor of the other kind, whose partner it is. */
  predicate Paired(c: Table) {
    forall fd :: fd in c ==>
      var p := c[fd].peer;
      p != fd && p in c && c[p] == ConnState(fd, !c[fd].isClient)
  }

  function Clients(c: Table): set<Fd> { set fd | fd in c && c[fd].isClient }

  function Link(c: Table, client: Fd, target: Fd): Table {
    c[client := ConnState(target, true)][target := ConnState(client, false)]
  }

  lemma LinkKeepsPairs(c: Table, client: Fd, target: Fd)
    requires Paired(c) && client !in c && target !in c && client != target
    ensures Paired(Link(c, client, target))
    ensures Clients(Link(c, client, target)) == Clients(c) + {client}
  {
  }

  lemma UnlinkKeepsPairs(c: Table, fd: Fd)
    requires Paired(c) && fd in c
    ensures Paired(c - {fd, c[fd].peer})
    ensures Clients(c - {fd, c[fd].peer}) == Clients(c) - {if c[fd].isClient then fd else c[fd].peer}
    ensures (if c[fd].isClient then fd else c[fd].peer) in Clients(c)
  {
  }

  lemma ClientsInTable(c: Table)
    ensures Clients(c) <= c.Keys
  {
  }

  /** Of a paired table, exactly half of the entries are clients. */
  lemma {:induction false} ClientsAreHalf(c: Table)
    requires Paired(c)
    ensures |c| == 2 * |Clients(c)|
    decreases |c|
  {
    if c == map[] {
      assert Clients(c) == {};
    } else {
      var fd :| fd in c;
      var p := c[fd].peer;
      var rest := c - {fd, p};
      assert c.Keys == rest.Keys + {fd, p};
      assert |c.Keys| == |c| && |rest.Keys| == |rest|;
      UnlinkKeepsPairs(c, fd);
      ClientsAreHalf(rest);
    }
  }

  /** The proxy's counter of active connections is half the size of its table. */
  lemma ActiveIsHalf(c: Table, active: nat)
    requires Paired(c) && active == |Clients(c)|
    ensures |c| == 2 * active
    ensures active == 0 <==> c == map[]
  {
    ClientsAreHalf(c);
  }

  // ---- pipes -------------------------------------------------------------------------------------------------

  class Pipe {
    var content: seq<byte>
    var isOpen: bool

    constructor ()
      ensures content == [] && isOpen
    {
      content, isOpen := [], true;
    }

    method Close()
      requires isOpen
      modifies this`isOpen
      ensures !isOpen
    {
      isOpen := false;
    }
  }

  // ---- the proxy ------------------------------------------------------------------------------------------------

  /** The table is paired, its sockets are open, and the counter counts its clients. */
  predicate TableValid(c: Table, active: nat, open: set<Fd>) {
    Paired(c) && active == |Clients(c)| && c.Keys <= open
  }

  /** What an exception out of the accept loop leaves: perhaps one pair that has not been counted. */
  predicate TableUncounted(c: Table, active: nat, open: set<Fd>) {
    Paired(c) && |Clients(c)| - 1 <= active <= |Clients(c)| && c.Keys <= open
  }

  lemma EmptyTable(open: set<Fd>)
    ensures TableValid(map[], 0, open)
  {
    assert Clients(map[]) == {};
  }

  lemma LinkedTable(c: Table, active: nat, open: set<Fd>, client: Fd, target: Fd)
    requires TableValid(c, active, open) && client !in open && target !in open && client != target
    ensures TableValid(Link(c, client, target), active + 1, open + {client, target})
  {
    LinkKeepsPairs(c, client, target);
    ClientsInTable(c);
  }

  lemma UncountedPair(c: Table, active: nat, open: set<Fd>, client: Fd, target: Fd)
    requires TableValid(c, active, open) && client !in open && target !in open && client != target
    ensures TableUncounted(Link(c, client, target), active, open + {client, target})
  {
    LinkKeepsPairs(c, client, target);
    ClientsInTable(c);
  }

  lemma UncountedSockets(c: Table, active: nat, open: set<Fd>, more: set<Fd>)
    requires TableValid(c, active, open)
    ensures TableUncounted(c, active, open + more)
  {
  }

  lemma UnlinkedTable(c: Table, active: nat, open: set<Fd>, fd: Fd)
    requires TableValid(c, active, open) && fd in c
    ensures active > 0 && c[fd].peer in open && c[fd].peer != fd
    ensures TableValid(c - {fd, c[fd].peer}, active - 1, open - {fd, c[fd].peer})
  {
    UnlinkKeepsPairs(c, fd);
  }

  // ---- what an event does -----------------------------------------------------------------------------------------

  /** What throws in one turn of the accept loop: making a socket non-blocking, or registering the pair. */
  datatype Fault = NoFault | ClientFlags | TargetFlags | Registration

  datatype Event = Arrival(waiting: nat) | Ready(fd: Fd, failed: bool, readable: bool)

  /** A client that `accept` has returned, the socket for its target, and what became of the two. */
  datatype Accepted = Accepted(client: Fd, target: Fd, refused: bool, fault: Fault)

  predicate Throws(r: Accepted) { r.fault == ClientFlags || (!r.refused && r.fault != NoFault) }

  predicate Linked(r: Accepted) { !r.refused && (r.fault == NoFault || r.fault == Registration) }

  datatype World = World(table: Table, active: nat, sockets: SocketTable, accepted: seq<Accepted>,
                         idle: set<Fd>, broken: set<Fd>)

  predicate Broken(broken: set<Fd>, fd: Fd, peer: Fd) { fd in broken || peer in broken }

  /**
   * The octets taken from a socket have gone to its peer and there are no more for now; or, if one of
   * the two has failed, ended or stayed full too long, part of them have and the pair is closed.
   */
  ghost predicate Moved(a: World, b: World, fd: Fd, moved: seq<byte>, done: nat)
    requires fd in a.table
  {
    var peer := a.table[fd].peer;
    && fd in a.sockets && peer in a.sockets && moved <= a.sockets[fd].pending && done <= |moved|
    && var last := Transferred(a.sockets, fd, peer, moved, done);
       || (b.table == a.table && b.active == a.active && b.sockets == last && done == |moved| && fd in b.idle
           && !Broken(b.broken, fd, peer))
       || (b.table == a.table - {fd, peer} && b.active == a.active - 1 && b.sockets == last - {fd, peer}
           && Broken(b.broken, fd, peer))
  }

  /** Events of unknown descriptors do nothing, failures close the pair, and a readable socket is read dry. */
  ghost predicate Handles(a: World, b: World, fd: Fd, failed: bool, readable: bool) {
    if fd !in a.table then b == a
    else if failed then
      var gone := {fd, a.table[fd].peer};
      b.table == a.table - gone && b.active == a.active - 1 && b.sockets == a.sockets - gone
    else if readable then exists moved, done :: Moved(a, b, fd, moved, done)
    else b == a
  }

  /** The descriptor belongs to one of the given clients. */
  ghost predicate Among(fd: Fd, records: seq<Accepted>) {
    exists r :: r in records && Linked(r) && (fd == r.client || fd == r.target)
  }

  predicate IsPair(c: Table, r: Accepted) {
    r.client in c && r.target in c && c[r.client] == ConnState(r.target, true) && c[r.target] == ConnState(r.client, false)
  }

  /** The pairs that are new in a table are those of the given clients. */
  ghost predicate Joined(t: Table, u: Table, records: seq<Accepted>) {
    && (forall fd :: fd in t ==> fd in u && u[fd] == t[fd])
    && (forall r :: r in records && Linked(r) ==> r.client !in t && r.target !in t && IsPair(u, r))
    && (forall fd :: fd in u && fd !in t ==> Among(fd, records))
  }

  lemma JoinedNone(t: Table)
    ensures Joined(t, t, [])
  {
  }

  lemma AmongMore(fd: Fd, records: seq<Accepted>, r: Accepted)
    ensures Among(fd, records + [r]) <==> Among(fd, records) || (Linked(r) && (fd == r.client || fd == r.target))
  {
    if Linked(r) && (fd == r.client || fd == r.target) { assert r in records + [r]; }
    if Among(fd, records) {
      var q :| q in records && Linked(q) && (fd == q.client || fd == q.target);
      assert q in records + [r];
    }
  }

  lemma JoinedOne(t: Table, u: Table, records: seq<Accepted>, r: Accepted)
    requires Joined(t, u, records) && r.client !in u && r.target !in u && r.client != r.target
    ensures Joined(t, if Linked(r) then Link(u, r.client, r.target) else u, records + [r])
  {
    hide Among, Linked;
    var v := if Linked(r) then Link(u, r.client, r.target) else u;
    forall fd | fd in v && fd !in t ensures Among(fd, records + [r]) { AmongMore(fd, records, r); }
    forall q | q in records + [r] && Linked(q) ensures q.client !in t && q.target !in t && IsPair(v, q) {
      if q in records {
        assert IsPair(u, q);
      } else {
        assert q == r;
      }
    }
  }

  /** Everyone who was waiting is accepted, until something throws; pairs and sockets that are there stay as they are. */
  ghost predicate Admits(a: World, b: World, waiting: nat, thrown: bool) {
    && a.active <= b.active <= a.active + waiting && b.idle == a.idle && b.broken == a.broken
    && a.accepted <= b.accepted
    && (var records := b.accepted[|a.accepted|..];
        && |records| <= waiting && (|records| == waiting || thrown)
        && (forall i :: 0 <= i < |records| ==> (Throws(records[i]) <==> thrown && i == |records| - 1))
        && (thrown ==> records != [])
        && Joined(a.table, b.table, records))
    && (forall fd :: fd in a.sockets ==> fd in b.sockets && b.sockets[fd] == a.sockets[fd])
    && (forall fd :: fd in b.sockets && fd !in a.sockets ==> b.sockets[fd].delivered == [])
  }

  ghost predicate Follows(a: World, b: World, e: Event, thrown: bool) {
    match e
    case Arrival(waiting) => Admits(a, b, waiting, thrown)
    case Ready(fd, failed, readable) => !thrown && Handles(a, b, fd, failed, readable)
  }

  class EpollProxy {
    var connections: Table
    var pool: seq<Pipe>
    var active: nat
    var total: nat
    var sockets: SocketTable
    ghost var accepted: seq<Accepted>
    ghost var idle: set<Fd>       // sockets on which the last splice has found nothing more to read
    ghost var broken: set<Fd>     // sockets on which a splice has failed or found the end, or that stayed full too long

    ghost function Whole(): World
      reads this
    {
      World(connections, active, sockets, accepted, idle, broken)
    }

    ghost predicate PoolValid()
      reads this`pool, pool
    {
      && (forall i :: 0 <= i < |pool| ==> pool[i].isOpen && pool[i].content == [])
      && (forall i, j :: 0 <= i < j < |pool| ==> pool[i] != pool[j])
    }

    ghost predicate Valid()
      reads this`connections, this`active, this`sockets, this`pool, pool
    {
      TableValid(connections, active, sockets.Keys) && PoolValid()
    }

    constructor (poolSize: nat)
      ensures Valid() && connections == map[] && |pool| == poolSize && active == total == 0 && sockets == map[] && fresh(pool)
    {
      connections, pool, active, total, sockets, accepted, idle, broken := map[], [], 0, 0, map[], [], {}, {};
      new;
      for i := 0 to poolSize
        invariant |pool| == i && PoolValid() && fresh(pool)
        invariant connections == map[] && active == total == 0 && sockets == map[]
      {
        var pipe := new Pipe();
        pool := pool + [pipe];
      }
      EmptyTable(sockets.Keys);
    }

    /** Closing a descriptor that is not open would be an error. */
    method Close(fd: Fd)
      requires fd in sockets
      modifies this`sockets
      ensures sockets == old(sockets) - {fd}
    {
      sockets := sockets - {fd};
    }

    method Open(fd: Fd, arriving: seq<byte>)
      requires fd !in sockets
      modifies this`sockets
      ensures sockets == old(sockets)[fd := Traffic(arriving, [])]
    {
      sockets := sockets[fd := Traffic(arriving, [])];
    }

    /** After an exception the table is still paired and its sockets are still open. */
    ghost predicate Uncounted()
      reads this`connections, this`active, this`sockets, this`pool, pool
    {
      TableUncounted(connections, active, sockets.Keys) && PoolValid()
    }

    /**
     * One turn of the accept loop. The target may refuse, and `fcntl` and `epoll_ctl` may throw: the
     * sockets stay open then, and a pair that could not be registered is in the table but not counted.
     */
    method AcceptOne(client: Fd, target: Fd, refused: bool, fault: Fault, a: seq<byte>, b: seq<byte>) returns (thrown: bool)
      requires Valid() && client !in sockets && target !in sockets && client != target
      modifies this`connections, this`active, this`total, this`sockets, this`accepted
      ensures accepted == old(accepted) + [Accepted(client, target, refused, fault)]
      ensures thrown <==> Throws(accepted[|old(accepted)|])
      ensures if thrown then Uncounted() else Valid()
      ensures connections ==
              if Linked(accepted[|old(accepted)|]) then Link(old(connections), client, target) else old(connections)
      ensures sockets == if fault == ClientFlags then old(sockets)[client := Traffic(a, [])]
                         else if refused then old(sockets)
                         else old(sockets)[client := Traffic(a, [])][target := Traffic(b, [])]
      ensures var counted := if !refused && fault == NoFault then 1 else 0;
              total == old(total) + counted && active == old(active) + counted
    {
      hide TableValid, TableUncounted, PoolValid;
      assert connections.Keys <= sockets.Keys by { TableInSockets(connections, active, sockets.Keys); }
      accepted := accepted + [Accepted(client, target, refused, fault)];
      Open(client, a);
      assert sockets.Keys == old(sockets.Keys) + {client};
      UncountedSockets(connections, active, old(sockets.Keys), {client});
      if fault == ClientFlags { return true; }
      if refused {
        Close(client);
        assert sockets == old(sockets);
        return false;
      }
      Open(target, b);
      assert sockets.Keys == old(sockets.Keys) + {client, target};
      UncountedSockets(connections, active, old(sockets.Keys), {client, target});
      if fault == TargetFlags { return true; }
      UncountedPair(connections, active, old(sockets.Keys), client, target);
      LinkedTable(connections, active, old(sockets.Keys), client, target);
      connections := connections[client := ConnState(target, true)];
      connections := connections[target := ConnState(client, false)];
      if fault == Registration { return true; }
      total := total + 1;
      active := active + 1;
      return false;
    }

    /** Until the kernel has no more clients waiting, or an exception. */
    method AcceptConnection(waiting: nat) returns (thrown: bool)
      requires Valid()
      modifies this`connections, this`active, this`total, this`sockets, this`accepted
      ensures if thrown then Uncounted() else Valid()
      ensures Admits(old(Whole()), Whole(), waiting, thrown)
      ensures total - old(total) == active - old(active)
    {
      hide TableValid, TableUncounted, PoolValid, Joined;
      var left := waiting;
      thrown := false;
      ghost var records: seq<Accepted> := [];
      JoinedNone(connections);
      while left > 0 && !thrown
        invariant (if thrown then Uncounted() else Valid()) && 0 <= left <= waiting
        invariant accepted == old(accepted) + records && |records| == waiting - left
        invariant forall i :: 0 <= i < |records| ==> (Throws(records[i]) <==> thrown && i == |records| - 1)
        invariant (thrown ==> records != []) && Joined(old(connections), connections, records)
        invariant 0 <= total - old(total) == active - old(active) <= waiting - left
        invariant forall fd :: fd in old(sockets) ==> fd in sockets && sockets[fd] == old(sockets)[fd]
        invariant forall fd :: fd in sockets && fd !in old(sockets) ==> sockets[fd].delivered == []
      {
        left := left - 1;
        ghost var c := UnusedFd(sockets.Keys);
        var client: Fd :| client !in sockets;
        ghost var t := UnusedFd(sockets.Keys + {client});
        var target: Fd :| target !in sockets && target != client;
        var refused: bool :| true;
        var fault: Fault :| true;
        TableInSockets(connections, active, sockets.Keys);
        var a: seq<byte> :| true;
        var b: seq<byte> :| true;
        ghost var r := Accepted(client, target, refused, fault);
        JoinedOne(old(connections), connections, records, r);
        thrown := AcceptOne(client, target, refused, fault, a, b);
        records := records + [r];
      }
      assert accepted[|old(accepted)|..] == records;
    }

    method CloseConnection(fd: Fd)
      requires Valid()
      modifies this`connections, this`active, this`sockets
      ensures Valid()
      ensures fd !in old(connections) ==> connections == old(connections) && sockets == old(sockets) && active == old(active)
      ensures fd in old(connections) ==>
                var gone := {fd, old(connections)[fd].peer};
                && connections == old(connections) - gone && sockets == old(sockets) - gone && active == old(active) - 1
    {
      if fd !in connections { return; }
      var peer := connections[fd].peer;
      UnlinkedTable(connections, active, sockets.Keys, fd);
      TableInSockets(connections, active, sockets.Keys);
      hide TableValid, PoolValid;
      Close(fd);
      Close(peer);
      connections := connections - {fd};
      connections := connections - {peer};
      assert connections == old(connections) - {fd, peer};
      assert sockets == old(sockets) - {fd, peer} && sockets.Keys == old(sockets.Keys) - {fd, peer};
      active := active - 1;
    }

    method AcquirePipe() returns (pipe: Pipe)
      requires PoolValid()
      modifies this`pool
      ensures PoolValid() && pipe !in pool && pipe.isOpen && pipe.content == []
      ensures if old(pool) == [] then pool == [] && fresh(pipe) else old(pool) == pool + [pipe]
    {
      if pool != [] {
        pipe := pool[|pool| - 1];
        pool := pool[..|pool| - 1];
      } else {
        pipe := new Pipe();
      }
    }

    method ReleasePipe(pipe: Pipe)
      requires PoolValid() && pipe !in pool && pipe.isOpen && pipe.content == []
      modifies this`pool
      ensures PoolValid() && pool == old(pool) + [pipe]
    {
      pool := pool + [pipe];
    }

    /** `splice` from a socket: some octets, none for now (again), the end of the stream (n = 0), or an error. */
    method SpliceIn(from: Fd, pipe: Pipe) returns (n: int, again: bool)
      requires from in sockets && pipe.isOpen
      modifies this`sockets, this`idle, this`broken, pipe`content
      ensures -1 <= n <= 65536 && n <= |old(sockets)[from].pending|
      ensures idle == if n < 0 && again then old(idle) + {from} else old(idle)
      ensures broken == if n == 0 || (n < 0 && !again) then old(broken) + {from} else old(broken)
      ensures n == 0 ==> old(sockets)[from].pending == []
      ensures var k := if n > 0 then n else 0; var t := old(sockets)[from];
              && pipe.content == old(pipe.content) + t.pending[..k]
              && sockets == old(sockets)[from := t.(pending := t.pending[k..])]
    {
      var t := sockets[from];
      n := -1;
      again :| true;
      if * {
        n :| 0 <= n <= 65536 && n <= |t.pending| && (n == 0 ==> t.pending == []);
        pipe.content := pipe.content + t.pending[..n];
      }
      if n < 0 && again { idle := idle + {from}; } else if n <= 0 { broken := broken + {from}; }
      var k := if n > 0 then n else 0;
      assert t.pending[..0] == [] && pipe.content == old(pipe.content) + t.pending[..k];
      sockets := sockets[from := t.(pending := t.pending[k..])];
    }

    /** `splice` from the pipe to a socket. */
    method SpliceOut(pipe: Pipe, to: Fd, max: nat) returns (w: int, again: bool)
      requires to in sockets && pipe.isOpen && 0 < max <= |pipe.content|
      modifies this`sockets, this`broken, pipe`content
      ensures -1 <= w <= max
      ensures broken == if w == 0 || (w < 0 && !again) then old(broken) + {to} else old(broken)
      ensures var k := if w > 0 then w else 0; var t := old(sockets)[to];
              && pipe.content == old(pipe.content)[k..]
              && sockets == old(sockets)[to := t.(delivered := t.delivered + old(pipe.content)[..k])]
    {
      var t := sockets[to];
      w :| -1 <= w <= max;
      again :| true;
      if w == 0 || (w < 0 && !again) { broken := broken + {to}; }
      var k := if w > 0 then w else 0;
      var data := pipe.content[..k];
      pipe.content := pipe.content[k..];
      sockets := sockets[to := t.(delivered := t.delivered + data)];
    }

    /** `poll` until a socket can be written to; that happens `left` times at most before its time is up. */
    method Poll(fd: Fd, left: nat) returns (ready: bool)
      modifies this`broken
      ensures ready ==> left > 0
      ensures broken == if ready then old(broken) else old(broken) + {fd}
    {
      ready := false;
      if left > 0 { ready :| true; }
      if !ready { broken := broken + {fd}; }
    }

    /** The inner loop: the n octets in the pipe go to the socket, or a prefix of them if that fails. */
    method Drain(pipe: Pipe, to: Fd, n: nat) returns (ok: bool, written: nat)
      requires to in sockets && pipe.isOpen && |pipe.content| == n
      modifies this`sockets, this`broken, pipe`content
      ensures written <= n && (ok <==> written == n)
      ensures broken == if ok then old(broken) else old(broken) + {to}
      ensures var t := old(sockets)[to]; var data := old(pipe.content);
              && pipe.content == data[written..]
              && sockets == old(sockets)[to := t.(delivered := t.delivered + data[..written])]
    {
      ghost var t, data := sockets[to], pipe.content;
      written := 0;
      var busy: nat :| true;
      assert t.delivered + data[..0] == t.delivered;
      while written < n
        invariant 0 <= written <= n && pipe.isOpen && pipe.content == data[written..]
        invariant sockets == old(sockets)[to := t.(delivered := t.delivered + data[..written])] && broken == old(broken)
        decreases n - written, busy
      {
        ghost var content := pipe.content;
        var w, full := SpliceOut(pipe, to, n - written);
        if w <= 0 {
          assert t.delivered + data[..written] + content[..0] == t.delivered + data[..written];
          if w < 0 && full {
            var ready := Poll(to, busy);
            if !ready { return false, written; }
            busy := busy - 1;
            continue;
          }
          return false, written;
        }
        assert data[..written + w] == data[..written] + content[..w];
        assert t.delivered + data[..written] + content[..w] == t.delivered + (data[..written] + content[..w]);
        written := written + w;
      }
      ok := true;
    }

    /** The pipe may hold octets that have not gone out; it is closed, not put back. */
    method Abort(from: Fd, pipe: Pipe)
      requires Valid() && pipe !in pool && pipe.isOpen
      modifies this`connections, this`active, this`sockets, pipe`isOpen
      ensures Valid() && !pipe.isOpen
      ensures from in old(connections) ==>
                var gone := {from, old(connections)[from].peer};
                && connections == old(connections) - gone && sockets == old(sockets) - gone && active == old(active) - 1
    {
      hide TableValid;
      pipe.Close();
      CloseConnection(from);
    }

    /** One round of the outer loop: what can be read at once goes through the pipe to the peer. */
    method Pump(from: Fd, to: Fd, pipe: Pipe) returns (more: bool, ok: bool, ghost taken: seq<byte>, ghost written: nat)
      requires from in sockets && to in sockets && from != to && pipe.isOpen && pipe.content == []
      requires from !in idle && !Broken(broken, from, to)
      modifies this`sockets, this`idle, this`broken, pipe`content
      ensures taken <= old(sockets)[from].pending && written <= |taken|
      ensures sockets == Transferred(old(sockets), from, to, taken, written)
      ensures from in sockets && sockets[from].pending == old(sockets)[from].pending[|taken|..]
      ensures more ==> ok && taken != []
      ensures ok ==> written == |taken| && pipe.content == [] && broken == old(broken)
      ensures if ok && !more then idle == old(idle) + {from} else idle == old(idle)
      ensures Broken(broken, from, to) <==> !ok
    {
      ghost var s0 := sockets;
      taken, written := [], 0;
      NothingTransferred(s0, from, to);
      var n, again := SpliceIn(from, pipe);
      if n <= 0 {
        assert sockets == s0 by { assert s0[from].pending[0..] == s0[from].pending; }
        assert pipe.content == [];
        return false, n < 0 && again, taken, written;
      }
      taken := s0[from].pending[..n];
      assert pipe.content == taken && [] + taken == taken;
      ghost var s1 := sockets;
      TakenIn(s0, from, to, [], 0, n);
      ok, written := Drain(pipe, to, n);
      PutOut(s0, from, to, taken, 0, written);
      assert taken[0..] == taken;
      more := ok;
    }

    /**
     * Everything that can be read from one socket goes to its peer. If nothing fails, exactly the
     * octets taken from the source have been appended to the destination and the pipe is back in
     * the pool, empty; otherwise the destination has got a prefix of them, both sockets are closed,
     * and the pipe is not in the pool.
     */
    method ForwardData(from: Fd, to: Fd)
        returns (ok: bool, ghost moved: seq<byte>, ghost done: nat, ghost last: SocketTable)
      requires Valid() && from in connections && connections[from].peer == to && from !in idle && !Broken(broken, from, to)
      modifies this, pool
      ensures Valid()
      ensures old(idle) <= idle <= old(idle) + {from}
      ensures moved <= old(sockets)[from].pending && done <= |moved|
      ensures last == Transferred(old(sockets), from, to, moved, done)
      ensures accepted == old(accepted) && (Broken(broken, from, to) <==> !ok)
      ensures ok ==> done == |moved| && from in idle && sockets == last
                     && connections == old(connections) && active == old(active)
                     && (if old(pool) == [] then |pool| == 1 && fresh(pool[0]) else pool == old(pool))
      ensures !ok ==> sockets == last - {from, to} && connections == old(connections) - {from, to} && active == old(active) - 1
                      && (if old(pool) == [] then pool == [] else pool == old(pool)[..|old(pool)| - 1])
    {
      hide TableValid, Transferred, PoolValid, Broken;
      var pipe := AcquirePipe();
      assert fresh(pipe) || pipe in old(pool) by { if old(pool) != [] { assert pipe == old(pool)[|pool|]; } }
      ghost var before := sockets;
      moved, done := [], 0;
      PairInSockets(connections, active, sockets.Keys, from);
      NothingTransferred(before, from, to);
      var more := true;
      ok := true;
      while more
        invariant Valid() && pipe !in pool && pipe.isOpen && (fresh(pipe) || pipe in old(pool))
        invariant connections == old(connections) && active == old(active) && total == old(total)
        invariant accepted == old(accepted) && (Broken(broken, from, to) <==> !ok) && (more ==> ok)
        invariant if ok && !more then idle == old(idle) + {from} else idle == old(idle)
        invariant if old(pool) == [] then pool == [] && fresh(pipe) else old(pool) == pool + [pipe]
        invariant sockets.Keys == before.Keys && from != to && from in before && to in before
        invariant moved <= before[from].pending && done <= |moved| && (ok ==> done == |moved| && pipe.content == [])
        invariant sockets == Transferred(before, from, to, moved, done)
        invariant sockets[from].pending == before[from].pending[|moved|..]
        decreases |sockets[from].pending|, more
      {
        ghost var s0 := sockets;
        ghost var taken, written;
        more, ok, taken, written := Pump(from, to, pipe);
        assert PoolValid();
        TransferredTwice(before, from, to, moved, taken, written);
        assert sockets.Keys == s0.Keys by { TransferredKeys(s0, from, to, taken, written); }
        moved, done := moved + taken, done + written;
      }
      last := sockets;
      if ok {
        ReleasePipe(pipe);
      } else {
        Abort(from, pipe);
      }
    }

    /** An event for a descriptor that is no longer in the table is ignored; a readable socket is read until it is idle. */
    method HandleEvent(fd: Fd, failed: bool, readable: bool)
      requires Valid()
      modifies this, pool
      ensures Valid() && (forall i :: 0 <= i < |pool| ==> pool[i] in old(pool) || fresh(pool[i]))
      ensures fd !in old(connections) ==> pool == old(pool)
      ensures Handles(old(Whole()), Whole(), fd, failed, readable)
    {
      hide TableValid, PoolValid, Transferred;
      if failed {
        CloseConnection(fd);
        return;
      }
      if readable && fd in connections {
        PairInSockets(connections, active, sockets.Keys, fd);
        idle, broken := idle - {fd}, broken - {fd, connections[fd].peer};
        var ok, moved, done, last := ForwardData(fd, connections[fd].peer);
        assert Moved(old(Whole()), Whole(), fd, moved, done);
      }
    }

    /**
     * The event loop: each event moves octets as it should, the table stays paired and the counter is
     * half its size; if an exception ends the loop, at most one pair is not counted.
     */
    method Run(events: seq<Event>) returns (thrown: bool, ghost worlds: seq<World>)
      requires Valid()
      modifies this, pool
      ensures if thrown then Uncounted() else Valid()
      ensures |connections| == 2 * active || (thrown && |connections| == 2 * active + 2)
      ensures 0 < |worlds| <= |events| + 1 && worlds[0] == old(Whole()) && worlds[|worlds| - 1] == Whole()
      ensures |worlds| == |events| + 1 || thrown
      ensures forall i :: 0 <= i < |worlds| - 1 ==> Follows(worlds[i], worlds[i + 1], events[i], thrown && i == |worlds| - 2)
    {
      hide TableValid, TableUncounted, PoolValid, Handles, Admits;
      thrown := false;
      worlds := [Whole()];
      for i := 0 to |events|
        invariant Valid() && !thrown && (forall k :: 0 <= k < |pool| ==> pool[k] in old(pool) || fresh(pool[k]))
        invariant |worlds| == i + 1 && worlds[0] == old(Whole()) && worlds[i] == Whole()
        invariant forall j :: 0 <= j < i ==> Follows(worlds[j], worlds[j + 1], events[j], false)
      {
        match events[i]
        case Arrival(waiting) =>
          thrown := AcceptConnection(waiting);
          worlds := worlds + [Whole()];
          if thrown {
            UncountedIsHalf(connections, active, sockets.Keys);
            return;
          }
        case Ready(fd, failed, readable) =>
          HandleEvent(fd, failed, readable);
          worlds := worlds + [Whole()];
      }
      TableIsHalf(connections, active, sockets.Keys);
    }

    method CloseSockets()
      requires connections.Keys <= sockets.Keys
      modifies this`connections, this`sockets
      ensures connections == map[] && sockets == old(sockets) - old(connections).Keys
    {
      var fds := connections.Keys;
      assert old(connections).Keys - fds == {};
      while fds != {}
        invariant fds <= connections.Keys && connections == old(connections)
        invariant sockets == old(sockets) - (old(connections).Keys - fds)
        decreases |fds|
      {
        var fd :| fd in fds;
        ghost var gone := old(connections).Keys - fds;
        fds := fds - {fd};
        assert old(connections).Keys - fds == gone + {fd};
        Close(fd);
      }
      assert old(connections).Keys - fds == old(connections).Keys;
      connections := map[];
    }

    method ClosePipes()
      requires PoolValid()
      modifies this`pool, pool
      ensures pool == [] && forall p :: p in old(pool) ==> !p.isOpen
    {
      for i := 0 to |pool|
        invariant pool == old(pool)
        invariant forall k :: 0 <= k < i ==> !pool[k].isOpen
        invariant forall k :: i <= k < |pool| ==> pool[k].isOpen
      {
        pool[i].Close();
      }
      pool := [];
    }

    /** The destructor closes every socket of the table once, and every pipe of the pool once. */
    method Destroy()
      requires Valid() || Uncounted()
      modifies this, pool
      ensures connections == map[] && pool == []
      ensures sockets == old(sockets) - old(connections).Keys
      ensures forall p :: p in old(pool) ==> !p.isOpen
    {
      hide PoolValid;
      CloseSockets();
      ClosePipes();
    }
  }

  lemma TableIsHalf(c: Table, active: nat, open: set<Fd>)
    requires TableValid(c, active, open)
    ensures |c| == 2 * active
  {
    ActiveIsHalf(c, active);
  }

  lemma UncountedIsHalf(c: Table, active: nat, open: set<Fd>)
    requires TableUncounted(c, active, open)
    ensures |c| == 2 * active || |c| == 2 * active + 2
  {
    ClientsAreHalf(c);
  }

  lemma PairInSockets(c: Table, active: nat, open: set<Fd>, fd: Fd)
    requires TableValid(c, active, open) && fd in c
    ensures c[fd].peer in c && fd in open && c[fd].peer in open && c[fd].peer != fd
  {
  }

  lemma TableInSockets(c: Table, active: nat, open: set<Fd>)
    requires TableValid(c, active, open)
    ensures c.Keys <= open
  {
  }
}
