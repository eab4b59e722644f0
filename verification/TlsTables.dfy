/**
 * The tables of the TLS-terminating proxy (`tls_proxy.cpp`): handshakes under way, established
 * pairs, SSL objects and epoll registrations.
 */
module TlsTables {
  import opened Results
  import opened Bytes
  import opened Descriptors

  type Ssl = nat

  /** The SSL object belongs to the client side of a pair. */
  datatype ConnState = ConnState(peer: Fd, isClient: bool, ssl: Option<Ssl>, writeBuf: seq<byte>)

  /** The events a descriptor is registered for. */
  datatype Interest = Interest(input: bool, output: bool)

  datatype Tables = Tables(pending: map<Fd, Ssl>, connections: map<Fd, ConnState>,
                           armed: map<Fd, Interest>, live: set<Ssl>, open: set<Fd>)

  const EMPTY := Tables(map[], map[], map[], {}, {})

  // ---- consistency ----------------------------------------------------------------------------------------

  predicate Paired(c: map<Fd, ConnState>) {
    forall fd :: fd in c ==>
      var p := c[fd].peer;
      && p != fd && p in c && c[p].peer == fd && c[p].isClient == !c[fd].isClient
      && (c[fd].ssl.Some? <==> c[fd].isClient)
  }

  /** The SSL object that a descriptor is responsible for. */
  function SslOf(t: Tables, fd: Fd): Option<Ssl> {
    if fd in t.pending then Some(t.pending[fd]) else if fd in t.connections then t.connections[fd].ssl else None
  }

  /** Each live SSL object has exactly one descriptor responsible for it. */
  ghost predicate Owned(t: Tables) {
    && (forall fd :: SslOf(t, fd).Some? ==> SslOf(t, fd).value in t.live)
    && (forall a, b :: a != b && SslOf(t, a).Some? ==> SslOf(t, a) != SslOf(t, b))
    && (forall s :: s in t.live ==> exists fd :: SslOf(t, fd) == Some(s))
  }

  /**
   * A descriptor of a pair waits for input, and for output just while it has a backlog. Only a client
   * whose handshake has waited for output may still wait for that alone.
   */
  predicate Watched(t: Tables, fd: Fd)
    requires fd in t.connections
  {
    var c := t.connections[fd];
    && fd in t.armed
    && (t.armed[fd] == Interest(true, c.writeBuf != []) || (t.armed[fd] == Interest(false, true) && c.writeBuf == [] && c.isClient))
  }

  predicate Armed(t: Tables) {
    && t.armed.Keys == t.open
    && (forall fd :: fd in t.connections ==> Watched(t, fd))
    && (forall fd :: fd in t.pending ==> fd in t.armed && t.armed[fd] in {Interest(true, false), Interest(false, true)})
  }

  ghost predicate Consistent(t: Tables) {
    && t.pending.Keys !! t.connections.Keys
    && t.open == t.pending.Keys + t.connections.Keys
    && Paired(t.connections) && Owned(t) && Armed(t)
  }

  // ---- transitions ------------------------------------------------------------------------------------------

  function Accepted(t: Tables, fd: Fd, ssl: Ssl): Tables {
    t.(pending := t.pending[fd := ssl], armed := t.armed[fd := Interest(true, false)],
       live := t.live + {ssl}, open := t.open + {fd})
  }

  function Established(t: Tables, fd: Fd, target: Fd): Tables
    requires fd in t.pending
  {
    t.(pending := t.pending - {fd},
       connections := t.connections[fd := ConnState(target, true, Some(t.pending[fd]), [])]
                                   [target := ConnState(fd, false, None, [])],
       armed := t.armed[target := Interest(true, false)], open := t.open + {target})
  }

  function Rearmed(t: Tables, fd: Fd, i: Interest): Tables { t.(armed := t.armed[fd := i]) }

  function DroppedPending(t: Tables, fd: Fd): Tables
    requires fd in t.pending
  {
    t.(pending := t.pending - {fd}, armed := t.armed - {fd}, live := t.live - {t.pending[fd]}, open := t.open - {fd})
  }

  /** The SSL object of a pair, found from either side. */
  function PairSsl(c: map<Fd, ConnState>, fd: Fd): Option<Ssl>
    requires Paired(c) && fd in c
    ensures PairSsl(c, fd).Some?
  {
    if c[fd].isClient then c[fd].ssl else c[c[fd].peer].ssl
  }

  function Dropped(t: Tables, fd: Fd): Tables
    requires Paired(t.connections) && fd in t.connections
  {
    var gone := {fd, t.connections[fd].peer};
    t.(connections := t.connections - gone, armed := t.armed - gone,
       live := t.live - {PairSsl(t.connections, fd).value}, open := t.open - gone)
  }

  /** The backlog of a descriptor becomes `buf`; it waits to become writable just when there is one. */
  function Backlog(t: Tables, fd: Fd, buf: seq<byte>): Tables
    requires fd in t.connections
  {
    t.(connections := t.connections[fd := t.connections[fd].(writeBuf := buf)],
       armed := t.armed[fd := Interest(true, buf != [])])
  }

  lemma AcceptedIsConsistent(t: Tables, fd: Fd, ssl: Ssl)
    requires Consistent(t) && fd !in t.open && ssl !in t.live
    ensures Consistent(Accepted(t, fd, ssl))
  {
    var u := Accepted(t, fd, ssl);
    assert forall d :: d != fd ==> SslOf(u, d) == SslOf(t, d);
    assert SslOf(u, fd) == Some(ssl);
  }

  lemma EstablishedIsConsistent(t: Tables, fd: Fd, target: Fd)
    requires Consistent(t) && fd in t.pending && target !in t.open
    ensures Consistent(Established(t, fd, target))
  {
    var u := Established(t, fd, target);
    assert forall d :: SslOf(u, d) == SslOf(t, d);
  }

  /**
   * The SSL object stays with the descriptor that shook hands, which becomes the client's side of the
   * new pair; the target's side is a plain socket that waits for input; nothing else changes.
   */
  lemma EstablishedPair(t: Tables, fd: Fd, target: Fd)
    requires Consistent(t) && fd in t.pending && target !in t.open
    ensures var u := Established(t, fd, target);
            && (forall d :: SslOf(u, d) == SslOf(t, d)) && u.live == t.live
            && fd in u.connections && u.connections[fd].isClient && u.connections[fd].ssl.Some? && u.connections[fd].peer == target
            && target in u.connections && !u.connections[target].isClient && u.connections[target].peer == fd
            && target in u.armed && u.armed[target].input && fd in u.armed && u.armed[fd] == t.armed[fd]
            && (forall d :: d in t.connections ==> d in u.connections && u.connections[d] == t.connections[d])
            && u.pending == t.pending - {fd}
  {
  }

  /** A client waits for its input after the handshake if and only if it did so when the handshake ended. */
  lemma ClientIsWatched(t: Tables, fd: Fd, target: Fd)
    requires Consistent(t) && fd in t.pending && target !in t.open
    ensures var u := Established(t, fd, target);
            fd in u.armed && fd in t.armed && (u.armed[fd].input <==> t.armed[fd] == Interest(true, false))
  {
  }

  /** After a handshake that has waited for output, nothing tells the proxy that the client has sent something. */
  lemma ClientMayStall()
    ensures var t := Rearmed(Accepted(EMPTY, 1, 0), 1, Interest(false, true));
            Consistent(t) && 1 in t.pending && 1 in Established(t, 1, 2).armed && !Established(t, 1, 2).armed[1].input
  {
    AcceptedIsConsistent(EMPTY, 1, 0);
    RearmedIsConsistent(Accepted(EMPTY, 1, 0), 1, Interest(false, true));
  }

  lemma DroppedPendingIsConsistent(t: Tables, fd: Fd)
    requires Consistent(t) && fd in t.pending
    ensures t.pending[fd] in t.live && Consistent(DroppedPending(t, fd))
  {
    var u := DroppedPending(t, fd);
    assert SslOf(t, fd) == Some(t.pending[fd]);
    assert forall d :: SslOf(u, d) == if d == fd then None else SslOf(t, d);
  }

  lemma PairSslIsOwned(t: Tables, fd: Fd)
    requires Consistent(t) && fd in t.connections
    ensures PairSsl(t.connections, fd).value in t.live
    ensures t.connections[fd].peer in t.connections && t.connections[fd].peer != fd
    ensures fd in t.open && t.connections[fd].peer in t.open
    ensures forall d :: SslOf(t, d) == PairSsl(t.connections, fd) ==> d == fd || d == t.connections[fd].peer
  {
    var client := if t.connections[fd].isClient then fd else t.connections[fd].peer;
    assert SslOf(t, client) == PairSsl(t.connections, fd);
  }

  lemma DroppedArmed(t: Tables, fd: Fd)
    requires Consistent(t) && fd in t.connections
    ensures Armed(Dropped(t, fd))
  {
    hide Owned;
    var gone := {fd, t.connections[fd].peer};
    assert (t.armed - gone).Keys == t.armed.Keys - gone;
    assert forall d :: d in t.connections ==> Watched(t, d);
    assert t.connections[fd].peer in t.connections;
  }

  lemma DroppedOwned(t: Tables, fd: Fd)
    requires Consistent(t) && fd in t.connections
    ensures Owned(Dropped(t, fd)) && Paired(Dropped(t, fd).connections)
  {
    hide Armed;
    PairSslIsOwned(t, fd);
    var u := Dropped(t, fd);
    assert forall d :: SslOf(u, d) == if d in {fd, t.connections[fd].peer} then None else SslOf(t, d);
  }

  lemma DroppedIsConsistent(t: Tables, fd: Fd)
    requires Consistent(t) && fd in t.connections
    ensures Consistent(Dropped(t, fd))
  {
    PairSslIsOwned(t, fd);
    DroppedArmed(t, fd);
    DroppedOwned(t, fd);
    hide Owned, Armed, Paired;
    var u := Dropped(t, fd);
    assert u.connections.Keys == t.connections.Keys - {fd, t.connections[fd].peer};
  }

  lemma SameOwners(t: Tables, u: Tables)
    requires Owned(t) && u.live == t.live && forall fd :: SslOf(u, fd) == SslOf(t, fd)
    ensures Owned(u)
  {
    hide SslOf;
  }

  lemma BacklogArmed(t: Tables, fd: Fd, buf: seq<byte>)
    requires Armed(t) && fd in t.connections && fd in t.open && fd !in t.pending
    ensures Armed(Backlog(t, fd, buf))
  {
  }

  lemma BacklogPaired(c: map<Fd, ConnState>, fd: Fd, buf: seq<byte>)
    requires Paired(c) && fd in c
    ensures Paired(c[fd := c[fd].(writeBuf := buf)])
  {
  }

  lemma BacklogIsConsistent(t: Tables, fd: Fd, buf: seq<byte>)
    requires Consistent(t) && fd in t.connections
    ensures Consistent(Backlog(t, fd, buf))
  {
    hide Owned, Armed, Paired;
    var u := Backlog(t, fd, buf);
    assert u.connections.Keys == t.connections.Keys;
    BacklogPaired(t.connections, fd, buf);
    BacklogArmed(t, fd, buf);
    SameOwners(t, u);
  }

  lemma RearmedIsConsistent(t: Tables, fd: Fd, i: Interest)
    requires Consistent(t) && fd in t.pending && i in {Interest(true, false), Interest(false, true)}
    ensures Consistent(Rearmed(t, fd, i))
  {
    var u := Rearmed(t, fd, i);
    assert forall d :: SslOf(u, d) == SslOf(t, d);
  }

  // ---- taking everything down -------------------------------------------------------------------------------

  /** The SSL objects that the given descriptors are responsible for. */
  ghost function OwnedBy(t: Tables, fds: set<Fd>): set<Ssl> {
    set fd | fd in fds && SslOf(t, fd).Some? :: SslOf(t, fd).value
  }

  lemma AllIsOwned(t: Tables)
    requires Consistent(t)
    ensures OwnedBy(t, t.open) == t.live
  {
    forall s | s in t.live ensures s in OwnedBy(t, t.open) {
      var fd :| SslOf(t, fd) == Some(s);
      assert fd in t.open;
    }
  }

  /** Releasing one descriptor releases exactly its own object. */
  lemma OwnedByOneLess(t: Tables, fds: set<Fd>, fd: Fd)
    requires Owned(t) && fd in fds
    ensures SslOf(t, fd).Some? ==> SslOf(t, fd).value in OwnedBy(t, fds)
    ensures OwnedBy(t, fds - {fd}) == OwnedBy(t, fds) - if SslOf(t, fd).Some? then {SslOf(t, fd).value} else {}
  {
    hide SslOf;
  }
}
