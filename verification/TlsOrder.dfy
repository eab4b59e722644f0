/**
 * The order of octets in the TLS-terminating proxy. What has been read for a descriptor is written to
 * it directly even when there is a backlog (`tls_proxy.cpp`), so order depends on the backlog being empty.
 */
module TlsOrder {
  import opened Results
  import opened Bytes
  import opened Descriptors
  import opened TlsTables

  /** What has been taken from the peer for a descriptor, and whether every such call found no backlog and lost nothing. */
  datatype History = History(taken: seq<byte>, clean: bool)

  type Histories = map<Fd, History>

  /** What the other end of a descriptor will have got once the backlog is flushed. */
  function Promised(s: SocketTable, c: map<Fd, ConnState>, fd: Fd): seq<byte>
    requires fd in s && fd in c
  {
    s[fd].delivered + c[fd].writeBuf
  }

  /**
   * While no call has found a backlog, everything that was taken has been written or is queued, in
   * order; and nothing is written before a handshake is complete.
   */
  ghost predicate Ordered(t: Tables, s: SocketTable, h: Histories) {
    && (forall fd :: fd in t.connections ==> Kept(t.connections, s, h, fd))
    && (forall fd :: fd in t.pending ==> fd in s && s[fd].delivered == [])
  }

  predicate Kept(c: map<Fd, ConnState>, s: SocketTable, h: Histories, fd: Fd)
    requires fd in c
  {
    fd in s && fd in h && (h[fd].clean ==> h[fd].taken == Promised(s, c, fd))
  }

  /** The tables after a call that has written part of what it has taken and queued the rest. */
  function Forwarded(t: Tables, to: Fd, taken: seq<byte>, written: nat): Tables
    requires to in t.connections && written <= |taken|
  {
    if written == |taken| then t else Backlog(t, to, t.connections[to].writeBuf + taken[written..])
  }

  function Noted(h: Histories, to: Fd, taken: seq<byte>, clean: bool): Histories
    requires to in h
  {
    h[to := History(h[to].taken + taken, h[to].clean && clean)]
  }

  // ---- one call ------------------------------------------------------------------------------------------------

  predicate InOrder(delivered: seq<byte>, backlog: seq<byte>, taken: seq<byte>, written: nat)
    requires written <= |taken|
  {
    delivered + taken[..written] + (backlog + taken[written..]) == delivered + backlog + taken
  }

  lemma EmptyBacklogIsInOrder(delivered: seq<byte>, taken: seq<byte>, written: nat)
    requires written <= |taken|
    ensures InOrder(delivered, [], taken, written)
  {
    assert taken[..written] + taken[written..] == taken;
    assert [] + taken[written..] == taken[written..] && delivered + [] == delivered;
    assert delivered + taken[..written] + taken[written..] == delivered + (taken[..written] + taken[written..]);
  }

  /** With any backlog, one octet that differs from its first and is written at once comes out of order. */
  lemma BacklogIsOvertaken(delivered: seq<byte>, backlog: seq<byte>, octet: byte)
    requires backlog != [] && octet != backlog[0]
    ensures !InOrder(delivered, backlog, [octet], 1)
  {
    var got := delivered + [octet][..1] + (backlog + [octet][1..]);
    assert got[|delivered|] == octet;
    assert (delivered + backlog + [octet])[|delivered|] == backlog[0];
  }

  /** Whatever is taken and however much of it is written at once, order is kept, if and only if there is no backlog. */
  lemma OrderNeedsEmptyBacklog(delivered: seq<byte>, backlog: seq<byte>)
    ensures (forall taken: seq<byte>, written: nat | written <= |taken| :: InOrder(delivered, backlog, taken, written))
            <==> backlog == []
  {
    hide InOrder;
    if backlog == [] {
      forall taken: seq<byte>, written: nat | written <= |taken| ensures InOrder(delivered, backlog, taken, written) {
        EmptyBacklogIsInOrder(delivered, taken, written);
      }
    } else {
      var octet: byte := if backlog[0] == 0 then 1 else 0;
      BacklogIsOvertaken(delivered, backlog, octet);
    }
  }

  /** What the target will have got after a call that found no backlog. */
  lemma ForwardedInOrder(t: Tables, s: SocketTable, from: Fd, to: Fd, taken: seq<byte>, written: nat)
    requires from in s && to in s && from != to && to in t.connections
    requires taken <= s[from].pending && written <= |taken|
    ensures var d, b := s[to].delivered, t.connections[to].writeBuf;
            Promised(Transferred(s, from, to, taken, written), Forwarded(t, to, taken, written).connections, to) ==
              Promised(s, t.connections, to) + taken
            <==> InOrder(d, b, taken, written)
  {
    assert taken[|taken|..] == [];
    var b := t.connections[to].writeBuf;
    assert b + [] == b;
  }

  // ---- every step of the proxy -------------------------------------------------------------------------------------

  lemma ForwardKeepsOrder(t: Tables, s: SocketTable, h: Histories, from: Fd, to: Fd, taken: seq<byte>, written: nat)
    requires Ordered(t, s, h) && t.pending.Keys !! t.connections.Keys
    requires from in t.connections && to in t.connections && from != to
    requires taken <= s[from].pending && written <= |taken|
    ensures Ordered(Forwarded(t, to, taken, written), Transferred(s, from, to, taken, written),
                    Noted(h, to, taken, t.connections[to].writeBuf == []))
    ensures t.connections[to].writeBuf == [] ==>
              Promised(Transferred(s, from, to, taken, written), Forwarded(t, to, taken, written).connections, to) ==
              Promised(s, t.connections, to) + taken
  {
    var u, s1 := Forwarded(t, to, taken, written), Transferred(s, from, to, taken, written);
    var h1 := Noted(h, to, taken, t.connections[to].writeBuf == []);
    ForwardedInOrder(t, s, from, to, taken, written);
    if t.connections[to].writeBuf == [] { EmptyBacklogIsInOrder(s[to].delivered, taken, written); }
    assert Kept(t.connections, s, h, to);
    OthersKept(t, u, s, s1, h, h1, to);
  }

  /** What is neither written to nor noted is kept. */
  lemma OthersKept(t: Tables, u: Tables, s: SocketTable, s1: SocketTable, h: Histories, h1: Histories, to: Fd)
    requires Ordered(t, s, h) && to in u.connections && Kept(u.connections, s1, h1, to) && to !in u.pending
    requires u.pending.Keys <= t.pending.Keys && u.connections.Keys <= t.connections.Keys
    requires forall fd :: fd in u.connections && fd != to && fd in s ==>
               fd in s1 && s1[fd].delivered == s[fd].delivered && u.connections[fd].writeBuf == t.connections[fd].writeBuf
    requires forall fd :: fd in u.pending && fd != to && fd in s ==> fd in s1 && s1[fd].delivered == s[fd].delivered
    requires forall fd :: fd in h && fd != to ==> fd in h1 && h1[fd] == h[fd]
    ensures Ordered(u, s1, h1)
  {
    forall fd | fd in u.connections ensures Kept(u.connections, s1, h1, fd) {
      if fd != to { assert Kept(t.connections, s, h, fd); }
    }
  }

  /** A record that is lost is noted. */
  lemma LossKeepsOrder(t: Tables, s: SocketTable, h: Histories, from: Fd, to: Fd, taken: seq<byte>, written: nat)
    requires Ordered(t, s, h) && t.pending.Keys !! t.connections.Keys
    requires from in t.connections && to in t.connections && from != to
    requires taken <= s[from].pending && written <= |taken|
    ensures Ordered(t, Transferred(s, from, to, taken, written), Noted(h, to, taken, false))
  {
    assert Kept(t.connections, s, h, to);
    OthersKept(t, t, s, Transferred(s, from, to, taken, written), h, Noted(h, to, taken, false), to);
  }

  lemma FlushKeepsOrder(t: Tables, s: SocketTable, h: Histories, fd: Fd, sent: seq<byte>)
    requires Ordered(t, s, h) && fd in t.connections && t.pending.Keys !! t.connections.Keys
    requires sent <= t.connections[fd].writeBuf
    ensures var u := Backlog(t, fd, t.connections[fd].writeBuf[|sent|..]);
            var s1 := s[fd := s[fd].(delivered := s[fd].delivered + sent)];
            Promised(s1, u.connections, fd) == Promised(s, t.connections, fd) && Ordered(u, s1, h)
  {
    var d, b := s[fd].delivered, t.connections[fd].writeBuf;
    var u, s1 := Backlog(t, fd, b[|sent|..]), s[fd := s[fd].(delivered := d + sent)];
    assert sent + b[|sent|..] == b;
    assert d + sent + b[|sent|..] == d + (sent + b[|sent|..]);
    assert Kept(t.connections, s, h, fd);
    OthersKept(t, u, s, s1, h, h, fd);
  }

  /** Closing a pair, whatever has been transferred between its two sockets just before. */
  lemma DropKeepsOrder(t: Tables, s: SocketTable, s1: SocketTable, h: Histories, fd: Fd)
    requires Consistent(t) && Ordered(t, s, h) && fd in t.connections
    requires forall k :: k in s && k != fd && k != t.connections[fd].peer ==> k in s1 && s1[k] == s[k]
    ensures Ordered(Dropped(t, fd), s1 - {fd, t.connections[fd].peer}, h)
  {
    hide Owned, Armed;
    var u, s2 := Dropped(t, fd), s1 - {fd, t.connections[fd].peer};
    forall k | k in u.connections ensures Kept(u.connections, s2, h, k) {
      assert Kept(t.connections, s, h, k);
    }
  }

  lemma AcceptKeepsOrder(t: Tables, s: SocketTable, h: Histories, fd: Fd, ssl: Ssl, arriving: seq<byte>)
    requires Ordered(t, s, h) && fd !in s
    ensures Ordered(Accepted(t, fd, ssl), s[fd := Traffic(arriving, [])], h)
  {
    var u, s1 := Accepted(t, fd, ssl), s[fd := Traffic(arriving, [])];
    forall k | k in u.connections ensures Kept(u.connections, s1, h, k) { assert Kept(t.connections, s, h, k); }
  }

  lemma RearmKeepsOrder(t: Tables, s: SocketTable, h: Histories, fd: Fd, i: Interest)
    requires Ordered(t, s, h)
    ensures Ordered(Rearmed(t, fd, i), s, h)
  {
    forall k | k in t.connections ensures Kept(Rearmed(t, fd, i).connections, s, h, k) {
      assert Kept(t.connections, s, h, k);
    }
  }

  lemma DropPendingKeepsOrder(t: Tables, s: SocketTable, h: Histories, fd: Fd)
    requires Consistent(t) && Ordered(t, s, h) && fd in t.pending
    ensures Ordered(DroppedPending(t, fd), s - {fd}, h)
  {
    var u, s1 := DroppedPending(t, fd), s - {fd};
    forall k | k in u.connections ensures Kept(u.connections, s1, h, k) { assert Kept(t.connections, s, h, k); }
  }

  /** A new pair has nothing behind it. */
  lemma EstablishKeepsOrder(t: Tables, s: SocketTable, h: Histories, fd: Fd, target: Fd, arriving: seq<byte>)
    requires Ordered(t, s, h) && fd in t.pending && target !in t.pending
    ensures Ordered(Established(t, fd, target), s[target := Traffic(arriving, [])],
                    h[fd := History([], true)][target := History([], true)])
  {
    var u, s1 := Established(t, fd, target), s[target := Traffic(arriving, [])];
    forall k | k in u.connections && k != fd && k != target
      ensures Kept(u.connections, s1, h[fd := History([], true)][target := History([], true)], k)
    {
      assert Kept(t.connections, s, h, k);
    }
  }

  // ---- order is lost ---------------------------------------------------------------------------------------------

  const CLIENT: Fd := 1
  const TARGET: Fd := 2

  /** A client whose handshake is complete, and which sends two octets. */
  function Pair(): Tables { Established(Accepted(EMPTY, CLIENT, 0), CLIENT, TARGET) }

  function Sockets(): SocketTable { map[CLIENT := Traffic([65, 66], []), TARGET := Traffic([], [])] }

  lemma PairIsConsistent()
    ensures Consistent(Pair()) && CLIENT in Pair().connections && TARGET in Pair().connections
    ensures Pair().connections[TARGET] == ConnState(CLIENT, false, None, [])
  {
    AcceptedIsConsistent(EMPTY, CLIENT, 0);
    EstablishedIsConsistent(Accepted(EMPTY, CLIENT, 0), CLIENT, TARGET);
  }

  /**
   * The target does not take the first octet, takes the second as soon as that is read, and gets the
   * first when the backlog is flushed.
   */
  lemma OctetsOvertake()
    ensures Consistent(Pair()) && CLIENT in Pair().connections && TARGET in Pair().connections
    ensures var t1, s1 := Forwarded(Pair(), TARGET, [65], 0), Transferred(Sockets(), CLIENT, TARGET, [65], 0);
            var t2, s2 := Forwarded(t1, TARGET, [66], 1), Transferred(s1, CLIENT, TARGET, [66], 1);
            var b := t2.connections[TARGET].writeBuf;
            b == [65] && s2[TARGET].delivered == [66] && s2[TARGET].delivered + b == [66, 65]
  {
    PairIsConsistent();
    hide Pair, Consistent;
    assert [] + [65] == [65];
  }
}
