/** Descriptors of open sockets, as the event-loop proxies use them. */
module Descriptors {
  import opened Bytes

  type Fd = nat

  /** What an open socket will still yield before its end, and what has been written to it. */
  datatype Traffic = Traffic(pending: seq<byte>, delivered: seq<byte>)

  type SocketTable = map<Fd, Traffic>

  /** The kernel can always name a descriptor that is not open. */
  lemma UnusedFd(open: set<Fd>) returns (fd: Fd)
    ensures fd !in open
  {
    fd := 0;
    var rest := open;
    while rest != {}
      invariant rest <= open
      invariant forall k :: k in open && k !in rest ==> k < fd
      decreases |rest|
    {
      var k :| k in rest;
      rest := rest - {k};
      if k >= fd { fd := k + 1; }
    }
  }

  // ---- what forwarding does to the sockets ------------------------------------------------------------------------

  /** The sockets after `moved` has been taken from one of them and its first `done` octets written to the other. */
  function Transferred(s: SocketTable, from: Fd, to: Fd, moved: seq<byte>, done: nat): SocketTable
    requires from in s && to in s && moved <= s[from].pending && done <= |moved|
  {
    s[from := s[from].(pending := s[from].pending[|moved|..])]
     [to := (if to == from then s[from].(pending := s[from].pending[|moved|..]) else s[to])
            .(delivered := s[to].delivered + moved[..done])]
  }

  lemma NothingTransferred(s: SocketTable, from: Fd, to: Fd)
    requires from in s && to in s && from != to
    ensures Transferred(s, from, to, [], 0) == s && s[from].pending[0..] == s[from].pending
  {
    assert s[to].delivered + [] == s[to].delivered;
  }

  lemma TakenIn(s: SocketTable, from: Fd, to: Fd, moved: seq<byte>, done: nat, n: nat)
    requires from in s && to in s && from != to && moved <= s[from].pending && done <= |moved|
    requires n <= |s[from].pending[|moved|..]|
    ensures var t := Transferred(s, from, to, moved, done); var rest := s[from].pending[|moved|..];
            && from in t && t[from].pending == rest
            && moved + rest[..n] <= s[from].pending
            && t[from := t[from].(pending := rest[n..])] == Transferred(s, from, to, moved + rest[..n], done)
            && rest[n..] == s[from].pending[|moved + rest[..n]|..]
  {
    var rest := s[from].pending[|moved|..];
    assert (moved + rest[..n])[..done] == moved[..done];
  }

  lemma Onwards(delivered: seq<byte>, moved: seq<byte>, done: nat, w: nat)
    requires done + w <= |moved|
    ensures delivered + moved[..done] + moved[done..][..w] == delivered + moved[..done + w]
    ensures moved[done..][w..] == moved[done + w..]
  {
  }

  lemma PutOut(s: SocketTable, from: Fd, to: Fd, moved: seq<byte>, done: nat, w: nat)
    requires from in s && to in s && from != to && moved <= s[from].pending && done + w <= |moved|
    ensures var t := Transferred(s, from, to, moved, done);
            && to in t
            && t[to := t[to].(delivered := t[to].delivered + moved[done..][..w])] == Transferred(s, from, to, moved, done + w)
            && moved[done..][w..] == moved[done + w..]
            && Transferred(s, from, to, moved, done + w)[from] == t[from]
  {
    Onwards(s[to].delivered, moved, done, w);
  }

  /** One transfer after another, if all of the first one has been written. */
  lemma TransferredTwice(s: SocketTable, from: Fd, to: Fd, moved: seq<byte>, more: seq<byte>, done: nat)
    requires from in s && to in s && from != to && moved <= s[from].pending
    requires more <= s[from].pending[|moved|..] && done <= |more|
    ensures var t := Transferred(s, from, to, moved, |moved|);
            && from in t && to in t && t[from].pending == s[from].pending[|moved|..]
            && moved + more <= s[from].pending
            && s[from].pending[|moved + more|..] == t[from].pending[|more|..]
            && Transferred(t, from, to, more, done) == Transferred(s, from, to, moved + more, |moved| + done)
  {
    assert moved[..|moved|] == moved;
    Further(s[from].pending, moved, more);
    assert (moved + more)[..|moved| + done] == moved + more[..done];
    var d := s[to].delivered;
    assert d + moved + more[..done] == d + (moved + more[..done]);
  }

  lemma Further(pending: seq<byte>, moved: seq<byte>, more: seq<byte>)
    requires moved <= pending && more <= pending[|moved|..]
    ensures moved + more <= pending && pending[|moved + more|..] == pending[|moved|..][|more|..]
  {
    assert pending == moved + pending[|moved|..];
    assert pending[|moved|..] == more + pending[|moved|..][|more|..];
  }

  lemma TransferredKeys(s: SocketTable, from: Fd, to: Fd, moved: seq<byte>, done: nat)
    requires from in s && to in s && moved <= s[from].pending && done <= |moved|
    ensures Transferred(s, from, to, moved, done).Keys == s.Keys
  {
  }
}
