/**
 * The UDP proxy (`udp_proxy.cpp`): one target socket for each client address, found from either
 * side, and closed after a while without traffic.
 */
module UdpProxy {
  import opened Results
  import opened Bytes
  import opened Decimal
  import opened Addresses
  import opened Descriptors

  // ---- keys -----------------------------------------------------------------------------------------------

  datatype SockAddr = SockAddr(ip: Ipv4, port: nat)

  /** `addr_to_key` */
  function Key(a: SockAddr): string { Text(a.ip) + (":" + Digits(a.port)) }

  /** Different client addresses have different keys. */
  lemma KeyIsInjective(a: SockAddr, b: SockAddr)
    requires Key(a) == Key(b)
    ensures a == b
  {
    TextInjective(a.ip, b.ip, ":" + Digits(a.port), ":" + Digits(b.port));
    assert (":" + Digits(a.port))[1..] == Digits(a.port) && (":" + Digits(b.port))[1..] == Digits(b.port);
    DigitsInjective(a.port, b.port);
  }

  // ---- tables ---------------------------------------------------------------------------------------------

  datatype Session = Session(target: Fd, client: SockAddr, lastActivity: nat)

  /** The two lookup tables, the open target sockets, and for each of them the address it was made for. */
  datatype Tables = Tables(byClient: map<string, Session>, byTarget: map<Fd, string>, madeFor: map<Fd, SockAddr>)

  const EMPTY := Tables(map[], map[], map[])

  /** Each table inverts the other, and a socket serves the address it was made for. */
  predicate Inverse(t: Tables) {
    && (forall k :: k in t.byClient ==>
          var s := t.byClient[k];
          k == Key(s.client) && s.target in t.byTarget && t.byTarget[s.target] == k)
    && (forall fd :: fd in t.byTarget ==>
          var k := t.byTarget[fd];
          k in t.byClient && t.byClient[k].target == fd && fd in t.madeFor && t.madeFor[fd] == t.byClient[k].client)
    && t.madeFor.Keys == t.byTarget.Keys
  }

  function Created(t: Tables, fd: Fd, a: SockAddr, now: nat): Tables {
    Tables(t.byClient[Key(a) := Session(fd, a, now)], t.byTarget[fd := Key(a)], t.madeFor[fd := a])
  }

  function Closed(t: Tables, fd: Fd): Tables {
    if fd in t.byTarget then Tables(t.byClient - {t.byTarget[fd]}, t.byTarget - {fd}, t.madeFor - {fd}) else t
  }

  function Touched(t: Tables, key: string, now: nat): Tables
    requires key in t.byClient
  {
    t.(byClient := t.byClient[key := t.byClient[key].(lastActivity := now)])
  }

  lemma CreatedIsInverse(t: Tables, fd: Fd, a: SockAddr, now: nat)
    requires Inverse(t) && fd !in t.byTarget && Key(a) !in t.byClient
    ensures Inverse(Created(t, fd, a, now))
  {
    hide Key;
    var u := Created(t, fd, a, now);
    assert u.byTarget.Keys == t.byTarget.Keys + {fd} && u.madeFor.Keys == t.madeFor.Keys + {fd};
  }

  lemma ClosedIsInverse(t: Tables, fd: Fd)
    requires Inverse(t)
    ensures Inverse(Closed(t, fd))
  {
    hide Key;
  }

  lemma TouchedIsInverse(t: Tables, key: string, now: nat)
    requires Inverse(t) && key in t.byClient
    ensures Inverse(Touched(t, key, now))
  {
    hide Key;
  }

  /** A client address has exactly one socket, and a socket exactly one client address. */
  lemma OneSocketPerClient(t: Tables, p: Fd, q: Fd)
    requires Inverse(t) && p in t.byTarget && q in t.byTarget
    ensures t.madeFor[p] == t.madeFor[q] <==> p == q
    ensures t.byTarget[p] == Key(t.madeFor[p])
  {
  }

  /** The session of an address is found under its key, and it is that address's own. */
  lemma LookupFindsOwnSession(t: Tables, a: SockAddr)
    requires Inverse(t) && Key(a) in t.byClient
    ensures t.byClient[Key(a)].client == a && t.byClient[Key(a)].target in t.madeFor
    ensures t.madeFor[t.byClient[Key(a)].target] == a
  {
    KeyIsInjective(a, t.byClient[Key(a)].client);
  }

  // ---- idle times -------------------------------------------------------------------------------------------

  /** No session's last activity is older than the last sweep allows. */
  predicate Fresh(t: Tables, lastCleanup: nat, timeout: nat) {
    forall k :: k in t.byClient ==>
      t.byClient[k].lastActivity >= lastCleanup || t.byClient[k].lastActivity + timeout > lastCleanup
  }

  lemma CreatedIsFresh(t: Tables, fd: Fd, a: SockAddr, now: nat, lastCleanup: nat, timeout: nat)
    requires Fresh(t, lastCleanup, timeout) && lastCleanup <= now
    ensures Fresh(Created(t, fd, a, now), lastCleanup, timeout)
  {
    hide Key;
  }

  lemma ClosedIsFresh(t: Tables, fd: Fd, lastCleanup: nat, timeout: nat)
    requires Fresh(t, lastCleanup, timeout)
    ensures Fresh(Closed(t, fd), lastCleanup, timeout)
  {
  }

  lemma TouchedIsFresh(t: Tables, key: string, now: nat, lastCleanup: nat, timeout: nat)
    requires Fresh(t, lastCleanup, timeout) && lastCleanup <= now && key in t.byClient
    ensures Fresh(Touched(t, key, now), lastCleanup, timeout)
  {
  }

  /** What a sweep leaves. */
  ghost predicate IsSwept(t: Tables, t': Tables, now: nat, timeout: nat) {
    && (forall k :: k in t'.byClient <==> k in t.byClient && now - t.byClient[k].lastActivity < timeout)
    && (forall k :: k in t'.byClient ==> t'.byClient[k] == t.byClient[k])
    && (forall fd :: fd in t'.byTarget ==> fd in t.byTarget)
  }

  predicate Idle(t: Tables, now: nat, bound: nat) {
    forall k :: k in t.byClient ==> now - t.byClient[k].lastActivity < bound
  }

  /** When it is not yet time for a sweep, the last one still bounds all idle times. */
  lemma FreshIsNotIdle(t: Tables, lastCleanup: nat, now: nat, timeout: nat, interval: nat)
    requires Fresh(t, lastCleanup, timeout) && now - lastCleanup < interval
    ensures Idle(t, now, timeout + interval)
  {
  }

  lemma SweptIsFresh(t: Tables, t': Tables, sweep: nat, check: nat, timeout: nat, interval: nat)
    requires IsSwept(t, t', sweep, timeout) && check <= sweep
    ensures Fresh(t', check, timeout) && Idle(t', check, timeout + interval)
  {
  }

  // ---- the proxy --------------------------------------------------------------------------------------------

  /** What becomes of a datagram from a client: a `send` on a socket, which may fail, or no session for it. */
  datatype Upstream = Sent(socket: Fd, client: SockAddr, data: seq<byte>, ok: bool) | NoSession(client: SockAddr, data: seq<byte>)

  /** A `sendto` to a client: to whom, and from which socket the datagram came. */
  datatype Downstream = Downstream(client: SockAddr, socket: Fd, data: seq<byte>, ok: bool)

  datatype Datagram = Datagram(client: SockAddr, data: seq<byte>)

  /** What `recvfrom` will yield on the listening socket, or `recv` on a target socket, which may then break. */
  datatype Event = FromClients(arrived: seq<Datagram>) | FromTarget(socket: Fd, replies: seq<seq<byte>>, fails: bool)

  /** The tables, every `send` and `sendto` so far, how often the system has refused a socket, and the time. */
  datatype World = World(tables: Tables, up: seq<Upstream>, down: seq<Downstream>, refused: nat, clock: nat)

  // ---- what an event does -------------------------------------------------------------------------------------

  /** Both loops stop at a datagram of length zero. */
  function UntilEmpty(data: seq<seq<byte>>): (n: nat)
    ensures n <= |data| && (forall i :: 0 <= i < n ==> data[i] != []) && (n < |data| ==> data[n] == [])
  {
    if data == [] || data[0] == [] then 0 else 1 + UntilEmpty(data[1..])
  }

  /** So every datagram that has arrived is dealt with if and only if none of them is empty. */
  lemma {:induction false} AllAreServed(data: seq<seq<byte>>)
    ensures UntilEmpty(data) == |data| <==> [] !in data
  {
    if data != [] && data[0] != [] {
      AllAreServed(data[1..]);
      assert data == [data[0]] + data[1..];
    }
  }

  function Payloads(arrived: seq<Datagram>): (s: seq<seq<byte>>)
    ensures |s| == |arrived| && forall i :: 0 <= i < |s| ==> s[i] == arrived[i].data
  {
    seq(|arrived|, i requires 0 <= i < |arrived| => arrived[i].data)
  }

  /** The record of one datagram: it went out on the socket that was made for its sender, or there is no session. */
  ghost predicate Recorded(a: Tables, b: Tables, r: Upstream, d: Datagram) {
    && r.client == d.client && r.data == d.data
    && (r.NoSession? ==> Key(d.client) !in a.byClient)
    && (r.Sent? ==> Key(d.client) in b.byClient && b.byClient[Key(d.client)].target == r.socket
                    && r.socket in b.madeFor && b.madeFor[r.socket] == d.client)
  }

  /** Every session is still there; one is renewed only by a datagram that went out. */
  ghost predicate Kept(a: Tables, b: Tables, records: seq<Upstream>) {
    && (forall k :: k in a.byClient ==> k in b.byClient && b.byClient[k].(lastActivity := 0) == a.byClient[k].(lastActivity := 0))
    && (forall k :: k in a.byClient && (forall r :: r in records && r.Sent? && r.ok ==> Key(r.client) != k) ==>
          b.byClient[k] == a.byClient[k])
    && (forall fd :: fd in a.madeFor ==> fd in b.madeFor && b.madeFor[fd] == a.madeFor[fd])
  }

  /** A datagram that went out has renewed its session. */
  ghost predicate Renewed(t: Tables, records: seq<Upstream>, since: nat) {
    forall r :: r in records && r.Sent? && r.ok ==> Key(r.client) in t.byClient && t.byClient[Key(r.client)].lastActivity >= since
  }

  function Refusals(records: seq<Upstream>): nat {
    if records == [] then 0
    else Refusals(records[..|records| - 1]) + if records[|records| - 1].NoSession? then 1 else 0
  }

  lemma OneMore(records: seq<Upstream>, r: Upstream)
    ensures Refusals(records + [r]) == Refusals(records) + if r.NoSession? then 1 else 0
  {
    assert (records + [r])[..|records|] == records;
  }

  /**
   * Of the datagrams from clients each one before the first empty one is sent on once, in order, or has
   * no session because the system has refused a socket for it.
   */
  ghost predicate ClientsServed(a: World, b: World, arrived: seq<Datagram>) {
    && b.down == a.down && a.up <= b.up
    && var records := b.up[|a.up|..];
       && |records| == UntilEmpty(Payloads(arrived)) && b.refused - a.refused == Refusals(records)
       && (forall i :: 0 <= i < |records| ==> Recorded(a.tables, b.tables, records[i], arrived[i]))
       && Kept(a.tables, b.tables, records) && Renewed(b.tables, records, a.clock)
  }

  /** The session stays, and is renewed exactly by a reply that went out. */
  predicate Answered(a: World, b: World, k: string, sent: seq<Downstream>)
    requires k in a.tables.byClient
  {
    && k in b.tables.byClient && b.tables.byClient[k].(lastActivity := 0) == a.tables.byClient[k].(lastActivity := 0)
    && ((exists r :: r in sent && r.ok) ==> b.tables.byClient[k].lastActivity >= a.clock)
    && ((forall r :: r in sent ==> !r.ok) ==> b.tables.byClient[k] == a.tables.byClient[k])
  }

  predicate Carry(sent: seq<Downstream>, client: SockAddr, socket: Fd, replies: seq<seq<byte>>) {
    |sent| <= |replies|
    && forall i :: 0 <= i < |sent| ==> sent[i].client == client && sent[i].socket == socket && sent[i].data == replies[i]
  }

  /**
   * Of the replies each one before the first empty one is sent once, in order, to the address that the
   * socket was made for; an empty one or an error closes the session.
   */
  ghost predicate TargetServed(a: World, b: World, socket: Fd, replies: seq<seq<byte>>, fails: bool) {
    if socket !in a.tables.byTarget then b == a
    else
      && b.up == a.up && b.refused == a.refused && a.down <= b.down
      && socket in a.tables.madeFor && a.tables.byTarget[socket] in a.tables.byClient
      && (var sent := b.down[|a.down|..];
          && |sent| == UntilEmpty(replies) && Carry(sent, a.tables.madeFor[socket], socket, replies)
          && var closed := |sent| < |replies| || fails;
             && b.tables.byTarget == (if closed then a.tables.byTarget - {socket} else a.tables.byTarget)
             && (!closed ==> Answered(a, b, a.tables.byTarget[socket], sent)))
      && (forall k :: k in a.tables.byClient && k != a.tables.byTarget[socket] ==>
            k in b.tables.byClient && b.tables.byClient[k] == a.tables.byClient[k])
  }

  ghost predicate Handles(a: World, b: World, e: Event) {
    match e
    case FromClients(arrived) => ClientsServed(a, b, arrived)
    case FromTarget(socket, replies, fails) => TargetServed(a, b, socket, replies, fails)
  }

  // ---- the proxy's methods --------------------------------------------------------------------------------------

  class UdpProxy {
    const timeout: nat
    const interval: nat
    var byClient: map<string, Session>
    var byTarget: map<Fd, string>
    ghost var madeFor: map<Fd, SockAddr>
    var lastCleanup: nat
    var clock: nat                // the monotonic clock
    var up: seq<Upstream>
    var down: seq<Downstream>
    ghost var refused: nat

    ghost function Contents(): Tables
      reads this
    {
      Tables(byClient, byTarget, madeFor)
    }

    ghost function Whole(): World
      reads this
    {
      World(Contents(), up, down, refused, clock)
    }

    ghost predicate Valid()
      reads this
    {
      Inverse(Contents()) && Fresh(Contents(), lastCleanup, timeout) && lastCleanup <= clock
    }

    constructor (timeout: nat, interval: nat, now: nat)
      ensures Valid() && Contents() == EMPTY && up == [] && down == [] && refused == 0
      ensures this.timeout == timeout && this.interval == interval
    {
      this.timeout, this.interval := timeout, interval;
      byClient, byTarget, madeFor, lastCleanup, clock, up, down, refused := map[], map[], map[], now, now, [], [], 0;
    }

    method Now() returns (now: nat)
      modifies this`clock
      ensures old(clock) <= now == clock
    {
      var ticks: nat :| true;
      clock := clock + ticks;
      now := clock;
    }

    /** `socket`, `connect`, `fcntl` and `epoll_ctl`; the system may refuse any of them, and the socket is closed then. */
    method OpenSocket() returns (fd: Option<Fd>)
      modifies this`refused
      ensures refused == old(refused) + if fd.None? then 1 else 0
      ensures fd.Some? ==> fd.value !in byTarget
    {
      ghost var f := UnusedFd(byTarget.Keys);
      var unused: Fd :| unused !in byTarget;
      fd := Some(unused);
      if * {
        fd := None;
        refused := refused + 1;
      }
    }

    /** The session of a client; a new one needs a socket, which the system may refuse. */
    method GetOrCreateSession(client: SockAddr) returns (key: Option<string>)
      requires Valid()
      modifies this`byClient, this`byTarget, this`madeFor, this`refused, this`clock
      ensures Valid() && refused == old(refused) + if key.None? then 1 else 0
      ensures key.Some? ==> key.value == Key(client) && Key(client) in byClient && byClient[Key(client)].client == client
      ensures Key(client) in old(byClient) ==> key.Some? && Contents() == old(Contents())
      ensures key.None? ==> Contents() == old(Contents())
      ensures old(clock) <= clock
      ensures key.Some? && Key(client) !in old(byClient) ==>
                var fd := byClient[Key(client)].target;
                fd !in old(byTarget) && Contents() == Created(old(Contents()), fd, client, clock)
      ensures forall k :: k in old(byClient) ==> k in byClient && byClient[k] == old(byClient)[k]
      ensures forall fd :: fd in old(byTarget) ==> fd in byTarget && fd in madeFor && madeFor[fd] == old(madeFor)[fd]
    {
      hide Key, Inverse, Fresh;
      SocketsAreTabled(Contents());
      var k := Key(client);
      if k in byClient {
        LookupFindsOwnSession(Contents(), client);
        return Some(k);
      }
      var socket := OpenSocket();
      if socket.None? { return None; }
      var fd := socket.value;
      var now := Now();
      CreatedIsInverse(Contents(), fd, client, now);
      CreatedIsFresh(Contents(), fd, client, now, lastCleanup, timeout);
      byClient := byClient[k := Session(fd, client, now)];
      byTarget := byTarget[fd := k];
      madeFor := madeFor[fd := client];
      return Some(k);
    }

    /** `send` on a target socket. */
    method Send(socket: Fd, client: SockAddr, data: seq<byte>) returns (ok: bool)
      modifies this`up
      ensures up == old(up) + [Sent(socket, client, data, ok)]
    {
      ok :| true;
      up := up + [Sent(socket, client, data, ok)];
    }

    /** `sendto` on the listening socket. */
    method SendTo(client: SockAddr, socket: Fd, data: seq<byte>) returns (ok: bool)
      modifies this`down
      ensures down == old(down) + [Downstream(client, socket, data, ok)]
    {
      ok :| true;
      down := down + [Downstream(client, socket, data, ok)];
    }

    /** One datagram from a client. */
    method Forward(d: Datagram)
      requires Valid()
      modifies this
      ensures Valid() && lastCleanup == old(lastCleanup) && down == old(down) && old(clock) <= clock
      ensures |up| == |old(up)| + 1 && up == old(up) + [up[|old(up)|]]
      ensures var r := up[|old(up)|];
              && r.client == d.client && Recorded(old(Contents()), Contents(), r, d) && Kept(old(Contents()), Contents(), [r])
              && (r.NoSession? ==> Contents() == old(Contents())) && refused == old(refused) + (if r.NoSession? then 1 else 0)
              && (r.Sent? && r.ok ==> Key(d.client) in byClient && byClient[Key(d.client)].lastActivity == clock)
    {
      hide Key, Inverse, Fresh, Recorded, Kept;
      SocketsAreTabled(Contents());
      NothingKeptBy(Contents(), NoSession(d.client, d.data), d);
      var key := GetOrCreateSession(d.client);
      if key.None? {
        up := up + [NoSession(d.client, d.data)];
        return;
      }
      var k := key.value;
      LookupFindsOwnSession(Contents(), d.client);
      ghost var b := Contents();
      var ok := Send(byClient[k].target, d.client, d.data);
      ghost var r := up[|old(up)|];
      ForwardKept(old(Contents()), b, r, d, clock);
      if ok {
        var now := Now();
        ForwardKept(old(Contents()), b, r, d, now);
        TouchedIsInverse(Contents(), k, now);
        TouchedIsFresh(Contents(), k, now, lastCleanup, timeout);
        byClient := byClient[k := byClient[k].(lastActivity := now)];
      }
    }

    /** The loop over `recvfrom`. */
    method HandleClientData(arrived: seq<Datagram>)
      requires Valid()
      modifies this
      ensures Valid() && lastCleanup == old(lastCleanup) && old(clock) <= clock
      ensures ClientsServed(old(Whole()), Whole(), arrived)
    {
      hide Inverse, Fresh, Recorded, Kept, Renewed;
      ghost var a := Whole();
      ghost var records: seq<Upstream> := [];
      NothingKept(a.tables, a.clock);
      assert a.up + [] == a.up;
      var i := 0;
      while i < |arrived|
        invariant Valid() && lastCleanup == old(lastCleanup) && down == old(down) && old(clock) <= clock
        invariant 0 <= i <= UntilEmpty(Payloads(arrived)) && |records| == i && up == a.up + records
        invariant forall j :: 0 <= j < i ==> Recorded(a.tables, Contents(), records[j], arrived[j])
        invariant Kept(a.tables, Contents(), records) && Renewed(Contents(), records, a.clock)
        invariant refused == a.refused + Refusals(records)
      {
        if arrived[i].data == [] { break; }
        ghost var b, before := Contents(), up;
        Forward(arrived[i]);
        ghost var r := up[|before|];
        forall j | 0 <= j <= i ensures Recorded(a.tables, Contents(), (records + [r])[j], arrived[j]) {
          StillRecorded(a.tables, b, Contents(), r, (records + [r])[j], arrived[j], records);
        }
        KeptOn(a.tables, b, Contents(), records, r);
        RenewedOn(b, Contents(), records, r, a.clock);
        OneMore(records, r);
        assert a.up + records + [r] == a.up + (records + [r]);
        records := records + [r];
        i := i + 1;
      }
      assert up[|a.up|..] == records;
    }

    method CloseSession(socket: Fd)
      requires Valid()
      modifies this`byClient, this`byTarget, this`madeFor
      ensures Valid() && Contents() == Closed(old(Contents()), socket)
    {
      hide Key, Inverse, Fresh;
      if socket !in byTarget { return; }
      ClosedIsInverse(Contents(), socket);
      ClosedIsFresh(Contents(), socket, lastCleanup, timeout);
      var k := byTarget[socket];
      byClient := byClient - {k};
      byTarget := byTarget - {socket};
      madeFor := madeFor - {socket};
    }

    /** One reply. */
    method Reply(k: string, socket: Fd, data: seq<byte>)
      requires Valid() && k in byClient
      modifies this`byClient, this`clock, this`down
      ensures Valid() && k in byClient && byClient[k].client == old(byClient)[k].client && old(clock) <= clock
      ensures |down| == |old(down)| + 1 && down == old(down) + [down[|old(down)|]]
      ensures var r := down[|old(down)|];
              && r.client == old(byClient)[k].client && r.socket == socket && r.data == data
              && Contents() == if r.ok then Touched(old(Contents()), k, clock) else old(Contents())
    {
      hide Key, Inverse, Fresh;
      var ok := SendTo(byClient[k].client, socket, data);
      if ok {
        var now := Now();
        TouchedIsInverse(Contents(), k, now);
        TouchedIsFresh(Contents(), k, now, lastCleanup, timeout);
        byClient := byClient[k := byClient[k].(lastActivity := now)];
      }
    }

    /** The loop over `recv` on a target socket. */
    method HandleTargetData(socket: Fd, replies: seq<seq<byte>>, fails: bool)
      requires Valid()
      modifies this
      ensures Valid() && lastCleanup == old(lastCleanup) && old(clock) <= clock
      ensures TargetServed(old(Whole()), Whole(), socket, replies, fails)
    {
      hide Key, Inverse, Fresh, Answered, Carry;
      if socket !in byTarget {
        CloseSession(socket);
        return;
      }
      SocketServesClient(Contents(), socket);
      // The program also provides for a key without a session, which cannot occur.
      var k := byTarget[socket];
      ghost var client, a := byClient[k].client, Whole();
      ghost var sent: seq<Downstream> := [];
      assert a.down + [] == a.down;
      NothingSent(a, k, client, socket, replies);
      var i := 0;
      while i < |replies| && replies[i] != []
        invariant Valid() && lastCleanup == old(lastCleanup) && up == old(up) && old(clock) <= clock
        invariant refused == old(refused) && 0 <= i <= UntilEmpty(replies) && |sent| == i && down == a.down + sent
        invariant byTarget == old(byTarget) && madeFor == old(madeFor) && k in byClient && byClient[k].client == client
        invariant Carry(sent, client, socket, replies) && Answered(a, Whole(), k, sent)
        invariant forall q :: q in a.tables.byClient && q != k ==> q in byClient && byClient[q] == a.tables.byClient[q]
      {
        ghost var before, w := down, Whole();
        Reply(k, socket, replies[i]);
        AnsweredOn(a, w, Whole(), k, sent, down[|before|]);
        CarryOn(sent, down[|before|], client, socket, replies);
        assert a.down + sent + [down[|before|]] == a.down + (sent + [down[|before|]]);
        sent := sent + [down[|before|]];
        i := i + 1;
      }
      assert i == UntilEmpty(replies);
      if i < |replies| || fails { CloseSession(socket); }
      assert down[|a.down|..] == sent;
    }

    /** The sessions that have been idle for the whole timeout are closed, no others. */
    method CleanupExpiredSessions()
      requires Valid()
      modifies this`byClient, this`byTarget, this`madeFor, this`clock
      ensures Inverse(Contents()) && old(clock) <= clock
      ensures IsSwept(old(Contents()), Contents(), clock, timeout)
    {
      hide Key, Fresh, Closed, Without;
      var now := Now();
      var expired: set<Fd> := set fd | fd in byTarget &&
                                       (byTarget[fd] !in byClient || now - byClient[byTarget[fd]].lastActivity >= timeout);
      var left := expired;
      ghost var before := Contents();
      WithoutNothing(before);
      assert expired - left == {};
      while left != {}
        invariant Valid() && clock == now && left <= expired && expired <= before.byTarget.Keys
        invariant Contents() == Without(before, expired - left)
        decreases left
      {
        var fd :| fd in left;
        WithoutOneMore(before, expired - left, fd);
        assert expired - left + {fd} == expired - (left - {fd});
        CloseSession(fd);
        left := left - {fd};
      }
      assert expired - left == expired;
      ExpiredAreSwept(before, expired, now, timeout);
    }

    method Dispatch(event: Event)
      requires Valid()
      modifies this
      ensures Valid() && lastCleanup == old(lastCleanup)
      ensures Handles(old(Whole()), Whole(), event)
    {
      hide Inverse, Fresh, ClientsServed, TargetServed;
      match event
      case FromClients(arrived) => HandleClientData(arrived);
      case FromTarget(socket, replies, fails) => HandleTargetData(socket, replies, fails);
    }

    /**
     * One turn of the event loop: the events one after the other, then a sweep if the last one is
     * `interval` ago. At its end no session has been idle for `timeout + interval`.
     */
    method Turn(events: seq<Event>) returns (now: nat, ghost worlds: seq<World>)
      requires Valid()
      modifies this
      ensures Valid() && old(lastCleanup) <= now <= clock
      ensures |worlds| == |events| + 1 && worlds[0] == old(Whole())
      ensures forall i :: 0 <= i < |events| ==> Handles(worlds[i], worlds[i + 1], events[i])
      ensures var last := worlds[|events|];
              && up == last.up && down == last.down
              && if now - old(lastCleanup) >= interval then IsSwept(last.tables, Contents(), clock, timeout) && lastCleanup == now
                 else Contents() == last.tables && lastCleanup == old(lastCleanup)
      ensures Idle(Contents(), now, timeout + interval)
    {
      hide Inverse, Fresh, Idle, IsSwept, Handles;
      worlds := [Whole()];
      for i := 0 to |events|
        invariant Valid() && lastCleanup == old(lastCleanup)
        invariant |worlds| == i + 1 && worlds[0] == old(Whole()) && worlds[i] == Whole()
        invariant forall j :: 0 <= j < i ==> Handles(worlds[j], worlds[j + 1], events[j])
      {
        Dispatch(events[i]);
        worlds := worlds + [Whole()];
      }
      now := Now();
      if now - lastCleanup >= interval {
        ghost var before := Contents();
        CleanupExpiredSessions();
        SweptIsFresh(before, Contents(), clock, now, timeout, interval);
        lastCleanup := now;
      } else {
        FreshIsNotIdle(Contents(), lastCleanup, now, timeout, interval);
      }
    }

    /** Any number of turns; `now` is when the last one looked at the clock. */
    method Run(turns: seq<seq<Event>>) returns (now: nat)
      requires Valid()
      modifies this
      ensures Valid()
      ensures turns != [] ==> now <= clock && Idle(Contents(), now, timeout + interval)
    {
      hide Inverse, Fresh, Idle;
      now := 0;
      for i := 0 to |turns|
        invariant Valid()
        invariant i > 0 ==> now <= clock && Idle(Contents(), now, timeout + interval)
      {
        ghost var worlds;
        now, worlds := Turn(turns[i]);
      }
    }
  }

  /** Finding or making a session disturbs no other, and renewing it is due to its own datagram. */
  lemma ForwardKept(a: Tables, b: Tables, r: Upstream, d: Datagram, now: nat)
    requires r.Sent? && r.client == d.client && r.data == d.data
    requires Key(r.client) in b.byClient && b.byClient[Key(r.client)].target == r.socket
    requires r.socket in b.madeFor && b.madeFor[r.socket] == r.client
    requires forall k :: k in a.byClient ==> k in b.byClient && b.byClient[k] == a.byClient[k]
    requires forall fd :: fd in a.madeFor ==> fd in b.madeFor && b.madeFor[fd] == a.madeFor[fd]
    ensures Recorded(a, b, r, d) && Kept(a, b, [r])
    ensures var c := Touched(b, Key(r.client), now); r.ok ==> Recorded(a, c, r, d) && Kept(a, c, [r])
  {
    hide Key;
    assert r in [r];
  }

  lemma NothingKeptBy(t: Tables, r: Upstream, d: Datagram)
    requires r == NoSession(d.client, d.data)
    ensures Key(d.client) !in t.byClient ==> Recorded(t, t, r, d)
    ensures Kept(t, t, [r])
  {
    hide Key;
  }

  lemma NothingKept(t: Tables, since: nat)
    ensures Kept(t, t, []) && Renewed(t, [], since)
  {
  }

  /** What one more datagram leaves of what was kept before. */
  lemma KeptOn(a: Tables, b: Tables, c: Tables, records: seq<Upstream>, r: Upstream)
    requires Kept(a, b, records) && Kept(b, c, [r])
    ensures Kept(a, c, records + [r])
  {
    hide Key;
    forall k | k in a.byClient && (forall q :: q in records + [r] && q.Sent? && q.ok ==> Key(q.client) != k)
      ensures c.byClient[k] == a.byClient[k]
    {
      assert forall q :: q in records ==> q in records + [r];
      assert r in records + [r];
    }
  }

  lemma NothingSent(a: World, k: string, client: SockAddr, socket: Fd, replies: seq<seq<byte>>)
    requires k in a.tables.byClient
    ensures Answered(a, a, k, []) && Carry([], client, socket, replies)
  {
  }

  lemma CarryOn(sent: seq<Downstream>, r: Downstream, client: SockAddr, socket: Fd, replies: seq<seq<byte>>)
    requires Carry(sent, client, socket, replies) && |sent| < |replies|
    requires r.client == client && r.socket == socket && r.data == replies[|sent|]
    ensures Carry(sent + [r], client, socket, replies)
  {
  }

  lemma AnsweredOn(a: World, b: World, c: World, k: string, sent: seq<Downstream>, r: Downstream)
    requires k in a.tables.byClient && Answered(a, b, k, sent) && a.clock <= c.clock
    requires k in c.tables.byClient
    requires c.tables.byClient[k] == if r.ok then b.tables.byClient[k].(lastActivity := c.clock) else b.tables.byClient[k]
    ensures Answered(a, c, k, sent + [r])
  {
    assert r in sent + [r];
    assert forall x :: x in sent ==> x in sent + [r];
  }

  lemma RenewedOn(b: Tables, c: Tables, records: seq<Upstream>, r: Upstream, since: nat)
    requires Renewed(b, records, since) && Kept(b, c, [r])
    requires r.Sent? && r.ok ==> Key(r.client) in c.byClient && c.byClient[Key(r.client)].lastActivity >= since
    ensures Renewed(c, records + [r], since)
  {
    hide Key;
    forall q | q in records + [r] && q.Sent? && q.ok
      ensures Key(q.client) in c.byClient && c.byClient[Key(q.client)].lastActivity >= since
    {
      if q != r && !(r.Sent? && r.ok && Key(r.client) == Key(q.client)) {
        assert q in records;
        assert forall x :: x in [r] ==> x == r;
      }
    }
  }

  lemma StillRecorded(a: Tables, b: Tables, c: Tables, last: Upstream, r: Upstream, d: Datagram, records: seq<Upstream>)
    requires Kept(a, b, records) && Kept(b, c, [last])
    requires Recorded(a, b, r, d) || Recorded(b, c, r, d)
    ensures Recorded(a, c, r, d)
  {
    hide Key;
  }

  /** The tables without the given sockets and their sessions. */
  function Without(t: Tables, fds: set<Fd>): Tables {
    Tables(map k | k in t.byClient && t.byClient[k].target !in fds :: t.byClient[k],
           map fd | fd in t.byTarget && fd !in fds :: t.byTarget[fd],
           map fd | fd in t.madeFor && fd !in fds :: t.madeFor[fd])
  }

  lemma KeyOfSocket(t: Tables, fd: Fd)
    requires Inverse(t) && fd in t.byTarget
    ensures forall k :: k in t.byClient ==> (t.byClient[k].target == fd <==> k == t.byTarget[fd])
  {
    hide Key;
  }

  lemma WithoutOneMore(t: Tables, fds: set<Fd>, fd: Fd)
    requires Inverse(t) && fd in t.byTarget && fd !in fds
    ensures Closed(Without(t, fds), fd) == Without(t, fds + {fd})
  {
    hide Inverse;
    KeyOfSocket(t, fd);
    var u, w := Closed(Without(t, fds), fd), Without(t, fds + {fd});
    assert u.byClient == w.byClient;
    assert u.byTarget == w.byTarget;
    assert u.madeFor == w.madeFor;
  }

  lemma WithoutNothing(t: Tables)
    ensures Without(t, {}) == t
  {
  }

  lemma SocketServesClient(t: Tables, fd: Fd)
    requires Inverse(t) && fd in t.byTarget
    ensures t.byTarget[fd] in t.byClient && fd in t.madeFor && t.madeFor[fd] == t.byClient[t.byTarget[fd]].client
    ensures t.byClient[t.byTarget[fd]].target == fd
  {
    hide Key;
  }

  lemma SocketsAreTabled(t: Tables)
    requires Inverse(t)
    ensures t.madeFor.Keys == t.byTarget.Keys
  {
    hide Key;
  }

  /** Closing the sockets of the expired sessions leaves exactly the others. */
  lemma ExpiredAreSwept(t: Tables, expired: set<Fd>, now: nat, timeout: nat)
    requires Inverse(t)
    requires forall fd :: fd in expired <==>
               fd in t.byTarget && (t.byTarget[fd] !in t.byClient || now - t.byClient[t.byTarget[fd]].lastActivity >= timeout)
    ensures IsSwept(t, Without(t, expired), now, timeout)
  {
    hide Key;
  }
}
