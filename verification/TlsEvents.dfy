/**
 * What an event does to the tables and sockets of the TLS-terminating proxy (`handle_event`,
 * `continue_handshake`, the accept loop): which descriptor is read and which one gets the octets.
 */
module TlsEvents {
  import opened Results
  import opened Bytes
  import opened Descriptors
  import opened TlsTables
  import opened TlsOrder

  /** `SSL_get_error` after a failed call. */
  datatype SslError = WantRead | WantWrite | Fatal

  datatype Handshake = Complete | Failed(error: SslError)

  /** How `SSL_accept` would go on, and whether the target could be reached and what it would then send. */
  datatype Step = Step(result: Handshake, target: Option<seq<byte>>)

  /** A client, for which there may be an SSL object, or news of a descriptor. */
  datatype Event = Arrival(made: bool, arriving: seq<byte>)
                 | Ready(fd: Fd, failed: bool, writable: bool, readable: bool, step: Step)

  /**
   * The tables and sockets, and what the last calls have found: descriptors with nothing more to read,
   * those that did not take all that was written, and since the event began those that have failed or
   * ended and those on which TLS has to read before it can write.
   */
  datatype World = World(t: Tables, s: SocketTable, idle: set<Fd>, full: set<Fd>, broken: set<Fd>, starved: set<Fd>)

  /** The pair is gone and nothing has happened to the other sockets. */
  ghost predicate Closes(a: World, b: World, fd: Fd) {
    && Paired(a.t.connections) && fd in a.t.connections
    && b.t == Dropped(a.t, fd) && Untouched(a.s, b.s, {fd, a.t.connections[fd].peer})
  }

  predicate Untouched(s: SocketTable, s': SocketTable, gone: set<Fd>) {
    s'.Keys == s.Keys - gone && forall k :: k in s' ==> s'[k] == s[k]
  }

  /** The backlog of the descriptor has gone out to it, all of it or what it took. */
  ghost predicate Flushed(a: World, b: World, fd: Fd, sent: seq<byte>) {
    && fd in a.t.connections && fd in a.s && sent <= a.t.connections[fd].writeBuf
    && b.t == Backlog(a.t, fd, a.t.connections[fd].writeBuf[|sent|..])
    && b.s == a.s[fd := a.s[fd].(delivered := a.s[fd].delivered + sent)]
    && b.idle == a.idle && b.broken == a.broken && b.starved == a.starved
    && (sent != a.t.connections[fd].writeBuf ==> fd in b.full)
  }

  /** Only a failed write, or one for which TLS has to read first, closes the pair. */
  ghost predicate Flushes(a: World, b: World, fd: Fd) {
    || (Closes(a, b, fd) && (fd in b.broken || fd in b.starved))
    || exists sent :: Flushed(a, b, fd, sent)
  }

  /**
   * What was read from the descriptor until it was idle has been written to its peer; or from the first
   * octet that the peer did not take it has been queued for the peer, or lost if TLS has to read first.
   */
  ghost predicate Relayed(a: World, b: World, fd: Fd, taken: seq<byte>, written: nat) {
    && fd in a.t.connections
    && var peer := a.t.connections[fd].peer;
       && fd in a.s && peer in a.s && peer in a.t.connections && taken <= a.s[fd].pending && written <= |taken|
       && b.s == Transferred(a.s, fd, peer, taken, written)
       && (b.t == Forwarded(a.t, peer, taken, written) || (b.t == a.t && !a.t.connections[fd].isClient && peer in b.starved))
       && (written == |taken| ==> fd in b.idle)
       && (written < |taken| && b.t != a.t ==> peer in b.full)
       && b.broken == a.broken
  }

  /** Only the failure or end of one of the two closes the pair. */
  ghost predicate Relays(a: World, b: World, fd: Fd) {
    || (Closes(a, b, fd) && (fd in b.broken || a.t.connections[fd].peer in b.broken))
    || exists taken, written: nat :: Relayed(a, b, fd, taken, written)
  }

  /** A step of the handshake: over with a new pair, given up, or waiting for input or for output. */
  ghost predicate Shakes(a: World, b: World, fd: Fd, step: Step) {
    && fd in a.t.pending
    && match step.result
       case Complete =>
         if step.target.Some? then exists target :: Completes(a, b, fd, target, step.target.value)
         else b.t == DroppedPending(a.t, fd) && b.s == a.s - {fd}
       case Failed(WantRead) => b == a
       case Failed(WantWrite) => b.t == Rearmed(a.t, fd, Interest(false, true)) && b.s == a.s
       case Failed(Fatal) => b.t == DroppedPending(a.t, fd) && b.s == a.s - {fd}
  }

  ghost predicate Completes(a: World, b: World, fd: Fd, target: Fd, arriving: seq<byte>) {
    && fd in a.t.pending && target !in a.s && b.t == Established(a.t, fd, target)
    && b.s == a.s[target := Traffic(arriving, [])]
  }

  /** First the backlog of a writable descriptor goes out, then a readable one is read and its peer written. */
  ghost predicate Handles(a: World, m: World, b: World, fd: Fd, writable: bool, readable: bool) {
    && (if writable then Flushes(a, m, fd) else m == a)
    && (if readable && fd in m.t.connections then Relays(m, b, fd) else b == m)
  }

  ghost predicate Accepts(a: World, b: World, fd: Fd, arriving: seq<byte>) {
    && fd !in a.s && b.s == a.s[fd := Traffic(arriving, [])]
    && fd in b.t.pending && b.t.pending[fd] !in a.t.live && b.t == Accepted(a.t, fd, b.t.pending[fd])
  }

  ghost predicate Follows(a: World, b: World, e: Event) {
    match e
    case Arrival(made, arriving) => if made then exists fd :: Accepts(a, b, fd, arriving) else b == a
    case Ready(fd, failed, writable, readable, step) =>
      if fd in a.t.pending then Shakes(a, b, fd, step)
      else if fd !in a.t.connections then b == a
      else if failed then Closes(a, b, fd)
      else exists m :: Handles(a, m, b, fd, writable, readable)
  }

  /** The kernel reports an event, which changes nothing but what is known of the descriptor, and it is handled. */
  ghost predicate Turns(a: World, woken: World, b: World, e: Event) {
    woken.t == a.t && woken.s == a.s && Follows(woken, b, e)
  }
}
