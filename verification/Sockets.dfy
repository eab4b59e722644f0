/**
 * Stream sockets as the program sees them. How many octets one call moves is the kernel's choice,
 * so `Recv` and `Send` leave it open; the loops above them must work for every choice.
 */
module Sockets {
  import opened Bytes

  /** The reading end of a connection. */
  class Source {
    /** Every octet that will still arrive before end-of-file or an error. */
    var pending: seq<byte>

    constructor (arriving: seq<byte>)
      ensures pending == arriving
    {
      pending := arriving;
    }

    /** `recv`: between one and `max` octets, or none when nothing more will arrive. */
    method Recv(max: nat) returns (data: seq<byte>)
      requires max > 0
      modifies this
      ensures old(pending) == data + pending
      ensures |data| <= max
      ensures data == [] <==> old(pending) == []
    {
      if pending == [] {
        data := [];
      } else {
        var n: nat :| 1 <= n <= max && n <= |pending|;
        data := pending[..n];
        pending := pending[n..];
      }
    }

    /**
     * `recv_exact`: n octets in as many calls as it takes. It succeeds exactly when n octets are
     * still to come, and a failed read has used up all of them.
     */
    method RecvExact(n: nat) returns (ok: bool, buf: seq<byte>)
      modifies this
      ensures ok <==> |old(pending)| >= n
      ensures ok ==> buf == old(pending)[..n] && pending == old(pending)[n..]
      ensures !ok ==> buf == old(pending) && pending == []
    {
      buf := [];
      while |buf| < n
        invariant |buf| <= n
        invariant old(pending) == buf + pending
      {
        var data := Recv(n - |buf|);
        if data == [] {
          return false, buf;
        }
        buf := buf + data;
      }
      ok := true;
    }
  }

  /** The writing end of a connection. */
  class Sink {
    /** Every octet the kernel has accepted so far. */
    var sent: seq<byte>

    constructor ()
      ensures sent == []
    {
      sent := [];
    }

    /** `send`: accepts a non-empty prefix of the data, or fails (n = 0) and accepts nothing. */
    method Send(data: seq<byte>) returns (n: nat)
      requires data != []
      modifies this
      ensures n <= |data| && sent == old(sent) + data[..n]
    {
      n :| 0 <= n <= |data|;
      sent := sent + data[..n];
    }

    /** The send loop: all of the buffer, or a proper prefix of it when a call fails. */
    method SendAll(buf: seq<byte>) returns (ok: bool, n: nat)
      modifies this
      ensures n <= |buf| && sent == old(sent) + buf[..n]
      ensures ok <==> n == |buf|
    {
      n := 0;
      while n < |buf|
        invariant n <= |buf|
        invariant sent == old(sent) + buf[..n]
      {
        var k := Send(buf[n..]);
        if k == 0 {
          return false, n;
        }
        assert buf[..n + k] == buf[..n] + buf[n..][..k];
        n := n + k;
      }
      ok := true;
    }
  }
}
