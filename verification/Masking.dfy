/**
 * The masking of WebSocket payloads (section 5.3 of RFC 6455) as `cdp_send`, `read_ws_frame` and
 * `cdp_recv` do it: exclusive or with a key of four octets, pinned down bit by bit.
 */
module Masking {
  import opened Bytes

  function Pow2(n: nat): (p: nat)
    ensures p > 0
  {
    if n == 0 then 1 else 2 * Pow2(n - 1)
  }

  /** Exclusive or of the n low bits. */
  function XorBits(a: nat, b: nat, n: nat): (x: nat)
    ensures x < Pow2(n)
  {
    if n == 0 then 0 else 2 * XorBits(a / 2, b / 2, n - 1) + (a % 2 + b % 2) % 2
  }

  lemma HalfAndBit(y: nat, a: nat, b: nat)
    requires a < 2 && b < 2
    ensures (2 * y + (a + b) % 2) / 2 == y && (2 * y + (a + b) % 2) % 2 == (a + b) % 2
    ensures ((a + b) % 2 + b) % 2 == a
  {
  }

  lemma XorStep(a: nat, b: nat, n: nat)
    requires n > 0
    ensures XorBits(a, b, n) / 2 == XorBits(a / 2, b / 2, n - 1)
    ensures XorBits(a, b, n) % 2 == (a % 2 + b % 2) % 2
  {
    HalfAndBit(XorBits(a / 2, b / 2, n - 1), a % 2, b % 2);
  }

  lemma {:induction false} XorTwice(a: nat, b: nat, n: nat)
    requires a < Pow2(n)
    ensures XorBits(XorBits(a, b, n), b, n) == a
  {
    if n > 0 {
      XorTwice(a / 2, b / 2, n - 1);
      XorStep(a, b, n);
      XorStep(XorBits(a, b, n), b, n);
      HalfAndBit(0, a % 2, b % 2);
    }
  }

  lemma Pow2Of8()
    ensures Pow2(8) == 256
  {
    assert Pow2(4) == 16 by { assert Pow2(2) == 4; }
    assert Pow2(6) == 64;
  }

  function Xor(a: byte, b: byte): byte {
    Pow2Of8();
    XorBits(a, b, 8)
  }

  type Mask = m: seq<byte> | |m| == 4 witness [0, 0, 0, 0]

  /** Octet i is combined with octet i mod 4 of the key. */
  function Masked(mask: Mask, p: seq<byte>): (q: seq<byte>)
    ensures |q| == |p|
  {
    seq(|p|, i requires 0 <= i < |p| => Xor(p[i], mask[i % 4]))
  }

  /** Masking twice with the same key gives the payload back. */
  lemma MaskedTwice(mask: Mask, p: seq<byte>)
    ensures Masked(mask, Masked(mask, p)) == p
  {
    forall i | 0 <= i < |p| ensures Masked(mask, Masked(mask, p))[i] == p[i] {
      Pow2Of8();
      XorTwice(p[i], mask[i % 4], 8);
    }
  }

  // ---- bit by bit ------------------------------------------------------------------------------------------

  /** Whether the bit that counts 2 to the k is set. */
  predicate Bit(x: nat, k: nat) { x / Pow2(k) % 2 == 1 }

  lemma QuotientUnique(v: nat, d: nat, q: nat, r: nat)
    requires d > 0 && v == q * d + r && r < d
    ensures v / d == q
  {
    var x: int := q - v / d;
    assert v == (v / d) * d + v % d;
    assert x * d == q * d - (v / d) * d;
    assert x >= 1 ==> x * d >= d;
    assert x < 0 ==> x * d + d <= 0;
  }

  lemma BitOfHalf(x: nat, k: nat)
    requires k > 0
    ensures Bit(x, k) == Bit(x / 2, k - 1)
  {
    var d := Pow2(k - 1);
    var q := x / 2 / d;
    assert x / 2 == q * d + x / 2 % d;
    assert x == 2 * (x / 2) + x % 2;
    assert q * Pow2(k) == 2 * (q * d);
    QuotientUnique(x, Pow2(k), q, 2 * (x / 2 % d) + x % 2);
  }

  lemma LastBit(x: nat)
    ensures Bit(x, 0) <==> x % 2 == 1
  {
    assert Pow2(0) == 1;
  }

  /** A bit of the result is set exactly if the two bits differ. */
  lemma {:induction false} XorBitsAreDifferences(a: nat, b: nat, n: nat, k: nat)
    requires k < n
    ensures Bit(XorBits(a, b, n), k) <==> Bit(a, k) != Bit(b, k)
  {
    hide XorBits, Bit, Pow2;
    XorStep(a, b, n);
    if k == 0 {
      LastBit(XorBits(a, b, n));
      LastBit(a);
      LastBit(b);
    } else {
      XorBitsAreDifferences(a / 2, b / 2, n - 1, k - 1);
      BitOfHalf(XorBits(a, b, n), k);
      BitOfHalf(a, k);
      BitOfHalf(b, k);
    }
  }

  /** Numbers with the same bits are the same. */
  lemma {:induction false} BitsDetermine(a: nat, b: nat, n: nat)
    requires a < Pow2(n) && b < Pow2(n)
    requires forall k :: 0 <= k < n ==> Bit(a, k) == Bit(b, k)
    ensures a == b
  {
    hide Bit;
    if n > 0 {
      forall k | 0 <= k < n - 1 ensures Bit(a / 2, k) == Bit(b / 2, k) {
        BitOfHalf(a, k + 1);
        BitOfHalf(b, k + 1);
      }
      BitsDetermine(a / 2, b / 2, n - 1);
      LastBit(a);
      LastBit(b);
    }
  }

  /** A number whose bits differ from those of a where b has them set is their exclusive or. */
  lemma ExclusiveOrOf(a: byte, b: byte, x: byte)
    requires forall k :: 0 <= k < 8 ==> (Bit(x, k) <==> Bit(a, k) != Bit(b, k))
    ensures Xor(a, b) == x
  {
    hide Bit;
    Pow2Of8();
    forall k | 0 <= k < 8 ensures Bit(Xor(a, b), k) == Bit(x, k) { XorBitsAreDifferences(a, b, 8, k); }
    BitsDetermine(Xor(a, b), x, 8);
  }

  /** Octet by octet and bit by bit: a bit is flipped exactly if the key has it set. */
  ghost predicate Flipped(mask: Mask, p: seq<byte>, q: seq<byte>) {
    && |q| == |p|
    && forall i, k :: 0 <= i < |p| && 0 <= k < 8 ==> (Bit(q[i], k) <==> Bit(p[i], k) != Bit(mask[i % 4], k))
  }

  /** Masking flips the bits that the key has set, and nothing else does. */
  lemma MaskedFlips(mask: Mask, p: seq<byte>, q: seq<byte>)
    ensures q == Masked(mask, p) <==> Flipped(mask, p, q)
  {
    hide XorBits, Bit;
    var m := Masked(mask, p);
    forall i, k | 0 <= i < |p| && 0 <= k < 8 ensures Bit(m[i], k) <==> Bit(p[i], k) != Bit(mask[i % 4], k) {
      XorBitsAreDifferences(p[i], mask[i % 4], 8, k);
    }
    if Flipped(mask, p, q) {
      forall i | 0 <= i < |p| ensures q[i] == m[i] { ExclusiveOrOf(p[i], mask[i % 4], q[i]); }
    }
  }
}
