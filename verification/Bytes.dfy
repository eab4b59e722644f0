/** Octets and the big-endian (network order) integers that the wire formats are built from. */
module Bytes {

  type byte = x: int | 0 <= x < 256

  /** 256 to the power k: the number of values that k octets can hold. */
  function Pow256(k: nat): (p: nat)
    ensures p > 0
  {
    if k == 0 then 1 else 256 * Pow256(k - 1)
  }

  /** The k least significant octets of v, most significant first. */
  function Be(v: nat, k: nat): (s: seq<byte>)
    ensures |s| == k
  {
    if k == 0 then [] else Be(v / 256, k - 1) + [v % 256]
  }

  /** The number a sequence of octets denotes, most significant octet first. */
  function BeValue(s: seq<byte>): nat {
    if s == [] then 0 else BeValue(s[..|s| - 1]) * 256 + s[|s| - 1]
  }

  lemma {:induction false} BeValueOfBe(v: nat, k: nat)
    requires v < Pow256(k)
    ensures BeValue(Be(v, k)) == v
  {
    if k > 0 {
      BeValueOfBe(v / 256, k - 1);
      assert Be(v, k)[..k - 1] == Be(v / 256, k - 1);
    }
  }

  lemma {:induction false} BeOfBeValue(s: seq<byte>)
    ensures BeValue(s) < Pow256(|s|)
    ensures Be(BeValue(s), |s|) == s
  {
    if s != [] {
      var init := s[..|s| - 1];
      BeOfBeValue(init);
      assert BeValue(s) / 256 == BeValue(init) && BeValue(s) % 256 == s[|s| - 1];
      assert s == init + [s[|s| - 1]];
    }
  }

  /** Two and four octets, written out: the most significant one comes first. */
  lemma BeOctets(v: nat)
    requires v < 0x1_0000_0000
    ensures v < 0x1_0000 ==> Be(v, 2) == [v / 0x100, v % 0x100]
    ensures Be(v, 4) == [v / 0x100_0000, v / 0x1_0000 % 0x100, v / 0x100 % 0x100, v % 0x100]
  {
    assert Be(v, 2) == Be(v / 256, 1) + [v % 256];
    assert Be(v / 256, 1) == Be(v / 256 / 256, 0) + [v / 256 % 256];
    assert Be(v, 4) == Be(v / 256, 3) + [v % 256];
    assert Be(v / 256, 3) == Be(v / 256 / 256, 2) + [v / 256 % 256];
    assert Be(v / 256 / 256, 2) == Be(v / 256 / 256 / 256, 1) + [v / 256 / 256 % 256];
    assert Be(v / 256 / 256 / 256, 1) == Be(v / 256 / 256 / 256 / 256, 0) + [v / 256 / 256 / 256 % 256];
    assert v / 256 / 256 == v / 0x1_0000 && v / 256 / 256 / 256 == v / 0x100_0000;
  }

  lemma Pow256Values()
    ensures Pow256(1) == 0x100
    ensures Pow256(2) == 0x1_0000
    ensures Pow256(4) == 0x1_0000_0000
    ensures Pow256(8) == 0x1_0000_0000_0000_0000
  {
    assert Pow256(3) == 256 * Pow256(2);
    assert Pow256(4) == 256 * Pow256(3);
    assert Pow256(5) == 256 * Pow256(4);
    assert Pow256(6) == 256 * Pow256(5);
    assert Pow256(7) == 256 * Pow256(6);
  }
}
