/**
 * The browser's strings and their UTF-8 form. A string of the browser is a sequence of UTF-16 code
 * units. `char` has no surrogates, so the surrogate 0xD800 + k is written as the character U+1D800 + k
 * and every other code unit as itself. Octets are characters below U+100.
 */
module Unicode {

  predicate High(c: char) { '\U{1D800}' <= c < '\U{1DC00}' }

  predicate Low(c: char) { '\U{1DC00}' <= c < '\U{1E000}' }

  predicate IsAscii(c: char) { c < '\U{80}' }

  predicate Ascii(s: string) { forall i :: 0 <= i < |s| ==> IsAscii(s[i]) }

  predicate Paired(s: string) { |s| >= 2 && High(s[0]) && Low(s[1]) }

  /** Every surrogate is half of a pair. Decoding octets gives such strings only. */
  predicate WellFormed(s: string) {
    s != "" ==> if Paired(s) then WellFormed(s[2..]) else s[0] < '\U{10000}' && WellFormed(s[1..])
  }

  /** The code units of the first character. */
  function Width(s: string): (n: nat)
    requires s != ""
    ensures 0 < n <= |s|
  {
    if Paired(s) then 2 else 1
  }

  /** The code point of the first character; a lone surrogate is replaced by U+FFFD. */
  function First(s: string): (p: nat)
    requires s != ""
    ensures p < 0x11_0000 && (p >= 0x1_0000 <==> Paired(s))
  {
    if Paired(s) then 0x1_0000 + (s[0] as int - 0x1_D800) * 0x400 + (s[1] as int - 0x1_DC00)
    else if s[0] < '\U{10000}' then s[0] as int
    else 0xFFFD
  }

  function Octet(n: nat): (c: char)
    requires n < 0x100
    ensures c as int == n
  {
    n as char
  }

  /** RFC 3629, section 3. */
  function Point(p: nat): (b: string)
    requires p < 0x11_0000
    ensures |b| == if p < 0x80 then 1 else if p < 0x800 then 2 else if p < 0x1_0000 then 3 else 4
  {
    if p < 0x80 then [Octet(p)]
    else if p < 0x800 then [Octet(0xC0 + p / 64), Octet(0x80 + p % 64)]
    else if p < 0x1_0000 then [Octet(0xE0 + p / 4096), Octet(0x80 + p / 64 % 64), Octet(0x80 + p % 64)]
    else [Octet(0xF0 + p / 262144), Octet(0x80 + p / 4096 % 64), Octet(0x80 + p / 64 % 64), Octet(0x80 + p % 64)]
  }

  /** What TextEncoder produces, and what a WebSocket text frame carries. */
  function Utf8(s: string): (b: string)
    ensures |b| >= |s|
    decreases |s|
  {
    if s == "" then "" else Point(First(s)) + Utf8(s[Width(s)..])
  }

  /**
   * One character of each length: U+E9, U+20AC, and U+1F600 as the surrogates 0xD83D and 0xDE00. The
   * octets are those of RFC 3629.
   */
  lemma Utf8Examples()
    ensures Utf8("\U{E9}") == "\U{C3}\U{A9}"
    ensures Utf8("\U{20AC}") == "\U{E2}\U{82}\U{AC}"
    ensures Utf8("\U{1D83D}\U{1DE00}") == "\U{F0}\U{9F}\U{98}\U{80}"
  {
    Utf8OfOne("\U{E9}", 0xE9);
    Utf8OfOne("\U{20AC}", 0x20AC);
    Utf8OfOne("\U{1D83D}\U{1DE00}", 0x1F600);
  }

  lemma Utf8OfOne(s: string, p: nat)
    requires s != "" && Width(s) == |s| && First(s) == p
    ensures Utf8(s) == Point(p)
  {
    hide Point;
    assert s[|s|..] == "" && Utf8("") == "";
  }

  // ---- ASCII ------------------------------------------------------------------------------------------------

  lemma AsciiFirst(s: string)
    requires s != ""
    ensures Ascii(s) <==> IsAscii(s[0]) && Ascii(s[1..])
  {
    assert forall i :: 0 < i < |s| ==> s[i] == s[1..][i - 1];
    assert forall i :: 0 <= i < |s| - 1 ==> s[1..][i] == s[i + 1];
  }

  lemma {:induction false} Utf8OfAscii(s: string)
    requires Ascii(s)
    ensures Utf8(s) == s
  {
    if s != "" {
      AsciiFirst(s);
      Utf8OfAscii(s[1..]);
      assert [s[0]] + s[1..] == s;
    }
  }

  lemma {:induction false} Utf8LengthOfAscii(s: string)
    ensures |Utf8(s)| == |s| <==> Ascii(s)
    decreases |s|
  {
    if s != "" {
      AsciiFirst(s);
      if !Paired(s) { Utf8LengthOfAscii(s[1..]); }
    }
  }

  // ---- parts ------------------------------------------------------------------------------------------------

  lemma FirstOfParts(a: string, b: string)
    requires a != "" && (b != "" ==> !Low(b[0]))
    ensures Width(a + b) == Width(a) && First(a + b) == First(a) && (a + b)[Width(a)..] == a[Width(a)..] + b
  {
    assert (a + b)[0] == a[0];
    if |a| > 1 { assert (a + b)[1] == a[1]; } else if b != "" { assert (a + b)[1] == b[0]; }
  }

  lemma {:induction false} Utf8OfParts(a: string, b: string)
    requires b != "" ==> !Low(b[0])
    ensures Utf8(a + b) == Utf8(a) + Utf8(b)
    decreases |a|
  {
    hide Point, First, Width, Paired;
    if a == "" {
      assert a + b == b;
    } else {
      var rest := a[Width(a)..];
      FirstOfParts(a, b);
      Utf8OfParts(rest, b);
      Associate(Point(First(a)), Utf8(rest), Utf8(b));
    }
  }

  lemma Associate(a: string, b: string, c: string)
    ensures a + b + c == a + (b + c)
  {
  }

  /** ASCII text followed by anything. */
  lemma {:induction false} Utf8AfterAscii(a: string, b: string)
    requires Ascii(a)
    ensures Utf8(a + b) == a + Utf8(b)
    decreases |a|
  {
    hide Utf8;
    if a == "" {
      assert a + b == b && "" + Utf8(b) == Utf8(b);
    } else {
      AsciiFirst(a);
      AsciiStep(a[0], a[1..] + b);
      assert [a[0]] + (a[1..] + b) == a + b;
      Utf8AfterAscii(a[1..], b);
      assert [a[0]] + (a[1..] + Utf8(b)) == a + Utf8(b);
    }
  }

  lemma AsciiStep(c: char, s: string)
    requires IsAscii(c)
    ensures Utf8([c] + s) == [c] + Utf8(s)
  {
    assert ([c] + s)[0] == c && ([c] + s)[1..] == s;
  }

  // ---- decoding is unique ------------------------------------------------------------------------------------

  lemma PointIsPrefixFree(p: nat, q: nat, u: string, v: string)
    requires p < 0x11_0000 && q < 0x11_0000 && Point(p) + u == Point(q) + v
    ensures p == q && u == v
  {
    var a, b := Point(p), Point(q);
    assert (a + u)[0] == a[0] && (b + v)[0] == b[0];
    assert |a| == |b|;
    assert a == (a + u)[..|a|] && b == (b + v)[..|b|];
    assert u == (a + u)[|a|..] && v == (b + v)[|b|..];
    SamePoint(p, q);
  }

  lemma SamePoint(p: nat, q: nat)
    requires p < 0x11_0000 && q < 0x11_0000 && Point(p) == Point(q)
    ensures p == q
  {
    var a, b := Point(p), Point(q);
    assert a[0] as int == b[0] as int;
    if |a| > 1 { assert a[1] as int == b[1] as int; }
    if |a| > 2 { assert a[2] as int == b[2] as int; }
    if |a| > 3 { assert a[3] as int == b[3] as int; }
    Sextets(p);
    Sextets(q);
  }

  lemma Sextets(p: nat)
    ensures p == p / 64 * 64 + p % 64
    ensures p / 64 == p / 4096 * 64 + p / 64 % 64
    ensures p / 4096 == p / 262144 * 64 + p / 4096 % 64
  {
    assert p / 4096 == p / 64 / 64;
    assert p / 262144 == p / 4096 / 64;
  }

  /** Octets decode to at most one string. */
  lemma {:induction false} Utf8IsInjective(s: string, t: string)
    requires WellFormed(s) && WellFormed(t) && Utf8(s) == Utf8(t)
    ensures s == t
    decreases |s|
  {
    if s == "" || t == "" {
      assert |Utf8(s)| == |Utf8(t)|;
    } else {
      var n := Width(s);
      PointIsPrefixFree(First(s), First(t), Utf8(s[n..]), Utf8(t[Width(t)..]));
      assert Width(t) == n;
      Utf8IsInjective(s[n..], t[n..]);
      SameUnits(s, t);
      assert s == s[..n] + s[n..] && t == t[..n] + t[n..];
    }
  }

  lemma SameUnits(s: string, t: string)
    requires s != "" && t != "" && WellFormed(s) && WellFormed(t) && First(s) == First(t)
    ensures Width(s) == Width(t) && s[..Width(s)] == t[..Width(s)]
  {
  }
}
