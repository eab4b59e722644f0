/** IPv4 addresses and their text form, as `inet_ntop` prints it and `inet_pton` reads it. */
module Addresses {
  import opened Results
  import opened Bytes
  import opened Decimal

  datatype Ipv4 = Ipv4(a: byte, b: byte, c: byte, d: byte)

  /** `inet_ntop(AF_INET)`: four decimal numbers without leading zeros, joined by dots. */
  function Text(ip: Ipv4): string {
    Digits(ip.a) + ("." + (Digits(ip.b) + ("." + (Digits(ip.c) + ("." + Digits(ip.d))))))
  }

  /** What a C function sees of a string. */
  function CString(s: string): (t: string)
    ensures '\0' !in t && t <= s && ('\0' !in s ==> t == s)
  {
    if s == "" || s[0] == '\0' then ""
    else
      assert s == [s[0]] + s[1..];
      [s[0]] + CString(s[1..])
  }

  /** `inet_pton(AF_INET)`, character by character: the finished numbers and the one under way. */
  function Scan(s: string, done: seq<byte>, current: Option<byte>): (r: Option<seq<byte>>)
    ensures r.Some? ==> |r.value| == 4
  {
    if s == "" then if current.Some? && |done| == 3 then Some(done + [current.value]) else None
    else if IsDigit(s[0]) then
      match current
      case None => if |done| == 4 then None else Scan(s[1..], done, Some(DigitValue(s[0])))
      case Some(n) =>
        var more := (n as int) * 10 + DigitValue(s[0]);
        if n == 0 || more > 255 then None else Scan(s[1..], done, Some(more))
    else if s[0] == '.' && current.Some? && |done| < 3 then Scan(s[1..], done + [current.value], None)
    else None
  }

  function FromText(text: string): Option<Ipv4> {
    match Scan(CString(text), [], None)
    case Some(n) => Some(Ipv4(n[0], n[1], n[2], n[3]))
    case None => None
  }

  // ---- the scanner reads what is printed ---------------------------------------------------------------------

  lemma {:induction false} ScanNumber(n: nat, s: string, done: seq<byte>)
    requires n < 256 && |done| < 4
    ensures Scan(Digits(n) + s, done, None) == Scan(s, done, Some(n))
    decreases n
  {
    var last := [DigitChar(n % 10)];
    assert (last + s)[0] == last[0] && (last + s)[1..] == s;
    if n >= 10 {
      assert Digits(n) + s == Digits(n / 10) + (last + s);
      ScanNumber(n / 10, last + s, done);
    }
  }

  lemma ScanDot(s: string, done: seq<byte>, n: byte)
    requires |done| < 3
    ensures Scan("." + s, done, Some(n)) == Scan(s, done + [n], None)
  {
    assert ("." + s)[1..] == s;
  }

  lemma ScanText(ip: Ipv4)
    ensures Scan(Text(ip), [], None) == Some([ip.a, ip.b, ip.c, ip.d])
  {
    hide Digits;
    var d := Digits(ip.d); var c := Digits(ip.c) + ("." + d); var b := Digits(ip.b) + ("." + c);
    NumberThenDot(ip.a, b, []);
    NumberThenDot(ip.b, c, [ip.a]);
    NumberThenDot(ip.c, d, [ip.a, ip.b]);
    assert [] + [ip.a] == [ip.a] && [ip.a] + [ip.b] == [ip.a, ip.b] && [ip.a, ip.b] + [ip.c] == [ip.a, ip.b, ip.c];
    assert d + "" == d;
    ScanNumber(ip.d, "", [ip.a, ip.b, ip.c]);
    assert [ip.a, ip.b, ip.c] + [ip.d] == [ip.a, ip.b, ip.c, ip.d];
  }

  lemma NumberThenDot(n: byte, s: string, done: seq<byte>)
    requires |done| < 3
    ensures Scan(Digits(n) + ("." + s), done, None) == Scan(s, done + [n], None)
  {
    hide Scan;
    ScanNumber(n, "." + s, done);
    ScanDot(s, done, n);
  }

  // ---- and nothing else ---------------------------------------------------------------------------------------

  function Dotted(done: seq<byte>): string {
    if done == [] then "" else Dotted(done[..|done| - 1]) + Digits(done[|done| - 1]) + "."
  }

  /** The text that leaves the scanner in a state. */
  function Printed(done: seq<byte>, current: Option<byte>): string {
    Dotted(done) + match current case Some(n) => Digits(n) case None => ""
  }

  lemma {:induction false} ScannedIsPrinted(s: string, done: seq<byte>, current: Option<byte>)
    requires Scan(s, done, current).Some?
    ensures var r := Scan(s, done, current).value; Printed(done, current) + s == Printed(r[..3], Some(r[3]))
    decreases |s|
  {
    hide Printed;
    if s == "" {
      var r := done + [current.value];
      assert r[..3] == done;
      assert Printed(done, current) + s == Printed(done, current);
    } else {
      Consumed(done, current, s[0]);
      MoveOver(Printed(done, current), s);
      if IsDigit(s[0]) {
        var n := if current.None? then DigitValue(s[0]) else (current.value as int) * 10 + DigitValue(s[0]);
        ScannedIsPrinted(s[1..], done, Some(n));
      } else {
        ScannedIsPrinted(s[1..], done + [current.value], None);
      }
    }
  }

  lemma MoveOver(a: string, s: string)
    requires s != ""
    ensures a + s == a + [s[0]] + s[1..]
  {
  }

  /** A character moves from the rest of the text to the text that has been scanned. */
  lemma Consumed(done: seq<byte>, current: Option<byte>, c: char)
    ensures IsDigit(c) && current.None? ==> Printed(done, current) + [c] == Printed(done, Some(DigitValue(c)))
    ensures IsDigit(c) && current.Some? && current.value != 0 && (current.value as int) * 10 + DigitValue(c) < 256 ==>
              Printed(done, current) + [c] == Printed(done, Some((current.value as int) * 10 + DigitValue(c)))
    ensures c == '.' && current.Some? ==> Printed(done, current) + [c] == Printed(done + [current.value], None)
  {
    if current.Some? {
      assert (done + [current.value])[..|done|] == done;
      assert Dotted(done) + Digits(current.value) + [c] == Dotted(done) + (Digits(current.value) + [c]);
      if IsDigit(c) {
        var n := (current.value as int) * 10 + DigitValue(c);
        assert n / 10 == current.value as int && n % 10 == DigitValue(c);
        assert DigitChar(DigitValue(c)) == c;
      }
    }
  }

  lemma PrintedIsText(ip: Ipv4)
    ensures Printed([ip.a, ip.b, ip.c], Some(ip.d)) == Text(ip)
  {
    hide Digits;
    assert [ip.a, ip.b, ip.c][..2] == [ip.a, ip.b] && [ip.a, ip.b][..1] == [ip.a] && [ip.a][..0] == [];
    var a, b, c, d := Digits(ip.a), Digits(ip.b), Digits(ip.c), Digits(ip.d);
    assert Dotted([ip.a]) == a + "." by { assert Dotted([]) == ""; assert "" + a + "." == a + "."; }
    assert Dotted([ip.a, ip.b]) == a + "." + b + ".";
    assert Dotted([ip.a, ip.b, ip.c]) == a + "." + b + "." + c + ".";
    assert a + "." + b + "." + c + "." + d == a + ("." + (b + ("." + (c + ("." + d)))));
  }

  /** The scanner accepts exactly the texts that `inet_ntop` prints: no leading zeros, missing or extra numbers. */
  lemma FromTextExactly(text: string, ip: Ipv4)
    ensures FromText(text) == Some(ip) <==> CString(text) == Text(ip)
  {
    hide Scan, Text, Printed;
    var r := Scan(CString(text), [], None);
    ScanText(ip);
    if r.Some? {
      ScannedIsPrinted(CString(text), [], None);
      assert Printed([], None) == "" by { NothingPrinted(); }
      var n := r.value;
      assert n[..3] == [n[0], n[1], n[2]] && "" + CString(text) == CString(text);
      PrintedIsText(Ipv4(n[0], n[1], n[2], n[3]));
    }
  }

  lemma NothingPrinted()
    ensures Printed([], None) == ""
  {
  }

  // ---- address texts in longer texts ----------------------------------------------------------------------------

  /** Numerals followed by a non-digit can be read off the front of a text in one way only. */
  lemma {:induction false} NumeralSplit(m: nat, n: nat, s: string, t: string)
    requires s == "" || !IsDigit(s[0])
    requires t == "" || !IsDigit(t[0])
    requires Digits(m) + s == Digits(n) + t
    ensures m == n && s == t
  {
    DigitRunOf(Digits(m), s);
    DigitRunOf(Digits(n), t);
    assert (Digits(m) + s)[..|Digits(m)|] == Digits(m);
    assert (Digits(n) + t)[..|Digits(n)|] == Digits(n);
    DigitsInjective(m, n);
    assert (Digits(m) + s)[|Digits(m)|..] == s;
    assert (Digits(n) + t)[|Digits(n)|..] == t;
  }

  lemma TextInjective(p: Ipv4, q: Ipv4, s: string, t: string)
    requires s == "" || !IsDigit(s[0])
    requires t == "" || !IsDigit(t[0])
    requires Text(p) + s == Text(q) + t
    ensures p == q && s == t
  {
    NumeralSplitDot(p.a, q.a, Rest1(p) + s, Rest1(q) + t) by { Regroup(p, s); Regroup(q, t); }
    NumeralSplitDot(p.b, q.b, Rest2(p) + s, Rest2(q) + t) by { Regroup(p, s); Regroup(q, t); }
    NumeralSplitDot(p.c, q.c, Digits(p.d) + s, Digits(q.d) + t) by { Regroup(p, s); Regroup(q, t); }
    NumeralSplit(p.d, q.d, s, t);
  }

  function Rest2(ip: Ipv4): string { Digits(ip.c) + ("." + Digits(ip.d)) }

  function Rest1(ip: Ipv4): string { Digits(ip.b) + ("." + Rest2(ip)) }

  lemma Regroup(ip: Ipv4, s: string)
    ensures Text(ip) + s == Digits(ip.a) + ("." + (Rest1(ip) + s))
    ensures Rest1(ip) + s == Digits(ip.b) + ("." + (Rest2(ip) + s))
    ensures Rest2(ip) + s == Digits(ip.c) + ("." + (Digits(ip.d) + s))
  {
    assert Text(ip) == Digits(ip.a) + ("." + Rest1(ip));
  }

  lemma NumeralSplitDot(m: nat, n: nat, s: string, t: string)
    requires Digits(m) + ("." + s) == Digits(n) + ("." + t)
    ensures m == n && s == t
  {
    NumeralSplit(m, n, "." + s, "." + t);
    assert s == ("." + s)[1..] && t == ("." + t)[1..];
  }

  lemma TextHasNoNul(ip: Ipv4)
    ensures CString(Text(ip)) == Text(ip)
  {
    var t := Text(ip);
    assert forall i :: 0 <= i < |t| ==> IsDigit(t[i]) || t[i] == '.';
  }

  /** Reading back what was printed gives the address. */
  lemma FromTextOfText(ip: Ipv4)
    ensures FromText(Text(ip)) == Some(ip)
  {
    TextHasNoNul(ip);
    FromTextExactly(Text(ip), ip);
  }
}
