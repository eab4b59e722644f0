/** Base64 (section 4 of RFC 4648) and its behaviour under chunking. */
module Base64 {
  import opened Results
  import opened Bytes
  import ImageStream

  // ---- the alphabet ---------------------------------------------------------------------------------------

  function Digit64(v: nat): (c: char)
    requires v < 64
    ensures c != '='
  {
    if v < 26 then (('A' as int) + v) as char
    else if v < 52 then (('a' as int) + v - 26) as char
    else if v < 62 then (('0' as int) + v - 52) as char
    else if v == 62 then '+' else '/'
  }

  function Value64(c: char): (v: Option<nat>)
    ensures v.Some? ==> v.value < 64
  {
    if 'A' <= c <= 'Z' then Some(c as int - 'A' as int)
    else if 'a' <= c <= 'z' then Some(c as int - 'a' as int + 26)
    else if '0' <= c <= '9' then Some(c as int - '0' as int + 52)
    else if c == '+' then Some(62)
    else if c == '/' then Some(63)
    else None
  }

  lemma DigitValue(v: nat)
    requires v < 64
    ensures Value64(Digit64(v)) == Some(v)
  {
  }

  /** Table 1 of RFC 4648: the capitals, the small letters, the digits, '+' and '/', each in order. */
  lemma DigitsAreTheAlphabet(v: nat)
    requires v < 63
    ensures Digit64(0) == 'A' && Digit64(25) == 'Z' && Digit64(26) == 'a' && Digit64(51) == 'z'
    ensures Digit64(52) == '0' && Digit64(61) == '9' && Digit64(62) == '+' && Digit64(63) == '/'
    ensures v !in {25, 51, 61, 62} ==> Digit64(v + 1) as int == Digit64(v) as int + 1
  {
  }

  // ---- encoding ---------------------------------------------------------------------------------------------

  /** One to three octets as four characters. */
  function Block(s: seq<byte>): (t: string)
    requires 1 <= |s| <= 3
    ensures |t| == 4
    ensures t[3] == '=' <==> |s| < 3
  {
    [Digit64(s[0] / 4)] +
    if |s| == 1 then [Digit64(s[0] % 4 * 16), '=', '=']
    else [Digit64(s[0] % 4 * 16 + s[1] / 16)] +
         if |s| == 2 then [Digit64(s[1] % 16 * 4), '=']
         else [Digit64(s[1] % 16 * 4 + s[2] / 64), Digit64(s[2] % 64)]
  }

  function Encode(s: seq<byte>): string
    decreases |s|
  {
    if s == [] then "" else if |s| <= 3 then Block(s) else Block(s[..3]) + Encode(s[3..])
  }

  /** Three octets and the six-bit digits that stand for them are the same number of 24 bits. */
  lemma BlockIsGroup(a: byte, b: byte, c: byte)
    ensures var t := Block([a, b, c]);
            var w, x, y, z := Value64(t[0]), Value64(t[1]), Value64(t[2]), Value64(t[3]);
            && w.Some? && x.Some? && y.Some? && z.Some?
            && w.value * 0x4_0000 + x.value * 0x1000 + y.value * 0x40 + z.value == (a as int) * 0x1_0000 + (b as int) * 0x100 + c
  {
    DigitValue(a / 4);
    DigitValue(a % 4 * 16 + b / 16);
    DigitValue(b % 16 * 4 + c / 64);
    DigitValue(c % 64);
    hide Value64, Digit64;
  }

  /** Missing octets count as zeros, and what stands for nothing else is '='. */
  lemma ShortBlocks(a: byte, b: byte)
    ensures Block([a, b]) == Block([a, b, 0])[..3] + "=" && Block([a]) == Block([a, 0, 0])[..2] + "=="
  {
    hide Digit64;
  }

  function Unblock(t: string): Option<seq<byte>>
    requires |t| == 4
  {
    var a, b, c, d := Value64(t[0]), Value64(t[1]), Value64(t[2]), Value64(t[3]);
    if a.None? || b.None? then None
    else if t[2] == '=' && t[3] == '=' then Some([a.value * 4 + b.value / 16])
    else if c.None? then None
    else if t[3] == '=' then Some([a.value * 4 + b.value / 16, b.value % 16 * 16 + c.value / 4])
    else if d.None? then None
    else Some([a.value * 4 + b.value / 16, b.value % 16 * 16 + c.value / 4, c.value % 4 * 64 + d.value])
  }

  /** Decoding; padding may only end the text. */
  function Decode(t: string): Option<seq<byte>>
    decreases |t|
  {
    if t == "" then Some([])
    else if |t| < 4 || (t[3] == '=' && |t| > 4) then None
    else
      match Unblock(t[..4])
      case None => None
      case Some(s) =>
        match Decode(t[4..])
        case None => None
        case Some(rest) => Some(s + rest)
  }

  lemma Sextets(a: byte, b: byte, c: byte)
    ensures var w, x, y, z := a / 4, a % 4 * 16 + b / 16, b % 16 * 4 + c / 64, c % 64;
            w * 4 + x / 16 == a && x % 16 * 16 + y / 4 == b && y % 4 * 64 + z == c
  {
    assert (a % 4 * 16 + b / 16) / 16 == a % 4 && (a % 4 * 16 + b / 16) % 16 == b / 16;
    assert (b % 16 * 4 + c / 64) / 4 == b % 16 && (b % 16 * 4 + c / 64) % 4 == c / 64;
  }

  lemma UnblockOne(a: byte)
    ensures Unblock(Block([a])) == Some([a])
  {
    DigitValue(a / 4);
    DigitValue(a % 4 * 16);
    Sextets(a, 0, 0);
    hide Value64, Digit64;
  }

  lemma UnblockTwo(a: byte, b: byte)
    ensures Unblock(Block([a, b])) == Some([a, b])
  {
    DigitValue(a / 4);
    DigitValue(a % 4 * 16 + b / 16);
    DigitValue(b % 16 * 4);
    Sextets(a, b, 0);
    hide Value64, Digit64;
  }

  lemma UnblockThree(a: byte, b: byte, c: byte)
    ensures Unblock(Block([a, b, c])) == Some([a, b, c])
  {
    DigitValue(a / 4);
    DigitValue(a % 4 * 16 + b / 16);
    DigitValue(b % 16 * 4 + c / 64);
    DigitValue(c % 64);
    Sextets(a, b, c);
    hide Value64, Digit64;
  }

  lemma UnblockOfBlock(s: seq<byte>)
    requires 1 <= |s| <= 3
    ensures Unblock(Block(s)) == Some(s)
  {
    hide Unblock, Block;
    if |s| == 1 {
      assert s == [s[0]];
      UnblockOne(s[0]);
    } else if |s| == 2 {
      assert s == [s[0], s[1]];
      UnblockTwo(s[0], s[1]);
    } else {
      assert s == [s[0], s[1], s[2]];
      UnblockThree(s[0], s[1], s[2]);
    }
  }

  lemma {:induction false} DecodeOfEncode(s: seq<byte>)
    ensures Decode(Encode(s)) == Some(s)
    decreases |s|
  {
    hide Block, Unblock;
    if |s| > 3 {
      DecodeOfEncode(s[3..]);
      UnblockOfBlock(s[..3]);
      assert Encode(s)[..4] == Block(s[..3]) && Encode(s)[4..] == Encode(s[3..]) && Encode(s)[3] == Block(s[..3])[3];
      assert s[..3] + s[3..] == s;
    } else if s != [] {
      UnblockOfBlock(s);
      assert Block(s)[..4] == Block(s) && Block(s)[4..] == "" && s + [] == s;
    }
  }

  lemma {:induction false} EncodedLength(s: seq<byte>)
    ensures |Encode(s)| == (|s| + 2) / 3 * 4
    decreases |s|
  {
    hide Block;
    if |s| > 3 { EncodedLength(s[3..]); }
  }

  // ---- chunks -------------------------------------------------------------------------------------------------

  /** A multiple of four characters stands for a multiple of three octets. */
  lemma {:induction false} EncodeSplits(a: seq<byte>, b: seq<byte>)
    requires |a| % 3 == 0
    ensures Encode(a + b) == Encode(a) + Encode(b)
    decreases |a|
  {
    hide Block;
    if a == [] {
      assert a + b == b;
    } else {
      assert (a + b)[..3] == a[..3] && (a + b)[3..] == a[3..] + b && a[..3] + [] == a[..3];
      EncodeSplits(a[3..], b);
      assert |a| == 3 ==> a[..3] == a && a[3..] == [];
      assert b == [] ==> a + b == a && a[3..] + b == a[3..];
    }
  }

  /** The slices that a text is cut into for transmission. */
  function Chunks(text: string, size: nat): seq<string>
    requires size > 0
    decreases |text|
  {
    if text == "" then [] else if |text| <= size then [text] else [text[..size]] + Chunks(text[size..], size)
  }

  /** The slices of the encoded octets. */
  function Slices(s: seq<byte>, size: nat): seq<seq<byte>>
    requires size > 0
    decreases |s|
  {
    if s == [] then [] else if |s| <= size then [s] else [s[..size]] + Slices(s[size..], size)
  }

  lemma EncodedSize(s: seq<byte>, n: nat)
    ensures |s| <= 3 * n <==> |Encode(s)| <= 4 * n
    ensures |s| == 3 * n ==> |Encode(s)| == 4 * n
    ensures s == [] <==> Encode(s) == ""
  {
    hide Encode;
    EncodedLength(s);
  }

  /** Each chunk of 4n characters decodes, on its own, to the corresponding slice of 3n octets. */
  lemma {:induction false} ChunksDecode(s: seq<byte>, n: nat, k: nat)
    requires n > 0
    ensures |Chunks(Encode(s), 4 * n)| == |Slices(s, 3 * n)|
    ensures k < |Slices(s, 3 * n)| ==> Decode(Chunks(Encode(s), 4 * n)[k]) == Some(Slices(s, 3 * n)[k])
    decreases |s|
  {
    hide Encode, Decode;
    EncodedSize(s, n);
    if |s| <= 3 * n {
      DecodeOfEncode(s);
    } else {
      var a, b := s[..3 * n], s[3 * n..];
      EncodeSplits(a, b);
      assert a + b == s;
      EncodedSize(a, n);
      assert Encode(s)[..4 * n] == Encode(a) && Encode(s)[4 * n..] == Encode(b);
      DecodeOfEncode(a);
      ChunksDecode(b, n, if k > 0 then k - 1 else 0);
      assert Slices(s, 3 * n) == [a] + Slices(b, 3 * n);
      assert Chunks(Encode(s), 4 * n) == [Encode(a)] + Chunks(Encode(b), 4 * n);
    }
  }

  /** The blobs of an image carry the chunks of its text. */
  lemma {:induction false} BlobsAreChunks(stream: int, text: string, k: nat)
    ensures |ImageStream.Blobs(stream, text)| == |Chunks(text, ImageStream.CHUNK)|
    ensures k < |Chunks(text, ImageStream.CHUNK)| ==>
              ImageStream.Blobs(stream, text)[k].args == [ImageStream.ToText(stream), Chunks(text, ImageStream.CHUNK)[k]]
    decreases |text|
  {
    if |text| > ImageStream.CHUNK { BlobsAreChunks(stream, text[ImageStream.CHUNK..], if k > 0 then k - 1 else 0); }
  }

  /** Since 8192 is a multiple of four, every blob of an image decodes separately to its slice of 6144 octets. */
  lemma BlobsDecodeSeparately(stream: int, s: seq<byte>, k: nat)
    ensures var blobs := ImageStream.Blobs(stream, Encode(s));
            && |blobs| == |Slices(s, 6144)|
            && (k < |blobs| ==> |blobs[k].args| == 2 && Decode(blobs[k].args[1]) == Some(Slices(s, 6144)[k]))
  {
    BlobsAreChunks(stream, Encode(s), k);
    ChunksDecode(s, 2048, k);
  }
}
