/**
 * A changed region of a remote desktop as a PNG image (`flush_dirty_region`, `encode_png_rgba` and
 * `write_png_chunk` in `guac_rdp.cpp`), against a reader of the PNG format.
 */
module RdpPng {
  import opened Results
  import opened Bytes

  // ---- cutting the region out -------------------------------------------------------------------------------

  /** A region of a framebuffer whose scan lines are `stride` octets apart, four octets a pixel. */
  datatype Region = Region(x: nat, y: nat, w: nat, h: nat)

  predicate InFramebuffer(fb: seq<byte>, stride: nat, r: Region) {
    (r.x + r.w) * 4 <= stride && (r.y + r.h) * stride <= |fb|
  }

  /** Octet k of a pixel is red, green, blue or alpha; the framebuffer has blue first. */
  function Swapped(k: nat): nat
    requires k < 4
  {
    if k == 0 then 2 else if k == 2 then 0 else k
  }

  /** Where octet k of pixel (col, row) of the region lies in the framebuffer. */
  function Source(stride: nat, r: Region, row: nat, col: nat, k: nat): nat
    requires k < 4
  {
    (r.y + row) * stride + r.x * 4 + (col * 4 + Swapped(k))
  }

  lemma SourceInRange(fb: seq<byte>, stride: nat, r: Region, row: nat, col: nat, k: nat)
    requires InFramebuffer(fb, stride, r) && row < r.h && col < r.w && k < 4
    ensures Source(stride, r, row, col, k) < |fb|
  {
    assert (r.y + row + 1) * stride <= (r.y + r.h) * stride;
    assert (r.y + row + 1) * stride == (r.y + row) * stride + stride;
  }

  /** One scan line of the region with its channels in PNG order. */
  function Line(fb: seq<byte>, stride: nat, r: Region, row: nat): (s: seq<byte>)
    requires InFramebuffer(fb, stride, r) && row < r.h
    ensures |s| == r.w * 4
    ensures forall col, k :: 0 <= col < r.w && 0 <= k < 4 ==>
              Source(stride, r, row, col, k) < |fb| && s[col * 4 + k] == fb[Source(stride, r, row, col, k)]
  {
    Pixels(fb, stride, r, row, r.w)
  }

  function Pixels(fb: seq<byte>, stride: nat, r: Region, row: nat, n: nat): (s: seq<byte>)
    requires InFramebuffer(fb, stride, r) && row < r.h && n <= r.w
    ensures |s| == n * 4
    ensures forall col, k :: 0 <= col < n && 0 <= k < 4 ==>
              Source(stride, r, row, col, k) < |fb| && s[col * 4 + k] == fb[Source(stride, r, row, col, k)]
  {
    if n == 0 then []
    else
      SourceInRange(fb, stride, r, row, n - 1, 0); SourceInRange(fb, stride, r, row, n - 1, 1);
      SourceInRange(fb, stride, r, row, n - 1, 2); SourceInRange(fb, stride, r, row, n - 1, 3);
      Pixels(fb, stride, r, row, n - 1) +
      [fb[Source(stride, r, row, n - 1, 0)], fb[Source(stride, r, row, n - 1, 1)],
       fb[Source(stride, r, row, n - 1, 2)], fb[Source(stride, r, row, n - 1, 3)]]
  }

  /** The first n scan lines, one after the other. */
  function Lines(fb: seq<byte>, stride: nat, r: Region, n: nat): (s: seq<byte>)
    requires InFramebuffer(fb, stride, r) && n <= r.h
    ensures |s| == n * (r.w * 4)
  {
    if n == 0 then [] else Lines(fb, stride, r, n - 1) + Line(fb, stride, r, n - 1)
  }

  /** One more pixel of a scan line. */
  lemma PixelStep(fb: seq<byte>, stride: nat, r: Region, row: nat, col: nat)
    requires InFramebuffer(fb, stride, r) && row < r.h && col < r.w
    ensures var p := (r.y + row) * stride + r.x * 4 + col * 4;
            && p >= 0 && p + 3 < |fb|
            && Pixels(fb, stride, r, row, col + 1) == Pixels(fb, stride, r, row, col) + [fb[p + 2], fb[p + 1], fb[p], fb[p + 3]]
  {
    SourceInRange(fb, stride, r, row, col, 3);
    var p := (r.y + row) * stride + r.x * 4 + col * 4;
    assert Source(stride, r, row, col, 0) == p + 2 && Source(stride, r, row, col, 1) == p + 1;
    assert Source(stride, r, row, col, 2) == p && Source(stride, r, row, col, 3) == p + 3;
  }

  /** The inner loop: one scan line goes to its place in the buffer. */
  method CopyLine(fb: seq<byte>, stride: nat, r: Region, row: nat, rgba: array<byte>, at: nat)
    requires InFramebuffer(fb, stride, r) && row < r.h && at + r.w * 4 <= rgba.Length
    modifies rgba
    ensures rgba[..at] == old(rgba[..at]) && rgba[at..at + r.w * 4] == Line(fb, stride, r, row)
  {
    hide Pixels;
    var src := (r.y + row) * stride + r.x * 4;
    NoPixels(fb, stride, r, row);
    for col := 0 to r.w
      invariant rgba[..at] == old(rgba[..at])
      invariant rgba[at..at + col * 4] == Pixels(fb, stride, r, row, col)
    {
      PixelStep(fb, stride, r, row, col);
      hide InFramebuffer;
      CopyPixel(fb, src + col * 4, rgba, at + col * 4);
      assert rgba[at..at + col * 4 + 4] == rgba[..at + col * 4][at..] + rgba[at + col * 4..at + col * 4 + 4];
      assert rgba[..at] == rgba[..at + col * 4][..at];
    }
  }

  lemma NoPixels(fb: seq<byte>, stride: nat, r: Region, row: nat)
    requires InFramebuffer(fb, stride, r) && row < r.h
    ensures Pixels(fb, stride, r, row, 0) == []
  {
  }

  /** Blue, green, red, alpha become red, green, blue, alpha. */
  method CopyPixel(fb: seq<byte>, src: nat, rgba: array<byte>, dst: nat)
    requires src + 3 < |fb| && dst + 3 < rgba.Length
    modifies rgba
    ensures rgba[..dst] == old(rgba[..dst])
    ensures rgba[dst..dst + 4] == [fb[src + 2], fb[src + 1], fb[src], fb[src + 3]]
  {
    rgba[dst + 0] := fb[src + 2];
    rgba[dst + 1] := fb[src + 1];
    rgba[dst + 2] := fb[src + 0];
    rgba[dst + 3] := fb[src + 3];
  }

  lemma LineFits(h: nat, line: nat, row: nat)
    requires row < h
    ensures 0 <= row * line && (row + 1) * line == row * line + line && row * line + line <= h * line
  {
    assert (row + 1) * line <= h * line;
  }

  /** The pixel loops: each octet of the region goes to its place in the buffer. */
  method Extract(fb: seq<byte>, stride: nat, r: Region) returns (rgba: array<byte>)
    requires InFramebuffer(fb, stride, r)
    ensures fresh(rgba) && rgba[..] == Lines(fb, stride, r, r.h)
  {
    var line := r.w * 4;
    rgba := new byte[r.h * line];
    var at := 0;
    for row := 0 to r.h
      invariant at == row * line <= rgba.Length == r.h * line
      invariant rgba[..at] == Lines(fb, stride, r, row)
    {
      LineFits(r.h, line, row);
      hide InFramebuffer, Line;
      CopyLine(fb, stride, r, row, rgba, at);
      assert rgba[..at + line] == rgba[..at] + rgba[at..at + line];
      at := at + line;
    }
    assert rgba[..] == rgba[..at];
  }

  // ---- the image format ---------------------------------------------------------------------------------------

  /** Compression and checksum as the libraries provide them; compression may fail. */
  datatype Codec = Codec(compress: seq<byte> -> Option<seq<byte>>, decompress: seq<byte> -> Option<seq<byte>>,
                         crc: seq<byte> -> nat)

  const LIMIT: nat := 0x1_0000_0000

  ghost predicate Sound(c: Codec) {
    && (forall s :: c.crc(s) < LIMIT)
    && (forall s :: c.compress(s).Some? ==> |c.compress(s).value| < LIMIT && c.decompress(c.compress(s).value) == Some(s))
  }

  const SIGNATURE: seq<byte> := [0x89, 0x50, 0x4E, 0x47, 0x0D, 0x0A, 0x1A, 0x0A]
  const IHDR: seq<byte> := [0x49, 0x48, 0x44, 0x52]
  const IDAT: seq<byte> := [0x49, 0x44, 0x41, 0x54]
  const IEND: seq<byte> := [0x49, 0x45, 0x4E, 0x44]

  function Chunk(c: Codec, kind: seq<byte>, data: seq<byte>): seq<byte> {
    Be(|data|, 4) + kind + data + Be(c.crc(kind + data), 4)
  }

  /** Eight bits, colour type 6, and no compression, filter or interlace options. */
  function Dimensions(w: nat, h: nat): seq<byte> { Be(w, 4) + Be(h, 4) + [8, 6, 0, 0, 0] }

  /** Every scan line is preceded by filter type 0. */
  function Filtered(rgba: seq<byte>, line: nat, n: nat): (s: seq<byte>)
    requires n * line <= |rgba|
    ensures |s| == n * (1 + line)
  {
    if n == 0 then []
    else
      assert (n - 1) * line + line == n * line;
      Filtered(rgba, line, n - 1) + [0] + rgba[(n - 1) * line..n * line]
  }

  /** The whole image, or nothing if there is no pixel or the compressor fails. */
  function Png(c: Codec, rgba: seq<byte>, w: nat, h: nat): Option<seq<byte>>
    requires |rgba| == h * (w * 4)
  {
    if w == 0 || h == 0 then None
    else
      match c.compress(Filtered(rgba, w * 4, h))
      case None => None
      case Some(z) =>
        Some(SIGNATURE + (Chunk(c, IHDR, Dimensions(w, h)) + (Chunk(c, IDAT, z) + Chunk(c, IEND, []))))
  }

  method WritePngChunk(c: Codec, png: seq<byte>, kind: seq<byte>, data: seq<byte>) returns (out: seq<byte>)
    ensures out == png + Chunk(c, kind, data)
  {
    out := png + Be(|data|, 4);
    out := out + kind;
    if |data| > 0 { out := out + data; }
    out := out + Be(c.crc(kind + data), 4);
    assert out == png + Chunk(c, kind, data);
  }

  lemma Regroup(a: seq<byte>, b: seq<byte>, c: seq<byte>, d: seq<byte>)
    ensures a + b + c + d == a + (b + (c + d))
  {
  }

  method EncodePngRgba(c: Codec, rgba: seq<byte>, w: nat, h: nat) returns (png: Option<seq<byte>>)
    requires |rgba| == h * (w * 4)
    ensures png == Png(c, rgba, w, h)
  {
    hide Chunk, Dimensions;
    if w == 0 || h == 0 { return None; }
    var line := w * 4;
    var raw: seq<byte> := [];
    for y := 0 to h
      invariant y * line <= |rgba| && raw == Filtered(rgba, line, y)
    {
      LineFits(h, line, y);
      raw := raw + [0];
      raw := raw + rgba[y * line..y * line + line];
    }
    var z := c.compress(raw);
    if z.None? { return None; }
    var out := WritePngChunk(c, SIGNATURE, IHDR, Dimensions(w, h));
    out := WritePngChunk(c, out, IDAT, z.value);
    out := WritePngChunk(c, out, IEND, []);
    Regroup(SIGNATURE, Chunk(c, IHDR, Dimensions(w, h)), Chunk(c, IDAT, z.value), Chunk(c, IEND, []));
    return Some(out);
  }

  // ---- a reader of the format -----------------------------------------------------------------------------------

  datatype Part = Part(kind: seq<byte>, data: seq<byte>, rest: seq<byte>)

  function ReadChunk(c: Codec, s: seq<byte>): Option<Part> {
    if |s| < 12 then None
    else
      var n := BeValue(s[..4]);
      if |s| < 12 + n then None
      else
        var kind, data := s[4..8], s[8..8 + n];
        if BeValue(s[8 + n..12 + n]) != c.crc(kind + data) then None else Some(Part(kind, data, s[12 + n..]))
  }

  /** The scan lines without their filter types, which must be 0. */
  function Unfiltered(raw: seq<byte>, line: nat, n: nat): Option<seq<byte>>
    requires |raw| == n * (1 + line)
    decreases n
  {
    if n == 0 then Some([])
    else
      assert n * (1 + line) == (n - 1) * (1 + line) + (1 + line);
      var last := raw[|raw| - (1 + line)..];
      match Unfiltered(raw[..|raw| - (1 + line)], line, n - 1)
      case None => None
      case Some(before) => if last[0] != 0 then None else Some(before + last[1..])
  }

  /** The image ends with an empty chunk of its own. */
  predicate Ends(c: Codec, s: seq<byte>) { ReadChunk(c, s) == Some(Part(IEND, [], [])) }

  /** Width, height and pixels of an image with eight-bit RGBA: three chunks, the last one empty, and nothing after it. */
  function ReadPng(c: Codec, s: seq<byte>): Option<(nat, nat, seq<byte>)> {
    if |s| < 8 || s[..8] != SIGNATURE then None
    else
      match ReadChunk(c, s[8..])
      case None => None
      case Some(head) =>
        if head.kind != IHDR || |head.data| != 13 || head.data[8..] != [8, 6, 0, 0, 0] then None
        else
          var w, h := BeValue(head.data[..4]), BeValue(head.data[4..8]);
          match ReadChunk(c, head.rest)
          case None => None
          case Some(body) =>
            if body.kind != IDAT || !Ends(c, body.rest) then None
            else
              match c.decompress(body.data)
              case None => None
              case Some(raw) =>
                if |raw| != h * (1 + w * 4) || Unfiltered(raw, w * 4, h).None? then None
                else Some((w, h, Unfiltered(raw, w * 4, h).value))
  }

  lemma ChunkRoundTrip(c: Codec, kind: seq<byte>, data: seq<byte>, rest: seq<byte>)
    requires Sound(c) && |kind| == 4 && |data| < LIMIT
    ensures ReadChunk(c, Chunk(c, kind, data) + rest) == Some(Part(kind, data, rest))
  {
    var crc := c.crc(kind + data);
    var s := Chunk(c, kind, data) + rest;
    var n := |data|;
    Pow256Values();
    BeValueOfBe(n, 4);
    BeValueOfBe(crc, 4);
    assert s == Be(n, 4) + (kind + (data + (Be(crc, 4) + rest)));
    assert s[..4] == Be(n, 4) && s[4..8] == kind;
    assert s[8..8 + n] == data;
    assert s[8 + n..12 + n] == Be(crc, 4);
    assert s[12 + n..] == rest;
  }

  lemma SplitAt(a: seq<byte>, b: seq<byte>)
    ensures (a + b)[..|a + b| - |b|] == a && (a + b)[|a + b| - |b|..] == b
  {
  }

  /** One scan line more. */
  lemma UnfilteredPush(before: seq<byte>, row: seq<byte>, n: nat)
    requires |before| == n * (1 + |row|)
    ensures |before + ([0] + row)| == (n + 1) * (1 + |row|)
    ensures Unfiltered(before + ([0] + row), |row|, n + 1) ==
            match Unfiltered(before, |row|, n) case None => None case Some(b) => Some(b + row)
  {
    SplitAt(before, [0] + row);
    assert ([0] + row)[1..] == row;
  }

  lemma {:induction false} FilterRoundTrip(rgba: seq<byte>, line: nat, n: nat)
    requires n * line <= |rgba|
    ensures Unfiltered(Filtered(rgba, line, n), line, n) == Some(rgba[..n * line])
    decreases n
  {
    if n > 0 {
      LineFits(n, line, n - 1);
      var from, to := (n - 1) * line, n * line;
      FilterRoundTrip(rgba, line, n - 1);
      var row := rgba[from..to];
      assert Filtered(rgba, line, n) == Filtered(rgba, line, n - 1) + ([0] + row);
      hide Filtered, Unfiltered;
      UnfilteredPush(Filtered(rgba, line, n - 1), row, n - 1);
      assert rgba[..to] == rgba[..from] + row;
    }
  }

  lemma DimensionsRead(w: nat, h: nat)
    requires w < LIMIT && h < LIMIT
    ensures var d := Dimensions(w, h);
            |d| == 13 && d[8..] == [8, 6, 0, 0, 0] && BeValue(d[..4]) == w && BeValue(d[4..8]) == h
  {
    Pow256Values();
    BeValueOfBe(w, 4);
    BeValueOfBe(h, 4);
    var d := Dimensions(w, h);
    assert d[..4] == Be(w, 4) && d[4..8] == Be(h, 4);
  }

  /** Whatever the compressor does, a reader of the format gets back the size and every pixel. */
  lemma PngRoundTrip(c: Codec, rgba: seq<byte>, w: nat, h: nat)
    requires Sound(c) && w < LIMIT && h < LIMIT && |rgba| == h * (w * 4) && Png(c, rgba, w, h).Some?
    ensures ReadPng(c, Png(c, rgba, w, h).value) == Some((w, h, rgba))
  {
    hide Chunk, ReadChunk, Filtered, Unfiltered, Dimensions, Sound;
    var raw := Filtered(rgba, w * 4, h);
    var z := c.compress(raw).value;
    CompressRoundTrip(c, raw);
    var tail := Chunk(c, IDAT, z) + Chunk(c, IEND, []);
    var body := Chunk(c, IHDR, Dimensions(w, h)) + tail;
    var s := SIGNATURE + body;
    assert s[..8] == SIGNATURE && s[8..] == body;
    DimensionsRead(w, h);
    ChunkRoundTrip(c, IHDR, Dimensions(w, h), tail);
    ChunkRoundTrip(c, IDAT, z, Chunk(c, IEND, []));
    ChunkRoundTrip(c, IEND, [], []);
    assert Chunk(c, IEND, []) + [] == Chunk(c, IEND, []);
    FilterRoundTrip(rgba, w * 4, h);
    assert rgba[..h * (w * 4)] == rgba;
  }

  lemma CompressRoundTrip(c: Codec, raw: seq<byte>)
    requires Sound(c) && c.compress(raw).Some?
    ensures |c.compress(raw).value| < LIMIT && c.decompress(c.compress(raw).value) == Some(raw)
  {
  }

  // ---- the region, pixel by pixel -----------------------------------------------------------------------------------

  lemma {:induction false} LinesAt(fb: seq<byte>, stride: nat, r: Region, n: nat, row: nat, i: nat)
    requires InFramebuffer(fb, stride, r) && row < n <= r.h && i < r.w * 4
    ensures row * (r.w * 4) + i < |Lines(fb, stride, r, n)|
    ensures Lines(fb, stride, r, n)[row * (r.w * 4) + i] == Line(fb, stride, r, row)[i]
    decreases n
  {
    var line := r.w * 4;
    assert (n - 1) * line + line == n * line;
    assert |Lines(fb, stride, r, n - 1)| == (n - 1) * line;
    if row < n - 1 {
      LinesAt(fb, stride, r, n - 1, row, i);
    }
  }

  /** The image that is sent for a region. */
  function ImageOf(c: Codec, fb: seq<byte>, stride: nat, r: Region): Option<seq<byte>>
    requires InFramebuffer(fb, stride, r)
  {
    Png(c, Lines(fb, stride, r, r.h), r.w, r.h)
  }

  /** Octet k of pixel (col, row) of an image that is w pixels wide. */
  function ChannelAt(rgba: seq<byte>, w: nat, row: nat, col: nat, k: nat): Option<byte> {
    var i := row * (w * 4) + (col * 4 + k);
    if i < |rgba| then Some(rgba[i]) else None
  }

  /** What arrives: octet k of pixel (col, row) is the framebuffer's, with red and blue exchanged. */
  lemma RegionArrives(c: Codec, fb: seq<byte>, stride: nat, r: Region, row: nat, col: nat, k: nat)
    requires Sound(c) && InFramebuffer(fb, stride, r) && r.w < LIMIT && r.h < LIMIT
    requires ImageOf(c, fb, stride, r).Some? && row < r.h && col < r.w && k < 4
    ensures Source(stride, r, row, col, k) < |fb|
    ensures match ReadPng(c, ImageOf(c, fb, stride, r).value)
            case None => false
            case Some((w, h, rgba)) =>
              w == r.w && h == r.h && ChannelAt(rgba, w, row, col, k) == Some(fb[Source(stride, r, row, col, k)])
  {
    hide Png, ReadPng, Lines;
    PngRoundTrip(c, Lines(fb, stride, r, r.h), r.w, r.h);
    LinesAt(fb, stride, r, r.h, row, col * 4 + k);
    assert Line(fb, stride, r, row)[col * 4 + k] == fb[Source(stride, r, row, col, k)];
  }

  // ---- the image, octet by octet ------------------------------------------------------------------------------------

  /** Four octets, the most significant one first. */
  function Word(v: nat): seq<byte>
    requires v < LIMIT
  {
    [v / 0x100_0000, v / 0x1_0000 % 0x100, v / 0x100 % 0x100, v % 0x100]
  }

  /** A chunk is its length, its kind, its data and the checksum of kind and data. */
  ghost predicate IsChunk(c: Codec, s: seq<byte>, kind: seq<byte>, data: seq<byte>)
    requires |kind| == 4 && |data| < LIMIT
  {
    && |s| == 12 + |data|
    && s[..4] == Word(|data|) && s[4..8] == kind && s[8..8 + |data|] == data
    && BeValue(s[8 + |data|..]) == c.crc(kind + data)
  }

  lemma ChunkOctets(c: Codec, kind: seq<byte>, data: seq<byte>)
    requires Sound(c) && |kind| == 4 && |data| < LIMIT
    ensures IsChunk(c, Chunk(c, kind, data), kind, data)
  {
    var s, n, crc := Chunk(c, kind, data), |data|, c.crc(kind + data);
    BeOctets(n);
    Pow256Values();
    BeValueOfBe(crc, 4);
    assert s == Be(n, 4) + (kind + data) + Be(crc, 4);
    assert s[..4] == Be(n, 4) && s[8 + n..] == Be(crc, 4);
  }

  /** The image of w by h pixels whose compressed scan lines are z, in octets. */
  ghost predicate IsImage(c: Codec, s: seq<byte>, w: nat, h: nat, z: seq<byte>)
    requires w < LIMIT && h < LIMIT && |z| < LIMIT
  {
    var n := |z|;
    && |s| == 57 + n
    && s[..8] == [0x89, 0x50, 0x4E, 0x47, 0x0D, 0x0A, 0x1A, 0x0A]
    && IsChunk(c, s[8..33], [0x49, 0x48, 0x44, 0x52], Word(w) + Word(h) + [8, 6, 0, 0, 0])
    && IsChunk(c, s[33..45 + n], [0x49, 0x44, 0x41, 0x54], z)
    && IsChunk(c, s[45 + n..], [0x49, 0x45, 0x4E, 0x44], [])
  }

  lemma Slices(a: seq<byte>, b: seq<byte>, d: seq<byte>, e: seq<byte>)
    ensures var s := a + (b + (d + e)); var i, j := |a| + |b|, |a| + |b| + |d|;
            s[..|a|] == a && s[|a|..i] == b && s[i..j] == d && s[j..] == e
  {
  }

  /** What is written: the signature, the header, the compressed scan lines and the end. */
  lemma PngOctets(c: Codec, rgba: seq<byte>, w: nat, h: nat)
    requires Sound(c) && w < LIMIT && h < LIMIT && |rgba| == h * (w * 4)
    ensures Png(c, rgba, w, h).Some? <==> w > 0 && h > 0 && c.compress(Filtered(rgba, w * 4, h)).Some?
    ensures Png(c, rgba, w, h).Some? ==>
              var z := c.compress(Filtered(rgba, w * 4, h)).value;
              |z| < LIMIT && IsImage(c, Png(c, rgba, w, h).value, w, h, z)
  {
    hide Chunk, Sound, IsChunk, Filtered;
    var raw := Filtered(rgba, w * 4, h);
    if Png(c, rgba, w, h).Some? {
      CompressRoundTrip(c, raw);
      var z := c.compress(raw).value;
      BeOctets(w);
      BeOctets(h);
      ChunkOctets(c, IHDR, Dimensions(w, h));
      ChunkOctets(c, IDAT, z);
      ChunkOctets(c, IEND, []);
      ChunkSize(c, IHDR, Dimensions(w, h));
      ChunkSize(c, IDAT, z);
      ChunkSize(c, IEND, []);
      Slices(SIGNATURE, Chunk(c, IHDR, Dimensions(w, h)), Chunk(c, IDAT, z), Chunk(c, IEND, []));
    }
  }

  lemma ChunkSize(c: Codec, kind: seq<byte>, data: seq<byte>)
    requires |kind| == 4
    ensures |Chunk(c, kind, data)| == 12 + |data|
  {
  }

  /** Each scan line is preceded by filter type 0 and stands unchanged. */
  lemma {:induction false} ScanLines(rgba: seq<byte>, line: nat, n: nat, row: nat)
    requires n * line <= |rgba| && row < n
    ensures 0 <= row * line && row * line + line <= |rgba| && 0 <= row * (1 + line)
    ensures row * (1 + line) + 1 + line <= |Filtered(rgba, line, n)|
    ensures var at := row * (1 + line);
            Filtered(rgba, line, n)[at..at + 1 + line] == [0] + rgba[row * line..row * line + line]
    decreases n
  {
    LineFits(n, line, row);
    LineFits(n, 1 + line, row);
    LineFits(n, line, n - 1);
    LineFits(n, 1 + line, n - 1);
    if row < n - 1 {
      ScanLines(rgba, line, n - 1, row);
    }
  }
}
