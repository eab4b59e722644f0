/** What is sent for each frame, and what the remote canvas then shows. */
module DeltaCanvas {
  import opened Results
  import opened DeltaStream

  // ---- codec, canvas ------------------------------------------------------------------------------------

  /** No bytes at all, bytes that are no picture, or a picture. */
  datatype Decoded = Nothing | Corrupt | Picture(image: Frame)

  /** The JPEG and base64 codecs; an encoder that fails returns the empty text. */
  datatype Codec = Codec(decode: string -> Decoded, encode: Image -> string)

  ghost predicate Lossless(c: Codec) {
    forall i: Image :: Proper(i) ==> c.encode(i) != "" && c.decode(c.encode(i)) == Picture(i)
  }

  /** One img/blob/end group. */
  datatype Sent = Sent(stream: int, x: nat, y: nat, text: string)

  /** The pixel of a canvas after the given images have been drawn onto it. */
  function Seen(c: Codec, sent: seq<Sent>, x: nat, y: nat): Option<Pixel> {
    if sent == [] then None
    else
      var last := sent[|sent| - 1];
      var d := c.decode(last.text);
      if d.Picture? && Inside(d.image, x - last.x, y - last.y) then Some(At(d.image, x - last.x, y - last.y))
      else Seen(c, sent[..|sent| - 1], x, y)
  }

  ghost predicate Shows(c: Codec, sent: seq<Sent>, i: Frame) {
    forall x, y :: Inside(i, x, y) ==> Seen(c, sent, x, y) == Some(At(i, x, y))
  }

  // ---- cutting a rectangle out ---------------------------------------------------------------------------

  predicate Fits(i: Image, r: Rect) { r.w > 0 && r.h > 0 && r.x + r.w <= i.w && r.y + r.h <= i.h }

  /** The first n rows of the rectangle, one after the other. */
  function Strips(i: Frame, r: Rect, n: nat): (s: seq<Pixel>)
    requires Fits(i, r) && n <= r.h
    ensures |s| == n * r.w
  {
    if n == 0 then [] else Strips(i, r, n - 1) + Row(i, r.y + n - 1)[r.x..r.x + r.w]
  }

  lemma {:induction false} StripsAt(i: Frame, r: Rect, n: nat, x: nat, y: nat)
    requires Fits(i, r) && n <= r.h && x < r.w && y < n
    ensures 0 <= y * r.w + x < n * r.w
    ensures Strips(i, r, n)[y * r.w + x] == At(i, r.x + x, r.y + y)
  {
    IndexInRange(r.w, n, x, y);
    if y < n - 1 {
      StripsAt(i, r, n - 1, x, y);
    } else {
      assert |Strips(i, r, n - 1)| == y * r.w;
    }
  }

  function Crop(i: Frame, r: Rect): (c: Frame)
    requires Fits(i, r)
    ensures c.w == r.w && c.h == r.h
    ensures forall x, y :: Inside(c, x, y) ==> At(c, x, y) == At(i, r.x + x, r.y + y)
  {
    var c := Image(r.w, r.h, Strips(i, r, r.h));
    assert forall x, y :: Inside(c, x, y) ==> At(c, x, y) == At(i, r.x + x, r.y + y) by {
      forall x, y | Inside(c, x, y) ensures At(c, x, y) == At(i, r.x + x, r.y + y) { StripsAt(i, r, r.h, x, y); }
    }
    c
  }

  predicate IsWhole(i: Image, r: Rect) { r.x == 0 && r.y == 0 && r.w == i.w }

  /** The text sent for a rectangle; at the origin and full width the original serves, whatever the height. */
  function Encoded(c: Codec, text: string, i: Frame, r: Rect): string
    requires Fits(i, r)
  {
    if IsWhole(i, r) || c.encode(Crop(i, r)) == "" then text else c.encode(Crop(i, r))
  }

  lemma StripOfRow(i: Frame, r: Rect, row: nat)
    requires Fits(i, r) && row < r.h
    ensures var src := (r.y + row) * i.w + r.x;
            0 <= src <= src + r.w <= |i.pixels| && Row(i, r.y + row)[r.x..r.x + r.w] == i.pixels[src..src + r.w]
  {
    RowInRange(i.w, i.h, r.y + row);
    var start := (r.y + row) * i.w;
    assert start + r.x + r.w <= |i.pixels|;
  }

  method EncodeRect(c: Codec, text: string, i: Frame, r: Rect) returns (out: string)
    requires Fits(i, r)
    ensures out == Encoded(c, text, i, r)
  {
    if r.x == 0 && r.y == 0 && r.w == i.w { return text; }
    var sub := [];
    hide At, Row;
    for row := 0 to r.h
      invariant sub == Strips(i, r, row)
    {
      StripOfRow(i, r, row);
      var src := (r.y + row) * i.w + r.x;
      sub := sub + i.pixels[src..src + r.w];
    }
    out := c.encode(Image(r.w, r.h, sub));
    if out == "" { out := text; }
  }

  // ---- one frame --------------------------------------------------------------------------------------------

  datatype Screen = Screen(previous: Option<Frame>, sent: seq<Sent>)

  predicate Mostly(i: Image, r: Rect) { r.w * r.h * 4 >= i.w * i.h * 3 }

  /** The rectangle to send: all of a frame of a new size, all of a frame that has mostly changed. */
  ghost predicate IsRegion(previous: Option<Frame>, i: Frame, r: Rect) {
    var whole := Rect(0, 0, i.w, i.h);
    if previous.Some? && SameSize(previous.value, i)
    then exists d :: IsDirty(previous.value, i, d) && r == if Mostly(i, d) then whole else d
    else r == whole
  }

  /** What flushing a frame does to the screen; a frame without any change is skipped. */
  ghost predicate Flushed(c: Codec, s: Screen, text: string, stream: int, s': Screen) {
    match c.decode(text)
    case Nothing => s' == s
    case Corrupt => s' == s.(sent := s.sent + [Sent(stream, 0, 0, text)])
    case Picture(i) =>
      if s.previous == Some(i) then s' == s
      else exists r :: Fits(i, r) && IsRegion(s.previous, i, r)
                       && s' == Screen(Some(i), s.sent + [Sent(stream, r.x, r.y, Encoded(c, text, i, r))])
  }

  class DeltaStreamer {
    const codec: Codec
    var prevPixels: seq<Pixel>
    var frameWidth: nat
    var frameHeight: nat
    var sent: seq<Sent>

    predicate Valid()
      reads this
    {
      frameWidth > 0 ==> Proper(Image(frameWidth, frameHeight, prevPixels))
    }

    function Contents(): Screen
      requires Valid()
      reads this
    {
      Screen(if frameWidth > 0 then Some(Image(frameWidth, frameHeight, prevPixels)) else None, sent)
    }

    constructor (codec: Codec)
      ensures Valid() && this.codec == codec && Contents() == Screen(None, [])
    {
      this.codec := codec;
      prevPixels, frameWidth, frameHeight, sent := [], 0, 0, [];
    }

    method FlushDelta(text: string, stream: int)
      requires Valid()
      modifies this
      ensures Valid()
      ensures Flushed(codec, old(Contents()), text, stream, Contents())
    {
      var decoded := codec.decode(text);
      if decoded.Nothing? { return; }
      if decoded.Corrupt? {
        sent := sent + [Sent(stream, 0, 0, text)];
        return;
      }
      var i: Frame := decoded.image;
      var r := Rect(0, 0, i.w, i.h);
      var hasPrev := |prevPixels| == |i.pixels| && frameWidth == i.w && frameHeight == i.h;
      ghost var before := Contents();
      if hasPrev {
        var previous: Frame := Image(frameWidth, frameHeight, prevPixels);
        var dirty := FindDirty(previous, i);
        if dirty.None? { return; }
        r := dirty.value;
      }
      ghost var d := r;
      prevPixels, frameWidth, frameHeight := i.pixels, i.w, i.h;
      if r.w * r.h * 4 >= i.w * i.h * 3 { r := Rect(0, 0, i.w, i.h); }
      assert IsRegion(before.previous, i, r);
      var out := EncodeRect(codec, text, i, r);
      sent := sent + [Sent(stream, r.x, r.y, out)];
    }
  }

  // ---- the canvas ------------------------------------------------------------------------------------------------

  /** The canvas shows the frame that the gateway remembers. */
  ghost predicate Synced(c: Codec, s: Screen) {
    s.previous.Some? ==> Shows(c, s.sent, s.previous.value)
  }

  lemma SeenAfter(c: Codec, sent: seq<Sent>, last: Sent, x: nat, y: nat)
    ensures Seen(c, sent + [last], x, y) ==
            var d := c.decode(last.text);
            if d.Picture? && Inside(d.image, x - last.x, y - last.y) then Some(At(d.image, x - last.x, y - last.y))
            else Seen(c, sent, x, y)
  {
    assert (sent + [last])[..|sent|] == sent;
  }

  /** Drawing the whole new frame shows it. */
  lemma WholeShows(c: Codec, s: Screen, text: string, stream: int, i: Frame)
    requires c.decode(text) == Picture(i)
    ensures Shows(c, s.sent + [Sent(stream, 0, 0, text)], i)
  {
    forall x, y | Inside(i, x, y) ensures Seen(c, s.sent + [Sent(stream, 0, 0, text)], x, y) == Some(At(i, x, y)) {
      SeenAfter(c, s.sent, Sent(stream, 0, 0, text), x, y);
    }
  }

  /** Drawing the changed rectangle over the previous frame shows the new one. */
  lemma DirtyShows(c: Codec, s: Screen, text: string, stream: int, i: Frame, r: Rect)
    requires Synced(c, s) && s.previous.Some? && SameSize(s.previous.value, i) && IsDirty(s.previous.value, i, r)
    requires c.decode(text) == Picture(Crop(i, r))
    ensures Shows(c, s.sent + [Sent(stream, r.x, r.y, text)], i)
  {
    hide At, Seen, Synced, IsDirty;
    forall x: nat, y: nat | Inside(i, x, y)
      ensures Seen(c, s.sent + [Sent(stream, r.x, r.y, text)], x, y) == Some(At(i, x, y))
    {
      DirtySeen(c, s, text, stream, i, r, x, y);
    }
  }

  lemma DirtySeen(c: Codec, s: Screen, text: string, stream: int, i: Frame, r: Rect, x: nat, y: nat)
    requires Synced(c, s) && s.previous.Some? && SameSize(s.previous.value, i) && IsDirty(s.previous.value, i, r)
    requires c.decode(text) == Picture(Crop(i, r)) && Inside(i, x, y)
    ensures Seen(c, s.sent + [Sent(stream, r.x, r.y, text)], x, y) == Some(At(i, x, y))
  {
    hide At;
    SeenAfter(c, s.sent, Sent(stream, r.x, r.y, text), x, y);
    if Covers(r, x, y) {
      assert Inside(Crop(i, r), x - r.x, y - r.y);
    } else {
      assert !Changed(s.previous.value, i, x, y);
    }
  }

  lemma CorruptIsInvisible(c: Codec, s: Screen, text: string, stream: int)
    requires Synced(c, s) && c.decode(text).Corrupt?
    ensures Synced(c, s.(sent := s.sent + [Sent(stream, 0, 0, text)]))
  {
    forall x, y ensures x >= 0 && y >= 0 ==> Seen(c, s.sent + [Sent(stream, 0, 0, text)], x, y) == Seen(c, s.sent, x, y) {
      if x >= 0 && y >= 0 { SeenAfter(c, s.sent, Sent(stream, 0, 0, text), x, y); }
    }
  }

  /** One frame: if the codec loses nothing, the canvas shows the frame that has just been flushed. */
  lemma FlushShows(c: Codec, s: Screen, text: string, stream: int, s': Screen)
    requires Lossless(c) && Synced(c, s) && Flushed(c, s, text, stream, s')
    ensures Synced(c, s')
    ensures c.decode(text).Picture? ==> s'.previous == Some(c.decode(text).image)
    ensures c.decode(text).Picture? ==> Shows(c, s'.sent, c.decode(text).image)
  {
    hide At, Shows, IsDirty;
    var d := c.decode(text);
    if d.Corrupt? { CorruptIsInvisible(c, s, text, stream); }
    if d.Picture? && s.previous != Some(d.image) {
      var i := d.image;
      var r :| Fits(i, r) && IsRegion(s.previous, i, r)
               && s' == Screen(Some(i), s.sent + [Sent(stream, r.x, r.y, Encoded(c, text, i, r))]);
      if IsWhole(i, r) {
        WholeShows(c, s, text, stream, i);
      } else {
        DirtyShows(c, s, Encoded(c, text, i, r), stream, i, r);
      }
    }
  }

  /** A sequence of frames and the screens between them. */
  ghost predicate Streamed(c: Codec, texts: seq<string>, screens: seq<Screen>) {
    && |screens| == |texts| + 1 && screens[0] == Screen(None, [])
    && forall k :: 0 <= k < |texts| ==> Flushed(c, screens[k], texts[k], k, screens[k + 1])
  }

  /** After any sequence of frames of any sizes the canvas shows the last one that could be decoded. */
  lemma {:induction false} CanvasShowsLastFrame(c: Codec, texts: seq<string>, screens: seq<Screen>, n: nat)
    requires Lossless(c) && Streamed(c, texts, screens) && n <= |texts|
    ensures Synced(c, screens[n])
    ensures n > 0 && c.decode(texts[n - 1]).Picture? ==>
              && Shows(c, screens[n].sent, c.decode(texts[n - 1]).image)
              && screens[n].previous == Some(c.decode(texts[n - 1]).image)
    ensures n > 0 && !c.decode(texts[n - 1]).Picture? ==> screens[n].previous == screens[n - 1].previous
  {
    if n > 0 {
      CanvasShowsLastFrame(c, texts, screens, n - 1);
      assert Flushed(c, screens[n - 1], texts[n - 1], n - 1, screens[n - 1 + 1]);
      FlushShows(c, screens[n - 1], texts[n - 1], n - 1, screens[n]);
    }
  }

  // ---- what is sent -------------------------------------------------------------------------------------------

  /** Frames that need no comparison: nothing at all, no picture, the first one, a new size, no change. */
  lemma UncomparedIsSent(c: Codec, s: Screen, text: string, stream: int, s': Screen)
    requires Flushed(c, s, text, stream, s')
    ensures c.decode(text).Nothing? ==> s' == s
    ensures c.decode(text).Corrupt? ==> s'.previous == s.previous && s'.sent == s.sent + [Sent(stream, 0, 0, text)]
    ensures c.decode(text).Picture? && s.previous == Some(c.decode(text).image) ==> s' == s
    ensures c.decode(text).Picture? && (s.previous.None? || !SameSize(s.previous.value, c.decode(text).image)) ==>
              s'.previous == Some(c.decode(text).image) && s'.sent == s.sent + [Sent(stream, 0, 0, text)]
  {
    hide IsDirty, Crop, Mostly;
  }

  /**
   * A change within the rectangle d: from three quarters of the frame on the whole frame goes out, as it
   * also does when d is as wide as the frame and begins at its top; otherwise the rectangle does, at its
   * place, encoded anew unless the encoder fails.
   */
  lemma ChangeIsSent(c: Codec, s: Screen, text: string, stream: int, s': Screen, d: Rect)
    requires c.decode(text).Picture? && s.previous.Some? && SameSize(s.previous.value, c.decode(text).image)
    requires IsDirty(s.previous.value, c.decode(text).image, d)
    requires Flushed(c, s, text, stream, s')
    ensures Fits(c.decode(text).image, d) && s'.previous == Some(c.decode(text).image)
    ensures var i := c.decode(text).image; var cut := c.encode(Crop(i, d));
            s'.sent == s.sent +
              [if 4 * (d.w * d.h) >= 3 * (i.w * i.h) || (d.x == 0 && d.y == 0 && d.w == i.w) then Sent(stream, 0, 0, text)
               else Sent(stream, d.x, d.y, if cut == "" then text else cut)]
  {
    var i := c.decode(text).image;
    DirtyFits(s.previous.value, i, d);
    hide IsDirty, Crop;
    forall e | IsDirty(s.previous.value, i, e) ensures e == d { DirtyIsUnique(s.previous.value, i, e, d); }
    assert IsWhole(i, Rect(0, 0, i.w, i.h));
  }

  lemma DirtyFits(previous: Frame, i: Frame, d: Rect)
    requires SameSize(previous, i) && IsDirty(previous, i, d)
    ensures Fits(i, d) && previous != i
  {
  }

  // ---- an encoder that fails ------------------------------------------------------------------------------------------

  /** The frame looks the same when shifted to the rectangle's corner. */
  ghost predicate Shifts(i: Frame, dx: nat, dy: nat) {
    forall x, y :: dx <= x < i.w && dy <= y < i.h ==> At(i, x - dx, y - dy) == At(i, x, y)
  }

  lemma SeenShifted(c: Codec, s: Screen, text: string, stream: int, r: Rect, x: nat, y: nat)
    requires c.decode(text).Picture? && Synced(c, s) && s.previous.Some?
    requires SameSize(s.previous.value, c.decode(text).image) && IsDirty(s.previous.value, c.decode(text).image, r)
    requires Inside(c.decode(text).image, x, y)
    ensures var i := c.decode(text).image;
            Seen(c, s.sent + [Sent(stream, r.x, r.y, text)], x, y) ==
            Some(if r.x <= x && r.y <= y then At(i, x - r.x, y - r.y) else At(i, x, y))
  {
    hide At;
    SeenAfter(c, s.sent, Sent(stream, r.x, r.y, text), x, y);
    if !(r.x <= x && r.y <= y) { assert !Changed(s.previous.value, c.decode(text).image, x, y); }
  }

  /** The whole frame drawn at the corner of the changed rectangle is right only for such frames. */
  lemma MisplacedShows(c: Codec, s: Screen, text: string, stream: int, r: Rect)
    requires c.decode(text).Picture? && Synced(c, s) && s.previous.Some?
    requires SameSize(s.previous.value, c.decode(text).image) && IsDirty(s.previous.value, c.decode(text).image, r)
    ensures var i := c.decode(text).image;
            Shows(c, s.sent + [Sent(stream, r.x, r.y, text)], i) <==> Shifts(i, r.x, r.y)
  {
    hide At, Seen, Synced, IsDirty;
    var i := c.decode(text).image;
    var sent := s.sent + [Sent(stream, r.x, r.y, text)];
    if Shifts(i, r.x, r.y) {
      forall x: nat, y: nat | Inside(i, x, y) ensures Seen(c, sent, x, y) == Some(At(i, x, y)) {
        SeenShifted(c, s, text, stream, r, x, y);
      }
    }
    if Shows(c, sent, i) {
      forall x: nat, y: nat | r.x <= x < i.w && r.y <= y < i.h ensures At(i, x - r.x, y - r.y) == At(i, x, y) {
        SeenShifted(c, s, text, stream, r, x, y);
      }
    }
  }

  /**
   * Sending the original text for a frame's rectangle does no harm: there is nothing to compare with,
   * nothing has changed, most of the frame has, or it looks the same when shifted to the rectangle's
   * corner, as every frame does whose rectangle starts at the origin.
   */
  ghost predicate Harmless(previous: Option<Frame>, i: Frame) {
    || previous.None? || !SameSize(previous.value, i) || previous.value == i
    || exists d :: IsDirty(previous.value, i, d) && (Mostly(i, d) || Shifts(i, d.x, d.y))
  }

  /** The encoder fails on the rectangle that has changed, if there is one. */
  ghost predicate EncoderFails(c: Codec, previous: Option<Frame>, i: Frame) {
    previous.Some? && SameSize(previous.value, i) ==>
      forall d :: IsDirty(previous.value, i, d) ==> c.encode(Crop(i, d)) == ""
  }

  /** The original text is sent then, for whatever rectangle. */
  lemma OriginalIsSent(c: Codec, s: Screen, text: string, stream: int, s': Screen) returns (r: Rect)
    requires c.decode(text).Picture? && Flushed(c, s, text, stream, s') && s.previous != Some(c.decode(text).image)
    requires EncoderFails(c, s.previous, c.decode(text).image)
    ensures var i := c.decode(text).image;
            IsRegion(s.previous, i, r) && s' == Screen(Some(i), s.sent + [Sent(stream, r.x, r.y, text)])
  {
    hide IsDirty, Crop;
    var i := c.decode(text).image;
    r :| Fits(i, r) && IsRegion(s.previous, i, r)
         && s' == Screen(Some(i), s.sent + [Sent(stream, r.x, r.y, Encoded(c, text, i, r))]);
  }

  lemma HarmlessExactly(previous: Frame, i: Frame, d: Rect)
    requires SameSize(previous, i) && IsDirty(previous, i, d) && previous != i
    ensures Harmless(Some(previous), i) <==> Mostly(i, d) || Shifts(i, d.x, d.y)
  {
    hide IsDirty, Shifts, Mostly;
    forall e | IsDirty(previous, i, e) ensures e == d { DirtyIsUnique(previous, i, e, d); }
  }

  /** When the encoder fails, flushing a frame leaves the canvas right if and only if it does no harm. */
  lemma FailedEncodeShows(c: Codec, s: Screen, text: string, stream: int, s': Screen)
    requires Synced(c, s) && c.decode(text).Picture? && Flushed(c, s, text, stream, s')
    requires EncoderFails(c, s.previous, c.decode(text).image)
    ensures Synced(c, s') <==> Harmless(s.previous, c.decode(text).image)
  {
    hide Shows, IsDirty, Shifts, Flushed, EncoderFails, Mostly;
    var i := c.decode(text).image;
    if s.previous == Some(i) {
      SkippedIsSynced(c, s, text, stream, s');
    } else {
      var r := OriginalIsSent(c, s, text, stream, s');
      if s.previous.Some? && SameSize(s.previous.value, i) {
        var d :| IsDirty(s.previous.value, i, d) && r == if Mostly(i, d) then Rect(0, 0, i.w, i.h) else d;
        HarmlessExactly(s.previous.value, i, d);
        if Mostly(i, d) {
          WholeShows(c, s, text, stream, i);
        } else {
          MisplacedShows(c, s, text, stream, d);
        }
      } else {
        WholeShows(c, s, text, stream, i);
      }
    }
  }

  lemma SkippedIsSynced(c: Codec, s: Screen, text: string, stream: int, s': Screen)
    requires Synced(c, s) && c.decode(text).Picture? && Flushed(c, s, text, stream, s')
    requires s.previous == Some(c.decode(text).image)
    ensures Synced(c, s')
  {
    hide Shows;
  }

  const BLACK := Pixel(0, 0, 0)
  const WHITE := Pixel(255, 255, 255)

  /** Two frames of two pixels; the second one has turned white. */
  const OLD: Frame := Image(2, 1, [BLACK, BLACK])
  const NEW: Frame := Image(2, 1, [BLACK, WHITE])

  /** A codec that knows the two frames and cannot encode. */
  function Broken(): Codec {
    Codec((t: string) => if t == "old" then Picture(OLD) else if t == "new" then Picture(NEW) else Nothing, i => "")
  }

  const SCREENS: seq<Screen> := [Screen(None, []), Screen(Some(OLD), [Sent(0, 0, 0, "old")]),
                                 Screen(Some(NEW), [Sent(0, 0, 0, "old"), Sent(1, 1, 0, "new")])]

  lemma SecondPixelIsDirty()
    ensures IsDirty(OLD, NEW, Rect(1, 0, 1, 1))
  {
    assert Changed(OLD, NEW, 1, 0);
  }

  lemma FirstFlushed()
    ensures Flushed(Broken(), SCREENS[0], "old", 0, SCREENS[1])
  {
    hide IsDirty;
    var whole := Rect(0, 0, 2, 1);
    assert Fits(OLD, whole) && IsRegion(None, OLD, whole);
    assert [] + [Sent(0, 0, 0, "old")] == [Sent(0, 0, 0, "old")];
  }

  lemma SecondFlushed()
    ensures Flushed(Broken(), SCREENS[1], "new", 1, SCREENS[2])
  {
    SecondPixelIsDirty();
    hide IsDirty, Crop;
    var d := Rect(1, 0, 1, 1);
    assert OLD.pixels[1] != NEW.pixels[1];
    assert Fits(NEW, d) && IsRegion(Some(OLD), NEW, d) && !IsWhole(NEW, d);
  }

  /** With that codec the canvas goes on showing a black pixel where the last frame has a white one. */
  lemma FailedEncodeShowsWrong()
    ensures Streamed(Broken(), ["old", "new"], SCREENS)
    ensures Seen(Broken(), SCREENS[2].sent, 1, 0) == Some(BLACK) && At(NEW, 1, 0) == WHITE
    ensures !Synced(Broken(), SCREENS[2])
  {
    FirstFlushed();
    SecondFlushed();
    hide Flushed;
    SeenAfter(Broken(), [Sent(0, 0, 0, "old")], Sent(1, 1, 0, "new"), 1, 0);
    assert Inside(NEW, 1, 0);
  }
}
