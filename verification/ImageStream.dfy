/**
 * Images as img/blob/end instructions: what the gateway emits (`send_guac_image`, the end of
 * `flush_dirty_region`) and how the browser puts it together again (`handleInstruction`).
 */
module ImageStream {
  import opened Results
  import opened Decimal
  import opened GuacParser
  import opened GuacTheorems
  import opened GuacBrowser
  import opened Unicode
  import opened GuacAgreement

  // ---- the gateway ----------------------------------------------------------------------------------------

  const CHUNK: nat := 8192

  /** `std::to_string` of an int. */
  function ToText(n: int): string { if n < 0 then "-" + Digits(-n) else Digits(n) }

  /** One image to be shown: stream id, compositing operation, type, position and base64 text. */
  datatype Picture = Picture(stream: int, operation: string, mimetype: string, x: int, y: int, text: string)

  function Blobs(stream: int, text: string): seq<Instruction>
    decreases |text|
  {
    if text == "" then []
    else if |text| <= CHUNK then [Instruction("blob", [ToText(stream), text])]
    else [Instruction("blob", [ToText(stream), text[..CHUNK]])] + Blobs(stream, text[CHUNK..])
  }

  function Start(p: Picture): Instruction {
    Instruction("img", [ToText(p.stream), p.operation, "0", p.mimetype, ToText(p.x), ToText(p.y)])
  }

  function End(stream: int): Instruction { Instruction("end", [ToText(stream)]) }

  function Emission(p: Picture): seq<Instruction> { [Start(p)] + Blobs(p.stream, p.text) + [End(p.stream)] }

  lemma NoBlobs(stream: int)
    ensures Blobs(stream, "") == []
  {
  }

  /** The blob that begins at an offset, and those behind it. */
  lemma NextBlob(stream: int, text: string, off: nat)
    requires off < |text|
    ensures var end := if off + CHUNK < |text| then off + CHUNK else |text|;
            Blobs(stream, text[off..]) ==
            [Instruction("blob", [ToText(stream), text[off..end]])] +
            Blobs(stream, if off + CHUNK < |text| then text[off + CHUNK..] else "")
  {
    hide ToText;
    var rest := text[off..];
    if off + CHUNK < |text| {
      assert rest[..CHUNK] == text[off..off + CHUNK] && rest[CHUNK..] == text[off + CHUNK..];
    } else {
      assert rest == text[off..|text|];
    }
  }

  method SendImage(p: Picture) returns (sent: seq<Instruction>)
    ensures sent == Emission(p)
  {
    hide Blobs, ToText;
    NoBlobs(p.stream);
    sent := [Start(p)];
    var off := 0;
    while off < |p.text|
      invariant 0 <= off
      invariant Emission(p) == sent + Blobs(p.stream, if off < |p.text| then p.text[off..] else "") + [End(p.stream)]
      decreases |p.text| - off
    {
      var chunk := p.text[off..if off + CHUNK < |p.text| then off + CHUNK else |p.text|];
      var blob := Instruction("blob", [ToText(p.stream), chunk]);
      ghost var after := if off + CHUNK < |p.text| then p.text[off + CHUNK..] else "";
      NextBlob(p.stream, p.text, off);
      assert sent + ([blob] + Blobs(p.stream, after)) == sent + [blob] + Blobs(p.stream, after);
      sent := sent + [blob];
      off := off + CHUNK;
    }
    sent := sent + [End(p.stream)];
  }

  // ---- the browser ------------------------------------------------------------------------------------------

  datatype Stream = Stream(parts: seq<string>, x: int, y: int, mimetype: string)

  /** One call of drawImage, and the stream whose end caused it. */
  datatype Draw = Draw(stream: Option<string>, x: int, y: int, mimetype: string, text: string)

  /** The open streams, the drawings, what the terminal has been given, and whether the socket has been closed. */
  datatype Hook = Hook(streams: map<Option<string>, Stream>, drawn: seq<Draw>, terminal: seq<string>, closed: bool)

  const EMPTY := Hook(map[], [], [], false)

  /** An argument that is missing reads as undefined. */
  function Arg(i: Instruction, k: nat): Option<string> { if k < |i.args| then Some(i.args[k]) else None }

  /** `parseInt(…) || 0` */
  function Coordinate(a: Option<string>): int {
    if a.None? then 0
    else
      match ParseInt(a.value)
      case Some(n) => n
      case None => 0
  }

  function JoinParts(parts: seq<string>): string { if parts == [] then "" else parts[0] + JoinParts(parts[1..]) }

  /** The collected parts of a stream, joined and drawn. */
  function DrawOf(id: Option<string>, s: Stream): Draw { Draw(id, s.x, s.y, s.mimetype, JoinParts(s.parts)) }

  /** What the last branch hands to the terminal. */
  function ToTerminal(i: Instruction, ssh: bool): seq<string> {
    if i.opcode == "blob" && ssh && Arg(i, 1).Some? && Arg(i, 1).value != "" then [Arg(i, 1).value] else []
  }

  /** One instruction; `ssh` tells whether the session is a terminal. */
  function Handle(h: Hook, i: Instruction, ssh: bool): Hook {
    var id := Arg(i, 0);
    if i.opcode == "img" then
      h.(streams := h.streams[id := Stream([], Coordinate(Arg(i, 4)), Coordinate(Arg(i, 5)),
                                           if Arg(i, 3).Some? then Arg(i, 3).value else "image/jpeg")])
    else if i.opcode == "blob" then
      if id in h.streams && Arg(i, 1).Some? && Arg(i, 1).value != ""
      then h.(streams := h.streams[id := h.streams[id].(parts := h.streams[id].parts + [Arg(i, 1).value])])
      else h
    else if i.opcode == "end" then
      if id in h.streams then
        h.(drawn := h.drawn + [DrawOf(id, h.streams[id])], streams := h.streams - {id})
      else h.(closed := h.closed || ssh)
    else h.(terminal := h.terminal + ToTerminal(i, ssh))
  }

  function HandleAll(h: Hook, list: seq<Instruction>, ssh: bool): Hook
    decreases |list|
  {
    if list == [] then h else HandleAll(Handle(h, list[0], ssh), list[1..], ssh)
  }

  class ImageHook {
    const ssh: bool
    var streams: map<Option<string>, Stream>
    var drawn: seq<Draw>
    var terminal: seq<string>
    var closed: bool

    function Contents(): Hook
      reads this
    {
      Hook(streams, drawn, terminal, closed)
    }

    constructor (ssh: bool)
      ensures Contents() == EMPTY && this.ssh == ssh
    {
      this.ssh := ssh;
      streams, drawn, terminal, closed := map[], [], [], false;
    }

    method HandleInstruction(i: Instruction)
      modifies this
      ensures Contents() == Handle(old(Contents()), i, ssh)
    {
      var id := Arg(i, 0);
      match i.opcode
      case "img" =>
        var mimetype := if Arg(i, 3).Some? then Arg(i, 3).value else "image/jpeg";
        streams := streams[id := Stream([], Coordinate(Arg(i, 4)), Coordinate(Arg(i, 5)), mimetype)];
      case "blob" =>
        var chunk := Arg(i, 1);
        if id in streams && chunk.Some? && chunk.value != "" {
          streams := streams[id := streams[id].(parts := streams[id].parts + [chunk.value])];
        }
      case "end" =>
        if id in streams {
          drawn := drawn + [DrawOf(id, streams[id])];
          streams := streams - {id};
        } else if ssh {
          closed := true;
        }
      case _ =>
        HandleOther(i);
    }

    method HandleOther(i: Instruction)
      modifies this`terminal
      ensures terminal == old(terminal) + ToTerminal(i, ssh)
    {
      if i.opcode == "blob" && ssh {
        var data := Arg(i, 1);
        if data.Some? && data.value != "" {
          terminal := terminal + [data.value];
        }
      }
    }
  }

  // ---- one image ----------------------------------------------------------------------------------------------

  lemma {:induction false} HandleAllConcat(h: Hook, a: seq<Instruction>, b: seq<Instruction>, ssh: bool)
    ensures HandleAll(h, a + b, ssh) == HandleAll(HandleAll(h, a, ssh), b, ssh)
    decreases |a|
  {
    if a == [] {
      assert a + b == b;
    } else {
      assert (a + b)[1..] == a[1..] + b;
      HandleAllConcat(Handle(h, a[0], ssh), a[1..], b, ssh);
    }
  }

  lemma {:induction false} JoinAppend(parts: seq<string>, chunk: string)
    ensures JoinParts(parts + [chunk]) == JoinParts(parts) + chunk
  {
    if parts == [] {
      assert [chunk][1..] == [] && chunk + "" == chunk;
    } else {
      assert (parts + [chunk])[1..] == parts[1..] + [chunk];
      JoinAppend(parts[1..], chunk);
    }
  }

  /** The blobs of a text add exactly that text to the stream. */
  lemma {:induction false} BlobsCollect(h: Hook, stream: int, text: string, ssh: bool)
    requires Some(ToText(stream)) in h.streams
    ensures var id := Some(ToText(stream)); var g := HandleAll(h, Blobs(stream, text), ssh);
            && id in g.streams && g == h.(streams := h.streams[id := g.streams[id]])
            && g.streams[id] == h.streams[id].(parts := g.streams[id].parts)
            && JoinParts(g.streams[id].parts) == JoinParts(h.streams[id].parts) + text
    decreases |text|
  {
    var id := Some(ToText(stream));
    var parts := h.streams[id].parts;
    if text == "" {
      assert h.streams[id := h.streams[id]] == h.streams;
      assert JoinParts(parts) + "" == JoinParts(parts);
    } else {
      var chunk := if |text| <= CHUNK then text else text[..CHUNK];
      var rest := text[|chunk|..];
      assert text == chunk + rest;
      var blob := Instruction("blob", [ToText(stream), chunk]);
      assert Blobs(stream, text) == [blob] + Blobs(stream, rest);
      var h1 := Handle(h, blob, ssh);
      JoinAppend(parts, chunk);
      BlobsCollect(h1, stream, rest, ssh);
      assert JoinParts(parts) + chunk + rest == JoinParts(parts) + (chunk + rest);
      assert h1.streams[id := HandleAll(h1, Blobs(stream, rest), ssh).streams[id]] ==
             h.streams[id := HandleAll(h1, Blobs(stream, rest), ssh).streams[id]];
    }
  }

  lemma ParseIntOfNegative(digits: string)
    requires AllDigits(digits) && digits != ""
    ensures ParseInt("-" + digits) == Some(0 - Value(digits))
  {
    hide Value, DigitRun;
    DigitRunOf(digits, "");
    assert ("-" + digits)[1..] == digits && digits + "" == digits && digits[..|digits|] == digits;
  }

  lemma CoordinateOfText(n: int)
    ensures Coordinate(Some(ToText(n))) == n
  {
    if n < 0 {
      ValueOfDigits(-n);
      ParseIntOfNegative(Digits(-n));
      hide ParseInt, Digits;
    } else {
      ValueOfDigits(n);
      ParseIntOfDigits(Digits(n));
    }
  }

  lemma NumberText(n: int)
    ensures ToText(n)[0] == '-' <==> n < 0
    ensures ToText(0) == "0" && ToText(-5) == "-5"
  {
  }

  /** An image of three characters, instruction by instruction. */
  lemma EmissionOfThree()
    ensures Emission(Picture(7, "over", "image/jpeg", 0, -5, "abc")) ==
            [Instruction("img", ["7", "over", "0", "image/jpeg", "0", "-5"]), Instruction("blob", ["7", "abc"]),
             Instruction("end", ["7"])]
  {
    NumberText(7);
  }

  /** A position that is missing or is no number is 0, and a missing type is JPEG. */
  lemma MissingArguments(h: Hook, ssh: bool)
    ensures Coordinate(None) == 0 && Coordinate(Some("")) == 0 && Coordinate(Some("x")) == 0
    ensures Handle(h, Instruction("img", ["7"]), ssh) == h.(streams := h.streams[Some("7") := Stream([], 0, 0, "image/jpeg")])
  {
  }

  /** What drawing the picture means. */
  function Drawing(p: Picture): Draw { Draw(Some(ToText(p.stream)), p.x, p.y, p.mimetype, p.text) }

  /** An image that is emitted without interruption is drawn once, where and as it was sent. */
  lemma EmissionIsDrawn(h: Hook, p: Picture, ssh: bool)
    ensures HandleAll(h, Emission(p), ssh) ==
            h.(drawn := h.drawn + [Drawing(p)], streams := h.streams - {Some(ToText(p.stream))})
  {
    var id := Some(ToText(p.stream));
    CoordinateOfText(p.x);
    CoordinateOfText(p.y);
    var h1 := Handle(h, Start(p), ssh);
    assert h1 == h.(streams := h.streams[id := Stream([], p.x, p.y, p.mimetype)]);
    var body := Blobs(p.stream, p.text);
    assert Emission(p) == [Start(p)] + (body + [End(p.stream)]);
    BlobsCollect(h1, p.stream, p.text, ssh);
    HandleAllConcat(h1, body, [End(p.stream)], ssh);
    var h2 := HandleAll(h1, body, ssh);
    assert "" + p.text == p.text;
    assert h2.streams - {id} == h.streams - {id};
    assert HandleAll(h2, [End(p.stream)], ssh) == Handle(h2, End(p.stream), ssh);
  }

  // ---- interleaved images ---------------------------------------------------------------------------------------

  predicate Concerns(i: Instruction, id: Option<string>) {
    (i.opcode == "img" || i.opcode == "blob" || i.opcode == "end") && Arg(i, 0) == id
  }

  /** The instructions of one stream. */
  function Project(list: seq<Instruction>, id: Option<string>): seq<Instruction> {
    if list == [] then [] else (if Concerns(list[0], id) then [list[0]] else []) + Project(list[1..], id)
  }

  function DrawsOf(drawn: seq<Draw>, id: Option<string>): seq<Draw> {
    if drawn == [] then []
    else DrawsOf(drawn[..|drawn| - 1], id) + if drawn[|drawn| - 1].stream == id then [drawn[|drawn| - 1]] else []
  }

  /** Two hooks that look the same to one stream. */
  predicate SameFor(h: Hook, g: Hook, id: Option<string>) {
    && (id in h.streams <==> id in g.streams) && (id in h.streams ==> h.streams[id] == g.streams[id])
    && DrawsOf(h.drawn, id) == DrawsOf(g.drawn, id)
  }

  lemma DrawsPush(drawn: seq<Draw>, d: Draw, id: Option<string>)
    ensures DrawsOf(drawn + [d], id) == DrawsOf(drawn, id) + if d.stream == id then [d] else []
  {
    assert (drawn + [d])[..|drawn|] == drawn;
  }

  lemma HandleSeparates(h: Hook, g: Hook, i: Instruction, id: Option<string>, ssh: bool)
    requires SameFor(h, g, id)
    ensures Concerns(i, id) ==> SameFor(Handle(h, i, ssh), Handle(g, i, ssh), id)
    ensures !Concerns(i, id) ==> SameFor(Handle(h, i, ssh), g, id)
  {
    hide DrawsOf, Coordinate;
    var a := Arg(i, 0);
    if i.opcode == "end" {
      if a in h.streams { DrawsPush(h.drawn, DrawOf(a, h.streams[a]), id); }
      if a in g.streams { DrawsPush(g.drawn, DrawOf(a, g.streams[a]), id); }
      assert DrawsOf(h.drawn, id) + [] == DrawsOf(h.drawn, id);
    }
  }

  /** Streams do not disturb each other: what happens to one depends on its own instructions only. */
  lemma {:induction false} StreamsAreSeparate(h: Hook, g: Hook, list: seq<Instruction>, id: Option<string>, ssh: bool)
    requires SameFor(h, g, id)
    ensures SameFor(HandleAll(h, list, ssh), HandleAll(g, Project(list, id), ssh), id)
    decreases |list|
  {
    if list != [] {
      HandleSeparates(h, g, list[0], id, ssh);
      var rest := Project(list[1..], id);
      assert ([list[0]] + rest)[1..] == rest && [] + rest == rest;
      var g1 := if Concerns(list[0], id) then Handle(g, list[0], ssh) else g;
      StreamsAreSeparate(Handle(h, list[0], ssh), g1, list[1..], id, ssh);
    }
  }

  /** The emissions of pictures with distinct streams, in any interleaving with each other and with other instructions. */
  ghost predicate Interleaves(list: seq<Instruction>, pictures: seq<Picture>) {
    && (forall j, k :: 0 <= j < k < |pictures| ==> pictures[j].stream != pictures[k].stream)
    && (forall k :: 0 <= k < |pictures| ==> Project(list, Some(ToText(pictures[k].stream))) == Emission(pictures[k]))
    && (forall id :: Project(list, id) != [] ==> exists k :: 0 <= k < |pictures| && Some(ToText(pictures[k].stream)) == id)
  }

  /** Each picture is drawn exactly once, nothing else is drawn, and no stream is left over. */
  lemma PicturesAreDrawnOnce(list: seq<Instruction>, pictures: seq<Picture>, ssh: bool, id: Option<string>)
    requires Interleaves(list, pictures)
    ensures var h := HandleAll(EMPTY, list, ssh);
            && h.streams == map[]
            && (forall k :: 0 <= k < |pictures| ==>
                  DrawsOf(h.drawn, Some(ToText(pictures[k].stream))) == [Drawing(pictures[k])])
            && ((forall k :: 0 <= k < |pictures| ==> Some(ToText(pictures[k].stream)) != id) ==> DrawsOf(h.drawn, id) == [])
  {
    var h := HandleAll(EMPTY, list, ssh);
    forall i: Option<string> ensures i !in h.streams { StreamIsOver(list, pictures, ssh, i); }
    forall k | 0 <= k < |pictures| ensures DrawsOf(h.drawn, Some(ToText(pictures[k].stream))) == [Drawing(pictures[k])] {
      OnePicture(list, pictures[k], ssh);
    }
    if forall k :: 0 <= k < |pictures| ==> Some(ToText(pictures[k].stream)) != id {
      StreamsAreSeparate(EMPTY, EMPTY, list, id, ssh);
    }
  }

  lemma OnePicture(list: seq<Instruction>, p: Picture, ssh: bool)
    requires Project(list, Some(ToText(p.stream))) == Emission(p)
    ensures DrawsOf(HandleAll(EMPTY, list, ssh).drawn, Some(ToText(p.stream))) == [Drawing(p)]
    ensures Some(ToText(p.stream)) !in HandleAll(EMPTY, list, ssh).streams
  {
    hide HandleAll, Emission, Project;
    var id := Some(ToText(p.stream));
    StreamsAreSeparate(EMPTY, EMPTY, list, id, ssh);
    EmissionIsDrawn(EMPTY, p, ssh);
    DrawsPush([], Drawing(p), id);
    assert [] + [Drawing(p)] == [Drawing(p)];
  }

  lemma StreamIsOver(list: seq<Instruction>, pictures: seq<Picture>, ssh: bool, id: Option<string>)
    requires Interleaves(list, pictures)
    ensures id !in HandleAll(EMPTY, list, ssh).streams
  {
    if Project(list, id) == [] {
      StreamsAreSeparate(EMPTY, EMPTY, list, id, ssh);
    } else {
      var k :| 0 <= k < |pictures| && Some(ToText(pictures[k].stream)) == id;
      OnePicture(list, pictures[k], ssh);
    }
  }

  // ---- closing a terminal ---------------------------------------------------------------------------------------

  /** The instruction at k ends a stream that no image has opened, or that has been ended already. */
  predicate EndsNothing(list: seq<Instruction>, k: nat)
    requires k < |list|
  {
    list[k].opcode == "end" && !Opened(list[..k], Arg(list[k], 0))
  }

  /** Whether the last of the instructions that open or end a stream opens it. */
  predicate Opened(list: seq<Instruction>, id: Option<string>) {
    list != [] &&
    (var last, init := list[|list| - 1], list[..|list| - 1];
     if Arg(last, 0) == id && last.opcode == "img" then true
     else if Arg(last, 0) == id && last.opcode == "end" then false
     else Opened(init, id))
  }

  lemma NothingHandled(h: Hook, ssh: bool)
    ensures HandleAll(h, [], ssh) == h
  {
  }

  lemma HandleLast(h: Hook, list: seq<Instruction>, ssh: bool)
    requires list != []
    ensures HandleAll(h, list, ssh) == Handle(HandleAll(h, list[..|list| - 1], ssh), list[|list| - 1], ssh)
  {
    var init, last := list[..|list| - 1], list[|list| - 1];
    assert list == init + [last];
    HandleAllConcat(h, init, [last], ssh);
    assert [last][1..] == [];
  }

  lemma {:induction false} StreamsAreOpened(list: seq<Instruction>, id: Option<string>, ssh: bool)
    ensures id in HandleAll(EMPTY, list, ssh).streams <==> Opened(list, id)
    decreases |list|
  {
    if list != [] {
      HandleLast(EMPTY, list, ssh);
      StreamsAreOpened(list[..|list| - 1], id, ssh);
    }
  }

  lemma ClosedByOne(h: Hook, i: Instruction, ssh: bool)
    ensures Handle(h, i, ssh).closed <==> h.closed || (ssh && i.opcode == "end" && Arg(i, 0) !in h.streams)
  {
  }

  /** The session is closed if and only if it is a terminal and an `end` has come for a stream that is not open. */
  lemma {:induction false} ClosedExactly(list: seq<Instruction>, ssh: bool)
    ensures HandleAll(EMPTY, list, ssh).closed <==> ssh && exists k :: 0 <= k < |list| && EndsNothing(list, k)
    decreases |list|
  {
    hide HandleAll, Handle, Opened;
    if list == [] {
      NothingHandled(EMPTY, ssh);
    } else {
      var init, n := list[..|list| - 1], |list| - 1;
      HandleLast(EMPTY, list, ssh);
      ClosedByOne(HandleAll(EMPTY, init, ssh), list[n], ssh);
      ClosedExactly(init, ssh);
      StreamsAreOpened(init, Arg(list[n], 0), ssh);
      forall k | 0 <= k < n ensures EndsNothing(list, k) == EndsNothing(init, k) { assert list[..k] == init[..k]; }
      assert EndsNothing(list, n) <==> list[n].opcode == "end" && !Opened(init, Arg(list[n], 0));
    }
  }

  // ---- a terminal's output -----------------------------------------------------------------------------------------

  /** A blob for a stream that is not open, which in a terminal session should be terminal output. */
  predicate IsOutput(list: seq<Instruction>, k: nat, ssh: bool)
    requires k < |list|
  {
    && ssh && list[k].opcode == "blob" && Arg(list[k], 1).Some? && Arg(list[k], 1).value != ""
    && !Opened(list[..k], Arg(list[k], 0))
  }

  /** What the terminal should be given. */
  function Output(list: seq<Instruction>, ssh: bool): seq<string> {
    if list == [] then []
    else
      var n := |list| - 1;
      Output(list[..n], ssh) + if IsOutput(list, n, ssh) then [Arg(list[n], 1).value] else []
  }

  /** Blobs have a branch of their own, so the last branch never sees one and the terminal is given nothing. */
  lemma {:induction false} TerminalGetsNothing(h: Hook, list: seq<Instruction>, ssh: bool)
    ensures HandleAll(h, list, ssh).terminal == h.terminal
    decreases |list|
  {
    if list != [] {
      assert h.terminal + [] == h.terminal;
      TerminalGetsNothing(Handle(h, list[0], ssh), list[1..], ssh);
    }
  }

  /** So the terminal is given what it should be if and only if there is no output. */
  lemma {:induction false} OutputIsShownExactly(list: seq<Instruction>, ssh: bool)
    ensures HandleAll(EMPTY, list, ssh).terminal == Output(list, ssh) <==>
            forall k :: 0 <= k < |list| ==> !IsOutput(list, k, ssh)
    decreases |list|
  {
    hide Opened, HandleAll;
    TerminalGetsNothing(EMPTY, list, ssh);
    if list != [] {
      var init := list[..|list| - 1];
      TerminalGetsNothing(EMPTY, init, ssh);
      OutputIsShownExactly(init, ssh);
      forall k | 0 <= k < |init| ensures IsOutput(list, k, ssh) == IsOutput(init, k, ssh) { assert list[..k] == init[..k]; }
    }
  }

  lemma OutputIsLost()
    ensures var list := [Instruction("blob", ["0", "aGk="])];
            Output(list, true) == ["aGk="] && HandleAll(EMPTY, list, true).terminal == []
  {
    var list := [Instruction("blob", ["0", "aGk="])];
    TerminalGetsNothing(EMPTY, list, true);
    assert list[..0] == [] && !Opened([], Some("0"));
    assert [] + ["aGk="] == ["aGk="];
  }

  // ---- over the wire --------------------------------------------------------------------------------------------

  lemma AsciiDigits(n: int)
    ensures Ascii(ToText(n))
  {
    var digits := Digits(if n < 0 then -n else n);
    assert forall i :: 0 <= i < |digits| ==> IsDigit(digits[i]);
  }

  lemma {:induction false} BlobsArePrintable(stream: int, text: string, k: nat)
    requires Ascii(text) && k < |Blobs(stream, text)|
    ensures Printable(Blobs(stream, text)[k])
    decreases |text|
  {
    AsciiDigits(stream);
    if k > 0 { BlobsArePrintable(stream, text[CHUNK..], k - 1); }
  }

  lemma EmissionIsPrintable(p: Picture, k: nat)
    requires Ascii(p.text) && Ascii(p.mimetype) && Ascii(p.operation) && k < |Emission(p)|
    ensures Printable(Emission(p)[k])
  {
    AsciiDigits(p.stream);
    AsciiDigits(p.x);
    AsciiDigits(p.y);
    if 0 < k < |Emission(p)| - 1 { BlobsArePrintable(p.stream, p.text, k - 1); }
  }

  /** From the gateway's serializer through the browser's parser to the canvas. */
  lemma EmissionArrives(p: Picture, ssh: bool)
    requires Ascii(p.text) && Ascii(p.mimetype) && Ascii(p.operation)
    ensures ParseAll(Texts(Emission(p))) == Parsed(Emission(p), false)
    ensures HandleAll(EMPTY, ParseAll(Texts(Emission(p))).instructions, ssh) == EMPTY.(drawn := [Drawing(p)])
  {
    hide Emission, HandleAll, ParseAll, Texts;
    forall k | 0 <= k < |Emission(p)| ensures Printable(Emission(p)[k]) { EmissionIsPrintable(p, k); }
    ParsersAgreeOnTexts(Emission(p));
    EmissionIsDrawn(EMPTY, p, ssh);
    var none: map<Option<string>, Stream> := map[];
    assert none - {Some(ToText(p.stream))} == none && [] + [Drawing(p)] == [Drawing(p)];
  }
}
