/**
 * Where the gateway's and the browser's Guacamole codecs agree, and where they do not. The gateway
 * reads and writes octets; the browser's parser gets the string that those octets decode to, and what
 * the browser serializes is sent in UTF-8. So a text t of the browser is `Utf8(t)` to the gateway.
 */
module GuacAgreement {
  import opened Results
  import opened Decimal
  import opened GuacParser
  import opened GuacGrammar
  import opened GuacTheorems
  import opened GuacBrowser
  import opened Unicode

  // ---- one element -----------------------------------------------------------------------------------------

  lemma {:induction false} IndexAfterDigits(s: string, t: string)
    requires AllDigits(s)
    ensures IndexOf(s + "." + t, '.') == Some(|s|)
    ensures IndexOf(s, '.') == None
  {
    if s == "" {
      assert s + "." + t == "." + t;
    } else {
      assert (s + "." + t)[1..] == s[1..] + "." + t;
      IndexAfterDigits(s[1..], t);
    }
  }

  lemma ParseIntOfDigits(s: string)
    requires AllDigits(s) && s != ""
    ensures ParseInt(s) == Some(Value(s))
  {
    assert s + "" == s;
    DigitRunOf(s, "");
    assert s[..|s|] == s;
    assert IsDigit(s[0]) && !IsSpace(s[0]);
  }

  /** Where the gateway reads an element, the browser reads the same one; where it waits, the browser stops. */
  lemma ElementsAgree(limit: nat, s: string)
    requires !ReadElement(limit, s).Fail?
    ensures TakeElement(s) == match ReadElement(limit, s) case Got(e, rest) => Piece(e, rest) case More => Stop
  {
    var n := DigitRun(s);
    if n == |s| {
      assert s[..n] == s;
      IndexAfterDigits(s, "");
    } else {
      assert s == s[..n] + "." + s[n + 1..];
      IndexAfterDigits(s[..n], s[n + 1..]);
      ParseIntOfDigits(s[..n]);
    }
  }

  // ---- accepted texts -----------------------------------------------------------------------------------------

  /** The elements of an instruction whose text breaks off right after a ','; none in other texts. */
  function Dangling(limit: nat, s: string): (d: Option<seq<string>>)
    ensures d.Some? ==> d.value != []
    decreases |s|
  {
    match ReadElement(limit, s)
    case Got(e, rest) =>
      if rest == "" || rest[0] != ',' then None
      else if rest[1..] == "" then Some([e])
      else
        (match Dangling(limit, rest[1..])
         case Some(es) => Some([e] + es)
         case None => None)
    case _ => None
  }

  /** Such texts leave the gateway's parser waiting for a length, of which nothing has been read. */
  lemma {:induction false} DanglingWaitsForLength(limit: nat, before: seq<string>, s: string)
    requires ReadInstruction(limit, s).More? && s != ""
    ensures Dangling(limit, s).Some? <==> Residue(limit, before, s).0 == Length("")
    decreases |s|
  {
    var r := ReadElement(limit, s);
    if r.Got? && r.rest != "" && r.rest[1..] != "" {
      DanglingWaitsForLength(limit, before + [r.value], r.rest[1..]);
    }
  }

  lemma {:induction false} LinesAgree(limit: nat, s: string)
    requires !ReadInstruction(limit, s).Fail? && s != ""
    ensures ReadLine(s) ==
            match ReadInstruction(limit, s)
            case Got(es, rest) => Line(es, rest)
            case More => if Dangling(limit, s).Some? then Line(Dangling(limit, s).value, "") else NoLine
    decreases |s|
  {
    ElementsAgree(limit, s);
    var r := ReadElement(limit, s);
    if r.Got? && r.rest != "" && r.rest[0] == ',' && r.rest[1..] != "" {
      LinesAgree(limit, r.rest[1..]);
    }
  }

  /** The instructions of a text with empty leading elements kept. */
  function RawInstructions(limit: nat, s: string): seq<Instruction>
    decreases |s|
  {
    if s == "" then []
    else
      match ReadInstruction(limit, s)
      case Got(es, rest) => (if es == [] then [] else [Raw(es)]) + RawInstructions(limit, rest)
      case _ => []
  }

  lemma {:induction false} InstructionsHaveElements(limit: nat, s: string)
    requires ReadInstruction(limit, s).Got?
    ensures ReadInstruction(limit, s).value != []
  {
  }

  /** The two readers on one and the same string. */
  lemma {:induction false} ReadersAgree(limit: nat, s: string)
    requires ReadAll(limit, s).Document?
    ensures var tail := ReadAll(limit, s).tail;
            ParseAll(s) == Parsed(RawInstructions(limit, s) +
                                  (if Dangling(limit, tail).Some? then [Raw(Dangling(limit, tail).value)] else []), false)
    decreases |s|
  {
    hide ReadInstruction, ReadLine, Dangling, Assemble;
    if s != "" {
      LinesAgree(limit, s);
      var r := ReadInstruction(limit, s);
      if r.Got? {
        InstructionsHaveElements(limit, s);
        ReadersAgree(limit, r.rest);
        var extra := Dangling(limit, ReadAll(limit, s).tail);
        var more := if extra.Some? then [Raw(extra.value)] else [];
        var raw := RawInstructions(limit, r.rest);
        assert [Raw(r.value)] + (raw + more) == [Raw(r.value)] + raw + more;
      }
    } else {
      NothingDangles(limit);
    }
  }

  /**
   * For every ASCII text that the gateway's parser accepts, the browser finds the same instructions,
   * plus an incomplete one if and only if the text breaks off right after a ','.
   */
  lemma AcceptedTextsAgree(limit: nat, t: string)
    requires Ascii(t) && ReadAll(limit, Utf8(t)).Document?
    ensures var tail := ReadAll(limit, Utf8(t)).tail;
            ParseAll(t) == Parsed(RawInstructions(limit, Utf8(t)) +
                                  (if Dangling(limit, tail).Some? then [Raw(Dangling(limit, tail).value)] else []), false)
  {
    Utf8OfAscii(t);
    ReadersAgree(limit, t);
  }

  lemma NothingDangles(limit: nat)
    ensures Dangling(limit, "").None?
  {
  }

  /** The two lists differ only in instructions that start with an empty element. */
  lemma {:induction false} RawIsAssembled(limit: nat, s: string, k: nat)
    requires ReadAll(limit, s).Document?
    ensures |RawInstructions(limit, s)| == |ReadAll(limit, s).instructions|
    ensures k < |RawInstructions(limit, s)| ==>
              (RawInstructions(limit, s)[k] == ReadAll(limit, s).instructions[k] <==> RawInstructions(limit, s)[k].opcode != "")
    decreases |s|
  {
    if s != "" && ReadInstruction(limit, s).Got? {
      var r := ReadInstruction(limit, s);
      InstructionsHaveElements(limit, s);
      RawIsAssembled(limit, r.rest, if k > 0 then k - 1 else 0);
    }
  }

  // ---- texts that are not ASCII ---------------------------------------------------------------------------------

  function Encoded(es: seq<string>): seq<string> { seq(|es|, k requires 0 <= k < |es| => Utf8(es[k])) }

  /** The instruction in the gateway's terms. */
  function OnWire(i: Instruction): Instruction { Instruction(Utf8(i.opcode), Encoded(i.args)) }

  function AllOnWire(list: seq<Instruction>): seq<Instruction> {
    seq(|list|, k requires 0 <= k < |list| => OnWire(list[k]))
  }

  predicate AllAscii(es: seq<string>) { forall k :: 0 <= k < |es| ==> Ascii(es[k]) }

  /** The browser has read the element that the gateway reads, and what follows is the same text. */
  predicate SameElement(p: Piece, r: Read<string>, t: string) {
    p.Piece? && r.Got? && p.value == r.value && r.rest == Utf8(p.rest) && Ascii(p.value) && (Ascii(t) <==> Ascii(p.rest))
  }

  predicate OtherElement(p: Piece, r: Read<string>, t: string) {
    !Ascii(t) && r.Got? && !p.Backwards? && (p.Piece? ==> Utf8(p.value) != r.value)
  }

  lemma AsciiParts(a: string, b: string)
    ensures Ascii(a + b) <==> Ascii(a) && Ascii(b)
  {
    assert forall i :: 0 <= i < |a| ==> (a + b)[i] == a[i];
    assert forall i :: 0 <= i < |b| ==> (a + b)[|a| + i] == b[i];
  }

  lemma FirstOctet(t: string)
    requires t != ""
    ensures Utf8(t) != "" && if IsAscii(t[0]) then Utf8(t) == [t[0]] + Utf8(t[1..]) else !IsAscii(Utf8(t)[0])
  {
  }

  /** An element as it stands in a text: its length, '.', and what follows. */
  lemma ElementOnWire(limit: nat, t: string) returns (digits: string, u: string)
    requires ReadElement(limit, Utf8(t)).Got?
    ensures AllDigits(digits) && digits != "" && t == digits + "." + u && Utf8(t) == digits + "." + Utf8(u)
    ensures var n := Value(digits); var b := Utf8(u);
            n <= |b| && ReadElement(limit, Utf8(t)) == Got(b[..n], b[n..])
  {
    hide Value, Utf8;
    var n := DigitRun(t);
    digits := t[..n];
    var rest := t[n..];
    assert t == digits + rest;
    Utf8AfterAscii(digits, rest);
    if rest != "" { FirstOctet(rest); } else { assert Utf8(rest) == "" by { Utf8OfAscii(""); } }
    DigitRunOf(digits, Utf8(rest));
    var b := Utf8(t);
    assert b[..n] == digits;
    assert b[n] == Utf8(rest)[0];
    u := rest[1..];
    assert b == digits + "." + Utf8(u);
    assert b[n + 1..] == Utf8(u);
    Windows(digits + ".", Utf8(u), Value(digits));
  }

  lemma ElementsAgreeExactly(limit: nat, t: string)
    requires ReadElement(limit, Utf8(t)).Got?
    ensures var p, r := TakeElement(t), ReadElement(limit, Utf8(t)); SameElement(p, r, t) || OtherElement(p, r, t)
  {
    hide Value, Utf8, TakeElement, ReadElement;
    var digits, u := ElementOnWire(limit, t);
    SizedElement(digits, u);
    var n := Value(digits);
    AsciiParts(digits + ".", u);
    if n <= |u| {
      var e, rest := u[..n], u[n..];
      assert u == e + rest;
      AsciiParts(e, rest);
      if Ascii(e) {
        Utf8AfterAscii(e, rest);
        assert Utf8(u)[..n] == e && Utf8(u)[n..] == Utf8(rest);
      } else {
        Utf8LengthOfAscii(e);
      }
    } else if Ascii(u) {
      Utf8OfAscii(u);
    }
  }

  predicate SameLine(l: Line, r: Read<seq<string>>, t: string) {
    && l.Line? && r.Got? && l.elements == r.value && r.rest == Utf8(l.rest) && AllAscii(l.elements)
    && (Ascii(t) <==> Ascii(l.rest))
  }

  predicate OtherLine(l: Line, r: Read<seq<string>>, t: string) {
    !Ascii(t) && r.Got? && (l.Line? ==> Encoded(l.elements) != r.value)
  }

  lemma SeparatorOnWire(t: string)
    requires Utf8(t) != "" && IsAscii(Utf8(t)[0])
    ensures t != "" && t[0] == Utf8(t)[0] && Utf8(t)[1..] == Utf8(t[1..]) && (Ascii(t) <==> Ascii(t[1..]))
  {
    assert t != "";
    FirstOctet(t);
    AsciiFirst(t);
    hide Utf8, Ascii;
    assert IsAscii(t[0]);
    assert ([t[0]] + Utf8(t[1..]))[1..] == Utf8(t[1..]);
  }

  lemma NothingOnWire(limit: nat)
    ensures Utf8("") == "" && !ReadInstruction(limit, "").Got?
  {
  }

  lemma OtherElements(limit: nat, t: string)
    requires ReadInstruction(limit, Utf8(t)).Got?
    requires OtherElement(TakeElement(t), ReadElement(limit, Utf8(t)), t)
    ensures OtherLine(ReadLine(t), ReadInstruction(limit, Utf8(t)), t)
  {
    hide Utf8, TakeElement, ReadElement, Ascii;
    var l := ReadLine(t);
    if l.Line? { assert Encoded(l.elements)[0] == Utf8(TakeElement(t).value); }
  }

  lemma {:induction false} LinesAgreeExactly(limit: nat, t: string)
    requires ReadInstruction(limit, Utf8(t)).Got?
    ensures var l, r := ReadLine(t), ReadInstruction(limit, Utf8(t)); SameLine(l, r, t) || OtherLine(l, r, t)
    decreases |t|
  {
    hide Utf8, TakeElement, ReadElement, Ascii;
    ElementsAgreeExactly(limit, t);
    var p, r := TakeElement(t), ReadElement(limit, Utf8(t));
    if SameElement(p, r, t) {
      SeparatorOnWire(p.rest);
      var next := p.rest[1..];
      if p.rest[0] == ',' {
        NothingOnWire(limit);
        LinesAgreeExactly(limit, next);
        NextElement(limit, t, p.value, next);
      }
    } else {
      OtherElements(limit, t);
    }
  }

  /** An element on which the two agree, in front of the rest of an instruction. */
  lemma NextElement(limit: nat, t: string, e: string, next: string)
    requires ReadInstruction(limit, Utf8(next)).Got? && Ascii(e) && (Ascii(t) <==> Ascii(next))
    requires ReadInstruction(limit, Utf8(t)) ==
             Got([e] + ReadInstruction(limit, Utf8(next)).value, ReadInstruction(limit, Utf8(next)).rest)
    requires match ReadLine(next)
             case Line(es, rest) => ReadLine(t) == Line([e] + es, rest)
             case _ => !ReadLine(t).Line?
    requires var l, r := ReadLine(next), ReadInstruction(limit, Utf8(next)); SameLine(l, r, next) || OtherLine(l, r, next)
    ensures var l, r := ReadLine(t), ReadInstruction(limit, Utf8(t)); SameLine(l, r, t) || OtherLine(l, r, t)
  {
    hide Utf8, ReadLine, ReadInstruction, Ascii;
    var l := ReadLine(next);
    if l.Line? && Encoded(l.elements) != ReadInstruction(limit, Utf8(next)).value {
      assert Encoded([e] + l.elements)[1..] == Encoded(l.elements);
      assert ([e] + ReadInstruction(limit, Utf8(next)).value)[1..] == ReadInstruction(limit, Utf8(next)).value;
    }
  }

  /** What the browser has found, in the gateway's terms. */
  function Translated(p: Parsed): Parsed { Parsed(AllOnWire(p.instructions), p.backwards) }

  lemma RawOnWire(es: seq<string>, r: seq<string>)
    requires es != [] && r != []
    ensures OnWire(Raw(es)) == Raw(r) <==> Encoded(es) == r
  {
    hide Utf8;
    assert Encoded(es) == [Utf8(es[0])] + Encoded(es[1..]);
    assert r == [r[0]] + r[1..];
  }

  lemma EncodedAscii(es: seq<string>)
    requires AllAscii(es)
    ensures Encoded(es) == es
  {
    forall k | 0 <= k < |es| ensures Utf8(es[k]) == es[k] { Utf8OfAscii(es[k]); }
  }

  lemma FirstTranslated(i: Instruction, p: Parsed, j: Instruction, list: seq<Instruction>)
    ensures Translated(Parsed([i] + p.instructions, p.backwards)) == Parsed([j] + list, false)
            <==> OnWire(i) == j && Translated(p) == Parsed(list, false)
  {
    hide OnWire;
    assert AllOnWire([i] + p.instructions) == [OnWire(i)] + AllOnWire(p.instructions);
    assert ([j] + list)[1..] == list && ([OnWire(i)] + AllOnWire(p.instructions))[1..] == AllOnWire(p.instructions);
    assert ([j] + list)[0] == j && ([OnWire(i)] + AllOnWire(p.instructions))[0] == OnWire(i);
  }

  lemma NothingTranslated(backwards: bool)
    ensures Translated(Parsed([], backwards)) == Parsed([], backwards)
  {
  }

  lemma EmptyIsAscii()
    ensures Ascii("")
  {
  }

  /**
   * On a text of whole instructions, as every frame of the gateway is, the browser finds the gateway's
   * instructions if and only if the text is ASCII.
   */
  lemma {:induction false} WholeTextsAgreeExactly(limit: nat, t: string)
    requires Complete(limit, Utf8(t))
    ensures Translated(ParseAll(t)) == Parsed(RawInstructions(limit, Utf8(t)), false) <==> Ascii(t)
    decreases |t|
  {
    hide ReadInstruction, ReadLine, Assemble, OnWire, Encoded, Utf8, Ascii, Translated;
    if t == "" {
      NothingOnWire(limit);
      assert Ascii("") by { EmptyIsAscii(); }
      NothingTranslated(false);
    } else {
      var b := Utf8(t);
      assert b != "" by { FirstOctet(t); }
      LinesAgreeExactly(limit, t);
      InstructionsHaveElements(limit, b);
      var l, r := ReadLine(t), ReadInstruction(limit, b);
      if l.Line? {
        var more := ParseAll(l.rest);
        RawOnWire(l.elements, r.value);
        if SameLine(l, r, t) {
          EncodedAscii(l.elements);
          WholeTextsAgreeExactly(limit, l.rest);
        }
        FirstTranslated(Raw(l.elements), more, Raw(r.value), RawInstructions(limit, r.rest));
      } else {
        NothingTranslated(l.LineBackwards?);
      }
    }
  }

  /** An opcode of one character, as a string of the browser and as octets. */
  const E_ACUTE: string := "\U{E9}"
  const E_OCTETS: string := "\U{C3}\U{A9}"

  /** In the gateway's text of the one instruction with this opcode the browser finds nothing. */
  lemma NonAsciiIsLost()
    ensures var t := "2." + E_ACUTE + ";";
            && Utf8(t) == "2." + E_OCTETS + ";"
            && ReadAll(10, Utf8(t)) == Document([Instruction(E_OCTETS, [])], "")
            && ParseAll(t) == Parsed([], false)
  {
    hide Utf8, ReadAll, ParseAll;
    LostOctets();
    LostOnBrowser();
    LostOnGateway();
  }

  lemma LostOctets()
    ensures Utf8("2." + E_ACUTE + ";") == "2." + E_OCTETS + ";"
  {
    var u := E_ACUTE + ";";
    assert Utf8(";") == ";" && u[1..] == ";";
    assert Utf8(u) == E_OCTETS + ";";
    hide Utf8;
    Utf8AfterAscii("2.", u);
    assert "2." + u == "2." + E_ACUTE + ";" && "2." + (E_OCTETS + ";") == "2." + E_OCTETS + ";";
  }

  lemma LostOnBrowser()
    ensures ParseAll("2." + E_ACUTE + ";") == Parsed([], false)
  {
    hide TakeElement;
    var t := "2." + E_ACUTE + ";";
    SizedElement("2", E_ACUTE + ";");
    assert "2" + "." + (E_ACUTE + ";") == t;
    assert "2"[..0] == "";
    assert (E_ACUTE + ";")[2..] == "";
    assert ReadLine(t) == NoLine;
  }

  lemma LostOnGateway()
    ensures ReadAll(10, "2." + E_OCTETS + ";") == Document([Instruction(E_OCTETS, [])], "")
  {
    var b := "2." + E_OCTETS + ";";
    assert b[..1] == "2" && "2"[..0] == "" && Value("2") == 2;
    assert DigitRun(b) == 1 by { DigitRunOf("2", "." + E_OCTETS + ";"); assert "2" + ("." + E_OCTETS + ";") == b; }
    assert b[2..4] == E_OCTETS && b[4..] == ";" && ";"[1..] == "";
    assert ReadElement(10, b) == Got(E_OCTETS, ";");
    assert ReadInstruction(10, b) == Got([E_OCTETS], "");
    assert [E_OCTETS][1..] == [];
  }

  // ---- serialized texts ---------------------------------------------------------------------------------------

  lemma Windows(a: string, u: string, n: nat)
    requires n <= |u|
    ensures (a + u)[|a|..|a| + n] == u[..n] && (a + u)[|a| + n..] == u[n..]
  {
  }

  lemma SizedElement(digits: string, u: string)
    requires AllDigits(digits) && digits != ""
    ensures var n := Value(digits);
            TakeElement(digits + "." + u) == if n > |u| then Stop else Piece(u[..n], u[n..])
  {
    hide Value, IndexOf, ParseInt;
    var n := Value(digits); var text := digits + "." + u;
    IndexAfterDigits(digits, u);
    ParseIntOfDigits(digits);
    assert text[..|digits|] == digits;
    assert text[|digits| + 1..] == u;
    if n <= |u| { Windows(digits + ".", u, n); }
  }

  lemma ElementOfLabel(e: string, s: string)
    ensures var n := |Utf8(e)|;
            TakeElement(Label(e) + s) == if n > |e + s| then Stop else Piece((e + s)[..n], (e + s)[n..])
  {
    hide TakeElement;
    SizedElement(Digits(|Utf8(e)|), e + s);
    ValueOfDigits(|Utf8(e)|);
    assert Label(e) + s == Digits(|Utf8(e)|) + "." + (e + s);
  }

  lemma AsciiElement(e: string, s: string)
    requires Ascii(e)
    ensures TakeElement(Label(e) + s) == Piece(e, s)
  {
    hide TakeElement, Label;
    Utf8LengthOfAscii(e);
    ElementOfLabel(e, s);
    assert (e + s)[..|e|] == e && (e + s)[|e|..] == s;
  }

  lemma JoinStep(es: seq<string>, s: string)
    requires es != []
    ensures Join(es) + s == Label(es[0]) + if |es| == 1 then s else "," + (Join(es[1..]) + s)
  {
    hide Label;
  }

  lemma {:induction false} LineOfJoin(es: seq<string>, rest: string)
    requires es != [] && AllAscii(es)
    ensures ReadLine(Join(es) + (";" + rest)) == Line(es, rest)
    decreases |es|
  {
    hide TakeElement, Label, Join, Ascii;
    JoinStep(es, ";" + rest);
    if |es| == 1 {
      AsciiElement(es[0], ";" + rest);
      assert (";" + rest)[1..] == rest;
    } else {
      var more := Join(es[1..]) + (";" + rest);
      AsciiElement(es[0], "," + more);
      assert ("," + more)[1..] == more;
      LineOfJoin(es[1..], rest);
    }
  }

  /** A line with a non-ASCII element is never read back as it was. */
  lemma {:induction false} LineOfNonAscii(es: seq<string>, rest: string)
    requires es != [] && !AllAscii(es)
    ensures var l := ReadLine(Join(es) + (";" + rest)); l.Line? ==> l.elements != es
    decreases |es|
  {
    hide TakeElement, Label, Join, Ascii;
    JoinStep(es, ";" + rest);
    var s := if |es| == 1 then ";" + rest else "," + (Join(es[1..]) + (";" + rest));
    if Ascii(es[0]) {
      AsciiElement(es[0], s);
      if |es| > 1 {
        assert s[1..] == Join(es[1..]) + (";" + rest);
        LineOfNonAscii(es[1..], rest);
      }
    } else {
      Utf8LengthOfAscii(es[0]);
      ElementOfLabel(es[0], s);
    }
  }

  predicate Printable(i: Instruction) { AllAscii([i.opcode] + i.args) }

  function BrowserTexts(list: seq<Instruction>): string {
    if list == [] then "" else BrowserText(list[0].opcode, list[0].args) + BrowserTexts(list[1..])
  }

  /** A list of serialized instructions is read back by the browser if and only if every element is ASCII. */
  lemma {:induction false} BrowserReadsBack(list: seq<Instruction>)
    ensures ParseAll(BrowserTexts(list)) == Parsed(list, false) <==> forall k :: 0 <= k < |list| ==> Printable(list[k])
    decreases |list|
  {
    hide ReadLine, Join, AllAscii;
    if list != [] {
      var i, more := list[0], list[1..];
      var es, rest := [i.opcode] + i.args, BrowserTexts(more);
      var text := BrowserTexts(list);
      assert text == Join(es) + (";" + rest);
      assert es[1..] == i.args && [i] + more == list;
      if Printable(i) {
        LineOfJoin(es, rest);
        BrowserReadsBack(more);
        assert ParseAll(text) == Parsed([i] + ParseAll(rest).instructions, ParseAll(rest).backwards);
        assert ([i] + ParseAll(rest).instructions)[1..] == ParseAll(rest).instructions;
        assert forall k :: 0 < k < |list| ==> list[k] == more[k - 1];
        assert forall k :: 0 <= k < |more| ==> more[k] == list[k + 1];
      } else {
        LineOfNonAscii(es, rest);
        var l := ReadLine(text);
        RawIsInjective(l, i.opcode, i.args);
        if l.Line? { assert ParseAll(text).instructions[0] == Raw(l.elements); }
      }
    }
  }

  /** In particular one instruction. */
  lemma BrowserRoundTrip(opcode: string, args: seq<string>)
    ensures ParseAll(BrowserText(opcode, args)) == Parsed([Instruction(opcode, args)], false) <==> AllAscii([opcode] + args)
  {
    hide ParseAll, AllAscii;
    var list := [Instruction(opcode, args)];
    BrowserReadsBack(list);
    assert list[1..] == [] && BrowserTexts(list) == BrowserText(opcode, args) + "";
    assert BrowserText(opcode, args) + "" == BrowserText(opcode, args);
    assert Printable(list[0]) <==> AllAscii([opcode] + args);
  }

  lemma RawIsInjective(l: Line, opcode: string, args: seq<string>)
    ensures l.Line? && l.elements != [] && Raw(l.elements) == Instruction(opcode, args) ==> l.elements == [opcode] + args
  {
  }

  // ---- the two serializers -------------------------------------------------------------------------------------

  lemma LabelOnWire(e: string, rest: string)
    requires rest != "" ==> !Low(rest[0])
    ensures Utf8(Label(e) + rest) == Wire(Utf8(e)) + Utf8(rest)
  {
    hide Utf8, Low;
    var front := Digits(|Utf8(e)|) + ".";
    assert Ascii(front);
    assert Label(e) + rest == front + (e + rest);
    Utf8AfterAscii(front, e + rest);
    Utf8OfParts(e, rest);
    assert front + (Utf8(e) + Utf8(rest)) == Wire(Utf8(e)) + Utf8(rest);
  }

  lemma {:induction false} JoinOnWire(es: seq<string>, rest: string)
    requires es != []
    ensures Utf8(Join(es) + (";" + rest)) == Wire(Utf8(es[0])) + Commas(Encoded(es[1..])) + (";" + Utf8(rest))
    decreases |es|
  {
    hide Utf8, Label, Wire, Join, Commas, Encoded;
    JoinStep(es, ";" + rest);
    if |es| == 1 {
      LabelOnWire(es[0], ";" + rest);
      Utf8AfterAscii(";", rest);
      NoCommas();
      assert es[1..] == [];
      assert Wire(Utf8(es[0])) + "" == Wire(Utf8(es[0]));
    } else {
      var more := Join(es[1..]) + (";" + rest);
      LabelOnWire(es[0], "," + more);
      Utf8AfterAscii(",", more);
      JoinOnWire(es[1..], rest);
      EncodedFromFront(es[1..]);
      CommasFromFront(Encoded(es[1..]));
      Regroup5(Wire(Utf8(es[0])), Wire(Utf8(es[1])), Commas(Encoded(es[1..][1..])), ";" + Utf8(rest));
    }
  }

  lemma NoCommas()
    ensures Commas(Encoded([])) == ""
  {
  }

  lemma EncodedFromFront(es: seq<string>)
    requires es != []
    ensures Encoded(es) != [] && Encoded(es)[0] == Utf8(es[0]) && Encoded(es)[1..] == Encoded(es[1..])
  {
    hide Utf8;
  }

  lemma Regroup5(a: string, b: string, c: string, d: string)
    ensures a + ("," + (b + c + d)) == a + ("," + b + c) + d
  {
  }

  /** For every instruction the browser sends the octets that the gateway's serializer makes of it. */
  lemma SerializersEncodeAlike(i: Instruction, rest: string)
    ensures Utf8(BrowserText(i.opcode, i.args) + rest) == Text(OnWire(i)) + Utf8(rest)
  {
    hide Utf8, Wire, Join, Commas, Encoded;
    var es := [i.opcode] + i.args;
    assert es[1..] == i.args;
    JoinOnWire(es, rest);
    assert BrowserText(i.opcode, i.args) + rest == Join(es) + (";" + rest);
    var head := Wire(Utf8(i.opcode)) + Commas(Encoded(i.args));
    assert head + ";" + Utf8(rest) == head + (";" + Utf8(rest));
  }

  lemma {:induction false} TextsOnWire(list: seq<Instruction>)
    ensures Utf8(BrowserTexts(list)) == Texts(AllOnWire(list))
    decreases |list|
  {
    hide BrowserText, Text, OnWire, Utf8;
    if list == [] {
      NothingOnWire(0);
    } else {
      SerializersEncodeAlike(list[0], BrowserTexts(list[1..]));
      TextsOnWire(list[1..]);
      assert AllOnWire(list)[1..] == AllOnWire(list[1..]);
    }
  }

  /** The gateway reads every list of instructions that the browser sends, whatever is in them. */
  lemma BrowserToGateway(capacity: nat, list: seq<Instruction>)
    requires forall k :: 0 <= k < |list| ==> Sendable(Limit(capacity), OnWire(list[k]))
    ensures FeedAll(capacity, INIT, Utf8(BrowserTexts(list))) == Next(INIT.(ready := AllOnWire(list)))
  {
    hide OnWire, FeedAll, Sendable;
    TextsOnWire(list);
    RoundTrip(capacity, AllOnWire(list));
  }

  // ---- what the browser makes of the gateway's text -----------------------------------------------------------------

  lemma {:induction false} WellFormedParts(a: string, b: string)
    requires WellFormed(a) && WellFormed(b)
    ensures WellFormed(a + b)
    decreases |a|
  {
    if a == "" {
      assert a + b == b;
    } else {
      var n := Width(a);
      assert (a + b)[n..] == a[n..] + b;
      WellFormedParts(a[n..], b);
    }
  }

  lemma {:induction false} AsciiIsWellFormed(s: string)
    requires Ascii(s)
    ensures WellFormed(s)
  {
    if s != "" {
      AsciiFirst(s);
      AsciiIsWellFormed(s[1..]);
    }
  }

  predicate Decoded(i: Instruction) { WellFormed(i.opcode) && forall k :: 0 <= k < |i.args| ==> WellFormed(i.args[k]) }

  lemma LabelIsWellFormed(e: string)
    requires WellFormed(e)
    ensures WellFormed(Label(e))
  {
    hide WellFormed;
    var front := Digits(|Utf8(e)|) + ".";
    assert Ascii(front);
    AsciiIsWellFormed(front);
    WellFormedParts(front, e);
  }

  lemma {:induction false} JoinIsWellFormed(es: seq<string>)
    requires forall k :: 0 <= k < |es| ==> WellFormed(es[k])
    ensures WellFormed(Join(es))
    decreases |es|
  {
    hide WellFormed, Label;
    if es == [] {
      AsciiIsWellFormed("");
    } else {
      LabelIsWellFormed(es[0]);
      AsciiIsWellFormed(",");
      WellFormedParts(Label(es[0]), ",");
      JoinIsWellFormed(es[1..]);
      WellFormedParts(Label(es[0]) + ",", Join(es[1..]));
    }
  }

  lemma {:induction false} TextsAreWellFormed(list: seq<Instruction>)
    requires forall k :: 0 <= k < |list| ==> Decoded(list[k])
    ensures WellFormed(BrowserTexts(list))
    decreases |list|
  {
    hide WellFormed, Join;
    if list == [] {
      AsciiIsWellFormed("");
    } else {
      var es := [list[0].opcode] + list[0].args;
      AsciiIsWellFormed(";");
      JoinIsWellFormed(es);
      WellFormedParts(Join(es), ";");
      TextsAreWellFormed(list[1..]);
      WellFormedParts(Join(es) + ";", BrowserTexts(list[1..]));
    }
  }

  /**
   * The gateway serializes a list of instructions, whose elements are the UTF-8 forms of some strings,
   * and the browser parses the string that the octets decode to: it gets the list back if and only if
   * every element is ASCII.
   */
  lemma GatewayToBrowser(list: seq<Instruction>, data: string)
    requires forall k :: 0 <= k < |list| ==> Decoded(list[k])
    requires WellFormed(data) && Utf8(data) == Texts(AllOnWire(list))
    ensures ParseAll(data) == Parsed(list, false) <==> forall k :: 0 <= k < |list| ==> Printable(list[k])
  {
    hide WellFormed, Decoded, Printable, ParseAll, Utf8, OnWire;
    TextsOnWire(list);
    TextsAreWellFormed(list);
    Utf8IsInjective(data, BrowserTexts(list));
    BrowserReadsBack(list);
  }

  // ---- ASCII content --------------------------------------------------------------------------------------------------

  lemma AsciiOnWire(i: Instruction)
    requires Printable(i)
    ensures OnWire(i) == i
  {
    hide Utf8;
    var es := [i.opcode] + i.args;
    EncodedAscii(es);
    EncodedFromFront(es);
    assert es[0] == i.opcode && es[1..] == i.args;
  }

  /** For ASCII content the two serializers produce the same text. */
  lemma SerializersAgree(i: Instruction)
    requires Printable(i)
    ensures BrowserText(i.opcode, i.args) == Text(i)
  {
    hide Utf8, Text, BrowserText, OnWire;
    var text := BrowserText(i.opcode, i.args);
    SerializersEncodeAlike(i, "");
    AsciiOnWire(i);
    NothingOnWire(0);
    assert text + "" == text && Text(i) + "" == Text(i);
    TextIsAscii(i);
    Utf8OfAscii(text);
  }

  lemma {:induction false} JoinIsAscii(es: seq<string>)
    requires AllAscii(es)
    ensures Ascii(Join(es))
    decreases |es|
  {
    hide Utf8;
    if |es| > 1 { JoinIsAscii(es[1..]); }
  }

  lemma TextIsAscii(i: Instruction)
    requires Printable(i)
    ensures Ascii(BrowserText(i.opcode, i.args))
  {
    hide Join;
    JoinIsAscii([i.opcode] + i.args);
  }

  /** Both parsers read back any list of serialized ASCII instructions. */
  lemma ParsersAgreeOnTexts(list: seq<Instruction>)
    requires forall k :: 0 <= k < |list| ==> Printable(list[k])
    ensures ParseAll(Texts(list)) == Parsed(list, false)
  {
    hide Printable, ParseAll;
    BrowserReadsBack(list);
    AsciiTexts(list);
  }

  lemma {:induction false} AsciiTexts(list: seq<Instruction>)
    requires forall k :: 0 <= k < |list| ==> Printable(list[k])
    ensures BrowserTexts(list) == Texts(list)
    decreases |list|
  {
    hide Printable, BrowserText, Text;
    if list != [] {
      SerializersAgree(list[0]);
      AsciiTexts(list[1..]);
    }
  }
}
