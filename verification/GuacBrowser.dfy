/**
 * The browser's own Guacamole codec (`frontend/src/utils/guac.ts`), compared with the gateway's. A
 * string stands for UTF-16 text, one code unit a character, in the representation of `Unicode`.
 */
module GuacBrowser {
  import opened Results
  import opened Decimal
  import opened GuacParser
  import opened GuacGrammar
  import opened GuacTheorems
  import opened Unicode

  // ---- serialize ----------------------------------------------------------------------------------------

  /** The length counts octets of the UTF-8 form. */
  function Label(e: string): string { Digits(|Utf8(e)|) + "." + e }

  function Join(es: seq<string>): string {
    if es == [] then "" else if |es| == 1 then Label(es[0]) else Label(es[0]) + "," + Join(es[1..])
  }

  function BrowserText(opcode: string, args: seq<string>): string { Join([opcode] + args) + ";" }

  // ---- parse: what a text means to the browser -------------------------------------------------------------

  /** ECMA-262, section 12.2 and 12.3: white space and line terminators. */
  predicate IsSpace(c: char) {
    || c in " \t\n\r" || c == '\U{0B}' || c == '\U{0C}' || c == '\U{A0}' || c == '\U{1680}'
    || '\U{2000}' <= c <= '\U{200A}' || c == '\U{2028}' || c == '\U{2029}' || c == '\U{202F}' || c == '\U{205F}'
    || c == '\U{3000}' || c == '\U{FEFF}'
  }

  /** `parseInt(s, 10)`: blanks, a sign and the longest run of digits; the rest is ignored. */
  function ParseInt(s: string): Option<int> {
    if s != "" && IsSpace(s[0]) then ParseInt(s[1..])
    else
      var signed := s != "" && (s[0] == '-' || s[0] == '+');
      var digits := if signed then s[1..] else s;
      var n := DigitRun(digits);
      if n == 0 then None
      else
        var value: int := Value(digits[..n]);
        Some(if signed && s[0] == '-' then -value else value)
  }

  /** The characters that `parseInt` skips, by code point. */
  lemma Blanks(c: char)
    ensures IsSpace(c) <==>
            (c as int) in {9, 10, 11, 12, 13, 32, 0xA0, 0x1680, 0x2000, 0x2001, 0x2002, 0x2003, 0x2004, 0x2005, 0x2006, 0x2007,
                           0x2008, 0x2009, 0x200A, 0x2028, 0x2029, 0x202F, 0x205F, 0x3000, 0xFEFF}
  {
    assert "\t" == ['\U{9}'] && "\n" == ['\U{A}'] && "\r" == ['\U{D}'] && " " == ['\U{20}'];
  }

  lemma NoBlanks(c: char)
    ensures c == '+' || c == '-' || IsDigit(c) ==> !IsSpace(c)
  {
  }

  /** A numeral is read with either sign, whatever follows it that is no digit; blanks before it are skipped. */
  lemma ParseIntReads(digits: string, rest: string, c: char)
    requires AllDigits(digits) && digits != "" && (rest != "" ==> !IsDigit(rest[0])) && IsSpace(c)
    ensures ParseInt(digits + rest) == Some(Value(digits))
    ensures ParseInt(['+'] + (digits + rest)) == Some(Value(digits))
    ensures ParseInt(['-'] + (digits + rest)) == Some(0 - Value(digits))
    ensures ParseInt([c] + (digits + rest)) == Some(Value(digits))
  {
    hide Value, DigitRun, IsSpace;
    var s := digits + rest;
    DigitRunOf(digits, rest);
    assert s[..|digits|] == digits && s[0] == digits[0];
    NoBlanks(s[0]);
    NoBlanks('+');
    NoBlanks('-');
    assert (['+'] + s)[1..] == s && (['-'] + s)[1..] == s && ([c] + s)[1..] == s;
  }

  function IndexOf(s: string, c: char): (n: Option<nat>)
    ensures n.Some? ==> n.value < |s| && s[n.value] == c && c !in s[..n.value]
    ensures n.None? ==> c !in s
  {
    if s == "" then None
    else if s[0] == c then Some(0)
    else
      match IndexOf(s[1..], c)
      case None => None
      case Some(n) =>
        assert s[..n + 1] == [s[0]] + s[1..][..n];
        Some(n + 1)
  }

  /** A negative length sends the scan backwards; what becomes of it is the subject of `GuacLoop`. */
  datatype Piece = Piece(value: string, rest: string) | Stop | Backwards

  function TakeElement(s: string): (p: Piece)
    ensures p.Piece? ==> |p.rest| < |s| && p.rest == s[|s| - |p.rest|..]
  {
    match IndexOf(s, '.')
    case None => Stop
    case Some(dot) =>
      match ParseInt(s[..dot])
      case None => Stop
      case Some(n) =>
        if n < 0 then Backwards
        else if dot + 1 + n > |s| then Stop
        else Piece(s[dot + 1..dot + 1 + n], s[dot + 1 + n..])
  }

  /** Elements up to a ';', or up to the end of the text if that comes right after a ','. */
  datatype Line = Line(elements: seq<string>, rest: string) | NoLine | LineBackwards

  function ReadLine(s: string): (l: Line)
    ensures l.Line? ==> |l.rest| < |s| && l.rest == s[|s| - |l.rest|..] && l.elements != []
    decreases |s|
  {
    match TakeElement(s)
    case Stop => NoLine
    case Backwards => LineBackwards
    case Piece(e, rest) =>
      if rest == "" then NoLine
      else if rest[0] == ';' then Line([e], rest[1..])
      else if rest[0] != ',' then NoLine
      else if rest[1..] == "" then Line([e], "")
      else
        match ReadLine(rest[1..])
        case Line(es, after) => Line([e] + es, after)
        case NoLine => NoLine
        case LineBackwards => LineBackwards
  }

  function Raw(es: seq<string>): Instruction
    requires es != []
  {
    Instruction(es[0], es[1..])
  }

  datatype Parsed = Parsed(instructions: seq<Instruction>, backwards: bool)

  function ParseAll(s: string): Parsed
    decreases |s|
  {
    if s == "" then Parsed([], false)
    else
      match ReadLine(s)
      case Line(es, rest) => Parsed([Raw(es)] + ParseAll(rest).instructions, ParseAll(rest).backwards)
      case NoLine => Parsed([], false)
      case LineBackwards => Parsed([], true)
  }
}
