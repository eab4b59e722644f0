/**
 * The length-prefixed grammar of the Guacamole protocol as a recursive-descent reader, and the
 * streaming parser proved against it for every input and every chunking.
 */
module GuacGrammar {
  import opened Decimal
  import opened GuacParser

  // ---- the reader -------------------------------------------------------------------------------------

  /** A construct has been read, or the text ends inside it, or no such construct starts here. */
  datatype Read<T> = Got(value: T, rest: string) | More | Fail

  function Limit(capacity: nat): nat { if capacity < STOUL_MAX then capacity else STOUL_MAX }

  /** LENGTH '.' VALUE */
  function ReadElement(limit: nat, s: string): (r: Read<string>)
    ensures r.Got? ==> |r.rest| < |s|
  {
    var n := DigitRun(s);
    if n == |s| then More
    else if s[n] != '.' || n == 0 || Value(s[..n]) > limit then Fail
    else
      var size := Value(s[..n]);
      if |s| - n - 1 < size then More else Got(s[n + 1..n + 1 + size], s[n + 1 + size..])
  }

  /** element (',' element)* ';' */
  function ReadInstruction(limit: nat, s: string): (r: Read<seq<string>>)
    ensures r.Got? ==> |r.rest| < |s|
    decreases |s|
  {
    match ReadElement(limit, s)
    case More => More
    case Fail => Fail
    case Got(e, rest) =>
      if rest == "" then More
      else if rest[0] == ';' then Got([e], rest[1..])
      else if rest[0] != ',' then Fail
      else
        match ReadInstruction(limit, rest[1..])
        case Got(es, after) => Got([e] + es, after)
        case More => More
        case Fail => Fail
  }

  /** The first non-empty element is the opcode; empty elements before it are dropped. */
  function Assemble(elements: seq<string>): Instruction {
    if elements == [] then BLANK
    else if elements[0] == "" then Assemble(elements[1..])
    else Instruction(elements[0], elements[1..])
  }

  /** The instructions of a text and the unread end of it, which breaks off inside an instruction. */
  datatype Document = Document(instructions: seq<Instruction>, tail: string) | Malformed

  function ReadAll(limit: nat, s: string): (d: Document)
    ensures d.Document? && d.tail != "" ==> ReadInstruction(limit, d.tail).More?
    decreases |s|
  {
    if s == "" then Document([], "")
    else
      match ReadInstruction(limit, s)
      case More => Document([], s)
      case Fail => Malformed
      case Got(es, rest) =>
        if Assemble(es).opcode == "" then Malformed
        else
          match ReadAll(limit, rest)
          case Document(more, tail) => Document([Assemble(es)] + more, tail)
          case Malformed => Malformed
  }

  /** Where a parser stands that has read s, which breaks off inside an element. */
  function PhaseAfter(limit: nat, s: string): Phase
    requires ReadElement(limit, s).More?
  {
    var n := DigitRun(s);
    if n == |s| then Length(s) else Element(Value(s[..n]), s[n + 1..])
  }

  /** Where a parser stands that has read `before` and then s, which breaks off inside an instruction. */
  function Residue(limit: nat, before: seq<string>, s: string): (Phase, Instruction)
    requires ReadInstruction(limit, s).More?
    decreases |s|
  {
    match ReadElement(limit, s)
    case More => (PhaseAfter(limit, s), Assemble(before))
    case Got(e, rest) =>
      if rest == "" then (Separator(e), Assemble(before)) else Residue(limit, before + [e], rest[1..])
  }

  /** The parser that has read a document, starting with some instructions already waiting. */
  function After(limit: nat, ready: seq<Instruction>, d: Document): Machine
    requires d.Document? && (d.tail != "" ==> ReadInstruction(limit, d.tail).More?)
  {
    var (phase, current) := if d.tail == "" then (Length(""), BLANK) else Residue(limit, [], d.tail);
    Machine(phase, current, ready + d.instructions)
  }

  // ---- one element -------------------------------------------------------------------------------------

  lemma {:induction false} FeedDigits(capacity: nat, m: Machine, digits: string, s: string)
    requires Sound(m) && m.phase.Length? && AllDigits(digits)
    ensures AllDigits(m.phase.digits + digits)
    ensures FeedAll(capacity, m, digits + s) == FeedAll(capacity, m.(phase := Length(m.phase.digits + digits)), s)
    decreases |digits|
  {
    if digits == "" {
      assert digits + s == s && m.phase.digits + digits == m.phase.digits;
    } else {
      var m1 := m.(phase := Length(m.phase.digits + [digits[0]]));
      assert (digits + s)[0] == digits[0] && (digits + s)[1..] == digits[1..] + s;
      FeedDigits(capacity, m1, digits[1..], s);
      assert m1.phase.digits + digits[1..] == m.phase.digits + digits;
    }
  }

  lemma {:induction false} FeedValue(capacity: nat, m: Machine, v: string, s: string)
    requires m.phase.Element? && |m.phase.read| < m.phase.size && |m.phase.read| + |v| <= m.phase.size
    ensures FeedAll(capacity, m, v + s) ==
            FeedAll(capacity, m.(phase := if |m.phase.read| + |v| == m.phase.size then Separator(m.phase.read + v)
                                          else Element(m.phase.size, m.phase.read + v)), s)
    decreases |v|
  {
    if v == "" {
      assert v + s == s && m.phase.read + v == m.phase.read;
    } else {
      assert (v + s)[0] == v[0] && (v + s)[1..] == v[1..] + s;
      assert m.phase.read + v == m.phase.read + [v[0]] + v[1..];
      if |v| > 1 {
        FeedValue(capacity, m.(phase := Element(m.phase.size, m.phase.read + [v[0]])), v[1..], s);
      } else {
        assert v[1..] + s == s && m.phase.read + v == m.phase.read + [v[0]];
      }
    }
  }

  /** The machine at the start of an element does what the reader does. */
  lemma FeedElement(capacity: nat, m: Machine, s: string)
    requires m.phase == Length("")
    ensures match ReadElement(Limit(capacity), s)
            case Fail => FeedAll(capacity, m, s).Throw?
            case More => FeedAll(capacity, m, s) == Next(m.(phase := PhaseAfter(Limit(capacity), s)))
            case Got(e, rest) => FeedAll(capacity, m, s) == FeedAll(capacity, m.(phase := Separator(e)), rest)
  {
    hide FeedAll, Value;
    var n := DigitRun(s);
    var digits, rest := s[..n], s[n..];
    assert s == digits + rest;
    FeedDigits(capacity, m, digits, rest);
    assert m.phase.digits + digits == digits;
    EndOfLength(capacity, m.(phase := Length(digits)), rest);
    if n < |s| && s[n] == '.' && n > 0 && Value(digits) <= Limit(capacity) {
      Slices(s, n, Value(digits));
      AfterDot(capacity, m, Value(digits), rest[1..]);
    }
  }

  /** What the machine does with the first character that is not part of a length. */
  lemma EndOfLength(capacity: nat, m: Machine, s: string)
    requires Sound(m) && m.phase.Length? && (s != "" ==> !IsDigit(s[0]))
    ensures var d := m.phase.digits;
            if s == "" then FeedAll(capacity, m, s) == Next(m)
            else if s[0] != '.' || d == "" || Value(d) > Limit(capacity) then FeedAll(capacity, m, s).Throw?
            else FeedAll(capacity, m, s) ==
                 FeedAll(capacity, m.(phase := if Value(d) == 0 then Separator("") else Element(Value(d), "")), s[1..])
  {
    hide Value;
  }

  lemma Slices(s: string, n: nat, size: nat)
    requires n < |s|
    ensures s[n..][1..] == s[n + 1..]
    ensures n + 1 + size <= |s| ==>
              s[n + 1..][..size] == s[n + 1..n + 1 + size] && s[n + 1..][size..] == s[n + 1 + size..]
  {
  }

  /** What a length that ends comes to: too large for 64 bits, too large for the capacity, empty or whole. */
  lemma LengthErrors(capacity: nat, m: Machine)
    requires m.phase.Length? && AllDigits(m.phase.digits)
    ensures var n := Value(m.phase.digits); var o := Step(capacity, m, '.');
            && (o == Throw(m, EmptyLength) <==> m.phase.digits == "")
            && (m.phase.digits != "" ==>
                  && (o == Throw(m, LengthOutOfRange) <==> n >= 0x1_0000_0000_0000_0000)
                  && (o == Throw(m.(phase := Length("")), LengthTooLong) <==> capacity < n < 0x1_0000_0000_0000_0000)
                  && (o.Next? <==> n <= capacity && n < 0x1_0000_0000_0000_0000))
  {
    hide Value;
  }

  lemma AfterDot(capacity: nat, m: Machine, size: nat, s: string)
    ensures var m1 := m.(phase := if size == 0 then Separator("") else Element(size, ""));
            FeedAll(capacity, m1, s) ==
            if |s| < size then Next(m.(phase := Element(size, s)))
            else FeedAll(capacity, m.(phase := Separator(s[..size])), s[size..])
  {
    hide Step;
    if size == 0 {
      assert s[..0] == "" && s[0..] == s;
    } else {
      var m1 := m.(phase := Element(size, ""));
      if |s| < size {
        FeedValue(capacity, m1, s, "");
        assert s + "" == s && "" + s == s;
      } else {
        FeedValue(capacity, m1, s[..size], s[size..]);
        assert s[..size] + s[size..] == s && "" + s[..size] == s[..size];
      }
    }
  }

  // ---- one instruction -----------------------------------------------------------------------------------

  lemma {:induction false} StoreAssembles(elements: seq<string>, e: string)
    ensures Assemble(elements + [e]) == Store(Assemble(elements), e)
    ensures Assemble(elements).opcode == "" ==> Assemble(elements) == BLANK
  {
    if elements == [] {
      assert elements + [e] == [e] && [e][1..] == [];
    } else {
      assert (elements + [e])[1..] == elements[1..] + [e];
      if elements[0] == "" { StoreAssembles(elements[1..], e); }
    }
  }

  lemma {:induction false} FeedInstruction(capacity: nat, m: Machine, before: seq<string>, s: string)
    requires m.phase == Length("") && m.current == Assemble(before)
    ensures match ReadInstruction(Limit(capacity), s)
            case Fail => FeedAll(capacity, m, s).Throw?
            case More =>
              var (phase, current) := Residue(Limit(capacity), before, s);
              FeedAll(capacity, m, s) == Next(m.(phase := phase, current := current))
            case Got(es, rest) =>
              var i := Assemble(before + es);
              if i.opcode == "" then FeedAll(capacity, m, s).Throw?
              else FeedAll(capacity, m, s) == FeedAll(capacity, Machine(Length(""), BLANK, m.ready + [i]), rest)
    decreases |s|
  {
    FeedElement(capacity, m, s);
    var r := ReadElement(Limit(capacity), s);
    if r.Got? && r.rest != "" {
      StoreAssembles(before, r.value);
      if r.rest[0] == ',' {
        FeedInstruction(capacity, m.(current := Assemble(before + [r.value])), before + [r.value], r.rest[1..]);
        Regroup(before, r.value, ReadInstruction(Limit(capacity), r.rest[1..]));
      }
    }
  }

  lemma Regroup(before: seq<string>, e: string, r: Read<seq<string>>)
    ensures r.Got? ==> before + [e] + r.value == before + ([e] + r.value)
  {
  }

  // ---- whole documents -------------------------------------------------------------------------------------

  lemma {:induction false} FeedDocument(capacity: nat, ready: seq<Instruction>, s: string)
    ensures var d := ReadAll(Limit(capacity), s); var o := FeedAll(capacity, Machine(Length(""), BLANK, ready), s);
            if d.Malformed? then o.Throw? else o == Next(After(Limit(capacity), ready, d))
    decreases |s|
  {
    var limit := Limit(capacity);
    if s == "" {
      assert ready + [] == ready;
    } else {
      FeedInstruction(capacity, Machine(Length(""), BLANK, ready), [], s);
      var r := ReadInstruction(limit, s);
      if r.More? {
        assert ready + [] == ready;
      } else if r.Got? {
        assert [] + r.value == r.value;
        var i := Assemble(r.value);
        if i.opcode != "" {
          FeedDocument(capacity, ready + [i], r.rest);
          var d := ReadAll(limit, r.rest);
          assert d.Document? ==> ready + [i] + d.instructions == ready + ([i] + d.instructions);
        }
      }
    }
  }

  /**
   * The streaming parser refines the reader: it throws exactly on malformed texts, and otherwise its
   * queue is the reader's list and its remaining state is that of a parser fed the unread tail alone.
   */
  lemma ParserRefinesReader(capacity: nat, s: string)
    ensures var d := ReadAll(Limit(capacity), s); var o := FeedAll(capacity, INIT, s);
            && (o.Throw? <==> d.Malformed?)
            && (o.Next? ==>
                  && o.machine.ready == d.instructions
                  && FeedAll(capacity, INIT, d.tail) == Next(o.machine.(ready := []))
                  && (d.tail == "" ==> o.machine.phase == Length("") && o.machine.current == BLANK)
                  && (d.tail != "" ==> (o.machine.phase, o.machine.current) == Residue(Limit(capacity), [], d.tail)))
  {
    FeedDocument(capacity, [], s);
    var d := ReadAll(Limit(capacity), s);
    if d.Document? {
      FeedDocument(capacity, [], d.tail);
      TailAlone(Limit(capacity), s);
      hide FeedAll, ReadAll, Residue, ReadInstruction;
      assert [] + d.instructions == d.instructions;
    }
  }

  /** Reading the unread end again finds no instruction in it. */
  lemma TailAlone(limit: nat, s: string)
    requires ReadAll(limit, s).Document?
    ensures ReadAll(limit, ReadAll(limit, s).tail) == Document([], ReadAll(limit, s).tail)
  {
    var tail := ReadAll(limit, s).tail;
    assert tail != "" ==> ReadInstruction(limit, tail).More?;
  }

  function Flatten(chunks: seq<string>): string {
    if chunks == [] then "" else chunks[0] + Flatten(chunks[1..])
  }

  function FeedChunks(capacity: nat, m: Machine, chunks: seq<string>): Outcome
    requires Sound(m)
    decreases |chunks|
  {
    if chunks == [] then Next(m)
    else
      match FeedAll(capacity, m, chunks[0])
      case Next(m1) => FeedChunks(capacity, m1, chunks[1..])
      case Throw(m1, e) => Throw(m1, e)
  }

  /** Any chunking of a text gives the same outcome. */
  lemma {:induction false} ChunkingIsIrrelevant(capacity: nat, m: Machine, chunks: seq<string>)
    requires Sound(m)
    ensures FeedChunks(capacity, m, chunks) == FeedAll(capacity, m, Flatten(chunks))
    decreases |chunks|
  {
    if chunks != [] {
      FeedConcat(capacity, m, chunks[0], Flatten(chunks[1..]));
      var o := FeedAll(capacity, m, chunks[0]);
      if o.Next? { ChunkingIsIrrelevant(capacity, o.machine, chunks[1..]); }
    }
  }

  // ---- what is left over is the end of the text --------------------------------------------------------------

  lemma {:induction false} RestOfInstruction(limit: nat, s: string)
    requires ReadInstruction(limit, s).Got?
    ensures exists n :: 0 < n <= |s| && ReadInstruction(limit, s).rest == s[n..]
    decreases |s|
  {
    var rest := ReadElement(limit, s).rest;
    var n := |s| - |rest|;
    assert rest == s[n..];
    assert rest[1..] == s[n + 1..];
    if rest[0] == ',' {
      RestOfInstruction(limit, rest[1..]);
      var k :| 0 < k <= |rest[1..]| && ReadInstruction(limit, rest[1..]).rest == rest[1..][k..];
      assert s[n + 1..][k..] == s[n + 1 + k..];
    }
  }

  /** The unread tail is the end of the text. */
  lemma {:induction false} TailIsSuffix(limit: nat, s: string)
    requires ReadAll(limit, s).Document?
    ensures exists n :: 0 <= n <= |s| && ReadAll(limit, s).tail == s[n..]
    decreases |s|
  {
    hide ReadInstruction, Assemble;
    if s != "" && ReadInstruction(limit, s).Got? {
      RestOfInstruction(limit, s);
      var k :| 0 < k <= |s| && ReadInstruction(limit, s).rest == s[k..];
      TailIsSuffix(limit, s[k..]);
      var j :| 0 <= j <= |s[k..]| && ReadAll(limit, s[k..]).tail == s[k..][j..];
      assert s[k..][j..] == s[k + j..];
    } else {
      assert s[0..] == s && ReadAll(limit, s).tail == s;
    }
  }
}
