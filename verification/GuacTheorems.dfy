/**
 * The Guacamole parser's main laws: which texts it rejects, that it inverts the serializer, and what
 * the gateway's session loop makes of a sequence of WebSocket frames.
 */
module GuacTheorems {
  import opened Results
  import opened Decimal
  import opened GuacParser
  import opened GuacGrammar

  // ---- reading is incremental ---------------------------------------------------------------------------

  lemma {:induction false} DigitRunStable(s: string, t: string)
    requires DigitRun(s) < |s|
    ensures DigitRun(s + t) == DigitRun(s)
  {
    var n := DigitRun(s);
    assert s + t == s[..n] + (s[n..] + t);
    DigitRunOf(s[..n], s[n..] + t);
  }

  lemma ReadElementStable(limit: nat, s: string, t: string)
    requires ReadElement(limit, s).Got?
    ensures ReadElement(limit, s + t) == Got(ReadElement(limit, s).value, ReadElement(limit, s).rest + t)
  {
    DigitRunStable(s, t);
    var n := DigitRun(s);
    assert (s + t)[..n] == s[..n];
    var size := Value(s[..n]);
    assert (s + t)[n + 1..n + 1 + size] == s[n + 1..n + 1 + size];
    assert (s + t)[n + 1 + size..] == s[n + 1 + size..] + t;
  }

  lemma {:induction false} ReadInstructionStable(limit: nat, s: string, t: string)
    requires ReadInstruction(limit, s).Got?
    ensures ReadInstruction(limit, s + t) == Got(ReadInstruction(limit, s).value, ReadInstruction(limit, s).rest + t)
    decreases |s|
  {
    ReadElementStable(limit, s, t);
    var rest := ReadElement(limit, s).rest;
    assert (rest + t)[0] == rest[0] && (rest + t)[1..] == rest[1..] + t;
    if rest[0] == ',' { ReadInstructionStable(limit, rest[1..], t); }
  }

  /** One step of reading a document. */
  lemma ReadAllStep(limit: nat, s: string)
    requires s != "" && ReadInstruction(limit, s).Got?
    ensures var r := ReadInstruction(limit, s); var i := Assemble(r.value);
            ReadAll(limit, s) ==
            if i.opcode == "" then Malformed
            else match ReadAll(limit, r.rest)
                 case Document(more, tail) => Document([i] + more, tail)
                 case Malformed => Malformed
  {
    hide ReadInstruction, Assemble;
  }

  lemma ReadAllStops(limit: nat, s: string)
    requires ReadAll(limit, s).Document? && (s == "" || !ReadInstruction(limit, s).Got?)
    ensures ReadAll(limit, s) == Document([], s)
  {
    hide ReadInstruction, Assemble;
  }

  /** Text that follows a document is read as if it followed the unread tail. */
  lemma {:induction false} ReadAllAppends(limit: nat, s: string, t: string)
    requires ReadAll(limit, s).Document?
    ensures var d := ReadAll(limit, s);
            match ReadAll(limit, d.tail + t)
            case Document(more, tail) => ReadAll(limit, s + t) == Document(d.instructions + more, tail)
            case Malformed => ReadAll(limit, s + t).Malformed?
    decreases |s|
  {
    hide ReadInstruction, ReadAll, Assemble;
    var d := ReadAll(limit, s);
    if s != "" && ReadInstruction(limit, s).Got? {
      ReadInstructionStable(limit, s, t);
      ReadAllStep(limit, s);
      ReadAllStep(limit, s + t);
      var r := ReadInstruction(limit, s);
      ReadAllAppends(limit, r.rest, t);
      var i := Assemble(r.value);
      var d1 := ReadAll(limit, r.rest);
      var e := ReadAll(limit, d.tail + t);
      assert e.Document? ==> [i] + (d1.instructions + e.instructions) == d.instructions + e.instructions;
    } else {
      ReadAllStops(limit, s);
      var e := ReadAll(limit, s + t);
      assert e.Document? ==> [] + e.instructions == e.instructions;
    }
  }

  // ---- which texts are rejected ---------------------------------------------------------------------------

  /** The text consists of whole instructions. */
  predicate Complete(limit: nat, s: string) {
    ReadAll(limit, s).Document? && ReadAll(limit, s).tail == ""
  }

  /** The text has some continuation to whole instructions. */
  ghost predicate Completable(limit: nat, s: string) {
    exists t :: Complete(limit, s + t)
  }

  /** A length that is still being read is already too large; the parser notices only at the '.'. */
  predicate Overlong(limit: nat, m: Machine)
    requires Sound(m)
  {
    m.phase.Length? && Value(m.phase.digits) > limit
  }

  /** The instruction under way can be closed with ';'. */
  predicate Closable(m: Machine) { m.phase.Separator? && Store(m.current, m.phase.read).opcode != "" }

  /** One step of reading an instruction. */
  lemma InstructionStep(limit: nat, s: string)
    requires ReadElement(limit, s).Got?
    ensures var e, rest := ReadElement(limit, s).value, ReadElement(limit, s).rest;
            ReadInstruction(limit, s) ==
            if rest == "" then More
            else if rest[0] == ';' then Got([e], rest[1..])
            else if rest[0] != ',' then Fail
            else match ReadInstruction(limit, rest[1..])
                 case Got(es, after) => Got([e] + es, after)
                 case More => More
                 case Fail => Fail
  {
    hide ReadElement;
  }

  lemma {:induction false} CloseInstruction(limit: nat, before: seq<string>, s: string)
    requires ReadInstruction(limit, s).More? && Residue(limit, before, s).0.Separator?
    ensures var (phase, current) := Residue(limit, before, s); var r := ReadInstruction(limit, s + ";");
            r.Got? && r.rest == "" && Assemble(before + r.value) == Store(current, phase.read)
    decreases |s|
  {
    assert ReadElement(limit, s).Got?;
    ReadElementStable(limit, s, ";");
    InstructionStep(limit, s + ";");
    InstructionStep(limit, s);
    var e, rest := ReadElement(limit, s).value, ReadElement(limit, s).rest;
    hide ReadElement, ReadInstruction, Assemble, Store;
    if rest == "" {
      assert "" + ";" == ";";
      StoreAssembles(before, e);
    } else {
      assert (rest + ";")[0] == rest[0] && (rest + ";")[1..] == rest[1..] + ";";
      CloseInstruction(limit, before + [e], rest[1..]);
      Regroup(before, e, ReadInstruction(limit, rest[1..] + ";"));
    }
  }

  lemma NothingToRead(limit: nat)
    ensures ReadAll(limit, "") == Document([], "")
  {
  }

  lemma ClosingCompletes(capacity: nat, s: string)
    requires FeedAll(capacity, INIT, s).Next? && Closable(FeedAll(capacity, INIT, s).machine)
    ensures Complete(Limit(capacity), s + ";")
  {
    hide ReadAll, ReadInstruction, FeedAll, Residue, Assemble;
    var limit := Limit(capacity);
    ParserRefinesReader(capacity, s);
    var tail := ReadAll(limit, s).tail;
    CloseInstruction(limit, [], tail);
    var r := ReadInstruction(limit, tail + ";");
    assert [] + r.value == r.value;
    ReadAllStep(limit, tail + ";");
    NothingToRead(limit);
    ReadAllAppends(limit, s, ";");
  }

  /** Some text makes the instruction closable. */
  function Fill(m: Machine): string
    requires Sound(m)
  {
    match m.phase
    case Separator(read) => if Closable(m) then "" else ",1.x"
    case Element(size, read) => seq(size - |read|, _ => 'x')
    case Length(digits) =>
      if digits == "" then "1.x"
      else if Value(digits) > 0 then "." + seq(Value(digits), _ => 'x')
      else if m.current.opcode != "" then "." else ".,1.x"
  }

  lemma FeedSeparator(capacity: nat, m: Machine, read: string)
    requires m.phase == Separator(read) && Store(m.current, read).opcode == "" && capacity > 0
    ensures FeedAll(capacity, m, ",1.x").Next? && Closable(FeedAll(capacity, m, ",1.x").machine)
  {
    var m1 := m.(phase := Length(""), current := Store(m.current, read));
    assert ",1.x"[1..] == "1.x";
    FeedOne(capacity, m1);
  }

  lemma FeedOne(capacity: nat, m: Machine)
    requires m.phase == Length("") && capacity > 0
    ensures FeedAll(capacity, m, "1.x") == Next(m.(phase := Separator("x")))
  {
    FeedWire(capacity, m, "x", "");
    NothingFed(capacity, m.(phase := Separator("x")));
    hide FeedAll;
    assert Digits(1) == ['1'];
    assert Wire("x") + "" == "1.x";
  }

  lemma FillIsClosable(capacity: nat, m: Machine)
    requires Sound(m) && !Overlong(Limit(capacity), m) && capacity > 0
    ensures FeedAll(capacity, m, Fill(m)).Next? && Closable(FeedAll(capacity, m, Fill(m)).machine)
  {
    match m.phase
    case Separator(read) =>
      if !Closable(m) { FeedSeparator(capacity, m, read); }
    case Element(size, read) =>
      FeedValue(capacity, m, Fill(m), "");
      assert Fill(m) + "" == Fill(m);
    case Length(digits) =>
      if digits == "" {
        FeedOne(capacity, m);
      } else if Value(digits) > 0 {
        var x := seq(Value(digits), _ => 'x');
        AfterDot(capacity, m, Value(digits), x);
        assert x[..Value(digits)] == x && Fill(m)[1..] == x;
      } else {
        var m1 := m.(phase := Separator(""));
        assert ".,1.x"[1..] == ",1.x" && "."[1..] == "";
        if m.current.opcode == "" { FeedSeparator(capacity, m1, ""); }
      }
  }

  lemma {:induction false} OverlongStays(capacity: nat, m: Machine, t: string)
    requires Sound(m) && Overlong(Limit(capacity), m)
    ensures var o := FeedAll(capacity, m, t); o.Throw? || Overlong(Limit(capacity), o.machine)
    decreases |t|
  {
    if t != "" && IsDigit(t[0]) {
      var digits := m.phase.digits + [t[0]];
      assert digits[..|digits| - 1] == m.phase.digits;
      OverlongStays(capacity, m.(phase := Length(digits)), t[1..]);
    }
  }

  /**
   * A text can be continued to whole instructions if and only if the parser accepts it and it does
   * not end in a length that is too large. (A parser with no room for any character accepts none.)
   */
  lemma RejectsExactly(capacity: nat, s: string)
    requires capacity > 0
    ensures var o := FeedAll(capacity, INIT, s);
            Completable(Limit(capacity), s) <==> o.Next? && !Overlong(Limit(capacity), o.machine)
  {
    var limit := Limit(capacity);
    var o := FeedAll(capacity, INIT, s);
    if o.Next? && !Overlong(limit, o.machine) {
      var fill := Fill(o.machine);
      FillIsClosable(capacity, o.machine);
      FeedConcat(capacity, INIT, s, fill);
      ClosingCompletes(capacity, s + fill);
      assert s + fill + ";" == s + (fill + ";");
      assert Complete(limit, s + (fill + ";"));
    }
    if t :| Complete(limit, s + t) { CompletableIsAccepted(capacity, s, t); }
  }

  lemma CompletableIsAccepted(capacity: nat, s: string, t: string)
    requires Complete(Limit(capacity), s + t)
    ensures var o := FeedAll(capacity, INIT, s); o.Next? && !Overlong(Limit(capacity), o.machine)
  {
    ParserRefinesReader(capacity, s + t);
    FeedConcat(capacity, INIT, s, t);
    var o := FeedAll(capacity, INIT, s);
    if Overlong(Limit(capacity), o.machine) { OverlongStays(capacity, o.machine, t); }
  }

  // ---- the parser inverts the serializer --------------------------------------------------------------------

  /** An instruction that can be serialized and whose elements fit the parser. */
  predicate Sendable(limit: nat, i: Instruction) {
    i.opcode != "" && |i.opcode| <= limit && forall k :: 0 <= k < |i.args| ==> |i.args[k]| <= limit
  }

  function Texts(list: seq<Instruction>): string {
    if list == [] then "" else Text(list[0]) + Texts(list[1..])
  }

  lemma FeedWire(capacity: nat, m: Machine, e: string, s: string)
    requires m.phase == Length("") && |e| <= Limit(capacity)
    ensures FeedAll(capacity, m, Wire(e) + s) == FeedAll(capacity, m.(phase := Separator(e)), s)
  {
    hide Value;
    var digits, rest := Digits(|e|), "." + e + s;
    assert Wire(e) + s == digits + rest;
    FeedDigits(capacity, m, digits, rest);
    ValueOfDigits(|e|);
    assert "" + digits == digits;
    assert rest[0] == '.' && rest[1..] == e + s;
    AfterDot(capacity, m, |e|, e + s);
    assert (e + s)[..|e|] == e && (e + s)[|e|..] == s;
  }

  lemma {:induction false} CommasFromFront(es: seq<string>)
    requires es != []
    ensures Commas(es) == "," + Wire(es[0]) + Commas(es[1..])
    decreases |es|
  {
    if |es| > 1 {
      CommasFromFront(es[..|es| - 1]);
      assert es[1..][..|es| - 2] == es[..|es| - 1][1..];
    } else {
      assert es[..0] == [] && es[1..] == [];
    }
  }

  lemma FeedComma(capacity: nat, m: Machine, s: string)
    requires Closable(m)
    ensures FeedAll(capacity, m, "," + s) ==
            FeedAll(capacity, m.(phase := Length(""), current := Store(m.current, m.phase.read)), s)
  {
    assert ("," + s)[1..] == s;
  }

  /** The machine after one more argument. */
  function WithArg(m: Machine, e: string): Machine
    requires Closable(m)
  {
    m.(phase := Separator(e), current := Store(m.current, m.phase.read))
  }

  lemma FeedArg(capacity: nat, m: Machine, es: seq<string>, s: string)
    requires Closable(m) && es != [] && |es[0]| <= Limit(capacity)
    ensures FeedAll(capacity, m, Commas(es) + s) == FeedAll(capacity, WithArg(m, es[0]), Commas(es[1..]) + s)
  {
    hide FeedAll, Wire;
    CommasFromFront(es);
    var rest := Commas(es[1..]) + s;
    assert Commas(es) + s == "," + (Wire(es[0]) + rest);
    FeedComma(capacity, m, Wire(es[0]) + rest);
    FeedWire(capacity, m.(phase := Length(""), current := Store(m.current, m.phase.read)), es[0], rest);
  }

  lemma FeedEnd(capacity: nat, m: Machine, s: string)
    requires Closable(m)
    ensures FeedAll(capacity, m, ";" + s) ==
            FeedAll(capacity, Machine(Length(""), BLANK, m.ready + [Store(m.current, m.phase.read)]), s)
  {
    assert (";" + s)[1..] == s;
  }

  lemma {:induction false} FeedArgs(capacity: nat, m: Machine, es: seq<string>, s: string)
    requires Closable(m) && forall k :: 0 <= k < |es| ==> |es[k]| <= Limit(capacity)
    ensures var i := Store(m.current, m.phase.read);
            FeedAll(capacity, m, Commas(es) + (";" + s)) ==
            FeedAll(capacity, Machine(Length(""), BLANK, m.ready + [i.(args := i.args + es)]), s)
    decreases |es|
  {
    hide FeedAll;
    var i := Store(m.current, m.phase.read);
    if es == [] {
      assert i.args + [] == i.args && Commas(es) + (";" + s) == ";" + s;
      FeedEnd(capacity, m, s);
    } else {
      hide Commas;
      FeedArg(capacity, m, es, ";" + s);
      FeedArgs(capacity, WithArg(m, es[0]), es[1..], s);
      assert i.args + [es[0]] + es[1..] == i.args + es;
    }
  }

  lemma FeedText(capacity: nat, ready: seq<Instruction>, i: Instruction, s: string)
    requires Sendable(Limit(capacity), i)
    ensures FeedAll(capacity, Machine(Length(""), BLANK, ready), Text(i) + s) ==
            FeedAll(capacity, Machine(Length(""), BLANK, ready + [i]), s)
  {
    var m := Machine(Length(""), BLANK, ready);
    var rest := Commas(i.args) + (";" + s);
    assert Text(i) + s == Wire(i.opcode) + rest;
    FeedWire(capacity, m, i.opcode, rest);
    FeedArgs(capacity, m.(phase := Separator(i.opcode)), i.args, s);
    assert [] + i.args == i.args;
  }

  lemma NothingFed(capacity: nat, m: Machine)
    requires Sound(m)
    ensures FeedAll(capacity, m, "") == Next(m)
  {
  }

  lemma {:induction false} FeedTexts(capacity: nat, ready: seq<Instruction>, list: seq<Instruction>)
    requires forall k :: 0 <= k < |list| ==> Sendable(Limit(capacity), list[k])
    ensures FeedAll(capacity, Machine(Length(""), BLANK, ready), Texts(list)) ==
            Next(Machine(Length(""), BLANK, ready + list))
    decreases |list|
  {
    hide Text, Sendable, FeedAll;
    if list == [] {
      assert ready + [] == ready;
      NothingFed(capacity, Machine(Length(""), BLANK, ready));
    } else {
      FeedText(capacity, ready, list[0], Texts(list[1..]));
      FeedTexts(capacity, ready + [list[0]], list[1..]);
      assert ready + [list[0]] + list[1..] == ready + list;
    }
  }

  /** Feeding any list of serialized instructions gives back that list and leaves nothing behind. */
  lemma RoundTrip(capacity: nat, list: seq<Instruction>)
    requires forall k :: 0 <= k < |list| ==> Sendable(Limit(capacity), list[k])
    ensures FeedAll(capacity, INIT, Texts(list)) == Next(INIT.(ready := list))
    ensures ReadAll(Limit(capacity), Texts(list)) == Document(list, "")
  {
    FeedTexts(capacity, [], list);
    assert [] + list == list;
    ParserRefinesReader(capacity, Texts(list));
    TextsComplete(capacity, list);
  }

  lemma {:induction false} TextsComplete(capacity: nat, list: seq<Instruction>)
    requires forall k :: 0 <= k < |list| ==> Sendable(Limit(capacity), list[k])
    ensures Complete(Limit(capacity), Texts(list))
    decreases |list|
  {
    if list != [] {
      TextsComplete(capacity, list[1..]);
      TextCompletes(capacity, list[0]);
      ReadAllAppends(Limit(capacity), Text(list[0]), Texts(list[1..]));
      assert "" + Texts(list[1..]) == Texts(list[1..]);
    }
  }

  /** The machine just before the final ';' of a serialized instruction. */
  lemma TextCompletes(capacity: nat, i: Instruction)
    requires Sendable(Limit(capacity), i)
    ensures Complete(Limit(capacity), Text(i))
  {
    var body := Wire(i.opcode) + Commas(i.args);
    FeedText(capacity, [], i, "");
    assert Text(i) == body + ";" && Text(i) + "" == Text(i);
    FeedConcat(capacity, INIT, body, ";");
    var o := FeedAll(capacity, INIT, body);
    if o.machine.phase.Separator? {
      ClosingCompletes(capacity, body);
    }
  }
}
