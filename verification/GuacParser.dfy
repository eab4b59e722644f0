/**
 * The streaming Guacamole parser (`guac_parser.cpp`): a machine over bytes, the class that runs it
 * in place, and the serializer.
 */
module GuacParser {
  import opened Results
  import opened Decimal

  datatype Instruction = Instruction(opcode: string, args: seq<string>)

  const BLANK := Instruction("", [])

  datatype ParseError = EmptyLength | UnexpectedInLength | LengthOutOfRange | LengthTooLong | BadSeparator | EmptyOpcode

  /** The largest value that `std::stoul` converts. */
  const STOUL_MAX: nat := 0xFFFF_FFFF_FFFF_FFFF

  // ---- the machine ----------------------------------------------------------------------------------

  /** What has been read of the element under way. */
  datatype Phase = Length(digits: string) | Element(size: nat, read: string) | Separator(read: string)

  datatype Machine = Machine(phase: Phase, current: Instruction, ready: seq<Instruction>)

  const INIT := Machine(Length(""), BLANK, [])

  /** A byte is consumed, or the parser throws and is left in the given state. */
  datatype Outcome = Next(machine: Machine) | Throw(machine: Machine, error: ParseError)

  /** An element becomes the opcode if there is none yet, otherwise an argument. */
  function Store(current: Instruction, element: string): Instruction {
    if current.opcode == "" then current.(opcode := element) else current.(args := current.args + [element])
  }

  predicate Sound(m: Machine) {
    match m.phase
    case Length(digits) => AllDigits(digits)
    case Element(size, read) => |read| < size
    case Separator(_) => true
  }

  /** One byte; `capacity` is the largest length for which the element buffer can be reserved. */
  function Step(capacity: nat, m: Machine, c: char): Outcome
    requires Sound(m)
  {
    match m.phase
    case Length(digits) =>
      if IsDigit(c) then Next(m.(phase := Length(digits + [c])))
      else if c != '.' then Throw(m, UnexpectedInLength)
      else if digits == "" then Throw(m, EmptyLength)
      else if Value(digits) > STOUL_MAX then Throw(m, LengthOutOfRange)
      else if Value(digits) > capacity then Throw(m.(phase := Length("")), LengthTooLong)
      else Next(m.(phase := if Value(digits) == 0 then Separator("") else Element(Value(digits), "")))
    case Element(size, read) =>
      Next(m.(phase := if |read| + 1 == size then Separator(read + [c]) else Element(size, read + [c])))
    case Separator(read) =>
      var current := Store(m.current, read);
      if c == ',' then Next(m.(phase := Length(""), current := current))
      else if c != ';' then Throw(m, BadSeparator)
      else if current.opcode == "" then Throw(m.(phase := Separator(""), current := current), EmptyOpcode)
      else Next(Machine(Length(""), BLANK, m.ready + [current]))
  }

  lemma StepIsSound(capacity: nat, m: Machine, c: char)
    requires Sound(m)
    ensures Sound(Step(capacity, m, c).machine)
  {
  }

  /** A whole string, up to the first error. */
  function FeedAll(capacity: nat, m: Machine, s: string): (o: Outcome)
    requires Sound(m)
    ensures Sound(o.machine)
    decreases |s|
  {
    if s == "" then Next(m)
    else
      match Step(capacity, m, s[0])
      case Next(m1) => StepIsSound(capacity, m, s[0]); FeedAll(capacity, m1, s[1..])
      case Throw(m1, e) => StepIsSound(capacity, m, s[0]); Throw(m1, e)
  }

  /** Chunking does not matter: feeding a + b is feeding a and then b. */
  lemma {:induction false} FeedConcat(capacity: nat, m: Machine, a: string, b: string)
    requires Sound(m)
    ensures FeedAll(capacity, m, a + b) ==
            match FeedAll(capacity, m, a)
            case Next(m1) => FeedAll(capacity, m1, b)
            case Throw(m1, e) => Throw(m1, e)
    decreases |a|
  {
    if a == "" {
      assert a + b == b;
    } else {
      assert (a + b)[1..] == a[1..] + b;
      StepIsSound(capacity, m, a[0]);
      var o := Step(capacity, m, a[0]);
      if o.Next? { FeedConcat(capacity, o.machine, a[1..], b); }
    }
  }

  // ---- the class ------------------------------------------------------------------------------------

  datatype State = READING_LENGTH | READING_ELEMENT | READING_SEP

  class GuacParser {
    const capacity: nat
    var state: State
    var lenBuf: string
    var elemBuf: string
    var currentLen: nat
    var current: Instruction
    var ready: seq<Instruction>

    ghost predicate Valid()
      reads this
    {
      && AllDigits(lenBuf)
      && (state != READING_LENGTH ==> lenBuf == "")
      && (state == READING_LENGTH ==> elemBuf == "")
      && (state == READING_ELEMENT ==> |elemBuf| < currentLen)
      && (state == READING_SEP ==> |elemBuf| == currentLen)
    }

    /** The machine that the fields represent; `currentLen` means nothing while a length is read. */
    ghost function Contents(): (m: Machine)
      requires Valid()
      reads this
      ensures Sound(m)
    {
      Machine(match state
              case READING_LENGTH => Length(lenBuf)
              case READING_ELEMENT => Element(currentLen, elemBuf)
              case READING_SEP => Separator(elemBuf),
              current, ready)
    }

    constructor (capacity: nat)
      ensures Valid() && Contents() == INIT && this.capacity == capacity
    {
      this.capacity := capacity;
      state, lenBuf, elemBuf, currentLen, current, ready := READING_LENGTH, "", "", 0, BLANK, [];
    }

    method Reset()
      modifies this
      ensures Valid() && Contents() == INIT
    {
      state, currentLen, lenBuf, elemBuf, current := READING_LENGTH, 0, "", "", BLANK;
      while ready != []
        invariant Valid() && Contents() == INIT.(ready := ready)
      {
        ready := ready[1..];
      }
    }

    /** A length field has ended with '.'. */
    method EndLength() returns (error: Option<ParseError>)
      requires Valid() && state == READING_LENGTH
      modifies this
      ensures Valid()
      ensures match Step(capacity, old(Contents()), '.')
              case Next(m) => error.None? && Contents() == m
              case Throw(m, e) => error == Some(e) && Contents() == m
    {
      if lenBuf == "" { return Some(EmptyLength); }
      if Value(lenBuf) > STOUL_MAX { return Some(LengthOutOfRange); }
      currentLen := Value(lenBuf);
      lenBuf, elemBuf := "", "";
      if currentLen > capacity { return Some(LengthTooLong); }
      state := READING_ELEMENT;
      if currentLen == 0 { state := READING_SEP; }
      return None;
    }

    method ProcessByte(c: char) returns (error: Option<ParseError>)
      requires Valid()
      modifies this
      ensures Valid()
      ensures match Step(capacity, old(Contents()), c)
              case Next(m) => error.None? && Contents() == m
              case Throw(m, e) => error == Some(e) && Contents() == m
    {
      match state
      case READING_LENGTH =>
        if IsDigit(c) { lenBuf := lenBuf + [c]; return None; }
        if c == '.' { error := EndLength(); return; }
        return Some(UnexpectedInLength);
      case READING_ELEMENT =>
        elemBuf := elemBuf + [c];
        if |elemBuf| == currentLen { state := READING_SEP; }
        return None;
      case READING_SEP =>
        if c != ',' && c != ';' { return Some(BadSeparator); }
        if current.opcode == "" {
          current := current.(opcode := elemBuf);
        } else {
          current := current.(args := current.args + [elemBuf]);
        }
        elemBuf := "";
        if c == ',' { state := READING_LENGTH; return None; }
        if current.opcode == "" { return Some(EmptyOpcode); }
        ready := ready + [current];
        current, state := BLANK, READING_LENGTH;
        return None;
    }

    method Feed(data: string) returns (error: Option<ParseError>)
      requires Valid()
      modifies this
      ensures Valid()
      ensures match FeedAll(capacity, old(Contents()), data)
              case Next(m) => error.None? && Contents() == m
              case Throw(m, e) => error == Some(e) && Contents() == m
    {
      var i := 0;
      while i < |data|
        invariant 0 <= i <= |data| && Valid()
        invariant FeedAll(capacity, old(Contents()), data) == FeedAll(capacity, Contents(), data[i..])
      {
        error := ProcessByte(data[i]);
        if error.Some? { return; }
        assert data[i..][1..] == data[i + 1..];
        i := i + 1;
      }
      return None;
    }

    predicate HasInstruction()
      reads this
    {
      ready != []
    }

    /** Instructions come out in the order in which they were completed. */
    method NextInstruction() returns (r: Option<Instruction>)
      requires Valid()
      modifies this`ready
      ensures Valid()
      ensures old(ready) == [] ==> r.None? && ready == []
      ensures old(ready) != [] ==> r.Some? && old(ready) == [r.value] + ready
      ensures Contents() == old(Contents()).(ready := ready)
    {
      if ready == [] { return None; }
      r := Some(ready[0]);
      ready := ready[1..];
    }
  }

  // ---- the serializer ---------------------------------------------------------------------------------

  function Wire(element: string): string { Digits(|element|) + "." + element }

  /** Elements after the first, each introduced by a comma. */
  function Commas(elements: seq<string>): string {
    if elements == [] then "" else Commas(elements[..|elements| - 1]) + "," + Wire(elements[|elements| - 1])
  }

  function Text(i: Instruction): string { Wire(i.opcode) + Commas(i.args) + ";" }

  /** An instruction without an opcode is refused. */
  method Serialize(i: Instruction) returns (r: Option<string>)
    ensures r == if i.opcode == "" then None else Some(Text(i))
  {
    if i.opcode == "" { return None; }
    var text := Digits(|i.opcode|) + "." + i.opcode;
    for k := 0 to |i.args|
      invariant text == Wire(i.opcode) + Commas(i.args[..k])
    {
      assert i.args[..k + 1][..k] == i.args[..k];
      text := text + "," + Digits(|i.args[k]|) + "." + i.args[k];
    }
    assert i.args[..|i.args|] == i.args;
    return Some(text + ";");
  }
}
