/**
 * The index loops of the browser's parser (`parse` in `frontend/src/utils/guac.ts`). A length may be
 * negative, and then the scan goes back: the loops need not end.
 */
module GuacLoop {
  import opened Results
  import opened Decimal
  import opened GuacParser
  import opened GuacBrowser

  /** The variables of the loops. */
  datatype Scan = Scan(pos: nat, elements: seq<string>, instructions: seq<Instruction>)

  const BEGIN := Scan(0, [], [])

  /** One turn of the inner loop goes on from a new position, or parsing is over. */
  datatype Turn = More(scan: Scan) | Finished(instructions: seq<Instruction>)

  /** Where the next element ends, if there is one; the start of the text may be overshot. */
  function ElementAt(text: string, pos: nat): (e: Option<(nat, int)>)
    requires pos <= |text|
    ensures e.Some? ==> pos < e.value.0 <= |text| && e.value.1 <= |text|
  {
    match IndexOf(text[pos..], '.')
    case None => None
    case Some(dot) =>
      match ParseInt(text[pos..pos + dot])
      case None => None
      case Some(n) => if pos + dot + 1 + n > |text| then None else Some((pos + dot + 1, pos + dot + 1 + n))
  }

  function Close(s: Scan): seq<Instruction> {
    if s.elements == [] then s.instructions else s.instructions + [Raw(s.elements)]
  }

  function OneTurn(text: string, s: Scan): (t: Turn)
    ensures t.More? ==> t.scan.pos <= |text|
  {
    if s.pos >= |text| then Finished(Close(s))
    else
      match ElementAt(text, s.pos)
      case None => Finished(s.instructions)
      case Some((start, end)) =>
        if end < 0 || end >= |text| then Finished(s.instructions)
        else
          var elements := s.elements + [if end < start then "" else text[start..end]];
          if text[end] == ';' then More(Scan(end + 1, [], s.instructions + [Raw(elements)]))
          else if text[end] == ',' then More(Scan(end + 1, elements, s.instructions))
          else Finished(s.instructions)
  }

  /** The result, if parsing is over after the given number of turns. */
  function Outcome(text: string, s: Scan, turns: nat): Option<seq<Instruction>>
    decreases turns
  {
    match OneTurn(text, s)
    case Finished(list) => Some(list)
    case More(next) => if turns == 0 then None else Outcome(text, next, turns - 1)
  }

  /** The two loops; they are left after the given number of turns if they have not ended by then. */
  method Parse(text: string, turns: nat) returns (r: Option<seq<Instruction>>)
    ensures r == Outcome(text, BEGIN, turns)
  {
    hide ElementAt;
    var instructions := [];
    var pos: nat := 0;
    var left := turns;
    while pos < |text|
      invariant 0 <= left && Outcome(text, BEGIN, turns) == Outcome(text, Scan(pos, [], instructions), left)
      decreases left
    {
      var elements := [];
      var whole := false;
      ghost var before := left;
      while pos < |text| && !whole
        invariant 0 <= left <= before && (whole ==> left < before)
        invariant (whole ==> elements != []) && (elements == [] ==> pos < |text|)
        invariant Outcome(text, BEGIN, turns) ==
                  if whole then Outcome(text, Scan(pos, [], instructions + [Raw(elements)]), left)
                  else Outcome(text, Scan(pos, elements, instructions), left)
        decreases left, !whole
      {
        var e := ElementAt(text, pos);
        if e.None? { return Some(instructions); }
        var (start, end) := e.value;
        var value := if start <= end then text[start..end] else "";
        if end >= |text| || end < 0 { return Some(instructions); }
        elements := elements + [value];
        var sep := text[end];
        if sep != ';' && sep != ',' { return Some(instructions); }
        if left == 0 { return None; }
        left := left - 1;
        pos := end + 1;
        whole := sep == ';';
      }
      if !whole { return Some(instructions + [Raw(elements)]); }
      instructions := instructions + [Raw(elements)];
    }
    return Some(instructions);
  }

  // ---- texts without negative lengths ------------------------------------------------------------------------

  lemma ElementIsPiece(text: string, pos: nat)
    requires pos < |text| && !TakeElement(text[pos..]).Backwards?
    ensures match TakeElement(text[pos..])
            case Piece(e, rest) =>
              var end := |text| - |rest|;
              end >= 0 && rest == text[end..] && ElementAt(text, pos) == Some((end - |e|, end)) && e == text[end - |e|..end]
            case _ => ElementAt(text, pos).None?
  {
    hide ParseInt, IndexOf;
    var t := text[pos..];
    if IndexOf(t, '.').Some? {
      var dot := IndexOf(t, '.').value;
      assert text[pos..pos + dot] == t[..dot];
      var n := ParseInt(t[..dot]);
      if n.Some? && n.value >= 0 && dot + 1 + n.value <= |t| {
        assert t[dot + 1..dot + 1 + n.value] == text[pos + dot + 1..pos + dot + 1 + n.value];
        assert t[dot + 1 + n.value..] == text[pos + dot + 1 + n.value..];
      }
    }
  }

  lemma TurnIsPiece(text: string, s: Scan)
    requires s.pos < |text|
    ensures var p := TakeElement(text[s.pos..]);
            && (p.Stop? ==> OneTurn(text, s) == Finished(s.instructions))
            && (p.Piece? ==>
                  OneTurn(text, s) ==
                  if p.rest == "" || (p.rest[0] != ';' && p.rest[0] != ',') then Finished(s.instructions)
                  else if p.rest[0] == ';'
                  then More(Scan(|text| - |p.rest| + 1, [], s.instructions + [Raw(s.elements + [p.value])]))
                  else More(Scan(|text| - |p.rest| + 1, s.elements + [p.value], s.instructions)))
  {
    hide TakeElement, ElementAt, Raw;
    if !TakeElement(text[s.pos..]).Backwards? { ElementIsPiece(text, s.pos); }
  }

  lemma Suffix(text: string, pos: nat, rest: string)
    requires pos < |text| && rest != "" && |rest| < |text| - pos && rest == text[pos..][|text| - pos - |rest|..]
    ensures rest[1..] == text[|text| - |rest| + 1..]
  {
  }

  /** Taking one element off the front of a line. */
  lemma LineOfPiece(t: string)
    ensures var p := TakeElement(t);
            ReadLine(t) ==
            match p
            case Stop => NoLine
            case Backwards => LineBackwards
            case Piece(e, rest) =>
              if rest == "" || (rest[0] != ';' && rest[0] != ',') then NoLine
              else if rest[0] == ';' then Line([e], rest[1..])
              else if rest[1..] == "" then Line([e], "")
              else match ReadLine(rest[1..])
                   case Line(es, after) => Line([e] + es, after)
                   case NoLine => NoLine
                   case LineBackwards => LineBackwards
  {
    hide TakeElement;
  }

  lemma OneTurnLess(text: string, s: Scan, turns: nat)
    ensures match OneTurn(text, s)
            case Finished(list) => Outcome(text, s, turns) == Some(list)
            case More(next) => turns > 0 ==> Outcome(text, s, turns) == Outcome(text, next, turns - 1)
  {
    hide OneTurn;
  }

  /** A line of the grammar takes some turns, at most one for each of its characters. */
  lemma {:induction false} TurnsOfLine(text: string, s: Scan, turns: nat) returns (left: nat)
    requires s.pos < |text| && turns >= |text| - s.pos && !ReadLine(text[s.pos..]).LineBackwards?
    ensures var l := ReadLine(text[s.pos..]);
            && (l.NoLine? ==> Outcome(text, s, turns) == Some(s.instructions))
            && (l.Line? ==>
                  && left >= |l.rest|
                  && Outcome(text, s, turns) ==
                     Outcome(text, Scan(|text| - |l.rest|, [], s.instructions + [Raw(s.elements + l.elements)]), left))
    decreases |text| - s.pos
  {
    hide TakeElement, OneTurn, ReadLine, Outcome, Raw;
    left := turns;
    TurnIsPiece(text, s);
    OneTurnLess(text, s, turns);
    LineOfPiece(text[s.pos..]);
    var p := TakeElement(text[s.pos..]);
    if p.Piece? && p.rest != "" && (p.rest[0] == ';' || p.rest[0] == ',') {
      Suffix(text, s.pos, p.rest);
      left := turns - 1;
      if p.rest[0] == ',' {
        var next := Scan(|text| - |p.rest| + 1, s.elements + [p.value], s.instructions);
        if p.rest[1..] == "" {
          AtTheEnd(text, next, left);
        } else {
          left := TurnsOfLine(text, next, left);
          var l := ReadLine(p.rest[1..]);
          if l.Line? { assert s.elements + [p.value] + l.elements == s.elements + ([p.value] + l.elements); }
        }
      }
    }
  }

  lemma AtTheEnd(text: string, s: Scan, turns: nat)
    requires s.pos == |text| && s.elements != []
    ensures Outcome(text, s, turns) == Outcome(text, Scan(|text|, [], s.instructions + [Raw(s.elements)]), turns)
  {
  }

  lemma ParseAllStep(t: string)
    requires t != ""
    ensures match ReadLine(t)
            case Line(es, rest) => ParseAll(t) == Parsed([Raw(es)] + ParseAll(rest).instructions, ParseAll(rest).backwards)
            case NoLine => ParseAll(t) == Parsed([], false)
            case LineBackwards => ParseAll(t).backwards
  {
    hide ReadLine;
  }

  lemma {:induction false} TurnsOfText(text: string, s: Scan, turns: nat)
    requires s.pos <= |text| && turns >= |text| - s.pos && s.elements == [] && !ParseAll(text[s.pos..]).backwards
    ensures Outcome(text, s, turns) == Some(s.instructions + ParseAll(text[s.pos..]).instructions)
    decreases |text| - s.pos
  {
    hide ReadLine, TakeElement, OneTurn, Outcome, ParseAll, Raw;
    if s.pos == |text| {
      NothingLeft(text, s, turns);
    } else {
      ParseAllStep(text[s.pos..]);
      var left := TurnsOfLine(text, s, turns);
      var l := ReadLine(text[s.pos..]);
      if l.Line? {
        var next := Scan(|text| - |l.rest|, [], s.instructions + [Raw(s.elements + l.elements)]);
        assert [] + l.elements == l.elements;
        assert text[next.pos..] == l.rest;
        TurnsOfText(text, next, left);
        Regroup(s.instructions, Raw(l.elements), ParseAll(l.rest).instructions);
      } else {
        assert s.instructions + [] == s.instructions;
      }
    }
  }

  lemma Regroup(list: seq<Instruction>, i: Instruction, more: seq<Instruction>)
    ensures list + [i] + more == list + ([i] + more)
  {
  }

  lemma NothingLeft(text: string, s: Scan, turns: nat)
    requires s.pos == |text| && s.elements == []
    ensures Outcome(text, s, turns) == Some(s.instructions + ParseAll(text[s.pos..]).instructions)
  {
    assert s.instructions + [] == s.instructions;
  }

  /** If no length is negative, the loops end and have found what the grammar gives. */
  lemma LoopsFollowGrammar(text: string, turns: nat)
    requires !ParseAll(text).backwards && turns >= |text|
    ensures Outcome(text, BEGIN, turns) == Some(ParseAll(text).instructions)
  {
    assert text[0..] == text;
    TurnsOfText(text, BEGIN, turns);
    assert [] + ParseAll(text).instructions == ParseAll(text).instructions;
  }

  // ---- when the loops end ----------------------------------------------------------------------------------------

  /** The position after one turn; it depends on the position before it alone. */
  function NextPos(text: string, pos: nat): (p: Option<nat>)
    ensures p.Some? ==> p.value <= |text|
  {
    match OneTurn(text, Scan(pos, [], []))
    case Finished(_) => None
    case More(s) => Some(s.pos)
  }

  function PosAfter(text: string, pos: nat, turns: nat): Option<nat>
    decreases turns
  {
    if turns == 0 then Some(pos)
    else
      match NextPos(text, pos)
      case None => None
      case Some(next) => PosAfter(text, next, turns - 1)
  }

  lemma TurnFollowsPos(text: string, s: Scan)
    ensures NextPos(text, s.pos) == match OneTurn(text, s) case Finished(_) => None case More(next) => Some(next.pos)
  {
  }

  /** Parsing is not over after some turns exactly if there is a further position. */
  lemma {:induction false} EndsWithPos(text: string, s: Scan, turns: nat)
    ensures Outcome(text, s, turns).None? <==> PosAfter(text, s.pos, turns + 1).Some?
    decreases turns
  {
    hide OneTurn, NextPos;
    TurnFollowsPos(text, s);
    var t := OneTurn(text, s);
    if t.More? {
      if turns > 0 { EndsWithPos(text, t.scan, turns - 1); }
    }
  }

  lemma {:induction false} PosAfterSum(text: string, pos: nat, a: nat, b: nat)
    requires PosAfter(text, pos, a).Some?
    ensures PosAfter(text, pos, a + b) == PosAfter(text, PosAfter(text, pos, a).value, b)
    decreases a
  {
    hide NextPos;
    if a > 0 { PosAfterSum(text, NextPos(text, pos).value, a - 1, b); }
  }

  lemma {:induction false} PosInText(text: string, pos: nat, n: nat)
    requires pos <= |text| && PosAfter(text, pos, n).Some?
    ensures PosAfter(text, pos, n).value <= |text|
    decreases n
  {
    hide NextPos;
    if n > 0 { PosInText(text, NextPos(text, pos).value, n - 1); }
  }

  /** A position that has come back comes back for ever. */
  lemma {:induction false} ReturnsForever(text: string, pos: nat, period: nat, n: nat)
    requires period > 0 && PosAfter(text, pos, period) == Some(pos)
    ensures PosAfter(text, pos, n).Some?
    decreases n
  {
    if n >= period {
      PosAfterSum(text, pos, period, n - period);
      ReturnsForever(text, pos, period, n - period);
    } else {
      ShorterIsSome(text, pos, n, period);
    }
  }

  lemma {:induction false} ShorterIsSome(text: string, pos: nat, m: nat, n: nat)
    requires m <= n && PosAfter(text, pos, n).Some?
    ensures PosAfter(text, pos, m).Some?
    decreases m
  {
    hide NextPos;
    if m > 0 { ShorterIsSome(text, NextPos(text, pos).value, m - 1, n - 1); }
  }

  /** More numbers than there are values: two of them are equal. */
  lemma {:induction false} Pigeonhole(s: seq<nat>, bound: nat) returns (i: nat, j: nat)
    requires |s| > bound && forall k :: 0 <= k < |s| ==> s[k] < bound
    ensures i < j < |s| && s[i] == s[j]
    decreases bound
  {
    var top := |s| - 1;
    if k :| 0 <= k < top && s[k] == s[top] {
      return k, top;
    }
    var v := s[top];
    var rest: seq<nat> := seq(top, k requires 0 <= k < top => if s[k] > v then s[k] - 1 else s[k]);
    i, j := Pigeonhole(rest, bound - 1);
    assert s[i] != v && s[j] != v;
  }

  function Positions(text: string, n: nat): (s: seq<nat>)
    requires forall k :: 0 <= k < n ==> PosAfter(text, 0, k).Some?
    ensures |s| == n
  {
    seq(n, k requires 0 <= k < n => PosAfter(text, 0, k).value)
  }

  /** Loops that have not ended after a turn for each character have come back to a position. */
  lemma LateIsReturning(text: string) returns (i: nat, j: nat)
    requires PosAfter(text, 0, |text| + 1).Some?
    ensures i < j <= |text| + 1 && PosAfter(text, 0, i).Some? && PosAfter(text, 0, i) == PosAfter(text, 0, j)
  {
    forall k: nat | k < |text| + 2 ensures PosAfter(text, 0, k).Some? && PosAfter(text, 0, k).value <= |text| {
      ShorterIsSome(text, 0, k, |text| + 1);
      PosInText(text, 0, k);
    }
    var s := Positions(text, |text| + 2);
    i, j := Pigeonhole(s, |text| + 1);
    assert s[i] == PosAfter(text, 0, i).value && s[j] == PosAfter(text, 0, j).value;
  }

  lemma ReturningNeverEnds(text: string, i: nat, j: nat, n: nat)
    requires i < j && PosAfter(text, 0, i).Some? && PosAfter(text, 0, i) == PosAfter(text, 0, j)
    ensures PosAfter(text, 0, n).Some?
  {
    hide PosAfter;
    var p := PosAfter(text, 0, i).value;
    PosAfterSum(text, 0, i, j - i);
    if n < i {
      ShorterIsSome(text, 0, n, i);
    } else {
      ReturnsForever(text, p, j - i, n - i);
      PosAfterSum(text, 0, i, n - i);
    }
  }

  /** The loops end within a turn for each character, or never. */
  lemma EndsSoonOrNever(text: string, turns: nat)
    ensures Outcome(text, BEGIN, |text|).None? ==> Outcome(text, BEGIN, turns).None?
  {
    hide Outcome, PosAfter;
    EndsWithPos(text, BEGIN, |text|);
    EndsWithPos(text, BEGIN, turns);
    if Outcome(text, BEGIN, |text|).None? {
      var i, j := LateIsReturning(text);
      ReturningNeverEnds(text, i, j, turns + 1);
    }
  }

  /** They end if and only if they never come back to a position. */
  lemma EndsUnlessReturning(text: string)
    ensures (exists turns: nat :: Outcome(text, BEGIN, turns).Some?) <==>
            forall i: nat, j: nat :: i < j && PosAfter(text, 0, i).Some? ==> PosAfter(text, 0, i) != PosAfter(text, 0, j)
  {
    hide Outcome, PosAfter;
    EndsWithPos(text, BEGIN, |text|);
    if Outcome(text, BEGIN, |text|).None? {
      forall turns: nat ensures Outcome(text, BEGIN, turns).None? { EndsSoonOrNever(text, turns); }
      var i, j := LateIsReturning(text);
    } else {
      forall i: nat, j: nat | i < j && PosAfter(text, 0, i).Some? ensures PosAfter(text, 0, i) != PosAfter(text, 0, j) {
        if PosAfter(text, 0, i) == PosAfter(text, 0, j) { ReturningNeverEnds(text, i, j, |text| + 1); }
      }
    }
  }

  /** The length -4 in this text sends the scan back to its own start. */
  lemma NegativeLengthLoops(turns: nat)
    ensures Outcome("1.a,-4.;", BEGIN, turns).None?
  {
    var text := "1.a,-4.;";
    LoopStarts();
    assert NextPos(text, 0) == Some(4) && NextPos(text, 4) == Some(4);
    assert PosAfter(text, 4, 1) == Some(4) by { assert PosAfter(text, 4, 0) == Some(4); }
    ReturnsForever(text, 4, 1, turns);
    EndsWithPos(text, BEGIN, turns);
  }

  lemma LoopStarts()
    ensures NextPos("1.a,-4.;", 0) == Some(4) && NextPos("1.a,-4.;", 4) == Some(4)
  {
    FirstElement();
    SecondElement();
    hide ElementAt;
  }

  lemma FirstElement()
    ensures ElementAt("1.a,-4.;", 0) == Some((2, 3))
  {
    var text := "1.a,-4.;";
    FirstDot(text, 1);
    ParseOne();
    hide ParseInt, IndexOf;
    assert text[0..] == text && text[0..0 + 1] == "1";
  }

  lemma SecondElement()
    ensures ElementAt("1.a,-4.;", 4) == Some((7, 3))
  {
    var text := "1.a,-4.;";
    FirstDot(text[4..], 2);
    ParseMinusFour();
    hide ParseInt, IndexOf;
    assert text[4..4 + 2] == "-4";
  }

  lemma ParseOne()
    ensures ParseInt("1") == Some(1)
  {
    hide IsSpace;
    assert !IsSpace('1') by { NoSpace('1'); }
    assert "1"[..1] == "1" && "1"[1..] == "" && "1"[..0] == "" && DigitRun("1") == 1;
  }

  lemma ParseMinusFour()
    ensures ParseInt("-4") == Some(-4)
  {
    hide IsSpace;
    assert !IsSpace('-') by { NoSpace('-'); }
    assert "-4"[1..] == "4" && "4"[..1] == "4" && "4"[1..] == "" && "4"[..0] == "" && DigitRun("4") == 1 && Value("4") == 4;
  }

  lemma NoSpace(c: char)
    requires c == '-' || IsDigit(c)
    ensures !IsSpace(c)
  {
  }

  lemma {:induction false} FirstDot(s: string, n: nat)
    requires n < |s| && s[n] == '.' && '.' !in s[..n]
    ensures IndexOf(s, '.') == Some(n)
  {
    if n > 0 {
      assert s[0] in s[..n];
      assert s[1..][..n - 1] == s[1..n];
      assert forall i :: 0 <= i < n - 1 ==> s[1..][i] == s[..n][i + 1];
      FirstDot(s[1..], n - 1);
    }
  }
}
