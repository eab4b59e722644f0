/** The gateway's loop from WebSocket frames to instructions (`handle_connection`). */
module GuacSession {
  import opened Results
  import opened GuacParser
  import opened GuacGrammar
  import opened GuacTheorems

  /**
   * The instructions handled for the given frames: a frame that cannot be parsed is dropped together
   * with everything the parser holds, and an empty frame (or a lost connection) ends the session.
   */
  function Handled(capacity: nat, m: Machine, frames: seq<string>): seq<Instruction>
    requires Sound(m)
    decreases |frames|
  {
    if frames == [] || frames[0] == "" then []
    else
      match FeedAll(capacity, m, frames[0])
      case Next(m1) => m1.ready + Handled(capacity, m1.(ready := []), frames[1..])
      case Throw(_, _) => Handled(capacity, INIT, frames[1..])
  }

  method Relay(parser: GuacParser, frames: seq<string>) returns (handled: seq<Instruction>)
    requires parser.Valid()
    modifies parser
    ensures parser.Valid()
    ensures handled == Handled(parser.capacity, INIT, frames)
  {
    hide FeedAll, Handled;
    handled := [];
    parser.Reset();
    var i := 0;
    assert frames[0..] == frames;
    while i < |frames|
      invariant 0 <= i <= |frames| && parser.Valid() && parser.ready == []
      invariant Handled(parser.capacity, INIT, frames) == handled + Handled(parser.capacity, parser.Contents(), frames[i..])
    {
      var frame := frames[i];
      HandledStep(parser.capacity, parser.Contents(), frames, i);
      if frame == "" {
        assert handled + [] == handled;
        return;
      }
      i := i + 1;
      var error := parser.Feed(frame);
      if error.Some? {
        parser.Reset();
        continue;
      }
      ghost var before, m1 := handled, parser.Contents();
      while parser.HasInstruction()
        invariant parser.Valid() && before + m1.ready == handled + parser.ready
        invariant parser.Contents() == m1.(ready := parser.ready)
        decreases |parser.ready|
      {
        var r := parser.NextInstruction();
        handled := handled + [r.value];
      }
      assert before + (m1.ready + Handled(parser.capacity, m1.(ready := []), frames[i..])) ==
             before + m1.ready + Handled(parser.capacity, m1.(ready := []), frames[i..]);
    }
    NothingHandled(parser.capacity, parser.Contents());
    assert frames[i..] == [] && handled + [] == handled;
  }

  /** What one frame adds. */
  lemma HandledStep(capacity: nat, m: Machine, frames: seq<string>, i: nat)
    requires Sound(m) && i < |frames|
    ensures Handled(capacity, m, frames[i..]) ==
            if frames[i] == "" then []
            else match FeedAll(capacity, m, frames[i])
                 case Next(m1) => m1.ready + Handled(capacity, m1.(ready := []), frames[i + 1..])
                 case Throw(_, _) => Handled(capacity, INIT, frames[i + 1..])
  {
    hide FeedAll;
    assert frames[i..][0] == frames[i] && frames[i..][1..] == frames[i + 1..];
  }

  lemma NothingHandled(capacity: nat, m: Machine)
    requires Sound(m)
    ensures Handled(capacity, m, []) == []
  {
  }

  /** Instructions already waiting do not influence what is read next. */
  lemma {:induction false} ReadyIsIndependent(capacity: nat, m: Machine, waiting: seq<Instruction>, s: string)
    requires Sound(m)
    ensures var o := FeedAll(capacity, m, s); var p := FeedAll(capacity, m.(ready := waiting + m.ready), s);
            && (o.Next? <==> p.Next?)
            && (o.Next? ==> p.machine == o.machine.(ready := waiting + o.machine.ready))
    decreases |s|
  {
    if s != "" {
      StepIsSound(capacity, m, s[0]);
      var o := Step(capacity, m, s[0]);
      var i := if m.phase.Separator? then Store(m.current, m.phase.read) else BLANK;
      assert waiting + m.ready + [i] == waiting + (m.ready + [i]);
      assert Step(capacity, m.(ready := waiting + m.ready), s[0]).machine == o.machine.(ready := waiting + o.machine.ready);
      if o.Next? { ReadyIsIndependent(capacity, o.machine, waiting, s[1..]); }
    }
  }

  lemma Drained(capacity: nat, m: Machine, s: string)
    requires Sound(m)
    ensures var o := FeedAll(capacity, m.(ready := []), s); var p := FeedAll(capacity, m, s);
            && (o.Next? <==> p.Next?)
            && (o.Next? ==> p.machine == o.machine.(ready := m.ready + o.machine.ready))
  {
    ReadyIsIndependent(capacity, m.(ready := []), m.ready, s);
    assert m.ready + [] == m.ready;
  }

  /** As long as the frames are accepted, their boundaries do not matter. */
  lemma {:induction false} AcceptedFrames(capacity: nat, m: Machine, frames: seq<string>, rest: seq<string>)
    requires Sound(m) && m.ready == [] && "" !in frames
    requires FeedAll(capacity, m, Flatten(frames)).Next?
    ensures var m1 := FeedAll(capacity, m, Flatten(frames)).machine;
            Handled(capacity, m, frames + rest) == m1.ready + Handled(capacity, m1.(ready := []), rest)
    decreases |frames|
  {
    if frames == [] {
      assert frames + rest == rest && m.ready + Handled(capacity, m, rest) == Handled(capacity, m, rest);
    } else {
      var later := Flatten(frames[1..]);
      assert (frames + rest)[0] == frames[0] && (frames + rest)[1..] == frames[1..] + rest;
      FeedConcat(capacity, m, frames[0], later);
      var m1 := FeedAll(capacity, m, frames[0]).machine;
      Drained(capacity, m1, later);
      AcceptedFrames(capacity, m1.(ready := []), frames[1..], rest);
      var m2 := FeedAll(capacity, m1.(ready := []), later).machine;
      assert m1.ready + (m2.ready + Handled(capacity, m2.(ready := []), rest)) ==
             m1.ready + m2.ready + Handled(capacity, m2.(ready := []), rest);
    }
  }

  /** A session whose whole text is well formed handles exactly the instructions of that text. */
  lemma HandlesTheText(capacity: nat, frames: seq<string>)
    requires "" !in frames && ReadAll(Limit(capacity), Flatten(frames)).Document?
    ensures Handled(capacity, INIT, frames) == ReadAll(Limit(capacity), Flatten(frames)).instructions
  {
    ParserRefinesReader(capacity, Flatten(frames));
    hide ReadAll, FeedAll, Residue;
    AcceptedFrames(capacity, INIT, frames, []);
    assert frames + [] == frames;
    var m1 := FeedAll(capacity, INIT, Flatten(frames)).machine;
    assert m1.ready + [] == m1.ready;
  }

  /**
   * A frame that makes the text malformed costs its own instructions and the one under way, and
   * nothing else: what came before has been handled, what comes after is read afresh.
   */
  lemma BadFrameIsContained(capacity: nat, good: seq<string>, bad: string, rest: seq<string>)
    requires "" !in good && bad != ""
    requires ReadAll(Limit(capacity), Flatten(good)).Document?
    requires ReadAll(Limit(capacity), Flatten(good) + bad).Malformed?
    ensures Handled(capacity, INIT, good + [bad] + rest) ==
            ReadAll(Limit(capacity), Flatten(good)).instructions + Handled(capacity, INIT, rest)
  {
    hide ReadAll, FeedAll, Residue, ReadInstruction, Handled, Flatten;
    ParserRefinesReader(capacity, Flatten(good));
    ParserRefinesReader(capacity, Flatten(good) + bad);
    AcceptedFrames(capacity, INIT, good, [bad] + rest);
    assert good + [bad] + rest == good + ([bad] + rest);
    BadFrame(capacity, Flatten(good), bad, rest);
  }

  lemma BadFrame(capacity: nat, text: string, bad: string, rest: seq<string>)
    requires bad != "" && FeedAll(capacity, INIT, text).Next? && FeedAll(capacity, INIT, text + bad).Throw?
    ensures Handled(capacity, FeedAll(capacity, INIT, text).machine.(ready := []), [bad] + rest) ==
            Handled(capacity, INIT, rest)
  {
    var m1 := FeedAll(capacity, INIT, text).machine;
    FeedConcat(capacity, INIT, text, bad);
    Drained(capacity, m1, bad);
    assert ([bad] + rest)[0] == bad && ([bad] + rest)[1..] == rest;
  }

  /** An empty frame ends the session: nothing that follows it is handled, and nothing that came before is undone. */
  lemma {:induction false} EmptyFrameEnds(capacity: nat, m: Machine, frames: seq<string>, rest: seq<string>)
    requires Sound(m)
    ensures Handled(capacity, m, frames + [""] + rest) == Handled(capacity, m, frames)
    decreases |frames|
  {
    hide FeedAll;
    var all := frames + [""] + rest;
    if frames != [] && frames[0] != "" {
      assert all[0] == frames[0] && all[1..] == frames[1..] + [""] + rest;
      match FeedAll(capacity, m, frames[0])
      case Next(m1) => EmptyFrameEnds(capacity, m1.(ready := []), frames[1..], rest);
      case Throw(_, _) => EmptyFrameEnds(capacity, INIT, frames[1..], rest);
    } else {
      assert all[0] == "";
    }
  }
}
