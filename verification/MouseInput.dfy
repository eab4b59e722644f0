/**
 * Mouse input of a web session (`send_mouse`, `drain_input_queue` in `guac_web.cpp`): from button
 * masks to press and release events, and from the queue of events to numbered requests.
 */
module MouseInput {
  import opened Results

  // ---- masks ----------------------------------------------------------------------------------------------

  datatype Button = LEFT | MIDDLE | RIGHT

  /** The mask bit of a button; the scroll bits are 3 and 4. */
  function Weight(b: Button): nat { match b case LEFT => 1 case MIDDLE => 2 case RIGHT => 4 }

  /** Whether a bit of a mask is set; two's complement for negative masks. */
  predicate Bit(mask: int, weight: nat)
    requires weight > 0
  {
    (mask / weight) % 2 == 1
  }

  predicate Pressed(mask: int, b: Button) { Bit(mask, Weight(b)) }

  datatype Event = Wheel(x: int, y: int, deltaY: int)
                 | Press(x: int, y: int, button: Button, buttons: nat)
                 | Release(x: int, y: int, button: Button, buttons: nat)
                 | Move(x: int, y: int, buttons: nat)
                 | Key(keysym: int, down: bool)

  /** The browser's bit mask swaps the middle and the right button. */
  function CdpButtons(mask: int): nat {
    (if Bit(mask, 1) then 1 else 0) + (if Bit(mask, 2) then 4 else 0) + (if Bit(mask, 4) then 2 else 0)
  }

  // ---- replaying events --------------------------------------------------------------------------------------

  /** The buttons that are down after some events, as a receiver sees it. */
  function Down(events: seq<Event>): set<Button> {
    if events == [] then {}
    else
      var e, before := events[|events| - 1], Down(events[..|events| - 1]);
      if e.Press? then before + {e.button} else if e.Release? then before - {e.button} else before
  }

  /** Buttons are pressed only while up and released only while down. */
  predicate Alternates(events: seq<Event>) {
    events == [] ||
    (var e, init := events[|events| - 1], events[..|events| - 1];
     && Alternates(init)
     && (e.Press? ==> e.button !in Down(init))
     && (e.Release? ==> e.button in Down(init)))
  }

  /** The low three bits of a mask as a set of buttons. */
  function Buttons(mask: int): set<Button> {
    (if Pressed(mask, LEFT) then {LEFT} else {}) + (if Pressed(mask, MIDDLE) then {MIDDLE} else {}) +
    (if Pressed(mask, RIGHT) then {RIGHT} else {})
  }

  lemma Push(events: seq<Event>, e: Event)
    ensures Down(events + [e]) ==
            if e.Press? then Down(events) + {e.button} else if e.Release? then Down(events) - {e.button} else Down(events)
    ensures Alternates(events + [e]) <==>
            Alternates(events) && (e.Press? ==> e.button !in Down(events)) && (e.Release? ==> e.button in Down(events))
  {
    assert (events + [e])[..|events|] == events;
  }

  // ---- the events of one mask --------------------------------------------------------------------------------

  function Wheels(mask: int, x: int, y: int): seq<Event> {
    (if Bit(mask, 8) then [Wheel(x, y, -120)] else []) + (if Bit(mask, 16) then [Wheel(x, y, 120)] else [])
  }

  function PressOf(before: int, mask: int, x: int, y: int, b: Button): seq<Event> {
    if Pressed(mask, b) && !Pressed(before, b) then [Press(x, y, b, CdpButtons(mask))] else []
  }

  function ReleaseOf(before: int, mask: int, x: int, y: int, b: Button): seq<Event> {
    if Pressed(before, b) && !Pressed(mask, b) then [Release(x, y, b, CdpButtons(mask))] else []
  }

  function Presses(before: int, mask: int, x: int, y: int): seq<Event> {
    PressOf(before, mask, x, y, LEFT) + PressOf(before, mask, x, y, MIDDLE) + PressOf(before, mask, x, y, RIGHT)
  }

  function Releases(before: int, mask: int, x: int, y: int): seq<Event> {
    ReleaseOf(before, mask, x, y, LEFT) + ReleaseOf(before, mask, x, y, MIDDLE) + ReleaseOf(before, mask, x, y, RIGHT)
  }

  /** Scrolling, then buttons that are newly down, then those newly up, and always a move. */
  function MouseEvents(before: int, mask: int, x: int, y: int): seq<Event> {
    Wheels(mask, x, y) + Presses(before, mask, x, y) + Releases(before, mask, x, y) + [Move(x, y, CdpButtons(mask))]
  }

  class MouseState {
    var previous: int          // prev_button_mask
    var queue: seq<Event>      // everything that send_mouse has pushed, in order

    constructor ()
      ensures previous == 0 && queue == []
    {
      previous, queue := 0, [];
    }

    method PushIf(c: bool, e: Event)
      modifies this`queue
      ensures queue == old(queue) + if c then [e] else []
    {
      if c { queue := queue + [e]; } else { assert queue == queue + []; }
    }

    method PushWheels(mask: int, x: int, y: int)
      modifies this`queue
      ensures queue == old(queue) + Wheels(mask, x, y)
    {
      hide Bit;
      PushIf(Bit(mask, 8), Wheel(x, y, -120));
      PushIf(Bit(mask, 16), Wheel(x, y, 120));
    }

    method PushPresses(before: int, mask: int, x: int, y: int)
      modifies this`queue
      ensures queue == old(queue) + Presses(before, mask, x, y)
    {
      hide Pressed, CdpButtons;
      var buttons := CdpButtons(mask);
      PushIf(Pressed(mask, LEFT) && !Pressed(before, LEFT), Press(x, y, LEFT, buttons));
      PushIf(Pressed(mask, MIDDLE) && !Pressed(before, MIDDLE), Press(x, y, MIDDLE, buttons));
      PushIf(Pressed(mask, RIGHT) && !Pressed(before, RIGHT), Press(x, y, RIGHT, buttons));
    }

    method PushReleases(before: int, mask: int, x: int, y: int)
      modifies this`queue
      ensures queue == old(queue) + Releases(before, mask, x, y)
    {
      hide Pressed, CdpButtons;
      var buttons := CdpButtons(mask);
      PushIf(Pressed(before, LEFT) && !Pressed(mask, LEFT), Release(x, y, LEFT, buttons));
      PushIf(Pressed(before, MIDDLE) && !Pressed(mask, MIDDLE), Release(x, y, MIDDLE, buttons));
      PushIf(Pressed(before, RIGHT) && !Pressed(mask, RIGHT), Release(x, y, RIGHT, buttons));
    }

    method SendMouse(x: int, y: int, mask: int)
      modifies this
      ensures previous == mask
      ensures queue == old(queue) + MouseEvents(old(previous), mask, x, y)
    {
      hide CdpButtons, Wheels, Presses, Releases;
      var before := previous;
      previous := mask;
      PushWheels(mask, x, y);
      PushPresses(before, mask, x, y);
      PushReleases(before, mask, x, y);
      queue := queue + [Move(x, y, CdpButtons(mask))];
    }
  }

  // ---- what a receiver makes of them ----------------------------------------------------------------------------

  lemma ButtonsAre(mask: int)
    ensures forall b :: b in Buttons(mask) <==> Pressed(mask, b)
  {
    hide Pressed;
    forall b: Button ensures b in Buttons(mask) <==> Pressed(mask, b) {
      match b case LEFT => case MIDDLE => case RIGHT =>
    }
  }

  /** The button b goes down if it is new. */
  lemma PressReplays(events: seq<Event>, before: int, mask: int, x: int, y: int, b: Button)
    requires Alternates(events) && (b in Down(events) ==> Pressed(before, b))
    ensures var e := events + PressOf(before, mask, x, y, b);
            Alternates(e) && Down(e) == if Pressed(mask, b) && !Pressed(before, b) then Down(events) + {b} else Down(events)
  {
    Push(events, Press(x, y, b, CdpButtons(mask)));
    assert events + [] == events;
  }

  /** The button b goes up if it is gone. */
  lemma ReleaseReplays(events: seq<Event>, before: int, mask: int, x: int, y: int, b: Button)
    requires Alternates(events) && (Pressed(before, b) ==> b in Down(events))
    ensures var e := events + ReleaseOf(before, mask, x, y, b);
            Alternates(e) && Down(e) == if Pressed(before, b) && !Pressed(mask, b) then Down(events) - {b} else Down(events)
  {
    Push(events, Release(x, y, b, CdpButtons(mask)));
    assert events + [] == events;
  }

  lemma WheelsReplay(events: seq<Event>, mask: int, x: int, y: int)
    requires Alternates(events)
    ensures Alternates(events + Wheels(mask, x, y)) && Down(events + Wheels(mask, x, y)) == Down(events)
  {
    var up := events + if Bit(mask, 8) then [Wheel(x, y, -120)] else [];
    Push(events, Wheel(x, y, -120));
    assert events + [] == events;
    Push(up, Wheel(x, y, 120));
    assert up + [] == up;
    assert events + Wheels(mask, x, y) == up + if Bit(mask, 16) then [Wheel(x, y, 120)] else [];
  }

  lemma PressesReplay(events: seq<Event>, before: int, mask: int, x: int, y: int)
    requires Alternates(events) && Down(events) == Buttons(before)
    ensures var e := events + Presses(before, mask, x, y);
            Alternates(e) && forall b :: b in Down(e) <==> Pressed(before, b) || Pressed(mask, b)
  {
    ButtonsAre(before);
    hide Pressed, PressOf, Down, Alternates, Buttons;
    var p, q, r := PressOf(before, mask, x, y, LEFT), PressOf(before, mask, x, y, MIDDLE), PressOf(before, mask, x, y, RIGHT);
    PressReplays(events, before, mask, x, y, LEFT);
    PressReplays(events + p, before, mask, x, y, MIDDLE);
    PressReplays(events + p + q, before, mask, x, y, RIGHT);
    assert events + (p + q + r) == events + p + q + r;
    forall b: Button ensures b in Down(events + p + q + r) <==> Pressed(before, b) || Pressed(mask, b) {
      match b case LEFT => case MIDDLE => case RIGHT =>
    }
  }

  lemma ReleasesReplay(events: seq<Event>, before: int, mask: int, x: int, y: int)
    requires Alternates(events) && forall b :: b in Down(events) <==> Pressed(before, b) || Pressed(mask, b)
    ensures var e := events + Releases(before, mask, x, y); Alternates(e) && Down(e) == Buttons(mask)
  {
    ButtonsAre(mask);
    hide Pressed, ReleaseOf, Down, Alternates, Buttons;
    var p, q := ReleaseOf(before, mask, x, y, LEFT), ReleaseOf(before, mask, x, y, MIDDLE);
    var r := ReleaseOf(before, mask, x, y, RIGHT);
    ReleaseReplays(events, before, mask, x, y, LEFT);
    ReleaseReplays(events + p, before, mask, x, y, MIDDLE);
    ReleaseReplays(events + p + q, before, mask, x, y, RIGHT);
    assert events + (p + q + r) == events + p + q + r;
    forall b: Button ensures b in Down(events + p + q + r) <==> b in Buttons(mask) {
      match b case LEFT => case MIDDLE => case RIGHT =>
    }
  }

  /** One mask: the events turn the buttons of the old mask into those of the new one. */
  lemma MouseEventsReplay(events: seq<Event>, before: int, mask: int, x: int, y: int)
    requires Alternates(events) && Down(events) == Buttons(before)
    ensures var e := events + MouseEvents(before, mask, x, y); Alternates(e) && Down(e) == Buttons(mask)
  {
    hide Alternates, Down, Buttons, Wheels, Presses, Releases, Pressed;
    var w, p, r := Wheels(mask, x, y), Presses(before, mask, x, y), Releases(before, mask, x, y);
    var m := Move(x, y, CdpButtons(mask));
    WheelsReplay(events, mask, x, y);
    PressesReplay(events + w, before, mask, x, y);
    ReleasesReplay(events + w + p, before, mask, x, y);
    Push(events + w + p + r, m);
    assert events + (w + p + r + [m]) == events + w + p + r + [m];
  }

  // ---- which events there are ------------------------------------------------------------------------------------

  /** The place of an event among those of one mask: scrolling up and down, presses, releases, the move. */
  function Rank(e: Event): int {
    match e
    case Wheel(_, _, d) => if d < 0 then 0 else 1
    case Press(_, _, b, _) => if b == LEFT then 2 else if b == MIDDLE then 3 else 4
    case Release(_, _, b, _) => if b == LEFT then 5 else if b == MIDDLE then 6 else 7
    case Move(_, _, _) => 8
    case Key(_, _) => 9
  }

  /** In the order of their ranks, no rank twice, none above `top`. */
  ghost predicate Ranked(events: seq<Event>, top: int) {
    && (forall i, j :: 0 <= i < j < |events| ==> Rank(events[i]) < Rank(events[j]))
    && (forall i :: 0 <= i < |events| ==> Rank(events[i]) <= top)
  }

  lemma RankedPush(events: seq<Event>, top: int, c: bool, e: Event, more: seq<Event>)
    requires Ranked(events, top) && top < Rank(e) && more == events + if c then [e] else []
    ensures Ranked(more, Rank(e))
    ensures forall f :: f in more <==> f in events || (c && f == e)
  {
  }

  /** Bits 0, 1 and 2 of the gateway's mask are left, middle and right; the browser's are left, right and middle. */
  lemma MaskBits(mask: int)
    ensures Pressed(mask, LEFT) <==> mask % 2 == 1
    ensures Pressed(mask, MIDDLE) <==> mask % 4 >= 2
    ensures Pressed(mask, RIGHT) <==> mask % 8 >= 4
    ensures var m := CdpButtons(mask);
            && m < 8
            && (m % 2 == 1 <==> Pressed(mask, LEFT))
            && (m % 4 >= 2 <==> Pressed(mask, RIGHT))
            && (m % 8 >= 4 <==> Pressed(mask, MIDDLE))
  {
  }

  /**
   * What one mask brings about: bit 3 scrolls up, bit 4 down, a button is pressed or released if
   * and only if its bit has changed, and there is one move; every event is at (x, y).
   */
  ghost predicate Occurs(e: Event, before: int, mask: int, x: int, y: int) {
    match e
    case Wheel(u, v, d) => u == x && v == y && ((d == -120 && mask % 16 >= 8) || (d == 120 && mask % 32 >= 16))
    case Press(u, v, b, m) => u == x && v == y && m == CdpButtons(mask) && b in Buttons(mask) - Buttons(before)
    case Release(u, v, b, m) => u == x && v == y && m == CdpButtons(mask) && b in Buttons(before) - Buttons(mask)
    case Move(u, v, m) => u == x && v == y && m == CdpButtons(mask)
    case Key(_, _) => false
  }

  lemma ScrollBits(mask: int)
    ensures Bit(mask, 8) <==> mask % 16 >= 8
    ensures Bit(mask, 16) <==> mask % 32 >= 16
  {
  }

  lemma WheelsRanked(mask: int, x: int, y: int)
    ensures Ranked(Wheels(mask, x, y), 1)
    ensures forall e :: e in Wheels(mask, x, y) <==>
                        (e == Wheel(x, y, -120) && mask % 16 >= 8) || (e == Wheel(x, y, 120) && mask % 32 >= 16)
  {
    ScrollBits(mask);
    hide Bit;
    var up := Wheels(mask, x, y)[..if Bit(mask, 8) then 1 else 0];
    RankedPush([], -1, Bit(mask, 8), Wheel(x, y, -120), up);
    RankedPush(up, 0, Bit(mask, 16), Wheel(x, y, 120), Wheels(mask, x, y));
  }

  lemma PressesRanked(events: seq<Event>, before: int, mask: int, x: int, y: int)
    requires Ranked(events, 1)
    ensures var more := events + Presses(before, mask, x, y);
            && Ranked(more, 4)
            && forall e :: e in more <==> e in events || (e.Press? && Occurs(e, before, mask, x, y))
  {
    ButtonsAre(before);
    ButtonsAre(mask);
    hide Pressed, Buttons, CdpButtons, Rank, Ranked;
    RanksOf(x, y, CdpButtons(mask));
    var p, q, r := PressOf(before, mask, x, y, LEFT), PressOf(before, mask, x, y, MIDDLE), PressOf(before, mask, x, y, RIGHT);
    assert events + (p + q + r) == events + p + q + r;
    RankedPush(events, 1, p != [], Press(x, y, LEFT, CdpButtons(mask)), events + p);
    RankedPush(events + p, 2, q != [], Press(x, y, MIDDLE, CdpButtons(mask)), events + p + q);
    RankedPush(events + p + q, 3, r != [], Press(x, y, RIGHT, CdpButtons(mask)), events + p + q + r);
    forall e: Event ensures e in events + p + q + r <==> e in events || (e.Press? && Occurs(e, before, mask, x, y)) {
      if e.Press? { match e.button case LEFT => case MIDDLE => case RIGHT => }
    }
  }

  lemma ReleasesRanked(events: seq<Event>, before: int, mask: int, x: int, y: int)
    requires Ranked(events, 4)
    ensures var more := events + Releases(before, mask, x, y);
            && Ranked(more, 7)
            && forall e :: e in more <==> e in events || (e.Release? && Occurs(e, before, mask, x, y))
  {
    ButtonsAre(before);
    ButtonsAre(mask);
    hide Pressed, Buttons, CdpButtons, Rank, Ranked;
    RanksOf(x, y, CdpButtons(mask));
    var p, q := ReleaseOf(before, mask, x, y, LEFT), ReleaseOf(before, mask, x, y, MIDDLE);
    var r := ReleaseOf(before, mask, x, y, RIGHT);
    assert events + (p + q + r) == events + p + q + r;
    RankedPush(events, 4, p != [], Release(x, y, LEFT, CdpButtons(mask)), events + p);
    RankedPush(events + p, 5, q != [], Release(x, y, MIDDLE, CdpButtons(mask)), events + p + q);
    RankedPush(events + p + q, 6, r != [], Release(x, y, RIGHT, CdpButtons(mask)), events + p + q + r);
    forall e: Event ensures e in events + p + q + r <==> e in events || (e.Release? && Occurs(e, before, mask, x, y)) {
      if e.Release? { match e.button case LEFT => case MIDDLE => case RIGHT => }
    }
  }

  lemma RanksOf(x: int, y: int, m: nat)
    ensures Rank(Press(x, y, LEFT, m)) == 2 && Rank(Press(x, y, MIDDLE, m)) == 3 && Rank(Press(x, y, RIGHT, m)) == 4
    ensures Rank(Release(x, y, LEFT, m)) == 5 && Rank(Release(x, y, MIDDLE, m)) == 6 && Rank(Release(x, y, RIGHT, m)) == 7
    ensures Rank(Move(x, y, m)) == 8
  {
  }

  /** The events of one mask are exactly those that occur, each once, in the order of their ranks. */
  lemma MouseEventsAre(before: int, mask: int, x: int, y: int)
    ensures Ranked(MouseEvents(before, mask, x, y), 8)
    ensures forall e :: e in MouseEvents(before, mask, x, y) <==> Occurs(e, before, mask, x, y)
  {
    hide Wheels, Presses, Releases, Buttons, CdpButtons, Rank, Ranked;
    var w, p, r := Wheels(mask, x, y), Presses(before, mask, x, y), Releases(before, mask, x, y);
    var m := Move(x, y, CdpButtons(mask));
    RanksOf(x, y, CdpButtons(mask));
    WheelsRanked(mask, x, y);
    PressesRanked(w, before, mask, x, y);
    ReleasesRanked(w + p, before, mask, x, y);
    RankedPush(w + p + r, 7, true, m, w + p + r + [m]);
  }

  /** A mouse position with the buttons held there. */
  datatype Sample = Sample(x: int, y: int, mask: int)

  function LastMask(samples: seq<Sample>): int { if samples == [] then 0 else samples[|samples| - 1].mask }

  /** Everything that is pushed for a sequence of samples. */
  function AllEvents(samples: seq<Sample>): seq<Event> {
    if samples == [] then []
    else
      var init, s := samples[..|samples| - 1], samples[|samples| - 1];
      AllEvents(init) + MouseEvents(LastMask(init), s.mask, s.x, s.y)
  }

  /** Over any sequence of masks: presses and releases alternate, and replaying them gives the last mask's buttons. */
  lemma {:induction false} ReplayGivesLastMask(samples: seq<Sample>)
    ensures Alternates(AllEvents(samples)) && Down(AllEvents(samples)) == Buttons(LastMask(samples))
  {
    if samples != [] {
      var init, s := samples[..|samples| - 1], samples[|samples| - 1];
      ReplayGivesLastMask(init);
      MouseEventsReplay(AllEvents(init), LastMask(init), s.mask, s.x, s.y);
    }
  }

  method SendSamples(samples: seq<Sample>) returns (events: seq<Event>)
    ensures events == AllEvents(samples)
  {
    var state := new MouseState();
    for i := 0 to |samples|
      invariant state.queue == AllEvents(samples[..i]) && state.previous == LastMask(samples[..i])
    {
      assert samples[..i + 1][..i] == samples[..i];
      state.SendMouse(samples[i].x, samples[i].y, samples[i].mask);
    }
    assert samples[..|samples|] == samples;
    return state.queue;
  }

  /** In an alternating sequence the presses and releases of one button come in turn, a press first. */
  lemma {:induction false} PressesAndReleases(events: seq<Event>, b: Button)
    requires Alternates(events)
    ensures Count(events, b, true) == Count(events, b, false) + if b in Down(events) then 1 else 0
  {
    if events != [] { PressesAndReleases(events[..|events| - 1], b); }
  }

  function Count(events: seq<Event>, b: Button, presses: bool): nat {
    if events == [] then 0
    else
      var e := events[|events| - 1];
      Count(events[..|events| - 1], b, presses) +
      if (if presses then e.Press? && e.button == b else e.Release? && e.button == b) then 1 else 0
  }

  // ---- requests ---------------------------------------------------------------------------------------------------

  datatype Request = Request(id: int, event: Event)

  /** What comes back from the browser: an answer with its id, or something without one. */
  datatype Message = Answer(id: int) | Other

  /** How often the stop flag will still be read unset; it is never unset again. None: it is not set at all. */
  type Patience = Option<nat>

  function Less(p: Patience): Patience { if p.Some? && p.value > 0 then Some(p.value - 1) else p }

  /**
   * The rest of the messages after the answer to the given request, or when the stop flag ends the
   * waiting; none if the connection ends first.
   */
  function AwaitAnswer(id: int, messages: seq<Message>, p: Patience): Option<(seq<Message>, Patience)> {
    if p == Some(0) then Some((messages, p))
    else if messages == [] then None
    else if messages[0] == Answer(id) then Some((messages[1..], Less(p)))
    else AwaitAnswer(id, messages[1..], Less(p))
  }

  /** The requests for a queue of events, numbered from `first`. */
  function Requests(events: seq<Event>, first: int): seq<Request> {
    if events == [] then [] else [Request(first, events[0])] + Requests(events[1..], first + 1)
  }

  /**
   * The queue is sent in order, each event once, each under the next number, and each only after the
   * answer to the one before unless the proxy is being stopped; if the connection ends, what was sent
   * is a prefix.
   */
  method DrainInputQueue(queue: seq<Event>, firstId: int, messages: seq<Message>, p: Patience)
      returns (ok: bool, sent: seq<Request>, nextId: int, left: seq<Message>, q: Patience)
    ensures sent <= Requests(queue, firstId) && nextId == firstId + |sent|
    ensures ok ==> sent == Requests(queue, firstId) && Answers(sent, messages, p) == Some((left, q))
    ensures !ok ==> sent != [] && Answers(sent, messages, p).None? && Answers(sent[..|sent| - 1], messages, p).Some?
  {
    sent, nextId, left, q := [], firstId, messages, p;
    var rest := queue;
    while rest != []
      invariant nextId == firstId + |sent| && Answers(sent, messages, p) == Some((left, q))
      invariant Requests(queue, firstId) == sent + Requests(rest, nextId)
    {
      var event := rest[0];
      rest := rest[1..];
      var id := nextId;
      nextId := nextId + 1;
      ghost var before := sent;
      assert sent + ([Request(id, event)] + Requests(rest, nextId)) == sent + [Request(id, event)] + Requests(rest, nextId);
      sent := sent + [Request(id, event)];
      AnswersPush(before, Request(id, event), messages, p);
      assert sent[..|sent| - 1] == before;
      var answered := false;
      while !answered && q != Some(0)
        invariant answered ==> Answers(sent, messages, p) == Some((left, q))
        invariant !answered ==> Answers(sent, messages, p) == AwaitAnswer(id, left, q)
        decreases !answered, |left|
      {
        if left == [] { return false, sent, nextId, left, q; }
        var m := left[0];
        left := left[1..];
        q := Less(q);
        answered := m == Answer(id);
      }
    }
    ok := true;
  }

  /** What is left of the messages once each request has been waited for, in order. */
  function Answers(sent: seq<Request>, messages: seq<Message>, p: Patience): Option<(seq<Message>, Patience)> {
    if sent == [] then Some((messages, p))
    else
      match Answers(sent[..|sent| - 1], messages, p)
      case None => None
      case Some((left, q)) => AwaitAnswer(sent[|sent| - 1].id, left, q)
  }

  lemma AnswersPush(sent: seq<Request>, r: Request, messages: seq<Message>, p: Patience)
    ensures Answers(sent + [r], messages, p) ==
            match Answers(sent, messages, p)
            case None => None
            case Some((left, q)) => AwaitAnswer(r.id, left, q)
  {
    assert (sent + [r])[..|sent|] == sent;
  }

  /** Messages hold the answers to the requests, in their order, and then the rest. */
  ghost predicate Answered(sent: seq<Request>, messages: seq<Message>, left: seq<Message>) {
    if sent == [] then left == messages
    else
      var front, last := sent[..|sent| - 1], sent[|sent| - 1];
      exists between :: Answered(front, messages, between) && FirstAnswer(last.id, between, left)
  }

  /** The first answer to a request is what stands just before the rest. */
  ghost predicate FirstAnswer(id: int, messages: seq<Message>, left: seq<Message>) {
    var n := |messages| - |left| - 1;
    n >= 0 && messages[n] == Answer(id) && messages[n + 1..] == left && Answer(id) !in messages[..n]
  }

  lemma {:induction false} AwaitFinds(id: int, messages: seq<Message>, p: Patience)
    requires AwaitAnswer(id, messages, p).Some?
    ensures var (left, q) := AwaitAnswer(id, messages, p).value; q == Some(0) || FirstAnswer(id, messages, left)
    ensures p.None? ==> AwaitAnswer(id, messages, p).value.1.None?
    ensures p == Some(0) ==> AwaitAnswer(id, messages, p) == Some((messages, p))
    decreases |messages|
  {
    if p != Some(0) && messages != [] && messages[0] != Answer(id) {
      AwaitFinds(id, messages[1..], Less(p));
      var left := AwaitAnswer(id, messages, p).value.0;
      var n := |messages| - |left| - 1;
      if FirstAnswer(id, messages[1..], left) {
        assert messages[..n] == [messages[0]] + messages[1..][..n - 1];
        assert messages[1..][n..] == messages[n + 1..];
      }
    }
  }

  /**
   * Unless the proxy is being stopped, every request has found its answer before the next one went
   * out; once it is, requests go out without waiting and nothing more is read.
   */
  lemma {:induction false} AnswersInOrder(sent: seq<Request>, messages: seq<Message>, p: Patience)
    requires Answers(sent, messages, p).Some?
    ensures var (left, q) := Answers(sent, messages, p).value; q != Some(0) ==> Answered(sent, messages, left)
    ensures p.None? ==> Answers(sent, messages, p).value.1.None?
    ensures p == Some(0) ==> Answers(sent, messages, p) == Some((messages, p))
  {
    if sent != [] {
      var front := sent[..|sent| - 1];
      AnswersInOrder(front, messages, p);
      var (between, q) := Answers(front, messages, p).value;
      AwaitFinds(sent[|sent| - 1].id, between, q);
    }
  }

  /** Numbers rise strictly, and each event keeps its place. */
  lemma {:induction false} RequestsAreNumbered(events: seq<Event>, first: int, k: nat)
    ensures |Requests(events, first)| == |events|
    ensures k < |events| ==> Requests(events, first)[k] == Request(first + k, events[k])
    decreases |events|
  {
    if events != [] { RequestsAreNumbered(events[1..], first + 1, if k > 0 then k - 1 else 0); }
  }
}
