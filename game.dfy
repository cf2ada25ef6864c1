/**
 * The per-frame session logic: hand layout, the card hit test, the scroll
 * clamp, the row classification of the playfield column, and the event
 * dispatch that mutates the session once per frame.
 */
module Game {
  import opened Wrappers
  import opened Common

  const CARD_OFFSET: int32 := 12
  const CARD_OFFSET_DELTA: int32 := 12
  const HAND_HEIGHT_OFFSET: int32 := 8
  const CARD_WIDTH: int32 := 16
  const CARD_HEIGHT: int32 := 12

  // ---------------------------------------------------------------------
  // Hand layout

  /** The screen row the hand sits on, for a viewport `height` rows tall. */
  function HandHeight(height: int32): (y: int32)
    requires height as int - HAND_HEIGHT_OFFSET as int >= I32_MIN
    ensures y as int + 8 == height as int
  {
    height - HAND_HEIGHT_OFFSET
  }

  /**
   * One card per instruction list, in order, laid out left to right from
   * column 12 in steps of 12 on the hand row. `Card::new` asserts
   * non-negative coordinates and the running offset is an i32.
   */
  method MakeHand(height: int32, instructionsList: seq<seq<Instruction>>) returns (result: seq<Card>)
    requires |instructionsList| > 0 ==> height >= HAND_HEIGHT_OFFSET
    requires 12 + 12 * |instructionsList| <= I32_MAX
    ensures |result| == |instructionsList|
    ensures forall i :: 0 <= i < |result| ==>
      && result[i].location.x as int == 12 + 12 * i
      && result[i].location.y == HandHeight(height)
      && result[i].instructions == instructionsList[i]
  {
    result := [];
    var offset := CARD_OFFSET;
    for k := 0 to |instructionsList|
      invariant |result| == k
      invariant offset as int == 12 + 12 * k
      invariant forall i :: 0 <= i < k ==>
        && result[i].location.x as int == 12 + 12 * i
        && result[i].location.y == HandHeight(height)
        && result[i].instructions == instructionsList[i]
    {
      var instructions := instructionsList[k];
      result := result + [NewCard(offset, HandHeight(height), instructions)];
      offset := offset + CARD_OFFSET_DELTA;
    }
  }

  /** Every card of `cards`, moved onto row `y`. */
  function WithHandRow(cards: seq<Card>, y: int32): (r: seq<Card>)
    ensures |r| == |cards|
    ensures forall i :: 0 <= i < |r| ==>
      && r[i].location.y == y
      && r[i].location.x == cards[i].location.x
      && r[i].instructions == cards[i].instructions
  {
    seq(|cards|, i requires 0 <= i < |cards| => cards[i].(location := cards[i].location.(y := y)))
  }

  // ---------------------------------------------------------------------
  // Hit test

  /** Whether `p` lies in the card's half-open box `[x, x+16) x [y, y+12)`. */
  function InCard(card: Card, p: Point): (b: bool)
    ensures b <==>
      && 0 <= p.x as int - card.location.x as int < CARD_WIDTH as int
      && 0 <= p.y as int - card.location.y as int < CARD_HEIGHT as int
  {
    && card.location.x <= p.x
    && card.location.y <= p.y
    && (p.x as int) < card.location.x as int + CARD_WIDTH as int
    && (p.y as int) < card.location.y as int + CARD_HEIGHT as int
  }

  /** The highest-index (last drawn, so topmost) card containing `p`. */
  function TopmostCardAt(cards: seq<Card>, p: Point): (r: Option<nat>)
    ensures r.Some? ==> r.value < |cards| && InCard(cards[r.value], p)
    ensures r.Some? ==> forall j :: r.value < j < |cards| ==> !InCard(cards[j], p)
    ensures r.None? <==> forall j :: 0 <= j < |cards| ==> !InCard(cards[j], p)
    decreases |cards|
  {
    if cards == [] then None
    else if InCard(cards[|cards| - 1], p) then Some(|cards| - 1)
    else TopmostCardAt(cards[..|cards| - 1], p)
  }

  /** `clicked_card`: scans the hand from the top card down and stops at the first hit. */
  method ClickedCard(cards: seq<Card>, mousePosition: Point) returns (r: Option<nat>)
    ensures r == TopmostCardAt(cards, mousePosition)
  {
    var i := |cards|;
    while i > 0
      invariant 0 <= i <= |cards|
      invariant forall j :: i <= j < |cards| ==> !InCard(cards[j], mousePosition)
    {
      i := i - 1;
      if InCard(cards[i], mousePosition) {
        return Some(i);
      }
    }
    return None;
  }

  // ---------------------------------------------------------------------
  // Scrolling and the playfield column

  /** The `clamp!` macro: `input` pinned between `min` and `max`, `min` checked first. */
  function Clamp(min: int32, input: int32, max: int32): (r: int32)
    ensures min <= max ==> min <= r <= max
    ensures min <= input <= max ==> r == input
    ensures input < min ==> r == min
    ensures min <= input && max < input ==> r == max
  {
    if input < min then min
    else if input > max then max
    else input
  }

  /** The first address shown, confined to `[-(height-1), PLAYFIELD_SIZE-1]`. */
  function ClampScrollOffset(height: int32, scrollOffset: int32): (r: int32)
    requires height as int >= I32_MIN + 2
    ensures height >= 1 ==> -(height as int - 1) <= r as int <= PLAYFIELD_SIZE - 1
    ensures -(height as int - 1) <= scrollOffset as int <= PLAYFIELD_SIZE - 1 ==> r == scrollOffset
  {
    var len := PLAYFIELD_SIZE as int32;
    Clamp(-height + 1, scrollOffset, len - 1)
  }

  lemma ClampScrollOffsetIdempotent(height: int32, scrollOffset: int32)
    requires height >= 1
    ensures ClampScrollOffset(height, ClampScrollOffset(height, scrollOffset)) == ClampScrollOffset(height, scrollOffset)
  {
  }

  lemma ClampScrollOffsetExamples()
    ensures ClampScrollOffset(30, 100) == 31
    ensures ClampScrollOffset(30, -1000) == -29
  {
  }

  /** What one row of the playfield column shows. */
  datatype Row = InstructionRow(address: nat) | TopBorder | BottomBorder | Blank

  /** The address row `y` shows: the row index plus the clamped offset. */
  function RowAddress(height: int32, scrollOffset: int32, y: int): int
    requires height as int >= I32_MIN + 2
  {
    y + ClampScrollOffset(height, scrollOffset) as int
  }

  /**
   * The classification `draw_instructions` makes of row `y`: an instruction
   * whose address is in the playfield, the top border just above address 0,
   * the bottom border just below the last address, otherwise nothing.
   */
  function RowAt(height: int32, scrollOffset: int32, y: int): (r: Row)
    requires height as int >= I32_MIN + 2
    ensures r.InstructionRow? <==> 0 <= RowAddress(height, scrollOffset, y) < PLAYFIELD_SIZE
    ensures r.InstructionRow? ==> r.address == RowAddress(height, scrollOffset, y)
    ensures r.TopBorder? <==> RowAddress(height, scrollOffset, y) == -1
    ensures r.BottomBorder? <==> RowAddress(height, scrollOffset, y) == PLAYFIELD_SIZE
  {
    var address := y + ClampScrollOffset(height, scrollOffset) as int;
    if 0 <= address < PLAYFIELD_SIZE then InstructionRow(address)
    else if address == -1 then TopBorder
    else if address == PLAYFIELD_SIZE then BottomBorder
    else Blank
  }

  /** `draw_instructions` without the printing: the classification of every row of the viewport. */
  method DrawInstructions(height: int32, scrollOffset: int32) returns (rows: seq<Row>)
    requires height as int >= I32_MIN + 2
    requires height <= 0 || FitsInt32(height as int - 1 + ClampScrollOffset(height, scrollOffset) as int)
    ensures |rows| == if height <= 0 then 0 else height as int
    ensures forall y :: 0 <= y < |rows| ==> rows[y] == RowAt(height, scrollOffset, y)
  {
    var offset := ClampScrollOffset(height, scrollOffset);
    rows := [];
    var y: int32 := 0;
    while y < height
      invariant 0 <= y as int <= if height <= 0 then 0 else height as int
      invariant |rows| == y as int
      invariant forall k :: 0 <= k < |rows| ==> rows[k] == RowAt(height, scrollOffset, k)
    {
      var address := y + offset;
      var row := if 0 <= address < PLAYFIELD_SIZE as int32 then InstructionRow(address as nat)
                 else if address == -1 then TopBorder
                 else if address == PLAYFIELD_SIZE as int32 then BottomBorder
                 else Blank;
      rows := rows + [row];
      y := y + 1;
    }
  }

  /** However the offset was scrolled, a viewport at least one row tall shows some instruction. */
  lemma SomeInstructionVisible(height: int32, scrollOffset: int32)
    requires height >= 1
    ensures exists y :: 0 <= y < height as int && RowAt(height, scrollOffset, y).InstructionRow?
  {
    var offset := ClampScrollOffset(height, scrollOffset) as int;
    var y := if offset < 0 then -offset else 0;
    assert RowAt(height, scrollOffset, y).InstructionRow?;
  }

  /** No address is shown on two rows. */
  lemma RowsShowDistinctAddresses(height: int32, scrollOffset: int32, y1: int, y2: int)
    requires height as int >= I32_MIN + 2
    requires RowAt(height, scrollOffset, y1).InstructionRow? && RowAt(height, scrollOffset, y2).InstructionRow?
    requires RowAt(height, scrollOffset, y1).address == RowAt(height, scrollOffset, y2).address
    ensures y1 == y2
  {
  }

  // ---------------------------------------------------------------------
  // Events and the session

  /** The keys the dispatch distinguishes; every other key is `OtherKey`. */
  datatype KeyCode = MouseLeft | MouseRight | Up | Down | Escape | OtherKey

  /** The input events the dispatch matches on; every other kind is `Other`. */
  datatype Event =
    | Close
    | Resize(width: int32, height: int32)
    | MouseScroll(delta: int32)
    | KeyPressed(key: KeyCode, ctrl: bool, shift: bool)
    | Other

  /** Whether the event asks to quit. */
  predicate IsQuit(e: Event) {
    e.Close? || (e.KeyPressed? && e.key == Escape)
  }

  /** Whether handling `e` with `handSize` cards stays within i32: a resize computes `height - 8` once per card. */
  predicate Handleable(e: Event, handSize: nat) {
    e.Resize? && handSize > 0 ==> e.height as int - HAND_HEIGHT_OFFSET as int >= I32_MIN
  }

  /** Every event up to the first quit request can be handled; no event changes the number of cards. */
  predicate Processable(events: seq<Event>, handSize: nat)
    decreases |events|
  {
    events == [] || IsQuit(events[0]) || (Handleable(events[0], handSize) && Processable(events[1..], handSize))
  }

  /** The part of the session the per-frame dispatch reads and writes. */
  datatype Session = Session(scrollOffset: int32, cards: seq<Card>, selectedCard: Option<nat>)

  /** The effect of one non-quit event on the session, with the mouse at `mouse`. */
  function Step(s: Session, mouse: Point, e: Event): (r: Session)
    requires Handleable(e, |s.cards|)
    ensures |r.cards| == |s.cards|
    ensures !e.Resize? ==> r.cards == s.cards
    ensures r.scrollOffset != s.scrollOffset ==> e.MouseScroll? || (e.KeyPressed? && (e.key == Up || e.key == Down))
    ensures r.selectedCard != s.selectedCard ==> e.KeyPressed? && (e.key == MouseLeft || e.key == MouseRight)
  {
    match e
    case MouseScroll(delta) => s.(scrollOffset := SaturatingAdd(s.scrollOffset, delta))
    case KeyPressed(MouseLeft, _, _) => s.(selectedCard := TopmostCardAt(s.cards, mouse))
    case KeyPressed(MouseRight, _, _) => s.(selectedCard := None)
    case KeyPressed(Up, _, _) => s.(scrollOffset := SaturatingAdd(s.scrollOffset, -1))
    case KeyPressed(Down, _, _) => s.(scrollOffset := SaturatingAdd(s.scrollOffset, 1))
    case Resize(_, height) => if s.cards == [] then s else s.(cards := WithHandRow(s.cards, HandHeight(height)))
    case _ => s
  }

  /** A whole frame's batch: events in order until the first quit request; the flag says whether one came. */
  function Run(s: Session, mouse: Point, events: seq<Event>): (r: (Session, bool))
    requires Processable(events, |s.cards|)
    ensures |r.0.cards| == |s.cards|
    ensures !r.1 ==> forall i :: 0 <= i < |events| ==> !IsQuit(events[i])
    decreases |events|
  {
    if events == [] then (s, false)
    else if IsQuit(events[0]) then (s, true)
    else Run(Step(s, mouse, events[0]), mouse, events[1..])
  }

  /** The session state the source's `Game` holds and the dispatch mutates. */
  class GameState {
    var scrollOffset: int32
    var cards: seq<Card>
    var selectedCard: Option<nat>

    constructor (scrollOffset: int32, cards: seq<Card>, selectedCard: Option<nat>)
      ensures Snapshot() == Session(scrollOffset, cards, selectedCard)
    {
      this.scrollOffset := scrollOffset;
      this.cards := cards;
      this.selectedCard := selectedCard;
    }

    function Snapshot(): Session
      reads this
    {
      Session(scrollOffset, cards, selectedCard)
    }

    /**
     * `update_and_render` without the drawing: applies the frame's events in
     * order and returns true as soon as one asks to quit.
     */
    method UpdateAndRender(mousePosition: Point, events: seq<Event>) returns (quit: bool)
      requires Processable(events, |cards|)
      modifies this
      ensures (Snapshot(), quit) == Run(old(Snapshot()), mousePosition, events)
    {
      var i := 0;
      while i < |events|
        invariant 0 <= i <= |events|
        invariant |cards| == old(|cards|)
        invariant Processable(events[i..], |cards|)
        invariant Run(old(Snapshot()), mousePosition, events) == Run(Snapshot(), mousePosition, events[i..])
      {
        var event := events[i];
        assert events[i..][0] == event && events[i..][1..] == events[i + 1..];
        ghost var before := Snapshot();
        match event {
          case MouseScroll(delta) =>
            scrollOffset := SaturatingAdd(scrollOffset, delta);
          case KeyPressed(MouseLeft, _, _) =>
            selectedCard := ClickedCard(cards, mousePosition);
          case KeyPressed(MouseRight, _, _) =>
            selectedCard := None;
          case KeyPressed(Up, _, _) =>
            scrollOffset := SaturatingAdd(scrollOffset, -1);
          case KeyPressed(Down, _, _) =>
            scrollOffset := SaturatingAdd(scrollOffset, 1);
          case Resize(_, height) =>
            var k := 0;
            while k < |cards|
              invariant 0 <= k <= |cards| == |before.cards|
              invariant forall j :: 0 <= j < k ==> cards[j] == before.cards[j].(location := before.cards[j].location.(y := HandHeight(height)))
              invariant forall j :: k <= j < |cards| ==> cards[j] == before.cards[j]
              invariant scrollOffset == before.scrollOffset && selectedCard == before.selectedCard
            {
              cards := cards[k := cards[k].(location := cards[k].location.(y := HandHeight(height)))];
              k := k + 1;
            }
            if before.cards != [] {
              assert cards == WithHandRow(before.cards, HandHeight(height));
            }
          case Close =>
            return true;
          case KeyPressed(Escape, _, _) =>
            return true;
          case _ =>
        }
        assert Snapshot() == Step(before, mousePosition, event);
        i := i + 1;
      }
      return false;
    }
  }

  // ---------------------------------------------------------------------
  // Properties of the dispatch

  /** A scroll event saturates the offset by its delta and changes nothing else. */
  lemma ScrollSaturates(s: Session, mouse: Point, e: Event)
    requires e.MouseScroll? || (e.KeyPressed? && e.key in {Up, Down})
    ensures var delta := if e.MouseScroll? then e.delta as int else if e.key == Up then -1 else 1;
      && Step(s, mouse, e).scrollOffset as int == (if s.scrollOffset as int + delta > I32_MAX then I32_MAX
                                                   else if s.scrollOffset as int + delta < I32_MIN then I32_MIN
                                                   else s.scrollOffset as int + delta)
      && Step(s, mouse, e).cards == s.cards
      && Step(s, mouse, e).selectedCard == s.selectedCard
  {
  }

  /** A left press selects the topmost card under the mouse, or clears the selection; a right press clears it. */
  lemma SelectionEvents(s: Session, mouse: Point, e: Event)
    requires e.KeyPressed? && e.key in {MouseLeft, MouseRight}
    ensures var r := Step(s, mouse, e);
      && (e.key == MouseRight ==> r.selectedCard == None)
      && (e.key == MouseLeft && r.selectedCard.Some? ==>
            r.selectedCard.value < |s.cards| && InCard(s.cards[r.selectedCard.value], mouse))
      && (e.key == MouseLeft ==> (r.selectedCard.None? <==> forall j :: 0 <= j < |s.cards| ==> !InCard(s.cards[j], mouse)))
      && (e.key == MouseLeft ==> r.selectedCard == TopmostCardAt(s.cards, mouse))
      && r.cards == s.cards && r.scrollOffset == s.scrollOffset
  {
  }

  /** A resize moves every card onto the new hand row and leaves the rest alone. */
  lemma ResizeRelaysHand(s: Session, mouse: Point, e: Event)
    requires e.Resize? && Handleable(e, |s.cards|)
    ensures var r := Step(s, mouse, e);
      && |r.cards| == |s.cards|
      && (forall i :: 0 <= i < |r.cards| ==>
            && r.cards[i].location.y as int == e.height as int - 8
            && r.cards[i].location.x == s.cards[i].location.x
            && r.cards[i].instructions == s.cards[i].instructions)
      && r.scrollOffset == s.scrollOffset && r.selectedCard == s.selectedCard
  {
  }

  /** Events the dispatch does not match leave the session as it was. */
  lemma UnmatchedEventsIgnored(s: Session, mouse: Point, e: Event)
    requires e.Other? || (e.KeyPressed? && e.key == OtherKey)
    ensures Step(s, mouse, e) == s
  {
  }

  /** The frame reports a quit exactly when some event of the batch asks for one. */
  lemma {:induction false} RunQuitsIffQuitEvent(s: Session, mouse: Point, events: seq<Event>)
    requires Processable(events, |s.cards|)
    ensures Run(s, mouse, events).1 <==> exists i :: 0 <= i < |events| && IsQuit(events[i])
    decreases |events|
  {
    if events != [] && !IsQuit(events[0]) {
      RunQuitsIffQuitEvent(Step(s, mouse, events[0]), mouse, events[1..]);
      if exists i :: 0 <= i < |events| && IsQuit(events[i]) {
        var i :| 0 <= i < |events| && IsQuit(events[i]);
        assert events[1..][i - 1] == events[i];
      }
      if exists i :: 0 <= i < |events[1..]| && IsQuit(events[1..][i]) {
        var i :| 0 <= i < |events[1..]| && IsQuit(events[1..][i]);
        assert events[i + 1] == events[1..][i];
      }
    }
  }

  /** Events after the first quit request are not applied: the frame ends in the state the earlier events left. */
  lemma {:induction false} RunStopsAtFirstQuit(s: Session, mouse: Point, events: seq<Event>, q: nat)
    requires q < |events| && IsQuit(events[q])
    requires forall i :: 0 <= i < q ==> !IsQuit(events[i])
    requires Processable(events, |s.cards|)
    ensures Processable(events[..q], |s.cards|)
    ensures Run(s, mouse, events) == (Run(s, mouse, events[..q]).0, true)
    decreases q
  {
    if q > 0 {
      assert events[1..][..q - 1] == events[..q][1..];
      RunStopsAtFirstQuit(Step(s, mouse, events[0]), mouse, events[1..], q - 1);
    }
  }

  /** Handling an event never adds, removes or reorders cards, nor changes their columns or instructions. */
  ghost predicate SameHand(before: seq<Card>, after: seq<Card>) {
    && |after| == |before|
    && forall i :: 0 <= i < |after| ==>
         after[i].location.x == before[i].location.x && after[i].instructions == before[i].instructions
  }

  lemma {:induction false} RunKeepsHand(s: Session, mouse: Point, events: seq<Event>)
    requires Processable(events, |s.cards|)
    ensures SameHand(s.cards, Run(s, mouse, events).0.cards)
    ensures Run(s, mouse, events).0.cards == s.cards || exists i :: 0 <= i < |events| && events[i].Resize?
    decreases |events|
  {
    if events != [] && !IsQuit(events[0]) {
      var next := Step(s, mouse, events[0]);
      RunKeepsHand(next, mouse, events[1..]);
      if Run(next, mouse, events[1..]).0.cards != next.cards {
        var i :| 0 <= i < |events[1..]| && events[1..][i].Resize?;
        assert events[i + 1].Resize?;
      }
    }
  }

  /** A selection, when there is one, always names a card of the hand. */
  ghost predicate SelectionInHand(s: Session) {
    s.selectedCard.Some? ==> s.selectedCard.value < |s.cards|
  }

  lemma {:induction false} RunKeepsSelectionInHand(s: Session, mouse: Point, events: seq<Event>)
    requires Processable(events, |s.cards|)
    requires SelectionInHand(s)
    ensures SelectionInHand(Run(s, mouse, events).0)
    decreases |events|
  {
    if events != [] && !IsQuit(events[0]) {
      RunKeepsSelectionInHand(Step(s, mouse, events[0]), mouse, events[1..]);
    }
  }
}
