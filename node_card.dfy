/** The floating card shown for the selected node: where it opens (beside
    the click point, flipped to the left when it would overflow the right
    edge, pulled up when it would overflow the bottom, and never closer than
    the margin to the top-left corner), how dragging moves it, and which
    risk rows it shows. Lengths are integer pixels. */
module NodeCard {
  import opened Base
  import opened Risk
  import opened GraphBuilder
  import opened GraphInteraction

  const CARD_OFFSET: int := 20
  const CARD_MARGIN: int := 12

  /** The card's top-left corner, relative to the container. */
  datatype CardPos = CardPos(left: int, top: int)

  /** A measured container side: `clientWidth || fallback`, where a missing
      container or a zero measurement falls back to the tracked size. */
  function Measured(client: Option<int>, fallback: int): (r: int)
    ensures client.Some? && client.value != 0 ==> r == client.value
    ensures client.None? || client.value == 0 ==> r == fallback
  {
    if client.Some? && client.value != 0 then client.value else fallback
  }

  /** Where the card opens for a click at `(x, y)`, stated side by side: to
      the right of the point unless that overflows, then to its left; above
      the point unless that overflows the bottom, then against the bottom;
      and each coordinate at least the margin. */
  function Placement(x: int, y: int, cardW: int, cardH: int, cW: int, cH: int): (p: CardPos)
    ensures p.left >= CARD_MARGIN && p.top >= CARD_MARGIN
    ensures 0 <= x <= cW && cardW + 2 * CARD_MARGIN <= cW ==> p.left + cardW + CARD_MARGIN <= cW
    ensures cardH + 2 * CARD_MARGIN <= cH ==> p.top + cardH + CARD_MARGIN <= cH
  {
    var flipped := x + CARD_OFFSET + cardW + CARD_MARGIN > cW;
    var left := if flipped then x - cardW - CARD_OFFSET else x + CARD_OFFSET;
    var lifted := y - CARD_OFFSET + cardH + CARD_MARGIN > cH;
    var top := if lifted then cH - cardH - CARD_MARGIN else y - CARD_OFFSET;
    CardPos(Max(CARD_MARGIN, left), Max(CARD_MARGIN, top))
  }

  /** The layout effect's arithmetic: tentative position, flip, lift, then
      the two minimum clamps, in that order. */
  method PlaceCard(x: int, y: int, cardW: int, cardH: int, cW: int, cH: int) returns (p: CardPos)
    ensures p == Placement(x, y, cardW, cardH, cW, cH)
  {
    var left := x + CARD_OFFSET;
    var top := y - CARD_OFFSET;
    if left + cardW + CARD_MARGIN > cW {
      left := x - cardW - CARD_OFFSET;
    }
    if top + cardH + CARD_MARGIN > cH {
      top := cH - cardH - CARD_MARGIN;
    }
    if top < CARD_MARGIN {
      top := CARD_MARGIN;
    }
    if left < CARD_MARGIN {
      left := CARD_MARGIN;
    }
    p := CardPos(left, top);
  }

  /** For a click inside the container, the card opens to the right of the
      point when it fits there (with the margin), and otherwise flips to its
      left (up to the left clamp); when the card fits the container's height
      and would overflow the bottom, it sits exactly against the bottom
      margin. */
  lemma FlipAndLift(x: int, y: int, cardW: int, cardH: int, cW: int, cH: int)
    requires 0 <= x && cardH + 2 * CARD_MARGIN <= cH
    ensures x + CARD_OFFSET + cardW + CARD_MARGIN > cW && x - cardW - CARD_OFFSET >= CARD_MARGIN ==>
      Placement(x, y, cardW, cardH, cW, cH).left == x - cardW - CARD_OFFSET
    ensures x + CARD_OFFSET + cardW + CARD_MARGIN <= cW ==>
      Placement(x, y, cardW, cardH, cW, cH).left == x + CARD_OFFSET
    ensures y - CARD_OFFSET + cardH + CARD_MARGIN > cH ==>
      Placement(x, y, cardW, cardH, cW, cH).top == cH - cardH - CARD_MARGIN
  {
  }

  /** Pointer offset inside the card, taken when a drag starts. */
  function GrabOffset(pointerRel: Point, pos: CardPos): Point {
    Point(pointerRel.x - pos.left, pointerRel.y - pos.top)
  }

  /** Card position for a pointer at `pointerRel` while dragging with `offset`. */
  function DragTo(pointerRel: Point, offset: Point): CardPos {
    CardPos(pointerRel.x - offset.x, pointerRel.y - offset.y)
  }

  /** Dragging is unclamped: the card moves by exactly the pointer's
      displacement since the grab, so a pointer that has not moved leaves it
      where it was, even outside the container. */
  lemma DragFollowsPointer(grab: Point, now: Point, pos: CardPos)
    ensures DragTo(now, GrabOffset(grab, pos)) == CardPos(pos.left + (now.x - grab.x), pos.top + (now.y - grab.y))
    ensures now == grab ==> DragTo(now, GrabOffset(grab, pos)) == pos
  {
  }

  /** The card's own state. */
  class Card {
    var cardPos: Option<CardPos>
    var isDragging: bool
    var dragOffset: Point

    /** Unplaced and not being dragged. */
    constructor ()
      ensures cardPos == None && !isDragging && dragOffset == Point(0, 0)
    {
      cardPos := None;
      isDragging := false;
      dragOffset := Point(0, 0);
    }

    /** The layout effect: measure, place, store. `clientW`/`clientH` are the
        enclosing container's measurements (absent when it is not found). */
    method Layout(position: Point, cardW: int, cardH: int, clientW: Option<int>, clientH: Option<int>,
                  containerW: int, containerH: int)
      modifies this
      ensures cardPos == Some(Placement(position.x, position.y, cardW, cardH,
                                        Measured(clientW, containerW), Measured(clientH, containerH)))
      ensures isDragging == old(isDragging) && dragOffset == old(dragOffset)
    {
      var cW := Measured(clientW, containerW);
      var cH := Measured(clientH, containerH);
      var p := PlaceCard(position.x, position.y, cardW, cardH, cW, cH);
      cardPos := Some(p);
    }

    /** `handleDragStart` with the pointer relative to the container
        (absent when the container cannot be measured): nothing while the
        card is unplaced; otherwise dragging starts and, when measured, the
        grab offset is recorded. */
    method DragStart(pointerRel: Option<Point>)
      modifies this
      ensures old(cardPos).None? ==> isDragging == old(isDragging) && dragOffset == old(dragOffset)
      ensures old(cardPos).Some? ==> isDragging
      ensures old(cardPos).Some? && pointerRel.Some? ==> dragOffset == GrabOffset(pointerRel.value, old(cardPos).value)
      ensures pointerRel.None? ==> dragOffset == old(dragOffset)
      ensures cardPos == old(cardPos)
    {
      if cardPos.None? {
        return;
      }
      isDragging := true;
      if pointerRel.Some? {
        dragOffset := GrabOffset(pointerRel.value, cardPos.value);
      }
    }

    /** The window mouse-move listener, installed only while dragging: the
        card follows the pointer with no clamping. */
    method DragMove(pointerRel: Option<Point>)
      modifies this
      ensures old(isDragging) && pointerRel.Some? ==> cardPos == Some(DragTo(pointerRel.value, dragOffset))
      ensures !(old(isDragging) && pointerRel.Some?) ==> cardPos == old(cardPos)
      ensures isDragging == old(isDragging) && dragOffset == old(dragOffset)
    {
      if !isDragging || pointerRel.None? {
        return;
      }
      cardPos := Some(DragTo(pointerRel.value, dragOffset));
    }

    /** The window mouse-up listener: dragging ends. */
    method DragEnd()
      modifies this
      ensures !isDragging && cardPos == old(cardPos) && dragOffset == old(dragOffset)
    {
      isDragging := false;
    }

    /** The style's `left`: the placed coordinate, or far off-screen. */
    function StyleLeft(): (r: int)
      reads this
      ensures cardPos.None? ==> r == -9999
      ensures cardPos.Some? ==> r == cardPos.value.left
    {
      if cardPos.Some? then cardPos.value.left else -9999
    }

    /** The style's `top`: the placed coordinate, or far off-screen. */
    function StyleTop(): (r: int)
      reads this
      ensures cardPos.None? ==> r == -9999
      ensures cardPos.Some? ==> r == cardPos.value.top
    {
      if cardPos.Some? then cardPos.value.top else -9999
    }

    /** The card is visible exactly once placed. */
    predicate Visible()
      reads this
    {
      cardPos.Some?
    }

    /** Transitions are switched off while dragging. */
    predicate TransitionsOff()
      reads this
    {
      isDragging
    }
  }

  /** The three emphasis levels of the card's risk styling. */
  datatype Emphasis = Danger | Warning | Calm

  /** The card border: danger over 85, warning over 70, else calm. */
  function BorderEmphasis(riskScore: Option<int>): (e: Emphasis)
    ensures e == Danger <==> Above(riskScore, 85)
    ensures e == Warning <==> Above(riskScore, 70) && !Above(riskScore, 85)
  {
    if Above(riskScore, 85) then Danger else if Above(riskScore, 70) then Warning else Calm
  }

  /** The risk figure and bar: danger over 85, warning over 70, success otherwise. */
  function ScoreEmphasis(score: int): (e: Emphasis)
    ensures e == Danger <==> score > 85
    ensures e == Warning <==> 70 < score <= 85
  {
    if score > 85 then Danger else if score > 70 then Warning else Calm
  }

  /** The risk row is shown for a defined, positive score. */
  predicate RiskRowShown(node: GraphNode) {
    Shown(node.riskScore)
  }

  /** The Investigate button is shown above 70; it investigates the node's id. */
  function InvestigateTarget(node: GraphNode): (r: Option<string>)
    ensures r.Some? <==> Above(node.riskScore, 70)
    ensures r.Some? ==> r.value == node.id
  {
    if Above(node.riskScore, 70) then Some(node.id) else None
  }

  /** The card's risk decorations agree: the button implies the risk row,
      the border's emphasis is the risk figure's whenever the figure is
      high, and a calm border goes with no button. */
  lemma RiskDecorationsAgree(node: GraphNode)
    ensures InvestigateTarget(node).Some? ==> RiskRowShown(node)
    ensures InvestigateTarget(node).Some? ==> BorderEmphasis(node.riskScore) == ScoreEmphasis(node.riskScore.value)
    ensures BorderEmphasis(node.riskScore) == Calm <==> InvestigateTarget(node).None?
  {
  }
}
