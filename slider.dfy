/**
 * The before/after comparison slider. The front end has three copies of it: the results
 * gallery of the staging page (js/staging.js), the chat of the photo editor (js/editor.js)
 * and the delivery page (src-delivery/components/ComparisonSlider.jsx). One controller
 * models all three; a `Variant` says which copy's listeners and coordinate rule apply.
 *
 * The state is the position of the divider, in percent of the container width, and whether
 * a drag is in progress. The handle's `left` is the position and the before layer's
 * clip-path is `inset(0 R% 0 0)` with R = 100 - position, so the before image shows to the
 * left of the handle and the after image to its right.
 */
module ComparisonSlider {
  import opened Wrappers

  /** Which copy of the slider: staging gallery, editor chat, delivery page. */
  datatype Variant = Gallery | Editor | Delivery

  /** The horizontal extent of the container's bounding box, in viewport pixels. */
  datatype Box = Box(left: real, width: real)

  /** A container to measure against: absent (not mounted) or of positive width. */
  predicate Measurable(box: Option<Box>) {
    box.Some? ==> box.value.width > 0.0
  }

  /** A mouse event with its `clientX`, or a touch event with the `clientX` of each touch point. */
  datatype PointerEvent = Mouse(clientX: real) | Touch(touches: seq<real>)

  /**
   * What reaches a slider: a press on the container (mousedown/touchstart), a move
   * (mousemove/touchmove; `overContainer` says whether it happened over the container),
   * a release anywhere (mouseup/touchend), and a click on the container at `clientX`.
   */
  datatype Action =
    | Press(ev: PointerEvent, box: Option<Box>)
    | Move(ev: PointerEvent, box: Option<Box>, overContainer: bool)
    | Release(ev: PointerEvent)
    | Click(clientX: real, box: Option<Box>)

  predicate WellFormed(a: Action) {
    match a
    case Press(_, box) => Measurable(box)
    case Move(_, box, _) => Measurable(box)
    case Release(_) => true
    case Click(_, box) => Measurable(box)
  }

  predicate AllWellFormed(actions: seq<Action>) {
    forall i :: 0 <= i < |actions| ==> WellFormed(actions[i])
  }

  /**
   * The staging and editor rule: the offset into the container is clamped to [0, width]
   * first and then scaled to a percentage.
   */
  function ClampedPercent(clientX: real, box: Box): (p: real)
    requires box.width > 0.0
    ensures 0.0 <= p <= 100.0
    ensures clientX <= box.left ==> p == 0.0
    ensures clientX >= box.left + box.width ==> p == 100.0
    ensures box.left <= clientX <= box.left + box.width ==> p == (clientX - box.left) / box.width * 100.0
  {
    var x := clientX - box.left;
    var x := if x < 0.0 then 0.0 else x;
    var x := if x > box.width then box.width else x;
    x / box.width * 100.0
  }

  function Min(a: real, b: real): real { if a <= b then a else b }
  function Max(a: real, b: real): real { if a >= b then a else b }

  /** The delivery-page rule: the offset is scaled to a percentage first and then clamped to [0, 100]. */
  function ScaledPercent(clientX: real, box: Box): (p: real)
    requires box.width > 0.0
    ensures 0.0 <= p <= 100.0
  {
    Max(0.0, Min(100.0, (clientX - box.left) / box.width * 100.0))
  }

  /** Division by a positive width keeps the order of offsets. */
  lemma DivMonotone(a: real, b: real, w: real)
    requires w > 0.0 && a <= b
    ensures a / w <= b / w
  {
    var qa, qb := a / w, b / w;
    assert qa * w == a && qb * w == b;
    assert (qb - qa) * w == b - a;
  }

  /** Clamping before or after scaling gives the same percentage. */
  lemma ClampOrderAgrees(clientX: real, box: Box)
    requires box.width > 0.0
    ensures ClampedPercent(clientX, box) == ScaledPercent(clientX, box)
  {
    var l, w := box.left, box.width;
    if clientX <= l {
      DivMonotone(clientX - l, 0.0, w);
    } else if clientX >= l + w {
      DivMonotone(w, clientX - l, w);
      assert w / w == 1.0;
    }
  }

  /** Moving the pointer right never moves the divider left. */
  lemma PercentMonotone(x1: real, x2: real, box: Box)
    requires box.width > 0.0 && x1 <= x2
    ensures ClampedPercent(x1, box) <= ClampedPercent(x2, box)
  {
    var l, w := box.left, box.width;
    if l <= x1 && x2 <= l + w {
      DivMonotone(x1 - l, x2 - l, w);
    }
  }

  /** The percentage a variant computes for a coordinate. */
  function Percent(v: Variant, clientX: real, box: Box): (p: real)
    requires box.width > 0.0
    ensures p == ClampedPercent(clientX, box)
  {
    ClampOrderAgrees(clientX, box);
    if v == Delivery then ScaledPercent(clientX, box) else ClampedPercent(clientX, box)
  }

  /**
   * The horizontal coordinate a handler reads from an event, or None when there is none to
   * read. Staging: `e.touches ? e.touches[0].clientX : e.clientX`. Delivery: the first of
   * `clientX` and `touches[0].clientX` that is defined. Editor: `e.clientX || touches[0].clientX`,
   * so a mouse at clientX 0 falls through to the absent touch list and the update computes
   * NaN, which the style assignments ignore.
   */
  function Coordinate(v: Variant, ev: PointerEvent): (x: Option<real>)
    ensures x.Some? ==> (ev.Mouse? && x.value == ev.clientX) || (ev.Touch? && |ev.touches| > 0 && x.value == ev.touches[0])
    ensures x.None? <==> (ev.Touch? && |ev.touches| == 0) || (v == Editor && ev == Mouse(0.0))
  {
    match ev
    case Mouse(clientX) => if v == Editor && clientX == 0.0 then None else Some(clientX)
    case Touch(touches) => if |touches| > 0 then Some(touches[0]) else None
  }

  /** The position after an update from `ev`: unchanged when there is no coordinate or no container. */
  function Follow(v: Variant, position: real, ev: PointerEvent, box: Option<Box>): real
    requires Measurable(box)
  {
    match (Coordinate(v, ev), box)
    case (Some(x), Some(b)) => Percent(v, x, b)
    case _ => position
  }

  datatype SliderState = SliderState(position: real, dragging: bool)

  /** Every slider starts idle with the divider in the middle. */
  const INITIAL := SliderState(50.0, false)

  predicate InRange(s: SliderState) {
    0.0 <= s.position <= 100.0
  }

  /**
   * One event handled by one slider.
   * - Press: staging and editor start a drag and jump to the pointer; the delivery page only
   *   starts a drag. The editor listens to the mouse only.
   * - Move: ignored while idle; the editor only hears moves of the mouse over its container,
   *   the other two hear moves anywhere in the window.
   * - Release: ends the drag (the editor hears mouseup only).
   * - Click: only the delivery page handles clicks, by jumping to the pointer.
   */
  function Step(v: Variant, s: SliderState, a: Action): (t: SliderState)
    requires WellFormed(a)
    ensures InRange(s) ==> InRange(t)
    ensures a.Move? && !s.dragging ==> t == s
    ensures a.Release? ==> t.position == s.position
    ensures a.Release? && (v != Editor || a.ev.Mouse?) ==> !t.dragging
    ensures a.Move? && v == Editor && (a.ev.Touch? || !a.overContainer) ==> t == s
    ensures (a.Press? || a.Release?) && v == Editor && a.ev.Touch? ==> t == s
    ensures a.Press? && (v != Editor || a.ev.Mouse?) ==> t.dragging
    ensures (a.Press? && v == Delivery) || a.Release? ==> t.position == s.position
    ensures a.Click? && v != Delivery ==> t == s
    ensures (a.Move? || a.Click?) ==> t.dragging == s.dragging
    ensures t.position != s.position ==>
      && !a.Release? && a.box.Some? && Coordinate(v, ActionEvent(a)).Some?
      && t.position == ClampedPercent(Coordinate(v, ActionEvent(a)).value, a.box.value)
    // and conversely, the events that do move the divider to the pointer:
    ensures a.Press? && v != Delivery && (v != Editor || a.ev.Mouse?) && a.box.Some? && Coordinate(v, a.ev).Some? ==>
      t == SliderState(ClampedPercent(Coordinate(v, a.ev).value, a.box.value), true)
    ensures a.Move? && s.dragging && (v != Editor || (a.ev.Mouse? && a.overContainer))
              && a.box.Some? && Coordinate(v, a.ev).Some? ==>
      t == SliderState(ClampedPercent(Coordinate(v, a.ev).value, a.box.value), true)
    ensures a.Click? && v == Delivery && a.box.Some? ==>
      t == SliderState(ClampedPercent(a.clientX, a.box.value), s.dragging)
  {
    match a
    case Press(ev, box) =>
      if v == Editor && ev.Touch? then s
      else if v == Delivery then SliderState(s.position, true)
      else SliderState(Follow(v, s.position, ev, box), true)
    case Move(ev, box, over) =>
      if !s.dragging || (v == Editor && (ev.Touch? || !over)) then s
      else SliderState(Follow(v, s.position, ev, box), true)
    case Release(ev) =>
      if v == Editor && ev.Touch? then s else SliderState(s.position, false)
    case Click(x, box) =>
      if v == Delivery then SliderState(Follow(v, s.position, Mouse(x), box), s.dragging) else s
  }

  /** The pointer event an action carries (a click is a mouse event). */
  function ActionEvent(a: Action): PointerEvent {
    match a
    case Press(ev, _) => ev
    case Move(ev, _, _) => ev
    case Release(ev) => ev
    case Click(x, _) => Mouse(x)
  }

  /** A sequence of events handled in order. */
  function Run(v: Variant, s: SliderState, actions: seq<Action>): SliderState
    requires AllWellFormed(actions)
    decreases |actions|
  {
    if |actions| == 0 then s else Run(v, Step(v, s, actions[0]), actions[1..])
  }

  /** Whatever the events, the divider stays within the container. */
  lemma {:induction false} RunInRange(v: Variant, s: SliderState, actions: seq<Action>)
    requires AllWellFormed(actions) && InRange(s)
    ensures InRange(Run(v, s, actions))
    decreases |actions|
  {
    if |actions| > 0 {
      RunInRange(v, Step(v, s, actions[0]), actions[1..]);
    }
  }

  predicate AllMoves(actions: seq<Action>) {
    forall i :: 0 <= i < |actions| ==> actions[i].Move?
  }

  /** Once released, a slider ignores every pointer move until the next press. */
  lemma {:induction false} IdleIgnoresMoves(v: Variant, s: SliderState, moves: seq<Action>)
    requires AllWellFormed(moves) && AllMoves(moves) && !s.dragging
    ensures Run(v, s, moves) == s
    decreases |moves|
  {
    if |moves| > 0 {
      IdleIgnoresMoves(v, Step(v, s, moves[0]), moves[1..]);
    }
  }

  /** While dragging, a window move of the mouse puts the divider at the pointer (staging and delivery copies). */
  lemma DragFollowsPointer(v: Variant, s: SliderState, x: real, box: Box, over: bool)
    requires v != Editor && s.dragging && box.width > 0.0
    ensures Step(v, s, Move(Mouse(x), Some(box), over)) == SliderState(ClampedPercent(x, box), true)
  {
  }

  /**
   * The editor copy ignores a mouse press at clientX 0 (the coordinate is falsy), where the
   * staging copy moves the divider to the clamped position.
   */
  lemma EditorIgnoresZeroClientX(s: SliderState, box: Box)
    requires box.width > 0.0 && box.left > 0.0
    ensures Step(Editor, s, Press(Mouse(0.0), Some(box))).position == s.position
    ensures Step(Gallery, s, Press(Mouse(0.0), Some(box))).position == 0.0
  {
  }

  /** A drag from x = 50 to x = 350 over a 400-pixel container ends at 87.5 in every copy. */
  lemma DragScenario(v: Variant)
    ensures var box := Some(Box(0.0, 400.0));
      Run(v, INITIAL, [Press(Mouse(50.0), box), Move(Mouse(350.0), box, true), Release(Mouse(350.0))])
        == SliderState(87.5, false)
  {
    var box := Some(Box(0.0, 400.0));
    var actions := [Press(Mouse(50.0), box), Move(Mouse(350.0), box, true), Release(Mouse(350.0))];
    var pressed := Step(v, INITIAL, actions[0]);
    assert pressed.dragging;
    assert pressed.position == (if v == Delivery then 50.0 else 12.5);
    var moved := Step(v, pressed, actions[1]);
    assert moved == SliderState(87.5, true);
    assert actions[1..] == [Move(Mouse(350.0), box, true), Release(Mouse(350.0))];
    assert actions[1..][1..] == [Release(Mouse(350.0))];
    assert Run(v, INITIAL, actions) == Run(v, moved, [Release(Mouse(350.0))]);
  }

  /** One slider instance: its own divider position and drag flag. */
  class Slider {
    const variant: Variant
    var position: real
    var dragging: bool

    ghost predicate Valid()
      reads this
    {
      InRange(State())
    }

    function State(): SliderState
      reads this
    {
      SliderState(position, dragging)
    }

    /** The handle's `left`, in percent of the container width. */
    function HandleLeft(): (left: real)
      reads this
      requires Valid()
      ensures left == State().position
      ensures 0.0 <= left <= 100.0
    {
      position
    }

    /** The right inset of the before layer's clip: the before image covers what lies left of the handle. */
    function BeforeRightInset(): (inset: real)
      reads this
      requires Valid()
      ensures 0.0 <= inset <= 100.0
      ensures inset + HandleLeft() == 100.0
    {
      100.0 - position
    }

    constructor (v: Variant)
      ensures Valid() && variant == v && State() == INITIAL
    {
      variant := v;
      position := 50.0;
      dragging := false;
    }

    /** mousedown / touchstart on the container. */
    method Press(ev: PointerEvent, box: Option<Box>)
      requires Valid() && Measurable(box)
      modifies this
      ensures Valid() && State() == Step(variant, old(State()), Action.Press(ev, box))
    {
      if variant == Editor && ev.Touch? {
        return;
      }
      dragging := true;
      if variant != Delivery {
        position := Follow(variant, position, ev, box);
      }
    }

    /** mousemove / touchmove. */
    method Move(ev: PointerEvent, box: Option<Box>, overContainer: bool)
      requires Valid() && Measurable(box)
      modifies this
      ensures Valid() && State() == Step(variant, old(State()), Action.Move(ev, box, overContainer))
    {
      if dragging && (variant != Editor || (ev.Mouse? && overContainer)) {
        position := Follow(variant, position, ev, box);
      }
    }

    /** mouseup / touchend anywhere in the window. */
    method Release(ev: PointerEvent)
      requires Valid()
      modifies this
      ensures Valid() && State() == Step(variant, old(State()), Action.Release(ev))
    {
      if variant != Editor || ev.Mouse? {
        dragging := false;
      }
    }

    /** click on the container. */
    method Click(clientX: real, box: Option<Box>)
      requires Valid() && Measurable(box)
      modifies this
      ensures Valid() && State() == Step(variant, old(State()), Action.Click(clientX, box))
    {
      if variant == Delivery {
        position := Follow(variant, position, Mouse(clientX), box);
      }
    }
  }

  /** Two sliders on one page: dragging one leaves the other where it was. */
  method TwoSliders() returns (dragged: SliderState, other: SliderState)
    ensures dragged == SliderState(0.0, false)
    ensures other == INITIAL
  {
    var box := Some(Box(0.0, 400.0));
    var a := new Slider(Gallery);
    var b := new Slider(Gallery);
    a.Press(Mouse(100.0), box);
    a.Move(Mouse(-50.0), box, false);
    a.Release(Mouse(-50.0));
    dragged, other := a.State(), b.State();
  }
}
