/**
 * The three-sprite button of src/Button.ts.  A button owns three private
 * sprites (normal, hover, pressed); its four event handlers only ever change
 * their `visible` flags, so the model keeps those three flags.
 */
module Buttons {
  import opened Options
  import opened Assets

  /** The `visible` flags of the normal, hover and pressed sprites. */
  datatype Visuals = Visuals(normal: bool, hover: bool, pressed: bool)

  /** The four pointer events a button listens to. */
  datatype PointerEvent = Over | Out | Down | Up

  /** A fresh button: only the normal sprite is visible. */
  const Initial: Visuals := Visuals(true, false, false)

  function PointerOver(v: Visuals): Visuals
  {
    if !v.pressed then v.(normal := false, hover := true) else v
  }

  function PointerOut(v: Visuals): Visuals
  {
    v.(normal := true, hover := false, pressed := false)
  }

  function PointerDown(v: Visuals): Visuals
  {
    v.(hover := false, pressed := true)
  }

  function PointerUp(v: Visuals): Visuals
  {
    if v.pressed then v.(pressed := false, hover := true) else v
  }

  function Step(v: Visuals, e: PointerEvent): Visuals
  {
    match e
    case Over => PointerOver(v)
    case Out => PointerOut(v)
    case Down => PointerDown(v)
    case Up => PointerUp(v)
  }

  /** The flags after handling `es` in order, starting from `v`. */
  function Run(v: Visuals, es: seq<PointerEvent>): Visuals
    decreases |es|
  {
    if es == [] then v else Run(Step(v, es[0]), es[1..])
  }

  /** The invariant the handlers keep: hover and pressed exclude each other, and something is shown. */
  ghost predicate Inv(v: Visuals)
  {
    !(v.hover && v.pressed) && (v.normal || v.hover || v.pressed)
  }

  ghost predicate Reachable(v: Visuals)
  {
    exists es: seq<PointerEvent> :: Run(Initial, es) == v
  }

  lemma {:induction false} RunAppend(v: Visuals, es: seq<PointerEvent>, e: PointerEvent)
    ensures Run(v, es + [e]) == Step(Run(v, es), e)
    decreases |es|
  {
    if es == [] {
      assert es + [e] == [e];
    } else {
      assert (es + [e])[0] == es[0];
      assert (es + [e])[1..] == es[1..] + [e];
      RunAppend(Step(v, es[0]), es[1..], e);
    }
  }

  lemma StepKeepsInv(v: Visuals, e: PointerEvent)
    requires Inv(v)
    ensures Inv(Step(v, e))
  {
  }

  lemma {:induction false} RunKeepsInv(v: Visuals, es: seq<PointerEvent>)
    requires Inv(v)
    ensures Inv(Run(v, es))
    decreases |es|
  {
    if es != [] {
      StepKeepsInv(v, es[0]);
      RunKeepsInv(Step(v, es[0]), es[1..]);
    }
  }

  /** From a new button, hover and pressed are never both visible. */
  lemma HoverPressedExclusive(es: seq<PointerEvent>)
    ensures !(Run(Initial, es).hover && Run(Initial, es).pressed)
  {
    RunKeepsInv(Initial, es);
  }

  /** From a new button, at least one sprite is always visible. */
  lemma SomeSpriteVisible(es: seq<PointerEvent>)
    ensures Run(Initial, es).normal || Run(Initial, es).hover || Run(Initial, es).pressed
  {
    RunKeepsInv(Initial, es);
  }

  /** The invariant is exact: every flag combination it allows is reachable, and no other. */
  lemma ReachableIffInv(v: Visuals)
    ensures Reachable(v) <==> Inv(v)
  {
    if Reachable(v) {
      var es :| Run(Initial, es) == v;
      RunKeepsInv(Initial, es);
    }
    if Inv(v) {
      var es: seq<PointerEvent>;
      if v == Initial {
        es := [];
      } else if v == Visuals(false, true, false) {
        es := [Over];
      } else if v == Visuals(false, false, true) {
        es := [Over, Down];
        assert Run(Initial, es) == Run(Visuals(false, true, false), [Down]);
      } else if v == Visuals(true, false, true) {
        es := [Down];
      } else {
        es := [Down, Up];
        assert Run(Initial, es) == Run(Visuals(true, false, true), [Up]);
      }
      assert Run(Initial, es) == v;
    }
  }

  /** Pressing a new button leaves normal visible beside pressed: at times two sprites show. */
  lemma PressShowsTwoSprites()
    ensures Run(Initial, [Down]) == Visuals(true, false, true)
    ensures Run(Initial, [Down, Up]) == Visuals(true, true, false)
  {
  }

  /** pointerout restores the initial flags from any state, and is idempotent. */
  lemma PointerOutRestores(v: Visuals)
    ensures PointerOut(v) == Initial
    ensures PointerOut(PointerOut(v)) == PointerOut(v)
  {
  }

  /** pointerover does nothing while pressed is shown, and otherwise shows hover alone. */
  lemma PointerOverEffect(v: Visuals)
    ensures v.pressed ==> PointerOver(v) == v
    ensures !v.pressed ==> PointerOver(v) == Visuals(false, true, false)
  {
  }

  /** pointerup does nothing unless pressed is shown; then it trades pressed for hover and keeps normal. */
  lemma PointerUpEffect(v: Visuals)
    ensures !v.pressed ==> PointerUp(v) == v
    ensures v.pressed ==> PointerUp(v) == Visuals(v.normal, true, false)
  {
  }

  /** pointerdown hides hover and shows pressed, keeping normal's flag. */
  lemma PointerDownEffect(v: Visuals)
    ensures PointerDown(v) == Visuals(v.normal, false, true)
    ensures PointerDown(Initial).normal && PointerDown(Initial).pressed
  {
  }

  class Button {
    const normalTexture: Option<Texture>
    const hoverTexture: Option<Texture>
    const pressedTexture: Option<Texture>
    var normalVisible: bool
    var hoverVisible: bool
    var pressedVisible: bool
    /** The container's position. */
    var x: real
    var y: real
    /** Every pointer event handled so far, in order. */
    ghost var events: seq<PointerEvent>

    function View(): Visuals
      reads this
    {
      Visuals(normalVisible, hoverVisible, pressedVisible)
    }

    /** The flags are those that the handled events produce from a new button. */
    ghost predicate Valid()
      reads this
    {
      View() == Run(Initial, events)
    }

    constructor (normalTexture: Option<Texture>, hoverTexture: Option<Texture>, pressedTexture: Option<Texture>)
      ensures Valid() && events == []
      ensures View() == Initial
      ensures this.normalTexture == normalTexture && this.hoverTexture == hoverTexture
      ensures this.pressedTexture == pressedTexture
      ensures x == 0.0 && y == 0.0
    {
      this.normalTexture := normalTexture;
      this.hoverTexture := hoverTexture;
      this.pressedTexture := pressedTexture;
      normalVisible, hoverVisible, pressedVisible := true, false, false;
      x, y := 0.0, 0.0;
      events := [];
    }

    method OnPointerOver()
      requires Valid()
      modifies this
      ensures Valid() && events == old(events) + [Over]
      ensures View() == PointerOver(old(View()))
      ensures x == old(x) && y == old(y)
    {
      if !pressedVisible {
        normalVisible := false;
        hoverVisible := true;
      }
      RunAppend(Initial, events, Over);
      events := events + [Over];
    }

    method OnPointerOut()
      requires Valid()
      modifies this
      ensures Valid() && events == old(events) + [Out]
      ensures View() == PointerOut(old(View()))
      ensures x == old(x) && y == old(y)
    {
      normalVisible := true;
      hoverVisible := false;
      pressedVisible := false;
      RunAppend(Initial, events, Out);
      events := events + [Out];
    }

    method OnPointerDown()
      requires Valid()
      modifies this
      ensures Valid() && events == old(events) + [Down]
      ensures View() == PointerDown(old(View()))
      ensures x == old(x) && y == old(y)
    {
      hoverVisible := false;
      pressedVisible := true;
      RunAppend(Initial, events, Down);
      events := events + [Down];
    }

    method OnPointerUp()
      requires Valid()
      modifies this
      ensures Valid() && events == old(events) + [Up]
      ensures View() == PointerUp(old(View()))
      ensures x == old(x) && y == old(y)
    {
      if pressedVisible {
        pressedVisible := false;
        hoverVisible := true;
      }
      RunAppend(Initial, events, Up);
      events := events + [Up];
    }

    /** Moves the button; no visibility flag changes. */
    method SetPosition(x: real, y: real)
      modifies this
      ensures this.x == x && this.y == y
      ensures View() == old(View()) && events == old(events)
    {
      this.x, this.y := x, y;
    }
  }
}
