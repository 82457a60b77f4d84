/**
  The scene controller of `src/scene.rs` (imported by `src/main.rs` as
  `scene_controller`): it owns the camera and turns pointer, button and
  wheel events into eased zoom and drag panning.

  The controller's `Instant` clock becomes the `now` argument of `Update`
  (seconds since the controller was created); `powf` comes from `Libm`.
 */
module SceneController {
  import opened Numerics
  import opened Camera

  datatype ButtonState = Pressed | Released

  /** `MouseScrollDelta`: lines, or pixels (`PhysicalPosition`). */
  datatype ScrollDelta = LineDelta(dx: real, dy: real) | PixelDelta(px: real, py: real)

  /** The window events the controller reacts to; every other event is `OtherEvent`. */
  datatype WindowEvent =
    | CursorMoved(position: Vec2)
    | MouseInput(state: ButtonState)
    | MouseWheel(delta: ScrollDelta)
    | OtherEvent

  datatype Controller = Controller(
    camera: Camera,
    mousePos: Vec2,
    mousePosHeld: Vec2,
    mouseState: ButtonState,
    scrollSpeed: real,
    hardScale: Vec2,
    prevElapsed: real,
    currentElapsed: real)

  /** `SceneController::new`. */
  function New(scaleFactor: real, scrollSpeed: real): (r: Controller)
    ensures r.camera.scale == r.hardScale == Splat(scaleFactor)
    ensures r.camera.position == Origin && r.camera.rotation == 0.0
    ensures r.mouseState == Released && r.scrollSpeed == scrollSpeed
    ensures Dt(r) == 0.0
  {
    var scale := Splat(scaleFactor);
    Controller(Default().(scale := scale), Origin, Origin, Released, scrollSpeed, scale, 0.0, 0.0)
  }

  /** `dt()`: the length of the last frame. */
  function Dt(c: Controller): real {
    c.currentElapsed - c.prevElapsed
  }

  /** The fraction `time_delta^0.6` of the remaining zoom gap that one update closes. */
  function EaseFactor(c: Controller, libm: Libm): real {
    libm.powf(Dt(c), 0.6)
  }

  /** The camera scale after one update: moved towards `hard_scale` by `EaseFactor`. */
  function EasedScale(c: Controller, libm: Libm): Vec2 {
    c.camera.scale.Add(c.hardScale.Sub(c.camera.scale).Scale(EaseFactor(c, libm)))
  }

  /**
    `update`: ease the scale, pan while the button is held, then advance the
    frame clock to `now`. Dragging divides by the eased scale, which the
    program assumes is never zero.
   */
  function Update(c: Controller, now: real, libm: Libm): (r: Controller)
    requires c.mouseState == Pressed ==> EasedScale(c, libm).NonZero()
    ensures r.camera.rotation == c.camera.rotation
    ensures r.hardScale == c.hardScale && r.mousePos == c.mousePos && r.mousePosHeld == c.mousePosHeld
    ensures r.mouseState == c.mouseState && r.scrollSpeed == c.scrollSpeed
    ensures r.camera.scale.Sub(c.camera.scale) == c.hardScale.Sub(c.camera.scale).Scale(EaseFactor(c, libm))
    ensures c.mouseState == Released ==> r.camera.position == c.camera.position
    ensures c.mouseState == Pressed ==>
              r.camera.position.Sub(c.camera.position).Mul(r.camera.scale) == c.mousePos.Sub(c.mousePosHeld)
    ensures r.prevElapsed == c.currentElapsed && Dt(r) == now - c.currentElapsed
  {
    var scale := EasedScale(c, libm);
    var position :=
      if c.mouseState == Pressed then c.camera.position.Add(c.mousePos.Sub(c.mousePosHeld).Div(scale))
      else c.camera.position;
    c.(camera := c.camera.(scale := scale, position := position),
       prevElapsed := c.currentElapsed,
       currentElapsed := now)
  }

  /** The wheel movement in lines: pixel deltas count one line per 100 pixels. */
  function WheelLines(delta: ScrollDelta): real {
    match delta
    case LineDelta(_, y) => y
    case PixelDelta(_, y) => y / 100.0
  }

  /** The factor `2^(scroll_speed * lines)` one wheel event multiplies the zoom target by. */
  function ZoomFactor(scrollSpeed: real, delta: ScrollDelta, libm: Libm): real {
    libm.powf(2.0, scrollSpeed * WheelLines(delta))
  }

  /** `interact`: record the pointer, the button and the zoom target. */
  function Interact(c: Controller, e: WindowEvent, libm: Libm): (r: Controller)
    ensures r.camera == c.camera
    ensures r.scrollSpeed == c.scrollSpeed && r.prevElapsed == c.prevElapsed && r.currentElapsed == c.currentElapsed
    ensures e.CursorMoved? ==> r == c.(mousePos := e.position)
    ensures e.MouseInput? && e.state == Pressed ==> r == c.(mouseState := Pressed, mousePosHeld := c.mousePos)
    ensures e.MouseInput? && e.state == Released ==> r == c.(mouseState := Released)
    ensures e.MouseWheel? ==>
              r == c.(hardScale := c.hardScale.Scale(ZoomFactor(c.scrollSpeed, e.delta, libm)))
    ensures e.OtherEvent? ==> r == c
  {
    match e
    case CursorMoved(p) => c.(mousePos := p)
    case MouseInput(state) =>
      if state == Pressed then c.(mouseState := state, mousePosHeld := c.mousePos)
      else c.(mouseState := state)
    case MouseWheel(delta) =>
      c.(hardScale := c.hardScale.Scale(ZoomFactor(c.scrollSpeed, delta, libm)))
    case OtherEvent => c
  }

  /** A frame whose time delta is 0 leaves the scale alone, since `0^0.6 = 0`. */
  lemma NoTimeNoZoom(c: Controller, now: real, libm: Libm)
    requires Dt(c) == 0.0 && libm.powf(0.0, 0.6) == 0.0
    requires c.mouseState == Pressed ==> EasedScale(c, libm).NonZero()
    ensures Update(c, now, libm).camera.scale == c.camera.scale
  {
  }

  /** Once the scale has reached the zoom target it stays there. */
  lemma ZoomSettled(c: Controller, now: real, libm: Libm)
    requires c.camera.scale == c.hardScale
    requires c.mouseState == Pressed ==> EasedScale(c, libm).NonZero()
    ensures Update(c, now, libm).camera.scale == c.hardScale
  {
  }

  /**
    With an ease factor in [0, 1] each scale component lands between its
    old value and the target, so a positive scale and target stay positive.
   */
  lemma {:induction false} EasedScaleBetween(c: Controller, libm: Libm)
    requires 0.0 <= EaseFactor(c, libm) <= 1.0
    ensures Between(EasedScale(c, libm).x, c.camera.scale.x, c.hardScale.x)
    ensures Between(EasedScale(c, libm).y, c.camera.scale.y, c.hardScale.y)
  {
    var f := EaseFactor(c, libm);
    var a := c.camera.scale;
    var h := c.hardScale;
    assert EasedScale(c, libm) == Vec2(a.x + f * (h.x - a.x), a.y + f * (h.y - a.y));
    PartWayBetween(a.x, h.x, f);
    PartWayBetween(a.y, h.y, f);
  }

  /** `v` lies in the closed interval spanned by `a` and `b`. */
  predicate Between(v: real, a: real, b: real) {
    (a <= b ==> a <= v <= b) && (b < a ==> b <= v <= a)
  }

  /** Moving a fraction `f` in [0, 1] of the way from `a` to `h` stays between them. */
  lemma PartWayBetween(a: real, h: real, f: real)
    requires 0.0 <= f <= 1.0
    ensures Between(a + f * (h - a), a, h)
  {
    if a <= h {
      PartWayUp(a, h, f);
    } else {
      PartWayUp(h, a, 1.0 - f);
      assert h + (1.0 - f) * (a - h) == a + f * (h - a);
    }
  }

  lemma PartWayUp(a: real, h: real, f: real)
    requires 0.0 <= f <= 1.0 && a <= h
    ensures a <= a + f * (h - a) <= h
  {
    assert h - (a + f * (h - a)) == (1.0 - f) * (h - a);
  }

  /**
    Press, move and update: the pointer travel since the press, divided by
    the newly eased scale, is added to the camera position.
   */
  lemma {:induction false} DragPans(c: Controller, to: Vec2, now: real, libm: Libm)
    requires EasedScale(c, libm).NonZero()
    ensures var pressed := Interact(c, MouseInput(Pressed), libm);
            var moved := Interact(pressed, CursorMoved(to), libm);
            var r := Update(moved, now, libm);
            r.camera.position == c.camera.position.Add(to.Sub(c.mousePos).Div(EasedScale(c, libm)))
  {
    var pressed := Interact(c, MouseInput(Pressed), libm);
    var moved := Interact(pressed, CursorMoved(to), libm);
    assert moved == c.(mouseState := Pressed, mousePosHeld := c.mousePos, mousePos := to);
    assert EasedScale(moved, libm) == EasedScale(c, libm);
  }

  /** Two wheel notches compose multiplicatively on the zoom target and never touch the camera. */
  lemma {:induction false} WheelOnlyRetargets(c: Controller, d1: ScrollDelta, d2: ScrollDelta, libm: Libm)
    ensures var r := Interact(Interact(c, MouseWheel(d1), libm), MouseWheel(d2), libm);
            && r.camera == c.camera
            && r.hardScale == c.hardScale.Scale(ZoomFactor(c.scrollSpeed, d1, libm)).Scale(ZoomFactor(c.scrollSpeed, d2, libm))
  {
  }
}
