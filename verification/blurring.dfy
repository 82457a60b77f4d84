/**
  The two-pass directional blur scene of `src/scenes/blurring.rs`: its
  parameters and key bindings, the blur directions, and the four passes
  one frame draws through the composite and ping-pong framebuffers.
 */
module Blurring {
  import opened Numerics
  import opened Keys
  import opened RenderTrace
  import TexturedQuad
  import Kawase

  /** `kernel_size` (a `GLint`), `blur_radius` and `is_kawase`. */
  datatype Params = Params(kernelSize: int, blurRadius: real, isKawase: bool)

  const MAX_KERNEL_SIZE: int := 64
  const MAX_BLUR_RADIUS: real := 4.5

  function DefaultParams(): (p: Params)
    ensures ValidParams(p) && !p.isKawase
  {
    Params(16, 1.0, false)
  }

  /** The kernel size lies in [0, 64] and the radius in [0, 4.5]. */
  predicate ValidParams(p: Params) {
    0 <= p.kernelSize <= MAX_KERNEL_SIZE && 0.0 <= p.blurRadius <= MAX_BLUR_RADIUS
  }

  /**
    `on_key`: up/down step the kernel size by 1 within [0, 64], right/left
    step the radius by 0.1 within [0, 4.5], `k`/`K` toggle the Kawase
    angle; every other key leaves the parameters alone.
   */
  function OnKey(p: Params, key: Key): (r: Params)
    ensures ValidParams(p) ==> ValidParams(r)
    ensures r.kernelSize != p.kernelSize ==> key == Named(ArrowUp) || key == Named(ArrowDown)
    ensures r.blurRadius != p.blurRadius ==> key == Named(ArrowRight) || key == Named(ArrowLeft)
    ensures r.isKawase != p.isKawase <==> key == Character("k") || key == Character("K")
    ensures key == Named(ArrowUp) ==> r == p.(kernelSize := if p.kernelSize < MAX_KERNEL_SIZE then p.kernelSize + 1 else MAX_KERNEL_SIZE)
    ensures key == Named(ArrowDown) ==> r == p.(kernelSize := if p.kernelSize > 0 then p.kernelSize - 1 else 0)
    ensures key == Named(ArrowRight) ==> r == p.(blurRadius := Min(p.blurRadius + 0.1, MAX_BLUR_RADIUS))
    ensures key == Named(ArrowLeft) ==> r == p.(blurRadius := Max(p.blurRadius - 0.1, 0.0))
  {
    match key
    case Named(ArrowUp) => p.(kernelSize := if p.kernelSize + 1 <= MAX_KERNEL_SIZE then p.kernelSize + 1 else MAX_KERNEL_SIZE)
    case Named(ArrowDown) => p.(kernelSize := if p.kernelSize - 1 >= 0 then p.kernelSize - 1 else 0)
    case Named(ArrowRight) => p.(blurRadius := Min(p.blurRadius + 0.1, MAX_BLUR_RADIUS))
    case Named(ArrowLeft) => p.(blurRadius := Max(p.blurRadius - 0.1, 0.0))
    case Character(ch) => if ch == "k" || ch == "K" then p.(isKawase := !p.isKawase) else p
    case _ => p
  }

  /** The keys `on_key` acts on. */
  predicate Handled(key: Key) {
    key == Named(ArrowUp) || key == Named(ArrowDown) || key == Named(ArrowRight) || key == Named(ArrowLeft)
    || key == Character("k") || key == Character("K")
  }

  /** Every key `on_key` does not handle, the scene keys among them, leaves the parameters unchanged. */
  lemma UnhandledKeysKeepParams(p: Params, key: Key)
    requires !Handled(key)
    ensures OnKey(p, key) == p
  {
  }

  /** Toggling the Kawase angle twice is the identity. */
  lemma KawaseToggleTwice(p: Params, key: Key)
    requires key == Character("k") || key == Character("K")
    ensures OnKey(OnKey(p, key), key) == p
  {
  }

  /** Inside the bounds, one step up and one step down give the kernel size back. */
  lemma KernelStepsUndo(p: Params)
    ensures 0 <= p.kernelSize < MAX_KERNEL_SIZE ==> OnKey(OnKey(p, Named(ArrowUp)), Named(ArrowDown)) == p
    ensures 0 < p.kernelSize <= MAX_KERNEL_SIZE ==> OnKey(OnKey(p, Named(ArrowDown)), Named(ArrowUp)) == p
  {
  }

  /** The blur angles of one frame: exactly one, a quarter of PI for the Kawase variant, else 0. */
  function Angles(p: Params): (r: seq<real>)
    ensures |r| == 1
    ensures p.isKawase <==> r[0] == PI / 4.0
    ensures !p.isKawase <==> r[0] == 0.0
  {
    if p.isKawase then [PI / 4.0] else [0.0]
  }

  /** The `u_direction` uniform: the unit vector at `angle`, times the radius. */
  function Direction(angle: real, radius: real, libm: Libm): Vec2 {
    Vec2(libm.cos(angle), libm.sin(angle)).Scale(radius)
  }

  /** The direction is `radius` long, and the second pass blurs perpendicular to the first. */
  lemma {:induction false} DirectionsPerpendicular(angle: real, radius: real, libm: Libm)
    requires TrigIdentitiesAt(libm, angle)
    requires libm.cos(angle + PI / 2.0) == -libm.sin(angle) && libm.sin(angle + PI / 2.0) == libm.cos(angle)
    ensures var d := Direction(angle, radius, libm); d.x * d.x + d.y * d.y == radius * radius
    ensures var d1, d2 := Direction(angle, radius, libm), Direction(angle + PI / 2.0, radius, libm);
            d1.x * d2.x + d1.y * d2.y == 0.0
  {
    var c, s := libm.cos(angle), libm.sin(angle);
    calc {
      (c * radius) * (c * radius) + (s * radius) * (s * radius);
      (c * c + s * s) * (radius * radius);
      radius * radius;
    }
    calc {
      (c * radius) * (-s * radius) + (s * radius) * (c * radius);
      (c * s - c * s) * (radius * radius);
      0.0;
    }
  }

  /** `gura_fb_size`: the composite and ping-pong framebuffers are half the image, by integer division. */
  function FbSize(image: Size): (r: Size)
    ensures r == Kawase.LevelSizes(image)[0]
    ensures 2 * r.w <= image.w < 2 * r.w + 2 && 2 * r.h <= image.h < 2 * r.h + 2
  {
    Size(image.w / 2, image.h / 2)
  }

  /** The four passes of one frame with blur angle `angle`. */
  function ExpectedPasses(p: Params, angle: real): seq<Pass> {
    [ Pass(SourceImage, Comp, Copy),
      Pass(Comp, PingPong, DirectionalBlur(angle, p.blurRadius, p.kernelSize)),
      Pass(PingPong, Comp, DirectionalBlur(angle + PI / 2.0, p.blurRadius, p.kernelSize)),
      Pass(Comp, Screen, QuadDraw(false)) ]
  }

  /**
    `draw_with_clear_color`: copy the image into the composite target, blur
    it into the ping-pong target along each angle and back across it, then
    draw the composite texture. This scene emits no debug groups.
   */
  method DrawWithClearColor(p: Params) returns (trace: seq<Event>, texture: Target)
    ensures Balanced(trace)
    ensures PassesOf(trace) == ExpectedPasses(p, Angles(p)[0])
    ensures texture == Comp
  {
    trace := [];
    trace := Emit(trace, Draw(Pass(SourceImage, Comp, Copy)));
    var angles := Angles(p);
    var i := 0;
    while i < |angles|
      invariant 0 <= i <= |angles|
      invariant Nested(trace) && Depth(trace) == 0
      invariant PassesOf(trace) == ExpectedPasses(p, angles[0])[..1 + 2 * i]
    {
      var angle := angles[i];
      trace := Emit(trace, Draw(Pass(Comp, PingPong, DirectionalBlur(angle, p.blurRadius, p.kernelSize))));
      trace := Emit(trace, Draw(Pass(PingPong, Comp, DirectionalBlur(angle + PI / 2.0, p.blurRadius, p.kernelSize))));
      i := i + 1;
    }
    texture := Comp;
    trace := Emit(trace, Draw(Pass(texture, Screen, QuadDraw(false))));
  }

  /** Each pass samples what the pass before it wrote, and none samples its own target. */
  lemma PassesChainedNoSelfRead(p: Params, angle: real)
    ensures Chained(ExpectedPasses(p, angle)) && NoSelfRead(ExpectedPasses(p, angle))
  {
  }

  /** The scene's state: viewport, parameters, image size, framebuffer size and the image quad's index buffer. */
  datatype Scene = Scene(viewport: Vec2, params: Params, imageSize: Size, fbSize: Size,
                         quad: TexturedQuad.Quad, indices: seq<seq<nat>>)

  /** `BlurringScene::new`. */
  function New(viewport: Vec2, imageSize: Size): (s: Scene)
    ensures s.params == DefaultParams() && s.fbSize == FbSize(s.imageSize)
    ensures s.indices == TexturedQuad.ElementBuffer(1)
    ensures TexturedQuad.DrawCount(s.indices) == 6 && TexturedQuad.DrawCountAsWritten(s.indices) == 24
  {
    TexturedQuad.DrawCountStaysInElementBuffer(1);
    TexturedQuad.DrawCountOverrunsElementBuffer(1);
    Scene(viewport, DefaultParams(), imageSize, FbSize(imageSize),
          TexturedQuad.Quad(Origin, Vec2(imageSize.w as real, imageSize.h as real)),
          TexturedQuad.ElementBuffer(1))
  }

  /** `on_key` on the scene. */
  function SceneOnKey(s: Scene, key: Key): (r: Scene)
    ensures r.params == OnKey(s.params, key) && (ValidParams(s.params) ==> ValidParams(r.params))
    ensures r.viewport == s.viewport && r.imageSize == s.imageSize && r.fbSize == s.fbSize
    ensures r.quad == s.quad && r.indices == s.indices
  {
    s.(params := OnKey(s.params, key))
  }

  /** `resize`: record the new viewport. */
  function Resize(s: Scene, width: int, height: int): (r: Scene)
    ensures r.viewport == Vec2(width as real, height as real)
    ensures r.params == s.params && r.imageSize == s.imageSize && r.fbSize == s.fbSize
    ensures r.quad == s.quad && r.indices == s.indices
  {
    s.(viewport := Vec2(width as real, height as real))
  }
}
