/**
  The scene selector of `src/scenes.rs`: which of the three scenes is
  shown, switching between them with F1/F2/F3, and forwarding keys,
  frames and resizes to the scene shown.
 */
module Scenes {
  import opened Numerics
  import opened Keys
  import opened RenderTrace
  import Camera
  import GridMath
  import RoundQuads
  import Blurring
  import Kawase

  /**
    What building a scene reads from its surroundings: the window's inner
    size, the sizes of the two images, one random sample per quad of the
    grid, and the floating-point library.
   */
  datatype Env = Env(
    windowSize: Vec2,
    kawaseImage: Size,
    blurringImage: Size,
    samples: seq<RoundQuads.Sample>,
    libm: Libm)

  /** The surroundings supply a sample for every quad. */
  predicate ValidEnv(env: Env) {
    |env.samples| == GridMath.N_QUADS
  }

  datatype Scenes =
    | RoundQuadsScene(grid: RoundQuads.Grid)
    | BlurringScene(blurring: Blurring.Scene)
    | KawaseScene(kawase: Kawase.Scene)

  /** The state every scene keeps between frames. */
  predicate Valid(s: Scenes, libm: Libm) {
    match s
    case RoundQuadsScene(g) => RoundQuads.Valid(g) && RoundQuads.Synced(g, libm)
    case BlurringScene(b) => Blurring.ValidParams(b.params)
    case KawaseScene(k) => Kawase.ValidParams(k.blur)
  }

  function NewRoundQuads(env: Env): (s: Scenes)
    requires ValidEnv(env)
    ensures s.RoundQuadsScene? && Valid(s, env.libm)
  {
    RoundQuadsScene(RoundQuads.NewGrid(env.samples, env.windowSize, env.libm))
  }

  function NewBlurring(env: Env): (s: Scenes)
    ensures s.BlurringScene? && s.blurring.params == Blurring.DefaultParams() && Valid(s, env.libm)
  {
    BlurringScene(Blurring.New(env.windowSize, env.blurringImage))
  }

  function NewKawase(env: Env): (s: Scenes)
    ensures s.KawaseScene? && s.kawase.blur == Kawase.DefaultParams() && Valid(s, env.libm)
  {
    KawaseScene(Kawase.New(env.windowSize, env.kawaseImage))
  }

  /** `Scenes::new`: the Kawase scene with its default parameters. */
  function New(env: Env): (s: Scenes)
    ensures s.KawaseScene? && s.kawase.blur == Kawase.DefaultParams() && Valid(s, env.libm)
  {
    NewKawase(env)
  }

  /**
    `switch_scene`: F1, F2 and F3 replace the scene by a freshly built
    round-quads, blurring or Kawase scene, even when that scene is already
    shown; every other key keeps the scene.
   */
  function SwitchScene(s: Scenes, env: Env, key: Key): (r: Scenes)
    requires ValidEnv(env)
    ensures key == Named(F1) ==> r == NewRoundQuads(env)
    ensures key == Named(F2) ==> r == NewBlurring(env)
    ensures key == Named(F3) ==> r == NewKawase(env)
    ensures !IsSceneKey(key) ==> r == s
    ensures Valid(s, env.libm) ==> Valid(r, env.libm)
  {
    match key
    case Named(F1) => NewRoundQuads(env)
    case Named(F2) => NewBlurring(env)
    case Named(F3) => NewKawase(env)
    case _ => s
  }

  /** The same scene is shown. */
  predicate SameScene(a: Scenes, b: Scenes) {
    (a.RoundQuadsScene? && b.RoundQuadsScene?) || (a.BlurringScene? && b.BlurringScene?)
    || (a.KawaseScene? && b.KawaseScene?)
  }

  /** `on_key`: ignored by the round-quads scene, handed to the shown scene otherwise. */
  function OnKey(s: Scenes, key: Key): (r: Scenes)
    ensures SameScene(s, r)
    ensures s.RoundQuadsScene? ==> r == s
    ensures s.BlurringScene? ==> r.blurring == s.blurring.(params := Blurring.OnKey(s.blurring.params, key))
    ensures s.KawaseScene? ==> r.kawase == s.kawase.(blur := Kawase.OnKey(s.kawase.blur, key))
    ensures forall libm :: Valid(s, libm) ==> Valid(r, libm)
  {
    match s
    case RoundQuadsScene(_) => s
    case BlurringScene(b) => BlurringScene(Blurring.SceneOnKey(b, key))
    case KawaseScene(k) => KawaseScene(Kawase.SceneOnKey(k, key))
  }

  /** The scene keys are not keys of either blur scene: after a switch, `on_key` with the same key changes nothing. */
  lemma {:induction false} SwitchThenOnKey(s: Scenes, env: Env, key: Key)
    requires ValidEnv(env) && IsSceneKey(key)
    ensures OnKey(SwitchScene(s, env, key), key) == SwitchScene(s, env, key)
  {
    var t := SwitchScene(s, env, key);
    assert !Blurring.Handled(key) && !Kawase.Handled(key);
    match t
    case RoundQuadsScene(_) =>
    case BlurringScene(b) => Blurring.UnhandledKeysKeepParams(b.params, key);
    case KawaseScene(k) => Kawase.UnhandledKeysKeepParams(k.blur, key);
  }

  /** `resize`: the shown scene records the new viewport; nothing else changes. */
  function Resize(s: Scenes, width: int, height: int): (r: Scenes)
    ensures SameScene(s, r)
    ensures s.RoundQuadsScene? ==> r.grid == s.grid.(viewport := Vec2(width as real, height as real))
    ensures s.BlurringScene? ==> r.blurring == s.blurring.(viewport := Vec2(width as real, height as real))
    ensures s.KawaseScene? ==> r.kawase == s.kawase.(viewport := Vec2(width as real, height as real))
    ensures forall libm :: Valid(s, libm) ==> Valid(r, libm)
  {
    match s
    case RoundQuadsScene(g) => RoundQuadsScene(RoundQuads.Resize(g, width, height))
    case BlurringScene(b) => BlurringScene(Blurring.Resize(b, width, height))
    case KawaseScene(k) => KawaseScene(Kawase.Resize(k, width, height))
  }

  /** What one frame produced: the grid's drawn vertices and uploads, or a blur scene's passes. */
  datatype Frame =
    | GridFrame(drawn: seq<seq<RoundQuads.Vertex>>, uploads: seq<RoundQuads.Upload>)
    | PassFrame(trace: seq<Event>, texture: Target)

  /**
    `r` and `frame` are what one `draw` of `s` with this camera, pointer and
    frame time gives: the grid's frame for the round-quads scene, and for
    the blur scenes their own pass list, with the scene itself unchanged.
   */
  predicate Drew(s: Scenes, r: Scenes, frame: Frame, camera: Camera.Camera, pointer: Vec2, dt: real, libm: Libm)
    requires Valid(s, libm) && Camera.ScaleNonZero(camera)
  {
    && SameScene(s, r)
    && (s.RoundQuadsScene? ==>
          frame.GridFrame? && RoundQuads.FrameDrawn(s.grid, r.grid, frame.drawn, frame.uploads, camera, pointer, dt, libm))
    && (!s.RoundQuadsScene? ==> r == s && frame.PassFrame? && Balanced(frame.trace))
    && (s.BlurringScene? ==>
          frame.PassFrame?
          && PassesOf(frame.trace) == Blurring.ExpectedPasses(s.blurring.params, Blurring.Angles(s.blurring.params)[0]))
    && (s.KawaseScene? ==> frame.PassFrame? && PassesOf(frame.trace) == Kawase.ExpectedPasses(s.kawase.blur))
  }

  /**
    `draw`: the shown scene draws one frame. Only the round-quads scene
    changes its state (its quads turn); the blur scenes only draw.
   */
  method Draw(s: Scenes, camera: Camera.Camera, pointer: Vec2, dt: real, libm: Libm)
    returns (r: Scenes, frame: Frame)
    requires Valid(s, libm) && Camera.ScaleNonZero(camera)
    ensures Valid(r, libm)
    ensures Drew(s, r, frame, camera, pointer, dt, libm)
  {
    match s
    case RoundQuadsScene(g) =>
      var g', drawn, uploads := RoundQuads.Draw(g, camera, pointer, dt, libm);
      r, frame := RoundQuadsScene(g'), GridFrame(drawn, uploads);
    case BlurringScene(b) =>
      var trace, texture := Blurring.DrawWithClearColor(b.params);
      r, frame := s, PassFrame(trace, texture);
    case KawaseScene(k) =>
      var trace, texture := Kawase.DrawWithClearColor(k.blur);
      r, frame := s, PassFrame(trace, texture);
  }
}
