/**
  The dual-Kawase blur scene of `src/scenes/kawase.rs`: its blur
  parameters and their key bindings, the chain of ever smaller composite
  framebuffers, and the sequence of passes one frame draws.
 */
module Kawase {
  import opened Numerics
  import opened Keys
  import opened RenderTrace
  import TexturedQuad
  import GridMath

  /** `RESDIVS`: the divisors of the image size for the composite framebuffers. */
  const RESDIVS: seq<nat> := [2, 4, 8, 16, 32, 64]

  /** Each divisor doubles the one before, starting from 2: strictly increasing. */
  lemma ResdivsDouble()
    ensures RESDIVS[0] == 2
    ensures forall k :: 0 < k < |RESDIVS| ==> RESDIVS[k] == 2 * RESDIVS[k - 1]
    ensures forall i, j :: 0 <= i < j < |RESDIVS| ==> RESDIVS[i] < RESDIVS[j]
  {
  }

  /** The sizes of the composite framebuffers: `image_size / resdiv`, by integer division. */
  function LevelSizes(image: Size): (r: seq<Size>)
    ensures |r| == |RESDIVS|
  {
    seq(|RESDIVS|, k requires 0 <= k < |RESDIVS| => Size(image.w / RESDIVS[k], image.h / RESDIVS[k]))
  }

  /** Halving twice by integer division is dividing by the product: `a / (2b) = (a / b) / 2`. */
  lemma {:induction false} DivHalf(a: nat, b: nat)
    requires b > 0
    ensures a / (2 * b) == (a / b) / 2
  {
    var q, r := a / b, a % b;
    var h, e := q / 2, q % 2;
    assert a == q * b + r;
    assert q == 2 * h + e;
    assert a == h * (2 * b) + (e * b + r) by {
      assert q * b == (2 * h + e) * b == h * (2 * b) + e * b;
    }
    assert e * b + r < 2 * b by {
      assert e * b <= b;
    }
    GridMath.SplitJoin(e * b + r, h, 2 * b);
  }

  /** Level 0 is half the image, and every further level is the floor-half of the one before. */
  lemma {:induction false} LevelsHalve(image: Size)
    ensures LevelSizes(image)[0] == Size(image.w / 2, image.h / 2)
    ensures forall k :: 0 < k < |RESDIVS| ==>
              LevelSizes(image)[k] == Size(LevelSizes(image)[k - 1].w / 2, LevelSizes(image)[k - 1].h / 2)
  {
    ResdivsDouble();
    forall k | 0 < k < |RESDIVS|
      ensures LevelSizes(image)[k] == Size(LevelSizes(image)[k - 1].w / 2, LevelSizes(image)[k - 1].h / 2)
    {
      DivHalf(image.w, RESDIVS[k - 1]);
      DivHalf(image.h, RESDIVS[k - 1]);
    }
  }

  datatype BlurParams = BlurParams(radius: real, layers: nat, isDithered: bool)

  /** The largest radius: half the last divisor. */
  const MAX_RADIUS: real := RESDIVS[|RESDIVS| - 1] as real / 2.0
  const MIN_RADIUS: real := 0.2
  const MAX_LAYERS: nat := 5

  /** The parameters a new scene starts with. */
  function DefaultParams(): (p: BlurParams)
    ensures ValidParams(p) && p.layers > 0 && !p.isDithered
  {
    BlurParams(1.0, 1, false)
  }

  /** The radius lies in [0.2, 32] and the layer count in [0, 5]. */
  predicate ValidParams(p: BlurParams) {
    MIN_RADIUS <= p.radius <= MAX_RADIUS && p.layers <= MAX_LAYERS
  }

  /**
    `on_key`: the arrows step the radius by 0.1 within [0.2, 32], `d`/`D`
    toggle dithering, `l`/`L` step the layer count within [0, 5]; every
    other key leaves the parameters alone.
   */
  function OnKey(p: BlurParams, key: Key): (r: BlurParams)
    ensures ValidParams(p) ==> ValidParams(r)
    ensures r.layers <= if p.layers > MAX_LAYERS then p.layers else MAX_LAYERS
    ensures r.radius != p.radius ==> key == Named(ArrowRight) || key == Named(ArrowLeft)
    ensures r.isDithered != p.isDithered <==> key == Character("d") || key == Character("D")
    ensures r.layers != p.layers ==> key == Character("l") || key == Character("L")
    ensures key == Named(ArrowRight) ==> r == p.(radius := Min(p.radius + 0.1, MAX_RADIUS))
    ensures key == Named(ArrowLeft) ==> r == p.(radius := Max(p.radius - 0.1, MIN_RADIUS))
    ensures key == Character("l") ==> r.layers == (if p.layers < MAX_LAYERS then p.layers + 1 else MAX_LAYERS)
    ensures key == Character("L") ==> r.layers == (if p.layers > 0 then p.layers - 1 else 0)
  {
    match key
    case Named(ArrowRight) => p.(radius := Min(p.radius + 0.1, MAX_RADIUS))
    case Named(ArrowLeft) => p.(radius := Max(p.radius - 0.1, MIN_RADIUS))
    case Character(ch) =>
      if ch == "d" || ch == "D" then p.(isDithered := !p.isDithered)
      else if ch == "l" then p.(layers := if p.layers + 1 <= MAX_LAYERS then p.layers + 1 else MAX_LAYERS)
      else if ch == "L" then p.(layers := if p.layers >= 1 then p.layers - 1 else 0)
      else p
    case _ => p
  }

  /** The keys `on_key` acts on. */
  predicate Handled(key: Key) {
    key == Named(ArrowRight) || key == Named(ArrowLeft)
    || key == Character("d") || key == Character("D") || key == Character("l") || key == Character("L")
  }

  /** Every key `on_key` does not handle, the scene keys among them, leaves the parameters unchanged. */
  lemma UnhandledKeysKeepParams(p: BlurParams, key: Key)
    requires !Handled(key)
    ensures OnKey(p, key) == p
  {
  }

  /** Toggling dithering twice is the identity. */
  lemma DitherToggleTwice(p: BlurParams, key: Key)
    requires key == Character("d") || key == Character("D")
    ensures OnKey(OnKey(p, key), key) == p
  {
  }

  /** Below the cap, `l` then `L` gives the layer count back; above zero, `L` then `l` does. */
  lemma LayerStepsUndo(p: BlurParams)
    ensures p.layers < MAX_LAYERS ==> OnKey(OnKey(p, Character("l")), Character("L")) == p
    ensures 0 < p.layers <= MAX_LAYERS ==> OnKey(OnKey(p, Character("L")), Character("l")) == p
  {
  }

  /** Away from the bounds, one step right and one step left give the radius back. */
  lemma RadiusStepsUndo(p: BlurParams)
    requires MIN_RADIUS + 0.1 <= p.radius <= MAX_RADIUS - 0.1
    ensures OnKey(OnKey(p, Named(ArrowRight)), Named(ArrowLeft)) == p
    ensures OnKey(OnKey(p, Named(ArrowLeft)), Named(ArrowRight)) == p
  {
  }

  /** The downsampling passes: level `k` into level `k + 1`, for `k = 0 .. L - 1`. */
  function Downs(p: BlurParams): seq<Pass> {
    seq(p.layers, k requires 0 <= k < p.layers => Pass(Level(k), Level(k + 1), KawaseBlur(p.radius, false)))
  }

  /** The upsampling passes: level `L - k` into level `L - k - 1`, at half the radius. */
  function Ups(p: BlurParams): seq<Pass> {
    seq(p.layers, k requires 0 <= k < p.layers =>
      Pass(Level(p.layers - k), Level(p.layers - k - 1), KawaseBlur(p.radius * 0.5, true)))
  }

  /**
    The passes of one frame: with no layers the image is drawn directly;
    otherwise it is copied into level 0, blurred down `L` levels and back
    up, and level 0 is drawn.
   */
  function ExpectedPasses(p: BlurParams): seq<Pass> {
    if p.layers == 0 then [Pass(SourceImage, Screen, QuadDraw(p.isDithered))]
    else [Pass(SourceImage, Level(0), Copy)] + Downs(p) + Ups(p) + [Pass(Level(0), Screen, QuadDraw(p.isDithered))]
  }

  /** `kawase_pass`: one blur draw from `src` into `dst`, inside its own debug group; returns `dst`. */
  method KawasePass(trace: seq<Event>, distance: real, upsample: bool, src: Target, dst: Target)
    returns (r: seq<Event>, output: Target)
    ensures output == dst
    ensures Depth(r) == Depth(trace)
    ensures Nested(trace) ==> Nested(r)
    ensures PassesOf(r) == PassesOf(trace) + [Pass(src, dst, KawaseBlur(distance, upsample))]
  {
    r := Emit(trace, PushGroup("Kawase pass"));
    r := Emit(r, Draw(Pass(src, dst, KawaseBlur(distance, upsample))));
    r := Emit(r, PopGroup);
    output := dst;
  }

  /** The composite framebuffers, level by level. */
  function CompositeFbs(): (fbs: seq<Target>)
    ensures |fbs| == |RESDIVS|
    ensures forall k :: 0 <= k < |fbs| ==> fbs[k] == Level(k)
  {
    seq(|RESDIVS|, k requires 0 <= k < |RESDIVS| => Level(k))
  }

  /** The "Kawase downsampling" loop: levels `1 ..= L`, each drawn from the one before. */
  method Downsample(trace0: seq<Event>, p: BlurParams) returns (trace: seq<Event>, input: Target)
    requires p.layers < |RESDIVS|
    ensures Depth(trace) == Depth(trace0) && (Nested(trace0) ==> Nested(trace))
    ensures PassesOf(trace) == PassesOf(trace0) + Downs(p)
    ensures input == Level(p.layers)
  {
    var fbs := CompositeFbs();
    trace, input := trace0, fbs[0];
    var fbi := 1;
    while fbi <= p.layers
      invariant 1 <= fbi <= p.layers + 1
      invariant Depth(trace) == Depth(trace0) && (Nested(trace0) ==> Nested(trace))
      invariant input == Level(fbi - 1)
      invariant PassesOf(trace) == PassesOf(trace0) + Downs(p)[..fbi - 1]
    {
      var output := fbs[fbi];
      assert Downs(p)[..fbi] == Downs(p)[..fbi - 1] + [Pass(input, output, KawaseBlur(p.radius, false))];
      trace, input := KawasePass(trace, p.radius, false, input, output);
      fbi := fbi + 1;
    }
    assert Downs(p)[..p.layers] == Downs(p);
  }

  /** The "Kawase upsampling" loop: levels `L - 1` down to `0`, each drawn from the one above. */
  method Upsample(trace0: seq<Event>, p: BlurParams, input0: Target) returns (trace: seq<Event>, input: Target)
    requires p.layers < |RESDIVS| && input0 == Level(p.layers)
    ensures Depth(trace) == Depth(trace0) && (Nested(trace0) ==> Nested(trace))
    ensures PassesOf(trace) == PassesOf(trace0) + Ups(p)
    ensures input == Level(0)
  {
    var fbs := CompositeFbs();
    trace, input := trace0, input0;
    var done := 0;
    while done < p.layers
      invariant 0 <= done <= p.layers
      invariant Depth(trace) == Depth(trace0) && (Nested(trace0) ==> Nested(trace))
      invariant input == Level(p.layers - done)
      invariant PassesOf(trace) == PassesOf(trace0) + Ups(p)[..done]
    {
      var fbi := p.layers - 1 - done;
      var output := fbs[fbi];
      assert Ups(p)[..done + 1] == Ups(p)[..done] + [Pass(input, output, KawaseBlur(p.radius * 0.5, true))];
      trace, input := KawasePass(trace, p.radius * 0.5, true, input, output);
      done := done + 1;
    }
    assert Ups(p)[..p.layers] == Ups(p);
  }

  /**
    `draw_with_clear_color`: the trace of one frame and the texture the
    final quad samples. The composite framebuffers are indexed by level,
    so the level count must not exceed the chain (`composite_fbs[fbi]`
    panics otherwise).
   */
  method DrawWithClearColor(p: BlurParams) returns (trace: seq<Event>, texture: Target)
    requires p.layers < |RESDIVS|
    ensures Balanced(trace)
    ensures PassesOf(trace) == ExpectedPasses(p)
    ensures texture == if p.layers == 0 then SourceImage else Level(0)
  {
    trace := [];
    if p.layers == 0 {
      trace := Emit(trace, PushGroup("Draw normally"));
      texture := SourceImage;
    } else {
      trace := Emit(trace, PushGroup("Draw with blurring"));
      var input := CompositeFbs()[0];
      trace := Emit(trace, PushGroup("Gura to framebuffer"));
      trace := Emit(trace, Draw(Pass(SourceImage, input, Copy)));
      trace := Emit(trace, PopGroup);
      trace := Emit(trace, PushGroup("Kawase downsampling"));
      trace, input := Downsample(trace, p);
      trace := Emit(trace, PopGroup);
      trace := Emit(trace, PushGroup("Kawase upsampling"));
      trace, input := Upsample(trace, p, input);
      trace := Emit(trace, PopGroup);
      texture := input;
    }
    trace := Emit(trace, PushGroup("Final draw to quad"));
    trace := Emit(trace, Draw(Pass(texture, Screen, QuadDraw(p.isDithered))));
    trace := Emit(trace, PopGroup);
    trace := Emit(trace, PopGroup);
  }

  /** Each pass samples what the pass before it wrote. */
  lemma {:induction false} PassesChained(p: BlurParams)
    ensures Chained(ExpectedPasses(p))
  {
    var ps := ExpectedPasses(p);
    var L := p.layers;
    if L > 0 {
      var d, u := Downs(p), Ups(p);
      forall i | 0 < i < |ps|
        ensures ps[i].src == ps[i - 1].dst
      {
        if i <= L {
          assert ps[i] == d[i - 1];
          if i > 1 {
            assert ps[i - 1] == d[i - 2];
          }
        } else if i <= 2 * L {
          assert ps[i] == u[i - 1 - L];
          if i > L + 1 {
            assert ps[i - 1] == u[i - 2 - L];
          } else {
            assert ps[i - 1] == d[L - 1];
          }
        } else {
          assert ps[i - 1] == u[L - 1];
        }
      }
    }
  }

  /** No pass samples the target it draws into. */
  lemma {:induction false} PassesNoSelfRead(p: BlurParams)
    ensures NoSelfRead(ExpectedPasses(p))
  {
    var ps := ExpectedPasses(p);
    var L := p.layers;
    if L > 0 {
      forall i | 0 <= i < |ps|
        ensures ps[i].src != ps[i].dst
      {
        if 0 < i <= L {
          assert ps[i] == Downs(p)[i - 1];
        } else if L < i <= 2 * L {
          assert ps[i] == Ups(p)[i - 1 - L];
        }
      }
    }
  }

  /**
    With at most five layers every level a pass names is one of the six
    composite framebuffers, and exactly `L` passes go down and `L` come up.
   */
  lemma {:induction false} PassesInBounds(p: BlurParams)
    requires p.layers <= MAX_LAYERS
    ensures forall i :: 0 <= i < |ExpectedPasses(p)| ==>
              (ExpectedPasses(p)[i].src.Level? ==> ExpectedPasses(p)[i].src.k < |RESDIVS|)
              && (ExpectedPasses(p)[i].dst.Level? ==> ExpectedPasses(p)[i].dst.k < |RESDIVS|)
    ensures |ExpectedPasses(p)| == if p.layers == 0 then 1 else 2 * p.layers + 2
    ensures forall i :: 0 <= i < |ExpectedPasses(p)| ==>
              (ExpectedPasses(p)[i].kind == KawaseBlur(p.radius, false) <==> 0 < i <= p.layers)
  {
    var ps := ExpectedPasses(p);
    var L := p.layers;
    if L > 0 {
      forall i | 0 <= i < |ps|
        ensures (ps[i].src.Level? ==> ps[i].src.k < |RESDIVS|) && (ps[i].dst.Level? ==> ps[i].dst.k < |RESDIVS|)
        ensures ps[i].kind == KawaseBlur(p.radius, false) <==> 0 < i <= L
      {
        if 0 < i <= L {
          assert ps[i] == Downs(p)[i - 1];
        } else if L < i <= 2 * L {
          assert ps[i] == Ups(p)[i - 1 - L];
        }
      }
    }
  }

  /** The scene's state: viewport, parameters, image size and the image quad's index buffer. */
  datatype Scene = Scene(viewport: Vec2, blur: BlurParams, imageSize: Size, quad: TexturedQuad.Quad, indices: seq<seq<nat>>)

  /** `KawaseScene::new`: the image quad centred on the origin at the image's size, default parameters. */
  function New(viewport: Vec2, imageSize: Size): (s: Scene)
    ensures s.blur == DefaultParams() && ValidParams(s.blur)
    ensures TexturedQuad.Vertices(s.quad)[0].position.Add(TexturedQuad.Vertices(s.quad)[2].position) == Origin
    ensures s.indices == TexturedQuad.ElementBuffer(1)
    ensures TexturedQuad.DrawCount(s.indices) == 6 && TexturedQuad.DrawCountAsWritten(s.indices) == 24
  {
    TexturedQuad.DrawCountStaysInElementBuffer(1);
    TexturedQuad.DrawCountOverrunsElementBuffer(1);
    Scene(viewport, DefaultParams(), imageSize,
          TexturedQuad.Quad(Origin, Vec2(imageSize.w as real, imageSize.h as real)),
          TexturedQuad.ElementBuffer(1))
  }

  /** `on_key` on the scene. */
  function SceneOnKey(s: Scene, key: Key): (r: Scene)
    ensures r.blur == OnKey(s.blur, key) && (ValidParams(s.blur) ==> ValidParams(r.blur))
    ensures r.viewport == s.viewport && r.imageSize == s.imageSize && r.quad == s.quad && r.indices == s.indices
  {
    s.(blur := OnKey(s.blur, key))
  }

  /** `resize`: record the new viewport. */
  function Resize(s: Scene, width: int, height: int): (r: Scene)
    ensures r.viewport == Vec2(width as real, height as real)
    ensures r.blur == s.blur && r.imageSize == s.imageSize && r.quad == s.quad && r.indices == s.indices
  {
    s.(viewport := Vec2(width as real, height as real))
  }
}
