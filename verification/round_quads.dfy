/**
  The round-quads scene of `src/scenes/round_quads.rs`: a square-ish grid
  of randomly styled rounded quads, of which those near the pointer spin
  and glow for one frame. Only the rectangle of grid cells around the
  pointer is recomputed and uploaded, row by row.

  The random number generator becomes one `Sample` per quad: a record of
  the values `gen_range` may return. The frame time `dt` is a parameter.
 */
module RoundQuads {
  import opened Numerics
  import opened GridMath
  import Camera
  import TexturedQuad

  type Byte = b: int | 0 <= b < 256

  const WORD: nat := 0x1_0000_0000

  /** A `u32`. */
  type U32 = n: nat | n < WORD

  /** `u32::from_le_bytes`. */
  function FromLeBytes(b: seq<Byte>): (r: U32)
    requires |b| == 4
    ensures r % 256 == b[0] && r / 16777216 == b[3]
    ensures r == b[0] as int + 256 * b[1] as int + 65536 * b[2] as int + 16777216 * b[3] as int
  {
    var h2: int := b[2] as int + 256 * b[3] as int;
    var h1: int := b[1] as int + 256 * h2;
    DigitBound(b[2], b[3], 256);
    DigitBound(b[1], h2, 65536);
    DigitBound(b[0], h1, 16777216);
    var r := b[0] as int + 256 * h1;
    SplitJoin(b[0], h1, 256);
    var low := b[0] as int + 256 * b[1] as int + 65536 * b[2] as int;
    assert r == b[3] * 16777216 + low;
    SplitJoin(low, b[3], 16777216);
    r
  }

  /** `u32::to_le_bytes`. */
  function ToLeBytes(v: U32): (r: seq<Byte>)
    ensures |r| == 4
    ensures r[0] == v % 256 && r[3] == v / 16777216
    ensures v == r[0] as int + 256 * r[1] as int + 65536 * r[2] as int + 16777216 * r[3] as int
  {
    var v1 := v / 256;
    var v2 := v1 / 256;
    var v3 := v2 / 256;
    assert v3 < 256 by {
      DivBound(v, 16777216);
      DivBound(v1, 65536);
      DivBound(v2, 256);
    }
    JoinSplit(v, 256);
    JoinSplit(v1, 256);
    JoinSplit(v2, 256);
    var low := v % 256 + 256 * (v1 % 256) + 65536 * (v2 % 256);
    assert v == v3 * 16777216 + low;
    SplitJoin(low, v3, 16777216);
    [v % 256, v1 % 256, v2 % 256, v3]
  }

  lemma DigitBound(lo: Byte, hi: nat, k: nat)
    requires hi < k
    ensures lo + 256 * hi < 256 * k
  {
  }

  lemma DivBound(v: nat, k: nat)
    requires v < 256 * k
    ensures v / 256 < k
  {
  }

  /** Packing four bytes into a `u32` and unpacking it gives the bytes back. */
  lemma {:induction false} BytesRoundTrip(b: seq<Byte>)
    requires |b| == 4
    ensures ToLeBytes(FromLeBytes(b)) == b
  {
    var h2: int := b[2] as int + 256 * b[3] as int;
    var h1: int := b[1] as int + 256 * h2;
    SplitJoin(b[0], h1, 256);
    SplitJoin(b[1], h2, 256);
    SplitJoin(b[2], b[3], 256);
    assert h1 * 256 + b[0] as int == FromLeBytes(b);
  }

  /** Unpacking a `u32` into bytes and packing them gives the word back. */
  lemma {:induction false} WordRoundTrip(v: U32)
    ensures FromLeBytes(ToLeBytes(v)) == v
  {
    var v1 := v / 256;
    var v2 := v1 / 256;
    var v3 := v2 / 256;
    JoinSplit(v, 256);
    JoinSplit(v1, 256);
    JoinSplit(v2, 256);
    var b := ToLeBytes(v);
    assert b[3] == v3 && b[2] == v2 % 256 && b[1] == v1 % 256 && b[0] == v % 256;
    assert b[2] + 256 * b[3] == v2;
    assert b[1] + 256 * v2 == v1;
    assert b[0] + 256 * v1 == v;
  }

  /** The values `Quad::random` draws for one quad. */
  datatype Draws = Draws(
    size: Vec2,
    rotation: real,
    borderRadius: real,
    borderWidth: real,
    fill: seq<Byte>,
    stroke: seq<Byte>)

  /** The ranges `gen_range` draws from: fill bytes 128..=255, stroke colour bytes 24..=128, stroke alpha 128..=255. */
  predicate InRanges(d: Draws) {
    && 10.0 <= d.size.x <= 20.0 && 10.0 <= d.size.y <= 20.0
    && 0.0 <= d.rotation < TAU
    && 1.0 <= d.borderRadius <= 5.0 && 1.0 <= d.borderWidth <= 5.0
    && |d.fill| == 4 && (forall k :: 0 <= k < 4 ==> 128 <= d.fill[k])
    && |d.stroke| == 4 && (forall k :: 0 <= k < 3 ==> 24 <= d.stroke[k] <= 128) && 128 <= d.stroke[3]
  }

  type Sample = d: Draws | InRanges(d)
    witness Draws(Vec2(10.0, 10.0), 0.0, 1.0, 1.0, [128, 128, 128, 128], [24, 24, 24, 128])

  datatype Quad = Quad(
    position: Vec2,
    size: Vec2,
    rotation: real,
    borderRadius: real,
    borderWidth: real,
    fillColor: U32,
    strokeColor: U32)

  /** `Quad::random`: quad `i` sits at its grid cell, styled by the sample. */
  function Random(s: Sample, i: nat, aw: nat): (q: Quad)
    requires aw > 0
    ensures q.position == PosFromIdx(i, aw)
    ensures q.size == s.size && q.rotation == s.rotation
    ensures q.borderRadius == s.borderRadius && q.borderWidth == s.borderWidth
    ensures ToLeBytes(q.fillColor) == s.fill && ToLeBytes(q.strokeColor) == s.stroke
  {
    BytesRoundTrip(s.fill);
    BytesRoundTrip(s.stroke);
    Quad(PosFromIdx(i, aw), s.size, s.rotation, s.borderRadius, s.borderWidth,
         FromLeBytes(s.fill), FromLeBytes(s.stroke))
  }

  datatype Vec4 = Vec4(x: real, y: real, z: real, w: real)

  /** The colour channels of a packed `u32`, least significant byte first, scaled to [0, 1]. */
  function Unpack(c: U32): (r: Vec4)
    ensures var b := ToLeBytes(c);
            r.x * 255.0 == b[0] as real && r.y * 255.0 == b[1] as real
            && r.z * 255.0 == b[2] as real && r.w * 255.0 == b[3] as real
  {
    var b := ToLeBytes(c);
    Vec4(b[0] as real / 255.0, b[1] as real / 255.0, b[2] as real / 255.0, b[3] as real / 255.0)
  }

  /** The `repr(C)` vertex: two `Vec2`, two `Vec4` and three `f32`, 15 floats in all. */
  datatype Vertex = Vertex(
    position: Vec2,
    size: Vec2,
    fillColor: Vec4,
    strokeColor: Vec4,
    borderRadius: real,
    borderWidth: real,
    intensity: real)

  /**
    `size_of::<Vertex>()` under `repr(C)`: the fields take bytes 0..60
    (`fill_color` starts at 16 and `stroke_color` at 32, both on a 16-byte
    boundary), and the size is rounded up to the struct's alignment, that
    of glam's `Vec4`: 16 bytes in glam's SIMD builds (`VertexLayout`).
   */
  const VERTEX_BYTES: nat := 64
  const VEC4_ALIGN: nat := 16
  const VERTEX_FIELD_BYTES: nat := 15 * 4

  /** `size_of::<[Vertex; 4]>()`: the byte stride of one quad's block in the vertex buffer. */
  const QUAD_BYTES: nat := 4 * VERTEX_BYTES

  /** The least multiple of `align` that is at least `n`. */
  function RoundUp(n: nat, align: nat): (r: nat)
    requires align > 0
    ensures r % align == 0 && n <= r < n + align
  {
    var q := n / align;
    JoinSplit(n, align);
    if n % align == 0 then n
    else
      SplitJoin(0, q + 1, align);
      assert (q + 1) * align == q * align + align;
      (q + 1) * align
  }

  /** The vertex is its 60 bytes of fields padded to the `Vec4` alignment, and one quad's block is 256 bytes. */
  lemma VertexLayout()
    ensures VERTEX_BYTES == RoundUp(VERTEX_FIELD_BYTES, VEC4_ALIGN) && QUAD_BYTES == 256
  {
  }

  /** The corners of the axis-aligned quad of this size centred on the origin, in `Quad::vertices` order. */
  function Corners(size: Vec2): (r: seq<Vec2>)
    ensures |r| == 4
    ensures forall k :: 0 <= k < 4 ==> r[k] == TexturedQuad.Vertices(TexturedQuad.Quad(Origin, size))[k].position
  {
    [Vec2(-0.5, -0.5).Mul(size), Vec2(-0.5, 0.5).Mul(size), Vec2(0.5, 0.5).Mul(size), Vec2(0.5, -0.5).Mul(size)]
  }

  /** One vertex of `Quad::vertices`: the corner offset `c`, rotated, around the quad's centre. */
  function QuadVertex(q: Quad, c: Vec2, intensity: real, libm: Libm): Vertex {
    Vertex(Rotate(c, q.rotation, libm).Add(q.position), q.size, Unpack(q.fillColor), Unpack(q.strokeColor),
           q.borderRadius, q.borderWidth, intensity)
  }

  /**
    `Quad::vertices`: the textured-quad corners rotated about the quad's
    centre (glam's `rotate` by `(cos r, sin r)`), each vertex carrying the
    whole quad's style and `intensity`.
   */
  function QuadVertices(q: Quad, intensity: real, libm: Libm): (r: seq<Vertex>)
    ensures |r| == 4
    ensures forall k :: 0 <= k < 4 ==>
              && r[k].position.Sub(q.position) == Rotate(Corners(q.size)[k], q.rotation, libm)
              && r[k].size == q.size && r[k].intensity == intensity
              && r[k].fillColor == Unpack(q.fillColor) && r[k].strokeColor == Unpack(q.strokeColor)
              && r[k].borderRadius == q.borderRadius && r[k].borderWidth == q.borderWidth
    ensures r[0].position.Add(r[2].position) == q.position.Scale(2.0)
    ensures r[1].position.Add(r[3].position) == q.position.Scale(2.0)
  {
    var cs := Corners(q.size);
    OppositeCornersCancel(q.size, q.rotation, libm);
    [QuadVertex(q, cs[0], intensity, libm), QuadVertex(q, cs[1], intensity, libm),
     QuadVertex(q, cs[2], intensity, libm), QuadVertex(q, cs[3], intensity, libm)]
  }

  /** Rotated opposite corners stay opposite: rotation is linear. */
  lemma OppositeCornersCancel(size: Vec2, angle: real, libm: Libm)
    ensures var cs := Corners(size);
            && Rotate(cs[0], angle, libm).Add(Rotate(cs[2], angle, libm)) == Origin
            && Rotate(cs[1], angle, libm).Add(Rotate(cs[3], angle, libm)) == Origin
  {
    var cs := Corners(size);
    assert cs[2] == cs[0].Neg() && cs[3] == cs[1].Neg();
    RotateNeg(cs[0], angle, libm);
    RotateNeg(cs[1], angle, libm);
  }

  /** Unrotated, a quad's vertices are the textured quad's corners around its position. */
  lemma UnrotatedQuadIsTexturedQuad(q: Quad, intensity: real, libm: Libm)
    requires q.rotation == 0.0 && TrigAtZero(libm)
    ensures forall k :: 0 <= k < 4 ==>
              QuadVertices(q, intensity, libm)[k].position
              == TexturedQuad.Vertices(TexturedQuad.Quad(q.position, q.size))[k].position
  {
    forall k | 0 <= k < 4
      ensures QuadVertices(q, intensity, libm)[k].position
              == TexturedQuad.Vertices(TexturedQuad.Quad(q.position, q.size))[k].position
    {
      RotateByZero(Corners(q.size)[k], libm);
    }
  }

  /** The colours of a freshly drawn quad stay in the generated ranges once unpacked for the shader. */
  lemma RandomColoursInRange(s: Sample, i: nat, aw: nat, intensity: real, libm: Libm)
    requires aw > 0
    ensures forall k :: 0 <= k < 4 ==>
              var v := QuadVertices(Random(s, i, aw), intensity, libm)[k];
              && 128.0 <= 255.0 * v.fillColor.x && 128.0 <= 255.0 * v.fillColor.y
              && 128.0 <= 255.0 * v.fillColor.z && 128.0 <= 255.0 * v.fillColor.w <= 255.0
              && 24.0 <= 255.0 * v.strokeColor.x <= 128.0 && 24.0 <= 255.0 * v.strokeColor.y <= 128.0
              && 24.0 <= 255.0 * v.strokeColor.z <= 128.0 && 128.0 <= 255.0 * v.strokeColor.w <= 255.0
  {
    var q := Random(s, i, aw);
    var f := Unpack(q.fillColor);
    var st := Unpack(q.strokeColor);
    assert 255.0 * f.x == s.fill[0] as real && 255.0 * f.w == s.fill[3] as real;
    assert 255.0 * f.y == s.fill[1] as real && 255.0 * f.z == s.fill[2] as real;
    assert 255.0 * st.x == s.stroke[0] as real && 255.0 * st.w == s.stroke[3] as real;
    assert 255.0 * st.y == s.stroke[1] as real && 255.0 * st.z == s.stroke[2] as real;
  }

  /** The radius around the pointer within which quads react. */
  const SURROUND_RADIUS: real := 320.0

  /** `Vec2::distance`, with the square root left to `libm`. */
  function Distance(a: Vec2, b: Vec2, libm: Libm): real {
    var d := a.Sub(b);
    libm.sqrt(d.x * d.x + d.y * d.y)
  }

  /** `(R - distance).max(0) / R`: 1 at the pointer, falling linearly to 0 at the radius. */
  function Intensity(d: real): (r: real)
    ensures r >= 0.0
    ensures d >= 0.0 ==> r <= 1.0
    ensures d >= SURROUND_RADIUS ==> r == 0.0
    ensures d < SURROUND_RADIUS ==> r > 0.0
    ensures d == 0.0 ==> r == 1.0
    ensures d <= SURROUND_RADIUS ==> r * SURROUND_RADIUS == SURROUND_RADIUS - d
  {
    Max(SURROUND_RADIUS - d, 0.0) / SURROUND_RADIUS
  }

  /** The intensity of a quad for a pointer at world position `mouse`. */
  function QuadIntensity(q: Quad, mouse: Vec2, libm: Libm): real {
    Intensity(Distance(q.position, mouse, libm))
  }

  /** One quad's reaction: it turns by `dt * PI * 2 * intensity`, nothing else changes. */
  function React(q: Quad, mouse: Vec2, dt: real, libm: Libm): (r: Quad)
    ensures r == q.(rotation := r.rotation)
    ensures dt >= 0.0 ==> r.rotation >= q.rotation
    ensures QuadIntensity(q, mouse, libm) == 0.0 ==> r == q
    ensures r.rotation - q.rotation == 2.0 * PI * dt * QuadIntensity(q, mouse, libm)
  {
    var i := QuadIntensity(q, mouse, libm);
    assert dt >= 0.0 ==> (dt * PI) * 2.0 * i >= 0.0 by {
      if dt >= 0.0 {
        assert dt * PI >= 0.0;
      }
    }
    q.(rotation := q.rotation + (dt * PI) * 2.0 * i)
  }

  /** The grid cells `[xBeg, xEnd] x [yBeg, yEnd]` the pointer's surroundings cover. */
  datatype Rect = Rect(xBeg: nat, xEnd: nat, yBeg: nat, yEnd: nat)

  /** Quad `j` lies in the rectangle. */
  predicate InRect(j: nat, aw: nat, rect: Rect)
    requires aw > 0
  {
    rect.xBeg <= j % aw <= rect.xEnd && rect.yBeg <= j / aw <= rect.yEnd
  }

  /** The cells from `closest_grid_idx_from_pos(mouse - R)` to `closest_grid_idx_from_pos(mouse + R)`. */
  function SurroundRect(mouse: Vec2, aw: nat): (r: Rect)
    requires aw >= 1
    ensures r.xBeg <= r.xEnd < aw && r.yBeg <= r.yEnd < aw
  {
    var lo := mouse.Sub(Splat(SURROUND_RADIUS));
    var hi := mouse.Add(Splat(SURROUND_RADIUS));
    ClosestAxisMonotone(lo.x, hi.x, aw);
    ClosestAxisMonotone(lo.y, hi.y, aw);
    var (xBeg, yBeg) := ClosestGridIdx(lo, aw);
    var (xEnd, yEnd) := ClosestGridIdx(hi, aw);
    Rect(xBeg, xEnd, yBeg, yEnd)
  }

  /**
    Every quad of the full rows whose centre lies within the square of
    half-side `R` around the pointer is in the rectangle; this covers all
    quads at distance below `R`.
   */
  lemma {:induction false} NearbyQuadsAreInRect(mouse: Vec2, aw: nat, j: nat)
    requires aw >= 1 && j < aw * aw
    requires var p := PosFromIdx(j, aw);
             && mouse.x - SURROUND_RADIUS <= p.x <= mouse.x + SURROUND_RADIUS
             && mouse.y - SURROUND_RADIUS <= p.y <= mouse.y + SURROUND_RADIUS
    ensures InRect(j, aw, SurroundRect(mouse, aw))
  {
    var x, y := j % aw, j / aw;
    JoinSplit(j, aw);
    RowOfIndex(j, aw);
    PosFromIdxOfCell(x, y, aw);
    var p := PosFromGridIdx(x, y, aw);
    ClosestOfCellCentre(x, y, aw);
    ClosestAxisMonotone(mouse.x - SURROUND_RADIUS, p.x, aw);
    ClosestAxisMonotone(p.x, mouse.x + SURROUND_RADIUS, aw);
    ClosestAxisMonotone(mouse.y - SURROUND_RADIUS, p.y, aw);
    ClosestAxisMonotone(p.y, mouse.y + SURROUND_RADIUS, aw);
  }

  /** The quads past the last full row are never in the rectangle: they never react. */
  lemma PartialRowNeverReacts(mouse: Vec2, aw: nat, j: nat)
    requires aw >= 1 && j >= aw * aw
    ensures !InRect(j, aw, SurroundRect(mouse, aw))
  {
    RowOfIndex(j, aw);
  }

  /**
    The scene's state: quads, their vertex arrays, their index arrays, the
    grid width and the viewport.
   */
  datatype Grid = Grid(
    quads: seq<Quad>,
    vertices: seq<seq<Vertex>>,
    indices: seq<seq<nat>>,
    areaWidth: nat,
    viewport: Vec2)

  /** A grid the scene can work on: one vertex array per quad and full rows within the quads. */
  predicate Valid(g: Grid) {
    g.areaWidth >= 1 && g.areaWidth * g.areaWidth <= |g.quads| && |g.vertices| == |g.quads|
  }

  /** Between frames every vertex array is its quad's, at the resting intensity 0.5. */
  predicate Synced(g: Grid, libm: Libm) {
    |g.vertices| == |g.quads|
    && forall i :: 0 <= i < |g.quads| ==> g.vertices[i] == QuadVertices(g.quads[i], 0.5, libm)
  }

  /** `RoundQuadsScene::new`: `N_QUADS` random quads on a grid `isqrt(N_QUADS)` wide. */
  function NewGrid(samples: seq<Sample>, viewport: Vec2, libm: Libm): (g: Grid)
    requires |samples| == N_QUADS
    ensures Valid(g) && Synced(g, libm)
    ensures |g.quads| == N_QUADS && g.areaWidth == 316
    ensures forall i :: 0 <= i < N_QUADS ==> g.quads[i].position == PosFromIdx(i, 316)
    ensures g.indices == TexturedQuad.ElementBuffer(N_QUADS)
  {
    AreaWidthValue();
    var aw := AreaWidth();
    var quads := seq(N_QUADS, i requires 0 <= i < N_QUADS => Random(samples[i], i, aw));
    var vertices := seq(N_QUADS, i requires 0 <= i < N_QUADS => QuadVertices(quads[i], 0.5, libm));
    Grid(quads, vertices, TexturedQuad.ElementBuffer(N_QUADS), aw, viewport)
  }

  /**
    The grid's element buffer holds 600 000 indices, each naming one of the
    quads' vertices; the draw call as written asks for 2 400 000.
   */
  lemma NewGridDrawCount(samples: seq<Sample>, viewport: Vec2, libm: Libm)
    requires |samples| == N_QUADS
    ensures var g := NewGrid(samples, viewport, libm);
            && TexturedQuad.DrawCount(g.indices) == 6 * N_QUADS
            && TexturedQuad.DrawCountAsWritten(g.indices) == 24 * N_QUADS
            && forall k :: 0 <= k < 6 * N_QUADS ==> TexturedQuad.Flatten(g.indices)[k] < 4 * |g.quads|
  {
    TexturedQuad.DrawCountStaysInElementBuffer(N_QUADS);
    TexturedQuad.DrawCountOverrunsElementBuffer(N_QUADS);
  }

  /** `resize`: record the new viewport. */
  function Resize(g: Grid, width: int, height: int): (r: Grid)
    ensures r.viewport == Vec2(width as real, height as real)
    ensures r.quads == g.quads && r.vertices == g.vertices && r.indices == g.indices && r.areaWidth == g.areaWidth
  {
    g.(viewport := Vec2(width as real, height as real))
  }

  /** Quad `j` of the rectangle has been visited once the row-major sweep stands at cell `(x, y)`. */
  predicate Visited(j: nat, aw: nat, rect: Rect, x: nat, y: nat)
    requires aw > 0
  {
    InRect(j, aw, rect) && (j / aw < y || (j / aw == y && j % aw < x))
  }

  /** The only index whose column is `x < aw` and whose row is `y` is `y * aw + x`. */
  lemma CellIndexUnique(j: nat, x: nat, y: nat, aw: nat)
    requires x < aw && j % aw == x && j / aw == y
    ensures j == y * aw + x
  {
    JoinSplit(j, aw);
  }

  /** A row's sweep starts at its first column: the cells before `xBeg` are not in the rectangle. */
  lemma SweepRowStart<T>(cur: seq<T>, orig: seq<T>, target: seq<T>, aw: nat, rect: Rect, y: nat)
    requires aw > 0 && SweptTo(cur, orig, target, aw, rect, 0, y)
    ensures SweptTo(cur, orig, target, aw, rect, rect.xBeg, y)
  {
    forall j | 0 <= j < |cur|
      ensures Visited(j, aw, rect, 0, y) == Visited(j, aw, rect, rect.xBeg, y)
    {
    }
  }

  /** Past the rectangle's last column the sweep of row `y` is the start of row `y + 1`. */
  lemma SweepNextRow<T>(cur: seq<T>, orig: seq<T>, target: seq<T>, aw: nat, rect: Rect, x: nat, y: nat)
    requires aw > 0 && rect.xEnd < x && SweptTo(cur, orig, target, aw, rect, x, y)
    ensures SweptTo(cur, orig, target, aw, rect, 0, y + 1)
  {
    forall j | 0 <= j < |cur|
      ensures Visited(j, aw, rect, x, y) == Visited(j, aw, rect, 0, y + 1)
    {
    }
  }

  /** Past the rectangle's last row the sweep has visited exactly the rectangle. */
  lemma SweepDone<T>(cur: seq<T>, orig: seq<T>, target: seq<T>, aw: nat, rect: Rect, y: nat)
    requires aw > 0 && rect.yEnd < y && SweptTo(cur, orig, target, aw, rect, 0, y)
    ensures |cur| == |orig| == |target|
    ensures forall j :: 0 <= j < |cur| ==> cur[j] == if InRect(j, aw, rect) then target[j] else orig[j]
  {
    forall j | 0 <= j < |cur|
      ensures Visited(j, aw, rect, 0, y) == InRect(j, aw, rect)
    {
    }
  }

  /** The vertices of a quad that has just reacted: built from the turned quad, at `2 * intensity + 0.5`. */
  function ReactedVertices(q: Quad, mouse: Vec2, dt: real, libm: Libm): seq<Vertex> {
    QuadVertices(React(q, mouse, dt, libm), 2.0 * QuadIntensity(q, mouse, libm) + 0.5, libm)
  }

  /**
    The row-major sweep over the rectangle has reached cell `(x, y)`: every
    visited index holds its `target` value, every other index its original.
   */
  predicate SweptTo<T(==)>(cur: seq<T>, orig: seq<T>, target: seq<T>, aw: nat, rect: Rect, x: nat, y: nat)
    requires aw > 0
  {
    && |cur| == |orig| == |target|
    && forall j :: 0 <= j < |cur| ==> cur[j] == if Visited(j, aw, rect, x, y) then target[j] else orig[j]
  }

  /** Updating index `y * aw + x`, if it exists, moves the sweep on by one cell; that index was untouched before. */
  lemma {:induction false} SweepStep<T>(cur: seq<T>, orig: seq<T>, target: seq<T>, aw: nat, rect: Rect, x: nat, y: nat)
    requires rect.xBeg <= x <= rect.xEnd < aw && rect.yBeg <= y <= rect.yEnd
    requires SweptTo(cur, orig, target, aw, rect, x, y)
    ensures var i := y * aw + x;
            && (i < |cur| ==> cur[i] == orig[i])
            && SweptTo(if i < |cur| then cur[i := target[i]] else cur, orig, target, aw, rect, x + 1, y)
  {
    var i := y * aw + x;
    SplitJoin(x, y, aw);
    forall j | 0 <= j < |cur|
      ensures Visited(j, aw, rect, x + 1, y) == (Visited(j, aw, rect, x, y) || j == i)
    {
      if j % aw == x && j / aw == y {
        CellIndexUnique(j, x, y, aw);
      }
    }
  }

  /** Every quad of the grid, reacted. */
  function ReactedQuads(g: Grid, mouse: Vec2, dt: real, libm: Libm): (r: seq<Quad>)
    ensures |r| == |g.quads|
    ensures forall j :: 0 <= j < |r| ==> r[j] == React(g.quads[j], mouse, dt, libm)
  {
    seq(|g.quads|, j requires 0 <= j < |g.quads| => React(g.quads[j], mouse, dt, libm))
  }

  /** The vertex arrays of every quad of the grid, reacted. */
  function ReactedVertexArrays(g: Grid, mouse: Vec2, dt: real, libm: Libm): (r: seq<seq<Vertex>>)
    ensures |r| == |g.quads|
    ensures forall j :: 0 <= j < |r| ==> r[j] == ReactedVertices(g.quads[j], mouse, dt, libm)
  {
    seq(|g.quads|, j requires 0 <= j < |g.quads| => ReactedVertices(g.quads[j], mouse, dt, libm))
  }

  /** One row `y` of the reactive loop. */
  method ReactRow(g: Grid, quads0: seq<Quad>, vertices0: seq<seq<Vertex>>, rect: Rect,
                  mouse: Vec2, dt: real, libm: Libm, y: nat)
    returns (quads: seq<Quad>, vertices: seq<seq<Vertex>>)
    requires Valid(g) && rect.xEnd < g.areaWidth && rect.yBeg <= y <= rect.yEnd
    requires SweptTo(quads0, g.quads, ReactedQuads(g, mouse, dt, libm), g.areaWidth, rect, 0, y)
    requires SweptTo(vertices0, g.vertices, ReactedVertexArrays(g, mouse, dt, libm), g.areaWidth, rect, 0, y)
    ensures SweptTo(quads, g.quads, ReactedQuads(g, mouse, dt, libm), g.areaWidth, rect, 0, y + 1)
    ensures SweptTo(vertices, g.vertices, ReactedVertexArrays(g, mouse, dt, libm), g.areaWidth, rect, 0, y + 1)
  {
    var aw := g.areaWidth;
    ghost var rq, rv := ReactedQuads(g, mouse, dt, libm), ReactedVertexArrays(g, mouse, dt, libm);
    quads, vertices := quads0, vertices0;
    SweepRowStart(quads, g.quads, rq, aw, rect, y);
    SweepRowStart(vertices, g.vertices, rv, aw, rect, y);
    var x := rect.xBeg;
    while x <= rect.xEnd
      invariant rect.xBeg <= x
      invariant SweptTo(quads, g.quads, rq, aw, rect, x, y)
      invariant SweptTo(vertices, g.vertices, rv, aw, rect, x, y)
      decreases rect.xEnd + 1 - x
    {
      var i := y * aw + x;
      SweepStep(quads, g.quads, rq, aw, rect, x, y);
      SweepStep(vertices, g.vertices, rv, aw, rect, x, y);
      if i < |quads| {
        var q := quads[i];
        quads := quads[i := React(q, mouse, dt, libm)];
        vertices := vertices[i := ReactedVertices(q, mouse, dt, libm)];
      }
      x := x + 1;
    }
    SweepNextRow(quads, g.quads, rq, aw, rect, x, y);
    SweepNextRow(vertices, g.vertices, rv, aw, rect, x, y);
  }

  /**
    The reactive loop of `draw`: every quad of the rectangle turns by its
    intensity and gets vertices at intensity `2 * intensity + 0.5`; indices
    past the last quad are skipped (`get_mut` returns `None`). Nothing
    outside the rectangle changes.
   */
  method ReactiveUpdate(g: Grid, rect: Rect, mouse: Vec2, dt: real, libm: Libm)
    returns (quads: seq<Quad>, vertices: seq<seq<Vertex>>)
    requires Valid(g) && rect.xEnd < g.areaWidth
    ensures |quads| == |g.quads| && |vertices| == |g.vertices|
    ensures forall j :: 0 <= j < |quads| ==>
              quads[j] == if InRect(j, g.areaWidth, rect) then React(g.quads[j], mouse, dt, libm) else g.quads[j]
    ensures forall j :: 0 <= j < |quads| ==>
              vertices[j] == if InRect(j, g.areaWidth, rect)
                             then QuadVertices(quads[j], 2.0 * QuadIntensity(g.quads[j], mouse, libm) + 0.5, libm)
                             else g.vertices[j]
  {
    var aw := g.areaWidth;
    ghost var rq, rv := ReactedQuads(g, mouse, dt, libm), ReactedVertexArrays(g, mouse, dt, libm);
    quads, vertices := g.quads, g.vertices;
    var y := rect.yBeg;
    while y <= rect.yEnd
      invariant rect.yBeg <= y
      invariant SweptTo(quads, g.quads, rq, aw, rect, 0, y)
      invariant SweptTo(vertices, g.vertices, rv, aw, rect, 0, y)
      decreases rect.yEnd + 1 - y
    {
      quads, vertices := ReactRow(g, quads, vertices, rect, mouse, dt, libm, y);
      y := y + 1;
    }
    SweepDone(quads, g.quads, rq, aw, rect, y);
    SweepDone(vertices, g.vertices, rv, aw, rect, y);
  }

  /** The vertex arrays of every quad at the resting intensity 0.5. */
  function RestingVertexArrays(quads: seq<Quad>, libm: Libm): (r: seq<seq<Vertex>>)
    ensures |r| == |quads|
    ensures forall j :: 0 <= j < |r| ==> r[j] == QuadVertices(quads[j], 0.5, libm)
  {
    seq(|quads|, j requires 0 <= j < |quads| => QuadVertices(quads[j], 0.5, libm))
  }

  /** The reset loop of `draw`: the rectangle's vertices go back to intensity 0.5; nothing else changes. */
  method ResetIntensity(quads: seq<Quad>, vertices: seq<seq<Vertex>>, aw: nat, rect: Rect, libm: Libm)
    returns (reset: seq<seq<Vertex>>)
    requires aw >= 1 && rect.xEnd < aw && |vertices| == |quads|
    ensures |reset| == |vertices|
    ensures forall j :: 0 <= j < |reset| ==>
              reset[j] == if InRect(j, aw, rect) then QuadVertices(quads[j], 0.5, libm) else vertices[j]
  {
    ghost var rest := RestingVertexArrays(quads, libm);
    reset := vertices;
    var y := rect.yBeg;
    while y <= rect.yEnd
      invariant rect.yBeg <= y
      invariant SweptTo(reset, vertices, rest, aw, rect, 0, y)
      decreases rect.yEnd + 1 - y
    {
      SweepRowStart(reset, vertices, rest, aw, rect, y);
      var x := rect.xBeg;
      while x <= rect.xEnd
        invariant rect.xBeg <= x
        invariant SweptTo(reset, vertices, rest, aw, rect, x, y)
        decreases rect.xEnd + 1 - x
      {
        var i := y * aw + x;
        SweepStep(reset, vertices, rest, aw, rect, x, y);
        if i < |quads| {
          reset := reset[i := QuadVertices(quads[i], 0.5, libm)];
        }
        x := x + 1;
      }
      SweepNextRow(reset, vertices, rest, aw, rect, x, y);
      y := y + 1;
    }
    SweepDone(reset, vertices, rest, aw, rect, y);
  }

  /** One `BufferSubData` call: `length` bytes of the vertex buffer from byte `offset`. */
  datatype Upload = Upload(offset: nat, length: nat)

  /** The size in bytes of `blocks` consecutive `[Vertex; 4]` arrays. */
  function Bytes(blocks: nat): nat {
    blocks * QUAD_BYTES
  }

  /** `Bytes` is additive and strictly increasing. */
  lemma BytesLinear(a: nat, b: nat)
    ensures Bytes(a) + Bytes(b) == Bytes(a + b)
    ensures a < b <==> Bytes(a) < Bytes(b)
  {
  }

  /** The upload of the row of quads starting at index `rowStart`: columns `xBeg ..= xEnd`. */
  function RowUpload(rowStart: nat, rect: Rect): (u: Upload)
    requires rect.xBeg <= rect.xEnd
    ensures u.offset + u.length == Bytes(rowStart + rect.xEnd + 1)
  {
    BytesLinear(rowStart + rect.xBeg, rect.xEnd - rect.xBeg + 1);
    Upload(Bytes(rowStart + rect.xBeg), Bytes(rect.xEnd - rect.xBeg + 1))
  }

  /**
    `update_vertices`: one upload per row of the rectangle, from the row's
    first to its last quad, in whole `[Vertex; 4]` blocks.
   */
  function UploadRanges(aw: nat, rect: Rect): (r: seq<Upload>)
    requires rect.xBeg <= rect.xEnd
    ensures |r| == if rect.yBeg <= rect.yEnd then rect.yEnd - rect.yBeg + 1 else 0
  {
    var rows := if rect.yBeg <= rect.yEnd then rect.yEnd - rect.yBeg + 1 else 0;
    seq(rows, k requires 0 <= k < rows => RowUpload((rect.yBeg + k) * aw, rect))
  }

  /** The vertex array of quad `j` lies inside one of the uploads. */
  predicate Covered(uploads: seq<Upload>, j: nat) {
    exists k :: 0 <= k < |uploads| && uploads[k].offset <= Bytes(j) < uploads[k].offset + uploads[k].length
  }

  /** Block `j` starts inside the bytes of the row upload exactly when `j` is one of the row's columns. */
  lemma {:induction false} InRowUpload(j: nat, rowStart: nat, rect: Rect)
    requires rect.xBeg <= rect.xEnd
    ensures var u := RowUpload(rowStart, rect);
            (u.offset <= Bytes(j) < u.offset + u.length) <==> rowStart + rect.xBeg <= j <= rowStart + rect.xEnd
  {
    BytesLinear(j, rowStart + rect.xBeg);
    BytesLinear(rowStart + rect.xBeg, j);
    BytesLinear(j, rowStart + rect.xEnd + 1);
  }

  /** The uploads transfer exactly the vertex arrays of the rectangle's quads. */
  lemma {:induction false} UploadsCoverExactlyRect(aw: nat, rect: Rect, j: nat)
    requires aw >= 1 && rect.xBeg <= rect.xEnd < aw
    ensures Covered(UploadRanges(aw, rect), j) <==> InRect(j, aw, rect)
  {
    var r := UploadRanges(aw, rect);
    if InRect(j, aw, rect) {
      var y := j / aw;
      var k := y - rect.yBeg;
      JoinSplit(j, aw);
      InRowUpload(j, y * aw, rect);
      assert r[k] == RowUpload(y * aw, rect);
    }
    if Covered(r, j) {
      var k :| 0 <= k < |r| && r[k].offset <= Bytes(j) < r[k].offset + r[k].length;
      var y := rect.yBeg + k;
      InRowUpload(j, y * aw, rect);
      var x := j - y * aw;
      SplitJoin(x, y, aw);
    }
  }

  /** Every upload ends no later than the next begins. */
  lemma {:induction false} UploadsAscendDisjoint(aw: nat, rect: Rect)
    requires rect.xBeg <= rect.xEnd < aw
    ensures var r := UploadRanges(aw, rect);
            forall k :: 0 <= k < |r| - 1 ==> r[k].offset + r[k].length <= r[k + 1].offset
  {
    var r := UploadRanges(aw, rect);
    forall k | 0 <= k < |r| - 1
      ensures r[k].offset + r[k].length <= r[k + 1].offset
    {
      var y := rect.yBeg + k;
      var a := y * aw;
      assert r[k] == RowUpload(a, rect);
      assert r[k + 1] == RowUpload((y + 1) * aw, rect);
      assert (y + 1) * aw == a + aw;
      BytesLinear(a + rect.xEnd + 1, a + aw + rect.xBeg);
    }
  }

  /** With the rectangle inside the full rows, every upload stays inside the vertex buffer of `n` quads. */
  lemma {:induction false} UploadsInBounds(aw: nat, rect: Rect, n: nat)
    requires rect.xBeg <= rect.xEnd < aw && rect.yEnd < aw && aw * aw <= n
    ensures var r := UploadRanges(aw, rect);
            forall k :: 0 <= k < |r| ==> r[k].offset + r[k].length <= Bytes(n)
  {
    var r := UploadRanges(aw, rect);
    forall k | 0 <= k < |r|
      ensures r[k].offset + r[k].length <= Bytes(n)
    {
      var y := rect.yBeg + k;
      var a := y * aw;
      assert r[k] == RowUpload(a, rect);
      assert a + aw <= n by {
        MulLe(y + 1, aw, aw);
        assert (y + 1) * aw == a + aw;
      }
      BytesLinear(a + rect.xEnd + 1, n);
    }
  }

  /**
    The rectangle of `draw`: around the pointer's world position. The
    corrected inverse of the camera transform is used; at rotation 0, the
    only rotation the program sets, it is `pointer_to_pos` itself.
   */
  function FrameRect(g: Grid, camera: Camera.Camera, pointer: Vec2, libm: Libm): (r: Rect)
    requires Valid(g) && Camera.ScaleNonZero(camera)
    ensures r.xBeg <= r.xEnd < g.areaWidth && r.yBeg <= r.yEnd < g.areaWidth
  {
    SurroundRect(Camera.PointerToWorld(camera, pointer, g.viewport, libm), g.areaWidth)
  }

  /**
    The vertex work of `draw` on one rectangle: react, keep the drawn
    vertex data, then reset the rectangle to intensity 0.5.
   */
  method ReactAndReset(g: Grid, rect: Rect, mouse: Vec2, dt: real, libm: Libm)
    returns (r: Grid, drawn: seq<seq<Vertex>>)
    requires Valid(g) && rect.xEnd < g.areaWidth
    ensures Valid(r) && r.indices == g.indices && r.areaWidth == g.areaWidth && r.viewport == g.viewport
    ensures |r.quads| == |g.quads| && |drawn| == |g.quads|
    ensures forall j :: 0 <= j < |g.quads| ==>
              if InRect(j, g.areaWidth, rect) then
                && r.quads[j] == React(g.quads[j], mouse, dt, libm)
                && drawn[j] == ReactedVertices(g.quads[j], mouse, dt, libm)
                && r.vertices[j] == QuadVertices(r.quads[j], 0.5, libm)
              else
                r.quads[j] == g.quads[j] && drawn[j] == g.vertices[j] && r.vertices[j] == g.vertices[j]
    ensures Synced(g, libm) ==> Synced(r, libm)
  {
    var aw := g.areaWidth;
    var quads, vertices := ReactiveUpdate(g, rect, mouse, dt, libm);
    drawn := vertices;
    var reset := ResetIntensity(quads, vertices, aw, rect, libm);
    r := g.(quads := quads, vertices := reset);
    forall j | 0 <= j < |g.quads|
      ensures if InRect(j, aw, rect) then
                && r.quads[j] == React(g.quads[j], mouse, dt, libm)
                && drawn[j] == ReactedVertices(g.quads[j], mouse, dt, libm)
                && r.vertices[j] == QuadVertices(r.quads[j], 0.5, libm)
              else
                r.quads[j] == g.quads[j] && drawn[j] == g.vertices[j] && r.vertices[j] == g.vertices[j]
    {
    }
    if Synced(g, libm) {
      forall j | 0 <= j < |r.quads|
        ensures r.vertices[j] == QuadVertices(r.quads[j], 0.5, libm)
      {
        if !InRect(j, aw, rect) {
          assert g.vertices[j] == QuadVertices(g.quads[j], 0.5, libm);
        }
      }
    }
  }

  /**
    What one `draw` of `g` leaves behind, `r`, with the vertex data at the
    draw call, `drawn`, and the byte ranges of each upload, `uploads`.
    Quads in the frame's rectangle turn and are drawn at their reacted
    intensity, then rest at 0.5. Everything else is untouched, and the
    uploads cover exactly the rectangle inside the vertex buffer.
   */
  predicate FrameDrawn(g: Grid, r: Grid, drawn: seq<seq<Vertex>>, uploads: seq<Upload>,
                       camera: Camera.Camera, pointer: Vec2, dt: real, libm: Libm)
    requires Valid(g) && Camera.ScaleNonZero(camera)
  {
    var mouse := Camera.PointerToWorld(camera, pointer, g.viewport, libm);
    var rect := FrameRect(g, camera, pointer, libm);
    && |r.quads| == |g.quads| && |r.vertices| == |g.quads| && |drawn| == |g.quads|
    && (forall j :: 0 <= j < |g.quads| ==>
          if InRect(j, g.areaWidth, rect) then
            && r.quads[j] == React(g.quads[j], mouse, dt, libm)
            && drawn[j] == ReactedVertices(g.quads[j], mouse, dt, libm)
            && r.vertices[j] == QuadVertices(r.quads[j], 0.5, libm)
          else
            r.quads[j] == g.quads[j] && drawn[j] == g.vertices[j] && r.vertices[j] == g.vertices[j])
    && (forall j :: 0 <= j < |g.quads| ==> (Covered(uploads, j) <==> InRect(j, g.areaWidth, rect)))
    && (forall k :: 0 <= k < |uploads| ==> uploads[k].offset + uploads[k].length <= Bytes(|g.quads|))
  }

  /**
    `draw`: react, upload the rectangle, draw, reset the rectangle to
    intensity 0.5, upload it again.
   */
  method Draw(g: Grid, camera: Camera.Camera, pointer: Vec2, dt: real, libm: Libm)
    returns (r: Grid, drawn: seq<seq<Vertex>>, uploads: seq<Upload>)
    requires Valid(g) && Camera.ScaleNonZero(camera)
    ensures Valid(r) && r.indices == g.indices && r.areaWidth == g.areaWidth && r.viewport == g.viewport
    ensures FrameDrawn(g, r, drawn, uploads, camera, pointer, dt, libm)
    ensures Synced(g, libm) ==> Synced(r, libm)
  {
    var aw := g.areaWidth;
    var mouse := Camera.PointerToWorld(camera, pointer, g.viewport, libm);
    var rect := SurroundRect(mouse, aw);
    assert rect == FrameRect(g, camera, pointer, libm);
    r, drawn := ReactAndReset(g, rect, mouse, dt, libm);
    uploads := UploadRanges(aw, rect);
    forall j | 0 <= j < |g.quads|
      ensures Covered(uploads, j) <==> InRect(j, aw, rect)
    {
      UploadsCoverExactlyRect(aw, rect, j);
    }
    UploadsInBounds(aw, rect, |g.quads|);
  }
}
