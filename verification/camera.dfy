/**
  The camera of `src/camera.rs`: a 2-D pan/zoom/rotation state, the
  world-to-view transform that `matrix()` builds (its x/y part, before the
  orthographic projection), the projection's effect on pointer pixels, and
  `pointer_to_pos`, which maps a pointer pixel back into world space.

  Pointer pixels follow the window system's convention: origin at the
  top-left corner, y growing downwards.
 */
module Camera {
  import opened Numerics

  datatype Camera = Camera(position: Vec2, rotation: real, scale: Vec2)

  /** `Camera::default()`. */
  function Default(): Camera {
    Camera(Origin, 0.0, Vec2(1.0, 1.0))
  }

  /** The camera can be divided by: neither scale component is zero. */
  predicate ScaleNonZero(c: Camera) {
    c.scale.NonZero()
  }

  /** `real_size`: the extent of the viewport in world units. */
  function RealSize(c: Camera, viewport: Vec2): (r: Vec2)
    requires ScaleNonZero(c)
    ensures r.Mul(c.scale) == viewport
  {
    viewport.Div(c.scale)
  }

  /** `center_offset`: half the real size. */
  function CenterOffset(c: Camera, viewport: Vec2): (r: Vec2)
    requires ScaleNonZero(c)
    ensures r.Scale(2.0) == RealSize(c, viewport)
    ensures r.Scale(2.0).Mul(c.scale) == viewport
  {
    RealSize(c, viewport).Scale(0.5)
  }

  /**
    The x/y part of `matrix()` before the orthographic projection: translate
    by the camera position, rotate by the camera rotation, then translate
    by the origin `real_size / 2`.
   */
  function WorldToView(c: Camera, world: Vec2, viewport: Vec2, libm: Libm): (r: Vec2)
    requires ScaleNonZero(c)
    ensures world == c.position.Neg() ==> r == CenterOffset(c, viewport)
    ensures TrigAtZero(libm) && c.rotation == 0.0 ==> r == world.Add(c.position).Add(CenterOffset(c, viewport))
  {
    var origin := RealSize(c, viewport).Scale(0.5);
    RotateOriginOrByZero(world.Add(c.position), c.rotation, libm);
    Rotate(world.Add(c.position), c.rotation, libm).Add(origin)
  }

  /**
    The orthographic projection of `matrix()` (x/y rows of
    `orthographic_lh(0, real_size.x, real_size.y, 0, ..)`): view space to
    normalised device coordinates.
   */
  function Ortho(c: Camera, view: Vec2, viewport: Vec2): Vec2
    requires ScaleNonZero(c)
    requires viewport.NonZero()
  {
    var rs := RealSize(c, viewport);
    Vec2(2.0 * view.x / rs.x - 1.0, 1.0 - 2.0 * view.y / rs.y)
  }

  /** The window mapping of normalised device coordinates to pointer pixels (y downwards). */
  function NdcToPointer(ndc: Vec2, viewport: Vec2): Vec2 {
    Vec2((ndc.x + 1.0) / 2.0 * viewport.x, (1.0 - ndc.y) / 2.0 * viewport.y)
  }

  /** View space to pointer pixels: the projection followed by the window mapping. */
  function ViewToPointer(c: Camera, view: Vec2): Vec2 {
    view.Mul(c.scale)
  }

  /** The projection and window mapping together scale view space by `scale`. */
  lemma ProjectionScalesByCameraScale(c: Camera, view: Vec2, viewport: Vec2)
    requires ScaleNonZero(c)
    requires viewport.NonZero()
    ensures NdcToPointer(Ortho(c, view, viewport), viewport) == ViewToPointer(c, view)
  {
    var rs := RealSize(c, viewport);
    assert rs.x * c.scale.x == viewport.x;
    assert rs.y * c.scale.y == viewport.y;
    assert rs.x != 0.0 && rs.y != 0.0;
  }

  /**
    `pointer_to_pos` as written: scale the pointer by `1 / scale`, rotate by
    `-rotation`, then subtract the origin `center_offset` and the position.
   */
  function PointerToPos(c: Camera, pointer: Vec2, viewport: Vec2, libm: Libm): (r: Vec2)
    requires ScaleNonZero(c)
    ensures TrigAtZero(libm) && c.rotation == 0.0 ==> ViewToPointer(c, WorldToView(c, r, viewport, libm)) == pointer
  {
    var origin := CenterOffset(c, viewport);
    RotateOriginOrByZero(pointer.Div(c.scale), -c.rotation, libm);
    Rotate(pointer.Div(c.scale), -c.rotation, libm).Sub(origin).Sub(c.position)
  }

  /** The default camera has real size equal to the viewport. */
  lemma DefaultRealSizeIsViewport(viewport: Vec2)
    ensures var c := Default(); ScaleNonZero(c) && RealSize(c, viewport) == viewport
  {
  }

  /** At rotation 0, `pointer_to_pos(p) = p / scale - center_offset - position`. */
  lemma PointerToPosUnrotated(c: Camera, pointer: Vec2, viewport: Vec2, libm: Libm)
    requires ScaleNonZero(c) && c.rotation == 0.0 && TrigAtZero(libm)
    ensures PointerToPos(c, pointer, viewport, libm)
         == pointer.Div(c.scale).Sub(CenterOffset(c, viewport)).Sub(c.position)
  {
    RotateByZero(pointer.Div(c.scale), libm);
  }

  /** At rotation 0, a world point drawn by `matrix()` is mapped back to itself by `pointer_to_pos`. */
  lemma {:induction false} WorldPointerRoundTrip(c: Camera, world: Vec2, viewport: Vec2, libm: Libm)
    requires ScaleNonZero(c) && c.rotation == 0.0 && TrigAtZero(libm)
    ensures PointerToPos(c, ViewToPointer(c, WorldToView(c, world, viewport, libm)), viewport, libm) == world
  {
    var view := WorldToView(c, world, viewport, libm);
    RotateByZero(world.Add(c.position), libm);
    assert view == world.Add(c.position).Add(CenterOffset(c, viewport));
    var px := ViewToPointer(c, view);
    assert px.Div(c.scale) == view;
    PointerToPosUnrotated(c, px, viewport, libm);
  }

  /** At rotation 0 the viewport centre shows world point `-position` at every zoom level. */
  lemma {:induction false} ZoomPivotsOnCentre(c: Camera, viewport: Vec2, libm: Libm)
    requires ScaleNonZero(c) && c.rotation == 0.0 && TrigAtZero(libm)
    ensures PointerToPos(c, viewport.Scale(0.5), viewport, libm) == c.position.Neg()
  {
    PointerToPosUnrotated(c, viewport.Scale(0.5), viewport, libm);
    assert viewport.Scale(0.5).Div(c.scale) == CenterOffset(c, viewport);
  }

  /**
    `pointer_to_pos` as written is not the inverse of `matrix()` once the
    camera is rotated: at a quarter turn, the world origin of an unscaled,
    unpanned camera over a 2x2 viewport is drawn at pixel (1, 1), which
    `pointer_to_pos` maps to (0, -2).
   */
  lemma QuarterTurnBreaksRoundTrip(c: Camera, viewport: Vec2, libm: Libm)
    requires c.position == Origin && c.scale == Vec2(1.0, 1.0) && viewport == Vec2(2.0, 2.0)
    requires libm.cos(c.rotation) == 0.0 && libm.sin(c.rotation) == 1.0
    requires libm.cos(-c.rotation) == 0.0 && libm.sin(-c.rotation) == -1.0
    ensures PointerToPos(c, ViewToPointer(c, WorldToView(c, Origin, viewport, libm)), viewport, libm) == Vec2(0.0, -2.0)
  {
    UnitScaleOffset(c, viewport);
    OriginDrawnAtCentre(c, viewport, libm);
    QuarterTurnBack(c, viewport, libm);
  }

  /** An unscaled, unpanned camera draws the world origin at the viewport's centre pixel. */
  lemma OriginDrawnAtCentre(c: Camera, viewport: Vec2, libm: Libm)
    requires c.position == Origin && c.scale == Vec2(1.0, 1.0)
    ensures ViewToPointer(c, WorldToView(c, Origin, viewport, libm)) == viewport.Scale(0.5)
  {
    UnitScaleOffset(c, viewport);
    assert c.position.Neg() == Origin;
  }

  /** At a quarter turn, `pointer_to_pos` sends pixel (1, 1) of a 2x2 viewport to (0, -2). */
  lemma QuarterTurnBack(c: Camera, viewport: Vec2, libm: Libm)
    requires c.position == Origin && c.scale == Vec2(1.0, 1.0) && viewport == Vec2(2.0, 2.0)
    requires libm.cos(-c.rotation) == 0.0 && libm.sin(-c.rotation) == -1.0
    ensures PointerToPos(c, Vec2(1.0, 1.0), viewport, libm) == Vec2(0.0, -2.0)
  {
    UnitScaleOffset(c, viewport);
    var px := Vec2(1.0, 1.0);
    assert px.Div(c.scale) == px;
    assert Rotate(px, -c.rotation, libm) == Vec2(1.0, -1.0);
  }

  /** An unscaled camera's centre offset is half the viewport. */
  lemma UnitScaleOffset(c: Camera, viewport: Vec2)
    requires c.scale == Vec2(1.0, 1.0)
    ensures CenterOffset(c, viewport) == viewport.Scale(0.5)
  {
    assert viewport.Div(c.scale) == viewport;
  }

  /**
    The inverse of `matrix()`'s transform: undo the scale, subtract the
    origin, rotate back, subtract the position. It differs from
    `pointer_to_pos` only in subtracting the origin before the rotation.
   */
  function PointerToWorld(c: Camera, pointer: Vec2, viewport: Vec2, libm: Libm): Vec2
    requires ScaleNonZero(c)
  {
    Rotate(pointer.Div(c.scale).Sub(CenterOffset(c, viewport)), -c.rotation, libm).Sub(c.position)
  }

  /** At rotation 0 the corrected mapping and `pointer_to_pos` agree. */
  lemma PointerToWorldAgreesUnrotated(c: Camera, pointer: Vec2, viewport: Vec2, libm: Libm)
    requires ScaleNonZero(c) && c.rotation == 0.0 && TrigAtZero(libm)
    ensures PointerToWorld(c, pointer, viewport, libm) == PointerToPos(c, pointer, viewport, libm)
  {
    RotateByZero(pointer.Div(c.scale), libm);
    RotateByZero(pointer.Div(c.scale).Sub(CenterOffset(c, viewport)), libm);
  }

  /** For every rotation, the corrected mapping undoes what `matrix()` draws. */
  lemma {:induction false} WorldPointerRoundTripRotated(c: Camera, world: Vec2, viewport: Vec2, libm: Libm)
    requires ScaleNonZero(c) && TrigIdentitiesAt(libm, c.rotation)
    ensures PointerToWorld(c, ViewToPointer(c, WorldToView(c, world, viewport, libm)), viewport, libm) == world
  {
    var origin := CenterOffset(c, viewport);
    var rotated := Rotate(world.Add(c.position), c.rotation, libm);
    var px := ViewToPointer(c, WorldToView(c, world, viewport, libm));
    assert px.Div(c.scale) == rotated.Add(origin);
    assert px.Div(c.scale).Sub(origin) == rotated;
    RotateInverse(world.Add(c.position), c.rotation, libm);
  }

  /** For every rotation, `matrix()` draws the corrected mapping's world point at the pointer pixel. */
  lemma {:induction false} PointerWorldRoundTripRotated(c: Camera, pointer: Vec2, viewport: Vec2, libm: Libm)
    requires ScaleNonZero(c) && TrigIdentitiesAt(libm, c.rotation)
    ensures ViewToPointer(c, WorldToView(c, PointerToWorld(c, pointer, viewport, libm), viewport, libm)) == pointer
  {
    var origin := CenterOffset(c, viewport);
    var v := pointer.Div(c.scale).Sub(origin);
    var world := PointerToWorld(c, pointer, viewport, libm);
    assert world.Add(c.position) == Rotate(v, -c.rotation, libm);
    assert TrigIdentitiesAt(libm, -c.rotation) by {
      assert - - c.rotation == c.rotation;
    }
    RotateInverse(v, -c.rotation, libm);
    assert - - c.rotation == c.rotation;
    assert Rotate(world.Add(c.position), c.rotation, libm) == v;
    assert WorldToView(c, world, viewport, libm) == pointer.Div(c.scale);
  }
}
