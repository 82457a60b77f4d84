# OpenGL playground, modelled in Dafny

This project models the GPU-independent logic of the OpenGL playground
(a Rust program built on `glam`, `winit` and `glutin`):

- the 2-D camera and its pointer/world mapping;
- the scene controller that eases zoom and pans by dragging;
- the round-quads scene, a 316-wide grid of 100 000 rounded quads of
  which only the rectangle around the pointer reacts and is re-uploaded;
- the dual-Kawase blur scene and the two-pass directional blur scene,
  each as its key handler plus the sequence of render passes one frame
  issues;
- the scene selector;
- the GL config picker and the window-event handling of the application.

`f32` values are modelled as exact `real`s. `cos`, `sin`, `sqrt` and `powf`
are uninterpreted functions held in a `Libm` record and passed as a
parameter; a property that needs a fact about them takes it as a
precondition (for example `cos 0 = 1`). Randomness becomes one `Sample` per
quad whose values lie in the ranges `gen_range` draws from. Clocks become
`now`/`dt` parameters. A frame's GPU work becomes a trace of draw passes
and debug-group markers. The vertex uploads become `(offset, length)`
byte ranges.

Modules follow the program's files:

| module | file |
|---|---|
| `Numerics` | shared vector, rotation, rounding and clamping vocabulary |
| `Camera` | `src/camera.rs` |
| `SceneController` | `src/scene.rs` |
| `GridMath`, `RoundQuads` | `src/scenes/round_quads.rs` |
| `TexturedQuad` | the `Quad`/`Vertex`/`SCREEN_VERTICES` code shared by `src/scenes/kawase.rs` and `src/scenes/blurring.rs` |
| `RenderTrace` | draw passes and debug groups of the blur scenes |
| `Kawase` | `src/scenes/kawase.rs` |
| `Blurring` | `src/scenes/blurring.rs` |
| `Keys`, `Scenes` | `src/scenes.rs` |
| `App` | `src/main.rs` |

## Model

| member | source | states |
|---|---|---|
| Numerics.RotateInverse | src/camera.rs:41-59 | Rotating by `-angle` undoes rotating by `angle` whenever cosine is even, sine is odd and `cos² + sin² = 1` at that angle. |
| Numerics.Round | src/scenes/round_quads.rs:286-287 | `f32::round` gives an integer within one half of the value; halfway cases go away from zero. |
| Numerics.RoundMonotone | src/scenes/round_quads.rs:286-287 | Rounding never reverses the order of two values. |
| Numerics.Clamp | src/scenes/round_quads.rs:286-287 | The clamped value lies in `[lo, hi]`. It is the value itself inside the range and the nearer bound outside it. |
| Numerics.ClampMonotone | src/scenes/round_quads.rs:286-287 | Clamping never reverses the order of two values. |
| Numerics.Min | src/scenes/kawase.rs:226-227 | `min` is one of its arguments and is at most both. |
| Numerics.Max | src/scenes/kawase.rs:229-230 | `max` is one of its arguments and is at least both. |
| Camera.RealSize | src/camera.rs:22-27 | The real size times the scale is the viewport. It needs both scale components non-zero. |
| Camera.CenterOffset | src/camera.rs:30-32 | Twice the centre offset is the real size, and `matrix()` uses the same origin. |
| Camera.DefaultRealSizeIsViewport | src/camera.rs:10-18 | The default camera can be divided by, and its real size is the viewport. |
| Camera.ProjectionScalesByCameraScale | src/camera.rs:49-61 | The orthographic projection over the real size, followed by the window's pixel mapping, multiplies view coordinates by the camera scale. |
| Camera.WorldToView | src/camera.rs:49-61 | The x/y part of `matrix()` before the projection. At every rotation it draws world point `-position` at the centre offset. At rotation 0 it is the translation by `position + center_offset`. |
| Camera.PointerToPosUnrotated | src/camera.rs:34-46 | At rotation 0, `pointer_to_pos(p) = p / scale - center_offset - position`. |
| Camera.WorldPointerRoundTrip | src/camera.rs:34-61 | At rotation 0, `pointer_to_pos` maps the pixel where `matrix()` draws a world point back to that point. |
| Camera.PointerToPos | src/camera.rs:34-46 | At rotation 0, `matrix()` draws the world point `pointer_to_pos` gives for a pixel at that same pixel. |
| Camera.ZoomPivotsOnCentre | src/camera.rs:34-46 | At rotation 0, the viewport's centre pixel shows world point `-position` at every scale. |
| Camera.QuarterTurnBreaksRoundTrip | src/camera.rs:38-45 | As written, `pointer_to_pos` is not the inverse of `matrix()` at a quarter turn. Over a 2×2 viewport, the world origin comes back as (0, -2). |
| Camera.PointerToWorldAgreesUnrotated | src/camera.rs:34-46 | At rotation 0, the corrected inverse equals `pointer_to_pos`. |
| Camera.WorldPointerRoundTripRotated | src/camera.rs:49-61 | At every rotation, the corrected inverse maps the pixel where `matrix()` draws a world point back to that point. |
| Camera.PointerWorldRoundTripRotated | src/camera.rs:49-61 | At every rotation, `matrix()` draws the corrected inverse's world point at the original pixel. |
| SceneController.New | src/scene.rs:29-48 | Camera scale and zoom target are both `(sf, sf)`. Position and rotation are zero, the button is released, and the first frame interval is 0. |
| SceneController.Update | src/scene.rs:50-63 | The scale moves by `time_delta^0.6 * (hard_scale - scale)`. Position changes only while pressed, by the pointer travel divided by the new scale. Rotation never changes. `prev_elapsed` takes the old `current_elapsed`. |
| SceneController.Interact | src/scene.rs:65-87 | A move records the pointer. A press records the state and takes the pointer as anchor; a release records only the state. A wheel event multiplies the zoom target by `2^(speed * lines)`. The camera is never touched. |
| SceneController.NoTimeNoZoom | src/scene.rs:52-53 | A zero frame interval leaves the scale unchanged. |
| SceneController.ZoomSettled | src/scene.rs:52-53 | A scale equal to its target stays there. |
| SceneController.EasedScaleBetween | src/scene.rs:52-53 | For an ease factor in `[0, 1]`, each eased component lies between the old scale and the target. |
| SceneController.DragPans | src/scene.rs:56-58 | Press, move to `to`, update: the position grows by `(to - anchor) / eased scale`. |
| SceneController.WheelOnlyRetargets | src/scene.rs:76-84 | Two wheel events multiply the zoom target by both factors and leave the camera alone. |
| GridMath.ISqrt | src/scenes/round_quads.rs:40 | `r² <= n < (r + 1)²`: the square root rounded down. |
| GridMath.AreaWidthValue | src/scenes/round_quads.rs:40 | The grid is 316 wide, and its 316 full rows (99 856 quads) fit in the 100 000 quads. |
| GridMath.SplitJoin | src/scenes/round_quads.rs:162 | For `x < aw`, index `y * aw + x` splits back into column `x` and row `y`. |
| GridMath.JoinSplit | src/scenes/round_quads.rs:272-274 | An index is its row times the width plus its column. |
| GridMath.PosFromIdx | src/scenes/round_quads.rs:272-274 | Quad `i` sits at the centre of some cell `(x, y)` with `x < aw` and `i = y * aw + x`. |
| GridMath.PosFromGridIdx | src/scenes/round_quads.rs:276-278 | Cell `(x, y)` is drawn at `16 * ((x, y) - aw / 2)`. |
| GridMath.CellSpacing | src/scenes/round_quads.rs:276-278 | Stepping `x` or `y` by one moves the cell centre by 16 along that axis. |
| GridMath.CellsSymmetric | src/scenes/round_quads.rs:276-278 | Cells `(x, y)` and `(aw - x, aw - y)` are mirror images through the origin, so the grid is centred on it. |
| GridMath.PosFromIdxOfCell | src/scenes/round_quads.rs:272-278 | Quad `y * aw + x` sits at the centre of cell `(x, y)`. |
| GridMath.ClosestAxis | src/scenes/round_quads.rs:280-289 | The cell coordinate is below `aw`. It is the rounded coordinate when that lies in the grid, otherwise 0 or `aw - 1`. |
| GridMath.ClosestGridIdx | src/scenes/round_quads.rs:280-289 | Both coordinates lie in `[0, aw - 1]`. |
| GridMath.ClosestOfCellCentre | src/scenes/round_quads.rs:276-289 | A cell's centre maps back to that cell. |
| GridMath.ClosestAxisMonotone | src/scenes/round_quads.rs:280-289 | A larger coordinate never gets a smaller cell, so each rectangle's start is at most its end. |
| RoundQuads.FromLeBytes | src/scenes/round_quads.rs:298-309 | `u32::from_le_bytes`: the word is `b0 + 256 b1 + 65536 b2 + 16777216 b3`, the first byte least significant. |
| RoundQuads.ToLeBytes | src/scenes/round_quads.rs:337-338 | `u32::to_le_bytes`: four bytes `r` with `v = r0 + 256 r1 + 65536 r2 + 16777216 r3`, the least significant first. |
| RoundQuads.BytesRoundTrip | src/scenes/round_quads.rs:298-309 | `to_le_bytes(from_le_bytes(b)) = b`. |
| RoundQuads.WordRoundTrip | src/scenes/round_quads.rs:337-338 | `from_le_bytes(to_le_bytes(v)) = v`. |
| RoundQuads.Random | src/scenes/round_quads.rs:291-311 | Quad `i` sits at its grid cell and carries the drawn size, rotation and border. Both colours unpack to exactly the drawn bytes. |
| RoundQuads.Unpack | src/scenes/round_quads.rs:337-338 | Each channel times 255 is the matching little-endian byte of the colour. |
| RoundQuads.RandomColoursInRange | src/scenes/round_quads.rs:298-309 | Unpacked colours stay in the drawn ranges. Fill channels lie in 128..=255. Stroke RGB lies in 24..=128 and stroke alpha in 128..=255. |
| RoundQuads.QuadVertices | src/scenes/round_quads.rs:313-343 | Each vertex is a corner of the textured quad, rotated by the quad's rotation about its position. Every vertex carries the quad's style and the given intensity. Opposite corners average to the position. |
| RoundQuads.UnrotatedQuadIsTexturedQuad | src/scenes/round_quads.rs:324-332 | At rotation 0, the corners are those of the blur scenes' textured quad. |
| RoundQuads.Intensity | src/scenes/round_quads.rs:165-166 | Intensity lies in `[0, 1]`. It is 0 from the radius outward, positive inside, 1 at the pointer, and falls linearly with distance. |
| RoundQuads.React | src/scenes/round_quads.rs:164-168 | Only the rotation changes, by `2 * PI * dt * intensity`. The rotation never decreases for `dt >= 0` and is unchanged at intensity 0. |
| RoundQuads.SurroundRect | src/scenes/round_quads.rs:153-158 | The rectangle lies in the grid, and each start is at most the matching end. |
| RoundQuads.NearbyQuadsAreInRect | src/scenes/round_quads.rs:157-164 | Every quad of the full rows within the square of half-side 320 around the pointer is in the rectangle. |
| RoundQuads.PartialRowNeverReacts | src/scenes/round_quads.rs:160-164 | Quads past the last full row are never in the rectangle. |
| RoundQuads.NewGrid | src/scenes/round_quads.rs:39-52 | 100 000 quads on a 316-wide grid, each at its cell. Every vertex array is its quad's at intensity 0.5. The index buffer is the standard element buffer with 6 indices per quad. |
| RoundQuads.Resize | src/scenes/round_quads.rs:234-244 | The new viewport is recorded; quads, vertex arrays, indices and grid width are unchanged. |
| RoundQuads.NewGridDrawCount | src/scenes/round_quads.rs:225-230 | The grid's element buffer holds 600 000 indices, each naming one of the quads' vertices. The draw call as written asks for 2 400 000. |
| RoundQuads.ReactRow | src/scenes/round_quads.rs:161-171 | One row of the reactive loop advances the sweep over the rectangle by that row. |
| RoundQuads.ReactiveUpdate | src/scenes/round_quads.rs:160-172 | Exactly the quads in the rectangle react, and their vertices use intensity `2 * intensity + 0.5`. Nothing else changes. |
| RoundQuads.ResetIntensity | src/scenes/round_quads.rs:179-187 | Exactly the rectangle's vertex arrays return to intensity 0.5. Nothing else changes. |
| RoundQuads.VertexLayout | src/scenes/round_quads.rs:350-360 | One `Vertex` is its 60 bytes of fields padded to the 16-byte `Vec4` alignment, 64 bytes, so one quad's block is 256 bytes. |
| RoundQuads.RowUpload | src/scenes/round_quads.rs:200-207 | A row's upload ends at the byte where the block after the row's last column begins. |
| RoundQuads.UploadRanges | src/scenes/round_quads.rs:199-209 | There is one upload per row of the rectangle. |
| RoundQuads.UploadsCoverExactlyRect | src/scenes/round_quads.rs:199-209 | Quad `j`'s vertex array starts inside an upload exactly when `j` is in the rectangle. |
| RoundQuads.UploadsAscendDisjoint | src/scenes/round_quads.rs:199-209 | Each upload ends no later than the next one begins. |
| RoundQuads.UploadsInBounds | src/scenes/round_quads.rs:199-209 | Every upload lies inside the vertex buffer, because the full rows fit in the quads. |
| RoundQuads.ReactAndReset | src/scenes/round_quads.rs:160-187 | Quads in the rectangle react, are drawn with their reacted vertices, and rest at intensity 0.5 afterwards. Everything else is untouched, and the between-frames invariant is kept. |
| RoundQuads.FrameRect | src/scenes/round_quads.rs:152-158 | The frame's rectangle lies in the grid, with each start at most its end. |
| RoundQuads.Draw | src/scenes/round_quads.rs:147-191 | The frame's outcome (`FrameDrawn`): quads in the rectangle turn and are drawn at their reacted intensity, then reset to 0.5, and everything else is untouched. The uploads cover exactly the rectangle and stay in the buffer. The between-frames invariant is kept. |
| TexturedQuad.Vertices | src/scenes/kawase.rs:452-462 | UVs come in the order (0,0), (0,1), (1,1), (1,0). Each corner is `position + (uv - 0.5) * size`. |
| TexturedQuad.CornersCentredOnPosition | src/scenes/blurring.rs:482-492 | Opposite corners average to the quad's position. |
| TexturedQuad.Indices | src/scenes/blurring.rs:494-497 | Six indices in `[4q, 4q + 3]` form two triangles sharing the diagonal `4q`–`4q + 2`, and together they use all four vertices. |
| TexturedQuad.IndicesDisjoint | src/scenes/kawase.rs:464-467 | Distinct quads share no index. |
| TexturedQuad.ElementBufferShape | src/scenes/round_quads.rs:47-52 | The element buffer holds 6 indices per quad, all naming one of the `4n` vertices. |
| TexturedQuad.DrawCountOverrunsElementBuffer | src/scenes/kawase.rs:347-352 | As written, the draw count is 24 per quad while the buffer holds 6 per quad. |
| TexturedQuad.DrawCountStaysInElementBuffer | src/scenes/blurring.rs:441-446 | Counting indices, a draw covers exactly the `6n` indices, each naming one of the `4n` vertices. |
| TexturedQuad.ScreenVerticesMapClipToTexture | src/scenes/kawase.rs:485-493 | Each full-screen vertex samples the texture at its clip position mapped to `[0, 1]`. |
| RenderTrace.NestedIffPrefixesNonNegative | src/scenes/kawase.rs:267-356 | A trace's debug groups nest properly exactly when no prefix pops more groups than it pushed. |
| Kawase.ResdivsDouble | src/scenes/kawase.rs:16 | The divisors start at 2, each doubles the one before, and they strictly increase. |
| Kawase.LevelsHalve | src/scenes/kawase.rs:100-102 | Level 0 is half the image, and each level is the floor-half of the one before. |
| Kawase.DefaultParams | src/scenes/kawase.rs:164-169 | The starting parameters are valid, with one layer and no dithering. |
| Kawase.OnKey | src/scenes/kawase.rs:223-245 | ArrowRight raises the radius by 0.1, capped at 32. ArrowLeft lowers it by 0.1, floored at 0.2. `l` adds a layer up to 5 (`(layers + 1).min(5)`); `L` removes one, stopping at 0. `d`/`D` toggle dithering. Each parameter changes only on its own keys, and valid parameters stay valid. |
| Kawase.UnhandledKeysKeepParams | src/scenes/kawase.rs:242-244 | Every other key leaves the parameters unchanged. |
| Kawase.DitherToggleTwice | src/scenes/kawase.rs:233-235 | Toggling dithering twice is the identity. |
| Kawase.LayerStepsUndo | src/scenes/kawase.rs:236-241 | Away from the bounds, `l` and `L` undo each other. |
| Kawase.RadiusStepsUndo | src/scenes/kawase.rs:225-231 | Away from the bounds, the two arrows undo each other. |
| Kawase.KawasePass | src/scenes/kawase.rs:360-397 | One pass adds exactly one blur draw from `src` to `dst` in a balanced group, and returns `dst`. |
| Kawase.Downsample | src/scenes/kawase.rs:303-312 | The downsampling loop adds exactly the passes level `k-1` to `k` for `k = 1..L`, at the full radius, and ends on level `L`. |
| Kawase.Upsample | src/scenes/kawase.rs:314-323 | The upsampling loop adds exactly the passes level `k+1` to `k` for `k = L-1..0`, at half the radius, and ends on level 0. |
| Kawase.DrawWithClearColor | src/scenes/kawase.rs:265-358 | Debug groups are balanced on both branches. The passes are seed, `L` down, `L` up, then final; with no layers the image is drawn directly. The texture drawn is level 0, or the image when there are no layers. |
| Kawase.PassesChained | src/scenes/kawase.rs:305-325 | Each pass samples what the pass before it wrote. |
| Kawase.PassesNoSelfRead | src/scenes/kawase.rs:360-396 | No pass samples the framebuffer it writes. |
| Kawase.PassesInBounds | src/scenes/kawase.rs:305-322 | With at most 5 layers, every level named is one of the 6 framebuffers. There are `2L + 2` passes, exactly `L` of them downsampling. |
| Kawase.New | src/scenes/kawase.rs:78-91 | Default parameters and the image quad centred on the origin. Its element buffer holds 6 indices; as written, the draw asks for 24 (see Findings). |
| Kawase.SceneOnKey | src/scenes/kawase.rs:223-245 | The scene's parameters become `OnKey`'s, staying valid; viewport, image size, quad and indices are unchanged. |
| Kawase.Resize | src/scenes/kawase.rs:399-403 | The new viewport is recorded; parameters, image size, quad and indices are unchanged. |
| Blurring.DefaultParams | src/scenes/blurring.rs:273-275 | Kernel size 16, radius 1.0, Kawase angle off: all valid. |
| Blurring.OnKey | src/scenes/blurring.rs:309-336 | ArrowUp raises the kernel size by 1 up to 64, and ArrowDown lowers it by 1 down to 0. ArrowRight raises the radius by 0.1 up to 4.5, and ArrowLeft lowers it by 0.1 down to 0. `k`/`K` toggle the Kawase angle. Each parameter changes only on its own keys, and valid parameters stay valid. |
| Blurring.UnhandledKeysKeepParams | src/scenes/blurring.rs:327-335 | Every other key leaves the parameters unchanged. |
| Blurring.KawaseToggleTwice | src/scenes/blurring.rs:328-331 | Toggling the angle twice is the identity. |
| Blurring.KernelStepsUndo | src/scenes/blurring.rs:311-318 | Away from the bounds, up and down undo each other. |
| Blurring.Angles | src/scenes/blurring.rs:370 | There is exactly one angle: PI/4 iff the Kawase angle is on, 0 otherwise. |
| Blurring.DirectionsPerpendicular | src/scenes/blurring.rs:383-410 | The direction uniform is `radius` long, and the second pass blurs perpendicular to the first. |
| Blurring.FbSize | src/scenes/blurring.rs:83 | The framebuffers are half the image by integer division, the same as Kawase level 0. |
| Blurring.DrawWithClearColor | src/scenes/blurring.rs:344-449 | The passes are image to comp, comp to ping-pong at θ, ping-pong to comp at θ + PI/2, then comp to screen. The texture drawn is comp. |
| Blurring.PassesChainedNoSelfRead | src/scenes/blurring.rs:346-447 | Each pass samples what the one before wrote, and none samples its own target. |
| Blurring.New | src/scenes/blurring.rs:82-96 | Default parameters and half-size framebuffers. The image quad's element buffer holds 6 indices; as written, the draw asks for 24 (see Findings). |
| Blurring.SceneOnKey | src/scenes/blurring.rs:309-336 | The scene's parameters become `OnKey`'s, staying valid; everything else is unchanged. |
| Blurring.Resize | src/scenes/blurring.rs:451-456 | The new viewport is recorded; everything else is unchanged. |
| Scenes.New | src/scenes.rs:36-38 | The Kawase scene comes first, with default parameters. |
| Scenes.SwitchScene | src/scenes.rs:40-47 | F1/F2/F3 build a fresh round-quads, blurring or Kawase scene, even over the same scene. Any other key keeps the scene. Validity is kept. |
| Scenes.OnKey | src/scenes.rs:49-55 | Ignored by round quads, handed to the blur scene shown otherwise. The scene shown and validity are kept. |
| Scenes.SwitchThenOnKey | src/main.rs:293-294 | After a switch by F1/F2/F3, `on_key` with the same key changes nothing. |
| Scenes.Resize | src/scenes.rs:65-71 | Only the shown scene's viewport changes. |
| Scenes.Draw | src/scenes.rs:57-63 | The frame is the shown scene's (`Drew`). Round quads give the grid's frame outcome. A blur scene is unchanged, and its trace is balanced and holds its pass list. Validity is kept. |
| App.FirstTransparent | src/main.rs:334-341 | The index of the first config answering `Some(true)`; none exists exactly when no config does. |
| App.PickConfig | src/main.rs:328-344 | An empty list has no result (the `unwrap` panic). Otherwise the result is the first transparent config, or the first config when none is transparent, and always an element of the input. |
| App.FirstTransparentExtend | src/main.rs:334-342 | Appending a config changes the first transparent one only when there was none before. |
| App.WindowEvent | src/main.rs:239-304 | A zero-size resize keeps the viewport, and any other resize records it. A cursor move records the pointer, and every other event keeps it. The loop exits exactly on close or Escape. Any other pressed key switches scene, then goes to `on_key`. Every event reaches the controller. Validity is kept. |
| App.SceneKeyShowsFreshScene | src/main.rs:282-296 | F1/F2/F3 show the freshly built scene; F3 gives default Kawase parameters. |
| App.AboutToWait | src/main.rs:306-323 | The controller updates. The shown scene is resized to the viewport, then draws with the updated camera and the recorded pointer; the new scenes and frame are that draw's (`Scenes.Drew`). The same scene stays valid. |

## Left out

- GL calls: buffers, textures, shaders, framebuffers, uniforms, viewports and clears. Uploads and passes are modelled only as byte ranges and trace records.
- `src/common_gl.rs` is not part of this model beyond its debug-group markers. `src/renderer.rs` is not part of this model; the program does not declare it.
- Window, context and surface creation, the event loop, vsync, extension probing, the debug-message formatter and the `println!` output. `App` models the state after `resumed`, so the `None` states of `scenes` and `state` are not modelled.
- Image decoding and the shader sources. The image sizes are parameters, and the blur kernels themselves are not modelled.
- Randomness: `thread_rng` is replaced by one `Sample` per quad whose values lie in the `gen_range` ranges.
- The camera's depth offset and depth range (`u16::MAX`), which only matter to GL clipping.
- Every `f32` is an exact real: rounding, NaN and infinity are not modelled. Properties that hold only in exact arithmetic include `Kawase.RadiusStepsUndo` (in `f32`, 30 ArrowRight presses from 1.0 reach 3.9999983, where right then left gives 3.9999986), the Camera round trips (`Camera.PointerToPos`, `Camera.WorldPointerRoundTrip` and the rotated ones) and `SceneController.EasedScaleBetween`.
- Camera.PointerToPos: division by a zero scale is excluded by the precondition `ScaleNonZero` instead of producing infinity.
- SceneController.Update: requires a non-zero eased scale while dragging, because `real` division by zero is undefined while `f32` would give infinity.
- App.AboutToWait: requires a non-zero eased scale for the same reason, since the round-quads scene divides by the camera scale.
- GridMath.ISqrt: models `(N as f32).sqrt() as u32` as the exact integer square root. `f32` square root is correctly rounded, and for 100 000 both give 316.
- TexturedQuad.Indices: `quad_index * 4` is `u32` arithmetic; the model does not wrap. With 100 000 quads no index exceeds 400 000.
- RoundQuads.ReactiveUpdate: the index `y * aw + x` is `u32` arithmetic; the model does not wrap. With `aw = 316` the largest index is 99 855.
- RoundQuads.Distance: `Vec2::distance` is modelled with the square root left to `Libm`. `NearbyQuadsAreInRect` therefore states the covered square, not the disc.
- RoundQuads.VertexLayout: the 64-byte vertex assumes glam's SIMD `Vec4` with 16-byte alignment. With glam's `scalar-math` feature the vertex is 60 bytes and a block 240. The upload lemmas hold for any positive block size.
- Kawase.Resize, Blurring.Resize, RoundQuads.Resize: the stored matrix `camera.matrix(viewport)` is not kept, since it only feeds a GL uniform. It is `Camera.WorldToView` of the camera and the recorded viewport.
- RoundQuads.FrameRect, RoundQuads.FrameDrawn, RoundQuads.Draw: the intensity point comes from the corrected inverse `Camera.PointerToWorld` instead of `pointer_to_pos`. The two agree at rotation 0 provided `cos 0 = 1` and `sin 0 = 0` in the `Libm` record (`Camera.PointerToWorldAgreesUnrotated`); rotation 0 is the only rotation the program ever sets.
- The `i32` viewport of `App` and the `as f32` casts are modelled as exact conversions.
- Kawase.OnKey: the layer bound is stated as "at most 5, or the old count if it was already larger". `l` takes any count to at most 5, but `L` lowers a count above 5 by only one, and other keys keep it. Counts above 5 are unreachable from the default of 1.
- SceneController.Interact: every event other than pointer moves, button changes and wheel motion is one `OtherEvent`, which changes nothing.

## Findings

| source | as written | input that shows it | evidently intended | confidence | as-written member | corrected member |
|---|---|---|---|---|---|---|
| src/camera.rs:38-45 | `pointer_to_pos` rotates the scaled pointer back and only then subtracts the centre offset. `matrix()` rotates first and adds the offset after the rotation. | Rotation a quarter turn (cos 0, sin 1), scale 1, position 0, viewport 2×2. The world origin is drawn at pixel (1, 1), which `pointer_to_pos` maps to (0, -2). | Subtract the centre offset before rotating back, so the mapping inverts `matrix()` at every rotation. | not executed; unreachable in the program, which never changes the rotation | Camera.QuarterTurnBreaksRoundTrip | Camera.WorldPointerRoundTripRotated |
| src/scenes/kawase.rs:347-352 | `DrawElements` gets `size_of_val(indices)`, the byte size of the `u32` indices, as its count (also src/scenes/blurring.rs:441-446 and src/scenes/round_quads.rs:225-230). | One quad: the element buffer holds 6 indices (24 bytes), so the call asks for 24 indices. | The count is the number of indices, 6 per quad. | not executed | TexturedQuad.DrawCountOverrunsElementBuffer | TexturedQuad.DrawCountStaysInElementBuffer |
