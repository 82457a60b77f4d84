/**
  The single textured quad of the two blur scenes (`Quad` and `Vertex` in
  `src/scenes/kawase.rs` and `src/scenes/blurring.rs`, which are the same
  code), the element indices shared with the quad grid, and the
  full-screen triangles used by the off-screen passes.
 */
module TexturedQuad {
  import opened Numerics

  datatype Vertex = Vertex(position: Vec2, uv: Vec2)

  datatype Quad = Quad(position: Vec2, size: Vec2)

  /**
    `Quad::vertices`: the corners `position ± size/2`, each corner's offset
    from the centre being its texture coordinate minus one half, times size.
   */
  function Vertices(q: Quad): (r: seq<Vertex>)
    ensures |r| == 4
    ensures r[0].uv == Vec2(0.0, 0.0) && r[1].uv == Vec2(0.0, 1.0)
    ensures r[2].uv == Vec2(1.0, 1.0) && r[3].uv == Vec2(1.0, 0.0)
    ensures forall k :: 0 <= k < 4 ==> r[k].position == q.position.Add(r[k].uv.Sub(Splat(0.5)).Mul(q.size))
  {
    [
      Vertex(Vec2(-0.5, -0.5).Mul(q.size).Add(q.position), Vec2(0.0, 0.0)),
      Vertex(Vec2(-0.5, 0.5).Mul(q.size).Add(q.position), Vec2(0.0, 1.0)),
      Vertex(Vec2(0.5, 0.5).Mul(q.size).Add(q.position), Vec2(1.0, 1.0)),
      Vertex(Vec2(0.5, -0.5).Mul(q.size).Add(q.position), Vec2(1.0, 0.0))
    ]
  }

  /** The quad is centred on its position: opposite corners average to it. */
  lemma CornersCentredOnPosition(q: Quad)
    ensures var v := Vertices(q);
            && v[0].position.Add(v[2].position) == q.position.Scale(2.0)
            && v[1].position.Add(v[3].position) == q.position.Scale(2.0)
  {
  }

  /**
    `Quad::indices`: two triangles over the quad's four vertices that share
    the diagonal from its first to its third vertex. `quad_index * 4` is
    `u32` arithmetic in the program; the model does not wrap.
   */
  function Indices(quadIndex: nat): (r: seq<nat>)
    ensures |r| == 6
    ensures forall k :: 0 <= k < 6 ==> 4 * quadIndex <= r[k] <= 4 * quadIndex + 3
    ensures r[0] == r[3] == 4 * quadIndex && r[2] == r[4] == 4 * quadIndex + 2
    ensures r[0] != r[1] && r[1] != r[2] && r[0] != r[2]
    ensures r[3] != r[4] && r[4] != r[5] && r[3] != r[5]
    ensures forall v :: 4 * quadIndex <= v <= 4 * quadIndex + 3 ==> v in r
  {
    var i := quadIndex * 4;
    [i, 1 + i, 2 + i, i, 2 + i, 3 + i]
  }

  /** Distinct quads use disjoint index ranges. */
  lemma IndicesDisjoint(p: nat, q: nat)
    requires p != q
    ensures forall a, b :: a in Indices(p) && b in Indices(q) ==> a != b
  {
  }

  /** An element buffer: the per-quad index arrays laid out one after another. */
  function Flatten(blocks: seq<seq<nat>>): seq<nat> {
    if |blocks| == 0 then [] else blocks[0] + Flatten(blocks[1..])
  }

  /** The element buffer of quads `0 .. n - 1`, as the program fills it. */
  function ElementBuffer(n: nat): seq<seq<nat>> {
    seq(n, (q: int) requires 0 <= q < n => Indices(q))
  }

  /**
    The element buffer holds six indices per quad, and every one of them
    names a vertex of the `4 * n` in the vertex buffer.
   */
  lemma {:induction false} ElementBufferShape(blocks: seq<seq<nat>>, first: nat)
    requires forall q :: 0 <= q < |blocks| ==> blocks[q] == Indices(first + q)
    ensures |Flatten(blocks)| == 6 * |blocks|
    ensures forall k :: 0 <= k < |Flatten(blocks)| ==>
              4 * first <= Flatten(blocks)[k] < 4 * (first + |blocks|)
  {
    if |blocks| > 0 {
      var rest := blocks[1..];
      assert forall q :: 0 <= q < |rest| ==> rest[q] == Indices(first + 1 + q) by {
        forall q | 0 <= q < |rest|
          ensures rest[q] == Indices(first + 1 + q)
        {
          assert rest[q] == blocks[q + 1];
        }
      }
      ElementBufferShape(rest, first + 1);
      var f := Flatten(blocks);
      assert f == Indices(first) + Flatten(rest);
      forall k | 0 <= k < |f|
        ensures 4 * first <= f[k] < 4 * (first + |blocks|)
      {
        if k >= 6 {
          assert f[k] == Flatten(rest)[k - 6];
        }
      }
    }
  }

  /**
    The count the draw calls pass to `DrawElements`: `size_of_val(indices)`,
    the size in bytes of the `u32` indices, not their number.
   */
  function DrawCountAsWritten(blocks: seq<seq<nat>>): nat {
    4 * |Flatten(blocks)|
  }

  /** The number of indices in the element buffer, the count `DrawElements` expects. */
  function DrawCount(blocks: seq<seq<nat>>): nat {
    |Flatten(blocks)|
  }

  /**
    With the byte size as count, every draw call asks for four times as
    many indices as the element buffer holds: 24 for the single quad of the
    blur scenes, of which only the first 6 exist.
   */
  lemma DrawCountOverrunsElementBuffer(n: nat)
    requires n >= 1
    ensures |Flatten(ElementBuffer(n))| == 6 * n
    ensures DrawCountAsWritten(ElementBuffer(n)) == 24 * n > |Flatten(ElementBuffer(n))|
  {
    ElementBufferShape(ElementBuffer(n), 0);
  }

  /** With the index count, every index drawn lies in the buffer and names one of the `4 * n` vertices. */
  lemma DrawCountStaysInElementBuffer(n: nat)
    ensures DrawCount(ElementBuffer(n)) == 6 * n
    ensures forall k :: 0 <= k < DrawCount(ElementBuffer(n)) ==> Flatten(ElementBuffer(n))[k] < 4 * n
  {
    ElementBufferShape(ElementBuffer(n), 0);
  }

  /** `SCREEN_VERTICES`: two triangles covering clip space. */
  const ScreenVertices: seq<Vertex> := [
    Vertex(Vec2(-1.0, 1.0), Vec2(0.0, 1.0)),
    Vertex(Vec2(-1.0, -1.0), Vec2(0.0, 0.0)),
    Vertex(Vec2(1.0, -1.0), Vec2(1.0, 0.0)),
    Vertex(Vec2(-1.0, 1.0), Vec2(0.0, 1.0)),
    Vertex(Vec2(1.0, -1.0), Vec2(1.0, 0.0)),
    Vertex(Vec2(1.0, 1.0), Vec2(1.0, 1.0))
  ]

  /** Each full-screen vertex samples the texture at its clip position mapped to [0, 1]. */
  lemma ScreenVerticesMapClipToTexture()
    ensures |ScreenVertices| == 6
    ensures forall k :: 0 <= k < 6 ==>
              ScreenVertices[k].uv == ScreenVertices[k].position.Add(Splat(1.0)).Scale(0.5)
  {
  }
}
