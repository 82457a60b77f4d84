/**
  The row-major grid arithmetic of `src/scenes/round_quads.rs`: the grid
  width `area_width = isqrt(N_QUADS)`, the split of a quad index into a
  column and a row, world positions of grid cells, and the inverse
  mapping `closest_grid_idx_from_pos` (round, then clamp to the grid).
 */
module GridMath {
  import opened Numerics

  /** `N_QUADS`. */
  const N_QUADS: nat := 100000

  /** The world distance between neighbouring grid cells. */
  const CELL: real := 16.0

  /**
    The integer square root, rounded down. `area_width` is
    `(N_QUADS as f32).sqrt() as u32`: the float square root truncated
    towards zero.
   */
  function ISqrt(n: nat): (r: nat)
    ensures r * r <= n < (r + 1) * (r + 1)
  {
    if n < 4 then (if n == 0 then 0 else 1)
    else
      var s := ISqrt(n / 4);
      var h := 2 * s;
      DoubleRoot(s, n / 4, n);
      if (h + 1) * (h + 1) <= n then h + 1 else h
  }

  /** A root `s` of `n / 4` doubles to `h` with `h * h <= n < (h + 2) * (h + 2)`. */
  lemma {:induction false} DoubleRoot(s: nat, q: nat, n: nat)
    requires q == n / 4 && s * s <= q < (s + 1) * (s + 1)
    ensures 2 * s * (2 * s) <= n < (2 * s + 2) * (2 * s + 2)
  {
    assert 4 * q <= n < 4 * q + 4;
    assert 2 * s * (2 * s) == 4 * (s * s);
    assert (2 * s + 2) * (2 * s + 2) == 4 * ((s + 1) * (s + 1));
  }

  /** `area_width`: the side of the largest square of quads. */
  function AreaWidth(): nat {
    ISqrt(N_QUADS)
  }

  /** The grid is 316 quads wide, and its full rows hold fewer quads than there are. */
  lemma AreaWidthValue()
    ensures AreaWidth() == 316
    ensures AreaWidth() * AreaWidth() == 99856 <= N_QUADS
  {
    ISqrtIs(N_QUADS, 316);
  }

  /** The rounded-down square root of `n` is the `k` with `k * k <= n < (k + 1) * (k + 1)`. */
  lemma ISqrtIs(n: nat, k: nat)
    requires k * k <= n < (k + 1) * (k + 1)
    ensures ISqrt(n) == k
  {
    var r := ISqrt(n);
    ISqrtUnique(r, k, n);
  }

  /** At most one natural number is the square root, rounded down, of `n`. */
  lemma {:induction false} ISqrtUnique(r: nat, k: nat, n: nat)
    requires r * r <= n < (r + 1) * (r + 1)
    requires k * k <= n < (k + 1) * (k + 1)
    ensures r == k
  {
    if r < k {
      SquareMonotone(r + 1, k);
      assert false;
    }
    if k < r {
      SquareMonotone(k + 1, r);
      assert false;
    }
  }

  lemma SquareMonotone(a: nat, b: nat)
    requires a <= b
    ensures a * a <= b * b
  {
    assert a * a <= a * b <= b * b;
  }

  /** Splitting an index `y * aw + x` with `x < aw` recovers its column and row. */
  lemma {:induction false} SplitJoin(x: nat, y: nat, aw: nat)
    requires x < aw
    ensures (y * aw + x) % aw == x && (y * aw + x) / aw == y
  {
    var i := y * aw + x;
    var d := y - i / aw;
    assert i == (i / aw) * aw + i % aw;
    assert d * aw == i % aw - x by {
      assert d * aw == y * aw - (i / aw) * aw;
    }
  }

  /** Joining the column and row of an index gives the index back. */
  lemma JoinSplit(i: nat, aw: nat)
    requires aw > 0
    ensures (i / aw) * aw + i % aw == i
  {
  }

  /** The indices of the first `aw` full rows are exactly those below `aw * aw`. */
  lemma {:induction false} RowOfIndex(j: nat, aw: nat)
    requires aw > 0
    ensures j < aw * aw <==> j / aw < aw
  {
    var y, x := j / aw, j % aw;
    JoinSplit(j, aw);
    if y < aw {
      MulLe(y + 1, aw, aw);
      assert j < (y + 1) * aw;
    } else {
      MulLe(aw, y, aw);
      assert j >= y * aw;
    }
  }

  lemma MulLe(a: nat, b: nat, c: nat)
    requires a <= b
    ensures a * c <= b * c
  {
  }

  /** `pos_from_grid_idx`: the centre of cell `(x, y)`, the grid being centred on the origin. */
  function PosFromGridIdx(x: nat, y: nat, aw: nat): (r: Vec2)
    ensures r.Scale(1.0 / CELL) == Vec2(x as real - aw as real * 0.5, y as real - aw as real * 0.5)
  {
    Vec2(x as real - aw as real * 0.5, y as real - aw as real * 0.5).Scale(CELL)
  }

  /** Neighbouring cells are `CELL` apart along each axis. */
  lemma CellSpacing(x: nat, y: nat, aw: nat)
    ensures PosFromGridIdx(x + 1, y, aw) == PosFromGridIdx(x, y, aw).Add(Vec2(CELL, 0.0))
    ensures PosFromGridIdx(x, y + 1, aw) == PosFromGridIdx(x, y, aw).Add(Vec2(0.0, CELL))
  {
  }

  /** The grid is centred on the origin: cells `(x, y)` and `(aw - x, aw - y)` are mirror images. */
  lemma CellsSymmetric(x: nat, y: nat, aw: nat)
    requires x <= aw && y <= aw
    ensures PosFromGridIdx(aw - x, aw - y, aw) == PosFromGridIdx(x, y, aw).Neg()
  {
  }

  /** `pos_from_idx`: the centre of the cell of quad `i` in row-major order. */
  function PosFromIdx(i: nat, aw: nat): (r: Vec2)
    requires aw > 0
    ensures exists x: nat, y: nat :: x < aw && i == y * aw + x && r == PosFromGridIdx(x, y, aw)
  {
    JoinSplit(i, aw);
    assert i == (i / aw) * aw + i % aw;
    PosFromGridIdx(i % aw, i / aw, aw)
  }

  /** Quad `y * aw + x` sits at cell `(x, y)`. */
  lemma PosFromIdxOfCell(x: nat, y: nat, aw: nat)
    requires x < aw
    ensures PosFromIdx(y * aw + x, aw) == PosFromGridIdx(x, y, aw)
  {
    SplitJoin(x, y, aw);
  }

  /**
    One axis of `closest_grid_idx_from_pos`: the nearest cell coordinate,
    clamped to `[0, aw - 1]` (the float clamp and `as u32` cast of the
    program agree on integral values).
   */
  function ClosestAxis(v: real, aw: nat): (r: nat)
    requires aw >= 1
    ensures r < aw
    ensures 0 <= Round(v / CELL + aw as real * 0.5) < aw ==> r == Round(v / CELL + aw as real * 0.5)
    ensures Round(v / CELL + aw as real * 0.5) < 0 ==> r == 0
    ensures Round(v / CELL + aw as real * 0.5) >= aw ==> r == aw - 1
  {
    Clamp(Round(v / CELL + aw as real * 0.5), 0, aw - 1)
  }

  /** `closest_grid_idx_from_pos`. */
  function ClosestGridIdx(pos: Vec2, aw: nat): (r: (nat, nat))
    requires aw >= 1
    ensures r.0 < aw && r.1 < aw
  {
    (ClosestAxis(pos.x, aw), ClosestAxis(pos.y, aw))
  }

  /** The closest cell of a cell's own centre is that cell. */
  lemma {:induction false} ClosestOfCellCentre(x: nat, y: nat, aw: nat)
    requires x < aw && y < aw
    ensures ClosestGridIdx(PosFromGridIdx(x, y, aw), aw) == (x, y)
  {
    var p := PosFromGridIdx(x, y, aw);
    assert p.x / CELL + aw as real * 0.5 == x as real;
    assert p.y / CELL + aw as real * 0.5 == y as real;
    RoundOfInteger(x);
    RoundOfInteger(y);
  }

  /** Along each axis, a larger coordinate never gets a smaller cell. */
  lemma {:induction false} ClosestAxisMonotone(a: real, b: real, aw: nat)
    requires aw >= 1 && a <= b
    ensures ClosestAxis(a, aw) <= ClosestAxis(b, aw)
  {
    var offset := aw as real * 0.5;
    assert a / CELL + offset <= b / CELL + offset;
    RoundMonotone(a / CELL + offset, b / CELL + offset);
    ClampMonotone(Round(a / CELL + offset), Round(b / CELL + offset), 0, aw - 1);
  }
}
