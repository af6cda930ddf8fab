/** The device buffer planner: padded tile dimensions (widths in float4 units,
    heights in rows), the single allocation cut into back-to-back regions, and
    where a source matrix is staged inside the padded source tile.  All offsets
    here are in element units; a float4 holds 4 floats and that factor is kept
    explicit. */
module Planner {
  import opened Buckets
  import opened Pitched

  /** Division rounded up (decx::utils::ceil, whose text is not part of this model,
      is taken to be this). */
  function Ceil(a: nat, d: nat): (c: nat)
    requires d > 0
    ensures c * d >= a
    ensures c > 0 ==> (c - 1) * d < a
  {
    if a % d == 0 then a / d else a / d + 1
  }

  /** Padded tile dimensions: Ddst_alloc_dim = (dstX, dstY), Dsrc_alloc_dim = (srcX, srcY);
      x in float4 units, y in rows. */
  datatype Plan = Plan(dstX: nat, dstY: nat, srcX: nat, srcY: nat)
  {
    /** dev_src_size = Dsrc.x * Dsrc.y, in float4 units. */
    function SrcSize(): nat
    {
      Area(srcX, srcY)
    }

    /** dev_dst_size = Ddst.x * Ddst.y, in float4 units. */
    function DstSize(): nat
    {
      Area(dstX, dstY)
    }
  }

  /** The planner of every engine: the destination tile is rounded up to 64 columns
      and 16 rows, both scaled by 2*R8 (the same for all four buckets), and the source
      tile adds the engine's halo, Rw/2 float4s per row and 2*Rh rows. */
  function PlanFor(b: Bounds, e: Engine, dw: nat, dh: nat): Plan
  {
    var dstX := Ceil(dw, 64) * b.r8 * 2;
    var dstY := Ceil(dh, 16) * b.r8 * 2;
    Plan(dstX, dstY, dstX + ColRadius(b, e) / 2, dstY + RowRadius(b, e) * 2)
  }

  /** The padded tiles cover the data: the destination tile holds the dw x dh
      destination, and the source tile holds it plus a halo of Rh rows above and
      below and Rw columns left and right. */
  lemma {:induction false} PlanCovers(b: Bounds, e: Engine, dw: nat, dh: nat)
    requires b.Aligned()
    ensures 4 * PlanFor(b, e, dw, dh).dstX >= dw
    ensures PlanFor(b, e, dw, dh).dstY >= dh
    ensures 4 * PlanFor(b, e, dw, dh).srcX == 4 * PlanFor(b, e, dw, dh).dstX + 2 * ColRadius(b, e)
    ensures PlanFor(b, e, dw, dh).srcY == PlanFor(b, e, dw, dh).dstY + 2 * RowRadius(b, e)
  {
    var cx, cy := Ceil(dw, 64), Ceil(dh, 16);
    MulMono(64, 8 * b.r8, cx);
    MulMono(16, 2 * b.r8, cy);
    assert 4 * (cx * b.r8 * 2) == (8 * b.r8) * cx;
    assert cy * b.r8 * 2 == (2 * b.r8) * cy;
  }

  /** A half-open range [start, start + len) of the allocation. */
  datatype Region = Region(start: nat, len: nat)
  {
    function End(): nat
    {
      start + len
    }

    /** Offset x lies in the region. */
    predicate Holds(x: int)
    {
      start <= x < End()
    }
  }

  /** The regions are laid back to back from offset 0 and end exactly at `total`. */
  predicate Tiles(rs: seq<Region>, total: nat)
  {
    && (|rs| == 0 ==> total == 0)
    && (|rs| > 0 ==> rs[0].start == 0 && rs[|rs| - 1].End() == total)
    && forall i, j :: 0 <= i < |rs| && j == i + 1 && j < |rs| ==> rs[i].End() == rs[j].start
  }

  lemma {:induction false} TilesOrdered(rs: seq<Region>, total: nat, i: nat, j: nat)
    requires Tiles(rs, total) && i < j < |rs|
    ensures rs[i].End() <= rs[j].start
    decreases j - i
  {
    if i + 1 < j {
      TilesOrdered(rs, total, i + 1, j);
    }
  }

  lemma {:induction false} TilesLocate(rs: seq<Region>, total: nat, x: nat) returns (i: nat)
    requires Tiles(rs, total) && x < total
    ensures i < |rs| && rs[i].Holds(x)
    decreases |rs|
  {
    var last := |rs| - 1;
    if x >= rs[last].start {
      i := last;
    } else {
      var pre := rs[..last];
      assert Tiles(pre, rs[last].start) by {
        if last > 0 {
          assert rs[last - 1].End() == rs[last].start;
        }
      }
      i := TilesLocate(pre, rs[last].start, x);
    }
  }

  /** Offset x lies in one of the regions. */
  predicate Covered(rs: seq<Region>, x: int)
  {
    exists i :: 0 <= i < |rs| && rs[i].Holds(x)
  }

  /** Back-to-back regions partition the allocation: they are pairwise disjoint, each
      lies inside it, and every element of it belongs to one of them. */
  lemma {:induction false} TilesPartition(rs: seq<Region>, total: nat)
    requires Tiles(rs, total)
    ensures forall i, j :: 0 <= i < j < |rs| ==> rs[i].End() <= rs[j].start
    ensures forall i :: 0 <= i < |rs| ==> rs[i].End() <= total
    ensures forall x :: 0 <= x < total ==> Covered(rs, x)
  {
    forall i, j | 0 <= i < j < |rs|
      ensures rs[i].End() <= rs[j].start
    {
      TilesOrdered(rs, total, i, j);
    }
    forall i | 0 <= i < |rs|
      ensures rs[i].End() <= total
    {
      if i < |rs| - 1 {
        TilesOrdered(rs, total, i, |rs| - 1);
      }
    }
    forall x | 0 <= x < total
      ensures Covered(rs, x)
    {
      var i := TilesLocate(rs, total, x);
    }
  }

  /** The border-constant slicing of one allocation of 2*(S+D) float4s:
      Dmem1 = base, Dmem2 = Dmem1 + S, Dmem3 = Dmem2 + S, Dmem4 = Dmem3 + D. */
  function SlicesBC(s: nat, d: nat): (rs: seq<Region>)
    ensures |rs| == 4 && Tiles(rs, 2 * (s + d))
    ensures rs[0].len == s && rs[1].len == s && rs[2].len == d && rs[3].len == d
  {
    [Region(0, s), Region(s, s), Region(2 * s, d), Region(2 * s + d, d)]
  }

  /** The border-ignored slicing of one allocation of S+D float4s:
      Dsrc = base, Ddst = base + S. */
  function SlicesNB(s: nat, d: nat): (rs: seq<Region>)
    ensures |rs| == 2 && Tiles(rs, s + d)
    ensures rs[0].len == s && rs[1].len == d
  {
    [Region(0, s), Region(s, d)]
  }

  /** A rectangle placed at row r0, column c0 of the padded source tile (4*srcX floats
      per row, srcY rows) that does not overhang it lies inside the source slot. */
  lemma {:induction false} SrcTileFit(p: Plan, r0: nat, c0: nat, w: nat, h: nat)
    requires c0 + w <= 4 * p.srcX && r0 + h <= p.srcY
    ensures RectFits(4 * p.SrcSize(), Lin(r0, c0, 4 * p.srcX), 4 * p.srcX, w, h)
  {
    RectInTile(r0, c0, w, h, 4 * p.srcX, p.srcY);
    Float4Area(p.srcX, p.srcY);
  }

  /** A tile of `rows` rows of x float4s holds 4 floats for each of its float4s. */
  lemma {:induction false} Float4Area(x: nat, rows: nat)
    ensures Area(4 * x, rows) == 4 * Area(x, rows)
    decreases rows
  {
    if rows > 0 {
      Float4Area(x, rows - 1);
    }
  }

  /** The drivers' row-major offset expression, x float4s per row, as a pitched offset. */
  lemma {:induction false} RowMajor(x: nat, r: nat, c: nat)
    ensures x * r * 4 + c == Lin(r, c, 4 * x)
    ensures r * x * 4 + c == Lin(r, c, 4 * x)
  {
    LinMul(r, c, 4 * x);
  }

  /** Float offset at which the border-constant drivers stage a source matrix:
      Dsrc.x * 4 * Rh + Rw, inside the first source slot. */
  function StageOffsetBC(b: Bounds, e: Engine, p: Plan): nat
  {
    p.srcX * RowRadius(b, e) * 4 + ColRadius(b, e)
  }

  /** The border-constant staging offset is row Rh, column Rw of the padded tile, and
      the staged w x h source, with its halo of Rh rows and Rw columns on every side,
      lies inside the source slot. */
  lemma {:induction false} StagedFitsBC(b: Bounds, e: Engine, w: nat, h: nat)
    requires b.Aligned()
    ensures StageOffsetBC(b, e, PlanFor(b, e, w, h)) == Lin(RowRadius(b, e), ColRadius(b, e), 4 * PlanFor(b, e, w, h).srcX)
    ensures RectFits(4 * PlanFor(b, e, w, h).SrcSize(), StageOffsetBC(b, e, PlanFor(b, e, w, h)),
                     4 * PlanFor(b, e, w, h).srcX, w, h)
    ensures 2 * RowRadius(b, e) + h <= PlanFor(b, e, w, h).srcY
    ensures 2 * ColRadius(b, e) + w <= 4 * PlanFor(b, e, w, h).srcX
  {
    var p := PlanFor(b, e, w, h);
    PlanCovers(b, e, w, h);
    RowMajor(p.srcX, RowRadius(b, e), ColRadius(b, e));
    SrcTileFit(p, RowRadius(b, e), ColRadius(b, e), w, h);
  }

  /** Float offset at which the border-ignored drivers stage a source matrix:
      src_diff.x * Dsrc.x * 4 + src_diff.y on the within paths, 0 on the exact paths. */
  function StageOffsetNB(b: Bounds, e: Engine, kw: nat, kh: nat, p: Plan): int
  {
    if ChoosePath(b, e, kw, kh) == Exact then 0
    else SrcDiff(b, e, kw, kh).0 * p.srcX * 4 + SrcDiff(b, e, kw, kh).1
  }

  /** What a stencil launch is given: the kernel it runs (engine and path), src_diff
      (read on the within paths), the two padded tile dimensions and the kernel's
      dimensions. */
  datatype Launch = Launch(e: Engine, path: Path, diff: (int, int), plan: Plan, kw: nat, kh: nat)

  /** The launch an engine makes for a kw x kh kernel over tiles planned as `p`. */
  function LaunchFor(b: Bounds, e: Engine, kw: nat, kh: nat, p: Plan): Launch
  {
    Launch(e, ChoosePath(b, e, kw, kh), SrcDiff(b, e, kw, kh), p, kw, kh)
  }

  /** A stencil kernel (sconv2_kernel_*), whose device code is not part of this model:
      element k of the destination tile as computed from the launch, the constant
      buffer and the source tile. */
  type Stencil = (Launch, seq<int>, seq<int>, nat) -> int

  /** For a kernel the engine holds, the border-ignored staging offset is row
      src_diff.x, column src_diff.y of the padded tile (zero on the exact path), and
      the whole w x h source lies inside the source slot planned for the shrunk
      (w - 2*(kw/2)) x (h - 2*(kh/2)) destination. */
  lemma {:induction false} StagedFitsNB(b: Bounds, e: Engine, kw: nat, kh: nat, w: nat, h: nat)
    requires b.Aligned() && Covers(b, e, kw, kh)
    requires 2 * (kw / 2) <= w && 2 * (kh / 2) <= h
    ensures var p := PlanFor(b, e, w - 2 * (kw / 2), h - 2 * (kh / 2));
      && StageOffsetNB(b, e, kw, kh, p) == Lin(SrcDiff(b, e, kw, kh).0, SrcDiff(b, e, kw, kh).1, 4 * p.srcX)
      && RectFits(4 * p.SrcSize(), StageOffsetNB(b, e, kw, kh, p), 4 * p.srcX, w, h)
  {
    var dw, dh := w - 2 * (kw / 2), h - 2 * (kh / 2);
    PlanCovers(b, e, dw, dh);
    StagedFitsNBIn(b, e, kw, kh, w, h, PlanFor(b, e, dw, dh));
  }

  /** StagedFitsNB for any plan whose source tile adds the engine's halo to a
      destination tile holding the shrunk destination. */
  lemma {:induction false} StagedFitsNBIn(b: Bounds, e: Engine, kw: nat, kh: nat, w: nat, h: nat, p: Plan)
    requires Covers(b, e, kw, kh) && 2 * (kw / 2) <= w && 2 * (kh / 2) <= h
    requires 4 * p.dstX >= w - 2 * (kw / 2) && p.dstY >= h - 2 * (kh / 2)
    requires 4 * p.srcX == 4 * p.dstX + 2 * ColRadius(b, e) && p.srcY == p.dstY + 2 * RowRadius(b, e)
    ensures StageOffsetNB(b, e, kw, kh, p) == Lin(SrcDiff(b, e, kw, kh).0, SrcDiff(b, e, kw, kh).1, 4 * p.srcX)
    ensures RectFits(4 * p.SrcSize(), StageOffsetNB(b, e, kw, kh, p), 4 * p.srcX, w, h)
  {
    var d := SrcDiff(b, e, kw, kh);
    var r0, c0: nat := d.0, d.1;
    RowMajor(p.srcX, r0, c0);
    SrcTileFit(p, r0, c0, w, h);
  }

  /** The drained dw x dh rectangle lies at the start of the destination slot. */
  lemma {:induction false} DrainFits(b: Bounds, e: Engine, dw: nat, dh: nat)
    requires b.Aligned()
    ensures RectFits(4 * PlanFor(b, e, dw, dh).DstSize(), 0, 4 * PlanFor(b, e, dw, dh).dstX, dw, dh)
  {
    var p := PlanFor(b, e, dw, dh);
    PlanCovers(b, e, dw, dh);
    DstTileFit(p, dw, dh);
  }

  lemma {:induction false} DstTileFit(p: Plan, w: nat, h: nat)
    requires w <= 4 * p.dstX && h <= p.dstY
    ensures RectFits(4 * p.DstSize(), 0, 4 * p.dstX, w, h)
  {
    RectInTile(0, 0, w, h, 4 * p.dstX, p.dstY);
    Float4Area(p.dstX, p.dstY);
  }
}
