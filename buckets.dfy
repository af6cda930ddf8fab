/** The radius bucketer shared by both drivers: a kernel's half-extents pick one
    of four engines (height bucket x width bucket), and each engine then picks
    its exact or within path. */
module Buckets {

  /** The compile-time limits bounded_kernel_R8 and bounded_kernel_R16, whose values
      are not part of this model. */
  datatype Bounds = Bounds(r8: nat, r16: nat)
  {
    /** Two positive limits, the first the smaller. */
    predicate Valid()
    {
      0 < r8 < r16
    }

    /** What the tile-fit arguments need of the limits; true of 8 and 16. */
    predicate Aligned()
    {
      Valid() && 8 <= r8 && r8 % 2 == 0 && r16 % 2 == 0
    }
  }

  /** The four engines, named height bucket x width bucket as the source names them. */
  datatype Engine = R8x8 | R16x8 | R8x16 | R16x16

  /** The path an engine takes: the kernel fills its buckets exactly, or lies within them. */
  datatype Path = Exact | Within

  /** Largest vertical half-extent the engine's tile supports (Rh). */
  function RowRadius(b: Bounds, e: Engine): nat
  {
    if e == R16x8 || e == R16x16 then b.r16 else b.r8
  }

  /** Largest horizontal half-extent the engine's tile supports (Rw). */
  function ColRadius(b: Bounds, e: Engine): nat
  {
    if e == R8x16 || e == R16x16 then b.r16 else b.r8
  }

  /** The bucket one axis falls into on its own. */
  function AxisBucket(b: Bounds, half: nat): nat
  {
    if half <= b.r8 then b.r8 else b.r16
  }

  /** The engine's buckets hold the kernel's half-extents. */
  predicate Covers(b: Bounds, e: Engine, kw: nat, kh: nat)
  {
    kw / 2 <= ColRadius(b, e) && kh / 2 <= RowRadius(b, e)
  }

  /** The dispatcher's nested size branches (the same in both drivers): the width
      half-extent is tested first, then the height half-extent. */
  function Select(b: Bounds, kw: nat, kh: nat): (e: Engine)
    ensures ColRadius(b, e) == AxisBucket(b, kw / 2)
    ensures RowRadius(b, e) == AxisBucket(b, kh / 2)
  {
    if kw / 2 < b.r8 + 1 then
      if kh / 2 < b.r8 + 1 then R8x8 else R16x8
    else
      if kh / 2 < b.r8 + 1 then R8x16 else R16x16
  }

  /** With distinct limits, an engine is determined by its two radii. */
  lemma {:induction false} EngineByRadii(b: Bounds, e1: Engine, e2: Engine)
    requires b.Valid()
    requires RowRadius(b, e1) == RowRadius(b, e2) && ColRadius(b, e1) == ColRadius(b, e2)
    ensures e1 == e2
  {
  }

  /** Selection is total and its four cases are mutually exclusive: each engine is
      chosen exactly when its condition on the half-extents holds. */
  lemma {:induction false} SelectCases(b: Bounds, kw: nat, kh: nat)
    requires b.Valid()
    ensures Select(b, kw, kh) == R8x8 <==> kw / 2 <= b.r8 && kh / 2 <= b.r8
    ensures Select(b, kw, kh) == R16x8 <==> kw / 2 <= b.r8 && kh / 2 > b.r8
    ensures Select(b, kw, kh) == R8x16 <==> kw / 2 > b.r8 && kh / 2 <= b.r8
    ensures Select(b, kw, kh) == R16x16 <==> kw / 2 > b.r8 && kh / 2 > b.r8
  {
    var e := Select(b, kw, kh);
    forall e' | RowRadius(b, e') == RowRadius(b, e) && ColRadius(b, e') == ColRadius(b, e)
      ensures e' == e
    {
      EngineByRadii(b, e', e);
    }
  }

  /** Within the larger limit, the selected engine is the smallest one that holds the
      kernel: it covers the half-extents, and every covering engine is at least as
      large on both axes. */
  lemma {:induction false} SelectIsSmallestCover(b: Bounds, kw: nat, kh: nat)
    requires b.Valid() && kw / 2 <= b.r16 && kh / 2 <= b.r16
    ensures Covers(b, Select(b, kw, kh), kw, kh)
    ensures forall e :: Covers(b, e, kw, kh) ==>
      RowRadius(b, Select(b, kw, kh)) <= RowRadius(b, e) && ColRadius(b, Select(b, kw, kh)) <= ColRadius(b, e)
  {
  }

  /** There is no rejection above the larger limit: such a kernel still selects an
      engine, one that does not hold it. */
  lemma {:induction false} SelectAboveLimit(b: Bounds, kw: nat, kh: nat)
    requires b.Valid() && (kw / 2 > b.r16 || kh / 2 > b.r16)
    ensures !Covers(b, Select(b, kw, kh), kw, kh)
    ensures kw / 2 > b.r16 ==> ColRadius(b, Select(b, kw, kh)) == b.r16
    ensures kh / 2 > b.r16 ==> RowRadius(b, Select(b, kw, kh)) == b.r16
  {
  }

  /** Each engine's exact/within test: the exact path is taken iff the kernel is
      exactly 2*Rw+1 wide and 2*Rh+1 high. */
  function ChoosePath(b: Bounds, e: Engine, kw: nat, kh: nat): (p: Path)
    ensures p == Exact ==> kw % 2 == 1 && kh % 2 == 1 && Covers(b, e, kw, kh)
    ensures p == Exact <==> kw % 2 == 1 && kh % 2 == 1 && kw / 2 == ColRadius(b, e) && kh / 2 == RowRadius(b, e)
  {
    if kw == 2 * ColRadius(b, e) + 1 && kh == 2 * RowRadius(b, e) + 1 then Exact else Within
  }

  /** src_diff of the within paths: rows and columns of the tile's halo the kernel
      does not reach, (Rh - kh/2, Rw - kw/2). */
  function SrcDiff(b: Bounds, e: Engine, kw: nat, kh: nat): (d: (int, int))
    ensures d.0 >= 0 <==> kh / 2 <= RowRadius(b, e)
    ensures d.1 >= 0 <==> kw / 2 <= ColRadius(b, e)
    ensures d.0 + kh / 2 == RowRadius(b, e) && d.1 + kw / 2 == ColRadius(b, e)
  {
    (RowRadius(b, e) - kh / 2, ColRadius(b, e) - kw / 2)
  }

  /** src_diff is non-negative whenever the dispatcher's choice holds the kernel,
      in particular for every kernel within the larger limit. */
  lemma {:induction false} SelectedDiffNonNegative(b: Bounds, kw: nat, kh: nat)
    requires b.Valid() && kw / 2 <= b.r16 && kh / 2 <= b.r16
    ensures SrcDiff(b, Select(b, kw, kh), kw, kh).0 >= 0 && SrcDiff(b, Select(b, kw, kh), kw, kh).1 >= 0
  {
    SelectIsSmallestCover(b, kw, kh);
  }

  /** For an odd-sized kernel the engine holds, the exact path is taken precisely
      when src_diff is zero on both axes, so the exact path is the within path at
      zero offset. */
  lemma {:induction false} ExactIffZeroDiff(b: Bounds, e: Engine, kw: nat, kh: nat)
    requires kw % 2 == 1 && kh % 2 == 1
    ensures ChoosePath(b, e, kw, kh) == Exact <==> SrcDiff(b, e, kw, kh) == (0, 0)
  {
  }
}
