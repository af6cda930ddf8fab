/** The border-ignored driver over a device-resident stack (dev_sConv2_border_ignore_sk
    and its engines): the destination shrinks by the kernel's reach, one allocation
    holds a source slot and a destination slot, the single kernel is packed into
    constant memory, and one loop stages, computes and drains every matrix in turn. */
module BorderIgnored {
  import opened Buckets
  import opened Pitched
  import opened Planner
  import opened Memory
  import opened ConstCache

  /** Destination dimensions are unsigned 32-bit. */
  const U32: nat := 0x1_0000_0000

  /** One destination dimension, n - 2*(k/2), as make_uint3 receives it: the
      subtraction is unsigned 32-bit and wraps around instead of failing. */
  function Shrunk(n: nat, k: nat): (r: nat)
    requires n < U32 && k < U32
    ensures r < U32
    ensures 2 * (k / 2) <= n ==> r == n - 2 * (k / 2)
    ensures n < 2 * (k / 2) ==> r == U32 - (2 * (k / 2) - n) && r > n
  {
    (n - 2 * (k / 2)) % U32
  }

  /** Which stack entry an iteration stages: `AsWritten` is the code, where the
      exact16x8 loop stages entry 0 on every iteration and every other loop stages
      entry i; `Intended` stages entry i on every path. */
  datatype Staging = AsWritten | Intended

  function StagedIndex(pick: Staging, e: Engine, path: Path, i: nat): (j: nat)
    ensures j == i || j == 0
    ensures pick == Intended ==> j == i
    ensures j != i <==> pick == AsWritten && e == R16x8 && path == Exact && i > 0
  {
    if pick == AsWritten && e == R16x8 && path == Exact then 0 else i
  }

  /** Everything the per-matrix loop reads: the launch and its stencil, the packed
      constant buffer, the staging choice, the source stack (pitch sPitch, sw x sh),
      the staging offset inside the source slot, and the destination shape. */
  datatype LoopCtx = LoopCtx(l: Launch, tile: Stencil, consts: seq<int>, pick: Staging,
                             srcs: seq<seq<int>>, sPitch: nat, sw: nat, sh: nat, stageAt: nat,
                             dPitch: nat, dw: nat, dh: nat)
  {
    /** Floats in the source slot Dsrc. */
    function SrcLen(): nat
    {
      4 * l.plan.SrcSize()
    }

    /** Floats in the destination slot Ddst. */
    function DstLen(): nat
    {
      4 * l.plan.DstSize()
    }

    /** The sources are pitched sw x sh matrices, the staged rectangle lies inside the
        source slot and the drained one inside the destination slot. */
    predicate Valid()
    {
      && sw <= sPitch && Shaped(srcs, |srcs|, Area(sPitch, sh))
      && RectFits(SrcLen(), stageAt, 4 * l.plan.srcX, sw, sh)
      && dw <= dPitch
      && RectFits(DstLen(), 0, 4 * l.plan.dstX, dw, dh)
    }

    /** The staging copy of source matrix m into the source slot. */
    function Stage(slot: seq<int>, m: seq<int>): (r: seq<int>)
      requires Valid() && |slot| == SrcLen() && |m| == Area(sPitch, sh)
      ensures |r| == SrcLen()
    {
      RectInTile(0, 0, sw, sh, sPitch, sh);
      Copy2D(slot, stageAt, 4 * l.plan.srcX, m, 0, sPitch, sw, sh)
    }

    /** The stencil launch: the destination slot, from the source slot. */
    function Compute(slot: seq<int>): (r: seq<int>)
      ensures |r| == DstLen()
    {
      seq(DstLen(), k requires 0 <= k < DstLen() => tile(l, consts, slot, k))
    }

    /** The drain of the destination slot into destination matrix om. */
    function Drain(om: seq<int>, slot: seq<int>): (r: seq<int>)
      requires Valid() && |om| == Area(dPitch, dh) && |slot| == DstLen()
      ensures |r| == |om|
    {
      RectInTile(0, 0, dw, dh, dPitch, dh);
      Copy2D(om, 0, dPitch, slot, 0, 4 * l.plan.dstX, dw, dh)
    }

    /** Destination matrix i as iteration i leaves it, given the source slot b0 before
        the loop and the matrix om before. */
    function Output(b0: seq<int>, om: seq<int>, i: nat): (r: seq<int>)
      requires Valid() && |b0| == SrcLen() && |om| == Area(dPitch, dh) && i < |srcs|
      ensures |r| == |om|
    {
      Drain(om, Compute(Stage(b0, srcs[StagedIndex(pick, l.e, l.path, i)])))
    }
  }

  /** Contents of the two slots and of the destination stack. */
  datatype LoopState = LoopState(sslot: seq<int>, dslot: seq<int>, out: seq<seq<int>>)

  predicate Fits(c: LoopCtx, st: LoopState)
  {
    && c.Valid() && |st.sslot| == c.SrcLen() && |st.dslot| == c.DstLen()
    && Shaped(st.out, |c.srcs|, Area(c.dPitch, c.dh))
  }

  /** Iteration i: stage the chosen source matrix, launch the stencil, drain into dst[i]. */
  function Step(c: LoopCtx, st: LoopState, i: nat): (r: LoopState)
    requires Fits(c, st) && i < |c.srcs|
    ensures Fits(c, r)
  {
    var s := c.Stage(st.sslot, c.srcs[StagedIndex(c.pick, c.l.e, c.l.path, i)]);
    var d := c.Compute(s);
    LoopState(s, d, st.out[i := c.Drain(st.out[i], d)])
  }

  /** The first k iterations of the loop. */
  function Run(c: LoopCtx, st: LoopState, k: nat): (r: LoopState)
    requires Fits(c, st) && k <= |c.srcs|
    ensures Fits(c, r)
    decreases k
  {
    if k == 0 then st else Step(c, Run(c, st, k - 1), k - 1)
  }

  /** After k iterations, destinations 0..k-1 hold the results of their iterations and
      the rest are untouched; the source slot holds the last staged matrix, because
      each staging overwrites the same rectangle. */
  lemma {:induction false} RunOutputs(c: LoopCtx, st: LoopState, k: nat, i: nat)
    requires Fits(c, st) && k <= |c.srcs| && i < |c.srcs|
    ensures i < k ==> Run(c, st, k).out[i] == c.Output(st.sslot, st.out[i], i)
    ensures k <= i ==> Run(c, st, k).out[i] == st.out[i]
    ensures k > 0 ==> Run(c, st, k).sslot == c.Stage(st.sslot, c.srcs[StagedIndex(c.pick, c.l.e, c.l.path, k - 1)])
    decreases k
  {
    if k > 0 {
      RunOutputs(c, st, k - 1, i);
      var prev := Run(c, st, k - 1);
      var m := c.srcs[StagedIndex(c.pick, c.l.e, c.l.path, k - 1)];
      assert Run(c, st, k) == Step(c, prev, k - 1);
      RectInTile(0, 0, c.sw, c.sh, c.sPitch, c.sh);
      if k > 1 {
        RunOutputs(c, st, k - 1, k - 1);
        var m' := c.srcs[StagedIndex(c.pick, c.l.e, c.l.path, k - 2)];
        assert prev.sslot == c.Stage(st.sslot, m');
        Copy2DOverwrite(st.sslot, c.stageAt, 4 * c.l.plan.srcX, m', 0, c.sPitch, m, 0, c.sPitch, c.sw, c.sh);
      }
      assert c.Stage(prev.sslot, m) == c.Stage(st.sslot, m);
      if i == k - 1 {
        RunOutputs(c, st, k - 1, k - 1);
      }
    }
  }

  /** The whole loop: every destination matrix i holds the result of iteration i. */
  lemma {:induction false} RunStack(c: LoopCtx, st: LoopState)
    requires Fits(c, st)
    ensures |Run(c, st, |c.srcs|).out| == |c.srcs|
    ensures forall i :: 0 <= i < |c.srcs| ==> Run(c, st, |c.srcs|).out[i] == c.Output(st.sslot, st.out[i], i)
  {
    forall i | 0 <= i < |c.srcs|
      ensures Run(c, st, |c.srcs|).out[i] == c.Output(st.sslot, st.out[i], i)
    {
      RunOutputs(c, st, |c.srcs|, i);
    }
  }

  /** Staging puts source element (r, col) at row r, column col of the tile, counted
      from the staging offset. */
  lemma {:induction false} StagedEntry(c: LoopCtx, slot: seq<int>, m: seq<int>, r: nat, col: nat)
    requires c.Valid() && |slot| == c.SrcLen() && |m| == Area(c.sPitch, c.sh)
    requires r < c.sh && col < c.sw
    ensures c.stageAt + Lin(r, col, 4 * c.l.plan.srcX) < c.SrcLen() && Lin(r, col, c.sPitch) < |m|
    ensures c.Stage(slot, m)[c.stageAt + Lin(r, col, 4 * c.l.plan.srcX)] == m[Lin(r, col, c.sPitch)]
  {
    RectInTile(0, 0, c.sw, c.sh, c.sPitch, c.sh);
    Copy2DAt(slot, c.stageAt, 4 * c.l.plan.srcX, m, 0, c.sPitch, c.sw, c.sh, r, col);
  }

  /** The drain puts tile element (r, col) at (r, col) of the destination matrix and
      leaves the padding at the end of its rows alone. */
  lemma {:induction false} DrainedEntry(c: LoopCtx, om: seq<int>, slot: seq<int>, r: nat, col: nat)
    requires c.Valid() && |om| == Area(c.dPitch, c.dh) && |slot| == c.DstLen() && r < c.dh
    ensures col < c.dw ==>
      && Lin(r, col, c.dPitch) < |om| && Lin(r, col, 4 * c.l.plan.dstX) < |slot|
      && c.Drain(om, slot)[Lin(r, col, c.dPitch)] == slot[Lin(r, col, 4 * c.l.plan.dstX)]
    ensures c.dw <= col < c.dPitch ==>
      && Lin(r, col, c.dPitch) < |om|
      && c.Drain(om, slot)[Lin(r, col, c.dPitch)] == om[Lin(r, col, c.dPitch)]
  {
    RectInTile(0, 0, c.dw, c.dh, c.dPitch, c.dh);
    if col < c.dw {
      Copy2DAt(om, 0, c.dPitch, slot, 0, 4 * c.l.plan.dstX, c.dw, c.dh, r, col);
    } else if col < c.dPitch {
      RectInTile(0, col, 1, c.dh, c.dPitch, c.dh);
      RectIndex(|om|, Lin(0, col, c.dPitch), c.dPitch, 1, c.dh, r, 0);
      LinCol(r, col, c.dPitch);
      Copy2DPadding(om, 0, c.dPitch, slot, 0, 4 * c.l.plan.dstX, c.dw, c.dh, r, col);
    }
  }

  /** As written: on the exact16x8 path every destination matrix receives what
      destination 0 receives, whatever its own source matrix holds. */
  lemma {:induction false} ExactR16x8ReadsFirst(c: LoopCtx, b0: seq<int>, om: seq<int>, i: nat)
    requires c.pick == AsWritten && c.l.e == R16x8 && c.l.path == Exact
    requires c.Valid() && |b0| == c.SrcLen() && |om| == Area(c.dPitch, c.dh) && i < |c.srcs|
    ensures c.Output(b0, om, i) == c.Output(b0, om, 0)
  {
    assert StagedIndex(c.pick, c.l.e, c.l.path, i) == StagedIndex(c.pick, c.l.e, c.l.path, 0);
  }

  /** The exact16x8 path is reached: a kernel 2*R8+1 wide and 2*R16+1 high selects
      R16x8, which takes its exact path. */
  lemma {:induction false} ExactR16x8Reached(b: Bounds, p: Plan)
    requires b.Valid()
    ensures Select(b, 2 * b.r8 + 1, 2 * b.r16 + 1) == R16x8
    ensures LaunchFor(b, R16x8, 2 * b.r8 + 1, 2 * b.r16 + 1, p).path == Exact
  {
    assert (2 * b.r8 + 1) / 2 == b.r8 && (2 * b.r16 + 1) / 2 == b.r16;
  }

  /** Intended: destination i depends on source i alone; replacing any other source
      matrix leaves it as it is. */
  lemma {:induction false} OutputIgnoresOthers(c: LoopCtx, b0: seq<int>, om: seq<int>, i: nat, j: nat, m: seq<int>)
    requires c.pick == Intended
    requires c.Valid() && |b0| == c.SrcLen() && |om| == Area(c.dPitch, c.dh)
    requires i < |c.srcs| && j < |c.srcs| && j != i && |m| == Area(c.sPitch, c.sh)
    ensures c.(srcs := c.srcs[j := m]).Valid()
    ensures c.(srcs := c.srcs[j := m]).Output(b0, om, i) == c.Output(b0, om, i)
  {
    var c' := c.(srcs := c.srcs[j := m]);
    assert c'.srcs[i] == c.srcs[i];
  }

  /** The loop splits the buffer as dev[..SrcLen()] and dev[SrcLen()..]: that is the
      slicing Dsrc = base, Ddst = base + S of the S+D float4 allocation, in floats. */
  lemma {:induction false} LoopSlots(c: LoopCtx)
    ensures var rs := SlicesNB(c.l.plan.SrcSize(), c.l.plan.DstSize());
      && c.SrcLen() == 4 * rs[0].len == 4 * rs[1].start
      && c.DstLen() == 4 * rs[1].len
      && c.SrcLen() + c.DstLen() == 4 * rs[1].End()
  {
  }

  /** The loop's context for the engine e, a kernel already packed into `consts`, a
      stack of sw x sh sources and their dw x dh destinations, shrunk by the kernel's
      reach. */
  function CtxNB(b: Bounds, e: Engine, kw: nat, kh: nat, consts: seq<int>, tile: Stencil, pick: Staging,
                 srcs: seq<seq<int>>, sPitch: nat, sw: nat, sh: nat, dPitch: nat, dw: nat, dh: nat): (c: LoopCtx)
    requires b.Aligned() && Covers(b, e, kw, kh)
    requires 2 * (kw / 2) <= sw && 2 * (kh / 2) <= sh && dw == sw - 2 * (kw / 2) && dh == sh - 2 * (kh / 2)
    requires sw <= sPitch && Shaped(srcs, |srcs|, Area(sPitch, sh)) && dw <= dPitch
    ensures c.Valid() && c.srcs == srcs && c.consts == consts && c.pick == pick
    ensures c.dw == dw && c.dh == dh && c.dPitch == dPitch
    ensures c.l == LaunchFor(b, e, kw, kh, PlanFor(b, e, dw, dh))
    ensures c.stageAt == StageOffsetNB(b, e, kw, kh, c.l.plan)
  {
    var p := PlanFor(b, e, dw, dh);
    StagedFitsNB(b, e, kw, kh, sw, sh);
    DrainFits(b, e, dw, dh);
    LoopCtx(LaunchFor(b, e, kw, kh, p), tile, consts, pick, srcs, sPitch, sw, sh,
            Lin(SrcDiff(b, e, kw, kh).0, SrcDiff(b, e, kw, kh).1, 4 * p.srcX), dPitch, dw, dh)
  }

  /** The per-matrix loop (dev_main_loop_sconv2_sk_*_NB, one loop for all eight, the
      launch saying which stencil runs): dev holds the source slot followed by the
      destination slot. */
  method MainLoopNB(c: LoopCtx, dev: array<int>, dst: MatrixArray)
    requires c.Valid() && dev.Length == c.SrcLen() + c.DstLen()
    requires dst.Valid() && dst.width == c.dw && dst.height == c.dh && dst.pitch == c.dPitch
    requires |dst.mats| == |c.srcs|
    modifies dev, dst
    ensures dst.Valid() && dst.width == c.dw && dst.height == c.dh && dst.pitch == c.dPitch
    ensures dst.store == old(dst.store)
    ensures LoopState(dev[..c.SrcLen()], dev[c.SrcLen()..], dst.mats)
         == Run(c, LoopState(old(dev[..c.SrcLen()]), old(dev[c.SrcLen()..]), old(dst.mats)), |c.srcs|)
  {
    var s := c.SrcLen();
    ghost var st0 := LoopState(dev[..s], dev[s..], dst.mats);
    RectInTile(0, 0, c.sw, c.sh, c.sPitch, c.sh);
    var i := 0;
    while i < |c.srcs|
      invariant i <= |c.srcs|
      invariant dst.width == c.dw && dst.height == c.dh && dst.pitch == c.dPitch && dst.store == old(dst.store)
      invariant LoopState(dev[..s], dev[s..], dst.mats) == Run(c, st0, i)
    {
      var m := c.srcs[StagedIndex(c.pick, c.l.e, c.l.path, i)];
      ghost var before := dev[..];
      Copy2DPrefix(before, s, c.stageAt, 4 * c.l.plan.srcX, m, 0, c.sPitch, c.sw, c.sh);
      Store(dev, Copy2D(dev[..], c.stageAt, 4 * c.l.plan.srcX, m, 0, c.sPitch, c.sw, c.sh));
      assert dev[..s] == c.Stage(before[..s], m);
      var staged := dev[..s];
      Store(dev, staged + c.Compute(staged));
      assert dev[..s] == staged && dev[s..] == c.Compute(staged);
      dst.mats := dst.mats[i := c.Drain(dst.mats[i], dev[s..])];
      i := i + 1;
    }
  }

  /** dev_Conv2_NB_R*_SK: plan from the destination's size, one allocation of S+D
      float4s that may fail (then nothing else happens), the kernel upload, and the
      loop over the stack.  `init` is the loop's starting state: the fresh buffer's
      contents and the destination stack as it was. */
  method EngineNB(b: Bounds, e: Engine, src: MatrixArray, kernel: Matrix, dst: MatrixArray,
                  constMem: array<int>, tile: Stencil, pick: Staging)
      returns (allocOk: bool, c: LoopCtx, ghost init: LoopState)
    requires b.Aligned() && Covers(b, e, kernel.width, kernel.height)
    requires src.Valid() && kernel.Valid() && dst.Valid() && src != dst
    requires 2 * (kernel.width / 2) <= src.width && 2 * (kernel.height / 2) <= src.height
    requires dst.width == src.width - 2 * (kernel.width / 2) && dst.height == src.height - 2 * (kernel.height / 2)
    requires |dst.mats| == |src.mats|
    modifies constMem, dst
    ensures dst.Valid() && dst.width == old(dst.width) && dst.height == old(dst.height)
    ensures dst.pitch == old(dst.pitch) && dst.store == old(dst.store)
    ensures !allocOk ==> constMem[..] == old(constMem[..]) && dst.mats == old(dst.mats)
    ensures allocOk ==> (SingleFits(kernel);
      constMem[..] == PackRows(old(constMem[..]), kernel.data, kernel.width, kernel.height, kernel.pitch, kernel.height))
    ensures allocOk ==>
      && c == CtxNB(b, e, kernel.width, kernel.height, constMem[..], tile, pick,
                    src.mats, src.pitch, src.width, src.height, dst.pitch, dst.width, dst.height)
      && init.out == old(dst.mats) && Fits(c, init)
      && dst.mats == Run(c, init, |src.mats|).out
  {
    var srcs, sPitch, sw, sh := src.mats, src.pitch, src.width, src.height;
    var dPitch, dw, dh := dst.pitch, dst.width, dst.height;
    var p := PlanFor(b, e, dw, dh);
    var s, d := 4 * p.SrcSize(), 4 * p.DstSize();
    var buf := DeviceMalloc(s + d);
    if buf.None? {
      c := CtxNB(b, e, kernel.width, kernel.height, constMem[..], tile, pick, srcs, sPitch, sw, sh, dPitch, dw, dh);
      allocOk, init := false, LoopState([], [], dst.mats);
      return;
    }
    allocOk := true;
    var dev := buf.value;
    SingleFits(kernel);
    ghost var c0 := constMem[..];
    var _ := Upload(constMem, kernel.data, kernel.width, kernel.height, kernel.pitch);
    assert c0 == old(constMem[..]);
    assert constMem[..] == PackRows(c0, kernel.data, kernel.width, kernel.height, kernel.pitch, kernel.height);
    c := CtxNB(b, e, kernel.width, kernel.height, constMem[..], tile, pick, srcs, sPitch, sw, sh, dPitch, dw, dh);
    init := LoopState(dev[..s], dev[s..], dst.mats);
    ghost var packed := constMem[..];
    MainLoopNB(c, dev, dst);
    assert constMem[..] == packed;
  }

  /** dev_sConv2_border_ignore_sk: the destination is rearranged to the shrunk size on
      the device, the kernel's half-extents select the engine, and no status is
      reported on any path.  mats0 is the destination stack right after the
      rearrangement. */
  method ConvolveIgnored(b: Bounds, src: MatrixArray, kernel: Matrix, dst: MatrixArray,
                         constMem: array<int>, tile: Stencil, pick: Staging)
      returns (allocOk: bool, c: LoopCtx, ghost init: LoopState, ghost mats0: seq<seq<int>>)
    requires b.Aligned() && src.Valid() && kernel.Valid() && src != dst
    requires src.width < U32 && src.height < U32 && kernel.width < U32 && kernel.height < U32
    requires 2 * (kernel.width / 2) <= src.width && 2 * (kernel.height / 2) <= src.height
    requires kernel.width / 2 <= b.r16 && kernel.height / 2 <= b.r16
    modifies dst, constMem
    ensures dst.Valid() && dst.store == OnDevice && |dst.mats| == |src.mats|
    ensures dst.width == Shrunk(src.width, kernel.width) && dst.height == Shrunk(src.height, kernel.height)
    ensures |mats0| == |src.mats|
    ensures !allocOk ==> constMem[..] == old(constMem[..]) && dst.mats == mats0
    ensures allocOk ==> (SingleFits(kernel);
      constMem[..] == PackRows(old(constMem[..]), kernel.data, kernel.width, kernel.height, kernel.pitch, kernel.height))
    ensures allocOk ==> (SelectIsSmallestCover(b, kernel.width, kernel.height);
      && c == CtxNB(b, Select(b, kernel.width, kernel.height), kernel.width, kernel.height, constMem[..], tile, pick,
                    src.mats, src.pitch, src.width, src.height, dst.pitch, dst.width, dst.height)
      && init.out == mats0 && Fits(c, init)
      && dst.mats == Run(c, init, |src.mats|).out)
  {
    dst.Rearrange(Shrunk(src.width, kernel.width), Shrunk(src.height, kernel.height), |src.mats|, OnDevice);
    mats0 := dst.mats;
    var e := Select(b, kernel.width, kernel.height);
    SelectIsSmallestCover(b, kernel.width, kernel.height);
    allocOk, c, init := EngineNB(b, e, src, kernel, dst, constMem, tile, pick);
  }
}
