/** The border-constant driver over a host stack (sConv2_border_zero_mk and its
    engines): the destination is rearranged to the source's shape, one allocation is
    cut into two source slots and two destination slots, kernel 0 is packed into
    constant memory, source 0 is staged inside the halo of the first source slot, and
    after the pipeline the leading destination slot is drained into the last matrix. */
module BorderConst {
  import opened Buckets
  import opened Pitched
  import opened Planner
  import opened Memory
  import opened ConstCache

  /** The only status the driver reports. */
  datatype Status = Success

  /** What the pipeline macro (main_loop_regulable_R_mk) starts from: the launch, the
      constant buffer holding kernel 0, both stacks, the device buffer after the first
      staging and the destination stack as it was before the macro. */
  datatype PipeIn = PipeIn(l: Launch, consts: seq<int>, srcs: seq<seq<int>>, kernels: seq<seq<int>>,
                           dev: seq<int>, dst0: seq<seq<int>>)

  /** The pipeline macro, whose text is not part of this model: element k of the device
      buffer when it ends, element k of each destination matrix i it drains (all but
      the last; the matrix's earlier contents, its row padding among them, are in the
      input), element k of constant memory when it ends (the macro uploads the later
      kernels there at sym_cpy_offset), and whether the third slot (Dmem3) is leading
      when it ends. */
  datatype Pipeline = Pipeline(dev: (PipeIn, nat) -> int, out: (PipeIn, nat, nat) -> int,
                               consts: (PipeIn, nat) -> int, lead3: PipeIn -> bool)

  /** What the border-constant tiles must hold for plan p: the sw x sh source staged at
      row Rh, column Rw lies inside the first source slot, and the sw x sh result at
      the start of a destination slot. */
  predicate FitsBC(b: Bounds, e: Engine, p: Plan, sw: nat, sh: nat)
  {
    && RectFits(4 * p.SrcSize(), Lin(RowRadius(b, e), ColRadius(b, e), 4 * p.srcX), 4 * p.srcX, sw, sh)
    && RectFits(4 * p.DstSize(), 0, 4 * p.dstX, sw, sh)
  }

  /** The planner's tiles hold the staged source and the drained result. */
  lemma {:induction false} PlanFitsBC(b: Bounds, e: Engine, sw: nat, sh: nat)
    requires b.Aligned()
    ensures FitsBC(b, e, PlanFor(b, e, sw, sh), sw, sh)
  {
    StagedFitsBC(b, e, sw, sh);
    DrainFits(b, e, sw, sh);
  }

  /** The device buffer after the first staging: source matrix m placed at float offset
      Dsrc.x * 4 * Rh + Rw of the first source slot. */
  function StagedBC(dev: seq<int>, b: Bounds, e: Engine, p: Plan, m: seq<int>, sPitch: nat, sw: nat, sh: nat): (r: seq<int>)
    requires FitsBC(b, e, p, sw, sh) && 4 * p.SrcSize() <= |dev|
    requires sw <= sPitch && |m| == Area(sPitch, sh)
    ensures |r| == |dev|
  {
    RectInTile(0, 0, sw, sh, sPitch, sh);
    Copy2D(dev, Lin(RowRadius(b, e), ColRadius(b, e), 4 * p.srcX), 4 * p.srcX, m, 0, sPitch, sw, sh)
  }

  /** Staging puts source element (r, col) at row Rh + r, column Rw + col of the
      padded tile, inside the first source slot. */
  lemma {:induction false} StagedBCEntry(dev: seq<int>, b: Bounds, e: Engine, p: Plan, m: seq<int>, sPitch: nat, sw: nat, sh: nat, r: nat, col: nat)
    requires FitsBC(b, e, p, sw, sh) && 4 * p.SrcSize() <= |dev|
    requires sw <= sPitch && |m| == Area(sPitch, sh)
    requires r < sh && col < sw
    ensures Lin(RowRadius(b, e) + r, ColRadius(b, e) + col, 4 * p.srcX) < 4 * p.SrcSize()
    ensures Lin(r, col, sPitch) < |m|
    ensures StagedBC(dev, b, e, p, m, sPitch, sw, sh)[Lin(RowRadius(b, e) + r, ColRadius(b, e) + col, 4 * p.srcX)]
         == m[Lin(r, col, sPitch)]
  {
    var pitch := 4 * p.srcX;
    RectInTile(0, 0, sw, sh, sPitch, sh);
    Copy2DAt(dev, Lin(RowRadius(b, e), ColRadius(b, e), 4 * p.srcX), pitch, m, 0, sPitch, sw, sh, r, col);
    RectIndex(4 * p.SrcSize(), Lin(RowRadius(b, e), ColRadius(b, e), 4 * p.srcX), pitch, sw, sh, r, col);
    LinShift(RowRadius(b, e), ColRadius(b, e), r, col, pitch);
  }

  /** Staging writes nothing past the first source slot. */
  lemma {:induction false} StagedBCFrame(dev: seq<int>, b: Bounds, e: Engine, p: Plan, m: seq<int>, sPitch: nat, sw: nat, sh: nat, k: nat)
    requires FitsBC(b, e, p, sw, sh) && 4 * p.SrcSize() <= k < |dev|
    requires sw <= sPitch && |m| == Area(sPitch, sh)
    ensures StagedBC(dev, b, e, p, m, sPitch, sw, sh)[k] == dev[k]
  {
    RectInTile(0, 0, sw, sh, sPitch, sh);
    Copy2DFrame(dev, Lin(RowRadius(b, e), ColRadius(b, e), 4 * p.srcX), 4 * p.srcX, m, 0, sPitch, sw, sh, k);
  }

  /** Float offset of the destination slot the final drain reads: Dmem3 when it is
      leading, Dmem4 otherwise; either way a whole destination slot past both source
      slots. */
  function DrainFrom(lead3: bool, s: nat, d: nat): (at: nat)
    ensures 8 * s <= at && at + 4 * d <= 8 * (s + d)
  {
    if lead3 then 4 * (2 * s) else 4 * (2 * s + d)
  }

  /** The offset the final drain reads is the start of slot Dmem3 or slot Dmem4. */
  lemma {:induction false} DrainFromSlot(lead3: bool, s: nat, d: nat)
    ensures DrainFrom(lead3, s, d) == 4 * (if lead3 then SlicesBC(s, d)[2].start else SlicesBC(s, d)[3].start)
    ensures lead3 ==> DrainFrom(lead3, s, d) == 4 * SlicesBC(s, d)[2].start
    ensures !lead3 ==> DrainFrom(lead3, s, d) == 4 * SlicesBC(s, d)[3].start
  {
  }

  /** The drain of the D float4s at float offset `at` into destination matrix om. */
  function DrainBC(om: seq<int>, dPitch: nat, dw: nat, dh: nat, dev: seq<int>, at: nat, p: Plan): (r: seq<int>)
    requires dw <= dPitch && |om| == Area(dPitch, dh) && at + 4 * p.DstSize() <= |dev|
    requires RectFits(4 * p.DstSize(), 0, 4 * p.dstX, dw, dh)
    ensures |r| == |om|
  {
    RectInTile(0, 0, dw, dh, dPitch, dh);
    Copy2D(om, 0, dPitch, dev, at, 4 * p.dstX, dw, dh)
  }

  /** The stack with its last matrix drained from the tile at float offset `at`. */
  function DrainLast(ms: seq<seq<int>>, dPitch: nat, dw: nat, dh: nat, dev: seq<int>, at: nat, p: Plan): (r: seq<seq<int>>)
    requires |ms| > 0 && dw <= dPitch && Shaped(ms, |ms|, Area(dPitch, dh)) && at + 4 * p.DstSize() <= |dev|
    requires RectFits(4 * p.DstSize(), 0, 4 * p.dstX, dw, dh)
    ensures Shaped(r, |ms|, Area(dPitch, dh))
  {
    ms[|ms| - 1 := DrainBC(ms[|ms| - 1], dPitch, dw, dh, dev, at, p)]
  }

  /** The drain puts element (r, col) of the slot's tile at (r, col) of the matrix and
      leaves the padding at the end of its rows alone. */
  lemma {:induction false} DrainBCEntry(om: seq<int>, dPitch: nat, dw: nat, dh: nat, dev: seq<int>, at: nat, p: Plan, r: nat, col: nat)
    requires dw <= dPitch && |om| == Area(dPitch, dh) && at + 4 * p.DstSize() <= |dev|
    requires RectFits(4 * p.DstSize(), 0, 4 * p.dstX, dw, dh)
    requires r < dh
    ensures col < dw ==>
      && Lin(r, col, dPitch) < |om| && at + Lin(r, col, 4 * p.dstX) < |dev|
      && DrainBC(om, dPitch, dw, dh, dev, at, p)[Lin(r, col, dPitch)] == dev[at + Lin(r, col, 4 * p.dstX)]
    ensures dw <= col < dPitch ==>
      && Lin(r, col, dPitch) < |om|
      && DrainBC(om, dPitch, dw, dh, dev, at, p)[Lin(r, col, dPitch)] == om[Lin(r, col, dPitch)]
  {
    RectInTile(0, 0, dw, dh, dPitch, dh);
    if col < dw {
      Copy2DAt(om, 0, dPitch, dev, at, 4 * p.dstX, dw, dh, r, col);
    } else if col < dPitch {
      RectInTile(0, col, 1, dh, dPitch, dh);
      RectIndex(|om|, Lin(0, col, dPitch), dPitch, 1, dh, r, 0);
      LinCol(r, col, dPitch);
      Copy2DPadding(om, 0, dPitch, dev, at, 4 * p.dstX, dw, dh, r, col);
    }
  }

  /** The destination stack as the pipeline leaves it: every matrix but the last is the
      pipeline's, the last is as it was. */
  function PipelineOut(pp: Pipeline, inp: PipeIn, ms: seq<seq<int>>, len: nat): (r: seq<seq<int>>)
    requires |ms| > 0 && |ms[|ms| - 1]| == len
    ensures |r| == |ms| && Shaped(r, |ms|, len) && r[|ms| - 1] == ms[|ms| - 1]
  {
    seq(|ms|, i requires 0 <= i < |ms| =>
      if i < |ms| - 1 then seq(len, k requires 0 <= k < len => pp.out(inp, i, k)) else ms[i])
  }

  /** Element k of matrix i, for every matrix but the last, is what the pipeline drains there. */
  lemma {:induction false} PipelineOutAt(pp: Pipeline, inp: PipeIn, ms: seq<seq<int>>, len: nat, i: nat, k: nat)
    requires |ms| > 0 && |ms[|ms| - 1]| == len && i < |ms| - 1 && k < len
    ensures PipelineOut(pp, inp, ms, len)[i][k] == pp.out(inp, i, k)
  {
  }

  /** The device buffer of n floats as the pipeline leaves it. */
  function PipelineDev(pp: Pipeline, inp: PipeIn, n: nat): (r: seq<int>)
    ensures |r| == n
  {
    seq(n, k requires 0 <= k < n => pp.dev(inp, k))
  }

  /** Constant memory of n entries as the pipeline leaves it. */
  function PipelineConsts(pp: Pipeline, inp: PipeIn, n: nat): (r: seq<int>)
    ensures |r| == n
  {
    seq(n, k requires 0 <= k < n => pp.consts(inp, k))
  }

  /** Element k of the device buffer is the pipeline's. */
  lemma {:induction false} PipelineDevAt(pp: Pipeline, inp: PipeIn, n: nat, k: nat)
    requires k < n
    ensures PipelineDev(pp, inp, n)[k] == pp.dev(inp, k)
  {
  }

  /** What the pipeline macro starts from: the device buffer holds source 0 staged
      into the first source slot of the fresh buffer dev0, and the destination stack
      is mats0. */
  function InputBC(b: Bounds, l: Launch, consts: seq<int>, srcs: seq<seq<int>>, kernels: seq<seq<int>>,
                   sPitch: nat, sw: nat, sh: nat, dev0: seq<int>, mats0: seq<seq<int>>): PipeIn
    requires FitsBC(b, l.e, l.plan, sw, sh) && 4 * l.plan.SrcSize() <= |dev0|
    requires sw <= sPitch && |srcs| > 0 && |srcs[0]| == Area(sPitch, sh)
  {
    PipeIn(l, consts, srcs, kernels, StagedBC(dev0, b, l.e, l.plan, srcs[0], sPitch, sw, sh), mats0)
  }

  /** What one engine leaves in the destination stack, from the fresh buffer's contents
      dev0 and the stack's contents mats0 before it runs. */
  function ResultBC(b: Bounds, l: Launch, consts: seq<int>, srcs: seq<seq<int>>, kernels: seq<seq<int>>,
                    sPitch: nat, sw: nat, sh: nat, pp: Pipeline, dev0: seq<int>, mats0: seq<seq<int>>, dPitch: nat): (r: seq<seq<int>>)
    requires FitsBC(b, l.e, l.plan, sw, sh) && |dev0| == 8 * (l.plan.SrcSize() + l.plan.DstSize())
    requires sw <= sPitch && |srcs| > 0 && |srcs[0]| == Area(sPitch, sh)
    requires sw <= dPitch && |mats0| > 0 && Shaped(mats0, |mats0|, Area(dPitch, sh))
    ensures |r| == |mats0|
  {
    var p := l.plan;
    var inp := InputBC(b, l, consts, srcs, kernels, sPitch, sw, sh, dev0, mats0);
    DrainLast(PipelineOut(pp, inp, mats0, Area(dPitch, sh)), dPitch, sw, sh, PipelineDev(pp, inp, |dev0|),
              DrainFrom(pp.lead3(inp), p.SrcSize(), p.DstSize()), p)
  }

  /** Every destination matrix but the last is the one the pipeline drained. */
  lemma {:induction false} ResultBCOthers(b: Bounds, l: Launch, consts: seq<int>, srcs: seq<seq<int>>, kernels: seq<seq<int>>,
                    sPitch: nat, sw: nat, sh: nat, pp: Pipeline, dev0: seq<int>, mats0: seq<seq<int>>, dPitch: nat, i: nat, k: nat)
    requires FitsBC(b, l.e, l.plan, sw, sh) && |dev0| == 8 * (l.plan.SrcSize() + l.plan.DstSize())
    requires sw <= sPitch && |srcs| > 0 && |srcs[0]| == Area(sPitch, sh)
    requires sw <= dPitch && |mats0| > 0 && Shaped(mats0, |mats0|, Area(dPitch, sh))
    requires i < |mats0| - 1 && k < Area(dPitch, sh)
    ensures |ResultBC(b, l, consts, srcs, kernels, sPitch, sw, sh, pp, dev0, mats0, dPitch)[i]| == Area(dPitch, sh)
    ensures ResultBC(b, l, consts, srcs, kernels, sPitch, sw, sh, pp, dev0, mats0, dPitch)[i][k]
         == pp.out(InputBC(b, l, consts, srcs, kernels, sPitch, sw, sh, dev0, mats0), i, k)
  {
    var inp := InputBC(b, l, consts, srcs, kernels, sPitch, sw, sh, dev0, mats0);
    PipelineOutAt(pp, inp, mats0, Area(dPitch, sh), i, k);
  }

  /** The last destination matrix receives, in its sw x sh rectangle, the tile of the
      slot that leads when the pipeline ends (Dmem3 or Dmem4, never a source slot), and
      keeps the padding at the end of its rows. */
  lemma {:induction false} ResultBCLast(b: Bounds, l: Launch, consts: seq<int>, srcs: seq<seq<int>>, kernels: seq<seq<int>>,
                    sPitch: nat, sw: nat, sh: nat, pp: Pipeline, dev0: seq<int>, mats0: seq<seq<int>>, dPitch: nat, r: nat, col: nat)
    requires FitsBC(b, l.e, l.plan, sw, sh) && |dev0| == 8 * (l.plan.SrcSize() + l.plan.DstSize())
    requires sw <= sPitch && |srcs| > 0 && |srcs[0]| == Area(sPitch, sh)
    requires sw <= dPitch && |mats0| > 0 && Shaped(mats0, |mats0|, Area(dPitch, sh))
    requires r < sh && col < dPitch
    ensures var p := l.plan;
      var inp := InputBC(b, l, consts, srcs, kernels, sPitch, sw, sh, dev0, mats0);
      var at := DrainFrom(pp.lead3(inp), p.SrcSize(), p.DstSize());
      var last := ResultBC(b, l, consts, srcs, kernels, sPitch, sw, sh, pp, dev0, mats0, dPitch)[|mats0| - 1];
      && 4 * SlicesBC(p.SrcSize(), p.DstSize())[1].End() <= at
      && Lin(r, col, dPitch) < |last| == Area(dPitch, sh)
      && (col < sw ==> at + Lin(r, col, 4 * p.dstX) < |dev0| && last[Lin(r, col, dPitch)] == pp.dev(inp, at + Lin(r, col, 4 * p.dstX)))
      && (sw <= col ==> last[Lin(r, col, dPitch)] == mats0[|mats0| - 1][Lin(r, col, dPitch)])
  {
    var p := l.plan;
    var inp := InputBC(b, l, consts, srcs, kernels, sPitch, sw, sh, dev0, mats0);
    var after := PipelineDev(pp, inp, |dev0|);
    var mid := PipelineOut(pp, inp, mats0, Area(dPitch, sh));
    var at := DrainFrom(pp.lead3(inp), p.SrcSize(), p.DstSize());
    DrainBCEntry(mid[|mats0| - 1], dPitch, sw, sh, after, at, p, r, col);
    if col < sw {
      PipelineDevAt(pp, inp, |dev0|, at + Lin(r, col, 4 * p.dstX));
    }
  }

  /** The first staging; the slot descriptors' flags after it: Dmem1 leading, not in use. */
  method StageFirst(dev: array<int>, d1: MIF, b: Bounds, e: Engine, p: Plan, m: seq<int>, sPitch: nat, sw: nat, sh: nat)
    requires FitsBC(b, e, p, sw, sh) && 4 * p.SrcSize() <= dev.Length
    requires sw <= sPitch && |m| == Area(sPitch, sh) && d1.mem == 0
    modifies dev, d1
    ensures dev[..] == StagedBC(old(dev[..]), b, e, p, m, sPitch, sw, sh)
    ensures d1.mem == 0 && d1.leading && !d1.inUse
  {
    Store(dev, StagedBC(dev[..], b, e, p, m, sPitch, sw, sh));
    d1.leading := true;
    d1.inUse := false;
  }

  /** The drain after the pipeline: the leading destination slot goes to the last
      destination matrix; the slot-3 branch then marks Dmem3 in use, while the slot-4
      branch marks Dmem4 not in use. */
  method FinalDrain(d3: MIF, d4: MIF, dev: array<int>, dst: MatrixArray, s: nat, p: Plan)
    requires d3 != d4 && d3.mem == 2 * s && d4.mem == 2 * s + p.DstSize()
    requires dev.Length == 8 * (s + p.DstSize())
    requires dst.Valid() && |dst.mats| > 0 && RectFits(4 * p.DstSize(), 0, 4 * p.dstX, dst.width, dst.height)
    modifies d3, d4, dst
    ensures dst.width == old(dst.width) && dst.height == old(dst.height) && dst.pitch == old(dst.pitch)
    ensures dst.store == old(dst.store) && dst.Valid()
    ensures |dst.mats| == old(|dst.mats|)
    ensures dst.mats == DrainLast(old(dst.mats), dst.pitch, dst.width, dst.height, dev[..], DrainFrom(old(d3.leading), s, p.DstSize()), p)
    ensures d3.mem == old(d3.mem) && d4.mem == old(d4.mem) && d3.leading == old(d3.leading) && d4.leading == old(d4.leading)
    ensures old(d3.leading) ==> d3.inUse && d4.inUse == old(d4.inUse)
    ensures !old(d3.leading) ==> !d4.inUse && d3.inUse == old(d3.inUse)
  {
    var n := |dst.mats|;
    MatrixFits(dst, n - 1);
    if d3.leading {
      dst.mats := dst.mats[n - 1 := DrainBC(dst.mats[n - 1], dst.pitch, dst.width, dst.height, dev[..], 4 * d3.mem, p)];
      d3.inUse := true;
    } else {
      dst.mats := dst.mats[n - 1 := DrainBC(dst.mats[n - 1], dst.pitch, dst.width, dst.height, dev[..], 4 * d4.mem, p)];
      d4.inUse := false;
    }
  }

  /** The device side of one engine, from the first staging to the final drain:
      source 0 staged into Dmem1, the pipeline, and the drain of the leading
      destination slot.  `consts` is what constant memory holds when it starts. */
  method DeviceStages(b: Bounds, l: Launch, dev: array<int>, d1: MIF, d3: MIF, d4: MIF,
                      src: MatrixArray, kernels: seq<seq<int>>, dst: MatrixArray,
                      constMem: array<int>, consts: seq<int>, pp: Pipeline)
    requires FitsBC(b, l.e, l.plan, src.width, src.height)
    requires dev.Length == 8 * (l.plan.SrcSize() + l.plan.DstSize()) && dev != constMem
    requires d1.mem == 0 && d3.mem == 2 * l.plan.SrcSize() && d4.mem == 2 * l.plan.SrcSize() + l.plan.DstSize()
    requires d1 != d3 && d1 != d4 && d3 != d4
    requires src.Valid() && dst.Valid() && |src.mats| > 0 && |dst.mats| == |src.mats| && dst != src
    requires dst.width == src.width && dst.height == src.height
    requires constMem[..] == consts
    modifies dev, d1, d3, d4, dst, constMem
    ensures dst.width == old(dst.width) && dst.height == old(dst.height) && dst.pitch == old(dst.pitch)
    ensures dst.store == old(dst.store) && dst.Valid()
    ensures dst.mats == ResultBC(b, l, consts, src.mats, kernels, src.pitch, src.width, src.height, pp, old(dev[..]), old(dst.mats), dst.pitch)
    ensures constMem[..] == PipelineConsts(pp, InputBC(b, l, consts, src.mats, kernels, src.pitch, src.width, src.height,
                                                       old(dev[..]), old(dst.mats)), constMem.Length)
  {
    var p := l.plan;
    ghost var dev0 := dev[..];
    StageFirst(dev, d1, b, l.e, p, src.mats[0], src.pitch, src.width, src.height);
    var inp := PipeIn(l, consts, src.mats, kernels, dev[..], dst.mats);
    assert inp == InputBC(b, l, consts, src.mats, kernels, src.pitch, src.width, src.height, dev0, dst.mats);
    RunPipeline(pp, inp, dev, d3, dst, constMem);
    FinalDrain(d3, d4, dev, dst, p.SrcSize(), p);
  }

  /** The pipeline macro's effect: the device buffer, every destination matrix but the
      last, constant memory, and Dmem3's leading flag. */
  method RunPipeline(pp: Pipeline, inp: PipeIn, dev: array<int>, d3: MIF, dst: MatrixArray, constMem: array<int>)
    requires dst.Valid() && |dst.mats| > 0 && dev != constMem
    modifies dev, d3, dst, constMem
    ensures dev[..] == PipelineDev(pp, inp, dev.Length)
    ensures constMem[..] == PipelineConsts(pp, inp, constMem.Length)
    ensures dst.width == old(dst.width) && dst.height == old(dst.height) && dst.pitch == old(dst.pitch)
    ensures dst.store == old(dst.store) && dst.Valid()
    ensures dst.mats == PipelineOut(pp, inp, old(dst.mats), old(Area(dst.pitch, dst.height)))
    ensures d3.leading == pp.lead3(inp) && d3.mem == old(d3.mem) && d3.inUse == old(d3.inUse)
  {
    Store(dev, PipelineDev(pp, inp, dev.Length));
    Store(constMem, PipelineConsts(pp, inp, constMem.Length));
    dst.mats := PipelineOut(pp, inp, dst.mats, Area(dst.pitch, dst.height));
    d3.leading := pp.lead3(inp);
  }

  /** The single allocation of 2*(S+D) float4s (as floats) and its four slot
      descriptors Dmem1..Dmem4, laid out as `SlicesBC`; Dmem2 is used only by the
      pipeline. */
  method AllocBC(s: nat, d: nat) returns (dev: array<int>, d1: MIF, d3: MIF, d4: MIF)
    ensures fresh(dev) && fresh(d1) && fresh(d3) && fresh(d4)
    ensures dev.Length == 8 * (s + d)
    ensures d1.mem == SlicesBC(s, d)[0].start && d3.mem == SlicesBC(s, d)[2].start && d4.mem == SlicesBC(s, d)[3].start
    ensures d1 != d3 && d1 != d4 && d3 != d4
  {
    dev := new int[4 * (2 * (s + d))];
    var slots := SlicesBC(s, d);
    d1 := new MIF(slots[0].start);
    var d2 := new MIF(slots[1].start);
    d3 := new MIF(slots[2].start);
    d4 := new MIF(slots[3].start);
  }

  /** _Conv2_BC_R*_MK: kernel 0 uploaded to the constant buffer, then plan, allocation
      and device stages.  The allocation touches no constant memory, so the upload is
      modelled first.  `packed` is constant memory after the upload, which the pipeline
      starts from; dev0 and mats0 are the fresh buffer's contents and the destination
      stack before the engine runs. */
  method EngineBC(b: Bounds, e: Engine, src: MatrixArray, kernel: MatrixArray, dst: MatrixArray,
                  constMem: array<int>, pp: Pipeline)
      returns (l: Launch, ghost packed: seq<int>, ghost dev0: seq<int>, ghost mats0: seq<seq<int>>)
    requires b.Aligned() && src.Valid() && kernel.Valid() && dst.Valid()
    requires |src.mats| > 0 && |kernel.mats| > 0 && |dst.mats| == |src.mats|
    requires dst.width == src.width && dst.height == src.height && dst != src && dst != kernel
    modifies constMem, dst
    ensures dst.width == old(dst.width) && dst.height == old(dst.height) && dst.pitch == old(dst.pitch)
    ensures dst.store == old(dst.store) && dst.Valid() && mats0 == old(dst.mats)
    ensures (MatrixFits(kernel, 0);
      packed == PackRows(old(constMem[..]), kernel.mats[0], kernel.width, kernel.height, kernel.pitch, kernel.height))
    ensures l == LaunchFor(b, e, kernel.width, kernel.height, PlanFor(b, e, src.width, src.height))
    ensures FitsBC(b, l.e, l.plan, src.width, src.height)
    ensures |dev0| == 8 * (l.plan.SrcSize() + l.plan.DstSize())
    ensures dst.mats == ResultBC(b, l, packed, src.mats, kernel.mats, src.pitch, src.width, src.height, pp, dev0, mats0, dst.pitch)
    ensures constMem[..] == PipelineConsts(pp, InputBC(b, l, packed, src.mats, kernel.mats, src.pitch, src.width, src.height,
                                                       dev0, mats0), constMem.Length)
  {
    MatrixFits(kernel, 0);
    var _ := Upload(constMem, kernel.mats[0], kernel.width, kernel.height, kernel.pitch);
    packed := constMem[..];
    l, dev0, mats0 := EngineDevice(b, e, src, kernel, dst, constMem, constMem[..], pp);
  }

  /** The rest of an engine once kernel 0 is in the constant buffer (whose contents are
      `consts`): plan from the destination's size, one allocation of 2*(S+D) float4s
      sliced into Dmem1..Dmem4, then the device stages. */
  method EngineDevice(b: Bounds, e: Engine, src: MatrixArray, kernel: MatrixArray, dst: MatrixArray,
                      constMem: array<int>, consts: seq<int>, pp: Pipeline)
      returns (l: Launch, ghost dev0: seq<int>, ghost mats0: seq<seq<int>>)
    requires b.Aligned() && src.Valid() && kernel.Valid() && dst.Valid()
    requires |src.mats| > 0 && |kernel.mats| > 0 && |dst.mats| == |src.mats|
    requires dst.width == src.width && dst.height == src.height && dst != src && dst != kernel
    requires constMem[..] == consts
    modifies dst, constMem
    ensures dst.width == old(dst.width) && dst.height == old(dst.height) && dst.pitch == old(dst.pitch)
    ensures dst.store == old(dst.store) && dst.Valid() && mats0 == old(dst.mats)
    ensures l == LaunchFor(b, e, kernel.width, kernel.height, PlanFor(b, e, src.width, src.height))
    ensures FitsBC(b, l.e, l.plan, src.width, src.height)
    ensures |dev0| == 8 * (l.plan.SrcSize() + l.plan.DstSize())
    ensures dst.mats == ResultBC(b, l, consts, src.mats, kernel.mats, src.pitch, src.width, src.height, pp, dev0, mats0, dst.pitch)
    ensures constMem[..] == PipelineConsts(pp, InputBC(b, l, consts, src.mats, kernel.mats, src.pitch, src.width, src.height,
                                                       dev0, mats0), constMem.Length)
  {
    var p := PlanFor(b, e, dst.width, dst.height);
    var dev, d1, d3, d4 := AllocBC(p.SrcSize(), p.DstSize());
    l := LaunchFor(b, e, kernel.width, kernel.height, p);
    dev0, mats0 := dev[..], dst.mats;
    PlanFitsBC(b, e, src.width, src.height);
    DeviceStages(b, l, dev, d1, d3, d4, src, kernel.mats, dst, constMem, consts, pp);
  }

  /** sConv2_border_zero_mk: the destination becomes a page-locked stack of the
      source's shape, the kernel's half-extents select the engine, and Success is
      reported whatever the kernel's size. */
  method ConvolveConst(b: Bounds, src: MatrixArray, kernel: MatrixArray, dst: MatrixArray,
                       constMem: array<int>, pp: Pipeline)
      returns (status: Status, l: Launch, ghost packed: seq<int>, ghost dev0: seq<int>, ghost mats0: seq<seq<int>>)
    requires b.Aligned() && src.Valid() && kernel.Valid()
    requires |src.mats| > 0 && |kernel.mats| > 0 && src != dst && kernel != dst
    modifies dst, constMem
    ensures status == Success
    ensures dst.Valid() && dst.store == PageLocked
    ensures dst.width == src.width && dst.height == src.height && |dst.mats| == |src.mats|
    ensures (MatrixFits(kernel, 0);
      packed == PackRows(old(constMem[..]), kernel.mats[0], kernel.width, kernel.height, kernel.pitch, kernel.height))
    ensures Shaped(mats0, |src.mats|, Area(dst.pitch, dst.height))
    ensures l == LaunchFor(b, Select(b, kernel.width, kernel.height), kernel.width, kernel.height,
                           PlanFor(b, Select(b, kernel.width, kernel.height), src.width, src.height))
    ensures FitsBC(b, l.e, l.plan, src.width, src.height)
    ensures |dev0| == 8 * (l.plan.SrcSize() + l.plan.DstSize())
    ensures dst.mats == ResultBC(b, l, packed, src.mats, kernel.mats, src.pitch, src.width, src.height, pp, dev0, mats0, dst.pitch)
    ensures constMem[..] == PipelineConsts(pp, InputBC(b, l, packed, src.mats, kernel.mats, src.pitch, src.width, src.height,
                                                       dev0, mats0), constMem.Length)
  {
    dst.Rearrange(src.width, src.height, |src.mats|, PageLocked);
    var e := Select(b, kernel.width, kernel.height);
    l, packed, dev0, mats0 := EngineBC(b, e, src, kernel, dst, constMem, pp);
    status := Success;
  }
}
