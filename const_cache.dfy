/** The constant-memory kernel packer shared by both drivers: the kernel's rows are
    copied one at a time into the constant buffer, back to back, so that the row
    padding of the pitched kernel never reaches the buffer. */
module ConstCache {
  import opened Pitched
  import opened Memory

  /** Row k of a pitched kernel, without its padding. */
  function KernelRow(ker: seq<int>, w: nat, h: nat, pitch: nat, k: nat): (row: seq<int>)
    requires RectFits(|ker|, 0, pitch, w, h) && k < h
    ensures |row| == w
  {
    seq(w, j requires 0 <= j < w => (RectIndex(|ker|, 0, pitch, w, h, k, j); ker[Lin(k, j, pitch)]))
  }

  /** Entry j of row k is the kernel entry at pitched offset (k, j). */
  lemma {:induction false} KernelRowAt(ker: seq<int>, w: nat, h: nat, pitch: nat, k: nat, j: nat)
    requires RectFits(|ker|, 0, pitch, w, h) && k < h && j < w
    ensures Lin(k, j, pitch) < |ker|
    ensures KernelRow(ker, w, h, pitch, k)[j] == ker[Lin(k, j, pitch)]
  {
    RectIndex(|ker|, 0, pitch, w, h, k, j);
  }

  /** One cudaMemcpyToSymbol of `row` to element offset `off` of constant memory.  A
      copy that would run past the end of the symbol is refused by the runtime and
      the drivers do not check the error, so it leaves the buffer as it was. */
  function WriteRow(c: seq<int>, off: nat, row: seq<int>): (r: seq<int>)
    ensures |r| == |c|
  {
    seq(|c|, x requires 0 <= x < |c| =>
      if off <= x < off + |row| && off + |row| <= |c| then row[x - off] else c[x])
  }

  /** A copy that fits puts entry j of the row at offset off + j. */
  lemma {:induction false} WriteRowAt(c: seq<int>, off: nat, row: seq<int>, j: nat)
    requires off + |row| <= |c| && j < |row|
    ensures WriteRow(c, off, row)[off + j] == row[j]
  {
  }

  /** Entries outside the copied range, and every entry when the copy does not fit,
      are left as they were. */
  lemma {:induction false} WriteRowKeep(c: seq<int>, off: nat, row: seq<int>, x: nat)
    requires x < |c| && (x < off || off + |row| <= x || off + |row| > |c|)
    ensures WriteRow(c, off, row)[x] == c[x]
  {
  }

  /** Row r of w entries fits in a buffer of len entries when packed densely. */
  predicate RowFits(r: nat, w: nat, len: nat)
  {
    Lin(r, 0, w) + w <= len
  }

  /** The constant buffer after the first k iterations of the upload loop, starting
      from `c`: iteration k copies kernel row k to offset k*w. */
  function PackRows(c: seq<int>, ker: seq<int>, w: nat, h: nat, pitch: nat, k: nat): (r: seq<int>)
    requires RectFits(|ker|, 0, pitch, w, h) && k <= h
    ensures |r| == |c|
    decreases k
  {
    if k == 0 then c
    else WriteRow(PackRows(c, ker, w, h, pitch, k - 1), Lin(k - 1, 0, w), KernelRow(ker, w, h, pitch, k - 1))
  }

  /** Row k-1, written by iteration k-1, lands at its dense offset when it fits. */
  lemma {:induction false} PackRowsLast(c: seq<int>, ker: seq<int>, w: nat, h: nat, pitch: nat, k: nat, j: nat)
    requires RectFits(|ker|, 0, pitch, w, h) && 0 < k <= h
    requires j < w && RowFits(k - 1, w, |c|)
    ensures Lin(k - 1, j, w) < |c| && Lin(k - 1, j, pitch) < |ker|
    ensures PackRows(c, ker, w, h, pitch, k)[Lin(k - 1, j, w)] == ker[Lin(k - 1, j, pitch)]
  {
    RectIndex(|ker|, 0, pitch, w, h, k - 1, j);
    var prev := PackRows(c, ker, w, h, pitch, k - 1);
    var row := KernelRow(ker, w, h, pitch, k - 1);
    var off := Lin(k - 1, 0, w);
    assert PackRows(c, ker, w, h, pitch, k) == WriteRow(prev, off, row);
    LinCol(k - 1, j, w);
    WriteRowAt(prev, off, row, j);
    KernelRowAt(ker, w, h, pitch, k - 1, j);
  }

  /** Iteration k leaves every entry outside row k-1's dense range as it was, and
      leaves everything as it was when that row does not fit. */
  lemma {:induction false} PackRowsStep(c: seq<int>, ker: seq<int>, w: nat, h: nat, pitch: nat, k: nat, x: nat)
    requires RectFits(|ker|, 0, pitch, w, h) && 0 < k <= h && x < |c|
    requires x < Lin(k - 1, 0, w) || Lin(k - 1, 0, w) + w <= x || !RowFits(k - 1, w, |c|)
    ensures PackRows(c, ker, w, h, pitch, k)[x] == PackRows(c, ker, w, h, pitch, k - 1)[x]
  {
    var prev := PackRows(c, ker, w, h, pitch, k - 1);
    var row := KernelRow(ker, w, h, pitch, k - 1);
    assert PackRows(c, ker, w, h, pitch, k) == WriteRow(prev, Lin(k - 1, 0, w), row);
    WriteRowKeep(prev, Lin(k - 1, 0, w), row, x);
  }

  /** An iteration after row r's leaves row r's entries as they were. */
  lemma {:induction false} PackRowsKeepEarlier(c: seq<int>, ker: seq<int>, w: nat, h: nat, pitch: nat, k: nat, r: nat, j: nat)
    requires RectFits(|ker|, 0, pitch, w, h) && k <= h
    requires r < k - 1 && j < w && RowFits(r, w, |c|)
    ensures Lin(r, j, w) < |c|
    ensures PackRows(c, ker, w, h, pitch, k)[Lin(r, j, w)] == PackRows(c, ker, w, h, pitch, k - 1)[Lin(r, j, w)]
  {
    LinCol(r, j, w);
    LinRowOrder(r, k - 1, j, w);
    PackRowsStep(c, ker, w, h, pitch, k, Lin(r, j, w));
  }

  /** Every row that fits in the buffer holds the kernel's coefficients, densely:
      entry r*w + j is kernel entry r*pitch + j. */
  lemma {:induction false} PackRowsAt(c: seq<int>, ker: seq<int>, w: nat, h: nat, pitch: nat, k: nat, r: nat, j: nat)
    requires RectFits(|ker|, 0, pitch, w, h) && k <= h
    requires r < k && j < w && RowFits(r, w, |c|)
    ensures Lin(r, j, w) < |c| && Lin(r, j, pitch) < |ker|
    ensures PackRows(c, ker, w, h, pitch, k)[Lin(r, j, w)] == ker[Lin(r, j, pitch)]
    decreases k
  {
    if r == k - 1 {
      PackRowsLast(c, ker, w, h, pitch, k, j);
    } else {
      PackRowsAt(c, ker, w, h, pitch, k - 1, r, j);
      PackRowsKeepEarlier(c, ker, w, h, pitch, k, r, j);
    }
  }

  /** An entry at or after row r0 is not written by iteration m when r0 comes after
      m, or when row r0 does not fit (then neither does the later row m). */
  lemma {:induction false} RowMissed(m: nat, r0: nat, w: nat, len: nat, x: nat)
    requires Lin(r0, 0, w) <= x
    requires r0 > m || !RowFits(r0, w, len)
    ensures Lin(m, 0, w) + w <= x || !RowFits(m, w, len)
  {
    if r0 > m {
      LinRowsAfter(m, r0, w);
    } else if r0 < m {
      LinRowsAfter(r0, m, w);
    }
  }

  /** Entries from row r0 on are untouched when r0 is past the last iteration or row
      r0 does not fit (then no later row fits either). */
  lemma {:induction false} PackRowsFrame(c: seq<int>, ker: seq<int>, w: nat, h: nat, pitch: nat, k: nat, r0: nat, x: nat)
    requires RectFits(|ker|, 0, pitch, w, h) && k <= h
    requires x < |c| && Lin(r0, 0, w) <= x
    requires r0 >= k || !RowFits(r0, w, |c|)
    ensures PackRows(c, ker, w, h, pitch, k)[x] == c[x]
    decreases k
  {
    if k > 0 {
      PackRowsFrame(c, ker, w, h, pitch, k - 1, r0, x);
      RowMissed(k - 1, r0, w, |c|, x);
      PackRowsStep(c, ker, w, h, pitch, k, x);
      assert PackRows(c, ker, w, h, pitch, k - 1)[x] == c[x];
    }
  }

  /** cudaMemcpyToSymbol of `row` to element offset `off` of constant memory, as
      `WriteRow` describes it. */
  method MemcpyToSymbol(constMem: array<int>, off: nat, row: seq<int>)
    modifies constMem
    ensures constMem[..] == WriteRow(old(constMem[..]), off, row)
  {
    ghost var prev := constMem[..];
    if off + |row| <= constMem.Length {
      forall j | 0 <= j < |row| {
        constMem[off + j] := row[j];
      }
      forall x | 0 <= x < constMem.Length
        ensures constMem[x] == WriteRow(prev, off, row)[x]
      {
        if off <= x < off + |row| {
          WriteRowAt(prev, off, row, x - off);
        } else {
          WriteRowKeep(prev, off, row, x);
        }
      }
    } else {
      forall x | 0 <= x < constMem.Length
        ensures constMem[x] == WriteRow(prev, off, row)[x]
      {
        WriteRowKeep(prev, off, row, x);
      }
    }
  }

  /** The upload loop: for k < kh, kernel row k goes to element offset k*kw of
      constant memory; offset_lin advances by kw and offset_ker by the pitch. */
  method Upload(constMem: array<int>, ker: seq<int>, kw: nat, kh: nat, pitch: nat) returns (offsetLin: nat)
    requires RectFits(|ker|, 0, pitch, kw, kh)
    modifies constMem
    ensures offsetLin == Area(kw, kh)
    ensures constMem[..] == PackRows(old(constMem[..]), ker, kw, kh, pitch, kh)
  {
    ghost var c0 := constMem[..];
    var offsetKer: nat := 0;
    offsetLin := 0;
    var k: nat := 0;
    while k < kh
      invariant k <= kh && offsetLin == Lin(k, 0, kw) && offsetKer == Lin(k, 0, pitch)
      invariant constMem[..] == PackRows(c0, ker, kw, kh, pitch, k)
    {
      var row: seq<int> := [];
      if kw > 0 {
        RectIndex(|ker|, 0, pitch, kw, kh, k, kw - 1);
        assert offsetKer + kw <= |ker| by {
          LinCol(k, kw - 1, pitch);
        }
        row := ker[offsetKer..offsetKer + kw];
      }
      assert row == KernelRow(ker, kw, kh, pitch, k) by {
        forall j | 0 <= j < kw
          ensures row[j] == KernelRow(ker, kw, kh, pitch, k)[j]
        {
          KernelRowAt(ker, kw, kh, pitch, k, j);
          LinCol(k, j, pitch);
        }
      }
      MemcpyToSymbol(constMem, offsetLin, row);
      offsetLin := offsetLin + kw;
      offsetKer := offsetKer + pitch;
      k := k + 1;
    }
  }

  /** What the upload leaves in constant memory: when the kernel fits, its kh rows of
      kw coefficients without padding, and past them the buffer as it was; when it
      does not, every row that fits, and nothing from the first row that does not. */
  lemma {:induction false} PackedKernel(c: seq<int>, ker: seq<int>, kw: nat, kh: nat, pitch: nat)
    requires RectFits(|ker|, 0, pitch, kw, kh)
    ensures forall r, j :: 0 <= r < kh && 0 <= j < kw && RowFits(r, kw, |c|) ==>
      && Lin(r, j, kw) < |c| && Lin(r, j, pitch) < |ker|
      && PackRows(c, ker, kw, kh, pitch, kh)[Lin(r, j, kw)] == ker[Lin(r, j, pitch)]
    ensures forall x :: kw * kh <= x < |c| ==> PackRows(c, ker, kw, kh, pitch, kh)[x] == c[x]
    ensures forall r, x :: 0 <= r < kh && !RowFits(r, kw, |c|) && Lin(r, 0, kw) <= x < |c| ==>
      PackRows(c, ker, kw, kh, pitch, kh)[x] == c[x]
  {
    forall r, j | 0 <= r < kh && 0 <= j < kw && RowFits(r, kw, |c|)
      ensures && Lin(r, j, kw) < |c| && Lin(r, j, pitch) < |ker|
              && PackRows(c, ker, kw, kh, pitch, kh)[Lin(r, j, kw)] == ker[Lin(r, j, pitch)]
    {
      PackRowsAt(c, ker, kw, kh, pitch, kh, r, j);
    }
    forall x | kw * kh <= x < |c|
      ensures PackRows(c, ker, kw, kh, pitch, kh)[x] == c[x]
    {
      LinMul(kh, 0, kw);
      PackRowsFrame(c, ker, kw, kh, pitch, kh, kh, x);
    }
    forall r, x | 0 <= r < kh && !RowFits(r, kw, |c|) && Lin(r, 0, kw) <= x < |c|
      ensures PackRows(c, ker, kw, kh, pitch, kh)[x] == c[x]
    {
      PackRowsFrame(c, ker, kw, kh, pitch, kh, r, x);
    }
  }
}
