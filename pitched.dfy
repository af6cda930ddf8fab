/** Pitched (row-strided) storage and the two-dimensional copy that moves a
    width x height rectangle between two such storages.  Every host/device
    transfer of the drivers (staging a source matrix into a padded tile,
    draining a tile into a destination matrix) is one `Copy2D`. */
module Pitched {

  /** Offset of element (row, col) in storage whose rows are `pitch` elements apart:
      `row` whole rows, then `col` elements (row * pitch + col, see `LinMul`). */
  function Lin(row: nat, col: nat, pitch: nat): nat
    decreases row
  {
    if row == 0 then col else Lin(row - 1, col, pitch) + pitch
  }

  /** Size of storage holding `rows` rows of `pitch` elements, rows * pitch (see
      `AreaMul`); written through `Lin` so that sizes stay linear terms. */
  function Area(pitch: nat, rows: nat): nat
  {
    Lin(rows, 0, pitch)
  }

  /** A w x h rectangle placed at `off` with row pitch `pitch` has rows that do not
      overlap and lies inside storage of `len` elements: its last element comes
      before offset len. */
  predicate RectFits(len: nat, off: nat, pitch: nat, w: nat, h: nat)
  {
    w <= pitch && (w > 0 && h > 0 ==> off + Lin(h - 1, w, pitch) <= len)
  }

  /** Element k lies in the w x h rectangle placed at `off` with row pitch `pitch`. */
  predicate InRect(k: int, off: nat, pitch: nat, w: nat, h: nat)
  {
    pitch > 0 && off <= k && (k - off) / pitch < h && (k - off) % pitch < w
  }

  lemma {:induction false} MulMono(a: nat, b: nat, c: nat)
    requires a <= b
    ensures a * c <= b * c
  {
  }

  /** The pitched offset is row * pitch + col. */
  lemma {:induction false} LinMul(row: nat, col: nat, pitch: nat)
    ensures Lin(row, col, pitch) == row * pitch + col
    decreases row
  {
    if row > 0 {
      LinMul(row - 1, col, pitch);
    }
  }

  /** Storage of `rows` rows of `pitch` elements holds rows * pitch elements. */
  lemma {:induction false} AreaMul(pitch: nat, rows: nat)
    ensures Area(pitch, rows) == rows * pitch
  {
    LinMul(rows, 0, pitch);
  }

  /** The column is added to the row's start. */
  lemma {:induction false} LinCol(row: nat, col: nat, pitch: nat)
    ensures Lin(row, col, pitch) == Lin(row, 0, pitch) + col
    decreases row
  {
    if row > 0 {
      LinCol(row - 1, col, pitch);
    }
  }

  /** A later row starts at or after the end of an earlier one. */
  lemma {:induction false} LinRowsAfter(r1: nat, r2: nat, pitch: nat)
    requires r1 < r2
    ensures Lin(r1, 0, pitch) + pitch <= Lin(r2, 0, pitch)
    decreases r2
  {
    if r1 + 1 < r2 {
      LinRowsAfter(r1, r2 - 1, pitch);
    }
  }

  /** An offset measured from (r0, c0) adds to it: row r0 + r, column c0 + c. */
  lemma {:induction false} LinShift(r0: nat, c0: nat, r: nat, c: nat, pitch: nat)
    ensures Lin(r0, c0, pitch) + Lin(r, c, pitch) == Lin(r0 + r, c0 + c, pitch)
    decreases r
  {
    if r == 0 {
      LinCol(r0, c0, pitch);
      LinCol(r0, c0 + c, pitch);
    } else {
      LinShift(r0, c0, r - 1, c, pitch);
    }
  }

  /** Elements of an earlier row come before every element of a later row. */
  lemma {:induction false} LinRowOrder(r1: nat, r2: nat, j: nat, pitch: nat)
    requires r1 < r2 && j < pitch
    ensures Lin(r1, j, pitch) < Lin(r2, 0, pitch)
  {
    LinCol(r1, j, pitch);
    LinRowsAfter(r1, r2, pitch);
  }

  /** Within a w x h rectangle, an element comes before the end of the last row. */
  lemma {:induction false} LinInRect(row: nat, col: nat, pitch: nat, w: nat, h: nat)
    requires row < h && col < w
    ensures Lin(row, col, pitch) < Lin(h - 1, w, pitch)
  {
    LinCol(row, col, pitch);
    LinCol(h - 1, w, pitch);
    if row < h - 1 {
      LinRowsAfter(row, h - 1, pitch);
    }
  }

  /** Euclidean division has one quotient and remainder. */
  lemma {:induction false} DivModUnique(k: nat, q: nat, m: nat, pitch: nat)
    requires m < pitch && k == q * pitch + m
    ensures k / pitch == q && k % pitch == m
  {
    var q', m' := k / pitch, k % pitch;
    assert k == q' * pitch + m';
    if q' > q {
      MulMono(q + 1, q', pitch);
      assert false;
    } else if q' < q {
      MulMono(q' + 1, q, pitch);
      assert false;
    }
  }

  /** Row and column of a linear offset are recovered by division by the pitch. */
  lemma {:induction false} LinDivMod(row: nat, col: nat, pitch: nat)
    requires col < pitch
    ensures Lin(row, col, pitch) / pitch == row && Lin(row, col, pitch) % pitch == col
  {
    LinMul(row, col, pitch);
    DivModUnique(Lin(row, col, pitch), row, col, pitch);
  }

  /** Every element of a fitting rectangle lies inside the storage. */
  lemma {:induction false} RectIndex(len: nat, off: nat, pitch: nat, w: nat, h: nat, row: nat, col: nat)
    requires RectFits(len, off, pitch, w, h) && row < h && col < w
    ensures off + Lin(row, col, pitch) < len
  {
    LinInRect(row, col, pitch, w, h);
  }

  /** An element inside the rectangle lies before the end of its last row. */
  lemma {:induction false} InRectBound(k: int, off: nat, pitch: nat, w: nat, h: nat)
    requires InRect(k, off, pitch, w, h)
    ensures w > 0 && h > 0
    ensures k == off + Lin((k - off) / pitch, (k - off) % pitch, pitch)
    ensures k < off + Lin(h - 1, w, pitch)
  {
    var q, m := (k - off) / pitch, (k - off) % pitch;
    LinMul(q, m, pitch);
    LinInRect(q, m, pitch, w, h);
  }

  /** A rectangle placed at row r0, column c0 of a tile of `rows` rows of `pitch`
      elements, which it does not overhang, lies inside the tile. */
  lemma {:induction false} RectInTile(r0: nat, c0: nat, w: nat, h: nat, pitch: nat, rows: nat)
    requires c0 + w <= pitch && r0 + h <= rows
    ensures RectFits(Area(pitch, rows), Lin(r0, c0, pitch), pitch, w, h)
  {
    AreaMul(pitch, rows);
    if w > 0 && h > 0 {
      LinMul(r0, c0, pitch);
      LinMul(h - 1, w, pitch);
      MulMono(r0 + h, rows, pitch);
      assert r0 * pitch + (h - 1) * pitch + pitch == (r0 + h) * pitch;
    }
  }

  /** Offset in the source storage of the element copied to offset k of the destination. */
  function SourceIndex(k: int, dOff: nat, dPitch: nat, sOff: nat, sPitch: nat, w: nat, h: nat, sLen: nat): (i: nat)
    requires InRect(k, dOff, dPitch, w, h) && RectFits(sLen, sOff, sPitch, w, h)
    ensures i < sLen
  {
    var row, col := (k - dOff) / dPitch, (k - dOff) % dPitch;
    LinInRect(row, col, sPitch, w, h);
    sOff + Lin(row, col, sPitch)
  }

  /** The result of copying the w x h rectangle of `s` at `sOff` (row pitch `sPitch`)
      over the rectangle of `d` at `dOff` (row pitch `dPitch`). */
  function Copy2D(d: seq<int>, dOff: nat, dPitch: nat, s: seq<int>, sOff: nat, sPitch: nat, w: nat, h: nat): (r: seq<int>)
    requires RectFits(|d|, dOff, dPitch, w, h) && RectFits(|s|, sOff, sPitch, w, h)
    ensures |r| == |d|
  {
    seq(|d|, k requires 0 <= k < |d| =>
      if InRect(k, dOff, dPitch, w, h) then s[SourceIndex(k, dOff, dPitch, sOff, sPitch, w, h, |s|)] else d[k])
  }

  /** Every element of the rectangle receives the corresponding source element. */
  lemma {:induction false} Copy2DAt(d: seq<int>, dOff: nat, dPitch: nat, s: seq<int>, sOff: nat, sPitch: nat, w: nat, h: nat, row: nat, col: nat)
    requires RectFits(|d|, dOff, dPitch, w, h) && RectFits(|s|, sOff, sPitch, w, h)
    requires row < h && col < w
    ensures dOff + Lin(row, col, dPitch) < |d| && sOff + Lin(row, col, sPitch) < |s|
    ensures Copy2D(d, dOff, dPitch, s, sOff, sPitch, w, h)[dOff + Lin(row, col, dPitch)] == s[sOff + Lin(row, col, sPitch)]
  {
    LinInRect(row, col, dPitch, w, h);
    LinInRect(row, col, sPitch, w, h);
    var k := dOff + Lin(row, col, dPitch);
    LinDivMod(row, col, dPitch);
    assert (k - dOff) / dPitch == row && (k - dOff) % dPitch == col;
    assert InRect(k, dOff, dPitch, w, h);
  }

  /** Elements before the rectangle or after its last element are left as they were. */
  lemma {:induction false} Copy2DFrame(d: seq<int>, dOff: nat, dPitch: nat, s: seq<int>, sOff: nat, sPitch: nat, w: nat, h: nat, k: nat)
    requires RectFits(|d|, dOff, dPitch, w, h) && RectFits(|s|, sOff, sPitch, w, h)
    requires k < |d|
    requires k < dOff || w == 0 || h == 0 || dOff + Lin(h - 1, w, dPitch) <= k
    ensures Copy2D(d, dOff, dPitch, s, sOff, sPitch, w, h)[k] == d[k]
  {
    if InRect(k, dOff, dPitch, w, h) {
      InRectBound(k, dOff, dPitch, w, h);
      assert false;
    }
  }

  /** The padding at the end of each destination row (columns w up to the pitch) is
      never written. */
  lemma {:induction false} Copy2DPadding(d: seq<int>, dOff: nat, dPitch: nat, s: seq<int>, sOff: nat, sPitch: nat, w: nat, h: nat, row: nat, col: nat)
    requires RectFits(|d|, dOff, dPitch, w, h) && RectFits(|s|, sOff, sPitch, w, h)
    requires w <= col < dPitch && dOff + Lin(row, col, dPitch) < |d|
    ensures Copy2D(d, dOff, dPitch, s, sOff, sPitch, w, h)[dOff + Lin(row, col, dPitch)] == d[dOff + Lin(row, col, dPitch)]
  {
    LinDivMod(row, col, dPitch);
    var k := dOff + Lin(row, col, dPitch);
    assert (k - dOff) % dPitch == col;
    assert !InRect(k, dOff, dPitch, w, h);
  }

  /** Copying into the same rectangle twice leaves only the second copy. */
  lemma {:induction false} Copy2DOverwrite(d: seq<int>, dOff: nat, dPitch: nat,
                        s1: seq<int>, sOff1: nat, sPitch1: nat,
                        s2: seq<int>, sOff2: nat, sPitch2: nat, w: nat, h: nat)
    requires RectFits(|d|, dOff, dPitch, w, h)
    requires RectFits(|s1|, sOff1, sPitch1, w, h) && RectFits(|s2|, sOff2, sPitch2, w, h)
    ensures Copy2D(Copy2D(d, dOff, dPitch, s1, sOff1, sPitch1, w, h), dOff, dPitch, s2, sOff2, sPitch2, w, h)
         == Copy2D(d, dOff, dPitch, s2, sOff2, sPitch2, w, h)
  {
  }

  /** A copy whose rectangle lies inside the first n elements acts on that prefix alone
      and leaves the rest untouched. */
  lemma {:induction false} Copy2DPrefix(d: seq<int>, n: nat, dOff: nat, dPitch: nat, s: seq<int>, sOff: nat, sPitch: nat, w: nat, h: nat)
    requires n <= |d| && RectFits(n, dOff, dPitch, w, h) && RectFits(|s|, sOff, sPitch, w, h)
    ensures Copy2D(d, dOff, dPitch, s, sOff, sPitch, w, h)[..n] == Copy2D(d[..n], dOff, dPitch, s, sOff, sPitch, w, h)
    ensures Copy2D(d, dOff, dPitch, s, sOff, sPitch, w, h)[n..] == d[n..]
  {
    var r := Copy2D(d, dOff, dPitch, s, sOff, sPitch, w, h);
    forall k | n <= k < |d|
      ensures r[k] == d[k]
    {
      Copy2DFrame(d, dOff, dPitch, s, sOff, sPitch, w, h, k);
    }
    assert r[n..] == d[n..];
  }
}
