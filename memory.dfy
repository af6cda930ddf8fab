/** Host-visible storage entities of the drivers: a stack of equally shaped pitched
    matrices (_MatrixArray / _GPU_MatrixArray), the MIF slot descriptor, device
    allocation, and a whole-buffer device write. */
module Memory {
  import opened Pitched

  datatype Option<T> = None | Some(value: T)

  /** Where a matrix stack lives. */
  datatype Storage = PageLocked | OnDevice

  /** n matrices of len elements each. */
  predicate Shaped(ms: seq<seq<int>>, n: nat, len: nat)
  {
    |ms| == n && forall i :: 0 <= i < |ms| ==> |ms[i]| == len
  }

  /** A stack of `|mats|` matrices of width x height elements, each stored with rows
      `pitch` elements apart. */
  class MatrixArray {
    var width: nat
    var height: nat
    var pitch: nat
    var store: Storage
    var mats: seq<seq<int>>

    /** Every matrix holds `height` rows of `pitch` elements, each row at least
        `width` long. */
    predicate Valid()
      reads this
    {
      width <= pitch && Shaped(mats, |mats|, Area(pitch, height))
    }

    constructor (w: nat, h: nat, p: nat, loc: Storage, ms: seq<seq<int>>)
      requires w <= p && Shaped(ms, |ms|, Area(p, h))
      ensures Valid()
      ensures width == w && height == h && pitch == p && store == loc && mats == ms
    {
      width, height, pitch, store, mats := w, h, p, loc, ms;
    }

    /** The destination rearrangement: the stack is given new dimensions and count and
        fresh storage at `loc`.  The pitch it picks and the fresh contents are the
        allocator's and are not part of this model, so the contract leaves both open. */
    method Rearrange(w: nat, h: nat, n: nat, loc: Storage)
      modifies this
      ensures Valid()
      ensures width == w && height == h && |mats| == n && store == loc
    {
      // Any pitch of at least w and any contents would do: the contract exposes neither.
      var p := w;
      var ms: seq<seq<int>> := seq(n, _ => seq(Area(p, h), _ => 0));
      width, height, pitch, store, mats := w, h, p, loc, ms;
    }
  }

  /** Every matrix of a stack of pitch x h storages holds its w x h rectangle. */
  lemma {:induction false} ShapedFits(ms: seq<seq<int>>, w: nat, h: nat, pitch: nat, i: nat)
    requires w <= pitch && Shaped(ms, |ms|, Area(pitch, h)) && i < |ms|
    ensures RectFits(|ms[i]|, 0, pitch, w, h)
  {
    RectInTile(0, 0, w, h, pitch, h);
  }

  /** Every matrix of a valid stack holds its width x height rectangle. */
  lemma {:induction false} MatrixFits(m: MatrixArray, i: nat)
    requires m.Valid() && i < |m.mats|
    ensures RectFits(|m.mats[i]|, 0, m.pitch, m.width, m.height)
  {
    ShapedFits(m.mats, m.width, m.height, m.pitch, i);
  }

  /** A single pitched matrix (_GPU_Matrix), read-only here: the border-ignored kernel. */
  datatype Matrix = Matrix(width: nat, height: nat, pitch: nat, data: seq<int>)
  {
    predicate Valid()
    {
      width <= pitch && |data| == Area(pitch, height)
    }
  }

  /** A valid matrix holds its width x height rectangle. */
  lemma {:induction false} SingleFits(m: Matrix)
    requires m.Valid()
    ensures RectFits(|m.data|, 0, m.pitch, m.width, m.height)
  {
    RectInTile(0, 0, m.width, m.height, m.pitch, m.height);
  }

  /** A slot descriptor MIF<float4>: `mem` is the slot's offset from the allocation
      base in float4 units; `leading` and `inUse` (_using) are the pipeline flags.
      MIF's own definition is not part of this model; its flags are taken to start
      cleared. */
  class MIF {
    var mem: nat
    var leading: bool
    var inUse: bool

    constructor (at: nat)
      ensures mem == at && !leading && !inUse
    {
      mem, leading, inUse := at, false, false;
    }
  }

  /** A device allocation of n floats, which may fail; fresh device memory holds
      unspecified values. */
  method DeviceMalloc(n: nat) returns (r: Option<array<int>>)
    ensures r.Some? ==> fresh(r.value) && r.value.Length == n
  {
    if * {
      r := None;
    } else {
      var a := new int[n];
      r := Some(a);
    }
  }

  /** Writes the whole of `a`. */
  method Store(a: array<int>, s: seq<int>)
    requires |s| == a.Length
    modifies a
    ensures a[..] == s
  {
    forall k | 0 <= k < a.Length {
      a[k] := s[k];
    }
  }
}
