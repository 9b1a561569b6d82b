/** The per-thread accumulator registers c_regs of the working plan: a
    (M_TILES, N_TILES, 4) array of floats, zero-initialised by a loop over
    its flattened size and then overwritten four slots at a time by each
    tensor-core step. */
module Accumulators {
  import opened Layout

  /** Flat offset of c_regs[m, n, i] in a (_, nTiles, 4) register array. */
  function Offset(nTiles: nat, m: nat, n: nat, i: nat): nat
  {
    Flat2(Flat2(m, n, nTiles), i, 4)
  }

  /** The four accumulators of tile (m, n) in the flattened contents. */
  function TileOf<F>(contents: seq<F>, nTiles: nat, m: nat, n: nat): (t: seq<F>)
    requires Offset(nTiles, m, n, 0) + 4 <= |contents|
    ensures |t| == 4
    ensures forall i | 0 <= i < 4 :: t[i] == contents[Offset(nTiles, m, n, i)]
  {
    var b := Offset(nTiles, m, n, 0);
    contents[b..b + 4]
  }

  /** `contents` with the four entries starting at b replaced by `out`. */
  function Splice<F>(contents: seq<F>, b: nat, out: seq<F>): (r: seq<F>)
    requires b + |out| <= |contents|
    ensures |r| == |contents|
    ensures forall s | 0 <= s < |r| ::
      r[s] == if b <= s < b + |out| then out[s - b] else contents[s]
  {
    contents[..b] + out + contents[b + |out|..]
  }

  /** Offset (m, n, i) is inside the array, and division and remainder
      give back m, n and i. */
  lemma OffsetSplit(mTiles: nat, nTiles: nat, m: nat, n: nat, i: nat)
    requires m < mTiles && n < nTiles && i < 4
    ensures Offset(nTiles, m, n, i) < mTiles * nTiles * 4
    ensures Offset(nTiles, m, n, i) / 4 / nTiles == m && Offset(nTiles, m, n, i) / 4 % nTiles == n
    ensures Offset(nTiles, m, n, i) % 4 == i
  {
    Flat2Bound(m, n, mTiles, nTiles);
    Flat2Bound(Flat2(m, n, nTiles), i, mTiles * nTiles, 4);
    Flat2Split(Flat2(m, n, nTiles), i, 4);
    Flat2Split(m, n, nTiles);
  }

  /** Every slot of the array is the offset of the (m, n, i) its division
      and remainder give. */
  lemma OffsetJoin(mTiles: nat, nTiles: nat, s: nat)
    requires s < mTiles * nTiles * 4
    ensures nTiles > 0 && s / 4 / nTiles < mTiles && s / 4 % nTiles < nTiles
    ensures Offset(nTiles, s / 4 / nTiles, s / 4 % nTiles, s % 4) == s
  {
    Flat2Join(s, mTiles * nTiles, 4);
    Flat2Join(s / 4, mTiles, nTiles);
  }

  /** c_regs[m, n, i] names one slot and every slot is named once: Offset is
      a bijection from [0, mTiles) x [0, nTiles) x [0, 4) onto
      [0, mTiles * nTiles * 4). */
  lemma OffsetBijection(mTiles: nat, nTiles: nat)
    ensures forall m: nat, n: nat, i: nat | m < mTiles && n < nTiles && i < 4 ::
      Offset(nTiles, m, n, i) < mTiles * nTiles * 4
      && Offset(nTiles, m, n, i) / 4 / nTiles == m && Offset(nTiles, m, n, i) / 4 % nTiles == n
      && Offset(nTiles, m, n, i) % 4 == i
    ensures forall s: nat | s < mTiles * nTiles * 4 ::
      nTiles > 0 && s / 4 / nTiles < mTiles && s / 4 % nTiles < nTiles
      && Offset(nTiles, s / 4 / nTiles, s / 4 % nTiles, s % 4) == s
  {
    forall m: nat, n: nat, i: nat | m < mTiles && n < nTiles && i < 4
      ensures Offset(nTiles, m, n, i) < mTiles * nTiles * 4
      ensures Offset(nTiles, m, n, i) / 4 / nTiles == m && Offset(nTiles, m, n, i) / 4 % nTiles == n
      ensures Offset(nTiles, m, n, i) % 4 == i
    {
      OffsetSplit(mTiles, nTiles, m, n, i);
    }
    forall s: nat | s < mTiles * nTiles * 4
      ensures nTiles > 0 && s / 4 / nTiles < mTiles && s / 4 % nTiles < nTiles
      ensures Offset(nTiles, s / 4 / nTiles, s / 4 % nTiles, s % 4) == s
    {
      OffsetJoin(mTiles, nTiles, s);
    }
  }

  /** The slots of tile (m, n + 1) follow those of tile (m, n), and the
      slots of row m + 1 follow the last tile of row m. */
  lemma OffsetNext(nTiles: nat, m: nat, n: nat)
    ensures Offset(nTiles, m, n, 0) + 4 == Offset(nTiles, m, n + 1, 0)
    ensures Offset(nTiles, m, nTiles, 0) == Offset(nTiles, m + 1, 0, 0)
  {
    Flat2NextRow(Flat2(m, n, nTiles), 4);
    Flat2NextRow(m, nTiles);
  }

  /** The four slots of an in-range tile lie inside the array. */
  lemma TileInRange(mTiles: nat, nTiles: nat, m: nat, n: nat)
    requires m < mTiles && n < nTiles
    ensures Offset(nTiles, m, n, 0) + 4 <= mTiles * nTiles * 4
  {
    Flat2Bound(m, n, mTiles, nTiles);
    MulMonotone(Flat2(m, n, nTiles) + 1, mTiles * nTiles, 4);
  }

  /** Overwriting tile (m, n) sets its four accumulators and leaves every
      other tile as it was. */
  lemma SpliceTile<F>(contents: seq<F>, mTiles: nat, nTiles: nat, m: nat, n: nat, out: seq<F>,
                      m': nat, n': nat)
    requires |contents| == mTiles * nTiles * 4 && |out| == 4
    requires m < mTiles && n < nTiles && m' < mTiles && n' < nTiles
    ensures Offset(nTiles, m, n, 0) + 4 <= |contents| && Offset(nTiles, m', n', 0) + 4 <= |contents|
    ensures var after := Splice(contents, Offset(nTiles, m, n, 0), out);
      TileOf(after, nTiles, m', n')
      == if m' == m && n' == n then out else TileOf(contents, nTiles, m', n')
  {
    var t, t' := Flat2(m, n, nTiles), Flat2(m', n', nTiles);
    Flat2Bound(m, n, mTiles, nTiles);
    Flat2Bound(m', n', mTiles, nTiles);
    MulMonotone(t + 1, mTiles * nTiles, 4);
    MulMonotone(t' + 1, mTiles * nTiles, 4);
    var b := Offset(nTiles, m, n, 0);
    var after := Splice(contents, b, out);
    if m' == m && n' == n {
      assert TileOf(after, nTiles, m', n') == out;
    } else {
      if t == t' {
        Flat2Split(m, n, nTiles);
        Flat2Split(m', n', nTiles);
      }
      if t < t' {
        MulMonotone(t + 1, t', 4);
      } else {
        MulMonotone(t' + 1, t, 4);
      }
      assert TileOf(after, nTiles, m', n') == TileOf(contents, nTiles, m', n');
    }
  }

  /** c_regs of one thread. */
  class AccumulatorBank<F(0)> {
    const mTiles: nat
    const nTiles: nat
    const regs: array<F>

    ghost predicate Valid()
    {
      regs.Length == mTiles * nTiles * 4
    }

    /** The four accumulators of tile (m, n). */
    function Tile(m: nat, n: nat): (t: seq<F>)
      reads regs
      requires Valid() && m < mTiles && n < nTiles
      ensures |t| == 4
    {
      TileInRange(mTiles, nTiles, m, n);
      TileOf(regs[..], nTiles, m, n)
    }

    /** Allocate c_regs and store 0.0 into every slot of its flattened view
        (lines 135-138). */
    constructor (mTiles: nat, nTiles: nat, zero: F)
      ensures this.mTiles == mTiles && this.nTiles == nTiles
      ensures Valid() && fresh(regs)
      ensures forall s | 0 <= s < regs.Length :: regs[s] == zero
    {
      this.mTiles := mTiles;
      this.nTiles := nTiles;
      regs := new F[mTiles * nTiles * 4];
      new;
      var i := 0;
      while i < regs.Length
        invariant 0 <= i <= regs.Length
        invariant forall s | 0 <= s < i :: regs[s] == zero
      {
        regs[i] := zero;
        i := i + 1;
      }
    }

    /** Store the four results of one tensor-core step into c_regs[m, n, :]
        (lines 207-208). */
    method Update(m: nat, n: nat, out: seq<F>)
      requires Valid() && m < mTiles && n < nTiles && |out| == 4
      modifies regs
      ensures Offset(nTiles, m, n, 0) + 4 <= regs.Length
      ensures regs[..] == Splice(old(regs[..]), Offset(nTiles, m, n, 0), out)
    {
      TileInRange(mTiles, nTiles, m, n);
      var b := Offset(nTiles, m, n, 0);
      ghost var before := regs[..];
      var i := 0;
      while i < 4
        invariant 0 <= i <= 4
        invariant forall k | 0 <= k < i :: regs[b + k] == out[k]
        invariant forall s | 0 <= s < regs.Length && !(b <= s < b + i) :: regs[s] == old(regs[s])
      {
        regs[b + i] := out[i];
        i := i + 1;
      }
      ghost var after := Splice(before, b, out);
      forall s | 0 <= s < regs.Length
        ensures regs[s] == after[s]
      {
      }
      assert regs[..] == after;
    }
  }
}
