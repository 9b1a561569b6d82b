/** The epilogue of the working plan (lines 221-244): every thread stores
    each of its accumulator registers to one cell of the block's output
    tile of global C, through the view
    c.reshape(M // BLOCK_M, BLOCK_M, N // BLOCK_N, BLOCK_N)[blockIdx_y, :, blockIdx_x, :]. */
module Output {
  import opened Layout
  import opened Tiling
  import opened Fragments
  import opened Accumulators
  import opened Phases
  import opened BlockRun

  /** Global row of C of a cell of the block's output tile. */
  function CGlobalRow(blk: Block, cell: Cell): nat
  {
    Flat2(blk.blockY, cell.row, blk.c.blockM)
  }

  /** Global column of C of a cell of the block's output tile. */
  function CGlobalCol(blk: Block, cell: Cell): nat
  {
    Flat2(blk.blockX, cell.col, blk.c.blockN)
  }

  /** The flat index of global C that the epilogue stores register s to:
      (out_row, out_col) of the block tile, placed by the block view. */
  function CGlobal(blk: Block, s: Slot): nat
    requires blk.c.WarpsX() > 0
  {
    var cell := EpilogueCell(blk.c, s);
    Flat2(CGlobalRow(blk, cell), CGlobalCol(blk, cell), blk.n)
  }

  /** The register the epilogue of block blk stores to flat index i of
      global C: None outside the block's output tile. */
  function CSource(blk: Block, i: nat): Option<Slot>
    requires blk.c.WarpTileM() > 0
  {
    var row, col := i / blk.n, i % blk.n;
    DivIsNat(i, blk.n);
    if row / blk.c.blockM == blk.blockY && col / blk.c.blockN == blk.blockX then
      Some(EpilogueSource(blk.c, Cell(row % blk.c.blockM, col % blk.c.blockN)))
    else
      None
  }

  /** Thread tid of block blk stores to flat index i of global C. */
  predicate WrittenBy(blk: Block, tid: nat, i: nat)
    requires blk.c.WarpTileM() > 0
  {
    CSource(blk, i).Some? && CSource(blk, i).value.tid == tid
  }

  /** Offset in c_regs of the register stored to flat index i. */
  function RegOf(blk: Block, i: nat): nat
    requires blk.c.WarpTileM() > 0 && CSource(blk, i).Some?
  {
    var s := CSource(blk, i).value;
    Offset(blk.c.NTiles(), s.mTile, s.nTile, s.elem)
  }

  /** Every register of a block is stored inside C, and the index it is
      stored to has that register as its source. */
  lemma CGlobalSource(blk: Block, s: Slot)
    requires BlockOk(blk) && IsSlot(blk.c, s)
    ensures blk.c.WarpsX() > 0 && blk.c.WarpTileM() > 0
    ensures CGlobal(blk, s) < blk.n * blk.n && CSource(blk, CGlobal(blk, s)) == Some(s)
  {
    var c, n := blk.c, blk.n;
    BlockCorrected(blk);
    EpilogueStoreInjective(c, n, s);
    BlockFacts(blk);
    var cell := EpilogueCell(c, s);
    var row, col := CGlobalRow(blk, cell), CGlobalCol(blk, cell);
    InTiledRange(n, c.blockM, blk.blockY, cell.row);
    InTiledRange(n, c.blockN, blk.blockX, cell.col);
    Flat2Bound(row, col, n, n);
    Flat2Split(row, col, n);
    DivModUnique(row, c.blockM, blk.blockY, cell.row);
    DivModUnique(col, c.blockN, blk.blockX, cell.col);
  }

  /** An index of C inside the block's output tile is the global index of
      its cell of the tile. */
  lemma TileCellGlobal(blk: Block, i: nat)
    requires blk.n > 0 && blk.c.blockM > 0 && blk.c.blockN > 0 && i < blk.n * blk.n
    requires (i / blk.n) / blk.c.blockM == blk.blockY && (i % blk.n) / blk.c.blockN == blk.blockX
    ensures i / blk.n >= 0
    ensures Flat2(CGlobalRow(blk, Cell((i / blk.n) % blk.c.blockM, (i % blk.n) % blk.c.blockN)),
                  CGlobalCol(blk, Cell((i / blk.n) % blk.c.blockM, (i % blk.n) % blk.c.blockN)), blk.n) == i
  {
    var n := blk.n;
    Flat2Join(i, n, n);
    DivIsNat(i, n);
    var row: nat, col: nat := i / n, i % n;
    assert blk.blockY * blk.c.blockM + row % blk.c.blockM == row;
    assert blk.blockX * blk.c.blockN + col % blk.c.blockN == col;
  }

  /** Every index of C with a source is the index that source is stored
      to. */
  lemma SourceCGlobal(blk: Block, i: nat)
    requires BlockOk(blk) && i < blk.n * blk.n
    ensures blk.c.WarpsX() > 0 && blk.c.WarpTileM() > 0
    ensures CSource(blk, i).Some? ==>
      IsSlot(blk.c, CSource(blk, i).value) && CGlobal(blk, CSource(blk, i).value) == i
  {
    var c, n := blk.c, blk.n;
    BlockCorrected(blk);
    EpilogueFacts(c, n);
    if CSource(blk, i).Some? {
      TileCellGlobal(blk, i);
      DivIsNat(i, n);
      DivIsNat(i / n, c.blockM);
      DivIsNat(i % n, c.blockN);
      EpilogueStoreSurjective(c, n, Cell((i / n) % c.blockM, (i % n) % c.blockN));
    }
  }

  /** C after the epilogue of thread tid has stored its registers with
      offsets below `done`: those cells hold the register, the rest what
      they held before. */
  function StoredC<F>(blk: Block, tid: nat, regs: seq<F>, before: seq<F>, done: nat): (after: seq<F>)
    requires blk.c.WarpTileM() > 0 && done <= |regs|
    ensures |after| == |before|
  {
    seq(|before|, i requires 0 <= i < |before| =>
      if WrittenBy(blk, tid, i) && RegOf(blk, i) < done then regs[RegOf(blk, i)] else before[i])
  }

  /** Storing register s, whose offset is `done`, moves StoredC one
      register on. */
  lemma StoreStep<F>(blk: Block, tid: nat, regs: seq<F>, before: seq<F>, s: Slot)
    requires BlockOk(blk) && IsSlot(blk.c, s) && s.tid == tid
    requires |before| == blk.n * blk.n && |regs| == blk.c.MTiles() * blk.c.NTiles() * 4
    ensures blk.c.WarpsX() > 0 && blk.c.WarpTileM() > 0
    ensures Offset(blk.c.NTiles(), s.mTile, s.nTile, s.elem) < |regs|
    ensures var done := Offset(blk.c.NTiles(), s.mTile, s.nTile, s.elem);
      CGlobal(blk, s) < |before|
      && StoredC(blk, tid, regs, before, done)[CGlobal(blk, s) := regs[done]]
         == StoredC(blk, tid, regs, before, done + 1)
  {
    var c := blk.c;
    CGlobalSource(blk, s);
    OffsetSplit(c.MTiles(), c.NTiles(), s.mTile, s.nTile, s.elem);
    var done := Offset(c.NTiles(), s.mTile, s.nTile, s.elem);
    var x, y := StoredC(blk, tid, regs, before, done)[CGlobal(blk, s) := regs[done]], StoredC(blk, tid, regs, before, done + 1);
    forall i | 0 <= i < |before|
      ensures x[i] == y[i]
    {
      if WrittenBy(blk, tid, i) && RegOf(blk, i) == done {
        // only the cell of s has s as its source
        SourceCGlobal(blk, i);
        var s' := CSource(blk, i).value;
        OffsetSplit(c.MTiles(), c.NTiles(), s'.mTile, s'.nTile, s'.elem);
        assert s' == s;
        assert i == CGlobal(blk, s);
      }
    }
  }

  /** Once every register is stored, each register's cell holds it and
      every cell the thread does not write keeps its value. */
  lemma StoredAll<F>(blk: Block, tid: nat, regs: seq<F>, before: seq<F>)
    requires BlockOk(blk) && tid < blk.c.threads
    requires |before| == blk.n * blk.n && |regs| == blk.c.MTiles() * blk.c.NTiles() * 4
    ensures blk.c.WarpsX() > 0 && blk.c.WarpTileM() > 0
    ensures var after := StoredC(blk, tid, regs, before, |regs|);
      (forall s | IsSlot(blk.c, s) && s.tid == tid ::
        CGlobal(blk, s) < |after| && Offset(blk.c.NTiles(), s.mTile, s.nTile, s.elem) < |regs|
        && after[CGlobal(blk, s)] == regs[Offset(blk.c.NTiles(), s.mTile, s.nTile, s.elem)])
      && (forall i | 0 <= i < |after| && !WrittenBy(blk, tid, i) :: after[i] == before[i])
  {
    var c := blk.c;
    BlockCorrected(blk);
    EpilogueFacts(c, blk.n);
    var after := StoredC(blk, tid, regs, before, |regs|);
    forall s | IsSlot(c, s) && s.tid == tid
      ensures CGlobal(blk, s) < |after| && Offset(c.NTiles(), s.mTile, s.nTile, s.elem) < |regs|
      ensures after[CGlobal(blk, s)] == regs[Offset(c.NTiles(), s.mTile, s.nTile, s.elem)]
    {
      CGlobalSource(blk, s);
      OffsetSplit(c.MTiles(), c.NTiles(), s.mTile, s.nTile, s.elem);
    }
  }

  /** One store of line 244: register `s` of thread tid goes to its cell
      of C. */
  method StoreReg<F(0)>(blk: Block, bank: AccumulatorBank<F>, cOut: array<F>, ghost before: seq<F>, s: Slot)
    requires BlockOk(blk) && IsSlot(blk.c, s)
    requires BankFits(blk.c, bank) && cOut.Length == blk.n * blk.n && |before| == cOut.Length
    requires blk.c.WarpTileM() > 0 && cOut != bank.regs
    requires Offset(blk.c.NTiles(), s.mTile, s.nTile, s.elem) < bank.regs.Length
    requires cOut[..] == StoredC(blk, s.tid, bank.regs[..], before, Offset(blk.c.NTiles(), s.mTile, s.nTile, s.elem))
    modifies cOut
    ensures cOut[..] == StoredC(blk, s.tid, bank.regs[..], before, Offset(blk.c.NTiles(), s.mTile, s.nTile, s.elem) + 1)
  {
    var done := Offset(blk.c.NTiles(), s.mTile, s.nTile, s.elem);
    StoreStep(blk, s.tid, bank.regs[..], before, s);
    var at := CGlobal(blk, s);
    cOut[at] := bank.regs[done];
  }

  /** The elem loop of lines 230-244 for tile (m, nt): store the four
      registers of the tile to their cells of C. */
  method StoreTileRegs<F(0)>(blk: Block, tid: nat, bank: AccumulatorBank<F>, cOut: array<F>, ghost before: seq<F>,
                         m: nat, nt: nat)
    returns (stores: seq<Event>)
    requires BlockOk(blk) && tid < blk.c.threads && m < blk.c.MTiles() && nt < blk.c.NTiles()
    requires BankFits(blk.c, bank) && cOut.Length == blk.n * blk.n && |before| == cOut.Length
    requires blk.c.WarpTileM() > 0 && cOut != bank.regs
    requires (TileInRange(blk.c.MTiles(), blk.c.NTiles(), m, nt);
              cOut[..] == StoredC(blk, tid, bank.regs[..], before, Offset(blk.c.NTiles(), m, nt, 0)))
    modifies cOut
    ensures Offset(blk.c.NTiles(), m, nt, 0) + 4 <= bank.regs.Length
    ensures cOut[..] == StoredC(blk, tid, bank.regs[..], before, Offset(blk.c.NTiles(), m, nt, 0) + 4)
    ensures stores == StoreElems(m, nt, 4)
  {
    TileInRange(blk.c.MTiles(), blk.c.NTiles(), m, nt);
    stores := [];
    var e := 0;
    while e < 4
      invariant e <= 4
      invariant cOut[..] == StoredC(blk, tid, bank.regs[..], before, Offset(blk.c.NTiles(), m, nt, 0) + e)
      invariant stores == StoreElems(m, nt, e)
    {
      assert Offset(blk.c.NTiles(), m, nt, 0) + e == Offset(blk.c.NTiles(), m, nt, e);
      StoreReg(blk, bank, cOut, before, Slot(tid, m, nt, e));
      stores := stores + [Store(m, nt, e)];
      e := e + 1;
    }
  }

  /** The n_tile loop of lines 222-244 for M tile m. */
  method StoreRowRegs<F(0)>(blk: Block, tid: nat, bank: AccumulatorBank<F>, cOut: array<F>, ghost before: seq<F>, m: nat)
    returns (stores: seq<Event>)
    requires BlockOk(blk) && tid < blk.c.threads && m < blk.c.MTiles()
    requires BankFits(blk.c, bank) && cOut.Length == blk.n * blk.n && |before| == cOut.Length
    requires blk.c.WarpTileM() > 0 && cOut != bank.regs
    requires cOut[..] == StoredC(blk, tid, bank.regs[..], before, Offset(blk.c.NTiles(), m, 0, 0))
    modifies cOut
    ensures Offset(blk.c.NTiles(), m + 1, 0, 0) <= bank.regs.Length
    ensures cOut[..] == StoredC(blk, tid, bank.regs[..], before, Offset(blk.c.NTiles(), m + 1, 0, 0))
    ensures stores == StoreRow(m, blk.c.NTiles())
  {
    var nts := blk.c.NTiles();
    stores := [];
    var nt := 0;
    while nt < nts
      invariant nt <= nts && Offset(nts, m, nt, 0) <= bank.regs.Length
      invariant cOut[..] == StoredC(blk, tid, bank.regs[..], before, Offset(nts, m, nt, 0))
      invariant stores == StoreRow(m, nt)
    {
      var elems := StoreTileRegs(blk, tid, bank, cOut, before, m, nt);
      OffsetNext(nts, m, nt);
      stores := stores + elems;
      nt := nt + 1;
    }
    OffsetNext(nts, m, nts);
  }

  /** The epilogue of one thread (lines 221-246): the m_tile loop.  Every
      register of c_regs ends up in its cell of C and every other cell of C
      keeps its value; the stores come in the order StoreLoop lists. */
  method Epilogue<F(0)>(blk: Block, tid: nat, bank: AccumulatorBank<F>, cOut: array<F>)
    returns (stores: seq<Event>)
    requires BlockOk(blk) && tid < blk.c.threads
    requires BankFits(blk.c, bank) && cOut.Length == blk.n * blk.n && cOut != bank.regs
    modifies cOut
    ensures blk.c.WarpsX() > 0 && blk.c.WarpTileM() > 0
    ensures cOut[..] == StoredC(blk, tid, bank.regs[..], old(cOut[..]), bank.regs.Length)
    ensures stores == StoreLoop(blk.c.MTiles(), blk.c.NTiles())
  {
    BlockCorrected(blk);
    EpilogueFacts(blk.c, blk.n);
    var mt, nts := blk.c.MTiles(), blk.c.NTiles();
    ghost var before := cOut[..];
    assert cOut[..] == StoredC(blk, tid, bank.regs[..], before, 0);
    stores := [];
    var m := 0;
    while m < mt
      invariant m <= mt && Offset(nts, m, 0, 0) <= bank.regs.Length
      invariant cOut[..] == StoredC(blk, tid, bank.regs[..], before, Offset(nts, m, 0, 0))
      invariant stores == StoreLoop(m, nts)
    {
      var row := StoreRowRegs(blk, tid, bank, cOut, before, m);
      stores := stores + row;
      m := m + 1;
    }
    assert Offset(nts, mt, 0, 0) == bank.regs.Length;
  }
}
