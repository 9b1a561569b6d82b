/** The whole run of one thread of one block of the working plan: zero the
    accumulator registers, the k_tile_range loop of outer iterations, and
    the epilogue that stores the registers to C. */
module Kernel {
  import opened Layout
  import opened Tiling
  import opened Fragments
  import opened Accumulators
  import opened Phases
  import opened BlockRun
  import opened Output

  /** Zeroed registers hold the reference accumulators before any
      reduction chunk. */
  lemma AccumulatedInit<H, F>(t: Thread<H, F>, regs: seq<F>)
    requires ThreadOk(t) && |regs| == t.blk.c.MTiles() * t.blk.c.NTiles() * 4
    requires forall r | 0 <= r < |regs| :: regs[r] == t.zero
    ensures Accumulated(t, regs, 0)
  {
    var e := Expected(t, 0);
    forall r | 0 <= r < |regs|
      ensures regs[r] == e[r]
    {
      OffsetJoin(t.blk.c.MTiles(), t.blk.c.NTiles(), r);
    }
  }

  /** The k_tile_range loop (lines 80-210) after the zeroing of c_regs
      (lines 135-138): every outer iteration in turn, on shared tiles of
      the block's own.  The registers end up holding the reference
      accumulators over the whole reduction, N / 16 chunks. */
  method Reduce<H(0), F(0)>(t: Thread<H, F>, a: array<H>, b: array<H>)
    returns (bank: AccumulatorBank<F>, main: seq<Event>)
    requires ThreadOk(t) && a[..] == t.a && b[..] == t.b && a != b
    ensures fresh(bank) && fresh(bank.regs) && BankFits(t.blk.c, bank)
    ensures Accumulated(t, bank.regs[..], t.blk.n / 16)
    ensures main == MainLoop(BlockNest(t.blk), KTiles(t.blk))
  {
    var c := t.blk.c;
    BlockFacts(t.blk);
    bank := new AccumulatorBank(c.MTiles(), c.NTiles(), t.zero);
    AccumulatedInit(t, bank.regs[..]);
    var aS := new H[c.blockM * c.blockK];
    var bS := new H[c.blockK * c.blockN];
    main := [];
    var kt := 0;
    while kt < KTiles(t.blk)
      invariant kt <= KTiles(t.blk)
      invariant fresh(bank.regs) && BankFits(c, bank)
      invariant Accumulated(t, bank.regs[..], GlobalChunk(c, kt, 0))
      invariant main == MainLoop(BlockNest(t.blk), kt)
    {
      var events := RunIteration(t, a, b, aS, bS, bank, kt);
      main := main + events;
      kt := kt + 1;
    }
    assert GlobalChunk(c, KTiles(t.blk), 0) == t.blk.n / 16;
  }

  /** One thread of the kernel (lines 59-248).  Its trace is the plan's
      trace, and global C afterwards is C before with every register of the
      thread stored to its cell, each register holding the reference
      accumulators over the whole reduction. */
  method RunThread<H(0), F(0)>(t: Thread<H, F>, a: array<H>, b: array<H>, cOut: array<F>)
    returns (trace: seq<Event>)
    requires ThreadOk(t) && a[..] == t.a && b[..] == t.b && a != b
    requires cOut.Length == t.blk.n * t.blk.n
    modifies cOut
    ensures t.blk.c.WarpTileM() > 0
    ensures cOut[..] == StoredC(t.blk, t.tid, Expected(t, t.blk.n / 16), old(cOut[..]),
                                t.blk.c.MTiles() * t.blk.c.NTiles() * 4)
    ensures trace == PlanTrace(BlockNest(t.blk))
  {
    var bank, main := Reduce(t, a, b);
    var stores := Epilogue(t.blk, t.tid, bank, cOut);
    trace := main + stores;
  }

  /** What one thread leaves in C: the cell of each of its registers holds
      the reference accumulator for it, and every cell no register of the
      thread maps to keeps its value. */
  lemma ThreadStoresReference<H, F>(t: Thread<H, F>, before: seq<F>, after: seq<F>)
    requires ThreadOk(t) && |before| == t.blk.n * t.blk.n
    requires t.blk.c.WarpTileM() > 0
    requires after == StoredC(t.blk, t.tid, Expected(t, t.blk.n / 16), before,
                              t.blk.c.MTiles() * t.blk.c.NTiles() * 4)
    ensures t.blk.c.WarpsX() > 0
    ensures forall s | IsSlot(t.blk.c, s) && s.tid == t.tid ::
      CGlobal(t.blk, s) < |after| && after[CGlobal(t.blk, s)] == Unpack(Acc(t, t.blk.n / 16, s.mTile, s.nTile))[s.elem]
    ensures forall i | 0 <= i < |after| && !WrittenBy(t.blk, t.tid, i) :: after[i] == before[i]
  {
    var g := t.blk.n / 16;
    StoredAll(t.blk, t.tid, Expected(t, g), before);
    forall s | IsSlot(t.blk.c, s) && s.tid == t.tid
      ensures CGlobal(t.blk, s) < |after| && after[CGlobal(t.blk, s)] == Unpack(Acc(t, g, s.mTile, s.nTile))[s.elem]
    {
      ExpectedSlot(t, g, s.mTile, s.nTile, s.elem);
    }
  }
}
