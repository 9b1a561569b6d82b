/** The sequential run of one thread of one block of the working plan:
    stage, barrier, the tensor-core steps of every k-chunk, barrier, once per
    outer iteration, and then the epilogue.  The run is proved against a
    reference definition that reads the fragments straight out of the global
    A and B matrices and folds the tensor-core step over the whole reduction,
    and its emitted event trace against a phase automaton. */
module BlockRun {
  import opened Layout
  import opened Tiling
  import opened Lanes
  import opened Fragments
  import opened Staging
  import opened Accumulators
  import opened Loads
  import opened Phases

  /** One block of the launch grid: the plan, the matrix size and the
      block's coordinates (blockIdx_y = gidx1, blockIdx_x = gidx0). */
  datatype Block = Block(c: Config, n: Pos, blockY: nat, blockX: nat)

  /** A block of a plan that passes the corrected checks (the source's
      checks and WARP_TILE_M % TC_M == WARP_TILE_N % TC_N == 0), with the
      fragment geometry the maps are written for. */
  ghost predicate BlockOk(blk: Block)
  {
    WorkingValid(blk.c, blk.n) && IsM16N8K16(blk.c)
    && blk.c.WarpTileM() % 16 == 0 && blk.c.warpTileN % 8 == 0
    && blk.blockY < blk.n / blk.c.blockM && blk.blockX < blk.n / blk.c.blockN
  }

  /** The corrected checks in the form above. */
  lemma BlockCorrected(blk: Block)
    requires BlockOk(blk)
    ensures CorrectedValid(blk.c, blk.n)
  {
    CorrectedFromWorking(blk.c, blk.n);
  }

  /** BLOCK_K // TC_K: the k-chunks of one outer iteration. */
  function KChunks(c: Config): nat
  {
    c.blockK / 16
  }

  /** N // BLOCK_K: the outer iterations. */
  function KTiles(blk: Block): nat
  {
    blk.n / blk.c.blockK
  }

  /** k-chunk kc of outer iteration kt is k-chunk kt*KChunks + kc of the
      whole reduction. */
  function GlobalChunk(c: Config, kt: nat, kc: nat): nat
  {
    Flat2(kt, kc, KChunks(c))
  }

  /** The shapes a block of a valid plan works with. */
  lemma BlockFacts(blk: Block)
    requires BlockOk(blk)
    ensures WorkingValid(blk.c, blk.n)
    ensures blk.c.WarpsX() > 0 && blk.c.WarpTileM() > 0 && blk.c.MTiles() > 0 && blk.c.NTiles() > 0
    ensures blk.c.blockK % 16 == 0 && blk.c.blockM % 16 == 0 && blk.c.blockN % 8 == 0
    ensures blk.n % blk.c.blockM == 0 && blk.n % blk.c.blockN == 0 && blk.n % blk.c.blockK == 0
    ensures blk.n % 16 == 0
    ensures KChunks(blk.c) * 16 == blk.c.blockK && KTiles(blk) * KChunks(blk.c) == blk.n / 16
  {
    var c, n := blk.c, blk.n;
    BlockCorrected(blk);
    EpilogueFacts(c, n);
    WarpTileFacts(c, n);
    StagingShapes(c, n);
    var q, r := n / c.blockK, c.blockK / 16;
    assert n == q * c.blockK;
    assert n == (q * r) * 16;
    DivModUnique(n, 16, q * r, 0);
  }

  /** With p < total // size and x < size, p*size + x < total. */
  lemma InTiledRange(total: nat, size: Pos, p: nat, x: nat)
    requires total % size == 0 && p < total / size && x < size
    ensures Flat2(p, x, size) < total
  {
    MulMonotone(p + 1, total / size, size);
  }

  /** Chunk g of the reduction stays inside outer iteration g // KChunks. */
  lemma GlobalChunkFacts(blk: Block, kt: nat, kc: nat)
    requires BlockOk(blk) && kt < KTiles(blk) && kc < KChunks(blk.c)
    ensures KChunks(blk.c) * 16 == blk.c.blockK
    ensures GlobalChunk(blk.c, kt, kc) < blk.n / 16
    ensures GlobalChunk(blk.c, kt, kc) * 16 == kt * blk.c.blockK + kc * 16
  {
    BlockFacts(blk);
    Flat2Bound(kt, kc, KTiles(blk), KChunks(blk.c));
    assert GlobalChunk(blk.c, kt, kc) * 16 == kt * (KChunks(blk.c) * 16) + kc * 16;
  }

  // ---------------------------------------------------------------------
  // The reference definition
  // ---------------------------------------------------------------------

  /** A float.vec(4): the accumulator operand and the result of one
      tensor-core step. */
  datatype Vec4<F> = Vec4(x0: F, x1: F, x2: F, x3: F)

  /** The four lanes of a vec(4), gep(0) .. gep(3). */
  function Unpack<F>(v: Vec4<F>): (s: seq<F>)
    ensures |s| == 4 && s[0] == v.x0 && s[1] == v.x1 && s[2] == v.x2 && s[3] == v.x3
  {
    [v.x0, v.x1, v.x2, v.x3]
  }

  /** UOp.vectorize of four floats. */
  function Pack<F>(s: seq<F>): (v: Vec4<F>)
    requires |s| == 4
    ensures Unpack(v) == s
  {
    Vec4(s[0], s[1], s[2], s[3])
  }

  /** Thread tid of a block, the tensor-core step (uninterpreted: an A
      fragment, a B fragment and the accumulators in, the accumulators out),
      the contents of the global A and B matrices and the float zero. */
  datatype Thread<!H, !F> = Thread(blk: Block, tid: nat, mma: (seq<H>, seq<H>, Vec4<F>) -> Vec4<F>,
                                 a: seq<H>, b: seq<H>, zero: F)

  ghost predicate ThreadOk<H, F>(t: Thread<H, F>)
  {
    BlockOk(t.blk) && t.tid < t.blk.c.threads
    && |t.a| == t.blk.n * t.blk.n && |t.b| == t.blk.n * t.blk.n
  }

  /** Row of A (inside the block tile) of element e of the A fragment for
      M tile m: a_tile_idx*16 + row_idx. */
  function ATileRow(c: Config, tid: nat, m: nat, e: nat): nat
    requires c.WarpsX() > 0
  {
    Flat2(Flat2(WarpIdy(c, tid), m, c.MTiles()), ARow(Lane(c, tid), e), 16)
  }

  /** Column of B (inside the block tile) of element e of the B fragment for
      N tile nt: b_tile_idx*8 + col_idx. */
  function BTileCol(c: Config, tid: nat, nt: nat): nat
    requires c.WarpsX() > 0
  {
    Flat2(Flat2(WarpIdx(c, tid), nt, c.NTiles()), BCol(Lane(c, tid)), 8)
  }

  /** a_tile_idx*16 + row_idx is a row of the BLOCK_M-tall tile. */
  lemma ATileRowBound(c: Config, n: Pos, tid: nat, m: nat, e: nat)
    requires WorkingValid(c, n) && IsM16N8K16(c) && tid < c.threads && m < c.MTiles() && e < 8
    ensures c.WarpsX() > 0 && ATileRow(c, tid, m, e) < c.blockM
  {
    ATileInRange(c, n, tid, m);
    AFragmentBounds(Lane(c, tid), e);
    var tile := Flat2(WarpIdy(c, tid), m, c.MTiles());
    Flat2Bound(tile, ARow(Lane(c, tid), e), c.blockM / 16, 16);
    DivExact(c.blockM, 16);
  }

  /** b_tile_idx*8 + col_idx is a column of the BLOCK_N-wide tile. */
  lemma BTileColBound(c: Config, n: Pos, tid: nat, nt: nat)
    requires WorkingValid(c, n) && IsM16N8K16(c) && tid < c.threads && nt < c.NTiles()
    ensures c.WarpsX() > 0 && BTileCol(c, tid, nt) < c.blockN
  {
    BTileInRange(c, n, tid, nt);
    BFragmentBounds(Lane(c, tid), 0);
    Flat2Bound(Flat2(WarpIdx(c, tid), nt, c.NTiles()), BCol(Lane(c, tid)), c.blockN / 8, 8);
    DivExact(c.blockN, 8);
  }

  /** The A rows and the B columns the tensor-core step of tile (m, nt)
      consumes lie in the 16-row and 8-column bands of the block tile its
      accumulators are stored to: a_tile_idx is out_row // 16 and
      b_tile_idx is out_col // 8, for every fragment element e and every
      accumulator element e2. */
  lemma OperandBandsMatchStore(blk: Block, tid: nat, m: nat, nt: nat, e: nat, e2: nat)
    requires BlockOk(blk) && tid < blk.c.threads && m < blk.c.MTiles() && nt < blk.c.NTiles()
    requires e < 8 && e2 < 4
    ensures blk.c.WarpsX() > 0
    ensures ATileRow(blk.c, tid, m, e) / 16 == Flat2(WarpIdy(blk.c, tid), m, blk.c.MTiles())
    ensures EpilogueCell(blk.c, Slot(tid, m, nt, e2)).row / 16 == Flat2(WarpIdy(blk.c, tid), m, blk.c.MTiles())
    ensures BTileCol(blk.c, tid, nt) / 8 == Flat2(WarpIdx(blk.c, tid), nt, blk.c.NTiles())
    ensures EpilogueCell(blk.c, Slot(tid, m, nt, e2)).col / 8 == Flat2(WarpIdx(blk.c, tid), nt, blk.c.NTiles())
  {
    var c := blk.c;
    BlockCorrected(blk);
    EpilogueFacts(c, blk.n);
    var lane := Lane(c, tid);
    assert lane < 32;
    AFragmentBounds(lane, e);
    BFragmentBounds(lane, 0);
    CFragmentRoundTrip(lane, e2);
    SameBand(WarpIdy(c, tid), m, ARow(lane, e), CRow(lane, e2), c.MTiles(), 16, c.WarpTileM());
    SameBand(WarpIdx(c, tid), nt, BCol(lane), CCol(lane, e2), c.NTiles(), 8, c.warpTileN);
  }

  /** Global row of A: blockY*BLOCK_M + a_tile_idx*16 + row_idx. */
  function AGlobalRow(blk: Block, tid: nat, m: nat, e: nat): nat
    requires blk.c.WarpsX() > 0
  {
    Flat2(blk.blockY, ATileRow(blk.c, tid, m, e), blk.c.blockM)
  }

  /** Global column of A (the reduction index): g*16 + col_idx. */
  function AGlobalCol(blk: Block, tid: nat, g: nat, e: nat): nat
  {
    Flat2(g, ACol(Lane(blk.c, tid), e), 16)
  }

  /** Global row of B (the reduction index): g*16 + row_idx. */
  function BGlobalRow(blk: Block, tid: nat, g: nat, e: nat): nat
  {
    Flat2(g, BRow(Lane(blk.c, tid), e), 16)
  }

  /** Global column of B: blockX*BLOCK_N + b_tile_idx*8 + col_idx. */
  function BGlobalCol(blk: Block, tid: nat, nt: nat): nat
    requires blk.c.WarpsX() > 0
  {
    Flat2(blk.blockX, BTileCol(blk.c, tid, nt), blk.c.blockN)
  }

  /** The A cell behind a fragment element is inside the N x N matrix. */
  lemma AGlobalBound(blk: Block, tid: nat, g: nat, m: nat, e: nat)
    requires BlockOk(blk) && tid < blk.c.threads && g < blk.n / 16 && m < blk.c.MTiles() && e < 8
    ensures blk.c.WarpsX() > 0
    ensures Flat2(AGlobalRow(blk, tid, m, e), AGlobalCol(blk, tid, g, e), blk.n) < blk.n * blk.n
  {
    BlockFacts(blk);
    ATileRowBound(blk.c, blk.n, tid, m, e);
    AFragmentBounds(Lane(blk.c, tid), e);
    InTiledRange(blk.n, blk.c.blockM, blk.blockY, ATileRow(blk.c, tid, m, e));
    InTiledRange(blk.n, 16, g, ACol(Lane(blk.c, tid), e));
    Flat2Bound(AGlobalRow(blk, tid, m, e), AGlobalCol(blk, tid, g, e), blk.n, blk.n);
  }

  /** The B cell behind a fragment element is inside the N x N matrix. */
  lemma BGlobalBound(blk: Block, tid: nat, g: nat, nt: nat, e: nat)
    requires BlockOk(blk) && tid < blk.c.threads && g < blk.n / 16 && nt < blk.c.NTiles() && e < 4
    ensures blk.c.WarpsX() > 0
    ensures Flat2(BGlobalRow(blk, tid, g, e), BGlobalCol(blk, tid, nt), blk.n) < blk.n * blk.n
  {
    BlockFacts(blk);
    BTileColBound(blk.c, blk.n, tid, nt);
    BFragmentBounds(Lane(blk.c, tid), e);
    InTiledRange(blk.n, 16, g, BRow(Lane(blk.c, tid), e));
    InTiledRange(blk.n, blk.c.blockN, blk.blockX, BTileCol(blk.c, tid, nt));
    Flat2Bound(BGlobalRow(blk, tid, g, e), BGlobalCol(blk, tid, nt), blk.n, blk.n);
  }

  /** The global cell of A behind element e of the A fragment of k-chunk g
      of the reduction and M tile m. */
  function AGlobal<H, F>(t: Thread<H, F>, g: nat, m: nat, e: nat): (f: nat)
    requires ThreadOk(t) && g < t.blk.n / 16 && m < t.blk.c.MTiles() && e < 8
    ensures f < |t.a|
  {
    AGlobalBound(t.blk, t.tid, g, m, e);
    Flat2(AGlobalRow(t.blk, t.tid, m, e), AGlobalCol(t.blk, t.tid, g, e), t.blk.n)
  }

  /** The global cell of B behind element e of the B fragment of k-chunk g
      and N tile nt. */
  function BGlobal<H, F>(t: Thread<H, F>, g: nat, nt: nat, e: nat): (f: nat)
    requires ThreadOk(t) && g < t.blk.n / 16 && nt < t.blk.c.NTiles() && e < 4
    ensures f < |t.b|
  {
    BGlobalBound(t.blk, t.tid, g, nt, e);
    Flat2(BGlobalRow(t.blk, t.tid, g, e), BGlobalCol(t.blk, t.tid, nt), t.blk.n)
  }

  /** The A fragment of k-chunk g and M tile m, read from global A. */
  function AFragSpec<H, F>(t: Thread<H, F>, g: nat, m: nat): (frag: seq<H>)
    requires ThreadOk(t) && g < t.blk.n / 16 && m < t.blk.c.MTiles()
    ensures |frag| == 8
  {
    seq(8, e requires 0 <= e < 8 => t.a[AGlobal(t, g, m, e)])
  }

  /** The B fragment of k-chunk g and N tile nt, read from global B. */
  function BFragSpec<H, F>(t: Thread<H, F>, g: nat, nt: nat): (frag: seq<H>)
    requires ThreadOk(t) && g < t.blk.n / 16 && nt < t.blk.c.NTiles()
    ensures |frag| == 4
  {
    seq(4, e requires 0 <= e < 4 => t.b[BGlobal(t, g, nt, e)])
  }

  /** The accumulators of tile (m, nt) after the first g k-chunks of the
      reduction: zero, then one tensor-core step per k-chunk on the
      fragments of that chunk. */
  function Acc<H, F>(t: Thread<H, F>, g: nat, m: nat, nt: nat): Vec4<F>
    requires ThreadOk(t) && g <= t.blk.n / 16 && m < t.blk.c.MTiles() && nt < t.blk.c.NTiles()
    decreases g
  {
    if g == 0 then Vec4(t.zero, t.zero, t.zero, t.zero)
    else t.mma(AFragSpec(t, g - 1, m), BFragSpec(t, g - 1, nt), Acc(t, g - 1, m, nt))
  }

  // ---------------------------------------------------------------------
  // Shared memory gives the reference fragments
  // ---------------------------------------------------------------------

  /** One element: after As is staged for outer iteration kt, the As cell
      holding element e of the A fragment of k-chunk kc holds the global A
      cell of reduction chunk kt*KChunks + kc. */
  lemma AElemFromStaged<H, F>(t: Thread<H, F>, aS: seq<H>, kt: nat, kc: nat, m: nat, e: nat)
    requires ThreadOk(t) && kt < KTiles(t.blk) && kc < KChunks(t.blk.c) && m < t.blk.c.MTiles() && e < 8
    requires StagedA(t.blk.c, t.blk.n, t.blk.blockY, kt, t.a, aS)
    ensures t.blk.c.WarpsX() > 0 && GlobalChunk(t.blk.c, kt, kc) < t.blk.n / 16
    ensures ASharedIndex(t.blk.c, t.tid, kc, m, e) < |aS|
    ensures aS[ASharedIndex(t.blk.c, t.tid, kc, m, e)] == t.a[AGlobal(t, GlobalChunk(t.blk.c, kt, kc), m, e)]
  {
    var c, n := t.blk.c, t.blk.n;
    GlobalChunkFacts(t.blk, kt, kc);
    var g := GlobalChunk(c, kt, kc);
    var lane := Lane(c, t.tid);
    AFragmentBounds(lane, e);
    ATileRowBound(c, n, t.tid, m, e);
    var r, k := ATileRow(c, t.tid, m, e), Flat2(kc, ACol(lane, e), 16);
    Flat2Bound(kc, ACol(lane, e), KChunks(c), 16);
    assert ASharedIndex(c, t.tid, kc, m, e) == Flat2(k, r, c.blockM);
    Flat2Nest(kt, kc, ACol(lane, e), KChunks(c), 16);
    assert aS[Flat2(k, r, c.blockM)]
        == t.a[Flat2(Flat2(t.blk.blockY, r, c.blockM), Flat2(kt, k, c.blockK), n)];
  }

  /** One element of the B fragment, as above. */
  lemma BElemFromStaged<H, F>(t: Thread<H, F>, bS: seq<H>, kt: nat, kc: nat, nt: nat, e: nat)
    requires ThreadOk(t) && kt < KTiles(t.blk) && kc < KChunks(t.blk.c) && nt < t.blk.c.NTiles() && e < 4
    requires StagedB(t.blk.c, t.blk.n, t.blk.blockX, kt, t.b, bS)
    ensures t.blk.c.WarpsX() > 0 && GlobalChunk(t.blk.c, kt, kc) < t.blk.n / 16
    ensures BSharedIndex(t.blk.c, t.tid, kc, nt, e) < |bS|
    ensures bS[BSharedIndex(t.blk.c, t.tid, kc, nt, e)] == t.b[BGlobal(t, GlobalChunk(t.blk.c, kt, kc), nt, e)]
  {
    var c, n := t.blk.c, t.blk.n;
    GlobalChunkFacts(t.blk, kt, kc);
    var g := GlobalChunk(c, kt, kc);
    var lane := Lane(c, t.tid);
    BFragmentBounds(lane, e);
    BTileColBound(c, n, t.tid, nt);
    var k, x := Flat2(kc, BRow(lane, e), 16), BTileCol(c, t.tid, nt);
    Flat2Bound(kc, BRow(lane, e), KChunks(c), 16);
    assert BSharedIndex(c, t.tid, kc, nt, e) == Flat2(k, x, c.blockN);
    Flat2Nest(kt, kc, BRow(lane, e), KChunks(c), 16);
    assert bS[Flat2(k, x, c.blockN)]
        == t.b[Flat2(Flat2(kt, k, c.blockK), Flat2(t.blk.blockX, x, c.blockN), n)];
  }

  /** After As is staged for outer iteration kt, the A fragment a thread
      loads from As for k-chunk kc is the A fragment of reduction chunk
      kt*KChunks + kc read straight from global A. */
  lemma AFragFromStaged<H, F>(t: Thread<H, F>, aS: seq<H>, kt: nat, kc: nat, m: nat, frag: seq<H>)
    requires ThreadOk(t) && kt < KTiles(t.blk) && kc < KChunks(t.blk.c) && m < t.blk.c.MTiles()
    requires StagedA(t.blk.c, t.blk.n, t.blk.blockY, kt, t.a, aS)
    requires t.blk.c.WarpsX() > 0 && |frag| == 8
    requires forall e | 0 <= e < 8 ::
      ASharedIndex(t.blk.c, t.tid, kc, m, e) < |aS| && frag[e] == aS[ASharedIndex(t.blk.c, t.tid, kc, m, e)]
    ensures GlobalChunk(t.blk.c, kt, kc) < t.blk.n / 16
    ensures frag == AFragSpec(t, GlobalChunk(t.blk.c, kt, kc), m)
  {
    GlobalChunkFacts(t.blk, kt, kc);
    var spec := AFragSpec(t, GlobalChunk(t.blk.c, kt, kc), m);
    forall e | 0 <= e < 8
      ensures frag[e] == spec[e]
    {
      AElemFromStaged(t, aS, kt, kc, m, e);
    }
  }

  /** The B analogue: the B fragment loaded from Bs for k-chunk kc is the B
      fragment of reduction chunk kt*KChunks + kc read from global B. */
  lemma BFragFromStaged<H, F>(t: Thread<H, F>, bS: seq<H>, kt: nat, kc: nat, nt: nat, frag: seq<H>)
    requires ThreadOk(t) && kt < KTiles(t.blk) && kc < KChunks(t.blk.c) && nt < t.blk.c.NTiles()
    requires StagedB(t.blk.c, t.blk.n, t.blk.blockX, kt, t.b, bS)
    requires t.blk.c.WarpsX() > 0 && |frag| == 4
    requires forall e | 0 <= e < 4 ::
      BSharedIndex(t.blk.c, t.tid, kc, nt, e) < |bS| && frag[e] == bS[BSharedIndex(t.blk.c, t.tid, kc, nt, e)]
    ensures GlobalChunk(t.blk.c, kt, kc) < t.blk.n / 16
    ensures frag == BFragSpec(t, GlobalChunk(t.blk.c, kt, kc), nt)
  {
    GlobalChunkFacts(t.blk, kt, kc);
    var spec := BFragSpec(t, GlobalChunk(t.blk.c, kt, kc), nt);
    forall e | 0 <= e < 4
      ensures frag[e] == spec[e]
    {
      BElemFromStaged(t, bS, kt, kc, nt, e);
    }
  }

  // ---------------------------------------------------------------------
  // The accumulators during one k-chunk
  // ---------------------------------------------------------------------

  lemma PackUnpack<F>(v: Vec4<F>)
    ensures Pack(Unpack(v)) == v
  {
  }

  /** Register r of c_regs as the reference has it after g reduction
      chunks: element r % 4 of tile (r // 4 // N_TILES, r // 4 % N_TILES). */
  function ExpectedAt<H, F>(t: Thread<H, F>, g: nat, r: nat): F
    requires ThreadOk(t) && g <= t.blk.n / 16 && r < t.blk.c.MTiles() * t.blk.c.NTiles() * 4
  {
    var mt, nts := t.blk.c.MTiles(), t.blk.c.NTiles();
    OffsetJoin(mt, nts, r);
    DivIsNat(r, 4);
    var q: nat := r / 4;
    DivIsNat(q, nts);
    var m: nat, nt: nat := q / nts, q % nts;
    Unpack(Acc(t, g, m, nt))[r % 4]
  }

  /** The whole of c_regs as the reference has it after g reduction
      chunks. */
  function Expected<H, F>(t: Thread<H, F>, g: nat): (regs: seq<F>)
    requires ThreadOk(t) && g <= t.blk.n / 16
    ensures |regs| == t.blk.c.MTiles() * t.blk.c.NTiles() * 4
  {
    var size := t.blk.c.MTiles() * t.blk.c.NTiles() * 4;
    seq(size, r requires 0 <= r < size => ExpectedAt(t, g, r))
  }

  /** Element e of tile (m, nt) of the reference register file is element
      e of the reference accumulators of that tile. */
  lemma ExpectedSlot<H, F>(t: Thread<H, F>, g: nat, m: nat, nt: nat, e: nat)
    requires ThreadOk(t) && g <= t.blk.n / 16 && m < t.blk.c.MTiles() && nt < t.blk.c.NTiles() && e < 4
    ensures Offset(t.blk.c.NTiles(), m, nt, e) < |Expected(t, g)|
    ensures Expected(t, g)[Offset(t.blk.c.NTiles(), m, nt, e)] == Unpack(Acc(t, g, m, nt))[e]
  {
    OffsetSplit(t.blk.c.MTiles(), t.blk.c.NTiles(), m, nt, e);
  }

  /** Every tile of c_regs holds the reference accumulators after the first
      g reduction chunks. */
  ghost predicate Accumulated<H, F>(t: Thread<H, F>, contents: seq<F>, g: nat)
    requires ThreadOk(t)
  {
    g <= t.blk.n / 16 && contents == Expected(t, g)
  }

  /** Part way through reduction chunk g: the tiles before tile number
      `done` (row-major) already hold the accumulators after g + 1 chunks,
      the others those after g chunks. */
  ghost predicate Partly<H, F>(t: Thread<H, F>, contents: seq<F>, g: nat, done: nat)
    requires ThreadOk(t)
  {
    var mt, nts := t.blk.c.MTiles(), t.blk.c.NTiles();
    g < t.blk.n / 16 && |contents| == mt * nts * 4
    && forall m: nat, nt: nat | m < mt && nt < nts ::
      Offset(nts, m, nt, 0) + 4 <= |contents|
      && TileOf(contents, nts, m, nt) == Unpack(Acc(t, if Flat2(m, nt, nts) < done then g + 1 else g, m, nt))
  }

  /** Before the first tile of a chunk nothing of that chunk is done. */
  lemma PartlyStart<H, F>(t: Thread<H, F>, contents: seq<F>, g: nat)
    requires ThreadOk(t) && g < t.blk.n / 16 && Accumulated(t, contents, g)
    ensures Partly(t, contents, g, 0)
  {
    var mt, nts := t.blk.c.MTiles(), t.blk.c.NTiles();
    forall m: nat, nt: nat | m < mt && nt < nts
      ensures Offset(nts, m, nt, 0) + 4 <= |contents|
      ensures TileOf(contents, nts, m, nt) == Unpack(Acc(t, g, m, nt))
    {
      TileInRange(mt, nts, m, nt);
      forall e | 0 <= e < 4
        ensures TileOf(contents, nts, m, nt)[e] == Unpack(Acc(t, g, m, nt))[e]
      {
        ExpectedSlot(t, g, m, nt, e);
      }
    }
  }

  /** After the last tile of a chunk every tile is one chunk further. */
  lemma PartlyEnd<H, F>(t: Thread<H, F>, contents: seq<F>, g: nat)
    requires ThreadOk(t) && Partly(t, contents, g, t.blk.c.MTiles() * t.blk.c.NTiles())
    ensures Accumulated(t, contents, g + 1)
  {
    var mt, nts := t.blk.c.MTiles(), t.blk.c.NTiles();
    var want := Expected(t, g + 1);
    forall r | 0 <= r < |contents|
      ensures contents[r] == want[r]
    {
      OffsetJoin(mt, nts, r);
      var m, nt, e := r / 4 / nts, r / 4 % nts, r % 4;
      Flat2Bound(m, nt, mt, nts);
      assert TileOf(contents, nts, m, nt)[e] == contents[r];
    }
  }

  /** One tile of the reference, read back from the spliced contents. */
  lemma PartlyTile<H, F>(t: Thread<H, F>, before: seq<F>, g: nat, m: nat, nt: nat, out: seq<F>, m': nat, nt': nat)
    requires ThreadOk(t) && Partly(t, before, g, Flat2(m, nt, t.blk.c.NTiles()))
    requires m < t.blk.c.MTiles() && nt < t.blk.c.NTiles() && m' < t.blk.c.MTiles() && nt' < t.blk.c.NTiles()
    requires out == Unpack(Acc(t, g + 1, m, nt))
    ensures Offset(t.blk.c.NTiles(), m, nt, 0) + 4 <= |before|
    ensures var after := Splice(before, Offset(t.blk.c.NTiles(), m, nt, 0), out);
      Offset(t.blk.c.NTiles(), m', nt', 0) + 4 <= |after|
      && TileOf(after, t.blk.c.NTiles(), m', nt')
         == Unpack(Acc(t, if Flat2(m', nt', t.blk.c.NTiles()) < Flat2(m, nt, t.blk.c.NTiles()) + 1 then g + 1 else g, m', nt'))
  {
    var mt, nts := t.blk.c.MTiles(), t.blk.c.NTiles();
    SpliceTile(before, mt, nts, m, nt, out, m', nt');
    if Flat2(m', nt', nts) == Flat2(m, nt, nts) {
      Flat2Split(m, nt, nts);
      Flat2Split(m', nt', nts);
    }
  }

  /** One tensor-core step on tile (m, nt), fed the reference fragments of
      chunk g and the tile's accumulators after g chunks, moves the tile to
      its accumulators after g + 1 chunks and leaves the other tiles. */
  lemma PartlyStep<H, F>(t: Thread<H, F>, before: seq<F>, g: nat, m: nat, nt: nat)
    requires ThreadOk(t) && m < t.blk.c.MTiles() && nt < t.blk.c.NTiles()
    requires Partly(t, before, g, Flat2(m, nt, t.blk.c.NTiles()))
    ensures Offset(t.blk.c.NTiles(), m, nt, 0) + 4 <= |before|
    ensures TileOf(before, t.blk.c.NTiles(), m, nt) == Unpack(Acc(t, g, m, nt))
    ensures Partly(t, Splice(before, Offset(t.blk.c.NTiles(), m, nt, 0), Unpack(Acc(t, g + 1, m, nt))),
                   g, Flat2(m, nt, t.blk.c.NTiles()) + 1)
  {
    var mt, nts := t.blk.c.MTiles(), t.blk.c.NTiles();
    var out := Unpack(Acc(t, g + 1, m, nt));
    var after := Splice(before, Offset(nts, m, nt, 0), out);
    forall m': nat, nt': nat | m' < mt && nt' < nts
      ensures Offset(nts, m', nt', 0) + 4 <= |after|
      ensures TileOf(after, nts, m', nt')
        == Unpack(Acc(t, if Flat2(m', nt', nts) < Flat2(m, nt, nts) + 1 then g + 1 else g, m', nt'))
    {
      PartlyTile(t, before, g, m, nt, out, m', nt');
    }
  }

  /** As and Bs hold the A and B tiles of outer iteration kt. */
  ghost predicate TilesStaged<H, F>(t: Thread<H, F>, kt: nat, aS: seq<H>, bS: seq<H>)
  {
    ThreadOk(t) && kt < KTiles(t.blk)
    && |aS| == t.blk.c.blockK * t.blk.c.blockM && |bS| == t.blk.c.blockK * t.blk.c.blockN
    && StagedA(t.blk.c, t.blk.n, t.blk.blockY, kt, t.a, aS)
    && StagedB(t.blk.c, t.blk.n, t.blk.blockX, kt, t.b, bS)
  }

  /** c_regs has the (M_TILES, N_TILES, 4) shape of the plan. */
  ghost predicate BankFits<F(0)>(c: Config, bank: AccumulatorBank<F>)
  {
    bank.Valid() && bank.mTiles == c.MTiles() && bank.nTiles == c.NTiles()
  }

  /** One more chunk of the reference for one tile. */
  lemma AccStep<H, F>(t: Thread<H, F>, g: nat, m: nat, nt: nat)
    requires ThreadOk(t) && g < t.blk.n / 16 && m < t.blk.c.MTiles() && nt < t.blk.c.NTiles()
    ensures Acc(t, g + 1, m, nt) == t.mma(AFragSpec(t, g, m), BFragSpec(t, g, nt), Acc(t, g, m, nt))
  {
  }

  /** The tensor-core step on tile (m, nt) and the stores of its four
      results into c_regs[m, nt, :] (lines 197-208).  Fed the reference
      fragments of chunk g, it moves that tile one chunk further and
      leaves the others. */
  method MmaTile<H, F(0)>(t: Thread<H, F>, bank: AccumulatorBank<F>, ghost g: nat, m: nat, nt: nat,
                          aFrag: seq<H>, bFrag: seq<H>)
    requires ThreadOk(t) && m < t.blk.c.MTiles() && nt < t.blk.c.NTiles()
    requires bank.Valid() && bank.mTiles == t.blk.c.MTiles() && bank.nTiles == t.blk.c.NTiles()
    requires g < t.blk.n / 16 && aFrag == AFragSpec(t, g, m) && bFrag == BFragSpec(t, g, nt)
    requires Partly(t, bank.regs[..], g, Flat2(m, nt, t.blk.c.NTiles()))
    modifies bank.regs
    ensures Partly(t, bank.regs[..], g, Flat2(m, nt, t.blk.c.NTiles()) + 1)
  {
    ghost var before := bank.regs[..];
    PartlyStep(t, before, g, m, nt);
    AccStep(t, g, m, nt);
    PackUnpack(Acc(t, g, m, nt));
    var accIn := Pack(bank.Tile(m, nt));
    assert accIn == Acc(t, g, m, nt);
    var out := Unpack(t.mma(aFrag, bFrag, accIn));
    assert out == Unpack(Acc(t, g + 1, m, nt));
    bank.Update(m, nt, out);
  }

  /** The body of the n_tile loop (lines 179-208): load the B fragment of
      N tile nt for k-chunk kc and run MmaTile with the A fragment of the
      current M tile. */
  method ComputeTile<H, F(0)>(t: Thread<H, F>, bS: array<H>, bank: AccumulatorBank<F>,
                              kt: nat, kc: nat, m: nat, nt: nat, aFrag: seq<H>)
    requires ThreadOk(t) && kt < KTiles(t.blk) && kc < KChunks(t.blk.c)
    requires m < t.blk.c.MTiles() && nt < t.blk.c.NTiles()
    requires bS.Length == t.blk.c.blockK * t.blk.c.blockN
    requires StagedB(t.blk.c, t.blk.n, t.blk.blockX, kt, t.b, bS[..])
    requires bank.Valid() && bank.mTiles == t.blk.c.MTiles() && bank.nTiles == t.blk.c.NTiles()
    requires GlobalChunk(t.blk.c, kt, kc) < t.blk.n / 16 && aFrag == AFragSpec(t, GlobalChunk(t.blk.c, kt, kc), m)
    requires Partly(t, bank.regs[..], GlobalChunk(t.blk.c, kt, kc), Flat2(m, nt, t.blk.c.NTiles()))
    modifies bank.regs
    ensures Partly(t, bank.regs[..], GlobalChunk(t.blk.c, kt, kc), Flat2(m, nt + 1, t.blk.c.NTiles()))
  {
    var bFrag := LoadBFragment(t.blk.c, t.blk.n, bS, t.tid, kc, nt);
    BFragFromStaged(t, bS[..], kt, kc, nt, bFrag);
    MmaTile(t, bank, GlobalChunk(t.blk.c, kt, kc), m, nt, aFrag, bFrag);
    assert Flat2(m, nt + 1, t.blk.c.NTiles()) == Flat2(m, nt, t.blk.c.NTiles()) + 1;
  }

  /** The body of the m_tile loop (lines 161-208) for k-chunk kc of outer
      iteration kt: load the A fragment of M tile m, then for every N tile
      load its B fragment and run MmaTile.  On staged tiles this moves the
      tiles of row m one chunk further, issuing their tensor-core steps in
      the order RowSteps lists. */
  method ComputeRow<H, F(0)>(t: Thread<H, F>, aS: array<H>, bS: array<H>, bank: AccumulatorBank<F>,
                             kt: nat, kc: nat, m: nat)
    returns (row: seq<Event>)
    requires TilesStaged(t, kt, aS[..], bS[..]) && kc < KChunks(t.blk.c) && m < t.blk.c.MTiles() && BankFits(t.blk.c, bank)
    requires bank.regs as object != aS && bank.regs as object != bS
    requires Partly(t, bank.regs[..], GlobalChunk(t.blk.c, kt, kc), Flat2(m, 0, t.blk.c.NTiles()))
    modifies bank.regs
    ensures Partly(t, bank.regs[..], GlobalChunk(t.blk.c, kt, kc), Flat2(m + 1, 0, t.blk.c.NTiles()))
    ensures row == RowSteps(kt, kc, m, t.blk.c.NTiles())
  {
    var c, n := t.blk.c, t.blk.n;
    var nts := c.NTiles();
    ghost var g := GlobalChunk(c, kt, kc);
    var aFrag := LoadAFragment(c, n, aS, t.tid, kc, m);
    AFragFromStaged(t, aS[..], kt, kc, m, aFrag);
    row := [];
    var nt := 0;
    while nt < nts
      invariant nt <= nts && bank.Valid()
      invariant Partly(t, bank.regs[..], g, Flat2(m, nt, nts))
      invariant row == RowSteps(kt, kc, m, nt)
    {
      ComputeTile(t, bS, bank, kt, kc, m, nt, aFrag);
      row := row + [Mma(kt, kc, m, nt)];
      nt := nt + 1;
    }
    Flat2NextRow(m, nts);
  }

  /** k-chunk kc of outer iteration kt (lines 152-210, one thread): the
      m_tile loop.  On staged tiles this advances every tile of c_regs
      from the reference accumulators after GlobalChunk(kt, kc) chunks to
      those after one more, issuing the tensor-core steps in the order
      ChunkSteps lists. */
  method ComputeChunk<H, F(0)>(t: Thread<H, F>, aS: array<H>, bS: array<H>, bank: AccumulatorBank<F>, kt: nat, kc: nat)
    returns (steps: seq<Event>)
    requires TilesStaged(t, kt, aS[..], bS[..]) && kc < KChunks(t.blk.c) && BankFits(t.blk.c, bank)
    requires bank.regs as object != aS && bank.regs as object != bS
    requires Accumulated(t, bank.regs[..], GlobalChunk(t.blk.c, kt, kc))
    modifies bank.regs
    ensures Accumulated(t, bank.regs[..], GlobalChunk(t.blk.c, kt, kc) + 1)
    ensures steps == ChunkSteps(kt, kc, t.blk.c.MTiles(), t.blk.c.NTiles())
  {
    GlobalChunkFacts(t.blk, kt, kc);
    PartlyStart(t, bank.regs[..], GlobalChunk(t.blk.c, kt, kc));
    steps := ComputeRows(t, aS, bS, bank, kt, kc);
    PartlyEnd(t, bank.regs[..], GlobalChunk(t.blk.c, kt, kc));
  }

  /** The m_tile loop of k-chunk kc: row after row of tiles moves one
      reduction chunk on. */
  method ComputeRows<H, F(0)>(t: Thread<H, F>, aS: array<H>, bS: array<H>, bank: AccumulatorBank<F>, kt: nat, kc: nat)
    returns (steps: seq<Event>)
    requires TilesStaged(t, kt, aS[..], bS[..]) && kc < KChunks(t.blk.c) && BankFits(t.blk.c, bank)
    requires bank.regs as object != aS && bank.regs as object != bS
    requires Partly(t, bank.regs[..], GlobalChunk(t.blk.c, kt, kc), 0)
    modifies bank.regs
    ensures Partly(t, bank.regs[..], GlobalChunk(t.blk.c, kt, kc), t.blk.c.MTiles() * t.blk.c.NTiles())
    ensures steps == ChunkSteps(kt, kc, t.blk.c.MTiles(), t.blk.c.NTiles())
  {
    var mt, nts := t.blk.c.MTiles(), t.blk.c.NTiles();
    steps := [];
    var m := 0;
    while m < mt
      invariant m <= mt && bank.Valid()
      invariant Partly(t, bank.regs[..], GlobalChunk(t.blk.c, kt, kc), Flat2(m, 0, nts))
      invariant steps == ChunkSteps(kt, kc, m, nts)
    {
      var row := ComputeRow(t, aS, bS, bank, kt, kc, m);
      steps := steps + row;
      m := m + 1;
    }
  }

  // ---------------------------------------------------------------------
  // One outer iteration
  // ---------------------------------------------------------------------

  /** The loop extents of a block. */
  function BlockNest(blk: Block): (nest: Nest)
    ensures nest.kTiles == KTiles(blk) && nest.kChunks == KChunks(blk.c)
    ensures nest.mTiles == blk.c.MTiles() && nest.nTiles == blk.c.NTiles()
  {
    Nest(KTiles(blk), KChunks(blk.c), blk.c.MTiles(), blk.c.NTiles())
  }

  /** The k_chunk loop of outer iteration kt (lines 152-210) on staged
      tiles: every k-chunk in turn.  It moves c_regs from the reference
      accumulators after kt * KChunks reduction chunks to those after
      (kt + 1) * KChunks and issues the tensor-core steps ChunkLoop lists. */
  method ComputeStaged<H, F(0)>(t: Thread<H, F>, aS: array<H>, bS: array<H>, bank: AccumulatorBank<F>, kt: nat)
    returns (body: seq<Event>)
    requires TilesStaged(t, kt, aS[..], bS[..]) && BankFits(t.blk.c, bank)
    requires bank.regs as object != aS && bank.regs as object != bS
    requires Accumulated(t, bank.regs[..], GlobalChunk(t.blk.c, kt, 0))
    modifies bank.regs
    ensures Accumulated(t, bank.regs[..], GlobalChunk(t.blk.c, kt + 1, 0))
    ensures body == ChunkLoop(kt, KChunks(t.blk.c), t.blk.c.MTiles(), t.blk.c.NTiles())
  {
    var c := t.blk.c;
    body := [];
    var kc := 0;
    while kc < KChunks(c)
      invariant kc <= KChunks(c) && BankFits(c, bank)
      invariant Accumulated(t, bank.regs[..], GlobalChunk(c, kt, kc))
      invariant body == ChunkLoop(kt, kc, c.MTiles(), c.NTiles())
    {
      var steps := ComputeChunk(t, aS, bS, bank, kt, kc);
      assert GlobalChunk(c, kt, kc + 1) == GlobalChunk(c, kt, kc) + 1;
      ChunkLoopNext(kt, kc, c.MTiles(), c.NTiles());
      body := body + steps;
      kc := kc + 1;
    }
    Flat2NextRow(kt, KChunks(c));
  }

  /** Outer iteration kt (lines 95-101 and 152-210): stage the A and B
      tiles of the iteration into As and Bs, wait at the barrier, run the
      k_chunk loop, wait at the closing barrier.  It moves c_regs from the
      reference accumulators after kt * KChunks reduction chunks to those
      after (kt + 1) * KChunks, and emits the events Iteration lists. */
  method RunIteration<H, F(0)>(t: Thread<H, F>, a: array<H>, b: array<H>, aS: array<H>, bS: array<H>,
                               bank: AccumulatorBank<F>, kt: nat)
    returns (events: seq<Event>)
    requires ThreadOk(t) && kt < KTiles(t.blk)
    requires a[..] == t.a && b[..] == t.b
    requires aS.Length == t.blk.c.blockM * t.blk.c.blockK && bS.Length == t.blk.c.blockK * t.blk.c.blockN
    requires a != aS && a != bS && b != aS && b != bS && aS != bS
    requires bank.Valid() && bank.mTiles == t.blk.c.MTiles() && bank.nTiles == t.blk.c.NTiles()
    requires bank.regs as object != aS && bank.regs as object != bS
    requires Accumulated(t, bank.regs[..], GlobalChunk(t.blk.c, kt, 0))
    modifies aS, bS, bank.regs
    ensures Accumulated(t, bank.regs[..], GlobalChunk(t.blk.c, kt + 1, 0))
    ensures events == Iteration(BlockNest(t.blk), kt)
  {
    var c, n := t.blk.c, t.blk.n;
    BlockFacts(t.blk);
    StageA(c, n, t.blk.blockY, kt, a, aS);
    StageB(c, n, t.blk.blockX, kt, b, bS);
    assert c.blockM * c.blockK == c.blockK * c.blockM;
    var body := ComputeStaged(t, aS, bS, bank, kt);
    events := [Stage(kt), Barrier] + body + [Barrier];
  }
}
