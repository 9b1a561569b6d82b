/** The per-lane fragment loads of the working plan: for each tensor-core
    tile a lane appends 8 elements of As_tc (its A fragment) and 4 of Bs_tc
    (its B fragment), at the positions the fragment maps give. */
module Loads {
  import opened Layout
  import opened Tiling
  import opened Lanes
  import opened Fragments

  /** The As cell (k, m) holding element `elem` of the A fragment of thread
      tid for k-chunk kChunk and M tile mTile: k = kChunk*16 + col_idx,
      m = a_tile_idx*16 + row_idx with a_tile_idx = warpIdy*M_TILES + m_tile. */
  function ASharedIndex(c: Config, tid: nat, kChunk: nat, mTile: nat, elem: nat): nat
    requires c.WarpsX() > 0
  {
    ACell(c.blockM, kChunk, Flat2(WarpIdy(c, tid), mTile, c.MTiles()), Lane(c, tid), elem)
  }

  /** The Bs cell (k, n) holding element `elem` of the B fragment:
      k = kChunk*16 + row_idx, n = b_tile_idx*8 + col_idx with
      b_tile_idx = warpIdx*N_TILES + n_tile. */
  function BSharedIndex(c: Config, tid: nat, kChunk: nat, nTile: nat, elem: nat): nat
    requires c.WarpsX() > 0
  {
    BCell(c.blockN, kChunk, Flat2(WarpIdx(c, tid), nTile, c.NTiles()), Lane(c, tid), elem)
  }

  /** a_tile_idx names one of the BLOCK_M // 16 row tiles of As. */
  lemma ATileInRange(c: Config, n: Pos, tid: nat, mTile: nat)
    requires WorkingValid(c, n) && IsM16N8K16(c)
    requires tid < c.threads && mTile < c.MTiles()
    ensures c.WarpsX() > 0 && c.blockK % 16 == 0 && c.blockM % 16 == 0
    ensures Flat2(WarpIdy(c, tid), mTile, c.MTiles()) < c.blockM / 16
  {
    WarpTileFacts(c, n);
    ThreadDecomposition(c, n, tid);
    TileIndexBound(WarpIdy(c, tid), mTile, c.WarpsY(), c.MTiles(), 16, c.WarpTileM(), c.blockM);
  }

  /** b_tile_idx names one of the BLOCK_N // 8 column tiles of Bs. */
  lemma BTileInRange(c: Config, n: Pos, tid: nat, nTile: nat)
    requires WorkingValid(c, n) && IsM16N8K16(c)
    requires tid < c.threads && nTile < c.NTiles()
    ensures c.WarpsX() > 0 && c.blockK % 16 == 0 && c.blockN % 8 == 0
    ensures Flat2(WarpIdx(c, tid), nTile, c.NTiles()) < c.blockN / 8
  {
    WarpTileFacts(c, n);
    ThreadDecomposition(c, n, tid);
    TileIndexBound(WarpIdx(c, tid), nTile, c.WarpsX(), c.NTiles(), 8, c.warpTileN, c.blockN);
  }

  /** As cell (kChunk*16 + ACol(lane, e), aTile*16 + ARow(lane, e)) of a
      BLOCK_K x BLOCK_M tile: where element e of the lane's A fragment
      sits. */
  function ACell(blockM: nat, kChunk: nat, aTile: nat, lane: nat, e: nat): nat
  {
    Flat2(Flat2(kChunk, ACol(lane, e), 16), Flat2(aTile, ARow(lane, e), 16), blockM)
  }

  /** Bs cell (kChunk*16 + BRow(lane, e), bTile*8 + BCol(lane)). */
  function BCell(blockN: nat, kChunk: nat, bTile: nat, lane: nat, e: nat): nat
  {
    Flat2(Flat2(kChunk, BRow(lane, e), 16), Flat2(bTile, BCol(lane), 8), blockN)
  }

  /** The elem loop of lines 164-174 for one lane and one A tile: append
      As_tc[k_chunk, col_idx, a_tile_idx, row_idx] for elem in 0..8, where
      As_tc is the (BLOCK_K // 16, 16, BLOCK_M // 16, 16) view of the
      BLOCK_K x BLOCK_M tile. */
  method GatherA<H>(aS: array<H>, blockK: Pos, blockM: Pos, kChunk: nat, aTile: nat, lane: nat)
    returns (frag: seq<H>)
    requires blockK % 16 == 0 && blockM % 16 == 0
    requires kChunk < blockK / 16 && aTile < blockM / 16 && lane < 32
    requires aS.Length == blockK * blockM
    ensures |frag| == 8
    ensures forall e | 0 <= e < 8 ::
      ACell(blockM, kChunk, aTile, lane, e) < aS.Length && frag[e] == aS[ACell(blockM, kChunk, aTile, lane, e)]
  {
    frag := [];
    var elem := 0;
    while elem < 8
      invariant 0 <= elem <= 8 && |frag| == elem
      invariant forall e | 0 <= e < elem ::
        ACell(blockM, kChunk, aTile, lane, e) < aS.Length && frag[e] == aS[ACell(blockM, kChunk, aTile, lane, e)]
    {
      AFragmentBounds(lane, elem);
      var row, col := ARow(lane, elem), ACol(lane, elem);
      var f := TiledOffset(blockK, blockM, 16, 16, kChunk, col, aTile, row);
      frag := frag + [aS[f]];
      elem := elem + 1;
    }
  }

  /** The elem loop of lines 184-193 for one lane and one B tile: append
      Bs_tc[k_chunk, row_idx, b_tile_idx, col_idx] for elem in 0..4. */
  method GatherB<H>(bS: array<H>, blockK: Pos, blockN: Pos, kChunk: nat, bTile: nat, lane: nat)
    returns (frag: seq<H>)
    requires blockK % 16 == 0 && blockN % 8 == 0
    requires kChunk < blockK / 16 && bTile < blockN / 8 && lane < 32
    requires bS.Length == blockK * blockN
    ensures |frag| == 4
    ensures forall e | 0 <= e < 4 ::
      BCell(blockN, kChunk, bTile, lane, e) < bS.Length && frag[e] == bS[BCell(blockN, kChunk, bTile, lane, e)]
  {
    frag := [];
    var elem := 0;
    while elem < 4
      invariant 0 <= elem <= 4 && |frag| == elem
      invariant forall e | 0 <= e < elem ::
        BCell(blockN, kChunk, bTile, lane, e) < bS.Length && frag[e] == bS[BCell(blockN, kChunk, bTile, lane, e)]
    {
      BFragmentBounds(lane, elem);
      var row, col := BRow(lane, elem), BCol(lane);
      var f := TiledOffset(blockK, blockN, 16, 8, kChunk, row, bTile, col);
      frag := frag + [bS[f]];
      elem := elem + 1;
    }
  }

  /** The A fragment of thread tid for k-chunk kChunk and M tile mTile
      (lines 161-176): a_tile_idx = warpIdy*M_TILES + m_tile, then the elem
      loop.  Every element read lies inside the As tile. */
  method LoadAFragment<H>(c: Config, n: Pos, aS: array<H>, tid: nat, kChunk: nat, mTile: nat)
    returns (frag: seq<H>)
    requires WorkingValid(c, n) && IsM16N8K16(c)
    requires tid < c.threads && kChunk < c.blockK / 16 && mTile < c.MTiles()
    requires aS.Length == c.blockK * c.blockM
    ensures c.WarpsX() > 0 && |frag| == 8
    ensures forall e | 0 <= e < 8 ::
      ASharedIndex(c, tid, kChunk, mTile, e) < aS.Length && frag[e] == aS[ASharedIndex(c, tid, kChunk, mTile, e)]
  {
    ATileInRange(c, n, tid, mTile);
    var lane := Lane(c, tid);
    var aTile := Flat2(WarpIdy(c, tid), mTile, c.MTiles());
    frag := GatherA(aS, c.blockK, c.blockM, kChunk, aTile, lane);
    assert forall e :: ASharedIndex(c, tid, kChunk, mTile, e) == ACell(c.blockM, kChunk, aTile, lane, e);
  }

  /** The B fragment of thread tid for k-chunk kChunk and N tile nTile
      (lines 181-195): b_tile_idx = warpIdx*N_TILES + n_tile, then the elem
      loop. */
  method LoadBFragment<H>(c: Config, n: Pos, bS: array<H>, tid: nat, kChunk: nat, nTile: nat)
    returns (frag: seq<H>)
    requires WorkingValid(c, n) && IsM16N8K16(c)
    requires tid < c.threads && kChunk < c.blockK / 16 && nTile < c.NTiles()
    requires bS.Length == c.blockK * c.blockN
    ensures c.WarpsX() > 0 && |frag| == 4
    ensures forall e | 0 <= e < 4 ::
      BSharedIndex(c, tid, kChunk, nTile, e) < bS.Length && frag[e] == bS[BSharedIndex(c, tid, kChunk, nTile, e)]
  {
    BTileInRange(c, n, tid, nTile);
    var lane := Lane(c, tid);
    var bTile := Flat2(WarpIdx(c, tid), nTile, c.NTiles());
    frag := GatherB(bS, c.blockK, c.blockN, kChunk, bTile, lane);
    assert forall e :: BSharedIndex(c, tid, kChunk, nTile, e) == BCell(c.blockN, kChunk, bTile, lane, e);
  }
}
