/** The per-lane fragment layouts of the working plan's m16n8k16 tensor-core
    step: which cell of the 16x16 A tile, the 16x8 B tile and the 16x8 C
    tile each (lane, element) pair holds, the inverse of each map, where the
    reads land in shared memory, and where the epilogue writes. */
module Fragments {
  import opened Layout
  import opened Tiling
  import opened Lanes

  /** The geometry the fragment maps are written for: 32-lane warps and a
      16x8x16 tensor-core tile (the maps hard-code 8 A elements, 4 B and 4 C
      elements per lane and five lane bits). */
  predicate IsM16N8K16(c: Config)
  {
    c.warpSize == 32 && c.tcM == 16 && c.tcN == 8 && c.tcK == 16
  }

  /** One fragment register: element `elem` of lane `lane`. */
  datatype Register = Register(lane: nat, elem: nat)

  // ---------------------------------------------------------------------
  // A fragment: 16 (M) x 16 (K), 8 elements per lane
  // ---------------------------------------------------------------------

  /** row_idx = (l4*8 + l3*4 + l2*2) + elem % 2 */
  function ARow(lane: nat, elem: nat): nat
  {
    (L4(lane) * 8 + L3(lane) * 4 + L2(lane) * 2) + elem % 2
  }

  /** col_idx = (elem // 4)*8 + l1*4 + l0*2 + (elem % 4) // 2 */
  function ACol(lane: nat, elem: nat): nat
  {
    (elem / 4) * 8 + L1(lane) * 4 + L0(lane) * 2 + (elem % 4) / 2
  }

  /** The element index c3*4 + c0*2 + r0 of the A holder, read back. */
  lemma AElemBits(c3: nat, c0: nat, r0: nat)
    requires c3 <= 1 && c0 <= 1 && r0 <= 1
    ensures var e := c3 * 4 + c0 * 2 + r0;
      e < 8 && e / 4 == c3 && e % 2 == r0 && (e % 4) / 2 == c0
  {
    assert c3 == 0 || c3 == 1;
  }

  /** The A map on binary digits: row digits (r3 r2 r1) are lane bits
      (l4 l3 l2) and r0 the low element bit; column digits (c2 c1) are lane
      bits (l1 l0), c3 the high element bit and c0 the middle one. */
  lemma AFromDigits(r3: nat, r2: nat, r1: nat, r0: nat, c3: nat, c2: nat, c1: nat, c0: nat)
    requires r3 <= 1 && r2 <= 1 && r1 <= 1 && r0 <= 1 && c3 <= 1 && c2 <= 1 && c1 <= 1 && c0 <= 1
    ensures ARow(LaneFromBits(c1, c2, r1, r2, r3), c3 * 4 + c0 * 2 + r0) == 8 * r3 + 4 * r2 + 2 * r1 + r0
    ensures ACol(LaneFromBits(c1, c2, r1, r2, r3), c3 * 4 + c0 * 2 + r0) == 8 * c3 + 4 * c2 + 2 * c1 + c0
  {
    AElemBits(c3, c0, r0);
  }

  /** The (lane, element) that holds cell (row, col) of the A tile. */
  function AHolder(row: nat, col: nat): (h: Register)
    requires row < 16 && col < 16
    ensures h.lane < 32 && h.elem < 8
    ensures ARow(h.lane, h.elem) == row && ACol(h.lane, h.elem) == col
  {
    NibbleDigits(row);
    NibbleDigits(col);
    AFromDigits(row / 8, (row / 4) % 2, (row / 2) % 2, row % 2, col / 8, (col / 4) % 2, (col / 2) % 2, col % 2);
    AElemBits(col / 8, col % 2, row % 2);
    Register(LaneFromBits((col / 2) % 2, (col / 4) % 2, (row / 2) % 2, (row / 4) % 2, row / 8),
             (col / 8) * 4 + (col % 2) * 2 + row % 2)
  }

  /** An A element index from its three bits, as the A map splits it. */
  lemma AElemDigits(elem: nat)
    requires elem < 8
    ensures elem / 4 <= 1 && (elem % 4) / 2 <= 1 && elem % 2 <= 1
    ensures (elem / 4) * 4 + ((elem % 4) / 2) * 2 + elem % 2 == elem
  {
    assert elem < 4 || 4 <= elem < 8;
  }

  /** AHolder on a cell given by its binary digits. */
  lemma AHolderOfDigits(row: nat, col: nat, r3: nat, r2: nat, r1: nat, r0: nat, c3: nat, c2: nat, c1: nat, c0: nat)
    requires r3 <= 1 && r2 <= 1 && r1 <= 1 && r0 <= 1 && c3 <= 1 && c2 <= 1 && c1 <= 1 && c0 <= 1
    requires row == 8 * r3 + 4 * r2 + 2 * r1 + r0 && col == 8 * c3 + 4 * c2 + 2 * c1 + c0
    ensures row < 16 && col < 16
    ensures AHolder(row, col) == Register(LaneFromBits(c1, c2, r1, r2, r3), c3 * 4 + c0 * 2 + r0)
  {
    DigitsOfNibble(row, r3, r2, r1, r0);
    DigitsOfNibble(col, c3, c2, c1, c0);
  }

  /** Distinct (lane, element) pairs read distinct A cells: the map is
      undone by AHolder, so with AHolder's contract it is a bijection from
      32 lanes x 8 elements onto the 16x16 tile. */
  lemma AFragmentInjective(lane: nat, elem: nat)
    requires lane < 32 && elem < 8
    ensures ARow(lane, elem) < 16 && ACol(lane, elem) < 16
    ensures AHolder(ARow(lane, elem), ACol(lane, elem)) == Register(lane, elem)
  {
    LaneOfBits(lane);
    AElemDigits(elem);
    AHolderOfDigits(ARow(lane, elem), ACol(lane, elem), L4(lane), L3(lane), L2(lane), elem % 2,
                    elem / 4, L1(lane), L0(lane), (elem % 4) / 2);
  }

  /** The A fragment of a lane stays inside the 16x16 tile. */
  lemma AFragmentBounds(lane: nat, elem: nat)
    requires lane < 32 && elem < 8
    ensures ARow(lane, elem) < 16 && ACol(lane, elem) < 16
  {
    LaneOfBits(lane);
    AElemDigits(elem);
  }

  // ---------------------------------------------------------------------
  // B fragment: 16 (K) x 8 (N), 4 elements per lane
  // ---------------------------------------------------------------------

  /** row_idx = elem*4 + l1*2 + l0 */
  function BRow(lane: nat, elem: nat): nat
  {
    elem * 4 + L1(lane) * 2 + L0(lane)
  }

  /** col_idx = l4*4 + l3*2 + l2 */
  function BCol(lane: nat): nat
  {
    L4(lane) * 4 + L3(lane) * 2 + L2(lane)
  }

  /** The B map on binary digits: row digits (r3 r2) are the element, (r1 r0)
      lane bits l1 l0; column digits (c2 c1 c0) are lane bits l4 l3 l2. */
  lemma BFromDigits(r3: nat, r2: nat, r1: nat, r0: nat, c2: nat, c1: nat, c0: nat)
    requires r3 <= 1 && r2 <= 1 && r1 <= 1 && r0 <= 1 && c2 <= 1 && c1 <= 1 && c0 <= 1
    ensures BRow(LaneFromBits(r0, r1, c0, c1, c2), 2 * r3 + r2) == 8 * r3 + 4 * r2 + 2 * r1 + r0
    ensures BCol(LaneFromBits(r0, r1, c0, c1, c2)) == 4 * c2 + 2 * c1 + c0
  {
  }

  /** The (lane, element) that holds cell (row, col) of the B tile. */
  function BHolder(row: nat, col: nat): (h: Register)
    requires row < 16 && col < 8
    ensures h.lane < 32 && h.elem < 4
    ensures BRow(h.lane, h.elem) == row && BCol(h.lane) == col
  {
    NibbleDigits(row);
    TripleDigits(col);
    DivModUnique(row, 4, 2 * (row / 8) + (row / 4) % 2, 2 * ((row / 2) % 2) + row % 2);
    BFromDigits(row / 8, (row / 4) % 2, (row / 2) % 2, row % 2, col / 4, (col / 2) % 2, col % 2);
    Register(LaneFromBits(row % 2, (row / 2) % 2, col % 2, (col / 2) % 2, col / 4), row / 4)
  }

  /** BHolder on a cell given by its binary digits. */
  lemma BHolderOfDigits(row: nat, col: nat, r3: nat, r2: nat, r1: nat, r0: nat, c2: nat, c1: nat, c0: nat)
    requires r3 <= 1 && r2 <= 1 && r1 <= 1 && r0 <= 1 && c2 <= 1 && c1 <= 1 && c0 <= 1
    requires row == 8 * r3 + 4 * r2 + 2 * r1 + r0 && col == 4 * c2 + 2 * c1 + c0
    ensures row < 16 && col < 8
    ensures BHolder(row, col) == Register(LaneFromBits(r0, r1, c0, c1, c2), 2 * r3 + r2)
  {
    DigitsOfNibble(row, r3, r2, r1, r0);
    DigitsOfNibble(col, 0, c2, c1, c0);
    DivModUnique(row, 4, 2 * r3 + r2, 2 * r1 + r0);
    DivModUnique(col, 4, c2, 2 * c1 + c0);
  }

  /** The B map is undone by BHolder: a bijection from 32 lanes x 4 elements
      onto the 16x8 tile. */
  lemma BFragmentInjective(lane: nat, elem: nat)
    requires lane < 32 && elem < 4
    ensures BRow(lane, elem) < 16 && BCol(lane) < 8
    ensures BHolder(BRow(lane, elem), BCol(lane)) == Register(lane, elem)
  {
    LaneOfBits(lane);
    BHolderOfDigits(BRow(lane, elem), BCol(lane), elem / 2, elem % 2, L1(lane), L0(lane),
                    L4(lane), L3(lane), L2(lane));
  }

  /** The B fragment of a lane stays inside the 16x8 tile. */
  lemma BFragmentBounds(lane: nat, elem: nat)
    requires lane < 32 && elem < 4
    ensures BRow(lane, elem) < 16 && BCol(lane) < 8
  {
    LaneOfBits(lane);
  }

  // ---------------------------------------------------------------------
  // C fragment (accumulator / output): 16 (M) x 8 (N), 4 elements per lane
  // ---------------------------------------------------------------------

  /** row_idx = (l4*8 + l3*4 + l2*2) + elem // 2 */
  function CRow(lane: nat, elem: nat): nat
  {
    (L4(lane) * 8 + L3(lane) * 4 + L2(lane) * 2) + elem / 2
  }

  /** col_idx = l1*4 + l0*2 + elem % 2 */
  function CCol(lane: nat, elem: nat): nat
  {
    L1(lane) * 4 + L0(lane) * 2 + elem % 2
  }

  /** The C map on binary digits: row digits (r3 r2 r1) are lane bits
      l4 l3 l2 and r0 the high element bit; column digits (c2 c1) are lane
      bits l1 l0 and c0 the low element bit. */
  lemma CFromDigits(r3: nat, r2: nat, r1: nat, r0: nat, c2: nat, c1: nat, c0: nat)
    requires r3 <= 1 && r2 <= 1 && r1 <= 1 && r0 <= 1 && c2 <= 1 && c1 <= 1 && c0 <= 1
    ensures CRow(LaneFromBits(c1, c2, r1, r2, r3), 2 * r0 + c0) == 8 * r3 + 4 * r2 + 2 * r1 + r0
    ensures CCol(LaneFromBits(c1, c2, r1, r2, r3), 2 * r0 + c0) == 4 * c2 + 2 * c1 + c0
  {
    DivModUnique(2 * r0 + c0, 2, r0, c0);
  }

  /** The (lane, element) whose accumulator is stored to cell (row, col) of
      the C tile. */
  function CHolder(row: nat, col: nat): (h: Register)
    requires row < 16 && col < 8
    ensures h.lane < 32 && h.elem < 4
    ensures CRow(h.lane, h.elem) == row && CCol(h.lane, h.elem) == col
  {
    NibbleDigits(row);
    TripleDigits(col);
    CFromDigits(row / 8, (row / 4) % 2, (row / 2) % 2, row % 2, col / 4, (col / 2) % 2, col % 2);
    Register(LaneFromBits((col / 2) % 2, col / 4, (row / 2) % 2, (row / 4) % 2, row / 8),
             (row % 2) * 2 + col % 2)
  }

  /** CHolder on a cell given by its binary digits. */
  lemma CHolderOfDigits(row: nat, col: nat, r3: nat, r2: nat, r1: nat, r0: nat, c2: nat, c1: nat, c0: nat)
    requires r3 <= 1 && r2 <= 1 && r1 <= 1 && r0 <= 1 && c2 <= 1 && c1 <= 1 && c0 <= 1
    requires row == 8 * r3 + 4 * r2 + 2 * r1 + r0 && col == 4 * c2 + 2 * c1 + c0
    ensures row < 16 && col < 8
    ensures CHolder(row, col) == Register(LaneFromBits(c1, c2, r1, r2, r3), 2 * r0 + c0)
  {
    DigitsOfNibble(row, r3, r2, r1, r0);
    DigitsOfNibble(col, 0, c2, c1, c0);
    DivModUnique(col, 4, c2, 2 * c1 + c0);
  }

  /** Store then load round-trips: the register (lane, elem) is stored to
      one cell of the 16x8 tile, and that cell's holder is (lane, elem). */
  lemma CFragmentRoundTrip(lane: nat, elem: nat)
    requires lane < 32 && elem < 4
    ensures CRow(lane, elem) < 16 && CCol(lane, elem) < 8
    ensures CHolder(CRow(lane, elem), CCol(lane, elem)) == Register(lane, elem)
  {
    LaneOfBits(lane);
    CHolderOfDigits(CRow(lane, elem), CCol(lane, elem), L4(lane), L3(lane), L2(lane), elem / 2,
                    L1(lane), L0(lane), elem % 2);
  }

  // ---------------------------------------------------------------------
  // Where the fragment reads land in shared memory
  // ---------------------------------------------------------------------

  /** The warp tile of warp w along one axis holds `tiles` tensor-core
      tiles of `tile`; the tile index w*tiles + t is below total // tile
      whenever the tiles fit the warp tile and the warp tiles fill `total`. */
  lemma TileIndexBound(w: nat, t: nat, warps: nat, tiles: nat, tile: Pos, warpTile: nat, total: nat)
    requires w < warps && t < tiles && tiles * tile <= warpTile && warps * warpTile == total
    ensures Flat2(w, t, tiles) < total / tile
  {
    Flat2Bound(w, t, warps, tiles);
    MulMonotone(Flat2(w, t, tiles) + 1, warps * tiles, tile);
    MulMonotone(tiles * tile, warpTile, warps);
    assert warps * tiles * tile == (tiles * tile) * warps;
    DivLowerBound(Flat2(w, t, tiles) + 1, tile, total);
  }

  lemma DivLowerBound(q: nat, d: Pos, x: nat)
    requires q * d <= x
    ensures q <= x / d
  {
    if q > x / d {
      MulMonotone(x / d + 1, q, d);
    }
  }

  /** What the source's checks give the tensor-core loop of a valid working
      configuration: the tiles of a warp fit inside its warp tile, and the
      warp tiles fill the block tile. */
  lemma WarpTileFacts(c: Config, n: Pos)
    requires WorkingValid(c, n) && IsM16N8K16(c)
    ensures c.WarpsX() > 0 && c.WarpTileM() > 0
    ensures c.blockK % 16 == 0 && c.blockM % 16 == 0 && c.blockN % 8 == 0
    ensures c.MTiles() * 16 <= c.WarpTileM() && c.NTiles() * 8 <= c.warpTileN
    ensures c.WarpsY() * c.WarpTileM() == c.blockM && c.WarpsX() * c.warpTileN == c.blockN
  {
    WorkingFacts(c, n);
    FloorMulLe(c.WarpTileM(), c.tcM);
    FloorMulLe(c.warpTileN, c.tcN);
  }

  /** a_tile_idx = warpIdy*M_TILES + m_tile names one of the BLOCK_M//TC_M
      row tiles of As, and b_tile_idx = warpIdx*N_TILES + n_tile one of the
      BLOCK_N//TC_N column tiles of Bs, for every thread and tile index. */
  lemma TileIndicesInBounds(c: Config, n: Pos, tid: nat, mTile: nat, nTile: nat)
    requires WorkingValid(c, n) && IsM16N8K16(c)
    requires tid < c.threads && mTile < c.MTiles() && nTile < c.NTiles()
    ensures c.WarpsX() > 0 && c.blockK % 16 == 0 && c.blockM % 16 == 0 && c.blockN % 8 == 0
    ensures Flat2(WarpIdy(c, tid), mTile, c.MTiles()) < c.blockM / 16
    ensures Flat2(WarpIdx(c, tid), nTile, c.NTiles()) < c.blockN / 8
  {
    WarpTileFacts(c, n);
    ThreadDecomposition(c, n, tid);
    TileIndexBound(WarpIdy(c, tid), mTile, c.WarpsY(), c.MTiles(), 16, c.WarpTileM(), c.blockM);
    TileIndexBound(WarpIdx(c, tid), nTile, c.WarpsX(), c.NTiles(), 8, c.warpTileN, c.blockN);
  }

  // ---------------------------------------------------------------------
  // The epilogue: every output cell of the block is written exactly once
  // ---------------------------------------------------------------------

  /** A cell of the BLOCK_M x BLOCK_N output tile of one block. */
  datatype Cell = Cell(row: nat, col: nat)

  /** One accumulator register of the block: element `elem` of c_regs tile
      (mTile, nTile) of thread `tid`. */
  datatype Slot = Slot(tid: nat, mTile: nat, nTile: nat, elem: nat)

  /** The block-tile cell the epilogue stores a register to:
      out_row = warpIdy*WARP_TILE_M + m_tile*TC_M + row_idx,
      out_col = warpIdx*WARP_TILE_N + n_tile*TC_N + col_idx. */
  function EpilogueCell(c: Config, s: Slot): Cell
    requires c.WarpsX() > 0
  {
    var lane := Lane(c, s.tid);
    Cell(Flat2(WarpIdy(c, s.tid), Flat2(s.mTile, CRow(lane, s.elem), 16), c.WarpTileM()),
         Flat2(WarpIdx(c, s.tid), Flat2(s.nTile, CCol(lane, s.elem), 8), c.warpTileN))
  }

  /** The register the epilogue stores to cell (row, col). */
  function EpilogueSource(c: Config, cell: Cell): Slot
    requires c.WarpTileM() > 0
  {
    var rm, cn := cell.row % c.WarpTileM(), cell.col % c.warpTileN;
    DivIsNat(cell.row, c.WarpTileM());
    DivIsNat(cell.col, c.warpTileN);
    var h := CHolder(rm % 16, cn % 8);
    Slot(ThreadOf(c, cell.row / c.WarpTileM(), cell.col / c.warpTileN, h.lane), rm / 16, cn / 8, h.elem)
  }

  /** The registers of a block's threads. */
  predicate IsSlot(c: Config, s: Slot)
  {
    s.tid < c.threads && s.mTile < c.MTiles() && s.nTile < c.NTiles() && s.elem < 4
  }

  /** The cells of a block's output tile. */
  predicate IsCell(c: Config, cell: Cell)
  {
    cell.row < c.blockM && cell.col < c.blockN
  }

  /** Under the corrected checks the tensor-core tiles of a warp fill its
      warp tile exactly and the warp tiles fill the block tile. */
  lemma EpilogueFacts(c: Config, n: Pos)
    requires CorrectedValid(c, n) && IsM16N8K16(c)
    ensures WorkingValid(c, n)
    ensures c.WarpsX() > 0 && c.WarpTileM() > 0
    ensures c.MTiles() * 16 == c.WarpTileM() && c.NTiles() * 8 == c.warpTileN
    ensures c.WarpsY() * c.WarpTileM() == c.blockM && c.WarpsX() * c.warpTileN == c.blockN
  {
    CorrectedFacts(c, n);
    WorkingFacts(c, n);
  }

  /** Each register is stored to an in-range cell whose source is that
      register: no two stores share a cell. */
  lemma EpilogueStoreInjective(c: Config, n: Pos, s: Slot)
    requires CorrectedValid(c, n) && IsM16N8K16(c) && IsSlot(c, s)
    ensures c.WarpsX() > 0 && c.WarpTileM() > 0
    ensures IsCell(c, EpilogueCell(c, s)) && EpilogueSource(c, EpilogueCell(c, s)) == s
  {
    EpilogueFacts(c, n);
    ThreadDecomposition(c, n, s.tid);
    var lane := Lane(c, s.tid);
    CFragmentRoundTrip(lane, s.elem);
    NestSplit(WarpIdy(c, s.tid), s.mTile, CRow(lane, s.elem), c.WarpsY(), c.MTiles(), 16, c.WarpTileM());
    NestSplit(WarpIdx(c, s.tid), s.nTile, CCol(lane, s.elem), c.WarpsX(), c.NTiles(), 8, c.warpTileN);
  }

  /** Every cell has an in-range source whose register the epilogue stores
      to it: no cell is missed. */
  lemma EpilogueStoreSurjective(c: Config, n: Pos, cell: Cell)
    requires CorrectedValid(c, n) && IsM16N8K16(c) && IsCell(c, cell)
    ensures c.WarpsX() > 0 && c.WarpTileM() > 0
    ensures IsSlot(c, EpilogueSource(c, cell)) && EpilogueCell(c, EpilogueSource(c, cell)) == cell
  {
    EpilogueFacts(c, n);
    NestJoin(cell.row, c.WarpsY(), c.MTiles(), 16, c.WarpTileM());
    NestJoin(cell.col, c.WarpsX(), c.NTiles(), 8, c.warpTileN);
    var rm, cn := cell.row % c.WarpTileM(), cell.col % c.warpTileN;
    DivIsNat(cell.row, c.WarpTileM());
    DivIsNat(cell.col, c.warpTileN);
    var h := CHolder(rm % 16, cn % 8);
    ThreadComposition(c, n, cell.row / c.WarpTileM(), cell.col / c.warpTileN, h.lane);
  }

  /** The epilogue writes every output cell of the block exactly once: the
      registers of the block's threads and the cells of its
      BLOCK_M x BLOCK_N tile are in one-to-one correspondence. */
  lemma EpilogueCoversBlock(c: Config, n: Pos)
    requires CorrectedValid(c, n) && IsM16N8K16(c)
    ensures c.WarpsX() > 0 && c.WarpTileM() > 0
    ensures forall s | IsSlot(c, s) :: IsCell(c, EpilogueCell(c, s)) && EpilogueSource(c, EpilogueCell(c, s)) == s
    ensures forall cell | IsCell(c, cell) :: IsSlot(c, EpilogueSource(c, cell)) && EpilogueCell(c, EpilogueSource(c, cell)) == cell
  {
    EpilogueFacts(c, n);
    forall s | IsSlot(c, s)
      ensures IsCell(c, EpilogueCell(c, s)) && EpilogueSource(c, EpilogueCell(c, s)) == s
    {
      EpilogueStoreInjective(c, n, s);
    }
    forall cell | IsCell(c, cell)
      ensures IsSlot(c, EpilogueSource(c, cell)) && EpilogueCell(c, EpilogueSource(c, cell)) == cell
    {
      EpilogueStoreSurjective(c, n, cell);
    }
  }
}
