/** A configuration that the working plan's checks accept but whose
    epilogue leaves part of the output tile unwritten and stores tiles
    computed from other A rows than the ones they are stored to. */
module Findings {
  import opened Layout
  import opened Tiling
  import opened Lanes
  import opened Fragments
  import opened BlockRun

  /** BLOCK_M = 96 with the working file's other constants. */
  const UncoveredPlan := Config(32, 96, 128, 32, 256, 16, 8, 16, 4, 4, 64)

  /** N = 384, a multiple of BLOCK_M, BLOCK_N and BLOCK_K. */
  const UncoveredN: Pos := 384

  /** Every check of the working file passes for UncoveredPlan: the two
      grid reshapes, the warp-grid asserts and line 108 all hold, with
      WARP_TILE_M = 128*96 // 8 // 64 = 24 and M_TILES = 24 // 16 = 1. */
  lemma UncoveredPlanPassesChecks()
    ensures WorkingValid(UncoveredPlan, UncoveredN)
    ensures FirstFailure(UncoveredPlan, UncoveredN, WorkingChecks) == None
    ensures UncoveredPlan.WarpTileM() == 24 && UncoveredPlan.MTiles() == 1
    ensures UncoveredPlan.WarpsX() == 2 && UncoveredPlan.WarpsY() == 4
  {
    var c, n := UncoveredPlan, UncoveredN;
    assert c.WarpsPerBlock() == 8;
    assert c.WarpTileM() == 24;
    assert c.WarpsX() == 2 && c.WarpsY() == 4;
    ReshapesHold(c, n);
    assert Holds(c, n, LastWarpRowIsGridRow);
    forall i | 0 <= i < |WorkingChecks|
      ensures Holds(c, n, WorkingChecks[i])
    {
    }
  }

  /** The corrected checks reject UncoveredPlan: WARP_TILE_M = 24 is not
      a multiple of TC_M = 16. */
  lemma UncoveredPlanRejectedWhenCorrected()
    ensures !Holds(UncoveredPlan, UncoveredN, WarpTileMDivTcM)
    ensures !CorrectedValid(UncoveredPlan, UncoveredN)
  {
    var c, n := UncoveredPlan, UncoveredN;
    assert c.WarpTileM() == 24;
    assert CorrectedWorkingChecks[|WorkingChecks|] == WarpTileMDivTcM;
  }

  /** The as-written epilogue of UncoveredPlan stores no register to cell
      (16, 0) of the block tile, though that cell lies inside the
      BLOCK_M x BLOCK_N tile the block owns: the one 16-row tensor-core tile
      of each 24-row warp tile leaves rows 16..23 of every warp tile unwritten. */
  lemma EpilogueMissesRows()
    ensures UncoveredPlan.WarpsX() > 0 && IsM16N8K16(UncoveredPlan)
    ensures WorkingValid(UncoveredPlan, UncoveredN)
    ensures IsCell(UncoveredPlan, Cell(16, 0))
    ensures forall s | IsSlot(UncoveredPlan, s) :: EpilogueCell(UncoveredPlan, s) != Cell(16, 0)
  {
    UncoveredPlanPassesChecks();
    forall s | IsSlot(UncoveredPlan, s)
      ensures EpilogueCell(UncoveredPlan, s) != Cell(16, 0)
    {
      SlotMissesRow16(s);
    }
  }

  /** No register of UncoveredPlan is stored to row 16 of the block tile:
      rows of warp row 0 stay below 16 and the others start at 24. */
  lemma SlotMissesRow16(s: Slot)
    requires IsSlot(UncoveredPlan, s)
    ensures UncoveredPlan.WarpsX() > 0 && EpilogueCell(UncoveredPlan, s).row != 16
  {
    var c := UncoveredPlan;
    assert c.WarpsX() == 2 && c.WarpTileM() == 24 && c.MTiles() == 1;
    var lane := Lane(c, s.tid);
    CFragmentRoundTrip(lane, s.elem);
    var wy := WarpIdy(c, s.tid);
    if wy >= 1 {
      MulMonotone(1, wy, 24);
    }
  }

  /** In UncoveredPlan every thread outside warp row 0 computes each tile
      from A rows other than the ones it stores that tile to: with
      M_TILES = 1 the A operand of tile 0 starts at row 16*warpIdy
      (a_tile_idx*16) and its store at row 24*warpIdy (warpIdy*WARP_TILE_M),
      so the C values of warp rows 1..3 come from the wrong A rows. */
  lemma OperandRowsMismatch(tid: nat, e: nat, e2: nat)
    requires tid < UncoveredPlan.threads && e < 8 && e2 < 4
    ensures UncoveredPlan.WarpsX() > 0
    ensures ATileRow(UncoveredPlan, tid, 0, e) == 16 * WarpIdy(UncoveredPlan, tid) + ARow(Lane(UncoveredPlan, tid), e)
    ensures EpilogueCell(UncoveredPlan, Slot(tid, 0, 0, e2)).row
         == 24 * WarpIdy(UncoveredPlan, tid) + CRow(Lane(UncoveredPlan, tid), e2)
    ensures WarpIdy(UncoveredPlan, tid) >= 1 ==>
      ATileRow(UncoveredPlan, tid, 0, e) - ARow(Lane(UncoveredPlan, tid), e)
      != EpilogueCell(UncoveredPlan, Slot(tid, 0, 0, e2)).row - CRow(Lane(UncoveredPlan, tid), e2)
  {
    var c := UncoveredPlan;
    assert c.WarpsX() == 2 && c.WarpTileM() == 24 && c.MTiles() == 1;
  }

  /** The warp grid of UncoveredPlan: two warp columns of 64 and 24-row
      warp tiles holding one 16-row tensor-core tile. */
  lemma UncoveredShape()
    ensures UncoveredPlan.WarpsX() == 2 && UncoveredPlan.warpSize == 32
    ensures UncoveredPlan.WarpTileM() == 24 && UncoveredPlan.MTiles() == 1
  {
  }

  /** Thread 64*wy of UncoveredPlan sits in warp row wy, at lane 0. */
  lemma ThreadOfWarpRow(wy: nat)
    requires wy < 4
    ensures UncoveredPlan.WarpsX() > 0 && 64 * wy < UncoveredPlan.threads
    ensures WarpIdy(UncoveredPlan, 64 * wy) == wy && Lane(UncoveredPlan, 64 * wy) == 0
  {
    var c := UncoveredPlan;
    assert c.WarpsX() == 2 && c.warpSize == 32;
    Flat2Split(2 * wy, 0, 32);
    Flat2Split(wy, 0, 2);
  }

  /** Lane 0 holds row 0 of the A fragment and of the C fragment in
      element 0. */
  lemma LaneZeroRows()
    ensures ARow(0, 0) == 0 && CRow(0, 0) == 0
  {
  }

  /** The row offsets of tile 0 of warp row wy, row 0, in the two
      nestings. */
  lemma WarpRowOffsets(wy: nat)
    ensures Flat2(Flat2(wy, 0, 1), 0, 16) == 16 * wy && Flat2(wy, Flat2(0, 0, 16), 24) == 24 * wy
  {
  }

  /** Thread 64*wy computes tile 0 from A rows starting at 16*wy: with
      M_TILES = 1, a_tile_idx is warpIdy. */
  lemma OperandRowOfWarpRow(wy: nat)
    requires wy < 4
    ensures UncoveredPlan.WarpsX() > 0
    ensures ATileRow(UncoveredPlan, 64 * wy, 0, 0) == 16 * wy
  {
    UncoveredShape();
    ThreadOfWarpRow(wy);
    LaneZeroRows();
    WarpRowOffsets(wy);
  }

  /** Thread 64*wy stores tile 0 from row 24*wy on: warpIdy*WARP_TILE_M. */
  lemma StoreRowOfWarpRow(wy: nat)
    requires wy < 4
    ensures UncoveredPlan.WarpsX() > 0
    ensures EpilogueCell(UncoveredPlan, Slot(64 * wy, 0, 0, 0)).row == 24 * wy
  {
    UncoveredShape();
    ThreadOfWarpRow(wy);
    LaneZeroRows();
    WarpRowOffsets(wy);
  }

  /** The threads that show it: thread 64*wy, in warp row wy, warp column
      0 and lane 0, reads A row 16*wy for tile 0 and stores that tile at
      row 24*wy; for thread 64 that is row 16 against row 24, for thread
      128 band 2 (row 32) against band 3 (row 48). */
  lemma OperandRowsMismatchAt(wy: nat)
    requires 1 <= wy < 4
    ensures UncoveredPlan.WarpsX() > 0 && 64 * wy < UncoveredPlan.threads
    ensures WarpIdy(UncoveredPlan, 64 * wy) == wy && Lane(UncoveredPlan, 64 * wy) == 0
    ensures ATileRow(UncoveredPlan, 64 * wy, 0, 0) == 16 * wy
    ensures EpilogueCell(UncoveredPlan, Slot(64 * wy, 0, 0, 0)).row == 24 * wy
    ensures ATileRow(UncoveredPlan, 64 * wy, 0, 0) != EpilogueCell(UncoveredPlan, Slot(64 * wy, 0, 0, 0)).row
  {
    ThreadOfWarpRow(wy);
    OperandRowOfWarpRow(wy);
    StoreRowOfWarpRow(wy);
  }
}
