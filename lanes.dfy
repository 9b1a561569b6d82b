/** How a thread id splits into warp coordinates, lane and lane bits. */
module Lanes {
  import opened Layout
  import opened Tiling

  /** warpIdx = (tid // WARP_SIZE) % WARPS_IN_BLOCK_X */
  function WarpIdx(c: Config, tid: nat): nat
    requires c.WarpsX() > 0
  {
    (tid / c.warpSize) % c.WarpsX()
  }

  /** warpIdy = (tid // WARP_SIZE) // WARPS_IN_BLOCK_X */
  function WarpIdy(c: Config, tid: nat): nat
    requires c.WarpsX() > 0
  {
    (tid / c.warpSize) / c.WarpsX()
  }

  /** lane = tid % WARP_SIZE */
  function Lane(c: Config, tid: nat): nat
  {
    tid % c.warpSize
  }

  /** The lane bits of the working plan: l0 = lane & 1, l1 = (lane >> 1) & 1,
      l2 = (lane >> 2) & 1, l3 = (lane >> 3) & 1 and l4 = lane >> 4 (not
      masked: it is a single bit only because a warp has 32 lanes). */
  function L0(lane: nat): nat { lane % 2 }
  function L1(lane: nat): nat { (lane / 2) % 2 }
  function L2(lane: nat): nat { (lane / 4) % 2 }
  function L3(lane: nat): nat { (lane / 8) % 2 }
  function L4(lane: nat): nat { lane / 16 }

  /** The thread id a (warp row, warp column, lane) triple names. */
  function ThreadOf(c: Config, warpY: nat, warpX: nat, lane: nat): nat
  {
    Flat2(Flat2(warpY, warpX, c.WarpsX()), lane, c.warpSize)
  }

  /** Every thread of a block has in-range warp coordinates and lane, and
      they give back its id: tid == (warpIdy*X + warpIdx)*WARP_SIZE + lane. */
  lemma ThreadDecomposition(c: Config, n: Pos, tid: nat)
    requires WorkingValid(c, n) && tid < c.threads
    ensures c.WarpsX() > 0
    ensures WarpIdx(c, tid) < c.WarpsX() && WarpIdy(c, tid) < c.WarpsY() && Lane(c, tid) < c.warpSize
    ensures ThreadOf(c, WarpIdy(c, tid), WarpIdx(c, tid), Lane(c, tid)) == tid
  {
    WorkingFacts(c, n);
    var w := tid / c.warpSize;
    Flat2Join(tid, c.WarpsPerBlock(), c.warpSize);
    Flat2Join(w, c.WarpsY(), c.WarpsX());
  }

  /** Conversely every (warp row, warp column, lane) in range is exactly one
      thread of the block, and that thread decomposes back into it. */
  lemma ThreadComposition(c: Config, n: Pos, warpY: nat, warpX: nat, lane: nat)
    requires WorkingValid(c, n)
    requires warpY < c.WarpsY() && warpX < c.WarpsX() && lane < c.warpSize
    ensures ThreadOf(c, warpY, warpX, lane) < c.threads
    ensures WarpIdy(c, ThreadOf(c, warpY, warpX, lane)) == warpY
    ensures WarpIdx(c, ThreadOf(c, warpY, warpX, lane)) == warpX
    ensures Lane(c, ThreadOf(c, warpY, warpX, lane)) == lane
  {
    WorkingFacts(c, n);
    var w := Flat2(warpY, warpX, c.WarpsX());
    Flat2Bound(warpY, warpX, c.WarpsY(), c.WarpsX());
    Flat2Bound(w, lane, c.WarpsPerBlock(), c.warpSize);
    Flat2Split(w, lane, c.warpSize);
    Flat2Split(warpY, warpX, c.WarpsX());
  }

  /** The warp-row assertion: the last thread sits in warp row
      WARPS_IN_BLOCK_Y - 1, so that row is reached. */
  lemma LastWarpRowReached(c: Config, n: Pos)
    requires WorkingValid(c, n)
    ensures c.WarpsX() > 0 && WarpIdy(c, c.threads - 1) == c.WarpsY() - 1
  {
    WorkingFacts(c, n);
  }

  /** For a 32-lane warp the five bits are each 0 or 1 and spell the lane:
      lane == l0 + 2*l1 + 4*l2 + 8*l3 + 16*l4. */
  lemma LaneBits(lane: nat)
    requires lane < 32
    ensures L0(lane) <= 1 && L1(lane) <= 1 && L2(lane) <= 1 && L3(lane) <= 1 && L4(lane) <= 1
    ensures lane == L0(lane) + 2 * L1(lane) + 4 * L2(lane) + 8 * L3(lane) + 16 * L4(lane)
  {
    assert lane < 8 || 8 <= lane < 16 || 16 <= lane < 24 || 24 <= lane < 32;
  }

  /** Reassembling a lane from its own bits gives the lane back. */
  lemma LaneOfBits(lane: nat)
    requires lane < 32
    ensures L0(lane) <= 1 && L1(lane) <= 1 && L2(lane) <= 1 && L3(lane) <= 1 && L4(lane) <= 1
    ensures LaneFromBits(L0(lane), L1(lane), L2(lane), L3(lane), L4(lane)) == lane
  {
    LaneBits(lane);
  }

  /** The four binary digits of a number below 16 spell it:
      x == 8*(x/8) + 4*((x/4)%2) + 2*((x/2)%2) + x%2. */
  lemma NibbleDigits(x: nat)
    requires x < 16
    ensures x / 8 <= 1 && (x / 4) % 2 <= 1 && (x / 2) % 2 <= 1 && x % 2 <= 1
    ensures x == 8 * (x / 8) + 4 * ((x / 4) % 2) + 2 * ((x / 2) % 2) + x % 2
  {
    assert x < 8 || 8 <= x < 16;
  }

  /** The three binary digits of a number below 8 spell it. */
  lemma TripleDigits(x: nat)
    requires x < 8
    ensures x / 4 <= 1 && (x / 2) % 2 <= 1 && x % 2 <= 1
    ensures x == 4 * (x / 4) + 2 * ((x / 2) % 2) + x % 2
  {
    assert x < 4 || 4 <= x < 8;
  }

  /** Reading the digits back off a number written in binary. */
  lemma DigitsOfNibble(x: nat, d3: nat, d2: nat, d1: nat, d0: nat)
    requires d3 <= 1 && d2 <= 1 && d1 <= 1 && d0 <= 1
    requires x == 8 * d3 + 4 * d2 + 2 * d1 + d0
    ensures x < 16 && x / 8 == d3 && (x / 4) % 2 == d2 && (x / 2) % 2 == d1 && x % 2 == d0
  {
    assert d3 == 0 || d3 == 1;
    assert d2 == 0 || d2 == 1;
  }

  /** The lane whose bits are (b0, b1, b2, b3, b4). */
  function LaneFromBits(b0: nat, b1: nat, b2: nat, b3: nat, b4: nat): (lane: nat)
    requires b0 <= 1 && b1 <= 1 && b2 <= 1 && b3 <= 1 && b4 <= 1
    ensures lane < 32
    ensures L0(lane) == b0 && L1(lane) == b1 && L2(lane) == b2 && L3(lane) == b3 && L4(lane) == b4
  {
    b0 + 2 * b1 + 4 * b2 + 8 * b3 + 16 * b4
  }

  // ---------------------------------------------------------------------
  // The draft plan's lane grid
  // ---------------------------------------------------------------------

  /** laneIdx = (tid % WARP_SIZE) % LANES_PER_WARP_X */
  function LaneIdx(c: Config, lanesX: Pos, tid: nat): nat
  {
    (tid % c.warpSize) % lanesX
  }

  /** laneIdy = (tid % WARP_SIZE) // LANES_PER_WARP_X */
  function LaneIdy(c: Config, lanesX: Pos, tid: nat): nat
  {
    (tid % c.warpSize) / lanesX
  }

  /** In the draft plan every thread has warp column < 1, warp row < 4,
      lane column < 8 and lane row < 4, and its lane is laneIdy*8 + laneIdx. */
  lemma DraftThreadDecomposition(tid: nat)
    requires tid < DraftPlan.threads
    ensures DraftPlan.WarpsX() == 1 && DraftPlan.WarpsY() == 4
    ensures WarpIdx(DraftPlan, tid) < DraftPlan.WarpsX() && WarpIdy(DraftPlan, tid) < DraftPlan.WarpsY()
    ensures LaneIdx(DraftPlan, DraftLanesX, tid) < DraftLanesX
    ensures LaneIdy(DraftPlan, DraftLanesX, tid) < DraftLanesY
    ensures Lane(DraftPlan, tid)
      == Flat2(LaneIdy(DraftPlan, DraftLanesX, tid), LaneIdx(DraftPlan, DraftLanesX, tid), DraftLanesX)
  {
    DraftShippedValid();
  }
}
