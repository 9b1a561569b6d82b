/** The register-tile gather of the draft plan (nv_uop_matmul.py lines
    79-90): each thread copies, for one k of the shared tiles, TM-long runs
    of the As row and TN-long runs of the Bs row into its A and B register
    fragments, through
      As[k, :].reshape(WARPS_IN_BLOCK_Y, ITERS_PER_WARP_M, LANES_PER_WARP_Y, TM)[warpIdy, :, laneIdy, :]
      Bs[k, :].reshape(WARPS_IN_BLOCK_X, ITERS_PER_WARP_N, LANES_PER_WARP_X, TN)[warpIdx, :, laneIdx, :]
    Both reshapes are row-major, so a position of the As (Bs) row is a
    four-digit number in the mixed radix of the reshape. */
module DraftGather {
  import opened Layout
  import opened Tiling
  import opened Lanes

  /** A position in a gather reshape: warp coordinate, iteration, lane
      coordinate and element of the run. */
  datatype Gather = Gather(warp: nat, iter: nat, lane: nat, elem: nat)

  /** The position in the As row (a row of A's block tile) that reshape
      digits g name. */
  function AGatherCol(c: Config, lanesY: Pos, g: Gather): nat
  {
    Flat4(g.warp, g.iter, g.lane, g.elem, c.ItersM(lanesY), lanesY, c.tm)
  }

  /** The position in the Bs row (a column of B's block tile) that reshape
      digits g name. */
  function BGatherCol(c: Config, lanesX: Pos, g: Gather): nat
  {
    Flat4(g.warp, g.iter, g.lane, g.elem, c.ItersN(lanesX), lanesX, c.tn)
  }

  /** Digits g are inside the A reshape (WARPS_IN_BLOCK_Y, ITERS_PER_WARP_M,
      LANES_PER_WARP_Y, TM). */
  predicate InAShape(c: Config, lanesY: Pos, g: Gather)
  {
    c.WarpsX() > 0 && g.warp < c.WarpsY() && g.iter < c.ItersM(lanesY) && g.lane < lanesY && g.elem < c.tm
  }

  /** Digits g are inside the B reshape (WARPS_IN_BLOCK_X, ITERS_PER_WARP_N,
      LANES_PER_WARP_X, TN). */
  predicate InBShape(c: Config, lanesX: Pos, g: Gather)
  {
    g.warp < c.WarpsX() && g.iter < c.ItersN(lanesX) && g.lane < lanesX && g.elem < c.tn
  }

  /** The digits of position col of the As row. */
  function AGatherOf(c: Config, lanesY: Pos, col: nat): Gather
    requires c.ItersM(lanesY) > 0
  {
    var u := Unflat4(col, c.ItersM(lanesY), lanesY, c.tm);
    Gather(u.0, u.1, u.2, u.3)
  }

  /** The digits of position col of the Bs row. */
  function BGatherOf(c: Config, lanesX: Pos, col: nat): Gather
    requires c.ItersN(lanesX) > 0
  {
    var u := Unflat4(col, c.ItersN(lanesX), lanesX, c.tn);
    Gather(u.0, u.1, u.2, u.3)
  }

  /** The iteration counts of a plan that passes the draft checks are
      positive. */
  lemma ItersPositive(c: Config, n: Pos, lanesX: Pos, lanesY: Pos)
    requires DraftValid(c, n, lanesX, lanesY)
    ensures c.WarpsX() > 0 && c.ItersM(lanesY) > 0 && c.ItersN(lanesX) > 0
    ensures c.WarpsY() * c.ItersM(lanesY) * lanesY * c.tm == c.blockM
    ensures c.WarpsX() * c.ItersN(lanesX) * lanesX * c.tn == c.blockN
  {
    DraftFacts(c, n, lanesX, lanesY);
    assert c.WarpsX() * c.warpTileN == c.blockN;
  }

  /** The A gather is one-to-one: digits inside the reshape name a
      position of the As row, and that position gives the digits back. */
  lemma AGatherInjective(c: Config, n: Pos, lanesX: Pos, lanesY: Pos, g: Gather)
    requires DraftValid(c, n, lanesX, lanesY) && InAShape(c, lanesY, g)
    ensures c.ItersM(lanesY) > 0
    ensures AGatherCol(c, lanesY, g) < c.blockM && AGatherOf(c, lanesY, AGatherCol(c, lanesY, g)) == g
  {
    ItersPositive(c, n, lanesX, lanesY);
    Flat4Bound(g.warp, g.iter, g.lane, g.elem, c.WarpsY(), c.ItersM(lanesY), lanesY, c.tm);
    Flat4Split(g.warp, g.iter, g.lane, g.elem, c.ItersM(lanesY), lanesY, c.tm);
  }

  /** The A gather is onto: every position of the As row is named by
      digits inside the reshape. */
  lemma AGatherSurjective(c: Config, n: Pos, lanesX: Pos, lanesY: Pos, col: nat)
    requires DraftValid(c, n, lanesX, lanesY) && col < c.blockM
    ensures c.ItersM(lanesY) > 0
    ensures InAShape(c, lanesY, AGatherOf(c, lanesY, col)) && AGatherCol(c, lanesY, AGatherOf(c, lanesY, col)) == col
  {
    ItersPositive(c, n, lanesX, lanesY);
    Flat4Join(col, c.WarpsY(), c.ItersM(lanesY), lanesY, c.tm);
  }

  /** The B gather is one-to-one. */
  lemma BGatherInjective(c: Config, n: Pos, lanesX: Pos, lanesY: Pos, g: Gather)
    requires DraftValid(c, n, lanesX, lanesY) && InBShape(c, lanesX, g)
    ensures c.ItersN(lanesX) > 0
    ensures BGatherCol(c, lanesX, g) < c.blockN && BGatherOf(c, lanesX, BGatherCol(c, lanesX, g)) == g
  {
    ItersPositive(c, n, lanesX, lanesY);
    Flat4Bound(g.warp, g.iter, g.lane, g.elem, c.WarpsX(), c.ItersN(lanesX), lanesX, c.tn);
    Flat4Split(g.warp, g.iter, g.lane, g.elem, c.ItersN(lanesX), lanesX, c.tn);
  }

  /** The B gather is onto. */
  lemma BGatherSurjective(c: Config, n: Pos, lanesX: Pos, lanesY: Pos, col: nat)
    requires DraftValid(c, n, lanesX, lanesY) && col < c.blockN
    ensures c.ItersN(lanesX) > 0
    ensures InBShape(c, lanesX, BGatherOf(c, lanesX, col)) && BGatherCol(c, lanesX, BGatherOf(c, lanesX, col)) == col
  {
    ItersPositive(c, n, lanesX, lanesY);
    Flat4Join(col, c.WarpsX(), c.ItersN(lanesX), lanesX, c.tn);
  }

  // ---------------------------------------------------------------------
  // The fragments of one thread of the shipped draft plan
  // ---------------------------------------------------------------------

  /** The digits of element (it, t) of the A fragment of thread tid. */
  function AThreadGather(tid: nat, it: nat, t: nat): Gather
  {
    Gather(WarpIdy(DraftPlan, tid), it, LaneIdy(DraftPlan, DraftLanesX, tid), t)
  }

  /** The digits of element (it, t) of the B fragment of thread tid. */
  function BThreadGather(tid: nat, it: nat, t: nat): Gather
  {
    Gather(WarpIdx(DraftPlan, tid), it, LaneIdx(DraftPlan, DraftLanesX, tid), t)
  }

  /** A_frag of thread tid for row k of As (lines 85-86): an
      (ITERS_PER_WARP_M, TM) register tile, flattened row-major. */
  function AFragment<H>(tid: nat, k: nat, aS: seq<H>): (frag: seq<H>)
    requires tid < DraftPlan.threads && k < DraftPlan.blockK && |aS| == DraftPlan.blockK * DraftPlan.blockM
    ensures |frag| == DraftPlan.ItersM(DraftLanesY) * DraftPlan.tm
  {
    var size := DraftPlan.ItersM(DraftLanesY) * DraftPlan.tm;
    seq(size, f requires 0 <= f < size =>
      var col := AGatherCol(DraftPlan, DraftLanesY, AThreadGather(tid, f / DraftPlan.tm, f % DraftPlan.tm));
      AFragmentCell(tid, f / DraftPlan.tm, f % DraftPlan.tm);
      aS[Flat2(k, col, DraftPlan.blockM)])
  }

  /** B_frag of thread tid for row k of Bs (lines 89-90): an
      (ITERS_PER_WARP_N, TN) register tile, flattened row-major. */
  function BFragment<H>(tid: nat, k: nat, bS: seq<H>): (frag: seq<H>)
    requires tid < DraftPlan.threads && k < DraftPlan.blockK && |bS| == DraftPlan.blockK * DraftPlan.blockN
    ensures |frag| == DraftPlan.ItersN(DraftLanesX) * DraftPlan.tn
  {
    var size := DraftPlan.ItersN(DraftLanesX) * DraftPlan.tn;
    seq(size, f requires 0 <= f < size =>
      var col := BGatherCol(DraftPlan, DraftLanesX, BThreadGather(tid, f / DraftPlan.tn, f % DraftPlan.tn));
      BFragmentCell(tid, f / DraftPlan.tn, f % DraftPlan.tn);
      bS[Flat2(k, col, DraftPlan.blockN)])
  }

  /** The A gather of the shipped draft plan is one-to-one. */
  lemma ShippedAGatherInjective(g: Gather)
    requires InAShape(DraftPlan, DraftLanesY, g)
    ensures DraftPlan.ItersM(DraftLanesY) > 0
    ensures AGatherCol(DraftPlan, DraftLanesY, g) < DraftPlan.blockM
    ensures AGatherOf(DraftPlan, DraftLanesY, AGatherCol(DraftPlan, DraftLanesY, g)) == g
  {
    DraftShippedValid();
    AGatherInjective(DraftPlan, DefaultN, DraftLanesX, DraftLanesY, g);
  }

  /** The A gather of the shipped draft plan is onto. */
  lemma ShippedAGatherSurjective(col: nat)
    requires col < DraftPlan.blockM
    ensures DraftPlan.ItersM(DraftLanesY) > 0
    ensures InAShape(DraftPlan, DraftLanesY, AGatherOf(DraftPlan, DraftLanesY, col))
    ensures AGatherCol(DraftPlan, DraftLanesY, AGatherOf(DraftPlan, DraftLanesY, col)) == col
  {
    DraftShippedValid();
    AGatherSurjective(DraftPlan, DefaultN, DraftLanesX, DraftLanesY, col);
  }

  /** The B gather of the shipped draft plan is one-to-one. */
  lemma ShippedBGatherInjective(g: Gather)
    requires InBShape(DraftPlan, DraftLanesX, g)
    ensures DraftPlan.ItersN(DraftLanesX) > 0
    ensures BGatherCol(DraftPlan, DraftLanesX, g) < DraftPlan.blockN
    ensures BGatherOf(DraftPlan, DraftLanesX, BGatherCol(DraftPlan, DraftLanesX, g)) == g
  {
    DraftShippedValid();
    BGatherInjective(DraftPlan, DefaultN, DraftLanesX, DraftLanesY, g);
  }

  /** The B gather of the shipped draft plan is onto. */
  lemma ShippedBGatherSurjective(col: nat)
    requires col < DraftPlan.blockN
    ensures DraftPlan.ItersN(DraftLanesX) > 0
    ensures InBShape(DraftPlan, DraftLanesX, BGatherOf(DraftPlan, DraftLanesX, col))
    ensures BGatherCol(DraftPlan, DraftLanesX, BGatherOf(DraftPlan, DraftLanesX, col)) == col
  {
    DraftShippedValid();
    BGatherSurjective(DraftPlan, DefaultN, DraftLanesX, DraftLanesY, col);
  }

  /** Every element of a thread's A fragment reads inside the As row. */
  lemma AFragmentCell(tid: nat, it: nat, t: nat)
    requires tid < DraftPlan.threads && it < DraftPlan.ItersM(DraftLanesY) && t < DraftPlan.tm
    ensures InAShape(DraftPlan, DraftLanesY, AThreadGather(tid, it, t))
    ensures AGatherCol(DraftPlan, DraftLanesY, AThreadGather(tid, it, t)) < DraftPlan.blockM
    ensures forall k: nat | k < DraftPlan.blockK :: Flat2(k, AGatherCol(DraftPlan, DraftLanesY, AThreadGather(tid, it, t)), DraftPlan.blockM) < DraftPlan.blockK * DraftPlan.blockM
  {
    DraftThreadDecomposition(tid);
    ShippedAGatherInjective(AThreadGather(tid, it, t));
  }

  /** Every element of a thread's B fragment reads inside the Bs row. */
  lemma BFragmentCell(tid: nat, it: nat, t: nat)
    requires tid < DraftPlan.threads && it < DraftPlan.ItersN(DraftLanesX) && t < DraftPlan.tn
    ensures InBShape(DraftPlan, DraftLanesX, BThreadGather(tid, it, t))
    ensures BGatherCol(DraftPlan, DraftLanesX, BThreadGather(tid, it, t)) < DraftPlan.blockN
    ensures forall k: nat | k < DraftPlan.blockK :: Flat2(k, BGatherCol(DraftPlan, DraftLanesX, BThreadGather(tid, it, t)), DraftPlan.blockN) < DraftPlan.blockK * DraftPlan.blockN
  {
    DraftThreadDecomposition(tid);
    ShippedBGatherInjective(BThreadGather(tid, it, t));
  }

  /** Which threads hold As[k, col], and where: exactly the threads of warp
      row and lane row named by col's digits, at the iteration and element
      col's digits name. */
  lemma AFragmentHolders<H>(tid: nat, k: nat, aS: seq<H>, col: nat)
    requires tid < DraftPlan.threads && k < DraftPlan.blockK && |aS| == DraftPlan.blockK * DraftPlan.blockM
    requires col < DraftPlan.blockM
    ensures DraftPlan.ItersM(DraftLanesY) > 0
    ensures var g := AGatherOf(DraftPlan, DraftLanesY, col);
      forall it: nat, t: nat | it < DraftPlan.ItersM(DraftLanesY) && t < DraftPlan.tm ::
        (AGatherCol(DraftPlan, DraftLanesY, AThreadGather(tid, it, t)) == col
         <==> g == AThreadGather(tid, it, t))
    ensures var g := AGatherOf(DraftPlan, DraftLanesY, col);
      WarpIdy(DraftPlan, tid) == g.warp && LaneIdy(DraftPlan, DraftLanesX, tid) == g.lane ==>
        Flat2(g.iter, g.elem, DraftPlan.tm) < |AFragment(tid, k, aS)|
        && AFragment(tid, k, aS)[Flat2(g.iter, g.elem, DraftPlan.tm)] == aS[Flat2(k, col, DraftPlan.blockM)]
  {
    ShippedAGatherSurjective(col);
    var g := AGatherOf(DraftPlan, DraftLanesY, col);
    forall it: nat, t: nat | it < DraftPlan.ItersM(DraftLanesY) && t < DraftPlan.tm
      ensures AGatherCol(DraftPlan, DraftLanesY, AThreadGather(tid, it, t)) == col <==> g == AThreadGather(tid, it, t)
    {
      AFragmentCell(tid, it, t);
      ShippedAGatherInjective(AThreadGather(tid, it, t));
    }
    if WarpIdy(DraftPlan, tid) == g.warp && LaneIdy(DraftPlan, DraftLanesX, tid) == g.lane {
      Flat2Bound(g.iter, g.elem, DraftPlan.ItersM(DraftLanesY), DraftPlan.tm);
      Flat2Split(g.iter, g.elem, DraftPlan.tm);
    }
  }

  /** Which threads hold Bs[k, col], and where. */
  lemma BFragmentHolders<H>(tid: nat, k: nat, bS: seq<H>, col: nat)
    requires tid < DraftPlan.threads && k < DraftPlan.blockK && |bS| == DraftPlan.blockK * DraftPlan.blockN
    requires col < DraftPlan.blockN
    ensures DraftPlan.ItersN(DraftLanesX) > 0
    ensures var g := BGatherOf(DraftPlan, DraftLanesX, col);
      forall it: nat, t: nat | it < DraftPlan.ItersN(DraftLanesX) && t < DraftPlan.tn ::
        (BGatherCol(DraftPlan, DraftLanesX, BThreadGather(tid, it, t)) == col
         <==> g == BThreadGather(tid, it, t))
    ensures var g := BGatherOf(DraftPlan, DraftLanesX, col);
      WarpIdx(DraftPlan, tid) == g.warp && LaneIdx(DraftPlan, DraftLanesX, tid) == g.lane ==>
        Flat2(g.iter, g.elem, DraftPlan.tn) < |BFragment(tid, k, bS)|
        && BFragment(tid, k, bS)[Flat2(g.iter, g.elem, DraftPlan.tn)] == bS[Flat2(k, col, DraftPlan.blockN)]
  {
    ShippedBGatherSurjective(col);
    var g := BGatherOf(DraftPlan, DraftLanesX, col);
    forall it: nat, t: nat | it < DraftPlan.ItersN(DraftLanesX) && t < DraftPlan.tn
      ensures BGatherCol(DraftPlan, DraftLanesX, BThreadGather(tid, it, t)) == col <==> g == BThreadGather(tid, it, t)
    {
      BFragmentCell(tid, it, t);
      ShippedBGatherInjective(BThreadGather(tid, it, t));
    }
    if WarpIdx(DraftPlan, tid) == g.warp && LaneIdx(DraftPlan, DraftLanesX, tid) == g.lane {
      Flat2Bound(g.iter, g.elem, DraftPlan.ItersN(DraftLanesX), DraftPlan.tn);
      Flat2Split(g.iter, g.elem, DraftPlan.tn);
    }
  }
}
