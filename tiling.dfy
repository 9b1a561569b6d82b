/** The tiling configuration of the two hand-written tensor-core matmul
    plans: the module-level constants, the values derived from them by
    integer division, and every assertion (and every reshape that tinygrad
    would refuse) that stands between the constants and a finished plan. */
module Tiling {
  import opened Layout

  type Pos = x: int | x > 0 witness 1

  datatype Option<T> = None | Some(value: T)

  /** The primary constants of one plan.  Every one is a positive literal in
      the source. */
  datatype Config = Config(
    warpSize: Pos,    // WARP_SIZE
    blockM: Pos,      // BLOCK_M: rows of C per block
    blockN: Pos,      // BLOCK_N: columns of C per block
    blockK: Pos,      // BLOCK_K: K-slice per outer iteration
    threads: Pos,     // THREADS_PER_BLOCK
    tcM: Pos,         // TC_M
    tcN: Pos,         // TC_N
    tcK: Pos,         // TC_K
    tm: Pos,          // TM: rows per thread (register tile)
    tn: Pos,          // TN: columns per thread (register tile)
    warpTileN: Pos)   // WARP_TILE_N
  {
    /** WARPS_PER_BLOCK = THREADS_PER_BLOCK // WARP_SIZE */
    function WarpsPerBlock(): nat
    {
      threads / warpSize
    }

    /** WARP_TILE_M = BLOCK_N * BLOCK_M // WARPS_PER_BLOCK // WARP_TILE_N;
        0 stands for the ZeroDivisionError raised when WARPS_PER_BLOCK is 0. */
    function WarpTileM(): nat
    {
      if WarpsPerBlock() == 0 then 0 else blockN * blockM / WarpsPerBlock() / warpTileN
    }

    /** WARPS_IN_BLOCK_X = BLOCK_N // WARP_TILE_N */
    function WarpsX(): nat
    {
      blockN / warpTileN
    }

    /** WARPS_IN_BLOCK_Y = BLOCK_M // WARP_TILE_M */
    function WarpsY(): nat
    {
      if WarpTileM() == 0 then 0 else blockM / WarpTileM()
    }

    /** M_TILES = WARP_TILE_M // TC_M: tensor-core tiles per warp along M. */
    function MTiles(): nat
    {
      WarpTileM() / tcM
    }

    /** N_TILES = WARP_TILE_N // TC_N: tensor-core tiles per warp along N. */
    function NTiles(): nat
    {
      warpTileN / tcN
    }

    /** ITERS_PER_WARP_N = WARP_TILE_N // (LANES_PER_WARP_X * TN) */
    function ItersN(lanesX: Pos): nat
    {
      warpTileN / (lanesX * tn)
    }

    /** ITERS_PER_WARP_M = WARP_TILE_M // (LANES_PER_WARP_Y * TM) */
    function ItersM(lanesY: Pos): nat
    {
      WarpTileM() / (lanesY * tm)
    }
  }

  /** Number of elements of a 4-D shape. */
  function Prod4(d0: nat, d1: nat, d2: nat, d3: nat): nat
  {
    d0 * d1 * d2 * d3
  }

  /** One condition the plan stops on: an `assert`, a division whose divisor
      would be zero, or a `reshape` whose element count differs from the
      buffer's (tinygrad refuses those). */
  datatype Check =
    | ThreadsDivBlockN                 // THREADS_PER_BLOCK % BLOCK_N == 0
    | ThreadsDivBlockK                 // THREADS_PER_BLOCK % BLOCK_K == 0
    | ThreadsDivTileB                  // (BLOCK_N * BLOCK_K) % THREADS_PER_BLOCK == 0
    | ThreadsDivTileA                  // (BLOCK_M * BLOCK_K) % THREADS_PER_BLOCK == 0
    | WarpsPerBlockNonZero             // the division that defines WARP_TILE_M
    | BlockNDivWarpTileN               // BLOCK_N % WARP_TILE_N == 0
    | BlockMDivWarpTileM               // BLOCK_M % WARP_TILE_M == 0
    | WarpGridMatches                  // WARPS_IN_BLOCK_X * WARPS_IN_BLOCK_Y == WARPS_PER_BLOCK
    | WarpTileNDivLanes(lanesX: Pos)   // WARP_TILE_N % (LANES_PER_WARP_X * TN) == 0
    | WarpTileMDivLanes(lanesY: Pos)   // WARP_TILE_M % (LANES_PER_WARP_Y * TM) == 0
    | ReshapeC                         // c.reshape(M//BLOCK_M, BLOCK_M, N//BLOCK_N, BLOCK_N)
    | ReshapeA                         // a.reshape(M//BLOCK_M, BLOCK_M, N//BLOCK_K, BLOCK_K)
    | ReshapeB                         // b.reshape(N//BLOCK_K, BLOCK_K, N//BLOCK_N, BLOCK_N)
    | SourceChunks                     // a.reshape(-1, THREADS_PER_BLOCK) of the whole N x N input
    | LastWarpRowIsGridRow             // warpIdy.vmax + 1 == WARPS_IN_BLOCK_Y
    | SharedReshapeA                   // As.reshape(BLOCK_K//TC_K, TC_K, BLOCK_M//TC_M, TC_M)
    | SharedReshapeB                   // Bs.reshape(BLOCK_K//TC_K, TC_K, BLOCK_N//TC_N, TC_N)
    | GatherReshapeA(lanesY: Pos)      // As[k, :].reshape(WARPS_IN_BLOCK_Y, ITERS_PER_WARP_M, LANES_PER_WARP_Y, TM)
    | GatherReshapeB(lanesX: Pos)      // Bs[k, :].reshape(WARPS_IN_BLOCK_X, ITERS_PER_WARP_N, LANES_PER_WARP_X, TN)
    | WarpTileMDivTcM                  // WARP_TILE_M % TC_M == 0 (not asserted by the source)
    | WarpTileNDivTcN                  // WARP_TILE_N % TC_N == 0 (not asserted by the source)

  /** Whether a check passes for configuration `c` and matrix size `n`
      (M = K = N in both plans). */
  predicate Holds(c: Config, n: Pos, k: Check)
  {
    match k
    case ThreadsDivBlockN => c.threads % c.blockN == 0
    case ThreadsDivBlockK => c.threads % c.blockK == 0
    case ThreadsDivTileB => (c.blockN * c.blockK) % c.threads == 0
    case ThreadsDivTileA => (c.blockM * c.blockK) % c.threads == 0
    case WarpsPerBlockNonZero => c.WarpsPerBlock() != 0
    case BlockNDivWarpTileN => c.blockN % c.warpTileN == 0
    case BlockMDivWarpTileM => c.WarpTileM() != 0 && c.blockM % c.WarpTileM() == 0
    case WarpGridMatches => c.WarpsX() * c.WarpsY() == c.WarpsPerBlock()
    case WarpTileNDivLanes(lx) => c.warpTileN % (lx * c.tn) == 0
    case WarpTileMDivLanes(ly) => c.WarpTileM() % (ly * c.tm) == 0
    case ReshapeC => Prod4(n / c.blockM, c.blockM, n / c.blockN, c.blockN) == n * n
    case ReshapeA => Prod4(n / c.blockM, c.blockM, n / c.blockK, c.blockK) == n * n
    case ReshapeB => Prod4(n / c.blockK, c.blockK, n / c.blockN, c.blockN) == n * n
    case SourceChunks => (n * n) % c.threads == 0
    case LastWarpRowIsGridRow =>
      c.WarpsX() != 0 && ((c.threads - 1) / c.warpSize) / c.WarpsX() + 1 == c.WarpsY()
    case SharedReshapeA => Prod4(c.blockK / c.tcK, c.tcK, c.blockM / c.tcM, c.tcM) == c.blockK * c.blockM
    case SharedReshapeB => Prod4(c.blockK / c.tcK, c.tcK, c.blockN / c.tcN, c.tcN) == c.blockK * c.blockN
    case GatherReshapeA(ly) => Prod4(c.WarpsY(), c.ItersM(ly), ly, c.tm) == c.blockM
    case GatherReshapeB(lx) => Prod4(c.WarpsX(), c.ItersN(lx), lx, c.tn) == c.blockN
    case WarpTileMDivTcM => c.WarpTileM() % c.tcM == 0
    case WarpTileNDivTcN => c.warpTileN % c.tcN == 0
  }

  /** The index of the first check that fails, in the order the source
      evaluates them (where Python raises), or None when all pass. */
  function FirstFailure(c: Config, n: Pos, checks: seq<Check>): (r: Option<nat>)
    ensures r.None? <==> forall i | 0 <= i < |checks| :: Holds(c, n, checks[i])
    ensures r.Some? ==> r.value < |checks| && !Holds(c, n, checks[r.value])
    ensures r.Some? ==> forall i | 0 <= i < r.value :: Holds(c, n, checks[i])
  {
    if checks == [] then None
    else if !Holds(c, n, checks[0]) then Some(0)
    else
      match FirstFailure(c, n, checks[1..])
      case None => None
      case Some(i) => Some(i + 1)
  }

  /** The checks of nv_uop_matmul_working.py in evaluation order: the module
      asserts (lines 37-49), then inside hand_spec_nv_wmma the grid reshapes
      (77, 81, 82), the warp-row assert (108) and the shared-tile reshapes
      (125, 127). */
  const WorkingChecks: seq<Check> := [
    ThreadsDivBlockN, ThreadsDivBlockK, ThreadsDivTileB, ThreadsDivTileA,
    WarpsPerBlockNonZero, BlockNDivWarpTileN, BlockMDivWarpTileM, WarpGridMatches,
    ReshapeC, ReshapeA, ReshapeB,
    LastWarpRowIsGridRow,
    SharedReshapeA, SharedReshapeB]

  /** The working checks with the two that M_TILES = WARP_TILE_M // TC_M
      and N_TILES = WARP_TILE_N // TC_N need to be exact; without them a
      configuration can pass every check of the source and still leave
      output cells unwritten (see Findings.EpilogueMissesRows). */
  const CorrectedWorkingChecks: seq<Check> := WorkingChecks + [WarpTileMDivTcM, WarpTileNDivTcN]

  /** The checks of nv_uop_matmul.py in evaluation order: module asserts
      (lines 30-49), the flat reshape of the whole input (65-68) and the two
      register-gather reshapes (86, 90). */
  function DraftChecks(lanesX: Pos, lanesY: Pos): seq<Check>
  {
    [ThreadsDivBlockN, ThreadsDivBlockK, ThreadsDivTileB, ThreadsDivTileA,
     WarpsPerBlockNonZero, BlockNDivWarpTileN, BlockMDivWarpTileM, WarpGridMatches,
     WarpTileNDivLanes(lanesX), WarpTileMDivLanes(lanesY),
     SourceChunks,
     GatherReshapeA(lanesY), GatherReshapeB(lanesX)]
  }

  ghost predicate WorkingValid(c: Config, n: Pos)
  {
    forall i | 0 <= i < |WorkingChecks| :: Holds(c, n, WorkingChecks[i])
  }

  ghost predicate CorrectedValid(c: Config, n: Pos)
  {
    forall i | 0 <= i < |CorrectedWorkingChecks| :: Holds(c, n, CorrectedWorkingChecks[i])
  }

  ghost predicate DraftValid(c: Config, n: Pos, lanesX: Pos, lanesY: Pos)
  {
    var checks := DraftChecks(lanesX, lanesY);
    forall i | 0 <= i < |checks| :: Holds(c, n, checks[i])
  }

  // ---------------------------------------------------------------------
  // The shipped constants
  // ---------------------------------------------------------------------

  /** nv_uop_matmul_working.py: BLOCK 128x128x32, 256 threads, m16n8k16,
      TM = TN = 4, WARP_TILE_N = 64. */
  const WorkingPlan := Config(32, 128, 128, 32, 256, 16, 8, 16, 4, 4, 64)

  /** nv_uop_matmul.py: BLOCK 64x128x64, 128 threads, m16n8k16, TM = 2,
      TN = 8, WARP_TILE_N = 128, and an 8 x 4 lane grid. */
  const DraftPlan := Config(32, 64, 128, 64, 128, 16, 8, 16, 2, 8, 128)
  const DraftLanesX: Pos := 8
  const DraftLanesY: Pos := 4

  /** The default N of both files (getenv("N", 4096)). */
  const DefaultN: Pos := 4096

  // ---------------------------------------------------------------------
  // What a reshape check means
  // ---------------------------------------------------------------------

  lemma FloorMulLe(a: nat, b: Pos)
    ensures (a / b) * b <= a
    ensures (a / b) * b == a <==> a % b == 0
  {
  }

  /** A reshape of an a x c buffer into (a//b, b, c//d, d) keeps the element
      count exactly when b divides a and d divides c. */
  lemma ReshapeExact(a: Pos, b: Pos, c: Pos, d: Pos)
    ensures Prod4(a / b, b, c / d, d) == a * c <==> a % b == 0 && c % d == 0
  {
    var x, y := (a / b) * b, (c / d) * d;
    FloorMulLe(a, b);
    FloorMulLe(c, d);
    assert Prod4(a / b, b, c / d, d) == x * y;
    if a % b != 0 {
      assert x < a;
      MulMonotone(y, c, x);
      assert x * y <= x * c;
      assert x * c < a * c by { MulStrict(x, a, c); }
    } else if c % d != 0 {
      assert y < c;
      assert x * y < x * c by { MulStrict(y, c, x); }
    }
  }

  lemma MulStrict(x: nat, a: nat, c: Pos)
    requires x < a
    ensures x * c < a * c
  {
    MulMonotone(x + 1, a, c);
  }

  /** The warp-row assertion at line 108 forces THREADS_PER_BLOCK to be an
      exact multiple of WARP_SIZE, given the warp grid matches. */
  lemma ThreadsFillWarps(c: Config)
    requires c.WarpsX() != 0
    requires c.WarpsX() * c.WarpsY() == c.WarpsPerBlock()
    requires ((c.threads - 1) / c.warpSize) / c.WarpsX() + 1 == c.WarpsY()
    ensures c.threads == c.WarpsPerBlock() * c.warpSize
  {
    var w := (c.threads - 1) / c.warpSize;
    var x := c.WarpsX();
    Flat2Join(w, w / x + 1, x);
    assert w < c.WarpsY() * x by {
      assert w == (w / x) * x + w % x;
      MulMonotone(w / x + 1, c.WarpsY(), x);
    }
    if c.threads % c.warpSize != 0 {
      DivModUnique(c.threads - 1, c.warpSize, c.threads / c.warpSize, c.threads % c.warpSize - 1);
      assert false;
    }
  }

  /** What a valid working configuration guarantees, in the form the rest of
      the model uses. */
  lemma WorkingFacts(c: Config, n: Pos)
    requires WorkingValid(c, n)
    ensures c.WarpsPerBlock() >= 1 && c.WarpTileM() >= 1
    ensures c.WarpsX() >= 1 && c.WarpsY() >= 1
    ensures c.WarpsX() * c.warpTileN == c.blockN
    ensures c.WarpsY() * c.WarpTileM() == c.blockM
    ensures c.WarpsX() * c.WarpsY() == c.WarpsPerBlock()
    ensures c.WarpsPerBlock() * c.warpSize == c.threads
    ensures n % c.blockM == 0 && n % c.blockN == 0 && n % c.blockK == 0
    ensures c.blockK % c.tcK == 0 && c.blockM % c.tcM == 0 && c.blockN % c.tcN == 0
    ensures (c.blockM * c.blockK) % c.threads == 0 && (c.blockN * c.blockK) % c.threads == 0
    ensures ((c.threads - 1) / c.warpSize) / c.WarpsX() == c.WarpsY() - 1
  {
    assert Holds(c, n, WorkingChecks[3]);
    assert Holds(c, n, WorkingChecks[2]);
    assert Holds(c, n, WorkingChecks[4]);
    assert Holds(c, n, WorkingChecks[5]);
    assert Holds(c, n, WorkingChecks[6]);
    assert Holds(c, n, WorkingChecks[7]);
    assert Holds(c, n, WorkingChecks[8]);
    assert Holds(c, n, WorkingChecks[9]);
    assert Holds(c, n, WorkingChecks[10]);
    assert Holds(c, n, WorkingChecks[11]);
    assert Holds(c, n, WorkingChecks[12]);
    assert Holds(c, n, WorkingChecks[13]);
    ReshapeExact(n, c.blockM, n, c.blockN);
    ReshapeExact(n, c.blockM, n, c.blockK);
    ReshapeExact(c.blockK, c.tcK, c.blockM, c.tcM);
    ReshapeExact(c.blockK, c.tcK, c.blockN, c.tcN);
    FloorMulLe(c.blockN, c.warpTileN);
    FloorMulLe(c.blockM, c.WarpTileM());
    ThreadsFillWarps(c);
  }

  /** The corrected checks keep everything the source checks, and make the
      tensor-core tiles fill each warp tile exactly. */
  lemma CorrectedFacts(c: Config, n: Pos)
    requires CorrectedValid(c, n)
    ensures WorkingValid(c, n)
    ensures c.MTiles() * c.tcM == c.WarpTileM() && c.NTiles() * c.tcN == c.warpTileN
  {
    forall i | 0 <= i < |WorkingChecks|
      ensures Holds(c, n, WorkingChecks[i])
    {
      assert CorrectedWorkingChecks[i] == WorkingChecks[i];
    }
    assert Holds(c, n, CorrectedWorkingChecks[|WorkingChecks|]);
    assert Holds(c, n, CorrectedWorkingChecks[|WorkingChecks| + 1]);
    FloorMulLe(c.WarpTileM(), c.tcM);
    FloorMulLe(c.warpTileN, c.tcN);
  }

  /** What a valid draft configuration guarantees. */
  lemma DraftFacts(c: Config, n: Pos, lanesX: Pos, lanesY: Pos)
    requires DraftValid(c, n, lanesX, lanesY)
    ensures c.WarpsPerBlock() >= 1 && c.WarpTileM() >= 1
    ensures c.WarpsX() * c.warpTileN == c.blockN
    ensures c.WarpsY() * c.WarpTileM() == c.blockM
    ensures c.WarpsX() * c.WarpsY() == c.WarpsPerBlock()
    ensures c.ItersN(lanesX) * (lanesX * c.tn) == c.warpTileN
    ensures c.ItersM(lanesY) * (lanesY * c.tm) == c.WarpTileM()
    ensures Prod4(c.WarpsY(), c.ItersM(lanesY), lanesY, c.tm) == c.blockM
    ensures Prod4(c.WarpsX(), c.ItersN(lanesX), lanesX, c.tn) == c.blockN
    ensures (c.blockM * c.blockK) % c.threads == 0 && (c.blockN * c.blockK) % c.threads == 0
  {
    var checks := DraftChecks(lanesX, lanesY);
    assert Holds(c, n, checks[2]);
    assert Holds(c, n, checks[3]);
    assert Holds(c, n, checks[4]);
    assert Holds(c, n, checks[5]);
    assert Holds(c, n, checks[6]);
    assert Holds(c, n, checks[7]);
    assert Holds(c, n, checks[8]);
    assert Holds(c, n, checks[9]);
    assert Holds(c, n, checks[11]);
    assert Holds(c, n, checks[12]);
    FloorMulLe(c.blockN, c.warpTileN);
    FloorMulLe(c.blockM, c.WarpTileM());
    FloorMulLe(c.warpTileN, lanesX * c.tn);
    FloorMulLe(c.WarpTileM(), lanesY * c.tm);
  }

  /** The five reshapes of the working plan succeed when the block sizes
      divide N and the tensor-core sizes divide the block sizes. */
  lemma ReshapesHold(c: Config, n: Pos)
    requires n % c.blockM == 0 && n % c.blockN == 0 && n % c.blockK == 0
    requires c.blockK % c.tcK == 0 && c.blockM % c.tcM == 0 && c.blockN % c.tcN == 0
    ensures Holds(c, n, ReshapeC) && Holds(c, n, ReshapeA) && Holds(c, n, ReshapeB)
    ensures Holds(c, n, SharedReshapeA) && Holds(c, n, SharedReshapeB)
  {
    ReshapeExact(n, c.blockM, n, c.blockN);
    ReshapeExact(n, c.blockM, n, c.blockK);
    ReshapeExact(n, c.blockK, n, c.blockN);
    ReshapeExact(c.blockK, c.tcK, c.blockM, c.tcM);
    ReshapeExact(c.blockK, c.tcK, c.blockN, c.tcN);
  }

  /** The working file's constants pass every check, with the derived values
      its comments state. */
  lemma WorkingShippedValid()
    ensures WorkingValid(WorkingPlan, DefaultN)
    ensures FirstFailure(WorkingPlan, DefaultN, WorkingChecks) == None
    ensures WorkingPlan.WarpsPerBlock() == 8 && WorkingPlan.WarpTileM() == 32
    ensures WorkingPlan.WarpsX() == 2 && WorkingPlan.WarpsY() == 4
    ensures WorkingPlan.MTiles() == 2 && WorkingPlan.NTiles() == 8
  {
    var c, n := WorkingPlan, DefaultN;
    assert c.WarpsPerBlock() == 8;
    assert c.WarpTileM() == 32;
    assert c.WarpsX() == 2 && c.WarpsY() == 4;
    ReshapesHold(c, n);
    assert Holds(c, n, LastWarpRowIsGridRow);
    forall i | 0 <= i < |WorkingChecks|
      ensures Holds(c, n, WorkingChecks[i])
    {
    }
  }

  /** The corrected checks are the source's checks plus the two added ones. */
  lemma CorrectedFromWorking(c: Config, n: Pos)
    requires WorkingValid(c, n)
    requires c.WarpTileM() % c.tcM == 0 && c.warpTileN % c.tcN == 0
    ensures CorrectedValid(c, n)
  {
    forall i | 0 <= i < |CorrectedWorkingChecks|
      ensures Holds(c, n, CorrectedWorkingChecks[i])
    {
      if i < |WorkingChecks| {
        assert CorrectedWorkingChecks[i] == WorkingChecks[i];
      } else if i == |WorkingChecks| {
        assert CorrectedWorkingChecks[i] == WarpTileMDivTcM;
      } else {
        assert CorrectedWorkingChecks[i] == WarpTileNDivTcN;
      }
    }
  }

  /** The working file's constants also pass the two added checks. */
  lemma WorkingShippedCorrected()
    ensures CorrectedValid(WorkingPlan, DefaultN)
  {
    WorkingShippedValid();
    CorrectedFromWorking(WorkingPlan, DefaultN);
  }

  /** The draft file's constants pass every check, with WARPS_PER_BLOCK = 4,
      WARP_TILE_M = 16, a 1 x 4 warp grid and two register-tile iterations
      per axis. */
  lemma DraftShippedValid()
    ensures DraftValid(DraftPlan, DefaultN, DraftLanesX, DraftLanesY)
    ensures FirstFailure(DraftPlan, DefaultN, DraftChecks(DraftLanesX, DraftLanesY)) == None
    ensures DraftPlan.WarpsPerBlock() == 4 && DraftPlan.WarpTileM() == 16
    ensures DraftPlan.WarpsX() == 1 && DraftPlan.WarpsY() == 4
    ensures DraftPlan.ItersN(DraftLanesX) == 2 && DraftPlan.ItersM(DraftLanesY) == 2
  {
    var c := DraftPlan;
    assert c.WarpsPerBlock() == 4;
    assert c.WarpTileM() == 16;
  }

  /** A BLOCK_N that WARP_TILE_N does not divide stops the plan at the
      assertion on line 45, before any plan node exists. */
  lemma BlockNNotMultipleRejected()
    ensures var c := WorkingPlan.(warpTileN := 48);
      FirstFailure(c, DefaultN, WorkingChecks) == Some(5) && WorkingChecks[5] == BlockNDivWarpTileN
  {
    var c, n := WorkingPlan.(warpTileN := 48), DefaultN;
    assert c.WarpsPerBlock() == 8;
    assert forall i | 0 <= i < 5 :: Holds(c, n, WorkingChecks[i]);
    assert !Holds(c, n, WorkingChecks[5]);
    var r := FirstFailure(c, n, WorkingChecks);
    assert r.Some?;
  }
}
