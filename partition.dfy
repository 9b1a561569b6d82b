/** Block partitioning of the working plan: which cells of C a block owns and
    which slices of A and B one outer-K iteration reads, expressed through
    the row-major meaning of the `reshape(...)[p, :, q, :]` views. */
module Partition {
  import opened Layout
  import opened Tiling

  /** The launch grid: BLOCK_N-wide blocks along x (gidx0), BLOCK_M-tall
      blocks along y (gidx1), and the outer reduction length N // BLOCK_K. */
  datatype Grid = Grid(blocksX: nat, blocksY: nat, kTiles: nat)

  function PlanGrid(c: Config, n: Pos): (g: Grid)
    requires n % c.blockM == 0 && n % c.blockN == 0 && n % c.blockK == 0
    ensures g.blocksX >= 1 && g.blocksY >= 1 && g.kTiles >= 1
    ensures g.blocksX * c.blockN == n && g.blocksY * c.blockM == n && g.kTiles * c.blockK == n
  {
    Grid(n / c.blockN, n / c.blockM, n / c.blockK)
  }

  /** In an N x N matrix, the output tile of block (blockIdx_y, blockIdx_x)
      is c.reshape(N//BLOCK_M, BLOCK_M, N//BLOCK_N, BLOCK_N)[blockIdx_y, :, blockIdx_x, :],
      whose cell (i, j) is TiledOffset(N, N, BLOCK_M, BLOCK_N, blockIdx_y, i, blockIdx_x, j);
      the A slice of outer iteration kt uses (BLOCK_M, BLOCK_K) tiles at
      (blockIdx_y, kt) and the B slice (BLOCK_K, BLOCK_N) tiles at
      (kt, blockIdx_x). */

  /** Tile (p, q) of the tiled view and position (i, j) inside it. */
  datatype TilePos = TilePos(p: nat, q: nat, i: nat, j: nat)

  /** The tile and in-tile position of matrix cell (row, col). */
  function Owner(rows: Pos, cols: Pos, row: nat, col: nat): TilePos
  {
    TilePos(row / rows, col / cols, row % rows, col % cols)
  }

  /** Every cell has an in-range owner whose view names that cell. */
  lemma CellOwned(n: Pos, rows: Pos, cols: Pos, row: nat, col: nat)
    requires n % rows == 0 && n % cols == 0 && row < n && col < n
    ensures var o := Owner(rows, cols, row, col);
      o.p < n / rows && o.q < n / cols && o.i < rows && o.j < cols
      && TiledOffset(n, n, rows, cols, o.p, o.i, o.q, o.j) == Flat2(row, col, n)
  {
    Flat2Join(row, n / rows, rows);
    Flat2Join(col, n / cols, cols);
  }

  /** Every in-range (p, q, i, j) owns the cell its view names. */
  lemma OwnerOfCell(rows: Pos, cols: Pos, p: nat, q: nat, i: nat, j: nat)
    requires i < rows && j < cols
    ensures Owner(rows, cols, Flat2(p, i, rows), Flat2(q, j, cols)) == TilePos(p, q, i, j)
  {
    Flat2Split(p, i, rows);
    Flat2Split(q, j, cols);
  }

  /** Tiles are disjoint and cover the N x N matrix: every cell has an
      in-range owner whose view names that cell, and every in-range
      (p, q, i, j) is the owner of the cell its view names. */
  lemma TilesPartition(n: Pos, rows: Pos, cols: Pos)
    requires n % rows == 0 && n % cols == 0
    ensures forall row: nat, col: nat | row < n && col < n ::
      var o := Owner(rows, cols, row, col);
      o.p < n / rows && o.q < n / cols && o.i < rows && o.j < cols
      && TiledOffset(n, n, rows, cols, o.p, o.i, o.q, o.j) == Flat2(row, col, n)
    ensures forall p: nat, q: nat, i: nat, j: nat
      | p < n / rows && q < n / cols && i < rows && j < cols ::
      Owner(rows, cols, Flat2(p, i, rows), Flat2(q, j, cols)) == TilePos(p, q, i, j)
  {
    forall row: nat, col: nat | row < n && col < n
      ensures var o := Owner(rows, cols, row, col);
        o.p < n / rows && o.q < n / cols && o.i < rows && o.j < cols
        && TiledOffset(n, n, rows, cols, o.p, o.i, o.q, o.j) == Flat2(row, col, n)
    {
      CellOwned(n, rows, cols, row, col);
    }
    forall p: nat, q: nat, i: nat, j: nat | p < n / rows && q < n / cols && i < rows && j < cols
      ensures Owner(rows, cols, Flat2(p, i, rows), Flat2(q, j, cols)) == TilePos(p, q, i, j)
    {
      OwnerOfCell(rows, cols, p, q, i, j);
    }
  }

  /** A valid working configuration cuts N evenly into BLOCK_M, BLOCK_N
      and BLOCK_K pieces (the three matrix reshapes succeed). */
  lemma GridDivides(c: Config, n: Pos)
    requires WorkingValid(c, n)
    ensures n % c.blockM == 0 && n % c.blockN == 0 && n % c.blockK == 0
  {
    WorkingFacts(c, n);
  }

  /** The outer K loop's N // BLOCK_K iterations read disjoint K-slices that
      together cover [0, N): iteration kt reads columns of A and rows of B
      kt*BLOCK_K .. kt*BLOCK_K + BLOCK_K - 1, and each K index belongs to
      exactly one iteration. */
  lemma KSlicesPartition(c: Config, n: Pos)
    requires WorkingValid(c, n)
    ensures n % c.blockK == 0
    ensures forall kt: nat, k: nat | kt < n / c.blockK && k < c.blockK ::
      Flat2(kt, k, c.blockK) < n && Flat2(kt, k, c.blockK) / c.blockK == kt
    ensures forall col: nat | col < n ::
      col / c.blockK < n / c.blockK && Flat2(col / c.blockK, col % c.blockK, c.blockK) == col
  {
    GridDivides(c, n);
    Flat2Bijection(n / c.blockK, c.blockK);
  }

  /** The working file's launch grid at its default size: 32 x 32 blocks and
      128 outer iterations. */
  lemma ShippedGrid()
    ensures PlanGrid(WorkingPlan, DefaultN) == Grid(32, 32, 128)
  {
  }
}
