/** Cooperative global -> shared staging of one outer-K iteration.
    `x.reshape(-1, THREADS_PER_BLOCK)[:, tid]` hands flat element
    j*THREADS_PER_BLOCK + tid of a tile to thread tid in chunk j; `copy`
    stores, for each chunk j, the source element (j, tid) into destination
    element (j, tid).  In the working plan the A tile lands transposed,
    because the destination view is As.permute((1, 0)). */
module Staging {
  import opened Layout
  import opened Tiling
  import opened Partition

  /** Where flat element f of a rows x cols tile lands in shared memory:
      at f itself, or, through a permuted destination, at column-major
      position (f % cols) * rows + f / cols. */
  function StageDst(rows: Pos, cols: Pos, transposed: bool, f: nat): (d: nat)
    requires f < rows * cols
    ensures d < rows * cols
    ensures transposed ==> d % rows == f / cols && d / rows == f % cols
    ensures !transposed ==> d == f
  {
    if transposed then
      Flat2Join(f, rows, cols);
      Flat2Bound(f % cols, f / cols, cols, rows);
      Flat2Split(f % cols, f / cols, rows);
      Flat2(f % cols, f / cols, rows)
    else f
  }

  /** Which flat element of the tile lands at destination d. */
  function StageSrcOfDst(rows: Pos, cols: Pos, transposed: bool, d: nat): nat
  {
    if transposed then Flat2(d % rows, d / rows, cols) else d
  }

  /** Global offset of flat element f of tile (p, q) when an n x n matrix is
      cut into rows x cols tiles: x.reshape(n//rows, rows, n//cols, cols)[p, :, q, :]. */
  function StageSrc(n: Pos, rows: Pos, cols: Pos, p: nat, q: nat, f: nat): (s: nat)
    requires n % rows == 0 && n % cols == 0 && p < n / rows && q < n / cols
    requires f < rows * cols
    ensures f / cols < rows && f % cols < cols
    ensures s == Flat2(Flat2(p, f / cols, rows), Flat2(q, f % cols, cols), n) && s < n * n
  {
    Flat2Join(f, rows, cols);
    TiledOffset(n, n, rows, cols, p, f / cols, q, f % cols)
  }

  /** Destinations of distinct tile elements are distinct, and StageSrcOfDst
      inverts StageDst. */
  lemma StageDstInverse(rows: Pos, cols: Pos, transposed: bool, f: nat)
    requires f < rows * cols
    ensures StageSrcOfDst(rows, cols, transposed, StageDst(rows, cols, transposed, f)) == f
  {
    if transposed {
      Flat2Join(f, rows, cols);
    }
  }

  /** Every destination slot is the destination of an in-range element. */
  lemma StageDstOnto(rows: Pos, cols: Pos, transposed: bool, d: nat)
    requires d < rows * cols
    ensures StageSrcOfDst(rows, cols, transposed, d) < rows * cols
    ensures StageDst(rows, cols, transposed, StageSrcOfDst(rows, cols, transposed, d)) == d
  {
    if transposed {
      Flat2Join(d, cols, rows);
      var f := Flat2(d % rows, d / rows, cols);
      Flat2Bound(d % rows, d / rows, rows, cols);
      Flat2Split(d % rows, d / rows, cols);
    }
  }

  /** Which (chunk, thread) pair copies a given element. */
  datatype Writer = Writer(chunk: nat, tid: nat)

  /** The pair that stores destination slot d. */
  function WriterOf(rows: Pos, cols: Pos, threads: Pos, transposed: bool, d: nat): Writer
  {
    var f := StageSrcOfDst(rows, cols, transposed, d);
    Writer(f / threads, f % threads)
  }

  /** One pair writes one slot: (chunk j, thread tid) writes a slot inside
      the tile and is the writer of that slot. */
  lemma WriterWrites(rows: Pos, cols: Pos, threads: Pos, transposed: bool, j: nat, tid: nat)
    requires (rows * cols) % threads == 0
    requires j < (rows * cols) / threads && tid < threads
    ensures Flat2(j, tid, threads) < rows * cols
    ensures var d := StageDst(rows, cols, transposed, Flat2(j, tid, threads));
      WriterOf(rows, cols, threads, transposed, d) == Writer(j, tid)
  {
    Flat2Bound(j, tid, (rows * cols) / threads, threads);
    Flat2Split(j, tid, threads);
    StageDstInverse(rows, cols, transposed, Flat2(j, tid, threads));
  }

  /** Every slot of the tile has an in-range writer, which writes it. */
  lemma SlotWritten(rows: Pos, cols: Pos, threads: Pos, transposed: bool, d: nat)
    requires (rows * cols) % threads == 0
    requires d < rows * cols
    ensures var w := WriterOf(rows, cols, threads, transposed, d);
      w.chunk < (rows * cols) / threads && w.tid < threads
      && Flat2(w.chunk, w.tid, threads) < rows * cols
      && StageDst(rows, cols, transposed, Flat2(w.chunk, w.tid, threads)) == d
  {
    StageDstOnto(rows, cols, transposed, d);
    var f := StageSrcOfDst(rows, cols, transposed, d);
    Flat2Join(f, (rows * cols) / threads, threads);
  }

  /** Staging writes every slot of the shared tile exactly once: (chunk,
      thread) pairs and destination slots are in one-to-one correspondence. */
  lemma StagingExactlyOnce(rows: Pos, cols: Pos, threads: Pos, transposed: bool)
    requires (rows * cols) % threads == 0
    ensures forall j: nat, tid: nat | j < (rows * cols) / threads && tid < threads ::
      Flat2(j, tid, threads) < rows * cols
      && WriterOf(rows, cols, threads, transposed, StageDst(rows, cols, transposed, Flat2(j, tid, threads)))
         == Writer(j, tid)
    ensures forall d: nat | d < rows * cols ::
      var w := WriterOf(rows, cols, threads, transposed, d);
      w.chunk < (rows * cols) / threads && w.tid < threads
      && Flat2(w.chunk, w.tid, threads) < rows * cols
      && StageDst(rows, cols, transposed, Flat2(w.chunk, w.tid, threads)) == d
  {
    forall j: nat, tid: nat | j < (rows * cols) / threads && tid < threads
      ensures Flat2(j, tid, threads) < rows * cols
      ensures WriterOf(rows, cols, threads, transposed, StageDst(rows, cols, transposed, Flat2(j, tid, threads)))
         == Writer(j, tid)
    {
      WriterWrites(rows, cols, threads, transposed, j, tid);
    }
    forall d: nat | d < rows * cols
      ensures var w := WriterOf(rows, cols, threads, transposed, d);
        w.chunk < (rows * cols) / threads && w.tid < threads
        && Flat2(w.chunk, w.tid, threads) < rows * cols
        && StageDst(rows, cols, transposed, Flat2(w.chunk, w.tid, threads)) == d
    {
      SlotWritten(rows, cols, threads, transposed, d);
    }
  }

  /** Distinct elements of the tile land in distinct slots. */
  lemma StageDstInjective(rows: Pos, cols: Pos, transposed: bool, f: nat, g: nat)
    requires f < rows * cols && g < rows * cols && f != g
    ensures StageDst(rows, cols, transposed, f) != StageDst(rows, cols, transposed, g)
  {
    StageDstInverse(rows, cols, transposed, f);
    StageDstInverse(rows, cols, transposed, g);
  }

  /** The block's threads copy tile (p, q) of the n x n matrix `src` into the
      shared tile `dst`, chunk by chunk: element f = j*threads + tid goes to
      StageDst(f).  Afterwards every element of the tile sits at its
      destination. */
  method StageTile<H>(src: array<H>, dst: array<H>, n: Pos, rows: Pos, cols: Pos, threads: Pos,
                      p: nat, q: nat, transposed: bool)
    requires src != dst
    requires src.Length == n * n && dst.Length == rows * cols
    requires n % rows == 0 && n % cols == 0 && p < n / rows && q < n / cols
    requires (rows * cols) % threads == 0
    modifies dst
    ensures forall f | 0 <= f < rows * cols ::
      dst[StageDst(rows, cols, transposed, f)] == src[StageSrc(n, rows, cols, p, q, f)]
  {
    var chunks := (rows * cols) / threads;
    assert chunks * threads == rows * cols;
    var j := 0;
    while j < chunks
      invariant 0 <= j <= chunks
      invariant j * threads <= rows * cols
      invariant forall g | 0 <= g < j * threads ::
        dst[StageDst(rows, cols, transposed, g)] == src[StageSrc(n, rows, cols, p, q, g)]
    {
      MulMonotone(j + 1, chunks, threads);
      var tid := 0;
      while tid < threads
        invariant 0 <= tid <= threads
        invariant forall g | 0 <= g < j * threads + tid ::
          dst[StageDst(rows, cols, transposed, g)] == src[StageSrc(n, rows, cols, p, q, g)]
      {
        var f := Flat2(j, tid, threads);
        ghost var before := dst[..];
        dst[StageDst(rows, cols, transposed, f)] := src[StageSrc(n, rows, cols, p, q, f)];
        forall g | 0 <= g < f
          ensures dst[StageDst(rows, cols, transposed, g)] == before[StageDst(rows, cols, transposed, g)]
        {
          StageDstInjective(rows, cols, transposed, f, g);
        }
        tid := tid + 1;
      }
      assert (j + 1) * threads == j * threads + threads;
      j := j + 1;
    }
  }

  /** What staging needs of a valid working configuration: the grid
      reshapes are exact and both shared tiles split into whole chunks. */
  lemma StagingShapes(c: Config, n: Pos)
    requires WorkingValid(c, n)
    ensures n % c.blockM == 0 && n % c.blockN == 0 && n % c.blockK == 0
    ensures (c.blockM * c.blockK) % c.threads == 0 && (c.blockK * c.blockN) % c.threads == 0
  {
    WorkingFacts(c, n);
    assert c.blockK * c.blockN == c.blockN * c.blockK;
  }

  /** As holds the A tile of block row blockY at outer iteration kt,
      transposed: As[k][r] == A[blockY*BLOCK_M + r][kt*BLOCK_K + k]. */
  ghost predicate StagedA<H>(c: Config, n: Pos, blockY: nat, kt: nat, a: seq<H>, aS: seq<H>)
  {
    forall r: nat, k: nat | r < c.blockM && k < c.blockK ::
      Flat2(k, r, c.blockM) < |aS| && Flat2(Flat2(blockY, r, c.blockM), Flat2(kt, k, c.blockK), n) < |a|
      && aS[Flat2(k, r, c.blockM)] == a[Flat2(Flat2(blockY, r, c.blockM), Flat2(kt, k, c.blockK), n)]
  }

  /** Bs holds the B tile of block column blockX at outer iteration kt:
      Bs[k][col] == B[kt*BLOCK_K + k][blockX*BLOCK_N + col]. */
  ghost predicate StagedB<H>(c: Config, n: Pos, blockX: nat, kt: nat, b: seq<H>, bS: seq<H>)
  {
    forall k: nat, col: nat | k < c.blockK && col < c.blockN ::
      Flat2(k, col, c.blockN) < |bS| && Flat2(Flat2(kt, k, c.blockK), Flat2(blockX, col, c.blockN), n) < |b|
      && bS[Flat2(k, col, c.blockN)] == b[Flat2(Flat2(kt, k, c.blockK), Flat2(blockX, col, c.blockN), n)]
  }

  /** Staging of the A tile of block row `blockY` at outer iteration `kt`
      (lines 81 and 95-96): As receives the BLOCK_M x BLOCK_K slice
      transposed. */
  method StageA<H>(c: Config, n: Pos, blockY: nat, kt: nat, a: array<H>, aS: array<H>)
    requires WorkingValid(c, n)
    requires blockY < n / c.blockM && kt < n / c.blockK
    requires a != aS && a.Length == n * n && aS.Length == c.blockM * c.blockK
    modifies aS
    ensures StagedA(c, n, blockY, kt, a[..], aS[..])
  {
    StagingShapes(c, n);
    StageTile(a, aS, n, c.blockM, c.blockK, c.threads, blockY, kt, true);
    forall r: nat, k: nat | r < c.blockM && k < c.blockK
      ensures Flat2(k, r, c.blockM) < aS.Length && Flat2(Flat2(blockY, r, c.blockM), Flat2(kt, k, c.blockK), n) < a.Length
      ensures aS[Flat2(k, r, c.blockM)] == a[Flat2(Flat2(blockY, r, c.blockM), Flat2(kt, k, c.blockK), n)]
    {
      var f := Flat2(r, k, c.blockK);
      Flat2Bound(r, k, c.blockM, c.blockK);
      Flat2Split(r, k, c.blockK);
      Flat2Split(k, r, c.blockM);
      var d := StageDst(c.blockM, c.blockK, true, f);
      DivModUnique(d, c.blockM, k, r);
    }
  }

  /** Staging of the B tile of block column `blockX` at outer iteration `kt`
      (lines 82 and 97-98): a straight copy. */
  method StageB<H>(c: Config, n: Pos, blockX: nat, kt: nat, b: array<H>, bS: array<H>)
    requires WorkingValid(c, n)
    requires blockX < n / c.blockN && kt < n / c.blockK
    requires b != bS && b.Length == n * n && bS.Length == c.blockK * c.blockN
    modifies bS
    ensures StagedB(c, n, blockX, kt, b[..], bS[..])
  {
    StagingShapes(c, n);
    StageTile(b, bS, n, c.blockK, c.blockN, c.threads, kt, blockX, false);
    forall k: nat, col: nat | k < c.blockK && col < c.blockN
      ensures Flat2(k, col, c.blockN) < bS.Length && Flat2(Flat2(kt, k, c.blockK), Flat2(blockX, col, c.blockN), n) < b.Length
      ensures bS[Flat2(k, col, c.blockN)] == b[Flat2(Flat2(kt, k, c.blockK), Flat2(blockX, col, c.blockN), n)]
    {
      var f := Flat2(k, col, c.blockN);
      Flat2Bound(k, col, c.blockK, c.blockN);
      Flat2Split(k, col, c.blockN);
      var d, s := StageDst(c.blockK, c.blockN, false, f), StageSrc(n, c.blockK, c.blockN, kt, blockX, f);
      assert bS[d] == b[s];
      assert d == f;
      assert s == Flat2(Flat2(kt, k, c.blockK), Flat2(blockX, col, c.blockN), n);
    }
  }

  /** In the working plan every slot of As and of Bs is written by exactly
      one (chunk, thread) pair. */
  lemma WorkingStagingExactlyOnce(c: Config, n: Pos)
    requires WorkingValid(c, n)
    ensures (c.blockM * c.blockK) % c.threads == 0 && (c.blockK * c.blockN) % c.threads == 0
    ensures forall j: nat, tid: nat | j < (c.blockM * c.blockK) / c.threads && tid < c.threads ::
      Flat2(j, tid, c.threads) < c.blockM * c.blockK
      && WriterOf(c.blockM, c.blockK, c.threads, true, StageDst(c.blockM, c.blockK, true, Flat2(j, tid, c.threads)))
         == Writer(j, tid)
    ensures forall j: nat, tid: nat | j < (c.blockK * c.blockN) / c.threads && tid < c.threads ::
      Flat2(j, tid, c.threads) < c.blockK * c.blockN
      && WriterOf(c.blockK, c.blockN, c.threads, false, StageDst(c.blockK, c.blockN, false, Flat2(j, tid, c.threads)))
         == Writer(j, tid)
    ensures forall d: nat | d < c.blockM * c.blockK ::
      var w := WriterOf(c.blockM, c.blockK, c.threads, true, d);
      w.chunk < (c.blockM * c.blockK) / c.threads && w.tid < c.threads
      && Flat2(w.chunk, w.tid, c.threads) < c.blockM * c.blockK
      && StageDst(c.blockM, c.blockK, true, Flat2(w.chunk, w.tid, c.threads)) == d
    ensures forall d: nat | d < c.blockK * c.blockN ::
      var w := WriterOf(c.blockK, c.blockN, c.threads, false, d);
      w.chunk < (c.blockK * c.blockN) / c.threads && w.tid < c.threads
      && Flat2(w.chunk, w.tid, c.threads) == d
  {
    StagingShapes(c, n);
    StagingExactlyOnce(c.blockM, c.blockK, c.threads, true);
    StagingExactlyOnce(c.blockK, c.blockN, c.threads, false);
  }

  /** The draft plan stages without a transpose: every slot of its
      BLOCK_K x BLOCK_M As (64 x 64) and BLOCK_K x BLOCK_N Bs (64 x 128) is
      written by exactly one (chunk, thread) pair of its 128 threads, 32
      and 64 chunks per thread respectively. */
  lemma DraftStagingExactlyOnce()
    ensures (DraftPlan.blockK * DraftPlan.blockM) / DraftPlan.threads == 32
    ensures (DraftPlan.blockK * DraftPlan.blockN) / DraftPlan.threads == 64
    ensures forall j: nat, tid: nat | j < 32 && tid < DraftPlan.threads ::
      Flat2(j, tid, DraftPlan.threads) < DraftPlan.blockK * DraftPlan.blockM
      && WriterOf(DraftPlan.blockK, DraftPlan.blockM, DraftPlan.threads, false,
                  StageDst(DraftPlan.blockK, DraftPlan.blockM, false, Flat2(j, tid, DraftPlan.threads)))
         == Writer(j, tid)
    ensures forall j: nat, tid: nat | j < 64 && tid < DraftPlan.threads ::
      Flat2(j, tid, DraftPlan.threads) < DraftPlan.blockK * DraftPlan.blockN
      && WriterOf(DraftPlan.blockK, DraftPlan.blockN, DraftPlan.threads, false,
                  StageDst(DraftPlan.blockK, DraftPlan.blockN, false, Flat2(j, tid, DraftPlan.threads)))
         == Writer(j, tid)
    ensures forall d: nat | d < DraftPlan.blockK * DraftPlan.blockM ::
      var w := WriterOf(DraftPlan.blockK, DraftPlan.blockM, DraftPlan.threads, false, d);
      w.chunk < 32 && w.tid < DraftPlan.threads && Flat2(w.chunk, w.tid, DraftPlan.threads) == d
    ensures forall d: nat | d < DraftPlan.blockK * DraftPlan.blockN ::
      var w := WriterOf(DraftPlan.blockK, DraftPlan.blockN, DraftPlan.threads, false, d);
      w.chunk < 64 && w.tid < DraftPlan.threads && Flat2(w.chunk, w.tid, DraftPlan.threads) == d
  {
    var c := DraftPlan;
    StagingExactlyOnce(c.blockK, c.blockM, c.threads, false);
    StagingExactlyOnce(c.blockK, c.blockN, c.threads, false);
  }
}
