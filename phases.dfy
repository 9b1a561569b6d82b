/** The order in which one block of the working plan does its work, as a
    trace of events: per outer iteration, the staging stores, a barrier,
    the tensor-core steps of every k-chunk and tile, a barrier; then the
    epilogue stores.  A phase automaton states the protocol the trace must
    follow. */
module Phases {
  import opened Layout

  datatype Event =
    | Stage(kt: nat)                                       // As_store, Bs_store of outer iteration kt
    | Barrier                                              // UOp.barrier
    | Mma(kt: nat, kChunk: nat, mTile: nat, nTile: nat)    // one WMMA and its four c_regs stores
    | Store(mTile: nat, nTile: nat, elem: nat)             // one epilogue store to global C

  /** The extents of the loop nest: outer iterations (N // BLOCK_K), k-chunks
      per iteration (BLOCK_K // TC_K), M_TILES and N_TILES. */
  datatype Nest = Nest(kTiles: nat, kChunks: nat, mTiles: nat, nTiles: nat)

  // ---------------------------------------------------------------------
  // The trace the plan emits
  // ---------------------------------------------------------------------

  /** The tensor-core steps n_tile = 0 .. count-1 of M tile m. */
  function RowSteps(kt: nat, kc: nat, m: nat, count: nat): seq<Event>
  {
    if count == 0 then [] else RowSteps(kt, kc, m, count - 1) + [Mma(kt, kc, m, count - 1)]
  }

  /** The tensor-core steps of M tiles 0 .. rows-1 of one k-chunk. */
  function ChunkSteps(kt: nat, kc: nat, rows: nat, nTiles: nat): seq<Event>
  {
    if rows == 0 then [] else ChunkSteps(kt, kc, rows - 1, nTiles) + RowSteps(kt, kc, rows - 1, nTiles)
  }

  /** The tensor-core steps of k-chunks 0 .. chunks-1 of outer iteration kt. */
  function ChunkLoop(kt: nat, chunks: nat, mTiles: nat, nTiles: nat): seq<Event>
  {
    if chunks == 0 then [] else ChunkLoop(kt, chunks - 1, mTiles, nTiles) + ChunkSteps(kt, chunks - 1, mTiles, nTiles)
  }

  /** The steps of one more k-chunk follow those before it. */
  lemma ChunkLoopNext(kt: nat, chunks: nat, mTiles: nat, nTiles: nat)
    ensures ChunkLoop(kt, chunks + 1, mTiles, nTiles) == ChunkLoop(kt, chunks, mTiles, nTiles) + ChunkSteps(kt, chunks, mTiles, nTiles)
  {
  }

  /** One outer iteration: stage, barrier, compute, barrier (lines 95-101
      and 210). */
  function Iteration(nest: Nest, kt: nat): seq<Event>
  {
    [Stage(kt), Barrier] + ChunkLoop(kt, nest.kChunks, nest.mTiles, nest.nTiles) + [Barrier]
  }

  /** Outer iterations 0 .. count-1. */
  function MainLoop(nest: Nest, count: nat): seq<Event>
  {
    if count == 0 then [] else MainLoop(nest, count - 1) + Iteration(nest, count - 1)
  }

  /** The epilogue stores elem = 0 .. count-1 of tile (m, nt). */
  function StoreElems(m: nat, nt: nat, count: nat): seq<Event>
  {
    if count == 0 then [] else StoreElems(m, nt, count - 1) + [Store(m, nt, count - 1)]
  }

  /** The epilogue stores of N tiles 0 .. count-1 of M tile m. */
  function StoreRow(m: nat, count: nat): seq<Event>
  {
    if count == 0 then [] else StoreRow(m, count - 1) + StoreElems(m, count - 1, 4)
  }

  /** The epilogue stores of M tiles 0 .. rows-1. */
  function StoreLoop(rows: nat, nTiles: nat): seq<Event>
  {
    if rows == 0 then [] else StoreLoop(rows - 1, nTiles) + StoreRow(rows - 1, nTiles)
  }

  /** The whole trace of one thread of one block. */
  function PlanTrace(nest: Nest): seq<Event>
  {
    MainLoop(nest, nest.kTiles) + StoreLoop(nest.mTiles, nest.nTiles)
  }

  // ---------------------------------------------------------------------
  // Every tile's tensor-core step once per k-chunk
  // ---------------------------------------------------------------------

  /** RowSteps lists n_tile = 0 .. count-1 in order, each once. */
  lemma {:induction false} RowStepsIndexed(kt: nat, kc: nat, m: nat, count: nat)
    ensures |RowSteps(kt, kc, m, count)| == count
    ensures forall j | 0 <= j < count :: RowSteps(kt, kc, m, count)[j] == Mma(kt, kc, m, j)
  {
    if count > 0 {
      RowStepsIndexed(kt, kc, m, count - 1);
    }
  }

  /** One k-chunk issues M_TILES * N_TILES tensor-core steps. */
  lemma {:induction false} ChunkStepsLength(kt: nat, kc: nat, rows: nat, nTiles: nat)
    ensures |ChunkSteps(kt, kc, rows, nTiles)| == rows * nTiles
  {
    if rows > 0 {
      ChunkStepsLength(kt, kc, rows - 1, nTiles);
      RowStepsIndexed(kt, kc, rows - 1, nTiles);
      assert (rows - 1) * nTiles + nTiles == rows * nTiles;
    }
  }

  /** Step Flat2(m, nt, N_TILES) of one k-chunk is the one of tile (m, nt). */
  lemma {:induction false} ChunkStepAt(kt: nat, kc: nat, rows: nat, nTiles: nat, m: nat, nt: nat)
    requires m < rows && nt < nTiles
    ensures Flat2(m, nt, nTiles) < |ChunkSteps(kt, kc, rows, nTiles)|
    ensures ChunkSteps(kt, kc, rows, nTiles)[Flat2(m, nt, nTiles)] == Mma(kt, kc, m, nt)
  {
    var prev, row := ChunkSteps(kt, kc, rows - 1, nTiles), RowSteps(kt, kc, rows - 1, nTiles);
    ChunkStepsLength(kt, kc, rows - 1, nTiles);
    RowStepsIndexed(kt, kc, rows - 1, nTiles);
    assert ChunkSteps(kt, kc, rows, nTiles) == prev + row;
    if m == rows - 1 {
      assert Flat2(m, nt, nTiles) == |prev| + nt;
    } else {
      ChunkStepAt(kt, kc, rows - 1, nTiles, m, nt);
    }
  }

  /** Step i of one k-chunk is the one of tile (i // N_TILES, i % N_TILES). */
  lemma ChunkStepOfIndex(kt: nat, kc: nat, rows: nat, nTiles: nat, i: nat)
    requires i < rows * nTiles
    ensures nTiles > 0 && i < |ChunkSteps(kt, kc, rows, nTiles)|
    ensures ChunkSteps(kt, kc, rows, nTiles)[i] == Mma(kt, kc, i / nTiles, i % nTiles)
  {
    Flat2Join(i, rows, nTiles);
    ChunkStepAt(kt, kc, rows, nTiles, i / nTiles, i % nTiles);
  }

  /** The M_TILES x N_TILES tensor-core steps of one k-chunk: every tile
      (m, nt) is stepped at position Flat2(m, nt, N_TILES), and step i is
      the one of tile (i // N_TILES, i % N_TILES), so every tile is stepped
      exactly once, in row-major order. */
  lemma ChunkStepsExactlyOnce(kt: nat, kc: nat, rows: nat, nTiles: nat)
    ensures |ChunkSteps(kt, kc, rows, nTiles)| == rows * nTiles
    ensures forall m: nat, nt: nat | m < rows && nt < nTiles ::
      Flat2(m, nt, nTiles) < rows * nTiles && ChunkSteps(kt, kc, rows, nTiles)[Flat2(m, nt, nTiles)] == Mma(kt, kc, m, nt)
    ensures forall i | 0 <= i < rows * nTiles ::
      nTiles > 0 && i / nTiles >= 0 && ChunkSteps(kt, kc, rows, nTiles)[i] == Mma(kt, kc, i / nTiles, i % nTiles)
  {
    ChunkStepsLength(kt, kc, rows, nTiles);
    forall m: nat, nt: nat | m < rows && nt < nTiles
      ensures Flat2(m, nt, nTiles) < rows * nTiles
      ensures ChunkSteps(kt, kc, rows, nTiles)[Flat2(m, nt, nTiles)] == Mma(kt, kc, m, nt)
    {
      ChunkStepAt(kt, kc, rows, nTiles, m, nt);
    }
    forall i | 0 <= i < rows * nTiles
      ensures nTiles > 0 && i / nTiles >= 0 && ChunkSteps(kt, kc, rows, nTiles)[i] == Mma(kt, kc, i / nTiles, i % nTiles)
    {
      ChunkStepOfIndex(kt, kc, rows, nTiles, i);
    }
  }

  // ---------------------------------------------------------------------
  // The protocol
  // ---------------------------------------------------------------------

  /** Where a block is in its run: ready to stage iteration kt, staged (the
      shared tiles are being written), computing on the staged tiles,
      storing the result; Broken once an event comes out of order. */
  datatype Phase = Ready(kt: nat) | Staged(kt: nat) | Computing(kt: nat) | Storing | Broken

  /** Staging of iteration kt only when ready for it, and only for one of
      the kTiles iterations; a barrier after staging before any tensor-core
      step; tensor-core steps of iteration kt only while computing on its
      tiles; a barrier before the next staging overwrites them; the
      epilogue only once every iteration is done. */
  function Step(kTiles: nat, p: Phase, ev: Event): Phase
  {
    match ev
    case Stage(k) => if p == Ready(k) && k < kTiles then Staged(k) else Broken
    case Barrier => if p.Staged? then Computing(p.kt) else if p.Computing? then Ready(p.kt + 1) else Broken
    case Mma(k, _, _, _) => if p == Computing(k) then p else Broken
    case Store(_, _, _) => if p == Ready(kTiles) || p == Storing then Storing else Broken
  }

  /** The phase after a sequence of events. */
  function Run(kTiles: nat, p: Phase, evs: seq<Event>): Phase
  {
    if |evs| == 0 then p else Step(kTiles, Run(kTiles, p, evs[..|evs| - 1]), evs[|evs| - 1])
  }

  lemma {:induction false} RunAppend(kTiles: nat, p: Phase, s: seq<Event>, t: seq<Event>)
    ensures Run(kTiles, p, s + t) == Run(kTiles, Run(kTiles, p, s), t)
    decreases |t|
  {
    if |t| == 0 {
      assert s + t == s;
    } else {
      var t' := t[..|t| - 1];
      assert (s + t)[..|s + t| - 1] == s + t';
      RunAppend(kTiles, p, s, t');
    }
  }

  /** Once broken, always broken. */
  lemma {:induction false} BrokenStays(kTiles: nat, s: seq<Event>)
    ensures Run(kTiles, Broken, s) == Broken
    decreases |s|
  {
    if |s| > 0 {
      BrokenStays(kTiles, s[..|s| - 1]);
    }
  }

  /** A run that ends unbroken was unbroken after every prefix: each event
      of it was allowed where it came. */
  lemma PrefixesUnbroken(kTiles: nat, p: Phase, s: seq<Event>, j: nat)
    requires j <= |s| && Run(kTiles, p, s) != Broken
    ensures Run(kTiles, p, s[..j]) != Broken
  {
    assert s == s[..j] + s[j..];
    RunAppend(kTiles, p, s[..j], s[j..]);
    if Run(kTiles, p, s[..j]) == Broken {
      BrokenStays(kTiles, s[j..]);
    }
  }

  /** Tensor-core steps of iteration kt leave Computing(kt) as it is. */
  lemma {:induction false} MmasKeepComputing(kTiles: nat, kt: nat, s: seq<Event>)
    requires forall i | 0 <= i < |s| :: s[i].Mma? && s[i].kt == kt
    ensures Run(kTiles, Computing(kt), s) == Computing(kt)
    decreases |s|
  {
    if |s| > 0 {
      MmasKeepComputing(kTiles, kt, s[..|s| - 1]);
    }
  }

  /** Every event of ChunkLoop is a tensor-core step of iteration kt. */
  lemma {:induction false} ChunkLoopMmas(kt: nat, chunks: nat, mTiles: nat, nTiles: nat)
    ensures forall i | 0 <= i < |ChunkLoop(kt, chunks, mTiles, nTiles)| ::
      ChunkLoop(kt, chunks, mTiles, nTiles)[i].Mma? && ChunkLoop(kt, chunks, mTiles, nTiles)[i].kt == kt
  {
    if chunks > 0 {
      ChunkLoopMmas(kt, chunks - 1, mTiles, nTiles);
      var steps := ChunkSteps(kt, chunks - 1, mTiles, nTiles);
      ChunkStepsExactlyOnce(kt, chunks - 1, mTiles, nTiles);
      assert forall i | 0 <= i < |steps| :: steps[i].Mma? && steps[i].kt == kt;
    }
  }

  /** One outer iteration takes a block from Ready(kt) to Ready(kt + 1). */
  lemma IterationRun(nest: Nest, kt: nat)
    requires kt < nest.kTiles
    ensures Run(nest.kTiles, Ready(kt), Iteration(nest, kt)) == Ready(kt + 1)
  {
    var k := nest.kTiles;
    var body := ChunkLoop(kt, nest.kChunks, nest.mTiles, nest.nTiles);
    ChunkLoopMmas(kt, nest.kChunks, nest.mTiles, nest.nTiles);
    MmasKeepComputing(k, kt, body);
    RunAppend(k, Ready(kt), [Stage(kt), Barrier] + body, [Barrier]);
    RunAppend(k, Ready(kt), [Stage(kt), Barrier], body);
    assert [Stage(kt), Barrier][..1] == [Stage(kt)];
    assert Run(k, Ready(kt), [Stage(kt)]) == Staged(kt);
  }

  /** The first count outer iterations take a block from Ready(0) to
      Ready(count). */
  lemma {:induction false} MainLoopRun(nest: Nest, count: nat)
    requires count <= nest.kTiles
    ensures Run(nest.kTiles, Ready(0), MainLoop(nest, count)) == Ready(count)
  {
    if count > 0 {
      MainLoopRun(nest, count - 1);
      RunAppend(nest.kTiles, Ready(0), MainLoop(nest, count - 1), Iteration(nest, count - 1));
      IterationRun(nest, count - 1);
    }
  }

  /** Every event of the epilogue is a store. */
  lemma {:induction false} StoreLoopStores(rows: nat, nTiles: nat)
    ensures |StoreLoop(rows, nTiles)| == rows * nTiles * 4
    ensures forall i | 0 <= i < |StoreLoop(rows, nTiles)| :: StoreLoop(rows, nTiles)[i].Store?
  {
    if rows > 0 {
      StoreLoopStores(rows - 1, nTiles);
      StoreRowStores(rows - 1, nTiles);
      assert (rows - 1) * nTiles * 4 + nTiles * 4 == rows * nTiles * 4;
    }
  }

  lemma {:induction false} StoreRowStores(m: nat, count: nat)
    ensures |StoreRow(m, count)| == count * 4
    ensures forall i | 0 <= i < |StoreRow(m, count)| :: StoreRow(m, count)[i].Store?
  {
    if count > 0 {
      StoreRowStores(m, count - 1);
      StoreElemsStores(m, count - 1, 4);
    }
  }

  lemma {:induction false} StoreElemsStores(m: nat, nt: nat, count: nat)
    ensures |StoreElems(m, nt, count)| == count
    ensures forall i | 0 <= i < count :: StoreElems(m, nt, count)[i] == Store(m, nt, i)
  {
    if count > 0 {
      StoreElemsStores(m, nt, count - 1);
    }
  }

  /** A nonempty run of stores from Ready(kTiles) ends in Storing. */
  lemma {:induction false} StoresRun(kTiles: nat, s: seq<Event>)
    requires |s| > 0 && forall i | 0 <= i < |s| :: s[i].Store?
    ensures Run(kTiles, Ready(kTiles), s) == Storing
    decreases |s|
  {
    if |s| > 1 {
      StoresRun(kTiles, s[..|s| - 1]);
    }
  }

  /** The plan follows the protocol: every staging waits for the previous
      iteration's closing barrier, every tensor-core step runs between the
      barriers of its own iteration, and the epilogue reads the
      accumulators only after the last iteration's closing barrier. */
  lemma PlanFollowsProtocol(nest: Nest)
    requires nest.mTiles > 0 && nest.nTiles > 0
    ensures Run(nest.kTiles, Ready(0), PlanTrace(nest)) == Storing
    ensures forall j | 0 <= j <= |PlanTrace(nest)| :: Run(nest.kTiles, Ready(0), PlanTrace(nest)[..j]) != Broken
  {
    var k := nest.kTiles;
    MainLoopRun(nest, k);
    RunAppend(k, Ready(0), MainLoop(nest, k), StoreLoop(nest.mTiles, nest.nTiles));
    StoreLoopStores(nest.mTiles, nest.nTiles);
    assert nest.mTiles * nest.nTiles * 4 > 0 by {
      MulAtLeast(nest.mTiles, nest.nTiles);
      MulAtLeast(nest.mTiles * nest.nTiles, 4);
    }
    StoresRun(k, StoreLoop(nest.mTiles, nest.nTiles));
    forall j | 0 <= j <= |PlanTrace(nest)|
      ensures Run(k, Ready(0), PlanTrace(nest)[..j]) != Broken
    {
      PrefixesUnbroken(k, Ready(0), PlanTrace(nest), j);
    }
  }

  /** The automaton refuses a store before the last iteration's closing
      barrier: a block ready for outer iteration kt < kTiles that stores is
      broken. */
  lemma EarlyStoreRefused(kTiles: nat, kt: nat, m: nat, nt: nat, e: nat)
    requires kt < kTiles
    ensures Step(kTiles, Ready(kt), Store(m, nt, e)) == Broken
    ensures Step(kTiles, Computing(kt), Store(m, nt, e)) == Broken
  {
  }
}
