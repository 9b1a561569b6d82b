# Tiled tensor-core matmul plans, modelled in Dafny

This project models the index arithmetic of two hand-written tinygrad
matmul kernels for NVIDIA tensor cores.

- `extra/gemm/nv_uop_matmul_working.py` is the working plan.
  - Each block of a grid of `N // BLOCK_N x M // BLOCK_M` blocks owns one
    `BLOCK_M x BLOCK_N` tile of C.
  - Per outer iteration the block stages an A tile (transposed) and a B tile
    into shared memory, waits at a barrier, and then runs one m16n8k16
    tensor-core step per k-chunk and per `(m_tile, n_tile)` of its warp.
    Each step loads an 8-element A fragment and a 4-element B fragment per
    lane and overwrites four accumulator registers.
  - After the last iteration, the epilogue stores every register to its cell
    of C.
- `extra/gemm/nv_uop_matmul.py` is the earlier draft. It has the same named
  constants with different values, the same module asserts, and two more on
  the lane grid. It adds an 8 x 4 lane grid and register-tile gathers of A
  and B rows.

The model has these parts:

- **Configuration** (`tiling.dfy`):
  - the constants and the values derived from them by integer division;
  - every assert and every reshape tinygrad would refuse, as an ordered list
    of checks with the first one that fails.
- **Geometry:**
  - the block grid and tiles (`partition.dfy`);
  - cooperative staging into shared memory, as array methods (`staging.dfy`);
  - warp, lane and lane-bit decomposition (`lanes.dfy`);
  - the A, B and C fragment maps with their inverses (`fragments.dfy`).
- **One thread of one block, run sequentially:**
  - the accumulator register file, as a class over an array (`accumulators.dfy`);
  - the per-lane fragment loads, as methods with loops (`loads.dfy`);
  - the event trace of the loop nest and the phase protocol it follows (`phases.dfy`);
  - the reduction loop, proved against a reference fold of the tensor-core
    step over fragments read directly from global A and B (`blockrun.dfy`);
  - the epilogue stores into global C (`output.dfy`);
  - the whole thread (`kernel.dfy`).
- **The draft's register-tile gathers** (`draftgather.dfy`).
- **A configuration that passes every check of the working file but whose
  epilogue leaves cells of C unwritten, and whose warps outside warp row 0
  store tiles computed from the wrong A rows** (`findings.dfy`).

Both files set `M = K = N`, so the model has a single size `n`.

The tensor-core step is a parameter of the model, an uninterpreted function
on an A fragment, a B fragment and a vec(4) of accumulators. The input
matrices and the float zero are also parameters.

## Model

| member | source | states |
|---|---|---|
| Tiling.FirstFailure | extra/gemm/nv_uop_matmul_working.py:37-127 | None exactly when every check holds; otherwise the index of a failing check with every earlier check holding (the assert Python raises at) |
| Tiling.ReshapeExact | extra/gemm/nv_uop_matmul_working.py:77-82 | a (a//b, b, c//d, d) reshape of an a x c buffer keeps the element count iff b divides a and d divides c |
| Tiling.ReshapesHold | extra/gemm/nv_uop_matmul_working.py:77-127 | the three grid reshapes and the two shared-tile reshapes succeed when the block sizes divide N and the tensor-core sizes divide the block sizes |
| Tiling.ThreadsFillWarps | extra/gemm/nv_uop_matmul_working.py:106-108 | the warp-row assertion, given the warp grid matches, forces THREADS_PER_BLOCK == WARPS_PER_BLOCK * WARP_SIZE |
| Tiling.WorkingFacts | extra/gemm/nv_uop_matmul_working.py:37-53 | a configuration passing the working checks has whole warp tiles filling the block, N divisible by every block size, and shared tiles split into whole per-thread chunks |
| Tiling.CorrectedFacts | extra/gemm/nv_uop_matmul_working.py:52-53 | with the two added checks, M_TILES*TC_M == WARP_TILE_M and N_TILES*TC_N == WARP_TILE_N, and the source's own checks still hold |
| Tiling.CorrectedFromWorking | extra/gemm/nv_uop_matmul_working.py:52-53 | the source's checks plus WARP_TILE_M % TC_M == 0 and WARP_TILE_N % TC_N == 0 are the corrected checks |
| Tiling.DraftFacts | extra/gemm/nv_uop_matmul.py:29-49 | a configuration passing the draft checks has exact warp tiles, exact register-tile iteration counts and gather reshapes of BLOCK_M and BLOCK_N elements |
| Tiling.WorkingShippedValid | extra/gemm/nv_uop_matmul_working.py:20-53 | the shipped constants pass every check, with WARPS_PER_BLOCK = 8, WARP_TILE_M = 32, a 2 x 4 warp grid, M_TILES = 2 and N_TILES = 8 |
| Tiling.WorkingShippedCorrected | extra/gemm/nv_uop_matmul_working.py:52-53 | the shipped constants also pass the two added checks |
| Tiling.DraftShippedValid | extra/gemm/nv_uop_matmul.py:14-49 | the draft constants pass every check, with WARPS_PER_BLOCK = 4, WARP_TILE_M = 16, a 1 x 4 warp grid and two iterations per axis |
| Tiling.BlockNNotMultipleRejected | extra/gemm/nv_uop_matmul_working.py:45 | with WARP_TILE_N = 48 the first failing check is BLOCK_N % WARP_TILE_N == 0 |
| Partition.PlanGrid | extra/gemm/nv_uop_matmul_working.py:69-80 | the grid's blocks and outer iterations times the block sizes give back N on each axis |
| Partition.GridDivides | extra/gemm/nv_uop_matmul_working.py:77-82 | the working checks (which include the grid reshapes) imply N is a multiple of BLOCK_M, BLOCK_N and BLOCK_K, so the grid reshapes are exact |
| Partition.CellOwned | extra/gemm/nv_uop_matmul_working.py:77 | every cell of C has an in-range owner (tile and position) whose view names that cell |
| Partition.OwnerOfCell | extra/gemm/nv_uop_matmul_working.py:77 | the owner of the cell a tile position names is that tile position |
| Partition.TilesPartition | extra/gemm/nv_uop_matmul_working.py:77-82 | block tiles are disjoint and cover the N x N matrix: the owner map and the view are mutually inverse |
| Partition.KSlicesPartition | extra/gemm/nv_uop_matmul_working.py:80-82 | outer iteration kt reads K indices kt*BLOCK_K .. kt*BLOCK_K+BLOCK_K-1, and each K index belongs to exactly one iteration |
| Partition.ShippedGrid | extra/gemm/nv_uop_matmul_working.py:69-80 | at N = 4096 the grid is 32 x 32 blocks with 128 outer iterations |
| Staging.StageDst | extra/gemm/nv_uop_matmul_working.py:95-98 | element f lands inside the shared tile; for the transposed As the slot is column-major (slot / rows == f % cols, slot % rows == f / cols); for Bs it is f itself |
| Staging.StageSrc | extra/gemm/nv_uop_matmul_working.py:81-82 | element f of tile (p, q) is global cell (p*rows + f/cols, q*cols + f%cols), inside the N x N matrix |
| Staging.StageDstInverse | extra/gemm/nv_uop_matmul_working.py:95-98 | StageSrcOfDst undoes StageDst |
| Staging.StageDstOnto | extra/gemm/nv_uop_matmul_working.py:95-98 | every destination slot is the destination of the in-range element StageSrcOfDst names |
| Staging.StageDstInjective | extra/gemm/nv_uop_matmul_working.py:95-98 | distinct elements land in distinct slots |
| Staging.WriterWrites | extra/gemm/nv_uop_matmul_working.py:95-98 | (chunk j, thread tid) copies element j*T + tid, inside the tile, and is the writer of the slot it lands in |
| Staging.SlotWritten | extra/gemm/nv_uop_matmul_working.py:95-98 | every slot has an in-range (chunk, thread) writer whose element lands in it |
| Staging.StagingExactlyOnce | extra/gemm/nv_uop_matmul_working.py:95-98 | (chunk, thread) pairs and shared-tile slots are in one-to-one correspondence |
| Staging.StageTile | extra/gemm/nv_uop_matmul_working.py:95-98 | after the chunk-by-chunk sweep every element of tile (p, q) of the source sits at its destination |
| Staging.StagingShapes | extra/gemm/nv_uop_matmul_working.py:39-40 | the working checks make both shared tiles split into whole chunks of THREADS_PER_BLOCK elements |
| Staging.StageA | extra/gemm/nv_uop_matmul_working.py:95-96 | As[k][r] == A[blockY*BLOCK_M + r][kt*BLOCK_K + k] for the whole tile (the transpose) |
| Staging.StageB | extra/gemm/nv_uop_matmul_working.py:97-98 | Bs[k][x] == B[kt*BLOCK_K + k][blockX*BLOCK_N + x] for the whole tile (a straight copy) |
| Staging.WorkingStagingExactlyOnce | extra/gemm/nv_uop_matmul_working.py:92-98 | every slot of As and of Bs is written by exactly one (chunk, thread) pair |
| Staging.DraftStagingExactlyOnce | extra/gemm/nv_uop_matmul.py:62-68 | every slot of the draft's As (32 chunks) and Bs (64 chunks) is written by exactly one (chunk, thread) pair, without a transpose |
| Lanes.ThreadDecomposition | extra/gemm/nv_uop_matmul_working.py:106-110 | warpIdx, warpIdy and lane are in range and tid == (warpIdy*X + warpIdx)*WARP_SIZE + lane |
| Lanes.ThreadComposition | extra/gemm/nv_uop_matmul_working.py:106-110 | every in-range (warp row, warp column, lane) is a thread of the block that decomposes back into it |
| Lanes.LastWarpRowReached | extra/gemm/nv_uop_matmul_working.py:108 | the last thread sits in warp row WARPS_IN_BLOCK_Y - 1 |
| Lanes.LaneBits | extra/gemm/nv_uop_matmul_working.py:114-118 | l0..l4 are single bits and lane == l0 + 2*l1 + 4*l2 + 8*l3 + 16*l4 |
| Lanes.LaneOfBits | extra/gemm/nv_uop_matmul_working.py:114-118 | reassembling a lane from its bits gives the lane back |
| Lanes.LaneFromBits | extra/gemm/nv_uop_matmul_working.py:114-118 | the lane built from five bits is below 32 and has exactly those bits |
| Lanes.DraftThreadDecomposition | extra/gemm/nv_uop_matmul.py:79-83 | warpIdx < 1, warpIdy < 4, laneIdx < 8, laneIdy < 4 and tid % 32 == laneIdy*8 + laneIdx |
| Fragments.AFromDigits | extra/gemm/nv_uop_matmul_working.py:169-171 | the A map on binary digits: which lane bits and element bits give which row and column bits |
| Fragments.AHolder | extra/gemm/nv_uop_matmul_working.py:169-171 | every cell of the 16x16 A tile is read by some (lane < 32, elem < 8) |
| Fragments.AFragmentInjective | extra/gemm/nv_uop_matmul_working.py:169-171 | AHolder undoes the A map: (lane, elem) -> (row_idx, col_idx) is a bijection onto 16x16 |
| Fragments.AFragmentBounds | extra/gemm/nv_uop_matmul_working.py:169-171 | row_idx and col_idx of the A map stay below 16 |
| Fragments.BHolder | extra/gemm/nv_uop_matmul_working.py:189-190 | every cell of the 16x8 B tile is read by some (lane < 32, elem < 4) |
| Fragments.BFragmentInjective | extra/gemm/nv_uop_matmul_working.py:189-190 | BHolder undoes the B map: a bijection onto 16x8 |
| Fragments.BFragmentBounds | extra/gemm/nv_uop_matmul_working.py:189-190 | row_idx < 16 and col_idx < 8 |
| Fragments.CHolder | extra/gemm/nv_uop_matmul_working.py:233-237 | every cell of the 16x8 C tile is stored by some (lane < 32, elem < 4) |
| Fragments.CFragmentRoundTrip | extra/gemm/nv_uop_matmul_working.py:233-237 | the register stored to a cell is the one that cell's holder names: store then load round-trips |
| Fragments.WarpTileFacts | extra/gemm/nv_uop_matmul_working.py:42-53 | under the working checks the tensor-core tiles fit the warp tile and the warp tiles fill the block tile |
| Fragments.TileIndicesInBounds | extra/gemm/nv_uop_matmul_working.py:161-181 | a_tile_idx < BLOCK_M // 16 and b_tile_idx < BLOCK_N // 8 for every thread and tile index |
| Fragments.EpilogueFacts | extra/gemm/nv_uop_matmul_working.py:42-53 | under the corrected checks M_TILES*16 == WARP_TILE_M and N_TILES*8 == WARP_TILE_N |
| Fragments.EpilogueStoreInjective | extra/gemm/nv_uop_matmul_working.py:221-244 | each register is stored to an in-range cell whose source is that register |
| Fragments.EpilogueStoreSurjective | extra/gemm/nv_uop_matmul_working.py:221-244 | every cell of the block tile has an in-range source register that is stored to it |
| Fragments.EpilogueCoversBlock | extra/gemm/nv_uop_matmul_working.py:221-244 | the epilogue writes every cell of the BLOCK_M x BLOCK_N tile exactly once |
| Accumulators.OffsetBijection | extra/gemm/nv_uop_matmul_working.py:135-138 | c_regs[m, n, i] names one slot of the flattened array, and every slot is named once |
| Accumulators.SpliceTile | extra/gemm/nv_uop_matmul_working.py:203-208 | overwriting tile (m, n) sets its four accumulators and leaves every other tile unchanged |
| Accumulators.AccumulatorBank.constructor | extra/gemm/nv_uop_matmul_working.py:135-138 | allocates M_TILES*N_TILES*4 registers and zeroes every one |
| Accumulators.AccumulatorBank.Update | extra/gemm/nv_uop_matmul_working.py:206-208 | the new registers are the old ones with the four slots of tile (m, n) replaced by the step's results |
| Loads.ATileInRange | extra/gemm/nv_uop_matmul_working.py:161 | a_tile_idx names one of the BLOCK_M // 16 row tiles of As |
| Loads.BTileInRange | extra/gemm/nv_uop_matmul_working.py:181 | b_tile_idx names one of the BLOCK_N // 8 column tiles of Bs |
| Loads.GatherA | extra/gemm/nv_uop_matmul_working.py:163-176 | the 8 gathered values are As_tc[k_chunk, col_idx, a_tile_idx, row_idx] for elem 0..7, in order, inside As |
| Loads.GatherB | extra/gemm/nv_uop_matmul_working.py:183-195 | the 4 gathered values are Bs_tc[k_chunk, row_idx, b_tile_idx, col_idx] for elem 0..3, in order, inside Bs |
| Loads.LoadAFragment | extra/gemm/nv_uop_matmul_working.py:161-176 | the A fragment of thread tid for (k_chunk, m_tile) reads exactly the As cells its lane's map names |
| Loads.LoadBFragment | extra/gemm/nv_uop_matmul_working.py:181-195 | the B fragment of thread tid for (k_chunk, n_tile) reads exactly the Bs cells its lane's map names |
| Phases.RowStepsIndexed | extra/gemm/nv_uop_matmul_working.py:178-208 | the n_tile loop issues the steps of n_tile 0..N_TILES-1, in order, each once |
| Phases.ChunkStepsLength | extra/gemm/nv_uop_matmul_working.py:157-208 | one k-chunk issues M_TILES * N_TILES tensor-core steps |
| Phases.ChunkStepAt | extra/gemm/nv_uop_matmul_working.py:157-208 | step m*N_TILES + nt of a k-chunk is the one of tile (m, nt) |
| Phases.ChunkStepsExactlyOnce | extra/gemm/nv_uop_matmul_working.py:157-208 | steps of a k-chunk and tiles are in one-to-one correspondence |
| Phases.ChunkLoopMmas | extra/gemm/nv_uop_matmul_working.py:143-210 | every event of the k_chunk loop of iteration kt is a tensor-core step of iteration kt |
| Phases.MmasKeepComputing | extra/gemm/nv_uop_matmul_working.py:157-208 | tensor-core steps of the current iteration keep the protocol computing |
| Phases.IterationRun | extra/gemm/nv_uop_matmul_working.py:95-210 | one outer iteration (stage, barrier, tensor-core steps, barrier) takes the protocol from Ready(kt) to Ready(kt + 1) |
| Phases.MainLoopRun | extra/gemm/nv_uop_matmul_working.py:80-210 | the first count outer iterations take the protocol from Ready(0) to Ready(count) |
| Phases.StoreLoopStores | extra/gemm/nv_uop_matmul_working.py:221-244 | the epilogue emits M_TILES*N_TILES*4 events, all stores |
| Phases.StoreRowStores | extra/gemm/nv_uop_matmul_working.py:222-244 | one m_tile row of the epilogue emits N_TILES*4 events, all stores |
| Phases.StoreElemsStores | extra/gemm/nv_uop_matmul_working.py:230-244 | the elem loop emits the stores of elements 0..count-1 of tile (m, nt), in order |
| Phases.StoresRun | extra/gemm/nv_uop_matmul_working.py:210-246 | after the last iteration's barrier any non-empty run of stores leaves the protocol storing |
| Phases.PlanFollowsProtocol | extra/gemm/nv_uop_matmul_working.py:95-246 | the plan's trace is accepted: every prefix is unbroken and the run ends storing, so no staging overwrites tiles still being read and no store precedes the last barrier |
| Phases.EarlyStoreRefused | extra/gemm/nv_uop_matmul_working.py:243 | a store before the outer loop has ended breaks the protocol |
| BlockRun.AGlobalBound | extra/gemm/nv_uop_matmul_working.py:81 | the global A cell behind every A fragment element is inside the N x N matrix |
| BlockRun.BGlobalBound | extra/gemm/nv_uop_matmul_working.py:82 | the global B cell behind every B fragment element is inside the N x N matrix |
| BlockRun.AElemFromStaged | extra/gemm/nv_uop_matmul_working.py:161-173 | after staging, the As cell of A fragment element e of k-chunk kc holds the global A cell of reduction chunk kt*KChunks + kc |
| BlockRun.BElemFromStaged | extra/gemm/nv_uop_matmul_working.py:181-192 | the same for B fragment elements and Bs |
| BlockRun.AFragFromStaged | extra/gemm/nv_uop_matmul_working.py:161-176 | the A fragment loaded from staged As is the reference A fragment read from global A |
| BlockRun.BFragFromStaged | extra/gemm/nv_uop_matmul_working.py:181-195 | the B fragment loaded from staged Bs is the reference B fragment read from global B |
| BlockRun.Pack | extra/gemm/nv_uop_matmul_working.py:203 | vectorize then gep round-trips |
| BlockRun.PackUnpack | extra/gemm/nv_uop_matmul_working.py:203-208 | gep then vectorize round-trips |
| BlockRun.PartlyStep | extra/gemm/nv_uop_matmul_working.py:197-208 | writing the step's result into tile (m, nt) moves that tile one chunk on and leaves the rest |
| BlockRun.PartlyStart | extra/gemm/nv_uop_matmul_working.py:143-157 | before the first tile of a chunk no tile of that chunk is done |
| BlockRun.PartlyEnd | extra/gemm/nv_uop_matmul_working.py:208-210 | after the last tile of a chunk every register holds the reference after one more chunk |
| BlockRun.MmaTile | extra/gemm/nv_uop_matmul_working.py:197-208 | the tensor-core step and its four stores advance tile (m, nt) one chunk and leave the others |
| BlockRun.ComputeTile | extra/gemm/nv_uop_matmul_working.py:178-208 | loading the B fragment from staged Bs and stepping advances tile (m, nt) |
| BlockRun.ComputeRow | extra/gemm/nv_uop_matmul_working.py:157-208 | one m_tile iteration advances every tile of row m and emits the steps RowSteps lists |
| BlockRun.ComputeRows | extra/gemm/nv_uop_matmul_working.py:157-208 | the m_tile loop advances every tile and emits the steps ChunkSteps lists |
| BlockRun.ComputeChunk | extra/gemm/nv_uop_matmul_working.py:143-210 | one k-chunk takes c_regs from the reference after g chunks to the reference after g + 1 |
| BlockRun.ComputeStaged | extra/gemm/nv_uop_matmul_working.py:143-210 | the k_chunk loop takes c_regs from the reference after kt*KChunks chunks to the reference after (kt + 1)*KChunks and emits ChunkLoop |
| BlockRun.RunIteration | extra/gemm/nv_uop_matmul_working.py:80-210 | an outer iteration stages, computes and emits exactly the Iteration events, advancing c_regs by one block of K |
| BlockRun.OperandBandsMatchStore | extra/gemm/nv_uop_matmul_working.py:161-240 | under the corrected checks, the A rows (a_tile_idx*16 + row_idx) and B columns (b_tile_idx*8 + col_idx) a step of tile (m, nt) consumes lie in the 16-row and 8-column bands of the block tile its accumulators are stored to: a_tile_idx == out_row // 16 and b_tile_idx == out_col // 8 |
| Output.CGlobalSource | extra/gemm/nv_uop_matmul_working.py:239-244 | every register is stored inside C, to an index whose source is that register |
| Output.SourceCGlobal | extra/gemm/nv_uop_matmul_working.py:239-244 | every index of C with a source is the index that source is stored to |
| Output.StoreStep | extra/gemm/nv_uop_matmul_working.py:243-244 | storing the next register of the thread updates exactly its cell of C, giving C after one more store |
| Output.StoredAll | extra/gemm/nv_uop_matmul_working.py:221-244 | after all stores each register's cell holds it and every cell the thread does not write keeps its value |
| Output.StoreReg | extra/gemm/nv_uop_matmul_working.py:243-244 | one store writes register s to its cell of C, taking C from the stores before s to the stores up to and including s |
| Output.StoreTileRegs | extra/gemm/nv_uop_matmul_working.py:230-244 | the elem loop stores the four registers of tile (m, nt) and emits StoreElems |
| Output.StoreRowRegs | extra/gemm/nv_uop_matmul_working.py:222-244 | the n_tile loop stores every register of M tile m and emits StoreRow |
| Output.Epilogue | extra/gemm/nv_uop_matmul_working.py:221-246 | the epilogue leaves C as StoredC over all of c_regs and emits StoreLoop |
| Kernel.AccumulatedInit | extra/gemm/nv_uop_matmul_working.py:137-138 | zeroed registers hold the reference accumulators after no chunk |
| Kernel.Reduce | extra/gemm/nv_uop_matmul_working.py:80-210 | after the outer loop c_regs holds the reference over all N / 16 chunks, and the trace is MainLoop |
| Kernel.RunThread | extra/gemm/nv_uop_matmul_working.py:59-248 | a whole thread leaves C as its stored registers, each the reference over the whole reduction, and emits the plan's trace |
| Kernel.ThreadStoresReference | extra/gemm/nv_uop_matmul_working.py:221-248 | the cell of each of the thread's registers holds the reference accumulator, and all other cells keep their value |
| DraftGather.ItersPositive | extra/gemm/nv_uop_matmul.py:44-49 | under the draft checks the iteration counts are positive and the gather shapes multiply out to BLOCK_M and BLOCK_N |
| DraftGather.AGatherInjective | extra/gemm/nv_uop_matmul.py:85-86 | digits inside the (Y, ITERS_M, LANES_Y, TM) reshape name a row position below BLOCK_M that gives the digits back |
| DraftGather.AGatherSurjective | extra/gemm/nv_uop_matmul.py:85-86 | every row position below BLOCK_M is named by digits inside the reshape |
| DraftGather.BGatherInjective | extra/gemm/nv_uop_matmul.py:89-90 | the B gather is one-to-one onto columns below BLOCK_N |
| DraftGather.BGatherSurjective | extra/gemm/nv_uop_matmul.py:89-90 | every column below BLOCK_N is named by digits inside the B reshape |
| DraftGather.ShippedAGatherInjective | extra/gemm/nv_uop_matmul.py:85-86 | the shipped draft's A gather is one-to-one |
| DraftGather.ShippedAGatherSurjective | extra/gemm/nv_uop_matmul.py:85-86 | the shipped draft's A gather is onto |
| DraftGather.ShippedBGatherInjective | extra/gemm/nv_uop_matmul.py:89-90 | the shipped draft's B gather is one-to-one |
| DraftGather.ShippedBGatherSurjective | extra/gemm/nv_uop_matmul.py:89-90 | the shipped draft's B gather is onto |
| DraftGather.AFragment | extra/gemm/nv_uop_matmul.py:85-86 | A_frag has ITERS_PER_WARP_M * TM elements |
| DraftGather.BFragment | extra/gemm/nv_uop_matmul.py:89-90 | B_frag has ITERS_PER_WARP_N * TN elements |
| DraftGather.AFragmentCell | extra/gemm/nv_uop_matmul.py:85-86 | every element of a thread's A fragment reads inside row k of As |
| DraftGather.BFragmentCell | extra/gemm/nv_uop_matmul.py:89-90 | every element of a thread's B fragment reads inside row k of Bs |
| DraftGather.AFragmentHolders | extra/gemm/nv_uop_matmul.py:85-86 | a thread holds As[k, col] iff its warp row and lane row are col's digits, and then at element (it, t) of its fragment |
| DraftGather.BFragmentHolders | extra/gemm/nv_uop_matmul.py:89-90 | a thread holds Bs[k, col] iff its warp column and lane column are col's digits, and then at element (it, t) of its fragment |
| Findings.UncoveredPlanPassesChecks | extra/gemm/nv_uop_matmul_working.py:37-53 | BLOCK_M = 96 at N = 384 passes every check of the working file, with WARP_TILE_M = 24 and M_TILES = 1 |
| Findings.UncoveredPlanRejectedWhenCorrected | extra/gemm/nv_uop_matmul_working.py:52 | the corrected checks reject that configuration |
| Findings.EpilogueMissesRows | extra/gemm/nv_uop_matmul_working.py:221-244 | no register of that configuration is stored to cell (16, 0) of the block tile |
| Findings.SlotMissesRow16 | extra/gemm/nv_uop_matmul_working.py:224-239 | in that configuration no register of any thread is stored to row 16 of the block tile |
| Findings.OperandRowsMismatch | extra/gemm/nv_uop_matmul_working.py:161-239 | in that configuration a thread in warp row wy computes tile 0 from A rows starting at 16*wy but stores it from row 24*wy, so for wy >= 1 the two differ |
| Findings.ThreadOfWarpRow | extra/gemm/nv_uop_matmul_working.py:106-110 | in that configuration thread 64*wy is lane 0 of warp row wy |
| Findings.OperandRowOfWarpRow | extra/gemm/nv_uop_matmul_working.py:161-171 | thread 64*wy reads row 16*wy of the block's A tile for element 0 of tile 0 |
| Findings.StoreRowOfWarpRow | extra/gemm/nv_uop_matmul_working.py:224-239 | thread 64*wy stores element 0 of tile 0 to row 24*wy of the block tile |
| Findings.OperandRowsMismatchAt | extra/gemm/nv_uop_matmul_working.py:161-239 | for wy = 1..3, thread 64*wy reads A row 16*wy and stores to row 24*wy: thread 64 reads row 16 and stores row 24, thread 128 reads band 2 (row 32) and stores in band 3 (row 48) |

## Left out

- The numerics of the tensor-core step (fp16 x fp16 -> fp32 multiply-accumulate) are not modelled. The step is an uninterpreted parameter, so the model proves which fragments and accumulators reach it, not the arithmetic.
- The step being warp-collective is not modelled. Each thread is modelled with the whole step as a function of its own fragments.
- The UOp graph machinery is not modelled: `placeholder`, `after`, `group`, `end`, `simplify`, `KernelInfo`, and the rendering and launch of the kernel. Only the index arithmetic and the order the graph encodes are kept.
- Barriers between concurrently running threads are not modelled. Staging is modelled as the block's whole sequential sweep (`Staging.StageTile`), and the barriers are modelled as events in a trace checked against a phase automaton.
- Several blocks running together are not modelled. The partition lemmas show that block tiles are disjoint. Each thread writes only the cells its registers map to, and leaves every other cell unchanged (`Kernel.ThreadStoresReference`). Composing every block of the grid into one final C is not stated.
- `test_matmul_fp16` and the `__main__` block of the working file (lines 251-292) are not modelled. They time device runs and compare floats against a reference with a mean-squared-error tolerance.
- The WMMA tail of the draft (`nv_uop_matmul.py` lines 92-102) is not modelled. It names `upcast_axes` and `c_regs_load`, which are never defined, so `hand_spec` stops there.
- The draft's source slicing for staging is not modelled. The draft copies from the whole N x N inputs; the `copy` helper lives in `extra/gemm/amd_uop_matmul.py`, which is not part of this model. Only the coverage of the destination tiles is modelled.
- Whether the lane maps match the PTX ISA's mma.m16n8k16 fragment layouts is not established. The model proves bounds, bijection and invertibility of the maps as written.
- Shared-memory bank conflicts are not modelled. They are a performance question.
- DraftGather.AFragment: specialised to the shipped draft constants (8 x 4 lanes, 64 x 128 block). The generic bijection lemmas cover any configuration that passes the draft checks.
- DraftGather.BFragment: specialised to the shipped draft constants, as above.
- Integer widths are not modelled: all indices are unbounded naturals. Every index in the plan is far below 2^31 at the shipped sizes.

## Findings

| source | as written | input that shows it | evidently intended | confidence | as-written member | corrected member |
|---|---|---|---|---|---|---|
| extra/gemm/nv_uop_matmul_working.py:44-53 | M_TILES = WARP_TILE_M // TC_M is floor division, and no assert requires WARP_TILE_M % TC_M == 0 | BLOCK_M = 96 with the other constants unchanged and N = 384: every assert and reshape passes, WARP_TILE_M = 24, M_TILES = 1, so rows 16..23 of every warp tile (e.g. cell (16, 0) of each block tile) are never stored; warp rows 1..3 also store values computed from the wrong A rows (next row) | assert WARP_TILE_M % TC_M == 0 and WARP_TILE_N % TC_N == 0, so that the epilogue writes every cell of the block tile exactly once | not executed | Findings.EpilogueMissesRows | Fragments.EpilogueCoversBlock |
| extra/gemm/nv_uop_matmul_working.py:161-239 | the A operand of tile m starts at row a_tile_idx*16 = (warpIdy*M_TILES + m)*16, its store at warpIdy*WARP_TILE_M + m*16; these agree only when M_TILES*TC_M == WARP_TILE_M | the same BLOCK_M = 96, N = 384 plan: thread 64 (warp row 1, lane 0) reads A row 16 for tile 0 and stores that tile at row 24; thread 128 reads band 2 and stores in band 3. So warp rows 1..3 store values computed from the wrong A rows, beyond the unwritten rows 16..23 | the same two added checks, under which every step reads the A rows and B columns of the C band it writes | not executed | Findings.OperandRowsMismatchAt | BlockRun.OperandBandsMatchStore |
