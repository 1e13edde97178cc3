# Chunk-generation query scheduler

This is a Dafny model of `ChunkGenerator` from Seed of Andromeda, the scheduler that brings voxel chunks to a
requested generation level. A `ChunkQuery` asks for a chunk at some level. `submitQuery` then does one of four things:

- resolves the query on the spot;
- parks it on its column's heightmap (`GridData`), dispatching the heightmap task if none is in flight;
- queues it behind the chunk's single in-flight query;
- makes it the chunk's `current` query and dispatches its task.

Worker threads hand finished queries back through `finishQuery`. `update` drains up to `MAX_QUERIES` (100) of them.
Each drained query goes through one of three branches:

- **heightmap done:** re-submit everything parked on the grid data;
- **chunk at `GEN_DONE`:** resolve every pending query;
- **partial:** resolve the satisfied pending queries by swap-with-back removal, then promote the last remaining one.

## How the model is built

- **`chunk_model.dfy`** holds the world.
  - Chunks, grid data and queries are records in maps keyed by integer ids, so "the same object" is "the same id".
  - The side effects on the outside world are a ghost log of `Event`s:
    - a task handed to the thread pool;
    - `notify_all` on a query's condition variable;
    - the release of a chunk handle;
    - the release of a query;
    - `onGenFinish`.
  - `Valid` is the invariant the scheduler keeps between calls:
    - no dangling ids;
    - a grid data has a parked list exactly while its heightmap is loading;
    - parked queries target their column;
    - pending and current queries target their chunk.
  - `Stable` says what no scheduler step undoes.
- **`submission.dfy`** defines `submitQuery` as a function `Submit` on that state, with the lemmas about each path.
- **`completion.dfy`** defines the three branches of `update` as functions:
  - `HeightmapDone`, `GenDone` and `PartialDone`;
  - the scan of the partial branch as `Sweep`;
  - `update` itself as `Updated`;
  - the lemmas about each of them.
- **`generator.dfy`** holds the class `ChunkGenerator`.
  - Its fields are updated in place, statement by statement, as in the C++.
  - Each method is proved to leave exactly the state the corresponding function computes: `St() == Submit(old(St()), q)` and so on. Every lemma about the functions therefore holds of the class, from the constructor on: it establishes `Valid`, and every public operation preserves it: `SubmitQuery` by `SubmitPreservesValid`, `FinishQuery` by `FinishKeepsValid`, `WorkerDone` by `WorkerFinishValid`, `TryDequeueBulk` by `DequeueValid` and `Update` by `UpdatePreservesValid`. `WorkerDone` brings in the one change made outside the scheduler, a chunk reaching a new level. The private steps of `update` (`FinishChunkTail`, `PromoteTail` and the like) keep it only as part of the whole branch they belong to.
  - Loops carry invariants tying the state so far to a prefix of the work: `SubmitAll`, `ResolveAll`, `CompleteAll`, `Sweep`.

The quirks of `update` are modelled as written, and lemmas state what actually happens:

- Neither completion branch marks the finished query itself finished or wakes its waiters (`GenDoneCompletion`, `PartialResolves`). One might expect the finished query to be resolved like the pending ones. The code only fires `onGenFinish` for it and releases it (SoA/ChunkGenerator.cpp:89-91), and the model follows the code.
- In the partial branch, once a pending query is promoted, `onGenFinish` and both releases at the end act on the promoted query. That query is now in flight. The query that just finished is not released there (`PartialEvents`).
- The comment at `SoA/ChunkGenerator.cpp:97` says satisfied queries are not removed from `pending`. The code does remove them (:102-103), and the model follows the code (`RemoveAt`, `Sweep`, `PartialPromotes`).

`GEN_DONE` is the terminal generation level. Its value comes from `Chunk.h`, which is not part of this model. The model sets it to 4, and no proof depends on the value.

## Model

| member | source | states |
|---|---|---|
| Submission.ResolveAll | SoA/ChunkGenerator.cpp:80-86 | resolving a list of queries marks finished exactly the queries in the list, changes no chunk, grid data, parked list or finished queue, and logs their resolutions in list order |
| Submission.ResolveLogCount | SoA/ChunkGenerator.cpp:80-86 | in the resolution log, each query is woken and chunk-released once per occurrence in the list, and query-released that often exactly when it has shouldRelease; no other event appears |
| Submission.SubmitShortCircuit | SoA/ChunkGenerator.cpp:20-26 | an already satisfied query is marked finished, woken once, chunk-released once, query-released iff shouldRelease; no task is dispatched and no chunk, grid data or parked list changes |
| Submission.SubmitRaisesWatermark | SoA/ChunkGenerator.cpp:28-30 | otherwise the chunk's pendingGenLevel becomes the maximum of its old value and the query's level, and no other chunk changes |
| Submission.SubmitParks | SoA/ChunkGenerator.cpp:32-40 | on an unloaded column the query is appended to the column's parked list, no other list changes and no parked-map key other than the column's is added; no other grid data changes; a heightmap task is dispatched exactly when none was loading; the grid data is loading afterwards; current and pending of the chunk are unchanged |
| Submission.ParkEffect | SoA/ChunkGenerator.cpp:32-40 | parking appends the query to its column's parked list (creating the entry if absent) and adds no other parked-map key; the column's grid data becomes loading, a heightmap task is dispatched exactly when none was loading, and no other grid data, chunk or query changes |
| Submission.SubmitQueues | SoA/ChunkGenerator.cpp:41-44 | on a loaded column with a query in flight, the query is appended to the chunk's pending list, current is unchanged and nothing is dispatched |
| Submission.SubmitDispatches | SoA/ChunkGenerator.cpp:45-49 | on a loaded column with no query in flight, the query becomes current and exactly its task is dispatched |
| Submission.SubmitAtMostOneTask | SoA/ChunkGenerator.cpp:17-51 | a submission dispatches at most one task and only the submitted query's, never replaces a non-empty current slot, and never changes a loaded column's grid data or parked entry |
| Submission.SubmitWellBehaved | SoA/ChunkGenerator.cpp:17-51 | submitting keeps all ids valid, changes no generation level, lowers no watermark or flag, only appends to the log and leaves the finished queue alone |
| Submission.SubmitKeepsOk | SoA/ChunkGenerator.cpp:17-51 | submitting keeps every grid data's and every chunk's part of the invariant |
| Submission.SubmitPreservesValid | SoA/ChunkGenerator.cpp:17-51 | submitting a known query preserves the scheduler invariant |
| Submission.SubmitAll | SoA/ChunkGenerator.cpp:74-76 | submitting a list in order keeps all ids valid, undoes nothing and leaves the finished queue alone |
| Submission.SubmitOnLoaded | SoA/ChunkGenerator.cpp:41-50 | on a loaded column a submission touches no grid data and no parked list |
| Submission.SubmitAllOnLoaded | SoA/ChunkGenerator.cpp:74-76 | re-submitting the queries of a loaded column touches no grid data and no parked list, so none is parked again |
| Submission.SubmitAllKeepsOk | SoA/ChunkGenerator.cpp:74-76 | re-submitting a list keeps every grid data's and every chunk's part of the invariant |
| Submission.SubmitPlaces | SoA/ChunkGenerator.cpp:41-50 | on a loaded column the submitted query ends resolved, current on its chunk, or pending on its chunk |
| Submission.SubmitKeepsPlaced | SoA/ChunkGenerator.cpp:17-51 | a query that is resolved, current or pending stays so whatever is submitted next |
| Submission.SubmitAllPlaces | SoA/ChunkGenerator.cpp:74-76 | after re-submitting the queries of a loaded column, every one of them is resolved, current or pending on its chunk |
| Completion.RemoveAt | SoA/ChunkGenerator.cpp:102-103 | swap-with-back removal shortens the list by one, keeps the entries before the index, and removes exactly one occurrence of the removed query (as multisets) |
| Completion.Sweep | SoA/ChunkGenerator.cpp:94-109 | the scan from index i splits the list into kept and removed parts that together are a permutation of it; it leaves the first i entries in place; every kept entry from i on is unsatisfied and every removed one satisfied |
| Completion.SweepSplits | SoA/ChunkGenerator.cpp:94-109 | the scan removes every satisfied query as often as it occurs and keeps every unsatisfied one as often as it occurs |
| Completion.SweepPartitions | SoA/ChunkGenerator.cpp:94-109 | the removed queries are, as a multiset, the satisfied pending queries, and the kept ones are the unsatisfied pending queries (`Satisfied`/`Unsatisfied` are plain order-preserving filters) |
| Completion.HeightmapDoneValid | SoA/ChunkGenerator.cpp:68-77 | the heightmap branch preserves the scheduler invariant, undoes nothing and leaves the finished queue alone |
| Completion.HeightmapCompletion | SoA/ChunkGenerator.cpp:68-77 | the grid data ends loaded and not loading, its parked entry is erased and no other grid data or parked entry changes, and every query that was parked on it is resolved, current or pending on its chunk |
| Completion.GenDoneValid | SoA/ChunkGenerator.cpp:78-91 | the GEN_DONE branch preserves the scheduler invariant and undoes nothing |
| Completion.GenDoneCompletion | SoA/ChunkGenerator.cpp:78-91 | the GEN_DONE branch empties pending and marks finished exactly the pending queries (not the finished query itself); the chunk becomes accessible iff something was pending; current, grid data, parked lists, finished queue and every other chunk are unchanged |
| Completion.GenDoneEvents | SoA/ChunkGenerator.cpp:78-91 | the GEN_DONE branch wakes and chunk-releases each pending query once per occurrence, query-releases it iff shouldRelease, fires onGenFinish exactly once for the chunk at the finished query's level, releases the finished query, and dispatches nothing |
| Completion.PartialDoneValid | SoA/ChunkGenerator.cpp:92-122 | the partial-completion branch preserves the scheduler invariant and undoes nothing |
| Completion.PartialResolves | SoA/ChunkGenerator.cpp:94-109 | the partial branch marks finished exactly the pending queries the chunk now satisfies (not the finished query itself); the chunk becomes accessible iff there was one; grid data, parked lists, finished queue and every other chunk are unchanged |
| Completion.PartialPromotes | SoA/ChunkGenerator.cpp:110-117 | a query is promoted to current iff some pending query is unsatisfied; the new pending list plus the promoted query are exactly the unsatisfied pending queries with their multiplicities; no satisfied query is left pending |
| Completion.PartialSlot | SoA/ChunkGenerator.cpp:111-115 | the promoted query was pending and is not yet satisfied |
| Completion.PartialEvents | SoA/ChunkGenerator.cpp:92-122 | the partial branch resolves each satisfied pending query once per occurrence. When it promotes, it dispatches the promoted query and fires onGenFinish and the releases for the promoted query, not the finished one. Otherwise it does so for the finished query and dispatches nothing |
| Completion.CompleteValid | SoA/ChunkGenerator.cpp:63-122 | handling one finished query (clear current, then the branch) preserves the scheduler invariant, undoes nothing and leaves the finished queue alone |
| Completion.PartialOtherChunks | SoA/ChunkGenerator.cpp:92-122 | the partial-completion branch writes no chunk other than the finished query's |
| Completion.WorkerFinishValid | SoA/ChunkGenerator.cpp:53-55 | a finished task raises only its chunk's level, appends only its query to the finished queue, changes nothing else and keeps the scheduler invariant |
| Completion.CompleteFreesSlot | SoA/ChunkGenerator.cpp:63-122 | outside the heightmap branch, the finished query's chunk ends with an empty current slot or with a promoted, previously pending, still unsatisfied query, and never at GEN_DONE |
| Completion.CompleteAll | SoA/ChunkGenerator.cpp:62-123 | draining a list of finished queries in order preserves the invariant, undoes nothing and leaves the queue alone |
| Completion.FinishKeepsValid | SoA/ChunkGenerator.cpp:53-55 | queuing a known query as finished preserves the scheduler invariant |
| Completion.BatchSize | SoA/ChunkGenerator.cpp:59-61 | an update takes min(MAX_QUERIES, queue length) queries: never more than 100 and never more than are queued |
| Completion.DequeueValid | SoA/ChunkGenerator.cpp:61 | taking queries off the front of the queue preserves the invariant, and the queries taken are known |
| Completion.UpdatePreservesValid | SoA/ChunkGenerator.cpp:58-124 | an update preserves the scheduler invariant and undoes nothing |
| Completion.UpdateDrains | SoA/ChunkGenerator.cpp:59-62 | after an update, the finished queue is exactly the old queue without its first min(100, length) entries, in order |
| Generator.ChunkGenerator.ResolveQuery | SoA/ChunkGenerator.cpp:21-24 | the in-place resolution leaves the state `Resolve` computes: query finished, woken, chunk-released, query-released iff shouldRelease |
| Generator.ChunkGenerator.SubmitQuery | SoA/ChunkGenerator.cpp:17-51 | the in-place submitQuery leaves exactly the state `Submit` computes |
| Generator.ChunkGenerator.FinishQuery | SoA/ChunkGenerator.cpp:53-55 | finishQuery, given a query the scheduler knows, appends it to the finished queue and changes nothing else |
| Generator.ChunkGenerator.WorkerDone | SoA/ChunkGenerator.cpp:53-55 | a finished task leaves exactly the state `WorkerFinish` computes: its chunk at the new level and the query queued |
| Generator.ChunkGenerator.TryDequeueBulk | SoA/ChunkGenerator.cpp:61 | the bulk dequeue copies the first min(queue length, buffer size) queued queries into the buffer in order and removes exactly those from the queue |
| Generator.ChunkGenerator.Update | SoA/ChunkGenerator.cpp:58-124 | update leaves exactly the state `Updated` computes |
| Generator.ChunkGenerator.CompleteBatch | SoA/ChunkGenerator.cpp:62-63 | the loop over the dequeued queries leaves the state of handling them one after the other in order |
| Generator.ChunkGenerator.CompleteQuery | SoA/ChunkGenerator.cpp:63-122 | one iteration of update's loop leaves exactly the state `Complete` computes |
| Generator.ChunkGenerator.LoadHeightmap | SoA/ChunkGenerator.cpp:68-77 | the heightmap branch leaves exactly the state `HeightmapDone` computes |
| Generator.ChunkGenerator.ResubmitAll | SoA/ChunkGenerator.cpp:74-76 | the re-submission loop leaves the state of submitting the parked queries in list order |
| Generator.ChunkGenerator.FinishChunk | SoA/ChunkGenerator.cpp:78-91 | the GEN_DONE branch leaves exactly the state `GenDone` computes |
| Generator.ChunkGenerator.FinishChunkTail | SoA/ChunkGenerator.cpp:87-91 | the end of the GEN_DONE branch writes the chunk back, fires onGenFinish and releases the finished query |
| Generator.ChunkGenerator.SettlePending | SoA/ChunkGenerator.cpp:92-122 | the partial-completion branch leaves exactly the state `PartialDone` computes |
| Generator.ChunkGenerator.ScanPending | SoA/ChunkGenerator.cpp:94-109 | the swap-with-back loop leaves the list `Sweep` keeps, has resolved exactly the queries `Sweep` removes in removal order, and sets accessibility iff it removed one |
| Generator.ChunkGenerator.ScanStep | SoA/ChunkGenerator.cpp:95-108 | one iteration either resolves and removes the entry at i or advances i. The list left to scan shrinks, and what `Sweep` keeps and removes overall is unchanged |
| Generator.ChunkGenerator.TakeAt | SoA/ChunkGenerator.cpp:98-105 | a removal resolves the entry at i and leaves `RemoveAt` of the list |
| Generator.ChunkGenerator.PromoteTail | SoA/ChunkGenerator.cpp:111-121 | the promotion writes the chunk back and dispatches the promoted query. It then fires onGenFinish and the releases for that promoted query |

## Left out

- `ChunkGenerator::init` (SoA/ChunkGenerator.cpp:9-15) only stores pointers and initialises the procedural generator with planet data. The constructor of the model takes the world as maps instead. It requires a world with no dangling ids, no heightmap in flight, and every current or pending query on its own chunk, and it establishes `Valid`. `PlanetGenData` and the procedural generator are not part of this model.
- **Thread pool, worker tasks, concurrency.**
  - `addTask` is an `AddTask` event.
  - What a task computes (heightmap and terrain noise, in floating point) is not modelled. Its only effect the scheduler sees is a chunk's `genLevel`. `Generator.ChunkGenerator.WorkerDone` stands for a finished task: it raises the level of the query's chunk (never lowers it), then calls `finishQuery`. The scheduler's own steps never change `genLevel`.
  - `finishQuery` runs on worker threads, but the model is sequential.
- The condition variable is modelled only as a `NotifyAll` event.
- `ChunkHandle` reference counting and the freeing of queries in `release()` are modelled only as `ChunkRelease` and `QueryRelease` events. A released query stays in the query map.
- The listeners behind `onGenFinish` are modelled only as a `GenFinish` event.
- The concurrent queue is a sequence. `try_dequeue_bulk` takes from its front into a buffer of `MAX_QUERIES` entries.
- `m_pendingQueries.find` on a grid data without an entry would dereference `end()`. The invariant `Valid` rules this out: an entry exists exactly while the heightmap is loading. `Update` and `CompleteQuery` therefore require `Valid`, which every public operation preserves.
- The heightmap loop of the model reads the parked list once, then submits its queries. Submitting a query of a now-loaded column never touches any parked list (`SubmitAllOnLoaded`), so the list the C++ loop iterates over does not change under it.
- The chunk's pending `std::vector` is copied into a local sequence for the scan and written back at the end. Aliasing of that vector is not modelled.
- No lemma claims that every query is resolved exactly once over its lifetime. On the paths described above (the finished query never marked finished; the promoted query released while in flight), that claim does not hold. The lemmas state what happens instead.
- Completion.HeightmapCompletion: states that each parked query ends resolved, current or pending, not the exact events of each re-submission. The exact resulting state, submissions in list order, is `HeightmapDone` as `Generator.ChunkGenerator.LoadHeightmap` establishes it.
- Completion.CompleteFreesSlot: says nothing about the heightmap branch. There a re-submitted parked query may become current on the finished query's chunk.
