/** Data model of the chunk-generation scheduler, as seen from its single
    orchestration thread: chunks, the grid data (heightmap) shared by every
    chunk of a column, generation queries, the map of queries parked on a
    grid data, the queue of finished queries, and a log of the effects the
    scheduler has on the outside world.

    Chunks, grid data and queries are objects in the original; here each is
    a record in a map keyed by a small integer id, so that "the same object"
    is "the same id". */
module ChunkModel {

  /** The terminal generation level (ChunkGenLevel GEN_DONE). */
  const GEN_DONE: int := 4

  /** The most finished queries one update drains. */
  const MAX_QUERIES: nat := 100

  type ChunkId = nat
  type GridId = nat
  type QueryId = nat

  datatype Option<T> = None | Some(value: T)

  /** Per-column heightmap state. `isLoading` is set while the one heightmap
      task of the column is in flight. */
  datatype GridData = GridData(isLoaded: bool, isLoading: bool)

  /** The fields of a chunk the scheduler reads or writes. `current` and
      `pending` are the chunk's generation-query data. */
  datatype Chunk = Chunk(
    genLevel: int,
    pendingGenLevel: int,
    isAccessible: bool,
    gridData: GridId,
    current: Option<QueryId>,
    pending: seq<QueryId>)

  /** A request to bring `chunk` to at least `genLevel`. */
  datatype ChunkQuery = ChunkQuery(
    chunk: ChunkId,
    genLevel: int,
    shouldRelease: bool,
    isFinished: bool)

  /** Effects on the outside world, in the order they happen:
      a task handed to the worker pool (the query's own task), a broadcast on
      the query's condition variable, a release of the chunk handle the
      query holds, a release of the query object, and the onGenFinish
      notification. */
  datatype Event =
    | AddTask(q: QueryId)
    | NotifyAll(q: QueryId)
    | ChunkRelease(q: QueryId)
    | QueryRelease(q: QueryId)
    | GenFinish(chunk: ChunkId, level: int)

  datatype State = State(
    chunks: map<ChunkId, Chunk>,
    grids: map<GridId, GridData>,
    queries: map<QueryId, ChunkQuery>,
    pendingQueries: map<GridId, seq<QueryId>>,
    finished: seq<QueryId>,
    log: seq<Event>)

  /** Every id in `qs` names a query. */
  ghost predicate Known(qs: seq<QueryId>, queries: map<QueryId, ChunkQuery>)
  {
    forall x | x in qs :: x in queries
  }

  /** The references a chunk holds are to existing objects. */
  ghost predicate ChunkRefs(s: State, c: ChunkId)
    requires c in s.chunks
  {
    var ch := s.chunks[c];
    && ch.gridData in s.grids
    && Known(ch.pending, s.queries)
    && (ch.current.Some? ==> ch.current.value in s.queries)
  }

  /** No dangling ids anywhere in the state. */
  ghost predicate WellFormed(s: State)
  {
    && (forall x | x in s.queries :: s.queries[x].chunk in s.chunks)
    && (forall c | c in s.chunks :: ChunkRefs(s, c))
    && (forall g | g in s.pendingQueries :: g in s.grids && Known(s.pendingQueries[g], s.queries))
    && Known(s.finished, s.queries)
  }

  /** Query x targets a chunk of column g. */
  ghost predicate OnGrid(s: State, x: QueryId, g: GridId)
  {
    x in s.queries && s.queries[x].chunk in s.chunks && s.chunks[s.queries[x].chunk].gridData == g
  }

  /** Query x targets chunk c. */
  ghost predicate OnChunk(s: State, x: QueryId, c: ChunkId)
  {
    x in s.queries && s.queries[x].chunk == c
  }

  /** Grid data `g` is never loading and loaded at once, it has an entry in
      the parked-query map exactly while its heightmap task is in flight, and
      every query parked on it targets a chunk of its column. */
  ghost predicate GridOk(s: State, g: GridId)
    requires g in s.grids
  {
    var gd := s.grids[g];
    && (gd.isLoading ==> !gd.isLoaded)
    && (g in s.pendingQueries <==> gd.isLoading)
    && (g in s.pendingQueries ==> forall x | x in s.pendingQueries[g] :: OnGrid(s, x, g))
  }

  /** The queries a chunk holds as current or pending all target that chunk. */
  ghost predicate ChunkOk(s: State, c: ChunkId)
    requires c in s.chunks
  {
    var ch := s.chunks[c];
    && (forall x | x in ch.pending :: OnChunk(s, x, c))
    && (ch.current.Some? ==> OnChunk(s, ch.current.value, c))
  }

  /** The invariant the scheduler keeps between calls. */
  ghost predicate Valid(s: State)
  {
    && WellFormed(s)
    && (forall g | g in s.grids :: GridOk(s, g))
    && (forall c | c in s.chunks :: ChunkOk(s, c))
  }

  /** What no scheduler step ever undoes. */
  predicate ChunkGrows(a: Chunk, b: Chunk)
  {
    && b.genLevel == a.genLevel
    && b.pendingGenLevel >= a.pendingGenLevel
    && b.gridData == a.gridData
    && (a.isAccessible ==> b.isAccessible)
  }

  predicate QueryGrows(a: ChunkQuery, b: ChunkQuery)
  {
    && b.chunk == a.chunk
    && b.genLevel == a.genLevel
    && b.shouldRelease == a.shouldRelease
    && (a.isFinished ==> b.isFinished)
  }

  /** `r` is reachable from `s` by scheduler steps: the same objects exist,
      no chunk's generation level changes, no watermark, accessibility,
      loaded flag or finished flag goes back, and the log only grows. */
  ghost predicate Stable(s: State, r: State)
  {
    && r.chunks.Keys == s.chunks.Keys
    && r.grids.Keys == s.grids.Keys
    && r.queries.Keys == s.queries.Keys
    && (forall c | c in s.chunks :: ChunkGrows(s.chunks[c], r.chunks[c]))
    && (forall g | g in s.grids :: s.grids[g].isLoaded ==> r.grids[g].isLoaded)
    && (forall x | x in s.queries :: QueryGrows(s.queries[x], r.queries[x]))
    && s.log <= r.log
  }

  lemma StableTrans(a: State, b: State, c: State)
    requires Stable(a, b) && Stable(b, c)
    ensures Stable(a, c)
  {
    assert a.log == b.log[..|a.log|] && b.log == c.log[..|b.log|];
    assert a.log == c.log[..|a.log|];
  }

  /** The events logged on the way from `s` to `r`, counted. */
  ghost function Emitted(s: State, r: State): multiset<Event>
    requires s.log <= r.log
  {
    multiset(r.log[|s.log|..])
  }

  lemma KnownPrefix(qs: seq<QueryId>, n: nat, queries: map<QueryId, ChunkQuery>)
    requires Known(qs, queries) && n <= |qs|
    ensures Known(qs[..n], queries)
  {
    forall x | x in qs[..n] ensures x in queries {
      assert x in qs;
    }
  }
}
