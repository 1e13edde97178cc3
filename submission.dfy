/** Submitting a generation query (ChunkGenerator::submitQuery), as a
    function on the scheduler state, and what it promises. */
module Submission {
  import opened ChunkModel

  /** Releasing query q: the chunk handle it holds, then q itself when the
      scheduler owns it. */
  function ReleaseEvents(q: QueryId, shouldRelease: bool): seq<Event>
  {
    [ChunkRelease(q)] + (if shouldRelease then [QueryRelease(q)] else [])
  }

  /** Resolving query q: wake its waiters, then release it. */
  function ResolveEvents(q: QueryId, shouldRelease: bool): seq<Event>
  {
    [NotifyAll(q)] + ReleaseEvents(q, shouldRelease)
  }

  /** Marks q finished and logs its resolution: the already-satisfied path
      of submitQuery, and each resolution of a pending query inside update. */
  ghost function Resolve(s: State, q: QueryId): State
    requires q in s.queries
  {
    s.(queries := s.queries[q := s.queries[q].(isFinished := true)],
       log := s.log + ResolveEvents(q, s.queries[q].shouldRelease))
  }

  lemma ResolveWellBehaved(s: State, q: QueryId)
    requires WellFormed(s) && q in s.queries
    ensures WellFormed(Resolve(s, q)) && Stable(s, Resolve(s, q))
  {
  }

  /** The resolution events of every query of `qs`, in order. */
  ghost function ResolveLog(qs: seq<QueryId>, queries: map<QueryId, ChunkQuery>): seq<Event>
    requires Known(qs, queries)
  {
    if qs == [] then []
    else
      var x := qs[|qs| - 1];
      ResolveLog(qs[..|qs| - 1], queries) + ResolveEvents(x, queries[x].shouldRelease)
  }

  /** Resolves the queries of `qs` one after the other. */
  ghost function ResolveAll(s: State, qs: seq<QueryId>): (r: State)
    requires Known(qs, s.queries)
    ensures r.chunks == s.chunks && r.grids == s.grids
    ensures r.pendingQueries == s.pendingQueries && r.finished == s.finished
    ensures r.queries.Keys == s.queries.Keys
    ensures forall x | x in s.queries ::
      r.queries[x] == s.queries[x].(isFinished := s.queries[x].isFinished || x in qs)
    ensures r.log == s.log + ResolveLog(qs, s.queries)
    decreases |qs|
  {
    if qs == [] then s
    else
      var init, last := qs[..|qs| - 1], qs[|qs| - 1];
      assert qs == init + [last];
      Resolve(ResolveAll(s, init), last)
  }

  /** How often resolving the queries of `qs` logs event `e`: each query is
      woken and chunk-released as often as it occurs in `qs`, and
      query-released that often when the scheduler owns it; nothing else. */
  ghost function ResolveCount(qs: seq<QueryId>, queries: map<QueryId, ChunkQuery>, e: Event): nat
  {
    match e
    case NotifyAll(x) => multiset(qs)[x]
    case ChunkRelease(x) => multiset(qs)[x]
    case QueryRelease(x) => if x in queries && queries[x].shouldRelease then multiset(qs)[x] else 0
    case _ => 0
  }

  lemma ResolveEventsCount(x: QueryId, queries: map<QueryId, ChunkQuery>, e: Event)
    requires x in queries
    ensures multiset(ResolveEvents(x, queries[x].shouldRelease))[e] == ResolveCount([x], queries, e)
  {
  }

  lemma ResolveCountAppend(a: seq<QueryId>, b: seq<QueryId>, queries: map<QueryId, ChunkQuery>, e: Event)
    ensures ResolveCount(a + b, queries, e) == ResolveCount(a, queries, e) + ResolveCount(b, queries, e)
  {
    assert multiset(a + b) == multiset(a) + multiset(b);
  }

  lemma {:induction false} ResolveLogCount(qs: seq<QueryId>, queries: map<QueryId, ChunkQuery>, e: Event)
    requires Known(qs, queries)
    ensures multiset(ResolveLog(qs, queries))[e] == ResolveCount(qs, queries, e)
    decreases |qs|
  {
    if qs != [] {
      var init, x := qs[..|qs| - 1], qs[|qs| - 1];
      assert qs == init + [x];
      KnownPrefix(qs, |qs| - 1, queries);
      ResolveLogCount(init, queries, e);
      ResolveEventsCount(x, queries, e);
      ResolveCountAppend(init, [x], queries, e);
      assert ResolveLog(qs, queries) == ResolveLog(init, queries) + ResolveEvents(x, queries[x].shouldRelease);
    }
  }

  /** Raises the watermark of q's chunk to q's level when it is lower. */
  ghost function Raise(s: State, q: QueryId): State
    requires WellFormed(s) && q in s.queries
  {
    var cid := s.queries[q].chunk;
    var c := s.chunks[cid];
    if c.pendingGenLevel < s.queries[q].genLevel
    then s.(chunks := s.chunks[cid := c.(pendingGenLevel := s.queries[q].genLevel)])
    else s
  }

  /** Parks q on the grid data of its chunk, first dispatching the column's
      heightmap task unless one is in flight. */
  ghost function Park(s: State, q: QueryId): State
    requires WellFormed(s) && q in s.queries
  {
    var gid := s.chunks[s.queries[q].chunk].gridData;
    var gd := s.grids[gid];
    var t := if gd.isLoading then s
             else s.(grids := s.grids[gid := gd.(isLoading := true)], log := s.log + [AddTask(q)]);
    var parked := if gid in t.pendingQueries then t.pendingQueries[gid] else [];
    t.(pendingQueries := t.pendingQueries[gid := parked + [q]])
  }

  /** Queues q behind the query in flight on its chunk. */
  ghost function Enqueue(s: State, q: QueryId): State
    requires WellFormed(s) && q in s.queries
  {
    var cid := s.queries[q].chunk;
    s.(chunks := s.chunks[cid := s.chunks[cid].(pending := s.chunks[cid].pending + [q])])
  }

  /** Makes q the current query of its chunk and dispatches its task. */
  ghost function Dispatch(s: State, q: QueryId): State
    requires WellFormed(s) && q in s.queries
  {
    var cid := s.queries[q].chunk;
    s.(chunks := s.chunks[cid := s.chunks[cid].(current := Some(q))],
       log := s.log + [AddTask(q)])
  }

  /** ChunkGenerator::submitQuery. */
  ghost function Submit(s: State, q: QueryId): State
    requires WellFormed(s) && q in s.queries
  {
    var query := s.queries[q];
    var c := s.chunks[query.chunk];
    if c.genLevel >= query.genLevel then Resolve(s, q)
    else
      var t := Raise(s, q);
      RaiseWellBehaved(s, q);
      if !t.grids[c.gridData].isLoaded then Park(t, q)
      else if c.current.Some? then Enqueue(t, q)
      else Dispatch(t, q)
  }

  lemma RaiseWellBehaved(s: State, q: QueryId)
    requires WellFormed(s) && q in s.queries
    ensures WellFormed(Raise(s, q)) && Stable(s, Raise(s, q))
  {
  }

  lemma ParkWellBehaved(s: State, q: QueryId)
    requires WellFormed(s) && q in s.queries
    ensures WellFormed(Park(s, q)) && Stable(s, Park(s, q))
  {
  }

  lemma EnqueueWellBehaved(s: State, q: QueryId)
    requires WellFormed(s) && q in s.queries
    ensures WellFormed(Enqueue(s, q)) && Stable(s, Enqueue(s, q))
  {
  }

  lemma DispatchWellBehaved(s: State, q: QueryId)
    requires WellFormed(s) && q in s.queries
    ensures WellFormed(Dispatch(s, q)) && Stable(s, Dispatch(s, q))
  {
  }

  /** Submitting keeps every reference valid, changes no generation level,
      lowers no watermark or flag, only appends to the log and leaves the
      finished queue alone. */
  lemma SubmitWellBehaved(s: State, q: QueryId)
    requires WellFormed(s) && q in s.queries
    ensures WellFormed(Submit(s, q)) && Stable(s, Submit(s, q))
    ensures Submit(s, q).finished == s.finished
  {
    var query := s.queries[q];
    var c := s.chunks[query.chunk];
    if c.genLevel >= query.genLevel {
      ResolveWellBehaved(s, q);
    } else {
      var t := Raise(s, q);
      RaiseWellBehaved(s, q);
      var r := Submit(s, q);
      if !t.grids[c.gridData].isLoaded {
        ParkWellBehaved(t, q);
      } else if c.current.Some? {
        EnqueueWellBehaved(t, q);
      } else {
        DispatchWellBehaved(t, q);
      }
      StableTrans(s, t, r);
    }
  }

  /** Submits the queries of `ps` one after the other, in order. */
  ghost function SubmitAll(s: State, ps: seq<QueryId>): (r: State)
    requires WellFormed(s) && Known(ps, s.queries)
    ensures WellFormed(r) && Stable(s, r)
    ensures r.finished == s.finished
    decreases |ps|
  {
    if ps == [] then s
    else
      var init, last := ps[..|ps| - 1], ps[|ps| - 1];
      assert ps == init + [last];
      var t := SubmitAll(s, init);
      SubmitWellBehaved(t, last);
      StableTrans(s, t, Submit(t, last));
      Submit(t, last)
  }

  /** An already satisfied query is resolved on the spot: it is marked
      finished, woken and chunk-released once, query-released exactly when
      the scheduler owns it, and no task is dispatched and no chunk, grid
      data or parked list changes. */
  lemma SubmitShortCircuit(s: State, q: QueryId)
    requires WellFormed(s) && q in s.queries
    requires s.chunks[s.queries[q].chunk].genLevel >= s.queries[q].genLevel
    ensures var r := Submit(s, q);
      && r.chunks == s.chunks && r.grids == s.grids
      && r.pendingQueries == s.pendingQueries && r.finished == s.finished
      && r.queries == s.queries[q := s.queries[q].(isFinished := true)]
      && s.log <= r.log
      && Emitted(s, r) == multiset{NotifyAll(q), ChunkRelease(q)}
           + (if s.queries[q].shouldRelease then multiset{QueryRelease(q)} else multiset{})
  {
  }

  /** A submission that is not already satisfied raises the chunk's
      watermark to the larger of its old value and the query's level, and
      touches no other chunk. */
  lemma SubmitRaisesWatermark(s: State, q: QueryId)
    requires WellFormed(s) && q in s.queries
    requires s.chunks[s.queries[q].chunk].genLevel < s.queries[q].genLevel
    ensures var r := Submit(s, q); var cid := s.queries[q].chunk;
      && cid in r.chunks
      && r.chunks[cid].pendingGenLevel ==
           (if s.chunks[cid].pendingGenLevel < s.queries[q].genLevel
            then s.queries[q].genLevel else s.chunks[cid].pendingGenLevel)
      && (forall c | c in s.chunks && c != cid :: c in r.chunks && r.chunks[c] == s.chunks[c])
  {
  }

  /** On a column whose heightmap is not loaded the query is appended to
      the column's parked list; a heightmap task is dispatched exactly when
      none was in flight, and one is in flight afterwards. The chunk's
      current and pending queries do not change. */
  lemma SubmitParks(s: State, q: QueryId)
    requires WellFormed(s) && q in s.queries
    requires s.chunks[s.queries[q].chunk].genLevel < s.queries[q].genLevel
    requires !s.grids[s.chunks[s.queries[q].chunk].gridData].isLoaded
    ensures var r := Submit(s, q); var cid := s.queries[q].chunk;
      var gid := s.chunks[cid].gridData;
      && gid in r.pendingQueries && gid in r.grids && cid in r.chunks
      && r.pendingQueries[gid] ==
           (if gid in s.pendingQueries then s.pendingQueries[gid] else []) + [q]
      && (forall g | g in s.pendingQueries && g != gid ::
            g in r.pendingQueries && r.pendingQueries[g] == s.pendingQueries[g])
      && r.pendingQueries.Keys == s.pendingQueries.Keys + {gid}
      && (forall g | g in s.grids && g != gid :: g in r.grids && r.grids[g] == s.grids[g])
      && r.grids[gid].isLoading && !r.grids[gid].isLoaded
      && s.log <= r.log
      && Emitted(s, r) == (if s.grids[gid].isLoading then multiset{} else multiset{AddTask(q)})
      && r.chunks[cid].current == s.chunks[cid].current
      && r.chunks[cid].pending == s.chunks[cid].pending
      && r.queries == s.queries
  {
    var t := Raise(s, q);
    RaiseWellBehaved(s, q);
    assert Submit(s, q) == Park(t, q);
    var cid := s.queries[q].chunk;
    assert t.grids == s.grids && t.pendingQueries == s.pendingQueries && t.log == s.log;
    assert t.queries == s.queries && t.chunks[cid].gridData == s.chunks[cid].gridData;
    ParkEffect(t, q);
  }

  /** Parking appends q to its column's parked list, dispatches the
      heightmap task unless one is in flight, and touches nothing else. */
  lemma ParkEffect(s: State, q: QueryId)
    requires WellFormed(s) && q in s.queries
    ensures var r := Park(s, q); var gid := s.chunks[s.queries[q].chunk].gridData;
      && gid in r.pendingQueries && gid in r.grids
      && r.pendingQueries[gid] ==
           (if gid in s.pendingQueries then s.pendingQueries[gid] else []) + [q]
      && (forall g | g in s.pendingQueries && g != gid ::
            g in r.pendingQueries && r.pendingQueries[g] == s.pendingQueries[g])
      && r.pendingQueries.Keys == s.pendingQueries.Keys + {gid}
      && (forall g | g in s.grids && g != gid :: g in r.grids && r.grids[g] == s.grids[g])
      && r.grids[gid] == s.grids[gid].(isLoading := true)
      && s.log <= r.log
      && Emitted(s, r) == (if s.grids[gid].isLoading then multiset{} else multiset{AddTask(q)})
      && r.chunks == s.chunks && r.queries == s.queries
  {
    var gid := s.chunks[s.queries[q].chunk].gridData;
    if !s.grids[gid].isLoading {
      assert Park(s, q).log[|s.log|..] == [AddTask(q)];
    }
  }

  /** With the heightmap loaded, a query on a chunk that has a query in
      flight is appended to the chunk's pending list and nothing is
      dispatched. */
  lemma SubmitQueues(s: State, q: QueryId)
    requires WellFormed(s) && q in s.queries
    requires s.chunks[s.queries[q].chunk].genLevel < s.queries[q].genLevel
    requires s.grids[s.chunks[s.queries[q].chunk].gridData].isLoaded
    requires s.chunks[s.queries[q].chunk].current.Some?
    ensures var r := Submit(s, q); var cid := s.queries[q].chunk;
      && cid in r.chunks
      && r.chunks[cid].pending == s.chunks[cid].pending + [q]
      && r.chunks[cid].current == s.chunks[cid].current
      && r.grids == s.grids && r.pendingQueries == s.pendingQueries && r.queries == s.queries
      && r.log == s.log
  {
  }

  /** With the heightmap loaded and no query in flight on the chunk, the
      query becomes the chunk's current query and exactly its task is
      dispatched. */
  lemma SubmitDispatches(s: State, q: QueryId)
    requires WellFormed(s) && q in s.queries
    requires s.chunks[s.queries[q].chunk].genLevel < s.queries[q].genLevel
    requires s.grids[s.chunks[s.queries[q].chunk].gridData].isLoaded
    requires s.chunks[s.queries[q].chunk].current.None?
    ensures var r := Submit(s, q); var cid := s.queries[q].chunk;
      && cid in r.chunks
      && r.chunks[cid].current == Some(q)
      && r.chunks[cid].pending == s.chunks[cid].pending
      && r.grids == s.grids && r.pendingQueries == s.pendingQueries && r.queries == s.queries
      && r.log == s.log + [AddTask(q)]
  {
  }

  /** A submission dispatches at most one task, and only the submitted
      query's; it never replaces a chunk's current query, and it never
      changes a loaded column's grid data or parked entry. */
  lemma SubmitAtMostOneTask(s: State, q: QueryId)
    requires WellFormed(s) && q in s.queries
    ensures var r := Submit(s, q);
      && s.log <= r.log
      && (forall x :: Emitted(s, r)[AddTask(x)] <= (if x == q then 1 else 0))
      && (forall c | c in s.chunks && s.chunks[c].current.Some? ::
            c in r.chunks && r.chunks[c].current == s.chunks[c].current)
      && (forall g | g in s.grids && s.grids[g].isLoaded ::
            && g in r.grids && r.grids[g] == s.grids[g]
            && (g in r.pendingQueries <==> g in s.pendingQueries)
            && (g in s.pendingQueries ==> r.pendingQueries[g] == s.pendingQueries[g]))
  {
    var query := s.queries[q];
    var c := s.chunks[query.chunk];
    var r := Submit(s, q);
    if c.genLevel >= query.genLevel {
      SubmitShortCircuit(s, q);
    } else if !s.grids[c.gridData].isLoaded {
      SubmitParks(s, q);
      SubmitRaisesWatermark(s, q);
    } else if c.current.Some? {
      SubmitQueues(s, q);
      SubmitRaisesWatermark(s, q);
    } else {
      SubmitDispatches(s, q);
      SubmitRaisesWatermark(s, q);
    }
  }

  /** Every grid data invariant and chunk invariant that holds in `s` still
      holds in `r`. */
  ghost predicate OkKept(s: State, r: State)
  {
    && (forall g | g in s.grids && GridOk(s, g) :: g in r.grids && GridOk(r, g))
    && (forall c | c in s.chunks && ChunkOk(s, c) :: c in r.chunks && ChunkOk(r, c))
  }

  lemma ResolveKeepsOk(s: State, q: QueryId)
    requires q in s.queries
    ensures OkKept(s, Resolve(s, q))
  {
    var r := Resolve(s, q);
    forall g | g in s.grids && GridOk(s, g) ensures g in r.grids && GridOk(r, g) {
      if g in s.pendingQueries {
        forall x | x in s.pendingQueries[g] ensures OnGrid(r, x, g) {
          assert OnGrid(s, x, g);
        }
      }
    }
    forall c | c in s.chunks && ChunkOk(s, c) ensures c in r.chunks && ChunkOk(r, c) {
      forall x | x in s.chunks[c].pending ensures OnChunk(r, x, c) {
        assert OnChunk(s, x, c);
      }
    }
  }

  lemma RaiseKeepsOk(s: State, q: QueryId)
    requires WellFormed(s) && q in s.queries
    ensures OkKept(s, Raise(s, q))
  {
    var r := Raise(s, q);
    forall g | g in s.grids && GridOk(s, g) ensures g in r.grids && GridOk(r, g) {
      if g in s.pendingQueries {
        forall x | x in s.pendingQueries[g] ensures OnGrid(r, x, g) {
          assert OnGrid(s, x, g);
        }
      }
    }
  }

  lemma ParkKeepsOk(s: State, q: QueryId)
    requires WellFormed(s) && q in s.queries
    requires !s.grids[s.chunks[s.queries[q].chunk].gridData].isLoaded
    ensures OkKept(s, Park(s, q))
  {
    var r := Park(s, q);
    var gid := s.chunks[s.queries[q].chunk].gridData;
    forall g | g in s.grids && GridOk(s, g) ensures g in r.grids && GridOk(r, g) {
      if g in r.pendingQueries {
        forall x | x in r.pendingQueries[g] ensures OnGrid(r, x, g) {
          if x != q || g != gid {
            assert OnGrid(s, x, g);
          }
        }
      }
    }
  }

  lemma EnqueueKeepsOk(s: State, q: QueryId)
    requires WellFormed(s) && q in s.queries
    ensures OkKept(s, Enqueue(s, q))
  {
    var r := Enqueue(s, q);
    forall g | g in s.grids && GridOk(s, g) ensures g in r.grids && GridOk(r, g) {
      if g in s.pendingQueries {
        forall x | x in s.pendingQueries[g] ensures OnGrid(r, x, g) {
          assert OnGrid(s, x, g);
        }
      }
    }
  }

  lemma DispatchKeepsOk(s: State, q: QueryId)
    requires WellFormed(s) && q in s.queries
    ensures OkKept(s, Dispatch(s, q))
  {
    var r := Dispatch(s, q);
    forall g | g in s.grids && GridOk(s, g) ensures g in r.grids && GridOk(r, g) {
      if g in s.pendingQueries {
        forall x | x in s.pendingQueries[g] ensures OnGrid(r, x, g) {
          assert OnGrid(s, x, g);
        }
      }
    }
  }

  /** Submitting keeps every grid data's invariant and every chunk's. */
  lemma SubmitKeepsOk(s: State, q: QueryId)
    requires WellFormed(s) && q in s.queries
    ensures OkKept(s, Submit(s, q))
  {
    var query := s.queries[q];
    var c := s.chunks[query.chunk];
    if c.genLevel >= query.genLevel {
      ResolveKeepsOk(s, q);
    } else {
      var t := Raise(s, q);
      var r := Submit(s, q);
      RaiseWellBehaved(s, q);
      RaiseKeepsOk(s, q);
      if !t.grids[c.gridData].isLoaded {
        assert r == Park(t, q);
        ParkKeepsOk(t, q);
      } else if c.current.Some? {
        assert r == Enqueue(t, q);
        EnqueueKeepsOk(t, q);
      } else {
        assert r == Dispatch(t, q);
        DispatchKeepsOk(t, q);
      }
      OkKeptTrans(s, t, r);
    }
  }

  /** Submitting keeps the scheduler invariant. */
  lemma SubmitPreservesValid(s: State, q: QueryId)
    requires Valid(s) && q in s.queries
    ensures Valid(Submit(s, q))
  {
    SubmitWellBehaved(s, q);
    SubmitKeepsOk(s, q);
  }

  /** On a column whose heightmap is loaded, submitting never touches the
      grid data or the parked lists. */
  lemma SubmitOnLoaded(s: State, q: QueryId)
    requires WellFormed(s) && q in s.queries
    requires s.grids[s.chunks[s.queries[q].chunk].gridData].isLoaded
    ensures Submit(s, q).grids == s.grids && Submit(s, q).pendingQueries == s.pendingQueries
  {
  }

  /** Submitting queries that all target chunks of a loaded column never
      touches the grid data or the parked lists. */
  lemma {:induction false} SubmitAllOnLoaded(s: State, ps: seq<QueryId>, g: GridId)
    requires WellFormed(s) && Known(ps, s.queries)
    requires g in s.grids && s.grids[g].isLoaded
    requires forall x | x in ps :: OnGrid(s, x, g)
    ensures SubmitAll(s, ps).grids == s.grids && SubmitAll(s, ps).pendingQueries == s.pendingQueries
    decreases |ps|
  {
    if ps != [] {
      var init, last := ps[..|ps| - 1], ps[|ps| - 1];
      OnGridPrefix(s, ps, g);
      SubmitAllOnLoaded(s, init, g);
      var t := SubmitAll(s, init);
      assert OnGrid(t, last, g) && t.grids[g].isLoaded by {
        StableOnGrid(s, t, last, g);
      }
      SubmitOnLoaded(t, last);
    }
  }

  lemma OkKeptTrans(a: State, b: State, c: State)
    requires OkKept(a, b) && OkKept(b, c)
    ensures OkKept(a, c)
  {
  }

  /** Submitting a list of queries keeps every grid data's invariant and
      every chunk's. */
  lemma {:induction false} SubmitAllKeepsOk(s: State, ps: seq<QueryId>)
    requires WellFormed(s) && Known(ps, s.queries)
    ensures OkKept(s, SubmitAll(s, ps))
    decreases |ps|
  {
    if ps != [] {
      var init, last := ps[..|ps| - 1], ps[|ps| - 1];
      assert ps == init + [last];
      assert Known(init, s.queries) by {
        forall y | y in init ensures y in s.queries { assert y in ps; }
      }
      SubmitAllKeepsOk(s, init);
      var t := SubmitAll(s, init);
      SubmitKeepsOk(t, last);
      OkKeptTrans(s, t, Submit(t, last));
    }
  }

  /** Query x has been taken care of on its chunk: it is resolved, in
      flight, or queued behind the query in flight. */
  ghost predicate Placed(s: State, x: QueryId)
  {
    && x in s.queries && s.queries[x].chunk in s.chunks
    && var c := s.chunks[s.queries[x].chunk];
       s.queries[x].isFinished || c.current == Some(x) || x in c.pending
  }

  /** On a column whose heightmap is loaded, a submitted query is placed. */
  lemma SubmitPlaces(s: State, q: QueryId)
    requires WellFormed(s) && q in s.queries
    requires s.grids[s.chunks[s.queries[q].chunk].gridData].isLoaded
    ensures Placed(Submit(s, q), q)
  {
    var query := s.queries[q];
    var c := s.chunks[query.chunk];
    if c.genLevel >= query.genLevel {
      SubmitShortCircuit(s, q);
    } else if c.current.Some? {
      SubmitQueues(s, q);
    } else {
      SubmitDispatches(s, q);
    }
  }

  /** A placed query stays placed whatever is submitted next. */
  lemma SubmitKeepsPlaced(s: State, q: QueryId, x: QueryId)
    requires WellFormed(s) && q in s.queries && Placed(s, x)
    ensures Placed(Submit(s, q), x)
  {
    var query := s.queries[q];
    var c := s.chunks[query.chunk];
    var cx := s.queries[x].chunk;
    if c.genLevel >= query.genLevel {
      SubmitShortCircuit(s, q);
    } else {
      SubmitRaisesWatermark(s, q);
      if !s.grids[c.gridData].isLoaded {
        SubmitParks(s, q);
      } else if c.current.Some? {
        SubmitQueues(s, q);
        if query.chunk == cx && x in c.pending {
          assert x in Submit(s, q).chunks[cx].pending;
        }
      } else {
        SubmitDispatches(s, q);
      }
    }
  }

  /** Re-submitting the queries of a loaded column places every one of them. */
  lemma {:induction false} SubmitAllPlaces(s: State, ps: seq<QueryId>, g: GridId)
    requires WellFormed(s) && Known(ps, s.queries)
    requires g in s.grids && s.grids[g].isLoaded
    requires forall x | x in ps :: OnGrid(s, x, g)
    ensures forall x | x in ps :: Placed(SubmitAll(s, ps), x)
    decreases |ps|
  {
    if ps != [] {
      var init, last := ps[..|ps| - 1], ps[|ps| - 1];
      OnGridPrefix(s, ps, g);
      SubmitAllPlaces(s, init, g);
      SubmitAllLast(s, ps);
      var t := SubmitAll(s, init);
      assert OnGrid(t, last, g) && t.grids[g].isLoaded by {
        StableOnGrid(s, t, last, g);
      }
      SubmitAllPlacedStep(t, ps, g);
    }
  }

  /** Submitting the last query of `ps` on a loaded column places it and
      keeps the queries before it placed. */
  lemma SubmitAllPlacedStep(t: State, ps: seq<QueryId>, g: GridId)
    requires ps != [] && WellFormed(t) && OnGrid(t, ps[|ps| - 1], g)
    requires g in t.grids && t.grids[g].isLoaded
    requires forall x | x in ps[..|ps| - 1] :: Placed(t, x)
    ensures forall x | x in ps :: Placed(Submit(t, ps[|ps| - 1]), x)
  {
    var q := ps[|ps| - 1];
    assert ps == ps[..|ps| - 1] + [q];
    forall x | x in ps ensures Placed(Submit(t, q), x) {
      if x == q {
        SubmitPlaces(t, q);
      } else {
        SubmitKeepsPlaced(t, q, x);
      }
    }
  }

  lemma StableOnGrid(s: State, t: State, x: QueryId, g: GridId)
    requires Stable(s, t) && OnGrid(s, x, g) && g in s.grids && s.grids[g].isLoaded
    ensures OnGrid(t, x, g) && g in t.grids && t.grids[g].isLoaded
  {
    assert QueryGrows(s.queries[x], t.queries[x]);
    assert ChunkGrows(s.chunks[s.queries[x].chunk], t.chunks[s.queries[x].chunk]);
  }

  lemma OnGridPrefix(s: State, ps: seq<QueryId>, g: GridId)
    requires ps != [] && forall x | x in ps :: OnGrid(s, x, g)
    ensures Known(ps[..|ps| - 1], s.queries) && OnGrid(s, ps[|ps| - 1], g)
    ensures forall x | x in ps[..|ps| - 1] :: OnGrid(s, x, g)
  {
    forall y | y in ps[..|ps| - 1] ensures y in s.queries && OnGrid(s, y, g) { assert y in ps; }
  }

  lemma SubmitAllLast(s: State, ps: seq<QueryId>)
    requires WellFormed(s) && Known(ps, s.queries) && ps != []
    ensures Known(ps[..|ps| - 1], s.queries)
    ensures SubmitAll(s, ps) == Submit(SubmitAll(s, ps[..|ps| - 1]), ps[|ps| - 1])
  {
    KnownPrefix(ps, |ps| - 1, s.queries);
  }
}
