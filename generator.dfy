/** The scheduler itself (class ChunkGenerator), updating its state in
    place statement by statement. Each method is proved to leave the state
    that the corresponding function of Submission or Completion computes,
    so every property proved there holds of the class. */
module Generator {
  import opened ChunkModel
  import opened Submission
  import opened Completion

  class ChunkGenerator {
    /** The chunks, grid data and queries the scheduler works on. */
    var chunks: map<ChunkId, Chunk>
    var grids: map<GridId, GridData>
    var queries: map<QueryId, ChunkQuery>
    /** Queries parked on a grid data whose heightmap is loading. */
    var pendingQueries: map<GridId, seq<QueryId>>
    /** The queue of queries whose task has finished. */
    var finishedQueries: seq<QueryId>
    /** The effects on the outside world so far. */
    ghost var log: seq<Event>

    ghost function St(): State
      reads this
    {
      State(chunks, grids, queries, pendingQueries, finishedQueries, log)
    }

    /** A scheduler over the given world, with nothing parked or queued. */
    constructor (chunks0: map<ChunkId, Chunk>, grids0: map<GridId, GridData>, queries0: map<QueryId, ChunkQuery>)
      requires WellFormed(State(chunks0, grids0, queries0, map[], [], []))
      requires forall g | g in grids0 :: !grids0[g].isLoading
      requires forall c | c in chunks0 :: ChunkOk(State(chunks0, grids0, queries0, map[], [], []), c)
      ensures St() == State(chunks0, grids0, queries0, map[], [], [])
      ensures Valid(St())
    {
      chunks, grids, queries := chunks0, grids0, queries0;
      pendingQueries, finishedQueries := map[], [];
      log := [];
    }

    /** Resolves query q: marks it finished, wakes its waiters and releases
        it. */
    method ResolveQuery(q: QueryId)
      requires q in queries
      modifies this
      ensures St() == Resolve(old(St()), q)
    {
      var query := queries[q];
      queries := queries[q := query.(isFinished := true)];
      log := log + [NotifyAll(q)];
      log := log + [ChunkRelease(q)];
      if query.shouldRelease {
        log := log + [QueryRelease(q)];
      }
      assert log == old(log) + ResolveEvents(q, query.shouldRelease);
    }

    /** ChunkGenerator::submitQuery. */
    method SubmitQuery(q: QueryId)
      requires WellFormed(St()) && q in queries
      modifies this
      ensures St() == Submit(old(St()), q)
    {
      var query := queries[q];
      var cid := query.chunk;
      var chunk := chunks[cid];
      if chunk.genLevel >= query.genLevel {
        ResolveQuery(q);
        return;
      }
      if chunk.pendingGenLevel < query.genLevel {
        chunk := chunk.(pendingGenLevel := query.genLevel);
        chunks := chunks[cid := chunk];
      }
      var gid := chunk.gridData;
      if !grids[gid].isLoaded {
        if !grids[gid].isLoading {
          grids := grids[gid := grids[gid].(isLoading := true)];
          log := log + [AddTask(q)];
        }
        var parked := if gid in pendingQueries then pendingQueries[gid] else [];
        pendingQueries := pendingQueries[gid := parked + [q]];
      } else if chunk.current.Some? {
        chunks := chunks[cid := chunk.(pending := chunk.pending + [q])];
      } else {
        chunks := chunks[cid := chunk.(current := Some(q))];
        log := log + [AddTask(q)];
      }
    }

    /** ChunkGenerator::finishQuery: queues q for the next update. */
    method FinishQuery(q: QueryId)
      requires q in queries
      modifies this
      ensures St() == old(St()).(finished := old(finishedQueries) + [q])
    {
      finishedQueries := finishedQueries + [q];
    }

    /** The generation task of query q, as the scheduler sees it: the
        query's chunk has reached `level`, and the task then hands the
        query back through finishQuery. */
    method WorkerDone(q: QueryId, level: int)
      requires q in queries && queries[q].chunk in chunks && chunks[queries[q].chunk].genLevel <= level
      modifies this
      ensures St() == WorkerFinish(old(St()), q, level)
    {
      var cid := queries[q].chunk;
      chunks := chunks[cid := chunks[cid].(genLevel := level)];
      FinishQuery(q);
    }

    /** Takes up to buf.Length queries off the front of the finished queue
        into buf, in queue order, and returns how many it took. */
    method TryDequeueBulk(buf: array<QueryId>) returns (n: nat)
      modifies this, buf
      ensures n == (if |old(finishedQueries)| < buf.Length then |old(finishedQueries)| else buf.Length)
      ensures buf[..n] == old(finishedQueries)[..n]
      ensures St() == old(St()).(finished := old(finishedQueries)[n..])
    {
      n := 0;
      while n < buf.Length && finishedQueries != []
        invariant n <= buf.Length
        invariant old(finishedQueries) == buf[..n] + finishedQueries
        invariant St() == old(St()).(finished := finishedQueries)
        decreases buf.Length - n
      {
        buf[n] := finishedQueries[0];
        finishedQueries := finishedQueries[1..];
        n := n + 1;
      }
      assert old(finishedQueries)[..n] == buf[..n];
    }

    /** ChunkGenerator::update. */
    method Update()
      requires Valid(St())
      modifies this
      ensures St() == Updated(old(St()))
    {
      var batch := new QueryId[MAX_QUERIES];
      ghost var s0 := St();
      var n := TryDequeueBulk(batch);
      assert n == BatchSize(|s0.finished|);
      DequeueValid(s0, n);
      CompleteBatch(batch[..n]);
    }

    /** Drains the queries of `batch`, in order. */
    method CompleteBatch(batch: seq<QueryId>)
      requires Valid(St()) && Known(batch, queries)
      modifies this
      ensures St() == CompleteAll(old(St()), batch)
    {
      ghost var s1 := St();
      var i := 0;
      while i < |batch|
        invariant i <= |batch| && Known(batch[..i], s1.queries)
        invariant St() == CompleteAll(s1, batch[..i])
      {
        ghost var cur := St();
        assert Known(batch[..i + 1], s1.queries) && Valid(cur) && batch[i] in cur.queries
          && CompleteAll(s1, batch[..i + 1]) == Complete(cur, batch[i]) by {
          CompleteAllNext(s1, batch, i);
        }
        CompleteQuery(batch[i]);
        i := i + 1;
      }
      assert batch[..i] == batch;
      assert St() == CompleteAll(s1, batch);
    }

    /** One iteration of update's loop, for finished query q. */
    method CompleteQuery(q: QueryId)
      requires Valid(St()) && q in queries
      modifies this
      ensures St() == Complete(old(St()), q)
    {
      var cid := queries[q].chunk;
      ClearCurrentValid(St(), cid);
      chunks := chunks[cid := chunks[cid].(current := None)];
      var gid := chunks[cid].gridData;
      if grids[gid].isLoading {
        assert GridOk(St(), gid);
        LoadHeightmap(gid);
      } else if chunks[cid].genLevel == GEN_DONE {
        FinishChunk(q);
      } else {
        SettlePending(q);
      }
    }

    /** The heightmap branch of update. Submitting a query of a loaded
        column never touches the parked lists, so the parked list is read
        once before the loop. */
    method LoadHeightmap(gid: GridId)
      requires WellFormed(St()) && gid in grids && gid in pendingQueries
      modifies this
      ensures St() == HeightmapDone(old(St()), gid)
    {
      grids := grids[gid := grids[gid].(isLoaded := true, isLoading := false)];
      var parked := pendingQueries[gid];
      ResubmitAll(parked);
      pendingQueries := pendingQueries - {gid};
    }

    /** Submits the queries of `ps` one after the other. */
    method ResubmitAll(ps: seq<QueryId>)
      requires WellFormed(St()) && Known(ps, queries)
      modifies this
      ensures St() == SubmitAll(old(St()), ps)
    {
      ghost var t := St();
      var k := 0;
      while k < |ps|
        invariant k <= |ps| && Known(ps[..k], t.queries)
        invariant St() == SubmitAll(t, ps[..k])
      {
        ghost var cur := St();
        assert Known(ps[..k + 1], t.queries) && WellFormed(cur) && ps[k] in cur.queries
          && SubmitAll(t, ps[..k + 1]) == Submit(cur, ps[k]) by {
          SubmitAllNext(t, ps, k);
        }
        SubmitQuery(ps[k]);
        k := k + 1;
      }
      assert ps[..k] == ps;
      assert St() == SubmitAll(t, ps);
    }

    /** The GEN_DONE branch of update. */
    method FinishChunk(q: QueryId)
      requires WellFormed(St()) && q in queries
      modifies this
      ensures St() == GenDone(old(St()), q)
    {
      ghost var s0 := St();
      var cid := queries[q].chunk;
      var chunk := chunks[cid];
      assert ChunkRefs(s0, cid);
      var pend := chunk.pending;
      var accessible := chunk.isAccessible;
      var k := 0;
      while k < |pend|
        invariant k <= |pend|
        invariant Known(pend, s0.queries)
        invariant St() == ResolveAll(s0, pend[..k])
        invariant accessible == (chunk.isAccessible || k > 0)
      {
        ResolveAllNext(s0, pend, k);
        ResolveQuery(pend[k]);
        accessible := true;
        k := k + 1;
      }
      assert pend[..k] == pend;
      FinishChunkTail(cid, chunk.(isAccessible := accessible, pending := []), q);
    }

    /** Writes back chunk cid, fires onGenFinish for q and releases q. */
    method FinishChunkTail(cid: ChunkId, chunk: Chunk, q: QueryId)
      requires q in queries
      modifies this
      ensures St() == SetChunk(old(St()), cid, chunk,
                               FinishEvents(None, cid, old(queries[q]).genLevel, q, old(queries[q]).shouldRelease))
    {
      chunks := chunks[cid := chunk];
      var query := queries[q];
      log := log + [GenFinish(cid, query.genLevel)];
      log := log + [ChunkRelease(q)];
      if query.shouldRelease {
        log := log + [QueryRelease(q)];
      }
    }

    /** The partial-completion branch of update: the swap-with-back scan,
        then the promotion of the last query left, which from then on
        stands where q stood. */
    method SettlePending(q: QueryId)
      requires WellFormed(St()) && q in queries
      modifies this
      ensures St() == PartialDone(old(St()), q)
    {
      var cid := queries[q].chunk;
      var chunk := chunks[cid];
      assert ChunkRefs(St(), cid);
      var pend, accessible, removed := ScanPending(chunk);
      if |pend| > 0 {
        var next := pend[|pend| - 1];
        pend := pend[..|pend| - 1];
        PromoteTail(cid, chunk.(isAccessible := accessible, pending := pend, current := Some(next)), next);
      } else {
        FinishChunkTail(cid, chunk.(isAccessible := accessible, pending := pend), q);
      }
    }

    /** The scan of the partial-completion branch over the pending list of
        `chunk`: resolves and removes (swap-with-back) every query the chunk
        satisfies, and returns what is left, in its final order. */
    method ScanPending(chunk: Chunk) returns (pend: seq<QueryId>, accessible: bool, ghost removed: seq<QueryId>)
      requires Known(chunk.pending, queries)
      modifies this
      ensures Sweep(chunk.pending, 0, chunk.genLevel, old(queries)) == Swept(pend, removed)
      ensures Known(removed, old(queries))
      ensures St() == ResolveAll(old(St()), removed)
      ensures accessible == (chunk.isAccessible || removed != [])
    {
      ghost var s0 := St();
      ghost var level := chunk.genLevel;
      pend := chunk.pending;
      accessible := chunk.isAccessible;
      removed := [];
      var i: nat := 0;
      while i < |pend|
        invariant i <= |pend| && Known(pend, s0.queries) && Known(removed, s0.queries)
        invariant Sweep(chunk.pending, 0, level, s0.queries) ==
          Swept(Sweep(pend, i, level, s0.queries).kept, removed + Sweep(pend, i, level, s0.queries).removed)
        invariant St() == ResolveAll(s0, removed)
        invariant accessible == (chunk.isAccessible || removed != [])
        decreases |pend| - i
      {
        var took;
        pend, i, took, removed := ScanStep(chunk.genLevel, pend, i, s0, removed);
        accessible := accessible || took;
      }
    }

    /** One iteration of the scan at index i: a satisfied query is resolved
        and removed and the index stays; any other query is stepped over. */
    method ScanStep(level: int, pend: seq<QueryId>, i: nat, ghost s0: State, ghost removed: seq<QueryId>)
      returns (pend': seq<QueryId>, i': nat, took: bool, ghost removed': seq<QueryId>)
      requires i < |pend| && Known(pend, s0.queries) && Known(removed, s0.queries)
      requires St() == ResolveAll(s0, removed)
      modifies this
      ensures i' <= |pend'| && |pend'| - i' < |pend| - i
      ensures Known(pend', s0.queries) && Known(removed', s0.queries)
      ensures Sweep(pend', i', level, s0.queries).kept == Sweep(pend, i, level, s0.queries).kept
      ensures removed' + Sweep(pend', i', level, s0.queries).removed ==
              removed + Sweep(pend, i, level, s0.queries).removed
      ensures St() == ResolveAll(s0, removed')
      ensures took == (removed' != removed) && (took ==> removed' != [])
    {
      var q2 := pend[i];
      assert queries[q2].genLevel == s0.queries[q2].genLevel;
      if queries[q2].genLevel <= level {
        SweepRemoves(pend, i, level, s0.queries, removed);
        pend' := TakeAt(pend, i, s0, removed);
        i', took, removed' := i, true, removed + [q2];
      } else {
        SweepKeeps(pend, i, level, s0.queries);
        pend', i', took, removed' := pend, i + 1, false, removed;
      }
    }

    /** One removal step of the scan: resolves pend[i], then overwrites
        it with the last entry and drops the last entry. */
    method TakeAt(pend: seq<QueryId>, i: nat, ghost s0: State, ghost removed: seq<QueryId>)
      returns (rest: seq<QueryId>)
      requires i < |pend| && Known(pend, s0.queries) && Known(removed, s0.queries)
      requires St() == ResolveAll(s0, removed)
      modifies this
      ensures rest == RemoveAt(pend, i)
      ensures Known(removed + [pend[i]], s0.queries)
      ensures St() == ResolveAll(s0, removed + [pend[i]])
    {
      ResolveAllSnoc(s0, removed, pend[i]);
      ResolveQuery(pend[i]);
      rest := pend[i := pend[|pend| - 1]];
      rest := rest[..|rest| - 1];
    }

    /** Writes back chunk cid, dispatches the promoted query p, fires
        onGenFinish for it and releases it. */
    method PromoteTail(cid: ChunkId, chunk: Chunk, p: QueryId)
      requires p in queries
      modifies this
      ensures St() == SetChunk(old(St()), cid, chunk,
                               FinishEvents(Some(p), old(queries[p]).chunk, old(queries[p]).genLevel,
                                            p, old(queries[p]).shouldRelease))
    {
      chunks := chunks[cid := chunk];
      log := log + [AddTask(p)];
      var query := queries[p];
      log := log + [GenFinish(query.chunk, query.genLevel)];
      log := log + [ChunkRelease(p)];
      if query.shouldRelease {
        log := log + [QueryRelease(p)];
      }
    }
  }

  lemma ResolveAllNext(s: State, qs: seq<QueryId>, k: nat)
    requires Known(qs, s.queries) && k < |qs|
    ensures Known(qs[..k], s.queries) && Known(qs[..k + 1], s.queries)
    ensures ResolveAll(s, qs[..k]).queries.Keys == s.queries.Keys
    ensures ResolveAll(s, qs[..k + 1]) == Resolve(ResolveAll(s, qs[..k]), qs[k])
  {
    KnownPrefix(qs, k, s.queries);
    KnownPrefix(qs, k + 1, s.queries);
    assert qs[..k + 1][..k] == qs[..k];
  }

  lemma ResolveAllSnoc(s: State, qs: seq<QueryId>, x: QueryId)
    requires Known(qs, s.queries) && x in s.queries
    ensures Known(qs + [x], s.queries)
    ensures ResolveAll(s, qs).queries.Keys == s.queries.Keys
    ensures ResolveAll(s, qs + [x]) == Resolve(ResolveAll(s, qs), x)
  {
    assert (qs + [x])[..|qs|] == qs;
  }

  /** One removal step of the scan, as Sweep sees it. */
  lemma SweepRemoves(p: seq<QueryId>, i: nat, level: int, qs: map<QueryId, ChunkQuery>, removed: seq<QueryId>)
    requires i < |p| && Known(p, qs) && qs[p[i]].genLevel <= level
    ensures Known(RemoveAt(p, i), qs)
    ensures removed + Sweep(p, i, level, qs).removed ==
            (removed + [p[i]]) + Sweep(RemoveAt(p, i), i, level, qs).removed
    ensures Sweep(p, i, level, qs).kept == Sweep(RemoveAt(p, i), i, level, qs).kept
  {
    var p' := RemoveAt(p, i);
    KnownSub(p', p, qs);
    var sub := Sweep(p', i, level, qs);
    assert Sweep(p, i, level, qs) == Swept(sub.kept, [p[i]] + sub.removed);
    assert removed + ([p[i]] + sub.removed) == (removed + [p[i]]) + sub.removed;
  }

  /** One keep step of the scan, as Sweep sees it. */
  lemma SweepKeeps(p: seq<QueryId>, i: nat, level: int, qs: map<QueryId, ChunkQuery>)
    requires i < |p| && Known(p, qs) && qs[p[i]].genLevel > level
    ensures Sweep(p, i, level, qs) == Sweep(p, i + 1, level, qs)
  {
  }

  lemma SubmitAllNext(s: State, ps: seq<QueryId>, k: nat)
    requires WellFormed(s) && Known(ps, s.queries) && k < |ps|
    ensures Known(ps[..k], s.queries) && Known(ps[..k + 1], s.queries)
    ensures WellFormed(SubmitAll(s, ps[..k])) && ps[k] in SubmitAll(s, ps[..k]).queries
    ensures SubmitAll(s, ps[..k + 1]) == Submit(SubmitAll(s, ps[..k]), ps[k])
  {
    KnownPrefix(ps, k, s.queries);
    KnownPrefix(ps, k + 1, s.queries);
    assert ps[..k + 1][..k] == ps[..k];
  }

  lemma CompleteAllNext(s: State, qs: seq<QueryId>, k: nat)
    requires Valid(s) && Known(qs, s.queries) && k < |qs|
    ensures Known(qs[..k], s.queries) && Known(qs[..k + 1], s.queries)
    ensures Valid(CompleteAll(s, qs[..k])) && qs[k] in CompleteAll(s, qs[..k]).queries
    ensures CompleteAll(s, qs[..k + 1]) == Complete(CompleteAll(s, qs[..k]), qs[k])
  {
    KnownPrefix(qs, k, s.queries);
    KnownPrefix(qs, k + 1, s.queries);
    assert qs[..k + 1][..k] == qs[..k];
  }
}
