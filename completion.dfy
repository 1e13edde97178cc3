/** Draining finished queries (ChunkGenerator::update), as functions on the
    scheduler state, and what each branch promises. */
module Completion {
  import opened ChunkModel
  import opened Submission

  /** The outcome of the scan of a chunk's pending list: the queries left in
      it, in their final order, and the queries removed, in removal order. */
  datatype Swept = Swept(kept: seq<QueryId>, removed: seq<QueryId>)

  /** Swap-with-back removal: the element at i is overwritten by the last
      one and the last slot is dropped. */
  function RemoveAt(p: seq<QueryId>, i: nat): (r: seq<QueryId>)
    requires i < |p|
    ensures |r| == |p| - 1
    ensures r[..i] == p[..i]
    ensures multiset(r) + multiset{p[i]} == multiset(p)
  {
    var last := p[|p| - 1];
    if i == |p| - 1 then
      assert p == p[..i] + [last];
      p[..i]
    else
      assert p == p[..i] + [p[i]] + p[i + 1..|p| - 1] + [last];
      assert p[i := last][..|p| - 1] == p[..i] + [last] + p[i + 1..|p| - 1];
      p[i := last][..|p| - 1]
  }

  /** Every query of a sub-multiset of a known list is known. */
  lemma KnownSub(a: seq<QueryId>, b: seq<QueryId>, qs: map<QueryId, ChunkQuery>)
    requires multiset(a) <= multiset(b) && Known(b, qs)
    ensures Known(a, qs)
  {
    forall x | x in a ensures x in qs {
      assert x in multiset(a);
    }
  }

  /** What the scan from index i guarantees: the kept and removed queries
      together are the list; the first i entries are untouched; every kept
      query from i on is unsatisfied and every removed query is satisfied. */
  ghost predicate SweepPost(p: seq<QueryId>, i: nat, level: int, qs: map<QueryId, ChunkQuery>, r: Swept)
  {
    && multiset(r.kept) + multiset(r.removed) == multiset(p)
    && Known(r.kept, qs) && Known(r.removed, qs)
    && |r.kept| >= i && i <= |p| && r.kept[..i] == p[..i]
    && (forall j | i <= j < |r.kept| :: qs[r.kept[j]].genLevel > level)
    && (forall x | x in r.removed :: qs[x].genLevel <= level)
  }

  lemma SweepRemoveStep(p: seq<QueryId>, i: nat, level: int, qs: map<QueryId, ChunkQuery>, sub: Swept)
    requires i < |p| && Known(p, qs) && p[i] in qs && qs[p[i]].genLevel <= level
    requires SweepPost(RemoveAt(p, i), i, level, qs, sub)
    ensures SweepPost(p, i, level, qs, Swept(sub.kept, [p[i]] + sub.removed))
  {
    var p' := RemoveAt(p, i);
    assert multiset([p[i]] + sub.removed) == multiset{p[i]} + multiset(sub.removed);
    assert forall x | x in [p[i]] + sub.removed :: x == p[i] || x in sub.removed;
  }

  lemma SweepKeepStep(p: seq<QueryId>, i: nat, level: int, qs: map<QueryId, ChunkQuery>, sub: Swept)
    requires i < |p| && Known(p, qs) && p[i] in qs && qs[p[i]].genLevel > level
    requires SweepPost(p, i + 1, level, qs, sub)
    ensures SweepPost(p, i, level, qs, sub)
  {
    assert sub.kept[i] == p[i] by {
      assert sub.kept[..i + 1][i] == p[..i + 1][i];
    }
    assert sub.kept[..i] == sub.kept[..i + 1][..i];
  }

  /** The scan of update's partial-completion branch over pending list p
      from index i: a query whose level is at most `level` is removed by
      swap-with-back and the index stays put; any other query is kept and the
      index advances. */
  ghost function Sweep(p: seq<QueryId>, i: nat, level: int, qs: map<QueryId, ChunkQuery>): (r: Swept)
    requires i <= |p| && Known(p, qs)
    ensures SweepPost(p, i, level, qs, r)
    decreases |p| - i
  {
    if i == |p| then Swept(p, [])
    else if qs[p[i]].genLevel <= level then
      var p' := RemoveAt(p, i);
      KnownSub(p', p, qs);
      var sub := Sweep(p', i, level, qs);
      SweepRemoveStep(p, i, level, qs, sub);
      Swept(sub.kept, [p[i]] + sub.removed)
    else
      var sub := Sweep(p, i + 1, level, qs);
      SweepKeepStep(p, i, level, qs, sub);
      sub
  }

  /** The scan removes exactly the satisfied queries: a query occurs among
      the removed as often as in the list when its level is at most `level`,
      and among the kept as often as in the list otherwise. */
  lemma SweepSplits(p: seq<QueryId>, level: int, qs: map<QueryId, ChunkQuery>, x: QueryId)
    requires Known(p, qs)
    ensures var sw := Sweep(p, 0, level, qs);
      && multiset(sw.removed)[x] == (if x in qs && qs[x].genLevel <= level then multiset(p)[x] else 0)
      && multiset(sw.kept)[x] == (if x in qs && qs[x].genLevel > level then multiset(p)[x] else 0)
  {
    var sw := Sweep(p, 0, level, qs);
    if x !in qs {
      assert x !in p;
    } else if qs[x].genLevel <= level {
      assert forall j | 0 <= j < |sw.kept| :: sw.kept[j] != x;
      assert x !in sw.kept;
    } else {
      assert x !in sw.removed;
    }
  }

  /** The queries of p, in order, that a chunk at `level` satisfies. */
  ghost function Satisfied(p: seq<QueryId>, qs: map<QueryId, ChunkQuery>, level: int): seq<QueryId>
    requires Known(p, qs)
  {
    if p == [] then []
    else
      var x := p[|p| - 1];
      Satisfied(p[..|p| - 1], qs, level) + (if qs[x].genLevel <= level then [x] else [])
  }

  /** The queries of p, in order, that a chunk at `level` does not satisfy. */
  ghost function Unsatisfied(p: seq<QueryId>, qs: map<QueryId, ChunkQuery>, level: int): seq<QueryId>
    requires Known(p, qs)
  {
    if p == [] then []
    else
      var x := p[|p| - 1];
      Unsatisfied(p[..|p| - 1], qs, level) + (if qs[x].genLevel > level then [x] else [])
  }

  lemma {:induction false} FilterCounts(p: seq<QueryId>, qs: map<QueryId, ChunkQuery>, level: int, x: QueryId)
    requires Known(p, qs)
    ensures multiset(Satisfied(p, qs, level))[x] ==
      (if x in qs && qs[x].genLevel <= level then multiset(p)[x] else 0)
    ensures multiset(Unsatisfied(p, qs, level))[x] ==
      (if x in qs && qs[x].genLevel > level then multiset(p)[x] else 0)
    decreases |p|
  {
    if p != [] {
      var init, y := p[..|p| - 1], p[|p| - 1];
      assert p == init + [y];
      assert Known(init, qs) by {
        forall z | z in init ensures z in qs { assert z in p; }
      }
      FilterCounts(init, qs, level, x);
      assert multiset(p) == multiset(init) + multiset{y};
    }
  }

  /** The scan removes exactly the satisfied pending queries and keeps
      exactly the others, each as often as it was pending. */
  lemma SweepPartitions(p: seq<QueryId>, level: int, qs: map<QueryId, ChunkQuery>)
    requires Known(p, qs)
    ensures multiset(Sweep(p, 0, level, qs).removed) == multiset(Satisfied(p, qs, level))
    ensures multiset(Sweep(p, 0, level, qs).kept) == multiset(Unsatisfied(p, qs, level))
  {
    var sw := Sweep(p, 0, level, qs);
    forall x: QueryId ensures multiset(sw.removed)[x] == multiset(Satisfied(p, qs, level))[x]
                           && multiset(sw.kept)[x] == multiset(Unsatisfied(p, qs, level))[x] {
      FilterCounts(p, qs, level, x);
      SweepSplits(p, level, qs, x);
    }
  }

  /** Clears the current-query slot of chunk c. */
  ghost function ClearCurrent(s: State, c: ChunkId): State
    requires c in s.chunks
  {
    s.(chunks := s.chunks[c := s.chunks[c].(current := None)])
  }

  /** Marks grid data gid loaded and no longer loading. */
  ghost function MarkLoaded(s: State, gid: GridId): State
    requires gid in s.grids
  {
    s.(grids := s.grids[gid := s.grids[gid].(isLoaded := true, isLoading := false)])
  }

  /** Drops the parked list of grid data gid. */
  ghost function DropParked(s: State, gid: GridId): State
  {
    s.(pendingQueries := s.pendingQueries - {gid})
  }

  /** The heightmap branch: marks the grid data loaded, re-submits every
      query parked on it in list order, then drops its parked list. */
  ghost function HeightmapDone(s: State, gid: GridId): State
    requires WellFormed(s) && gid in s.grids && gid in s.pendingQueries
  {
    var t := MarkLoaded(s, gid);
    assert WellFormed(t);
    DropParked(SubmitAll(t, s.pendingQueries[gid]), gid)
  }

  /** Replaces the record of chunk cid by c and appends `events` to the
      log. */
  ghost function SetChunk(s: State, cid: ChunkId, c: Chunk, events: seq<Event>): State
  {
    s.(chunks := s.chunks[cid := c], log := s.log + events)
  }

  /** The GEN_DONE branch: resolves every pending query of q's chunk (each
      also makes the chunk accessible), empties the pending list, then fires
      onGenFinish for q and releases q. */
  ghost function GenDone(s: State, q: QueryId): State
    requires WellFormed(s) && q in s.queries
  {
    var cid := s.queries[q].chunk;
    var c := s.chunks[cid];
    var t := ResolveAll(s, c.pending);
    SetChunk(t, cid, c.(isAccessible := c.isAccessible || c.pending != [], pending := []),
             FinishEvents(None, cid, s.queries[q].genLevel, q, s.queries[q].shouldRelease))
  }

  /** The partial-completion branch: resolves the satisfied pending queries
      as the scan removes them; if any query is left, pops the last one,
      makes it current and dispatches it, and from then on that query stands
      where q stood: onGenFinish fires for it and it is the one released. */
  ghost function PartialDone(s: State, q: QueryId): State
    requires WellFormed(s) && q in s.queries
  {
    var cid := s.queries[q].chunk;
    var c := s.chunks[cid];
    var sw := Sweep(c.pending, 0, c.genLevel, s.queries);
    var t := ResolveAll(s, sw.removed);
    var accessible := c.isAccessible || sw.removed != [];
    if sw.kept == [] then
      SetChunk(t, cid, c.(isAccessible := accessible, pending := []),
               FinishEvents(None, cid, s.queries[q].genLevel, q, s.queries[q].shouldRelease))
    else
      var p := sw.kept[|sw.kept| - 1];
      SetChunk(t, cid, c.(isAccessible := accessible, pending := sw.kept[..|sw.kept| - 1], current := Some(p)),
               FinishEvents(Some(p), s.queries[p].chunk, s.queries[p].genLevel, p, s.queries[p].shouldRelease))
  }

  /** One iteration of update's loop, for finished query q. */
  ghost function Complete(s: State, q: QueryId): State
    requires Valid(s) && q in s.queries
  {
    var cid := s.queries[q].chunk;
    var t := ClearCurrent(s, cid);
    ClearCurrentValid(s, cid);
    var gid := t.chunks[cid].gridData;
    if t.grids[gid].isLoading then HeightmapDone(t, gid)
    else if t.chunks[cid].genLevel == GEN_DONE then GenDone(t, q)
    else PartialDone(t, q)
  }

  lemma ClearCurrentValid(s: State, c: ChunkId)
    requires Valid(s) && c in s.chunks
    ensures Valid(ClearCurrent(s, c)) && Stable(s, ClearCurrent(s, c))
  {
    var t := ClearCurrent(s, c);
    forall g | g in t.grids ensures GridOk(t, g) {
      assert GridOk(s, g);
      if g in s.pendingQueries {
        forall x | x in s.pendingQueries[g] ensures OnGrid(t, x, g) {
          assert OnGrid(s, x, g);
        }
      }
    }
    forall d | d in t.chunks ensures ChunkOk(t, d) {
      assert ChunkOk(s, d);
    }
  }

  lemma {:induction false} ResolveAllWellBehaved(s: State, qs: seq<QueryId>)
    requires WellFormed(s) && Known(qs, s.queries)
    ensures WellFormed(ResolveAll(s, qs)) && Stable(s, ResolveAll(s, qs))
    decreases |qs|
  {
    if qs != [] {
      var init, last := qs[..|qs| - 1], qs[|qs| - 1];
      assert qs == init + [last];
      assert Known(init, s.queries) by {
        forall y | y in init ensures y in s.queries { assert y in qs; }
      }
      var t := ResolveAll(s, init);
      ResolveAllWellBehaved(s, init);
      ResolveWellBehaved(t, last);
      StableTrans(s, t, Resolve(t, last));
    }
  }

  lemma ResolveAllKeepsOk(s: State, qs: seq<QueryId>)
    requires Known(qs, s.queries)
    ensures OkKept(s, ResolveAll(s, qs))
  {
    var r := ResolveAll(s, qs);
    forall g | g in s.grids && GridOk(s, g) ensures g in r.grids && GridOk(r, g) {
      if g in s.pendingQueries {
        forall x | x in s.pendingQueries[g] ensures OnGrid(r, x, g) {
          assert OnGrid(s, x, g);
        }
      }
    }
    forall c | c in s.chunks && ChunkOk(s, c) ensures c in r.chunks && ChunkOk(r, c) {
      forall x | x in s.chunks[c].pending ensures OnChunk(r, x, c) {
        assert OnChunk(s, x, c);
      }
    }
  }

  lemma SetChunkWellBehaved(s: State, cid: ChunkId, c: Chunk, events: seq<Event>)
    requires WellFormed(s) && cid in s.chunks
    requires ChunkGrows(s.chunks[cid], c)
    requires Known(c.pending, s.queries)
    requires c.current.Some? ==> c.current.value in s.queries
    ensures WellFormed(SetChunk(s, cid, c, events)) && Stable(s, SetChunk(s, cid, c, events))
  {
    assert s.log <= SetChunk(s, cid, c, events).log;
  }

  /** Rewriting a chunk's query data with queries that target it keeps the
      invariants, as long as the chunk stays on its column. */
  lemma SetChunkKeepsOk(s: State, cid: ChunkId, c: Chunk, events: seq<Event>)
    requires cid in s.chunks && c.gridData == s.chunks[cid].gridData
    requires forall x | x in c.pending :: OnChunk(s, x, cid)
    requires c.current.Some? ==> OnChunk(s, c.current.value, cid)
    ensures OkKept(s, SetChunk(s, cid, c, events))
  {
    var r := SetChunk(s, cid, c, events);
    forall g | g in s.grids && GridOk(s, g) ensures g in r.grids && GridOk(r, g) {
      if g in s.pendingQueries {
        forall x | x in s.pendingQueries[g] ensures OnGrid(r, x, g) {
          assert OnGrid(s, x, g);
        }
      }
    }
  }

  lemma GenDoneKeepsOk(s: State, q: QueryId)
    requires Valid(s) && q in s.queries
    ensures WellFormed(GenDone(s, q)) && Stable(s, GenDone(s, q))
    ensures OkKept(s, GenDone(s, q))
  {
    var cid := s.queries[q].chunk;
    var c := s.chunks[cid];
    var t := ResolveAll(s, c.pending);
    assert ChunkOk(s, cid);
    ResolveAllWellBehaved(s, c.pending);
    ResolveAllKeepsOk(s, c.pending);
    var c' := c.(isAccessible := c.isAccessible || c.pending != [], pending := []);
    var ev := FinishEvents(None, cid, s.queries[q].genLevel, q, s.queries[q].shouldRelease);
    SetChunkWellBehaved(t, cid, c', ev);
    SetChunkKeepsOk(t, cid, c', ev);
    StableTrans(s, t, GenDone(s, q));
    OkKeptTrans(s, t, GenDone(s, q));
  }

  lemma PartialDoneKeepsOk(s: State, q: QueryId)
    requires Valid(s) && q in s.queries
    ensures WellFormed(PartialDone(s, q)) && Stable(s, PartialDone(s, q))
    ensures OkKept(s, PartialDone(s, q))
  {
    var cid := s.queries[q].chunk;
    var c := s.chunks[cid];
    var sw := Sweep(c.pending, 0, c.genLevel, s.queries);
    var t := ResolveAll(s, sw.removed);
    ResolveAllWellBehaved(s, sw.removed);
    ResolveAllKeepsOk(s, sw.removed);
    assert ChunkOk(s, cid);
    var accessible := c.isAccessible || sw.removed != [];
    forall x | x in sw.kept ensures OnChunk(t, x, cid) {
      assert x in multiset(c.pending);
      assert OnChunk(s, x, cid);
    }
    if sw.kept == [] {
      var c' := c.(isAccessible := accessible, pending := []);
      var ev := FinishEvents(None, cid, s.queries[q].genLevel, q, s.queries[q].shouldRelease);
      SetChunkWellBehaved(t, cid, c', ev);
      SetChunkKeepsOk(t, cid, c', ev);
    } else {
      var p := sw.kept[|sw.kept| - 1];
      assert forall x | x in sw.kept[..|sw.kept| - 1] :: x in sw.kept;
      var c' := c.(isAccessible := accessible, pending := sw.kept[..|sw.kept| - 1], current := Some(p));
      var ev := FinishEvents(Some(p), s.queries[p].chunk, s.queries[p].genLevel, p, s.queries[p].shouldRelease);
      SetChunkWellBehaved(t, cid, c', ev);
      SetChunkKeepsOk(t, cid, c', ev);
    }
    StableTrans(s, t, PartialDone(s, q));
    OkKeptTrans(s, t, PartialDone(s, q));
  }

  lemma MarkLoadedOk(s: State, gid: GridId)
    requires Valid(s) && gid in s.grids && s.grids[gid].isLoading
    ensures var t := MarkLoaded(s, gid);
      && WellFormed(t) && Stable(s, t) && t.finished == s.finished
      && gid in t.pendingQueries && t.pendingQueries == s.pendingQueries
      && (forall x | x in t.pendingQueries[gid] :: OnGrid(t, x, gid))
      && (forall g | g in t.grids && g != gid :: GridOk(t, g))
      && (forall c | c in t.chunks :: ChunkOk(t, c))
  {
    var t := MarkLoaded(s, gid);
    assert GridOk(s, gid);
    forall x | x in t.pendingQueries[gid] ensures OnGrid(t, x, gid) {
      assert OnGrid(s, x, gid);
    }
    forall g | g in t.grids && g != gid ensures GridOk(t, g) {
      assert GridOk(s, g);
      if g in s.pendingQueries {
        forall x | x in s.pendingQueries[g] ensures OnGrid(t, x, g) {
          assert OnGrid(s, x, g);
        }
      }
    }
    forall c | c in t.chunks ensures ChunkOk(t, c) {
      assert ChunkOk(s, c);
    }
  }

  lemma DropParkedOk(u: State, gid: GridId)
    requires WellFormed(u) && gid in u.grids && u.grids[gid] == GridData(true, false)
    requires forall g | g in u.grids && g != gid :: GridOk(u, g)
    requires forall c | c in u.chunks :: ChunkOk(u, c)
    ensures Valid(DropParked(u, gid)) && Stable(u, DropParked(u, gid))
  {
    var r := DropParked(u, gid);
    forall g | g in r.grids ensures GridOk(r, g) {
      if g != gid {
        assert GridOk(u, g);
        if g in r.pendingQueries {
          forall x | x in r.pendingQueries[g] ensures OnGrid(r, x, g) {
            assert OnGrid(u, x, g);
          }
        }
      }
    }
    forall c | c in r.chunks ensures ChunkOk(r, c) {
      assert ChunkOk(u, c);
    }
  }

  /** The heightmap branch keeps the scheduler invariant. */
  lemma HeightmapDoneValid(s: State, gid: GridId)
    requires Valid(s) && gid in s.grids && s.grids[gid].isLoading
    ensures gid in s.pendingQueries
    ensures Valid(HeightmapDone(s, gid)) && Stable(s, HeightmapDone(s, gid))
    ensures HeightmapDone(s, gid).finished == s.finished
  {
    assert GridOk(s, gid);
    var t := MarkLoaded(s, gid);
    MarkLoadedOk(s, gid);
    var ps := s.pendingQueries[gid];
    var u := SubmitAll(t, ps);
    SubmitAllOnLoaded(t, ps, gid);
    SubmitAllKeepsOk(t, ps);
    assert forall g | g in u.grids && g != gid :: GridOk(u, g) by {
      forall g | g in u.grids && g != gid ensures GridOk(u, g) {
        assert g in t.grids && GridOk(t, g);
      }
    }
    assert forall c | c in u.chunks :: ChunkOk(u, c) by {
      forall c | c in u.chunks ensures ChunkOk(u, c) {
        assert c in t.chunks && ChunkOk(t, c);
      }
    }
    DropParkedOk(u, gid);
    StableTrans(s, t, u);
    StableTrans(s, u, DropParked(u, gid));
  }

  /** A step that keeps every reference valid, loses nothing and keeps every
      grid data's and chunk's invariant keeps the scheduler invariant. */
  lemma OkKeptValid(s: State, r: State)
    requires Valid(s) && WellFormed(r) && Stable(s, r) && OkKept(s, r)
    ensures Valid(r)
  {
    forall g | g in r.grids ensures GridOk(r, g) {
      assert g in s.grids && GridOk(s, g);
    }
    forall c | c in r.chunks ensures ChunkOk(r, c) {
      assert c in s.chunks && ChunkOk(s, c);
    }
  }

  /** Draining one finished query keeps the scheduler invariant, loses
      nothing, and leaves the finished queue alone. */
  lemma GenDoneValid(s: State, q: QueryId)
    requires Valid(s) && q in s.queries
    ensures Valid(GenDone(s, q)) && Stable(s, GenDone(s, q)) && GenDone(s, q).finished == s.finished
  {
    GenDoneKeepsOk(s, q);
    OkKeptValid(s, GenDone(s, q));
  }

  lemma PartialDoneValid(s: State, q: QueryId)
    requires Valid(s) && q in s.queries
    ensures Valid(PartialDone(s, q)) && Stable(s, PartialDone(s, q)) && PartialDone(s, q).finished == s.finished
  {
    PartialDoneKeepsOk(s, q);
    OkKeptValid(s, PartialDone(s, q));
  }

  lemma CompleteValid(s: State, q: QueryId)
    requires Valid(s) && q in s.queries
    ensures Valid(Complete(s, q)) && Stable(s, Complete(s, q))
    ensures Complete(s, q).finished == s.finished
  {
    var cid := s.queries[q].chunk;
    var t := ClearCurrent(s, cid);
    ClearCurrentValid(s, cid);
    var gid := t.chunks[cid].gridData;
    var r := Complete(s, q);
    if t.grids[gid].isLoading {
      assert r == HeightmapDone(t, gid);
      HeightmapDoneValid(t, gid);
    } else if t.chunks[cid].genLevel == GEN_DONE {
      assert r == GenDone(t, q);
      GenDoneValid(t, q);
    } else {
      assert r == PartialDone(t, q);
      PartialDoneValid(t, q);
    }
    StableTrans(s, t, r);
  }

  /** What a finished generation task hands back to the scheduler: the
      query's chunk has reached `level` (no lower than before), and the
      query is queued for the next update. */
  ghost function WorkerFinish(s: State, q: QueryId, level: int): State
    requires q in s.queries && s.queries[q].chunk in s.chunks
    requires s.chunks[s.queries[q].chunk].genLevel <= level
  {
    var cid := s.queries[q].chunk;
    s.(chunks := s.chunks[cid := s.chunks[cid].(genLevel := level)], finished := s.finished + [q])
  }

  /** A finished task raises only its chunk's level, queues only its query,
      and keeps the scheduler invariant. */
  lemma WorkerFinishValid(s: State, q: QueryId, level: int)
    requires Valid(s) && q in s.queries
    requires s.chunks[s.queries[q].chunk].genLevel <= level
    ensures var r := WorkerFinish(s, q, level); var cid := s.queries[q].chunk;
      && Valid(r)
      && r.chunks.Keys == s.chunks.Keys && r.chunks[cid].genLevel == level
      && r.chunks[cid] == s.chunks[cid].(genLevel := level)
      && (forall d | d in s.chunks && d != cid :: r.chunks[d] == s.chunks[d])
      && r.grids == s.grids && r.queries == s.queries && r.pendingQueries == s.pendingQueries
      && r.finished == s.finished + [q] && r.log == s.log
  {
    var r := WorkerFinish(s, q, level);
    forall g | g in r.grids ensures GridOk(r, g) {
      assert GridOk(s, g);
      if g in r.pendingQueries {
        forall x | x in r.pendingQueries[g] ensures OnGrid(r, x, g) {
          assert OnGrid(s, x, g);
        }
      }
    }
    forall c | c in r.chunks ensures ChunkRefs(r, c) && ChunkOk(r, c) {
      assert ChunkRefs(s, c) && ChunkOk(s, c);
    }
  }

  /** Queuing a known query for the next update (finishQuery) keeps the
      scheduler invariant. */
  lemma FinishKeepsValid(s: State, q: QueryId)
    requires Valid(s) && q in s.queries
    ensures Valid(s.(finished := s.finished + [q]))
  {
    var r := s.(finished := s.finished + [q]);
    forall g | g in r.grids ensures GridOk(r, g) {
      assert GridOk(s, g);
    }
    forall c | c in r.chunks ensures ChunkOk(r, c) {
      assert ChunkOk(s, c);
    }
  }

  /** Drains the queries of `qs` one after the other, in order. */
  ghost function CompleteAll(s: State, qs: seq<QueryId>): (r: State)
    requires Valid(s) && Known(qs, s.queries)
    ensures Valid(r) && Stable(s, r) && r.finished == s.finished
    decreases |qs|
  {
    if qs == [] then s
    else
      var init, last := qs[..|qs| - 1], qs[|qs| - 1];
      assert qs == init + [last];
      var t := CompleteAll(s, init);
      CompleteValid(t, last);
      StableTrans(s, t, Complete(t, last));
      Complete(t, last)
  }

  /** How many finished queries one update takes off the queue. */
  function BatchSize(queued: nat): (n: nat)
    ensures n <= MAX_QUERIES && n <= queued
    ensures n == MAX_QUERIES || n == queued
  {
    if queued < MAX_QUERIES then queued else MAX_QUERIES
  }

  /** Takes the first n finished queries off the queue. */
  ghost function Dequeue(s: State, n: nat): State
    requires n <= |s.finished|
  {
    s.(finished := s.finished[n..])
  }

  lemma DequeueValid(s: State, n: nat)
    requires Valid(s) && n <= |s.finished|
    ensures Valid(Dequeue(s, n)) && Stable(s, Dequeue(s, n))
    ensures Known(s.finished[..n], s.queries)
  {
    forall x | x in s.finished[n..] ensures x in s.queries { assert x in s.finished; }
    forall x | x in s.finished[..n] ensures x in s.queries { assert x in s.finished; }
    var t := Dequeue(s, n);
    forall g | g in t.grids ensures GridOk(t, g) {
      assert GridOk(s, g);
      if g in s.pendingQueries {
        forall x | x in s.pendingQueries[g] ensures OnGrid(t, x, g) {
          assert OnGrid(s, x, g);
        }
      }
    }
    forall c | c in t.chunks ensures ChunkOk(t, c) {
      assert ChunkOk(s, c);
    }
  }

  /** ChunkGenerator::update: takes up to MAX_QUERIES finished queries off
      the front of the queue and drains them in queue order. */
  ghost function Updated(s: State): State
    requires Valid(s)
  {
    var n := BatchSize(|s.finished|);
    DequeueValid(s, n);
    CompleteAll(Dequeue(s, n), s.finished[..n])
  }

  /** An update keeps the scheduler invariant and loses nothing. */
  lemma UpdatePreservesValid(s: State)
    requires Valid(s)
    ensures Valid(Updated(s)) && Stable(s, Updated(s))
  {
    var n := BatchSize(|s.finished|);
    DequeueValid(s, n);
    StableTrans(s, Dequeue(s, n), Updated(s));
  }

  /** An update takes exactly min(MAX_QUERIES, queue length) finished
      queries off the front of the queue and leaves the rest queued in
      order. */
  lemma UpdateDrains(s: State)
    requires Valid(s)
    ensures Updated(s).finished == s.finished[BatchSize(|s.finished|)..]
  {
    DequeueValid(s, BatchSize(|s.finished|));
  }

  /** The log from `s` to `r` is the resolution of the queries of `ps`
      followed by `tail`: each event is counted as the resolutions count it
      plus its occurrences in `tail`. */
  lemma ResolvedThen(s: State, r: State, ps: seq<QueryId>, queries: map<QueryId, ChunkQuery>, tail: seq<Event>)
    requires Known(ps, queries) && r.log == s.log + ResolveLog(ps, queries) + tail
    ensures s.log <= r.log
    ensures forall e :: Emitted(s, r)[e] == ResolveCount(ps, queries, e) + multiset(tail)[e]
  {
    assert r.log[|s.log|..] == ResolveLog(ps, queries) + tail;
    forall e ensures Emitted(s, r)[e] == ResolveCount(ps, queries, e) + multiset(tail)[e] {
      ResolveLogCount(ps, queries, e);
    }
  }

  /** The GEN_DONE branch resolves every query pending on the chunk and only
      those (the finished query itself is not marked finished unless it was
      also pending), empties the pending list, leaves the chunk's current
      slot alone, and makes the chunk accessible if anything was pending. */
  lemma GenDoneCompletion(s: State, q: QueryId)
    requires WellFormed(s) && q in s.queries
    ensures var r := GenDone(s, q); var cid := s.queries[q].chunk; var c := s.chunks[cid];
      && cid in r.chunks && r.chunks[cid].pending == [] && r.chunks[cid].current == c.current
      && r.chunks[cid].isAccessible == (c.isAccessible || c.pending != [])
      && r.queries.Keys == s.queries.Keys
      && (forall x | x in s.queries ::
            r.queries[x].isFinished == (s.queries[x].isFinished || x in c.pending))
      && r.grids == s.grids && r.pendingQueries == s.pendingQueries && r.finished == s.finished
      && (forall d | d in s.chunks && d != cid :: d in r.chunks && r.chunks[d] == s.chunks[d])
  {
  }

  /** Outside the heightmap branch, the finished query no longer occupies
      its chunk's current slot: afterwards the slot is empty, or holds a
      query that was pending on the chunk and that the chunk does not yet
      satisfy, and then only below GEN_DONE. */
  lemma CompleteFreesSlot(s: State, q: QueryId)
    requires Valid(s) && q in s.queries
    requires !s.grids[s.chunks[s.queries[q].chunk].gridData].isLoading
    ensures var r := Complete(s, q); var cid := s.queries[q].chunk; var c := s.chunks[cid];
      && cid in r.chunks
      && (r.chunks[cid].current.Some? ==>
            && c.genLevel != GEN_DONE
            && r.chunks[cid].current.value in c.pending
            && s.queries[r.chunks[cid].current.value].genLevel > c.genLevel)
  {
    var cid := s.queries[q].chunk;
    var t := ClearCurrent(s, cid);
    ClearCurrentValid(s, cid);
    if s.chunks[cid].genLevel == GEN_DONE {
      assert Complete(s, q) == GenDone(t, q);
      GenDoneCompletion(t, q);
    } else {
      assert Complete(s, q) == PartialDone(t, q);
      PartialSlot(t, q);
    }
  }

  /** The query the partial-completion branch promotes was pending and is
      not yet satisfied. */
  lemma PartialSlot(s: State, q: QueryId)
    requires WellFormed(s) && q in s.queries && s.chunks[s.queries[q].chunk].current == None
    ensures var r := PartialDone(s, q); var cid := s.queries[q].chunk; var c := s.chunks[cid];
      && cid in r.chunks
      && (r.chunks[cid].current.Some? ==>
            && r.chunks[cid].current.value in c.pending
            && s.queries[r.chunks[cid].current.value].genLevel > c.genLevel)
  {
    var cid := s.queries[q].chunk;
    var c := s.chunks[cid];
    PartialChunk(s, q);
    assert ChunkRefs(s, cid);
    var sw := Sweep(c.pending, 0, c.genLevel, s.queries);
    if sw.kept != [] {
      var k := sw.kept;
      assert k[|k| - 1] in multiset(c.pending) by {
        assert k[|k| - 1] in multiset(k);
      }
    }
  }

  /** What a completion logs after its resolutions: the dispatch of
      `dispatched` if any, onGenFinish(c0, level), and the release of
      `target`. */
  function FinishEvents(dispatched: Option<QueryId>, c0: ChunkId, level: int, target: QueryId, sr: bool): seq<Event>
  {
    (if dispatched.Some? then [AddTask(dispatched.value)] else [])
    + [GenFinish(c0, level)] + ReleaseEvents(target, sr)
  }

  /** How often FinishEvents holds event `e`: one task for `dispatched`,
      one onGenFinish(c0, level), one chunk release for the target and one
      query release for it when `sr`; nothing else. */
  function FinishCount(dispatched: Option<QueryId>, c0: ChunkId, level: int, target: QueryId, sr: bool, e: Event): nat
  {
    match e
    case AddTask(x) => if dispatched == Some(x) then 1 else 0
    case GenFinish(c, l) => if c == c0 && l == level then 1 else 0
    case ChunkRelease(x) => if x == target then 1 else 0
    case QueryRelease(x) => if x == target && sr then 1 else 0
    case NotifyAll(_) => 0
  }

  lemma FinishEventsCount(dispatched: Option<QueryId>, c0: ChunkId, level: int, target: QueryId, sr: bool, e: Event)
    ensures multiset(FinishEvents(dispatched, c0, level, target, sr))[e] == FinishCount(dispatched, c0, level, target, sr, e)
  {
    var tail := FinishEvents(None, c0, level, target, sr);
    FinishTailCount(c0, level, target, sr, e);
    if dispatched.Some? {
      assert FinishEvents(dispatched, c0, level, target, sr) == [AddTask(dispatched.value)] + tail;
    }
  }

  lemma FinishTailCount(c0: ChunkId, level: int, target: QueryId, sr: bool, e: Event)
    ensures multiset(FinishEvents(None, c0, level, target, sr))[e] == FinishCount(None, c0, level, target, sr, e)
  {
    if sr {
      assert FinishEvents(None, c0, level, target, sr) == [GenFinish(c0, level), ChunkRelease(target), QueryRelease(target)];
    } else {
      assert FinishEvents(None, c0, level, target, sr) == [GenFinish(c0, level), ChunkRelease(target)];
    }
  }

  /** How often a completion logs event `e` when it resolves the queries
      of `ps` and then logs FinishEvents. */
  ghost function DrainCount(ps: seq<QueryId>, queries: map<QueryId, ChunkQuery>, dispatched: Option<QueryId>,
                            c0: ChunkId, level: int, target: QueryId, sr: bool, e: Event): nat
  {
    ResolveCount(ps, queries, e) + FinishCount(dispatched, c0, level, target, sr, e)
  }

  /** DrainCount depends on the resolved queries only through their
      multiplicities. */
  lemma DrainCountMultiset(a: seq<QueryId>, b: seq<QueryId>, queries: map<QueryId, ChunkQuery>,
                           dispatched: Option<QueryId>, c0: ChunkId, level: int, target: QueryId, sr: bool)
    requires multiset(a) == multiset(b)
    ensures forall e :: DrainCount(a, queries, dispatched, c0, level, target, sr, e)
                     == DrainCount(b, queries, dispatched, c0, level, target, sr, e)
  {
  }

  /** The events a completion logs, counted by DrainCount. */
  lemma DrainCounts(s: State, r: State, ps: seq<QueryId>, queries: map<QueryId, ChunkQuery>,
                    dispatched: Option<QueryId>, c0: ChunkId, level: int, target: QueryId, sr: bool)
    requires Known(ps, queries)
    requires r.log == s.log + ResolveLog(ps, queries) + FinishEvents(dispatched, c0, level, target, sr)
    ensures s.log <= r.log
    ensures forall e :: Emitted(s, r)[e] == DrainCount(ps, queries, dispatched, c0, level, target, sr, e)
  {
    var tail := FinishEvents(dispatched, c0, level, target, sr);
    ResolvedThen(s, r, ps, queries, tail);
    forall e ensures Emitted(s, r)[e] == DrainCount(ps, queries, dispatched, c0, level, target, sr, e) {
      FinishEventsCount(dispatched, c0, level, target, sr, e);
    }
  }

  /** The GEN_DONE branch wakes and chunk-releases each pending query once
      per occurrence, releases the finished query once more, dispatches
      nothing, and fires onGenFinish exactly once, for the chunk and the
      finished query's level. */
  lemma GenDoneEvents(s: State, q: QueryId)
    requires WellFormed(s) && q in s.queries
    ensures var r := GenDone(s, q); var cid := s.queries[q].chunk;
      && s.log <= r.log
      && forall e :: Emitted(s, r)[e] == DrainCount(s.chunks[cid].pending, s.queries, None,
                                                   cid, s.queries[q].genLevel, q, s.queries[q].shouldRelease, e)
  {
    var cid := s.queries[q].chunk;
    assert ChunkRefs(s, cid);
    DrainCounts(s, GenDone(s, q), s.chunks[cid].pending, s.queries, None,
                cid, s.queries[q].genLevel, q, s.queries[q].shouldRelease);
  }

  /** A member of the satisfied part of p is a satisfied member of p. */
  lemma SatisfiedMembers(p: seq<QueryId>, qs: map<QueryId, ChunkQuery>, level: int, x: QueryId)
    requires Known(p, qs)
    ensures x in Satisfied(p, qs, level) <==> x in p && qs[x].genLevel <= level
    ensures x in Unsatisfied(p, qs, level) <==> x in p && qs[x].genLevel > level
  {
    FilterCounts(p, qs, level, x);
    assert x in Satisfied(p, qs, level) <==> multiset(Satisfied(p, qs, level))[x] > 0;
    assert x in Unsatisfied(p, qs, level) <==> multiset(Unsatisfied(p, qs, level))[x] > 0;
  }

  /** The partial-completion branch marks finished exactly the pending
      queries the chunk now satisfies, makes the chunk accessible exactly
      when there was one, and touches no grid data, parked list or finished
      queue. */
  lemma PartialResolves(s: State, q: QueryId)
    requires WellFormed(s) && q in s.queries
    ensures var r := PartialDone(s, q); var cid := s.queries[q].chunk; var c := s.chunks[cid];
      && r.queries.Keys == s.queries.Keys && cid in r.chunks
      && (forall x | x in s.queries :: r.queries[x].isFinished ==
            (s.queries[x].isFinished || (x in c.pending && s.queries[x].genLevel <= c.genLevel)))
      && r.chunks[cid].isAccessible ==
           (c.isAccessible || exists x | x in c.pending :: s.queries[x].genLevel <= c.genLevel)
      && r.grids == s.grids && r.pendingQueries == s.pendingQueries && r.finished == s.finished
      && (forall d | d in s.chunks && d != cid :: d in r.chunks && r.chunks[d] == s.chunks[d])
  {
    PartialOtherChunks(s, q);
    var cid := s.queries[q].chunk;
    var c := s.chunks[cid];
    assert ChunkRefs(s, cid);
    var sw := Sweep(c.pending, 0, c.genLevel, s.queries);
    SweepPartitions(c.pending, c.genLevel, s.queries);
    forall x | x in s.queries
      ensures x in sw.removed <==> x in c.pending && s.queries[x].genLevel <= c.genLevel
    {
      SatisfiedMembers(c.pending, s.queries, c.genLevel, x);
      assert x in sw.removed <==> x in multiset(sw.removed);
    }
    if sw.removed != [] {
      assert sw.removed[0] in sw.removed;
    }
  }

  /** The partial-completion branch writes no chunk but the finished
      query's. */
  lemma PartialOtherChunks(s: State, q: QueryId)
    requires WellFormed(s) && q in s.queries
    ensures var r := PartialDone(s, q); var cid := s.queries[q].chunk;
      forall d | d in s.chunks && d != cid :: d in r.chunks && r.chunks[d] == s.chunks[d]
  {
    var cid := s.queries[q].chunk;
    var c := s.chunks[cid];
    assert ChunkRefs(s, cid);
    var sw := Sweep(c.pending, 0, c.genLevel, s.queries);
    assert ResolveAll(s, sw.removed).chunks == s.chunks;
  }

  /** When the chunk has no query in flight, the partial-completion branch
      promotes a query exactly when some pending query is still unsatisfied;
      the pending list afterwards together with the promoted query is
      exactly the unsatisfied pending queries, with their multiplicities. */
  lemma PartialPromotes(s: State, q: QueryId)
    requires WellFormed(s) && q in s.queries
    requires s.chunks[s.queries[q].chunk].current == None
    ensures var r := PartialDone(s, q); var cid := s.queries[q].chunk; var c := s.chunks[cid];
      && cid in r.chunks
      && (r.chunks[cid].current.Some? <==>
            exists x | x in c.pending :: s.queries[x].genLevel > c.genLevel)
      && multiset(r.chunks[cid].pending)
         + (if r.chunks[cid].current.Some? then multiset{r.chunks[cid].current.value} else multiset{})
         == multiset(Unsatisfied(c.pending, s.queries, c.genLevel))
      && (forall x | x in r.chunks[cid].pending :: x in s.queries && s.queries[x].genLevel > c.genLevel)
  {
    var cid := s.queries[q].chunk;
    var c := s.chunks[cid];
    assert ChunkRefs(s, cid);
    var sw := Sweep(c.pending, 0, c.genLevel, s.queries);
    SweepPartitions(c.pending, c.genLevel, s.queries);
    PartialChunk(s, q);
    if sw.kept != [] {
      PromotesLast(c.pending, s.queries, c.genLevel, sw.kept);
      KeptUnsatisfied(c.pending, s.queries, c.genLevel, sw);
    } else {
      PromotesNone(c.pending, s.queries, c.genLevel);
    }
  }

  /** The chunk slots the partial-completion branch writes. */
  lemma PartialChunk(s: State, q: QueryId)
    requires WellFormed(s) && q in s.queries
    ensures var r := PartialDone(s, q); var cid := s.queries[q].chunk; var c := s.chunks[cid];
      var k := Sweep(c.pending, 0, c.genLevel, s.queries).kept;
      && cid in r.chunks
      && r.chunks[cid].current == (if k == [] then c.current else Some(k[|k| - 1]))
      && r.chunks[cid].pending == (if k == [] then [] else k[..|k| - 1])
  {
  }

  lemma KeptUnsatisfied(p: seq<QueryId>, qs: map<QueryId, ChunkQuery>, level: int, sw: Swept)
    requires SweepPost(p, 0, level, qs, sw) && sw.kept != []
    ensures forall x | x in sw.kept[..|sw.kept| - 1] :: x in qs && qs[x].genLevel > level
  {
    forall x | x in sw.kept[..|sw.kept| - 1] ensures x in qs && qs[x].genLevel > level {
      var j :| 0 <= j < |sw.kept| - 1 && sw.kept[..|sw.kept| - 1][j] == x;
      assert sw.kept[j] == x;
    }
  }

  lemma PromotesLast(p: seq<QueryId>, qs: map<QueryId, ChunkQuery>, level: int, k: seq<QueryId>)
    requires Known(p, qs) && k != [] && multiset(k) == multiset(Unsatisfied(p, qs, level))
    ensures exists x | x in p :: qs[x].genLevel > level
    ensures multiset(k[..|k| - 1]) + multiset{k[|k| - 1]} == multiset(Unsatisfied(p, qs, level))
  {
    assert k == k[..|k| - 1] + [k[|k| - 1]];
    SatisfiedMembers(p, qs, level, k[|k| - 1]);
    assert k[|k| - 1] in multiset(Unsatisfied(p, qs, level));
  }

  lemma PromotesNone(p: seq<QueryId>, qs: map<QueryId, ChunkQuery>, level: int)
    requires Known(p, qs) && multiset(Unsatisfied(p, qs, level)) == multiset{}
    ensures forall x | x in p :: qs[x].genLevel <= level
  {
    forall x | x in p ensures qs[x].genLevel <= level {
      SatisfiedMembers(p, qs, level, x);
    }
  }

  lemma PartialLog(s: State, q: QueryId)
    requires Valid(s) && q in s.queries
    requires s.chunks[s.queries[q].chunk].current == None
    ensures var r := PartialDone(s, q); var cid := s.queries[q].chunk; var c := s.chunks[cid];
      var cur := r.chunks[cid].current; var target := if cur.Some? then cur.value else q;
      var sw := Sweep(c.pending, 0, c.genLevel, s.queries);
      && target in s.queries
      && r.log == s.log + ResolveLog(sw.removed, s.queries)
                  + FinishEvents(cur, cid, s.queries[target].genLevel, target, s.queries[target].shouldRelease)
  {
    var cid := s.queries[q].chunk;
    var c := s.chunks[cid];
    assert ChunkRefs(s, cid) && ChunkOk(s, cid);
    var sw := Sweep(c.pending, 0, c.genLevel, s.queries);
    if sw.kept != [] {
      var p := sw.kept[|sw.kept| - 1];
      assert p in multiset(c.pending) by {
        assert p in multiset(sw.kept);
      }
      assert OnChunk(s, p, cid);
    }
  }

  /** The partial-completion branch logs: the resolution of every
      satisfied pending query, then, when a query is promoted, its task;
      then onGenFinish and the release, both for the promoted query when
      there is one and for the finished query otherwise. So once a query is
      promoted the finished query is never released here and the promoted
      one is released although it is now in flight. */
  lemma PartialEvents(s: State, q: QueryId)
    requires Valid(s) && q in s.queries
    requires s.chunks[s.queries[q].chunk].current == None
    ensures var r := PartialDone(s, q); var cid := s.queries[q].chunk; var c := s.chunks[cid];
      var cur := r.chunks[cid].current; var target := if cur.Some? then cur.value else q;
      && s.log <= r.log && target in s.queries
      && forall e :: Emitted(s, r)[e] ==
           DrainCount(Satisfied(c.pending, s.queries, c.genLevel), s.queries, cur, cid,
                      s.queries[target].genLevel, target, s.queries[target].shouldRelease, e)
  {
    var cid := s.queries[q].chunk;
    var c := s.chunks[cid];
    assert ChunkRefs(s, cid);
    var sw := Sweep(c.pending, 0, c.genLevel, s.queries);
    var sat := Satisfied(c.pending, s.queries, c.genLevel);
    var r := PartialDone(s, q);
    var cur := r.chunks[cid].current;
    var target := if cur.Some? then cur.value else q;
    PartialLog(s, q);
    var lvl, sr := s.queries[target].genLevel, s.queries[target].shouldRelease;
    DrainCounts(s, r, sw.removed, s.queries, cur, cid, lvl, target, sr);
    SweepPartitions(c.pending, c.genLevel, s.queries);
    DrainCountMultiset(sw.removed, sat, s.queries, cur, cid, lvl, target, sr);
  }

  /** The heightmap branch marks the grid data loaded and no longer
      loading, drops its parked list and no other, and leaves every query
      that was parked on it placed on its chunk: resolved, in flight, or
      queued behind the query in flight. */
  lemma HeightmapCompletion(s: State, gid: GridId)
    requires Valid(s) && gid in s.grids && s.grids[gid].isLoading
    ensures gid in s.pendingQueries
    ensures var r := HeightmapDone(s, gid);
      && r.grids == s.grids[gid := GridData(true, false)]
      && r.pendingQueries == s.pendingQueries - {gid}
      && (forall x | x in s.pendingQueries[gid] :: Placed(r, x))
      && r.finished == s.finished
  {
    assert GridOk(s, gid);
    var t := MarkLoaded(s, gid);
    MarkLoadedOk(s, gid);
    var ps := s.pendingQueries[gid];
    SubmitAllOnLoaded(t, ps, gid);
    SubmitAllPlaces(t, ps, gid);
  }
}
