/** What one merge makes of each object it touches, on any stores: in step or not, with tracking or without. */
module MergedObjects {
  import opened Sources
  import opened Stores
  import opened Merging

  /** What an operation merges: the entities and the relations that its chunks mention, and no other. */
  lemma MergesAre(ext: Extractor, chunks: seq<ChunkId>)
    ensures forall n :: MergeNode(n) in MergesOf(ext, chunks) <==> exists ch :: ch in chunks && n in ext(ch).nodes
    ensures forall e :: MergeEdge(e) in MergesOf(ext, chunks) <==> exists ch :: ch in chunks && e in ext(ch).edges
  {
  }

  /** The chunks with which an object is merged: those of the operation that mention it. */
  lemma MentioningAre(ext: Extractor, chunks: seq<ChunkId>, m: Merge, ch: ChunkId)
    ensures ch in Mentioning(ext, chunks, m) <==> ch in chunks && if m.MergeNode? then m.name in ext(ch).nodes else m.ends in ext(ch).edges
  {
    MentioningElems(ext, chunks, m);
    assert ch in Mentioning(ext, chunks, m) <==> ch in Elems(Mentioning(ext, chunks, m));
  }

  /** What is on record of an object: its tracking row, or without one the list in the graph. */
  ghost predicate OnRecord(s: Store, c: Candidate, list: seq<ChunkId>) {
    if s.Tracked(c) != [] then list == s.tracking[c]
    else if c in s.graph then list == s.graph[c]
    else list == []
  }

  /** The list holds the ids of both, each once, and no order of the first is disturbed. */
  ghost predicate TakesIn(list: seq<ChunkId>, known: seq<ChunkId>, more: set<ChunkId>) {
    && Distinct(list) && Elems(list) == Elems(known) + more
    && (Distinct(known) ==> known <= list)
  }

  /** In the graph and in the vectors the object has the limit of its tracking row. */
  ghost predicate InStep(t: Store, c: Candidate) {
    && c in t.tracking && c in t.graph && c in t.index
    && t.graph[c] == t.index[c] == Limited(t.tracking[c], t.cap, t.fifo)
  }

  ghost predicate Untouched(s: Store, t: Store, c: Candidate) {
    && (c in t.tracking <==> c in s.tracking) && (c in s.tracking ==> t.tracking[c] == s.tracking[c])
    && SameLists(s, t, c)
  }

  ghost predicate SameLists(s: Store, t: Store, c: Candidate) {
    && (c in t.graph <==> c in s.graph) && (c in s.graph ==> t.graph[c] == s.graph[c])
    && (c in t.index <==> c in s.index) && (c in s.index ==> t.index[c] == s.index[c])
  }

  /** Under KEEP an object that is full takes in nothing new. */
  ghost predicate Full(s: Store, known: seq<ChunkId>, ids: seq<ChunkId>) {
    !s.fifo && |known| >= s.cap && forall ch | ch in ids :: ch !in known
  }

  lemma TakesInAll(known: seq<ChunkId>, more: seq<ChunkId>)
    ensures TakesIn(MergeIds(known, more), known, Elems(more))
  {
    MergeIdsElems(known, more);
    AppendNewDistinct([], known);
    AppendNewDistinct(AppendNew([], known), more);
    if Distinct(known) {
      MergeIdsExtends(known, more);
    }
  }

  lemma FullIsSaturated(s: Store, c: Candidate, known: seq<ChunkId>, ids: seq<ChunkId>)
    requires OnRecord(s, c, known)
    ensures known == KnownSources(s, c) && (Full(s, known, ids) <==> Saturated(s, c, ids))
  {
    if Elems(ids) !! Elems(known) {
      forall ch | ch in ids
        ensures ch !in known
      {
        assert ch in Elems(ids);
      }
    }
  }

  /**
   * The object that is merged: tracking takes in the chunks behind what is on record of it, and graph and vectors
   * follow, unless it is full; then only tracking does. A relation without two ends is not merged at all.
   */
  lemma MergedObject(s: Store, m: Merge, ids: seq<ChunkId>, known: seq<ChunkId>)
    requires OnRecord(s, Object(m), known)
    ensures var t, c := Merged(s, m, ids), Object(m);
            if m.MergeEdge? && |m.ends| != 2 then t == s
            else c in t.tracking && TakesIn(t.tracking[c], known, Elems(ids))
                 && if Full(s, known, ids) then SameLists(s, t, c) else InStep(t, c)
  {
    FullIsSaturated(s, Object(m), known, ids);
    TakesInAll(known, ids);
  }

  /**
   * An end of a relation that is merged: one that was in the graph takes in what the graph now lists of the
   * relation, one that was not takes over the relation's tracking row; of a full relation the ends are not touched.
   */
  lemma MergedEnd(s: Store, e: set<Name>, ids: seq<ChunkId>, n: Name, edge: seq<ChunkId>, known: seq<ChunkId>)
    requires |e| == 2 && n in e && OnRecord(s, Relation(e), edge) && OnRecord(s, Entity(n), known)
    ensures var t, c := Merged(s, MergeEdge(e), ids), Entity(n);
            if Full(s, edge, ids) then Untouched(s, t, c)
            else
              && InStep(t, c) && Relation(e) in t.graph
              && if c in s.graph then TakesIn(t.tracking[c], known, Elems(t.graph[Relation(e)]))
                 else t.tracking[c] == t.tracking[Relation(e)]
  {
    FullIsSaturated(s, Relation(e), edge, ids);
    FullIsSaturated(s, Entity(n), known, ids);
    TakesInAll(known, s.Limit(MergeIds(edge, ids)));
  }

  lemma PutElsewhere(s: Store, lists: map<Candidate, seq<ChunkId>>, c: Candidate)
    requires c !in lists
    ensures Untouched(s, Put(s, lists), c)
  {
  }

  /** No other object is touched. */
  lemma NothingElseMerged(s: Store, m: Merge, ids: seq<ChunkId>, c: Candidate)
    requires c != Object(m) && (m.MergeEdge? && c.Entity? ==> c.name !in m.ends)
    ensures Untouched(s, Merged(s, m, ids), c)
  {
    var full := MergeIds(KnownSources(s, Object(m)), ids);
    if m.MergeNode? {
      PutElsewhere(s, map[Object(m) := full], c);
    } else {
      PutElsewhere(s, Ends(s, m.ends, full)[Object(m) := full], c);
    }
  }
}
