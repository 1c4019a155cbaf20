/** Merging extracted entities and relations into the knowledge graph. */
module Merging {
  import opened Sources
  import opened Stores

  /** What extraction finds in one chunk; it is cached, hence a function of the chunk. */
  datatype Extraction = Extraction(nodes: set<Name>, edges: set<set<Name>>)

  type Extractor = ChunkId -> Extraction

  /** The objects one extraction may touch: its entities, its relations, and the ends of its relations. */
  function Touched(x: Extraction): set<Candidate> {
    (set n | n in x.nodes :: Entity(n)) + (set e | e in x.edges :: Relation(e)) + (set e, n | e in x.edges && n in e :: Entity(n))
  }

  /** The candidate superset of `collect_kg_merge_candidates`. */
  function CandidatesOf(ext: Extractor, chunks: seq<ChunkId>): set<Candidate> {
    set ch, c | ch in chunks && c in Touched(ext(ch)) :: c
  }

  datatype Merge = MergeNode(name: Name) | MergeEdge(ends: set<Name>)

  predicate Mentions(ext: Extractor, ch: ChunkId, m: Merge) {
    match m
    case MergeNode(n) => n in ext(ch).nodes
    case MergeEdge(e) => e in ext(ch).edges
  }

  /** The chunks that mention the object, in their order. */
  function Mentioning(ext: Extractor, chunks: seq<ChunkId>, m: Merge): seq<ChunkId> {
    Subtract(chunks, set ch | ch in chunks && !Mentions(ext, ch, m))
  }

  function MergesOf(ext: Extractor, chunks: seq<ChunkId>): set<Merge> {
    (set ch, n | ch in chunks && n in ext(ch).nodes :: MergeNode(n)) + (set ch, e | ch in chunks && e in ext(ch).edges :: MergeEdge(e))
  }

  /** The entity phase, which is drained before the relation phase begins. */
  function NodeMerges(ext: Extractor, chunks: seq<ChunkId>): set<Merge> {
    set m | m in MergesOf(ext, chunks) && m.MergeNode?
  }

  /** Tracking first, the graph's own list when tracking has none. */
  function KnownSources(s: Store, c: Candidate): seq<ChunkId> {
    if s.Tracked(c) != [] then s.Tracked(c) else if c in s.graph then s.graph[c] else []
  }

  /** Under KEEP a full object takes in no new chunk: only its tracking grows. */
  predicate Saturated(s: Store, c: Candidate, ids: seq<ChunkId>) {
    !s.fifo && |KnownSources(s, c)| >= s.cap && Elems(ids) !! Elems(KnownSources(s, c))
  }

  function Put(s: Store, tracked: map<Candidate, seq<ChunkId>>): (t: Store)
    ensures t == s.(tracking := t.tracking, graph := t.graph, index := t.index)
  {
    var limited := map c | c in tracked :: s.Limit(tracked[c]);
    s.(tracking := s.tracking + tracked, graph := s.graph + limited, index := s.index + limited)
  }

  function EndAfter(s: Store, n: Name, full: seq<ChunkId>): seq<ChunkId> {
    if Entity(n) in s.graph then MergeIds(KnownSources(s, Entity(n)), s.Limit(full)) else full
  }

  function Ends(s: Store, e: set<Name>, full: seq<ChunkId>): map<Candidate, seq<ChunkId>> {
    map n | n in e :: Entity(n) := EndAfter(s, n, full)
  }

  function Object(m: Merge): Candidate {
    match m
    case MergeNode(n) => Entity(n)
    case MergeEdge(e) => Relation(e)
  }

  /** One object's merge: its tracking row, its graph list and its vector record move together. */
  function Merged(s: Store, m: Merge, ids: seq<ChunkId>): (t: Store)
    ensures t == s.(tracking := t.tracking, graph := t.graph, index := t.index)
  {
    var c := Object(m);
    var full := MergeIds(KnownSources(s, c), ids);
    if m.MergeEdge? && |m.ends| != 2 then s
    else if Saturated(s, c, ids) then s.(tracking := s.tracking[c := full])
    else if m.MergeNode? then Put(s, map[c := full])
    else Put(s, Ends(s, m.ends, full)[c := full])
  }

  lemma MentioningElems(ext: Extractor, chunks: seq<ChunkId>, m: Merge)
    ensures Elems(Mentioning(ext, chunks, m)) == set ch | ch in chunks && Mentions(ext, ch, m)
  {
    SubtractElems(chunks, set ch | ch in chunks && !Mentions(ext, ch, m));
  }

  /** A merge never leaves the candidate superset, and relation candidates bring their ends. */
  lemma MergesAreCandidates(ext: Extractor, chunks: seq<ChunkId>, m: Merge)
    requires m in MergesOf(ext, chunks)
    ensures Object(m) in CandidatesOf(ext, chunks)
    ensures m.MergeEdge? ==> forall n | n in m.ends :: Entity(n) in CandidatesOf(ext, chunks)
  {
    if m.MergeNode? {
      var ch :| ch in chunks && m.name in ext(ch).nodes;
      assert Entity(m.name) in Touched(ext(ch));
    } else {
      var ch :| ch in chunks && m.ends in ext(ch).edges;
      assert Relation(m.ends) in Touched(ext(ch));
      forall n | n in m.ends
        ensures Entity(n) in CandidatesOf(ext, chunks)
      {
        assert Entity(n) in Touched(ext(ch));
      }
    }
  }

  lemma CandidatesClosed(ext: Extractor, chunks: seq<ChunkId>, e: set<Name>, n: Name)
    requires Relation(e) in CandidatesOf(ext, chunks) && n in e
    ensures Entity(n) in CandidatesOf(ext, chunks)
  {
    var ch :| ch in chunks && Relation(e) in Touched(ext(ch));
    assert Entity(n) in Touched(ext(ch));
  }

  /** Limiting is not disturbed by a merge into a saturated object. */
  lemma SaturatedLimit(existing: seq<ChunkId>, ids: seq<ChunkId>, cap: nat)
    requires |existing| >= cap && Distinct(existing)
    ensures Limited(MergeIds(existing, ids), cap, false) == Limited(existing, cap, false)
  {
    MergeIdsExtends(existing, ids);
    var full := MergeIds(existing, ids);
    assert full[..cap] == existing[..cap];
  }

  ghost predicate ListsDistinct(s: Store) {
    forall c | c in s.tracking :: Distinct(s.tracking[c])
  }

  lemma PutAt(s: Store, tracked: map<Candidate, seq<ChunkId>>, c: Candidate)
    ensures var t := Put(s, tracked);
            if c in tracked then t.Tracked(c) == tracked[c] && c in t.graph && t.graph[c] == s.Limit(tracked[c])
            else t.Tracked(c) == s.Tracked(c) && (c in t.graph <==> c in s.graph) && (c in s.graph ==> t.graph[c] == s.graph[c])
  {
  }

  lemma MergedNotEmpty(a: seq<ChunkId>, ids: seq<ChunkId>)
    requires ids != []
    ensures MergeIds(a, ids) != []
  {
    MergeIdsElems(a, ids);
    assert ids[0] in Elems(MergeIds(a, ids));
  }

  lemma PutAligned(s: Store, tracked: map<Candidate, seq<ChunkId>>)
    requires s.Aligned() && forall c | c in tracked :: tracked[c] != []
    ensures Put(s, tracked).Aligned()
  {
    var t := Put(s, tracked);
    assert t.tracking.Keys == s.tracking.Keys + tracked.Keys;
    assert t.graph.Keys == s.graph.Keys + tracked.Keys;
    assert t.index.Keys == s.index.Keys + tracked.Keys;
  }

  lemma MergeAligned(s: Store, m: Merge, ids: seq<ChunkId>)
    requires s.cap > 0 && s.Aligned() && ids != []
    ensures Merged(s, m, ids).Aligned()
  {
    var x := Object(m);
    var full := MergeIds(KnownSources(s, x), ids);
    MergedNotEmpty(KnownSources(s, x), ids);
    if m.MergeEdge? && |m.ends| != 2 {
    } else if Saturated(s, x, ids) {
      assert x in s.graph;
      assert s.tracking[x := full].Keys == s.tracking.Keys;
    } else if m.MergeNode? {
      PutAligned(s, map[x := full]);
    } else {
      forall n | n in m.ends
        ensures EndAfter(s, n, full) != []
      {
        LimitedElems(full, s.cap, s.fifo);
        MergedNotEmpty(KnownSources(s, Entity(n)), s.Limit(full));
      }
      PutAligned(s, Ends(s, m.ends, full)[x := full]);
    }
  }

  lemma PutSynced(s: Store, tracked: map<Candidate, seq<ChunkId>>)
    requires s.Synced() && forall c | c in tracked :: tracked[c] != []
    ensures Put(s, tracked).Synced()
  {
  }

  lemma PutDistinct(s: Store, tracked: map<Candidate, seq<ChunkId>>)
    requires ListsDistinct(s) && forall c | c in tracked :: Distinct(tracked[c])
    ensures ListsDistinct(Put(s, tracked))
  {
  }

  lemma EndsSound(s: Store, e: set<Name>, full: seq<ChunkId>)
    requires s.cap > 0 && s.Aligned() && ListsDistinct(s) && full != [] && Distinct(full)
    ensures forall c | c in Ends(s, e, full) :: Ends(s, e, full)[c] != [] && Distinct(Ends(s, e, full)[c])
  {
    LimitedElems(full, s.cap, s.fifo);
    var l := s.Limit(full);
    assert l[0] in Elems(l);
    forall n | n in e
      ensures EndAfter(s, n, full) != [] && Distinct(EndAfter(s, n, full))
    {
      if Entity(n) in s.graph {
        MergeIdsElems(KnownSources(s, Entity(n)), l);
        MergeIdsExtends(KnownSources(s, Entity(n)), l);
        assert l[0] in Elems(MergeIds(KnownSources(s, Entity(n)), l));
      }
    }
  }

  /** Merging keeps the lists free of repeats. */
  lemma MergedDistinct(s: Store, m: Merge, ids: seq<ChunkId>)
    requires s.cap > 0 && s.Aligned() && ListsDistinct(s) && ids != []
    ensures ListsDistinct(Merged(s, m, ids))
  {
    var c := Object(m);
    var existing := KnownSources(s, c);
    var full := MergeIds(existing, ids);
    MergedNotEmpty(existing, ids);
    MergeIdsExtends(existing, ids);
    if m.MergeEdge? && |m.ends| != 2 {
    } else if Saturated(s, c, ids) {
    } else if m.MergeNode? {
      PutDistinct(s, map[c := full]);
    } else {
      EndsSound(s, m.ends, full);
      PutDistinct(s, Ends(s, m.ends, full)[c := full]);
    }
  }

  /**
   * What a merge does to one object: nothing, or its graph list is the limited tracking row, or it is the
   * merged object, full under KEEP, and only its tracking has grown.
   */
  lemma MergedAt(s: Store, m: Merge, ids: seq<ChunkId>, c: Candidate)
    ensures var t, x := Merged(s, m, ids), Object(m);
            || (t.Tracked(c) == s.Tracked(c) && (c in t.graph <==> c in s.graph) && (c in s.graph ==> t.graph[c] == s.graph[c]))
            || (c in t.graph && c in t.tracking && t.graph[c] == s.Limit(t.tracking[c]))
            || (c == x && Saturated(s, x, ids) && t.Tracked(c) == MergeIds(KnownSources(s, x), ids) && t.graph == s.graph)
  {
    var x := Object(m);
    var full := MergeIds(KnownSources(s, x), ids);
    if m.MergeEdge? && |m.ends| != 2 {
    } else if Saturated(s, x, ids) {
    } else if m.MergeNode? {
      PutAt(s, map[x := full], c);
    } else {
      PutAt(s, Ends(s, m.ends, full)[x := full], c);
    }
  }

  lemma MergedIndex(s: Store, m: Merge, ids: seq<ChunkId>)
    requires s.index == s.graph
    ensures Merged(s, m, ids).index == Merged(s, m, ids).graph
  {
  }

  /** Merging keeps graph, vectors and tracking in step. */
  lemma MergedSynced(s: Store, m: Merge, ids: seq<ChunkId>)
    requires s.Synced() && ListsDistinct(s) && ids != []
    ensures Merged(s, m, ids).Synced() && ListsDistinct(Merged(s, m, ids))
  {
    var c := Object(m);
    var existing := KnownSources(s, c);
    var full := MergeIds(existing, ids);
    MergeIdsElems(existing, ids);
    MergeIdsExtends(existing, ids);
    assert ids[0] in Elems(full);
    if m.MergeEdge? && |m.ends| != 2 {
    } else if Saturated(s, c, ids) {
      SaturatedLimit(existing, ids, s.cap);
    } else if m.MergeNode? {
      PutSynced(s, map[c := full]);
      PutDistinct(s, map[c := full]);
    } else {
      EndsSound(s, m.ends, full);
      PutSynced(s, Ends(s, m.ends, full)[c := full]);
      PutDistinct(s, Ends(s, m.ends, full)[c := full]);
    }
  }
}
