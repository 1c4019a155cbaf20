/**
 * Runs of one custom-chunk operation, with any number of failures, crashes and resumes: rolling it
 * back restores the stores from before it, and completing it gives what a single success gives.
 */
module PatchRuns {
  import opened Basics
  import opened Sources
  import opened Stores
  import opened Purge
  import opened Merging
  import opened CustomChunks

  // ---------------------------------------------------------------- growth of the source lists

  /** The chunk really ends up in the object's list; a self-loop is extracted but never merged. */
  predicate Contributes(ext: Extractor, ch: ChunkId, c: Candidate) {
    match c
    case Entity(n) => n in ext(ch).nodes || exists e :: e in ext(ch).edges && |e| == 2 && n in e
    case Relation(e) => |e| == 2 && e in ext(ch).edges
  }

  lemma ContributorsAreCandidates(ext: Extractor, entries: seq<ChunkId>, ch: ChunkId, c: Candidate)
    requires ch in entries && Contributes(ext, ch, c)
    ensures c in CandidatesOf(ext, entries)
  {
    match c {
      case Entity(n) =>
        if n !in ext(ch).nodes {
          var e :| e in ext(ch).edges && |e| == 2 && n in e;
        }
        assert c in Touched(ext(ch));
      case Relation(e) =>
        assert c in Touched(ext(ch));
    }
  }

  /** The list was only extended, and only by chunks of the operation that mention the object. */
  ghost predicate Grew(before: seq<ChunkId>, now: seq<ChunkId>, entries: seq<ChunkId>, ext: Extractor, c: Candidate) {
    before <= now && forall x | x in now[|before|..] :: x in entries && Contributes(ext, x, c)
  }

  /** A rollback that stopped has filtered the tracking row already, and the graph still lists what had grown. */
  ghost predicate Halfway(s0: Store, s: Store, entries: seq<ChunkId>, ext: Extractor, c: Candidate)
    requires c in s.graph
  {
    s.Tracked(c) == s0.Tracked(c) && exists list :: Grew(s0.Tracked(c), list, entries, ext, c) && s.graph[c] == s.Limit(list)
  }

  ghost predicate Grown(s0: Store, s: Store, entries: seq<ChunkId>, ext: Extractor) {
    && s.cap == s0.cap && s.fifo == s0.fifo && s.cap > 0
    && s.Aligned() && s.index == s.graph && ListsDistinct(s)
    && (forall c :: Grew(s0.Tracked(c), s.Tracked(c), entries, ext, c))
    && forall c | c in s.graph :: s.graph[c] == s.Limit(s.Tracked(c)) || Halfway(s0, s, entries, ext, c)
  }

  /** An edge's graph sources are sources of both its ends. */
  ghost predicate EdgesBacked(s: Store) {
    forall c, n | c in s.graph && c.Relation? && n in c.ends :: Elems(s.graph[c]) <= Elems(s.Tracked(Entity(n)))
  }

  lemma GrewFurther(before: seq<ChunkId>, mid: seq<ChunkId>, now: seq<ChunkId>, entries: seq<ChunkId>, ext: Extractor, c: Candidate)
    requires Grew(before, mid, entries, ext, c) && Grew(mid, now, entries, ext, c)
    ensures Grew(before, now, entries, ext, c)
  {
    forall x | x in now[|before|..]
      ensures x in entries && Contributes(ext, x, c)
    {
      var i :| |before| <= i < |now| && now[i] == x;
      if i < |mid| {
        assert x == mid[|before|..][i - |before|];
      } else {
        assert x == now[|mid|..][i - |mid|];
      }
    }
  }

  lemma GrewBy(list: seq<ChunkId>, ids: seq<ChunkId>, entries: seq<ChunkId>, ext: Extractor, c: Candidate)
    requires Distinct(list)
    requires forall x | x in ids :: x in list || (x in entries && Contributes(ext, x, c))
    ensures Grew(list, MergeIds(list, ids), entries, ext, c)
  {
    MergeIdsExtends(list, ids);
    AppendNewTail(list, ids);
  }

  lemma MentioningContributes(ext: Extractor, entries: seq<ChunkId>, m: Merge, x: ChunkId)
    requires x in Mentioning(ext, entries, m) && (m.MergeEdge? ==> |m.ends| == 2)
    ensures x in entries && Contributes(ext, x, Object(m))
    ensures m.MergeEdge? ==> forall n | n in m.ends :: Contributes(ext, x, Entity(n))
  {
    MentioningElems(ext, entries, m);
    assert x in Elems(Mentioning(ext, entries, m));
    if m.MergeEdge? {
      assert m.ends in ext(x).edges;
    }
  }

  lemma ObjectGrows(s0: Store, s: Store, m: Merge, entries: seq<ChunkId>, ext: Extractor)
    requires Grown(s0, s, entries, ext) && (m.MergeEdge? ==> |m.ends| == 2)
    ensures var full := MergeIds(KnownSources(s, Object(m)), Mentioning(ext, entries, m));
            && Grew(s.Tracked(Object(m)), full, entries, ext, Object(m))
            && Grew(s0.Tracked(Object(m)), full, entries, ext, Object(m))
  {
    var c, ids := Object(m), Mentioning(ext, entries, m);
    forall x | x in ids
      ensures x in entries && Contributes(ext, x, c)
    {
      MentioningContributes(ext, entries, m, x);
    }
    GrewBy(s.Tracked(c), ids, entries, ext, c);
    GrewFurther(s0.Tracked(c), s.Tracked(c), MergeIds(s.Tracked(c), ids), entries, ext, c);
  }

  /** What an edge passes on to its ends is either already theirs or new chunks that mention the edge. */
  lemma EndGrows(s0: Store, s: Store, e: set<Name>, n: Name, full: seq<ChunkId>, entries: seq<ChunkId>, ext: Extractor)
    requires s0.Synced() && s0.EndpointsExist() && EdgesBacked(s0)
    requires Grown(s0, s, entries, ext) && n in e && |e| == 2
    requires Grew(s0.Tracked(Relation(e)), full, entries, ext, Relation(e))
    ensures Grew(s.Tracked(Entity(n)), EndAfter(s, n, full), entries, ext, Entity(n))
  {
    var r, v := Relation(e), Entity(n);
    var base := s0.Tracked(r);
    assert full == base + full[|base|..];
    forall x | x in full[|base|..]
      ensures x in entries && Contributes(ext, x, v)
    {
      assert Contributes(ext, x, r);
      assert e in ext(x).edges;
    }
    if v in s.graph {
      var l := s.Limit(full);
      LimitedExtension(base, full[|base|..], s.cap, s.fifo);
      forall x | x in l
        ensures x in s.Tracked(v) || (x in entries && Contributes(ext, x, v))
      {
        assert x in Elems(l);
        if x !in full[|base|..] {
          assert x in Limited(base, s.cap, s.fifo);
          LimitedElems(base, s.cap, s.fifo);
          assert base != [] && r in s0.graph;
          assert x in Elems(s0.graph[r]);
          assert x in Elems(s0.Tracked(v));
          assert Grew(s0.Tracked(v), s.Tracked(v), entries, ext, v);
          assert x in s0.Tracked(v);
        }
      }
      GrewBy(s.Tracked(v), l, entries, ext, v);
    } else {
      assert s.Tracked(v) == [];
      assert Grew(s0.Tracked(v), s.Tracked(v), entries, ext, v);
      assert s0.Tracked(v) == [];
      assert v !in s0.graph && r !in s0.graph;
      assert base == [];
      assert full[|base|..] == full;
    }
  }

  lemma PutTracked(s: Store, lists: map<Candidate, seq<ChunkId>>, c: Candidate)
    ensures Put(s, lists).Tracked(c) == if c in lists then lists[c] else s.Tracked(c)
  {
  }

  lemma MergeTracked(s: Store, m: Merge, ids: seq<ChunkId>, c: Candidate)
    ensures var full, t := MergeIds(KnownSources(s, Object(m)), ids), Merged(s, m, ids);
            || t.Tracked(c) == s.Tracked(c)
            || (c == Object(m) && t.Tracked(c) == full && (m.MergeEdge? ==> |m.ends| == 2))
            || (m.MergeEdge? && |m.ends| == 2 && c.Entity? && c.name in m.ends && t.Tracked(c) == EndAfter(s, c.name, full))
  {
    var x := Object(m);
    var full := MergeIds(KnownSources(s, x), ids);
    if m.MergeEdge? && |m.ends| != 2 {
    } else if Saturated(s, x, ids) {
      assert Merged(s, m, ids).tracking == s.tracking[x := full];
    } else if m.MergeNode? {
      PutTracked(s, map[x := full], c);
    } else {
      PutTracked(s, Ends(s, m.ends, full)[x := full], c);
    }
  }

  lemma SaturatedHalfway(s0: Store, s: Store, m: Merge, entries: seq<ChunkId>, ext: Extractor)
    requires Grown(s0, s, entries, ext) && Saturated(s, Object(m), Mentioning(ext, entries, m)) && Object(m) in s.graph
    ensures s.graph[Object(m)] == s.Limit(MergeIds(KnownSources(s, Object(m)), Mentioning(ext, entries, m)))
  {
    var c, ids := Object(m), Mentioning(ext, entries, m);
    var known := KnownSources(s, c);
    SaturatedLimit(known, ids, s.cap);
    forall list | s.Tracked(c) == s0.Tracked(c) && Grew(s0.Tracked(c), list, entries, ext, c)
      ensures s.Limit(list) == s.Limit(known)
    {
      assert list[..s.cap] == known[..s.cap];
    }
  }

  lemma MergeKeepsLists(s0: Store, s: Store, m: Merge, entries: seq<ChunkId>, ext: Extractor, c: Candidate)
    requires Grown(s0, s, entries, ext) && Merged(s, m, Mentioning(ext, entries, m)).Aligned()
    requires c in Merged(s, m, Mentioning(ext, entries, m)).graph
    ensures var t := Merged(s, m, Mentioning(ext, entries, m)); t.graph[c] == t.Limit(t.Tracked(c)) || Halfway(s0, t, entries, ext, c)
  {
    var ids := Mentioning(ext, entries, m);
    var t := Merged(s, m, ids);
    MergedAt(s, m, ids, c);
    if c == Object(m) && Saturated(s, c, ids) && t.graph == s.graph {
      SaturatedHalfway(s0, s, m, entries, ext);
    }
  }

  /** A merge step of the operation only grows the source lists. */
  lemma MergeGrows(s0: Store, s: Store, m: Merge, entries: seq<ChunkId>, ext: Extractor)
    requires s0.Synced() && s0.EndpointsExist() && EdgesBacked(s0)
    requires Grown(s0, s, entries, ext) && m in MergesOf(ext, entries)
    ensures Grown(s0, Merged(s, m, Mentioning(ext, entries, m)), entries, ext)
    ensures forall c :: s.Tracked(c) <= Merged(s, m, Mentioning(ext, entries, m)).Tracked(c)
  {
    var ids := Mentioning(ext, entries, m);
    var t := Merged(s, m, ids);
    MentionedSomewhere(ext, entries, m);
    MergeAligned(s, m, ids);
    MergedDistinct(s, m, ids);
    MergedIndex(s, m, ids);
    forall c
      ensures Grew(s0.Tracked(c), t.Tracked(c), entries, ext, c) && s.Tracked(c) <= t.Tracked(c)
    {
      TrackedGrowth(s0, s, m, entries, ext, c);
    }
    forall c | c in t.graph
      ensures t.graph[c] == t.Limit(t.Tracked(c)) || Halfway(s0, t, entries, ext, c)
    {
      MergeKeepsLists(s0, s, m, entries, ext, c);
    }
  }

  lemma TrackedGrowth(s0: Store, s: Store, m: Merge, entries: seq<ChunkId>, ext: Extractor, c: Candidate)
    requires s0.Synced() && s0.EndpointsExist() && EdgesBacked(s0)
    requires Grown(s0, s, entries, ext) && m in MergesOf(ext, entries)
    ensures var t := Merged(s, m, Mentioning(ext, entries, m));
            Grew(s0.Tracked(c), t.Tracked(c), entries, ext, c) && s.Tracked(c) <= t.Tracked(c)
  {
    var ids := Mentioning(ext, entries, m);
    var full := MergeIds(KnownSources(s, Object(m)), ids);
    MergeTracked(s, m, ids, c);
    assert Grew(s0.Tracked(c), s.Tracked(c), entries, ext, c);
    if m.MergeEdge? ==> |m.ends| == 2 {
      ObjectGrows(s0, s, m, entries, ext);
      if m.MergeEdge? && c.Entity? && c.name in m.ends {
        EndGrows(s0, s, m.ends, c.name, full, entries, ext);
        GrewFurther(s0.Tracked(c), s.Tracked(c), EndAfter(s, c.name, full), entries, ext, c);
      }
    }
  }

  lemma MentionedSomewhere(ext: Extractor, entries: seq<ChunkId>, m: Merge)
    requires m in MergesOf(ext, entries)
    ensures Mentioning(ext, entries, m) != []
  {
    MentioningElems(ext, entries, m);
    if m.MergeNode? {
      var ch :| ch in entries && m.name in ext(ch).nodes;
      assert ch in Elems(Mentioning(ext, entries, m));
    } else {
      var ch :| ch in entries && m.ends in ext(ch).edges;
      assert ch in Elems(Mentioning(ext, entries, m));
    }
  }

  // ---------------------------------------------------------------- undoing the growth

  ghost predicate NewIds(s0: Store, entries: seq<ChunkId>) {
    && s0.text !! Elems(entries)
    && forall c | c in s0.tracking :: Elems(s0.tracking[c]) !! Elems(entries)
  }

  lemma SubtractGrowth(s0: Store, s: Store, entries: seq<ChunkId>, ext: Extractor, c: Candidate)
    requires Grown(s0, s, entries, ext) && NewIds(s0, entries)
    ensures Subtract(s.Tracked(c), Elems(entries)) == s0.Tracked(c)
  {
    var before, now, gone := s0.Tracked(c), s.Tracked(c), Elems(entries);
    assert Grew(before, now, entries, ext, c);
    assert now == before + now[|before|..];
    SubtractConcat(before, now[|before|..], gone);
    SubtractNothing(before, gone);
    SubtractAll(now[|before|..], gone);
  }

  lemma GrownOutsideMeansCandidate(s0: Store, s: Store, entries: seq<ChunkId>, ext: Extractor, c: Candidate)
    requires NewIds(s0, entries) && Grown(s0, s, entries, ext)
    requires c in s.tracking && !(Elems(s.tracking[c]) !! Elems(entries))
    ensures c in CandidatesOf(ext, entries) && s.Tracked(c) != s0.Tracked(c)
  {
    var before, now := s0.Tracked(c), s.Tracked(c);
    assert Grew(before, now, entries, ext, c);
    var x :| x in now && x in entries;
    assert x in Elems(entries);
    forall k | 0 <= k < |before|
      ensures now[k] != x
    {
      assert before[k] in Elems(before);
    }
    var i :| 0 <= i < |now| && now[i] == x;
    assert x == now[|before|..][i - |before|];
    ContributorsAreCandidates(ext, entries, x, c);
  }

  // ---------------------------------------------------------------- the shape of a run

  /** One operation: the stores before it, and what its first call decided. */
  datatype Work = Work(before: Store, doc: DocId, mode: Mode, op: seq<ChunkId>, entries: seq<ChunkId>)
  {
    function Base(): seq<ChunkId> {
      if doc in before.rows then before.rows[doc].chunks else []
    }

    function Cands(ext: Extractor): set<Candidate> {
      CandidatesOf(ext, entries)
    }

    function FinalAnchors(ext: Extractor): map<DocId, set<Candidate>> {
      before.anchors[doc := if mode.Patch? then before.AnchorsOf(doc) + Cands(ext) else Cands(ext)]
    }

    function FinalBodies(): set<DocId> {
      if mode.Patch? then before.bodies else before.bodies + {doc}
    }

    function FinalRow(): Row {
      Row(Processed, if mode.Patch? then AppendNew([], Base() + entries) else entries, None)
    }

    /** What the stores must satisfy when the operation is first called. */
    ghost predicate Ready() {
      && before.Synced() && ListsDistinct(before) && before.EndpointsExist() && EdgesBacked(before)
      && entries != [] && NewIds(before, entries)
      && if mode.Patch? then
           && doc in before.rows && before.rows[doc].status == Processed && before.rows[doc].journal.None?
           && Elems(Base()) <= before.text
           && entries == StillPending(before, before.rows[doc], Patch, op)
         else
           && doc !in before.rows && doc !in before.bodies && doc !in before.anchors && entries == op
    }

    /** An edge's whole list once the operation has merged it. */
    function Full(e: set<Name>, ext: Extractor): seq<ChunkId> {
      MergeIds(before.Tracked(Relation(e)), Mentioning(ext, entries, MergeEdge(e)))
    }

    /** What a merge hands to an entity that it creates: an edge its whole list. */
    function Given(m: Merge, ext: Extractor): set<ChunkId> {
      if m.MergeEdge? then Elems(Full(m.ends, ext)) else Elems(Mentioning(ext, entries, m))
    }

    /** What a merge hands to an entity that exists: an edge its limited list. */
    function Passed(m: Merge, ext: Extractor): set<ChunkId> {
      if m.MergeEdge? then Elems(before.Limit(Full(m.ends, ext))) else Elems(Mentioning(ext, entries, m))
    }

    /** The sources of an entity that are the same in every order of the merges. */
    function Sure(n: Name, ext: Extractor): set<ChunkId> {
      Elems(before.Tracked(Entity(n))) + set m, x | m in MergesOf(ext, entries) && Touches(m, n) && x in Passed(m, ext) :: x
    }
  }

  /** The merge writes the entity's lists. */
  predicate Touches(m: Merge, n: Name) {
    m == MergeNode(n) || (m.MergeEdge? && |m.ends| == 2 && n in m.ends)
  }

  /** The merge may create the entity: one that a chunk extracts by itself is there before the first relation is merged. */
  predicate Creates(w: Work, m: Merge, n: Name, ext: Extractor) {
    m in MergesOf(ext, w.entries) && Touches(m, n) && (m.MergeEdge? ==> MergeNode(n) !in MergesOf(ext, w.entries))
  }

  /** The entities extracted by themselves are there. */
  ghost predicate NodesThere(w: Work, s: Store, ext: Extractor) {
    forall n | MergeNode(n) in MergesOf(ext, w.entries) :: Entity(n) in s.graph
  }

  ghost predicate InTurn(w: Work, s: Store, m: Merge, ext: Extractor) {
    m in MergesOf(ext, w.entries) && (m.MergeEdge? ==> NodesThere(w, s, ext))
  }

  /** The document contributes to the object through its committed chunks. */
  predicate Owns(w: Work, c: Candidate) {
    !(Elems(w.before.Tracked(c)) !! Elems(w.Base()))
  }

  /** Between the first call and the commit the document's anchors may have gained and lost only candidates. */
  ghost predicate AnchorsBetween(w: Work, s: Store, ext: Extractor) {
    && s.anchors - {w.doc} == w.before.anchors - {w.doc}
    && (w.mode.Patch? ==>
          && (w.doc in w.before.anchors ==> w.doc in s.anchors)
          && s.AnchorsOf(w.doc) <= w.before.AnchorsOf(w.doc) + w.Cands(ext)
          && forall c | c in w.before.AnchorsOf(w.doc) :: c in s.AnchorsOf(w.doc) || (c in w.Cands(ext) && !Owns(w, c)))
    && (w.mode.Create? && w.doc in s.anchors ==> s.anchors[w.doc] == w.Cands(ext))
  }

  /** The entity's list, however the merges are ordered: an entity that is new has been created by one that may. */
  ghost predicate NodeList(w: Work, s: Store, n: Name, ext: Extractor) {
    if Entity(n) in w.before.graph then Elems(s.Tracked(Entity(n))) <= w.Sure(n, ext)
    else exists m :: CreatedBy(w, s, n, m, ext)
  }

  ghost predicate CreatedBy(w: Work, s: Store, n: Name, m: Merge, ext: Extractor) {
    && Creates(w, m, n, ext)
    && w.Given(m, ext) <= Elems(s.Tracked(Entity(n))) <= w.Sure(n, ext) + w.Given(m, ext)
  }

  ghost predicate EdgeList(w: Work, s: Store, e: set<Name>, ext: Extractor) {
    s.Tracked(Relation(e)) == w.before.Tracked(Relation(e)) || s.Tracked(Relation(e)) == w.Full(e, ext)
  }

  ghost predicate ListsKnown(w: Work, s: Store, ext: Extractor) {
    && (forall e :: EdgeList(w, s, e, ext))
    && forall n | Entity(n) in s.graph :: NodeList(w, s, n, ext)
  }

  ghost predicate Data(w: Work, s: Store, ext: Extractor) {
    && Grown(w.before, s, w.entries, ext)
    && w.before.text <= s.text <= w.before.text + Elems(w.entries)
    && s.rows - {w.doc} == w.before.rows - {w.doc}
    && AnchorsBetween(w, s, ext)
    && ListsKnown(w, s, ext)
    && (s.bodies == w.before.bodies || s.bodies == w.FinalBodies())
  }

  ghost predicate Untouched(w: Work, s: Store) {
    s.tracking == w.before.tracking && s.graph == w.before.graph && s.index == w.before.index && s.anchors == w.before.anchors
  }

  /** The journal stands, over exactly the base chunk list, and names everything that was touched. */
  ghost predicate Journaled(w: Work, s: Store, cands: set<Candidate>, ext: Extractor) {
    && w.doc in s.rows && s.rows[w.doc].chunks == w.Base() && s.rows[w.doc].journal.Some?
    && (var j := s.rows[w.doc].journal.value;
        j.op == w.op && j.mode == w.mode && j.chunks == w.entries && j.cands == cands)
    && (cands == w.Cands(ext) || (cands == {} && Untouched(w, s)))
  }

  /** The merge has been applied, and what it hands on has reached both ends of an edge. */
  ghost predicate Absorbed(w: Work, s: Store, m: Merge, ext: Extractor) {
    (m.MergeEdge? ==> |m.ends| == 2) ==>
      && Elems(Mentioning(ext, w.entries, m)) <= Elems(s.Tracked(Object(m)))
      && (m.MergeEdge? ==> forall n | n in m.ends :: w.Passed(m, ext) <= Elems(s.Tracked(Entity(n))))
  }

  ghost predicate Finished(w: Work, s: Store, ext: Extractor) {
    && w.doc in s.rows && s.rows[w.doc] == w.FinalRow()
    && s.anchors == w.FinalAnchors(ext) && s.bodies == w.FinalBodies()
    && s.text == w.before.text + Elems(w.entries)
    && forall m | m in MergesOf(ext, w.entries) :: Absorbed(w, s, m, ext)
  }

  ghost predicate Running(w: Work, s: Store, o: Op, ext: Extractor) {
    && o.doc == w.doc && o.mode == w.mode && o.op == w.op && o.entries == w.entries && o.base == w.Base()
    && (o.pc.AtCommit? || Journaled(w, s, o.cands, ext))
    && (o.pc.AtJournal? || (Elems(w.entries) <= s.text && s.bodies == w.FinalBodies()))
    && (o.pc.AtJournal? || o.pc.AtChunks? || o.cands == w.Cands(ext))
    && (o.pc.AtJournal? || o.pc.AtChunks? || o.pc.AtCandidates? ==> o.done == {})
    && (o.pc.AtMerge? && w.mode.Create? ==> s.anchors == w.FinalAnchors(ext))
    && (forall m | m in o.done :: Absorbed(w, s, m, ext))
    && (o.pc.AtAnchors? ==> s.anchors == w.FinalAnchors(ext) && o.done == MergesOf(ext, w.entries))
    && (o.pc.AtCommit? ==> Finished(w, s, ext))
  }

  /** What every state of the operation's run satisfies. */
  ghost predicate Shape(w: Work, sys: Sys, ext: Extractor) {
    && Data(w, sys.store, ext)
    && match sys.running
       case Some(o) => Running(w, sys.store, o, ext)
       case None =>
         || Finished(w, sys.store, ext)
         || (sys.store.JournalOf(w.doc).Some? && Journaled(w, sys.store, sys.store.JournalOf(w.doc).value.cands, ext))
  }

  /** The rollback stops while the journal still stands. */
  predicate StopsHalfway(mode: Mode, k: nat) {
    k <= STAGES || (mode.Patch? && k < ROLLBACK_STAGES)
  }

  /** Steps of the operation itself: its own call again, its own stages, failures, crashes, and rollbacks that do not get to their end. */
  predicate Own(w: Work, a: Action) {
    match a
    case Call(d, texts) => d == w.doc && Entries(d, texts) == w.op
    case RollBack(d, k) => d == w.doc && StopsHalfway(w.mode, k)
    case _ => true
  }

  lemma GrownFromItself(s: Store, entries: seq<ChunkId>, ext: Extractor)
    requires s.Synced() && ListsDistinct(s)
    ensures Grown(s, s, entries, ext)
  {
  }

  /** The resume finds the same pending chunks that the first call found. */
  lemma PendingAgain(w: Work, s: Store, ext: Extractor)
    requires w.Ready() && Data(w, s, ext) && w.doc in s.rows && s.rows[w.doc].chunks == w.Base()
    ensures StillPending(s, s.rows[w.doc], w.mode, w.op) == w.entries
  {
    if w.mode.Patch? {
      assert CommittedTexts(s, s.rows[w.doc]) == CommittedTexts(w.before, w.before.rows[w.doc]) by {
        forall ch | ch in w.Base()
          ensures ch in w.before.text && ch in s.text
        {
          assert ch in Elems(w.Base());
        }
      }
    }
  }

  lemma FirstCall(w: Work, texts: seq<string>, ext: Extractor)
    requires w.Ready() && Entries(w.doc, texts) == w.op
    ensures var sys := CallStep(Sys(w.before, None), w.doc, texts);
            sys.running.Some? && Shape(w, sys, ext)
  {
    var sys := CallStep(Sys(w.before, None), w.doc, texts);
    GrownFromItself(w.before, w.entries, ext);
    assert ListsKnown(w, sys.store, ext);
    assert sys.store.rows - {w.doc} == w.before.rows - {w.doc};
  }

  lemma CallAgain(w: Work, sys: Sys, texts: seq<string>, ext: Extractor)
    requires w.Ready() && Shape(w, sys, ext) && sys.running.None? && Entries(w.doc, texts) == w.op
    ensures Shape(w, CallStep(sys, w.doc, texts), ext)
    ensures Finished(w, sys.store, ext) ==> CallStep(sys, w.doc, texts) == sys
  {
    var s := sys.store;
    if Finished(w, s, ext) {
      var row := s.rows[w.doc];
      assert StillPending(s, row, Patch, w.op) == [] by {
        FinalRowCovers(w, s, ext);
      }
    } else {
      PendingAgain(w, s, ext);
      SameListsGrown(w, s, CallStep(sys, w.doc, texts).store, ext);
      SameListsKnown(w, s, CallStep(sys, w.doc, texts).store, ext);
      assert CallStep(sys, w.doc, texts).store.rows - {w.doc} == s.rows - {w.doc};
    }
  }

  lemma FinalRowCovers(w: Work, s: Store, ext: Extractor)
    requires w.Ready() && Finished(w, s, ext)
    ensures StillPending(s, s.rows[w.doc], Patch, w.op) == []
  {
    var row := s.rows[w.doc];
    AppendNewElems([], w.Base() + w.entries);
    assert Elems(w.Base() + w.entries) == Elems(w.Base()) + Elems(w.entries);
    forall ch | ch in w.op
      ensures ch.text in CommittedTexts(s, row)
    {
      if w.mode.Patch? {
        UnseenElems(w.op, CommittedTexts(w.before, w.before.rows[w.doc]));
        if ch in Elems(w.entries) {
          assert ch in Elems(row.chunks) && ch in s.text;
        } else {
          var b :| b in w.Base() && b in w.before.text && b.text == ch.text;
          assert b in Elems(w.Base());
          assert b in Elems(row.chunks) && b in s.text;
        }
      } else {
        assert ch in Elems(w.entries);
      }
    }
    SubtractAll(w.op, set ch | ch in w.op && ch.text in CommittedTexts(s, row));
  }

  lemma AbsorbedLater(w: Work, s: Store, t: Store, m: Merge, ext: Extractor)
    requires Absorbed(w, s, m, ext) && forall c :: s.Tracked(c) <= t.Tracked(c)
    ensures Absorbed(w, t, m, ext)
  {
    if m.MergeEdge? ==> |m.ends| == 2 {
      PrefixElems(s.Tracked(Object(m)), t.Tracked(Object(m)));
      if m.MergeEdge? {
        forall n | n in m.ends
          ensures Elems(s.Tracked(Entity(n))) <= Elems(t.Tracked(Entity(n)))
        {
          PrefixElems(s.Tracked(Entity(n)), t.Tracked(Entity(n)));
        }
      }
    }
  }

  lemma PrefixElems(a: seq<ChunkId>, b: seq<ChunkId>)
    requires a <= b
    ensures Elems(a) <= Elems(b)
  {
    forall x | x in a
      ensures x in b
    {
      var i :| 0 <= i < |a| && a[i] == x;
      assert b[i] == x;
    }
  }

  lemma {:induction false} NothingNew(acc: seq<ChunkId>, ids: seq<ChunkId>)
    requires Elems(ids) <= Elems(acc)
    ensures AppendNew(acc, ids) == acc
    decreases |ids|
  {
    if ids != [] {
      assert ids[0] in Elems(ids);
      assert Elems(ids[1..]) <= Elems(ids);
      NothingNew(acc, ids[1..]);
    }
  }

  /** Merging the edge again, at any time of the run, gives the same list. */
  lemma EdgeFull(w: Work, s: Store, e: set<Name>, ext: Extractor)
    requires Grown(w.before, s, w.entries, ext) && ListsDistinct(w.before) && EdgeList(w, s, e, ext)
    ensures KnownSources(s, Relation(e)) == s.Tracked(Relation(e))
    ensures MergeIds(KnownSources(s, Relation(e)), Mentioning(ext, w.entries, MergeEdge(e))) == w.Full(e, ext)
  {
    var r, ids := Relation(e), Mentioning(ext, w.entries, MergeEdge(e));
    var full := w.Full(e, ext);
    MergeIdsExtends(w.before.Tracked(r), ids);
    MergeIdsElems(w.before.Tracked(r), ids);
    if s.Tracked(r) == full {
      MergeIdsExtends(full, ids);
      NothingNew(full, ids);
    }
  }

  /** A full edge hands on nothing new: its limited list has reached both ends before. */
  lemma SaturatedEdge(w: Work, s: Store, e: set<Name>, ext: Extractor)
    requires w.Ready() && Grown(w.before, s, w.entries, ext) && EdgeList(w, s, e, ext) && MergeEdge(e) in MergesOf(ext, w.entries)
    requires Saturated(s, Relation(e), Mentioning(ext, w.entries, MergeEdge(e)))
    ensures forall n | n in e :: Entity(n) in w.before.graph && w.Passed(MergeEdge(e), ext) <= Elems(w.before.Tracked(Entity(n)))
  {
    var r, ids := Relation(e), Mentioning(ext, w.entries, MergeEdge(e));
    var was := w.before.Tracked(r);
    EdgeFull(w, s, e, ext);
    MergeIdsElems(was, ids);
    MentionedSomewhere(ext, w.entries, MergeEdge(e));
    assert ids[0] in Elems(ids);
    assert s.Tracked(r) == was;
    SaturatedLimit(was, ids, s.cap);
    assert r in w.before.graph && w.before.graph[r] == w.before.Limit(was);
  }

  lemma MergedObjectList(s: Store, m: Merge, ids: seq<ChunkId>)
    requires m.MergeEdge? ==> |m.ends| == 2
    ensures Merged(s, m, ids).Tracked(Object(m)) == MergeIds(KnownSources(s, Object(m)), ids)
  {
  }

  lemma MergedEndList(s: Store, m: Merge, ids: seq<ChunkId>, n: Name)
    requires m.MergeEdge? && |m.ends| == 2 && n in m.ends && !Saturated(s, Object(m), ids)
    ensures Merged(s, m, ids).Tracked(Entity(n)) == EndAfter(s, n, MergeIds(KnownSources(s, Object(m)), ids))
  {
  }

  lemma MergeAbsorbs(w: Work, s: Store, m: Merge, ext: Extractor)
    requires w.Ready() && Data(w, s, ext) && m in MergesOf(ext, w.entries)
    ensures Absorbed(w, Merged(s, m, Mentioning(ext, w.entries, m)), m, ext)
  {
    var ids := Mentioning(ext, w.entries, m);
    if m.MergeEdge? ==> |m.ends| == 2 {
      MergeIdsElems(KnownSources(s, Object(m)), ids);
      MergedObjectList(s, m, ids);
      if m.MergeEdge? {
        forall n | n in m.ends
          ensures w.Passed(m, ext) <= Elems(Merged(s, m, ids).Tracked(Entity(n)))
        {
          EndAbsorbs(w, s, m, n, ext);
        }
      }
    }
  }

  lemma EndAbsorbs(w: Work, s: Store, m: Merge, n: Name, ext: Extractor)
    requires w.Ready() && Data(w, s, ext) && m in MergesOf(ext, w.entries) && m.MergeEdge? && |m.ends| == 2 && n in m.ends
    ensures w.Passed(m, ext) <= Elems(Merged(s, m, Mentioning(ext, w.entries, m)).Tracked(Entity(n)))
  {
    var ids, v := Mentioning(ext, w.entries, m), Entity(n);
    var full := w.Full(m.ends, ext);
    EdgeFull(w, s, m.ends, ext);
    if Saturated(s, Object(m), ids) {
      SaturatedEdge(w, s, m.ends, ext);
      assert Grew(w.before.Tracked(v), s.Tracked(v), w.entries, ext, v);
      PrefixElems(w.before.Tracked(v), s.Tracked(v));
      MergeTracked(s, m, ids, v);
    } else {
      MergedEndList(s, m, ids, n);
      LimitedElems(full, s.cap, s.fifo);
      MergeIdsElems(KnownSources(s, v), s.Limit(full));
    }
  }

  // ---------------------------------------------------------------- the lists of a run

  lemma SureHas(w: Work, m: Merge, n: Name, ext: Extractor)
    requires m in MergesOf(ext, w.entries) && Touches(m, n)
    ensures w.Passed(m, ext) <= w.Sure(n, ext)
  {
  }

  /** What a merge does to an entity that it touches. */
  lemma TouchedNode(w: Work, s: Store, m: Merge, n: Name, ext: Extractor)
    requires w.Ready() && Data(w, s, ext) && m in MergesOf(ext, w.entries) && Touches(m, n)
    ensures var t, v := Merged(s, m, Mentioning(ext, w.entries, m)), Entity(n);
            && (v in s.graph ==> Elems(s.Tracked(v)) <= Elems(t.Tracked(v)) <= Elems(s.Tracked(v)) + w.Passed(m, ext))
            && (v !in s.graph ==> Elems(t.Tracked(v)) == w.Given(m, ext))
  {
    var ids, v := Mentioning(ext, w.entries, m), Entity(n);
    if m.MergeNode? {
      MergedObjectList(s, m, ids);
      MergeIdsElems(KnownSources(s, v), ids);
    } else {
      EdgeFull(w, s, m.ends, ext);
      if Saturated(s, Object(m), ids) {
        SaturatedEdge(w, s, m.ends, ext);
        assert Grew(w.before.Tracked(v), s.Tracked(v), w.entries, ext, v);
        MergeTracked(s, m, ids, v);
      } else {
        MergedEndList(s, m, ids, n);
        MergeIdsElems(KnownSources(s, v), s.Limit(w.Full(m.ends, ext)));
      }
    }
  }

  lemma UntouchedNode(s: Store, m: Merge, ids: seq<ChunkId>, n: Name)
    requires !Touches(m, n)
    ensures Merged(s, m, ids).Tracked(Entity(n)) == s.Tracked(Entity(n))
    ensures Entity(n) in Merged(s, m, ids).graph <==> Entity(n) in s.graph
  {
    MergeTracked(s, m, ids, Entity(n));
  }

  /** Who created an entity is not changed by later merges. */
  lemma CreatorStays(w: Work, s: Store, m: Merge, n: Name, first: Merge, ext: Extractor)
    requires w.Ready() && Data(w, s, ext) && m in MergesOf(ext, w.entries)
    requires Entity(n) in s.graph && CreatedBy(w, s, n, first, ext)
    ensures CreatedBy(w, Merged(s, m, Mentioning(ext, w.entries, m)), n, first, ext)
  {
    if Touches(m, n) {
      TouchedNode(w, s, m, n, ext);
      SureHas(w, m, n, ext);
    } else {
      UntouchedNode(s, m, Mentioning(ext, w.entries, m), n);
    }
  }

  lemma MergeKeepsNode(w: Work, s: Store, m: Merge, n: Name, ext: Extractor)
    requires w.Ready() && Data(w, s, ext) && InTurn(w, s, m, ext)
    requires Entity(n) in Merged(s, m, Mentioning(ext, w.entries, m)).graph
    ensures NodeList(w, Merged(s, m, Mentioning(ext, w.entries, m)), n, ext)
  {
    var ids, v := Mentioning(ext, w.entries, m), Entity(n);
    var t := Merged(s, m, ids);
    assert Grew(w.before.Tracked(v), s.Tracked(v), w.entries, ext, v);
    assert v in w.before.graph ==> v in s.graph;
    if v in s.graph {
      assert NodeList(w, s, n, ext);
      if v in w.before.graph {
        if Touches(m, n) {
          TouchedNode(w, s, m, n, ext);
          SureHas(w, m, n, ext);
        } else {
          UntouchedNode(s, m, ids, n);
        }
      } else {
        var first :| CreatedBy(w, s, n, first, ext);
        CreatorStays(w, s, m, n, first, ext);
      }
    } else {
      if !Touches(m, n) {
        UntouchedNode(s, m, ids, n);
      }
      TouchedNode(w, s, m, n, ext);
      assert CreatedBy(w, t, n, m, ext);
    }
  }

  lemma MergeKeepsEdge(w: Work, s: Store, m: Merge, e: set<Name>, ext: Extractor)
    requires w.Ready() && Data(w, s, ext) && m in MergesOf(ext, w.entries)
    ensures EdgeList(w, Merged(s, m, Mentioning(ext, w.entries, m)), e, ext)
  {
    assert EdgeList(w, s, e, ext);
    MergeTracked(s, m, Mentioning(ext, w.entries, m), Relation(e));
    EdgeFull(w, s, e, ext);
  }

  lemma MergeKeepsData(w: Work, s: Store, m: Merge, ext: Extractor)
    requires w.Ready() && Data(w, s, ext) && InTurn(w, s, m, ext)
    ensures Data(w, Merged(s, m, Mentioning(ext, w.entries, m)), ext)
  {
    var t := Merged(s, m, Mentioning(ext, w.entries, m));
    MergedLeavesRest(s, m, Mentioning(ext, w.entries, m));
    MergeGrows(w.before, s, m, w.entries, ext);
    forall e
      ensures EdgeList(w, t, e, ext)
    {
      MergeKeepsEdge(w, s, m, e, ext);
    }
    forall n | Entity(n) in t.graph
      ensures NodeList(w, t, n, ext)
    {
      MergeKeepsNode(w, s, m, n, ext);
    }
  }

  lemma MergedLeavesRest(s: Store, m: Merge, ids: seq<ChunkId>)
    ensures var t := Merged(s, m, ids);
            t.rows == s.rows && t.bodies == s.bodies && t.text == s.text && t.anchors == s.anchors && t.cap == s.cap && t.fifo == s.fifo
  {
  }

  lemma AbsorbedNodesAreThere(w: Work, s: Store, o: Op, ext: Extractor)
    requires w.Ready() && Data(w, s, ext) && Running(w, s, o, ext)
    ensures NodeMerges(ext, w.entries) <= o.done ==> NodesThere(w, s, ext)
  {
    if NodeMerges(ext, w.entries) <= o.done {
      forall n | MergeNode(n) in MergesOf(ext, w.entries)
        ensures Entity(n) in s.graph
      {
        var m := MergeNode(n);
        assert m in o.done && Absorbed(w, s, m, ext);
        MentionedSomewhere(ext, w.entries, m);
        assert Mentioning(ext, w.entries, m)[0] in Elems(s.Tracked(Entity(n)));
      }
    }
  }

  lemma MergeKeepsShape(w: Work, s: Store, o: Op, m: Merge, ext: Extractor)
    requires w.Ready() && Data(w, s, ext) && Running(w, s, o, ext)
    ensures Shape(w, OpStep(s, o, MergeObject(m), ext), ext)
  {
    if o.pc == AtMerge && MayMerge(o, m, ext) {
      AbsorbedNodesAreThere(w, s, o, ext);
      var t := Merged(s, m, Mentioning(ext, w.entries, m));
      MergedLeavesRest(s, m, Mentioning(ext, w.entries, m));
      MergeGrows(w.before, s, m, w.entries, ext);
      MergeAbsorbs(w, s, m, ext);
      MergeKeepsData(w, s, m, ext);
      forall x | x in o.done + {m}
        ensures Absorbed(w, t, x, ext)
      {
        if x != m {
          AbsorbedLater(w, s, t, x, ext);
        }
      }
      assert o.cands == w.Cands(ext);
      assert Journaled(w, t, o.cands, ext);
      assert Running(w, t, o.(done := o.done + {m}), ext);
    }
  }

  lemma SameListsSameAbsorbed(w: Work, s: Store, t: Store, ms: set<Merge>, ext: Extractor)
    requires s.tracking == t.tracking && forall m | m in ms :: Absorbed(w, s, m, ext)
    ensures forall m | m in ms :: Absorbed(w, t, m, ext)
  {
    forall m | m in ms
      ensures Absorbed(w, t, m, ext)
    {
      AbsorbedLater(w, s, t, m, ext);
    }
  }

  lemma SameListsGrown(w: Work, s: Store, t: Store, ext: Extractor)
    requires Grown(w.before, s, w.entries, ext)
    requires t.tracking == s.tracking && t.graph == s.graph && t.index == s.index && t.cap == s.cap && t.fifo == s.fifo
    ensures Grown(w.before, t, w.entries, ext)
  {
    forall c
      ensures Grew(w.before.Tracked(c), t.Tracked(c), w.entries, ext, c)
    {
      assert t.Tracked(c) == s.Tracked(c);
    }
    forall c | c in t.graph
      ensures t.graph[c] == t.Limit(t.Tracked(c)) || Halfway(w.before, t, w.entries, ext, c)
    {
      assert t.Tracked(c) == s.Tracked(c);
    }
  }

  lemma SameListsKnown(w: Work, s: Store, t: Store, ext: Extractor)
    requires ListsKnown(w, s, ext) && t.tracking == s.tracking && t.graph == s.graph
    ensures ListsKnown(w, t, ext)
  {
    forall c
      ensures t.Tracked(c) == s.Tracked(c)
    {
    }
    forall e
      ensures EdgeList(w, t, e, ext)
    {
      assert EdgeList(w, s, e, ext);
    }
    forall n | Entity(n) in t.graph
      ensures NodeList(w, t, n, ext)
    {
      assert NodeList(w, s, n, ext);
      if Entity(n) !in w.before.graph {
        var m :| CreatedBy(w, s, n, m, ext);
        assert CreatedBy(w, t, n, m, ext);
      }
    }
  }

  lemma StepKeepsData(w: Work, s: Store, o: Op, a: Action, ext: Extractor)
    requires w.Ready() && Data(w, s, ext) && Running(w, s, o, ext) && !a.MergeObject?
    ensures Data(w, OpStep(s, o, a, ext).store, ext)
  {
    var t := OpStep(s, o, a, ext).store;
    SameListsGrown(w, s, t, ext);
    SameListsKnown(w, s, t, ext);
    StepKeepsRest(w, s, o, a, ext);
    StepKeepsAnchors(w, s, o, a, ext);
  }

  lemma StepKeepsRest(w: Work, s: Store, o: Op, a: Action, ext: Extractor)
    requires w.Ready() && Data(w, s, ext) && Running(w, s, o, ext) && !a.MergeObject?
    ensures var t := OpStep(s, o, a, ext).store;
            && w.before.text <= t.text <= w.before.text + Elems(w.entries)
            && t.rows - {w.doc} == w.before.rows - {w.doc}
            && (t.bodies == w.before.bodies || t.bodies == w.FinalBodies())
  {
    var t := OpStep(s, o, a, ext).store;
    assert t.rows - {w.doc} == s.rows - {w.doc};
  }

  lemma StepKeepsAnchors(w: Work, s: Store, o: Op, a: Action, ext: Extractor)
    requires w.Ready() && Data(w, s, ext) && Running(w, s, o, ext) && !a.MergeObject?
    ensures AnchorsBetween(w, OpStep(s, o, a, ext).store, ext)
  {
    var t := OpStep(s, o, a, ext).store;
    if o.pc.AtMerge? || o.pc.AtCandidates? {
      AnchorsReach(w, s, o, ext);
    }
    if t.anchors != s.anchors {
      FinalAnchorsBetween(w, t, ext);
    }
  }

  lemma StageKeepsRunning(w: Work, s: Store, o: Op, a: Action, ext: Extractor)
    requires w.Ready() && Data(w, s, ext) && Running(w, s, o, ext)
    requires a.StageChunks? || a.JournalCandidates?
    ensures var n := OpStep(s, o, a, ext); n.running.Some? && Running(w, n.store, n.running.value, ext)
  {
    SameListsSameAbsorbed(w, s, OpStep(s, o, a, ext).store, o.done, ext);
  }

  lemma AnchoringKeepsRunning(w: Work, s: Store, o: Op, a: Action, ext: Extractor)
    requires w.Ready() && Data(w, s, ext) && Running(w, s, o, ext)
    requires a.PrewriteAnchors? || a.UnionAnchors?
    ensures var n := OpStep(s, o, a, ext); n.running.Some? && Running(w, n.store, n.running.value, ext)
  {
    SameListsSameAbsorbed(w, s, OpStep(s, o, a, ext).store, o.done, ext);
    if o.pc.AtMerge? || o.pc.AtCandidates? {
      AnchorsReach(w, s, o, ext);
    }
  }

  lemma EndKeepsShape(w: Work, s: Store, o: Op, a: Action, ext: Extractor)
    requires w.Ready() && Data(w, s, ext) && Running(w, s, o, ext)
    requires a.WriteCommit? || a.Return? || a.Fail? || a.Crash? || a.Call? || a.RollBack?
    ensures Shape(w, OpStep(s, o, a, ext), ext)
  {
    var n := OpStep(s, o, a, ext);
    StepKeepsData(w, s, o, a, ext);
    SameListsSameAbsorbed(w, s, n.store, o.done, ext);
    if o.pc.AtCommit? {
      SameListsSameAbsorbed(w, s, n.store, MergesOf(ext, w.entries), ext);
    }
  }

  lemma StepKeepsShape(w: Work, s: Store, o: Op, a: Action, ext: Extractor)
    requires w.Ready() && Data(w, s, ext) && Running(w, s, o, ext)
    ensures Shape(w, OpStep(s, o, a, ext), ext)
  {
    if a.MergeObject? {
      MergeKeepsShape(w, s, o, a.m, ext);
    } else if a.StageChunks? || a.JournalCandidates? {
      StepKeepsData(w, s, o, a, ext);
      StageKeepsRunning(w, s, o, a, ext);
    } else if a.PrewriteAnchors? || a.UnionAnchors? {
      StepKeepsData(w, s, o, a, ext);
      AnchoringKeepsRunning(w, s, o, a, ext);
    } else {
      EndKeepsShape(w, s, o, a, ext);
    }
  }

  lemma AnchorsReach(w: Work, s: Store, o: Op, ext: Extractor)
    requires w.Ready() && Data(w, s, ext) && o.doc == w.doc && o.cands == w.Cands(ext)
    ensures w.mode.Patch? ==> s.anchors[o.doc := s.AnchorsOf(o.doc) + o.cands] == w.FinalAnchors(ext)
    ensures w.mode.Create? ==> s.anchors[o.doc := o.cands] == w.FinalAnchors(ext)
  {
    if w.mode.Patch? {
      assert s.AnchorsOf(w.doc) + o.cands == w.before.AnchorsOf(w.doc) + w.Cands(ext);
    }
    SameUpdate(s.anchors, w.before.anchors, w.doc, s.AnchorsOf(w.doc) + o.cands);
    SameUpdate(s.anchors, w.before.anchors, w.doc, o.cands);
  }

  lemma SameButOne<T>(a: map<DocId, T>, b: map<DocId, T>, d: DocId)
    requires a - {d} == b - {d}
    ensures d in a && d in b && a[d] == b[d] ==> a == b
    ensures d !in a && d !in b ==> a == b
  {
    forall k | k != d
      ensures (k in a <==> k in b) && (k in a ==> a[k] == b[k])
    {
      assert k in a - {d} <==> k in b - {d};
      assert k in a - {d} ==> (a - {d})[k] == (b - {d})[k];
    }
  }

  lemma SameUpdate<T>(a: map<DocId, T>, b: map<DocId, T>, d: DocId, x: T)
    requires a - {d} == b - {d}
    ensures a[d := x] == b[d := x]
  {
    assert a[d := x] - {d} == a - {d} && b[d := x] - {d} == b - {d};
    SameButOne(a[d := x], b[d := x], d);
  }

  lemma FinalAnchorsBetween(w: Work, t: Store, ext: Extractor)
    requires w.Ready() && t.anchors == w.FinalAnchors(ext)
    ensures AnchorsBetween(w, t, ext)
  {
    assert t.anchors - {w.doc} == w.before.anchors - {w.doc};
  }

  // ---------------------------------------------------------------- rollback: the purge

  lemma CandidatesSuffice(w: Work, s: Store, ext: Extractor, c: Candidate)
    requires w.Ready() && Data(w, s, ext) && c in s.graph
    requires s.JournalOf(w.doc).Some? && Journaled(w, s, s.JournalOf(w.doc).value.cands, ext)
    requires c !in s.JournalOf(w.doc).value.cands
    ensures s.tracking[c] == w.before.Tracked(c) && c in w.before.graph && s.graph[c] == w.before.graph[c]
  {
    var before := w.before.Tracked(c);
    if s.JournalOf(w.doc).value.cands == w.Cands(ext) {
      if !(Elems(s.tracking[c]) !! Elems(w.entries)) {
        GrownOutsideMeansCandidate(w.before, s, w.entries, ext, c);
      }
      SubtractGrowth(w.before, s, w.entries, ext, c);
      SubtractNothing(s.tracking[c], Elems(w.entries));
      if s.graph[c] != s.Limit(s.Tracked(c)) {
        var list :| Grew(before, list, w.entries, ext, c) && s.graph[c] == s.Limit(list);
        if list != before {
          var x := list[|before|];
          assert x in list[|before|..];
          ContributorsAreCandidates(ext, w.entries, x, c);
        }
      }
    }
  }

  /** How the rollback's purge sees one object: filtered, its tracking row is the one from before. */
  lemma RollbackVerdict(w: Work, s: Store, ext: Extractor, c: Candidate)
    requires w.Ready() && Data(w, s, ext) && c in s.graph
    requires s.JournalOf(w.doc).Some? && Journaled(w, s, s.JournalOf(w.doc).value.cands, ext)
    ensures var p := MakePlan(s, RollbackJob(w.doc, s.JournalOf(w.doc).value));
            && (c in p.delete <==> w.before.Tracked(c) == [])
            && (c in p.rebuild <==> c in s.JournalOf(w.doc).value.cands && w.before.Tracked(c) != [])
            && (c in p.rebuild ==> p.rebuild[c] == w.before.Tracked(c))
  {
    SubtractGrowth(w.before, s, w.entries, ext, c);
    if c !in s.JournalOf(w.doc).value.cands {
      CandidatesSuffice(w, s, ext, c);
    }
  }

  /** Exactly the objects that the operation brought in disappear. */
  lemma RollbackGone(w: Work, s: Store, ext: Extractor, c: Candidate)
    requires w.Ready() && Data(w, s, ext) && c in s.graph
    requires s.JournalOf(w.doc).Some? && Journaled(w, s, s.JournalOf(w.doc).value.cands, ext)
    ensures c in Gone(s, MakePlan(s, RollbackJob(w.doc, s.JournalOf(w.doc).value))) <==> w.before.Tracked(c) == []
  {
    var p := MakePlan(s, RollbackJob(w.doc, s.JournalOf(w.doc).value));
    RollbackVerdict(w, s, ext, c);
    if c in Incident(s, p.delete) {
      var n :| n in c.ends && Entity(n) in p.delete;
      RollbackVerdict(w, s, ext, Entity(n));
      assert c in w.before.graph ==> Entity(n) in w.before.graph;
    }
  }

  lemma BeforeIsThere(w: Work, s: Store, ext: Extractor, c: Candidate)
    requires w.Ready() && Data(w, s, ext) && c !in s.graph
    ensures c !in w.before.graph && c !in w.before.tracking && c !in s.tracking
  {
    assert Grew(w.before.Tracked(c), s.Tracked(c), w.entries, ext, c);
  }

  lemma UndoneObject(w: Work, s: Store, ext: Extractor, c: Candidate)
    requires w.Ready() && Data(w, s, ext)
    requires s.JournalOf(w.doc).Some? && Journaled(w, s, s.JournalOf(w.doc).value.cands, ext)
    ensures SameAt(Purged(s, RollbackJob(w.doc, s.JournalOf(w.doc).value)), w.before, c)
  {
    var job := RollbackJob(w.doc, s.JournalOf(w.doc).value);
    assert w.entries[0] in job.ids;
    ObjectWhenDone(s, MakePlan(s, job), job, c);
    if c in s.graph {
      RollbackVerdict(w, s, ext, c);
      RollbackGone(w, s, ext, c);
      if c !in job.named.value {
        CandidatesSuffice(w, s, ext, c);
      }
    } else {
      BeforeIsThere(w, s, ext, c);
    }
  }

  /** Up to the anchors and the rows, the purge of a rollback is the inverse of everything the operation did. */
  lemma PurgeUndoes(w: Work, s: Store, ext: Extractor)
    requires w.Ready() && Data(w, s, ext)
    requires s.JournalOf(w.doc).Some? && Journaled(w, s, s.JournalOf(w.doc).value.cands, ext)
    ensures var j := s.JournalOf(w.doc).value;
            Purged(s, RollbackJob(w.doc, j))
              == w.before.(rows := s.rows, bodies := s.bodies,
                           anchors := if w.mode.Patch? then s.anchors else s.anchors - {w.doc})
  {
    var job := RollbackJob(w.doc, s.JournalOf(w.doc).value);
    assert w.entries[0] in job.ids;
    forall c
      ensures SameAt(Purged(s, job), w.before, c)
    {
      UndoneObject(w, s, ext, c);
    }
    SameEverywhere(Purged(s, job), w.before);
    StagesDirect(s, MakePlan(s, job), job, STAGES);
  }

  // ---------------------------------------------------------------- rollback: stopped halfway

  /** One object where the rollback's purge has stopped. */
  lemma HalfwayObject(w: Work, s: Store, k: nat, ext: Extractor, c: Candidate)
    requires w.Ready() && Data(w, s, ext) && k <= 5
    requires s.JournalOf(w.doc).Some? && Journaled(w, s, s.JournalOf(w.doc).value.cands, ext)
    ensures var b := After(s, RollbackJob(w.doc, s.JournalOf(w.doc).value), k);
            && (b.Tracked(c) == s.Tracked(c) || b.Tracked(c) == w.before.Tracked(c))
            && (c in b.graph ==> c in s.graph)
            && (c in b.graph && c !in w.before.graph ==> b.Tracked(c) == s.Tracked(c))
            && (c in b.graph ==> b.graph[c] == b.Limit(b.Tracked(c)) || Halfway(w.before, b, w.entries, ext, c))
  {
    var job := RollbackJob(w.doc, s.JournalOf(w.doc).value);
    var b, p := After(s, job, k), MakePlan(s, job);
    assert w.entries[0] in job.ids;
    BoundaryObject(s, job, k, c);
    TrackedMidway(s, job, k, c);
    if c in s.graph {
      RollbackVerdict(w, s, ext, c);
      RollbackGone(w, s, ext, c);
      assert Grew(w.before.Tracked(c), s.Tracked(c), w.entries, ext, c);
    } else {
      BeforeIsThere(w, s, ext, c);
    }
  }

  lemma DistinctBefore(w: Work, c: Candidate)
    requires w.Ready()
    ensures Distinct(w.before.Tracked(c))
  {
  }

  lemma HalfwayGrown(w: Work, s: Store, k: nat, ext: Extractor)
    requires w.Ready() && Data(w, s, ext) && k <= 5
    requires s.JournalOf(w.doc).Some? && Journaled(w, s, s.JournalOf(w.doc).value.cands, ext)
    ensures Grown(w.before, After(s, RollbackJob(w.doc, s.JournalOf(w.doc).value), k), w.entries, ext)
  {
    var job := RollbackJob(w.doc, s.JournalOf(w.doc).value);
    var b := After(s, job, k);
    assert w.entries[0] in job.ids;
    PurgeKeepsAligned(s, job, k);
    BoundaryStore(s, job, k);
    StagesDirect(s, MakePlan(s, job), job, k);
    forall c
      ensures Grew(w.before.Tracked(c), b.Tracked(c), w.entries, ext, c)
      ensures c in b.tracking ==> Distinct(b.tracking[c])
    {
      HalfwayObject(w, s, k, ext, c);
      DistinctBefore(w, c);
      assert Grew(w.before.Tracked(c), s.Tracked(c), w.entries, ext, c);
    }
    forall c | c in b.graph
      ensures b.graph[c] == b.Limit(b.Tracked(c)) || Halfway(w.before, b, w.entries, ext, c)
    {
      HalfwayObject(w, s, k, ext, c);
    }
  }

  lemma HalfwayKnown(w: Work, s: Store, k: nat, ext: Extractor)
    requires w.Ready() && Data(w, s, ext) && k <= 5
    requires s.JournalOf(w.doc).Some? && Journaled(w, s, s.JournalOf(w.doc).value.cands, ext)
    ensures ListsKnown(w, After(s, RollbackJob(w.doc, s.JournalOf(w.doc).value), k), ext)
  {
    var b := After(s, RollbackJob(w.doc, s.JournalOf(w.doc).value), k);
    forall e
      ensures EdgeList(w, b, e, ext)
    {
      HalfwayObject(w, s, k, ext, Relation(e));
      assert EdgeList(w, s, e, ext);
    }
    forall n | Entity(n) in b.graph
      ensures NodeList(w, b, n, ext)
    {
      HalfwayObject(w, s, k, ext, Entity(n));
      assert NodeList(w, s, n, ext);
      if Entity(n) !in w.before.graph {
        var m :| CreatedBy(w, s, n, m, ext);
        assert CreatedBy(w, b, n, m, ext);
      }
    }
  }

  lemma StoppedPurgeRest(w: Work, s: Store, k: nat, ext: Extractor)
    requires w.Ready() && Data(w, s, ext) && k <= 5
    requires s.JournalOf(w.doc).Some? && Journaled(w, s, s.JournalOf(w.doc).value.cands, ext)
    ensures var j := s.JournalOf(w.doc).value;
            var b := After(s, RollbackJob(w.doc, j), k);
            && b.rows == s.rows && b.bodies == s.bodies && b.anchors == s.anchors
            && w.before.text <= b.text <= w.before.text + Elems(w.entries)
            && (j.cands == {} ==> b.tracking == s.tracking && b.graph == s.graph && b.index == s.index)
  {
    var job := RollbackJob(w.doc, s.JournalOf(w.doc).value);
    assert w.entries[0] in job.ids;
    PurgeRest(s, job, k);
    if job.named.value == {} {
      NothingPlanned(s, job, k);
    }
  }

  lemma StoppedPurgeKeepsData(w: Work, s: Store, k: nat, ext: Extractor)
    requires w.Ready() && Data(w, s, ext) && k <= 5
    requires s.JournalOf(w.doc).Some? && Journaled(w, s, s.JournalOf(w.doc).value.cands, ext)
    ensures var j := s.JournalOf(w.doc).value;
            Data(w, After(s, RollbackJob(w.doc, j), k), ext) && Journaled(w, After(s, RollbackJob(w.doc, j), k), j.cands, ext)
  {
    HalfwayGrown(w, s, k, ext);
    HalfwayKnown(w, s, k, ext);
    StoppedPurgeRest(w, s, k, ext);
  }

  /** A rollback that stops halfway leaves a state of the run: the operation may be resumed, or rolled back again. */
  lemma StoppedRollbackIs(w: Work, s: Store, k: nat)
    requires StopsHalfway(w.mode, k) && k > 5 && s.JournalOf(w.doc).Some?
    requires var j := s.JournalOf(w.doc).value; j.chunks == w.entries != [] && j.mode == w.mode
    ensures var t := RollbackAfter(s, w.doc, k); t == After(s, RollbackJob(w.doc, s.JournalOf(w.doc).value), 5).(anchors := t.anchors)
  {
    var job := RollbackJob(w.doc, s.JournalOf(w.doc).value);
    StagesDirect(s, MakePlan(s, job), job, 5);
    StagesDirect(s, MakePlan(s, job), job, STAGES);
    assert w.entries[0] in job.ids;
  }

  lemma AnchorsMoved(w: Work, b: Store, t: Store, ext: Extractor)
    requires Data(w, b, ext) && t == b.(anchors := t.anchors) && AnchorsBetween(w, t, ext)
    ensures Data(w, t, ext)
  {
    SameListsGrown(w, b, t, ext);
    SameListsKnown(w, b, t, ext);
  }

  lemma StoppedRollbackKeepsShape(w: Work, s: Store, k: nat, ext: Extractor)
    requires w.Ready() && Data(w, s, ext) && StopsHalfway(w.mode, k)
    requires s.JournalOf(w.doc).Some? && Journaled(w, s, s.JournalOf(w.doc).value.cands, ext)
    ensures Shape(w, Sys(RollbackAfter(s, w.doc, k), None), ext)
  {
    var j := s.JournalOf(w.doc).value;
    var job := RollbackJob(w.doc, j);
    if k <= 5 {
      StoppedPurgeKeepsData(w, s, k, ext);
    } else {
      var b, t := After(s, job, 5), RollbackAfter(s, w.doc, k);
      StoppedPurgeKeepsData(w, s, 5, ext);
      PurgeUndoes(w, s, ext);
      StoppedRollbackIs(w, s, k);
      BaseIsNotStaged(w);
      StoppedAnchors(w, s, k, ext);
      AnchorsMoved(w, b, t, ext);
    }
  }

  lemma StoppedAnchors(w: Work, s: Store, k: nat, ext: Extractor)
    requires w.Ready() && Data(w, s, ext) && StopsHalfway(w.mode, k) && k > 5
    requires s.JournalOf(w.doc).Some? && Journaled(w, s, s.JournalOf(w.doc).value.cands, ext)
    ensures AnchorsBetween(w, RollbackAfter(s, w.doc, k), ext)
    ensures s.anchors == w.before.anchors && s.JournalOf(w.doc).value.cands == {} ==> RollbackAfter(s, w.doc, k).anchors == w.before.anchors
  {
    var t, j := RollbackAfter(s, w.doc, k), s.JournalOf(w.doc).value;
    PurgeUndoes(w, s, ext);
    BaseIsNotStaged(w);
    if w.mode.Create? {
      assert t.anchors == s.anchors - {w.doc};
      assert s.anchors - {w.doc} - {w.doc} == s.anchors - {w.doc};
      assert w.before.anchors - {w.doc} == w.before.anchors;
    } else if k == 7 {
      forall c | c in w.before.AnchorsOf(w.doc)
        ensures c in t.AnchorsOf(w.doc) || (c in w.Cands(ext) && !Owns(w, c))
      {
        assert c in s.AnchorsOf(w.doc) || (c in w.Cands(ext) && !Owns(w, c));
      }
      assert t.anchors - {w.doc} == s.anchors - {w.doc};
      if s.anchors == w.before.anchors && j.cands == {} {
        assert t.AnchorsOf(w.doc) == s.AnchorsOf(w.doc);
        SameButOne(t.anchors, s.anchors, w.doc);
      }
    }
  }

  lemma BaseIsNotStaged(w: Work)
    requires w.Ready()
    ensures Elems(w.Base()) !! Elems(w.entries)
    ensures Elems(w.Base()) - Elems(w.entries) == Elems(w.Base())
    ensures Subtract(w.Base(), Elems(w.entries)) == w.Base()
  {
    SubtractNothing(w.Base(), Elems(w.entries));
  }

  /** Failures, crashes, resumes, stopped rollbacks and every step of the operation keep the shape. */
  lemma {:induction false} RunKeepsShape(w: Work, sys: Sys, actions: seq<Action>, ext: Extractor)
    requires w.Ready() && Shape(w, sys, ext)
    requires forall a | a in actions :: Own(w, a)
    ensures Shape(w, Exec(sys, actions, ext), ext)
    decreases |actions|
  {
    if actions != [] {
      var a := actions[0];
      assert Own(w, a);
      if sys.running.Some? {
        StepKeepsShape(w, sys.store, sys.running.value, a, ext);
      } else if a.Call? {
        CallAgain(w, sys, a.texts, ext);
      } else if a.RollBack? && sys.store.JournalOf(w.doc).Some? {
        JournalNotFinished(w, sys, ext);
        StoppedRollbackKeepsShape(w, sys.store, a.upTo, ext);
      }
      RunKeepsShape(w, Next(sys, a, ext), actions[1..], ext);
    }
  }

  lemma JournalNotFinished(w: Work, sys: Sys, ext: Extractor)
    requires Shape(w, sys, ext) && sys.running.None? && sys.store.JournalOf(w.doc).Some?
    ensures Journaled(w, sys.store, sys.store.JournalOf(w.doc).value.cands, ext)
  {
  }

  // ---------------------------------------------------------------- rollback inverts the operation

  /** What the rollback makes of the anchors row. */
  lemma AnchorsAfterPrune(w: Work, s: Store, ext: Extractor, c: Candidate)
    requires w.Ready() && Data(w, s, ext) && w.mode.Patch? && s.JournalOf(w.doc).Some?
    requires Journaled(w, s, s.JournalOf(w.doc).value.cands, ext)
    ensures var j := s.JournalOf(w.doc).value;
            && (w.doc in RolledBack(s, w.doc).anchors <==> w.doc in s.anchors)
            && (c in RolledBack(s, w.doc).AnchorsOf(w.doc) <==> c in s.AnchorsOf(w.doc) && (c in j.cands ==> Owns(w, c)))
  {
    PurgeUndoes(w, s, ext);
    BaseIsNotStaged(w);
  }

  lemma RowsRestored(w: Work, s: Store, ext: Extractor)
    requires w.Ready() && Data(w, s, ext)
    requires s.JournalOf(w.doc).Some? && Journaled(w, s, s.JournalOf(w.doc).value.cands, ext)
    ensures RolledBack(s, w.doc) == w.before.(anchors := RolledBack(s, w.doc).anchors)
    ensures w.mode.Create? ==> RolledBack(s, w.doc) == w.before
    ensures w.mode.Patch? ==> RolledBack(s, w.doc).anchors - {w.doc} == w.before.anchors - {w.doc}
  {
    PurgeUndoes(w, s, ext);
    BaseIsNotStaged(w);
    var r := RolledBack(s, w.doc);
    if w.mode.Patch? {
      SameUpdate(s.rows, w.before.rows, w.doc, w.before.rows[w.doc]);
      assert s.rows[w.doc := w.before.rows[w.doc]] == w.before.rows;
      assert r.anchors - {w.doc} == s.anchors - {w.doc};
    } else {
      assert s.rows - {w.doc} == w.before.rows;
      assert s.anchors - {w.doc} == w.before.anchors;
      assert s.bodies - {w.doc} == w.before.bodies;
    }
  }

  /** For a patch: a candidate of the journal is anchored now and owned exactly when it was anchored before. */
  ghost predicate FaithfulHere(w: Work, s: Store)
    requires s.JournalOf(w.doc).Some?
  {
    w.mode.Patch? ==> forall c | c in s.JournalOf(w.doc).value.cands ::
      (c in s.AnchorsOf(w.doc) && Owns(w, c)) <==> c in w.before.AnchorsOf(w.doc)
  }

  /** Outside the journal's candidates the anchors row is as before. */
  lemma AnchorsElsewhere(w: Work, s: Store, ext: Extractor, c: Candidate)
    requires w.Ready() && Data(w, s, ext) && w.mode.Patch? && s.JournalOf(w.doc).Some?
    requires Journaled(w, s, s.JournalOf(w.doc).value.cands, ext) && c !in s.JournalOf(w.doc).value.cands
    ensures c in s.AnchorsOf(w.doc) <==> c in w.before.AnchorsOf(w.doc)
  {
  }

  /** The stores from before; where the document had no anchors row, an empty one may be left. */
  ghost predicate Restored(w: Work, t: Store) {
    t == w.before || (w.doc !in w.before.anchors && t == w.before.(anchors := w.before.anchors[w.doc := {}]))
  }

  /**
   * However the operation stopped, rolling it back restores every store to what it was before the
   * first call. For a patch this holds exactly when the anchors were faithful on the candidates
   * concerned: a candidate is anchored if and only if the document's own chunks contribute to it.
   */
  lemma RollbackInverts(w: Work, sys: Sys, ext: Extractor)
    requires w.Ready() && Shape(w, sys, ext) && sys.running.None?
    requires sys.store.JournalOf(w.doc).Some?
    ensures Restored(w, RolledBack(sys.store, w.doc)) <==> FaithfulHere(w, sys.store)
  {
    var s, j := sys.store, sys.store.JournalOf(w.doc).value;
    var r := RolledBack(s, w.doc);
    JournalNotFinished(w, sys, ext);
    RowsRestored(w, s, ext);
    if w.mode.Patch? {
      AnchorsAfterPrune(w, s, ext, Entity(""));
      forall c
        ensures (c in r.AnchorsOf(w.doc) <==> c in s.AnchorsOf(w.doc) && (c in j.cands ==> Owns(w, c)))
        ensures c !in j.cands ==> (c in s.AnchorsOf(w.doc) <==> c in w.before.AnchorsOf(w.doc))
      {
        AnchorsAfterPrune(w, s, ext, c);
        if c !in j.cands {
          AnchorsElsewhere(w, s, ext, c);
        }
      }
      if FaithfulHere(w, s) {
        assert r.AnchorsOf(w.doc) == w.before.AnchorsOf(w.doc);
        SameButOne(r.anchors, w.before.anchors, w.doc);
        EmptyRowLeft(r.anchors, w.before.anchors, w.doc);
      }
    }
  }

  lemma EmptyRowLeft(a: map<DocId, set<Candidate>>, b: map<DocId, set<Candidate>>, d: DocId)
    requires a - {d} == b - {d}
    ensures d in a && a[d] == {} && d !in b ==> a == b[d := {}]
  {
    SameUpdate(a, b, d, {});
    assert d in a && a[d] == {} ==> a[d := {}] == a;
  }

  /** Over whole runs: the first call, any steps, failures, crashes, resumes and stopped rollbacks, then a rollback. */
  lemma RollbackInvertsEveryRun(w: Work, texts: seq<string>, actions: seq<Action>, ext: Extractor)
    requires w.Ready() && Entries(w.doc, texts) == w.op
    requires forall a | a in actions :: Own(w, a)
    requires var sys := Exec(Sys(w.before, None), [Call(w.doc, texts)] + actions, ext);
             sys.running.None? && sys.store.JournalOf(w.doc).Some?
    requires w.mode.Patch? ==> forall c | c in w.Cands(ext) :: c in w.before.AnchorsOf(w.doc) <==> Owns(w, c)
    ensures var sys := Exec(Sys(w.before, None), [Call(w.doc, texts)] + actions, ext);
            Restored(w, RolledBack(sys.store, w.doc)) && sys.store.rows[w.doc].chunks == w.Base()
  {
    RunFromCall(w, texts, actions, ext);
    var sys := Exec(Sys(w.before, None), [Call(w.doc, texts)] + actions, ext);
    RollbackInverts(w, sys, ext);
    JournalNotFinished(w, sys, ext);
  }

  lemma RunFromCall(w: Work, texts: seq<string>, actions: seq<Action>, ext: Extractor)
    requires w.Ready() && Entries(w.doc, texts) == w.op
    requires forall a | a in actions :: Own(w, a)
    ensures Shape(w, Exec(Sys(w.before, None), [Call(w.doc, texts)] + actions, ext), ext)
  {
    var start := Sys(w.before, None);
    var all := [Call(w.doc, texts)] + actions;
    assert all[0] == Call(w.doc, texts) && all[1..] == actions;
    FirstCall(w, texts, ext);
    RunKeepsShape(w, Next(start, all[0], ext), actions, ext);
    assert Exec(start, all, ext) == Exec(Next(start, all[0], ext), actions, ext);
  }

  // ---------------------------------------------------------------- restarting a rollback

  /** Rollbacks of one document that stop one after the other. */
  function RollbackAttempts(s: Store, d: DocId, stops: seq<nat>): Store
    decreases |stops|
  {
    if stops == [] || s.JournalOf(d).None? then s else RollbackAttempts(RollbackAfter(s, d, stops[0]), d, stops[1..])
  }

  /**
   * A rollback stopped at any stage boundaries, any number of times, and run again restores the same stores,
   * on any stores, in step or not.
   */
  lemma {:induction false} RollbackRestarts(s: Store, d: DocId, stops: seq<nat>)
    requires s.index == s.graph && s.JournalOf(d).Some?
    requires forall k | k in stops :: StopsHalfway(s.rows[d].journal.value.mode, k)
    ensures RollbackAttempts(s, d, stops).JournalOf(d).Some?
    ensures RolledBack(RollbackAttempts(s, d, stops), d) == RolledBack(s, d)
    decreases |stops|
  {
    if stops != [] {
      var k := stops[0];
      assert k in stops && forall x | x in stops[1..] :: x in stops;
      OneRollbackStop(s, d, k);
      RollbackRestarts(RollbackAfter(s, d, k), d, stops[1..]);
    }
  }

  lemma OneRollbackStop(s: Store, d: DocId, k: nat)
    requires s.index == s.graph && s.JournalOf(d).Some? && StopsHalfway(s.rows[d].journal.value.mode, k)
    ensures var t := RollbackAfter(s, d, k);
            && t.JournalOf(d).Some? && t.rows[d] == s.rows[d] && t.index == t.graph
            && RolledBack(t, d) == RolledBack(s, d)
  {
    var row, j := s.rows[d], s.rows[d].journal.value;
    var job := RollbackJob(d, j);
    var kk := if k <= STAGES then k else STAGES;
    RowsUntouched(s, job, kk);
    RowsUntouched(s, job, STAGES);
    BoundaryStore(s, job, kk);
    RestartOnce(s, job, kk);
    if k > STAGES {
      PruneThenPurge(s, d);
    }
  }

  lemma RowsUntouched(s: Store, job: Job, k: nat)
    requires k <= STAGES
    ensures After(s, job, k).rows == s.rows
  {
    if job.ids != {} {
      StagesDirect(s, MakePlan(s, job), job, k);
    }
  }

  lemma PruneThenPurge(s: Store, d: DocId)
    requires s.index == s.graph && s.JournalOf(d).Some? && s.rows[d].journal.value.mode.Patch?
    ensures var t := RollbackAfter(s, d, 7);
            t.JournalOf(d).Some? && t.rows[d] == s.rows[d] && t.index == t.graph && RolledBack(t, d) == RolledBack(s, d)
  {
    var row, j := s.rows[d], s.rows[d].journal.value;
    var job := RollbackJob(d, j);
    var p, q := Purged(s, job), RollbackAfter(s, d, 7);
    RowsUntouched(s, job, STAGES);
    BoundaryStore(s, job, STAGES);
    RestartOnce(s, job, STAGES);
    PurgeIgnoresAnchors(p, q.anchors, job);
    var owned := Elems(row.chunks) - Elems(j.chunks);
    if d in q.anchors {
      assert Pruned(q, d, j, owned).anchors[d] == q.anchors[d];
      assert Pruned(q, d, j, owned).anchors == q.anchors;
    }
    assert Pruned(q, d, j, owned) == q;
  }

  lemma PurgeIgnoresAnchors(b: Store, anchors: map<DocId, set<Candidate>>, job: Job)
    requires job.named.Some? && job.patchOnly
    ensures Purged(b.(anchors := anchors), job) == Purged(b, job).(anchors := anchors)
  {
    if job.ids != {} {
      var a := b.(anchors := anchors);
      PlanIgnoresAnchors(b, anchors, Candidates(b, job), job.ids, job.policy);
      ClosedFormIgnoresAnchors(b, anchors, MakePlan(b, job), job);
      StagesDirect(a, MakePlan(a, job), job, STAGES);
      StagesDirect(b, MakePlan(b, job), job, STAGES);
    }
  }

  // ---------------------------------------------------------------- resume equals success

  /** Two committed stores that no reader of rows, texts, anchors or object names can tell apart. */
  ghost predicate SameBooks(a: Store, b: Store) {
    && a.rows == b.rows && a.bodies == b.bodies && a.text == b.text && a.anchors == b.anchors
    && a.graph.Keys == b.graph.Keys
  }

  /**
   * The object's sources do not depend on the order of the merges: it is an edge, or an entity that was there
   * before, or all merges that may create it hand on the same beyond what is sure.
   */
  ghost predicate Determined(w: Work, ext: Extractor, c: Candidate) {
    c.Relation? || c in w.before.graph ||
    forall a, b | Creates(w, a, c.name, ext) && Creates(w, b, c.name, ext) ::
      w.Given(a, ext) <= w.Sure(c.name, ext) + w.Given(b, ext)
  }

  /** An entity that some chunk extracts by itself is determined, past the source limit too. */
  lemma ExtractedIsDetermined(w: Work, ext: Extractor, n: Name)
    requires MergeNode(n) in MergesOf(ext, w.entries)
    ensures Determined(w, ext, Entity(n))
  {
    SureHas(w, MergeNode(n), n, ext);
  }

  /** Within the source limit every entity is determined. */
  lemma FittingIsDetermined(w: Work, ext: Extractor, n: Name)
    requires w.before.cap > 0
    requires forall e | MergeEdge(e) in MergesOf(ext, w.entries) && n in e :: |w.Full(e, ext)| <= w.before.cap
    ensures Determined(w, ext, Entity(n))
  {
    forall a | a in MergesOf(ext, w.entries) && Touches(a, n)
      ensures w.Given(a, ext) <= w.Sure(n, ext)
    {
      assert w.Given(a, ext) == w.Passed(a, ext);
      SureHas(w, a, n, ext);
    }
  }

  /** The sources of an edge once the operation is committed. */
  lemma CommittedEdge(w: Work, s: Store, ext: Extractor, c: Candidate)
    requires w.Ready() && Data(w, s, ext) && Finished(w, s, ext) && c.Relation?
    ensures Elems(s.Tracked(c)) == Elems(w.before.Tracked(c)) + set x | x in w.entries && Contributes(ext, x, c)
  {
    var before, now := w.before.Tracked(c), s.Tracked(c);
    assert Grew(before, now, w.entries, ext, c);
    assert now == before + now[|before|..];
    assert Elems(now) == Elems(before) + Elems(now[|before|..]);
    forall x | x in w.entries && Contributes(ext, x, c)
      ensures x in Elems(now)
    {
      var m := MergeEdge(c.ends);
      assert Mentions(ext, x, m) && m in MergesOf(ext, w.entries);
      assert Absorbed(w, s, m, ext);
      MentioningElems(ext, w.entries, m);
      assert x in Elems(Mentioning(ext, w.entries, m));
    }
  }

  lemma SureIsTracked(w: Work, s: Store, ext: Extractor, n: Name)
    requires w.Ready() && Data(w, s, ext) && Finished(w, s, ext)
    ensures w.Sure(n, ext) <= Elems(s.Tracked(Entity(n)))
  {
    var v := Entity(n);
    assert Grew(w.before.Tracked(v), s.Tracked(v), w.entries, ext, v);
    PrefixElems(w.before.Tracked(v), s.Tracked(v));
    forall m, x | m in MergesOf(ext, w.entries) && Touches(m, n) && x in w.Passed(m, ext)
      ensures x in Elems(s.Tracked(v))
    {
      assert Absorbed(w, s, m, ext);
    }
  }

  lemma PassedNotEmpty(w: Work, m: Merge, ext: Extractor)
    requires w.before.cap > 0 && m in MergesOf(ext, w.entries)
    ensures w.Passed(m, ext) != {}
  {
    var ids := Mentioning(ext, w.entries, m);
    MentionedSomewhere(ext, w.entries, m);
    assert ids[0] in Elems(ids);
    if m.MergeEdge? {
      MergedNotEmpty(w.before.Tracked(Relation(m.ends)), ids);
      LimitedElems(w.Full(m.ends, ext), w.before.cap, w.before.fifo);
      var l := w.before.Limit(w.Full(m.ends, ext));
      assert l[0] in Elems(l);
    }
  }

  /**
   * The sources of an entity once the operation is committed: the sure ones, and for a new entity also
   * everything that the merge which created it brought along.
   */
  lemma CommittedNode(w: Work, s: Store, ext: Extractor, n: Name)
    requires w.Ready() && Data(w, s, ext) && Finished(w, s, ext)
    ensures Entity(n) in w.before.graph ==> Elems(s.Tracked(Entity(n))) == w.Sure(n, ext)
    ensures Entity(n) in s.graph && Entity(n) !in w.before.graph ==>
      exists m :: Creates(w, m, n, ext) && Elems(s.Tracked(Entity(n))) == w.Sure(n, ext) + w.Given(m, ext)
    ensures Entity(n) in s.graph <==> Entity(n) in w.before.graph || exists m :: m in MergesOf(ext, w.entries) && Touches(m, n)
  {
    var v := Entity(n);
    SureIsTracked(w, s, ext, n);
    assert Grew(w.before.Tracked(v), s.Tracked(v), w.entries, ext, v);
    if v in s.graph {
      assert NodeList(w, s, n, ext);
      if v !in w.before.graph {
        var m :| CreatedBy(w, s, n, m, ext);
        assert Elems(s.Tracked(v)) == w.Sure(n, ext) + w.Given(m, ext);
      }
    }
    if exists m :: m in MergesOf(ext, w.entries) && Touches(m, n) {
      var m :| m in MergesOf(ext, w.entries) && Touches(m, n);
      PassedNotEmpty(w, m, ext);
      SureHas(w, m, n, ext);
      assert Elems(s.Tracked(v)) != {};
    }
  }

  /** And then it has exactly the sure sources. */
  lemma ExtractedSources(w: Work, s: Store, ext: Extractor, n: Name)
    requires w.Ready() && Data(w, s, ext) && Finished(w, s, ext) && MergeNode(n) in MergesOf(ext, w.entries)
    ensures Elems(s.Tracked(Entity(n))) == w.Sure(n, ext)
  {
    CommittedNode(w, s, ext, n);
    SureHas(w, MergeNode(n), n, ext);
    assert Touches(MergeNode(n), n);
    if Entity(n) !in w.before.graph {
      var m :| Creates(w, m, n, ext) && Elems(s.Tracked(Entity(n))) == w.Sure(n, ext) + w.Given(m, ext);
      assert m == MergeNode(n);
    }
  }

  lemma SameNode(w: Work, a: Store, b: Store, ext: Extractor, n: Name)
    requires exists x :: Creates(w, x, n, ext) && Elems(a.Tracked(Entity(n))) == w.Sure(n, ext) + w.Given(x, ext)
    requires exists y :: Creates(w, y, n, ext) && Elems(b.Tracked(Entity(n))) == w.Sure(n, ext) + w.Given(y, ext)
    requires Entity(n) !in w.before.graph && Determined(w, ext, Entity(n))
    ensures Elems(a.Tracked(Entity(n))) == Elems(b.Tracked(Entity(n)))
  {
    var x :| Creates(w, x, n, ext) && Elems(a.Tracked(Entity(n))) == w.Sure(n, ext) + w.Given(x, ext);
    var y :| Creates(w, y, n, ext) && Elems(b.Tracked(Entity(n))) == w.Sure(n, ext) + w.Given(y, ext);
    assert w.Given(x, ext) <= w.Sure(n, ext) + w.Given(y, ext);
    assert w.Given(y, ext) <= w.Sure(n, ext) + w.Given(x, ext);
  }

  lemma SameObject(w: Work, a: Store, b: Store, ext: Extractor, c: Candidate)
    requires w.Ready() && Data(w, a, ext) && Finished(w, a, ext) && Data(w, b, ext) && Finished(w, b, ext)
    ensures c in a.graph <==> c in b.graph
    ensures Determined(w, ext, c) ==> Elems(a.Tracked(c)) == Elems(b.Tracked(c))
  {
    if c.Relation? {
      CommittedEdge(w, a, ext, c);
      CommittedEdge(w, b, ext, c);
      NonEmptyElems(a.Tracked(c), b.Tracked(c));
    } else {
      CommittedNode(w, a, ext, c.name);
      CommittedNode(w, b, ext, c.name);
      if c in a.graph && c !in w.before.graph && Determined(w, ext, c) {
        SameNode(w, a, b, ext, c.name);
      }
    }
  }

  /**
   * Any two runs of the operation that end committed agree, however often each of them failed, crashed,
   * resumed or was rolled back halfway before: in particular a resumed run gives what a single success gives.
   * They agree on everything but the sources of entities that only the order of the merges determines.
   */
  lemma ResumeEqualsSuccess(w: Work, a: Store, b: Store, ext: Extractor)
    requires w.Ready()
    requires Data(w, a, ext) && Finished(w, a, ext)
    requires Data(w, b, ext) && Finished(w, b, ext)
    ensures SameBooks(a, b)
    ensures forall c | Determined(w, ext, c) :: Elems(a.Tracked(c)) == Elems(b.Tracked(c))
  {
    forall c
      ensures c in a.graph <==> c in b.graph
      ensures Determined(w, ext, c) ==> Elems(a.Tracked(c)) == Elems(b.Tracked(c))
    {
      SameObject(w, a, b, ext, c);
    }
    SameButOne(a.rows, b.rows, w.doc);
  }

  lemma NonEmptyElems(x: seq<ChunkId>, y: seq<ChunkId>)
    requires Elems(x) == Elems(y)
    ensures x == [] <==> y == []
  {
    assert x != [] ==> x[0] in Elems(x);
    assert y != [] ==> y[0] in Elems(y);
  }

  /** The first call and then these actions, up to a state without a journal and with nothing running. */
  ghost predicate CommittedRun(w: Work, texts: seq<string>, actions: seq<Action>, ext: Extractor) {
    && (forall a | a in actions :: Own(w, a))
    && var sys := Exec(Sys(w.before, None), [Call(w.doc, texts)] + actions, ext);
       sys.running.None? && sys.store.JournalOf(w.doc).None?
  }

  function RunEnd(w: Work, texts: seq<string>, actions: seq<Action>, ext: Extractor): Store {
    Exec(Sys(w.before, None), [Call(w.doc, texts)] + actions, ext).store
  }

  /** Every committed end of a run is such a store, and calling the operation again changes nothing. */
  lemma CommittedRuns(w: Work, texts: seq<string>, actions: seq<Action>, ext: Extractor)
    requires w.Ready() && Entries(w.doc, texts) == w.op && CommittedRun(w, texts, actions, ext)
    ensures var s := RunEnd(w, texts, actions, ext);
            Data(w, s, ext) && Finished(w, s, ext) && CallStep(Sys(s, None), w.doc, texts) == Sys(s, None)
  {
    RunFromCall(w, texts, actions, ext);
    var sys := Exec(Sys(w.before, None), [Call(w.doc, texts)] + actions, ext);
    assert sys == Sys(sys.store, None);
    CallAgain(w, sys, texts, ext);
  }
}
