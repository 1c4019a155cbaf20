/** What a committed custom-chunk operation has put into the stores: everything its chunks contribute, and nothing else. */
module CommittedContents {
  import opened Sources
  import opened Stores
  import opened Merging
  import opened CustomChunks
  import opened PatchRuns

  /** The object is in the graph, tracks the chunk, and is anchored with the document. */
  ghost predicate Recorded(s: Store, d: DocId, c: Candidate, ch: ChunkId) {
    c in s.graph && ch in s.Tracked(c) && c in s.AnchorsOf(d)
  }

  lemma NodeRecorded(w: Work, s: Store, ext: Extractor, ch: ChunkId, n: Name)
    requires w.Ready() && Data(w, s, ext) && Finished(w, s, ext) && ch in w.entries && n in ext(ch).nodes
    ensures Recorded(s, w.doc, Entity(n), ch)
  {
    var m := MergeNode(n);
    assert m in MergesOf(ext, w.entries) && Absorbed(w, s, m, ext);
    MentioningElems(ext, w.entries, m);
    assert ch in Elems(Mentioning(ext, w.entries, m));
    ContributorsAreCandidates(ext, w.entries, ch, Entity(n));
  }

  lemma EdgeRecorded(w: Work, s: Store, ext: Extractor, ch: ChunkId, e: set<Name>)
    requires w.Ready() && Data(w, s, ext) && Finished(w, s, ext) && ch in w.entries && e in ext(ch).edges && |e| == 2
    ensures Recorded(s, w.doc, Relation(e), ch)
    ensures forall n | n in e :: Entity(n) in s.graph && Entity(n) in s.AnchorsOf(w.doc)
  {
    var m := MergeEdge(e);
    assert m in MergesOf(ext, w.entries) && Absorbed(w, s, m, ext);
    MentioningElems(ext, w.entries, m);
    assert ch in Elems(Mentioning(ext, w.entries, m));
    ContributorsAreCandidates(ext, w.entries, ch, Relation(e));
    forall n | n in e
      ensures Entity(n) in s.graph && Entity(n) in s.AnchorsOf(w.doc)
    {
      assert Touches(m, n);
      CommittedNode(w, s, ext, n);
      ContributorsAreCandidates(ext, w.entries, ch, Entity(n));
    }
  }

  lemma FinalRowIs(w: Work, ch: ChunkId)
    ensures ch in w.FinalRow().chunks <==> ch in w.entries || (w.mode.Patch? && ch in w.Base())
    ensures w.mode.Patch? && Distinct(w.Base()) ==> w.Base() <= w.FinalRow().chunks
  {
    var all := w.Base() + w.entries;
    AppendNewElems([], all);
    assert ch in AppendNew([], all) <==> ch in Elems(AppendNew([], all));
    if Distinct(w.Base()) {
      AppendNewConcat([], w.Base(), w.entries);
      assert [] + w.Base() == w.Base();
      AppendNewOfDistinct([], w.Base());
      AppendNewTail(w.Base(), w.entries);
    }
  }

  /**
   * However an operation came to be committed, through failures, resumes and stopped rollbacks: each of its chunks
   * is stored and listed in the document's row; every entity it extracts and every relation between two entities is in
   * the graph, tracks the chunk and is anchored; and so are the relation's ends.
   */
  lemma CommittedChunkIsRecorded(w: Work, texts: seq<string>, actions: seq<Action>, ext: Extractor, ch: ChunkId)
    requires w.Ready() && Entries(w.doc, texts) == w.op && CommittedRun(w, texts, actions, ext) && ch in w.entries
    ensures var s := RunEnd(w, texts, actions, ext);
            && ch in s.text && w.doc in s.rows && ch in s.rows[w.doc].chunks
            && (forall n | n in ext(ch).nodes :: Recorded(s, w.doc, Entity(n), ch))
            && forall e | e in ext(ch).edges && |e| == 2 ::
                 Recorded(s, w.doc, Relation(e), ch) && forall n | n in e :: Entity(n) in s.graph && Entity(n) in s.AnchorsOf(w.doc)
  {
    var s := RunEnd(w, texts, actions, ext);
    CommittedRuns(w, texts, actions, ext);
    FinalRowIs(w, ch);
    assert ch in Elems(w.entries);
    forall n | n in ext(ch).nodes
      ensures Recorded(s, w.doc, Entity(n), ch)
    {
      NodeRecorded(w, s, ext, ch, n);
    }
    forall e | e in ext(ch).edges && |e| == 2
      ensures Recorded(s, w.doc, Relation(e), ch) && forall n | n in e :: Entity(n) in s.graph && Entity(n) in s.AnchorsOf(w.doc)
    {
      EdgeRecorded(w, s, ext, ch, e);
    }
  }

  /**
   * And it has added nothing else: an object has taken in only chunks of the operation that mention it or a relation
   * of it, behind what it recorded before; texts, rows, bodies and anchors are those of before beside the document's own.
   */
  lemma CommittedAddsNothingElse(w: Work, texts: seq<string>, actions: seq<Action>, ext: Extractor, c: Candidate)
    requires w.Ready() && Entries(w.doc, texts) == w.op && CommittedRun(w, texts, actions, ext)
    ensures var s, was := RunEnd(w, texts, actions, ext), w.before;
            && was.Tracked(c) <= s.Tracked(c)
            && (forall x | x in s.Tracked(c)[|was.Tracked(c)|..] :: x in w.entries && Contributes(ext, x, c))
            && s.text == was.text + Elems(w.entries)
            && s.rows - {w.doc} == was.rows - {w.doc} && s.anchors - {w.doc} == was.anchors - {w.doc}
            && s.bodies == (if w.mode.Patch? then was.bodies else was.bodies + {w.doc})
            && w.doc in s.rows && s.rows[w.doc].status.Processed? && s.rows[w.doc].journal.None?
            && (forall ch :: ch in s.rows[w.doc].chunks <==> ch in w.entries || (w.mode.Patch? && ch in w.Base()))
  {
    var s := RunEnd(w, texts, actions, ext);
    CommittedRuns(w, texts, actions, ext);
    assert Grew(w.before.Tracked(c), s.Tracked(c), w.entries, ext, c);
    forall ch
      ensures ch in w.FinalRow().chunks <==> ch in w.entries || (w.mode.Patch? && ch in w.Base())
    {
      FinalRowIs(w, ch);
    }
  }
}
