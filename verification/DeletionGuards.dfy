/**
 * Why the coverage of runs with deletions asks for its guards: each is exact where it stands, and what goes
 * wrong without it is shown. Documents that are whole and edges within the source limit need no guard.
 */
module DeletionGuards {
  import opened Basics
  import opened Sources
  import opened Stores
  import opened Purge
  import opened Merging
  import opened CustomChunks
  import opened Coverage
  import opened DeletionCoverage
  import D = Deletion

  // ---------------------------------------------------------------- calls on half-deleted documents

  /** A patch stages none of the document's own chunks again exactly when none that it brings has lost its text. */
  lemma CallGuardIsExact(s: Store, d: DocId, texts: seq<string>)
    requires d in s.rows && forall ch | ch in s.rows[d].chunks :: ch.doc == d
    ensures Elems(StillPending(s, s.rows[d], Patch, Entries(d, texts))) !! Elems(s.rows[d].chunks) <==> CallGuard(s, d, texts)
  {
    var row, op := s.rows[d], Entries(d, texts);
    EntriesAre(d, texts);
    UnseenElems(op, CommittedTexts(s, row));
    var pending := Elems(StillPending(s, row, Patch, op));
    if CallGuard(s, d, texts) {
      forall ch | ch in pending
        ensures ch !in Elems(row.chunks)
      {
        assert ch in row.chunks ==> ch in s.text;
      }
    } else {
      var ch :| ch in row.chunks && ch.text in texts && ch.text != "" && ch !in s.text;
      assert ch in op;
      assert ch.text !in CommittedTexts(s, row) by {
        assert forall b | b in row.chunks && b.text == ch.text :: b == ch;
      }
      assert ch in pending && ch in Elems(row.chunks);
    }
  }

  lemma AloneWithout(ch: ChunkId)
    ensures Subtract([ch], {ch}) == [] && Elems([ch]) == {ch}
  {
    assert [ch][1..] == [];
  }

  lemma OneEntry(d: DocId, t: string)
    requires t != ""
    ensures Entries(d, [t]) == [ChunkId(d, t)]
  {
    assert [t][1..] == [];
    assert IdsFor(d, [t]) == [ChunkId(d, t)] + IdsFor(d, []) == [ChunkId(d, t)];
    AppendNewOfDistinct([], [ChunkId(d, t)]);
    assert [] + [ChunkId(d, t)] == [ChunkId(d, t)];
  }

  /**
   * Without the guard: a document whose deletion has removed the texts is still processed, the call is taken
   * as a patch and stages the document's own chunk, and its rollback empties the chunk list.
   */
  lemma HalfDeletedCallRestages(s: Store, d: DocId, t: string)
    requires d in s.rows && s.rows[d] == Row(Processed, [ChunkId(d, t)], None) && t != ""
    ensures var called := CallStep(Sys(D.KgAfter(s, d, {}, 2), None), d, [t]).store;
            && called.JournalOf(d).Some? && called.rows[d].journal.value.chunks == called.rows[d].chunks == [ChunkId(d, t)]
            && d in RolledBack(called, d).rows && RolledBack(called, d).rows[d] == Row(Processed, [], None)
  {
    var ch, half := ChunkId(d, t), D.KgAfter(s, d, {}, 2);
    AloneWithout(ch);
    OneEntry(d, t);
    assert ch in s.OwnedChunks(d);
    D.KgRows(s, d, {}, 2);
    D.KgStagesDirect(s, MakePlan(s, D.DeletionJob(s, d, {})), D.DeletionJob(s, d, {}), 2);
    var known := CommittedTexts(half, half.rows[d]);
    assert known == {};
    assert (set x | x in [ch] && x.text in known) == {};
    SubtractNothing([ch], {});
    var called := CallStep(Sys(half, None), d, [t]).store;
    RollbackRow(called, d, ROLLBACK_STAGES);
  }

  // ---------------------------------------------------------------- rollbacks

  /** A patch rollback keeps every tracked edge's ends anchored exactly when the guard holds. */
  lemma RollbackGuardIsExact(s: Store, d: DocId, k: nat, torn: set<DocId>, ext: Extractor)
    requires Linked(s, ext) && Covered(Sys(Whole(s, torn), None), ext)
    requires s.JournalOf(d).Some? && s.rows[d].journal.value.mode.Patch? && k > STAGES
    ensures Closed(RollbackAfter(s, d, k)) <==> RollbackSpares(s, d)
  {
    if RollbackSpares(s, d) {
      RollbackLinks(s, d, k, torn, ext);
    } else {
      var j := s.rows[d].journal.value;
      var c: Candidate, ch: ChunkId, n: Name :| c.Relation? && n in c.ends && Entity(n) in j.cands && ch in s.Tracked(c)
        && ch in s.rows[d].chunks && c !in Gone(s, MakePlan(s, RollbackJob(d, j))) && Elems(s.Tracked(Entity(n))) !! Elems(s.rows[d].chunks);
      UnsparedEnd(s, d, k, torn, ext, c, ch, n);
    }
  }

  lemma UnsparedEnd(s: Store, d: DocId, k: nat, torn: set<DocId>, ext: Extractor, c: Candidate, ch: ChunkId, n: Name)
    requires Covered(Sys(Whole(s, torn), None), ext)
    requires s.JournalOf(d).Some? && s.rows[d].journal.value.mode.Patch? && k > STAGES
    requires c.Relation? && n in c.ends && Entity(n) in s.rows[d].journal.value.cands && ch in s.Tracked(c) && ch in s.rows[d].chunks
    requires c !in Gone(s, MakePlan(s, RollbackJob(d, s.rows[d].journal.value))) && Elems(s.Tracked(Entity(n))) !! Elems(s.rows[d].chunks)
    ensures var t := RollbackAfter(s, d, k); ch in t.Tracked(c) && Committed(t, ch) && Entity(n) !in t.AnchorsOf(d) && ch.doc == d
  {
    var row, j, t := s.rows[d], s.rows[d].journal.value, RollbackAfter(s, d, k);
    var job := RollbackJob(d, j);
    assert RowSound(Whole(s, torn), d, ext);
    RollbackRow(s, d, k);
    JournalNotTorn(s, d, torn, ext);
    SubtractNothing(row.chunks, Elems(j.chunks));
    RollbackIsPurge(s, d, k, After(s, job, STAGES));
    SameTracked(After(s, job, STAGES), t);
    NodeKeeps(s, d, STAGES, n, torn, ext);
    RollbackAnchors(s, d, k, Entity(n), d);
    if job.ids != {} {
      EdgeStays(s, job, c, ch);
    }
  }

  lemma EdgeStays(s: Store, job: Job, c: Candidate, ch: ChunkId)
    requires s.Aligned() && job.ids != {} && ch in s.Tracked(c) && ch !in job.ids && c !in Gone(s, MakePlan(s, job))
    ensures ch in After(s, job, STAGES).Tracked(c)
  {
    PurgeTracks(s, job, STAGES, c);
    PurgeKeepsAligned(s, job, STAGES);
    SubtractElems(s.Tracked(c), job.ids);
    assert ch in Elems(s.Tracked(c));
    assert ch in Elems(After(s, job, STAGES).Tracked(c));
  }

  /**
   * What an unlinked end is exposed to: the next merge of its edge hands on the committed chunk, and the end
   * records it without being in the anchors of its document.
   */
  lemma UnlinkedEndIsExposed(s: Store, e: set<Name>, n: Name, ids: seq<ChunkId>, ch: ChunkId)
    requires s.Aligned() && |e| == 2 && n in e && Entity(n) in s.graph && !Saturated(s, Relation(e), ids)
    requires ch in s.Limit(MergeIds(s.Tracked(Relation(e)), ids))
    ensures ch in Merged(s, MergeEdge(e), ids).Tracked(Entity(n)) && Merged(s, MergeEdge(e), ids).AnchorsOf(ch.doc) == s.AnchorsOf(ch.doc)
  {
    var r, v := Relation(e), Entity(n);
    var full := MergeIds(KnownSources(s, r), ids);
    KnownIsTracked(s, r);
    PutAt(s, Ends(s, e, full)[r := full], v);
    MergeIdsElems(KnownSources(s, v), s.Limit(full));
    assert ch in Elems(s.Limit(full));
    assert ch in Elems(EndAfter(s, n, full));
  }

  // ---------------------------------------------------------------- whole documents within the source limit

  /** Both ends of an edge track the edge's committed chunks. */
  ghost predicate Nested(s: Store, torn: set<DocId>) {
    forall c, ch, n | ch in s.Tracked(c) && c.Relation? && Committed(s, ch) && ch.doc !in torn && n in c.ends :: ch in s.Tracked(Entity(n))
  }

  ghost predicate DoneNested(s: Store, o: Op, ext: Extractor) {
    forall e, x, n | MergeEdge(e) in o.done && x in o.entries && e in ext(x).edges && |e| == 2 && n in e :: x in s.Tracked(Entity(n))
  }

  ghost predicate NestedWorld(w: World, ext: Extractor) {
    Nested(w.sys.store, w.torn) && (w.sys.running.Some? ==> DoneNested(w.sys.store, w.sys.running.value, ext))
  }

  /** The merged edge's whole list fits the limit, so both ends take in all of it. */
  predicate FitsLimit(s: Store, m: Merge, ids: seq<ChunkId>) {
    m.MergeEdge? ==>
      (var full := MergeIds(KnownSources(s, Object(m)), ids); s.Limit(full) == full && !Saturated(s, Object(m), ids))
  }

  /** What an end that is in the graph takes in: an edge over the limit hands on its limited list only. */
  lemma EndTakes(s: Store, m: Merge, ids: seq<ChunkId>, n: Name, x: ChunkId)
    requires s.Aligned() && m.MergeEdge? && |m.ends| == 2 && n in m.ends && Entity(n) in s.graph
    ensures x in Merged(s, m, ids).Tracked(Entity(n)) <==>
      x in s.Tracked(Entity(n)) || (!Saturated(s, Object(m), ids) && x in s.Limit(MergeIds(s.Tracked(Object(m)), ids)))
  {
    var r, v := Object(m), Entity(n);
    var full := MergeIds(KnownSources(s, r), ids);
    KnownIsTracked(s, r);
    KnownIsTracked(s, v);
    MergeIdsElems(s.Tracked(v), s.Limit(full));
    if !Saturated(s, r, ids) {
      PutAt(s, Ends(s, m.ends, full)[r := full], v);
      assert x in EndAfter(s, n, full) <==> x in Elems(EndAfter(s, n, full));
    }
  }

  /** Half-deleted documents are left to their deletion or called under the guard, and edges stay within the limit. */
  ghost predicate Plain(w: World, e: Event, ext: Extractor) {
    match e
    case Step(Call(d, texts)) => CallGuard(w.sys.store, d, texts)
    case Step(RollBack(d, _)) => d !in w.torn
    case Step(MergeObject(m)) =>
      w.sys.running.Some? ==> FitsLimit(w.sys.store, m, Mentioning(ext, w.sys.running.value.entries, m))
    case _ => true
  }

  ghost predicate AllPlain(w: World, events: seq<Event>, ext: Extractor)
    decreases |events|
  {
    events == [] || (Plain(w, events[0], ext) && AllPlain(Happens(w, events[0], ext), events[1..], ext))
  }

  /** A document that is whole needs no guard for a call. */
  lemma WholeDocumentsMayBeCalled(w: World, d: DocId, texts: seq<string>, ext: Extractor)
    requires Kept(w, ext) && d !in w.torn
    ensures CallGuard(w.sys.store, d, texts)
  {
    var s := w.sys.store;
    if d in s.rows {
      assert RowSound(Whole(s, w.torn), d, ext);
      forall ch | ch in s.rows[d].chunks
        ensures ch in s.text
      {
        if ch in TornText(s, w.torn) {
          TornTextOf(s, w.torn, ch, ext);
        }
      }
    }
  }

  /** Nor for a rollback, as long as edges are nested in their ends. */
  lemma WholeDocumentsMayBeRolledBack(w: World, d: DocId, ext: Extractor)
    requires Kept(w, ext) && Nested(w.sys.store, w.torn) && d !in w.torn && w.sys.store.JournalOf(d).Some?
    ensures RollbackSpares(w.sys.store, d)
  {
    var s := w.sys.store;
    assert RowSound(Whole(s, w.torn), d, ext);
    forall c: Candidate, ch: ChunkId, n: Name | c.Relation? && n in c.ends && ch in s.Tracked(c) && ch in s.rows[d].chunks
      ensures !(Elems(s.Tracked(Entity(n))) !! Elems(s.rows[d].chunks))
    {
      assert Committed(s, ch);
      assert ch in Elems(s.Tracked(Entity(n))) && ch in Elems(s.rows[d].chunks);
    }
  }

  lemma PlainIsPermitted(w: World, e: Event, ext: Extractor)
    requires Kept(w, ext) && NestedWorld(w, ext) && Plain(w, e, ext)
    ensures Permitted(w, e)
  {
    if e.Step? && e.a.RollBack? && w.sys.store.JournalOf(e.a.doc).Some? {
      WholeDocumentsMayBeRolledBack(w, e.a.doc, ext);
    }
  }

  lemma TrackedGrows(s: Store, m: Merge, ids: seq<ChunkId>, c: Candidate)
    requires s.Aligned()
    ensures Elems(s.Tracked(c)) <= Elems(Merged(s, m, ids).Tracked(c))
  {
    var x := Object(m);
    var full := MergeIds(KnownSources(s, x), ids);
    MergeIdsElems(KnownSources(s, x), ids);
    if m.MergeEdge? && |m.ends| != 2 {
    } else if Saturated(s, x, ids) {
    } else if m.MergeNode? {
      PutAt(s, map[x := full], c);
    } else {
      PutAt(s, Ends(s, m.ends, full)[x := full], c);
      if c.Entity? && c.name in m.ends {
        MergeIdsElems(KnownSources(s, c), s.Limit(full));
      }
    }
  }

  /** Within the limit an edge's merge brings its chunks to both ends. */
  lemma EndsAbsorb(s: Store, m: Merge, ids: seq<ChunkId>, n: Name)
    requires s.cap > 0 && m.MergeEdge? && |m.ends| == 2 && n in m.ends && FitsLimit(s, m, ids)
    ensures Elems(ids) <= Elems(Merged(s, m, ids).Tracked(Entity(n)))
  {
    var full := MergeIds(KnownSources(s, Object(m)), ids);
    MergeIdsElems(KnownSources(s, Object(m)), ids);
    PutAt(s, Ends(s, m.ends, full)[Object(m) := full], Entity(n));
    MergeIdsElems(KnownSources(s, Entity(n)), full);
  }

  lemma MergeNested(s: Store, o: Op, m: Merge, torn: set<DocId>, ext: Extractor)
    requires Kept(World(Sys(s, Some(o)), torn), ext) && Nested(s, torn) && o.pc.AtMerge? && m in MergesOf(ext, o.entries)
    ensures Nested(Merged(s, m, Mentioning(ext, o.entries, m)), torn)
  {
    var ids := Mentioning(ext, o.entries, m);
    var t := Merged(s, m, ids);
    MergeLeavesRows(s, m, ids);
    forall c, ch, n | ch in t.Tracked(c) && c.Relation? && Committed(t, ch) && ch.doc !in torn && n in c.ends
      ensures ch in t.Tracked(Entity(n))
    {
      MergeTracks(s, m, ids, c, ch);
      if ch in ids {
        EntriesAreNew(s, o, m, torn, ext, ch);
      }
      TrackedGrows(s, m, ids, Entity(n));
      assert ch in Elems(s.Tracked(Entity(n)));
    }
  }

  lemma MergeDoneNested(s: Store, o: Op, m: Merge, ext: Extractor)
    requires DoneNested(s, o, ext) && s.cap > 0 && s.Aligned() && m in MergesOf(ext, o.entries)
    requires FitsLimit(s, m, Mentioning(ext, o.entries, m))
    ensures DoneNested(Merged(s, m, Mentioning(ext, o.entries, m)), o.(done := o.done + {m}), ext)
  {
    var ids := Mentioning(ext, o.entries, m);
    var t := Merged(s, m, ids);
    MentioningElems(ext, o.entries, m);
    forall e, x, n | MergeEdge(e) in o.done + {m} && x in o.entries && e in ext(x).edges && |e| == 2 && n in e
      ensures x in t.Tracked(Entity(n))
    {
      if MergeEdge(e) in o.done {
        TrackedGrows(s, m, ids, Entity(n));
        assert x in Elems(s.Tracked(Entity(n)));
      } else {
        EndsAbsorb(s, m, ids, n);
        assert Mentions(ext, x, m);
        assert x in Elems(ids);
      }
      assert x in Elems(t.Tracked(Entity(n)));
    }
  }

  /** A step that leaves the lists alone: what it commits has reached the ends before. */
  lemma StepNested(s: Store, o: Op, a: Action, torn: set<DocId>, ext: Extractor)
    requires Kept(World(Sys(s, Some(o)), torn), ext) && Nested(s, torn) && DoneNested(s, o, ext) && !a.MergeObject?
    ensures Nested(OpStep(s, o, a, ext).store, torn)
  {
    var t := OpStep(s, o, a, ext).store;
    StepLeavesRest(s, o, a, ext);
    SameTracked(s, t);
    assert OpSound(Whole(s, torn), o, ext);
    forall c, ch, n | ch in t.Tracked(c) && c.Relation? && Committed(t, ch) && ch.doc !in torn && n in c.ends
      ensures ch in t.Tracked(Entity(n))
    {
      assert Holds(s, c, ch);
      if !Committed(s, ch) {
        CommittedNow(s, o, a, torn, ext, ch);
        assert MergeEdge(c.ends) in MergesOf(ext, o.entries);
      }
    }
  }

  lemma CommittedNow(s: Store, o: Op, a: Action, torn: set<DocId>, ext: Extractor, ch: ChunkId)
    requires OpSound(Whole(s, torn), o, ext) && OpExtra(s, o, ext) && !a.MergeObject?
    requires Committed(OpStep(s, o, a, ext).store, ch) && !Committed(s, ch)
    ensures ch in o.entries && o.pc.AtAnchors? && o.done == MergesOf(ext, o.entries)
  {
    if a.WriteCommit? && o.pc.AtAnchors? {
      CommitOwns(o);
      assert ch in CommitRow(o).chunks ==> ch in Elems(CommitRow(o).chunks);
    } else {
      RowsAfterStep(s, o, a, torn, ext);
    }
  }

  lemma OpDoneNested(s: Store, o: Op, a: Action, ext: Extractor)
    requires DoneNested(s, o, ext) && !a.MergeObject? && OpStep(s, o, a, ext).running.Some?
    ensures DoneNested(OpStep(s, o, a, ext).store, OpStep(s, o, a, ext).running.value, ext)
  {
    StepLeavesRest(s, o, a, ext);
    SameTracked(s, OpStep(s, o, a, ext).store);
  }

  lemma FewerNested(s: Store, t: Store, torn: set<DocId>, more: set<DocId>)
    requires Nested(s, torn) && TracksFewer(t, s)
    requires forall ch | Committed(t, ch) && ch.doc !in more :: Committed(s, ch) && ch.doc !in torn
    requires forall n, ch | ch in s.Tracked(Entity(n)) && Committed(t, ch) && ch.doc !in more :: ch in t.Tracked(Entity(n))
    ensures Nested(t, more)
  {
  }

  lemma RollbackNested(s: Store, d: DocId, k: nat, torn: set<DocId>, ext: Extractor)
    requires Kept(World(Sys(s, None), torn), ext) && Nested(s, torn) && s.JournalOf(d).Some?
    ensures Nested(RollbackAfter(s, d, k), StillTorn(torn, RollbackAfter(s, d, k)))
  {
    var t, job := RollbackAfter(s, d, k), RollbackJob(d, s.rows[d].journal.value);
    var kk := if k <= STAGES then k else STAGES;
    RollbackNarrows(s, d, k);
    RollbackCommits(s, d, k, torn, ext);
    RollbackIsPurge(s, d, k, After(s, job, kk));
    SameTracked(After(s, job, kk), t);
    forall n, ch | ch in s.Tracked(Entity(n)) && Committed(t, ch)
      ensures ch in t.Tracked(Entity(n))
    {
      PurgeSparesNode(s, job, kk, n, ch);
    }
    FewerNested(s, t, torn, StillTorn(torn, t));
  }

  lemma DeletionSpares(s: Store, d: DocId, lost: set<Candidate>, k: nat, n: Name, ch: ChunkId, torn: set<DocId>, ext: Extractor)
    requires Kept(World(Sys(s, None), torn), ext) && d in s.rows && s.OwnedChunks(d) != {} && k <= D.KG_STAGES
    requires ch in s.Tracked(Entity(n)) && (k == 0 || ch.doc != d)
    ensures ch in D.KgAfter(s, d, lost, k).Tracked(Entity(n))
  {
    if k > 0 {
      var job, stages := D.DeletionJob(s, d, lost), if k == D.KG_STAGES then STAGES else D.PurgeStagesAt(k);
      OwnedByDoc(s, d, torn, ext);
      DeletionStores(s, d, lost, k);
      SameTracked(After(s, job, stages), D.KgAfter(s, d, lost, k));
      PurgeSparesNode(s, job, stages, n, ch);
    }
  }

  lemma DeletionNested(s: Store, d: DocId, lost: set<Candidate>, k: nat, torn: set<DocId>, ext: Extractor)
    requires Kept(World(Sys(s, None), torn), ext) && Nested(s, torn) && d in s.rows
    ensures var w := Happens(World(Sys(s, None), torn), DeleteCall(d, lost, k), ext); Nested(w.sys.store, w.torn)
  {
    var w := Happens(World(Sys(s, None), torn), DeleteCall(d, lost, k), ext);
    var t := w.sys.store;
    var kk := if k < ROW_STAGE then k else D.KG_STAGES;
    if s.OwnedChunks(d) != {} {
      DeletionRecords(s, d, lost, kk);
      SameTracked(D.KgAfter(s, d, lost, kk), t);
      forall n, ch | ch in s.Tracked(Entity(n)) && Committed(t, ch) && ch.doc !in w.torn
        ensures ch in t.Tracked(Entity(n))
      {
        DeletionSpares(s, d, lost, kk, n, ch, torn, ext);
      }
    } else {
      SameTracked(s, t);
    }
    FewerNested(s, t, torn, w.torn);
  }

  lemma PlainStaysNested(w: World, e: Event, ext: Extractor)
    requires Kept(w, ext) && NestedWorld(w, ext) && Plain(w, e, ext)
    ensures NestedWorld(Happens(w, e, ext), ext)
  {
    var s, torn := w.sys.store, w.torn;
    match w.sys.running {
      case Some(o) =>
        assert w == World(Sys(s, Some(o)), torn);
        if e.Step? {
          AllStillTorn(torn, Next(w.sys, e.a, ext).store) by {
            if !e.a.MergeObject? {
              StepLeavesRest(s, o, e.a, ext);
            } else {
              MergeLeavesRows(s, e.a.m, Mentioning(ext, o.entries, e.a.m));
            }
          }
          if !e.a.MergeObject? {
            StepNested(s, o, e.a, torn, ext);
            if OpStep(s, o, e.a, ext).running.Some? {
              OpDoneNested(s, o, e.a, ext);
            }
          } else if o.pc.AtMerge? && MayMerge(o, e.a.m, ext) {
            MergeNested(s, o, e.a.m, torn, ext);
            MergeDoneNested(s, o, e.a.m, ext);
          }
        }
      case None =>
        assert w == World(Sys(s, None), torn);
        if e.DeleteCall? && e.doc in s.rows {
          DeletionNested(s, e.doc, e.lost, e.upTo, torn, ext);
        } else if e.Step? {
          IdleNested(s, e.a, torn, ext);
        }
    }
  }

  lemma QuietNested(s: Store, t: Store, torn: set<DocId>)
    requires Nested(s, torn) && t.tracking == s.tracking
    requires forall ch | Committed(t, ch) :: Committed(s, ch)
    ensures Nested(t, torn)
  {
    SameTracked(s, t);
    FewerNested(s, t, torn, torn);
  }

  lemma QuietNext(s: Store, a: Action, ext: Extractor)
    requires !(a.RollBack? && s.JournalOf(a.doc).Some?)
    ensures var t := Next(Sys(s, None), a, ext).store;
            && t.tracking == s.tracking && s.rows.Keys <= t.rows.Keys
            && forall ch | Committed(t, ch) :: Committed(s, ch)
  {
  }

  lemma IdleNested(s: Store, a: Action, torn: set<DocId>, ext: Extractor)
    requires Kept(World(Sys(s, None), torn), ext) && Nested(s, torn)
    ensures NestedWorld(Happens(World(Sys(s, None), torn), Step(a), ext), ext)
  {
    if a.RollBack? && s.JournalOf(a.doc).Some? {
      RollbackNested(s, a.doc, a.upTo, torn, ext);
    } else {
      var t := Next(Sys(s, None), a, ext).store;
      QuietNext(s, a, ext);
      QuietNested(s, t, torn);
      AllStillTorn(torn, t);
    }
  }

  /**
   * Within the source limit, and with half-deleted documents left to their deletion, no guard is needed: edges
   * stay nested in their ends, and every event is permitted.
   */
  lemma {:induction false} PlainRunsArePermitted(w: World, events: seq<Event>, ext: Extractor)
    requires Kept(w, ext) && NestedWorld(w, ext) && AllPlain(w, events, ext) && AllLossless(w, events, ext)
    ensures AllPermitted(w, events, ext) && NestedWorld(Run(w, events, ext), ext)
    decreases |events|
  {
    if events != [] {
      PlainIsPermitted(w, events[0], ext);
      PlainStaysNested(w, events[0], ext);
      EventKept(w, events[0], ext);
      PlainRunsArePermitted(Happens(w, events[0], ext), events[1..], ext);
    }
  }

  // ---------------------------------------------------------------- lost rebuilds

  /** A deletion that has done its graph stages leaves no reference to the document's chunks exactly when it lost none. */
  lemma DeletionClearsIff(w: World, d: DocId, lost: set<Candidate>, ext: Extractor)
    requires Kept(w, ext) && w.sys.running.None? && d in w.sys.store.rows && w.sys.store.OwnedChunks(d) != {}
    ensures var s := w.sys.store;
            NamedBy(D.KgDeleted(s, d, lost), s.OwnedChunks(d), {}) <==> Harmless(s, D.DeletionJob(s, d, lost))
  {
    var s := w.sys.store;
    var job := D.DeletionJob(s, d, lost);
    assert w == World(Sys(s, None), w.torn);
    OwnedIsNamed(s, d, w.torn, ext);
    DeletionStores(s, d, lost, D.KG_STAGES);
    SameLists(After(s, job, STAGES), D.KgDeleted(s, d, lost));
    PurgeClears(s, job, STAGES);
  }
}
