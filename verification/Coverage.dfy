/**
 * Runs of the whole system: any number of documents, each with its own operations that fail, crash,
 * resume or are rolled back to any stage. Whatever a staged chunk has reached in the graph is named
 * in the journal of its document.
 */
module Coverage {
  import opened Basics
  import opened Sources
  import opened Stores
  import opened Purge
  import opened Merging
  import opened CustomChunks

  /** The object records the chunk, in its tracking row or in the graph itself. */
  predicate Holds(s: Store, c: Candidate, ch: ChunkId) {
    ch in s.Tracked(c) || (c in s.graph && ch in s.graph[c])
  }

  ghost predicate Narrower(t: Store, s: Store) {
    forall c, ch | Holds(t, c, ch) :: Holds(s, c, ch)
  }

  ghost predicate NamedBy(s: Store, chunks: set<ChunkId>, cands: set<Candidate>) {
    forall c, ch | Holds(s, c, ch) && ch in chunks :: c in cands
  }

  // ---------------------------------------------------------------- what a purge does to the records

  /** A purge stopped anywhere has only taken records away. */
  lemma PurgeNarrows(s: Store, job: Job, k: nat)
    requires s.Aligned() && k <= STAGES
    ensures Narrower(After(s, job, k), s)
  {
    if job.ids != {} {
      var p, t := MakePlan(s, job), After(s, job, k);
      StagesDirect(s, p, job, k);
      forall c, ch | Holds(t, c, ch)
        ensures Holds(s, c, ch)
      {
        if c in p.rebuild {
          SubtractElems(s.tracking[c], job.ids);
          LimitedElems(p.rebuild[c], s.cap, s.fifo);
          assert ch in Elems(p.rebuild[c]) ==> ch in Elems(s.tracking[c]);
          assert ch in Elems(t.Tracked(c)) ==> ch in Elems(p.rebuild[c]) + Elems(s.tracking[c]);
          assert c in t.graph && ch in t.graph[c] ==> ch in Elems(s.Limit(p.rebuild[c])) || ch in s.graph[c];
        }
      }
    }
  }

  /** Best-effort rebuild loses an object that outlives the purge and that the graph lists with a purged chunk. */
  ghost predicate StaleAt(s: Store, job: Job, c: Candidate) {
    && job.policy.BestEffort? && c in job.lost && c in Candidates(s, job) && c in s.graph
    && c !in Gone(s, MakePlan(s, job)) && !(Elems(s.graph[c]) !! job.ids)
  }

  ghost predicate Harmless(s: Store, job: Job) {
    forall c | c in job.lost :: !StaleAt(s, job, c)
  }

  lemma RecordAfterRebuild(s: Store, job: Job, k: nat, c: Candidate)
    requires 4 <= k <= STAGES && job.ids != {}
    ensures var p, t := MakePlan(s, job), After(s, job, k);
            && (c in t.tracking ==> (c in s.tracking || c in p.rebuild) && t.tracking[c] == if c in p.rebuild then p.rebuild[c] else s.tracking[c])
            && (c in t.graph <==> c in s.graph && c !in Gone(s, p))
            && (c in t.graph ==> t.graph[c] == if c in Rebuilt(s, p, job) then s.Limit(p.rebuild[c]) else s.graph[c])
  {
    StagesDirect(s, MakePlan(s, job), job, k);
  }

  /** Behind the rebuild stage only a lost rebuild leaves a reference to a purged chunk. */
  lemma PurgedRecord(s: Store, job: Job, k: nat, c: Candidate, ch: ChunkId)
    requires s.Aligned() && 4 <= k <= STAGES && job.ids != {} && NamedBy(s, job.ids, Candidates(s, job))
    requires Holds(After(s, job, k), c, ch)
    ensures ch in job.ids ==> StaleAt(s, job, c)
  {
    var p, t := MakePlan(s, job), After(s, job, k);
    RecordAfterRebuild(s, job, k, c);
    PurgeKeepsAligned(s, job, k);
    assert c in t.graph;
    SubtractElems(s.tracking[c], job.ids);
    SubtractUnchanged(s.tracking[c], job.ids);
    if c in p.rebuild {
      LimitedElems(p.rebuild[c], s.cap, s.fifo);
      assert ch in job.ids ==> ch !in Elems(p.rebuild[c]);
    } else {
      assert Holds(s, c, ch);
    }
  }

  lemma StaleRecord(s: Store, job: Job, k: nat, c: Candidate)
    requires s.Aligned() && 4 <= k <= STAGES && job.ids != {} && StaleAt(s, job, c)
    ensures exists ch :: ch in job.ids && Holds(After(s, job, k), c, ch)
  {
    var ch :| ch in Elems(s.graph[c]) && ch in job.ids;
    RecordAfterRebuild(s, job, k, c);
    assert Holds(After(s, job, k), c, ch);
  }

  /**
   * Behind the rebuild stage nothing refers to a purged chunk, if the candidates named all that did, exactly
   * when best-effort rebuild did not lose an object that the graph lists with one.
   */
  lemma PurgeClears(s: Store, job: Job, k: nat)
    requires s.Aligned() && 4 <= k <= STAGES && job.ids != {}
    requires NamedBy(s, job.ids, Candidates(s, job))
    ensures NamedBy(After(s, job, k), job.ids, {}) <==> Harmless(s, job)
  {
    if Harmless(s, job) {
      forall c, ch | Holds(After(s, job, k), c, ch)
        ensures ch !in job.ids
      {
        PurgedRecord(s, job, k, c, ch);
      }
    } else {
      var c :| c in job.lost && StaleAt(s, job, c);
      StaleRecord(s, job, k, c);
    }
  }

  // ---------------------------------------------------------------- the invariant

  /** The chunks of an operation that the document does not own yet. */
  function PendingOf(chunks: seq<ChunkId>, mode: Mode, op: seq<ChunkId>): seq<ChunkId> {
    if mode.Patch? then Unseen(op, set ch | ch in chunks :: ch.text) else op
  }

  ghost predicate JournalSound(d: DocId, chunks: seq<ChunkId>, j: Journal, ext: Extractor) {
    && (forall ch | ch in j.op :: ch.doc == d)
    && j.chunks == PendingOf(chunks, j.mode, j.op)
    && (j.mode.Create? ==> chunks == [])
    && (j.cands == {} || j.cands == CandidatesOf(ext, j.chunks))
  }

  ghost predicate RowSound(s: Store, d: DocId, ext: Extractor)
    requires d in s.rows
  {
    var row := s.rows[d];
    && (forall ch | ch in row.chunks :: ch.doc == d && ch in s.text)
    && (row.journal.Some? ==>
          && JournalSound(d, row.chunks, row.journal.value, ext)
          && NamedBy(s, Elems(row.journal.value.chunks), row.journal.value.cands))
  }

  /** Every recorded chunk is committed or staged by its own document. */
  ghost predicate AllOwned(s: Store) {
    forall c, ch | Holds(s, c, ch) :: ch in s.OwnedChunks(ch.doc)
  }

  function OpJournal(o: Op, phase: Phase): Journal {
    Journal(o.op, o.mode, o.entries, o.cands, phase)
  }

  /** The running operation agrees with the journal in the row, up to the commit record. */
  ghost predicate OpSound(s: Store, o: Op, ext: Extractor) {
    && o.doc in s.rows
    && (forall ch | ch in o.base :: ch.doc == o.doc && ch in s.text)
    && JournalSound(o.doc, o.base, OpJournal(o, Prepared), ext)
    && NamedBy(s, Elems(o.entries), o.cands)
    && (o.pc.AtCommit? ==> s.rows[o.doc] == CommitRow(o))
    && (!o.pc.AtCommit? ==>
          && s.rows[o.doc].chunks == o.base && s.rows[o.doc].journal.Some?
          && s.rows[o.doc].journal.value == OpJournal(o, s.rows[o.doc].journal.value.phase))
    && (o.pc.AtJournal? || o.pc.AtChunks? || o.cands == CandidatesOf(ext, o.entries))
    && (o.pc.AtJournal? || Elems(o.entries) <= s.text)
  }

  ghost predicate Covered(sys: Sys, ext: Extractor) {
    var s := sys.store;
    && s.cap > 0 && s.Aligned() && AllOwned(s)
    && (forall d | d in s.rows :: RowSound(s, d, ext))
    && (sys.running.Some? ==> OpSound(s, sys.running.value, ext))
  }

  // ---------------------------------------------------------------- calls

  lemma PendingIsNew(chunks: seq<ChunkId>, mode: Mode, op: seq<ChunkId>)
    requires mode.Create? ==> chunks == []
    ensures Elems(PendingOf(chunks, mode, op)) !! Elems(chunks)
    ensures Elems(PendingOf(chunks, mode, op)) <= Elems(op)
  {
    if mode.Patch? {
      UnseenElems(op, set ch | ch in chunks :: ch.text);
    }
  }

  lemma StillPendingIs(s: Store, row: Row, mode: Mode, op: seq<ChunkId>)
    requires forall ch | ch in row.chunks :: ch in s.text
    ensures StillPending(s, row, mode, op) == PendingOf(row.chunks, mode, op)
  {
    assert CommittedTexts(s, row) == set ch | ch in row.chunks :: ch.text;
  }

  /** The operation that an admitted call launches. */
  lemma LaunchSound(s: Store, d: DocId, texts: seq<string>, ext: Extractor)
    requires Covered(Sys(s, None), ext) && CallStep(Sys(s, None), d, texts).running.Some?
    ensures var o := CallStep(Sys(s, None), d, texts).running.value;
            && o.doc == d && o.pc.AtJournal? && o.base == (if d in s.rows then s.rows[d].chunks else [])
            && JournalSound(d, o.base, OpJournal(o, Prepared), ext)
            && (s.JournalOf(d).Some? ==> o.entries == s.JournalOf(d).value.chunks && o.cands == s.JournalOf(d).value.cands)
            && (s.JournalOf(d).None? ==> o.cands == {})
  {
    EntriesAre(d, texts);
    if d in s.rows {
      assert RowSound(s, d, ext);
      var o := CallStep(Sys(s, None), d, texts).running.value;
      StillPendingIs(s, s.rows[d], o.mode, o.op);
    }
  }

  lemma LaunchNamed(s: Store, d: DocId, texts: seq<string>, ext: Extractor)
    requires Covered(Sys(s, None), ext) && CallStep(Sys(s, None), d, texts).running.Some?
    ensures var o := CallStep(Sys(s, None), d, texts).running.value; NamedBy(s, Elems(o.entries), o.cands)
  {
    var o := CallStep(Sys(s, None), d, texts).running.value;
    LaunchSound(s, d, texts, ext);
    PendingIsNew(o.base, o.mode, o.op);
    if d in s.rows {
      assert RowSound(s, d, ext);
    }
    forall c, ch | Holds(s, c, ch) && ch in Elems(o.entries)
      ensures c in o.cands
    {
      assert ch in Elems(o.op) && ch.doc == d && ch in s.OwnedChunks(d);
    }
  }

  lemma CallCovered(sys: Sys, d: DocId, texts: seq<string>, ext: Extractor)
    requires Covered(sys, ext) && sys.running.None?
    ensures Covered(CallStep(sys, d, texts), ext)
  {
    var s, n := sys.store, CallStep(sys, d, texts);
    if n != sys {
      assert sys == Sys(s, None);
      var o, t := n.running.value, n.store;
      LaunchSound(s, d, texts, ext);
      LaunchNamed(s, d, texts, ext);
      if d in s.rows {
        assert RowSound(s, d, ext);
      }
      SameRecordsCovered(s, t, d, ext);
      SameLists(s, t);
    }
  }

  /** A row update that keeps ownership and leaves the other documents alone. */
  lemma SameRecordsCovered(s: Store, t: Store, d: DocId, ext: Extractor)
    requires AllOwned(s) && s.Aligned() && forall x | x in s.rows && x != d :: RowSound(s, x, ext)
    requires t.tracking == s.tracking && t.graph == s.graph && t.index == s.index && s.text <= t.text
    requires forall x | x != d :: (x in t.rows <==> x in s.rows) && (x in t.rows ==> t.rows[x] == s.rows[x])
    requires s.OwnedChunks(d) <= t.OwnedChunks(d)
    ensures AllOwned(t) && t.Aligned() && forall x | x in t.rows && x != d :: RowSound(t, x, ext)
  {
    forall c, ch | Holds(t, c, ch)
      ensures ch in t.OwnedChunks(ch.doc)
    {
      assert Holds(s, c, ch);
    }
    forall x | x in t.rows && x != d
      ensures RowSound(t, x, ext)
    {
      assert RowSound(s, x, ext);
      if t.rows[x].journal.Some? {
        var j := t.rows[x].journal.value;
        forall c, ch | Holds(t, c, ch) && ch in Elems(j.chunks)
          ensures c in j.cands
        {
          assert Holds(s, c, ch);
        }
      }
    }
  }

  // ---------------------------------------------------------------- steps of the running operation

  lemma CommitOwns(o: Op)
    ensures Elems(o.entries) <= Elems(CommitRow(o).chunks) <= Elems(o.base) + Elems(o.entries)
    ensures (o.mode.Create? ==> o.base == []) ==> Elems(CommitRow(o).chunks) == Elems(o.base) + Elems(o.entries)
  {
    AppendNewElems([], o.base + o.entries);
    assert Elems(o.base + o.entries) == Elems(o.base) + Elems(o.entries);
  }

  /** What a running operation's document owns does not change from the first journal write to the commit. */
  lemma StepOwns(s: Store, o: Op, a: Action, ext: Extractor)
    requires OpSound(s, o, ext) && !a.MergeObject?
    ensures s.OwnedChunks(o.doc) == Elems(o.base) + Elems(o.entries) == OpStep(s, o, a, ext).store.OwnedChunks(o.doc)
  {
    CommitOwns(o);
  }

  lemma StepLeavesRest(s: Store, o: Op, a: Action, ext: Extractor)
    requires !a.MergeObject?
    ensures var t := OpStep(s, o, a, ext).store;
            && t.tracking == s.tracking && t.graph == s.graph && t.index == s.index && s.text <= t.text && t.cap == s.cap
            && forall x | x != o.doc :: (x in t.rows <==> x in s.rows) && (x in t.rows ==> t.rows[x] == s.rows[x])
  {
    match a {
      case StageChunks =>
      case JournalCandidates =>
      case WriteCommit =>
      case Fail =>
      case _ =>
    }
  }

  lemma StepCovered(s: Store, o: Op, a: Action, ext: Extractor)
    requires Covered(Sys(s, Some(o)), ext) && !a.MergeObject?
    ensures Covered(OpStep(s, o, a, ext), ext)
  {
    var n := OpStep(s, o, a, ext);
    StepOwns(s, o, a, ext);
    StepLeavesRest(s, o, a, ext);
    SameRecordsCovered(s, n.store, o.doc, ext);
    if a.StageChunks? || a.JournalCandidates? || a.PrewriteAnchors? || a.UnionAnchors? {
      RowAfterStage(s, o, a, ext);
    } else {
      RowAfterEnd(s, o, a, ext);
    }
    forall d | d in n.store.rows
      ensures RowSound(n.store, d, ext)
    {
    }
  }

  lemma StillNamed(s: Store, t: Store, o: Op, ext: Extractor)
    requires OpSound(s, o, ext) && t.tracking == s.tracking && t.graph == s.graph
    ensures NamedBy(t, Elems(o.entries), o.cands) && NamedBy(t, Elems(o.entries), CandidatesOf(ext, o.entries))
  {
    forall c, ch | Holds(t, c, ch) && ch in Elems(o.entries)
      ensures c in o.cands && c in CandidatesOf(ext, o.entries)
    {
      assert Holds(s, c, ch);
      assert o.cands != {};
    }
  }

  lemma RowAfterStage(s: Store, o: Op, a: Action, ext: Extractor)
    requires OpSound(s, o, ext) && o.doc in s.rows && RowSound(s, o.doc, ext)
    requires a.StageChunks? || a.JournalCandidates? || a.PrewriteAnchors? || a.UnionAnchors?
    ensures var n := OpStep(s, o, a, ext);
            && o.doc in n.store.rows && RowSound(n.store, o.doc, ext)
            && n.running.Some? && OpSound(n.store, n.running.value, ext)
  {
    var n := OpStep(s, o, a, ext);
    StepLeavesRest(s, o, a, ext);
    StillNamed(s, n.store, o, ext);
  }

  lemma RowAfterEnd(s: Store, o: Op, a: Action, ext: Extractor)
    requires OpSound(s, o, ext) && o.doc in s.rows && RowSound(s, o.doc, ext)
    requires a.WriteCommit? || a.Return? || a.Fail? || a.Crash? || a.Call? || a.RollBack?
    ensures var n := OpStep(s, o, a, ext);
            && o.doc in n.store.rows && RowSound(n.store, o.doc, ext)
            && (n.running.Some? ==> OpSound(n.store, n.running.value, ext))
  {
    var n := OpStep(s, o, a, ext);
    StepLeavesRest(s, o, a, ext);
    StillNamed(s, n.store, o, ext);
    CommitOwns(o);
    PendingIsNew(o.base, o.mode, o.op);
    forall ch | ch in CommitRow(o).chunks
      ensures ch.doc == o.doc && (o.pc.AtJournal? || ch in s.text)
    {
      assert ch in Elems(CommitRow(o).chunks);
      assert ch in Elems(o.base) || (ch in Elems(o.entries) && ch in Elems(o.op));
    }
  }

  lemma InLimit(s: Store, list: seq<ChunkId>, ch: ChunkId)
    requires ch in s.Limit(list)
    ensures ch in list
  {
    LimitedElems(list, s.cap, s.fifo);
    assert ch in Elems(s.Limit(list));
  }

  lemma InMerge(s: Store, c: Candidate, ids: seq<ChunkId>, ch: ChunkId)
    requires ch in MergeIds(KnownSources(s, c), ids)
    ensures Holds(s, c, ch) || ch in ids
  {
    MergeIdsElems(KnownSources(s, c), ids);
    assert ch in Elems(MergeIds(KnownSources(s, c), ids));
    assert ch in Elems(KnownSources(s, c)) || ch in Elems(ids);
  }

  lemma InEnd(s: Store, n: Name, full: seq<ChunkId>, ch: ChunkId)
    requires ch in EndAfter(s, n, full)
    ensures Holds(s, Entity(n), ch) || ch in full
  {
    if Entity(n) in s.graph {
      InMerge(s, Entity(n), s.Limit(full), ch);
      if ch in s.Limit(full) {
        InLimit(s, full, ch);
      }
    }
  }

  /** A list put for an object records only what it lists. */
  lemma PutRecords(s: Store, tracked: map<Candidate, seq<ChunkId>>, c: Candidate, ch: ChunkId)
    requires Holds(Put(s, tracked), c, ch)
    ensures if c in tracked then ch in tracked[c] else Holds(s, c, ch)
  {
    PutAt(s, tracked, c);
    if c in tracked && ch in s.Limit(tracked[c]) {
      InLimit(s, tracked[c], ch);
    }
  }

  /** A merge adds its chunks to its object, and for an edge the edge's whole list to both ends. */
  lemma MergeRecords(s: Store, m: Merge, ids: seq<ChunkId>, c: Candidate, ch: ChunkId)
    requires Holds(Merged(s, m, ids), c, ch)
    ensures || Holds(s, c, ch)
            || (c == Object(m) && ch in ids)
            || (m.MergeEdge? && c.Entity? && c.name in m.ends && (ch in ids || Holds(s, Relation(m.ends), ch)))
  {
    var x := Object(m);
    var full := MergeIds(KnownSources(s, x), ids);
    if m.MergeEdge? && |m.ends| != 2 {
    } else if Saturated(s, x, ids) {
      assert Merged(s, m, ids).graph == s.graph;
      if c == x && ch in full {
        InMerge(s, x, ids, ch);
      }
    } else if m.MergeNode? {
      PutRecords(s, map[x := full], c, ch);
      if c == x {
        InMerge(s, x, ids, ch);
      }
    } else {
      PutRecords(s, Ends(s, m.ends, full)[x := full], c, ch);
      if c == x {
        InMerge(s, x, ids, ch);
      } else if c in Ends(s, m.ends, full) {
        InEnd(s, c.name, full, ch);
        if ch in full {
          InMerge(s, x, ids, ch);
        }
      }
    }
  }

  lemma MergeLeavesRows(s: Store, m: Merge, ids: seq<ChunkId>)
    ensures var t := Merged(s, m, ids); t.rows == s.rows && t.text == s.text && t.cap == s.cap
  {
  }

  lemma MergeCovered(s: Store, o: Op, m: Merge, ext: Extractor)
    requires Covered(Sys(s, Some(o)), ext) && o.pc.AtMerge? && MayMerge(o, m, ext)
    ensures Covered(OpStep(s, o, MergeObject(m), ext), ext)
  {
    var ids := Mentioning(ext, o.entries, m);
    var t := Merged(s, m, ids);
    MentionedHere(ext, o.entries, m);
    MergeAligned(s, m, ids);
    MergeLeavesRows(s, m, ids);
    forall c, ch | Holds(t, c, ch)
      ensures ch in t.OwnedChunks(ch.doc)
    {
      MergedRecordNamed(s, o, m, c, ch, ext);
    }
    forall d | d in t.rows
      ensures RowSound(t, d, ext)
    {
      assert RowSound(s, d, ext);
      if t.rows[d].journal.Some? {
        forall c, ch | Holds(t, c, ch) && ch in Elems(t.rows[d].journal.value.chunks)
          ensures c in t.rows[d].journal.value.cands
        {
          MergedRecordNamed(s, o, m, c, ch, ext);
        }
      }
    }
    assert RowSound(t, o.doc, ext);
    assert OpSound(t, o.(done := o.done + {m}), ext);
  }

  lemma MentionedHere(ext: Extractor, entries: seq<ChunkId>, m: Merge)
    requires m in MergesOf(ext, entries)
    ensures Mentioning(ext, entries, m) != []
  {
    MentioningElems(ext, entries, m);
    var ch :| ch in entries && Mentions(ext, ch, m);
    assert ch in Elems(Mentioning(ext, entries, m));
  }

  lemma MergedRecordNamed(s: Store, o: Op, m: Merge, c: Candidate, ch: ChunkId, ext: Extractor)
    requires Covered(Sys(s, Some(o)), ext) && o.pc.AtMerge? && m in MergesOf(ext, o.entries)
    requires Holds(Merged(s, m, Mentioning(ext, o.entries, m)), c, ch)
    ensures ch in s.OwnedChunks(ch.doc)
    ensures forall d | d in s.rows && s.rows[d].journal.Some? && ch in Elems(s.rows[d].journal.value.chunks) ::
      c in s.rows[d].journal.value.cands
  {
    var ids := Mentioning(ext, o.entries, m);
    MentioningElems(ext, o.entries, m);
    MergesAreCandidates(ext, o.entries, m);
    MergeRecords(s, m, ids, c, ch);
    PendingIsNew(o.base, o.mode, o.op);
    if ch in ids {
      assert ch in Elems(ids) && ch in Elems(o.op) && ch.doc == o.doc;
    }
    forall d | d in s.rows && s.rows[d].journal.Some? && ch in Elems(s.rows[d].journal.value.chunks)
      ensures c in s.rows[d].journal.value.cands
    {
      var j := s.rows[d].journal.value;
      assert RowSound(s, d, ext);
      PendingIsNew(s.rows[d].chunks, j.mode, j.op);
      assert ch in Elems(j.op) && ch.doc == d;
      if Holds(s, c, ch) {
      } else if ch in ids {
        assert d == o.doc;
      } else {
        assert Relation(m.ends) in j.cands;
        CandidatesClosed(ext, j.chunks, m.ends, c.name);
      }
    }
  }

  // ---------------------------------------------------------------- rollback

  lemma PruneTouchesAnchors(s: Store, d: DocId, j: Journal, owned: set<ChunkId>)
    ensures Pruned(s, d, j, owned) == s.(anchors := Pruned(s, d, j, owned).anchors)
  {
  }

  /** The records of a rollback are those of its purge; the steps behind it touch anchors, bodies and rows. */
  lemma RollbackIsPurge(s: Store, d: DocId, k: nat, p: Store)
    requires s.JournalOf(d).Some?
    requires p == After(s, RollbackJob(d, s.rows[d].journal.value), if k <= STAGES then k else STAGES)
    ensures var t := RollbackAfter(s, d, k); t == p.(rows := t.rows, bodies := t.bodies, anchors := t.anchors)
  {
    var row, j := s.rows[d], s.rows[d].journal.value;
    PruneTouchesAnchors(p, d, j, Elems(row.chunks) - Elems(j.chunks));
  }

  lemma RollbackRecords(s: Store, d: DocId, k: nat, ext: Extractor)
    requires Covered(Sys(s, None), ext) && s.JournalOf(d).Some?
    ensures var t := RollbackAfter(s, d, k);
            && t.Aligned() && Narrower(t, s) && t.cap == s.cap
            && (k > STAGES ==> NamedBy(t, Elems(s.rows[d].journal.value.chunks), {}))
            && s.text - Elems(s.rows[d].journal.value.chunks) <= t.text
  {
    var j := s.rows[d].journal.value;
    var job := RollbackJob(d, j);
    var kk := if k <= STAGES then k else STAGES;
    var p, t := After(s, job, kk), RollbackAfter(s, d, k);
    RollbackIsPurge(s, d, k, p);
    PurgeKeepsAligned(s, job, kk);
    PurgeNarrows(s, job, kk);
    if job.ids != {} {
      StagesDirect(s, MakePlan(s, job), job, kk);
    }
    assert RowSound(s, d, ext);
    SameLists(p, t);
    if k > STAGES && job.ids != {} {
      PurgeClears(s, job, STAGES);
    }
  }

  lemma SameLists(p: Store, t: Store)
    requires t.tracking == p.tracking && t.graph == p.graph
    ensures forall c, ch :: Holds(t, c, ch) <==> Holds(p, c, ch)
  {
    forall c
      ensures t.Tracked(c) == p.Tracked(c)
    {
    }
  }

  lemma RollbackRow(s: Store, d: DocId, k: nat)
    requires s.JournalOf(d).Some?
    ensures var t := RollbackAfter(s, d, k);
            forall x | x != d :: (x in t.rows <==> x in s.rows) && (x in t.rows ==> t.rows[x] == s.rows[x])
    ensures var t, row := RollbackAfter(s, d, k), s.rows[d];
            var j := row.journal.value;
            if k <= STAGES then t.rows == s.rows
            else if j.mode.Create? then d !in t.rows
            else if k < ROLLBACK_STAGES then t.rows == s.rows
            else d in t.rows && t.rows[d] == RestoredRow(row, j)
  {
    var job := RollbackJob(d, s.rows[d].journal.value);
    PurgeLeavesRows(s, job, if k <= STAGES then k else STAGES);
  }

  lemma PurgeLeavesRows(s: Store, job: Job, k: nat)
    requires k <= STAGES
    ensures After(s, job, k).rows == s.rows
  {
    if job.ids != {} {
      StagesDirect(s, MakePlan(s, job), job, k);
    }
  }

  lemma RollbackOwns(s: Store, d: DocId, k: nat, c: Candidate, ch: ChunkId, ext: Extractor)
    requires Covered(Sys(s, None), ext) && s.JournalOf(d).Some?
    requires Holds(RollbackAfter(s, d, k), c, ch)
    ensures ch in RollbackAfter(s, d, k).OwnedChunks(ch.doc)
  {
    var t, row := RollbackAfter(s, d, k), s.rows[d];
    var j := row.journal.value;
    RollbackRecords(s, d, k, ext);
    RollbackRow(s, d, k);
    assert Holds(s, c, ch);
    assert RowSound(s, d, ext);
    PendingIsNew(row.chunks, j.mode, j.op);
    if ch.doc == d && k > STAGES {
      SubtractNothing(row.chunks, Elems(j.chunks));
    }
  }

  lemma RollbackCovered(s: Store, d: DocId, k: nat, ext: Extractor)
    requires Covered(Sys(s, None), ext) && s.JournalOf(d).Some?
    ensures Covered(Sys(RollbackAfter(s, d, k), None), ext)
  {
    var t, row := RollbackAfter(s, d, k), s.rows[d];
    var j := row.journal.value;
    RollbackRecords(s, d, k, ext);
    RollbackRow(s, d, k);
    PendingIsNew(row.chunks, j.mode, j.op);
    assert RowSound(s, d, ext);
    SubtractNothing(row.chunks, Elems(j.chunks));
    forall c, ch | Holds(t, c, ch)
      ensures ch in t.OwnedChunks(ch.doc)
    {
      RollbackOwns(s, d, k, c, ch, ext);
    }
    forall x | x in t.rows
      ensures RowSound(t, x, ext)
    {
      assert RowSound(s, x, ext);
      assert t.rows[x].chunks == s.rows[x].chunks;
      forall ch | ch in t.rows[x].chunks
        ensures ch in t.text
      {
        assert ch in Elems(j.chunks) ==> ch in Elems(j.op) && ch.doc == d;
        assert ch in Elems(t.rows[x].chunks);
      }
    }
  }

  // ---------------------------------------------------------------- runs

  lemma NextCovered(sys: Sys, a: Action, ext: Extractor)
    requires Covered(sys, ext)
    ensures Covered(Next(sys, a, ext), ext)
  {
    match sys.running {
      case Some(o) =>
        assert sys == Sys(sys.store, Some(o));
        if a.MergeObject? {
          if o.pc.AtMerge? && MayMerge(o, a.m, ext) {
            MergeCovered(sys.store, o, a.m, ext);
          }
        } else {
          StepCovered(sys.store, o, a, ext);
        }
      case None =>
        assert sys == Sys(sys.store, None);
        if a.Call? {
          CallCovered(sys, a.doc, a.texts, ext);
        } else if a.RollBack? && sys.store.JournalOf(a.doc).Some? {
          RollbackCovered(sys.store, a.doc, a.upTo, ext);
        }
    }
  }

  /** The invariant holds over whole runs, on any documents, in any interleaving. */
  lemma {:induction false} RunsStayCovered(sys: Sys, actions: seq<Action>, ext: Extractor)
    requires Covered(sys, ext)
    ensures Covered(Exec(sys, actions, ext), ext)
    decreases |actions|
  {
    if actions != [] {
      NextCovered(sys, actions[0], ext);
      RunsStayCovered(Next(sys, actions[0], ext), actions[1..], ext);
    }
  }

  /**
   * Write-ahead coverage: in every reachable state, an object that records a staged chunk of an
   * unfinished operation is named in that document's journal, and no staged chunk is in a chunk list.
   */
  lemma StagedChunksAreNamed(sys: Sys, actions: seq<Action>, ext: Extractor, d: DocId, c: Candidate, ch: ChunkId)
    requires Covered(sys, ext)
    requires var s := Exec(sys, actions, ext).store;
             s.JournalOf(d).Some? && ch in s.JournalOf(d).value.chunks && Holds(s, c, ch)
    ensures var s := Exec(sys, actions, ext).store;
            c in s.JournalOf(d).value.cands && ch !in s.rows[d].chunks
  {
    RunsStayCovered(sys, actions, ext);
    var s := Exec(sys, actions, ext).store;
    assert RowSound(s, d, ext);
    var j := s.rows[d].journal.value;
    assert ch in Elems(j.chunks);
    PendingIsNew(s.rows[d].chunks, j.mode, j.op);
    assert ch in Elems(s.rows[d].chunks) ==> false;
  }

  /** No step changes the chunk list of a row while its journal stands, whichever document it works on. */
  lemma JournaledRowKeepsItsBase(sys: Sys, a: Action, ext: Extractor, d: DocId)
    requires Covered(sys, ext)
    requires sys.store.JournalOf(d).Some? && Next(sys, a, ext).store.JournalOf(d).Some?
    ensures Next(sys, a, ext).store.rows[d].chunks == sys.store.rows[d].chunks
    ensures a.Call? || sys.running.None? || Elems(Next(sys, a, ext).store.JournalOf(d).value.chunks) == Elems(sys.store.JournalOf(d).value.chunks)
  {
    if sys.running.None? && a.RollBack? && sys.store.JournalOf(a.doc).Some? {
      RollbackRow(sys.store, a.doc, a.upTo);
      RollbackRecords(sys.store, a.doc, a.upTo, ext);
    }
  }

  /** A journal ends in a commit that adds exactly the staged chunks, or in a rollback to exactly the base. */
  lemma JournalEnds(sys: Sys, a: Action, ext: Extractor, d: DocId)
    requires Covered(sys, ext)
    requires sys.store.JournalOf(d).Some? && Next(sys, a, ext).store.JournalOf(d).None?
    ensures var row, t := sys.store.rows[d], Next(sys, a, ext).store;
            || (d in t.rows && t.rows[d].status.Processed? && a.WriteCommit?
                && Elems(t.rows[d].chunks) == Elems(row.chunks) + Elems(row.journal.value.chunks))
            || (a.RollBack? && a.doc == d && row.journal.value.mode.Patch? && d in t.rows
                && t.rows[d] == Row(Processed, row.chunks, None))
            || (a.RollBack? && a.doc == d && row.journal.value.mode.Create? && d !in t.rows)
  {
    assert RowSound(sys.store, d, ext);
    var row := sys.store.rows[d];
    var j := row.journal.value;
    PendingIsNew(row.chunks, j.mode, j.op);
    SubtractNothing(row.chunks, Elems(j.chunks));
    match sys.running {
      case Some(o) =>
        CommitOwns(o);
      case None =>
        if a.RollBack? && sys.store.JournalOf(a.doc).Some? {
          RollbackRow(sys.store, a.doc, a.upTo);
          RollbackRecords(sys.store, a.doc, a.upTo, ext);
        }
    }
  }
}
