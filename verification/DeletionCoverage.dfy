/**
 * Runs with deletions as well: documents may also be deleted, and a deletion may stop at any stage and be
 * called again. Nothing then refers to a chunk that the durable records of its document do not lead to, and
 * nothing refers to a deleted document.
 */
module DeletionCoverage {
  import opened Basics
  import opened Sources
  import opened Stores
  import opened Purge
  import opened Merging
  import opened CustomChunks
  import opened Coverage
  import D = Deletion

  datatype Event = Step(a: Action) | DeleteCall(doc: DocId, lost: set<Candidate>, upTo: nat)

  /** `torn` are the documents whose deletion has begun and not ended. */
  datatype World = World(sys: Sys, torn: set<DocId>)

  /** Behind the graph stages come the row and then the body. */
  const ROW_STAGE := 7

  function WithoutRow(s: Store, d: DocId, k: nat): Store {
    s.(rows := s.rows - {d}, bodies := if k > ROW_STAGE then s.bodies - {d} else s.bodies)
  }

  /**
   * The stores when a deletion stops behind its first `k` stages. A document without chunks has no graph
   * stages, and when its body cannot be deleted the handler writes its record back.
   */
  function DeleteStore(s: Store, d: DocId, lost: set<Candidate>, k: nat): Store {
    if s.OwnedChunks(d) == {} then (if k <= ROW_STAGE then s else WithoutRow(s, d, k))
    else if k < ROW_STAGE then D.KgAfter(s, d, lost, k)
    else WithoutRow(D.KgDeleted(s, d, lost), d, k)
  }

  /** The stage of a whole deletion call up to which its stages bring the stores. */
  function CallStage(k: nat): nat {
    if k == 0 then 0 else if k < D.KG_STAGES then k + 1 else if k == D.KG_STAGES then D.ANCHORS else if k == ROW_STAGE then D.ROW else D.BODY
  }

  /** What the stores are after a failed call, or after one that succeeds. */
  lemma DeleteStoreIsCall(disk: D.Disk, d: DocId, withCache: bool, lost: set<Candidate>, k: nat, removed: set<D.CacheId>)
    requires d in disk.kg.rows && k <= ROW_STAGE + 1
    ensures DeleteStore(disk.kg, d, lost, k)
         == (if k > ROW_STAGE then D.Progress(disk, d, withCache, lost, D.BODY).kg
             else D.FailedCall(disk, d, withCache, lost, CallStage(k), removed).kg)
  {
    var K := CallStage(k);
    if k > ROW_STAGE {
    } else if disk.kg.OwnedChunks(d) == {} {
      D.BareDocument(disk, d, withCache, lost, K, removed);
    } else if k < ROW_STAGE {
      D.RowSurvives(disk, d, withCache, lost, K, removed);
      assert D.KgStagesDone(K) == k;
    }
  }

  function Happens(w: World, e: Event, ext: Extractor): World {
    match e
    case Step(a) =>
      var n := Next(w.sys, a, ext);
      World(n, set d | d in w.torn && d in n.store.rows)
    case DeleteCall(d, lost, k) =>
      if w.sys.running.Some? || d !in w.sys.store.rows then w
      else
        var t := DeleteStore(w.sys.store, d, lost, k);
        World(Sys(t, None),
              if d !in t.rows then w.torn - {d} else if k > 0 && w.sys.store.OwnedChunks(d) != {} then w.torn + {d} else w.torn)
  }

  function Run(w: World, events: seq<Event>, ext: Extractor): World
    decreases |events|
  {
    if events == [] then w else Run(Happens(w, events[0], ext), events[1..], ext)
  }

  // ---------------------------------------------------------------- what a caller can check

  /** None of the document's own chunks that the call brings again has lost its text. */
  predicate CallGuard(s: Store, d: DocId, texts: seq<string>) {
    forall ch | d in s.rows && ch in s.rows[d].chunks && ch.text in texts && ch.text != "" :: ch in s.text
  }

  /**
   * No end of an edge is pruned from the anchors while the edge goes on to record a chunk of the document: the
   * end tracks one of the document's chunks itself, or the edge goes with the purge.
   */
  ghost predicate RollbackSpares(s: Store, d: DocId)
    requires s.JournalOf(d).Some?
  {
    var row, j := s.rows[d], s.rows[d].journal.value;
    forall c: Candidate, ch: ChunkId, n: Name | c.Relation? && n in c.ends && Entity(n) in j.cands && ch in s.Tracked(c) && ch in row.chunks
        && c !in Gone(s, MakePlan(s, RollbackJob(d, j))) ::
      !(Elems(s.Tracked(Entity(n))) !! Elems(row.chunks))
  }

  ghost predicate Permitted(w: World, e: Event) {
    var s := w.sys.store;
    w.sys.running.None? ==>
      match e
      case Step(Call(d, texts)) => CallGuard(s, d, texts)
      case Step(RollBack(d, k)) => s.JournalOf(d).Some? && s.rows[d].journal.value.mode.Patch? && k > STAGES ==> RollbackSpares(s, d)
      case _ => true
  }

  ghost predicate AllPermitted(w: World, events: seq<Event>, ext: Extractor)
    decreases |events|
  {
    events == [] || (Permitted(w, events[0]) && AllPermitted(Happens(w, events[0], ext), events[1..], ext))
  }

  /** A deletion that gets behind its rebuild loses no object that the graph still lists with the document's chunks. */
  ghost predicate Lossless(w: World, e: Event) {
    match e
    case DeleteCall(d, lost, k) => k >= D.KG_STAGES ==> Harmless(w.sys.store, D.DeletionJob(w.sys.store, d, lost))
    case _ => true
  }

  ghost predicate AllLossless(w: World, events: seq<Event>, ext: Extractor)
    decreases |events|
  {
    events == [] || (Lossless(w, events[0]) && AllLossless(Happens(w, events[0], ext), events[1..], ext))
  }

  // ---------------------------------------------------------------- the invariant

  predicate Committed(s: Store, ch: ChunkId) {
    ch.doc in s.rows && ch in s.rows[ch.doc].chunks
  }

  /** An object that records a committed chunk is in the anchors of the chunk's document. */
  ghost predicate Anchored(s: Store) {
    forall c, ch | Holds(s, c, ch) && Committed(s, ch) :: c in s.AnchorsOf(ch.doc)
  }

  /** Edges record only chunks that mention them. */
  ghost predicate EdgesTrue(s: Store, ext: Extractor) {
    forall c, ch | Holds(s, c, ch) && c.Relation? :: |c.ends| == 2 && c.ends in ext(ch).edges
  }

  /** The anchors that name an edge for a tracked chunk name its ends. */
  ghost predicate Closed(s: Store) {
    forall c, ch, n | ch in s.Tracked(c) && c.Relation? && Committed(s, ch) && n in c.ends :: Entity(n) in s.AnchorsOf(ch.doc)
  }

  ghost predicate OpExtra(s: Store, o: Op, ext: Extractor) {
    && ((o.pc.AtMerge? && o.mode.Create?) || o.pc.AtAnchors? || o.pc.AtCommit? ==> o.cands <= s.AnchorsOf(o.doc))
    && (o.pc.AtAnchors? ==> o.done == MergesOf(ext, o.entries))
    && (o.pc.AtJournal? || Elems(o.entries) <= s.text)
  }

  ghost predicate Linked(s: Store, ext: Extractor) {
    Anchored(s) && EdgesTrue(s, ext) && Closed(s)
  }

  /** The chunks that half-deleted documents still list. */
  ghost function TornText(s: Store, torn: set<DocId>): set<ChunkId> {
    set d, ch | d in torn && d in s.rows && ch in s.rows[d].chunks :: ch
  }

  /** The stores as if no deletion had removed chunk texts yet. */
  ghost function Whole(s: Store, torn: set<DocId>): Store {
    s.(text := s.text + TornText(s, torn))
  }

  ghost predicate Kept(w: World, ext: Extractor) {
    && Covered(Sys(Whole(w.sys.store, w.torn), w.sys.running), ext)
    && w.torn <= w.sys.store.rows.Keys
    && Linked(w.sys.store, ext)
    && (w.sys.running.Some? ==> OpExtra(w.sys.store, w.sys.running.value, ext))
  }

  // ---------------------------------------------------------------- text does not matter to the records

  lemma WholeHolds(s: Store, torn: set<DocId>)
    ensures forall c, ch :: Holds(Whole(s, torn), c, ch) <==> Holds(s, c, ch)
    ensures forall d :: Whole(s, torn).OwnedChunks(d) == s.OwnedChunks(d) && Whole(s, torn).JournalOf(d) == s.JournalOf(d)
  {
    SameLists(s, Whole(s, torn));
  }

  lemma AfterIgnoresText(a: Store, text: set<ChunkId>, job: Job, k: nat)
    requires k <= STAGES
    ensures After(a.(text := text), job, k)
         == After(a, job, k).(text := if k >= 5 && job.ids != {} then text - job.ids else text)
  {
    var b, p := a.(text := text), MakePlan(a, job);
    if job.ids != {} {
      D.PlanIgnoresText(a, text, job);
      assert Gone(b, p) == Gone(a, p) && Rebuilt(b, p, job) == Rebuilt(a, p, job);
      StagesDirect(a, p, job, k);
      StagesDirect(b, p, job, k);
    }
  }

  lemma ListsIgnoreText(a: Store, text: set<ChunkId>, m: Merge, ids: seq<ChunkId>)
    ensures var b := a.(text := text);
            && (forall c :: KnownSources(b, c) == KnownSources(a, c))
            && (Saturated(b, Object(m), ids) <==> Saturated(a, Object(m), ids))
            && (m.MergeEdge? ==> forall full :: Ends(b, m.ends, full) == Ends(a, m.ends, full))
  {
    var b := a.(text := text);
    if m.MergeEdge? {
      forall full
        ensures Ends(b, m.ends, full) == Ends(a, m.ends, full)
      {
        assert forall n | n in m.ends :: EndAfter(b, n, full) == EndAfter(a, n, full);
      }
    }
  }

  lemma MergeIgnoresText(a: Store, text: set<ChunkId>, m: Merge, ids: seq<ChunkId>)
    ensures Merged(a.(text := text), m, ids) == Merged(a, m, ids).(text := text)
  {
    var full := MergeIds(KnownSources(a, Object(m)), ids);
    ListsIgnoreText(a, text, m, ids);
    PutIgnoresText(a, text, map[Object(m) := full]);
    if m.MergeEdge? {
      PutIgnoresText(a, text, Ends(a, m.ends, full)[Object(m) := full]);
    }
  }

  lemma PutIgnoresText(a: Store, text: set<ChunkId>, lists: map<Candidate, seq<ChunkId>>)
    ensures Put(a.(text := text), lists) == Put(a, lists).(text := text)
  {
    var b := a.(text := text);
    assert (map c | c in lists :: b.Limit(lists[c])) == map c | c in lists :: a.Limit(lists[c]);
  }

  /** A row may change where its chunks are stored anyway. */
  lemma SameWhole(s: Store, t: Store, torn: set<DocId>, d: DocId)
    requires forall x | x != d :: (x in t.rows <==> x in s.rows) && (x in t.rows ==> t.rows[x] == s.rows[x])
    requires d in torn ==>
      (d in s.rows && d in t.rows
       && (forall ch | ch in s.rows[d].chunks :: ch in t.rows[d].chunks || ch in t.text)
       && (forall ch | ch in t.rows[d].chunks :: ch in s.rows[d].chunks || ch in t.text))
    ensures t.text + TornText(t, torn) == t.text + TornText(s, torn)
  {
    forall ch
      ensures ch in t.text + TornText(t, torn) <==> ch in t.text + TornText(s, torn)
    {
      if ch in TornText(t, torn) && ch !in t.text {
        var x :| x in torn && x in t.rows && ch in t.rows[x].chunks;
        assert x in s.rows && ch in s.rows[x].chunks;
      }
      if ch in TornText(s, torn) && ch !in t.text {
        var x :| x in torn && x in s.rows && ch in s.rows[x].chunks;
        assert x in t.rows && ch in t.rows[x].chunks;
      }
    }
  }

  lemma OpStepRow(s: Store, o: Op, a: Action, torn: set<DocId>, ext: Extractor)
    requires OpSound(Whole(s, torn), o, ext) && OpExtra(s, o, ext) && !a.MergeObject?
    ensures var t := OpStep(s, o, a, ext).store;
            && o.doc in t.rows
            && (forall ch | ch in s.rows[o.doc].chunks :: ch in t.rows[o.doc].chunks || ch in t.text)
            && (forall ch | ch in t.rows[o.doc].chunks :: ch in s.rows[o.doc].chunks || ch in t.text)
  {
    var t := OpStep(s, o, a, ext).store;
    StepLeavesRest(s, o, a, ext);
    CommitOwns(o);
    forall ch | ch in CommitRow(o).chunks
      ensures ch in o.base || (o.pc.AtJournal? || ch in s.text)
    {
      assert ch in Elems(CommitRow(o).chunks);
      assert ch in Elems(o.base) || ch in Elems(o.entries);
    }
    forall ch | ch in o.base && o.mode.Patch?
      ensures ch in CommitRow(o).chunks
    {
      assert ch in Elems(CommitRow(o).chunks);
    }
  }

  lemma OpStepWhole(s: Store, o: Op, a: Action, torn: set<DocId>, ext: Extractor)
    requires OpSound(Whole(s, torn), o, ext) && OpExtra(s, o, ext) && !a.MergeObject?
    ensures var n := OpStep(s, o, a, ext);
            OpStep(Whole(s, torn), o, a, ext) == Sys(Whole(n.store, torn), n.running)
  {
    var n := OpStep(s, o, a, ext);
    var T := TornText(s, torn);
    StepLeavesRest(s, o, a, ext);
    OpStepRow(s, o, a, torn, ext);
    SameWhole(s, n.store, torn, o.doc);
    if a.StageChunks? {
      assert s.text + T + Elems(o.entries) == s.text + Elems(o.entries) + T;
    }
  }

  lemma MergeStepWhole(s: Store, o: Op, m: Merge, torn: set<DocId>, ext: Extractor)
    ensures var n := OpStep(s, o, MergeObject(m), ext);
            OpStep(Whole(s, torn), o, MergeObject(m), ext) == Sys(Whole(n.store, torn), n.running)
  {
    var ids := Mentioning(ext, o.entries, m);
    MergeIgnoresText(s, Whole(s, torn).text, m, ids);
    assert TornText(Merged(s, m, ids), torn) == TornText(s, torn);
  }

  lemma TornTextOf(s: Store, torn: set<DocId>, ch: ChunkId, ext: Extractor)
    requires forall d | d in s.rows :: RowSound(Whole(s, torn), d, ext)
    requires ch in TornText(s, torn)
    ensures ch.doc in torn
  {
    var d :| d in torn && d in s.rows && ch in s.rows[d].chunks;
    assert RowSound(Whole(s, torn), d, ext);
  }

  /** Under its guard a call sees the same pending chunks whether texts are missing or not. */
  lemma DecideWhole(s: Store, d: DocId, texts: seq<string>, torn: set<DocId>)
    requires CallGuard(s, d, texts)
    ensures Decide(Whole(s, torn), d, Entries(d, texts)) == Decide(s, d, Entries(d, texts))
  {
    var op := Entries(d, texts);
    EntriesAre(d, texts);
    if d in s.rows {
      var row := s.rows[d];
      var known, whole := CommittedTexts(s, row), CommittedTexts(Whole(s, torn), row);
      forall ch | ch in op
        ensures ch.text in whole <==> ch.text in known
      {
        if ch.text in whole {
          var b :| b in row.chunks && b in Whole(s, torn).text && b.text == ch.text;
          assert b in s.text;
        }
      }
      assert (set ch | ch in op && ch.text in whole) == set ch | ch in op && ch.text in known;
    }
  }

  lemma CallWhole(s: Store, d: DocId, texts: seq<string>, torn: set<DocId>)
    requires CallGuard(s, d, texts) && torn <= s.rows.Keys
    ensures var n := CallStep(Sys(s, None), d, texts);
            CallStep(Sys(Whole(s, torn), None), d, texts) == Sys(Whole(n.store, torn), n.running)
  {
    DecideWhole(s, d, texts, torn);
    SameWhole(s, CallStep(Sys(s, None), d, texts).store, torn, d);
  }

  lemma JournalNotTorn(s: Store, d: DocId, torn: set<DocId>, ext: Extractor)
    requires s.JournalOf(d).Some? && forall x | x in s.rows :: RowSound(Whole(s, torn), x, ext)
    ensures TornText(s, torn) !! Elems(s.rows[d].journal.value.chunks)
    ensures Elems(s.rows[d].chunks) !! Elems(s.rows[d].journal.value.chunks)
  {
    var j := s.rows[d].journal.value;
    assert RowSound(Whole(s, torn), d, ext);
    PendingIsNew(s.rows[d].chunks, j.mode, j.op);
    forall ch | ch in TornText(s, torn)
      ensures ch !in Elems(j.chunks)
    {
      var x :| x in torn && x in s.rows && ch in s.rows[x].chunks;
      assert RowSound(Whole(s, torn), x, ext);
      assert ch in Elems(j.chunks) ==> ch in Elems(j.op) && ch.doc == d;
      assert ch in Elems(s.rows[x].chunks);
    }
  }

  /** The half-deleted documents that are left when a rollback has removed the row of a new one. */
  function StillTorn(torn: set<DocId>, t: Store): set<DocId> {
    set d | d in torn && d in t.rows
  }

  lemma RollbackTornText(s: Store, d: DocId, k: nat, torn: set<DocId>, ext: Extractor)
    requires s.JournalOf(d).Some? && forall x | x in s.rows :: RowSound(Whole(s, torn), x, ext)
    ensures TornText(RollbackAfter(s, d, k), StillTorn(torn, RollbackAfter(s, d, k))) == TornText(s, torn)
  {
    var t, j := RollbackAfter(s, d, k), s.rows[d].journal.value;
    RollbackRow(s, d, k);
    JournalNotTorn(s, d, torn, ext);
    assert RowSound(Whole(s, torn), d, ext);
    SubtractNothing(s.rows[d].chunks, Elems(j.chunks));
    forall ch
      ensures ch in TornText(t, StillTorn(torn, t)) <==> ch in TornText(s, torn)
    {
      if ch in TornText(s, torn) {
        var x :| x in torn && x in s.rows && ch in s.rows[x].chunks;
        assert x in t.rows && ch in t.rows[x].chunks;
      }
    }
  }

  lemma RollbackWhole(s: Store, d: DocId, k: nat, torn: set<DocId>, ext: Extractor)
    requires s.JournalOf(d).Some? && forall x | x in s.rows :: RowSound(Whole(s, torn), x, ext)
    ensures RollbackAfter(Whole(s, torn), d, k) == Whole(RollbackAfter(s, d, k), StillTorn(torn, RollbackAfter(s, d, k)))
  {
    var row, j := s.rows[d], s.rows[d].journal.value;
    var job := RollbackJob(d, j);
    var kk := if k <= STAGES then k else STAGES;
    var T := TornText(s, torn);
    JournalNotTorn(s, d, torn, ext);
    var p := After(s, job, kk);
    AfterAddsText(s, T, job, kk);
    RollbackTornText(s, d, k, torn, ext);
    RollbackIsPurge(s, d, k, p);
    PruneIgnoresText(p, p.text + T, d, j, Elems(row.chunks) - Elems(j.chunks));
  }

  lemma AfterAddsText(s: Store, more: set<ChunkId>, job: Job, k: nat)
    requires k <= STAGES && more !! job.ids
    ensures After(s.(text := s.text + more), job, k) == After(s, job, k).(text := After(s, job, k).text + more)
  {
    AfterIgnoresText(s, s.text + more, job, k);
    AfterText(s, job, k);
    assert s.text + more - job.ids == s.text - job.ids + more;
  }

  lemma AfterText(s: Store, job: Job, k: nat)
    requires k <= STAGES
    ensures After(s, job, k).text == if k >= 5 && job.ids != {} then s.text - job.ids else s.text
  {
    if job.ids != {} {
      StagesDirect(s, MakePlan(s, job), job, k);
    }
  }

  lemma PruneIgnoresText(p: Store, text: set<ChunkId>, d: DocId, j: Journal, owned: set<ChunkId>)
    ensures Pruned(p.(text := text), d, j, owned) == Pruned(p, d, j, owned).(text := text)
  {
    var b := p.(text := text);
    assert forall c :: b.Tracked(c) == p.Tracked(c);
    if d in p.anchors {
      assert Pruned(b, d, j, owned).anchors[d] == Pruned(p, d, j, owned).anchors[d];
    }
  }

  // ---------------------------------------------------------------- steps of the custom-chunk protocol

  ghost predicate TracksFewer(t: Store, s: Store) {
    forall c, ch | ch in t.Tracked(c) :: ch in s.Tracked(c)
  }

  /** Fewer records, fewer committed chunks, and anchors that have not lost what is still recorded. */
  lemma FewerRecords(s: Store, t: Store, ext: Extractor)
    requires Linked(s, ext) && Narrower(t, s) && TracksFewer(t, s)
    requires forall ch | Committed(t, ch) :: Committed(s, ch)
    requires forall c, ch | Holds(t, c, ch) && Committed(t, ch) :: s.AnchorsOf(ch.doc) <= t.AnchorsOf(ch.doc)
    ensures Linked(t, ext)
  {
    forall c, ch | Holds(t, c, ch)
      ensures Holds(s, c, ch)
    {
    }
    forall c, ch, n | ch in t.Tracked(c) && c.Relation? && Committed(t, ch) && n in c.ends
      ensures Entity(n) in t.AnchorsOf(ch.doc)
    {
      assert ch in s.Tracked(c) && Holds(t, c, ch);
    }
  }

  lemma SameTracked(s: Store, t: Store)
    requires t.tracking == s.tracking
    ensures forall c :: t.Tracked(c) == s.Tracked(c)
  {
  }

  /** A step that writes rows and anchors only, and commits nothing. */
  lemma QuietStep(s: Store, t: Store, ext: Extractor)
    requires Linked(s, ext) && t.tracking == s.tracking && t.graph == s.graph
    requires forall ch | Committed(t, ch) :: Committed(s, ch)
    requires forall ch | Committed(t, ch) :: s.AnchorsOf(ch.doc) <= t.AnchorsOf(ch.doc)
    ensures Linked(t, ext)
  {
    SameLists(s, t);
    SameTracked(s, t);
    FewerRecords(s, t, ext);
  }

  /** The commit: what the journal named is anchored now, the ends of its edges included. */
  lemma CommitLinks(s: Store, o: Op, torn: set<DocId>, ext: Extractor)
    requires Linked(s, ext) && OpExtra(s, o, ext) && o.pc.AtAnchors?
    requires OpSound(Whole(s, torn), o, ext)
    ensures Linked(s.(rows := s.rows[o.doc := CommitRow(o)]), ext)
  {
    var t := s.(rows := s.rows[o.doc := CommitRow(o)]);
    SameLists(s, t);
    SameTracked(s, t);
    CommitOwns(o);
    forall c, ch | Holds(t, c, ch) && Committed(t, ch)
      ensures c in t.AnchorsOf(ch.doc)
      ensures c.Relation? && ch in t.Tracked(c) ==> forall n | n in c.ends :: Entity(n) in t.AnchorsOf(ch.doc)
    {
      assert Holds(s, c, ch);
      if !Committed(s, ch) {
        NewlyCommitted(s, o, torn, c, ch, ext);
      } else {
        assert c in s.AnchorsOf(ch.doc);
      }
    }
    assert EdgesTrue(t, ext);
  }

  lemma NewlyCommitted(s: Store, o: Op, torn: set<DocId>, c: Candidate, ch: ChunkId, ext: Extractor)
    requires OpExtra(s, o, ext) && o.pc.AtAnchors? && OpSound(Whole(s, torn), o, ext)
    requires Holds(s, c, ch) && ch in CommitRow(o).chunks && ch !in o.base
    ensures ch.doc == o.doc && c in s.AnchorsOf(o.doc)
    ensures c.Relation? ==> forall n | n in c.ends :: Entity(n) in s.AnchorsOf(o.doc)
  {
    CommitOwns(o);
    WholeHolds(s, torn);
    assert ch in Elems(CommitRow(o).chunks);
    assert ch in Elems(o.entries);
    PendingIsNew(o.base, o.mode, o.op);
    assert ch in Elems(o.op);
    assert Holds(Whole(s, torn), c, ch);
    if c.Relation? {
      forall n | n in c.ends
        ensures Entity(n) in s.AnchorsOf(o.doc)
      {
        CandidatesClosed(ext, o.entries, c.ends, n);
      }
    }
  }

  /** Every step but a merge. */
  lemma StepLinks(s: Store, o: Op, a: Action, torn: set<DocId>, ext: Extractor)
    requires Linked(s, ext) && OpExtra(s, o, ext) && OpSound(Whole(s, torn), o, ext)
    requires !a.MergeObject?
    ensures Linked(OpStep(s, o, a, ext).store, ext)
  {
    var n := OpStep(s, o, a, ext);
    StepLeavesRest(s, o, a, ext);
    if a.WriteCommit? && o.pc.AtAnchors? {
      CommitLinks(s, o, torn, ext);
    } else {
      RowsAfterStep(s, o, a, torn, ext);
      QuietStep(s, n.store, ext);
    }
  }

  lemma RowsAfterStep(s: Store, o: Op, a: Action, torn: set<DocId>, ext: Extractor)
    requires OpSound(Whole(s, torn), o, ext) && !a.MergeObject? && !(a.WriteCommit? && o.pc.AtAnchors?)
    ensures var t := OpStep(s, o, a, ext).store;
            forall ch | Committed(t, ch) :: Committed(s, ch) && s.AnchorsOf(ch.doc) <= t.AnchorsOf(ch.doc)
  {
    var t := OpStep(s, o, a, ext).store;
    CommitOwns(o);
    forall ch | Committed(t, ch)
      ensures Committed(s, ch) && s.AnchorsOf(ch.doc) <= t.AnchorsOf(ch.doc)
    {
      if ch.doc == o.doc && o.pc.AtCommit? {
        assert ch in Elems(o.base) ==> ch in Elems(CommitRow(o).chunks);
      }
    }
  }

  lemma StepKeepsOp(s: Store, o: Op, a: Action, torn: set<DocId>, ext: Extractor)
    requires OpExtra(s, o, ext) && OpSound(Whole(s, torn), o, ext) && !a.MergeObject?
    ensures var n := OpStep(s, o, a, ext); n.running.Some? ==> OpExtra(n.store, n.running.value, ext)
  {
    StepLeavesRest(s, o, a, ext);
  }

  // ---------------------------------------------------------------- merges

  lemma KnownIsTracked(s: Store, c: Candidate)
    requires s.Aligned()
    ensures KnownSources(s, c) == s.Tracked(c)
  {
  }

  /** What a merge adds to the tracking rows. */
  lemma MergeTracks(s: Store, m: Merge, ids: seq<ChunkId>, c: Candidate, ch: ChunkId)
    requires s.Aligned() && ch in Merged(s, m, ids).Tracked(c)
    ensures || ch in s.Tracked(c)
            || (c == Object(m) && ch in ids)
            || (m.MergeEdge? && c.Entity? && c.name in m.ends && (ch in ids || ch in s.Tracked(Relation(m.ends))))
  {
    var x := Object(m);
    var full := MergeIds(KnownSources(s, x), ids);
    KnownIsTracked(s, x);
    KnownIsTracked(s, c);
    MergeIdsElems(s.Tracked(x), ids);
    assert ch in full ==> ch in Elems(full);
    if m.MergeEdge? && |m.ends| != 2 {
    } else if Saturated(s, x, ids) {
    } else if m.MergeNode? {
      PutAt(s, map[x := full], c);
    } else {
      PutAt(s, Ends(s, m.ends, full)[x := full], c);
      if c in Ends(s, m.ends, full) && c != x {
        InEndTracked(s, c.name, full, ch);
      }
    }
  }

  lemma InEndTracked(s: Store, n: Name, full: seq<ChunkId>, ch: ChunkId)
    requires s.Aligned()
    ensures ch in EndAfter(s, n, full) ==> ch in s.Tracked(Entity(n)) || ch in full
  {
    KnownIsTracked(s, Entity(n));
    LimitedElems(full, s.cap, s.fifo);
    MergeIdsElems(s.Tracked(Entity(n)), s.Limit(full));
    assert ch in EndAfter(s, n, full) ==> ch in Elems(EndAfter(s, n, full));
  }

  lemma EntriesAreNew(s: Store, o: Op, m: Merge, torn: set<DocId>, ext: Extractor, ch: ChunkId)
    requires OpSound(Whole(s, torn), o, ext) && o.pc.AtMerge? && ch in Mentioning(ext, o.entries, m)
    ensures !Committed(s, ch) && Mentions(ext, ch, m)
  {
    MentioningElems(ext, o.entries, m);
    PendingIsNew(o.base, o.mode, o.op);
    assert ch in Elems(Mentioning(ext, o.entries, m)) && ch in Elems(o.entries) && ch in Elems(o.op);
    assert ch in o.base ==> ch in Elems(o.base);
  }

  lemma MergeLinks(s: Store, o: Op, m: Merge, torn: set<DocId>, ext: Extractor)
    requires Linked(s, ext) && Covered(Sys(Whole(s, torn), Some(o)), ext) && o.pc.AtMerge? && m in MergesOf(ext, o.entries)
    ensures Linked(Merged(s, m, Mentioning(ext, o.entries, m)), ext)
  {
    var ids := Mentioning(ext, o.entries, m);
    var t := Merged(s, m, ids);
    forall c, ch | Holds(t, c, ch)
      ensures Committed(t, ch) ==> c in t.AnchorsOf(ch.doc)
      ensures c.Relation? ==> |c.ends| == 2 && c.ends in ext(ch).edges
    {
      MergedPair(s, o, m, torn, c, ch, ext);
    }
    forall c, ch, n | ch in t.Tracked(c) && c.Relation? && Committed(t, ch) && n in c.ends
      ensures Entity(n) in t.AnchorsOf(ch.doc)
    {
      MergeTracks(s, m, ids, c, ch);
      if ch in ids {
        EntriesAreNew(s, o, m, torn, ext, ch);
      }
    }
  }

  lemma MergedPair(s: Store, o: Op, m: Merge, torn: set<DocId>, c: Candidate, ch: ChunkId, ext: Extractor)
    requires Linked(s, ext) && Covered(Sys(Whole(s, torn), Some(o)), ext) && o.pc.AtMerge? && m in MergesOf(ext, o.entries)
    ensures Holds(Merged(s, m, Mentioning(ext, o.entries, m)), c, ch) ==>
              && (Committed(s, ch) ==> c in s.AnchorsOf(ch.doc))
              && (c.Relation? ==> |c.ends| == 2 && c.ends in ext(ch).edges)
  {
    var ids := Mentioning(ext, o.entries, m);
    if !Holds(Merged(s, m, ids), c, ch) {
      return;
    }
    if ch in ids {
      EntriesAreNew(s, o, m, torn, ext, ch);
    }
    MergeRecordsTracked(s, m, ids, c, ch);
    if c.Relation? && !Holds(s, c, ch) {
      SmallEdgesUntouched(s, m, ids);
    }
  }

  /** What a merge adds to the records: on aligned stores an edge hands on what it tracks. */
  lemma MergeRecordsTracked(s: Store, m: Merge, ids: seq<ChunkId>, c: Candidate, ch: ChunkId)
    requires s.Aligned() && Holds(Merged(s, m, ids), c, ch)
    ensures || Holds(s, c, ch)
            || (c == Object(m) && ch in ids)
            || (m.MergeEdge? && c.Entity? && c.name in m.ends && (ch in ids || ch in s.Tracked(Relation(m.ends))))
  {
    var t := Merged(s, m, ids);
    MergedAt(s, m, ids, c);
    if ch in t.Tracked(c) {
      MergeTracks(s, m, ids, c, ch);
    } else if c in t.tracking && t.graph[c] == s.Limit(t.tracking[c]) {
      InLimit(s, t.tracking[c], ch);
    }
  }

  lemma SmallEdgesUntouched(s: Store, m: Merge, ids: seq<ChunkId>)
    ensures m.MergeEdge? && |m.ends| != 2 ==> Merged(s, m, ids) == s
  {
  }

  lemma MergeKeepsOp(s: Store, o: Op, m: Merge, ext: Extractor)
    requires OpExtra(s, o, ext) && o.pc.AtMerge?
    ensures OpExtra(Merged(s, m, Mentioning(ext, o.entries, m)), o.(done := o.done + {m}), ext)
  {
    MergeLeavesRows(s, m, Mentioning(ext, o.entries, m));
  }

  // ---------------------------------------------------------------- purges

  lemma PurgeTracks(s: Store, job: Job, k: nat, c: Candidate)
    requires s.Aligned() && k <= STAGES && job.ids != {}
    ensures var t, p := After(s, job, k), MakePlan(s, job);
            && (t.Tracked(c) == [] || (c in s.graph && t.Tracked(c) == if k > 0 && c in p.rebuild then Subtract(s.Tracked(c), job.ids) else s.Tracked(c)))
            && (c in s.graph && c !in Gone(s, p) ==> c in t.tracking && c in t.graph)
            && (c in Gone(s, p) && k > 2 ==> t.Tracked(c) == [])
  {
    StagesDirect(s, MakePlan(s, job), job, k);
  }

  lemma PurgeTracksFewer(s: Store, job: Job, k: nat)
    requires s.Aligned() && k <= STAGES
    ensures TracksFewer(After(s, job, k), s)
  {
    if job.ids != {} {
      forall c, ch | ch in After(s, job, k).Tracked(c)
        ensures ch in s.Tracked(c)
      {
        PurgeTracks(s, job, k, c);
        SubtractElems(s.Tracked(c), job.ids);
        assert ch in Elems(After(s, job, k).Tracked(c));
        assert ch in Elems(s.Tracked(c));
      }
    }
  }

  /** Behind a rollback's purge the graph lists of its candidates follow tracking. */
  lemma RollbackSyncs(s: Store, job: Job, c: Candidate, ch: ChunkId)
    requires s.Aligned() && job.policy.RollbackPolicy? && job.ids != {} && c in Candidates(s, job)
    requires Holds(After(s, job, STAGES), c, ch)
    ensures ch in After(s, job, STAGES).Tracked(c)
  {
    var p := MakePlan(s, job);
    StagesDirect(s, p, job, STAGES);
    assert c in s.graph && c in p.rebuild;
    LimitedElems(p.rebuild[c], s.cap, s.fifo);
    assert ch in s.Limit(p.rebuild[c]) ==> ch in Elems(s.Limit(p.rebuild[c]));
  }

  // ---------------------------------------------------------------- rollback

  lemma RollbackNarrows(s: Store, d: DocId, k: nat)
    requires s.Aligned() && s.JournalOf(d).Some?
    ensures Narrower(RollbackAfter(s, d, k), s) && TracksFewer(RollbackAfter(s, d, k), s)
  {
    var job := RollbackJob(d, s.rows[d].journal.value);
    var kk := if k <= STAGES then k else STAGES;
    PurgeNarrows(s, job, kk);
    PurgeTracksFewer(s, job, kk);
    RollbackIsPurge(s, d, k, After(s, job, kk));
    SameLists(After(s, job, kk), RollbackAfter(s, d, k));
    SameTracked(After(s, job, kk), RollbackAfter(s, d, k));
  }

  /** A rollback commits nothing, and what is committed is none of the chunks it purges. */
  lemma RollbackCommits(s: Store, d: DocId, k: nat, torn: set<DocId>, ext: Extractor)
    requires Covered(Sys(Whole(s, torn), None), ext) && s.JournalOf(d).Some?
    ensures forall ch | Committed(RollbackAfter(s, d, k), ch) :: Committed(s, ch)
    ensures forall ch | Committed(s, ch) :: ch !in s.rows[d].journal.value.chunks
  {
    var row, j := s.rows[d], s.rows[d].journal.value;
    RollbackRow(s, d, k);
    assert RowSound(Whole(s, torn), d, ext);
    PendingIsNew(row.chunks, j.mode, j.op);
    SubtractNothing(row.chunks, Elems(j.chunks));
    forall x | x in j.chunks
      ensures x.doc == d && x !in Elems(row.chunks)
    {
      assert x in Elems(j.chunks) && x in Elems(j.op);
    }
  }

  /** What the rollback makes of the anchors. */
  lemma RollbackAnchors(s: Store, d: DocId, k: nat, c: Candidate, x: DocId)
    requires s.JournalOf(d).Some?
    ensures var t, row, p := RollbackAfter(s, d, k), s.rows[d], After(s, RollbackJob(d, s.rows[d].journal.value), if k <= STAGES then k else STAGES);
            var j := row.journal.value;
            var kept := j.mode.Patch? && (k <= STAGES || c !in j.cands || !(Elems(p.Tracked(c)) !! Elems(row.chunks) - Elems(j.chunks)));
            && (c in s.AnchorsOf(x) && (x != d || kept) ==> c in t.AnchorsOf(x))
            && (j.mode.Patch? && k > STAGES && c in t.AnchorsOf(d) ==> kept)
  {
    PurgedAnchors(s, RollbackJob(d, s.rows[d].journal.value), if k <= STAGES then k else STAGES);
  }

  lemma PurgedAnchors(s: Store, job: Job, k: nat)
    requires k <= STAGES
    ensures After(s, job, k).anchors == if k == STAGES && !job.patchOnly && job.ids != {} then s.anchors - {job.doc} else s.anchors
  {
    if job.ids != {} {
      StagesDirect(s, MakePlan(s, job), job, k);
    }
  }

  lemma RollbackKeepsAnchor(s: Store, d: DocId, k: nat, torn: set<DocId>, c: Candidate, ch: ChunkId, ext: Extractor)
    requires Anchored(s) && Covered(Sys(Whole(s, torn), None), ext) && s.JournalOf(d).Some?
    requires Holds(RollbackAfter(s, d, k), c, ch) && Holds(s, c, ch) && Committed(s, ch)
    ensures c in RollbackAfter(s, d, k).AnchorsOf(ch.doc)
  {
    var row, j := s.rows[d], s.rows[d].journal.value;
    var job := RollbackJob(d, j);
    RollbackAnchors(s, d, k, c, ch.doc);
    RollbackCommits(s, d, k, torn, ext);
    assert RowSound(Whole(s, torn), d, ext);
    if ch.doc == d && k > STAGES && c in j.cands {
      var p := After(s, job, STAGES);
      RollbackIsPurge(s, d, k, p);
      SameLists(p, RollbackAfter(s, d, k));
      if job.ids != {} {
        RollbackSyncs(s, job, c, ch);
      } else {
        assert p == s;
        NothingStaged(s, d, torn, ext);
      }
      assert ch in Elems(p.Tracked(c)) && ch in Elems(row.chunks) - Elems(j.chunks);
    }
  }

  lemma HasElements(chunks: seq<ChunkId>)
    requires chunks != []
    ensures Elems(chunks) != {}
  {
    assert chunks[0] in Elems(chunks);
  }

  /** A journal without chunks names no candidates. */
  lemma NothingStaged(s: Store, d: DocId, torn: set<DocId>, ext: Extractor)
    requires Covered(Sys(Whole(s, torn), None), ext) && s.JournalOf(d).Some? && Elems(s.rows[d].journal.value.chunks) == {}
    ensures s.rows[d].journal.value.cands == {}
  {
    assert RowSound(Whole(s, torn), d, ext);
    var j := s.rows[d].journal.value;
    if j.chunks != [] {
      HasElements(j.chunks);
    }
    assert CandidatesOf(ext, j.chunks) == {};
  }

  /** The purge of a rollback leaves a node the chunks that it does not purge. */
  lemma NodeKeeps(s: Store, d: DocId, k: nat, n: Name, torn: set<DocId>, ext: Extractor)
    requires Covered(Sys(Whole(s, torn), None), ext) && s.JournalOf(d).Some? && k <= STAGES
    ensures var row, j := s.rows[d], s.rows[d].journal.value;
            var p := After(s, RollbackJob(d, j), k);
            Elems(p.Tracked(Entity(n))) !! Elems(row.chunks) - Elems(j.chunks) <==> Elems(s.Tracked(Entity(n))) !! Elems(row.chunks)
  {
    var row, j := s.rows[d], s.rows[d].journal.value;
    var job := RollbackJob(d, j);
    var p := After(s, job, k);
    PurgeTracksFewer(s, job, k);
    RollbackCommits(s, d, k, torn, ext);
    JournalNotTorn(s, d, torn, ext);
    forall ch | ch in Elems(s.Tracked(Entity(n))) && ch in Elems(row.chunks)
      ensures ch in p.Tracked(Entity(n)) && ch in Elems(row.chunks) - Elems(j.chunks)
    {
      PurgeSparesNode(s, job, k, n, ch);
    }
    forall ch | ch in Elems(p.Tracked(Entity(n)))
      ensures ch in Elems(s.Tracked(Entity(n)))
    {
      assert ch in p.Tracked(Entity(n));
    }
  }

  /** A purge takes from a node only the purged chunks. */
  lemma PurgeSparesNode(s: Store, job: Job, k: nat, n: Name, ch: ChunkId)
    requires s.Aligned() && k <= STAGES && ch !in job.ids && ch in s.Tracked(Entity(n))
    ensures ch in After(s, job, k).Tracked(Entity(n))
  {
    if job.ids != {} {
      var p, c := MakePlan(s, job), Entity(n);
      StagesDirect(s, p, job, k);
      SubtractElems(s.tracking[c], job.ids);
      assert ch in Elems(Subtract(s.tracking[c], job.ids));
      assert c !in p.delete;
      assert c !in Incident(s, p.delete);
    }
  }

  lemma RollbackKeepsEnd(s: Store, d: DocId, k: nat, torn: set<DocId>, c: Candidate, n: Name, ch: ChunkId, ext: Extractor)
    requires Linked(s, ext) && Covered(Sys(Whole(s, torn), None), ext) && s.JournalOf(d).Some?
    requires s.rows[d].journal.value.mode.Patch? && k > STAGES ==> RollbackSpares(s, d)
    requires ch in RollbackAfter(s, d, k).Tracked(c) && Committed(s, ch) && c.Relation? && n in c.ends
    ensures Entity(n) in RollbackAfter(s, d, k).AnchorsOf(ch.doc)
  {
    var row, j := s.rows[d], s.rows[d].journal.value;
    var kk := if k <= STAGES then k else STAGES;
    RollbackNarrows(s, d, k);
    assert ch in s.Tracked(c);
    RollbackAnchors(s, d, k, Entity(n), ch.doc);
    assert RowSound(Whole(s, torn), d, ext);
    if ch.doc == d && k > STAGES && Entity(n) in j.cands {
      if Elems(j.chunks) == {} {
        NothingStaged(s, d, torn, ext);
      }
      RollbackIsPurge(s, d, k, After(s, RollbackJob(d, j), kk));
      SameTracked(After(s, RollbackJob(d, j), kk), RollbackAfter(s, d, k));
      PurgeTracks(s, RollbackJob(d, j), kk, c);
      NodeKeeps(s, d, kk, n, torn, ext);
    }
  }

  lemma RollbackLinks(s: Store, d: DocId, k: nat, torn: set<DocId>, ext: Extractor)
    requires Linked(s, ext) && Covered(Sys(Whole(s, torn), None), ext) && s.JournalOf(d).Some?
    requires s.rows[d].journal.value.mode.Patch? && k > STAGES ==> RollbackSpares(s, d)
    ensures Linked(RollbackAfter(s, d, k), ext)
  {
    var t := RollbackAfter(s, d, k);
    RollbackNarrows(s, d, k);
    RollbackCommits(s, d, k, torn, ext);
    forall c, ch | Holds(t, c, ch)
      ensures Committed(t, ch) ==> c in t.AnchorsOf(ch.doc)
      ensures c.Relation? ==> |c.ends| == 2 && c.ends in ext(ch).edges
    {
      assert Holds(s, c, ch);
      if Committed(t, ch) {
        RollbackKeepsAnchor(s, d, k, torn, c, ch, ext);
      }
    }
    forall c, ch, n | ch in t.Tracked(c) && c.Relation? && Committed(t, ch) && n in c.ends
      ensures Entity(n) in t.AnchorsOf(ch.doc)
    {
      RollbackKeepsEnd(s, d, k, torn, c, n, ch, ext);
    }
  }

  // ---------------------------------------------------------------- deletion

  /** The graph stages of a deletion that has got to stage `k`, seen as a purge. */
  lemma DeletionRecords(s: Store, d: DocId, lost: set<Candidate>, k: nat)
    requires s.Aligned() && k <= D.KG_STAGES && s.OwnedChunks(d) != {}
    ensures var t, job := D.KgAfter(s, d, lost, k), D.DeletionJob(s, d, lost);
            && t.Aligned() && Narrower(t, s) && TracksFewer(t, s) && t.cap == s.cap && t.rows == s.rows && t.bodies == s.bodies
            && s.text - job.ids <= t.text
            && t.anchors == (if k == D.KG_STAGES then s.anchors - {d} else s.anchors)
            && (k >= 5 && NamedBy(s, job.ids, s.Named(d)) && Harmless(s, job) ==> NamedBy(t, job.ids, {}))
  {
    var t, job := D.KgAfter(s, d, lost, k), D.DeletionJob(s, d, lost);
    var kk := if k == D.KG_STAGES then STAGES else D.PurgeStagesAt(k);
    var p := After(s, job, kk);
    DeletionStores(s, d, lost, k);
    PurgeKeepsAligned(s, job, kk);
    PurgeNarrows(s, job, kk);
    PurgeTracksFewer(s, job, kk);
    SameLists(p, t);
    SameTracked(p, t);
    if k >= 5 && NamedBy(s, job.ids, s.Named(d)) {
      PurgeClears(s, job, kk);
    }
  }

  lemma DeletionStores(s: Store, d: DocId, lost: set<Candidate>, k: nat)
    requires k <= D.KG_STAGES && s.OwnedChunks(d) != {}
    ensures var t, job := D.KgAfter(s, d, lost, k), D.DeletionJob(s, d, lost);
            var p := After(s, job, if k == D.KG_STAGES then STAGES else D.PurgeStagesAt(k));
            && t.tracking == p.tracking && t.graph == p.graph && t.index == p.index && t.cap == s.cap && t.fifo == s.fifo
            && t.rows == s.rows && t.bodies == s.bodies && s.text - job.ids <= t.text
            && t.anchors == (if k == D.KG_STAGES then s.anchors - {d} else s.anchors)
  {
    var job := D.DeletionJob(s, d, lost);
    D.KgStagesDirect(s, MakePlan(s, job), job, k);
    StagesDirect(s, MakePlan(s, job), job, if k == D.KG_STAGES then STAGES else D.PurgeStagesAt(k));
  }

  /** Everything a document's chunks reached is named in its anchors or its journal. */
  lemma OwnedIsNamed(s: Store, d: DocId, torn: set<DocId>, ext: Extractor)
    requires Anchored(s) && Covered(Sys(Whole(s, torn), None), ext) && d in s.rows
    ensures NamedBy(s, s.OwnedChunks(d), s.Named(d))
  {
    WholeHolds(s, torn);
    var row := s.rows[d];
    assert RowSound(Whole(s, torn), d, ext);
    forall c, ch | Holds(s, c, ch) && ch in s.OwnedChunks(d)
      ensures c in s.Named(d)
    {
      assert Holds(Whole(s, torn), c, ch);
      if ch in row.chunks {
        assert Committed(s, ch);
      } else {
        var j := row.journal.value;
        assert NamedBy(Whole(s, torn), Elems(j.chunks), j.cands);
      }
    }
  }

  /** What a whole document owns belongs to no other document. */
  lemma OwnedByDoc(s: Store, d: DocId, torn: set<DocId>, ext: Extractor)
    requires Covered(Sys(Whole(s, torn), None), ext) && d in s.rows
    ensures forall ch | ch in s.OwnedChunks(d) :: ch.doc == d
  {
    assert RowSound(Whole(s, torn), d, ext);
    var row := s.rows[d];
    if row.journal.Some? {
      PendingIsNew(row.chunks, row.journal.value.mode, row.journal.value.op);
      assert forall ch | ch in row.journal.value.chunks :: ch in Elems(row.journal.value.op);
    }
  }

  lemma PartialDeletionKept(s: Store, d: DocId, lost: set<Candidate>, k: nat, torn: set<DocId>, ext: Extractor)
    requires Kept(World(Sys(s, None), torn), ext) && d in s.rows && s.OwnedChunks(d) != {} && 0 < k <= D.KG_STAGES
    requires k == D.KG_STAGES ==> Harmless(s, D.DeletionJob(s, d, lost))
    ensures Kept(World(Sys(D.KgAfter(s, d, lost, k), None), torn + {d}), ext)
  {
    var t := D.KgAfter(s, d, lost, k);
    DeletionRecords(s, d, lost, k);
    OwnedIsNamed(s, d, torn, ext);
    OwnedByDoc(s, d, torn, ext);
    PartialDeletionLinks(s, t, d, k, ext);
    PartialDeletionCovers(s, t, d, torn, ext);
  }

  lemma PartialDeletionLinks(s: Store, t: Store, d: DocId, k: nat, ext: Extractor)
    requires Linked(s, ext) && d in s.rows && Narrower(t, s) && TracksFewer(t, s) && t.rows == s.rows
    requires t.anchors == (if k == D.KG_STAGES then s.anchors - {d} else s.anchors)
    requires k == D.KG_STAGES ==> NamedBy(t, s.OwnedChunks(d), {})
    ensures Linked(t, ext)
  {
    forall c, ch | Holds(t, c, ch) && Committed(t, ch)
      ensures s.AnchorsOf(ch.doc) <= t.AnchorsOf(ch.doc)
    {
      assert ch.doc == d ==> ch in s.OwnedChunks(d);
    }
    FewerRecords(s, t, ext);
  }

  lemma PartialDeletionCovers(s: Store, t: Store, d: DocId, torn: set<DocId>, ext: Extractor)
    requires Covered(Sys(Whole(s, torn), None), ext) && d in s.rows
    requires forall ch | ch in s.OwnedChunks(d) :: ch.doc == d
    requires t.Aligned() && Narrower(t, s) && t.cap == s.cap && t.rows == s.rows && s.text - s.OwnedChunks(d) <= t.text
    ensures Covered(Sys(Whole(t, torn + {d}), None), ext)
  {
    var ws, wt := Whole(s, torn), Whole(t, torn + {d});
    WholeHolds(s, torn);
    WholeHolds(t, torn + {d});
    forall c, ch | Holds(wt, c, ch)
      ensures Holds(ws, c, ch) && ch in wt.OwnedChunks(ch.doc)
    {
      assert Holds(t, c, ch);
    }
    forall x | x in wt.rows
      ensures RowSound(wt, x, ext)
    {
      assert RowSound(ws, x, ext);
      forall ch | ch in wt.rows[x].chunks
        ensures ch in wt.text
      {
        assert ch in TornText(s, torn) ==> ch in TornText(t, torn + {d});
        assert x == d ==> ch in TornText(t, torn + {d});
      }
    }
  }

  lemma RowRemovalKept(s: Store, d: DocId, k: nat, torn: set<DocId>, ext: Extractor)
    requires Kept(World(Sys(s, None), torn), ext) && d in s.rows && k >= ROW_STAGE
    requires NamedBy(s, s.OwnedChunks(d), {})
    ensures Kept(World(Sys(WithoutRow(s, d, k), None), torn - {d}), ext)
  {
    var t, less := WithoutRow(s, d, k), torn - {d};
    var ws, wt := Whole(s, torn), Whole(t, less);
    WholeHolds(s, torn);
    WholeHolds(t, less);
    SameLists(s, t);
    OwnedByDoc(s, d, torn, ext);
    RemovalCovers(s, d, k, torn, ext);
    RemovalLinks(s, t, d, ext);
  }

  lemma RemovalCovers(s: Store, d: DocId, k: nat, torn: set<DocId>, ext: Extractor)
    requires Covered(Sys(Whole(s, torn), None), ext) && d in s.rows && NamedBy(s, s.OwnedChunks(d), {})
    ensures Covered(Sys(Whole(WithoutRow(s, d, k), torn - {d}), None), ext)
  {
    var t, less := WithoutRow(s, d, k), torn - {d};
    var ws, wt := Whole(s, torn), Whole(t, less);
    SameLists(ws, wt);
    forall c, ch | Holds(wt, c, ch)
      ensures ch in wt.OwnedChunks(ch.doc)
    {
      assert Holds(ws, c, ch) && Holds(s, c, ch);
      assert ch in ws.OwnedChunks(ch.doc);
      assert ch.doc != d;
    }
    forall x | x in wt.rows
      ensures RowSound(wt, x, ext)
    {
      assert RowSound(ws, x, ext);
      forall ch | ch in wt.rows[x].chunks
        ensures ch in wt.text
      {
        if ch in TornText(s, torn) {
          TornTextOf(s, torn, ch, ext);
          assert ch in TornText(t, less);
        }
      }
    }
  }

  lemma RemovalLinks(s: Store, t: Store, d: DocId, ext: Extractor)
    requires Linked(s, ext) && t.tracking == s.tracking && t.graph == s.graph && t.rows == s.rows - {d} && t.anchors == s.anchors
    ensures Linked(t, ext)
  {
    SameLists(s, t);
    SameTracked(s, t);
    FewerRecords(s, t, ext);
  }

  lemma NothingOwnedNothingHeld(s: Store, d: DocId)
    requires s.OwnedChunks(d) == {}
    ensures NamedBy(s, s.OwnedChunks(d), {})
  {
  }

  lemma DeletionKept(s: Store, d: DocId, lost: set<Candidate>, k: nat, torn: set<DocId>, ext: Extractor)
    requires Kept(World(Sys(s, None), torn), ext) && d in s.rows && Lossless(World(Sys(s, None), torn), DeleteCall(d, lost, k))
    ensures Kept(Happens(World(Sys(s, None), torn), DeleteCall(d, lost, k), ext), ext)
  {
    var w := World(Sys(s, None), torn);
    if s.OwnedChunks(d) == {} {
      NothingOwnedNothingHeld(s, d);
      if k > ROW_STAGE {
        RowRemovalKept(s, d, k, torn, ext);
      }
    } else if k == 0 {
      assert D.KgAfter(s, d, lost, 0) == s;
    } else if k < ROW_STAGE {
      PartialDeletionKept(s, d, lost, k, torn, ext);
      D.KgRows(s, d, lost, k);
    } else {
      PartialDeletionKept(s, d, lost, D.KG_STAGES, torn, ext);
      DeletionRecords(s, d, lost, D.KG_STAGES);
      OwnedIsNamed(s, d, torn, ext);
      RowRemovalKept(D.KgDeleted(s, d, lost), d, k, torn + {d}, ext);
      assert torn + {d} - {d} == torn - {d};
    }
  }

  // ---------------------------------------------------------------- runs

  lemma RunningStepKept(s: Store, o: Op, a: Action, torn: set<DocId>, ext: Extractor)
    requires Kept(World(Sys(s, Some(o)), torn), ext) && !a.MergeObject?
    ensures Kept(World(OpStep(s, o, a, ext), torn), ext)
  {
    NextCovered(Sys(Whole(s, torn), Some(o)), a, ext);
    assert OpSound(Whole(s, torn), o, ext);
    OpStepWhole(s, o, a, torn, ext);
    StepLinks(s, o, a, torn, ext);
    StepKeepsOp(s, o, a, torn, ext);
    StepLeavesRest(s, o, a, ext);
  }

  lemma WholeMergeCovered(s: Store, o: Op, m: Merge, torn: set<DocId>, ext: Extractor)
    requires Covered(Sys(Whole(s, torn), Some(o)), ext) && o.pc.AtMerge? && MayMerge(o, m, ext)
    ensures OpStep(s, o, MergeObject(m), ext) == Sys(Merged(s, m, Mentioning(ext, o.entries, m)), Some(o.(done := o.done + {m})))
    ensures Covered(Sys(Whole(Merged(s, m, Mentioning(ext, o.entries, m)), torn), Some(o.(done := o.done + {m}))), ext)
  {
    NextCovered(Sys(Whole(s, torn), Some(o)), MergeObject(m), ext);
    MergeStepWhole(s, o, m, torn, ext);
  }

  lemma MergeStepKept(s: Store, o: Op, m: Merge, torn: set<DocId>, ext: Extractor)
    requires Kept(World(Sys(s, Some(o)), torn), ext) && o.pc.AtMerge? && MayMerge(o, m, ext)
    ensures Kept(World(OpStep(s, o, MergeObject(m), ext), torn), ext)
  {
    WholeMergeCovered(s, o, m, torn, ext);
    MergeLinks(s, o, m, torn, ext);
    MergeKeepsOp(s, o, m, ext);
    MergeLeavesRows(s, m, Mentioning(ext, o.entries, m));
    KeptIs(Merged(s, m, Mentioning(ext, o.entries, m)), o.(done := o.done + {m}), torn, ext);
  }

  lemma KeptIs(t: Store, o: Op, torn: set<DocId>, ext: Extractor)
    requires Covered(Sys(Whole(t, torn), Some(o)), ext) && torn <= t.rows.Keys && Linked(t, ext) && OpExtra(t, o, ext)
    ensures Kept(World(Sys(t, Some(o)), torn), ext)
  {
  }

  lemma CallKept(s: Store, d: DocId, texts: seq<string>, torn: set<DocId>, ext: Extractor)
    requires Kept(World(Sys(s, None), torn), ext) && CallGuard(s, d, texts)
    ensures Kept(World(CallStep(Sys(s, None), d, texts), torn), ext)
  {
    NextCovered(Sys(Whole(s, torn), None), Call(d, texts), ext);
    CallWhole(s, d, texts, torn);
    CallLinks(s, d, texts, ext);
  }

  lemma RollbackKept(s: Store, d: DocId, k: nat, torn: set<DocId>, ext: Extractor)
    requires Kept(World(Sys(s, None), torn), ext) && s.JournalOf(d).Some?
    requires s.rows[d].journal.value.mode.Patch? && k > STAGES ==> RollbackSpares(s, d)
    ensures var t := RollbackAfter(s, d, k); Kept(World(Sys(t, None), StillTorn(torn, t)), ext)
  {
    NextCovered(Sys(Whole(s, torn), None), RollBack(d, k), ext);
    RollbackWhole(s, d, k, torn, ext);
    RollbackLinks(s, d, k, torn, ext);
  }

  lemma AllStillTorn(torn: set<DocId>, t: Store)
    requires torn <= t.rows.Keys
    ensures (set d | d in torn && d in t.rows) == torn
  {
  }

  lemma IdleStepKept(s: Store, a: Action, torn: set<DocId>, ext: Extractor)
    requires Kept(World(Sys(s, None), torn), ext) && Permitted(World(Sys(s, None), torn), Step(a))
    ensures Kept(Happens(World(Sys(s, None), torn), Step(a), ext), ext)
  {
    if a.Call? {
      CallKept(s, a.doc, a.texts, torn, ext);
      AllStillTorn(torn, CallStep(Sys(s, None), a.doc, a.texts).store);
    } else if a.RollBack? && s.JournalOf(a.doc).Some? {
      RollbackKept(s, a.doc, a.upTo, torn, ext);
    } else {
      AllStillTorn(torn, s);
    }
  }

  lemma StepKept(w: World, a: Action, ext: Extractor)
    requires Kept(w, ext) && Permitted(w, Step(a))
    ensures Kept(Happens(w, Step(a), ext), ext)
  {
    match w.sys.running {
      case Some(o) =>
        assert w == World(Sys(w.sys.store, Some(o)), w.torn);
        if !a.MergeObject? {
          RunningStepKept(w.sys.store, o, a, w.torn, ext);
        } else if o.pc.AtMerge? && MayMerge(o, a.m, ext) {
          MergeStepKept(w.sys.store, o, a.m, w.torn, ext);
        }
        AllStillTorn(w.torn, Next(w.sys, a, ext).store);
      case None =>
        assert w == World(Sys(w.sys.store, None), w.torn);
        IdleStepKept(w.sys.store, a, w.torn, ext);
    }
  }

  lemma CallLinks(s: Store, d: DocId, texts: seq<string>, ext: Extractor)
    requires Linked(s, ext)
    ensures var n := CallStep(Sys(s, None), d, texts);
            && Linked(n.store, ext) && s.rows.Keys <= n.store.rows.Keys
            && (n.running.Some? ==> n.running.value.doc == d && OpExtra(n.store, n.running.value, ext))
  {
    QuietStep(s, CallStep(Sys(s, None), d, texts).store, ext);
  }

  lemma EventKept(w: World, e: Event, ext: Extractor)
    requires Kept(w, ext) && Permitted(w, e) && Lossless(w, e)
    ensures Kept(Happens(w, e, ext), ext)
  {
    match e {
      case Step(a) => StepKept(w, a, ext);
      case DeleteCall(d, lost, k) =>
        if w.sys.running.None? && d in w.sys.store.rows {
          assert w == World(Sys(w.sys.store, None), w.torn);
          DeletionKept(w.sys.store, d, lost, k, w.torn, ext);
        }
    }
  }

  lemma {:induction false} RunsStayKept(w: World, events: seq<Event>, ext: Extractor)
    requires Kept(w, ext) && AllPermitted(w, events, ext) && AllLossless(w, events, ext)
    ensures Kept(Run(w, events, ext), ext)
    decreases |events|
  {
    if events != [] {
      EventKept(w, events[0], ext);
      RunsStayKept(Happens(w, events[0], ext), events[1..], ext);
    }
  }

  /** In a kept world every record leads back from a durable record of the chunk's document. */
  lemma RecordIsNamed(w: World, ext: Extractor, c: Candidate, ch: ChunkId)
    requires Kept(w, ext) && Holds(w.sys.store, c, ch)
    ensures var s := w.sys.store;
            && ch.doc in s.rows && ch in s.OwnedChunks(ch.doc)
            && (ch in s.rows[ch.doc].chunks ==> c in s.AnchorsOf(ch.doc))
            && (ch !in s.rows[ch.doc].chunks ==> s.JournalOf(ch.doc).Some? && c in s.JournalOf(ch.doc).value.cands)
  {
    var s := w.sys.store;
    var whole := Whole(s, w.torn);
    WholeHolds(s, w.torn);
    assert Holds(whole, c, ch);
    assert ch in whole.OwnedChunks(ch.doc);
    assert RowSound(whole, ch.doc, ext);
    if ch in s.rows[ch.doc].chunks {
      assert Committed(s, ch);
    }
  }

  /**
   * Full coverage, with deletions among the events: in every reachable state an object that records a
   * chunk is named by a durable record of the chunk's document, its anchors for a committed chunk, its
   * journal for a staged one; a document that is gone is recorded nowhere.
   */
  lemma EveryRecordIsNamed(w: World, events: seq<Event>, ext: Extractor, c: Candidate, ch: ChunkId)
    requires Kept(w, ext) && AllPermitted(w, events, ext) && AllLossless(w, events, ext)
    requires Holds(Run(w, events, ext).sys.store, c, ch)
    ensures var s := Run(w, events, ext).sys.store;
            && ch.doc in s.rows && ch in s.OwnedChunks(ch.doc)
            && (ch in s.rows[ch.doc].chunks ==> c in s.AnchorsOf(ch.doc))
            && (ch !in s.rows[ch.doc].chunks ==> s.JournalOf(ch.doc).Some? && c in s.JournalOf(ch.doc).value.cands)
  {
    RunsStayKept(w, events, ext);
    RecordIsNamed(Run(w, events, ext), ext, c, ch);
  }

  /** A quiet store, with every document committed, satisfies the invariant when its anchors and edges are in order. */
  lemma QuietStoresAreKept(s: Store, ext: Extractor)
    requires s.cap > 0 && s.Aligned() && EdgesTrue(s, ext) && Anchored(s) && Closed(s)
    requires forall d | d in s.rows :: s.rows[d].journal.None? && forall ch | ch in s.rows[d].chunks :: ch.doc == d && ch in s.text
    requires forall c, ch | Holds(s, c, ch) :: Committed(s, ch)
    ensures Kept(World(Sys(s, None), {}), ext)
  {
    WholeHolds(s, {});
    assert Whole(s, {}) == s;
  }
}
