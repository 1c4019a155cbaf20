/**
 * Runs on which best-effort rebuild loses objects: the graph's and the vectors' lists of those objects may go
 * stale, and nothing else differs from a run that loses none. So what tracking records stays named.
 */
module LossyRuns {
  import opened Basics
  import opened Sources
  import opened Stores
  import opened Purge
  import opened Merging
  import opened CustomChunks
  import opened Coverage
  import opened DeletionCoverage
  import D = Deletion

  /** The stores differ at most in the lists of the graph and the vectors. */
  ghost predicate Alike(s: Store, t: Store) {
    && t == s.(graph := t.graph, index := t.index)
    && t.graph.Keys == s.graph.Keys && t.index.Keys == s.index.Keys
    && s.Aligned()
  }

  ghost predicate AlikeWorlds(v: World, w: World) {
    Alike(v.sys.store, w.sys.store) && w == World(Sys(w.sys.store, v.sys.running), v.torn)
  }

  lemma AlikeIsAligned(s: Store, t: Store)
    requires Alike(s, t)
    ensures t.Aligned() && forall c :: t.Tracked(c) == s.Tracked(c)
  {
  }

  // ---------------------------------------------------------------- purges

  function Losing(job: Job, lost: set<Candidate>): Job {
    job.(lost := lost)
  }

  /** The graph's list decides at most whether an object is rebuilt from the tracking row that it has. */
  lemma AlikeVerdict(s: Store, t: Store, job: Job, c: Candidate)
    requires Alike(s, t) && c in s.graph
    ensures var p, q := MakePlan(s, job), MakePlan(t, job);
            && (c in p.delete <==> c in q.delete)
            && (c in p.rebuild ==> p.rebuild[c] == Subtract(s.tracking[c], job.ids))
            && (c in q.rebuild ==> q.rebuild[c] == Subtract(s.tracking[c], job.ids))
            && (c in p.rebuild && c !in q.rebuild ==> p.rebuild[c] == s.tracking[c])
            && (c in q.rebuild && c !in p.rebuild ==> q.rebuild[c] == s.tracking[c])
  {
    AlikeIsAligned(s, t);
  }

  lemma AlikeGone(s: Store, t: Store, job: Job)
    requires Alike(s, t)
    ensures MakePlan(s, job).delete == MakePlan(t, job).delete
    ensures Gone(s, MakePlan(s, job)) == Gone(t, MakePlan(t, job))
  {
    var p, q := MakePlan(s, job), MakePlan(t, job);
    forall c | c in s.graph
      ensures c in p.delete <==> c in q.delete
    {
      AlikeVerdict(s, t, job, c);
    }
    assert p.delete == q.delete;
  }

  lemma AlikeUpdate(s: Store, t: Store, job: Job)
    requires Alike(s, t)
    ensures s.tracking + MakePlan(s, job).rebuild == t.tracking + MakePlan(t, job).rebuild
  {
    var p, q := MakePlan(s, job), MakePlan(t, job);
    forall c
      ensures c in s.tracking + p.rebuild <==> c in t.tracking + q.rebuild
      ensures c in s.tracking + p.rebuild ==> (s.tracking + p.rebuild)[c] == (t.tracking + q.rebuild)[c]
    {
      if c in s.graph {
        AlikeVerdict(s, t, job, c);
      }
    }
  }

  lemma AlikeShape(s: Store, t: Store, job: Job, lost: set<Candidate>, k: nat)
    requires Alike(s, t) && k <= STAGES
    ensures var p, q := MakePlan(s, job), MakePlan(t, job);
            && ShapeAfter(s.graph, s, p, job, k).Keys == ShapeAfter(t.graph, t, q, Losing(job, lost), k).Keys
            && ShapeAfter(s.index, s, p, job, k).Keys == ShapeAfter(t.index, t, q, Losing(job, lost), k).Keys
  {
    AlikeGone(s, t, job);
    assert Rebuilt(s, MakePlan(s, job), job).Keys <= s.graph.Keys;
    assert Rebuilt(t, MakePlan(t, job), Losing(job, lost)).Keys <= t.graph.Keys;
  }

  lemma AlikePurge(s: Store, t: Store, job: Job, lost: set<Candidate>, k: nat)
    requires Alike(s, t) && k <= STAGES
    ensures Alike(After(s, job, k), After(t, Losing(job, lost), k))
  {
    var other := Losing(job, lost);
    PurgeKeepsAligned(s, job, k);
    if job.ids != {} {
      var a, b := After(s, job, k), After(t, other, k);
      assert MakePlan(t, other) == MakePlan(t, job);
      StagesDirect(s, MakePlan(s, job), job, k);
      StagesDirect(t, MakePlan(t, other), other, k);
      AlikeShape(s, t, job, lost, k);
      AlikeUpdate(s, t, job);
      AlikeGone(s, t, job);
      assert a.tracking == b.tracking;
    }
  }

  // ---------------------------------------------------------------- steps

  lemma AlikeEnds(s: Store, t: Store, e: set<Name>, full: seq<ChunkId>)
    requires Alike(s, t)
    ensures Ends(s, e, full) == Ends(t, e, full)
  {
    AlikeIsAligned(s, t);
    forall n | n in e
      ensures EndAfter(s, n, full) == EndAfter(t, n, full)
    {
      KnownIsTracked(s, Entity(n));
      KnownIsTracked(t, Entity(n));
    }
  }

  lemma AlikePut(s: Store, t: Store, lists: map<Candidate, seq<ChunkId>>)
    requires Alike(s, t) && Put(s, lists).Aligned()
    ensures Alike(Put(s, lists), Put(t, lists))
  {
  }

  lemma AlikeMerge(s: Store, t: Store, m: Merge, ids: seq<ChunkId>)
    requires Alike(s, t) && s.cap > 0 && ids != []
    ensures Alike(Merged(s, m, ids), Merged(t, m, ids))
  {
    var x := Object(m);
    var full := MergeIds(s.Tracked(x), ids);
    AlikeIsAligned(s, t);
    KnownIsTracked(s, x);
    KnownIsTracked(t, x);
    MergeAligned(s, m, ids);
    if m.MergeEdge? && |m.ends| != 2 {
    } else if Saturated(s, x, ids) {
    } else if m.MergeNode? {
      AlikePut(s, t, map[x := full]);
    } else {
      AlikeEnds(s, t, m.ends, full);
      AlikePut(s, t, Ends(s, m.ends, full)[x := full]);
    }
  }

  predicate WritesRows(a: Action) {
    a.JournalCandidates? || a.WriteCommit? || a.Fail?
  }

  lemma AlikeRowStep(s: Store, t: Store, o: Op, a: Action, ext: Extractor)
    requires Alike(s, t) && WritesRows(a)
    ensures Alike(OpStep(s, o, a, ext).store, OpStep(t, o, a, ext).store)
    ensures OpStep(s, o, a, ext).running == OpStep(t, o, a, ext).running
  {
    var m := OpStep(s, o, a, ext);
    assert m.store == s.(rows := m.store.rows);
    assert OpStep(t, o, a, ext) == Sys(t.(rows := m.store.rows), m.running);
  }

  lemma AlikePrewrite(s: Store, t: Store, o: Op, ext: Extractor)
    requires Alike(s, t)
    ensures var m, n := OpStep(s, o, PrewriteAnchors, ext), OpStep(t, o, PrewriteAnchors, ext);
            Alike(m.store, n.store) && m.running == n.running
  {
  }

  lemma AlikeUnion(s: Store, t: Store, o: Op, ext: Extractor)
    requires Alike(s, t)
    ensures var m, n := OpStep(s, o, UnionAnchors, ext), OpStep(t, o, UnionAnchors, ext);
            Alike(m.store, n.store) && m.running == n.running
  {
    assert s.AnchorsOf(o.doc) == t.AnchorsOf(o.doc);
  }

  lemma AlikeAnchorStep(s: Store, t: Store, o: Op, a: Action, ext: Extractor)
    requires Alike(s, t) && (a.PrewriteAnchors? || a.UnionAnchors?)
    ensures Alike(OpStep(s, o, a, ext).store, OpStep(t, o, a, ext).store)
    ensures OpStep(s, o, a, ext).running == OpStep(t, o, a, ext).running
  {
    if a.PrewriteAnchors? {
      AlikePrewrite(s, t, o, ext);
    } else {
      AlikeUnion(s, t, o, ext);
    }
  }

  lemma AlikeChunkStep(s: Store, t: Store, o: Op, ext: Extractor)
    requires Alike(s, t)
    ensures Alike(OpStep(s, o, StageChunks, ext).store, OpStep(t, o, StageChunks, ext).store)
    ensures OpStep(s, o, StageChunks, ext).running == OpStep(t, o, StageChunks, ext).running
  {
  }

  lemma AlikeStep(s: Store, t: Store, o: Op, a: Action, ext: Extractor)
    requires Alike(s, t) && s.cap > 0
    ensures Alike(OpStep(s, o, a, ext).store, OpStep(t, o, a, ext).store)
    ensures OpStep(s, o, a, ext).running == OpStep(t, o, a, ext).running
  {
    if WritesRows(a) {
      AlikeRowStep(s, t, o, a, ext);
    } else if a.PrewriteAnchors? || a.UnionAnchors? {
      AlikeAnchorStep(s, t, o, a, ext);
    } else if a.StageChunks? {
      AlikeChunkStep(s, t, o, ext);
    } else if a.MergeObject? && o.pc.AtMerge? && MayMerge(o, a.m, ext) {
      MentionedHere(ext, o.entries, a.m);
      AlikeMerge(s, t, a.m, Mentioning(ext, o.entries, a.m));
    }
  }

  lemma AlikePrune(s: Store, t: Store, d: DocId, j: Journal, owned: set<ChunkId>)
    requires Alike(s, t)
    ensures Alike(Pruned(s, d, j, owned), Pruned(t, d, j, owned))
  {
    AlikeIsAligned(s, t);
    if d in s.anchors {
      assert Pruned(s, d, j, owned).anchors[d] == Pruned(t, d, j, owned).anchors[d];
    }
  }

  lemma AlikeRollback(s: Store, t: Store, d: DocId, k: nat)
    requires Alike(s, t) && s.JournalOf(d).Some?
    ensures Alike(RollbackAfter(s, d, k), RollbackAfter(t, d, k))
  {
    var row, j := s.rows[d], s.rows[d].journal.value;
    var job := RollbackJob(d, j);
    var kk := if k <= STAGES then k else STAGES;
    AlikePurge(s, t, job, {}, kk);
    assert Losing(job, {}) == job;
    AlikePrune(After(s, job, kk), After(t, job, kk), d, j, Elems(row.chunks) - Elems(j.chunks));
  }

  lemma AlikeDeletion(s: Store, t: Store, d: DocId, lost: set<Candidate>, k: nat)
    requires Alike(s, t) && s.OwnedChunks(d) != {} && k <= D.KG_STAGES
    ensures Alike(D.KgAfter(s, d, lost, k), D.KgAfter(t, d, {}, k))
  {
    var job := D.DeletionJob(s, d, lost);
    var kk := if k == D.KG_STAGES then STAGES else D.PurgeStagesAt(k);
    assert D.DeletionJob(t, d, {}) == Losing(job, {});
    AlikePurge(s, t, job, {}, kk);
    DeletionStores(s, d, lost, k);
    DeletionStores(t, d, {}, k);
    DeletionText(s, d, lost, k);
    DeletionText(t, d, {}, k);
  }

  lemma DeletionText(s: Store, d: DocId, lost: set<Candidate>, k: nat)
    requires k <= D.KG_STAGES
    ensures D.KgAfter(s, d, lost, k).text == if k >= 2 then s.text - s.OwnedChunks(d) else s.text
  {
    D.KgStagesDirect(s, MakePlan(s, D.DeletionJob(s, d, lost)), D.DeletionJob(s, d, lost), k);
  }

  // ---------------------------------------------------------------- runs

  function LosingNone(e: Event): Event {
    match e
    case DeleteCall(d, lost, k) => DeleteCall(d, {}, k)
    case _ => e
  }

  function AllLosingNone(events: seq<Event>): seq<Event> {
    seq(|events|, i requires 0 <= i < |events| => LosingNone(events[i]))
  }

  lemma AlikeStepEvent(v: World, w: World, a: Action, ext: Extractor)
    requires AlikeWorlds(v, w) && v.sys.store.cap > 0
    ensures Alike(Next(v.sys, a, ext).store, Next(w.sys, a, ext).store) && Next(v.sys, a, ext).running == Next(w.sys, a, ext).running
    ensures Next(v.sys, a, ext).store.cap > 0
  {
    var s, t := v.sys.store, w.sys.store;
    if v.sys.running.Some? {
      AlikeStep(s, t, v.sys.running.value, a, ext);
      StepCap(s, v.sys.running.value, a, ext);
    } else if a.RollBack? && s.JournalOf(a.doc).Some? {
      AlikeRollback(s, t, a.doc, a.upTo);
      RollbackCap(s, a.doc, a.upTo);
    } else if a.Call? {
      AlikeCall(s, t, a.doc, a.texts);
    }
  }

  lemma AlikeCall(s: Store, t: Store, d: DocId, texts: seq<string>)
    requires Alike(s, t)
    ensures var m, n := CallStep(Sys(s, None), d, texts), CallStep(Sys(t, None), d, texts);
            Alike(m.store, n.store) && m.running == n.running && m.store.cap == s.cap
  {
  }

  lemma AlikeDeleteStore(s: Store, t: Store, d: DocId, lost: set<Candidate>, k: nat)
    requires Alike(s, t) && d in s.rows
    ensures Alike(DeleteStore(s, d, lost, k), DeleteStore(t, d, {}, k)) && DeleteStore(s, d, lost, k).cap == s.cap
  {
    if s.OwnedChunks(d) != {} {
      var kk := if k < ROW_STAGE then k else D.KG_STAGES;
      AlikeDeletion(s, t, d, lost, kk);
      DeletionStores(s, d, lost, kk);
    }
  }

  lemma AlikeEvent(v: World, w: World, e: Event, ext: Extractor)
    requires AlikeWorlds(v, w) && v.sys.store.cap > 0
    ensures AlikeWorlds(Happens(v, e, ext), Happens(w, LosingNone(e), ext))
    ensures Happens(v, e, ext).sys.store.cap > 0
  {
    match e {
      case Step(a) =>
        AlikeStepEvent(v, w, a, ext);
      case DeleteCall(d, lost, k) =>
        if v.sys.running.None? && d in v.sys.store.rows {
          AlikeDeleteStore(v.sys.store, w.sys.store, d, lost, k);
        }
    }
  }

  lemma StepCap(s: Store, o: Op, a: Action, ext: Extractor)
    ensures OpStep(s, o, a, ext).store.cap == s.cap
  {
    if a.MergeObject? {
      MergeLeavesRows(s, a.m, Mentioning(ext, o.entries, a.m));
    } else {
      StepLeavesRest(s, o, a, ext);
    }
  }

  lemma RollbackCap(s: Store, d: DocId, k: nat)
    requires s.JournalOf(d).Some?
    ensures RollbackAfter(s, d, k).cap == s.cap
  {
    var job, kk := RollbackJob(d, s.rows[d].journal.value), if k <= STAGES then k else STAGES;
    RollbackIsPurge(s, d, k, After(s, job, kk));
    if job.ids != {} {
      StagesDirect(s, MakePlan(s, job), job, kk);
    }
  }

  lemma AlikePermitted(v: World, w: World, e: Event)
    requires AlikeWorlds(v, w) && Permitted(v, e)
    ensures Permitted(w, LosingNone(e))
  {
    var s, t := v.sys.store, w.sys.store;
    AlikeIsAligned(s, t);
    if v.sys.running.None? && e.Step? && e.a.RollBack? && s.JournalOf(e.a.doc).Some? && RollbackSpares(s, e.a.doc) {
      AlikeGone(s, t, RollbackJob(e.a.doc, s.rows[e.a.doc].journal.value));
      assert RollbackSpares(t, e.a.doc);
    }
  }

  /** The run that loses none of what this one loses is permitted as well, loses nothing, and is alike throughout. */
  lemma {:induction false} RunsAreAlike(v: World, w: World, events: seq<Event>, ext: Extractor)
    requires AlikeWorlds(v, w) && v.sys.store.cap > 0 && AllPermitted(v, events, ext)
    ensures AllPermitted(w, AllLosingNone(events), ext) && AllLossless(w, AllLosingNone(events), ext)
    ensures AlikeWorlds(Run(v, events, ext), Run(w, AllLosingNone(events), ext))
    decreases |events|
  {
    var none := AllLosingNone(events);
    if events != [] {
      AlikePermitted(v, w, events[0]);
      AlikeEvent(v, w, events[0], ext);
      assert none[1..] == AllLosingNone(events[1..]);
      RunsAreAlike(Happens(v, events[0], ext), Happens(w, none[0], ext), events[1..], ext);
    }
  }

  /**
   * Whatever best-effort rebuild loses on the way: in every reachable state an object whose tracking records
   * a chunk is named by a durable record of the chunk's document, and a deleted document is tracked nowhere.
   */
  lemma EveryTrackedIsNamed(w: World, events: seq<Event>, ext: Extractor, c: Candidate, ch: ChunkId)
    requires Kept(w, ext) && AllPermitted(w, events, ext)
    requires ch in Run(w, events, ext).sys.store.Tracked(c)
    ensures var s := Run(w, events, ext).sys.store;
            && ch.doc in s.rows && ch in s.OwnedChunks(ch.doc)
            && (ch in s.rows[ch.doc].chunks ==> c in s.AnchorsOf(ch.doc))
            && (ch !in s.rows[ch.doc].chunks ==> s.JournalOf(ch.doc).Some? && c in s.JournalOf(ch.doc).value.cands)
  {
    var none := AllLosingNone(events);
    RunsAreAlike(w, w, events, ext);
    AlikeIsAligned(Run(w, events, ext).sys.store, Run(w, none, ext).sys.store);
    EveryRecordIsNamed(w, none, ext, c, ch);
  }
}
