/**
 * The sweep over the stores themselves: rollbacks of many documents, in any order, each stopping behind any
 * stage and tried again later. "Each one is independent": what they leave together does not depend on the order,
 * except for one family of anchors.
 */
module SweptStores {
  import opened Basics
  import opened Sources
  import opened Stores
  import opened Purge
  import opened Merging
  import opened CustomChunks
  import opened Coverage
  import S = RollbackSweep

  /** One rollback in a sweep: it stops behind `upTo` stages. */
  datatype Attempt = Attempt(doc: DocId, upTo: nat)

  /** The row is read again under the lock, and only one with a journal is rolled back. */
  function Tried(s: Store, a: Attempt): Store {
    if s.JournalOf(a.doc).Some? then RollbackAfter(s, a.doc, a.upTo) else s
  }

  function TriedAll(s: Store, attempts: seq<Attempt>): Store
    decreases |attempts|
  {
    if attempts == [] then s else TriedAll(Tried(s, attempts[0]), attempts[1..])
  }

  predicate Done(s: Store) {
    forall d | d in s.rows :: s.rows[d].journal.None?
  }

  // ---------------------------------------------------------------- what is left when nothing is unfinished

  predicate Unfinished(s: Store, d: DocId) {
    s.JournalOf(d).Some?
  }

  /** All chunks staged by unfinished operations. */
  function Staged(s: Store): set<ChunkId> {
    set d, ch | d in s.rows && s.rows[d].journal.Some? && ch in s.rows[d].journal.value.chunks :: ch
  }

  /** A rollback that stages chunks names the object, and so rebuilds it. */
  predicate Due(s: Store, c: Candidate) {
    exists d :: d in s.rows && Names(s, d, c)
  }

  predicate Names(s: Store, d: DocId, c: Candidate) {
    d in s.rows && s.rows[d].journal.Some? && s.rows[d].journal.value.chunks != [] && c in s.rows[d].journal.value.cands
  }

  function Rest(s: Store, c: Candidate): seq<ChunkId> {
    Subtract(s.Tracked(c), Staged(s))
  }

  /** The object keeps a source that is not staged, and so does each of its ends. */
  ghost predicate Alive(s: Store, c: Candidate) {
    && c in s.graph && Rest(s, c) != []
    && (c.Relation? ==> forall n | n in c.ends && Entity(n) in s.graph :: Rest(s, Entity(n)) != [])
  }

  ghost function Relisted(s: Store, lists: map<Candidate, seq<ChunkId>>): map<Candidate, seq<ChunkId>> {
    map c | c in lists && Alive(s, c) :: if Due(s, c) then s.Limit(Rest(s, c)) else lists[c]
  }

  function Restored(s: Store): map<DocId, Row> {
    map d | d in s.rows && !(s.rows[d].journal.Some? && s.rows[d].journal.value.mode.Create?) ::
      if s.rows[d].journal.Some? then RestoredRow(s.rows[d], s.rows[d].journal.value) else s.rows[d]
  }

  function Created(s: Store): set<DocId> {
    set d | d in s.rows && s.rows[d].journal.Some? && s.rows[d].journal.value.mode.Create?
  }

  /** The document's own chunks, staged ones excepted. */
  function Own(s: Store, d: DocId): set<ChunkId>
    requires d in s.rows
  {
    Elems(s.rows[d].chunks) - if s.rows[d].journal.Some? then Elems(s.rows[d].journal.value.chunks) else {}
  }

  /** The stores with all unfinished operations undone, in one step; anchors aside. */
  ghost function Undone(s: Store): Store {
    s.(rows := Restored(s),
       bodies := s.bodies - Created(s),
       text := s.text - Staged(s),
       tracking := map c | c in s.graph && Alive(s, c) :: Rest(s, c),
       graph := Relisted(s, s.graph),
       index := Relisted(s, s.index),
       anchors := map[])
  }

  // ---------------------------------------------------------------- one rollback, object by object

  /** The object or one of its ends has no source outside the given chunks. */
  predicate Emptied(s: Store, ids: set<ChunkId>, c: Candidate) {
    || Subtract(s.Tracked(c), ids) == []
    || (c.Relation? && exists n :: n in c.ends && Entity(n) in s.graph && Subtract(s.Tracked(Entity(n)), ids) == [])
  }

  lemma PlannedObject(s: Store, job: Job, c: Candidate)
    requires s.Aligned() && job.policy.RollbackPolicy? && job.named.Some? && c in s.graph
    ensures var p := MakePlan(s, job);
            && (c in p.delete <==> c in job.named.value && Subtract(s.Tracked(c), job.ids) == [])
            && (c in p.rebuild <==> c in job.named.value && Subtract(s.Tracked(c), job.ids) != [])
            && (c in p.rebuild ==> p.rebuild[c] == Subtract(s.Tracked(c), job.ids))
  {
  }

  lemma StoppedObject(s: Store, job: Job, k: nat, c: Candidate)
    requires job.ids != {} && k <= STAGES && job.policy.RollbackPolicy?
    requires MakePlan(s, job).rebuild.Keys <= s.graph.Keys
    ensures var p, t := MakePlan(s, job), After(s, job, k);
            && (c in t.graph ==> c in s.graph && t.Tracked(c) == if k >= 1 && c in p.rebuild then p.rebuild[c] else s.Tracked(c))
            && (c in t.graph <==> c in s.graph && !(k == 2 && c in Relations(p.delete)) && !(k >= 3 && c in Gone(s, p)))
            && (c in t.graph ==> t.graph[c] == if k >= 4 && c in p.rebuild then s.Limit(p.rebuild[c]) else s.graph[c])
            && (c in t.index && c in s.index ==> t.index[c] == if k >= 4 && c in p.rebuild then s.Limit(p.rebuild[c]) else s.index[c])
  {
    StagesDirect(s, MakePlan(s, job), job, k);
  }

  lemma NamedOrFree(s: Store, job: Job, c: Candidate)
    requires job.named.Some? && NamedBy(s, job.ids, job.named.value)
    ensures c !in job.named.value ==> Subtract(s.Tracked(c), job.ids) == s.Tracked(c)
  {
    if c !in job.named.value {
      forall ch | ch in Elems(s.Tracked(c))
        ensures ch !in job.ids
      {
        assert Holds(s, c, ch) ==> ch !in job.ids;
      }
      SubtractNothing(s.Tracked(c), job.ids);
    }
  }

  lemma DeletedMeansNoSource(s: Store, job: Job, c: Candidate)
    requires s.Aligned() && job.policy.RollbackPolicy? && job.named.Some? && c in s.graph
    requires NamedBy(s, job.ids, job.named.value)
    ensures c in MakePlan(s, job).delete <==> Subtract(s.Tracked(c), job.ids) == []
  {
    PlannedObject(s, job, c);
    NamedOrFree(s, job, c);
  }

  lemma GoneMeansEmptied(s: Store, job: Job, c: Candidate)
    requires s.Aligned() && job.policy.RollbackPolicy? && job.named.Some? && c in s.graph
    requires NamedBy(s, job.ids, job.named.value)
    ensures c in Gone(s, MakePlan(s, job)) <==> Emptied(s, job.ids, c)
  {
    var p := MakePlan(s, job);
    DeletedMeansNoSource(s, job, c);
    if c in Incident(s, p.delete) {
      var n :| n in c.ends && Entity(n) in p.delete;
      DeletedMeansNoSource(s, job, Entity(n));
    }
    if c.Relation? && exists n :: n in c.ends && Entity(n) in s.graph && Subtract(s.Tracked(Entity(n)), job.ids) == [] {
      var n :| n in c.ends && Entity(n) in s.graph && Subtract(s.Tracked(Entity(n)), job.ids) == [];
      DeletedMeansNoSource(s, job, Entity(n));
    }
  }

  // ---------------------------------------------------------------- the invariant of a sweep

  /** Rows list chunks of their own documents, and a journal names everything that records its staged chunks. */
  ghost predicate Sound(s: Store) {
    s.Aligned() && AllOwned(s) && forall d | d in s.rows :: SoundRow(s, d)
  }

  ghost predicate SoundRow(s: Store, d: DocId)
    requires d in s.rows
  {
    && (forall ch | ch in s.rows[d].chunks :: ch.doc == d)
    && (s.rows[d].journal.Some? ==>
          && SoundJournal(d, s.rows[d].chunks, s.rows[d].journal.value)
          && NamedBy(s, Elems(s.rows[d].journal.value.chunks), s.rows[d].journal.value.cands))
  }

  predicate SoundJournal(d: DocId, chunks: seq<ChunkId>, j: Journal) {
    && (forall ch | ch in j.chunks :: ch.doc == d && ch !in chunks)
    && (j.mode.Create? ==> chunks == [])
  }

  /** Whatever the system's runs reach is such a state. */
  lemma CoveredIsSound(s: Store, ext: Extractor)
    requires Covered(Sys(s, None), ext)
    ensures Sound(s)
  {
    forall d | d in s.rows
      ensures SoundRow(s, d)
    {
      assert RowSound(s, d, ext);
      if s.rows[d].journal.Some? {
        var j := s.rows[d].journal.value;
        PendingIsNew(s.rows[d].chunks, j.mode, j.op);
        forall ch | ch in j.chunks
          ensures ch.doc == d && ch !in s.rows[d].chunks
        {
          assert ch in Elems(j.chunks) && ch in Elems(j.op);
          assert ch !in Elems(s.rows[d].chunks);
        }
      }
    }
  }

  function Ids(s: Store, d: DocId): set<ChunkId>
    requires Unfinished(s, d)
  {
    Elems(s.rows[d].journal.value.chunks)
  }

  function StopOf(k: nat): nat {
    if k <= STAGES then k else STAGES
  }

  /** The rollback's last step has been taken: the row carries no journal any more, or is gone. */
  predicate Ends(s: Store, a: Attempt)
    requires Unfinished(s, a.doc)
  {
    a.upTo >= ROLLBACK_STAGES || (a.upTo > STAGES && s.rows[a.doc].journal.value.mode.Create?)
  }

  /** What one object is behind a rollback that stopped somewhere. */
  lemma ObjectAfter(s: Store, d: DocId, k: nat, c: Candidate)
    requires Sound(s) && Unfinished(s, d)
    ensures var t, ids, cands := RollbackAfter(s, d, k), Ids(s, d), s.rows[d].journal.value.cands;
            && (c in t.graph ==> c in s.graph)
            && (c in s.graph && c !in t.graph ==> Emptied(s, ids, c))
            && (c in t.graph ==> t.Tracked(c) == s.Tracked(c) || t.Tracked(c) == Subtract(s.Tracked(c), ids))
            && (c in t.graph && k > STAGES ==> t.Tracked(c) == Subtract(s.Tracked(c), ids) && !Emptied(s, ids, c))
  {
    var job := RollbackJob(d, s.rows[d].journal.value);
    var p := After(s, job, StopOf(k));
    RollbackIsPurge(s, d, k, p);
    if job.ids == {} {
      if c in s.graph {
        NothingEmptied(s, job.ids, c);
      }
    } else {
      StoppedObject(s, job, StopOf(k), c);
      if c in s.graph {
        PlannedObject(s, job, c);
        GoneMeansEmptied(s, job, c);
        NamedOrFree(s, job, c);
      }
    }
  }

  lemma NothingEmptied(s: Store, ids: set<ChunkId>, c: Candidate)
    requires s.Aligned() && ids == {} && c in s.graph
    ensures !Emptied(s, ids, c) && Subtract(s.Tracked(c), ids) == s.Tracked(c)
  {
    SubtractNothing(s.Tracked(c), ids);
    if c.Relation? {
      forall n | n in c.ends && Entity(n) in s.graph
        ensures Subtract(s.Tracked(Entity(n)), ids) != []
      {
        SubtractNothing(s.Tracked(Entity(n)), ids);
      }
    }
  }

  lemma ListsAfter(s: Store, d: DocId, k: nat, c: Candidate)
    requires Sound(s) && Unfinished(s, d) && c in RollbackAfter(s, d, k).graph
    ensures var t, list := RollbackAfter(s, d, k), s.Limit(Subtract(s.Tracked(c), Ids(s, d)));
            && c in s.graph && c in s.index && c in t.index
            && ((t.graph[c] == s.graph[c] && t.index[c] == s.index[c]) || (Names(s, d, c) && t.graph[c] == t.index[c] == list))
            && (k > STAGES && Names(s, d, c) ==> t.graph[c] == t.index[c] == list)
  {
    var j := s.rows[d].journal.value;
    var job := RollbackJob(d, j);
    var p := After(s, job, StopOf(k));
    RollbackIsPurge(s, d, k, p);
    PurgeKeepsAligned(s, job, StopOf(k));
    assert j.chunks != [] ==> j.chunks[0] in job.ids;
    if job.ids != {} {
      StoppedObject(s, job, StopOf(k), c);
      PlannedObject(s, job, c);
    }
  }

  lemma EndStays(s: Store, d: DocId, k: nat, c: Candidate, n: Name)
    requires Sound(s) && Unfinished(s, d) && c in RollbackAfter(s, d, k).graph
    requires c.Relation? && n in c.ends && Entity(n) in s.graph
    ensures Entity(n) in RollbackAfter(s, d, k).graph
  {
    var job := RollbackJob(d, s.rows[d].journal.value);
    RollbackIsPurge(s, d, k, After(s, job, StopOf(k)));
    if job.ids != {} {
      StoppedObject(s, job, StopOf(k), c);
      StoppedObject(s, job, StopOf(k), Entity(n));
    }
  }

  lemma RowsAfter(s: Store, a: Attempt)
    requires Sound(s) && Unfinished(s, a.doc)
    ensures var t := RollbackAfter(s, a.doc, a.upTo);
            && (forall x | x != a.doc :: (x in t.rows <==> x in s.rows) && (x in t.rows ==> t.rows[x] == s.rows[x]))
            && (if !Ends(s, a) then a.doc in t.rows && t.rows[a.doc] == s.rows[a.doc]
                else if s.rows[a.doc].journal.value.mode.Create? then a.doc !in t.rows
                else a.doc in t.rows && t.rows[a.doc] == Row(Processed, s.rows[a.doc].chunks, None))
  {
    RollbackRow(s, a.doc, a.upTo);
    assert SoundRow(s, a.doc);
    SubtractNothing(s.rows[a.doc].chunks, Ids(s, a.doc));
  }

  lemma StagedAfter(s: Store, a: Attempt)
    requires Sound(s) && Unfinished(s, a.doc)
    ensures Ids(s, a.doc) <= Staged(s)
    ensures Staged(RollbackAfter(s, a.doc, a.upTo)) == Staged(s) - if Ends(s, a) then Ids(s, a.doc) else {}
  {
    var t := RollbackAfter(s, a.doc, a.upTo);
    RowsAfter(s, a);
    forall ch | ch in Staged(s)
      ensures ch in Staged(t) || (Ends(s, a) && ch in Ids(s, a.doc))
      ensures Ends(s, a) && ch in Ids(s, a.doc) ==> ch !in Staged(t)
    {
      var d :| d in s.rows && s.rows[d].journal.Some? && ch in s.rows[d].journal.value.chunks;
      assert SoundRow(s, d) && SoundRow(s, a.doc);
      if ch in Staged(t) {
        var x :| x in t.rows && t.rows[x].journal.Some? && ch in t.rows[x].journal.value.chunks;
        assert SoundRow(s, x);
      }
    }
  }

  /** A rollback changes nothing about what an object keeps once everything is undone. */
  lemma RestAfter(s: Store, a: Attempt, c: Candidate)
    requires Sound(s) && Unfinished(s, a.doc) && c in RollbackAfter(s, a.doc, a.upTo).graph
    ensures Rest(RollbackAfter(s, a.doc, a.upTo), c) == Rest(s, c)
  {
    var t, ids, all := RollbackAfter(s, a.doc, a.upTo), Ids(s, a.doc), Staged(s);
    ObjectAfter(s, a.doc, a.upTo, c);
    StagedAfter(s, a);
    SubtractTwice(s.Tracked(c), ids, all);
    SubtractTwice(s.Tracked(c), ids, all - ids);
    assert ids + all == all && ids + (all - ids) == all && all - {} == all;
    if Ends(s, a) {
      assert Rest(t, c) == Subtract(Subtract(s.Tracked(c), ids), all - ids);
    } else {
      assert Rest(t, c) == Subtract(t.Tracked(c), all);
    }
  }

  lemma AliveAfter(s: Store, a: Attempt, c: Candidate)
    requires Sound(s) && Unfinished(s, a.doc)
    ensures Alive(RollbackAfter(s, a.doc, a.upTo), c) <==> Alive(s, c)
  {
    var t, ids := RollbackAfter(s, a.doc, a.upTo), Ids(s, a.doc);
    ObjectAfter(s, a.doc, a.upTo, c);
    if c in t.graph {
      RestAfter(s, a, c);
      if c.Relation? {
        forall n | n in c.ends
          ensures Entity(n) in t.graph <==> Entity(n) in s.graph
          ensures Entity(n) in t.graph ==> Rest(t, Entity(n)) == Rest(s, Entity(n))
        {
          ObjectAfter(s, a.doc, a.upTo, Entity(n));
          if Entity(n) in s.graph {
            EndStays(s, a.doc, a.upTo, c, n);
            RestAfter(s, a, Entity(n));
          }
        }
      }
    } else if c in s.graph {
      StagedAfter(s, a);
      EmptiedIsNotAlive(s, ids, c);
    }
  }

  lemma EmptiedIsNotAlive(s: Store, ids: set<ChunkId>, c: Candidate)
    requires ids <= Staged(s) && Emptied(s, ids, c)
    ensures !Alive(s, c)
  {
    var all := Staged(s);
    assert ids + all == all;
    SubtractTwice(s.Tracked(c), ids, all);
    if Subtract(s.Tracked(c), ids) != [] {
      var n :| n in c.ends && Entity(n) in s.graph && Subtract(s.Tracked(Entity(n)), ids) == [];
      SubtractTwice(s.Tracked(Entity(n)), ids, all);
    }
  }

  lemma NamesAfter(s: Store, a: Attempt, x: DocId, c: Candidate)
    requires Sound(s) && Unfinished(s, a.doc)
    ensures Names(RollbackAfter(s, a.doc, a.upTo), x, c) <==> Names(s, x, c) && !(x == a.doc && Ends(s, a))
  {
    RowsAfter(s, a);
  }

  lemma DueAfter(s: Store, a: Attempt, c: Candidate)
    requires Sound(s) && Unfinished(s, a.doc)
    ensures var t := RollbackAfter(s, a.doc, a.upTo);
            && (Due(t, c) ==> Due(s, c))
            && (Due(s, c) && !Due(t, c) ==> Ends(s, a) && Names(s, a.doc, c))
            && (Names(s, a.doc, c) ==> Due(s, c))
  {
    var t := RollbackAfter(s, a.doc, a.upTo);
    if Due(t, c) {
      var x :| x in t.rows && Names(t, x, c);
      NamesAfter(s, a, x, c);
    }
    if Due(s, c) {
      var x :| x in s.rows && Names(s, x, c);
      NamesAfter(s, a, x, c);
      assert Names(t, x, c) ==> x in t.rows;
    }
  }

  lemma StagedIsDue(s: Store, c: Candidate, ch: ChunkId)
    requires Sound(s) && ch in s.Tracked(c)
    ensures ch in Staged(s) ==> Due(s, c)
  {
    if ch in Staged(s) {
      var d :| d in s.rows && s.rows[d].journal.Some? && ch in s.rows[d].journal.value.chunks;
      assert SoundRow(s, d) && Holds(s, c, ch) && ch in Elems(s.rows[d].journal.value.chunks);
      assert Names(s, d, c);
    }
  }

  /** An object that no unfinished operation names records none of their chunks. */
  lemma NotDueNotStaged(s: Store, c: Candidate)
    requires Sound(s) && !Due(s, c)
    ensures Rest(s, c) == s.Tracked(c)
  {
    forall ch | ch in Elems(s.Tracked(c))
      ensures ch !in Staged(s)
    {
      StagedIsDue(s, c, ch);
    }
    SubtractNothing(s.Tracked(c), Staged(s));
  }

  lemma SoundAfter(s: Store, a: Attempt)
    requires Sound(s) && Unfinished(s, a.doc)
    ensures Sound(RollbackAfter(s, a.doc, a.upTo))
  {
    var t := RollbackAfter(s, a.doc, a.upTo);
    var job := RollbackJob(a.doc, s.rows[a.doc].journal.value);
    var p := After(s, job, StopOf(a.upTo));
    RollbackIsPurge(s, a.doc, a.upTo, p);
    PurgeKeepsAligned(s, job, StopOf(a.upTo));
    PurgeNarrows(s, job, StopOf(a.upTo));
    SameLists(p, t);
    RowsAfter(s, a);
    forall c, ch | Holds(t, c, ch)
      ensures ch in t.OwnedChunks(ch.doc)
    {
      assert Holds(s, c, ch);
      FinishedIsFree(s, a, c, ch);
    }
    forall d | d in t.rows
      ensures SoundRow(t, d)
    {
      assert SoundRow(s, d);
      if t.rows[d].journal.Some? {
        assert forall c, ch | Holds(t, c, ch) :: Holds(s, c, ch);
      }
    }
  }

  lemma FinishedIsFree(s: Store, a: Attempt, c: Candidate, ch: ChunkId)
    requires Sound(s) && Unfinished(s, a.doc) && Holds(RollbackAfter(s, a.doc, a.upTo), c, ch)
    requires Holds(s, c, ch)
    ensures ch in RollbackAfter(s, a.doc, a.upTo).OwnedChunks(ch.doc)
  {
    var t, ids := RollbackAfter(s, a.doc, a.upTo), Ids(s, a.doc);
    RowsAfter(s, a);
    assert SoundRow(s, a.doc);
    if Ends(s, a) && ids != {} {
      var job := RollbackJob(a.doc, s.rows[a.doc].journal.value);
      RollbackIsPurge(s, a.doc, a.upTo, After(s, job, STAGES));
      SameLists(After(s, job, STAGES), t);
      PurgeClears(s, job, STAGES);
      assert ch !in ids;
    }
  }

  /** The list that the graph, or an index, has for an object once everything is undone. */
  lemma FinalList(s: Store, a: Attempt, c: Candidate)
    requires Sound(s) && Unfinished(s, a.doc) && Alive(s, c)
    ensures var t := RollbackAfter(s, a.doc, a.upTo);
            && c in t.graph && c in t.index && c in s.index && Rest(t, c) == Rest(s, c)
            && (if Due(t, c) then t.Limit(Rest(t, c)) else t.graph[c]) == (if Due(s, c) then s.Limit(Rest(s, c)) else s.graph[c])
            && (if Due(t, c) then t.Limit(Rest(t, c)) else t.index[c]) == (if Due(s, c) then s.Limit(Rest(s, c)) else s.index[c])
  {
    var t := RollbackAfter(s, a.doc, a.upTo);
    AliveAfter(s, a, c);
    RestAfter(s, a, c);
    DueAfter(s, a, c);
    ListsAfter(s, a.doc, a.upTo, c);
    SoundAfter(s, a);
    SameLimit(s, a);
    if !Due(t, c) && Due(s, c) {
      NotDueNotStaged(t, c);
      ObjectAfter(s, a.doc, a.upTo, c);
    }
  }

  lemma SameLimit(s: Store, a: Attempt)
    requires Unfinished(s, a.doc)
    ensures RollbackAfter(s, a.doc, a.upTo).cap == s.cap && RollbackAfter(s, a.doc, a.upTo).fifo == s.fifo
  {
    var job := RollbackJob(a.doc, s.rows[a.doc].journal.value);
    RollbackIsPurge(s, a.doc, a.upTo, After(s, job, StopOf(a.upTo)));
    if job.ids != {} {
      StagesDirect(s, MakePlan(s, job), job, StopOf(a.upTo));
    }
  }

  // ---------------------------------------------------------------- runs of rollbacks

  lemma TextAfter(s: Store, a: Attempt)
    requires Sound(s) && Unfinished(s, a.doc)
    ensures var t := RollbackAfter(s, a.doc, a.upTo); t.text - Staged(t) == s.text - Staged(s)
  {
    var job := RollbackJob(a.doc, s.rows[a.doc].journal.value);
    RollbackIsPurge(s, a.doc, a.upTo, After(s, job, StopOf(a.upTo)));
    StagedAfter(s, a);
    if job.ids != {} {
      StagesDirect(s, MakePlan(s, job), job, StopOf(a.upTo));
    }
  }

  lemma PurgeLeavesBodies(s: Store, job: Job, k: nat)
    requires k <= STAGES
    ensures After(s, job, k).bodies == s.bodies
  {
    if job.ids != {} {
      StagesDirect(s, MakePlan(s, job), job, k);
    }
  }

  lemma CreatedAfter(s: Store, a: Attempt)
    requires Sound(s) && Unfinished(s, a.doc)
    ensures Created(RollbackAfter(s, a.doc, a.upTo)) == Created(s) - if Ends(s, a) then {a.doc} else {}
  {
    RowsAfter(s, a);
  }

  lemma BodiesAfter(s: Store, a: Attempt)
    requires Sound(s) && Unfinished(s, a.doc)
    ensures var t := RollbackAfter(s, a.doc, a.upTo); t.bodies - Created(t) == s.bodies - Created(s)
  {
    var t, j := RollbackAfter(s, a.doc, a.upTo), s.rows[a.doc].journal.value;
    PurgeLeavesBodies(s, RollbackJob(a.doc, j), StopOf(a.upTo));
    CreatedAfter(s, a);
    assert t.bodies == if a.upTo > STAGES && j.mode.Create? then s.bodies - {a.doc} else s.bodies;
    assert a.upTo > STAGES && j.mode.Create? ==> a.doc in Created(s);
  }

  lemma RestoredAfter(s: Store, a: Attempt)
    requires Sound(s) && Unfinished(s, a.doc)
    ensures Restored(RollbackAfter(s, a.doc, a.upTo)) == Restored(s)
  {
    RowsAfter(s, a);
    assert SoundRow(s, a.doc);
    SubtractNothing(s.rows[a.doc].chunks, Ids(s, a.doc));
  }

  /** Rolling a document back, however far, does not change what remains when everything is undone. */
  lemma UndoneAfter(s: Store, a: Attempt)
    requires Sound(s) && Unfinished(s, a.doc)
    ensures Undone(RollbackAfter(s, a.doc, a.upTo)) == Undone(s)
  {
    var t := RollbackAfter(s, a.doc, a.upTo);
    var x, y := Undone(t), Undone(s);
    RestoredAfter(s, a);
    TextAfter(s, a);
    BodiesAfter(s, a);
    SameLimit(s, a);
    forall c
      ensures SameAt(x, y, c)
    {
      UndoneObject(s, a, c);
    }
    SameEverywhere(x, y);
  }

  lemma UndoneObject(s: Store, a: Attempt, c: Candidate)
    requires Sound(s) && Unfinished(s, a.doc)
    ensures SameAt(Undone(RollbackAfter(s, a.doc, a.upTo)), Undone(s), c)
  {
    AliveAfter(s, a, c);
    if Alive(s, c) {
      FinalList(s, a, c);
    } else {
      assert c !in Undone(s).tracking;
    }
  }

  lemma UndoneWhenDone(s: Store)
    requires Sound(s) && Done(s)
    ensures Undone(s) == s.(anchors := map[])
  {
    assert Staged(s) == {};
    assert Created(s) == {};
    assert Restored(s) == s.rows;
    forall c | c in s.graph
      ensures Alive(s, c) && Rest(s, c) == s.Tracked(c) && !Due(s, c)
    {
      SubtractNothing(s.Tracked(c), Staged(s));
      if c.Relation? {
        forall n | n in c.ends && Entity(n) in s.graph
          ensures Rest(s, Entity(n)) != []
        {
          SubtractNothing(s.Tracked(Entity(n)), Staged(s));
        }
      }
    }
    forall c
      ensures SameAt(Undone(s), s, c)
    {
    }
    SameEverywhere(Undone(s), s);
  }

  // ---------------------------------------------------------------- anchors

  /** The document still contributes to the object through its own chunks. */
  predicate Contributes(s: Store, d: DocId, c: Candidate)
    requires d in s.rows
  {
    !(Elems(s.Tracked(c)) !! Own(s, d))
  }

  /**
   * The document's own rollback leaves the object with the document's contribution, but all rollbacks together
   * take one of its ends away, and the object with it.
   */
  ghost predicate Divided(s: Store, d: DocId, c: Candidate) {
    && Unfinished(s, d) && s.rows[d].journal.value.mode.Patch?
    && c in s.AnchorsOf(d) && c in s.rows[d].journal.value.cands
    && Contributes(s, d, c) && c in s.graph
    && !Emptied(s, Ids(s, d), c) && !Alive(s, c)
  }

  ghost predicate Independent(s: Store) {
    forall d, c :: !Divided(s, d, c)
  }

  /** Whether the anchor is kept in the end. */
  ghost predicate Stays(s: Store, d: DocId, c: Candidate)
    requires Unfinished(s, d)
  {
    c in s.AnchorsOf(d) && (c in s.rows[d].journal.value.cands ==> Contributes(s, d, c) && Alive(s, c))
  }

  /** The anchors with all unfinished operations undone at once. */
  ghost function UndoneAnchors(s: Store): map<DocId, set<Candidate>> {
    map d | d in s.anchors && !(Unfinished(s, d) && s.rows[d].journal.value.mode.Create? && s.rows[d].journal.value.chunks != []) ::
      if Unfinished(s, d) && s.rows[d].journal.value.mode.Patch? then set c | c in s.anchors[d] && Stays(s, d, c) else s.anchors[d]
  }

  lemma PurgeAnchors(s: Store, d: DocId, j: Journal, k: nat)
    requires k <= STAGES
    ensures After(s, RollbackJob(d, j), k).anchors == if k == STAGES && j.mode.Create? && j.chunks != [] then s.anchors - {d} else s.anchors
  {
    var job := RollbackJob(d, j);
    assert j.chunks != [] ==> j.chunks[0] in job.ids;
    if job.ids != {} {
      StagesDirect(s, MakePlan(s, job), job, k);
    }
  }

  /** What a rollback does to the anchors. */
  lemma AnchorsAfter(s: Store, a: Attempt)
    requires Sound(s) && Unfinished(s, a.doc)
    ensures var t, d, j := RollbackAfter(s, a.doc, a.upTo), a.doc, s.rows[a.doc].journal.value;
            && (forall x | x != d :: (x in t.anchors <==> x in s.anchors) && (x in t.anchors ==> t.anchors[x] == s.anchors[x]))
            && (d in t.anchors ==> d in s.anchors && t.anchors[d] <= s.anchors[d])
            && (j.mode.Create? && j.chunks == [] ==> t.anchors == s.anchors)
            && (j.mode.Create? && d in t.anchors ==> t.anchors[d] == s.anchors[d] && (j.chunks != [] ==> !Ends(s, a)))
            && (j.mode.Patch? ==> (d in t.anchors <==> d in s.anchors))
            && (j.mode.Patch? && d in t.anchors ==>
                  t.anchors[d] == if a.upTo <= STAGES then s.anchors[d]
                                  else set c | c in s.anchors[d] && (c !in j.cands || !(Elems(t.Tracked(c)) !! Own(s, d))))
  {
    var j := s.rows[a.doc].journal.value;
    var job := RollbackJob(a.doc, j);
    var t, p := RollbackAfter(s, a.doc, a.upTo), After(s, job, StopOf(a.upTo));
    RollbackIsPurge(s, a.doc, a.upTo, p);
    assert forall c :: t.Tracked(c) == p.Tracked(c);
    PurgeAnchors(s, a.doc, j, StopOf(a.upTo));
  }

  lemma ContributesAfter(s: Store, a: Attempt, d: DocId, c: Candidate)
    requires Sound(s) && Unfinished(s, a.doc) && d in s.rows && c in RollbackAfter(s, a.doc, a.upTo).graph
    ensures !(Elems(RollbackAfter(s, a.doc, a.upTo).Tracked(c)) !! Own(s, d)) <==> Contributes(s, d, c)
  {
    ObjectAfter(s, a.doc, a.upTo, c);
    assert SoundRow(s, d) && SoundRow(s, a.doc);
    SubtractElems(s.Tracked(c), Ids(s, a.doc));
    assert Own(s, d) !! Ids(s, a.doc);
  }

  lemma OutsideLeft(s: Store, t: Store, ids: set<ChunkId>, c: Candidate)
    requires Elems(t.Tracked(c)) <= Elems(s.Tracked(c)) && Subtract(t.Tracked(c), ids) != []
    ensures Subtract(s.Tracked(c), ids) != []
  {
    var kept := Subtract(t.Tracked(c), ids);
    SubtractElems(t.Tracked(c), ids);
    SubtractElems(s.Tracked(c), ids);
    assert kept[0] in Elems(kept);
    assert kept[0] in Elems(Subtract(s.Tracked(c), ids));
  }

  lemma FewerTracked(s: Store, a: Attempt, c: Candidate)
    requires Sound(s) && Unfinished(s, a.doc)
    ensures c in RollbackAfter(s, a.doc, a.upTo).graph ==> Elems(RollbackAfter(s, a.doc, a.upTo).Tracked(c)) <= Elems(s.Tracked(c))
  {
    ObjectAfter(s, a.doc, a.upTo, c);
    SubtractElems(s.Tracked(c), Ids(s, a.doc));
  }

  lemma EmptiedBefore(s: Store, a: Attempt, ids: set<ChunkId>, c: Candidate)
    requires Sound(s) && Unfinished(s, a.doc) && c in RollbackAfter(s, a.doc, a.upTo).graph
    requires Emptied(s, ids, c)
    ensures Emptied(RollbackAfter(s, a.doc, a.upTo), ids, c)
  {
    var t := RollbackAfter(s, a.doc, a.upTo);
    FewerTracked(s, a, c);
    if Subtract(t.Tracked(c), ids) != [] {
      OutsideLeft(s, t, ids, c);
      var n :| n in c.ends && Entity(n) in s.graph && Subtract(s.Tracked(Entity(n)), ids) == [];
      EndStays(s, a.doc, a.upTo, c, n);
      FewerTracked(s, a, Entity(n));
      if Subtract(t.Tracked(Entity(n)), ids) != [] {
        OutsideLeft(s, t, ids, Entity(n));
      }
    }
  }

  lemma DividedBefore(s: Store, a: Attempt, d: DocId, c: Candidate)
    requires Sound(s) && Unfinished(s, a.doc) && Divided(RollbackAfter(s, a.doc, a.upTo), d, c)
    ensures Divided(s, d, c)
  {
    RowsAfter(s, a);
    AnchorsAfter(s, a);
    ObjectAfter(s, a.doc, a.upTo, c);
    ContributesAfter(s, a, d, c);
    AliveAfter(s, a, c);
    if Emptied(s, Ids(s, d), c) {
      EmptiedBefore(s, a, Ids(s, d), c);
    }
  }

  lemma StaysIndependent(s: Store, a: Attempt)
    requires Sound(s) && Unfinished(s, a.doc) && Independent(s)
    ensures Independent(RollbackAfter(s, a.doc, a.upTo))
  {
    forall d, c
      ensures !Divided(RollbackAfter(s, a.doc, a.upTo), d, c)
    {
      if Divided(RollbackAfter(s, a.doc, a.upTo), d, c) {
        DividedBefore(s, a, d, c);
      }
    }
  }

  lemma StaysAfter(s: Store, a: Attempt, d: DocId, c: Candidate)
    requires Sound(s) && Unfinished(s, a.doc) && Independent(s)
    requires Unfinished(s, d) && s.rows[d].journal.value.mode.Patch?
    ensures var t := RollbackAfter(s, a.doc, a.upTo);
            if d == a.doc && Ends(s, a) then c in t.AnchorsOf(d) <==> Stays(s, d, c)
            else Unfinished(t, d) && (Stays(t, d, c) <==> Stays(s, d, c))
  {
    var t := RollbackAfter(s, a.doc, a.upTo);
    RowsAfter(s, a);
    AnchorsAfter(s, a);
    AliveAfter(s, a, c);
    SoundAfter(s, a);
    if c in t.graph {
      ObjectAfter(s, a.doc, a.upTo, c);
      ContributesAfter(s, a, d, c);
      assert !Divided(s, d, c);
    } else {
      assert t.Tracked(c) == [];
    }
  }

  lemma AnchorsOfAfter(s: Store, a: Attempt, d: DocId)
    requires Sound(s) && Unfinished(s, a.doc) && Independent(s)
    ensures var u, v := UndoneAnchors(RollbackAfter(s, a.doc, a.upTo)), UndoneAnchors(s);
            (d in u <==> d in v) && (d in u ==> u[d] == v[d])
  {
    RowsAfter(s, a);
    AnchorsAfter(s, a);
    if Unfinished(s, d) && s.rows[d].journal.value.mode.Patch? {
      forall c
        ensures var t := RollbackAfter(s, a.doc, a.upTo);
                if d == a.doc && Ends(s, a) then c in t.AnchorsOf(d) <==> Stays(s, d, c)
                else Unfinished(t, d) && (Stays(t, d, c) <==> Stays(s, d, c))
      {
        StaysAfter(s, a, d, c);
      }
    }
  }

  lemma UndoneAnchorsAfter(s: Store, a: Attempt)
    requires Sound(s) && Unfinished(s, a.doc) && Independent(s)
    ensures UndoneAnchors(RollbackAfter(s, a.doc, a.upTo)) == UndoneAnchors(s)
  {
    forall d
      ensures var u, v := UndoneAnchors(RollbackAfter(s, a.doc, a.upTo)), UndoneAnchors(s);
              (d in u <==> d in v) && (d in u ==> u[d] == v[d])
    {
      AnchorsOfAfter(s, a, d);
    }
  }

  lemma AnchorsWhenDone(s: Store)
    requires Done(s)
    ensures UndoneAnchors(s) == s.anchors
  {
  }

  // ---------------------------------------------------------------- whole sweeps

  lemma {:induction false} SweepKeepsUndone(s: Store, attempts: seq<Attempt>)
    requires Sound(s)
    ensures Sound(TriedAll(s, attempts)) && Undone(TriedAll(s, attempts)) == Undone(s)
    ensures Independent(s) ==> UndoneAnchors(TriedAll(s, attempts)) == UndoneAnchors(s)
    decreases |attempts|
  {
    if attempts != [] {
      var a := attempts[0];
      if Unfinished(s, a.doc) {
        SoundAfter(s, a);
        UndoneAfter(s, a);
        if Independent(s) {
          UndoneAnchorsAfter(s, a);
          StaysIndependent(s, a);
        }
      }
      SweepKeepsUndone(Tried(s, a), attempts[1..]);
    }
  }

  /**
   * Sweeps converge: however the rollbacks of all documents were ordered, wherever they stopped and however often
   * they were tried again, when no journal is left the stores are what undoing all operations at once gives. This
   * holds of every store but the anchors; of the anchors too if the operations are independent.
   */
  lemma SweepsConverge(s: Store, attempts: seq<Attempt>)
    requires Sound(s) && Done(TriedAll(s, attempts))
    ensures TriedAll(s, attempts).(anchors := map[]) == Undone(s)
    ensures Independent(s) ==> TriedAll(s, attempts) == Undone(s).(anchors := UndoneAnchors(s))
  {
    var t := TriedAll(s, attempts);
    SweepKeepsUndone(s, attempts);
    UndoneWhenDone(t);
    AnchorsWhenDone(t);
  }

  lemma {:induction false} OthersKeepAnchors(s: Store, attempts: seq<Attempt>, d: DocId)
    requires Sound(s) && Unfinished(s, d) && forall a | a in attempts :: a.doc != d
    ensures var t := TriedAll(s, attempts); Unfinished(t, d) && t.rows[d] == s.rows[d] && t.AnchorsOf(d) == s.AnchorsOf(d)
    decreases |attempts|
  {
    if attempts != [] {
      var a := attempts[0];
      assert a in attempts;
      assert forall x | x in attempts[1..] :: x in attempts;
      if Unfinished(s, a.doc) {
        RowsAfter(s, a);
        AnchorsAfter(s, a);
        SoundAfter(s, a);
      }
      OthersKeepAnchors(Tried(s, a), attempts[1..], d);
    }
  }

  function Full(order: seq<DocId>): seq<Attempt> {
    if order == [] then [] else [Attempt(order[0], ROLLBACK_STAGES)] + Full(order[1..])
  }

  /** A sweep that no rollback of which fails ends without journals. */
  lemma {:induction false} FullSweepEnds(s: Store, order: seq<DocId>)
    requires Sound(s) && forall d | d in s.rows && Unfinished(s, d) :: d in order
    ensures Done(TriedAll(s, Full(order)))
    decreases |order|
  {
    if order != [] {
      var a := Attempt(order[0], ROLLBACK_STAGES);
      assert Full(order)[0] == a && Full(order)[1..] == Full(order[1..]);
      if Unfinished(s, a.doc) {
        RowsAfter(s, a);
        SoundAfter(s, a);
      }
      var t := Tried(s, a);
      forall d | d in t.rows && Unfinished(t, d)
        ensures d in order[1..]
      {
        assert d in s.rows && Unfinished(s, d) && d != order[0];
      }
      FullSweepEnds(t, order[1..]);
    } else {
      forall d | d in s.rows
        ensures s.rows[d].journal.None?
      {
      }
    }
  }

  lemma {:induction false} TriedConcat(s: Store, first: seq<Attempt>, second: seq<Attempt>)
    ensures TriedAll(s, first + second) == TriedAll(TriedAll(s, first), second)
    decreases |first|
  {
    if first == [] {
      assert first + second == second;
    } else {
      assert (first + second)[1..] == first[1..] + second;
      TriedConcat(Tried(s, first[0]), first[1..], second);
    }
  }

  lemma TriedOne(s: Store, a: Attempt)
    ensures TriedAll(s, [a]) == Tried(s, a)
  {
    assert [a][1..] == [];
    assert TriedAll(Tried(s, a), []) == Tried(s, a);
  }

  lemma {:induction false} Enumerated(ds: set<DocId>) returns (order: seq<DocId>)
    ensures Elems(order) == ds
    decreases ds
  {
    order := [];
    if ds != {} {
      var d :| d in ds;
      var rest := Enumerated(ds - {d});
      order := [d] + rest;
      assert Elems(order) == {d} + Elems(rest);
    }
  }

  lemma {:induction false} FullAre(order: seq<DocId>)
    ensures forall a :: a in Full(order) <==> a.upTo == ROLLBACK_STAGES && a.doc in order
  {
    if order != [] {
      FullAre(order[1..]);
      forall a
        ensures a in Full(order) <==> a.upTo == ROLLBACK_STAGES && a.doc in order
      {
        assert a in Full(order) <==> a == Attempt(order[0], ROLLBACK_STAGES) || a in Full(order[1..]);
      }
    }
  }

  /** Rolled back before the others, the document keeps its anchor on the divided object. */
  lemma FirstKeepsAnchor(s: Store, d: DocId, c: Candidate, others: seq<DocId>)
    requires Sound(s) && Divided(s, d, c) && d !in others
    ensures c in TriedAll(s, Full([d] + others)).AnchorsOf(d)
  {
    var a := Attempt(d, ROLLBACK_STAGES);
    var t := Tried(s, a);
    assert Full([d] + others) == [a] + Full(others);
    TriedConcat(s, [a], Full(others));
    TriedOne(s, a);
    AnchorsAfter(s, a);
    ObjectAfter(s, d, ROLLBACK_STAGES, c);
    ContributesAfter(s, a, d, c);
    SoundAfter(s, a);
    assert c in t.AnchorsOf(d);
    FullAre(others);
    LaterKeepAnchors(t, Full(others), d);
  }

  lemma {:induction false} LaterKeepAnchors(s: Store, attempts: seq<Attempt>, d: DocId)
    requires Sound(s) && forall a | a in attempts :: a.doc != d
    ensures TriedAll(s, attempts).AnchorsOf(d) == s.AnchorsOf(d)
    decreases |attempts|
  {
    if attempts != [] {
      var a := attempts[0];
      assert a in attempts;
      assert forall x | x in attempts[1..] :: x in attempts;
      if Unfinished(s, a.doc) {
        AnchorsAfter(s, a);
        SoundAfter(s, a);
      }
      LaterKeepAnchors(Tried(s, a), attempts[1..], d);
    }
  }

  /** Rolled back behind the others, it finds the object gone. */
  lemma LastLosesAnchor(s: Store, d: DocId, c: Candidate, others: seq<DocId>)
    requires Sound(s) && Divided(s, d, c) && d !in others
    requires forall x | x in s.rows && Unfinished(s, x) :: x in others + [d]
    ensures c !in TriedAll(s, Full(others + [d])).AnchorsOf(d)
  {
    var a := Attempt(d, ROLLBACK_STAGES);
    FullSweepEnds(s, others + [d]);
    SweepsConverge(s, Full(others + [d]));
    FullConcat(others, [d]);
    assert Full([d]) == [a];
    TriedConcat(s, Full(others), [a]);
    FullAre(others);
    OthersKeepAnchors(s, Full(others), d);
    SweepKeepsUndone(s, Full(others));
    var u := TriedAll(s, Full(others));
    TriedOne(u, a);
    var f := RollbackAfter(u, d, ROLLBACK_STAGES);
    assert c !in Undone(s).tracking;
    assert f.tracking == Undone(s).tracking;
    AnchorsAfter(u, a);
  }

  lemma {:induction false} FullConcat(x: seq<DocId>, y: seq<DocId>)
    ensures Full(x + y) == Full(x) + Full(y)
  {
    if x == [] {
      assert x + y == y;
    } else {
      assert (x + y)[1..] == x[1..] + y;
      FullConcat(x[1..], y);
    }
  }

  /** The order of the rollbacks shows exactly when some anchored object is divided among the operations. */
  lemma OrderShowsIffDivided(s: Store)
    requires Sound(s)
    ensures Independent(s) <==>
      forall a, b | Done(TriedAll(s, a)) && Done(TriedAll(s, b)) :: TriedAll(s, a) == TriedAll(s, b)
  {
    if Independent(s) {
      forall a, b | Done(TriedAll(s, a)) && Done(TriedAll(s, b))
        ensures TriedAll(s, a) == TriedAll(s, b)
      {
        SweepsConverge(s, a);
        SweepsConverge(s, b);
      }
    } else {
      var d, c :| Divided(s, d, c);
      var others := Enumerated((set x | x in s.rows && Unfinished(s, x)) - {d});
      assert d !in Elems(others);
      forall x | x in s.rows && Unfinished(s, x)
        ensures x in others + [d] && x in [d] + others
      {
        assert x in Elems(others) + {d};
      }
      FirstKeepsAnchor(s, d, c, others);
      LastLosesAnchor(s, d, c, others);
      FullSweepEnds(s, [d] + others);
      FullSweepEnds(s, others + [d]);
    }
  }

  /** Where every edge hands its committed sources on to both ends, the operations are independent. */
  lemma NestedIsIndependent(s: Store)
    requires Sound(s)
    requires forall c, n, d | c in s.graph && c.Relation? && n in c.ends && d in s.rows ::
      Elems(s.Tracked(c)) * Own(s, d) <= Elems(s.Tracked(Entity(n)))
    ensures Independent(s)
  {
    forall d, c | Unfinished(s, d) && c in s.graph && Contributes(s, d, c)
      ensures Alive(s, c)
    {
      var ch :| ch in Elems(s.Tracked(c)) && ch in Own(s, d);
      OwnIsNotStaged(s, d, ch);
      RestHas(s, c, ch);
      if c.Relation? {
        forall n | n in c.ends && Entity(n) in s.graph
          ensures Rest(s, Entity(n)) != []
        {
          assert ch in Elems(s.Tracked(c)) * Own(s, d);
          RestHas(s, Entity(n), ch);
        }
      }
    }
  }

  lemma OwnIsNotStaged(s: Store, d: DocId, ch: ChunkId)
    requires Sound(s) && d in s.rows && ch in Own(s, d)
    ensures ch !in Staged(s)
  {
    assert SoundRow(s, d);
  }

  lemma RestHas(s: Store, c: Candidate, ch: ChunkId)
    requires ch in s.Tracked(c) && ch !in Staged(s)
    ensures Rest(s, c) != []
  {
    SubtractElems(s.Tracked(c), Staged(s));
    assert ch in Elems(Rest(s, c));
  }

  // ---------------------------------------------------------------- the status rows

  /** The rows as the sweep lists them, under the ranks of their ids. */
  function Listing(s: Store, names: map<S.Id, DocId>, created: map<S.Id, nat>): S.Table {
    map i | i in names && i in created && names[i] in s.rows ::
      S.Entry(created[i], s.rows[names[i]].status,
              if s.rows[names[i]].journal.Some? then Some(s.rows[names[i]].journal.value.mode) else None)
  }

  predicate Ranks(names: map<S.Id, DocId>) {
    forall i, k | i in names && k in names && names[i] == names[k] :: i == k
  }

  /** In the rows a rollback is the sweep's step: settled when it ends, and as it was when it stops. */
  lemma RollbackSettles(s: Store, a: Attempt, i: S.Id, fails: set<S.Id>, names: map<S.Id, DocId>, created: map<S.Id, nat>)
    requires Sound(s) && Unfinished(s, a.doc) && Ranks(names) && i in names && names[i] == a.doc && i in created
    requires i in fails <==> !Ends(s, a)
    ensures Listing(RollbackAfter(s, a.doc, a.upTo), names, created) == S.Settled(Listing(s, names, created), {i}, fails)
  {
    RowsAfter(s, a);
  }

  function Visit(i: S.Id, stops: map<S.Id, nat>, names: map<S.Id, DocId>): Attempt
    requires i in stops && i in names
  {
    Attempt(names[i], stops[i])
  }

  /** The rollbacks of a sweep that visits the ranks in this order, each stopping where it is told. */
  function Visits(order: seq<S.Id>, stops: map<S.Id, nat>, names: map<S.Id, DocId>): seq<Attempt>
    requires forall i | i in order :: i in stops && i in names
  {
    if order == [] then [] else [Visit(order[0], stops, names)] + Visits(order[1..], stops, names)
  }

  /** Each visited rank is that of an unfinished operation, and fails iff its rollback stops before its last step. */
  predicate Visitable(s: Store, order: seq<S.Id>, stops: map<S.Id, nat>, fails: set<S.Id>, names: map<S.Id, DocId>) {
    forall i | i in order ::
      i in stops && i in names && Unfinished(s, names[i]) && (i in fails <==> !Ends(s, Visit(i, stops, names)))
  }

  lemma SettledNone(rows: S.Table, fails: set<S.Id>)
    ensures S.Settled(rows, {}, fails) == rows
  {
  }

  lemma SettledTwice(rows: S.Table, i: S.Id, next: S.Table, rest: set<S.Id>, fails: set<S.Id>, all: set<S.Id>)
    requires i !in rest && all == {i} + rest && next == S.Settled(rows, {i}, fails)
    ensures S.Settled(next, rest, fails) == S.Settled(rows, all, fails)
  {
  }

  lemma StillVisitable(s: Store, order: seq<S.Id>, stops: map<S.Id, nat>, fails: set<S.Id>, names: map<S.Id, DocId>, a: Attempt)
    requires Sound(s) && Unfinished(s, a.doc) && Visitable(s, order, stops, fails, names)
    requires forall i | i in order :: names[i] != a.doc
    ensures Visitable(Tried(s, a), order, stops, fails, names)
  {
    RowsAfter(s, a);
  }

  lemma NoVisit(s: Store, order: seq<S.Id>, stops: map<S.Id, nat>, fails: set<S.Id>,
                names: map<S.Id, DocId>, created: map<S.Id, nat>)
    requires order == []
    ensures Listing(TriedAll(s, Visits(order, stops, names)), names, created)
         == S.Settled(Listing(s, names, created), Elems(order), fails)
  {
    assert Elems(order) == {};
    SettledNone(Listing(s, names, created), fails);
  }

  lemma FirstVisit(s: Store, order: seq<S.Id>, stops: map<S.Id, nat>, fails: set<S.Id>,
                   names: map<S.Id, DocId>, created: map<S.Id, nat>) returns (t: Store)
    requires Sound(s) && Ranks(names) && Distinct(order) && (forall i | i in order :: i in created)
    requires order != [] && Visitable(s, order, stops, fails, names)
    ensures order[0] !in Elems(order[1..]) && Elems(order) == {order[0]} + Elems(order[1..])
    ensures Distinct(order[1..]) && forall k | k in order[1..] :: k in created
    ensures Sound(t) && Visitable(t, order[1..], stops, fails, names)
    ensures TriedAll(s, Visits(order, stops, names)) == TriedAll(t, Visits(order[1..], stops, names))
    ensures Listing(t, names, created) == S.Settled(Listing(s, names, created), {order[0]}, fails)
  {
    var i, rest := order[0], order[1..];
    var a := Visit(i, stops, names);
    t := Tried(s, a);
    assert i in order && i !in rest && forall k | k in rest :: k in order;
    assert Elems(order) == {i} + Elems(rest);
    assert Visits(order, stops, names)[1..] == Visits(rest, stops, names);
    StillVisitable(s, rest, stops, fails, names, a);
    SoundAfter(s, a);
    RollbackSettles(s, a, i, fails, names, created);
  }

  /**
   * A sweep over the stores leaves the rows that the sweep over the table leaves: those it settled, and as they
   * were those whose rollback stopped before its last step.
   */
  lemma {:induction false} SweepSettles(s: Store, order: seq<S.Id>, stops: map<S.Id, nat>, fails: set<S.Id>,
                                        names: map<S.Id, DocId>, created: map<S.Id, nat>)
    requires Sound(s) && Ranks(names) && Distinct(order) && (forall i | i in order :: i in created)
    requires Visitable(s, order, stops, fails, names)
    ensures Listing(TriedAll(s, Visits(order, stops, names)), names, created)
         == S.Settled(Listing(s, names, created), Elems(order), fails)
    decreases |order|
  {
    if order == [] {
      NoVisit(s, order, stops, fails, names, created);
    } else {
      var t := FirstVisit(s, order, stops, fails, names, created);
      SweepSettles(t, order[1..], stops, fails, names, created);
      SettledTwice(Listing(s, names, created), order[0], Listing(t, names, created), Elems(order[1..]), fails, Elems(order));
    }
  }
}
