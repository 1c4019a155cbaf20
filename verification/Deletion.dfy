/**
 * Deleting a document: the same classification as a purge, in another order (the chunks go before the
 * graph objects), with the ids of its cached extractions kept in the status row for a retry.
 */
module Deletion {
  import opened Basics
  import opened Sources
  import opened Stores
  import opened Purge
  import opened PurgedObjects

  type CacheId = string

  /**
   * kg: the knowledge-graph stores; lists: the cache ids that each stored chunk carries;
   * cache: the extraction cache; saved: the cache ids kept in each document's status row.
   */
  datatype Disk = Disk(kg: Store, lists: map<ChunkId, seq<CacheId>>, cache: set<CacheId>, saved: map<DocId, seq<CacheId>>)
  {
    function SavedOf(d: DocId): seq<CacheId> {
      if d in saved then saved[d] else []
    }
  }

  function DeletionJob(s: Store, d: DocId, lost: set<Candidate>): Job {
    Job(d, s.OwnedChunks(d), Some(s.Named(d)), false, BestEffort, lost)
  }

  // ---------------------------------------------------------------- the knowledge-graph stages

  const KG_STAGES := 6

  /** The deletion's own stage order: tracking, chunks, relations, entities, rebuild, anchors. */
  function KgStage(s: Store, plan: Plan, job: Job, k: nat): Store {
    match k
    case 0 => UpdateTracking(s, plan)
    case 1 => DeleteChunks(s, job.ids)
    case 2 => DeleteRelations(s, plan)
    case 3 => DeleteEntities(s, plan)
    case 4 => RebuildSurvivors(s, plan, job)
    case 5 => DropAnchors(s, job)
    case _ => s
  }

  function KgStages(s: Store, plan: Plan, job: Job, k: nat): Store {
    if k == 0 then s else KgStage(KgStages(s, plan, job, k - 1), plan, job, k - 1)
  }

  function KgAfter(s: Store, d: DocId, lost: set<Candidate>, k: nat): Store {
    var job := DeletionJob(s, d, lost);
    KgStages(s, MakePlan(s, job), job, k)
  }

  /** How many purge stages the deletion has performed, the chunks apart. */
  function PurgeStagesAt(k: nat): nat {
    if k <= 1 then k else k - 1
  }

  /** The stores after `k` deletion stages, with no reference to the stages before. */
  function KgDirect(s: Store, plan: Plan, job: Job, k: nat): Store {
    if k == KG_STAGES then Direct(s, plan, job, STAGES)
    else Direct(s, plan, job, PurgeStagesAt(k)).(text := if k >= 2 then s.text - job.ids else s.text)
  }

  lemma StagesIgnoreText(s: Store, text: set<ChunkId>, plan: Plan, job: Job)
    ensures DeleteEntities(s.(text := text), plan) == DeleteEntities(s, plan).(text := text)
    ensures RebuildSurvivors(s.(text := text), plan, job) == RebuildSurvivors(s, plan, job).(text := text)
  {
    IncidentOfGraph(s.(text := text), s, Entities(plan.delete));
    assert Rebuilt(s.(text := text), plan, job) == Rebuilt(s, plan, job);
  }

  lemma {:induction false} KgStagesDirect(s: Store, plan: Plan, job: Job, k: nat)
    requires k <= KG_STAGES
    ensures KgStages(s, plan, job, k) == KgDirect(s, plan, job, k)
  {
    if k > 0 {
      KgStagesDirect(s, plan, job, k - 1);
      if k == 4 {
        DirectEntities(s, plan, job);
        StagesIgnoreText(Direct(s, plan, job, 2), s.text - job.ids, plan, job);
      } else if k == 5 {
        DirectRebuild(s, plan, job);
        StagesIgnoreText(Direct(s, plan, job, 3), s.text - job.ids, plan, job);
      }
    }
  }

  function KgDeleted(s: Store, d: DocId, lost: set<Candidate>): Store {
    KgAfter(s, d, lost, KG_STAGES)
  }

  /** In spite of its order the deletion ends where a purge of the document's chunks ends. */
  lemma DeletionIsPurge(s: Store, d: DocId, lost: set<Candidate>)
    requires s.OwnedChunks(d) != {}
    ensures KgDeleted(s, d, lost) == Purged(s, DeletionJob(s, d, lost))
  {
    var job := DeletionJob(s, d, lost);
    KgStagesDirect(s, MakePlan(s, job), job, KG_STAGES);
    StagesDirect(s, MakePlan(s, job), job, STAGES);
  }

  lemma PlanIgnoresText(a: Store, text: set<ChunkId>, job: Job)
    ensures MakePlan(a.(text := text), job) == MakePlan(a, job)
  {
    var b := a.(text := text);
    forall c | c in a.graph
      ensures Classify(b, c, job.ids, job.policy) == Classify(a, c, job.ids, job.policy)
    {
    }
  }

  lemma ClosedFormIgnoresText(a: Store, text: set<ChunkId>, p: Plan, job: Job)
    ensures var b := a.(text := text);
            && TrackingAfter(b, p, STAGES) == TrackingAfter(a, p, STAGES)
            && ShapeAfter(b.graph, b, p, job, STAGES) == ShapeAfter(a.graph, a, p, job, STAGES)
            && ShapeAfter(b.index, b, p, job, STAGES) == ShapeAfter(a.index, a, p, job, STAGES)
  {
    var b := a.(text := text);
    assert Gone(b, p) == Gone(a, p);
    assert Rebuilt(b, p, job) == Rebuilt(a, p, job);
  }

  lemma PurgeIgnoresText(a: Store, text: set<ChunkId>, job: Job)
    requires job.ids != {}
    ensures Purged(a.(text := text), job) == Purged(a, job).(text := text - job.ids)
  {
    var p := MakePlan(a, job);
    PlanIgnoresText(a, text, job);
    ClosedFormIgnoresText(a, text, p, job);
    StagesDirect(a, p, job, STAGES);
    StagesDirect(a.(text := text), p, job, STAGES);
  }

  /** A later run with fewer candidates finds in a purged store only lists that rebuild would not change. */
  lemma IdlePlan(s: Store, job: Job, again: Job)
    requires s.index == s.graph && job.ids != {} && again.ids == job.ids && again.policy == job.policy && again.lost == job.lost
    requires job.named.Some? && again.named.Some? && again.named.value <= job.named.value
    ensures var b := After(s, job, 5);
            var q := MakePlan(b, again);
            && q.delete == {} && Gone(b, q) == {}
            && forall c | c in q.rebuild :: b.Tracked(c) == q.rebuild[c] && (c in Rebuilt(b, q, again) ==> c in b.index && b.graph[c] == b.index[c] == b.Limit(q.rebuild[c]))
  {
    var b, p := After(s, job, 5), MakePlan(s, job);
    var q := MakePlan(b, again);
    StagesDirect(s, p, job, 5);
    forall c | c in b.graph && c in again.named.value
      ensures c !in q.delete
      ensures c in q.rebuild ==> b.Tracked(c) == q.rebuild[c] && (c in Rebuilt(b, q, again) ==> c in b.index && b.graph[c] == b.index[c] == b.Limit(q.rebuild[c]))
    {
      SecondVerdict(s, job, 5, c);
      BoundaryObject(s, job, 5, c);
    }
  }

  lemma IdleObject(s: Store, job: Job, again: Job, c: Candidate)
    requires s.index == s.graph && job.ids != {} && again.ids == job.ids && again.policy == job.policy && again.lost == job.lost
    requires job.named.Some? && again.named.Some? && again.named.value <= job.named.value
    ensures SameAt(Purged(After(s, job, 5), again), After(s, job, 5), c)
  {
    var b := After(s, job, 5);
    var q := MakePlan(b, again);
    ObjectWhenDone(b, q, again, c);
    BoundaryObject(s, job, 5, c);
    IdlePlan(s, job, again);
    if c in q.rebuild {
      IdleRow(s, job, c);
    }
  }

  lemma IdleRow(s: Store, job: Job, c: Candidate)
    requires s.index == s.graph && job.ids != {} && c in After(s, job, 5).graph && Recorded(After(s, job, 5), c) != []
    ensures c in MakePlan(s, job).rebuild ==> c in After(s, job, 5).tracking
  {
    StagesDirect(s, MakePlan(s, job), job, 5);
  }

  /** On a purged store a second run with fewer candidates finds nothing to change. */
  lemma PurgedAgainIsIdle(s: Store, job: Job, again: Job)
    requires s.index == s.graph && job.ids != {} && again.ids == job.ids && again.policy == job.policy && again.lost == job.lost
    requires job.named.Some? && again.named.Some? && again.named.value <= job.named.value
    requires !job.patchOnly && !again.patchOnly && again.doc == job.doc
    ensures Purged(Purged(s, job), again) == Purged(s, job)
  {
    var b := After(s, job, 5);
    forall c
      ensures SameAt(Purged(b, again), b, c)
    {
      IdleObject(s, job, again, c);
    }
    SameEverywhere(Purged(b, again), b);
    StagesDirect(s, MakePlan(s, job), job, 5);
    StagesDirect(b, MakePlan(b, again), again, STAGES);
    assert Purged(s, job) == DropAnchors(b, job);
    assert Purged(b, again) == DropAnchors(b, job);
    LastStageAgain(b, again);
    assert DropAnchors(DropAnchors(b, job), job) == DropAnchors(b, job);
  }

  lemma KgRows(s: Store, d: DocId, lost: set<Candidate>, k: nat)
    requires k <= KG_STAGES
    ensures var t := KgAfter(s, d, lost, k);
            t.rows == s.rows && t.bodies == s.bodies && t.OwnedChunks(d) == s.OwnedChunks(d) && t.Named(d) <= s.Named(d)
  {
    var job := DeletionJob(s, d, lost);
    KgStagesDirect(s, MakePlan(s, job), job, k);
  }

  /** Before its last graph stage a stopped deletion is a stopped purge, the chunk texts apart. */
  lemma StoppedDeletion(s: Store, d: DocId, lost: set<Candidate>, k: nat)
    requires k < KG_STAGES && s.OwnedChunks(d) != {}
    ensures var job, b := DeletionJob(s, d, lost), KgAfter(s, d, lost, k);
            && b == After(s, job, PurgeStagesAt(k)).(text := b.text) && DeletionJob(b, d, lost) == job && b.text - job.ids == s.text - job.ids
  {
    var job := DeletionJob(s, d, lost);
    KgStagesDirect(s, MakePlan(s, job), job, k);
    StagesDirect(s, MakePlan(s, job), job, PurgeStagesAt(k));
  }

  lemma OneRetry(s: Store, d: DocId, lost: set<Candidate>, k: nat)
    requires s.index == s.graph && Repeatable(s, DeletionJob(s, d, lost)) && s.OwnedChunks(d) != {} && k <= KG_STAGES
    ensures KgDeleted(KgAfter(s, d, lost, k), d, lost) == KgDeleted(s, d, lost)
  {
    var job := DeletionJob(s, d, lost);
    var b := KgAfter(s, d, lost, k);
    KgRows(s, d, lost, k);
    DeletionIsPurge(s, d, lost);
    DeletionIsPurge(b, d, lost);
    if k < KG_STAGES {
      var a := After(s, job, PurgeStagesAt(k));
      StoppedDeletion(s, d, lost, k);
      PurgeIgnoresText(a, b.text, job);
      RestartOnce(s, job, PurgeStagesAt(k));
      StagesDirect(s, MakePlan(s, job), job, STAGES);
    } else {
      PurgedAgainIsIdle(s, job, DeletionJob(b, d, lost));
    }
  }

  /** What a stopped deletion leaves can be deleted repeatedly. */
  lemma RetryIsRepeatable(s: Store, d: DocId, lost: set<Candidate>, k: nat)
    requires s.index == s.graph && Repeatable(s, DeletionJob(s, d, lost)) && s.OwnedChunks(d) != {} && k <= KG_STAGES
    ensures var b := KgAfter(s, d, lost, k); b.index == b.graph && Repeatable(b, DeletionJob(b, d, lost))
  {
    var job := DeletionJob(s, d, lost);
    var b := KgAfter(s, d, lost, k);
    KgRows(s, d, lost, k);
    if k < KG_STAGES {
      var a := After(s, job, PurgeStagesAt(k));
      StoppedDeletion(s, d, lost, k);
      BoundaryStore(s, job, PurgeStagesAt(k));
      StaysRepeatable(s, job, PurgeStagesAt(k));
      PlanIgnoresText(a, b.text, job);
      assert Gone(b, MakePlan(b, job)) == Gone(a, MakePlan(a, job));
    } else {
      var again := DeletionJob(b, d, lost);
      DeletionIsPurge(s, d, lost);
      BoundaryStore(s, job, STAGES);
      IdlePlan(s, job, again);
      StagesDirect(s, MakePlan(s, job), job, 5);
      assert b == DropAnchors(After(s, job, 5), job);
      PlanIgnoresAnchors(After(s, job, 5), b.anchors, again.named.value, again.ids, again.policy);
    }
  }

  /** A deletion called again and again, stopping behind the given graph stages. */
  function KgAttempts(s: Store, d: DocId, lost: set<Candidate>, stops: seq<nat>): Store
    decreases |stops|
  {
    if stops == [] then s else KgAttempts(KgAfter(s, d, lost, stops[0]), d, lost, stops[1..])
  }

  /**
   * A deletion that fails at any stage boundaries, any number of times, and is called again leaves the graph,
   * the tracking, the vectors, the chunks and the anchors as one that never failed.
   */
  lemma {:induction false} DeletionRetries(s: Store, d: DocId, lost: set<Candidate>, stops: seq<nat>)
    requires s.index == s.graph && Repeatable(s, DeletionJob(s, d, lost)) && s.OwnedChunks(d) != {} && Boundaries(stops)
    ensures KgDeleted(KgAttempts(s, d, lost, stops), d, lost) == KgDeleted(s, d, lost)
    decreases |stops|
  {
    if stops != [] {
      var k := stops[0];
      assert k in stops && forall x | x in stops[1..] :: x in stops;
      assert Boundaries(stops[1..]);
      OneRetry(s, d, lost, k);
      RetryIsRepeatable(s, d, lost, k);
      KgRows(s, d, lost, k);
      DeletionRetries(KgAfter(s, d, lost, k), d, lost, stops[1..]);
    }
  }

  lemma UnrepeatableDeletion(s: Store, d: DocId, lost: set<Candidate>)
    requires s.index == s.graph && s.OwnedChunks(d) != {} && !Repeatable(s, DeletionJob(s, d, lost))
    ensures KgDeleted(KgAfter(s, d, lost, 1), d, lost) != KgDeleted(s, d, lost)
  {
    var job := DeletionJob(s, d, lost);
    var p, b := MakePlan(s, job), KgAfter(s, d, lost, 1);
    var c :| c in p.rebuild && c !in lost && c !in Gone(s, p) && Elems(s.graph[c]) !! job.ids && s.graph[c] != s.Limit(p.rebuild[c]);
    UnrepeatableDiffers(s, job, c);
    StoppedDeletion(s, d, lost, 1);
    KgStagesDirect(s, p, job, 1);
    StagesDirect(s, p, job, 1);
    DeletionIsPurge(s, d, lost);
    KgRows(s, d, lost, 1);
    DeletionIsPurge(b, d, lost);
  }

  /** And that holds exactly for deletions that can be repeated. */
  lemma DeletionRetriesIffRepeatable(s: Store, d: DocId, lost: set<Candidate>)
    requires s.index == s.graph && s.OwnedChunks(d) != {}
    ensures Repeatable(s, DeletionJob(s, d, lost))
       <==> forall stops | Boundaries(stops) :: KgDeleted(KgAttempts(s, d, lost, stops), d, lost) == KgDeleted(s, d, lost)
  {
    var job := DeletionJob(s, d, lost);
    if Repeatable(s, job) {
      forall stops | Boundaries(stops)
        ensures KgDeleted(KgAttempts(s, d, lost, stops), d, lost) == KgDeleted(s, d, lost)
      {
        DeletionRetries(s, d, lost, stops);
      }
    } else {
      var b := KgAfter(s, d, lost, 1);
      UnrepeatableDeletion(s, d, lost);
      var stops: seq<nat> := [1];
      assert stops[1..] == [];
      assert KgAttempts(s, d, lost, stops) == KgAttempts(b, d, lost, []) == b;
      assert Boundaries(stops);
    }
  }

  /** With complete records the deletion removes exactly the document's contributions. */
  lemma DeletionIsExact(s: Store, d: DocId, lost: set<Candidate>)
    requires s.Synced() && s.OwnedChunks(d) != {}
    requires Complete(s, s.OwnedChunks(d), s.Named(d)) && RebuildsAll(s, DeletionJob(s, d, lost))
    requires NoStranding(s, s.OwnedChunks(d))
    ensures KgDeleted(s, d, lost) == Erase(s, s.OwnedChunks(d)).(anchors := s.anchors - {d})
  {
    var job := DeletionJob(s, d, lost);
    DeletionIsPurge(s, d, lost);
    PurgeErases(s, job);
    StagesDirect(s, MakePlan(s, job), job, STAGES);
  }

  /**
   * What a deletion makes of one object that the document's anchors or journal name, `recorded` being its tracking
   * row or, without one, its list in the graph: it goes if that holds only the document's chunks, or with an end;
   * else these chunks are taken out, and the graph's list follows unless its rebuild is lost. An object that
   * holds none of them is left as it is.
   */
  lemma DeletedObject(s: Store, d: DocId, lost: set<Candidate>, c: Candidate, recorded: seq<ChunkId>)
    requires c in s.graph && s.OwnedChunks(d) != {}
    requires c in s.AnchorsOf(d) || (s.JournalOf(d).Some? && c in s.JournalOf(d).value.cands)
    requires if s.Tracked(c) != [] then recorded == s.tracking[c] else recorded == s.graph[c]
    ensures var t, ids := KgDeleted(s, d, lost), s.OwnedChunks(d);
            && (c in t.graph <==> !(Elems(recorded) <= ids) && EndsStay(s, t, c))
            && (c in t.graph ==>
                  var held := !(Elems(recorded) !! ids) || !(Elems(s.graph[c]) !! ids);
                  && t.Tracked(c) == (if held then Subtract(recorded, ids) else s.Tracked(c))
                  && t.graph[c] == if held && c !in lost then s.Limit(Subtract(recorded, ids)) else s.graph[c])
  {
    var job := DeletionJob(s, d, lost);
    DeletionIsPurge(s, d, lost);
    SubtractUnchanged(recorded, job.ids);
    if s.Tracked(c) != [] {
      TrackedObject(s, job, c);
    } else {
      UntrackedObject(s, job, c);
    }
  }

  // ---------------------------------------------------------------- the whole call

  function CollectFrom(lists: map<ChunkId, seq<CacheId>>, chunks: seq<ChunkId>): seq<CacheId> {
    if chunks == [] then []
    else (if chunks[0] in lists then lists[chunks[0]] else []) + CollectFrom(lists, chunks[1..])
  }

  /** Ids kept by earlier attempts first, then those of the chunks still stored, each once. */
  function Collected(disk: Disk, d: DocId): seq<CacheId> {
    if d !in disk.kg.rows then disk.SavedOf(d)
    else
      var row := disk.kg.rows[d];
      var chunks := AppendNew([], row.chunks + if row.journal.Some? then row.journal.value.chunks else []);
      AppendNew(disk.SavedOf(d), CollectFrom(disk.lists, chunks))
  }

  /** The retry record: the ids in hand, or what the row already held when there are none. */
  function Saving(disk: Disk, d: DocId, ids: seq<CacheId>): Disk {
    if ids == [] then disk else disk.(saved := disk.saved[d := ids])
  }

  /**
   * Stages of a chunk-backed call: save the cache ids; tracking, chunks, relations, entities, rebuild;
   * the cached extractions if asked for; the anchors; the status row; the body.
   */
  const SAVE := 1
  const REBUILD := 6
  const CACHE := 7
  const ANCHORS := 8
  const ROW := 9
  const BODY := 10

  function KgStagesDone(k: nat): nat {
    if k <= SAVE then 0 else if k <= REBUILD then k - 1 else if k < ANCHORS then 5 else KG_STAGES
  }

  /** The graph stages of a call; a document without chunks has none, its anchors stay too. */
  function GraphProgress(s: Store, d: DocId, lost: set<Candidate>, k: nat): Store {
    if s.OwnedChunks(d) == {} then s else KgAfter(s, d, lost, KgStagesDone(k))
  }

  /** The row and then the body go. */
  function EntriesGone(s: Store, d: DocId, k: nat): Store {
    if k < ROW then s else s.(rows := s.rows - {d}, bodies := if k >= BODY then s.bodies - {d} else s.bodies)
  }

  /** The cache ids kept in the record that the call carries along. */
  function KeptIds(disk: Disk, d: DocId, k: nat): map<DocId, seq<CacheId>> {
    if k >= SAVE && disk.kg.OwnedChunks(d) != {} then Saving(disk, d, Collected(disk, d)).saved else disk.saved
  }

  /** The disk once the first `k` stages of a call have succeeded. */
  function Progress(disk: Disk, d: DocId, withCache: bool, lost: set<Candidate>, k: nat): Disk {
    Disk(EntriesGone(GraphProgress(disk.kg, d, lost, k), d, k),
         if k >= 3 then disk.lists - disk.kg.OwnedChunks(d) else disk.lists,
         if k >= CACHE && withCache then disk.cache - Elems(Collected(disk, d)) else disk.cache,
         if k >= ROW then KeptIds(disk, d, k) - {d} else KeptIds(disk, d, k))
  }

  /** `in_final_delete_stage`: set on the chunk-backed path when the row is about to be deleted, and nowhere else. */
  predicate FinalStage(s: Store, d: DocId, k: nat) {
    s.OwnedChunks(d) != {} && k >= ANCHORS
  }

  /**
   * The failure handler: unless the final stage has begun, the record in hand is upserted, with the ids in
   * hand or else those that the record keeps.
   */
  function Handled(now: Disk, d: DocId, row: Row, kept: map<DocId, seq<CacheId>>, ids: seq<CacheId>, final: bool): Disk {
    if final then now
    else
      now.(kg := now.kg.(rows := now.kg.rows[d := row]),
           saved := if ids != [] then now.saved[d := ids] else if d in kept then now.saved[d := kept[d]] else now.saved)
  }

  /** A failing cache deletion has removed some of the entries. */
  function PartlyCached(p: Disk, ids: seq<CacheId>, removed: set<CacheId>): Disk {
    p.(cache := p.cache - (removed * Elems(ids)))
  }

  /** The disk where a call fails behind its first `k` stages, before the failure is handled. */
  function Broken(disk: Disk, d: DocId, withCache: bool, lost: set<Candidate>, k: nat, removed: set<CacheId>): Disk {
    var p := Progress(disk, d, withCache, lost, k);
    if k == REBUILD && withCache then PartlyCached(p, Collected(disk, d), removed) else p
  }

  /** The cache ids in hand at the failure: behind a failing cache deletion those still cached; none without chunks. */
  function InHand(disk: Disk, d: DocId, withCache: bool, k: nat, now: Disk): seq<CacheId> {
    var ids := Collected(disk, d);
    if disk.kg.OwnedChunks(d) == {} || k < SAVE then []
    else if k == REBUILD && withCache then Subtract(ids, set i | i in ids && i !in now.cache)
    else ids
  }

  /** The disk after a call that fails behind its first `k` stages. */
  function FailedCall(disk: Disk, d: DocId, withCache: bool, lost: set<Candidate>, k: nat, removed: set<CacheId>): Disk
    requires d in disk.kg.rows
  {
    var now := Broken(disk, d, withCache, lost, k, removed);
    Handled(now, d, disk.kg.rows[d], KeptIds(disk, d, k), InHand(disk, d, withCache, k, now), FinalStage(disk.kg, d, k))
  }

  lemma {:induction false} CollectFromElems(lists: map<ChunkId, seq<CacheId>>, chunks: seq<ChunkId>, i: CacheId)
    ensures i in CollectFrom(lists, chunks) <==> exists ch :: ch in chunks && ch in lists && i in lists[ch]
  {
    if chunks != [] {
      CollectFromElems(lists, chunks[1..], i);
    }
  }

  /** What a call collects: the ids kept by earlier attempts, and those of every chunk of the document still stored. */
  lemma CollectedAre(disk: Disk, d: DocId, i: CacheId)
    requires d in disk.kg.rows
    ensures i in Collected(disk, d)
       <==> i in disk.SavedOf(d) || exists ch :: ch in disk.kg.OwnedChunks(d) && ch in disk.lists && i in disk.lists[ch]
  {
    var row := disk.kg.rows[d];
    var all := row.chunks + if row.journal.Some? then row.journal.value.chunks else [];
    var chunks := AppendNew([], all);
    AppendNewElems([], all);
    AppendNewElems(disk.SavedOf(d), CollectFrom(disk.lists, chunks));
    CollectFromElems(disk.lists, chunks, i);
    assert i in Collected(disk, d) <==> i in Elems(Collected(disk, d));
    forall ch
      ensures ch in chunks <==> ch in disk.kg.OwnedChunks(d)
    {
      assert ch in chunks <==> ch in Elems(chunks);
    }
  }

  /** An earlier attempt kept the cache id, or a chunk of the document that is still stored lists it. */
  predicate Attributed(disk: Disk, d: DocId, i: CacheId) {
    i in disk.SavedOf(d) || exists ch :: ch in disk.kg.OwnedChunks(d) && ch in disk.lists && i in disk.lists[ch]
  }

  /**
   * What a call does to the cache, behind any number of its stages: nothing without the option, and nothing up
   * to the rebuild; a failing cache deletion has removed some of the document's extractions, one that succeeded
   * exactly these.
   */
  lemma CacheAfter(disk: Disk, d: DocId, withCache: bool, lost: set<Candidate>, k: nat, removed: set<CacheId>, i: CacheId)
    requires d in disk.kg.rows
    ensures var now := FailedCall(disk, d, withCache, lost, k, removed).cache;
            i in now <==> i in disk.cache && !(withCache && Attributed(disk, d, i) && (k > REBUILD || (k == REBUILD && i in removed)))
    ensures i in Progress(disk, d, withCache, lost, BODY).cache <==> i in disk.cache && !(withCache && Attributed(disk, d, i))
  {
    CollectedAre(disk, d, i);
  }

  /**
   * What a failing call has got to: the chunks go with the lists of cache ids they carry, before anything leaves the
   * graph; the anchors go only when the graph and the cache are done, and with them the way back to the objects.
   */
  lemma FailureStops(disk: Disk, d: DocId, withCache: bool, lost: set<Candidate>, k: nat, removed: set<CacheId>)
    requires d in disk.kg.rows && k < ROW && disk.kg.OwnedChunks(d) != {}
    ensures var f, s, owned := FailedCall(disk, d, withCache, lost, k, removed), disk.kg, disk.kg.OwnedChunks(d);
            && f.kg.rows == s.rows && f.kg.bodies == s.bodies
            && f.kg.anchors == (if k < ANCHORS then s.anchors else s.anchors - {d})
            && f.kg.text == (if k < 3 then s.text else s.text - owned)
            && f.lists == (if k < 3 then disk.lists else disk.lists - owned)
            && (k < 4 ==> f.kg.graph == s.graph && f.kg.index == s.index)
            && (k < 2 ==> f.kg.tracking == s.tracking)
  {
    var job := DeletionJob(disk.kg, d, lost);
    RowSurvives(disk, d, withCache, lost, k, removed);
    KgRows(disk.kg, d, lost, KgStagesDone(k));
    KgStagesDirect(disk.kg, MakePlan(disk.kg, job), job, KgStagesDone(k));
  }

  /** A cache deletion that leaves entries behind keeps for the retry exactly those of the document that are still there. */
  lemma KeptAfterCacheFailure(disk: Disk, d: DocId, lost: set<Candidate>, removed: set<CacheId>, i: CacheId)
    requires d in disk.kg.rows && disk.kg.OwnedChunks(d) != {}
    requires exists x :: Attributed(disk, d, x) && x in disk.cache && x !in removed
    ensures var f := FailedCall(disk, d, true, lost, REBUILD, removed);
            i in f.SavedOf(d) <==> Attributed(disk, d, i) && i in disk.cache && i !in removed
  {
    var f, ids := FailedCall(disk, d, true, lost, REBUILD, removed), Collected(disk, d);
    var gone := set x | x in ids && x !in f.cache;
    var rest := Subtract(ids, gone);
    SubtractElems(ids, gone);
    var x :| Attributed(disk, d, x) && x in disk.cache && x !in removed;
    CollectedAre(disk, d, x);
    CollectedAre(disk, d, i);
    assert x in Elems(rest);
    assert i in rest <==> i in Elems(rest);
  }

  /** A successful call leaves no entry of the document, and everything of the other documents. */
  lemma DocumentIsGone(disk: Disk, d: DocId, withCache: bool, lost: set<Candidate>, x: DocId)
    requires d in disk.kg.rows
    ensures var now := Progress(disk, d, withCache, lost, BODY);
            if x == d
            then d !in now.kg.rows && d !in now.kg.bodies && d !in now.saved && (disk.kg.OwnedChunks(d) != {} ==> d !in now.kg.anchors)
            else
              && (x in now.kg.rows <==> x in disk.kg.rows) && (x in now.kg.rows ==> now.kg.rows[x] == disk.kg.rows[x])
              && (x in now.kg.bodies <==> x in disk.kg.bodies)
              && (x in now.kg.anchors <==> x in disk.kg.anchors) && now.kg.AnchorsOf(x) == disk.kg.AnchorsOf(x)
              && (x in now.saved <==> x in disk.saved) && now.SavedOf(x) == disk.SavedOf(x)
    ensures forall ch :: ch in Progress(disk, d, withCache, lost, BODY).lists <==> ch in disk.lists && ch !in disk.kg.OwnedChunks(d)
    ensures Progress(disk, d, withCache, lost, BODY).kg.text == disk.kg.text - disk.kg.OwnedChunks(d)
  {
    KgRows(disk.kg, d, lost, KG_STAGES);
    KgStagesDirect(disk.kg, MakePlan(disk.kg, DeletionJob(disk.kg, d, lost)), DeletionJob(disk.kg, d, lost), KG_STAGES);
  }

  lemma CollectedElems(disk: Disk, d: DocId)
    ensures Elems(disk.SavedOf(d)) <= Elems(Collected(disk, d))
  {
    if d in disk.kg.rows {
      var row := disk.kg.rows[d];
      var chunks := AppendNew([], row.chunks + if row.journal.Some? then row.journal.value.chunks else []);
      AppendNewElems(disk.SavedOf(d), CollectFrom(disk.lists, chunks));
    }
  }

  lemma ProgressRows(disk: Disk, d: DocId, withCache: bool, lost: set<Candidate>, k: nat)
    requires k < ROW
    ensures Progress(disk, d, withCache, lost, k).kg.rows == disk.kg.rows
  {
    KgRows(disk.kg, d, lost, KgStagesDone(k));
  }

  lemma RowSurvives(disk: Disk, d: DocId, withCache: bool, lost: set<Candidate>, k: nat, removed: set<CacheId>)
    requires d in disk.kg.rows && k < ROW
    ensures FailedCall(disk, d, withCache, lost, k, removed).kg == Progress(disk, d, withCache, lost, k).kg
    ensures FailedCall(disk, d, withCache, lost, k, removed).kg.rows == disk.kg.rows
  {
    ProgressRows(disk, d, withCache, lost, k);
    assert disk.kg.rows[d := disk.kg.rows[d]] == disk.kg.rows;
  }

  /** The retry record: the collected ids that are still cached are among the kept ones. */
  lemma SavedAfterFailure(disk: Disk, d: DocId, withCache: bool, lost: set<Candidate>, k: nat, removed: set<CacheId>)
    requires d in disk.kg.rows && SAVE <= k < ROW && disk.kg.OwnedChunks(d) != {}
    ensures var f := FailedCall(disk, d, withCache, lost, k, removed);
            forall i | i in Collected(disk, d) && i in f.cache :: i in f.SavedOf(d)
  {
    var f, ids := FailedCall(disk, d, withCache, lost, k, removed), Collected(disk, d);
    var gone := set i | i in ids && i !in f.cache;
    SubtractElems(ids, gone);
    forall i | i in ids && i in f.cache
      ensures i in f.SavedOf(d)
    {
      assert i in Elems(Subtract(ids, gone));
    }
  }

  lemma NoElems<T>(a: seq<T>)
    ensures a != [] ==> Elems(a) != {}
  {
    if a != [] {
      assert a[0] in Elems(a);
    }
  }

  /** A document without chunks collects what was kept. */
  lemma BareCollects(disk: Disk, d: DocId)
    requires d in disk.kg.rows && disk.kg.OwnedChunks(d) == {}
    ensures Collected(disk, d) == disk.SavedOf(d)
  {
    var row := disk.kg.rows[d];
    var all := row.chunks + if row.journal.Some? then row.journal.value.chunks else [];
    NoElems(row.chunks);
    if row.journal.Some? {
      NoElems(row.journal.value.chunks);
    }
    assert all == [];
    assert AppendNew<ChunkId>([], []) == [];
    assert CollectFrom(disk.lists, []) == [];
  }

  /** And it keeps all but cache entries at every failure: behind the row's deletion the handler writes the record back. */
  lemma BareDocument(disk: Disk, d: DocId, withCache: bool, lost: set<Candidate>, k: nat, removed: set<CacheId>)
    requires d in disk.kg.rows && disk.kg.OwnedChunks(d) == {} && k < BODY
    ensures var f := FailedCall(disk, d, withCache, lost, k, removed); f.kg == disk.kg && f.saved == disk.saved && f.lists == disk.lists
  {
    BareBroken(disk, d, withCache, lost, k, removed);
    var now := Broken(disk, d, withCache, lost, k, removed);
    WrittenBack(disk.kg.rows, d);
    if d in disk.saved {
      WrittenBack(disk.saved, d);
    }
    assert FailedCall(disk, d, withCache, lost, k, removed) == Handled(now, d, disk.kg.rows[d], disk.saved, [], false);
  }

  lemma BareBroken(disk: Disk, d: DocId, withCache: bool, lost: set<Candidate>, k: nat, removed: set<CacheId>)
    requires d in disk.kg.rows && disk.kg.OwnedChunks(d) == {} && k < BODY
    ensures var now := Broken(disk, d, withCache, lost, k, removed);
            && now.kg == (if k < ROW then disk.kg else disk.kg.(rows := disk.kg.rows - {d}))
            && now.saved == (if k < ROW then disk.saved else disk.saved - {d}) && now.lists == disk.lists
  {
  }

  lemma WrittenBack<T>(m: map<DocId, T>, d: DocId)
    requires d in m
    ensures m[d := m[d]] == m && (m - {d})[d := m[d]] == m
  {
  }

  /**
   * The status row survives every failure before its own deletion, and a retry finds every collected
   * cache id that is still in the cache, in the row itself as soon as the ids have been saved.
   */
  lemma FailureKeepsCacheIds(disk: Disk, d: DocId, withCache: bool, lost: set<Candidate>, k: nat, removed: set<CacheId>)
    requires d in disk.kg.rows && k < ROW
    ensures var f := FailedCall(disk, d, withCache, lost, k, removed);
            && f.kg.rows == disk.kg.rows
            && (forall i | i in Collected(disk, d) && i in f.cache :: i in Collected(f, d))
            && (k >= SAVE ==> forall i | i in Collected(disk, d) && i in f.cache :: i in f.SavedOf(d))
  {
    var f := FailedCall(disk, d, withCache, lost, k, removed);
    RowSurvives(disk, d, withCache, lost, k, removed);
    if disk.kg.OwnedChunks(d) == {} {
      BareDocument(disk, d, withCache, lost, k, removed);
      BareCollects(disk, d);
      BareCollects(f, d);
    } else if k == 0 {
      assert f.lists == disk.lists;
      assert d in disk.saved ==> disk.saved[d := disk.saved[d]] == disk.saved;
      assert Collected(f, d) == Collected(disk, d);
    } else {
      SavedAfterFailure(disk, d, withCache, lost, k, removed);
      CollectedElems(f, d);
      forall i | i in Collected(disk, d) && i in f.cache
        ensures i in Collected(f, d)
      {
        assert i in Elems(f.SavedOf(d));
      }
    }
  }

  // ---------------------------------------------------------------- retried calls

  /** One failing call: whether the cache was to be deleted, how far it came, what a cache deletion removed. */
  datatype Failure = Failure(withCache: bool, k: nat, removed: set<CacheId>)

  /** The failures before which nothing of the document's entries is gone for good. */
  predicate Retryable(s: Store, d: DocId, k: nat) {
    k < ROW || (s.OwnedChunks(d) == {} && k < BODY)
  }

  /**
   * Whether a failed call can be retried at all: without chunks the record is written back even behind its
   * own deletion, with chunks the retry finds none from then on.
   */
  lemma RetryFindsRecord(disk: Disk, d: DocId, withCache: bool, lost: set<Candidate>, k: nat, removed: set<CacheId>)
    requires d in disk.kg.rows && k < BODY
    ensures d in FailedCall(disk, d, withCache, lost, k, removed).kg.rows <==> Retryable(disk.kg, d, k)
    ensures Retryable(disk.kg, d, k) ==> FailedCall(disk, d, withCache, lost, k, removed).kg.rows == disk.kg.rows
  {
    if k < ROW {
      RowSurvives(disk, d, withCache, lost, k, removed);
    } else if disk.kg.OwnedChunks(d) == {} {
      BareDocument(disk, d, withCache, lost, k, removed);
    }
  }

  function Failures(disk: Disk, d: DocId, lost: set<Candidate>, tries: seq<Failure>): Disk
    decreases |tries|
  {
    if tries == [] || d !in disk.kg.rows then disk
    else Failures(FailedCall(disk, d, tries[0].withCache, lost, tries[0].k, tries[0].removed), d, lost, tries[1..])
  }

  lemma OneFailure(disk: Disk, d: DocId, withCache: bool, again: bool, lost: set<Candidate>, k: nat, removed: set<CacheId>)
    requires disk.kg.index == disk.kg.graph && d in disk.kg.rows && Retryable(disk.kg, d, k)
    requires disk.kg.OwnedChunks(d) != {} ==> Repeatable(disk.kg, DeletionJob(disk.kg, d, lost))
    ensures var f := FailedCall(disk, d, withCache, lost, k, removed);
            && f.kg.rows == disk.kg.rows && f.kg.index == f.kg.graph
            && (f.kg.OwnedChunks(d) != {} ==> Repeatable(f.kg, DeletionJob(f.kg, d, lost)))
            && Progress(f, d, again, lost, BODY).kg == Progress(disk, d, again, lost, BODY).kg
  {
    if disk.kg.OwnedChunks(d) == {} {
      BareDocument(disk, d, withCache, lost, k, removed);
    } else {
      RowSurvives(disk, d, withCache, lost, k, removed);
      KgRows(disk.kg, d, lost, KgStagesDone(k));
      OneRetry(disk.kg, d, lost, KgStagesDone(k));
      RetryIsRepeatable(disk.kg, d, lost, KgStagesDone(k));
    }
  }

  /**
   * After any number of failed calls, each with its own cache option, a further call ends with the
   * knowledge-graph stores of one that never failed, with chunks or without.
   */
  lemma {:induction false} RetriedCallConverges(disk: Disk, d: DocId, again: bool, lost: set<Candidate>, tries: seq<Failure>)
    requires disk.kg.index == disk.kg.graph && d in disk.kg.rows
    requires disk.kg.OwnedChunks(d) != {} ==> Repeatable(disk.kg, DeletionJob(disk.kg, d, lost))
    requires forall t | t in tries :: Retryable(disk.kg, d, t.k)
    ensures d in Failures(disk, d, lost, tries).kg.rows
    ensures Progress(Failures(disk, d, lost, tries), d, again, lost, BODY).kg == Progress(disk, d, again, lost, BODY).kg
    decreases |tries|
  {
    if tries != [] {
      var t := tries[0];
      assert t in tries && forall x | x in tries[1..] :: x in tries;
      OneFailure(disk, d, t.withCache, again, lost, t.k, t.removed);
      var f := FailedCall(disk, d, t.withCache, lost, t.k, t.removed);
      assert f.kg.OwnedChunks(d) == disk.kg.OwnedChunks(d);
      RetriedCallConverges(f, d, again, lost, tries[1..]);
    }
  }
}
