/**
 * The purge/rebuild primitive shared by document purge and patch rollback: its six durable
 * stages as functions of the stores, what they achieve together, and why they can be restarted.
 */
module Purge {
  import opened Basics
  import opened Sources
  import opened Stores

  datatype Policy = BestEffort | RollbackPolicy

  /**
   * One purge call. `named` are the explicit candidates (otherwise the document's anchors are used).
   * `lost` are the objects whose extraction data cannot be recovered from the cache: best-effort
   * rebuild leaves them as they are, rollback repairs them structurally.
   */
  datatype Job = Job(doc: DocId, ids: set<ChunkId>, named: Option<set<Candidate>>, patchOnly: bool,
                     policy: Policy, lost: set<Candidate>)

  datatype Plan = Plan(delete: set<Candidate>, rebuild: map<Candidate, seq<ChunkId>>)

  datatype Verdict = Untouched | Delete | Rebuild(remaining: seq<ChunkId>)

  const STAGES := 6

  function Candidates(s: Store, job: Job): set<Candidate> {
    if job.named.Some? then job.named.value else s.AnchorsOf(job.doc)
  }

  /** Tracking decides; the graph's own list is read only when tracking has none. */
  function Recorded(s: Store, c: Candidate): seq<ChunkId>
    requires c in s.graph
  {
    if s.Tracked(c) != [] then s.Tracked(c) else s.graph[c]
  }

  function Classify(s: Store, c: Candidate, ids: set<ChunkId>, policy: Policy): Verdict
    requires c in s.graph
  {
    var existing := Recorded(s, c);
    var remaining := Subtract(existing, ids);
    if remaining == [] then Delete
    else if remaining != existing || !(Elems(s.graph[c]) !! ids) || policy.RollbackPolicy? then Rebuild(remaining)
    else Untouched
  }

  function PlanFor(s: Store, cands: set<Candidate>, ids: set<ChunkId>, policy: Policy): Plan {
    Plan(
      set c | c in cands && c in s.graph && Classify(s, c, ids, policy).Delete?,
      map c | c in cands && c in s.graph && Classify(s, c, ids, policy).Rebuild? :: Classify(s, c, ids, policy).remaining)
  }

  function MakePlan(s: Store, job: Job): Plan {
    PlanFor(s, Candidates(s, job), job.ids, job.policy)
  }

  /** Edges that disappear with a deleted node. */
  function Incident(s: Store, nodes: set<Candidate>): set<Candidate> {
    set c | c in s.graph && c.Relation? && exists n :: n in c.ends && Entity(n) in nodes
  }

  function Drop(s: Store, gone: set<Candidate>): Store {
    s.(graph := s.graph - gone, index := s.index - gone, tracking := s.tracking - gone)
  }

  function Relations(cs: set<Candidate>): set<Candidate> {
    set c | c in cs && c.Relation?
  }

  function Entities(cs: set<Candidate>): set<Candidate> {
    set c | c in cs && c.Entity?
  }

  /** The source lists that rebuild writes: only objects still in the graph, and not the lost ones under best effort. */
  function Rebuilt(s: Store, plan: Plan, job: Job): map<Candidate, seq<ChunkId>> {
    map c | c in plan.rebuild && c in s.graph && (job.policy.RollbackPolicy? || c !in job.lost) ::
      s.Limit(plan.rebuild[c])
  }

  function UpdateTracking(s: Store, plan: Plan): Store {
    s.(tracking := s.tracking + plan.rebuild)
  }

  function DeleteRelations(s: Store, plan: Plan): Store {
    Drop(s, Relations(plan.delete))
  }

  function DeleteEntities(s: Store, plan: Plan): Store {
    Drop(s, Entities(plan.delete) + Incident(s, Entities(plan.delete)))
  }

  function RebuildSurvivors(s: Store, plan: Plan, job: Job): Store {
    s.(graph := s.graph + Rebuilt(s, plan, job), index := s.index + Rebuilt(s, plan, job))
  }

  function DeleteChunks(s: Store, ids: set<ChunkId>): Store {
    s.(text := s.text - ids)
  }

  function DropAnchors(s: Store, job: Job): Store {
    if job.patchOnly then s else s.(anchors := s.anchors - {job.doc})
  }

  function Stage(s: Store, plan: Plan, job: Job, k: nat): Store {
    match k
    case 0 => UpdateTracking(s, plan)
    case 1 => DeleteRelations(s, plan)
    case 2 => DeleteEntities(s, plan)
    case 3 => RebuildSurvivors(s, plan, job)
    case 4 => DeleteChunks(s, job.ids)
    case 5 => DropAnchors(s, job)
    case _ => s
  }

  function Stages(s: Store, plan: Plan, job: Job, k: nat): Store {
    if k == 0 then s else Stage(Stages(s, plan, job, k - 1), plan, job, k - 1)
  }

  /** The stores when a purge stops after its first `k` stages. */
  function After(s: Store, job: Job, k: nat): Store {
    if job.ids == {} then s else Stages(s, MakePlan(s, job), job, k)
  }

  function Purged(s: Store, job: Job): Store {
    After(s, job, STAGES)
  }

  // ---------------------------------------------------------------- closed forms

  function Gone(s: Store, plan: Plan): set<Candidate> {
    plan.delete + Incident(s, plan.delete)
  }

  function TrackingAfter(s: Store, plan: Plan, k: nat): map<Candidate, seq<ChunkId>> {
    var updated := s.tracking + plan.rebuild;
    if k == 0 then s.tracking
    else if k == 1 then updated
    else if k == 2 then updated - Relations(plan.delete)
    else updated - Gone(s, plan)
  }

  function ShapeAfter(m: map<Candidate, seq<ChunkId>>, s: Store, plan: Plan, job: Job, k: nat): map<Candidate, seq<ChunkId>> {
    if k <= 1 then m
    else if k == 2 then m - Relations(plan.delete)
    else if k == 3 then m - Gone(s, plan)
    else m + Rebuilt(s, plan, job) - Gone(s, plan)
  }

  /** Each store after `k` stages, with no reference to the stages before. */
  function Direct(s: Store, plan: Plan, job: Job, k: nat): Store {
    s.(tracking := TrackingAfter(s, plan, k),
       graph := ShapeAfter(s.graph, s, plan, job, k),
       index := ShapeAfter(s.index, s, plan, job, k),
       text := if k >= 5 then s.text - job.ids else s.text,
       anchors := if k >= 6 && !job.patchOnly then s.anchors - {job.doc} else s.anchors)
  }

  lemma DeletionsTogether(s: Store, plan: Plan)
    ensures var rels, ents := Relations(plan.delete), Entities(plan.delete);
            rels + (ents + Incident(Drop(s, rels), ents)) == Gone(s, plan)
  {
    var rels, ents := Relations(plan.delete), Entities(plan.delete);
    var d := Drop(s, rels);
    forall c | c in Incident(s, plan.delete) && c !in rels
      ensures c in Incident(d, ents)
    {
      var n :| n in c.ends && Entity(n) in plan.delete;
      assert Entity(n) in ents;
    }
    forall c | c in Incident(d, ents)
      ensures c in Incident(s, plan.delete)
    {
      var n :| n in c.ends && Entity(n) in ents;
      assert Entity(n) in plan.delete;
    }
    assert rels + ents == plan.delete;
  }

  lemma DropTwice(m: map<Candidate, seq<ChunkId>>, a: set<Candidate>, b: set<Candidate>)
    ensures m - a - b == m - (a + b)
  {
  }

  lemma IncidentOfGraph(s: Store, t: Store, nodes: set<Candidate>)
    requires s.graph == t.graph
    ensures Incident(s, nodes) == Incident(t, nodes)
  {
  }

  lemma DirectEntities(s: Store, plan: Plan, job: Job)
    ensures DeleteEntities(Direct(s, plan, job, 2), plan) == Direct(s, plan, job, 3)
  {
    var rels, ents := Relations(plan.delete), Entities(plan.delete);
    var d := Direct(s, plan, job, 2);
    IncidentOfGraph(d, Drop(s, rels), ents);
    DeletionsTogether(s, plan);
    var more := ents + Incident(d, ents);
    DropTwice(s.graph, rels, more);
    DropTwice(s.index, rels, more);
    DropTwice(s.tracking + plan.rebuild, rels, more);
  }

  lemma RebuiltShape(m: map<Candidate, seq<ChunkId>>, fixed: map<Candidate, seq<ChunkId>>, gone: set<Candidate>)
    ensures (m - gone) + (fixed - gone) == m + fixed - gone
  {
  }

  lemma DirectRebuild(s: Store, plan: Plan, job: Job)
    ensures RebuildSurvivors(Direct(s, plan, job, 3), plan, job) == Direct(s, plan, job, 4)
  {
    var d, gone := Direct(s, plan, job, 3), Gone(s, plan);
    RebuiltOfRest(s, d, plan, job);
    RebuiltShape(s.graph, Rebuilt(s, plan, job), gone);
    RebuiltShape(s.index, Rebuilt(s, plan, job), gone);
  }

  lemma RebuiltOfRest(s: Store, d: Store, plan: Plan, job: Job)
    requires d.graph == s.graph - Gone(s, plan) && d.cap == s.cap && d.fifo == s.fifo
    ensures Rebuilt(d, plan, job) == Rebuilt(s, plan, job) - Gone(s, plan)
  {
  }

  lemma {:induction false} StagesDirect(s: Store, plan: Plan, job: Job, k: nat)
    requires k <= STAGES
    ensures Stages(s, plan, job, k) == Direct(s, plan, job, k)
  {
    if k > 0 {
      StagesDirect(s, plan, job, k - 1);
      if k == 3 {
        DirectEntities(s, plan, job);
      } else if k == 4 {
        DirectRebuild(s, plan, job);
      }
    }
  }

  // ---------------------------------------------------------------- exactness

  /** No edge keeps a source while one of its ends loses them all. */
  ghost predicate NoStranding(s: Store, ids: set<ChunkId>) {
    forall c, n | c in s.graph && c.Relation? && n in c.ends && Subtract(s.Tracked(c), ids) != [] ::
      Subtract(s.Tracked(Entity(n)), ids) != []
  }

  lemma NestedNeverStrands(s: Store, ids: set<ChunkId>)
    requires s.SourcesNested()
    ensures NoStranding(s, ids)
  {
    forall c, n | c in s.graph && c.Relation? && n in c.ends && Subtract(s.Tracked(c), ids) != []
      ensures Subtract(s.Tracked(Entity(n)), ids) != []
    {
      SubtractElems(s.Tracked(c), ids);
      SubtractElems(s.Tracked(Entity(n)), ids);
      var kept := Subtract(s.Tracked(c), ids);
      assert kept[0] in Elems(kept);
      assert kept[0] in Elems(Subtract(s.Tracked(Entity(n)), ids));
    }
  }

  /** Rebuild reaches every object the plan schedules. */
  ghost predicate RebuildsAll(s: Store, job: Job) {
    job.policy.RollbackPolicy? || forall c | c in job.lost :: c !in MakePlan(s, job).rebuild
  }

  /** What the classification of one object amounts to, when the candidates are complete. */
  lemma VerdictOf(s: Store, job: Job, c: Candidate)
    requires s.Synced() && c in s.graph
    requires Complete(s, job.ids, Candidates(s, job))
    ensures var p, rest := MakePlan(s, job), Subtract(s.tracking[c], job.ids);
            && (c in p.delete <==> rest == [])
            && (c in p.rebuild ==> p.rebuild[c] == rest)
            && (c !in p.delete && c !in p.rebuild ==> rest == s.tracking[c] && Elems(s.graph[c]) !! job.ids)
  {
    SubtractUnchanged(s.tracking[c], job.ids);
    LimitedElems(s.tracking[c], s.cap, s.fifo);
    if c !in Candidates(s, job) {
      assert Elems(s.tracking[c]) !! job.ids;
    }
  }

  lemma DeletedWhenEmptied(s: Store, job: Job, c: Candidate)
    requires s.Synced() && c in s.graph
    requires Complete(s, job.ids, Candidates(s, job))
    requires NoStranding(s, job.ids)
    ensures c in Gone(s, MakePlan(s, job)) <==> Subtract(s.tracking[c], job.ids) == []
  {
    var p := MakePlan(s, job);
    VerdictOf(s, job, c);
    if c in Incident(s, p.delete) {
      var n :| n in c.ends && Entity(n) in p.delete;
      VerdictOf(s, job, Entity(n));
    }
  }

  ghost predicate SameAt(a: Store, b: Store, c: Candidate) {
    && (c in a.tracking <==> c in b.tracking) && (c in a.tracking ==> a.tracking[c] == b.tracking[c])
    && (c in a.graph <==> c in b.graph) && (c in a.graph ==> a.graph[c] == b.graph[c])
    && (c in a.index <==> c in b.index) && (c in a.index ==> a.index[c] == b.index[c])
  }

  lemma SameEverywhere(a: Store, b: Store)
    requires forall c :: SameAt(a, b, c)
    ensures a.tracking == b.tracking && a.graph == b.graph && a.index == b.index
  {
    assert forall c :: c in a.tracking ==> SameAt(a, b, c);
    assert forall c :: c in b.tracking ==> SameAt(a, b, c);
    assert forall c :: c in a.graph ==> SameAt(a, b, c);
    assert forall c :: c in b.graph ==> SameAt(a, b, c);
    assert forall c :: c in a.index ==> SameAt(a, b, c);
    assert forall c :: c in b.index ==> SameAt(a, b, c);
  }

  /** Object by object, what a plan leaves when all its stages have run. */
  lemma ObjectWhenDone(s: Store, p: Plan, job: Job, c: Candidate)
    requires p.rebuild.Keys <= s.graph.Keys
    ensures var a, gone := Stages(s, p, job, STAGES), c in Gone(s, p);
            var fixed := c in Rebuilt(s, p, job);
            && (c in a.tracking <==> (c in s.tracking || c in p.rebuild) && !gone)
            && (c in a.tracking ==> a.tracking[c] == if c in p.rebuild then p.rebuild[c] else s.tracking[c])
            && (c in a.graph <==> c in s.graph && !gone)
            && (c in a.graph ==> a.graph[c] == if fixed then s.Limit(p.rebuild[c]) else s.graph[c])
            && (c in a.index <==> (c in s.index || fixed) && !gone)
            && (c in a.index ==> a.index[c] == if fixed then s.Limit(p.rebuild[c]) else s.index[c])
  {
    StagesDirect(s, p, job, STAGES);
  }

  lemma PurgedObject(s: Store, job: Job, c: Candidate)
    requires s.Synced() && job.ids != {}
    requires Complete(s, job.ids, Candidates(s, job)) && RebuildsAll(s, job)
    requires NoStranding(s, job.ids)
    ensures SameAt(Purged(s, job), Erase(s, job.ids), c)
  {
    ObjectWhenDone(s, MakePlan(s, job), job, c);
    if c in s.graph {
      VerdictOf(s, job, c);
      DeletedWhenEmptied(s, job, c);
    }
  }

  lemma PurgeErases(s: Store, job: Job)
    requires s.Synced() && job.ids != {}
    requires Complete(s, job.ids, Candidates(s, job)) && RebuildsAll(s, job)
    requires NoStranding(s, job.ids)
    ensures Purged(s, job) == Erase(s, job.ids).(anchors := Purged(s, job).anchors)
  {
    var a, e := Purged(s, job), Erase(s, job.ids);
    forall c
      ensures SameAt(a, e, c)
    {
      PurgedObject(s, job, c);
    }
    SameEverywhere(a, e);
    StagesDirect(s, MakePlan(s, job), job, STAGES);
  }

  lemma StrandedEdgeIsLost(s: Store, job: Job, c: Candidate, n: Name)
    requires s.Synced() && s.EndpointsExist() && job.ids != {}
    requires Complete(s, job.ids, Candidates(s, job))
    requires c in s.graph && c.Relation? && n in c.ends
    requires Subtract(s.Tracked(c), job.ids) != [] && Subtract(s.Tracked(Entity(n)), job.ids) == []
    ensures c !in Purged(s, job).graph && c in Erase(s, job.ids).graph
  {
    StagesDirect(s, MakePlan(s, job), job, STAGES);
    VerdictOf(s, job, Entity(n));
    assert c in Incident(s, MakePlan(s, job).delete);
  }

  /**
   * With complete candidates a purge does exactly what removing the chunks means, unless some edge
   * would keep a source while one of its ends keeps none: the end's deletion then takes the edge along.
   */
  lemma PurgeErasesExactly(s: Store, job: Job)
    requires s.Synced() && s.EndpointsExist() && job.ids != {}
    requires Complete(s, job.ids, Candidates(s, job)) && RebuildsAll(s, job)
    ensures Purged(s, job) == Erase(s, job.ids).(anchors := Purged(s, job).anchors) <==> NoStranding(s, job.ids)
  {
    if NoStranding(s, job.ids) {
      PurgeErases(s, job);
    } else {
      var c, n :| c in s.graph && c.Relation? && n in c.ends && Subtract(s.Tracked(c), job.ids) != []
        && Subtract(s.Tracked(Entity(n)), job.ids) == [];
      StrandedEdgeIsLost(s, job, c, n);
    }
  }

  /** The consequence that matters for edges: with nested sources nothing scheduled for rebuild is lost. */
  lemma RebuiltEdgesKeepTheirEnds(s: Store, job: Job, c: Candidate, n: Name)
    requires s.Synced() && s.EndpointsExist() && s.SourcesNested()
    requires Complete(s, job.ids, Candidates(s, job))
    requires c in MakePlan(s, job).rebuild && c.Relation? && n in c.ends
    ensures job.ids != {} ==> c in After(s, job, 3).graph && Entity(n) in After(s, job, 3).graph
  {
    var p := MakePlan(s, job);
    StagesDirect(s, p, job, 3);
    NestedNeverStrands(s, job.ids);
    VerdictOf(s, job, c);
    DeletedWhenEmptied(s, job, c);
    DeletedWhenEmptied(s, job, Entity(n));
  }

  // ---------------------------------------------------------------- stage boundaries

  /** A surviving object of the purge refers to a purged chunk exactly when rebuild was due and lost it. */
  lemma ReferenceAfterRebuild(s: Store, job: Job, c: Candidate)
    requires s.Synced() && job.ids != {} && Complete(s, job.ids, Candidates(s, job))
    requires c in After(s, job, 4).graph
    ensures c in s.graph && Elems(After(s, job, 4).graph[c]) <= Elems(s.tracking[c])
    ensures Elems(After(s, job, 4).graph[c]) !! job.ids
       <==> !(job.policy.BestEffort? && c in job.lost && !(Elems(s.graph[c]) !! job.ids))
  {
    var p := MakePlan(s, job);
    StagesDirect(s, p, job, 4);
    VerdictOf(s, job, c);
    SubtractElems(s.tracking[c], job.ids);
    LimitedElems(s.tracking[c], s.cap, s.fifo);
    if c in p.rebuild {
      LimitedElems(p.rebuild[c], s.cap, s.fifo);
    }
  }

  /** Every recorded source is a stored chunk. */
  ghost predicate SourcesStored(s: Store) {
    forall c | c in s.tracking :: Elems(s.tracking[c]) <= s.text
  }

  /** The object keeps a source, and so does each of its ends. */
  ghost predicate Outlives(s: Store, ids: set<ChunkId>, c: Candidate) {
    && Subtract(s.Tracked(c), ids) != []
    && (c.Relation? ==> forall n | n in c.ends && Entity(n) in s.graph :: Subtract(s.Tracked(Entity(n)), ids) != [])
  }

  /** An object that outlives the purge names a purged chunk in the graph, and its rebuild is lost. */
  ghost predicate LeavesStale(s: Store, job: Job) {
    job.policy.BestEffort? && exists c :: c in job.lost && c in s.graph && Outlives(s, job.ids, c) && !(Elems(s.graph[c]) !! job.ids)
  }

  lemma OutlivesPurge(s: Store, job: Job, c: Candidate)
    requires s.Synced() && job.ids != {} && Complete(s, job.ids, Candidates(s, job)) && c in s.graph
    ensures c in After(s, job, 4).graph <==> Outlives(s, job.ids, c)
  {
    var p := MakePlan(s, job);
    StagesDirect(s, p, job, 4);
    VerdictOf(s, job, c);
    if c in Incident(s, p.delete) {
      var n :| n in c.ends && Entity(n) in p.delete;
      VerdictOf(s, job, Entity(n));
    }
    if c.Relation? && !Outlives(s, job.ids, c) && Subtract(s.Tracked(c), job.ids) != [] {
      var n :| n in c.ends && Entity(n) in s.graph && Subtract(s.Tracked(Entity(n)), job.ids) == [];
      VerdictOf(s, job, Entity(n));
    }
  }

  lemma EarlyBoundaries(s: Store, job: Job, k: nat)
    requires s.Synced() && SourcesStored(s) && k <= 4
    requires job.ids != {} && Complete(s, job.ids, Candidates(s, job))
    ensures After(s, job, k).NoDangling()
  {
    StagesDirect(s, MakePlan(s, job), job, k);
    var a := After(s, job, k);
    forall c, ch | c in a.graph && ch in a.graph[c]
      ensures ch in a.text
    {
      LimitedElems(s.tracking[c], s.cap, s.fifo);
      if k == 4 {
        ReferenceAfterRebuild(s, job, c);
      }
      assert ch in Elems(a.graph[c]);
    }
  }

  /**
   * Chunks go only after every contribution was repaired, so no boundary leaves a reference to a
   * deleted chunk, except where best-effort rebuild had to give up on a stale object.
   */
  lemma NoBoundaryDangles(s: Store, job: Job, k: nat)
    requires s.Synced() && SourcesStored(s) && k <= STAGES
    requires job.ids != {} && Complete(s, job.ids, Candidates(s, job))
    ensures After(s, job, k).NoDangling() <==> k <= 4 || !LeavesStale(s, job)
  {
    if k <= 4 {
      EarlyBoundaries(s, job, k);
    } else {
      StagesDirect(s, MakePlan(s, job), job, 4);
      StagesDirect(s, MakePlan(s, job), job, k);
      var a, r := After(s, job, k), After(s, job, 4);
      assert a.graph == r.graph && a.text == s.text - job.ids;
      forall c | c in r.graph
        ensures Elems(r.graph[c]) <= a.text
           <==> !(job.policy.BestEffort? && c in job.lost && !(Elems(s.graph[c]) !! job.ids))
      {
        ReferenceAfterRebuild(s, job, c);
        assert Elems(r.graph[c]) <= s.text;
      }
      if LeavesStale(s, job) {
        var c :| c in job.lost && c in s.graph && Outlives(s, job.ids, c) && !(Elems(s.graph[c]) !! job.ids);
        OutlivesPurge(s, job, c);
        var ch :| ch in Elems(r.graph[c]) && ch !in a.text;
        assert ch in a.graph[c];
      } else {
        forall c, ch | c in a.graph && ch in a.graph[c]
          ensures ch in a.text
        {
          OutlivesPurge(s, job, c);
          assert ch in Elems(r.graph[c]);
        }
      }
    }
  }

  /** The recovery anchors outlive every other stage, and a patch rollback never drops them. */
  lemma AnchorsGoLast(s: Store, job: Job, k: nat)
    requires k <= STAGES && job.doc in s.anchors && job.ids != {}
    ensures After(s, job, k).anchors == s.anchors <==> k < STAGES || job.patchOnly
    ensures After(s, job, k).rows == s.rows && After(s, job, k).bodies == s.bodies
    ensures k == STAGES && !job.patchOnly ==> After(s, job, k).anchors == s.anchors - {job.doc}
  {
    StagesDirect(s, MakePlan(s, job), job, k);
  }

  lemma PurgeKeepsAligned(s: Store, job: Job, k: nat)
    requires s.Aligned() && k <= STAGES
    ensures After(s, job, k).Aligned()
  {
    if job.ids != {} {
      var p, t := MakePlan(s, job), After(s, job, k);
      StagesDirect(s, p, job, k);
      forall c
        ensures c in t.tracking <==> c in t.graph
        ensures c in t.index <==> c in t.graph
        ensures c in t.tracking ==> t.tracking[c] != []
      {
        assert c in p.rebuild ==> c in s.graph && p.rebuild[c] != [];
      }
    }
  }

  // ---------------------------------------------------------------- restart

  /**
   * A purge of these chunks may be repeated: an object that is to be rebuilt although its graph list holds
   * none of them has a graph list that the rebuild would not change. A second run would not see that it was
   * scheduled, because its tracking has been filtered already. Rollback schedules every candidate anyway.
   */
  ghost predicate Repeatable(s: Store, job: Job) {
    job.policy.RollbackPolicy? ||
    var p := MakePlan(s, job);
    forall c | c in p.rebuild && c !in job.lost && c !in Gone(s, p) && Elems(s.graph[c]) !! job.ids :: s.graph[c] == s.Limit(p.rebuild[c])
  }

  /** Stores in step may be purged of anything, repeatedly. */
  lemma SyncedIsRepeatable(s: Store, job: Job)
    requires s.Synced()
    ensures Repeatable(s, job)
  {
    var p := MakePlan(s, job);
    forall c | c in p.rebuild && Elems(s.graph[c]) !! job.ids
      ensures s.graph[c] == s.Limit(p.rebuild[c])
    {
      LimitedAfterSubtract(s.tracking[c], job.ids, s.cap, s.fifo);
    }
  }

  /** Object by object, what a boundary of the purge holds. */
  lemma BoundaryObject(s: Store, job: Job, k: nat, c: Candidate)
    requires s.index == s.graph && job.ids != {} && k <= 5
    ensures var b, p := After(s, job, k), MakePlan(s, job);
            && (c in b.index <==> c in b.graph) && (c in b.graph ==> c in s.graph && b.index[c] == b.graph[c])
            && (c in b.graph ==> b.Tracked(c) == if k > 0 && c in p.rebuild then p.rebuild[c] else s.Tracked(c))
            && (c in b.graph ==> b.graph[c] == if k > 3 && c in Rebuilt(s, p, job) then s.Limit(p.rebuild[c]) else s.graph[c])
            && b.cap == s.cap && b.fifo == s.fifo && Candidates(b, job) == Candidates(s, job)
            && (c in b.graph && k > 2 ==> c !in Gone(s, p)) && (k <= 1 ==> (c in b.graph <==> c in s.graph))
            && (c in s.graph && c !in b.graph ==> c in Gone(s, p)) && (c in b.graph && k == 2 ==> c !in Relations(p.delete))
  {
    StagesDirect(s, MakePlan(s, job), job, k);
  }

  lemma BoundaryStore(s: Store, job: Job, k: nat)
    requires s.index == s.graph && k <= STAGES
    ensures After(s, job, k).index == After(s, job, k).graph
  {
    if job.ids != {} {
      StagesDirect(s, MakePlan(s, job), job, k);
    }
  }

  /** How a second run sees one object of a store that a first run left after `k` stages. */
  lemma SecondVerdict(s: Store, job: Job, k: nat, c: Candidate)
    requires s.index == s.graph && job.ids != {} && k <= 5
    requires c in After(s, job, k).graph
    ensures var p, b := MakePlan(s, job), After(s, job, k);
            var q := MakePlan(b, job);
            && (c in q.delete <==> c in p.delete)
            && (c in q.rebuild ==> c in p.rebuild && q.rebuild[c] == p.rebuild[c])
            && (c in p.rebuild && c !in q.rebuild ==> k > 0 && job.policy.BestEffort? && Elems(b.graph[c]) !! job.ids)
            && (k > 0 && c in p.rebuild && job.policy.BestEffort? && Elems(b.graph[c]) !! job.ids ==> c !in q.rebuild)
  {
    BoundaryObject(s, job, k, c);
    SubtractTwice(Recorded(s, c), job.ids, job.ids);
    assert job.ids + job.ids == job.ids;
  }

  lemma SecondGone(s: Store, job: Job, k: nat)
    requires s.index == s.graph && job.ids != {} && k <= 5
    ensures var b := After(s, job, k);
            b.graph.Keys - Gone(b, MakePlan(b, job)) == s.graph.Keys - Gone(s, MakePlan(s, job))
  {
    var p, b := MakePlan(s, job), After(s, job, k);
    var q := MakePlan(b, job);
    StagesDirect(s, p, job, k);
    forall c | c in b.graph
      ensures c in Gone(b, q) <==> c in Gone(s, p)
    {
      SecondVerdict(s, job, k, c);
      if c in Incident(b, q.delete) {
        var n :| n in c.ends && Entity(n) in q.delete;
        SecondVerdict(s, job, k, Entity(n));
      }
      if c in Incident(s, p.delete) {
        var n :| n in c.ends && Entity(n) in p.delete;
        if k <= 2 {
          assert Entity(n) in b.graph;
          SecondVerdict(s, job, k, Entity(n));
          assert Entity(n) in q.delete;
        }
      }
    }
  }

  /** Halfway, a rebuilt object's graph list is the old one or already the rebuilt one. */
  lemma RebuiltMidway(s: Store, job: Job, k: nat, c: Candidate)
    requires s.index == s.graph && job.ids != {} && k <= 5 && Repeatable(s, job)
    requires c in After(s, job, k).graph && c in MakePlan(s, job).rebuild && c !in Gone(s, MakePlan(s, job)) && c !in job.lost
    requires job.policy.BestEffort? && Elems(After(s, job, k).graph[c]) !! job.ids
    ensures After(s, job, k).graph[c] == s.Limit(MakePlan(s, job).rebuild[c])
  {
    BoundaryObject(s, job, k, c);
  }

  lemma MidwayMaps(s: Store, p: Plan, job: Job, k: nat, c: Candidate)
    requires k <= 5 && p.delete <= s.graph.Keys && p.rebuild.Keys <= s.graph.Keys
    ensures var tracking, graph := TrackingAfter(s, p, k), ShapeAfter(s.graph, s, p, job, k);
            && (c in graph || c !in s.graph ==> (c in tracking <==> c in s.tracking || (k > 0 && c in p.rebuild)))
            && (c in s.graph && c !in graph ==> c !in tracking && c in Gone(s, p))
            && (c !in s.graph ==> c !in graph && (c in s.tracking ==> tracking[c] == s.tracking[c]))
  {
  }

  /** The tracking rows of a boundary: a row whose object is not in the graph is never touched. */
  lemma TrackedMidway(s: Store, job: Job, k: nat, c: Candidate)
    requires job.ids != {} && k <= 5
    ensures var b, p := After(s, job, k), MakePlan(s, job);
            && (c in b.graph || c !in s.graph ==> (c in b.tracking <==> c in s.tracking || (k > 0 && c in p.rebuild)))
            && (c in s.graph && c !in b.graph ==> c !in b.tracking && c in Gone(s, p))
            && (c !in s.graph ==> c !in b.graph && (c in s.tracking ==> b.tracking[c] == s.tracking[c]))
  {
    StagesDirect(s, MakePlan(s, job), job, k);
    MidwayMaps(s, MakePlan(s, job), job, k, c);
  }

  lemma SecondTracking(s: Store, job: Job, k: nat, c: Candidate)
    requires s.index == s.graph && job.ids != {} && k <= 5
    ensures var a, d := Purged(After(s, job, k), job), Purged(s, job);
            (c in a.tracking <==> c in d.tracking) && (c in a.tracking ==> a.tracking[c] == d.tracking[c])
  {
    var p, b := MakePlan(s, job), After(s, job, k);
    ObjectWhenDone(s, p, job, c);
    ObjectWhenDone(b, MakePlan(b, job), job, c);
    TrackedMidway(s, job, k, c);
    if c in b.graph {
      BoundaryObject(s, job, k, c);
      SecondGone(s, job, k);
      assert c in s.graph.Keys - Gone(s, p) <==> c in b.graph.Keys - Gone(b, MakePlan(b, job));
      SecondVerdict(s, job, k, c);
    }
  }

  lemma SecondShape(s: Store, job: Job, k: nat, c: Candidate)
    requires s.index == s.graph && Repeatable(s, job) && job.ids != {} && k <= 5
    ensures var a, d := Purged(After(s, job, k), job), Purged(s, job);
            (c in a.graph <==> c in d.graph) && (c in a.graph ==> a.graph[c] == d.graph[c])
  {
    var p, b := MakePlan(s, job), After(s, job, k);
    var q := MakePlan(b, job);
    ObjectWhenDone(s, p, job, c);
    ObjectWhenDone(b, q, job, c);
    BoundaryObject(s, job, k, c);
    SecondGone(s, job, k);
    assert c in s.graph.Keys - Gone(s, p) <==> c in b.graph.Keys - Gone(b, q);
    if c in b.graph && c !in Gone(s, p) {
      SecondVerdict(s, job, k, c);
      if c in p.rebuild && c !in q.rebuild && c !in job.lost {
        RebuiltMidway(s, job, k, c);
      }
    }
  }

  lemma SecondObject(s: Store, job: Job, k: nat, c: Candidate)
    requires s.index == s.graph && Repeatable(s, job) && job.ids != {} && k <= 5
    ensures SameAt(Purged(After(s, job, k), job), Purged(s, job), c)
  {
    SecondTracking(s, job, k, c);
    SecondShape(s, job, k, c);
    BoundaryStore(s, job, k);
    BoundaryStore(s, job, STAGES);
    BoundaryStore(After(s, job, k), job, STAGES);
  }

  lemma PurgeRest(s: Store, job: Job, k: nat)
    requires job.ids != {} && k <= 5
    ensures var b := After(s, job, k);
            b.rows == s.rows && b.bodies == s.bodies && b.anchors == s.anchors && s.text - job.ids <= b.text <= s.text
  {
    StagesDirect(s, MakePlan(s, job), job, k);
  }

  lemma NothingPlanned(s: Store, job: Job, k: nat)
    requires job.ids != {} && k <= 5 && Candidates(s, job) == {}
    ensures var b := After(s, job, k); b.tracking == s.tracking && b.graph == s.graph && b.index == s.index
  {
    var p := MakePlan(s, job);
    assert p == Plan({}, map[]);
    assert Gone(s, p) == {} && Rebuilt(s, p, job) == map[];
    StagesDirect(s, p, job, k);
  }

  lemma NothingNamedNothingDone(s: Store, job: Job)
    requires Candidates(s, job) == {} && s.text !! job.ids
    requires !job.patchOnly ==> job.doc !in s.anchors
    ensures Purged(s, job) == s
  {
    var p := MakePlan(s, job);
    StagesDirect(s, p, job, STAGES);
    assert p == Plan({}, map[]);
  }

  lemma RestartBeforeEnd(s: Store, job: Job, k: nat)
    requires s.index == s.graph && Repeatable(s, job) && k < STAGES && job.ids != {}
    ensures Purged(After(s, job, k), job) == Purged(s, job)
  {
    var b := After(s, job, k);
    forall c
      ensures SameAt(Purged(b, job), Purged(s, job), c)
    {
      SecondObject(s, job, k, c);
    }
    SameEverywhere(Purged(b, job), Purged(s, job));
    StagesDirect(s, MakePlan(s, job), job, k);
    StagesDirect(s, MakePlan(s, job), job, STAGES);
    StagesDirect(b, MakePlan(b, job), job, STAGES);
  }

  lemma PlanIgnoresAnchors(b: Store, anchors: map<DocId, set<Candidate>>, cands: set<Candidate>, ids: set<ChunkId>, policy: Policy)
    ensures PlanFor(b.(anchors := anchors), cands, ids, policy) == PlanFor(b, cands, ids, policy)
  {
    var a := b.(anchors := anchors);
    forall c | c in b.graph
      ensures Classify(a, c, ids, policy) == Classify(b, c, ids, policy)
    {
    }
  }

  lemma ClosedFormIgnoresAnchors(b: Store, anchors: map<DocId, set<Candidate>>, q: Plan, job: Job)
    ensures var a := b.(anchors := anchors);
            && TrackingAfter(a, q, STAGES) == TrackingAfter(b, q, STAGES)
            && ShapeAfter(a.graph, a, q, job, STAGES) == ShapeAfter(b.graph, b, q, job, STAGES)
            && ShapeAfter(a.index, a, q, job, STAGES) == ShapeAfter(b.index, b, q, job, STAGES)
  {
    var a := b.(anchors := anchors);
    assert Gone(a, q) == Gone(b, q);
    assert Rebuilt(a, q, job) == Rebuilt(b, q, job);
  }

  lemma LastStageAgain(b: Store, job: Job)
    requires job.ids != {} && (job.named.Some? || job.patchOnly)
    ensures Purged(DropAnchors(b, job), job) == DropAnchors(Purged(b, job), job)
  {
    var a, q := DropAnchors(b, job), MakePlan(b, job);
    PlanIgnoresAnchors(b, a.anchors, Candidates(b, job), job.ids, job.policy);
    ClosedFormIgnoresAnchors(b, a.anchors, q, job);
    StagesDirect(a, q, job, STAGES);
    StagesDirect(b, q, job, STAGES);
    assert b.anchors - {job.doc} - {job.doc} == b.anchors - {job.doc};
  }

  lemma RestartWhenDone(s: Store, job: Job)
    requires s.index == s.graph && Repeatable(s, job) && job.ids != {}
    ensures Purged(Purged(s, job), job) == Purged(s, job)
  {
    var b := Purged(s, job);
    StagesDirect(s, MakePlan(s, job), job, STAGES);
    if job.named.None? && !job.patchOnly {
      NothingNamedNothingDone(b, job);
    } else {
      assert b == DropAnchors(After(s, job, 5), job);
      RestartBeforeEnd(s, job, 5);
      LastStageAgain(After(s, job, 5), job);
    }
  }

  lemma RestartOnce(s: Store, job: Job, k: nat)
    requires s.index == s.graph && (job.ids != {} ==> Repeatable(s, job)) && k <= STAGES
    ensures Purged(After(s, job, k), job) == Purged(s, job)
  {
    if job.ids != {} {
      if k < STAGES {
        RestartBeforeEnd(s, job, k);
      } else {
        RestartWhenDone(s, job);
      }
    }
  }

  /** A purge that is run again and again, stopping behind the given stages. */
  function Attempts(s: Store, job: Job, stops: seq<nat>): Store
    decreases |stops|
  {
    if stops == [] then s else Attempts(After(s, job, stops[0]), job, stops[1..])
  }

  predicate Boundaries(stops: seq<nat>) {
    forall k | k in stops :: k <= STAGES
  }

  /** Behind its first stage a purge can be repeated anyway: the tracking has been filtered. */
  lemma StaysRepeatable(s: Store, job: Job, k: nat)
    requires s.index == s.graph && job.ids != {} && Repeatable(s, job) && k <= STAGES
    ensures Repeatable(After(s, job, k), job)
  {
    var b := After(s, job, k);
    if job.policy.BestEffort? && (k < STAGES || job.named.Some? || job.patchOnly) {
      var p, q := MakePlan(s, job), MakePlan(b, job);
      StagesDirect(s, p, job, k);
      var kk := if k == STAGES then 5 else k;
      assert k == STAGES ==> b == DropAnchors(After(s, job, 5), job);
      SameListsSamePlan(After(s, job, kk), b, job);
      forall c | c in q.rebuild && c !in job.lost && c !in Gone(b, q) && Elems(b.graph[c]) !! job.ids
        ensures b.graph[c] == b.Limit(q.rebuild[c])
      {
        SecondVerdict(s, job, kk, c);
        SecondGone(s, job, kk);
        BoundaryObject(s, job, kk, c);
        assert c in b.graph.Keys - Gone(b, q);
      }
    }
  }

  lemma SameListsSamePlan(a: Store, b: Store, job: Job)
    requires b == a.(anchors := b.anchors) && (a == b || job.named.Some?)
    ensures MakePlan(b, job) == MakePlan(a, job) && Gone(b, MakePlan(b, job)) == Gone(a, MakePlan(a, job))
  {
    PlanIgnoresAnchors(a, b.anchors, Candidates(a, job), job.ids, job.policy);
  }

  /**
   * A purge stopped at any stage boundaries, any number of times, and run again reaches the stores of an
   * uninterrupted one, whatever the candidates and whatever best-effort rebuild loses.
   */
  lemma {:induction false} PurgeRestarts(s: Store, job: Job, stops: seq<nat>)
    requires s.index == s.graph && (job.ids != {} ==> Repeatable(s, job)) && Boundaries(stops)
    ensures Purged(Attempts(s, job, stops), job) == Purged(s, job)
    decreases |stops|
  {
    if stops != [] {
      var k := stops[0];
      assert k in stops;
      RestartOnce(s, job, k);
      BoundaryStore(s, job, k);
      if job.ids != {} {
        StaysRepeatable(s, job, k);
      }
      assert forall x | x in stops[1..] :: x in stops;
      assert Boundaries(stops[1..]);
      PurgeRestarts(After(s, job, k), job, stops[1..]);
    }
  }

  /** Stopped behind its first stage, a purge that is not repeatable leaves another graph list. */
  lemma UnrepeatableDiffers(s: Store, job: Job, c: Candidate)
    requires s.index == s.graph && job.ids != {} && job.policy.BestEffort?
    requires c in MakePlan(s, job).rebuild && c !in job.lost && c !in Gone(s, MakePlan(s, job))
    requires Elems(s.graph[c]) !! job.ids && s.graph[c] != s.Limit(MakePlan(s, job).rebuild[c])
    ensures c in Purged(s, job).graph && c in Purged(After(s, job, 1), job).graph
    ensures Purged(After(s, job, 1), job).graph[c] == s.graph[c] != Purged(s, job).graph[c]
  {
    var p, b := MakePlan(s, job), After(s, job, 1);
    ObjectWhenDone(s, p, job, c);
    StagesDirect(s, p, job, 1);
    SecondVerdict(s, job, 1, c);
    SecondGone(s, job, 1);
    assert c in b.graph.Keys - Gone(b, MakePlan(b, job));
    ObjectWhenDone(b, MakePlan(b, job), job, c);
  }

  /** Restarting is harmless exactly for repeatable purges. */
  lemma RestartsIffRepeatable(s: Store, job: Job)
    requires s.index == s.graph && job.ids != {}
    ensures Repeatable(s, job) <==> forall stops | Boundaries(stops) :: Purged(Attempts(s, job, stops), job) == Purged(s, job)
  {
    if Repeatable(s, job) {
      forall stops | Boundaries(stops)
        ensures Purged(Attempts(s, job, stops), job) == Purged(s, job)
      {
        PurgeRestarts(s, job, stops);
      }
    } else {
      var p := MakePlan(s, job);
      var c :| c in p.rebuild && c !in job.lost && c !in Gone(s, p) && Elems(s.graph[c]) !! job.ids && s.graph[c] != s.Limit(p.rebuild[c]);
      UnrepeatableDiffers(s, job, c);
      var stops: seq<nat> := [1];
      assert stops[1..] == [];
      assert Attempts(s, job, stops) == Attempts(After(s, job, 1), job, []) == After(s, job, 1);
      assert Boundaries(stops);
    }
  }
}
