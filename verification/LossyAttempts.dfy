/**
 * Attempts that lose different objects. Whether an object's extraction can be recovered from the cache may differ
 * from one attempt to the next; in the end only those are lost that every attempt which came to rebuild has lost.
 */
module LossyAttempts {
  import opened Sources
  import opened Stores
  import opened Purge
  import D = Deletion

  /** An attempt that fails behind its first `upTo` stages. */
  datatype Try = Try(lost: set<Candidate>, upTo: nat)

  const REBUILD := 4

  function Tried(s: Store, job: Job, tries: seq<Try>): Store
    decreases |tries|
  {
    if tries == [] then s else Tried(After(s, job.(lost := tries[0].lost), tries[0].upTo), job, tries[1..])
  }

  /** What is lost in the end, when rebuild is the stage with this number. */
  function LostThroughout(tries: seq<Try>, last: set<Candidate>, rebuild: nat): set<Candidate> {
    if tries == [] then last
    else if tries[0].upTo >= rebuild then tries[0].lost * LostThroughout(tries[1..], last, rebuild)
    else LostThroughout(tries[1..], last, rebuild)
  }

  predicate Failing(tries: seq<Try>) {
    forall t | t in tries :: t.upTo < STAGES
  }

  lemma PlanIgnoresLost(s: Store, job: Job, lost: set<Candidate>)
    ensures MakePlan(s, job.(lost := lost)) == MakePlan(s, job)
  {
  }

  lemma LosingLess(s: Store, job: Job, lost: set<Candidate>)
    requires Repeatable(s, job.(lost := {}))
    ensures Repeatable(s, job.(lost := lost))
  {
    PlanIgnoresLost(s, job, lost);
    PlanIgnoresLost(s, job, {});
  }

  lemma BeforeRebuild(s: Store, job: Job, lost: set<Candidate>, k: nat)
    requires k < REBUILD
    ensures After(s, job.(lost := lost), k) == After(s, job, k)
  {
    PlanIgnoresLost(s, job, lost);
    if job.ids != {} {
      StagesDirect(s, MakePlan(s, job), job, k);
      StagesDirect(s, MakePlan(s, job), job.(lost := lost), k);
    }
  }

  lemma TrackingIgnoresLost(s: Store, job: Job, lost: set<Candidate>)
    ensures Purged(s, job.(lost := lost)).tracking == Purged(s, job).tracking
  {
    PlanIgnoresLost(s, job, lost);
    if job.ids != {} {
      StagesDirect(s, MakePlan(s, job), job, STAGES);
      StagesDirect(s, MakePlan(s, job), job.(lost := lost), STAGES);
    }
  }

  /** One object's lists, when an attempt that came to rebuild lost `first` and the next one loses `next`. */
  lemma ShapeOfTwo(s: Store, job: Job, first: set<Candidate>, k: nat, next: set<Candidate>, c: Candidate)
    requires s.index == s.graph && job.ids != {} && Repeatable(s, job.(lost := {})) && REBUILD <= k <= 5
    ensures var a, d := Purged(After(s, job.(lost := first), k), job.(lost := next)), Purged(s, job.(lost := first * next));
            (c in a.graph <==> c in d.graph) && (c in a.graph ==> a.graph[c] == d.graph[c])
  {
    var one, two, both := job.(lost := first), job.(lost := next), job.(lost := first * next);
    var p, b := MakePlan(s, job), After(s, one, k);
    var q := MakePlan(b, job);
    PlanIgnoresLost(s, job, first);
    PlanIgnoresLost(s, job, first * next);
    PlanIgnoresLost(s, job, {});
    PlanIgnoresLost(b, job, first);
    PlanIgnoresLost(b, job, next);
    ObjectWhenDone(s, p, both, c);
    ObjectWhenDone(b, q, two, c);
    BoundaryObject(s, one, k, c);
    SecondGone(s, one, k);
    assert c in s.graph.Keys - Gone(s, p) <==> c in b.graph.Keys - Gone(b, q);
    if c in b.graph && c !in Gone(s, p) {
      SecondVerdict(s, one, k, c);
    }
  }

  lemma TrackingOfTwo(s: Store, job: Job, first: set<Candidate>, k: nat, next: set<Candidate>, c: Candidate)
    requires s.index == s.graph && job.ids != {} && k <= 5
    ensures var a, d := Purged(After(s, job.(lost := first), k), job.(lost := next)), Purged(s, job.(lost := first * next));
            (c in a.tracking <==> c in d.tracking) && (c in a.tracking ==> a.tracking[c] == d.tracking[c])
  {
    SecondTracking(s, job.(lost := first), k, c);
    TrackingIgnoresLost(After(s, job.(lost := first), k), job.(lost := first), next);
    TrackingIgnoresLost(s, job.(lost := first), first * next);
  }

  lemma RestOfTwo(s: Store, job: Job, first: set<Candidate>, k: nat, next: set<Candidate>)
    requires s.index == s.graph && job.ids != {} && k <= 5
    ensures var a, d := Purged(After(s, job.(lost := first), k), job.(lost := next)), Purged(s, job.(lost := first * next));
            a == d.(tracking := a.tracking, graph := a.graph, index := a.index)
  {
    var b := After(s, job.(lost := first), k);
    StagesDirect(s, MakePlan(s, job.(lost := first)), job.(lost := first), k);
    StagesDirect(s, MakePlan(s, job.(lost := first * next)), job.(lost := first * next), STAGES);
    StagesDirect(b, MakePlan(b, job.(lost := next)), job.(lost := next), STAGES);
  }

  lemma TwoAttempts(s: Store, job: Job, first: set<Candidate>, k: nat, next: set<Candidate>)
    requires s.index == s.graph && job.ids != {} && Repeatable(s, job.(lost := {})) && REBUILD <= k <= 5
    ensures Purged(After(s, job.(lost := first), k), job.(lost := next)) == Purged(s, job.(lost := first * next))
  {
    var b := After(s, job.(lost := first), k);
    var a, d := Purged(b, job.(lost := next)), Purged(s, job.(lost := first * next));
    BoundaryStore(s, job.(lost := first), k);
    BoundaryStore(b, job.(lost := next), STAGES);
    BoundaryStore(s, job.(lost := first * next), STAGES);
    forall c
      ensures SameAt(a, d, c)
    {
      TrackingOfTwo(s, job, first, k, next, c);
      ShapeOfTwo(s, job, first, k, next, c);
    }
    SameEverywhere(a, d);
    RestOfTwo(s, job, first, k, next);
  }

  /** Whatever an attempt loses, the purge stays repeatable. */
  lemma StaysRepeatableAnyway(s: Store, job: Job, lost: set<Candidate>, k: nat)
    requires s.index == s.graph && job.ids != {} && Repeatable(s, job.(lost := {})) && k < STAGES
    ensures Repeatable(After(s, job.(lost := lost), k), job.(lost := {}))
  {
    var one := job.(lost := lost);
    var p, b := MakePlan(s, job), After(s, one, k);
    var q := MakePlan(b, job);
    PlanIgnoresLost(s, job, lost);
    PlanIgnoresLost(s, job, {});
    PlanIgnoresLost(b, job, lost);
    PlanIgnoresLost(b, job, {});
    if job.policy.BestEffort? {
      forall c | c in q.rebuild && c !in Gone(b, q) && Elems(b.graph[c]) !! job.ids
        ensures b.graph[c] == b.Limit(q.rebuild[c])
      {
        SecondVerdict(s, one, k, c);
        SecondGone(s, one, k);
        BoundaryObject(s, one, k, c);
        assert c in b.graph.Keys - Gone(b, q);
      }
    }
  }

  lemma OneMoreAttempt(s: Store, job: Job, first: Try, next: set<Candidate>)
    requires s.index == s.graph && job.ids != {} && Repeatable(s, job.(lost := {})) && first.upTo < STAGES
    ensures Purged(After(s, job.(lost := first.lost), first.upTo), job.(lost := next))
         == Purged(s, job.(lost := if first.upTo >= REBUILD then first.lost * next else next))
  {
    if first.upTo >= REBUILD {
      TwoAttempts(s, job, first.lost, first.upTo, next);
    } else {
      BeforeRebuild(s, job, first.lost, first.upTo);
      BeforeRebuild(s, job, next, first.upTo);
      LosingLess(s, job, next);
      RestartOnce(s, job.(lost := next), first.upTo);
    }
  }

  /**
   * A purge that fails any number of times, losing other objects each time, and then succeeds reaches the stores of
   * one attempt that loses what all of them lost that came to rebuild.
   */
  lemma {:induction false} AttemptsLoseInCommon(s: Store, job: Job, tries: seq<Try>, last: set<Candidate>)
    requires s.index == s.graph && job.ids != {} && Repeatable(s, job.(lost := {})) && Failing(tries)
    ensures Purged(Tried(s, job, tries), job.(lost := last)) == Purged(s, job.(lost := LostThroughout(tries, last, REBUILD)))
    decreases |tries|
  {
    if tries != [] {
      var t := tries[0];
      assert t in tries && forall x | x in tries[1..] :: x in tries;
      var b := After(s, job.(lost := t.lost), t.upTo);
      BoundaryStore(s, job.(lost := t.lost), t.upTo);
      StaysRepeatableAnyway(s, job, t.lost, t.upTo);
      AttemptsLoseInCommon(b, job, tries[1..], last);
      OneMoreAttempt(s, job, t, LostThroughout(tries[1..], last, REBUILD));
    }
  }

  // ---------------------------------------------------------------- deletions

  const DELETION_REBUILD := 5

  function DeletionTried(s: Store, d: DocId, tries: seq<Try>): Store
    decreases |tries|
  {
    if tries == [] then s else DeletionTried(D.KgAfter(s, d, tries[0].lost, tries[0].upTo), d, tries[1..])
  }

  lemma OneMoreDeletion(s: Store, d: DocId, first: Try, next: set<Candidate>)
    requires s.index == s.graph && Repeatable(s, D.DeletionJob(s, d, {})) && s.OwnedChunks(d) != {} && first.upTo < STAGES
    ensures D.KgDeleted(D.KgAfter(s, d, first.lost, first.upTo), d, next)
         == D.KgDeleted(s, d, if first.upTo >= DELETION_REBUILD then first.lost * next else next)
  {
    var job, k := D.DeletionJob(s, d, {}), D.PurgeStagesAt(first.upTo);
    var both := if first.upTo >= DELETION_REBUILD then first.lost * next else next;
    var b := D.KgAfter(s, d, first.lost, first.upTo);
    var a := After(s, job.(lost := first.lost), k);
    D.KgRows(s, d, first.lost, first.upTo);
    D.StoppedDeletion(s, d, first.lost, first.upTo);
    D.DeletionIsPurge(s, d, both);
    D.DeletionIsPurge(b, d, next);
    assert D.DeletionJob(b, d, next) == job.(lost := next);
    D.PurgeIgnoresText(a, b.text, job.(lost := next));
    OneMoreAttempt(s, job, Try(first.lost, k), next);
    StagesDirect(s, MakePlan(s, job.(lost := both)), job.(lost := both), STAGES);
  }

  lemma StaysDeletable(s: Store, d: DocId, lost: set<Candidate>, k: nat)
    requires s.index == s.graph && Repeatable(s, D.DeletionJob(s, d, {})) && s.OwnedChunks(d) != {} && k < STAGES
    ensures var b := D.KgAfter(s, d, lost, k);
            b.index == b.graph && Repeatable(b, D.DeletionJob(b, d, {})) && b.OwnedChunks(d) == s.OwnedChunks(d)
  {
    var job, b := D.DeletionJob(s, d, {}), D.KgAfter(s, d, lost, k);
    var a := After(s, job.(lost := lost), D.PurgeStagesAt(k));
    D.KgRows(s, d, lost, k);
    D.StoppedDeletion(s, d, lost, k);
    BoundaryStore(s, job.(lost := lost), D.PurgeStagesAt(k));
    StaysRepeatableAnyway(s, job, lost, D.PurgeStagesAt(k));
    D.PlanIgnoresText(a, b.text, job);
    assert D.DeletionJob(b, d, {}) == job;
    assert Gone(b, MakePlan(b, job)) == Gone(a, MakePlan(a, job));
  }

  /** And so does a deletion. */
  lemma {:induction false} DeletionsLoseInCommon(s: Store, d: DocId, tries: seq<Try>, last: set<Candidate>)
    requires s.index == s.graph && Repeatable(s, D.DeletionJob(s, d, {})) && s.OwnedChunks(d) != {} && Failing(tries)
    ensures D.KgDeleted(DeletionTried(s, d, tries), d, last) == D.KgDeleted(s, d, LostThroughout(tries, last, DELETION_REBUILD))
    decreases |tries|
  {
    if tries != [] {
      var t := tries[0];
      assert t in tries && forall x | x in tries[1..] :: x in tries;
      StaysDeletable(s, d, t.lost, t.upTo);
      DeletionsLoseInCommon(D.KgAfter(s, d, t.lost, t.upTo), d, tries[1..], last);
      OneMoreDeletion(s, d, t, LostThroughout(tries[1..], last, DELETION_REBUILD));
    }
  }
}
