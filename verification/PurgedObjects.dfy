/**
 * What a whole purge makes of one object, on any stores: in step or not, with tracking or without, whatever
 * the candidates, the policy and the losses are.
 */
module PurgedObjects {
  import opened Basics
  import opened Sources
  import opened Stores
  import opened Purge

  /** Every end that the edge had in the graph is still there. */
  ghost predicate EndsStay(s: Store, t: Store, c: Candidate) {
    c.Relation? ==> forall n | n in c.ends && Entity(n) in s.graph :: Entity(n) in t.graph
  }

  /** An object goes when the plan deletes it, or with one of its ends. */
  lemma StaysInGraph(s: Store, job: Job, c: Candidate)
    requires c in s.graph && job.ids != {}
    ensures var t := Purged(s, job); c in t.graph <==> c !in MakePlan(s, job).delete && EndsStay(s, t, c)
  {
    var p, t := MakePlan(s, job), Purged(s, job);
    ObjectWhenDone(s, p, job, c);
    if c.Relation? {
      forall n | n in c.ends && Entity(n) in s.graph
        ensures Entity(n) in t.graph <==> Entity(n) !in p.delete
      {
        ObjectWhenDone(s, p, job, Entity(n));
      }
      if c in Incident(s, p.delete) {
        var n :| n in c.ends && Entity(n) in p.delete;
        assert Entity(n) !in t.graph;
      }
    }
  }

  /**
   * An object without a tracking row is judged by the list that the graph holds: it goes if that list holds only
   * purged ids, or with an end; otherwise the list without them becomes its tracking row, and its limit the
   * graph's list, unless best-effort rebuild lost it. A list without purged ids is left alone by best effort.
   */
  lemma UntrackedObject(s: Store, job: Job, c: Candidate)
    requires c in s.graph && s.Tracked(c) == [] && c in Candidates(s, job) && job.ids != {}
    ensures var t, rest := Purged(s, job), Subtract(s.graph[c], job.ids);
            && (c in t.graph <==> !(Elems(s.graph[c]) <= job.ids) && EndsStay(s, t, c))
            && (c in t.graph ==>
                  var changed := job.policy.RollbackPolicy? || !(Elems(s.graph[c]) !! job.ids);
                  && t.Tracked(c) == (if changed then rest else [])
                  && t.graph[c] == if changed && (job.policy.RollbackPolicy? || c !in job.lost) then s.Limit(rest) else s.graph[c])
  {
    StaysInGraph(s, job, c);
    ObjectWhenDone(s, MakePlan(s, job), job, c);
    EmptiedIff(s.graph[c], job.ids);
    SubtractUnchanged(s.graph[c], job.ids);
  }

  /** An object with a tracking row is judged by that row, and rebuilt from it even if only the graph's list holds a purged id. */
  lemma TrackedObject(s: Store, job: Job, c: Candidate)
    requires c in s.graph && s.Tracked(c) != [] && c in Candidates(s, job) && job.ids != {}
    ensures var t, rest := Purged(s, job), Subtract(s.tracking[c], job.ids);
            && (c in t.graph <==> !(Elems(s.tracking[c]) <= job.ids) && EndsStay(s, t, c))
            && (c in t.graph ==>
                  var changed := job.policy.RollbackPolicy? || !(Elems(s.tracking[c]) !! job.ids) || !(Elems(s.graph[c]) !! job.ids);
                  && t.Tracked(c) == rest
                  && t.graph[c] == if changed && (job.policy.RollbackPolicy? || c !in job.lost) then s.Limit(rest) else s.graph[c])
  {
    StaysInGraph(s, job, c);
    ObjectWhenDone(s, MakePlan(s, job), job, c);
    EmptiedIff(s.tracking[c], job.ids);
    SubtractUnchanged(s.tracking[c], job.ids);
  }

  /** An object that is no candidate goes only with an end, and is not touched otherwise. */
  lemma UnnamedObject(s: Store, job: Job, c: Candidate)
    requires c in s.graph && c !in Candidates(s, job) && job.ids != {}
    ensures var t := Purged(s, job);
            && (c in t.graph <==> EndsStay(s, t, c))
            && (c in t.graph ==> t.Tracked(c) == s.Tracked(c) && t.graph[c] == s.graph[c])
  {
    StaysInGraph(s, job, c);
    ObjectWhenDone(s, MakePlan(s, job), job, c);
  }

  /** The vectors follow the graph, and what is gone from the graph is gone from tracking too. */
  lemma StoresTogether(s: Store, job: Job, c: Candidate)
    requires c in s.graph && c in s.index && s.index[c] == s.graph[c] && job.ids != {}
    ensures var t := Purged(s, job);
            if c in t.graph then c in t.index && t.index[c] == t.graph[c] else c !in t.index && c !in t.tracking
  {
    ObjectWhenDone(s, MakePlan(s, job), job, c);
  }

  lemma EmptiedIff(list: seq<ChunkId>, gone: set<ChunkId>)
    ensures Subtract(list, gone) == [] <==> Elems(list) <= gone
  {
    SubtractElems(list, gone);
    if Subtract(list, gone) != [] {
      assert Subtract(list, gone)[0] in Elems(Subtract(list, gone));
    }
  }
}
