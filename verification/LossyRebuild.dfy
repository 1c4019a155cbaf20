/**
 * A store on which best-effort rebuild gives up: the object keeps a reference to a deleted chunk, and after
 * a later merge a purge of other chunks can no longer be stopped and repeated without a difference.
 */
module LossyRebuild {
  import opened Basics
  import opened Sources
  import opened Stores
  import opened Purge
  import opened Merging

  const X := ChunkId("gone", "x")
  const A := ChunkId("one", "a")
  const B := ChunkId("two", "b")
  const C := ChunkId("three", "c")
  const NODE := Entity("n")

  /** One node under a limit of two sources, under KEEP. */
  function NodeStore(tracked: seq<ChunkId>, listed: seq<ChunkId>, text: set<ChunkId>): Store {
    Store(map[], {}, text, map[], map[NODE := tracked], map[NODE := listed], map[NODE := listed], 2, false)
  }

  function NodeJob(ch: ChunkId, lost: set<Candidate>): Job {
    Job(ch.doc, {ch}, Some({NODE}), false, BestEffort, lost)
  }

  const FULL := NodeStore([X, A, B], [X, A], {X, A, B, C})
  const STALE := NodeStore([A, B], [X, A], {A, B, C})
  const GROWN := NodeStore([A, B, C], [X, A], {A, B, C})

  lemma ThreeWithout(x: ChunkId, y: ChunkId, z: ChunkId, gone: set<ChunkId>)
    ensures Subtract([x, y, z], gone)
         == (if x in gone then [] else [x]) + (if y in gone then [] else [y]) + (if z in gone then [] else [z])
  {
    SubtractConcat([x], [y, z], gone);
    SubtractConcat([y], [z], gone);
    assert [x] + [y, z] == [x, y, z] && [y] + [z] == [y, z];
    OneWithout(x, gone);
    OneWithout(y, gone);
    OneWithout(z, gone);
  }

  lemma OneWithout(x: ChunkId, gone: set<ChunkId>)
    ensures Subtract([x], gone) == if x in gone then [] else [x]
  {
    assert [x][1..] == [];
  }

  /** How the purge of one chunk sees the node. */
  lemma NodePlan(s: Store, ch: ChunkId, lost: set<Candidate>)
    requires s.graph.Keys == {NODE} && s.Tracked(NODE) != [] && Subtract(s.Tracked(NODE), {ch}) != []
    ensures var p := MakePlan(s, NodeJob(ch, lost));
            && p.delete == {} && Gone(s, p) == {} && p.rebuild.Keys <= {NODE}
            && (NODE in p.rebuild <==> ch in s.Tracked(NODE) || ch in s.graph[NODE])
            && (NODE in p.rebuild ==> p.rebuild[NODE] == Subtract(s.Tracked(NODE), {ch}))
  {
    SubtractUnchanged(s.Tracked(NODE), {ch});
    assert ch in Elems(s.Tracked(NODE)) <==> ch in s.Tracked(NODE);
    assert ch in Elems(s.graph[NODE]) <==> ch in s.graph[NODE];
  }

  lemma PurgedNode(s: Store, ch: ChunkId, lost: set<Candidate>)
    requires s.graph.Keys == {NODE} && s.tracking.Keys == {NODE} && s.index == s.graph && s.anchors == map[]
    requires s.Tracked(NODE) != [] && Subtract(s.Tracked(NODE), {ch}) != [] && ch in s.Tracked(NODE)
    ensures var rest := Subtract(s.Tracked(NODE), {ch});
            var listed := if NODE in lost then s.graph[NODE] else s.Limit(rest);
            Purged(s, NodeJob(ch, lost))
              == s.(tracking := map[NODE := rest], graph := map[NODE := listed], index := map[NODE := listed], text := s.text - {ch})
  {
    NodePlan(s, ch, lost);
    StagesDirect(s, MakePlan(s, NodeJob(ch, lost)), NodeJob(ch, lost), STAGES);
    assert s.anchors - {ch.doc} == s.anchors;
  }

  lemma FullIsSynced()
    ensures FULL.Synced() && SourcesStored(FULL)
    ensures Complete(FULL, {X}, Candidates(FULL, NodeJob(X, {NODE})))
  {
    assert FULL.Limit([X, A, B]) == [X, A, B][..2] == [X, A];
    forall ch | ch in Elems([X, A, B])
      ensures ch in FULL.text
    {
    }
  }

  /** The purge loses the node's rebuild, and a boundary refers to the deleted chunk. */
  lemma LossLeavesReference()
    ensures FULL.Synced() && LeavesStale(FULL, NodeJob(X, {NODE}))
    ensures Purged(FULL, NodeJob(X, {NODE})) == STALE && !STALE.NoDangling()
  {
    FullIsSynced();
    ThreeWithout(X, A, B, {X});
    assert [A] + [B] == [A, B];
    assert [] + [A] + [B] == [A, B];
    PurgedNode(FULL, X, {NODE});
    assert FULL.text - {X} == {A, B, C};
    assert X in [X, A] && X in Elems(FULL.graph[NODE]);
    assert Subtract(FULL.Tracked(NODE), {X}) == [A, B];
    assert Outlives(FULL, {X}, NODE);
    assert X in STALE.graph[NODE] && X !in STALE.text;
  }

  /** The node's tracking is full, so a further chunk goes into tracking only. */
  lemma StaleGrows()
    ensures Merged(STALE, MergeNode("n"), [C]) == GROWN
  {
    assert [A, B] == [A] + [B];
    AppendNewOfDistinct([], [A, B]);
    AppendNewOfDistinct([A, B], [C]);
    assert [] + [A, B] == [A, B] && [A, B] + [C] == [A, B, C];
    assert MergeIds([A, B], [C]) == [A, B, C];
    assert Elems([C]) == {C} && C !in Elems([A, B]);
    assert Saturated(STALE, NODE, [C]);
    assert STALE.tracking[NODE := [A, B, C]] == GROWN.tracking;
  }

  /**
   * From there the purge of another document's chunk is not repeatable: uninterrupted it lists two of the
   * node's sources, stopped behind its first stage and run again it keeps the stale list.
   */
  lemma StaleListsAreNotRepeatable()
    ensures GROWN.index == GROWN.graph && !Repeatable(GROWN, NodeJob(B, {}))
    ensures Purged(GROWN, NodeJob(B, {})).graph == map[NODE := [A, C]]
    ensures var again := Purged(Attempts(GROWN, NodeJob(B, {}), [1]), NodeJob(B, {})); NODE in again.graph && again.graph[NODE] == [X, A]
  {
    ThreeWithout(A, B, C, {B});
    assert [A] + [] + [C] == [A, C];
    assert B in GROWN.Tracked(NODE) && B !in GROWN.graph[NODE];
    NodePlan(GROWN, B, {});
    PurgedNode(GROWN, B, {});
    assert GROWN.Limit([A, C]) == [A, C];
    assert Elems(GROWN.graph[NODE]) !! {B};
    assert [A, C][0] != [X, A][0];
    var p := MakePlan(GROWN, NodeJob(B, {}));
    assert NODE in p.rebuild && GROWN.graph[NODE] != GROWN.Limit(p.rebuild[NODE]);
    UnrepeatableDiffers(GROWN, NodeJob(B, {}), NODE);
    var stops: seq<nat> := [1];
    assert stops[1..] == [];
    assert Attempts(GROWN, NodeJob(B, {}), stops) == After(GROWN, NodeJob(B, {}), 1);
  }
}
