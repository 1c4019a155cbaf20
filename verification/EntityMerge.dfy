/**
 * Merging entities: the graph is divided by "is one of the sources or the target", and two vector
 * indexes and two tracking stores move along. Sources are deleted last, so a failed merge can be repeated.
 */
module EntityMerge {
  import opened Sources

  /** A name, standing for its rank: names are only compared, to normalize the ends of an edge. */
  type Name = int
  type Chunk = int

  datatype Pair = Pair(lo: Name, hi: Name)

  /** The merged fields of an edge: the ids in `source_id`, and the weight. */
  datatype Edge = Edge(sources: seq<Chunk>, weight: real)

  /**
   * nodes, edges: the graph; entVdb, relVdb: the vector indexes, relations under an ordered pair of ends;
   * entTrack, relTrack: the chunk-tracking stores.
   */
  datatype Stores = Stores(
    nodes: map<Name, seq<Chunk>>,
    edges: map<Pair, Edge>,
    entVdb: map<Name, seq<Chunk>>,
    relVdb: map<(Name, Name), Edge>,
    entTrack: map<Name, seq<Chunk>>,
    relTrack: map<Pair, seq<Chunk>>)

  function Norm(a: Name, b: Name): Pair {
    if a <= b then Pair(a, b) else Pair(b, a)
  }

  predicate Touches(p: Pair, xs: set<Name>) {
    p.lo in xs || p.hi in xs
  }

  /** Edges join two different existing nodes, and are stored under their normalized pair. */
  ghost predicate Simple(s: Stores) {
    forall p | p in s.edges :: p.lo < p.hi && p.lo in s.nodes && p.hi in s.nodes
  }

  function Image(x: Name, gone: set<Name>, t: Name): Name {
    if x in gone then t else x
  }

  /** A directed view of an edge, as the loop over a node's edges sees it. */
  type Rel = (Name, Name)

  predicate Dropped(r: Rel, gone: set<Name>, t: Name) {
    Image(r.0, gone, t) == Image(r.1, gone, t)
  }

  function NewKey(r: Rel, gone: set<Name>, t: Name): Pair {
    Norm(Image(r.0, gone, t), Image(r.1, gone, t))
  }

  /** `_merge_attributes` on two edges: the union of the sources and the larger weight. */
  function Join(a: Edge, b: Edge): Edge {
    Edge(MergeIds(a.sources, b.sources), if a.weight >= b.weight then a.weight else b.weight)
  }

  predicate Listed(s: Stores, rels: seq<Rel>) {
    forall r | r in rels :: Norm(r.0, r.1) in s.edges
  }

  /** The relation updates after the listed edges, in order. */
  function Updates(s: Stores, gone: set<Name>, t: Name, rels: seq<Rel>): map<Pair, Edge>
    requires Listed(s, rels)
  {
    if rels == [] then map[]
    else
      var r := rels[|rels| - 1];
      var before := Updates(s, gone, t, rels[..|rels| - 1]);
      var k, e := NewKey(r, gone, t), s.edges[Norm(r.0, r.1)];
      if Dropped(r, gone, t) then before
      else before[k := if k in before then Join(before[k], e) else e]
  }

  /** The tracked chunks of an edge: its stored row, or else the graph's own list. */
  function TrackedOf(s: Stores, r: Rel): seq<Chunk>
    requires Norm(r.0, r.1) in s.edges
  {
    var p := Norm(r.0, r.1);
    if p in s.relTrack then s.relTrack[p] else s.edges[p].sources
  }

  function Tracks(s: Stores, gone: set<Name>, t: Name, rels: seq<Rel>): map<Pair, seq<Chunk>>
    requires Listed(s, rels)
  {
    if rels == [] then map[]
    else
      var r := rels[|rels| - 1];
      var before := Tracks(s, gone, t, rels[..|rels| - 1]);
      var k := NewKey(r, gone, t);
      if Dropped(r, gone, t) then before
      else before[k := AppendNew(if k in before then before[k] else [], TrackedOf(s, r))]
  }

  /** The lists of the named nodes one after the other, each id once. */
  function UnionOver(lists: map<Name, seq<Chunk>>, names: seq<Name>): seq<Chunk> {
    if names == [] then []
    else
      var before := UnionOver(lists, names[..|names| - 1]);
      var n := names[|names| - 1];
      if n in lists then AppendNew(before, lists[n]) else before
  }

  /** Sources first, the target last, if it was a node when the merge began. */
  function TrackOrder(sources: seq<Name>, t: Name, known: bool): seq<Name> {
    Subtract(sources, {t}) + if known then [t] else []
  }

  function NodeOrder(sources: seq<Name>, t: Name): seq<Name> {
    sources + [t]
  }

  function OldKeys(rels: seq<Rel>): set<Pair> {
    set r | r in rels :: Norm(r.0, r.1)
  }

  function StaleRecords(rels: seq<Rel>): set<(Name, Name)> {
    (set r | r in rels :: (r.0, r.1)) + (set r | r in rels :: (r.1, r.0))
  }

  function Records(updates: map<Pair, Edge>): map<(Name, Name), Edge> {
    map p | p in updates :: (p.lo, p.hi) := updates[p]
  }

  function Only(updates: map<Pair, Edge>, ps: set<Pair>): map<Pair, Edge> {
    map p | p in updates && p in ps :: updates[p]
  }

  /**
   * Stages: target node, edges, old tracking rows deleted, new ones written, stale relation records
   * deleted, new ones written, target's entity record, entity tracking, source deletion.
   */
  const NODE := 1
  const EDGES := 2
  const UNTRACK := 3
  const TRACK := 4
  const REL_DELETE := 5
  const REL_UPSERT := 6
  const ENT_UPSERT := 7
  const ENT_TRACK := 8
  const DELETE := 9

  function EntTracking(rows: map<Name, seq<Chunk>>, sources: seq<Name>, t: Name, known: bool): map<Name, seq<Chunk>> {
    var union := UnionOver(rows, TrackOrder(sources, t, known));
    var rest := rows - (Elems(sources) - {t});
    if union == [] then rest else rest[t := union]
  }

  /**
   * The stores when a merge stops behind its first `k` stages; `part` tells which relation records a
   * failing stage 6 had already written.
   */
  function MergedUpTo(s: Stores, sources: seq<Name>, t: Name, rels: seq<Rel>, k: nat, part: set<Pair>): Stores
    requires Listed(s, rels)
  {
    var gone := Elems(sources);
    var updates := Updates(s, gone, t, rels);
    var list := UnionOver(s.nodes, NodeOrder(sources, t));
    var edges := if k >= EDGES then s.edges + updates else s.edges;
    var nodes := if k >= NODE then s.nodes[t := list] else s.nodes;
    var records := s.relVdb - StaleRecords(rels);
    var entries := if k >= ENT_UPSERT then s.entVdb[t := list] else s.entVdb;
    Stores(
      if k >= DELETE then nodes - (gone - {t}) else nodes,
      if k >= DELETE then map p | p in edges && !Touches(p, gone - {t}) :: edges[p] else edges,
      if k >= DELETE then entries - (gone - {t}) else entries,
      if k < REL_DELETE then s.relVdb
      else if k == REL_DELETE then records + Records(Only(updates, part))
      else records + Records(updates),
      if k >= ENT_TRACK then EntTracking(s.entTrack, sources, t, t in s.nodes) else s.entTrack,
      if k >= TRACK then s.relTrack - OldKeys(rels) + Tracks(s, gone, t, rels)
      else if k >= UNTRACK then s.relTrack - OldKeys(rels)
      else s.relTrack)
  }

  function Merged(s: Stores, sources: seq<Name>, t: Name, rels: seq<Rel>): Stores
    requires Listed(s, rels)
  {
    MergedUpTo(s, sources, t, rels, DELETE, {})
  }

  /** The class of the target: everything that the merge makes one node. */
  function Class(sources: seq<Name>, t: Name): set<Name> {
    Elems(sources) + {t}
  }

  /** The list holds every edge of the class, seen from each of its members. */
  ghost predicate Incident(s: Stores, sources: seq<Name>, t: Name, rels: seq<Rel>) {
    && Listed(s, rels)
    && (forall r | r in rels :: r.0 in Class(sources, t))
    && forall a, b | a in Class(sources, t) && Norm(a, b) in s.edges :: (a, b) in rels
  }

  // ---------------------------------------------------------------- what the updates amount to

  /** The members of the class that are adjacent to `x`. */
  function Adjacent(s: Stores, cls: set<Name>, x: Name): set<Name> {
    set y | y in cls && Norm(y, x) in s.edges
  }

  /** The merged edge: it records what the collapsed edges record, and weighs what the heaviest weighs. */
  ghost predicate Collapses(s: Stores, ys: set<Name>, x: Name, e: Edge)
    requires forall y | y in ys :: Norm(y, x) in s.edges
  {
    && (forall y | y in ys :: Elems(s.edges[Norm(y, x)].sources) <= Elems(e.sources) && s.edges[Norm(y, x)].weight <= e.weight)
    && (forall c | c in e.sources :: exists y :: y in ys && c in s.edges[Norm(y, x)].sources)
    && (exists y :: y in ys && s.edges[Norm(y, x)].weight == e.weight)
  }

  /** The class members seen so far with an edge to `x`. */
  function SeenFrom(rels: seq<Rel>, x: Name): set<Name> {
    set r | r in rels && r.1 == x :: r.0
  }

  /** The end of the pair that is not the target, when the pair leads from the target out of the class. */
  function Other(p: Pair, t: Name): Name {
    if p.lo == t then p.hi else p.lo
  }

  predicate Outward(p: Pair, cls: set<Name>, t: Name) {
    p == Norm(t, Other(p, t)) && Other(p, t) !in cls
  }

  lemma SeenGrows(init: seq<Rel>, r: Rel, x: Name)
    ensures SeenFrom(init + [r], x) == SeenFrom(init, x) + (if r.1 == x then {r.0} else {})
  {
    forall y | y in SeenFrom(init, x) + (if r.1 == x then {r.0} else {})
      ensures y in SeenFrom(init + [r], x)
    {
      assert (y, x) in init || (y, x) == r;
      assert (y, x) in init + [r];
    }
  }

  lemma KeyOfRel(sources: seq<Name>, t: Name, r: Rel)
    requires r.0 in Class(sources, t)
    ensures Dropped(r, Elems(sources), t) <==> r.1 in Class(sources, t)
    ensures r.1 !in Class(sources, t) ==> NewKey(r, Elems(sources), t) == Norm(t, r.1)
  {
  }

  /** One key of the relation updates: there exactly for a pair from the target to a neighbour of the class. */
  lemma {:induction false} UpdateAt(s: Stores, sources: seq<Name>, t: Name, rels: seq<Rel>, p: Pair)
    requires Listed(s, rels) && forall r | r in rels :: r.0 in Class(sources, t)
    ensures var u, x := Updates(s, Elems(sources), t, rels), Other(p, t);
            && (p in u <==> Outward(p, Class(sources, t), t) && SeenFrom(rels, x) != {})
            && (p in u ==> (forall y | y in SeenFrom(rels, x) :: Norm(y, x) in s.edges) && Collapses(s, SeenFrom(rels, x), x, u[p]))
  {
    if rels != [] {
      var init, r := rels[..|rels| - 1], rels[|rels| - 1];
      var x, before := Other(p, t), Updates(s, Elems(sources), t, init);
      assert rels == init + [r] && r in rels;
      UpdateAt(s, sources, t, init, p);
      SeenGrows(init, r, x);
      KeyOfRel(sources, t, r);
      if r.1 !in Class(sources, t) && p == Norm(t, r.1) {
        assert x == r.1;
        if p in before {
          CollapseMore(s, SeenFrom(init, x), r, before[p]);
        } else {
          assert SeenFrom(init, x) == {};
          CollapseOne(s, r);
        }
      } else if Outward(p, Class(sources, t), t) {
        assert x != r.1;
      }
    }
  }

  lemma CollapseOne(s: Stores, r: Rel)
    requires Norm(r.0, r.1) in s.edges
    ensures Collapses(s, {r.0}, r.1, s.edges[Norm(r.0, r.1)])
  {
    assert r.0 in {r.0};
  }

  lemma CollapseMore(s: Stores, ys: set<Name>, r: Rel, e: Edge)
    requires (forall y | y in ys :: Norm(y, r.1) in s.edges) && Norm(r.0, r.1) in s.edges
    requires Collapses(s, ys, r.1, e)
    ensures Collapses(s, ys + {r.0}, r.1, Join(e, s.edges[Norm(r.0, r.1)]))
  {
    var f := s.edges[Norm(r.0, r.1)];
    var j := Join(e, f);
    MergeIdsElems(e.sources, f.sources);
    forall c | c in j.sources
      ensures exists y :: y in ys + {r.0} && c in s.edges[Norm(y, r.1)].sources
    {
      assert c in Elems(j.sources);
      if c in Elems(e.sources) {
        assert c in e.sources;
        var y :| y in ys && c in s.edges[Norm(y, r.1)].sources;
        assert y in ys + {r.0};
      } else {
        assert r.0 in ys + {r.0} && c in f.sources;
      }
    }
    if e.weight >= f.weight {
      var y :| y in ys && s.edges[Norm(y, r.1)].weight == e.weight;
      assert y in ys + {r.0} && s.edges[Norm(y, r.1)].weight == j.weight;
    } else {
      assert r.0 in ys + {r.0} && f.weight == j.weight;
    }
  }

  lemma SeenIsAdjacent(s: Stores, sources: seq<Name>, t: Name, rels: seq<Rel>, x: Name)
    requires Incident(s, sources, t, rels)
    ensures SeenFrom(rels, x) == Adjacent(s, Class(sources, t), x)
  {
    forall y | y in Adjacent(s, Class(sources, t), x)
      ensures y in SeenFrom(rels, x)
    {
      assert (y, x) in rels;
    }
  }

  // ---------------------------------------------------------------- the quotient

  lemma MergedEdgeAt(s: Stores, sources: seq<Name>, t: Name, rels: seq<Rel>, p: Pair)
    requires Listed(s, rels)
    ensures var m, u := Merged(s, sources, t, rels), Updates(s, Elems(sources), t, rels);
            && (p in m.edges <==> (p in s.edges || p in u) && !Touches(p, Elems(sources) - {t}))
            && (p in m.edges ==> m.edges[p] == if p in u then u[p] else s.edges[p])
  {
  }

  /** An edge of the class that outlives the sources leads from the target to an outsider. */
  lemma SurvivorIsOutward(s: Stores, sources: seq<Name>, t: Name, p: Pair)
    requires Simple(s) && p in s.edges
    requires Touches(p, Class(sources, t)) && !Touches(p, Elems(sources) - {t})
    ensures Outward(p, Class(sources, t), t) && t in Adjacent(s, Class(sources, t), Other(p, t))
  {
  }

  lemma UpdatesSpareSources(s: Stores, sources: seq<Name>, t: Name, rels: seq<Rel>, p: Pair)
    requires Simple(s) && Incident(s, sources, t, rels) && p in Updates(s, Elems(sources), t, rels)
    ensures !Touches(p, Elems(sources) - {t}) && p.lo < p.hi
  {
    UpdateAt(s, sources, t, rels, p);
  }

  /** The edges of the class after the merge are the rewritten ones. */
  lemma UpdatedEdge(s: Stores, sources: seq<Name>, t: Name, rels: seq<Rel>, p: Pair)
    requires Simple(s) && Incident(s, sources, t, rels) && Touches(p, Class(sources, t))
    ensures var m, u := Merged(s, sources, t, rels), Updates(s, Elems(sources), t, rels);
            && (p in m.edges <==> p in u)
            && (p in u ==> m.edges[p] == u[p] && p.lo < p.hi)
  {
    MergedEdgeAt(s, sources, t, rels, p);
    if p in Updates(s, Elems(sources), t, rels) {
      UpdatesSpareSources(s, sources, t, rels, p);
    } else if p in s.edges && !Touches(p, Elems(sources) - {t}) {
      SurvivorIsOutward(s, sources, t, p);
      SeenIsAdjacent(s, sources, t, rels, Other(p, t));
      UpdateAt(s, sources, t, rels, p);
    }
  }

  /**
   * `m` is the quotient of `s` at one pair: an edge between the target and an outsider is there exactly
   * when some member of the class was adjacent to the outsider, with the union of the sources and the
   * maximum of the weights; an edge outside the class is untouched, and no other is left.
   */
  ghost predicate QuotientAt(s: Stores, m: Stores, cls: set<Name>, t: Name, p: Pair) {
    var x := Other(p, t);
    if !Touches(p, cls) then (p in m.edges <==> p in s.edges) && (p in m.edges ==> m.edges[p] == s.edges[p])
    else
      && (p in m.edges <==> Outward(p, cls, t) && Adjacent(s, cls, x) != {})
      && (p in m.edges ==> Collapses(s, Adjacent(s, cls, x), x, m.edges[p]))
  }

  /** The merged graph is the quotient of the graph. */
  lemma MergeIsQuotient(s: Stores, sources: seq<Name>, t: Name, rels: seq<Rel>, p: Pair)
    requires Simple(s) && Incident(s, sources, t, rels)
    ensures QuotientAt(s, Merged(s, sources, t, rels), Class(sources, t), t, p)
  {
    UpdateAt(s, sources, t, rels, p);
    SeenIsAdjacent(s, sources, t, rels, Other(p, t));
    if Touches(p, Class(sources, t)) {
      UpdatedEdge(s, sources, t, rels, p);
    } else {
      MergedEdgeAt(s, sources, t, rels, p);
    }
  }

  lemma NodesAfter(s: Stores, sources: seq<Name>, t: Name, rels: seq<Rel>)
    requires Listed(s, rels)
    ensures Merged(s, sources, t, rels).nodes.Keys == s.nodes.Keys - Class(sources, t) + {t}
    ensures forall n | n in s.nodes && n !in Class(sources, t) :: Merged(s, sources, t, rels).nodes[n] == s.nodes[n]
  {
  }

  /** The merged graph has the outsiders and the target as nodes, and stays simple. */
  lemma {:induction false} MergeKeepsSimple(s: Stores, sources: seq<Name>, t: Name, rels: seq<Rel>)
    requires Simple(s) && Incident(s, sources, t, rels)
    ensures Simple(Merged(s, sources, t, rels))
    ensures Merged(s, sources, t, rels).nodes.Keys == s.nodes.Keys - Class(sources, t) + {t}
  {
    var m, cls := Merged(s, sources, t, rels), Class(sources, t);
    NodesAfter(s, sources, t, rels);
    forall p | p in m.edges
      ensures p.lo < p.hi && p.lo in m.nodes && p.hi in m.nodes
    {
      MergeIsQuotient(s, sources, t, rels, p);
      if Touches(p, cls) {
        UpdatedEdge(s, sources, t, rels, p);
        var y :| y in Adjacent(s, cls, Other(p, t));
        assert Norm(y, Other(p, t)) in s.edges;
      }
    }
  }

  lemma {:induction false} UnionOverElems(lists: map<Name, seq<Chunk>>, names: seq<Name>)
    ensures forall c :: c in UnionOver(lists, names) <==> exists n :: n in names && n in lists && c in lists[n]
    ensures Distinct(UnionOver(lists, names))
  {
    if names != [] {
      var init, n := names[..|names| - 1], names[|names| - 1];
      assert names == init + [n];
      UnionOverElems(lists, init);
      var before := UnionOver(lists, init);
      if n in lists {
        AppendNewElems(before, lists[n]);
        AppendNewDistinct(before, lists[n]);
        forall c
          ensures c in AppendNew(before, lists[n]) <==> c in before || c in lists[n]
        {
          assert c in AppendNew(before, lists[n]) <==> c in Elems(AppendNew(before, lists[n]));
        }
      }
    }
  }

  /** The list of the target holds what the members of the class hold. */
  ghost predicate RecordsClass(s: Stores, cls: set<Name>, list: seq<Chunk>) {
    forall c :: c in list <==> exists n :: n in cls && n in s.nodes && c in s.nodes[n]
  }

  /** The target node, and its vector record, record exactly what the members of its class recorded. */
  lemma TargetRecordsClass(s: Stores, sources: seq<Name>, t: Name, rels: seq<Rel>)
    requires Listed(s, rels)
    ensures var m := Merged(s, sources, t, rels);
            t in m.nodes && t in m.entVdb && m.entVdb[t] == m.nodes[t] && RecordsClass(s, Class(sources, t), m.nodes[t])
  {
    var order := NodeOrder(sources, t);
    UnionOverElems(s.nodes, order);
    assert forall n :: n in order <==> n in Class(sources, t);
  }

  // ---------------------------------------------------------------- the vector indexes

  /**
   * Away from the given nodes every edge has exactly one record, under one order of its ends, and every
   * node has one; near them, records may lag behind but still belong to edges and nodes.
   */
  ghost predicate RecordsAwayFrom(s: Stores, near: set<Name>) {
    && (forall k | k in s.relVdb :: Norm(k.0, k.1) in s.edges)
    && (forall k | k in s.relVdb && !Touches(Norm(k.0, k.1), near) ::
          s.relVdb[k] == s.edges[Norm(k.0, k.1)] && (k.1, k.0) !in s.relVdb)
    && (forall p | p in s.edges && !Touches(p, near) :: (p.lo, p.hi) in s.relVdb || (p.hi, p.lo) in s.relVdb)
    && (forall n | n !in near :: n in s.entVdb <==> n in s.nodes)
    && (forall n | n in s.entVdb && n in s.nodes && n !in near :: s.entVdb[n] == s.nodes[n])
  }

  /** Both vector indexes hold exactly one record per node and edge, saying what the graph says. */
  ghost predicate IndexesAgree(s: Stores) {
    && RecordsAwayFrom(s, {})
    && s.entVdb == s.nodes
  }

  lemma StaleOfClass(s: Stores, sources: seq<Name>, t: Name, rels: seq<Rel>, k: (Name, Name))
    requires Incident(s, sources, t, rels)
    ensures k in StaleRecords(rels) ==> Touches(Norm(k.0, k.1), Class(sources, t))
    ensures Norm(k.0, k.1) in s.edges && Touches(Norm(k.0, k.1), Class(sources, t)) ==> k in StaleRecords(rels)
  {
    var cls := Class(sources, t);
    if k in StaleRecords(rels) {
      var r :| r in rels && (k == (r.0, r.1) || k == (r.1, r.0));
    }
    if Norm(k.0, k.1) in s.edges && Touches(Norm(k.0, k.1), cls) {
      assert k.0 in cls ==> (k.0, k.1) in rels;
      assert Norm(k.1, k.0) == Norm(k.0, k.1);
      assert k.1 in cls ==> (k.1, k.0) in rels;
    }
  }

  lemma RelVdbAfter(s: Stores, sources: seq<Name>, t: Name, rels: seq<Rel>, k: (Name, Name))
    requires Listed(s, rels)
    ensures var m, u := Merged(s, sources, t, rels), Updates(s, Elems(sources), t, rels);
            var isNew := k in Records(u);
            && (k in m.relVdb <==> isNew || (k in s.relVdb && k !in StaleRecords(rels)))
            && (k in m.relVdb ==> m.relVdb[k] == if isNew then Records(u)[k] else s.relVdb[k])
  {
  }

  lemma RecordsAt(u: map<Pair, Edge>, k: (Name, Name))
    ensures k in Records(u) <==> Pair(k.0, k.1) in u
    ensures k in Records(u) ==> Records(u)[k] == u[Pair(k.0, k.1)]
  {
  }

  lemma RecordAway(s: Stores, sources: seq<Name>, t: Name, rels: seq<Rel>, k: (Name, Name))
    requires Simple(s) && Incident(s, sources, t, rels) && !Touches(Norm(k.0, k.1), Class(sources, t))
    ensures var m := Merged(s, sources, t, rels);
            (k in m.relVdb <==> k in s.relVdb) && (k in m.relVdb ==> m.relVdb[k] == s.relVdb[k])
  {
    RelVdbAfter(s, sources, t, rels, k);
    RecordsAt(Updates(s, Elems(sources), t, rels), k);
    StaleOfClass(s, sources, t, rels, k);
    UpdateAt(s, sources, t, rels, Pair(k.0, k.1));
  }

  lemma NearRecordIsUpdate(s: Stores, sources: seq<Name>, t: Name, rels: seq<Rel>, k: (Name, Name))
    requires Incident(s, sources, t, rels) && RecordsAwayFrom(s, Class(sources, t))
    requires Touches(Norm(k.0, k.1), Class(sources, t))
    ensures var m, u := Merged(s, sources, t, rels), Updates(s, Elems(sources), t, rels);
            (k in m.relVdb <==> Pair(k.0, k.1) in u) && (k in m.relVdb ==> m.relVdb[k] == u[Pair(k.0, k.1)])
  {
    RelVdbAfter(s, sources, t, rels, k);
    RecordsAt(Updates(s, Elems(sources), t, rels), k);
    StaleOfClass(s, sources, t, rels, k);
  }

  lemma UpdatesAreNormal(s: Stores, sources: seq<Name>, t: Name, rels: seq<Rel>, p: Pair)
    requires Incident(s, sources, t, rels) && p in Updates(s, Elems(sources), t, rels)
    ensures p.lo <= p.hi
  {
    UpdateAt(s, sources, t, rels, p);
  }

  lemma RecordNear(s: Stores, sources: seq<Name>, t: Name, rels: seq<Rel>, k: (Name, Name))
    requires Simple(s) && Incident(s, sources, t, rels) && RecordsAwayFrom(s, Class(sources, t))
    requires Touches(Norm(k.0, k.1), Class(sources, t))
    ensures var m, p := Merged(s, sources, t, rels), Norm(k.0, k.1);
            (k in m.relVdb <==> k.0 <= k.1 && p in m.edges) && (k in m.relVdb ==> m.relVdb[k] == m.edges[p])
  {
    NearRecordIsUpdate(s, sources, t, rels, k);
    UpdatedEdge(s, sources, t, rels, Norm(k.0, k.1));
    if Pair(k.0, k.1) in Updates(s, Elems(sources), t, rels) {
      UpdatesAreNormal(s, sources, t, rels, Pair(k.0, k.1));
    }
  }

  /** One relation record after the merge. */
  lemma RecordAfter(s: Stores, sources: seq<Name>, t: Name, rels: seq<Rel>, k: (Name, Name))
    requires Simple(s) && Incident(s, sources, t, rels) && RecordsAwayFrom(s, Class(sources, t))
    ensures var m, cls := Merged(s, sources, t, rels), Class(sources, t);
            var p := Norm(k.0, k.1);
            if Touches(p, cls)
            then (k in m.relVdb <==> k.0 <= k.1 && p in m.edges) && (k in m.relVdb ==> m.relVdb[k] == m.edges[p])
            else (k in m.relVdb <==> k in s.relVdb) && (k in m.relVdb ==> m.relVdb[k] == s.relVdb[k])
  {
    if Touches(Norm(k.0, k.1), Class(sources, t)) {
      RecordNear(s, sources, t, rels, k);
    } else {
      RecordAway(s, sources, t, rels, k);
    }
  }

  lemma OneRecord(s: Stores, sources: seq<Name>, t: Name, rels: seq<Rel>, k: (Name, Name))
    requires Simple(s) && Incident(s, sources, t, rels) && RecordsAwayFrom(s, Class(sources, t))
    ensures var m := Merged(s, sources, t, rels);
            k in m.relVdb ==> Norm(k.0, k.1) in m.edges && m.relVdb[k] == m.edges[Norm(k.0, k.1)] && (k.1, k.0) !in m.relVdb
  {
    var p := Norm(k.0, k.1);
    assert Norm(k.1, k.0) == p;
    RecordAfter(s, sources, t, rels, k);
    RecordAfter(s, sources, t, rels, (k.1, k.0));
    MergeIsQuotient(s, sources, t, rels, p);
    MergeKeepsSimple(s, sources, t, rels);
    if k in Merged(s, sources, t, rels).relVdb && Touches(p, Class(sources, t)) {
      assert p.lo < p.hi;
    }
  }

  lemma SomeRecord(s: Stores, sources: seq<Name>, t: Name, rels: seq<Rel>, p: Pair)
    requires Simple(s) && Incident(s, sources, t, rels) && RecordsAwayFrom(s, Class(sources, t))
    ensures var m := Merged(s, sources, t, rels); p in m.edges ==> (p.lo, p.hi) in m.relVdb || (p.hi, p.lo) in m.relVdb
  {
    MergeKeepsSimple(s, sources, t, rels);
    RecordAfter(s, sources, t, rels, (p.lo, p.hi));
    RecordAfter(s, sources, t, rels, (p.hi, p.lo));
    MergeIsQuotient(s, sources, t, rels, p);
    assert p in Merged(s, sources, t, rels).edges ==> Norm(p.lo, p.hi) == p == Norm(p.hi, p.lo);
  }

  lemma EntriesAfter(s: Stores, sources: seq<Name>, t: Name, rels: seq<Rel>)
    requires Listed(s, rels) && RecordsAwayFrom(s, Class(sources, t))
    ensures Merged(s, sources, t, rels).entVdb == Merged(s, sources, t, rels).nodes
  {
    var m, gone, list := Merged(s, sources, t, rels), Elems(sources), UnionOver(s.nodes, NodeOrder(sources, t));
    assert m.nodes == s.nodes[t := list] - (gone - {t}) && m.entVdb == s.entVdb[t := list] - (gone - {t});
    forall n
      ensures n in m.entVdb <==> n in m.nodes
      ensures n in m.entVdb ==> m.entVdb[n] == m.nodes[n]
    {
      assert n == t || n in gone || n !in Class(sources, t);
    }
  }

  /** The merge leaves both indexes agreeing with the graph, even where they lagged behind near the class. */
  lemma MergeMakesIndexesAgree(s: Stores, sources: seq<Name>, t: Name, rels: seq<Rel>)
    requires Simple(s) && Incident(s, sources, t, rels) && RecordsAwayFrom(s, Class(sources, t))
    ensures IndexesAgree(Merged(s, sources, t, rels))
  {
    var m := Merged(s, sources, t, rels);
    forall k | k in m.relVdb
      ensures Norm(k.0, k.1) in m.edges && m.relVdb[k] == m.edges[Norm(k.0, k.1)] && (k.1, k.0) !in m.relVdb
    {
      OneRecord(s, sources, t, rels, k);
    }
    forall p | p in m.edges
      ensures (p.lo, p.hi) in m.relVdb || (p.hi, p.lo) in m.relVdb
    {
      SomeRecord(s, sources, t, rels, p);
    }
    EntriesAfter(s, sources, t, rels);
  }

  // ---------------------------------------------------------------- chunk tracking

  /** The tracked chunks of every listed edge to `x`, one after the other. */
  function TrackedAlong(s: Stores, rels: seq<Rel>, x: Name): seq<Chunk>
    requires Listed(s, rels)
  {
    if rels == [] then []
    else
      TrackedAlong(s, rels[..|rels| - 1], x)
        + if rels[|rels| - 1].1 == x then TrackedOf(s, rels[|rels| - 1]) else []
  }

  function ListsAlong(lists: map<Name, seq<Chunk>>, names: seq<Name>): seq<Chunk> {
    if names == [] then []
    else ListsAlong(lists, names[..|names| - 1]) + if names[|names| - 1] in lists then lists[names[|names| - 1]] else []
  }

  /** A tracking row written by the merge: the collapsed rows in order, each id where it occurs first. */
  lemma {:induction false} TrackAt(s: Stores, sources: seq<Name>, t: Name, rels: seq<Rel>, p: Pair)
    requires Listed(s, rels) && forall r | r in rels :: r.0 in Class(sources, t)
    ensures var w, x := Tracks(s, Elems(sources), t, rels), Other(p, t);
            && (p in w <==> Outward(p, Class(sources, t), t) && SeenFrom(rels, x) != {})
            && (p in w ==> w[p] == AppendNew([], TrackedAlong(s, rels, x)))
            && (Outward(p, Class(sources, t), t) && p !in w ==> TrackedAlong(s, rels, x) == [])
  {
    if rels != [] {
      var init, r := rels[..|rels| - 1], rels[|rels| - 1];
      var x := Other(p, t);
      assert rels == init + [r] && r in rels;
      TrackAt(s, sources, t, init, p);
      SeenGrows(init, r, x);
      KeyOfRel(sources, t, r);
      if r.1 !in Class(sources, t) && p == Norm(t, r.1) {
        assert x == r.1;
        AppendNewConcat([], TrackedAlong(s, init, x), TrackedOf(s, r));
        assert TrackedAlong(s, init, x) + TrackedOf(s, r) == TrackedAlong(s, rels, x);
      } else if Outward(p, Class(sources, t), t) {
        assert x != r.1;
        assert TrackedAlong(s, rels, x) == TrackedAlong(s, init, x);
      }
    }
  }

  lemma {:induction false} UnionIsOrdered(lists: map<Name, seq<Chunk>>, names: seq<Name>)
    ensures UnionOver(lists, names) == AppendNew([], ListsAlong(lists, names))
  {
    if names != [] {
      var init, n := names[..|names| - 1], names[|names| - 1];
      UnionIsOrdered(lists, init);
      if n in lists {
        AppendNewConcat([], ListsAlong(lists, init), lists[n]);
      } else {
        assert ListsAlong(lists, names) == ListsAlong(lists, init);
      }
    }
  }

  lemma OldKeysOfClass(s: Stores, sources: seq<Name>, t: Name, rels: seq<Rel>, p: Pair)
    requires Simple(s) && Incident(s, sources, t, rels)
    ensures p in OldKeys(rels) <==> p in s.edges && Touches(p, Class(sources, t))
  {
    var cls := Class(sources, t);
    if p in OldKeys(rels) {
      var r :| r in rels && p == Norm(r.0, r.1);
    }
    if p in s.edges && p.lo in cls {
      assert Norm(p.lo, p.hi) == p;
      assert (p.lo, p.hi) in rels;
    } else if p in s.edges && p.hi in cls {
      assert Norm(p.hi, p.lo) == p;
      assert (p.hi, p.lo) in rels;
    }
  }

  lemma EdgesAtClass(s: Stores, sources: seq<Name>, t: Name, rels: seq<Rel>, p: Pair)
    requires Simple(s) && Incident(s, sources, t, rels)
    ensures var cls := Class(sources, t);
            Touches(p, cls) ==> (p in Merged(s, sources, t, rels).edges <==> Outward(p, cls, t) && SeenFrom(rels, Other(p, t)) != {})
  {
    SeenIsAdjacent(s, sources, t, rels, Other(p, t));
    MergeIsQuotient(s, sources, t, rels, p);
  }

  lemma MergedTracking(s: Stores, sources: seq<Name>, t: Name, rels: seq<Rel>)
    requires Listed(s, rels)
    ensures Merged(s, sources, t, rels).entTrack == EntTracking(s.entTrack, sources, t, t in s.nodes)
    ensures Merged(s, sources, t, rels).relTrack == s.relTrack - OldKeys(rels) + Tracks(s, Elems(sources), t, rels)
  {
  }

  lemma RowAt(s: Stores, sources: seq<Name>, t: Name, rels: seq<Rel>, p: Pair)
    requires Simple(s) && Incident(s, sources, t, rels)
    ensures var rows, cls := Merged(s, sources, t, rels).relTrack, Class(sources, t);
            if Outward(p, cls, t) && SeenFrom(rels, Other(p, t)) != {}
            then p in rows && rows[p] == AppendNew([], TrackedAlong(s, rels, Other(p, t)))
            else (p in rows <==> p in s.relTrack && !(p in s.edges && Touches(p, cls))) && (p in rows ==> rows[p] == s.relTrack[p])
  {
    MergedTracking(s, sources, t, rels);
    TrackAt(s, sources, t, rels, p);
    OldKeysOfClass(s, sources, t, rels, p);
  }

  /**
   * Relation tracking: every merged edge at the target has a row, the ordered duplicate-free union of the rows it
   * collapses, where an edge without a row counts with the graph's own list; other rows are as they were, but
   * for those of the collapsed edges.
   */
  lemma RelationTrackingFollows(s: Stores, sources: seq<Name>, t: Name, rels: seq<Rel>, p: Pair)
    requires Simple(s) && Incident(s, sources, t, rels)
    ensures var m, cls := Merged(s, sources, t, rels), Class(sources, t);
            if Touches(p, cls) && p in m.edges then p in m.relTrack && m.relTrack[p] == AppendNew([], TrackedAlong(s, rels, Other(p, t)))
            else if Touches(p, cls) && p in s.edges then p !in m.relTrack
            else (p in m.relTrack <==> p in s.relTrack) && (p in m.relTrack ==> m.relTrack[p] == s.relTrack[p])
  {
    RowAt(s, sources, t, rels, p);
    EdgesAtClass(s, sources, t, rels, p);
  }

  /** With a row per edge before, there is a row per edge behind. */
  lemma RowPerEdge(s: Stores, sources: seq<Name>, t: Name, rels: seq<Rel>)
    requires Simple(s) && Incident(s, sources, t, rels) && s.relTrack.Keys == s.edges.Keys
    ensures Merged(s, sources, t, rels).relTrack.Keys == Merged(s, sources, t, rels).edges.Keys
  {
    var m := Merged(s, sources, t, rels);
    forall p
      ensures p in m.relTrack <==> p in m.edges
    {
      RelationTrackingFollows(s, sources, t, rels, p);
      MergeIsQuotient(s, sources, t, rels, p);
    }
  }

  lemma EntTrackingAt(rows: map<Name, seq<Chunk>>, sources: seq<Name>, t: Name, known: bool, n: Name)
    ensures var now, all := EntTracking(rows, sources, t, known), ListsAlong(rows, TrackOrder(sources, t, known));
            if n == t then
              && (n in now <==> n in rows || all != [])
              && (n in now ==> now[n] == if all != [] then AppendNew([], all) else rows[n])
            else if n in sources then n !in now
            else (n in now <==> n in rows) && (n in now ==> now[n] == rows[n])
  {
    var order := TrackOrder(sources, t, known);
    var all := ListsAlong(rows, order);
    UnionIsOrdered(rows, order);
    AppendNewElems([], all);
    assert all != [] ==> all[0] in Elems(all);
    assert n in sources <==> n in Elems(sources);
  }

  /** Entity tracking: the rows of the sources, in their order, then the target's if it was a node, each id once. */
  lemma EntityTrackingMerged(s: Stores, sources: seq<Name>, t: Name, rels: seq<Rel>, n: Name)
    requires Listed(s, rels)
    ensures var m, all := Merged(s, sources, t, rels), ListsAlong(s.entTrack, TrackOrder(sources, t, t in s.nodes));
            if n == t then
              && (n in m.entTrack <==> n in s.entTrack || all != [])
              && (n in m.entTrack ==> m.entTrack[n] == if all != [] then AppendNew([], all) else s.entTrack[n])
            else if n in sources then n !in m.entTrack
            else (n in m.entTrack <==> n in s.entTrack) && (n in m.entTrack ==> m.entTrack[n] == s.entTrack[n])
  {
    MergedTracking(s, sources, t, rels);
    EntTrackingAt(s.entTrack, sources, t, t in s.nodes, n);
  }

  // ---------------------------------------------------------------- failure and retry

  lemma EdgesMidway(s: Stores, sources: seq<Name>, t: Name, rels: seq<Rel>, k: nat, part: set<Pair>, p: Pair)
    requires Listed(s, rels) && k < DELETE
    ensures var m, u := MergedUpTo(s, sources, t, rels, k, part), Updates(s, Elems(sources), t, rels);
            && (p in m.edges <==> p in s.edges || (k >= EDGES && p in u))
            && (p in m.edges ==> m.edges[p] == if k >= EDGES && p in u then u[p] else s.edges[p])
  {
  }

  ghost function ClassChunks(s: Stores, cls: set<Name>): set<Chunk> {
    set n, c | n in cls && n in s.nodes && c in s.nodes[n] :: c
  }

  lemma NodesMidway(s: Stores, sources: seq<Name>, t: Name, rels: seq<Rel>, k: nat, part: set<Pair>)
    requires Listed(s, rels) && k < DELETE
    ensures var m := MergedUpTo(s, sources, t, rels, k, part);
            && m.nodes.Keys + {t} == s.nodes.Keys + {t}
            && (forall n | n in s.nodes && n != t :: n in m.nodes && m.nodes[n] == s.nodes[n])
            && (t in s.nodes ==> t in m.nodes && Elems(s.nodes[t]) <= Elems(m.nodes[t]))
            && (t in m.nodes ==> Elems(m.nodes[t]) <= ClassChunks(s, Class(sources, t)))
            && (k >= NODE ==> t in m.nodes)
  {
    var order := NodeOrder(sources, t);
    var list := UnionOver(s.nodes, order);
    UnionOverElems(s.nodes, order);
    assert t in order;
    forall c | c in list
      ensures c in ClassChunks(s, Class(sources, t))
    {
      var n :| n in order && n in s.nodes && c in s.nodes[n];
      assert n in Class(sources, t);
    }
    if t in s.nodes {
      forall c | c in s.nodes[t]
        ensures c in list
      {
        assert t in order && t in s.nodes && c in s.nodes[t];
      }
      assert Elems(s.nodes[t]) <= ClassChunks(s, Class(sources, t));
    }
  }

  /** Up to the deletion of the sources nothing is lost: every node and edge is there with its sources. */
  lemma FailedMergeLosesNothing(s: Stores, sources: seq<Name>, t: Name, rels: seq<Rel>, k: nat, part: set<Pair>)
    requires Simple(s) && Incident(s, sources, t, rels) && k < DELETE
    ensures var m := MergedUpTo(s, sources, t, rels, k, part);
            && (forall n | n in s.nodes && n != t :: n in m.nodes && m.nodes[n] == s.nodes[n])
            && (t in s.nodes ==> t in m.nodes && Elems(s.nodes[t]) <= Elems(m.nodes[t]))
            && (forall p | p in s.edges :: p in m.edges && Elems(s.edges[p].sources) <= Elems(m.edges[p].sources)
                                           && s.edges[p].weight <= m.edges[p].weight)
  {
    var m := MergedUpTo(s, sources, t, rels, k, part);
    NodesMidway(s, sources, t, rels, k, part);
    forall p | p in s.edges
      ensures p in m.edges && Elems(s.edges[p].sources) <= Elems(m.edges[p].sources) && s.edges[p].weight <= m.edges[p].weight
    {
      EdgesMidway(s, sources, t, rels, k, part, p);
      UpdateAt(s, sources, t, rels, p);
      SeenIsAdjacent(s, sources, t, rels, Other(p, t));
      if Outward(p, Class(sources, t), t) {
        assert t in Adjacent(s, Class(sources, t), Other(p, t));
      }
    }
  }

  /** Two graphs with the same nodes, edges, source sets and weights. */
  ghost predicate SameGraph(a: Stores, b: Stores) {
    && a.nodes.Keys == b.nodes.Keys && (forall n | n in a.nodes :: Elems(a.nodes[n]) == Elems(b.nodes[n]))
    && a.edges.Keys == b.edges.Keys
    && forall p | p in a.edges :: Elems(a.edges[p].sources) == Elems(b.edges[p].sources) && a.edges[p].weight == b.edges[p].weight
  }

  /** What the stores satisfy when a merge of the class has failed midway. */
  ghost predicate Interrupted(s: Stores, m: Stores, sources: seq<Name>, t: Name) {
    var cls := Class(sources, t);
    && Simple(m) && RecordsAwayFrom(m, cls)
    && m.nodes.Keys + {t} == s.nodes.Keys + {t}
    && (forall n | n in s.nodes && n != t :: n in m.nodes && m.nodes[n] == s.nodes[n])
    && (t in s.nodes ==> t in m.nodes && Elems(s.nodes[t]) <= Elems(m.nodes[t]))
    && (t in m.nodes ==> Elems(m.nodes[t]) <= ClassChunks(s, cls))
    && (forall p | p in s.edges || p in m.edges :: MidwayEdge(s, m, cls, t, p))
  }

  ghost predicate MidwayEdge(s: Stores, m: Stores, cls: set<Name>, t: Name, p: Pair) {
    || (p in s.edges && p in m.edges && m.edges[p] == s.edges[p])
    || (p in m.edges && Outward(p, cls, t) && Adjacent(s, cls, Other(p, t)) != {}
        && Collapses(s, Adjacent(s, cls, Other(p, t)), Other(p, t), m.edges[p]))
  }

  lemma RelVdbMidway(s: Stores, sources: seq<Name>, t: Name, rels: seq<Rel>, k: nat, part: set<Pair>, key: (Name, Name))
    requires Listed(s, rels) && k < DELETE
    ensures var m, u := MergedUpTo(s, sources, t, rels, k, part), Updates(s, Elems(sources), t, rels);
            && (key in m.relVdb ==> key in s.relVdb || (k >= EDGES && Pair(key.0, key.1) in u))
            && (key !in StaleRecords(rels) && Pair(key.0, key.1) !in u ==>
                  (key in m.relVdb <==> key in s.relVdb) && (key in m.relVdb ==> m.relVdb[key] == s.relVdb[key]))
  {
    RecordsAt(Updates(s, Elems(sources), t, rels), key);
  }

  /** Away from the class neither the edges nor their records have moved. */
  lemma AwayMidway(s: Stores, sources: seq<Name>, t: Name, rels: seq<Rel>, k: nat, part: set<Pair>, key: (Name, Name))
    requires Simple(s) && Incident(s, sources, t, rels) && k < DELETE
    requires !Touches(Norm(key.0, key.1), Class(sources, t))
    ensures var m, p := MergedUpTo(s, sources, t, rels, k, part), Norm(key.0, key.1);
            && (key in m.relVdb <==> key in s.relVdb) && (key in m.relVdb ==> m.relVdb[key] == s.relVdb[key])
            && (p in m.edges <==> p in s.edges) && (p in m.edges ==> m.edges[p] == s.edges[p])
  {
    RelVdbMidway(s, sources, t, rels, k, part, key);
    StaleOfClass(s, sources, t, rels, key);
    UpdateAt(s, sources, t, rels, Pair(key.0, key.1));
    UpdateAt(s, sources, t, rels, Norm(key.0, key.1));
    EdgesMidway(s, sources, t, rels, k, part, Norm(key.0, key.1));
  }

  lemma RecordHasEdge(s: Stores, sources: seq<Name>, t: Name, rels: seq<Rel>, k: nat, part: set<Pair>, key: (Name, Name))
    requires Simple(s) && Incident(s, sources, t, rels) && k < DELETE && RecordsAwayFrom(s, Class(sources, t))
    ensures var m := MergedUpTo(s, sources, t, rels, k, part); key in m.relVdb ==> Norm(key.0, key.1) in m.edges
  {
    RelVdbMidway(s, sources, t, rels, k, part, key);
    EdgesMidway(s, sources, t, rels, k, part, Norm(key.0, key.1));
    UpdateAt(s, sources, t, rels, Pair(key.0, key.1));
  }

  lemma EntriesMidway(s: Stores, sources: seq<Name>, t: Name, rels: seq<Rel>, k: nat, part: set<Pair>)
    requires Listed(s, rels) && k < DELETE
    ensures var m := MergedUpTo(s, sources, t, rels, k, part);
            forall n | n != t :: (n in m.entVdb <==> n in s.entVdb) && (n in m.entVdb ==> m.entVdb[n] == s.entVdb[n])
  {
  }

  lemma RecordMidway(s: Stores, sources: seq<Name>, t: Name, rels: seq<Rel>, k: nat, part: set<Pair>, key: (Name, Name))
    requires Simple(s) && Incident(s, sources, t, rels) && k < DELETE && RecordsAwayFrom(s, Class(sources, t))
    requires !Touches(Norm(key.0, key.1), Class(sources, t))
    ensures var m := MergedUpTo(s, sources, t, rels, k, part);
            key in m.relVdb ==>
              (Norm(key.0, key.1) in m.edges && m.relVdb[key] == m.edges[Norm(key.0, key.1)] && (key.1, key.0) !in m.relVdb)
  {
    assert Norm(key.1, key.0) == Norm(key.0, key.1);
    AwayMidway(s, sources, t, rels, k, part, key);
    AwayMidway(s, sources, t, rels, k, part, (key.1, key.0));
  }

  lemma EdgeRecordMidway(s: Stores, sources: seq<Name>, t: Name, rels: seq<Rel>, k: nat, part: set<Pair>, p: Pair)
    requires Simple(s) && Incident(s, sources, t, rels) && k < DELETE && RecordsAwayFrom(s, Class(sources, t))
    requires !Touches(p, Class(sources, t))
    ensures var m := MergedUpTo(s, sources, t, rels, k, part);
            p in m.edges ==> (p.lo, p.hi) in m.relVdb || (p.hi, p.lo) in m.relVdb
  {
    EdgesMidway(s, sources, t, rels, k, part, p);
    UpdateAt(s, sources, t, rels, p);
    if p in s.edges {
      assert Norm(p.lo, p.hi) == p == Norm(p.hi, p.lo);
      AwayMidway(s, sources, t, rels, k, part, (p.lo, p.hi));
      AwayMidway(s, sources, t, rels, k, part, (p.hi, p.lo));
    }
  }

  lemma RecordsMidway(s: Stores, sources: seq<Name>, t: Name, rels: seq<Rel>, k: nat, part: set<Pair>)
    requires Simple(s) && Incident(s, sources, t, rels) && k < DELETE && RecordsAwayFrom(s, Class(sources, t))
    ensures RecordsAwayFrom(MergedUpTo(s, sources, t, rels, k, part), Class(sources, t))
  {
    var m, cls := MergedUpTo(s, sources, t, rels, k, part), Class(sources, t);
    NodesMidway(s, sources, t, rels, k, part);
    EntriesMidway(s, sources, t, rels, k, part);
    forall key | key in m.relVdb
      ensures Norm(key.0, key.1) in m.edges
      ensures !Touches(Norm(key.0, key.1), cls) ==> m.relVdb[key] == m.edges[Norm(key.0, key.1)] && (key.1, key.0) !in m.relVdb
    {
      RecordHasEdge(s, sources, t, rels, k, part, key);
      if !Touches(Norm(key.0, key.1), cls) {
        RecordMidway(s, sources, t, rels, k, part, key);
      }
    }
    forall p | p in m.edges && !Touches(p, cls)
      ensures (p.lo, p.hi) in m.relVdb || (p.hi, p.lo) in m.relVdb
    {
      EdgeRecordMidway(s, sources, t, rels, k, part, p);
    }
  }

  lemma EdgeMidway(s: Stores, sources: seq<Name>, t: Name, rels: seq<Rel>, k: nat, part: set<Pair>, p: Pair)
    requires Simple(s) && Incident(s, sources, t, rels) && k < DELETE
    requires p in s.edges || p in MergedUpTo(s, sources, t, rels, k, part).edges
    ensures var m, cls := MergedUpTo(s, sources, t, rels, k, part), Class(sources, t);
            && MidwayEdge(s, m, cls, t, p)
            && (p in m.edges ==> p.lo < p.hi && p.lo in m.nodes && p.hi in m.nodes)
  {
    var cls := Class(sources, t);
    NodesMidway(s, sources, t, rels, k, part);
    EdgesMidway(s, sources, t, rels, k, part, p);
    UpdateAt(s, sources, t, rels, p);
    SeenIsAdjacent(s, sources, t, rels, Other(p, t));
    if k >= EDGES && p in Updates(s, Elems(sources), t, rels) {
      UpdatesSpareSources(s, sources, t, rels, p);
      var y :| y in Adjacent(s, cls, Other(p, t));
      assert Norm(y, Other(p, t)) in s.edges;
    }
  }

  lemma FailureInterrupts(s: Stores, sources: seq<Name>, t: Name, rels: seq<Rel>, k: nat, part: set<Pair>)
    requires Simple(s) && Incident(s, sources, t, rels) && k < DELETE && RecordsAwayFrom(s, Class(sources, t))
    ensures Interrupted(s, MergedUpTo(s, sources, t, rels, k, part), sources, t)
  {
    var m, cls := MergedUpTo(s, sources, t, rels, k, part), Class(sources, t);
    RecordsMidway(s, sources, t, rels, k, part);
    NodesMidway(s, sources, t, rels, k, part);
    forall p | p in s.edges || p in m.edges
      ensures MidwayEdge(s, m, cls, t, p)
      ensures p in m.edges ==> p.lo < p.hi && p.lo in m.nodes && p.hi in m.nodes
    {
      EdgeMidway(s, sources, t, rels, k, part, p);
    }
  }

  lemma AdjacentMidway(s: Stores, m: Stores, sources: seq<Name>, t: Name, x: Name)
    requires Simple(s) && Interrupted(s, m, sources, t) && x !in Class(sources, t)
    ensures var cls := Class(sources, t); Adjacent(m, cls, x) != {} <==> Adjacent(s, cls, x) != {}
    ensures Adjacent(s, Class(sources, t), x) <= Adjacent(m, Class(sources, t), x)
  {
    var cls := Class(sources, t);
    forall y | y in Adjacent(s, cls, x)
      ensures y in Adjacent(m, cls, x)
    {
      assert MidwayEdge(s, m, cls, t, Norm(y, x));
    }
    if y :| y in Adjacent(m, cls, x) {
      assert MidwayEdge(s, m, cls, t, Norm(y, x));
      assert Norm(y, x) in s.edges ==> y in Adjacent(s, cls, x);
      assert y == t ==> Other(Norm(y, x), t) == x;
    }
  }

  /** A collapsed edge stays below anything that its members stay below. */
  lemma CollapseBelow(s: Stores, ys: set<Name>, x: Name, e: Edge, f: Edge)
    requires forall y | y in ys :: Norm(y, x) in s.edges
    requires Collapses(s, ys, x, e)
    requires forall y | y in ys :: Elems(s.edges[Norm(y, x)].sources) <= Elems(f.sources) && s.edges[Norm(y, x)].weight <= f.weight
    ensures Elems(e.sources) <= Elems(f.sources) && e.weight <= f.weight
  {
    forall c | c in e.sources
      ensures c in Elems(f.sources)
    {
      var y :| y in ys && c in s.edges[Norm(y, x)].sources;
      assert c in Elems(s.edges[Norm(y, x)].sources);
    }
  }

  lemma OriginalsMidway(s: Stores, m: Stores, sources: seq<Name>, t: Name, x: Name, y: Name, b: Edge)
    requires Simple(s) && Interrupted(s, m, sources, t) && x !in Class(sources, t)
    requires Collapses(m, Adjacent(m, Class(sources, t), x), x, b) && y in Adjacent(s, Class(sources, t), x)
    ensures Elems(s.edges[Norm(y, x)].sources) <= Elems(b.sources) && s.edges[Norm(y, x)].weight <= b.weight
  {
    var p := Norm(y, x);
    AdjacentMidway(s, m, sources, t, x);
    assert MidwayEdge(s, m, Class(sources, t), t, p);
    if m.edges[p] != s.edges[p] {
      assert Other(p, t) == x;
    }
  }

  /** Collapsing the interrupted graph gives what collapsing the original gives. */
  lemma CollapsesAlike(s: Stores, m: Stores, sources: seq<Name>, t: Name, x: Name, a: Edge, b: Edge)
    requires Simple(s) && Interrupted(s, m, sources, t) && x !in Class(sources, t)
    requires Collapses(s, Adjacent(s, Class(sources, t), x), x, a)
    requires Collapses(m, Adjacent(m, Class(sources, t), x), x, b)
    ensures Elems(a.sources) == Elems(b.sources) && a.weight == b.weight
  {
    var cls := Class(sources, t);
    forall y | y in Adjacent(s, cls, x)
      ensures Elems(s.edges[Norm(y, x)].sources) <= Elems(b.sources) && s.edges[Norm(y, x)].weight <= b.weight
    {
      OriginalsMidway(s, m, sources, t, x, y, b);
    }
    forall y | y in Adjacent(m, cls, x)
      ensures Elems(m.edges[Norm(y, x)].sources) <= Elems(a.sources) && m.edges[Norm(y, x)].weight <= a.weight
    {
      SourcesMidway(s, m, sources, t, x, y, a);
    }
    CollapseBelow(s, Adjacent(s, cls, x), x, a, b);
    CollapseBelow(m, Adjacent(m, cls, x), x, b, a);
  }

  lemma SourcesMidway(s: Stores, m: Stores, sources: seq<Name>, t: Name, x: Name, y: Name, a: Edge)
    requires Simple(s) && Interrupted(s, m, sources, t) && x !in Class(sources, t)
    requires Collapses(s, Adjacent(s, Class(sources, t), x), x, a) && y in Adjacent(m, Class(sources, t), x)
    ensures Elems(m.edges[Norm(y, x)].sources) <= Elems(a.sources) && m.edges[Norm(y, x)].weight <= a.weight
  {
    var cls, p := Class(sources, t), Norm(y, x);
    assert MidwayEdge(s, m, cls, t, p);
    if p in s.edges && m.edges[p] == s.edges[p] {
      assert y in Adjacent(s, cls, x);
    } else {
      assert y == t && Other(p, t) == x;
      forall c | c in m.edges[p].sources
        ensures c in Elems(a.sources)
      {
        var z :| z in Adjacent(s, cls, x) && c in s.edges[Norm(z, x)].sources;
        assert c in Elems(s.edges[Norm(z, x)].sources);
      }
    }
  }

  /**
   * A merge that failed anywhere before the sources were deleted, and is run again, gives the nodes,
   * edges, source sets and weights of one that never failed, and both indexes agree with them.
   */
  lemma RetriedMergeConverges(s: Stores, sources: seq<Name>, t: Name, rels: seq<Rel>, again: seq<Rel>, k: nat, part: set<Pair>)
    requires Simple(s) && Incident(s, sources, t, rels) && k < DELETE && RecordsAwayFrom(s, Class(sources, t))
    requires Incident(MergedUpTo(s, sources, t, rels, k, part), sources, t, again)
    ensures var m := MergedUpTo(s, sources, t, rels, k, part);
            && SameGraph(Merged(m, sources, t, again), Merged(s, sources, t, rels))
            && IndexesAgree(Merged(m, sources, t, again))
  {
    var m := MergedUpTo(s, sources, t, rels, k, part);
    FailureInterrupts(s, sources, t, rels, k, part);
    MergeMakesIndexesAgree(m, sources, t, again);
    var a, b := Merged(m, sources, t, again), Merged(s, sources, t, rels);
    NodesAfter(s, sources, t, rels);
    NodesAfter(m, sources, t, again);
    TargetRecordsClass(s, sources, t, rels);
    TargetRecordsClass(m, sources, t, again);
    NodesConverge(s, m, a, b, sources, t);
    forall p
      ensures p in a.edges <==> p in b.edges
      ensures p in a.edges ==> Elems(a.edges[p].sources) == Elems(b.edges[p].sources) && a.edges[p].weight == b.edges[p].weight
    {
      MergeIsQuotient(s, sources, t, rels, p);
      MergeIsQuotient(m, sources, t, again, p);
      EdgeConverges(s, m, a, b, sources, t, p);
    }
  }

  // ---------------------------------------------------------------- entity tracking of a retried merge

  /** The rows of the sources, one after the other. */
  function SourceRows(rows: map<Name, seq<Chunk>>, sources: seq<Name>, t: Name): seq<Chunk> {
    ListsAlong(rows, Subtract(sources, {t}))
  }

  lemma UnionOfRows(rows: map<Name, seq<Chunk>>, sources: seq<Name>, t: Name, known: bool)
    ensures UnionOver(rows, TrackOrder(sources, t, known))
         == AppendNew([], SourceRows(rows, sources, t) + if known && t in rows then rows[t] else [])
  {
    var order := TrackOrder(sources, t, known);
    UnionIsOrdered(rows, order);
    if known {
      assert order[..|order| - 1] == Subtract(sources, {t}) && order[|order| - 1] == t;
    } else {
      assert order == Subtract(sources, {t});
    }
    assert ListsAlong(rows, order) == SourceRows(rows, sources, t) + if known && t in rows then rows[t] else [];
  }

  lemma {:induction false} NoRowsAlong(rows: map<Name, seq<Chunk>>, names: seq<Name>)
    requires forall n | n in names :: n !in rows
    ensures ListsAlong(rows, names) == []
  {
    if names != [] {
      var init, last := names[..|names| - 1], names[|names| - 1];
      assert last in names && last !in rows;
      assert forall n | n in init :: n in names;
      NoRowsAlong(rows, init);
      assert ListsAlong(rows, names) == ListsAlong(rows, init);
    }
  }

  lemma AppendedIsNotEmpty(list: seq<Chunk>)
    ensures AppendNew([], list) == [] <==> list == []
  {
    AppendNewElems([], list);
    assert list != [] ==> list[0] in Elems(list);
  }

  lemma {:induction false} NothingAppended(acc: seq<Chunk>, list: seq<Chunk>)
    requires Elems(list) <= Elems(acc)
    ensures AppendNew(acc, list) == acc
  {
    if list != [] {
      assert list[0] in Elems(list) && Elems(list[1..]) <= Elems(list);
      NothingAppended(acc, list[1..]);
    }
  }

  lemma DistinctRow(row: seq<Chunk>)
    requires Distinct(row)
    ensures AppendNew([], [] + row) == row
  {
    AppendNewOfDistinct([], row);
    assert [] + row == row;
  }

  /** Done twice, entity tracking is as done once: the sources have no rows any more. */
  lemma TrackedTwice(rows: map<Name, seq<Chunk>>, sources: seq<Name>, t: Name, known: bool)
    requires t in rows ==> Distinct(rows[t])
    ensures EntTracking(EntTracking(rows, sources, t, known), sources, t, true) == EntTracking(rows, sources, t, known)
  {
    var once := EntTracking(rows, sources, t, known);
    var list := SourceRows(rows, sources, t) + if known && t in rows then rows[t] else [];
    UnionOfRows(rows, sources, t, known);
    UnionOfRows(once, sources, t, true);
    SubtractElems(sources, {t});
    forall n | n in Subtract(sources, {t})
      ensures n !in once
    {
      assert n in Elems(Subtract(sources, {t}));
    }
    NoRowsAlong(once, Subtract(sources, {t}));
    AppendNewDistinct([], list);
    if t in once {
      DistinctRow(once[t]);
    }
    assert once - (Elems(sources) - {t}) == once;
  }

  /** A row of a target that is no node adds something unless the sources have no rows, or rows with all of it. */
  lemma KnownTargetAdds(rows: map<Name, seq<Chunk>>, sources: seq<Name>, t: Name)
    requires t in rows && Distinct(rows[t])
    ensures EntTracking(rows, sources, t, true) == EntTracking(rows, sources, t, false)
       <==> SourceRows(rows, sources, t) == [] || Elems(rows[t]) <= Elems(SourceRows(rows, sources, t))
  {
    var list, row := SourceRows(rows, sources, t), rows[t];
    UnionOfRows(rows, sources, t, true);
    UnionOfRows(rows, sources, t, false);
    AppendNewConcat([], list, row);
    assert list + [] == list && [] + row == row;
    AppendNewElems([], list);
    AppendNewElems(AppendNew([], list), row);
    AppendedIsNotEmpty(list);
    AppendedIsNotEmpty(list + row);
    AppendNewOfDistinct([], row);
    if list == [] {
      assert list + row == row;
      assert t in rows - (Elems(sources) - {t});
    } else if Elems(row) <= Elems(list) {
      NothingAppended(AppendNew([], list), row);
    } else {
      assert t in EntTracking(rows, sources, t, true) && t in EntTracking(rows, sources, t, false);
    }
  }

  lemma TargetMidway(s: Stores, sources: seq<Name>, t: Name, rels: seq<Rel>, k: nat, part: set<Pair>)
    requires Listed(s, rels) && k < DELETE
    ensures var m := MergedUpTo(s, sources, t, rels, k, part);
            && (t in m.nodes <==> t in s.nodes || k >= NODE)
            && m.entTrack == if k >= ENT_TRACK then EntTracking(s.entTrack, sources, t, t in s.nodes) else s.entTrack
  {
  }

  /**
   * Entity tracking of a merge that failed and is run again is that of one that never failed, unless a row was
   * left over for a target that was no node: the second run finds the node made by the first, and counts it.
   */
  lemma RetriedEntityTracking(s: Stores, sources: seq<Name>, t: Name, rels: seq<Rel>, again: seq<Rel>, k: nat, part: set<Pair>)
    requires Listed(s, rels) && k < DELETE && Listed(MergedUpTo(s, sources, t, rels, k, part), again)
    requires t in s.entTrack ==> Distinct(s.entTrack[t])
    ensures Merged(MergedUpTo(s, sources, t, rels, k, part), sources, t, again).entTrack == Merged(s, sources, t, rels).entTrack
       <==> t in s.nodes || t !in s.entTrack || k < NODE || k >= ENT_TRACK
            || SourceRows(s.entTrack, sources, t) == [] || Elems(s.entTrack[t]) <= Elems(SourceRows(s.entTrack, sources, t))
  {
    MergedTracking(s, sources, t, rels);
    MergedTracking(MergedUpTo(s, sources, t, rels, k, part), sources, t, again);
    TargetMidway(s, sources, t, rels, k, part);
    if k >= ENT_TRACK {
      TrackedTwice(s.entTrack, sources, t, t in s.nodes);
    } else if t in s.entTrack {
      KnownTargetAdds(s.entTrack, sources, t);
    } else {
      UnionOfRows(s.entTrack, sources, t, true);
      UnionOfRows(s.entTrack, sources, t, false);
    }
  }

  lemma EdgeConverges(s: Stores, m: Stores, a: Stores, b: Stores, sources: seq<Name>, t: Name, p: Pair)
    requires Simple(s) && Interrupted(s, m, sources, t)
    requires QuotientAt(m, a, Class(sources, t), t, p) && QuotientAt(s, b, Class(sources, t), t, p)
    ensures (p in a.edges <==> p in b.edges)
    ensures p in a.edges ==> Elems(a.edges[p].sources) == Elems(b.edges[p].sources) && a.edges[p].weight == b.edges[p].weight
  {
    var cls, x := Class(sources, t), Other(p, t);
    if !Touches(p, cls) {
      assert p in s.edges || p in m.edges ==> MidwayEdge(s, m, cls, t, p);
    } else if Outward(p, cls, t) {
      AdjacentMidway(s, m, sources, t, x);
      if p in b.edges {
        CollapsesAlike(s, m, sources, t, x, b.edges[p], a.edges[p]);
      }
    }
  }

  lemma ListsConverge(s: Stores, m: Stores, sources: seq<Name>, t: Name, a: seq<Chunk>, b: seq<Chunk>)
    requires Interrupted(s, m, sources, t)
    requires RecordsClass(m, Class(sources, t), a) && RecordsClass(s, Class(sources, t), b)
    ensures Elems(a) == Elems(b)
  {
    var cls := Class(sources, t);
    forall c
      ensures c in a <==> c in b
    {
      if n :| n in cls && n in m.nodes && c in m.nodes[n] {
        assert c in Elems(m.nodes[n]);
        assert n == t ==> c in ClassChunks(s, cls);
      }
      if n :| n in cls && n in s.nodes && c in s.nodes[n] {
        assert c in Elems(s.nodes[n]);
        assert c in Elems(m.nodes[n]);
      }
    }
  }

  lemma NodesConverge(s: Stores, m: Stores, a: Stores, b: Stores, sources: seq<Name>, t: Name)
    requires Interrupted(s, m, sources, t)
    requires b.nodes.Keys == s.nodes.Keys - Class(sources, t) + {t} && RecordsClass(s, Class(sources, t), b.nodes[t])
    requires a.nodes.Keys == m.nodes.Keys - Class(sources, t) + {t} && RecordsClass(m, Class(sources, t), a.nodes[t])
    requires forall n | n in s.nodes && n !in Class(sources, t) :: b.nodes[n] == s.nodes[n]
    requires forall n | n in m.nodes && n !in Class(sources, t) :: a.nodes[n] == m.nodes[n]
    ensures a.nodes.Keys == b.nodes.Keys && forall n | n in a.nodes :: Elems(a.nodes[n]) == Elems(b.nodes[n])
  {
    assert t in a.nodes && t in b.nodes;
    ListsConverge(s, m, sources, t, a.nodes[t], b.nodes[t]);
  }
}
