/** The five stores of an entity merge as mutable fields, and the merge as the steps that rewrite them. */
module GraphDatabase {
  import opened Sources
  import opened EntityMerge

  class Database {
    var nodes: map<Name, seq<Chunk>>
    var edges: map<Pair, Edge>
    var entVdb: map<Name, seq<Chunk>>
    var relVdb: map<(Name, Name), Edge>
    var entTrack: map<Name, seq<Chunk>>
    var relTrack: map<Pair, seq<Chunk>>

    constructor ()
      ensures View() == Stores(map[], map[], map[], map[], map[], map[])
    {
      nodes, edges, entVdb := map[], map[], map[];
      relVdb, entTrack, relTrack := map[], map[], map[];
    }

    ghost function View(): Stores
      reads this
    {
      Stores(nodes, edges, entVdb, relVdb, entTrack, relTrack)
    }

    /** `get_node_edges`: the edges of one node, as seen from it, in the order of the backend. */
    method RelationsOf(a: Name) returns (rels: seq<Rel>)
      requires Simple(View())
      ensures forall r :: r in rels <==> r.0 == a && Norm(r.0, r.1) in edges
    {
      rels := [];
      var todo := set p | p in edges && (p.lo == a || p.hi == a);
      while todo != {}
        invariant forall p | p in todo :: p in edges && (p.lo == a || p.hi == a)
        invariant forall r :: r in rels <==> r.0 == a && Norm(r.0, r.1) in edges && Norm(r.0, r.1) !in todo
        decreases todo
      {
        var p :| p in todo;
        var b := if p.lo == a then p.hi else p.lo;
        assert forall x :: Norm(a, x) == p <==> x == b;
        rels := rels + [(a, b)];
        todo := todo - {p};
      }
    }

    /** Step 4: the relations of the sources and of the target, if it exists. */
    method CollectRelations(sources: seq<Name>, t: Name) returns (rels: seq<Rel>)
      requires Simple(View()) && forall n | n in sources :: n in nodes
      ensures Incident(View(), sources, t, rels)
    {
      var names := if t in nodes && t !in sources then sources + [t] else sources;
      rels := [];
      for i := 0 to |names|
        invariant forall r :: r in rels <==> r.0 in names[..i] && Norm(r.0, r.1) in edges
      {
        var more := RelationsOf(names[i]);
        assert names[..i + 1] == names[..i] + [names[i]];
        rels := rels + more;
      }
      assert names[..|names|] == names;
    }

    /** Step 6: the relation updates and the new tracking rows, relation by relation. */
    method CollapseRelations(gone: set<Name>, t: Name, rels: seq<Rel>)
      returns (updates: map<Pair, Edge>, tracks: map<Pair, seq<Chunk>>)
      requires Listed(View(), rels)
      ensures updates == Updates(View(), gone, t, rels) && tracks == Tracks(View(), gone, t, rels)
    {
      updates, tracks := map[], map[];
      for i := 0 to |rels|
        invariant updates == Updates(View(), gone, t, rels[..i])
        invariant tracks == Tracks(View(), gone, t, rels[..i])
      {
        var r := rels[i];
        assert rels[..i + 1][..i] == rels[..i] && rels[..i + 1][i] == r && r in rels;
        if Image(r.0, gone, t) != Image(r.1, gone, t) {
          var old', key := Norm(r.0, r.1), NewKey(r, gone, t);
          var chunks := if old' in relTrack then relTrack[old'] else edges[old'].sources;
          var row := AppendUnseen(if key in tracks then tracks[key] else [], chunks);
          tracks := tracks[key := row];
          updates := updates[key := if key in updates then Join(updates[key], edges[old']) else edges[old']];
        }
      }
      assert rels[..|rels|] == rels;
    }

    method UnionLists(lists: map<Name, seq<Chunk>>, names: seq<Name>) returns (union: seq<Chunk>)
      ensures union == UnionOver(lists, names)
    {
      union := [];
      for i := 0 to |names|
        invariant union == UnionOver(lists, names[..i])
      {
        assert names[..i + 1][..i] == names[..i] && names[..i + 1][i] == names[i];
        if names[i] in lists {
          union := AppendUnseen(union, lists[names[i]]);
        }
      }
      assert names[..|names|] == names;
    }

    /** Step 7: stale records go, then the new ones come, one by one; `only` bounds them when a write fails. */
    method RewriteRecords(updates: map<Pair, Edge>, rels: seq<Rel>, only: set<Pair>)
      modifies `relVdb
      ensures relVdb == old(relVdb) - StaleRecords(rels) + Records(Only(updates, only))
    {
      var chosen := Only(updates, only);
      relVdb := relVdb - StaleRecords(rels);
      WriteRecords(chosen);
    }

    method WriteRecords(chosen: map<Pair, Edge>)
      modifies `relVdb
      ensures relVdb == old(relVdb) + Records(chosen)
    {
      var todo := chosen.Keys;
      ghost var base := relVdb;
      ghost var done: set<Pair> := {};
      while todo != {}
        invariant done + todo == chosen.Keys
        invariant relVdb == base + Records(Only(chosen, done))
        decreases todo
      {
        var p :| p in todo;
        RecordsNext(base, chosen, done, p);
        relVdb := relVdb[(p.lo, p.hi) := chosen[p]];
        todo, done := todo - {p}, done + {p};
      }
      assert Only(chosen, done) == chosen;
    }

    /** Step 9: the tracking rows of the sources go, the target's row takes them in. */
    method MergeTracking(sources: seq<Name>, t: Name, known: bool)
      modifies `entTrack
      ensures entTrack == EntTracking(old(entTrack), sources, t, known)
    {
      var order := SubtractSourceIds(sources, {t});
      if known {
        order := order + [t];
      }
      assert order == TrackOrder(sources, t, known);
      var union := UnionLists(entTrack, order);
      entTrack := entTrack - (Elems(sources) - {t});
      if union != [] {
        entTrack := entTrack[t := union];
      }
    }

    /** Step 10: each source node, its edges and its vector record. */
    method DeleteSources(sources: seq<Name>, t: Name)
      modifies `nodes, `edges, `entVdb
      ensures nodes == old(nodes) - (Elems(sources) - {t}) && entVdb == old(entVdb) - (Elems(sources) - {t})
      ensures edges == map p | p in old(edges) && !Touches(p, Elems(sources) - {t}) :: old(edges)[p]
    {
      for i := 0 to |sources|
        invariant nodes == old(nodes) - (Elems(sources[..i]) - {t})
        invariant entVdb == old(entVdb) - (Elems(sources[..i]) - {t})
        invariant edges == map p | p in old(edges) && !Touches(p, Elems(sources[..i]) - {t}) :: old(edges)[p]
      {
        var n := sources[i];
        assert sources[..i + 1] == sources[..i] + [n];
        assert Elems(sources[..i + 1]) == Elems(sources[..i]) + {n};
        EdgesWithout(old(edges), Elems(sources[..i]) - {t}, n);
        if n != t {
          assert Elems(sources[..i + 1]) - {t} == Elems(sources[..i]) - {t} + {n};
          nodes := nodes - {n};
          edges := map p | p in edges && p.lo != n && p.hi != n :: edges[p];
          entVdb := entVdb - {n};
        } else {
          assert Elems(sources[..i + 1]) - {t} == Elems(sources[..i]) - {t};
        }
      }
      assert sources[..|sources|] == sources;
    }

    /**
     * `_merge_entities_impl`. A missing source is refused before anything is written; otherwise the
     * first `upTo` stages succeed, and a failing relation upsert has written the records of `part`.
     */
    method MergeEntities(sources: seq<Name>, t: Name, upTo: nat, part: set<Pair>) returns (found: bool, ghost rels: seq<Rel>)
      requires Simple(View()) && upTo <= DELETE
      modifies this
      ensures found <==> forall n | n in sources :: n in old(nodes)
      ensures !found ==> View() == old(View())
      ensures found ==> Incident(old(View()), sources, t, rels) && View() == MergedUpTo(old(View()), sources, t, rels, upTo, part)
    {
      rels := [];
      found := forall n | n in sources :: n in nodes;
      if !found { return; }
      var gone, known := Elems(sources), t in nodes;
      var union := UnionLists(nodes, sources + [t]);
      var all := CollectRelations(sources, t);
      rels := all;
      var updates, tracks := CollapseRelations(gone, t, all);
      UpdateGraph(t, union, updates, tracks, all, upTo);
      UpdateIndexes(sources, t, known, union, updates, all, upTo, part);
      if upTo >= DELETE {
        DeleteSources(sources, t);
      }
    }

    /** Steps 5 and 6: the graph first, then relation tracking. */
    method UpdateGraph(t: Name, union: seq<Chunk>, updates: map<Pair, Edge>, tracks: map<Pair, seq<Chunk>>, rels: seq<Rel>, upTo: nat)
      modifies `nodes, `edges, `relTrack
      ensures nodes == if upTo >= NODE then old(nodes)[t := union] else old(nodes)
      ensures edges == if upTo >= EDGES then old(edges) + updates else old(edges)
      ensures relTrack == if upTo >= TRACK then old(relTrack) - OldKeys(rels) + tracks
                          else if upTo >= UNTRACK then old(relTrack) - OldKeys(rels) else old(relTrack)
    {
      if upTo < NODE { return; }
      nodes := nodes[t := union];
      if upTo < EDGES { return; }
      edges := edges + updates;
      if upTo < UNTRACK { return; }
      relTrack := relTrack - OldKeys(rels);
      if upTo < TRACK { return; }
      relTrack := relTrack + tracks;
    }

    /** Steps 7 to 9: the vector indexes, then entity tracking. */
    method UpdateIndexes(sources: seq<Name>, t: Name, known: bool, union: seq<Chunk>, updates: map<Pair, Edge>, rels: seq<Rel>, upTo: nat, part: set<Pair>)
      modifies `relVdb, `entVdb, `entTrack
      ensures relVdb == if upTo < REL_DELETE then old(relVdb)
                        else old(relVdb) - StaleRecords(rels) + if upTo == REL_DELETE then Records(Only(updates, part)) else Records(updates)
      ensures entVdb == if upTo >= ENT_UPSERT then old(entVdb)[t := union] else old(entVdb)
      ensures entTrack == if upTo >= ENT_TRACK then EntTracking(old(entTrack), sources, t, known) else old(entTrack)
    {
      if upTo < REL_DELETE { return; }
      assert Only(updates, updates.Keys) == updates;
      RewriteRecords(updates, rels, if upTo == REL_DELETE then part else updates.Keys);
      if upTo < ENT_UPSERT { return; }
      entVdb := entVdb[t := union];
      if upTo < ENT_TRACK { return; }
      MergeTracking(sources, t, known);
    }
  }

  lemma EdgesWithout(edges: map<Pair, Edge>, gone: set<Name>, n: Name)
    ensures var kept := map p | p in edges && !Touches(p, gone) :: edges[p];
            (map p | p in kept && p.lo != n && p.hi != n :: kept[p]) == map p | p in edges && !Touches(p, gone + {n}) :: edges[p]
  {
  }

  lemma RecordsOfMore(updates: map<Pair, Edge>, p: Pair, e: Edge)
    ensures Records(updates[p := e]) == Records(updates)[(p.lo, p.hi) := e]
  {
  }

  lemma RecordsNext(base: map<(Name, Name), Edge>, updates: map<Pair, Edge>, done: set<Pair>, p: Pair)
    requires p in updates
    ensures base + Records(Only(updates, done + {p})) == (base + Records(Only(updates, done)))[(p.lo, p.hi) := updates[p]]
  {
    var a, b := Only(updates, done + {p}), Only(updates, done);
    assert a == b[p := updates[p]];
    RecordsOfMore(b, p, updates[p]);
  }
}
