/**
 * Relation tracking of an entity merge that fails and is run again. The second run finds the rows of the collapsed
 * edges as the first one left them, and lets the graph's own lists stand in where there is none.
 */
module MergeRetry {
  import opened Sources
  import opened EntityMerge

  /** The tracked chunks of the edges from `ys` to `x`. */
  function RowIds(s: Stores, ys: set<Name>, x: Name): set<Chunk> {
    set y, c | y in ys && Norm(y, x) in s.edges && c in TrackedOf(s, (y, x)) :: c
  }

  /** What the graph's own lists of these edges hold; under a source limit they are shorter than the rows. */
  function ListIds(s: Stores, ys: set<Name>, x: Name): set<Chunk> {
    set y, c | y in ys && Norm(y, x) in s.edges && c in s.edges[Norm(y, x)].sources :: c
  }

  ghost predicate SameIds(a: map<Pair, seq<Chunk>>, b: map<Pair, seq<Chunk>>, p: Pair) {
    (p in a <==> p in b) && (p in a ==> Elems(a[p]) == Elems(b[p]))
  }

  /** What the second run counts for the target's own edge, where the first one stopped behind stage `k`. */
  function TargetIds(s: Stores, cls: set<Name>, t: Name, k: nat, p: Pair): set<Chunk> {
    var x := Other(p, t);
    var ys := Adjacent(s, cls, x);
    if k >= TRACK then RowIds(s, ys, x)
    else if p in s.relTrack && !(k == UNTRACK && t in ys) then Elems(s.relTrack[p])
    else ListIds(s, ys, x)
  }

  /** What the second run counts for the merged edge. */
  function RetriedIds(s: Stores, cls: set<Name>, t: Name, k: nat, p: Pair): set<Chunk> {
    var x := Other(p, t);
    var ys := Adjacent(s, cls, x);
    if k < EDGES then RowIds(s, ys, x)
    else (if k < UNTRACK then RowIds(s, ys - {t}, x) else ListIds(s, ys - {t}, x)) + TargetIds(s, cls, t, k, p)
  }

  /**
   * The stand-ins agree with the rows. Up to the rewritten edges there are none. With the edges rewritten, one
   * stands in for the target's edge where it has no row; it must lie within the rows. With the old rows deleted,
   * the lists of all collapsed edges stand in, and must hold exactly what the rows held, together with a row
   * left over for a pair that was no edge. With the new rows written, the lists of the sources' edges count
   * besides them, and must lie within the rows.
   */
  ghost predicate StandInsAgree(s: Stores, cls: set<Name>, t: Name, k: nat, p: Pair) {
    var x := Other(p, t);
    var ys := Adjacent(s, cls, x);
    if k < EDGES then true
    else if k < UNTRACK then (if p in s.relTrack then Elems(s.relTrack[p]) else ListIds(s, ys, x)) <= RowIds(s, ys, x)
    else if k == UNTRACK then
      ListIds(s, ys, x) + (if t !in ys && p in s.relTrack then Elems(s.relTrack[p]) else {}) == RowIds(s, ys, x)
    else ListIds(s, ys - {t}, x) <= RowIds(s, ys, x)
  }

  lemma {:induction false} AlongIds(s: Stores, rels: seq<Rel>, x: Name)
    requires Listed(s, rels)
    ensures Elems(TrackedAlong(s, rels, x)) == RowIds(s, SeenFrom(rels, x), x)
  {
    if rels != [] {
      var init, r := rels[..|rels| - 1], rels[|rels| - 1];
      assert rels == init + [r] && r in rels;
      AlongIds(s, init, x);
      SeenGrows(init, r, x);
      if r.1 == x {
        assert Elems(TrackedAlong(s, rels, x)) == Elems(TrackedAlong(s, init, x)) + Elems(TrackedOf(s, r));
        MoreRowIds(s, SeenFrom(init, x), r.0, x);
      } else {
        assert TrackedAlong(s, rels, x) == TrackedAlong(s, init, x);
        assert SeenFrom(rels, x) == SeenFrom(init, x);
      }
    }
  }

  lemma MoreRowIds(s: Stores, ys: set<Name>, y: Name, x: Name)
    requires Norm(y, x) in s.edges
    ensures RowIds(s, ys + {y}, x) == RowIds(s, ys, x) + Elems(TrackedOf(s, (y, x)))
  {
    forall c | c in RowIds(s, ys, x) + Elems(TrackedOf(s, (y, x)))
      ensures c in RowIds(s, ys + {y}, x)
    {
      if c in RowIds(s, ys, x) {
        var z :| z in ys && Norm(z, x) in s.edges && c in TrackedOf(s, (z, x));
        assert z in ys + {y};
      } else {
        assert y in ys + {y};
      }
    }
  }

  /** The ids of the row that a merge writes. */
  lemma MergedRowIds(s: Stores, sources: seq<Name>, t: Name, rels: seq<Rel>, p: Pair)
    requires Simple(s) && Incident(s, sources, t, rels)
    requires Outward(p, Class(sources, t), t) && Adjacent(s, Class(sources, t), Other(p, t)) != {}
    ensures var rows := Merged(s, sources, t, rels).relTrack;
            p in rows && Elems(rows[p]) == RowIds(s, Adjacent(s, Class(sources, t), Other(p, t)), Other(p, t))
  {
    var x := Other(p, t);
    SeenIsAdjacent(s, sources, t, rels, x);
    RowAt(s, sources, t, rels, p);
    AlongIds(s, rels, x);
    AppendNewElems([], TrackedAlong(s, rels, x));
  }

  /** The edge's tracking row records the chunk; of an edge without a row, its list in the graph does. */
  predicate OnRecord(s: Stores, p: Pair, c: Chunk) {
    if p in s.relTrack then c in s.relTrack[p] else p in s.edges && c in s.edges[p].sources
  }

  /** The row of a merged edge: exactly what is on record of the edges that collapse into it, each id once. */
  lemma MergedRowRecords(s: Stores, sources: seq<Name>, t: Name, rels: seq<Rel>, p: Pair, c: Chunk)
    requires Simple(s) && Incident(s, sources, t, rels)
    requires Outward(p, Class(sources, t), t) && Adjacent(s, Class(sources, t), Other(p, t)) != {}
    ensures var rows := Merged(s, sources, t, rels).relTrack;
            && p in rows && Distinct(rows[p])
            && (c in rows[p] <==> exists y | y in Class(sources, t) && Norm(y, Other(p, t)) in s.edges :: OnRecord(s, Norm(y, Other(p, t)), c))
  {
    var x, rows := Other(p, t), Merged(s, sources, t, rels).relTrack;
    MergedRowIds(s, sources, t, rels, p);
    RowAt(s, sources, t, rels, p);
    AppendNewDistinct([], TrackedAlong(s, rels, x));
    assert c in rows[p] <==> c in Elems(rows[p]);
    RowIdsAre(s, Class(sources, t), x, c);
  }

  lemma RowIdsAre(s: Stores, cls: set<Name>, x: Name, c: Chunk)
    ensures c in RowIds(s, Adjacent(s, cls, x), x) <==> exists y | y in cls && Norm(y, x) in s.edges :: OnRecord(s, Norm(y, x), c)
  {
    forall y | y in cls && Norm(y, x) in s.edges
      ensures c in TrackedOf(s, (y, x)) <==> OnRecord(s, Norm(y, x), c)
    {
    }
    if y :| y in cls && Norm(y, x) in s.edges && OnRecord(s, Norm(y, x), c) {
      assert y in Adjacent(s, cls, x) && c in TrackedOf(s, (y, x));
    }
  }

  // ---------------------------------------------------------------- what the second run finds

  /** Which pair from the class to an outsider is written by the first run. */
  lemma WrittenPair(s: Stores, sources: seq<Name>, t: Name, rels: seq<Rel>, y: Name, x: Name)
    requires Simple(s) && Incident(s, sources, t, rels) && y in Class(sources, t) && x !in Class(sources, t)
    ensures var u, ys := Updates(s, Elems(sources), t, rels), Adjacent(s, Class(sources, t), x);
            && (Norm(y, x) in u <==> y == t && ys != {})
            && (Norm(y, x) in u ==> Elems(u[Norm(y, x)].sources) == ListIds(s, ys, x))
  {
    var q := Norm(y, x);
    UpdateAt(s, sources, t, rels, q);
    SeenIsAdjacent(s, sources, t, rels, Other(q, t));
    if q in Updates(s, Elems(sources), t, rels) {
      CollapsedIds(s, Adjacent(s, Class(sources, t), x), x, Updates(s, Elems(sources), t, rels)[q]);
    }
  }

  lemma CollapsedIds(s: Stores, ys: set<Name>, x: Name, e: Edge)
    requires (forall y | y in ys :: Norm(y, x) in s.edges) && Collapses(s, ys, x, e)
    ensures Elems(e.sources) == ListIds(s, ys, x)
  {
    forall c | c in ListIds(s, ys, x)
      ensures c in Elems(e.sources)
    {
      var y :| y in ys && Norm(y, x) in s.edges && c in s.edges[Norm(y, x)].sources;
      assert c in Elems(s.edges[Norm(y, x)].sources);
    }
    forall c | c in Elems(e.sources)
      ensures c in ListIds(s, ys, x)
    {
      assert c in e.sources;
    }
  }

  lemma EdgeFound(s: Stores, sources: seq<Name>, t: Name, rels: seq<Rel>, k: nat, part: set<Pair>, y: Name, x: Name)
    requires Simple(s) && Incident(s, sources, t, rels) && k < DELETE && y in Class(sources, t) && x !in Class(sources, t)
    ensures var m, ys, q := MergedUpTo(s, sources, t, rels, k, part), Adjacent(s, Class(sources, t), x), Norm(y, x);
            var rewritten := k >= EDGES && y == t && ys != {};
            && (q in m.edges <==> q in s.edges || rewritten)
            && (q in m.edges ==> Elems(m.edges[q].sources) == if rewritten then ListIds(s, ys, x) else Elems(s.edges[q].sources))
  {
    EdgesMidway(s, sources, t, rels, k, part, Norm(y, x));
    WrittenPair(s, sources, t, rels, y, x);
  }

  lemma RowFound(s: Stores, sources: seq<Name>, t: Name, rels: seq<Rel>, k: nat, part: set<Pair>, y: Name, x: Name)
    requires Simple(s) && Incident(s, sources, t, rels) && k < DELETE && y in Class(sources, t) && x !in Class(sources, t)
    ensures var m, ys, q := MergedUpTo(s, sources, t, rels, k, part), Adjacent(s, Class(sources, t), x), Norm(y, x);
            var rewritten := k >= TRACK && y == t && ys != {};
            && (q in m.relTrack <==> rewritten || (q in s.relTrack && (k < UNTRACK || q !in s.edges)))
            && (q in m.relTrack ==> Elems(m.relTrack[q]) == if rewritten then RowIds(s, ys, x) else Elems(s.relTrack[q]))
  {
    var q := Norm(y, x);
    OldKeysOfClass(s, sources, t, rels, q);
    TrackAt(s, sources, t, rels, q);
    SeenIsAdjacent(s, sources, t, rels, Other(q, t));
    if y == t {
      AlongIds(s, rels, x);
      AppendNewElems([], TrackedAlong(s, rels, x));
    }
  }

  /** What the second run counts for one edge of the class. */
  lemma CountFound(s: Stores, sources: seq<Name>, t: Name, rels: seq<Rel>, k: nat, part: set<Pair>, y: Name, x: Name)
    requires Simple(s) && Incident(s, sources, t, rels) && EDGES <= k < DELETE && y in Class(sources, t) && x !in Class(sources, t)
    requires Adjacent(s, Class(sources, t), x) != {} && Norm(y, x) in MergedUpTo(s, sources, t, rels, k, part).edges
    ensures y != t ==> Norm(y, x) in s.edges
    ensures var m := MergedUpTo(s, sources, t, rels, k, part);
            Elems(TrackedOf(m, (y, x)))
              == if y == t then TargetIds(s, Class(sources, t), t, k, Norm(t, x))
                 else if k < UNTRACK then Elems(TrackedOf(s, (y, x))) else Elems(s.edges[Norm(y, x)].sources)
  {
    EdgeFound(s, sources, t, rels, k, part, y, x);
    RowFound(s, sources, t, rels, k, part, y, x);
    assert Other(Norm(t, x), t) == x;
  }

  lemma AdjacentFound(s: Stores, sources: seq<Name>, t: Name, rels: seq<Rel>, k: nat, part: set<Pair>, x: Name)
    requires Simple(s) && Incident(s, sources, t, rels) && k < DELETE && x !in Class(sources, t)
    ensures var m, ys := MergedUpTo(s, sources, t, rels, k, part), Adjacent(s, Class(sources, t), x);
            Adjacent(m, Class(sources, t), x) == ys + if k >= EDGES && ys != {} then {t} else {}
  {
    var m, cls := MergedUpTo(s, sources, t, rels, k, part), Class(sources, t);
    forall y | y in cls
      ensures y in Adjacent(m, cls, x) <==> y in Adjacent(s, cls, x) || (k >= EDGES && Adjacent(s, cls, x) != {} && y == t)
    {
      EdgeFound(s, sources, t, rels, k, part, y, x);
    }
  }

  /** The second run counts, for the merged edge, what is said to be found. */
  lemma FoundIds(s: Stores, sources: seq<Name>, t: Name, rels: seq<Rel>, k: nat, part: set<Pair>, x: Name)
    requires Simple(s) && Incident(s, sources, t, rels) && EDGES <= k < DELETE && x !in Class(sources, t)
    requires Adjacent(s, Class(sources, t), x) != {}
    ensures var m, cls := MergedUpTo(s, sources, t, rels, k, part), Class(sources, t);
            RowIds(m, Adjacent(m, cls, x), x) == RetriedIds(s, cls, t, k, Norm(t, x))
  {
    var m, cls := MergedUpTo(s, sources, t, rels, k, part), Class(sources, t);
    var ys, found := Adjacent(s, cls, x), RetriedIds(s, cls, t, k, Norm(t, x));
    AdjacentFound(s, sources, t, rels, k, part, x);
    assert Other(Norm(t, x), t) == x;
    forall c | c in RowIds(m, Adjacent(m, cls, x), x)
      ensures c in found
    {
      var y :| y in Adjacent(m, cls, x) && Norm(y, x) in m.edges && c in TrackedOf(m, (y, x));
      CountFound(s, sources, t, rels, k, part, y, x);
      assert c in Elems(TrackedOf(m, (y, x)));
      assert y != t ==> y in ys - {t};
    }
    forall c | c in found
      ensures c in RowIds(m, Adjacent(m, cls, x), x)
    {
      if c in TargetIds(s, cls, t, k, Norm(t, x)) {
        CountFound(s, sources, t, rels, k, part, t, x);
        assert t in Adjacent(m, cls, x) && c in Elems(TrackedOf(m, (t, x)));
      } else if k < UNTRACK {
        var y :| y in ys - {t} && Norm(y, x) in s.edges && c in TrackedOf(s, (y, x));
        CountFound(s, sources, t, rels, k, part, y, x);
        assert y in Adjacent(m, cls, x) && c in Elems(TrackedOf(m, (y, x)));
      } else {
        var y :| y in ys - {t} && Norm(y, x) in s.edges && c in s.edges[Norm(y, x)].sources;
        CountFound(s, sources, t, rels, k, part, y, x);
        assert y in Adjacent(m, cls, x) && c in Elems(TrackedOf(m, (y, x)));
      }
    }
  }

  lemma NothingStandsIn(s: Stores, sources: seq<Name>, t: Name, rels: seq<Rel>, k: nat, part: set<Pair>, x: Name)
    requires Simple(s) && Incident(s, sources, t, rels) && k < EDGES && x !in Class(sources, t)
    ensures var m, cls := MergedUpTo(s, sources, t, rels, k, part), Class(sources, t);
            RowIds(m, Adjacent(m, cls, x), x) == RowIds(s, Adjacent(s, cls, x), x)
  {
    var m, cls := MergedUpTo(s, sources, t, rels, k, part), Class(sources, t);
    assert m.edges == s.edges && m.relTrack == s.relTrack;
    assert Adjacent(m, cls, x) == Adjacent(s, cls, x);
    forall y | Norm(y, x) in s.edges
      ensures TrackedOf(m, (y, x)) == TrackedOf(s, (y, x))
    {
    }
  }

  /** The condition says that nothing is missing and nothing is added. */
  lemma AgreeMeansSame(s: Stores, cls: set<Name>, t: Name, k: nat, p: Pair)
    requires Outward(p, cls, t) && Adjacent(s, cls, Other(p, t)) != {}
    ensures RetriedIds(s, cls, t, k, p) == RowIds(s, Adjacent(s, cls, Other(p, t)), Other(p, t)) <==> StandInsAgree(s, cls, t, k, p)
  {
    var x := Other(p, t);
    var ys := Adjacent(s, cls, x);
    var others := ys - {t};
    if t in ys {
      assert ys == others + {t};
      MoreRowIds(s, others, t, x);
      MoreListIds(s, others, t, x);
    } else {
      assert others == ys;
    }
  }

  lemma MoreListIds(s: Stores, ys: set<Name>, y: Name, x: Name)
    requires Norm(y, x) in s.edges
    ensures ListIds(s, ys + {y}, x) == ListIds(s, ys, x) + Elems(s.edges[Norm(y, x)].sources)
  {
    forall c | c in ListIds(s, ys, x) + Elems(s.edges[Norm(y, x)].sources)
      ensures c in ListIds(s, ys + {y}, x)
    {
      if c in ListIds(s, ys, x) {
        var z :| z in ys && Norm(z, x) in s.edges && c in s.edges[Norm(z, x)].sources;
        assert z in ys + {y};
      } else {
        assert y in ys + {y};
      }
    }
  }

  // ---------------------------------------------------------------- the second run

  lemma StillSimple(s: Stores, sources: seq<Name>, t: Name, rels: seq<Rel>, k: nat, part: set<Pair>)
    requires Simple(s) && Incident(s, sources, t, rels) && k < DELETE
    ensures Simple(MergedUpTo(s, sources, t, rels, k, part))
  {
    var m := MergedUpTo(s, sources, t, rels, k, part);
    forall p | p in m.edges
      ensures p.lo < p.hi && p.lo in m.nodes && p.hi in m.nodes
    {
      EdgeMidway(s, sources, t, rels, k, part, p);
    }
  }

  /** A pair that the first run does not write. */
  lemma UnwrittenPair(s: Stores, sources: seq<Name>, t: Name, rels: seq<Rel>, k: nat, part: set<Pair>, p: Pair)
    requires Simple(s) && Incident(s, sources, t, rels) && k < DELETE
    requires !(Outward(p, Class(sources, t), t) && Adjacent(s, Class(sources, t), Other(p, t)) != {})
    ensures var m := MergedUpTo(s, sources, t, rels, k, part);
            && (p in m.edges <==> p in s.edges)
            && (p in m.relTrack <==> p in s.relTrack && (k < UNTRACK || !(p in s.edges && Touches(p, Class(sources, t)))))
            && (p in m.relTrack ==> m.relTrack[p] == s.relTrack[p])
  {
    SeenIsAdjacent(s, sources, t, rels, Other(p, t));
    EdgesMidway(s, sources, t, rels, k, part, p);
    UpdateAt(s, sources, t, rels, p);
    OldKeysOfClass(s, sources, t, rels, p);
    TrackAt(s, sources, t, rels, p);
  }

  /** And whose row the merge leaves, unless the pair is an edge of the class. */
  lemma UnwrittenRow(s: Stores, sources: seq<Name>, t: Name, rels: seq<Rel>, p: Pair)
    requires Simple(s) && Incident(s, sources, t, rels)
    requires !(Outward(p, Class(sources, t), t) && Adjacent(s, Class(sources, t), Other(p, t)) != {})
    ensures var rows := Merged(s, sources, t, rels).relTrack;
            && (p in rows <==> p in s.relTrack && !(p in s.edges && Touches(p, Class(sources, t))))
            && (p in rows ==> rows[p] == s.relTrack[p])
  {
    SeenIsAdjacent(s, sources, t, rels, Other(p, t));
    RowAt(s, sources, t, rels, p);
  }

  /** A pair that is no merged edge has the same row after both. */
  lemma OtherRows(s: Stores, sources: seq<Name>, t: Name, rels: seq<Rel>, again: seq<Rel>, k: nat, part: set<Pair>, p: Pair)
    requires Simple(s) && Incident(s, sources, t, rels) && k < DELETE
    requires Incident(MergedUpTo(s, sources, t, rels, k, part), sources, t, again)
    requires !(Outward(p, Class(sources, t), t) && Adjacent(s, Class(sources, t), Other(p, t)) != {})
    ensures SameIds(Merged(MergedUpTo(s, sources, t, rels, k, part), sources, t, again).relTrack, Merged(s, sources, t, rels).relTrack, p)
  {
    StillSimple(s, sources, t, rels, k, part);
    if Outward(p, Class(sources, t), t) {
      AdjacentFound(s, sources, t, rels, k, part, Other(p, t));
    }
    UnwrittenPair(s, sources, t, rels, k, part, p);
    UnwrittenRow(s, sources, t, rels, p);
    UnwrittenRow(MergedUpTo(s, sources, t, rels, k, part), sources, t, again, p);
  }

  lemma MergedRow(s: Stores, sources: seq<Name>, t: Name, rels: seq<Rel>, again: seq<Rel>, k: nat, part: set<Pair>, p: Pair)
    requires Simple(s) && Incident(s, sources, t, rels) && k < DELETE
    requires Incident(MergedUpTo(s, sources, t, rels, k, part), sources, t, again)
    requires Outward(p, Class(sources, t), t) && Adjacent(s, Class(sources, t), Other(p, t)) != {}
    ensures SameIds(Merged(MergedUpTo(s, sources, t, rels, k, part), sources, t, again).relTrack, Merged(s, sources, t, rels).relTrack, p)
       <==> StandInsAgree(s, Class(sources, t), t, k, p)
  {
    var m, x := MergedUpTo(s, sources, t, rels, k, part), Other(p, t);
    StillSimple(s, sources, t, rels, k, part);
    AdjacentFound(s, sources, t, rels, k, part, x);
    MergedRowIds(s, sources, t, rels, p);
    MergedRowIds(m, sources, t, again, p);
    if k < EDGES {
      NothingStandsIn(s, sources, t, rels, k, part, x);
    } else {
      FoundIds(s, sources, t, rels, k, part, x);
      AgreeMeansSame(s, Class(sources, t), t, k, p);
    }
  }

  lemma MergedPair(s: Stores, sources: seq<Name>, t: Name, rels: seq<Rel>, p: Pair)
    requires Simple(s) && Incident(s, sources, t, rels)
    ensures Touches(p, Class(sources, t)) && p in Merged(s, sources, t, rels).edges
       <==> Outward(p, Class(sources, t), t) && Adjacent(s, Class(sources, t), Other(p, t)) != {}
  {
    MergeIsQuotient(s, sources, t, rels, p);
    assert Outward(p, Class(sources, t), t) ==> Touches(p, Class(sources, t));
  }

  /**
   * Relation tracking of a merge that failed and is run again has, for every pair, the ids of a merge that never
   * failed, exactly where the stand-ins agree with the rows; a pair that is no merged edge has them anyway.
   */
  lemma RetriedRelationTracking(s: Stores, sources: seq<Name>, t: Name, rels: seq<Rel>, again: seq<Rel>, k: nat, part: set<Pair>, p: Pair)
    requires Simple(s) && Incident(s, sources, t, rels) && k < DELETE
    requires Incident(MergedUpTo(s, sources, t, rels, k, part), sources, t, again)
    ensures var a, b := Merged(MergedUpTo(s, sources, t, rels, k, part), sources, t, again), Merged(s, sources, t, rels);
            (SameIds(a.relTrack, b.relTrack, p)
             <==> (Touches(p, Class(sources, t)) && p in b.edges ==> StandInsAgree(s, Class(sources, t), t, k, p)))
  {
    MergedPair(s, sources, t, rels, p);
    if Outward(p, Class(sources, t), t) && Adjacent(s, Class(sources, t), Other(p, t)) != {} {
      MergedRow(s, sources, t, rels, again, k, part, p);
    } else {
      OtherRows(s, sources, t, rels, again, k, part, p);
    }
  }

  // ---------------------------------------------------------------- a retry that loses an id

  const EDGE := Pair(1, 3)
  const MOVED := Pair(2, 3)

  /** The graph lists two sources of the edge, its limit; the tracking row has a third. */
  const FULL := Stores(map[1 := [10], 2 := [20], 3 := [10]], map[EDGE := Edge([10, 20], 1.0)], map[], map[],
                       map[], map[EDGE := [10, 20, 30]])

  const FIRST: seq<Rel> := [(1, 3)]
  const AGAIN: seq<Rel> := [(1, 3), (2, 3)]

  lemma FirstIsIncident()
    ensures Simple(FULL) && Incident(FULL, [1], 2, FIRST)
    ensures Class([1], 2) == {1, 2} && Adjacent(FULL, {1, 2}, 3) == {1} && Outward(MOVED, {1, 2}, 2) && Other(MOVED, 2) == 3
  {
    assert Norm(1, 3) == EDGE;
    assert FIRST[0] in FIRST && forall r | r in FIRST :: r == (1, 3);
    forall a, b | a in Class([1], 2) && Norm(a, b) in FULL.edges
      ensures (a, b) in FIRST
    {
      assert Norm(a, b) == EDGE;
    }
  }

  /** What the second run finds: the old edge, and the rewritten one. */
  lemma AgainIsIncident(part: set<Pair>)
    ensures Incident(FULL, [1], 2, FIRST) && Incident(MergedUpTo(FULL, [1], 2, FIRST, UNTRACK, part), [1], 2, AGAIN)
  {
    FirstIsIncident();
    var m := MergedUpTo(FULL, [1], 2, FIRST, UNTRACK, part);
    assert AGAIN[0] in AGAIN && AGAIN[1] in AGAIN && forall r | r in AGAIN :: r == (1, 3) || r == (2, 3);
    EdgeFound(FULL, [1], 2, FIRST, UNTRACK, part, 1, 3);
    EdgeFound(FULL, [1], 2, FIRST, UNTRACK, part, 2, 3);
    forall a, b | a in Class([1], 2) && Norm(a, b) in m.edges
      ensures (a, b) in AGAIN
    {
      EdgesMidway(FULL, [1], 2, FIRST, UNTRACK, part, Norm(a, b));
      UpdateAt(FULL, [1], 2, FIRST, Norm(a, b));
      assert SeenFrom(FIRST, Other(Norm(a, b), 2)) != {} ==> Other(Norm(a, b), 2) == 3;
    }
  }

  lemma ThirdIsOnlyTracked()
    ensures 30 in RowIds(FULL, {1}, 3) && 30 !in RetriedIds(FULL, {1, 2}, 2, UNTRACK, MOVED)
  {
    FirstIsIncident();
    assert Norm(1, 3) == EDGE && 30 in FULL.relTrack[EDGE] && 1 in {1};
    assert 30 in TrackedOf(FULL, (1, 3));
    assert 30 !in ListIds(FULL, {1}, 3) && {1} - {2} == {1};
    assert MOVED !in FULL.relTrack;
  }

  /** "1" is merged into "2": stopped behind the deletion of the old row and run again, the new row lacks an id. */
  lemma RetryMayLoseTracking(part: set<Pair>)
    ensures Incident(FULL, [1], 2, FIRST) && Incident(MergedUpTo(FULL, [1], 2, FIRST, UNTRACK, part), [1], 2, AGAIN)
    ensures var a, b := Merged(MergedUpTo(FULL, [1], 2, FIRST, UNTRACK, part), [1], 2, AGAIN), Merged(FULL, [1], 2, FIRST);
            MOVED in a.relTrack && MOVED in b.relTrack && 30 !in Elems(a.relTrack[MOVED]) && 30 in Elems(b.relTrack[MOVED])
  {
    FirstIsIncident();
    AgainIsIncident(part);
    ThirdIsOnlyTracked();
    var m := MergedUpTo(FULL, [1], 2, FIRST, UNTRACK, part);
    StillSimple(FULL, [1], 2, FIRST, UNTRACK, part);
    AdjacentFound(FULL, [1], 2, FIRST, UNTRACK, part, 3);
    MergedRowIds(FULL, [1], 2, FIRST, MOVED);
    MergedRowIds(m, [1], 2, AGAIN, MOVED);
    FoundIds(FULL, [1], 2, FIRST, UNTRACK, part, 3);
    assert Norm(2, 3) == MOVED;
  }
}
