/**
 * A store that keeps the coverage invariant and on which the order of two rollbacks shows. The relation was made by
 * one unfinished document; it was full when the other document committed a chunk to it, so its ends took in nothing
 * of that. Undoing the first takes the ends away, and the relation with them.
 */
module DividedSweep {
  import opened Basics
  import opened Sources
  import opened Stores
  import opened Purge
  import opened Merging
  import opened CustomChunks
  import opened Coverage
  import opened SweptStores

  const P := ChunkId("p", "p")
  const X := ChunkId("d", "x")
  const Y := ChunkId("d", "y")
  const AB: set<Name> := {"a", "b"}
  const EDGE := Relation(AB)
  const NEAR := Entity("a")
  const FAR := Entity("b")
  const ALL: set<Candidate> := {EDGE, NEAR, FAR}

  /** Every chunk mentions the relation. */
  function Found(ch: ChunkId): Extraction {
    Extraction({}, {AB})
  }

  const MAKING := Journal([P], Create, [P], ALL, Interrupted)
  const PATCHING := Journal([Y], Patch, [Y], ALL, Interrupted)

  const STORE := Store(
    map["p" := Row(Failed, [], Some(MAKING)), "d" := Row(Failed, [X], Some(PATCHING))], {"p", "d"}, {P, X, Y},
    map["p" := ALL, "d" := ALL],
    map[EDGE := [P, X, Y], NEAR := [P], FAR := [P]],
    map[EDGE := [P], NEAR := [P], FAR := [P]],
    map[EDGE := [P], NEAR := [P], FAR := [P]], 1, false)

  lemma Recorded(c: Candidate, ch: ChunkId)
    ensures Holds(STORE, c, ch) <==> (c in ALL && ch == P) || (c == EDGE && (ch == X || ch == Y))
  {
    assert EDGE != NEAR && EDGE != FAR && NEAR != FAR;
  }

  lemma CandidatesAre(ch: ChunkId)
    ensures CandidatesOf(Found, [ch]) == ALL
  {
    assert AB in Found(ch).edges && ch in [ch];
    forall c
      ensures c in CandidatesOf(Found, [ch]) <==> c in ALL
    {
      assert c in Touched(Found(ch)) <==> c in ALL;
    }
  }

  lemma PatchIsSound()
    ensures JournalSound("d", [X], PATCHING, Found)
  {
    assert Unseen([Y], set ch | ch in [X] :: ch.text) == [Y] by {
      var known := set ch | ch in [X] :: ch.text;
      assert Y.text !in known;
      assert (set ch | ch in [Y] && ch.text in known) == {};
      SubtractNothing([Y], {});
    }
    CandidatesAre(Y);
  }

  lemma StoreIsCovered()
    ensures Covered(Sys(STORE, None), Found)
  {
    forall c, ch | Holds(STORE, c, ch)
      ensures ch in STORE.OwnedChunks(ch.doc) && c in ALL
    {
      Recorded(c, ch);
      assert P in [P] && X in [X] && Y in [Y];
    }
    PatchIsSound();
    CandidatesAre(P);
    assert RowSound(STORE, "p", Found);
    assert RowSound(STORE, "d", Found);
  }

  lemma RelationIsDivided()
    ensures Sound(STORE) && Divided(STORE, "d", EDGE)
  {
    StoreIsCovered();
    CoveredIsSound(STORE, Found);
    assert X in [P, X, Y] && X in [X] && X !in [Y];
    assert X in Elems(STORE.Tracked(EDGE)) && X in Own(STORE, "d");
    OwnRollbackSpares();
    BothTakeEnds();
  }

  lemma OwnRollbackSpares()
    ensures !Emptied(STORE, Elems([Y]), EDGE)
  {
    SubtractElems([P, X, Y], Elems([Y]));
    SubtractNothing([P], Elems([Y]));
    assert P in [P, X, Y] && P !in [Y] && P in Elems(Subtract([P, X, Y], Elems([Y])));
    assert STORE.Tracked(EDGE) == [P, X, Y] && STORE.Tracked(NEAR) == [P] && STORE.Tracked(FAR) == [P];
    forall n | n in AB
      ensures Subtract(STORE.Tracked(Entity(n)), Elems([Y])) != []
    {
      assert Entity(n) == NEAR || Entity(n) == FAR;
    }
  }

  lemma BothTakeEnds()
    ensures !Alive(STORE, EDGE)
  {
    assert P in MAKING.chunks && "p" in STORE.rows;
    assert P in Staged(STORE);
    SubtractAll([P], Staged(STORE));
    assert "a" in EDGE.ends && NEAR in STORE.graph && Rest(STORE, NEAR) == [];
  }

  /** Rolled back first, the document keeps its anchor on the relation; rolled back second, it does not. */
  lemma OrderMayShow()
    ensures Covered(Sys(STORE, None), Found)
    ensures Done(TriedAll(STORE, Full(["d", "p"]))) && Done(TriedAll(STORE, Full(["p", "d"])))
    ensures EDGE in TriedAll(STORE, Full(["d", "p"])).AnchorsOf("d")
    ensures EDGE !in TriedAll(STORE, Full(["p", "d"])).AnchorsOf("d")
  {
    StoreIsCovered();
    RelationIsDivided();
    assert ["d"] + ["p"] == ["d", "p"] && ["p"] + ["d"] == ["p", "d"];
    FirstKeepsAnchor(STORE, "d", EDGE, ["p"]);
    LastLosesAnchor(STORE, "d", EDGE, ["p"]);
    FullSweepEnds(STORE, ["d", "p"]);
    FullSweepEnds(STORE, ["p", "d"]);
  }
}
