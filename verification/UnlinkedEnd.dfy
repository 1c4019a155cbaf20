/**
 * A run at whose end a patch rollback unlinks an end. The graph keeps one source per object. One document extracts
 * two entities; a second one relates them, which fills the relation; a third one commits a chunk that mentions only
 * the relation, which tracks it beyond the limit without passing it on to its ends. The second document is deleted,
 * and a patch of the third one that mentions an end is interrupted.
 */
module UnlinkedEnd {
  import opened Basics
  import opened Sources
  import opened Stores
  import opened Purge
  import opened Merging
  import opened CustomChunks
  import opened Coverage
  import opened DeletionCoverage
  import opened DeletionGuards
  import D = Deletion

  const Z := ChunkId("e", "z")
  const G := ChunkId("g", "g")
  const X := ChunkId("d", "x")
  const P := ChunkId("d", "p")
  const AB: set<Name> := {"a", "b"}
  const EDGE := Relation(AB)
  const NEAR := Entity("a")
  const FAR := Entity("b")
  const ALL: set<Candidate> := {EDGE, NEAR, FAR}

  function Found(ch: ChunkId): Extraction {
    if ch == Z then Extraction({"a", "b"}, {})
    else if ch == G || ch == X then Extraction({}, {AB})
    else if ch == P then Extraction({"a"}, {})
    else Extraction({}, {})
  }

  // ---------------------------------------------------------------- a document of one chunk

  function MergeEach(s: Store, ms: seq<Merge>, ch: ChunkId): Store
    decreases |ms|
  {
    if ms == [] then s else MergeEach(Merged(s, ms[0], Mentioning(Found, [ch], ms[0])), ms[1..], ch)
  }

  function Steps(ms: seq<Merge>, rest: seq<Action>): seq<Action> {
    if ms == [] then rest else [MergeObject(ms[0])] + Steps(ms[1..], rest)
  }

  function Inserting(ch: ChunkId, ms: seq<Merge>): seq<Action> {
    [Call(ch.doc, [ch.text])] + ([StageChunks] + ([JournalCandidates] + ([PrewriteAnchors] + Steps(ms, [UnionAnchors] + ([WriteCommit] + [Return])))))
  }

  /** The stores with the new document, before its merges. */
  function Entered(s: Store, ch: ChunkId): Store {
    s.(rows := s.rows[ch.doc := Row(Processed, [ch], None)], bodies := s.bodies + {ch.doc}, text := s.text + {ch},
       anchors := s.anchors[ch.doc := CandidatesOf(Found, [ch])])
  }

  lemma ExecOne(sys: Sys, a: Action, rest: seq<Action>)
    ensures Exec(sys, [a] + rest, Found) == Exec(Next(sys, a, Found), rest, Found)
  {
    assert ([a] + rest)[1..] == rest;
  }

  lemma {:induction false} MergeFrame(s: Store, ms: seq<Merge>, ch: ChunkId)
    ensures var t := MergeEach(s, ms, ch); t == s.(tracking := t.tracking, graph := t.graph, index := t.index)
    decreases |ms|
  {
    if ms != [] {
      MergeFrame(Merged(s, ms[0], Mentioning(Found, [ch], ms[0])), ms[1..], ch);
    }
  }

  lemma ExecMerge(s: Store, o: Op, m: Merge, rest: seq<Action>)
    requires o.pc.AtMerge? && MayMerge(o, m, Found)
    ensures Exec(Sys(s, Some(o)), [MergeObject(m)] + rest, Found)
         == Exec(Sys(Merged(s, m, Mentioning(Found, o.entries, m)), Some(o.(done := o.done + {m}))), rest, Found)
  {
    ExecOne(Sys(s, Some(o)), MergeObject(m), rest);
  }

  lemma FirstOf(ms: seq<Merge>)
    requires ms != []
    ensures ms[0] in Elems(ms) && Elems(ms) == {ms[0]} + Elems(ms[1..]) && forall x | x in ms[1..] :: x in ms
  {
  }

  lemma {:induction false} ExecSteps(s: Store, o: Op, ms: seq<Merge>, rest: seq<Action>, ch: ChunkId)
    requires o.pc.AtMerge? && o.entries == [ch] && o.done + Elems(ms) == MergesOf(Found, [ch])
    requires (forall m | m in ms :: m.MergeNode?) || NodeMerges(Found, [ch]) <= o.done
    ensures Exec(Sys(s, Some(o)), Steps(ms, rest), Found)
         == Exec(Sys(MergeEach(s, ms, ch), Some(o.(done := MergesOf(Found, [ch])))), rest, Found)
    decreases |ms|
  {
    if ms == [] {
      assert o.done == MergesOf(Found, [ch]);
    } else {
      var m, o' := ms[0], o.(done := o.done + {ms[0]});
      FirstOf(ms);
      assert o'.done + Elems(ms[1..]) == o.done + Elems(ms);
      ExecMerge(s, o, m, Steps(ms[1..], rest));
      ExecSteps(Merged(s, m, Mentioning(Found, [ch], m)), o', ms[1..], rest, ch);
    }
  }

  lemma OneText(ch: ChunkId)
    requires ch.text != ""
    ensures Entries(ch.doc, [ch.text]) == [ch]
  {
    assert [ch.text][1..] == [];
    assert IdsFor(ch.doc, [ch.text]) == [ch] + IdsFor(ch.doc, []) == [ch];
    AppendNewOfDistinct([], [ch]);
    assert [] + [ch] == [ch];
  }

  /** The operation as it stands before its merges. */
  function Launched(ch: ChunkId): Op {
    Op(ch.doc, Create, [ch], [ch], [], CandidatesOf(Found, [ch]), AtMerge, {})
  }

  function Journaled(s: Store, ch: ChunkId): Store {
    Entered(s, ch).(rows := s.rows[ch.doc := JournalRow(Launched(ch), Processing, Applying)])
  }

  lemma {:induction false} UpToMerges(s: Store, ch: ChunkId, rest: seq<Action>)
    requires ch.text != "" && ch.doc !in s.rows && ch.doc !in s.bodies
    ensures Exec(Sys(s, None), [Call(ch.doc, [ch.text])] + ([StageChunks] + ([JournalCandidates] + ([PrewriteAnchors] + rest))), Found)
         == Exec(Sys(Journaled(s, ch), Some(Launched(ch))), rest, Found)
  {
    OneText(ch);
    var one := Next(Sys(s, None), Call(ch.doc, [ch.text]), Found);
    var two := Next(one, StageChunks, Found);
    var three := Next(two, JournalCandidates, Found);
    ExecOne(Sys(s, None), Call(ch.doc, [ch.text]), [StageChunks] + ([JournalCandidates] + ([PrewriteAnchors] + rest)));
    ExecOne(one, StageChunks, [JournalCandidates] + ([PrewriteAnchors] + rest));
    ExecOne(two, JournalCandidates, [PrewriteAnchors] + rest);
    ExecOne(three, PrewriteAnchors, rest);
    assert Elems([ch]) == {ch};
    var o := Launched(ch).(cands := {}, pc := AtJournal);
    assert one == Sys(s.(rows := s.rows[ch.doc := JournalRow(o, Processing, Prepared)]), Some(o));
    assert two.store == one.store.(text := s.text + {ch}, bodies := s.bodies + {ch.doc});
    assert three.store.rows == Journaled(s, ch).rows;
    assert Next(three, PrewriteAnchors, Found) == Sys(Journaled(s, ch), Some(Launched(ch)));
  }

  lemma {:induction false} UpToReturn(s: Store, ch: ChunkId)
    ensures Exec(Sys(s, Some(Launched(ch).(done := MergesOf(Found, [ch])))), [UnionAnchors] + ([WriteCommit] + [Return]), Found)
         == Sys(s.(rows := s.rows[ch.doc := Row(Processed, [ch], None)]), None)
  {
    var o := Launched(ch).(done := MergesOf(Found, [ch]));
    var one := Next(Sys(s, Some(o)), UnionAnchors, Found);
    var two := Next(one, WriteCommit, Found);
    assert [Return] + [] == [Return];
    ExecOne(Sys(s, Some(o)), UnionAnchors, [WriteCommit] + [Return]);
    ExecOne(one, WriteCommit, [Return]);
    ExecOne(two, Return, []);
  }

  /** Inserting a document of one chunk. */
  lemma Inserted(s: Store, ch: ChunkId, ms: seq<Merge>)
    requires ch.text != "" && ch.doc !in s.rows && ch.doc !in s.bodies
    requires Elems(ms) == MergesOf(Found, [ch]) && ((forall m | m in ms :: m.MergeNode?) || NodeMerges(Found, [ch]) == {})
    ensures Exec(Sys(s, None), Inserting(ch, ms), Found)
         == Sys(MergeEach(Journaled(s, ch), ms, ch).(rows := Entered(s, ch).rows), None)
  {
    var rest := [UnionAnchors] + ([WriteCommit] + [Return]);
    UpToMerges(s, ch, Steps(ms, rest));
    ExecSteps(Journaled(s, ch), Launched(ch), ms, rest, ch);
    UpToReturn(MergeEach(Journaled(s, ch), ms, ch), ch);
    MergeFrame(Journaled(s, ch), ms, ch);
    assert Journaled(s, ch).rows[ch.doc := Row(Processed, [ch], None)] == Entered(s, ch).rows;
  }

  // ---------------------------------------------------------------- the merges of the run

  /** Stores that keep one source per object, under KEEP, with these lists. */
  predicate Lists(s: Store, tracked: map<Candidate, seq<ChunkId>>, listed: map<Candidate, seq<ChunkId>>) {
    s.tracking == tracked && s.graph == listed && s.index == listed && s.cap == 1 && !s.fifo
  }

  const NODES: map<Candidate, seq<ChunkId>> := map[NEAR := [Z], FAR := [Z]]
  const RELATED: map<Candidate, seq<ChunkId>> := map[NEAR := [Z, G], FAR := [Z, G], EDGE := [G]]
  const FILLED: map<Candidate, seq<ChunkId>> := map[NEAR := [Z], FAR := [Z], EDGE := [G]]
  const OVERFULL: map<Candidate, seq<ChunkId>> := map[NEAR := [Z, G], FAR := [Z, G], EDGE := [G, X]]
  const LEFT: map<Candidate, seq<ChunkId>> := map[NEAR := [Z], FAR := [Z], EDGE := [X]]

  lemma OneMention(ch: ChunkId, m: Merge)
    requires Mentions(Found, ch, m)
    ensures Mentioning(Found, [ch], m) == [ch]
  {
    SubtractNothing([ch], set x | x in [ch] && !Mentions(Found, x, m));
  }

  lemma Joined(x: ChunkId, y: ChunkId)
    ensures MergeIds([], [y]) == [y]
    ensures x != y ==> MergeIds([x], [y]) == [x, y]
  {
    AppendNewOfDistinct([], [y]);
    assert [] + [y] == [y];
    AppendNewOfDistinct([], [x]);
    assert [] + [x] == [x];
    if x != y {
      AppendNewOfDistinct([x], [y]);
      assert [x] + [y] == [x, y];
    }
    assert AppendNew<ChunkId>([], []) == [];
  }

  lemma Cuts(s: Store, x: ChunkId, y: ChunkId)
    requires s.cap == 1 && !s.fifo
    ensures s.Limit([x]) == [x] && s.Limit([x, y]) == [x]
  {
    assert [x, y][..1] == [x];
  }

  lemma NodeMerged(s: Store, n: Name, lists: map<Candidate, seq<ChunkId>>)
    requires n in AB && Lists(s, lists, lists) && Entity(n) !in lists
    ensures Lists(Merged(s, MergeNode(n), [Z]), lists[Entity(n) := [Z]], lists[Entity(n) := [Z]])
  {
    Joined(Z, Z);
    Cuts(s, Z, Z);
    assert KnownSources(s, Entity(n)) == [];
    var t := Put(s, map[Entity(n) := [Z]]);
    assert t.tracking == lists[Entity(n) := [Z]] && t.graph == lists[Entity(n) := [Z]];
  }

  lemma NodesMerged(s: Store)
    requires Lists(s, map[], map[])
    ensures Lists(MergeEach(s, [MergeNode("a"), MergeNode("b")], Z), NODES, NODES)
  {
    var ms := [MergeNode("a"), MergeNode("b")];
    OneMention(Z, ms[0]);
    OneMention(Z, ms[1]);
    NodeMerged(s, "a", map[]);
    var t := Merged(s, ms[0], [Z]);
    NodeMerged(t, "b", map[NEAR := [Z]]);
    assert ms[1..] == [ms[1]] && [ms[1]][1..] == [];
    assert MergeEach(t, [ms[1]], Z) == Merged(t, ms[1], [Z]);
  }

  lemma EndsTakeIn(s: Store)
    requires Lists(s, NODES, NODES)
    ensures Ends(s, AB, [G]) == map[NEAR := [Z, G], FAR := [Z, G]]
  {
    Joined(Z, G);
    Cuts(s, G, G);
    assert EndAfter(s, "a", [G]) == [Z, G] && EndAfter(s, "b", [G]) == [Z, G];
  }

  lemma LimitRelated(s: Store, c: Candidate)
    requires s.cap == 1 && !s.fifo && c in RELATED
    ensures c in FILLED && s.Limit(RELATED[c]) == FILLED[c]
  {
    Cuts(s, G, G);
    Cuts(s, Z, G);
    assert c == NEAR || c == FAR || c == EDGE;
  }

  /** Lists put over all that were there replace them. */
  lemma PutOver(s: Store, lists: map<Candidate, seq<ChunkId>>, limited: map<Candidate, seq<ChunkId>>)
    requires s.tracking.Keys <= lists.Keys && s.graph.Keys <= lists.Keys && s.index.Keys <= lists.Keys
    requires limited.Keys == lists.Keys && forall c | c in lists :: s.Limit(lists[c]) == limited[c]
    ensures Put(s, lists).tracking == lists && Put(s, lists).graph == limited && Put(s, lists).index == limited
  {
    assert (map c | c in lists :: s.Limit(lists[c])) == limited;
    Covers(s.tracking, lists);
    Covers(s.graph, limited);
    Covers(s.index, limited);
  }

  lemma Covers(lists: map<Candidate, seq<ChunkId>>, all: map<Candidate, seq<ChunkId>>)
    requires lists.Keys <= all.Keys
    ensures lists + all == all
  {
  }

  lemma PutRelated(s: Store)
    requires Lists(s, NODES, NODES)
    ensures Lists(Put(s, RELATED), RELATED, FILLED)
  {
    forall c | c in RELATED
      ensures c in FILLED && s.Limit(RELATED[c]) == FILLED[c]
    {
      LimitRelated(s, c);
    }
    PutOver(s, RELATED, FILLED);
  }

  lemma EdgeMerged(s: Store)
    requires Lists(s, NODES, NODES)
    ensures Lists(MergeEach(s, [MergeEdge(AB)], G), RELATED, FILLED)
  {
    var m := MergeEdge(AB);
    OneMention(G, m);
    Joined(G, G);
    EndsTakeIn(s);
    PutRelated(s);
    assert [m][1..] == [];
    assert KnownSources(s, EDGE) == [] && |AB| == 2;
    assert map[NEAR := [Z, G], FAR := [Z, G]][EDGE := [G]] == RELATED;
    assert Merged(s, m, [G]) == Put(s, RELATED);
  }

  lemma EdgeOverfilled(s: Store)
    requires Lists(s, RELATED, FILLED)
    ensures Lists(MergeEach(s, [MergeEdge(AB)], X), OVERFULL, FILLED)
  {
    var m := MergeEdge(AB);
    OneMention(X, m);
    Joined(G, X);
    assert [m][1..] == [];
    assert KnownSources(s, EDGE) == [G] && |AB| == 2;
    assert Elems([X]) == {X} && Elems([G]) == {G};
    assert s.tracking[EDGE := [G, X]] == OVERFULL;
  }

  // ---------------------------------------------------------------- the deletion

  lemma OwnedByMaker(s: Store)
    requires "g" in s.rows && s.rows["g"] == Row(Processed, [G], None)
    ensures s.OwnedChunks("g") == {G}
  {
    assert Elems([G]) == {G};
  }

  lemma WithoutMaker(c: Candidate)
    requires c in OVERFULL
    ensures Subtract(OVERFULL[c], {G}) == LEFT[c]
  {
    assert [Z, G] == [Z] + [G] && [G, X] == [G] + [X];
    SubtractConcat([Z], [G], {G});
    SubtractConcat([G], [X], {G});
    SubtractNothing([Z], {G});
    SubtractNothing([X], {G});
    SubtractAll([G], {G});
  }

  lemma OverfullIsSynced(s: Store)
    requires Lists(s, OVERFULL, FILLED)
    ensures s.Synced()
  {
    Cuts(s, Z, G);
    Cuts(s, G, X);
    forall c | c in s.graph
      ensures s.graph[c] == s.Limit(s.tracking[c])
    {
      assert c == NEAR || c == FAR || c == EDGE;
    }
  }

  lemma ErasedLists(s: Store)
    requires Lists(s, OVERFULL, FILLED)
    ensures Lists(Erase(s, {G}), LEFT, LEFT) && NoStranding(s, {G})
  {
    forall c | c in OVERFULL
      ensures Subtract(s.tracking[c], {G}) == LEFT[c] && s.Limit(LEFT[c]) == LEFT[c] && LEFT[c] != []
    {
      WithoutMaker(c);
      Cuts(s, Z, Z);
      Cuts(s, X, X);
      assert c == NEAR || c == FAR || c == EDGE;
    }
    assert Survivors(s, {G}) == LEFT.Keys;
    assert Erase(s, {G}).tracking == LEFT && Erase(s, {G}).graph == LEFT;
    forall c, n | c in s.graph && c.Relation? && n in c.ends
      ensures Subtract(s.Tracked(Entity(n)), {G}) != []
    {
      assert c == EDGE && (Entity(n) == NEAR || Entity(n) == FAR);
    }
  }

  lemma MakerDeleted(s: Store)
    requires Lists(s, OVERFULL, FILLED) && "g" in s.rows && s.rows["g"] == Row(Processed, [G], None)
    requires "g" in s.anchors && s.anchors["g"] == ALL
    ensures var t := DeleteStore(s, "g", {}, 8);
            Lists(t, LEFT, LEFT) && t.rows == s.rows - {"g"} && t.bodies == s.bodies - {"g"}
            && t.text == s.text - {G} && t.anchors == s.anchors - {"g"}
  {
    OwnedByMaker(s);
    OverfullIsSynced(s);
    ErasedLists(s);
    assert Complete(s, {G}, s.Named("g"));
    D.DeletionIsExact(s, "g", {});
  }

  // ---------------------------------------------------------------- the run

  function Doing(actions: seq<Action>, rest: seq<Event>): seq<Event> {
    if actions == [] then rest else [Step(actions[0])] + Doing(actions[1..], rest)
  }

  lemma StepOutsideDeletions(sys: Sys, a: Action)
    ensures Happens(World(sys, {}), Step(a), Found) == World(Next(sys, a, Found), {})
  {
  }

  lemma {:induction false} RunDoing(sys: Sys, actions: seq<Action>, rest: seq<Event>)
    ensures Run(World(sys, {}), Doing(actions, rest), Found) == Run(World(Exec(sys, actions, Found), {}), rest, Found)
    decreases |actions|
  {
    if actions != [] {
      var events := Doing(actions, rest);
      assert events[0] == Step(actions[0]) && events[1..] == Doing(actions[1..], rest);
      StepOutsideDeletions(sys, actions[0]);
      RunDoing(Next(sys, actions[0], Found), actions[1..], rest);
    }
  }

  const EMPTY := Store(map[], {}, {}, map[], map[], map[], map[], 1, false)

  const PATCHING: seq<Action> := [Call("d", ["p"])] + ([StageChunks] + ([JournalCandidates] + [Fail]))

  function Events(): seq<Event> {
    Doing(Inserting(Z, [MergeNode("a"), MergeNode("b")]),
      Doing(Inserting(G, [MergeEdge(AB)]), Doing(Inserting(X, [MergeEdge(AB)]), [DeleteCall("g", {}, 8)] + Doing(PATCHING, []))))
  }

  const OPEN_PATCH := Journal([P], Patch, [P], {NEAR}, Interrupted)

  const BEFORE_PATCH := Store(
    map["e" := Row(Processed, [Z], None), "d" := Row(Processed, [X], None)], {"e", "d"}, {Z, X},
    map["e" := {NEAR, FAR}, "d" := ALL], LEFT, LEFT, LEFT, 1, false)

  const STORE := BEFORE_PATCH.(
    rows := map["e" := Row(Processed, [Z], None), "d" := Row(Failed, [X], Some(OPEN_PATCH))], text := {Z, X, P})

  lemma FoundInZ()
    ensures MergesOf(Found, [Z]) == Elems([MergeNode("a"), MergeNode("b")]) && CandidatesOf(Found, [Z]) == {NEAR, FAR}
  {
    assert Z in [Z] && "a" in Found(Z).nodes && "b" in Found(Z).nodes;
    assert Touched(Found(Z)) == {NEAR, FAR};
    assert MergeNode("a") in [MergeNode("a"), MergeNode("b")] && MergeNode("b") in [MergeNode("a"), MergeNode("b")];
  }

  lemma FoundInEdge(ch: ChunkId)
    requires ch == G || ch == X
    ensures MergesOf(Found, [ch]) == Elems([MergeEdge(AB)]) && NodeMerges(Found, [ch]) == {} && CandidatesOf(Found, [ch]) == ALL
  {
    assert ch in [ch] && AB in Found(ch).edges && MergeEdge(AB) in [MergeEdge(AB)];
    forall c
      ensures c in Touched(Found(ch)) <==> c in ALL
    {
    }
  }

  lemma FoundInP()
    ensures CandidatesOf(Found, [P]) == {NEAR}
  {
    assert P in [P] && "a" in Found(P).nodes && Found(P).edges == {};
    assert Touched(Found(P)) == {NEAR};
  }

  /** The three documents, one after the other. */
  lemma FirstInserted() returns (s: Store)
    ensures Exec(Sys(EMPTY, None), Inserting(Z, [MergeNode("a"), MergeNode("b")]), Found) == Sys(s, None)
    ensures Lists(s, NODES, NODES) && s.rows == map["e" := Row(Processed, [Z], None)] && s.bodies == {"e"} && s.text == {Z}
    ensures s.anchors == map["e" := {NEAR, FAR}]
  {
    var ms := [MergeNode("a"), MergeNode("b")];
    FoundInZ();
    Inserted(EMPTY, Z, ms);
    NodesMerged(Journaled(EMPTY, Z));
    MergeFrame(Journaled(EMPTY, Z), ms, Z);
    s := MergeEach(Journaled(EMPTY, Z), ms, Z).(rows := Entered(EMPTY, Z).rows);
  }

  lemma SecondInserted(r: Store) returns (s: Store)
    requires Lists(r, NODES, NODES) && "g" !in r.rows && "g" !in r.bodies
    ensures Exec(Sys(r, None), Inserting(G, [MergeEdge(AB)]), Found) == Sys(s, None)
    ensures Lists(s, RELATED, FILLED) && s.rows == r.rows["g" := Row(Processed, [G], None)] && s.bodies == r.bodies + {"g"}
    ensures s.text == r.text + {G} && s.anchors == r.anchors["g" := ALL]
  {
    var ms := [MergeEdge(AB)];
    FoundInEdge(G);
    Inserted(r, G, ms);
    EdgeMerged(Journaled(r, G));
    MergeFrame(Journaled(r, G), ms, G);
    s := MergeEach(Journaled(r, G), ms, G).(rows := Entered(r, G).rows);
  }

  lemma ThirdInserted(r: Store) returns (s: Store)
    requires Lists(r, RELATED, FILLED) && "d" !in r.rows && "d" !in r.bodies
    ensures Exec(Sys(r, None), Inserting(X, [MergeEdge(AB)]), Found) == Sys(s, None)
    ensures Lists(s, OVERFULL, FILLED) && s.rows == r.rows["d" := Row(Processed, [X], None)] && s.bodies == r.bodies + {"d"}
    ensures s.text == r.text + {X} && s.anchors == r.anchors["d" := ALL]
  {
    var ms := [MergeEdge(AB)];
    FoundInEdge(X);
    Inserted(r, X, ms);
    EdgeOverfilled(Journaled(r, X));
    MergeFrame(Journaled(r, X), ms, X);
    s := MergeEach(Journaled(r, X), ms, X).(rows := Entered(r, X).rows);
  }

  lemma PatchPending()
    ensures StillPending(BEFORE_PATCH, Row(Processed, [X], None), Patch, [P]) == [P]
  {
    var known := CommittedTexts(BEFORE_PATCH, Row(Processed, [X], None));
    assert P.text !in known;
    assert (set ch | ch in [P] && ch.text in known) == {};
    SubtractNothing([P], {});
  }

  lemma PatchSteps(s: Store)
    requires "d" in s.rows && s.rows["d"] == Row(Processed, [X], None) && StillPending(s, s.rows["d"], Patch, [P]) == [P]
    ensures Exec(Sys(s, None), PATCHING, Found)
         == Sys(s.(rows := s.rows["d" := Row(Failed, [X], Some(OPEN_PATCH))], text := s.text + {P}), None)
  {
    OneText(P);
    FoundInP();
    var o := Op("d", Patch, [P], [P], [X], {}, AtJournal, {});
    var one := Sys(s.(rows := s.rows["d" := JournalRow(o, Processing, Prepared)]), Some(o));
    assert Next(Sys(s, None), Call("d", ["p"]), Found) == one;
    ExecOne(Sys(s, None), Call("d", ["p"]), [StageChunks] + ([JournalCandidates] + [Fail]));
    PatchStages(s, o, one.store);
  }

  lemma {:induction false} PatchStages(s: Store, o: Op, t: Store)
    requires o == Op("d", Patch, [P], [P], [X], {}, AtJournal, {}) && t == s.(rows := t.rows)
    requires t.rows == s.rows["d" := JournalRow(o, Processing, Prepared)] && CandidatesOf(Found, [P]) == {NEAR}
    ensures Exec(Sys(t, Some(o)), [StageChunks] + ([JournalCandidates] + [Fail]), Found)
         == Sys(s.(rows := s.rows["d" := Row(Failed, [X], Some(OPEN_PATCH))], text := s.text + {P}), None)
  {
    var two := Next(Sys(t, Some(o)), StageChunks, Found);
    var three := Next(two, JournalCandidates, Found);
    assert [Fail] + [] == [Fail];
    ExecOne(Sys(t, Some(o)), StageChunks, [JournalCandidates] + [Fail]);
    ExecOne(two, JournalCandidates, [Fail]);
    ExecOne(three, Fail, []);
    assert Elems([P]) == {P};
  }

  lemma Patched()
    ensures Exec(Sys(BEFORE_PATCH, None), PATCHING, Found) == Sys(STORE, None)
  {
    PatchPending();
    PatchSteps(BEFORE_PATCH);
    assert BEFORE_PATCH.rows["d" := Row(Failed, [X], Some(OPEN_PATCH))] == STORE.rows;
    assert BEFORE_PATCH.text + {P} == STORE.text;
  }

  lemma RunDeletion(s: Store, rest: seq<Event>)
    requires "g" in s.rows && "g" !in DeleteStore(s, "g", {}, 8).rows
    ensures Run(World(Sys(s, None), {}), [DeleteCall("g", {}, 8)] + rest, Found)
         == Run(World(Sys(DeleteStore(s, "g", {}, 8), None), {}), rest, Found)
  {
    assert ([DeleteCall("g", {}, 8)] + rest)[1..] == rest;
    var none: set<DocId> := {};
    assert none - {"g"} == none;
  }

  lemma AllInserted(rest: seq<Event>) returns (s: Store)
    ensures Run(World(Sys(EMPTY, None), {}),
                Doing(Inserting(Z, [MergeNode("a"), MergeNode("b")]),
                  Doing(Inserting(G, [MergeEdge(AB)]), Doing(Inserting(X, [MergeEdge(AB)]), rest))), Found)
         == Run(World(Sys(s, None), {}), rest, Found)
    ensures Lists(s, OVERFULL, FILLED) && s.bodies == {"e", "g", "d"} && s.text == {Z, G, X}
    ensures s.rows == map["e" := Row(Processed, [Z], None), "g" := Row(Processed, [G], None), "d" := Row(Processed, [X], None)]
    ensures s.anchors == map["e" := {NEAR, FAR}, "g" := ALL, "d" := ALL]
  {
    var third := Doing(Inserting(X, [MergeEdge(AB)]), rest);
    var second := Doing(Inserting(G, [MergeEdge(AB)]), third);
    var s1 := FirstInserted();
    RunDoing(Sys(EMPTY, None), Inserting(Z, [MergeNode("a"), MergeNode("b")]), second);
    var s2 := SecondInserted(s1);
    RunDoing(Sys(s1, None), Inserting(G, [MergeEdge(AB)]), third);
    s := ThirdInserted(s2);
    RunDoing(Sys(s2, None), Inserting(X, [MergeEdge(AB)]), rest);
  }

  lemma Reduced(s: Store)
    requires Lists(s, OVERFULL, FILLED) && s.bodies == {"e", "g", "d"} && s.text == {Z, G, X}
    requires s.rows == map["e" := Row(Processed, [Z], None), "g" := Row(Processed, [G], None), "d" := Row(Processed, [X], None)]
    requires s.anchors == map["e" := {NEAR, FAR}, "g" := ALL, "d" := ALL]
    ensures DeleteStore(s, "g", {}, 8) == BEFORE_PATCH
  {
    MakerDeleted(s);
    RowsReduced();
    assert s.bodies - {"g"} == BEFORE_PATCH.bodies && s.text - {G} == BEFORE_PATCH.text;
  }

  lemma RowsReduced()
    ensures map["e" := Row(Processed, [Z], None), "g" := Row(Processed, [G], None), "d" := Row(Processed, [X], None)] - {"g"}
         == map["e" := Row(Processed, [Z], None), "d" := Row(Processed, [X], None)]
    ensures map["e" := {NEAR, FAR}, "g" := ALL, "d" := ALL] - {"g"} == map["e" := {NEAR, FAR}, "d" := ALL]
  {
  }

  lemma StoreIsReached()
    ensures Run(World(Sys(EMPTY, None), {}), Events(), Found) == World(Sys(STORE, None), {})
  {
    var last := Doing(PATCHING, []);
    var s := AllInserted([DeleteCall("g", {}, 8)] + last);
    Reduced(s);
    RunDeletion(s, last);
    Patched();
    RunDoing(Sys(BEFORE_PATCH, None), PATCHING, []);
  }

  // ---------------------------------------------------------------- the rollback

  lemma Recorded(c: Candidate, ch: ChunkId)
    ensures Holds(STORE, c, ch) <==> (c == EDGE && ch == X) || ((c == NEAR || c == FAR) && ch == Z)
    ensures ch in STORE.Tracked(c) <==> Holds(STORE, c, ch)
  {
    assert EDGE != NEAR && EDGE != FAR && NEAR != FAR;
  }

  lemma OpenPatchIsSound()
    ensures JournalSound("d", [X], OPEN_PATCH, Found)
  {
    assert Unseen([P], set ch | ch in [X] :: ch.text) == [P] by {
      var known := set ch | ch in [X] :: ch.text;
      assert P.text !in known;
      assert (set ch | ch in [P] && ch.text in known) == {};
      SubtractNothing([P], {});
    }
    FoundInP();
  }

  lemma StoreIsKept()
    ensures Kept(World(Sys(STORE, None), {}), Found)
  {
    OpenPatchIsSound();
    assert Whole(STORE, {}) == STORE;
    assert X in [X] && Z in [Z] && P in [P];
    forall c, ch | Holds(STORE, c, ch)
      ensures ch in STORE.OwnedChunks(ch.doc) && c in STORE.AnchorsOf(ch.doc) && ch != P
      ensures c.Relation? ==> c == EDGE && ch == X
    {
      Recorded(c, ch);
    }
    assert NamedBy(STORE, Elems([P]), {NEAR});
    assert RowSound(STORE, "d", Found) && RowSound(STORE, "e", Found);
    assert |AB| == 2;
    forall c, ch, n | ch in STORE.Tracked(c) && c.Relation? && Committed(STORE, ch) && n in c.ends
      ensures Entity(n) in STORE.AnchorsOf(ch.doc)
    {
      Recorded(c, ch);
    }
  }

  lemma RollbackUnlinks()
    ensures !RollbackSpares(STORE, "d")
  {
    var job := RollbackJob("d", OPEN_PATCH);
    SubtractNothing([Z], Elems([P]));
    assert MakePlan(STORE, job).delete == {};
    assert Gone(STORE, MakePlan(STORE, job)) == {};
    Recorded(EDGE, X);
    assert "a" in EDGE.ends && Entity("a") in OPEN_PATCH.cands && X in STORE.rows["d"].chunks;
    assert Elems(STORE.Tracked(NEAR)) == {Z} && Elems([X]) == {X};
  }

  /**
   * The run ends in a store that keeps the coverage invariant, and there the rollback prunes the near end from the
   * anchors although the edge goes on to record the committed chunk.
   */
  lemma RollbackMayUnlink()
    ensures Run(World(Sys(EMPTY, None), {}), Events(), Found) == World(Sys(STORE, None), {})
    ensures Kept(World(Sys(STORE, None), {}), Found) && !RollbackSpares(STORE, "d")
    ensures !Closed(RolledBack(STORE, "d"))
  {
    StoreIsReached();
    StoreIsKept();
    RollbackUnlinks();
    RollbackGuardIsExact(STORE, "d", ROLLBACK_STAGES, {}, Found);
  }
}
