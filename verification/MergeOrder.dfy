/**
 * When the sources of a committed operation depend on the order of its merges: an entity that only relations
 * bring along takes the whole list of the one that creates it, and only the limited lists of all others.
 */
module MergeOrder {
  import opened Basics
  import opened Sources
  import opened Stores
  import opened Merging
  import opened CustomChunks
  import opened PatchRuns

  lemma ExecFirst(sys: Sys, a: Action, rest: seq<Action>, ext: Extractor)
    ensures Exec(sys, [a] + rest, ext) == Exec(Next(sys, a, ext), rest, ext)
  {
    assert ([a] + rest)[1..] == rest;
  }

  lemma CreatedIsThere(w: Work, s: Store, n: Name, first: Merge, ext: Extractor)
    requires w.Ready() && Data(w, s, ext) && CreatedBy(w, s, n, first, ext)
    ensures Entity(n) in s.graph
  {
    var ids := Mentioning(ext, w.entries, first);
    MentionedSomewhere(ext, w.entries, first);
    if first.MergeEdge? {
      MergedNotEmpty(w.before.Tracked(Relation(first.ends)), ids);
      assert w.Full(first.ends, ext)[0] in w.Given(first, ext);
    } else {
      assert ids[0] in w.Given(first, ext);
    }
  }

  /** The stages behind the merges. */
  lemma ConcludeRun(w: Work, s: Store, o: Op, ext: Extractor) returns (rest: seq<Action>)
    requires o.doc == w.doc && o.pc.AtMerge? && o.done == MergesOf(ext, o.entries)
    ensures forall a | a in rest :: Own(w, a)
    ensures var end := Exec(Sys(s, Some(o)), rest, ext);
            end.running.None? && end.store.JournalOf(w.doc).None? && end.store.tracking == s.tracking
  {
    rest := [UnionAnchors] + ([WriteCommit] + ([Return] + []));
    var one := OpStep(s, o, UnionAnchors, ext);
    var two := OpStep(one.store, one.running.value, WriteCommit, ext);
    ExecFirst(Sys(s, Some(o)), UnionAnchors, [WriteCommit] + ([Return] + []), ext);
    ExecFirst(one, WriteCommit, [Return] + [], ext);
    ExecFirst(two, Return, [], ext);
  }

  /**
   * The remaining merges of relations, in any order, and then the rest: what every merge keeps holds of the lists
   * at the end.
   */
  lemma FinishRun(w: Work, inv: Store -> bool, s: Store, o: Op, left: set<Merge>, ext: Extractor) returns (rest: seq<Action>, last: Store)
    requires o.doc == w.doc && o.entries == w.entries && o.pc.AtMerge? && o.done + left == MergesOf(ext, w.entries) && inv(s)
    requires NodeMerges(ext, w.entries) <= o.done
    requires forall t, m | inv(t) && m in MergesOf(ext, w.entries) :: inv(Merged(t, m, Mentioning(ext, w.entries, m)))
    ensures forall a | a in rest :: Own(w, a)
    ensures var end := Exec(Sys(s, Some(o)), rest, ext);
            end.running.None? && end.store.JournalOf(w.doc).None? && inv(last) && end.store.tracking == last.tracking
    decreases left
  {
    if left == {} {
      rest := ConcludeRun(w, s, o, ext);
      last := s;
    } else {
      var m :| m in left;
      var o' := o.(done := o.done + {m});
      assert o'.done + (left - {m}) == o.done + left;
      var more;
      more, last := FinishRun(w, inv, Merged(s, m, Mentioning(ext, w.entries, m)), o', left - {m}, ext);
      rest := [MergeObject(m)] + more;
      ExecFirst(Sys(s, Some(o)), MergeObject(m), more, ext);
    }
  }

  /** The lists are those of a run behind its entity phase, and this merge has created the entity. */
  ghost predicate Created(w: Work, s: Store, n: Name, first: Merge, ext: Extractor) {
    Data(w, s, ext) && NodesThere(w, s, ext) && CreatedBy(w, s, n, first, ext)
  }

  lemma NodesStayThere(w: Work, s: Store, m: Merge, ext: Extractor)
    requires w.Ready() && Data(w, s, ext) && m in MergesOf(ext, w.entries)
    ensures s.graph.Keys <= Merged(s, m, Mentioning(ext, w.entries, m)).graph.Keys
  {
    var t := Merged(s, m, Mentioning(ext, w.entries, m));
    MergeGrows(w.before, s, m, w.entries, ext);
    forall c | c in s.graph
      ensures c in t.graph
    {
      assert s.Tracked(c) != [] && s.Tracked(c) <= t.Tracked(c);
    }
  }

  lemma CreatedStays(w: Work, s: Store, m: Merge, n: Name, first: Merge, ext: Extractor)
    requires w.Ready() && Created(w, s, n, first, ext) && m in MergesOf(ext, w.entries)
    ensures Created(w, Merged(s, m, Mentioning(ext, w.entries, m)), n, first, ext)
  {
    MergeKeepsData(w, s, m, ext);
    NodesStayThere(w, s, m, ext);
    CreatedIsThere(w, s, n, first, ext);
    CreatorStays(w, s, m, n, first, ext);
  }

  /** The first call and the stages before the merges. */
  function Prepared(w: Work, texts: seq<string>, ext: Extractor): Sys {
    Next(Next(Next(Next(Sys(w.before, None), Call(w.doc, texts), ext), StageChunks, ext), JournalCandidates, ext), PrewriteAnchors, ext)
  }

  lemma PreparedShape(w: Work, texts: seq<string>, ext: Extractor)
    requires w.Ready() && Entries(w.doc, texts) == w.op
    ensures var sys := Prepared(w, texts, ext);
            && sys.running.Some? && Data(w, sys.store, ext) && sys.store.graph == w.before.graph
            && var o := sys.running.value; o.doc == w.doc && o.entries == w.entries && o.pc.AtMerge? && o.done == {}
  {
    FirstCall(w, texts, ext);
    var one := CallStep(Sys(w.before, None), w.doc, texts);
    StepKeepsShape(w, one.store, one.running.value, StageChunks, ext);
    var two := OpStep(one.store, one.running.value, StageChunks, ext);
    StepKeepsShape(w, two.store, two.running.value, JournalCandidates, ext);
    var three := OpStep(two.store, two.running.value, JournalCandidates, ext);
    StepKeepsShape(w, three.store, three.running.value, PrewriteAnchors, ext);
  }

  function UpToMerges(more: seq<Action>): seq<Action> {
    [StageChunks] + ([JournalCandidates] + ([PrewriteAnchors] + more))
  }

  lemma ExecUpToMerges(w: Work, texts: seq<string>, more: seq<Action>, ext: Extractor)
    ensures Exec(Sys(w.before, None), [Call(w.doc, texts)] + UpToMerges(more), ext) == Exec(Prepared(w, texts, ext), more, ext)
  {
    var zero := Sys(w.before, None);
    var one := Next(zero, Call(w.doc, texts), ext);
    var two := Next(one, StageChunks, ext);
    var three := Next(two, JournalCandidates, ext);
    var second := [PrewriteAnchors] + more;
    ExecFirst(zero, Call(w.doc, texts), UpToMerges(more), ext);
    ExecFirst(one, StageChunks, [JournalCandidates] + second, ext);
    ExecFirst(two, JournalCandidates, second, ext);
    ExecFirst(three, PrewriteAnchors, more, ext);
  }

  lemma FirstMerge(w: Work, s: Store, n: Name, first: Merge, ext: Extractor)
    requires w.Ready() && Data(w, s, ext) && NodesThere(w, s, ext) && Entity(n) !in s.graph
    requires Creates(w, first, n, ext)
    ensures Created(w, Merged(s, first, Mentioning(ext, w.entries, first)), n, first, ext)
  {
    MergeKeepsData(w, s, first, ext);
    NodesStayThere(w, s, first, ext);
    TouchedNode(w, s, first, n, ext);
  }

  lemma RunBehindFirst(w: Work, s: Store, o: Op, n: Name, first: Merge, ext: Extractor) returns (more: seq<Action>)
    requires w.Ready() && o.doc == w.doc && o.entries == w.entries && o.pc.AtMerge?
    requires NodeMerges(ext, w.entries) <= o.done <= MergesOf(ext, w.entries) && Created(w, s, n, first, ext)
    ensures Leads(w, s, o, more, n, first, ext)
  {
    var inv := (t: Store) => Created(w, t, n, first, ext);
    forall t, m | inv(t) && m in MergesOf(ext, w.entries)
      ensures inv(Merged(t, m, Mentioning(ext, w.entries, m)))
    {
      CreatedStays(w, t, m, n, first, ext);
    }
    assert o.done + (MergesOf(ext, w.entries) - o.done) == MergesOf(ext, w.entries);
    var last;
    more, last := FinishRun(w, inv, s, o, MergesOf(ext, w.entries) - o.done, ext);
    SameTracking(w, last, Exec(Sys(s, Some(o)), more, ext).store, n, first, ext);
  }

  lemma SameTracking(w: Work, s: Store, t: Store, n: Name, first: Merge, ext: Extractor)
    requires CreatedBy(w, s, n, first, ext) && t.tracking == s.tracking
    ensures CreatedBy(w, t, n, first, ext)
  {
    assert t.Tracked(Entity(n)) == s.Tracked(Entity(n));
  }

  /** The entities merged so far are there, and this one is not. */
  ghost predicate InNodePhase(w: Work, s: Store, o: Op, n: Name, ext: Extractor) {
    && Data(w, s, ext) && Entity(n) !in s.graph
    && o.doc == w.doc && o.entries == w.entries && o.pc.AtMerge? && o.done <= NodeMerges(ext, w.entries)
    && forall x | MergeNode(x) in o.done :: Entity(x) in s.graph
  }

  lemma NodeStep(w: Work, s: Store, o: Op, n: Name, m: Merge, ext: Extractor)
    requires w.Ready() && InNodePhase(w, s, o, n, ext) && m in NodeMerges(ext, w.entries) && MergeNode(n) !in MergesOf(ext, w.entries)
    ensures InNodePhase(w, Merged(s, m, Mentioning(ext, w.entries, m)), o.(done := o.done + {m}), n, ext)
  {
    var t := Merged(s, m, Mentioning(ext, w.entries, m));
    MergeKeepsData(w, s, m, ext);
    NodesStayThere(w, s, m, ext);
    UntouchedNode(s, m, Mentioning(ext, w.entries, m), n);
    MergedObjectList(s, m, Mentioning(ext, w.entries, m));
    MentionedSomewhere(ext, w.entries, m);
    MergedNotEmpty(KnownSources(s, Object(m)), Mentioning(ext, w.entries, m));
    assert t.Tracked(Object(m)) != [];
  }

  /** These actions of the operation commit it, with the entity created by this merge. */
  ghost predicate Leads(w: Work, s: Store, o: Op, more: seq<Action>, n: Name, first: Merge, ext: Extractor) {
    && (forall a | a in more :: Own(w, a))
    && var end := Exec(Sys(s, Some(o)), more, ext);
       end.running.None? && end.store.JournalOf(w.doc).None? && CreatedBy(w, end.store, n, first, ext)
  }

  lemma LeadsFrom(w: Work, s: Store, o: Op, m: Merge, rest: seq<Action>, n: Name, first: Merge, ext: Extractor)
    requires o.pc.AtMerge? && MayMerge(o, m, ext)
    requires Leads(w, Merged(s, m, Mentioning(ext, o.entries, m)), o.(done := o.done + {m}), rest, n, first, ext)
    ensures Leads(w, s, o, [MergeObject(m)] + rest, n, first, ext)
  {
    ExecFirst(Sys(s, Some(o)), MergeObject(m), rest, ext);
  }

  lemma NodesDone(w: Work, s: Store, o: Op, n: Name, ext: Extractor)
    requires InNodePhase(w, s, o, n, ext) && o.done == NodeMerges(ext, w.entries)
    ensures NodesThere(w, s, ext)
  {
    forall x | MergeNode(x) in MergesOf(ext, w.entries)
      ensures Entity(x) in s.graph
    {
      assert MergeNode(x) in o.done;
    }
  }

  /** The chosen relation, and the rest. */
  lemma RunFromFirst(w: Work, s: Store, o: Op, n: Name, first: Merge, ext: Extractor) returns (more: seq<Action>)
    requires w.Ready() && InNodePhase(w, s, o, n, ext) && o.done == NodeMerges(ext, w.entries)
    requires Creates(w, first, n, ext) && first.MergeEdge?
    ensures Leads(w, s, o, more, n, first, ext)
  {
    NodesDone(w, s, o, n, ext);
    FirstMerge(w, s, n, first, ext);
    var rest := RunBehindFirst(w, Merged(s, first, Mentioning(ext, w.entries, first)), o.(done := o.done + {first}), n, first, ext);
    LeadsFrom(w, s, o, first, rest, n, first, ext);
    more := [MergeObject(first)] + rest;
  }

  lemma NextNode(w: Work, s: Store, o: Op, left: set<Merge>, n: Name, ext: Extractor) returns (m: Merge)
    requires w.Ready() && InNodePhase(w, s, o, n, ext) && o.done + left == NodeMerges(ext, w.entries) && left != {}
    requires MergeNode(n) !in MergesOf(ext, w.entries)
    ensures m in left && MayMerge(o, m, ext) && o.pc.AtMerge? && o.entries == w.entries
    ensures InNodePhase(w, Merged(s, m, Mentioning(ext, w.entries, m)), o.(done := o.done + {m}), n, ext)
    ensures o.done + {m} + (left - {m}) == NodeMerges(ext, w.entries)
  {
    m :| m in left;
    NodeStep(w, s, o, n, m, ext);
  }

  /** The entity phase, the chosen relation, and the rest. */
  lemma RunThroughNodes(w: Work, s: Store, o: Op, left: set<Merge>, n: Name, first: Merge, ext: Extractor) returns (more: seq<Action>)
    requires w.Ready() && InNodePhase(w, s, o, n, ext) && o.done + left == NodeMerges(ext, w.entries)
    requires Creates(w, first, n, ext) && first.MergeEdge?
    ensures Leads(w, s, o, more, n, first, ext)
    decreases left
  {
    if left == {} {
      more := RunFromFirst(w, s, o, n, first, ext);
    } else {
      var m := NextNode(w, s, o, left, n, ext);
      var rest := RunThroughNodes(w, Merged(s, m, Mentioning(ext, w.entries, m)), o.(done := o.done + {m}), left - {m}, n, first, ext);
      LeadsFrom(w, s, o, m, rest, n, first, ext);
      more := [MergeObject(m)] + rest;
    }
  }

  lemma PreparedForNodes(w: Work, texts: seq<string>, n: Name, ext: Extractor) returns (s: Store, o: Op)
    requires w.Ready() && Entries(w.doc, texts) == w.op && Entity(n) !in w.before.graph
    ensures Prepared(w, texts, ext) == Sys(s, Some(o)) && InNodePhase(w, s, o, n, ext)
    ensures o.done + NodeMerges(ext, w.entries) == NodeMerges(ext, w.entries)
  {
    PreparedShape(w, texts, ext);
    s, o := Prepared(w, texts, ext).store, Prepared(w, texts, ext).running.value;
  }

  lemma EndOf(w: Work, texts: seq<string>, actions: seq<Action>, end: Sys, ext: Extractor)
    requires Exec(Sys(w.before, None), [Call(w.doc, texts)] + actions, ext) == end
    requires (forall a | a in actions :: Own(w, a)) && end.running.None? && end.store.JournalOf(w.doc).None?
    ensures CommittedRun(w, texts, actions, ext) && RunEnd(w, texts, actions, ext) == end.store
  {
  }

  lemma OwnUpToMerges(w: Work, more: seq<Action>)
    requires forall a | a in more :: Own(w, a)
    ensures forall a | a in UpToMerges(more) :: Own(w, a)
  {
  }

  lemma LeadsToCommit(w: Work, texts: seq<string>, s: Store, o: Op, more: seq<Action>, n: Name, first: Merge, ext: Extractor)
    requires Prepared(w, texts, ext) == Sys(s, Some(o)) && Leads(w, s, o, more, n, first, ext)
    ensures CommittedRun(w, texts, UpToMerges(more), ext) && CreatedBy(w, RunEnd(w, texts, UpToMerges(more), ext), n, first, ext)
  {
    var actions, end := UpToMerges(more), Exec(Sys(s, Some(o)), more, ext);
    ExecUpToMerges(w, texts, more, ext);
    OwnUpToMerges(w, more);
    EndOf(w, texts, actions, end, ext);
  }

  /** Any relation of a new entity that no chunk extracts by itself may be the one that creates it. */
  lemma RunStartingWith(w: Work, texts: seq<string>, n: Name, first: Merge, ext: Extractor) returns (actions: seq<Action>)
    requires w.Ready() && Entries(w.doc, texts) == w.op && Entity(n) !in w.before.graph
    requires Creates(w, first, n, ext) && first.MergeEdge?
    ensures CommittedRun(w, texts, actions, ext) && CreatedBy(w, RunEnd(w, texts, actions, ext), n, first, ext)
  {
    var s, o := PreparedForNodes(w, texts, n, ext);
    var more := RunThroughNodes(w, s, o, NodeMerges(ext, w.entries), n, first, ext);
    actions := UpToMerges(more);
    LeadsToCommit(w, texts, s, o, more, n, first, ext);
  }

  /**
   * The sources of an object are the same at the end of every committed run exactly when it is determined:
   * failures, resumes and stopped rollbacks add nothing to what the order within the relation phase may decide.
   */
  lemma SourcesDeterminedIff(w: Work, texts: seq<string>, ext: Extractor, c: Candidate)
    requires w.Ready() && Entries(w.doc, texts) == w.op
    ensures Determined(w, ext, c) <==>
      forall a, b | CommittedRun(w, texts, a, ext) && CommittedRun(w, texts, b, ext) ::
        Elems(RunEnd(w, texts, a, ext).Tracked(c)) == Elems(RunEnd(w, texts, b, ext).Tracked(c))
  {
    if Determined(w, ext, c) {
      forall a, b | CommittedRun(w, texts, a, ext) && CommittedRun(w, texts, b, ext)
        ensures Elems(RunEnd(w, texts, a, ext).Tracked(c)) == Elems(RunEnd(w, texts, b, ext).Tracked(c))
      {
        CommittedRuns(w, texts, a, ext);
        CommittedRuns(w, texts, b, ext);
        ResumeEqualsSuccess(w, RunEnd(w, texts, a, ext), RunEnd(w, texts, b, ext), ext);
      }
    } else {
      var x, y :| Creates(w, x, c.name, ext) && Creates(w, y, c.name, ext)
        && !(w.Given(x, ext) <= w.Sure(c.name, ext) + w.Given(y, ext));
      if MergeNode(c.name) in MergesOf(ext, w.entries) {
        ExtractedIsDetermined(w, ext, c.name);
      }
      var a := RunStartingWith(w, texts, c.name, x, ext);
      var b := RunStartingWith(w, texts, c.name, y, ext);
      assert Elems(RunEnd(w, texts, a, ext).Tracked(c)) != Elems(RunEnd(w, texts, b, ext).Tracked(c));
    }
  }

  // ---------------------------------------------------------------- an operation on which the order decides

  const X1 := ChunkId("d", "1")
  const X2 := ChunkId("d", "2")
  const AB: set<Name> := {"a", "b"}
  const AC: set<Name> := {"a", "c"}

  /** The first chunk relates "a" to "b" and to "c", the second one only to "b"; no entity is extracted by itself. */
  function TwoEdges(ch: ChunkId): Extraction {
    Extraction({}, if ch == X1 then {AB, AC} else if ch == X2 then {AB} else {})
  }

  /** A new document on an empty graph whose source lists hold one id, the oldest. */
  const NEW := Work(Store(map[], {}, {}, map[], map[], map[], map[], 1, false), "d", Create, [X1, X2], [X1, X2])

  lemma TwoTexts()
    ensures Entries("d", ["1", "2"]) == [X1, X2]
  {
    assert ["1", "2"][1..] == ["2"] && ["2"][1..] == [];
    assert IdsFor("d", ["2"]) == [X2] + IdsFor("d", []) == [X2];
    assert IdsFor("d", ["1", "2"]) == [X1] + [X2] == [X1, X2];
    AppendNewOfDistinct([], [X1, X2]);
    assert [] + [X1, X2] == [X1, X2];
  }

  lemma EdgesOfBoth()
    ensures NEW.Full(AB, TwoEdges) == [X1, X2] && NEW.Full(AC, TwoEdges) == [X1]
  {
    assert [X1, X2][1..] == [X2] && [X2][1..] == [];
    assert AB != AC by {
      assert "b" in AB && "b" !in AC;
    }
    SubtractNothing([X1, X2], set ch | ch in [X1, X2] && !Mentions(TwoEdges, ch, MergeEdge(AB)));
    assert Mentioning(TwoEdges, [X1, X2], MergeEdge(AB)) == [X1, X2];
    var skip := set ch | ch in [X1, X2] && !Mentions(TwoEdges, ch, MergeEdge(AC));
    assert X1 !in skip && X2 in skip;
    assert Subtract([X2], skip) == Subtract([], skip) == [];
    assert Mentioning(TwoEdges, [X1, X2], MergeEdge(AC)) == [X1] + [] == [X1];
    AppendNewOfDistinct([], [X1, X2]);
    AppendNewOfDistinct([], [X1]);
    assert [] + [X1, X2] == [X1, X2] && [] + [X1] == [X1];
    assert AppendNew<ChunkId>([], []) == [];
  }

  /**
   * Created by the edge to "b", entity "a" takes both chunks; created by the edge to "c", it takes the first,
   * and the edge to "b" then hands on no more than its limited list.
   */
  lemma OrderMayDecide()
    ensures NEW.Ready() && Entries(NEW.doc, ["1", "2"]) == NEW.op
    ensures !Determined(NEW, TwoEdges, Entity("a"))
  {
    TwoTexts();
    EdgesOfBoth();
    assert X1 in [X1, X2] && X2 in [X1, X2];
    assert AB in TwoEdges(X1).edges && AC in TwoEdges(X1).edges && "a" in AB && "a" in AC;
    assert |AB| == 2 && |AC| == 2;
    var ab, ac := MergeEdge(AB), MergeEdge(AC);
    assert ab in MergesOf(TwoEdges, NEW.entries) && ac in MergesOf(TwoEdges, NEW.entries);
    assert Creates(NEW, ab, "a", TwoEdges) && Creates(NEW, ac, "a", TwoEdges);
    SecondIsNeverPassed();
    assert X2 in NEW.Given(ab, TwoEdges) && X2 !in NEW.Given(ac, TwoEdges);
  }

  lemma SecondIsNeverPassed()
    ensures X2 !in NEW.Sure("a", TwoEdges)
  {
    EdgesOfBoth();
    forall m | m in MergesOf(TwoEdges, NEW.entries)
      ensures X2 !in NEW.Passed(m, TwoEdges)
    {
      assert m == MergeEdge(AB) || m == MergeEdge(AC);
      assert NEW.before.Limit([X1, X2]) == [X1, X2][..1] == [X1];
      assert NEW.before.Limit([X1]) == [X1];
    }
  }
}
