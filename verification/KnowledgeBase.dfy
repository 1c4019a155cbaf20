/**
 * The stores as mutable fields, and the operations that rewrite them step by step. Every operation is
 * tied to its specification on `Store` values, for every point at which it may stop.
 */
module KnowledgeBase {
  import opened Basics
  import opened Sources
  import opened Stores
  import opened Purge
  import opened Merging
  import opened CustomChunks
  import opened Admission
  import opened Deletion

  /**
   * `lists`, `cache` and `saved` serve document deletion: the cache ids carried by each stored chunk,
   * the extraction cache, and the cache ids kept in the status rows.
   */
  class Stack {
    var rows: map<DocId, Row>
    var bodies: set<DocId>
    var text: set<ChunkId>
    var anchors: map<DocId, set<Candidate>>
    var tracking: map<Candidate, seq<ChunkId>>
    var graph: map<Candidate, seq<ChunkId>>
    var index: map<Candidate, seq<ChunkId>>
    var lists: map<ChunkId, seq<CacheId>>
    var cache: set<CacheId>
    var saved: map<DocId, seq<CacheId>>
    const cap: nat
    const fifo: bool

    constructor (cap: nat, fifo: bool)
      ensures View() == Store(map[], {}, {}, map[], map[], map[], map[], cap, fifo)
    {
      this.cap, this.fifo := cap, fifo;
      rows, bodies, text, anchors := map[], {}, {}, map[];
      tracking, graph, index := map[], map[], map[];
      lists, cache, saved := map[], {}, map[];
    }

    ghost function View(): Store
      reads this
    {
      Store(rows, bodies, text, anchors, tracking, graph, index, cap, fifo)
    }

    ghost function Contents(): Disk
      reads this
    {
      Disk(View(), lists, cache, saved)
    }

    // -------------------------------------------------------------- purge

    /** `existing` is what tracking records, or else the graph's own list. */
    method ClassifyObject(c: Candidate, ids: set<ChunkId>, policy: Policy) returns (v: Verdict)
      requires c in graph
      ensures v == Classify(View(), c, ids, policy)
    {
      var existing := if c in tracking then tracking[c] else [];
      if existing == [] {
        existing := graph[c];
      }
      var remaining := SubtractSourceIds(existing, ids);
      if remaining == [] {
        v := Verdict.Delete;
      } else if remaining != existing || !(Elems(graph[c]) !! ids) || policy.RollbackPolicy? {
        v := Rebuild(remaining);
      } else {
        v := Untouched;
      }
    }

    /** The classification loops; a candidate absent from the graph is skipped. */
    method ClassifyContributions(cands: set<Candidate>, ids: set<ChunkId>, policy: Policy)
      returns (delete: set<Candidate>, rebuild: map<Candidate, seq<ChunkId>>)
      ensures Plan(delete, rebuild) == PlanFor(View(), cands, ids, policy)
    {
      delete, rebuild := {}, map[];
      var todo := cands;
      ghost var seen: set<Candidate> := {};
      while todo != {}
        invariant seen + todo == cands
        invariant Plan(delete, rebuild) == PlanFor(View(), seen, ids, policy)
        decreases todo
      {
        var c :| c in todo;
        if c in graph {
          var v := ClassifyObject(c, ids, policy);
          match v {
            case Delete => delete := delete + {c};
            case Rebuild(remaining) => rebuild := rebuild[c := remaining];
            case Untouched =>
          }
        }
        PlanGrows(View(), seen, c, ids, policy);
        todo, seen := todo - {c}, seen + {c};
      }
    }

    /** The edges that go down with the deleted nodes, gathered node by node. */
    method ResidualEdges(nodes: set<Candidate>) returns (edges: set<Candidate>)
      ensures edges == Incident(View(), nodes)
    {
      edges := {};
      var todo := nodes;
      while todo != {}
        invariant todo <= nodes
        invariant edges == Incident(View(), nodes - todo)
        decreases todo
      {
        var v :| v in todo;
        ghost var seen := nodes - todo;
        if v.Entity? {
          edges := edges + set c | c in graph && c.Relation? && v.name in c.ends;
        }
        todo := todo - {v};
        assert nodes - todo == seen + {v};
        IncidentGrows(View(), seen, v);
      }
      assert nodes - todo == nodes;
    }

    method DeleteObjects(gone: set<Candidate>)
      modifies `graph, `index, `tracking
      ensures View() == Drop(old(View()), gone)
    {
      index := index - gone;
      graph := graph - gone;
      tracking := tracking - gone;
    }

    /** Rebuild visits the scheduled objects; those no longer in the graph are skipped, and so are the lost ones under best effort. */
    method RebuildObjects(plan: Plan, job: Job)
      modifies `graph, `index
      ensures View() == RebuildSurvivors(old(View()), plan, job)
    {
      var todo := plan.rebuild.Keys;
      ghost var s := View();
      ghost var lists := Rebuilt(s, plan, job);
      while todo != {}
        invariant todo <= plan.rebuild.Keys
        invariant graph == s.graph + (lists - todo) && index == s.index + (lists - todo)
        decreases todo
      {
        var c :| c in todo;
        ScheduledNext(s.graph, lists, todo, c);
        ScheduledNext(s.index, lists, todo, c);
        assert c in lists <==> c in s.graph && (job.policy.RollbackPolicy? || c !in job.lost);
        if c in graph && (job.policy.RollbackPolicy? || c !in job.lost) {
          var list := Limited(plan.rebuild[c], cap, fifo);
          graph, index := graph[c := list], index[c := list];
        }
        todo := todo - {c};
      }
      assert lists - {} == lists;
    }

    /** `_purge_kg_contributions`, with its first `upTo` durable stages succeeding before a store fails. */
    method PurgeContributions(job: Job, upTo: nat)
      requires upTo <= STAGES
      modifies `anchors, `text, `graph, `index, `tracking
      ensures View() == After(old(View()), job, upTo)
      ensures job.ids == {} ==> View() == old(View())
    {
      if job.ids == {} { return; }
      ghost var s := View();
      var cands := if job.named.Some? then job.named.value else if job.doc in anchors then anchors[job.doc] else {};
      var delete, rebuild := ClassifyContributions(cands, job.ids, job.policy);
      var plan := Plan(delete, rebuild);
      assert plan == MakePlan(s, job);
      if upTo == 0 { return; }
      tracking := tracking + rebuild;
      assert View() == Stages(s, plan, job, 1);
      if upTo == 1 { return; }
      DeleteObjects(Relations(delete));
      assert View() == Stages(s, plan, job, 2);
      if upTo == 2 { return; }
      var edges := ResidualEdges(Entities(delete));
      DeleteObjects(Entities(delete) + edges);
      assert View() == Stages(s, plan, job, 3);
      if upTo == 3 { return; }
      RebuildObjects(plan, job);
      assert View() == Stages(s, plan, job, 4);
      if upTo == 4 { return; }
      text := text - job.ids;
      assert View() == Stages(s, plan, job, 5);
      if upTo == 5 { return; }
      if !job.patchOnly {
        anchors := anchors - {job.doc};
      }
      assert View() == Stages(s, plan, job, 6);
    }

    // -------------------------------------------------------------- rollback

    /** `_prune_doc_recovery_anchors`: a candidate stays only where one of the owned chunks is a source. */
    method PruneAnchors(d: DocId, j: Journal, owned: set<ChunkId>)
      modifies `anchors
      ensures View() == Pruned(old(View()), d, j, owned)
    {
      if d !in anchors { return; }
      ghost var s := View();
      var keep: set<Candidate> := {};
      var todo := anchors[d];
      while todo != {}
        invariant todo <= s.anchors[d]
        invariant keep == set c | c in s.anchors[d] - todo && (c !in j.cands || !(Elems(s.Tracked(c)) !! owned))
        decreases todo
      {
        var c :| c in todo;
        var sources := if c in tracking then tracking[c] else [];
        if c !in j.cands || !(Elems(sources) !! owned) {
          keep := keep + {c};
        }
        todo := todo - {c};
      }
      assert s.anchors[d] - todo == s.anchors[d];
      anchors := anchors[d := keep];
    }

    /** `_rollback_one_custom_chunk_patch`, stopping behind its first `upTo` stages. */
    method RollBackOne(d: DocId, upTo: nat)
      requires d in rows && rows[d].journal.Some?
      modifies this
      ensures View() == RollbackAfter(old(View()), d, upTo)
    {
      var row := rows[d];
      var j := row.journal.value;
      var job := RollbackJob(d, j);
      PurgeContributions(job, if upTo <= STAGES then upTo else STAGES);
      if upTo <= STAGES { return; }
      if j.mode.Create? {
        bodies := bodies - {d};
        rows := rows - {d};
      } else {
        PruneAnchors(d, j, Elems(row.chunks) - Elems(j.chunks));
        if upTo < ROLLBACK_STAGES { return; }
        var cleaned := SubtractSourceIds(row.chunks, Elems(j.chunks));
        rows := rows[d := Row(Processed, cleaned, None)];
      }
    }

    // -------------------------------------------------------------- insert

    method WriteLists(lists: map<Candidate, seq<ChunkId>>)
      modifies `tracking, `graph, `index
      ensures View() == Put(old(View()), lists)
    {
      ghost var s := View();
      var limited := map c | c in lists :: Limited(lists[c], cap, fifo);
      assert limited == map c | c in lists :: s.Limit(lists[c]);
      tracking, graph, index := tracking + lists, graph + limited, index + limited;
    }

    method Known(c: Candidate) returns (list: seq<ChunkId>)
      ensures list == KnownSources(View(), c)
    {
      list := if c in tracking then tracking[c] else [];
      if list == [] && c in graph {
        list := graph[c];
      }
    }

    /** One object's merge: tracking, graph and vectors of the object, and for an edge of its ends. */
    method MergeOne(m: Merge, ids: seq<ChunkId>)
      modifies `tracking, `graph, `index
      ensures View() == Merged(old(View()), m, ids)
    {
      if m.MergeEdge? && |m.ends| != 2 { return; }
      var c := Object(m);
      var known := Known(c);
      var full := MergeSourceIds(known, ids);
      if !fifo && |known| >= cap && Elems(ids) !! Elems(known) {
        tracking := tracking[c := full];
      } else if m.MergeNode? {
        WriteLists(map[c := full]);
      } else {
        var lists := EndLists(m.ends, full);
        WriteLists(lists[c := full]);
      }
    }

    method EndLists(ends: set<Name>, full: seq<ChunkId>) returns (lists: map<Candidate, seq<ChunkId>>)
      ensures lists == Ends(View(), ends, full)
    {
      lists := map[];
      var todo := ends;
      ghost var seen: set<Name> := {};
      while todo != {}
        invariant seen + todo == ends
        invariant lists == Ends(View(), seen, full)
        decreases todo
      {
        var n :| n in todo;
        var list := full;
        if Entity(n) in graph {
          var known := Known(Entity(n));
          list := MergeSourceIds(known, Limited(full, cap, fifo));
        }
        EndsNext(View(), seen, n, full);
        lists := lists[Entity(n) := list];
        todo, seen := todo - {n}, seen + {n};
      }
    }

    method MergeStep(o: Op, m: Merge, ext: Extractor) returns (o': Op)
      requires o.pc.AtMerge? && MayMerge(o, m, ext)
      modifies `tracking, `graph, `index
      ensures OpStep(old(View()), o, MergeObject(m), ext) == Sys(View(), Some(o'))
      ensures o' == o.(done := o.done + {m})
    {
      MergeOne(m, Mentioning(ext, o.entries, m));
      o' := o.(done := o.done + {m});
    }

    /** One merge after the other, at most `budget` of them, in whatever order they come. */
    method MergeAll(o: Op, ms: set<Merge>, ext: Extractor, budget: nat)
      returns (o': Op, left: nat, ghost trace: seq<Action>)
      requires o.pc.AtMerge? && ms <= MergesOf(ext, o.entries) && ms !! o.done
      requires (forall m | m in ms :: m.MergeNode?) || NodeMerges(ext, o.entries) <= o.done
      modifies `tracking, `graph, `index
      ensures Exec(Sys(old(View()), Some(o)), trace, ext) == Sys(View(), Some(o'))
      ensures OnlyMerges(trace)
      ensures o' == o.(done := o'.done) && o.done <= o'.done <= o.done + ms
      ensures o'.done == o.done + ms <==> budget >= |ms|
      ensures left == if budget >= |ms| then budget - |ms| else 0
    {
      o', trace := o, [];
      var todo := ms;
      left := budget;
      ghost var start := Sys(View(), Some(o));
      while todo != {} && left > 0
        invariant Split(o'.done, todo, o.done + ms) && todo <= ms && |todo| + budget == |ms| + left
        invariant Exec(start, trace, ext) == Sys(View(), Some(o'))
        invariant OnlyMerges(trace)
        invariant o' == o.(done := o'.done) && o.done <= o'.done
        decreases todo
      {
        var m :| m in todo;
        OneMore(o'.done, todo, o.done + ms, m);
        o' := MergeStep(o', m, ext);
        ExecSnoc(start, trace, MergeObject(m), ext);
        trace := trace + [MergeObject(m)];
        todo, left := todo - {m}, left - 1;
      }
      assert todo == {} <==> o'.done == o.done + ms;
    }

    /** `merge_nodes_and_edges`: all entities, and only then the relations; at most `budget` objects. */
    method MergePhase(o: Op, ext: Extractor, budget: nat)
      returns (o': Op, left: nat, ghost trace: seq<Action>)
      requires o.pc.AtMerge? && o.done == {}
      modifies `tracking, `graph, `index
      ensures Exec(Sys(old(View()), Some(o)), trace, ext) == Sys(View(), Some(o'))
      ensures OnlyMerges(trace)
      ensures o' == o.(done := o'.done) && o'.done <= MergesOf(ext, o.entries)
      ensures o'.done == MergesOf(ext, o.entries) <==> budget >= |MergesOf(ext, o.entries)|
      ensures o'.done == MergesOf(ext, o.entries) ==> left == budget - |MergesOf(ext, o.entries)|
    {
      var all, nodes := MergesOf(ext, o.entries), NodeMerges(ext, o.entries);
      ghost var start := Sys(View(), Some(o));
      ghost var more: seq<Action>;
      TwoPhases(all, nodes);
      assert o.done + nodes == nodes;
      o', left, trace := MergeAll(o, nodes, ext, budget);
      if o'.done != nodes { return; }
      o', left, more := MergeAll(o', all - nodes, ext, left);
      ExecConcat(start, trace, more, ext);
      trace := trace + more;
    }

    /** How a call ends: normally behind the commit record, else with the failure recorded, or not even that. */
    method Settle(o: Op, crash: bool, ext: Extractor) returns (ghost last: Action)
      modifies `rows
      ensures OpStep(old(View()), o, last, ext) == Sys(View(), None)
      ensures last == if o.pc.AtCommit? then Return else if crash then Crash else Fail
    {
      if o.pc.AtCommit? {
        last := Return;
      } else if crash {
        last := Crash;
      } else {
        rows := rows[o.doc := JournalRow(o, Failed, Interrupted)];
        last := Fail;
      }
    }

    /**
     * `ainsert_custom_chunks`: journal, chunks, candidates, anchors, merges, anchors, commit record.
     * A store fails behind the first `steps` steps; the failure is then recorded in the row unless that
     * write fails too (`crash`). The trace is the run of the state machine that this call performs.
     */
    method InsertCustomChunks(d: DocId, texts: seq<string>, ext: Extractor, steps: nat, crash: bool)
      returns (committed: bool, ghost trace: seq<Action>)
      modifies this
      ensures Exec(Sys(old(View()), None), [Call(d, texts)] + trace, ext) == Sys(View(), None)
      ensures forall a | a in trace :: !a.Call? && !a.RollBack?
      ensures committed <==> WriteCommit in trace
      ensures committed ==> Fail !in trace && Crash !in trace
      ensures var decided := Decide(old(View()), d, Entries(d, texts));
              committed <==> decided.Launch? && steps >= 5 + |MergesOf(ext, decided.entries)|
      ensures !Admits(old(View()), d, texts) ==> !committed && View() == old(View())
      ensures Admits(old(View()), d, texts) && steps >= 5 + |MergesOf(ext, Entries(d, texts))| ==> committed
    {
      ghost var start := Sys(View(), None);
      AdmittedWork(View(), d, texts, ext);
      var admitted, o := Admit(d, texts);
      trace, committed := [], false;
      FirstAction(start, Call(d, texts), [], ext);
      if !admitted { return; }
      ghost var called := Sys(View(), Some(o));
      o, trace := RunSteps(o, ext, steps);
      committed := o.pc.AtCommit?;
      ghost var last := Settle(o, crash, ext);
      ExecSnoc(called, trace, last, ext);
      trace := trace + [last];
      FirstAction(start, Call(d, texts), trace, ext);
    }

    /** Committed-content dedup, in patch mode: drop what the document's stored chunks already say. */
    method Undone(row: Row, mode: Mode, op: seq<ChunkId>) returns (entries: seq<ChunkId>)
      ensures entries == StillPending(View(), row, mode, op)
    {
      entries := op;
      if mode.Patch? {
        var known := set ch | ch in row.chunks && ch in text :: ch.text;
        entries := SubtractSourceIds(op, set ch | ch in op && ch.text in known);
      }
    }

    /** The mode and the pending chunks of a call, or its refusal. */
    method Resolve(d: DocId, op: seq<ChunkId>) returns (decided: Decision)
      ensures decided == Decide(View(), d, op)
    {
      decided := NothingToDo;
      if op == [] { return; }
      if d in rows {
        var row := rows[d];
        if row.journal.Some? {
          var j := row.journal.value;
          if j.op != op { return Refused; }
          var entries := Undone(row, j.mode, op);
          decided := Launch(j.mode, entries, j.cands);
        } else if row.status != Processed {
          decided := Refused;
        } else {
          var entries := Undone(row, Patch, op);
          if entries != [] {
            decided := Launch(Patch, entries, {});
          }
        }
      } else if d !in bodies {
        decided := Launch(Create, op, {});
      }
    }

    /** Admission: identity of the operation, its mode, what is still pending, and the first journal write. */
    method Admit(d: DocId, texts: seq<string>) returns (admitted: bool, o: Op)
      modifies `rows
      ensures CallStep(Sys(old(View()), None), d, texts) == Sys(View(), if admitted then Some(o) else None)
      ensures var decided := Decide(old(View()), d, Entries(d, texts));
              (admitted <==> decided.Launch?) && (admitted ==> o.entries == decided.entries)
    {
      var op := EntriesOf(d, texts);
      var decided := Resolve(d, op);
      admitted := decided.Launch?;
      if admitted {
        o := Op(d, decided.mode, op, decided.entries, if d in rows then rows[d].chunks else [], decided.cands, AtJournal, {});
        rows := rows[d := JournalRow(o, Processing, Prepared)];
      } else {
        o := Op(d, Create, op, op, [], {}, AtJournal, {});
      }
    }

    /** The entry loop: empty texts are skipped, repeated ids are dropped. */
    method EntriesOf(d: DocId, texts: seq<string>) returns (op: seq<ChunkId>)
      ensures op == Entries(d, texts)
    {
      op := [];
      for i := 0 to |texts|
        invariant AppendNew(op, IdsFor(d, texts[i..])) == Entries(d, texts)
      {
        assert texts[i..][0] == texts[i] && texts[i..][1..] == texts[i + 1..];
        ghost var rest := IdsFor(d, texts[i + 1..]);
        if texts[i] != "" {
          var id := ChunkId(d, texts[i]);
          assert IdsFor(d, texts[i..]) == [id] + rest;
          assert ([id] + rest)[0] == id && ([id] + rest)[1..] == rest;
          if id !in op {
            op := op + [id];
          }
        } else {
          assert IdsFor(d, texts[i..]) == [] + rest == rest;
        }
      }
    }

    method PutChunks(o: Op, ext: Extractor) returns (o': Op)
      requires o.pc.AtJournal?
      modifies `text, `bodies
      ensures OpStep(old(View()), o, StageChunks, ext) == Sys(View(), Some(o')) && o' == o.(pc := AtChunks)
    {
      text := text + Elems(o.entries);
      if o.mode.Create? {
        bodies := bodies + {o.doc};
      }
      o' := o.(pc := AtChunks);
    }

    method JournalApplying(o: Op, ext: Extractor) returns (o': Op)
      requires o.pc.AtChunks?
      modifies `rows
      ensures OpStep(old(View()), o, JournalCandidates, ext) == Sys(View(), Some(o'))
      ensures o' == o.(pc := AtCandidates, cands := o'.cands)
    {
      o' := o.(cands := CandidatesOf(ext, o.entries), pc := AtCandidates);
      rows := rows[o.doc := JournalRow(o', Processing, Applying)];
    }

    method AnchorFirst(o: Op, ext: Extractor) returns (o': Op)
      requires o.pc.AtCandidates?
      modifies `anchors
      ensures OpStep(old(View()), o, PrewriteAnchors, ext) == Sys(View(), Some(o')) && o' == o.(pc := AtMerge)
    {
      if o.mode.Create? {
        anchors := anchors[o.doc := o.cands];
      }
      o' := o.(pc := AtMerge);
    }

    /** `_union_doc_recovery_anchors`, in patch mode. */
    method AnchorLast(o: Op, ext: Extractor) returns (o': Op)
      requires o.pc.AtMerge? && o.done == MergesOf(ext, o.entries)
      modifies `anchors
      ensures OpStep(old(View()), o, UnionAnchors, ext) == Sys(View(), Some(o')) && o' == o.(pc := AtAnchors)
    {
      if o.mode.Patch? {
        var union := (if o.doc in anchors then anchors[o.doc] else {}) + o.cands;
        anchors := anchors[o.doc := union];
      }
      o' := o.(pc := AtAnchors);
    }

    method CommitRecord(o: Op, ext: Extractor) returns (o': Op)
      requires o.pc.AtAnchors?
      modifies `rows
      ensures OpStep(old(View()), o, WriteCommit, ext) == Sys(View(), Some(o')) && o' == o.(pc := AtCommit)
    {
      var list := if o.mode.Patch? then AppendNew([], o.base + o.entries) else o.entries;
      rows := rows[o.doc := Row(Processed, list, None)];
      o' := o.(pc := AtCommit);
    }

    /** The stages before the first graph mutation, at most `steps` of them. */
    method Prepare(o: Op, ext: Extractor, steps: nat) returns (o': Op, ghost trace: seq<Action>)
      requires o.pc.AtJournal?
      modifies `text, `bodies, `rows, `anchors
      ensures Exec(Sys(old(View()), Some(o)), trace, ext) == Sys(View(), Some(o'))
      ensures trace == [StageChunks, JournalCandidates, PrewriteAnchors][..if steps < 3 then steps else 3]
      ensures o'.doc == o.doc && o'.done == o.done && o'.entries == o.entries
      ensures if steps < 3 then !o'.pc.AtCommit? && !o'.pc.AtAnchors? else o'.pc.AtMerge?
    {
      ghost var start := Sys(View(), Some(o));
      o', trace := o, [];
      if steps == 0 { return; }
      o' := PutChunks(o', ext);
      ExecSnoc(start, trace, StageChunks, ext);
      trace := trace + [StageChunks];
      if steps == 1 { return; }
      o' := JournalApplying(o', ext);
      ExecSnoc(start, trace, JournalCandidates, ext);
      trace := trace + [JournalCandidates];
      if steps == 2 { return; }
      o' := AnchorFirst(o', ext);
      ExecSnoc(start, trace, PrewriteAnchors, ext);
      trace := trace + [PrewriteAnchors];
    }

    /** The stages behind the merges, at most `steps` of them. */
    method Conclude(o: Op, ext: Extractor, steps: nat) returns (o': Op, ghost trace: seq<Action>)
      requires o.pc.AtMerge? && o.done == MergesOf(ext, o.entries)
      modifies `rows, `anchors
      ensures Exec(Sys(old(View()), Some(o)), trace, ext) == Sys(View(), Some(o'))
      ensures trace == [UnionAnchors, WriteCommit][..if steps < 2 then steps else 2]
      ensures o'.doc == o.doc && (o'.pc.AtCommit? <==> steps >= 2)
    {
      ghost var start := Sys(View(), Some(o));
      o', trace := o, [];
      if steps == 0 { return; }
      o' := AnchorLast(o', ext);
      ExecSnoc(start, trace, UnionAnchors, ext);
      trace := trace + [UnionAnchors];
      if steps == 1 { return; }
      o' := CommitRecord(o', ext);
      ExecSnoc(start, trace, WriteCommit, ext);
      trace := trace + [WriteCommit];
    }

    /** The merges, and what follows them when all are done. */
    method MergeAndConclude(o: Op, ext: Extractor, steps: nat) returns (o': Op, ghost trace: seq<Action>)
      requires o.pc.AtMerge? && o.done == {}
      modifies this
      ensures Exec(Sys(old(View()), Some(o)), trace, ext) == Sys(View(), Some(o'))
      ensures OnlyStages(trace) && o'.doc == o.doc
      ensures o'.pc.AtCommit? <==> WriteCommit in trace
      ensures o'.pc.AtCommit? <==> steps >= 2 + |MergesOf(ext, o.entries)|
    {
      ghost var start := Sys(View(), Some(o));
      ghost var more: seq<Action>;
      var left;
      o', left, trace := MergePhase(o, ext, steps);
      if o'.done != MergesOf(ext, o'.entries) { return; }
      o', more := Conclude(o', ext, left);
      ExecConcat(start, trace, more, ext);
      StagesConcat(trace, more);
      trace := trace + more;
    }

    /** The stages between the first journal write and the commit record, at most `steps` of them. */
    method RunSteps(o: Op, ext: Extractor, steps: nat) returns (o': Op, ghost trace: seq<Action>)
      requires o.pc.AtJournal? && o.done == {}
      modifies this
      ensures Exec(Sys(old(View()), Some(o)), trace, ext) == Sys(View(), Some(o'))
      ensures OnlyStages(trace) && o'.doc == o.doc
      ensures o'.pc.AtCommit? <==> WriteCommit in trace
      ensures o'.pc.AtCommit? <==> steps >= 5 + |MergesOf(ext, o.entries)|
    {
      ghost var start := Sys(View(), Some(o));
      o', trace := Prepare(o, ext, steps);
      if steps < 3 { return; }
      ghost var more: seq<Action>;
      o', more := MergeAndConclude(o', ext, steps - 3);
      ExecConcat(start, trace, more, ext);
      StagesConcat(trace, more);
      trace := trace + more;
    }

    // -------------------------------------------------------------- document deletion

    /** The collection loops: ids kept by earlier attempts first, then those of each chunk still stored. */
    method CollectCacheIds(d: DocId, chunks: seq<ChunkId>) returns (ids: seq<CacheId>)
      ensures ids == AppendNew(Contents().SavedOf(d), CollectFrom(lists, chunks))
    {
      ids := if d in saved then saved[d] else [];
      ghost var kept := ids;
      for i := 0 to |chunks|
        invariant AppendNew(ids, CollectFrom(lists, chunks[i..])) == AppendNew(kept, CollectFrom(lists, chunks))
      {
        assert chunks[i..][0] == chunks[i] && chunks[i..][1..] == chunks[i + 1..];
        var here := if chunks[i] in lists then lists[chunks[i]] else [];
        AppendNewConcat(ids, here, CollectFrom(lists, chunks[i + 1..]));
        ids := AppendUnseen(ids, here);
      }
    }

    /** The analysis of a deletion: anchors and journal together name the objects to classify. */
    method PlanDeletion(d: DocId, ids: set<ChunkId>, lost: set<Candidate>) returns (job: Job, plan: Plan)
      requires ids == View().OwnedChunks(d)
      ensures job == DeletionJob(View(), d, lost) && plan == MakePlan(View(), job)
    {
      var names := (if d in anchors then anchors[d] else {})
        + if d in rows && rows[d].journal.Some? then rows[d].journal.value.cands else {};
      job := Job(d, ids, Some(names), false, BestEffort, lost);
      var delete, rebuild := ClassifyContributions(names, ids, BestEffort);
      plan := Plan(delete, rebuild);
    }

    /** One durable knowledge-graph stage of a deletion. */
    method DeletionStage(job: Job, plan: Plan, k: nat)
      modifies `tracking, `graph, `index, `text, `anchors
      ensures View() == KgStage(old(View()), plan, job, k)
    {
      match k {
        case 0 => tracking := tracking + plan.rebuild;
        case 1 => text := text - job.ids;
        case 2 => DeleteObjects(Relations(plan.delete));
        case 3 =>
          var edges := ResidualEdges(Entities(plan.delete));
          DeleteObjects(Entities(plan.delete) + edges);
        case 4 => RebuildObjects(plan, job);
        case 5 =>
          if !job.patchOnly {
            anchors := anchors - {job.doc};
          }
        case _ =>
      }
    }

    /** The knowledge-graph stages of a deletion, the first `upTo` of them. */
    method DeleteFromGraph(d: DocId, ids: set<ChunkId>, lost: set<Candidate>, upTo: nat)
      requires ids == View().OwnedChunks(d)
      modifies `tracking, `graph, `index, `text, `anchors
      ensures View() == KgAfter(old(View()), d, lost, upTo)
    {
      ghost var s := View();
      var job, plan := PlanDeletion(d, ids, lost);
      for k := 0 to upTo
        invariant View() == KgStages(s, plan, job, k)
      {
        DeletionStage(job, plan, k);
      }
    }

    /** The cache deletion: all of the ids, or `removed` of them before it fails with the rest. */
    method DeleteCached(ids: seq<CacheId>, fails: bool, removed: set<CacheId>) returns (rest: seq<CacheId>)
      modifies `cache
      ensures cache == if fails then old(cache) - (removed * Elems(ids)) else old(cache) - Elems(ids)
      ensures rest == if fails then Subtract(ids, set i | i in ids && i !in cache) else ids
    {
      rest := ids;
      if fails {
        cache := cache - (removed * Elems(ids));
        rest := SubtractSourceIds(ids, set i | i in ids && i !in cache);
      } else {
        cache := cache - Elems(ids);
      }
    }

    /** `_update_delete_retry_state`: the ids in hand, or else what the row already keeps. */
    method KeepForRetry(d: DocId, ids: seq<CacheId>)
      modifies `saved
      ensures Contents() == Saving(old(Contents()), d, ids)
    {
      if ids != [] {
        saved := saved[d := ids];
      }
    }

    /** The failure handler: the record in hand is upserted, unless the final stage has begun. */
    method HandleFailure(d: DocId, row: Row, kept: map<DocId, seq<CacheId>>, ids: seq<CacheId>, final: bool)
      modifies `rows, `saved
      ensures Contents() == Handled(old(Contents()), d, row, kept, ids, final)
    {
      if final { return; }
      rows := rows[d := row];
      if ids != [] {
        saved := saved[d := ids];
      } else if d in kept {
        saved := saved[d := kept[d]];
      }
    }

    /** The document's entries: the status row first, then the body. */
    method DeleteEntries(d: DocId, upTo: nat)
      modifies `rows, `saved, `bodies
      ensures View() == EntriesGone(old(View()), d, upTo)
      ensures saved == if upTo >= ROW then old(saved) - {d} else old(saved)
    {
      if upTo >= ROW {
        rows, saved := rows - {d}, saved - {d};
        if upTo >= BODY {
          bodies := bodies - {d};
        }
      }
    }

    /** The path of a document without chunks: cached extractions of an earlier attempt, then the entries. */
    method DeleteBare(d: DocId, withCache: bool, lost: set<Candidate>, upTo: nat, removed: set<CacheId>)
      requires d in rows && View().OwnedChunks(d) == {} && upTo <= BODY
      modifies `rows, `bodies, `cache, `saved
      ensures Contents() == Broken(old(Contents()), d, withCache, lost, upTo, removed)
    {
      ghost var disk := Contents();
      BareCollects(disk, d);
      var ids := if d in saved then saved[d] else [];
      if withCache && upTo >= REBUILD {
        ids := DeleteCached(ids, upTo == REBUILD, removed);
      }
      DeleteEntries(d, upTo);
      assert lists == disk.lists - {};
    }

    /** The stages of the chunk-backed path before the cached extractions: the record, the graph, the chunks with their lists. */
    method ChunkStages(d: DocId, owned: set<ChunkId>, ids: seq<CacheId>, lost: set<Candidate>, upTo: nat)
      requires owned == View().OwnedChunks(d)
      modifies this
      ensures View() == KgAfter(old(View()), d, lost, KgStagesDone(upTo)) && saved == Saving(old(Contents()), d, ids).saved
      ensures lists == (if upTo >= 3 then old(lists) - owned else old(lists)) && cache == old(cache)
    {
      KeepForRetry(d, ids);
      DeleteFromGraph(d, owned, lost, KgStagesDone(upTo));
      if upTo >= 3 {
        lists := lists - owned;
      }
    }

    /** The chunk-backed path; it hands back the cache ids and the flag that the failure handler reads. */
    method DeleteChunked(d: DocId, owned: set<ChunkId>, ids: seq<CacheId>, withCache: bool, lost: set<Candidate>, upTo: nat, removed: set<CacheId>)
      returns (rest: seq<CacheId>, final: bool)
      requires d in rows && View().OwnedChunks(d) == owned != {} && ids == Collected(Contents(), d) && upTo <= BODY
      modifies this
      ensures Contents() == Broken(old(Contents()), d, withCache, lost, upTo, removed)
      ensures rest == InHand(old(Contents()), d, withCache, upTo, Contents()) && final == FinalStage(old(View()), d, upTo)
    {
      ghost var disk := Contents();
      rest, final := [], false;
      if upTo == 0 {
        assert KgAfter(disk.kg, d, lost, 0) == disk.kg;
        return;
      }
      ChunkStages(d, owned, ids, lost, upTo);
      KgRows(disk.kg, d, lost, KgStagesDone(upTo));
      rest := ids;
      if withCache && upTo >= REBUILD {
        rest := DeleteCached(ids, upTo == REBUILD, removed);
      }
      final := upTo >= ANCHORS;
      DeleteEntries(d, upTo);
    }

    /** `adelete_by_doc_id`, with or without chunks; a store fails behind the first `upTo` stages. */
    method DeleteDocument(d: DocId, withCache: bool, lost: set<Candidate>, upTo: nat, removed: set<CacheId>)
      requires d in rows && upTo <= BODY
      modifies this
      ensures Contents() == if upTo == BODY then Progress(old(Contents()), d, withCache, lost, BODY)
                            else FailedCall(old(Contents()), d, withCache, lost, upTo, removed)
      ensures !withCache ==> cache == old(cache)
      ensures withCache && upTo == BODY ==> cache == set i | i in old(cache) && !Attributed(old(Contents()), d, i)
    {
      ghost var disk := Contents();
      forall i
        ensures i in Progress(disk, d, withCache, lost, BODY).cache <==> i in disk.cache && !(withCache && Attributed(disk, d, i))
        ensures !withCache ==> (i in FailedCall(disk, d, withCache, lost, upTo, removed).cache <==> i in disk.cache)
      {
        CacheAfter(disk, d, withCache, lost, upTo, removed, i);
      }
      var row, kept := rows[d], saved;
      var staged := if row.journal.Some? then row.journal.value.chunks else [];
      var owned := Elems(row.chunks) + Elems(staged);
      assert owned == View().OwnedChunks(d);
      var rest, final := [], false;
      if owned == {} {
        DeleteBare(d, withCache, lost, upTo, removed);
      } else {
        var ids := CollectCacheIds(d, AppendNew([], row.chunks + staged));
        kept := if upTo >= SAVE && ids != [] then saved[d := ids] else saved;
        rest, final := DeleteChunked(d, owned, ids, withCache, lost, upTo, removed);
      }
      if upTo < BODY {
        HandleFailure(d, row, kept, rest, final);
      }
    }
  }

  /** What is done and what is still to do. */
  ghost predicate Split(done: set<Merge>, todo: set<Merge>, all: set<Merge>) {
    done + todo == all && done !! todo
  }

  lemma OneMore(done: set<Merge>, todo: set<Merge>, all: set<Merge>, m: Merge)
    requires Split(done, todo, all) && m in todo
    ensures Split(done + {m}, todo - {m}, all) && |todo - {m}| == |todo| - 1
  {
  }

  /** A call that is admitted has no more to merge than all that it brings. */
  lemma AdmittedWork(s: Store, d: DocId, texts: seq<string>, ext: Extractor)
    ensures var decided := Decide(s, d, Entries(d, texts));
            && (Admits(s, d, texts) <==> decided.Launch?)
            && (decided.Launch? ==> |MergesOf(ext, decided.entries)| <= |MergesOf(ext, Entries(d, texts))|)
  {
    CallRuns(s, d, texts);
    if Admits(s, d, texts) {
      CallStarts(s, d, texts);
      EntriesAre(d, texts);
      FewerMerges(ext, Decide(s, d, Entries(d, texts)).entries, Entries(d, texts));
    }
  }

  lemma FewerMerges(ext: Extractor, some: seq<ChunkId>, all: seq<ChunkId>)
    requires forall ch | ch in some :: ch in all
    ensures |MergesOf(ext, some)| <= |MergesOf(ext, all)|
  {
    assert MergesOf(ext, some) <= MergesOf(ext, all);
    assert |MergesOf(ext, all)| == |MergesOf(ext, some)| + |MergesOf(ext, all) - MergesOf(ext, some)|;
  }

  lemma TwoPhases(all: set<Merge>, nodes: set<Merge>)
    requires nodes <= all
    ensures |all| == |nodes| + |all - nodes| && nodes + (all - nodes) == all && |nodes| <= |all|
  {
    assert nodes + (all - nodes) == all;
  }

  ghost predicate OnlyMerges(trace: seq<Action>) {
    forall a | a in trace :: a.MergeObject?
  }

  ghost predicate OnlyStages(trace: seq<Action>) {
    forall a | a in trace :: !a.Call? && !a.RollBack? && !a.Fail? && !a.Crash? && !a.Return?
  }

  lemma StagesConcat(a: seq<Action>, b: seq<Action>)
    requires OnlyStages(a) && OnlyStages(b)
    ensures OnlyStages(a + b)
    ensures WriteCommit in a + b <==> WriteCommit in a || WriteCommit in b
  {
  }

  lemma FirstAction(start: Sys, a: Action, trace: seq<Action>, ext: Extractor)
    ensures Exec(start, [a] + trace, ext) == Exec(Next(start, a, ext), trace, ext)
  {
    assert ([a] + trace)[1..] == trace;
  }

  lemma {:induction false} ExecConcat(sys: Sys, a: seq<Action>, b: seq<Action>, ext: Extractor)
    ensures Exec(sys, a + b, ext) == Exec(Exec(sys, a, ext), b, ext)
    decreases |a|
  {
    if a == [] {
      assert a + b == b;
    } else {
      assert (a + b)[1..] == a[1..] + b;
      ExecConcat(Next(sys, a[0], ext), a[1..], b, ext);
    }
  }

  lemma ExecSnoc(sys: Sys, trace: seq<Action>, a: Action, ext: Extractor)
    ensures Exec(sys, trace + [a], ext) == Next(Exec(sys, trace, ext), a, ext)
  {
    ExecConcat(sys, trace, [a], ext);
    assert [a][1..] == [];
  }

  lemma PlanGrows(s: Store, cands: set<Candidate>, c: Candidate, ids: set<ChunkId>, policy: Policy)
    ensures var p, q := PlanFor(s, cands, ids, policy), PlanFor(s, cands + {c}, ids, policy);
            if c !in s.graph then q == p
            else match Classify(s, c, ids, policy)
              case Delete => q == Plan(p.delete + {c}, p.rebuild)
              case Rebuild(rest) => q == Plan(p.delete, p.rebuild[c := rest])
              case Untouched => q == p
  {
    var p, q := PlanFor(s, cands, ids, policy), PlanFor(s, cands + {c}, ids, policy);
    forall x
      ensures x in q.delete <==> x in p.delete || (x == c && c in s.graph && Classify(s, c, ids, policy).Delete?)
      ensures x in q.rebuild <==> x in p.rebuild || (x == c && c in s.graph && Classify(s, c, ids, policy).Rebuild?)
      ensures x in q.rebuild ==> x in s.graph && q.rebuild[x] == Classify(s, x, ids, policy).remaining
      ensures x in p.rebuild ==> x in s.graph && p.rebuild[x] == Classify(s, x, ids, policy).remaining
    {
    }
  }

  lemma IncidentGrows(s: Store, nodes: set<Candidate>, v: Candidate)
    ensures Incident(s, nodes + {v})
         == Incident(s, nodes) + (if v.Entity? then set c | c in s.graph && c.Relation? && v.name in c.ends else {})
  {
    forall c | c in s.graph && c.Relation?
      ensures c in Incident(s, nodes + {v}) <==> c in Incident(s, nodes) || (v.Entity? && v.name in c.ends)
    {
      if n :| n in c.ends && Entity(n) in nodes + {v} {
      }
      if v.Entity? && v.name in c.ends {
        assert Entity(v.name) in nodes + {v};
      }
    }
  }

  lemma ScheduledNext(m: map<Candidate, seq<ChunkId>>, lists: map<Candidate, seq<ChunkId>>, todo: set<Candidate>, c: Candidate)
    requires c in todo
    ensures m + (lists - (todo - {c})) == if c in lists then (m + (lists - todo))[c := lists[c]] else m + (lists - todo)
  {
  }

  lemma EndsNext(s: Store, seen: set<Name>, n: Name, full: seq<ChunkId>)
    ensures Ends(s, seen + {n}, full) == Ends(s, seen, full)[Entity(n) := EndAfter(s, n, full)]
  {
  }
}
