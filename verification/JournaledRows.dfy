/**
 * The status and the phase that a row with a journal carries in every state that the system's runs reach, and
 * that both sweeps therefore find every unfinished operation.
 */
module JournaledRows {
  import opened Basics
  import opened Sources
  import opened Stores
  import opened Purge
  import opened Merging
  import opened CustomChunks
  import opened Admission
  import opened Coverage
  import opened DeletionCoverage
  import opened SweptStores
  import D = Deletion
  import S = RollbackSweep

  /** A row with a journal is failed and interrupted, or processing and not interrupted. */
  predicate Phased(row: Row) {
    row.journal.Some? ==> if row.status.Failed? then row.journal.value.phase.Interrupted?
                          else row.status.Processing? && !row.journal.value.phase.Interrupted?
  }

  /** What the running operation has written into its row so far. */
  predicate Reports(row: Row, pc: Pc) {
    if pc.AtCommit? then row.status.Processed? && row.journal.None?
    else
      && row.status.Processing? && row.journal.Some?
      && row.journal.value.phase == if pc.AtJournal? || pc.AtChunks? then Prepared else Applying
  }

  ghost predicate AllPhased(sys: Sys) {
    && (forall d | d in sys.store.rows :: Phased(sys.store.rows[d]))
    && (sys.running.Some? ==> var o := sys.running.value; o.doc in sys.store.rows && Reports(sys.store.rows[o.doc], o.pc))
  }

  lemma CallKeepsPhased(s: Store, d: DocId, texts: seq<string>)
    requires AllPhased(Sys(s, None))
    ensures AllPhased(CallStep(Sys(s, None), d, texts))
  {
    CallRuns(s, d, texts);
    if Admits(s, d, texts) {
      CallStarts(s, d, texts);
    }
  }

  lemma OpKeepsPhased(s: Store, o: Op, a: Action, ext: Extractor)
    requires AllPhased(Sys(s, Some(o)))
    ensures AllPhased(OpStep(s, o, a, ext))
  {
    var n := OpStep(s, o, a, ext);
    assert forall d | d in n.store.rows && d != o.doc :: d in s.rows && n.store.rows[d] == s.rows[d];
  }

  lemma RollbackKeepsPhased(s: Store, d: DocId, k: nat)
    requires AllPhased(Sys(s, None)) && s.JournalOf(d).Some?
    ensures AllPhased(Sys(RollbackAfter(s, d, k), None))
  {
    RollbackRow(s, d, k);
  }

  lemma DeletionKeepsPhased(s: Store, d: DocId, lost: set<Candidate>, k: nat)
    requires AllPhased(Sys(s, None))
    ensures AllPhased(Sys(DeleteStore(s, d, lost, k), None))
  {
    D.KgRows(s, d, lost, if k < D.KG_STAGES then k else D.KG_STAGES);
  }

  lemma EventKeepsPhased(w: World, e: Event, ext: Extractor)
    requires AllPhased(w.sys)
    ensures AllPhased(Happens(w, e, ext).sys)
  {
    match e
    case Step(a) =>
      match w.sys.running {
        case Some(o) => OpKeepsPhased(w.sys.store, o, a, ext);
        case None =>
          if a.Call? {
            CallKeepsPhased(w.sys.store, a.doc, a.texts);
          } else if a.RollBack? && w.sys.store.JournalOf(a.doc).Some? {
            RollbackKeepsPhased(w.sys.store, a.doc, a.upTo);
          }
      }
    case DeleteCall(d, lost, k) =>
      if w.sys.running.None? && d in w.sys.store.rows {
        DeletionKeepsPhased(w.sys.store, d, lost, k);
      }
  }

  /**
   * Over all runs, with failures, crashes, resumes, stopped rollbacks and stopped deletions: a journal is prepared
   * or applying while its operation runs, as far as that has come, interrupted in a failed row, and left in a
   * processing row by a crash; the commit record carries none.
   */
  lemma {:induction false} RunsStayPhased(w: World, events: seq<Event>, ext: Extractor)
    requires AllPhased(w.sys)
    ensures AllPhased(Run(w, events, ext).sys)
    decreases |events|
  {
    if events != [] {
      EventKeepsPhased(w, events[0], ext);
      RunsStayPhased(Happens(w, events[0], ext), events[1..], ext);
    }
  }

  /**
   * However a run from stores without journals has gone, crashes included, the rows with a journal are among those
   * that the sweep queries: it is for exactly the unfinished operations.
   */
  lemma SweepFindsUnfinished(w: World, events: seq<Event>, ext: Extractor, names: map<S.Id, DocId>, created: map<S.Id, nat>)
    requires w.sys.running.None? && forall d | d in w.sys.store.rows :: w.sys.store.rows[d].journal.None?
    ensures var t := Run(w, events, ext).sys.store;
            var rows := Listing(t, names, created);
            && S.Marked(rows)
            && forall i | i in names && i in created :: i in S.Journaled(rows) <==> t.JournalOf(names[i]).Some?
  {
    RunsStayPhased(w, events, ext);
    var t := Run(w, events, ext).sys.store;
    forall d | d in t.rows && t.rows[d].journal.Some?
      ensures t.rows[d].status.Failed? || t.rows[d].status.Processing?
    {
      assert Phased(t.rows[d]);
    }
  }

  /**
   * A rollback that went through: a created document has neither row nor body; a patched one is processed, without
   * a journal, and lists exactly its chunks that were not staged. No staged chunk is stored, no other row is touched.
   */
  lemma RolledBackRow(s: Store, d: DocId)
    requires s.JournalOf(d).Some?
    ensures var t, row, j := RolledBack(s, d), s.rows[d], s.rows[d].journal.value;
            && t.rows - {d} == s.rows - {d} && t.text == s.text - Elems(j.chunks)
            && if j.mode.Create? then d !in t.rows && t.bodies == s.bodies - {d}
               else
                 && t.bodies == s.bodies && d in t.rows && t.rows[d].status.Processed? && t.rows[d].journal.None?
                 && forall ch :: ch in t.rows[d].chunks <==> ch in row.chunks && ch !in j.chunks
  {
    var j, t := s.rows[d].journal.value, RolledBack(s, d);
    var job := RollbackJob(d, j);
    RollbackRow(s, d, ROLLBACK_STAGES);
    if job.ids == {} {
      assert s.text - job.ids == s.text;
    } else {
      StagesDirect(s, MakePlan(s, job), job, STAGES);
    }
    var list := Subtract(s.rows[d].chunks, Elems(j.chunks));
    SubtractElems(s.rows[d].chunks, Elems(j.chunks));
    assert forall ch :: ch in list <==> ch in Elems(list);
  }
}
