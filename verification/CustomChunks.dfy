/**
 * The custom-chunk insert: a journaled operation on one document, run step by step, that may fail or
 * crash between any two steps, be resumed by the same call, or be rolled back.
 */
module CustomChunks {
  import opened Basics
  import opened Sources
  import opened Stores
  import opened Purge
  import opened Merging

  // ---------------------------------------------------------------- the call

  function IdsFor(d: DocId, texts: seq<string>): seq<ChunkId> {
    if texts == [] then []
    else (if texts[0] == "" then [] else [ChunkId(d, texts[0])]) + IdsFor(d, texts[1..])
  }

  /** The ordered, duplicate-free ids of the non-empty texts; the operation id hashes this list. */
  function Entries(d: DocId, texts: seq<string>): seq<ChunkId> {
    AppendNew([], IdsFor(d, texts))
  }

  /** The contents of the chunks that the document has committed and that are still stored. */
  function CommittedTexts(s: Store, row: Row): set<string> {
    set ch | ch in row.chunks && ch in s.text :: ch.text
  }

  function Unseen(entries: seq<ChunkId>, known: set<string>): seq<ChunkId> {
    Subtract(entries, set ch | ch in entries && ch.text in known)
  }

  /** The operation's part of the document, once content the document already owns is dropped. */
  function StillPending(s: Store, row: Row, mode: Mode, op: seq<ChunkId>): seq<ChunkId> {
    if mode.Patch? then Unseen(op, CommittedTexts(s, row)) else op
  }

  datatype Decision = NothingToDo | Refused | Launch(mode: Mode, entries: seq<ChunkId>, cands: set<Candidate>)

  function Decide(s: Store, d: DocId, op: seq<ChunkId>): Decision {
    if op == [] then NothingToDo
    else if d in s.rows then
      var row := s.rows[d];
      if row.journal.Some? then
        var j := row.journal.value;
        if j.op != op then Refused else Launch(j.mode, StillPending(s, row, j.mode, op), j.cands)
      else if row.status != Processed then Refused
      else
        var entries := StillPending(s, row, Patch, op);
        if entries == [] then NothingToDo else Launch(Patch, entries, {})
    else if d in s.bodies then NothingToDo
    else Launch(Create, op, {})
  }

  // ---------------------------------------------------------------- the running operation

  datatype Pc = AtJournal | AtChunks | AtCandidates | AtMerge | AtAnchors | AtCommit

  /** The coroutine's local variables. `base` is the chunk list of the status row it carries along. */
  datatype Op = Op(doc: DocId, mode: Mode, op: seq<ChunkId>, entries: seq<ChunkId>, base: seq<ChunkId>,
                   cands: set<Candidate>, pc: Pc, done: set<Merge>)

  datatype Sys = Sys(store: Store, running: Option<Op>)

  datatype Action =
    | Call(doc: DocId, texts: seq<string>)
    | StageChunks
    | JournalCandidates
    | PrewriteAnchors
    | MergeObject(m: Merge)
    | UnionAnchors
    | WriteCommit
    | Return
    | Fail
    | Crash
    | RollBack(doc: DocId, upTo: nat)

  function JournalRow(o: Op, status: Status, phase: Phase): Row {
    Row(status, o.base, Some(Journal(o.op, o.mode, o.entries, o.cands, phase)))
  }

  function CommitRow(o: Op): Row {
    Row(Processed, if o.mode.Patch? then AppendNew([], o.base + o.entries) else o.entries, None)
  }

  function CallStep(sys: Sys, d: DocId, texts: seq<string>): Sys {
    var s, op := sys.store, Entries(d, texts);
    match Decide(s, d, op)
    case Launch(mode, entries, cands) =>
      var o := Op(d, mode, op, entries, if d in s.rows then s.rows[d].chunks else [], cands, AtJournal, {});
      Sys(s.(rows := s.rows[d := JournalRow(o, Processing, Prepared)]), Some(o))
    case _ => sys
  }

  /** Every entity that a chunk extracts by itself is merged before the first relation. */
  predicate MayMerge(o: Op, m: Merge, ext: Extractor) {
    && m in MergesOf(ext, o.entries)
    && (m.MergeEdge? ==> NodeMerges(ext, o.entries) <= o.done)
  }

  /** The next step of the operation, when it stands where that step is next. */
  function OpStep(s: Store, o: Op, a: Action, ext: Extractor): (n: Sys)
    ensures !a.MergeObject? ==>
      n.store == s.(rows := n.store.rows, bodies := n.store.bodies, text := n.store.text, anchors := n.store.anchors)
  {
    var stay := Sys(s, Some(o));
    match a
    case StageChunks =>
      if o.pc != AtJournal then stay
      else Sys(s.(text := s.text + Elems(o.entries), bodies := if o.mode.Create? then s.bodies + {o.doc} else s.bodies),
               Some(o.(pc := AtChunks)))
    case JournalCandidates =>
      if o.pc != AtChunks then stay
      else
        var o' := o.(cands := CandidatesOf(ext, o.entries), pc := AtCandidates);
        Sys(s.(rows := s.rows[o.doc := JournalRow(o', Processing, Applying)]), Some(o'))
    case PrewriteAnchors =>
      if o.pc != AtCandidates then stay
      else Sys(if o.mode.Create? then s.(anchors := s.anchors[o.doc := o.cands]) else s, Some(o.(pc := AtMerge)))
    case MergeObject(m) =>
      if o.pc != AtMerge || !MayMerge(o, m, ext) then stay
      else Sys(Merged(s, m, Mentioning(ext, o.entries, m)), Some(o.(done := o.done + {m})))
    case UnionAnchors =>
      if o.pc != AtMerge || o.done != MergesOf(ext, o.entries) then stay
      else Sys(if o.mode.Patch? then s.(anchors := s.anchors[o.doc := s.AnchorsOf(o.doc) + o.cands]) else s,
               Some(o.(pc := AtAnchors)))
    case WriteCommit =>
      if o.pc != AtAnchors then stay
      else Sys(s.(rows := s.rows[o.doc := CommitRow(o)]), Some(o.(pc := AtCommit)))
    case Return =>
      if o.pc != AtCommit then stay else Sys(s, None)
    case Fail => Sys(s.(rows := s.rows[o.doc := JournalRow(o, Failed, Interrupted)]), None)
    case Crash => Sys(s, None)
    case _ => stay
  }

  // ---------------------------------------------------------------- rollback

  const ROLLBACK_STAGES := 8

  function RollbackJob(d: DocId, j: Journal): Job {
    Job(d, Elems(j.chunks), Some(j.cands), j.mode.Patch?, RollbackPolicy, {})
  }

  /** Candidates stay anchored only where the document still contributes through its own chunks. */
  function Pruned(s: Store, d: DocId, j: Journal, owned: set<ChunkId>): Store {
    if d !in s.anchors then s
    else s.(anchors := s.anchors[d := set c | c in s.anchors[d] && (c !in j.cands || !(Elems(s.Tracked(c)) !! owned))])
  }

  function RestoredRow(row: Row, j: Journal): Row {
    Row(Processed, Subtract(row.chunks, Elems(j.chunks)), None)
  }

  /** The stores when the rollback of a document's journal stops after `k` stages. */
  function RollbackAfter(s: Store, d: DocId, k: nat): Store
    requires s.JournalOf(d).Some?
  {
    var row, j := s.rows[d], s.rows[d].journal.value;
    var p := After(s, RollbackJob(d, j), if k <= STAGES then k else STAGES);
    if k <= STAGES then p
    else if j.mode.Create? then p.(bodies := p.bodies - {d}, rows := p.rows - {d})
    else
      var q := Pruned(p, d, j, Elems(row.chunks) - Elems(j.chunks));
      if k < ROLLBACK_STAGES then q else q.(rows := q.rows[d := RestoredRow(row, j)])
  }

  function RolledBack(s: Store, d: DocId): Store
    requires s.JournalOf(d).Some?
  {
    RollbackAfter(s, d, ROLLBACK_STAGES)
  }

  /** One step of the whole system: a call is admitted, and a rollback starts, only while no operation runs. */
  function Next(sys: Sys, a: Action, ext: Extractor): Sys {
    match sys.running
    case Some(o) => OpStep(sys.store, o, a, ext)
    case None =>
      match a
      case Call(d, texts) => CallStep(sys, d, texts)
      case RollBack(d, k) =>
        if sys.store.JournalOf(d).Some? then Sys(RollbackAfter(sys.store, d, k), None) else sys
      case _ => sys
  }

  function Exec(sys: Sys, actions: seq<Action>, ext: Extractor): Sys
    decreases |actions|
  {
    if actions == [] then sys else Exec(Next(sys, actions[0], ext), actions[1..], ext)
  }

  // ---------------------------------------------------------------- admission

  lemma {:induction false} IdsForDoc(d: DocId, texts: seq<string>)
    ensures forall ch | ch in IdsFor(d, texts) :: ch.doc == d && ch.text != "" && ch.text in texts
    ensures forall t | t in texts && t != "" :: ChunkId(d, t) in IdsFor(d, texts)
  {
    if texts != [] {
      IdsForDoc(d, texts[1..]);
    }
  }

  lemma EntriesAre(d: DocId, texts: seq<string>)
    ensures Distinct(Entries(d, texts))
    ensures forall ch :: ch in Entries(d, texts) <==> ch.doc == d && ch.text != "" && ch.text in texts
  {
    IdsForDoc(d, texts);
    AppendNewDistinct([], IdsFor(d, texts));
    AppendNewElems([], IdsFor(d, texts));
    forall ch
      ensures ch in Entries(d, texts) <==> ch in IdsFor(d, texts)
    {
      assert ch in Entries(d, texts) <==> ch in Elems(Entries(d, texts));
    }
  }

  lemma UnseenElems(entries: seq<ChunkId>, known: set<string>)
    ensures Elems(Unseen(entries, known)) == set ch | ch in entries && ch.text !in known
  {
    SubtractElems(entries, set ch | ch in entries && ch.text in known);
  }

  /** While a journal stands, every call but the journal's own is refused and changes nothing. */
  lemma DifferentOperationRefused(s: Store, d: DocId, texts: seq<string>)
    requires s.JournalOf(d).Some? && Entries(d, texts) != []
    ensures CallStep(Sys(s, None), d, texts) == Sys(s, None) <==> s.JournalOf(d).value.op != Entries(d, texts)
    ensures Decide(s, d, Entries(d, texts)).Refused? <==> s.JournalOf(d).value.op != Entries(d, texts)
  {
  }

  /**
   * Repeating a committed operation: the call is a no-op exactly when every text it brings is among
   * the document's stored chunks; a committed chunk whose row is gone would be inserted again.
   */
  lemma CommittedCallIsNoOp(s: Store, d: DocId, texts: seq<string>)
    requires d in s.rows && s.rows[d].status == Processed && s.rows[d].journal.None?
    requires Entries(d, texts) != []
    ensures Decide(s, d, Entries(d, texts)).NothingToDo?
       <==> forall t | t in texts && t != "" :: t in CommittedTexts(s, s.rows[d])
    ensures CallStep(Sys(s, None), d, texts) == Sys(s, None)
       <==> forall t | t in texts && t != "" :: t in CommittedTexts(s, s.rows[d])
  {
    var op := Entries(d, texts);
    var entries := StillPending(s, s.rows[d], Patch, op);
    EntriesAre(d, texts);
    UnseenElems(op, CommittedTexts(s, s.rows[d]));
    if entries != [] {
      assert entries[0] in Elems(entries);
      assert entries[0].text in texts && entries[0].text !in CommittedTexts(s, s.rows[d]);
    } else {
      forall t | t in texts && t != ""
        ensures t in CommittedTexts(s, s.rows[d])
      {
        assert ChunkId(d, t) in op;
        assert ChunkId(d, t) !in Elems(entries);
      }
    }
  }
}
