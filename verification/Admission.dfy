/** Which custom-chunk calls run, which are refused, and what a call that runs starts with. */
module Admission {
  import opened Basics
  import opened Sources
  import opened Stores
  import opened CustomChunks

  // ---------------------------------------------------------------- the staged ids

  /** Where the text occurs first. */
  function FirstAt(texts: seq<string>, t: string): (i: nat)
    requires t in texts
    ensures i < |texts| && texts[i] == t && forall k | 0 <= k < i :: texts[k] != t
  {
    if texts[0] == t then 0 else 1 + FirstAt(texts[1..], t)
  }

  /** The ids come in the order in which their texts come first. */
  ghost predicate InOrder(ids: seq<ChunkId>, texts: seq<string>) {
    && (forall ch | ch in ids :: ch.text in texts)
    && forall i, j | 0 <= i < j < |ids| :: FirstAt(texts, ids[i].text) < FirstAt(texts, ids[j].text)
  }

  lemma FirstAtUpto(texts: seq<string>, i: nat, t: string)
    requires i <= |texts| && t in texts
    ensures FirstAt(texts, t) < i <==> t in texts[..i]
  {
    if k :| 0 <= k < i && texts[k] == t {
      assert texts[..i][k] == t;
    }
  }

  /** One more text: its id is appended unless it is empty or has come before. */
  lemma NextEntry(d: DocId, texts: seq<string>, i: nat)
    requires i < |texts|
    ensures var op, t := Entries(d, texts[..i]), texts[i];
            Entries(d, texts[..i + 1]) == if t == "" || ChunkId(d, t) in op then op else op + [ChunkId(d, t)]
  {
    var t := texts[i];
    assert texts[..i + 1] == texts[..i] + [t];
    IdsConcat(d, texts[..i], [t]);
    AppendNewConcat([], IdsFor(d, texts[..i]), IdsFor(d, [t]));
    assert [t][1..] == [] && IdsFor(d, []) == [];
    assert IdsFor(d, [t]) == if t == "" then [] else [ChunkId(d, t)];
    assert [ChunkId(d, t)][1..] == [];
  }

  lemma {:induction false} IdsConcat(d: DocId, a: seq<string>, b: seq<string>)
    ensures IdsFor(d, a + b) == IdsFor(d, a) + IdsFor(d, b)
    decreases |a|
  {
    if a == [] {
      assert a + b == b;
    } else {
      assert (a + b)[1..] == a[1..] + b;
      IdsConcat(d, a[1..], b);
    }
  }

  lemma InOrderSnoc(ids: seq<ChunkId>, ch: ChunkId, texts: seq<string>)
    requires InOrder(ids, texts) && ch.text in texts
    requires forall x | x in ids :: FirstAt(texts, x.text) < FirstAt(texts, ch.text)
    ensures InOrder(ids + [ch], texts)
  {
  }

  /** What comes behind the first `i` texts for the first time comes behind all that they bring. */
  lemma LaterThanAll(ids: seq<ChunkId>, texts: seq<string>, i: nat)
    requires i < |texts| && texts[i] !in texts[..i]
    requires forall ch | ch in ids :: ch.text in texts[..i]
    ensures forall ch | ch in ids :: ch.text in texts && FirstAt(texts, ch.text) < FirstAt(texts, texts[i])
  {
    FirstAtUpto(texts, i, texts[i]);
    forall ch | ch in ids
      ensures ch.text in texts && FirstAt(texts, ch.text) < FirstAt(texts, texts[i])
    {
      assert ch.text in texts[..i];
      FirstAtUpto(texts, i, ch.text);
    }
  }

  lemma NextInOrder(d: DocId, texts: seq<string>, i: nat, op: seq<ChunkId>, next: seq<ChunkId>)
    requires i < |texts| && InOrder(op, texts)
    requires op == Entries(d, texts[..i]) && next == Entries(d, texts[..i + 1])
    ensures InOrder(next, texts)
  {
    var ch := ChunkId(d, texts[i]);
    NextEntry(d, texts, i);
    EntriesAre(d, texts[..i]);
    if next != op {
      assert texts[i] !in texts[..i];
      LaterThanAll(op, texts, i);
      InOrderSnoc(op, ch, texts);
    }
  }

  lemma {:induction false} EntriesUpto(d: DocId, texts: seq<string>, i: nat, op: seq<ChunkId>)
    requires i <= |texts| && op == Entries(d, texts[..i])
    ensures InOrder(op, texts)
    decreases i
  {
    if i == 0 {
      assert texts[..0] == [] && Entries(d, []) == [];
    } else {
      var before := Entries(d, texts[..i - 1]);
      EntriesUpto(d, texts, i - 1, before);
      NextInOrder(d, texts, i - 1, before, op);
    }
  }

  /** The ids that a call stands for: one for each text that is not empty, in the order in which they come first. */
  lemma EntriesInOrder(d: DocId, texts: seq<string>)
    ensures InOrder(Entries(d, texts), texts)
    ensures forall ch :: ch in Entries(d, texts) <==> ch.doc == d && ch.text != "" && ch.text in texts
  {
    assert texts[..|texts|] == texts;
    EntriesUpto(d, texts, |texts|, Entries(d, texts));
    EntriesAre(d, texts);
  }

  lemma InOrderTail(ids: seq<ChunkId>, texts: seq<string>)
    requires InOrder(ids, texts) && ids != []
    ensures InOrder(ids[1..], texts) && ids[0].text in texts
    ensures forall ch | ch in ids[1..] :: ch.text in texts && FirstAt(texts, ids[0].text) < FirstAt(texts, ch.text)
  {
    var rest := ids[1..];
    forall i, j | 0 <= i < j < |rest|
      ensures rest[i].text in texts && rest[j].text in texts && FirstAt(texts, rest[i].text) < FirstAt(texts, rest[j].text)
    {
      assert rest[i] == ids[i + 1] && rest[j] == ids[j + 1];
    }
  }

  lemma {:induction false} SubtractInOrder(ids: seq<ChunkId>, gone: set<ChunkId>, texts: seq<string>)
    requires InOrder(ids, texts)
    ensures InOrder(Subtract(ids, gone), texts)
  {
    if ids != [] {
      InOrderTail(ids, texts);
      SubtractInOrder(ids[1..], gone, texts);
      SubtractElems(ids[1..], gone);
      InOrderCons(ids[0], Subtract(ids[1..], gone), Elems(ids[1..]), texts);
    }
  }

  lemma InOrderCons(ch: ChunkId, ids: seq<ChunkId>, all: set<ChunkId>, texts: seq<string>)
    requires InOrder(ids, texts) && ch.text in texts && Elems(ids) <= all
    requires forall x | x in all :: x.text in texts && FirstAt(texts, ch.text) < FirstAt(texts, x.text)
    ensures InOrder([ch] + ids, texts)
  {
    assert forall x | x in ids :: x in Elems(ids);
  }

  // ---------------------------------------------------------------- admission

  /** None of the stored chunks that the row lists says this. */
  predicate Unsaid(s: Store, row: Row, t: string) {
    forall ch | ch in row.chunks && ch in s.text :: ch.text != t
  }

  /**
   * The states in which a call runs: it brings a text, and it is the document's own unfinished operation, or
   * brings something new to a processed document, or there is neither a row nor a body.
   */
  predicate Admits(s: Store, d: DocId, texts: seq<string>) {
    && (exists t :: t in texts && t != "")
    && if d !in s.rows then d !in s.bodies
       else match s.rows[d].journal
         case Some(j) => j.op == Entries(d, texts)
         case None => s.rows[d].status == Processed && exists t :: t in texts && t != "" && Unsaid(s, s.rows[d], t)
  }

  lemma BringsEntries(d: DocId, texts: seq<string>)
    ensures Entries(d, texts) != [] <==> exists t :: t in texts && t != ""
  {
    EntriesAre(d, texts);
    if t :| t in texts && t != "" {
      assert ChunkId(d, t) in Entries(d, texts);
    }
    if Entries(d, texts) != [] {
      assert Entries(d, texts)[0] in Entries(d, texts);
    }
  }

  /** What is still pending of an operation: with a patch, what no stored chunk of the document says yet. */
  lemma PendingAre(s: Store, row: Row, mode: Mode, op: seq<ChunkId>, texts: seq<string>)
    requires InOrder(op, texts)
    ensures InOrder(StillPending(s, row, mode, op), texts)
    ensures forall ch :: ch in StillPending(s, row, mode, op) <==> ch in op && (mode.Patch? ==> Unsaid(s, row, ch.text))
  {
    var known := CommittedTexts(s, row);
    forall t
      ensures t in known <==> !Unsaid(s, row, t)
    {
    }
    if mode.Patch? {
      SubtractInOrder(op, (set ch | ch in op && ch.text in known), texts);
      UnseenElems(op, known);
      forall ch
        ensures ch in Unseen(op, known) <==> ch in op && ch.text !in known
      {
        assert ch in Unseen(op, known) <==> ch in Elems(Unseen(op, known));
      }
    }
  }

  /** A call runs exactly in those states, and in every other one it changes nothing. */
  lemma CallRuns(s: Store, d: DocId, texts: seq<string>)
    ensures CallStep(Sys(s, None), d, texts).running.Some? <==> Admits(s, d, texts)
    ensures !Admits(s, d, texts) ==> CallStep(Sys(s, None), d, texts) == Sys(s, None)
  {
    var op := Entries(d, texts);
    BringsEntries(d, texts);
    EntriesInOrder(d, texts);
    if d in s.rows && op != [] && s.rows[d].journal.None? && s.rows[d].status == Processed {
      var pending := StillPending(s, s.rows[d], Patch, op);
      PendingAre(s, s.rows[d], Patch, op, texts);
      if pending != [] {
        assert pending[0] in pending && Unsaid(s, s.rows[d], pending[0].text);
      }
      if t :| t in texts && t != "" && Unsaid(s, s.rows[d], t) {
        assert ChunkId(d, t) in pending;
      }
    }
  }

  /**
   * What a call that runs starts with: the mode and the names of the unfinished operation if there is one; the
   * brought texts that are still to be said, in their order; and the journal, which is all it has written.
   */
  lemma CallStarts(s: Store, d: DocId, texts: seq<string>)
    requires Admits(s, d, texts)
    ensures var n := CallStep(Sys(s, None), d, texts);
            && n.running.Some?
            && (var o, was := n.running.value, s.JournalOf(d);
            && o.doc == d && o.pc.AtJournal? && o.done == {} && o.op == Entries(d, texts)
            && o.mode == (if was.Some? then was.value.mode else if d in s.rows then Patch else Create)
            && o.cands == (if was.Some? then was.value.cands else {})
            && o.base == (if d in s.rows then s.rows[d].chunks else [])
            && InOrder(o.entries, texts)
            && (forall ch :: ch in o.entries <==>
                  && ch.doc == d && ch.text != "" && ch.text in texts
                  && (o.mode.Patch? && d in s.rows ==> Unsaid(s, s.rows[d], ch.text)))
            && n.store == s.(rows := n.store.rows) && n.store.rows.Keys == s.rows.Keys + {d}
            && (forall x | x in s.rows && x != d :: n.store.rows[x] == s.rows[x])
            && n.store.rows[d] == Row(Processing, o.base, Some(Journal(o.op, o.mode, o.entries, o.cands, Prepared))))
  {
    CallRuns(s, d, texts);
    EntriesInOrder(d, texts);
    if d in s.rows {
      var mode := if s.rows[d].journal.Some? then s.rows[d].journal.value.mode else Patch;
      PendingAre(s, s.rows[d], mode, Entries(d, texts), texts);
    }
  }
}
