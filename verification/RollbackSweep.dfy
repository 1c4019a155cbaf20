/**
 * The recovery sweep: every unfinished custom-chunk operation is rolled back, page by page over a
 * keyset, each page before the next one is read. It visits what one scan of all rows would visit.
 */
module RollbackSweep {
  import opened Basics
  import opened Sources
  import opened Stores

  /** A document id, standing for its rank among ids: the sweep only compares ids. */
  type Id = nat

  /** The immutable sort key of a row. */
  datatype Key = Key(created: nat, id: Id)

  datatype Entry = Entry(created: nat, status: Status, journal: Option<Mode>)

  datatype Cursor = CursorStart | CursorAfter(last: Key) | CursorEnd

  datatype Page = Page(docs: seq<Id>, next: Cursor)

  datatype Report = Report(rolledBack: nat, failed: nat, rolledBackSample: seq<Id>, failedSample: seq<Id>)

  const SAMPLE_CAP := 32

  type Table = map<Id, Entry>

  predicate Precedes(a: Key, b: Key) {
    a.created < b.created || (a.created == b.created && a.id < b.id)
  }

  predicate Beyond(k: Key, c: Cursor) {
    match c
    case CursorStart => true
    case CursorAfter(last) => Precedes(last, k)
    case CursorEnd => false
  }

  predicate Swept(e: Entry) {
    e.status.Failed? || e.status.Processing?
  }

  /** What the runs of the system guarantee: a row with a journal is failed, or processing where a process was killed. */
  predicate Marked(rows: Table) {
    forall id | id in rows && rows[id].journal.Some? :: rows[id].status.Failed? || rows[id].status.Processing?
  }

  function KeyOf(rows: Table, id: Id): Key
    requires id in rows
  {
    Key(rows[id].created, id)
  }

  /** The rows a page may still return. */
  function Ahead(rows: Table, c: Cursor): set<Id> {
    set id | id in rows && Swept(rows[id]) && Beyond(KeyOf(rows, id), c)
  }

  /** The rows the sweep is for: unfinished operations. */
  function Journaled(rows: Table): set<Id> {
    set id | id in rows && Swept(rows[id]) && rows[id].journal.Some?
  }

  /** A rollback restores a patched document and removes a created one; a failed one leaves the row. */
  function Settled(rows: Table, visited: set<Id>, fails: set<Id>): Table {
    map id | id in rows && !(id in visited && id !in fails && rows[id].journal == Some(Create)) ::
      if id in visited && id !in fails then Entry(rows[id].created, Processed, None) else rows[id]
  }

  function Capped(ids: seq<Id>): seq<Id> {
    if |ids| <= SAMPLE_CAP then ids else ids[..SAMPLE_CAP]
  }

  ghost predicate Ordered(rows: Table, ids: seq<Id>) {
    && (forall id | id in ids :: id in rows)
    && forall i, j | 0 <= i < j < |ids| :: Precedes(KeyOf(rows, ids[i]), KeyOf(rows, ids[j]))
  }

  /** The report over a visiting order: exact counts, and the first ids of each outcome. */
  function ReportOf(order: seq<Id>, fails: set<Id>): Report {
    var ok := Subtract(order, fails);
    var bad := Subtract(order, Elems(order) - fails);
    Report(|ok|, |bad|, Capped(ok), Capped(bad))
  }

  // ---------------------------------------------------------------- lemmas

  lemma ReportGrows(order: seq<Id>, id: Id, fails: set<Id>)
    requires id !in order
    ensures var r, n := ReportOf(order, fails), ReportOf(order + [id], fails);
            if id in fails
            then n == r.(failed := r.failed + 1, failedSample := if |r.failedSample| < SAMPLE_CAP then r.failedSample + [id] else r.failedSample)
            else n == r.(rolledBack := r.rolledBack + 1, rolledBackSample := if |r.rolledBackSample| < SAMPLE_CAP then r.rolledBackSample + [id] else r.rolledBackSample)
  {
    var good, good' := Elems(order) - fails, Elems(order + [id]) - fails;
    SubtractConcat(order, [id], fails);
    SubtractConcat(order, [id], good');
    SameSubtract(order, good, good');
    assert [id][1..] == [];
    assert id in Elems(order + [id]);
  }

  lemma {:induction false} SameSubtract(s: seq<Id>, a: set<Id>, b: set<Id>)
    requires forall x | x in s :: x in a <==> x in b
    ensures Subtract(s, a) == Subtract(s, b)
  {
    if s != [] {
      SameSubtract(s[1..], a, b);
    }
  }

  lemma {:induction false} CountOf(s: seq<Id>, gone: set<Id>)
    requires Distinct(s)
    ensures |Subtract(s, gone)| == |Elems(s) - gone|
  {
    if s == [] {
      assert Elems(s) - gone == {};
    } else {
      CountOf(s[1..], gone);
      assert s[0] !in Elems(s[1..]);
      assert Elems(s) == {s[0]} + Elems(s[1..]);
      if s[0] in gone {
        assert Elems(s) - gone == Elems(s[1..]) - gone;
      } else {
        assert Elems(s) - gone == {s[0]} + (Elems(s[1..]) - gone);
      }
    }
  }

  /** The counts depend on what was visited, not on the order: they are exact in either sweep. */
  lemma CountsAreExact(order: seq<Id>, fails: set<Id>)
    requires Distinct(order)
    ensures ReportOf(order, fails).rolledBack == |Elems(order) - fails|
    ensures ReportOf(order, fails).failed == |Elems(order) * fails|
    ensures ReportOf(order, fails).rolledBackSample <= Subtract(order, fails)
    ensures |ReportOf(order, fails).rolledBackSample| == if |Elems(order) - fails| <= SAMPLE_CAP then |Elems(order) - fails| else SAMPLE_CAP
  {
    CountOf(order, fails);
    CountOf(order, Elems(order) - fails);
    assert Elems(order) - (Elems(order) - fails) == Elems(order) * fails;
  }

  lemma OrderedDistinct(rows: Table, ids: seq<Id>)
    requires Ordered(rows, ids)
    ensures Distinct(ids)
  {
    forall i, j | 0 <= i < j < |ids|
      ensures ids[i] != ids[j]
    {
      assert Precedes(KeyOf(rows, ids[i]), KeyOf(rows, ids[j]));
    }
  }

  lemma SettledGrows(rows: Table, visited: set<Id>, id: Id, fails: set<Id>)
    requires id in rows && id !in visited
    ensures var s, t := Settled(rows, visited, fails), Settled(rows, visited + {id}, fails);
            && id in s && s[id] == rows[id]
            && t == (if id in fails then s
                     else if rows[id].journal == Some(Create) then s - {id}
                     else s[id := Entry(rows[id].created, Processed, None)])
  {
  }

  // ---------------------------------------------------------------- the status store

  class StatusStore {
    var rows: Table

    /** The smallest key among candidates: one step of selecting a page. */
    method Smallest(among: set<Id>) returns (best: Id)
      requires among != {} && forall id | id in among :: id in rows
      ensures best in among && forall id | id in among && id != best :: Precedes(KeyOf(rows, best), KeyOf(rows, id))
    {
      var b :| b in among;
      best := b;
      var todo := among - {best};
      while todo != {}
        invariant best in among && best !in todo && todo <= among
        invariant forall id | id in among - todo && id != best :: Precedes(KeyOf(rows, best), KeyOf(rows, id))
        decreases todo
      {
        var id :| id in todo;
        if Precedes(KeyOf(rows, id), KeyOf(rows, best)) {
          best := id;
        }
        todo := todo - {id};
      }
    }

    /**
     * `get_docs_by_statuses_page`: at most `limit` rows beyond the cursor, in key order; fewer than
     * `limit` prove exhaustion, otherwise the cursor stands behind the last consumed row.
     */
    method GetPage(limit: nat, position: Cursor) returns (page: Page)
      requires limit > 0
      ensures Ordered(rows, page.docs) && Elems(page.docs) <= Ahead(rows, position)
      ensures |page.docs| < limit ==> page.next == CursorEnd && Elems(page.docs) == Ahead(rows, position)
      ensures |page.docs| >= limit ==> |page.docs| == limit && page.next == CursorAfter(KeyOf(rows, page.docs[limit - 1]))
      ensures page.next != CursorEnd ==> Ahead(rows, position) == Elems(page.docs) + Ahead(rows, page.next)
      ensures forall id | id in page.docs :: rows[id].status.Failed? || rows[id].status.Processing?
      ensures forall i, j | 0 <= i < j < |page.docs| ::
                rows[page.docs[i]].created < rows[page.docs[j]].created
                || (rows[page.docs[i]].created == rows[page.docs[j]].created && page.docs[i] < page.docs[j])
      ensures forall id | id in rows && (rows[id].status.Failed? || rows[id].status.Processing?) && Beyond(KeyOf(rows, id), position) ::
                id in page.docs || Beyond(KeyOf(rows, id), page.next)
    {
      var docs: seq<Id> := [];
      var left := set id | id in rows && Swept(rows[id]) && Beyond(KeyOf(rows, id), position);
      while left != {} && |docs| < limit
        invariant |docs| <= limit && Ordered(rows, docs)
        invariant Elems(docs) + left == Ahead(rows, position) && Elems(docs) !! left
        invariant forall d, id | d in docs && id in left :: Precedes(KeyOf(rows, d), KeyOf(rows, id))
        decreases left
      {
        var id := Smallest(left);
        assert forall d | d in docs :: d in Elems(docs);
        assert Elems(docs + [id]) == Elems(docs) + {id};
        docs, left := docs + [id], left - {id};
      }
      if |docs| < limit {
        page := Page(docs, CursorEnd);
      } else {
        page := Page(docs, CursorAfter(KeyOf(rows, docs[limit - 1])));
        AheadOfLast(rows, docs, left, position);
      }
      PageHolds(rows, page, position);
    }

    /** Rolling one document back: its own failure leaves the row, and the report counts either way. */
    method RollBackRow(id: Id, fails: set<Id>, r: Report) returns (r': Report)
      requires id in rows && rows[id].journal.Some?
      modifies this
      ensures rows == if id in fails then old(rows) else if old(rows)[id].journal == Some(Create) then old(rows) - {id}
                      else old(rows)[id := Entry(old(rows)[id].created, Processed, None)]
      ensures r' == if id in fails
        then r.(failed := r.failed + 1, failedSample := if |r.failedSample| < SAMPLE_CAP then r.failedSample + [id] else r.failedSample)
        else r.(rolledBack := r.rolledBack + 1, rolledBackSample := if |r.rolledBackSample| < SAMPLE_CAP then r.rolledBackSample + [id] else r.rolledBackSample)
    {
      if id in fails {
        r' := r.(failed := r.failed + 1);
        if |r.failedSample| < SAMPLE_CAP {
          r' := r'.(failedSample := r'.failedSample + [id]);
        }
        return;
      }
      rows := if rows[id].journal == Some(Create) then rows - {id} else rows[id := Entry(rows[id].created, Processed, None)];
      r' := r.(rolledBack := r.rolledBack + 1);
      if |r.rolledBackSample| < SAMPLE_CAP {
        r' := r'.(rolledBackSample := r'.rolledBackSample + [id]);
      }
    }

    /** `_roll_back_batch`: the row is read again, and only one with a journal is rolled back. */
    method RollBackBatch(ids: seq<Id>, fails: set<Id>, r: Report, ghost first: Table, ghost order: seq<Id>)
      returns (r': Report)
      requires rows == Settled(first, Elems(order), fails) && r == ReportOf(order, fails)
      requires Distinct(order + ids) && forall id | id in ids :: id in Journaled(first)
      modifies this
      ensures rows == Settled(first, Elems(order + ids), fails) && r' == ReportOf(order + ids, fails)
    {
      r' := r;
      assert order + ids[..0] == order;
      for i := 0 to |ids|
        invariant rows == Settled(first, Elems(order + ids[..i]), fails) && r' == ReportOf(order + ids[..i], fails)
      {
        NextVisited(first, order, ids, i, fails);
        NotYetVisited(order, ids, i);
        ReportGrows(order + ids[..i], ids[i], fails);
        if ids[i] in rows && rows[ids[i]].journal.Some? {
          r' := RollBackRow(ids[i], fails, r');
        }
      }
      assert ids[..|ids|] == ids;
    }

    method JournaledOf(docs: seq<Id>) returns (ids: seq<Id>)
      requires forall id | id in docs :: id in rows
      ensures ids == Subtract(docs, set id | id in docs && rows[id].journal.None?)
    {
      ids := SubtractSourceIds(docs, set id | id in docs && rows[id].journal.None?);
    }

    /** The paged sweep: each page is rolled back before the next one is read. */
    method SweepPaged(pageSize: nat, fails: set<Id>) returns (r: Report, ghost order: seq<Id>)
      requires pageSize > 0
      modifies this
      ensures Ordered(old(rows), order) && Elems(order) == Journaled(old(rows))
      ensures rows == Settled(old(rows), Journaled(old(rows)), fails) && r == ReportOf(order, fails)
      ensures Marked(old(rows)) ==> Elems(order) == set id | id in old(rows) && old(rows)[id].journal.Some?
      ensures Marked(old(rows)) ==> forall id | id in rows && rows[id].journal.Some? :: id in fails
    {
      ghost var first := rows;
      var position := CursorStart;
      r, order := Report(0, 0, [], []), [];
      while position != CursorEnd
        invariant SweptUpTo(first, position, order)
        invariant rows == Settled(first, Elems(order), fails) && r == ReportOf(order, fails)
        decreases if position == CursorEnd then 0 else 1, |Ahead(first, position)|
      {
        AheadUnchanged(first, position, order, fails);
        var page := GetPage(pageSize, position);
        var ids := JournaledOf(page.docs);
        PageContinues(first, rows, position, order, page, ids);
        r := RollBackBatch(ids, fails, r, first, order);
        order := order + ids;
        position := page.next;
      }
      AllSwept(first, order);
    }

    /** The legacy scan: all rows at once, in whatever order the store lists them. */
    method SweepAll(listed: seq<Id>, fails: set<Id>) returns (r: Report, ghost order: seq<Id>)
      requires Distinct(listed) && Elems(listed) == set id | id in rows && (rows[id].status.Failed? || rows[id].status.Processing?)
      modifies this
      ensures Distinct(order) && Elems(order) == Journaled(old(rows))
      ensures rows == Settled(old(rows), Journaled(old(rows)), fails) && r == ReportOf(order, fails)
      ensures Marked(old(rows)) ==> Elems(order) == set id | id in old(rows) && old(rows)[id].journal.Some?
      ensures Marked(old(rows)) ==> forall id | id in rows && rows[id].journal.Some? :: id in fails
    {
      ghost var first := rows;
      assert forall id | id in listed :: id in Elems(listed);
      var ids := JournaledOf(listed);
      SubtractElems(listed, set id | id in listed && rows[id].journal.None?);
      SubtractDistinct(listed, set id | id in listed && rows[id].journal.None?);
      assert forall id | id in ids :: id in Elems(ids);
      assert [] + ids == ids;
      assert Settled(first, {}, fails) == first;
      r := RollBackBatch(ids, fails, Report(0, 0, [], []), first, []);
      order := ids;
      assert Elems(ids) == Journaled(first);
    }
  }

  // ---------------------------------------------------------------- the sweep's invariant

  /** Exactly the unfinished operations up to the cursor have been visited, in key order. */
  ghost predicate SweptUpTo(first: Table, position: Cursor, order: seq<Id>) {
    && Ordered(first, order)
    && Elems(order) == Journaled(first) - (if position == CursorEnd then {} else Ahead(first, position))
  }

  lemma AheadOfLast(rows: Table, docs: seq<Id>, left: set<Id>, position: Cursor)
    requires docs != [] && Ordered(rows, docs) && Elems(docs) + left == Ahead(rows, position)
    requires forall d, id | d in docs && id in left :: Precedes(KeyOf(rows, d), KeyOf(rows, id))
    ensures Ahead(rows, CursorAfter(KeyOf(rows, docs[|docs| - 1]))) == left
  {
    var last := docs[|docs| - 1];
    assert last in docs && last in Elems(docs);
    assert Beyond(KeyOf(rows, last), position);
    forall id | id in docs
      ensures !Precedes(KeyOf(rows, last), KeyOf(rows, id))
    {
      var i :| 0 <= i < |docs| && docs[i] == id;
      assert i < |docs| - 1 ==> Precedes(KeyOf(rows, docs[i]), KeyOf(rows, last));
    }
    forall id | id in Ahead(rows, CursorAfter(KeyOf(rows, last)))
      ensures id in left
    {
      assert id in Ahead(rows, position);
      assert id in Elems(docs) ==> id in docs;
    }
    forall id | id in left
      ensures id in Ahead(rows, CursorAfter(KeyOf(rows, last)))
    {
      assert id in Ahead(rows, position);
    }
  }

  /** A page takes failed and processing rows, and passes over none. */
  lemma PageHolds(rows: Table, page: Page, position: Cursor)
    requires Elems(page.docs) <= Ahead(rows, position)
    requires page.next == CursorEnd ==> Elems(page.docs) == Ahead(rows, position)
    requires page.next != CursorEnd ==> Ahead(rows, position) == Elems(page.docs) + Ahead(rows, page.next)
    ensures forall id | id in page.docs :: id in rows && (rows[id].status.Failed? || rows[id].status.Processing?)
    ensures forall id | id in rows && (rows[id].status.Failed? || rows[id].status.Processing?) && Beyond(KeyOf(rows, id), position) ::
              id in page.docs || Beyond(KeyOf(rows, id), page.next)
  {
    forall id | id in page.docs
      ensures id in Ahead(rows, position)
    {
      assert id in Elems(page.docs);
    }
    forall id | id in rows && (rows[id].status.Failed? || rows[id].status.Processing?) && Beyond(KeyOf(rows, id), position)
      ensures id in page.docs || Beyond(KeyOf(rows, id), page.next)
    {
      assert id in Ahead(rows, position);
    }
  }

  lemma NotYetVisited(order: seq<Id>, ids: seq<Id>, i: nat)
    requires i < |ids| && Distinct(order + ids)
    ensures ids[i] !in order + ids[..i]
  {
    var all := order + ids;
    assert all[|order| + i] == ids[i];
    forall k | 0 <= k < |order| + i
      ensures (order + ids[..i])[k] != ids[i]
    {
      assert (order + ids[..i])[k] == all[k];
    }
  }

  lemma NextVisited(first: Table, order: seq<Id>, ids: seq<Id>, i: nat, fails: set<Id>)
    requires i < |ids| && Distinct(order + ids) && forall id | id in ids :: id in Journaled(first)
    ensures var now, s := order + ids[..i], Settled(first, Elems(order + ids[..i]), fails);
            && order + ids[..i + 1] == now + [ids[i]]
            && ids[i] in s && s[ids[i]] == first[ids[i]] && first[ids[i]].journal.Some?
            && Settled(first, Elems(now + [ids[i]]), fails)
               == (if ids[i] in fails then s
                   else if first[ids[i]].journal == Some(Create) then s - {ids[i]}
                   else s[ids[i] := Entry(first[ids[i]].created, Processed, None)])
  {
    var now := order + ids[..i];
    NotYetVisited(order, ids, i);
    assert ids[i] in ids && ids[i] in Journaled(first);
    SettledGrows(first, Elems(now), ids[i], fails);
    assert Elems(now + [ids[i]]) == Elems(now) + {ids[i]};
  }

  /** Rollbacks only ever touch rows the sweep has passed, so what lies ahead is as it was at the start. */
  lemma AheadUnchanged(first: Table, position: Cursor, order: seq<Id>, fails: set<Id>)
    requires SweptUpTo(first, position, order) && position != CursorEnd
    ensures Ahead(Settled(first, Elems(order), fails), position) == Ahead(first, position)
    ensures forall id | id in Ahead(first, position) :: id in Settled(first, Elems(order), fails) && Settled(first, Elems(order), fails)[id] == first[id]
  {
    var now := Settled(first, Elems(order), fails);
    forall id | id in Ahead(now, position)
      ensures id in Ahead(first, position)
    {
      assert now[id].created == first[id].created;
    }
  }

  /** The journaled rows of a page, in key order and behind everything visited. */
  lemma PageIds(first: Table, now: Table, position: Cursor, order: seq<Id>, docs: seq<Id>, ids: seq<Id>)
    requires SweptUpTo(first, position, order) && position != CursorEnd
    requires forall id | id in Ahead(first, position) :: id in now && now[id] == first[id]
    requires Ordered(now, docs) && Elems(docs) <= Ahead(first, position)
    requires ids == Subtract(docs, set id | id in docs && now[id].journal.None?)
    ensures Ordered(first, order + ids) && Elems(order + ids) == Elems(order) + Elems(ids)
    ensures Elems(ids) == Journaled(first) * Elems(docs)
  {
    var skip := set id | id in docs && now[id].journal.None?;
    SubtractElems(docs, skip);
    assert forall id | id in docs :: id in Elems(docs) && now[id] == first[id];
    assert Ordered(first, docs);
    SubtractOrdered(first, docs, skip);
    forall a, b | a in order && b in ids
      ensures Precedes(KeyOf(first, a), KeyOf(first, b))
    {
      assert a in Elems(order) && b in Elems(ids);
      assert b in Ahead(first, position);
    }
    ConcatOrdered(first, order, ids);
  }

  lemma PageContinues(first: Table, now: Table, position: Cursor, order: seq<Id>, page: Page, ids: seq<Id>)
    requires SweptUpTo(first, position, order) && position != CursorEnd
    requires Ahead(now, position) == Ahead(first, position)
    requires forall id | id in Ahead(first, position) :: id in now && now[id] == first[id]
    requires Ordered(now, page.docs) && Elems(page.docs) <= Ahead(now, position)
    requires page.next == CursorEnd ==> Elems(page.docs) == Ahead(now, position)
    requires page.next != CursorEnd ==>
      (page.docs != [] && Ahead(now, position) == Elems(page.docs) + Ahead(now, page.next)
       && page.next == CursorAfter(KeyOf(now, page.docs[|page.docs| - 1])))
    requires ids == Subtract(page.docs, set id | id in page.docs && now[id].journal.None?)
    ensures Distinct(order + ids) && forall id | id in ids :: id in Journaled(first)
    ensures SweptUpTo(first, page.next, order + ids)
    ensures page.next != CursorEnd ==> |Ahead(first, page.next)| < |Ahead(first, position)|
  {
    PageIds(first, now, position, order, page.docs, ids);
    OrderedDistinct(first, order + ids);
    assert forall id | id in ids :: id in Elems(ids);
    if page.next != CursorEnd {
      AheadOfNext(first, now, position, page);
      PartsMeet(Journaled(first), Ahead(first, position), Elems(page.docs), Ahead(first, page.next));
    } else {
      PartsMeet(Journaled(first), Ahead(first, position), Elems(page.docs), {});
    }
  }

  lemma PartsMeet(all: set<Id>, ahead: set<Id>, page: set<Id>, rest: set<Id>)
    requires ahead == page + rest && page !! rest
    ensures all - rest == all - ahead + all * page
  {
  }

  lemma AheadOfNext(first: Table, now: Table, position: Cursor, page: Page)
    requires position != CursorEnd && page.docs != []
    requires Ahead(now, position) == Ahead(first, position)
    requires forall id | id in Ahead(first, position) :: id in now && now[id] == first[id]
    requires Ordered(now, page.docs) && Elems(page.docs) <= Ahead(now, position)
    requires page.next == CursorAfter(KeyOf(now, page.docs[|page.docs| - 1]))
    requires Ahead(now, position) == Elems(page.docs) + Ahead(now, page.next)
    ensures Ahead(first, page.next) == Ahead(now, page.next)
    ensures |Ahead(first, page.next)| < |Ahead(first, position)|
    ensures Elems(page.docs) !! Ahead(first, page.next)
  {
    var last := page.docs[|page.docs| - 1];
    assert last in Elems(page.docs);
    assert Beyond(KeyOf(first, last), position);
    forall id | id in Ahead(first, page.next)
      ensures id in Ahead(now, page.next)
    {
      assert id in Ahead(first, position);
    }
    forall id | id in Ahead(now, page.next)
      ensures id in Ahead(first, page.next)
    {
      assert id in Ahead(first, position);
    }
    forall id | id in page.docs
      ensures !Precedes(KeyOf(now, last), KeyOf(now, id))
    {
      var i :| 0 <= i < |page.docs| && page.docs[i] == id;
      assert i < |page.docs| - 1 ==> Precedes(KeyOf(now, page.docs[i]), KeyOf(now, last));
    }
    assert last !in Ahead(first, page.next);
    Shrinks(Ahead(first, page.next), Ahead(first, position), last);
  }

  lemma Shrinks(a: set<Id>, b: set<Id>, x: Id)
    requires a <= b && x in b && x !in a
    ensures |a| < |b|
  {
    assert |b| == |a| + |b - a|;
    assert x in b - a;
  }

  lemma {:induction false} SubtractOrdered(rows: Table, s: seq<Id>, gone: set<Id>)
    requires Ordered(rows, s)
    ensures Ordered(rows, Subtract(s, gone))
  {
    if s != [] {
      SubtractOrdered(rows, s[1..], gone);
      var rest := Subtract(s[1..], gone);
      SubtractElems(s[1..], gone);
      forall i | 0 <= i < |rest|
        ensures Precedes(KeyOf(rows, s[0]), KeyOf(rows, rest[i]))
      {
        assert rest[i] in Elems(rest);
        var j :| 0 <= j < |s[1..]| && s[1..][j] == rest[i];
        assert s[j + 1] == rest[i];
      }
    }
  }

  lemma ConcatOrdered(rows: Table, a: seq<Id>, b: seq<Id>)
    requires Ordered(rows, a) && Ordered(rows, b)
    requires forall x, y | x in a && y in b :: Precedes(KeyOf(rows, x), KeyOf(rows, y))
    ensures Ordered(rows, a + b)
  {
  }

  lemma {:induction false} SubtractDistinct(s: seq<Id>, gone: set<Id>)
    requires Distinct(s)
    ensures Distinct(Subtract(s, gone))
  {
    if s != [] {
      SubtractDistinct(s[1..], gone);
      SubtractElems(s[1..], gone);
      var rest := Subtract(s[1..], gone);
      forall i | 0 <= i < |rest|
        ensures rest[i] != s[0]
      {
        assert rest[i] in Elems(rest);
        assert rest[i] in s[1..];
      }
    }
  }

  lemma AllSwept(first: Table, order: seq<Id>)
    requires SweptUpTo(first, CursorEnd, order)
    ensures Elems(order) == Journaled(first)
  {
  }

  /**
   * The paged sweep and the full scan agree: the same rows remain, the counts are the same, and the
   * samples differ at most by which ids they show, never by how many.
   */
  lemma SweepsAgree(rows: Table, paged: seq<Id>, listed: seq<Id>, fails: set<Id>)
    requires Ordered(rows, paged) && Elems(paged) == Journaled(rows)
    requires Distinct(listed) && Elems(listed) == Journaled(rows)
    ensures var p, l := ReportOf(paged, fails), ReportOf(listed, fails);
            && p.rolledBack == l.rolledBack == |Journaled(rows) - fails|
            && p.failed == l.failed == |Journaled(rows) * fails|
            && |p.rolledBackSample| == |l.rolledBackSample| && |p.failedSample| == |l.failedSample|
  {
    OrderedDistinct(rows, paged);
    CountsAreExact(paged, fails);
    CountsAreExact(listed, fails);
  }

  /** After a sweep only the failed rollbacks are left, so the next one finds exactly those. */
  lemma NextSweepFindsFailures(rows: Table, fails: set<Id>)
    ensures Journaled(Settled(rows, Journaled(rows), fails)) == Journaled(rows) * fails
    ensures Settled(rows, Journaled(rows), {}) == Settled(Settled(rows, Journaled(rows), fails), Journaled(rows) * fails, {})
  {
  }

  /** Sweep after sweep, each with its own failing rollbacks. */
  function SweptBy(rows: Table, rounds: seq<set<Id>>): Table {
    if rounds == [] then rows else SweptBy(Settled(rows, Journaled(rows), rounds[0]), rounds[1..])
  }

  /**
   * Repeated sweeps: a row is left for the next one iff its rollback failed in every round, and a round without
   * failures ends where a single sweep without failures would have.
   */
  lemma {:induction false} RowsConverge(rows: Table, rounds: seq<set<Id>>)
    ensures forall id :: id in Journaled(SweptBy(rows, rounds)) <==> id in Journaled(rows) && forall k | 0 <= k < |rounds| :: id in rounds[k]
    ensures Settled(SweptBy(rows, rounds), Journaled(SweptBy(rows, rounds)), {}) == Settled(rows, Journaled(rows), {})
  {
    if rounds != [] {
      NextSweepFindsFailures(rows, rounds[0]);
      RowsConverge(Settled(rows, Journaled(rows), rounds[0]), rounds[1..]);
      assert rounds == [rounds[0]] + rounds[1..];
    }
  }
}
