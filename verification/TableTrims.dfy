/** Which rows of a table a trim keeps, on which side, and what it does when not even one row fits. */
module TableTrims {
  import opened Basics
  import opened TableMarkup
  import opened TokenTrim

  /** The rows next to the target: the last ones of a table before it, the first ones of a table behind it. */
  predicate AtTarget<R(==)>(kept: seq<R>, rows: seq<R>, keepTail: bool) {
    if keepTail then |kept| <= |rows| && rows[|rows| - |kept|..] == kept else kept <= rows
  }

  /** The rows of a table can be told: a JSON list, or an HTML body with a row in it. */
  predicate ByRows(t: Parsed) {
    t.Table? && match t.content
                case Json(rows) => rows.Some?
                case Html(body) => Split(body).Some?
                case Unknown => false
  }

  function Tag(attrs: string, inner: string): string {
    "<table " + attrs + ">" + inner + "</table>"
  }

  /** The table that holds exactly the `k` rows next to the target. */
  ghost predicate HoldsRows(t: Parsed, lib: Library, k: nat, keepTail: bool, s: string) {
    t.Table? && match t.content
                case Json(Some(rows)) => exists kept :: |kept| == k && AtTarget(kept, rows, keepTail) && s == Tag(t.attrs, lib.dumps(kept))
                case Html(body) =>
                  Split(body).Some? && exists kept ::
                    |kept| == k && AtTarget(kept, Split(body).value, keepTail) && s == Tag(t.attrs, Text(Serialize(kept)))
                case _ => false
  }

  lemma OneAtTarget<R>(kept: seq<R>, rows: seq<R>, keepTail: bool)
    requires AtTarget(kept, rows, keepTail)
    ensures |kept| <= |rows| && kept == Nearest(rows, |kept|, keepTail)
  {
  }

  lemma NearestAtTarget<R>(rows: seq<R>, k: nat, keepTail: bool)
    requires k <= |rows|
    ensures |Nearest(rows, k, keepTail)| == k && AtTarget(Nearest(rows, k, keepTail), rows, keepTail)
  {
  }

  /** A table trimmed to `k` rows is the one that holds the `k` rows next to the target. */
  lemma TrimHoldsRows(t: Parsed, lib: Library, k: nat, keepTail: bool, s: string)
    requires ByRows(t)
    ensures HoldsRows(t, lib, k, keepTail, s) <==> k <= RowCount(t.content) && s == WithRows(t, lib, k, keepTail)
  {
    match t.content
    case Json(Some(rows)) =>
      if k <= |rows| {
        NearestAtTarget(rows, k, keepTail);
      }
      forall kept | |kept| == k && AtTarget(kept, rows, keepTail)
        ensures k <= |rows| && kept == Nearest(rows, k, keepTail)
      {
        OneAtTarget(kept, rows, keepTail);
      }
    case Html(body) =>
      var rows := Split(body).value;
      if k <= |rows| {
        NearestAtTarget(rows, k, keepTail);
      }
      forall kept | |kept| == k && AtTarget(kept, rows, keepTail)
        ensures k <= |rows| && kept == Nearest(rows, k, keepTail)
      {
        OneAtTarget(kept, rows, keepTail);
      }
  }

  /** Some proper number of rows next to the target, and at least that many, fits. */
  ghost predicate SomeRowsFit(t: Parsed, lib: Library, least: nat, budget: int, keepTail: bool, count: Count)
    requires t.Table?
  {
    exists k, s :: least <= k < RowCount(t.content) && HoldsRows(t, lib, k, keepTail, s) && Fits(count, s, budget)
  }

  /** If any proper number of rows fits, the largest such number of rows next to the target is kept. */
  lemma KeepsMostRows(tag: string, lib: Library, budget: int, keepTail: bool, count: Count)
    requires ByRows(lib.parse(tag)) && SomeRowsFit(lib.parse(tag), lib, 1, budget, keepTail, count)
    ensures var t, r := lib.parse(tag), TrimmedTable(tag, lib, budget, keepTail, count);
            && r.Some?
            && exists k :: 1 <= k < RowCount(t.content) && HoldsRows(t, lib, k, keepTail, r.value)
                           && !SomeRowsFit(t, lib, k + 1, budget, keepTail, count)
  {
    var t, r := lib.parse(tag), TrimmedTable(tag, lib, budget, keepTail, count);
    var j := AFittingNumber(t, lib, budget, keepTail, count);
    RowsBeforeCharacters(tag, lib, budget, keepTail, count, j);
    var k :| j <= k < RowCount(t.content) && r == Some(WithRows(t, lib, k, keepTail))
             && forall i | k < i < RowCount(t.content) :: !Fits(count, WithRows(t, lib, i, keepTail), budget);
    TrimHoldsRows(t, lib, k, keepTail, r.value);
    NoMoreFit(t, lib, k, budget, keepTail, count);
  }

  lemma AFittingNumber(t: Parsed, lib: Library, budget: int, keepTail: bool, count: Count) returns (j: nat)
    requires ByRows(t) && SomeRowsFit(t, lib, 1, budget, keepTail, count)
    ensures 1 <= j < RowCount(t.content) && Fits(count, WithRows(t, lib, j, keepTail), budget)
  {
    var k, s :| 1 <= k < RowCount(t.content) && HoldsRows(t, lib, k, keepTail, s) && Fits(count, s, budget);
    TrimHoldsRows(t, lib, k, keepTail, s);
    j := k;
  }

  lemma NoMoreFit(t: Parsed, lib: Library, k: nat, budget: int, keepTail: bool, count: Count)
    requires ByRows(t)
    requires forall i | k < i < RowCount(t.content) :: !Fits(count, WithRows(t, lib, i, keepTail), budget)
    ensures !SomeRowsFit(t, lib, k + 1, budget, keepTail, count)
  {
    forall i, x | k + 1 <= i < RowCount(t.content) && HoldsRows(t, lib, i, keepTail, x)
      ensures !Fits(count, x, budget)
    {
      TrimHoldsRows(t, lib, i, keepTail, x);
    }
  }

  /** The text of the row next to the target; of a list without rows, the table's body. */
  ghost predicate IsRowAtTarget(t: Parsed, lib: Library, keepTail: bool, s: string) {
    t.Table? && match t.content
                case Json(Some(rows)) => if rows == [] then s == t.body else AtTarget([s], rows, keepTail)
                case Html(body) => Split(body).Some? && exists row :: AtTarget([row], Split(body).value, keepTail) && s == lib.plain(row.tr)
                case _ => false
  }

  lemma NearestRowIs(t: Parsed, lib: Library, keepTail: bool)
    requires ByRows(t)
    ensures IsRowAtTarget(t, lib, keepTail, NearestRow(t, lib, keepTail))
  {
    match t.content
    case Json(Some(rows)) =>
      if rows != [] {
        assert AtTarget([NearestRow(t, lib, keepTail)], rows, keepTail);
      }
    case Html(body) =>
      var rows := Split(body).value;
      var row := if keepTail then rows[|rows| - 1] else rows[0];
      assert AtTarget([row], rows, keepTail);
  }

  /** What the fallback makes of the first or last `chars` characters of a row. */
  function Cell(t: Parsed, lib: Library, part: string): string
    requires t.Table?
  {
    if part == "" then Tag(t.attrs, "")
    else Tag(t.attrs, if t.content.Json? then lib.cell(part) else "<tr><td>" + lib.escape(part) + "</td></tr>")
  }

  /**
   * If no proper number of rows fits, the row next to the target is cut by characters on its far side, as little
   * as one character less would allow; if not even the empty table fits there is nothing to keep.
   */
  lemma CutsNearestRow(tag: string, lib: Library, budget: int, keepTail: bool, count: Count)
    requires ByRows(lib.parse(tag)) && !SomeRowsFit(lib.parse(tag), lib, 1, budget, keepTail, count)
    ensures var t, r := lib.parse(tag), TrimmedTable(tag, lib, budget, keepTail, count);
            && (r.None? <==> !Fits(count, Tag(t.attrs, ""), budget))
            && (r.Some? ==> exists row, chars: nat ::
                  && IsRowAtTarget(t, lib, keepTail, row) && chars <= |row| && r.value == Cell(t, lib, Snippet(row, chars, keepTail))
                  && (chars < |row| ==> !Fits(count, Cell(t, lib, Snippet(row, chars + 1, keepTail)), budget)))
  {
    var t, r := lib.parse(tag), TrimmedTable(tag, lib, budget, keepTail, count);
    var row := NearestRow(t, lib, keepTail);
    NoRowsFit(t, lib, budget, keepTail, count);
    NearestRowIs(t, lib, keepTail);
    PieceIsTight(t.attrs, row, Renderer(t, lib), budget, keepTail, count);
    if r.Some? {
      var chars: nat :| chars <= |row| && r.value == Piece(t.attrs, row, Renderer(t, lib), chars, keepTail)
        && (chars < |row| ==> !Fits(count, Piece(t.attrs, row, Renderer(t, lib), chars + 1, keepTail), budget));
      PieceIsCell(t, lib, row, chars, keepTail);
      if chars < |row| {
        PieceIsCell(t, lib, row, chars + 1, keepTail);
      }
    }
  }

  lemma PieceIsCell(t: Parsed, lib: Library, row: string, chars: nat, keepTail: bool)
    requires t.Table? && chars <= |row|
    ensures Piece(t.attrs, row, Renderer(t, lib), chars, keepTail) == Cell(t, lib, Snippet(row, chars, keepTail))
  {
    assert |Snippet(row, chars, keepTail)| == chars;
  }

  lemma NoRowsFit(t: Parsed, lib: Library, budget: int, keepTail: bool, count: Count)
    requires ByRows(t) && !SomeRowsFit(t, lib, 1, budget, keepTail, count)
    ensures BestRows(t, lib, budget, keepTail, count) == 0
  {
    var k := BestRows(t, lib, budget, keepTail, count);
    if k > 0 {
      TrimHoldsRows(t, lib, k, keepTail, WithRows(t, lib, k, keepTail));
    }
  }

  /** Content that is no table, or no table that rows can be told of, is not trimmed by rows. */
  lemma NotByRows(tag: string, lib: Library, budget: int, keepTail: bool, count: Count)
    requires !ByRows(lib.parse(tag))
    ensures TrimmedTable(tag, lib, budget, keepTail, count).None?
  {
  }
}
