/**
 * Trimming to a token budget by binary search. The tokenizer is any function from strings to numbers:
 * the budget is kept by all of them; under a monotone one the pieces are the longest that fit.
 */
module TokenTrim {
  import opened Basics
  import opened TableMarkup

  /** The length of a tokenizer's encoding. */
  type Count = string -> nat

  function Tokens(count: Count, s: string): nat {
    if s == "" then 0 else count(s)
  }

  predicate Fits(count: Count, s: string, budget: int) {
    Tokens(count, s) <= budget
  }

  /** A longer prefix never takes fewer tokens. */
  ghost predicate PrefixMonotone(count: Count, text: string) {
    forall i, j | 0 <= i <= j <= |text| :: Tokens(count, text[..i]) <= Tokens(count, text[..j])
  }

  ghost predicate SuffixMonotone(count: Count, text: string) {
    forall i, j | 0 <= i <= j <= |text| :: Tokens(count, text[j..]) <= Tokens(count, text[i..])
  }

  // ---------------------------------------------------------------- characters

  /** The nearest characters of a text: its last ones before the target, its first ones behind it. */
  function Snippet(text: string, chars: nat, keepTail: bool): string
    requires chars <= |text|
  {
    if keepTail then text[|text| - chars..] else text[..chars]
  }

  // The two binary searches, over what fits at each position.

  /** Looking for the first position that fits. */
  function FirstFit(fits: nat -> bool, lo: nat, hi: nat): (r: nat)
    requires lo <= hi
    ensures lo <= r <= hi
    decreases hi - lo
  {
    if lo == hi then lo
    else
      var mid := (lo + hi) / 2;
      if fits(mid) then FirstFit(fits, lo, mid) else FirstFit(fits, mid + 1, hi)
  }

  /** Looking for the last position that fits. */
  function LastFit(fits: nat -> bool, lo: nat, hi: nat): (r: nat)
    requires lo <= hi
    ensures lo <= r <= hi
    decreases hi - lo
  {
    if lo == hi then lo
    else
      var mid := (lo + hi + 1) / 2;
      if fits(mid) then LastFit(fits, mid, hi) else LastFit(fits, lo, mid - 1)
  }

  /** Whatever `fits` is, the search ends at a position that fits, right behind one that does not. */
  lemma {:induction false} FirstFitSound(fits: nat -> bool, lo: nat, hi: nat)
    requires lo <= hi && fits(hi) && (lo > 0 ==> !fits(lo - 1))
    ensures var r := FirstFit(fits, lo, hi); fits(r) && (r > 0 ==> !fits(r - 1))
    decreases hi - lo
  {
    if lo < hi {
      var mid := (lo + hi) / 2;
      if fits(mid) {
        FirstFitSound(fits, lo, mid);
      } else {
        FirstFitSound(fits, mid + 1, hi);
      }
    }
  }

  lemma {:induction false} LastFitSound(fits: nat -> bool, lo: nat, hi: nat, n: nat)
    requires lo <= hi <= n && fits(lo) && (hi < n ==> !fits(hi + 1))
    ensures var r := LastFit(fits, lo, hi); fits(r) && (r < n ==> !fits(r + 1))
    decreases hi - lo
  {
    if lo < hi {
      var mid := (lo + hi + 1) / 2;
      if fits(mid) {
        LastFitSound(fits, mid, hi, n);
      } else {
        LastFitSound(fits, lo, mid - 1, n);
      }
    }
  }

  /** The search loop of the trims that keep a tail. */
  method SearchFirst(fits: nat -> bool, n: nat) returns (lo: nat)
    ensures lo == FirstFit(fits, 0, n)
  {
    var hi := n;
    lo := 0;
    while lo < hi
      invariant 0 <= lo <= hi <= n
      invariant FirstFit(fits, lo, hi) == FirstFit(fits, 0, n)
    {
      var mid := (lo + hi) / 2;
      if fits(mid) {
        hi := mid;
      } else {
        lo := mid + 1;
      }
    }
  }

  /** The search loop of the trims that keep a head, and of the character fallbacks. */
  method SearchLast(fits: nat -> bool, n: nat) returns (lo: nat)
    ensures lo == LastFit(fits, 0, n)
  {
    var hi := n;
    lo := 0;
    while lo < hi
      invariant 0 <= lo <= hi <= n
      invariant LastFit(fits, lo, hi) == LastFit(fits, 0, n)
    {
      var mid := (lo + hi + 1) / 2;
      if fits(mid) {
        lo := mid;
      } else {
        hi := mid - 1;
      }
    }
  }

  /** Counting down from `k` to the largest positive position that fits; zero if none does. */
  function MostDown(fits: nat -> bool, k: nat): (r: nat)
    ensures r <= k && (r > 0 ==> fits(r))
  {
    if k == 0 || fits(k) then k else MostDown(fits, k - 1)
  }

  lemma {:induction false} MostDownIsMost(fits: nat -> bool, k: nat)
    ensures forall j | MostDown(fits, k) < j <= k :: !fits(j)
    decreases k
  {
    if k > 0 && !fits(k) {
      MostDownIsMost(fits, k - 1);
    }
  }

  function SuffixFits(text: string, budget: int, count: Count): nat -> bool {
    (i: nat) => i <= |text| && Fits(count, text[i..], budget)
  }

  function PrefixFits(text: string, budget: int, count: Count): nat -> bool {
    (i: nat) => i <= |text| && Fits(count, text[..i], budget)
  }

  /** The nearest part of a text that the character trims keep: a suffix before the target, a prefix behind it. */
  function CharTrimmed(text: string, budget: nat, count: Count, keepTail: bool): string {
    if Fits(count, text, budget) then text
    else if keepTail then text[FirstFit(SuffixFits(text, budget, count), 0, |text|)..]
    else text[..LastFit(PrefixFits(text, budget, count), 0, |text|)]
  }

  /**
   * What a character trim keeps, under any tokenizer: a fitting suffix or prefix that one more character
   * would take over the budget.
   */
  lemma CharTrimmedIsTight(text: string, budget: nat, count: Count, keepTail: bool)
    ensures var r := CharTrimmed(text, budget, count, keepTail);
            && |r| <= |text| && r == Snippet(text, |r|, keepTail) && Fits(count, r, budget)
            && (|r| < |text| ==> !Fits(count, Snippet(text, |r| + 1, keepTail), budget))
  {
    if Fits(count, text, budget) {
      assert Snippet(text, |text|, keepTail) == text;
    } else if keepTail {
      SuffixIsTight(text, budget, count);
    } else {
      PrefixIsTight(text, budget, count);
    }
  }

  lemma SuffixFitsAt(text: string, budget: nat, count: Count, i: nat)
    requires i <= |text|
    ensures SuffixFits(text, budget, count)(i) <==> Fits(count, text[i..], budget)
  {
  }

  lemma SuffixIsTight(text: string, budget: nat, count: Count)
    requires !Fits(count, text, budget)
    ensures var lo := FirstFit(SuffixFits(text, budget, count), 0, |text|);
            0 < lo <= |text| && Fits(count, text[lo..], budget) && !Fits(count, text[lo - 1..], budget)
  {
    var fits := SuffixFits(text, budget, count);
    SuffixFitsAt(text, budget, count, |text|);
    assert text[|text|..] == "" && text[0..] == text;
    FirstFitSound(fits, 0, |text|);
    var lo := FirstFit(fits, 0, |text|);
    SuffixFitsAt(text, budget, count, lo);
    if lo > 0 {
      SuffixFitsAt(text, budget, count, lo - 1);
    }
  }

  lemma PrefixFitsAt(text: string, budget: nat, count: Count, i: nat)
    requires i <= |text|
    ensures PrefixFits(text, budget, count)(i) <==> Fits(count, text[..i], budget)
  {
  }

  lemma PrefixIsTight(text: string, budget: nat, count: Count)
    requires !Fits(count, text, budget)
    ensures var lo := LastFit(PrefixFits(text, budget, count), 0, |text|);
            lo < |text| && Fits(count, text[..lo], budget) && !Fits(count, text[..lo + 1], budget)
  {
    var fits := PrefixFits(text, budget, count);
    PrefixFitsAt(text, budget, count, 0);
    assert text[..0] == "" && text[..|text|] == text;
    LastFitSound(fits, 0, |text|, |text|);
    var lo := LastFit(fits, 0, |text|);
    PrefixFitsAt(text, budget, count, lo);
    if lo < |text| {
      PrefixFitsAt(text, budget, count, lo + 1);
    }
  }

  /** Under a monotone tokenizer it is the longest fitting suffix or prefix. */
  lemma CharTrimmedIsLongest(text: string, budget: nat, count: Count, keepTail: bool, chars: nat)
    requires (if keepTail then SuffixMonotone(count, text) else PrefixMonotone(count, text)) && chars <= |text|
    ensures Fits(count, Snippet(text, chars, keepTail), budget) <==> chars <= |CharTrimmed(text, budget, count, keepTail)|
  {
    var kept := |CharTrimmed(text, budget, count, keepTail)|;
    CharTrimmedIsTight(text, budget, count, keepTail);
    if keepTail {
      assert chars <= kept ==> Tokens(count, text[|text| - chars..]) <= Tokens(count, text[|text| - kept..]);
      assert chars > kept ==> Tokens(count, text[|text| - (kept + 1)..]) <= Tokens(count, text[|text| - chars..]);
    } else {
      assert chars <= kept ==> Tokens(count, text[..chars]) <= Tokens(count, text[..kept]);
      assert chars > kept ==> Tokens(count, text[..kept + 1]) <= Tokens(count, text[..chars]);
    }
  }

  /** `_char_trim_leading`: drop characters from the head. */
  method CharTrimLeading(text: string, budget: nat, count: Count) returns (r: string)
    ensures r == CharTrimmed(text, budget, count, true)
  {
    if Fits(count, text, budget) {
      return text;
    }
    var lo := SearchFirst(SuffixFits(text, budget, count), |text|);
    r := text[lo..];
  }

  /** `_char_trim_trailing`: drop characters from the tail. */
  method CharTrimTrailing(text: string, budget: nat, count: Count) returns (r: string)
    ensures r == CharTrimmed(text, budget, count, false)
  {
    if Fits(count, text, budget) {
      return text;
    }
    var lo := SearchLast(PrefixFits(text, budget, count), |text|);
    r := text[..lo];
  }

  // ---------------------------------------------------------------- tables

  /**
   * The parts of a table that the JSON and HTML libraries deliver. JSON rows are given by their own text;
   * none for a body that does not decode to a list.
   */
  datatype Content = Json(rows: Option<seq<string>>) | Html(body: seq<Token>) | Unknown

  datatype Parsed = NoTable | Table(attrs: string, body: string, content: Content)

  /** Library calls: reading a tag, printing a list of rows, one cell, the plain text of a row, and escaping. */
  datatype Library = Library(parse: string -> Parsed, dumps: seq<string> -> string, cell: string -> string,
                             plain: string -> string, escape: string -> string)

  function Wrap(attrs: string, inner: string): string {
    "<table " + attrs + ">" + inner + "</table>"
  }

  /** A table holding the nearest `chars` characters of one row; none of them leaves it empty. */
  function Piece(attrs: string, text: string, render: string -> string, chars: nat, keepTail: bool): string
    requires chars <= |text|
  {
    if chars == 0 then Wrap(attrs, "") else Wrap(attrs, render(Snippet(text, chars, keepTail)))
  }

  function PieceFits(attrs: string, text: string, render: string -> string, budget: int, keepTail: bool, count: Count): nat -> bool {
    (i: nat) => i <= |text| && Fits(count, Piece(attrs, text, render, i, keepTail), budget)
  }

  /** The table made of as much of one row's text as the search lets fit. */
  function PieceThatFits(attrs: string, text: string, render: string -> string, budget: int, keepTail: bool, count: Count): (r: Option<string>)
    ensures r.Some? ==> Fits(count, r.value, budget)
  {
    if !Fits(count, Wrap(attrs, ""), budget) then None
    else if Fits(count, Piece(attrs, text, render, |text|, keepTail), budget) then Some(Piece(attrs, text, render, |text|, keepTail))
    else
      var fits := PieceFits(attrs, text, render, budget, keepTail, count);
      var kept := LastFit(fits, 0, |text|);
      LastFitSound(fits, 0, |text|, |text|);
      Some(Piece(attrs, text, render, kept, keepTail))
  }

  /** The fallback gives up only if an empty table does not fit, and else stops one character short of too many. */
  lemma PieceIsTight(attrs: string, text: string, render: string -> string, budget: int, keepTail: bool, count: Count)
    ensures var r := PieceThatFits(attrs, text, render, budget, keepTail, count);
            && (r.None? <==> !Fits(count, Wrap(attrs, ""), budget))
            && (r.Some? ==> exists kept: nat | kept <= |text| ::
                  && r.value == Piece(attrs, text, render, kept, keepTail)
                  && (kept < |text| ==> !Fits(count, Piece(attrs, text, render, kept + 1, keepTail), budget)))
  {
    if Fits(count, Wrap(attrs, ""), budget) && !Fits(count, Piece(attrs, text, render, |text|, keepTail), budget) {
      LastFitSound(PieceFits(attrs, text, render, budget, keepTail, count), 0, |text|, |text|);
    }
  }

  /** `_char_fallback_json_table` and `_char_fallback_html_table`, which differ in how a snippet is rendered. */
  method CharFallback(attrs: string, text: string, render: string -> string, budget: int, keepTail: bool, count: Count)
    returns (r: Option<string>)
    ensures r == PieceThatFits(attrs, text, render, budget, keepTail, count)
  {
    if !Fits(count, Wrap(attrs, ""), budget) {
      return None;
    }
    if Fits(count, Piece(attrs, text, render, |text|, keepTail), budget) {
      return Some(Piece(attrs, text, render, |text|, keepTail));
    }
    var lo := SearchLast(PieceFits(attrs, text, render, budget, keepTail, count), |text|);
    r := Some(Piece(attrs, text, render, lo, keepTail));
  }

  /** The nearest `k` rows: the last ones before the target, the first ones behind it. */
  function Nearest<T>(rows: seq<T>, k: nat, keepTail: bool): seq<T>
    requires k <= |rows|
  {
    if keepTail then rows[|rows| - k..] else rows[..k]
  }

  function RowCount(c: Content): nat {
    match c
    case Json(Some(rows)) => |rows|
    case Html(body) => if Split(body).Some? then |Split(body).value| else 0
    case _ => 0
  }

  /** The table with its nearest `k` rows. */
  function WithRows(t: Parsed, lib: Library, k: nat, keepTail: bool): string
    requires t.Table? && k <= RowCount(t.content)
  {
    match t.content
    case Json(Some(rows)) => Wrap(t.attrs, lib.dumps(Nearest(rows, k, keepTail)))
    case Html(body) =>
      Wrap(t.attrs, if Split(body).Some? then Text(Serialize(Nearest(Split(body).value, k, keepTail))) else "")
    case _ => ""
  }

  /** The table can be trimmed by rows at all. */
  predicate Rowwise(t: Parsed) {
    t.Table? && match t.content
                case Json(rows) => rows.Some?
                case Html(body) => Split(body).Some?
                case Unknown => false
  }

  /** Whether the table with its nearest `k` rows fits. */
  function RowsFit(t: Parsed, lib: Library, budget: int, keepTail: bool, count: Count): nat -> bool
    requires t.Table?
  {
    (k: nat) => k <= RowCount(t.content) && Fits(count, WithRows(t, lib, k, keepTail), budget)
  }

  /** The largest proper number of nearest rows that fits; zero if none does. */
  function BestRows(t: Parsed, lib: Library, budget: int, keepTail: bool, count: Count): (k: nat)
    requires t.Table?
    ensures k == 0 || (k < RowCount(t.content) && Fits(count, WithRows(t, lib, k, keepTail), budget))
  {
    var n := RowCount(t.content);
    if n == 0 then 0 else MostDown(RowsFit(t, lib, budget, keepTail, count), n - 1)
  }

  /** The row loop. */
  method MostRows(t: Parsed, lib: Library, budget: int, keepTail: bool, count: Count) returns (k: nat)
    requires Rowwise(t)
    ensures k == BestRows(t, lib, budget, keepTail, count)
  {
    var n := RowCount(t.content);
    if n == 0 {
      return 0;
    }
    var fits := RowsFit(t, lib, budget, keepTail, count);
    k := n - 1;
    while k > 0 && !fits(k)
      invariant k < n && MostDown(fits, n - 1) == MostDown(fits, k)
    {
      k := k - 1;
    }
  }

  /** The row next to the target, as the text the character fallback cuts. */
  function NearestRow(t: Parsed, lib: Library, keepTail: bool): string
    requires Rowwise(t)
  {
    match t.content
    case Json(Some(rows)) => if rows == [] then t.body else if keepTail then rows[|rows| - 1] else rows[0]
    case Html(body) =>
      var rows := Split(body).value;
      lib.plain(if keepTail then rows[|rows| - 1].tr else rows[0].tr)
    case _ => ""
  }

  function Renderer(t: Parsed, lib: Library): string -> string
    requires t.Table?
  {
    if t.content.Json? then lib.cell else s => "<tr><td>" + lib.escape(s) + "</td></tr>"
  }

  /** The trimmed table: nearest rows first, then the characters of the nearest one. */
  function TrimmedTable(tag: string, lib: Library, budget: int, keepTail: bool, count: Count): (r: Option<string>)
    ensures r.Some? ==> Fits(count, r.value, budget)
  {
    var t := lib.parse(tag);
    if !Rowwise(t) then None
    else
      var k := BestRows(t, lib, budget, keepTail, count);
      if k > 0 then Some(WithRows(t, lib, k, keepTail))
      else PieceThatFits(t.attrs, NearestRow(t, lib, keepTail), Renderer(t, lib), budget, keepTail, count)
  }

  /** `_row_trim_table_leading` and `_row_trim_table_trailing`. */
  method RowTrim(tag: string, lib: Library, budget: int, keepTail: bool, count: Count) returns (r: Option<string>)
    ensures r == TrimmedTable(tag, lib, budget, keepTail, count)
  {
    var t := lib.parse(tag);
    if !Rowwise(t) {
      return None;
    }
    var k := MostRows(t, lib, budget, keepTail, count);
    if k > 0 {
      return Some(WithRows(t, lib, k, keepTail));
    }
    r := CharFallback(t.attrs, NearestRow(t, lib, keepTail), Renderer(t, lib), budget, keepTail, count);
  }

  /**
   * Whole rows before characters, and of whole rows as many as fit: a table that can be trimmed by rows is
   * cut to the most nearest rows that fit, and only if not even one fits to a piece of the nearest row.
   */
  lemma RowsBeforeCharacters(tag: string, lib: Library, budget: int, keepTail: bool, count: Count, j: nat)
    requires Rowwise(lib.parse(tag)) && 1 <= j < RowCount(lib.parse(tag).content)
    requires Fits(count, WithRows(lib.parse(tag), lib, j, keepTail), budget)
    ensures var t := lib.parse(tag);
            exists k | j <= k < RowCount(t.content) ::
              && TrimmedTable(tag, lib, budget, keepTail, count) == Some(WithRows(t, lib, k, keepTail))
              && forall i | k < i < RowCount(t.content) :: !Fits(count, WithRows(t, lib, i, keepTail), budget)
  {
    var t := lib.parse(tag);
    var n, fits := RowCount(t.content), RowsFit(t, lib, budget, keepTail, count);
    var k := BestRows(t, lib, budget, keepTail, count);
    MostDownIsMost(fits, n - 1);
    assert fits(j);
    assert j <= k < n;
    forall i | k < i < n
      ensures !Fits(count, WithRows(t, lib, i, keepTail), budget)
    {
      assert !fits(i);
    }
  }

  // ---------------------------------------------------------------- the whole content

  function Marker(original: nat, final: nat): string {
    "\n<!-- content truncated from " + Decimal(original) + " to " + Decimal(final) + " tokens, head preserved -->"
  }

  /** A head of the text that fits, and would not with one more character. */
  ghost predicate TightHead(head: string, text: string, budget: int, count: Count) {
    head <= text && Fits(count, head, budget) && (|head| < |text| ==> !Fits(count, text[..|head| + 1], budget))
  }

  /** What is left of content without a marker: a table trimmed by rows, or else a tight head of its body or of the text. */
  ghost predicate HeadTrim(r: string, content: string, tables: bool, budget: int, lib: Library, count: Count) {
    if tables && lib.parse(content).Table? then
      var byRows := TrimmedTable(content, lib, budget, false, count);
      if byRows.Some? then r == byRows.value else TightHead(r, lib.parse(content).body, budget, count)
    else TightHead(r, content, budget, count)
  }

  /** What is left of content when `head` was kept to leave room for the marker. */
  ghost predicate MarkedTrim(r: string, head: string, content: string, tables: bool, budget: nat, lib: Library, count: Count) {
    var marked := head + Marker(Tokens(count, content), Tokens(count, head));
    && HeadTrim(head, content, tables, budget - Tokens(count, Marker(Tokens(count, content), budget)), lib, count)
    && if Fits(count, marked, budget) then r == marked else HeadTrim(r, content, tables, budget, lib, count)
  }

  ghost predicate BudgetTrim(r: string, content: string, tables: bool, budget: nat, lib: Library, count: Count) {
    if Tokens(count, Marker(Tokens(count, content), budget)) >= budget then HeadTrim(r, content, tables, budget, lib, count)
    else exists head :: MarkedTrim(r, head, content, tables, budget, lib, count)
  }

  /** Outside tables the result is a head of the content, alone or with the marker that counts it. */
  lemma HeadIsKept(r: string, content: string, tables: bool, budget: nat, lib: Library, count: Count)
    requires BudgetTrim(r, content, tables, budget, lib, count) && (!tables || lib.parse(content).NoTable?)
    ensures r <= content || exists head :: head <= content && r == head + Marker(Tokens(count, content), Tokens(count, head))
  {
    if Tokens(count, Marker(Tokens(count, content), budget)) < budget {
      var head :| MarkedTrim(r, head, content, tables, budget, lib, count);
      assert head <= content;
    }
  }

  /** `_trim_content_inner`: a table by rows, else by the characters of its body; other content by characters. */
  method TrimInner(content: string, tables: bool, budget: nat, lib: Library, count: Count) returns (r: string)
    ensures Fits(count, r, budget) && HeadTrim(r, content, tables, budget, lib, count)
    ensures !tables || lib.parse(content).NoTable? ==> r <= content
  {
    if tables {
      var t := lib.parse(content);
      if t.Table? {
        var trimmed := RowTrim(content, lib, budget, false, count);
        if trimmed.Some? {
          return trimmed.value;
        }
        r := CharTrimTrailing(t.body, budget, count);
        CharTrimmedIsTight(t.body, budget, count, false);
        return;
      }
    }
    r := CharTrimTrailing(content, budget, count);
    CharTrimmedIsTight(content, budget, count, false);
  }

  /**
   * `trim_content_to_budget`: whatever the tokenizer, the result stays within the budget; content that
   * fits, or that there is nothing to measure with, is returned as it is. Trimmed content keeps as much as
   * fits beside the marker; where the marker leaves no room, or does not fit after all, as much as fits alone.
   */
  method TrimContentToBudget(content: string, tables: bool, budget: int, tokenizer: Option<Count>, lib: Library)
    returns (r: string, trimmed: bool)
    ensures trimmed <==> tokenizer.Some? && budget > 0 && !Fits(tokenizer.value, content, budget)
    ensures !trimmed ==> r == content
    ensures tokenizer.Some? && budget > 0 ==> Fits(tokenizer.value, r, budget)
    ensures trimmed && (!tables || lib.parse(content).NoTable?) ==>
      (r <= content || exists head ::
         head <= content && r == head + Marker(Tokens(tokenizer.value, content), Tokens(tokenizer.value, head)))
    ensures trimmed ==> BudgetTrim(r, content, tables, budget, lib, tokenizer.value)
  {
    if content == "" || tokenizer.None? || budget <= 0 {
      return content, false;
    }
    var count := tokenizer.value;
    if Tokens(count, content) <= budget {
      return content, false;
    }
    r := TrimOver(content, tables, budget, lib, count);
    trimmed := true;
    if !tables || lib.parse(content).NoTable? {
      HeadIsKept(r, content, tables, budget, lib, count);
    }
  }

  /** The part of it for content over the budget: room is reserved for the marker, unless that takes it all. */
  method TrimOver(content: string, tables: bool, budget: nat, lib: Library, count: Count) returns (r: string)
    ensures Fits(count, r, budget) && BudgetTrim(r, content, tables, budget, lib, count)
  {
    var original := Tokens(count, content);
    var reserve := Tokens(count, Marker(original, budget));
    if reserve >= budget {
      r := TrimInner(content, tables, budget, lib, count);
      return;
    }
    var head := TrimInner(content, tables, budget - reserve, lib, count);
    r := head + Marker(original, Tokens(count, head));
    if !Fits(count, r, budget) {
      r := TrimInner(content, tables, budget, lib, count);
    }
    assert MarkedTrim(r, head, content, tables, budget, lib, count);
  }
}
