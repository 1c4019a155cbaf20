/**
 * Rows of an HTML table with the wrapper each sits in: splitting a table body into rows and printing rows
 * back. A body is the sequence of what the row scanner finds: wrapper tags, rows, and other text.
 */
module TableMarkup {
  import opened Basics

  datatype Wrapper = THead | TBody | TFoot

  datatype Token = Open(name: Wrapper) | Close(name: Wrapper) | Tr(text: string) | Other(text: string)

  /** A row and its wrapper; none for a row outside every wrapper. */
  datatype Row = Row(wrapper: Option<Wrapper>, tr: string)

  /** The wrapper a token leaves open: a closing tag counts only for the wrapper that is open. */
  function Enter(current: Option<Wrapper>, t: Token): Option<Wrapper> {
    match t
    case Open(w) => Some(w)
    case Close(w) => if current == Some(w) then None else current
    case _ => current
  }

  function Scan(current: Option<Wrapper>, body: seq<Token>): Option<Wrapper>
    decreases |body|
  {
    if body == [] then current else Scan(Enter(current, body[0]), body[1..])
  }

  /** The rows of a body, each with the wrapper that is open where it stands. */
  function RowsOf(current: Option<Wrapper>, body: seq<Token>): seq<Row>
    decreases |body|
  {
    if body == [] then []
    else (if body[0].Tr? then [Row(current, body[0].text)] else []) + RowsOf(Enter(current, body[0]), body[1..])
  }

  /** `None` tells the caller that there is no row at all. */
  function Split(body: seq<Token>): Option<seq<Row>> {
    if RowsOf(None, body) == [] then None else Some(RowsOf(None, body))
  }

  function Switch(from: Option<Wrapper>, to: Option<Wrapper>): seq<Token> {
    if from == to then []
    else (if from.Some? then [Close(from.value)] else []) + if to.Some? then [Open(to.value)] else []
  }

  function Print(current: Option<Wrapper>, rows: seq<Row>): seq<Token>
    decreases |rows|
  {
    if rows == [] then Switch(current, None)
    else Switch(current, rows[0].wrapper) + [Tr(rows[0].tr)] + Print(rows[0].wrapper, rows[1..])
  }

  function Serialize(rows: seq<Row>): seq<Token> {
    Print(None, rows)
  }

  function NameOf(w: Wrapper): string {
    match w
    case THead => "thead"
    case TBody => "tbody"
    case TFoot => "tfoot"
  }

  /** The text of a body. */
  function Text(body: seq<Token>): string {
    if body == [] then ""
    else
      (match body[0]
       case Open(w) => "<" + NameOf(w) + ">"
       case Close(w) => "</" + NameOf(w) + ">"
       case Tr(text) => text
       case Other(text) => text) + Text(body[1..])
  }

  lemma {:induction false} TextConcat(a: seq<Token>, b: seq<Token>)
    ensures Text(a + b) == Text(a) + Text(b)
    decreases |a|
  {
    if a == [] {
      assert a + b == b;
    } else {
      assert (a + b)[1..] == a[1..] + b;
      TextConcat(a[1..], b);
    }
  }

  /** A wrapper stands between its two tags, and a row as it is. */
  lemma WrappedText(w: Wrapper, tr: string)
    ensures var name := match w case THead => "thead" case TBody => "tbody" case TFoot => "tfoot";
            Text([Open(w), Tr(tr), Close(w)]) == ("<" + name + ">") + tr + ("</" + name + ">")
  {
    OneText(Open(w));
    OneText(Close(w));
    OneText(Tr(tr));
    ThreeTexts(Open(w), Tr(tr), Close(w));
  }

  lemma OneText(t: Token)
    ensures Text([t]) == match t
                         case Open(w) => "<" + NameOf(w) + ">"
                         case Close(w) => "</" + NameOf(w) + ">"
                         case Tr(text) => text
                         case Other(text) => text
  {
    assert [t][1..] == [] && Text([]) == "";
  }

  lemma ThreeTexts(a: Token, b: Token, c: Token)
    ensures Text([a, b, c]) == Text([a]) + Text([b]) + Text([c])
  {
    assert [a, b, c] == [a] + [b] + [c];
    TextConcat([a] + [b], [c]);
    TextConcat([a], [b]);
  }

  // ---------------------------------------------------------------- the loops

  lemma {:induction false} ScanConcat(current: Option<Wrapper>, a: seq<Token>, b: seq<Token>)
    ensures Scan(current, a + b) == Scan(Scan(current, a), b)
    ensures RowsOf(current, a + b) == RowsOf(current, a) + RowsOf(Scan(current, a), b)
    decreases |a|
  {
    if a == [] {
      assert a + b == b;
    } else {
      assert (a + b)[1..] == a[1..] + b;
      ScanConcat(Enter(current, a[0]), a[1..], b);
    }
  }

  lemma ScanOne(current: Option<Wrapper>, body: seq<Token>, t: Token)
    ensures Scan(current, body + [t]) == Enter(Scan(current, body), t)
    ensures RowsOf(current, body + [t]) == RowsOf(current, body) + if t.Tr? then [Row(Scan(current, body), t.text)] else []
  {
    ScanConcat(current, body, [t]);
    assert [t][1..] == [];
  }

  /** The tag at `q` opens the wrapper, and nothing behind it opens another or closes this one. */
  ghost predicate OpensLast(body: seq<Token>, q: int, w: Wrapper) {
    0 <= q < |body| && body[q] == Open(w) && forall j | q < j < |body| :: !body[j].Open? && body[j] != Close(w)
  }

  /** The wrapper that is open is the one opened last, unless its own closing tag came behind; other closing tags do not count. */
  lemma {:induction false} OpenWrapper(body: seq<Token>, w: Wrapper)
    ensures Scan(None, body) == Some(w) <==> exists q :: OpensLast(body, q, w)
    decreases |body|
  {
    if body != [] {
      var n := |body| - 1;
      var init, last := body[..n], body[n];
      assert body == init + [last];
      ScanOne(None, init, last);
      OpenWrapper(init, w);
      if last == Open(w) {
        assert OpensLast(body, n, w);
      } else if q :| OpensLast(init, q, w) && !last.Open? && last != Close(w) {
        assert OpensLast(body, q, w);
      }
      if q :| OpensLast(body, q, w) && q < n {
        assert OpensLast(init, q, w);
      }
    }
  }

  /** Where the rows of a body stand, in their order. */
  function RowPlaces(body: seq<Token>): seq<nat> {
    if body == [] then []
    else RowPlaces(body[..|body| - 1]) + if body[|body| - 1].Tr? then [|body| - 1] else []
  }

  lemma {:induction false} PlacesAre(body: seq<Token>, p: nat)
    ensures p in RowPlaces(body) <==> p < |body| && body[p].Tr?
  {
    if body != [] {
      PlacesAre(body[..|body| - 1], p);
    }
  }

  lemma {:induction false} PlacesAscend(body: seq<Token>, j: nat)
    requires j < |RowPlaces(body)|
    ensures RowPlaces(body)[j] < |body| && forall i | 0 <= i < j :: RowPlaces(body)[i] < RowPlaces(body)[j]
  {
    if body != [] {
      var before := RowPlaces(body[..|body| - 1]);
      if j < |before| {
        PlacesAscend(body[..|body| - 1], j);
      } else {
        forall i | 0 <= i < j
          ensures RowPlaces(body)[i] < |body| - 1
        {
          PlacesAscend(body[..|body| - 1], i);
        }
      }
    }
  }

  /** Splitting gives every row, in their order, with the wrapper that is open where it stands. */
  lemma {:induction false} RowsAre(body: seq<Token>)
    ensures var rows, places := RowsOf(None, body), RowPlaces(body);
            && |rows| == |places|
            && forall i | 0 <= i < |rows| ::
                 places[i] < |body| && body[places[i]] == Tr(rows[i].tr) && rows[i].wrapper == Scan(None, body[..places[i]])
    decreases |body|
  {
    if body != [] {
      var n := |body| - 1;
      var init, rows, places := body[..n], RowsOf(None, body), RowPlaces(body);
      assert body == init + [body[n]];
      ScanOne(None, init, body[n]);
      RowsAre(init);
      forall i | 0 <= i < |rows|
        ensures places[i] < |body| && body[places[i]] == Tr(rows[i].tr) && rows[i].wrapper == Scan(None, body[..places[i]])
      {
        if i < |RowsOf(None, init)| {
          assert body[..places[i]] == init[..places[i]];
        }
      }
    }
  }

  /** `split_html_rows`. */
  method SplitHtmlRows(body: seq<Token>) returns (rows: Option<seq<Row>>)
    ensures rows == Split(body)
  {
    var found: seq<Row> := [];
    var current: Option<Wrapper> := None;
    for i := 0 to |body|
      invariant current == Scan(None, body[..i]) && found == RowsOf(None, body[..i])
    {
      assert body[..i + 1] == body[..i] + [body[i]];
      ScanOne(None, body[..i], body[i]);
      match body[i] {
        case Open(w) => current := Some(w);
        case Close(w) =>
          if current == Some(w) {
            current := None;
          }
        case Tr(text) => found := found + [Row(current, text)];
        case Other(_) =>
      }
    }
    assert body[..|body|] == body;
    rows := if found == [] then None else Some(found);
  }

  lemma PrintNext(front: seq<Token>, current: Option<Wrapper>, rows: seq<Row>, i: nat)
    requires i < |rows|
    ensures front + Print(current, rows[i..])
         == front + Switch(current, rows[i].wrapper) + [Tr(rows[i].tr)] + Print(rows[i].wrapper, rows[i + 1..])
  {
    assert rows[i..][0] == rows[i] && rows[i..][1..] == rows[i + 1..];
    var sw, rest := Switch(current, rows[i].wrapper), Print(rows[i].wrapper, rows[i + 1..]);
    assert front + (sw + [Tr(rows[i].tr)] + rest) == front + sw + [Tr(rows[i].tr)] + rest;
  }

  method EmitSwitch(parts: seq<Token>, current: Option<Wrapper>, wrapper: Option<Wrapper>) returns (more: seq<Token>)
    ensures more == parts + Switch(current, wrapper)
  {
    more := parts;
    if wrapper != current {
      if current.Some? {
        more := more + [Close(current.value)];
      }
      if wrapper.Some? {
        more := more + [Open(wrapper.value)];
      }
    }
  }

  /** `serialize_html_rows`: a transition closes the open wrapper and opens the next. */
  method SerializeHtmlRows(rows: seq<Row>) returns (parts: seq<Token>)
    ensures parts == Serialize(rows)
  {
    parts := [];
    var current: Option<Wrapper> := None;
    for i := 0 to |rows|
      invariant Serialize(rows) == parts + Print(current, rows[i..])
    {
      PrintNext(parts, current, rows, i);
      parts := EmitSwitch(parts, current, rows[i].wrapper);
      parts := parts + [Tr(rows[i].tr)];
      current := rows[i].wrapper;
    }
    parts := EmitSwitch(parts, current, None);
  }

  // ---------------------------------------------------------------- they undo each other

  lemma SwitchEnters(from: Option<Wrapper>, to: Option<Wrapper>)
    ensures Scan(from, Switch(from, to)) == to && RowsOf(from, Switch(from, to)) == []
  {
    if from != to {
      var a := if from.Some? then [Close(from.value)] else [];
      var b := if to.Some? then [Open(to.value)] else [];
      ScanConcat(from, a, b);
      assert from.Some? ==> a[1..] == [];
      assert to.Some? ==> b[1..] == [];
    }
  }

  lemma {:induction false} PrintedRowsAreRead(current: Option<Wrapper>, rows: seq<Row>)
    ensures RowsOf(current, Print(current, rows)) == rows
    ensures Scan(current, Print(current, rows)) == None
    decreases |rows|
  {
    if rows == [] {
      SwitchEnters(current, None);
    } else {
      var sw, tail := Switch(current, rows[0].wrapper), Print(rows[0].wrapper, rows[1..]);
      SwitchEnters(current, rows[0].wrapper);
      ScanConcat(current, sw + [Tr(rows[0].tr)], tail);
      ScanOne(current, sw, Tr(rows[0].tr));
      PrintedRowsAreRead(rows[0].wrapper, rows[1..]);
    }
  }

  /** Splitting what was printed gives the rows back, wrappers and all; so no selection of rows loses them. */
  lemma SplitUndoesSerialize(rows: seq<Row>)
    ensures Split(Serialize(rows)) == if rows == [] then None else Some(rows)
  {
    PrintedRowsAreRead(None, rows);
  }

  /** Printing after splitting normalizes a body once and for all. */
  lemma SerializeAfterSplitIsIdempotent(body: seq<Token>)
    requires Split(body).Some?
    ensures var once := Serialize(Split(body).value); Split(once) == Split(body) && Serialize(Split(once).value) == once
  {
    SplitUndoesSerialize(Split(body).value);
  }

  /** Any run of rows, such as the head or the tail a trim keeps, keeps its wrappers. */
  lemma SelectionKeepsWrappers(body: seq<Token>, i: nat, j: nat)
    requires Split(body).Some? && i < j <= |Split(body).value|
    ensures Split(Serialize(Split(body).value[i..j])) == Some(Split(body).value[i..j])
  {
    SplitUndoesSerialize(Split(body).value[i..j]);
  }

  /** Between two rows the open wrapper is closed first, and only then the next one opens. */
  lemma SwitchIsBalanced(from: Option<Wrapper>, to: Option<Wrapper>, k: nat)
    requires k < |Switch(from, to)|
    ensures var sw := Switch(from, to);
            && (sw[k].Open? ==> Scan(from, sw[..k]).None?)
            && (sw[k].Close? ==> Scan(from, sw[..k]) == Some(sw[k].name))
  {
    var sw := Switch(from, to);
    if k == 1 {
      assert sw[..1] == [sw[0]] && [sw[0]][1..] == [];
    }
  }

  /** Printed bodies are balanced: every wrapper opened is closed before the next opens. */
  lemma {:induction false} PrintedIsBalanced(current: Option<Wrapper>, rows: seq<Row>, k: nat)
    requires k < |Print(current, rows)|
    ensures var body := Print(current, rows);
            && (body[k].Open? ==> Scan(current, body[..k]).None?)
            && (body[k].Close? ==> Scan(current, body[..k]) == Some(body[k].name))
    decreases |rows|
  {
    var body := Print(current, rows);
    var next := if rows == [] then None else rows[0].wrapper;
    var sw := Switch(current, next);
    if k < |sw| {
      assert body[..k] == sw[..k];
      SwitchIsBalanced(current, next, k);
    } else if k > |sw| {
      var front := sw + [Tr(rows[0].tr)];
      var tail := Print(next, rows[1..]);
      assert body == front + tail;
      assert body[..k] == front + tail[..k - |front|];
      SwitchEnters(current, next);
      ScanOne(current, sw, Tr(rows[0].tr));
      ScanConcat(current, front, tail[..k - |front|]);
      PrintedIsBalanced(next, rows[1..], k - |front|);
    }
  }
}
