/** Cutting long documents into overlapping windows for a reranker, and ranking documents by their windows' scores. */
module Rerank {
  import opened Basics

  /** A stretch of a document's tokens. */
  datatype Window = Window(start: nat, end: nat)

  /** The overlap really used: one that would keep the loop from advancing is halved against the window. */
  function Clamped(size: int, overlap: int): int
    requires size >= 1
    ensures Clamped(size, overlap) < size
  {
    if overlap >= size then size / 2 else overlap
  }

  /** An overlap below the window is kept; another becomes half the window, so that each window still advances by half. */
  lemma ClampedKeepsAdvancing(size: int, overlap: int)
    requires size >= 1
    ensures if overlap < size then Clamped(size, overlap) == overlap
            else Clamped(size, overlap) >= 0 && 0 <= size - 2 * Clamped(size, overlap) <= 1
  {
  }

  /** The windows of `n` tokens from `start` on. */
  function Windows(n: nat, size: int, overlap: int, start: nat): seq<Window>
    requires size >= 1 && overlap < size
    decreases n - start
  {
    if start >= n then []
    else
      var end := Min(start + size, n);
      [Window(start, end)] + if end >= n then [] else Windows(n, size, overlap, end - overlap)
  }

  /** How often the window has to advance by `step` to get past `rest` tokens. */
  function Advances(rest: int, step: nat): nat
    requires step >= 1
    decreases rest
  {
    if rest <= 0 then 0 else 1 + Advances(rest - step, step)
  }

  /** That is `rest` divided by `step`, rounded up. */
  lemma {:induction false} AdvancesRoundUp(rest: nat, step: nat)
    requires step >= 1 && rest > 0
    ensures (Advances(rest, step) - 1) * step < rest <= Advances(rest, step) * step
    decreases rest
  {
    var a := Advances(rest - step, step);
    assert (1 + a) * step == step + a * step;
    if rest > step {
      AdvancesRoundUp(rest - step, step);
      assert (a - 1) * step == a * step - step;
    }
  }

  // ---------------------------------------------------------------- tiling

  /** The windows run from `start` to the end, each of at most `size` tokens, each overlapping the next by exactly `overlap`. */
  ghost predicate Tiles(ws: seq<Window>, n: nat, size: int, overlap: int, start: nat) {
    && ws != [] && ws[0].start == start && ws[|ws| - 1].end == n
    && (forall i | 0 <= i < |ws| :: ws[i].start < ws[i].end <= n && ws[i].end - ws[i].start <= size)
    && (forall i | 0 <= i < |ws| - 1 :: ws[i].end - ws[i].start == size && ws[i + 1].start == ws[i].end - overlap)
  }

  lemma TilesCons(first: Window, rest: seq<Window>, n: nat, size: int, overlap: int)
    requires first.start < first.end <= n && first.end - first.start == size && overlap <= first.end
    requires Tiles(rest, n, size, overlap, first.end - overlap)
    ensures Tiles([first] + rest, n, size, overlap, first.start)
  {
    var ws := [first] + rest;
    forall i | 0 <= i < |ws| - 1
      ensures ws[i].end - ws[i].start == size && ws[i + 1].start == ws[i].end - overlap
    {
      assert ws[i + 1] == rest[i];
      assert i > 0 ==> ws[i] == rest[i - 1];
    }
  }

  lemma {:induction false} WindowsTile(n: nat, size: int, overlap: int, start: nat)
    requires size >= 1 && 0 <= overlap < size && start < n
    ensures Tiles(Windows(n, size, overlap, start), n, size, overlap, start)
    decreases n - start
  {
    var end := Min(start + size, n);
    if end < n {
      WindowsTile(n, size, overlap, end - overlap);
      TilesCons(Window(start, end), Windows(n, size, overlap, end - overlap), n, size, overlap);
    }
  }

  /** Dropping the overlaps and joining the windows. */
  function Joined<T>(tokens: seq<T>, ws: seq<Window>, skip: nat): seq<T> {
    if ws == [] then []
    else
      (if ws[0].start + skip <= ws[0].end <= |tokens| then tokens[ws[0].start + skip..ws[0].end] else [])
        + Joined(tokens, ws[1..], skip)
  }

  lemma {:induction false} JoinedIsRest<T>(tokens: seq<T>, size: int, overlap: int, start: nat)
    requires size >= 1 && 0 <= overlap < size && start + overlap <= |tokens| && start < |tokens|
    ensures Joined(tokens, Windows(|tokens|, size, overlap, start), overlap) == tokens[start + overlap..]
    decreases |tokens| - start
  {
    var n := |tokens|;
    var end := Min(start + size, n);
    var ws := Windows(n, size, overlap, start);
    if end < n {
      JoinedIsRest(tokens, size, overlap, end - overlap);
      assert ws[1..] == Windows(n, size, overlap, end - overlap);
      assert tokens[start + overlap..end] + tokens[end..] == tokens[start + overlap..];
    } else {
      assert ws[1..] == [];
    }
  }

  /** The first window with the later ones behind their overlaps gives the token list back. */
  lemma WindowsRebuild<T>(tokens: seq<T>, size: int, overlap: int)
    requires size >= 1 && 0 <= overlap < size && |tokens| > size
    ensures var ws := Windows(|tokens|, size, overlap, 0);
            tokens[..size] + Joined(tokens, ws[1..], overlap) == tokens
  {
    var later := Windows(|tokens|, size, overlap, size - overlap);
    assert Windows(|tokens|, size, overlap, 0)[1..] == later;
    JoinedIsRest(tokens, size, overlap, size - overlap);
    assert Joined(tokens, later, overlap) == tokens[size..];
  }

  /** The number of windows: one, and one more for every advance that the rest needs. */
  lemma {:induction false} WindowCount(n: nat, size: int, overlap: int, start: nat)
    requires size >= 1 && 0 <= overlap < size && start < n
    ensures |Windows(n, size, overlap, start)|
         == 1 + Advances(n - start - size, size - overlap)
    decreases n - start
  {
    if n - start > size {
      WindowCount(n, size, overlap, start + size - overlap);
    }
  }

  /** A negative overlap is not refused, and then the token behind the first window is in no window. */
  lemma {:induction false} LaterWindowsStartLater(n: nat, size: int, overlap: int, start: nat)
    requires size >= 1 && overlap < size
    ensures forall w | w in Windows(n, size, overlap, start) :: w.start >= start
    decreases n - start
  {
    if start < n {
      var end := Min(start + size, n);
      if end < n {
        LaterWindowsStartLater(n, size, overlap, end - overlap);
      }
    }
  }

  predicate Inside(w: Window, k: int) {
    w.start <= k < w.end
  }

  ghost predicate CoversAll(ws: seq<Window>, n: nat) {
    forall k: nat | k < n :: Covered(ws, k)
  }

  ghost predicate Covered(ws: seq<Window>, k: nat) {
    exists w :: w in ws && Inside(w, k)
  }

  lemma {:induction false} CoveredFrom(n: nat, size: int, overlap: int, start: nat, k: nat)
    requires size >= 1 && 0 <= overlap < size && start <= k < n
    ensures Covered(Windows(n, size, overlap, start), k)
    decreases n - start
  {
    var end := Min(start + size, n);
    var ws := Windows(n, size, overlap, start);
    if k < end {
      assert ws[0] in ws && Inside(ws[0], k);
    } else {
      CoveredFrom(n, size, overlap, end - overlap, k);
      var w :| w in Windows(n, size, overlap, end - overlap) && Inside(w, k);
      assert w in ws;
    }
  }

  /** A long document is covered by its windows exactly when the overlap is not negative. */
  lemma CoveredIffNotNegative(n: nat, size: int, overlap: int)
    requires size >= 1 && overlap < size && n > size
    ensures CoversAll(Windows(n, size, overlap, 0), n) <==> overlap >= 0
  {
    if overlap >= 0 {
      forall k: nat | k < n
        ensures Covered(Windows(n, size, overlap, 0), k)
      {
        CoveredFrom(n, size, overlap, 0, k);
      }
    } else {
      var ws := Windows(n, size, overlap, 0);
      LaterWindowsStartLater(n, size, overlap, size - overlap);
      assert ws == [Window(0, size)] + Windows(n, size, overlap, size - overlap);
      assert forall w | w in ws :: !Inside(w, size);
      assert !Covered(ws, size);
    }
  }

  // ---------------------------------------------------------------- the loops

  /** The tokenizer's two directions; without it characters stand in, four to a token. */
  datatype Tokenizer<!T> = Tokenizer(encode: string -> seq<T>, decode: seq<T> -> string)

  const CHARS_PER_TOKEN := 4

  function Cut<T>(tokens: seq<T>, ws: seq<Window>, decode: seq<T> -> string): seq<string> {
    if ws == [] then []
    else [if ws[0].start <= ws[0].end <= |tokens| then decode(tokens[ws[0].start..ws[0].end]) else ""] + Cut(tokens, ws[1..], decode)
  }

  /** The chunks of one document. */
  function ChunksOf<T>(doc: string, tokens: seq<T>, size: int, overlap: int, decode: seq<T> -> string): seq<string>
    requires size >= 1 && overlap < size
  {
    if |tokens| <= size then [doc] else Cut(tokens, Windows(|tokens|, size, overlap, 0), decode)
  }

  /** The `k`-th window from `start` on begins `k` advances behind it and has the window's size, if that many tokens are left. */
  lemma {:induction false} CutAt<T>(tokens: seq<T>, size: int, overlap: int, start: nat, k: nat, decode: seq<T> -> string)
    requires size >= 1 && overlap < size && k < |Cut(tokens, Windows(|tokens|, size, overlap, start), decode)|
    ensures var from := start + k * (size - overlap);
            && start <= from < |tokens|
            && Cut(tokens, Windows(|tokens|, size, overlap, start), decode)[k] == decode(tokens[from..Min(from + size, |tokens|)])
    decreases k
  {
    CutStep(tokens, size, overlap, start, decode);
    if k > 0 {
      CutAt(tokens, size, overlap, start + size - overlap, k - 1, decode);
      assert k * (size - overlap) == (size - overlap) + (k - 1) * (size - overlap);
    }
  }

  lemma CutStep<T>(tokens: seq<T>, size: int, overlap: int, start: nat, decode: seq<T> -> string)
    requires size >= 1 && overlap < size
    ensures var cut := Cut(tokens, Windows(|tokens|, size, overlap, start), decode);
            if start >= |tokens| then cut == []
            else cut == [decode(tokens[start..Min(start + size, |tokens|)])]
                   + if start + size >= |tokens| then [] else Cut(tokens, Windows(|tokens|, size, overlap, start + size - overlap), decode)
  {
    if start < |tokens| {
      var end := Min(start + size, |tokens|);
      assert Windows(|tokens|, size, overlap, start)[1..] == if end >= |tokens| then [] else Windows(|tokens|, size, overlap, end - overlap);
    }
  }

  /** A document within the window is one chunk, its own text; of a longer one every chunk is the text of its window's tokens. */
  lemma ChunkTexts<T>(doc: string, tokens: seq<T>, size: int, overlap: int, decode: seq<T> -> string, k: nat)
    requires size >= 1 && overlap < size && k < |ChunksOf(doc, tokens, size, overlap, decode)|
    ensures var chunks, from := ChunksOf(doc, tokens, size, overlap, decode), k * (size - overlap);
            if |tokens| <= size then k == 0 && chunks == [doc]
            else 0 <= from < |tokens| && chunks[k] == decode(tokens[from..Min(from + size, |tokens|)])
  {
    if |tokens| > size {
      CutAt(tokens, size, overlap, 0, k, decode);
    }
  }

  /** And there are as many as advances are needed, and one. */
  lemma ChunkCount<T>(doc: string, tokens: seq<T>, size: int, overlap: int, decode: seq<T> -> string)
    requires size >= 1 && 0 <= overlap < size && |tokens| > size
    ensures |ChunksOf(doc, tokens, size, overlap, decode)| == 1 + Advances(|tokens| - size, size - overlap)
  {
    WindowCount(|tokens|, size, overlap, 0);
    CutLength(tokens, Windows(|tokens|, size, overlap, 0), decode);
  }

  lemma {:induction false} CutLength<T>(tokens: seq<T>, ws: seq<Window>, decode: seq<T> -> string)
    ensures |Cut(tokens, ws, decode)| == |ws|
  {
    if ws != [] {
      CutLength(tokens, ws[1..], decode);
    }
  }

  function Repeat(k: nat, n: nat): seq<nat> {
    seq(n, i => k)
  }

  /** All chunks, and for each the document it comes from. */
  function AllChunks<T>(docs: seq<string>, tok: Tokenizer<T>, size: int, overlap: int): (seq<string>, seq<nat>)
    requires size >= 1 && overlap < size
  {
    if docs == [] then ([], [])
    else
      var before := AllChunks(docs[..|docs| - 1], tok, size, overlap);
      var doc := docs[|docs| - 1];
      var more := ChunksOf(doc, tok.encode(doc), size, overlap, tok.decode);
      (before.0 + more, before.1 + Repeat(|docs| - 1, |more|))
  }

  /** The window loop over one document. */
  method ChunkOne<T>(doc: string, tokens: seq<T>, size: int, overlap: int, decode: seq<T> -> string) returns (chunks: seq<string>)
    requires size >= 1 && overlap < size
    ensures chunks == ChunksOf(doc, tokens, size, overlap, decode)
  {
    if |tokens| <= size {
      return [doc];
    }
    chunks := [];
    var start := 0;
    while start < |tokens|
      invariant start >= 0
      invariant ChunksOf(doc, tokens, size, overlap, decode) == chunks + Cut(tokens, Windows(|tokens|, size, overlap, start), decode)
      decreases |tokens| - start
    {
      var end := Min(start + size, |tokens|);
      CutNext(chunks, tokens, size, overlap, start, decode);
      chunks := chunks + [decode(tokens[start..end])];
      assert chunks + [] == chunks;
      if end >= |tokens| {
        return;
      }
      start := end - overlap;
    }
  }

  lemma CutNext<T>(chunks: seq<string>, tokens: seq<T>, size: int, overlap: int, start: nat, decode: seq<T> -> string)
    requires size >= 1 && overlap < size && start < |tokens|
    ensures var end := Min(start + size, |tokens|);
            chunks + Cut(tokens, Windows(|tokens|, size, overlap, start), decode)
              == chunks + [decode(tokens[start..end])]
                   + if end >= |tokens| then [] else Cut(tokens, Windows(|tokens|, size, overlap, end - overlap), decode)
  {
    var end := Min(start + size, |tokens|);
    var ws := Windows(|tokens|, size, overlap, start);
    assert ws[1..] == if end >= |tokens| then [] else Windows(|tokens|, size, overlap, end - overlap);
  }

  method ChunkAll<T>(docs: seq<string>, tok: Tokenizer<T>, size: int, overlap: int) returns (chunks: seq<string>, indices: seq<nat>)
    requires size >= 1 && overlap < size
    ensures (chunks, indices) == AllChunks(docs, tok, size, overlap)
  {
    chunks, indices := [], [];
    for i := 0 to |docs|
      invariant (chunks, indices) == AllChunks(docs[..i], tok, size, overlap)
    {
      assert docs[..i + 1][..i] == docs[..i] && docs[..i + 1][i] == docs[i];
      var more := ChunkOne(docs[i], tok.encode(docs[i]), size, overlap, tok.decode);
      chunks, indices := chunks + more, indices + Repeat(i, |more|);
    }
    assert docs[..|docs|] == docs;
  }

  function Chars(): Tokenizer<char> {
    Tokenizer((s: string) => s, (s: string) => s)
  }

  /** `chunk_documents_for_rerank`: no window size below one; without a tokenizer, windows of characters. */
  method ChunkDocuments<T>(docs: seq<string>, size: int, overlap: int, tok: Option<Tokenizer<T>>)
    returns (r: Option<(seq<string>, seq<nat>)>)
    ensures r.None? <==> size < 1
    ensures r.Some? && tok.Some? ==> r.value == AllChunks(docs, tok.value, size, Clamped(size, overlap))
    ensures r.Some? && tok.None? ==>
      r.value == AllChunks(docs, Chars(), size * CHARS_PER_TOKEN, Clamped(size, overlap) * CHARS_PER_TOKEN)
  {
    if size < 1 {
      return None;
    }
    var used := if overlap >= size then size / 2 else overlap;
    var chunks, indices;
    if tok.Some? {
      chunks, indices := ChunkAll(docs, tok.value, size, used);
    } else {
      chunks, indices := ChunkAll(docs, Chars(), size * CHARS_PER_TOKEN, used * CHARS_PER_TOKEN);
    }
    r := Some((chunks, indices));
  }

  /** Chunks and indices go together, and the indices name documents, each of them at least once, in order. */
  lemma {:induction false} IndicesNameDocuments<T>(docs: seq<string>, tok: Tokenizer<T>, size: int, overlap: int)
    requires size >= 1 && overlap < size
    ensures var r := AllChunks(docs, tok, size, overlap);
            && |r.0| == |r.1|
            && (forall i | 0 <= i < |r.1| :: r.1[i] < |docs|)
            && (forall i, j | 0 <= i <= j < |r.1| :: r.1[i] <= r.1[j])
            && (forall d | 0 <= d < |docs| :: d in r.1)
  {
    if docs != [] {
      var init, doc := docs[..|docs| - 1], docs[|docs| - 1];
      IndicesNameDocuments(init, tok, size, overlap);
      var before, r := AllChunks(init, tok, size, overlap), AllChunks(docs, tok, size, overlap);
      var more := ChunksOf(doc, tok.encode(doc), size, overlap, tok.decode);
      assert more != [];
      assert r.1 == before.1 + Repeat(|init|, |more|);
      assert r.1[|before.1|] == |init|;
      forall d | 0 <= d < |docs|
        ensures d in r.1
      {
        assert d < |init| ==> d in before.1;
      }
    }
  }

  /** The chunks that carry the index of a document. */
  function ChunksFor(chunks: seq<string>, indices: seq<nat>, d: nat): seq<string>
    requires |chunks| == |indices|
    decreases |chunks|
  {
    if chunks == [] then []
    else
      var n := |chunks| - 1;
      ChunksFor(chunks[..n], indices[..n], d) + if indices[n] == d then [chunks[n]] else []
  }

  lemma {:induction false} ChunksForConcat(a: seq<string>, more: seq<string>, i: seq<nat>, k: nat, d: nat)
    requires |a| == |i|
    ensures ChunksFor(a + more, i + Repeat(k, |more|), d) == ChunksFor(a, i, d) + if k == d then more else []
    decreases |more|
  {
    if more == [] {
      assert a + more == a && i + Repeat(k, 0) == i;
    } else {
      var n := |more| - 1;
      ChunksForConcat(a, more[..n], i, k, d);
      assert (a + more)[..|a| + n] == a + more[..n] && (i + Repeat(k, n + 1))[..|i| + n] == i + Repeat(k, n);
      assert more[..n] + [more[n]] == more;
    }
  }

  lemma {:induction false} NoneFor(chunks: seq<string>, indices: seq<nat>, d: nat)
    requires |chunks| == |indices| && d !in indices
    ensures ChunksFor(chunks, indices, d) == []
    decreases |chunks|
  {
    if chunks != [] {
      assert indices == indices[..|chunks| - 1] + [indices[|chunks| - 1]];
      NoneFor(chunks[..|chunks| - 1], indices[..|chunks| - 1], d);
    }
  }

  lemma LastChunks<T>(docs: seq<string>, tok: Tokenizer<T>, size: int, overlap: int, d: nat)
    requires size >= 1 && overlap < size && docs != []
    ensures var init, last := docs[..|docs| - 1], |docs| - 1;
            var before, r := AllChunks(init, tok, size, overlap), AllChunks(docs, tok, size, overlap);
            var more := ChunksOf(docs[last], tok.encode(docs[last]), size, overlap, tok.decode);
            && |before.0| == |before.1| && |r.0| == |r.1|
            && ChunksFor(r.0, r.1, d) == ChunksFor(before.0, before.1, d) + (if d == last then more else [])
            && (d == last ==> ChunksFor(before.0, before.1, d) == [])
  {
    var init, last := docs[..|docs| - 1], |docs| - 1;
    var before := AllChunks(init, tok, size, overlap);
    IndicesNameDocuments(init, tok, size, overlap);
    ChunksForConcat(before.0, ChunksOf(docs[last], tok.encode(docs[last]), size, overlap, tok.decode), before.1, last, d);
    if d == last {
      NoneFor(before.0, before.1, d);
    }
  }

  /** The chunks with the index of a document are exactly its chunks, in their order. */
  lemma {:induction false} IndicesAreRight<T>(docs: seq<string>, tok: Tokenizer<T>, size: int, overlap: int, d: nat)
    requires size >= 1 && overlap < size && d < |docs|
    ensures var r := AllChunks(docs, tok, size, overlap);
            |r.0| == |r.1| && ChunksFor(r.0, r.1, d) == ChunksOf(docs[d], tok.encode(docs[d]), size, overlap, tok.decode)
  {
    LastChunks(docs, tok, size, overlap, d);
    if d < |docs| - 1 {
      IndicesAreRight(docs[..|docs| - 1], tok, size, overlap, d);
    }
  }

  /** Without a tokenizer the chunks are windows of characters. */
  lemma CharacterChunks(doc: string, size: int, overlap: int, k: nat)
    requires size >= 1 && overlap < size && |doc| > size
    requires k < |ChunksOf(doc, Chars().encode(doc), size, overlap, Chars().decode)|
    ensures var chunks, from := ChunksOf(doc, Chars().encode(doc), size, overlap, Chars().decode), k * (size - overlap);
            0 <= from < |doc| && chunks[k] == doc[from..Min(from + size, |doc|)]
  {
    ChunkTexts(doc, Chars().encode(doc), size, overlap, Chars().decode, k);
  }

  // ---------------------------------------------------------------- scores

  datatype Scored = Scored(index: int, score: real)

  datatype Strategy = MaxScore | MeanScore | FirstScore

  /** The scores that a document's chunks received, in the order of the results; other indices are ignored. */
  function ScoresOf(results: seq<Scored>, indices: seq<nat>, doc: nat): seq<real> {
    if results == [] then []
    else
      var r := results[|results| - 1];
      ScoresOf(results[..|results| - 1], indices, doc)
        + if 0 <= r.index < |indices| && indices[r.index] == doc then [r.score] else []
  }

  function Largest(scores: seq<real>): (m: real)
    requires scores != []
    ensures m in scores && forall s | s in scores :: s <= m
  {
    assert scores == [scores[0]] + scores[1..];
    if |scores| == 1 then scores[0]
    else
      var rest := Largest(scores[1..]);
      if scores[0] >= rest then scores[0] else rest
  }

  function Sum(scores: seq<real>): real {
    if scores == [] then 0.0 else scores[0] + Sum(scores[1..])
  }

  function Final(scores: seq<real>, strategy: Strategy): real
    requires scores != []
  {
    match strategy
    case MaxScore => Largest(scores)
    case MeanScore => Sum(scores) / (|scores| as real)
    case FirstScore => scores[0]
  }

  /** The scored documents among the first `n`, in their order. */
  function Aggregated(results: seq<Scored>, indices: seq<nat>, n: nat, strategy: Strategy): seq<Scored> {
    if n == 0 then []
    else
      var scores := ScoresOf(results, indices, n - 1);
      Aggregated(results, indices, n - 1, strategy) + if scores == [] then [] else [Scored(n - 1, Final(scores, strategy))]
  }

  function Insert(x: Scored, s: seq<Scored>): seq<Scored> {
    if s == [] then [x]
    else if x.score >= s[0].score then [x] + s
    else [s[0]] + Insert(x, s[1..])
  }

  /** The library's stable sort by descending score. */
  function Ranked(s: seq<Scored>): seq<Scored> {
    if s == [] then [] else Insert(s[0], Ranked(s[1..]))
  }

  method GroupScores(results: seq<Scored>, indices: seq<nat>, n: nat) returns (scores: seq<seq<real>>)
    requires forall i | 0 <= i < |indices| :: indices[i] < n
    ensures |scores| == n && forall d | 0 <= d < n :: scores[d] == ScoresOf(results, indices, d)
  {
    scores := seq(n, i => []);
    for k := 0 to |results|
      invariant |scores| == n && forall d | 0 <= d < n :: scores[d] == ScoresOf(results[..k], indices, d)
    {
      ScoresNext(results, indices, k);
      var i := results[k].index;
      if 0 <= i < |indices| {
        scores := scores[indices[i] := scores[indices[i]] + [results[k].score]];
      }
    }
    assert results[..|results|] == results;
  }

  lemma ScoresNext(results: seq<Scored>, indices: seq<nat>, k: nat)
    requires k < |results|
    ensures forall d: nat :: ScoresOf(results[..k + 1], indices, d)
              == ScoresOf(results[..k], indices, d)
                   + if 0 <= results[k].index < |indices| && indices[results[k].index] == d then [results[k].score] else []
  {
    assert results[..k + 1][..k] == results[..k] && results[..k + 1][k] == results[k];
  }

  /** `aggregate_chunk_scores`: scores grouped by document, one result per scored document, best first. */
  method AggregateChunkScores(results: seq<Scored>, indices: seq<nat>, n: nat, strategy: Strategy) returns (ranked: seq<Scored>)
    requires forall i | 0 <= i < |indices| :: indices[i] < n
    ensures ranked == Ranked(Aggregated(results, indices, n, strategy))
  {
    var scores := GroupScores(results, indices, n);
    var list := [];
    for d := 0 to n
      invariant list == Aggregated(results, indices, d, strategy)
    {
      if scores[d] != [] {
        list := list + [Scored(d, Final(scores[d], strategy))];
      }
    }
    ranked := Ranked(list);
  }

  // ---------------------------------------------------------------- ranking

  /** Better score first; equal scores in the order of the documents. */
  predicate Above(a: Scored, b: Scored) {
    a.score > b.score || (a.score == b.score && a.index < b.index)
  }

  ghost predicate InOrder(s: seq<Scored>) {
    forall i, j | 0 <= i < j < |s| :: Above(s[i], s[j])
  }

  lemma {:induction false} InsertKeeps(x: Scored, s: seq<Scored>)
    requires InOrder(s) && forall y | y in s :: x.index < y.index
    ensures InOrder(Insert(x, s))
    ensures forall y :: y in Insert(x, s) <==> y == x || y in s
    ensures |Insert(x, s)| == |s| + 1
  {
    if s != [] && x.score < s[0].score {
      InsertKeeps(x, s[1..]);
      var rest := Insert(x, s[1..]);
      forall j | 0 <= j < |rest|
        ensures Above(s[0], rest[j])
      {
        assert rest[j] in rest;
        if rest[j] != x {
          var k :| 0 <= k < |s[1..]| && s[1..][k] == rest[j];
          assert s[k + 1] == rest[j];
        }
      }
    } else if s != [] {
      forall j | 0 <= j < |s|
        ensures Above(x, s[j])
      {
        assert s[j] in s;
        assert j > 0 ==> Above(s[0], s[j]);
      }
    }
  }

  /** By document index. */
  ghost predicate Ascending(s: seq<Scored>) {
    forall i, j | 0 <= i < j < |s| :: s[i].index < s[j].index
  }

  lemma {:induction false} RankedKeeps(s: seq<Scored>)
    requires Ascending(s)
    ensures InOrder(Ranked(s)) && |Ranked(s)| == |s| && forall y :: y in Ranked(s) <==> y in s
  {
    if s != [] {
      RankedKeeps(s[1..]);
      forall y | y in Ranked(s[1..])
        ensures s[0].index < y.index
      {
        var k :| 0 <= k < |s[1..]| && s[1..][k] == y;
        assert s[k + 1] == y;
      }
      InsertKeeps(s[0], Ranked(s[1..]));
      assert s == [s[0]] + s[1..];
    }
  }

  predicate FinalOf(results: seq<Scored>, indices: seq<nat>, strategy: Strategy, y: Scored) {
    y.index >= 0 && ScoresOf(results, indices, y.index) != [] && y.score == Final(ScoresOf(results, indices, y.index), strategy)
  }

  lemma {:induction false} AggregatedAre(results: seq<Scored>, indices: seq<nat>, n: nat, strategy: Strategy, y: Scored)
    ensures y in Aggregated(results, indices, n, strategy) <==> y.index < n && FinalOf(results, indices, strategy, y)
  {
    if n == 0 {
      assert Aggregated(results, indices, n, strategy) == [];
    } else {
      var before, scores := Aggregated(results, indices, n - 1, strategy), ScoresOf(results, indices, n - 1);
      AggregatedAre(results, indices, n - 1, strategy, y);
      if scores != [] {
        assert y in before + [Scored(n - 1, Final(scores, strategy))] <==> y in before || y == Scored(n - 1, Final(scores, strategy));
      }
    }
  }

  lemma {:induction false} AggregatedAscend(results: seq<Scored>, indices: seq<nat>, n: nat, strategy: Strategy)
    ensures Ascending(Aggregated(results, indices, n, strategy))
    ensures forall y | y in Aggregated(results, indices, n, strategy) :: y.index < n
  {
    if n > 0 {
      AggregatedAscend(results, indices, n - 1, strategy);
      var before, a := Aggregated(results, indices, n - 1, strategy), Aggregated(results, indices, n, strategy);
      forall i, j | 0 <= i < j < |a|
        ensures a[i].index < a[j].index
      {
        assert a[i] == before[i] && before[i] in before;
        if j < |before| {
          assert a[j] == before[j];
          assert before[i].index < before[j].index;
        } else {
          assert a[j].index == n - 1;
        }
      }
    }
  }

  /** Whatever the strategy, exactly the documents with a scored window are ranked, each once, by their final score, best first. */
  lemma RanksByFinal(results: seq<Scored>, indices: seq<nat>, n: nat, strategy: Strategy)
    ensures var r := Ranked(Aggregated(results, indices, n, strategy));
            && InOrder(r)
            && forall y :: y in r <==> y.index < n && FinalOf(results, indices, strategy, y)
  {
    var a := Aggregated(results, indices, n, strategy);
    AggregatedAscend(results, indices, n, strategy);
    RankedKeeps(a);
    forall y
      ensures y in Ranked(a) <==> y.index < n && FinalOf(results, indices, strategy, y)
    {
      AggregatedAre(results, indices, n, strategy, y);
      assert y in Ranked(a) <==> y in a;
    }
  }

  /** The result scores a window of the document. */
  predicate Of(r: Scored, indices: seq<nat>, doc: nat) {
    0 <= r.index < |indices| && indices[r.index] == doc
  }

  predicate Hits(results: seq<Scored>, indices: seq<nat>, doc: nat, k: int) {
    0 <= k < |results| && Of(results[k], indices, doc)
  }

  /** Maximum aggregation takes the score of the document's best window. */
  lemma RanksByBestWindow(results: seq<Scored>, indices: seq<nat>, n: nat, y: Scored)
    ensures y in Ranked(Aggregated(results, indices, n, MaxScore)) <==>
      && 0 <= y.index < n
      && (exists k :: Hits(results, indices, y.index, k) && results[k].score == y.score)
      && forall k | Hits(results, indices, y.index, k) :: results[k].score <= y.score
  {
    RanksByFinal(results, indices, n, MaxScore);
    if y.index >= 0 {
      HitsAreScores(results, indices, y.index);
    }
  }

  lemma HitsAreScores(results: seq<Scored>, indices: seq<nat>, doc: nat)
    ensures forall s :: s in ScoresOf(results, indices, doc) <==> exists k :: Hits(results, indices, doc, k) && results[k].score == s
    ensures forall k | Hits(results, indices, doc, k) :: results[k].score in ScoresOf(results, indices, doc)
  {
    forall s
      ensures s in ScoresOf(results, indices, doc) <==> exists k :: Hits(results, indices, doc, k) && results[k].score == s
    {
      ScoresAreFromWindows(results, indices, doc, s);
      if s in ScoresOf(results, indices, doc) {
        var k :| 0 <= k < |results| && results[k].score == s && 0 <= results[k].index < |indices| && indices[results[k].index] == doc;
        assert Hits(results, indices, doc, k);
      }
    }
  }

  /** The sum of the scores that the document's windows received, and their number. */
  function Total(results: seq<Scored>, indices: seq<nat>, doc: nat): (real, nat) {
    if results == [] then (0.0, 0)
    else
      var before, r := Total(results[..|results| - 1], indices, doc), results[|results| - 1];
      if Of(r, indices, doc) then (before.0 + r.score, before.1 + 1) else before
  }

  lemma {:induction false} SumSnoc(a: seq<real>, x: real)
    ensures Sum(a + [x]) == Sum(a) + x
  {
    if a == [] {
      assert [x][1..] == [];
    } else {
      assert (a + [x])[1..] == a[1..] + [x];
      SumSnoc(a[1..], x);
    }
  }

  lemma {:induction false} TotalIsSum(results: seq<Scored>, indices: seq<nat>, doc: nat)
    ensures Total(results, indices, doc) == (Sum(ScoresOf(results, indices, doc)), |ScoresOf(results, indices, doc)|)
  {
    if results != [] {
      var init, r := results[..|results| - 1], results[|results| - 1];
      TotalIsSum(init, indices, doc);
      SumSnoc(ScoresOf(init, indices, doc), r.score);
      assert ScoresOf(init, indices, doc) + [] == ScoresOf(init, indices, doc);
    }
  }

  /** The score, counted as often as there are scores, is their sum. */
  predicate MeanOf(score: real, total: (real, nat)) {
    total.1 > 0 && Times(score, total.1) == total.0
  }

  function Times(x: real, n: nat): real {
    if n == 0 then 0.0 else x + Times(x, n - 1)
  }

  lemma {:induction false} TimesIsProduct(x: real, n: nat)
    ensures Times(x, n) == x * (n as real)
  {
    if n > 0 {
      TimesIsProduct(x, n - 1);
      var m := (n - 1) as real;
      assert n as real == m + 1.0 && x * (m + 1.0) == x * m + x;
    }
  }

  lemma QuotientTimes(q: real, sum: real, n: nat)
    requires n > 0
    ensures q == sum / (n as real) <==> Times(q, n) == sum
  {
    TimesIsProduct(q, n);
    assert (sum / (n as real)) * (n as real) == sum;
  }

  /** Mean aggregation: counted once for each scored window the score adds up to what they received together. */
  lemma RanksByMean(results: seq<Scored>, indices: seq<nat>, n: nat, y: Scored)
    ensures y in Ranked(Aggregated(results, indices, n, MeanScore)) <==>
      0 <= y.index < n && MeanOf(y.score, Total(results, indices, y.index))
  {
    RanksByFinal(results, indices, n, MeanScore);
    if y.index >= 0 {
      MeanIsFinal(results, indices, y);
    }
  }

  lemma MeanIsFinal(results: seq<Scored>, indices: seq<nat>, y: Scored)
    requires y.index >= 0
    ensures FinalOf(results, indices, MeanScore, y) <==> MeanOf(y.score, Total(results, indices, y.index))
  {
    var scores := ScoresOf(results, indices, y.index);
    TotalIsSum(results, indices, y.index);
    if scores != [] {
      QuotientTimes(y.score, Sum(scores), |scores|);
    }
  }

  /** The `k`-th result is the first for the document. */
  ghost predicate FirstHit(results: seq<Scored>, indices: seq<nat>, doc: nat, k: int) {
    Hits(results, indices, doc, k) && forall j | 0 <= j < k :: !Hits(results, indices, doc, j)
  }

  lemma {:induction false} FirstScoreIs(results: seq<Scored>, indices: seq<nat>, doc: nat) returns (k: int)
    ensures if ScoresOf(results, indices, doc) == [] then forall j :: !Hits(results, indices, doc, j)
            else FirstHit(results, indices, doc, k) && results[k].score == ScoresOf(results, indices, doc)[0]
  {
    k := |results| - 1;
    if results != [] {
      var init := results[..k];
      var first := FirstScoreIs(init, indices, doc);
      assert forall j :: Hits(init, indices, doc, j) <==> j < k && Hits(results, indices, doc, j);
      if ScoresOf(init, indices, doc) != [] {
        k := first;
      }
    }
  }

  /** First aggregation: the score of the first result for one of its windows. */
  lemma RanksByFirst(results: seq<Scored>, indices: seq<nat>, n: nat, y: Scored)
    ensures y in Ranked(Aggregated(results, indices, n, FirstScore)) <==>
      0 <= y.index < n && exists k :: FirstHit(results, indices, y.index, k) && results[k].score == y.score
  {
    RanksByFinal(results, indices, n, FirstScore);
    if y.index >= 0 {
      var k := FirstScoreIs(results, indices, y.index);
      forall j | FirstHit(results, indices, y.index, j)
        ensures j == k
      {
        assert Hits(results, indices, y.index, k) && Hits(results, indices, y.index, j);
      }
    }
  }

  lemma {:induction false} ScoresAreFromWindows(results: seq<Scored>, indices: seq<nat>, doc: nat, s: real)
    ensures s in ScoresOf(results, indices, doc)
       <==> exists k :: 0 <= k < |results| && results[k].score == s && 0 <= results[k].index < |indices| && indices[results[k].index] == doc
  {
    if results != [] {
      ScoresAreFromWindows(results[..|results| - 1], indices, doc, s);
    }
  }
}
